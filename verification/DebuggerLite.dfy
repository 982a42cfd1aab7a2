/**
 The script debugger plugin: processes owned by client ports, and the rendezvous of a
 process ending with the client's Wait command. The handler of an ended process spins in
 a nested event loop until Wait has come, so several handlers can be stacked; only the
 innermost one can go on.
 */
module DebuggerLite {
  import opened Seqs

  /** A process object; `waitDone` is the flag the spinning handler polls. */
  datatype Proc = Proc(dpid: nat, wPort: nat, running: bool, waitDone: bool, waitId: nat)

  datatype Error = InvalidParams | InvalidDpid | NoPermission | PrepareFailed | StartFailed | WriteFailed

  datatype Body =
    | Ok
    | Failed(error: Error)
    | Prepared(dpid: nat)
    | Completed(dpid: nat)               // the answer to Wait
    | Started(results: map<nat, bool>, all: bool)
    | Stopped(results: map<nat, bool>, all: bool)
    | Status(states: map<nat, bool>)

  datatype Reply = Reply(port: nat, id: nat, body: Body)

  /** What happens between a process and its Waits. */
  datatype Deed =
    | Began(dpid: nat)
    | Unbegun(dpid: nat)                                // the launch failed; the flag is cleared all the same
    | Asked(dpid: nat, id: nat)                         // a Wait was accepted
    | Answered(dpid: nat, id: nat, byKill: bool)        // by a kill, or by the handler of an end
    | Forgotten(dpid: nat)                              // deleted although its handler still spins

  /** Input of a client that reached a process. */
  datatype Written = Written(port: nat, dpid: nat)

  /** `spinning`: the handlers waiting for their Wait, innermost last. `log`: the deeds so far. */
  datatype Plugin = Plugin(procs: map<nat, Proc>, lastDpid: nat, spinning: seq<nat>,
                           replies: seq<Reply>, log: seq<Deed>, written: seq<Written>)

  datatype Option<T> = None | Some(value: T)

  datatype Step =
    | Prepare(port: nat, id: nat, script: bool, ok: bool)
    | Start(port: nat, id: nat, target: Option<nat>, ok: bool)
    | Wait(port: nat, id: nat, target: Option<nat>)
    | Stop(port: nat, id: nat, target: Option<nat>)
    | Input(port: nat, id: nat, target: Option<nat>, cmd: bool, ok: bool)
    | StartAll(port: nat, id: nat, able: set<nat>)
    | StopAll(port: nat, id: nat)
    | GetStatus(port: nat, id: nat)
    | CloseSocket(port: nat)      // port 0: all
    | ProcEnds(dpid: nat)
    | Unwind               // the innermost handler sees its flag set and answers

  const INIT := Plugin(map[], 0, [], [], [], [])

  // -------------------------------------------------------------------- behaviour

  /** The process a command names, or why the command is refused. */
  function Refusal(p: Plugin, port: nat, target: Option<nat>): Option<Error> {
    if target.None? then Some(InvalidParams)
    else if target.value !in p.procs then Some(InvalidDpid)
    else if p.procs[target.value].wPort != port then Some(NoPermission)
    else None
  }

  function Say(p: Plugin, port: nat, id: nat, body: Body): Plugin {
    p.(replies := p.replies + [Reply(port, id, body)])
  }

  /** The answer to Wait, under the id that Wait carried. */
  function Complete(p: Plugin, proc: Proc, byKill: bool): Plugin {
    Say(p, proc.wPort, proc.waitId, Completed(proc.dpid))
    .(log := p.log + [Answered(proc.dpid, proc.waitId, byKill)])
  }

  /** Starting a running process does nothing; otherwise the flag is cleared first. */
  function StartProc(proc: Proc, ok: bool): Proc {
    if proc.running then proc else proc.(waitDone := false, running := ok)
  }

  function StartOne(p: Plugin, d: nat, ok: bool): Plugin
    requires d in p.procs
  {
    var proc := p.procs[d];
    p.(procs := p.procs[d := StartProc(proc, ok)],
       log := if proc.running then p.log else p.log + [if ok then Began(d) else Unbegun(d)])
  }

  /** Killing a running process sets its flag, so its handler answers at once. */
  function StopProc(p: Plugin, d: nat): Plugin
    requires d in p.procs
  {
    var proc := p.procs[d];
    if !proc.running then p
    else Complete(p.(procs := p.procs[d := proc.(running := false, waitDone := true)]), proc, true)
  }

  function Owned(procs: map<nat, Proc>, port: nat): set<nat> {
    set d | d in procs && procs[d].wPort == port
  }

  /** The processes a closed port takes with it. */
  function Closing(procs: map<nat, Proc>, port: nat): set<nat> {
    if port == 0 then procs.Keys else Owned(procs, port)
  }

  function StartResults(procs: map<nat, Proc>, port: nat, able: set<nat>): map<nat, bool> {
    map d | d in procs && procs[d].wPort == port :: procs[d].running || d in able
  }

  predicate AllTrue(results: map<nat, bool>) {
    forall d :: d in results ==> results[d]
  }

  /** `detail` tells of each process of `ds` whether it runs or can be launched. */
  ghost predicate NotedFor(detail: map<nat, bool>, procs: map<nat, Proc>, ds: set<nat>, able: set<nat>)
    requires ds <= procs.Keys
  {
    detail.Keys == ds && forall d :: d in ds ==> detail[d] == (procs[d].running || d in able)
  }

  lemma NotedWith(detail: map<nat, bool>, procs: map<nat, Proc>, mine: set<nat>, rest: set<nat>, d: nat, able: set<nat>)
    requires rest <= mine <= procs.Keys && d in rest && NotedFor(detail, procs, mine - rest, able)
    ensures NotedFor(detail[d := procs[d].running || d in able], procs, mine - (rest - {d}), able)
  {
    assert mine - (rest - {d}) == (mine - rest) + {d};
  }

  lemma AllTrueWith(results: map<nat, bool>, d: nat, result: bool)
    requires d !in results
    ensures AllTrue(results[d := result]) <==> AllTrue(results) && result
  {
    var more := results[d := result];
    assert forall e :: e in results ==> e in more && more[e] == results[e];
    assert d in more;
  }

  /** Starts the processes of `ds` from the smallest id on; `able` are those whose program can be launched. */
  ghost function StartEach(p: Plugin, ds: set<nat>, able: set<nat>): (q: Plugin)
    requires ds <= p.procs.Keys
    ensures q.procs.Keys == p.procs.Keys
    decreases |ds|
  {
    if ds == {} then p
    else
      var d := Least(ds);
      StartEach(StartOne(p, d, d in able), ds - {d}, able)
  }

  /** Stops the processes of `ds` from the smallest id on. */
  ghost function StopEach(p: Plugin, ds: set<nat>): (q: Plugin)
    requires ds <= p.procs.Keys
    ensures q.procs.Keys == p.procs.Keys
    decreases |ds|
  {
    if ds == {} then p
    else
      var d := Least(ds);
      StopEach(StopProc(p, d), ds - {d})
  }

  /** Takes a process out of the map and deletes it, whatever its handler is doing. */
  function Remove(p: Plugin, d: nat): Plugin {
    p.(procs := p.procs - {d}, log := if d in p.spinning then p.log + [Forgotten(d)] else p.log)
  }

  /** Stops and deletes the processes of `ds` from the smallest id on. */
  ghost function CloseEach(p: Plugin, ds: set<nat>): (q: Plugin)
    requires ds <= p.procs.Keys
    decreases |ds|
  {
    if ds == {} then p
    else
      var d := Least(ds);
      CloseEach(Remove(StopProc(p, d), d), ds - {d})
  }

  ghost function Least(ds: set<nat>): (d: nat)
    requires ds != {}
    ensures d in ds && forall e :: e in ds ==> d <= e
    decreases |ds|
  {
    var d :| d in ds;
    if ds == {d} then d
    else
      var e := Least(ds - {d});
      assert forall x :: x in ds ==> x == d || x in ds - {d};
      if d < e then d else e
  }

  /** A handler whose process was deleted reads freed memory; nothing is said of it any more. */
  ghost predicate Enabled(p: Plugin, s: Step) {
    match s
    case ProcEnds(d) => d in p.procs && p.procs[d].running
    case Unwind => p.spinning != [] && var d := p.spinning[|p.spinning| - 1];
                   d in p.procs && p.procs[d].waitDone
    case _ => true
  }

  ghost function Apply(p: Plugin, s: Step): Plugin
    requires Enabled(p, s)
  {
    match s
    case Prepare(port, id, script, ok) =>
      if !script then Say(p, port, id, Failed(InvalidParams))
      else
        var d := p.lastDpid + 1;
        var q := p.(lastDpid := d);
        if ok then Say(q.(procs := p.procs[d := Proc(d, port, false, false, 0)]), port, id, Prepared(d))
        else Say(q, port, id, Failed(PrepareFailed))
    case Start(port, id, target, ok) =>
      var e := Refusal(p, port, target);
      if e.Some? then Say(p, port, id, Failed(e.value))
      else
        Say(StartOne(p, target.value, ok), port, id,
            if p.procs[target.value].running || ok then Ok else Failed(StartFailed))
    case Wait(port, id, target) =>
      var e := Refusal(p, port, target);
      if e.Some? then Say(p, port, id, Failed(e.value))
      else p.(procs := p.procs[target.value := p.procs[target.value].(waitId := id, waitDone := true)],
              log := p.log + [Asked(target.value, id)])
    case Stop(port, id, target) =>
      var e := Refusal(p, port, target);
      if e.Some? then Say(p, port, id, Failed(e.value))
      else
        Say(Remove(StopProc(p, target.value), target.value), port, id, Ok)
    case Input(port, id, target, cmd, ok) =>
      var e := Refusal(p, port, target);
      if e.Some? then Say(p, port, id, Failed(e.value))
      else if !cmd then Say(p, port, id, Failed(InvalidParams))
      else if p.procs[target.value].running && ok then
        Say(p.(written := p.written + [Written(port, target.value)]), port, id, Ok)
      else Say(p, port, id, Failed(WriteFailed))
    case StartAll(port, id, able) =>
      var results := StartResults(p.procs, port, able);
      Say(StartEach(p, Owned(p.procs, port), able), port, id, Started(results, AllTrue(results)))
    case StopAll(port, id) =>
      var mine := Owned(p.procs, port);
      Say(StopEach(p, mine), port, id, Stopped(map d | d in mine :: true, true))
    case GetStatus(port, id) =>
      Say(p, port, id, Status(map d | d in Owned(p.procs, port) :: p.procs[d].running))
    case CloseSocket(port) => CloseEach(p, Closing(p.procs, port))
    case ProcEnds(d) =>
      p.(procs := p.procs[d := p.procs[d].(running := false)], spinning := p.spinning + [d])
    case Unwind =>
      var n := |p.spinning| - 1;
      Complete(p, p.procs[p.spinning[n]], false).(spinning := p.spinning[..n])
  }

  ghost predicate Legal(p: Plugin, steps: seq<Step>)
    decreases |steps|
  {
    steps == [] || (Enabled(p, steps[0]) && Legal(Apply(p, steps[0]), steps[1..]))
  }

  ghost function Exec(p: Plugin, steps: seq<Step>): Plugin
    requires Legal(p, steps)
    decreases |steps|
  {
    if steps == [] then p else Exec(Apply(p, steps[0]), steps[1..])
  }

  // -------------------------------------------------------------- per-port isolation

  /** Processes of ports other than `port` are the same in both states. */
  ghost predicate OthersUntouched(p: Plugin, q: Plugin, port: nat) {
    && (forall d :: d in p.procs && p.procs[d].wPort != port ==> d in q.procs && q.procs[d] == p.procs[d])
    && (forall d :: d in q.procs && q.procs[d].wPort != port ==> d in p.procs)
  }

  ghost predicate WellKept(p: Plugin) {
    && (forall d :: d in p.procs ==> p.procs[d].dpid == d && 1 <= d <= p.lastDpid)
    && (forall i :: 0 <= i < |p.spinning| ==> 1 <= p.spinning[i] <= p.lastDpid)
  }

  /** The map is about all processes of `port` and no other. */
  ghost predicate ListsOwn(m: map<nat, bool>, p: Plugin, port: nat) {
    forall d :: d in m <==> d in p.procs && p.procs[d].wPort == port
  }

  /** What a reply says about processes is true, and only of processes of the port it goes to. */
  ghost predicate TellsOwn(p: Plugin, q: Plugin, r: Reply) {
    match r.body
    case Prepared(d) => d !in p.procs && d in q.procs && q.procs[d] == Proc(d, r.port, false, false, 0)
    case Completed(d) => d in p.procs && p.procs[d].wPort == r.port
    case Started(m, all) => ListsOwn(m, p, r.port) && (all <==> forall d :: d in m ==> m[d])
                            && forall d :: d in m ==> d in q.procs && m[d] == q.procs[d].running
    case Stopped(m, all) => ListsOwn(m, p, r.port) && all
                            && forall d :: d in m ==> m[d] && d in q.procs && !q.procs[d].running
    case Status(m) => ListsOwn(m, p, r.port)
                      && forall d :: d in m ==> d in p.procs && m[d] == p.procs[d].running
    case _ => true
  }

  /** The replies of `q` are those of `p`, then some to `port` about its own processes. */
  ghost predicate AnswersOwn(p: Plugin, q: Plugin, port: nat) {
    && p.replies <= q.replies
    && forall i :: |p.replies| <= i < |q.replies| ==> q.replies[i].port == port && TellsOwn(p, q, q.replies[i])
  }

  /** What stopping the processes of `ds` changes: they no longer run, and answers go to their ports. */
  ghost predicate OnlyStops(p: Plugin, q: Plugin, ds: set<nat>) {
    && q.procs.Keys == p.procs.Keys && q.spinning == p.spinning && q.lastDpid == p.lastDpid
    && (forall d :: d in p.procs ==> q.procs[d].wPort == p.procs[d].wPort && q.procs[d].dpid == p.procs[d].dpid)
    && (forall d :: d in p.procs && d !in ds ==> q.procs[d] == p.procs[d])
    && (forall d :: d in p.procs && d in ds ==> !q.procs[d].running)
    && p.replies <= q.replies
    && forall i :: |p.replies| <= i < |q.replies| ==>
         && q.replies[i].body.Completed? && q.replies[i].body.dpid in ds
         && q.replies[i].body.dpid in p.procs && q.replies[i].port == p.procs[q.replies[i].body.dpid].wPort
  }

  lemma StopOneOnlyStops(p: Plugin, d: nat)
    requires WellKept(p) && d in p.procs
    ensures OnlyStops(p, StopProc(p, d), {d}) && WellKept(StopProc(p, d))
  {
  }

  lemma {:induction false} StopEachOnlyStops(p: Plugin, ds: set<nat>)
    requires WellKept(p) && ds <= p.procs.Keys
    ensures OnlyStops(p, StopEach(p, ds), ds)
    decreases |ds|
  {
    if ds != {} {
      var d := Least(ds);
      var q := StopProc(p, d);
      StopOneOnlyStops(p, d);
      StopEachOnlyStops(q, ds - {d});
    }
  }

  /** What closing the processes of `ds` changes: they are gone, and answers go to their ports. */
  ghost predicate OnlyCloses(p: Plugin, q: Plugin, ds: set<nat>) {
    && q.procs == p.procs - ds && q.spinning == p.spinning && q.lastDpid == p.lastDpid
    && p.replies <= q.replies
    && forall i :: |p.replies| <= i < |q.replies| ==>
         && q.replies[i].body.Completed? && q.replies[i].body.dpid in ds
         && q.replies[i].body.dpid in p.procs && q.replies[i].port == p.procs[q.replies[i].body.dpid].wPort
  }

  lemma CloseOneOnlyCloses(p: Plugin, d: nat)
    requires WellKept(p) && d in p.procs
    ensures OnlyCloses(p, Remove(StopProc(p, d), d), {d})
  {
  }

  lemma {:induction false} CloseEachOnlyCloses(p: Plugin, ds: set<nat>)
    requires WellKept(p) && ds <= p.procs.Keys
    ensures OnlyCloses(p, CloseEach(p, ds), ds)
    decreases |ds|
  {
    if ds != {} {
      var d := Least(ds);
      var q := Remove(StopProc(p, d), d);
      CloseOneOnlyCloses(p, d);
      CloseEachOnlyCloses(q, ds - {d});
      assert p.procs - {d} - (ds - {d}) == p.procs - ds;
    }
  }

  /** What starting the processes of `ds` changes. */
  lemma {:induction false} StartEachOnlyStarts(p: Plugin, ds: set<nat>, able: set<nat>)
    requires ds <= p.procs.Keys
    ensures var q := StartEach(p, ds, able);
      && q == p.(procs := q.procs, log := q.log)
      && forall d :: d in p.procs ==>
           q.procs[d] == if d in ds then StartProc(p.procs[d], d in able) else p.procs[d]
    decreases |ds|
  {
    if ds != {} {
      var d := Least(ds);
      StartEachOnlyStarts(StartOne(p, d, d in able), ds - {d}, able);
    }
  }

  /** The port a step acts for. */
  ghost function PortOf(p: Plugin, s: Step): nat
    requires Enabled(p, s) && WellKept(p)
  {
    match s
    case ProcEnds(d) => p.procs[d].wPort
    case Unwind => p.procs[p.spinning[|p.spinning| - 1]].wPort
    case _ => s.port
  }

  /** Other ports' processes stay, the port is answered about its own, keys and ids are kept. */
  ghost predicate Isolated(p: Plugin, q: Plugin, port: nat) {
    && OthersUntouched(p, q, port) && AnswersOwn(p, q, port)
    && WellKept(q) && p.lastDpid <= q.lastDpid
    && forall d :: d in q.procs ==> d in p.procs || d > p.lastDpid
  }

  lemma StopIsolated(p: Plugin, s: Step)
    requires WellKept(p) && Enabled(p, s) && s.Stop?
    ensures Isolated(p, Apply(p, s), s.port)
  {
    var e := Refusal(p, s.port, s.target);
    if e.None? {
      CloseOneOnlyCloses(p, s.target.value);
    }
  }

  lemma StopAllIsolated(p: Plugin, s: Step)
    requires WellKept(p) && Enabled(p, s) && s.StopAll?
    ensures Isolated(p, Apply(p, s), s.port)
  {
    StopEachOnlyStops(p, Owned(p.procs, s.port));
  }

  lemma CloseIsolated(p: Plugin, s: Step)
    requires WellKept(p) && Enabled(p, s) && s.CloseSocket? && s.port != 0
    ensures Isolated(p, Apply(p, s), s.port)
  {
    CloseEachOnlyCloses(p, Owned(p.procs, s.port));
  }

  lemma CommandIsolated(p: Plugin, s: Step)
    requires WellKept(p) && Enabled(p, s)
    requires s.Start? || s.Wait? || s.Input? || s.GetStatus?
    ensures Isolated(p, Apply(p, s), s.port)
  {
  }

  lemma PrepareIsolated(p: Plugin, s: Step)
    requires WellKept(p) && Enabled(p, s) && s.Prepare?
    ensures Isolated(p, Apply(p, s), s.port)
  {
  }

  lemma StartAllIsolated(p: Plugin, s: Step)
    requires WellKept(p) && Enabled(p, s) && s.StartAll?
    ensures Isolated(p, Apply(p, s), s.port)
  {
    var t := Apply(p, s);
    StartAllFrame(p, s);
    StartedTruthfully(p, s);
    assert AnswersOwn(p, t, s.port);
  }

  lemma StartAllFrame(p: Plugin, s: Step)
    requires WellKept(p) && Enabled(p, s) && s.StartAll?
    ensures var t := Apply(p, s);
      && OthersUntouched(p, t, s.port) && t.procs.Keys == p.procs.Keys && t.lastDpid == p.lastDpid && WellKept(t)
      && |t.replies| == |p.replies| + 1 && p.replies <= t.replies
  {
    StartEachOnlyStarts(p, Owned(p.procs, s.port), s.able);
  }

  lemma StartedTruthfully(p: Plugin, s: Step)
    requires Enabled(p, s) && s.StartAll?
    ensures var q := Apply(p, s);
      q.replies != [] && q.replies[|q.replies| - 1].port == s.port && TellsOwn(p, q, q.replies[|q.replies| - 1])
  {
    StartEachOnlyStarts(p, Owned(p.procs, s.port), s.able);
  }

  /** Every step of every run is isolated to the port it acts for; only closing port 0 is about all. */
  lemma StepIsolated(p: Plugin, s: Step)
    requires WellKept(p) && Enabled(p, s) && s != CloseSocket(0)
    ensures Isolated(p, Apply(p, s), PortOf(p, s))
  {
    match s
    case Stop(_, _, _) => StopIsolated(p, s);
    case StopAll(_, _) => StopAllIsolated(p, s);
    case CloseSocket(_) => CloseIsolated(p, s);
    case Prepare(_, _, _, _) => PrepareIsolated(p, s);
    case StartAll(_, _, _) => StartAllIsolated(p, s);
    case ProcEnds(_) =>
    case Unwind =>
    case _ => CommandIsolated(p, s);
  }

  lemma StepWellKept(p: Plugin, s: Step)
    requires WellKept(p) && Enabled(p, s)
    ensures var q := Apply(p, s);
      WellKept(q) && p.lastDpid <= q.lastDpid && forall d :: d in q.procs ==> d in p.procs || d > p.lastDpid
  {
    if s == CloseSocket(0) {
      CloseEachOnlyCloses(p, p.procs.Keys);
    } else {
      StepIsolated(p, s);
    }
  }

  /** Over a whole run a process id, once gone, never comes back. */
  lemma {:induction false} IdsNeverReused(p: Plugin, steps: seq<Step>)
    requires WellKept(p) && Legal(p, steps)
    ensures var q := Exec(p, steps);
      WellKept(q) && p.lastDpid <= q.lastDpid
      && forall d :: d <= p.lastDpid && d !in p.procs ==> d !in q.procs
    decreases |steps|
  {
    if steps != [] {
      StepWellKept(p, steps[0]);
      IdsNeverReused(Apply(p, steps[0]), steps[1..]);
    }
  }

  /** Closing a port leaves exactly the processes of the others, as they were; closing port 0 none. */
  lemma CloseLeavesOthers(p: Plugin, port: nat)
    requires WellKept(p)
    ensures var q := Apply(p, CloseSocket(port));
      && (forall d :: d in q.procs <==> d in p.procs && port != 0 && p.procs[d].wPort != port)
      && (forall d :: d in q.procs ==> q.procs[d] == p.procs[d])
  {
    CloseEachOnlyCloses(p, Closing(p.procs, port));
  }

  // --------------------------------------------------------- what commands are told

  /** `q` is `p` with one more reply. */
  ghost predicate OnlyTold(p: Plugin, q: Plugin, port: nat, id: nat, body: Body) {
    q == p.(replies := p.replies + [Reply(port, id, body)])
  }

  /**
   A command that names no process, an unknown one or another port's is told so, and
   nothing else happens.
   */
  lemma RefusedExactly(p: Plugin, s: Step)
    requires Enabled(p, s) && (s.Start? || s.Wait? || s.Stop? || s.Input?)
    ensures s.target == None ==> OnlyTold(p, Apply(p, s), s.port, s.id, Failed(InvalidParams))
    ensures s.target.Some? && s.target.value !in p.procs ==>
      OnlyTold(p, Apply(p, s), s.port, s.id, Failed(InvalidDpid))
    ensures s.target.Some? && s.target.value in p.procs && p.procs[s.target.value].wPort != s.port ==>
      OnlyTold(p, Apply(p, s), s.port, s.id, Failed(NoPermission))
  {
  }

  /** The step names a process of its own port. */
  predicate NamesOwn(p: Plugin, s: Step)
    requires s.Start? || s.Wait? || s.Stop? || s.Input?
  {
    s.target.Some? && s.target.value in p.procs && p.procs[s.target.value].wPort == s.port
  }

  /** Start is told Ok exactly if the process then runs, which it does if it did or can be launched. */
  lemma StartTells(p: Plugin, s: Step)
    requires Enabled(p, s) && s.Start? && NamesOwn(p, s)
    ensures var q := Apply(p, s);
      var d := s.target.value;
      && d in q.procs && (q.procs[d].running <==> p.procs[d].running || s.ok)
      && q.replies == p.replies + [Reply(s.port, s.id, if q.procs[d].running then Ok else Failed(StartFailed))]
      && (p.procs[d].running ==> q.procs == p.procs)
  {
  }

  /** Input is told Ok exactly if the process took it, which it does if it runs and the write succeeds. */
  lemma InputTells(p: Plugin, s: Step)
    requires Enabled(p, s) && s.Input? && NamesOwn(p, s)
    ensures var q := Apply(p, s);
      var d := s.target.value;
      && (q.written != p.written <==> s.cmd && p.procs[d].running && s.ok)
      && (q.written != p.written ==> q.written == p.written + [Written(s.port, d)])
      && q.replies == p.replies + [Reply(s.port, s.id,
           if q.written != p.written then Ok else if !s.cmd then Failed(InvalidParams) else Failed(WriteFailed))]
      && q.procs == p.procs
  {
    assert |p.written + [Written(s.port, s.target.value)]| != |p.written|;
  }

  /** Without a script nothing is prepared; a failed preparation only uses up an id. */
  lemma PrepareTells(p: Plugin, s: Step)
    requires Enabled(p, s) && s.Prepare?
    ensures !s.script ==> OnlyTold(p, Apply(p, s), s.port, s.id, Failed(InvalidParams))
    ensures s.script && !s.ok ==>
      OnlyTold(p.(lastDpid := p.lastDpid + 1), Apply(p, s), s.port, s.id, Failed(PrepareFailed))
    ensures s.script && s.ok ==>
      && Apply(p, s).replies == p.replies + [Reply(s.port, s.id, Prepared(p.lastDpid + 1))]
      && p.lastDpid + 1 in Apply(p, s).procs
  {
  }

  /** StartAll starts every process of the port that can be launched, and touches no other. */
  lemma StartAllStarts(p: Plugin, s: Step)
    requires Enabled(p, s) && s.StartAll?
    ensures var q := Apply(p, s);
      && q.procs.Keys == p.procs.Keys
      && (forall d :: d in p.procs && p.procs[d].wPort != s.port ==> q.procs[d] == p.procs[d])
      && (forall d :: d in p.procs && p.procs[d].wPort == s.port ==>
            && (q.procs[d].running <==> p.procs[d].running || d in s.able)
            && (p.procs[d].running ==> q.procs[d] == p.procs[d]))
  {
    StartEachOnlyStarts(p, Owned(p.procs, s.port), s.able);
  }

  ghost predicate IsCommand(s: Step) {
    !s.CloseSocket? && !s.ProcEnds? && !s.Unwind?
  }

  /** One answer under the command's own id closes what a step says; before it come only completions. */
  ghost predicate ToldUnder(p: Plugin, q: Plugin, id: nat) {
    && |q.replies| > |p.replies| && p.replies <= q.replies
    && q.replies[|q.replies| - 1].id == id && !q.replies[|q.replies| - 1].body.Completed?
    && forall i :: |p.replies| <= i < |q.replies| - 1 ==> q.replies[i].body.Completed?
  }

  /** A command is answered once, under its own id; only an accepted Wait is not, and events are not. */
  lemma AnsweredOnceUnderItsId(p: Plugin, s: Step)
    requires WellKept(p) && Enabled(p, s)
    ensures IsCommand(s) && !(s.Wait? && NamesOwn(p, s)) ==> ToldUnder(p, Apply(p, s), s.id)
    ensures s.Wait? && NamesOwn(p, s) ==> Apply(p, s).replies == p.replies
    ensures !IsCommand(s) ==>
      && p.replies <= Apply(p, s).replies
      && forall i :: |p.replies| <= i < |Apply(p, s).replies| ==> Apply(p, s).replies[i].body.Completed?
  {
    match s
    case StopAll(port, _) => StopEachOnlyStops(p, Owned(p.procs, port));
    case StartAll(port, _, able) => StartEachOnlyStarts(p, Owned(p.procs, port), able);
    case CloseSocket(port) => CloseEachOnlyCloses(p, Closing(p.procs, port));
    case Stop(_, _, target) =>
      if NamesOwn(p, s) {
        CloseOneOnlyCloses(p, target.value);
      }
    case _ =>
  }

  // ------------------------------------------------------------ what is written

  /** What a step writes goes to a running process of the port that sent it. */
  ghost predicate WritesOwn(p: Plugin, q: Plugin) {
    && p.written <= q.written
    && forall i :: |p.written| <= i < |q.written| ==>
         var w := q.written[i];
         w.dpid in p.procs && p.procs[w.dpid].running && p.procs[w.dpid].wPort == w.port
  }

  lemma StepWritesOwn(p: Plugin, s: Step)
    requires WellKept(p) && Enabled(p, s)
    ensures WritesOwn(p, Apply(p, s))
    ensures Apply(p, s).written != p.written ==> s.Input? && Apply(p, s).written == p.written + [Written(s.port, s.target.value)]
  {
    if !s.Input? {
      WrittenByOthers(p, s);
    }
  }

  lemma WrittenByOthers(p: Plugin, s: Step)
    requires Enabled(p, s) && !s.Input?
    ensures Apply(p, s).written == p.written
  {
    match s
    case StopAll(port, _) => StopEachWrites(p, Owned(p.procs, port));
    case StartAll(port, _, able) => StartEachOnlyStarts(p, Owned(p.procs, port), able);
    case CloseSocket(port) => CloseEachWrites(p, Closing(p.procs, port));
    case _ =>
  }

  lemma {:induction false} StopEachWrites(p: Plugin, ds: set<nat>)
    requires ds <= p.procs.Keys
    ensures StopEach(p, ds).written == p.written
    decreases |ds|
  {
    if ds != {} {
      StopEachWrites(StopProc(p, Least(ds)), ds - {Least(ds)});
    }
  }

  lemma {:induction false} CloseEachWrites(p: Plugin, ds: set<nat>)
    requires ds <= p.procs.Keys
    ensures CloseEach(p, ds).written == p.written
    decreases |ds|
  {
    if ds != {} {
      var d := Least(ds);
      CloseEachWrites(Remove(StopProc(p, d), d), ds - {d});
    }
  }

  /** Every write of a run, one step after the other. */
  ghost predicate AllWritesOwn(p: Plugin, steps: seq<Step>)
    requires Legal(p, steps)
    decreases |steps|
  {
    steps == [] || (WritesOwn(p, Apply(p, steps[0])) && AllWritesOwn(Apply(p, steps[0]), steps[1..]))
  }

  /** Over every run a port writes only to running processes of its own. */
  lemma {:induction false} RunWritesOwn(p: Plugin, steps: seq<Step>)
    requires WellKept(p) && Legal(p, steps)
    ensures AllWritesOwn(p, steps)
    decreases |steps|
  {
    if steps != [] {
      StepWritesOwn(p, steps[0]);
      StepWellKept(p, steps[0]);
      RunWritesOwn(Apply(p, steps[0]), steps[1..]);
    }
  }

  // ------------------------------------------------------ handlers and their processes

  /** Every handler that spins still has its process. */
  ghost predicate NoneOutlives(p: Plugin) {
    forall i :: 0 <= i < |p.spinning| ==> p.spinning[i] in p.procs
  }

  /** The step deletes a process whose handler spins. */
  ghost predicate CutsShort(p: Plugin, s: Step) {
    exists d :: d in Deleted(p, s) && d in p.spinning
  }

  /** The processes a step names to be deleted. */
  function Deleted(p: Plugin, s: Step): set<nat> {
    match s
    case Stop(port, _, target) => if Refusal(p, port, target).None? then {target.value} else {}
    case CloseSocket(port) => Closing(p.procs, port)
    case _ => {}
  }

  function HandlersAfter(p: Plugin, s: Step): seq<nat> {
    match s
    case ProcEnds(d) => p.spinning + [d]
    case Unwind => if p.spinning == [] then [] else p.spinning[..|p.spinning| - 1]
    case _ => p.spinning
  }

  ghost predicate NeverCutsShort(p: Plugin, steps: seq<Step>)
    requires Legal(p, steps)
    decreases |steps|
  {
    steps == [] || (!CutsShort(p, steps[0]) && NeverCutsShort(Apply(p, steps[0]), steps[1..]))
  }

  /** Which processes are there after a step, and which handlers. */
  lemma StepKeepsKeys(p: Plugin, s: Step)
    requires WellKept(p) && Enabled(p, s)
    ensures var q := Apply(p, s);
      q.spinning == HandlersAfter(p, s) && forall d :: d in p.procs ==> (d in q.procs <==> d !in Deleted(p, s))
  {
    match s
    case CloseSocket(port) => CloseEachOnlyCloses(p, Closing(p.procs, port));
    case StopAll(port, _) => StopEachOnlyStops(p, Owned(p.procs, port));
    case StartAll(port, _, able) => StartEachOnlyStarts(p, Owned(p.procs, port), able);
    case _ =>
  }

  lemma StepOutlives(p: Plugin, s: Step)
    requires WellKept(p) && Enabled(p, s)
    ensures NoneOutlives(Apply(p, s)) <==> NoneOutlives(p) && !CutsShort(p, s)
  {
    var q := Apply(p, s);
    StepKeepsKeys(p, s);
    StepWellKept(p, s);
    if !NoneOutlives(p) {
      var i :| 0 <= i < |p.spinning| && p.spinning[i] !in p.procs;
      assert s.Unwind? ==> i < |p.spinning| - 1;
      assert q.spinning[i] == p.spinning[i] && p.spinning[i] !in q.procs;
    } else if CutsShort(p, s) {
      var d :| d in Deleted(p, s) && d in p.spinning;
      var i :| 0 <= i < |p.spinning| && p.spinning[i] == d;
      assert q.spinning[i] == d;
    } else {
      forall i | 0 <= i < |q.spinning|
        ensures q.spinning[i] in q.procs
      {
        assert i < |p.spinning| ==> q.spinning[i] == p.spinning[i] && p.spinning[i] in p.procs;
      }
    }
  }

  /** Over every run, no handler outlives its process exactly if no Stop and no closed socket hits a process whose handler spins. */
  lemma {:induction false} NoHandlerOutlives(p: Plugin, steps: seq<Step>)
    requires WellKept(p) && Legal(p, steps)
    ensures NoneOutlives(Exec(p, steps)) <==> NoneOutlives(p) && NeverCutsShort(p, steps)
    decreases |steps|
  {
    if steps != [] {
      StepOutlives(p, steps[0]);
      StepWellKept(p, steps[0]);
      NoHandlerOutlives(Apply(p, steps[0]), steps[1..]);
    }
  }

  // ------------------------------------------------------------------- rendezvous

  function About(d: nat): Deed -> bool {
    (e: Deed) => e.dpid == d
  }

  /** The deeds of process `d`, in order. */
  function Of(log: seq<Deed>, d: nat): seq<Deed> {
    Filter(log, About(d))
  }

  lemma OfAppend(log: seq<Deed>, e: Deed, d: nat)
    ensures Of(log + [e], d) == if e.dpid == d then Of(log, d) + [e] else Of(log, d)
  {
    FilterConcat(log, [e], About(d));
    assert [e][1..] == [];
    assert Of(log, d) + [] == Of(log, d);
  }

  function Last(h: seq<Deed>): Deed
    requires h != []
  {
    h[|h| - 1]
  }

  function Before(h: seq<Deed>): seq<Deed>
    requires h != []
  {
    h[..|h| - 1]
  }

  /** The id of the latest Wait, 0 if there was none. */
  function LatestAsked(h: seq<Deed>): nat {
    if h == [] then 0 else if Last(h).Asked? then Last(h).id else LatestAsked(Before(h))
  }

  /** Since the process was last started a Wait or a kill has come. */
  predicate Flagged(h: seq<Deed>) {
    h != [] && (Last(h).Asked? || Last(h).Answered?)
  }

  /** The process was started and its round is not answered yet. */
  predicate InRound(h: seq<Deed>) {
    h != [] && (Last(h).Began? || (Last(h).Asked? && InRound(Before(h))))
  }

  /** The latest Wait has not been answered. */
  predicate Unmet(h: seq<Deed>) {
    h != [] && (Last(h).Asked? || (!Last(h).Answered? && Unmet(Before(h))))
  }

  /**
   How the history of one process is put together. An answer falls in a round and carries
   the latest Wait's id; the handler of an end answers only a Wait of the round itself.
   `inTurn`: every Wait comes in a round that has none yet.
   */
  predicate Sound(h: seq<Deed>, inTurn: bool) {
    h == [] || (Sound(Before(h), inTurn) && MayFollow(Before(h), Last(h), inTurn))
  }

  predicate MayFollow(g: seq<Deed>, e: Deed, inTurn: bool) {
    && (g != [] ==> !Last(g).Forgotten?)
    && match e
       case Began(_) => !InRound(g)
       case Unbegun(_) => !InRound(g)
       case Asked(_, _) => inTurn ==> InRound(g) && !Flagged(g)
       case Answered(_, id, byKill) => InRound(g) && id == LatestAsked(g) && (byKill || Flagged(g))
       case Forgotten(_) => InRound(g)
  }

  /** A round of `d` is under way: it runs, or its handler still spins. */
  ghost predicate Open(p: Plugin, d: nat) {
    d in p.procs && (p.procs[d].running || d in p.spinning)
  }

  /** Clients do not restart a process whose handler still spins; in turn, they Wait once per round and within it. */
  ghost predicate Mannerly(p: Plugin, s: Step, inTurn: bool) {
    match s
    case Start(port, _, target, _) =>
      Refusal(p, port, target).None? && !p.procs[target.value].running ==> target.value !in p.spinning
    case StartAll(port, _, _) =>
      forall d :: d in Owned(p.procs, port) && !p.procs[d].running ==> d !in p.spinning
    case Wait(port, _, target) =>
      inTurn && Refusal(p, port, target).None? ==> Open(p, target.value) && !p.procs[target.value].waitDone
    case _ => true
  }

  ghost predicate AllMannerly(p: Plugin, steps: seq<Step>, inTurn: bool)
    requires Legal(p, steps)
    decreases |steps|
  {
    steps == [] || (Mannerly(p, steps[0], inTurn) && AllMannerly(Apply(p, steps[0]), steps[1..], inTurn))
  }

  /** The fields of process `d` say what its history says. */
  ghost predicate Fits(p: Plugin, d: nat, inTurn: bool) {
    var h := Of(p.log, d);
    && Sound(h, inTurn)
    && (InRound(h) <==> Open(p, d))
    && (d in p.procs ==> p.procs[d].waitId == LatestAsked(h) && (p.procs[d].waitDone <==> Flagged(h)))
    && (d in p.procs && h != [] ==> !Last(h).Forgotten?)
    && (d > p.lastDpid ==> h == [])
  }

  ghost predicate Told(p: Plugin, inTurn: bool) {
    && WellKept(p)
    && (forall i, j :: 0 <= i < j < |p.spinning| ==> p.spinning[i] != p.spinning[j])
    && (forall d :: d in p.procs && d in p.spinning ==> !p.procs[d].running)
    && (forall d: nat :: Fits(p, d, inTurn))
  }

  /** One more deed `e` at the end of a history. */
  lemma Extended(h: seq<Deed>, e: Deed, inTurn: bool)
    ensures var k := h + [e];
      && (Sound(k, inTurn) <==> Sound(h, inTurn) && MayFollow(h, e, inTurn))
      && (InRound(k) <==> e.Began? || (e.Asked? && InRound(h)))
      && LatestAsked(k) == (if e.Asked? then e.id else LatestAsked(h))
      && (Flagged(k) <==> e.Asked? || e.Answered?)
      && (Unmet(k) <==> e.Asked? || (!e.Answered? && Unmet(h)))
  {
    assert Last(h + [e]) == e && Before(h + [e]) == h;
  }

  /** A step that logs one deed of `d` and touches only `d`: the other processes still fit. */
  lemma OthersFit(p: Plugin, q: Plugin, d: nat, e: Deed, inTurn: bool)
    requires Told(p, inTurn) && d in p.procs && e.dpid == d
    requires q.log == p.log + [e] && q.lastDpid == p.lastDpid
    requires forall x :: x != d ==> (x in q.procs <==> x in p.procs) && (x in q.spinning <==> x in p.spinning)
    requires forall x :: x != d && x in q.procs ==> q.procs[x] == p.procs[x]
    ensures forall x: nat :: x != d ==> Fits(q, x, inTurn)
    ensures Of(q.log, d) == Of(p.log, d) + [e]
  {
    OfAppend(p.log, e, d);
    forall x: nat | x != d
      ensures Fits(q, x, inTurn)
    {
      OfAppend(p.log, e, x);
      assert Fits(p, x, inTurn);
    }
  }

  lemma StartOneTold(p: Plugin, d: nat, ok: bool, inTurn: bool)
    requires Told(p, inTurn) && d in p.procs && (!p.procs[d].running ==> d !in p.spinning)
    ensures Told(StartOne(p, d, ok), inTurn)
  {
    if !p.procs[d].running {
      var q := StartOne(p, d, ok);
      var e := if ok then Began(d) else Unbegun(d);
      OthersFit(p, q, d, e, inTurn);
      assert Fits(p, d, inTurn);
      Extended(Of(p.log, d), e, inTurn);
      assert Fits(q, d, inTurn);
    } else {
      assert StartOne(p, d, ok).procs == p.procs;
    }
  }

  lemma StopProcTold(p: Plugin, d: nat, inTurn: bool)
    requires Told(p, inTurn) && d in p.procs
    ensures Told(StopProc(p, d), inTurn) && !StopProc(p, d).procs[d].running
  {
    if p.procs[d].running {
      var q := StopProc(p, d);
      var e := Answered(d, p.procs[d].waitId, true);
      OthersFit(p, q, d, e, inTurn);
      assert Fits(p, d, inTurn);
      Extended(Of(p.log, d), e, inTurn);
      assert Fits(q, d, inTurn);
    }
  }

  lemma {:induction false} StopEachTold(p: Plugin, ds: set<nat>, inTurn: bool)
    requires Told(p, inTurn) && ds <= p.procs.Keys
    ensures Told(StopEach(p, ds), inTurn)
    decreases |ds|
  {
    if ds != {} {
      var d := Least(ds);
      StopProcTold(p, d, inTurn);
      StopEachTold(StopProc(p, d), ds - {d}, inTurn);
    }
  }

  /** A process that does not run is deleted; if its handler spins, its round is cut short. */
  lemma RemoveTold(p: Plugin, d: nat, inTurn: bool)
    requires Told(p, inTurn) && d in p.procs && !p.procs[d].running
    ensures Told(Remove(p, d), inTurn)
  {
    var q := Remove(p, d);
    assert Fits(p, d, inTurn);
    if d in p.spinning {
      OthersFit(p, q, d, Forgotten(d), inTurn);
      Extended(Of(p.log, d), Forgotten(d), inTurn);
      assert Fits(q, d, inTurn);
    } else {
      SameTold(p, q, inTurn);
    }
  }

  lemma {:induction false} CloseEachTold(p: Plugin, ds: set<nat>, inTurn: bool)
    requires Told(p, inTurn) && ds <= p.procs.Keys
    ensures Told(CloseEach(p, ds), inTurn)
    decreases |ds|
  {
    if ds != {} {
      var d := Least(ds);
      StopProcTold(p, d, inTurn);
      RemoveTold(StopProc(p, d), d, inTurn);
      CloseEachTold(Remove(StopProc(p, d), d), ds - {d}, inTurn);
    }
  }

  lemma {:induction false} StartEachTold(p: Plugin, ds: set<nat>, able: set<nat>, inTurn: bool)
    requires Told(p, inTurn) && ds <= p.procs.Keys
    requires forall d :: d in ds && !p.procs[d].running ==> d !in p.spinning
    ensures Told(StartEach(p, ds, able), inTurn)
    decreases |ds|
  {
    if ds != {} {
      var d := Least(ds);
      StartOneTold(p, d, d in able, inTurn);
      StartEachTold(StartOne(p, d, d in able), ds - {d}, able, inTurn);
    }
  }

  /** Replies do not matter, nor do idle processes that are removed, nor a new one. */
  lemma SameTold(p: Plugin, q: Plugin, inTurn: bool)
    requires Told(p, inTurn) && WellKept(q) && q.log == p.log && q.spinning == p.spinning
    requires q.lastDpid >= p.lastDpid
    requires forall d :: d in q.procs ==>
      if d in p.procs then q.procs[d] == p.procs[d]
      else d > p.lastDpid && !q.procs[d].running && !q.procs[d].waitDone && q.procs[d].waitId == 0
    requires forall d :: Open(p, d) ==> d in q.procs
    ensures Told(q, inTurn)
  {
    forall d: nat
      ensures Fits(q, d, inTurn)
    {
      assert Fits(p, d, inTurn);
    }
  }

  lemma WaitTold(p: Plugin, s: Step, inTurn: bool)
    requires Told(p, inTurn) && Enabled(p, s) && Mannerly(p, s, inTurn) && s.Wait?
    ensures Told(Apply(p, s), inTurn)
  {
    var q := Apply(p, s);
    if Refusal(p, s.port, s.target).None? {
      var d := s.target.value;
      var e := Asked(d, s.id);
      OthersFit(p, q, d, e, inTurn);
      assert Fits(p, d, inTurn);
      Extended(Of(p.log, d), e, inTurn);
      assert Fits(q, d, inTurn);
    } else {
      SameTold(p, q, inTurn);
    }
  }

  lemma UnwindTold(p: Plugin, inTurn: bool)
    requires Told(p, inTurn) && Enabled(p, Unwind)
    ensures Told(Apply(p, Unwind), inTurn)
  {
    var q := Apply(p, Unwind);
    var n := |p.spinning| - 1;
    var d := p.spinning[n];
    var e := Answered(d, p.procs[d].waitId, false);
    assert forall x :: x != d && x in p.spinning ==> x in q.spinning by {
      forall x | x != d && x in p.spinning
        ensures x in q.spinning
      {
        var i :| 0 <= i < |p.spinning| && p.spinning[i] == x;
        assert q.spinning[i] == x;
      }
    }
    OthersFit(p, q, d, e, inTurn);
    assert Fits(p, d, inTurn);
    Extended(Of(p.log, d), e, inTurn);
    assert Fits(q, d, inTurn);
  }

  lemma EndTold(p: Plugin, d: nat, inTurn: bool)
    requires Told(p, inTurn) && Enabled(p, ProcEnds(d))
    ensures Told(Apply(p, ProcEnds(d)), inTurn)
  {
    var q := Apply(p, ProcEnds(d));
    forall x: nat
      ensures Fits(q, x, inTurn)
    {
      assert Fits(p, x, inTurn);
      assert Open(q, x) <==> Open(p, x);
    }
  }

  lemma RemovalTold(p: Plugin, s: Step, inTurn: bool)
    requires Told(p, inTurn) && Enabled(p, s) && (s.Stop? || s.StopAll? || s.CloseSocket?)
    ensures Told(Apply(p, s), inTurn)
  {
    StepWellKept(p, s);
    var q := Apply(p, s);
    match s
    case Stop(port, _, target) =>
      if Refusal(p, port, target).None? {
        StopProcTold(p, target.value, inTurn);
        RemoveTold(StopProc(p, target.value), target.value, inTurn);
        SameTold(Remove(StopProc(p, target.value), target.value), q, inTurn);
      } else {
        SameTold(p, q, inTurn);
      }
    case StopAll(port, _) =>
      StopEachTold(p, Owned(p.procs, port), inTurn);
      SameTold(StopEach(p, Owned(p.procs, port)), q, inTurn);
    case CloseSocket(port) =>
      CloseEachTold(p, Closing(p.procs, port), inTurn);
  }

  lemma StartTold(p: Plugin, s: Step, inTurn: bool)
    requires Told(p, inTurn) && Enabled(p, s) && Mannerly(p, s, inTurn) && (s.Start? || s.StartAll?)
    ensures Told(Apply(p, s), inTurn)
  {
    var q := Apply(p, s);
    StepWellKept(p, s);
    if s.StartAll? {
      StartEachTold(p, Owned(p.procs, s.port), s.able, inTurn);
      SameTold(StartEach(p, Owned(p.procs, s.port), s.able), q, inTurn);
    } else if Refusal(p, s.port, s.target).None? {
      StartOneTold(p, s.target.value, s.ok, inTurn);
      SameTold(StartOne(p, s.target.value, s.ok), q, inTurn);
    } else {
      SameTold(p, q, inTurn);
    }
  }

  lemma StepTold(p: Plugin, s: Step, inTurn: bool)
    requires Told(p, inTurn) && Enabled(p, s) && Mannerly(p, s, inTurn)
    ensures Told(Apply(p, s), inTurn)
  {
    match s
    case Wait(_, _, _) => WaitTold(p, s, inTurn);
    case Unwind => UnwindTold(p, inTurn);
    case ProcEnds(d) => EndTold(p, d, inTurn);
    case Start(_, _, _, _) => StartTold(p, s, inTurn);
    case StartAll(_, _, _) => StartTold(p, s, inTurn);
    case Stop(_, _, _) => RemovalTold(p, s, inTurn);
    case StopAll(_, _) => RemovalTold(p, s, inTurn);
    case CloseSocket(_) => RemovalTold(p, s, inTurn);
    case _ =>
      StepWellKept(p, s);
      SameTold(p, Apply(p, s), inTurn);
  }

  lemma {:induction false} RunTold(p: Plugin, steps: seq<Step>, inTurn: bool)
    requires Told(p, inTurn) && Legal(p, steps) && AllMannerly(p, steps, inTurn)
    ensures Told(Exec(p, steps), inTurn)
    decreases |steps|
  {
    if steps != [] {
      StepTold(p, steps[0], inTurn);
      RunTold(Apply(p, steps[0]), steps[1..], inTurn);
    }
  }

  lemma Reached(steps: seq<Step>, inTurn: bool)
    requires Legal(INIT, steps) && AllMannerly(INIT, steps, inTurn)
    ensures Told(Exec(INIT, steps), inTurn)
  {
    RunTold(INIT, steps, inTurn);
  }

  lemma {:induction false} SoundPrefix(h: seq<Deed>, j: nat, inTurn: bool)
    requires Sound(h, inTurn) && j <= |h|
    ensures Sound(h[..j], inTurn)
    decreases |h|
  {
    if j < |h| {
      SoundPrefix(Before(h), j, inTurn);
      assert Before(h)[..j] == h[..j];
    } else {
      assert h[..j] == h;
    }
  }

  /** The deed at `j` and what came before it. */
  lemma DeedAt(h: seq<Deed>, j: nat)
    requires Sound(h, false) && j < |h|
    ensures MayFollow(h[..j], h[j], false)
    ensures h[j].Answered? ==> j > 0 && (h[j - 1].Began? || (h[j - 1].Asked? && h[j - 1].id == h[j].id))
    ensures InRound(h[..j + 1]) <==> h[j].Began? || (h[j].Asked? && InRound(h[..j]))
  {
    SoundPrefix(h, j + 1, false);
    var k := h[..j + 1];
    assert Last(k) == h[j] && Before(k) == h[..j];
    if h[j].Answered? {
      assert Last(h[..j]) == h[j - 1];
    }
  }

  /**
   Over every run without restarts under a spinning handler, kills and stray Waits
   included: a round is open exactly while the process runs or its handler spins; every
   answer falls in a round, under the id of the latest Wait; the handler's directly follows
   that Wait, a kill's directly follows it or the start.
   */
  lemma AnswersFollowTheirWait(steps: seq<Step>, d: nat, j: nat)
    requires Legal(INIT, steps) && AllMannerly(INIT, steps, false)
    requires j < |Of(Exec(INIT, steps).log, d)| && Of(Exec(INIT, steps).log, d)[j].Answered?
    ensures var h := Of(Exec(INIT, steps).log, d);
      && InRound(h[..j]) && h[j].id == LatestAsked(h[..j]) && j > 0
      && (h[j - 1].Began? || (h[j - 1].Asked? && h[j - 1].id == h[j].id))
      && (h[j - 1].Began? ==> h[j].byKill)
    ensures InRound(Of(Exec(INIT, steps).log, d)) <==> Open(Exec(INIT, steps), d)
  {
    Reached(steps, false);
    var h := Of(Exec(INIT, steps).log, d);
    assert Fits(Exec(INIT, steps), d, false);
    DeedAt(h, j);
    assert Last(h[..j]) == h[j - 1];
  }

  /** Deed `j` answers Wait `i`: no other Wait came in between. */
  predicate Answers(h: seq<Deed>, i: nat, j: nat) {
    i < j < |h| && h[i].Asked? && h[j].Answered? && forall k :: i < k < j ==> !h[k].Asked?
  }

  /**
   Which Waits are answered, over the same runs, once the process and its handler are at
   rest. A Wait that came after its Start is answered at once by the end of the round,
   exactly if no further Wait came before that and the process was not deleted under its
   handler; it is answered again, and one that came
   before its Start is answered at all, only by a kill straight after a later start.
   */
  lemma WaitAnsweredExactlyWhen(steps: seq<Step>, d: nat, i: nat)
    requires Legal(INIT, steps) && AllMannerly(INIT, steps, false) && !Open(Exec(INIT, steps), d)
    requires i < |Of(Exec(INIT, steps).log, d)| && Of(Exec(INIT, steps).log, d)[i].Asked?
    ensures var h := Of(Exec(INIT, steps).log, d);
      && (InRound(h[..i]) ==> i + 1 < |h| && (Answers(h, i, i + 1) <==> !h[i + 1].Asked? && !h[i + 1].Forgotten?)
                              && (h[i + 1].Answered? ==> h[i + 1].id == h[i].id))
      && (forall j: nat :: Answers(h, i, j) ==>
            ((j == i + 1 && InRound(h[..i])) || (h[j].byKill && h[j - 1].Began?)))
  {
    Reached(steps, false);
    var h := Of(Exec(INIT, steps).log, d);
    assert Fits(Exec(INIT, steps), d, false);
    DeedAt(h, i);
    if i + 1 < |h| {
      DeedAt(h, i + 1);
    } else {
      assert h[..i + 1] == h;
    }
    forall j: nat | Answers(h, i, j)
      ensures (j == i + 1 && InRound(h[..i])) || (h[j].byKill && h[j - 1].Began?)
    {
      DeedAt(h, j);
      assert Last(h[..j]) == h[j - 1];
    }
  }

  /**
   What a kill says: it answers, under the latest Wait's id, a Wait of the round exactly if
   the flag was set; otherwise it answers one from before the start, or none at all.
   */
  lemma KillAnswersExactlyWhen(p: Plugin, d: nat)
    requires Told(p, false) && d in p.procs && p.procs[d].running
    ensures var h := Of(p.log, d);
      && h != [] && StopProc(p, d).log == p.log + [Answered(d, LatestAsked(h), true)]
      && (p.procs[d].waitDone <==> Last(h).Asked?)
      && (Unmet(h) <==> p.procs[d].waitDone || Unmet(Before(h)))
      && (Told(p, true) ==> (Unmet(h) <==> p.procs[d].waitDone))
  {
    var h := Of(p.log, d);
    assert Fits(p, d, false);
    if Told(p, true) {
      assert Fits(p, d, true);
      InTurnUnmet(h);
    }
  }

  /** With Waits in turn only the last deed can be a Wait not answered. */
  lemma {:induction false} InTurnUnmet(h: seq<Deed>)
    requires Sound(h, true) && (h != [] ==> !Last(h).Forgotten?)
    ensures Unmet(h) <==> h != [] && Last(h).Asked?
    ensures h != [] && Last(h).Asked? ==> InRound(h)
  {
    if h != [] {
      InTurnUnmet(Before(h));
    }
  }

  function AskedIds(h: seq<Deed>): seq<nat> {
    if h == [] then [] else AskedIds(Before(h)) + if Last(h).Asked? then [Last(h).id] else []
  }

  function AnsweredIds(h: seq<Deed>): seq<nat> {
    if h == [] then [] else AnsweredIds(Before(h)) + if Last(h).Answered? then [Last(h).id] else []
  }

  /** The ids of the answers that directly follow a Wait. */
  function ServedIds(h: seq<Deed>): seq<nat> {
    if h == [] then []
    else ServedIds(Before(h)) + if Last(h).Answered? && Flagged(Before(h)) then [Last(h).id] else []
  }

  /** The Wait of `d` that is accepted and not answered. */
  ghost function Due(p: Plugin, d: nat): seq<nat> {
    if Open(p, d) && p.procs[d].waitDone then [p.procs[d].waitId] else []
  }

  /** In some round the process was killed before its Wait came. */
  ghost predicate KilledUnasked(h: seq<Deed>) {
    exists j :: 0 < j < |h| && h[j].Answered? && h[j - 1].Began?
  }

  /** The Wait a history ends with, or that was lost when the process was deleted under its handler. */
  function OpenWait(h: seq<Deed>): seq<nat> {
    if h == [] then []
    else if Last(h).Asked? then [Last(h).id]
    else if Last(h).Forgotten? && Before(h) != [] && Last(Before(h)).Asked? then [Last(Before(h)).id]
    else []
  }

  lemma ServedOnce(h: seq<Deed>)
    requires Sound(h, true)
    ensures AskedIds(h) == ServedIds(h) + OpenWait(h)
    ensures AnsweredIds(h) == ServedIds(h) <==> !KilledUnasked(h)
  {
    AskedAreServed(h);
    UnaskedAreMore(h);
  }

  lemma {:induction false} AskedAreServed(h: seq<Deed>)
    requires Sound(h, true)
    ensures AskedIds(h) == ServedIds(h) + OpenWait(h)
  {
    if h != [] {
      AskedAreServed(Before(h));
    }
  }

  lemma {:induction false} UnaskedAreMore(h: seq<Deed>)
    requires Sound(h, true)
    ensures |AnsweredIds(h)| >= |ServedIds(h)|
    ensures !KilledUnasked(h) ==> AnsweredIds(h) == ServedIds(h)
    ensures KilledUnasked(h) ==> |AnsweredIds(h)| > |ServedIds(h)|
  {
    if h != [] {
      var g := Before(h);
      UnaskedAreMore(g);
      var n := |h| - 1;
      assert g != [] ==> Last(g) == h[n - 1];
      if j :| 0 < j < |g| && g[j].Answered? && g[j - 1].Began? {
        assert h[j].Answered? && h[j - 1].Began?;
      }
      if j :| 0 < j < |h| && h[j].Answered? && h[j - 1].Began? {
        assert j == n || (g[j].Answered? && g[j - 1].Began?);
      }
    }
  }

  /**
   Over every run with Waits in turn, whatever is killed: each Wait is answered once, in
   order, under its own id, but for at most the last, which is due while the round is open
   and lost if the process is deleted under its handler. There are no other answers exactly
   if nothing was killed before its Wait.
   */
  lemma EveryWaitAnsweredOnce(steps: seq<Step>, d: nat)
    requires Legal(INIT, steps) && AllMannerly(INIT, steps, true)
    ensures var p := Exec(INIT, steps);
      var h := Of(p.log, d);
      && AskedIds(h) == ServedIds(h) + OpenWait(h) && |OpenWait(h)| <= 1
      && OpenWait(h) == (if h != [] && Last(h).Forgotten? then OpenWait(Before(h)) else Due(p, d))
      && (AnsweredIds(h) == ServedIds(h) <==> !KilledUnasked(h))
  {
    Reached(steps, true);
    var p := Exec(INIT, steps);
    var h := Of(p.log, d);
    assert Fits(p, d, true);
    ServedOnce(h);
    if h == [] || !Last(h).Forgotten? {
      InTurnUnmet(h);
    } else {
      assert MayFollow(Before(h), Last(h), true);
    }
  }

  /** The handler of an end answers only when the process has ended and its Wait has come. */
  lemma AnswerNeedsBoth(p: Plugin)
    requires Told(p, false) && Enabled(p, Unwind)
    ensures var d := p.spinning[|p.spinning| - 1];
      var h := Of(p.log, d);
      && !p.procs[d].running && InRound(h) && Last(h) == Asked(d, p.procs[d].waitId)
      && Apply(p, Unwind).replies == p.replies + [Reply(p.procs[d].wPort, p.procs[d].waitId, Completed(d))]
      && Of(Apply(p, Unwind).log, d) == h + [Answered(d, p.procs[d].waitId, false)]
      && !Open(Apply(p, Unwind), d)
  {
    var d := p.spinning[|p.spinning| - 1];
    var h := Of(p.log, d);
    assert Fits(p, d, false);
    FilterMember(p.log, About(d), Last(h));
    assert Last(h) in h;
    OfAppend(p.log, Answered(d, p.procs[d].waitId, false), d);
    assert d !in Apply(p, Unwind).spinning;
  }

  /** Whether the process ends first or Wait comes first, the outcome is the same. */
  lemma ArrivalOrderIrrelevant(p: Plugin, d: nat, id: nat)
    requires WellKept(p) && d in p.procs && p.procs[d].running
    ensures var wait := Wait(p.procs[d].wPort, id, Some(d));
      && Legal(p, [wait, ProcEnds(d), Unwind]) && Legal(p, [ProcEnds(d), wait, Unwind])
      && Exec(p, [wait, ProcEnds(d), Unwind]) == Exec(p, [ProcEnds(d), wait, Unwind])
      && Exec(p, [wait, ProcEnds(d), Unwind]).replies
         == p.replies + [Reply(p.procs[d].wPort, id, Completed(d))]
  {
    var wait := Wait(p.procs[d].wPort, id, Some(d));
    var q := Apply(Apply(p, wait), ProcEnds(d));
    EitherOrder(p, d, id);
    Innermost(q, d);
    assert Legal(p, [wait, ProcEnds(d), Unwind]) && Exec(p, [wait, ProcEnds(d), Unwind]) == Apply(q, Unwind) by {
      ExecThree(p, wait, ProcEnds(d), Unwind);
    }
    ExecThree(p, ProcEnds(d), wait, Unwind);
  }

  lemma EitherOrder(p: Plugin, d: nat, id: nat)
    requires WellKept(p) && d in p.procs && p.procs[d].running
    ensures var wait := Wait(p.procs[d].wPort, id, Some(d));
      var q := Apply(p, wait).(procs := p.procs[d := p.procs[d].(waitId := id, waitDone := true, running := false)],
                               spinning := p.spinning + [d]);
      && Enabled(Apply(p, wait), ProcEnds(d)) && Apply(Apply(p, wait), ProcEnds(d)) == q
      && Apply(Apply(p, ProcEnds(d)), wait) == q
  {
  }

  lemma Innermost(q: Plugin, d: nat)
    requires q.spinning != [] && q.spinning[|q.spinning| - 1] == d && d in q.procs && q.procs[d].waitDone
    requires q.procs[d].dpid == d
    ensures Enabled(q, Unwind)
    ensures Apply(q, Unwind).replies == q.replies + [Reply(q.procs[d].wPort, q.procs[d].waitId, Completed(d))]
  {
  }

  lemma ExecCons(p: Plugin, s: Step, rest: seq<Step>)
    requires Enabled(p, s) && Legal(Apply(p, s), rest)
    ensures Legal(p, [s] + rest) && Exec(p, [s] + rest) == Exec(Apply(p, s), rest)
  {
    assert ([s] + rest)[1..] == rest;
  }

  lemma ExecThree(p: Plugin, a: Step, b: Step, c: Step)
    requires Enabled(p, a) && Enabled(Apply(p, a), b) && Enabled(Apply(Apply(p, a), b), c)
    ensures Legal(p, [a, b, c]) && Exec(p, [a, b, c]) == Apply(Apply(Apply(p, a), b), c)
  {
    ExecCons(Apply(Apply(p, a), b), c, []);
    ExecCons(Apply(p, a), b, [c]);
    ExecCons(p, a, [b, c]);
    assert [c] + [] == [c] && [b] + [c] == [b, c] && [a] + [b, c] == [a, b, c];
  }

  function Unwinds(n: nat): seq<Step> {
    if n == 0 then [] else [Unwind] + Unwinds(n - 1)
  }

  /** The process of the handler at depth `j` has its Wait. */
  ghost predicate HasWait(p: Plugin, j: nat)
    requires j < |p.spinning|
  {
    p.spinning[j] in p.procs && p.procs[p.spinning[j]].waitDone
  }

  /**
   Handlers nest: the answer due from the handler at depth i can be sent without further
   commands exactly when every handler inside it has its Wait as well.
   */
  lemma {:induction false} AnswerableExactlyWhen(p: Plugin, i: nat)
    requires WellKept(p) && i < |p.spinning|
    ensures Legal(p, Unwinds(|p.spinning| - i)) <==>
      forall j :: i <= j < |p.spinning| ==> HasWait(p, j)
    decreases |p.spinning|
  {
    var n := |p.spinning|;
    var steps := Unwinds(n - i);
    assert steps[0] == Unwind && steps[1..] == Unwinds(n - i - 1);
    if Enabled(p, Unwind) {
      var q := Apply(p, Unwind);
      assert WellKept(q) by {
        StepWellKept(p, Unwind);
      }
      assert HasWait(p, n - 1);
      assert forall j :: 0 <= j < n - 1 ==> (HasWait(q, j) <==> HasWait(p, j));
      if i < n - 1 {
        AnswerableExactlyWhen(q, i);
      } else {
        assert Legal(q, Unwinds(0));
      }
    } else {
      assert !HasWait(p, n - 1);
    }
  }

  // --------------------------------------------- the history and what clients see

  /** Process and id of every completion sent. */
  function Completions(replies: seq<Reply>): seq<(nat, nat)> {
    if replies == [] then []
    else
      var r := replies[|replies| - 1];
      Completions(replies[..|replies| - 1]) + if r.body.Completed? then [(r.body.dpid, r.id)] else []
  }

  /** Process and id of every answer in the history. */
  function Answerings(log: seq<Deed>): seq<(nat, nat)> {
    if log == [] then []
    else Answerings(Before(log)) + if Last(log).Answered? then [(Last(log).dpid, Last(log).id)] else []
  }

  /** Process and id of every Wait in the history. */
  function Askings(log: seq<Deed>): seq<(nat, nat)> {
    if log == [] then []
    else Askings(Before(log)) + if Last(log).Asked? then [(Last(log).dpid, Last(log).id)] else []
  }

  /** The clients have seen the answers of the history. */
  ghost predicate Shown(p: Plugin) {
    Completions(p.replies) == Answerings(p.log)
  }

  lemma ReplyThen(replies: seq<Reply>, r: Reply)
    ensures Completions(replies + [r]) == Completions(replies) + if r.body.Completed? then [(r.body.dpid, r.id)] else []
  {
    assert (replies + [r])[..|replies|] == replies;
  }

  lemma DeedThen(log: seq<Deed>, e: Deed)
    ensures Answerings(log + [e]) == Answerings(log) + if e.Answered? then [(e.dpid, e.id)] else []
    ensures Askings(log + [e]) == Askings(log) + if e.Asked? then [(e.dpid, e.id)] else []
  {
    assert Before(log + [e]) == log && Last(log + [e]) == e;
  }

  lemma CompleteShown(p: Plugin, proc: Proc, byKill: bool)
    ensures Shown(Complete(p, proc, byKill)) <==> Shown(p)
    ensures Askings(Complete(p, proc, byKill).log) == Askings(p.log)
  {
    var a, b := Completions(p.replies), Answerings(p.log);
    var last := [(proc.dpid, proc.waitId)];
    ReplyThen(p.replies, Reply(proc.wPort, proc.waitId, Completed(proc.dpid)));
    DeedThen(p.log, Answered(proc.dpid, proc.waitId, byKill));
    assert (a + last)[..|a|] == a && (b + last)[..|b|] == b;
  }

  lemma {:induction false} StopEachShown(p: Plugin, ds: set<nat>)
    requires ds <= p.procs.Keys
    ensures Shown(StopEach(p, ds)) <==> Shown(p)
    ensures Askings(StopEach(p, ds).log) == Askings(p.log)
    decreases |ds|
  {
    if ds != {} {
      var d := Least(ds);
      StopShown(p, d);
      StopEachShown(StopProc(p, d), ds - {d});
    }
  }

  lemma StopShown(p: Plugin, d: nat)
    requires d in p.procs
    ensures Shown(StopProc(p, d)) <==> Shown(p)
    ensures Askings(StopProc(p, d).log) == Askings(p.log)
  {
    if p.procs[d].running {
      CompleteShown(p.(procs := StopProc(p, d).procs), p.procs[d], true);
    }
  }

  lemma RemoveShown(p: Plugin, d: nat)
    ensures Shown(Remove(p, d)) <==> Shown(p)
    ensures Askings(Remove(p, d).log) == Askings(p.log)
  {
    DeedThen(p.log, Forgotten(d));
  }

  lemma {:induction false} CloseEachShown(p: Plugin, ds: set<nat>)
    requires ds <= p.procs.Keys
    ensures Shown(CloseEach(p, ds)) <==> Shown(p)
    ensures Askings(CloseEach(p, ds).log) == Askings(p.log)
    decreases |ds|
  {
    if ds != {} {
      var d := Least(ds);
      StopShown(p, d);
      RemoveShown(StopProc(p, d), d);
      CloseEachShown(Remove(StopProc(p, d), d), ds - {d});
    }
  }

  lemma StartShown(p: Plugin, d: nat, ok: bool)
    requires d in p.procs
    ensures Shown(StartOne(p, d, ok)) <==> Shown(p)
    ensures Askings(StartOne(p, d, ok).log) == Askings(p.log)
  {
    DeedThen(p.log, if ok then Began(d) else Unbegun(d));
  }

  lemma {:induction false} StartEachShown(p: Plugin, ds: set<nat>, able: set<nat>)
    requires ds <= p.procs.Keys
    ensures Shown(StartEach(p, ds, able)) <==> Shown(p)
    ensures Askings(StartEach(p, ds, able).log) == Askings(p.log)
    decreases |ds|
  {
    if ds != {} {
      var d := Least(ds);
      StartShown(p, d, d in able);
      StartEachShown(StartOne(p, d, d in able), ds - {d}, able);
    }
  }

  lemma SayShown(p: Plugin, port: nat, id: nat, body: Body)
    requires !body.Completed?
    ensures Shown(Say(p, port, id, body)) <==> Shown(p)
  {
    ReplyThen(p.replies, Reply(port, id, body));
  }

  /** `q` shows what `p` shows and holds `more` Waits. */
  ghost predicate Follows(p: Plugin, q: Plugin, more: seq<(nat, nat)>) {
    (Shown(q) <==> Shown(p)) && Askings(q.log) == Askings(p.log) + more
  }

  lemma TellingFollows(p: Plugin, q: Plugin, port: nat, id: nat, body: Body)
    requires (Shown(q) <==> Shown(p)) && Askings(q.log) == Askings(p.log) && !body.Completed?
    ensures Follows(p, Say(q, port, id, body), [])
  {
    SayShown(q, port, id, body);
  }

  lemma RefusalFollows(p: Plugin, s: Step)
    requires Enabled(p, s) && (s.Start? || s.Wait? || s.Stop? || s.Input?) && !NamesOwn(p, s)
    ensures Follows(p, Apply(p, s), [])
  {
    TellingFollows(p, p, s.port, s.id, Failed(Refusal(p, s.port, s.target).value));
  }

  lemma StartFollows(p: Plugin, s: Step)
    requires Enabled(p, s) && s.Start? && NamesOwn(p, s)
    ensures Follows(p, Apply(p, s), [])
  {
    var q := StartOne(p, s.target.value, s.ok);
    StartShown(p, s.target.value, s.ok);
    TellingFollows(p, q, s.port, s.id, if p.procs[s.target.value].running || s.ok then Ok else Failed(StartFailed));
  }

  lemma StopFollows(p: Plugin, s: Step)
    requires Enabled(p, s) && s.Stop? && NamesOwn(p, s)
    ensures Follows(p, Apply(p, s), [])
  {
    var d := s.target.value;
    StopShown(p, d);
    RemoveShown(StopProc(p, d), d);
    TellingFollows(p, Remove(StopProc(p, d), d), s.port, s.id, Ok);
  }

  lemma WaitFollows(p: Plugin, s: Step)
    requires Enabled(p, s) && s.Wait? && NamesOwn(p, s)
    ensures Follows(p, Apply(p, s), [(s.target.value, s.id)])
  {
    DeedThen(p.log, Asked(s.target.value, s.id));
  }

  lemma InputFollows(p: Plugin, s: Step)
    requires Enabled(p, s) && s.Input? && NamesOwn(p, s)
    ensures Follows(p, Apply(p, s), [])
  {
    var q := Apply(p, s);
    TellingFollows(p, p.(written := q.written), s.port, s.id, q.replies[|q.replies| - 1].body);
  }

  lemma PrepareFollows(p: Plugin, s: Step)
    requires Enabled(p, s) && s.Prepare?
    ensures Follows(p, Apply(p, s), [])
  {
    var q := Apply(p, s);
    TellingFollows(p, p.(procs := q.procs, lastDpid := q.lastDpid), s.port, s.id, q.replies[|q.replies| - 1].body);
  }

  lemma AllFollows(p: Plugin, s: Step)
    requires Enabled(p, s) && (s.StartAll? || s.StopAll? || s.GetStatus?)
    ensures Follows(p, Apply(p, s), [])
  {
    var mine := Owned(p.procs, s.port);
    match s
    case StartAll(port, id, able) =>
      var results := StartResults(p.procs, port, able);
      StartEachShown(p, mine, able);
      TellingFollows(p, StartEach(p, mine, able), port, id, Started(results, AllTrue(results)));
    case StopAll(port, id) =>
      StopEachShown(p, mine);
      TellingFollows(p, StopEach(p, mine), port, id, Stopped(map d | d in mine :: true, true));
    case GetStatus(port, id) =>
      TellingFollows(p, p, port, id, Status(map d | d in mine :: p.procs[d].running));
    case _ =>
  }

  lemma EventFollows(p: Plugin, s: Step)
    requires Enabled(p, s) && !IsCommand(s)
    ensures Follows(p, Apply(p, s), [])
  {
    assert Askings(p.log) + [] == Askings(p.log);
    match s
    case CloseSocket(port) => CloseEachShown(p, Closing(p.procs, port));
    case Unwind => CompleteShown(p, p.procs[p.spinning[|p.spinning| - 1]], false);
    case _ =>
  }

  lemma StepFollows(p: Plugin, s: Step)
    requires Enabled(p, s)
    ensures Follows(p, Apply(p, s), Accepted(p, s))
  {
    if (s.Start? || s.Wait? || s.Stop? || s.Input?) && !NamesOwn(p, s) {
      RefusalFollows(p, s);
    } else {
      match s
      case Start(_, _, _, _) => StartFollows(p, s);
      case Wait(_, _, _) => WaitFollows(p, s);
      case Stop(_, _, _) => StopFollows(p, s);
      case Input(_, _, _, _, _) => InputFollows(p, s);
      case Prepare(_, _, _, _) => PrepareFollows(p, s);
      case CloseSocket(_) => EventFollows(p, s);
      case ProcEnds(_) => EventFollows(p, s);
      case Unwind => EventFollows(p, s);
      case _ => AllFollows(p, s);
    }
  }

  /** The Wait a step gets accepted. */
  function Accepted(p: Plugin, s: Step): seq<(nat, nat)> {
    if s.Wait? && NamesOwn(p, s) then [(s.target.value, s.id)] else []
  }

  ghost function AllAccepted(p: Plugin, steps: seq<Step>): seq<(nat, nat)>
    requires Legal(p, steps)
    decreases |steps|
  {
    if steps == [] then [] else Accepted(p, steps[0]) + AllAccepted(Apply(p, steps[0]), steps[1..])
  }

  /** Over every run the history holds exactly the Waits that were accepted, and exactly the completions that were sent. */
  lemma {:induction false} HistoryIsTrue(p: Plugin, steps: seq<Step>)
    requires Legal(p, steps)
    ensures Shown(Exec(p, steps)) <==> Shown(p)
    ensures Askings(Exec(p, steps).log) == Askings(p.log) + AllAccepted(p, steps)
    decreases |steps|
  {
    if steps != [] {
      StepFollows(p, steps[0]);
      var q := Apply(p, steps[0]);
      HistoryIsTrue(q, steps[1..]);
      Assoc(Askings(p.log), Accepted(p, steps[0]), AllAccepted(q, steps[1..]));
    } else {
      assert Askings(p.log) + [] == Askings(p.log);
    }
  }

  // -------------------------------------------------------- where it goes wrong

  /** `p` is reached by `steps`, all of them mannerly, with Waits in turn. */
  ghost predicate Reaches(p: Plugin, steps: seq<Step>, q: Plugin) {
    Legal(p, steps) && AllMannerly(p, steps, true) && Exec(p, steps) == q
  }

  lemma {:induction false} ReachesThen(p: Plugin, steps: seq<Step>, q: Plugin, s: Step)
    requires Reaches(p, steps, q) && Enabled(q, s) && Mannerly(q, s, true)
    ensures Reaches(p, steps + [s], Apply(q, s))
    decreases |steps|
  {
    if steps == [] {
      assert steps + [s] == [s] && [s][1..] == [];
    } else {
      ReachesThen(Apply(p, steps[0]), steps[1..], q, s);
      assert (steps + [s])[0] == steps[0] && (steps + [s])[1..] == steps[1..] + [s];
    }
  }

  /** A started process, reached by two commands. */
  lemma OneStarted() returns (steps: seq<Step>, p: Plugin)
    ensures Reaches(INIT, steps, p)
    ensures p == Plugin(map[1 := Proc(1, 1, true, false, 0)], 1, [],
                        [Reply(1, 1, Prepared(1)), Reply(1, 2, Ok)], [Began(1)], [])
  {
    var prepare, start := Prepare(1, 1, true, true), Start(1, 2, Some(1), true);
    ReachesThen(INIT, [], INIT, prepare);
    var q := Apply(INIT, prepare);
    ReachesThen(INIT, [] + [prepare], q, start);
    steps, p := [] + [prepare] + [start], Apply(q, start);
  }

  /** Stopping a running process completes a Wait that nobody sent. */
  lemma StopAnswersUnasked()
    ensures exists steps, p :: Reaches(INIT, steps, p) && AskedIds(p.log) == [] && Reply(1, 0, Completed(1)) in p.replies
  {
    var steps, p := OneStarted();
    var stop := Stop(1, 3, Some(1));
    ReachesThen(INIT, steps, p, stop);
    var q := Apply(p, stop);
    assert q.replies[2] == Reply(1, 0, Completed(1));
    assert q.log == [Began(1), Answered(1, 0, true)];
    assert Before(q.log) == [Began(1)] && Before([Began(1)]) == [];
  }

  /** A process that was answered, started again and stopped before the new Wait. */
  lemma StopAnswersTwice()
    ensures exists steps, p :: Reaches(INIT, steps, p) && AskedIds(p.log) == [7] && AnsweredIds(p.log) == [7, 7]
  {
    var steps, p := OneStarted();
    var wait, end := Wait(1, 7, Some(1)), ProcEnds(1);
    ReachesThen(INIT, steps, p, wait);
    var a := Apply(p, wait);
    ReachesThen(INIT, steps + [wait], a, end);
    EndedWithWait(steps + [wait] + [end], Apply(a, end));
  }

  lemma EndedWithWait(steps: seq<Step>, b: Plugin)
    requires Reaches(INIT, steps, b) && b.procs == map[1 := Proc(1, 1, false, true, 7)] && b.spinning == [1]
    requires b.log == [Began(1), Asked(1, 7)]
    ensures exists more, p :: Reaches(INIT, more, p) && AskedIds(p.log) == [7] && AnsweredIds(p.log) == [7, 7]
  {
    ReachesThen(INIT, steps, b, Unwind);
    StopAfterRestart(steps + [Unwind], Apply(b, Unwind));
  }

  lemma StopAfterRestart(steps: seq<Step>, c: Plugin)
    requires Reaches(INIT, steps, c) && c.procs == map[1 := Proc(1, 1, false, true, 7)] && c.spinning == []
    requires c.log == [Began(1), Asked(1, 7), Answered(1, 7, false)]
    ensures exists more, p :: Reaches(INIT, more, p) && AskedIds(p.log) == [7] && AnsweredIds(p.log) == [7, 7]
  {
    var start, stop := Start(1, 3, Some(1), true), Stop(1, 4, Some(1));
    ReachesThen(INIT, steps, c, start);
    var d := Apply(c, start);
    ReachesThen(INIT, steps + [start], d, stop);
    var e := Apply(d, stop);
    TwiceAnswered(c.log);
    assert e.log == c.log + [Began(1)] + [Answered(1, 7, true)];
  }

  lemma TwiceAnswered(log: seq<Deed>)
    requires log == [Began(1), Asked(1, 7), Answered(1, 7, false)]
    ensures AskedIds(log + [Began(1)] + [Answered(1, 7, true)]) == [7]
    ensures AnsweredIds(log + [Began(1)] + [Answered(1, 7, true)]) == [7, 7]
  {
    IdsThen([], Began(1));
    IdsThen([Began(1)], Asked(1, 7));
    IdsThen([Began(1), Asked(1, 7)], Answered(1, 7, false));
    IdsThen(log, Began(1));
    IdsThen(log + [Began(1)], Answered(1, 7, true));
    assert [] + [Began(1)] == [Began(1)];
    assert [Began(1)] + [Asked(1, 7)] + [Answered(1, 7, false)] == log;
  }

  lemma IdsThen(h: seq<Deed>, e: Deed)
    ensures AskedIds(h + [e]) == AskedIds(h) + if e.Asked? then [e.id] else []
    ensures AnsweredIds(h + [e]) == AnsweredIds(h) + if e.Answered? then [e.id] else []
  {
    assert Last(h + [e]) == e && Before(h + [e]) == h;
  }

  /** A kill when no Wait is unmet repeats the latest id, 0 if there never was one. */
  lemma KillRepeatsLatest(p: Plugin, d: nat, port: nat, id: nat)
    requires Told(p, false) && Enabled(p, Stop(port, id, Some(d))) && Refusal(p, port, Some(d)).None?
    requires p.procs[d].running && !Unmet(Of(p.log, d))
    ensures Apply(p, Stop(port, id, Some(d))).replies
      == p.replies + [Reply(port, LatestAsked(Of(p.log, d)), Completed(d)), Reply(port, id, Ok)]
    ensures !p.procs[d].waitDone
  {
    assert Fits(p, d, false);
  }

  /** A Wait that comes before its Start is forgotten: the handler of the end keeps spinning. */
  lemma EarlyWaitIsForgotten(p: Plugin, d: nat, id: nat, sid: nat)
    requires WellKept(p) && d in p.procs && !p.procs[d].running
    ensures var port := p.procs[d].wPort;
      var steps := [Wait(port, id, Some(d)), Start(port, sid, Some(d), true), ProcEnds(d)];
      Legal(p, steps) && Exec(p, steps).spinning == p.spinning + [d] && !Enabled(Exec(p, steps), Unwind)
  {
    var port := p.procs[d].wPort;
    ExecThree(p, Wait(port, id, Some(d)), Start(port, sid, Some(d), true), ProcEnds(d));
  }

  /** A script ended without a Wait, and its client stops it or leaves: the handler outlives its process. */
  lemma HandlerOutlivesReached(stopped: bool)
    ensures exists steps, p :: Reaches(INIT, steps, p) && p.spinning == [1] && p.procs == map[]
  {
    var steps, p := OneStarted();
    ReachesThen(INIT, steps, p, ProcEnds(1));
    var q := Apply(p, ProcEnds(1));
    var last := if stopped then Stop(1, 9, Some(1)) else CloseSocket(1);
    ReachesThen(INIT, steps + [ProcEnds(1)], q, last);
    assert q.procs == map[1 := Proc(1, 1, false, false, 0)];
    if !stopped {
      CloseEachOnlyCloses(q, {1});
      assert Closing(q.procs, 1) == {1};
    }
    assert Apply(q, last).procs == q.procs - {1} == map[];
    StepKeepsKeys(q, last);
  }

  lemma {:induction false} ExecConcat(p: Plugin, a: seq<Step>, b: seq<Step>)
    requires Legal(p, a) && Legal(Exec(p, a), b)
    ensures Legal(p, a + b) && Exec(p, a + b) == Exec(Exec(p, a), b)
    decreases |a|
  {
    if a == [] {
      assert a + b == b;
    } else {
      ExecConcat(Apply(p, a[0]), a[1..], b);
      assert (a + b)[0] == a[0] && (a + b)[1..] == a[1..] + b;
    }
  }

  /** The processes of all handlers from depth `i` inwards are there. */
  ghost predicate Live(p: Plugin, i: nat) {
    forall j :: i <= j < |p.spinning| ==> p.spinning[j] in p.procs && p.procs[p.spinning[j]].dpid == p.spinning[j]
  }

  predicate SameButWait(a: Proc, b: Proc) {
    a.dpid == b.dpid && a.wPort == b.wPort && a.running == b.running
  }

  /** `q` differs from `p` only in Waits, for the handlers from depth `i` inwards all of them under `id`. */
  ghost predicate Awaited(p: Plugin, q: Plugin, i: nat, id: nat) {
    && q.spinning == p.spinning && q.replies == p.replies && q.procs.Keys == p.procs.Keys
    && (forall d :: d in p.procs ==> SameButWait(p.procs[d], q.procs[d]))
    && forall j :: i <= j < |p.spinning| && p.spinning[j] in p.procs ==>
         q.procs[p.spinning[j]].waitDone && q.procs[p.spinning[j]].waitId == id
  }

  /** A Wait for each process from depth `i` inwards. */
  lemma {:induction false} WaitInwards(p: Plugin, i: nat, id: nat) returns (steps: seq<Step>)
    requires i <= |p.spinning| && Live(p, i)
    ensures Legal(p, steps) && Awaited(p, Exec(p, steps), i, id)
    ensures forall s :: s in steps ==> s.Wait?
    decreases |p.spinning| - i
  {
    steps := [];
    if i < |p.spinning| {
      var d := p.spinning[i];
      steps := WaitInwards(p, i + 1, id);
      var q := Exec(p, steps);
      var wait := Wait(q.procs[d].wPort, id, Some(d));
      ExecThen(p, steps, wait);
      steps := steps + [wait];
    }
  }

  /** With all Waits there, the handlers unwind down to depth `i`; the last answer is that one's. */
  lemma {:induction false} UnwindTo(p: Plugin, i: nat)
    requires i < |p.spinning| && Live(p, i) && forall j :: i <= j < |p.spinning| ==> HasWait(p, j)
    ensures var steps := Unwinds(|p.spinning| - i);
      var d := p.spinning[i];
      && Legal(p, steps) && Exec(p, steps).procs == p.procs && Exec(p, steps).spinning == p.spinning[..i]
      && |Exec(p, steps).replies| > |p.replies|
      && Exec(p, steps).replies[|Exec(p, steps).replies| - 1] == Reply(p.procs[d].wPort, p.procs[d].waitId, Completed(d))
    decreases |p.spinning|
  {
    var n := |p.spinning|;
    var steps := Unwinds(n - i);
    assert steps[0] == Unwind && steps[1..] == Unwinds(n - i - 1);
    assert HasWait(p, n - 1);
    var q := Apply(p, Unwind);
    if i < n - 1 {
      assert forall j :: i <= j < n - 1 ==> q.spinning[j] == p.spinning[j] && HasWait(p, j);
      UnwindTo(q, i);
      assert q.spinning[..i] == p.spinning[..i];
    } else {
      assert Exec(q, Unwinds(0)) == q;
    }
  }

  /**
   Restarted under its spinning handler, at whatever depth, a process has its Wait answered
   while it still runs: a Wait for each process from there inwards is enough.
   */
  lemma EarlyRestartIsAnsweredEarly(p: Plugin, i: nat, id: nat, sid: nat) returns (more: seq<Step>)
    requires WellKept(p) && i < |p.spinning| && Live(p, i) && !p.procs[p.spinning[i]].running
    ensures var d := p.spinning[i];
      var port := p.procs[d].wPort;
      var steps := [Start(port, sid, Some(d), true)] + more;
      && (forall s :: s in more ==> s.Wait? || s.Unwind?)
      && Legal(p, steps)
      && var q := Exec(p, steps);
         && d in q.procs && q.procs[d].running && q.spinning == p.spinning[..i]
         && |q.replies| > |p.replies| + 1 && q.replies[|q.replies| - 1] == Reply(port, id, Completed(d))
  {
    var d := p.spinning[i];
    var start := Start(p.procs[d].wPort, sid, Some(d), true);
    var a := Apply(p, start);
    assert Live(a, i) && a.spinning == p.spinning && a.procs[d].running;
    more := AnswerInwards(a, i, id);
    ExecCons(p, start, more);
  }

  /** Waits and unwinding answer the handler at depth `i`, without touching its process. */
  lemma AnswerInwards(a: Plugin, i: nat, id: nat) returns (more: seq<Step>)
    requires i < |a.spinning| && Live(a, i)
    ensures (forall s :: s in more ==> s.Wait? || s.Unwind?) && Legal(a, more)
    ensures var d := a.spinning[i];
      var q := Exec(a, more);
      && d in q.procs && SameButWait(a.procs[d], q.procs[d]) && q.spinning == a.spinning[..i]
      && |q.replies| > |a.replies|
      && q.replies[|q.replies| - 1] == Reply(a.procs[d].wPort, id, Completed(d))
  {
    var waits := WaitInwards(a, i, id);
    var b := Exec(a, waits);
    var n := |b.spinning| - i;
    assert Live(b, i) && forall j :: i <= j < |b.spinning| ==> HasWait(b, j);
    UnwindTo(b, i);
    UnwindsOnly(n);
    ExecConcat(a, waits, Unwinds(n));
    more := waits + Unwinds(n);
  }

  lemma {:induction false} UnwindsOnly(n: nat)
    ensures forall s :: s in Unwinds(n) ==> s.Unwind?
  {
    if n > 0 {
      UnwindsOnly(n - 1);
    }
  }

  /** That is reached: a running process whose Wait was already answered. */
  lemma EarlyRestartReached()
    ensures exists steps: seq<Step> ::
      Legal(INIT, steps) && 1 in Exec(INIT, steps).procs && Exec(INIT, steps).procs[1].running
      && Reply(1, 7, Completed(1)) in Exec(INIT, steps).replies
  {
    var steps, p := OneStarted();
    ExecThen(INIT, steps, ProcEnds(1));
    var q := Apply(p, ProcEnds(1));
    var more := EarlyRestartIsAnsweredEarly(q, 0, 7, 8);
    ExecConcat(INIT, steps + [ProcEnds(1)], [Start(1, 8, Some(1), true)] + more);
  }

  lemma {:induction false} ExecThen(p: Plugin, steps: seq<Step>, s: Step)
    requires Legal(p, steps) && Enabled(Exec(p, steps), s)
    ensures Legal(p, steps + [s]) && Exec(p, steps + [s]) == Apply(Exec(p, steps), s)
    decreases |steps|
  {
    if steps == [] {
      assert steps + [s] == [s] && [s][1..] == [];
    } else {
      ExecThen(Apply(p, steps[0]), steps[1..], s);
      assert (steps + [s])[0] == steps[0] && (steps + [s])[1..] == steps[1..] + [s];
    }
  }

  /** Of two ended processes only the one that ended first has its Wait: it is not answered. */
  lemma BlockedHandlerReached()
    ensures exists steps, p ::
      Reaches(INIT, steps, p) && p.spinning == [1, 2] && Due(p, 1) == [7] && !Enabled(p, Unwind)
  {
    var steps, p := OneStarted();
    var prepare, start := Prepare(1, 3, true, true), Start(1, 4, Some(2), true);
    ReachesThen(INIT, steps, p, prepare);
    var a := Apply(p, prepare);
    ReachesThen(INIT, steps + [prepare], a, start);
    BothEnd(steps + [prepare] + [start], Apply(a, start));
  }

  lemma BothEnd(steps: seq<Step>, p: Plugin)
    requires Reaches(INIT, steps, p) && p.spinning == []
    requires p.procs == map[1 := Proc(1, 1, true, false, 0), 2 := Proc(2, 1, true, false, 0)]
    ensures exists more, q ::
      Reaches(INIT, more, q) && q.spinning == [1, 2] && Due(q, 1) == [7] && !Enabled(q, Unwind)
  {
    var wait := Wait(1, 7, Some(1));
    ReachesThen(INIT, steps, p, ProcEnds(1));
    var a := Apply(p, ProcEnds(1));
    ReachesThen(INIT, steps + [ProcEnds(1)], a, ProcEnds(2));
    var b := Apply(a, ProcEnds(2));
    assert b.spinning == [1, 2];
    ReachesThen(INIT, steps + [ProcEnds(1)] + [ProcEnds(2)], b, wait);
    var c := Apply(b, wait);
    assert c.procs == map[1 := Proc(1, 1, false, true, 7), 2 := Proc(2, 1, false, false, 0)];
    assert 1 in c.spinning;
  }

  // ------------------------------------------------------------ the object itself

  /** The plugin; a process object is kept as a value in the map that owns it. */
  class DebuggerPlugin {
    var procs: map<nat, Proc>
    var lastDpid: nat                 // the static counter of the process class
    var spinning: seq<nat>
    var replies: seq<Reply>
    var written: seq<Written>
    ghost var log: seq<Deed>

    ghost function View(): Plugin
      reads this
    {
      Plugin(procs, lastDpid, spinning, replies, log, written)
    }

    constructor ()
      ensures View() == INIT
    {
      procs, lastDpid, spinning, replies := map[], 0, [], [];
      log, written := [], [];
    }

    method Send(port: nat, id: nat, body: Body)
      modifies this`replies
      ensures replies == old(replies) + [Reply(port, id, body)]
    {
      replies := replies + [Reply(port, id, body)];
    }

    method HandlePrepare(port: nat, id: nat, script: bool, ok: bool)
      modifies this
      ensures View() == Apply(old(View()), Prepare(port, id, script, ok))
    {
      if !script {
        Send(port, id, Failed(InvalidParams));
        return;
      }
      lastDpid := lastDpid + 1;
      if ok {
        procs := procs[lastDpid := Proc(lastDpid, port, false, false, 0)];
        Send(port, id, Prepared(lastDpid));
      } else {
        Send(port, id, Failed(PrepareFailed));
      }
    }

    /** The process the command may act on; otherwise the refusal has been sent. */
    method GetProc(port: nat, id: nat, target: Option<nat>) returns (ok: bool)
      modifies this`replies
      ensures ok <==> Refusal(old(View()), port, target).None?
      ensures ok ==> target.Some? && target.value in procs && procs[target.value].wPort == port
      ensures replies == if ok then old(replies)
        else old(replies) + [Reply(port, id, Failed(Refusal(old(View()), port, target).value))]
    {
      if target.None? {
        Send(port, id, Failed(InvalidParams));
        return false;
      }
      if target.value !in procs {
        Send(port, id, Failed(InvalidDpid));
        return false;
      }
      if procs[target.value].wPort != port {
        Send(port, id, Failed(NoPermission));
        return false;
      }
      return true;
    }

    /** Starts a process that does not run yet, clearing its flag first. */
    method StartProcess(d: nat, ok: bool) returns (res: bool)
      requires d in procs
      modifies this`procs, this`log
      ensures View() == StartOne(old(View()), d, ok) && res == (old(procs)[d].running || ok)
    {
      var proc := procs[d];
      if proc.running {
        return true;
      }
      proc := proc.(waitDone := false);
      proc := proc.(running := ok);
      procs := procs[d := proc];
      log := log + [if ok then Began(d) else Unbegun(d)];
      return ok;
    }

    method HandleStart(port: nat, id: nat, target: Option<nat>, ok: bool)
      modifies this
      ensures View() == Apply(old(View()), Start(port, id, target, ok))
    {
      var found := GetProc(port, id, target);
      if !found { return; }
      var started := StartProcess(target.value, ok);
      Send(port, id, if started then Ok else Failed(StartFailed));
    }

    method HandleWait(port: nat, id: nat, target: Option<nat>)
      modifies this
      ensures View() == Apply(old(View()), Wait(port, id, target))
    {
      var found := GetProc(port, id, target);
      if !found { return; }
      var proc := procs[target.value].(waitId := id);
      proc := proc.(waitDone := true);
      procs := procs[target.value := proc];
      log := log + [Asked(target.value, id)];
    }

    /** Kills a running process; its handler answers the Wait under the id it last saw. */
    method StopOne(d: nat)
      requires d in procs
      modifies this
      ensures View() == StopProc(old(View()), d)
    {
      var proc := procs[d];
      if proc.running {
        proc := proc.(waitDone := true, running := false);
        procs := procs[d := proc];
        Send(proc.wPort, proc.waitId, Completed(proc.dpid));
        log := log + [Answered(proc.dpid, proc.waitId, true)];
      }
    }

    /** Takes the process out of the map and deletes it. */
    method RemoveOne(d: nat)
      modifies this`procs, this`log
      ensures View() == Remove(old(View()), d)
    {
      procs := procs - {d};
      if d in spinning {
        log := log + [Forgotten(d)];
      }
    }

    method HandleStop(port: nat, id: nat, target: Option<nat>)
      modifies this
      ensures View() == Apply(old(View()), Stop(port, id, target))
    {
      var found := GetProc(port, id, target);
      if !found { return; }
      StopOne(target.value);
      RemoveOne(target.value);
      Send(port, id, Ok);
    }

    method HandleInput(port: nat, id: nat, target: Option<nat>, cmd: bool, ok: bool)
      modifies this
      ensures View() == Apply(old(View()), Input(port, id, target, cmd, ok))
    {
      var found := GetProc(port, id, target);
      if !found { return; }
      if !cmd {
        Send(port, id, Failed(InvalidParams));
        return;
      }
      if procs[target.value].running && ok {
        written := written + [Written(port, target.value)];
        Send(port, id, Ok);
      } else {
        Send(port, id, Failed(WriteFailed));
      }
    }

    /** The key an iteration by increasing id comes to next. */
    static method Next(rest: set<nat>) returns (d: nat)
      requires rest != {}
      ensures d == Least(rest)
    {
      ghost var least := Least(rest);
      d :| d in rest && forall e :: e in rest ==> d <= e;
      assert d == least;
    }

    /** Iterates over the map by increasing id and stops the processes of `ds`. */
    method StopAmong(ds: set<nat>)
      requires ds <= procs.Keys
      modifies this
      ensures View() == StopEach(old(View()), ds)
    {
      var rest := ds;
      while |rest| > 0
        invariant rest <= procs.Keys
        invariant StopEach(View(), rest) == StopEach(old(View()), ds)
        decreases |rest|
      {
        var d := Next(rest);
        StopOne(d);
        rest := rest - {d};
      }
    }

    method HandleStopAll(port: nat, id: nat)
      modifies this
      ensures View() == Apply(old(View()), StopAll(port, id))
    {
      var mine := Owned(procs, port);
      StopAmong(mine);
      Send(port, id, Stopped(map d | d in mine :: true, true));
    }

    /** Iterates over the map by increasing id; stops, deletes and removes the port's processes. */
    method HandleClose(port: nat)
      modifies this
      ensures View() == Apply(old(View()), CloseSocket(port))
    {
      var rest := Closing(procs, port);
      ghost var gone := rest;
      while |rest| > 0
        invariant rest <= procs.Keys
        invariant CloseEach(View(), rest) == CloseEach(old(View()), gone)
        decreases |rest|
      {
        var d := Next(rest);
        StopOne(d);
        RemoveOne(d);
        rest := rest - {d};
      }
    }

    /** Iterates over the map by increasing id and starts the port's processes, noting each result. */
    method StartOwned(port: nat, able: set<nat>) returns (detail: map<nat, bool>, all: bool)
      modifies this`procs, this`log
      ensures View() == StartEach(old(View()), Owned(old(procs), port), able)
      ensures detail == StartResults(old(procs), port, able) && all == AllTrue(detail)
    {
      detail, all := map[], true;
      var rest := Owned(procs, port);
      ghost var first, now, mine := View(), View(), rest;
      while |rest| > 0
        invariant View() == now && now.procs.Keys == first.procs.Keys
        invariant rest <= mine <= first.procs.Keys
        invariant forall d :: d in rest ==> now.procs[d] == first.procs[d]
        invariant StartEach(now, rest, able) == StartEach(first, mine, able)
        invariant NotedFor(detail, first.procs, mine - rest, able) && all == AllTrue(detail)
        decreases |rest|
      {
        var d := Next(rest);
        var res := StartProcess(d, d in able);
        if !res { all := false; }
        AllTrueWith(detail, d, res);
        NotedWith(detail, first.procs, mine, rest, d, able);
        detail := detail[d := res];
        rest := rest - {d};
        now := StartOne(now, d, d in able);
      }
      assert mine - rest == mine;
    }

    method HandleStartAll(port: nat, id: nat, able: set<nat>)
      modifies this
      ensures View() == Apply(old(View()), StartAll(port, id, able))
    {
      var detail, all := StartOwned(port, able);
      Send(port, id, Started(detail, all));
    }

    method HandleGetProcessStatus(port: nat, id: nat)
      modifies this
      ensures View() == Apply(old(View()), GetStatus(port, id))
    {
      Send(port, id, Status(map d | d in Owned(procs, port) :: procs[d].running));
    }

    /** The process ended: its handler starts to spin, inside whichever handler was spinning. */
    method OnProcessEnd(d: nat)
      requires Enabled(View(), ProcEnds(d))
      modifies this
      ensures View() == Apply(old(View()), ProcEnds(d))
    {
      procs := procs[d := procs[d].(running := false)];
      spinning := spinning + [d];
    }

    /** The innermost handlers whose flag is set leave their loops and answer, one after the other. */
    method LeaveLoops() returns (n: nat)
      modifies this
      ensures n <= |old(spinning)| && Legal(old(View()), Unwinds(n))
      ensures View() == Exec(old(View()), Unwinds(n))
      ensures spinning == [] || !Enabled(View(), Unwind)
    {
      n := 0;
      while |spinning| > 0 && spinning[|spinning| - 1] in procs && procs[spinning[|spinning| - 1]].waitDone
        invariant n + |spinning| == |old(spinning)|
        invariant Legal(old(View()), Unwinds(n)) && View() == Exec(old(View()), Unwinds(n))
        decreases |spinning|
      {
        ghost var before := View();
        var proc := procs[spinning[|spinning| - 1]];
        Send(proc.wPort, proc.waitId, Completed(proc.dpid));
        log := log + [Answered(proc.dpid, proc.waitId, false)];
        spinning := spinning[..|spinning| - 1];
        assert View() == Apply(before, Unwind);
        UnwindOnce(old(View()), n);
        n := n + 1;
      }
    }
  }

  lemma {:induction false} UnwindOnce(p: Plugin, n: nat)
    requires Legal(p, Unwinds(n)) && Enabled(Exec(p, Unwinds(n)), Unwind)
    ensures Legal(p, Unwinds(n + 1)) && Exec(p, Unwinds(n + 1)) == Apply(Exec(p, Unwinds(n)), Unwind)
    decreases n
  {
    assert Unwinds(n + 1)[0] == Unwind && Unwinds(n + 1)[1..] == Unwinds(n);
    if n > 0 {
      assert Unwinds(n)[0] == Unwind && Unwinds(n)[1..] == Unwinds(n - 1);
      UnwindOnce(Apply(p, Unwind), n - 1);
    }
  }
}
