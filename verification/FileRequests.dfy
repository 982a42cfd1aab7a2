/**
 File requests: a job object per request, run by the pool, whose begin and
 finished signals cross to the main event loop while a single-shot timer may fire
 there first. The pool, every job and the event queue advance in one interleaving.
 */
module FileRequests {
  import opened Seqs
  import opened ThreadPool

  datatype Event = BeginEvent | FinishedEvent(code: int) | DeleteEvent

  /** Where a reply sent to the caller came from. */
  datatype Reply = FromJob(code: int) | FromTimer

  datatype Phase =
    | Queued      // submitted, callback not yet invoked
    | Invoked     // callback(false) entered, begin not yet emitted
    | Began       // begin emitted, exec running
    | Released    // exec returned and deletion was posted
    | Dropped     // callback(true): cancelled, deletion was posted

  /** The job object with its timer, and what it has told the caller. */
  datatype Request = Request(phase: Phase, connected: bool, isTimeout: bool, timerOn: bool,
                             alive: bool, finishes: seq<int>, replies: seq<Reply>)

  const FRESH := Request(Queued, true, false, false, true, [], [])

  datatype Desk = Desk(requests: seq<Request>, queue: seq<(nat, Event)>)

  datatype System = System(pool: Pool, desk: Desk)

  datatype Action =
    | InPool(step: Step)
    | EmitBegin(w: nat)
    | EmitFinished(w: nat, code: int)
    | PostDelete(w: nat)
    | Deliver                // the main loop handles the oldest event
    | TimerFires(r: nat)

  // -------------------------------------------------------------------- behaviour

  /** The main-thread handler of one event. */
  function Handle(r: Request, ev: Event): Request {
    match ev
    case BeginEvent => r.(timerOn := true)
    case FinishedEvent(code) =>
      (if r.isTimeout then r else r.(replies := r.replies + [FromJob(code)])).(timerOn := false)
    case DeleteEvent => r.(alive := false, timerOn := false)
  }

  function Expire(r: Request): Request {
    r.(isTimeout := true, connected := false, timerOn := false, replies := r.replies + [FromTimer])
  }

  function Tagged(i: nat, evs: seq<Event>): seq<(nat, Event)> {
    seq(|evs|, k requires 0 <= k < |evs| => (i, evs[k]))
  }

  /** Replace request `i` and post `evs` on its behalf. */
  function Post(d: Desk, i: nat, r: Request, evs: seq<Event>): Desk
    requires i < |d.requests|
  {
    Desk(d.requests[i := r], d.queue + Tagged(i, evs))
  }

  /** A signal reaches the queue only while it is connected. */
  function Emitted(r: Request, ev: Event): seq<Event> {
    if r.connected then [ev] else []
  }

  function DropAll(d: Desk, ts: seq<Task>): Desk
    decreases |ts|
  {
    if ts == [] then d
    else if ts[0].id < |d.requests| then
      DropAll(Post(d, ts[0].id, d.requests[ts[0].id].(phase := Dropped), [DeleteEvent]), ts[1..])
    else DropAll(d, ts[1..])
  }

  /** Worker `w` is inside the callback of a known request that is in `phase`. */
  predicate Inside(s: System, w: nat, phase: Phase) {
    && w < |s.pool.workers| && s.pool.workers[w].Running?
    && s.pool.workers[w].task.id < |s.desk.requests|
    && s.desk.requests[s.pool.workers[w].task.id].phase == phase
  }

  predicate Possible(s: System, a: Action) {
    match a
    case InPool(step) =>
      && Enabled(s.pool, step)
      && (step.Begin? ==> s.pool.workers[step.w].task.id < |s.desk.requests|)
      && (step.End? ==> Inside(s, step.w, Released))
    case EmitBegin(w) => Inside(s, w, Invoked)
    case EmitFinished(w, _) => Inside(s, w, Began)
    case PostDelete(w) => Inside(s, w, Began)
    case Deliver => s.desk.queue != [] && s.desk.queue[0].0 < |s.desk.requests|
    case TimerFires(r) => r < |s.desk.requests| && s.desk.requests[r].timerOn
  }

  function DeskAfterPool(s: System, step: Step): Desk
    requires Possible(s, InPool(step))
  {
    match step
    case Submit(_, _) => s.desk.(requests := s.desk.requests + [FRESH])
    case Begin(w) =>
      var i := s.pool.workers[w].task.id;
      Post(s.desk, i, s.desk.requests[i].(phase := Invoked), [])
    case Clear(scope) => DropAll(s.desk, Filter(s.pool.tasks, Selected(scope)))
    case _ => s.desk
  }

  /** One action of the job run by worker `w`: its request afterwards and what it posts. */
  function JobAction(r: Request, a: Action): (Request, seq<Event>) {
    match a
    case EmitBegin(_) => (r.(phase := Began), Emitted(r, BeginEvent))
    case EmitFinished(_, code) => (r.(finishes := r.finishes + [code]), Emitted(r, FinishedEvent(code)))
    case PostDelete(_) => (r.(phase := Released), [DeleteEvent])
    case _ => (r, [])
  }

  function DeliverHead(d: Desk): Desk
    requires d.queue != [] && d.queue[0].0 < |d.requests|
  {
    var (i, ev) := d.queue[0];
    Desk(d.requests[i := Handle(d.requests[i], ev)], d.queue[1..])
  }

  function Perform(s: System, a: Action): System
    requires Possible(s, a)
  {
    match a
    case InPool(step) => System(Apply(s.pool, step), DeskAfterPool(s, step))
    case Deliver => s.(desk := DeliverHead(s.desk))
    case TimerFires(r) => s.(desk := Post(s.desk, r, Expire(s.desk.requests[r]), []))
    case _ =>
      var i := s.pool.workers[a.w].task.id;
      var (r, evs) := JobAction(s.desk.requests[i], a);
      s.(desk := Post(s.desk, i, r, evs))
  }

  predicate PossibleRun(s: System, run: seq<Action>)
    decreases |run|
  {
    run == [] || (Possible(s, run[0]) && PossibleRun(Perform(s, run[0]), run[1..]))
  }

  function RunAll(s: System, run: seq<Action>): System
    requires PossibleRun(s, run)
    decreases |run|
  {
    if run == [] then s else RunAll(Perform(s, run[0]), run[1..])
  }

  function Boot(max: nat): System {
    System(Init(max), Desk([], []))
  }

  // ------------------------------------------------- one request and its own events

  function Finished(codes: seq<int>): seq<Event> {
    seq(|codes|, k requires 0 <= k < |codes| => FinishedEvent(codes[k]))
  }

  function Answers(codes: seq<int>): seq<Reply> {
    seq(|codes|, k requires 0 <= k < |codes| => FromJob(codes[k]))
  }

  /** A job that began: `evs` are its undelivered events other than the deletion. */
  ghost predicate Active(r: Request, evs: seq<Event>) {
    && r.alive
    && if r.isTimeout then
         && !r.connected && !r.timerOn && r.replies == [FromTimer]
         && forall k :: 0 <= k < |evs| ==> evs[k].FinishedEvent?
       else
         && r.connected
         && (|| (evs == [BeginEvent] + Finished(r.finishes) && r.replies == [] && !r.timerOn)
             || (&& |r.replies| <= |r.finishes|
                 && r.replies == Answers(r.finishes[..|r.replies|])
                 && evs == Finished(r.finishes[|r.replies|..])
                 && (r.timerOn <==> r.replies == [])))
  }

  /** What the caller has been told once the deletion was handled. */
  ghost predicate Settled(r: Request) {
    && !r.alive && !r.timerOn && (r.isTimeout ==> !r.connected)
    && r.replies == (if r.isTimeout then [FromTimer] else Answers(r.finishes))
  }

  ghost predicate Consistent(r: Request, evs: seq<Event>) {
    match r.phase
    case Queued => r == FRESH && evs == []
    case Invoked => r == FRESH.(phase := Invoked) && evs == []
    case Began => Active(r, evs)
    case Released =>
      || (evs != [] && evs[|evs| - 1] == DeleteEvent && Active(r, evs[..|evs| - 1]))
      || (evs == [] && Settled(r))
    case Dropped =>
      || (evs == [DeleteEvent] && r == FRESH.(phase := Dropped))
      || (evs == [] && r == FRESH.(phase := Dropped, alive := false))
  }

  lemma JobKeepsConsistent(r: Request, evs: seq<Event>, a: Action)
    requires Consistent(r, evs)
    requires (a.EmitBegin? && r.phase == Invoked) || ((a.EmitFinished? || a.PostDelete?) && r.phase == Began)
    ensures var (q, more) := JobAction(r, a); Consistent(q, evs + more)
  {
    var (q, more) := JobAction(r, a);
    match a
    case EmitBegin(_) =>
      assert evs + more == [BeginEvent] + Finished([]);
    case EmitFinished(_, code) =>
      if !r.isTimeout {
        assert Finished(q.finishes) == Finished(r.finishes) + [FinishedEvent(code)];
        var n := |r.replies|;
        if n <= |r.finishes| {
          assert q.finishes[..n] == r.finishes[..n];
          assert q.finishes[n..] == r.finishes[n..] + [code];
        }
      }
    case PostDelete(_) =>
      assert (evs + more)[..|evs + more| - 1] == evs;
    case _ =>
  }

  lemma HandleKeepsConsistent(r: Request, evs: seq<Event>)
    requires Consistent(r, evs) && evs != []
    ensures Consistent(Handle(r, evs[0]), evs[1..])
    ensures r.alive
  {
    if r.phase == Began {
      HandleKeepsActive(r, evs);
    } else if r.phase == Released {
      var n := |evs| - 1;
      if n > 0 {
        HandleKeepsActive(r, evs[..n]);
        assert evs[1..][..n - 1] == evs[..n][1..];
      } else {
        assert evs[..n] == [];
        assert r.finishes[..|r.finishes|] == r.finishes;
      }
    }
  }

  lemma HandleKeepsActive(r: Request, evs: seq<Event>)
    requires Active(r, evs) && evs != []
    ensures Active(Handle(r, evs[0]), evs[1..])
  {
    if !r.isTimeout {
      var q := Handle(r, evs[0]);
      if evs[0].BeginEvent? {
        assert r.finishes[0..] == r.finishes && r.finishes[..0] == [];
        assert evs[1..] == Finished(r.finishes);
      } else {
        var n := |r.replies|;
        assert r.finishes[n..][0] == r.finishes[n];
        assert r.finishes[..n + 1] == r.finishes[..n] + [r.finishes[n]];
        assert r.finishes[n..][1..] == r.finishes[n + 1..];
      }
    }
  }

  lemma ExpireKeepsConsistent(r: Request, evs: seq<Event>)
    requires Consistent(r, evs) && r.timerOn
    ensures Consistent(Expire(r), evs)
  {
  }

  // ------------------------------------------------------------- the shared queue

  /** The undelivered events of request `i`, oldest first. */
  function Project(q: seq<(nat, Event)>, i: nat): seq<Event> {
    if q == [] then []
    else if q[0].0 == i then [q[0].1] + Project(q[1..], i)
    else Project(q[1..], i)
  }

  lemma {:induction false} ProjectConcat(a: seq<(nat, Event)>, b: seq<(nat, Event)>, i: nat)
    ensures Project(a + b, i) == Project(a, i) + Project(b, i)
  {
    if a == [] {
      assert a + b == b;
    } else {
      ProjectConcat(a[1..], b, i);
      assert (a + b)[0] == a[0] && (a + b)[1..] == a[1..] + b;
      Assoc([a[0].1], Project(a[1..], i), Project(b, i));
    }
  }

  lemma {:induction false} ProjectTagged(j: nat, evs: seq<Event>, i: nat)
    ensures Project(Tagged(j, evs), i) == if i == j then evs else []
  {
    if evs != [] {
      ProjectTagged(j, evs[1..], i);
      assert Tagged(j, evs)[1..] == Tagged(j, evs[1..]);
    }
  }

  ghost predicate DeskInv(d: Desk) {
    && (forall k :: 0 <= k < |d.queue| ==> d.queue[k].0 < |d.requests|)
    && (forall i :: 0 <= i < |d.requests| ==> Consistent(d.requests[i], Project(d.queue, i)))
  }

  lemma PostKeepsDesk(d: Desk, i: nat, r: Request, evs: seq<Event>)
    requires DeskInv(d) && i < |d.requests| && Consistent(r, Project(d.queue, i) + evs)
    ensures DeskInv(Post(d, i, r, evs))
  {
    var q := Post(d, i, r, evs);
    forall j | 0 <= j < |q.requests|
      ensures Consistent(q.requests[j], Project(q.queue, j))
    {
      ProjectConcat(d.queue, Tagged(i, evs), j);
      ProjectTagged(i, evs, j);
      if j != i {
        assert Project(q.queue, j) == Project(d.queue, j) + [] == Project(d.queue, j);
      }
    }
  }

  lemma DeliverKeepsDesk(d: Desk)
    requires DeskInv(d) && d.queue != []
    ensures DeskInv(DeliverHead(d))
    ensures d.requests[d.queue[0].0].alive
  {
    var (i, ev) := d.queue[0];
    var q := DeliverHead(d);
    HandleKeepsConsistent(d.requests[i], Project(d.queue, i));
    forall j | 0 <= j < |q.requests|
      ensures Consistent(q.requests[j], Project(q.queue, j))
    {
    }
  }

  lemma SubmitKeepsDesk(d: Desk)
    requires DeskInv(d)
    ensures DeskInv(d.(requests := d.requests + [FRESH]))
  {
    ProjectNothing(d.queue, |d.requests|);
  }

  lemma {:induction false} ProjectNothing(q: seq<(nat, Event)>, i: nat)
    requires forall k :: 0 <= k < |q| ==> q[k].0 != i
    ensures Project(q, i) == []
  {
    if q != [] {
      ProjectNothing(q[1..], i);
    }
  }

  lemma {:induction false} DropAllKeepsDesk(d: Desk, ts: seq<Task>)
    requires DeskInv(d)
    requires forall k :: 0 <= k < |ts| ==> ts[k].id < |d.requests| && d.requests[ts[k].id].phase == Queued
    requires forall j, k :: 0 <= j < k < |ts| ==> ts[j].id != ts[k].id
    ensures DeskInv(DropAll(d, ts))
    ensures |DropAll(d, ts).requests| == |d.requests|
    ensures forall i :: 0 <= i < |d.requests| ==>
      DropAll(d, ts).requests[i].phase ==
        if exists k :: 0 <= k < |ts| && ts[k].id == i then Dropped else d.requests[i].phase
    decreases |ts|
  {
    if ts != [] {
      var i := ts[0].id;
      var r := d.requests[i].(phase := Dropped);
      var next := Post(d, i, r, [DeleteEvent]);
      assert Project(d.queue, i) + [DeleteEvent] == [DeleteEvent];
      PostKeepsDesk(d, i, r, [DeleteEvent]);
      assert forall k :: 0 <= k < |ts[1..]| ==> ts[1..][k] == ts[k + 1];
      assert forall k :: 1 <= k < |ts| ==> ts[k] == ts[1..][k - 1];
      DropAllKeepsDesk(next, ts[1..]);
      forall j | 0 <= j < |d.requests|
        ensures DropAll(d, ts).requests[j].phase ==
          if exists k :: 0 <= k < |ts| && ts[k].id == j then Dropped else d.requests[j].phase
      {
        if exists k :: 0 <= k < |ts[1..]| && ts[1..][k].id == j {
          var k :| 0 <= k < |ts[1..]| && ts[1..][k].id == j;
          assert ts[k + 1].id == j;
        }
      }
    }
  }

  // ------------------------------------------------------- pool and desk together

  ghost predicate QueuedWhilePending(s: System) {
    forall k :: 0 <= k < |s.pool.tasks| ==>
      s.pool.tasks[k].id < |s.desk.requests| && s.desk.requests[s.pool.tasks[k].id].phase == Queued
  }

  ghost predicate WorkerPhases(s: System) {
    forall w :: 0 <= w < |s.pool.workers| ==>
      match s.pool.workers[w]
      case Taken(t) => t.id < |s.desk.requests| && s.desk.requests[t.id].phase == Queued
      case Running(t) => t.id < |s.desk.requests|
        && (s.desk.requests[t.id].phase == Invoked || s.desk.requests[t.id].phase == Began
            || s.desk.requests[t.id].phase == Released)
      case _ => true
  }

  /** A request that is not over is still in the pool, where its phase says. */
  ghost predicate NoneForgotten(s: System) {
    && |s.desk.requests| == |s.pool.submitted|
    && forall i :: 0 <= i < |s.desk.requests| ==>
      match s.desk.requests[i].phase
      case Queued => s.pool.submitted[i] in s.pool.tasks || Taken(s.pool.submitted[i]) in s.pool.workers
      case Invoked => Running(s.pool.submitted[i]) in s.pool.workers
      case Began => Running(s.pool.submitted[i]) in s.pool.workers
      case _ => true
  }

  ghost predicate SystemInv(s: System) {
    && Inv(s.pool) && DeskInv(s.desk)
    && QueuedWhilePending(s) && WorkerPhases(s) && NoneForgotten(s)
  }

  /** A popped task is neither pending nor popped twice. */
  lemma HeldOnce(p: Pool, w: nat)
    requires Inv(p) && w < |p.workers| && p.workers[w].Taken?
    ensures p.workers[w].task !in p.tasks
    ensures forall v :: 0 <= v < |p.workers| && v != w ==> p.workers[v] != p.workers[w]
  {
    var t := p.workers[w].task;
    SubmittedOnce(p, t);
    assert Places(p, t) == multiset(p.submitted)[t];
    CountAtLeast(p.workers, TakenOf(t), w);
    forall v | 0 <= v < |p.workers| && v != w
      ensures p.workers[v] != p.workers[w]
    {
      if p.workers[v] == p.workers[w] {
        CountTwice(p.workers, TakenOf(t), if v < w then v else w, if v < w then w else v);
      }
    }
  }

  /** A task anywhere in the pool is the one submitted under its number. */
  lemma KnownTask(p: Pool, t: Task)
    requires Inv(p) && (t in p.tasks || Taken(t) in p.workers || Running(t) in p.workers)
    ensures t.id < |p.submitted| && p.submitted[t.id] == t
  {
    assert Places(p, t) == multiset(p.submitted)[t];
    if Taken(t) in p.workers {
      var w :| 0 <= w < |p.workers| && p.workers[w] == Taken(t);
      CountAtLeast(p.workers, TakenOf(t), w);
    } else if Running(t) in p.workers {
      var w :| 0 <= w < |p.workers| && p.workers[w] == Running(t);
      CountAtLeast(p.workers, RunningOf(t), w);
      assert Count(p.workers, RunningOf(t)) <= multiset(Called(p.calls, false))[t];
    }
    assert t in p.submitted;
  }

  ghost predicate Linked(s: System) {
    QueuedWhilePending(s) && WorkerPhases(s) && NoneForgotten(s)
  }

  lemma LinkedSubmit(s: System, owner: nat, wake: nat)
    requires SystemInv(s) && Possible(s, InPool(Submit(owner, wake)))
    ensures Linked(Perform(s, InPool(Submit(owner, wake))))
  {
    var q := Perform(s, InPool(Submit(owner, wake)));
    var ws := Grow(s.pool).workers;
    assert q.pool.workers == Notify(ws, wake);
    assert forall w :: 0 <= w < |s.pool.workers| && !s.pool.workers[w].Asleep? ==>
        q.pool.workers[w] == s.pool.workers[w];
    forall i | 0 <= i < |s.desk.requests|
      ensures Running(s.pool.submitted[i]) in s.pool.workers ==> Running(s.pool.submitted[i]) in q.pool.workers
      ensures Taken(s.pool.submitted[i]) in s.pool.workers ==> Taken(s.pool.submitted[i]) in q.pool.workers
    {
    }
    assert q.pool.tasks[|s.pool.tasks|] == q.pool.submitted[|s.pool.submitted|];
  }

  lemma LinkedAcquire(s: System, w: nat)
    requires SystemInv(s) && Possible(s, InPool(Acquire(w)))
    ensures Linked(Perform(s, InPool(Acquire(w))))
  {
    var q := Perform(s, InPool(Acquire(w)));
    assert forall v :: 0 <= v < |s.pool.workers| && v != w ==> q.pool.workers[v] == s.pool.workers[v];
    forall i | 0 <= i < |s.desk.requests| && s.pool.submitted[i] in s.pool.tasks
      ensures s.pool.submitted[i] in q.pool.tasks || Taken(s.pool.submitted[i]) in q.pool.workers
    {
      var k :| 0 <= k < |s.pool.tasks| && s.pool.tasks[k] == s.pool.submitted[i];
      if k > 0 {
        assert q.pool.tasks[k - 1] == s.pool.submitted[i];
      } else {
        assert q.pool.workers[w] == Taken(s.pool.submitted[i]);
      }
    }
  }

  lemma LinkedBegin(s: System, w: nat)
    requires SystemInv(s) && Possible(s, InPool(Begin(w)))
    ensures Linked(Perform(s, InPool(Begin(w))))
    ensures DeskInv(Perform(s, InPool(Begin(w))).desk)
  {
    var q := Perform(s, InPool(Begin(w)));
    var t := s.pool.workers[w].task;
    HeldOnce(s.pool, w);
    KnownTask(s.pool, t);
    PostKeepsDesk(s.desk, t.id, FRESH.(phase := Invoked), []);
    assert q.pool.workers[w] == Running(t);
    assert forall v :: 0 <= v < |s.pool.workers| && v != w ==> q.pool.workers[v] == s.pool.workers[v];
    forall k | 0 <= k < |s.pool.tasks|
      ensures s.pool.tasks[k].id != t.id
    {
      KnownTask(s.pool, s.pool.tasks[k]);
    }
    forall v | 0 <= v < |s.pool.workers| && v != w && s.pool.workers[v].Taken?
      ensures s.pool.workers[v].task.id != t.id
    {
      KnownTask(s.pool, s.pool.workers[v].task);
    }
  }

  lemma LinkedEnd(s: System, w: nat)
    requires SystemInv(s) && Possible(s, InPool(End(w)))
    ensures Linked(Perform(s, InPool(End(w))))
  {
    var q := Perform(s, InPool(End(w)));
    KnownTask(s.pool, s.pool.workers[w].task);
    assert forall v :: 0 <= v < |s.pool.workers| && v != w ==> q.pool.workers[v] == s.pool.workers[v];
  }

  lemma LinkedSpurious(s: System, w: nat)
    requires SystemInv(s) && Possible(s, InPool(Spurious(w)))
    ensures Linked(Perform(s, InPool(Spurious(w))))
  {
    var q := Perform(s, InPool(Spurious(w)));
    assert forall v :: 0 <= v < |s.pool.workers| && v != w ==> q.pool.workers[v] == s.pool.workers[v];
  }

  lemma LinkedClear(s: System, scope: Scope)
    requires SystemInv(s)
    ensures Linked(Perform(s, InPool(Clear(scope))))
    ensures DeskInv(Perform(s, InPool(Clear(scope))).desk)
  {
    var q := Perform(s, InPool(Clear(scope)));
    var gone := Filter(s.pool.tasks, Selected(scope));
    PendingIdsDistinct(s.pool);
    FilterIncreasing(s.pool.tasks, Selected(scope));
    forall k | 0 <= k < |gone|
      ensures gone[k] in s.pool.tasks
    {
      FilterMember(s.pool.tasks, Selected(scope), gone[k]);
    }
    DropAllKeepsDesk(s.desk, gone);
    forall i | 0 <= i < |s.desk.requests|
      ensures (exists k :: 0 <= k < |gone| && gone[k].id == i) <==>
              s.pool.submitted[i] in s.pool.tasks && Selected(scope)(s.pool.submitted[i])
    {
      FilterMember(s.pool.tasks, Selected(scope), s.pool.submitted[i]);
      if k :| 0 <= k < |gone| && gone[k].id == i {
        KnownTask(s.pool, gone[k]);
      }
    }
    forall t | t in s.pool.tasks
      ensures t in q.pool.tasks <==> !Selected(scope)(t)
    {
      FilterMember(s.pool.tasks, Unselected(scope), t);
    }
    forall k | 0 <= k < |q.pool.tasks|
      ensures q.pool.tasks[k] in s.pool.tasks && !Selected(scope)(q.pool.tasks[k])
    {
      FilterMember(s.pool.tasks, Unselected(scope), q.pool.tasks[k]);
      KnownTask(s.pool, q.pool.tasks[k]);
    }
    LinkedClearPhases(s, q, scope);
  }

  lemma LinkedClearPhases(s: System, q: System, scope: Scope)
    requires SystemInv(s)
    requires q.pool.workers == s.pool.workers && q.pool.submitted == s.pool.submitted
    requires |q.desk.requests| == |s.desk.requests|
    requires forall t :: t in q.pool.tasks <==> t in s.pool.tasks && !Selected(scope)(t)
    requires forall i :: 0 <= i < |s.desk.requests| ==>
      q.desk.requests[i].phase ==
        if s.pool.submitted[i] in s.pool.tasks && Selected(scope)(s.pool.submitted[i]) then Dropped
        else s.desk.requests[i].phase
    ensures Linked(q)
  {
    forall k | 0 <= k < |q.pool.tasks|
      ensures q.pool.tasks[k].id < |q.desk.requests|
      ensures q.desk.requests[q.pool.tasks[k].id].phase == Queued
    {
      assert q.pool.tasks[k] in q.pool.tasks;
      KnownTask(s.pool, q.pool.tasks[k]);
    }
    forall w | 0 <= w < |s.pool.workers| && (s.pool.workers[w].Taken? || s.pool.workers[w].Running?)
      ensures var t := s.pool.workers[w].task;
        t.id < |s.desk.requests| && q.desk.requests[t.id].phase == s.desk.requests[t.id].phase
    {
      var t := s.pool.workers[w].task;
      assert s.pool.workers[w] in s.pool.workers;
      KnownTask(s.pool, t);
      if s.pool.workers[w].Taken? { HeldOnce(s.pool, w); }
    }
  }

  lemma LinkedJob(s: System, a: Action)
    requires SystemInv(s) && Possible(s, a) && (a.EmitBegin? || a.EmitFinished? || a.PostDelete?)
    ensures Linked(Perform(s, a))
    ensures DeskInv(Perform(s, a).desk)
  {
    var t := s.pool.workers[a.w].task;
    assert s.pool.workers[a.w] in s.pool.workers;
    KnownTask(s.pool, t);
    var r := s.desk.requests[t.id];
    var (q, evs) := JobAction(r, a);
    assert DeskInv(Perform(s, a).desk) by {
      JobKeepsConsistent(r, Project(s.desk.queue, t.id), a);
      PostKeepsDesk(s.desk, t.id, q, evs);
    }
    LinkedPhase(s, Perform(s, a), t.id);
  }

  lemma LinkedPhase(s: System, q: System, i: nat)
    requires Linked(s) && i < |s.desk.requests| && Running(s.pool.submitted[i]) in s.pool.workers
    requires s.desk.requests[i].phase == Invoked || s.desk.requests[i].phase == Began
    requires q.pool == s.pool && |q.desk.requests| == |s.desk.requests|
    requires forall j :: 0 <= j < |s.desk.requests| && j != i ==> q.desk.requests[j] == s.desk.requests[j]
    requires q.desk.requests[i].phase == Began || q.desk.requests[i].phase == Released
    ensures Linked(q)
  {
  }

  lemma SamePhases(s: System, q: System)
    requires Linked(s) && q.pool == s.pool && |q.desk.requests| == |s.desk.requests|
    requires forall i :: 0 <= i < |s.desk.requests| ==> q.desk.requests[i].phase == s.desk.requests[i].phase
    ensures Linked(q)
  {
  }

  lemma LinkedDeliver(s: System)
    requires SystemInv(s) && Possible(s, Deliver)
    ensures Linked(Perform(s, Deliver))
    ensures DeskInv(Perform(s, Deliver).desk)
  {
    DeliverKeepsDesk(s.desk);
    SamePhases(s, Perform(s, Deliver));
  }

  lemma LinkedTimer(s: System, i: nat)
    requires SystemInv(s) && Possible(s, TimerFires(i))
    ensures Linked(Perform(s, TimerFires(i)))
    ensures DeskInv(Perform(s, TimerFires(i)).desk)
  {
    var r := s.desk.requests[i];
    var evs := Project(s.desk.queue, i);
    ExpireKeepsConsistent(r, evs);
    assert evs + [] == evs;
    PostKeepsDesk(s.desk, i, Expire(r), []);
    SamePhases(s, Perform(s, TimerFires(i)));
  }

  /** Every action of every thread keeps the invariant of pool, jobs and event queue. */
  lemma ActionKeepsInv(s: System, a: Action)
    requires SystemInv(s) && Possible(s, a)
    ensures SystemInv(Perform(s, a))
  {
    match a
    case InPool(step) =>
      StepKeepsInv(s.pool, step);
      match step {
        case Submit(owner, wake) => LinkedSubmit(s, owner, wake); SubmitKeepsDesk(s.desk);
        case Acquire(w) => LinkedAcquire(s, w);
        case Begin(w) => LinkedBegin(s, w);
        case End(w) => LinkedEnd(s, w);
        case Spurious(w) => LinkedSpurious(s, w);
        case Clear(scope) => LinkedClear(s, scope);
      }
    case Deliver => LinkedDeliver(s);
    case TimerFires(i) => LinkedTimer(s, i);
    case _ => LinkedJob(s, a);
  }

  lemma {:induction false} RunKeepsSystemInv(s: System, run: seq<Action>)
    requires SystemInv(s) && PossibleRun(s, run)
    ensures SystemInv(RunAll(s, run))
    decreases |run|
  {
    if run != [] {
      ActionKeepsInv(s, run[0]);
      RunKeepsSystemInv(Perform(s, run[0]), run[1..]);
    }
  }

  // ------------------------------------------------------------------- guarantees

  ghost predicate Drained(s: System) {
    && s.pool.tasks == [] && s.desk.queue == []
    && forall w :: 0 <= w < |s.pool.workers| ==> s.pool.workers[w].Claiming? || s.pool.workers[w].Asleep?
  }

  /**
   In every interleaving: a cancelled request is never answered; a timeout is answered
   once and then nothing else is; otherwise the answers are the job's results in order.
   */
  lemma AnswersNeverMix(max: nat, run: seq<Action>, i: nat)
    requires PossibleRun(Boot(max), run) && i < |RunAll(Boot(max), run).desk.requests|
    ensures var r := RunAll(Boot(max), run).desk.requests[i];
      && (r.phase == Dropped ==> r.replies == [])
      && (if r.isTimeout then !r.connected && r.replies == [FromTimer]
          else |r.replies| <= |r.finishes| && r.replies == Answers(r.finishes[..|r.replies|]))
      && (|r.finishes| <= 1 ==> |r.replies| <= 1)
  {
    RunKeepsSystemInv(Boot(max), run);
    var d := RunAll(Boot(max), run).desk;
    AnswersOf(d.requests[i], Project(d.queue, i));
  }

  lemma AnswersOf(r: Request, evs: seq<Event>)
    requires Consistent(r, evs)
    ensures r.phase == Dropped ==> r.replies == []
    ensures if r.isTimeout then !r.connected && r.replies == [FromTimer]
            else |r.replies| <= |r.finishes| && r.replies == Answers(r.finishes[..|r.replies|])
    ensures |r.finishes| <= 1 ==> |r.replies| <= 1
  {
    assert r.finishes[..|r.finishes|] == r.finishes;
  }

  /**
   Once pool and event queue have drained, every request was either cancelled and not
   answered, or ran to its end and got exactly one answer, precisely when it timed out
   or its job finished exactly once.
   */
  lemma EveryRequestAnswered(max: nat, run: seq<Action>, i: nat)
    requires PossibleRun(Boot(max), run) && Drained(RunAll(Boot(max), run))
    requires i < |RunAll(Boot(max), run).desk.requests|
    ensures var r := RunAll(Boot(max), run).desk.requests[i];
      && (r.phase == Dropped || r.phase == Released)
      && (r.phase == Dropped ==> r.replies == [])
      && (r.phase == Released ==>
            && r.replies == (if r.isTimeout then [FromTimer] else Answers(r.finishes))
            && (|r.replies| == 1 <==> r.isTimeout || |r.finishes| == 1))
  {
    RunKeepsSystemInv(Boot(max), run);
    DrainedIsSettled(RunAll(Boot(max), run), i);
  }

  lemma DrainedIsSettled(s: System, i: nat)
    requires SystemInv(s) && Drained(s) && i < |s.desk.requests|
    ensures var r := s.desk.requests[i];
      (r.phase == Dropped && r.replies == []) || (r.phase == Released && Settled(r))
  {
    assert Project(s.desk.queue, i) == [];
    assert Consistent(s.desk.requests[i], []);
    var t := s.pool.submitted[i];
    assert Taken(t) !in s.pool.workers && Running(t) !in s.pool.workers;
  }

  ghost predicate Gets(s: System, run: seq<Action>, q: System) {
    PossibleRun(s, run) && RunAll(s, run) == q
  }

  lemma {:induction false} GetsThen(s: System, run: seq<Action>, q: System, a: Action)
    requires Gets(s, run, q) && Possible(q, a)
    ensures Gets(s, run + [a], Perform(q, a))
    decreases |run|
  {
    if run == [] {
      assert run + [a] == [a] && [a][1..] == [];
    } else {
      GetsThen(Perform(s, run[0]), run[1..], q, a);
      assert (run + [a])[0] == run[0] && (run + [a])[1..] == run[1..] + [a];
    }
  }

  /** The only request is in `phase`, has reported `codes` and did not time out. */
  ghost predicate Alone(s: System, phase: Phase, codes: seq<int>) {
    && s.pool.tasks == [] && |s.desk.requests| == 1
    && s.desk.requests[0].phase == phase && s.desk.requests[0].finishes == codes
    && s.desk.requests[0].connected && !s.desk.requests[0].isTimeout
    && s.pool.workers == [if phase == Released then Claiming else Running(Task(0, 0))]
  }

  /** Its worker is inside the callback, nothing reported yet. */
  lemma BeganAlone() returns (run: seq<Action>, s: System)
    ensures Gets(Boot(1), run, s) && Alone(s, Began, [])
  {
    var submit, acquire, begin := InPool(Submit(0, 1)), InPool(Acquire(0)), InPool(Begin(0));
    GetsThen(Boot(1), [], Boot(1), submit);
    var a := Perform(Boot(1), submit);
    assert a.pool.tasks == [Task(0, 0)] && a.pool.workers == [Claiming];
    GetsThen(Boot(1), [] + [submit], a, acquire);
    var b := Perform(a, acquire);
    assert b.pool.workers == [Taken(Task(0, 0))];
    GetsThen(Boot(1), [] + [submit] + [acquire], b, begin);
    var c := Perform(b, begin);
    assert c.pool.workers == [Running(Task(0, 0))] && c.desk.requests == [FRESH.(phase := Invoked)];
    GetsThen(Boot(1), [] + [submit] + [acquire] + [begin], c, EmitBegin(0));
    run, s := [] + [submit] + [acquire] + [begin] + [EmitBegin(0)], Perform(c, EmitBegin(0));
  }

  lemma {:induction false} Reports(run: seq<Action>, s: System, codes: seq<int>) returns (more: seq<Action>, q: System)
    requires Gets(Boot(1), run, s) && Alone(s, Began, [])
    ensures Gets(Boot(1), more, q) && Alone(q, Began, codes)
    decreases |codes|
  {
    if codes == [] {
      more, q := run, s;
    } else {
      var n := |codes| - 1;
      more, q := Reports(run, s, codes[..n]);
      GetsThen(Boot(1), more, q, EmitFinished(0, codes[n]));
      more, q := more + [EmitFinished(0, codes[n])], Perform(q, EmitFinished(0, codes[n]));
      assert codes[..n] + [codes[n]] == codes;
    }
  }

  lemma AloneDelivers(run: seq<Action>, s: System, codes: seq<int>)
    requires Gets(Boot(1), run, s) && Alone(s, Released, codes) && s.desk.queue != []
    ensures Possible(s, Deliver) && Alone(Perform(s, Deliver), Released, codes)
    ensures |Perform(s, Deliver).desk.queue| < |s.desk.queue|
  {
    assert SystemInv(s) by {
      RunKeepsSystemInv(Boot(1), run);
    }
    assert s.desk.queue[0].0 == 0;
  }

  lemma {:induction false} Handled(run: seq<Action>, s: System, codes: seq<int>) returns (more: seq<Action>, q: System)
    requires Gets(Boot(1), run, s) && Alone(s, Released, codes)
    ensures Gets(Boot(1), more, q) && Alone(q, Released, codes) && q.desk.queue == []
    decreases |s.desk.queue|
  {
    if s.desk.queue == [] {
      more, q := run, s;
    } else {
      AloneDelivers(run, s, codes);
      GetsThen(Boot(1), run, s, Deliver);
      more, q := Handled(run + [Deliver], Perform(s, Deliver), codes);
    }
  }

  /** A job may report as often as it likes, and each report is an answer: two, or none, are reached. */
  lemma AnswersReached(codes: seq<int>)
    ensures exists run, s :: Gets(Boot(1), run, s) && Drained(s) && |s.desk.requests| == 1
                             && s.desk.requests[0].phase == Released && s.desk.requests[0].replies == Answers(codes)
  {
    var run, s := BeganAlone();
    run, s := Reports(run, s, codes);
    run, s := Returns(run, s, codes);
    run, s := Handled(run, s, codes);
    RunKeepsSystemInv(Boot(1), run);
    DrainedIsSettled(s, 0);
  }

  lemma Returns(run: seq<Action>, s: System, codes: seq<int>) returns (more: seq<Action>, q: System)
    requires Gets(Boot(1), run, s) && Alone(s, Began, codes)
    ensures Gets(Boot(1), more, q) && Alone(q, Released, codes)
  {
    GetsThen(Boot(1), run, s, PostDelete(0));
    var a := Perform(s, PostDelete(0));
    GetsThen(Boot(1), run + [PostDelete(0)], a, InPool(End(0)));
    more, q := run + [PostDelete(0)] + [InPool(End(0))], Perform(a, InPool(End(0)));
  }

  /** Neither a queued event nor a running timer touches a job object whose deletion was handled. */
  lemma NoHandlerAfterDelete(max: nat, run: seq<Action>)
    requires PossibleRun(Boot(max), run)
    ensures var d := RunAll(Boot(max), run).desk;
      && (d.queue != [] ==> d.queue[0].0 < |d.requests| && d.requests[d.queue[0].0].alive)
      && forall i :: 0 <= i < |d.requests| && d.requests[i].timerOn ==> d.requests[i].alive
  {
    RunKeepsSystemInv(Boot(max), run);
    var d := RunAll(Boot(max), run).desk;
    if d.queue != [] {
      DeliverKeepsDesk(d);
    }
    forall i | 0 <= i < |d.requests| && d.requests[i].timerOn
      ensures d.requests[i].alive
    {
      TimerOnlyWhileWaiting(d.requests[i], Project(d.queue, i));
    }
  }

  /** A timer runs only for a job that began and was neither answered nor timed out. */
  lemma TimerOnlyWhileWaiting(r: Request, evs: seq<Event>)
    requires Consistent(r, evs) && r.timerOn
    ensures r.alive && r.replies == [] && !r.isTimeout && (r.phase == Began || r.phase == Released)
  {
  }

  // ------------------------------------------------------------ the object itself

  /** The main thread handling everything that is queued. */
  function DeliverAll(d: Desk): Desk
    requires forall k :: 0 <= k < |d.queue| ==> d.queue[k].0 < |d.requests|
    decreases |d.queue|
  {
    if d.queue == [] then d else DeliverAll(DeliverHead(d))
  }

  lemma {:induction false} DeliverAllDrains(d: Desk)
    requires DeskInv(d)
    ensures DeskInv(DeliverAll(d)) && DeliverAll(d).queue == []
    ensures |DeliverAll(d).requests| == |d.requests|
    ensures forall i :: 0 <= i < |d.requests| && d.requests[i].phase == Released ==>
      Settled(DeliverAll(d).requests[i])
    decreases |d.queue|
  {
    if d.queue != [] {
      DeliverKeepsDesk(d);
      DeliverAllDrains(DeliverHead(d));
    } else {
      forall i | 0 <= i < |d.requests| && d.requests[i].phase == Released
        ensures Settled(d.requests[i])
      {
        assert Consistent(d.requests[i], Project(d.queue, i));
      }
    }
  }

  /** The owner of the job objects, with the slots that `closureHandler` connects. */
  class FileControl {
    var requests: seq<Request>
    var queue: seq<(nat, Event)>

    ghost function View(): Desk
      reads this
    {
      Desk(requests, queue)
    }

    constructor ()
      ensures View() == Desk([], [])
    {
      requests, queue := [], [];
    }

    /** Creates the job and its stopped timer, connected; the caller submits it to the pool. */
    method ClosureHandler() returns (id: nat)
      modifies this`requests
      ensures id == |old(requests)| && requests == old(requests) + [FRESH]
    {
      id := |requests|;
      requests := requests + [FRESH];
    }

    method OnBegin(id: nat)
      requires id < |requests|
      modifies this`requests
      ensures requests == old(requests)[id := Handle(old(requests)[id], BeginEvent)]
    {
      requests := requests[id := requests[id].(timerOn := true)];
    }

    method OnFinished(id: nat, code: int)
      requires id < |requests|
      modifies this`requests
      ensures requests == old(requests)[id := Handle(old(requests)[id], FinishedEvent(code))]
    {
      var thread := requests[id];
      if !thread.isTimeout {
        thread := thread.(replies := thread.replies + [FromJob(code)]);
      }
      thread := thread.(timerOn := false);
      requests := requests[id := thread];
    }

    method OnTimeout(id: nat)
      requires id < |requests| && requests[id].timerOn
      modifies this`requests
      ensures requests == old(requests)[id := Expire(old(requests)[id])]
    {
      var thread := requests[id];
      thread := thread.(timerOn := false, isTimeout := true);
      thread := thread.(connected := false);
      thread := thread.(replies := thread.replies + [FromTimer]);
      requests := requests[id := thread];
    }

    /** The event loop, run until nothing is queued: every job that returned is answered. */
    method ProcessEvents()
      requires DeskInv(View())
      modifies this
      ensures View() == DeliverAll(old(View()))
      ensures DeskInv(View()) && queue == []
      ensures |requests| == |old(requests)|
      ensures forall i :: 0 <= i < |requests| && old(requests)[i].phase == Released ==> Settled(requests[i])
    {
      DeliverAllDrains(View());
      while queue != []
        invariant DeskInv(View())
        invariant DeliverAll(View()) == DeliverAll(old(View()))
        decreases |queue|
      {
        DeliverKeepsDesk(View());
        ghost var next := DeliverHead(View());
        var (id, event) := queue[0];
        queue := queue[1..];
        match event {
          case BeginEvent => OnBegin(id);
          case FinishedEvent(code) => OnFinished(id, code);
          case DeleteEvent =>
            requests := requests[id := requests[id].(alive := false, timerOn := false)];
        }
        assert View() == next;
      }
    }
  }
}
