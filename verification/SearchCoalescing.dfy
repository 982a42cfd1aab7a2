/**
 Device search in the industrial robot plugin: while one search is running, further
 search requests only wait, and its outcome is handed to all of them.
 */
module SearchCoalescing {
  import opened Seqs

  /** A search, a connection, a command to the common device, or one to a device named by its port. */
  datatype Api = SearchDobot | ConnectDobot | Common(name: string) | ToDevice(name: string)

  /** Whom a packet names: nobody, a device that is not registered for the client, or one that is. */
  datatype Addressee = Nobody | Unknown | Registered

  datatype Packet = Packet(id: nat, wsPort: nat, api: Api)

  const INVALID_PORTNAME := -32603
  const INVALID_DEVICE := -32605

  datatype Outcome = Value(v: int) | Error(code: int)

  datatype Reply = Reply(packet: Packet, outcome: Outcome)

  /**
   `requests` is the map of every packet received, `waiting` the map of search packets not
   yet answered. History: ids sent to a device and not answered by it, the searches in
   order of arrival, the replies in order.
   */
  datatype Plugin = Plugin(requests: map<nat, Packet>, waiting: map<nat, Packet>,
                           outstanding: set<nat>, lastId: nat, asked: seq<Packet>, replies: seq<Reply>)

  // a device answers under an id it was sent, or under one already answered or never given; it knows its client's port
  datatype Step = Command(packet: Packet, to: Addressee) | Answer(id: nat, port: nat, outcome: Outcome)

  const INIT := Plugin(map[], map[], {}, 0, [], [])

  // -------------------------------------------------------------------- behaviour

  predicate IsFirst(m: map<nat, Packet>, k: nat) {
    k in m && forall j :: j in m ==> k <= j
  }

  lemma {:induction false} FirstExists(m: map<nat, Packet>)
    requires m != map[]
    ensures exists k :: IsFirst(m, k)
    decreases |m|
  {
    var k :| k in m;
    var rest := m - {k};
    if rest == map[] {
      assert forall j :: j in m ==> j == k || j in rest;
      assert IsFirst(m, k);
    } else {
      FirstExists(rest);
      var j :| IsFirst(rest, j);
      assert forall i :: i in m ==> i == k || i in rest;
      assert IsFirst(m, if k < j then k else j);
    }
  }

  /** The packets of a map in the order it is iterated: by increasing id. */
  ghost function Ordered(m: map<nat, Packet>): (s: seq<Packet>)
    decreases |m|
  {
    if m == map[] then [] else [m[FirstKey(m)]] + Ordered(m - {FirstKey(m)})
  }

  ghost function FirstKey(m: map<nat, Packet>): (k: nat)
    requires m != map[]
    ensures IsFirst(m, k)
  {
    FirstExists(m);
    var k :| IsFirst(m, k);
    k
  }

  function RepliesTo(packets: seq<Packet>, outcome: Outcome): seq<Reply> {
    seq(|packets|, i requires 0 <= i < |packets| => Reply(packets[i], outcome))
  }

  /** The packet an answer belongs to; a missing id or port is completed from the device. */
  function Requester(requests: map<nat, Packet>, id: nat, port: nat): Packet {
    var packet := if id in requests then requests[id] else Packet(0, 0, ToDevice(""));
    if packet.id == 0 || packet.wsPort == 0 then packet.(wsPort := port) else packet
  }

  /** Why a command never gets to a device; 0 if it does. */
  function Refusal(api: Api, to: Addressee): int {
    if (api.ConnectDobot? || api.ToDevice?) && to.Nobody? then INVALID_PORTNAME
    else if api.ToDevice? && to.Unknown? then INVALID_DEVICE
    else 0
  }

  /**
   Requests carry fresh, increasing ids; a device answers what it was sent, and may answer
   again what is no longer known, as a connection is.
   */
  ghost predicate Enabled(p: Plugin, s: Step) {
    match s
    case Command(packet, to) => packet.id > p.lastId
    case Answer(id, _, _) => id in p.outstanding || id !in p.requests
  }

  ghost function Apply(p: Plugin, s: Step): Plugin
    requires Enabled(p, s)
  {
    match s
    case Command(packet, to) =>
      var q := p.(requests := p.requests[packet.id := packet], lastId := packet.id);
      if packet.api.SearchDobot? then
        q.(waiting := p.waiting[packet.id := packet], asked := p.asked + [packet],
           outstanding := if p.waiting == map[] then p.outstanding + {packet.id} else p.outstanding)
      else if Refusal(packet.api, to) != 0 then
        p.(requests := p.requests - {packet.id}, lastId := packet.id,
           replies := p.replies + [Reply(packet, Error(Refusal(packet.api, to)))])
      else q.(outstanding := p.outstanding + {packet.id})
    case Answer(id, port, outcome) =>
      var q := p.(requests := p.requests - {id}, outstanding := p.outstanding - {id});
      var packet := Requester(p.requests, id, port);
      if packet.api.SearchDobot? then
        q.(waiting := map[], replies := p.replies + RepliesTo(Ordered(p.waiting), outcome))
      else q.(replies := p.replies + [Reply(packet, outcome)])
  }

  ghost predicate Legal(p: Plugin, steps: seq<Step>)
    decreases |steps|
  {
    steps == [] || (Enabled(p, steps[0]) && Legal(Apply(p, steps[0]), steps[1..]))
  }

  ghost function Exec(p: Plugin, steps: seq<Step>): Plugin
    requires Legal(p, steps)
    decreases |steps|
  {
    if steps == [] then p else Exec(Apply(p, steps[0]), steps[1..])
  }

  // -------------------------------------------------------------------- invariant

  /** The searches among the replies, in the order they were answered. */
  function SearchesAnswered(replies: seq<Reply>): seq<Packet> {
    if replies == [] then []
    else if replies[0].packet.api.SearchDobot? then [replies[0].packet] + SearchesAnswered(replies[1..])
    else SearchesAnswered(replies[1..])
  }

  ghost predicate Increasing(s: seq<Packet>) {
    forall i, j :: 0 <= i < j < |s| ==> s[i].id < s[j].id
  }

  /** `m` holds exactly the packets of `s`, under their ids. */
  ghost predicate Holds(m: map<nat, Packet>, s: seq<Packet>) {
    && (forall i :: 0 <= i < |s| ==> s[i].id in m && m[s[i].id] == s[i])
    && (forall k :: k in m ==> exists i :: 0 <= i < |s| && s[i].id == k)
  }

  /** The searches not answered yet: those asked after the last one answered. */
  ghost function Unanswered(p: Plugin): seq<Packet>
    requires |SearchesAnswered(p.replies)| <= |p.asked|
  {
    p.asked[|SearchesAnswered(p.replies)|..]
  }

  /** Command `k` is a search the device has not answered. */
  ghost predicate SearchAtDevice(p: Plugin, k: nat) {
    k in p.outstanding && k in p.requests && p.requests[k].api.SearchDobot?
  }

  ghost predicate AskedInOrder(p: Plugin) {
    && SearchesAnswered(p.replies) <= p.asked
    && Increasing(p.asked)
    && forall i :: 0 <= i < |p.asked| ==> p.asked[i].id <= p.lastId && p.asked[i].api.SearchDobot?
  }

  ghost predicate KnownIds(p: Plugin) {
    && (forall k :: k in p.requests ==> 0 < k <= p.lastId)
    && (forall k :: k in p.outstanding ==> k in p.requests)
  }

  /** The search at the device is the first one not answered. */
  ghost predicate FirstIsAtDevice(p: Plugin)
    requires |SearchesAnswered(p.replies)| <= |p.asked|
  {
    var u := Unanswered(p);
    && (u != [] ==> SearchAtDevice(p, u[0].id))
    && forall k :: SearchAtDevice(p, k) ==> u != [] && k == u[0].id
  }

  ghost predicate Inv(p: Plugin) {
    AskedInOrder(p) && KnownIds(p) && Holds(p.waiting, Unanswered(p)) && FirstIsAtDevice(p)
  }

  lemma {:induction false} AnsweredConcat(a: seq<Reply>, b: seq<Reply>)
    ensures SearchesAnswered(a + b) == SearchesAnswered(a) + SearchesAnswered(b)
  {
    if a == [] {
      assert a + b == b;
    } else {
      AnsweredConcat(a[1..], b);
      assert (a + b)[0] == a[0] && (a + b)[1..] == a[1..] + b;
      Assoc([a[0].packet], SearchesAnswered(a[1..]), SearchesAnswered(b));
    }
  }

  lemma {:induction false} AnsweredAll(packets: seq<Packet>, outcome: Outcome)
    requires forall i :: 0 <= i < |packets| ==> packets[i].api.SearchDobot?
    ensures SearchesAnswered(RepliesTo(packets, outcome)) == packets
  {
    if packets != [] {
      AnsweredAll(packets[1..], outcome);
      assert RepliesTo(packets, outcome)[1..] == RepliesTo(packets[1..], outcome);
    }
  }

  lemma HoldsTail(m: map<nat, Packet>, s: seq<Packet>)
    requires Holds(m, s) && Increasing(s) && s != []
    ensures IsFirst(m, s[0].id) && Holds(m - {s[0].id}, s[1..]) && Increasing(s[1..])
  {
    var rest := m - {s[0].id};
    forall i | 0 <= i < |s| - 1
      ensures s[1..][i].id in rest && rest[s[1..][i].id] == s[1..][i]
    {
      assert s[1..][i] == s[i + 1];
    }
    forall j | j in rest
      ensures exists i :: 0 <= i < |s[1..]| && s[1..][i].id == j
    {
      var i :| 0 <= i < |s| && s[i].id == j;
      assert s[1..][i - 1].id == j;
    }
  }

  /** Iterating by id gives the order of arrival when ids increase. */
  lemma {:induction false} OrderedIsArrival(m: map<nat, Packet>, s: seq<Packet>)
    requires Holds(m, s) && Increasing(s)
    ensures Ordered(m) == s
    decreases |s|
  {
    if s == [] {
      assert m == map[];
    } else {
      HoldsTail(m, s);
      var k := s[0].id;
      assert m != map[] && FirstKey(m) == k;
      OrderedIsArrival(m - {k}, s[1..]);
      assert Ordered(m) == [m[k]] + Ordered(m - {k});
      assert s == [s[0]] + s[1..];
    }
  }

  lemma HoldsAppend(m: map<nat, Packet>, s: seq<Packet>, packet: Packet)
    requires Holds(m, s) && packet.id !in m
    ensures Holds(m[packet.id := packet], s + [packet])
  {
    var t := s + [packet];
    var n := m[packet.id := packet];
    forall k | k in n
      ensures exists i :: 0 <= i < |t| && t[i].id == k
    {
      if k == packet.id {
        assert t[|s|].id == k;
      } else {
        var i :| 0 <= i < |s| && s[i].id == k;
        assert t[i].id == k;
      }
    }
  }

  lemma CommandKeepsInv(p: Plugin, packet: Packet, to: Addressee)
    requires Inv(p) && Enabled(p, Command(packet, to))
    ensures Inv(Apply(p, Command(packet, to)))
  {
    if packet.api.SearchDobot? {
      SearchKeepsInv(p, packet, to);
    } else if Refusal(packet.api, to) != 0 {
      var q := Apply(p, Command(packet, to));
      var reply := Reply(packet, Error(Refusal(packet.api, to)));
      assert SearchesAnswered(q.replies) == SearchesAnswered(p.replies) by {
        AnsweredConcat(p.replies, [reply]);
        assert SearchesAnswered([reply]) == [];
      }
      assert Unanswered(q) == Unanswered(p);
      assert forall k :: SearchAtDevice(q, k) <==> SearchAtDevice(p, k);
    } else {
      var q := Apply(p, Command(packet, to));
      assert packet.id !in p.requests && packet.id !in p.outstanding;
      assert q.asked == p.asked && q.replies == p.replies && q.waiting == p.waiting;
      assert forall k :: SearchAtDevice(q, k) <==> SearchAtDevice(p, k);
      assert FirstIsAtDevice(q);
    }
  }

  lemma SearchKeepsInv(p: Plugin, packet: Packet, to: Addressee)
    requires Inv(p) && Enabled(p, Command(packet, to)) && packet.api.SearchDobot?
    ensures Inv(Apply(p, Command(packet, to)))
  {
    SearchIsAsked(p, packet, to);
    SearchWaits(p, packet, to);
    FirstStaysAtDevice(p, packet, to);
  }

  lemma SearchIsAsked(p: Plugin, packet: Packet, to: Addressee)
    requires AskedInOrder(p) && KnownIds(p) && Enabled(p, Command(packet, to)) && packet.api.SearchDobot?
    ensures var q := Apply(p, Command(packet, to)); AskedInOrder(q) && KnownIds(q)
    ensures Unanswered(Apply(p, Command(packet, to))) == Unanswered(p) + [packet]
  {
  }

  lemma SearchWaits(p: Plugin, packet: Packet, to: Addressee)
    requires AskedInOrder(p) && Holds(p.waiting, Unanswered(p))
    requires Enabled(p, Command(packet, to)) && packet.api.SearchDobot?
    requires Unanswered(Apply(p, Command(packet, to))) == Unanswered(p) + [packet]
    ensures var q := Apply(p, Command(packet, to)); Holds(q.waiting, Unanswered(q))
  {
    assert packet.id !in p.waiting;
    HoldsAppend(p.waiting, Unanswered(p), packet);
  }

  lemma FirstStaysAtDevice(p: Plugin, packet: Packet, to: Addressee)
    requires Inv(p) && Enabled(p, Command(packet, to)) && packet.api.SearchDobot?
    requires Unanswered(Apply(p, Command(packet, to))) == Unanswered(p) + [packet]
    ensures FirstIsAtDevice(Apply(p, Command(packet, to)))
  {
    var q := Apply(p, Command(packet, to));
    if p.waiting == map[] {
      assert Unanswered(p) == [];
      assert forall k :: SearchAtDevice(q, k) && k != packet.id ==> SearchAtDevice(p, k);
    } else {
      var k :| k in p.waiting;
      assert Unanswered(p) != [];
      assert forall j :: SearchAtDevice(q, j) <==> SearchAtDevice(p, j);
    }
  }

  lemma AnswerKeepsInv(p: Plugin, id: nat, port: nat, outcome: Outcome)
    requires Inv(p) && Enabled(p, Answer(id, port, outcome))
    ensures Inv(Apply(p, Answer(id, port, outcome)))
  {
    if Requester(p.requests, id, port).api.SearchDobot? {
      SearchAnswered(p, id, port, outcome);
    } else {
      OtherAnswered(p, id, port, outcome);
    }
  }

  /** Handing an outcome to all that wait answers them in order of arrival. */
  lemma FlushAnswers(replies: seq<Reply>, waiting: map<nat, Packet>, u: seq<Packet>, outcome: Outcome)
    requires Holds(waiting, u) && Increasing(u)
    requires forall i :: 0 <= i < |u| ==> u[i].api.SearchDobot?
    ensures SearchesAnswered(replies + RepliesTo(Ordered(waiting), outcome)) == SearchesAnswered(replies) + u
  {
    OrderedIsArrival(waiting, u);
    var flushed := RepliesTo(u, outcome);
    assert SearchesAnswered(flushed) == u by {
      AnsweredAll(u, outcome);
    }
    AnsweredConcat(replies, flushed);
  }

  lemma FlushAnswersAll(p: Plugin, outcome: Outcome)
    requires AskedInOrder(p) && Holds(p.waiting, Unanswered(p))
    ensures SearchesAnswered(p.replies + RepliesTo(Ordered(p.waiting), outcome)) == p.asked
  {
    UnansweredInOrder(p);
    FlushAnswers(p.replies, p.waiting, Unanswered(p), outcome);
  }

  lemma UnansweredInOrder(p: Plugin)
    requires AskedInOrder(p)
    ensures var u := Unanswered(p);
      && SearchesAnswered(p.replies) + u == p.asked && Increasing(u)
      && forall i :: 0 <= i < |u| ==> u[i].api.SearchDobot?
  {
    var n, u := |SearchesAnswered(p.replies)|, Unanswered(p);
    assert forall i :: 0 <= i < |u| ==> u[i] == p.asked[n + i];
  }

  lemma SearchAnswered(p: Plugin, id: nat, port: nat, outcome: Outcome)
    requires Inv(p) && Enabled(p, Answer(id, port, outcome))
    requires Requester(p.requests, id, port).api.SearchDobot?
    ensures Inv(Apply(p, Answer(id, port, outcome)))
  {
    var q := Apply(p, Answer(id, port, outcome));
    FlushAnswersAll(p, outcome);
    assert q.replies == p.replies + RepliesTo(Ordered(p.waiting), outcome);
    assert Unanswered(q) == [];
    assert id in p.requests && SearchAtDevice(p, id);
    assert forall k :: SearchAtDevice(q, k) ==> SearchAtDevice(p, k) && k != id;
  }

  lemma OtherAnswered(p: Plugin, id: nat, port: nat, outcome: Outcome)
    requires Inv(p) && Enabled(p, Answer(id, port, outcome))
    requires !Requester(p.requests, id, port).api.SearchDobot?
    ensures Inv(Apply(p, Answer(id, port, outcome)))
  {
    var q := Apply(p, Answer(id, port, outcome));
    var reply := Reply(Requester(p.requests, id, port), outcome);
    assert SearchesAnswered(q.replies) == SearchesAnswered(p.replies) by {
      AnsweredConcat(p.replies, [reply]);
      assert SearchesAnswered([reply]) == [];
    }
    assert Unanswered(q) == Unanswered(p);
    assert forall k :: SearchAtDevice(q, k) <==> SearchAtDevice(p, k);
  }

  lemma {:induction false} RunKeepsInv(p: Plugin, steps: seq<Step>)
    requires Inv(p) && Legal(p, steps)
    ensures Inv(Exec(p, steps))
    decreases |steps|
  {
    if steps != [] {
      match steps[0] {
        case Command(packet, to) => CommandKeepsInv(p, packet, to);
        case Answer(id, port, outcome) => AnswerKeepsInv(p, id, port, outcome);
      }
      RunKeepsInv(Apply(p, steps[0]), steps[1..]);
    }
  }

  // ------------------------------------------------------------------- guarantees

  /** Requests wait exactly while one search, and only one, is at the device. */
  lemma OneSearchAtDevice(steps: seq<Step>)
    requires Legal(INIT, steps)
    ensures var p := Exec(INIT, steps);
      && (p.waiting != map[] <==> exists k :: SearchAtDevice(p, k))
      && (forall j, k :: SearchAtDevice(p, j) && SearchAtDevice(p, k) ==> j == k)
  {
    RunKeepsInv(INIT, steps);
    var p := Exec(INIT, steps);
    if p.waiting != map[] {
      var k :| k in p.waiting;
      assert SearchAtDevice(p, Unanswered(p)[0].id);
    }
  }

  /** Searches are answered in order of arrival, each once; all of them when none is running. */
  lemma EverySearchAnsweredOnce(steps: seq<Step>)
    requires Legal(INIT, steps)
    ensures var p := Exec(INIT, steps);
      && SearchesAnswered(p.replies) <= p.asked && Increasing(p.asked)
      && (p.waiting == map[] <==> SearchesAnswered(p.replies) == p.asked)
  {
    RunKeepsInv(INIT, steps);
    var p := Exec(INIT, steps);
    if p.waiting == map[] {
      assert Unanswered(p) == [];
    } else {
      var k :| k in p.waiting;
      assert Unanswered(p) != [];
    }
  }

  /** The answer to a search is handed, as the device gave it, to every search not answered, in order of arrival. */
  lemma SearchOutcomeHandedOn(steps: seq<Step>, id: nat, port: nat, outcome: Outcome)
    requires Legal(INIT, steps) && Enabled(Exec(INIT, steps), Answer(id, port, outcome))
    requires id in Exec(INIT, steps).requests && Exec(INIT, steps).requests[id].api == SearchDobot
    ensures var p := Exec(INIT, steps);
      var q := Apply(p, Answer(id, port, outcome));
      var done := |SearchesAnswered(p.replies)|;
      && done <= |p.asked| && |q.replies| == |p.replies| + |p.asked| - done && p.replies <= q.replies
      && (forall i :: done <= i < |p.asked| ==> q.replies[|p.replies| + i - done] == Reply(p.asked[i], outcome))
      && q.waiting == map[]
  {
    RunKeepsInv(INIT, steps);
    FlushedInOrder(Exec(INIT, steps), id, port, outcome);
  }

  lemma FlushedInOrder(p: Plugin, id: nat, port: nat, outcome: Outcome)
    requires Inv(p) && Enabled(p, Answer(id, port, outcome))
    requires id in p.requests && p.requests[id].api.SearchDobot?
    ensures var q := Apply(p, Answer(id, port, outcome));
      q.waiting == map[] && q.replies == p.replies + RepliesTo(Unanswered(p), outcome)
  {
    OrderedIsArrival(p.waiting, Unanswered(p));
  }

  /** A device's answer to an ordinary command goes to that command, as it is, and the command is done. */
  lemma OrdinaryOutcomeHandedOn(p: Plugin, id: nat, port: nat, outcome: Outcome)
    requires Enabled(p, Answer(id, port, outcome)) && id in p.requests && p.requests[id].api != SearchDobot
    requires p.requests[id].id == id > 0
    ensures var q := Apply(p, Answer(id, port, outcome));
      && |q.replies| == |p.replies| + 1 && q.replies[..|p.replies|] == p.replies
      && q.replies[|p.replies|].outcome == outcome
      && q.replies[|p.replies|].packet.id == id && q.replies[|p.replies|].packet.api == p.requests[id].api
      && q.replies[|p.replies|].packet.wsPort == (if p.requests[id].wsPort != 0 then p.requests[id].wsPort else port)
      && q.waiting == p.waiting && q.requests == p.requests - {id} && id !in q.outstanding
  {
  }

  /** What a device says of its own accord goes to the client the device belongs to. */
  lemma UnaskedOutcomeHandedOn(p: Plugin, id: nat, port: nat, outcome: Outcome)
    requires Enabled(p, Answer(id, port, outcome)) && id !in p.requests
    ensures var q := Apply(p, Answer(id, port, outcome));
      && |q.replies| == |p.replies| + 1 && q.replies[..|p.replies|] == p.replies
      && q.replies[|p.replies|].outcome == outcome && q.replies[|p.replies|].packet.wsPort == port
      && q.replies[|p.replies|].packet.id == 0 && q.waiting == p.waiting
  {
  }

  /**
   A command that names nobody, or no device the client has, is refused with the matching
   error and forgotten; any other is kept and, unless it is a search that joins one under
   way, is at a device.
   */
  lemma CommandRefusedExactlyWhen(p: Plugin, packet: Packet, to: Addressee)
    requires Enabled(p, Command(packet, to))
    ensures var q := Apply(p, Command(packet, to));
      var nobody := (packet.api.ConnectDobot? || packet.api.ToDevice?) && to.Nobody?;
      var unknown := packet.api.ToDevice? && to.Unknown?;
      && (nobody ==> q.replies == p.replies + [Reply(packet, Error(-32603))])
      && (unknown ==> q.replies == p.replies + [Reply(packet, Error(-32605))])
      && (nobody || unknown ==> packet.id !in q.requests && q.outstanding == p.outstanding && q.waiting == p.waiting)
      && (!nobody && !unknown ==>
            && q.replies == p.replies && q.requests == p.requests[packet.id := packet]
            && (packet.id in q.outstanding <==> packet.id in p.outstanding || !packet.api.SearchDobot? || p.waiting == map[])
            && q.waiting == if packet.api.SearchDobot? then p.waiting[packet.id := packet] else p.waiting)
  {
  }

  lemma RepliesToFirst(packet: Packet, rest: seq<Packet>, outcome: Outcome)
    ensures RepliesTo([packet] + rest, outcome) == [Reply(packet, outcome)] + RepliesTo(rest, outcome)
  {
  }

  // ------------------------------------------------------------ the object itself

  class RobotPlugin {
    var requests: map<nat, Packet>
    var waiting: map<nat, Packet>
    ghost var outstanding: set<nat>
    ghost var lastId: nat
    ghost var asked: seq<Packet>
    var replies: seq<Reply>

    ghost function View(): Plugin
      reads this
    {
      Plugin(requests, waiting, outstanding, lastId, asked, replies)
    }

    constructor ()
      ensures View() == INIT
    {
      requests, waiting, replies := map[], map[], [];
      outstanding, lastId, asked := {}, 0, [];
    }

    /** Returns whether the command went on to a device. */
    method HandleCommand(packet: Packet, to: Addressee) returns (toDevice: bool)
      requires Enabled(View(), Command(packet, to))
      modifies this
      ensures View() == Apply(old(View()), Command(packet, to))
      ensures toDevice <==> if packet.api.SearchDobot? then old(waiting) == map[] else Refusal(packet.api, to) == 0
    {
      requests := requests[packet.id := packet];
      lastId := packet.id;
      if packet.api.ConnectDobot? {
        if to.Nobody? {
          Refuse(packet, INVALID_PORTNAME);
          assert requests == old(requests) - {packet.id};
          return false;
        }
      } else if packet.api.SearchDobot? {
        asked := asked + [packet];
        if waiting != map[] {
          waiting := waiting[packet.id := packet];
          return false;
        }
        waiting := waiting[packet.id := packet];
      } else if packet.api.ToDevice? {
        if !to.Registered? {
          Refuse(packet, if to.Nobody? then INVALID_PORTNAME else INVALID_DEVICE);
          assert requests == old(requests) - {packet.id};
          return false;
        }
      }
      outstanding := outstanding + {packet.id};
      return true;
    }

    /** Forgets the packet and answers with an error. */
    method Refuse(packet: Packet, code: int)
      modifies this`requests, this`replies
      ensures requests == old(requests) - {packet.id}
      ensures replies == old(replies) + [Reply(packet, Error(code))]
    {
      requests := requests - {packet.id};
      replies := replies + [Reply(packet, Error(code))];
    }

    /** Takes the entry the map's iterator starts at. */
    method TakeFirst() returns (packet: Packet)
      requires waiting != map[]
      modifies this`waiting
      ensures |waiting| < |old(waiting)|
      ensures Ordered(old(waiting)) == [packet] + Ordered(waiting)
    {
      FirstExists(waiting);
      var first: nat :| IsFirst(waiting, first);
      assert first == FirstKey(waiting);
      packet := waiting[first];
      waiting := waiting - {first};
    }

    /** Hands one outcome to every waiting search, smallest id first. */
    method FlushSearches(outcome: Outcome)
      modifies this`waiting, this`replies
      ensures waiting == map[]
      ensures replies == old(replies) + RepliesTo(Ordered(old(waiting)), outcome)
    {
      while |waiting| > 0
        invariant replies + RepliesTo(Ordered(waiting), outcome)
                  == old(replies) + RepliesTo(Ordered(old(waiting)), outcome)
        decreases |waiting|
      {
        var packet := TakeFirst();
        RepliesToFirst(packet, Ordered(waiting), outcome);
        Assoc(replies, [Reply(packet, outcome)], RepliesTo(Ordered(waiting), outcome));
        replies := replies + [Reply(packet, outcome)];
      }
      assert waiting == map[];
    }

    /** The device's reply or error for a command. */
    method HandleReply(id: nat, devicePort: nat, outcome: Outcome)
      requires Enabled(View(), Answer(id, devicePort, outcome))
      modifies this
      ensures View() == Apply(old(View()), Answer(id, devicePort, outcome))
    {
      var packet := Packet(0, 0, ToDevice(""));
      if id in requests {
        packet := requests[id];
      }
      requests := requests - {id};
      outstanding := outstanding - {id};
      if packet.id == 0 || packet.wsPort == 0 {
        packet := packet.(wsPort := devicePort);
      }
      if packet.api.SearchDobot? {
        FlushSearches(outcome);
      } else {
        replies := replies + [Reply(packet, outcome)];
      }
    }
  }
}
