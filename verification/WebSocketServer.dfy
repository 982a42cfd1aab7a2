/**
 The JSON-RPC id multiplexer: each client message gets a fresh inner id before it
 goes to a plugin, the first reply with that inner id goes back to its sender with
 the sender's own id, and later replies find the client by port.
 */
module WebSocketServer {
  import opened JsonRpc
  import opened Seqs

  datatype Client = Client(socket: nat, port: Port)

  /** What is remembered about a forwarded request. */
  datatype Entry = Entry(srcId: Exact, client: Client)

  datatype Letter = Letter(client: Client, message: Message)

  datatype Server = Server(
    seqId: nat, pending: map<nat, Entry>, clients: set<Client>, clientPort: Port,
    // history: messages received (message k has inner id k), passed to plugins, sent to clients;
    // inner ids replied to, and inner ids whose sender left; ports announced as closed
    received: seq<Letter>, forwarded: seq<Letter>, sent: seq<Letter>,
    answered: set<int>, abandoned: set<int>, closed: seq<Port>)

  datatype Step =
    | Connect(c: Client)
    | Receive(c: Client, m: Message)
    // `valid`: the sockets still usable; `pick`: the match met first in hash order
    | Send(port: Port, m: Message, valid: set<Client>, pick: Client)
    | Disconnect(c: Client)
    | CloseServer

  // -------------------------------------------------------------------- behaviour

  const INIT := Server(0, map[], {}, 0, [], [], [], {}, {}, [])

  function Matches(clients: set<Client>, valid: set<Client>, port: Port): set<Client> {
    set c | c in clients && c in valid && c.port == port
  }

  /** Port 0 stands for the client that connected last. */
  function Target(s: Server, port: Port): Port {
    if port == 0 then s.clientPort else port
  }

  predicate Enabled(s: Server, step: Step) {
    match step
    case Connect(c) => c !in s.clients
    case Receive(c, _) => c in s.clients && s.seqId < EXACT_LIMIT
    case Send(port, _, valid, pick) =>
      var matches := Matches(s.clients, valid, Target(s, port));
      matches != {} ==> pick in matches
    case Disconnect(c) => c in s.clients
    case CloseServer => true
  }

  /** The inner ids given to messages of `c`. */
  function SentBy(received: seq<Letter>, c: Client): (ids: set<int>)
    ensures forall k :: k in ids <==> 1 <= k <= |received| && received[k - 1].client == c
  {
    if received == [] then {}
    else
      var n := |received|;
      SentBy(received[..n - 1], c) + if received[n - 1].client == c then {n} else {}
  }

  /** Every inner id given out so far. */
  function Given(n: nat): (ids: set<int>)
    ensures forall k :: k in ids <==> 1 <= k <= n
  {
    if n == 0 then {} else Given(n - 1) + {n}
  }

  function ForwardedForm(m: Message, inner: Exact): Message {
    WithOrigin(WithId(m, inner), IdOf(m))
  }

  function Without(pending: map<nat, Entry>, id: int): map<nat, Entry> {
    map k: nat | k in pending && k != id :: pending[k]
  }

  /** A message carrying `id` ends the wait of the request known under it. */
  function Consume(s: Server, id: int): Server {
    s.(pending := Without(s.pending, id),
       answered := if 1 <= id <= s.seqId then s.answered + {id} else s.answered)
  }

  function Deliver(s: Server, port: Port, m: Message, valid: set<Client>, pick: Client): Server {
    if Matches(s.clients, valid, Target(s, port)) != {}
    then s.(sent := s.sent + [Letter(pick, Reverted(m))])
    else s
  }

  function Apply(s: Server, step: Step): Server
    requires Enabled(s, step)
  {
    match step
    case Connect(c) => s.(clients := s.clients + {c}, clientPort := c.port)
    case Receive(c, m) =>
      var k := s.seqId + 1;
      s.(seqId := k,
         pending := if m.Json? then s.pending[k := Entry(IdOf(m), c)] else s.pending,
         received := s.received + [Letter(c, m)],
         forwarded := s.forwarded + [Letter(c, ForwardedForm(m, k))])
    case Send(port, m, valid, pick) =>
      var k := IdOf(m);
      var t := Consume(s, k);
      if k in s.pending && s.pending[k].client in valid
      then t.(sent := s.sent + [Letter(s.pending[k].client, WithId(m, s.pending[k].srcId))])
      else Deliver(t, port, m, valid, pick)
    case Disconnect(c) =>
      s.(clients := s.clients - {c},
         pending := map k: nat | k in s.pending && s.pending[k].client != c :: s.pending[k],
         abandoned := s.abandoned + SentBy(s.received, c), closed := s.closed + [c.port])
    case CloseServer =>
      s.(clients := {}, pending := map[], abandoned := s.abandoned + Given(s.seqId))
  }

  predicate Legal(s: Server, steps: seq<Step>)
    decreases |steps|
  {
    steps == [] || (Enabled(s, steps[0]) && Legal(Apply(s, steps[0]), steps[1..]))
  }

  function Exec(s: Server, steps: seq<Step>): Server
    requires Legal(s, steps)
    decreases |steps|
  {
    if steps == [] then s else Exec(Apply(s, steps[0]), steps[1..])
  }

  // ------------------------------------------------------------------- invariant

  /** Inner id `k` still waits for its first reply. */
  ghost predicate Awaiting(s: Server, k: int) {
    && 1 <= k <= s.seqId <= |s.received| && s.received[k - 1].message.Json?
    && k !in s.answered && k !in s.abandoned
  }

  /** The map holds exactly the ids awaiting a reply, each with its own sender and id. */
  ghost predicate Inv(s: Server) {
    && s.seqId == |s.received| == |s.forwarded| <= EXACT_LIMIT
    && (forall k :: k in s.pending <==> Awaiting(s, k))
    && (forall k :: k in s.pending ==>
          s.pending[k] == Entry(IdOf(s.received[k - 1].message), s.received[k - 1].client))
    && (forall k :: k in s.pending ==> s.pending[k].client in s.clients)
    && (forall k :: k in s.answered || k in s.abandoned ==> 1 <= k <= s.seqId)
    && (forall i :: 0 <= i < s.seqId ==>
          s.forwarded[i] == Letter(s.received[i].client, ForwardedForm(s.received[i].message, i + 1)))
  }

  lemma ReceiveKeepsInv(s: Server, c: Client, m: Message)
    requires Inv(s) && Enabled(s, Receive(c, m))
    ensures Inv(Apply(s, Receive(c, m)))
  {
    var t := Apply(s, Receive(c, m));
    forall k
      ensures k in t.pending <==> Awaiting(t, k)
    {
      if k != s.seqId + 1 {
        assert k in s.pending <==> Awaiting(s, k);
      }
    }
  }

  lemma DisconnectKeepsInv(s: Server, c: Client)
    requires Inv(s) && Enabled(s, Disconnect(c))
    ensures Inv(Apply(s, Disconnect(c)))
  {
    var t := Apply(s, Disconnect(c));
    forall k
      ensures k in t.pending <==> Awaiting(t, k)
    {
      assert k in s.pending <==> Awaiting(s, k);
    }
  }

  lemma SendKeepsInv(s: Server, step: Step)
    requires Inv(s) && Enabled(s, step) && step.Send?
    ensures Inv(Apply(s, step))
  {
    ConsumeKeepsInv(s, IdOf(step.m));
    var t := Consume(s, IdOf(step.m));
    var q := Apply(s, step);
    assert q == t.(sent := q.sent);
    assert forall k :: Awaiting(q, k) <==> Awaiting(t, k);
  }

  lemma ConsumeKeepsInv(s: Server, id: int)
    requires Inv(s)
    ensures Inv(Consume(s, id))
  {
    var t := Consume(s, id);
    forall k
      ensures k in t.pending <==> Awaiting(t, k)
    {
      assert k in s.pending <==> Awaiting(s, k);
    }
  }

  /** Every connect, message, reply, disconnect and shutdown keeps the invariant. */
  lemma StepKeepsInv(s: Server, step: Step)
    requires Inv(s) && Enabled(s, step)
    ensures Inv(Apply(s, step))
  {
    match step
    case Receive(c, m) => ReceiveKeepsInv(s, c, m);
    case Disconnect(c) => DisconnectKeepsInv(s, c);
    case Send(_, _, _, _) => SendKeepsInv(s, step);
    case Connect(c) =>
      assert forall k :: Awaiting(Apply(s, step), k) <==> Awaiting(s, k);
    case CloseServer =>
  }

  lemma {:induction false} RunKeepsInv(s: Server, steps: seq<Step>)
    requires Inv(s) && Legal(s, steps)
    ensures Inv(Exec(s, steps))
    decreases |steps|
  {
    if steps != [] {
      StepKeepsInv(s, steps[0]);
      RunKeepsInv(Apply(s, steps[0]), steps[1..]);
    }
  }

  lemma Reachable(steps: seq<Step>)
    requires Legal(INIT, steps)
    ensures Inv(Exec(INIT, steps))
  {
    RunKeepsInv(INIT, steps);
  }

  // ------------------------------------------------------------------- guarantees

  /** Inner ids are never reused, and every entry names a client still connected. */
  lemma PendingWellFormed(steps: seq<Step>)
    requires Legal(INIT, steps)
    ensures var s := Exec(INIT, steps);
      && (forall k :: k in s.pending ==> 1 <= k <= s.seqId && s.pending[k].client in s.clients)
      && (forall k :: k in s.pending <==> Awaiting(s, k))
  {
    Reachable(steps);
  }

  /**
   The first reply with inner id k reaches the sender of message k, carrying that
   message's id and otherwise untouched; it consumes the entry and no other.
   */
  lemma FirstReplyRouted(s: Server, k: int, port: Port, reply: Message, valid: set<Client>, pick: Client)
    requires Inv(s) && Awaiting(s, k) && IdOf(reply) == k
    requires Enabled(s, Send(port, reply, valid, pick))
    requires s.received[k - 1].client in valid
    ensures var t := Apply(s, Send(port, reply, valid, pick));
      var request := s.received[k - 1];
      && |t.sent| == |s.sent| + 1 && t.sent[..|s.sent|] == s.sent
      && t.sent[|s.sent|].client == request.client
      && t.sent[|s.sent|].message.Json?
      && IdOf(t.sent[|s.sent|].message) == IdOf(request.message)
      && SameExcept(t.sent[|s.sent|].message.obj, reply.obj, {"id"})
      && t.pending == Without(s.pending, k) && !Awaiting(t, k)
  {
    assert k in s.pending;
  }

  /** The restored id is the sender's own member exactly when that member was a number. */
  lemma OwnIdRestored(request: Members, reply: Members)
    ensures WithId(Json(reply), IdOf(Json(request))).obj["id"] == (if "id" in request then request["id"] else Number(0))
      <==> ("id" in request ==> request["id"].Number?)
  {
  }

  /** A message without an id, or with one never handed out, consumes nothing. */
  lemma UnknownIdConsumesNothing(s: Server, port: Port, m: Message, valid: set<Client>, pick: Client)
    requires Inv(s) && Enabled(s, Send(port, m, valid, pick))
    requires IdOf(m) == 0 || IdOf(m) > s.seqId || m.Garbled?
    ensures Apply(s, Send(port, m, valid, pick)).pending == s.pending
  {
    assert IdOf(m) in s.pending <==> Awaiting(s, IdOf(m));
  }

  /** Nothing in `steps` ends the wait of `k`, asked by `c`: no reply to it, no departure. */
  predicate Undisturbed(steps: seq<Step>, k: int, c: Client) {
    forall i :: 0 <= i < |steps| ==>
      match steps[i]
      case Send(_, m, _, _) => IdOf(m) != k
      case Disconnect(d) => d != c
      case CloseServer => false
      case _ => true
  }

  lemma {:induction false} StaysAwaiting(s: Server, steps: seq<Step>, k: int)
    requires Inv(s) && Awaiting(s, k) && Legal(s, steps)
    requires Undisturbed(steps, k, s.received[k - 1].client)
    ensures var t := Exec(s, steps);
      Inv(t) && Awaiting(t, k) && t.received[k - 1] == s.received[k - 1]
    decreases |steps|
  {
    if steps != [] {
      StepKeepsInv(s, steps[0]);
      var t := Apply(s, steps[0]);
      assert Awaiting(t, k) && t.received[k - 1] == s.received[k - 1];
      assert forall i :: 0 <= i < |steps| - 1 ==> steps[1..][i] == steps[i + 1];
      StaysAwaiting(t, steps[1..], k);
    }
  }

  /**
   A whole exchange: `c` sends a request, anything happens meanwhile except a reply
   to it or `c` leaving, then a plugin answers the forwarded message. The answer
   arrives at `c` under the id `c` chose.
   */
  lemma RequestGetsItsReply(before: seq<Step>, c: Client, request: Members, during: seq<Step>,
                            data: Value, valid: set<Client>, pick: Client)
    requires Legal(INIT, before)
    requires Enabled(Exec(INIT, before), Receive(c, Json(request)))
    requires var s := Apply(Exec(INIT, before), Receive(c, Json(request)));
      Legal(s, during) && Undisturbed(during, s.seqId, c) && c in valid
    requires var s := Apply(Exec(INIT, before), Receive(c, Json(request)));
      var seen := Seen(s);
      var reply := ResultReply(ParseRequest(seen), data) - {"WSport"};
      Enabled(Exec(s, during), Send(c.port, Json(reply), valid, pick))
    ensures var s := Apply(Exec(INIT, before), Receive(c, Json(request)));
      var seen := Seen(s);
      var reply := ResultReply(ParseRequest(seen), data);
      var t := Exec(s, during);
      ToPort(reply, "WSport") == c.port
      && Apply(t, Send(c.port, Json(reply - {"WSport"}), valid, pick)).sent
         == t.sent + [Letter(c, Json(map["jsonrpc" := Text("2.0"),
                                         "id" := Number(ToDouble(request, "id")),
                                         "result" := if data == Null then Flag(true) else data]))]
  {
    Reachable(before);
    var s0 := Exec(INIT, before);
    StepKeepsInv(s0, Receive(c, Json(request)));
    var s := Apply(s0, Receive(c, Json(request)));
    var k := s.seqId;
    assert k !in s0.answered && k !in s0.abandoned;
    assert Awaiting(s, k) && s.received[k - 1] == Letter(c, Json(request));
    StaysAwaiting(s, during, k);
    var t := Exec(s, during);
    assert k in t.pending && t.pending[k] == Entry(ToDouble(request, "id"), c);
    var seen := Seen(s);
    assert ParseRequest(seen) == Request(c.port, k);
    ResultReplyShape(Request(c.port, k), data, ToDouble(request, "id"));
  }

  lemma ResultReplyShape(packet: Request, data: Value, own: Exact)
    ensures var reply := ResultReply(packet, data);
      && ToPort(reply, "WSport") == packet.wsPort && IdOf(Json(reply - {"WSport"})) == packet.id
      && WithId(Json(reply - {"WSport"}), own)
         == Json(map["jsonrpc" := Text("2.0"), "id" := Number(own), "result" := Told(data)])
  {
    var reply := ResultReply(packet, data);
    assert (reply - {"WSport"})["id" := Number(own)]
      == map["jsonrpc" := Text("2.0"), "id" := Number(own), "result" := Told(data)];
  }

  /**
   Many replies to one request, each naming the inner id and the origin id: whether it
   is the first or a later one, a reply reaches the requesting client under its own id
   as long as that client is the only usable one on its port.
   */
  lemma EveryReplyReachesRequester(s: Server, k: int, outcome: string, data: Value,
                                   valid: set<Client>, pick: Client)
    requires Inv(s) && 1 <= k <= s.seqId && s.received[k - 1].message.Json?
    requires outcome == "result" || outcome == "error"
    requires var c := s.received[k - 1].client;
      c in s.clients && c in valid && c.port != 0 && Matches(s.clients, valid, c.port) == {c}
    requires var request := s.received[k - 1];
      Enabled(s, Send(request.client.port, Json(LaterReply(s, k, outcome, data)), valid, pick))
    ensures var request := s.received[k - 1];
      var t := Apply(s, Send(request.client.port, Json(LaterReply(s, k, outcome, data)), valid, pick));
      && |t.sent| == |s.sent| + 1 && t.sent[..|s.sent|] == s.sent
      && var got := t.sent[|s.sent|];
         && got.client == request.client && got.message.Json?
         && IdOf(got.message) == IdOf(request.message)
         && got.message.obj - {"id", "originRequestId"} == map["jsonrpc" := Text("2.0"), outcome := data]
         && ("originRequestId" in got.message.obj <==> Awaiting(s, k))
  {
    var request := s.received[k - 1];
    var reply := Json(LaterReply(s, k, outcome, data));
    LaterReplyShape(s, k, outcome, data);
    assert k in s.pending <==> Awaiting(s, k);
    var c := request.client;
    assert Target(s, c.port) == c.port;
    assert pick == c;
    var t := Apply(s, Send(c.port, reply, valid, pick));
    if k in s.pending {
      assert t.sent == s.sent + [Letter(c, WithId(reply, IdOf(request.message)))];
    } else {
      assert t.sent == s.sent + [Letter(c, Reverted(reply))];
    }
  }

  /** Such a reply names both ids; either way of restoring the id leaves the rest alone. */
  lemma LaterReplyShape(s: Server, k: int, outcome: string, data: Value)
    requires Inv(s) && 1 <= k <= s.seqId && s.received[k - 1].message.Json?
    requires outcome == "result" || outcome == "error"
    ensures var reply := LaterReply(s, k, outcome, data);
      var own := IdOf(s.received[k - 1].message);
      var body := map["jsonrpc" := Text("2.0"), outcome := data];
      && IdOf(Json(reply)) == k
      && reply["id" := Number(own)] - {"id", "originRequestId"} == body
      && "originRequestId" in reply
      && Reverted(Json(reply)).Json? && IdOf(Reverted(Json(reply))) == own
      && Reverted(Json(reply)).obj - {"id", "originRequestId"} == body
      && "originRequestId" !in Reverted(Json(reply)).obj
  {
    var request := s.received[k - 1];
    assert s.forwarded[k - 1] == Letter(request.client, ForwardedForm(request.message, k));
    var reply := LaterReply(s, k, outcome, data);
    var body := map["jsonrpc" := Text("2.0"), outcome := data];
    assert reply - {"id", "originRequestId"} == body;
    assert reply["id" := Number(IdOf(request.message))] - {"id", "originRequestId"} == body;
    assert Reverted(Json(reply)).obj - {"id", "originRequestId"} == body;
  }

  /** The message last forwarded, as a plugin receives it: with its client's port. */
  function Seen(s: Server): Members
    requires s.forwarded != [] && s.forwarded[|s.forwarded| - 1].message.Json?
  {
    var letter := s.forwarded[|s.forwarded| - 1];
    letter.message.obj["WSport" := Number(letter.client.port)]
  }

  /** What the Arduino plugin sends for forwarded message `k`, after the port was taken off. */
  function LaterReply(s: Server, k: int, outcome: string, data: Value): Members
    requires 1 <= k <= |s.forwarded| && s.forwarded[k - 1].message.Json? && k <= EXACT_LIMIT
  {
    var seen := s.forwarded[k - 1].message.obj;
    ArduinoReply(s.forwarded[k - 1].client.port, ToDouble(seen, "id"), ToDouble(seen, "originRequestId"),
                 outcome, data) - {"WSport"}
  }

  /** `c` does not leave during `steps`. */
  predicate Stays(steps: seq<Step>, c: Client) {
    forall i :: 0 <= i < |steps| ==> steps[i] != Disconnect(c) && steps[i] != CloseServer
  }

  lemma {:induction false} StaysConnected(s: Server, steps: seq<Step>, c: Client)
    requires Inv(s) && Legal(s, steps) && Stays(steps, c) && c in s.clients
    ensures var t := Exec(s, steps);
      Inv(t) && c in t.clients && s.received <= t.received && s.forwarded <= t.forwarded
    decreases |steps|
  {
    if steps != [] {
      StepKeepsInv(s, steps[0]);
      assert forall i :: 0 <= i < |steps| - 1 ==> steps[1..][i] == steps[i + 1];
      StaysConnected(Apply(s, steps[0]), steps[1..], c);
    }
  }

  /**
   Over a run: after `c` sent a request, as long as `c` has not left, any number of
   replies to it may have gone before and the next one still arrives under `c`'s own id.
   */
  lemma RepliesKeepArriving(before: seq<Step>, c: Client, request: Members, during: seq<Step>,
                            outcome: string, data: Value, valid: set<Client>, pick: Client)
    requires Legal(INIT, before) && Enabled(Exec(INIT, before), Receive(c, Json(request)))
    requires var s := Apply(Exec(INIT, before), Receive(c, Json(request)));
      Legal(s, during) && Stays(during, c)
    requires outcome == "result" || outcome == "error"
    requires var s := Apply(Exec(INIT, before), Receive(c, Json(request)));
      c in valid && c.port != 0 && Matches(Exec(s, during).clients, valid, c.port) == {c} && pick == c
    ensures var s := Apply(Exec(INIT, before), Receive(c, Json(request)));
      var t := Exec(s, during);
      var reply := ArduinoReply(c.port, s.seqId, ToDouble(request, "id"), outcome, data) - {"WSport"};
      && Enabled(t, Send(c.port, Json(reply), valid, pick))
      && var u := Apply(t, Send(c.port, Json(reply), valid, pick));
         && |u.sent| == |t.sent| + 1 && u.sent[..|t.sent|] == t.sent
         && u.sent[|t.sent|].client == c && u.sent[|t.sent|].message.Json?
         && IdOf(u.sent[|t.sent|].message) == ToDouble(request, "id")
         && u.sent[|t.sent|].message.obj - {"id", "originRequestId"} == map["jsonrpc" := Text("2.0"), outcome := data]
  {
    Reachable(before);
    var s0 := Exec(INIT, before);
    StepKeepsInv(s0, Receive(c, Json(request)));
    var s := Apply(s0, Receive(c, Json(request)));
    var k := s.seqId;
    StaysConnected(s, during, c);
    var t := Exec(s, during);
    assert t.received[k - 1] == s.received[k - 1] == Letter(c, Json(request));
    assert t.forwarded[k - 1] == s.forwarded[k - 1];
    assert LaterReply(t, k, outcome, data)
      == ArduinoReply(c.port, k, ToDouble(request, "id"), outcome, data) - {"WSport"};
    EveryReplyReachesRequester(t, k, outcome, data, valid, pick);
  }

  /** A message without a port goes to the client that connected last, if it is alone on its port. */
  lemma PortZeroMeansLatest(s: Server, c: Client, m: Message, valid: set<Client>, pick: Client)
    requires Inv(s) && Enabled(s, Connect(c)) && IdOf(m) !in s.pending && c in valid
    requires Matches(s.clients, valid, c.port) == {} && Enabled(Apply(s, Connect(c)), Send(0, m, valid, pick))
    ensures Apply(Apply(s, Connect(c)), Send(0, m, valid, pick)).sent == s.sent + [Letter(c, Reverted(m))]
  {
    var t := Apply(s, Connect(c));
    assert c in Matches(t.clients, valid, c.port);
    assert forall d :: d in Matches(t.clients, valid, c.port) ==> d == c || d in Matches(s.clients, valid, c.port);
    assert pick == c;
  }

  /** By port alone a reply is sure to reach `c` precisely when no other usable client shares the port. */
  lemma PortIdentifiesClient(s: Server, port: Port, m: Message, valid: set<Client>, c: Client)
    requires Inv(s) && c in s.clients && c in valid && c.port == Target(s, port) && IdOf(m) !in s.pending
    ensures (forall pick :: pick in Matches(s.clients, valid, c.port) ==>
              Apply(s, Send(port, m, valid, pick)).sent == s.sent + [Letter(c, Reverted(m))])
      <==> (forall d :: d in s.clients && d in valid && d.port == c.port ==> d == c)
  {
    var matches := Matches(s.clients, valid, c.port);
    assert c in matches;
    forall pick | pick in matches
      ensures Apply(s, Send(port, m, valid, pick)).sent == s.sent + [Letter(pick, Reverted(m))]
    {
    }
    forall pick | pick in matches && pick != c
      ensures Apply(s, Send(port, m, valid, pick)).sent != s.sent + [Letter(c, Reverted(m))]
    {
      assert (s.sent + [Letter(pick, Reverted(m))])[|s.sent|] != (s.sent + [Letter(c, Reverted(m))])[|s.sent|];
    }
    forall d | d in s.clients && d in valid && d.port == c.port
      ensures d in matches
    {
    }
  }

  /**
   A reply to a client that has left goes by port alone: it reaches somebody, never the
   client itself, exactly when another usable client has its port.
   */
  lemma ReplyAfterLeaving(s: Server, k: int, m: Message, valid: set<Client>, pick: Client)
    requires Inv(s) && k in s.abandoned && IdOf(m) == k
    requires var c := s.received[k - 1].client;
      c !in s.clients && c.port != 0 && Enabled(s, Send(c.port, m, valid, pick))
    ensures var c := s.received[k - 1].client;
      var t := Apply(s, Send(c.port, m, valid, pick));
      && (t.sent != s.sent <==> exists d :: d in s.clients && d in valid && d.port == c.port)
      && (t.sent != s.sent ==> pick != c && pick.port == c.port && t.sent == s.sent + [Letter(pick, Reverted(m))])
  {
    var c := s.received[k - 1].client;
    assert k in s.pending <==> Awaiting(s, k);
    var matches := Matches(s.clients, valid, c.port);
    if d :| d in s.clients && d in valid && d.port == c.port {
      assert d in matches;
      assert |s.sent + [Letter(pick, Reverted(m))]| != |s.sent|;
    }
    if matches != {} {
      assert pick in s.clients && pick in valid && pick.port == c.port;
    }
  }

  lemma {:induction false} ExecThen(s: Server, steps: seq<Step>, step: Step)
    requires Legal(s, steps) && Enabled(Exec(s, steps), step)
    ensures Legal(s, steps + [step]) && Exec(s, steps + [step]) == Apply(Exec(s, steps), step)
    decreases |steps|
  {
    if steps == [] {
      assert steps + [step] == [step] && [step][1..] == [];
    } else {
      ExecThen(Apply(s, steps[0]), steps[1..], step);
      assert (steps + [step])[0] == steps[0] && (steps + [step])[1..] == steps[1..] + [step];
    }
  }

  const ASKER := Client(1, 80)
  const STRANGER := Client(2, 80)

  /** A client has asked under id 7 and left. */
  lemma AskedAndLeft() returns (steps: seq<Step>, s: Server)
    ensures Legal(INIT, steps) && Exec(INIT, steps) == s
    ensures s.clients == {} && s.pending == map[] && s.seqId == 1
    ensures s.received == [Letter(ASKER, Json(map["id" := Number(7)]))]
  {
    var ask := Receive(ASKER, Json(map["id" := Number(7)]));
    ExecThen(INIT, [], Connect(ASKER));
    var a := Apply(INIT, Connect(ASKER));
    ExecThen(INIT, [] + [Connect(ASKER)], ask);
    var b := Apply(a, ask);
    ExecThen(INIT, [] + [Connect(ASKER)] + [ask], Disconnect(ASKER));
    steps, s := [] + [Connect(ASKER)] + [ask] + [Disconnect(ASKER)], Apply(b, Disconnect(ASKER));
  }

  /** That is reached: a later client on the port of one that left gets the other's answer. */
  lemma StrangerIsAnswered()
    ensures exists steps: seq<Step> ::
      Legal(INIT, steps) && Letter(STRANGER, Json(map["id" := Number(7)])) in Exec(INIT, steps).sent
      && Exec(INIT, steps).received == [Letter(ASKER, Json(map["id" := Number(7)]))]
  {
    var steps, s := AskedAndLeft();
    var reply := Json(map["id" := Number(1), "originRequestId" := Number(7)]);
    var send := Send(80, reply, {STRANGER}, STRANGER);
    ExecThen(INIT, steps, Connect(STRANGER));
    var t := Apply(s, Connect(STRANGER));
    assert STRANGER in Matches(t.clients, {STRANGER}, 80);
    assert Matches(t.clients, {STRANGER}, 80) <= t.clients == {STRANGER};
    ExecThen(INIT, steps + [Connect(STRANGER)], send);
    assert Reverted(reply).obj == map["id" := Number(7)];
    var u := Apply(t, send);
    assert u.sent[|u.sent| - 1] == Letter(STRANGER, Json(map["id" := Number(7)]));
  }

  // ------------------------------------------- what is received, forwarded and sent

  /** The messages of a run, with their senders. */
  function Messages(steps: seq<Step>): seq<Letter> {
    if steps == [] then []
    else if steps[0].Receive? then [Letter(steps[0].c, steps[0].m)] + Messages(steps[1..])
    else Messages(steps[1..])
  }

  lemma {:induction false} ReceivedInOrder(s: Server, steps: seq<Step>)
    requires Legal(s, steps)
    ensures Exec(s, steps).received == s.received + Messages(steps)
    decreases |steps|
  {
    if steps == [] {
      assert s.received + [] == s.received;
    } else {
      var t := Apply(s, steps[0]);
      ReceivedInOrder(t, steps[1..]);
      if steps[0].Receive? {
        assert t.received == s.received + [Letter(steps[0].c, steps[0].m)];
        Assoc(s.received, [Letter(steps[0].c, steps[0].m)], Messages(steps[1..]));
      }
    }
  }

  /** The number a member holds, 0 if it holds none. */
  function NumberAt(obj: Members, key: string): Exact {
    if key in obj then (match obj[key] case Number(n) => n case _ => 0) else 0
  }

  /**
   Over every run the k-th message of a client is forwarded under the number k, with the
   client's own id beside it and every other member as it was; text that is no object goes
   on unchanged.
   */
  lemma ForwardedKeepsRequest(steps: seq<Step>, k: nat)
    requires Legal(INIT, steps) && 1 <= k <= |Messages(steps)|
    ensures var forwarded := Exec(INIT, steps).forwarded;
      && |forwarded| == |Messages(steps)| && forwarded[k - 1].client == Messages(steps)[k - 1].client
      && PassedOn(forwarded[k - 1].message, Messages(steps)[k - 1].message, k)
  {
    Reachable(steps);
    ReceivedInOrder(INIT, steps);
    var s := Exec(INIT, steps);
    assert [] + Messages(steps) == Messages(steps);
    assert s.forwarded[k - 1] == Letter(s.received[k - 1].client, ForwardedForm(s.received[k - 1].message, k));
    FormPassesOn(s.received[k - 1].message, k);
  }

  /** `passed` is `asked` under the number `k`, with the id it had beside it. */
  ghost predicate PassedOn(passed: Message, asked: Message, k: int) {
    if asked.Garbled? then passed == asked
    else
      && passed.Json? && SameExcept(passed.obj, asked.obj, {"id", "originRequestId"})
      && "id" in passed.obj && passed.obj["id"].Number? && passed.obj["id"].n == k
      && "originRequestId" in passed.obj && passed.obj["originRequestId"] == Number(NumberAt(asked.obj, "id"))
  }

  lemma FormPassesOn(m: Message, k: Exact)
    ensures PassedOn(ForwardedForm(m, k), m, k)
  {
    if m.Json? {
      var keys := {"id", "originRequestId"};
      assert ForwardedForm(m, k).obj - keys == m.obj - keys;
    }
  }

  /** The ports of the clients that left during a run. */
  function PortsLeft(steps: seq<Step>): seq<Port> {
    if steps == [] then []
    else if steps[0].Disconnect? then [steps[0].c.port] + PortsLeft(steps[1..])
    else PortsLeft(steps[1..])
  }

  /** Exactly the ports of the clients that left are announced as closed, in that order. */
  lemma {:induction false} ClosedAsLeft(s: Server, steps: seq<Step>)
    requires Legal(s, steps)
    ensures Exec(s, steps).closed == s.closed + PortsLeft(steps)
    decreases |steps|
  {
    if steps == [] {
      assert s.closed + [] == s.closed;
    } else {
      ClosedAsLeft(Apply(s, steps[0]), steps[1..]);
      if steps[0].Disconnect? {
        Assoc(s.closed, [steps[0].c.port], PortsLeft(steps[1..]));
      }
    }
  }

  /** A client is connected from its connection until it leaves or the server closes; port 0 means the latest. */
  lemma ClientsFollow(s: Server, step: Step, d: Client)
    requires Enabled(s, step)
    ensures d in Apply(s, step).clients <==>
      step == Connect(d) || (d in s.clients && step != Disconnect(d) && step != CloseServer)
    ensures Apply(s, step).clientPort == if step.Connect? then step.c.port else s.clientPort
  {
  }

  /** What the client finds of a message that went by port: its own id, where the plugin gave it, and the rest. */
  ghost predicate Restored(got: Message, m: Message) {
    if m.Json? && "originRequestId" in m.obj then
      && got.Json? && "originRequestId" !in got.obj && "id" in got.obj
      && got.obj["id"] == m.obj["originRequestId"] && SameExcept(got.obj, m.obj, {"id", "originRequestId"})
    else got == m
  }

  /**
   A plugin's message goes to one usable client or to nobody: to the one that asked, if its
   request is pending and it is usable, otherwise to one that has the port.
   */
  lemma SentToOneUsable(s: Server, port: Port, m: Message, valid: set<Client>, pick: Client)
    requires Inv(s) && Enabled(s, Send(port, m, valid, pick))
    ensures var t := Apply(s, Send(port, m, valid, pick));
      var k := IdOf(m);
      var asker := k in s.pending && s.pending[k].client in valid;
      var wanted := if port == 0 then s.clientPort else port;
      && (t.sent == s.sent <==> !asker && forall d :: d in s.clients && d in valid ==> d.port != wanted)
      && (t.sent != s.sent ==>
            && |t.sent| == |s.sent| + 1 && t.sent[..|s.sent|] == s.sent
            && var got := t.sent[|s.sent|];
               && got.client in s.clients && got.client in valid
               && if asker then got.client == s.received[k - 1].client
                  else got.client.port == wanted && Restored(got.message, m))
  {
    var t := Apply(s, Send(port, m, valid, pick));
    var matches := Matches(s.clients, valid, Target(s, port));
    RestoredByPort(m);
    if IdOf(m) in s.pending && s.pending[IdOf(m)].client in valid {
      assert |t.sent| == |s.sent| + 1;
    } else if matches == {} {
      forall d | d in s.clients && d in valid
        ensures d.port != Target(s, port)
      {
        assert d !in matches;
      }
    } else {
      assert pick in matches && |t.sent| == |s.sent| + 1;
    }
  }

  lemma RestoredByPort(m: Message)
    ensures Restored(Reverted(m), m)
  {
    if m.Json? && "originRequestId" in m.obj {
      var keys := {"id", "originRequestId"};
      assert Reverted(m).obj - keys == m.obj - keys;
    }
  }

  // ------------------------------------------------------------ the object itself

  class MessageServer {
    var seqId: nat
    var pending: map<nat, Entry>
    var clients: set<Client>
    var clientPort: Port
    // what went through the sockets and to the plugins
    var received: seq<Letter>
    var forwarded: seq<Letter>
    var sent: seq<Letter>
    var closed: seq<Port>
    ghost var answered: set<int>
    ghost var abandoned: set<int>

    ghost function View(): Server
      reads this
    {
      Server(seqId, pending, clients, clientPort, received, forwarded, sent, answered, abandoned, closed)
    }

    constructor ()
      ensures View() == INIT
    {
      seqId, clientPort := 0, 0;
      pending, clients := map[], {};
      received, forwarded, sent := [], [], [];
      answered, abandoned, closed := {}, {}, [];
    }

    /** Swaps in `replaceId`; hands back the id it replaced. */
    static method ExchangeJsonrpcId(original: Message, replaceId: Exact)
      returns (ok: bool, msg: Message, srcId: Exact)
      ensures ok <==> original.Json?
      ensures msg == WithId(original, replaceId) && srcId == IdOf(original)
      ensures ok ==> IdOf(msg) == replaceId && SameExcept(msg.obj, original.obj, {"id"})
    {
      if original.Garbled? {
        return false, original, 0;
      }
      var obj := original.obj;
      srcId := ToDouble(obj, "id");
      obj := obj["id" := Number(replaceId)];
      return true, Json(obj), srcId;
    }

    static method InsertOriginJsonrpcId(original: Message, originRequestId: Exact) returns (msg: Message)
      ensures msg == WithOrigin(original, originRequestId)
    {
      if original.Garbled? {
        return original;
      }
      msg := Json(original.obj["originRequestId" := Number(originRequestId)]);
    }

    static method RevertOriginJsonrpc(original: Message) returns (msg: Message)
      ensures msg == Reverted(original)
    {
      if original.Garbled? {
        return original;
      }
      var obj := original.obj;
      if "originRequestId" in obj {
        obj := obj["id" := obj["originRequestId"]];
        obj := obj - {"originRequestId"};
      }
      msg := Json(obj);
    }

    method OnNewConnection(c: Client)
      requires c !in clients
      modifies this
      ensures View() == Apply(old(View()), Connect(c))
    {
      clientPort := c.port;
      clients := clients + {c};
    }

    method OnClientMessageReceived(c: Client, message: Message)
      requires c in clients && seqId < EXACT_LIMIT
      modifies this
      ensures View() == Apply(old(View()), Receive(c, message))
    {
      received := received + [Letter(c, message)];
      seqId := seqId + 1;
      var innerId := seqId;
      var ok, msg, srcId := ExchangeJsonrpcId(message, innerId);
      if ok {
        pending := pending[innerId := Entry(srcId, c)];
      }
      msg := InsertOriginJsonrpcId(msg, srcId);
      forwarded := forwarded + [Letter(c, msg)];
    }

    /** Walks the map and erases the entries of the client that left. */
    method EraseEntries(c: Client)
      modifies this`pending
      ensures pending == map k: nat | k in old(pending) && old(pending)[k].client != c :: old(pending)[k]
    {
      ghost var before := pending;
      var unseen := pending.Keys;
      while unseen != {}
        invariant unseen <= pending.Keys
        invariant forall k :: k in pending ==> k in before && pending[k] == before[k]
        invariant forall k :: k in before ==> k in pending || before[k].client == c
        invariant forall k :: k in pending ==> k in unseen || before[k].client != c
        decreases unseen
      {
        var itr: nat :| itr in unseen;
        unseen := unseen - {itr};
        if pending[itr].client == c {
          pending := pending - {itr};
        }
      }
    }

    method OnClientDisconnection(c: Client)
      requires c in clients
      modifies this
      ensures View() == Apply(old(View()), Disconnect(c))
    {
      abandoned := abandoned + SentBy(received, c);
      clients := clients - {c};
      EraseEntries(c);
      closed := closed + [c.port];
    }

    /** Sends to the first usable client met that has the port; silently drops otherwise. */
    method SendByPort(target: Port, message: Message, valid: set<Client>) returns (ghost pick: Client)
      modifies this`sent
      ensures var matches := Matches(clients, valid, target);
        if matches == {} then sent == old(sent)
        else pick in matches && sent == old(sent) + [Letter(pick, Reverted(message))]
    {
      var unseen := clients;
      pick := Client(0, target);
      while unseen != {}
        invariant sent == old(sent)
        invariant Matches(clients, valid, target) <= unseen <= clients
        decreases unseen
      {
        var conn :| conn in unseen;
        unseen := unseen - {conn};
        if conn in valid && target == conn.port {
          assert conn in Matches(clients, valid, target);
          pick := conn;
          var msg := RevertOriginJsonrpc(message);
          sent := sent + [Letter(conn, msg)];
          return;
        }
      }
    }

    /** Routes a plugin's message: by inner id if known, otherwise by port. */
    method SendMessage(port: Port, message: Message, valid: set<Client>) returns (ghost pick: Client)
      modifies this
      ensures Enabled(old(View()), Send(port, message, valid, pick))
      ensures View() == Apply(old(View()), Send(port, message, valid, pick))
    {
      var target := if port == 0 then clientPort else port;
      var innerId := IdOf(message);
      if 1 <= innerId <= seqId {
        answered := answered + {innerId};
      }
      if innerId in pending {
        var itr := pending[innerId];
        pending := pending - {innerId};
        assert pending == Without(old(pending), innerId);
        if itr.client in valid {
          var _, msg, _ := ExchangeJsonrpcId(message, itr.srcId);
          sent := sent + [Letter(itr.client, msg)];
          pick := Client(0, target);
          if Matches(clients, valid, target) != {} {
            pick :| pick in Matches(clients, valid, target);
          }
          return;
        }
      }
      assert pending == Without(old(pending), innerId);
      pick := SendByPort(target, message, valid);
    }

    /** Takes the port off the object, then routes it. */
    method SendMessageObj(obj: Members, valid: set<Client>) returns (port: Port, ghost pick: Client)
      modifies this
      ensures port == if "WSport" in obj then ToPort(obj, "WSport") else old(clientPort)
      ensures Enabled(old(View()), Send(port, Json(obj - {"WSport"}), valid, pick))
      ensures View() == Apply(old(View()), Send(port, Json(obj - {"WSport"}), valid, pick))
    {
      port := clientPort;
      var rest := obj;
      if "WSport" in obj {
        port := ToPort(obj, "WSport");
        rest := obj - {"WSport"};
      }
      assert rest == obj - {"WSport"};
      pick := SendMessage(port, Json(rest), valid);
    }

    method Close()
      modifies this
      ensures View() == Apply(old(View()), CloseServer)
    {
      pending := map[];
      clients := {};
      abandoned := abandoned + Given(seqId);
    }
  }
}
