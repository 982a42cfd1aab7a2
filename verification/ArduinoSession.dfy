/**
 The Arduino plugin's side of one request: the ids and port of the accepted request are
 kept, and every message about it, progress or outcome, is built from them. Over a whole
 session, however it goes, each reaches the requesting client under the client's own id.
 */
module ArduinoSession {
  import opened JsonRpc
  import opened Seqs
  import Web = WebSocketServer
  import Progress = ArduinoProgress

  const ERROR_BASE := 200
  const IS_BUSY := 5

  datatype ArduinoPacket = ArduinoPacket(port: Port, id: Exact, originRequestId: Exact)

  function Packet(obj: Members): ArduinoPacket {
    ArduinoPacket(ToPort(obj, "WSport"), ToDouble(obj, "id"), ToDouble(obj, "originRequestId"))
  }

  /** A reply under construction: outcome and error are filled in separately, an error wins. */
  class ReplyPacket {
    var resObj: Members
    var errorObj: Members
    var resultObj: Members

    constructor (id: Exact, originRequestId: Exact, port: Port)
      ensures resObj == map["WSport" := Number(port), "id" := Number(id),
                            "originRequestId" := Number(originRequestId), "jsonrpc" := Text("2.0")]
      ensures errorObj == map[] && resultObj == map[]
    {
      resObj := map["WSport" := Number(port), "id" := Number(id),
                    "originRequestId" := Number(originRequestId), "jsonrpc" := Text("2.0")];
      errorObj, resultObj := map[], map[];
    }

    method SetResultObj(data: Members)
      modifies this`resultObj
      ensures resultObj == data
    {
      resultObj := data;
    }

    method SetErrorObj(code: Exact, message: string)
      requires ERROR_BASE + code <= EXACT_LIMIT
      modifies this`errorObj
      ensures errorObj == ErrorObj(old(errorObj), code, message)
    {
      if code != 0 {
        errorObj := errorObj["code" := Number(ERROR_BASE + code)];
      }
      if message != "" {
        errorObj := errorObj["message" := Text(message)];
      }
    }

    /** Adds the error if there is one, otherwise the result, `true` standing for an empty one. */
    method GetResultObj() returns (obj: Members)
      modifies this`resObj
      ensures obj == resObj == if errorObj == map[] then old(resObj)["result" := Result(resultObj)]
                               else old(resObj)["error" := Object(errorObj)]
    {
      if errorObj == map[] {
        if resultObj == map[] {
          resObj := resObj["result" := Flag(true)];
        } else {
          resObj := resObj["result" := Object(resultObj)];
        }
      } else {
        resObj := resObj["error" := Object(errorObj)];
      }
      obj := resObj;
    }
  }

  function ErrorObj(before: Members, code: Exact, message: string): Members
    requires ERROR_BASE + code <= EXACT_LIMIT
  {
    var withCode := if code != 0 then before["code" := Number(ERROR_BASE + code)] else before;
    if message != "" then withCode["message" := Text(message)] else withCode
  }

  function Result(data: Members): Value {
    if data == map[] then Flag(true) else Object(data)
  }

  // --------------------------------------------------------------------- a session

  type ErrorKind = k: Exact | k <= EXACT_LIMIT - ERROR_BASE

  /** What compiler and uploader signal. */
  datatype Event =
    | Percent(uploading: bool, percent: Exact, message: string)
    | CompileEnds(kind: ErrorKind, message: string)
    | UploadEnds(kind: ErrorKind, message: string)

  function ProcessObj(uploading: bool, percent: Exact, message: string): Members {
    map["type" := Text(if uploading then "Arduino Upload" else "Arduino Compile"),
        "totalProgress" := Decimal(if uploading then Progress.UploadTotal(percent) else Progress.CompileTotal(percent)),
        "progress" := Number(percent), "message" := Text(message)]
  }

  /** What a message about the request in `obj` looks like. */
  function About(obj: Members, outcome: string, data: Value): Members {
    var packet := Packet(obj);
    ArduinoReply(packet.port, packet.id, packet.originRequestId, outcome, data)
  }

  function Failure(obj: Members, kind: ErrorKind, message: string): Members {
    About(obj, "error", Object(ErrorObj(map[], kind, message)))
  }

  /** What is said about one event. */
  function Said(obj: Members, e: Event): seq<Members> {
    match e
    case Percent(uploading, percent, message) => [About(obj, "result", Object(ProcessObj(uploading, percent, message)))]
    case CompileEnds(kind, message) => if kind == 0 then [] else [Failure(obj, kind, message)]
    case UploadEnds(kind, message) =>
      if kind == 0 then [About(obj, "result", Flag(true))] else [Failure(obj, kind, message)]
  }

  function Talk(obj: Members, events: seq<Event>): seq<Members> {
    if events == [] then [] else Said(obj, events[0]) + Talk(obj, events[1..])
  }

  /** The last word on a request: an error, or a bare `true`. */
  predicate IsOutcome(m: Members) {
    "error" in m || ("result" in m && m["result"] == Flag(true))
  }

  /** The message is a result or an error about the request in `obj`. */
  ghost predicate IsAbout(obj: Members, m: Members) {
    exists outcome, data :: (outcome == "result" || outcome == "error") && m == About(obj, outcome, data)
  }

  /** Whatever happens, only its own request is talked about. */
  lemma {:induction false} TalkIsAbout(obj: Members, events: seq<Event>)
    ensures forall i :: 0 <= i < |Talk(obj, events)| ==> IsAbout(obj, Talk(obj, events)[i])
  {
    if events != [] {
      TalkIsAbout(obj, events[1..]);
      var said, rest := Said(obj, events[0]), Talk(obj, events[1..]);
      assert forall i :: 0 <= i < |said| ==> IsAbout(obj, said[i]);
      assert forall i :: |said| <= i < |said + rest| ==> (said + rest)[i] == rest[i - |said|];
    }
  }

  lemma {:induction false} TalkConcat(obj: Members, a: seq<Event>, b: seq<Event>)
    ensures Talk(obj, a + b) == Talk(obj, a) + Talk(obj, b)
  {
    if a == [] {
      assert a + b == b;
    } else {
      TalkConcat(obj, a[1..], b);
      assert a == [a[0]] + a[1..] && a + b == [a[0]] + (a[1..] + b);
      TalkFirst(obj, a[0], a[1..]);
      TalkFirst(obj, a[0], a[1..] + b);
      Assoc(Said(obj, a[0]), Talk(obj, a[1..]), Talk(obj, b));
    }
  }

  lemma TalkFirst(obj: Members, e: Event, rest: seq<Event>)
    ensures Talk(obj, [e] + rest) == Said(obj, e) + Talk(obj, rest)
  {
    assert ([e] + rest)[0] == e && ([e] + rest)[1..] == rest;
  }

  function Outcomes(talk: seq<Members>): nat {
    if talk == [] then 0 else (if IsOutcome(talk[0]) then 1 else 0) + Outcomes(talk[1..])
  }

  lemma {:induction false} OutcomesConcat(a: seq<Members>, b: seq<Members>)
    ensures Outcomes(a + b) == Outcomes(a) + Outcomes(b)
  {
    if a == [] {
      assert a + b == b;
    } else {
      OutcomesConcat(a[1..], b);
      assert (a + b)[0] == a[0] && (a + b)[1..] == a[1..] + b;
    }
  }

  /**
   End to end: a client's request is forwarded, compiler and uploader signal whatever they
   signal, and the messages go out one by one with anything else in between, as long as the
   client stays and is alone on its port. Whichever message is next arrives there, under the
   client's own id, and says what the plugin said.
   */
  lemma SessionReachesClient(before: seq<Web.Step>, c: Web.Client, request: Members, events: seq<Event>,
                             n: nat, during: seq<Web.Step>, valid: set<Web.Client>)
    requires Web.Legal(Web.INIT, before)
    requires Web.Enabled(Web.Exec(Web.INIT, before), Web.Receive(c, Json(request)))
    requires var s := Web.Apply(Web.Exec(Web.INIT, before), Web.Receive(c, Json(request)));
      && Web.Legal(s, during) && Web.Stays(during, c)
      && c in valid && c.port != 0 && Web.Matches(Web.Exec(s, during).clients, valid, c.port) == {c}
    requires var s := Web.Apply(Web.Exec(Web.INIT, before), Web.Receive(c, Json(request)));
      n < |Talk(Web.Seen(s), events)|
    ensures var s := Web.Apply(Web.Exec(Web.INIT, before), Web.Receive(c, Json(request)));
      var t := Web.Exec(s, during);
      var said := Talk(Web.Seen(s), events)[n];
      && ToPort(said, "WSport") == c.port
      && Web.Enabled(t, Web.Send(c.port, Json(said - {"WSport"}), valid, c))
      && var u := Web.Apply(t, Web.Send(c.port, Json(said - {"WSport"}), valid, c));
         && |u.sent| == |t.sent| + 1 && u.sent[..|t.sent|] == t.sent
         && var got := u.sent[|t.sent|];
            && got.client == c && got.message.Json? && IdOf(got.message) == ToDouble(request, "id")
            && got.message.obj - {"id", "originRequestId"} == said - {"WSport", "id", "originRequestId"}
  {
    var s0 := Web.Exec(Web.INIT, before);
    var s := Web.Apply(s0, Web.Receive(c, Json(request)));
    var seen := Web.Seen(s);
    var said := Talk(seen, events)[n];
    assert IsAbout(seen, said) by {
      TalkIsAbout(seen, events);
    }
    var outcome, data :| (outcome == "result" || outcome == "error") && said == About(seen, outcome, data);
    SeenPacket(s0, c, request);
    ReplyShape(said, c.port, s.seqId, ToDouble(request, "id"), outcome, data);
    Web.RepliesKeepArriving(before, c, request, during, outcome, data, valid, c);
  }

  lemma SeenPacket(s: Web.Server, c: Web.Client, request: Members)
    requires Web.Enabled(s, Web.Receive(c, Json(request)))
    ensures var t := Web.Apply(s, Web.Receive(c, Json(request)));
      Packet(Web.Seen(t)) == ArduinoPacket(c.port, t.seqId, ToDouble(request, "id"))
  {
  }

  lemma ReplyShape(said: Members, port: Port, id: Exact, origin: Exact, outcome: string, data: Value)
    requires outcome == "result" || outcome == "error"
    requires said == ArduinoReply(port, id, origin, outcome, data)
    ensures ToPort(said, "WSport") == port
    ensures said - {"WSport", "id", "originRequestId"} == map["jsonrpc" := Text("2.0"), outcome := data]
  {
  }

  // ------------------------------------------------------------ the object itself

  class ArduinoPlugin {
    var requestId: Exact
    var originRequestId: Exact
    var port: Port
    var isBusy: bool
    var sent: seq<Members>

    constructor ()
      ensures !isBusy && sent == []
    {
      requestId, originRequestId, port, isBusy, sent := 0, 0, 0, false, [];
    }

    /** The kept ids are those of the request in `obj`. */
    ghost predicate Serves(obj: Members)
      reads this
    {
      var packet := Packet(obj);
      requestId == packet.id && originRequestId == packet.originRequestId && port == packet.port
    }

    /**
     A request that passed every other check and starts compiling. A busy plugin says so, to
     the port of the request it is busy with, and takes the new one over nevertheless.
     */
    method Accept(obj: Members)
      modifies this
      ensures Serves(obj) && isBusy
      ensures sent == old(sent) + if !old(isBusy) then [] else
        [ArduinoReply(old(port), Packet(obj).id, Packet(obj).originRequestId, "error",
                      Object(ErrorObj(map[], IS_BUSY, "ArduinoProgram is buzy.")))]
    {
      var packet := Packet(obj);
      if isBusy {
        var resPacket := new ReplyPacket(packet.id, packet.originRequestId, port);
        resPacket.SetErrorObj(IS_BUSY, "ArduinoProgram is buzy.");
        assert "code" in resPacket.errorObj;
        var res := resPacket.GetResultObj();
        sent := sent + [res];
      }
      requestId, originRequestId, port := packet.id, packet.originRequestId, packet.port;
      isBusy := true;
    }

    method HandleProcessPercent(obj: Members, uploading: bool, percent: Exact, message: string)
      requires Serves(obj)
      modifies this`sent
      ensures sent == old(sent) + [About(obj, "result", Object(ProcessObj(uploading, percent, message)))]
    {
      var process: Members := map[];
      if !uploading {
        process := process["type" := Text("Arduino Compile")];
        process := process["totalProgress" := Decimal(percent as real * 0.4)];
      } else {
        process := process["type" := Text("Arduino Upload")];
        var totalPercent := percent as real * 0.6 + 40.0;
        if totalPercent > 98.0 {
          totalPercent := 100.0;
        }
        process := process["totalProgress" := Decimal(totalPercent)];
      }
      process := process["progress" := Number(percent)];
      process := process["message" := Text(message)];
      assert process == ProcessObj(uploading, percent, message);
      assert "type" in process;
      var resPacket := new ReplyPacket(requestId, originRequestId, port);
      resPacket.SetResultObj(process);
      var res := resPacket.GetResultObj();
      sent := sent + [res];
    }

    /** A failed compilation ends the request; a finished one says nothing yet. */
    method HandleCompileFinish(obj: Members, kind: ErrorKind, message: string) returns (upload: bool)
      requires Serves(obj)
      modifies this`sent, this`isBusy
      ensures upload <==> kind == 0
      ensures kind == 0 ==> sent == old(sent) && isBusy == old(isBusy)
      ensures kind != 0 ==> !isBusy
      ensures kind != 0 ==> sent == old(sent) + [Failure(obj, kind, message)]
    {
      if kind == 0 {
        return true;
      }
      var resPacket := new ReplyPacket(requestId, originRequestId, port);
      resPacket.SetErrorObj(kind, message);
      assert "code" in resPacket.errorObj;
      isBusy := false;
      var res := resPacket.GetResultObj();
      sent := sent + [res];
      return false;
    }

    method HandleUploadFinish(obj: Members, kind: ErrorKind, message: string)
      requires Serves(obj)
      modifies this`sent, this`isBusy
      ensures !isBusy
      ensures sent == old(sent) + [if kind == 0 then About(obj, "result", Flag(true))
                                   else Failure(obj, kind, message)]
    {
      var resPacket := new ReplyPacket(requestId, originRequestId, port);
      if kind == 0 {
        resPacket.SetResultObj(map[]);
      } else {
        resPacket.SetErrorObj(kind, message);
        assert "code" in resPacket.errorObj;
      }
      var res := resPacket.GetResultObj();
      sent := sent + [res];
      isBusy := false;
    }

    /** The slot that an event is connected to. */
    method Deliver(obj: Members, e: Event)
      requires Serves(obj)
      modifies this`sent, this`isBusy
      ensures sent == old(sent) + Said(obj, e)
      ensures isBusy == (old(isBusy) && Outcomes(Said(obj, e)) == 0)
    {
      ghost var said := Said(obj, e);
      assert said != [] ==> said[1..] == [];
      match e {
        case Percent(uploading, percent, message) => HandleProcessPercent(obj, uploading, percent, message);
        case CompileEnds(kind, message) =>
          var _ := HandleCompileFinish(obj, kind, message);
        case UploadEnds(kind, message) => HandleUploadFinish(obj, kind, message);
      }
    }

    /** The event loop delivering whatever is signalled; the plugin stays busy until the first outcome. */
    method Serve(obj: Members, events: seq<Event>)
      requires Serves(obj)
      modifies this`sent, this`isBusy
      ensures sent == old(sent) + Talk(obj, events)
      ensures isBusy == (old(isBusy) && Outcomes(Talk(obj, events)) == 0)
    {
      var rest := events;
      while rest != []
        invariant Serves(obj)
        invariant sent + Talk(obj, rest) == old(sent) + Talk(obj, events)
        invariant (isBusy && Outcomes(Talk(obj, rest)) == 0) == (old(isBusy) && Outcomes(Talk(obj, events)) == 0)
        decreases |rest|
      {
        Assoc(sent, Said(obj, rest[0]), Talk(obj, rest[1..]));
        OutcomesConcat(Said(obj, rest[0]), Talk(obj, rest[1..]));
        Deliver(obj, rest[0]);
        rest := rest[1..];
      }
    }
  }
}
