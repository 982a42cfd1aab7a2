/** JSON-RPC messages as finite maps, and the request and result packets built from them. */
module JsonRpc {

  /** Integers a JSON number carries exactly: IEEE 754 doubles up to 2^53. */
  const EXACT_LIMIT: int := 0x20_0000_0000_0000

  type Exact = n: int | -EXACT_LIMIT <= n <= EXACT_LIMIT

  type Port = n: int | 0 <= n < 0x1_0000

  datatype Value =
    | Null
    | Number(n: Exact)
    | Decimal(r: real)           // a progress value, which may have a fraction
    | Text(s: string)
    | Flag(b: bool)
    | Object(fields: map<string, Value>)

  type Members = map<string, Value>

  /** What arrives on or leaves through a socket: an object, or text that is not one. */
  datatype Message = Garbled(text: string) | Json(obj: Members)

  /** Reads a member as a number; a missing or non-numeric member reads as 0. */
  function ToDouble(obj: Members, key: string): Exact {
    if key in obj && obj[key].Number? then obj[key].n else 0
  }

  /** Reads a member as a 32-bit integer, 0 if it is none, and cuts it to 16 bits. */
  function ToPort(obj: Members, key: string): Port {
    var n := ToDouble(obj, key);
    if -0x8000_0000 <= n < 0x8000_0000 then n % 0x1_0000 else 0
  }

  function IdOf(m: Message): Exact {
    if m.Json? then ToDouble(m.obj, "id") else 0
  }

  function WithId(m: Message, id: Exact): Message {
    if m.Json? then Json(m.obj["id" := Number(id)]) else m
  }

  function WithOrigin(m: Message, id: Exact): Message {
    if m.Json? then Json(m.obj["originRequestId" := Number(id)]) else m
  }

  /** Moves `originRequestId`, when present, over `id`. */
  function Reverted(m: Message): Message {
    if m.Json? && "originRequestId" in m.obj
    then Json(m.obj["id" := m.obj["originRequestId"]] - {"originRequestId"})
    else m
  }

  /** The two objects agree on every member outside `keys`. */
  ghost predicate SameExcept(a: Members, b: Members, keys: set<string>) {
    a - keys == b - keys
  }

  // --------------------------------------------------------------------- packets

  /** The fields of a request that its replies are built from. */
  datatype Request = Request(wsPort: Port, id: Exact)

  function ParseRequest(obj: Members): Request {
    Request(ToPort(obj, "WSport"), ToDouble(obj, "id"))
  }

  /** A reply under construction. */
  class ResultPacket {
    var resObj: Members

    constructor (packet: Request)
      ensures resObj == map["jsonrpc" := Text("2.0"), "WSport" := Number(packet.wsPort), "id" := Number(packet.id)]
    {
      resObj := map[];
      new;
      resObj := resObj["jsonrpc" := Text("2.0")];
      resObj := resObj["WSport" := Number(packet.wsPort)];
      resObj := resObj["id" := Number(packet.id)];
    }

    /** Fills in the outcome; the members that route the reply stay as they were. */
    method GetResultObj(data: Value) returns (obj: Members)
      modifies this
      ensures obj == resObj == old(resObj)["result" := Told(data)]
    {
      if data.Null? {
        resObj := resObj["result" := Flag(true)];
      } else {
        resObj := resObj["result" := data];
      }
      obj := resObj;
    }

    method GetErrorObj(code: Exact, message: string) returns (obj: Members)
      modifies this
      ensures obj == resObj && "error" in obj && obj["error"].Object?
      ensures obj["error"].fields.Keys == (if message == "" then {"code"} else {"code", "message"})
      ensures obj["error"].fields["code"] == Number(code)
      ensures message != "" ==> obj["error"].fields["message"] == Text(message)
      ensures SameExcept(obj, old(resObj), {"error"})
    {
      var errorObj: Members := map["code" := Number(code)];
      if message != "" {
        errorObj := errorObj["message" := Text(message)];
      }
      resObj := resObj["error" := Object(errorObj)];
      obj := resObj;
    }
  }

  /** The outcome of a call without a result is `true`. */
  function Told(data: Value): Value {
    if data.Null? then Flag(true) else data
  }

  /** A result is told as it is; only the absence of one becomes `true`. */
  lemma ResultTold(packet: Request, data: Value)
    ensures var reply := ResultReply(packet, data);
      && reply.Keys == {"jsonrpc", "WSport", "id", "result"}
      && (data != Null ==> reply["result"] == data) && (data == Null ==> reply["result"] == Flag(true))
      && reply["WSport"] == Number(packet.wsPort) && reply["id"] == Number(packet.id)
  {
  }

  /** A 32-bit integer is cut to its last 16 bits; anything else counts as 0. */
  lemma PortCut(obj: Members, key: string, high: int, low: Port)
    requires key in obj
    ensures -32768 <= high < 32768 && obj[key] == Number(high * 65536 + low) ==> ToPort(obj, key) == low
    ensures !obj[key].Number? || obj[key].n < -2147483648 || obj[key].n > 2147483647 ==> ToPort(obj, key) == 0
  {
  }

  function ResultReply(packet: Request, data: Value): Members {
    map["jsonrpc" := Text("2.0"), "WSport" := Number(packet.wsPort), "id" := Number(packet.id),
        "result" := Told(data)]
  }

  /** A reply of the Arduino plugin, which answers one request several times. */
  function ArduinoReply(port: Port, id: Exact, origin: Exact, outcome: string, data: Value): Members {
    map["WSport" := Number(port), "id" := Number(id), "originRequestId" := Number(origin),
        "jsonrpc" := Text("2.0"), outcome := data]
  }

  /** Builds a result reply the way a plugin does. */
  method BuildResult(request: Members, data: Value) returns (reply: Members)
    ensures reply == ResultReply(ParseRequest(request), data)
  {
    var packet := new ResultPacket(ParseRequest(request));
    reply := packet.GetResultObj(data);
  }
}
