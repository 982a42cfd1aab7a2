/**
 What compiler and uploader signal for one request, from how each of the four processes
 behind them ends. The compiler runs its three tools one after the other and waits ten
 seconds for each; a tool that ends after its wait is heard of later, by the event loop.
 */
module ArduinoRun {
  import opened JsonRpc
  import opened ArduinoSession
  import opened Seqs
  import Progress = ArduinoProgress

  datatype Tool = Gpp | Gcc | Objcopy

  datatype Manner = Normal | Crashed(why: string)

  /** `late`: not within the ten seconds. */
  datatype Fate = NotStarted | Ends(how: Manner, late: bool) | Hangs

  datatype Log = Clean | HasError | HasTimeout

  datatype UploaderFate = NotLaunched | Died(why: string) | Returned(log: Log) | NeverEnds

  datatype Upload = NoHexFile | NoDevice | NoType | Launches(percents: seq<Exact>, fate: UploaderFate)

  /** One request: what is installed, and what becomes of each process if it is started. */
  datatype Run = Run(toolchain: bool, codeFile: bool, gpp: Fate, gcc: Fate, objcopy: Fate, upload: Upload)

  const TOOL_NOTFOUND := 10
  const CODEFILE_NOTFOUND := 11
  const COMPILER_CRASH := 12
  const HEX_FILE_NOTFOUND := 20
  const NO_AVAILABLE_DEVICE := 21
  const NO_TYPE := 22
  const UPLOADER_CRASH := 23
  const UPLOAD_TIMEOUT := 24
  const UPLOAD_UNKNOWN := 25

  // ------------------------------------------------------------------ what is signalled

  function Name(t: Tool): string {
    match t case Gpp => "avr-g++" case Gcc => "avr-gcc" case Objcopy => "avr-objcopy"
  }

  function Percentage(t: Tool): Exact {
    match t case Gpp => 30 case Gcc => 60 case Objcopy => 100
  }

  function FailKind(t: Tool): ErrorKind {
    match t case Gpp => 13 case Gcc => 14 case Objcopy => 15
  }

  /** The slot for `finished`; only the last tool's normal end finishes the compilation. */
  function FinishedEvents(t: Tool, how: Manner): seq<Event> {
    match how
    case Normal =>
      [Percent(false, Percentage(t), Name(t) + " finieshed OK")]
      + if t.Objcopy? then [CompileEnds(0, "")] else []
    case Crashed(why) => [CompileEnds(FailKind(t), Name(t) + " compile Error:" + Name(t) + ":" + why)]
  }

  /** A crash is signalled as an error first, and then as an end. */
  function EndEvents(t: Tool, how: Manner): seq<Event> {
    if how.Crashed? then [CompileEnds(COMPILER_CRASH, "compile:Error:1")] + FinishedEvents(t, how)
    else FinishedEvents(t, how)
  }

  function ToolEvents(t: Tool, fate: Fate): seq<Event> {
    match fate
    case NotStarted => [CompileEnds(COMPILER_CRASH, "compile:Error:0")]
    case Ends(how, _) => EndEvents(t, how)
    case Hangs => []
  }

  /** The wait for the tool succeeds, crashed or not, and the next one is started. */
  predicate GoesOn(fate: Fate) {
    fate.Ends? && !fate.late
  }

  function FateOf(r: Run, t: Tool): Fate {
    match t case Gpp => r.gpp case Gcc => r.gcc case Objcopy => r.objcopy
  }

  predicate Started(r: Run, t: Tool) {
    && r.toolchain && r.codeFile
    && (t.Gpp? || GoesOn(r.gpp))
    && (t.Objcopy? ==> GoesOn(r.gcc))
  }

  function EventsOf(r: Run, t: Tool): seq<Event> {
    if Started(r, t) then ToolEvents(t, FateOf(r, t)) else []
  }

  function CompileEvents(r: Run): seq<Event> {
    if !r.toolchain then [CompileEnds(TOOL_NOTFOUND, "Arduino-tools not found.")]
    else if !r.codeFile then [CompileEnds(CODEFILE_NOTFOUND, "code.cpp file is not exist.")]
    else EventsOf(r, Gpp) + EventsOf(r, Gcc) + EventsOf(r, Objcopy)
  }

  predicate EndedNormally(r: Run, t: Tool) {
    Started(r, t) && FateOf(r, t).Ends? && FateOf(r, t).how.Normal?
  }

  function PercentEvents(percents: seq<Exact>): seq<Event> {
    if percents == [] then [] else [Percent(true, percents[0], "uploading..")] + PercentEvents(percents[1..])
  }

  function UploaderEndEvents(fate: UploaderFate): seq<Event> {
    match fate
    case NotLaunched => [UploadEnds(UPLOADER_CRASH, "DAvrUploader: upload ERROR:0")]
    case Died(why) =>
      [UploadEnds(UPLOADER_CRASH, "DAvrUploader: upload ERROR:1"), UploadEnds(UPLOADER_CRASH, "upload:" + why)]
    case Returned(log) =>
      [match log
       case Clean => UploadEnds(0, "")
       case HasError => UploadEnds(UPLOAD_UNKNOWN, "error, please read log.")
       case HasTimeout => UploadEnds(UPLOAD_TIMEOUT, "upload process timeout.")]
    case NeverEnds => []
  }

  function UploadEvents(u: Upload): seq<Event> {
    match u
    case NoHexFile => [UploadEnds(HEX_FILE_NOTFOUND, "out.hex file is not exist.")]
    case NoDevice => [UploadEnds(NO_AVAILABLE_DEVICE, "no available device.")]
    case NoType => [UploadEnds(NO_TYPE, "Do not specify Arduino Type.")]
    case Launches(percents, fate) =>
      (if fate.NotLaunched? then [] else PercentEvents(percents)) + UploaderEndEvents(fate)
  }

  /** Everything signalled for a request; the end of the last tool starts the upload. */
  function RunEvents(r: Run): seq<Event> {
    CompileEvents(r) + if EndedNormally(r, Objcopy) then UploadEvents(r.upload) else []
  }

  // -------------------------------------------------------------------- outcomes

  function CrashesOf(r: Run, t: Tool): nat {
    if Started(r, t) && FateOf(r, t).Ends? && FateOf(r, t).how.Crashed? then 1 else 0
  }

  /** How many of the processes that were started crashed. */
  function Crashes(r: Run): nat {
    CrashesOf(r, Gpp) + CrashesOf(r, Gcc) + CrashesOf(r, Objcopy)
    + if EndedNormally(r, Objcopy) && r.upload.Launches? && r.upload.fate.Died? then 1 else 0
  }

  /** A tool that was to run could not be started. */
  predicate Failed(r: Run, t: Tool) {
    Started(r, t) && FateOf(r, t).NotStarted?
  }

  predicate UploadConcludes(u: Upload) {
    u.Launches? ==> u.fate.NotLaunched? || u.fate.Returned?
  }

  /** The request comes to an end of its own: something is missing, or the upload is over. */
  predicate Concludes(r: Run) {
    || !r.toolchain || !r.codeFile || Failed(r, Gpp) || Failed(r, Gcc) || Failed(r, Objcopy)
    || (EndedNormally(r, Objcopy) && UploadConcludes(r.upload))
  }

  function Count(obj: Members, events: seq<Event>): nat {
    Outcomes(Talk(obj, events))
  }

  lemma CountConcat(obj: Members, a: seq<Event>, b: seq<Event>)
    ensures Count(obj, a + b) == Count(obj, a) + Count(obj, b)
  {
    TalkConcat(obj, a, b);
    OutcomesConcat(Talk(obj, a), Talk(obj, b));
  }

  predicate IsEnd(e: Event) {
    e.UploadEnds? || (e.CompileEnds? && e.kind != 0)
  }

  /** An end is an outcome and nothing else is; only the compiler's success is not told. */
  lemma SaidOnce(obj: Members, e: Event)
    ensures |Said(obj, e)| == if e.CompileEnds? && e.kind == 0 then 0 else 1
    ensures Said(obj, e) != [] ==> (IsOutcome(Said(obj, e)[0]) <==> IsEnd(e))
  {
    var said := Said(obj, e);
    match e
    case Percent(uploading, percent, message) =>
      assert said[0]["result"] == Object(ProcessObj(uploading, percent, message)) && "error" !in said[0];
    case CompileEnds(kind, message) =>
      assert kind != 0 ==> "error" in said[0];
    case UploadEnds(kind, message) =>
      assert if kind == 0 then said[0]["result"] == Flag(true) else "error" in said[0];
  }

  lemma TalkOne(obj: Members, e: Event)
    ensures Talk(obj, [e]) == Said(obj, e)
  {
    assert [e][1..] == [];
    assert Talk(obj, [e]) == Said(obj, e) + [];
  }

  lemma OutcomesOne(m: Members)
    ensures Outcomes([m]) == if IsOutcome(m) then 1 else 0
  {
    assert [m][1..] == [];
  }

  lemma CountOne(obj: Members, e: Event)
    ensures Count(obj, [e]) == if IsEnd(e) then 1 else 0
  {
    TalkOne(obj, e);
    SaidOnce(obj, e);
    if Said(obj, e) != [] {
      OutcomesOne(Said(obj, e)[0]);
      assert Said(obj, e) == [Said(obj, e)[0]];
    }
  }

  lemma CountFew(obj: Members, events: seq<Event>)
    requires |events| <= 2
    ensures Count(obj, events) == (if |events| > 0 && IsEnd(events[0]) then 1 else 0)
                                  + if |events| > 1 && IsEnd(events[1]) then 1 else 0
  {
    if |events| == 1 {
      CountOne(obj, events[0]);
      assert events == [events[0]];
    } else if |events| == 2 {
      CountOne(obj, events[0]);
      CountOne(obj, events[1]);
      CountConcat(obj, [events[0]], [events[1]]);
      assert events == [events[0]] + [events[1]];
    }
  }

  lemma ToolCounted(obj: Members, r: Run, t: Tool)
    ensures Count(obj, EventsOf(r, t)) == 2 * CrashesOf(r, t) + if Failed(r, t) then 1 else 0
  {
    var events := EventsOf(r, t);
    assert |events| <= 2;
    CountFew(obj, events);
  }

  lemma {:induction false} PercentsCounted(obj: Members, percents: seq<Exact>)
    ensures Count(obj, PercentEvents(percents)) == 0
  {
    if percents != [] {
      var first, rest := Percent(true, percents[0], "uploading.."), PercentEvents(percents[1..]);
      PercentsCounted(obj, percents[1..]);
      CountOne(obj, first);
      CountConcat(obj, [first], rest);
    }
  }

  lemma UploadCounted(obj: Members, u: Upload)
    ensures Count(obj, UploadEvents(u))
      == (if u.Launches? && u.fate.Died? then 2 else 0) + if UploadConcludes(u) then 1 else 0
  {
    match u
    case Launches(percents, fate) =>
      var front := if fate.NotLaunched? then [] else PercentEvents(percents);
      var ends := UploaderEndEvents(fate);
      PercentsCounted(obj, percents);
      CountConcat(obj, front, ends);
      CountFew(obj, ends);
    case _ => CountFew(obj, UploadEvents(u));
  }

  /**
   How often a request is answered: twice for every process that was started and crashed,
   and once more if it concludes.
   */
  lemma OutcomesCounted(obj: Members, r: Run)
    ensures Count(obj, RunEvents(r)) == 2 * Crashes(r) + if Concludes(r) then 1 else 0
  {
    var upload := if EndedNormally(r, Objcopy) then UploadEvents(r.upload) else [];
    CountConcat(obj, CompileEvents(r), upload);
    UploadCounted(obj, r.upload);
    if !r.toolchain || !r.codeFile {
      CountOne(obj, CompileEvents(r)[0]);
    } else {
      ToolCounted(obj, r, Gpp);
      ToolCounted(obj, r, Gcc);
      ToolCounted(obj, r, Objcopy);
      CountConcat(obj, EventsOf(r, Gpp), EventsOf(r, Gcc));
      CountConcat(obj, EventsOf(r, Gpp) + EventsOf(r, Gcc), EventsOf(r, Objcopy));
    }
  }

  /** Exactly one outcome, and it is the last word. */
  predicate OneOutcomeLast(talk: seq<Members>) {
    talk != [] && Outcomes(talk) == 1 && IsOutcome(talk[|talk| - 1])
  }

  /** A tool of the compiler does what its caller counts on: only the last one may take its time. */
  predicate EndsWell(t: Tool, fate: Fate) {
    fate.NotStarted? || (fate.Ends? && fate.how.Normal? && (fate.late ==> t.Objcopy?))
  }

  /** Every process that was started ends without a crash, the first two tools within their wait. */
  ghost predicate AllEndWell(r: Run) {
    && (forall t :: Started(r, t) ==> EndsWell(t, FateOf(r, t)))
    && (EndedNormally(r, Objcopy) ==> UploadConcludes(r.upload))
  }

  /** A request gets exactly one outcome, as its last message, exactly if all its processes end well. */
  lemma OneOutcomeLastExactlyWhen(obj: Members, r: Run)
    ensures OneOutcomeLast(Talk(obj, RunEvents(r))) <==> AllEndWell(r)
    ensures AllEndWell(r) <==> Crashes(r) == 0 && Concludes(r)
  {
    OutcomesCounted(obj, r);
    WellIsConcluded(r);
    if AllEndWell(r) {
      LastWord(obj, r);
    }
  }

  lemma WellIsConcluded(r: Run)
    ensures AllEndWell(r) <==> Crashes(r) == 0 && Concludes(r)
  {
    if Crashes(r) == 0 && Concludes(r) {
      forall t | Started(r, t)
        ensures EndsWell(t, FateOf(r, t))
      {
        assert CrashesOf(r, t) == 0;
      }
    }
    if AllEndWell(r) && r.toolchain && r.codeFile {
      assert Started(r, Gpp);
    }
  }

  lemma LastWord(obj: Members, r: Run)
    requires AllEndWell(r)
    ensures var talk := Talk(obj, RunEvents(r)); talk != [] && IsOutcome(talk[|talk| - 1])
  {
    LastEvent(r);
    EndIsLastWord(obj, RunEvents(r));
  }

  lemma EndIsLastWord(obj: Members, events: seq<Event>)
    requires events != [] && IsEnd(events[|events| - 1])
    ensures var talk := Talk(obj, events); talk != [] && IsOutcome(talk[|talk| - 1])
  {
    var front, last := events[..|events| - 1], events[|events| - 1];
    assert events == front + [last];
    TalkConcat(obj, front, [last]);
    TalkOne(obj, last);
    SaidOnce(obj, last);
  }

  lemma LastEvent(r: Run)
    requires AllEndWell(r)
    ensures var events := RunEvents(r); events != [] && IsEnd(events[|events| - 1])
  {
    if r.toolchain && r.codeFile {
      assert Started(r, Gpp);
      if EndedNormally(r, Objcopy) {
        var u := UploadEvents(r.upload);
        assert IsEnd(u[|u| - 1]);
      }
    }
  }

  /** No outcome at all, so that the plugin stays busy for good, exactly if nothing crashed and nothing concludes. */
  lemma NeverAnsweredExactlyWhen(obj: Members, r: Run)
    ensures Count(obj, RunEvents(r)) == 0 <==> Crashes(r) == 0 && !AllEndWell(r)
  {
    OutcomesCounted(obj, r);
    WellIsConcluded(r);
  }

  // ------------------------------------------------- what the outcomes tell the client

  /** The error code a message carries, 0 if it is a bare `true`; progress carries none. */
  function CodeIn(m: Members): seq<int> {
    if "error" in m then
      (match m["error"]
       case Object(fields) => if "code" in fields && fields["code"].Number? then [fields["code"].n] else [-1]
       case _ => [-1])
    else if "result" in m && m["result"] == Flag(true) then [0]
    else []
  }

  function CodesIn(talk: seq<Members>): seq<int> {
    if talk == [] then [] else CodeIn(talk[0]) + CodesIn(talk[1..])
  }

  /** The codes a tool is to be reported with; `own` is its own one. */
  function CrashCodes(fate: Fate, own: int): seq<int> {
    match fate
    case NotStarted => [212]
    case Ends(Crashed(_), _) => [212, own]
    case _ => []
  }

  function UploadCodes(u: Upload): seq<int> {
    match u
    case NoHexFile => [220]
    case NoDevice => [221]
    case NoType => [222]
    case Launches(_, NotLaunched) => [223]
    case Launches(_, Died(_)) => [223, 223]
    case Launches(_, Returned(HasTimeout)) => [224]
    case Launches(_, Returned(HasError)) => [225]
    case Launches(_, Returned(Clean)) => [0]
    case Launches(_, NeverEnds) => []
  }

  /** The codes of a request, from what becomes of its processes. */
  function ExpectedCodes(r: Run): seq<int> {
    if !r.toolchain then [210]
    else if !r.codeFile then [211]
    else
      CrashCodes(r.gpp, 213)
      + if !(r.gpp.Ends? && !r.gpp.late) then []
        else
          CrashCodes(r.gcc, 214)
          + if !(r.gcc.Ends? && !r.gcc.late) then []
            else
              CrashCodes(r.objcopy, 215)
              + if r.objcopy.Ends? && r.objcopy.how == Normal then UploadCodes(r.upload) else []
  }

  lemma {:induction false} CodesConcat(a: seq<Members>, b: seq<Members>)
    ensures CodesIn(a + b) == CodesIn(a) + CodesIn(b)
  {
    if a == [] {
      assert a + b == b;
    } else {
      CodesConcat(a[1..], b);
      assert (a + b)[0] == a[0] && (a + b)[1..] == a[1..] + b;
      Assoc(CodeIn(a[0]), CodesIn(a[1..]), CodesIn(b));
    }
  }

  function Codes(obj: Members, events: seq<Event>): seq<int> {
    CodesIn(Talk(obj, events))
  }

  lemma CodesJoin(obj: Members, a: seq<Event>, b: seq<Event>)
    ensures Codes(obj, a + b) == Codes(obj, a) + Codes(obj, b)
  {
    TalkConcat(obj, a, b);
    CodesConcat(Talk(obj, a), Talk(obj, b));
  }

  lemma FailureCode(obj: Members, kind: ErrorKind, message: string)
    requires kind != 0
    ensures CodeIn(Failure(obj, kind, message)) == [200 + kind]
  {
    var fields := ErrorObj(map[], kind, message);
    assert "code" in fields && fields["code"] == Number(200 + kind);
    assert Failure(obj, kind, message)["error"] == Object(fields);
  }

  /** An error carries its code and, unless empty, its text, and nothing else. */
  lemma FailureTold(obj: Members, kind: ErrorKind, message: string)
    requires kind != 0
    ensures var m := Failure(obj, kind, message);
      && "error" in m && m["error"].Object? && "result" !in m
      && m["error"].fields == if message == "" then map["code" := Number(200 + kind)]
                              else map["code" := Number(200 + kind), "message" := Text(message)]
  {
  }

  lemma CodesOfOne(m: Members)
    ensures CodesIn([m]) == CodeIn(m)
  {
    var ms: seq<Members> := [m];
    assert ms[1..] == [] && CodeIn(m) + [] == CodeIn(m);
  }

  lemma CodesOne(obj: Members, e: Event)
    ensures Codes(obj, [e]) ==
      match e
      case Percent(_, _, _) => []
      case CompileEnds(kind, _) => if kind == 0 then [] else [200 + kind]
      case UploadEnds(kind, _) => if kind == 0 then [0] else [200 + kind]
  {
    TalkOne(obj, e);
    SaidOnce(obj, e);
    if Said(obj, e) != [] {
      var m := Said(obj, e)[0];
      assert Said(obj, e) == [m];
      CodesOfOne(m);
      match e
      case Percent(_, _, _) => assert !IsOutcome(m);
      case CompileEnds(kind, message) => FailureCode(obj, kind, message);
      case UploadEnds(kind, message) =>
        if kind != 0 {
          FailureCode(obj, kind, message);
        } else {
          assert "error" !in m && m["result"] == Flag(true);
        }
    }
  }

  lemma CodesFew(obj: Members, events: seq<Event>)
    requires |events| <= 2
    ensures Codes(obj, events) ==
      (if |events| > 0 then Codes(obj, [events[0]]) else []) + if |events| > 1 then Codes(obj, [events[1]]) else []
  {
    if |events| == 1 {
      assert events == [events[0]];
    } else if |events| == 2 {
      assert events == [events[0]] + [events[1]];
      CodesJoin(obj, [events[0]], [events[1]]);
    }
  }

  lemma ToolCodes(obj: Members, t: Tool, fate: Fate)
    ensures Codes(obj, ToolEvents(t, fate)) == CrashCodes(fate, match t case Gpp => 213 case Gcc => 214 case Objcopy => 215)
  {
    var events := ToolEvents(t, fate);
    assert |events| <= 2;
    CodesFew(obj, events);
    if |events| > 0 { CodesOne(obj, events[0]); }
    if |events| > 1 { CodesOne(obj, events[1]); }
  }

  lemma {:induction false} PercentCodes(obj: Members, percents: seq<Exact>)
    ensures Codes(obj, PercentEvents(percents)) == []
  {
    if percents != [] {
      var first, rest := Percent(true, percents[0], "uploading.."), PercentEvents(percents[1..]);
      PercentCodes(obj, percents[1..]);
      CodesOne(obj, first);
      CodesJoin(obj, [first], rest);
    }
  }

  lemma UploadCoded(obj: Members, u: Upload)
    ensures Codes(obj, UploadEvents(u)) == UploadCodes(u)
  {
    match u
    case Launches(percents, fate) =>
      var front, ends := if fate.NotLaunched? then [] else PercentEvents(percents), UploaderEndEvents(fate);
      PercentCodes(obj, percents);
      CodesJoin(obj, front, ends);
      EndCoded(obj, fate);
      assert UploadCodes(u) == UploadCodes(Launches([], fate));
    case _ => CodesOne(obj, UploadEvents(u)[0]);
  }

  lemma EndCoded(obj: Members, fate: UploaderFate)
    ensures Codes(obj, UploaderEndEvents(fate)) == UploadCodes(Launches([], fate))
  {
    var ends := UploaderEndEvents(fate);
    CodesFew(obj, ends);
    if |ends| > 0 { CodesOne(obj, ends[0]); }
    if |ends| > 1 { CodesOne(obj, ends[1]); }
  }

  lemma CompileCoded(obj: Members, r: Run)
    requires r.toolchain && r.codeFile
    ensures Codes(obj, CompileEvents(r)) ==
      CrashCodes(r.gpp, 213)
      + if !GoesOn(r.gpp) then []
        else CrashCodes(r.gcc, 214) + if !GoesOn(r.gcc) then [] else CrashCodes(r.objcopy, 215)
  {
    var a, b, c := ToolEvents(Gpp, r.gpp), ToolEvents(Gcc, r.gcc), ToolEvents(Objcopy, r.objcopy);
    CompileCases(r);
    ToolCodes(obj, Gpp, r.gpp);
    ToolCodes(obj, Gcc, r.gcc);
    ToolCodes(obj, Objcopy, r.objcopy);
    CodesJoin(obj, a, b);
    CodesJoin(obj, a + b, c);
    Assoc(Codes(obj, a), Codes(obj, b), Codes(obj, c));
    assert Codes(obj, a) + [] == Codes(obj, a) && Codes(obj, b) + [] == Codes(obj, b);
  }

  /** For every fate of the processes, these and no other outcomes reach the client, in this order. */
  lemma OutcomeCodes(obj: Members, r: Run)
    ensures CodesIn(Talk(obj, RunEvents(r))) == ExpectedCodes(r)
  {
    var upload := if EndedNormally(r, Objcopy) then UploadEvents(r.upload) else [];
    CodesJoin(obj, CompileEvents(r), upload);
    assert Codes(obj, upload) == if EndedNormally(r, Objcopy) then UploadCodes(r.upload) else [] by {
      UploadCoded(obj, r.upload);
      assert Talk(obj, []) == [];
    }
    if !r.toolchain || !r.codeFile {
      CodesOne(obj, CompileEvents(r)[0]);
      assert CompileEvents(r) == [CompileEvents(r)[0]];
    } else {
      CompileCoded(obj, r);
      Nested(CrashCodes(r.gpp, 213), CrashCodes(r.gcc, 214), CrashCodes(r.objcopy, 215), Codes(obj, upload));
    }
  }

  lemma Nested(a: seq<int>, b: seq<int>, c: seq<int>, d: seq<int>)
    ensures (a + (b + c)) + d == a + (b + (c + d))
    ensures (a + (b + [])) + [] == a + (b + []) && (a + []) + [] == a + []
    ensures a + (b + c) + [] == a + (b + (c + []))
  {
    assert (a + (b + c)) + d == a + (b + (c + d));
  }

  predicate IsSuccess(m: Members) {
    "result" in m && m["result"] == Flag(true)
  }

  /** The client is told of success exactly if the last tool ended normally and the uploader returned with a clean log. */
  lemma SuccessExactlyWhen(obj: Members, r: Run)
    ensures (exists m :: m in Talk(obj, RunEvents(r)) && IsSuccess(m)) <==>
      EndedNormally(r, Objcopy) && r.upload.Launches? && r.upload.fate == Returned(Clean)
  {
    forall m | m in Talk(obj, RunEvents(r)) && IsSuccess(m)
      ensures UploadedCleanly(r)
    {
      SuccessMeansClean(obj, r, m);
    }
    if UploadedCleanly(r) {
      CleanMeansSuccess(obj, r);
    }
  }

  /** The upload came to a clean end. */
  predicate UploadedCleanly(r: Run) {
    EndedNormally(r, Objcopy) && r.upload.Launches? && r.upload.fate == Returned(Clean)
  }

  lemma SuccessMeansClean(obj: Members, r: Run, m: Members)
    requires m in Talk(obj, RunEvents(r)) && IsSuccess(m)
    ensures UploadedCleanly(r)
  {
    var talk := Talk(obj, RunEvents(r));
    var i :| 0 <= i < |talk| && talk[i] == m;
    assert IsAbout(obj, talk[i]) by {
      TalkIsAbout(obj, RunEvents(r));
    }
    assert "error" !in m && CodeIn(m) == [0];
    CodeAt(talk, i);
    OutcomeCodes(obj, r);
    ZeroExpected(r);
  }

  lemma ZeroExpected(r: Run)
    ensures 0 in ExpectedCodes(r) ==> UploadedCleanly(r)
  {
  }

  lemma CleanMeansSuccess(obj: Members, r: Run)
    requires UploadedCleanly(r)
    ensures exists m :: m in Talk(obj, RunEvents(r)) && IsSuccess(m)
  {
    var events := RunEvents(r);
    var n := |events| - 1;
    assert events[n] == UploadEnds(0, "") && events == events[..n] + [events[n]];
    TalkConcat(obj, events[..n], [events[n]]);
    TalkOne(obj, events[n]);
    var talk, last := Talk(obj, events), About(obj, "result", Flag(true));
    assert talk[|talk| - 1] == last && IsSuccess(last);
  }

  lemma {:induction false} CodeAt(talk: seq<Members>, i: nat)
    requires i < |talk|
    ensures forall c :: c in CodeIn(talk[i]) ==> c in CodesIn(talk)
  {
    if i > 0 {
      CodeAt(talk[1..], i - 1);
    }
  }

  // ------------------------------------------------------- what happens otherwise

  /** A crash of the first tool is told twice, and the compilation goes on behind it. */
  lemma CrashIsToldTwice(r: Run)
    requires r.toolchain && r.codeFile && r.gpp.Ends? && r.gpp.how.Crashed? && !r.gpp.late
    ensures var events := RunEvents(r);
      && |events| >= 2 && IsEnd(events[0]) && IsEnd(events[1]) && events[1].kind == 13
      && (r.gcc.Ends? && r.gcc.how.Normal? ==> |events| >= 3 && events[2].Percent? && events[2].percent == 60)
  {
    var gpp, gcc := EventsOf(r, Gpp), EventsOf(r, Gcc);
    assert |gpp| == 2 && IsEnd(gpp[0]) && IsEnd(gpp[1]) && gpp[1].kind == 13;
    assert r.gcc.Ends? && r.gcc.how.Normal? ==> |gcc| == 1 && gcc[0].Percent? && gcc[0].percent == 60;
    var later := EventsOf(r, Objcopy) + if EndedNormally(r, Objcopy) then UploadEvents(r.upload) else [];
    assert RunEvents(r) == gpp + gcc + later;
  }

  /** Such a request has two outcomes, and a progress message is its last. */
  lemma CrashReached(obj: Members)
    ensures exists r: Run :: Count(obj, RunEvents(r)) == 2 && |RunEvents(r)| == 3 && RunEvents(r)[2].Percent?
  {
    var r := Run(true, true, Ends(Crashed("Process crashed"), false), Ends(Normal, true), Hangs, NoType);
    OutcomesCounted(obj, r);
    CrashIsToldTwice(r);
    assert |EventsOf(r, Gpp)| == 2 && |EventsOf(r, Gcc)| == 1 && EventsOf(r, Objcopy) == [];
  }

  /** One of the first two tools that takes more than ten seconds and then ends normally is the end of it: no outcome. */
  lemma OverrunIsNeverAnswered(obj: Members, r: Run)
    requires r.toolchain && r.codeFile
    requires r.gpp == Ends(Normal, true) || (r.gpp == Ends(Normal, false) && r.gcc == Ends(Normal, true))
    ensures Count(obj, RunEvents(r)) == 0
  {
    NeverAnsweredExactlyWhen(obj, r);
    assert Started(r, Gpp) && (GoesOn(r.gpp) ==> Started(r, Gcc));
  }

  /** The last tool may overrun: its end still starts the upload. */
  lemma LateLastToolIsAnswered(obj: Members, r: Run)
    requires r.toolchain && r.codeFile && r.gpp == r.gcc == Ends(Normal, false) && r.objcopy == Ends(Normal, true)
    requires UploadConcludes(r.upload)
    ensures OneOutcomeLast(Talk(obj, RunEvents(r)))
  {
    OneOutcomeLastExactlyWhen(obj, r);
  }

  // -------------------------------------------------------------------- progress

  function TotalOf(e: Event): seq<real> {
    if !e.Percent? then []
    else [if e.uploading then Progress.UploadTotal(e.percent) else Progress.CompileTotal(e.percent)]
  }

  /** The totals reported, in order. */
  function TotalsOf(events: seq<Event>): seq<real> {
    if events == [] then [] else TotalOf(events[0]) + TotalsOf(events[1..])
  }

  lemma {:induction false} TotalsConcat(a: seq<Event>, b: seq<Event>)
    ensures TotalsOf(a + b) == TotalsOf(a) + TotalsOf(b)
  {
    if a == [] {
      assert a + b == b;
    } else {
      TotalsConcat(a[1..], b);
      assert (a + b)[0] == a[0] && (a + b)[1..] == a[1..] + b;
      Assoc(TotalOf(a[0]), TotalsOf(a[1..]), TotalsOf(b));
    }
  }

  lemma {:induction false} PercentTotals(percents: seq<Exact>)
    ensures TotalsOf(PercentEvents(percents))
      == seq(|percents|, i requires 0 <= i < |percents| => Progress.UploadTotal(percents[i]))
  {
    if percents != [] {
      PercentTotals(percents[1..]);
    }
  }

  function StageOf(r: Run, t: Tool): seq<int> {
    if EndedNormally(r, t) then [Percentage(t)] else []
  }

  lemma ToolTotals(r: Run, t: Tool)
    ensures TotalsOf(EventsOf(r, t)) == Progress.Totals(StageOf(r, t), [])
  {
    var events := EventsOf(r, t);
    assert |events| <= 2;
    TotalsFew(events);
  }

  lemma TotalsFew(events: seq<Event>)
    requires |events| <= 2
    ensures TotalsOf(events) ==
      (if |events| > 0 then TotalOf(events[0]) else []) + if |events| > 1 then TotalOf(events[1]) else []
  {
    if |events| > 0 {
      var rest := events[1..];
      if |rest| > 0 {
        assert rest[0] == events[1] && rest[1..] == [];
        assert TotalsOf(rest) == TotalOf(events[1]) + [];
      }
    }
  }

  lemma UploadTotals(u: Upload)
    ensures TotalsOf(UploadEvents(u)) ==
      if u.Launches? && !u.fate.NotLaunched? then TotalsOf(PercentEvents(u.percents)) else []
  {
    match u
    case Launches(percents, fate) =>
      var front, ends := if fate.NotLaunched? then [] else PercentEvents(percents), UploaderEndEvents(fate);
      TotalsConcat(front, ends);
      TotalsFew(ends);
    case _ => TotalsFew(UploadEvents(u));
  }

  /** What the uploader reports in this run. */
  function Uploaded(r: Run): seq<Exact> {
    if EndedNormally(r, Objcopy) && r.upload.Launches? && !r.upload.fate.NotLaunched? then r.upload.percents else []
  }

  function Stages(r: Run): seq<int> {
    Progress.CompileStages(EndedNormally(r, Gpp), EndedNormally(r, Gcc), EndedNormally(r, Objcopy))
  }

  lemma CompileTotals(r: Run)
    ensures TotalsOf(CompileEvents(r)) == Progress.Totals(Stages(r), [])
  {
    if !r.toolchain || !r.codeFile {
      TotalsFew(CompileEvents(r));
    } else {
      ToolsTotals(r);
      assert Stages(r) == StageOf(r, Gpp) + StageOf(r, Gcc) + StageOf(r, Objcopy);
    }
  }

  lemma ToolsTotals(r: Run)
    ensures TotalsOf(EventsOf(r, Gpp) + EventsOf(r, Gcc) + EventsOf(r, Objcopy))
      == Progress.Totals(StageOf(r, Gpp) + StageOf(r, Gcc) + StageOf(r, Objcopy), [])
  {
    var gpp, gcc, objcopy := EventsOf(r, Gpp), EventsOf(r, Gcc), EventsOf(r, Objcopy);
    var a, b, c := StageOf(r, Gpp), StageOf(r, Gcc), StageOf(r, Objcopy);
    assert TotalsOf(gpp) == Progress.Totals(a, []) by { ToolTotals(r, Gpp); }
    assert TotalsOf(gcc) == Progress.Totals(b, []) by { ToolTotals(r, Gcc); }
    assert TotalsOf(objcopy) == Progress.Totals(c, []) by { ToolTotals(r, Objcopy); }
    TotalsConcat(gpp, gcc);
    TotalsConcat(gpp + gcc, objcopy);
    Progress.TotalsJoin(a, b, []);
    Progress.TotalsJoin(a + b, c, []);
  }

  /** The total a message carries, if any. */
  function TotalIn(m: Members): seq<real> {
    if "result" in m && m["result"].Object? && "totalProgress" in m["result"].fields
       && m["result"].fields["totalProgress"].Decimal?
    then [m["result"].fields["totalProgress"].r] else []
  }

  function TotalsIn(talk: seq<Members>): seq<real> {
    if talk == [] then [] else TotalIn(talk[0]) + TotalsIn(talk[1..])
  }

  lemma {:induction false} TotalsInConcat(a: seq<Members>, b: seq<Members>)
    ensures TotalsIn(a + b) == TotalsIn(a) + TotalsIn(b)
  {
    if a == [] {
      assert a + b == b;
    } else {
      TotalsInConcat(a[1..], b);
      assert (a + b)[0] == a[0] && (a + b)[1..] == a[1..] + b;
      Assoc(TotalIn(a[0]), TotalsIn(a[1..]), TotalsIn(b));
    }
  }

  lemma TotalSaid(obj: Members, e: Event)
    ensures TotalsIn(Said(obj, e)) == TotalOf(e)
  {
    SaidOnce(obj, e);
    var said := Said(obj, e);
    if said != [] {
      assert said == [said[0]] && said[1..] == [];
      assert TotalsIn(said) == TotalIn(said[0]) + [];
      match e
      case Percent(uploading, percent, message) =>
        assert said[0]["result"] == Object(ProcessObj(uploading, percent, message));
      case CompileEnds(kind, message) => assert "result" !in said[0];
      case UploadEnds(kind, message) =>
        assert if kind == 0 then said[0]["result"] == Flag(true) else "result" !in said[0];
    }
  }

  /** The totals the messages carry are those of the events. */
  lemma {:induction false} TotalsSaid(obj: Members, events: seq<Event>)
    ensures TotalsIn(Talk(obj, events)) == TotalsOf(events)
  {
    if events != [] {
      TotalsSaid(obj, events[1..]);
      TotalSaid(obj, events[0]);
      TotalsInConcat(Said(obj, events[0]), Talk(obj, events[1..]));
    }
  }

  /** A progress message names its stage, its percentage and its total. */
  lemma ProgressMessage(obj: Members, uploading: bool, percent: Exact, message: string)
    ensures var said := Said(obj, Percent(uploading, percent, message));
      && |said| == 1 && "result" in said[0] && said[0]["result"].Object?
      && said[0]["result"].fields == map[
           "type" := Text(if uploading then "Arduino Upload" else "Arduino Compile"),
           "totalProgress" := Decimal(if !uploading then percent as real * 0.4
                                      else if percent as real * 0.6 + 40.0 > 98.0 then 100.0
                                      else percent as real * 0.6 + 40.0),
           "progress" := Number(percent), "message" := Text(message)]
  {
  }

  /** However the processes end, the totals sent for one request never decrease and stay in 0..100. */
  lemma RunTotalsNeverDecrease(obj: Members, r: Run, carried: int, chunks: seq<nat>)
    requires Uploaded(r) != [] ==> Uploaded(r) == Progress.Reported(carried, -1, chunks)
    ensures var t := TotalsIn(Talk(obj, RunEvents(r)));
      (forall i :: 0 <= i < |t| ==> 0.0 <= t[i] <= 100.0)
      && (forall i, j :: 0 <= i < j < |t| ==> t[i] <= t[j])
  {
    TotalsSaid(obj, RunEvents(r));
    RunTotals(r);
    assert Progress.Rising(Uploaded(r), -51) by {
      Progress.ReportedIncreases(carried, -1, chunks);
    }
    Progress.StagesRise(EndedNormally(r, Gpp), EndedNormally(r, Gcc), EndedNormally(r, Objcopy));
    Progress.TotalsRise(Stages(r), Uploaded(r));
  }

  lemma RunTotals(r: Run)
    ensures TotalsOf(RunEvents(r)) == Progress.Totals(Stages(r), Uploaded(r))
  {
    var upload := if EndedNormally(r, Objcopy) then UploadEvents(r.upload) else [];
    assert TotalsOf(upload) == Progress.Totals([], Uploaded(r)) by {
      UploadTotals(r.upload);
      PercentTotals(Uploaded(r));
    }
    CompileTotals(r);
    TotalsConcat(CompileEvents(r), upload);
    Progress.TotalsJoin(Stages(r), [], Uploaded(r));
  }

  /** What a tool signals that was still running when the compiler gave up waiting. */
  function LaterEvents(r: Run, left: seq<Tool>): seq<Event> {
    if left == [] then [] else ToolEvents(left[0], FateOf(r, left[0]))
  }

  predicate StillRunning(r: Run, left: seq<Tool>) {
    && |left| <= 1
    && (left != [] ==> Started(r, left[0]) && !FateOf(r, left[0]).NotStarted? && !GoesOn(FateOf(r, left[0])))
  }

  lemma CompileCases(r: Run)
    requires r.toolchain && r.codeFile
    ensures CompileEvents(r) ==
      if !GoesOn(r.gpp) then ToolEvents(Gpp, r.gpp)
      else if !GoesOn(r.gcc) then ToolEvents(Gpp, r.gpp) + ToolEvents(Gcc, r.gcc)
      else ToolEvents(Gpp, r.gpp) + ToolEvents(Gcc, r.gcc) + ToolEvents(Objcopy, r.objcopy)
  {
    var a, b, c := EventsOf(r, Gpp), EventsOf(r, Gcc), EventsOf(r, Objcopy);
    assert c == [] ==> a + b + c == a + b;
    assert b == [] ==> a + b == a;
  }

  // ---------------------------------------------------------- the objects themselves

  /** The compiler, whose three processes signal as their fates have it. */
  class AvrCompiler {
    var emitted: seq<Event>

    constructor ()
      ensures emitted == []
    {
      emitted := [];
    }

    method OnProcessFinished(t: Tool, how: Manner)
      modifies this
      ensures emitted == old(emitted) + FinishedEvents(t, how)
    {
      match how {
        case Normal =>
          emitted := emitted + [Percent(false, Percentage(t), Name(t) + " finieshed OK")];
          if t.Objcopy? {
            emitted := emitted + [CompileEnds(0, "")];
          }
        case Crashed(why) =>
          emitted := emitted + [CompileEnds(FailKind(t), Name(t) + " compile Error:" + Name(t) + ":" + why)];
      }
    }

    method OnErrorOccurred(crashed: bool)
      modifies this
      ensures emitted == old(emitted)
        + [CompileEnds(COMPILER_CRASH, if crashed then "compile:Error:1" else "compile:Error:0")]
    {
      emitted := emitted + [CompileEnds(COMPILER_CRASH, if crashed then "compile:Error:1" else "compile:Error:0")];
    }

    /** What the process object signals when the process is over or cannot be started. */
    method Signal(t: Tool, fate: Fate)
      modifies this
      ensures emitted == old(emitted) + ToolEvents(t, fate)
    {
      match fate {
        case NotStarted => OnErrorOccurred(false);
        case Ends(how, _) =>
          if how.Crashed? {
            OnErrorOccurred(true);
            Assoc(old(emitted), [CompileEnds(COMPILER_CRASH, "compile:Error:1")], FinishedEvents(t, how));
          }
          OnProcessFinished(t, how);
        case Hangs =>
      }
    }

    /** Starts a tool and waits ten seconds for it, handling what it signals; `left` if it still runs then. */
    method StartAndWait(r: Run, t: Tool) returns (ok: bool, left: seq<Tool>)
      requires Started(r, t)
      modifies this
      ensures ok == GoesOn(FateOf(r, t)) && (ok ==> left == []) && StillRunning(r, left)
      ensures emitted + LaterEvents(r, left) == old(emitted) + ToolEvents(t, FateOf(r, t))
    {
      var fate := FateOf(r, t);
      left := if fate.Hangs? || (fate.Ends? && fate.late) then [t] else [];
      if left == [] {
        Signal(t, fate);
        assert emitted + [] == emitted;
      }
      ok := fate.Ends? && !fate.late;
    }

    /** Returns the tool still running when it gave up waiting, if any. */
    method StartCompile(r: Run) returns (left: seq<Tool>)
      modifies this
      ensures StillRunning(r, left)
      ensures emitted + LaterEvents(r, left) == old(emitted) + CompileEvents(r)
    {
      left := [];
      if !r.toolchain {
        emitted := emitted + [CompileEnds(TOOL_NOTFOUND, "Arduino-tools not found.")];
        assert emitted + [] == emitted;
        return;
      }
      if !r.codeFile {
        emitted := emitted + [CompileEnds(CODEFILE_NOTFOUND, "code.cpp file is not exist.")];
        assert emitted + [] == emitted;
        return;
      }
      left := RunTools(r);
    }

    method RunTools(r: Run) returns (left: seq<Tool>)
      requires r.toolchain && r.codeFile
      modifies this
      ensures StillRunning(r, left)
      ensures emitted + LaterEvents(r, left) == old(emitted) + CompileEvents(r)
    {
      CompileCases(r);
      ghost var gpp, gcc, objcopy := ToolEvents(Gpp, r.gpp), ToolEvents(Gcc, r.gcc), ToolEvents(Objcopy, r.objcopy);
      var ok;
      ok, left := StartAndWait(r, Gpp);
      if !ok {
        return;
      }
      assert emitted + [] == emitted;
      ok, left := StartAndWait(r, Gcc);
      Assoc(old(emitted), gpp, gcc);
      if !ok {
        return;
      }
      assert emitted + [] == emitted;
      ok, left := StartAndWait(r, Objcopy);
      Assoc(old(emitted), gpp + gcc, objcopy);
    }

    /** A compilation with what the event loop hears of later. */
    method Compile(r: Run)
      modifies this
      ensures emitted == old(emitted) + CompileEvents(r)
    {
      var left := StartCompile(r);
      if left != [] {
        Signal(left[0], FateOf(r, left[0]));
      } else {
        assert emitted + [] == emitted;
      }
    }
  }

  class AvrUploader {
    var emitted: seq<Event>

    constructor ()
      ensures emitted == []
    {
      emitted := [];
    }

    /** The checks before the process is started. */
    method StartUpload(u: Upload) returns (launched: bool)
      modifies this
      ensures launched == u.Launches?
      ensures emitted == old(emitted) + if launched then [] else UploadEvents(u)
    {
      match u {
        case NoHexFile => emitted := emitted + [UploadEnds(HEX_FILE_NOTFOUND, "out.hex file is not exist.")];
        case NoDevice => emitted := emitted + [UploadEnds(NO_AVAILABLE_DEVICE, "no available device.")];
        case NoType => emitted := emitted + [UploadEnds(NO_TYPE, "Do not specify Arduino Type.")];
        case Launches(_, _) =>
      }
      launched := u.Launches?;
    }

    method OnProcessFinished(crashed: bool, why: string, hasError: bool, hasTimeout: bool)
      modifies this
      ensures emitted == old(emitted) +
        if crashed then [UploadEnds(UPLOADER_CRASH, "upload:" + why)]
        else UploaderEndEvents(Returned(if hasError then HasError else if hasTimeout then HasTimeout else Clean))
    {
      if crashed {
        emitted := emitted + [UploadEnds(UPLOADER_CRASH, "upload:" + why)];
      } else if hasError {
        emitted := emitted + [UploadEnds(UPLOAD_UNKNOWN, "error, please read log.")];
      } else if hasTimeout {
        emitted := emitted + [UploadEnds(UPLOAD_TIMEOUT, "upload process timeout.")];
      } else {
        emitted := emitted + [UploadEnds(0, "")];
      }
    }

    method OnErrorOccurred(crashed: bool)
      modifies this
      ensures emitted == old(emitted)
        + [UploadEnds(UPLOADER_CRASH, if crashed then "DAvrUploader: upload ERROR:1" else "DAvrUploader: upload ERROR:0")]
    {
      emitted := emitted
        + [UploadEnds(UPLOADER_CRASH, if crashed then "DAvrUploader: upload ERROR:1" else "DAvrUploader: upload ERROR:0")];
    }

    /** How the process ends. */
    method Signal(fate: UploaderFate)
      modifies this
      ensures emitted == old(emitted) + UploaderEndEvents(fate)
    {
      match fate {
        case NotLaunched => OnErrorOccurred(false);
        case Died(why) =>
          OnErrorOccurred(true);
          OnProcessFinished(true, why, false, false);
        case Returned(log) => OnProcessFinished(false, "", log.HasError?, log.HasTimeout?);
        case NeverEnds =>
      }
    }
  }
}
