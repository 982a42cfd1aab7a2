/**
 Progress messages of one Arduino request: three compile stages, then the upload, whose
 marks arrive in chunks and pass a throttle that keeps its value from earlier uploads.
 */
module ArduinoProgress {

  /** Throttle value afterwards, and whether a message is sent. */
  function Throttle(compareValue: int, value: int): (int, bool) {
    if compareValue != 50 && value <= 52 then (50, false)
    else if value >= compareValue then (compareValue + 10, true)
    else (compareValue, false)
  }

  /** The percentages an upload reports, from throttle `c` and mark count `v` on. */
  function Reported(c: int, v: int, chunks: seq<nat>): seq<int>
    decreases |chunks|
  {
    if chunks == [] then []
    else if chunks[0] == 0 then Reported(c, v, chunks[1..])
    else
      var value := v + chunks[0];
      var (next, sent) := Throttle(c, value);
      (if sent then [value - 50] else []) + Reported(next, value, chunks[1..])
  }

  function Marks(chunks: seq<nat>): nat {
    if chunks == [] then 0 else chunks[0] + Marks(chunks[1..])
  }

  /** The stages a compilation reports, each if its tool ended normally; one that crashed is skipped. */
  function CompileStages(gpp: bool, gcc: bool, objcopy: bool): seq<int> {
    (if gpp then [30] else []) + (if gcc then [60] else []) + (if objcopy then [100] else [])
  }

  function CompileTotal(percent: int): real {
    percent as real * 0.4
  }

  function UploadTotal(percent: int): real {
    var total := percent as real * 0.6 + 40.0;
    if total > 98.0 then 100.0 else total
  }

  function Totals(stages: seq<int>, uploads: seq<int>): seq<real> {
    seq(|stages|, i requires 0 <= i < |stages| => CompileTotal(stages[i]))
    + seq(|uploads|, i requires 0 <= i < |uploads| => UploadTotal(uploads[i]))
  }

  /** All the totals sent for one request; the upload starts only after the last stage. */
  function RequestTotals(gpp: bool, gcc: bool, objcopy: bool, carried: int, chunks: seq<nat>): seq<real> {
    Totals(CompileStages(gpp, gcc, objcopy), if objcopy then Reported(carried, -1, chunks) else [])
  }

  // -------------------------------------------------------------------- guarantees

  /** Strictly increasing, not negative, and above `low`. */
  ghost predicate Rising(r: seq<int>, low: int) {
    && (forall i :: 0 <= i < |r| ==> r[i] >= 0 && r[i] > low)
    && (forall i, j :: 0 <= i < j < |r| ==> r[i] < r[j])
  }

  lemma {:induction false} ReportedIncreases(c: int, v: int, chunks: seq<nat>)
    ensures Rising(Reported(c, v, chunks), v - 50)
    decreases |chunks|
  {
    if chunks != [] {
      var value := v + chunks[0];
      if chunks[0] == 0 {
        ReportedIncreases(c, v, chunks[1..]);
        assert Reported(c, v, chunks) == Reported(c, v, chunks[1..]);
      } else {
        var (next, sent) := Throttle(c, value);
        ReportedIncreases(next, value, chunks[1..]);
        var rest := Reported(next, value, chunks[1..]);
        assert sent ==> value >= 50;
        RisingStep(value, v, sent, rest);
      }
    }
  }

  lemma RisingStep(value: int, v: int, sent: bool, rest: seq<int>)
    requires Rising(rest, value - 50) && value > v && (sent ==> value >= 50)
    ensures Rising((if sent then [value - 50] else []) + rest, v - 50)
  {
    var front := if sent then [value - 50] else [];
    var r := front + rest;
    assert forall i :: |front| <= i < |r| ==> r[i] == rest[i - |front|];
  }

  /**
   Whichever stages are reported, whatever throttle value was left behind and however marks
   are chunked: never back, never outside 0..100.
   */
  lemma TotalsNeverDecrease(gpp: bool, gcc: bool, objcopy: bool, carried: int, chunks: seq<nat>)
    ensures var t := RequestTotals(gpp, gcc, objcopy, carried, chunks);
      (forall i :: 0 <= i < |t| ==> 0.0 <= t[i] <= 100.0)
      && (forall i, j :: 0 <= i < j < |t| ==> t[i] <= t[j])
  {
    var stages := CompileStages(gpp, gcc, objcopy);
    var uploads := if objcopy then Reported(carried, -1, chunks) else [];
    ReportedIncreases(carried, -1, chunks);
    assert Rising(uploads, -51);
    StagesRise(gpp, gcc, objcopy);
    TotalsRise(stages, uploads);
  }

  lemma StagesRise(gpp: bool, gcc: bool, objcopy: bool)
    ensures var stages := CompileStages(gpp, gcc, objcopy);
      Rising(stages, 0) && forall i :: 0 <= i < |stages| ==> stages[i] <= 100
  {
  }

  lemma TotalsJoin(a: seq<int>, b: seq<int>, uploads: seq<int>)
    ensures Totals(a + b, []) == Totals(a, []) + Totals(b, [])
    ensures Totals(a, uploads) == Totals(a, []) + Totals([], uploads)
  {
  }

  lemma TotalsRise(stages: seq<int>, uploads: seq<int>)
    requires Rising(stages, 0) && Rising(uploads, -51)
    requires forall i :: 0 <= i < |stages| ==> stages[i] <= 100
    ensures var t := Totals(stages, uploads);
      (forall i :: 0 <= i < |t| ==> 0.0 <= t[i] <= 100.0)
      && (forall i, j :: 0 <= i < j < |t| ==> t[i] <= t[j])
  {
    var t, n := Totals(stages, uploads), |stages|;
    forall i | 0 <= i < |t|
      ensures if i < n then 0.0 <= t[i] <= 40.0 else 40.0 <= t[i] <= 100.0
    {
      if i < n {
        assert stages[i] as real <= 100.0;
      }
    }
    forall i, j | 0 <= i < j < |t|
      ensures t[i] <= t[j]
    {
      if n <= i {
        assert uploads[i - n] < uploads[j - n];
      } else if j < n {
        assert stages[i] < stages[j];
      }
    }
  }

  /**
   Bookkeeping of the throttle: `sent` messages so far with `v` marks counted. Either the
   throttle was never reset, or it restarted at 50 with at most one message behind it.
   */
  ghost predicate Paced(carried: int, c: int, v: int, sent: nat) {
    && (sent >= 1 ==> v >= 50) && (sent >= 2 ==> v >= 52)
    && (|| (&& c == carried + 10 * sent && (sent >= 1 ==> v >= c - 10)
            && (sent >= 2 || (sent == 1 && carried != 50) ==> v >= 53))
        || (&& c >= 50 && 10 * sent <= c - 40 && (c == 50 || v >= c - 10)
            && (sent >= 1 && c == 50 ==> v >= 51)))
  }

  lemma {:induction false} PacedCount(carried: int, c: int, v: int, sent: nat, chunks: seq<nat>)
    requires carried >= 0 && v >= -1 && Paced(carried, c, v, sent)
    ensures 10 * (sent + |Reported(c, v, chunks)|) <= v + Marks(chunks) + 11
    decreases |chunks|
  {
    if chunks != [] {
      var value := v + chunks[0];
      if chunks[0] == 0 {
        PacedCount(carried, c, v, sent, chunks[1..]);
      } else {
        var (next, isSent) := Throttle(c, value);
        PacedCount(carried, next, value, if isSent then sent + 1 else sent, chunks[1..]);
      }
    }
  }

  /** An upload sends at most a tenth of the marks it read, and one message more. */
  lemma MessagesBounded(carried: int, chunks: seq<nat>)
    requires carried >= 0
    ensures 10 * |Reported(carried, -1, chunks)| <= Marks(chunks) + 10
  {
    PacedCount(carried, carried, -1, 0, chunks);
  }

  /**
   `r` keeps up with the counts: after one reported at `w`, every count above 52 that is ten
   or more past the one last reported is reported itself.
   */
  ghost predicate KeepsUp(r: seq<int>, w: int, v: int, chunks: seq<nat>)
    decreases |chunks|
  {
    if chunks == [] then r == []
    else
      var value := v + chunks[0];
      if chunks[0] == 0 then KeepsUp(r, w, v, chunks[1..])
      else if r != [] && r[0] == value - 50 then KeepsUp(r[1..], value, value, chunks[1..])
      else (value < w + 10 || value <= 52) && KeepsUp(r, w, value, chunks[1..])
  }

  /** Once a percentage was reported, the next ones follow at least every ten marks, as far as chunks allow. */
  lemma {:induction false} ReportsKeepUp(c: int, w: int, v: int, chunks: seq<nat>)
    requires c <= w + 10 && w >= 50
    ensures KeepsUp(Reported(c, v, chunks), w, v, chunks)
    decreases |chunks|
  {
    if chunks != [] {
      var value := v + chunks[0];
      if chunks[0] == 0 {
        ReportsKeepUp(c, w, v, chunks[1..]);
      } else {
        var (next, sent) := Throttle(c, value);
        if sent {
          ReportsKeepUp(next, value, value, chunks[1..]);
          var rest := Reported(next, value, chunks[1..]);
          assert ([value - 50] + rest)[1..] == rest;
        } else {
          ReportsKeepUp(next, w, value, chunks[1..]);
          NotReportedNow(next, value, chunks[1..]);
          assert Reported(c, v, chunks) == Reported(next, value, chunks[1..]);
        }
      }
    }
  }

  /** What is reported later is a later percentage. */
  lemma NotReportedNow(c: int, v: int, chunks: seq<nat>)
    ensures Reported(c, v, chunks) != [] ==> Reported(c, v, chunks)[0] != v - 50
  {
    ReportedIncreases(c, v, chunks);
  }

  /**
   An upload that reports nothing at all ended at 52 marks at the most, or below the
   throttle value left behind by the upload before.
   */
  lemma {:induction false} SilentOnlyBelow(c: int, v: int, chunks: seq<nat>)
    requires Reported(c, v, chunks) == [] && Marks(chunks) > 0
    ensures v + Marks(chunks) <= 52 || v + Marks(chunks) < c
    decreases |chunks|
  {
    var value := v + chunks[0];
    if chunks[0] == 0 {
      SilentOnlyBelow(c, v, chunks[1..]);
    } else {
      var (next, sent) := Throttle(c, value);
      if Marks(chunks[1..]) > 0 {
        SilentOnlyBelow(next, value, chunks[1..]);
      }
    }
  }

  /** Mark by mark and with the throttle at rest, an upload reports 0, 2, 10, 20 and so on to 100. */
  lemma TensReported()
    ensures Throttle(50, 50) == (60, true) && Throttle(60, 51) == (50, false) && Throttle(50, 52) == (60, true)
    ensures forall n :: 6 <= n <= 15 ==> Throttle(10 * n, 10 * n) == (10 * n + 10, true)
    ensures forall n, v :: 6 <= n <= 15 && 52 < v < 10 * n ==> Throttle(10 * n, v) == (10 * n, false)
  {
  }

  // ------------------------------------------------------------- the object itself

  class Uploader {
    var percent: int
    var compareValue: int        // static in the program: survives every upload
    var emitted: seq<int>

    constructor ()
      ensures compareValue == 0 && emitted == []
    {
      percent, compareValue, emitted := 0, 0, [];
    }

    method OnStarted()
      modifies this`percent
      ensures percent == -1
    {
      percent := -1;
    }

    method HandlePercentValue(value: int)
      modifies this`compareValue, this`emitted
      ensures compareValue == Throttle(old(compareValue), value).0
      ensures emitted == old(emitted) + if Throttle(old(compareValue), value).1 then [value - 50] else []
    {
      if compareValue != 50 && value <= 52 {
        compareValue := 50;
      } else if value >= compareValue {
        emitted := emitted + [value - 50];
        compareValue := compareValue + 10;
      }
    }

    method OnReadyRead(marks: nat)
      modifies this
      ensures percent == old(percent) + marks
      ensures emitted == old(emitted) + Reported(old(compareValue), old(percent), [marks])
      ensures compareValue == if marks == 0 then old(compareValue)
                              else Throttle(old(compareValue), old(percent) + marks).0
    {
      assert [marks][1..] == [];
      if marks > 0 {
        percent := percent + marks;
        HandlePercentValue(percent);
      }
    }

    /** One upload: whatever the chunks, exactly the specified messages. */
    method Upload(chunks: seq<nat>)
      modifies this
      ensures emitted == old(emitted) + Reported(old(compareValue), -1, chunks)
    {
      OnStarted();
      var i := 0;
      assert chunks[0..] == chunks;
      while i < |chunks|
        invariant 0 <= i <= |chunks|
        invariant emitted + Reported(compareValue, percent, chunks[i..])
                  == old(emitted) + Reported(old(compareValue), -1, chunks)
      {
        assert chunks[i..][1..] == chunks[i + 1..] && [chunks[i]][1..] == [];
        OnReadyRead(chunks[i]);
        i := i + 1;
      }
    }
  }
}
