/**
 The byte check that decides whether a UDP payload is shown as text: a loop that counts
 down continuation bytes, against the grammar of the texts it accepts.
 */
module Utf8Check {
  type Byte = b: int | 0 <= b < 256

  // ---------------------------------------------------------------------- grammar

  predicate IsContinuation(b: Byte) {
    0x80 <= b <= 0xBF
  }

  /**
   The length of the unit a byte starts; 0 for a byte that starts none. 0xFE and 0xFF
   are not in the six-byte range and fall into the five-byte one.
   */
  function UnitLength(b: Byte): nat {
    if b < 0x80 then 1
    else if b < 0xC0 then 0
    else if b < 0xE0 then 2
    else if b < 0xF0 then 3
    else if b < 0xF8 then 4
    else if b == 0xFC || b == 0xFD then 6
    else 5
  }

  /** How many one bits a byte begins with. */
  function LeadingOnes(b: Byte): nat {
    if b < 128 then 0 else 1 + LeadingOnesBelow(b - 128, 64)
  }

  function LeadingOnesBelow(b: Byte, bit: nat): nat
    decreases bit
  {
    if bit == 0 || b < bit then 0 else 1 + LeadingOnesBelow(b - bit, bit / 2)
  }

  /**
   A unit is as long as its lead byte has leading ones, one byte if there are none; a byte
   with a single one continues a unit; seven or eight of them count as five.
   */
  lemma UnitLengthIsLeadingOnes(b: Byte)
    ensures LeadingOnes(b) == 0 ==> UnitLength(b) == 1
    ensures LeadingOnes(b) == 1 <==> IsContinuation(b)
    ensures LeadingOnes(b) == 1 ==> UnitLength(b) == 0
    ensures 2 <= LeadingOnes(b) <= 6 ==> UnitLength(b) == LeadingOnes(b)
    ensures LeadingOnes(b) >= 7 ==> UnitLength(b) == 5
  {
    var rest := b - if b < 128 then 0 else 128;
    assert b < 128 || LeadingOnes(b) == 1 + LeadingOnesBelow(rest, 64);
    BelowUnfolds(rest);
  }

  lemma BelowUnfolds(b: Byte)
    requires b < 128
    ensures LeadingOnesBelow(b, 64) ==
      if b < 64 then 0 else if b < 96 then 1 else if b < 112 then 2 else if b < 120 then 3
      else if b < 124 then 4 else if b < 126 then 5 else if b < 127 then 6 else 7
  {
    if b >= 64 {
      assert LeadingOnesBelow(b, 64) == 1 + LeadingOnesBelow(b - 64, 32);
      if b >= 96 {
        assert LeadingOnesBelow(b - 64, 32) == 1 + LeadingOnesBelow(b - 96, 16);
        if b >= 112 {
          assert LeadingOnesBelow(b - 96, 16) == 1 + LeadingOnesBelow(b - 112, 8);
          if b >= 120 {
            assert LeadingOnesBelow(b - 112, 8) == 1 + LeadingOnesBelow(b - 120, 4);
          }
        }
      }
    }
  }

  /** One unit: an ASCII byte, or a lead byte with its continuations. */
  predicate IsUnit(u: seq<Byte>) {
    && u != [] && |u| == UnitLength(u[0])
    && forall i :: 1 <= i < |u| ==> IsContinuation(u[i])
  }

  function Flatten(units: seq<seq<Byte>>): seq<Byte> {
    if units == [] then [] else units[0] + Flatten(units[1..])
  }

  ghost predicate IsParse(units: seq<seq<Byte>>, s: seq<Byte>) {
    (forall i :: 0 <= i < |units| ==> IsUnit(units[i])) && Flatten(units) == s
  }

  /** The texts of the grammar: concatenations of units. */
  ghost predicate IsText(s: seq<Byte>) {
    exists units :: IsParse(units, s)
  }

  // ---------------------------------------------------------------------- machine

  /** `s` read with `need` continuations still to come. */
  predicate Accepts(s: seq<Byte>, need: nat) {
    if s == [] then need == 0
    else if need > 0 then IsContinuation(s[0]) && Accepts(s[1..], need - 1)
    else UnitLength(s[0]) > 0 && Accepts(s[1..], UnitLength(s[0]) - 1)
  }

  /** Reading `need` continuations first is reading the rest afresh. */
  lemma {:induction false} AcceptsAfter(s: seq<Byte>, need: nat)
    ensures Accepts(s, need) <==>
      |s| >= need && (forall i :: 0 <= i < need ==> IsContinuation(s[i])) && Accepts(s[need..], 0)
  {
    if s != [] && need > 0 {
      AcceptsAfter(s[1..], need - 1);
      if |s| >= need {
        assert s[1..][need - 1..] == s[need..];
        assert forall i :: 1 <= i < need ==> s[1..][i - 1] == s[i];
        assert forall i :: 0 <= i < need - 1 ==> s[1..][i] == s[i + 1];
      }
    } else if need == 0 {
      assert s[0..] == s;
    }
  }

  /** A text starts with a unit and goes on as a text. */
  lemma AcceptsUnit(s: seq<Byte>)
    requires s != []
    ensures Accepts(s, 0) <==>
      var n := UnitLength(s[0]); 0 < n <= |s| && IsUnit(s[..n]) && Accepts(s[n..], 0)
  {
    var n := UnitLength(s[0]);
    if n > 0 {
      AcceptsAfter(s[1..], n - 1);
      if n <= |s| {
        assert s[1..][n - 1..] == s[n..];
        assert forall i :: 1 <= i < n ==> s[1..][i - 1] == s[i] == s[..n][i];
        assert forall i :: 0 <= i < n - 1 ==> s[1..][i] == s[..n][i + 1];
      }
    }
  }

  // -------------------------------------------------------------------- guarantees

  /** The units of an accepted text. */
  lemma {:induction false} AcceptedIsParsed(s: seq<Byte>) returns (units: seq<seq<Byte>>)
    requires Accepts(s, 0)
    ensures IsParse(units, s)
    decreases |s|
  {
    units := [];
    if s != [] {
      AcceptsUnit(s);
      var n := UnitLength(s[0]);
      var rest := AcceptedIsParsed(s[n..]);
      units := [s[..n]] + rest;
      assert units[1..] == rest && s == s[..n] + s[n..];
    }
  }

  lemma {:induction false} ParsedIsAccepted(units: seq<seq<Byte>>)
    requires forall i :: 0 <= i < |units| ==> IsUnit(units[i])
    ensures Accepts(Flatten(units), 0)
    decreases |units|
  {
    if units != [] {
      var u, s := units[0], Flatten(units);
      ParsedIsAccepted(units[1..]);
      assert s[0] == u[0] && s[..|u|] == u && s[|u|..] == Flatten(units[1..]);
      AcceptsUnit(s);
    }
  }

  /** The machine accepts exactly the texts of the grammar. */
  lemma MachineIsGrammar(s: seq<Byte>)
    ensures Accepts(s, 0) <==> IsText(s)
  {
    if Accepts(s, 0) {
      var units := AcceptedIsParsed(s);
    }
    if IsText(s) {
      var units :| IsParse(units, s);
      ParsedIsAccepted(units);
    }
  }

  lemma SomeUnitSomeByte(units: seq<seq<Byte>>)
    requires forall i :: 0 <= i < |units| ==> IsUnit(units[i])
    ensures units != [] ==> Flatten(units) != []
  {
  }

  /** A text splits into units in one way only. */
  lemma {:induction false} ParseUnique(a: seq<seq<Byte>>, b: seq<seq<Byte>>, s: seq<Byte>)
    requires IsParse(a, s) && IsParse(b, s)
    ensures a == b
    decreases |a|
  {
    if a == [] {
      SomeUnitSomeByte(b);
    } else {
      assert a[0][0] == s[0] && |s| > 0;
      assert b != [];
      assert b[0][0] == s[0];
      assert a[0] == s[..|a[0]|] && b[0] == s[..|a[0]|];
      assert Flatten(a[1..]) == s[|a[0]|..] && Flatten(b[1..]) == s[|a[0]|..];
      ParseUnique(a[1..], b[1..], s[|a[0]|..]);
      assert a == [a[0]] + a[1..] && b == [b[0]] + b[1..];
    }
  }

  /** After a text, what follows decides: acceptance is closed under concatenation and cutting. */
  lemma {:induction false} AcceptsConcat(a: seq<Byte>, b: seq<Byte>)
    requires Accepts(a, 0)
    ensures Accepts(a + b, 0) <==> Accepts(b, 0)
    decreases |a|
  {
    if a == [] {
      assert a + b == b;
    } else {
      AcceptsUnit(a);
      AcceptsUnit(a + b);
      var n := UnitLength(a[0]);
      assert (a + b)[..n] == a[..n] && (a + b)[n..] == a[n..] + b;
      AcceptsConcat(a[n..], b);
    }
  }

  // ------------------------------------------------------------ standard encodings

  /** Unicode scalar values, the characters RFC 3629 encodes. */
  predicate IsScalar(c: int) {
    0 <= c <= 0x10FFFF && !(0xD800 <= c <= 0xDFFF)
  }

  /** Section 3 of RFC 3629. */
  function Encode(c: int): seq<Byte>
    requires IsScalar(c)
  {
    if c <= 0x7F then [c]
    else if c <= 0x7FF then [0xC0 + c / 64, 0x80 + c % 64]
    else if c <= 0xFFFF then [0xE0 + c / 4096, 0x80 + c / 64 % 64, 0x80 + c % 64]
    else [0xF0 + c / 262144, 0x80 + c / 4096 % 64, 0x80 + c / 64 % 64, 0x80 + c % 64]
  }

  ghost predicate AllScalar(cs: seq<int>) {
    forall i :: 0 <= i < |cs| ==> IsScalar(cs[i])
  }

  function EncodeAll(cs: seq<int>): seq<Byte>
    requires AllScalar(cs)
  {
    if cs == [] then [] else Encode(cs[0]) + EncodeAll(cs[1..])
  }

  /** `n` with the six bits of a continuation byte put behind it. */
  function Behind(n: int, b: int): int {
    n * 64 + (b - 0x80)
  }

  /** The number a unit of one to four bytes carries. */
  function Decode(u: seq<Byte>): int
    requires 1 <= |u| <= 4
  {
    var lead: int := u[0];
    if |u| == 1 then lead
    else if |u| == 2 then Behind(lead - 0xC0, u[1])
    else if |u| == 3 then Behind(Behind(lead - 0xE0, u[1]), u[2])
    else Behind(Behind(Behind(lead - 0xF0, u[1]), u[2]), u[3])
  }

  /** The units the standard allows, told by their bytes: nothing overlong, no surrogate, nothing too large. */
  predicate IsStandard(u: seq<Byte>) {
    || |u| == 1
    || (|u| == 2 && u[0] >= 0xC2)
    || (|u| == 3 && (u[0] == 0xE0 ==> u[1] >= 0xA0) && (u[0] == 0xED ==> u[1] <= 0x9F))
    || (|u| == 4 && u[0] <= 0xF4 && (u[0] == 0xF0 ==> u[1] >= 0x90) && (u[0] == 0xF4 ==> u[1] <= 0x8F))
  }

  lemma SixBits(n: int)
    requires n >= 0
    ensures Behind(n / 64, 0x80 + n % 64) == n && 0 <= n % 64 < 64
    ensures n / 4096 == n / 64 / 64 && n / 262144 == n / 4096 / 64
  {
  }

  lemma BehindSplits(n: int, b: Byte)
    requires n >= 0 && IsContinuation(b)
    ensures Behind(n, b) / 64 == n && 0x80 + Behind(n, b) % 64 == b
  {
  }

  /** Encoding and decoding undo each other, on all scalar values and all standard units. */
  lemma DecodeEncode(c: int)
    requires IsScalar(c)
    ensures var u := Encode(c); IsUnit(u) && IsStandard(u) && Decode(u) == c
  {
    SixBits(c);
    SixBits(c / 64);
    SixBits(c / 4096);
  }

  lemma EncodeDecode(u: seq<Byte>)
    requires IsUnit(u) && IsStandard(u)
    ensures IsScalar(Decode(u)) && Encode(Decode(u)) == u
  {
    var lead: int := u[0];
    if |u| == 2 {
      BehindSplits(lead - 0xC0, u[1]);
    } else if |u| == 3 {
      var n := Behind(lead - 0xE0, u[1]);
      BehindSplits(lead - 0xE0, u[1]);
      BehindSplits(n, u[2]);
      SixBits(Decode(u));
    } else if |u| == 4 {
      var n := Behind(lead - 0xF0, u[1]);
      var m := Behind(n, u[2]);
      BehindSplits(lead - 0xF0, u[1]);
      BehindSplits(n, u[2]);
      BehindSplits(m, u[3]);
      SixBits(Decode(u));
    }
  }

  /** The texts of the standard. */
  ghost predicate IsStandardText(s: seq<Byte>) {
    exists cs: seq<int> :: AllScalar(cs) && EncodeAll(cs) == s
  }

  ghost predicate AllStandard(units: seq<seq<Byte>>) {
    forall i :: 0 <= i < |units| ==> IsStandard(units[i])
  }

  /** The units of an encoded text. */
  lemma {:induction false} EncodedUnits(cs: seq<int>) returns (units: seq<seq<Byte>>)
    requires AllScalar(cs)
    ensures IsParse(units, EncodeAll(cs)) && AllStandard(units)
  {
    units := [];
    if cs != [] {
      var rest := EncodedUnits(cs[1..]);
      DecodeEncode(cs[0]);
      units := [Encode(cs[0])] + rest;
      assert units[1..] == rest;
    }
  }

  /** Every standard UTF-8 text is accepted. */
  lemma StandardTextAccepted(cs: seq<int>)
    requires AllScalar(cs)
    ensures Accepts(EncodeAll(cs), 0)
  {
    var units := EncodedUnits(cs);
    ParsedIsAccepted(units);
  }

  lemma {:induction false} DecodedUnits(units: seq<seq<Byte>>) returns (cs: seq<int>)
    requires AllStandard(units) && forall i :: 0 <= i < |units| ==> IsUnit(units[i])
    ensures AllScalar(cs) && EncodeAll(cs) == Flatten(units)
  {
    cs := [];
    if units != [] {
      var rest := DecodedUnits(units[1..]);
      EncodeDecode(units[0]);
      cs := [Decode(units[0])] + rest;
      assert cs[1..] == rest;
    }
  }

  /** An accepted text is standard UTF-8 exactly when each of its units is. */
  lemma StandardExactlyWhen(units: seq<seq<Byte>>, s: seq<Byte>)
    requires IsParse(units, s)
    ensures IsStandardText(s) <==> AllStandard(units)
  {
    if IsStandardText(s) {
      var cs: seq<int> :| AllScalar(cs) && EncodeAll(cs) == s;
      var others := EncodedUnits(cs);
      ParseUnique(units, others, s);
    }
    if AllStandard(units) {
      var cs := DecodedUnits(units);
    }
  }

  /** The check accepts more: overlong, surrogate and 0xFF-led units encode nothing. */
  lemma AcceptsBeyondStandard(u: seq<Byte>)
    requires u == [0xC0, 0x80] || u == [0xED, 0xA0, 0x80] || u == [0xFF, 0x80, 0x80, 0x80, 0x80]
    ensures Accepts(u, 0) && !IsStandardText(u)
  {
    assert IsUnit(u) && u[..|u|] == u && u[|u|..] == [];
    AcceptsUnit(u);
    var units := [u];
    assert units[1..] == [] && Flatten(units) == u + Flatten([]) == u;
    StandardExactlyWhen(units, u);
    assert !IsStandard(units[0]);
  }

  // --------------------------------------------------------------------- the loop

  /** The check as the program runs it: one pass, counting down `missing`. */
  method CanConvertToUtf8(bytes: seq<Byte>) returns (ok: bool)
    ensures ok <==> IsText(bytes)
  {
    MachineIsGrammar(bytes);
    var missing := 0;
    var i := 0;
    assert bytes[0..] == bytes;
    while i < |bytes|
      invariant 0 <= i <= |bytes| && missing >= 0
      invariant Accepts(bytes, 0) <==> Accepts(bytes[i..], missing)
    {
      var b := bytes[i];
      assert bytes[i..][1..] == bytes[i + 1..];
      if missing == 0 {
        if b >= 0x80 {
          if b >= 0xFC && b <= 0xFD { missing := 6; }
          else if b >= 0xF8 { missing := 5; }
          else if b >= 0xF0 { missing := 4; }
          else if b >= 0xE0 { missing := 3; }
          else if b >= 0xC0 { missing := 2; }
          else { return false; }
          missing := missing - 1;
        }
      } else {
        if b / 64 != 2 {
          return false;
        }
        missing := missing - 1;
      }
      i := i + 1;
    }
    if missing != 0 {
      return false;
    }
    return true;
  }

  /** What is shown: nothing, the decoded text, or five question marks for bytes that are no text. */
  method BytesToUtf8(bytes: seq<Byte>, decode: seq<Byte> -> string) returns (shown: string)
    ensures bytes == [] ==> shown == ""
    ensures bytes != [] ==> shown == if IsText(bytes) then decode(bytes) else "?????"
  {
    if bytes == [] {
      return "";
    }
    var ok := CanConvertToUtf8(bytes);
    return if ok then decode(bytes) else "?????";
  }
}
