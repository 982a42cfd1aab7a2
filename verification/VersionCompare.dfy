/** Comparing two dotted version numbers, already split into their numeric components. */
module VersionCompare {

  /** Component `i`, with 0 past the end. */
  function At(v: seq<nat>, i: nat): nat {
    if i < |v| then v[i] else 0
  }

  /** The same version once missing components count as 0. */
  ghost predicate SamePadded(v1: seq<nat>, v2: seq<nat>) {
    forall i: nat :: At(v1, i) == At(v2, i)
  }

  /** The components both have agree. */
  predicate CommonEqual(v1: seq<nat>, v2: seq<nat>) {
    forall i :: 0 <= i < |v1| && i < |v2| ==> v1[i] == v2[i]
  }

  /** `i` is the first common component where they differ. */
  predicate FirstDifference(v1: seq<nat>, v2: seq<nat>, i: nat) {
    i < |v1| && i < |v2| && v1[i] != v2[i] && forall j :: 0 <= j < i ==> v1[j] == v2[j]
  }

  /** What the comparison returns. */
  ghost function Compare(v1: seq<nat>, v2: seq<nat>): (r: int) {
    if CommonEqual(v1, v2) then (if SamePadded(v1, v2) then 0 else 1)
    else
      DifferenceExists(v1, v2);
      var i: nat :| FirstDifference(v1, v2, i);
      if v1[i] > v2[i] then 1 else -1
  }

  lemma DifferenceExists(v1: seq<nat>, v2: seq<nat>)
    requires !CommonEqual(v1, v2)
    ensures exists i: nat :: FirstDifference(v1, v2, i)
  {
    var k := 0;
    while v1[k] == v2[k]
      invariant 0 <= k < |v1| && k < |v2|
      invariant forall j :: 0 <= j < k ==> v1[j] == v2[j]
      decreases |v1| - k
    {
      assert exists i :: k < i < |v1| && i < |v2| && v1[i] != v2[i];
      k := k + 1;
    }
    assert FirstDifference(v1, v2, k);
  }

  /** The loops with their early returns. */
  method CompareVersion(v1: seq<nat>, v2: seq<nat>) returns (r: int)
    ensures r == Compare(v1, v2)
  {
    var len1, len2 := |v1|, |v2|;
    var i := 0;
    while i < len1 && i < len2
      invariant 0 <= i <= len1 && i <= len2
      invariant forall j :: 0 <= j < i ==> v1[j] == v2[j]
    {
      if v1[i] > v2[i] {
        assert FirstDifference(v1, v2, i);
        return 1;
      } else if v1[i] < v2[i] {
        assert FirstDifference(v1, v2, i);
        return -1;
      }
      i := i + 1;
    }
    if len1 > len2 {
      var j := i;
      while j < len1
        invariant i <= j <= len1
        invariant forall k :: i <= k < j ==> v1[k] == 0
      {
        if v1[j] != 0 {
          assert At(v1, j) != At(v2, j);
          return 1;
        }
        j := j + 1;
      }
    } else if len1 < len2 {
      var j := i;
      while j < len2
        invariant i <= j <= len2
        invariant forall k :: i <= k < j ==> v2[k] == 0
      {
        if v2[j] != 0 {
          assert At(v1, j) != At(v2, j);
          return 1;
        }
        j := j + 1;
      }
    }
    return 0;
  }

  /** Result 0 means the padded versions are the same, which is an equivalence. */
  lemma ZeroIsEquality(a: seq<nat>, b: seq<nat>, c: seq<nat>)
    ensures Compare(a, b) == 0 <==> SamePadded(a, b)
    ensures Compare(a, a) == 0
    ensures Compare(a, b) == 0 <==> Compare(b, a) == 0
    ensures Compare(a, b) == 0 && Compare(b, c) == 0 ==> Compare(a, c) == 0
  {
    PaddedCommon(a, b);
    PaddedCommon(b, a);
    PaddedCommon(b, c);
    PaddedCommon(a, c);
    PaddedCommon(a, a);
  }

  lemma PaddedCommon(a: seq<nat>, b: seq<nat>)
    ensures SamePadded(a, b) ==> CommonEqual(a, b)
  {
    if SamePadded(a, b) {
      forall i | 0 <= i < |a| && i < |b|
        ensures a[i] == b[i]
      {
        assert At(a, i) == At(b, i);
      }
    }
  }

  /**
   Swapping the arguments negates the result exactly unless one version extends the other
   by something other than zeros: then both calls return 1.
   */
  lemma AntisymmetricExactlyUnlessExtended(a: seq<nat>, b: seq<nat>)
    ensures Compare(b, a) == -Compare(a, b) <==> !(CommonEqual(a, b) && !SamePadded(a, b))
    ensures CommonEqual(a, b) && !SamePadded(a, b) ==> Compare(a, b) == Compare(b, a) == 1 && |a| != |b|
  {
    if CommonEqual(a, b) {
      assert CommonEqual(b, a);
      if !SamePadded(a, b) {
        var i: nat :| At(a, i) != At(b, i);
        assert At(b, i) != At(a, i);
      }
    } else {
      DifferenceExists(a, b);
      var i: nat :| FirstDifference(a, b, i);
      assert FirstDifference(b, a, i) && !CommonEqual(b, a);
      CompareAt(a, b, i);
      CompareAt(b, a, i);
    }
  }

  lemma CompareAt(a: seq<nat>, b: seq<nat>, i: nat)
    requires FirstDifference(a, b, i)
    ensures Compare(a, b) == if a[i] > b[i] then 1 else -1
  {
    forall j: nat | FirstDifference(a, b, j)
      ensures j == i
    {
      assert !(j < i) && !(i < j);
    }
  }

  /** Being older is transitive, whatever the lengths. */
  lemma OlderIsTransitive(a: seq<nat>, b: seq<nat>, c: seq<nat>)
    requires Compare(a, b) == -1 && Compare(b, c) == -1
    ensures Compare(a, c) == -1
  {
    DifferenceExists(a, b);
    DifferenceExists(b, c);
    var i: nat :| FirstDifference(a, b, i);
    var j: nat :| FirstDifference(b, c, j);
    CompareAt(a, b, i);
    CompareAt(b, c, j);
    var k := if i < j then i else j;
    assert FirstDifference(a, c, k) && a[k] < c[k];
    CompareAt(a, c, k);
    assert !CommonEqual(a, c);
  }

  /** A lead found in a common component is kept. */
  lemma NewerKept(a: seq<nat>, b: seq<nat>, c: seq<nat>)
    requires Compare(a, b) == 1 && Compare(b, c) == 1 && !CommonEqual(a, b)
    ensures Compare(a, c) == 1
  {
    DifferenceExists(a, b);
    var i: nat :| FirstDifference(a, b, i);
    CompareAt(a, b, i);
    if CommonEqual(b, c) {
      if i < |c| {
        assert FirstDifference(a, c, i) && !CommonEqual(a, c);
        CompareAt(a, c, i);
      } else if CommonEqual(a, c) {
        assert At(a, i) != At(c, i);
      }
    } else {
      DifferenceExists(b, c);
      var j: nat :| FirstDifference(b, c, j);
      CompareAt(b, c, j);
      var k := if i < j then i else j;
      assert FirstDifference(a, c, k) && !CommonEqual(a, c);
      CompareAt(a, c, k);
    }
  }

  /**
   Being newer carries over to everything below exactly when the lead shows in a component
   both versions have; a version that is only longer is newer than one that is newer than it.
   */
  lemma NewerTransitiveExactlyWhen(a: seq<nat>, b: seq<nat>)
    requires Compare(a, b) == 1
    ensures (forall c :: Compare(b, c) == 1 ==> Compare(a, c) == 1) <==> !CommonEqual(a, b)
    ensures |a| == |b| ==> !CommonEqual(a, b)
  {
    if CommonEqual(a, b) {
      AntisymmetricExactlyUnlessExtended(a, b);
      assert Compare(b, a) == 1;
      ZeroIsEquality(a, a, a);
      assert Compare(a, a) != 1;
    } else {
      forall c | Compare(b, c) == 1
        ensures Compare(a, c) == 1
      {
        NewerKept(a, b, c);
      }
    }
  }

  /** 1.1 counts as newer than 1, and 1 as newer than 1.1. */
  lemma NewerInACircle()
    ensures Compare([1], [1, 1]) == 1 && Compare([1, 1], [1]) == 1 && Compare([1], [1]) == 0
  {
    assert At([1], 1) != At([1, 1], 1) && At([1, 1], 1) != At([1], 1);
    assert CommonEqual([1], [1, 1]) && CommonEqual([1, 1], [1]);
    ZeroIsEquality([1], [1], [1]);
  }
}
