/**
 The listing of the other back end, which walks a mounted share: the same levels, but it
 spells directories with a final separator and skips hidden ones.
 */
module LocalListing {
  import opened FileListing
  import opened Seqs

  predicate IsHidden(e: Entry) {
    e.Dir? && e.name != "" && e.name[0] == '.'
  }

  function Visible(es: seq<Entry>): seq<Entry> {
    if es == [] then [] else if IsHidden(es[0]) then Visible(es[1..]) else [es[0]] + Visible(es[1..])
  }

  /** The share as this loop sees it. */
  function Shown(disk: Disk): Disk {
    map d | d in disk :: Visible(disk[d])
  }

  predicate EndsInSeparator(s: string) {
    s != "" && (s[|s| - 1] == '/' || s[|s| - 1] == '\\')
  }

  predicate PlainName(name: string) {
    name != "" && !EndsInSeparator(name)
  }

  /** Entry names are not empty and do not end in a separator. */
  ghost predicate PlainNames(disk: Disk) {
    forall dir, e :: dir in disk && e in disk[dir] ==> PlainName(e.name)
  }

  /** `d` is `base`, possibly written with the final separator. */
  ghost predicate Spells(d: string, base: string) {
    d == base + "/" || (d == base && !EndsInSeparator(base))
  }

  ghost predicate AllSpell(ds: seq<string>, bases: seq<string>) {
    |ds| == |bases| && forall i :: 0 <= i < |ds| ==> Spells(ds[i], bases[i])
  }

  lemma FirstVisible(base: string, es: seq<Entry>)
    requires es != []
    ensures Files(base, Visible(es)) ==
      if es[0].File? then [Under(base, es[0].name)] + Files(base, Visible(es[1..])) else Files(base, Visible(es[1..]))
    ensures Subdirs(base, Visible(es)) ==
      if es[0].Dir? && !IsHidden(es[0]) then [Under(base, es[0].name)] + Subdirs(base, Visible(es[1..]))
      else Subdirs(base, Visible(es[1..]))
  {
    var rest := Visible(es[1..]);
    assert ([es[0]] + rest)[1..] == rest;
  }

  lemma {:induction false} SubdirsSpell(base: string, es: seq<Entry>)
    requires forall e :: e in es ==> PlainName(e.name)
    ensures AllSpell(Subdirs(base, Visible(es)), Subdirs(base, Visible(es)))
  {
    if es != [] {
      SubdirsSpell(base, es[1..]);
      FirstVisible(base, es);
      var d, name := Under(base, es[0].name), es[0].name;
      assert es[0] in es && d[|d| - 1] == name[|name| - 1];
    }
  }

  class LocalLister {
    var root: string
    var depth: nat

    constructor (dir: string, limit: int)
      ensures root == if EndsInSeparator(dir) then dir else dir + "/"
      ensures depth == if limit >= 0 then limit else 0
    {
      root := if EndsInSeparator(dir) then dir else dir + "/";
      depth := if limit >= 0 then limit else 0;
    }

    static method ReadDir(dir: string, ghost base: string, entries: seq<Entry>)
      returns (files: seq<string>, dirs: seq<string>)
      requires dir == base + "/" && forall e :: e in entries ==> PlainName(e.name)
      ensures files == Files(base, Visible(entries)) && dirs == Subdirs(base, Visible(entries))
      ensures AllSpell(dirs, dirs)
    {
      files, dirs := [], [];
      var j := 0;
      ghost var allFiles, allDirs := Files(base, Visible(entries)), Subdirs(base, Visible(entries));
      assert entries[0..] == entries;
      while j < |entries|
        invariant j <= |entries|
        invariant files + Files(base, Visible(entries[j..])) == allFiles
        invariant dirs + Subdirs(base, Visible(entries[j..])) == allDirs
      {
        var info := entries[j];
        assert entries[j..][0] == info && entries[j..][1..] == entries[j + 1..];
        FirstVisible(base, entries[j..]);
        assert dir + info.name == Under(base, info.name);
        ghost var rest := Visible(entries[j + 1..]);
        if info.Dir? && !IsHidden(info) {
          Assoc(dirs, [Under(base, info.name)], Subdirs(base, rest));
          dirs := dirs + [dir + info.name];
        } else if info.File? {
          Assoc(files, [Under(base, info.name)], Files(base, rest));
          files := files + [dir + info.name];
        }
        j := j + 1;
      }
      SubdirsSpell(base, entries);
    }

    static method ReadLevel(disk: Disk, subDirs: seq<string>, ghost bases: seq<string>)
      returns (files: seq<string>, tmpDirs: seq<string>)
      requires PlainNames(disk) && AllSpell(subDirs, bases)
      ensures files == LevelFiles(Shown(disk), bases) && tmpDirs == LevelDirs(Shown(disk), bases)
      ensures AllSpell(tmpDirs, tmpDirs)
    {
      files, tmpDirs := [], [];
      var i := 0;
      ghost var shown := Shown(disk);
      assert bases[0..] == bases;
      while i < |subDirs|
        invariant i <= |subDirs|
        invariant files + LevelFiles(shown, bases[i..]) == LevelFiles(shown, bases)
        invariant tmpDirs + LevelDirs(shown, bases[i..]) == LevelDirs(shown, bases)
        invariant AllSpell(tmpDirs, tmpDirs)
      {
        ghost var base := bases[i];
        var f, d := OpenDir(disk, subDirs[i], base);
        assert bases[i..][0] == base && bases[i..][1..] == bases[i + 1..];
        assert LevelFiles(shown, bases[i..]) == f + LevelFiles(shown, bases[i + 1..]);
        assert LevelDirs(shown, bases[i..]) == d + LevelDirs(shown, bases[i + 1..]);
        Assoc(files, f, LevelFiles(shown, bases[i + 1..]));
        Assoc(tmpDirs, d, LevelDirs(shown, bases[i + 1..]));
        files, tmpDirs := files + f, tmpDirs + d;
        i := i + 1;
      }
    }

    /** Lists one directory, adding the final separator if it lacks one. */
    static method OpenDir(disk: Disk, subDir: string, ghost base: string)
      returns (files: seq<string>, dirs: seq<string>)
      requires PlainNames(disk) && Spells(subDir, base)
      ensures files == Files(base, Listing(Shown(disk), base)) && dirs == Subdirs(base, Listing(Shown(disk), base))
      ensures AllSpell(dirs, dirs)
    {
      var dir := subDir;
      if !EndsInSeparator(dir) {
        dir := dir + "/";
      }
      var bare := dir[..|dir| - 1];
      assert bare == base;
      files, dirs := [], [];
      if bare in disk {
        files, dirs := ReadDir(dir, base, disk[bare]);
      }
    }

    /** The levels the SMB loop lists, in the same order, of the visible entries of the share. */
    method Exec(disk: Disk, ghost base: string) returns (result: seq<string>)
      requires PlainNames(disk) && root == base + "/"
      ensures result == InLevelOrder(Shown(disk), base, depth)
    {
      result := [];
      var queue := [[root]];
      ghost var bases := [base];
      var left: int := depth;
      ghost var shown := Shown(disk);
      ghost var all := Levels(shown, [base], depth);
      while left >= 0 && |queue| > 0
        invariant |queue| <= 1
        invariant queue == [] ==> result == all
        invariant queue != [] ==> left >= 0 && AllSpell(queue[0], bases)
        invariant queue != [] ==> result + Levels(shown, bases, left) == all
        decreases left
      {
        var subDirs := queue[0];
        queue := queue[1..];
        var files, tmpDirs := ReadLevel(disk, subDirs, bases);
        assert Levels(shown, bases, left) == files + Levels(shown, tmpDirs, left - 1);
        Assoc(result, files, Levels(shown, tmpDirs, left - 1));
        result := result + files;
        left := left - 1;
        bases := tmpDirs;
        EmptyLevel(shown, left);
        if |tmpDirs| > 0 && left >= 0 {
          queue := queue + [tmpDirs];
        } else {
          assert Levels(shown, tmpDirs, left) == [] && result + [] == result;
        }
      }
      ListingIsRecursive(shown, base, depth);
    }
  }

  // ---------------------------------------------------------- the two back ends

  /** From position `n` on the path enters a directory whose name starts with a dot. */
  ghost predicate ThroughHidden(p: string, n: nat) {
    exists i, j :: n <= i < j < |p| && p[i] == '/' && p[i + 1] == '.' && p[j] == '/'
  }

  ghost function InTheOpen(n: nat): string -> bool {
    (p: string) => !ThroughHidden(p, n)
  }

  /** Entry names hold no separator, as the file system guarantees. */
  ghost predicate SlashFree(disk: Disk) {
    forall dir, e :: dir in disk && e in disk[dir] ==> '/' !in e.name
  }

  lemma ThroughPrefix(a: string, p: string, n: nat)
    requires a <= p && ThroughHidden(a, n)
    ensures ThroughHidden(p, n)
  {
    var i, j :| n <= i < j < |a| && a[i] == '/' && a[i + 1] == '.' && a[j] == '/';
    assert p[i] == '/' && p[i + 1] == '.' && p[j] == '/';
  }

  /** A plain name at the end does not make a path hidden. */
  lemma ThroughFile(d: string, name: string, n: nat)
    requires '/' !in name
    ensures ThroughHidden(Under(d, name), n) <==> ThroughHidden(d + "/", n)
  {
    var p, a := Under(d, name), d + "/";
    assert a <= p;
    if ThroughHidden(a, n) {
      ThroughPrefix(a, p, n);
    }
    if i, j :| n <= i < j < |p| && p[i] == '/' && p[i + 1] == '.' && p[j] == '/' {
      assert forall k :: |d| < k < |p| ==> p[k] == name[k - |d| - 1] && p[k] in name;
      assert a[i] == '/' && a[i + 1] == '.' && a[j] == '/';
    }
  }

  /** Going down into `name`. */
  lemma ThroughDir(d: string, name: string, n: nat)
    requires '/' !in name && n <= |d|
    ensures ThroughHidden(Under(d, name) + "/", n)
      <==> ThroughHidden(d + "/", n) || (name != "" && name[0] == '.')
  {
    var sub, p, a := Under(d, name), Under(d, name) + "/", d + "/";
    var last := |p| - 1;
    assert a <= p && p[last] == '/';
    if ThroughHidden(a, n) {
      ThroughPrefix(a, p, n);
    }
    if name != "" && name[0] == '.' {
      assert p[|d|] == '/' && p[|d| + 1] == '.';
    }
    if i, j :| n <= i < j < |p| && p[i] == '/' && p[i + 1] == '.' && p[j] == '/' {
      assert forall k :: |d| < k < last ==> p[k] == name[k - |d| - 1] && p[k] in name;
      assert i <= |d|;
      if i < |d| {
        assert a[i] == '/' && a[i + 1] == '.' && a[|d|] == '/';
      }
    }
  }

  /** Everything listed below `d` starts with `d` and a separator. */
  lemma {:induction false} ListedBelow(disk: Disk, d: string, k: nat)
    ensures forall p :: p in AtDepth(disk, d, k) ==> d + "/" <= p
    decreases k, 1, 0
  {
    if k == 0 {
      PickedBelow(d, Listing(disk, d));
    } else {
      ListedBelowEach(disk, d, Listing(disk, d), k - 1);
    }
  }

  lemma {:induction false} PickedBelow(d: string, es: seq<Entry>)
    ensures forall p :: p in Files(d, es) ==> d + "/" <= p
  {
    if es != [] {
      PickedBelow(d, es[1..]);
    }
  }

  lemma {:induction false} ListedBelowEach(disk: Disk, d: string, es: seq<Entry>, k: nat)
    ensures forall p :: p in AtDepthEach(disk, Subdirs(d, es), k) ==> d + "/" <= p
    decreases k, 2, |es|
  {
    if es != [] {
      ListedBelowEach(disk, d, es[1..], k);
      if es[0].Dir? {
        var sub := Under(d, es[0].name);
        ListedBelow(disk, sub, k);
        assert d + "/" <= sub + "/";
        assert Subdirs(d, es) == [sub] + Subdirs(d, es[1..]);
        assert Subdirs(d, es)[1..] == Subdirs(d, es[1..]);
      }
    }
  }

  /** Below a hidden directory nothing is in the open. */
  lemma NothingInTheOpen(disk: Disk, d: string, n: nat, k: nat)
    requires ThroughHidden(d + "/", n)
    ensures Filter(AtDepth(disk, d, k), InTheOpen(n)) == []
  {
    ListedBelow(disk, d, k);
    forall p | p in AtDepth(disk, d, k)
      ensures !InTheOpen(n)(p)
    {
      ThroughPrefix(d + "/", p, n);
    }
    FilterNone(AtDepth(disk, d, k), InTheOpen(n));
  }

  lemma {:induction false} FilesInTheOpen(d: string, es: seq<Entry>, n: nat)
    requires !ThroughHidden(d + "/", n) && forall e :: e in es ==> '/' !in e.name
    ensures Files(d, Visible(es)) == Filter(Files(d, es), InTheOpen(n))
  {
    if es != [] {
      FilesInTheOpen(d, es[1..], n);
      FirstVisible(d, es);
      assert es[0] in es;
      ThroughFile(d, es[0].name, n);
    }
  }

  /** From a directory in the open this loop lists what the other lists, less what is hidden. */
  lemma {:induction false} DepthInTheOpen(disk: Disk, d: string, n: nat, k: nat)
    requires SlashFree(disk) && !ThroughHidden(d + "/", n) && n <= |d|
    ensures AtDepth(Shown(disk), d, k) == Filter(AtDepth(disk, d, k), InTheOpen(n))
    decreases k, 1, 0
  {
    var es := Listing(disk, d);
    assert Listing(Shown(disk), d) == Visible(es);
    if k == 0 {
      FilesInTheOpen(d, es, n);
    } else {
      EachInTheOpen(disk, d, es, n, k - 1);
    }
  }

  lemma {:induction false} EachInTheOpen(disk: Disk, d: string, es: seq<Entry>, n: nat, k: nat)
    requires SlashFree(disk) && !ThroughHidden(d + "/", n) && n <= |d|
    requires forall e :: e in es ==> '/' !in e.name
    ensures AtDepthEach(Shown(disk), Subdirs(d, Visible(es)), k)
         == Filter(AtDepthEach(disk, Subdirs(d, es), k), InTheOpen(n))
    decreases k, 2, |es|
  {
    if es != [] {
      EachInTheOpen(disk, d, es[1..], n, k);
      FirstVisible(d, es);
      if es[0].Dir? {
        var sub, rest := Under(d, es[0].name), Subdirs(d, es[1..]);
        assert es[0] in es;
        ThroughDir(d, es[0].name, n);
        assert Subdirs(d, es) == [sub] + rest && ([sub] + rest)[1..] == rest;
        FilterConcat(AtDepth(disk, sub, k), AtDepthEach(disk, rest, k), InTheOpen(n));
        if IsHidden(es[0]) {
          NothingInTheOpen(disk, sub, n, k);
        } else {
          DepthInTheOpen(disk, sub, n, k);
          var shown := Subdirs(d, Visible(es[1..]));
          assert ([sub] + shown)[1..] == shown;
        }
      }
    }
  }

  /** This back end lists what the other one lists, in the same order, less what lies in hidden directories. */
  lemma {:induction false} ListsInTheOpen(disk: Disk, base: string, depth: int)
    requires SlashFree(disk)
    ensures InLevelOrder(Shown(disk), base, depth) == Filter(InLevelOrder(disk, base, depth), InTheOpen(|base|))
    decreases depth + 1
  {
    if depth >= 0 {
      ListsInTheOpen(disk, base, depth - 1);
      DepthInTheOpen(disk, base, |base|, depth);
      FilterConcat(InLevelOrder(disk, base, depth - 1), AtDepth(disk, base, depth), InTheOpen(|base|));
    }
  }

  /** Both back ends list the same exactly when no file the other one lists lies in a hidden directory. */
  lemma BackEndsAgree(disk: Disk, base: string, depth: int)
    requires SlashFree(disk)
    ensures InLevelOrder(Shown(disk), base, depth) == InLevelOrder(disk, base, depth)
      <==> forall p :: p in InLevelOrder(disk, base, depth) ==> !ThroughHidden(p, |base|)
  {
    var all, keep := InLevelOrder(disk, base, depth), InTheOpen(|base|);
    ListsInTheOpen(disk, base, depth);
    if forall p :: p in all ==> !ThroughHidden(p, |base|) {
      FilterAll(all, keep);
    }
    forall p | p in all && Filter(all, keep) == all
      ensures !ThroughHidden(p, |base|)
    {
      FilterMember(all, keep, p);
    }
  }

  // -------------------------------------------------- directories in another order

  /** The same entries in every directory, however each back end orders them. */
  ghost predicate SameEntries(a: Disk, b: Disk) {
    a.Keys == b.Keys && forall d :: d in a ==> multiset(a[d]) == multiset(b[d])
  }

  /** The first of `a`, cut out of `b`. */
  lemma CutOut<T>(a: seq<T>, b: seq<T>) returns (i: nat)
    requires a != [] && multiset(a) == multiset(b)
    ensures i < |b| && b == b[..i] + [a[0]] + b[i + 1..]
    ensures multiset(a[1..]) == multiset(b[..i] + b[i + 1..])
  {
    assert a == [a[0]] + a[1..];
    assert a[0] in multiset(b);
    i :| 0 <= i < |b| && b[i] == a[0];
    assert b == b[..i] + [a[0]] + b[i + 1..];
    assert multiset(b[..i] + b[i + 1..]) == multiset(b) - multiset{a[0]};
    assert multiset(a[1..]) == multiset(a) - multiset{a[0]};
  }

  lemma {:induction false} PickedPermuted(dir: string, a: seq<Entry>, b: seq<Entry>, files: bool)
    requires multiset(a) == multiset(b)
    ensures multiset(Picked(dir, a, files)) == multiset(Picked(dir, b, files))
    decreases |a|
  {
    if a == [] {
      assert |multiset(b)| == 0;
    } else {
      var i := CutOut(a, b);
      var front, back := b[..i], b[i + 1..];
      PickedPermuted(dir, a[1..], front + back, files);
      PickedConcat(dir, [a[0]], a[1..], files);
      assert a == [a[0]] + a[1..];
      PickedConcat(dir, front, back, files);
      PickedConcat(dir, front, [a[0]], files);
      PickedConcat(dir, front + [a[0]], back, files);
    }
  }

  lemma {:induction false} EachPermuted(disk: Disk, a: seq<string>, b: seq<string>, k: nat)
    requires multiset(a) == multiset(b)
    ensures multiset(AtDepthEach(disk, a, k)) == multiset(AtDepthEach(disk, b, k))
    decreases |a|
  {
    if a == [] {
      assert |multiset(b)| == 0;
    } else {
      var i := CutOut(a, b);
      var front, back := b[..i], b[i + 1..];
      EachPermuted(disk, a[1..], front + back, k);
      AtDepthEachConcat(disk, [a[0]], a[1..], k);
      assert a == [a[0]] + a[1..];
      AtDepthEachConcat(disk, front, back, k);
      AtDepthEachConcat(disk, front, [a[0]], k);
      AtDepthEachConcat(disk, front + [a[0]], back, k);
    }
  }

  lemma SameListing(a: Disk, b: Disk, d: string)
    requires SameEntries(a, b)
    ensures multiset(Files(d, Listing(a, d))) == multiset(Files(d, Listing(b, d)))
    ensures multiset(Subdirs(d, Listing(a, d))) == multiset(Subdirs(d, Listing(b, d)))
  {
    PickedPermuted(d, Listing(a, d), Listing(b, d), true);
    PickedPermuted(d, Listing(a, d), Listing(b, d), false);
  }

  lemma {:induction false} DepthPermuted(a: Disk, b: Disk, d: string, k: nat)
    requires SameEntries(a, b)
    ensures multiset(AtDepth(a, d, k)) == multiset(AtDepth(b, d, k))
    decreases k, 1, 0
  {
    SameListing(a, b, d);
    if k > 0 {
      EachSame(a, b, Subdirs(d, Listing(a, d)), k - 1);
      EachPermuted(b, Subdirs(d, Listing(a, d)), Subdirs(d, Listing(b, d)), k - 1);
    }
  }

  lemma {:induction false} EachSame(a: Disk, b: Disk, ds: seq<string>, k: nat)
    requires SameEntries(a, b)
    ensures multiset(AtDepthEach(a, ds, k)) == multiset(AtDepthEach(b, ds, k))
    decreases k, 2, |ds|
  {
    if ds != [] {
      DepthPermuted(a, b, ds[0], k);
      EachSame(a, b, ds[1..], k);
    }
  }

  /**
   When the back ends see the entries of a directory in different orders, they still list
   the same files level by level, less what lies in hidden directories.
   */
  lemma LevelsAgree(local: Disk, share: Disk, base: string, k: nat)
    requires SameEntries(local, share) && SlashFree(local)
    ensures multiset(AtDepth(Shown(local), base, k)) == multiset(Filter(AtDepth(share, base, k), InTheOpen(|base|)))
  {
    DepthInTheOpen(local, base, |base|, k);
    DepthPermuted(local, share, base, k);
    FilterPermuted(AtDepth(local, base, k), AtDepth(share, base, k), InTheOpen(|base|));
  }

  lemma {:induction false} FilterPermuted(a: seq<string>, b: seq<string>, keep: string -> bool)
    requires multiset(a) == multiset(b)
    ensures multiset(Filter(a, keep)) == multiset(Filter(b, keep))
    decreases |a|
  {
    if a == [] {
      assert |multiset(b)| == 0;
    } else {
      var i := CutOut(a, b);
      var front, back := b[..i], b[i + 1..];
      FilterPermuted(a[1..], front + back, keep);
      FilterConcat([a[0]], a[1..], keep);
      assert a == [a[0]] + a[1..];
      FilterConcat(front, back, keep);
      FilterConcat(front, [a[0]], keep);
      FilterConcat(front + [a[0]], back, keep);
    }
  }

  /** In particular where there are no hidden directories, whatever the names. */
  lemma NothingHidden(disk: Disk, base: string, depth: int)
    requires forall dir, e :: dir in disk && e in disk[dir] ==> !IsHidden(e)
    ensures InLevelOrder(Shown(disk), base, depth) == InLevelOrder(disk, base, depth)
  {
    forall d | d in disk
      ensures Shown(disk)[d] == disk[d]
    {
      AllVisible(disk[d]);
    }
    assert Shown(disk) == disk;
  }

  lemma {:induction false} AllVisible(es: seq<Entry>)
    requires forall e :: e in es ==> !IsHidden(e)
    ensures Visible(es) == es
  {
    if es != [] {
      assert es[0] in es;
      AllVisible(es[1..]);
    }
  }
}
