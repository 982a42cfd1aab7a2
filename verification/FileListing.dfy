/**
 The recursive file listing of a share: a breadth-first loop over a queue of
 directory levels, cut off at a depth, followed by one erasing pass per wildcard.
 */
module FileListing {
  import opened Seqs

  datatype Entry = File(name: string) | Dir(name: string) | Other(name: string)

  /** The directories that can be opened, with their entries in the order the server lists them. */
  type Disk = map<string, seq<Entry>>

  function Under(dir: string, name: string): string {
    dir + "/" + name
  }

  function Files(dir: string, es: seq<Entry>): seq<string> {
    if es == [] then []
    else if es[0].File? then [Under(dir, es[0].name)] + Files(dir, es[1..])
    else Files(dir, es[1..])
  }

  function Subdirs(dir: string, es: seq<Entry>): seq<string> {
    if es == [] then []
    else if es[0].Dir? then [Under(dir, es[0].name)] + Subdirs(dir, es[1..])
    else Subdirs(dir, es[1..])
  }

  /** A directory that cannot be opened counts as empty. */
  function Listing(disk: Disk, dir: string): seq<Entry> {
    if dir in disk then disk[dir] else []
  }

  function LevelFiles(disk: Disk, dirs: seq<string>): seq<string> {
    if dirs == [] then [] else Files(dirs[0], Listing(disk, dirs[0])) + LevelFiles(disk, dirs[1..])
  }

  function LevelDirs(disk: Disk, dirs: seq<string>): seq<string> {
    if dirs == [] then [] else Subdirs(dirs[0], Listing(disk, dirs[0])) + LevelDirs(disk, dirs[1..])
  }

  /** Level by level from a list of directories, `depth` levels below it. */
  function Levels(disk: Disk, dirs: seq<string>, depth: int): seq<string>
    decreases depth + 1
  {
    if depth < 0 then [] else LevelFiles(disk, dirs) + Levels(disk, LevelDirs(disk, dirs), depth - 1)
  }

  // ------------------------------------------------------ the recursive definition

  /** The files exactly `n` directories below `dir`, by recursion on the tree. */
  function AtDepth(disk: Disk, dir: string, n: nat): seq<string>
    decreases n, 1, 0
  {
    if n == 0 then Files(dir, Listing(disk, dir))
    else AtDepthEach(disk, Subdirs(dir, Listing(disk, dir)), n - 1)
  }

  function AtDepthEach(disk: Disk, dirs: seq<string>, n: nat): seq<string>
    decreases n, 2, |dirs|
  {
    if dirs == [] then [] else AtDepth(disk, dirs[0], n) + AtDepthEach(disk, dirs[1..], n)
  }

  /** Files at depth 0, then at depth 1, and so on up to `depth`. */
  function InLevelOrder(disk: Disk, dir: string, depth: int): seq<string>
    decreases depth + 1
  {
    if depth < 0 then [] else InLevelOrder(disk, dir, depth - 1) + AtDepth(disk, dir, depth)
  }

  lemma {:induction false} AtDepthEachConcat(disk: Disk, a: seq<string>, b: seq<string>, n: nat)
    ensures AtDepthEach(disk, a + b, n) == AtDepthEach(disk, a, n) + AtDepthEach(disk, b, n)
    decreases |a|
  {
    if a == [] {
      assert a + b == b;
    } else {
      AtDepthEachConcat(disk, a[1..], b, n);
      assert (a + b)[0] == a[0] && (a + b)[1..] == a[1..] + b;
      Assoc(AtDepth(disk, a[0], n), AtDepthEach(disk, a[1..], n), AtDepthEach(disk, b, n));
    }
  }

  /** One level further down from `dirs` is the same depth below their subdirectories. */
  lemma {:induction false} OneLevelDown(disk: Disk, dirs: seq<string>, n: nat)
    ensures AtDepthEach(disk, dirs, n + 1) == AtDepthEach(disk, LevelDirs(disk, dirs), n)
    decreases |dirs|
  {
    if dirs != [] {
      OneLevelDown(disk, dirs[1..], n);
      AtDepthEachConcat(disk, Subdirs(dirs[0], Listing(disk, dirs[0])), LevelDirs(disk, dirs[1..]), n);
    }
  }

  lemma {:induction false} LevelIsDepthZero(disk: Disk, dirs: seq<string>)
    ensures AtDepthEach(disk, dirs, 0) == LevelFiles(disk, dirs)
    decreases |dirs|
  {
    if dirs != [] {
      LevelIsDepthZero(disk, dirs[1..]);
    }
  }

  /** Extending the depth by one appends the files of the next level. */
  lemma {:induction false} LastLevel(disk: Disk, dirs: seq<string>, depth: nat)
    ensures Levels(disk, dirs, depth) == Levels(disk, dirs, depth - 1) + AtDepthEach(disk, dirs, depth)
    decreases depth
  {
    var next := LevelDirs(disk, dirs);
    if depth == 0 {
      LevelIsDepthZero(disk, dirs);
      assert Levels(disk, next, -1) == [];
      assert Levels(disk, dirs, 0) == LevelFiles(disk, dirs) + Levels(disk, next, -1);
    } else {
      LastLevel(disk, next, depth - 1);
      OneLevelDown(disk, dirs, depth - 1);
      Assoc(LevelFiles(disk, dirs), Levels(disk, next, depth - 2), AtDepthEach(disk, dirs, depth));
    }
  }

  /** The breadth-first listing is the recursive one: every level, in order, nothing else. */
  lemma {:induction false} ListingIsRecursive(disk: Disk, dir: string, depth: int)
    ensures Levels(disk, [dir], depth) == InLevelOrder(disk, dir, depth)
    decreases depth + 1
  {
    if depth >= 0 {
      ListingIsRecursive(disk, dir, depth - 1);
      LastLevel(disk, [dir], depth);
      assert AtDepthEach(disk, [dir][1..], depth) == [];
    }
  }

  lemma {:induction false} ListedAt(disk: Disk, dir: string, depth: int, n: nat, p: string)
    requires n <= depth && p in AtDepth(disk, dir, n)
    ensures p in InLevelOrder(disk, dir, depth)
    decreases depth
  {
    if n < depth {
      ListedAt(disk, dir, depth - 1, n, p);
    }
  }

  lemma {:induction false} DepthOfListed(disk: Disk, dir: string, depth: int, p: string) returns (n: nat)
    requires p in InLevelOrder(disk, dir, depth)
    ensures n <= depth && p in AtDepth(disk, dir, n)
    decreases depth + 1
  {
    if p in AtDepth(disk, dir, depth) {
      n := depth;
    } else {
      n := DepthOfListed(disk, dir, depth - 1, p);
    }
  }

  /** Some `n` directories below `dir`, no more than `depth`, `p` is a file. */
  ghost predicate FileWithin(disk: Disk, dir: string, depth: int, p: string) {
    exists n: nat :: n <= depth && p in AtDepth(disk, dir, n)
  }

  /** A path is listed exactly when it is a file at one of the depths up to the limit. */
  lemma ListedExactly(disk: Disk, dir: string, depth: int, p: string)
    ensures p in InLevelOrder(disk, dir, depth) <==> FileWithin(disk, dir, depth, p)
  {
    if p in InLevelOrder(disk, dir, depth) {
      var n := DepthOfListed(disk, dir, depth, p);
    }
    if n: nat :| n <= depth && p in AtDepth(disk, dir, n) {
      ListedAt(disk, dir, depth, n, p);
    }
  }

  /** The files of a directory are those the disk lists in it, under its path. */
  lemma FilesHere(disk: Disk, dir: string, p: string)
    ensures p in AtDepth(disk, dir, 0) <==>
      dir in disk && exists i :: 0 <= i < |disk[dir]| && disk[dir][i].File? && p == dir + "/" + disk[dir][i].name
  {
    PickedAre(dir, Listing(disk, dir), true, p);
  }

  /** One deeper are the files so deep below one of its subdirectories. */
  lemma FilesBelow(disk: Disk, dir: string, n: nat, p: string)
    ensures p in AtDepth(disk, dir, n + 1) <==>
      dir in disk && exists i :: 0 <= i < |disk[dir]| && disk[dir][i].Dir?
                                 && p in AtDepth(disk, dir + "/" + disk[dir][i].name, n)
  {
    var es := Listing(disk, dir);
    EachHas(disk, Subdirs(dir, es), n, p);
    forall d
      ensures d in Subdirs(dir, es) <==>
        dir in disk && exists i :: 0 <= i < |disk[dir]| && disk[dir][i].Dir? && d == dir + "/" + disk[dir][i].name
    {
      PickedAre(dir, es, false, d);
    }
    if dir in disk {
      forall i | 0 <= i < |es| && es[i].Dir?
        ensures dir + "/" + es[i].name in Subdirs(dir, es)
      {
        PickedAre(dir, es, false, dir + "/" + es[i].name);
      }
    }
  }

  lemma {:induction false} EachHas(disk: Disk, dirs: seq<string>, n: nat, p: string)
    ensures p in AtDepthEach(disk, dirs, n) <==> exists d :: d in dirs && p in AtDepth(disk, d, n)
    decreases |dirs|
  {
    if dirs != [] {
      EachHas(disk, dirs[1..], n, p);
      if d :| d in dirs && p in AtDepth(disk, d, n) {
        assert d == dirs[0] || d in dirs[1..];
      }
      if d :| d in dirs[1..] && p in AtDepth(disk, d, n) {
        assert d in dirs;
      }
      assert dirs[0] in dirs;
    }
  }

  lemma {:induction false} PickedAre(dir: string, es: seq<Entry>, files: bool, p: string)
    ensures p in Picked(dir, es, files) <==>
      exists i :: 0 <= i < |es| && (if files then es[i].File? else es[i].Dir?) && p == dir + "/" + es[i].name
  {
    if es != [] {
      PickedAre(dir, es[1..], files, p);
      assert forall i :: 0 < i < |es| ==> es[i] == es[1..][i - 1];
      assert forall i :: 0 <= i < |es| - 1 ==> es[1..][i] == es[i + 1];
    }
  }

  /** Entries are taken in the order the server lists them. */
  lemma {:induction false} PickedConcat(dir: string, a: seq<Entry>, b: seq<Entry>, files: bool)
    ensures Picked(dir, a + b, files) == Picked(dir, a, files) + Picked(dir, b, files)
  {
    if a == [] {
      assert a + b == b;
    } else {
      PickedConcat(dir, a[1..], b, files);
      assert (a + b)[0] == a[0] && (a + b)[1..] == a[1..] + b;
    }
  }

  // -------------------------------------------------------------- each file once

  predicate Distinct(s: seq<string>) {
    forall i, j :: 0 <= i < j < |s| ==> s[i] != s[j]
  }

  /** Names within one directory differ and contain no separator. */
  ghost predicate ProperNames(disk: Disk) {
    forall dir :: dir in disk ==>
      && (forall i :: 0 <= i < |disk[dir]| ==> '/' !in disk[dir][i].name)
      && (forall i, j :: 0 <= i < j < |disk[dir]| ==> disk[dir][i].name != disk[dir][j].name)
  }

  function Slashes(s: string): nat {
    if s == "" then 0 else (if s[0] == '/' then 1 else 0) + Slashes(s[1..])
  }

  lemma {:induction false} SlashesConcat(a: string, b: string)
    ensures Slashes(a + b) == Slashes(a) + Slashes(b)
  {
    if a == "" {
      assert a + b == b;
    } else {
      SlashesConcat(a[1..], b);
      assert (a + b)[1..] == a[1..] + b;
    }
  }

  lemma {:induction false} NoSlashes(name: string)
    requires '/' !in name
    ensures Slashes(name) == 0
  {
    if name != "" {
      NoSlashes(name[1..]);
    }
  }

  lemma UnderSlashes(dir: string, name: string)
    requires '/' !in name
    ensures Slashes(Under(dir, name)) == Slashes(dir) + 1
  {
    SlashesConcat(dir, "/" + name);
    SlashesConcat("/", name);
    NoSlashes(name);
    assert Under(dir, name) == dir + ("/" + name);
    assert "/"[1..] == "";
  }

  /** A path determines its directory and its name. */
  lemma UnderInjective(d1: string, n1: string, d2: string, n2: string)
    requires '/' !in n1 && '/' !in n2 && Under(d1, n1) == Under(d2, n2)
    ensures d1 == d2 && n1 == n2
  {
    var p := Under(d1, n1);
    assert p[|d1|] == '/' && p[|d2|] == '/';
    assert forall i :: |d1| < i < |p| ==> p[i] == n1[i - |d1| - 1];
    assert forall i :: |d2| < i < |p| ==> p[i] == n2[i - |d2| - 1];
    assert d1 == p[..|d1|] && n1 == p[|d1| + 1..];
    assert d2 == p[..|d2|] && n2 == p[|d2| + 1..];
  }

  lemma DistinctConcat(a: seq<string>, b: seq<string>)
    requires Distinct(a) && Distinct(b) && forall p :: p in a ==> p !in b
    ensures Distinct(a + b)
  {
    var s := a + b;
    forall i, j | 0 <= i < j < |s|
      ensures s[i] != s[j]
    {
      if i < |a| <= j {
        assert a[i] in a && b[j - |a|] in b;
      }
    }
  }

  /** The entries of `es` that `Files` and `Subdirs` pick, as one notion. */
  function Picked(dir: string, es: seq<Entry>, files: bool): seq<string> {
    if files then Files(dir, es) else Subdirs(dir, es)
  }

  function LevelPicked(disk: Disk, dirs: seq<string>, files: bool): seq<string> {
    if files then LevelFiles(disk, dirs) else LevelDirs(disk, dirs)
  }

  ghost predicate NamedIn(p: string, dir: string, es: seq<Entry>) {
    exists i :: 0 <= i < |es| && p == Under(dir, es[i].name)
  }

  lemma {:induction false} PickedFrom(dir: string, es: seq<Entry>, files: bool)
    requires forall i :: 0 <= i < |es| ==> '/' !in es[i].name
    requires forall i, j :: 0 <= i < j < |es| ==> es[i].name != es[j].name
    ensures Distinct(Picked(dir, es, files))
    ensures forall p :: p in Picked(dir, es, files) ==> NamedIn(p, dir, es)
  {
    if es != [] {
      PickedFrom(dir, es[1..], files);
      var rest := Picked(dir, es[1..], files);
      var first := Under(dir, es[0].name);
      forall p | p in rest
        ensures p != first && NamedIn(p, dir, es)
      {
        var i :| 0 <= i < |es[1..]| && p == Under(dir, es[1..][i].name);
        assert es[1..][i] == es[i + 1];
        if p == first {
          UnderInjective(dir, es[0].name, dir, es[i + 1].name);
        }
      }
      DistinctConcat([first], rest);
      assert NamedIn(first, dir, es);
      assert Picked(dir, es, files) == rest || Picked(dir, es, files) == [first] + rest;
    }
  }

  /** `p` is a proper name under one of `dirs`. */
  ghost predicate Below(p: string, dirs: seq<string>) {
    exists d, name :: d in dirs && '/' !in name && p == Under(d, name)
  }

  lemma {:induction false} LevelBelow(disk: Disk, dirs: seq<string>, files: bool)
    requires ProperNames(disk)
    ensures forall p :: p in LevelPicked(disk, dirs, files) ==> Below(p, dirs)
    decreases |dirs|
  {
    if dirs != [] {
      LevelBelow(disk, dirs[1..], files);
      var es := Listing(disk, dirs[0]);
      PickedFrom(dirs[0], es, files);
      forall p | p in Picked(dirs[0], es, files)
        ensures Below(p, dirs)
      {
        var i :| 0 <= i < |es| && p == Under(dirs[0], es[i].name);
      }
      forall p | p in LevelPicked(disk, dirs[1..], files)
        ensures Below(p, dirs)
      {
        var d, name :| d in dirs[1..] && '/' !in name && p == Under(d, name);
      }
    }
  }

  /** From distinct directories come distinct paths. */
  lemma {:induction false} LevelDistinct(disk: Disk, dirs: seq<string>, files: bool)
    requires ProperNames(disk) && Distinct(dirs)
    ensures Distinct(LevelPicked(disk, dirs, files))
    decreases |dirs|
  {
    if dirs != [] {
      var es := Listing(disk, dirs[0]);
      LevelDistinct(disk, dirs[1..], files);
      LevelBelow(disk, dirs[1..], files);
      PickedFrom(dirs[0], es, files);
      var here, rest := Picked(dirs[0], es, files), LevelPicked(disk, dirs[1..], files);
      forall p | p in here
        ensures p !in rest
      {
        var i :| 0 <= i < |es| && p == Under(dirs[0], es[i].name);
        if p in rest {
          var d, name :| d in dirs[1..] && '/' !in name && p == Under(d, name);
          UnderInjective(dirs[0], es[i].name, d, name);
        }
      }
      DistinctConcat(here, rest);
    }
  }

  lemma LevelSlashes(disk: Disk, dirs: seq<string>, files: bool, slashes: nat)
    requires ProperNames(disk) && forall d :: d in dirs ==> Slashes(d) == slashes
    ensures forall p :: p in LevelPicked(disk, dirs, files) ==> Slashes(p) == slashes + 1
  {
    LevelBelow(disk, dirs, files);
    forall p | p in LevelPicked(disk, dirs, files)
      ensures Slashes(p) == slashes + 1
    {
      var d, name :| d in dirs && '/' !in name && p == Under(d, name);
      UnderSlashes(d, name);
    }
  }

  /** Levels do not overlap either: each is one slash deeper than the one above. */
  lemma {:induction false} LevelsDistinct(disk: Disk, dirs: seq<string>, depth: int, slashes: nat)
    requires ProperNames(disk) && Distinct(dirs)
    requires forall d :: d in dirs ==> Slashes(d) == slashes
    ensures Distinct(Levels(disk, dirs, depth))
    ensures forall p :: p in Levels(disk, dirs, depth) ==> Slashes(p) > slashes
    decreases depth + 1
  {
    if depth >= 0 {
      LevelDistinct(disk, dirs, true);
      LevelDistinct(disk, dirs, false);
      LevelSlashes(disk, dirs, true, slashes);
      LevelSlashes(disk, dirs, false, slashes);
      LevelsDistinct(disk, LevelDirs(disk, dirs), depth - 1, slashes + 1);
      DistinctConcat(LevelFiles(disk, dirs), Levels(disk, LevelDirs(disk, dirs), depth - 1));
    }
  }

  /** No file is listed twice. */
  lemma EachFileOnce(disk: Disk, dir: string, depth: int)
    requires ProperNames(disk)
    ensures Distinct(InLevelOrder(disk, dir, depth))
  {
    LevelsDistinct(disk, [dir], depth, Slashes(dir));
    ListingIsRecursive(disk, dir, depth);
  }

  // -------------------------------------------------------------------- the loops

  function MatchesAll(filters: seq<string>, matcher: (string, string) -> bool): string -> bool {
    (p: string) => forall k :: 0 <= k < |filters| ==> matcher(filters[k], p)
  }

  /** Erases from the list what one wildcard does not match. */
  method EraseUnmatched(files: seq<string>, filter: string, matcher: (string, string) -> bool)
    returns (kept: seq<string>)
    ensures kept == Filter(files, p => matcher(filter, p))
  {
    ghost var f := (p: string) => matcher(filter, p);
    kept := files;
    var next := 0;
    while next < |kept|
      invariant next <= |kept|
      invariant kept[..next] + Filter(kept[next..], f) == Filter(files, f)
      decreases |kept| - next
    {
      ghost var rest := kept[next..];
      assert rest[0] == kept[next] && rest[1..] == kept[next + 1..];
      if matcher(filter, kept[next]) {
        next := next + 1;
        assert kept[..next] == kept[..next - 1] + [rest[0]];
      } else {
        kept := kept[..next] + kept[next + 1..];
        assert kept[next..] == rest[1..];
      }
    }
    assert kept[..next] == kept && kept[next..] == [];
  }

  /** The wildcard passes: what survives matches every wildcard, in the old order. */
  method ApplyFilters(files: seq<string>, filters: seq<string>, matcher: (string, string) -> bool)
    returns (kept: seq<string>)
    ensures kept == Filter(files, MatchesAll(filters, matcher))
    ensures forall p :: p in kept <==> p in files && forall k :: 0 <= k < |filters| ==> matcher(filters[k], p)
  {
    forall p
      ensures p in Filter(files, MatchesAll(filters, matcher)) <==>
        p in files && forall k :: 0 <= k < |filters| ==> matcher(filters[k], p)
    {
      FilterMember(files, MatchesAll(filters, matcher), p);
    }
    kept := files;
    var n := 0;
    assert Filter(files, MatchesAll([], matcher)) == files by { FilterAll(files, MatchesAll([], matcher)); }
    assert filters[..0] == [];
    while n < |filters|
      invariant n <= |filters|
      invariant kept == Filter(files, MatchesAll(filters[..n], matcher))
    {
      ghost var before := kept;
      kept := EraseUnmatched(kept, filters[n], matcher);
      FilterTwice(files, MatchesAll(filters[..n], matcher), p => matcher(filters[n], p),
                  MatchesAll(filters[..n + 1], matcher));
      n := n + 1;
      if kept == [] {
        NothingLeft(files, filters, n, matcher);
        return;
      }
    }
    assert filters[..n] == filters;
  }

  lemma NothingLeft(files: seq<string>, filters: seq<string>, n: nat, matcher: (string, string) -> bool)
    requires n <= |filters| && Filter(files, MatchesAll(filters[..n], matcher)) == []
    ensures Filter(files, MatchesAll(filters, matcher)) == []
  {
    forall p | p in files
      ensures !MatchesAll(filters, matcher)(p)
    {
      FilterMember(files, MatchesAll(filters[..n], matcher), p);
    }
    FilterNone(files, MatchesAll(filters, matcher));
  }

  class FileLister {
    var path: string
    var depth: int
    var filters: seq<string>

    constructor (path: string, filters: seq<string>)
      ensures this.path == path && depth == 0 && this.filters == filters
    {
      this.path, depth, this.filters := path, 0, filters;
    }

    method SetDepth(limit: int)
      modifies this`depth
      ensures depth == if limit >= 0 then limit else 0
    {
      depth := if limit >= 0 then limit else 0;
    }

    /** Splits the entries of an opened directory into files and directories. */
    static method ReadDir(dir: string, all: seq<Entry>) returns (files: seq<string>, dirs: seq<string>)
      ensures files == Files(dir, all) && dirs == Subdirs(dir, all)
    {
      files, dirs := [], [];
      var j := 0;
      assert all[0..] == all;
      while j < |all|
        invariant j <= |all|
        invariant files + Files(dir, all[j..]) == Files(dir, all)
        invariant dirs + Subdirs(dir, all[j..]) == Subdirs(dir, all)
      {
        ghost var rest := all[j + 1..];
        assert all[j..][0] == all[j] && all[j..][1..] == rest;
        if all[j].Dir? {
          Assoc(dirs, [Under(dir, all[j].name)], Subdirs(dir, rest));
          dirs := dirs + [dir + "/" + all[j].name];
        } else if all[j].File? {
          Assoc(files, [Under(dir, all[j].name)], Files(dir, rest));
          files := files + [dir + "/" + all[j].name];
        }
        j := j + 1;
      }
    }

    /** One level: the directories that open contribute their entries, the others nothing. */
    static method ReadLevel(disk: Disk, subDirs: seq<string>) returns (files: seq<string>, tmpDirs: seq<string>)
      ensures files == LevelFiles(disk, subDirs) && tmpDirs == LevelDirs(disk, subDirs)
    {
      files, tmpDirs := [], [];
      var i := 0;
      assert subDirs[0..] == subDirs;
      while i < |subDirs|
        invariant i <= |subDirs|
        invariant files + LevelFiles(disk, subDirs[i..]) == LevelFiles(disk, subDirs)
        invariant tmpDirs + LevelDirs(disk, subDirs[i..]) == LevelDirs(disk, subDirs)
      {
        assert subDirs[i..][1..] == subDirs[i + 1..];
        var f: seq<string>, d: seq<string> := [], [];
        if subDirs[i] in disk {
          f, d := ReadDir(subDirs[i], disk[subDirs[i]]);
        }
        assert LevelFiles(disk, subDirs[i..]) == f + LevelFiles(disk, subDirs[i + 1..]);
        assert LevelDirs(disk, subDirs[i..]) == d + LevelDirs(disk, subDirs[i + 1..]);
        Assoc(files, f, LevelFiles(disk, subDirs[i + 1..]));
        Assoc(tmpDirs, d, LevelDirs(disk, subDirs[i + 1..]));
        files, tmpDirs := files + f, tmpDirs + d;
        i := i + 1;
      }
    }

    /**
     The whole run: exactly the files at most `depth` directories down, in level
     order, that match every wildcard. The queue holds one level at most.
     */
    method Run(disk: Disk, matcher: (string, string) -> bool) returns (result: seq<string>)
      ensures result == Filter(InLevelOrder(disk, path, depth), MatchesAll(filters, matcher))
      ensures forall p :: p in result <==>
        FileWithin(disk, path, depth, p)
        && forall k :: 0 <= k < |filters| ==> matcher(filters[k], p)
    {
      result := [];
      var queue := [[path]];
      var left := depth;
      ghost var all := Levels(disk, [path], depth);
      while left >= 0 && |queue| > 0
        invariant |queue| <= 1
        invariant queue == [] ==> result == all
        invariant queue != [] ==> result + Levels(disk, queue[0], left) == all
        decreases left
      {
        var subDirs := queue[0];
        queue := queue[1..];
        var files, tmpDirs := ReadLevel(disk, subDirs);
        assert Levels(disk, subDirs, left) == files + Levels(disk, tmpDirs, left - 1);
        Assoc(result, files, Levels(disk, tmpDirs, left - 1));
        result := result + files;
        left := left - 1;
        EmptyLevel(disk, left);
        if left < 0 {
          assert Levels(disk, tmpDirs, left) == [] && result + [] == result;
        }
        if |tmpDirs| > 0 && left >= 0 {
          queue := queue + [tmpDirs];
        }
      }
      if queue != [] {
        assert Levels(disk, queue[0], left) == [] && result + [] == result;
      }
      ListingIsRecursive(disk, path, depth);
      var listed := result;
      result := ApplyFilters(listed, filters, matcher);
      forall p
        ensures p in result <==>
          FileWithin(disk, path, depth, p)
          && forall k :: 0 <= k < |filters| ==> matcher(filters[k], p)
      {
        ListedExactly(disk, path, depth, p);
        assert p in result <==> p in listed && forall k :: 0 <= k < |filters| ==> matcher(filters[k], p);
      }
    }
  }

  lemma {:induction false} EmptyLevel(disk: Disk, depth: int)
    ensures Levels(disk, [], depth) == []
    decreases depth + 1
  {
    if depth >= 0 {
      EmptyLevel(disk, depth - 1);
    }
  }
}
