/**
 Naming a project file: the UNC path one back end opens, and the share-relative path the
 other back end opens on the share `project`.
 */
module FilePaths {
  import opened Seqs

  const SHARE := "project"

  function Slashed(s: string): string {
    if s != "" && s[0] == '/' then s else "/" + s
  }

  function Joined(parts: seq<string>): string {
    if parts == [] then "" else Slashed(parts[0]) + Joined(parts[1..])
  }

  lemma {:induction false} JoinedAppend(parts: seq<string>, s: string)
    ensures Joined(parts + [s]) == Joined(parts) + Slashed(s)
  {
    if parts == [] {
      assert [s][1..] == [] && parts + [s] == [s];
      assert Joined([s]) == Slashed(s) + "" == Slashed(s);
    } else {
      JoinedAppend(parts[1..], s);
      assert (parts + [s])[0] == parts[0] && (parts + [s])[1..] == parts[1..] + [s];
      Assoc(Slashed(parts[0]), Joined(parts[1..]), Slashed(s));
    }
  }

  /** The server, then every part with exactly one separator put before it where it lacks one. */
  method JoinPath(parts: seq<string>) returns (path: string)
    ensures path == if parts == [] then "" else "\\\\" + parts[0] + Joined(parts[1..])
    ensures Parts(path) == if parts == [] then [] else Parts("\\\\" + parts[0]) + AllParts(parts[1..])
  {
    if parts == [] {
      return "";
    }
    var rest := parts[1..];
    var server := "\\\\" + parts[0];
    path := server;
    var i := 0;
    while i < |rest|
      invariant 0 <= i <= |rest|
      invariant path == server + Joined(rest[..i])
    {
      var str := rest[i];
      if !(str != "" && str[0] == '/') {
        str := "/" + str;
      }
      JoinedAppend(rest[..i], rest[i]);
      Assoc(server, Joined(rest[..i]), str);
      assert rest[..i + 1] == rest[..i] + [rest[i]];
      path := path + str;
      i := i + 1;
    }
    assert rest[..i] == rest;
    JoinedParts(server, rest);
  }

  predicate OccursAt(s: string, pattern: string, i: nat) {
    i + |pattern| <= |s| && s[i..i + |pattern|] == pattern
  }

  /** The first occurrence, or -1. */
  function IndexOf(s: string, pattern: string): (i: int)
    ensures i >= 0 ==> OccursAt(s, pattern, i) && forall j: nat :: j < i ==> !OccursAt(s, pattern, j)
    ensures i < 0 ==> forall j: nat :: !OccursAt(s, pattern, j)
  {
    IndexFrom(s, pattern, 0)
  }

  function IndexFrom(s: string, pattern: string, from: nat): (i: int)
    requires forall j: nat :: j < from ==> !OccursAt(s, pattern, j)
    ensures i >= 0 ==> OccursAt(s, pattern, i) && forall j: nat :: j < i ==> !OccursAt(s, pattern, j)
    ensures i < 0 ==> forall j: nat :: !OccursAt(s, pattern, j)
    decreases |s| - from
  {
    if OccursAt(s, pattern, from) then from
    else if from + |pattern| >= |s| then -1
    else IndexFrom(s, pattern, from + 1)
  }

  /** Cuts everything up to the first `project`, then one leading separator of either kind. */
  method RelativePath(fileName: string) returns (path: string)
    ensures path == Relative(fileName)
  {
    var pos := IndexOf(fileName, SHARE);
    if pos >= 0 {
      path := fileName[pos + |SHARE|..];
    } else {
      path := fileName;
    }
    if path != "" && (path[0] == '\\' || path[0] == '/') {
      path := path[1..];
    }
  }

  function Relative(fileName: string): string {
    var pos := IndexOf(fileName, SHARE);
    var rest := if pos >= 0 then fileName[pos + |SHARE|..] else fileName;
    if rest != "" && (rest[0] == '\\' || rest[0] == '/') then rest[1..] else rest
  }

  function Unc(ip: string, fileName: string): string {
    "\\\\" + ip + Joined([fileName])
  }

  /** `s` lies in the project share, as a path from the root or without the leading separator. */
  predicate InShare(s: string) {
    ROOT <= Slashed(s)
  }

  /** A path in the share has its first `project` at the front, even if `rel` contains another. */
  lemma RelativeOfShare(rel: string)
    ensures Relative("/" + SHARE + "/" + rel) == rel
    ensures Relative(SHARE + "/" + rel) == rel
  {
    var y := "/" + rel;
    assert y[1..] == rel;
    Assoc(SHARE, "/", rel);
    assert Relative("" + (SHARE + y)) == rel by { RelativeAfter("", y); }
    assert "" + (SHARE + y) == SHARE + y;
    assert Relative("/" + (SHARE + y)) == rel by { RelativeAfter("/", y); }
    Assoc("/", SHARE, y);
    Assoc("/" + SHARE, "/", rel);
  }

  const ROOT := "/" + SHARE + "/"

  lemma InShareExactly(fileName: string)
    ensures Slashed(fileName) == ROOT + Relative(fileName) <==> InShare(fileName)
  {
    if InShare(fileName) {
      var slashed := Slashed(fileName);
      var rel := slashed[|ROOT|..];
      RelativeOfShare(rel);
      assert slashed == ROOT + rel;
      if fileName == "" || fileName[0] != '/' {
        assert fileName == slashed[1..];
        assert (ROOT + rel)[1..] == SHARE + "/" + rel;
      }
    }
  }

  lemma SamePrefix(p: string, a: string, b: string)
    ensures p + a == p + b <==> a == b
  {
    assert (p + a)[|p|..] == a && (p + b)[|p|..] == b;
  }

  /** The two back ends open the same file for exactly the paths that lie in the project share. */
  lemma SameFileExactlyInShare(ip: string, fileName: string)
    ensures Unc(ip, fileName) == "\\\\" + ip + (ROOT + Relative(fileName)) <==> InShare(fileName)
  {
    assert [fileName][1..] == [] && Joined([fileName]) == Slashed(fileName) + "" == Slashed(fileName);
    SamePrefix("\\\\" + ip, Slashed(fileName), ROOT + Relative(fileName));
    InShareExactly(fileName);
  }

  // ------------------------------------------------------------- folder operations

  function Forward(s: string): string {
    if s == "" then "" else [if s[0] == '\\' then '/' else s[0]] + Forward(s[1..])
  }

  /** One pass from the left, each pair of slashes becoming one. */
  function Halved(s: string): string {
    if |s| < 2 then s
    else if s[0] == '/' && s[1] == '/' then "/" + Halved(s[2..])
    else [s[0]] + Halved(s[1..])
  }

  /** Path of a new folder relative to the share, as the SMB back end computes it. */
  method NewFolderPath(url: string, folderName: string) returns (path: string)
    ensures path == NewFolder(url, folderName)
  {
    path := url + "/" + folderName;
    path := Forward(path);
    path := Halved(path);
    if path != "" && path[|path| - 1] == '/' {
      path := path[..|path| - 1];
    }
    if path != "" && path[0] == '/' {
      path := path[1..];
    }
    path := RelativePath(path);
  }

  function TrimmedEnd(path: string): string {
    if path != "" && path[|path| - 1] == '/' then path[..|path| - 1] else path
  }

  function Trimmed(path: string): string {
    var cut := TrimmedEnd(path);
    if cut != "" && cut[0] == '/' then cut[1..] else cut
  }

  function NewFolder(url: string, folderName: string): string {
    Relative(Trimmed(Halved(Forward(url + "/" + folderName))))
  }

  ghost predicate NoDouble(s: string) {
    forall i :: 0 <= i < |s| - 1 ==> s[i] == '/' ==> s[i + 1] != '/'
  }

  ghost predicate NoTriple(s: string) {
    forall i :: 0 <= i < |s| - 2 ==> !(s[i] == '/' && s[i + 1] == '/' && s[i + 2] == '/')
  }

  lemma NoDoubleTail(s: string)
    requires s != ""
    ensures NoDouble(s) <==> NoDouble(s[1..]) && !(|s| > 1 && s[0] == '/' && s[1] == '/')
  {
    var t := s[1..];
    assert forall i :: 0 <= i < |t| ==> t[i] == s[i + 1];
    if NoDouble(t) {
      forall i | 0 < i < |s| - 1 && s[i] == '/'
        ensures s[i + 1] != '/'
      {
        assert t[i - 1] == '/';
      }
    }
  }

  lemma NoTripleTail(s: string)
    requires s != ""
    ensures NoTriple(s) <==> NoTriple(s[1..]) && !(|s| > 2 && s[0] == '/' && s[1] == '/' && s[2] == '/')
  {
    var t := s[1..];
    assert forall i :: 0 <= i < |t| ==> t[i] == s[i + 1];
    if NoTriple(t) {
      forall i | 0 < i < |s| - 2
        ensures !(s[i] == '/' && s[i + 1] == '/' && s[i + 2] == '/')
      {
        assert t[i - 1] == s[i];
      }
    }
  }

  /** One pass leaves no doubled slash exactly when there were never three in a row. */
  lemma {:induction false} HalvedExactly(s: string)
    ensures NoDouble(Halved(s)) <==> NoTriple(s)
    ensures s != "" ==> Halved(s) != "" && Halved(s)[0] == s[0]
    decreases |s|
  {
    if |s| >= 2 {
      var h := Halved(s);
      var n := if s[0] == '/' && s[1] == '/' then 2 else 1;
      HalvedExactly(s[n..]);
      assert h[1..] == Halved(s[n..]);
      NoDoubleTail(h);
      NoTripleTail(s);
      if n == 2 {
        NoTripleTail(s[1..]);
        assert s[1..][1..] == s[2..];
      }
    }
  }

  /** A stretch without slashes passes through. */
  lemma {:induction false} HalvedSkips(a: string, t: string)
    requires '/' !in a
    ensures Halved(a + t) == a + Halved(t)
  {
    if a == "" {
      assert a + t == t;
    } else {
      HalvedSkips(a[1..], t);
      assert (a + t)[0] == a[0] && (a + t)[1..] == a[1..] + t;
      assert a[0] in a;
      assert |t| == 0 && |a| == 1 ==> Halved(a + t) == a;
      Assoc([a[0]], a[1..], Halved(t));
      assert [a[0]] + a[1..] == a;
    }
  }

  // -------------------------------------------------------------- parts of a path

  function FirstSlash(s: string): (n: nat)
    ensures n <= |s| && '/' !in s[..n] && (n < |s| ==> s[n] == '/')
    ensures forall i :: 0 <= i < n ==> s[i] != '/'
  {
    if s == "" || s[0] == '/' then 0
    else
      var n := FirstSlash(s[1..]);
      assert s[..n + 1] == [s[0]] + s[1..][..n];
      n + 1
  }

  /** The names between the slashes; empty ones do not count. */
  function Parts(s: string): seq<string>
    decreases |s|
  {
    if s == "" then []
    else if s[0] == '/' then Parts(s[1..])
    else
      var n := FirstSlash(s);
      [s[..n]] + Parts(s[n..])
  }

  function PathOf(parts: seq<string>): string {
    if parts == [] then ""
    else if |parts| == 1 then parts[0]
    else parts[0] + "/" + PathOf(parts[1..])
  }

  /** A first name, up to the end or a slash. */
  lemma PartsFirst(name: string, t: string)
    requires name != "" && '/' !in name && (t == "" || t[0] == '/')
    ensures Parts(name + t) == [name] + Parts(t)
  {
    var s := name + t;
    var n := FirstSlash(s);
    assert forall i :: 0 <= i < |name| ==> s[i] == name[i] && name[i] in name;
    assert t != "" ==> s[|name|] == '/';
    assert n == |name|;
    assert s[..n] == name && s[n..] == t;
  }

  lemma {:induction false} PartsJoin(a: string, b: string)
    ensures Parts(a + "/" + b) == Parts(a) + Parts(b)
    decreases |a|
  {
    var s := a + "/" + b;
    if a == "" {
      assert s[1..] == b;
    } else if a[0] == '/' {
      PartsJoin(a[1..], b);
      assert s[1..] == a[1..] + "/" + b;
    } else {
      var n := FirstSlash(a);
      var name, later := a[..n], a[n..];
      var rest := later + "/" + b;
      PartsJoin(later, b);
      assert a == name + later && s == name + rest;
      assert Parts(s) == [name] + Parts(rest) by { PartsFirst(name, rest); }
      assert Parts(a) == [name] + Parts(later) by { PartsFirst(name, later); }
      Assoc([name], Parts(later), Parts(b));
    }
  }

  ghost predicate AreNames(parts: seq<string>) {
    forall i :: 0 <= i < |parts| ==> parts[i] != "" && '/' !in parts[i]
  }

  lemma {:induction false} PartsAreNames(s: string)
    ensures AreNames(Parts(s))
    decreases |s|
  {
    if s != "" {
      if s[0] == '/' {
        PartsAreNames(s[1..]);
      } else {
        PartsAreNames(s[FirstSlash(s)..]);
      }
    }
  }

  /** The pass does not change what the path names. */
  lemma {:induction false} PartsHalved(s: string)
    ensures Parts(Halved(s)) == Parts(s)
    decreases |s|
  {
    if |s| >= 2 {
      if s[0] == '/' {
        var n := if s[1] == '/' then 2 else 1;
        PartsHalved(s[n..]);
        assert Halved(s)[1..] == Halved(s[n..]);
        assert n == 2 ==> s[1..][1..] == s[2..];
      } else {
        var n := FirstSlash(s);
        assert s == s[..n] + s[n..];
        PartsHalved(s[n..]);
        HalvedExactly(s[n..]);
        HalvedSkips(s[..n], s[n..]);
        PartsFirst(s[..n], Halved(s[n..]));
      }
    }
  }

  /** Without doubled slashes, the names joined by slashes are the path without the slashes at its ends. */
  lemma PathOfParts(t: string)
    requires NoDouble(t)
    ensures PathOf(Parts(t)) == Trimmed(t)
  {
    if t != "" && t[0] == '/' {
      NoDoubleTail(t);
      PathOfTail(t[1..]);
      TrimmedFront(t);
    } else {
      PathOfTail(t);
    }
  }

  lemma TrimmedFront(t: string)
    requires NoDouble(t) && t != "" && t[0] == '/'
    ensures Trimmed(t) == TrimmedEnd(t[1..])
  {
    var n, u := |t| - 1, t[1..];
    if n > 0 && t[n] == '/' {
      assert u[n - 1] == t[n] && u[..n - 1] == t[..n][1..];
    } else if n > 0 {
      assert u[n - 1] == t[n];
    }
  }

  lemma {:induction false} PathOfTail(t: string)
    requires NoDouble(t) && (t != "" ==> t[0] != '/')
    ensures PathOf(Parts(t)) == TrimmedEnd(t)
    decreases |t|
  {
    if t != "" {
      var n := FirstSlash(t);
      if n == |t| {
        assert t[..n] == t && Parts(t[n..]) == [];
        assert t[|t| - 1] != '/';
      } else {
        var u := t[n + 1..];
        NameSplit(t, n);
        PathOfTail(u);
        TailJoined(t[..n], u);
      }
    }
  }

  lemma NameSplit(t: string, n: nat)
    requires NoDouble(t) && t != "" && t[0] != '/' && n == FirstSlash(t) < |t|
    ensures var u := t[n + 1..];
      t == t[..n] + "/" + u && NoDouble(u) && (u != "" ==> u[0] != '/') && Parts(t) == [t[..n]] + Parts(u)
  {
    var u := t[n + 1..];
    assert forall i :: 0 <= i < |u| ==> u[i] == t[n + 1 + i];
    assert t[n..][1..] == u;
  }

  /** The names of `name/u`, given those of `u`. */
  lemma TailJoined(name: string, u: string)
    requires u != "" ==> u[0] != '/'
    requires PathOf(Parts(u)) == TrimmedEnd(u)
    ensures PathOf([name] + Parts(u)) == TrimmedEnd(name + "/" + u)
  {
    var t := name + "/" + u;
    if u == "" {
      assert t == name + "/" && t[..|t| - 1] == name;
    } else {
      assert ([name] + Parts(u))[1..] == Parts(u) && Parts(u) != [];
      TrimmedEndAfter(name + "/", u);
    }
  }

  lemma TrimmedEndAfter(a: string, b: string)
    requires b != ""
    ensures TrimmedEnd(a + b) == a + TrimmedEnd(b)
  {
    var s := a + b;
    assert s[|s| - 1] == b[|b| - 1] && s[..|s| - 1] == a + b[..|b| - 1];
  }

  /** Names joined by slashes: no slash at either end, none doubled. */
  lemma {:induction false} PathIsTidy(parts: seq<string>)
    requires AreNames(parts) && parts != []
    ensures var p := PathOf(parts); p != "" && p[0] != '/' && p[|p| - 1] != '/' && NoDouble(p)
  {
    var name, p := parts[0], PathOf(parts);
    assert name[0] in name && name[|name| - 1] in name;
    assert NoDouble(name) by {
      assert forall i :: 0 <= i < |name| ==> name[i] in name;
    }
    if |parts| > 1 {
      var rest := PathOf(parts[1..]);
      PathIsTidy(parts[1..]);
      NoDoubleJoin(name, "/");
      NoDoubleJoin(name + "/", rest);
      assert p[|p| - 1] == rest[|rest| - 1];
    }
  }

  lemma NoDoubleJoin(a: string, b: string)
    requires a != "" && b != "" && NoDouble(a) && NoDouble(b) && !(a[|a| - 1] == '/' && b[0] == '/')
    ensures NoDouble(a + b)
  {
    var s := a + b;
    forall i | 0 <= i < |s| - 1 && s[i] == '/'
      ensures s[i + 1] != '/'
    {
      if i >= |a| {
        assert b[i - |a|] == '/';
      }
    }
  }

  // --------------------------------------------------------- the other back end's path

  /** A part is put behind a separator unless it brings its own. */
  lemma SlashedOnce(s: string)
    ensures s != "" && s[0] == '/' ==> Slashed(s) == s
    ensures s == "" || s[0] != '/' ==> |Slashed(s)| == |s| + 1 && Slashed(s)[0] == '/' && Slashed(s)[1..] == s
  {
  }

  function AllParts(parts: seq<string>): seq<string> {
    if parts == [] then [] else Parts(parts[0]) + AllParts(parts[1..])
  }

  /** The joined path has the names of the server and of every part, in order and none run together. */
  lemma {:induction false} JoinedParts(front: string, parts: seq<string>)
    ensures Parts(front + Joined(parts)) == Parts(front) + AllParts(parts)
    decreases |parts|
  {
    if parts == [] {
      assert front + Joined(parts) == front && Parts(front) + [] == Parts(front);
    } else {
      var more := front + Slashed(parts[0]);
      Assoc(front, Slashed(parts[0]), Joined(parts[1..]));
      JoinedParts(more, parts[1..]);
      SlashedParts(front, parts[0]);
      Assoc(Parts(front), Parts(parts[0]), AllParts(parts[1..]));
    }
  }

  lemma SlashedParts(front: string, s: string)
    ensures Parts(front + Slashed(s)) == Parts(front) + Parts(s)
  {
    if s != "" && s[0] == '/' {
      assert front + Slashed(s) == front + "/" + s[1..];
      PartsJoin(front, s[1..]);
    } else {
      assert front + Slashed(s) == front + "/" + s;
      PartsJoin(front, s);
    }
  }

  /** Whatever stands in front of the first `project`, and one separator of either kind behind it, is cut. */
  lemma RelativeCuts(front: string, separator: char, rest: string)
    requires separator == '/' || separator == '\\'
    requires forall j: nat :: j < |front| ==> !OccursAt(front + SHARE + [separator] + rest, SHARE, j)
    ensures Relative(front + SHARE + [separator] + rest) == rest
  {
    var s := front + SHARE + [separator] + rest;
    assert OccursAt(s, SHARE, |front|);
    assert IndexOf(s, SHARE) == |front|;
    assert s[|front| + |SHARE|..] == [separator] + rest;
  }

  /** A path that names the share nowhere keeps all but one separator in front. */
  lemma RelativeElsewhere(s: string)
    requires forall j: nat :: !OccursAt(s, SHARE, j)
    ensures Relative(s) == if s != "" && (s[0] == '/' || s[0] == '\\') then s[1..] else s
  {
  }

  /** A path in the share is one that starts with the share's name, after a separator or without one. */
  lemma InShareSpelled(s: string)
    ensures InShare(s) <==> "/project/" <= s || "project/" <= s
  {
    assert ROOT == "/project/";
    if s != "" && s[0] == '/' {
      assert !("project/" <= s);
    } else {
      assert Slashed(s)[1..] == s && "/project/"[1..] == "project/";
      if "project/" <= s {
        assert forall i :: 0 < i < 9 ==> Slashed(s)[i] == s[i - 1] == "project/"[i - 1] == "/project/"[i];
        assert Slashed(s)[..9] == "/project/";
      }
      if "/project/" <= Slashed(s) {
        assert forall i :: 0 <= i < 8 ==> s[i] == Slashed(s)[i + 1] == "/project/"[i + 1] == "project/"[i];
        assert s[..8] == "project/";
      }
    }
  }

  // ------------------------------------------------------- what the new folder is

  /** The path without the slashes in front of it. */
  function Unled(s: string): string {
    if s != "" && s[0] == '/' then Unled(s[1..]) else s
  }

  predicate AllSlashes(s: string) {
    forall i :: 0 <= i < |s| ==> s[i] == '/'
  }

  lemma {:induction false} UnledHalved(s: string) returns (lead: string)
    requires Unled(s) != ""
    ensures AllSlashes(lead) && Halved(s) == lead + Halved(Unled(s))
    ensures lead == "" <==> s[0] != '/'
    decreases |s|
  {
    if s[0] != '/' {
      lead := "";
      assert lead + Halved(s) == Halved(s);
    } else {
      var n := if s[1] == '/' then 2 else 1;
      assert n == 2 ==> s[1..][1..] == s[2..];
      var less := UnledHalved(s[n..]);
      lead := "/" + less;
      assert Halved(s) == "/" + Halved(s[n..]);
      Assoc("/", less, Halved(Unled(s)));
    }
  }

  lemma {:induction false} UnledParts(s: string)
    ensures Parts(Unled(s)) == Parts(s) && (Unled(s) != "" ==> Unled(s)[0] != '/')
  {
    if s != "" && s[0] == '/' {
      UnledParts(s[1..]);
    }
  }

  /** Slashes in front of the share's name are cut off with it. */
  lemma RelativeAfter(lead: string, y: string)
    requires AllSlashes(lead) && (y != "" ==> y[0] == '/')
    ensures Relative(lead + (SHARE + y)) == if y == "" then "" else y[1..]
  {
    var s := lead + (SHARE + y);
    assert OccursAt(s, SHARE, |lead|);
    forall j: nat | j < |lead|
      ensures !OccursAt(s, SHARE, j)
    {
      assert s[j] == '/';
      assert j + |SHARE| <= |s| ==> s[j..j + |SHARE|][0] == '/';
    }
    assert IndexOf(s, SHARE) == |lead|;
    assert s[|lead| + |SHARE|..] == y;
  }

  /** What is left after the share's name, with the slashes at its ends taken off. */
  lemma NewFolderTrims(full: string, tail: string)
    requires Unled(full) == SHARE + tail && (tail != "" ==> tail[0] == '/')
    ensures Relative(Trimmed(Halved(full))) == Trimmed(Halved(tail))
  {
    var lead := UnledHalved(full);
    var y := Halved(tail);
    HalvedSkips(SHARE, tail);
    HalvedExactly(tail);
    var cut := TrimmedEnd(y);
    ShareTrimmed(y);
    TrimmedEndAfter(lead, SHARE + y);
    RelativeTrimmed(lead, cut, lead + (SHARE + y));
  }

  lemma ShareTrimmed(y: string)
    ensures TrimmedEnd(SHARE + y) == SHARE + TrimmedEnd(y)
  {
    if y != "" {
      TrimmedEndAfter(SHARE, y);
    } else {
      assert SHARE + y == SHARE && SHARE[|SHARE| - 1] == 't';
    }
  }

  lemma RelativeTrimmed(lead: string, cut: string, h: string)
    requires AllSlashes(lead) && (cut != "" ==> cut[0] == '/') && TrimmedEnd(h) == lead + (SHARE + cut)
    ensures Relative(Trimmed(h)) == if cut == "" then "" else cut[1..]
  {
    var x := SHARE + cut;
    assert x[0] == 'p';
    if lead == "" {
      assert lead + x == x;
      RelativeAfter(lead, cut);
    } else {
      assert (lead + x)[0] == '/' && (lead + x)[1..] == lead[1..] + x;
      RelativeAfter(lead[1..], cut);
    }
  }

  /** Three slashes in a row are what trimming and halving cannot mend. */
  lemma TidyExactly(tail: string)
    requires tail != "" ==> tail[0] == '/'
    ensures NoTriple(tail) ==> Trimmed(Halved(tail)) == PathOf(Parts(tail))
    ensures Trimmed(Halved(tail)) == PathOf(Parts(tail)) && Parts(tail) != [] ==> NoTriple(tail)
  {
    var y := Halved(tail);
    HalvedExactly(tail);
    PartsHalved(tail);
    if NoTriple(tail) {
      PathOfParts(y);
    }
    var r := PathOf(Parts(tail));
    if Trimmed(y) == r && Parts(tail) != [] {
      PartsAreNames(tail);
      PathIsTidy(Parts(tail));
      TidyInside(y, r);
    }
  }

  lemma TidyInside(y: string, r: string)
    requires y != "" && y[0] == '/' && Trimmed(y) == r
    requires r != "" && r[0] != '/' && r[|r| - 1] != '/' && NoDouble(r)
    ensures NoDouble(y)
  {
    var cut := TrimmedEnd(y);
    assert cut == "/" + r by {
      if |y| > 1 { assert cut[0] == '/'; }
    }
    NoDoubleJoin("/", r);
    if cut != y {
      assert y == cut + "/";
      assert cut[|cut| - 1] == r[|r| - 1];
      NoDoubleJoin(cut, "/");
    }
  }

  lemma {:induction false} ForwardConcat(a: string, b: string)
    ensures Forward(a + b) == Forward(a) + Forward(b)
  {
    if a == "" {
      assert a + b == b;
    } else {
      ForwardConcat(a[1..], b);
      assert (a + b)[0] == a[0] && (a + b)[1..] == a[1..] + b;
      Assoc([if a[0] == '\\' then '/' else a[0]], Forward(a[1..]), Forward(b));
    }
  }

  /** The names in the url, then those in the folder name; either separator counts. */
  function Named(url: string, folderName: string): seq<string> {
    Parts(Forward(url)) + Parts(Forward(folderName))
  }

  /**
   For every url in the share and every folder name, with whatever separators: the folder
   made is the one named exactly when nowhere but in front three separators meet. (With no
   name but the share's own, three of them do no harm.)
   */
  lemma NewFolderInShare(url: string, folderName: string)
    requires Named(url, folderName) != [] && Named(url, folderName)[0] == SHARE
    ensures var asNamed := NewFolder(url, folderName) == PathOf(Named(url, folderName)[1..]);
      var mendable := NoTriple(Unled(Forward(url + "/" + folderName)));
      (mendable ==> asNamed) && (|Named(url, folderName)| > 1 ==> (asNamed <==> mendable))
  {
    var full := Forward(url + "/" + folderName);
    ForwardConcat(url + "/", folderName);
    ForwardConcat(url, "/");
    assert Forward("/") == "/";
    PartsJoin(Forward(url), Forward(folderName));
    UnledParts(full);
    var u := Unled(full);
    var n := FirstSlash(u);
    var tail := u[n..];
    assert u[..n] == SHARE && u == SHARE + tail && Parts(tail) == Named(url, folderName)[1..];
    NewFolderTrims(full, tail);
    TidyExactly(tail);
    NoTripleAfter(SHARE, tail);
  }

  lemma {:induction false} NoTripleAfter(name: string, tail: string)
    requires '/' !in name
    ensures NoTriple(name + tail) <==> NoTriple(tail)
  {
    if name == "" {
      assert name + tail == tail;
    } else {
      NoTripleAfter(name[1..], tail);
      NoTripleTail(name + tail);
      assert name[0] in name && (name + tail)[0] == name[0] && (name + tail)[1..] == name[1..] + tail;
    }
  }

  ghost predicate Tidy(s: string) {
    s != "" && s[0] != '/' && s[|s| - 1] != '/' && '\\' !in s && NoDouble(s)
  }

  /** Below a tidy project path the names are simply joined, with or without a final slash on the url. */
  lemma NewFolderTidy(rel: string, folderName: string)
    requires Tidy(rel) && Tidy(folderName)
    ensures NewFolder("/" + SHARE + ("/" + rel), folderName) == rel + "/" + folderName
    ensures NewFolder("/" + SHARE + ("/" + rel + "/"), folderName) == rel + "/" + folderName
  {
    var url := "/" + rel;
    TidyOnce(rel, folderName);
    TidyTwice(url, folderName);
    JoinedInShare(url, folderName);
    JoinedInShare(url + "/", folderName);
  }

  lemma TidyOnce(rel: string, folderName: string)
    requires Tidy(rel) && Tidy(folderName)
    ensures var once := "/" + rel + "/" + folderName;
      NoDouble("/" + rel) && NoTriple(once) && Parts(once) != [] && PathOf(Parts(once)) == rel + "/" + folderName
  {
    var url, inShare := "/" + rel, rel + "/" + folderName;
    var once := url + "/" + folderName;
    assert once == "/" + inShare;
    NoDoubleJoin("/", rel);
    NoDoubleJoin(url, "/");
    NoDoubleJoin(url + "/", folderName);
    assert NoTriple(once);
    assert inShare[|inShare| - 1] == folderName[|folderName| - 1];
    assert TrimmedEnd(once) == once && once[1..] == inShare;
    PathOfParts(once);
  }

  lemma TidyTwice(url: string, folderName: string)
    requires NoDouble(url) && url != "" && url[|url| - 1] != '/' && Tidy(folderName)
    ensures NoTriple(url + "/" + "/" + folderName)
    ensures Parts(url + "/" + "/" + folderName) == Parts(url + "/" + folderName)
  {
    var front := url + "/";
    assert NoTriple(front + "/" + folderName) by {
      NoDoubleJoin(url, "/");
      NoDoubleJoin("/", folderName);
      NoTripleJoin(front, "/" + folderName);
      Assoc(front, "/", folderName);
    }
    assert Parts(front) == Parts(url) by {
      PartsJoin(url, "");
      assert front + "" == front && Parts(url) + [] == Parts(url);
    }
    PartsJoin(url, folderName);
    PartsJoin(front, folderName);
  }

  lemma NoTripleJoin(a: string, b: string)
    requires NoDouble(a) && NoDouble(b)
    ensures NoTriple(a + b)
  {
    var s := a + b;
    forall i | 0 <= i < |s| - 2
      ensures !(s[i] == '/' && s[i + 1] == '/' && s[i + 2] == '/')
    {
      if i + 1 < |a| {
        assert s[i] == a[i] && s[i + 1] == a[i + 1];
      } else {
        assert s[i + 1] == b[i + 1 - |a|] && s[i + 2] == b[i + 2 - |a|];
      }
    }
  }

  lemma JoinedInShare(url: string, folderName: string)
    requires url != "" && url[0] == '/' && '\\' !in url && '\\' !in folderName
    requires NoTriple(url + "/" + folderName) && Parts(url + "/" + folderName) != []
    ensures NewFolder("/" + SHARE + url, folderName) == PathOf(Parts(url + "/" + folderName))
  {
    var tail := url + "/" + folderName;
    assert "/" + SHARE + url + "/" + folderName == "/" + SHARE + tail;
    UnderShare(tail);
    TidyExactly(tail);
  }

  /** A slash closing the url and one opening the name are one too many. */
  lemma ThreeSlashesStay()
    ensures NewFolder("/project/a/", "/b") == "a//b"
  {
    assert "/project/a/" + "/" + "/b" == "/" + SHARE + "/a///b";
    UnderShare("/a///b");
    SlashesHalved();
  }

  lemma UnderShare(tail: string)
    requires tail != "" && tail[0] == '/' && '\\' !in tail
    ensures Relative(Trimmed(Halved(Forward("/" + SHARE + tail)))) == Trimmed(Halved(tail))
  {
    var share := SHARE + tail;
    var full := "/" + SHARE + tail;
    assert full == "/" + share && full[1..] == share && share[0] == 'p';
    assert '\\' !in full by {
      assert '\\' !in "/" + SHARE;
    }
    ForwardUnchanged(full);
    NewFolderTrims(full, tail);
  }

  lemma SlashesHalved()
    ensures Trimmed(Halved("/a///b")) == "a//b"
  {
    assert "///b"[2..] == "/b" && "/b"[1..] == "b";
    assert Halved("///b") == "/" + Halved("/b") == "//b";
    HalvedSkips("a", "///b");
    assert "/a///b"[1..] == "a" + "///b";
    assert Halved("/a///b") == "/a//b";
    assert "/a//b"[1..] == "a//b";
  }

  lemma {:induction false} ForwardUnchanged(s: string)
    requires '\\' !in s
    ensures Forward(s) == s
  {
    if s != "" {
      assert s[0] in s;
      ForwardUnchanged(s[1..]);
    }
  }

  /** Outside the share they differ: a directory merely named like it is cut away. */
  lemma LookalikeIsCut()
    ensures !InShare("/myproject/a.lua") && Relative("/myproject/a.lua") == "a.lua"
  {
    var s := "/myproject/a.lua";
    assert s[3..10] == SHARE;
    assert OccursAt(s, SHARE, 3);
    forall j: nat | j < 3
      ensures !OccursAt(s, SHARE, j)
    {
      assert s[j..j + |SHARE|][0] == s[j] != SHARE[0];
    }
    assert IndexOf(s, SHARE) == 3;
    assert s[3 + |SHARE|..] == "/a.lua" && "/a.lua"[1..] == "a.lua";
    assert s[1] == 'm' && ROOT[1] == 'p';
  }
}
