/** The `node_modules` paths of an npm lock file, as strings: their grammar, the cut at the last marker, the
    nearest-ancestor lookup and the tarball address. */
module NpmPaths {
  import opened Results

  const DIR := "node_modules/"
  const MARKER := "/node_modules/"

  // ---- package names ----

  predicate Lower(c: char) { 'a' <= c <= 'z' || '0' <= c <= '9' }
  predicate Alnum(c: char) { Lower(c) || 'A' <= c <= 'Z' }
  predicate NameTail(c: char) { c in "._~-" }

  /** One slash-free part; upper case only where `mixed`. */
  predicate Part(s: string, mixed: bool) {
    && s != ""
    && (if mixed then Alnum(s[0]) else Lower(s[0]))
    && forall i :: 0 <= i < |s| ==> (if mixed then Alnum(s[i]) else Lower(s[i])) || NameTail(s[i])
  }

  function IndexOf(s: string, c: char): (i: nat)
    ensures i <= |s| && (i < |s| ==> s[i] == c)
    ensures forall k :: 0 <= k < i ==> s[k] != c
  {
    if s == "" || s[0] == c then 0 else 1 + IndexOf(s[1..], c)
  }

  predicate Name(s: string, mixed: bool) {
    if s != "" && s[0] == '@' then
      var slash := IndexOf(s, '/');
      slash < |s| && Part(s[1..slash], false) && Part(s[slash + 1..], mixed)
    else Part(s, mixed)
  }

  /** The manifest's names are lower case; names inside a lock may be mixed. */
  predicate IsNpmName(s: string) { Name(s, false) }
  predicate IsLockName(s: string) { Name(s, true) }

  function Basename(name: string): string {
    if name != "" && name[0] == '@' && IndexOf(name, '/') < |name| then name[IndexOf(name, '/') + 1..] else name
  }

  // ---- paths ----

  predicate LockNames(names: seq<string>) {
    names != [] && forall i :: 0 <= i < |names| ==> IsLockName(names[i])
  }

  function Render(names: seq<string>): string
    requires names != []
  {
    if |names| == 1 then DIR + names[0]
    else Render(names[..|names| - 1]) + MARKER + names[|names| - 1]
  }

  predicate MarkerAt(s: string, k: int) { 0 <= k && k + |MARKER| <= |s| && s[k..k + |MARKER|] == MARKER }

  /** `rfind("/node_modules/")` */
  function LastMarker(s: string): (m: int)
    ensures m == -1 || MarkerAt(s, m)
    ensures forall k :: MarkerAt(s, k) ==> k <= m
  {
    MarkerBefore(s, |s|)
  }

  function MarkerBefore(s: string, end: nat): (m: int)
    requires end <= |s|
    ensures m == -1 || (MarkerAt(s, m) && m <= end)
    ensures forall k :: MarkerAt(s, k) && k <= end ==> k <= m
  {
    if MarkerAt(s, end) then end else if end == 0 then -1 else MarkerBefore(s, end - 1)
  }

  lemma MarkerChars(s: string, k: int)
    requires MarkerAt(s, k)
    ensures s[k] == '/' && s[k + 1] == 'n' && s[k + 13] == '/'
  {
    var t := s[k..k + |MARKER|];
    assert t[0] == s[k] && t[1] == s[k + 1] && t[13] == s[k + 13];
  }

  lemma NameSlashes(name: string)
    requires IsLockName(name)
    ensures name[0] != '/'
    ensures forall i, j :: 0 <= i < |name| && 0 <= j < |name| && name[i] == '/' && name[j] == '/' ==> i == j
    ensures forall i :: 0 <= i < |name| && name[i] == '/' ==> name[0] == '@'
  {
    if name[0] == '@' {
      var slash := IndexOf(name, '/');
      assert forall i :: slash < i < |name| ==> name[i] == name[slash + 1..][i - slash - 1];
    }
  }

  /** Nothing after the marker that introduces a name is a marker, even in a package called `node_modules`. */
  lemma NoMarkerInName(before: string, name: string, k: int)
    requires IsLockName(name) && k >= |before|
    ensures !MarkerAt(before + DIR + name, k)
  {
    var s := before + DIR + name;
    NameSlashes(name);
    assert forall i :: 0 <= i < |DIR| ==> s[|before| + i] == DIR[i];
    assert forall i :: 0 <= i < |name| ==> s[|before| + |DIR| + i] == name[i];
    if MarkerAt(s, k) { MarkerChars(s, k); }
  }

  lemma MarkerHere(before: string, name: string)
    ensures MarkerAt(before + MARKER + name, |before|)
    ensures before + MARKER + name == before + "/" + DIR + name
  {
    var s := before + MARKER + name;
    assert s[|before|..|before| + |MARKER|] == MARKER;
  }

  lemma LastMarkerIs(before: string, name: string)
    requires IsLockName(name)
    ensures LastMarker(before + MARKER + name) == |before|
    ensures (before + MARKER + name)[..|before|] == before
    ensures (before + MARKER + name)[|before| + |MARKER|..] == name
  {
    var s := before + MARKER + name;
    MarkerHere(before, name);
    var m := LastMarker(s);
    if m > |before| { NoMarkerInName(before + "/", name, m); }
  }

  lemma Cut(init: seq<string>, name: string)
    requires init != [] && IsLockName(name)
    ensures LastMarker(Render(init + [name])) == |Render(init)|
    ensures Render(init + [name])[..|Render(init)|] == Render(init)
    ensures Render(init + [name])[|Render(init)| + |MARKER|..] == name
  {
    var names := init + [name];
    assert names[..|names| - 1] == init;
    LastMarkerIs(Render(init), name);
  }

  lemma NoCut(name: string)
    requires IsLockName(name)
    ensures LastMarker(Render([name])) == -1
  {
    var s := Render([name]);
    assert s == "" + DIR + name;
    var m := LastMarker(s);
    if m >= 0 { NoMarkerInName("", name, m); }
  }

  /** The path grammar as a parser from the right. */
  function Parse(s: string): Option<seq<string>>
    decreases |s|
  {
    var m := LastMarker(s);
    if m < 0 then
      if DIR <= s && IsLockName(s[|DIR|..]) then Some([s[|DIR|..]]) else None
    else if !IsLockName(s[m + |MARKER|..]) then None
    else
      var init := Parse(s[..m]);
      if init.None? then None else Some(init.value + [s[m + |MARKER|..]])
  }

  predicate IsLockPath(s: string) { Parse(s).Some? }

  lemma {:induction false} ParseRendered(names: seq<string>)
    requires LockNames(names)
    ensures Parse(Render(names)) == Some(names)
  {
    var init, name := names[..|names| - 1], names[|names| - 1];
    assert names == init + [name];
    if init == [] {
      NoCut(name);
    } else {
      Cut(init, name);
      ParseRendered(init);
    }
  }

  lemma {:induction false} RenderParsed(s: string)
    requires IsLockPath(s)
    ensures LockNames(Parse(s).value) && Render(Parse(s).value) == s
    decreases |s|
  {
    var m, names := LastMarker(s), Parse(s).value;
    if m < 0 {
      assert s == DIR + s[|DIR|..];
    } else {
      RenderParsed(s[..m]);
      assert names[..|names| - 1] == Parse(s[..m]).value;
      assert s == s[..m] + s[m..m + |MARKER|] + s[m + |MARKER|..];
    }
  }

  /** The innermost name, which is the package the entry must hold. */
  function Innermost(s: string): (name: string)
    requires IsLockPath(s)
  {
    RenderParsed(s);
    Parse(s).value[|Parse(s).value| - 1]
  }

  predicate EndsWith(s: string, suffix: string) { |s| >= |suffix| && s[|s| - |suffix|..] == suffix }

  predicate IsCopyOf(path: string, parent: string) {
    path == DIR + parent || EndsWith(path, MARKER + parent)
  }

  /** The suffix test for installed copies of a package finds exactly the paths whose innermost name it is. */
  lemma CopiesByName(path: string, parent: string)
    requires IsLockPath(path) && IsNpmName(parent)
    ensures IsCopyOf(path, parent) <==> Innermost(path) == parent
  {
    RenderParsed(path);
    var names := Parse(path).value;
    var init, name := names[..|names| - 1], names[|names| - 1];
    assert names == init + [name];
    if init == [] {
      RootCopy(name, parent);
    } else {
      NestedCopy(init, name, parent);
    }
  }

  lemma SuffixMarks(path: string, parent: string)
    requires EndsWith(path, MARKER + parent) && IsLockName(parent)
    ensures var m := |path| - |MARKER| - |parent|;
      LastMarker(path) == m && path[m + |MARKER|..] == parent
  {
    var before := path[..|path| - |MARKER + parent|];
    assert path == before + (MARKER + parent) == before + MARKER + parent;
    LastMarkerIs(before, parent);
  }

  lemma RootCopy(name: string, parent: string)
    requires IsLockName(name) && IsLockName(parent)
    ensures IsCopyOf(Render([name]), parent) <==> name == parent
  {
    NoCut(name);
    assert (DIR + name)[|DIR|..] == name && (DIR + parent)[|DIR|..] == parent;
    if EndsWith(Render([name]), MARKER + parent) { SuffixMarks(Render([name]), parent); }
  }

  lemma NestedCopy(init: seq<string>, name: string, parent: string)
    requires init != [] && IsLockName(name) && IsLockName(parent)
    ensures IsCopyOf(Render(init + [name]), parent) <==> name == parent
  {
    var path := Render(init + [name]);
    Cut(init, name);
    NoCut(parent);
    if EndsWith(path, MARKER + parent) { SuffixMarks(path, parent); }
    assert (init + [name])[..|init|] == init;
    assert path == Render(init) + MARKER + name == Render(init) + (MARKER + name);
  }

  // ---- nearest-ancestor resolution ----

  function Candidate(names: seq<string>, name: string): string {
    if names == [] then DIR + name else Render(names) + MARKER + name
  }

  /** Looks beside `names`, then beside every shorter prefix. */
  function Nearest(keys: set<string>, names: seq<string>, name: string): (r: Option<string>)
    ensures r.Some? ==> r.value in keys
  {
    if Candidate(names, name) in keys then Some(Candidate(names, name))
    else if names == [] then None
    else Nearest(keys, names[..|names| - 1], name)
  }

  ghost predicate DeepestAt(keys: set<string>, names: seq<string>, name: string, k: nat) {
    && k <= |names|
    && Candidate(names[..k], name) in keys
    && forall j :: k < j <= |names| ==> Candidate(names[..j], name) !in keys
  }

  /** The result is the entry beside the longest enclosing prefix that has one, or none when none has. */
  lemma {:induction false} NearestIsDeepest(keys: set<string>, names: seq<string>, name: string)
    ensures forall c :: Nearest(keys, names, name) == Some(c) <==>
      exists k: nat :: DeepestAt(keys, names, name, k) && c == Candidate(names[..k], name)
    ensures Nearest(keys, names, name).None? <==>
      forall k :: 0 <= k <= |names| ==> Candidate(names[..k], name) !in keys
  {
    assert names[..|names|] == names;
    if Candidate(names, name) in keys {
      assert DeepestAt(keys, names, name, |names|);
    } else if names != [] {
      var init := names[..|names| - 1];
      NearestIsDeepest(keys, init, name);
      assert forall k :: 0 <= k <= |init| ==> init[..k] == names[..k];
      forall k: nat ensures DeepestAt(keys, names, name, k) <==> DeepestAt(keys, init, name, k) {
        if DeepestAt(keys, init, name, k) {
          forall j | k < j <= |names| ensures Candidate(names[..j], name) !in keys {
            if j < |names| { assert names[..j] == init[..j]; }
          }
        }
      }
    }
  }

  /** For a well-formed name the entry found is that package, inside a directory that encloses the requester. */
  lemma ResolvedEncloses(keys: set<string>, names: seq<string>, name: string)
    requires (names == [] || LockNames(names)) && IsLockName(name)
    ensures var r := Nearest(keys, names, name);
      r.Some? ==> exists k: nat :: k <= |names| && Parse(r.value) == Some(names[..k] + [name])
  {
    NearestIsDeepest(keys, names, name);
    var r := Nearest(keys, names, name);
    if r.Some? {
      var k: nat :| DeepestAt(keys, names, name, k) && r.value == Candidate(names[..k], name);
      var found := names[..k] + [name];
      assert LockNames(found) && found[..|found| - 1] == names[..k];
      assert Render(found) == r.value;
      ParseRendered(found);
    }
  }

  /** _resolve_npm_dependency, cutting the path string in place. */
  method ResolveNpmDependency(keys: set<string>, path: string, name: string) returns (r: Option<string>)
    requires IsLockPath(path)
    ensures r == Nearest(keys, Parse(path).value, name)
  {
    RenderParsed(path);
    var parent := path;
    ghost var names := Parse(path).value;
    while true
      invariant names == [] || LockNames(names)
      invariant parent == if names == [] then "" else Render(names)
      invariant Nearest(keys, names, name) == Nearest(keys, Parse(path).value, name)
      decreases |parent|
    {
      var candidate := if parent != "" then parent + MARKER + name else DIR + name;
      assert candidate == Candidate(names, name) by { RenderNonEmpty(names); }
      if candidate in keys { return Some(candidate); }
      if parent == "" {
        RenderNonEmpty(names);
        return None;
      }
      var marker := LastMarker(parent);
      CutOnce(names);
      RenderNonEmpty(names[..|names| - 1]);
      parent := if marker >= 0 then parent[..marker] else "";
      names := names[..|names| - 1];
    }
  }

  lemma RenderNonEmpty(names: seq<string>)
    ensures names != [] ==> |Render(names)| >= |DIR|
  {
  }

  /** One cut removes exactly the innermost name, and the path gets shorter. */
  lemma CutOnce(names: seq<string>)
    requires LockNames(names)
    ensures var s := Render(names);
      var init := names[..|names| - 1];
      && (LastMarker(s) == -1 <==> init == [])
      && (init != [] ==> 0 <= LastMarker(s) < |s| && s[..LastMarker(s)] == Render(init))
  {
    var init, name := names[..|names| - 1], names[|names| - 1];
    assert names == init + [name];
    if init == [] {
      NoCut(name);
    } else {
      Cut(init, name);
    }
  }

  // ---- versions ----

  predicate Digits(s: string) {
    && s != ""
    && (forall i :: 0 <= i < |s| ==> '0' <= s[i] <= '9')
    && (s[0] == '0' ==> |s| == 1)
  }

  /** Dot-separated non-empty identifiers. */
  predicate Identifiers(s: string) {
    && s != ""
    && (forall i :: 0 <= i < |s| ==> Alnum(s[i]) || s[i] == '-' || s[i] == '.')
    && s[0] != '.' && s[|s| - 1] != '.'
    && (forall i :: 0 < i < |s| ==> !(s[i] == '.' && s[i - 1] == '.'))
  }

  predicate VersionCore(s: string) {
    var i := IndexOf(s, '.');
    i < |s| && Digits(s[..i]) &&
    var rest := s[i + 1..];
    var j := IndexOf(rest, '.');
    j < |rest| && Digits(rest[..j]) && Digits(rest[j + 1..])
  }

  predicate IsExactSemver(s: string) {
    var plus := IndexOf(s, '+');
    var release := s[..plus];
    var dash := IndexOf(release, '-');
    && VersionCore(release[..dash])
    && (dash < |release| ==> Identifiers(release[dash + 1..]))
    && (plus < |s| ==> Identifiers(s[plus + 1..]))
  }

  predicate VersionChar(c: char) { Alnum(c) || c == '.' || c == '-' || c == '+' }

  predicate VersionChars(s: string) { forall i :: 0 <= i < |s| ==> VersionChar(s[i]) }

  lemma CoreChars(s: string)
    requires VersionCore(s)
    ensures VersionChars(s)
  {
    var i := IndexOf(s, '.');
    Joined(s[i + 1..], IndexOf(s[i + 1..], '.'));
    Joined(s, i);
  }

  lemma Joined(s: string, i: nat)
    requires i < |s| && VersionChar(s[i])
    requires VersionChars(s[..i]) && VersionChars(s[i + 1..])
    ensures VersionChars(s)
  {
    forall k | 0 <= k < |s| ensures VersionChar(s[k]) {
      if k < i {
        assert VersionChar(s[..i][k]);
      } else if k > i {
        assert VersionChar(s[i + 1..][k - i - 1]);
      }
    }
  }

  lemma SemverChars(s: string)
    requires IsExactSemver(s)
    ensures VersionChars(s)
  {
    var plus := IndexOf(s, '+');
    var release := s[..plus];
    var dash := IndexOf(release, '-');
    CoreChars(release[..dash]);
    if dash < |release| { Joined(release, dash); } else { assert release[..dash] == release; }
    if plus < |s| { Joined(s, plus); } else { assert release == s; }
  }

  // ---- tarball addresses ----

  const REGISTRY := "https://registry.npmjs.org/"

  function Tarball(name: string, version: string): string {
    REGISTRY + name + "/-/" + Basename(name) + "-" + version + ".tgz"
  }

  /** A slash-free-or-scoped name is a prefix that its own text delimits. */
  lemma NamePrefix(a: string, b: string, x: string, y: string)
    requires IsLockName(a) && IsLockName(b) && a + "/" + x == b + "/" + y
    ensures a == b
  {
    var s := a + "/" + x;
    assert s[0] == a[0] == b[0];
    assert forall i :: 0 <= i < |a| ==> s[i] == a[i];
    assert forall i :: 0 <= i < |b| ==> s[i] == b[i];
    assert s[|a|] == '/' && s[|b|] == '/';
    if |a| < |b| {
      NameSlash(a, b);
    } else if |b| < |a| {
      NameSlash(b, a);
    }
    assert a == s[..|a|] && b == s[..|b|];
  }

  lemma NameSlash(a: string, b: string)
    requires IsLockName(a) && IsLockName(b) && |a| < |b|
    requires forall i :: 0 <= i < |a| ==> a[i] == b[i]
    ensures b[|a|] != '/'
  {
    if a[0] == '@' {
      var slash := IndexOf(a, '/');
      assert a[slash] == b[slash];
      assert IndexOf(b, '/') == slash;
      assert b[|a|] == b[slash + 1..][|a| - slash - 1];
    }
  }

  /** One address names one package at one version. */
  lemma TarballInjective(n1: string, v1: string, n2: string, v2: string)
    requires IsLockName(n1) && IsLockName(n2) && Tarball(n1, v1) == Tarball(n2, v2)
    ensures n1 == n2 && v1 == v2
  {
    var x1, x2 := "-/" + Basename(n1) + "-" + v1 + ".tgz", "-/" + Basename(n2) + "-" + v2 + ".tgz";
    TarballParts(n1, v1);
    TarballParts(n2, v2);
    SamePrefix(REGISTRY, n1 + "/" + x1, n2 + "/" + x2);
    NamePrefix(n1, n2, x1, x2);
    var head := REGISTRY + n1 + "/-/" + Basename(n1) + "-";
    SamePrefix(head, v1 + ".tgz", v2 + ".tgz");
    assert (v1 + ".tgz")[..|v1|] == v1 && (v2 + ".tgz")[..|v2|] == v2;
  }

  lemma SamePrefix(head: string, x: string, y: string)
    requires head + x == head + y
    ensures x == y
  {
    assert (head + x)[|head|..] == x && (head + y)[|head|..] == y;
  }

  lemma TarballParts(n: string, v: string)
    ensures Tarball(n, v) == REGISTRY + (n + "/" + ("-/" + Basename(n) + "-" + v + ".tgz"))
    ensures Tarball(n, v) == (REGISTRY + n + "/-/" + Basename(n) + "-") + (v + ".tgz")
  {
    var b := Basename(n);
    assert n + "/-/" + b + "-" + v + ".tgz" == n + "/" + ("-/" + b + "-" + v + ".tgz");
    assert REGISTRY + n + "/-/" + b + "-" + v + ".tgz" == REGISTRY + (n + "/-/" + b + "-" + v + ".tgz");
  }

  predicate PlainChar(c: char) { c != '%' && c != '\\' && c != '?' && c != '#' }

  /** For a grammatical name and an exact version the address needs no normalising: it holds no escape, query
      or fragment character, and the version adds no path segment. */
  lemma TarballIsPlain(name: string, version: string)
    requires IsLockName(name) && IsExactSemver(version)
    ensures forall i :: 0 <= i < |Tarball(name, version)| ==> PlainChar(Tarball(name, version)[i])
    ensures '/' !in version
  {
    SemverChars(version);
    NameChars(name);
    var base := Basename(name);
    assert forall i :: 0 <= i < |base| ==> base[i] in name;
  }

  lemma NameChars(name: string)
    requires IsLockName(name)
    ensures forall c :: c in name ==> PlainChar(c)
  {
    if name[0] == '@' {
      var slash := IndexOf(name, '/');
      assert name == [name[0]] + name[1..slash] + [name[slash]] + name[slash + 1..];
    }
  }
}
