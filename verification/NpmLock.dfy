/** validate_npm_lock: the entry checks and the worklist that follows dependency edges to check parent-scoped
    overrides, against a specification by walks. */
module NpmLock {
  import opened Results
  import opened NpmPaths

  type Pins = map<string, string>

  datatype OverridesField = Absent | Malformed | Overrides(overrides: map<string, Pins>)

  datatype Expected<T> = Unchecked | MustBeAbsent | MustEqual(value: T)

  datatype Manifest = Manifest(dependencies: Pins, overrides: OverridesField)

  /** A dependency table of a lock entry: its keys, or not a table at all.  An absent table is empty. */
  datatype Table = Keys(names: set<string>) | NotATable

  datatype Package = Package(
    link: bool, aliased: bool, version: Option<string>, resolved: Option<string>, integrity: Option<string>,
    dependencies: Table, optional: Table, peer: Table)

  type Packages = map<string, Package>

  datatype Lock = Lock(version: int, rootDependencies: Option<Pins>, packages: Packages)

  // ---- entries ----

  predicate Base64(c: char) { Alnum(c) || c == '+' || c == '/' }

  predicate IsIntegrity(s: string) {
    "sha512-" <= s && (IntegrityBody(s, |s|) || IntegrityBody(s, |s| - 1) || IntegrityBody(s, |s| - 2))
  }

  /** The digest ends at `end` and only padding follows. */
  predicate IntegrityBody(s: string, end: int) {
    && 7 < end <= |s|
    && (forall i :: 7 <= i < end ==> Base64(s[i]))
    && forall i :: end <= i < |s| ==> s[i] == '='
  }

  predicate EntrySound(path: string, p: Package) {
    && IsLockPath(path)
    && !p.link && !p.aliased
    && p.version.Some? && IsExactSemver(p.version.value)
    && p.integrity.Some? && IsIntegrity(p.integrity.value)
    && p.resolved == Some(Tarball(Innermost(path), p.version.value))
  }

  predicate HasForbiddenChar(s: string) { exists i :: 0 <= i < |s| && !PlainChar(s[i]) }

  /** The checks on one entry, in the order of the source. */
  method CheckEntry(path: string, p: Package) returns (ok: bool)
    ensures ok <==> EntrySound(path, p)
  {
    if !IsLockPath(path) || p.link || p.version.None? || !IsExactSemver(p.version.value)
       || p.resolved.None? || p.integrity.None? || !IsIntegrity(p.integrity.value) {
      return false;
    }
    RenderParsed(path);
    TarballIsPlain(Innermost(path), p.version.value);
    ok := !p.aliased && p.resolved.value == Tarball(Innermost(path), p.version.value)
          && !HasForbiddenChar(p.resolved.value);
  }

  predicate EntriesSound(packages: Packages) {
    forall path :: path in packages && path != "" ==> EntrySound(path, packages[path])
  }

  /** Two entries of a sound lock share a tarball exactly when they are one package at one version. */
  lemma SameTarballSamePackage(packages: Packages, p: string, q: string)
    requires EntriesSound(packages) && p in packages && q in packages && p != "" && q != ""
    ensures packages[p].resolved == packages[q].resolved <==>
      Innermost(p) == Innermost(q) && packages[p].version == packages[q].version
  {
    RenderParsed(p);
    RenderParsed(q);
    if packages[p].resolved == packages[q].resolved {
      TarballInjective(Innermost(p), packages[p].version.value, Innermost(q), packages[q].version.value);
    }
  }

  // ---- edges and walks ----

  predicate Tabular(p: Package) { p.dependencies.Keys? && p.optional.Keys? && p.peer.Keys? }

  function Declared(p: Package): set<string> {
    if Tabular(p) then p.dependencies.names + p.optional.names + p.peer.names else {}
  }

  function Resolve(packages: Packages, path: string, name: string): Option<string>
    requires IsLockPath(path)
  {
    Nearest(packages.Keys, Parse(path).value, name)
  }

  predicate Entry(packages: Packages, path: string) { path in packages && IsLockPath(path) }

  predicate IsCopy(packages: Packages, parent: string, path: string) {
    Entry(packages, path) && Innermost(path) == parent
  }

  ghost predicate Edge(packages: Packages, p: string, q: string) {
    && Entry(packages, p) && Entry(packages, q)
    && exists name :: name in Declared(packages[p]) && Resolve(packages, p, name) == Some(q)
  }

  ghost predicate Walk(packages: Packages, parent: string, w: seq<string>) {
    && w != [] && IsCopy(packages, parent, w[0])
    && forall i :: 0 <= i < |w| - 1 ==> Edge(packages, w[i], w[i + 1])
  }

  /** Some installed copy of the parent depends, through any number of edges, on this entry. */
  ghost predicate Reachable(packages: Packages, parent: string, path: string) {
    exists w :: Walk(packages, parent, w) && w[|w| - 1] == path
  }

  predicate Binds(packages: Packages, path: string, child: string, version: string)
    requires Entry(packages, path)
  {
    child in Declared(packages[path]) ==>
      var q := Resolve(packages, path, child);
      q.Some? && q.value in packages && packages[q.value].version == Some(version)
  }

  /** Its dependency tables can be read, and if it asks for the child it gets the pinned version. */
  predicate BindsAt(packages: Packages, path: string, child: string, version: string) {
    Entry(packages, path) && Tabular(packages[path]) && Binds(packages, path, child, version)
  }

  ghost predicate Pulls(packages: Packages, parent: string, path: string, child: string) {
    Reachable(packages, parent, path) && path in packages && child in Declared(packages[path])
  }

  /** The override reaches every package below the parent that asks for the child, and there is one. */
  ghost predicate OverrideHolds(packages: Packages, parent: string, child: string, version: string) {
    && (forall path :: Reachable(packages, parent, path) ==> BindsAt(packages, path, child, version))
    && exists path :: Pulls(packages, parent, path, child)
  }

  lemma ReachCopy(packages: Packages, parent: string, path: string)
    requires IsCopy(packages, parent, path)
    ensures Reachable(packages, parent, path)
  {
    assert Walk(packages, parent, [path]);
  }

  lemma ReachEdge(packages: Packages, parent: string, p: string, q: string)
    requires Reachable(packages, parent, p) && Edge(packages, p, q)
    ensures Reachable(packages, parent, q)
  {
    var w :| Walk(packages, parent, w) && w[|w| - 1] == p;
    var v := w + [q];
    forall i | 0 <= i < |v| - 1 ensures Edge(packages, v[i], v[i + 1]) {
      if i < |w| - 1 { assert Edge(packages, w[i], w[i + 1]); }
    }
    assert Walk(packages, parent, v);
  }

  /** A set that holds the copies and is closed under edges holds everything reachable. */
  lemma {:induction false} ClosedHolds(packages: Packages, parent: string, closed: set<string>, w: seq<string>)
    requires Walk(packages, parent, w)
    requires forall p :: IsCopy(packages, parent, p) ==> p in closed
    requires forall p, q :: p in closed && Edge(packages, p, q) ==> q in closed
    ensures w[|w| - 1] in closed
    decreases |w|
  {
    if |w| > 1 {
      var init := w[..|w| - 1];
      assert forall i :: 0 <= i < |init| - 1 ==> Edge(packages, init[i], init[i + 1]);
      ClosedHolds(packages, parent, closed, init);
      assert Edge(packages, w[|w| - 2], w[|w| - 1]);
    }
  }

  // ---- one step of the worklist ----

  /** Where the declared names already looked at lead. */
  function Targets(packages: Packages, path: string, names: set<string>): set<string>
    requires IsLockPath(path)
  {
    set name | name in names && Resolve(packages, path, name).Some? :: Resolve(packages, path, name).value
  }

  /** Resolves every declared name of one package; refuses when the child is not pinned there. */
  method Expand(packages: Packages, path: string, child: string, version: string)
    returns (ok: bool, found: bool, targets: seq<string>)
    requires Entry(packages, path) && Tabular(packages[path])
    ensures ok <==> BindsAt(packages, path, child, version)
    ensures ok ==> (found <==> child in Declared(packages[path]))
    ensures ok ==> var p := packages[path];
      found <==> child in p.dependencies.names || child in p.optional.names || child in p.peer.names
    ensures ok ==> var p := packages[path];
      forall name :: name in p.dependencies.names || name in p.optional.names || name in p.peer.names ==>
        var q := Nearest(packages.Keys, Parse(path).value, name);
        && (q.Some? ==> q.value in targets)
        && (name == child ==> q.Some? && q.value in packages && packages[q.value].version == Some(version))
    ensures ok ==> (forall q :: q in targets <==> q in Targets(packages, path, Declared(packages[path])))
  {
    var p := packages[path];
    var declared := p.dependencies.names + p.optional.names + p.peer.names;
    ok, found, targets := true, false, [];
    ghost var seen: set<string> := {};
    while declared != {}
      invariant seen + declared == Declared(p) && seen !! declared
      invariant found <==> child in seen
      invariant child in seen ==> Binds(packages, path, child, version)
      invariant forall q :: q in targets <==> q in Targets(packages, path, seen)
      decreases declared
    {
      var name :| name in declared;
      var resolved := ResolveNpmDependency(packages.Keys, path, name);
      if name == child {
        found := true;
        if resolved.None? || packages[resolved.value].version != Some(version) {
          return false, found, targets;
        }
      }
      TargetsAdded(packages, path, seen, name);
      if resolved.Some? { targets := targets + [resolved.value]; }
      declared, seen := declared - {name}, seen + {name};
    }
  }

  lemma TargetsAdded(packages: Packages, path: string, names: set<string>, name: string)
    requires IsLockPath(path)
    ensures Targets(packages, path, names + {name}) == Targets(packages, path, names)
      + var r := Resolve(packages, path, name); if r.Some? then {r.value} else {}
  {
  }

  lemma TargetsAreEdges(packages: Packages, path: string)
    requires Entry(packages, path)
    requires forall q :: q in packages && q != "" ==> IsLockPath(q)
    ensures forall q :: q in Targets(packages, path, Declared(packages[path])) <==> Edge(packages, path, q)
  {
    forall q | q in Targets(packages, path, Declared(packages[path])) ensures Entry(packages, q) {
      var name :| name in Declared(packages[path]) && Resolve(packages, path, name) == Some(q);
      NearestIsDeepest(packages.Keys, Parse(path).value, name);
      var k: nat :| DeepestAt(packages.Keys, Parse(path).value, name, k)
        && q == Candidate(Parse(path).value[..k], name);
    }
  }

  // ---- the worklist ----

  ghost predicate Explored(packages: Packages, parent: string, pending: seq<string>, visited: set<string>) {
    && (forall p :: p in pending || p in visited ==> Reachable(packages, parent, p) && Entry(packages, p))
    && (forall p :: IsCopy(packages, parent, p) ==> p in pending || p in visited)
    && (forall p, q :: p in visited && Edge(packages, p, q) ==> q in pending || q in visited)
  }

  ghost predicate VisitedOk(
      packages: Packages, visited: set<string>, child: string, version: string, matched: bool) {
    && (forall p :: p in visited ==> BindsAt(packages, p, child, version))
    && (matched <==> exists p :: p in visited && p in packages && child in Declared(packages[p]))
  }

  lemma Popped(packages: Packages, parent: string, pending: seq<string>, visited: set<string>)
    requires Explored(packages, parent, pending, visited) && pending != []
    requires pending[|pending| - 1] in visited
    ensures Explored(packages, parent, pending[..|pending| - 1], visited)
  {
    var rest := pending[..|pending| - 1];
    assert pending == rest + [pending[|pending| - 1]];
  }

  lemma Expanded(
      packages: Packages, parent: string, pending: seq<string>, visited: set<string>, path: string, targets: seq<string>)
    requires Explored(packages, parent, pending + [path], visited)
    requires forall q :: q in targets <==> Edge(packages, path, q)
    ensures Explored(packages, parent, pending + targets, visited + {path})
  {
    forall q | q in targets ensures Reachable(packages, parent, q) && Entry(packages, q) {
      ReachEdge(packages, parent, path, q);
    }
    assert forall p :: p in pending + [path] <==> p in pending || p == path;
    assert forall p :: p in pending + targets <==> p in pending || p in targets;
  }

  lemma Finished(
      packages: Packages, parent: string, visited: set<string>, child: string, version: string, matched: bool)
    requires Explored(packages, parent, [], visited) && VisitedOk(packages, visited, child, version, matched)
    ensures matched <==> OverrideHolds(packages, parent, child, version)
  {
    forall path | Reachable(packages, parent, path) ensures path in visited {
      ReachableVisited(packages, parent, visited, path);
    }
    if matched {
      var p :| p in visited && p in packages && child in Declared(packages[p]);
      assert Pulls(packages, parent, p, child);
    } else {
      assert forall p :: Pulls(packages, parent, p, child) ==> p in visited && p in packages;
    }
  }

  lemma ReachableVisited(packages: Packages, parent: string, visited: set<string>, path: string)
    requires Explored(packages, parent, [], visited) && Reachable(packages, parent, path)
    ensures path in visited
  {
    var w :| Walk(packages, parent, w) && w[|w| - 1] == path;
    ClosedHolds(packages, parent, visited, w);
  }

  lemma LastOf<T>(s: seq<T>)
    requires s != []
    ensures s == s[..|s| - 1] + [s[|s| - 1]]
  {
  }

  lemma Refused(packages: Packages, parent: string, path: string, child: string, version: string)
    requires Reachable(packages, parent, path) && !BindsAt(packages, path, child, version)
    ensures !OverrideHolds(packages, parent, child, version)
  {
  }

  lemma VisitedMore(
      packages: Packages, visited: set<string>, path: string, child: string, version: string, matched: bool)
    requires VisitedOk(packages, visited, child, version, matched) && BindsAt(packages, path, child, version)
    ensures VisitedOk(packages, visited + {path}, child, version, matched || child in Declared(packages[path]))
  {
    var all := visited + {path};
    if child in Declared(packages[path]) {
      assert path in all;
    } else if matched {
      var p :| p in visited && p in packages && child in Declared(packages[p]);
      assert p in all;
    }
  }

  /** One override, from the parent's installed copies outwards. */
  method CheckOverride(packages: Packages, parent: string, copies: seq<string>, child: string, version: string)
    returns (ok: bool)
    requires EntriesSound(packages)
    requires forall p :: p in copies <==> IsCopy(packages, parent, p)
    ensures ok <==> OverrideHolds(packages, parent, child, version)
  {
    var pending, visited: set<string>, matches := copies, {}, 0;
    forall p | p in copies ensures Reachable(packages, parent, p) { ReachCopy(packages, parent, p); }
    while pending != []
      invariant matches >= 0 && visited <= packages.Keys
      invariant Explored(packages, parent, pending, visited)
      invariant VisitedOk(packages, visited, child, version, matches > 0)
      decreases packages.Keys - visited, |pending|
    {
      var rest, path := pending[..|pending| - 1], pending[|pending| - 1];
      LastOf(pending);
      if path in visited {
        Popped(packages, parent, pending, visited);
        pending := rest;
      } else {
        assert path in packages.Keys - visited;
        if !Tabular(packages[path]) {
          Refused(packages, parent, path, child, version);
          return false;
        }
        var bound, found, targets := Expand(packages, path, child, version);
        if !bound {
          Refused(packages, parent, path, child, version);
          return false;
        }
        TargetsAreEdges(packages, path);
        VisitedMore(packages, visited, path, child, version, matches > 0);
        Expanded(packages, parent, rest, visited, path, targets);
        pending, visited := rest + targets, visited + {path};
        matches := matches + if found then 1 else 0;
      }
    }
    Finished(packages, parent, visited, child, version, matches > 0);
    ok := matches > 0;
  }

  // ---- the whole lock ----

  predicate PinsSound(pins: Pins) { forall n :: n in pins ==> IsNpmName(n) && IsExactSemver(pins[n]) }

  /** npm_overrides */
  predicate OverridesSound(overrides: map<string, Pins>, dependencies: Pins) {
    overrides != map[]
    && forall p :: p in overrides ==> p in dependencies && overrides[p] != map[] && PinsSound(overrides[p])
  }

  function OverridesOf(m: Manifest): map<string, Pins> {
    if m.overrides.Overrides? then m.overrides.overrides else map[]
  }

  predicate DependenciesExpected(m: Manifest, expected: Expected<Pins>) {
    && PinsSound(m.dependencies)
    && (expected.MustEqual? ==> expected.value == m.dependencies)
  }

  predicate OverridesExpected(m: Manifest, expected: Expected<map<string, Pins>>) {
    && !m.overrides.Malformed?
    && (OverridesOf(m) != map[] ==> OverridesSound(OverridesOf(m), m.dependencies))
    && (expected.MustBeAbsent? ==> m.overrides.Absent?)
    && (expected.MustEqual? ==> OverridesOf(m) == expected.value && OverridesSound(expected.value, m.dependencies))
  }

  ghost predicate ParentHolds(packages: Packages, parent: string, children: Pins) {
    forall child :: child in children ==> OverrideHolds(packages, parent, child, children[child])
  }

  ghost predicate Installed(packages: Packages, name: string) { exists p :: IsCopy(packages, name, p) }

  /** What an accepted lock guarantees, independently of any order of visiting it. */
  ghost predicate LockSound(
      m: Manifest, lock: Lock, dependencies: Expected<Pins>, overrides: Expected<map<string, Pins>>) {
    && DependenciesExpected(m, dependencies)
    && OverridesExpected(m, overrides)
    && lock.version == 3 && lock.rootDependencies == Some(m.dependencies)
    && PackagesSound(lock.packages, m.dependencies, OverridesOf(m))
  }

  ghost predicate PackagesSound(packages: Packages, dependencies: Pins, overrides: map<string, Pins>) {
    && EntriesSound(packages)
    && dependencies != map[] && (forall n :: n in dependencies ==> Installed(packages, n))
    && forall parent :: parent in overrides ==> ParentHolds(packages, parent, overrides[parent])
  }

  method CollectNames(packages: Packages) returns (r: Result<set<string>>)
    ensures r.Ok? <==> EntriesSound(packages)
    ensures r.Ok? ==> forall n :: n in r.value <==> Installed(packages, n)
  {
    var todo := packages.Keys - {""};
    var found: set<string> := {};
    while todo != {}
      invariant todo <= packages.Keys - {""}
      invariant forall p :: p in packages && p != "" && p !in todo ==> EntrySound(p, packages[p])
      invariant forall n :: n in found <==> exists p :: IsCopy(packages, n, p) && p !in todo && p != ""
      decreases todo
    {
      var path :| path in todo;
      var sound := CheckEntry(path, packages[path]);
      if !sound { return Raised; }
      ghost var before := found;
      found := found + {Innermost(path)};
      forall n ensures n in found <==> exists p :: IsCopy(packages, n, p) && p !in todo - {path} && p != "" {
        if n == Innermost(path) {
          assert IsCopy(packages, n, path);
        } else if n in before {
          var p :| IsCopy(packages, n, p) && p !in todo && p != "";
        }
      }
      todo := todo - {path};
    }
    assert !IsLockPath("");
    r := Ok(found);
  }

  method FindCopies(packages: Packages, parent: string) returns (copies: seq<string>)
    requires EntriesSound(packages) && IsNpmName(parent)
    ensures forall p :: p in copies <==> IsCopy(packages, parent, p)
  {
    var todo := packages.Keys;
    copies := [];
    while todo != {}
      invariant todo <= packages.Keys
      invariant forall p :: p in copies <==> p !in todo && IsCopy(packages, parent, p)
      decreases todo
    {
      var path :| path in todo;
      if IsLockPath(path) { CopiesByName(path, parent); }
      assert path == "" ==> !IsCopyOf(path, parent) && !IsLockPath(path);
      if IsCopyOf(path, parent) { copies := copies + [path]; }
      todo := todo - {path};
    }
  }

  method CheckParent(packages: Packages, parent: string, children: Pins) returns (ok: bool)
    requires EntriesSound(packages) && IsNpmName(parent) && children != map[]
    ensures ok <==> ParentHolds(packages, parent, children)
  {
    var copies := FindCopies(packages, parent);
    if copies == [] {
      NeedsCopy(packages, parent, children);
      return false;
    }
    var todo := children.Keys;
    while todo != {}
      invariant todo <= children.Keys
      invariant forall child :: child in children && child !in todo ==>
        OverrideHolds(packages, parent, child, children[child])
      decreases todo
    {
      var child :| child in todo;
      ok := CheckOverride(packages, parent, copies, child, children[child]);
      if !ok { return; }
      todo := todo - {child};
    }
    ok := true;
  }

  lemma ReachableStarts(packages: Packages, parent: string, path: string)
    requires Reachable(packages, parent, path)
    ensures exists p :: IsCopy(packages, parent, p)
  {
    var w :| Walk(packages, parent, w) && w[|w| - 1] == path;
    assert IsCopy(packages, parent, w[0]);
  }

  lemma NeedsCopy(packages: Packages, parent: string, children: Pins)
    requires (forall p :: !IsCopy(packages, parent, p)) && children != map[]
    ensures !ParentHolds(packages, parent, children)
  {
    assert children.Keys != {};
    var child :| child in children.Keys;
    forall path | Reachable(packages, parent, path) ensures false { ReachableStarts(packages, parent, path); }
    assert !OverrideHolds(packages, parent, child, children[child]);
  }

  method CheckOverrides(packages: Packages, overrides: map<string, Pins>) returns (ok: bool)
    requires EntriesSound(packages)
    requires forall parent :: parent in overrides ==> IsNpmName(parent) && overrides[parent] != map[]
    ensures ok <==> forall parent :: parent in overrides ==> ParentHolds(packages, parent, overrides[parent])
  {
    var todo := overrides.Keys;
    while todo != {}
      invariant todo <= overrides.Keys
      invariant forall parent :: parent in overrides && parent !in todo ==>
        ParentHolds(packages, parent, overrides[parent])
      decreases todo
    {
      var parent :| parent in todo;
      ok := CheckParent(packages, parent, overrides[parent]);
      if !ok { return; }
      todo := todo - {parent};
    }
    ok := true;
  }

  /** validate_npm_lock accepts exactly the sound locks. */
  method ValidateNpmLock(
      m: Manifest, lock: Lock, dependencies: Expected<Pins>, overrides: Expected<map<string, Pins>>)
    returns (ok: bool)
    ensures ok <==> LockSound(m, lock, dependencies, overrides)
  {
    if !DependenciesExpected(m, dependencies) || !OverridesExpected(m, overrides) { return false; }
    if lock.version != 3 || lock.rootDependencies != Some(m.dependencies) { return false; }
    ok := CheckPackages(lock.packages, m.dependencies, OverridesOf(m));
  }

  method CheckPackages(packages: Packages, dependencies: Pins, overrides: map<string, Pins>) returns (ok: bool)
    requires forall parent :: parent in overrides ==> IsNpmName(parent) && overrides[parent] != map[]
    ensures ok <==> PackagesSound(packages, dependencies, overrides)
  {
    var found := CollectNames(packages);
    if found.Raised? { return false; }
    if dependencies == map[] || !(dependencies.Keys <= found.value) { return false; }
    ok := CheckOverrides(packages, overrides);
  }
}
