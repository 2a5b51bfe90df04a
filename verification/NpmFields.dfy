/** What an accepted lock guarantees, read off the package fields alone: each of the three dependency tables
    counts by itself. */
module NpmFields {
  import opened Results
  import opened NpmPaths
  import opened NpmLock

  predicate Lists(t: Table, name: string) { t.Keys? && name in t.names }

  /** Where node's lookup finds this name from inside `p`, `q` is. */
  predicate Finds(packages: Packages, p: string, name: string, q: string) {
    IsLockPath(p) && Nearest(packages.Keys, Parse(p).value, name) == Some(q)
  }

  /** The lookup in words: beside the package itself, then beside each directory around it, then at the root; the
      first that is there is found. */
  lemma FindsInWords(packages: Packages, names: seq<string>, name: string, q: string)
    requires LockNames(names)
    ensures Finds(packages, Render(names), name, q) <==> exists k: nat :: FoundAt(packages, names, name, q, k)
  {
    ParseRendered(names);
    NearestIsDeepest(packages.Keys, names, name);
    forall k: nat | k <= |names|
      ensures DeepestAt(packages.Keys, names, name, k) && q == Candidate(names[..k], name) <==>
        FoundAt(packages, names, name, q, k)
    {
      assert forall j: nat :: j <= |names| ==> Candidate(names[..j], name) == Beside(names, j, name);
    }
    if Finds(packages, Render(names), name, q) {
      var k: nat :| DeepestAt(packages.Keys, names, name, k) && q == Candidate(names[..k], name);
      assert FoundAt(packages, names, name, q, k);
    }
    if k: nat :| FoundAt(packages, names, name, q, k) {
      assert DeepestAt(packages.Keys, names, name, k) && q == Candidate(names[..k], name);
    }
  }

  function Beside(names: seq<string>, k: nat, name: string): string
    requires k <= |names|
  {
    if k == 0 then "node_modules/" + name else Render(names[..k]) + "/node_modules/" + name
  }

  ghost predicate FoundAt(packages: Packages, names: seq<string>, name: string, q: string, k: nat) {
    && k <= |names| && q == Beside(names, k, name) && q in packages
    && forall j: nat :: k < j <= |names| ==> Beside(names, j, name) !in packages
  }

  lemma PathInWords(names: seq<string>, name: string)
    ensures Render([name]) == "node_modules/" + name
    ensures names != [] ==> Render(names + [name]) == Render(names) + "/node_modules/" + name
  {
    assert (names + [name])[..|names|] == names;
  }

  /** `w` starts at a copy of the parent, and each entry after it is what some table of the one before names. */
  ghost predicate Trail(packages: Packages, parent: string, w: seq<string>, names: seq<string>) {
    && |w| == |names| + 1 && (forall i :: 0 <= i < |w| ==> w[i] in packages)
    && IsLockPath(w[0]) && Innermost(w[0]) == parent
    && forall i :: 0 <= i < |names| ==> Hop(packages, w[i], names[i], w[i + 1])
  }

  predicate Hop(packages: Packages, p: string, name: string, q: string) {
    && p in packages && Finds(packages, p, name, q)
    && (Lists(packages[p].dependencies, name) || Lists(packages[p].optional, name) || Lists(packages[p].peer, name))
  }

  predicate Pinned(packages: Packages, p: string, name: string, version: string) {
    exists q :: q in packages && Finds(packages, p, name, q) && packages[q].version == Some(version)
  }

  lemma FoundIsEntry(packages: Packages, p: string, name: string, q: string)
    requires EntriesSound(packages) && Finds(packages, p, name, q)
    ensures Entry(packages, q)
  {
    NearestIsDeepest(packages.Keys, Parse(p).value, name);
    var k: nat :| DeepestAt(packages.Keys, Parse(p).value, name, k) && q == Candidate(Parse(p).value[..k], name);
  }

  /** A name in any one of the tables that resolves to an entry is an edge. */
  lemma NamedIsEdge(packages: Packages, p: string, name: string, q: string)
    requires EntriesSound(packages) && p in packages && p != "" && Finds(packages, p, name, q)
    requires packages[p].dependencies.Keys? && packages[p].optional.Keys? && packages[p].peer.Keys?
    ensures name in packages[p].dependencies.names ==> Edge(packages, p, q)
    ensures name in packages[p].optional.names ==> Edge(packages, p, q)
    ensures name in packages[p].peer.names ==> Edge(packages, p, q)
  {
    FoundIsEntry(packages, p, name, q);
    assert EntrySound(p, packages[p]);
    if name in Declared(packages[p]) { assert Resolve(packages, p, name) == Some(q); }
  }

  lemma {:induction false} TrailReaches(
      packages: Packages, parent: string, child: string, version: string, w: seq<string>, names: seq<string>)
    requires EntriesSound(packages) && Trail(packages, parent, w, names)
    requires forall path :: Reachable(packages, parent, path) ==> BindsAt(packages, path, child, version)
    ensures Reachable(packages, parent, w[|names|])
    decreases |names|
  {
    if names == [] {
      ReachCopy(packages, parent, w[0]);
    } else {
      var before, name := |names| - 1, names[|names| - 1];
      assert forall i :: 0 <= i < before ==> Hop(packages, w[..|w| - 1][i], names[..before][i], w[..|w| - 1][i + 1]);
      TrailReaches(packages, parent, child, version, w[..|w| - 1], names[..before]);
      assert Hop(packages, w[before], name, w[before + 1]);
      NamedIsEdge(packages, w[before], name, w[before + 1]);
      ReachEdge(packages, parent, w[before], w[before + 1]);
    }
  }

  /** Below the parent of an override, however far down: the tables can be read, and a package that names the
      child in any one of them finds it at the pinned version. */
  lemma AcceptedBindsBelow(
      m: Manifest, lock: Lock, dependencies: Expected<Pins>, overrides: Expected<map<string, Pins>>,
      parent: string, child: string, w: seq<string>, names: seq<string>)
    requires LockSound(m, lock, dependencies, overrides)
    requires m.overrides.Overrides? && parent in m.overrides.overrides && child in m.overrides.overrides[parent]
    requires |w| == |names| + 1 && (forall i :: 0 <= i < |w| ==> w[i] in lock.packages)
    requires IsLockPath(w[0]) && Innermost(w[0]) == parent
    requires forall i :: 0 <= i < |names| ==> Finds(lock.packages, w[i], names[i], w[i + 1])
    requires forall i :: 0 <= i < |names| ==>
      || Lists(lock.packages[w[i]].dependencies, names[i])
      || Lists(lock.packages[w[i]].optional, names[i])
      || Lists(lock.packages[w[i]].peer, names[i])
    ensures var p, version := lock.packages[w[|names|]], m.overrides.overrides[parent][child];
      && p.dependencies.Keys? && p.optional.Keys? && p.peer.Keys?
      && (child in p.dependencies.names ==> Pinned(lock.packages, w[|names|], child, version))
      && (child in p.optional.names ==> Pinned(lock.packages, w[|names|], child, version))
      && (child in p.peer.names ==> Pinned(lock.packages, w[|names|], child, version))
  {
    var version := m.overrides.overrides[parent][child];
    forall i | 0 <= i < |names| ensures Hop(lock.packages, w[i], names[i], w[i + 1]) {
      assert Finds(lock.packages, w[i], names[i], w[i + 1]);
    }
    assert ParentHolds(lock.packages, parent, m.overrides.overrides[parent]);
    assert OverrideHolds(lock.packages, parent, child, version);
    TrailReaches(lock.packages, parent, child, version, w, names);
    BoundIsPinned(lock.packages, w[|names|], child, version);
  }

  lemma BoundIsPinned(packages: Packages, path: string, child: string, version: string)
    requires BindsAt(packages, path, child, version)
    ensures child in Declared(packages[path]) ==> Pinned(packages, path, child, version)
  {
    if child in Declared(packages[path]) {
      var q := Resolve(packages, path, child);
      assert Finds(packages, path, child, q.value);
    }
  }

  lemma PinnedIsBound(packages: Packages, path: string, child: string, version: string)
    requires Entry(packages, path) && Tabular(packages[path])
    requires child in Declared(packages[path]) ==> Pinned(packages, path, child, version)
    ensures BindsAt(packages, path, child, version)
  {
  }

  /** Some package below the parent of an override names the child in one of its tables. */
  lemma AcceptedNamesBelow(
      m: Manifest, lock: Lock, dependencies: Expected<Pins>, overrides: Expected<map<string, Pins>>,
      parent: string, child: string) returns (w: seq<string>, names: seq<string>)
    requires LockSound(m, lock, dependencies, overrides)
    requires m.overrides.Overrides? && parent in m.overrides.overrides && child in m.overrides.overrides[parent]
    ensures Trail(lock.packages, parent, w, names)
    ensures var p := lock.packages[w[|names|]];
      || (p.dependencies.Keys? && child in p.dependencies.names)
      || (p.optional.Keys? && child in p.optional.names)
      || (p.peer.Keys? && child in p.peer.names)
  {
    assert ParentHolds(lock.packages, parent, m.overrides.overrides[parent]);
    w, names := NamedBelow(lock.packages, parent, child, m.overrides.overrides[parent][child]);
  }

  lemma NamedBelow(packages: Packages, parent: string, child: string, version: string)
    returns (w: seq<string>, names: seq<string>)
    requires OverrideHolds(packages, parent, child, version)
    ensures Trail(packages, parent, w, names) && NamedHere(packages, w[|names|], child)
  {
    var path :| Pulls(packages, parent, path, child);
    w :| Walk(packages, parent, w) && w[|w| - 1] == path;
    names := WalkIsTrail(packages, parent, w);
  }

  lemma EdgeIsHop(packages: Packages, p: string, q: string) returns (name: string)
    requires Edge(packages, p, q)
    ensures Hop(packages, p, name, q) && q in packages
  {
    name :| name in Declared(packages[p]) && Resolve(packages, p, name) == Some(q);
  }

  lemma TrailExtended(packages: Packages, parent: string, w: seq<string>, names: seq<string>, name: string, q: string)
    requires Trail(packages, parent, w, names) && Hop(packages, w[|names|], name, q) && q in packages
    ensures Trail(packages, parent, w + [q], names + [name])
  {
    forall i | 0 <= i < |names + [name]| ensures Hop(packages, (w + [q])[i], (names + [name])[i], (w + [q])[i + 1]) {
      if i < |names| { assert Hop(packages, w[i], names[i], w[i + 1]); }
    }
  }

  lemma {:induction false} WalkIsTrail(packages: Packages, parent: string, w: seq<string>) returns (names: seq<string>)
    requires Walk(packages, parent, w)
    ensures Trail(packages, parent, w, names)
    decreases |w|
  {
    if |w| == 1 {
      names := [];
    } else {
      var init, last := w[..|w| - 1], w[|w| - 1];
      LastOf(w);
      assert forall i :: 0 <= i < |init| - 1 ==> Edge(packages, init[i], init[i + 1]);
      names := WalkIsTrail(packages, parent, init);
      assert Edge(packages, w[|w| - 2], w[|w| - 1]);
      var name := EdgeIsHop(packages, init[|names|], last);
      TrailExtended(packages, parent, init, names, name, last);
      names := names + [name];
    }
  }

  /** The tables of everything below the parent, and what they find for the child. */
  ghost predicate BoundThroughout(packages: Packages, parent: string, child: string, version: string) {
    forall w, names :: Trail(packages, parent, w, names) ==> BoundHere(packages, w[|names|], child, version)
  }

  predicate BoundHere(packages: Packages, path: string, child: string, version: string) {
    path in packages && var p := packages[path];
    && p.dependencies.Keys? && p.optional.Keys? && p.peer.Keys?
    && (child in p.dependencies.names || child in p.optional.names || child in p.peer.names ==>
          Pinned(packages, path, child, version))
  }

  ghost predicate NamedSomewhere(packages: Packages, parent: string, child: string) {
    exists w, names :: Trail(packages, parent, w, names) && NamedHere(packages, w[|names|], child)
  }

  predicate NamedHere(packages: Packages, path: string, child: string) {
    path in packages && var p := packages[path];
      Lists(p.dependencies, child) || Lists(p.optional, child) || Lists(p.peer, child)
  }

  /** The specification by edges says the same as the fields do. */
  lemma OverrideInFields(packages: Packages, parent: string, child: string, version: string)
    requires EntriesSound(packages)
    ensures OverrideHolds(packages, parent, child, version) <==>
      BoundThroughout(packages, parent, child, version) && NamedSomewhere(packages, parent, child)
  {
    if OverrideHolds(packages, parent, child, version) {
      forall w, names | Trail(packages, parent, w, names) ensures BoundHere(packages, w[|names|], child, version) {
        TrailReaches(packages, parent, child, version, w, names);
        BoundIsPinned(packages, w[|names|], child, version);
      }
      var w, names := NamedBelow(packages, parent, child, version);
      assert NamedHere(packages, w[|names|], child);
    }
    if BoundThroughout(packages, parent, child, version) && NamedSomewhere(packages, parent, child) {
      forall path | Reachable(packages, parent, path) ensures BindsAt(packages, path, child, version) {
        BoundAtEnd(packages, parent, child, version, path);
      }
      NamedAtEnd(packages, parent, child, version);
    }
  }

  lemma BoundAtEnd(packages: Packages, parent: string, child: string, version: string, path: string)
    requires BoundThroughout(packages, parent, child, version) && Reachable(packages, parent, path)
    ensures BindsAt(packages, path, child, version)
  {
    var w :| Walk(packages, parent, w) && w[|w| - 1] == path;
    var names := WalkIsTrail(packages, parent, w);
    assert BoundHere(packages, w[|names|], child, version);
    assert |w| > 1 ==> Edge(packages, w[|w| - 2], w[|w| - 1]);
    PinnedIsBound(packages, path, child, version);
  }

  lemma NamedAtEnd(packages: Packages, parent: string, child: string, version: string)
    requires EntriesSound(packages) && NamedSomewhere(packages, parent, child)
    requires forall path :: Reachable(packages, parent, path) ==> BindsAt(packages, path, child, version)
    ensures exists path :: Pulls(packages, parent, path, child)
  {
    var w, names :| Trail(packages, parent, w, names) && NamedHere(packages, w[|names|], child);
    TrailReaches(packages, parent, child, version, w, names);
    assert Pulls(packages, parent, w[|names|], child);
  }

  // ---- the entries ----

  /** Every entry but the root is a pinned tarball of the registry: no link, no alias, no other address. */
  lemma AcceptedEntry(
      m: Manifest, lock: Lock, dependencies: Expected<Pins>, overrides: Expected<map<string, Pins>>, path: string)
    requires LockSound(m, lock, dependencies, overrides) && path in lock.packages && path != ""
    ensures var p := lock.packages[path];
      && IsLockPath(path) && !p.link && !p.aliased
      && p.version.Some? && IsExactSemver(p.version.value)
      && p.integrity.Some? && "sha512-" <= p.integrity.value
      && p.resolved == Some("https://registry.npmjs.org/" + Innermost(path) + "/-/" + Basename(Innermost(path))
           + "-" + p.version.value + ".tgz")
  {
    assert EntrySound(path, lock.packages[path]);
  }

  /** No character of the address can be read as an escape, a query or a fragment. */
  lemma AcceptedAddress(
      m: Manifest, lock: Lock, dependencies: Expected<Pins>, overrides: Expected<map<string, Pins>>, path: string, i: nat)
    requires LockSound(m, lock, dependencies, overrides) && path in lock.packages && path != ""
    requires lock.packages[path].resolved.Some? && i < |lock.packages[path].resolved.value|
    ensures var c := lock.packages[path].resolved.value[i]; c != '%' && c != '\\' && c != '?' && c != '#'
  {
    assert EntrySound(path, lock.packages[path]);
    RenderParsed(path);
    TarballIsPlain(Innermost(path), lock.packages[path].version.value);
  }

  /** The root's dependencies are the manifest's, each pinned exactly and installed somewhere. */
  lemma AcceptedDependencies(
      m: Manifest, lock: Lock, dependencies: Expected<Pins>, overrides: Expected<map<string, Pins>>, name: string)
    requires LockSound(m, lock, dependencies, overrides) && name in m.dependencies
    ensures lock.version == 3 && lock.rootDependencies == Some(m.dependencies)
    ensures IsNpmName(name) && IsExactSemver(m.dependencies[name])
    ensures exists q :: q in lock.packages && IsLockPath(q) && Innermost(q) == name
  {
    assert Installed(lock.packages, name);
  }

  /** The manifest is the expected one where one is expected, and its overrides sit on its own dependencies. */
  lemma AcceptedManifest(m: Manifest, lock: Lock, dependencies: Expected<Pins>, overrides: Expected<map<string, Pins>>)
    requires LockSound(m, lock, dependencies, overrides)
    ensures dependencies.MustEqual? ==> m.dependencies == dependencies.value
    ensures overrides.MustBeAbsent? ==> m.overrides == Absent
    ensures overrides.MustEqual? ==> m.overrides == Overrides(overrides.value) && overrides.value != map[]
    ensures m.overrides != Malformed
    ensures m.overrides.Overrides? ==> forall parent :: parent in m.overrides.overrides ==>
      && parent in m.dependencies && m.overrides.overrides[parent] != map[]
      && forall child :: child in m.overrides.overrides[parent] ==>
        IsNpmName(child) && IsExactSemver(m.overrides.overrides[parent][child])
  {
  }
}
