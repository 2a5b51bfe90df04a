/** The corpus policy, the inventory derived from it, and the contract a READY preflight's catalog must meet. */
module Catalog {
  import opened Results

  datatype SeedRow = SeedRow(slug: string, localProcess: bool, image: string)

  /** The policy's lists as written.  `sources` says of each image build source whether it is VERIFIED. */
  datatype Policy = Policy(
    denominator: int, defaultImage: string, sources: map<string, bool>,
    scannable: seq<string>, blocked: seq<string>, masked: seq<string>, unsupported: seq<string>,
    credential: seq<string>, backing: seq<string>)

  function Elements(s: seq<string>): set<string> { set x | x in s }

  predicate NoRepeats(s: seq<string>) { forall i, j :: 0 <= i < j < |s| ==> s[i] != s[j] }

  predicate SlugList(s: seq<string>) { NoRepeats(s) && "" !in s }

  function SlugsOf(seed: seq<SeedRow>): seq<string> {
    seq(|seed|, i requires 0 <= i < |seed| => seed[i].slug)
  }

  function ImageOf(p: Policy, row: SeedRow): string { if row.image == "" then p.defaultImage else row.image }

  /** Everything a server can be excluded from execution for. */
  function Excluded(p: Policy): set<string> {
    Elements(p.masked) + Elements(p.unsupported) + Elements(p.credential) + Elements(p.backing)
  }

  /** What load_policy accepts. */
  predicate PolicyLoads(p: Policy, seed: seq<SeedRow>, masked: seq<string>) {
    var catalog := Elements(SlugsOf(seed));
    && NoRepeats(masked) && SlugList(SlugsOf(seed))
    && p.denominator == |catalog|
    && p.sources.Keys == (set row | row in seed && row.localProcess :: ImageOf(p, row))
    && ListsSound(p)
    && Elements(p.scannable) <= catalog && Elements(p.blocked) <= catalog && Excluded(p) <= catalog
    && Elements(p.blocked) == Excluded(p) && Elements(p.scannable) == catalog - Excluded(p)
    && Elements(p.masked) == Elements(masked)
  }

  lemma {:induction false} SizeTellsRepeats(s: seq<string>)
    ensures |Elements(s)| <= |s|
    ensures |Elements(s)| == |s| <==> NoRepeats(s)
  {
    if s != [] {
      var init, last := s[..|s| - 1], s[|s| - 1];
      SizeTellsRepeats(init);
      assert s == init + [last];
      assert Elements(s) == Elements(init) + {last};
      if last in init {
        var i :| 0 <= i < |init| && init[i] == last;
        assert s[i] == s[|s| - 1];
        assert Elements(s) == Elements(init);
      } else {
        assert |Elements(s)| == |Elements(init)| + 1;
        assert NoRepeats(init) ==> NoRepeats(s);
      }
      assert NoRepeats(s) ==> NoRepeats(init);
    }
  }

  /** _slug_set: refuses empty strings and, by comparing sizes, repeats. */
  method SlugSet(list: seq<string>) returns (r: Result<set<string>>)
    ensures r.Ok? <==> SlugList(list)
    ensures r.Ok? ==> r.value == Elements(list)
  {
    var slugs: set<string> := {};
    var i := 0;
    while i < |list|
      invariant 0 <= i <= |list|
      invariant slugs == Elements(list[..i]) && "" !in slugs
    {
      if list[i] == "" { return Raised; }
      assert list[..i + 1] == list[..i] + [list[i]];
      slugs := slugs + {list[i]};
      i := i + 1;
    }
    assert list[..i] == list;
    SizeTellsRepeats(list);
    if |list| != |slugs| { return Raised; }
    assert "" in list ==> "" in Elements(list);
    r := Ok(slugs);
  }

  method ImageRefs(p: Policy, seed: seq<SeedRow>) returns (images: set<string>)
    ensures images == set row | row in seed && row.localProcess :: ImageOf(p, row)
  {
    images := {};
    var i := 0;
    while i < |seed|
      invariant 0 <= i <= |seed|
      invariant images == set row | row in seed[..i] && row.localProcess :: ImageOf(p, row)
    {
      assert seed[..i + 1] == seed[..i] + [seed[i]];
      if seed[i].localProcess { images := images + {ImageOf(p, seed[i])}; }
      i := i + 1;
    }
    assert seed[..i] == seed;
  }

  datatype PolicySets = PolicySets(
    scannable: set<string>, blocked: set<string>, masked: set<string>, unsupported: set<string>,
    credential: set<string>, backing: set<string>)

  predicate ListsSound(p: Policy) {
    && SlugList(p.scannable) && SlugList(p.blocked) && SlugList(p.masked) && SlugList(p.unsupported)
    && SlugList(p.credential) && SlugList(p.backing)
  }

  function SetsOf(p: Policy): PolicySets {
    PolicySets(Elements(p.scannable), Elements(p.blocked), Elements(p.masked), Elements(p.unsupported),
               Elements(p.credential), Elements(p.backing))
  }

  method ReadLists(p: Policy) returns (r: Result<PolicySets>)
    ensures r.Ok? <==> ListsSound(p)
    ensures r.Ok? ==> r.value == SetsOf(p)
  {
    var scannable := SlugSet(p.scannable);
    var blocked := SlugSet(p.blocked);
    var masked := SlugSet(p.masked);
    var unsupported := SlugSet(p.unsupported);
    var credential := SlugSet(p.credential);
    var backing := SlugSet(p.backing);
    if scannable.Raised? || blocked.Raised? || masked.Raised? || unsupported.Raised? || credential.Raised?
       || backing.Raised? {
      return Raised;
    }
    r := Ok(PolicySets(scannable.value, blocked.value, masked.value, unsupported.value, credential.value, backing.value));
  }

  lemma InputsAgree(p: Policy, seed: seq<SeedRow>, masked: seq<string>)
    requires PolicyLoads(p, seed, masked)
    ensures p.denominator == |seed| && forall s :: s in p.masked <==> s in masked
    ensures forall image :: image in p.sources <==>
      exists row :: row in seed && row.localProcess && image == (if row.image == "" then p.defaultImage else row.image)
  {
    SizeTellsRepeats(SlugsOf(seed));
    forall s ensures s in p.masked <==> s in masked { assert s in Elements(p.masked) <==> s in Elements(masked); }
    assert forall image :: image in p.sources <==> image in p.sources.Keys;
  }

  /** load_policy: reads every list, then compares the written boundary with the one the categories give. */
  method LoadPolicy(p: Policy, seed: seq<SeedRow>, masked: seq<string>) returns (r: Result<PolicySets>)
    ensures r.Ok? <==> PolicyLoads(p, seed, masked)
    ensures r.Ok? ==> r.value == SetsOf(p)
    ensures r.Ok? ==> p.denominator == |seed| && forall s :: s in p.masked <==> s in masked
    ensures r.Ok? ==> forall image :: image in p.sources <==>
      exists row :: row in seed && row.localProcess && image == (if row.image == "" then p.defaultImage else row.image)
  {
    r := LoadLists(p, seed, masked);
    if r.Ok? { InputsAgree(p, seed, masked); }
  }

  method LoadLists(p: Policy, seed: seq<SeedRow>, masked: seq<string>) returns (r: Result<PolicySets>)
    ensures r.Ok? <==> PolicyLoads(p, seed, masked)
    ensures r.Ok? ==> r.value == SetsOf(p)
  {
    var maskedSet := set x | x in masked;
    SizeTellsRepeats(masked);
    if |masked| != |maskedSet| { return Raised; }
    var catalog := SlugSet(SlugsOf(seed));
    if catalog.Raised? || p.denominator != |catalog.value| { return Raised; }
    var images := ImageRefs(p, seed);
    if p.sources.Keys != images { return Raised; }
    var sets := ReadLists(p);
    if sets.Raised? { return Raised; }
    var excluded := sets.value.masked + sets.value.unsupported + sets.value.credential + sets.value.backing;
    if !(sets.value.scannable <= catalog.value && sets.value.blocked <= catalog.value && excluded <= catalog.value) {
      return Raised;
    }
    if sets.value.blocked != excluded || sets.value.scannable != catalog.value - excluded
       || sets.value.masked != maskedSet {
      return Raised;
    }
    r := sets;
  }

  datatype Row = Row(
    slug: string, scannable: bool, masked: bool, unsupported: bool, credential: bool, backing: bool,
    localProcess: bool, sourceMissing: bool, verified: bool)

  function RowFor(p: Policy, row: SeedRow): Row {
    var image := ImageOf(p, row);
    Row(row.slug, row.slug in p.scannable, row.slug in p.masked, row.slug in p.unsupported,
        row.slug in p.credential, row.slug in p.backing, row.localProcess,
        row.localProcess && image !in p.sources, row.localProcess && image in p.sources && p.sources[image])
  }

  datatype Counts = Counts(
    scannable: nat, blocked: nat, masked: nat, unsupported: nat, credential: nat, backing: nat,
    localProcess: nat, sourceMissing: nat, unqualified: nat)

  datatype Inventory = Inventory(denominator: nat, counts: Counts, rows: seq<Row>)

  function Count(rows: seq<Row>, f: Row -> bool): (n: nat)
    ensures n <= |rows|
  {
    if rows == [] then 0
    else Count(rows[..|rows| - 1], f) + if f(rows[|rows| - 1]) then 1 else 0
  }

  function CountsOf(rows: seq<Row>): Counts {
    Counts(Count(rows, (r: Row) => r.scannable), Count(rows, (r: Row) => !r.scannable),
           Count(rows, (r: Row) => r.masked), Count(rows, (r: Row) => r.unsupported),
           Count(rows, (r: Row) => r.credential), Count(rows, (r: Row) => r.backing),
           Count(rows, (r: Row) => r.localProcess), Count(rows, (r: Row) => r.localProcess && r.sourceMissing),
           Count(rows, (r: Row) => r.localProcess && !r.verified))
  }

  function Rows(p: Policy, seed: seq<SeedRow>): seq<Row> {
    seq(|seed|, i requires 0 <= i < |seed| => RowFor(p, seed[i]))
  }

  /** catalog_inventory, on a seed already in slug order. */
  method CatalogInventory(p: Policy, seed: seq<SeedRow>, masked: seq<string>) returns (r: Result<Inventory>)
    ensures r.Ok? <==> PolicyLoads(p, seed, masked)
    ensures r.Ok? ==> r.value == Inventory(|seed|, CountsOf(Rows(p, seed)), Rows(p, seed))
    ensures r.Ok? ==> |r.value.rows| == |seed| == r.value.denominator
    ensures r.Ok? ==> forall i :: 0 <= i < |seed| ==> RowSays(r.value.rows[i], p, seed[i])
    ensures r.Ok? ==> r.value.counts.localProcess == |set i | 0 <= i < |seed| && seed[i].localProcess|
    ensures r.Ok? ==> r.value.counts.unqualified == |set i | 0 <= i < |seed| && Unqualified(p, seed[i])|
    ensures r.Ok? ==> r.value.counts.sourceMissing == 0
  {
    var loaded := LoadPolicy(p, seed, masked);
    if loaded.Raised? { return Raised; }
    var rows: seq<Row> := [];
    var i := 0;
    while i < |seed|
      invariant 0 <= i <= |seed|
      invariant rows == Rows(p, seed)[..i]
    {
      rows := rows + [RowFor(p, seed[i])];
      i := i + 1;
    }
    assert rows == Rows(p, seed);
    r := Ok(Inventory(|rows|, CountsOf(rows), rows));
    SourcesPresent(p, seed, masked);
    BoundaryPartitions(p, seed, masked);
    RowsSay(p, seed, masked);
    CountsSay(p, seed, masked);
  }

  /** A local process whose image build source is not VERIFIED.  A row without an image has the default one. */
  predicate Unqualified(p: Policy, row: SeedRow) {
    row.localProcess && var image := if row.image == "" then p.defaultImage else row.image;
      image !in p.sources || !p.sources[image]
  }

  predicate RowSays(r: Row, p: Policy, row: SeedRow) {
    && r.slug == row.slug && r.localProcess == row.localProcess
    && r.masked == (row.slug in p.masked) && r.unsupported == (row.slug in p.unsupported)
    && r.credential == (row.slug in p.credential) && r.backing == (row.slug in p.backing)
    && r.scannable == !(r.masked || r.unsupported || r.credential || r.backing)
    && !r.sourceMissing && r.verified == (row.localProcess && !Unqualified(p, row))
  }

  lemma RowsSay(p: Policy, seed: seq<SeedRow>, masked: seq<string>)
    requires PolicyLoads(p, seed, masked)
    ensures forall i :: 0 <= i < |seed| ==> RowSays(Rows(p, seed)[i], p, seed[i])
  {
    forall i | 0 <= i < |seed| ensures RowSays(Rows(p, seed)[i], p, seed[i]) {
      BoundaryOfRow(p, seed, masked, i);
      assert seed[i] in seed && Rows(p, seed)[i] == RowFor(p, seed[i]);
    }
  }

  function Places(rows: seq<Row>, f: Row -> bool): set<int> { set i | 0 <= i < |rows| && f(rows[i]) }

  lemma {:induction false} CountIsPlaces(rows: seq<Row>, f: Row -> bool)
    ensures Count(rows, f) == |Places(rows, f)|
  {
    if rows != [] {
      var init := rows[..|rows| - 1];
      CountIsPlaces(init, f);
      assert Places(rows, f) == Places(init, f) + if f(rows[|rows| - 1]) then {|rows| - 1} else {};
    }
  }

  lemma CountsSay(p: Policy, seed: seq<SeedRow>, masked: seq<string>)
    requires PolicyLoads(p, seed, masked)
    ensures var c := CountsOf(Rows(p, seed));
      && c.localProcess == |set i | 0 <= i < |seed| && seed[i].localProcess|
      && c.unqualified == |set i | 0 <= i < |seed| && Unqualified(p, seed[i])|
  {
    var rows := Rows(p, seed);
    RowsSay(p, seed, masked);
    var local, open := (r: Row) => r.localProcess, (r: Row) => r.localProcess && !r.verified;
    CountIsPlaces(rows, local);
    CountIsPlaces(rows, open);
    assert Places(rows, local) == set i | 0 <= i < |seed| && seed[i].localProcess;
    assert Places(rows, open) == set i | 0 <= i < |seed| && Unqualified(p, seed[i]);
  }

  // ---- the READY contract ----

  predicate SlugChar(c: char) { 'a' <= c <= 'z' || 'A' <= c <= 'Z' || '0' <= c <= '9' }

  /** `[A-Za-z0-9][A-Za-z0-9._-]{0,254}` */
  predicate CatalogSlug(s: string) {
    && 0 < |s| <= 255 && SlugChar(s[0])
    && forall i :: 0 <= i < |s| ==> SlugChar(s[i]) || s[i] in "._-"
  }

  predicate AllSlugs(s: seq<string>) { forall x :: x in s ==> CatalogSlug(x) }

  predicate CountsFit(c: Counts, denominator: int) {
    && c.scannable <= denominator && c.blocked <= denominator && c.localProcess <= denominator
    && c.scannable + c.blocked == denominator
    && c.masked <= c.blocked && c.unsupported <= c.blocked && c.credential <= c.blocked && c.backing <= c.blocked
    && c.sourceMissing <= c.unqualified <= c.localProcess
  }

  /** _valid_ready_catalog_contract, given the counts the checker recomputed. */
  predicate ValidReadyCatalog(
      denominator: int, counts: Counts, expected: Counts, scannable: seq<string>, blocked: seq<string>)
  {
    && counts == expected && CountsFit(counts, denominator)
    && AllSlugs(scannable) && AllSlugs(blocked)
    && NoRepeats(scannable) && NoRepeats(blocked) && Elements(scannable) !! Elements(blocked)
    && |scannable| == counts.scannable && |blocked| == counts.blocked
    && |scannable| + |blocked| == denominator
  }

  // ---- counting rows is counting slugs ----

  predicate SlugsDiffer(rows: seq<Row>) { forall i, j :: 0 <= i < j < |rows| ==> rows[i].slug != rows[j].slug }

  function Selected(rows: seq<Row>, f: Row -> bool): set<string> { set r | r in rows && f(r) :: r.slug }

  lemma {:induction false} CountIsCardinality(rows: seq<Row>, f: Row -> bool)
    requires SlugsDiffer(rows)
    ensures Count(rows, f) == |Selected(rows, f)|
  {
    if rows != [] {
      var init, last := rows[..|rows| - 1], rows[|rows| - 1];
      CountIsCardinality(init, f);
      assert rows == init + [last];
      assert last.slug !in Selected(init, f);
      assert Selected(rows, f) == Selected(init, f) + if f(last) then {last.slug} else {};
    }
  }

  /** The rows a condition on slugs selects, when it holds of catalog slugs only. */
  lemma CountOf(p: Policy, seed: seq<SeedRow>, f: Row -> bool, slugs: set<string>)
    requires NoRepeats(SlugsOf(seed)) && slugs <= Elements(SlugsOf(seed))
    requires forall row :: row in seed ==> (f(RowFor(p, row)) <==> row.slug in slugs)
    ensures Count(Rows(p, seed), f) == |slugs|
  {
    var rows := Rows(p, seed);
    assert forall i :: 0 <= i < |seed| ==> rows[i].slug == SlugsOf(seed)[i] && rows[i] == RowFor(p, seed[i]);
    CountIsCardinality(rows, f);
    forall s | s in slugs ensures s in Selected(rows, f) {
      var i :| 0 <= i < |seed| && SlugsOf(seed)[i] == s;
      assert rows[i] in rows && seed[i] in seed && f(rows[i]);
    }
    forall s | s in Selected(rows, f) ensures s in slugs {
      var r :| r in rows && f(r) && r.slug == s;
      var i :| 0 <= i < |rows| && rows[i] == r;
      assert seed[i] in seed;
    }
    assert Selected(rows, f) == slugs;
  }

  lemma {:induction false} CountMonotone(rows: seq<Row>, f: Row -> bool, g: Row -> bool)
    requires forall r :: r in rows && f(r) ==> g(r)
    ensures Count(rows, f) <= Count(rows, g)
  {
    if rows != [] { CountMonotone(rows[..|rows| - 1], f, g); }
  }

  lemma {:induction false} CountNone(rows: seq<Row>, f: Row -> bool)
    requires forall r :: r in rows ==> !f(r)
    ensures Count(rows, f) == 0
  {
    if rows != [] { CountNone(rows[..|rows| - 1], f); }
  }

  /** Each derived count is the size of the policy list it is derived from. */
  lemma CountsMatchLists(p: Policy, seed: seq<SeedRow>, masked: seq<string>)
    requires PolicyLoads(p, seed, masked)
    ensures var c := CountsOf(Rows(p, seed));
      && c.scannable == |p.scannable| && c.blocked == |p.blocked|
      && c.masked == |p.masked| && c.unsupported == |p.unsupported|
      && c.credential == |p.credential| && c.backing == |p.backing|
  {
    var catalog := Elements(SlugsOf(seed));
    assert forall row :: row in seed ==> row.slug in catalog by {
      forall row | row in seed ensures row.slug in catalog {
        var i :| 0 <= i < |seed| && seed[i] == row;
        assert SlugsOf(seed)[i] == row.slug;
      }
    }
    CountOf(p, seed, (r: Row) => r.scannable, Elements(p.scannable));
    CountOf(p, seed, (r: Row) => !r.scannable, Elements(p.blocked));
    CountOf(p, seed, (r: Row) => r.masked, Elements(p.masked));
    CountOf(p, seed, (r: Row) => r.unsupported, Elements(p.unsupported));
    CountOf(p, seed, (r: Row) => r.credential, Elements(p.credential));
    CountOf(p, seed, (r: Row) => r.backing, Elements(p.backing));
    SizeTellsRepeats(p.scannable);
    SizeTellsRepeats(p.blocked);
    SizeTellsRepeats(p.masked);
    SizeTellsRepeats(p.unsupported);
    SizeTellsRepeats(p.credential);
    SizeTellsRepeats(p.backing);
  }

  lemma SourcesPresent(p: Policy, seed: seq<SeedRow>, masked: seq<string>)
    requires PolicyLoads(p, seed, masked)
    ensures var c := CountsOf(Rows(p, seed));
      c.sourceMissing == 0 && c.unqualified <= c.localProcess <= |seed|
  {
    var rows := Rows(p, seed);
    forall r | r in rows ensures !(r.localProcess && r.sourceMissing) {
      var i :| 0 <= i < |rows| && rows[i] == r;
      assert rows[i] == RowFor(p, seed[i]) && seed[i] in seed;
    }
    CountNone(rows, (r: Row) => r.localProcess && r.sourceMissing);
    CountMonotone(rows, (r: Row) => r.localProcess && !r.verified, (r: Row) => r.localProcess);
  }

  /** A server of the catalog is scannable exactly when it is in none of the four categories, and blocked
      otherwise. */
  lemma BoundaryOfRow(p: Policy, seed: seq<SeedRow>, masked: seq<string>, i: nat)
    requires PolicyLoads(p, seed, masked) && i < |seed|
    ensures var slug := seed[i].slug;
      && (slug in p.scannable <==>
            slug !in p.masked && slug !in p.unsupported && slug !in p.credential && slug !in p.backing)
      && (slug in p.blocked <==> slug !in p.scannable)
  {
    var slug := seed[i].slug;
    assert SlugsOf(seed)[i] == slug && slug in Elements(SlugsOf(seed));
    InElements(slug, p.scannable);
    InElements(slug, p.blocked);
    InElements(slug, p.masked);
    InElements(slug, p.unsupported);
    InElements(slug, p.credential);
    InElements(slug, p.backing);
  }

  lemma InElements(x: string, s: seq<string>)
    ensures x in Elements(s) <==> x in s
  {
  }

  /** Both sides of the boundary cover the catalog. */
  lemma BoundaryPartitions(p: Policy, seed: seq<SeedRow>, masked: seq<string>)
    requires PolicyLoads(p, seed, masked)
    ensures Elements(p.scannable) !! Elements(p.blocked)
    ensures Elements(p.scannable) + Elements(p.blocked) == Elements(SlugsOf(seed))
    ensures |p.scannable| + |p.blocked| == |seed| == p.denominator
  {
    SizeTellsRepeats(p.scannable);
    SizeTellsRepeats(p.blocked);
    SizeTellsRepeats(SlugsOf(seed));
    assert |Elements(p.scannable) + Elements(p.blocked)| == |Elements(p.scannable)| + |Elements(p.blocked)|;
  }

  /** Whatever policy load_policy accepts, the catalog section derived from it meets the checker's contract
      exactly when the slugs are in the checker's narrower grammar, which load_policy does not ask for. */
  lemma ProducerMeetsChecker(
      p: Policy, seed: seq<SeedRow>, masked: seq<string>, scannable: seq<string>, blocked: seq<string>)
    requires PolicyLoads(p, seed, masked)
    requires NoRepeats(scannable) && Elements(scannable) == Elements(p.scannable)
    requires NoRepeats(blocked) && Elements(blocked) == Elements(p.blocked)
    ensures var c := CountsOf(Rows(p, seed));
      ValidReadyCatalog(|seed|, c, c, scannable, blocked) <==> AllSlugs(SlugsOf(seed))
  {
    CountsAlwaysFit(p, seed, masked);
    CountsMatchLists(p, seed, masked);
    BoundaryPartitions(p, seed, masked);
    SameLength(scannable, p.scannable);
    SameLength(blocked, p.blocked);
    GrammarSplits(SlugsOf(seed), scannable, blocked);
  }

  const ODD_SEED := [SeedRow("_", false, "")]
  const ODD_POLICY := Policy(1, "image", map[], ["_"], [], [], [], [], [])

  /** A policy that loads and whose catalog the checker refuses: its one slug starts with an underscore. */
  lemma OddSlugRefused()
    ensures PolicyLoads(ODD_POLICY, ODD_SEED, [])
    ensures var c := CountsOf(Rows(ODD_POLICY, ODD_SEED)); !ValidReadyCatalog(1, c, c, ["_"], [])
  {
    assert SlugsOf(ODD_SEED) == ["_"];
    assert Elements(["_"]) == {"_"};
    assert ODD_SEED[0] in ODD_SEED;
    assert "_" in ["_"] && !CatalogSlug("_");
  }

  lemma CountsAlwaysFit(p: Policy, seed: seq<SeedRow>, masked: seq<string>)
    requires PolicyLoads(p, seed, masked)
    ensures CountsFit(CountsOf(Rows(p, seed)), |seed|)
  {
    CountsMatchLists(p, seed, masked);
    SourcesPresent(p, seed, masked);
    BoundaryPartitions(p, seed, masked);
    CategoriesFit(p);
  }

  lemma SameLength(a: seq<string>, b: seq<string>)
    requires NoRepeats(a) && NoRepeats(b) && Elements(a) == Elements(b)
    ensures |a| == |b|
  {
    SizeTellsRepeats(a);
    SizeTellsRepeats(b);
  }

  lemma GrammarSplits(all: seq<string>, a: seq<string>, b: seq<string>)
    requires Elements(a) + Elements(b) == Elements(all)
    ensures AllSlugs(all) <==> AllSlugs(a) && AllSlugs(b)
  {
    forall x ensures x in all <==> x in a || x in b {
      assert x in Elements(all) <==> x in Elements(a) + Elements(b);
      assert (x in Elements(a) <==> x in a) && (x in Elements(b) <==> x in b);
    }
  }

  lemma SubsetSize(a: set<string>, b: set<string>)
    requires a <= b
    ensures |a| <= |b|
  {
    assert |b| == |a| + |b - a| by { assert b == a + (b - a); }
  }

  lemma CategoriesFit(p: Policy)
    requires Elements(p.blocked) == Excluded(p) && SlugList(p.blocked) && SlugList(p.masked)
    requires SlugList(p.unsupported) && SlugList(p.credential) && SlugList(p.backing)
    ensures |p.masked| <= |p.blocked| && |p.unsupported| <= |p.blocked|
    ensures |p.credential| <= |p.blocked| && |p.backing| <= |p.blocked|
  {
    SizeTellsRepeats(p.blocked);
    SizeTellsRepeats(p.masked);
    SizeTellsRepeats(p.unsupported);
    SizeTellsRepeats(p.credential);
    SizeTellsRepeats(p.backing);
    SubsetSize(Elements(p.masked), Elements(p.blocked));
    SubsetSize(Elements(p.unsupported), Elements(p.blocked));
    SubsetSize(Elements(p.credential), Elements(p.blocked));
    SubsetSize(Elements(p.backing), Elements(p.blocked));
  }
}
