/** A concrete candidate of `n` rows, the first `b` of them blocked, and the proposal reviewed from it: with
    nine of 31 blocked it is a V132 candidate. */
module BoundaryWitness {
  import opened Results
  import opened Disposition
  import opened Triage
  import opened Acceptance

  function ProjectionFor(i: nat, b: nat): Projection {
    if i < b then Projection(BlockedPolicy, false, true, "credentials", false, 0)
    else Projection(Fresh, true, false, "", false, 0)
  }

  function RowsTo(n: nat, b: nat): seq<ScanRow> {
    seq(n, i requires 0 <= i < n => ScanRow(Some(i), ProjectionFor(i, b), true, NoRecord))
  }

  function TableTo(n: nat, b: nat): map<Slug, Projection> { map s | 0 <= s < n :: ProjectionFor(s, b) }

  lemma {:induction false} RowsProject(n: nat, b: nat)
    ensures Project(RowsTo(n, b)) == Ok(TableTo(n, b))
  {
    if n == 0 {
      assert TableTo(0, b) == map[];
    } else {
      RowsProject(n - 1, b);
      assert RowsTo(n, b)[..n - 1] == RowsTo(n - 1, b);
      assert TableTo(n, b) == TableTo(n - 1, b)[n - 1 := ProjectionFor(n - 1, b)];
    }
  }

  function AtMost(n: nat, limit: nat): nat { if n < limit then n else limit }

  lemma RowsGrow(n: nat, b: nat)
    ensures |RowsTo(n + 1, b)| == n + 1 && RowsTo(n + 1, b)[..n] == RowsTo(n, b)
    ensures RowsTo(n + 1, b)[n] == ScanRow(Some(n), ProjectionFor(n, b), true, NoRecord)
  {
  }

  lemma OneFinding(f: Finding, s: Severity)
    ensures CountOf([f], s) == if f.severity == s then 1 else 0
  {
    assert [f][..0] == [];
  }

  lemma {:induction false} RowsCount(n: nat, b: nat)
    ensures var f := AllRowFindings(RowsTo(n, b));
      && CountOf(f, Critical) == AtMost(n, b) && CountOf(f, Medium) == n - AtMost(n, b)
      && CountOf(f, High) == 0 && CountOf(f, Low) == 0
  {
    if n > 0 {
      RowsCount(n - 1, b);
      RowsGrow(n - 1, b);
      var f := if n - 1 < b then Finding(Critical, ResultState(BlockedPolicy), Some(n - 1))
               else Finding(Medium, DriftUnknown, Some(n - 1));
      assert RowFindings(RowsTo(n, b)[n - 1]) == [f];
      forall s ensures CountOf(AllRowFindings(RowsTo(n, b)), s) ==
        CountOf(AllRowFindings(RowsTo(n - 1, b)), s) + if f.severity == s then 1 else 0
      {
        CountAppend(AllRowFindings(RowsTo(n - 1, b)), [f], s);
        OneFinding(f, s);
      }
    }
  }

  function Range(a: nat, b: nat): (r: set<nat>)
    requires a <= b
    ensures forall s :: s in r <==> a <= s < b
    ensures |r| == b - a
    decreases b
  {
    if a == b then {} else Range(a, b - 1) + {b - 1}
  }

  function RowAt(s: nat, b: nat): Row { Row(s < b, 0) }

  function InventoryOf(n: nat, b: nat): Inventory { map s | 0 <= s < n :: RowAt(s, b) }

  function Entries(b: nat): seq<Entry> { seq(b, i requires 0 <= i < b => KeepBlocked(i)) }

  function PolicyOf(b: nat): Policy { Policy(V132, Proposed, ProposedMark, ProposedMark, true, true, Entries(b), None) }

  function RunOf(n: nat, b: nat): Run {
    var rows := RowsTo(n, b);
    Run(InventoryOf(n, b), [], rows, rows, TriageOf([], rows, rows), true, Bindings(0, 0, 0), true)
  }

  lemma InventorySize(n: nat, b: nat)
    requires b <= n
    ensures |InventoryOf(n, b)| == n && BlockedSlugs(InventoryOf(n, b)) == Range(0, b)
  {
    assert InventoryOf(n, b).Keys == Range(0, n);
  }

  lemma EntriesAre(b: nat)
    ensures Slugs(Entries(b)) == Range(0, b) && Sort(Entries(b)) == Entries(b)
  {
    EntrySlugs(b);
    SortedUnchanged(Entries(b));
  }

  lemma EntrySlugs(b: nat)
    ensures Slugs(Entries(b)) == Range(0, b) && Ascending(Entries(b))
  {
    var entries := Entries(b);
    assert forall i :: 0 <= i < b ==> entries[i].slug == i;
    forall s | s in Range(0, b) ensures s in Slugs(entries) { assert entries[s] in entries; }
  }

  lemma PolicyIsSound(n: nat, b: nat)
    requires b <= n
    ensures PolicySound(PolicyOf(b), InventoryOf(n, b)) && Loaded(PolicyOf(b)) == PolicyOf(b)
  {
    InventorySize(n, b);
    EntriesAre(b);
    EntriesFit(b, InventoryOf(n, b));
  }

  lemma EntriesFit(b: nat, inventory: Inventory)
    requires BlockedSlugs(inventory) == Slugs(Entries(b))
    ensures EntriesSound(Entries(b), inventory)
  {
  }

  lemma TableCounts(n: nat, b: nat)
    requires b <= n
    ensures CountsOf(TableTo(n, b)) == CandidateCounts(n - b, 0, b, n)
    ensures SlugsIn(TableTo(n, b), {BlockedPolicy}) == Range(0, b)
  {
    TableStates(n, b);
    assert TableTo(n, b).Keys == Range(0, n);
  }

  lemma TableStates(n: nat, b: nat)
    requires b <= n
    ensures SlugsIn(TableTo(n, b), {BlockedPolicy}) == Range(0, b)
    ensures SlugsIn(TableTo(n, b), {Fresh}) == Range(b, n)
    ensures SlugsIn(TableTo(n, b), {Masked}) == {}
  {
    forall s ensures s in SlugsIn(TableTo(n, b), {BlockedPolicy}) <==> s in Range(0, b) {}
    forall s ensures s in SlugsIn(TableTo(n, b), {Fresh}) <==> s in Range(b, n) {}
  }

  lemma NothingDiffers(rows: seq<ScanRow>)
    requires Project(rows).Ok?
    ensures RepeatFindings(rows, rows) == [] && CheckFindings([]) == []
  {
    var x := Project(rows).value;
    assert Differing(x, x) == {};
  }

  lemma FindingsCounted(n: nat, b: nat)
    requires b <= n
    ensures var f := RunOf(n, b).triage;
      && CountOf(f, Critical) == b && CountOf(f, Medium) == n - b + 1 && CountOf(f, High) == 0 && CountOf(f, Low) == 0
      && Named(f, BlockedPolicy) == Wrapped(Slugs(PolicyOf(b).entries))
  {
    var rows := RowsTo(n, b);
    RowsProject(n, b);
    RowsCount(n, b);
    TriageNames([], rows, rows);
    TableCounts(n, b);
    EntriesAre(b);
    NothingDiffers(rows);
    forall s ensures CountOf(TriageOf([], rows, rows), s) ==
      CountOf(AllRowFindings(rows), s) + if s == Medium then 1 else 0
    {
      CountParts([], rows, rows, s);
    }
  }

  lemma CandidateCounted(n: nat, b: nat)
    requires b <= n
    ensures Project(RowsTo(n, b)) == Ok(TableTo(n, b))
    ensures CountsOf(TableTo(n, b)) == CandidateCounts(n - b, 0, b, n) && |InventoryOf(n, b)| == n
  {
    InventorySize(n, b);
    RowsProject(n, b);
    TableCounts(n, b);
  }

  lemma RunIsAdmitted(n: nat, b: nat)
    requires n == CATALOG_TOTAL && b == BlockedCount(V132)
    ensures RunAdmitted(PolicyOf(b), RunOf(n, b))
  {
    FindingsCounted(n, b);
    CandidateCounted(n, b);
    AdmittedWhen(PolicyOf(b), RunOf(n, b), TableTo(n, b));
  }

  lemma AdmittedWhen(p: Policy, run: Run, table: map<Slug, Projection>)
    requires run.triage == TriageOf(run.failed, run.firstRows, run.secondRows) && FindingsAdmitted(run.triage, p)
    requires Project(run.firstRows) == Project(run.secondRows) == Ok(table)
    requires CountsOf(table) == ExpectedCounts(p.release) && |run.inventory| == CATALOG_TOTAL && run.bound
    ensures RunAdmitted(p, run)
  {
  }

  lemma EvidenceIsThere(n: nat, b: nat)
    requires b <= n
    ensures Covered(PolicyOf(b), RunOf(n, b))
  {
    RowsProject(n, b);
    var p, run := PolicyOf(b), RunOf(n, b);
    forall e | e in p.entries ensures e.slug in run.inventory && EvidenceRepeats(run, e.slug) {
      EntrySlug(b, e);
      EvidenceOfRow(n, b, run, e.slug);
    }
  }

  lemma EntrySlug(b: nat, e: Entry)
    requires e in Entries(b)
    ensures e.slug < b
  {
  }

  lemma EvidenceOfRow(n: nat, b: nat, run: Run, s: Slug)
    requires s < b <= n && Project(run.firstRows) == Project(run.secondRows) == Ok(TableTo(n, b))
    ensures EvidenceRepeats(run, s)
  {
  }

  lemma RunReviewed(n: nat, b: nat)
    requires n == CATALOG_TOTAL && b == BlockedCount(V132)
    ensures Loaded(PolicyOf(b)) == PolicyOf(b)
    ensures ReviewBuilds(Stored(PolicyOf(b), 0), None, RunOf(n, b))
  {
    PolicyIsSound(n, b);
    RunIsAdmitted(n, b);
    EvidenceIsThere(n, b);
    ReviewWhen(PolicyOf(b), RunOf(n, b));
  }

  lemma ReviewWhen(p: Policy, run: Run)
    requires PolicySound(p, run.inventory) && Loaded(p) == p && p.state == Proposed
    requires RunAdmitted(p, run) && Covered(p, run)
    ensures ReviewBuilds(Stored(p, 0), None, run)
  {
  }

  function Proposal(n: nat, b: nat): Stored<Review>
    requires Covered(PolicyOf(b), RunOf(n, b))
  {
    Stored(Signed(Body(PolicyOf(b), Stored(PolicyOf(b), 0), RunOf(n, b))), 0)
  }

  const REVIEW := "review.json"
  const ARTIFACT := "accepted.json"

  /** The accepted policy is stored, its artifact saved beside the proposal, and the review made again. */
  predicate Rereviewed(n: nat, b: nat, artifactName: string, authorization: Digest)
    requires Covered(PolicyOf(b), RunOf(n, b))
  {
    var proposal := Proposal(n, b);
    var accepted := AcceptedPolicy(PolicyOf(b), REVIEW, proposal, artifactName, authorization);
    var dir := Saved(map[REVIEW := ReviewDocument(proposal)], artifactName, ArtifactDoc(proposal, authorization));
    ReviewBuilds(Stored(accepted, 0), Some(AcceptedInputs(REVIEW, dir)), RunOf(n, b))
  }

  lemma ProposalAcceptable(n: nat, b: nat, artifactName: string)
    requires n == CATALOG_TOTAL && b == BlockedCount(V132) && IsBareName(artifactName)
    ensures Covered(PolicyOf(b), RunOf(n, b)) && Loaded(PolicyOf(b)) == PolicyOf(b)
    ensures Acceptable(Stored(PolicyOf(b), 0), RunOf(n, b), Proposal(n, b), artifactName)
  {
    EvidenceIsThere(n, b);
    RunReviewed(n, b);
    AcceptableWhen(PolicyOf(b), RunOf(n, b), artifactName);
  }

  lemma AcceptableWhen(p: Policy, run: Run, artifactName: string)
    requires ReviewBuilds(Stored(p, 0), None, run) && Loaded(p) == p && IsBareName(artifactName)
    requires p.release == V132 && p.state == Proposed
    ensures Acceptable(Stored(p, 0), run, Stored(Signed(Body(p, Stored(p, 0), run)), 0), artifactName)
  {
  }

  lemma Names()
    ensures Storable(REVIEW) && Storable(ARTIFACT) && REVIEW != ARTIFACT
  {
    assert |REVIEW| != |ARTIFACT|;
  }

  /** The builder accepts its proposal's own file name, and the round trip then fails. */
  lemma OwnNameIsAcceptedAndFails(n: nat, b: nat, authorization: Digest)
    requires n == CATALOG_TOTAL && b == BlockedCount(V132)
    ensures Covered(PolicyOf(b), RunOf(n, b))
    ensures Acceptable(Stored(PolicyOf(b), 0), RunOf(n, b), Proposal(n, b), REVIEW)
    ensures !Rereviewed(n, b, REVIEW, authorization)
  {
    Names();
    ProposalAcceptable(n, b, REVIEW);
    var dir: Directory := map[REVIEW := ReviewDocument(Proposal(n, b))];
    OwnNameFails(Stored(PolicyOf(b), 0), RunOf(n, b), REVIEW, Proposal(n, b), authorization, 0, dir);
  }

  /** Under another name it succeeds. */
  lemma OtherNameSucceeds(n: nat, b: nat, authorization: Digest)
    requires n == CATALOG_TOTAL && b == BlockedCount(V132)
    ensures Covered(PolicyOf(b), RunOf(n, b)) && Rereviewed(n, b, ARTIFACT, authorization)
  {
    Names();
    ProposalAcceptable(n, b, ARTIFACT);
    var dir: Directory := map[REVIEW := ReviewDocument(Proposal(n, b))];
    AcceptanceRoundTrip(Stored(PolicyOf(b), 0), RunOf(n, b), REVIEW, Proposal(n, b), ARTIFACT, authorization, 0, dir);
  }
}
