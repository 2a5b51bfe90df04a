/** Reviews, their acceptance, and the re-review of what was accepted. */
module Acceptance {
  import opened Results
  import opened Disposition
  import opened Triage

  /** Everything a review reads besides the policy: the scan rows of the candidate and of its repeat, which
      candidate-wide checks fail, and the triage it is handed.  `bound` says that the preflight is READY, names
      this policy, seed and masking, and binds all five images. */
  datatype Run = Run(
    inventory: Inventory, failed: seq<Check>, firstRows: seq<ScanRow>, secondRows: seq<ScanRow>,
    triage: seq<Finding>, bound: bool, bindings: Bindings, schedulerSafe: bool)

  function Projections(rows: seq<ScanRow>): map<Slug, Projection> {
    if Project(rows).Ok? then Project(rows).value else map[]
  }

  // ---- build_publication_review_decision ----

  /** _blocked_projection_evidence */
  function EvidenceOf(p: Projection): Result<Evidence> {
    if !p.state.BlockedPolicy? || p.graded || !p.doNotExecute || p.reason == "" || p.failed then Raised
    else Ok(Evidence(p.reason, ProjectionDigest(p)))
  }

  function EvidenceAt(projections: map<Slug, Projection>, slug: Slug): Result<Evidence> {
    if slug in projections then EvidenceOf(projections[slug]) else Raised
  }

  predicate EvidenceRepeats(run: Run, slug: Slug) {
    && EvidenceAt(Projections(run.firstRows), slug).Ok?
    && EvidenceAt(Projections(run.firstRows), slug) == EvidenceAt(Projections(run.secondRows), slug)
  }

  function CountsOf(projections: map<Slug, Projection>): CandidateCounts {
    CandidateCounts(|SlugsIn(projections, {Fresh})|, |SlugsIn(projections, {Masked})|,
                    |SlugsIn(projections, {BlockedPolicy})|, |projections|)
  }

  function ExpectedCounts(r: Release): CandidateCounts {
    CandidateCounts(FreshCount(r), 0, BlockedCount(r), CATALOG_TOTAL)
  }

  /** The exact finding set a boundary review admits. */
  predicate FindingsAdmitted(findings: seq<Finding>, p: Policy) {
    && CountOf(findings, Critical) == BlockedCount(p.release) && CountOf(findings, High) == 0
    && CountOf(findings, Medium) == FreshCount(p.release) + 1 && CountOf(findings, Low) == 0
    && Named(findings, BlockedPolicy) == Wrapped(Slugs(p.entries))
  }

  predicate RunAdmitted(p: Policy, run: Run) {
    && run.triage == TriageOf(run.failed, run.firstRows, run.secondRows)
    && FindingsAdmitted(run.triage, p)
    && Project(run.firstRows).Ok? && Project(run.secondRows).Ok?
    && CountsOf(Projections(run.firstRows)) == ExpectedCounts(p.release)
    && |run.inventory| == CATALOG_TOTAL
    && run.bound
  }

  predicate Reviewable(p: Policy, run: Run) {
    RunAdmitted(p, run) && forall e :: e in p.entries ==> EvidenceRepeats(run, e.slug)
  }

  function MarkOf(p: Policy): Mark { if p.state == Proposed then ProposedMark else AcceptedMark(p.release) }

  function ReviewEntry(p: Policy, run: Run, e: Entry): EntryReview
    requires e.slug in run.inventory && EvidenceRepeats(run, e.slug)
  {
    EntryReview(e, MarkOf(p), run.inventory[e.slug].classification, EvidenceAt(Projections(run.firstRows), e.slug).value)
  }

  predicate Covered(p: Policy, run: Run) {
    forall e :: e in p.entries ==> e.slug in run.inventory && EvidenceRepeats(run, e.slug)
  }

  function ReviewEntries(p: Policy, run: Run): seq<EntryReview>
    requires Covered(p, run)
  {
    seq(|p.entries|, i requires 0 <= i < |p.entries| => ReviewEntry(p, run, p.entries[i]))
  }

  function Gates(state: PolicyState): seq<Gate> {
    (if state == Proposed then [PolicyBlockAcceptance, ForwardAcceptance, ExactSourceReview] else []) +
    [PolicyChangeAndFreshEvidence, ImmutableSiteAndRollback, ExplicitPublicationAuthority, ProductionBindingUnknown]
  }

  function CountsFor(n: nat, state: PolicyState): DispositionCounts {
    if state == Proposed then DispositionCounts(n, n, 0, n) else DispositionCounts(n, 0, n, n)
  }

  function Body(p: Policy, file: Stored<Policy>, run: Run): ReviewBody
    requires Covered(p, run)
  {
    ReviewBody(
      true, if p.state == Proposed then ReadyForHumanDisposition else AcceptedForBoundaryReview, NO_AUTHORITY,
      PolicyFile(file.value, file.layout), p.state,
      ReviewEntries(p, run), CountsFor(|p.entries|, p.state), CountsOf(Projections(run.firstRows)),
      p.historicalUnknown, Forward(p.forwardState, p.forwardDisposition, run.bindings),
      Gates(p.state),
      [SchedulerDefinitionDrift] + if run.schedulerSafe then [] else [SchedulerChangedOrUnknown],
      p.acceptance)
  }

  // ---- _load_accepted_review ----

  function Accepted(entries: seq<EntryReview>): seq<AcceptedEntry> {
    seq(|entries|, i requires 0 <= i < |entries| => AcceptedEntry(entries[i].entry, entries[i].evidence.projection))
  }

  /** A dictionary by slug, later entries winning. */
  function BySlug(entries: seq<AcceptedEntry>): map<Slug, AcceptedEntry> {
    if entries == [] then map[]
    else
      var last := entries[|entries| - 1];
      BySlug(entries[..|entries| - 1])[last.entry.slug := last]
  }

  predicate ProposedReview(review: Review) {
    && review.receipt == ReviewReceipt(review.body)
    && review.body.noGo && review.body.state == ReadyForHumanDisposition && review.body.authority == NO_AUTHORITY
    && review.body.policyState == Proposed && review.body.forward.state == ProposedMark
  }

  predicate ArtifactLinks(p: Policy, a: Acceptance, file: Stored<Review>, artifact: Artifact) {
    var b := artifact.body;
    && b.release == p.release && b.acceptanceState == p.release && b.scope == a.scope
    && artifact.receipt == a.artifactReceipt && artifact.receipt == ArtifactReceipt(b)
    && b.proposalFile == ReviewFile(file.value, file.layout)
    && b.proposalReceipt == file.value.receipt && b.proposalPolicy == a.reviewPolicy
    && b.forward.state == AcceptedMark(p.release) && b.historicalUnknown == p.historicalUnknown
    && b.blockedCount == BlockedCount(p.release)
    && (p.release == V132 ==> b.authorization.Some? && b.authorization == a.authorization && b.authority == NO_AUTHORITY)
  }

  predicate ArtifactRepeats(p: Policy, review: ReviewBody, b: ArtifactBody) {
    && b.forward.bindings.shared == review.forward.bindings.shared
    && |BySlug(b.entries)| == BlockedCount(p.release)
    && BySlug(b.entries) == BySlug(Accepted(review.entries))
  }

  /** One directory: what stands under each name. */
  datatype Document = ReviewDocument(review: Stored<Review>) | ArtifactDocument(artifact: Stored<Artifact>)

  type Directory = map<string, Document>

  /** The directory the accepted review lies in, and its name there. */
  datatype AcceptedInputs = AcceptedInputs(name: string, directory: Directory)

  predicate HasReview(inputs: AcceptedInputs) {
    inputs.name in inputs.directory && inputs.directory[inputs.name].ReviewDocument?
  }

  function ReviewIn(inputs: AcceptedInputs): Stored<Review>
    requires HasReview(inputs)
  {
    inputs.directory[inputs.name].review
  }

  predicate ReviewMatches(a: Acceptance, name: string, file: Stored<Review>) {
    && ReviewFile(file.value, file.layout) == a.reviewFile
    && ProposedReview(file.value) && file.value.receipt == a.reviewReceipt
    && a.reviewPath == name && file.value.body.policyFile == a.reviewPolicy
  }

  predicate ReviewAccepted(p: Policy, inputs: AcceptedInputs)
    requires p.acceptance.Some?
  {
    var a := p.acceptance.value;
    && HasReview(inputs) && ReviewMatches(a, inputs.name, ReviewIn(inputs))
    && a.artifactPath in inputs.directory && inputs.directory[a.artifactPath].ArtifactDocument?
    && var artifact := inputs.directory[a.artifactPath].artifact;
       && ArtifactFile(artifact.value, artifact.layout) == a.artifactFile
       && ArtifactLinks(p, a, ReviewIn(inputs), artifact.value)
       && ArtifactRepeats(p, ReviewIn(inputs).value.body, artifact.value.body)
  }

  // ---- the accepted review against the present one ----

  predicate EntryContinues(proposed: EntryReview, accepted: EntryReview) {
    proposed.acceptance == ProposedMark && proposed.(acceptance := accepted.acceptance) == accepted
  }

  predicate EntriesContinue(proposed: seq<EntryReview>, accepted: seq<EntryReview>) {
    |proposed| == |accepted| && forall i :: 0 <= i < |accepted| ==> EntryContinues(proposed[i], accepted[i])
  }

  predicate Continues(proposed: ReviewBody, accepted: ReviewBody) {
    && EntriesContinue(proposed.entries, accepted.entries)
    && proposed.forward.bindings == accepted.forward.bindings
    && proposed.historicalUnknown == accepted.historicalUnknown
    && proposed.candidates == accepted.candidates
  }

  predicate ReviewBuilds(file: Stored<Policy>, accepted: Option<AcceptedInputs>, run: Run) {
    var p := Loaded(file.value);
    && PolicySound(file.value, run.inventory)
    && (accepted.Some? <==> p.state == AcceptedBoundary)
    && Reviewable(p, run) && Covered(p, run)
    && (accepted.Some? ==>
          && ReviewAccepted(p, accepted.value)
          && Continues(ReviewIn(accepted.value).value.body, Body(p, file, run)))
  }

  /** Every entry of a sound policy is a catalog row, so evidence is all that can be missing. */
  lemma EntriesInCatalog(file: Stored<Policy>, inventory: Inventory)
    requires PolicySound(file.value, inventory)
    ensures forall e :: e in Loaded(file.value).entries ==> e.slug in inventory
  {
    SortKeepsSound(file.value.entries, inventory);
    var entries := Loaded(file.value).entries;
    forall e | e in entries ensures e.slug in inventory { assert e.slug in Slugs(entries); }
  }

  method ReviewEachEntry(p: Policy, run: Run) returns (r: Result<seq<EntryReview>>)
    requires forall e :: e in p.entries ==> e.slug in run.inventory
    ensures r.Ok? <==> Covered(p, run)
    ensures r.Ok? ==> r.value == ReviewEntries(p, run)
  {
    var entries: seq<EntryReview> := [];
    var i := 0;
    while i < |p.entries|
      invariant 0 <= i <= |p.entries| && |entries| == i
      invariant forall k :: 0 <= k < i ==> EvidenceRepeats(run, p.entries[k].slug)
      invariant forall k :: 0 <= k < i ==> entries[k] == ReviewEntry(p, run, p.entries[k])
    {
      var e := p.entries[i];
      var first, second := EvidenceAt(Projections(run.firstRows), e.slug), EvidenceAt(Projections(run.secondRows), e.slug);
      if first.Raised? || first != second {
        assert !EvidenceRepeats(run, e.slug);
        return Raised;
      }
      entries := entries + [EntryReview(e, MarkOf(p), run.inventory[e.slug].classification, first.value)];
      i := i + 1;
    }
    r := Ok(entries);
  }

  method EntriesUnchanged(proposed: seq<EntryReview>, accepted: seq<EntryReview>) returns (ok: bool)
    ensures ok <==> EntriesContinue(proposed, accepted)
  {
    if |proposed| != |accepted| { return false; }
    var i := 0;
    while i < |accepted|
      invariant 0 <= i <= |accepted|
      invariant forall k :: 0 <= k < i ==> EntryContinues(proposed[k], accepted[k])
    {
      if !EntryContinues(proposed[i], accepted[i]) { return false; }
      i := i + 1;
    }
    ok := true;
  }

  /** What a review says, read off the policy, the run and the rows; nothing else goes into it. */
  predicate HeaderSays(b: ReviewBody, file: Stored<Policy>, run: Run) {
    var p, n := file.value, |file.value.entries|;
    && b.noGo && !b.authority.publication && !b.authority.deployment && !b.authority.scheduler
    && (b.state == ReadyForHumanDisposition <==> p.state == Proposed)
    && b.policyState == p.state && b.policyFile == PolicyFile(p, file.layout)
    && b.historicalUnknown == p.historicalUnknown && b.acceptance == p.acceptance
    && b.forward == Forward(p.forwardState, p.forwardDisposition, run.bindings)
    && b.counts.total == n && b.counts.retained == n
    && b.counts.pending == (if p.state == Proposed then n else 0)
    && b.counts.accepted == (if p.state == Proposed then 0 else n)
    && b.candidates.maskedRows == 0 && b.candidates.total == 31
    && (p.release == V129 ==> b.candidates.freshRows == 18 && b.candidates.blockedRows == 13)
    && (p.release == V131 ==> b.candidates.freshRows == 20 && b.candidates.blockedRows == 11)
    && (p.release == V132 ==> b.candidates.freshRows == 22 && b.candidates.blockedRows == 9)
  }

  predicate GatesSay(b: ReviewBody, file: Stored<Policy>, run: Run) {
    && (PolicyBlockAcceptance in b.blocking <==> file.value.state == Proposed)
    && (ForwardAcceptance in b.blocking <==> file.value.state == Proposed)
    && (ExactSourceReview in b.blocking <==> file.value.state == Proposed)
    && PolicyChangeAndFreshEvidence in b.blocking && ImmutableSiteAndRollback in b.blocking
    && ExplicitPublicationAuthority in b.blocking && ProductionBindingUnknown in b.blocking
    && SchedulerDefinitionDrift in b.quarantined
    && (SchedulerChangedOrUnknown in b.quarantined <==> !run.schedulerSafe)
  }

  /** The policy's entries in slug order, each with its catalog classification and marked as the policy is. */
  predicate EntriesSay(entries: seq<EntryReview>, file: Stored<Policy>, run: Run) {
    && |entries| == |file.value.entries|
    && (forall i, j :: 0 <= i < j < |entries| ==> entries[i].entry.slug < entries[j].entry.slug)
    && forall i :: 0 <= i < |entries| ==>
      && entries[i].entry in file.value.entries && entries[i].entry.slug in run.inventory
      && entries[i].classification == run.inventory[entries[i].entry.slug].classification
      && entries[i].acceptance == (if file.value.state == Proposed then ProposedMark else AcceptedMark(file.value.release))
  }

  /** The row is a blocked one, not executed and not graded, and the entry's evidence is what it says. */
  predicate Evidences(row: ScanRow, e: EntryReview) {
    && row.ScanRow? && row.slug == Some(e.entry.slug)
    && row.projection.state == BlockedPolicy && row.projection.doNotExecute
    && !row.projection.graded && !row.projection.failed
    && row.projection.reason == e.evidence.reason && e.evidence.reason != ""
    && e.evidence.projection == ProjectionDigest(row.projection)
  }

  /** Both scans hold the row each entry's evidence comes from. */
  predicate EntriesEvidenced(entries: seq<EntryReview>, run: Run) {
    forall i :: 0 <= i < |entries| ==> Evidenced(run.firstRows, entries[i]) && Evidenced(run.secondRows, entries[i])
  }

  predicate Evidenced(rows: seq<ScanRow>, e: EntryReview) { exists row :: row in rows && Evidences(row, e) }

  /** build_publication_review_decision, for the boundary schemas. */
  method BuildPublicationReviewDecision(file: Stored<Policy>, accepted: Option<AcceptedInputs>, run: Run)
    returns (r: Result<Review>)
    ensures r.Ok? <==> ReviewBuilds(file, accepted, run)
    ensures r.Ok? ==> r.value == Signed(Body(Loaded(file.value), file, run))
    ensures r.Ok? ==> HeaderSays(r.value.body, file, run) && GatesSay(r.value.body, file, run)
    ensures r.Ok? ==> EntriesSay(r.value.body.entries, file, run) && EntriesEvidenced(r.value.body.entries, run)
  {
    r := Decide(file, accepted, run);
    if r.Ok? { ReviewInFields(file, run, r.value.body); }
  }

  method Decide(file: Stored<Policy>, accepted: Option<AcceptedInputs>, run: Run) returns (r: Result<Review>)
    ensures r.Ok? <==> ReviewBuilds(file, accepted, run)
    ensures r.Ok? ==> r.value == Signed(Body(Loaded(file.value), file, run))
  {
    var loaded := LoadDispositionPolicy(file.value, run.inventory);
    if loaded.Raised? { return Raised; }
    var p := loaded.value;
    if accepted.Some? != (p.state == AcceptedBoundary) { return Raised; }
    if accepted.Some? && !ReviewAccepted(p, accepted.value) { return Raised; }
    EntriesInCatalog(file, run.inventory);
    var body := ReviewLoaded(p, file, run);
    if body.Raised? { return Raised; }
    if accepted.Some? {
      var ok := CheckContinues(ReviewIn(accepted.value).value.body, body.value);
      if !ok { return Raised; }
    }
    r := Ok(Signed(body.value));
  }

  lemma ReviewInFields(file: Stored<Policy>, run: Run, b: ReviewBody)
    requires var p := Loaded(file.value);
      PolicySound(file.value, run.inventory) && Reviewable(p, run) && Covered(p, run) && b == Body(p, file, run)
    ensures HeaderSays(b, file, run) && GatesSay(b, file, run)
    ensures EntriesSay(b.entries, file, run) && EntriesEvidenced(b.entries, run)
  {
    HeaderInFields(file, run);
    GatesInFields(file, run);
    EntriesInFields(file, run);
    EvidenceInFields(Loaded(file.value), run);
  }

  lemma HeaderInFields(file: Stored<Policy>, run: Run)
    requires var p := Loaded(file.value); PolicySound(file.value, run.inventory) && Reviewable(p, run) && Covered(p, run)
    ensures HeaderSays(Body(Loaded(file.value), file, run), file, run)
  {
    SortKeepsSound(file.value.entries, run.inventory);
  }

  lemma GatesInFields(file: Stored<Policy>, run: Run)
    requires Covered(Loaded(file.value), run)
    ensures GatesSay(Body(Loaded(file.value), file, run), file, run)
  {
    GatesHold(file.value.state);
    QuarantineHolds(Body(Loaded(file.value), file, run).quarantined, run.schedulerSafe);
  }

  lemma QuarantineHolds(quarantined: seq<Quarantine>, safe: bool)
    requires quarantined == [SchedulerDefinitionDrift] + if safe then [] else [SchedulerChangedOrUnknown]
    ensures SchedulerDefinitionDrift in quarantined && (SchedulerChangedOrUnknown in quarantined <==> !safe)
  {
    assert quarantined[0] == SchedulerDefinitionDrift;
    if !safe { assert quarantined[1] == SchedulerChangedOrUnknown; }
  }

  lemma EntriesInFields(file: Stored<Policy>, run: Run)
    requires PolicySound(file.value, run.inventory) && Covered(Loaded(file.value), run)
    ensures EntriesSay(ReviewEntries(Loaded(file.value), run), file, run)
  {
    SortSorts(file.value.entries);
    var p := Loaded(file.value);
    assert forall i :: 0 <= i < |p.entries| ==> p.entries[i] in file.value.entries;
    assert forall i :: 0 <= i < |p.entries| ==> ReviewEntries(p, run)[i] == ReviewEntry(p, run, p.entries[i]);
  }

  lemma EvidenceInFields(p: Policy, run: Run)
    requires Project(run.firstRows).Ok? && Project(run.secondRows).Ok? && Covered(p, run)
    ensures EntriesEvidenced(ReviewEntries(p, run), run)
  {
    var entries := ReviewEntries(p, run);
    forall i | 0 <= i < |entries|
      ensures Evidenced(run.firstRows, entries[i]) && Evidenced(run.secondRows, entries[i])
    {
      assert entries[i] == ReviewEntry(p, run, p.entries[i]);
      RowEvidences(run.firstRows, entries[i]);
      RowEvidences(run.secondRows, entries[i]);
    }
  }

  lemma RowEvidences(rows: seq<ScanRow>, e: EntryReview)
    requires Project(rows).Ok? && EvidenceAt(Projections(rows), e.entry.slug) == Ok(e.evidence)
    ensures Evidenced(rows, e)
  {
    ProjectedRows(rows);
    var k :| 0 <= k < |rows| && rows[k].ScanRow? && rows[k].slug == Some(e.entry.slug);
    assert Evidences(rows[k], e);
  }

  method ReviewLoaded(p: Policy, file: Stored<Policy>, run: Run) returns (r: Result<ReviewBody>)
    requires forall e :: e in p.entries ==> e.slug in run.inventory
    ensures r.Ok? <==> Reviewable(p, run) && Covered(p, run)
    ensures r.Ok? ==> r.value == Body(p, file, run)
  {
    var recomputed := TriageCandidate(run.failed, run.firstRows, run.secondRows);
    if run.triage != recomputed || !FindingsAdmitted(run.triage, p) { return Raised; }
    var first := ControlledResultProjection(run.firstRows);
    var second := ControlledResultProjection(run.secondRows);
    if first.Raised? || second.Raised? { return Raised; }
    if CountsOf(first.value) != ExpectedCounts(p.release) || |run.inventory| != CATALOG_TOTAL || !run.bound {
      return Raised;
    }
    var entries := ReviewEachEntry(p, run);
    if entries.Raised? { return Raised; }
    r := Ok(Body(p, file, run).(entries := entries.value));
  }

  method CheckContinues(proposed: ReviewBody, body: ReviewBody) returns (ok: bool)
    ensures ok <==> Continues(proposed, body)
  {
    ok := EntriesUnchanged(proposed.entries, body.entries);
    if proposed.forward.bindings != body.forward.bindings || proposed.historicalUnknown != body.historicalUnknown
       || proposed.candidates != body.candidates {
      ok := false;
    }
  }

  // ---- build_v132_boundary_acceptance ----

  function ArtifactOf(proposal: Stored<Review>, authorization: Digest): Artifact {
    var review := proposal.value;
    var body := ArtifactBody(
      V132, V132, V132, ReviewFile(review, proposal.layout), review.receipt, review.body.policyFile,
      Some(authorization), review.body.forward.(state := AcceptedMark(V132)), review.body.historicalUnknown,
      BlockedCount(V132), Accepted(review.body.entries), NO_AUTHORITY);
    Artifact(body, ArtifactReceipt(body))
  }

  function AcceptedPolicy(
      p: Policy, name: string, proposal: Stored<Review>, artifactName: string, authorization: Digest): Policy
  {
    var artifact := ArtifactOf(proposal, authorization);
    p.(state := AcceptedBoundary, forwardState := AcceptedMark(V132), forwardDisposition := AcceptedMark(V132),
       acceptance := Some(Acceptance(
         true, V132, V132, name, proposal.value.receipt, ReviewFile(proposal.value, proposal.layout),
         proposal.value.body.policyFile, artifactName, artifact.receipt, ArtifactFile(artifact, CANONICAL),
         Some(authorization))))
  }

  predicate Acceptable(file: Stored<Policy>, run: Run, proposal: Stored<Review>, artifactName: string) {
    && IsBareName(artifactName)
    && file.value.release == V132 && file.value.state == Proposed
    && ReviewBuilds(file, None, run)
    && proposal.value == Signed(Body(Loaded(file.value), file, run))
  }

  method BuildV132BoundaryAcceptance(
      file: Stored<Policy>, run: Run, name: string, proposal: Stored<Review>, artifactName: string,
      authorization: Digest)
    returns (r: Result<(Artifact, Policy)>)
    ensures r.Ok? <==> Acceptable(file, run, proposal, artifactName)
    ensures r.Ok? ==> r.value.0 == ArtifactOf(proposal, authorization)
    ensures r.Ok? ==>
      r.value.1 == AcceptedPolicy(Loaded(file.value), name, proposal, artifactName, authorization)
  {
    if !IsBareName(artifactName) { return Raised; }
    var loaded := LoadDispositionPolicy(file.value, run.inventory);
    if loaded.Raised? || loaded.value.release != V132 || loaded.value.state != Proposed { return Raised; }
    var recomputed := BuildPublicationReviewDecision(file, None, run);
    if recomputed.Raised? || proposal.value != recomputed.value { return Raised; }
    EntriesAreTheBlocked(file, None, run);
    var body := proposal.value.body;
    if !body.noGo || body.state != ReadyForHumanDisposition || body.candidates != ExpectedCounts(V132)
       || body.counts != CountsFor(BlockedCount(V132), Proposed) || |body.entries| != BlockedCount(V132) {
      return Raised;
    }
    r := Ok((ArtifactOf(proposal, authorization),
             AcceptedPolicy(loaded.value, name, proposal, artifactName, authorization)));
  }

  // ---- the state card ----

  datatype Card = Card(
    candidates: CandidateCounts, counts: DispositionCounts, critical: nat, medium: nat,
    accepted: Option<Release>, blocking: seq<Gate>, quarantined: seq<Quarantine>, noGo: bool, review: Digest)

  /** _boundary_profile_for_counts */
  function ReleaseFor(counts: CandidateCounts): Option<Release> {
    if counts == ExpectedCounts(V129) then Some(V129)
    else if counts == ExpectedCounts(V131) then Some(V131)
    else if counts == ExpectedCounts(V132) then Some(V132)
    else None
  }

  predicate CardBuilds(review: Review) {
    var b := review.body;
    var profile := ReleaseFor(b.candidates);
    && review.receipt == ReviewReceipt(b)
    && b.counts.total > 0 && profile.Some?
    && (b.state == AcceptedForBoundaryReview ==>
          && b.counts == CountsFor(b.counts.total, AcceptedBoundary)
          && b.forward.state == AcceptedMark(profile.value)
          && b.acceptance.Some? && b.acceptance.value.state == profile.value
          && ExactSourceReview !in b.blocking && PolicyChangeAndFreshEvidence in b.blocking)
    && (b.state == ReadyForHumanDisposition ==> b.counts == CountsFor(b.counts.total, Proposed))
  }

  /** build_publication_review_state_card */
  method BuildStateCard(review: Review) returns (r: Result<Card>)
    ensures r.Ok? <==> CardBuilds(review)
    ensures r.Ok? ==> var b := review.body;
      && r.value.blocking == b.blocking && r.value.quarantined == b.quarantined && r.value.noGo == b.noGo
      && r.value.critical == b.counts.retained && r.value.counts == b.counts && r.value.review == review.receipt
      && r.value.candidates == b.candidates && r.value.medium == b.candidates.freshRows + 2
      && r.value.accepted == if b.state == AcceptedForBoundaryReview then ReleaseFor(b.candidates) else None
  {
    var b := review.body;
    var profile := ReleaseFor(b.candidates);
    if review.receipt != ReviewReceipt(b) || b.counts.total <= 0 || profile.None? { return Raised; }
    var accepted := b.state == AcceptedForBoundaryReview;
    if b.counts != CountsFor(b.counts.total, if accepted then AcceptedBoundary else Proposed) { return Raised; }
    if accepted {
      if b.forward.state != AcceptedMark(profile.value) || b.acceptance.None?
         || b.acceptance.value.state != profile.value
         || ExactSourceReview in b.blocking || PolicyChangeAndFreshEvidence !in b.blocking {
        return Raised;
      }
    }
    r := Ok(Card(b.candidates, b.counts, b.counts.retained, FreshCount(profile.value) + 2,
                 if accepted then profile else None, b.blocking, b.quarantined, b.noGo, review.receipt));
  }

  // ---- what holds of every review ----

  /** No review, whatever its policy says, carries authority; an accepted one still waits for publication
      authority, site binding and production binding. */
  predicate AuthorityWithheld(b: ReviewBody) {
    && b.noGo && b.authority == NO_AUTHORITY
    && ExplicitPublicationAuthority in b.blocking && ImmutableSiteAndRollback in b.blocking
    && ProductionBindingUnknown in b.blocking && PolicyChangeAndFreshEvidence in b.blocking
    && SchedulerDefinitionDrift in b.quarantined
  }

  lemma ReleaseOfCounts(r: Release)
    ensures ReleaseFor(ExpectedCounts(r)) == Some(r)
  {
  }

  lemma CardWhen(p: Policy, file: Stored<Policy>, run: Run)
    requires HeaderSound(p) && Covered(p, run) && CountsOf(Projections(run.firstRows)) == ExpectedCounts(p.release)
    ensures var body := Body(p, file, run);
      && (CardBuilds(Signed(body)) <==> p.entries != [])
      && ReleaseFor(body.candidates) == Some(p.release) && AuthorityWithheld(body)
  {
    ReleaseOfCounts(p.release);
    GatesHold(p.state);
  }

  lemma WrappedSame(a: set<Slug>, b: set<Slug>)
    requires Wrapped(a) == Wrapped(b)
    ensures a == b
  {
    forall s ensures s in a <==> s in b {
      assert s in a <==> Some(s) in Wrapped(a);
      assert s in b <==> Some(s) in Wrapped(b);
    }
  }

  lemma {:induction false} SlugCount(entries: seq<Entry>)
    requires Distinct(entries)
    ensures |Slugs(entries)| == |entries|
  {
    if entries != [] {
      var init, last := entries[..|entries| - 1], entries[|entries| - 1];
      SlugCount(init);
      assert entries == init + [last];
      SlugsAdded(init, last);
    }
  }

  /** The finding set leaves no room: a review is built only for a candidate whose every check passed and whose
      repeat shows the same rows, and its entries are exactly the candidate's blocked rows. */
  lemma EntriesAreTheBlocked(file: Stored<Policy>, accepted: Option<AcceptedInputs>, run: Run)
    requires ReviewBuilds(file, accepted, run)
    ensures var p := Loaded(file.value);
      && Slugs(p.entries) == SlugsIn(Projections(run.firstRows), {BlockedPolicy})
      && |p.entries| == BlockedCount(p.release)
    ensures run.failed == [] && Project(run.firstRows) == Project(run.secondRows)
    ensures SlugsIn(Projections(run.firstRows), {OtherState}) == {}
  {
    var p := Loaded(file.value);
    TriageNames(run.failed, run.firstRows, run.secondRows);
    WrappedSame(Slugs(p.entries), SlugsIn(Projections(run.firstRows), {BlockedPolicy}));
    SortKeepsSound(file.value.entries, run.inventory);
    SlugCount(p.entries);
    CleanTriage(run.failed, run.firstRows, run.secondRows);
  }

  lemma ReviewedCounts(file: Stored<Policy>, accepted: Option<AcceptedInputs>, run: Run)
    requires ReviewBuilds(file, accepted, run)
    ensures Project(run.firstRows).Ok? && Project(run.secondRows).Ok? && run.bound && |run.inventory| == 31
    ensures |SlugsIn(Projections(run.firstRows), {Masked})| == 0
    ensures CountOf(TriageOf(run.failed, run.firstRows, run.secondRows), Medium) ==
      |SlugsIn(Projections(run.firstRows), {Fresh})| + 1
    ensures BlockedSlugs(run.inventory) == Slugs(Loaded(file.value).entries)
  {
    SortKeepsSound(file.value.entries, run.inventory);
  }

  /** What a reviewed candidate looks like: every check passed, both scans agree, each row is a blocked one or a
      fresh one without a baseline, and the blocked rows are the catalog's prohibited ones. */
  lemma ReviewedCandidate(file: Stored<Policy>, accepted: Option<AcceptedInputs>, run: Run)
    requires ReviewBuilds(file, accepted, run)
    ensures run.bound && |run.inventory| == 31 && run.failed == []
    ensures Project(run.firstRows) == Project(run.secondRows)
    ensures forall row :: row in run.firstRows ==> FreshOrBlocked(row)
    ensures forall s :: s in BlockedSlugs(run.inventory) <==> exists row :: row in run.firstRows && BlockedRow(row, s)
  {
    EntriesAreTheBlocked(file, accepted, run);
    ReviewedCounts(file, accepted, run);
    RowsFreshOrBlocked(run.failed, run.firstRows, run.secondRows);
    BlockedAreRows(run.firstRows);
  }

  /** Every review the builder makes, of any boundary release, gets a state card of its own release and
      withholds all authority. */
  lemma EveryReviewHasCard(file: Stored<Policy>, accepted: Option<AcceptedInputs>, run: Run)
    requires ReviewBuilds(file, accepted, run)
    ensures var body := Body(Loaded(file.value), file, run);
      && CardBuilds(Signed(body)) && ReleaseFor(body.candidates) == Some(file.value.release)
      && body.counts == CountsFor(BlockedCount(file.value.release), file.value.state)
      && AuthorityWithheld(body)
  {
    EntriesAreTheBlocked(file, accepted, run);
    CardWhen(Loaded(file.value), file, run);
  }

  lemma GatesHold(state: PolicyState)
    ensures var g := Gates(state);
      && ExplicitPublicationAuthority in g && ImmutableSiteAndRollback in g && ProductionBindingUnknown in g
      && PolicyChangeAndFreshEvidence in g && (ExactSourceReview in g <==> state == Proposed)
      && (PolicyBlockAcceptance in g <==> state == Proposed) && (ForwardAcceptance in g <==> state == Proposed)
  {
    var g := Gates(state);
    var n := |g|;
    assert g[n - 4] == PolicyChangeAndFreshEvidence && g[n - 3] == ImmutableSiteAndRollback;
    assert g[n - 2] == ExplicitPublicationAuthority && g[n - 1] == ProductionBindingUnknown;
    if state == Proposed { assert g[0] == PolicyBlockAcceptance && g[1] == ForwardAcceptance && g[2] == ExactSourceReview; }
  }

  // ---- the round trip ----

  lemma {:induction false} DistinctCount(entries: seq<AcceptedEntry>)
    requires forall i, j :: 0 <= i < j < |entries| ==> entries[i].entry.slug != entries[j].entry.slug
    ensures |BySlug(entries)| == |entries|
    ensures forall s :: s in BySlug(entries) <==> exists i :: 0 <= i < |entries| && entries[i].entry.slug == s
  {
    if entries != [] {
      var init, last := entries[..|entries| - 1], entries[|entries| - 1];
      DistinctCount(init);
      assert last.entry.slug !in BySlug(init);
      forall s ensures s in BySlug(entries) <==> exists i :: 0 <= i < |entries| && entries[i].entry.slug == s {
        assert forall i :: 0 <= i < |init| ==> init[i] == entries[i];
        if exists i :: 0 <= i < |init| && init[i].entry.slug == s {
          var i :| 0 <= i < |init| && init[i].entry.slug == s;
          assert entries[i].entry.slug == s;
        }
      }
    }
  }

  lemma ProposalCounts(p: Policy, file: Stored<Policy>, run: Run)
    requires Covered(p, run) && Distinct(p.entries)
    ensures var body := Body(p, file, run); |BySlug(Accepted(body.entries))| == |body.entries|
  {
    var entries := Accepted(Body(p, file, run).entries);
    assert forall i :: 0 <= i < |entries| ==> entries[i].entry == p.entries[i];
    DistinctCount(entries);
  }

  /** A name a file can be stored under. */
  predicate Storable(name: string) { IsBareName(name) && name != "" && name != ".." }

  /** An exclusive create: it changes nothing when the name is taken or is no file name. */
  function Saved(dir: Directory, name: string, d: Document): Directory {
    if Storable(name) && name !in dir then dir[name := d] else dir
  }

  /** After the create the document stands under its name. */
  predicate CanHold(dir: Directory, name: string, d: Document) {
    if name in dir then dir[name] == d else Storable(name)
  }

  predicate ProposalIn(dir: Directory, name: string, proposal: Stored<Review>) {
    && name in dir && dir[name] == ReviewDocument(proposal)
    && forall n :: n in dir ==> Storable(n)
  }

  function ArtifactDoc(proposal: Stored<Review>, authorization: Digest): Document {
    ArtifactDocument(Stored(ArtifactOf(proposal, authorization), CANONICAL))
  }

  lemma AcceptedPolicyLoads(
      file: Stored<Policy>, run: Run, name: string, proposal: Stored<Review>, artifactName: string, authorization: Digest)
    requires Acceptable(file, run, proposal, artifactName) && IsBareName(name)
    ensures var accepted := AcceptedPolicy(Loaded(file.value), name, proposal, artifactName, authorization);
      PolicySound(accepted, run.inventory) && Loaded(accepted) == accepted
  {
    SortKeepsSound(file.value.entries, run.inventory);
  }

  /** The produced policy accepts a directory holding the proposal exactly when the produced artifact, in its
      canonical layout, stands there under its name. */
  lemma ArtifactReadsBack(
      file: Stored<Policy>, run: Run, name: string, proposal: Stored<Review>, artifactName: string,
      authorization: Digest, dir: Directory)
    requires Acceptable(file, run, proposal, artifactName) && ProposalIn(dir, name, proposal)
    ensures var accepted := AcceptedPolicy(Loaded(file.value), name, proposal, artifactName, authorization);
      ReviewAccepted(accepted, AcceptedInputs(name, dir)) <==>
        artifactName in dir && dir[artifactName] == ArtifactDoc(proposal, authorization)
  {
    ProposalBlocked(file, run, proposal.value.body);
    ReadsBack(Loaded(file.value), name, proposal, artifactName, authorization, dir);
  }

  lemma ProposalBlocked(file: Stored<Policy>, run: Run, body: ReviewBody)
    requires ReviewBuilds(file, None, run) && body == Body(Loaded(file.value), file, run)
    ensures |BySlug(Accepted(body.entries))| == BlockedCount(file.value.release)
  {
    SortKeepsSound(file.value.entries, run.inventory);
    EntriesAreTheBlocked(file, None, run);
    ProposalCounts(Loaded(file.value), file, run);
  }

  lemma ReadsBack(
      p: Policy, name: string, proposal: Stored<Review>, artifactName: string, authorization: Digest, dir: Directory)
    requires p.release == V132 && ProposedReview(proposal.value) && ProposalIn(dir, name, proposal)
    requires proposal.value.body.historicalUnknown == p.historicalUnknown
    requires |BySlug(Accepted(proposal.value.body.entries))| == BlockedCount(V132)
    ensures var accepted := AcceptedPolicy(p, name, proposal, artifactName, authorization);
      ReviewAccepted(accepted, AcceptedInputs(name, dir)) <==>
        artifactName in dir && dir[artifactName] == ArtifactDoc(proposal, authorization)
  {
  }

  lemma BodyContinues(p: Policy, file: Stored<Policy>, accepted: Policy, acceptedFile: Stored<Policy>, run: Run)
    requires Covered(p, run) && p.state == Proposed && accepted.state == AcceptedBoundary
    requires accepted.entries == p.entries && accepted.historicalUnknown == p.historicalUnknown
    ensures Covered(accepted, run)
    ensures Continues(Body(p, file, run), Body(accepted, acceptedFile, run))
  {
    var before, after := Body(p, file, run), Body(accepted, acceptedFile, run);
    forall i | 0 <= i < |after.entries| ensures EntryContinues(before.entries[i], after.entries[i]) {
      assert before.entries[i] == ReviewEntry(p, run, p.entries[i]);
      assert after.entries[i] == ReviewEntry(accepted, run, p.entries[i]);
    }
  }

  lemma AcceptedReviewBuilds(
      file: Stored<Policy>, run: Run, name: string, proposal: Stored<Review>, artifactName: string,
      authorization: Digest, layout: nat, dir: Directory)
    requires Acceptable(file, run, proposal, artifactName) && ProposalIn(dir, name, proposal)
    ensures var accepted := AcceptedPolicy(Loaded(file.value), name, proposal, artifactName, authorization);
      && Loaded(accepted) == accepted
      && (ReviewBuilds(Stored(accepted, layout), Some(AcceptedInputs(name, dir)), run) <==>
            artifactName in dir && dir[artifactName] == ArtifactDoc(proposal, authorization))
  {
    var p := Loaded(file.value);
    var accepted := AcceptedPolicy(p, name, proposal, artifactName, authorization);
    AcceptedPolicyLoads(file, run, name, proposal, artifactName, authorization);
    ArtifactReadsBack(file, run, name, proposal, artifactName, authorization, dir);
    BodyContinues(p, file, accepted, Stored(accepted, layout), run);
  }

  /** The acceptance is saved into the directory of its proposal, and the accepted policy, stored in any layout,
      is reviewed again over the same run.  That succeeds if and only if the artifact could be saved under its
      name; and then the entries and bindings are the same, every pending entry is accepted, there is a state
      card, and still no authority of any kind. */
  lemma AcceptanceRoundTrip(
      file: Stored<Policy>, run: Run, name: string, proposal: Stored<Review>, artifactName: string,
      authorization: Digest, layout: nat, dir: Directory)
    requires Acceptable(file, run, proposal, artifactName) && ProposalIn(dir, name, proposal)
    ensures var accepted := AcceptedPolicy(Loaded(file.value), name, proposal, artifactName, authorization);
      var d := ArtifactDoc(proposal, authorization);
      var inputs := AcceptedInputs(name, Saved(dir, artifactName, d));
      var again := Stored(accepted, layout);
      && (ReviewBuilds(again, Some(inputs), run) <==> CanHold(dir, artifactName, d))
      && (CanHold(dir, artifactName, d) ==> MovedInFull(proposal.value.body, Body(Loaded(accepted), again, run)))
  {
    var p := Loaded(file.value);
    var accepted := AcceptedPolicy(p, name, proposal, artifactName, authorization);
    var d := ArtifactDoc(proposal, authorization);
    var after, again := Saved(dir, artifactName, d), Stored(accepted, layout);
    AcceptedReviewBuilds(file, run, name, proposal, artifactName, authorization, layout, after);
    if CanHold(dir, artifactName, d) {
      MovesInFull(file, run, name, proposal, artifactName, authorization, layout, after);
    }
  }

  lemma MovesInFull(
      file: Stored<Policy>, run: Run, name: string, proposal: Stored<Review>, artifactName: string,
      authorization: Digest, layout: nat, dir: Directory)
    requires Acceptable(file, run, proposal, artifactName)
    requires var accepted := AcceptedPolicy(Loaded(file.value), name, proposal, artifactName, authorization);
      Loaded(accepted) == accepted && ReviewBuilds(Stored(accepted, layout), Some(AcceptedInputs(name, dir)), run)
    ensures var accepted := AcceptedPolicy(Loaded(file.value), name, proposal, artifactName, authorization);
      MovedInFull(proposal.value.body, Body(Loaded(accepted), Stored(accepted, layout), run))
  {
    var p := Loaded(file.value);
    var accepted := AcceptedPolicy(p, name, proposal, artifactName, authorization);
    var again := Stored(accepted, layout);
    EntriesAreTheBlocked(file, None, run);
    EveryReviewHasCard(file, None, run);
    EveryReviewHasCard(again, Some(AcceptedInputs(name, dir)), run);
    BodyContinues(p, file, accepted, again, run);
    AllAccepted(accepted, again, run);
  }

  lemma AllAccepted(p: Policy, file: Stored<Policy>, run: Run)
    requires Covered(p, run) && p.state == AcceptedBoundary
    ensures var entries := Body(p, file, run).entries;
      forall i :: 0 <= i < |entries| ==> entries[i].acceptance == AcceptedMark(p.release)
  {
    var entries := Body(p, file, run).entries;
    assert forall i :: 0 <= i < |entries| ==> entries[i] == ReviewEntry(p, run, p.entries[i]);
  }

  /** Given its review's own name, which the builder accepts, the artifact cannot be saved and the accepted
      policy is refused. */
  lemma OwnNameFails(
      file: Stored<Policy>, run: Run, name: string, proposal: Stored<Review>, authorization: Digest, layout: nat,
      dir: Directory)
    requires Acceptable(file, run, proposal, name) && ProposalIn(dir, name, proposal)
    ensures var accepted := AcceptedPolicy(Loaded(file.value), name, proposal, name, authorization);
      var inputs := AcceptedInputs(name, Saved(dir, name, ArtifactDoc(proposal, authorization)));
      !ReviewBuilds(Stored(accepted, layout), Some(inputs), run)
  {
    AcceptanceRoundTrip(file, run, name, proposal, name, authorization, layout, dir);
  }

  predicate MovedInFull(before: ReviewBody, after: ReviewBody) {
    && Continues(before, after)
    && before.counts == DispositionCounts(9, 9, 0, 9) && after.counts == DispositionCounts(9, 0, 9, 9)
    && (forall i :: 0 <= i < |after.entries| ==> after.entries[i].acceptance == AcceptedMark(V132))
    && CardBuilds(Signed(before)) && CardBuilds(Signed(after))
    && AuthorityWithheld(before) && AuthorityWithheld(after)
  }

  // ---- what an accepted policy pins down ----

  /** An accepted policy admits one review file and one artifact file, byte for byte: nothing else beside it
      can stand in for what the operator accepted. */
  lemma AcceptedEvidenceIsUnique(p: Policy, x: AcceptedInputs, y: AcceptedInputs)
    requires p.acceptance.Some? && ReviewAccepted(p, x) && ReviewAccepted(p, y)
    ensures x.name == y.name && ReviewIn(x) == ReviewIn(y)
    ensures var a := p.acceptance.value.artifactPath; x.directory[a] == y.directory[a]
  {
  }

  /** A re-review succeeds only on the very files the acceptance names: the review, still a bare proposal, and
      the artifact that repeats its receipt, its policy and the operator's authorization. */
  lemma RereviewedFiles(file: Stored<Policy>, inputs: AcceptedInputs, run: Run)
    requires ReviewBuilds(file, Some(inputs), run)
    ensures file.value.state == AcceptedBoundary && file.value.acceptance.Some?
    ensures var a := file.value.acceptance.value;
      && a.reviewPath == inputs.name && HasReview(inputs)
      && var review := ReviewIn(inputs);
      && a.reviewFile == ReviewFile(review.value, review.layout) && a.reviewReceipt == review.value.receipt
      && review.value.receipt == ReviewReceipt(review.value.body) && review.value.body.policyFile == a.reviewPolicy
      && review.value.body.noGo && review.value.body.state == ReadyForHumanDisposition
      && review.value.body.policyState == Proposed && review.value.body.forward.state == ProposedMark
      && !review.value.body.authority.publication && !review.value.body.authority.deployment
      && !review.value.body.authority.scheduler
    ensures var a := file.value.acceptance.value;
      && a.artifactPath in inputs.directory && inputs.directory[a.artifactPath].ArtifactDocument?
      && var artifact, review := inputs.directory[a.artifactPath].artifact, ReviewIn(inputs);
      && a.artifactFile == ArtifactFile(artifact.value, artifact.layout) && a.artifactReceipt == artifact.value.receipt
      && artifact.value.receipt == ArtifactReceipt(artifact.value.body)
      && var b := artifact.value.body;
      && b.release == file.value.release && b.acceptanceState == file.value.release && b.scope == a.scope
      && b.proposalFile == a.reviewFile && b.proposalReceipt == a.reviewReceipt && b.proposalPolicy == a.reviewPolicy
      && b.forward.state == AcceptedMark(file.value.release)
      && b.forward.bindings.shared == review.value.body.forward.bindings.shared
      && (file.value.release == V132 ==> b.authorization.Some? && b.authorization == a.authorization)
      && (file.value.release == V132 ==> b.authority == Authority(false, false, false))
  {
  }

  /** ... and only when the present candidate shows every accepted entry again, under the same bindings. */
  lemma RereviewedEntries(file: Stored<Policy>, inputs: AcceptedInputs, run: Run, i: nat)
    requires ReviewBuilds(file, Some(inputs), run)
    ensures var before, now := ReviewIn(inputs).value.body, Body(Loaded(file.value), file, run);
      && |before.entries| == |now.entries| && before.candidates == now.candidates
      && before.forward.bindings == run.bindings && before.historicalUnknown == file.value.historicalUnknown
      && (i < |now.entries| ==>
            && before.entries[i].entry == now.entries[i].entry && before.entries[i].evidence == now.entries[i].evidence
            && before.entries[i].classification == now.entries[i].classification
            && before.entries[i].acceptance == ProposedMark && now.entries[i].acceptance == AcceptedMark(file.value.release))
  {
    var p := Loaded(file.value);
    var before, now := ReviewIn(inputs).value.body, Body(p, file, run);
    if i < |now.entries| {
      assert EntryContinues(before.entries[i], now.entries[i]);
      assert now.entries[i] == ReviewEntry(p, run, p.entries[i]);
    }
  }

  /** The artifact lists every entry of the review, each with the projection the operator saw. */
  lemma ArtifactLists(file: Stored<Policy>, inputs: AcceptedInputs, run: Run, i: nat)
    requires ReviewBuilds(file, Some(inputs), run)
    requires i < |ReviewIn(inputs).value.body.entries|
    ensures var e := ReviewIn(inputs).value.body.entries[i];
      AcceptedEntry(e.entry, e.evidence.projection)
        in inputs.directory[file.value.acceptance.value.artifactPath].artifact.value.body.entries
  {
    var review := ReviewIn(inputs).value.body;
    var listed := inputs.directory[file.value.acceptance.value.artifactPath].artifact.value.body.entries;
    RereviewedEntries(file, inputs, run, 0);
    SlugsDiffer(file, inputs, run);
    var entries := Accepted(review.entries);
    BySlugHolds(entries, i);
    FromBySlug(listed, entries[i].entry.slug);
  }

  lemma SlugsDiffer(file: Stored<Policy>, inputs: AcceptedInputs, run: Run)
    requires ReviewBuilds(file, Some(inputs), run)
    ensures var entries := Accepted(ReviewIn(inputs).value.body.entries);
      forall i, j :: 0 <= i < j < |entries| ==> entries[i].entry.slug != entries[j].entry.slug
  {
    var entries := ReviewIn(inputs).value.body.entries;
    EntriesInFields(file, run);
    forall i | 0 <= i < |entries| ensures entries[i].entry == ReviewEntries(Loaded(file.value), run)[i].entry {
      RereviewedEntries(file, inputs, run, i);
    }
  }

  lemma {:induction false} BySlugHolds(entries: seq<AcceptedEntry>, i: nat)
    requires i < |entries|
    requires forall j, k :: 0 <= j < k < |entries| ==> entries[j].entry.slug != entries[k].entry.slug
    ensures entries[i].entry.slug in BySlug(entries) && BySlug(entries)[entries[i].entry.slug] == entries[i]
  {
    if i < |entries| - 1 { BySlugHolds(entries[..|entries| - 1], i); }
  }

  lemma {:induction false} FromBySlug(entries: seq<AcceptedEntry>, s: Slug)
    requires s in BySlug(entries)
    ensures BySlug(entries)[s] in entries
  {
    if entries[|entries| - 1].entry.slug != s { FromBySlug(entries[..|entries| - 1], s); }
  }

  /** An accepted review cannot be accepted in turn, and an accepted policy cannot be accepted again. */
  lemma AcceptanceIsOneStep(
      file: Stored<Policy>, accepted: Option<AcceptedInputs>, run: Run,
      p: Policy, inputs: AcceptedInputs, layout: nat, artifactName: string)
    requires ReviewBuilds(file, accepted, run) && accepted.Some?
    ensures var review := Signed(Body(Loaded(file.value), file, run));
      && (p.acceptance.Some? && HasReview(inputs) && ReviewIn(inputs).value == review ==> !ReviewAccepted(p, inputs))
      && !Acceptable(file, run, Stored(review, layout), artifactName)
  {
  }

  /** A re-review over another run succeeds only if that run shows the accepted entries, evidence, candidate
      counts and bindings again. */
  lemma RereviewRepeats(
      file: Stored<Policy>, accepted: Option<AcceptedInputs>, run: Run, other: Run)
    requires accepted.Some? && ReviewBuilds(file, accepted, run) && ReviewBuilds(file, accepted, other)
    ensures var x, y := Body(Loaded(file.value), file, run), Body(Loaded(file.value), file, other);
      x.entries == y.entries && x.forward == y.forward && x.candidates == y.candidates
    ensures forall e :: e in Loaded(file.value).entries ==> SameProjection(run, other, e.slug)
  {
    EntriesRepeat(Loaded(file.value), ReviewIn(accepted.value).value.body.entries, run, other);
  }

  lemma EntriesRepeat(p: Policy, proposed: seq<EntryReview>, run: Run, other: Run)
    requires Covered(p, run) && Covered(p, other)
    requires EntriesContinue(proposed, ReviewEntries(p, run)) && EntriesContinue(proposed, ReviewEntries(p, other))
    ensures ReviewEntries(p, run) == ReviewEntries(p, other)
    ensures forall e :: e in p.entries ==> SameProjection(run, other, e.slug)
  {
    var x, y := ReviewEntries(p, run), ReviewEntries(p, other);
    SameContinuation(proposed, x, y, MarkOf(p));
    forall e | e in p.entries ensures SameProjection(run, other, e.slug) {
      var i :| 0 <= i < |p.entries| && p.entries[i] == e;
      assert ReviewEntry(p, run, e) == x[i] && y[i] == ReviewEntry(p, other, e);
    }
  }

  predicate SameProjection(run: Run, other: Run, slug: Slug) {
    var x, y := Projections(run.firstRows), Projections(other.firstRows);
    slug in x && slug in y && x[slug] == y[slug]
  }

  lemma SameContinuation(proposed: seq<EntryReview>, x: seq<EntryReview>, y: seq<EntryReview>, mark: Mark)
    requires EntriesContinue(proposed, x) && EntriesContinue(proposed, y)
    requires forall i :: 0 <= i < |x| ==> x[i].acceptance == mark
    requires forall i :: 0 <= i < |y| ==> y[i].acceptance == mark
    ensures x == y
  {
    forall i | 0 <= i < |x| ensures x[i] == y[i] {
      assert EntryContinues(proposed[i], x[i]) && EntryContinues(proposed[i], y[i]);
    }
  }
}
