/** The documents of the boundary disposition machine, and the loader of disposition policies.  A proposed
    policy is reviewed, an operator accepts the exact review in an artifact, and the accepted policy is
    reviewed again; digests link the four documents.

    A digest is modelled by the content it digests, so equal digests mean equal contents.  A file is its parsed
    value together with its byte layout; layout 0 is the canonical one. */
module Disposition {
  import opened Results

  // ---- documents ----

  datatype Release = V129 | V131 | V132

  function FreshCount(r: Release): nat { match r case V129 => 18 case V131 => 20 case V132 => 22 }
  function BlockedCount(r: Release): nat { match r case V129 => 13 case V131 => 11 case V132 => 9 }

  const CATALOG_TOTAL := 31

  /** A catalog slug, by its rank among the slugs in string order. */
  type Slug = nat

  datatype Mark = ProposedMark | AcceptedMark(release: Release)

  datatype PolicyState = Proposed | AcceptedBoundary

  datatype Entry = Entry(slug: Slug, disposition: string, rationale: string, condition: string)

  datatype Acceptance = Acceptance(
    byOperator: bool, scope: Release, state: Release,
    reviewPath: string, reviewReceipt: Digest, reviewFile: Digest, reviewPolicy: Digest,
    artifactPath: string, artifactReceipt: Digest, artifactFile: Digest, authorization: Option<Digest>)

  datatype Policy = Policy(
    release: Release, state: PolicyState, forwardState: Mark, forwardDisposition: Mark,
    historicalUnknown: bool, schedulerQuarantined: bool, entries: seq<Entry>, acceptance: Option<Acceptance>)

  datatype ProjectedState = Fresh | Masked | BlockedPolicy | OtherState

  datatype Projection = Projection(
    state: ProjectedState, graded: bool, doNotExecute: bool, reason: string, failed: bool, detail: nat)

  datatype Evidence = Evidence(reason: string, projection: Digest)

  datatype EntryReview = EntryReview(entry: Entry, acceptance: Mark, classification: nat, evidence: Evidence)

  /** `shared` stands for the eleven digests and counts the acceptance artifact must repeat. */
  datatype Bindings = Bindings(shared: nat, toolVersions: nat, images: nat)

  datatype Forward = Forward(state: Mark, disposition: Mark, bindings: Bindings)

  datatype DispositionCounts = DispositionCounts(total: nat, pending: nat, accepted: nat, retained: nat)
  datatype CandidateCounts = CandidateCounts(freshRows: nat, maskedRows: nat, blockedRows: nat, total: nat)

  datatype Gate =
    | PolicyBlockAcceptance | ForwardAcceptance | ExactSourceReview | PolicyChangeAndFreshEvidence
    | ImmutableSiteAndRollback | ExplicitPublicationAuthority | ProductionBindingUnknown

  datatype Quarantine = SchedulerDefinitionDrift | SchedulerChangedOrUnknown

  datatype ReviewState = ReadyForHumanDisposition | AcceptedForBoundaryReview

  datatype Authority = Authority(publication: bool, deployment: bool, scheduler: bool)

  const NO_AUTHORITY := Authority(false, false, false)

  datatype ReviewBody = ReviewBody(
    noGo: bool, state: ReviewState, authority: Authority,
    policyFile: Digest, policyState: PolicyState,
    entries: seq<EntryReview>, counts: DispositionCounts, candidates: CandidateCounts,
    historicalUnknown: bool, forward: Forward, blocking: seq<Gate>, quarantined: seq<Quarantine>,
    acceptance: Option<Acceptance>)

  datatype Review = Review(body: ReviewBody, receipt: Digest)

  datatype AcceptedEntry = AcceptedEntry(entry: Entry, projection: Digest)

  datatype ArtifactBody = ArtifactBody(
    release: Release, acceptanceState: Release, scope: Release,
    proposalFile: Digest, proposalReceipt: Digest, proposalPolicy: Digest, authorization: Option<Digest>,
    forward: Forward, historicalUnknown: bool, blockedCount: nat, entries: seq<AcceptedEntry>,
    authority: Authority)

  datatype Artifact = Artifact(body: ArtifactBody, receipt: Digest)

  datatype Stored<T> = Stored(value: T, layout: nat)

  const CANONICAL := 0

  datatype Digest =
    | PolicyFile(policy: Policy, layout: nat)
    | ReviewFile(review: Review, layout: nat)
    | ReviewReceipt(reviewBody: ReviewBody)
    | ArtifactFile(artifact: Artifact, layout: nat)
    | ArtifactReceipt(artifactBody: ArtifactBody)
    | ProjectionDigest(projection: Projection)
    | Statement(text: nat)

  function Signed(body: ReviewBody): Review { Review(body, ReviewReceipt(body)) }

  // ---- the inventory and the evidence of one run ----

  datatype Row = Row(doNotExecute: bool, classification: nat)

  type Inventory = map<Slug, Row>

  function BlockedSlugs(inventory: Inventory): set<Slug> {
    set s | s in inventory && inventory[s].doNotExecute
  }

  // ---- _load_disposition_policy ----

  function KeepBlocked(slug: Slug): Entry {
    Entry(slug, "KEEP_BLOCKED_POLICY", "execution-prohibited-by-reviewed-policy",
          "separate-policy-change-and-fresh-controlled-evidence")
  }

  /** `Path(s).name == s` */
  predicate IsBareName(s: string) { '/' !in s && s != "." }

  predicate AcceptanceSound(a: Acceptance, r: Release) {
    && a.byOperator && a.scope == r && a.state == r
    && IsBareName(a.reviewPath) && IsBareName(a.artifactPath)
    && (a.authorization.Some? <==> r == V132)
  }

  predicate HeaderSound(p: Policy) {
    && (p.acceptance.Some? <==> p.state == AcceptedBoundary)
    && p.historicalUnknown && p.schedulerQuarantined
    && (p.state == Proposed ==> p.forwardState == ProposedMark && p.forwardDisposition == ProposedMark)
    && (p.state == AcceptedBoundary ==>
          p.forwardState == AcceptedMark(p.release) && p.forwardDisposition == AcceptedMark(p.release)
          && AcceptanceSound(p.acceptance.value, p.release))
  }

  predicate Distinct(entries: seq<Entry>) {
    forall i, j :: 0 <= i < j < |entries| ==> entries[i].slug != entries[j].slug
  }

  function Slugs(entries: seq<Entry>): set<Slug> { set e | e in entries :: e.slug }

  /** Exactly one prescribed entry for every blocked catalog row, and none for any other. */
  predicate EntriesSound(entries: seq<Entry>, inventory: Inventory) {
    && (forall i :: 0 <= i < |entries| ==> entries[i] == KeepBlocked(entries[i].slug))
    && Distinct(entries)
    && Slugs(entries) == BlockedSlugs(inventory)
  }

  predicate PolicySound(p: Policy, inventory: Inventory) { HeaderSound(p) && EntriesSound(p.entries, inventory) }

  predicate Ascending(entries: seq<Entry>) {
    forall i, j :: 0 <= i < j < |entries| ==> entries[i].slug < entries[j].slug
  }

  function Insert(e: Entry, sorted: seq<Entry>): seq<Entry> {
    if sorted == [] || e.slug <= sorted[0].slug then [e] + sorted else [sorted[0]] + Insert(e, sorted[1..])
  }

  function Sort(entries: seq<Entry>): seq<Entry> {
    if entries == [] then [] else Insert(entries[0], Sort(entries[1..]))
  }

  ghost predicate SameEntries(a: seq<Entry>, b: seq<Entry>) { |a| == |b| && forall e :: e in a <==> e in b }

  lemma {:induction false} InsertHolds(e: Entry, sorted: seq<Entry>)
    ensures |Insert(e, sorted)| == |sorted| + 1
    ensures forall x :: x in Insert(e, sorted) <==> x == e || x in sorted
  {
    if sorted == [] || e.slug <= sorted[0].slug {
    } else {
      InsertHolds(e, sorted[1..]);
      assert sorted == [sorted[0]] + sorted[1..];
    }
  }

  lemma {:induction false} InsertSorts(e: Entry, sorted: seq<Entry>)
    requires Ascending(sorted) && forall x :: x in sorted ==> x.slug != e.slug
    ensures Ascending(Insert(e, sorted)) && SameEntries(Insert(e, sorted), [e] + sorted)
  {
    InsertHolds(e, sorted);
    if sorted != [] && sorted[0].slug < e.slug {
      InsertSorts(e, sorted[1..]);
      InsertHolds(e, sorted[1..]);
      HeadFirst(sorted[0], Insert(e, sorted[1..]));
    }
  }

  lemma HeadFirst(head: Entry, rest: seq<Entry>)
    requires Ascending(rest) && forall x :: x in rest ==> head.slug < x.slug
    ensures Ascending([head] + rest)
  {
    assert forall i :: 0 <= i < |rest| ==> rest[i] in rest;
  }

  lemma {:induction false} SortSorts(entries: seq<Entry>)
    requires Distinct(entries)
    ensures Ascending(Sort(entries)) && SameEntries(Sort(entries), entries)
  {
    if entries != [] {
      SortSorts(entries[1..]);
      assert entries == [entries[0]] + entries[1..];
      assert forall x :: x in entries[1..] ==> x.slug != entries[0].slug;
      InsertSorts(entries[0], Sort(entries[1..]));
    }
  }

  lemma {:induction false} SortedUnchanged(entries: seq<Entry>)
    requires Ascending(entries)
    ensures Sort(entries) == entries
  {
    if entries != [] {
      SortedUnchanged(entries[1..]);
      assert entries == [entries[0]] + entries[1..];
    }
  }

  /** Sorting keeps an entry list sound: the loader returns a policy it would load again unchanged. */
  lemma SortKeepsSound(entries: seq<Entry>, inventory: Inventory)
    requires EntriesSound(entries, inventory)
    ensures EntriesSound(Sort(entries), inventory) && Sort(Sort(entries)) == Sort(entries)
    ensures |Sort(entries)| == |entries|
  {
    var sorted := Sort(entries);
    SortSorts(entries);
    SortedUnchanged(sorted);
    assert Slugs(sorted) == Slugs(entries);
    forall i | 0 <= i < |sorted| ensures sorted[i] == KeepBlocked(sorted[i].slug) { assert sorted[i] in entries; }
  }

  lemma SlugsAdded(entries: seq<Entry>, e: Entry)
    ensures Slugs(entries + [e]) == Slugs(entries) + {e.slug}
    ensures Distinct(entries + [e]) <==> Distinct(entries) && e.slug !in Slugs(entries)
  {
    var all := entries + [e];
    assert forall x :: x in all <==> x in entries || x == e;
    if Distinct(all) {
      forall x | x in entries ensures x.slug != e.slug {
        var i :| 0 <= i < |entries| && entries[i] == x;
        assert all[i].slug != all[|entries|].slug;
      }
      assert forall i :: 0 <= i < |entries| ==> entries[i] == all[i];
    }
  }

  method CheckEntries(entries: seq<Entry>, inventory: Inventory) returns (ok: bool)
    ensures ok <==> EntriesSound(entries, inventory)
  {
    var blocked := BlockedSlugs(inventory);
    var seen: set<Slug> := {};
    var repeated := false;
    var i := 0;
    while i < |entries|
      invariant 0 <= i <= |entries|
      invariant forall k :: 0 <= k < i ==> entries[k] == KeepBlocked(entries[k].slug)
      invariant seen == Slugs(entries[..i])
      invariant repeated <==> !Distinct(entries[..i])
    {
      var e := entries[i];
      if e.slug !in blocked || e != KeepBlocked(e.slug) {
        assert e.slug in Slugs(entries);
        return false;
      }
      assert entries[..i + 1] == entries[..i] + [e];
      SlugsAdded(entries[..i], e);
      repeated := repeated || e.slug in seen;
      seen := seen + {e.slug};
      i := i + 1;
    }
    assert entries[..i] == entries;
    ok := !repeated && seen == blocked;
  }

  /** _load_disposition_policy: the header, the entries one by one, then the whole set. */
  method LoadDispositionPolicy(p: Policy, inventory: Inventory) returns (r: Result<Policy>)
    ensures r.Ok? <==> PolicySound(p, inventory)
    ensures r.Ok? ==> r.value == Loaded(p) && r.value == p.(entries := r.value.entries)
    ensures r.Ok? ==>
      forall i, j :: 0 <= i < j < |r.value.entries| ==> r.value.entries[i].slug < r.value.entries[j].slug
    ensures r.Ok? ==> |r.value.entries| == |p.entries| && forall e :: e in r.value.entries <==> e in p.entries
    ensures r.Ok? ==> forall e :: e in r.value.entries ==>
      && e.disposition == "KEEP_BLOCKED_POLICY"
      && e.rationale == "execution-prohibited-by-reviewed-policy"
      && e.condition == "separate-policy-change-and-fresh-controlled-evidence"
    ensures r.Ok? ==> forall s :: s in inventory ==>
      (inventory[s].doNotExecute <==> exists e :: e in r.value.entries && e.slug == s)
    ensures r.Ok? ==> forall e :: e in r.value.entries ==> e.slug in inventory
    ensures r.Ok? ==>
      p.historicalUnknown && p.schedulerQuarantined && (p.acceptance.Some? <==> p.state == AcceptedBoundary)
    ensures r.Ok? && p.state == Proposed ==> p.forwardState == ProposedMark && p.forwardDisposition == ProposedMark
    ensures r.Ok? && p.state == AcceptedBoundary ==> var a := p.acceptance.value;
      && p.forwardState == AcceptedMark(p.release) && p.forwardDisposition == AcceptedMark(p.release)
      && a.byOperator && a.scope == p.release && a.state == p.release
      && '/' !in a.reviewPath && '/' !in a.artifactPath && (a.authorization.Some? <==> p.release == V132)
  {
    if !HeaderSound(p) { return Raised; }
    var ok := CheckEntries(p.entries, inventory);
    if !ok { return Raised; }
    LoadedInFields(p, inventory);
    r := Ok(Loaded(p));
  }

  lemma LoadedInFields(p: Policy, inventory: Inventory)
    requires PolicySound(p, inventory)
    ensures var entries := Loaded(p).entries;
      && Ascending(entries) && |entries| == |p.entries| && (forall e :: e in entries <==> e in p.entries)
      && (forall e :: e in entries ==> e == KeepBlocked(e.slug) && e.slug in inventory)
      && forall s :: s in inventory ==> (inventory[s].doNotExecute <==> exists e :: e in entries && e.slug == s)
  {
    SortSorts(p.entries);
    SortKeepsSound(p.entries, inventory);
    var entries := Loaded(p).entries;
    forall e | e in entries ensures e == KeepBlocked(e.slug) && e.slug in inventory {
      assert e.slug in Slugs(entries);
    }
    forall s | s in inventory ensures inventory[s].doNotExecute <==> exists e :: e in entries && e.slug == s {
      assert s in Slugs(entries) <==> s in BlockedSlugs(inventory);
    }
  }

  function Loaded(p: Policy): Policy { p.(entries := Sort(p.entries)) }
}
