/** The append-only files of one qualification set, and the check that decides whether a later run may
    open the directory.

    SHA-256 is an injective function, so a digest is modelled by the value it digests: an attempt identity
    is the triple it hashes, and "the digest of this file" is the file's record. */
module ReceiptSet {
  import opened Results
  import HostCapacity

  datatype Cohort = Reference | LiveBatch | Batch3 | Batch4 | BasicMemory

  const COHORTS: seq<Cohort> := [Reference, LiveBatch, Batch3, Batch4, BasicMemory]

  function Rank(c: Cohort): (i: nat)
    ensures i < |COHORTS| && COHORTS[i] == c
  {
    match c
    case Reference => 0
    case LiveBatch => 1
    case Batch3 => 2
    case Batch4 => 3
    case BasicMemory => 4
  }

  type ImageId = nat

  datatype Operation = Qualification | Cleanup

  /** `binding` stands for every manifest field except the revision the set was created from. */
  datatype Manifest = Manifest(binding: nat, revision: nat)

  /** A host-capacity receipt scoped to one operation on one cohort of one set. */
  datatype Capacity = Capacity(
    operation: Operation, receiptSet: nat, cohort: Cohort, host: HostCapacity.Receipt)

  datatype AttemptId = AttemptId(manifest: Manifest, cohort: Cohort, capacity: Capacity)

  datatype FileName =
    | ManifestFile
    | ReceiptFile(cohort: Cohort)
    | CapacityFile(cohort: Cohort, capacity: Capacity)
    | AttemptFile(cohort: Cohort, id: AttemptId)
    | OwnershipFile(cohort: Cohort, id: AttemptId)
    | CompletionFile(cohort: Cohort, id: AttemptId)
    | CleanupFile(cohort: Cohort, id: AttemptId)

  datatype Attempt = Attempt(
    id: AttemptId, manifest: Manifest, cohort: Cohort,
    capacityFile: FileName, capacity: Capacity, baseline: Option<ImageId>)

  datatype Receipt = Receipt(cohort: Cohort, first: ImageId, second: ImageId, observedAt: int)

  datatype FinalTag = BaselineUnchanged | TaskOwnedRetained

  datatype Record =
    | ManifestRecord(manifest: Manifest)
    | ReceiptRecord(receipt: Receipt)
    | CapacityRecord(capacity: Capacity)
    | AttemptRecord(attempt: Attempt)
    | OwnershipRecord(cohort: Cohort, id: AttemptId, attempt: Attempt, image: ImageId)
    | CompletionRecord(cohort: Cohort, id: AttemptId, attempt: Attempt, receipt: Receipt)
    | CleanupRecord(cohort: Cohort, id: AttemptId, attempt: Attempt,
                    capacityFile: FileName, capacity: Capacity, temporaryAbsent: bool, finalTag: FinalTag)

  type Files = map<FileName, Record>

  // ---- what one readable file must look like ----

  predicate CapacityScoped(c: Capacity, operation: Operation, receiptSet: nat, cohort: Cohort) {
    c.operation == operation && c.receiptSet == receiptSet && c.cohort == cohort
    && HostCapacity.Admissible(c.host)
  }

  predicate AttemptSound(files: Files, m: Manifest, cohort: Cohort, id: AttemptId, a: Attempt) {
    && a.cohort == cohort
    && a.id == id
    && id == AttemptId(a.manifest, a.cohort, a.capacity)
    && a.manifest == m
    && a.capacityFile in files
    && files[a.capacityFile] == CapacityRecord(a.capacity)
  }

  /** One file of the set, by its name prefix.  The manifest and the five receipts are read elsewhere. */
  predicate Readable(files: Files, receiptSet: nat, m: Manifest, n: FileName)
    requires n in files
  {
    var record := files[n];
    match n
    case ManifestFile => true
    case ReceiptFile(_) => true
    case CapacityFile(cohort, capacity) =>
      record == CapacityRecord(capacity)
      && CapacityScoped(capacity, capacity.operation, receiptSet, cohort)
    case AttemptFile(cohort, id) =>
      record.AttemptRecord? && AttemptSound(files, m, cohort, id, record.attempt)
    case OwnershipFile(cohort, id) => record.OwnershipRecord? && record.cohort == cohort && record.id == id
    case CompletionFile(cohort, id) => record.CompletionRecord? && record.cohort == cohort && record.id == id
    case CleanupFile(cohort, id) => record.CleanupRecord? && record.cohort == cohort && record.id == id
  }

  ghost predicate SameHost(files: Files, n1: FileName, n2: FileName) {
    && n1 in files && n2 in files && n1.CapacityFile? && n2.CapacityFile?
    && n1.capacity.host == n2.capacity.host
  }

  /** No host observation backs two capacity records. */
  ghost predicate HostsDistinct(files: Files) {
    forall n1, n2 :: SameHost(files, n1, n2) ==> n1 == n2
  }

  ghost predicate AllReadable(files: Files, receiptSet: nat, m: Manifest) {
    && (forall n :: n in files ==> Readable(files, receiptSet, m, n))
    && HostsDistinct(files)
  }

  // ---- the sets of identities the graph is made of ----

  function Attempts(files: Files): set<Attempt> {
    set n | n in files && n.AttemptFile? && files[n].AttemptRecord? :: files[n].attempt
  }

  function CohortAttempts(files: Files, cohort: Cohort): set<Attempt> {
    set n | n in files && n.AttemptFile? && files[n].AttemptRecord? && files[n].attempt.cohort == cohort
      :: files[n].attempt
  }

  function AttemptIds(files: Files): set<AttemptId> { set a | a in Attempts(files) :: a.id }
  function Completions(files: Files): set<AttemptId> { set n | n in files && n.CompletionFile? :: n.id }
  function Cleanups(files: Files): set<AttemptId> { set n | n in files && n.CleanupFile? :: n.id }
  function Ownerships(files: Files): set<AttemptId> { set n | n in files && n.OwnershipFile? :: n.id }

  datatype SetView = SetView(
    attempts: set<Attempt>, completions: set<AttemptId>, cleanups: set<AttemptId>, ownerships: set<AttemptId>)

  function View(files: Files, cohort: Cohort): SetView {
    SetView(CohortAttempts(files, cohort), Completions(files), Cleanups(files), Ownerships(files))
  }

  /** _owned_final_image_id: absent, present and bound to this very attempt, or refused. */
  function OwnedImage(files: Files, a: Attempt): Result<Option<ImageId>> {
    var n := OwnershipFile(a.cohort, a.id);
    if n !in files then Ok(None)
    else if files[n].OwnershipRecord? && files[n].cohort == a.cohort && files[n].id == a.id
            && files[n].attempt == a then Ok(Some(files[n].image))
    else Raised
  }

  function CleanupHolds(files: Files, receiptSet: nat, a: Attempt): Result<bool> {
    var n := CleanupFile(a.cohort, a.id);
    if n !in files || !files[n].CleanupRecord? then Raised
    else
      var cleanup := files[n];
      var c := cleanup.capacityFile;
      if c !in files || !files[c].CapacityRecord?
         || !CapacityScoped(files[c].capacity, Cleanup, receiptSet, a.cohort) then Ok(false)
      else
        var owned := OwnedImage(files, a);
        if owned.Raised? then Raised
        else Ok(cleanup.attempt == a
                && cleanup.capacity == files[c].capacity
                && cleanup.temporaryAbsent
                && (cleanup.finalTag == TaskOwnedRetained ==> owned.value.Some?))
  }

  function CompletionHolds(files: Files, a: Attempt): Result<bool> {
    var r := ReceiptFile(a.cohort);
    if r !in files then Ok(false)
    else
      var n := CompletionFile(a.cohort, a.id);
      if n !in files || !files[n].CompletionRecord? then Raised
      else Ok(files[r].ReceiptRecord? && files[n].attempt == a && files[n].receipt == files[r].receipt)
  }

  /** _attempt_resolved: an attempt is resolved by its cleanup or else by its completion, never by both. */
  function AttemptResolved(
      files: Files, receiptSet: nat, a: Attempt, completions: set<AttemptId>, cleanups: set<AttemptId>)
    : Result<bool>
  {
    if a.id in completions && a.id in cleanups then Raised
    else if a.id in cleanups then CleanupHolds(files, receiptSet, a)
    else if a.id in completions then CompletionHolds(files, a)
    else Ok(false)
  }

  function Resolution(files: Files, receiptSet: nat, a: Attempt): Result<bool> {
    AttemptResolved(files, receiptSet, a, Completions(files), Cleanups(files))
  }

  // ---- the graph ----

  function CompletedAttempts(files: Files, cohort: Cohort): set<AttemptId> {
    set a | a in Attempts(files) && a.cohort == cohort && a.id in Completions(files) :: a.id
  }

  /** A cleanup record filed under another cohort than its attempt's is never read, so it references nothing. */
  predicate RefersTo(k: FileName, r: Record, n: FileName) {
    || (k.AttemptFile? && r.AttemptRecord? && r.attempt.capacityFile == n)
    || (k.CleanupFile? && k.cohort == k.id.cohort && r.CleanupRecord? && r.capacityFile == n)
  }

  ghost predicate References(files: Files, k: FileName, n: FileName) { k in files && RefersTo(k, files[k], n) }

  ghost predicate Referenced(files: Files, n: FileName) { exists k :: References(files, k, n) }

  /** What an openable set looks like, independently of the order in which its files are read. */
  ghost predicate GraphSound(files: Files, receiptSet: nat, m: Manifest) {
    && AllReadable(files, receiptSet, m)
    && Completions(files) <= AttemptIds(files)
    && Cleanups(files) <= AttemptIds(files)
    && Completions(files) <= Ownerships(files) <= AttemptIds(files)
    && (forall a :: a in Attempts(files) && a.id in Ownerships(files) ==> OwnedImage(files, a).Ok?)
    && (forall a :: a in Attempts(files) && a.id in Completions(files) + Cleanups(files) ==>
          Resolution(files, receiptSet, a) == Ok(true))
    && (forall c: Cohort ::
          if ReceiptFile(c) in files then |CompletedAttempts(files, c)| == 1
          else CompletedAttempts(files, c) == {})
    && (forall n :: n in files && n.CapacityFile? ==> Referenced(files, n))
    && (forall k, n :: References(files, k, n) ==> n in files && n.CapacityFile?)
  }

  /** Two attempt records never share an identity in a readable set. */
  lemma AttemptById(files: Files, receiptSet: nat, m: Manifest, a: Attempt, b: Attempt)
    requires AllReadable(files, receiptSet, m)
    requires a in Attempts(files) && b in Attempts(files) && a.id == b.id
    ensures a == b
  {
    var n1 :| n1 in files && n1.AttemptFile? && files[n1].AttemptRecord? && files[n1].attempt == a;
    var n2 :| n2 in files && n2.AttemptFile? && files[n2].AttemptRecord? && files[n2].attempt == b;
    assert Readable(files, receiptSet, m, n1) && Readable(files, receiptSet, m, n2);
  }

  // ---- reading the directory ----

  function Hosts(files: Files): set<HostCapacity.Receipt> { set n | n in files && n.CapacityFile? :: n.capacity.host }

  /** What reading one more file adds to each of the collected sets. */
  lemma ReadOneMore(seen: Files, n: FileName, record: Record)
    requires n !in seen
    ensures var grown := seen[n := record];
      && Hosts(grown) == Hosts(seen) + (if n.CapacityFile? then {n.capacity.host} else {})
      && Attempts(grown) ==
         Attempts(seen) + (if n.AttemptFile? && record.AttemptRecord? then {record.attempt} else {})
      && Completions(grown) == Completions(seen) + (if n.CompletionFile? then {n.id} else {})
      && Cleanups(grown) == Cleanups(seen) + (if n.CleanupFile? then {n.id} else {})
      && Ownerships(grown) == Ownerships(seen) + (if n.OwnershipFile? then {n.id} else {})
  {
    var grown := seen[n := record];
    assert n in grown;
    assert forall k :: k in grown <==> k in seen || k == n;
    assert forall k :: k in seen ==> grown[k] == seen[k];
    assert n.AttemptFile? && record.AttemptRecord? ==> grown[n].attempt in Attempts(grown);
    assert Attempts(grown) ==
           Attempts(seen) + (if n.AttemptFile? && record.AttemptRecord? then {record.attempt} else {});
  }

  lemma HostFresh(seen: Files, n: FileName, record: Record)
    requires HostsDistinct(seen) && n !in seen
    requires n.CapacityFile? ==> n.capacity.host !in Hosts(seen)
    ensures HostsDistinct(seen[n := record])
  {
    var grown := seen[n := record];
    forall n1, n2 | SameHost(grown, n1, n2) ensures n1 == n2 {
      assert n1 in seen && n2 in seen ==> SameHost(seen, n1, n2);
      assert forall k :: k in seen && k.CapacityFile? ==> k.capacity.host in Hosts(seen);
    }
  }

  lemma HostRepeated(files: Files, seen: Files, n: FileName)
    requires n in files && n !in seen && seen.Keys <= files.Keys && n.CapacityFile?
    requires n.capacity.host in Hosts(seen)
    ensures !HostsDistinct(files)
  {
    var other :| other in seen && other.CapacityFile? && other.capacity.host == n.capacity.host;
    assert SameHost(files, other, n);
  }

  /** _validated_set_attempts: one pass over the directory in whatever order it is listed. */
  method ValidatedSetAttempts(files: Files, receiptSet: nat, cohort: Cohort, m: Manifest)
    returns (r: Result<SetView>)
    ensures r.Ok? <==> AllReadable(files, receiptSet, m)
    ensures r.Ok? ==> r.value == View(files, cohort)
  {
    var attempts: set<Attempt> := {};
    var completions, cleanups, ownerships: set<AttemptId> := {}, {}, {};
    var hosts: set<HostCapacity.Receipt> := {};
    var names := files.Keys;
    ghost var seen: Files := map[];
    while names != {}
      invariant seen.Keys + names == files.Keys && seen.Keys !! names
      invariant forall n :: n in seen ==> seen[n] == files[n]
      invariant forall n :: n in seen ==> Readable(files, receiptSet, m, n)
      invariant HostsDistinct(seen) && hosts == Hosts(seen)
      invariant attempts == Attempts(seen)
      invariant completions == Completions(seen)
      invariant cleanups == Cleanups(seen)
      invariant ownerships == Ownerships(seen)
      decreases names
    {
      var n :| n in names;
      if !Readable(files, receiptSet, m, n) { return Raised; }
      ghost var grown := seen[n := files[n]];
      if n.CapacityFile? {
        if n.capacity.host in hosts {
          HostRepeated(files, seen, n);
          return Raised;
        }
        hosts := hosts + {n.capacity.host};
      } else {
        if n.AttemptFile? { attempts := attempts + {files[n].attempt}; }
        else if n.CompletionFile? { completions := completions + {n.id}; }
        else if n.CleanupFile? { cleanups := cleanups + {n.id}; }
        else if n.OwnershipFile? { ownerships := ownerships + {n.id}; }
      }
      ReadOneMore(seen, n, files[n]);
      HostFresh(seen, n, files[n]);
      names, seen := names - {n}, grown;
    }
    assert seen == files;
    var mine := set a | a in attempts && a.cohort == cohort;
    assert mine == CohortAttempts(files, cohort);
    r := Ok(SetView(mine, completions, cleanups, ownerships));
  }

  function Unresolved(files: Files, receiptSet: nat, cohort: Cohort): set<Attempt> {
    set a | a in CohortAttempts(files, cohort) && Resolution(files, receiptSet, a) != Ok(true)
  }

  /** Every attempt of the cohort can be told resolved or not. */
  ghost predicate Decided(files: Files, receiptSet: nat, cohort: Cohort, m: Manifest) {
    && AllReadable(files, receiptSet, m)
    && forall a :: a in CohortAttempts(files, cohort) ==> Resolution(files, receiptSet, a).Ok?
  }

  lemma UnresolvedDecided(files: Files, receiptSet: nat, cohort: Cohort, m: Manifest)
    requires GraphSound(files, receiptSet, m)
    ensures Decided(files, receiptSet, cohort, m)
  {
    forall a | a in CohortAttempts(files, cohort) ensures Resolution(files, receiptSet, a).Ok? {
      assert a in Attempts(files);
    }
  }

  /** _unresolved_attempts: reads the whole set again and keeps the cohort's attempts that are not resolved. */
  method UnresolvedAttempts(files: Files, receiptSet: nat, cohort: Cohort, m: Manifest)
    returns (r: Result<set<Attempt>>)
    ensures r.Ok? <==> Decided(files, receiptSet, cohort, m)
    ensures r.Ok? ==> r.value == Unresolved(files, receiptSet, cohort)
  {
    var view := ValidatedSetAttempts(files, receiptSet, cohort, m);
    if view.Raised? { return Raised; }
    var todo := view.value.attempts;
    var unresolved: set<Attempt> := {};
    ghost var done: set<Attempt> := {};
    while todo != {}
      invariant todo + done == view.value.attempts
      invariant forall a :: a in done ==> Resolution(files, receiptSet, a).Ok?
      invariant unresolved == set a | a in done && Resolution(files, receiptSet, a) != Ok(true)
      decreases todo
    {
      var a :| a in todo;
      var resolved := AttemptResolved(files, receiptSet, a, view.value.completions, view.value.cleanups);
      if resolved.Raised? { return Raised; }
      if !resolved.value { unresolved := unresolved + {a}; }
      todo, done := todo - {a}, done + {a};
    }
    r := Ok(unresolved);
  }

  /** The identities collected once the cohorts ranked below `k` have been read. */
  ghost predicate Collected(files: Files, byId: map<AttemptId, Attempt>, k: nat) {
    && (forall a :: a in Attempts(files) && Rank(a.cohort) < k ==> a.id in byId && byId[a.id] == a)
    && (forall id :: id in byId ==> byId[id] in Attempts(files) && byId[id].id == id)
  }

  ghost predicate DistinctIds(attempts: set<Attempt>) {
    forall a, b :: a in attempts && b in attempts && a.id == b.id ==> a == b
  }

  /** One cohort's attempts, keyed by identity.  The duplicate check of the original never fires: identities of
      readable attempts are distinct. */
  method AddAttempts(found: map<AttemptId, Attempt>, attempts: set<Attempt>) returns (byId: map<AttemptId, Attempt>)
    requires forall id :: id in found ==> found[id].id == id
    requires DistinctIds(found.Values + attempts) && found.Values !! attempts
    ensures forall id :: id in found ==> id in byId && byId[id] == found[id]
    ensures forall a :: a in attempts ==> a.id in byId && byId[a.id] == a
    ensures forall id :: id in byId ==> byId[id].id == id && (id in found || byId[id] in attempts)
  {
    byId := found;
    var todo := attempts;
    while todo != {}
      invariant todo <= attempts
      invariant forall id :: id in found ==> id in byId && byId[id] == found[id]
      invariant forall a :: a in attempts - todo ==> a.id in byId && byId[a.id] == a
      invariant forall id :: id in byId ==> byId[id].id == id && (id in found || byId[id] in attempts - todo)
      decreases todo
    {
      var a :| a in todo;
      assert a.id !in byId;
      byId := byId[a.id := a];
      todo := todo - {a};
    }
  }

  lemma CollectedStep(
      files: Files, receiptSet: nat, m: Manifest, i: nat, found: map<AttemptId, Attempt>, attempts: set<Attempt>)
    requires AllReadable(files, receiptSet, m)
    requires i < |COHORTS| && attempts == CohortAttempts(files, COHORTS[i])
    requires Collected(files, found, i) && forall id :: id in found ==> Rank(found[id].cohort) < i
    ensures DistinctIds(found.Values + attempts) && found.Values !! attempts
    ensures forall a :: a in Attempts(files) && Rank(a.cohort) == i <==> a in attempts
  {
    forall a, b | a in Attempts(files) && b in Attempts(files) && a.id == b.id ensures a == b {
      AttemptById(files, receiptSet, m, a, b);
    }
    assert attempts <= Attempts(files) && found.Values <= Attempts(files);
    assert forall c: Cohort :: Rank(c) == i ==> c == COHORTS[i];
  }

  /** The first half of _validate_set_graph: every attempt of every cohort, keyed by identity. */
  method CollectAttempts(files: Files, receiptSet: nat, m: Manifest) returns (r: Result<map<AttemptId, Attempt>>)
    ensures r.Ok? <==> AllReadable(files, receiptSet, m)
    ensures r.Ok? ==> IsIndex(files, r.value)
  {
    var byId: map<AttemptId, Attempt> := map[];
    var i := 0;
    while i < |COHORTS|
      invariant 0 <= i <= |COHORTS|
      invariant i > 0 ==> AllReadable(files, receiptSet, m)
      invariant Collected(files, byId, i)
      invariant forall id :: id in byId ==> Rank(byId[id].cohort) < i
    {
      var view := ValidatedSetAttempts(files, receiptSet, COHORTS[i], m);
      if view.Raised? { return Raised; }
      CollectedStep(files, receiptSet, m, i, byId, view.value.attempts);
      byId := AddAttempts(byId, view.value.attempts);
      i := i + 1;
    }
    r := Ok(byId);
  }

  /** The attempts of the set, keyed by identity. */
  ghost predicate IsIndex(files: Files, byId: map<AttemptId, Attempt>) {
    && (forall a :: a in Attempts(files) ==> a.id in byId && byId[a.id] == a)
    && (forall id :: id in byId ==> byId[id] in Attempts(files) && byId[id].id == id)
  }

  /** _validate_set_graph: raises on the first broken link, so it accepts exactly the sound graphs. */
  method ValidateSetGraph(files: Files, receiptSet: nat, m: Manifest) returns (ok: bool)
    ensures ok <==> GraphSound(files, receiptSet, m)
  {
    var collected := CollectAttempts(files, receiptSet, m);
    if collected.Raised? { return false; }
    var byId := collected.value;
    assert byId.Keys == AttemptIds(files);
    // The three sets come out of every pass alike; the last one is kept.
    var view := ValidatedSetAttempts(files, receiptSet, BasicMemory, m);
    if view.Raised? { return false; }
    var completions, cleanups, ownerships := view.value.completions, view.value.cleanups, view.value.ownerships;
    if !(completions <= byId.Keys && cleanups <= byId.Keys && ownerships <= byId.Keys && completions <= ownerships) {
      return false;
    }
    var owned := OwnershipsBound(files, byId, ownerships);
    if !owned { return false; }
    var resolved := ResolutionsComplete(files, receiptSet, byId, completions, cleanups);
    if !resolved { return false; }
    var receipts := ReceiptsMatchCompletions(files, byId, completions);
    ReceiptsByIndex(files, byId);
    if !receipts { return false; }
    ok := CapacityReferenced(files, byId, cleanups);
    CapacityByIndex(files, receiptSet, m, byId);
  }

  lemma ReceiptsByIndex(files: Files, byId: map<AttemptId, Attempt>)
    requires IsIndex(files, byId)
    ensures forall c: Cohort :: ReceiptMatched(files, byId, Completions(files), c) <==>
      if ReceiptFile(c) in files then |CompletedAttempts(files, c)| == 1 else CompletedAttempts(files, c) == {}
  {
    forall c: Cohort
      ensures CompletedAttempts(files, c) == set id | id in byId && byId[id].cohort == c && id in Completions(files)
    {
      assert forall a :: a in Attempts(files) ==> byId[a.id] == a;
    }
  }

  lemma CapacityByIndex(files: Files, receiptSet: nat, m: Manifest, byId: map<AttemptId, Attempt>)
    requires AllReadable(files, receiptSet, m) && IsIndex(files, byId)
    requires CleanupsPresent(files, byId, Cleanups(files))
    ensures CapacityFiles(files) == AttemptCapacities(byId) + CleanupCapacities(files, byId, Cleanups(files)) <==>
      && (forall n :: n in files && n.CapacityFile? ==> Referenced(files, n))
      && (forall k, n :: References(files, k, n) ==> n in files && n.CapacityFile?)
  {
    var referenced := AttemptCapacities(byId) + CleanupCapacities(files, byId, Cleanups(files));
    forall k, n | References(files, k, n) ensures n in referenced {
      assert Readable(files, receiptSet, m, k);
      if k.AttemptFile? {
        assert files[k].attempt in Attempts(files);
      } else {
        assert k.id in Cleanups(files);
        IndexedCohort(files, receiptSet, m, byId, k.id);
      }
    }
    forall n | n in referenced ensures Referenced(files, n) {
      if n in AttemptCapacities(byId) {
        var id :| id in byId && byId[id].capacityFile == n;
        var k :| k in files && k.AttemptFile? && files[k].AttemptRecord? && files[k].attempt == byId[id];
        assert References(files, k, n);
      } else {
        var id :| id in Cleanups(files) && files[CleanupFile(byId[id].cohort, id)].capacityFile == n;
        IndexedCohort(files, receiptSet, m, byId, id);
        assert References(files, CleanupFile(byId[id].cohort, id), n);
      }
    }
  }

  lemma IndexedCohort(files: Files, receiptSet: nat, m: Manifest, byId: map<AttemptId, Attempt>, id: AttemptId)
    requires AllReadable(files, receiptSet, m) && IsIndex(files, byId) && id in byId
    ensures byId[id].cohort == id.cohort
  {
    var k :| k in files && k.AttemptFile? && files[k].AttemptRecord? && files[k].attempt == byId[id];
    assert Readable(files, receiptSet, m, k);
  }

  method OwnershipsBound(files: Files, byId: map<AttemptId, Attempt>, ownerships: set<AttemptId>) returns (ok: bool)
    requires ownerships <= byId.Keys
    ensures ok <==> forall id :: id in ownerships ==> OwnedImage(files, byId[id]).Ok?
  {
    var todo := ownerships;
    while todo != {}
      invariant todo <= ownerships
      invariant forall id :: id in ownerships - todo ==> OwnedImage(files, byId[id]).Ok?
      decreases todo
    {
      var id :| id in todo;
      if OwnedImage(files, byId[id]).Raised? { return false; }
      todo := todo - {id};
    }
    ok := true;
  }

  method ResolutionsComplete(
      files: Files, receiptSet: nat, byId: map<AttemptId, Attempt>,
      completions: set<AttemptId>, cleanups: set<AttemptId>) returns (ok: bool)
    requires completions + cleanups <= byId.Keys
    ensures ok <==> forall id :: id in completions + cleanups ==>
      AttemptResolved(files, receiptSet, byId[id], completions, cleanups) == Ok(true)
  {
    var todo := completions + cleanups;
    while todo != {}
      invariant todo <= completions + cleanups
      invariant forall id :: id in completions + cleanups - todo ==>
        AttemptResolved(files, receiptSet, byId[id], completions, cleanups) == Ok(true)
      decreases todo
    {
      var id :| id in todo;
      if AttemptResolved(files, receiptSet, byId[id], completions, cleanups) != Ok(true) { return false; }
      todo := todo - {id};
    }
    ok := true;
  }

  predicate ReceiptMatched(files: Files, byId: map<AttemptId, Attempt>, completions: set<AttemptId>, c: Cohort) {
    var matching := set id | id in byId && byId[id].cohort == c && id in completions;
    if ReceiptFile(c) in files then |matching| == 1 else matching == {}
  }

  method ReceiptsMatchCompletions(files: Files, byId: map<AttemptId, Attempt>, completions: set<AttemptId>)
    returns (ok: bool)
    ensures ok <==> forall c: Cohort :: ReceiptMatched(files, byId, completions, c)
  {
    var i := 0;
    while i < |COHORTS|
      invariant 0 <= i <= |COHORTS|
      invariant forall c: Cohort :: Rank(c) < i ==> ReceiptMatched(files, byId, completions, c)
    {
      var c := COHORTS[i];
      assert forall d: Cohort :: Rank(d) == i ==> d == c;
      var matching := set id | id in byId && byId[id].cohort == c && id in completions;
      if (ReceiptFile(c) in files && |matching| != 1) || (ReceiptFile(c) !in files && matching != {}) {
        assert !ReceiptMatched(files, byId, completions, c);
        return false;
      }
      i := i + 1;
    }
    ok := true;
  }

  ghost predicate CleanupsPresent(files: Files, byId: map<AttemptId, Attempt>, cleanups: set<AttemptId>) {
    forall id :: id in cleanups ==>
      id in byId && CleanupFile(byId[id].cohort, id) in files && files[CleanupFile(byId[id].cohort, id)].CleanupRecord?
  }

  ghost function CleanupCapacities(files: Files, byId: map<AttemptId, Attempt>, cleanups: set<AttemptId>): set<FileName>
    requires CleanupsPresent(files, byId, cleanups)
  {
    set id | id in cleanups :: files[CleanupFile(byId[id].cohort, id)].capacityFile
  }

  function CapacityFiles(files: Files): set<FileName> { set n | n in files && n.CapacityFile? }

  function AttemptCapacities(byId: map<AttemptId, Attempt>): set<FileName> {
    set id | id in byId :: byId[id].capacityFile
  }

  method CapacityReferenced(files: Files, byId: map<AttemptId, Attempt>, cleanups: set<AttemptId>) returns (ok: bool)
    requires CleanupsPresent(files, byId, cleanups)
    ensures ok <==> CapacityFiles(files) == AttemptCapacities(byId) + CleanupCapacities(files, byId, cleanups)
  {
    var referenced := AttemptCapacities(byId);
    var todo := cleanups;
    while todo != {}
      invariant todo <= cleanups
      invariant referenced == AttemptCapacities(byId) + CleanupCapacities(files, byId, cleanups - todo)
      decreases todo
    {
      var id :| id in todo;
      var cleanup := files[CleanupFile(byId[id].cohort, id)];
      ghost var before := CleanupCapacities(files, byId, cleanups - todo);
      referenced := referenced + {cleanup.capacityFile};
      todo := todo - {id};
      assert CleanupCapacities(files, byId, cleanups - todo) == before + {cleanup.capacityFile} by {
        assert cleanups - todo == (cleanups - (todo + {id})) + {id};
      }
    }
    assert cleanups - todo == cleanups;
    ok := CapacityFiles(files) == referenced;
  }
}
