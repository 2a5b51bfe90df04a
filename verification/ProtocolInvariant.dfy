/** What every event keeps, whatever runs and stops came before. */
module ProtocolInvariant {
  import opened Results
  import opened ReceiptSet
  import opened Protocol

  // ---- the files of one attempt ----

  function At(id: AttemptId): FileName { AttemptFile(id.cohort, id) }
  function OwnedAt(id: AttemptId): FileName { OwnershipFile(id.cohort, id) }
  function DoneAt(id: AttemptId): FileName { CompletionFile(id.cohort, id) }
  function CleanAt(id: AttemptId): FileName { CleanupFile(id.cohort, id) }

  /** Cleaned up, or completed with its receipt written. */
  predicate Settled(files: Files, id: AttemptId) {
    CleanAt(id) in files || (DoneAt(id) in files && ReceiptFile(id.cohort) in files)
  }

  predicate Unsettled(files: Files, id: AttemptId) { At(id) in files && !Settled(files, id) }

  predicate HoldsAttempt(files: Files, a: Attempt) {
    At(a.id) in files && files[At(a.id)] == AttemptRecord(a)
  }

  ghost predicate CompletionFor(files: Files, id: AttemptId, receipt: Receipt) {
    DoneAt(id) in files && files[DoneAt(id)].CompletionRecord? && files[DoneAt(id)].receipt == receipt
    && id.cohort == receipt.cohort
  }

  ghost predicate Filed(files: Files, receiptSet: nat, n: FileName)
    requires n in files && HasManifest(files)
  {
    var r := files[n];
    match n
    case ManifestFile => true
    case ReceiptFile(c) =>
      r.ReceiptRecord? && r.receipt.cohort == c && r.receipt.first == r.receipt.second
      && exists id :: CompletionFor(files, id, r.receipt)
    case CapacityFile(c, capacity) =>
      r == CapacityRecord(capacity) && CapacityScoped(capacity, capacity.operation, receiptSet, c)
    case AttemptFile(c, id) =>
      c == id.cohort && id.capacity.operation == Qualification && r.AttemptRecord?
      && r.attempt == NewAttempt(files[ManifestFile].manifest, id.capacity, r.attempt.baseline)
      && r.attempt.id == id
      && CapacityFile(c, id.capacity) in files
    case OwnershipFile(c, id) =>
      c == id.cohort && r.OwnershipRecord? && r.cohort == c && r.id == id && HoldsAttempt(files, r.attempt)
      && r.attempt.id == id
    case CompletionFile(c, id) =>
      c == id.cohort && r.CompletionRecord? && r.cohort == c && r.id == id && HoldsAttempt(files, r.attempt)
      && r.attempt.id == id
      && OwnedAt(id) in files && files[OwnedAt(id)].OwnershipRecord?
      && r.receipt.cohort == c && r.receipt.first == r.receipt.second == files[OwnedAt(id)].image
      && CleanAt(id) !in files
      && (ReceiptFile(c) in files ==> files[ReceiptFile(c)] == ReceiptRecord(r.receipt))
    case CleanupFile(c, id) =>
      c == id.cohort && r.CleanupRecord? && r.cohort == c && r.id == id && HoldsAttempt(files, r.attempt)
      && r.attempt.id == id
      && r.capacityFile == CapacityFile(c, r.capacity) && r.capacity.operation == Cleanup
      && r.capacity.cohort == c && r.capacityFile in files
      && r.temporaryAbsent && (r.finalTag == TaskOwnedRetained ==> OwnedAt(id) in files)
      && DoneAt(id) !in files
  }

  ghost predicate AllFiled(files: Files, receiptSet: nat) {
    files != map[] ==> HasManifest(files) && forall n :: n in files ==> Filed(files, receiptSet, n)
  }

  ghost predicate OneCompletion(files: Files) {
    forall x, y :: DoneAt(x) in files && DoneAt(y) in files && x.cohort == y.cohort ==> x == y
  }

  ghost predicate CleansWith(files: Files, x: AttemptId, y: AttemptId) {
    && CleanAt(x) in files && CleanAt(y) in files
    && files[CleanAt(x)].CleanupRecord? && files[CleanAt(y)].CleanupRecord?
    && files[CleanAt(x)].capacity == files[CleanAt(y)].capacity
  }

  ghost predicate OneCleanupPerCapacity(files: Files) {
    forall x, y :: CleansWith(files, x, y) ==> x == y
  }

  ghost predicate OneUnsettled(files: Files) {
    forall x, y :: Unsettled(files, x) && Unsettled(files, y) && x.cohort == y.cohort ==> x == y
  }

  ghost predicate ReceiptsSettle(files: Files) {
    forall x :: At(x) in files && ReceiptFile(x.cohort) in files ==> Settled(files, x)
  }

  ghost predicate FilesOk(files: Files, receiptSet: nat) {
    && AllFiled(files, receiptSet)
    && OneCompletion(files)
    && OneCleanupPerCapacity(files)
    && OneUnsettled(files)
    && ReceiptsSettle(files)
  }

  // ---- Docker's tags and the output directory ----

  function BaselineOf(files: Files, id: AttemptId): Option<ImageId> {
    if At(id) in files && files[At(id)].AttemptRecord? then files[At(id)].attempt.baseline else None
  }

  ghost predicate TagsOk(w: World) {
    && (forall id :: id in w.temporary ==> Unsettled(w.files, id) && DoneAt(id) !in w.files)
    && (forall id :: Unsettled(w.files, id) && OwnedAt(id) !in w.files ==>
          FinalTagOf(w, id.cohort) == BaselineOf(w.files, id))
    && (forall id :: DoneAt(id) in w.files && w.files[DoneAt(id)].CompletionRecord? ==>
          FinalTagOf(w, id.cohort) == Some(w.files[DoneAt(id)].receipt.second))
    && (forall c :: c in w.outputs ==> exists id :: Unsettled(w.files, id) && id.cohort == c)
    && (forall c, d :: c in w.outputs && d in w.outputs ==> c == d)
  }

  // ---- the run under way ----

  /** No attempt of the cohort is waiting for a resolution and the cohort has no receipt. */
  ghost predicate CohortFree(files: Files, c: Cohort) {
    && ReceiptFile(c) !in files
    && forall id :: At(id) in files && id.cohort == c ==> Settled(files, id)
  }

  ghost predicate Live(w: World, a: Attempt) {
    && HoldsAttempt(w.files, a) && a.cohort == a.id.cohort
    && Unsettled(w.files, a.id) && DoneAt(a.id) !in w.files && w.outputs <= {a.cohort}
  }

  ghost predicate OwnsImage(w: World, a: Attempt, image: ImageId) {
    OwnedAt(a.id) in w.files && w.files[OwnedAt(a.id)].OwnershipRecord? && w.files[OwnedAt(a.id)].image == image
  }

  ghost predicate OpenedOk(w: World, c: Capacity) {
    CapacityScoped(c, Qualification, w.receiptSet, c.cohort) && CohortFree(w.files, c.cohort)
  }

  ghost predicate SnapshotOk(w: World, c: Capacity, baseline: Option<ImageId>) {
    && OpenedOk(w, c) && HasManifest(w.files)
    && CapacityFile(c.cohort, c) in w.files
    && At(AttemptId(w.files[ManifestFile].manifest, c.cohort, c)) !in w.files
    && baseline == FinalTagOf(w, c.cohort) && w.outputs == {}
  }

  ghost predicate IntendedOk(w: World, a: Attempt) {
    Live(w, a) && OwnedAt(a.id) !in w.files && a.id !in w.temporary
  }

  ghost predicate FirstLoadedOk(w: World, a: Attempt, first: ImageId) {
    Live(w, a) && OwnedAt(a.id) !in w.files && a.id in w.temporary && w.temporary[a.id] == first
  }

  ghost predicate OwnedOk(w: World, a: Attempt, first: ImageId) {
    && Live(w, a) && OwnsImage(w, a, first) && a.id in w.temporary && w.temporary[a.id] == first
    && FinalTagOf(w, a.cohort) == a.baseline
  }

  ghost predicate SecondLoadedOk(w: World, a: Attempt, first: ImageId, second: ImageId) {
    Live(w, a) && OwnsImage(w, a, first) && FinalTagOf(w, a.cohort) == Some(second)
  }

  ghost predicate UnwindingOk(w: World, a: Attempt, built: Option<(ImageId, ImageId)>) {
    && Live(w, a) && w.outputs == {}
    && (built.Some? ==> built.value.0 == built.value.1 && SecondLoadedOk(w, a, built.value.0, built.value.1))
  }

  ghost predicate ReleasedOk(w: World, a: Attempt, first: ImageId, second: ImageId) {
    SecondLoadedOk(w, a, first, second) && first == second && w.outputs == {} && a.id !in w.temporary
  }

  ghost predicate CompletedOk(w: World, a: Attempt, receipt: Receipt) {
    && HoldsAttempt(w.files, a) && a.cohort == a.id.cohort && Unsettled(w.files, a.id)
    && CompletionFor(w.files, a.id, receipt)
    && w.outputs == {}
  }

  ghost predicate CleanupOpenedOk(w: World, c: Capacity, a: Attempt) {
    && CapacityScoped(c, Cleanup, w.receiptSet, a.cohort)
    && HoldsAttempt(w.files, a) && a.cohort == a.id.cohort && Unsettled(w.files, a.id) && DoneAt(a.id) !in w.files
  }

  ghost predicate CleanupSnapshotOk(w: World, c: Capacity, a: Attempt) {
    && CleanupOpenedOk(w, c, a) && w.outputs == {}
    && CapacityFile(c.cohort, c) in w.files && CapacityUnused(w.files, c)
  }

  ghost predicate RunOk(w: World) {
    && (w.run.MadeDirectory? ==> w.files == map[])
    && (!w.run.Idle? && !w.run.MadeDirectory? ==> HasManifest(w.files))
    && match w.run
       case Idle => true
       case MadeDirectory => true
       case Opened(c) => OpenedOk(w, c)
       case Snapshot(c, baseline) => SnapshotOk(w, c, baseline)
       case Intended(a) => IntendedOk(w, a)
       case FirstBuilt(a) => IntendedOk(w, a)
       case FirstLoaded(a, first) => FirstLoadedOk(w, a, first)
       case Owned(a, first) => OwnedOk(w, a, first)
       case SecondLoaded(a, first, second) => SecondLoadedOk(w, a, first, second)
       case Unwinding(a, built) => UnwindingOk(w, a, built)
       case Released(a, first, second) => ReleasedOk(w, a, first, second)
       case Completed(a, receipt) => CompletedOk(w, a, receipt)
       case CleanupOpened(c, a) => CleanupOpenedOk(w, c, a)
       case CleanupSnapshot(c, a) => CleanupSnapshotOk(w, c, a)
       case CleanupUntagged(c, a) => CleanupSnapshotOk(w, c, a) && a.id !in w.temporary
  }

  ghost predicate CapacityUnused(files: Files, c: Capacity) {
    forall id :: CleanAt(id) in files && files[CleanAt(id)].CleanupRecord? ==> files[CleanAt(id)].capacity != c
  }

  ghost predicate Inv(w: World) {
    && (!w.made ==> w.files == map[] && w.run.Idle?)
    && FilesOk(w.files, w.receiptSet)
    && TagsOk(w)
    && RunOk(w)
  }

  lemma InitialInv(w: World)
    requires Initial(w)
    ensures Inv(w)
  {
  }

  // ---- resolved means settled ----

  lemma ResolvedIsSettled(files: Files, receiptSet: nat, a: Attempt)
    requires FilesOk(files, receiptSet) && HasManifest(files) && a in Attempts(files)
    ensures HoldsAttempt(files, a) && a.id.cohort == a.cohort
    ensures Resolution(files, receiptSet, a) == Ok(Settled(files, a.id))
  {
    var n :| n in files && n.AttemptFile? && files[n].AttemptRecord? && files[n].attempt == a;
    assert Filed(files, receiptSet, n);
    assert n == At(a.id);
    Memberships(files, receiptSet, a.id);
    if CleanAt(a.id) in files {
      assert Filed(files, receiptSet, CleanAt(a.id));
      assert Filed(files, receiptSet, files[CleanAt(a.id)].capacityFile);
      if OwnedAt(a.id) in files { assert Filed(files, receiptSet, OwnedAt(a.id)); }
    } else if DoneAt(a.id) in files {
      assert Filed(files, receiptSet, DoneAt(a.id));
    }
  }

  lemma Memberships(files: Files, receiptSet: nat, id: AttemptId)
    requires FilesOk(files, receiptSet) && HasManifest(files)
    ensures id in Completions(files) <==> DoneAt(id) in files
    ensures id in Cleanups(files) <==> CleanAt(id) in files
    ensures id in Ownerships(files) <==> OwnedAt(id) in files
    ensures id in AttemptIds(files) <==> At(id) in files
  {
    forall n | n in files ensures Filed(files, receiptSet, n) {}
    if At(id) in files {
      assert Filed(files, receiptSet, At(id));
      assert files[At(id)].attempt in Attempts(files);
    }
    if id in AttemptIds(files) {
      var a :| a in Attempts(files) && a.id == id;
      var n :| n in files && n.AttemptFile? && files[n].AttemptRecord? && files[n].attempt == a;
      assert Filed(files, receiptSet, n);
    }
  }

  lemma UnresolvedAre(files: Files, receiptSet: nat, c: Cohort)
    requires FilesOk(files, receiptSet) && HasManifest(files)
    ensures forall a :: a in Unresolved(files, receiptSet, c) <==>
      HoldsAttempt(files, a) && a.cohort == c && Unsettled(files, a.id)
  {
    forall a ensures a in Unresolved(files, receiptSet, c) <==>
      HoldsAttempt(files, a) && a.cohort == c && Unsettled(files, a.id)
    {
      if HoldsAttempt(files, a) { assert a in Attempts(files); }
      if a in Attempts(files) { ResolvedIsSettled(files, receiptSet, a); }
    }
  }

  lemma AttemptNeedsCapacity(files: Files, receiptSet: nat, id: AttemptId)
    requires FilesOk(files, receiptSet) && HasManifest(files)
    ensures At(id) in files ==> CapacityFile(id.cohort, id.capacity) in files
  {
    if At(id) in files { assert Filed(files, receiptSet, At(id)); }
  }
}
