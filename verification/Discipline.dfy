/** What holds of the set in every reachable state, ruined or not. */
module Discipline {
  import opened Results
  import opened ReceiptSet
  import opened Protocol
  import opened ProtocolInvariant
  import opened ProtocolSteps
  import opened Recovery

  lemma AtMostOne<T>(s: set<T>)
    requires forall x, y :: x in s && y in s ==> x == y
    ensures |s| <= 1
  {
    if s != {} {
      var x :| x in s;
      assert s == {x};
    }
  }

  lemma CohortDiscipline(w0: World, es: seq<Event>, c: Cohort)
    requires Initial(w0) && Legal(w0, es)
    ensures var files := After(w0, es).files;
      && |Unresolved(files, w0.receiptSet, c)| <= 1
      && |CompletedAttempts(files, c)| <= 1
      && Completions(files) !! Cleanups(files)
      && (ReceiptFile(c) in files ==> Unresolved(files, w0.receiptSet, c) == {})
  {
    var w := After(w0, es);
    var files := w.files;
    InvAlways(w0, es);
    if files != map[] {
      OneUnresolved(files, w0.receiptSet, c);
      OneCompleted(files, w0.receiptSet, c);
      NeverBoth(files, w0.receiptSet);
    }
  }

  lemma OneUnresolved(files: Files, receiptSet: nat, c: Cohort)
    requires FilesOk(files, receiptSet) && HasManifest(files)
    ensures |Unresolved(files, receiptSet, c)| <= 1
    ensures ReceiptFile(c) in files ==> Unresolved(files, receiptSet, c) == {}
  {
    UnresolvedAre(files, receiptSet, c);
    forall a | a in Unresolved(files, receiptSet, c) ensures a.id.cohort == c {
      assert Filed(files, receiptSet, At(a.id));
    }
    AtMostOne(Unresolved(files, receiptSet, c));
  }

  lemma OneCompleted(files: Files, receiptSet: nat, c: Cohort)
    requires FilesOk(files, receiptSet) && HasManifest(files)
    ensures |CompletedAttempts(files, c)| <= 1
  {
    forall id | id in CompletedAttempts(files, c) ensures DoneAt(id) in files && id.cohort == c {
      CompletedIsDone(files, receiptSet, c, id);
    }
    AtMostOne(CompletedAttempts(files, c));
  }

  lemma NeverBoth(files: Files, receiptSet: nat)
    requires FilesOk(files, receiptSet) && HasManifest(files)
    ensures Completions(files) !! Cleanups(files)
  {
    forall id: AttemptId ensures !(id in Completions(files) && id in Cleanups(files)) {
      Memberships(files, receiptSet, id);
      if DoneAt(id) in files { assert Filed(files, receiptSet, DoneAt(id)); }
    }
  }

  /** A capacity record never serves two owners, and in a set that opens it always serves one. */
  lemma CapacityHasOneOwner(w0: World, es: seq<Event>, n: FileName)
    requires Initial(w0) && Legal(w0, es)
    requires n in After(w0, es).files && n.CapacityFile?
    ensures var files := After(w0, es).files;
      && (forall k1, k2 :: References(files, k1, n) && References(files, k2, n) ==> k1 == k2)
      && (forall binding, now :: Opens(files, w0.receiptSet, binding, now) ==> Referenced(files, n))
  {
    var w := After(w0, es);
    InvAlways(w0, es);
    forall k1, k2 | References(w.files, k1, n) && References(w.files, k2, n) ensures k1 == k2 {
      assert Filed(w.files, w0.receiptSet, k1) && Filed(w.files, w0.receiptSet, k2);
      if k1.CleanupFile? && k2.CleanupFile? { assert CleansWith(w.files, k1.id, k2.id); }
    }
  }

  // ---- records are only ever appended ----

  function FileWritten(w: World, e: Event): Option<FileName>
    requires e.WriteCapacity? ==> w.run.Opened? || w.run.CleanupOpened?
    requires e.WriteAttempt? ==> w.run.Snapshot? && HasManifest(w.files)
    requires e.WriteOwnership? ==> w.run.FirstLoaded?
    requires e.WriteCompletion? ==> w.run.Released?
    requires e.WriteReceipt? ==> w.run.Completed?
    requires e.WriteCleanup? ==> w.run.CleanupUntagged?
  {
    match e
    case WriteManifest(_) => Some(ManifestFile)
    case WriteCapacity => Some(CapacityFile(w.run.capacity.cohort, w.run.capacity))
    case WriteAttempt =>
      Some(AttemptFile(w.run.capacity.cohort,
                       AttemptId(w.files[ManifestFile].manifest, w.run.capacity.cohort, w.run.capacity)))
    case WriteOwnership => Some(OwnershipFile(w.run.attempt.cohort, w.run.attempt.id))
    case WriteCompletion(_) => Some(CompletionFile(w.run.attempt.cohort, w.run.attempt.id))
    case WriteReceipt => Some(ReceiptFile(w.run.attempt.cohort))
    case WriteCleanup => Some(CleanupFile(w.run.attempt.cohort, w.run.attempt.id))
    case _ => None
  }

  /** The file an event creates does not exist before it, so the exclusive create never fails, and the event
      changes nothing else in the directory. */
  lemma WritesAreFresh(w: World, e: Event)
    requires Inv(w) && Enabled(w, e)
    ensures Creates(w, e, Apply(w, e).files)
  {
    match e
    case WriteManifest(_) => assert w.files == map[];
    case WriteAttempt => assert SnapshotOk(w, w.run.capacity, w.run.baseline);
    case WriteOwnership => FreshInBuild(w, e);
    case WriteCompletion(_) => FreshInBuild(w, e);
    case WriteReceipt => FreshInBuild(w, e);
    case WriteCleanup => FreshCleanup(w);
    case _ =>
  }

  ghost predicate Creates(w: World, e: Event, after: Files)
    requires Enabled(w, e)
  {
    match FileWritten(w, e)
    case None => after == w.files
    case Some(n) => n !in w.files && n in after && after == w.files[n := after[n]]
  }

  lemma FreshInBuild(w: World, e: Event)
    requires RunOk(w) && Enabled(w, e) && (e.WriteOwnership? || e.WriteCompletion? || e.WriteReceipt?)
    ensures FileWritten(w, e).Some? && FileWritten(w, e).value !in w.files
  {
    match e
    case WriteOwnership => assert FirstLoadedOk(w, w.run.attempt, w.run.first);
    case WriteCompletion(_) => assert ReleasedOk(w, w.run.attempt, w.run.first, w.run.second);
    case WriteReceipt => assert CompletedOk(w, w.run.attempt, w.run.receipt);
  }

  lemma FreshCleanup(w: World)
    requires RunOk(w) && w.run.CleanupUntagged?
    ensures CleanupFile(w.run.attempt.cohort, w.run.attempt.id) !in w.files
  {
    assert CleanupSnapshotOk(w, w.run.capacity, w.run.attempt);
  }

  lemma {:induction false} Appended(w0: World, es: seq<Event>, more: seq<Event>)
    requires Initial(w0) && Legal(w0, es + more)
    ensures Legal(w0, es)
    ensures forall n :: n in After(w0, es).files ==>
      n in After(w0, es + more).files && After(w0, es + more).files[n] == After(w0, es).files[n]
    decreases |more|
  {
    if more == [] {
      assert es + more == es;
    } else {
      var shorter := more[..|more| - 1];
      assert (es + more)[..|es + more| - 1] == es + shorter;
      Appended(w0, es, shorter);
      InvAlways(w0, es + shorter);
      WritesAreFresh(After(w0, es + shorter), more[|more| - 1]);
    }
  }

  /** Once resolved, an attempt stays resolved whatever is appended. */
  lemma ResolvedForever(w0: World, es: seq<Event>, more: seq<Event>, a: Attempt)
    requires Initial(w0) && Legal(w0, es + more) && Legal(w0, es)
    requires a in Attempts(After(w0, es).files)
    requires Resolution(After(w0, es).files, w0.receiptSet, a) == Ok(true)
    ensures Resolution(After(w0, es + more).files, w0.receiptSet, a) == Ok(true)
  {
    var before, after := After(w0, es).files, After(w0, es + more).files;
    InvAlways(w0, es);
    InvAlways(w0, es + more);
    Appended(w0, es, more);
    ResolvedIsSettled(before, w0.receiptSet, a);
    assert HoldsAttempt(after, a);
    assert a in Attempts(after);
    ResolvedIsSettled(after, w0.receiptSet, a);
  }

  // ---- intent and ownership are on disk before the tags move ----

  ghost predicate Pending(w: World, a: Attempt) {
    a in Attempts(w.files) && Resolution(w.files, w.receiptSet, a) == Ok(false)
  }

  /** A temporary tag exists only while an attempt record that names it is unresolved. */
  lemma IntentBeforeTag(w0: World, es: seq<Event>, id: AttemptId)
    requires Initial(w0) && Legal(w0, es) && id in After(w0, es).temporary
    ensures exists a :: Pending(After(w0, es), a) && a.id == id
  {
    var w := After(w0, es);
    InvAlways(w0, es);
    assert Unsettled(w.files, id);
    assert Filed(w.files, w0.receiptSet, At(id));
    assert w.files[At(id)].attempt in Attempts(w.files);
    ResolvedIsSettled(w.files, w0.receiptSet, w.files[At(id)].attempt);
    assert Pending(w, w.files[At(id)].attempt);
  }

  /** A final tag has left an unresolved attempt's baseline only after its ownership record was written. */
  lemma OwnershipBeforeFinalTag(w0: World, es: seq<Event>, a: Attempt)
    requires Initial(w0) && Legal(w0, es) && Pending(After(w0, es), a)
    requires FinalTagOf(After(w0, es), a.cohort) != a.baseline
    ensures OwnedOf(After(w0, es).files, a).Some?
  {
    var w := After(w0, es);
    InvAlways(w0, es);
    ResolvedIsSettled(w.files, w0.receiptSet, a);
    assert OwnedAt(a.id) in w.files;
    assert Filed(w.files, w0.receiptSet, OwnedAt(a.id));
  }

  lemma ReceiptsAreProven(w0: World, es: seq<Event>, c: Cohort)
    requires Initial(w0) && Legal(w0, es) && ReceiptFile(c) in After(w0, es).files
    ensures ReceiptProven(After(w0, es), c)
  {
    var w := After(w0, es);
    InvAlways(w0, es);
    assert Filed(w.files, w0.receiptSet, ReceiptFile(c));
    var id :| CompletionFor(w.files, id, w.files[ReceiptFile(c)].receipt);
    assert Filed(w.files, w0.receiptSet, DoneAt(id));
    var a := w.files[DoneAt(id)].attempt;
    assert a in Attempts(w.files);
  }

  /** The receipt's two builds are one image, the one its attempt owned, and the final tag still names it. */
  ghost predicate ReceiptProven(w: World, c: Cohort)
    requires ReceiptFile(c) in w.files
  {
    var r := w.files[ReceiptFile(c)];
    && r.ReceiptRecord?
    && FinalTagOf(w, c) == Some(r.receipt.second)
    && exists a :: a in Attempts(w.files) && a.cohort == c && a.id in Completions(w.files)
         && OwnedOf(w.files, a) == Some(r.receipt.first) && r.receipt.first == r.receipt.second
  }

  /** Step `k` wrote this attempt's cleanup record: the temporary tag was gone by then, the final tag was
      accounted for, and the record says which of the two cases it saw. */
  ghost predicate CleanedAt(w0: World, es: seq<Event>, k: nat, id: AttemptId, r: Record)
    requires Legal(w0, es)
  {
    && k < |es| && es[k] == WriteCleanup && Legal(w0, es[..k]) && Enabled(After(w0, es[..k]), WriteCleanup)
    && After(w0, es[..k]).run.attempt.id == id
    && Witnessed(After(w0, es[..k]), r)
  }

  ghost predicate Witnessed(w: World, r: Record) {
    && r.CleanupRecord? && r.attempt.id !in w.temporary
    && match r.finalTag
       case BaselineUnchanged => FinalTagOf(w, r.attempt.cohort) == r.attempt.baseline
       case TaskOwnedRetained =>
         OwnedOf(w.files, r.attempt).Some? && FinalTagOf(w, r.attempt.cohort) == OwnedOf(w.files, r.attempt)
  }

  lemma CleanupWritten(w: World, e: Event, id: AttemptId)
    requires Inv(w) && Enabled(w, e) && CleanAt(id) !in w.files && CleanAt(id) in Apply(w, e).files
    ensures e == WriteCleanup && w.run.attempt.id == id && Witnessed(w, Apply(w, e).files[CleanAt(id)])
  {
    WritesAreFresh(w, e);
    assert e == WriteCleanup;
    assert CleanupSnapshotOk(w, w.run.capacity, w.run.attempt);
  }

  lemma CleanedLater(w0: World, es: seq<Event>, k: nat, id: AttemptId, r: Record)
    requires es != [] && Legal(w0, es) && CleanedAt(w0, es[..|es| - 1], k, id, r)
    ensures CleanedAt(w0, es, k, id, r)
  {
    assert es[..k] == es[..|es| - 1][..k];
  }

  /** Every cleanup record of every reachable store was witnessed when it was written. */
  lemma {:induction false} CleanupWitnessed(w0: World, es: seq<Event>, id: AttemptId)
    requires Initial(w0) && Legal(w0, es) && CleanAt(id) in After(w0, es).files
    ensures exists k: nat :: CleanedAt(w0, es, k, id, After(w0, es).files[CleanAt(id)])
    decreases |es|
  {
    var init, e := es[..|es| - 1], es[|es| - 1];
    var w := After(w0, init);
    InvAlways(w0, init);
    WritesAreFresh(w, e);
    if CleanAt(id) in w.files {
      CleanupWitnessed(w0, init, id);
      var k: nat :| CleanedAt(w0, init, k, id, w.files[CleanAt(id)]);
      CleanedLater(w0, es, k, id, w.files[CleanAt(id)]);
    } else {
      CleanupWritten(w, e, id);
      assert CleanedAt(w0, es, |init|, id, After(w0, es).files[CleanAt(id)]);
    }
  }
}
