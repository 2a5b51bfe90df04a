/** Every event keeps the invariant. */
module ProtocolSteps {
  import opened Results
  import opened ReceiptSet
  import opened Protocol
  import opened ProtocolInvariant

  // ---- writing one new file ----

  /** The new file does not contradict what an older file says is absent. */
  ghost predicate Compatible(files: Files, n: FileName, r: Record) {
    && n !in files && n != ManifestFile
    && (n.CleanupFile? ==> n.cohort == n.id.cohort && DoneAt(n.id) !in files)
    && (n.CompletionFile? ==> n.cohort == n.id.cohort && CleanAt(n.id) !in files)
    && (n.ReceiptFile? ==>
          forall id :: DoneAt(id) in files && id.cohort == n.cohort && files[DoneAt(id)].CompletionRecord? ==>
            r == ReceiptRecord(files[DoneAt(id)].receipt))
  }

  lemma FiledPersists(files: Files, receiptSet: nat, n: FileName, r: Record, k: FileName)
    requires HasManifest(files) && Compatible(files, n, r)
    requires k in files && Filed(files, receiptSet, k)
    ensures Filed(files[n := r], receiptSet, k)
  {
    var after := files[n := r];
    assert forall j :: j in files ==> j in after && after[j] == files[j];
    if k.ReceiptFile? {
      var id :| CompletionFor(files, id, files[k].receipt);
      assert CompletionFor(after, id, after[k].receipt);
    }
  }

  lemma FileAdded(files: Files, receiptSet: nat, n: FileName, r: Record)
    requires AllFiled(files, receiptSet) && HasManifest(files) && Compatible(files, n, r)
    requires Filed(files[n := r], receiptSet, n)
    ensures AllFiled(files[n := r], receiptSet)
  {
    forall k | k in files && k != n ensures Filed(files[n := r], receiptSet, k) {
      FiledPersists(files, receiptSet, n, r, k);
    }
  }

  /** A capacity, attempt or ownership record leaves every older attempt as settled as it was. */
  lemma SettledUnchanged(files: Files, n: FileName, r: Record)
    requires n.CapacityFile? || n.AttemptFile? || n.OwnershipFile?
    ensures forall id :: Settled(files[n := r], id) == Settled(files, id)
    ensures forall id :: At(id) != n ==> Unsettled(files[n := r], id) == Unsettled(files, id)
  {
  }

  lemma CapacityFiles(files: Files, receiptSet: nat, c: Capacity)
    requires FilesOk(files, receiptSet) && HasManifest(files)
    requires CapacityScoped(c, c.operation, receiptSet, c.cohort) && CapacityFile(c.cohort, c) !in files
    ensures FilesOk(files[CapacityFile(c.cohort, c) := CapacityRecord(c)], receiptSet)
    ensures CapacityUnused(files[CapacityFile(c.cohort, c) := CapacityRecord(c)], c)
    ensures At(AttemptId(files[ManifestFile].manifest, c.cohort, c)) !in files
  {
    var n, r := CapacityFile(c.cohort, c), CapacityRecord(c);
    var after := files[n := r];
    FileAdded(files, receiptSet, n, r);
    SettledUnchanged(files, n, r);
    assert forall x, y :: CleansWith(after, x, y) <==> CleansWith(files, x, y);
    forall id | CleanAt(id) in files ensures files[CleanAt(id)].capacity != c {
      assert Filed(files, receiptSet, CleanAt(id));
    }
    var id := AttemptId(files[ManifestFile].manifest, c.cohort, c);
  }

  lemma AttemptFiles(files: Files, receiptSet: nat, c: Capacity, baseline: Option<ImageId>)
    requires FilesOk(files, receiptSet) && HasManifest(files)
    requires c.operation == Qualification && CapacityFile(c.cohort, c) in files && CohortFree(files, c.cohort)
    requires At(AttemptId(files[ManifestFile].manifest, c.cohort, c)) !in files
    ensures var a := NewAttempt(files[ManifestFile].manifest, c, baseline);
      var after := files[At(a.id) := AttemptRecord(a)];
      FilesOk(after, receiptSet) && HoldsAttempt(after, a) && Unsettled(after, a.id)
      && DoneAt(a.id) !in after && OwnedAt(a.id) !in after
  {
    var a := NewAttempt(files[ManifestFile].manifest, c, baseline);
    var n, r := At(a.id), AttemptRecord(a);
    var after := files[n := r];
    FileAdded(files, receiptSet, n, r);
    SettledUnchanged(files, n, r);
    assert forall x, y :: CleansWith(after, x, y) <==> CleansWith(files, x, y);
    assert forall x :: At(x) == n ==> x == a.id;
  }

  lemma OwnershipFiles(files: Files, receiptSet: nat, a: Attempt, image: ImageId)
    requires FilesOk(files, receiptSet) && HasManifest(files)
    requires HoldsAttempt(files, a) && OwnedAt(a.id) !in files && a.cohort == a.id.cohort
    ensures FilesOk(files[OwnedAt(a.id) := OwnershipRecord(a.cohort, a.id, a, image)], receiptSet)
  {
    var n, r := OwnedAt(a.id), OwnershipRecord(a.cohort, a.id, a, image);
    var after := files[n := r];
    FileAdded(files, receiptSet, n, r);
    SettledUnchanged(files, n, r);
    assert forall x, y :: CleansWith(after, x, y) <==> CleansWith(files, x, y);
  }

  /** While an attempt without a completion is unsettled, its cohort has no completion at all. */
  lemma NoCompletionInCohort(files: Files, receiptSet: nat, id: AttemptId)
    requires FilesOk(files, receiptSet) && HasManifest(files)
    requires Unsettled(files, id) && DoneAt(id) !in files
    ensures forall x: AttemptId :: x.cohort == id.cohort ==> DoneAt(x) !in files
  {
    forall x: AttemptId | DoneAt(x) in files && x.cohort == id.cohort ensures false {
    }
  }

  lemma CompletionFiles(files: Files, receiptSet: nat, a: Attempt, receipt: Receipt)
    requires FilesOk(files, receiptSet) && HasManifest(files)
    requires HoldsAttempt(files, a) && a.cohort == a.id.cohort && Unsettled(files, a.id) && DoneAt(a.id) !in files
    requires OwnedAt(a.id) in files && files[OwnedAt(a.id)].OwnershipRecord?
    requires receipt.cohort == a.cohort && receipt.first == receipt.second == files[OwnedAt(a.id)].image
    ensures var after := files[DoneAt(a.id) := CompletionRecord(a.cohort, a.id, a, receipt)];
      FilesOk(after, receiptSet) && HoldsAttempt(after, a) && Unsettled(after, a.id)
      && forall id :: Settled(after, id) == Settled(files, id)
  {
    var n, r := DoneAt(a.id), CompletionRecord(a.cohort, a.id, a, receipt);
    var after := files[n := r];
    assert ReceiptFile(a.cohort) !in files;
    FileAdded(files, receiptSet, n, r);
    assert forall id :: DoneAt(id) == n ==> id == a.id;
    assert forall x, y :: CleansWith(after, x, y) <==> CleansWith(files, x, y);
    NoCompletionInCohort(files, receiptSet, a.id);
  }

  lemma ReceiptFiles(files: Files, receiptSet: nat, a: Attempt, receipt: Receipt)
    requires FilesOk(files, receiptSet) && HasManifest(files)
    requires HoldsAttempt(files, a) && a.cohort == a.id.cohort && Unsettled(files, a.id)
    requires CompletionFor(files, a.id, receipt)
    ensures FilesOk(files[ReceiptFile(a.cohort) := ReceiptRecord(receipt)], receiptSet)
  {
    var n, r := ReceiptFile(a.cohort), ReceiptRecord(receipt);
    var after := files[n := r];
    assert Filed(files, receiptSet, DoneAt(a.id));
    assert CompletionFor(after, a.id, receipt);
    FileAdded(files, receiptSet, n, r);
    assert forall x, y :: CleansWith(after, x, y) <==> CleansWith(files, x, y);
    forall x | At(x) in files && x.cohort == a.cohort ensures Settled(after, x) {
      assert Unsettled(files, x) ==> x == a.id;
    }
  }

  lemma CleanupFiles(files: Files, receiptSet: nat, a: Attempt, c: Capacity, tag: FinalTag)
    requires FilesOk(files, receiptSet) && HasManifest(files)
    requires HoldsAttempt(files, a) && a.cohort == a.id.cohort && Unsettled(files, a.id) && DoneAt(a.id) !in files
    requires c.operation == Cleanup && c.cohort == a.cohort && CapacityFile(c.cohort, c) in files
    requires CapacityUnused(files, c)
    requires tag == TaskOwnedRetained ==> OwnedAt(a.id) in files
    ensures FilesOk(files[CleanAt(a.id) :=
      CleanupRecord(a.cohort, a.id, a, CapacityFile(c.cohort, c), c, true, tag)], receiptSet)
  {
    var n, r := CleanAt(a.id), CleanupRecord(a.cohort, a.id, a, CapacityFile(c.cohort, c), c, true, tag);
    var after := files[n := r];
    FileAdded(files, receiptSet, n, r);
    assert forall x :: CleanAt(x) == n ==> x == a.id;
    assert forall x :: x != a.id ==> Settled(after, x) == Settled(files, x);
    forall x, y | CleansWith(after, x, y) ensures x == y {
      assert x != a.id && y != a.id ==> CleansWith(files, x, y);
    }
  }

  // ---- one lemma per event ----

  lemma StopKeeps(w: World, e: Event)
    requires Inv(w) && Enabled(w, e) && (e.Stop? || e.MakeDirectory? || e.RemoveDirectory? || e.WriteManifest?)
    ensures Inv(Apply(w, e))
  {
    var w' := Apply(w, e);
    assert w'.final == w.final && w'.temporary == w.temporary && w'.outputs == w.outputs;
    if e.WriteManifest? {
      assert forall id :: At(id) !in w'.files && OwnedAt(id) !in w'.files && DoneAt(id) !in w'.files;
    }
  }

  lemma OpenQualification(w: World, gate: Capacity)
    requires FilesOk(w.files, w.receiptSet) && HasManifest(w.files)
    requires CapacityScoped(gate, Qualification, w.receiptSet, gate.cohort)
    requires ReceiptFile(gate.cohort) !in w.files && Unresolved(w.files, w.receiptSet, gate.cohort) == {}
    ensures OpenedOk(w, gate)
  {
    UnresolvedAre(w.files, w.receiptSet, gate.cohort);
    forall id | At(id) in w.files && id.cohort == gate.cohort ensures Settled(w.files, id) {
      var a := w.files[At(id)].attempt;
      assert HoldsAttempt(w.files, a);
      assert a !in Unresolved(w.files, w.receiptSet, gate.cohort);
    }
  }

  lemma OpenCleanup(w: World, gate: Capacity, a: Attempt)
    requires FilesOk(w.files, w.receiptSet) && HasManifest(w.files)
    requires GraphSound(w.files, w.receiptSet, w.files[ManifestFile].manifest)
    requires CapacityScoped(gate, Cleanup, w.receiptSet, gate.cohort)
    requires a in Unresolved(w.files, w.receiptSet, gate.cohort)
    ensures CleanupOpenedOk(w, gate, a) && a.cohort == gate.cohort
  {
    UnresolvedAre(w.files, w.receiptSet, gate.cohort);
    assert Filed(w.files, w.receiptSet, At(a.id));
    if DoneAt(a.id) in w.files { NothingPending(w.files, w.receiptSet, a.id); }
  }

  /** In a set that opens, a completion is never without its receipt. */
  lemma NothingPending(files: Files, receiptSet: nat, id: AttemptId)
    requires FilesOk(files, receiptSet) && HasManifest(files)
    requires GraphSound(files, receiptSet, files[ManifestFile].manifest)
    requires DoneAt(id) in files
    ensures ReceiptFile(id.cohort) in files
  {
    Memberships(files, receiptSet, id);
    var a := files[DoneAt(id)].attempt;
    assert a in Attempts(files);
    assert id in CompletedAttempts(files, id.cohort);
  }

  // ---- tags and outputs, effect by effect ----

  /** A capacity or ownership record, or an attempt that recorded the current final tag, leaves the tags in order. */
  lemma TagsAfterFile(w: World, n: FileName, r: Record)
    requires TagsOk(w) && n !in w.files
    requires n.CapacityFile? || n.OwnershipFile? ||
      (n.AttemptFile? && r.AttemptRecord? && r.attempt.baseline == FinalTagOf(w, n.cohort))
    ensures TagsOk(w.(files := w.files[n := r]))
  {
    SettledUnchanged(w.files, n, r);
    var w' := w.(files := w.files[n := r]);
    assert forall id :: Unsettled(w.files, id) ==> Unsettled(w'.files, id);
  }

  lemma TagsAfterRun(w: World, run: Run)
    requires TagsOk(w)
    ensures TagsOk(w.(run := run))
  {
  }

  lemma TagsAfterCompletion(w: World, a: Attempt, r: Record)
    requires TagsOk(w) && DoneAt(a.id) !in w.files && a.id !in w.temporary
    requires forall id :: Settled(w.files[DoneAt(a.id) := r], id) == Settled(w.files, id)
    requires r.CompletionRecord? && FinalTagOf(w, a.id.cohort) == Some(r.receipt.second)
    ensures TagsOk(w.(files := w.files[DoneAt(a.id) := r]))
  {
    var w' := w.(files := w.files[DoneAt(a.id) := r]);
    assert forall id :: Unsettled(w'.files, id) == Unsettled(w.files, id);
  }

  lemma TagsAfterReceipt(w: World, a: Attempt, r: Record)
    requires TagsOk(w) && OneUnsettled(w.files) && w.outputs == {}
    requires a.cohort == a.id.cohort && Unsettled(w.files, a.id) && DoneAt(a.id) in w.files
    ensures TagsOk(w.(files := w.files[ReceiptFile(a.cohort) := r]))
  {
    var w' := w.(files := w.files[ReceiptFile(a.cohort) := r]);
    assert forall id: AttemptId :: id.cohort != a.cohort ==> Unsettled(w'.files, id) == Unsettled(w.files, id);
    assert forall id: AttemptId :: id.cohort == a.cohort && Unsettled(w.files, id) ==> id == a.id;
    assert forall id :: Unsettled(w'.files, id) ==> Unsettled(w.files, id);
  }

  lemma TagsAfterCleanup(w: World, a: Attempt, r: Record)
    requires TagsOk(w) && a.id !in w.temporary && w.outputs == {}
    ensures TagsOk(w.(files := w.files[CleanAt(a.id) := r]))
  {
    var w' := w.(files := w.files[CleanAt(a.id) := r]);
    assert forall id :: id != a.id ==> Unsettled(w'.files, id) == Unsettled(w.files, id);
    assert forall id :: Unsettled(w'.files, id) ==> Unsettled(w.files, id);
  }

  lemma TagsAfterOutputs(w: World, a: Attempt, outputs: set<Cohort>)
    requires TagsOk(w) && Unsettled(w.files, a.id) && a.cohort == a.id.cohort
    requires outputs <= {a.cohort} || outputs <= w.outputs
    ensures TagsOk(w.(outputs := outputs))
  {
  }

  lemma TagsAfterTemporary(w: World, a: Attempt, temporary: map<AttemptId, ImageId>)
    requires TagsOk(w) && Unsettled(w.files, a.id) && DoneAt(a.id) !in w.files
    requires temporary.Keys <= w.temporary.Keys + {a.id}
    ensures TagsOk(w.(temporary := temporary))
  {
  }

  lemma TagsAfterFinal(w: World, a: Attempt, image: ImageId)
    requires TagsOk(w) && FilesOk(w.files, w.receiptSet) && HasManifest(w.files)
    requires Unsettled(w.files, a.id) && a.cohort == a.id.cohort
    requires OwnedAt(a.id) in w.files && DoneAt(a.id) !in w.files
    ensures TagsOk(w.(final := w.final[a.cohort := image]))
  {
    var w' := w.(final := w.final[a.cohort := image]);
    assert forall c: Cohort :: c != a.cohort ==> FinalTagOf(w', c) == FinalTagOf(w, c);
    assert forall id :: Unsettled(w.files, id) && id.cohort == a.cohort ==> id == a.id;
    NoCompletionInCohort(w.files, w.receiptSet, a.id);
  }

  // ---- the run, effect by effect ----

  lemma AfterCapacity(w: World, w': World)
    requires FilesOk(w.files, w.receiptSet) && HasManifest(w.files) && TagsOk(w)
    requires w.run.Opened? || w.run.CleanupOpened?
    requires if w.run.Opened? then OpenedOk(w, w.run.capacity)
             else CleanupOpenedOk(w, w.run.capacity, w.run.attempt)
    requires var c := w.run.capacity; CapacityFile(c.cohort, c) !in w.files && w.outputs == {}
    requires var c := w.run.capacity;
      w' == w.(files := w.files[CapacityFile(c.cohort, c) := CapacityRecord(c)],
               run := if w.run.Opened? then Snapshot(c, FinalTagOf(w, c.cohort))
                      else CleanupSnapshot(c, w.run.attempt))
    ensures FilesOk(w'.files, w'.receiptSet) && TagsOk(w') && RunOk(w')
  {
    var c := w.run.capacity;
    CapacityFiles(w.files, w.receiptSet, c);
    SettledUnchanged(w.files, CapacityFile(c.cohort, c), CapacityRecord(c));
    TagsAfterFile(w, CapacityFile(c.cohort, c), CapacityRecord(c));
    TagsAfterRun(w.(files := w'.files), w'.run);
  }

  lemma AfterAttempt(w: World, w': World)
    requires FilesOk(w.files, w.receiptSet) && HasManifest(w.files) && TagsOk(w)
    requires w.run.Snapshot? && SnapshotOk(w, w.run.capacity, w.run.baseline)
    requires var a := NewAttempt(w.files[ManifestFile].manifest, w.run.capacity, w.run.baseline);
      w' == w.(files := w.files[At(a.id) := AttemptRecord(a)], run := Intended(a))
    ensures FilesOk(w'.files, w'.receiptSet) && TagsOk(w') && RunOk(w')
  {
    var a := NewAttempt(w.files[ManifestFile].manifest, w.run.capacity, w.run.baseline);
    AttemptFiles(w.files, w.receiptSet, w.run.capacity, w.run.baseline);
    TagsAfterFile(w, At(a.id), AttemptRecord(a));
    TagsAfterRun(w.(files := w'.files), w'.run);
    assert a.id in w.temporary ==> Unsettled(w.files, a.id);
  }

  lemma AfterOwnership(w: World, w': World)
    requires FilesOk(w.files, w.receiptSet) && HasManifest(w.files) && TagsOk(w)
    requires w.run.FirstLoaded? && FirstLoadedOk(w, w.run.attempt, w.run.first)
    requires var a := w.run.attempt;
      w' == w.(files := w.files[OwnedAt(a.id) := OwnershipRecord(a.cohort, a.id, a, w.run.first)],
               run := Owned(a, w.run.first))
    ensures FilesOk(w'.files, w'.receiptSet) && TagsOk(w') && RunOk(w')
  {
    var a, r := w.run.attempt, OwnershipRecord(w.run.attempt.cohort, w.run.attempt.id, w.run.attempt, w.run.first);
    OwnershipFiles(w.files, w.receiptSet, a, w.run.first);
    SettledUnchanged(w.files, OwnedAt(a.id), r);
    TagsAfterFile(w, OwnedAt(a.id), r);
    TagsAfterRun(w.(files := w'.files), w'.run);
  }

  lemma AfterCompletion(w: World, w': World, observedAt: int)
    requires FilesOk(w.files, w.receiptSet) && HasManifest(w.files) && TagsOk(w)
    requires w.run.Released? && ReleasedOk(w, w.run.attempt, w.run.first, w.run.second)
    requires var a := w.run.attempt;
      var receipt := Receipt(a.cohort, w.run.first, w.run.second, observedAt);
      w' == w.(files := w.files[DoneAt(a.id) := CompletionRecord(a.cohort, a.id, a, receipt)],
               run := Completed(a, receipt))
    ensures FilesOk(w'.files, w'.receiptSet) && TagsOk(w') && RunOk(w')
  {
    var a := w.run.attempt;
    var receipt := Receipt(a.cohort, w.run.first, w.run.second, observedAt);
    CompletionFiles(w.files, w.receiptSet, a, receipt);
    TagsAfterCompletion(w, a, CompletionRecord(a.cohort, a.id, a, receipt));
    TagsAfterRun(w.(files := w'.files), w'.run);
  }

  lemma AfterReceipt(w: World, w': World)
    requires FilesOk(w.files, w.receiptSet) && HasManifest(w.files) && TagsOk(w)
    requires w.run.Completed? && CompletedOk(w, w.run.attempt, w.run.receipt)
    requires w' == w.(files := w.files[ReceiptFile(w.run.attempt.cohort) := ReceiptRecord(w.run.receipt)], run := Idle)
    ensures FilesOk(w'.files, w'.receiptSet) && TagsOk(w') && RunOk(w')
  {
    ReceiptFiles(w.files, w.receiptSet, w.run.attempt, w.run.receipt);
    TagsAfterReceipt(w, w.run.attempt, ReceiptRecord(w.run.receipt));
    TagsAfterRun(w.(files := w'.files), w'.run);
  }

  lemma AfterCleanup(w: World, w': World, tag: FinalTag)
    requires FilesOk(w.files, w.receiptSet) && HasManifest(w.files) && TagsOk(w)
    requires w.run.CleanupUntagged? && CleanupSnapshotOk(w, w.run.capacity, w.run.attempt)
    requires w.run.attempt.id !in w.temporary
    requires tag == TaskOwnedRetained ==> OwnedAt(w.run.attempt.id) in w.files
    requires var a, c := w.run.attempt, w.run.capacity;
      w' == w.(files := w.files[CleanAt(a.id) :=
                 CleanupRecord(a.cohort, a.id, a, CapacityFile(c.cohort, c), c, true, tag)], run := Idle)
    ensures FilesOk(w'.files, w'.receiptSet) && TagsOk(w') && RunOk(w')
  {
    var a, c := w.run.attempt, w.run.capacity;
    CleanupFiles(w.files, w.receiptSet, a, c, tag);
    TagsAfterCleanup(w, a, CleanupRecord(a.cohort, a.id, a, CapacityFile(c.cohort, c), c, true, tag));
    TagsAfterRun(w.(files := w'.files), w'.run);
  }

  lemma AfterBuild(w: World, w': World, image: ImageId)
    requires FilesOk(w.files, w.receiptSet) && HasManifest(w.files) && TagsOk(w) && RunOk(w)
    requires
      || (w.run.Intended? && w' == w.(outputs := w.outputs + {w.run.attempt.cohort}, run := FirstBuilt(w.run.attempt)))
      || (w.run.FirstBuilt? && w' ==
            w.(temporary := w.temporary[w.run.attempt.id := image], run := FirstLoaded(w.run.attempt, image)))
      || (w.run.Owned? && w' ==
            w.(final := w.final[w.run.attempt.cohort := image],
               run := SecondLoaded(w.run.attempt, w.run.first, image)))
    ensures FilesOk(w'.files, w'.receiptSet) && TagsOk(w') && RunOk(w')
  {
    var a := w.run.attempt;
    if w.run.Intended? {
      TagsAfterOutputs(w, a, w'.outputs);
      TagsAfterRun(w.(outputs := w'.outputs), w'.run);
    } else if w.run.FirstBuilt? {
      TagsAfterTemporary(w, a, w'.temporary);
      TagsAfterRun(w.(temporary := w'.temporary), w'.run);
    } else {
      TagsAfterFinal(w, a, image);
      TagsAfterRun(w.(final := w'.final), w'.run);
    }
  }

  lemma AfterOutputs(w: World, w': World, built: Option<(ImageId, ImageId)>)
    requires FilesOk(w.files, w.receiptSet) && HasManifest(w.files) && TagsOk(w)
    requires w.run.Intended? || w.run.FirstBuilt? || w.run.FirstLoaded? || w.run.Owned? || w.run.SecondLoaded?
    requires Live(w, w.run.attempt)
    requires built.Some? ==>
      (built.value.0 == built.value.1 && SecondLoadedOk(w, w.run.attempt, built.value.0, built.value.1))
    requires w' == w.(outputs := w.outputs - {w.run.attempt.cohort}, run := Unwinding(w.run.attempt, built))
    ensures FilesOk(w'.files, w'.receiptSet) && TagsOk(w') && RunOk(w')
  {
    TagsAfterOutputs(w, w.run.attempt, w'.outputs);
    TagsAfterRun(w.(outputs := w'.outputs), w'.run);
  }

  lemma AfterUntag(w: World, w': World)
    requires FilesOk(w.files, w.receiptSet) && HasManifest(w.files) && TagsOk(w) && RunOk(w)
    requires w.run.Unwinding? || w.run.CleanupSnapshot?
    requires w' == w.(temporary := w.temporary - {w.run.attempt.id}, run := w'.run)
    requires w'.run ==
      if w.run.CleanupSnapshot? then CleanupUntagged(w.run.capacity, w.run.attempt)
      else if w.run.built.Some? then Released(w.run.attempt, w.run.built.value.0, w.run.built.value.1)
      else Idle
    ensures FilesOk(w'.files, w'.receiptSet) && TagsOk(w') && RunOk(w')
  {
    TagsAfterTemporary(w, w.run.attempt, w'.temporary);
    TagsAfterRun(w.(temporary := w'.temporary), w'.run);
  }

  lemma AfterOpen(w: World, e: Event)
    requires Inv(w) && e.Open? && Enabled(w, e)
    ensures Inv(Apply(w, e))
  {
    var w' := Apply(w, e);
    if e.gate.operation == Qualification {
      OpenQualification(w, e.gate);
      TagsAfterRun(w, w'.run);
    } else {
      var a := Sole(Unresolved(w.files, w.receiptSet, e.gate.cohort));
      OpenCleanup(w, e.gate, a);
      TagsAfterOutputs(w, a, w'.outputs);
      TagsAfterRun(w.(outputs := w'.outputs), w'.run);
    }
  }

  lemma Kept(w: World, e: Event)
    requires Inv(w) && Enabled(w, e)
    ensures Inv(Apply(w, e))
  {
    var w' := Apply(w, e);
    match e
    case MakeDirectory => StopKeeps(w, e);
    case RemoveDirectory => StopKeeps(w, e);
    case WriteManifest(_) => StopKeeps(w, e);
    case Open(_, _, _) => AfterOpen(w, e);
    case WriteCapacity => AfterCapacity(w, w');
    case WriteAttempt => AfterAttempt(w, w');
    case BuildFirst => AfterBuild(w, w', 0);
    case LoadFirst(image) => AfterBuild(w, w', image);
    case WriteOwnership => KeptByRecord(w, e);
    case LoadSecond(image) => AfterBuild(w, w', image);
    case RemoveOutputs(succeeded) => AfterOutputs(w, w', w'.run.built);
    case RemoveTemporaryTag => AfterUntag(w, w');
    case WriteCompletion(_) => KeptByRecord(w, e);
    case WriteReceipt => KeptByRecord(w, e);
    case WriteCleanup => KeptByRecord(w, e);
    case Stop => StopKeeps(w, e);
  }

  lemma KeptByRecord(w: World, e: Event)
    requires Inv(w) && Enabled(w, e)
    requires e.WriteOwnership? || e.WriteCompletion? || e.WriteReceipt? || e.WriteCleanup?
    ensures Inv(Apply(w, e))
  {
    var w' := Apply(w, e);
    match e
    case WriteOwnership => AfterOwnership(w, w');
    case WriteCompletion(observedAt) => AfterCompletion(w, w', observedAt);
    case WriteReceipt => AfterReceipt(w, w');
    case WriteCleanup =>
      AfterCleanup(w, w', if FinalTagOf(w, w.run.attempt.cohort) == w.run.attempt.baseline
                          then BaselineUnchanged else TaskOwnedRetained);
  }
}
