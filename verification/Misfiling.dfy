/** A cleanup record filed under another cohort than its attempt's: the reader collects its identity but never
    looks inside it again. */
module Misfiling {
  import opened Results
  import opened ReceiptSet
  import opened Recovery

  /** Such a record, readable by itself, at a name not used yet. */
  predicate Misfiled(files: Files, n: FileName, r: Record) {
    && n !in files && n.CleanupFile? && n.cohort != n.id.cohort
    && r.CleanupRecord? && r.cohort == n.cohort && r.id == n.id
  }

  lemma SameAttempts(files: Files, n: FileName, r: Record)
    requires Misfiled(files, n, r)
    ensures var after := files[n := r];
      && Attempts(after) == Attempts(files) && Completions(after) == Completions(files)
      && Ownerships(after) == Ownerships(files) && Cleanups(after) == Cleanups(files) + {n.id}
      && forall c :: CompletedAttempts(after, c) == CompletedAttempts(files, c)
  {
    ReadOneMore(files, n, r);
  }

  lemma SameReading(files: Files, receiptSet: nat, m: Manifest, n: FileName, r: Record)
    requires Misfiled(files, n, r)
    ensures AllReadable(files[n := r], receiptSet, m) <==> AllReadable(files, receiptSet, m)
  {
    var after := files[n := r];
    HostsKept(files, n, r);
    forall k | k in files ensures Readable(after, receiptSet, m, k) <==> Readable(files, receiptSet, m, k) {}
    assert AllReadable(after, receiptSet, m) ==> forall k :: k in files ==> Readable(after, receiptSet, m, k);
  }

  lemma SameReferences(files: Files, n: FileName, r: Record)
    requires Misfiled(files, n, r)
    ensures forall x :: Referenced(files[n := r], x) <==> Referenced(files, x)
    ensures forall k, x :: References(files[n := r], k, x) <==> References(files, k, x)
  {
    forall x ensures Referenced(files[n := r], x) <==> Referenced(files, x) { ReferencedAdded(files, n, r, x); }
  }

  /** What the resolution of a readable attempt comes to with the extra record: its own cleanup record still
      decides, and without one the attempt can no longer be decided. */
  lemma ResolutionWith(files: Files, receiptSet: nat, n: FileName, r: Record, a: Attempt)
    requires Misfiled(files, n, r) && a.cohort == a.id.cohort
    ensures var after := Resolution(files[n := r], receiptSet, a);
      if a.id != n.id || a.id in Cleanups(files) then after == Resolution(files, receiptSet, a)
      else if CleanupFile(a.cohort, a.id) in files && a.id !in Completions(files) then
        after == CleanupHolds(files, receiptSet, a)
      else after == Raised
  {
    SameAttempts(files, n, r);
  }

  /** What the set looks like apart from resolutions is the same with and without the record. */
  lemma ResolutionsSame(files: Files, receiptSet: nat, m: Manifest, n: FileName, r: Record)
    requires Misfiled(files, n, r) && AllReadable(files, receiptSet, m)
    requires CleanupFile(n.id.cohort, n.id) in files
    ensures forall a :: a in Attempts(files) ==>
      Resolution(files[n := r], receiptSet, a) == Resolution(files, receiptSet, a)
      && OwnedImage(files[n := r], a) == OwnedImage(files, a)
    ensures n.id in Cleanups(files)
  {
    forall a | a in Attempts(files) ensures Resolution(files[n := r], receiptSet, a) == Resolution(files, receiptSet, a) {
      ReadableCohort(files, receiptSet, m, a);
      ResolutionWith(files, receiptSet, n, r, a);
    }
  }

  lemma OwnCleanupNeeded(files: Files, receiptSet: nat, m: Manifest, n: FileName, r: Record)
    requires Misfiled(files, n, r) && GraphSound(files[n := r], receiptSet, m)
    ensures CleanupFile(n.id.cohort, n.id) in files
  {
    SameAttempts(files, n, r);
    SameReading(files, receiptSet, m, n, r);
    var a :| a in Attempts(files) && a.id == n.id;
    ReadableCohort(files, receiptSet, m, a);
    assert Resolution(files[n := r], receiptSet, a) == Ok(true);
    ResolutionWith(files, receiptSet, n, r, a);
  }

  /** An openable set keeps opening if and only if the attempt has its own cleanup record as well; and no such
      record ever makes a set openable that was not. */
  lemma MisfiledCleanup(files: Files, receiptSet: nat, m: Manifest, n: FileName, r: Record)
    requires Misfiled(files, n, r)
    ensures GraphSound(files[n := r], receiptSet, m) <==>
      GraphSound(files, receiptSet, m) && CleanupFile(n.id.cohort, n.id) in files
  {
    if GraphSound(files[n := r], receiptSet, m) {
      OwnCleanupNeeded(files, receiptSet, m, n, r);
      SoundWithout(files, receiptSet, m, n, r);
    } else if GraphSound(files, receiptSet, m) && CleanupFile(n.id.cohort, n.id) in files {
      SoundWith(files, receiptSet, m, n, r);
    }
  }

  lemma SoundWithout(files: Files, receiptSet: nat, m: Manifest, n: FileName, r: Record)
    requires Misfiled(files, n, r) && GraphSound(files[n := r], receiptSet, m)
    requires CleanupFile(n.id.cohort, n.id) in files
    ensures GraphSound(files, receiptSet, m)
  {
    SameAttempts(files, n, r);
    SameReading(files, receiptSet, m, n, r);
    SameReferences(files, n, r);
    ResolutionsSame(files, receiptSet, m, n, r);
    assert forall k, x :: References(files, k, x) ==> References(files[n := r], k, x);
  }

  lemma SoundWith(files: Files, receiptSet: nat, m: Manifest, n: FileName, r: Record)
    requires Misfiled(files, n, r) && GraphSound(files, receiptSet, m)
    requires CleanupFile(n.id.cohort, n.id) in files
    ensures GraphSound(files[n := r], receiptSet, m)
  {
    SameAttempts(files, n, r);
    SameReading(files, receiptSet, m, n, r);
    SameReferences(files, n, r);
    ResolutionsSame(files, receiptSet, m, n, r);
    var after := files[n := r];
    forall x | x in after && x.CapacityFile? ensures Referenced(after, x) { assert x in files && Referenced(files, x); }
    forall k, x | References(after, k, x) ensures x in after && x.CapacityFile? { assert References(files, k, x); }
    forall c: Cohort
      ensures if ReceiptFile(c) in after then |CompletedAttempts(after, c)| == 1 else CompletedAttempts(after, c) == {}
    {
      assert ReceiptFile(c) in after <==> ReceiptFile(c) in files;
    }
  }

  lemma ReadableCohort(files: Files, receiptSet: nat, m: Manifest, a: Attempt)
    requires AllReadable(files, receiptSet, m) && a in Attempts(files)
    ensures a.cohort == a.id.cohort
  {
    var k :| k in files && k.AttemptFile? && files[k].AttemptRecord? && files[k].attempt == a;
    assert Readable(files, receiptSet, m, k);
  }
}
