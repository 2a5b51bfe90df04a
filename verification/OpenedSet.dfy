/** What a set that opens holds, record by record, whatever wrote it.  Each statement is read off the files
    themselves; none of the functions that check a set appears in it. */
module OpenedSet {
  import opened Results
  import opened ReceiptSet
  import opened Protocol
  import HostCapacity

  /** An attempt record under its own identity, bound to the set's manifest and to the capacity it was admitted by. */
  predicate AttemptFiled(files: Files, m: Manifest, a: Attempt) {
    var n := AttemptFile(a.cohort, AttemptId(m, a.cohort, a.capacity));
    && n in files && files[n] == AttemptRecord(a)
    && a.id == AttemptId(m, a.cohort, a.capacity) && a.manifest == m
    && a.capacityFile in files && files[a.capacityFile] == CapacityRecord(a.capacity)
  }

  lemma OpenedAttempt(files: Files, receiptSet: nat, m: Manifest, c: Cohort, id: AttemptId)
    requires GraphSound(files, receiptSet, m) && AttemptFile(c, id) in files
    ensures var r := files[AttemptFile(c, id)];
      r.AttemptRecord? && r.attempt.id == id && r.attempt.cohort == c && AttemptFiled(files, m, r.attempt)
  {
    assert Readable(files, receiptSet, m, AttemptFile(c, id));
  }

  lemma AttemptOf(files: Files, receiptSet: nat, m: Manifest, id: AttemptId) returns (a: Attempt)
    requires GraphSound(files, receiptSet, m) && id in AttemptIds(files)
    ensures AttemptFiled(files, m, a) && a.id == id && a in Attempts(files)
  {
    a :| a in Attempts(files) && a.id == id;
    var n :| n in files && n.AttemptFile? && files[n].AttemptRecord? && files[n].attempt == a;
    OpenedAttempt(files, receiptSet, m, n.cohort, n.id);
  }

  /** A capacity record names what it holds, is scoped to this set, rests on an admissible observation that no
      other record rests on, and some attempt or cleanup refers to it. */
  lemma OpenedCapacity(files: Files, receiptSet: nat, m: Manifest, c: Cohort, capacity: Capacity)
    requires GraphSound(files, receiptSet, m) && CapacityFile(c, capacity) in files
    ensures files[CapacityFile(c, capacity)] == CapacityRecord(capacity)
    ensures capacity.receiptSet == receiptSet && capacity.cohort == c && HostCapacity.ReceiptStands(capacity.host)
    ensures forall d, other :: CapacityFile(d, other) in files && other.host == capacity.host ==>
      d == c && other == capacity
    ensures exists k :: k in files && Cites(k, files[k], CapacityFile(c, capacity))
  {
    var n := CapacityFile(c, capacity);
    assert Readable(files, receiptSet, m, n);
    HostCapacity.StandsExactly(capacity.host);
    forall d, other | CapacityFile(d, other) in files && other.host == capacity.host ensures d == c && other == capacity {
      assert SameHost(files, n, CapacityFile(d, other));
    }
    assert Referenced(files, n);
    var k :| References(files, k, n);
    assert Cites(k, files[k], n);
  }

  predicate Cites(k: FileName, r: Record, n: FileName) {
    || (k.AttemptFile? && r.AttemptRecord? && r.attempt.capacityFile == n)
    || (k.CleanupFile? && r.CleanupRecord? && r.capacityFile == n)
  }

  /** An ownership record belongs to an attempt, and the one under the attempt's own cohort is about that very
      attempt. */
  lemma OpenedOwnership(files: Files, receiptSet: nat, m: Manifest, c: Cohort, id: AttemptId) returns (a: Attempt)
    requires GraphSound(files, receiptSet, m) && OwnershipFile(c, id) in files
    ensures AttemptFiled(files, m, a) && a.id == id
    ensures c == a.cohort ==> var r := files[OwnershipFile(c, id)];
      r.OwnershipRecord? && r.cohort == c && r.id == id && r.attempt == a
  {
    assert id in Ownerships(files);
    a := AttemptOf(files, receiptSet, m, id);
    assert OwnedImage(files, a).Ok?;
  }

  /** A completed attempt was never cleaned up, its image is owned, its cohort has a receipt, and its completion
      record is about that attempt and that receipt. */
  lemma OpenedCompletion(files: Files, receiptSet: nat, m: Manifest, c: Cohort, id: AttemptId) returns (a: Attempt)
    requires GraphSound(files, receiptSet, m) && CompletionFile(c, id) in files
    ensures AttemptFiled(files, m, a) && a.id == id
    ensures CompletionFile(a.cohort, id) in files && ReceiptFile(a.cohort) in files
    ensures var r, receipt := files[CompletionFile(a.cohort, id)], files[ReceiptFile(a.cohort)];
      && r.CompletionRecord? && r.cohort == a.cohort && r.id == id && r.attempt == a
      && receipt.ReceiptRecord? && r.receipt == receipt.receipt
    ensures (forall d :: CleanupFile(d, id) !in files) && exists d :: OwnershipFile(d, id) in files
  {
    assert id in Completions(files) && id in Ownerships(files);
    a := AttemptOf(files, receiptSet, m, id);
    assert Resolution(files, receiptSet, a) == Ok(true);
    assert id !in Cleanups(files);
    forall d ensures CleanupFile(d, id) !in files { assert CleanupFile(d, id) in files ==> id in Cleanups(files); }
    assert Readable(files, receiptSet, m, CompletionFile(a.cohort, id));
    var n :| n in files && n.OwnershipFile? && n.id == id;
    assert n == OwnershipFile(n.cohort, id);
  }

  /** A cleaned-up attempt was never completed, and its cleanup record is about that attempt, found its temporary
      tag absent, and rests on a recorded capacity of this set for a cleanup of its cohort; where it says that
      the attempt's own image was left, an ownership record says which. */
  lemma OpenedCleanup(files: Files, receiptSet: nat, m: Manifest, c: Cohort, id: AttemptId) returns (a: Attempt)
    requires GraphSound(files, receiptSet, m) && CleanupFile(c, id) in files
    ensures AttemptFiled(files, m, a) && a.id == id
    ensures CleanupFile(a.cohort, id) in files
    ensures var r := files[CleanupFile(a.cohort, id)];
      && r.CleanupRecord? && r.cohort == a.cohort && r.id == id && r.attempt == a && r.temporaryAbsent
      && r.capacityFile in files && files[r.capacityFile] == CapacityRecord(r.capacity)
      && r.capacity.operation == Cleanup && r.capacity.receiptSet == receiptSet && r.capacity.cohort == a.cohort
      && HostCapacity.ReceiptStands(r.capacity.host)
      && (r.finalTag == TaskOwnedRetained ==> OwnershipFile(a.cohort, id) in files)
    ensures forall d :: CompletionFile(d, id) !in files
  {
    assert id in Cleanups(files);
    a := AttemptOf(files, receiptSet, m, id);
    assert Resolution(files, receiptSet, a) == Ok(true);
    assert id !in Completions(files);
    forall d ensures CompletionFile(d, id) !in files {
      assert CompletionFile(d, id) in files ==> id in Completions(files);
    }
    assert Readable(files, receiptSet, m, CleanupFile(a.cohort, id));
    HostCapacity.StandsExactly(files[CleanupFile(a.cohort, id)].capacity.host);
  }

  /** A cohort has a receipt exactly when one of its attempts, and then only one, is completed. */
  lemma OpenedReceipts(files: Files, receiptSet: nat, m: Manifest, c: Cohort)
    requires GraphSound(files, receiptSet, m)
    ensures ReceiptFile(c) in files <==>
      exists a :: AttemptFiled(files, m, a) && a.cohort == c && Completed(files, a.id)
    ensures forall a, b :: AttemptFiled(files, m, a) && AttemptFiled(files, m, b) ==>
      a.cohort == b.cohort && Completed(files, a.id) && Completed(files, b.id) ==> a == b
  {
    forall a | AttemptFiled(files, m, a) && Completed(files, a.id) ensures a.id in CompletedAttempts(files, a.cohort) {
      CompletedFiled(files, m, a);
    }
    if ReceiptFile(c) in files {
      var id :| id in CompletedAttempts(files, c);
      var a :| a in Attempts(files) && a.cohort == c && a.id == id && id in Completions(files);
      var n :| n in files && n.AttemptFile? && files[n].AttemptRecord? && files[n].attempt == a;
      OpenedAttempt(files, receiptSet, m, n.cohort, n.id);
      assert AttemptFiled(files, m, a) && Completed(files, a.id);
    }
    forall a, b | AttemptFiled(files, m, a) && AttemptFiled(files, m, b) && a.cohort == b.cohort
                  && Completed(files, a.id) && Completed(files, b.id) ensures a == b {
      CompletedFiled(files, m, a);
      assert ReceiptFile(a.cohort) in files;
      One(CompletedAttempts(files, a.cohort), a.id, b.id);
      assert AttemptFile(a.cohort, a.id) == AttemptFile(b.cohort, b.id);
    }
  }

  predicate Completed(files: Files, id: AttemptId) { exists d: Cohort :: CompletionFile(d, id) in files }

  lemma CompletedFiled(files: Files, m: Manifest, a: Attempt)
    requires AttemptFiled(files, m, a) && Completed(files, a.id)
    ensures a in Attempts(files) && a.id in CompletedAttempts(files, a.cohort)
  {
    assert files[AttemptFile(a.cohort, a.id)].attempt in Attempts(files);
    var d: Cohort :| CompletionFile(d, a.id) in files;
    assert CompletionFile(d, a.id).id in Completions(files);
  }

  lemma One<T>(s: set<T>, x: T, y: T)
    requires |s| == 1 && x in s && y in s
    ensures x == y
  {
    assert |s - {x}| == 0;
  }

  /** The receipts of a set that opens name one image, are at most a day old, and at most five minutes ahead. */
  lemma OpenedReceipt(files: Files, receiptSet: nat, binding: nat, now: int, c: Cohort)
    requires Opens(files, receiptSet, binding, now) && ReceiptFile(c) in files
    ensures var r := files[ReceiptFile(c)];
      && r.ReceiptRecord? && r.receipt.cohort == c && r.receipt.first == r.receipt.second
      && now - 86_400_000_000 <= r.receipt.observedAt <= now + 300_000_000
    ensures ManifestFile in files && files[ManifestFile].ManifestRecord? && files[ManifestFile].manifest.binding == binding
    ensures GraphSound(files, receiptSet, files[ManifestFile].manifest)
  {
    assert ReceiptValid(files[ReceiptFile(c)], c, now);
  }
}
