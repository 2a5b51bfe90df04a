/** Which histories leave a set that opens again. */
module Recovery {
  import opened Results
  import opened ReceiptSet
  import opened Protocol
  import opened ProtocolInvariant
  import opened ProtocolSteps

  lemma {:induction false} InvAlways(w0: World, es: seq<Event>)
    requires Initial(w0) && Legal(w0, es)
    ensures Inv(After(w0, es)) && After(w0, es).receiptSet == w0.receiptSet
    decreases |es|
  {
    if es == [] {
      InitialInv(w0);
    } else {
      InvAlways(w0, es[..|es| - 1]);
      Kept(After(w0, es[..|es| - 1]), es[|es| - 1]);
    }
  }

  lemma Extend(w0: World, es: seq<Event>, e: Event)
    requires Legal(w0, es)
    ensures Legal(w0, es + [e]) <==> Enabled(After(w0, es), e)
    ensures Legal(w0, es + [e]) ==> After(w0, es + [e]) == Apply(After(w0, es), e)
  {
    assert (es + [e])[..|es + [e]| - 1] == es;
  }

  // ---- damage: what a stop or a reused observation does to the directory for good ----

  /** The stretches between two effects that leave evidence unbound when the run stops inside them. */
  predicate InWindow(run: Run) {
    run.MadeDirectory? || run.Snapshot? || run.Completed? || run.CleanupSnapshot? || run.CleanupUntagged?
  }

  /** A run stops inside a window, or records a capacity receipt built on a host observation already used. */
  ghost predicate Damages(w: World, e: Event)
    requires Enabled(w, e)
  {
    || (e.Stop? && InWindow(w.run))
    || (e.WriteCapacity? && w.run.capacity.host in Hosts(w.files))
  }

  ghost predicate Damaged(w0: World, es: seq<Event>)
    requires Legal(w0, es)
    decreases |es|
  {
    es != [] && (Damaged(w0, es[..|es| - 1]) || Damages(After(w0, es[..|es| - 1]), es[|es| - 1]))
  }

  // ---- the same, read off the current state ----

  function PendingFile(run: Run): Option<FileName> {
    if run.Snapshot? || run.CleanupSnapshot? || run.CleanupUntagged?
    then Some(CapacityFile(run.capacity.cohort, run.capacity)) else None
  }

  ghost predicate Orphaned(w: World, n: FileName) {
    n in w.files && n.CapacityFile? && !Referenced(w.files, n) && PendingFile(w.run) != Some(n)
  }

  ghost predicate ReceiptMissing(w: World, id: AttemptId) {
    DoneAt(id) in w.files && ReceiptFile(id.cohort) !in w.files && !(w.run.Completed? && w.run.attempt.id == id)
  }

  ghost predicate Unmanifested(w: World) { w.made && !HasManifest(w.files) && !w.run.MadeDirectory? }

  ghost predicate Ruined(w: World) {
    || Unmanifested(w)
    || !HostsDistinct(w.files)
    || (exists n :: Orphaned(w, n))
    || (exists id :: ReceiptMissing(w, id))
  }

  lemma ReferencedAdded(files: Files, n: FileName, r: Record, x: FileName)
    requires n !in files
    ensures Referenced(files[n := r], x) <==> Referenced(files, x) || RefersTo(n, r, x)
  {
    var after := files[n := r];
    if Referenced(files, x) {
      var k :| References(files, k, x);
      assert References(after, k, x);
    }
    if RefersTo(n, r, x) { assert References(after, n, x); }
    if Referenced(after, x) {
      var k :| References(after, k, x);
      assert k != n ==> References(files, k, x);
    }
  }

  lemma PendingUnreferenced(w: World)
    requires Inv(w) && PendingFile(w.run).Some?
    ensures !Referenced(w.files, PendingFile(w.run).value)
    ensures PendingFile(w.run).value in w.files
  {
    var n := PendingFile(w.run).value;
    forall k | k in w.files ensures !RefersTo(k, w.files[k], n) {
      assert Filed(w.files, w.receiptSet, k);
    }
  }

  lemma HostsAdded(files: Files, c: Capacity)
    requires CapacityFile(c.cohort, c) !in files
    ensures HostsDistinct(files[CapacityFile(c.cohort, c) := CapacityRecord(c)]) <==>
      HostsDistinct(files) && c.host !in Hosts(files)
  {
    var n := CapacityFile(c.cohort, c);
    var after := files[n := CapacityRecord(c)];
    if HostsDistinct(files) && c.host !in Hosts(files) { HostFresh(files, n, CapacityRecord(c)); }
    if c.host in Hosts(files) { HostRepeated(after, files, n); }
    if HostsDistinct(after) {
      forall x, y | SameHost(files, x, y) ensures x == y { assert SameHost(after, x, y); }
    }
  }

  lemma HostsKept(files: Files, n: FileName, r: Record)
    requires !n.CapacityFile? && n !in files
    ensures HostsDistinct(files[n := r]) <==> HostsDistinct(files)
  {
    var after := files[n := r];
    if HostsDistinct(after) {
      forall x, y | SameHost(files, x, y) ensures x == y { assert SameHost(after, x, y); }
    }
    if HostsDistinct(files) {
      forall x, y | SameHost(after, x, y) ensures x == y { assert SameHost(files, x, y); }
    }
  }

  /** An event that writes no file can only unbind what the run was about to bind. */
  lemma RuinNoWrite(w: World, w': World)
    requires Inv(w) && w'.files == w.files && w'.made == w.made
    requires (w'.run.MadeDirectory? <==> w.run.MadeDirectory?)
      && PendingFile(w'.run) == PendingFile(w.run) && !w.run.Completed? && !w'.run.Completed?
    ensures Ruined(w') <==> Ruined(w)
  {
    assert forall n :: Orphaned(w', n) <==> Orphaned(w, n);
    assert forall id :: ReceiptMissing(w', id) <==> ReceiptMissing(w, id);
  }

  lemma RuinByStop(w: World)
    requires Inv(w) && !w.run.Idle?
    ensures Ruined(w.(run := Idle)) <==> Ruined(w) || InWindow(w.run)
  {
    var w' := w.(run := Idle);
    assert forall n :: Orphaned(w, n) ==> Orphaned(w', n);
    assert forall id :: ReceiptMissing(w, id) ==> ReceiptMissing(w', id);
    if PendingFile(w.run).Some? {
      PendingUnreferenced(w);
      assert Orphaned(w', PendingFile(w.run).value);
    } else if w.run.Completed? {
      assert ReceiptMissing(w', w.run.attempt.id);
    } else if !w.run.MadeDirectory? {
      RuinNoWrite(w, w');
    }
  }

  lemma RuinByCapacity(w: World, w': World)
    requires Inv(w) && (w.run.Opened? || w.run.CleanupOpened?)
    requires CapacityFile(w.run.capacity.cohort, w.run.capacity) !in w.files && w'.made == w.made
    requires var c := w.run.capacity; w'.files == w.files[CapacityFile(c.cohort, c) := CapacityRecord(c)]
    requires var c := w.run.capacity; PendingFile(w'.run) == Some(CapacityFile(c.cohort, c))
    ensures Ruined(w') <==> Ruined(w) || w.run.capacity.host in Hosts(w.files)
  {
    var c := w.run.capacity;
    var n := CapacityFile(c.cohort, c);
    HostsAdded(w.files, c);
    forall x ensures Orphaned(w', x) <==> Orphaned(w, x) { ReferencedAdded(w.files, n, CapacityRecord(c), x); }
    assert forall id :: ReceiptMissing(w', id) <==> ReceiptMissing(w, id);
  }

  /** Writing the record that binds the pending capacity receipt, or an ownership record, orphans nothing. */
  lemma RuinByBinding(w: World, w': World, n: FileName, r: Record)
    requires Inv(w) && n !in w.files && (n.AttemptFile? || n.OwnershipFile? || n.CleanupFile?)
    requires w'.files == w.files[n := r] && w'.made == w.made && PendingFile(w'.run).None?
    requires !w.run.Completed? && !w'.run.Completed? && !w.run.MadeDirectory? && HasManifest(w.files)
    requires forall x :: RefersTo(n, r, x) <==> PendingFile(w.run) == Some(x)
    ensures Ruined(w') <==> Ruined(w)
  {
    HostsKept(w.files, n, r);
    forall x ensures Orphaned(w', x) <==> Orphaned(w, x) { ReferencedAdded(w.files, n, r, x); }
    assert forall id :: ReceiptMissing(w', id) <==> ReceiptMissing(w, id);
  }

  lemma RuinByCompletion(w: World, w': World, a: Attempt, r: Record)
    requires Inv(w) && DoneAt(a.id) !in w.files && HasManifest(w.files) && w.run.Released?
    requires w'.files == w.files[DoneAt(a.id) := r] && w'.made == w.made
    requires w'.run.Completed? && w'.run.attempt == a
    ensures Ruined(w') <==> Ruined(w)
  {
    HostsKept(w.files, DoneAt(a.id), r);
    forall x ensures Orphaned(w', x) <==> Orphaned(w, x) { ReferencedAdded(w.files, DoneAt(a.id), r, x); }
    assert forall id :: id != a.id ==> DoneAt(id) != DoneAt(a.id);
    assert forall id :: ReceiptMissing(w', id) <==> ReceiptMissing(w, id);
  }

  lemma RuinByReceipt(w: World, w': World, r: Record)
    requires w.run.Completed? && ReceiptFile(w.run.attempt.cohort) !in w.files && HasManifest(w.files)
    requires w.run.attempt.cohort == w.run.attempt.id.cohort
    requires forall id: AttemptId ::
      DoneAt(id) in w.files && id.cohort == w.run.attempt.cohort ==> id == w.run.attempt.id
    requires w'.files == w.files[ReceiptFile(w.run.attempt.cohort) := r] && w'.made == w.made && w'.run.Idle?
    ensures Ruined(w') <==> Ruined(w)
  {
    var n := ReceiptFile(w.run.attempt.cohort);
    HostsKept(w.files, n, r);
    forall x ensures Orphaned(w', x) <==> Orphaned(w, x) { ReferencedAdded(w.files, n, r, x); }
    forall id ensures ReceiptMissing(w', id) <==> ReceiptMissing(w, id) {
      assert DoneAt(id) in w'.files <==> DoneAt(id) in w.files;
    }
  }

  lemma OnlyOwnCompletion(w: World)
    requires Inv(w) && w.run.Completed?
    ensures forall id :: DoneAt(id) in w.files && id.cohort == w.run.attempt.cohort ==> id == w.run.attempt.id
  {
    assert DoneAt(w.run.attempt.id) in w.files;
  }

  lemma RuinStep(w: World, e: Event)
    requires Inv(w) && Enabled(w, e)
    ensures Ruined(Apply(w, e)) <==> Ruined(w) || Damages(w, e)
  {
    match e
    case MakeDirectory => RuinFresh(w, e);
    case RemoveDirectory => RuinFresh(w, e);
    case WriteManifest(_) => RuinFresh(w, e);
    case Stop => RuinByStop(w);
    case WriteCapacity => RuinByCapacity(w, Apply(w, e));
    case WriteAttempt => RuinByAttempt(w, e);
    case WriteOwnership => RuinByRecord(w, e);
    case WriteCompletion(_) => RuinByRecord(w, e);
    case WriteCleanup => RuinByRecord(w, e);
    case WriteReceipt => RuinByOwnReceipt(w, e);
    case Open(_, _, _) => RuinQuiet(w, e);
    case BuildFirst => RuinQuiet(w, e);
    case LoadFirst(_) => RuinQuiet(w, e);
    case LoadSecond(_) => RuinQuiet(w, e);
    case RemoveOutputs(_) => RuinQuiet(w, e);
    case RemoveTemporaryTag => RuinQuiet(w, e);
  }

  lemma RuinByOwnReceipt(w: World, e: Event)
    requires Inv(w) && Enabled(w, e) && e.WriteReceipt?
    ensures Ruined(Apply(w, e)) <==> Ruined(w)
  {
    OnlyOwnCompletion(w);
    RuinByReceipt(w, Apply(w, e), ReceiptRecord(w.run.receipt));
  }

  lemma RuinQuiet(w: World, e: Event)
    requires Inv(w) && Enabled(w, e)
    requires e.Open? || e.BuildFirst? || e.LoadFirst? || e.LoadSecond? || e.RemoveOutputs? || e.RemoveTemporaryTag?
    ensures Ruined(Apply(w, e)) <==> Ruined(w)
  {
    var w' := Apply(w, e);
    QuietKeeps(w, e);
    RuinNoWrite(w, w');
  }

  lemma QuietKeeps(w: World, e: Event)
    requires Enabled(w, e)
    requires e.Open? || e.BuildFirst? || e.LoadFirst? || e.LoadSecond? || e.RemoveOutputs? || e.RemoveTemporaryTag?
    ensures var w' := Apply(w, e);
      && w'.files == w.files && w'.made == w.made && PendingFile(w'.run) == PendingFile(w.run)
      && !w.run.Completed? && !w'.run.Completed? && !w.run.MadeDirectory? && !w'.run.MadeDirectory?
  {
  }

  lemma RuinByAttempt(w: World, e: Event)
    requires Inv(w) && Enabled(w, e) && e.WriteAttempt?
    ensures Ruined(Apply(w, e)) <==> Ruined(w)
  {
    var a := NewAttempt(w.files[ManifestFile].manifest, w.run.capacity, w.run.baseline);
    RuinByBinding(w, Apply(w, e), At(a.id), AttemptRecord(a));
  }

  lemma RuinByRecord(w: World, e: Event)
    requires Inv(w) && Enabled(w, e) && (e.WriteOwnership? || e.WriteCompletion? || e.WriteCleanup?)
    ensures Ruined(Apply(w, e)) <==> Ruined(w)
  {
    var w', id := Apply(w, e), w.run.attempt.id;
    if e.WriteOwnership? {
      RuinByBinding(w, w', OwnedAt(id), w'.files[OwnedAt(id)]);
    } else if e.WriteCompletion? {
      RuinByCompletion(w, w', w.run.attempt, w'.files[DoneAt(id)]);
    } else {
      RuinByBinding(w, w', CleanAt(id), w'.files[CleanAt(id)]);
    }
  }

  lemma RuinFresh(w: World, e: Event)
    requires Inv(w) && Enabled(w, e) && (e.MakeDirectory? || e.RemoveDirectory? || e.WriteManifest?)
    ensures !Ruined(w) && !Ruined(Apply(w, e))
  {
    assert w.files == map[];
  }

  lemma {:induction false} RuinedIsDamaged(w0: World, es: seq<Event>)
    requires Initial(w0) && Legal(w0, es)
    ensures Ruined(After(w0, es)) <==> Damaged(w0, es)
    decreases |es|
  {
    if es != [] {
      RuinedIsDamaged(w0, es[..|es| - 1]);
      InvAlways(w0, es[..|es| - 1]);
      RuinStep(After(w0, es[..|es| - 1]), es[|es| - 1]);
    }
  }

  // ---- an idle set opens exactly when it is not ruined ----

  lemma SoundWhenWhole(w: World)
    requires Inv(w) && w.run.Idle? && HasManifest(w.files) && !Ruined(w)
    ensures GraphSound(w.files, w.receiptSet, w.files[ManifestFile].manifest)
  {
    var files, m := w.files, w.files[ManifestFile].manifest;
    forall n | n in files ensures Readable(files, w.receiptSet, m, n) {
      assert Filed(files, w.receiptSet, n);
    }
    forall id: AttemptId
      ensures id in Completions(files) <==> DoneAt(id) in files
      ensures id in Cleanups(files) <==> CleanAt(id) in files
      ensures id in Ownerships(files) <==> OwnedAt(id) in files
      ensures id in AttemptIds(files) <==> At(id) in files
    {
      Memberships(files, w.receiptSet, id);
    }
    forall a | a in Attempts(files)
      ensures a.id in Ownerships(files) ==> OwnedImage(files, a).Ok?
      ensures a.id in Completions(files) + Cleanups(files) ==> Resolution(files, w.receiptSet, a) == Ok(true)
    {
      AttemptWhole(w, a);
    }
    forall c: Cohort
      ensures if ReceiptFile(c) in files then |CompletedAttempts(files, c)| == 1 else CompletedAttempts(files, c) == {}
    {
      CompletedAre(w, c);
    }
    forall n | n in files && n.CapacityFile? ensures Referenced(files, n) { assert !Orphaned(w, n); }
    forall k, n | References(files, k, n) ensures n in files && n.CapacityFile? {
      assert Filed(files, w.receiptSet, k);
    }
  }

  lemma AttemptWhole(w: World, a: Attempt)
    requires Inv(w) && w.run.Idle? && HasManifest(w.files) && !Ruined(w) && a in Attempts(w.files)
    ensures a.id in Ownerships(w.files) ==> OwnedImage(w.files, a).Ok?
    ensures a.id in Completions(w.files) + Cleanups(w.files) ==> Resolution(w.files, w.receiptSet, a) == Ok(true)
  {
    ResolvedIsSettled(w.files, w.receiptSet, a);
    Memberships(w.files, w.receiptSet, a.id);
    assert !ReceiptMissing(w, a.id);
    if OwnedAt(a.id) in w.files { assert Filed(w.files, w.receiptSet, OwnedAt(a.id)); }
  }

  lemma CompletedAre(w: World, c: Cohort)
    requires Inv(w) && w.run.Idle? && HasManifest(w.files) && !Ruined(w)
    ensures if ReceiptFile(c) in w.files then |CompletedAttempts(w.files, c)| == 1
            else CompletedAttempts(w.files, c) == {}
  {
    var files := w.files;
    forall id | id in CompletedAttempts(files, c) ensures DoneAt(id) in files && id.cohort == c {
      CompletedIsDone(files, w.receiptSet, c, id);
    }
    if ReceiptFile(c) in files {
      var id := ReceiptCompleted(w, c);
      assert CompletedAttempts(files, c) == {id};
    } else {
      forall id | id in CompletedAttempts(files, c) ensures false { assert ReceiptMissing(w, id); }
    }
  }

  lemma CompletedIsDone(files: Files, receiptSet: nat, c: Cohort, id: AttemptId)
    requires FilesOk(files, receiptSet) && HasManifest(files) && id in CompletedAttempts(files, c)
    ensures DoneAt(id) in files && id.cohort == c
  {
    var a :| a in Attempts(files) && a.cohort == c && a.id == id && id in Completions(files);
    ResolvedIsSettled(files, receiptSet, a);
    Memberships(files, receiptSet, id);
  }

  lemma ReceiptCompleted(w: World, c: Cohort) returns (id: AttemptId)
    requires Inv(w) && HasManifest(w.files) && ReceiptFile(c) in w.files
    ensures id in CompletedAttempts(w.files, c) && DoneAt(id) in w.files && id.cohort == c
  {
    var files := w.files;
    assert Filed(files, w.receiptSet, ReceiptFile(c));
    id :| CompletionFor(files, id, files[ReceiptFile(c)].receipt);
    assert Filed(files, w.receiptSet, DoneAt(id));
    Memberships(files, w.receiptSet, id);
    assert files[At(id)].attempt in Attempts(files);
  }

  lemma WholeWhenSound(w: World)
    requires Inv(w) && w.run.Idle? && HasManifest(w.files)
    requires GraphSound(w.files, w.receiptSet, w.files[ManifestFile].manifest)
    ensures !Ruined(w)
  {
    forall id ensures !ReceiptMissing(w, id) {
      if DoneAt(id) in w.files { NothingPending(w.files, w.receiptSet, id); }
    }
  }

  predicate BindingMatches(files: Files, binding: nat) {
    HasManifest(files) && files[ManifestFile].manifest.binding == binding
  }

  /** The repository inputs are the recorded ones and no receipt has outlived its day. */
  ghost predicate Current(files: Files, binding: nat, now: int) {
    && BindingMatches(files, binding)
    && forall c :: ReceiptFile(c) in files ==> ReceiptCurrent(files[ReceiptFile(c)], now)
  }

  predicate ReceiptCurrent(r: Record, now: int) {
    r.ReceiptRecord? && -300_000_000 <= now - r.receipt.observedAt <= 86_400_000_000
  }

  /** However many runs came before and wherever they stopped, the directory they leave is refused on
      reopening exactly when some run stopped inside a window or reused a host observation, or the
      repository inputs differ from the recorded ones, or a receipt has outlived its day. */
  lemma ReopensExactlyWhenUndamaged(w0: World, es: seq<Event>, binding: nat, now: int)
    requires Initial(w0) && Legal(w0, es)
    requires After(w0, es).made && After(w0, es).run.Idle?
    ensures var files := After(w0, es).files;
      Opens(files, w0.receiptSet, binding, now) <==> !Damaged(w0, es) && Current(files, binding, now)
  {
    var w := After(w0, es);
    InvAlways(w0, es);
    RuinedIsDamaged(w0, es);
    if HasManifest(w.files) {
      if !Ruined(w) { SoundWhenWhole(w); }
      if GraphSound(w.files, w.receiptSet, w.files[ManifestFile].manifest) { WholeWhenSound(w); }
      assert forall c: Cohort :: ReceiptFile(c) in w.files ==> Filed(w.files, w.receiptSet, ReceiptFile(c));
    }
  }

  /** A stop outside the windows costs nothing: whatever the run had written before it, the directory opens
      exactly when no earlier event had damaged it, the inputs match and its receipts are current. */
  lemma StopOutsideWindows(w0: World, es: seq<Event>, binding: nat, now: int)
    requires Initial(w0) && Legal(w0, es) && !After(w0, es).run.Idle? && !InWindow(After(w0, es).run)
    ensures Legal(w0, es + [Stop]) && After(w0, es + [Stop]).files == After(w0, es).files
    ensures Opens(After(w0, es + [Stop]).files, w0.receiptSet, binding, now) <==>
      !Damaged(w0, es) && Current(After(w0, es).files, binding, now)
  {
    Extend(w0, es, Stop);
    assert (es + [Stop])[..|es + [Stop]| - 1] == es;
    InvAlways(w0, es);
    ReopensExactlyWhenUndamaged(w0, es + [Stop], binding, now);
  }

  /** A stop inside a window costs the set: nothing opens it again, under any inputs, at any time. */
  lemma StopInsideWindows(w0: World, es: seq<Event>, binding: nat, now: int)
    requires Initial(w0) && Legal(w0, es) && InWindow(After(w0, es).run)
    ensures Legal(w0, es + [Stop]) && !Opens(After(w0, es + [Stop]).files, w0.receiptSet, binding, now)
  {
    Extend(w0, es, Stop);
    assert (es + [Stop])[..|es + [Stop]| - 1] == es;
    InvAlways(w0, es);
    ReopensExactlyWhenUndamaged(w0, es + [Stop], binding, now);
  }
}
