/** Which interrupted attempts a cleanup run can resolve, and which can never be resolved. */
module CleanupOutcome {
  import opened Results
  import opened ReceiptSet
  import opened Protocol
  import opened ProtocolInvariant
  import opened ProtocolSteps
  import opened Recovery
  import opened Discipline

  // ---- when the final tag stops being accounted for ----

  /** The second build is loaded under the final tag although it is neither the first build nor the baseline. */
  ghost predicate Diverges(w: World, e: Event, a: Attempt)
    requires Enabled(w, e)
  {
    e.LoadSecond? && w.run.attempt == a && e.image != w.run.first && Some(e.image) != a.baseline
  }

  ghost predicate HasDiverged(w0: World, es: seq<Event>, a: Attempt)
    requires Legal(w0, es)
    decreases |es|
  {
    es != [] && (HasDiverged(w0, es[..|es| - 1], a) || Diverges(After(w0, es[..|es| - 1]), es[|es| - 1], a))
  }

  lemma AccountedSame(w: World, w': World, a: Attempt)
    requires FinalTagOf(w', a.cohort) == FinalTagOf(w, a.cohort)
    requires OwnedOf(w'.files, a) == OwnedOf(w.files, a)
    ensures TagAccounted(w', a) <==> TagAccounted(w, a)
  {
  }

  lemma AccountedAfterLoad(w: World, e: Event, a: Attempt)
    requires Inv(w) && e.LoadSecond? && w.run.Owned?
    requires HoldsAttempt(w.files, a) && Unsettled(w.files, a.id) && a.cohort == a.id.cohort
    ensures Enabled(w, e)
    ensures !TagAccounted(Apply(w, e), a) <==> !TagAccounted(w, a) || Diverges(w, e, a)
  {
    assert OwnedOk(w, w.run.attempt, w.run.first);
    if w.run.attempt.cohort == a.cohort {
      assert w.run.attempt.id == a.id;
    } else {
      AccountedSame(w, Apply(w, e), a);
    }
  }

  lemma AccountedAfterOwnership(w: World, w': World, b: Attempt, a: Attempt, r: Record)
    requires TagsOk(w) && Live(w, b) && OwnedAt(b.id) !in w.files
    requires w'.files == w.files[OwnedAt(b.id) := r] && w'.final == w.final
    requires HoldsAttempt(w.files, a) && Unsettled(w.files, a.id) && a.cohort == a.id.cohort
    ensures TagAccounted(w', a) <==> TagAccounted(w, a)
  {
    if b.id == a.id {
      assert FinalTagOf(w, a.cohort) == a.baseline;
    } else {
      assert OwnershipFile(a.cohort, a.id) != OwnedAt(b.id);
      AccountedSame(w, w', a);
    }
  }

  lemma AccountedElsewhere(w: World, e: Event, a: Attempt)
    requires Inv(w) && Enabled(w, e) && !e.LoadSecond? && !e.WriteOwnership? && !e.WriteAttempt?
    requires HoldsAttempt(Apply(w, e).files, a)
    ensures HoldsAttempt(w.files, a)
    ensures TagAccounted(Apply(w, e), a) <==> TagAccounted(w, a)
  {
    var w' := Apply(w, e);
    assert w'.final == w.final;
    SameOwnership(w, e, a);
    AccountedSame(w, w', a);
  }

  lemma SameOwnership(w: World, e: Event, a: Attempt)
    requires Inv(w) && Enabled(w, e) && !e.WriteOwnership? && !e.WriteAttempt?
    ensures var files := Apply(w, e).files;
      && OwnedOf(files, a) == OwnedOf(w.files, a)
      && (HoldsAttempt(files, a) <==> HoldsAttempt(w.files, a))
  {
    if e.WriteManifest? { assert w.files == map[]; }
  }

  lemma AccountedStep(w: World, e: Event, a: Attempt)
    requires Inv(w) && Enabled(w, e) && HoldsAttempt(Apply(w, e).files, a) && Unsettled(Apply(w, e).files, a.id)
    requires a.cohort == a.id.cohort
    ensures HoldsAttempt(w.files, a) ==> Unsettled(w.files, a.id)
    ensures !TagAccounted(Apply(w, e), a) <==>
      (HoldsAttempt(w.files, a) && !TagAccounted(w, a)) || Diverges(w, e, a)
  {
    if e.LoadSecond? {
      AccountedAfterLoad(w, e, a);
    } else if e.WriteOwnership? {
      var b := w.run.attempt;
      AccountedAfterOwnership(w, Apply(w, e), b, a, OwnershipRecord(b.cohort, b.id, b, w.run.first));
    } else if e.WriteAttempt? {
      assert SnapshotOk(w, w.run.capacity, w.run.baseline);
      if HoldsAttempt(w.files, a) { AccountedSame(w, Apply(w, e), a); }
    } else {
      AccountedElsewhere(w, e, a);
    }
  }

  /** An unresolved attempt's final tag is unaccounted for exactly when its second build diverged. */
  lemma {:induction false} UnaccountedMeansDiverged(w0: World, es: seq<Event>, a: Attempt)
    requires Initial(w0) && Legal(w0, es)
    requires a in Unresolved(After(w0, es).files, w0.receiptSet, a.cohort)
    ensures TagAccounted(After(w0, es), a) <==> !HasDiverged(w0, es, a)
  {
    InvAlways(w0, es);
    UnresolvedAre(After(w0, es).files, w0.receiptSet, a.cohort);
    assert Filed(After(w0, es).files, w0.receiptSet, At(a.id));
    DivergedByThen(w0, es, a);
  }

  lemma {:induction false} DivergedByThen(w0: World, es: seq<Event>, a: Attempt)
    requires Initial(w0) && Legal(w0, es)
    requires HoldsAttempt(After(w0, es).files, a) && Unsettled(After(w0, es).files, a.id) && a.cohort == a.id.cohort
    ensures TagAccounted(After(w0, es), a) <==> !HasDiverged(w0, es, a)
    decreases |es|
  {
    var before := es[..|es| - 1];
    InvAlways(w0, before);
    AccountedStep(After(w0, before), es[|es| - 1], a);
    if HoldsAttempt(After(w0, before).files, a) {
      DivergedByThen(w0, before, a);
    } else {
      NotDivergedYet(w0, before, a);
    }
  }

  lemma {:induction false} NotDivergedYet(w0: World, es: seq<Event>, a: Attempt)
    requires Initial(w0) && Legal(w0, es) && !HoldsAttempt(After(w0, es).files, a)
    ensures !HasDiverged(w0, es, a)
    decreases |es|
  {
    if es != [] {
      var before := es[..|es| - 1];
      InvAlways(w0, before);
      WritesKeep(After(w0, before), es[|es| - 1], a);
      NotDivergedYet(w0, before, a);
    }
  }

  lemma WritesKeep(w: World, e: Event, a: Attempt)
    requires Inv(w) && Enabled(w, e) && !HoldsAttempt(Apply(w, e).files, a)
    ensures !HoldsAttempt(w.files, a) && !Diverges(w, e, a)
  {
    if e.LoadSecond? { assert OwnedOk(w, w.run.attempt, w.run.first); }
  }

  // ---- a diverged attempt is never resolved ----

  /** The attempt waits for a cleanup that the final tag rules out, and no qualification of its cohort is under way. */
  ghost predicate Stuck(w: World, a: Attempt) {
    && HoldsAttempt(w.files, a) && a.cohort == a.id.cohort
    && Unsettled(w.files, a.id) && DoneAt(a.id) !in w.files
    && !TagAccounted(w, a)
    && RunElsewhere(w.run, a.cohort)
  }

  predicate Building(run: Run) {
    run.Intended? || run.FirstBuilt? || run.FirstLoaded? || run.Owned? || run.SecondLoaded?
    || run.Unwinding? || run.Released? || run.Completed?
  }

  lemma StuckFrom(w: World, a: Attempt)
    requires Inv(w) && w.run.Idle? && a in Unresolved(w.files, w.receiptSet, a.cohort) && !TagAccounted(w, a)
    ensures Stuck(w, a)
  {
    UnresolvedAre(w.files, w.receiptSet, a.cohort);
    assert Filed(w.files, w.receiptSet, At(a.id));
  }

  ghost predicate RunElsewhere(run: Run, c: Cohort) {
    && !((run.Opened? || run.Snapshot?) && run.capacity.cohort == c)
    && (Building(run) ==> run.attempt.cohort != c)
  }

  lemma StuckIf(w: World, w': World, a: Attempt)
    requires Stuck(w, a) && RunElsewhere(w'.run, a.cohort)
    requires forall n :: n in w.files ==> n in w'.files && w'.files[n] == w.files[n]
    requires CleanAt(a.id) !in w'.files && DoneAt(a.id) !in w'.files
    requires OwnedAt(a.id) in w'.files ==> OwnedAt(a.id) in w.files
    requires FinalTagOf(w', a.cohort) == FinalTagOf(w, a.cohort)
    ensures Stuck(w', a)
  {
    AccountedSame(w, w', a);
  }

  /** Effects of runs that are not cleanups happen to other cohorts. */
  lemma StuckBuildFile(w: World, e: Event, a: Attempt)
    requires Inv(w) && Enabled(w, e) && Stuck(w, a)
    requires e.WriteOwnership? || e.WriteCompletion? || e.WriteReceipt?
    ensures Stuck(Apply(w, e), a)
  {
    WritesAreFresh(w, e);
    var w' := Apply(w, e);
    assert w.run.attempt.cohort != a.cohort;
    StuckIf(w, w', a);
  }

  lemma StuckBuildTag(w: World, e: Event, a: Attempt)
    requires Inv(w) && Enabled(w, e) && Stuck(w, a) && Building(w.run)
    requires !e.WriteOwnership? && !e.WriteCompletion? && !e.WriteReceipt?
    ensures Stuck(Apply(w, e), a)
  {
    var w' := Apply(w, e);
    assert w'.files == w.files && FinalTagOf(w', a.cohort) == FinalTagOf(w, a.cohort);
    StuckIf(w, w', a);
  }

  lemma StuckOther(w: World, e: Event, a: Attempt)
    requires Inv(w) && Enabled(w, e) && Stuck(w, a) && !Building(w.run) && !e.WriteCleanup? && !e.Open?
    ensures Stuck(Apply(w, e), a)
  {
    StuckIf(w, Apply(w, e), a);
  }

  /** Cleanups are of unsettled attempts, so one in this cohort would be of this very attempt. */
  lemma StuckCleanup(w: World, e: Event, a: Attempt)
    requires Inv(w) && Enabled(w, e) && Stuck(w, a) && e.WriteCleanup?
    ensures Stuck(Apply(w, e), a)
  {
    var b := w.run.attempt;
    assert CleanupSnapshotOk(w, w.run.capacity, b);
    assert b.id != a.id;
    StuckCleaned(w, Apply(w, e), b, a);
  }

  lemma StuckCleaned(w: World, w': World, b: Attempt, a: Attempt)
    requires Stuck(w, a) && w'.run.Idle? && w'.final == w.final && b.id != a.id
    requires CleanAt(b.id) in w'.files && CleanAt(b.id) !in w.files
    requires w'.files == w.files[CleanAt(b.id) := w'.files[CleanAt(b.id)]]
    ensures Stuck(w', a)
  {
    StuckIf(w, w', a);
  }

  lemma StuckOpen(w: World, e: Event, a: Attempt)
    requires Inv(w) && Enabled(w, e) && Stuck(w, a) && e.Open?
    ensures Stuck(Apply(w, e), a)
  {
    UnresolvedAre(w.files, w.receiptSet, a.cohort);
    assert a in Unresolved(w.files, w.receiptSet, a.cohort);
    StuckOpened(w, Apply(w, e), a);
  }

  lemma StuckOpened(w: World, w': World, a: Attempt)
    requires Stuck(w, a) && w'.files == w.files && w'.final == w.final
    requires w'.run.CleanupOpened? || (w'.run.Opened? && w'.run.capacity.cohort != a.cohort)
    ensures Stuck(w', a)
  {
    StuckIf(w, w', a);
  }

  lemma StuckStep(w: World, e: Event, a: Attempt)
    requires Inv(w) && Enabled(w, e) && Stuck(w, a)
    ensures Stuck(Apply(w, e), a)
  {
    if e.Open? { StuckOpen(w, e, a); }
    else if e.WriteCleanup? { StuckCleanup(w, e, a); }
    else if e.WriteOwnership? || e.WriteCompletion? || e.WriteReceipt? { StuckBuildFile(w, e, a); }
    else if Building(w.run) { StuckBuildTag(w, e, a); }
    else { StuckOther(w, e, a); }
  }

  lemma {:induction false} StuckForever(w0: World, es: seq<Event>, more: seq<Event>, a: Attempt)
    requires Initial(w0) && Legal(w0, es) && Legal(w0, es + more) && Stuck(After(w0, es), a)
    ensures Stuck(After(w0, es + more), a)
    decreases |more|
  {
    if more == [] {
      assert es + more == es;
    } else {
      var shorter := more[..|more| - 1];
      assert (es + more)[..|es + more| - 1] == es + shorter;
      StuckForever(w0, es, shorter, a);
      InvAlways(w0, es + shorter);
      StuckStep(After(w0, es + shorter), more[|more| - 1], a);
    }
  }

  /** After a diverged second build no later run, of any kind, resolves the attempt or qualifies its cohort. */
  lemma DivergedForever(w0: World, es: seq<Event>, more: seq<Event>, a: Attempt)
    requires Initial(w0) && Legal(w0, es) && Legal(w0, es + more) && After(w0, es).run.Idle?
    requires a in Unresolved(After(w0, es).files, w0.receiptSet, a.cohort) && HasDiverged(w0, es, a)
    ensures a in Unresolved(After(w0, es + more).files, w0.receiptSet, a.cohort)
    ensures ReceiptFile(a.cohort) !in After(w0, es + more).files
  {
    InvAlways(w0, es);
    UnaccountedMeansDiverged(w0, es, a);
    StuckFrom(After(w0, es), a);
    StuckForever(w0, es, more, a);
    InvAlways(w0, es + more);
    UnresolvedAre(After(w0, es + more).files, w0.receiptSet, a.cohort);
  }

  // ---- what one cleanup run does ----

  lemma SoleIs<T>(s: set<T>, x: T)
    requires x in s && forall y :: y in s ==> y == x
    ensures |s| == 1 && Sole(s) == x
  {
    assert s == {x};
  }

  function AdmittedWorld(w: World, gate: Capacity, a: Attempt): World {
    w.(run := CleanupOpened(gate, a), outputs := w.outputs - {gate.cohort})
  }

  function CleanedWorld(w: World, gate: Capacity, a: Attempt): World {
    w.(run := CleanupUntagged(gate, a), outputs := {},
       files := w.files[CapacityFile(gate.cohort, gate) := CapacityRecord(gate)],
       temporary := w.temporary - {a.id})
  }

  lemma CleanupOpens(w: World, gate: Capacity, binding: nat, now: int, a: Attempt)
    requires Inv(w) && w.run.Idle? && w.made && Opens(w.files, w.receiptSet, binding, now)
    requires a in Unresolved(w.files, w.receiptSet, gate.cohort)
    requires CapacityScoped(gate, Cleanup, w.receiptSet, gate.cohort)
    ensures Enabled(w, Open(gate, binding, now))
    ensures Apply(w, Open(gate, binding, now)) == AdmittedWorld(w, gate, a)
  {
    UnresolvedAre(w.files, w.receiptSet, gate.cohort);
    SoleIs(Unresolved(w.files, w.receiptSet, gate.cohort), a);
  }

  lemma CleanupActs(w: World, gate: Capacity, a: Attempt)
    requires HasManifest(w.files) && a.cohort == gate.cohort
    requires CapacityFile(gate.cohort, gate) !in w.files
    ensures var w1 := AdmittedWorld(w, gate, a);
      && (Enabled(w1, WriteCapacity) <==> w.outputs <= {gate.cohort})
      && (w.outputs <= {gate.cohort} ==>
            Enabled(Apply(w1, WriteCapacity), RemoveTemporaryTag)
            && Apply(Apply(w1, WriteCapacity), RemoveTemporaryTag) == CleanedWorld(w, gate, a))
    ensures Enabled(CleanedWorld(w, gate, a), WriteCleanup) <==> TagAccounted(w, a)
  {
    AccountedSame(w, CleanedWorld(w, gate, a), a);
  }

  lemma CleanupSettles(w: World, w': World, gate: Capacity, a: Attempt)
    requires Inv(w) && Inv(w') && w'.receiptSet == w.receiptSet && HasManifest(w.files) && HasManifest(w'.files)
    requires a in Unresolved(w.files, w.receiptSet, gate.cohort)
    requires CleanAt(a.id) in w'.files
    requires forall id :: At(id) in w'.files ==> At(id) in w.files && w'.files[At(id)] == w.files[At(id)]
    requires forall n :: n in w.files ==> n in w'.files
    ensures Unresolved(w'.files, w.receiptSet, gate.cohort) == {}
  {
    UnresolvedAre(w.files, w.receiptSet, gate.cohort);
    UnresolvedAre(w'.files, w.receiptSet, gate.cohort);
    forall b | b in Unresolved(w'.files, w.receiptSet, gate.cohort) ensures false {
      assert Filed(w.files, w.receiptSet, At(b.id)) && Filed(w.files, w.receiptSet, At(a.id));
      assert Unsettled(w.files, b.id);
    }
  }

  /** The run is let in; it acts only if no other cohort left build output behind; and then it can write
      its cleanup record exactly when the second build had not diverged. */
  lemma CleanupAdmitted(w0: World, es: seq<Event>, gate: Capacity, binding: nat, now: int, a: Attempt)
    requires Initial(w0) && Legal(w0, es) && After(w0, es).run.Idle? && After(w0, es).made
    requires Opens(After(w0, es).files, w0.receiptSet, binding, now)
    requires a in Unresolved(After(w0, es).files, w0.receiptSet, gate.cohort)
    requires CapacityScoped(gate, Cleanup, w0.receiptSet, gate.cohort)
    requires gate.host !in Hosts(After(w0, es).files)
    ensures var admitted := es + [Open(gate, binding, now)];
      && Legal(w0, admitted)
      && (Legal(w0, admitted + [WriteCapacity]) <==> After(w0, es).outputs <= {gate.cohort})
    ensures After(w0, es).outputs <= {gate.cohort} ==>
      var cleaned := es + [Open(gate, binding, now)] + [WriteCapacity] + [RemoveTemporaryTag];
      && Legal(w0, cleaned) && After(w0, cleaned) == CleanedWorld(After(w0, es), gate, a)
      && (Legal(w0, cleaned + [WriteCleanup]) <==> !HasDiverged(w0, es, a))
      && !Damaged(w0, cleaned)
  {
    var w := After(w0, es);
    var e1 := Open(gate, binding, now);
    InvAlways(w0, es);
    ReopensExactlyWhenUndamaged(w0, es, binding, now);
    CleanupOpens(w, gate, binding, now, a);
    CleanupActs(w, gate, a);
    UnaccountedMeansDiverged(w0, es, a);
    Extend(w0, es, e1);
    Extend(w0, es + [e1], WriteCapacity);
    if w.outputs <= {gate.cohort} {
      Extend(w0, es + [e1] + [WriteCapacity], RemoveTemporaryTag);
      Extend(w0, es + [e1] + [WriteCapacity] + [RemoveTemporaryTag], WriteCleanup);
      DamagedAfter(w0, es, e1);
      DamagedAfter(w0, es + [e1], WriteCapacity);
      DamagedAfter(w0, es + [e1] + [WriteCapacity], RemoveTemporaryTag);
    }
  }

  lemma DamagedAfter(w0: World, es: seq<Event>, e: Event)
    requires Legal(w0, es) && Legal(w0, es + [e])
    ensures Enabled(After(w0, es), e)
    ensures Damaged(w0, es + [e]) <==> Damaged(w0, es) || Damages(After(w0, es), e)
  {
    assert (es + [e])[..|es + [e]| - 1] == es;
  }

  function CleanedEvents(es: seq<Event>, gate: Capacity, binding: nat, now: int): seq<Event> {
    es + [Open(gate, binding, now)] + [WriteCapacity] + [RemoveTemporaryTag]
  }

  /** After an undiverged build the cleanup run leaves the cohort free and the set undamaged. */
  lemma CleanupResolves(w0: World, es: seq<Event>, gate: Capacity, binding: nat, now: int, a: Attempt)
    requires Initial(w0) && Legal(w0, es) && After(w0, es).run.Idle? && After(w0, es).made
    requires Opens(After(w0, es).files, w0.receiptSet, binding, now)
    requires a in Unresolved(After(w0, es).files, w0.receiptSet, gate.cohort)
    requires CapacityScoped(gate, Cleanup, w0.receiptSet, gate.cohort)
    requires gate.host !in Hosts(After(w0, es).files)
    requires After(w0, es).outputs <= {gate.cohort} && !HasDiverged(w0, es, a)
    ensures var resolved := CleanedEvents(es, gate, binding, now) + [WriteCleanup];
      && Legal(w0, resolved) && !Damaged(w0, resolved)
      && Unresolved(After(w0, resolved).files, w0.receiptSet, gate.cohort) == {}
  {
    var w, cleaned := After(w0, es), CleanedEvents(es, gate, binding, now);
    InvAlways(w0, es);
    CleanupAdmitted(w0, es, gate, binding, now, a);
    Extend(w0, cleaned, WriteCleanup);
    DamagedAfter(w0, cleaned, WriteCleanup);
    InvAlways(w0, cleaned + [WriteCleanup]);
    CleanupRecorded(w, gate, a);
    CleanupSettles(w, After(w0, cleaned + [WriteCleanup]), gate, a);
  }

  lemma CleanupRecorded(w: World, gate: Capacity, a: Attempt)
    requires Inv(w) && HasManifest(w.files) && a in Unresolved(w.files, w.receiptSet, gate.cohort)
    requires CapacityFile(gate.cohort, gate) !in w.files && Enabled(CleanedWorld(w, gate, a), WriteCleanup)
    ensures var files := Apply(CleanedWorld(w, gate, a), WriteCleanup).files;
      && CleanAt(a.id) in files && HasManifest(files)
      && (forall id :: At(id) in files ==> At(id) in w.files && files[At(id)] == w.files[At(id)])
      && (forall n :: n in w.files ==> n in files)
  {
    UnresolvedAre(w.files, w.receiptSet, gate.cohort);
    assert Filed(w.files, w.receiptSet, At(a.id));
  }

  lemma OnlyStop(w: World, e: Event)
    requires w.run.CleanupUntagged? && !TagAccounted(w, w.run.attempt)
    ensures Enabled(w, e) <==> e == Stop
  {
  }

  /** After a diverged build the cleanup run can only stop, and stopping leaves the set refused for good. */
  lemma CleanupDefeated(w0: World, es: seq<Event>, gate: Capacity, binding: nat, now: int, a: Attempt)
    requires Initial(w0) && Legal(w0, es) && After(w0, es).run.Idle? && After(w0, es).made
    requires Opens(After(w0, es).files, w0.receiptSet, binding, now)
    requires a in Unresolved(After(w0, es).files, w0.receiptSet, gate.cohort)
    requires CapacityScoped(gate, Cleanup, w0.receiptSet, gate.cohort)
    requires gate.host !in Hosts(After(w0, es).files)
    requires After(w0, es).outputs <= {gate.cohort} && HasDiverged(w0, es, a)
    ensures var cleaned := CleanedEvents(es, gate, binding, now);
      && Legal(w0, cleaned)
      && (forall e :: Legal(w0, cleaned + [e]) <==> e == Stop)
      && Damaged(w0, cleaned + [Stop])
  {
    var cleaned := CleanedEvents(es, gate, binding, now);
    CleanupAdmitted(w0, es, gate, binding, now, a);
    Extend(w0, cleaned, Stop);
    DamagedAfter(w0, cleaned, Stop);
    CleanedOnlyStops(w0, es, cleaned, gate, a);
  }

  lemma CleanedOnlyStops(w0: World, es: seq<Event>, cleaned: seq<Event>, gate: Capacity, a: Attempt)
    requires Legal(w0, es) && Legal(w0, cleaned) && !Legal(w0, cleaned + [WriteCleanup])
    requires After(w0, cleaned) == CleanedWorld(After(w0, es), gate, a)
    ensures forall e :: Legal(w0, cleaned + [e]) <==> e == Stop
  {
    Extend(w0, cleaned, WriteCleanup);
    forall e ensures Legal(w0, cleaned + [e]) <==> e == Stop {
      Extend(w0, cleaned, e);
      OnlyStop(After(w0, cleaned), e);
    }
  }
}
