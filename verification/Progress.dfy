/** A qualification run that nothing interrupts: from every set that opens, a free cohort reaches its receipt,
    and the set then opens for a day. */
module Progress {
  import opened Results
  import opened ReceiptSet
  import opened Protocol
  import opened ProtocolInvariant
  import opened Recovery
  import opened Discipline
  import opened CleanupOutcome

  ghost predicate Reaches(w0: World, es: seq<Event>, w: World) {
    Legal(w0, es) && After(w0, es) == w && !Damaged(w0, es)
  }

  lemma Then(w0: World, es: seq<Event>, w: World, e: Event, w': World)
    requires Reaches(w0, es, w) && Enabled(w, e) && !Damages(w, e) && w' == Apply(w, e)
    ensures Reaches(w0, es + [e], w')
  {
    Extend(w0, es, e);
    DamagedAfter(w0, es, e);
  }

  // ---- capacity and intent ----

  function BegunEvents(es: seq<Event>, gate: Capacity, binding: nat, now: int): seq<Event> {
    es + [Open(gate, binding, now)] + [WriteCapacity] + [WriteAttempt]
  }

  function AttemptIn(w: World, gate: Capacity): Attempt
    requires HasManifest(w.files)
  {
    NewAttempt(w.files[ManifestFile].manifest, gate, FinalTagOf(w, gate.cohort))
  }

  function BegunFrom(w: World, gate: Capacity): World
    requires HasManifest(w.files)
  {
    var a := AttemptIn(w, gate);
    w.(run := Intended(a),
       files := w.files[CapacityFile(gate.cohort, gate) := CapacityRecord(gate)][At(a.id) := AttemptRecord(a)])
  }

  ghost predicate Startable(w: World, gate: Capacity, binding: nat, now: int) {
    && w.run.Idle? && w.made && Opens(w.files, w.receiptSet, binding, now)
    && CapacityScoped(gate, Qualification, w.receiptSet, gate.cohort) && gate.host !in Hosts(w.files)
    && ReceiptFile(gate.cohort) !in w.files && Unresolved(w.files, w.receiptSet, gate.cohort) == {}
    && w.outputs == {}
  }

  /** A gate on a new observation has no capacity record and no attempt yet, so its temporary tag is free. */
  lemma NothingThere(w: World, gate: Capacity)
    requires Inv(w) && HasManifest(w.files) && gate.host !in Hosts(w.files)
    ensures CapacityFile(gate.cohort, gate) !in w.files
    ensures AttemptIn(w, gate).id !in w.temporary
  {
    AttemptNeedsCapacity(w.files, w.receiptSet, AttemptIn(w, gate).id);
  }

  lemma Begins(w0: World, es: seq<Event>, w: World, gate: Capacity, binding: nat, now: int)
    requires Initial(w0) && Reaches(w0, es, w) && Startable(w, gate, binding, now)
    ensures Reaches(w0, BegunEvents(es, gate, binding, now), BegunFrom(w, gate))
  {
    InvAlways(w0, es);
    NothingThere(w, gate);
    var e := Open(gate, binding, now);
    var w1 := w.(run := Opened(gate));
    var w2 := w1.(files := w.files[CapacityFile(gate.cohort, gate) := CapacityRecord(gate)],
                  run := Snapshot(gate, FinalTagOf(w, gate.cohort)));
    Then(w0, es, w, e, w1);
    Then(w0, es + [e], w1, WriteCapacity, w2);
    Then(w0, es + [e] + [WriteCapacity], w2, WriteAttempt, BegunFrom(w, gate));
  }

  // ---- two builds of one image ----

  function BuiltEvents(es: seq<Event>, image: ImageId): seq<Event> {
    es + [BuildFirst] + [LoadFirst(image)] + [WriteOwnership] + [LoadSecond(image)]
  }

  function BuiltFrom(w: World, a: Attempt, image: ImageId): World {
    w.(run := SecondLoaded(a, image, image), outputs := w.outputs + {a.cohort},
       temporary := w.temporary[a.id := image], final := w.final[a.cohort := image],
       files := w.files[OwnershipFile(a.cohort, a.id) := OwnershipRecord(a.cohort, a.id, a, image)])
  }

  lemma Builds(w0: World, es: seq<Event>, w: World, a: Attempt, image: ImageId)
    requires Reaches(w0, es, w) && w.run == Intended(a)
    ensures Reaches(w0, BuiltEvents(es, image), BuiltFrom(w, a, image))
  {
    var w1 := w.(run := FirstBuilt(a), outputs := w.outputs + {a.cohort});
    var w2 := w1.(run := FirstLoaded(a, image), temporary := w.temporary[a.id := image]);
    var w3 := w2.(run := Owned(a, image),
                  files := w.files[OwnershipFile(a.cohort, a.id) := OwnershipRecord(a.cohort, a.id, a, image)]);
    Then(w0, es, w, BuildFirst, w1);
    Then(w0, es + [BuildFirst], w1, LoadFirst(image), w2);
    Then(w0, es + [BuildFirst] + [LoadFirst(image)], w2, WriteOwnership, w3);
    Then(w0, es + [BuildFirst] + [LoadFirst(image)] + [WriteOwnership], w3, LoadSecond(image), BuiltFrom(w, a, image));
  }

  // ---- completion and receipt ----

  function FinishedEvents(es: seq<Event>, observedAt: int): seq<Event> {
    es + [RemoveOutputs(true)] + [RemoveTemporaryTag] + [WriteCompletion(observedAt)] + [WriteReceipt]
  }

  function FinishedFrom(w: World, a: Attempt, receipt: Receipt): World {
    w.(run := Idle, outputs := w.outputs - {a.cohort}, temporary := w.temporary - {a.id},
       files := w.files[CompletionFile(a.cohort, a.id) := CompletionRecord(a.cohort, a.id, a, receipt)]
         [ReceiptFile(a.cohort) := ReceiptRecord(receipt)])
  }

  lemma Finishes(w0: World, es: seq<Event>, w: World, a: Attempt, image: ImageId, observedAt: int)
    requires Reaches(w0, es, w) && w.run == SecondLoaded(a, image, image)
    ensures Reaches(w0, FinishedEvents(es, observedAt), FinishedFrom(w, a, Receipt(a.cohort, image, image, observedAt)))
  {
    var receipt := Receipt(a.cohort, image, image, observedAt);
    var w1 := w.(run := Unwinding(a, Some((image, image))), outputs := w.outputs - {a.cohort});
    var w2 := w1.(run := Released(a, image, image), temporary := w.temporary - {a.id});
    var w3 := w2.(run := Completed(a, receipt),
                  files := w.files[CompletionFile(a.cohort, a.id) := CompletionRecord(a.cohort, a.id, a, receipt)]);
    Then(w0, es, w, RemoveOutputs(true), w1);
    Then(w0, es + [RemoveOutputs(true)], w1, RemoveTemporaryTag, w2);
    Then(w0, es + [RemoveOutputs(true)] + [RemoveTemporaryTag], w2, WriteCompletion(observedAt), w3);
    Then(w0, es + [RemoveOutputs(true)] + [RemoveTemporaryTag] + [WriteCompletion(observedAt)], w3, WriteReceipt,
         FinishedFrom(w, a, receipt));
  }

  function QualifiedEvents(
      es: seq<Event>, gate: Capacity, binding: nat, now: int, image: ImageId, observedAt: int): seq<Event>
  {
    FinishedEvents(BuiltEvents(BegunEvents(es, gate, binding, now), image), observedAt)
  }

  /** Whatever came before: if the set opens, the cohort is free and the host observation is new, then two
      agreeing builds end with the receipt and the final tag on that image, and the set opens again while its
      receipts are current. */
  lemma QualificationCompletes(
      w0: World, es: seq<Event>, gate: Capacity, binding: nat, now: int, image: ImageId, observedAt: int, later: int)
    requires Initial(w0) && Legal(w0, es) && Startable(After(w0, es), gate, binding, now)
    requires -300_000_000 <= later - observedAt <= 86_400_000_000
    requires OthersCurrent(After(w0, es).files, gate.cohort, later)
    ensures var all := QualifiedEvents(es, gate, binding, now, image, observedAt);
      && Legal(w0, all) && Qualified(After(w0, all), gate.cohort, image, observedAt)
      && Opens(After(w0, all).files, w0.receiptSet, binding, later)
  {
    var w, all := After(w0, es), QualifiedEvents(es, gate, binding, now, image, observedAt);
    InvAlways(w0, es);
    ReopensExactlyWhenUndamaged(w0, es, binding, now);
    Begins(w0, es, w, gate, binding, now);
    var begun, a := BegunFrom(w, gate), AttemptIn(w, gate);
    Builds(w0, BegunEvents(es, gate, binding, now), begun, a, image);
    Finishes(w0, BuiltEvents(BegunEvents(es, gate, binding, now), image), BuiltFrom(begun, a, image), a, image, observedAt);
    ReopensExactlyWhenUndamaged(w0, all, binding, later);
    FinishedIsQualified(w, gate, image, observedAt);
  }

  predicate Qualified(w: World, c: Cohort, image: ImageId, observedAt: int) {
    && w.run.Idle? && FinalTagOf(w, c) == Some(image)
    && ReceiptFile(c) in w.files && w.files[ReceiptFile(c)] == ReceiptRecord(Receipt(c, image, image, observedAt))
  }

  lemma FinishedIsQualified(w: World, gate: Capacity, image: ImageId, observedAt: int)
    requires HasManifest(w.files)
    ensures var a := AttemptIn(w, gate);
      var done := FinishedFrom(BuiltFrom(BegunFrom(w, gate), a, image), a, Receipt(gate.cohort, image, image, observedAt));
      && Qualified(done, gate.cohort, image, observedAt)
      && (forall c :: ReceiptFile(c) in done.files && c != gate.cohort ==>
            ReceiptFile(c) in w.files && done.files[ReceiptFile(c)] == w.files[ReceiptFile(c)])
      && HasManifest(done.files) && done.files[ManifestFile] == w.files[ManifestFile] && done.made == w.made
  {
  }

  // ---- what a finished run leaves to the next ----

  /** The receipts of the other cohorts are within their day. */
  ghost predicate OthersCurrent(files: Files, c: Cohort, now: int) {
    forall d: Cohort :: d != c && ReceiptFile(d) in files ==> ReceiptCurrent(files[ReceiptFile(d)], now)
  }

  ghost predicate OthersKept(files: Files, later: Files, c: Cohort) {
    forall d: Cohort :: d != c ==>
      (ReceiptFile(d) in later <==> ReceiptFile(d) in files)
      && (ReceiptFile(d) in files ==> later[ReceiptFile(d)] == files[ReceiptFile(d)])
  }

  /** The run under way, if any, works for this cohort on a directory that is there. */
  predicate WorksFor(w: World, c: Cohort) {
    w.made && match w.run
      case Idle => true
      case MadeDirectory => false
      case Opened(capacity) => capacity.cohort == c
      case Snapshot(capacity, _) => capacity.cohort == c
      case CleanupOpened(_, _) => false
      case CleanupSnapshot(_, _) => false
      case CleanupUntagged(_, _) => false
      case _ => w.run.attempt.cohort == c
  }

  predicate WithinRun(e: Event) { !e.MakeDirectory? && !e.Open? && !e.WriteCapacity? && !e.Stop? }

  lemma StepWithin(w: World, e: Event, c: Cohort)
    requires Enabled(w, e) && (WithinRun(e) || e.WriteCapacity?) && WorksFor(w, c)
    ensures WorksFor(Apply(w, e), c) && OthersKept(w.files, Apply(w, e).files, c)
    ensures WithinRun(e) ==> !Damages(w, e)
  {
  }

  lemma {:induction false} RunWithin(w0: World, es: seq<Event>, more: seq<Event>, c: Cohort)
    requires Legal(w0, es + more) && (forall e :: e in more ==> WithinRun(e))
    requires Legal(w0, es) && WorksFor(After(w0, es), c)
    ensures WorksFor(After(w0, es + more), c) && OthersKept(After(w0, es).files, After(w0, es + more).files, c)
    ensures Damaged(w0, es + more) <==> Damaged(w0, es)
    decreases |more|
  {
    if more == [] {
      assert es + more == es;
    } else {
      var shorter, e := more[..|more| - 1], more[|more| - 1];
      assert more == shorter + [e] && es + more == (es + shorter) + [e];
      assert ((es + shorter) + [e])[..|es + shorter|] == es + shorter;
      RunWithin(w0, es, shorter, c);
      DamagedAfter(w0, es + shorter, e);
      Extend(w0, es + shorter, e);
      StepWithin(After(w0, es + shorter), e, c);
    }
  }

  /** However a qualification got there: the set it leaves opens exactly when its host observation was new and
      every receipt is within its day. */
  lemma ReopensAfterRun(
      w0: World, es: seq<Event>, gate: Capacity, binding: nat, now: int, rest: seq<Event>, later: int)
    requires Initial(w0) && gate.operation == Qualification && (forall e :: e in rest ==> WithinRun(e))
    requires var all := es + [Open(gate, binding, now)] + [WriteCapacity] + rest;
      Legal(w0, all) && After(w0, all).run.Idle? && ReceiptFile(gate.cohort) in After(w0, all).files
    ensures Legal(w0, es)
    ensures var all := es + [Open(gate, binding, now)] + [WriteCapacity] + rest;
      var files := After(w0, all).files;
      Opens(files, w0.receiptSet, binding, later) <==>
        && gate.host !in Hosts(After(w0, es).files)
        && ReceiptCurrent(files[ReceiptFile(gate.cohort)], later)
        && OthersCurrent(After(w0, es).files, gate.cohort, later)
  {
    var opening, all := Open(gate, binding, now), es + [Open(gate, binding, now)] + [WriteCapacity] + rest;
    Appended(w0, es + [opening] + [WriteCapacity], rest);
    Appended(w0, es + [opening], [WriteCapacity]);
    Appended(w0, es, [opening]);
    RunBegun(w0, es, gate, binding, now);
    var begun := After(w0, es + [opening] + [WriteCapacity]);
    RunWithin(w0, es + [opening] + [WriteCapacity], rest, gate.cohort);
    ReopensExactlyWhenUndamaged(w0, all, binding, later);
    CurrentSplit(begun.files, After(w0, all).files, gate.cohort, binding, later);
    CurrentOthers(After(w0, es).files, begun.files, gate.cohort, later);
  }

  lemma RunBegun(w0: World, es: seq<Event>, gate: Capacity, binding: nat, now: int)
    requires Initial(w0) && gate.operation == Qualification
    requires Legal(w0, es) && Legal(w0, es + [Open(gate, binding, now)])
    requires Legal(w0, es + [Open(gate, binding, now)] + [WriteCapacity])
    ensures var begun := After(w0, es + [Open(gate, binding, now)] + [WriteCapacity]);
      && WorksFor(begun, gate.cohort) && BindingMatches(begun.files, binding)
      && OthersKept(After(w0, es).files, begun.files, gate.cohort)
    ensures Damaged(w0, es + [Open(gate, binding, now)] + [WriteCapacity]) <==> gate.host in Hosts(After(w0, es).files)
  {
    var opening := Open(gate, binding, now);
    var w := After(w0, es);
    DamagedAfter(w0, es, opening);
    Extend(w0, es, opening);
    InvAlways(w0, es);
    ReopensExactlyWhenUndamaged(w0, es, binding, now);
    var started := After(w0, es + [opening]);
    assert started == w.(run := Opened(gate));
    DamagedAfter(w0, es + [opening], WriteCapacity);
    Extend(w0, es + [opening], WriteCapacity);
  }

  lemma CurrentSplit(files: Files, later: Files, c: Cohort, binding: nat, now: int)
    requires BindingMatches(files, binding) && ManifestFile in later && later[ManifestFile] == files[ManifestFile]
    requires OthersKept(files, later, c) && ReceiptFile(c) in later
    ensures Current(later, binding, now) <==>
      ReceiptCurrent(later[ReceiptFile(c)], now) && OthersCurrent(files, c, now)
  {
  }

  lemma CurrentOthers(files: Files, later: Files, c: Cohort, now: int)
    requires OthersKept(files, later, c)
    ensures OthersCurrent(later, c, now) <==> OthersCurrent(files, c, now)
  {
  }
}
