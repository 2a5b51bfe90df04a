/** Histories without a single stop that still end badly: the conditions in Recovery and CleanupOutcome are
    met by ordinary runs, so none of the clauses there is idle. */
module Histories {
  import opened Results
  import opened ReceiptSet
  import opened Protocol
  import opened ProtocolInvariant
  import opened Recovery
  import opened CleanupOutcome
  import HostCapacity

  // ---- the first attempt in a new set ----

  function Created(m: Manifest): seq<Event> { [MakeDirectory] + [WriteManifest(m)] }

  function Begun(m: Manifest, gate: Capacity, now: int): seq<Event> {
    Created(m) + [Open(gate, m.binding, now)] + [WriteCapacity] + [WriteAttempt]
  }

  function Built(m: Manifest, gate: Capacity, now: int, first: ImageId, second: ImageId): seq<Event> {
    Begun(m, gate, now) + [BuildFirst] + [LoadFirst(first)] + [WriteOwnership] + [LoadSecond(second)]
  }

  /** The builds differ: the script raises, removes its outputs and its temporary tag, and exits. */
  function Differed(m: Manifest, gate: Capacity, now: int, first: ImageId, second: ImageId): seq<Event> {
    Built(m, gate, now, first, second) + [RemoveOutputs(false)] + [RemoveTemporaryTag]
  }

  function FirstAttempt(w0: World, m: Manifest, gate: Capacity): Attempt {
    NewAttempt(m, gate, FinalTagOf(w0, gate.cohort))
  }

  predicate FreshGate(w0: World, m: Manifest, gate: Capacity) {
    Initial(w0) && CapacityScoped(gate, Qualification, w0.receiptSet, gate.cohort)
  }

  /** The history and the undamaged, undiverged world it leads to. */
  ghost predicate Leads(w0: World, es: seq<Event>, w: World, a: Attempt) {
    Legal(w0, es) && After(w0, es) == w && !Damaged(w0, es) && !HasDiverged(w0, es, a)
  }

  lemma Step(w0: World, es: seq<Event>, w: World, a: Attempt, e: Event)
    requires Leads(w0, es, w, a) && Enabled(w, e) && !Damages(w, e) && !Diverges(w, e, a)
    ensures Leads(w0, es + [e], Apply(w, e), a)
  {
    Extend(w0, es, e);
    DamagedAfter(w0, es, e);
    assert (es + [e])[..|es + [e]| - 1] == es;
  }

  function CreatedIn(w0: World, m: Manifest): World {
    w0.(made := true, files := map[ManifestFile := ManifestRecord(m)])
  }

  lemma CreatedLeads(w0: World, m: Manifest, a: Attempt)
    requires Initial(w0)
    ensures Leads(w0, Created(m), CreatedIn(w0, m), a)
  {
    Step(w0, [], w0, a, MakeDirectory);
    assert [] + [MakeDirectory] == [MakeDirectory];
    Step(w0, [MakeDirectory], w0.(made := true, run := MadeDirectory), a, WriteManifest(m));
    assert CreatedIn(w0, m) == w0.(made := true, run := Idle, files := w0.files[ManifestFile := ManifestRecord(m)]);
  }

  lemma FreshOpens(w0: World, m: Manifest, gate: Capacity, now: int)
    requires FreshGate(w0, m, gate)
    ensures Enabled(CreatedIn(w0, m), Open(gate, m.binding, now))
  {
    var w := CreatedIn(w0, m);
    CreatedLeads(w0, m, FirstAttempt(w0, m, gate));
    ReopensExactlyWhenUndamaged(w0, Created(m), m.binding, now);
  }

  function BegunIn(w0: World, m: Manifest, gate: Capacity): World {
    var a := FirstAttempt(w0, m, gate);
    CreatedIn(w0, m).(run := Intended(a), files := map[ManifestFile := ManifestRecord(m)]
      [CapacityFile(gate.cohort, gate) := CapacityRecord(gate)][At(a.id) := AttemptRecord(a)])
  }

  lemma BegunLeads(w0: World, m: Manifest, gate: Capacity, now: int)
    requires FreshGate(w0, m, gate)
    ensures Leads(w0, Begun(m, gate, now), BegunIn(w0, m, gate), FirstAttempt(w0, m, gate))
  {
    var a, w1 := FirstAttempt(w0, m, gate), CreatedIn(w0, m);
    CreatedLeads(w0, m, a);
    FreshOpens(w0, m, gate, now);
    Step(w0, Created(m), w1, a, Open(gate, m.binding, now));
    var w2 := w1.(run := Opened(gate));
    Step(w0, Created(m) + [Open(gate, m.binding, now)], w2, a, WriteCapacity);
    var w3 := Apply(w2, WriteCapacity);
    Step(w0, Created(m) + [Open(gate, m.binding, now)] + [WriteCapacity], w3, a, WriteAttempt);
  }

  function OwnedIn(w0: World, m: Manifest, gate: Capacity, first: ImageId): World {
    var a, w := FirstAttempt(w0, m, gate), BegunIn(w0, m, gate);
    w.(run := Owned(a, first), outputs := {gate.cohort}, temporary := map[a.id := first],
       files := w.files[OwnedAt(a.id) := OwnershipRecord(a.cohort, a.id, a, first)])
  }

  lemma OwnedLeads(w0: World, m: Manifest, gate: Capacity, now: int, first: ImageId)
    requires FreshGate(w0, m, gate)
    ensures Leads(w0, Begun(m, gate, now) + [BuildFirst] + [LoadFirst(first)] + [WriteOwnership],
                  OwnedIn(w0, m, gate, first), FirstAttempt(w0, m, gate))
  {
    var a, w, es := FirstAttempt(w0, m, gate), BegunIn(w0, m, gate), Begun(m, gate, now);
    BegunLeads(w0, m, gate, now);
    Step(w0, es, w, a, BuildFirst);
    var w1 := w.(run := FirstBuilt(a), outputs := {gate.cohort});
    assert w1.outputs == w.outputs + {gate.cohort};
    Step(w0, es + [BuildFirst], w1, a, LoadFirst(first));
    var w2 := w1.(run := FirstLoaded(a, first), temporary := map[a.id := first]);
    assert w2.temporary == w1.temporary[a.id := first];
    Step(w0, es + [BuildFirst] + [LoadFirst(first)], w2, a, WriteOwnership);
  }

  /** How that attempt ends when its builds differ: tags and outputs gone, the final tag on the second build. */
  function DifferedIn(w0: World, m: Manifest, gate: Capacity, first: ImageId, second: ImageId): World {
    OwnedIn(w0, m, gate, first).(run := Idle, outputs := {}, temporary := map[], final := w0.final[gate.cohort := second])
  }

  ghost predicate Exits(w0: World, es: seq<Event>, w: World, a: Attempt, diverged: bool) {
    && Legal(w0, es) && After(w0, es) == w && !Damaged(w0, es)
    && (HasDiverged(w0, es, a) <==> diverged)
  }

  lemma ExitStep(w0: World, es: seq<Event>, w: World, a: Attempt, diverged: bool, e: Event)
    requires Exits(w0, es, w, a, diverged) && Enabled(w, e) && !Damages(w, e)
    ensures Exits(w0, es + [e], Apply(w, e), a, diverged || Diverges(w, e, a))
  {
    Extend(w0, es, e);
    DamagedAfter(w0, es, e);
    assert (es + [e])[..|es + [e]| - 1] == es;
  }

  lemma DifferedLeads(w0: World, m: Manifest, gate: Capacity, now: int, first: ImageId, second: ImageId)
    requires FreshGate(w0, m, gate)
    ensures Exits(w0, Differed(m, gate, now, first, second), DifferedIn(w0, m, gate, first, second),
                  FirstAttempt(w0, m, gate), second != first && FinalTagOf(w0, gate.cohort) != Some(second))
  {
    var a, w := FirstAttempt(w0, m, gate), OwnedIn(w0, m, gate, first);
    var es := Begun(m, gate, now) + [BuildFirst] + [LoadFirst(first)] + [WriteOwnership];
    var diverged := second != first && FinalTagOf(w0, gate.cohort) != Some(second);
    OwnedLeads(w0, m, gate, now, first);
    ExitStep(w0, es, w, a, false, LoadSecond(second));
    var w1 := w.(run := SecondLoaded(a, first, second), final := w0.final[gate.cohort := second]);
    ExitStep(w0, es + [LoadSecond(second)], w1, a, diverged, RemoveOutputs(false));
    var w2 := w1.(run := Unwinding(a, None), outputs := {});
    assert w2.outputs == w1.outputs - {gate.cohort};
    ExitStep(w0, es + [LoadSecond(second)] + [RemoveOutputs(false)], w2, a, diverged, RemoveTemporaryTag);
    assert map[] == w2.temporary - {a.id};
  }

  lemma FirstFiles(w0: World, m: Manifest, gate: Capacity, first: ImageId, second: ImageId)
    ensures var files := DifferedIn(w0, m, gate, first, second).files;
      && HasManifest(files) && files[ManifestFile].manifest == m
      && HoldsAttempt(files, FirstAttempt(w0, m, gate)) && Unsettled(files, FirstAttempt(w0, m, gate).id)
      && (forall c :: ReceiptFile(c) !in files)
      && Hosts(files) == {gate.host}
  {
    assert CapacityFile(gate.cohort, gate) in DifferedIn(w0, m, gate, first, second).files;
  }

  lemma FirstUnresolved(w0: World, m: Manifest, gate: Capacity, now: int, first: ImageId, second: ImageId)
    requires FreshGate(w0, m, gate)
    ensures var files := DifferedIn(w0, m, gate, first, second).files;
      && FirstAttempt(w0, m, gate) in Unresolved(files, w0.receiptSet, gate.cohort)
      && Opens(files, w0.receiptSet, m.binding, now)
  {
    var es, w := Differed(m, gate, now, first, second), DifferedIn(w0, m, gate, first, second);
    DifferedLeads(w0, m, gate, now, first, second);
    FirstFiles(w0, m, gate, first, second);
    ReopensExactlyWhenUndamaged(w0, es, m.binding, now);
    UnresolvedIn(w0, es, w.files, FirstAttempt(w0, m, gate));
  }

  lemma UnresolvedIn(w0: World, es: seq<Event>, files: Files, a: Attempt)
    requires Initial(w0) && Legal(w0, es) && After(w0, es).files == files && HasManifest(files)
    requires HoldsAttempt(files, a) && Unsettled(files, a.id)
    ensures a in Unresolved(files, w0.receiptSet, a.cohort)
  {
    InvAlways(w0, es);
    UnresolvedAre(files, w0.receiptSet, a.cohort);
  }

  lemma NoStop(m: Manifest, gate: Capacity, now: int, first: ImageId, second: ImageId)
    ensures Stop !in Differed(m, gate, now, first, second)
  {
  }

  /** A build that is not repeatable, with no stop anywhere: the set still opens, but no later events at all
      resolve the attempt or give its cohort a receipt. */
  lemma UnrepeatableBuildBlocksItsCohort(
      w0: World, m: Manifest, gate: Capacity, now: int, first: ImageId, second: ImageId, more: seq<Event>)
    requires FreshGate(w0, m, gate)
    requires second != first && FinalTagOf(w0, gate.cohort) != Some(second)
    requires Legal(w0, Differed(m, gate, now, first, second) + more)
    ensures var es := Differed(m, gate, now, first, second);
      && Stop !in es && Legal(w0, es)
      && Opens(After(w0, es).files, w0.receiptSet, m.binding, now)
      && FirstAttempt(w0, m, gate) in Unresolved(After(w0, es + more).files, w0.receiptSet, gate.cohort)
      && ReceiptFile(gate.cohort) !in After(w0, es + more).files
  {
    var es := Differed(m, gate, now, first, second);
    DifferedLeads(w0, m, gate, now, first, second);
    FirstUnresolved(w0, m, gate, now, first, second);
    NoStop(m, gate, now, first, second);
    DivergedForever(w0, es, more, FirstAttempt(w0, m, gate));
  }

  /** Cleaning up under a scoped receipt that wraps the host observation of the attempt: every check of the
      running script passes and nothing stops, yet the set now holds two records of one observation, which no
      later run accepts (`HostsDistinct` is part of `Opens`). */
  lemma ReusedObservationDamages(
      w0: World, m: Manifest, gate: Capacity, now: int, first: ImageId, second: ImageId)
    requires FreshGate(w0, m, gate)
    ensures var again := gate.(operation := Cleanup);
      var es := Differed(m, gate, now, first, second) + [Open(again, m.binding, now)] + [WriteCapacity];
      && CapacityScoped(again, Cleanup, w0.receiptSet, gate.cohort)
      && Stop !in es && Legal(w0, es) && Damaged(w0, es)
      && !HostsDistinct(After(w0, es).files)
  {
    var es, again := Differed(m, gate, now, first, second), gate.(operation := Cleanup);
    var w, a := DifferedIn(w0, m, gate, first, second), FirstAttempt(w0, m, gate);
    DifferedLeads(w0, m, gate, now, first, second);
    FirstUnresolved(w0, m, gate, now, first, second);
    FirstFiles(w0, m, gate, first, second);
    ReuseRecorded(w0, es, w, again, m.binding, now, a);
    NoStop(m, gate, now, first, second);
  }

  lemma ReuseRecorded(
      w0: World, es: seq<Event>, w: World, again: Capacity, binding: nat, now: int, a: Attempt)
    requires Initial(w0) && Legal(w0, es) && After(w0, es) == w && w.run.Idle? && w.made && w.outputs == {}
    requires Opens(w.files, w0.receiptSet, binding, now) && w.receiptSet == w0.receiptSet
    requires CapacityScoped(again, Cleanup, w0.receiptSet, again.cohort)
    requires a in Unresolved(w.files, w0.receiptSet, again.cohort) && a.cohort == again.cohort
    requires again.host in Hosts(w.files) && CapacityFile(again.cohort, again) !in w.files
    ensures var reused := es + [Open(again, binding, now)] + [WriteCapacity];
      && Legal(w0, reused) && Damaged(w0, reused)
      && !HostsDistinct(After(w0, reused).files)
  {
    HostRefused(w, again);
    InvAlways(w0, es);
    CleanupOpens(w, again, binding, now, a);
    CleanupActs(w, again, a);
    Extend(w0, es, Open(again, binding, now));
    Extend(w0, es + [Open(again, binding, now)], WriteCapacity);
    DamagedAfter(w0, es + [Open(again, binding, now)], WriteCapacity);
  }

  lemma HostRefused(w: World, again: Capacity)
    requires CapacityFile(again.cohort, again) !in w.files && again.host in Hosts(w.files)
    ensures !HostsDistinct(w.files[CapacityFile(again.cohort, again) := CapacityRecord(again)])
  {
    HostsAdded(w.files, again);
  }
}
