/** Concrete inputs: the exact conditions proved of the set directory are met, and missed, by real stores. */
module Witnesses {
  import opened Results
  import opened ReceiptSet
  import opened Protocol
  import opened ProtocolInvariant
  import opened Recovery
  import opened CleanupOutcome
  import opened Histories
  import opened Misfiling
  import Progress
  import HostCapacity

  // ---- a host observation and the gates around it ----

  const COUNTERS := HostCapacity.Sample(1, 20_000_000_000, 10_000_000_000)

  /** Two readings half a minute apart of a filesystem that is half full. */
  function Observation(at: int): HostCapacity.Receipt {
    HostCapacity.Receipt(
      at + HostCapacity.MIN_INTERVAL, HostCapacity.Ready, true, HostCapacity.Ready,
      Some(HostCapacity.Anchor(COUNTERS.device, COUNTERS.total)),
      [HostCapacity.ReadingOf(COUNTERS, 1, at), HostCapacity.ReadingOf(COUNTERS, 2, at + HostCapacity.MIN_INTERVAL)],
      {})
  }

  lemma ObservationAdmissible(at: int)
    ensures HostCapacity.Admissible(Observation(at))
  {
  }

  function Gate(operation: Operation, cohort: Cohort, at: int): Capacity {
    Capacity(operation, 0, cohort, Observation(at))
  }

  const START := World(0, false, map[], map[], map[], {}, Idle)
  const MANIFEST := Manifest(0, 0)

  lemma FirstGate()
    ensures FreshGate(START, MANIFEST, Gate(Qualification, Reference, 0))
  {
    ObservationAdmissible(0);
  }

  /** The first attempt failed after two agreeing builds: its last inspection could not be made. */
  function FailedFiles(): Files { DifferedIn(START, MANIFEST, Gate(Qualification, Reference, 0), 7, 7).files }

  function FailedAttempt(): Attempt { FirstAttempt(START, MANIFEST, Gate(Qualification, Reference, 0)) }

  // ---- build output of another cohort ----

  /** After the failed attempt, another cohort's run stops with its first output on disk. */
  function OtherOutput(): seq<Event> {
    Progress.BegunEvents(Differed(MANIFEST, Gate(Qualification, Reference, 0), 0, 7, 7),
                         Gate(Qualification, LiveBatch, 1), 0, 0) + [BuildFirst] + [Stop]
  }

  lemma OtherCohortFree()
    ensures Progress.Startable(DifferedIn(START, MANIFEST, Gate(Qualification, Reference, 0), 7, 7),
                               Gate(Qualification, LiveBatch, 1), 0, 0)
  {
    var gate, es := Gate(Qualification, Reference, 0), Differed(MANIFEST, Gate(Qualification, Reference, 0), 0, 7, 7);
    var w := DifferedIn(START, MANIFEST, gate, 7, 7);
    FirstGate();
    ObservationAdmissible(1);
    DifferedLeads(START, MANIFEST, gate, 0, 7, 7);
    FirstUnresolved(START, MANIFEST, gate, 0, 7, 7);
    FirstFiles(START, MANIFEST, gate, 7, 7);
    DifferentHosts();
    InvAlways(START, es);
    UnresolvedAre(w.files, 0, LiveBatch);
    forall a | a in Unresolved(w.files, 0, LiveBatch) ensures false { OnlyAttempt(a.id); }
  }

  lemma DifferentHosts()
    ensures Observation(1) != Observation(0) && Observation(2) != Observation(0) && Observation(2) != Observation(1)
  {
    assert Observation(0).observedAt == 30_000_000;
  }

  lemma OnlyAttempt(id: AttemptId)
    ensures At(id) in FailedFiles() ==> id == FailedAttempt().id
  {
  }

  function OtherOutputIn(): World {
    var first := DifferedIn(START, MANIFEST, Gate(Qualification, Reference, 0), 7, 7);
    Progress.BegunFrom(first, Gate(Qualification, LiveBatch, 1)).(run := Idle, outputs := {LiveBatch})
  }

  lemma OtherOutputReached()
    ensures Progress.Reaches(START, OtherOutput(), OtherOutputIn())
  {
    var gate, other := Gate(Qualification, Reference, 0), Gate(Qualification, LiveBatch, 1);
    var es, w := Differed(MANIFEST, gate, 0, 7, 7), DifferedIn(START, MANIFEST, gate, 7, 7);
    FirstGate();
    DifferedLeads(START, MANIFEST, gate, 0, 7, 7);
    OtherCohortFree();
    Progress.Begins(START, es, w, other, 0, 0);
    var begun, begunEvents := Progress.BegunFrom(w, other), Progress.BegunEvents(es, other, 0, 0);
    var a := Progress.AttemptIn(w, other);
    var built := begun.(run := FirstBuilt(a), outputs := {LiveBatch});
    assert begun.outputs + {LiveBatch} == {LiveBatch};
    Progress.Then(START, begunEvents, begun, BuildFirst, built);
    Progress.Then(START, begunEvents + [BuildFirst], built, Stop, OtherOutputIn());
  }

  lemma OtherOutputFiles()
    ensures var files := OtherOutputIn().files;
      && HasManifest(files) && files[ManifestFile].manifest == MANIFEST
      && HoldsAttempt(files, FailedAttempt()) && Unsettled(files, FailedAttempt().id)
      && (forall c :: ReceiptFile(c) !in files)
      && Hosts(files) == {Observation(0), Observation(1)}
  {
    var first, gate, other := FailedFiles(), Gate(Qualification, Reference, 0), Gate(Qualification, LiveBatch, 1);
    var files := OtherOutputIn().files;
    FirstFiles(START, MANIFEST, gate, 7, 7);
    assert CapacityFile(Reference, gate) in files && CapacityFile(LiveBatch, other) in files;
    forall n | n in files && n.CapacityFile? ensures n.capacity.host in {Observation(0), Observation(1)} {
      assert n in first ==> n.capacity.host in Hosts(first);
    }
  }

  lemma OpensWithout(w0: World, es: seq<Event>, w: World, a: Attempt, binding: nat, now: int)
    requires Initial(w0) && Progress.Reaches(w0, es, w) && w.made && w.run.Idle?
    requires BindingMatches(w.files, binding) && forall c :: ReceiptFile(c) !in w.files
    requires HoldsAttempt(w.files, a) && Unsettled(w.files, a.id)
    ensures Opens(w.files, w0.receiptSet, binding, now) && a in Unresolved(w.files, w0.receiptSet, a.cohort)
  {
    ReopensExactlyWhenUndamaged(w0, es, binding, now);
    UnresolvedIn(w0, es, w.files, a);
  }

  lemma OtherOutputOpens()
    ensures Opens(OtherOutputIn().files, 0, 0, 0)
    ensures FailedAttempt() in Unresolved(OtherOutputIn().files, 0, Reference)
    ensures Observation(2) !in Hosts(OtherOutputIn().files)
  {
    OtherOutputReached();
    OtherOutputFiles();
    DifferentHosts();
    OpensWithout(START, OtherOutput(), OtherOutputIn(), FailedAttempt(), 0, 0);
  }

  /** A cleanup run of the first cohort is let in and can go no further: another cohort's output is in the way. */
  lemma OtherOutputBlocksCleanup()
    ensures var gate := Gate(Cleanup, Reference, 2);
      var admitted := OtherOutput() + [Open(gate, 0, 0)];
      && Legal(START, OtherOutput()) && FailedAttempt() in Unresolved(After(START, OtherOutput()).files, 0, Reference)
      && Legal(START, admitted) && !Legal(START, admitted + [WriteCapacity])
  {
    var gate, es := Gate(Cleanup, Reference, 2), OtherOutput();
    OtherOutputReached();
    OtherOutputOpens();
    ObservationAdmissible(2);
    CleanupAdmitted(START, es, gate, 0, 0, FailedAttempt());
    assert LiveBatch in OtherOutputIn().outputs;
  }

  // ---- a misfiled cleanup record ----

  function MisfiledName(): FileName { CleanupFile(LiveBatch, FailedAttempt().id) }

  function MisfiledRecord(): Record {
    CleanupRecord(LiveBatch, FailedAttempt().id, FailedAttempt(), ManifestFile, Gate(Cleanup, Reference, 1), true,
                  BaselineUnchanged)
  }

  /** Beside an unresolved attempt the record shuts a set that opened before. */
  lemma MisfiledShuts()
    ensures Misfiled(FailedFiles(), MisfiledName(), MisfiledRecord())
    ensures GraphSound(FailedFiles(), 0, MANIFEST)
    ensures !GraphSound(FailedFiles()[MisfiledName() := MisfiledRecord()], 0, MANIFEST)
  {
    var gate := Gate(Qualification, Reference, 0);
    FirstGate();
    FirstFiles(START, MANIFEST, gate, 7, 7);
    FirstUnresolved(START, MANIFEST, gate, 0, 7, 7);
    MisfiledCleanup(FailedFiles(), 0, MANIFEST, MisfiledName(), MisfiledRecord());
  }

  function CleanedHistory(): seq<Event> {
    CleanedEvents(Differed(MANIFEST, Gate(Qualification, Reference, 0), 0, 7, 7), Gate(Cleanup, Reference, 1), 0, 0)
    + [WriteCleanup]
  }

  lemma CleanedUp()
    ensures Legal(START, CleanedHistory()) && !Damaged(START, CleanedHistory())
    ensures var files := After(START, CleanedHistory()).files;
      && HasManifest(files) && files[ManifestFile].manifest == MANIFEST && GraphSound(files, 0, MANIFEST)
      && CleanAt(FailedAttempt().id) in files && MisfiledName() !in files
  {
    var gate, cleanup := Gate(Qualification, Reference, 0), Gate(Cleanup, Reference, 1);
    var es, w := Differed(MANIFEST, gate, 0, 7, 7), DifferedIn(START, MANIFEST, gate, 7, 7);
    FirstGate();
    DifferentHosts();
    ObservationAdmissible(1);
    DifferedLeads(START, MANIFEST, gate, 0, 7, 7);
    FirstFiles(START, MANIFEST, gate, 7, 7);
    FirstUnresolved(START, MANIFEST, gate, 0, 7, 7);
    InvAlways(START, es);
    CleanupResolves(START, es, cleanup, 0, 0, FailedAttempt());
    CleanupAdmitted(START, es, cleanup, 0, 0, FailedAttempt());
    Extend(START, CleanedEvents(es, cleanup, 0, 0), WriteCleanup);
    CleanedFilesAre(w, cleanup, FailedAttempt());
    InvAlways(START, CleanedHistory());
    RuinedIsDamaged(START, CleanedHistory());
    SoundWhenWhole(After(START, CleanedHistory()));
  }

  lemma CleanedFilesAre(w: World, gate: Capacity, a: Attempt)
    requires w.files == FailedFiles() && gate == Gate(Cleanup, Reference, 1) && a == FailedAttempt()
    requires Enabled(CleanedWorld(w, gate, a), WriteCleanup)
    ensures var files := Apply(CleanedWorld(w, gate, a), WriteCleanup).files;
      && HasManifest(files) && files[ManifestFile].manifest == MANIFEST
      && CleanAt(a.id) in files && MisfiledName() !in files
  {
  }

  /** Beside an attempt that was cleaned up the same record changes nothing. */
  lemma MisfiledIgnored()
    ensures Legal(START, CleanedHistory())
    ensures var files := After(START, CleanedHistory()).files;
      && Misfiled(files, MisfiledName(), MisfiledRecord())
      && GraphSound(files, 0, MANIFEST) && GraphSound(files[MisfiledName() := MisfiledRecord()], 0, MANIFEST)
  {
    CleanedUp();
    MisfiledCleanup(After(START, CleanedHistory()).files, 0, MANIFEST, MisfiledName(), MisfiledRecord());
  }

  // ---- a receipt that has outlived its day ----

  function QualifiedHistory(): seq<Event> {
    Progress.QualifiedEvents(Created(MANIFEST), Gate(Qualification, Reference, 0), 0, 0, 7, 0)
  }

  lemma NewSetStartable()
    ensures Legal(START, Created(MANIFEST))
    ensures Progress.Startable(After(START, Created(MANIFEST)), Gate(Qualification, Reference, 0), 0, 0)
  {
    var gate := Gate(Qualification, Reference, 0);
    FirstGate();
    CreatedLeads(START, MANIFEST, FailedAttempt());
    FreshOpens(START, MANIFEST, gate, 0);
    assert Hosts(CreatedIn(START, MANIFEST).files) == {};
  }

  lemma Outlived(files: Files, receiptSet: nat, binding: nat, now: int, c: Cohort)
    requires ReceiptFile(c) in files && !ReceiptValid(files[ReceiptFile(c)], c, now)
    ensures !Opens(files, receiptSet, binding, now)
  {
  }

  lemma NoStopQualifying()
    ensures Stop !in QualifiedHistory()
  {
  }

  /** One untroubled qualification: the set opens right after it and is refused a day later. */
  lemma ReceiptExpires()
    ensures Legal(START, QualifiedHistory()) && Stop !in QualifiedHistory()
    ensures Opens(After(START, QualifiedHistory()).files, 0, 0, 0)
    ensures !Opens(After(START, QualifiedHistory()).files, 0, 0, 86_400_000_001)
  {
    NewSetStartable();
    NoStopQualifying();
    Progress.QualificationCompletes(START, Created(MANIFEST), Gate(Qualification, Reference, 0), 0, 0, 7, 0, 0);
    Outlived(After(START, QualifiedHistory()).files, 0, 0, 86_400_000_001, Reference);
  }
}
