/** The qualification protocol as a machine over the set directory, Docker's tags and the shared output
    directory.  One event is one durable effect, so a run may stop between any two of them; the per-set lock
    means at most one run is under way. */
module Protocol {
  import opened Results
  import opened ReceiptSet
  import HostCapacity

  /** How far the run under way has got: what it holds in memory after its last durable effect. */
  datatype Run =
    | Idle
    | MadeDirectory
    | Opened(capacity: Capacity)
    | Snapshot(capacity: Capacity, baseline: Option<ImageId>)
    | Intended(attempt: Attempt)
    | FirstBuilt(attempt: Attempt)
    | FirstLoaded(attempt: Attempt, first: ImageId)
    | Owned(attempt: Attempt, first: ImageId)
    | SecondLoaded(attempt: Attempt, first: ImageId, second: ImageId)
    | Unwinding(attempt: Attempt, built: Option<(ImageId, ImageId)>)
    | Released(attempt: Attempt, first: ImageId, second: ImageId)
    | Completed(attempt: Attempt, receipt: Receipt)
    | CleanupOpened(capacity: Capacity, attempt: Attempt)
    | CleanupSnapshot(capacity: Capacity, attempt: Attempt)
    | CleanupUntagged(capacity: Capacity, attempt: Attempt)

  datatype World = World(
    receiptSet: nat,
    made: bool,
    files: Files,
    temporary: map<AttemptId, ImageId>,
    final: map<Cohort, ImageId>,
    outputs: set<Cohort>,
    run: Run)

  datatype Event =
    | MakeDirectory
    | RemoveDirectory
    | WriteManifest(manifest: Manifest)
    | Open(gate: Capacity, binding: nat, now: int)
    | WriteCapacity
    | WriteAttempt
    | BuildFirst
    | LoadFirst(image: ImageId)
    | WriteOwnership
    | LoadSecond(image: ImageId)
    | RemoveOutputs(succeeded: bool)
    | RemoveTemporaryTag
    | WriteCompletion(observedAt: int)
    | WriteReceipt
    | WriteCleanup
    | Stop

  const CLOCK_SKEW := 300_000_000
  const RECEIPT_MAX_AGE := 86_400_000_000

  predicate ReceiptValid(r: Record, c: Cohort, now: int) {
    && r.ReceiptRecord? && r.receipt.cohort == c && r.receipt.first == r.receipt.second
    && r.receipt.observedAt <= now + CLOCK_SKEW
    && now - r.receipt.observedAt <= RECEIPT_MAX_AGE
  }

  predicate HasManifest(files: Files) { ManifestFile in files && files[ManifestFile].ManifestRecord? }

  ghost predicate ReceiptsValid(files: Files, now: int) {
    forall c: Cohort :: ReceiptFile(c) in files ==> ReceiptValid(files[ReceiptFile(c)], c, now)
  }

  /** _open_receipt_set on an existing directory, under the repository inputs `binding` at time `now`. */
  ghost predicate Opens(files: Files, receiptSet: nat, binding: nat, now: int) {
    && HasManifest(files)
    && files[ManifestFile].manifest.binding == binding
    && ReceiptsValid(files, now)
    && GraphSound(files, receiptSet, files[ManifestFile].manifest)
  }

  function FinalTagOf(w: World, c: Cohort): Option<ImageId> { if c in w.final then Some(w.final[c]) else None }

  function OwnedOf(files: Files, a: Attempt): Option<ImageId> {
    var n := OwnershipFile(a.cohort, a.id);
    if n in files && files[n].OwnershipRecord? then Some(files[n].image) else None
  }

  /** The final tag is one cleanup may leave: the recorded baseline, or the image the attempt owns. */
  predicate TagAccounted(w: World, a: Attempt) {
    || FinalTagOf(w, a.cohort) == a.baseline
    || (OwnedOf(w.files, a).Some? && FinalTagOf(w, a.cohort) == OwnedOf(w.files, a))
  }

  function NewAttempt(m: Manifest, capacity: Capacity, baseline: Option<ImageId>): Attempt {
    Attempt(AttemptId(m, capacity.cohort, capacity), m, capacity.cohort,
            CapacityFile(capacity.cohort, capacity), capacity, baseline)
  }

  /** The checks the original makes before each effect. */
  ghost predicate Enabled(w: World, e: Event) {
    match e
    case MakeDirectory => w.run.Idle? && !w.made
    case RemoveDirectory => w.run.MadeDirectory?
    case WriteManifest(_) => w.run.MadeDirectory?
    case Open(gate, binding, now) =>
      w.run.Idle? && w.made && Opens(w.files, w.receiptSet, binding, now)
      && CapacityScoped(gate, gate.operation, w.receiptSet, gate.cohort)
      && (if gate.operation == Qualification then
            ReceiptFile(gate.cohort) !in w.files && Unresolved(w.files, w.receiptSet, gate.cohort) == {}
          else |Unresolved(w.files, w.receiptSet, gate.cohort)| == 1)
    case WriteCapacity =>
      (w.run.Opened? || w.run.CleanupOpened?) && w.outputs == {}
      && CapacityFile(w.run.capacity.cohort, w.run.capacity) !in w.files
      && HasManifest(w.files)
      && (w.run.Opened? ==>
            NewAttempt(w.files[ManifestFile].manifest, w.run.capacity, None).id !in w.temporary)
    case WriteAttempt => w.run.Snapshot? && HasManifest(w.files)
    case BuildFirst => w.run.Intended?
    case LoadFirst(_) => w.run.FirstBuilt?
    case WriteOwnership => w.run.FirstLoaded?
    case LoadSecond(_) => w.run.Owned?
    case RemoveOutputs(succeeded) =>
      if succeeded then w.run.SecondLoaded? && w.run.first == w.run.second
      else w.run.Intended? || w.run.FirstBuilt? || w.run.FirstLoaded? || w.run.Owned? || w.run.SecondLoaded?
    case RemoveTemporaryTag => w.run.Unwinding? || w.run.CleanupSnapshot?
    case WriteCompletion(_) => w.run.Released?
    case WriteReceipt => w.run.Completed?
    case WriteCleanup => w.run.CleanupUntagged? && TagAccounted(w, w.run.attempt)
    case Stop => !w.run.Idle?
  }

  ghost function Apply(w: World, e: Event): World
    requires Enabled(w, e)
  {
    match e
    case MakeDirectory => w.(made := true, run := MadeDirectory)
    case RemoveDirectory => w.(made := false, run := Idle)
    case WriteManifest(m) => w.(files := w.files[ManifestFile := ManifestRecord(m)], run := Idle)
    case Open(gate, _, _) =>
      if gate.operation == Qualification then w.(run := Opened(gate))
      else
        var a := Sole(Unresolved(w.files, w.receiptSet, gate.cohort));
        w.(run := CleanupOpened(gate, a), outputs := w.outputs - {gate.cohort})
    case WriteCapacity =>
      var c := w.run.capacity;
      w.(files := w.files[CapacityFile(c.cohort, c) := CapacityRecord(c)],
         run := if w.run.Opened? then Snapshot(c, FinalTagOf(w, c.cohort))
                else CleanupSnapshot(c, w.run.attempt))
    case WriteAttempt =>
      var a := NewAttempt(w.files[ManifestFile].manifest, w.run.capacity, w.run.baseline);
      w.(files := w.files[AttemptFile(a.cohort, a.id) := AttemptRecord(a)], run := Intended(a))
    case BuildFirst => w.(outputs := w.outputs + {w.run.attempt.cohort}, run := FirstBuilt(w.run.attempt))
    case LoadFirst(image) =>
      w.(temporary := w.temporary[w.run.attempt.id := image], run := FirstLoaded(w.run.attempt, image))
    case WriteOwnership =>
      var a := w.run.attempt;
      w.(files := w.files[OwnershipFile(a.cohort, a.id) := OwnershipRecord(a.cohort, a.id, a, w.run.first)],
         run := Owned(a, w.run.first))
    case LoadSecond(image) =>
      w.(final := w.final[w.run.attempt.cohort := image],
         run := SecondLoaded(w.run.attempt, w.run.first, image))
    case RemoveOutputs(succeeded) =>
      w.(outputs := w.outputs - {w.run.attempt.cohort},
         run := Unwinding(w.run.attempt, if succeeded then Some((w.run.first, w.run.second)) else None))
    case RemoveTemporaryTag =>
      w.(temporary := w.temporary - {w.run.attempt.id},
         run := if w.run.CleanupSnapshot? then CleanupUntagged(w.run.capacity, w.run.attempt)
                else if w.run.built.Some? then Released(w.run.attempt, w.run.built.value.0, w.run.built.value.1)
                else Idle)
    case WriteCompletion(observedAt) =>
      var a := w.run.attempt;
      var receipt := Receipt(a.cohort, w.run.first, w.run.second, observedAt);
      w.(files := w.files[CompletionFile(a.cohort, a.id) := CompletionRecord(a.cohort, a.id, a, receipt)],
         run := Completed(a, receipt))
    case WriteReceipt =>
      w.(files := w.files[ReceiptFile(w.run.attempt.cohort) := ReceiptRecord(w.run.receipt)], run := Idle)
    case WriteCleanup =>
      var a := w.run.attempt;
      var tag := if FinalTagOf(w, a.cohort) == a.baseline then BaselineUnchanged else TaskOwnedRetained;
      w.(files := w.files[CleanupFile(a.cohort, a.id) :=
           CleanupRecord(a.cohort, a.id, a, CapacityFile(w.run.capacity.cohort, w.run.capacity),
                         w.run.capacity, true, tag)],
         run := Idle)
    case Stop => w.(run := Idle)
  }

  ghost function Sole<T>(s: set<T>): T
    requires |s| == 1
  {
    var x :| x in s; x
  }

  /** Before the set exists.  Docker may already carry any final tags. */
  predicate Initial(w: World) {
    !w.made && w.files == map[] && w.temporary == map[] && w.outputs == {} && w.run == Idle
  }

  /** The event sequences the machine can take from `w0`, and where each one leads. */
  ghost predicate Legal(w0: World, es: seq<Event>)
    decreases |es|, 0
  {
    es == [] || (Legal(w0, es[..|es| - 1]) && Enabled(After(w0, es[..|es| - 1]), es[|es| - 1]))
  }

  ghost function After(w0: World, es: seq<Event>): World
    requires Legal(w0, es)
    decreases |es|, 1
  {
    if es == [] then w0 else Apply(After(w0, es[..|es| - 1]), es[|es| - 1])
  }
}
