/** The qualification script itself: one object holding what the script changes on disk and in Docker.

    Whatever Docker, the builder, the filesystem or the clock answers is the environment's and stays open.  The
    ghost trace records every command started and each durable effect as it happens, so every state the script
    passes through is a state of the machine, and every Docker effect has its admitted command. */
module QualifyScript {
  import opened Results
  import opened ReceiptSet
  import opened Protocol
  import opened ProtocolInvariant
  import opened Recovery
  import opened Discipline
  import opened CleanupOutcome
  import opened Trace
  import HostCapacity
  import Progress

  class Qualifier {
    const receiptSet: nat
    const env: Environment
    var step: nat
    var made: bool
    var files: Files
    var temporary: map<AttemptId, ImageId>
    var final: map<Cohort, ImageId>
    var outputs: set<Cohort>

    ghost const start: World
    ghost var history: seq<Event>
    ghost var run: Run
    ghost var trace: seq<Happening>
    ghost var commands: seq<Command>
    ghost var earlier: seq<Happening>
    ghost var bound: Option<Capacity>

    ghost function State(): World
      reads this
    {
      World(receiptSet, made, files, temporary, final, outputs, run)
    }

    /** The trace tells the history; since the present run began, all of it is under the run's one gate. */
    ghost predicate Traced()
      reads this
    {
      && EventsOf(trace) == history && CommandsOf(trace) == commands && Orderly(trace) && Dated(env, trace, step)
      && earlier <= trace && Under(trace, |earlier|, bound)
    }

    ghost predicate Valid()
      reads this
    {
      && Initial(start) && start.receiptSet == receiptSet
      && Legal(start, history)
      && After(start, history) == State()
      && Traced()
    }

    constructor (receiptSet: nat, env: Environment, tags: map<Cohort, ImageId>)
      ensures Valid() && run.Idle? && history == [] && trace == [] && commands == [] && !made && final == tags
      ensures this.receiptSet == receiptSet && this.env == env && step == 0
    {
      this.receiptSet, this.env, step := receiptSet, env, 0;
      made, files, temporary, final, outputs := false, map[], map[], tags, {};
      start := World(receiptSet, false, map[], map[], tags, {}, Idle);
      history, run, trace, commands, earlier, bound := [], Idle, [], [], [], None;
    }

    /** Ghost bookkeeping: the fields have just been given the values the event prescribes. */
    ghost method Record(e: Event, before: World)
      requires Initial(start) && start.receiptSet == receiptSet && Traced()
      requires Legal(start, history) && After(start, history) == before && Enabled(before, e)
      requires State() == Apply(before, e).(run := run)
      requires OnCommand(e) ==> Preceded(e)
      modifies this`history, this`run, this`trace
      ensures Valid() && history == old(history) + [e] && State() == Apply(before, e)
      ensures trace == old(trace) + [Done(e)]
    {
      TraceNext(env, trace, Done(e), step, |earlier|, bound);
      run := Apply(before, e).run;
      history := history + [e];
      trace := trace + [Done(e)];
      Extend(start, old(history), e);
    }

    /** The last thing that happened, in this run, is the start of a command that makes this effect. */
    ghost predicate Preceded(e: Event)
      reads this
    {
      |earlier| < |trace| && trace[|trace| - 1].Started? && Causes(trace[|trace| - 1].command, e)
    }

    ghost method Stopped()
      requires Valid()
      modifies this`history, this`run, this`trace
      ensures Valid() && State() == old(State()).(run := Idle)
      ensures history == if old(run).Idle? then old(history) else old(history) + [Stop]
      ensures trace == if old(run).Idle? then old(trace) else old(trace) + [Done(Stop)]
    {
      if !run.Idle? { Record(Stop, State()); }
    }

    /** Every state the script passes through satisfies the machine's invariant. */
    lemma Reachable()
      requires Valid()
      ensures Inv(State())
    {
      InvAlways(start, history);
    }

    // ---- the capacity gate ----

    /** Since the earlier state, every command started was admitted by this gate's one receipt, inside its
        window; and no Docker effect rests on a command started before. */
    twostate predicate OnlyUnder(gate: Capacity)
      reads this
    {
      && old(trace) <= trace && old(history) <= history
      && forall i | |old(trace)| <= i < |trace| ::
           if trace[i].Started? then trace[i].gate == gate && Trace.InWindow(trace[i])
           else OnCommand(trace[i].event) ==> i > |old(trace)| && Caused(trace, i)
    }

    /** A run begins: from here on its gate is the only one. */
    ghost method Begin(gate: Capacity)
      requires Valid()
      modifies this`earlier, this`bound
      ensures Valid() && bound == Some(gate) && earlier == trace
    {
      earlier, bound := trace, Some(gate);
    }

    twostate lemma RunWasUnder(gate: Capacity)
      requires old(Valid()) && Valid() && earlier == old(trace) && bound == Some(gate)
      ensures OnlyUnder(gate)
    {
      EventsPrefix(old(trace), trace);
      forall i | |old(trace)| <= i < |trace| ensures
        if trace[i].Started? then trace[i].gate == gate && Trace.InWindow(trace[i])
        else OnCommand(trace[i].event) ==> i > |old(trace)| && Caused(trace, i)
      {
        assert OrderlyAt(trace, i) && UnderAt(trace, i, |earlier|, bound);
      }
    }

    /** require_current: the stored receipt, never a fresh one, must admit the clock and the counters of now. */
    method RequireCurrent(gate: Capacity) returns (ok: bool)
      requires Valid()
      modifies this`step
      ensures Valid()
      ensures ok <==> Admitted(env, gate, old(step))
      ensures step == old(step) + 1
    {
      var now := step;
      DatedLater(env, trace, step, step + 1);
      step := step + 1;
      ok := HostCapacity.RequireCurrentHostCapacity(gate.host, env.clock(now), env.counters(now));
    }

    /** _completed and _run: no command starts unless the stored receipt admits it at this very moment, and a
        started one may still fail. */
    method RunCommand(gate: Capacity, command: Command) returns (ok: bool)
      requires Valid() && bound == Some(gate)
      modifies this`step, this`trace, this`commands
      ensures Valid() && step == old(step) + 1
      ensures ok <==> Good(env, gate, old(step))
      ensures trace == old(trace) +
        if Admitted(env, gate, old(step)) then [StartedAt(env, gate, old(step), command)] else []
      ensures ok ==> commands == old(commands) + [command]
    {
      ok := RequireCurrent(gate);
      if ok {
        RecordStart(gate, command, old(step));
        ok := env.succeeds(step - 1);
      }
    }

    ghost method RecordStart(gate: Capacity, command: Command, at: nat)
      requires Valid() && bound == Some(gate) && at < step && Admitted(env, gate, at)
      modifies this`trace, this`commands
      ensures Valid() && commands == old(commands) + [command]
      ensures trace == old(trace) + [StartedAt(env, gate, at, command)]
    {
      var started := StartedAt(env, gate, at, command);
      HostCapacity.AdmitsInWindow(gate.host, started.now, started.sample);
      TraceNext(env, trace, started, step, |earlier|, bound);
      trace, commands := trace + [started], commands + [command];
    }

    /** Whether the next write or comparison succeeds. */
    method Succeeds() returns (ok: bool)
      requires Valid()
      modifies this`step
      ensures Valid()
      ensures ok == env.succeeds(old(step)) && step == old(step) + 1
    {
      ok := env.succeeds(step);
      DatedLater(env, trace, step, step + 1);
      step := step + 1;
    }

    method InspectTemporary(gate: Capacity, id: AttemptId) returns (r: Result<Option<ImageId>>)
      requires Valid() && bound == Some(gate)
      modifies this`step, this`trace, this`commands
      ensures Valid() && step == old(step) + 1
      ensures r == if !Good(env, gate, old(step)) then Raised
                   else Ok(if id in temporary then Some(temporary[id]) else None)
      ensures r.Ok? ==> trace == old(trace) + [StartedAt(env, gate, old(step), InspectTag(id))]
      ensures r.Ok? ==> commands == old(commands) + [InspectTag(id)]
    {
      var ok := RunCommand(gate, InspectTag(id));
      if !ok { return Raised; }
      r := Ok(if id in temporary then Some(temporary[id]) else None);
    }

    method InspectFinal(gate: Capacity, c: Cohort) returns (r: Result<Option<ImageId>>)
      requires Valid() && bound == Some(gate)
      modifies this`step, this`trace, this`commands
      ensures Valid() && step == old(step) + 1
      ensures r == if !Good(env, gate, old(step)) then Raised else Ok(FinalTagOf(State(), c))
      ensures r.Ok? ==> trace == old(trace) + [StartedAt(env, gate, old(step), InspectImage(c))]
      ensures r.Ok? ==> commands == old(commands) + [InspectImage(c)]
    {
      var ok := RunCommand(gate, InspectImage(c));
      if !ok { return Raised; }
      r := Ok(if c in final then Some(final[c]) else None);
    }

    /** _execution_boundary and _tool_versions: six commands, then the comparison of what they said. */
    method InspectBoundary(gate: Capacity) returns (ok: bool)
      requires Valid() && bound == Some(gate)
      modifies this`step, this`trace, this`commands
      ensures Valid() && old(step) <= step
      ensures Favourable(env, gate, old(step)) ==> ok
      ensures ok ==> forall t: nat :: old(step) <= t < old(step) + 6 ==> Good(env, gate, t)
      ensures ok ==> commands == BoundaryRead(old(commands))
    {
      var part := 0;
      while part < BOUNDARY_COMMANDS
        invariant part <= BOUNDARY_COMMANDS && step == old(step) + part
        invariant commands == ReadParts(old(commands), part)
        invariant Valid() && State() == old(State()) && history == old(history)
        invariant forall t: nat :: old(step) <= t < step ==> Good(env, gate, t)
      {
        ok := RunCommand(gate, ReadBoundary(part));
        if !ok { return; }
        part := part + 1;
      }
      ok := Succeeds();
    }

    // ---- opening the set ----

    method ReceiptsAccepted(now: int) returns (ok: bool)
      ensures ok <==> ReceiptsValid(files, now)
    {
      var i := 0;
      while i < |COHORTS|
        invariant 0 <= i <= |COHORTS|
        invariant forall c: Cohort :: Rank(c) < i && ReceiptFile(c) in files ==>
          ReceiptValid(files[ReceiptFile(c)], c, now)
      {
        var c := COHORTS[i];
        assert forall d: Cohort :: Rank(d) == i ==> d == c;
        if ReceiptFile(c) in files && !ReceiptValid(files[ReceiptFile(c)], c, now) { return false; }
        i := i + 1;
      }
      ok := true;
    }

    /** _open_receipt_set: creates the set on first use, then reads everything back. */
    method OpenReceiptSet(manifest: Manifest, now: int) returns (ok: bool)
      requires Valid() && run.Idle?
      modifies this`step, this`made, this`files, this`history, this`run, this`trace
      ensures Valid() && run.Idle? && old(step) <= step && (old(made) ==> step == old(step))
      ensures ok <==> made && Opens(files, receiptSet, manifest.binding, now)
      ensures made <==> old(made) || env.succeeds(old(step))
      ensures history == old(history) + OpeningEvents(old(made), made, manifest)
      ensures old(made) ==> State() == old(State())
      ensures !old(made) && made ==> State() == CreatedWorld(old(State()), manifest)
    {
      if !made {
        CreateSet(manifest);
        if !made { return false; }
      }
      if ManifestFile !in files || !files[ManifestFile].ManifestRecord? { return false; }
      if files[ManifestFile].manifest.binding != manifest.binding { return false; }
      var receipts := ReceiptsAccepted(now);
      if !receipts { return false; }
      ok := ValidateSetGraph(files, receiptSet, files[ManifestFile].manifest);
    }

    lemma EmptyUnlessMade()
      requires Valid()
      ensures !made ==> files == map[] && outputs == {} && temporary == map[]
    {
      Reachable();
      NothingWithoutFiles(State());
    }

    method CreateSet(manifest: Manifest)
      requires Valid() && run.Idle? && !made
      modifies this`step, this`made, this`files, this`history, this`run, this`trace
      ensures Valid() && run.Idle? && step == old(step) + 1
      ensures made <==> env.succeeds(old(step))
      ensures history == old(history) + OpeningEvents(false, made, manifest)
      ensures made ==> State() == CreatedWorld(old(State()), manifest)
    {
      EmptyUnlessMade();
      made := true;
      Record(MakeDirectory, old(State()));
      var written := Succeeds();
      if written { FillDirectory(manifest); } else { DropDirectory(); }
    }

    method FillDirectory(manifest: Manifest)
      requires Valid() && run.MadeDirectory?
      modifies this`files, this`history, this`run, this`trace
      ensures Valid() && run.Idle? && history == old(history) + [WriteManifest(manifest)]
      ensures files == old(files)[ManifestFile := ManifestRecord(manifest)]
    {
      ghost var before := State();
      files := files[ManifestFile := ManifestRecord(manifest)];
      Record(WriteManifest(manifest), before);
    }

    method DropDirectory()
      requires Valid() && run.MadeDirectory?
      modifies this`made, this`history, this`run, this`trace
      ensures Valid() && run.Idle? && !made && history == old(history) + [RemoveDirectory]
    {
      ghost var before := State();
      made := false;
      Record(RemoveDirectory, before);
    }

    // ---- the records of one attempt ----

    /** _capacity_snapshot: one scoped receipt is recorded at most once in a set. */
    method CapacitySnapshot(gate: Capacity) returns (ok: bool)
      requires Valid() && outputs == {}
      requires (run.Opened? || run.CleanupOpened?) && run.capacity == gate
      requires run.Opened? ==> AttemptId(files[ManifestFile].manifest, gate.cohort, gate) !in temporary
      modifies this`step, this`files, this`history, this`run, this`trace
      ensures Valid() && step == old(step) + 1
      ensures ok <==> CapacityFile(gate.cohort, gate) !in old(files) && env.succeeds(old(step))
      ensures !ok ==> State() == old(State()) && history == old(history) && trace == old(trace)
      ensures ok ==> history == old(history) + [WriteCapacity] && trace == old(trace) + [Done(WriteCapacity)]
      ensures ok ==> files == old(files)[CapacityFile(gate.cohort, gate) := CapacityRecord(gate)]
      ensures ok ==> run == if old(run).Opened? then Snapshot(gate, FinalTagOf(old(State()), gate.cohort))
                            else CleanupSnapshot(gate, old(run).attempt)
    {
      var written := Succeeds();
      if CapacityFile(gate.cohort, gate) in files || !written { return false; }
      WriteCapacityRecord(gate);
      ok := true;
    }

    method WriteCapacityRecord(gate: Capacity)
      requires Valid() && Enabled(State(), WriteCapacity) && run.capacity == gate
      modifies this`files, this`history, this`run, this`trace
      ensures Valid() && history == old(history) + [WriteCapacity] && trace == old(trace) + [Done(WriteCapacity)]
      ensures files == old(files)[CapacityFile(gate.cohort, gate) := CapacityRecord(gate)]
      ensures run == if old(run).Opened? then Snapshot(gate, FinalTagOf(old(State()), gate.cohort))
                     else CleanupSnapshot(gate, old(run).attempt)
    {
      ghost var before := State();
      files := files[CapacityFile(gate.cohort, gate) := CapacityRecord(gate)];
      Record(WriteCapacity, before);
    }

    method WriteAttemptRecord(gate: Capacity, baseline: Option<ImageId>) returns (a: Attempt)
      requires Valid() && run == Snapshot(gate, baseline)
      modifies this`files, this`history, this`run, this`trace
      ensures Valid() && history == old(history) + [WriteAttempt] && trace == old(trace) + [Done(WriteAttempt)]
      ensures run == Intended(a) && a.cohort == gate.cohort
      ensures ManifestFile in old(files) && old(files)[ManifestFile].ManifestRecord?
      ensures a.id == AttemptId(old(files)[ManifestFile].manifest, gate.cohort, gate)
    {
      ghost var before := State();
      a := NewAttempt(files[ManifestFile].manifest, gate, baseline);
      assert a.capacityFile in files;
      files := files[AttemptFile(a.cohort, a.id) := AttemptRecord(a)];
      Record(WriteAttempt, before);
    }

    method WriteOwnershipRecord(a: Attempt, image: ImageId)
      requires Valid() && run == FirstLoaded(a, image) && Preceded(WriteOwnership)
      modifies this`files, this`history, this`run, this`trace
      ensures Valid() && history == old(history) + [WriteOwnership] && trace == old(trace) + [Done(WriteOwnership)]
      ensures run == Owned(a, image)
    {
      ghost var before := State();
      files := files[OwnershipFile(a.cohort, a.id) := OwnershipRecord(a.cohort, a.id, a, image)];
      Record(WriteOwnership, before);
    }

    method WriteCompletionRecord(a: Attempt, receipt: Receipt)
      requires Valid() && run.Released? && run.attempt == a
      requires receipt == Receipt(a.cohort, run.first, run.second, receipt.observedAt)
      modifies this`files, this`history, this`run, this`trace
      ensures Valid() && history == old(history) + [WriteCompletion(receipt.observedAt)]
      ensures trace == old(trace) + [Done(WriteCompletion(receipt.observedAt))]
      ensures run == Completed(a, receipt)
    {
      ghost var before := State();
      files := files[CompletionFile(a.cohort, a.id) := CompletionRecord(a.cohort, a.id, a, receipt)];
      Record(WriteCompletion(receipt.observedAt), before);
    }

    method WriteReceiptRecord(a: Attempt, receipt: Receipt)
      requires Valid() && run == Completed(a, receipt)
      modifies this`files, this`history, this`run, this`trace
      ensures Valid() && history == old(history) + [WriteReceipt] && trace == old(trace) + [Done(WriteReceipt)]
      ensures run.Idle?
      ensures files == old(files)[ReceiptFile(a.cohort) := ReceiptRecord(receipt)]
    {
      ghost var before := State();
      files := files[ReceiptFile(a.cohort) := ReceiptRecord(receipt)];
      Record(WriteReceipt, before);
    }

    // ---- Docker effects ----

    method BuildFirstImage(gate: Capacity, a: Attempt) returns (ok: bool)
      requires Valid() && bound == Some(gate) && run == Intended(a)
      modifies this`step, this`outputs, this`history, this`run, this`trace, this`commands
      ensures Valid() && step == old(step) + 1
      ensures ok <==> Good(env, gate, old(step))
      ensures ok ==> history == old(history) + [BuildFirst] && run == FirstBuilt(a)
      ensures ok ==> trace == old(trace) + [StartedAt(env, gate, old(step), Build(a.id, false)), Done(BuildFirst)]
      ensures !ok ==> history == old(history) && run == old(run) && outputs == old(outputs)
      ensures ok ==> commands == old(commands) + [Build(a.id, false)]
    {
      ok := RunCommand(gate, Build(a.id, false));
      if ok {
        ghost var before := State();
        outputs := outputs + {a.cohort};
        Record(BuildFirst, before);
      }
    }

    /** `docker load` of the first output: the temporary tag now names whatever image was built. */
    method LoadFirstImage(gate: Capacity, a: Attempt) returns (ok: bool)
      requires Valid() && bound == Some(gate) && run == FirstBuilt(a)
      modifies this`step, this`temporary, this`history, this`run, this`trace, this`commands
      ensures Valid() && step == old(step) + 1
      ensures ok <==> Good(env, gate, old(step))
      ensures ok ==> var image := env.image(old(step));
        && history == old(history) + [LoadFirst(image)] && run == FirstLoaded(a, image)
        && trace == old(trace) + [StartedAt(env, gate, old(step), Load(a.id, false)), Done(LoadFirst(image))]
      ensures !ok ==> history == old(history) && run == old(run)
      ensures ok ==> commands == old(commands) + [Load(a.id, false)]
    {
      ok := RunCommand(gate, Load(a.id, false));
      if ok {
        ghost var before := State();
        temporary := temporary[a.id := env.image(step - 1)];
        Record(LoadFirst(env.image(step - 1)), before);
      }
    }

    method LoadSecondImage(gate: Capacity, a: Attempt) returns (ok: bool)
      requires Valid() && bound == Some(gate) && run.Owned? && run.attempt == a
      modifies this`step, this`final, this`history, this`run, this`trace, this`commands
      ensures Valid() && step == old(step) + 1
      ensures ok <==> Good(env, gate, old(step))
      ensures ok ==> var image := env.image(old(step));
        && history == old(history) + [LoadSecond(image)] && run == SecondLoaded(a, old(run).first, image)
        && trace == old(trace) + [StartedAt(env, gate, old(step), Load(a.id, true)), Done(LoadSecond(image))]
      ensures !ok ==> history == old(history) && run == old(run)
      ensures ok ==> commands == old(commands) + [Load(a.id, true)]
    {
      ok := RunCommand(gate, Load(a.id, true));
      if ok {
        ghost var before := State();
        final := final[a.cohort := env.image(step - 1)];
        Record(LoadSecond(env.image(step - 1)), before);
      }
    }

    method RemoveBuildOutputs(a: Attempt, agreed: bool)
      requires Valid() && InTry(run) && run.attempt == a
      requires agreed ==> run.SecondLoaded? && run.first == run.second
      modifies this`outputs, this`history, this`run, this`trace
      ensures Valid() && history == old(history) + [RemoveOutputs(agreed)]
      ensures trace == old(trace) + [Done(RemoveOutputs(agreed))]
      ensures run == Unwinding(a, if agreed then Some((old(run).first, old(run).second)) else None)
      ensures outputs == old(outputs) - {a.cohort}
    {
      ghost var before := State();
      outputs := outputs - {a.cohort};
      Record(RemoveOutputs(agreed), before);
    }

    /** After this the temporary tag is gone, whether or not it was there. */
    method Untag(a: Attempt)
      requires Valid() && (run.Unwinding? || run.CleanupSnapshot?) && run.attempt == a
      requires Preceded(RemoveTemporaryTag)
      modifies this`temporary, this`history, this`run, this`trace
      ensures Valid() && history == old(history) + [RemoveTemporaryTag]
      ensures trace == old(trace) + [Done(RemoveTemporaryTag)]
      ensures run == AfterUntagging(old(run)) && temporary == old(temporary) - {a.id}
    {
      ghost var before := State();
      temporary := temporary - {a.id};
      Record(RemoveTemporaryTag, before);
    }

    /** _remove_tag: inspects first and removes only what is there; both commands need admission. */
    method RemoveTemporary(gate: Capacity, a: Attempt) returns (ok: bool)
      requires Valid() && bound == Some(gate) && (run.Unwinding? || run.CleanupSnapshot?) && run.attempt == a
      modifies this`step, this`temporary, this`history, this`run, this`trace, this`commands
      ensures Valid() && old(step) <= step
      ensures ok <==> Good(env, gate, old(step)) && (a.id in old(temporary) ==> Good(env, gate, old(step) + 1))
      ensures ok ==> history == old(history) + [RemoveTemporaryTag]
      ensures ok && a.id !in old(temporary) ==>
        trace == old(trace) + [StartedAt(env, gate, old(step), InspectTag(a.id)), Done(RemoveTemporaryTag)]
      ensures ok && a.id in old(temporary) ==> trace == old(trace) + RemovalTrace(env, gate, old(step), a.id)
      ensures ok ==> run == AfterUntagging(old(run)) && temporary == old(temporary) - {a.id}
      ensures !ok ==> history == old(history) && State() == old(State())
      ensures ok ==> commands == Untagged(old(commands), a.id, a.id in old(temporary))
    {
      var tag := InspectTemporary(gate, a.id);
      if tag.Raised? { return false; }
      if tag.value.Some? {
        ok := RunCommand(gate, RemoveTag(a.id));
        if !ok { return; }
      }
      Untag(a);
      ok := true;
    }

    /** The time was read off the clock since answer `from`, and after every command that has been started. */
    ghost predicate Stamped(from: nat, time: int)
      reads this
    {
      exists t: nat :: from <= t < step && time == env.clock(t) && StartedBefore(trace, t)
    }

    // ---- one qualification ----

    /** Everything `qualify` reads before it writes: build output, the temporary tag, the present final tag. */
    method ReadyToQualify(gate: Capacity) returns (r: Result<Option<ImageId>>)
      requires Valid() && bound == Some(gate) && run == Opened(gate)
      modifies this`step, this`trace, this`commands
      ensures Valid() && old(step) <= step
      ensures r.Ok? ==> Unstarted(State(), gate) && r.value == FinalTagOf(State(), gate.cohort)
      ensures Favourable(env, gate, old(step)) && Unstarted(State(), gate) ==> r.Ok?
      ensures r.Ok? ==>
        commands == Checked(old(commands), AttemptId(files[ManifestFile].manifest, gate.cohort, gate), gate.cohort)
    {
      if outputs != {} { return Raised; }
      var id := AttemptId(files[ManifestFile].manifest, gate.cohort, gate);
      var temporaryTag := InspectTemporary(gate, id);
      if temporaryTag.Raised? || temporaryTag.value.Some? { return Raised; }
      r := InspectFinal(gate, gate.cohort);
      if r.Raised? { return; }
      var boundary := InspectBoundary(gate);
      if !boundary { r := Raised; }
    }

    method FirstBuild(gate: Capacity, a: Attempt) returns (first: Option<ImageId>, ghost done: seq<Event>)
      requires Valid() && bound == Some(gate) && run == Intended(a)
      modifies this`step, this`temporary, this`outputs, this`history, this`run, this`trace, this`commands
      ensures Valid() && old(step) <= step && history == old(history) + done && OnlyBuilding(done)
      ensures InTry(run) && run.attempt == a
      ensures first.Some? ==> done == [BuildFirst, LoadFirst(first.value)] && run == FirstLoaded(a, first.value)
      ensures Favourable(env, gate, old(step)) ==> first == Some(env.image(old(step)))
      ensures first.Some? ==> commands == BuiltOnce(old(commands), a.id) && a.id in temporary
    {
      first, done := None, [];
      var ok := BuildFirstImage(gate, a);
      if !ok { return; }
      done := [BuildFirst];
      ok := LoadFirstImage(gate, a);
      if !ok { return; }
      done := [BuildFirst, LoadFirst(run.first)];
      var tag := InspectTemporary(gate, a.id);
      if tag.Raised? { return; }
      LoadedTags();
      first := tag.value;
    }

    method SecondBuild(gate: Capacity, a: Attempt, first: ImageId)
      returns (second: Option<ImageId>, ghost done: seq<Event>)
      requires Valid() && bound == Some(gate) && run == FirstLoaded(a, first)
      modifies this`step, this`files, this`final, this`history, this`run, this`trace, this`commands
      ensures Valid() && old(step) <= step && history == old(history) + done && OnlyBuilding(done)
      ensures InTry(run) && run.attempt == a
      ensures second.Some? ==>
        done == [WriteOwnership, LoadSecond(second.value)] && run == SecondLoaded(a, first, second.value)
      ensures Favourable(env, gate, old(step)) ==> second == Some(env.image(old(step)))
      ensures second.Some? ==> commands == BuiltAgain(old(commands), a.id, a.cohort)
    {
      second, done := None, [];
      var authorized := AuthorizeFinalTag(gate, a, first);
      if !authorized { return; }
      done := [WriteOwnership];
      var ok := LoadSecondImage(gate, a);
      if !ok { return; }
      done := [WriteOwnership, LoadSecond(run.second)];
      var tag := InspectFinal(gate, a.cohort);
      if tag.Raised? { return; }
      LoadedTags();
      second := tag.value;
    }

    /** The second build, then the ownership record that must stand before its load. */
    method AuthorizeFinalTag(gate: Capacity, a: Attempt, first: ImageId) returns (ok: bool)
      requires Valid() && bound == Some(gate) && run == FirstLoaded(a, first)
      modifies this`step, this`files, this`history, this`run, this`trace, this`commands
      ensures Valid() && old(step) <= step <= old(step) + 2
      ensures ok ==> history == old(history) + [WriteOwnership] && run == Owned(a, first)
      ensures !ok ==> history == old(history) && run == old(run)
      ensures ok <==> Good(env, gate, old(step)) && env.succeeds(old(step) + 1)
      ensures ok ==> commands == old(commands) + [Build(a.id, true)]
    {
      ok := RunCommand(gate, Build(a.id, true));
      if !ok { return; }
      ok := Succeeds();
      if !ok { return; }
      WriteOwnershipRecord(a, first);
    }

    /** While a build is loaded its tag names the image the run remembers. */
    lemma LoadedTags()
      requires Valid()
      ensures run.FirstLoaded? ==> run.attempt.id in temporary && temporary[run.attempt.id] == run.first
      ensures run.SecondLoaded? ==> FinalTagOf(State(), run.attempt.cohort) == Some(run.second)
    {
      Reachable();
    }

    /** The `try`: two builds with the ownership record between them. */
    method TryBuilds(gate: Capacity, a: Attempt) returns (image: Option<ImageId>, ghost done: seq<Event>)
      requires Valid() && bound == Some(gate) && run == Intended(a)
      modifies this`step, this`files, this`temporary, this`final, this`outputs
      modifies this`history, this`run, this`trace, this`commands
      ensures Valid() && old(step) <= step && history == old(history) + done && OnlyBuilding(done)
      ensures InTry(run) && run.attempt == a
      ensures image.Some? ==> run == SecondLoaded(a, image.value, image.value) && done == BuildEvents(image.value)
      ensures Favourable(env, gate, old(step)) ==> image == Some(env.image(old(step)))
      ensures image.Some? ==>
        commands == BuiltAgain(BuiltOnce(old(commands), a.id), a.id, a.cohort) && a.id in temporary
    {
      image := None;
      var first;
      first, done := FirstBuild(gate, a);
      if first.None? { return; }
      var second;
      ghost var more;
      second, more := SecondBuild(gate, a, first.value);
      OnlyBuildingJoins(done, more);
      done := done + more;
      if second == first { image := first; }
    }

    /** ... and its `finally`: the outputs and then the temporary tag are removed whatever happened.  It succeeds
        only when both builds gave one image and the tag could be removed. */
    method BuildTwice(gate: Capacity, a: Attempt)
      returns (image: Option<ImageId>, ghost done: seq<Event>, ghost agreed: bool, ghost untagged: bool)
      requires Valid() && bound == Some(gate) && run == Intended(a)
      modifies this`step, this`files, this`temporary, this`final, this`outputs
      modifies this`history, this`run, this`trace, this`commands
      ensures Valid() && old(step) <= step && OnlyBuilding(done)
      ensures history == old(history) + done + [RemoveOutputs(agreed)] + if untagged then [RemoveTemporaryTag] else []
      ensures a.cohort !in outputs
      ensures image.Some? <==> agreed && untagged
      ensures image.Some? ==> run == Released(a, image.value, image.value) && done == BuildEvents(image.value)
      ensures image.None? ==> if untagged then run.Idle? else run.Unwinding?
      ensures Favourable(env, gate, old(step)) ==> image == Some(env.image(old(step)))
      ensures image.Some? ==> commands == BuiltTwice(old(commands), a.id, a.cohort)
    {
      image, done := TryBuilds(gate, a);
      agreed := image.Some?;
      var removed := Unwind(gate, a, image.Some?);
      untagged := removed;
      if !removed { image := None; }
    }

    method Unwind(gate: Capacity, a: Attempt, agreed: bool) returns (untagged: bool)
      requires Valid() && bound == Some(gate) && InTry(run) && run.attempt == a
      requires agreed ==> run.SecondLoaded? && run.first == run.second
      modifies this`step, this`temporary, this`outputs, this`history, this`run, this`trace, this`commands
      ensures Valid() && old(step) <= step && a.cohort !in outputs
      ensures history == old(history) + [RemoveOutputs(agreed)] + if untagged then [RemoveTemporaryTag] else []
      ensures if !untagged then run.Unwinding?
              else if agreed then run == Released(a, old(run).first, old(run).second) else run.Idle?
      ensures Favourable(env, gate, old(step)) ==> untagged
      ensures untagged ==> commands == Untagged(old(commands), a.id, a.id in old(temporary))
    {
      RemoveBuildOutputs(a, agreed);
      untagged := RemoveTemporary(gate, a);
    }

    /** `qualify`: from the checks to the receipt.  Whatever fails, the run stops where it is. */
    method Qualify(gate: Capacity) returns (r: Option<(ImageId, int)>)
      requires Valid() && bound == Some(gate) && run == Opened(gate)
      modifies this`step, this`files, this`temporary, this`final, this`outputs
      modifies this`history, this`run, this`trace, this`commands
      ensures Valid() && run.Idle? && old(step) <= step
      ensures r.Some? ==> history == old(history) + QualifyEvents(r.value.0, r.value.1)
      ensures r.Some? ==> Stamped(old(step), r.value.1)
      ensures r.Some? ==> ReceiptFile(gate.cohort) in files
      ensures r.Some? ==>
        files[ReceiptFile(gate.cohort)] == ReceiptRecord(Receipt(gate.cohort, r.value.0, r.value.0, r.value.1))
      ensures Favourable(env, gate, old(step)) && Free(old(State()), gate) ==> r.Some?
      ensures r.Some? ==> HasManifest(old(files))
      ensures r.Some? ==> var id := AttemptId(old(files)[ManifestFile].manifest, gate.cohort, gate);
        commands == QualifyCommands(old(commands), id, gate.cohort)
    {
      r := None;
      var begun := BeginAttempt(gate);
      if begun.Some? {
        r := CompleteAttempt(gate, begun.value);
      }
      if r.None? { GiveUp(gate); }
    }

    /** The outer `finally` of a failed qualification only looks at the final tag again. */
    method GiveUp(gate: Capacity)
      requires Valid() && bound == Some(gate)
      modifies this`step, this`history, this`run, this`trace, this`commands
      ensures Valid() && run.Idle? && old(step) <= step
      ensures history == if old(run).Idle? then old(history) else old(history) + [Stop]
    {
      var tag := InspectFinal(gate, gate.cohort);
      Stopped();
    }

    method MayBegin(gate: Capacity) returns (r: Result<Option<ImageId>>)
      requires Valid() && bound == Some(gate) && run == Opened(gate)
      modifies this`step, this`trace, this`commands
      ensures Valid() && old(step) <= step
      ensures r.Ok? ==> Unstarted(State(), gate) && r.value == FinalTagOf(State(), gate.cohort)
      ensures Favourable(env, gate, old(step)) && Free(old(State()), gate) ==> r.Ok?
      ensures r.Ok? ==>
        commands == Checked(old(commands), AttemptId(files[ManifestFile].manifest, gate.cohort, gate), gate.cohort)
    {
      r := ReadyToQualify(gate);
      if r.Raised? { return; }
      if ReceiptFile(gate.cohort) in files { return Raised; }
      var unresolved := UnresolvedAttempts(files, receiptSet, gate.cohort, files[ManifestFile].manifest);
      if unresolved.Raised? || unresolved.value != {} { return Raised; }
    }

    /** The checks, then the capacity record, then the intent. */
    method BeginAttempt(gate: Capacity) returns (r: Option<Attempt>)
      requires Valid() && bound == Some(gate) && run == Opened(gate)
      modifies this`step, this`files, this`history, this`run, this`trace, this`commands
      ensures Valid() && old(step) <= step
      ensures r.Some? ==> history == old(history) + [WriteCapacity] + [WriteAttempt]
      ensures r.Some? ==> run == Intended(r.value) && r.value.cohort == gate.cohort
      ensures Favourable(env, gate, old(step)) && Free(old(State()), gate) ==> r.Some?
      ensures r.Some? ==>
        HasManifest(old(files)) && r.value.id == AttemptId(old(files)[ManifestFile].manifest, gate.cohort, gate)
      ensures r.Some? ==> commands == Checked(old(commands), r.value.id, gate.cohort)
    {
      var baseline := MayBegin(gate);
      if baseline.Raised? { return None; }
      r := RecordIntent(gate, baseline.value);
    }

    method RecordIntent(gate: Capacity, baseline: Option<ImageId>) returns (r: Option<Attempt>)
      requires Valid() && run == Opened(gate) && Unstarted(State(), gate) && baseline == FinalTagOf(State(), gate.cohort)
      modifies this`step, this`files, this`history, this`run, this`trace
      ensures Valid() && old(step) <= step
      ensures r.Some? ==> history == old(history) + [WriteCapacity] + [WriteAttempt]
      ensures r.Some? ==> run == Intended(r.value) && r.value.cohort == gate.cohort
      ensures CapacityFile(gate.cohort, gate) !in old(files) && env.succeeds(old(step)) && env.succeeds(old(step) + 1) ==>
        r.Some?
      ensures r.Some? ==> r.value.id == AttemptId(old(files)[ManifestFile].manifest, gate.cohort, gate)
    {
      var recorded := CapacitySnapshot(gate);
      if !recorded { return None; }
      var written := Succeeds();
      if !written { return None; }
      var a := WriteAttemptRecord(gate, baseline);
      r := Some(a);
    }

    method CompleteAttempt(gate: Capacity, a: Attempt) returns (r: Option<(ImageId, int)>)
      requires Valid() && bound == Some(gate) && run == Intended(a)
      modifies this`step, this`files, this`temporary, this`final, this`outputs
      modifies this`history, this`run, this`trace, this`commands
      ensures Valid() && old(step) <= step
      ensures r.Some? ==> history == old(history) + CompletionEvents(r.value.0, r.value.1)
      ensures r.Some? ==> run.Idle? && ReceiptFile(a.cohort) in files
      ensures r.Some? ==> Stamped(old(step), r.value.1)
      ensures r.Some? ==>
        files[ReceiptFile(a.cohort)] == ReceiptRecord(Receipt(a.cohort, r.value.0, r.value.0, r.value.1))
      ensures Favourable(env, gate, old(step)) ==> r.Some? && r.value.0 == env.image(old(step))
      ensures r.Some? ==> commands == BoundaryRead(BuiltTwice(old(commands), a.id, a.cohort))
    {
      ghost var before := history;
      r := None;
      var image := BuildAndCompare(gate, a);
      if image.None? { return; }
      r := WriteResults(gate, a, image.value);
      if r.Some? { CompletionOrder(before, image.value, r.value.1); }
    }

    method BuildAndCompare(gate: Capacity, a: Attempt) returns (image: Option<ImageId>)
      requires Valid() && bound == Some(gate) && run == Intended(a)
      modifies this`step, this`files, this`temporary, this`final, this`outputs
      modifies this`history, this`run, this`trace, this`commands
      ensures Valid() && old(step) <= step
      ensures image.Some? ==> run == Released(a, image.value, image.value)
      ensures image.Some? ==>
        history == old(history) + BuildEvents(image.value) + [RemoveOutputs(true)] + [RemoveTemporaryTag]
      ensures Favourable(env, gate, old(step)) ==> image == Some(env.image(old(step)))
      ensures image.Some? ==> commands == BoundaryRead(BuiltTwice(old(commands), a.id, a.cohort))
    {
      ghost var done, agreed, untagged;
      image, done, agreed, untagged := BuildTwice(gate, a);
      if image.None? { return; }
      var boundary := InspectBoundary(gate);
      if !boundary { image := None; }
    }

    /** The receipt's time is read after everything else; no command follows. */
    method WriteResults(gate: Capacity, a: Attempt, image: ImageId) returns (r: Option<(ImageId, int)>)
      requires Valid() && bound == Some(gate) && run == Released(a, image, image)
      modifies this`step, this`files, this`history, this`run, this`trace
      ensures Valid() && old(step) <= step
      ensures r.Some? ==> r.value.0 == image && run.Idle?
      ensures r.Some? ==> Stamped(old(step), r.value.1)
      ensures r.Some? ==> history == old(history) + [WriteCompletion(r.value.1)] + [WriteReceipt]
      ensures r.Some? ==> ReceiptFile(a.cohort) in files
      ensures r.Some? ==>
        files[ReceiptFile(a.cohort)] == ReceiptRecord(Receipt(a.cohort, image, image, r.value.1))
      ensures Favourable(env, gate, old(step)) ==> r.Some?
    {
      r := None;
      DatedLater(env, trace, step, step);
      var observedAt := env.clock(step);
      var accepted := Succeeds();
      var completed := Succeeds();
      if !accepted || !completed { return; }
      var receipt := Receipt(a.cohort, image, image, observedAt);
      WriteCompletionRecord(a, receipt);
      var written := Succeeds();
      if !written { return; }
      WriteReceiptRecord(a, receipt);
      r := Some((image, observedAt));
    }

    // ---- one cleanup ----

    /** `cleanup_interrupted`: what it proves absent and accounted for, it proves before it writes. */
    method CleanupInterrupted(gate: Capacity, a: Attempt) returns (ok: bool, ghost record: Record)
      requires Valid() && bound == Some(gate) && run == CleanupOpened(gate, a) && a.cohort == gate.cohort && outputs == {}
      modifies this`step, this`files, this`temporary, this`history, this`run, this`trace, this`commands
      ensures Valid() && run.Idle? && old(step) <= step
      ensures ok ==> history == old(history) + CleanupEvents()
      ensures ok ==> CanClean(old(State()), gate, a)
      ensures ok ==> files == CleanedFiles(old(files), gate, a, record) && a.id !in temporary
      ensures ok ==> record == CleanupOf(State(), gate, a)
      ensures Favourable(env, gate, old(step)) && CanClean(old(State()), gate, a) ==> ok
      ensures ok ==> commands == CleanupCommands(old(commands), a.id, a.cohort, a.id in old(temporary))
    {
      ok, record := CleanupToTheEnd(gate, a);
      Stopped();
    }

    method CleanupToTheEnd(gate: Capacity, a: Attempt) returns (ok: bool, ghost record: Record)
      requires Valid() && bound == Some(gate) && run == CleanupOpened(gate, a) && a.cohort == gate.cohort && outputs == {}
      modifies this`step, this`files, this`temporary, this`history, this`run, this`trace, this`commands
      ensures Valid() && old(step) <= step
      ensures ok ==> history == old(history) + CleanupEvents() && run.Idle?
      ensures ok ==> CanClean(old(State()), gate, a)
      ensures ok ==> files == CleanedFiles(old(files), gate, a, record) && a.id !in temporary
      ensures ok ==> record == CleanupOf(State(), gate, a)
      ensures Favourable(env, gate, old(step)) && CanClean(old(State()), gate, a) ==> ok
      ensures ok ==> commands == CleanupCommands(old(commands), a.id, a.cohort, a.id in old(temporary))
    {
      ghost var before := State();
      ok := CleanupUntag(gate, a);
      record := CapacityRecord(gate);
      if !ok { return; }
      TagUnmoved(before, State(), gate, a);
      ok, record := ConfirmCleanup(gate, a);
    }

    method ConfirmCleanup(gate: Capacity, a: Attempt) returns (ok: bool, ghost record: Record)
      requires Valid() && bound == Some(gate) && run == CleanupUntagged(gate, a) && a.cohort == gate.cohort
      requires a.id !in temporary
      modifies this`step, this`files, this`history, this`run, this`trace, this`commands
      ensures Valid() && old(step) <= step
      ensures ok ==> history == old(history) + [WriteCleanup] && run.Idle? && TagAccounted(old(State()), a)
      ensures ok ==> files == old(files)[CleanAt(a.id) := record]
      ensures ok ==> record == CleanupOf(State(), gate, a)
      ensures Favourable(env, gate, old(step)) && TagAccounted(old(State()), a) ==> ok
      ensures ok ==> commands == BoundaryRead(old(commands) + [InspectImage(a.cohort)] + [InspectTag(a.id)])
    {
      record := CapacityRecord(gate);
      OwnCohort(a);
      var tag := CleanupReadback(gate, a);
      if tag.Raised? { return false, record; }
      record := WriteCleanupRecord(gate, a, tag.value);
      ok := true;
    }

    lemma OwnCohort(a: Attempt)
      requires Valid() && run.CleanupUntagged? && run.attempt == a
      ensures a.cohort == a.id.cohort
    {
      Reachable();
    }

    method CleanupUntag(gate: Capacity, a: Attempt) returns (ok: bool)
      requires Valid() && bound == Some(gate) && run == CleanupOpened(gate, a) && a.cohort == gate.cohort && outputs == {}
      modifies this`step, this`files, this`temporary, this`history, this`run, this`trace, this`commands
      ensures Valid() && old(step) <= step
      ensures ok ==> history == old(history) + [WriteCapacity] + [RemoveTemporaryTag] && run == CleanupUntagged(gate, a)
      ensures ok ==> CapacityFile(gate.cohort, gate) !in old(files) && a.id !in temporary
      ensures ok ==> files == old(files)[CapacityFile(gate.cohort, gate) := CapacityRecord(gate)]
      ensures final == old(final)
      ensures Favourable(env, gate, old(step)) && CapacityFile(gate.cohort, gate) !in old(files) ==> ok
      ensures ok ==> commands == Untagged(BoundaryRead(old(commands)), a.id, a.id in old(temporary))
    {
      ok := CleanupSnapshotTaken(gate, a);
      if ok { ok := RemoveTemporary(gate, a); }
    }

    method CleanupSnapshotTaken(gate: Capacity, a: Attempt) returns (ok: bool)
      requires Valid() && bound == Some(gate) && run == CleanupOpened(gate, a) && a.cohort == gate.cohort && outputs == {}
      modifies this`step, this`files, this`history, this`run, this`trace, this`commands
      ensures Valid() && old(step) <= step
      ensures ok ==> history == old(history) + [WriteCapacity] && run == CleanupSnapshot(gate, a)
      ensures ok ==> CapacityFile(gate.cohort, gate) !in old(files)
      ensures ok ==> files == old(files)[CapacityFile(gate.cohort, gate) := CapacityRecord(gate)]
      ensures Favourable(env, gate, old(step)) && CapacityFile(gate.cohort, gate) !in old(files) ==> ok
      ensures ok ==> commands == BoundaryRead(old(commands))
    {
      ok := CapacitySnapshot(gate);
      if ok { ok := InspectBoundary(gate); }
    }

    method CleanupReadback(gate: Capacity, a: Attempt) returns (r: Result<FinalTag>)
      requires Valid() && bound == Some(gate) && run == CleanupUntagged(gate, a) && a.id !in temporary
      modifies this`step, this`trace, this`commands
      ensures Valid() && old(step) <= step
      ensures r.Ok? ==> TagAccounted(State(), a) && r.value == TagState(State(), a)
      ensures Favourable(env, gate, old(step)) && TagAccounted(State(), a) ==> r.Ok?
      ensures r.Ok? ==> commands == BoundaryRead(old(commands) + [InspectImage(a.cohort)] + [InspectTag(a.id)])
    {
      r := FinalTagState(gate, a);
      if r.Raised? { return; }
      var temporaryTag := InspectTemporary(gate, a.id);
      if temporaryTag.Raised? || temporaryTag.value.Some? { return Raised; }
      var boundary := InspectBoundary(gate);
      if !boundary { return Raised; }
      var written := Succeeds();
      if !written { return Raised; }
    }

    /** _final_tag_state, told the image the attempt owns. */
    method FinalTagState(gate: Capacity, a: Attempt) returns (r: Result<FinalTag>)
      requires Valid() && bound == Some(gate) && run == CleanupUntagged(gate, a)
      modifies this`step, this`trace, this`commands
      ensures Valid() && old(step) <= step
      ensures r.Ok? ==> TagAccounted(State(), a) && r.value == TagState(State(), a)
      ensures r.Ok? <== Good(env, gate, old(step)) && TagAccounted(State(), a)
      ensures r.Ok? ==> commands == old(commands) + [InspectImage(a.cohort)]
    {
      OwnedReadable(a);
      var owned := OwnedImage(files, a);
      if owned.Raised? { return Raised; }
      var current := InspectFinal(gate, a.cohort);
      if current.Raised? { return Raised; }
      if current.value == a.baseline { return Ok(BaselineUnchanged); }
      if owned.value.Some? && current.value == owned.value { return Ok(TaskOwnedRetained); }
      r := Raised;
    }

    /** During a cleanup the attempt's ownership record, if any, is its own. */
    lemma OwnedReadable(a: Attempt)
      requires Valid() && run.CleanupUntagged? && run.attempt == a
      ensures OwnedImage(files, a) == Ok(OwnedOf(files, a))
    {
      Reachable();
      OwnershipInCleanup(State());
    }

    method WriteCleanupRecord(gate: Capacity, a: Attempt, tag: FinalTag) returns (ghost record: Record)
      requires Valid() && run == CleanupUntagged(gate, a) && a.cohort == gate.cohort
      requires TagAccounted(State(), a) && tag == TagState(State(), a)
      modifies this`files, this`history, this`run, this`trace
      ensures Valid() && run.Idle? && history == old(history) + [WriteCleanup]
      ensures trace == old(trace) + [Done(WriteCleanup)]
      ensures files == old(files)[CleanupFile(a.cohort, a.id) := record]
      ensures record == CleanupRecord(a.cohort, a.id, a, CapacityFile(gate.cohort, gate), gate, true, tag)
    {
      ghost var before := State();
      var cleanup := CleanupRecord(a.cohort, a.id, a, CapacityFile(gate.cohort, gate), gate, true, tag);
      files := files[CleanupFile(a.cohort, a.id) := cleanup];
      record := cleanup;
      Record(WriteCleanup, before);
    }

    // ---- one run of the script ----

    method ScopedGate(gate: Capacity, operation: Operation, cohort: Cohort) returns (ok: bool)
      ensures ok <==> CapacityScoped(gate, operation, receiptSet, cohort)
    {
      if gate.operation != operation || gate.receiptSet != receiptSet || gate.cohort != cohort { return false; }
      ok := HostCapacity.ValidateHostCapacityReceipt(gate.host);
    }

    /** _load_capacity_gate and _main_locked for `--cohort`.  When nothing fails and the builds agree, it fails
        only on a set that does not open, a cohort that is not free, or a capacity receipt already used.  The
        receipt bears a time the clock showed after the last command, and from then on the set opens for a day. */
    method RunQualification(manifest: Manifest, cohort: Cohort, gate: Capacity, now: int)
      returns (r: Option<(ImageId, int)>)
      requires Valid() && run.Idle?
      modifies this
      ensures Valid() && run.Idle? && OnlyUnder(gate)
      ensures r.Some? ==>
        history == old(history) + OpeningEvents(old(made), true, manifest) + [Open(gate, manifest.binding, now)]
          + QualifyEvents(r.value.0, r.value.1)
      ensures r.Some? ==>
        exists t: nat :: old(step) <= t < step && r.value.1 == env.clock(t) && StartedBefore(trace, t)
      ensures r.Some? ==> ReceiptFile(cohort) in files && ReceiptFile(cohort) !in old(files)
      ensures r.Some? ==> files[ReceiptFile(cohort)] == ReceiptRecord(Receipt(cohort, r.value.0, r.value.0, r.value.1))
      ensures r.Some? ==> FinalTagOf(State(), cohort) == Some(r.value.0)
      ensures r.Some? ==> CapacityScoped(gate, Qualification, receiptSet, cohort)
      ensures r.Some? ==> forall later: int :: Opens(files, receiptSet, manifest.binding, later) <==>
        && gate.host !in Hosts(old(files)) && -300_000_000 <= later - r.value.1 <= 86_400_000_000
        && Progress.OthersCurrent(old(files), cohort, later)
      ensures Favourable(env, gate, old(step)) && Qualifiable(old(State()), manifest, cohort, gate, now) ==> r.Some?
      ensures Favourable(env, gate, old(step)) && Creatable(old(State()), cohort, gate) ==> r.Some?
      ensures r.Some? ==> exists m: Manifest ::
        m.binding == manifest.binding && commands == QualifyCommands(old(commands), AttemptId(m, cohort, gate), cohort)
    {
      ghost var before, es := State(), history;
      EmptyUnlessMade();
      Begin(gate);
      r := QualificationRun(manifest, cohort, gate, now);
      if r.Some? {
        ReceiptNamesTag(cohort);
        ReopensForADay(before, es, manifest, gate, now, r.value.0, r.value.1);
      }
      RunWasUnder(gate);
    }

    lemma ReopensForADay(
        before: World, es: seq<Event>, manifest: Manifest, gate: Capacity, now: int, image: ImageId, observedAt: int)
      requires Valid() && run.Idle? && Legal(start, es) && After(start, es) == before && before.run.Idle?
      requires !before.made ==> before.files == map[]
      requires gate.operation == Qualification
      requires history == es + OpeningEvents(before.made, true, manifest) + [Open(gate, manifest.binding, now)]
        + QualifyEvents(image, observedAt)
      requires ReceiptFile(gate.cohort) in files
      requires files[ReceiptFile(gate.cohort)] == ReceiptRecord(Receipt(gate.cohort, image, image, observedAt))
      ensures forall later: int :: Opens(files, receiptSet, manifest.binding, later) <==>
        && gate.host !in Hosts(before.files) && -300_000_000 <= later - observedAt <= 86_400_000_000
        && Progress.OthersCurrent(before.files, gate.cohort, later)
    {
      var opening := es + OpeningEvents(before.made, true, manifest);
      var rest := [WriteAttempt] + CompletionEvents(image, observedAt);
      assert history == opening + [Open(gate, manifest.binding, now)] + [WriteCapacity] + rest;
      SetThere(start, es, manifest, opening + [Open(gate, manifest.binding, now)] + [WriteCapacity] + rest, gate.cohort);
      forall later: int ensures Opens(files, receiptSet, manifest.binding, later) <==>
        && gate.host !in Hosts(before.files) && -300_000_000 <= later - observedAt <= 86_400_000_000
        && Progress.OthersCurrent(before.files, gate.cohort, later)
      {
        Progress.ReopensAfterRun(start, opening, gate, manifest.binding, now, rest, later);
      }
    }

    method QualificationRun(manifest: Manifest, cohort: Cohort, gate: Capacity, now: int)
      returns (r: Option<(ImageId, int)>)
      requires Valid() && bound == Some(gate) && run.Idle?
      modifies this`step, this`made, this`files, this`temporary, this`final
      modifies this`outputs, this`history, this`run, this`trace, this`commands
      ensures Valid() && run.Idle? && old(step) <= step
      ensures r.Some? ==>
        history == old(history) + OpeningEvents(old(made), true, manifest) + [Open(gate, manifest.binding, now)]
          + QualifyEvents(r.value.0, r.value.1)
      ensures r.Some? ==> Stamped(old(step), r.value.1) && CapacityScoped(gate, Qualification, receiptSet, cohort)
      ensures r.Some? ==> ReceiptFile(cohort) in files && ReceiptFile(cohort) !in old(files)
      ensures r.Some? ==> files[ReceiptFile(cohort)] == ReceiptRecord(Receipt(cohort, r.value.0, r.value.0, r.value.1))
      ensures Favourable(env, gate, old(step)) && Qualifiable(old(State()), manifest, cohort, gate, now) ==> r.Some?
      ensures Favourable(env, gate, old(step)) && Creatable(old(State()), cohort, gate) ==> r.Some?
      ensures r.Some? ==> exists m: Manifest ::
        m.binding == manifest.binding && commands == QualifyCommands(old(commands), AttemptId(m, cohort, gate), cohort)
    {
      r := None;
      var ready := OpenForQualification(manifest, cohort, gate, now);
      if ready { r := Qualify(gate); }
    }

    method OpenForQualification(manifest: Manifest, cohort: Cohort, gate: Capacity, now: int) returns (ok: bool)
      requires Valid() && run.Idle?
      modifies this`step, this`made, this`files, this`history, this`run, this`trace
      ensures Valid() && old(step) <= step
      ensures ok ==> run == Opened(gate) && gate.cohort == cohort && ReceiptFile(cohort) !in old(files)
      ensures ok ==> CapacityScoped(gate, Qualification, receiptSet, cohort)
      ensures ok ==>
        history == old(history) + OpeningEvents(old(made), true, manifest) + [Open(gate, manifest.binding, now)]
      ensures !ok ==> run.Idle?
      ensures Qualifiable(old(State()), manifest, cohort, gate, now) ==> ok && Free(State(), gate)
      ensures Creatable(old(State()), cohort, gate) && env.succeeds(old(step)) ==> ok && Free(State(), gate)
      ensures ok ==> HasManifest(files) && files[ManifestFile].manifest.binding == manifest.binding
    {
      EmptyUnlessMade();
      var scoped := ScopedGate(gate, Qualification, cohort);
      if !scoped { return false; }
      var unresolved := ReadSet(manifest, cohort, now);
      if unresolved.None? || unresolved.value != {} || ReceiptFile(cohort) in files || outputs != {} { return false; }
      if CapacityFile(cohort, gate) !in files { TagFree(gate); }
      Record(Open(gate, manifest.binding, now), State());
      ok := true;
    }

    /** Opens the set and reads the cohort's unresolved attempts from it. */
    method ReadSet(manifest: Manifest, cohort: Cohort, now: int) returns (unresolved: Option<set<Attempt>>)
      requires Valid() && run.Idle?
      modifies this`step, this`made, this`files, this`history, this`run, this`trace
      ensures Valid() && run.Idle? && old(step) <= step && (old(made) ==> step == old(step))
      ensures unresolved.Some? <==> made && Opens(files, receiptSet, manifest.binding, now)
      ensures unresolved.Some? ==> unresolved.value == Unresolved(files, receiptSet, cohort)
      ensures unresolved.Some? ==> Decided(files, receiptSet, cohort, files[ManifestFile].manifest)
      ensures history == old(history) + OpeningEvents(old(made), made, manifest)
      ensures old(made) ==> State() == old(State())
      ensures !old(made) && made ==> State() == CreatedWorld(old(State()), manifest)
      ensures forall n :: n in old(files) && !n.ManifestFile? ==> made ==> n in files
      ensures !old(made) && unresolved.Some? ==> unresolved.value == {}
      ensures !old(made) && env.succeeds(old(step)) ==> unresolved.Some?
    {
      EmptyUnlessMade();
      FreshSetOpens(receiptSet, manifest, now);
      var usable := OpenReceiptSet(manifest, now);
      if !usable { return None; }
      UnresolvedDecided(files, receiptSet, cohort, files[ManifestFile].manifest);
      var r := UnresolvedAttempts(files, receiptSet, cohort, files[ManifestFile].manifest);
      if r.Raised? { return None; }
      unresolved := Some(r.value);
    }

    /** A gate without a capacity record has no attempt, so its temporary tag is free. */
    lemma TagFree(gate: Capacity)
      requires Valid() && HasManifest(files) && CapacityFile(gate.cohort, gate) !in files
      ensures AttemptId(files[ManifestFile].manifest, gate.cohort, gate) !in temporary
    {
      Reachable();
      AttemptNeedsCapacity(files, receiptSet, AttemptId(files[ManifestFile].manifest, gate.cohort, gate));
    }

    /** The receipt of a cohort names the image its final tag carries. */
    lemma ReceiptNamesTag(cohort: Cohort)
      requires Valid() && ReceiptFile(cohort) in files && files[ReceiptFile(cohort)].ReceiptRecord?
      ensures FinalTagOf(State(), cohort) == Some(files[ReceiptFile(cohort)].receipt.second)
    {
      ReceiptsAreProven(start, history, cohort);
    }

    /** _load_capacity_gate and _main_locked for `--cleanup-cohort`.  When nothing fails, it succeeds exactly on
        a cleanable attempt. */
    method RunCleanup(manifest: Manifest, cohort: Cohort, gate: Capacity, now: int) returns (ok: bool)
      requires Valid() && run.Idle?
      modifies this
      ensures Valid() && run.Idle? && OnlyUnder(gate)
      ensures ok ==> history == old(history) + [Open(gate, manifest.binding, now)] + CleanupEvents()
      ensures ok ==> Unresolved(files, receiptSet, cohort) == {}
      ensures ok ==> SomeCleanable(old(State()), manifest, cohort, gate, now)
      ensures ok ==> OneCleanedUp(old(State()), State(), cohort, gate, old(commands), commands)
      ensures Favourable(env, gate, old(step)) && SomeCleanable(old(State()), manifest, cohort, gate, now) ==> ok
    {
      Begin(gate);
      ok := CleanupRun(manifest, cohort, gate, now);
      RunWasUnder(gate);
    }

    method CleanupRun(manifest: Manifest, cohort: Cohort, gate: Capacity, now: int) returns (ok: bool)
      requires Valid() && bound == Some(gate) && run.Idle?
      modifies this`step, this`made, this`files, this`temporary, this`final
      modifies this`outputs, this`history, this`run, this`trace, this`commands
      ensures Valid() && run.Idle? && old(step) <= step
      ensures ok ==> history == old(history) + [Open(gate, manifest.binding, now)] + CleanupEvents()
      ensures ok ==>
        Unresolved(files, receiptSet, cohort) == {} && SomeCleanable(old(State()), manifest, cohort, gate, now)
      ensures ok ==> OneCleanedUp(old(State()), State(), cohort, gate, old(commands), commands)
      ensures Favourable(env, gate, old(step)) && SomeCleanable(old(State()), manifest, cohort, gate, now) ==> ok
    {
      CleanableIsOne(State(), manifest, cohort, gate, now);
      var a := UnresolvedForCleanup(manifest, cohort, gate, now);
      if a.None? { return false; }
      CleanableWhen(State(), manifest, gate, now, a.value);
      ghost var before := State();
      ok := CleanupAttempt(manifest, gate, now, a.value);
      if ok { assert CleanedUp(before, State(), gate, a.value); }
    }

    method CleanupAttempt(manifest: Manifest, gate: Capacity, now: int, a: Attempt) returns (ok: bool)
      requires Valid() && bound == Some(gate) && run.Idle? && made && Opens(files, receiptSet, manifest.binding, now)
      requires CapacityScoped(gate, Cleanup, receiptSet, gate.cohort)
      requires Unresolved(files, receiptSet, gate.cohort) == {a}
      modifies this`step, this`files, this`temporary, this`outputs, this`history, this`run, this`trace, this`commands
      ensures Valid() && run.Idle? && old(step) <= step
      ensures ok ==> history == old(history) + [Open(gate, manifest.binding, now)] + CleanupEvents()
      ensures ok ==> Unresolved(files, receiptSet, gate.cohort) == {}
      ensures ok ==> CanClean(old(State()), gate, a) && old(outputs) <= {gate.cohort}
      ensures ok ==> CleanedUp(old(State()), State(), gate, a)
      ensures Favourable(env, gate, old(step)) && CanClean(old(State()), gate, a) && old(outputs) <= {gate.cohort} ==> ok
      ensures ok ==> commands == CleanupCommands(old(commands), a.id, a.cohort, a.id in old(temporary))
    {
      ghost var before, es := State(), history;
      CleanupStarts(start, history, before, gate, manifest.binding, now, a);
      OpenForCleanup(gate, a, Open(gate, manifest.binding, now));
      CanCleanSame(before, gate, a);
      ok := CleanupOpenedAttempt(gate, a, before, es);
    }

    method CleanupOpenedAttempt(gate: Capacity, a: Attempt, ghost before: World, ghost es: seq<Event>)
      returns (ok: bool)
      requires Valid() && bound == Some(gate) && run == CleanupOpened(gate, a) && a.cohort == gate.cohort
      requires Legal(start, es) && After(start, es) == before && files == before.files && HasManifest(files)
      requires final == before.final && a.id.cohort == a.cohort
      requires a in Unresolved(files, receiptSet, gate.cohort)
      modifies this`step, this`files, this`temporary, this`history, this`run, this`trace, this`commands
      ensures Valid() && run.Idle? && old(step) <= step
      ensures ok ==> history == old(history) + CleanupEvents()
      ensures ok ==> Unresolved(files, receiptSet, gate.cohort) == {}
      ensures ok ==> old(outputs) == {} && CanClean(old(State()), gate, a)
      ensures ok ==> CleanedUp(before, State(), gate, a)
      ensures Favourable(env, gate, old(step)) && old(outputs) == {} && CanClean(old(State()), gate, a) ==> ok
      ensures ok ==> commands == CleanupCommands(old(commands), a.id, a.cohort, a.id in old(temporary))
    {
      if outputs != {} {
        Stopped();
        return false;
      }
      ghost var record;
      ok, record := CleanupInterrupted(gate, a);
      if ok {
        CohortFreed(before, es, gate, a, record);
        CleanedIs(before, State(), gate, a, record);
      }
    }

    method UnresolvedForCleanup(manifest: Manifest, cohort: Cohort, gate: Capacity, now: int)
      returns (a: Option<Attempt>)
      requires Valid() && run.Idle?
      modifies this`step, this`made, this`files, this`history, this`run, this`trace
      ensures Valid() && run.Idle? && old(step) <= step
      ensures a.Some? ==> State() == old(State()) && history == old(history)
      ensures a.Some? ==> gate.cohort == cohort && made && Opens(files, receiptSet, manifest.binding, now)
      ensures a.Some? ==> CapacityScoped(gate, Cleanup, receiptSet, cohort)
      ensures a.Some? ==> Unresolved(files, receiptSet, cohort) == {a.value}
      ensures Admitted(env, gate, old(step)) && OneUnresolvedIn(old(State()), manifest, cohort, gate, now) ==> a.Some?
    {
      a := None;
      var scoped := ScopedGate(gate, Cleanup, cohort);
      if !scoped { return; }
      var unresolved := ReadSet(manifest, cohort, now);
      if unresolved.None? || |unresolved.value| != 1 { return; }
      var current := RequireCurrent(gate);
      if !current { return; }
      var attempt :| attempt in unresolved.value;
      Singleton(unresolved.value, attempt);
      a := Some(attempt);
    }

    /** _admit_cleanup_residue: the build output of the attempt's own cohort is removed on the way in. */
    method OpenForCleanup(gate: Capacity, ghost a: Attempt, ghost e: Event)
      requires Valid() && Enabled(State(), e) && Apply(State(), e) == AdmittedWorld(State(), gate, a) && !OnCommand(e)
      modifies this`outputs, this`history, this`run, this`trace
      ensures Valid() && history == old(history) + [e]
      ensures State() == AdmittedWorld(old(State()), gate, a)
    {
      ghost var before := State();
      outputs := outputs - {gate.cohort};
      Record(e, before);
    }

    lemma CohortFreed(before: World, es: seq<Event>, gate: Capacity, a: Attempt, record: Record)
      requires Valid() && Legal(start, es) && After(start, es) == before && HasManifest(before.files)
      requires a in Unresolved(before.files, receiptSet, gate.cohort) && a.cohort == gate.cohort
      requires files == CleanedFiles(before.files, gate, a, record)
      ensures Unresolved(files, receiptSet, gate.cohort) == {}
    {
      InvAlways(start, es);
      Reachable();
      UnresolvedAre(before.files, receiptSet, gate.cohort);
      CleanupSettles(before, State(), gate, a);
    }
  }

  lemma CanCleanSame(w: World, gate: Capacity, a: Attempt)
    ensures CanClean(AdmittedWorld(w, gate, a), gate, a) <==> CanClean(w, gate, a)
  {
    AccountedSame(w, AdmittedWorld(w, gate, a), a);
  }

  lemma CleanupStarts(
      w0: World, es: seq<Event>, w: World, gate: Capacity, binding: nat, now: int, a: Attempt)
    requires Initial(w0) && Legal(w0, es) && After(w0, es) == w && w.run.Idle? && w.made
    requires Opens(w.files, w.receiptSet, binding, now) && a in Unresolved(w.files, w.receiptSet, gate.cohort)
    requires CapacityScoped(gate, Cleanup, w.receiptSet, gate.cohort)
    ensures Enabled(w, Open(gate, binding, now)) && a.cohort == gate.cohort == a.id.cohort
    ensures Apply(w, Open(gate, binding, now)) == AdmittedWorld(w, gate, a)
  {
    InvAlways(w0, es);
    UnresolvedAre(w.files, w.receiptSet, gate.cohort);
    CleanupOpens(w, gate, binding, now, a);
  }

  lemma CleanableWhen(w: World, manifest: Manifest, gate: Capacity, now: int, a: Attempt)
    requires w.made && Opens(w.files, w.receiptSet, manifest.binding, now)
    requires CapacityScoped(gate, Cleanup, w.receiptSet, gate.cohort)
    requires Unresolved(w.files, w.receiptSet, gate.cohort) == {a}
    ensures SomeCleanable(w, manifest, gate.cohort, gate, now) <==> CanClean(w, gate, a) && w.outputs <= {gate.cohort}
  {
    if CanClean(w, gate, a) && w.outputs <= {gate.cohort} { assert Cleanable(w, manifest, gate, now, a); }
  }

  lemma CleanableIsOne(w: World, manifest: Manifest, cohort: Cohort, gate: Capacity, now: int)
    ensures SomeCleanable(w, manifest, cohort, gate, now) ==> OneUnresolvedIn(w, manifest, cohort, gate, now)
  {
  }

  lemma TagUnmoved(before: World, w: World, gate: Capacity, a: Attempt)
    requires w.final == before.final
    requires w.files == before.files[CapacityFile(gate.cohort, gate) := CapacityRecord(gate)]
    ensures TagAccounted(w, a) <==> TagAccounted(before, a)
  {
    AccountedSame(before, w, a);
  }

  lemma SetCreated(w0: World, es: seq<Event>, manifest: Manifest)
    requires Initial(w0) && Legal(w0, es) && Legal(w0, es + [MakeDirectory] + [WriteManifest(manifest)])
    ensures After(w0, es + [MakeDirectory] + [WriteManifest(manifest)]).files ==
      After(w0, es).files[ManifestFile := ManifestRecord(manifest)]
  {
    Appended(w0, es + [MakeDirectory], [WriteManifest(manifest)]);
    Extend(w0, es, MakeDirectory);
    Extend(w0, es + [MakeDirectory], WriteManifest(manifest));
  }

  lemma ManifestOnly(manifest: Manifest, c: Cohort, later: int)
    ensures var files := map[ManifestFile := ManifestRecord(manifest)];
      && Hosts(files) == Hosts(map[])
      && (Progress.OthersCurrent(files, c, later) <==> Progress.OthersCurrent(map[], c, later))
  {
  }

  /** Creating the set adds its manifest and nothing else. */
  lemma SetThere(w0: World, es: seq<Event>, manifest: Manifest, all: seq<Event>, c: Cohort)
    requires Initial(w0) && Legal(w0, es) && After(w0, es).run.Idle? && Legal(w0, all)
    requires var w := After(w0, es);
      es + OpeningEvents(w.made, true, manifest) <= all && (!w.made ==> w.files == map[])
    ensures var w, opening := After(w0, es), es + OpeningEvents(After(w0, es).made, true, manifest);
      && Legal(w0, opening) && Hosts(After(w0, opening).files) == Hosts(w.files)
      && forall later: int ::
           Progress.OthersCurrent(After(w0, opening).files, c, later) <==> Progress.OthersCurrent(w.files, c, later)
  {
    var opening := es + OpeningEvents(After(w0, es).made, true, manifest);
    assert all == opening + all[|opening|..];
    Appended(w0, opening, all[|opening|..]);
    if After(w0, es).made {
      assert opening == es;
    } else {
      assert opening == es + [MakeDirectory] + [WriteManifest(manifest)];
      SetCreated(w0, es, manifest);
      forall later: int { ManifestOnly(manifest, c, later); }
    }
  }

  /** No build output lies about and the attempt's own temporary tag is free. */
  predicate Unstarted(w: World, gate: Capacity) {
    && w.outputs == {} && HasManifest(w.files)
    && AttemptId(w.files[ManifestFile].manifest, gate.cohort, gate) !in w.temporary
  }

  /** Nothing stands in the way of an attempt: see what `qualify` and `_begin_attempt` look at. */
  ghost predicate Free(w: World, gate: Capacity) {
    && Unstarted(w, gate)
    && CapacityFile(gate.cohort, gate) !in w.files && ReceiptFile(gate.cohort) !in w.files
    && Decided(w.files, w.receiptSet, gate.cohort, w.files[ManifestFile].manifest)
    && Unresolved(w.files, w.receiptSet, gate.cohort) == {}
  }

  /** The set opens and the cohort is free for this gate. */
  ghost predicate Qualifiable(w: World, manifest: Manifest, cohort: Cohort, gate: Capacity, now: int) {
    && w.made && Opens(w.files, w.receiptSet, manifest.binding, now)
    && CapacityScoped(gate, Qualification, w.receiptSet, cohort)
    && ReceiptFile(cohort) !in w.files && Unresolved(w.files, w.receiptSet, cohort) == {} && w.outputs == {}
    && CapacityFile(cohort, gate) !in w.files
  }

  /** The set does not exist yet. */
  predicate Creatable(w: World, cohort: Cohort, gate: Capacity) {
    !w.made && CapacityScoped(gate, Qualification, w.receiptSet, cohort)
  }

  /** A set that holds only its manifest opens, and nothing in it is unresolved. */
  lemma FreshSetOpens(receiptSet: nat, m: Manifest, now: int)
    ensures var files := map[ManifestFile := ManifestRecord(m)];
      Opens(files, receiptSet, m.binding, now) && forall c :: Unresolved(files, receiptSet, c) == {}
  {
  }

  /** The set opens with exactly this attempt unresolved, its final tag is accounted for, and no other cohort
      left build output. */
  ghost predicate Cleanable(w: World, manifest: Manifest, gate: Capacity, now: int, a: Attempt) {
    && w.made && Opens(w.files, w.receiptSet, manifest.binding, now)
    && CapacityScoped(gate, Cleanup, w.receiptSet, gate.cohort)
    && Unresolved(w.files, w.receiptSet, gate.cohort) == {a}
    && CanClean(w, gate, a) && w.outputs <= {gate.cohort}
  }

  ghost predicate OneUnresolvedIn(w: World, manifest: Manifest, cohort: Cohort, gate: Capacity, now: int) {
    && w.made && Opens(w.files, w.receiptSet, manifest.binding, now)
    && CapacityScoped(gate, Cleanup, w.receiptSet, cohort) && |Unresolved(w.files, w.receiptSet, cohort)| == 1
  }

  ghost predicate SomeCleanable(w: World, manifest: Manifest, cohort: Cohort, gate: Capacity, now: int) {
    gate.cohort == cohort && exists a :: Cleanable(w, manifest, gate, now, a)
  }

  /** The gate's receipt is not recorded yet, and the final tag is the baseline or the attempt's own image. */
  predicate CanClean(w: World, gate: Capacity, a: Attempt) {
    CapacityFile(gate.cohort, gate) !in w.files && TagAccounted(w, a)
  }

  /** What a cleanup leaves: its records, no temporary tag, no build output, and the final tags as they were. */
  predicate CleanedUp(before: World, after: World, gate: Capacity, a: Attempt) {
    && a.cohort == gate.cohort
    && CapacityFile(a.cohort, gate) in after.files && after.files[CapacityFile(a.cohort, gate)] == CapacityRecord(gate)
    && CleanupFile(a.cohort, a.id) in after.files
    && after.files[CleanupFile(a.cohort, a.id)] ==
         CleanupRecord(a.cohort, a.id, a, CapacityFile(a.cohort, gate), gate, true,
                       if FinalTagOf(before, a.cohort) == a.baseline then BaselineUnchanged else TaskOwnedRetained)
    && a.id !in after.temporary && after.final == before.final && after.outputs == {}
  }

  /** The record a cleanup writes. */
  function CleanupOf(w: World, gate: Capacity, a: Attempt): Record {
    CleanupRecord(a.cohort, a.id, a, CapacityFile(gate.cohort, gate), gate, true, TagState(w, a))
  }

  lemma CleanedIs(before: World, after: World, gate: Capacity, a: Attempt, record: Record)
    requires after.files == CleanedFiles(before.files, gate, a, record) && a.id.cohort == a.cohort == gate.cohort
    requires record == CleanupOf(after, gate, a)
    requires a.id !in after.temporary && after.final == before.final && after.outputs == {}
    ensures CleanedUp(before, after, gate, a)
  {
  }

  /** The cohort's one unresolved attempt was cleaned up under this gate. */
  ghost predicate OneCleanedUp(
      before: World, after: World, cohort: Cohort, gate: Capacity, ran: seq<Command>, commands: seq<Command>)
  {
    gate.cohort == cohort
    && exists a ::
      && Unresolved(before.files, before.receiptSet, cohort) == {a} && CleanedUp(before, after, gate, a)
      && commands == CleanupCommands(ran, a.id, cohort, a.id in before.temporary)
  }

  function TagState(w: World, a: Attempt): FinalTag {
    if FinalTagOf(w, a.cohort) == a.baseline then BaselineUnchanged else TaskOwnedRetained
  }

  lemma CompletionOrder(before: seq<Event>, image: ImageId, observedAt: int)
    ensures before + BuildEvents(image) + [RemoveOutputs(true)] + [RemoveTemporaryTag]
        + ([WriteCompletion(observedAt)] + [WriteReceipt]) == before + CompletionEvents(image, observedAt)
    ensures before + BuildEvents(image) + [RemoveOutputs(true)] + [RemoveTemporaryTag]
        + [WriteCompletion(observedAt)] + [WriteReceipt] == before + CompletionEvents(image, observedAt)
  {
  }

  lemma OwnershipInCleanup(w: World)
    requires Inv(w) && w.run.CleanupUntagged?
    ensures OwnedImage(w.files, w.run.attempt) == Ok(OwnedOf(w.files, w.run.attempt))
  {
    assert CleanupSnapshotOk(w, w.run.capacity, w.run.attempt);
    OwnershipIsOwn(w.files, w.receiptSet, w.run.attempt);
  }

  lemma OwnershipIsOwn(files: Files, receiptSet: nat, a: Attempt)
    requires FilesOk(files, receiptSet) && HasManifest(files) && HoldsAttempt(files, a) && a.cohort == a.id.cohort
    ensures OwnedImage(files, a) == Ok(OwnedOf(files, a))
  {
    if OwnedAt(a.id) in files { assert Filed(files, receiptSet, OwnedAt(a.id)); }
  }

  lemma NothingWithoutFiles(w: World)
    requires TagsOk(w)
    ensures w.files == map[] ==> w.outputs == {} && w.temporary == map[]
  {
    if w.files == map[] {
      assert forall id :: id !in w.temporary;
      assert forall c :: c !in w.outputs;
      assert w.temporary.Keys == {};
    }
  }

  lemma Singleton<T>(s: set<T>, x: T)
    requires |s| == 1 && x in s
    ensures s == {x}
  {
    assert |s - {x}| == 0;
  }

  function RemovalTrace(env: Environment, gate: Capacity, step: nat, id: AttemptId): seq<Happening>
    requires Admitted(env, gate, step) && Admitted(env, gate, step + 1)
  {
    [StartedAt(env, gate, step, InspectTag(id)), StartedAt(env, gate, step + 1, RemoveTag(id)), Done(RemoveTemporaryTag)]
  }

  predicate OnlyBuilding(events: seq<Event>) {
    forall i :: 0 <= i < |events| ==>
      events[i].BuildFirst? || events[i].LoadFirst? || events[i].WriteOwnership? || events[i].LoadSecond?
  }

  lemma OnlyBuildingJoins(a: seq<Event>, b: seq<Event>)
    requires OnlyBuilding(a) && OnlyBuilding(b)
    ensures OnlyBuilding(a + b)
  {
  }

  function OpeningEvents(before: bool, after: bool, manifest: Manifest): seq<Event> {
    if before then []
    else if after then [MakeDirectory, WriteManifest(manifest)]
    else [MakeDirectory, RemoveDirectory]
  }

  /** The effects of two builds that agree, in order. */
  function BuildEvents(image: ImageId): seq<Event> {
    [BuildFirst, LoadFirst(image)] + [WriteOwnership, LoadSecond(image)]
  }

  function CreatedWorld(w: World, manifest: Manifest): World {
    w.(made := true, files := map[ManifestFile := ManifestRecord(manifest)])
  }

  function CompletionEvents(image: ImageId, observedAt: int): seq<Event> {
    BuildEvents(image) + [RemoveOutputs(true)] + [RemoveTemporaryTag]
    + [WriteCompletion(observedAt)] + [WriteReceipt]
  }

  function QualifyEvents(image: ImageId, observedAt: int): seq<Event> {
    [WriteCapacity] + [WriteAttempt] + CompletionEvents(image, observedAt)
  }

  function CleanedFiles(files: Files, gate: Capacity, a: Attempt, record: Record): Files {
    files[CapacityFile(gate.cohort, gate) := CapacityRecord(gate)][CleanAt(a.id) := record]
  }

  function CleanupEvents(): seq<Event> { [WriteCapacity] + [RemoveTemporaryTag] + [WriteCleanup] }

  function AfterUntagging(run: Run): Run
    requires run.Unwinding? || run.CleanupSnapshot?
  {
    if run.CleanupSnapshot? then CleanupUntagged(run.capacity, run.attempt)
    else if run.built.Some? then Released(run.attempt, run.built.value.0, run.built.value.1)
    else Idle
  }

  /** Inside the `try`: before the outputs are removed. */
  predicate InTry(run: Run) {
    run.Intended? || run.FirstBuilt? || run.FirstLoaded? || run.Owned? || run.SecondLoaded?
  }
}
