/** What one object of the script leaves behind: the commands it started, each with the clock and the counters
    it was admitted under, and the durable effects, in one order. */
module Trace {
  import opened Results
  import opened ReceiptSet
  import opened Protocol
  import HostCapacity

  datatype Command =
    | Build(id: AttemptId, second: bool)
    | Load(id: AttemptId, second: bool)
    | InspectTag(id: AttemptId)
    | InspectImage(cohort: Cohort)
    | RemoveTag(id: AttemptId)
    | ReadBoundary(part: nat)

  datatype Happening =
    | Started(command: Command, gate: Capacity, at: nat, now: int, sample: HostCapacity.Sample)
    | Done(event: Event)

  /** The world's answers, one a question: the clock and the counters a command meets, whether the command,
      write or comparison asked for succeeds, and which image a load brings. */
  datatype Environment = Environment(
    clock: nat -> int, counters: nat -> Result<HostCapacity.Sample>, succeeds: nat -> bool, image: nat -> ImageId)

  predicate Admitted(env: Environment, gate: Capacity, step: nat) {
    env.counters(step).Ok? && HostCapacity.Admits(gate.host, env.clock(step), env.counters(step).value)
  }

  /** Answer `step` lets a command start and succeed. */
  predicate Good(env: Environment, gate: Capacity, step: nat) { Admitted(env, gate, step) && env.succeeds(step) }

  function StartedAt(env: Environment, gate: Capacity, step: nat, command: Command): Happening
    requires Admitted(env, gate, step)
  {
    Started(command, gate, step, env.clock(step), env.counters(step).value)
  }

  /** From answer `from` on nothing fails and every build gives one image. */
  ghost predicate Favourable(env: Environment, gate: Capacity, from: nat) {
    forall step: nat :: step >= from ==>
      Admitted(env, gate, step) && env.succeeds(step) && env.image(step) == env.image(from)
  }

  // ---- effects and the commands behind them ----

  /** The effects that stand only on a command: the four Docker makes, and the ownership record, which needs the
      second build. */
  predicate OnCommand(e: Event) {
    e.BuildFirst? || e.LoadFirst? || e.WriteOwnership? || e.LoadSecond? || e.RemoveTemporaryTag?
  }

  /** The command whose run the effect is, or needs.  A temporary tag that an inspection found absent counts as
      removed. */
  predicate Causes(c: Command, e: Event) {
    match e
    case BuildFirst => c.Build? && !c.second
    case LoadFirst(_) => c.Load? && !c.second
    case WriteOwnership => c.Build? && c.second
    case LoadSecond(_) => c.Load? && c.second
    case RemoveTemporaryTag => c.RemoveTag? || c.InspectTag?
    case _ => false
  }

  predicate InWindow(h: Happening)
    requires h.Started?
  {
    HostCapacity.InWindow(h.gate.host, h.now, h.sample)
  }

  /** Such an effect stands right after its command. */
  predicate Caused(trace: seq<Happening>, i: nat)
    requires i < |trace| && trace[i].Done?
  {
    OnCommand(trace[i].event) ==>
      i > 0 && trace[i - 1].Started? && Causes(trace[i - 1].command, trace[i].event)
  }

  predicate OrderlyAt(trace: seq<Happening>, i: nat)
    requires i < |trace|
  {
    if trace[i].Started? then InWindow(trace[i]) else Caused(trace, i)
  }

  /** Every command was admitted when it started, and every effect that needs a command follows it. */
  ghost predicate Orderly(trace: seq<Happening>) { forall i :: 0 <= i < |trace| ==> OrderlyAt(trace, i) }

  /** Every command met the clock and the counters of an answer before `step`. */
  ghost predicate Dated(env: Environment, trace: seq<Happening>, step: nat) {
    forall i :: 0 <= i < |trace| ==> DatedAt(env, trace, i, step)
  }

  predicate DatedAt(env: Environment, trace: seq<Happening>, i: nat, step: nat)
    requires i < |trace|
  {
    var h := trace[i];
    h.Started? ==> h.at < step && h.now == env.clock(h.at) && env.counters(h.at) == Ok(h.sample)
  }

  /** Every command was started on an answer before `step`. */
  ghost predicate StartedBefore(trace: seq<Happening>, step: nat) {
    forall i :: 0 <= i < |trace| && trace[i].Started? ==> trace[i].at < step
  }

  lemma DatedLater(env: Environment, trace: seq<Happening>, step: nat, later: nat)
    requires Dated(env, trace, step) && step <= later
    ensures Dated(env, trace, later) && StartedBefore(trace, step)
  {
    forall i | 0 <= i < |trace| ensures DatedAt(env, trace, i, later) { assert DatedAt(env, trace, i, step); }
    forall i | 0 <= i < |trace| && trace[i].Started? ensures trace[i].at < step { assert DatedAt(env, trace, i, step); }
  }

  lemma DatedNext(env: Environment, trace: seq<Happening>, h: Happening, step: nat)
    requires Dated(env, trace, step) && DatedAt(env, trace + [h], |trace|, step)
    ensures Dated(env, trace + [h], step)
  {
    forall i | 0 <= i < |trace| ensures DatedAt(env, trace + [h], i, step) { assert DatedAt(env, trace, i, step); }
  }

  function EventsOf(trace: seq<Happening>): seq<Event> {
    if trace == [] then []
    else
      var last := trace[|trace| - 1];
      EventsOf(trace[..|trace| - 1]) + if last.Done? then [last.event] else []
  }

  function CommandsOf(trace: seq<Happening>): seq<Command> {
    if trace == [] then []
    else
      var last := trace[|trace| - 1];
      CommandsOf(trace[..|trace| - 1]) + if last.Started? then [last.command] else []
  }

  lemma CommandsNext(trace: seq<Happening>, h: Happening)
    ensures CommandsOf(trace + [h]) == if h.Started? then CommandsOf(trace) + [h.command] else CommandsOf(trace)
  {
    assert (trace + [h])[..|trace|] == trace;
  }

  // ---- the commands of a whole run, after those before it ----

  const BOUNDARY_COMMANDS := 6

  function ReadParts(ran: seq<Command>, n: nat): seq<Command> {
    if n == 0 then ran else ReadParts(ran, n - 1) + [ReadBoundary(n - 1)]
  }

  function BoundaryRead(ran: seq<Command>): seq<Command> { ReadParts(ran, BOUNDARY_COMMANDS) }

  /** Before anything is written: both tags, then the boundary. */
  function Checked(ran: seq<Command>, id: AttemptId, c: Cohort): seq<Command> {
    BoundaryRead(ran + [InspectTag(id)] + [InspectImage(c)])
  }

  function BuiltOnce(ran: seq<Command>, id: AttemptId): seq<Command> {
    ran + [Build(id, false)] + [Load(id, false)] + [InspectTag(id)]
  }

  function BuiltAgain(ran: seq<Command>, id: AttemptId, c: Cohort): seq<Command> {
    ran + [Build(id, true)] + [Load(id, true)] + [InspectImage(c)]
  }

  /** A tag is removed only when an inspection has found it. */
  function Untagged(ran: seq<Command>, id: AttemptId, present: bool): seq<Command> {
    if present then ran + [InspectTag(id)] + [RemoveTag(id)] else ran + [InspectTag(id)]
  }

  function BuiltTwice(ran: seq<Command>, id: AttemptId, c: Cohort): seq<Command> {
    Untagged(BuiltAgain(BuiltOnce(ran, id), id, c), id, true)
  }

  /** The commands of a qualification that reaches its receipt, in order. */
  function QualifyCommands(ran: seq<Command>, id: AttemptId, c: Cohort): seq<Command> {
    BoundaryRead(BuiltTwice(Checked(ran, id, c), id, c))
  }

  /** The commands of a cleanup that reaches its record, in order. */
  function CleanupCommands(ran: seq<Command>, id: AttemptId, c: Cohort, present: bool): seq<Command> {
    BoundaryRead(Untagged(BoundaryRead(ran), id, present) + [InspectImage(c)] + [InspectTag(id)])
  }

  lemma EventsNext(trace: seq<Happening>, h: Happening)
    ensures EventsOf(trace + [h]) == EventsOf(trace) + if h.Done? then [h.event] else []
  {
    assert (trace + [h])[..|trace|] == trace;
  }

  lemma OrderlyNext(trace: seq<Happening>, h: Happening)
    requires Orderly(trace) && OrderlyAt(trace + [h], |trace|)
    ensures Orderly(trace + [h])
  {
    var longer := trace + [h];
    forall i | 0 <= i < |trace| ensures OrderlyAt(longer, i) {
      assert OrderlyAt(trace, i);
      assert longer[i] == trace[i] && (i > 0 ==> longer[i - 1] == trace[i - 1]);
    }
  }

  /** From `since` on every command was started under this gate, and no effect rests on an earlier command. */
  ghost predicate Under(trace: seq<Happening>, since: nat, gate: Option<Capacity>) {
    forall i :: since <= i < |trace| ==> UnderAt(trace, i, since, gate)
  }

  predicate UnderAt(trace: seq<Happening>, i: nat, since: nat, gate: Option<Capacity>)
    requires i < |trace|
  {
    var h := trace[i];
    if h.Started? then gate == Some(h.gate) else OnCommand(h.event) ==> i > since
  }

  lemma UnderNext(trace: seq<Happening>, h: Happening, since: nat, gate: Option<Capacity>)
    requires Under(trace, since, gate) && UnderAt(trace + [h], |trace|, since, gate)
    ensures Under(trace + [h], since, gate)
  {
    forall i | since <= i < |trace| ensures UnderAt(trace + [h], i, since, gate) { assert UnderAt(trace, i, since, gate); }
  }

  lemma {:induction false} EventsPrefix(a: seq<Happening>, b: seq<Happening>)
    requires a <= b
    ensures EventsOf(a) <= EventsOf(b)
    decreases |b|
  {
    if |a| < |b| {
      EventsPrefix(a, b[..|b| - 1]);
    } else {
      assert a == b;
    }
  }

  /** What one more happening does to all that is kept of a trace. */
  lemma TraceNext(env: Environment, trace: seq<Happening>, h: Happening, step: nat, since: nat, gate: Option<Capacity>)
    requires Orderly(trace) && OrderlyAt(trace + [h], |trace|)
    requires Dated(env, trace, step) && DatedAt(env, trace + [h], |trace|, step)
    requires Under(trace, since, gate) && UnderAt(trace + [h], |trace|, since, gate)
    ensures EventsOf(trace + [h]) == EventsOf(trace) + if h.Done? then [h.event] else []
    ensures CommandsOf(trace + [h]) == if h.Started? then CommandsOf(trace) + [h.command] else CommandsOf(trace)
    ensures Orderly(trace + [h]) && Dated(env, trace + [h], step) && Under(trace + [h], since, gate)
  {
    EventsNext(trace, h);
    CommandsNext(trace, h);
    OrderlyNext(trace, h);
    DatedNext(env, trace, h, step);
    UnderNext(trace, h, since, gate);
  }
}
