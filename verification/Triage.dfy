/** triage_candidate and _controlled_result_projection over the scan rows of a candidate and its repeat. */
module Triage {
  import opened Results
  import opened Disposition

  datatype Drift = NoRecord | Unreadable | Drift(previous: nat, current: nat, unknown: bool)

  /** One entry of scan_results.  `readable` says whether the receipt or proof a fresh or masked row points to
      can be read. */
  datatype ScanRow = NotAnObject | ScanRow(slug: Option<Slug>, projection: Projection, readable: bool, drift: Drift)

  /** The checks that concern the whole candidate; which of them fail is an input. */
  datatype Check =
    | CandidateStructure | CandidateReadiness | PreflightIntegrity | RepeatabilityIntegrity | PreflightReadiness
    | RepeatabilityProven | SourceClean | CatalogBinding | Denominator | QualificationBinding
    | RepeatStructure | RepeatReadiness | RepeatBinding | PolicyDigest

  datatype Severity = Critical | High | Medium | Low

  datatype Code =
    | Failed(check: Check) | RepeatEvidenceInvalid | RepeatInconsistent | InvalidShape
    | ResultState(state: ProjectedState) | MaskedNeedsReview | DriftUnknown | DriftInvalid
    | SuspiciousUpgrade | LargeGradeChange | ProvenanceMissing | BaselinePolicyUnknown

  /** A finding about the whole catalog has no slug. */
  datatype Finding = Finding(severity: Severity, code: Code, slug: Option<Slug>)

  function SeverityOf(c: Check): Severity {
    match c
    case RepeatabilityProven => High
    case SourceClean => High
    case Denominator => High
    case RepeatBinding => High
    case PolicyDigest => High
    case _ => Critical
  }

  // ---- the projection ----

  predicate Projectable(row: ScanRow) {
    && row.ScanRow? && row.slug.Some?
    && (row.projection.state.Fresh? || row.projection.state.Masked? ==> row.readable)
  }

  function Project(rows: seq<ScanRow>): Result<map<Slug, Projection>> {
    if rows == [] then Ok(map[])
    else
      var before, last := Project(rows[..|rows| - 1]), rows[|rows| - 1];
      if before.Raised? || !Projectable(last) || last.slug.value in before.value then Raised
      else Ok(before.value[last.slug.value := last.projection])
  }

  lemma {:induction false} ProjectPrefix(rows: seq<ScanRow>, i: nat)
    requires i <= |rows| && Project(rows[..i]).Raised?
    ensures Project(rows).Raised?
    decreases |rows| - i
  {
    if i == |rows| {
      assert rows[..i] == rows;
    } else {
      assert rows[..i + 1][..i] == rows[..i];
      ProjectPrefix(rows, i + 1);
    }
  }

  /** _controlled_result_projection */
  method ControlledResultProjection(rows: seq<ScanRow>) returns (r: Result<map<Slug, Projection>>)
    ensures r == Project(rows)
  {
    var projected: map<Slug, Projection> := map[];
    var i := 0;
    while i < |rows|
      invariant 0 <= i <= |rows|
      invariant Project(rows[..i]) == Ok(projected)
    {
      var row := rows[i];
      assert rows[..i + 1][..i] == rows[..i];
      if !Projectable(row) || row.slug.value in projected {
        ProjectPrefix(rows, i + 1);
        return Raised;
      }
      projected := projected[row.slug.value := row.projection];
      i := i + 1;
    }
    assert rows[..i] == rows;
    r := Ok(projected);
  }

  // ---- findings ----

  function DriftFindings(slug: Option<Slug>, d: Drift): seq<Finding> {
    match d
    case NoRecord => [Finding(Medium, DriftUnknown, slug)]
    case Unreadable => [Finding(High, DriftInvalid, slug)]
    case Drift(previous, current, unknown) =>
      (if current < previous then [Finding(High, SuspiciousUpgrade, slug)] else [])
      + (if current >= previous + 2 || previous >= current + 2 then [Finding(High, LargeGradeChange, slug)] else [])
      + (if unknown then [Finding(High, ProvenanceMissing, slug)] else [])
  }

  function RowFindings(row: ScanRow): seq<Finding> {
    if row.NotAnObject? then [Finding(Critical, InvalidShape, None)]
    else
      var state := row.projection.state;
      if !state.Fresh? && !state.Masked? then [Finding(Critical, ResultState(state), row.slug)]
      else (if state.Masked? then [Finding(High, MaskedNeedsReview, row.slug)] else [])
           + DriftFindings(row.slug, row.drift)
  }

  function AllRowFindings(rows: seq<ScanRow>): seq<Finding> {
    if rows == [] then [] else AllRowFindings(rows[..|rows| - 1]) + RowFindings(rows[|rows| - 1])
  }

  function CheckFindings(failed: seq<Check>): seq<Finding> {
    seq(|failed|, i requires 0 <= i < |failed| => Finding(SeverityOf(failed[i]), Failed(failed[i]), None))
  }

  predicate IsLeast(m: Slug, s: set<Slug>) { m in s && forall x :: x in s ==> m <= x }

  lemma {:induction false} Least(s: set<Slug>) returns (m: Slug)
    requires s != {}
    ensures IsLeast(m, s)
    decreases |s|
  {
    m :| m in s;
    if s != {m} {
      var rest := s - {m};
      assert s == rest + {m};
      var other := Least(rest);
      if other < m { m := other; }
    }
  }

  lemma LeastExists(s: set<Slug>)
    requires s != {}
    ensures exists m :: IsLeast(m, s)
  {
    var m := Least(s);
  }

  function InOrder(s: set<Slug>): (r: seq<Slug>)
    ensures forall x :: x in r <==> x in s
    decreases |s|
  {
    if s == {} then []
    else
      LeastExists(s);
      var m :| IsLeast(m, s);
      [m] + InOrder(s - {m})
  }

  function Differing(x: map<Slug, Projection>, y: map<Slug, Projection>): set<Slug> {
    set s | s in x.Keys + y.Keys && (s !in x || s !in y || x[s] != y[s])
  }

  function RepeatFindings(first: seq<ScanRow>, second: seq<ScanRow>): seq<Finding> {
    var x, y := Project(first), Project(second);
    if x.Raised? || y.Raised? then [Finding(Critical, RepeatEvidenceInvalid, None)]
    else
      var differing := InOrder(Differing(x.value, y.value));
      seq(|differing|, i requires 0 <= i < |differing| => Finding(High, RepeatInconsistent, Some(differing[i])))
  }

  /** The findings in the order they are added; the original sorts them by severity, slug and code at the end. */
  function TriageOf(failed: seq<Check>, first: seq<ScanRow>, second: seq<ScanRow>): seq<Finding> {
    CheckFindings(failed) + RepeatFindings(first, second) + AllRowFindings(first)
    + [Finding(Medium, BaselinePolicyUnknown, None)]
  }

  method TriageCandidate(failed: seq<Check>, first: seq<ScanRow>, second: seq<ScanRow>) returns (findings: seq<Finding>)
    ensures findings == TriageOf(failed, first, second)
  {
    var rows: seq<Finding> := [];
    var i := 0;
    while i < |first|
      invariant 0 <= i <= |first|
      invariant rows == AllRowFindings(first[..i])
    {
      RowsNext(first, i);
      rows := rows + RowFindings(first[i]);
      i := i + 1;
    }
    RowsNext(first, i);
    findings := CheckFindings(failed) + RepeatFindings(first, second) + rows
                + [Finding(Medium, BaselinePolicyUnknown, None)];
  }

  lemma RowsNext(rows: seq<ScanRow>, i: nat)
    requires i <= |rows|
    ensures i == |rows| ==> rows[..i] == rows
    ensures i < |rows| ==> AllRowFindings(rows[..i + 1]) == AllRowFindings(rows[..i]) + RowFindings(rows[i])
  {
    if i < |rows| { assert rows[..i + 1][..i] == rows[..i]; }
  }

  function CountOf(findings: seq<Finding>, s: Severity): nat {
    if findings == [] then 0
    else CountOf(findings[..|findings| - 1], s) + if findings[|findings| - 1].severity == s then 1 else 0
  }

  // ---- what the findings say about the rows ----

  lemma {:induction false} CountAppend(a: seq<Finding>, b: seq<Finding>, s: Severity)
    ensures CountOf(a + b, s) == CountOf(a, s) + CountOf(b, s)
    decreases |b|
  {
    if b == [] {
      assert a + b == a;
    } else {
      var init := b[..|b| - 1];
      assert (a + b)[..|a + b| - 1] == a + init;
      CountAppend(a, init, s);
    }
  }

  function SlugsIn(p: map<Slug, Projection>, states: set<ProjectedState>): set<Slug> {
    set s | s in p && p[s].state in states
  }

  const STOPPED: set<ProjectedState> := {BlockedPolicy, OtherState}

  /** Which slugs the findings of a state name. */
  function Named(findings: seq<Finding>, state: ProjectedState): set<Option<Slug>> {
    set f | f in findings && f.severity == Critical && f.code == ResultState(state) :: f.slug
  }

  lemma NamedAppend(a: seq<Finding>, b: seq<Finding>, state: ProjectedState)
    ensures Named(a + b, state) == Named(a, state) + Named(b, state)
  {
    assert forall f :: f in a + b <==> f in a || f in b;
  }

  function Wrapped(slugs: set<Slug>): set<Option<Slug>> { set s | s in slugs :: Some(s) }

  /** A stopped row is reported once, under its own slug and state. */
  lemma {:induction false} RowsNamed(rows: seq<ScanRow>)
    requires Project(rows).Ok?
    ensures Named(AllRowFindings(rows), BlockedPolicy) == Wrapped(SlugsIn(Project(rows).value, {BlockedPolicy}))
    ensures CountOf(AllRowFindings(rows), Critical) == |SlugsIn(Project(rows).value, STOPPED)|
  {
    if rows != [] {
      var init, last := rows[..|rows| - 1], rows[|rows| - 1];
      RowsNamed(init);
      NamedAppend(AllRowFindings(init), RowFindings(last), BlockedPolicy);
      CountAppend(AllRowFindings(init), RowFindings(last), Critical);
      OneRow(last);
      Added(Project(init).value, last.slug.value, last.projection, {BlockedPolicy});
      Added(Project(init).value, last.slug.value, last.projection, STOPPED);
    }
  }

  lemma Added(p: map<Slug, Projection>, slug: Slug, row: Projection, states: set<ProjectedState>)
    requires slug !in p
    ensures SlugsIn(p[slug := row], states) == SlugsIn(p, states) + if row.state in states then {slug} else {}
    ensures |SlugsIn(p[slug := row], states)| == |SlugsIn(p, states)| + if row.state in states then 1 else 0
    ensures Wrapped(SlugsIn(p[slug := row], states))
         == Wrapped(SlugsIn(p, states)) + if row.state in states then {Some(slug)} else {}
  {
    assert slug !in SlugsIn(p, states);
    assert SlugsIn(p[slug := row], states) == SlugsIn(p, states) + if row.state in states then {slug} else {};
  }

  lemma OneRow(row: ScanRow)
    requires Projectable(row)
    ensures Named(RowFindings(row), BlockedPolicy) == if row.projection.state.BlockedPolicy? then {row.slug} else {}
    ensures CountOf(RowFindings(row), Critical) == if row.projection.state in STOPPED then 1 else 0
  {
    var state := row.projection.state;
    if state in STOPPED {
      assert RowFindings(row) == [Finding(Critical, ResultState(state), row.slug)];
      CountAppend([], RowFindings(row), Critical);
      assert RowFindings(row)[0] in RowFindings(row);
    } else {
      QuietRow(row);
      NoneCritical(RowFindings(row));
    }
  }

  lemma QuietRow(row: ScanRow)
    requires row.ScanRow? && row.projection.state !in STOPPED
    ensures forall f :: f in RowFindings(row) ==> f.severity != Critical
  {
    var masked := if row.projection.state.Masked? then [Finding(High, MaskedNeedsReview, row.slug)] else [];
    var drift := DriftFindings(row.slug, row.drift);
    assert forall f :: f in masked + drift ==> f in masked || f in drift;
  }

  lemma {:induction false} NoneCritical(findings: seq<Finding>)
    requires forall f :: f in findings ==> f.severity != Critical
    ensures CountOf(findings, Critical) == 0
  {
    if findings != [] { NoneCritical(findings[..|findings| - 1]); }
  }

  lemma {:induction false} AllOf(findings: seq<Finding>, s: Severity)
    requires forall f :: f in findings ==> f.severity == s
    ensures CountOf(findings, s) == |findings|
    ensures forall t :: t != s ==> CountOf(findings, t) == 0
  {
    if findings != [] { AllOf(findings[..|findings| - 1], s); }
  }

  lemma {:induction false} ChecksCounted(failed: seq<Check>)
    ensures CountOf(CheckFindings(failed), Critical) + CountOf(CheckFindings(failed), High) == |failed|
    ensures CountOf(CheckFindings(failed), Medium) == 0
  {
    if failed != [] {
      var init := failed[..|failed| - 1];
      ChecksCounted(init);
      assert CheckFindings(failed)[..|failed| - 1] == CheckFindings(init);
    }
  }

  lemma RepeatsCounted(first: seq<ScanRow>, second: seq<ScanRow>)
    requires Project(first).Ok? && Project(second).Ok?
    ensures var f := RepeatFindings(first, second);
      && CountOf(f, Critical) == 0 && CountOf(f, Medium) == 0
      && (CountOf(f, High) == 0 <==> Project(first) == Project(second))
  {
    var f, x, y := RepeatFindings(first, second), Project(first).value, Project(second).value;
    var differing := Differing(x, y);
    AllOf(f, High);
    if differing == {} {
      assert x.Keys == y.Keys by {
        forall k ensures k in x <==> k in y { assert k !in differing; }
      }
      assert forall k :: k in x ==> x[k] == y[k] by {
        forall k | k in x ensures x[k] == y[k] { assert k !in differing; }
      }
      assert x == y;
    } else {
      var k :| k in differing;
      assert k in InOrder(differing);
    }
  }

  lemma CountParts(failed: seq<Check>, first: seq<ScanRow>, second: seq<ScanRow>, s: Severity)
    ensures CountOf(TriageOf(failed, first, second), s) ==
      CountOf(CheckFindings(failed), s) + CountOf(RepeatFindings(first, second), s)
      + CountOf(AllRowFindings(first), s) + if s == Medium then 1 else 0
  {
    var a, b, c := CheckFindings(failed), RepeatFindings(first, second), AllRowFindings(first);
    var d := [Finding(Medium, BaselinePolicyUnknown, None)];
    CountAppend(a, b, s);
    CountAppend(a + b, c, s);
    CountAppend(a + b + c, d, s);
    AllOf(d, Medium);
  }

  /** Of all findings only the rows' own speak of a blocked result. */
  lemma TriageNames(failed: seq<Check>, first: seq<ScanRow>, second: seq<ScanRow>)
    requires Project(first).Ok?
    ensures Named(TriageOf(failed, first, second), BlockedPolicy) == Wrapped(SlugsIn(Project(first).value, {BlockedPolicy}))
  {
    var a, b, c := CheckFindings(failed), RepeatFindings(first, second), AllRowFindings(first);
    var d := [Finding(Medium, BaselinePolicyUnknown, None)];
    NamedAppend(a, b, BlockedPolicy);
    NamedAppend(a + b, c, BlockedPolicy);
    NamedAppend(a + b + c, d, BlockedPolicy);
    RowsNamed(first);
    assert Named(a, BlockedPolicy) == {} && Named(b, BlockedPolicy) == {} && Named(d, BlockedPolicy) == {};
  }

  lemma StoppedSplit(p: map<Slug, Projection>)
    ensures |SlugsIn(p, STOPPED)| == |SlugsIn(p, {BlockedPolicy})| + |SlugsIn(p, {OtherState})|
  {
    assert SlugsIn(p, STOPPED) == SlugsIn(p, {BlockedPolicy}) + SlugsIn(p, {OtherState});
  }

  /** A triage with no High finding and no more Critical ones than blocked rows comes from a candidate whose
      every check passed, whose other rows are all fresh or masked, and whose repeat shows the same rows. */
  lemma CleanTriage(failed: seq<Check>, first: seq<ScanRow>, second: seq<ScanRow>)
    requires Project(first).Ok? && Project(second).Ok?
    requires var t := TriageOf(failed, first, second);
      CountOf(t, High) == 0 && CountOf(t, Critical) == |SlugsIn(Project(first).value, {BlockedPolicy})|
    ensures failed == [] && Project(first) == Project(second) && SlugsIn(Project(first).value, {OtherState}) == {}
  {
    CountParts(failed, first, second, Critical);
    CountParts(failed, first, second, High);
    ChecksCounted(failed);
    RepeatsCounted(first, second);
    RowsNamed(first);
    StoppedSplit(Project(first).value);
  }

  // ---- what is reported of a row, read off its fields ----

  /** Each row is projected under its slug, and the projection holds nothing else. */
  lemma {:induction false} ProjectedRows(rows: seq<ScanRow>)
    requires Project(rows).Ok?
    ensures forall k :: 0 <= k < |rows| ==>
      && rows[k].ScanRow? && rows[k].slug.Some?
      && (rows[k].projection.state.Fresh? || rows[k].projection.state.Masked? ==> rows[k].readable)
      && rows[k].slug.value in Project(rows).value && Project(rows).value[rows[k].slug.value] == rows[k].projection
    ensures forall s :: s in Project(rows).value ==> exists k :: 0 <= k < |rows| && rows[k].ScanRow? && rows[k].slug == Some(s)
  {
    if rows != [] {
      var init, last := rows[..|rows| - 1], rows[|rows| - 1];
      ProjectedRows(init);
      assert forall k :: 0 <= k < |init| ==> rows[k] == init[k];
      forall s | s in Project(rows).value
        ensures exists k :: 0 <= k < |rows| && rows[k].ScanRow? && rows[k].slug == Some(s)
      {
        if s == last.slug.value {
          assert rows[|rows| - 1].slug == Some(s);
        } else {
          var k :| 0 <= k < |init| && init[k].ScanRow? && init[k].slug == Some(s);
          assert rows[k].slug == Some(s);
        }
      }
    }
  }

  /** Rows that can be projected, under slugs that differ, always are. */
  lemma {:induction false} ProjectionSucceeds(rows: seq<ScanRow>)
    requires forall k :: 0 <= k < |rows| ==>
      && rows[k].ScanRow? && rows[k].slug.Some?
      && (rows[k].projection.state.Fresh? || rows[k].projection.state.Masked? ==> rows[k].readable)
    requires forall j, k :: 0 <= j < k < |rows| ==> rows[j].slug != rows[k].slug
    ensures Project(rows).Ok?
  {
    if rows != [] {
      var init, last := rows[..|rows| - 1], rows[|rows| - 1];
      ProjectionSucceeds(init);
      assert forall k :: 0 <= k < |init| ==> init[k].slug == rows[k].slug != rows[|rows| - 1].slug;
      NotProjected(init, last.slug.value);
    }
  }

  lemma NotProjected(rows: seq<ScanRow>, slug: Slug)
    requires Project(rows).Ok? && forall k :: 0 <= k < |rows| && rows[k].ScanRow? ==> rows[k].slug != Some(slug)
    ensures slug !in Project(rows).value
  {
    ProjectedRows(rows);
  }

  lemma {:induction false} RowFindingIn(rows: seq<ScanRow>, f: Finding)
    ensures f in AllRowFindings(rows) <==> exists row :: row in rows && f in RowFindings(row)
  {
    if rows != [] {
      var init, last := rows[..|rows| - 1], rows[|rows| - 1];
      RowFindingIn(init, f);
      assert rows == init + [last];
      assert last in rows;
      assert forall row :: row in init ==> row in rows;
    }
  }

  /** The row was scanned, and its record of the grade it had before and has now is whole. */
  predicate Regraded(row: ScanRow, slug: Option<Slug>) {
    && row.ScanRow? && row.slug == slug
    && (row.projection.state.Fresh? || row.projection.state.Masked?) && row.drift.Drift?
  }

  /** Grades count from the best down, so an upgrade is a fall in number. */
  lemma RowReports(row: ScanRow, slug: Option<Slug>)
    ensures Finding(High, SuspiciousUpgrade, slug) in RowFindings(row) <==>
      Regraded(row, slug) && row.drift.current < row.drift.previous
    ensures Finding(High, LargeGradeChange, slug) in RowFindings(row) <==>
      Regraded(row, slug) && (row.drift.previous - row.drift.current >= 2 || row.drift.current - row.drift.previous >= 2)
    ensures Finding(High, ProvenanceMissing, slug) in RowFindings(row) <==> Regraded(row, slug) && row.drift.unknown
    ensures Finding(Critical, InvalidShape, slug) in RowFindings(row) <==> row.NotAnObject? && slug == None
    ensures forall state :: Finding(Critical, ResultState(state), slug) in RowFindings(row) <==>
      row.ScanRow? && row.slug == slug && row.projection.state == state && state != Fresh && state != Masked
    ensures Finding(High, MaskedNeedsReview, slug) in RowFindings(row) <==>
      row.ScanRow? && row.slug == slug && row.projection.state == Masked
    ensures Finding(Medium, DriftUnknown, slug) in RowFindings(row) <==>
      row.ScanRow? && row.slug == slug && row.projection.state in {Fresh, Masked} && row.drift == NoRecord
    ensures Finding(High, DriftInvalid, slug) in RowFindings(row) <==>
      row.ScanRow? && row.slug == slug && row.projection.state in {Fresh, Masked} && row.drift == Unreadable
    ensures forall f :: f in RowFindings(row) ==> !f.code.Failed? && f.code !in {RepeatInconsistent, RepeatEvidenceInvalid}
  {
    if row.ScanRow? && row.projection.state in {Fresh, Masked} { DriftReports(row.slug, row.drift, slug); }
  }

  lemma FindingSource(failed: seq<Check>, first: seq<ScanRow>, second: seq<ScanRow>, f: Finding)
    ensures f in TriageOf(failed, first, second) <==>
      || f in CheckFindings(failed) || f in RepeatFindings(first, second)
      || (exists row :: row in first && f in RowFindings(row))
      || f == Finding(Medium, BaselinePolicyUnknown, None)
  {
    RowFindingIn(first, f);
    var checks, repeats, rows := CheckFindings(failed), RepeatFindings(first, second), AllRowFindings(first);
    assert f in checks + repeats + rows + [Finding(Medium, BaselinePolicyUnknown, None)] <==>
      f in checks || f in repeats || f in rows || f == Finding(Medium, BaselinePolicyUnknown, None);
  }

  /** What the triage says of grades: an upgrade, a move of two grades and missing provenance are reported for
      exactly the rows that show them. */
  lemma GradesReported(failed: seq<Check>, first: seq<ScanRow>, second: seq<ScanRow>, slug: Option<Slug>)
    ensures Finding(High, SuspiciousUpgrade, slug) in TriageOf(failed, first, second) <==>
      exists row :: row in first && Regraded(row, slug) && row.drift.current < row.drift.previous
    ensures Finding(High, LargeGradeChange, slug) in TriageOf(failed, first, second) <==>
      exists row :: row in first && Regraded(row, slug)
        && (row.drift.previous - row.drift.current >= 2 || row.drift.current - row.drift.previous >= 2)
    ensures Finding(High, ProvenanceMissing, slug) in TriageOf(failed, first, second) <==>
      exists row :: row in first && Regraded(row, slug) && row.drift.unknown
  {
    FindingSource(failed, first, second, Finding(High, SuspiciousUpgrade, slug));
    FindingSource(failed, first, second, Finding(High, LargeGradeChange, slug));
    FindingSource(failed, first, second, Finding(High, ProvenanceMissing, slug));
    forall row | row in first ensures RowReported(row, slug) { RowReports(row, slug); }
  }

  predicate RowReported(row: ScanRow, slug: Option<Slug>) {
    && (Finding(High, SuspiciousUpgrade, slug) in RowFindings(row) <==>
          Regraded(row, slug) && row.drift.current < row.drift.previous)
    && (Finding(High, LargeGradeChange, slug) in RowFindings(row) <==>
          Regraded(row, slug) && (row.drift.previous - row.drift.current >= 2 || row.drift.current - row.drift.previous >= 2))
    && (Finding(High, ProvenanceMissing, slug) in RowFindings(row) <==> Regraded(row, slug) && row.drift.unknown)
  }

  /** A failed check is reported for the whole catalog, five of the checks as High and the others as Critical. */
  lemma ChecksReported(failed: seq<Check>, first: seq<ScanRow>, second: seq<ScanRow>, c: Check, severity: Severity)
    ensures Finding(severity, Failed(c), None) in TriageOf(failed, first, second) <==>
      && c in failed
      && severity == if c in {RepeatabilityProven, SourceClean, Denominator, RepeatBinding, PolicyDigest} then High
                     else Critical
  {
    var f := Finding(severity, Failed(c), None);
    FindingSource(failed, first, second, f);
    forall row | row in first ensures f !in RowFindings(row) { RowReports(row, None); }
    if c in failed {
      var i :| 0 <= i < |failed| && failed[i] == c;
      assert CheckFindings(failed)[i] == Finding(SeverityOf(c), Failed(c), None);
    }
  }

  /** A slug is reported as inconsistent exactly when the two scans do not both show it alike; where a scan has
      no projection at all, that is reported instead. */
  lemma RepeatsReported(failed: seq<Check>, first: seq<ScanRow>, second: seq<ScanRow>, slug: Slug)
    ensures Finding(Critical, RepeatEvidenceInvalid, None) in TriageOf(failed, first, second) <==>
      Project(first).Raised? || Project(second).Raised?
    ensures Project(first).Ok? && Project(second).Ok? ==> var x, y := Project(first).value, Project(second).value;
      (Finding(High, RepeatInconsistent, Some(slug)) in TriageOf(failed, first, second) <==>
        (slug in x && slug !in y) || (slug !in x && slug in y) || (slug in x && slug in y && x[slug] != y[slug]))
  {
    FindingSource(failed, first, second, Finding(Critical, RepeatEvidenceInvalid, None));
    FindingSource(failed, first, second, Finding(High, RepeatInconsistent, Some(slug)));
    forall row | row in first
      ensures Finding(Critical, RepeatEvidenceInvalid, None) !in RowFindings(row)
      ensures Finding(High, RepeatInconsistent, Some(slug)) !in RowFindings(row)
    {
      RowReports(row, None);
    }
    if Project(first).Ok? && Project(second).Ok? {
      var differing := InOrder(Differing(Project(first).value, Project(second).value));
      if slug in differing {
        var i :| 0 <= i < |differing| && differing[i] == slug;
        assert RepeatFindings(first, second)[i] == Finding(High, RepeatInconsistent, Some(slug));
      }
    } else {
      assert RepeatFindings(first, second)[0] == Finding(Critical, RepeatEvidenceInvalid, None);
    }
  }

  lemma DriftReports(of: Option<Slug>, d: Drift, slug: Option<Slug>)
    ensures Finding(High, SuspiciousUpgrade, slug) in DriftFindings(of, d) <==>
      slug == of && d.Drift? && d.current < d.previous
    ensures Finding(High, LargeGradeChange, slug) in DriftFindings(of, d) <==>
      slug == of && d.Drift? && (d.previous - d.current >= 2 || d.current - d.previous >= 2)
    ensures Finding(High, ProvenanceMissing, slug) in DriftFindings(of, d) <==> slug == of && d.Drift? && d.unknown
    ensures Finding(Medium, DriftUnknown, slug) in DriftFindings(of, d) <==> slug == of && d == NoRecord
    ensures Finding(High, DriftInvalid, slug) in DriftFindings(of, d) <==> slug == of && d == Unreadable
    ensures forall f :: f in DriftFindings(of, d) ==>
      f.code in {SuspiciousUpgrade, LargeGradeChange, ProvenanceMissing, DriftUnknown, DriftInvalid}
  {
    if d.Drift? {
      var x := if d.current < d.previous then [Finding(High, SuspiciousUpgrade, of)] else [];
      var y := if d.current >= d.previous + 2 || d.previous >= d.current + 2 then [Finding(High, LargeGradeChange, of)] else [];
      var z := if d.unknown then [Finding(High, ProvenanceMissing, of)] else [];
      assert DriftFindings(of, d) == x + y + z;
      assert forall f :: f in DriftFindings(of, d) <==> f in x || f in y || f in z;
    } else if d.NoRecord? {
      assert DriftFindings(of, d) == [Finding(Medium, DriftUnknown, of)];
    } else {
      assert DriftFindings(of, d) == [Finding(High, DriftInvalid, of)];
    }
  }

  // ---- rows without a baseline ----

  const RUN: set<ProjectedState> := {Fresh, Masked}

  predicate Baseless(row: ScanRow) { row.ScanRow? && row.projection.state in RUN ==> row.drift == NoRecord }

  /** A row that ran gives at most one Medium finding, and gives one only when it has no record of drift. */
  lemma RowMedium(row: ScanRow)
    requires row.ScanRow?
    ensures CountOf(RowFindings(row), Medium) ==
      if row.projection.state in RUN && row.drift == NoRecord then 1 else 0
  {
    var state := row.projection.state;
    if state !in RUN {
      assert RowFindings(row) == [Finding(Critical, ResultState(state), row.slug)];
      AllOf(RowFindings(row), Critical);
    } else {
      var masked := if state.Masked? then [Finding(High, MaskedNeedsReview, row.slug)] else [];
      AllOf(masked, High);
      CountAppend(masked, DriftFindings(row.slug, row.drift), Medium);
      AllOf(DriftFindings(row.slug, row.drift), if row.drift == NoRecord then Medium else High);
    }
  }

  lemma RowsMediumNext(rows: seq<ScanRow>)
    requires rows != [] && Project(rows).Ok?
    ensures var init, last := rows[..|rows| - 1], rows[|rows| - 1];
      && Project(init).Ok? && last.ScanRow?
      && CountOf(AllRowFindings(rows), Medium) == CountOf(AllRowFindings(init), Medium) + CountOf(RowFindings(last), Medium)
      && |SlugsIn(Project(rows).value, RUN)| == |SlugsIn(Project(init).value, RUN)|
           + if last.projection.state in RUN then 1 else 0
  {
    var init, last := rows[..|rows| - 1], rows[|rows| - 1];
    CountAppend(AllRowFindings(init), RowFindings(last), Medium);
    Added(Project(init).value, last.slug.value, last.projection, RUN);
  }

  lemma BaselessNext(rows: seq<ScanRow>)
    requires rows != []
    ensures (forall row :: row in rows ==> Baseless(row)) <==>
      (forall row :: row in rows[..|rows| - 1] ==> Baseless(row)) && Baseless(rows[|rows| - 1])
  {
    assert rows == rows[..|rows| - 1] + [rows[|rows| - 1]];
  }

  lemma {:induction false} RowsMedium(rows: seq<ScanRow>)
    requires Project(rows).Ok?
    ensures CountOf(AllRowFindings(rows), Medium) <= |SlugsIn(Project(rows).value, RUN)|
    ensures CountOf(AllRowFindings(rows), Medium) == |SlugsIn(Project(rows).value, RUN)| <==>
      forall row :: row in rows ==> Baseless(row)
  {
    if rows != [] {
      RowsMediumNext(rows);
      RowsMedium(rows[..|rows| - 1]);
      RowMedium(rows[|rows| - 1]);
      BaselessNext(rows);
    }
  }

  /** A triage shows as many Medium findings as rows that ran, and one more, exactly when no such row has a
      record of what its grade was before. */
  lemma BaselessTriage(failed: seq<Check>, first: seq<ScanRow>, second: seq<ScanRow>)
    requires Project(first).Ok? && Project(second).Ok?
    ensures CountOf(TriageOf(failed, first, second), Medium) == |SlugsIn(Project(first).value, RUN)| + 1 <==>
      forall row :: row in first ==> Baseless(row)
  {
    CountParts(failed, first, second, Medium);
    ChecksCounted(failed);
    RepeatsCounted(first, second);
    RowsMedium(first);
  }

  lemma StatesSplit(p: map<Slug, Projection>)
    ensures |SlugsIn(p, RUN)| == |SlugsIn(p, {Fresh})| + |SlugsIn(p, {Masked})|
    ensures SlugsIn(p, {OtherState}) == {} && |SlugsIn(p, {Masked})| == 0 ==>
      forall s :: s in p ==> p[s].state == Fresh || p[s].state == BlockedPolicy
  {
    assert SlugsIn(p, RUN) == SlugsIn(p, {Fresh}) + SlugsIn(p, {Masked});
    if SlugsIn(p, {OtherState}) == {} && |SlugsIn(p, {Masked})| == 0 {
      forall s | s in p ensures p[s].state == Fresh || p[s].state == BlockedPolicy {
        assert s !in SlugsIn(p, {Masked}) && s !in SlugsIn(p, {OtherState});
      }
    }
  }

  /** A fresh row that was never graded before, or a blocked one. */
  predicate FreshOrBlocked(row: ScanRow) {
    && row.ScanRow? && row.slug.Some?
    && (row.projection.state == Fresh || row.projection.state == BlockedPolicy)
    && (row.projection.state == Fresh ==> row.readable && row.drift == NoRecord)
  }

  lemma RowsFreshOrBlocked(failed: seq<Check>, first: seq<ScanRow>, second: seq<ScanRow>)
    requires Project(first).Ok? && Project(second).Ok?
    requires SlugsIn(Project(first).value, {OtherState}) == {} && |SlugsIn(Project(first).value, {Masked})| == 0
    requires CountOf(TriageOf(failed, first, second), Medium) == |SlugsIn(Project(first).value, {Fresh})| + 1
    ensures forall row :: row in first ==> FreshOrBlocked(row)
  {
    var p := Project(first).value;
    ProjectedRows(first);
    StatesSplit(p);
    BaselessTriage(failed, first, second);
    forall row | row in first ensures FreshOrBlocked(row) {
      assert row.slug.value in p && p[row.slug.value] == row.projection;
      assert Baseless(row);
    }
  }

  predicate BlockedRow(row: ScanRow, s: Slug) {
    row.ScanRow? && row.slug == Some(s) && row.projection.state == BlockedPolicy
  }

  lemma BlockedAreRows(rows: seq<ScanRow>)
    requires Project(rows).Ok?
    ensures forall s :: s in SlugsIn(Project(rows).value, {BlockedPolicy}) <==>
      exists row :: row in rows && BlockedRow(row, s)
  {
    ProjectedRows(rows);
    forall s ensures s in SlugsIn(Project(rows).value, {BlockedPolicy}) <==> exists row :: row in rows && BlockedRow(row, s) {
      if s in SlugsIn(Project(rows).value, {BlockedPolicy}) {
        var k :| 0 <= k < |rows| && rows[k].ScanRow? && rows[k].slug == Some(s);
        assert BlockedRow(rows[k], s);
      }
    }
  }
}
