/** Public letters bound to rounded scores.  Scores are exact reals; the original uses floats. */
module GradeBinding {
  import opened Results

  datatype Grade = A | B | C | D | F
  datatype Level = High | Medium | Low

  const HALF_CENT: real := 0.005

  function DangerBand(score: real): Grade {
    if score <= 2.0 then A else if score <= 3.5 then B else if score <= 5.0 then C
    else if score <= 7.5 then D else F
  }

  function TransparencyBand(coverage: real): Level {
    if coverage >= 0.7 then High else if coverage >= 0.3 then Medium else Low
  }

  /** A critical finding holds the grade at D or worse. */
  function Capped(g: Grade, critical: bool): Grade { if critical && g != F then D else g }

  function AtLeast(a: real, b: real): real { if a < b then b else a }
  function AtMost(a: real, b: real): real { if a > b then b else a }

  function Below(x: real): real { AtLeast(0.0, x - HALF_CENT) }
  function Above(x: real, maximum: real): real { AtMost(maximum, x + HALF_CENT) }

  /** Fields of a snapshot server; None is a missing or unsupported value. */
  datatype Server = Server(
    grade: Option<Grade>, danger: Option<real>, criticals: seq<bool>, level: Option<Level>, coverage: Option<real>)

  datatype Reason = GradeDangerMismatch | TransparencyCoverageMismatch

  predicate InRange(x: Option<real>, maximum: real) { x.Some? && 0.0 <= x.value <= maximum }

  predicate HasCritical(s: Server) { true in s.criticals }

  /** Some true value that rounds to what is published, to two decimals, has the published letter. */
  ghost predicate GradeExplained(grade: Grade, published: real, critical: bool) {
    exists s: real :: RoundsTo(s, published, 10.0) && Capped(DangerBand(s), critical) == grade
  }

  ghost predicate LevelExplained(level: Level, published: real) {
    exists s: real :: RoundsTo(s, published, 1.0) && TransparencyBand(s) == level
  }

  predicate RoundsTo(s: real, published: real, maximum: real) {
    0.0 <= s <= maximum && published - HALF_CENT <= s <= published + HALF_CENT
  }

  /** Between two scores one cent apart there is at most one band boundary, so the two ends show every band. */
  lemma EndsShowEveryBand(s: real, published: real)
    requires RoundsTo(s, published, 10.0)
    ensures DangerBand(s) in {DangerBand(Below(published)), DangerBand(Above(published, 10.0))}
  {
  }

  lemma EndsShowEveryLevel(s: real, published: real)
    requires RoundsTo(s, published, 1.0)
    ensures TransparencyBand(s) in {TransparencyBand(Below(published)), TransparencyBand(Above(published, 1.0))}
  {
  }

  /** The two candidates are exactly the letters some true score could have had. */
  lemma CandidatesAreExact(grade: Grade, published: real, critical: bool)
    requires 0.0 <= published <= 10.0
    ensures GradeExplained(grade, published, critical) <==>
      grade in {Capped(DangerBand(Below(published)), critical), Capped(DangerBand(Above(published, 10.0)), critical)}
  {
    assert RoundsTo(Below(published), published, 10.0) && RoundsTo(Above(published, 10.0), published, 10.0);
    if GradeExplained(grade, published, critical) {
      var s :| RoundsTo(s, published, 10.0) && Capped(DangerBand(s), critical) == grade;
      EndsShowEveryBand(s, published);
    }
  }

  lemma LevelsAreExact(level: Level, published: real)
    requires 0.0 <= published <= 1.0
    ensures LevelExplained(level, published) <==>
      level in {TransparencyBand(Below(published)), TransparencyBand(Above(published, 1.0))}
  {
    assert RoundsTo(Below(published), published, 1.0) && RoundsTo(Above(published, 1.0), published, 1.0);
    if LevelExplained(level, published) {
      var s :| RoundsTo(s, published, 1.0) && TransparencyBand(s) == level;
      EndsShowEveryLevel(s, published);
    }
  }

  /** The published scores each letter is admitted at. */
  lemma LetterScores(published: real)
    requires 0.0 <= published <= 10.0
    ensures GradeExplained(A, published, false) <==> published <= 2.005
    ensures GradeExplained(B, published, false) <==> 1.995 < published <= 3.505
    ensures GradeExplained(C, published, false) <==> 3.495 < published <= 5.005
    ensures GradeExplained(D, published, false) <==> 4.995 < published <= 7.505
    ensures GradeExplained(F, published, false) <==> 7.495 < published
  {
    CandidatesAreExact(A, published, false);
    CandidatesAreExact(B, published, false);
    CandidatesAreExact(C, published, false);
    CandidatesAreExact(D, published, false);
    CandidatesAreExact(F, published, false);
  }

  /** With a critical finding only two letters are left. */
  lemma CriticalScores(published: real)
    requires 0.0 <= published <= 10.0
    ensures GradeExplained(D, published, true) <==> published <= 7.505
    ensures GradeExplained(F, published, true) <==> 7.495 < published
    ensures forall g :: g != D && g != F ==> !GradeExplained(g, published, true)
  {
    CandidatesAreExact(D, published, true);
    CandidatesAreExact(F, published, true);
    forall g | g != D && g != F ensures !GradeExplained(g, published, true) { CandidatesAreExact(g, published, true); }
  }

  lemma LevelScores(published: real)
    requires 0.0 <= published <= 1.0
    ensures LevelExplained(High, published) <==> 0.695 <= published
    ensures LevelExplained(Medium, published) <==> 0.295 <= published < 0.705
    ensures LevelExplained(Low, published) <==> published < 0.305
  {
    LevelsAreExact(High, published);
    LevelsAreExact(Medium, published);
    LevelsAreExact(Low, published);
  }

  ghost predicate GradeContradicted(s: Server) {
    s.grade.Some? && InRange(s.danger, 10.0) && !GradeExplained(s.grade.value, s.danger.value, HasCritical(s))
  }

  ghost predicate LevelContradicted(s: Server) {
    s.level.Some? && InRange(s.coverage, 1.0) && !LevelExplained(s.level.value, s.coverage.value)
  }

  /** _validate_grade_binding: a mismatch is reported exactly when no true value explains the letter, so a
      correctly rounded record is never refused and a letter further off always is. */
  method ValidateGradeBinding(s: Server, reasons: set<Reason>) returns (r: set<Reason>)
    ensures GradeDangerMismatch in r <==> GradeDangerMismatch in reasons || GradeContradicted(s)
    ensures TransparencyCoverageMismatch in r <==> TransparencyCoverageMismatch in reasons || LevelContradicted(s)
  {
    r := reasons;
    if s.grade.Some? && InRange(s.danger, 10.0) {
      var numeric := s.danger.value;
      var candidates := {DangerBand(Below(numeric)), DangerBand(Above(numeric, 10.0))};
      if HasCritical(s) { candidates := set c | c in candidates :: if c in {D, F} then c else D; }
      CandidatesAreExact(s.grade.value, numeric, HasCritical(s));
      if s.grade.value !in candidates { r := r + {GradeDangerMismatch}; }
    }
    if s.level.Some? && InRange(s.coverage, 1.0) {
      var numeric := s.coverage.value;
      LevelsAreExact(s.level.value, numeric);
      if s.level.value !in {TransparencyBand(Below(numeric)), TransparencyBand(Above(numeric, 1.0))} {
        r := r + {TransparencyCoverageMismatch};
      }
    }
  }

  /** An explained letter with a critical finding is D or F. */
  lemma CriticalIsCapped(grade: Grade, published: real)
    requires GradeExplained(grade, published, true)
    ensures grade == D || grade == F
  {
  }
}
