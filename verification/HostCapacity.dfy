/** Two-reading host-capacity evidence and the gate that re-checks it before every subprocess.

    Times are integer microseconds.  A percentage is held in millionths of a percent, so rounding to
    six decimals is rounding to an integer; arithmetic is exact where the original uses floats. */
module HostCapacity {
  import opened Results

  const MIN_AVAILABLE_BYTES := 5 * 1024 * 1024 * 1024
  const MIN_INTERVAL := 30_000_000
  const MAX_AGE := 120_000_000
  const REQUIRED_READINGS := 2
  const PERCENT := 1_000_000

  datatype Sample = Sample(device: int, total: int, available: int)

  predicate Consistent(s: Sample) {
    s.device >= 0 && s.total > 0 && 0 <= s.available <= s.total
  }

  datatype Reading = Reading(
    sequence: int, observedAt: int, device: int, total: int, available: int, used: int, percent: int)

  datatype Reason =
    | AvailableBelowFloor | CapacityNotBelow100
    | DeviceChanged | TotalChanged | ReadingsTooClose
    | CountersInconsistent | ObservationFailed

  datatype Status = Ready | Blocked

  datatype Anchor = Anchor(device: int, total: int)

  datatype Receipt = Receipt(
    observedAt: int, status: Status, safeToStart: bool, exit: Status,
    anchor: Option<Anchor>, readings: seq<Reading>, reasons: set<Reason>)

  /** Rounding of n/d to the nearest integer, ties to the even one (Python's `round`). */
  function RoundHalfEven(n: nat, d: nat): nat
    requires d > 0
  {
    var q, r := n / d, n % d;
    if 2 * r < d || (2 * r == d && q % 2 == 0) then q else q + 1
  }

  lemma Quotient(n: nat, d: nat, q: nat, r: nat)
    requires n == q * d + r && r < d
    ensures n / d == q && n % d == r
  {
    var e := n / d - q;
    assert e * d == r - n % d;
    assert e >= 1 ==> e * d >= d;
    assert e <= -1 ==> e * d <= -(d as int);
  }

  lemma RoundsToNearest(n: nat, d: nat, m: nat)
    requires d > 0
    ensures var q := RoundHalfEven(n, d); 2 * n <= 2 * (q * d) + d && 2 * (q * d) <= 2 * n + d
    ensures 2 * n == 2 * (m * d) + d ==> RoundHalfEven(n, d) % 2 == 0
  {
    var q, r := n / d, n % d;
    assert n == q * d + r;
    assert (q + 1) * d == q * d + d;
    if 2 * n == 2 * (m * d) + d {
      assert n == m * d + (n - m * d);
      Quotient(n, d, m, n - m * d);
    }
  }

  function CapacityPercent(s: Sample): int
    requires Consistent(s)
  {
    RoundHalfEven((s.total - s.available) * 100 * PERCENT, s.total)
  }

  function ReadingOf(s: Sample, sequence: int, at: int): Reading
    requires Consistent(s)
  {
    Reading(sequence, at, s.device, s.total, s.available, s.total - s.available, CapacityPercent(s))
  }

  function ReadingReasons(r: Reading): set<Reason> {
    (if r.available < MIN_AVAILABLE_BYTES then {AvailableBelowFloor} else {}) +
    (if r.percent >= 100 * PERCENT then {CapacityNotBelow100} else {})
  }

  /** The rounded percentage reaches 100 exactly when the total is at least 2*10^8 times what is available. */
  lemma PercentReaches100(s: Sample)
    requires Consistent(s)
    ensures CapacityPercent(s) >= 100 * PERCENT <==> s.total >= 200_000_000 * s.available
  {
    var n := (s.total - s.available) * 100 * PERCENT;
    var missing := 100_000_000 * s.available;
    if missing == 0 {
      Quotient(n, s.total, 100_000_000, 0);
    } else if missing <= s.total {
      Quotient(n, s.total, 99_999_999, s.total - missing);
    } else {
      BelowQuotient(n, s.total, 99_999_999);
    }
  }

  lemma BelowQuotient(n: nat, d: nat, q: nat)
    requires d > 0 && n < q * d
    ensures n / d < q
  {
    var k := n / d;
    assert k >= q ==> k * d >= q * d;
  }

  /** What one reading must satisfy to count, written on the raw counters. */
  predicate MeetsPolicy(s: Sample) {
    && Consistent(s)
    && s.available >= MIN_AVAILABLE_BYTES
    && s.total < 200_000_000 * s.available
  }

  lemma NoReasonsMeansPolicy(s: Sample, sequence: int, at: int)
    requires Consistent(s)
    ensures ReadingReasons(ReadingOf(s, sequence, at)) == {} <==> MeetsPolicy(s)
  {
    PercentReaches100(s);
    var r := ReadingOf(s, sequence, at);
    if r.available < MIN_AVAILABLE_BYTES { assert AvailableBelowFloor in ReadingReasons(r); }
    if r.percent >= 100 * PERCENT { assert CapacityNotBelow100 in ReadingReasons(r); }
  }

  function SampleOf(r: Reading): Sample { Sample(r.device, r.total, r.available) }

  /** A reading whose derived fields are the ones its counters give, on the receipt's own filesystem. */
  predicate SoundReading(r: Reading, sequence: int, anchor: Anchor) {
    && MeetsPolicy(SampleOf(r))
    && r == ReadingOf(SampleOf(r), sequence, r.observedAt)
    && anchor == Anchor(r.device, r.total)
  }

  /** The receipts that may authorise anything: two sound readings at least 30 s apart. */
  predicate Admissible(r: Receipt) {
    && r.anchor.Some?
    && |r.readings| == REQUIRED_READINGS
    && SoundReading(r.readings[0], 1, r.anchor.value)
    && SoundReading(r.readings[1], 2, r.anchor.value)
    && r.readings[1].observedAt - r.readings[0].observedAt >= MIN_INTERVAL
    && r.observedAt == r.readings[1].observedAt
    && r.status == Ready && r.safeToStart && r.exit == Ready && r.reasons == {}
  }

  /** The counters are possible ones of this filesystem, at least 5 GiB are free, and usage rounds below 100 %. */
  predicate CountersStand(s: Sample, device: int, total: int) {
    && s.device == device && s.total == total && device >= 0 && total > 0 && s.available <= total
    && s.available >= 5_368_709_120 && total < 200_000_000 * s.available
  }

  /** The receipt says it is ready, and holds the two readings that make it so. */
  predicate ReceiptStands(r: Receipt) {
    && r.status == Ready && r.exit == Ready && r.safeToStart && r.reasons == {}
    && r.anchor.Some? && |r.readings| == 2
    && r.readings[0].sequence == 1 && r.readings[1].sequence == 2
    && r.readings[1].observedAt - r.readings[0].observedAt >= 30_000_000 && r.observedAt == r.readings[1].observedAt
    && forall i :: 0 <= i < 2 ==> var x := r.readings[i];
      && CountersStand(Sample(x.device, x.total, x.available), r.anchor.value.device, r.anchor.value.total)
      && x.used == x.total - x.available && x.percent == CapacityPercent(Sample(x.device, x.total, x.available))
  }

  lemma StandsExactly(r: Receipt)
    ensures Admissible(r) <==> ReceiptStands(r)
  {
    if |r.readings| == 2 && r.anchor.Some? {
      ReadingStands(r.readings[0], 1, r.anchor.value);
      ReadingStands(r.readings[1], 2, r.anchor.value);
    }
  }

  lemma ReadingStands(x: Reading, sequence: int, anchor: Anchor)
    ensures SoundReading(x, sequence, anchor) <==>
      && CountersStand(Sample(x.device, x.total, x.available), anchor.device, anchor.total) && x.sequence == sequence
      && x.used == x.total - x.available && x.percent == CapacityPercent(Sample(x.device, x.total, x.available))
  {
  }

  /** validate_host_capacity_receipt: reading by reading, in order. */
  method ValidateHostCapacityReceipt(receipt: Receipt) returns (ok: bool)
    ensures ok <==> Admissible(receipt)
  {
    if receipt.anchor.None? || receipt.anchor.value.device < 0 || receipt.anchor.value.total <= 0
       || |receipt.readings| != REQUIRED_READINGS {
      return false;
    }
    var anchor := receipt.anchor.value;
    var times: seq<int> := [];
    var i := 0;
    while i < |receipt.readings|
      invariant 0 <= i <= |receipt.readings|
      invariant times == seq(i, k requires 0 <= k < i => receipt.readings[k].observedAt)
      invariant forall k :: 0 <= k < i ==> SoundReading(receipt.readings[k], k + 1, anchor)
    {
      var reading := receipt.readings[i];
      times := times + [reading.observedAt];
      var sample := SampleOf(reading);
      if !Consistent(sample) || reading != ReadingOf(sample, i + 1, reading.observedAt) {
        return false;
      }
      NoReasonsMeansPolicy(sample, i + 1, reading.observedAt);
      if reading.used + sample.available != sample.total || ReadingReasons(reading) != {}
         || reading.device != anchor.device || reading.total != anchor.total {
        return false;
      }
      i := i + 1;
    }
    ok := times[1] - times[0] >= MIN_INTERVAL
          && receipt.observedAt == receipt.readings[1].observedAt
          && receipt.status == Ready && receipt.safeToStart && receipt.exit == Ready
          && receipt.reasons == {};
  }

  /** build_host_capacity_receipt.  A reader call that raises is `Raised`; `clock` is the reading taken when
      no observation succeeded. */
  method BuildHostCapacityReceipt(
      first: Result<Sample>, firstAt: int, second: Result<Sample>, secondAt: int, clock: int)
    returns (receipt: Receipt)
    ensures receipt.status == Ready <==> Admissible(receipt)
    ensures receipt.status == Ready <==>
      && first.Ok? && second.Ok?
      && CountersStand(first.value, first.value.device, first.value.total)
      && CountersStand(second.value, first.value.device, first.value.total)
      && secondAt - firstAt >= 30_000_000
    ensures receipt.status == Ready ==>
      receipt.readings == [ReadingOf(first.value, 1, firstAt), ReadingOf(second.value, 2, secondAt)]
    ensures receipt.status == Blocked ==> receipt.reasons != {} && !receipt.safeToStart
  {
    var readings: seq<Reading> := [];
    var reasons: set<Reason> := {};
    if first.Raised? {
      reasons := {ObservationFailed};
    } else if !Consistent(first.value) {
      reasons := {CountersInconsistent};
    } else {
      var firstReading := ReadingOf(first.value, 1, firstAt);
      NoReasonsMeansPolicy(first.value, 1, firstAt);
      readings := [firstReading];
      reasons := reasons + ReadingReasons(firstReading);
      if reasons == {} {
        if second.Raised? {
          reasons := reasons + {ObservationFailed};
        } else if !Consistent(second.value) {
          reasons := reasons + {CountersInconsistent};
        } else {
          var secondReading := ReadingOf(second.value, 2, secondAt);
          NoReasonsMeansPolicy(second.value, 2, secondAt);
          readings := readings + [secondReading];
          reasons := reasons + ReadingReasons(secondReading);
          if second.value.device != first.value.device { reasons := reasons + {DeviceChanged}; }
          if second.value.total != first.value.total { reasons := reasons + {TotalChanged}; }
          if secondAt - firstAt < MIN_INTERVAL { reasons := reasons + {ReadingsTooClose}; }
        }
      }
    }
    var ready := |readings| == REQUIRED_READINGS && reasons == {};
    var status := if ready then Ready else Blocked;
    receipt := Receipt(
      if readings != [] then readings[|readings| - 1].observedAt else clock,
      status, ready, status,
      if readings != [] then Some(Anchor(readings[0].device, readings[0].total)) else None,
      readings, reasons);
  }

  /** When require_current_host_capacity lets a subprocess start at time `now` with the counters `current`. */
  predicate Admits(receipt: Receipt, now: int, current: Sample) {
    && Admissible(receipt)
    && receipt.observedAt <= now <= receipt.observedAt + MAX_AGE
    && MeetsPolicy(current)
    && receipt.anchor == Some(Anchor(current.device, current.total))
  }

  /** What admission means: the clock is within 120 s of the second of two readings that are at least 30 s
      apart, and the filesystem is still the one read then, with at least 5 GiB available. */
  predicate InWindow(receipt: Receipt, now: int, current: Sample) {
    && |receipt.readings| == 2
    && receipt.readings[0].observedAt + 30_000_000 <= receipt.readings[1].observedAt
    && receipt.readings[1].observedAt <= now <= receipt.readings[1].observedAt + 120_000_000
    && (forall i :: 0 <= i < 2 ==> receipt.readings[i].device == current.device)
    && (forall i :: 0 <= i < 2 ==> receipt.readings[i].total == current.total)
    && current.available >= 5 * 1024 * 1024 * 1024
  }

  lemma AdmitsInWindow(receipt: Receipt, now: int, current: Sample)
    requires Admits(receipt, now, current)
    ensures InWindow(receipt, now, current)
  {
  }

  /** require_current_host_capacity: the stored receipt is validated again on every call. */
  method RequireCurrentHostCapacity(receipt: Receipt, now: int, current: Result<Sample>) returns (ok: bool)
    ensures ok <==> current.Ok? && Admits(receipt, now, current.value)
    ensures ok <==>
      && current.Ok? && ReceiptStands(receipt) && 0 <= now - receipt.observedAt <= 120_000_000
      && CountersStand(current.value, receipt.anchor.value.device, receipt.anchor.value.total)
  {
    StandsExactly(receipt);
    var validated := ValidateHostCapacityReceipt(receipt);
    if !validated { return false; }
    var age := now - receipt.observedAt;
    if age < 0 || age > MAX_AGE || current.Raised? || !Consistent(current.value) { return false; }
    var reading := ReadingOf(current.value, 1, now);
    NoReasonsMeansPolicy(current.value, 1, now);
    if current.value.device != receipt.anchor.value.device
       || current.value.total != receipt.anchor.value.total {
      return false;
    }
    ok := ReadingReasons(reading) == {};
  }

  /** With the 5 GiB floor met, the percentage test can only fire on filesystems of at least 10^9 GiB. */
  lemma PercentFiresOnlyOnHugeFilesystems(s: Sample)
    requires Consistent(s) && s.available >= MIN_AVAILABLE_BYTES
    ensures CapacityPercent(s) >= 100 * PERCENT ==> s.total >= 200_000_000 * MIN_AVAILABLE_BYTES
    ensures s.available == MIN_AVAILABLE_BYTES && s.total >= 200_000_000 * MIN_AVAILABLE_BYTES ==>
              CapacityPercent(s) >= 100 * PERCENT
  {
    PercentReaches100(s);
  }
}
