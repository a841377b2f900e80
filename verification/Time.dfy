/** timespec arithmetic (stream_layers.c:293-315, grpc_stt.cpp:54-78), refined to whole nanoseconds. */
module Time {

  const SECOND := 1_000_000_000
  const RATE := 8000
  const SAMPLE_NANOS := 125_000
  const FRAME_SAMPLES := 160
  const FRAME_NANOS := 20_000_000

  datatype Timespec = Timespec(sec: int, nsec: int)
  {
    predicate Normal() { 0 <= nsec < SECOND }

    function Nanos(): int { sec * SECOND + nsec }
  }

  /** C's division, which truncates. */
  function Quotient(a: int, b: int): int
    requires b > 0
  {
    if a >= 0 then a / b else -(-a / b)
  }

  predicate Before(a: Timespec, b: Timespec) {
    a.sec < b.sec || (a.sec == b.sec && a.nsec < b.nsec)
  }

  lemma BeforeIsLess(a: Timespec, b: Timespec)
    requires a.Normal() && b.Normal()
    ensures Before(a, b) <==> a.Nanos() < b.Nanos()
  {
  }

  lemma SampleSplit(samples: nat, rate: int)
    requires rate > 0 && SECOND % rate == 0
    ensures samples / rate * SECOND + samples % rate * (SECOND / rate) == samples * (SECOND / rate)
    ensures 0 <= samples % rate * (SECOND / rate) < SECOND
  {
    var unit := SECOND / rate;
    assert SECOND == rate * unit;
    assert samples == samples / rate * rate + samples % rate;
    assert samples * unit == (samples / rate * rate) * unit + samples % rate * unit;
    assert (samples / rate * rate) * unit == samples / rate * (rate * unit);
    assert samples % rate <= rate - 1;
    assert samples % rate * unit <= (rate - 1) * unit;
  }

  lemma SampleNanos(rest: nat, rate: int)
    requires rate > 0 && SECOND % rate == 0
    ensures rest * SECOND / rate == rest * (SECOND / rate)
  {
    var unit := SECOND / rate;
    assert SECOND == rate * unit;
    assert rest * SECOND == rate * (rest * unit);
  }

  /** time_add_samples. The two spellings of the nanosecond part (stream_layers.c:296 and
      grpc_stt.cpp:69) agree because a sample is a whole number of nanoseconds. */
  method AddSamples(t: Timespec, samples: nat, rate: int, wide: bool) returns (r: Timespec)
    requires t.Normal() && rate > 0 && SECOND % rate == 0
    ensures r.Normal() && r.Nanos() == t.Nanos() + samples * (SECOND / rate)
  {
    SampleSplit(samples, rate);
    SampleNanos(samples % rate, rate);
    r := t.(sec := t.sec + samples / rate);
    if wide {
      r := r.(nsec := r.nsec + samples % rate * SECOND / rate);
    } else {
      r := r.(nsec := r.nsec + samples % rate * (SECOND / rate));
    }
    if r.nsec >= SECOND {
      r := Timespec(r.sec + 1, r.nsec - SECOND);
    }
  }

  lemma OrderOfMultiples(a: int, b: int, unit: int)
    requires unit > 0
    ensures a * unit < (b + 1) * unit ==> a <= b
  {
    if a >= b + 1 {
      assert (a - (b + 1)) * unit >= 0;
    }
  }

  lemma QuotientIs(n: int, unit: int, q: int, rest: int)
    requires unit > 0 && n == q * unit + rest && 0 <= rest < unit
    ensures n / unit == q && n % unit == rest
  {
    var q', rest' := n / unit, n % unit;
    assert n == q' * unit + rest';
    assert q * unit < (q' + 1) * unit && q' * unit < (q + 1) * unit;
    OrderOfMultiples(q, q', unit);
    OrderOfMultiples(q', q, unit);
  }

  /** The least multiple of `unit` not below `n`. */
  function AlignedUp(n: int, unit: int): (r: int)
    requires unit > 0
    ensures r % unit == 0 && n <= r < n + unit
  {
    var q := (n + (unit - 1)) / unit;
    QuotientIs(q * unit, unit, q, 0);
    assert n + (unit - 1) == q * unit + (n + (unit - 1)) % unit;
    q * unit
  }

  lemma AlignedUpLeast(n: int, unit: int, m: int)
    requires unit > 0 && m % unit == 0 && n <= m
    ensures AlignedUp(n, unit) <= m
  {
    var q, k := (n + (unit - 1)) / unit, m / unit;
    assert m == k * unit && AlignedUp(n, unit) == q * unit;
    assert q * unit < (k + 1) * unit;
    OrderOfMultiples(q, k, unit);
    assert (k - q) * unit >= 0;
  }

  lemma AlignSplit(sec: int, nsec: nat, unit: int)
    requires unit > 0 && SECOND % unit == 0
    ensures AlignedUp(sec * SECOND + nsec, unit) == sec * SECOND + AlignedUp(nsec, unit)
    ensures nsec < SECOND ==> AlignedUp(nsec, unit) <= SECOND
  {
    var k, q, rest := SECOND / unit, (nsec + (unit - 1)) / unit, (nsec + (unit - 1)) % unit;
    assert SECOND == k * unit;
    assert sec * (k * unit) == (sec * k) * unit;
    assert nsec + (unit - 1) == q * unit + rest;
    assert (sec * k + q) * unit == (sec * k) * unit + q * unit;
    QuotientIs(sec * SECOND + nsec + (unit - 1), unit, sec * k + q, rest);
    if nsec < SECOND {
      AlignedUpLeast(nsec, unit, SECOND);
    }
  }

  /** time_align_frame_time, for any frame length that divides the second. */
  method AlignFrameTime(t: Timespec, unit: int) returns (r: Timespec)
    requires t.Normal() && unit > 0 && SECOND % unit == 0
    ensures r.Normal() && r.Nanos() == AlignedUp(t.Nanos(), unit)
  {
    AlignSplit(t.sec, t.nsec, unit);
    r := t.(nsec := (t.nsec + (unit - 1)) / unit * unit);
    if r.nsec >= SECOND {
      r := Timespec(r.sec + 1, r.nsec - SECOND);
    }
  }

  const INT_BOUND := 0x8000_0000

  predicate FitsInt(n: int) { -INT_BOUND <= n < INT_BOUND }

  /** The 32-bit int that a wider number is cut down to. */
  function ToInt(n: int): (r: int)
    ensures FitsInt(r) && (n - r) % (2 * INT_BOUND) == 0
    ensures r == n <==> FitsInt(n)
  {
    (n + INT_BOUND) % (2 * INT_BOUND) - INT_BOUND
  }

  /** delta_samples: whole samples from `b` to `a`, rounded down, also when `a` is earlier, for any
      rate that divides the second; the result is cut down to an int. */
  method DeltaSamples(a: Timespec, b: Timespec, rate: int) returns (r: int)
    requires a.Normal() && b.Normal() && rate > 0 && SECOND % rate == 0
    ensures r == ToInt((a.Nanos() - b.Nanos()) / (SECOND / rate))
  {
    var delta := Timespec(a.sec - b.sec, a.nsec - b.nsec);
    if delta.nsec < 0 {
      delta := Timespec(delta.sec - 1, delta.nsec + SECOND);
    }
    assert delta.Nanos() == a.Nanos() - b.Nanos();
    SamplesElapsed(delta.sec, delta.nsec, rate);
    assert delta.nsec * rate >= 0;
    r := ToInt(delta.sec * rate + Quotient(delta.nsec * rate, SECOND));
  }

  lemma Reduced(n: nat, rate: int, unit: int)
    requires rate > 0 && unit > 0
    ensures rate * unit > 0 && n * rate / (rate * unit) == n / unit
  {
    var q, rest := n / unit, n % unit;
    assert n == q * unit + rest && rest <= unit - 1;
    assert n * rate == (q * unit) * rate + rest * rate;
    assert (q * unit) * rate == q * (rate * unit);
    assert rest * rate <= (unit - 1) * rate;
    assert (unit - 1) * rate == rate * unit - rate;
    QuotientIs(n * rate, rate * unit, q, rest * rate);
  }

  lemma WholeUnits(k: int, n: nat, unit: int)
    requires unit > 0
    ensures (k * unit + n) / unit == k + n / unit
  {
    var q, rest := n / unit, n % unit;
    assert n == q * unit + rest;
    assert (k + q) * unit == k * unit + q * unit;
    QuotientIs(k * unit + n, unit, k + q, rest);
  }

  lemma SamplesElapsed(sec: int, nsec: nat, rate: int)
    requires rate > 0 && SECOND % rate == 0
    ensures sec * rate + nsec * rate / SECOND == (sec * SECOND + nsec) / (SECOND / rate)
  {
    var unit := SECOND / rate;
    assert SECOND == rate * unit;
    Reduced(nsec, rate, unit);
    WholeUnits(sec * rate, nsec, unit);
    assert sec * (rate * unit) == (sec * rate) * unit;
  }

  // ---------------------------------------------------------------- sleep lengths

  /** The nearest whole number, the even one when two are equally near: lrint, and what the IEEE
      remainder leaves out. */
  function RoundEven(x: real): int {
    var low := x.Floor;
    var rest := x - low as real;
    if rest < 0.5 || (rest == 0.5 && low % 2 == 0) then low else low + 1
  }

  /** No whole number is nearer, and one that is as near is odd. */
  lemma RoundsToNearest(x: real, other: int)
    ensures var r := RoundEven(x);
      var away, near := other as real - x, r as real - x;
      && -0.5 <= near <= 0.5
      && (other != r ==> away >= 0.5 || away <= -0.5)
      && (other != r && (away == 0.5 || away == -0.5) ==> r % 2 == 0 && other % 2 == 1)
  {
  }

  /** What rounding to a double does to the numbers that matter here: it keeps their order, and
      keeps those that are halves of whole numbers. */
  ghost predicate RoundsToDouble(rounded: real -> real) {
    && (forall a, b :: a <= b ==> rounded(a) <= rounded(b))
    && (forall a :: (2.0 * a).Floor as real == 2.0 * a && -1_000_000_000.0 <= a <= 1_000_000_000.0 ==> rounded(a) == a)
  }

  /** parse_floating_timespec on a text that strtod reads as `x`: the seconds are rounded down, but
      the nanoseconds are the remainder to the nearest second, so they may be negative. */
  function ParsedTimeout(x: real, rounded: real -> real): Timespec {
    Timespec(x.Floor, RoundEven(rounded((x - RoundEven(x) as real) * 1_000_000_000.0)))
  }

  /** The samples of a sleep, before they are stored. */
  function SleepLength(timeout: Timespec): int {
    timeout.sec * RATE + Quotient(timeout.nsec, SAMPLE_NANOS)
  }

  /** stream_source_start_sleep: the count is stored in an int. */
  function SleepSamples(timeout: Timespec): (r: int)
    ensures r == SleepLength(timeout) <==> FitsInt(SleepLength(timeout))
  {
    ToInt(SleepLength(timeout))
  }

  /** The whole samples of `x` seconds, taken to the nearest nanosecond. */
  function AskedSamples(x: real, rounded: real -> real): int {
    (x.Floor * SECOND + RoundEven(rounded((x - x.Floor as real) * 1_000_000_000.0))) / SAMPLE_NANOS
  }

  lemma RoundWithin(x: real, low: int, high: int)
    requires low as real <= x <= high as real
    ensures low <= RoundEven(x) <= high
  {
  }

  /** Rounding to a double and to a whole number keeps a number between whole numbers. */
  lemma RoundedWithin(rounded: real -> real, x: real, low: int, high: int)
    requires RoundsToDouble(rounded) && -SECOND <= low && high <= SECOND
    requires low as real <= x <= high as real
    ensures low <= RoundEven(rounded(x)) <= high
  {
    assert (2.0 * low as real).Floor == 2 * low && (2.0 * high as real).Floor == 2 * high;
    assert rounded(low as real) <= rounded(x) <= rounded(high as real);
    RoundWithin(rounded(x), low, high);
  }

  lemma WholeSleepSamples(sec: int, nanos: nat)
    ensures (sec * SECOND + nanos) / SAMPLE_NANOS == sec * RATE + nanos / SAMPLE_NANOS
  {
    WholeUnits(sec * RATE, nanos, SAMPLE_NANOS);
    assert sec * SECOND == sec * RATE * SAMPLE_NANOS;
  }

  predicate RoundsUp(x: real) {
    var rest := x - x.Floor as real;
    rest > 0.5 || (rest == 0.5 && x.Floor % 2 == 1)
  }

  /** Before it is stored, a length is right if the fraction of a second does not round up, and up
      to a second and a half too short otherwise. */
  lemma LengthAsAsked(x: real, rounded: real -> real)
    requires x >= 0.0 && RoundsToDouble(rounded)
    ensures var length, asked := SleepLength(ParsedTimeout(x, rounded)), AskedSamples(x, rounded);
      if RoundsUp(x) then 0 < asked - length <= 2 * RATE else length == asked
  {
    var sec := x.Floor;
    var rest := x - sec as real;
    var nanos := RoundEven(rounded(rest * 1_000_000_000.0));
    if RoundsUp(x) {
      RoundedWithin(rounded, rest * 1_000_000_000.0, 500_000_000, SECOND);
      assert RoundEven(x) == sec + 1;
      RoundedWithin(rounded, (rest - 1.0) * 1_000_000_000.0, -500_000_000, 0);
      assert (x - RoundEven(x) as real) * 1_000_000_000.0 == (rest - 1.0) * 1_000_000_000.0;
    } else {
      RoundedWithin(rounded, rest * 1_000_000_000.0, 0, 500_000_000);
      assert RoundEven(x) == sec;
    }
    WholeSleepSamples(sec, nanos);
  }

  /** A sleep lasts as long as asked exactly when the fraction of a second does not round up and
      the count fits the int it is stored in. */
  lemma SleepAsAskedIff(x: real, rounded: real -> real)
    requires x >= 0.0 && RoundsToDouble(rounded)
    ensures SleepSamples(ParsedTimeout(x, rounded)) == AskedSamples(x, rounded)
       <==> !RoundsUp(x) && FitsInt(AskedSamples(x, rounded))
  {
    hide ParsedTimeout, AskedSamples, SleepLength, RoundsUp, RoundsToDouble;
    LengthAsAsked(x, rounded);
  }

  /** Before it is stored, a length is negative exactly for negative numbers and for those between
      half a second and a sample short of a whole one. */
  lemma LengthNonNegativeIff(x: real, rounded: real -> real)
    requires RoundsToDouble(rounded)
    ensures SleepLength(ParsedTimeout(x, rounded)) >= 0
       <==> x >= 0.0 && !(0.5 < x < 1.0 && rounded((x - 1.0) * 1_000_000_000.0) <= -124_999.5)
  {
    var part := (x - RoundEven(x) as real) * 1_000_000_000.0;
    RoundedWithin(rounded, part, -500_000_000, 500_000_000);
    if 0.0 <= x <= 0.5 {
      RoundedWithin(rounded, part, 0, 500_000_000);
    }
  }

  /** A sleep's length is not negative exactly when its samples, modulo 2^32, are below 2^31; while
      they fit an int, when the number is not negative and not between half a second and a sample
      short of a whole one. */
  lemma SleepNonNegativeIff(x: real, rounded: real -> real)
    requires RoundsToDouble(rounded)
    ensures var timeout := ParsedTimeout(x, rounded); var length := SleepLength(timeout);
      && (SleepSamples(timeout) >= 0 <==> length % (2 * INT_BOUND) < INT_BOUND)
      && (FitsInt(length) ==>
            (SleepSamples(timeout) >= 0 <==>
               x >= 0.0 && !(0.5 < x < 1.0 && rounded((x - 1.0) * 1_000_000_000.0) <= -124_999.5)))
  {
    hide ParsedTimeout, SleepLength, RoundsToDouble;
    LengthNonNegativeIff(x, rounded);
  }

  /** 300000 seconds are stored as a negative count. */
  lemma LongSleep(rounded: real -> real)
    requires RoundsToDouble(rounded)
    ensures SleepSamples(ParsedTimeout(300_000.0, rounded)) == -1_894_967_296
  {
    assert RoundEven(300_000.0) == 300_000 && rounded(0.0) == 0.0;
  }
}
