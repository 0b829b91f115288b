/** Exact replay time: reduced rationals, checked scaling and the frame/tick grid (app/src/replayTime.ts). */
module ReplayTime {
  import opened Nonlinear
  import opened Wrappers

  const TICKS_PER_SECOND: int := 48_000_000
  const MAX_REPLAY_TICK: int := TICKS_PER_SECOND * 86_400
  const MAX_U64: int := 0xFFFF_FFFF_FFFF_FFFF
  const MAX_I64: int := 0x7FFF_FFFF_FFFF_FFFF
  const MIN_I64: int := -0x8000_0000_0000_0000

  datatype TimeError =
    | ZeroDenominator
    | NonpositiveRational
    | InexactConversion
    | OutOfRange
    | InvalidClipRange
    | MediaIdentityMismatch
    | InvalidMediaTimeline
    | MinimumClipDuration

  datatype RoundingMode = Exact | Floor | Ceil | NearestTiesToEven

  datatype Rational = Rational(numerator: int, denominator: int)

  function Abs(x: int): nat {
    if x < 0 then -x else x
  }

  // ----- BigInt division, which truncates toward zero -----

  function TruncDiv(a: int, b: int): int
    requires b > 0
  {
    if a < 0 then -((-a) / b) else a / b
  }

  function TruncRem(a: int, b: int): int
    requires b > 0
  {
    if a < 0 then -((-a) % b) else a % b
  }

  // ----- The gcd loop and reduced rationals -----

  function EuclidGcd(a: nat, b: nat): nat
    decreases b
  {
    if b == 0 then a else EuclidGcd(b, a % b)
  }

  method Gcd(left: int, right: int) returns (a: int)
    ensures a == EuclidGcd(Abs(left), Abs(right))
    ensures a >= 0
  {
    a := if left < 0 then -left else left;
    var b := if right < 0 then -right else right;
    while b != 0
      invariant a >= 0 && b >= 0
      invariant EuclidGcd(a, b) == EuclidGcd(Abs(left), Abs(right))
      decreases b
    {
      a, b := b, a % b;
    }
  }

  lemma {:induction false} GcdDividesBoth(a: nat, b: nat) returns (p: nat, q: nat)
    ensures a == EuclidGcd(a, b) * p && b == EuclidGcd(a, b) * q
    ensures a > 0 || b > 0 ==> EuclidGcd(a, b) > 0
    decreases b
  {
    if b == 0 {
      p, q := 1, 0;
    } else {
      var p', q' := GcdDividesBoth(b, a % b);
      DivMod(a, b);
      p, q := p' * (a / b) + q', p';
      CofactorStep(EuclidGcd(a, b), p', q', a / b);
    }
  }

  lemma CofactorStep(g: int, p: int, q: int, k: int)
    ensures g * (p * k + q) == (g * p) * k + g * q
  {}

  lemma {:induction false} Bezout(a: nat, b: nat) returns (x: int, y: int)
    ensures x * a + y * b == EuclidGcd(a, b)
    decreases b
  {
    if b == 0 {
      x, y := 1, 0;
    } else {
      var x', y' := Bezout(b, a % b);
      DivMod(a, b);
      x, y := y', x' - y' * (a / b);
      BezoutStep(b, a / b, a % b, x', y');
    }
  }

  lemma BezoutStep(b: int, q: int, r: int, x: int, y: int)
    ensures y * (b * q + r) + (x - y * q) * b == x * b + y * r
  {}

  /** The loop's result really is the greatest common divisor: it is a multiple of every common divisor. */
  lemma GcdIsGreatest(a: nat, b: nat, d: nat, p: nat, q: nat)
    requires a == d * p && b == d * q
    ensures exists k: int :: EuclidGcd(a, b) == d * k
  {
    var x, y := Bezout(a, b);
    hide EuclidGcd;
    CommonFactor(d, x, p, y, q);
    assert EuclidGcd(a, b) == d * (x * p + y * q);
  }

  lemma CommonFactor(d: int, x: int, p: int, y: int, q: int)
    ensures x * (d * p) + y * (d * q) == d * (x * p + y * q)
  {
    Regroup(d, x, p);
    Regroup(d, y, q);
    Distribute(d, x * p, y * q);
  }

  lemma Regroup(d: int, x: int, p: int)
    ensures x * (d * p) == d * (x * p)
  {
  }

  lemma Distribute(d: int, u: int, v: int)
    ensures d * (u + v) == d * u + d * v
  {
  }

  function ParseRational(numerator: int, denominator: int): Result<Rational, TimeError> {
    if numerator < MIN_I64 || numerator > MAX_I64 then Err(OutOfRange)
    else if denominator < 0 || denominator > MAX_U64 then Err(OutOfRange)
    else if denominator == 0 then Err(ZeroDenominator)
    else
      var divisor := EuclidGcd(Abs(numerator), denominator);
      GcdPositive(Abs(numerator), denominator);
      Ok(Rational(TruncDiv(numerator, divisor), TruncDiv(denominator, divisor)))
  }

  lemma GcdPositive(a: nat, b: nat)
    requires b > 0
    ensures EuclidGcd(a, b) > 0
  {
    var p, q := GcdDividesBoth(a, b);
  }

  function PositiveRational(numerator: int, denominator: int): Result<Rational, TimeError> {
    var rational :- ParseRational(numerator, denominator);
    if rational.numerator <= 0 then Err(NonpositiveRational) else Ok(rational)
  }

  predicate RationalEquals(left: Rational, right: Rational) {
    left.numerator == right.numerator && left.denominator == right.denominator
  }

  /** A parsed rational has the wire's value, a positive denominator, and no common factor left (a Bezout pair). */
  lemma ParseRationalReduces(numerator: int, denominator: int) returns (r: Rational, x: int, y: int)
    requires ParseRational(numerator, denominator).Ok?
    ensures ParseRational(numerator, denominator) == Ok(r)
    ensures r.denominator > 0
    ensures r.numerator * denominator == numerator * r.denominator
    ensures x * r.numerator + y * r.denominator == 1
  {
    r := ParseRational(numerator, denominator).value;
    var n := Abs(numerator);
    var g: int := EuclidGcd(n, denominator);
    var p, q := GcdDividesBoth(n, denominator);
    var x', y' := Bezout(n, denominator);
    ExactQuotient(g, p);
    ExactQuotient(g, q);
    ProductSign(g, q);
    var signed: int := p;
    assert r.numerator == (if numerator < 0 then -signed else signed) && r.denominator == q;
    ReducedPair(g, p, q, x', y');
    x, y := if numerator < 0 then -x' else x', y';
  }

  lemma ReducedPair(g: int, p: int, q: int, x: int, y: int)
    requires g > 0 && x * (g * p) + y * (g * q) == g
    ensures x * p + y * q == 1
    ensures p * (g * q) == (g * p) * q
  {
    assert x * (g * p) + y * (g * q) == g * (x * p + y * q);
    MulCancel(g, x * p + y * q, 1);
  }

  /** Equality of parsed rationals is exactly equality of the wire values, whatever their signs. */
  lemma RationalEqualsIffCrossProductsEqual(n1: int, d1: int, n2: int, d2: int)
    requires ParseRational(n1, d1).Ok? && ParseRational(n2, d2).Ok?
    ensures RationalEquals(ParseRational(n1, d1).value, ParseRational(n2, d2).value) <==> n1 * d2 == n2 * d1
  {
    var r1, x1, y1 := ParseRationalReduces(n1, d1);
    var r2, x2, y2 := ParseRationalReduces(n2, d2);
    var a, b, c, e := r1.numerator, r1.denominator, r2.numerator, r2.denominator;
    CrossProducts(n1, d1, a, b, n2, d2, c, e);
    if n1 * d2 == n2 * d1 {
      LowestTermsUnique(a, b, x1, y1, c, e, x2, y2);
    }
  }

  lemma CrossProducts(n1: int, d1: int, a: int, b: int, n2: int, d2: int, c: int, e: int)
    requires d1 > 0 && b > 0 && d2 > 0 && e > 0
    requires a * d1 == n1 * b && c * d2 == n2 * e
    ensures n1 * d2 == n2 * d1 <==> a * e == c * b
  {
    var d := d1 * d2;
    assert d > 0;
    var left, right := n1 * d2, n2 * d1;
    var be := b * e;
    assert be > 0;
    assert left * be == (a * e) * d by {
      assert left * be == (n1 * b) * (d2 * e);
      assert (a * d1) * (d2 * e) == (a * e) * d;
    }
    assert right * be == (c * b) * d by {
      assert right * be == (n2 * e) * (d1 * b);
      assert (c * d2) * (d1 * b) == (c * b) * d;
    }
    if left == right {
      assert d * (a * e) == d * (c * b);
      MulCancel(d, a * e, c * b);
    }
    if a * e == c * b {
      assert be * left == be * right;
      MulCancel(be, left, right);
    }
  }

  lemma LowestTermsUnique(a: int, b: int, x1: int, y1: int, c: int, e: int, x2: int, y2: int)
    requires b > 0 && e > 0 && a * e == c * b
    requires x1 * a + y1 * b == 1 && x2 * c + y2 * e == 1
    ensures a == c && b == e
  {
    DenominatorDivides(a, b, x1, y1, c, e);
    DenominatorDivides(c, e, x2, y2, a, b);
    assert b == e;
    assert b * a == b * c;
    MulCancel(b, a, c);
  }

  lemma DenominatorDivides(a: int, b: int, x: int, y: int, c: int, e: int)
    requires b > 0 && e > 0 && a * e == c * b && x * a + y * b == 1
    ensures b <= e
  {
    var k := x * c + y * e;
    BezoutMultiple(a, b, x, y, c, e);
    ProductSign(b, k);
  }

  lemma BezoutMultiple(a: int, b: int, x: int, y: int, c: int, e: int)
    requires a * e == c * b && x * a + y * b == 1
    ensures e == b * (x * c + y * e)
  {
    assert e == e * (x * a + y * b) == x * (a * e) + y * b * e;
    assert x * (c * b) == b * (x * c);
  }

  // ----- Checked scaling -----

  function CheckedScale(value: int, numerator: int, denominator: int, rounding: RoundingMode): Result<int, TimeError> {
    if denominator <= 0 then Err(ZeroDenominator)
    else
      var scaled := value * numerator;
      var floor := TruncDiv(scaled, denominator);
      var remainder := TruncRem(scaled, denominator);
      var euclideanFloor := if remainder < 0 then floor - 1 else floor;
      var euclideanRemainder := if remainder < 0 then remainder + denominator else remainder;
      if euclideanRemainder == 0 then Ok(euclideanFloor)
      else match rounding
           case Exact => Err(InexactConversion)
           case Floor => Ok(euclideanFloor)
           case Ceil => Ok(euclideanFloor + 1)
           case NearestTiesToEven =>
             var doubled := euclideanRemainder * 2;
             if doubled < denominator || (doubled == denominator && TruncRem(euclideanFloor, 2) == 0)
             then Ok(euclideanFloor)
             else Ok(euclideanFloor + 1)
  }

  /** k is the integer the rounding mode names for scaled / denominator, stated without dividing. */
  ghost predicate Rounds(scaled: int, denominator: int, rounding: RoundingMode, k: int)
    requires denominator > 0
  {
    match rounding
    case Exact => k * denominator == scaled
    case Floor => k * denominator <= scaled < (k + 1) * denominator
    case Ceil => (k - 1) * denominator < scaled <= k * denominator
    case NearestTiesToEven =>
      && 2 * Abs(scaled - k * denominator) <= denominator
      && (2 * Abs(scaled - k * denominator) == denominator ==> k % 2 == 0)
  }

  /** The truncating quotient and remainder, corrected, are the Euclidean ones. */
  lemma EuclideanFromTruncating(scaled: int, denominator: int)
    requires denominator > 0
    ensures var remainder := TruncRem(scaled, denominator);
            (if remainder < 0 then TruncDiv(scaled, denominator) - 1 else TruncDiv(scaled, denominator)) == scaled / denominator
    ensures var remainder := TruncRem(scaled, denominator);
            (if remainder < 0 then remainder + denominator else remainder) == scaled % denominator
  {
    if scaled < 0 {
      var q, r := (-scaled) / denominator, (-scaled) % denominator;
      DivMod(-scaled, denominator);
      NegatedDivision(denominator, q);
      if r == 0 {
        DivUnique(scaled, denominator, -q, 0);
      } else {
        DivUnique(scaled, denominator, -q - 1, denominator - r);
      }
    }
  }

  lemma NegatedDivision(d: int, q: int)
    ensures d * (-q) == -(d * q)
    ensures d * (-q - 1) == -(d * q) - d
  {}

  /** The integer beside the quotient that each mode names. */
  lemma QuotientRounds(scaled: int, d: int, q: int, e: int)
    requires d > 0 && scaled == q * d + e && 0 <= e < d
    ensures Rounds(scaled, d, Floor, q)
    ensures e == 0 ==> Rounds(scaled, d, Exact, q) && Rounds(scaled, d, Ceil, q) && Rounds(scaled, d, NearestTiesToEven, q)
    ensures e > 0 ==> Rounds(scaled, d, Ceil, q + 1)
    ensures 2 * e < d || (2 * e == d && q % 2 == 0) ==> Rounds(scaled, d, NearestTiesToEven, q)
    ensures 2 * e > d || (2 * e == d && q % 2 != 0) ==> Rounds(scaled, d, NearestTiesToEven, q + 1)
  {
    Step(q, d);
    Step(q + 1, d);
    assert (q + 1 - 1) * d == q * d;
  }

  lemma NoExactQuotient(scaled: int, d: int)
    requires d > 0 && scaled % d != 0
    ensures forall k: int :: k * d != scaled
  {
    forall k: int ensures k * d != scaled {
      if k * d == scaled {
        DivUnique(scaled, d, k, 0);
      }
    }
  }

  /** For every sign, a result is the rounded quotient, and scaling fails only where the source throws. */
  lemma CheckedScaleIsCorrect(value: int, numerator: int, denominator: int, rounding: RoundingMode)
    ensures var r := CheckedScale(value, numerator, denominator, rounding);
            && (denominator <= 0 <==> r == Err(ZeroDenominator))
            && (r.Ok? ==> denominator > 0 && Rounds(value * numerator, denominator, rounding, r.value))
            && (denominator > 0 && rounding != Exact ==> r.Ok?)
            && (denominator > 0 && rounding == Exact && r.Err? ==>
                  r == Err(InexactConversion) && forall k: int :: k * denominator != value * numerator)
  {
    if denominator > 0 {
      var scaled := value * numerator;
      EuclideanFromTruncating(scaled, denominator);
      DivMod(scaled, denominator);
      var q, e := scaled / denominator, scaled % denominator;
      assert TruncRem(q, 2) == 0 <==> q % 2 == 0;
      QuotientRounds(scaled, denominator, q, e);
      if e != 0 {
        NoExactQuotient(scaled, denominator);
      }
      hide Rounds, TruncDiv, TruncRem;
    }
  }

  /** Each mode names one integer, so a stated rounding determines the result. */
  lemma RoundsUnique(scaled: int, denominator: int, rounding: RoundingMode, j: int, k: int)
    requires denominator > 0
    requires Rounds(scaled, denominator, rounding, j) && Rounds(scaled, denominator, rounding, k)
    ensures j == k
  {
    if j < k {
      RoundsOrdered(scaled, denominator, rounding, j, k);
    } else if k < j {
      RoundsOrdered(scaled, denominator, rounding, k, j);
    }
  }

  lemma RoundsOrdered(scaled: int, denominator: int, rounding: RoundingMode, low: int, high: int)
    requires denominator > 0 && low < high && Rounds(scaled, denominator, rounding, low)
    ensures !Rounds(scaled, denominator, rounding, high)
  {
    Step(low, denominator);
    Step(high, denominator);
    MulMonotone(low + 1, high, denominator);
    if high > low + 1 {
      Step(low + 1, denominator);
      MulMonotone(low + 2, high, denominator);
    }
  }

  /** "Nearest" means what it says: no integer is closer, and of two equally close ones the even one is taken. */
  lemma NearestIsNearest(scaled: int, denominator: int, k: int, other: int)
    requires denominator > 0 && Rounds(scaled, denominator, NearestTiesToEven, k)
    ensures Abs(scaled - k * denominator) <= Abs(scaled - other * denominator)
    ensures other != k && Abs(scaled - k * denominator) == Abs(scaled - other * denominator) ==> k % 2 == 0
  {
    Step(k, denominator);
    if other > k {
      MulMonotone(k + 1, other, denominator);
    } else if other < k {
      MulMonotone(other, k - 1, denominator);
    }
  }

  // ----- Frames and ticks -----

  function FrameToTick(frame: int, frameRate: Rational, rounding: RoundingMode): Result<int, TimeError> {
    if frameRate.numerator <= 0 then Err(NonpositiveRational)
    else
      var result :- CheckedScale(frame, TICKS_PER_SECOND * frameRate.denominator, frameRate.numerator, rounding);
      if result < 0 || result > MAX_REPLAY_TICK then Err(OutOfRange) else Ok(result)
  }

  function TickToFrame(tick: int, frameRate: Rational, rounding: RoundingMode): Result<int, TimeError> {
    if frameRate.numerator <= 0 then Err(NonpositiveRational)
    else
      var result :- CheckedScale(tick, frameRate.numerator, TICKS_PER_SECOND * frameRate.denominator, rounding);
      if result < 0 || result > MAX_REPLAY_TICK then Err(OutOfRange) else Ok(result)
  }

  predicate PositiveRate(rate: Rational) {
    rate.numerator > 0 && rate.denominator > 0
  }

  /** Ticks per frame are Span(rate) / rate.numerator. */
  function Span(rate: Rational): int {
    TICKS_PER_SECOND * rate.denominator
  }

  /** The pairs of modes the clip editor and the seek path use there and back. */
  predicate InverseModes(out: RoundingMode, back: RoundingMode) {
    || out == Exact
    || (out == NearestTiesToEven && back == NearestTiesToEven)
    || (out == Floor && back == Ceil)
    || (out == Ceil && back == Floor)
  }

  /** Where a frame lasts at least one tick, converting a frame out and back is the identity. */
  lemma FrameTickRoundTrip(frame: int, rate: Rational, out: RoundingMode, back: RoundingMode)
    requires PositiveRate(rate) && rate.numerator <= Span(rate) && InverseModes(out, back)
    requires 0 <= frame <= MAX_REPLAY_TICK && FrameToTick(frame, rate, out).Ok?
    ensures TickToFrame(FrameToTick(frame, rate, out).value, rate, back) == Ok(frame)
  {
    var n, m := Span(rate), rate.numerator;
    CheckedScaleIsCorrect(frame, n, m, out);
    var tick := FrameToTick(frame, rate, out).value;
    CheckedScaleIsCorrect(tick, m, n, back);
    RoundTripRounds(frame, n, m, tick, out, back);
    if back == Exact {
      assert frame * n == tick * m;
    }
    var result := CheckedScale(tick, m, n, back);
    assert result.Ok?;
    RoundsUnique(tick * m, n, back, result.value, frame);
  }

  lemma RoundTripRounds(frame: int, n: int, m: int, tick: int, out: RoundingMode, back: RoundingMode)
    requires n >= m > 0 && InverseModes(out, back)
    requires Rounds(frame * n, m, out, tick)
    ensures Rounds(tick * m, n, back, frame)
  {
    Step(frame, n);
    Step(tick, m);
    if out == NearestTiesToEven {
      NearestTripRounds(frame * n, tick * m, frame, tick, n, m);
    }
  }

  lemma NearestTripRounds(exact: int, landed: int, frame: int, tick: int, n: int, m: int)
    requires n >= m > 0 && exact == frame * n && landed == tick * m && Rounds(exact, m, NearestTiesToEven, tick)
    ensures Rounds(landed, n, NearestTiesToEven, frame)
  {
    if 2 * Abs(landed - exact) == n {
      assert n == m;
      assert (frame - tick) * n == exact - landed;
      ProductSign(n, 2 * (frame - tick) + 1);
      ProductSign(n, 2 * (tick - frame) + 1);
      HalfProducts(frame - tick, n);
    }
  }

  /** A multiple of n is never exactly half of n away. */
  lemma HalfProducts(d: int, n: int)
    requires n > 0
    ensures 2 * Abs(d * n) != n
  {
    if d > 0 {
      MulMonotone(1, d, n);
    } else if d < 0 {
      MulMonotone(d, -1, n);
    }
  }

  /** Below one tick per frame the floor/ceil trip already loses frame 1, so the condition is exact for that pair. */
  lemma FloorCeilRoundTripIffFrameLastsATick(rate: Rational)
    requires PositiveRate(rate)
    ensures (forall frame | 0 <= frame <= MAX_REPLAY_TICK && FrameToTick(frame, rate, Floor).Ok? ::
               TickToFrame(FrameToTick(frame, rate, Floor).value, rate, Ceil) == Ok(frame))
            <==> rate.numerator <= Span(rate)
  {
    var n, m := Span(rate), rate.numerator;
    if m <= n {
      forall frame | 0 <= frame <= MAX_REPLAY_TICK && FrameToTick(frame, rate, Floor).Ok?
        ensures TickToFrame(FrameToTick(frame, rate, Floor).value, rate, Ceil) == Ok(frame)
      {
        FrameTickRoundTrip(frame, rate, Floor, Ceil);
      }
    } else {
      CheckedScaleIsCorrect(1, n, m, Floor);
      RoundsUnique(1 * n, m, Floor, CheckedScale(1, n, m, Floor).value, 0);
      assert FrameToTick(1, rate, Floor) == Ok(0);
      CheckedScaleIsCorrect(0, m, n, Ceil);
      RoundsUnique(0 * m, n, Ceil, CheckedScale(0, m, n, Ceil).value, 0);
      assert TickToFrame(0, rate, Ceil) == Ok(0);
    }
  }

  // ----- Validated timelines -----

  /** The numbers of a version 2 timeline on the wire; decimal strings are already integers here. */
  datatype TimelineWire = TimelineWire(
    mediaId: string,
    timeBaseNumerator: int, timeBaseDenominator: int,
    rateNumerator: int, rateDenominator: int,
    expectedRateNumerator: int, expectedRateDenominator: int,
    exactCfr: bool,
    frameCount: int, expectedFrameCount: int,
    replayEnd: int, firstPts: int, onePastLastPts: int)

  datatype MediaTimeline = MediaTimeline(mediaId: string, timeBase: Rational, firstPts: int, frameRate: Rational,
                                         frameCount: int, onePastLastPts: int, replayEnd: int)

  function ParseBounded(value: int): Result<int, TimeError> {
    if value < 0 || value > MAX_REPLAY_TICK then Err(OutOfRange) else Ok(value)
  }

  function ParseI64(value: int): Result<int, TimeError> {
    if value < MIN_I64 || value > MAX_I64 then Err(OutOfRange) else Ok(value)
  }

  function ValidateMediaTimeline(wire: TimelineWire): Result<MediaTimeline, TimeError> {
    var timeBase :- PositiveRational(wire.timeBaseNumerator, wire.timeBaseDenominator);
    var frameRate :- PositiveRational(wire.rateNumerator, wire.rateDenominator);
    var expectedFrameRate :- PositiveRational(wire.expectedRateNumerator, wire.expectedRateDenominator);
    if !RationalEquals(frameRate, expectedFrameRate) || !wire.exactCfr then Err(InvalidMediaTimeline)
    else
      var frameCount :- ParseBounded(wire.frameCount);
      if frameCount == 0 then Err(InvalidMediaTimeline)
      else
        var expected :- ParseBounded(wire.expectedFrameCount);
        if expected != frameCount then Err(InvalidMediaTimeline)
        else
          var replayEnd :- ParseBounded(wire.replayEnd);
          var covered :- FrameToTick(frameCount, frameRate, Exact);
          if covered != replayEnd then Err(InvalidMediaTimeline)
          else
            var firstPts :- ParseI64(wire.firstPts);
            var lastPts :- ParseI64(wire.onePastLastPts);
            var ptsEnd :- CheckedScale(lastPts - firstPts, timeBase.numerator * TICKS_PER_SECOND, timeBase.denominator, Exact);
            if ptsEnd < 0 || ptsEnd != replayEnd then Err(InvalidMediaTimeline)
            else Ok(MediaTimeline(wire.mediaId, timeBase, firstPts, frameRate, frameCount, lastPts, replayEnd))
  }

  predicate ValidTimeline(t: MediaTimeline) {
    && PositiveRate(t.frameRate)
    && 1 <= t.frameCount <= MAX_REPLAY_TICK
    && 0 <= t.replayEnd <= MAX_REPLAY_TICK
    && t.frameCount * Span(t.frameRate) == t.replayEnd * t.frameRate.numerator
  }

  /** What acceptance has checked, one clock at a time. */
  lemma AcceptedTimeline(wire: TimelineWire)
    requires ValidateMediaTimeline(wire).Ok?
    ensures var t := ValidateMediaTimeline(wire).value;
            && PositiveRational(wire.timeBaseNumerator, wire.timeBaseDenominator) == Ok(t.timeBase)
            && PositiveRational(wire.rateNumerator, wire.rateDenominator) == Ok(t.frameRate)
            && PositiveRational(wire.expectedRateNumerator, wire.expectedRateDenominator).Ok?
            && RationalEquals(t.frameRate, PositiveRational(wire.expectedRateNumerator, wire.expectedRateDenominator).value)
            && FrameToTick(t.frameCount, t.frameRate, Exact) == Ok(t.replayEnd)
            && CheckedScale(t.onePastLastPts - t.firstPts, t.timeBase.numerator * TICKS_PER_SECOND, t.timeBase.denominator, Exact)
               == Ok(t.replayEnd)
            && t.replayEnd == wire.replayEnd && t.frameCount == wire.frameCount && t.mediaId == wire.mediaId
            && t.firstPts == wire.firstPts && t.onePastLastPts == wire.onePastLastPts
            && 1 <= t.frameCount <= MAX_REPLAY_TICK && 0 <= t.replayEnd <= MAX_REPLAY_TICK
  {
    hide PositiveRational, RationalEquals, CheckedScale, FrameToTick;
  }

  lemma PositiveRationalReduces(n: int, d: int) returns (r: Rational)
    requires PositiveRational(n, d).Ok?
    ensures PositiveRational(n, d) == Ok(r) == ParseRational(n, d)
    ensures r.numerator > 0 && r.denominator > 0 && r.numerator * d == n * r.denominator
  {
    hide ParseRational;
    r := PositiveRational(n, d).value;
    var reduced, x, y := ParseRationalReduces(n, d);
  }

  lemma FrameClockAgrees(count: int, ticks: int, n: int, d: int)
    requires PositiveRational(n, d).Ok? && FrameToTick(count, PositiveRational(n, d).value, Exact) == Ok(ticks)
    ensures (count * TICKS_PER_SECOND) * d == ticks * n
    ensures count * Span(PositiveRational(n, d).value) == ticks * PositiveRational(n, d).value.numerator
  {
    var rate := PositiveRationalReduces(n, d);
    CheckedScaleIsCorrect(count, Span(rate), rate.numerator, Exact);
    hide CheckedScale, PositiveRational, ParseRational;
    ExactClock(count, ticks, rate.denominator, rate.numerator, d, n);
  }

  lemma PtsClockAgrees(pts: int, ticks: int, n: int, d: int)
    requires PositiveRational(n, d).Ok?
    requires CheckedScale(pts, PositiveRational(n, d).value.numerator * TICKS_PER_SECOND, PositiveRational(n, d).value.denominator,
                          Exact) == Ok(ticks)
    ensures (pts * TICKS_PER_SECOND) * n == ticks * d
  {
    var base := PositiveRationalReduces(n, d);
    CheckedScaleIsCorrect(pts, base.numerator * TICKS_PER_SECOND, base.denominator, Exact);
    hide CheckedScale, PositiveRational, ParseRational;
    ExactClock(pts, ticks, base.numerator, base.denominator, n, d);
  }

  /**
   * Acceptance pins every clock to one length: the wire's frame count at the wire's rate, its presentation
   * timestamps at the wire's time base, and its replay end are the same duration, cross-multiplied exactly.
   */
  lemma ValidatedTimelineClocksAgree(wire: TimelineWire)
    requires ValidateMediaTimeline(wire).Ok?
    ensures var t := ValidateMediaTimeline(wire).value;
            && ValidTimeline(t)
            && t.replayEnd == wire.replayEnd && t.frameCount == wire.frameCount && t.mediaId == wire.mediaId
            && (wire.frameCount * TICKS_PER_SECOND) * wire.rateDenominator == wire.replayEnd * wire.rateNumerator
            && ((wire.onePastLastPts - wire.firstPts) * TICKS_PER_SECOND) * wire.timeBaseNumerator
               == wire.replayEnd * wire.timeBaseDenominator
            && wire.rateNumerator * wire.expectedRateDenominator == wire.expectedRateNumerator * wire.rateDenominator
  {
    hide ValidateMediaTimeline, PositiveRational, ParseRational, RationalEquals, CheckedScale, FrameToTick, Span;
    AcceptedTimeline(wire);
    var rate := PositiveRationalReduces(wire.rateNumerator, wire.rateDenominator);
    var expected := PositiveRationalReduces(wire.expectedRateNumerator, wire.expectedRateDenominator);
    RationalEqualsIffCrossProductsEqual(wire.rateNumerator, wire.rateDenominator,
                                        wire.expectedRateNumerator, wire.expectedRateDenominator);
    FrameClockAgrees(wire.frameCount, wire.replayEnd, wire.rateNumerator, wire.rateDenominator);
    PtsClockAgrees(wire.onePastLastPts - wire.firstPts, wire.replayEnd, wire.timeBaseNumerator, wire.timeBaseDenominator);
  }

  lemma ExactClock(count: int, ticks: int, p: int, q: int, P: int, Q: int)
    requires p > 0 && q > 0 && count * (TICKS_PER_SECOND * p) == ticks * q && p * Q == P * q
    ensures (count * TICKS_PER_SECOND) * P == ticks * Q
  {
    assert count * (TICKS_PER_SECOND * p) == (count * TICKS_PER_SECOND) * p;
    ScaledBack(count * TICKS_PER_SECOND, ticks, p, q, P, Q);
  }

  /** u * p == v * q carries over to any P, Q in the same nonzero proportion. */
  lemma ScaledBack(u: int, v: int, p: int, q: int, P: int, Q: int)
    requires p > 0 && q > 0 && u * p == v * q && p * Q == P * q
    ensures u * P == v * Q
  {
    assert q * (u * P) == u * (P * q) == u * (p * Q) == (u * p) * Q == (v * q) * Q == q * (v * Q);
    MulCancel(q, u * P, v * Q);
  }

  // ----- Clip ranges -----

  datatype ClipRange = ClipRange(mediaId: string, startFrame: int, endFrameExclusive: int)

  function CreateClipRange(timeline: MediaTimeline, startFrame: int, endFrameExclusive: int, mediaId: string)
    : Result<ClipRange, TimeError>
  {
    if mediaId != timeline.mediaId then Err(MediaIdentityMismatch)
    else if startFrame >= endFrameExclusive || endFrameExclusive > timeline.frameCount then Err(InvalidClipRange)
    else Ok(ClipRange(mediaId, startFrame, endFrameExclusive))
  }

  function Min(a: int, b: int): int {
    if a < b then a else b
  }

  function Max(a: int, b: int): int {
    if a < b then b else a
  }

  function ProjectIntervalToClipRange(timeline: MediaTimeline, start: int, end: int): Result<ClipRange, TimeError> {
    if start >= end then Err(InvalidClipRange)
    else
      var startFrame :- TickToFrame(start, timeline.frameRate, Floor);
      var endFrame :- TickToFrame(end, timeline.frameRate, Ceil);
      CreateClipRange(timeline, Min(startFrame, timeline.frameCount), Min(endFrame, timeline.frameCount), timeline.mediaId)
  }

  /** Frame boundary f is at or before the tick; boundaries are compared without rounding. */
  ghost predicate BoundaryAtOrBefore(t: MediaTimeline, frame: int, tick: int) {
    frame * Span(t.frameRate) <= tick * t.frameRate.numerator
  }

  ghost predicate BoundaryAtOrAfter(t: MediaTimeline, frame: int, tick: int) {
    frame * Span(t.frameRate) >= tick * t.frameRate.numerator
  }

  ghost predicate Covers(t: MediaTimeline, startFrame: int, endFrame: int, start: int, end: int) {
    BoundaryAtOrBefore(t, startFrame, start) && BoundaryAtOrAfter(t, endFrame, end)
  }

  lemma FloorBounds(x: int, n: int, frames: int, f: int)
    requires n > 0 && 0 <= x <= frames * n && Rounds(x, n, Floor, f)
    ensures 0 <= f <= frames
    ensures forall g: int :: g * n <= x ==> g <= f
    ensures x < frames * n ==> f < frames
  {
    forall g: int | g * n <= x ensures g <= f {
      MulStrict(g, f + 1, n);
    }
    assert 0 * n <= x;
    MulStrict(f, frames, n);
  }

  lemma CeilBounds(x: int, n: int, frames: int, c: int)
    requires n > 0 && 0 <= x <= frames * n && Rounds(x, n, Ceil, c)
    ensures 0 <= c <= frames
    ensures forall g: int :: g * n >= x ==> c <= g
    ensures x > 0 ==> c > 0
  {
    forall g: int | g * n >= x ensures c <= g {
      MulStrict(c - 1, g, n);
    }
    assert frames * n >= x;
    MulStrict(-1, c, n);
    MulStrict(0, c, n);
  }

  lemma TickProductInTimeline(t: MediaTimeline, tick: int)
    requires ValidTimeline(t) && 0 <= tick <= t.replayEnd
    ensures 0 <= tick * t.frameRate.numerator <= t.frameCount * Span(t.frameRate)
    ensures tick < t.replayEnd ==> tick * t.frameRate.numerator < t.frameCount * Span(t.frameRate)
    ensures tick > 0 ==> tick * t.frameRate.numerator > 0
  {
    MulStrict(tick, t.replayEnd, t.frameRate.numerator);
    MulStrict(0, tick, t.frameRate.numerator);
  }

  /** Inside the timeline a tick's floor and ceiling frames exist and are the tightest grid bounds. */
  lemma FrameBoundsInTimeline(t: MediaTimeline, tick: int)
    requires ValidTimeline(t) && 0 <= tick <= t.replayEnd
    ensures var f := TickToFrame(tick, t.frameRate, Floor);
            && f.Ok? && 0 <= f.value <= t.frameCount && BoundaryAtOrBefore(t, f.value, tick)
            && (forall g :: BoundaryAtOrBefore(t, g, tick) ==> g <= f.value)
            && (tick < t.replayEnd ==> f.value < t.frameCount)
    ensures var c := TickToFrame(tick, t.frameRate, Ceil);
            && c.Ok? && 0 <= c.value <= t.frameCount && BoundaryAtOrAfter(t, c.value, tick)
            && (forall g :: BoundaryAtOrAfter(t, g, tick) ==> c.value <= g)
            && (tick > 0 ==> c.value > 0)
  {
    var n, m := Span(t.frameRate), t.frameRate.numerator;
    TickProductInTimeline(t, tick);
    CheckedScaleIsCorrect(tick, m, n, Floor);
    CheckedScaleIsCorrect(tick, m, n, Ceil);
    FloorBounds(tick * m, n, t.frameCount, CheckedScale(tick, m, n, Floor).value);
    CeilBounds(tick * m, n, t.frameCount, CheckedScale(tick, m, n, Ceil).value);
  }

  /** The projected range is the smallest in-bounds frame range that covers the interval. */
  lemma ProjectionIsSmallestCover(t: MediaTimeline, start: int, end: int)
    requires ValidTimeline(t) && 0 <= start < end <= t.replayEnd
    ensures var r := ProjectIntervalToClipRange(t, start, end);
            && r.Ok? && r.value.mediaId == t.mediaId
            && 0 <= r.value.startFrame < r.value.endFrameExclusive <= t.frameCount
            && Covers(t, r.value.startFrame, r.value.endFrameExclusive, start, end)
            && forall a, b :: Covers(t, a, b, start, end) ==> a <= r.value.startFrame && r.value.endFrameExclusive <= b
  {
    FrameBoundsInTimeline(t, start);
    FrameBoundsInTimeline(t, end);
    var f := TickToFrame(start, t.frameRate, Floor).value;
    var c := TickToFrame(end, t.frameRate, Ceil).value;
    FloorBelowCeil(start * t.frameRate.numerator, end * t.frameRate.numerator, Span(t.frameRate), f, c) by {
      MulStrict(start, end, t.frameRate.numerator);
    }
  }

  lemma FloorBelowCeil(x: int, y: int, n: int, f: int, c: int)
    requires n > 0 && x < y && f * n <= x && y <= c * n
    ensures f < c
  {
    MulStrict(f, c, n);
  }

  /** An interval that starts at or after the end of the timeline has no range at all. */
  lemma NoRangePastTheEnd(t: MediaTimeline, start: int, end: int)
    requires ValidTimeline(t) && t.replayEnd <= start
    ensures ProjectIntervalToClipRange(t, start, end).Err?
  {
    var n, m := Span(t.frameRate), t.frameRate.numerator;
    CheckedScaleIsCorrect(start, m, n, Floor);
    MulMonotone(t.replayEnd, start, m);
    MulStrict(t.frameCount, CheckedScale(start, m, n, Floor).value + 1, n);
  }
}
