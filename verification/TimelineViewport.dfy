/** Zooming, panning and ruling the timeline (app/src/replayTimelineGeometry.ts:22-218); ticks are integers, pixels reals. */
module TimelineViewport {
  import opened Nonlinear
  import opened TimelineClusters
  import ReplayTime

  function ClampInt(value: int, minimum: int, maximum: int): int {
    var raised := if value < minimum then minimum else value;
    if raised > maximum then maximum else raised
  }

  function Clamp(value: real, minimum: real, maximum: real): real {
    Min(maximum, Max(minimum, value))
  }

  /** Math.round: halves go up. */
  function Round(value: real): int {
    (value + 0.5).Floor
  }

  predicate Within(viewport: Viewport, duration: int) {
    0 <= viewport.start < viewport.end <= duration
  }

  function Whole(duration: int): Viewport {
    Viewport(0, if duration > 0 then duration else 0)
  }

  function Normalize(viewport: Viewport, duration: int): Viewport {
    if duration <= 0 then Whole(0)
    else
      var rawStart := if viewport.start < viewport.end then viewport.start else viewport.end;
      var rawEnd := if viewport.start < viewport.end then viewport.end else viewport.start;
      var span := ClampInt(rawEnd - rawStart, 1, duration);
      var start := ClampInt(rawStart, 0, duration - span);
      Viewport(start, start + span)
  }

  /** Normalizing lands inside the recording, and changes exactly the viewports that were not. */
  lemma NormalizedIsWithin(viewport: Viewport, duration: int)
    requires duration > 0
    ensures Within(Normalize(viewport, duration), duration)
    ensures Normalize(viewport, duration) == viewport <==> Within(viewport, duration)
    ensures Normalize(Normalize(viewport, duration), duration) == Normalize(viewport, duration)
  {
  }

  // ----- Position and tick -----

  function RatioAt(tick: int, viewport: Viewport): real {
    if Span(viewport) <= 0 then 0.0 else (tick - viewport.start) as real / Span(viewport) as real
  }

  function TickAt(ratio: real, viewport: Viewport): int {
    Round(viewport.start as real + Clamp(ratio, 0.0, 1.0) * Span(viewport) as real)
  }

  /** A visible tick drawn and then pointed at is the same tick; a pointed-at tick is visible. */
  lemma PointingRoundTrip(tick: int, ratio: real, viewport: Viewport)
    requires Span(viewport) > 0
    ensures Visible(tick, viewport) ==> TickAt(RatioAt(tick, viewport), viewport) == tick
    ensures Visible(TickAt(ratio, viewport), viewport)
  {
    var span := Span(viewport) as real;
    if Visible(tick, viewport) {
      FractionBounds((tick - viewport.start) as real, span);
    }
    var clamped := Clamp(ratio, 0.0, 1.0);
    FractionOf(clamped, span);
  }

  lemma FractionBounds(part: real, whole: real)
    requires 0.0 <= part <= whole && whole > 0.0
    ensures 0.0 <= part / whole <= 1.0 && (part / whole) * whole == part
  {
  }

  lemma FractionOf(ratio: real, whole: real)
    requires 0.0 <= ratio <= 1.0 && whole >= 0.0
    ensures 0.0 <= ratio * whole <= whole
  {
  }

  // ----- Zoom -----

  function SafeScale(scale: Measure): (s: real)
    ensures s > 0.0
  {
    if scale.Finite? && scale.value > 0.0 then scale.value else 1.0
  }

  /** The span a zoom aims at. */
  function NextSpan(span: int, duration: int, scale: Measure, minimumSpan: int): real {
    Clamp(span as real * SafeScale(scale), ClampInt(minimumSpan, 1, duration) as real, duration as real)
  }

  /** How far the anchor lies from the left edge, at a given span. */
  function Offset(anchor: int, viewport: Viewport, span: real): real {
    RatioAt(anchor, viewport) * span
  }

  lemma OffsetBounds(anchor: int, viewport: Viewport, span: real)
    requires Span(viewport) > 0 && Visible(anchor, viewport) && span >= 0.0
    ensures 0.0 <= Offset(anchor, viewport, span) <= span
    ensures span == Span(viewport) as real ==> Offset(anchor, viewport, span) == (anchor - viewport.start) as real
  {
    FractionBounds((anchor - viewport.start) as real, Span(viewport) as real);
    FractionOf(RatioAt(anchor, viewport), span);
  }

  lemma NextSpanBounds(span: int, duration: int, scale: Measure, minimumSpan: int)
    requires duration > 0
    ensures 1 <= ClampInt(minimumSpan, 1, duration) <= duration
    ensures ClampInt(minimumSpan, 1, duration) as real <= NextSpan(span, duration, scale, minimumSpan) <= duration as real
  {
  }

  method Zoom(viewport: Viewport, duration: int, anchor: int, scale: Measure, minimumSpan: int) returns (zoomed: Viewport)
    ensures duration <= 0 ==> zoomed == Whole(0)
    ensures duration > 0 ==> Zoomed(viewport, duration, anchor, scale, minimumSpan, zoomed)
  {
    hide *;
    NormalizedSpan(viewport, duration);
    var current := Normalize(viewport, duration);
    if duration <= 0 || Span(current) <= 0 {
      return current;
    }
    var nextSpan := NextSpan(Span(current), duration, scale, minimumSpan);
    var boundedAnchor := ClampInt(anchor, current.start, current.end);
    var start := boundedAnchor as real - Offset(boundedAnchor, current, nextSpan);
    var end := start + nextSpan;
    ghost var ideal := start;
    if start < 0.0 {
      end := end - start;
      start := 0.0;
    }
    if end > duration as real {
      start := start - (end - duration as real);
      end := duration as real;
    }
    zoomed := Normalize(Viewport(Round(start), Round(end)), duration);
    PlacedZoom(viewport, duration, anchor, scale, minimumSpan, ideal, start);
  }

  lemma NormalizedSpan(viewport: Viewport, duration: int)
    ensures if duration <= 0 then Normalize(viewport, duration) == Whole(0) else Span(Normalize(viewport, duration)) > 0
  {
  }

  lemma HeldIsVisible(anchor: int, current: Viewport)
    requires current.start <= current.end
    ensures Visible(ClampInt(anchor, current.start, current.end), current)
  {
  }

  lemma PlacedZoom(viewport: Viewport, duration: int, anchor: int, scale: Measure, minimumSpan: int, ideal: real, start: real)
    requires duration > 0
    requires var current := Normalize(viewport, duration);
             var nextSpan := NextSpan(Span(current), duration, scale, minimumSpan);
             var held := ClampInt(anchor, current.start, current.end);
             && ideal == held as real - Offset(held, current, nextSpan)
             && start == (if (if ideal < 0.0 then 0.0 else ideal) + nextSpan > duration as real then duration as real - nextSpan
                          else if ideal < 0.0 then 0.0 else ideal)
    ensures var nextSpan := NextSpan(Span(Normalize(viewport, duration)), duration, scale, minimumSpan);
            Zoomed(viewport, duration, anchor, scale, minimumSpan,
                   Normalize(Viewport(Round(start), Round(start + nextSpan)), duration))
  {
    var current := Normalize(viewport, duration);
    var nextSpan := NextSpan(Span(current), duration, scale, minimumSpan);
    var held := ClampInt(anchor, current.start, current.end);
    hide Offset, NextSpan, Normalize, Round, ClampInt, RatioAt, Clamp, Min, Max, SafeScale;
    NormalizedIsWithin(viewport, duration);
    HeldIsVisible(anchor, current);
    NextSpanBounds(Span(current), duration, scale, minimumSpan);
    OffsetBounds(held, current, nextSpan);
    RoundedPlace(ideal, start, nextSpan, duration, ClampInt(minimumSpan, 1, duration), held);
    NormalizedIsWithin(Viewport(Round(start), Round(start + nextSpan)), duration);
  }

  /** Rounding both edges of a placed span keeps it inside, wide enough and around the anchor. */
  lemma RoundedPlace(ideal: real, start: real, span: real, duration: int, minimum: int, anchor: int)
    requires 1 <= minimum <= duration && minimum as real <= span <= duration as real && 0 <= anchor <= duration
    requires ideal <= anchor as real <= ideal + span
    requires start == if ideal < 0.0 then 0.0 else if ideal + span > duration as real then duration as real - span else ideal
    ensures 0 <= Round(start) < Round(start + span) <= duration
    ensures Round(start + span) - Round(start) >= minimum
    ensures -1.0 < (Round(start + span) - Round(start)) as real - span < 1.0
    ensures Round(start) <= anchor <= Round(start + span)
    ensures -0.5 <= start - Round(start) as real <= 0.5
    ensures ideal >= 0.0 && ideal + span <= duration as real ==> start == ideal
    ensures start == start.Floor as real && start + span == (start + span).Floor as real ==>
              Round(start) as real == start && Round(start + span) as real == start + span
  {
    var end := start + span;
    RoundMonotone(0.0, start);
    RoundMonotone(end, duration as real);
    RoundMonotone(start, anchor as real);
    RoundMonotone(anchor as real, end);
    RoundMonotone(start + minimum as real, end);
    RoundWhole(0.0, 0);
    RoundWhole(duration as real, duration);
    RoundWhole(anchor as real, anchor);
    RoundShift(start, minimum);
    RoundNear(start);
    RoundNear(end);
    hide Round;
  }

  lemma RoundMonotone(a: real, b: real)
    ensures a <= b ==> Round(a) <= Round(b)
  {
  }

  lemma RoundWhole(a: real, n: int)
    requires a == n as real
    ensures Round(a) == n
  {
  }

  lemma RoundShift(a: real, n: int)
    ensures Round(a + n as real) == Round(a) + n
  {
  }

  lemma RoundNear(a: real)
    ensures -0.5 < Round(a) as real - a <= 0.5
    ensures a == a.Floor as real ==> Round(a) as real == a
  {
    if a == a.Floor as real {
      RoundWhole(a, a.Floor);
    } else {
      RoundBetween(a, Round(a));
    }
  }

  lemma RoundBetween(a: real, n: int)
    requires n == (a + 0.5).Floor
    ensures n as real <= a + 0.5 < n as real + 1.0
  {
  }

  /**
   * What a zoom promises: a viewport inside the recording, no narrower than the least span and within a tick of the span
   * aimed at, that still shows the anchor; at the anchor's old place, to half a tick, unless an end of the recording forbids
   * it; and no change at all where the span does not change.
   */
  ghost predicate Zoomed(viewport: Viewport, duration: int, anchor: int, scale: Measure, minimumSpan: int, zoomed: Viewport)
    requires duration > 0
  {
    var current := Normalize(viewport, duration);
    var nextSpan := NextSpan(Span(current), duration, scale, minimumSpan);
    var held := ClampInt(anchor, current.start, current.end);
    var start := held as real - Offset(held, current, nextSpan);
    && Within(zoomed, duration) && Span(zoomed) >= ClampInt(minimumSpan, 1, duration)
    && -1.0 < Span(zoomed) as real - nextSpan < 1.0
    && Visible(held, zoomed)
    && (start >= 0.0 && start + nextSpan <= duration as real ==> -0.5 <= start - zoomed.start as real <= 0.5)
    && (nextSpan == Span(current) as real ==> zoomed == current)
  }

  // ----- Pan -----

  function Pan(viewport: Viewport, duration: int, delta: int): Viewport {
    var current := Normalize(viewport, duration);
    var span := Span(current);
    if duration <= 0 || span <= 0 then current
    else
      var start := ClampInt(current.start + delta, 0, duration - span);
      Viewport(start, start + span)
  }

  /** Panning keeps the span and stays inside, moves by exactly delta where there is room, and then can be undone. */
  lemma PanKeepsTheSpan(viewport: Viewport, duration: int, delta: int)
    requires duration > 0
    ensures var current, panned := Normalize(viewport, duration), Pan(viewport, duration, delta);
            && Within(panned, duration) && Span(panned) == Span(current)
            && (panned.start == current.start + delta <==> 0 <= current.start + delta <= duration - Span(current))
            && (panned.start == current.start + delta ==> Pan(panned, duration, -delta) == current)
  {
  }

  // ----- The ruler -----

  /** The ruler's intervals, 0.1 seconds to an hour, in ticks. */
  const TENTH: int := ReplayTime.TICKS_PER_SECOND / 10

  const RULER_INTERVALS: seq<int> := [
    TENTH, 2 * TENTH, 5 * TENTH, 10 * TENTH, 20 * TENTH, 50 * TENTH, 100 * TENTH, 150 * TENTH, 300 * TENTH, 600 * TENTH,
    1_200 * TENTH, 1_800 * TENTH, 3_000 * TENTH, 6_000 * TENTH, 9_000 * TENTH, 18_000 * TENTH, 36_000 * TENTH]

  const MAX_RULER_TICKS := 200

  method RulerInterval(desired: real) returns (interval: int)
    ensures interval > 0 && interval in RULER_INTERVALS
    ensures interval as real >= desired || interval == 36_000 * TENTH
    ensures forall i :: 0 <= i < |RULER_INTERVALS| && RULER_INTERVALS[i] < interval ==> RULER_INTERVALS[i] as real < desired
  {
    var i := 0;
    while i < |RULER_INTERVALS|
      invariant i <= |RULER_INTERVALS|
      invariant forall j :: 0 <= j < i ==> RULER_INTERVALS[j] as real < desired
    {
      if RULER_INTERVALS[i] as real >= desired {
        assert forall j :: i < j < |RULER_INTERVALS| ==> RULER_INTERVALS[i] < RULER_INTERVALS[j];
        return RULER_INTERVALS[i];
      }
      i := i + 1;
    }
    return RULER_INTERVALS[|RULER_INTERVALS| - 1];
  }

  /** Every multiple of the interval between two ticks is in the list. */
  ghost predicate Covers(ticks: seq<int>, start: int, end: int, interval: int)
    requires interval > 0
  {
    forall t :: start <= t < end && t % interval == 0 ==> t in ticks
  }

  lemma Covered(ticks: seq<int>, start: int, tick: int, interval: int)
    requires interval > 0 && tick % interval == 0 && Covers(ticks, start, tick, interval)
    ensures Covers(ticks + [tick], start, tick + interval, interval)
  {
    NextMultiple(tick, interval);
  }

  /** The ruler's ticks: from the first multiple of the interval in view, every next one, up to the end or the cap. */
  method RulerTicks(viewport: Viewport, width: Measure, spacing: Measure) returns (ticks: seq<int>, interval: int)
    ensures Span(viewport) <= 0 || !width.Finite? || width.value <= 0.0 || !spacing.Finite? || spacing.value <= 0.0 ==> ticks == []
    ensures Span(viewport) > 0 && width.Finite? && width.value > 0.0 && spacing.Finite? && spacing.value > 0.0 ==>
              && interval in RULER_INTERVALS && interval > 0
              && |ticks| <= MAX_RULER_TICKS
              && (forall k :: 0 <= k < |ticks| ==> Visible(ticks[k], viewport) && ticks[k] % interval == 0)
              && (forall k :: 0 < k < |ticks| ==> ticks[k] == ticks[k - 1] + interval)
              && (ticks != [] ==> ticks[0] - interval < viewport.start)
              && (|ticks| < MAX_RULER_TICKS ==> Covers(ticks, viewport.start, viewport.end + 1, interval))
  {
    ticks, interval := [], 0;
    if Span(viewport) <= 0 || !width.Finite? || width.value <= 0.0 || !spacing.Finite? || spacing.value <= 0.0 {
      return;
    }
    interval := RulerInterval(Span(viewport) as real * spacing.value / width.value);
    var first := -(-viewport.start / interval) * interval;
    CeilingMultiple(viewport.start, interval);
    var tick := first;
    while tick <= viewport.end && |ticks| < MAX_RULER_TICKS
      invariant |ticks| <= MAX_RULER_TICKS && tick % interval == 0
      invariant tick == if ticks == [] then first else ticks[|ticks| - 1] + interval
      invariant ticks != [] ==> ticks[0] == first && first <= tick - interval <= viewport.end
      invariant forall k :: 0 <= k < |ticks| ==> Visible(ticks[k], viewport) && ticks[k] % interval == 0
      invariant forall k :: 0 < k < |ticks| ==> ticks[k] == ticks[k - 1] + interval
      invariant Covers(ticks, viewport.start, tick, interval)
    {
      NextMultiple(tick, interval);
      ghost var before := ticks;
      ticks := ticks + [tick];
      Covered(before, viewport.start, tick, interval);
      tick := tick + interval;
    }
  }

  lemma CeilingMultiple(start: int, interval: int)
    requires interval > 0
    ensures var first := -(-start / interval) * interval;
            && first % interval == 0 && start <= first < start + interval
            && forall t :: start <= t < first ==> t % interval != 0
  {
    var q := -start / interval;
    DivMod(-start, interval);
    var first := -q * interval;
    assert first == -(interval * q);
    DivUnique(first, interval, -q, 0);
    forall t | start <= t < first ensures t % interval != 0 {
      NoMultipleBetween(first - interval, t, interval, -q - 1);
    }
  }

  lemma NextMultiple(tick: int, interval: int)
    requires interval > 0 && tick % interval == 0
    ensures (tick + interval) % interval == 0
    ensures forall t :: tick < t < tick + interval ==> t % interval != 0
  {
    DivMod(tick, interval);
    var q := tick / interval;
    DivUnique(tick + interval, interval, q + 1, 0);
    forall t | tick < t < tick + interval ensures t % interval != 0 {
      NoMultipleBetween(tick, t, interval, q);
    }
  }

  lemma NoMultipleBetween(low: int, t: int, interval: int, q: int)
    requires interval > 0 && low == interval * q && low < t < low + interval
    ensures t % interval != 0
  {
    DivUnique(t, interval, q, t - low);
  }
}
