/** Where a seek goes (app/src/playbackController.ts:284-285, 535-540): the nearest frame of the loop or of the recording. */
module SeekTargets {
  import opened Nonlinear
  import opened ReplayTime
  import opened Wrappers

  const SEEK_SLACK_TICKS: int := TICKS_PER_SECOND / 1_000_000

  /** Media whose frame lasts a whole number of ticks; on any other grid the source's tolerance() throws. */
  predicate PlayableTimeline(t: MediaTimeline) {
    ValidTimeline(t) && FrameToTick(1, t.frameRate, Exact).Ok?
  }

  /** The clamped preview and the tick of the nearest frame in the loop, or in the whole timeline. */
  function Snap(t: MediaTimeline, loop: Option<ClipRange>, target: int): Result<(int, int), TimeError> {
    var first := if loop.Some? then loop.value.startFrame else 0;
    var last := (if loop.Some? then loop.value.endFrameExclusive else t.frameCount) - 1;
    var minimum :- if loop.Some? then FrameToTick(loop.value.startFrame, t.frameRate, Exact) else Ok(0);
    var maximum :- if loop.Some? then FrameToTick(loop.value.endFrameExclusive, t.frameRate, Exact) else Ok(t.replayEnd);
    var preview := Max(minimum, Min(maximum, target));
    var nearest :- TickToFrame(preview, t.frameRate, NearestTiesToEven);
    var dispatched :- FrameToTick(Max(first, Min(last, nearest)), t.frameRate, Exact);
    Ok((preview, dispatched))
  }

  function Tolerance(t: MediaTimeline): nat {
    FrameTicks(t) + SEEK_SLACK_TICKS
  }

  function FrameTicks(t: MediaTimeline): nat {
    var one := FrameToTick(1, t.frameRate, Exact);
    if one.Ok? then one.value else 1
  }

  // ----- The frame a seek lands on -----

  /** A loop is a nonempty frame range of the recording. */
  predicate LoopFits(t: MediaTimeline, loop: Option<ClipRange>) {
    loop.Some? ==> 0 <= loop.value.startFrame < loop.value.endFrameExclusive <= t.frameCount
  }

  function FirstFrame(loop: Option<ClipRange>): int {
    if loop.Some? then loop.value.startFrame else 0
  }

  function EndFrame(t: MediaTimeline, loop: Option<ClipRange>): int {
    if loop.Some? then loop.value.endFrameExclusive else t.frameCount
  }

  /** No frame of a set of consecutive ones is nearer to the preview. */
  ghost predicate NearestAmong(preview: int, ticks: int, first: int, end: int, frame: int) {
    && first <= frame < end
    && forall other :: first <= other < end ==> Abs(preview - frame * ticks) <= Abs(preview - other * ticks)
  }

  /** On playable media a frame lasts a whole, positive number of ticks, and the frames fill the recording. */
  lemma WholeFrameTicks(t: MediaTimeline)
    requires PlayableTimeline(t)
    ensures var ticks := FrameTicks(t);
            ticks > 0 && Span(t.frameRate) == ticks * t.frameRate.numerator && t.replayEnd == t.frameCount * ticks
  {
    var ticks, m := FrameTicks(t), t.frameRate.numerator;
    CheckedScaleIsCorrect(1, Span(t.frameRate), m, Exact);
    assert t.frameCount * (ticks * m) == (t.frameCount * ticks) * m;
    MulCancel(m, t.frameCount * ticks, t.replayEnd);
    ProductSign(m, ticks);
  }

  lemma BoundaryTick(t: MediaTimeline, frame: int)
    requires PlayableTimeline(t) && 0 <= frame <= t.frameCount
    ensures FrameToTick(frame, t.frameRate, Exact) == Ok(frame * FrameTicks(t)) && 0 <= frame * FrameTicks(t) <= t.replayEnd
  {
    WholeFrameTicks(t);
    var ticks, n, m := FrameTicks(t), Span(t.frameRate), t.frameRate.numerator;
    CheckedScaleIsCorrect(frame, n, m, Exact);
    assert (frame * ticks) * m == frame * n;
    var r := CheckedScale(frame, n, m, Exact);
    assert r.Ok?;
    MulCancel(m, r.value, frame * ticks);
    MulMonotone(0, frame, ticks);
    MulMonotone(frame, t.frameCount, ticks);
  }

  /** The nearest frame of the whole grid to a tick of the recording. */
  lemma NearestOfAll(t: MediaTimeline, preview: int)
    requires PlayableTimeline(t) && 0 <= preview <= t.replayEnd
    ensures var nearest := TickToFrame(preview, t.frameRate, NearestTiesToEven);
            && nearest.Ok?
            && forall other: int :: Abs(preview - nearest.value * FrameTicks(t)) <= Abs(preview - other * FrameTicks(t))
  {
    WholeFrameTicks(t);
    var ticks, n, m := FrameTicks(t), Span(t.frameRate), t.frameRate.numerator;
    CheckedScaleIsCorrect(preview, m, n, NearestTiesToEven);
    var k := CheckedScale(preview, m, n, NearestTiesToEven).value;
    forall other: int ensures Abs(preview - k * ticks) <= Abs(preview - other * ticks) {
      NearestIsNearest(preview * m, n, k, other);
      Scaled(preview, k, ticks, m);
      Scaled(preview, other, ticks, m);
      MulStrict(Abs(preview - k * ticks), Abs(preview - other * ticks), m);
    }
    NearestInRange(preview, k, ticks, t.frameCount);
  }

  lemma Scaled(preview: int, k: int, ticks: int, m: int)
    requires m > 0
    ensures Abs(preview * m - k * (ticks * m)) == Abs(preview - k * ticks) * m
  {
    assert preview * m - k * (ticks * m) == (preview - k * ticks) * m;
    ProductSign(m, preview - k * ticks);
    assert (-(preview - k * ticks)) * m == -((preview - k * ticks) * m);
  }

  /** The nearest grid frame of a tick inside the recording lies inside it. */
  lemma NearestInRange(preview: int, k: int, ticks: int, count: int)
    requires ticks > 0 && 0 <= preview <= count * ticks
    requires forall other: int :: Abs(preview - k * ticks) <= Abs(preview - other * ticks)
    ensures 0 <= k <= count
  {
    assert Abs(preview - k * ticks) <= Abs(preview - 0 * ticks);
    assert Abs(preview - k * ticks) <= Abs(preview - count * ticks);
    MulStrict(k, 0, ticks);
    MulStrict(count, k, ticks);
  }

  /** Clamping the nearest of all frames to an interval gives the nearest of the interval. */
  lemma ClampedIsNearest(preview: int, k: int, ticks: int, first: int, end: int)
    requires ticks > 0 && first < end
    requires forall other: int :: Abs(preview - k * ticks) <= Abs(preview - other * ticks)
    ensures NearestAmong(preview, ticks, first, end, Max(first, Min(end - 1, k)))
  {
    var frame := Max(first, Min(end - 1, k));
    forall other | first <= other < end ensures Abs(preview - frame * ticks) <= Abs(preview - other * ticks) {
      assert Abs(preview - k * ticks) <= Abs(preview - frame * ticks);
      assert Abs(preview - k * ticks) <= Abs(preview - other * ticks);
      if frame < k {
        MulStrict(frame, k, ticks);
        MulMonotone(other, frame, ticks);
      } else if k < frame {
        MulStrict(k, frame, ticks);
        MulMonotone(frame, other, ticks);
      }
    }
  }

  /**
   * On playable media every seek has somewhere to go: its target clamped to the loop or the recording, and the start of a
   * playable frame, none of which is nearer.
   */
  lemma SeekLandsOnTheNearestPlayableFrame(t: MediaTimeline, loop: Option<ClipRange>, target: int)
    requires PlayableTimeline(t) && LoopFits(t, loop)
    ensures var snapped, ticks, first, end := Snap(t, loop, target), FrameTicks(t), FirstFrame(loop), EndFrame(t, loop);
            && snapped.Ok?
            && snapped.value.0 == Max(first * ticks, Min(end * ticks, target))
            && exists frame :: NearestAmong(snapped.value.0, ticks, first, end, frame) && snapped.value.1 == frame * ticks
  {
    var ticks, first, end := FrameTicks(t), FirstFrame(loop), EndFrame(t, loop);
    WholeFrameTicks(t);
    BoundaryTick(t, first);
    BoundaryTick(t, end);
    MulMonotone(first, end, ticks);
    var preview := Max(first * ticks, Min(end * ticks, target));
    NearestOfAll(t, preview);
    var nearest := TickToFrame(preview, t.frameRate, NearestTiesToEven).value;
    var frame := Max(first, Min(end - 1, nearest));
    ClampedIsNearest(preview, nearest, ticks, first, end);
    BoundaryTick(t, frame);
    hide FrameToTick, TickToFrame, FrameTicks;
    assert Snap(t, loop, target) == Ok((preview, frame * ticks));
  }

  // ----- Which media can be played at all -----

  /**
   * Validation accepts media that cannot be played: tolerance() converts one frame exactly, so it throws unless a frame
   * lasts a whole number of ticks. That is the exact condition, since one frame is never longer than the recording.
   */
  lemma PlayableIffFramesAreWholeTicks(t: MediaTimeline)
    requires ValidTimeline(t)
    ensures PlayableTimeline(t) <==> Span(t.frameRate) % t.frameRate.numerator == 0
  {
    var n, m := Span(t.frameRate), t.frameRate.numerator;
    CheckedScaleIsCorrect(1, n, m, Exact);
    DivMod(n, m);
    var q := n / m;
    if n % m == 0 {
      assert q * m == 1 * n;
      var r := CheckedScale(1, n, m, Exact);
      assert r.Ok?;
      MulCancel(m, r.value, q);
      assert t.frameCount * (m * q) == (t.frameCount * q) * m;
      MulCancel(m, t.frameCount * q, t.replayEnd);
      MulMonotone(1, t.frameCount, m * q);
      OneFrameFits(t.frameCount, q, t.replayEnd);
    } else {
      NoExactQuotient(n, m);
    }
  }

  lemma OneFrameFits(count: int, q: int, end: int)
    requires count >= 1 && count * q == end && 0 <= end
    ensures 0 <= q <= end
  {
    assert count * (-q) == -(count * q);
    if q < 0 {
      MulMonotone(1, count, -q);
    } else if q > 0 {
      MulMonotone(1, count, q);
    }
  }

  /** Where a boundary of the timeline or a seek target cannot be converted, the media cannot be played. */
  lemma FailedConversion(t: MediaTimeline, loop: Option<ClipRange>, target: int)
    requires ValidTimeline(t) && LoopFits(t, loop)
    ensures forall frame :: 0 <= frame <= t.frameCount && FrameToTick(frame, t.frameRate, Exact).Err? ==> !PlayableTimeline(t)
    ensures Snap(t, loop, target).Err? ==> !PlayableTimeline(t)
  {
    if PlayableTimeline(t) {
      SeekLandsOnTheNearestPlayableFrame(t, loop, target);
      forall frame | 0 <= frame <= t.frameCount ensures FrameToTick(frame, t.frameRate, Exact).Ok? {
        BoundaryTick(t, frame);
      }
    }
  }

  /** Every validated timeline, playable or not, has a seek target: its first frame. */
  lemma StartCanBeSought(t: MediaTimeline)
    requires ValidTimeline(t)
    ensures Snap(t, None, 0) == Ok((0, 0))
  {
    ExactZero(t.frameRate.numerator, Span(t.frameRate), NearestTiesToEven);
    ExactZero(Span(t.frameRate), t.frameRate.numerator, Exact);
  }

  lemma ExactZero(n: int, d: int, mode: RoundingMode)
    requires n > 0 && d > 0
    ensures CheckedScale(0, n, d, mode) == Ok(0)
  {
  }

  /** One second of seven frames, as it comes off the wire. */
  const SEVEN_FRAMES: TimelineWire := TimelineWire("media", 1, 1, 7, 1, 7, 1, true, 7, 7, TICKS_PER_SECOND, 0, 1)

  /** Validation accepts it, and no seek has a tolerance on it. */
  lemma SevenFramesASecondCannotBePlayed()
    ensures var r := ValidateMediaTimeline(SEVEN_FRAMES); r.Ok? && ValidTimeline(r.value) && !PlayableTimeline(r.value)
  {
    CheckedScaleIsCorrect(7, TICKS_PER_SECOND, 7, Exact);
    CheckedScaleIsCorrect(1, TICKS_PER_SECOND, 1, Exact);
    PlayableIffFramesAreWholeTicks(ValidateMediaTimeline(SEVEN_FRAMES).value);
  }
}
