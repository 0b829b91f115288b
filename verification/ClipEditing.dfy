/** Default clips, endpoint edits and index lookup on the frame grid (app/src/viewerUtils.ts). */
module ClipEditing {
  import opened Nonlinear
  import opened ReplayTime
  import opened Wrappers

  const MINIMUM_CLIP_TICKS: int := 5 * TICKS_PER_SECOND

  // ----- Index lookup -----

  ghost predicate Sorted(entries: seq<int>) {
    forall i, j :: 0 <= i < j < |entries| ==> entries[i] <= entries[j]
  }

  /** Even on unsorted input the result sits on a crossing; on sorted input it is the last entry at or before the tick. */
  method LatestIndexAt(entries: seq<int>, tick: int) returns (index: int)
    ensures -1 <= index < |entries|
    ensures index >= 0 ==> entries[index] <= tick
    ensures index + 1 < |entries| ==> entries[index + 1] > tick
    ensures Sorted(entries) ==> forall i :: 0 <= i < |entries| ==> (i <= index <==> entries[i] <= tick)
  {
    var low, high := 0, |entries|;
    while low < high
      invariant 0 <= low <= high <= |entries|
      invariant low > 0 ==> entries[low - 1] <= tick
      invariant high < |entries| ==> entries[high] > tick
    {
      var middle := (low + high) / 2;
      if entries[middle] <= tick {
        low := middle + 1;
      } else {
        high := middle;
      }
    }
    index := low - 1;
  }

  method NearestIndexAt(entries: seq<int>, tick: int) returns (index: int)
    ensures entries == [] <==> index == -1
    ensures entries != [] ==> 0 <= index < |entries|
    ensures entries != [] && Sorted(entries) ==>
              forall i :: 0 <= i < |entries| ==>
                && Abs(tick - entries[index]) <= Abs(tick - entries[i])
                && (i < index && entries[i] < entries[index] ==> Abs(tick - entries[index]) < Abs(tick - entries[i]))
  {
    if |entries| == 0 {
      return -1;
    }
    var latest := LatestIndexAt(entries, tick);
    var after := latest + 1;
    if after <= 0 {
      return 0;
    }
    if after >= |entries| {
      return |entries| - 1;
    }
    index := if tick - entries[after - 1] <= entries[after] - tick then after - 1 else after;
  }

  // ----- Ranges that meet the minimum duration -----

  function Clamp(value: int, minimum: int, maximum: int): int {
    Min(maximum, Max(minimum, value))
  }

  function MinimumClipFrames(timeline: MediaTimeline): Result<int, TimeError> {
    TickToFrame(MINIMUM_CLIP_TICKS, timeline.frameRate, Ceil)
  }

  function AlignClipRangeToFrames(range: ClipRange, timeline: MediaTimeline): Result<ClipRange, TimeError> {
    var checked :- CreateClipRange(timeline, range.startFrame, range.endFrameExclusive, range.mediaId);
    var minimum :- MinimumClipFrames(timeline);
    if checked.endFrameExclusive - checked.startFrame < minimum then Err(MinimumClipDuration) else Ok(checked)
  }

  /** In bounds, of the right medium, and lasting at least five seconds; stated in ticks, not in frames. */
  ghost predicate GoodClip(range: ClipRange, t: MediaTimeline) {
    && range.mediaId == t.mediaId
    && 0 <= range.startFrame < range.endFrameExclusive <= t.frameCount
    && BoundaryAtOrAfter(t, range.endFrameExclusive - range.startFrame, MINIMUM_CLIP_TICKS)
  }

  lemma MinimumClipFramesIsFiveSeconds(t: MediaTimeline)
    requires ValidTimeline(t) && t.replayEnd >= MINIMUM_CLIP_TICKS
    ensures var m := MinimumClipFrames(t);
            && m.Ok? && 0 < m.value <= t.frameCount
            && forall n :: BoundaryAtOrAfter(t, n, MINIMUM_CLIP_TICKS) <==> n >= m.value
  {
    FrameBoundsInTimeline(t, MINIMUM_CLIP_TICKS);
    var m := MinimumClipFrames(t).value;
    forall n | n >= m ensures BoundaryAtOrAfter(t, n, MINIMUM_CLIP_TICKS) {
      MulMonotone(m, n, Span(t.frameRate));
    }
  }

  // ----- The default clip -----

  datatype ClipEvent = ClipEvent(eventType: string, killer: Option<string>, assisters: nat,
                                 killStreak: Option<int>, replayTick: Option<int>)

  predicate CountsTowardMultikill(event: ClipEvent, anchorEvent: ClipEvent) {
    && event.eventType == "Multikill"
    && event.killer == anchorEvent.killer
    && event.replayTick.Some?
    && anchorEvent.replayTick.Some?
    && Abs(event.replayTick.value - anchorEvent.replayTick.value) <= MINIMUM_CLIP_TICKS
  }

  function LargestMultikill(events: seq<ClipEvent>, anchorEvent: ClipEvent): (largest: int)
    ensures largest >= 0
  {
    if events == [] then 0
    else
      var largest := LargestMultikill(events[..|events| - 1], anchorEvent);
      var event := events[|events| - 1];
      if CountsTowardMultikill(event, anchorEvent) && event.killStreak.Some?
      then Max(largest, event.killStreak.value) else largest
  }

  datatype Roll = Roll(pre: int, post: int)

  function ClipRoll(events: seq<ClipEvent>, anchorEvent: Option<ClipEvent>): (roll: Roll)
    ensures roll.pre >= 8 * TICKS_PER_SECOND && roll.post >= MINIMUM_CLIP_TICKS
  {
    if anchorEvent.Some? && anchorEvent.value.eventType in {"ChampionKill", "FirstBlood"} then
      var multikill := LargestMultikill(events, anchorEvent.value);
      if multikill >= 5 then Roll(25 * TICKS_PER_SECOND, 15 * TICKS_PER_SECOND)
      else if multikill >= 2 then Roll(20 * TICKS_PER_SECOND, 10 * TICKS_PER_SECOND)
      else if anchorEvent.value.assisters > 0 then Roll(15 * TICKS_PER_SECOND, 8 * TICKS_PER_SECOND)
      else Roll(8 * TICKS_PER_SECOND, 5 * TICKS_PER_SECOND)
    else Roll(8 * TICKS_PER_SECOND, 5 * TICKS_PER_SECOND)
  }

  function BoundedClipRange(anchor: int, roll: Roll, timeline: MediaTimeline): Result<ClipRange, TimeError> {
    var start := Clamp(anchor - roll.pre, 0, timeline.replayEnd);
    var end := Clamp(anchor + roll.post, 0, timeline.replayEnd);
    var short := end - start < MINIMUM_CLIP_TICKS;
    var start' := if short && end >= MINIMUM_CLIP_TICKS then end - MINIMUM_CLIP_TICKS else start;
    var end' := if short && end < MINIMUM_CLIP_TICKS then Min(timeline.replayEnd, start + MINIMUM_CLIP_TICKS) else end;
    var range :- ProjectIntervalToClipRange(timeline, start', end');
    AlignClipRangeToFrames(range, timeline)
  }

  function DefaultClipRange(anchor: int, timeline: MediaTimeline, events: seq<ClipEvent>, anchorEvent: Option<ClipEvent>)
    : Result<ClipRange, TimeError>
  {
    BoundedClipRange(anchor, ClipRoll(events, anchorEvent), timeline)
  }

  lemma ProjectedFiveSecondsIsGood(t: MediaTimeline, start: int, end: int)
    requires ValidTimeline(t) && 0 <= start && end <= t.replayEnd && start + MINIMUM_CLIP_TICKS <= end
    ensures var r := ProjectIntervalToClipRange(t, start, end);
            r.Ok? && GoodClip(r.value, t) && AlignClipRangeToFrames(r.value, t) == Ok(r.value)
  {
    ProjectionIsSmallestCover(t, start, end);
    MinimumClipFramesIsFiveSeconds(t);
    var r := ProjectIntervalToClipRange(t, start, end).value;
    var n, m := Span(t.frameRate), t.frameRate.numerator;
    Difference(r.endFrameExclusive, r.startFrame, n);
    Difference(end, start, m);
    MulMonotone(MINIMUM_CLIP_TICKS, end - start, m);
  }

  lemma Difference(a: int, b: int, n: int)
    ensures (a - b) * n == a * n - b * n
  {}

  /** The default clip succeeds for every anchor and every event list exactly on media of five seconds or more. */
  lemma DefaultClipSucceedsIffFiveSeconds(anchor: int, t: MediaTimeline, events: seq<ClipEvent>, anchorEvent: Option<ClipEvent>)
    requires ValidTimeline(t)
    ensures DefaultClipRange(anchor, t, events, anchorEvent).Ok? <==> t.replayEnd >= MINIMUM_CLIP_TICKS
    ensures DefaultClipRange(anchor, t, events, anchorEvent).Ok? ==>
              GoodClip(DefaultClipRange(anchor, t, events, anchorEvent).value, t)
  {
    var roll := ClipRoll(events, anchorEvent);
    var start := Clamp(anchor - roll.pre, 0, t.replayEnd);
    var end := Clamp(anchor + roll.post, 0, t.replayEnd);
    var short := end - start < MINIMUM_CLIP_TICKS;
    var start' := if short && end >= MINIMUM_CLIP_TICKS then end - MINIMUM_CLIP_TICKS else start;
    var end' := if short && end < MINIMUM_CLIP_TICKS then Min(t.replayEnd, start + MINIMUM_CLIP_TICKS) else end;
    if t.replayEnd >= MINIMUM_CLIP_TICKS {
      ProjectedFiveSecondsIsGood(t, start', end');
    } else {
      var projected := ProjectIntervalToClipRange(t, start', end');
      if projected.Ok? {
        ProjectionIsSmallestCover(t, start', end');
        ShortMediaHasNoMinimum(t, projected.value);
      }
    }
  }

  lemma ShortMediaHasNoMinimum(t: MediaTimeline, range: ClipRange)
    requires ValidTimeline(t) && t.replayEnd < MINIMUM_CLIP_TICKS
    requires 0 <= range.startFrame && range.endFrameExclusive <= t.frameCount
    ensures AlignClipRangeToFrames(range, t).Err?
  {
    var n, m := Span(t.frameRate), t.frameRate.numerator;
    CheckedScaleIsCorrect(MINIMUM_CLIP_TICKS, m, n, Ceil);
    MulStrict(t.replayEnd, MINIMUM_CLIP_TICKS, m);
    MulStrict(t.frameCount, CheckedScale(MINIMUM_CLIP_TICKS, m, n, Ceil).value, n);
  }

  /** Around an anchor inside the media, the clip is the tightest frame range holding the clipped pre-roll and post-roll. */
  lemma DefaultClipHoldsTheAnchor(anchor: int, t: MediaTimeline, events: seq<ClipEvent>, anchorEvent: Option<ClipEvent>)
    requires ValidTimeline(t) && t.replayEnd >= MINIMUM_CLIP_TICKS && 0 <= anchor <= t.replayEnd
    ensures var r := DefaultClipRange(anchor, t, events, anchorEvent);
            var roll := ClipRoll(events, anchorEvent);
            var from, to := Max(0, anchor - roll.pre), Min(t.replayEnd, anchor + roll.post);
            && r.Ok?
            && Covers(t, r.value.startFrame, r.value.endFrameExclusive, anchor, anchor)
            && Covers(t, r.value.startFrame, r.value.endFrameExclusive, from, to)
            && forall a, b :: Covers(t, a, b, from, to) ==> a <= r.value.startFrame && r.value.endFrameExclusive <= b
  {
    var roll := ClipRoll(events, anchorEvent);
    var from, to := Max(0, anchor - roll.pre), Min(t.replayEnd, anchor + roll.post);
    assert Clamp(anchor - roll.pre, 0, t.replayEnd) == from && Clamp(anchor + roll.post, 0, t.replayEnd) == to;
    assert to - from >= MINIMUM_CLIP_TICKS;
    ProjectionIsSmallestCover(t, from, to);
    ProjectedFiveSecondsIsGood(t, from, to);
    MulMonotone(from, anchor, t.frameRate.numerator);
    MulMonotone(anchor, to, t.frameRate.numerator);
  }

  // ----- Endpoint edits -----

  datatype Endpoint = Start | End

  function MoveClipEndpoint(range: ClipRange, endpoint: Endpoint, requested: int, timeline: MediaTimeline)
    : Result<ClipRange, TimeError>
  {
    var current :- AlignClipRangeToFrames(range, timeline);
    var minimumFrames :- MinimumClipFrames(timeline);
    var requestedFrame :- TickToFrame(requested, timeline.frameRate, if endpoint.Start? then Floor else Ceil);
    if endpoint.Start? then
      CreateClipRange(timeline, Clamp(requestedFrame, 0, current.endFrameExclusive - minimumFrames),
                      current.endFrameExclusive, current.mediaId)
    else
      CreateClipRange(timeline, current.startFrame,
                      Clamp(requestedFrame, current.startFrame + minimumFrames, timeline.frameCount), current.mediaId)
  }

  lemma GoodClipsAlign(range: ClipRange, t: MediaTimeline)
    requires ValidTimeline(t) && GoodClip(range, t)
    ensures t.replayEnd >= MINIMUM_CLIP_TICKS
    ensures AlignClipRangeToFrames(range, t) == Ok(range)
  {
    var n, m := Span(t.frameRate), t.frameRate.numerator;
    MulMonotone(range.endFrameExclusive - range.startFrame, t.frameCount, n);
    MulStrict(MINIMUM_CLIP_TICKS, t.replayEnd, m);
    MinimumClipFramesIsFiveSeconds(t);
  }

  /**
   * An edit keeps a good clip good and the other endpoint where it was. The moved endpoint is the tightest boundary
   * around the request, except that it stops at the media's edge and five seconds from the other endpoint.
   */
  lemma MoveKeepsTheOtherEndpoint(range: ClipRange, endpoint: Endpoint, requested: int, t: MediaTimeline)
    requires ValidTimeline(t) && GoodClip(range, t)
    ensures var r := MoveClipEndpoint(range, endpoint, requested, t);
            && (0 <= requested <= t.replayEnd ==> r.Ok?)
            && (r.Ok? ==> GoodClip(r.value, t))
            && (r.Ok? && endpoint.Start? ==>
                  && r.value.endFrameExclusive == range.endFrameExclusive
                  && BoundaryAtOrBefore(t, r.value.startFrame, requested)
                  && forall f | BoundaryAtOrBefore(t, f, requested) && GoodClip(range.(startFrame := f), t) ::
                       f <= r.value.startFrame)
            && (r.Ok? && endpoint.End? ==>
                  && r.value.startFrame == range.startFrame
                  && (BoundaryAtOrAfter(t, r.value.endFrameExclusive, requested) || r.value.endFrameExclusive == t.frameCount)
                  && forall f | BoundaryAtOrAfter(t, f, requested) && GoodClip(range.(endFrameExclusive := f), t) ::
                       r.value.endFrameExclusive <= f)
  {
    GoodClipsAlign(range, t);
    MinimumClipFramesIsFiveSeconds(t);
    var n, m := Span(t.frameRate), t.frameRate.numerator;
    var mode := if endpoint.Start? then Floor else Ceil;
    if 0 <= requested <= t.replayEnd {
      FrameBoundsInTimeline(t, requested);
    }
    CheckedScaleIsCorrect(requested, m, n, mode);
    var frame := CheckedScale(requested, m, n, mode).value;
    RequestedFrameIsTight(requested * m, n, mode, frame);
  }

  lemma RequestedFrameIsTight(x: int, n: int, mode: RoundingMode, frame: int)
    requires n > 0 && mode in {Floor, Ceil} && Rounds(x, n, mode, frame)
    ensures mode == Floor ==> forall g: int :: g * n <= x <==> g <= frame
    ensures mode == Ceil ==> forall g: int :: g * n >= x <==> g >= frame
  {
    if mode == Floor {
      forall g: int ensures g * n <= x <==> g <= frame {
        MulStrict(g, frame + 1, n);
        MulStrict(g, frame, n);
      }
    } else {
      forall g: int ensures g * n >= x <==> g >= frame {
        MulStrict(frame - 1, g, n);
        MulStrict(frame, g, n);
      }
    }
  }

  datatype Edit = Edit(endpoint: Endpoint, requested: int)

  /** The editor keeps the current range when a move is rejected. */
  function ApplyEdits(range: ClipRange, edits: seq<Edit>, timeline: MediaTimeline): ClipRange
    decreases |edits|
  {
    if edits == [] then range
    else
      var moved := MoveClipEndpoint(range, edits[0].endpoint, edits[0].requested, timeline);
      ApplyEdits(if moved.Ok? then moved.value else range, edits[1..], timeline)
  }

  /** No sequence of edits leaves the good clips, and one that never touches an endpoint never moves it. */
  lemma {:induction false} EditsKeepGoodClips(range: ClipRange, edits: seq<Edit>, t: MediaTimeline)
    requires ValidTimeline(t) && GoodClip(range, t)
    ensures GoodClip(ApplyEdits(range, edits, t), t)
    ensures (forall e | e in edits :: e.endpoint.Start?) ==>
              ApplyEdits(range, edits, t).endFrameExclusive == range.endFrameExclusive
    ensures (forall e | e in edits :: e.endpoint.End?) ==>
              ApplyEdits(range, edits, t).startFrame == range.startFrame
    decreases |edits|
  {
    if edits != [] {
      MoveKeepsTheOtherEndpoint(range, edits[0].endpoint, edits[0].requested, t);
      var moved := MoveClipEndpoint(range, edits[0].endpoint, edits[0].requested, t);
      EditsKeepGoodClips(if moved.Ok? then moved.value else range, edits[1..], t);
      assert edits[0] in edits && forall e | e in edits[1..] :: e in edits;
    }
  }
}
