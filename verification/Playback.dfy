/**
 * The sole owner of the media element (app/src/playbackController.ts). One call runs from one event-loop turn to the
 * next. The element is an adversary: every observation is arbitrary, and opening, seeking, playing and setting the rate
 * may throw or misreport. Frame callbacks and timers may arrive in any order, late, or more than once.
 */
module Playback {
  import opened ReplayTime
  import opened SeekTargets
  import opened ViewerSeekState
  import opened Wrappers

  datatype Readiness = Closed | Loading | Ready | Recovering | Degraded | Disposed

  datatype SeekStatus = Presented | Deduplicated | Superseded | Unavailable | Failed

  datatype SeekOutcome = SeekOutcome(status: SeekStatus, target: int, presented: Option<int>)

  datatype RateOutcome = Pending | Verified | Limited | Unsupported | Suspended | Unknown

  datatype RateState = RateState(selected: real, applied: real, effective: real, observed: Option<real>,
                                 outcome: RateOutcome, limitation: bool)

  datatype PendingSeek = PendingSeek(id: nat, target: int, preview: int, generation: nat, intent: nat, epoch: nat,
                                     settled: bool)

  datatype FrameCallback = FrameCallback(generation: nat, version: nat, owner: nat, rateOwner: nat, epoch: Option<nat>)

  datatype RateWindow = RateWindow(token: nat, startedAt: real, progressAt: real, lastTick: Option<int>,
                                   firstTick: int, firstAt: Option<real>, samples: nat)

  datatype TimerName = NativeTimer | PresentationTimer | DispatchTimer | ReadinessTimer | PlayTimer | RateTimer | MetricsTimer

  datatype Timer = Timer(handle: nat, generation: nat, owner: nat)

  datatype MediaEvent =
    | LoadStart | LoadedMetadata | LoadedData | CanPlay | Playing | Play | Pause | Seeking | SeekedEvent | Ended
    | ErrorEvent | Waiting | Stalled | TimeUpdate | RateChange | VolumeChange | VisibilityChange

  datatype MediaObservation = MediaObservation(currentSource: bool, readyState: int, failed: bool, tick: Option<int>,
                                               paused: bool, ended: bool, seeking: bool, rate: real, hidden: bool)

  datatype PlayStart = Started | PlayThrew(notAllowed: bool)

  /** The injected media element; nothing about its answers is assumed. */
  class MediaAdapter {
    const hasVideoFrameCallback: bool

    constructor (frames: bool) {
      hasVideoFrameCallback := frames;
    }

    method Read() returns (o: MediaObservation) {
      o := *;
    }

    method Open() returns (threw: bool) {
      threw := *;
    }

    method Seek(tick: int) returns (threw: bool) {
      threw := *;
    }

    method SetRate(rate: real) returns (threw: bool) {
      threw := *;
    }

    method Play() returns (r: PlayStart) {
      r := *;
    }
  }

  // ----- The closure's variables, grouped -----

  /** Load state, desired play state and the open and play promises. */
  datatype Life = Life(readiness: Readiness, timeline: Option<MediaTimeline>, loop: Option<ClipRange>,
                       desiredPlaying: bool, activationRequired: bool, playToken: nat, finishPlay: Option<nat>,
                       finishOpen: bool, loadStarted: bool, metadataReady: bool)

  /** The seek record, the three request slots and what every promise handed out so far resolved to. */
  datatype Seeks = Seeks(state: SeekState, active: Option<PendingSeek>, pending: Option<PendingSeek>,
                         waiter: Option<PendingSeek>, intent: nat, lastDispatchAt: Option<real>, nextRequest: nat,
                         outcomes: map<nat, SeekOutcome>)

  /**
   * The armed callback and every callback ever requested, by handle: the browser may still deliver any of them.
   * Callbacks requested before the fence belong to a cancelled frame version.
   */
  datatype FrameArm = FrameArm(version: nat, handle: Option<nat>, nextHandle: nat, armed: map<nat, FrameCallback>, fence: nat)

  /** The rate in force and its observation; fallbacks and fallback reloads are counted since the last setRate or open. */
  datatype Rates = Rates(rate: RateState, token: nat, lastVerified: Option<real>, fallbackReloaded: bool,
                         limitedWindows: nat, capabilityStartedAt: Option<real>, window: Option<RateWindow>,
                         fallbacks: nat, fallbackReloads: nat)

  /** Reload bookkeeping; log holds the times of all reloads since the last open or manual retry. */
  datatype Recovery = Recovery(target: Option<int>, count: nat, consecutiveFailures: nat, attempts: seq<real>, log: seq<real>)

  datatype Health = Health(healthySince: Option<real>, lastAdvancingAt: real, lastFrameTick: Option<int>, waitingSince: Option<real>)

  datatype Timers = Timers(running: map<TimerName, Timer>, next: nat)

  /** How a turn ends. An exact conversion may throw, and the one inside a dispatch takes the dispatched request with it. */
  datatype Turn = Done | Threw | Lost(id: nat)

  datatype SeekReply = Immediate(status: SeekStatus) | Promised(id: nat) | Thrown(turn: Turn)

  datatype SeekReason = Navigation | ClipLoop | RecoverySeek

  const RATES: set<real> := {0.25, 0.5, 1.0, 2.0, 4.0, 8.0}
  const RELOAD_WINDOW_MS: real := 10_000.0

  // ----- The reload budget -----

  function FilterRecent(attempts: seq<real>, now: real): seq<real> {
    if attempts == [] then []
    else (if now - attempts[0] <= RELOAD_WINDOW_MS then [attempts[0]] else []) + FilterRecent(attempts[1..], now)
  }

  ghost predicate Ascending(times: seq<real>) {
    forall i, j :: 0 <= i < j < |times| ==> times[i] <= times[j]
  }

  /**
   * What the controller remembers against the full log of reloads since the last open or manual retry: the remembered
   * attempts are its most recent entries and everything forgotten is more than ten seconds old.
   */
  ghost predicate ReloadBudget(log: seq<real>, attempts: seq<real>, now: real) {
    && |attempts| <= |log| && |attempts| <= 2
    && attempts == log[|log| - |attempts|..]
    && Ascending(log)
    && (forall i :: 0 <= i < |log| ==> log[i] <= now)
    && (forall i :: 0 <= i < |log| - |attempts| ==> now - log[i] > RELOAD_WINDOW_MS)
    && (forall i {:trigger log[i]} :: 0 <= i && i + 2 < |log| ==> log[i + 2] - log[i] > RELOAD_WINDOW_MS)
  }

  lemma {:induction false} FilterKeepsRecent(attempts: seq<real>, now: real)
    requires forall i :: 0 <= i < |attempts| ==> now - attempts[i] <= RELOAD_WINDOW_MS
    ensures FilterRecent(attempts, now) == attempts
  {
    if attempts != [] {
      FilterKeepsRecent(attempts[1..], now);
    }
  }

  lemma {:induction false} FilterForgetsOldest(attempts: seq<real>, now: real)
    requires Ascending(attempts)
    ensures |FilterRecent(attempts, now)| <= |attempts|
    ensures FilterRecent(attempts, now) == attempts[|attempts| - |FilterRecent(attempts, now)|..]
    ensures forall i :: 0 <= i < |attempts| - |FilterRecent(attempts, now)| ==> now - attempts[i] > RELOAD_WINDOW_MS
  {
    if attempts != [] {
      if now - attempts[0] <= RELOAD_WINDOW_MS {
        forall i | 0 <= i < |attempts| ensures now - attempts[i] <= RELOAD_WINDOW_MS {
          assert i > 0 ==> attempts[0] <= attempts[i];
        }
        FilterKeepsRecent(attempts, now);
      } else {
        FilterForgetsOldest(attempts[1..], now);
        var n := |attempts| - |FilterRecent(attempts, now)|;
        assert FilterRecent(attempts, now) == FilterRecent(attempts[1..], now);
        assert attempts[1..][n - 1..] == attempts[n..];
      }
    }
  }

  lemma BudgetAfterFilter(log: seq<real>, attempts: seq<real>, before: real, now: real)
    requires ReloadBudget(log, attempts, before) && before <= now
    ensures ReloadBudget(log, FilterRecent(attempts, now), now)
  {
    var kept := FilterRecent(attempts, now);
    assert Ascending(attempts);
    FilterForgetsOldest(attempts, now);
    forall i | 0 <= i < |log| - |kept| ensures now - log[i] > RELOAD_WINDOW_MS {
      if i >= |log| - |attempts| {
        assert log[i] == attempts[i - (|log| - |attempts|)];
      }
    }
  }

  lemma BudgetAfterReload(log: seq<real>, attempts: seq<real>, now: real)
    requires ReloadBudget(log, attempts, now) && |attempts| < 2
    ensures ReloadBudget(log + [now], attempts + [now], now)
  {
    var log' := log + [now];
    forall i {:trigger log'[i]} | 0 <= i && i + 2 < |log'| ensures log'[i + 2] - log'[i] > RELOAD_WINDOW_MS {
      if i + 2 < |log| {
        assert log[i + 2] - log[i] > RELOAD_WINDOW_MS;
      }
    }
  }

  /** No closed ten-second interval contains three entries of a log that keeps the budget. */
  lemma AtMostTwoReloadsInTenSeconds(log: seq<real>, attempts: seq<real>, now: real, i: nat, j: nat, k: nat)
    requires ReloadBudget(log, attempts, now) && i < j < k < |log|
    ensures log[k] - log[i] > RELOAD_WINDOW_MS
  {
    assert log[i + 2] - log[i] > RELOAD_WINDOW_MS;
    assert log[i + 2] <= log[k] || i + 2 == k;
  }

  // ----- Invariants -----

  predicate Live(readiness: Readiness) {
    readiness != Closed && readiness != Disposed
  }

  predicate Unsettled(slot: Option<PendingSeek>, id: nat) {
    slot.Some? && slot.value.id == id && !slot.value.settled
  }

  predicate Waiting(s: Seeks, id: nat) {
    Unsettled(s.active, id) || Unsettled(s.pending, id) || Unsettled(s.waiter, id)
  }

  ghost predicate Basics(life: Life) {
    && (life.timeline.Some? ==> ValidTimeline(life.timeline.value) && LoopFits(life.timeline.value, life.loop))
    && (Live(life.readiness) ==> life.timeline.Some?)
    && (life.metadataReady ==> life.readiness == Ready)
  }

  /** Exactly the requests held unsettled in a slot have not been resolved: nothing is lost or resolved twice. */
  ghost predicate Ledger(s: Seeks) {
    && (forall id :: id in s.outcomes ==> id < s.nextRequest)
    && (forall id: nat :: id < s.nextRequest ==> (id in s.outcomes <==> !Waiting(s, id)))
  }

  ghost predicate Dispatched(s: Seeks, request: PendingSeek) {
    && s.state.lastDispatched.Some?
    && s.state.lastDispatched.value.epoch == request.epoch
    && s.state.lastDispatched.value.target == request.target
  }

  ghost predicate Held(s: Seeks, slot: Option<PendingSeek>) {
    slot.Some? ==> slot.value.id < s.nextRequest && slot.value.generation == s.state.generation
  }

  /** Where requests may sit: one unsettled request at most, and a superseded one only in front of its successor. */
  ghost predicate Slots(s: Seeks, readiness: Readiness) {
    && WellFormed(s.state)
    && Held(s, s.active) && Held(s, s.pending) && Held(s, s.waiter)
    && (s.pending.Some? ==>
          !s.pending.value.settled && s.pending.value.intent == s.intent && readiness in {Loading, Ready, Recovering})
    && (s.waiter.Some? ==>
          && s.waiter.value.intent == s.intent && s.active.None? && s.pending.None?
          && Dispatched(s, s.waiter.value) && readiness == Ready)
    && (s.active.Some? ==>
          && Dispatched(s, s.active.value) && readiness == Ready
          && (s.pending.None? ==> s.active.value.intent == s.intent)
          && (s.pending.Some? ==> s.active.value.settled && s.active.value.id != s.pending.value.id))
  }

  ghost predicate Frames(f: FrameArm, intent: nat, generation: nat) {
    && f.fence <= f.nextHandle
    && (forall h :: h in f.armed ==>
          && h < f.nextHandle
          && f.armed[h].version <= f.version
          && (f.armed[h].version == f.version ==>
                h >= f.fence && f.armed[h].owner == intent && f.armed[h].generation == generation))
  }

  ghost predicate Budgets(r: Recovery, rates: Rates, now: real) {
    && ReloadBudget(r.log, r.attempts, now)
    && rates.fallbacks == (if rates.rate.limitation then 1 else 0)
    && rates.fallbackReloads == (if rates.fallbackReloaded then 1 else 0)
    && (rates.fallbackReloaded ==> rates.rate.limitation)
  }

  /**
   * A settled request still in the active slot was presented, or a newer one is queued behind it; the waiter is unsettled.
   */
  ghost predicate Joinable(s: Seeks) {
    && (s.active.Some? && s.active.value.settled ==>
          && s.active.value.id in s.outcomes
          && (s.outcomes[s.active.value.id].status == Presented
              || (s.pending.Some? && s.outcomes[s.active.value.id].status == Superseded)))
    && (s.active.Some? && !s.active.value.settled ==> s.state.dispatched.Some?)
    && (s.waiter.Some? ==> !s.waiter.value.settled && s.state.dispatched.Some?)
  }

  ghost predicate Running(timers: Timers, name: TimerName, owner: nat, generation: nat) {
    && name in timers.running && timers.running[name].owner == owner && timers.running[name].generation == generation
  }

  /** Every request that still waits, except one waiting to be dispatched, has a live timer that will fail it. */
  ghost predicate Guarded(s: Seeks, life: Life, timers: Timers) {
    && (s.active.Some? ==> Running(timers, NativeTimer, s.active.value.id, s.state.generation))
    && (s.waiter.Some? ==> Running(timers, PresentationTimer, s.waiter.value.id, s.state.generation))
    && (life.readiness in {Loading, Recovering} ==> Running(timers, ReadinessTimer, 0, s.state.generation))
    && (life.readiness == Ready ==> life.metadataReady)
    && (NativeTimer in timers.running ==> s.state.lastDispatched.Some?)
  }

  /** No lost wakeup: a request waiting to be dispatched into ready, idle media has its dispatch timer running. */
  ghost predicate Scheduled(s: Seeks, life: Life, timers: Timers) {
    s.pending.Some? && s.active.None? && life.readiness == Ready ==> Running(timers, DispatchTimer, 0, s.state.generation)
  }

  predicate NoSlots(s: Seeks) {
    s.active.None? && s.pending.None? && s.waiter.None?
  }

  ghost predicate Extends<T>(before: map<nat, T>, after: map<nat, T>) {
    forall k :: k in before ==> k in after && after[k] == before[k]
  }

  /** New resolutions are never "presented", old ones stand, and the position is kept or dropped, never moved. */
  ghost predicate QuietSeeks(before: Seeks, after: Seeks) {
    && Extends(before.outcomes, after.outcomes)
    && (forall id :: id in after.outcomes && id !in before.outcomes ==> after.outcomes[id].status != Presented)
    && before.nextRequest <= after.nextRequest
    && (after.state.presented == before.state.presented || after.state.presented == None)
  }

  ghost predicate OnlyFailures(before: Seeks, after: Seeks) {
    && before.nextRequest == after.nextRequest
    && forall id :: id in after.outcomes && id !in before.outcomes ==> after.outcomes[id].status == Failed
  }

  ghost predicate QuietFrames(before: FrameArm, after: FrameArm) {
    && Extends(before.armed, after.armed)
    && before.nextHandle <= after.nextHandle && before.fence <= after.fence
  }

  // ----- The deterministic parts of a step -----

  function SettleOutcome(outcomes: map<nat, SeekOutcome>, slot: Option<PendingSeek>, status: SeekStatus): map<nat, SeekOutcome> {
    if slot.None? || slot.value.settled then outcomes
    else outcomes[slot.value.id := SeekOutcome(status, slot.value.target, None)]
  }

  function MarkSettled(slot: Option<PendingSeek>): Option<PendingSeek> {
    if slot.None? then None else Some(slot.value.(settled := true))
  }

  function CancelSeeks(s: Seeks, status: SeekStatus): Seeks {
    s.(outcomes := SettleOutcome(SettleOutcome(SettleOutcome(s.outcomes, s.active, status), s.pending, status), s.waiter, status),
       active := None, pending := None, waiter := None, lastDispatchAt := None, intent := s.intent + 1)
  }

  function CancelFrames(f: FrameArm): FrameArm {
    f.(version := f.version + 1, handle := None, fence := f.nextHandle)
  }

  function ArmFrame(f: FrameArm, s: Seeks, rateToken: nat): FrameArm {
    var epoch := if s.state.dispatched.Some? then Some(s.state.dispatched.value.epoch) else None;
    f.(armed := f.armed[f.nextHandle := FrameCallback(s.state.generation, f.version, s.intent, rateToken, epoch)],
       handle := Some(f.nextHandle), nextHandle := f.nextHandle + 1)
  }

  function ResetObservation(r: Rates, preserveCapabilityAttempt: bool): Rates {
    r.(window := None, limitedWindows := 0, token := r.token + 1,
       capabilityStartedAt := if preserveCapabilityAttempt then r.capabilityStartedAt else None,
       rate := r.rate.(observed := None, outcome := if r.rate.limitation then r.rate.outcome else Suspended))
  }

  lemma CancelSeeksSettlesAll(s: Seeks, readiness: Readiness, status: SeekStatus)
    requires Ledger(s) && Slots(s, readiness) && status in {Superseded, Failed}
    ensures var after := CancelSeeks(s, status);
            && Ledger(after) && Slots(after, readiness) && NoSlots(after) && QuietSeeks(s, after)
            && (forall id: nat :: id < after.nextRequest <==> id in after.outcomes)
            && (forall id :: id in after.outcomes && id !in s.outcomes ==> after.outcomes[id].status == status)
  {
  }

  lemma ArmFrameMoves(f: FrameArm, s: Seeks, rateToken: nat)
    ensures FrameMoves(f, ArmFrame(f, s, rateToken), s)
  {
  }

  lemma CancelledFrames(f: FrameArm)
    ensures CancelFrames(f).fence == f.nextHandle && CancelFrames(f).nextHandle == f.nextHandle
  {
  }

  lemma CancelFramesMoves(f: FrameArm, s: Seeks)
    ensures FrameMoves(f, CancelFrames(f), s)
  {
  }

  /** After the frames are cancelled no callback is current, whatever happens to intent and generation next. */
  lemma CancelFramesClears(f: FrameArm, intent: nat, generation: nat, intent': nat, generation': nat)
    requires Frames(f, intent, generation)
    ensures Frames(CancelFrames(f), intent', generation')
    ensures QuietFrames(f, CancelFrames(f))
  {
  }

  // ----- The whole state, and what steps keep -----

  datatype State = State(life: Life, seeks: Seeks, frames: FrameArm, rates: Rates, recovery: Recovery, timers: Timers,
                         now: real)

  /** Validated media on which the exact conversion of one frame throws. */
  predicate Unplayable(life: Life) {
    life.timeline.Some? && !PlayableTimeline(life.timeline.value)
  }

  /** Dispatches are made on playable media only, with their timeline's tolerance. */
  ghost predicate Tolerant(s: Seeks, life: Life) {
    && (s.state.lastDispatched.Some? ==>
          && life.timeline.Some? && PlayableTimeline(life.timeline.value)
          && s.state.lastDispatched.value.toleranceTicks == Tolerance(life.timeline.value))
    && (s.lastDispatchAt.Some? ==> s.state.lastDispatched.Some?)
  }

  ghost predicate Core(s: State) {
    && Basics(s.life)
    && Tolerant(s.seeks, s.life)
    && Ledger(s.seeks)
    && Slots(s.seeks, s.life.readiness)
    && Frames(s.frames, s.seeks.intent, s.seeks.state.generation)
    && Budgets(s.recovery, s.rates, s.now)
  }

  ghost predicate Valid(s: State) {
    && Core(s)
    && Joinable(s.seeks)
    && Guarded(s.seeks, s.life, s.timers)
    && Scheduled(s.seeks, s.life, s.timers)
  }

  /** An unresolved request that nothing is left to settle: it is in no slot, or holds the native slot without a timeout. */
  ghost predicate Abandoned(s: State, id: nat) {
    && Unplayable(s.life) && s.life.readiness == Ready
    && id < s.seeks.nextRequest && id !in s.seeks.outcomes
    && s.seeks.pending.None? && s.seeks.waiter.None?
    && (s.seeks.active.None? || (s.seeks.active.value.id == id && NativeTimer !in s.timers.running))
  }

  /** Only on unplayable media does a turn throw, and only a lost request breaks the invariant. */
  ghost predicate TurnEnds(s: State, turn: Turn) {
    match turn
    case Done => Valid(s)
    case Threw => Valid(s) && Unplayable(s.life)
    case Lost(id) => Abandoned(s, id)
  }

  /** A step in which no frame is accepted. */
  ghost predicate Quiet(a: State, b: State) {
    QuietSeeks(a.seeks, b.seeks) && QuietFrames(a.frames, b.frames) && Fenced(a, b) && a.now <= b.now
  }

  /** Generations only grow, and a new one fences off every frame requested before it. */
  predicate Fenced(a: State, b: State) {
    && a.seeks.state.generation <= b.seeks.state.generation
    && (a.seeks.state.generation < b.seeks.state.generation ==> a.frames.nextHandle <= b.frames.fence)
  }

  /** Nothing but the recovery target says where playback stood: it has to survive until the media is ready again. */
  predicate Resumes(s: State) {
    NoSlots(s.seeks) && s.seeks.state.presented.None? && s.recovery.target.Some?
  }

  /** Where a reload has to take playback back to: the wanted position, the shown one, or the one already being restored. */
  function RecoveryPoint(s: State): int {
    var explicit := if s.seeks.pending.Some? then s.seeks.pending
                    else if s.seeks.waiter.Some? then s.seeks.waiter else s.seeks.active;
    if explicit.Some? then explicit.value.preview
    else if s.seeks.state.presented.Some? then s.seeks.state.presented.value
    else if s.recovery.target.Some? then s.recovery.target.value else 0
  }

  /**
   * The requests are untouched, or all of them failed into a reload or into the degraded state; and a new generation is
   * always a logged reload.
   */
  ghost predicate Contained(a: State, b: State) {
    && Quiet(a, b)
    && OnlyFailures(a.seeks, b.seeks)
    && b.life.timeline == a.life.timeline && b.life.loop == a.life.loop
    && b.life.desiredPlaying == a.life.desiredPlaying
    && a.recovery.log <= b.recovery.log
    && b.seeks.state.generation - a.seeks.state.generation == |b.recovery.log| - |a.recovery.log|
    && (a.rates.rate.limitation ==> b.rates.rate.limitation)
    && b.rates.rate.selected == a.rates.rate.selected
    && (b.rates.rate.limitation || b.rates.rate.effective == a.rates.rate.effective)
    && (Resumes(a) ==> b.recovery.target == a.recovery.target)
    && ((b.seeks == a.seeks && b.life.readiness == a.life.readiness && b.life.metadataReady == a.life.metadataReady
         && b.rates.fallbackReloaded == a.rates.fallbackReloaded)
        || (NoSlots(b.seeks) && b.life.readiness in {Recovering, Degraded}))
  }

  lemma QuietReflexive(a: State)
    ensures Quiet(a, a)
  {
  }

  lemma QuietTransitive(a: State, b: State, c: State)
    requires Quiet(a, b) && Quiet(b, c)
    ensures Quiet(a, c)
  {
  }

  lemma ContainedTransitive(a: State, b: State, c: State)
    requires Contained(a, b) && Contained(b, c)
    ensures Contained(a, c)
  {
    QuietTransitive(a, b, c);
  }

  /** b differs from a only in what no invariant watches. */
  ghost predicate Beside(a: State, b: State) {
    && b.seeks == a.seeks
    && b.life.readiness == a.life.readiness && b.life.timeline == a.life.timeline && b.life.loop == a.life.loop
    && b.life.metadataReady == a.life.metadataReady && b.life.desiredPlaying == a.life.desiredPlaying
    && FrameMoves(a.frames, b.frames, a.seeks)
    && b.recovery.attempts == a.recovery.attempts && b.recovery.log == a.recovery.log
    && b.recovery.target == a.recovery.target
    && SameBudget(a.rates, b.rates)
    && a.now <= b.now
    && GuardsKept(a.timers, b.timers)
  }

  /** Observing the rate spends neither the fallback nor its reload, and leaves the speed. */
  predicate SameBudget(a: Rates, b: Rates) {
    && b.rate.selected == a.rate.selected && b.rate.effective == a.rate.effective
    && b.rate.limitation == a.rate.limitation && b.fallbackReloaded == a.fallbackReloaded
    && b.fallbacks == a.fallbacks && b.fallbackReloads == a.fallbackReloads
  }

  ghost predicate FrameMoves(f: FrameArm, f': FrameArm, s: Seeks) {
    Frames(f, s.intent, s.state.generation) ==> Frames(f', s.intent, s.state.generation) && QuietFrames(f, f')
  }

  ghost predicate GuardsKept(a: Timers, b: Timers) {
    && (forall name :: name in a.running && name !in {PlayTimer, RateTimer, MetricsTimer} ==>
          name in b.running && b.running[name] == a.running[name])
    && (NativeTimer in b.running ==> NativeTimer in a.running)
  }

  lemma BesideIsValid(a: State, b: State)
    requires Valid(a) && Beside(a, b)
    ensures Valid(b) && Contained(a, b)
  {
    BudgetLater(a.recovery.log, a.recovery.attempts, a.now, b.now);
  }

  lemma BudgetLater(log: seq<real>, attempts: seq<real>, now: real, later: real)
    requires ReloadBudget(log, attempts, now) && now <= later
    ensures ReloadBudget(log, attempts, later)
  {
  }

  lemma ValidFacts(s: State)
    requires Valid(s)
    ensures Core(s) && (Live(s.life.readiness) ==> s.life.timeline.Some?)
    ensures s.rates.fallbackReloaded ==> s.rates.rate.limitation
    ensures s.life.readiness == Ready <==> s.life.metadataReady
  {
  }

  lemma LoopFacts(s: State)
    requires Valid(s) && s.life.timeline.Some?
    ensures ValidTimeline(s.life.timeline.value) && LoopFits(s.life.timeline.value, s.life.loop)
  {
  }

  lemma AlmostFromValid(s: State)
    requires Valid(s)
    ensures AlmostValid(s)
  {
  }

  lemma UnplayableFacts(s: State)
    requires AlmostValid(s) && Unplayable(s.life)
    ensures s.seeks.active.None? && s.seeks.waiter.None? && s.seeks.lastDispatchAt.None? && NativeTimer !in s.timers.running
  {
  }

  /** One frame converts exactly unless the media is unplayable. */
  lemma FrameConversion(s: State)
    requires AlmostValid(s) && s.life.timeline.Some?
    ensures FrameToTick(1, s.life.timeline.value.frameRate, Exact).Err? <==> Unplayable(s.life)
  {
  }

  /** Boundaries of the loop convert exactly unless the media is unplayable. */
  lemma LoopBoundaries(s: State)
    requires Valid(s) && s.life.timeline.Some?
    ensures StretchEnd(s.life.timeline.value, s.life.loop).Err? ==> Unplayable(s.life)
    ensures s.life.loop.Some? && FrameToTick(s.life.loop.value.startFrame, s.life.timeline.value.frameRate, Exact).Err? ==>
              Unplayable(s.life)
  {
    FailedConversion(s.life.timeline.value, s.life.loop, 0);
  }

  lemma ContainedReflexive(a: State)
    ensures Contained(a, a)
  {
  }

  lemma ContainedLive(a: State, b: State)
    requires Contained(a, b)
    ensures Live(a.life.readiness) ==> Live(b.life.readiness)
    ensures Quiet(a, b)
  {
  }

  lemma ContainedSlots(a: State, b: State)
    requires Contained(a, b) && NoSlots(a.seeks)
    ensures NoSlots(b.seeks) && (b.life.readiness == a.life.readiness || b.life.readiness in {Recovering, Degraded})
  {
  }

  lemma ContainedSelection(a: State, b: State)
    requires Contained(a, b)
    ensures b.rates.rate.selected == a.rates.rate.selected
    ensures b.rates.rate.limitation || b.rates.rate.effective == a.rates.rate.effective
    ensures a.recovery.log <= b.recovery.log
    ensures Resumes(a) ==> b.recovery.target == a.recovery.target
    ensures b.life.loop == a.life.loop && b.life.timeline == a.life.timeline
  {
  }

  lemma ContainedLimitation(a: State, b: State)
    requires Contained(a, b) && a.rates.rate.limitation
    ensures b.rates.rate.limitation
  {
  }

  /** The end of the playable stretch: of the loop, or of the timeline. */
  function StretchEnd(t: MediaTimeline, loop: Option<ClipRange>): Result<int, TimeError> {
    if loop.None? then Ok(t.replayEnd) else FrameToTick(loop.value.endFrameExclusive, t.frameRate, Exact)
  }

  function RateVerified(advancement: int, elapsed: real, effective: real, frameTicks: int): bool {
    var expected := elapsed / 1000.0 * TICKS_PER_SECOND as real * effective;
    var slack := if expected * 0.1 < 2.0 * frameTicks as real then 2.0 * frameTicks as real else expected * 0.1;
    advancement > 0 && -slack <= advancement as real - expected <= slack
  }

  /** The window after one more presented frame; samples count only after two seconds. */
  function WindowWithFrame(window: RateWindow, tick: int, at: real): RateWindow {
    var advanced := window.lastTick.None? || tick > window.lastTick.value;
    var seen := window.(progressAt := if advanced then at else window.progressAt, lastTick := Some(tick));
    if at - window.startedAt < 2_000.0 then seen
    else if seen.firstAt.None? then seen.(firstTick := tick, firstAt := Some(at), samples := seen.samples + 1)
    else seen.(samples := seen.samples + 1)
  }

  /** A full window either verifies the rate in force or counts against it. */
  function Judged(r: Rates, window: RateWindow, tick: int, at: real, frameTicks: int): Rates
    requires window.firstAt.Some? && at - window.firstAt.value >= 3_000.0
  {
    var elapsed := at - window.firstAt.value;
    var advancement := tick - window.firstTick;
    var verified := RateVerified(advancement, elapsed, r.rate.effective, frameTicks);
    var outcome := if r.rate.limitation then r.rate.outcome else if verified then Verified else Pending;
    var rate := r.rate.(observed := Some(ObservedRate(advancement, elapsed)), outcome := outcome);
    if verified then
      r.(window := Some(window), rate := rate, lastVerified := Some(r.rate.effective), limitedWindows := 0,
         capabilityStartedAt := None)
    else r.(window := Some(window), rate := rate, limitedWindows := r.limitedWindows + 1)
  }

  function ObservedRate(advancement: int, elapsed: real): real
    requires elapsed > 0.0
  {
    advancement as real / TICKS_PER_SECOND as real / (elapsed / 1000.0)
  }

  /** What cancelWork leaves behind. */
  function Cancelled(s: State, status: SeekStatus): State {
    State(s.life.(playToken := s.life.playToken + 1, finishPlay := None, finishOpen := false,
                  loadStarted := false, metadataReady := false),
          CancelSeeks(s.seeks, status), CancelFrames(s.frames), ResetObservation(s.rates, false), s.recovery,
          s.timers.(running := map[]), s.now)
  }

  lemma CancelledKeepsCore(s: State, status: SeekStatus)
    requires Core(s) && status in {Superseded, Failed}
    ensures Core(Cancelled(s, status)) && Quiet(s, Cancelled(s, status)) && NoSlots(Cancelled(s, status).seeks)
    ensures status == Failed ==> OnlyFailures(s.seeks, Cancelled(s, status).seeks)
  {
    CancelSeeksSettlesAll(s.seeks, s.life.readiness, status);
    CancelFramesClears(s.frames, s.seeks.intent, s.seeks.state.generation, s.seeks.intent + 1, s.seeks.state.generation);
  }

  lemma EmptySlots(s: Seeks, state: SeekState, readiness: Readiness)
    requires Ledger(s) && NoSlots(s) && WellFormed(state)
    ensures Ledger(s.(state := state)) && Slots(s.(state := state), readiness)
  {
  }

  lemma CancelledQuietly(s: Seeks, status: SeekStatus, state: SeekState)
    requires Ledger(s) && status in {Superseded, Failed}
    requires state.presented == s.state.presented || state.presented == None
    ensures QuietSeeks(s, CancelSeeks(s, status).(state := state))
    ensures status == Failed ==> OnlyFailures(s, CancelSeeks(s, status).(state := state))
  {
  }

  /** The degraded state: all work failed, no timer left, nothing armed. */
  function DegradedState(s: State): State {
    var c := Cancelled(s, Failed);
    c.(life := c.life.(readiness := Degraded))
  }

  lemma DegradedIsValid(s: State)
    requires Core(s) && s.life.timeline.Some?
    ensures Valid(DegradedState(s)) && Contained(s, DegradedState(s)) && NoSlots(DegradedState(s).seeks)
  {
    hide Ledger, Slots, Frames, ReloadBudget, Quiet, OnlyFailures, CancelSeeks, CancelFrames, WellFormed;
    CancelledKeepsCore(s, Failed);
    CancelledFields(s.seeks, Failed);
    CoreWellFormed(s);
    var c, d := Cancelled(s, Failed), DegradedState(s);
    EmptySlots(c.seeks, c.seeks.state, Degraded);
    QuietIgnoresLife(s, c, d);
  }

  lemma CoreWellFormed(s: State)
    requires Core(s)
    ensures WellFormed(s.seeks.state)
  {
  }

  lemma QuietIgnoresLife(a: State, b: State, c: State)
    requires Quiet(a, b) && c.seeks == b.seeks && c.frames == b.frames && c.now == b.now
    ensures Quiet(a, c)
  {
  }

  /** A reload begun at the current time, within the budget: a new media generation with no request left. */
  function Reloading(s: State, target: int): State {
    var c := Cancelled(s, Failed);
    c.(life := c.life.(readiness := Recovering),
       seeks := c.seeks.(state := BeginRecovery(c.seeks.state)),
       recovery := Recovery(Some(target), s.recovery.count + 1, s.recovery.consecutiveFailures + 1,
                            s.recovery.attempts + [s.now], s.recovery.log + [s.now]))
  }

  lemma ReloadingKeepsCore(s: State, target: int)
    requires Core(s) && s.life.timeline.Some? && |s.recovery.attempts| < 2 && target == RecoveryPoint(s)
    ensures Core(Reloading(s, target)) && Contained(s, Reloading(s, target)) && NoSlots(Reloading(s, target).seeks)
  {
    hide Ledger, Slots, Frames, ReloadBudget, QuietSeeks, QuietFrames, OnlyFailures, CancelSeeks, CancelFrames, WellFormed;
    CancelledKeepsCore(s, Failed);
    BudgetAfterReload(s.recovery.log, s.recovery.attempts, s.now);
    CancelFramesClears(s.frames, s.seeks.intent, s.seeks.state.generation, s.seeks.intent + 1, s.seeks.state.generation + 1);
    CancelledQuietly(s.seeks, Failed, BeginRecovery(s.seeks.state));
    CancelledFields(s.seeks, Failed);
    CancelledFrames(s.frames);
    RecoveryWellFormed(s.seeks.state);
    EmptySlots(CancelSeeks(s.seeks, Failed), BeginRecovery(s.seeks.state), Recovering);
  }

  /** Forgetting old attempts does not move the recovery point. */
  lemma SameRecoveryPoint(s: State)
    ensures forall attempts, now ::
              RecoveryPoint(s.(recovery := s.recovery.(attempts := attempts), now := now)) == RecoveryPoint(s)
  {
  }

  lemma ReloadingIsRecovering(s: State, target: int)
    ensures var b := Reloading(s, target);
            && b.life.readiness == Recovering && b.life.timeline == s.life.timeline
            && b.rates.rate.limitation == s.rates.rate.limitation && b.rates.fallbackReloaded == s.rates.fallbackReloaded
            && b.recovery.attempts == s.recovery.attempts + [s.now]
            && b.recovery.consecutiveFailures == s.recovery.consecutiveFailures + 1
            && b.timers.running == map[]
  {
  }

  lemma ReloadingResumes(s: State, target: int)
    ensures var b := Reloading(s, target);
            Resumes(b) && b.recovery.target == Some(target) && |b.recovery.log| == |s.recovery.log| + 1
  {
  }

  lemma CancelledFields(s: Seeks, status: SeekStatus)
    ensures var c := CancelSeeks(s, status);
            NoSlots(c) && c.state == s.state && c.intent == s.intent + 1 && c.nextRequest == s.nextRequest && c.lastDispatchAt.None?
  {
  }

  lemma RecoveryWellFormed(state: SeekState)
    ensures WellFormed(BeginRecovery(state))
  {
  }

  lemma ForgettingKeepsCore(s: State, now: real)
    requires Core(s) && s.now <= now
    ensures var s' := s.(recovery := s.recovery.(attempts := FilterRecent(s.recovery.attempts, now)), now := now);
            Core(s') && Contained(s, s')
  {
    BudgetAfterFilter(s.recovery.log, s.recovery.attempts, s.now, now);
  }

  /** Scheduling the readiness timeout makes a loading state valid. */
  lemma LoadingIsValid(a: State, b: State)
    requires Core(a) && NoSlots(a.seeks) && a.life.readiness in {Loading, Recovering}
    requires b == a.(timers := b.timers) && Running(b.timers, ReadinessTimer, 0, a.seeks.state.generation)
    requires NativeTimer !in b.timers.running
    ensures Valid(b) && Contained(a, b)
  {
  }

  /** The one fallback of a capability attempt. */
  function FallenBack(s: State, fallback: real, outcome: RateOutcome): State {
    var reset := ResetObservation(s.rates, false);
    s.(rates := reset.(rate := reset.rate.(effective := fallback, outcome := outcome, limitation := true),
                       fallbacks := reset.fallbacks + 1),
       timers := s.timers.(running := s.timers.running - {RateTimer}))
  }

  lemma FallenBackIsValid(s: State, fallback: real, outcome: RateOutcome)
    requires Valid(s) && !s.rates.rate.limitation
    ensures Valid(FallenBack(s, fallback, outcome)) && Contained(s, FallenBack(s, fallback, outcome))
  {
  }

  /** The one fallback reload of a capability attempt. */
  function ReloadSpent(s: State): State {
    s.(rates := s.rates.(fallbackReloaded := true, fallbackReloads := s.rates.fallbackReloads + 1))
  }

  lemma ReloadSpentKeepsCore(s: State)
    requires Valid(s) && s.rates.rate.limitation && !s.rates.fallbackReloaded
    ensures Core(ReloadSpent(s))
  {
  }

  lemma SpentThenReloaded(a: State, c: State)
    requires Contained(ReloadSpent(a), c) && NoSlots(c.seeks) && c.life.readiness in {Recovering, Degraded}
    ensures Contained(a, c)
  {
  }

  // ----- Seeks -----

  /** Valid but for the dispatch timer: the state in which dispatchPending is called. */
  ghost predicate AlmostValid(s: State) {
    Core(s) && Joinable(s.seeks) && Guarded(s.seeks, s.life, s.timers)
  }

  /** The pending request is settled as already shown. */
  function Deduped(s: Seeks): Seeks
    requires s.pending.Some?
  {
    s.(pending := None, state := s.state.(dispatched := None),
       outcomes := SettleOutcome(s.outcomes, s.pending, Deduplicated))
  }

  /** The pending request becomes the one native seek, under a fresh epoch. */
  function NativeDispatch(s: Seeks, toleranceTicks: nat, now: real): Seeks
    requires s.pending.Some?
  {
    var request := s.pending.value;
    s.(pending := None, active := Some(request.(epoch := s.state.nextEpoch + 1)), lastDispatchAt := Some(now),
       state := RequestPreview(DispatchSeek(s.state, request.target, toleranceTicks).value, request.preview))
  }

  /** What became of the requests: p moved on, was found already shown, or failed with everything else. */
  ghost predicate Advanced(a: State, b: State) {
    && Quiet(a, b)
    && b.life.timeline == a.life.timeline && b.life.loop == a.life.loop
    && b.life.desiredPlaying == a.life.desiredPlaying
    && a.recovery.log <= b.recovery.log
    && a.seeks.nextRequest == b.seeks.nextRequest
    && (Live(a.life.readiness) ==> Live(b.life.readiness))
    && (forall id :: id in b.seeks.outcomes && id !in a.seeks.outcomes ==>
          || b.seeks.outcomes[id].status == Failed
          || (b.seeks.outcomes[id].status == Deduplicated && a.seeks.pending.Some? && id == a.seeks.pending.value.id))
    && (a.seeks.pending.Some? ==>
          || b.seeks.pending == a.seeks.pending
          || (b.seeks.pending.None? && b.seeks.active.Some?
              && b.seeks.active.value.(epoch := a.seeks.pending.value.epoch) == a.seeks.pending.value)
          || a.seeks.pending.value.id in b.seeks.outcomes)
  }

  lemma StillScheduled(a: State, b: State)
    requires AlmostValid(a) && Beside(a, b) && Scheduled(b.seeks, b.life, b.timers)
    ensures Valid(b) && Advanced(a, b)
  {
    BudgetLater(a.recovery.log, a.recovery.attempts, a.now, b.now);
  }

  lemma DedupedSeeks(s: Seeks, readiness: Readiness)
    requires Ledger(s) && Slots(s, readiness) && s.pending.Some? && s.active.None?
    ensures Ledger(Deduped(s)) && Slots(Deduped(s), readiness) && NoSlots(Deduped(s)) && QuietSeeks(s, Deduped(s))
  {
  }

  lemma DedupedIsValid(a: State, b: State)
    requires AlmostValid(a) && a.seeks.pending.Some? && a.seeks.active.None?
    requires Beside(a, b.(seeks := a.seeks)) && b.seeks == Deduped(a.seeks)
    ensures Valid(b) && Advanced(a, b)
  {
    DedupedSeeks(a.seeks, a.life.readiness);
    BudgetLater(a.recovery.log, a.recovery.attempts, a.now, b.now);
  }

  lemma NativeSeeks(s: Seeks, toleranceTicks: nat, now: real)
    requires Ledger(s) && Slots(s, Ready) && s.pending.Some? && s.active.None?
    ensures var b := NativeDispatch(s, toleranceTicks, now);
            && Ledger(b) && Slots(b, Ready) && Joinable(b) && QuietSeeks(s, b)
            && b.intent == s.intent && b.state.generation == s.state.generation && b.nextRequest == s.nextRequest
  {
  }

  lemma DispatchIsValid(a: State, b: State, toleranceTicks: nat, now: real)
    requires AlmostValid(a) && a.seeks.pending.Some? && a.seeks.active.None? && a.life.readiness == Ready
    requires Beside(a, b.(seeks := a.seeks, timers := a.timers)) && b.seeks == NativeDispatch(a.seeks, toleranceTicks, now)
    requires Running(b.timers, NativeTimer, a.seeks.pending.value.id, a.seeks.state.generation)
    requires a.life.timeline.Some? && toleranceTicks == Tolerance(a.life.timeline.value) && !Unplayable(a.life)
    ensures Valid(b) && Advanced(a, b)
  {
    NativeSeeks(a.seeks, toleranceTicks, now);
    BudgetLater(a.recovery.log, a.recovery.attempts, a.now, b.now);
  }

  /** A dispatch about to be made on unplayable media. */
  predicate Loses(s: State) {
    s.seeks.pending.Some? && s.life.readiness == Ready && Unplayable(s.life)
  }

  /** The request has left its place in the queue, and may have entered the native slot, when the conversion throws. */
  function LostSeeks(s: Seeks, native: bool): Seeks
    requires s.pending.Some?
  {
    s.(pending := None, active := if native then s.pending else None)
  }

  lemma LosingAbandons(a: State, b: State, native: bool)
    requires AlmostValid(a) && Loses(a) && a.now <= b.now
    requires b == a.(seeks := LostSeeks(a.seeks, native), timers := b.timers, now := b.now)
    requires b.timers.running.Keys <= a.timers.running.Keys
    ensures Abandoned(b, a.seeks.pending.value.id) && Quiet(a, b)
  {
    UnplayableFacts(a);
  }

  /** The slots after a request failed, on the way into recovery: it stays in its slot, because it says where to go back to. */
  function ActiveFailed(s: Seeks): Seeks {
    s.(outcomes := SettleOutcome(s.outcomes, s.active, Failed), active := MarkSettled(s.active))
  }

  function WaiterFailed(s: Seeks): Seeks {
    s.(outcomes := SettleOutcome(s.outcomes, s.waiter, Failed), waiter := MarkSettled(s.waiter))
  }

  lemma FailedKeepsCore(s: State)
    requires Valid(s)
    ensures Core(s.(seeks := ActiveFailed(s.seeks))) && Quiet(s, s.(seeks := ActiveFailed(s.seeks)))
    ensures OnlyFailures(s.seeks, ActiveFailed(s.seeks)) && OnlyFailures(s.seeks, WaiterFailed(s.seeks))
    ensures Core(s.(seeks := WaiterFailed(s.seeks))) && Quiet(s, s.(seeks := WaiterFailed(s.seeks)))
  {
  }

  lemma FailedThenReloaded(a: State, b: State, c: State)
    requires Quiet(a, b) && OnlyFailures(a.seeks, b.seeks)
    requires b == a.(seeks := b.seeks, timers := b.timers) && b.seeks.state.generation == a.seeks.state.generation
    requires Contained(b, c) && NoSlots(c.seeks) && c.life.readiness in {Recovering, Degraded}
    requires !NoSlots(a.seeks)
    ensures Contained(a, c)
  {
    QuietTransitive(a, b, c);
  }

  lemma AdvancedThenContained(a: State, b: State, c: State)
    requires Advanced(a, b) && Contained(b, c) && Valid(c)
    requires a.seeks.pending.Some? ==> a.seeks.pending.value.id < a.seeks.nextRequest
    ensures Advanced(a, c)
  {
    QuietTransitive(a, b, c);
    ContainedLive(b, c);
  }

  lemma AlmostFacts(s: State)
    requires AlmostValid(s)
    ensures Live(s.life.readiness) ==> s.life.timeline.Some?
    ensures s.life.readiness == Ready ==> s.life.metadataReady
    ensures s.seeks.pending.Some? ==> s.seeks.pending.value.id < s.seeks.nextRequest
    ensures s.life.timeline.Some? ==> ValidTimeline(s.life.timeline.value)
  {
  }

  /** The dispatch timer may be cleared on the way into a dispatch. */
  lemma DispatchTimerFree(a: State, b: State)
    requires AlmostValid(a) && b == a.(timers := a.timers.(running := a.timers.running - {DispatchTimer}))
    ensures AlmostValid(b)
    ensures forall c :: Advanced(b, c) ==> Advanced(a, c)
  {
  }

  lemma QuietThroughTimers(a: State, b: State, c: State)
    requires b == a.(timers := b.timers) && Quiet(b, c)
    ensures Quiet(a, c)
  {
  }

  lemma AdvancedLive(a: State, b: State)
    requires Advanced(a, b)
    ensures Live(a.life.readiness) ==> Live(b.life.readiness)
    ensures Quiet(a, b)
  {
  }

  lemma FailedFacts(s: State)
    requires Valid(s) && Live(s.life.readiness)
    ensures s.life.timeline.Some?
  {
  }

  /** A repeated seek names the newest request there is: the pending one, or the one in flight. */
  predicate Repeats(s: Seeks, dispatched: int) {
    if s.pending.Some? then s.pending.value.target == dispatched
    else if s.active.Some? then s.active.value.target == dispatched
    else s.waiter.Some? && s.waiter.value.target == dispatched
  }

  function NewestId(s: Seeks): nat
    requires !NoSlots(s)
  {
    if s.pending.Some? then s.pending.value.id else if s.active.Some? then s.active.value.id else s.waiter.value.id
  }

  function Joined(s: Seeks, preview: int): Seeks
    requires !NoSlots(s)
  {
    var state := RequestPreview(s.state, preview);
    if s.pending.Some? then s.(state := state, pending := Some(s.pending.value.(preview := preview)))
    else if s.active.Some? then s.(state := state, active := Some(s.active.value.(preview := preview)))
    else s.(state := state, waiter := Some(s.waiter.value.(preview := preview)))
  }

  lemma JoinedIsValid(a: State, b: State, preview: int)
    requires Valid(a) && !NoSlots(a.seeks) && b == a.(seeks := Joined(a.seeks, preview))
    ensures Valid(b) && Quiet(a, b) && JoinedSeek(a, b, NewestId(a.seeks), preview)
  {
  }

  /** Everything older is superseded; the new request waits behind whatever is still in flight natively. */
  function Requested(s: Seeks, preview: int, target: int): Seeks {
    var request := PendingSeek(s.nextRequest, target, preview, s.state.generation, s.intent + 1, 0, false);
    s.(active := MarkSettled(s.active), waiter := None, pending := Some(request),
       outcomes := SettleOutcome(SettleOutcome(SettleOutcome(s.outcomes, s.active, Superseded), s.waiter, Superseded),
                                 s.pending, Superseded),
       intent := s.intent + 1, nextRequest := s.nextRequest + 1, state := RequestPreview(s.state, preview))
  }

  lemma RequestedSeeks(s: Seeks, readiness: Readiness, preview: int, target: int)
    requires Ledger(s) && Slots(s, readiness) && Joinable(s) && readiness in {Loading, Ready, Recovering}
    ensures var b := Requested(s, preview, target);
            && Ledger(b) && Slots(b, readiness) && Joinable(b) && QuietSeeks(s, b)
            && (forall id: nat :: Waiting(s, id) ==> id in b.outcomes && b.outcomes[id].status == Superseded)
  {
  }

  /** The state after a new request was queued: timers of the old presentation, play and rate are gone. */
  ghost predicate Queued(a: State, b: State, preview: int, target: int) {
    && b.seeks == Requested(a.seeks, preview, target)
    && b.frames == CancelFrames(a.frames)
    && b.life == a.life
    && b.timers.running == a.timers.running - {PresentationTimer, RateTimer}
    && b.rates == ResetObservation(a.rates, false)
    && b.recovery == a.recovery.(target := b.recovery.target)
    && b.now == a.now
  }

  lemma QueuedIsAlmostValid(a: State, b: State, preview: int, target: int)
    requires Valid(a) && a.life.readiness in {Loading, Ready, Recovering} && Queued(a, b, preview, target)
    ensures AlmostValid(b) && Quiet(a, b)
    ensures forall id: nat :: Waiting(a.seeks, id) ==> id in b.seeks.outcomes && b.seeks.outcomes[id].status == Superseded
  {
    RequestedSeeks(a.seeks, a.life.readiness, preview, target);
    CancelFramesClears(a.frames, a.seeks.intent, a.seeks.state.generation, b.seeks.intent, b.seeks.state.generation);
  }

  /** What a caller of a new seek gets: older requests superseded, older frames fenced off, its own request on its way. */
  ghost predicate NewSeek(a: State, b: State, id: nat, preview: int, target: int) {
    && id == a.seeks.nextRequest && b.seeks.nextRequest == id + 1
    && (forall older: nat :: Waiting(a.seeks, older) ==> older in b.seeks.outcomes && b.seeks.outcomes[older].status == Superseded)
    && b.frames.fence >= a.frames.nextHandle
    && (id in b.seeks.outcomes ==> b.seeks.outcomes[id].status in {Deduplicated, Failed})
    && (id !in b.seeks.outcomes ==> !NoSlots(b.seeks) && NewestId(b.seeks) == id && NewestTarget(b.seeks) == (preview, target))
  }

  function NewestTarget(s: Seeks): (int, int)
    requires !NoSlots(s)
  {
    var r := if s.pending.Some? then s.pending.value else if s.active.Some? then s.active.value else s.waiter.value;
    (r.preview, r.target)
  }

  lemma NewSeekDispatched(a: State, b: State, c: State, preview: int, target: int)
    requires Queued(a, b, preview, target) && Quiet(a, b) && Advanced(b, c)
    requires forall id: nat :: Waiting(a.seeks, id) ==> id in b.seeks.outcomes && b.seeks.outcomes[id].status == Superseded
    requires a.seeks.nextRequest !in b.seeks.outcomes
    ensures NewSeek(a, c, a.seeks.nextRequest, preview, target) && Quiet(a, c)
  {
    QuietTransitive(a, b, c);
  }

  lemma FreshRequest(b: State)
    requires AlmostValid(b) && b.seeks.pending.Some?
    ensures b.seeks.pending.value.id !in b.seeks.outcomes
  {
  }

  ghost predicate JoinedSeek(a: State, b: State, id: nat, preview: int) {
    && !NoSlots(a.seeks) && id == NewestId(a.seeks) && b.seeks == Joined(a.seeks, preview) && b.frames == a.frames
    && (Waiting(a.seeks, id) || (id in a.seeks.outcomes && a.seeks.outcomes[id].status == Presented))
  }

  /** Play intent and the play promise are no part of any invariant. */
  ghost predicate OnlyPlayIntent(a: State, b: State) {
    && b == a.(life := b.life, timers := b.timers)
    && b.life == a.life.(playToken := b.life.playToken, finishPlay := b.life.finishPlay, desiredPlaying := b.life.desiredPlaying)
    && GuardsKept(a.timers, b.timers)
  }

  lemma PlayCancelled(a: State, b: State)
    requires Valid(a) && OnlyPlayIntent(a, b)
    ensures Valid(b) && Quiet(a, b)
  {
  }

  ghost predicate JoinedOrNew(a: State, b: State, id: nat, preview: int, target: int) {
    if Repeats(a.seeks, target) then JoinedSeek(a, b, id, preview) else NewSeek(a, b, id, preview, target)
  }

  lemma SeekFails(s: State, target: int)
    requires Valid(s) && s.life.timeline.Some? && Snap(s.life.timeline.value, s.life.loop, target).Err?
    ensures Unplayable(s.life)
  {
    FailedConversion(s.life.timeline.value, s.life.loop, target);
  }

  lemma SamePlayability(a: Life, b: Life)
    requires b.timeline == a.timeline
    ensures Unplayable(a) == Unplayable(b)
  {
  }

  lemma LoadingHoldsPendingOnly(s: State)
    requires Valid(s) && s.life.readiness != Ready
    ensures s.seeks.active.None? && s.seeks.waiter.None?
  {
  }

  lemma JoinedInTheQueue(a: State, b: State, id: nat, preview: int)
    requires JoinedSeek(a, b, id, preview) && a.seeks.active.None? && a.seeks.waiter.None?
    requires b.life.readiness == a.life.readiness && b.life.timeline == a.life.timeline
    ensures Queues(a, b, id)
  {
  }

  lemma IsJoined(a: State, b: State, id: nat, preview: int, target: int)
    requires Repeats(a.seeks, target) && JoinedSeek(a, b, id, preview)
    ensures JoinedOrNew(a, b, id, preview, target)
  {
  }

  lemma IsNew(a: State, b: State, id: nat, preview: int, target: int)
    requires !Repeats(a.seeks, target) && NewSeek(a, b, id, preview, target)
    ensures JoinedOrNew(a, b, id, preview, target)
  {
  }

  lemma RepeatsSomething(s: Seeks, target: int)
    requires Repeats(s, target)
    ensures !NoSlots(s)
  {
  }

  lemma AnsweredAfterCancel(a: State, b: State, c: State, id: nat, preview: int, target: int)
    requires OnlyPlayIntent(a, b) && Quiet(b, c) && JoinedOrNew(b, c, id, preview, target)
    ensures Quiet(a, c) && JoinedOrNew(a, c, id, preview, target)
  {
  }

  ghost predicate SeekAnswered(a: State, b: State, target: int, reason: SeekReason, r: SeekReply) {
    && Quiet(a, b)
    && (Live(a.life.readiness) ==> Live(b.life.readiness))
    && if a.life.timeline.None? || !Live(a.life.readiness) || a.life.readiness == Degraded then
         r == Immediate(Unavailable) && b == a
       else if reason == ClipLoop && !NoSlots(a.seeks) then r == Immediate(Superseded) && b == a
       else
         var snapped := Snap(a.life.timeline.value, a.life.loop, target);
         if snapped.Err? then r == Thrown(Threw) && b == a && Unplayable(a.life)
         else if Throws(a, snapped.value.1) then r == Thrown(Lost(a.seeks.nextRequest))
         else r.Promised? && JoinedOrNew(a, b, r.id, snapped.value.0, snapped.value.1)
              && (a.life.readiness in {Loading, Recovering} ==> Queues(a, b, r.id))
  }

  /** A new seek on ready, unplayable media: its own dispatch throws. */
  predicate Throws(s: State, dispatched: int) {
    Unplayable(s.life) && s.life.readiness == Ready && !Repeats(s.seeks, dispatched)
  }

  /** While the media loads the request waits in the queue. */
  predicate Queues(a: State, b: State, id: nat) {
    && b.seeks.pending.Some? && b.seeks.pending.value.id == id
    && b.life.readiness == a.life.readiness && b.life.timeline == a.life.timeline
  }

  function TurnOf(reply: SeekReply): Turn {
    if reply.Thrown? then reply.turn else Done
  }

  // ----- Native completion -----

  /** The seeked event frees the native slot; the request is still unsettled, settled, or without frames to wait for. */
  function SeekedFree(s: Seeks, observed: int): Seeks
    requires s.active.Some?
  {
    s.(state := ObserveSeeked(s.state, s.active.value.generation, s.active.value.epoch, observed), active := None)
  }

  /** The media stands, not seeking, where the active request sent it. */
  predicate Reached(s: State, o: MediaObservation) {
    && s.seeks.active.Some? && s.life.timeline.Some? && !o.seeking && o.tick.Some?
    && Distance(o.tick.value, s.seeks.active.value.target) <= Tolerance(s.life.timeline.value)
  }

  /** The same state with other requests and without the native timeout. */
  function Landed(a: State, seeks: Seeks): State {
    a.(seeks := seeks, timers := a.timers.(running := a.timers.running - {NativeTimer}))
  }

  /** What a landed seek leads to: the next request, the resumption of a superseded one, or the wait for its frame. */
  ghost predicate SeekedStep(a: State, b: State, tick: Option<int>, frames: bool) {
    && a.seeks.active.Some? && tick.Some?
    && var free := SeekedFree(a.seeks, tick.value);
    if a.seeks.pending.Some? then Advanced(Landed(a, free), b)
    else if a.seeks.active.value.settled then Contained(Landed(a, free), b)
    else if !frames then Contained(Landed(a, SeekedUnavailable(a.seeks, tick.value)), b)
    else
      && b.seeks == free.(waiter := a.seeks.active)
      && Running(b.timers, PresentationTimer, a.seeks.active.value.id, a.seeks.state.generation)
  }

  /** A seeked event does nothing unless the media has arrived. */
  ghost predicate SeekedIfReached(a: State, b: State, observed: MediaObservation, frames: bool) {
    if Reached(a, observed) then SeekedStep(a, b, observed.tick, frames) else b == a
  }

  lemma SeekedToNext(a: State, b: State, observed: int)
    requires Valid(a) && a.seeks.active.Some? && a.seeks.pending.Some?
    requires b == a.(seeks := SeekedFree(a.seeks, observed), timers := a.timers.(running := a.timers.running - {NativeTimer}))
    ensures AlmostValid(b) && Quiet(a, b)
  {
  }

  lemma SeekedSettled(a: State, b: State, observed: int)
    requires Valid(a) && a.seeks.active.Some? && a.seeks.pending.None? && a.seeks.active.value.settled
    requires b == a.(seeks := SeekedFree(a.seeks, observed), timers := a.timers.(running := a.timers.running - {NativeTimer}))
    ensures Valid(b) && Quiet(a, b)
  {
  }

  function SeekedUnavailable(s: Seeks, observed: int): Seeks
    requires s.active.Some?
  {
    var free := SeekedFree(s, observed);
    free.(state := free.state.(dispatched := None), outcomes := SettleOutcome(s.outcomes, s.active, Unavailable))
  }

  lemma SeekedWithoutFrames(a: State, b: State, observed: int)
    requires Valid(a) && a.seeks.active.Some? && !a.seeks.active.value.settled
    requires b == a.(seeks := SeekedUnavailable(a.seeks, observed), timers := a.timers.(running := a.timers.running - {NativeTimer}))
    ensures Valid(b) && Quiet(a, b)
  {
  }

  lemma SeekedWaits(a: State, b: State, observed: int)
    requires Valid(a) && a.seeks.active.Some? && !a.seeks.active.value.settled
    requires b == a.(seeks := SeekedFree(a.seeks, observed).(waiter := a.seeks.active), timers := b.timers)
    requires Running(b.timers, PresentationTimer, a.seeks.active.value.id, a.seeks.state.generation)
    requires a.life.readiness == Ready
    ensures Valid(b) && Quiet(a, b)
  {
  }

  lemma ActiveFacts(s: State)
    requires Valid(s) && s.seeks.active.Some?
    ensures s.life.readiness == Ready && s.life.timeline.Some? && !Unplayable(s.life)
    ensures s.seeks.pending.Some? ==> s.seeks.active.value.settled
  {
  }

  lemma QuietThenContained(a: State, b: State, c: State)
    requires Quiet(a, b) && Contained(b, c)
    ensures Quiet(a, c) && (Live(b.life.readiness) ==> Live(c.life.readiness))
  {
    ContainedLive(b, c);
    QuietTransitive(a, b, c);
  }

  lemma QuietThenAdvanced(a: State, b: State, c: State)
    requires Quiet(a, b) && Advanced(b, c)
    ensures Quiet(a, c) && (Live(b.life.readiness) ==> Live(c.life.readiness))
  {
    AdvancedLive(b, c);
    QuietTransitive(a, b, c);
  }

  // ----- Presentation -----

  predicate Eligible(s: Seeks, callback: FrameCallback) {
    Owner(s).Some? ==> Owner(s).value.intent == callback.owner
  }

  predicate CurrentFrame(cb: FrameCallback, s: Seeks, f: FrameArm) {
    cb.generation == s.state.generation && cb.version == f.version && cb.owner == s.intent
  }

  /** The request a frame would settle. */
  function Owner(s: Seeks): Option<PendingSeek> {
    if s.active.Some? then s.active else s.waiter
  }

  /**
   * The only way in: the callback was requested in the current generation, frame version and intent, so after the last
   * seek, native dispatch, recovery or open; nothing newer is pending; and an outstanding dispatch matches epoch and place.
   */
  ghost predicate Accepts(s: State, h: nat, tick: int) {
    && h in s.frames.armed && h >= s.frames.fence
    && CurrentFrame(s.frames.armed[h], s.seeks, s.frames)
    && s.life.metadataReady && s.seeks.pending.None?
    && (s.seeks.state.dispatched.Some? ==>
          && s.frames.armed[h].epoch == Some(s.seeks.state.dispatched.value.epoch)
          && Qualifying(s.seeks.state.dispatched.value, s.frames.armed[h].generation, tick))
  }

  predicate Shows(s: Seeks, tick: int, toleranceTicks: nat) {
    Owner(s).Some? && !Owner(s).value.settled && Distance(Owner(s).value.target, tick) <= toleranceTicks
  }

  /** The requests after an accepted frame: the position moved, and the request it shows is settled as presented. */
  function PresentedSeeks(s: Seeks, state: SeekState, tick: int, toleranceTicks: nat): Seeks {
    var moved := s.(state := state);
    if !Shows(s, tick, toleranceTicks) then moved
    else
      moved.(outcomes := s.outcomes[Owner(s).value.id := SeekOutcome(Presented, Owner(s).value.target, Some(tick))],
             active := MarkSettled(s.active), waiter := None)
  }

  /** From a to b exactly the accepted tick may have become the position, and only the owning request was presented. */
  ghost predicate FrameStep(a: State, b: State, h: nat, tick: Option<int>) {
    && Extends(a.seeks.outcomes, b.seeks.outcomes)
    && QuietFrames(a.frames, b.frames) && Fenced(a, b) && a.now <= b.now
    && (b.seeks.state.presented.Some? && b.seeks.state.presented != a.seeks.state.presented ==>
          tick.Some? && b.seeks.state.presented == tick && Accepts(a, h, tick.value))
    && (forall id :: id in b.seeks.outcomes && id !in a.seeks.outcomes && b.seeks.outcomes[id].status == Presented ==>
          && tick.Some? && Accepts(a, h, tick.value)
          && Owner(a.seeks).Some? && id == Owner(a.seeks).value.id
          && a.life.timeline.Some? && Shows(a.seeks, tick.value, Tolerance(a.life.timeline.value))
          && b.seeks.outcomes[id] == SeekOutcome(Presented, Owner(a.seeks).value.target, tick))
  }

  lemma FrameThenQuiet(a: State, b: State, c: State, h: nat, tick: Option<int>)
    requires FrameStep(a, b, h, tick) && Quiet(b, c)
    ensures FrameStep(a, c, h, tick)
  {
  }

  lemma HandleTaken(a: State, b: State, c: State, h: nat, tick: Option<int>)
    requires b == a.(frames := a.frames.(handle := None)) && FrameStep(b, c, h, tick)
    ensures FrameStep(a, c, h, tick)
  {
  }

  lemma PresentedFields(s: Seeks, state: SeekState, tick: int, toleranceTicks: nat)
    ensures var b := PresentedSeeks(s, state, tick, toleranceTicks);
            (b.active.None? <==> s.active.None?) && b.state == state
  {
  }

  /** A callback the controller must take, if the media still plays the current source. */
  predicate MustTake(s: State, h: nat, tick: Option<int>) {
    && h in s.frames.armed && CurrentFrame(s.frames.armed[h], s.seeks, s.frames) && Live(s.life.readiness)
    && s.life.metadataReady && tick.Some? && s.seeks.pending.None? && Eligible(s.seeks, s.frames.armed[h])
    && ObservePresentation(s.seeks.state, s.frames.armed[h].generation, s.frames.armed[h].epoch, tick.value, true).Some?
  }

  /** The frame was taken: it is the position, unless a reload forgot it at once, and it presented the seek it shows. */
  ghost predicate Taken(a: State, b: State, tick: Option<int>) {
    && (b.seeks.state.presented == tick || b.seeks.state.presented == None)
    && (a.life.timeline.Some? && tick.Some? && Shows(a.seeks, tick.value, Tolerance(a.life.timeline.value)) ==>
          && Owner(a.seeks).value.id in b.seeks.outcomes
          && b.seeks.outcomes[Owner(a.seeks).value.id] == SeekOutcome(Presented, Owner(a.seeks).value.target, tick))
  }

  ghost predicate TakenIfCurrent(a: State, b: State, h: nat, tick: Option<int>, current: bool) {
    current && MustTake(a, h, tick) ==> Taken(a, b, tick)
  }

  lemma PresentedIsTaken(a: State, state: SeekState, tick: int, b: State, c: State)
    requires a.life.timeline.Some? && state.presented == Some(tick)
    requires b.seeks == PresentedSeeks(a.seeks, state, tick, Tolerance(a.life.timeline.value)) && Quiet(b, c)
    ensures Taken(a, c, Some(tick))
  {
  }

  lemma PresentedPosition(state: SeekState, callback: FrameCallback, tick: int, next: SeekState)
    requires ObservePresentation(state, callback.generation, callback.epoch, tick, true) == Some(next)
    ensures next.presented == Some(tick)
  {
  }

  lemma TakenStands(a: State, armed: State, b: State, tick: Option<int>, c: State)
    requires Taken(armed, b, tick) && Quiet(b, c) && a.seeks == armed.seeks && a.life.timeline == armed.life.timeline
    ensures Taken(a, c, tick)
  {
  }

  lemma QuietIsFrameStep(a: State, b: State, h: nat, tick: Option<int>)
    requires Quiet(a, b)
    ensures FrameStep(a, b, h, tick)
  {
  }

  lemma PresentedKeepsSeeks(s: Seeks, readiness: Readiness, state: SeekState, generation: nat, epoch: Option<nat>,
                            tick: int, toleranceTicks: nat)
    requires Ledger(s) && Slots(s, readiness) && Joinable(s) && s.pending.None?
    requires s.state.lastDispatched.Some? ==> s.state.lastDispatched.value.toleranceTicks == toleranceTicks
    requires ObservePresentation(s.state, generation, epoch, tick, true) == Some(state)
    ensures var b := PresentedSeeks(s, state, tick, toleranceTicks);
            && Ledger(b) && Slots(b, readiness) && Joinable(b)
            && b.intent == s.intent && b.state.generation == s.state.generation && b.pending.None?
            && b.state.presented == Some(tick) && b.state.lastDispatched == s.state.lastDispatched
  {
  }

  lemma PresentedIsValid(a: State, b: State, state: SeekState, h: nat, tick: int, toleranceTicks: nat)
    requires Valid(a) && h in a.frames.armed && CurrentFrame(a.frames.armed[h], a.seeks, a.frames)
    requires a.seeks.pending.None? && a.life.metadataReady
    requires a.life.timeline.Some? && toleranceTicks == Tolerance(a.life.timeline.value)
    requires ObservePresentation(a.seeks.state, a.frames.armed[h].generation, a.frames.armed[h].epoch, tick, true) == Some(state)
    requires b == a.(seeks := PresentedSeeks(a.seeks, state, tick, toleranceTicks), timers := b.timers)
    requires b.timers.running == a.timers.running
             || (Shows(a.seeks, tick, toleranceTicks) && b.timers.running == a.timers.running - {PresentationTimer})
    ensures Valid(b) && FrameStep(a, b, h, Some(tick))
  {
    PresentedKeepsSeeks(a.seeks, a.life.readiness, state, a.frames.armed[h].generation, a.frames.armed[h].epoch, tick, toleranceTicks);
    PresentedFrameStep(a, b, state, h, tick, toleranceTicks);
  }

  lemma PresentedFrameStep(a: State, b: State, state: SeekState, h: nat, tick: int, toleranceTicks: nat)
    requires Valid(a) && h in a.frames.armed && CurrentFrame(a.frames.armed[h], a.seeks, a.frames)
    requires a.seeks.pending.None? && a.life.metadataReady
    requires a.life.timeline.Some? && toleranceTicks == Tolerance(a.life.timeline.value)
    requires ObservePresentation(a.seeks.state, a.frames.armed[h].generation, a.frames.armed[h].epoch, tick, true) == Some(state)
    requires b == a.(seeks := PresentedSeeks(a.seeks, state, tick, toleranceTicks), timers := b.timers)
    ensures FrameStep(a, b, h, Some(tick))
  {
    assert Accepts(a, h, tick);
  }

  // ----- Timers, native events and the public entry points -----

  lemma StaleTimerIsHarmless(a: State, name: TimerName)
    requires Valid(a) && name in a.timers.running
    requires a.timers.running[name].generation != a.seeks.state.generation || !Live(a.life.readiness)
    ensures var b := a.(timers := a.timers.(running := a.timers.running - {name})); Valid(b) && Quiet(a, b)
  {
  }

  /** A fired timer that guards nothing, or whose duty is discharged next, leaves the core as it was. */
  lemma FiredTimer(a: State, b: State, name: TimerName)
    requires Valid(a) && name in a.timers.running && b == a.(timers := a.timers.(running := a.timers.running - {name}))
    ensures Core(b) && Quiet(a, b)
    ensures name in {PlayTimer, RateTimer, MetricsTimer} ==> Valid(b)
    ensures name == DispatchTimer ==> AlmostValid(b)
    ensures name == NativeTimer && a.seeks.active.None? ==> Valid(b)
    ensures name == PresentationTimer && a.seeks.waiter.None? ==> Valid(b)
    ensures name == NativeTimer && a.seeks.active.Some? ==> a.timers.running[name].owner == a.seeks.active.value.id
    ensures name == PresentationTimer && a.seeks.waiter.Some? ==> a.timers.running[name].owner == a.seeks.waiter.value.id
    ensures Live(a.life.readiness) ==> a.life.timeline.Some?
  {
  }

  /** The timer that fires is the one running under its name, armed in this generation of live media. */
  predicate Expires(s: State, name: TimerName, handle: nat) {
    && name in s.timers.running && s.timers.running[name].handle == handle
    && s.timers.running[name].generation == s.seeks.state.generation && Live(s.life.readiness)
  }

  lemma GuardOwners(s: State)
    requires Valid(s)
    ensures s.seeks.active.Some? ==>
              NativeTimer in s.timers.running && s.timers.running[NativeTimer].owner == s.seeks.active.value.id
    ensures s.seeks.waiter.Some? ==>
              PresentationTimer in s.timers.running && s.timers.running[PresentationTimer].owner == s.seeks.waiter.value.id
  {
  }

  lemma TimedOutStands(a: State, b: State, c: State)
    requires b == a.(seeks := b.seeks, timers := b.timers) && Contained(b, c) && GivenUp(b, c)
    ensures b.seeks == ActiveFailed(a.seeks) ==> RequestTimedOut(a, c, a.seeks.active)
    ensures b.seeks == WaiterFailed(a.seeks) ==> RequestTimedOut(a, c, a.seeks.waiter)
  {
  }

  /** The media reloads towards where playback stood, or is given up. */
  predicate GivenUp(a: State, b: State) {
    && NoSlots(b.seeks) && b.life.readiness in {Recovering, Degraded}
    && (b.life.readiness == Recovering ==> b.recovery.target == Some(RecoveryPoint(a)))
  }

  /** The request in the slot has failed, and the media reloads towards its position or is given up. */
  ghost predicate RequestTimedOut(a: State, b: State, slot: Option<PendingSeek>) {
    slot.Some? ==>
      && GivenUp(a, b)
      && (slot.value.settled || (slot.value.id in b.seeks.outcomes && b.seeks.outcomes[slot.value.id].status == Failed))
  }

  lemma TimedOutKeepsCore(a: State, b: State)
    requires Valid(a) && b == a.(seeks := b.seeks, timers := b.timers)
    requires b.seeks == ActiveFailed(a.seeks) || b.seeks == WaiterFailed(a.seeks)
    ensures Core(b) && Quiet(a, b)
  {
    FailedKeepsCore(a);
    CoreIgnoresTimers(a.(seeks := b.seeks), b);
  }

  lemma CoreIgnoresTimers(a: State, b: State)
    requires Core(a) && b == a.(timers := b.timers)
    ensures Core(b)
  {
  }

  lemma CoreIgnoresPromises(a: State, b: State)
    requires Core(a)
    requires b == a.(life := a.life.(finishOpen := b.life.finishOpen, finishPlay := b.life.finishPlay,
                                     desiredPlaying := b.life.desiredPlaying, loadStarted := b.life.loadStarted,
                                     loop := b.life.loop, activationRequired := b.life.activationRequired))
    requires b.life.loop == a.life.loop || (b.life.timeline.Some? && LoopFits(b.life.timeline.value, b.life.loop))
    ensures Core(b) && Quiet(a, b) && (Valid(a) ==> Valid(b))
  {
  }

  /** Metadata arrived: the readiness timeout is discharged and the media is ready. */
  lemma ReadyIsAlmostValid(a: State, b: State)
    requires Valid(a) && a.life.readiness in {Loading, Recovering}
    requires b == a.(life := a.life.(metadataReady := true, readiness := Ready, finishOpen := false),
                     timers := a.timers.(running := a.timers.running - {ReadinessTimer}))
    ensures AlmostValid(b) && Quiet(a, b)
    ensures b.seeks.pending.None? ==> Valid(b)
  {
  }

  /** A loop that is not a clip range of the open recording. */
  predicate LoopRefused(t: Option<MediaTimeline>, range: Option<ClipRange>) {
    && t.Some? && range.Some?
    && CreateClipRange(t.value, range.value.startFrame, range.value.endFrameExclusive, range.value.mediaId).Err?
  }

  lemma CreatedRangeFits(t: MediaTimeline, range: Option<ClipRange>)
    requires range.Some? ==>
               && range.value.startFrame >= 0
               && CreateClipRange(t, range.value.startFrame, range.value.endFrameExclusive, range.value.mediaId).Ok?
    ensures LoopFits(t, range)
  {
  }

  /** The media is ready and its readiness timeout discharged. */
  function Readied(s: State): State {
    s.(life := s.life.(metadataReady := true, readiness := Ready, finishOpen := false),
       timers := s.timers.(running := s.timers.running - {ReadinessTimer}))
  }

  /** The queued seek is dispatched, else the position to be restored is sought, else playback resumes as wanted. */
  ghost predicate FirstThingDone(a: State, b: State) {
    var ready := Readied(a);
    if a.seeks.pending.Some? then Advanced(ready, b)
    else if a.recovery.target.Some? then
      exists reply :: SeekAnswered(ready.(recovery := ready.recovery.(target := None)), b, a.recovery.target.value, RecoverySeek, reply)
    else Contained(ready, b)
  }

  lemma AnsweredQuietly(a: State, b: State, target: int, reason: SeekReason, r: SeekReply)
    requires SeekAnswered(a, b, target, reason, r)
    ensures Quiet(a, b) && (Live(a.life.readiness) ==> Live(b.life.readiness))
  {
  }

  lemma TargetTaken(a: State, b: State)
    requires Valid(a) && b == a.(recovery := a.recovery.(target := None))
    ensures Valid(b) && Quiet(a, b)
  {
  }

  lemma NotReadyYet(s: State)
    requires Valid(s) && Live(s.life.readiness) && s.life.readiness != Degraded && !s.life.metadataReady
    ensures s.life.readiness in {Loading, Recovering}
  {
  }

  lemma ContainedReady(a: State, b: State)
    requires Contained(a, b) && Valid(a) && !a.rates.rate.limitation && b.life.readiness == Ready
    ensures !b.rates.fallbackReloaded
  {
  }

  lemma LiveFacts(s: State)
    requires Valid(s) && Live(s.life.readiness)
    ensures Core(s) && s.life.timeline.Some?
  {
  }

  /** A fresh capability attempt: a new selection, its one fallback and its one reload unspent. */
  function Selected(s: State, selected: real): State {
    var reset := ResetObservation(s.rates, false);
    s.(rates := reset.(fallbackReloaded := false, fallbacks := 0, fallbackReloads := 0,
                       rate := RateState(selected, s.rates.rate.applied, selected, None, Pending, false)),
       timers := s.timers.(running := s.timers.running - {RateTimer}))
  }

  lemma SelectedIsValid(s: State, selected: real)
    requires Valid(s)
    ensures Valid(Selected(s, selected)) && Quiet(s, Selected(s, selected))
  {
  }

  /** What open starts from: everything older superseded, a new generation, clean budgets. */
  function Opened(s: State, t: MediaTimeline): State {
    var c := Cancelled(s, Superseded);
    c.(life := c.life.(readiness := Loading, timeline := Some(t), loop := None, desiredPlaying := false,
                       activationRequired := false, finishOpen := true),
       seeks := c.seeks.(state := CreateSeekState(s.seeks.state.generation + 1)),
       recovery := Recovery(None, 0, 0, [], []),
       rates := c.rates.(rate := RateState(1.0, 1.0, 1.0, None, Pending, false), lastVerified := None,
                         fallbackReloaded := false, fallbacks := 0, fallbackReloads := 0))
  }

  lemma OpenedKeepsCore(s: State, t: MediaTimeline)
    requires Core(s) && ValidTimeline(t)
    ensures Core(Opened(s, t)) && Quiet(s, Opened(s, t)) && NoSlots(Opened(s, t).seeks)
  {
    hide Ledger, Slots, Frames, QuietSeeks, QuietFrames, OnlyFailures, CancelSeeks, CancelFrames, WellFormed, PlayableTimeline, ValidTimeline;
    CancelledKeepsCore(s, Superseded);
    CancelFramesClears(s.frames, s.seeks.intent, s.seeks.state.generation, s.seeks.intent + 1, s.seeks.state.generation + 1);
    CancelledQuietly(s.seeks, Superseded, CreateSeekState(s.seeks.state.generation + 1));
    CancelledFields(s.seeks, Superseded);
    CancelledFrames(s.frames);
    CreatedWellFormed(s.seeks.state.generation + 1);
    EmptySlots(CancelSeeks(s.seeks, Superseded), CreateSeekState(s.seeks.state.generation + 1), Loading);
  }

  lemma ContainedFence(a: State, b: State)
    requires Contained(a, b)
    ensures b.frames.fence >= a.frames.fence
  {
  }

  lemma NoCurrentFrames(s: State)
    requires Core(s)
    ensures var f := CancelFrames(s.frames); forall h :: h in f.armed ==> f.armed[h].version != f.version
  {
  }

  lemma CreatedWellFormed(generation: nat)
    ensures WellFormed(CreateSeekState(generation))
  {
  }

  lemma ManualResetKeepsCore(s: State)
    requires Core(s)
    ensures var b := s.(recovery := s.recovery.(consecutiveFailures := 0, attempts := [], log := [])); Core(b) && Quiet(s, b)
  {
  }

  lemma DisposedIsValid(s: State)
    requires Core(s)
    ensures var c := Cancelled(s, Superseded);
            var d := c.(life := c.life.(readiness := Disposed, desiredPlaying := false));
            Valid(d) && Quiet(s, d) && NoSlots(d.seeks) && d.frames.fence == s.frames.nextHandle
  {
    hide Ledger, Slots, Frames, ReloadBudget, Quiet, OnlyFailures, CancelSeeks, CancelFrames, WellFormed;
    CancelledKeepsCore(s, Superseded);
    CancelledFields(s.seeks, Superseded);
    CancelledFrames(s.frames);
    CoreWellFormed(s);
    var c := Cancelled(s, Superseded);
    EmptySlots(c.seeks, c.seeks.state, Disposed);
    QuietIgnoresLife(s, c, c.(life := c.life.(readiness := Disposed, desiredPlaying := false)));
  }

  // ----- Runs -----

  datatype Event =
    | SeekTo(target: int, reason: SeekReason, playAfter: Option<bool>)
    | Native(event: MediaEvent, generation: nat)
    | TimerFired(name: TimerName, handle: nat)
    | FrameShown(h: nat, tick: Option<int>, at: real)
    | PlayAsked
    | PauseAsked
    | PlaySettled(token: nat, playGeneration: nat, fulfilled: bool, notAllowed: bool)
    | RateSelected(selected: real)
    | LoopSelected(range: Option<ClipRange>)
    | RetryAsked
    | OpenAsked(mediaId: string, timeline: MediaTimeline)
    | DisposeAsked

  /**
   * A frame can only be one the browser was asked for, media are opened with validated timelines, and frame boundaries are
   * never negative.
   */
  ghost predicate Possible(s: State, e: Event) {
    && (e.FrameShown? ==> e.h in s.frames.armed)
    && (e.OpenAsked? ==> ValidTimeline(e.timeline))
    && (e.LoopSelected? && e.range.Some? ==> e.range.value.startFrame >= 0)
  }

  ghost predicate StepKept(a: State, b: State, e: Event) {
    && (if e.FrameShown? then FrameStep(a, b, e.h, e.tick) else Quiet(a, b))
    && (Discards(a, b, e) ==> a.frames.nextHandle <= b.frames.fence)
  }

  /** The media of the frames requested so far are gone: reloaded, replaced or released. */
  predicate Discards(a: State, b: State, e: Event) {
    a.seeks.state.generation < b.seeks.state.generation || (e.DisposeAsked? && a.life.readiness != Disposed)
  }

  lemma QuietIsKept(a: State, b: State, e: Event)
    requires Quiet(a, b) && !e.FrameShown?
    requires e.DisposeAsked? && a.life.readiness != Disposed ==> a.frames.nextHandle <= b.frames.fence
    ensures StepKept(a, b, e)
  {
  }

  lemma FrameStepIsKept(a: State, b: State, e: Event)
    requires e.FrameShown? && FrameStep(a, b, e.h, e.tick)
    ensures StepKept(a, b, e)
  {
  }

  /** The states of one run, one per event-loop turn. */
  ghost predicate Trace(states: seq<State>, events: seq<Event>) {
    && |states| == |events| + 1
    && (forall i :: 0 <= i < |states| ==> Valid(states[i]))
    && (forall i :: 0 <= i < |events| ==> StepKept(states[i], states[i + 1], events[i]))
  }

  /** A timer is running that dispatches the request or fails it. */
  ghost predicate Watched(s: State, id: nat) {
    var generation := s.seeks.state.generation;
    if Unsettled(s.seeks.active, id) then Running(s.timers, NativeTimer, id, generation)
    else if Unsettled(s.seeks.waiter, id) then Running(s.timers, PresentationTimer, id, generation)
    else if s.seeks.active.Some? then Running(s.timers, NativeTimer, s.seeks.active.value.id, generation)
    else if s.life.readiness == Ready then Running(s.timers, DispatchTimer, 0, generation)
    else Running(s.timers, ReadinessTimer, 0, generation)
  }

  /** Of all seek promises handed out only the newest may be unsettled, and while it is, a timer of this generation watches it. */
  ghost predicate AccountedFor(s: State, id: nat) {
    id < s.seeks.nextRequest && id !in s.seeks.outcomes ==>
      Waiting(s.seeks, id) && !NoSlots(s.seeks) && id == NewestId(s.seeks) && Watched(s, id)
  }

  /** In every state of every run each promise is settled, or is the one newest request and watched by a running timer. */
  lemma NoRequestIsLost(states: seq<State>, events: seq<Event>, i: nat, id: nat)
    requires Trace(states, events) && i < |states|
    ensures AccountedFor(states[i], id)
  {
    assert Valid(states[i]);
  }

  lemma StepMonotone(a: State, b: State, e: Event)
    requires StepKept(a, b, e)
    ensures Extends(a.seeks.outcomes, b.seeks.outcomes) && QuietFrames(a.frames, b.frames)
    ensures a.seeks.state.generation <= b.seeks.state.generation
  {
  }

  /** A promise resolves once: whatever it resolved to stands in every later state. */
  lemma {:induction false} SettledOnce(states: seq<State>, events: seq<Event>, i: nat, j: nat, id: nat)
    requires Trace(states, events) && i <= j < |states| && id in states[i].seeks.outcomes
    ensures id in states[j].seeks.outcomes && states[j].seeks.outcomes[id] == states[i].seeks.outcomes[id]
    decreases j
  {
    if i < j {
      SettledOnce(states, events, i, j - 1, id);
      assert StepKept(states[j - 1], states[j - 1 + 1], events[j - 1]);
      StepMonotone(states[j - 1], states[j], events[j - 1]);
    }
  }

  lemma {:induction false} FenceHolds(states: seq<State>, events: seq<Event>, i: nat, j: nat)
    requires Trace(states, events) && i <= j < |states|
    ensures states[i].frames.fence <= states[j].frames.fence
    decreases j
  {
    if i < j {
      FenceHolds(states, events, i, j - 1);
      assert StepKept(states[j - 1], states[j - 1 + 1], events[j - 1]);
      StepMonotone(states[j - 1], states[j], events[j - 1]);
    }
  }

  /** Once a new seek was queued, no frame requested before it is ever accepted again, in any order of events. */
  lemma FramesBeforeASeekAreDead(states: seq<State>, events: seq<Event>, i: nat, j: nat, id: nat, preview: int, target: int,
                                 h: nat, tick: int)
    requires Trace(states, events) && i < j < |states|
    requires NewSeek(states[i], states[i + 1], id, preview, target) && h in states[i].frames.armed
    ensures !Accepts(states[j], h, tick)
  {
    FenceHolds(states, events, i + 1, j);
    assert Valid(states[i]);
  }

  /** Once the media was reloaded, replaced or released, no frame requested before is ever accepted again. */
  lemma FramesBeforeAReloadAreDead(states: seq<State>, events: seq<Event>, i: nat, j: nat, h: nat, tick: int)
    requires Trace(states, events) && i < j < |states|
    requires Discards(states[i], states[i + 1], events[i]) && h in states[i].frames.armed
    ensures !Accepts(states[j], h, tick)
  {
    FenceHolds(states, events, i + 1, j);
    assert Valid(states[i]) && StepKept(states[i], states[i + 1], events[i]);
  }

  /** A frame is accepted only in the generation it was requested in: any reload or open in between rules it out. */
  lemma {:induction false} FramesOfOldGenerationsAreDead(states: seq<State>, events: seq<Event>, i: nat, j: nat, h: nat, tick: int)
    requires Trace(states, events) && i <= j < |states| && h in states[i].frames.armed
    requires states[i].seeks.state.generation != states[j].seeks.state.generation
    ensures !Accepts(states[j], h, tick)
    decreases j - i
  {
    assert StepKept(states[i], states[i + 1], events[i]);
    StepMonotone(states[i], states[i + 1], events[i]);
    if Discards(states[i], states[i + 1], events[i]) {
      FramesBeforeAReloadAreDead(states, events, i, j, h, tick);
    } else {
      FramesOfOldGenerationsAreDead(states, events, i + 1, j, h, tick);
    }
  }

  ghost predicate PresentedBy(a: State, e: Event, id: nat) {
    && e.FrameShown? && e.tick.Some? && Accepts(a, e.h, e.tick.value)
    && Owner(a.seeks).Some? && Owner(a.seeks).value.id == id
    && a.life.timeline.Some? && Shows(a.seeks, e.tick.value, Tolerance(a.life.timeline.value))
  }

  /** Over every run a seek is "presented" only by an accepted frame that shows its target, while it owned the media. */
  lemma {:induction false} PresentedOnlyByItsFrame(states: seq<State>, events: seq<Event>, j: nat, id: nat)
    requires Trace(states, events) && j < |states| && id !in states[0].seeks.outcomes
    requires id in states[j].seeks.outcomes && states[j].seeks.outcomes[id].status == Presented
    ensures exists i :: 0 <= i < j && PresentedBy(states[i], events[i], id)
    decreases j
  {
    assert StepKept(states[j - 1], states[j - 1 + 1], events[j - 1]);
    if id in states[j - 1].seeks.outcomes {
      StepMonotone(states[j - 1], states[j], events[j - 1]);
      PresentedOnlyByItsFrame(states, events, j - 1, id);
    } else {
      assert PresentedBy(states[j - 1], events[j - 1], id);
    }
  }

  /** Over every run the position, once there is one, is the tick of an accepted frame. */
  lemma {:induction false} PositionIsAnAcceptedFrame(states: seq<State>, events: seq<Event>, j: nat)
    requires Trace(states, events) && j < |states| && states[0].seeks.state.presented.None?
    requires states[j].seeks.state.presented.Some?
    ensures exists i :: 0 <= i < j && events[i].FrameShown? && events[i].tick == states[j].seeks.state.presented
                        && Accepts(states[i], events[i].h, events[i].tick.value)
    decreases j
  {
    assert StepKept(states[j - 1], states[j - 1 + 1], events[j - 1]);
    if states[j].seeks.state.presented == states[j - 1].seeks.state.presented {
      PositionIsAnAcceptedFrame(states, events, j - 1);
    } else {
      assert events[j - 1].FrameShown?;
    }
  }

  /** In every state of every run no closed ten-second interval holds three reloads since the last open or retry. */
  lemma ReloadsAreRationed(states: seq<State>, events: seq<Event>, s: nat, i: nat, j: nat, k: nat)
    requires Trace(states, events) && s < |states| && i < j < k < |states[s].recovery.log|
    ensures states[s].recovery.log[k] - states[s].recovery.log[i] > RELOAD_WINDOW_MS
    ensures states[s].rates.fallbacks <= 1 && states[s].rates.fallbackReloads <= 1
  {
    assert Valid(states[s]);
    AtMostTwoReloadsInTenSeconds(states[s].recovery.log, states[s].recovery.attempts, states[s].now, i, j, k);
  }

  class PlaybackController {
    const media: MediaAdapter
    var life: Life
    var seeks: Seeks
    var frames: FrameArm
    var rates: Rates
    var recovery: Recovery
    var health: Health
    var timers: Timers
    var nowMs: real

    function View(): State
      reads this
    {
      State(life, seeks, frames, rates, recovery, timers, nowMs)
    }

    constructor (media: MediaAdapter, generation: nat, now: real)
      ensures Valid(View()) && NoSlots(seeks) && life.readiness == Closed && this.media == media
      ensures seeks.state == CreateSeekState(generation) && frames.armed == map[] && recovery.log == []
    {
      this.media := media;
      life := Life(Closed, None, None, false, false, 0, None, false, false, false);
      seeks := Seeks(CreateSeekState(generation), None, None, None, 0, None, 0, map[]);
      frames := FrameArm(0, None, 0, map[], 0);
      rates := Rates(RateState(1.0, 1.0, 1.0, None, Pending, false), 0, None, false, 0, None, None, 0, 0);
      recovery := Recovery(None, 0, 0, [], []);
      health := Health(None, now, None, None);
      timers := Timers(map[], 0);
      nowMs := now;
    }

    // ----- Small helpers -----

    method Now() returns (t: real)
      modifies `nowMs
      ensures old(nowMs) <= nowMs && t == nowMs
    {
      var elapsed: real := *;
      if elapsed > 0.0 {
        nowMs := nowMs + elapsed;
      }
      t := nowMs;
    }

    method Later(name: TimerName, owner: nat)
      modifies `timers
      ensures timers.running == old(timers).running[name := Timer(old(timers).next, seeks.state.generation, owner)]
    {
      timers := Timers(timers.running[name := Timer(timers.next, seeks.state.generation, owner)], timers.next + 1);
    }

    method ClearTimer(name: TimerName)
      modifies `timers
      ensures timers == old(timers).(running := old(timers).running - {name})
    {
      timers := timers.(running := timers.running - {name});
    }

    /** Requests the next frame unless one is already requested or the media cannot deliver any. */
    method ArmFrames()
      modifies `frames
      ensures frames == old(frames) || frames == ArmFrame(old(frames), seeks, rates.token)
      ensures FrameMoves(old(frames), frames, seeks)
    {
      if !media.hasVideoFrameCallback || frames.handle.Some? || !Live(life.readiness) || life.readiness == Degraded {
        return;
      }
      ArmFrameMoves(frames, seeks, rates.token);
      frames := ArmFrame(frames, seeks, rates.token);
    }

    method RearmFrames()
      modifies `frames
      ensures FrameMoves(old(frames), frames, seeks)
      ensures frames.fence == old(frames).nextHandle && frames.version == old(frames).version + 1
    {
      CancelFramesMoves(frames, seeks);
      frames := CancelFrames(frames);
      ArmFrames();
    }

    method CancelPlay()
      modifies `life, `timers
      ensures life == old(life).(playToken := old(life).playToken + 1, finishPlay := None)
      ensures timers == old(timers).(running := old(timers).running - {PlayTimer})
    {
      life := life.(playToken := life.playToken + 1, finishPlay := None);
      ClearTimer(PlayTimer);
    }

    // ----- Ending a generation of work -----

    /** Settles whatever is unsettled and forgets every timer, frame and slot. */
    method CancelWork(status: SeekStatus)
      modifies `life, `seeks, `frames, `rates, `health, `timers
      ensures View() == Cancelled(old(View()), status)
    {
      timers := timers.(running := map[]);
      frames := CancelFrames(frames);
      seeks := CancelSeeks(seeks, status);
      life := life.(playToken := life.playToken + 1, finishPlay := None, finishOpen := false,
                    loadStarted := false, metadataReady := false);
      health := health.(healthySince := None, waitingSince := None, lastFrameTick := None);
      rates := ResetObservation(rates, false);
    }

    method Degrade()
      requires Core(View()) && life.timeline.Some?
      modifies `life, `seeks, `frames, `rates, `health, `timers
      ensures Valid(View()) && NoSlots(seeks)
      ensures life.readiness == Degraded && Contained(old(View()), View())
    {
      hide Core, Valid, Contained;
      DegradedIsValid(View());
      CancelWork(Failed);
      life := life.(readiness := Degraded);
    }

    // ----- Loading, recovery and the rate fallback: the mutually recursive core -----

    /** Reloads this synchronous chain can still start. */
    function Fuel(): nat
      reads this
    {
      if recovery.consecutiveFailures >= 2 then 0 else 2 - recovery.consecutiveFailures
    }

    function FallbacksLeft(): nat
      reads this
    {
      if rates.rate.limitation then 0 else 1
    }

    method Recover()
      requires Core(View()) && Live(life.readiness) && life.timeline.Some?
      modifies this
      ensures Valid(View()) && Contained(old(View()), View())
      ensures GivenUp(old(View()), View())
      ensures |old(recovery).attempts| == old(recovery).consecutiveFailures == 0 ==> |old(recovery).log| < |recovery.log|
      decreases Fuel(), FallbacksLeft(), 0
    {
      hide Core, Valid, Contained, FilterRecent, Reloading, RecoveryPoint;
      ghost var s0 := View();
      var now := Now();
      SameRecoveryPoint(s0);
      ForgettingKeepsCore(s0, now);
      if recovery.attempts == [] {
        FilterKeepsRecent(recovery.attempts, now);
      }
      recovery := recovery.(attempts := FilterRecent(recovery.attempts, now));
      ghost var s1 := View();
      if |recovery.attempts| >= 2 || recovery.consecutiveFailures >= 2 {
        Degrade();
        ContainedTransitive(s0, s1, View());
        return;
      }
      var target := RecoveryPoint(View());
      ReloadingKeepsCore(s1, target);
      Reload(target);
      ghost var s2 := View();
      ReloadingIsRecovering(s1, target);
      BeginLoad();
      ContainedTransitive(s0, s1, s2);
      ContainedTransitive(s0, s2, View());
      ReloadingResumes(s1, target);
      ContainedSelection(s2, View());
    }

    /** A new generation, logged, with the target it has to come back to. */
    method Reload(target: int)
      modifies `life, `seeks, `frames, `rates, `health, `timers, `recovery
      ensures View() == Reloading(old(View()), target)
    {
      CancelWork(Failed);
      seeks := seeks.(state := BeginRecovery(seeks.state));
      recovery := Recovery(Some(target), recovery.count + 1, recovery.consecutiveFailures + 1,
                           recovery.attempts + [nowMs], recovery.log + [nowMs]);
      life := life.(readiness := Recovering);
    }

    method BeginLoad()
      requires Core(View()) && NoSlots(seeks) && life.readiness in {Loading, Recovering} && life.timeline.Some?
      requires NativeTimer !in timers.running
      modifies this
      ensures Valid(View()) && Contained(old(View()), View()) && NoSlots(seeks)
      ensures life.readiness == old(life).readiness || life.readiness in {Recovering, Degraded}
      decreases Fuel(), FallbacksLeft(), 3
    {
      hide Core, Valid, Contained;
      ghost var s0 := View();
      Later(ReadinessTimer, 0);
      Later(MetricsTimer, 0);
      LoadingIsValid(s0, View());
      ghost var s1 := View();
      var threw := media.Open();
      if threw {
        ValidFacts(s1);
        Recover();
        ContainedTransitive(s0, s1, View());
      } else {
        ApplyEffectiveRate();
        ContainedTransitive(s0, s1, View());
        ghost var s2 := View();
        ArmFrames();
        BesideIsValid(s2, View());
        ContainedTransitive(s0, s2, View());
      }
      ContainedSlots(s0, View());
    }

    method ApplyEffectiveRate()
      requires Valid(View()) && Live(life.readiness)
      modifies this
      ensures Valid(View()) && Contained(old(View()), View())
      decreases Fuel(), FallbacksLeft(), 2
    {
      hide Core, Valid, Contained;
      ghost var s0 := View();
      var threw := media.SetRate(rates.rate.effective);
      var observed := media.Read();
      rates := rates.(rate := rates.rate.(applied := observed.rate));
      BesideIsValid(s0, View());
      ghost var s1 := View();
      if threw || rates.rate.applied != rates.rate.effective {
        FailRate(Unsupported);
        ContainedTransitive(s0, s1, View());
      }
    }

    /** A failed rate falls back once; a failed fallback reloads once; after that playback degrades. */
    method FailRate(outcome: RateOutcome)
      requires Valid(View()) && Live(life.readiness)
      modifies this
      ensures Valid(View()) && Contained(old(View()), View())
      ensures rates.rate.limitation
      decreases Fuel(), FallbacksLeft(), 1
    {
      hide Core, Valid, Contained;
      ghost var s0 := View();
      ValidFacts(s0);
      if rates.rate.limitation {
        if rates.fallbackReloaded {
          Degrade();
          ContainedLimitation(s0, View());
          return;
        }
        ReloadSpentKeepsCore(s0);
        rates := rates.(fallbackReloaded := true, fallbackReloads := rates.fallbackReloads + 1);
        Recover();
        SpentThenReloaded(s0, View());
        ContainedLimitation(s0, View());
        return;
      }
      var fallback := if rates.lastVerified.Some? && rates.lastVerified.value != rates.rate.effective
                      then rates.lastVerified.value else 1.0;
      FallenBackIsValid(s0, fallback, outcome);
      rates := ResetObservation(rates, false);
      ClearTimer(RateTimer);
      rates := rates.(rate := rates.rate.(effective := fallback, outcome := outcome, limitation := true),
                      fallbacks := rates.fallbacks + 1);
      ghost var s1 := View();
      ApplyEffectiveRate();
      ghost var s2 := View();
      ContainedTransitive(s0, s1, s2);
      RearmFrames();
      BesideIsValid(s2, View());
      ContainedTransitive(s0, s2, View());
      ContainedLimitation(s1, s2);
    }

    // ----- Watching the presented rate -----

    /** Reads the element twice; nothing it says is trusted to be consistent. */
    method RateEligible() returns (eligible: bool, threw: bool)
      requires Valid(View())
      ensures threw ==> Unplayable(life)
    {
      hide Core, Valid, Unplayable, FrameToTick;
      var observed := media.Read();
      var source := media.Read();
      if life.timeline.None? || life.readiness != Ready || !life.metadataReady || !source.currentSource
         || !life.desiredPlaying || life.activationRequired || observed.paused || observed.ended || observed.hidden
         || observed.seeking || !NoSlots(seeks) || health.waitingSince.Some? || observed.readyState < 3 {
        return false, false;
      }
      LoopBoundaries(View());
      var t := life.timeline.value;
      var end := StretchEnd(t, life.loop);
      if end.Err? {
        return false, true;
      }
      if observed.tick.None? {
        return false, false;
      }
      var frame := FrameToTick(1, t.frameRate, Exact);
      if frame.Err? {
        AlmostFromValid(View());
        FrameConversion(View());
        return false, true;
      }
      eligible := (end.value - observed.tick.value) as real
                  > rates.rate.effective * 3.0 * TICKS_PER_SECOND as real + 2.0 * frame.value as real;
      threw := false;
    }

    /** No window: the media is not eligible, or delivers no frames to judge. */
    method StopWatching(eligible: bool)
      modifies `rates
      ensures SameBudget(old(rates), rates)
    {
      if eligible {
        rates := rates.(rate := rates.rate.(observed := None,
                                            outcome := if rates.rate.limitation then rates.rate.outcome else Unknown));
      } else if rates.window.Some? || (!rates.rate.limitation && rates.rate.outcome != Suspended) {
        var observed := media.Read();
        rates := ResetObservation(rates, health.waitingSince.Some? || observed.readyState < 3);
      }
    }

    /** Starts the capability clock and the window; true once ten seconds have brought no verdict. */
    method OpenWindow(now: real) returns (expired: bool)
      modifies `rates
      ensures rates == old(rates).(capabilityStartedAt := rates.capabilityStartedAt, window := rates.window,
                                   rate := old(rates).rate.(outcome := rates.rate.outcome))
      ensures !expired ==> rates.window.Some?
    {
      if rates.rate.observed.None? && rates.capabilityStartedAt.None? {
        rates := rates.(capabilityStartedAt := Some(now));
      }
      expired := rates.capabilityStartedAt.Some? && now - rates.capabilityStartedAt.value >= 10_000.0;
      if !expired && rates.window.None? {
        rates := rates.(window := Some(RateWindow(rates.token, now, now, None, 0, None, 0)),
                        rate := rates.rate.(outcome := if rates.rate.limitation then rates.rate.outcome else Pending));
      }
    }

    method WatchRate() returns (threw: bool)
      requires Valid(View()) && Live(life.readiness)
      modifies this
      ensures Valid(View()) && Contained(old(View()), View())
      ensures threw ==> Unplayable(life)
    {
      hide Core, Valid, Contained, Unplayable;
      ghost var s0 := View();
      ClearTimer(RateTimer);
      BesideIsValid(s0, View());
      ghost var s1 := View();
      var eligible;
      eligible, threw := RateEligible();
      if threw {
        return;
      }
      if eligible && media.hasVideoFrameCallback {
        threw := WatchPresented();
      } else {
        StopWatching(eligible);
        BesideIsValid(s1, View());
      }
      ContainedTransitive(s0, s1, View());
    }

    /** The capability clock, then the window. */
    method WatchPresented() returns (threw: bool)
      requires Valid(View()) && Live(life.readiness)
      modifies this
      ensures Valid(View()) && Contained(old(View()), View())
      ensures threw ==> Unplayable(life)
    {
      hide Core, Valid, Contained, Unplayable;
      ghost var s0 := View();
      threw := false;
      var now := Now();
      var expired := OpenWindow(now);
      BesideIsValid(s0, View());
      ghost var s1 := View();
      if expired {
        FailRate(Unknown);
      } else {
        threw := WatchWindow(now, rates.window.value);
      }
      ContainedTransitive(s0, s1, View());
    }

    /** Fails a stalled or silent window, and looks again in 250 ms while the rate can still be judged. */
    method WatchWindow(now: real, window: RateWindow) returns (threw: bool)
      requires Valid(View()) && Live(life.readiness)
      modifies this
      ensures Valid(View()) && Contained(old(View()), View())
      ensures threw ==> Unplayable(life)
    {
      hide Core, Valid, Contained, Unplayable;
      ghost var s0 := View();
      ContainedReflexive(s0);
      if now - window.startedAt >= 2_000.0 && window.lastTick.Some? && now - window.progressAt >= 1_500.0 {
        FailRate(Limited);
      } else if now - window.startedAt >= 5_000.0 && window.samples < 3 && rates.rate.observed.None? {
        FailRate(Unknown);
      }
      ghost var s1 := View();
      var again;
      again, threw := RateEligible();
      if !threw && again && life.readiness == Ready {
        Later(RateTimer, rates.token);
        BesideIsValid(s1, View());
        ContainedTransitive(s0, s1, View());
      }
    }

    method ObserveRateFrame(tick: int, at: real, token: nat) returns (threw: bool)
      requires Valid(View()) && Live(life.readiness)
      modifies this
      ensures Valid(View()) && Contained(old(View()), View())
      ensures threw ==> Unplayable(life)
    {
      hide Core, Valid, Contained, Unplayable;
      ghost var s0 := View();
      ContainedReflexive(s0);
      if token != rates.token {
        return false;
      }
      var eligible;
      eligible, threw := RateEligible();
      if threw || !eligible {
        return;
      }
      if rates.window.None? {
        threw := WatchRate();
      }
      ghost var s1 := View();
      ContainedLive(s0, s1);
      if threw || rates.window.None? || rates.window.value.token != token || life.timeline.None? {
        return;
      }
      threw := MeasureWindow(tick, at);
      ContainedTransitive(s0, s1, View());
    }

    /** Judges one presented frame against the window; two windows that cannot be verified fail the rate. */
    method MeasureWindow(tick: int, at: real) returns (threw: bool)
      requires Valid(View()) && Live(life.readiness) && rates.window.Some? && life.timeline.Some?
      modifies this
      ensures Valid(View()) && Contained(old(View()), View())
      ensures threw ==> Unplayable(life)
    {
      hide Core, Valid, Contained, WindowWithFrame, RateVerified, ObservedRate, Unplayable, FrameToTick;
      ghost var s0 := View();
      threw := false;
      var window := rates.window.value;
      if window.lastTick.Some? && tick < window.lastTick.value {
        FailRate(Limited);
        return;
      }
      window := WindowWithFrame(window, tick, at);
      rates := rates.(window := Some(window));
      BesideIsValid(s0, View());
      if window.firstAt.None? || at - window.firstAt.value < 3_000.0 || window.samples < 3 {
        return;
      }
      var frame := FrameToTick(1, life.timeline.value.frameRate, Exact);
      if tick > window.firstTick && frame.Err? {
        AlmostFromValid(s0);
        FrameConversion(s0);
        return true;
      }
      rates := Judged(rates, window, tick, at, FrameTicks(life.timeline.value));
      BesideIsValid(s0, View());
      ghost var s1 := View();
      if rates.limitedWindows >= 2 {
        FailRate(Limited);
        ContainedTransitive(s0, s1, View());
        return;
      }
      rates := rates.(window := Some(window.(firstTick := tick, firstAt := Some(at), samples := 1)));
      BesideIsValid(s0, View());
    }

    // ----- Playing -----

    method ResumeDesired()
      requires Valid(View()) && Live(life.readiness)
      modifies this
      ensures Valid(View()) && Contained(old(View()), View())
    {
      hide Core, Valid, Contained;
      ContainedReflexive(View());
      if life.desiredPlaying && life.readiness == Ready {
        var observed := media.Read();
        if observed.paused {
          StartPlay();
        }
      }
    }

    method StartPlay()
      requires Valid(View()) && Live(life.readiness)
      modifies this
      ensures Valid(View()) && Contained(old(View()), View())
    {
      hide Core, Valid, Contained;
      ghost var s0 := View();
      CancelPlay();
      var token := life.playToken + 1;
      life := life.(playToken := token);
      if life.readiness != Ready {
        BesideIsValid(s0, View());
        return;
      }
      life := life.(finishPlay := Some(token));
      Later(PlayTimer, token);
      BesideIsValid(s0, View());
      ghost var s1 := View();
      var started := media.Play();
      if started.PlayThrew? {
        PlayRejected(token, seeks.state.generation, started.notAllowed);
        ContainedTransitive(s0, s1, View());
      }
    }

    predicate CurrentPlay(token: nat, generation: nat)
      reads this
    {
      token == life.playToken && generation == seeks.state.generation && life.finishPlay == Some(token) && Live(life.readiness)
    }

    /** The native play promise, or the call itself, was rejected; a stale rejection changes nothing. */
    method PlayRejected(token: nat, generation: nat, notAllowed: bool)
      requires Valid(View())
      modifies this
      ensures Valid(View()) && Contained(old(View()), View())
      ensures !old(CurrentPlay(token, generation)) ==> View() == old(View())
    {
      hide Core, Valid, Contained;
      ghost var s0 := View();
      ContainedReflexive(s0);
      if !CurrentPlay(token, generation) {
        return;
      }
      ClearTimer(PlayTimer);
      life := life.(activationRequired := notAllowed, finishPlay := None);
      BesideIsValid(s0, View());
      ghost var s1 := View();
      var observed := media.Read();
      if observed.failed {
        ValidFacts(s1);
        Recover();
        ContainedTransitive(s0, s1, View());
      }
    }

    method PlayFulfilled(token: nat, generation: nat) returns (threw: bool)
      requires Valid(View())
      modifies this
      ensures Valid(View()) && Contained(old(View()), View())
      ensures !old(CurrentPlay(token, generation)) ==> View() == old(View())
      ensures threw ==> Unplayable(life)
    {
      hide Core, Valid, Contained, Unplayable;
      ghost var s0 := View();
      ContainedReflexive(s0);
      if !CurrentPlay(token, generation) {
        return false;
      }
      life := life.(activationRequired := false);
      BesideIsValid(s0, View());
      ghost var s1 := View();
      threw := WatchRate();
      ContainedTransitive(s0, s1, View());
      ghost var s2 := View();
      if !threw && CurrentPlay(token, generation) {
        ClearTimer(PlayTimer);
        life := life.(finishPlay := None);
        BesideIsValid(s2, View());
        ContainedTransitive(s0, s2, View());
      }
    }

    // ----- Seeking -----

    /**
     * At most one native seek per 100 ms; a request for what is already shown is settled without one. On unplayable media
     * the request is lost, and there alone.
     */
    method DispatchPending() returns (turn: Turn)
      requires AlmostValid(View()) && Live(life.readiness)
      modifies this
      ensures turn == if Loses(old(View())) then Lost(old(seeks).pending.value.id) else Done
      ensures turn.Done? ==> Advanced(old(View()), View())
      ensures old(life).readiness != Ready ==> seeks == old(seeks) && life == old(life)
      ensures Live(life.readiness)
      ensures TurnEnds(View(), turn) && Quiet(old(View()), View())
    {
      hide Core, Valid, Contained, AlmostValid, Advanced, Unplayable, Abandoned, Quiet, FrameToTick, Distance;
      ghost var s0 := View();
      turn := Done;
      ClearTimer(DispatchTimer);
      ghost var s1 := View();
      DispatchTimerFree(s0, s1);
      AlmostFacts(s1);
      if Unplayable(life) {
        UnplayableFacts(s1);
      }
      if seeks.active.Some? || seeks.pending.None? || life.readiness != Ready || !life.metadataReady {
        StillScheduled(s1, View());
        AdvancedLive(s0, View());
        return;
      }
      var now := Now();
      if seeks.lastDispatchAt.Some? && seeks.lastDispatchAt.value + 100.0 - now > 0.0 {
        Later(DispatchTimer, 0);
        StillScheduled(s1, View());
        AdvancedLive(s0, View());
        return;
      }
      var request := seeks.pending.value;
      var observed := media.Read();
      var frame := FrameToTick(1, life.timeline.value.frameRate, Exact);
      FrameConversion(s1);
      if frame.Err? {
        turn := Lost(request.id);
        Lose(s1, observed.tick.None? && !(media.hasVideoFrameCallback && seeks.state.presented.Some?));
        QuietThroughTimers(s0, s1, View());
        return;
      }
      var half := (frame.value + 1) / 2;
      var shown := !media.hasVideoFrameCallback
                   || (seeks.state.presented.Some? && Distance(seeks.state.presented.value, request.target) <= half);
      if observed.tick.Some? && Distance(observed.tick.value, request.target) <= half && shown {
        Deduplicate(s1);
      } else {
        DispatchNative(s1);
      }
      AdvancedLive(s0, View());
    }

    /** The first conversion of a frame throws: comparing with what is shown, or, with nothing to compare, taking the tolerance. */
    method Lose(ghost start: State, native: bool)
      requires AlmostValid(start) && Loses(start) && start.now <= nowMs && View() == start.(now := nowMs)
      modifies `seeks
      ensures Abandoned(View(), start.seeks.pending.value.id) && Quiet(start, View()) && life.readiness == Ready
    {
      hide Core, AlmostValid, Quiet, Abandoned;
      seeks := LostSeeks(seeks, native);
      LosingAbandons(start, View(), native);
    }

    /** The pending request is where the media already stands: it is settled, and playback resumes. */
    method Deduplicate(ghost start: State)
      requires AlmostValid(start) && Live(start.life.readiness) && start.now <= nowMs && View() == start.(now := nowMs)
      requires seeks.pending.Some? && seeks.active.None?
      modifies this
      ensures Valid(View()) && Advanced(start, View())
    {
      hide Core, Valid, Contained, AlmostValid, Advanced;
      seeks := Deduped(seeks);
      RearmFrames();
      ghost var s2 := View();
      DedupedIsValid(start, s2);
      AdvancedLive(start, s2);
      AlmostFacts(start);
      ResumeDesired();
      AdvancedThenContained(start, s2, View());
    }

    /** The pending request becomes the native seek, under its own timeout. */
    method DispatchNative(ghost start: State)
      requires AlmostValid(start) && start.now <= nowMs && View() == start.(now := nowMs)
      requires life.readiness == Ready && life.timeline.Some? && seeks.pending.Some? && seeks.active.None? && !Unplayable(life)
      modifies this
      ensures Valid(View()) && Advanced(start, View())
    {
      hide Core, Valid, Contained, AlmostValid, Advanced, Tolerance, Unplayable;
      var request := seeks.pending.value;
      var dispatchedAt := Now();
      seeks := NativeDispatch(seeks, Tolerance(life.timeline.value), dispatchedAt);
      RearmFrames();
      Later(NativeTimer, request.id);
      ghost var s2 := View();
      DispatchIsValid(start, s2, Tolerance(life.timeline.value), dispatchedAt);
      AdvancedLive(start, s2);
      AlmostFacts(start);
      AssignNativeSeek(request.target);
      AdvancedThenContained(start, s2, View());
    }

    /** A throwing native assignment fails the seek and recovers. */
    method AssignNativeSeek(target: int)
      requires Valid(View()) && Live(life.readiness) && seeks.active.Some?
      modifies this
      ensures Valid(View()) && Contained(old(View()), View())
    {
      hide Core, Valid, Contained;
      ghost var s0 := View();
      ContainedReflexive(s0);
      var threw := media.Seek(target);
      if threw {
        FailedKeepsCore(s0);
        FailedFacts(s0);
        seeks := ActiveFailed(seeks);
        ghost var s1 := View();
        Recover();
        FailedThenReloaded(s0, s1, View());
      }
    }

    method Join(preview: int) returns (id: nat)
      requires Valid(View()) && !NoSlots(seeks)
      modifies `seeks
      ensures Valid(View()) && Quiet(old(View()), View()) && JoinedSeek(old(View()), View(), id, preview)
    {
      hide Core, Valid, Quiet, JoinedSeek, Joined;
      JoinedIsValid(View(), View().(seeks := Joined(seeks, preview)), preview);
      id := NewestId(seeks);
      seeks := Joined(seeks, preview);
    }

    /** Queues a new request behind whatever is in flight, superseding everything older. */
    method Enqueue(preview: int, dispatched: int) returns (turn: Turn, id: nat)
      requires Valid(View()) && life.readiness in {Loading, Ready, Recovering}
      modifies this
      ensures id == old(seeks).nextRequest
      ensures turn == if Unplayable(old(life)) && old(life).readiness == Ready then Lost(id) else Done
      ensures turn.Done? ==> NewSeek(old(View()), View(), id, preview, dispatched)
      ensures old(life).readiness != Ready ==> Queues(old(View()), View(), id)
      ensures TurnEnds(View(), turn) && Quiet(old(View()), View()) && Live(life.readiness)
    {
      hide Core, Valid, Quiet, AlmostValid, Advanced, NewSeek, Unplayable, Abandoned;
      ghost var s0 := View();
      ClearTimer(PresentationTimer);
      ClearTimer(RateTimer);
      frames := CancelFrames(frames);
      rates := ResetObservation(rates, false);
      health := health.(healthySince := None);
      id := seeks.nextRequest;
      seeks := Requested(seeks, preview, dispatched);
      if life.readiness == Recovering {
        recovery := recovery.(target := Some(preview));
      }
      ghost var s1 := View();
      QueuedIsAlmostValid(s0, s1, preview, dispatched);
      FreshRequest(s1);
      turn := DispatchPending();
      QuietTransitive(s0, s1, View());
      if turn.Done? {
        NewSeekDispatched(s0, s1, View(), preview, dispatched);
      }
    }

    method Request(preview: int, dispatched: int, playAfter: Option<bool>) returns (turn: Turn, id: nat)
      requires Valid(View()) && life.readiness in {Loading, Ready, Recovering}
      modifies this
      ensures turn == if Throws(old(View()), dispatched) then Lost(old(seeks).nextRequest) else Done
      ensures turn.Done? ==> JoinedOrNew(old(View()), View(), id, preview, dispatched)
      ensures old(life).readiness != Ready ==> Queues(old(View()), View(), id)
      ensures TurnEnds(View(), turn) && Quiet(old(View()), View()) && Live(life.readiness)
    {
      hide Core, Valid, Quiet, NewSeek, JoinedSeek, Repeats, Unplayable, Abandoned, JoinedOrNew;
      ghost var s0 := View();
      CancelPlay();
      if playAfter.Some? {
        life := life.(desiredPlaying := playAfter.value);
      }
      ghost var s1 := View();
      PlayCancelled(s0, s1);
      SamePlayability(s0.life, s1.life);
      turn := Done;
      if Repeats(seeks, dispatched) {
        RepeatsSomething(seeks, dispatched);
        id := Join(preview);
        if life.readiness != Ready {
          LoadingHoldsPendingOnly(s1);
          JoinedInTheQueue(s1, View(), id, preview);
        }
        IsJoined(s1, View(), id, preview, dispatched);
      } else {
        turn, id := Enqueue(preview, dispatched);
        if turn.Done? {
          IsNew(s1, View(), id, preview, dispatched);
        }
      }
      QuietTransitive(s0, s1, View());
      if turn.Done? {
        AnsweredAfterCancel(s0, s1, View(), id, preview, dispatched);
      }
    }

    /**
     * A seek to the frame the newest request already names joins it, and that request was never superseded or failed.
     * Any other seek supersedes all older ones and fences off every frame callback requested before it. Only on unplayable
     * media does it throw: before anything happens, or in its own dispatch.
     */
    method Seek(target: int, reason: SeekReason, playAfter: Option<bool>) returns (r: SeekReply)
      requires Valid(View())
      modifies this
      ensures SeekAnswered(old(View()), View(), target, reason, r) && TurnEnds(View(), TurnOf(r))
    {
      hide Core, Valid, Quiet, Snap, JoinedOrNew, Unplayable, Abandoned, Repeats, LoopFits, ValidTimeline;
      QuietReflexive(View());
      ValidFacts(View());
      if life.timeline.None? || !Live(life.readiness) || life.readiness == Degraded {
        return Immediate(Unavailable);
      }
      if reason == ClipLoop && !NoSlots(seeks) {
        return Immediate(Superseded);
      }
      LoopFacts(View());
      var snapped := Snap(life.timeline.value, life.loop, target);
      if snapped.Err? {
        SeekFails(View(), target);
        return Thrown(Threw);
      }
      var turn, id := Request(snapped.value.0, snapped.value.1, playAfter);
      r := if turn.Done? then Promised(id) else Thrown(turn);
    }

    /** The native seek landed: hand over to the next request, resume, or wait for the frame that shows it. */
    method OnSeeked() returns (observed: MediaObservation)
      requires Valid(View())
      modifies this
      ensures SeekedIfReached(old(View()), View(), observed, media.hasVideoFrameCallback)
      ensures Live(old(life).readiness) ==> Live(life.readiness)
      ensures Valid(View()) && Quiet(old(View()), View())
    {
      hide Core, Valid, Quiet, AlmostValid, Advanced, Contained, SeekedStep, Distance, Tolerance;
      ghost var s0 := View();
      QuietReflexive(s0);
      observed := media.Read();
      if seeks.active.None? {
        return;
      }
      ActiveFacts(s0);
      if observed.seeking || observed.tick.None?
         || Distance(observed.tick.value, seeks.active.value.target) > Tolerance(life.timeline.value) {
        return;
      }
      Land(observed.tick.value);
    }

    method Land(tick: int)
      requires Valid(View()) && seeks.active.Some?
      modifies this
      ensures Valid(View()) && Quiet(old(View()), View()) && SeekedStep(old(View()), View(), Some(tick), media.hasVideoFrameCallback)
      ensures Live(old(life).readiness) ==> Live(life.readiness)
    {
      hide Core, Valid, Quiet, AlmostValid, Advanced, Contained, Unplayable, Abandoned;
      ghost var s0 := View();
      ActiveFacts(s0);
      var request := seeks.active.value;
      ClearTimer(NativeTimer);
      if seeks.pending.Some? {
        seeks := SeekedFree(seeks, tick);
        ghost var s1 := View();
        SeekedToNext(s0, s1, tick);
        var turn := DispatchPending();
        QuietThenAdvanced(s0, s1, View());
      } else if request.settled {
        seeks := SeekedFree(seeks, tick);
        ghost var s1 := View();
        SeekedSettled(s0, s1, tick);
        ResumeDesired();
        QuietThenContained(s0, s1, View());
      } else if !media.hasVideoFrameCallback {
        seeks := SeekedUnavailable(seeks, tick);
        ghost var s1 := View();
        SeekedWithoutFrames(s0, s1, tick);
        ResumeDesired();
        QuietThenContained(s0, s1, View());
      } else {
        seeks := SeekedFree(seeks, tick).(waiter := Some(request));
        Later(PresentationTimer, request.id);
        SeekedWaits(s0, View(), tick);
      }
    }

    method MaybeLoop(tick: int) returns (turn: Turn)
      requires Valid(View())
      modifies this
      ensures TurnEnds(View(), turn) && Quiet(old(View()), View())
      ensures Live(old(life).readiness) ==> Live(life.readiness)
    {
      hide Core, Valid, Quiet, JoinedOrNew, Unplayable, Abandoned, FrameToTick, Snap, StretchEnd;
      QuietReflexive(View());
      turn := Done;
      if life.loop.None? || life.timeline.None? || !life.desiredPlaying || !NoSlots(seeks) {
        return;
      }
      LoopBoundaries(View());
      var end := StretchEnd(life.timeline.value, life.loop);
      if end.Err? {
        return Threw;
      }
      var observed := media.Read();
      if tick >= end.value || observed.ended {
        var start := FrameToTick(life.loop.value.startFrame, life.timeline.value.frameRate, Exact);
        if start.Err? {
          return Threw;
        }
        var reply := Seek(start.value, ClipLoop, None);
        turn := TurnOf(reply);
      }
    }

    // ----- Frames -----

    /** Any callback ever requested may arrive; only FrameStep says what it can do. */
    method OnFrame(h: nat, tick: Option<int>, at: real) returns (turn: Turn, current: bool)
      requires Valid(View()) && h in frames.armed
      modifies this
      ensures !old(CurrentFrame(frames.armed[h], seeks, frames)) ==> View() == old(View())
      ensures TakenIfCurrent(old(View()), View(), h, tick, current)
      ensures TurnEnds(View(), turn) && FrameStep(old(View()), View(), h, tick)
    {
      hide Core, Valid, Quiet, FrameStep, Contained, Taken, ObservePresentation, Eligible, Unplayable, Abandoned;
      ghost var s0 := View();
      QuietReflexive(s0);
      QuietIsFrameStep(s0, s0, h, tick);
      if !CurrentFrame(frames.armed[h], seeks, frames) || !Live(life.readiness) {
        return Done, false;
      }
      frames := frames.(handle := None);
      ghost var s1 := View();
      BesideIsValid(s0, s1);
      turn, current := ConsiderFrame(h, tick, at);
      ghost var s2 := View();
      QuietReflexive(s2);
      if turn.Done? {
        ArmFrames();
        BesideIsValid(s2, View());
        ContainedLive(s2, View());
      }
      FrameThenQuiet(s1, s2, View(), h, tick);
      HandleTaken(s0, s1, View(), h, tick);
      if current && MustTake(s0, h, tick) {
        TakenStands(s0, s1, s2, tick, View());
      }
    }

    method ConsiderFrame(h: nat, tick: Option<int>, at: real) returns (turn: Turn, current: bool)
      requires Valid(View()) && h in frames.armed && CurrentFrame(frames.armed[h], seeks, frames) && Live(life.readiness)
      modifies this
      ensures TakenIfCurrent(old(View()), View(), h, tick, current) && Live(life.readiness)
      ensures TurnEnds(View(), turn) && FrameStep(old(View()), View(), h, tick)
    {
      hide Core, Valid, Quiet, FrameStep, Contained, Taken, ObservePresentation, Unplayable, Abandoned;
      ghost var s1 := View();
      QuietReflexive(s1);
      QuietIsFrameStep(s1, s1, h, tick);
      turn := Done;
      var callback := frames.armed[h];
      var source := media.Read();
      current := source.currentSource;
      if life.metadataReady && current && tick.Some? && seeks.pending.None? && Eligible(seeks, callback) {
        var next := ObservePresentation(seeks.state, callback.generation, callback.epoch, tick.value, true);
        if next.Some? {
          turn := AcceptFrame(h, next.value, tick.value, at);
        }
      }
    }

    /**
     * The frame becomes the position; if it shows the owning request, that request is presented and playback resumes.
     * There is an owner on playable media only, so its tolerance exists.
     */
    method AcceptFrame(h: nat, next: SeekState, tick: int, at: real) returns (turn: Turn)
      requires Valid(View()) && h in frames.armed && CurrentFrame(frames.armed[h], seeks, frames)
      requires seeks.pending.None? && life.metadataReady && Live(life.readiness)
      requires ObservePresentation(seeks.state, frames.armed[h].generation, frames.armed[h].epoch, tick, true) == Some(next)
      modifies this
      ensures Live(life.readiness) && Taken(old(View()), View(), Some(tick))
      ensures TurnEnds(View(), turn) && FrameStep(old(View()), View(), h, Some(tick))
    {
      PresentedPosition(seeks.state, frames.armed[h], tick, next);
      hide Core, Valid, Quiet, FrameStep, Contained, PresentedSeeks, ObservePresentation, Taken, Unplayable, Abandoned;
      ghost var s0 := View();
      ValidFacts(s0);
      var toleranceTicks := Tolerance(life.timeline.value);
      var owner := Owner(seeks);
      var rateOwner := frames.armed[h].rateOwner;
      var shown := Shows(seeks, tick, toleranceTicks);
      PresentedFields(seeks, next, tick, toleranceTicks);
      seeks := PresentedSeeks(seeks, next, tick, toleranceTicks);
      if shown {
        ClearTimer(PresentationTimer);
      }
      ghost var s1 := View();
      PresentedIsValid(s0, s1, next, h, tick, toleranceTicks);
      turn := AfterPresented(shown && seeks.active.None?, owner.None?, tick, at, rateOwner);
      FrameThenQuiet(s0, s1, View(), h, Some(tick));
      PresentedIsTaken(s0, next, tick, s1, View());
    }

    method AfterPresented(resume: bool, unowned: bool, tick: int, at: real, rateOwner: nat) returns (turn: Turn)
      requires Valid(View()) && Live(life.readiness)
      modifies this
      ensures TurnEnds(View(), turn) && Quiet(old(View()), View()) && Live(life.readiness)
    {
      hide Core, Valid, Quiet, Contained, Unplayable, Abandoned;
      ghost var s1 := View();
      QuietReflexive(s1);
      if resume {
        ResumeDesired();
        ContainedLive(s1, View());
      }
      ghost var s2 := View();
      NoteAdvance(tick, at);
      BesideIsValid(s2, View());
      ghost var s3 := View();
      QuietThenContained(s1, s2, s3);
      turn := FinishFrame(unowned, tick, at, rateOwner);
      QuietTransitive(s1, s3, View());
    }

    /** Ten healthy seconds of advancing frames forgive earlier failures. */
    method NoteAdvance(tick: int, at: real)
      modifies `health, `recovery
      ensures recovery.attempts == old(recovery).attempts && recovery.log == old(recovery).log
      ensures recovery.target == old(recovery).target
      ensures recovery.consecutiveFailures in {0, old(recovery).consecutiveFailures}
    {
      if health.lastFrameTick.Some? && tick > health.lastFrameTick.value && life.desiredPlaying
         && seeks.active.None? && seeks.waiter.None? {
        health := health.(lastAdvancingAt := at,
                          healthySince := if health.healthySince.None? then Some(at) else health.healthySince);
        if at - health.healthySince.value >= 10_000.0 {
          recovery := recovery.(consecutiveFailures := 0);
        }
      } else if health.lastFrameTick.Some? && tick < health.lastFrameTick.value {
        health := health.(healthySince := None);
      }
      health := health.(lastFrameTick := Some(tick));
    }

    method FinishFrame(unowned: bool, tick: int, at: real, rateOwner: nat) returns (turn: Turn)
      requires Valid(View()) && Live(life.readiness)
      modifies this
      ensures TurnEnds(View(), turn) && Quiet(old(View()), View()) && Live(life.readiness)
    {
      hide Core, Valid, Quiet, Contained, Unplayable, Abandoned;
      ghost var s0 := View();
      QuietReflexive(s0);
      if unowned {
        var threw := ObserveRateFrame(tick, at, rateOwner);
        ContainedLive(s0, View());
        if threw {
          return Threw;
        }
      }
      ghost var s1 := View();
      turn := MaybeLoop(tick);
      QuietTransitive(s0, s1, View());
    }

    // ----- Timers -----

    /** A timeout fails whatever request it guards and recovers; a stale handle changes nothing. */
    method OnTimer(name: TimerName, handle: nat) returns (turn: Turn)
      requires Valid(View())
      modifies this
      ensures TurnEnds(View(), turn) && Quiet(old(View()), View())
      ensures !(name in old(timers).running && old(timers).running[name].handle == handle) ==> View() == old(View())
      ensures Expires(old(View()), name, handle) && name == NativeTimer ==> RequestTimedOut(old(View()), View(), old(seeks).active)
      ensures Expires(old(View()), name, handle) && name == PresentationTimer ==>
                RequestTimedOut(old(View()), View(), old(seeks).waiter)
      ensures Expires(old(View()), name, handle) && name == ReadinessTimer ==>
                GivenUp(old(View()), View())
    {
      hide Core, Valid, Quiet, AlmostValid, Advanced, Contained, Unplayable, Abandoned;
      ghost var s0 := View();
      QuietReflexive(s0);
      turn := Done;
      if name !in timers.running || timers.running[name].handle != handle {
        return;
      }
      var timer := timers.running[name];
      if timer.generation != seeks.state.generation || !Live(life.readiness) {
        StaleTimerIsHarmless(s0, name);
        ClearTimer(name);
        return;
      }
      GuardOwners(s0);
      FiredTimer(s0, s0.(timers := s0.timers.(running := s0.timers.running - {name})), name);
      ClearTimer(name);
      ghost var s1 := View();
      match name
      case NativeTimer =>
        if seeks.active.Some? && seeks.active.value.id == timer.owner {
          seeks := ActiveFailed(seeks);
          ghost var s2 := View();
          TimedOutKeepsCore(s0, s2);
          Recover();
          QuietThenContained(s0, s2, View());
          TimedOutStands(s0, s2, View());
        }
      case PresentationTimer =>
        if seeks.waiter.Some? && seeks.waiter.value.id == timer.owner {
          seeks := WaiterFailed(seeks);
          ghost var s2 := View();
          TimedOutKeepsCore(s0, s2);
          Recover();
          QuietThenContained(s0, s2, View());
          TimedOutStands(s0, s2, View());
        }
      case DispatchTimer =>
        turn := DispatchPending();
        QuietTransitive(s0, s1, View());
      case ReadinessTimer =>
        life := life.(finishOpen := false);
        ghost var s2 := View();
        CoreIgnoresPromises(s1, s2);
        QuietTransitive(s0, s1, s2);
        Recover();
        QuietThenContained(s0, s2, View());
      case PlayTimer =>
        PlayTimedOut(timer.owner, timer.generation);
        QuietThenContained(s0, s1, View());
      case RateTimer =>
        if timer.owner == rates.token {
          var threw := WatchRate();
          QuietThenContained(s0, s1, View());
          turn := if threw then Threw else Done;
        }
      case MetricsTimer =>
        var threw := OnMetrics();
        QuietThenContained(s0, s1, View());
        turn := if threw then Threw else Done;
    }

    method PlayTimedOut(token: nat, generation: nat)
      requires Valid(View())
      modifies this
      ensures Valid(View()) && Contained(old(View()), View())
    {
      hide Core, Valid, Contained;
      ghost var s0 := View();
      ContainedReflexive(s0);
      if CurrentPlay(token, generation) {
        life := life.(finishPlay := None);
        BesideIsValid(s0, View());
        ghost var s1 := View();
        LiveFacts(s1);
        Recover();
        ContainedTransitive(s0, s1, View());
      }
    }

    /** Five seconds of buffering spend the fallback, then its reload, then an ordinary reload. */
    method OnMetrics() returns (threw: bool)
      requires Valid(View()) && Live(life.readiness)
      modifies this
      ensures Valid(View()) && Contained(old(View()), View())
      ensures threw ==> Unplayable(life)
    {
      hide Core, Valid, Contained, Unplayable;
      threw := false;
      ghost var s0 := View();
      var observed := media.Read();
      var now := Now();
      if life.metadataReady && life.desiredPlaying && !observed.hidden && !observed.paused && observed.readyState < 3
         && health.waitingSince.None? {
        health := health.(waitingSince := Some(now));
      }
      BesideIsValid(s0, View());
      ghost var s1 := View();
      if health.waitingSince.Some? && life.desiredPlaying && !observed.hidden && NoSlots(seeks)
         && now - (if health.waitingSince.value < health.lastAdvancingAt then health.lastAdvancingAt else health.waitingSince.value)
            >= 5_000.0 {
        BufferingFailed();
      } else {
        threw := WatchRate();
        if !threw {
          ghost var s2 := View();
          Later(MetricsTimer, 0);
          BesideIsValid(s2, View());
          ContainedTransitive(s1, s2, View());
        }
      }
      ContainedTransitive(s0, s1, View());
    }

    method BufferingFailed()
      requires Valid(View()) && Live(life.readiness)
      modifies this
      ensures Valid(View()) && Contained(old(View()), View())
    {
      hide Core, Valid, Contained;
      ghost var s0 := View();
      LiveFacts(s0);
      if rates.rate.limitation {
        FailRate(Limited);
        return;
      }
      if rates.rate.selected != 1.0 && rates.lastVerified != Some(rates.rate.selected) {
        FailRate(Limited);
        ghost var s1 := View();
        if life.readiness != Ready {
          return;
        }
        ContainedReady(s0, s1);
        LiveFacts(s1);
        ReloadSpentKeepsCore(s1);
        rates := rates.(fallbackReloaded := true, fallbackReloads := rates.fallbackReloads + 1);
        Recover();
        SpentThenReloaded(s1, View());
        ContainedTransitive(s0, s1, View());
        return;
      }
      Recover();
    }

    // ----- Native events -----

    /** Listeners of an ended generation, and of degraded or closed media, do nothing. */
    method OnNative(event: MediaEvent, generation: nat) returns (turn: Turn)
      requires Valid(View())
      modifies this
      ensures TurnEnds(View(), turn) && Quiet(old(View()), View())
      ensures generation != old(seeks).state.generation || !Live(old(life).readiness) || old(life).readiness == Degraded ==>
                View() == old(View())
    {
      hide Core, Valid, Quiet, AlmostValid, Contained, Unplayable, Abandoned, FirstThingDone;
      ghost var s0 := View();
      QuietReflexive(s0);
      turn := Done;
      if generation != seeks.state.generation || !Live(life.readiness) || life.readiness == Degraded {
        return;
      }
      if event == LoadStart {
        life := life.(loadStarted := true);
        LiveFacts(s0);
        CoreIgnoresPromises(s0, View());
        return;
      }
      var source := media.Read();
      if !life.loadStarted || !source.currentSource {
        return;
      }
      var observed := media.Read();
      if event == LoadedMetadata && observed.readyState >= 1 && !life.metadataReady {
        ghost var moved;
        turn, moved := BecomeReady();
        return;
      }
      if !life.metadataReady && event != ErrorEvent {
        return;
      }
      turn := HandleEvent(event, observed);
      ghost var s1 := View();
      if turn.Done? && event != TimeUpdate && Live(life.readiness) {
        var threw := WatchRate();
        QuietThenContained(s0, s1, View());
        turn := if threw then Threw else Done;
      }
    }

    /**
     * Readiness: the queued seek, the interrupted position or the desired playback goes first, in that order, and then a
     * frame is asked for. moved is the state before that last step. On unplayable media the queued seek is lost.
     */
    method BecomeReady() returns (turn: Turn, ghost moved: State)
      requires Valid(View()) && Live(life.readiness) && life.readiness != Degraded && !life.metadataReady
      modifies this
      ensures turn.Done? ==> FirstThingDone(old(View()), moved) && View() == moved.(frames := frames)
      ensures old(seeks).pending.Some? ==>
                turn == if Unplayable(old(life)) then Lost(old(seeks).pending.value.id) else Done
      ensures TurnEnds(View(), turn) && Quiet(old(View()), View())
    {
      hide Core, Valid, Quiet, AlmostValid, Contained, Advanced, SeekAnswered, Unplayable, Abandoned;
      ghost var s0 := View();
      NotReadyYet(s0);
      life := life.(metadataReady := true, readiness := Ready, finishOpen := false);
      ClearTimer(ReadinessTimer);
      ghost var s1 := View();
      ReadyIsAlmostValid(s0, s1);
      SamePlayability(s0.life, s1.life);
      QuietReflexive(s1);
      assert s1 == Readied(s0);
      turn := Done;
      if seeks.pending.Some? {
        turn := DispatchPending();
      } else if recovery.target.Some? {
        var target := recovery.target.value;
        recovery := recovery.(target := None);
        ghost var s2 := View();
        TargetTaken(s1, s2);
        var reply := Seek(target, RecoverySeek, None);
        turn := TurnOf(reply);
        AnsweredQuietly(s2, View(), target, RecoverySeek, reply);
        assert s2 == Readied(s0).(recovery := Readied(s0).recovery.(target := None));
        QuietTransitive(s1, s2, View());
      } else {
        ResumeDesired();
        ContainedLive(s1, View());
      }
      moved := View();
      QuietTransitive(s0, s1, moved);
      if turn.Done? {
        ArmFrames();
        BesideIsValid(moved, View());
        QuietThenContained(s0, moved, View());
      }
    }

    method HandleEvent(event: MediaEvent, observed: MediaObservation) returns (turn: Turn)
      requires Valid(View()) && Live(life.readiness)
      modifies this
      ensures TurnEnds(View(), turn) && Quiet(old(View()), View()) && Live(life.readiness)
    {
      hide Core, Valid, Quiet, Contained, Unplayable, Abandoned;
      turn := Done;
      ghost var s0 := View();
      QuietReflexive(s0);
      LiveFacts(s0);
      match event
      case SeekedEvent =>
        var landed := OnSeeked();
      case CanPlay => health := health.(waitingSince := None);
      case Playing => health := health.(waitingSince := None);
      case Waiting => NoteStall();
      case Stalled => NoteStall();
      case Pause =>
        health := health.(healthySince := None);
        ResetRate(false);
      case Ended =>
        if life.loop.Some? && life.desiredPlaying {
          turn := MaybeLoop(if observed.tick.Some? then observed.tick.value else life.timeline.value.replayEnd);
        } else {
          life := life.(desiredPlaying := false);
          CoreIgnoresPromises(s0, View());
        }
      case ErrorEvent =>
        if observed.failed {
          Recover();
          ContainedLive(s0, View());
        }
      case TimeUpdate =>
        if !media.hasVideoFrameCallback && observed.tick.Some? {
          turn := MaybeLoop(observed.tick.value);
        }
      case RateChange =>
        rates := rates.(rate := rates.rate.(applied := observed.rate));
        BesideIsValid(s0, View());
        ContainedLive(s0, View());
      case VisibilityChange =>
        health := health.(waitingSince := None);
        ResetRate(false);
      case _ =>
    }

    method NoteStall()
      requires Valid(View())
      modifies `health, `rates, `timers, `nowMs
      ensures Valid(View()) && Quiet(old(View()), View())
    {
      hide Core, Valid, Quiet, Contained;
      ghost var s0 := View();
      if health.waitingSince.None? {
        var now := Now();
        health := health.(waitingSince := Some(now));
      }
      health := health.(healthySince := None);
      BesideIsValid(s0, View());
      ghost var s1 := View();
      ContainedLive(s0, s1);
      ResetRate(true);
      QuietTransitive(s0, s1, View());
    }

    method ResetRate(preserveCapabilityAttempt: bool)
      requires Valid(View())
      modifies `rates, `timers
      ensures Valid(View()) && Quiet(old(View()), View()) && rates == ResetObservation(old(rates), preserveCapabilityAttempt)
    {
      hide Core, Valid, Quiet, Contained;
      ghost var s0 := View();
      ClearTimer(RateTimer);
      rates := ResetObservation(rates, preserveCapabilityAttempt);
      BesideIsValid(s0, View());
      ContainedLive(s0, View());
    }

    // ----- Public entry points -----

    /** A new medium: all older work is superseded, and the reload and fallback budgets start over. */
    method OpenMedia(mediaId: string, t: MediaTimeline) returns (threw: bool)
      requires Valid(View()) && ValidTimeline(t)
      modifies this
      ensures Valid(View()) && Quiet(old(View()), View())
      ensures old(life).readiness == Disposed || mediaId != t.mediaId ==> View() == old(View())
      ensures threw <==> old(life).readiness != Disposed && mediaId != t.mediaId
      ensures old(life).readiness != Disposed && !threw ==>
                && NoSlots(seeks) && life.readiness in {Loading, Recovering, Degraded}
                && frames.fence >= old(frames).nextHandle && life.timeline == Some(t) && life.loop.None?
    {
      hide Core, Valid, Quiet, Contained, PlayableTimeline, ValidTimeline;
      ghost var s0 := View();
      QuietReflexive(s0);
      ValidFacts(s0);
      if life.readiness == Disposed {
        return false;
      }
      if mediaId != t.mediaId {
        return true;
      }
      OpenedKeepsCore(s0, t);
      CancelWork(Superseded);
      seeks := seeks.(state := CreateSeekState(seeks.state.generation + 1));
      recovery := Recovery(None, 0, 0, [], []);
      rates := rates.(rate := RateState(1.0, 1.0, 1.0, None, Pending, false), lastVerified := None,
                      fallbackReloaded := false, fallbacks := 0, fallbackReloads := 0);
      life := life.(readiness := Loading, timeline := Some(t), loop := None, desiredPlaying := false,
                    activationRequired := false, finishOpen := true);
      ghost var s1 := View();
      assert s1 == Opened(s0, t);
      BeginLoad();
      QuietThenContained(s0, s1, View());
      ContainedFence(s1, View());
      ContainedSelection(s1, View());
      threw := false;
    }

    method PlayRequest()
      requires Valid(View())
      modifies this
      ensures Valid(View()) && Quiet(old(View()), View())
    {
      hide Core, Valid, Quiet, Contained;
      ghost var s0 := View();
      QuietReflexive(s0);
      if !Live(life.readiness) {
        return;
      }
      LiveFacts(s0);
      life := life.(desiredPlaying := true);
      CoreIgnoresPromises(s0, View());
      ghost var s1 := View();
      var now := Now();
      health := health.(lastAdvancingAt := now);
      BesideIsValid(s1, View());
      ghost var s2 := View();
      StartPlay();
      ContainedTransitive(s1, s2, View());
      QuietThenContained(s0, s1, View());
    }

    method PauseRequest()
      requires Valid(View())
      modifies `life, `timers
      ensures Valid(View()) && Quiet(old(View()), View())
      ensures Live(old(life).readiness) ==> !life.desiredPlaying && life.finishPlay.None?
    {
      hide Core, Valid, Quiet;
      ghost var s0 := View();
      QuietReflexive(s0);
      if Live(life.readiness) {
        life := life.(desiredPlaying := false);
        CancelPlay();
        PlayCancelled(s0, View());
      }
    }

    /** A new selection restores the one fallback and the one fallback reload, and no more. */
    method SetRate(selected: real) returns (refused: bool, threw: bool)
      requires Valid(View())
      modifies this
      ensures Valid(View()) && Quiet(old(View()), View())
      ensures refused <==> selected !in RATES
      ensures threw ==> !refused && Unplayable(life)
      ensures refused || !Live(old(life).readiness) ==> View() == old(View())
      ensures !refused && Live(old(life).readiness) ==>
                rates.rate.selected == selected && (rates.rate.limitation || rates.rate.effective == selected)
    {
      hide Core, Valid, Quiet, Contained, Unplayable;
      ghost var s0 := View();
      QuietReflexive(s0);
      if selected !in RATES {
        return true, false;
      }
      refused, threw := false, false;
      if Live(life.readiness) {
        SelectedIsValid(s0, selected);
        rates := ResetObservation(rates, false);
        ClearTimer(RateTimer);
        rates := rates.(fallbackReloaded := false, fallbacks := 0, fallbackReloads := 0,
                        rate := RateState(selected, rates.rate.applied, selected, None, Pending, false));
        ghost var s1 := View();
        assert s1 == Selected(s0, selected);
        threw := ApplyAndWatch();
        QuietThenContained(s0, s1, View());
        ContainedSelection(s1, View());
      }
    }

    method ApplyAndWatch() returns (threw: bool)
      requires Valid(View()) && Live(life.readiness)
      modifies this
      ensures Valid(View()) && Contained(old(View()), View())
      ensures threw ==> Unplayable(life)
    {
      hide Core, Valid, Contained, Unplayable;
      ghost var s0 := View();
      ApplyEffectiveRate();
      ghost var s1 := View();
      ContainedLive(s0, s1);
      RearmFrames();
      BesideIsValid(s1, View());
      ghost var s2 := View();
      threw := WatchRate();
      ContainedTransitive(s0, s1, s2);
      ContainedTransitive(s0, s2, View());
    }

    method SetLoopRange(range: Option<ClipRange>) returns (refused: bool, threw: bool)
      requires Valid(View()) && (range.Some? ==> range.value.startFrame >= 0)
      modifies this
      ensures Valid(View()) && Quiet(old(View()), View())
      ensures refused || !Live(old(life).readiness) ==> View() == old(View())
      ensures !refused && Live(old(life).readiness) ==> life.loop == range
      ensures refused <==> Live(old(life).readiness) && LoopRefused(old(life).timeline, range)
      ensures threw ==> !refused && Unplayable(life)
    {
      hide Core, Valid, Quiet, CreateClipRange, LoopFits, Unplayable;
      ghost var s0 := View();
      QuietReflexive(s0);
      refused, threw := false, false;
      ValidFacts(s0);
      if life.timeline.None? || !Live(life.readiness) {
        return;
      }
      LiveFacts(s0);
      if range.Some? {
        var created := CreateClipRange(life.timeline.value, range.value.startFrame, range.value.endFrameExclusive, range.value.mediaId);
        if created.Err? {
          return true, false;
        }
      }
      assert !LoopRefused(life.timeline, range);
      CreatedRangeFits(life.timeline.value, range);
      threw := UseLoop(range);
    }

    method UseLoop(range: Option<ClipRange>) returns (threw: bool)
      requires Valid(View()) && Live(life.readiness) && life.timeline.Some? && LoopFits(life.timeline.value, range)
      modifies this
      ensures Valid(View()) && Quiet(old(View()), View()) && life.loop == range
      ensures threw ==> Unplayable(life)
    {
      hide Core, Valid, Quiet, Contained, LoopFits, Unplayable;
      ghost var s0 := View();
      LiveFacts(s0);
      life := life.(loop := range);
      ghost var s1 := View();
      CoreIgnoresPromises(s0, s1);
      ResetRate(false);
      ghost var s2 := View();
      QuietTransitive(s0, s1, s2);
      threw := WatchRate();
      QuietThenContained(s0, s2, View());
      ContainedSelection(s2, View());
    }

    /** A manual retry forgives every earlier reload and reloads now. */
    method Retry()
      requires Valid(View())
      modifies this
      ensures Valid(View()) && Quiet(old(View()), View())
      ensures Live(old(life).readiness) ==> NoSlots(seeks) && life.readiness in {Recovering, Degraded} && recovery.log != []
      ensures !Live(old(life).readiness) ==> View() == old(View())
    {
      hide Core, Valid, Quiet, Contained;
      ghost var s0 := View();
      QuietReflexive(s0);
      if life.timeline.None? || !Live(life.readiness) {
        ValidFacts(s0);
        return;
      }
      LiveFacts(s0);
      ManualResetKeepsCore(s0);
      recovery := recovery.(consecutiveFailures := 0, attempts := [], log := []);
      ghost var s1 := View();
      Recover();
      QuietThenContained(s0, s1, View());
    }

    /** Disposal settles everything, leaves no timer and cancels every armed frame. */
    method Dispose()
      requires Valid(View())
      modifies this
      ensures Valid(View()) && Quiet(old(View()), View())
      ensures life.readiness == Disposed
      ensures old(life).readiness != Disposed ==> frames.fence == old(frames).nextHandle
      ensures old(life).readiness != Disposed ==>
                && NoSlots(seeks) && timers.running == map[]
                && forall h :: h in frames.armed ==> !CurrentFrame(frames.armed[h], seeks, frames)
    {
      hide Core, Valid, Quiet;
      ghost var s0 := View();
      QuietReflexive(s0);
      if life.readiness != Disposed {
        ValidFacts(s0);
        DisposedIsValid(s0);
        NoCurrentFrames(s0);
        CancelWork(Superseded);
        life := life.(readiness := Disposed, desiredPlaying := false);
      }
    }

    // ----- Runs -----

    method Step(e: Event) returns (turn: Turn)
      requires Valid(View()) && Possible(View(), e)
      modifies this
      ensures TurnEnds(View(), turn) && StepKept(old(View()), View(), e)
    {
      hide Core, Valid, Quiet, Contained, FrameStep, ValidTimeline, JoinedOrNew, StepKept, Unplayable, Abandoned;
      ghost var s0 := View();
      var threw := false;
      turn := Done;
      match e {
        case SeekTo(target, reason, playAfter) =>
          var reply := Seek(target, reason, playAfter);
          turn := TurnOf(reply);
        case Native(event, generation) => turn := OnNative(event, generation);
        case TimerFired(name, handle) => turn := OnTimer(name, handle);
        case FrameShown(h, tick, at) =>
          var current;
          turn, current := OnFrame(h, tick, at);
        case PlayAsked => PlayRequest();
        case PauseAsked => PauseRequest();
        case PlaySettled(token, generation, fulfilled, notAllowed) =>
          if fulfilled {
            threw := PlayFulfilled(token, generation);
          } else {
            PlayRejected(token, generation, notAllowed);
          }
          ContainedLive(s0, View());
        case RateSelected(selected) =>
          var refused;
          refused, threw := SetRate(selected);
        case LoopSelected(range) =>
          var refused;
          refused, threw := SetLoopRange(range);
        case RetryAsked => Retry();
        case OpenAsked(mediaId, t) =>
          var refused := OpenMedia(mediaId, t);
        case DisposeAsked => Dispose();
      }
      if threw {
        turn := Threw;
      }
      if e.FrameShown? {
        FrameStepIsKept(s0, View(), e);
      } else {
        QuietIsKept(s0, View(), e);
      }
    }

    /**
     * Any sequence of events, impossible ones skipped, is a trace, so every lemma about traces holds of every run. It ends
     * before the events do only where unplayable media lose a request, and the last turn still keeps what a step keeps.
     */
    method Run(events: seq<Event>) returns (ghost states: seq<State>, ghost taken: seq<Event>, lost: Option<nat>)
      requires Valid(View())
      modifies this
      ensures |states| > 0 && states[0] == old(View()) && |taken| <= |events|
      ensures lost.None? ==> Trace(states, taken) && Valid(View()) && states[|states| - 1] == View()
      ensures lost.Some? ==>
                && |taken| == |states| && Trace(states, taken[..|taken| - 1])
                && StepKept(states[|states| - 1], View(), taken[|taken| - 1]) && Abandoned(View(), lost.value)
    {
      hide Core, Valid, Quiet, FrameStep, StepKept, ValidTimeline, Unplayable, Abandoned;
      states, taken, lost := [View()], [], None;
      for i := 0 to |events|
        invariant Trace(states, taken) && |taken| <= i
        invariant states[0] == old(View()) && states[|states| - 1] == View()
        invariant Valid(View())
      {
        var possible := true;
        match events[i] {
          case FrameShown(h, _, _) => possible := h in frames.armed;
          case OpenAsked(_, t) => possible := ValidTimeline(t);
          case LoopSelected(range) => possible := range.None? || range.value.startFrame >= 0;
          case _ =>
        }
        if possible {
          var turn := Step(events[i]);
          assert taken == (taken + [events[i]])[..|taken|];
          taken := taken + [events[i]];
          if turn.Lost? {
            lost := Some(turn.id);
            return;
          }
          states := states + [View()];
        }
      }
    }
  }

  /** Losing a request is exactly what every state of a trace rules out. */
  lemma AbandonedIsUnaccountedFor(s: State, id: nat)
    requires Abandoned(s, id)
    ensures !AccountedFor(s, id) && !Valid(s)
  {
    if Valid(s) {
      UnplayableFacts(s);
    }
  }

  /** Validated, unplayable media lose a seek to their start that is made before the metadata arrives: it is never settled. */
  method LoseTheFirstSeek(media: MediaAdapter, t: MediaTimeline) returns (c: PlaybackController, reply: SeekReply)
    requires ValidTimeline(t) && !PlayableTimeline(t)
    ensures c.life.readiness == Degraded || (reply.Promised? && Abandoned(c.View(), reply.id))
  {
    hide Core, Valid, Quiet, ValidTimeline, PlayableTimeline, Abandoned, JoinedOrNew, Snap, FirstThingDone;
    c := new PlaybackController(media, 0, 0.0);
    var threw := c.OpenMedia(t.mediaId, t);
    reply := Immediate(Unavailable);
    if c.life.readiness != Degraded {
      StartCanBeSought(t);
      reply := c.Seek(0, Navigation, None);
      ValidFacts(c.View());
      ghost var moved;
      var turn;
      turn, moved := c.BecomeReady();
    }
  }

  /** One second of seven frames, straight from the wire, is such a medium. */
  method LoseASeekAtSevenFrames(media: MediaAdapter) returns (c: PlaybackController, reply: SeekReply)
    ensures ValidateMediaTimeline(SEVEN_FRAMES).Ok?
    ensures c.life.readiness == Degraded || (reply.Promised? && Abandoned(c.View(), reply.id))
  {
    hide ValidTimeline, PlayableTimeline, Abandoned, ValidateMediaTimeline;
    SevenFramesASecondCannotBePlayed();
    c, reply := LoseTheFirstSeek(media, ValidateMediaTimeline(SEVEN_FRAMES).value);
  }
}
