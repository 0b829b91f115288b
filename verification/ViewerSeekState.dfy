/** The pure seek record: which presented frame may become the authoritative position (app/src/viewerSeekState.ts). */
module ViewerSeekState {
  import opened Wrappers

  datatype SeekRequest = SeekRequest(generation: nat, epoch: nat, target: int, toleranceTicks: int)

  datatype SeekState = SeekState(
    generation: nat,
    nextEpoch: nat,
    requestedPreview: Option<int>,
    dispatched: Option<SeekRequest>,
    lastDispatched: Option<SeekRequest>,
    seekedObservation: Option<int>,
    presented: Option<int>)

  datatype SeekError = ToleranceOutOfRange

  function CreateSeekState(generation: nat): SeekState {
    SeekState(generation, 0, None, None, None, None, None)
  }

  function RequestPreview(state: SeekState, target: int): SeekState {
    state.(requestedPreview := Some(target))
  }

  function DispatchSeek(state: SeekState, target: int, toleranceTicks: int): Result<SeekState, SeekError> {
    if toleranceTicks < 0 then Err(ToleranceOutOfRange)
    else
      var request := SeekRequest(state.generation, state.nextEpoch + 1, target, toleranceTicks);
      Ok(state.(nextEpoch := state.nextEpoch + 1, requestedPreview := Some(target),
                dispatched := Some(request), lastDispatched := Some(request), seekedObservation := None))
  }

  function Distance(a: int, b: int): nat {
    if a < b then b - a else a - b
  }

  predicate Qualifying(request: SeekRequest, generation: nat, observed: int) {
    request.generation == generation && Distance(observed, request.target) <= request.toleranceTicks
  }

  function ObserveSeeked(state: SeekState, generation: nat, epoch: nat, observed: int): SeekState {
    var request := if state.dispatched.Some? then state.dispatched else state.lastDispatched;
    if request.None? || request.value.epoch != epoch || !Qualifying(request.value, generation, observed) then state
    else state.(seekedObservation := Some(observed))
  }

  /** None where the source hands back the very object it was given: the frame is refused. */
  function ObservePresentation(state: SeekState, generation: nat, epoch: Option<nat>, observed: int, rvfc: bool)
    : Option<SeekState>
  {
    if !rvfc then None
    else if state.dispatched.Some?
            && (epoch != Some(state.dispatched.value.epoch) || !Qualifying(state.dispatched.value, generation, observed)) then None
    else if state.dispatched.None? && generation != state.generation then None
    else Some(state.(presented := Some(observed), dispatched := None))
  }

  function BeginRecovery(state: SeekState): SeekState {
    SeekState(state.generation + 1, 0, state.requestedPreview, None, None, None, None)
  }

  // ----- Runs -----

  datatype SeekOp =
    | Preview(target: int)
    | Dispatch(target: int, toleranceTicks: int)
    | Seeked(generation: nat, epoch: nat, observed: int)
    | Frame(generation: nat, armedEpoch: Option<nat>, observed: int, rvfc: bool)
    | Recover

  function Apply(state: SeekState, op: SeekOp): SeekState {
    match op
    case Preview(target) => RequestPreview(state, target)
    case Dispatch(target, tolerance) =>
      var next := DispatchSeek(state, target, tolerance);
      if next.Ok? then next.value else state
    case Seeked(generation, epoch, observed) => ObserveSeeked(state, generation, epoch, observed)
    case Frame(generation, epoch, observed, rvfc) =>
      var next := ObservePresentation(state, generation, epoch, observed, rvfc);
      if next.Some? then next.value else state
    case Recover => BeginRecovery(state)
  }

  function Run(state: SeekState, ops: seq<SeekOp>): SeekState {
    if ops == [] then state else Apply(Run(state, ops[..|ops| - 1]), ops[|ops| - 1])
  }

  /** Every recorded request is of this generation and no newer than the epoch counter. */
  ghost predicate WellFormed(state: SeekState) {
    && (state.dispatched.Some? ==> state.lastDispatched == state.dispatched)
    && (state.lastDispatched.Some? ==>
          && state.lastDispatched.value.generation == state.generation
          && 0 < state.lastDispatched.value.epoch == state.nextEpoch
          && state.lastDispatched.value.toleranceTicks >= 0)
    && (state.nextEpoch > 0 ==> state.lastDispatched.Some?)
  }

  predicate Supersedes(op: SeekOp) {
    op.Recover? || (op.Dispatch? && op.toleranceTicks >= 0)
  }

  lemma {:induction false} RunProgress(state: SeekState, ops: seq<SeekOp>)
    requires WellFormed(state)
    ensures var after := Run(state, ops);
            && WellFormed(after)
            && after.generation >= state.generation
            && (after.generation == state.generation ==> after.nextEpoch >= state.nextEpoch)
            && ((exists op :: op in ops && Supersedes(op)) ==>
                  after.generation > state.generation || after.nextEpoch > state.nextEpoch)
  {
    if ops != [] {
      var front := ops[..|ops| - 1];
      RunProgress(state, front);
      assert forall op :: op in ops ==> op in front || op == ops[|ops| - 1];
    }
  }

  /**
   * A frame armed before a newer dispatch or recovery never becomes the position: whatever it shows and whatever else
   * happened in between, it is refused while that dispatch is outstanding, and for good once the generation moved on.
   */
  lemma StaleFrameRefused(armedIn: SeekState, ops: seq<SeekOp>, observed: int, rvfc: bool)
    requires WellFormed(armedIn) && exists op :: op in ops && Supersedes(op)
    ensures var now := Run(armedIn, ops);
            var epoch := if armedIn.dispatched.Some? then Some(armedIn.dispatched.value.epoch) else None;
            now.dispatched.Some? || now.generation != armedIn.generation ==>
              ObservePresentation(now, armedIn.generation, epoch, observed, rvfc) == None
  {
    RunProgress(armedIn, ops);
  }

  /** Over any run the position is only ever the tick of an accepted requestVideoFrameCallback frame. */
  lemma {:induction false} PositionComesFromAFrame(state: SeekState, ops: seq<SeekOp>)
    requires state.presented.None? && Run(state, ops).presented.Some?
    ensures exists i :: 0 <= i < |ops| && ops[i].Frame? && ops[i].rvfc
              && Some(ops[i].observed) == Run(state, ops).presented
              && ObservePresentation(Run(state, ops[..i]), ops[i].generation, ops[i].armedEpoch, ops[i].observed, true).Some?
  {
    var front, last := ops[..|ops| - 1], |ops| - 1;
    if !ops[last].Frame? || Run(state, ops) == Run(state, front) {
      PositionComesFromAFrame(state, front);
      var i :| 0 <= i < |front| && front[i].Frame? && front[i].rvfc
               && Some(front[i].observed) == Run(state, front).presented
               && ObservePresentation(Run(state, front[..i]), front[i].generation, front[i].armedEpoch, front[i].observed, true).Some?;
      assert front[..i] == ops[..i];
    }
  }
}
