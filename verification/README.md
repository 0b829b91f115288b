# Chronobreak viewer verification

A model of the hard logic of Chronobreak, a League of Legends recorder and replay viewer, with proofs of what that logic is
for. The viewer's TypeScript controllers drive things that answer late, out of order or not at all: a browser media element,
a backend with one snapshot token, a paged index, promises that settle after the screen has changed. Each controller keeps
a protocol of the form "one in flight, the latest one pending, stale answers refused". The model states those protocols and
proves what holds over every run of them. Beside them stand the exact replay-time arithmetic, the timeline's layout and event
folding, the bounded telemetry queue, and one concurrent Rust helper.

`dafny verify dfyconfig.toml` checks the whole project.

## How the model is built

- **Modules follow the source files**: `Playback` (with `ViewerSeekState` and `SeekTargets`), `Library`, `GameHistory`,
  `ReplayOverlay`, `ReplayData`, `MusicPreview`, `ReplayTime`, `ClipEditing`, `TimelineClusters`, `TimelineViewport`,
  `TimelineEventDisplay`, `ByteBudget`, `BenchmarkBuffer`. `StableSorting`, `Nonlinear` and `Wrappers` are helpers.
- **One step is one event-loop turn.** Everything a handler does before it awaits is atomic; what it awaits comes back as a
  step of its own, at any later time, in any order, or never. Where a promise runs through `then`, `catch` and `finally`
  (`GameHistory`), each callback is a step.
- **Controllers are classes** whose fields are the source's fields and whose methods assign them. Except in `Playback` each
  method is proved to compute a step function on the abstract state, and the properties are lemmas about all runs of those
  steps: a run is any sequence of states linked by enabled events, from the initial state.
- **Playback has an adversary instead of step functions**: `MediaAdapter` answers arbitrarily on every call, may throw, and may
  misreport what it was told. `PlaybackController.Run` takes any sequence of events (callbacks in any order, stale handles
  included) and produces a trace; the lemmas about traces therefore hold of every run. Exact conversions may throw: a turn ends
  as `Done`, `Threw`, or `Lost` with the request it took along. Termination of the mutually recursive
  `Recover`, `BeginLoad`, `ApplyEffectiveRate`, `FailRate` and `Degrade` is proved with the reloads and the one fallback that
  are left as the measure, for every such adapter.
- **Promises are numbered**, and a map records what each number settled to. "Settles once" is that a map entry, once there,
  stands in every later state; "nothing is lost" is that every number without an entry is still held somewhere that will
  settle it.
- Ticks, frames and counters are integers; pixels, zoom scales and clock readings are reals.

## Results that are not plain confirmations

- A validated timeline can still be one that cannot be played: `frameTicks()` converts one frame exactly and throws when a frame
  is not a whole number of ticks. `SeekTargets.PlayableIffFramesAreWholeTicks` gives the exact condition and
  `SeekTargets.SevenFramesASecondCannotBePlayed` a wire that passes validation and fails it. `open()` accepts such media. The
  throw comes inside `dispatchPending`, after the request has left the queue: "every seek promise settles" is false there.
  `Playback.LoseTheFirstSeek` shows it on all of them (`LoseASeekAtSevenFrames` on that wire), and
  `Playback.PlaybackController.DispatchPending` gives the condition: a dispatch loses its request if and only if the media is
  ready and unplayable. On all other media, and until then on these, `Playback.NoRequestIsLost` holds over every run.
- The floor/ceil frame round trip holds exactly when a frame lasts at least one tick
  (`ReplayTime.FloorCeilRoundTripIffFrameLastsATick`), and the default clip exists exactly when the recording lasts five
  seconds (`ClipEditing.DefaultClipSucceedsIffFiveSeconds`).
- `projectReplayIntervalToClipRange` refuses intervals that start at or after the end (`ReplayTime.NoRangePastTheEnd`).

## Model

| member | source | states |
|---|---|---|
| `Playback.NoRequestIsLost` | app/src/playbackController.ts:493-574 | in every state of every run each seek promise handed out is resolved, or is the one newest request, with a running timer of this generation that dispatches or fails it |
| `Playback.SettledOnce` | app/src/playbackController.ts:214-220 | over every run a seek promise resolves once: its outcome never changes |
| `Playback.FramesBeforeASeekAreDead` | app/src/playbackController.ts:555-563 | once a new seek is queued, no frame requested before it is ever accepted, in any order of later events |
| `Playback.FramesBeforeAReloadAreDead` | app/src/playbackController.ts:713-799 | once the media was reloaded, replaced or released, no frame requested before is ever accepted |
| `Playback.FramesOfOldGenerationsAreDead` | app/src/playbackController.ts:443-449 | however many reloads and opens lie between, a frame is accepted in no generation but its own |
| `Playback.PresentedOnlyByItsFrame` | app/src/playbackController.ts:443-491 | a seek resolves "presented" only through an accepted frame within tolerance of its target, while it owned the media |
| `Playback.PositionIsAnAcceptedFrame` | app/src/playbackController.ts:452-462 | the authoritative position is always the tick of a frame accepted in its own generation, version, intent and epoch |
| `Playback.ReloadsAreRationed` | app/src/playbackController.ts:713-730 | no closed ten-second interval holds three reloads since the last open or retry; one rate fallback and one fallback reload per attempt |
| `Playback.PlaybackController.Run` | app/src/playbackController.ts:732-799 | any sequence of calls, native events, timers and frames, against any adapter and any validated timelines, is a trace of valid states, up to a turn in which unplayable media lose a request |
| `Playback.PlaybackController.Seek` | app/src/playbackController.ts:530-574 | unavailable, superseded by a busy clip loop, joined to the request for the same frame, or queued as the only unsettled request; it throws on unplayable media alone |
| `Playback.PlaybackController.DispatchPending` | app/src/playbackController.ts:493-528 | a queued request stays with its dispatch timer running, becomes the native seek under a new epoch, is deduplicated, or fails; it is lost exactly when the media is ready and unplayable |
| `Playback.PlaybackController.OnSeeked` | app/src/playbackController.ts:576-601 | nothing unless the media stands at the active target; then the next request, the resumption, "unavailable" without frames, or the wait for the frame |
| `Playback.PlaybackController.OnFrame` | app/src/playbackController.ts:443-491 | a callback of an ended generation, version or intent changes nothing; one that qualifies on the current source is taken and presents the seek it shows |
| `Playback.PlaybackController.OnTimer` | app/src/playbackController.ts:180-189 | a stale handle changes nothing; an expired native or presentation timer fails the request it guards and reloads towards its position, or degrades |
| `Playback.PlaybackController.Recover` | app/src/playbackController.ts:713-730 | all requests fail, and the media reloads towards the wanted position, then the shown one, then the one being restored, or degrades |
| `Playback.PlaybackController.FailRate` | app/src/playbackController.ts:296-311 | terminates for every adapter; the speed is limited, or the media reloads or degrades |
| `Playback.PlaybackController.BeginLoad` | app/src/playbackController.ts:688-711 | every load has its readiness timer running or has already become a reload or a degradation |
| `Playback.PlaybackController.BecomeReady` | app/src/playbackController.ts:642-654 | the queued seek is dispatched, else the interrupted position is sought, else playback resumes as wanted, and then a frame is asked for; unplayable media lose the queued seek |
| `Playback.PlaybackController.SetRate` | app/src/playbackController.ts:775-784 | refused exactly for unlisted speeds, changing nothing; otherwise the selection is effective or limited, and the fallback budget starts over |
| `Playback.PlaybackController.SetLoopRange` | app/src/playbackController.ts:790-794 | refused exactly for a range outside the open recording, changing nothing; otherwise the loop is the range |
| `Playback.PlaybackController.OpenMedia` | app/src/playbackController.ts:743-762 | takes any validated timeline: settles all older work, fences off its frames and starts over; a wrong media identity changes nothing |
| `Playback.PlaybackController.Retry` | app/src/playbackController.ts:713-719 | a manual retry forgives earlier reloads and reloads at least once |
| `Playback.PlaybackController.Dispose` | app/src/playbackController.ts:796-802 | leaves no request, no timer and no frame that could still be accepted |
| `Playback.LoseTheFirstSeek` | app/src/playbackController.ts:501-514 | on every validated, unplayable timeline a seek made before the metadata arrives is lost: never resolved, and in no slot or in the native one without a timeout |
| `Playback.AbandonedIsUnaccountedFor` | app/src/playbackController.ts:501-514 | a lost request is the one thing a trace rules out |
| `SeekTargets.SeekLandsOnTheNearestPlayableFrame` | app/src/playbackController.ts:535-540 | every seek has a target: the start of the frame of the loop or recording nearest to the clamped preview |
| `SeekTargets.PlayableIffFramesAreWholeTicks` | app/src/playbackController.ts:284-285 | media can be played exactly when a frame lasts a whole number of ticks |
| `SeekTargets.SevenFramesASecondCannotBePlayed` | app/src/playbackController.ts:284-285 | one second of seven frames passes validation on the wire, and cannot be played |
| `ViewerSeekState.StaleFrameRefused` | app/src/viewerSeekState.ts:38-99 | after any run holding a dispatch or a recovery, a frame armed before it is refused |
| `ViewerSeekState.PositionComesFromAFrame` | app/src/viewerSeekState.ts:71-88 | over every run the position is one that a frame callback reported |
| `Library.RefreshIsNeverLost` | app/src/libraryController.ts:110-159 | a scan and an exclusive action never overlap, a requested scan waits only for one of them, and an open refresh promise is the newest one and will be answered |
| `Library.InstalledSnapshotIsFresh` | app/src/libraryController.ts:129-159 | a snapshot is installed only from a scan begun after the newest request, with no request or root change while it ran |
| `Library.RefreshAnswersOnlyTheNewest` | app/src/libraryController.ts:110-125 | a refresh promise gets an origin only from its own scan, with the snapshot just installed, and only if no refresh or root came since |
| `Library.StaleOriginsStayStale` | app/src/libraryController.ts:91-98 | an origin that was admitted and then refused is never admitted again, through any roots A, B, A |
| `Library.EveryCallSettlesOnce` | app/src/libraryController.ts:187-264 | reads and writes settle once; with nothing in flight none is open, and after disposal none is queued |
| `Library.WorkIsRefusedIffMoved` | app/src/libraryController.ts:196-206 | finished work is refused as stale exactly when root, request, navigation or lane moved since admission |
| `Library.ReadSucceedsOnlyIfNothingMoved` | app/src/libraryController.ts:225-249 | a read that succeeds saw no refresh, root change, navigation or newer read of its lane since its admission |
| `Library.WriteSucceedsOnlyIfNothingMoved` | app/src/libraryController.ts:187-208 | a write that succeeds saw no refresh or root change, and no navigation unless it is maintenance |
| `Library.StepKeepsInv` | app/src/libraryController.ts:99-159 | every step keeps the invariant, only moves counters up, and lets only finished work settle as current |
| `Library.LibraryController.Handle` | app/src/libraryController.ts:53-74 | the controller's methods compute exactly the step of each event |
| `Library.RefreshSupersedesEverything` | app/src/libraryController.ts:110-125 | a refresh makes every origin useless, rejects all queued work as stale, answers the promise before its own with nothing, and leaves its own to a scan running or due |
| `Library.EndedActionIsReconciled` | app/src/libraryController.ts:266-334 | after an action the snapshot it may have outdated admits nothing, a saved path is the root, and its holder alone gives up the exclusive lock |
| `Library.NewestReadWins` | app/src/libraryController.ts:225-249 | an admitted read makes every earlier read of its lane stale, queued or at work, and none of the other lane |
| `Library.LatestIntentTakesThePlace` | app/src/libraryController.ts:187-249 | an admitted read or write takes the place of the one queued for its lane or purpose, which alone is cancelled |
| `Library.LibraryController.FirstPurpose` | app/src/libraryController.ts:209-217 | maintenance before replay before history |
| `Library.CancelPending` | app/src/libraryController.ts:218-222 | cancels and deletes exactly the queued intents of the given keys, keeping the others in order |
| `GameHistory.InvalidationsAreQueried` | app/src/historyController.ts:96-141 | once the catalog is complete, data newer than the last answer means a query in flight, followed by another unless it is itself up to date |
| `GameHistory.ShownPageAnswersTheNewestQuery` | app/src/historyController.ts:104-128 | a page is shown only if it answers the present intent, and each row is an accepted recording shown once |
| `GameHistory.InitializationEndsAnswered` | app/src/historyController.ts:142-147 | initialization ends only with every import ready and a query dispatched at the current revision answered |
| `GameHistory.InitializationNeverStalls` | app/src/historyController.ts:142-154 | while a live context initializes, an import is running or due, or a query is in flight |
| `GameHistory.StepKeepsInv` | app/src/historyController.ts:60-207 | every callback, timer and call keeps the query and import bookkeeping consistent |
| `GameHistory.CheckRows` | app/src/historyController.ts:116-125 | the row loop accepts a page exactly when its rows are accepted recordings with distinct match groups |
| `GameHistory.HistoryController.Handle` | app/src/historyController.ts:28-44 | the controller's methods compute exactly the step of each event |
| `GameHistory.OwedQueryFollows` | app/src/historyController.ts:135-141 | the end of a query dispatches the one that is owed, for the newest intent and the newest data, before initialization can end |
| `GameHistory.ImportAnswersStayTheirOwn` | app/src/historyController.ts:163-193 | an answer for an ended context changes nothing, and a recording's progress leaves every other recording alone |
| `GameHistory.FailedImportEndsPreparation` | app/src/historyController.ts:193-201 | a failed import leaves nothing to import, and the data it may have changed is queried |
| `GameHistory.CatalogItemsKeepTheirPlaces` | app/src/historyController.ts:172-178 | recordings already waiting keep their places and take the newest readiness, new ones follow |
| `ReplayOverlay.AnswersAreFinal` | app/src/replayOverlayController.ts:55-66 | a sample returned while pages are still arriving is the one returned when all are there, even where ties are split across pages |
| `ReplayOverlay.AnswerIsTheLastSample` | app/src/replayOverlayController.ts:55-66 | an answer is the last sample at or before the position, by tick and observation |
| `ReplayOverlay.SampleAt` | app/src/replayOverlayController.ts:56-66 | the binary search returns that sample, or nothing where a coming page could change it |
| `ReplayOverlay.LoadedIsWhatArrived` | app/src/replayOverlayController.ts:67-149 | the list is exactly what the pages of the present selection carried; no page of an older one contributes |
| `ReplayOverlay.LoadingNeverStalls` | app/src/replayOverlayController.ts:67-72 | a selection that is loading has its load running or next in line |
| `ReplayOverlay.ScoreboardIsTheSamplesOwn` | app/src/replayOverlayController.ts:52-54 | a shown scoreboard is the one the sample's page carried |
| `ReplayOverlay.SharingKeepsScoreboards` | app/src/replayOverlayController.ts:150-169 | sharing payloads and boards loses nothing; storing fails exactly when a player has no scoreboard |
| `ReplayOverlay.StepKeepsInv` | app/src/replayOverlayController.ts:40-149 | samples stay strictly increasing and within the media, sample count and bytes stay within their caps |
| `ReplayOverlay.CheckSamples` | app/src/replayOverlayController.ts:96-101 | the loop accepts a page exactly when it is in order, in the media and after the cursor |
| `ReplayOverlay.OverlayController.Handle` | app/src/replayOverlayController.ts:19-32 | the controller's methods compute exactly the step of each event |
| `ReplayOverlay.OverlayController.PageArrives` | app/src/replayOverlayController.ts:91-136 | a page is refused, taken with or without scoreboards, or ends the load |
| `ReplayOverlay.SecondFailureEndsTheLoad` | app/src/replayOverlayController.ts:83-90 | a failed read is repeated once from the same place without scoreboards, keeping what is loaded; the second failure in a row gives the load up |
| `ReplayData.ContainingPageIsFresh` | app/src/replayDataController.ts:206-213 | a complete containing page, clipped to the viewport, is the answer of a fresh query: events, roster, identities, nothing following |
| `ReplayData.PagesFollowOn` | app/src-tauri/src/league_index/replay.rs:66-181 | a page and what its cursor continues are together what the query selects, in order, and a page that is not the last advances |
| `ReplayData.ShownWindowServesTheNewestRequest` | app/src/replayDataController.ts:195-286 | whatever becomes the shown window answers the newest request, as a fresh query would |
| `ReplayData.RequestShows` | app/src/replayDataController.ts:195-221 | a request changes the shown window at once only to a cached page that serves it as a fresh query would |
| `ReplayData.OnlyTheNewestIsFetched` | app/src/replayDataController.ts:239-266 | the index is asked for the newest request only; what was superseded before its turn is never fetched |
| `ReplayData.WindowShows` | app/src/replayDataController.ts:268-284 | an answer is shown only while its request is the newest, and then it is that request's page |
| `ReplayData.CacheStaysBounded` | app/src/replayDataController.ts:288-297 | at most four pages and 2,048 rows, distinct keys, each page the index's own answer; the capacity check never fires |
| `ReplayData.NoRequestIsLost` | app/src/replayDataController.ts:239-258 | a deferred window of a known source has a callback to come, a queued one waits for the window in flight, and what is due shows as loading |
| `ReplayData.StepKeepsInv` | app/src/replayDataController.ts:195-314 | every call, timer, microtask and answer keeps cache and intents consistent |
| `ReplayData.Find` | app/src/replayDataController.ts:206-213 | the exact page, else the first complete containing one |
| `ReplayData.ReplayDataController.Handle` | app/src/replayDataController.ts:66-91 | the controller's methods compute exactly the step of each event |
| `MusicPreview.PreviewsAreConserved` | app/src/importedMusicPreview.ts:15-37 | every prepared preview is handed to release exactly once, but for at most one still held |
| `MusicPreview.NothingHeldAfterDispose` | app/src/importedMusicPreview.ts:38-46 | once the work queued by dispose has settled, nothing is held and nothing is heard |
| `MusicPreview.HeardUrlIsTheNewest` | app/src/importedMusicPreview.ts:18-37 | a url is heard only while its preview is held, undisposed, with no newer selection |
| `MusicPreview.PublishedByTheNewestSelection` | app/src/importedMusicPreview.ts:27-33 | a url is published only by the link of the newest selection |
| `MusicPreview.ImportedMusicPreview.Handle` | app/src/importedMusicPreview.ts:10-46 | the methods compute exactly the step of each event |
| `MusicPreview.ImportedMusicPreview.AfterPrepare` | app/src/importedMusicPreview.ts:27-33 | a late preview is handed straight back, the newest one is held and published |
| `ReplayTime.Gcd` | app/src/replayTime.ts:181-186 | the loop computes the Euclidean divisor for every sign |
| `ReplayTime.GcdDividesBoth` | app/src/replayTime.ts:181-186 | the divisor divides both |
| `ReplayTime.GcdIsGreatest` | app/src/replayTime.ts:181-186 | every common divisor divides it |
| `ReplayTime.ParseRationalReduces` | app/src/replayTime.ts:188-199 | a parsed rational equals the wire's fraction and is in lowest terms |
| `ReplayTime.RationalEqualsIffCrossProductsEqual` | app/src/replayTime.ts:207-208 | parsed rationals are equal exactly when the wire's cross products are |
| `ReplayTime.CheckedScaleIsCorrect` | app/src/replayTime.ts:210-231 | the true floor, ceiling or ties-to-even nearest for all signs; exact scaling fails exactly when there is no exact result |
| `ReplayTime.RoundsUnique` | app/src/replayTime.ts:210-231 | each rounding mode names one integer |
| `ReplayTime.NearestIsNearest` | app/src/replayTime.ts:210-231 | the nearest rounding is the nearest multiple, an even one on a tie |
| `ReplayTime.FrameTickRoundTrip` | app/src/replayTime.ts:233-271 | where a frame lasts a tick, frame to tick to frame is the identity for each pair of inverse modes |
| `ReplayTime.FloorCeilRoundTripIffFrameLastsATick` | app/src/replayTime.ts:233-271 | and for floor/ceil only there |
| `ReplayTime.ValidatedTimelineClocksAgree` | app/src/replayTime.ts:273-341 | acceptance pins frame count, presentation timestamps and replay end to one duration |
| `ReplayTime.FrameBoundsInTimeline` | app/src/replayTime.ts:257-271 | floor and ceiling frames of a tick are the greatest boundary at or before and the least at or after it |
| `ReplayTime.ProjectionIsSmallestCover` | app/src/replayTime.ts:373-386 | the projected clip range covers the interval and lies inside every other that does |
| `ReplayTime.NoRangePastTheEnd` | app/src/replayTime.ts:373-386 | no range for an interval that starts at or after the end |
| `ClipEditing.LatestIndexAt` | app/src/viewerUtils.ts:23-32 | the last index at or before the tick |
| `ClipEditing.NearestIndexAt` | app/src/viewerUtils.ts:34-42 | an index of least distance, the earlier one on a tie |
| `ClipEditing.MinimumClipFramesIsFiveSeconds` | app/src/viewerUtils.ts:55-56 | the minimum is the least frame count lasting five seconds |
| `ClipEditing.DefaultClipSucceedsIffFiveSeconds` | app/src/viewerUtils.ts:72-122 | a default clip exists for every anchor and event list exactly when the recording lasts five seconds |
| `ClipEditing.DefaultClipHoldsTheAnchor` | app/src/viewerUtils.ts:90-122 | the default clip contains every anchor of the recording |
| `ClipEditing.MoveKeepsTheOtherEndpoint` | app/src/viewerUtils.ts:124-147 | an edit moves one endpoint as far as bounds and minimum allow and leaves the other |
| `ClipEditing.EditsKeepGoodClips` | app/src/viewerUtils.ts:124-147 | every sequence of edits keeps the clip in bounds and long enough |
| `TimelineClusters.ClusterTimelineEvents` | app/src/replayTimelineGeometry.ts:254-431 | a permutation of the visible events, sorted by x, every cluster narrower than twice the widest footprint |
| `TimelineClusters.GroupByCollision` | app/src/replayTimelineGeometry.ts:307-346 | the groups partition the items, and an item opens a group exactly when it clears the current one's representative |
| `TimelineClusters.RepresentativesKeepTheirDistance` | app/src/replayTimelineGeometry.ts:333-345 | neighbouring representatives are at least the required distance apart |
| `TimelineClusters.FindProtected` | app/src/replayTimelineGeometry.ts:383-398 | the first event of the greatest positive priority |
| `TimelineClusters.SplitGroup` | app/src/replayTimelineGeometry.ts:377-426 | the protected event stands alone exactly when it clears the rest |
| `TimelineViewport.NormalizedIsWithin` | app/src/replayTimelineGeometry.ts:105-121 | normalizing lands inside the recording, is idempotent, and changes exactly the viewports that were not |
| `TimelineViewport.PointingRoundTrip` | app/src/replayTimelineGeometry.ts:130-155 | a visible tick drawn and pointed at is the same tick |
| `TimelineViewport.Zoom` | app/src/replayTimelineGeometry.ts:157-200 | inside the recording, within a tick of the span aimed at, no narrower than the least, still showing the anchor in its place |
| `TimelineViewport.PanKeepsTheSpan` | app/src/replayTimelineGeometry.ts:202-218 | panning keeps the span, stays inside, and can be undone where it was not clamped |
| `TimelineViewport.RulerTicks` | app/src/replayTimelineGeometry.ts:55-103 | exactly the multiples of the interval in view, up to the cap |
| `TimelineViewport.RulerInterval` | app/src/replayTimelineGeometry.ts:72-87 | the least interval that is wide enough, else the greatest |
| `TimelineEventDisplay.TimelineShowsWhatItDoesNotFold` | app/src/timelineEventDisplay.ts:119-219 | the display is sorted and shows exactly the events it does not fold, each as often as it came |
| `TimelineEventDisplay.DroppedEventsAreRepresented` | app/src/timelineEventDisplay.ts:36-68 | every dropped event has a shown representative: the same kill, the same turret, or a kill of the same actor at most five seconds before with at least its streak |
| `TimelineEventDisplay.RaisedIsTheGreatestStreak` | app/src/timelineEventDisplay.ts:150-174 | a kill's multiplier is the greatest streak above one folded into it, and none where there is none |
| `TimelineEventDisplay.ShownMultiplierIsAStreak` | app/src/timelineEventDisplay.ts:165-187 | no shown multiplier is invented |
| `TimelineEventDisplay.NearestIsTheLatest` | app/src/timelineEventDisplay.ts:70-107 | the target is the latest candidate, the first on a tie, and absent exactly when there is none |
| `TimelineEventDisplay.NearestPreviousKill` | app/src/timelineEventDisplay.ts:70-107 | the loop finds that target |
| `TimelineEventDisplay.TimelineDisplayEvents` | app/src/timelineEventDisplay.ts:119-219 | the loops compute the display the lemmas are about |
| `ByteBudget.BudgetIsExact` | media-runtime/src/lib.rs:872-916 | in every interleaving the counter is exactly the bytes kept, never above the limit, and each output is a prefix of its stream |
| `ByteBudget.RefusedOnlyOverTheLimit` | media-runtime/src/lib.rs:891-894 | a reader is refused only if both streams together exceed the limit |
| `ByteBudget.BothSucceedIffTheyFit` | media-runtime/src/lib.rs:872-895 | both readers succeed exactly when both streams together fit, and then return them whole |
| `ByteBudget.StepKeepsInv` | media-runtime/src/lib.rs:896-916 | every read, load, swap and spurious failure keeps the accounts |
| `ByteBudget.SharedTotal.Reserve` | media-runtime/src/lib.rs:896-916 | the loop grants no more than asked and less only when the limit is reached, whatever the other reader does between its actions |
| `ByteBudget.SharedTotal.DrainBounded` | media-runtime/src/lib.rs:872-895 | the loop returns the whole stream, or a prefix with the budget spent |
| `ByteBudget.CompletionLoop` | media-runtime/src/lib.rs:757-835 | the select loop ends as its rounds say, and rounds after the end change nothing |
| `ByteBudget.ProcessSucceedsIffOutputFits` | media-runtime/src/lib.rs:702-841 | without outside failures a process that ends succeeds exactly when its outputs fit, and returns them byte for byte |
| `BenchmarkBuffer.EventsAreAccountedFor` | app/src/benchmark.ts:178-227 | offered is delivered, in flight, buffered or dropped; what is left is in order; the high-water mark stays within capacity |
| `BenchmarkBuffer.NothingDroppedMeansNothingLost` | app/src/benchmark.ts:429-447 | a run that dropped nothing has and had exactly what it was offered, in order |
| `BenchmarkBuffer.ReplayBenchmarkObserver.Handle` | app/src/benchmark.ts:429-447 | pushes, flush links, answers and failures compute exactly their steps |
| `BenchmarkBuffer.BoundedEventBuffer.Prepend` | app/src/benchmark.ts:201-208 | the newest returned events that fit go in front, the others are counted as dropped |
| `BenchmarkBuffer.BoundedEventBuffer.Drain` | app/src/benchmark.ts:210-213 | the oldest events, at most the asked number |
| `BenchmarkBuffer.ReplayBenchmarkObserver.BackendFails` | app/src/benchmark.ts:440-444 | a failed send puts its batch back in front and ends the flush |

## Left out

- Runs after unplayable media have lost a request: the trace ends with that turn, since the invariant is gone for good. Turns that throw without losing one are part of the run.
- Audio: mute, volume, autoplay diagnostics, and the audio facts of a timeline; they never touch seeks, frames or reloads.
- Session tokens, URLs and listener removal: a listener of an ended generation is refused by its generation, which is modelled.
- Subscribers, diagnostics and observation events, and re-entrant callbacks from them: each turn is atomic.
- Request objects are compared by number, not by identity; a superseded object is never looked at again.
- The wall clock is any nondecreasing real; timers may fire at any time after they are armed.
- Playback-rate measurement in floating point: ratios are reals, so rounding of `performance.now()` differences is not modelled.
- Clip durations of the library (requestDurations, drainDurations): the same one-in-flight queue again, bounded to eight ids.
- A library backend whose refresh throws before returning a promise: the answer is a failed scan.
- Results of mutations and settings saves: only what they do to the library is modelled, not the value handed to the screen.
- Liveness of a history origin: an origin is refused for good once it is refused, which is Library.StaleOriginsStayStale; the two controllers are not composed.
- History issues, readiness per media and the wording of errors.
- Overlay identities, spell assets, the initial loadout and the list of scoreboard item ids.
- JSON sizes of overlay pages: a page carries its two encoded sizes as numbers.
- Index initialization of the replay data (facts, import polling, scopes) and its status summary: scopes arrive as one event.
- A changing index: window queries are one fixed function of the recording, so a cached page is compared with what a fresh query would answer.
- Decimal parsing of wire integers, and browser seconds: numbers arrive as integers, floating-point seconds are not modelled.
- The three-argument ruler and viewport-around-range helpers beyond what is listed, and titles, summaries and categories of events.
- The 32-bit shift of the binary search's midpoint: lists are shorter than 2 to the 31.
- Starting, killing and reaping the child process, and pipe read errors: they appear only as the rounds of the completion loop.
- Memory ordering of the counter: loads and exchanges are single atomic actions on one location.
- Decoders and schema checks of the wire, the recorder status machine, drivers, fixtures and tools.
