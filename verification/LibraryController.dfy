/**
 * Library admission (app/src/libraryController.ts): one backend scan at a time, never beside an exclusive action; one
 * replay read and one index write in flight, the latest intent of each lane or purpose queued; stale answers refused.
 */
module Library {
  import opened Wrappers

  // ----- Data -----

  /** The identity an action keeps from selection to completion. */
  datatype Origin = Origin(root: string, rootEpoch: nat, request: nat, token: string, navigation: nat)

  datatype Snapshot = Snapshot(token: string, games: set<string>)

  datatype LibraryState = LibraryState(root: Option<string>, snapshot: Option<Snapshot>, request: nat, refreshing: bool,
                                       actionable: bool)

  datatype Answer = Refreshed(origin: Origin) | NoRefresh

  datatype Outcome = Resolved | Rejected | Stale

  datatype Lane = Details | Overlay

  datatype Purpose = Maintenance | Replay | History

  /** A running backend scan, with the counters and the completion it was begun with. */
  datatype Scan = Scan(request: nat, rootEpoch: nat, completion: Option<nat>)

  datatype Scans = Scans(active: Option<Scan>, pending: bool, completion: Option<nat>, next: nat, answers: map<nat, Answer>)

  /** navigationBound is false only for maintenance writes, which outlive the screen that asked for them. */
  datatype Intent = Intent(id: nat, origin: Origin, game: string, request: nat, navigationBound: bool)

  /** An intent whose run() is in progress; once settled it still occupies its owner until the finally callback. */
  datatype InFlight<K> = InFlight(key: K, intent: Intent, working: bool)

  /**
   * A one-in-flight queue with the latest intent per key, in Map order, and what every promise handed out settled to.
   * The counters at admission are kept per promise.
   */
  datatype Queue<K> = Queue(active: Option<InFlight<K>>, pending: seq<(K, Intent)>, next: nat, outcomes: map<nat, Outcome>,
                            admitted: map<nat, Stamp<K>>)

  /** The counters a promise was admitted under; keyRequest counts the reads of its lane. */
  datatype Stamp<K> = Stamp(origin: Origin, game: string, rootEpoch: nat, request: nat, navigation: nat,
                             navigationBound: bool, key: K, keyRequest: nat)

  datatype ActionKind = Mutation(independentExport: bool) | Settings | Storage

  datatype Action = Action(kind: ActionKind, origin: Origin)

  datatype State = State(ui: LibraryState, closed: bool, rootEpoch: nat, navigation: nat, scans: Scans,
                         exclusive: bool, actions: seq<Action>,
                         detailsRequest: nat, overlayRequest: nat, reading: Queue<Lane>, writing: Queue<Purpose>)

  // ----- Admission -----

  function CurrentOrigin(s: State): Option<Origin> {
    if s.ui.root.Some? && s.ui.snapshot.Some?
    then Some(Origin(s.ui.root.value, s.rootEpoch, s.ui.request, s.ui.snapshot.value.token, s.navigation))
    else None
  }

  predicate MayStart(s: State, o: Origin) {
    && !s.closed && s.ui.actionable && s.ui.root == Some(o.root)
    && o.rootEpoch == s.rootEpoch && o.request == s.ui.request
    && s.ui.snapshot.Some? && o.token == s.ui.snapshot.value.token
  }

  predicate MayPublish(s: State, o: Origin) {
    MayStart(s, o) && o.navigation == s.navigation
  }

  function LaneRequest(s: State, lane: Lane): nat {
    if lane.Details? then s.detailsRequest else s.overlayRequest
  }

  predicate CurrentRead(s: State, lane: Lane, i: Intent) {
    MayPublish(s, i.origin) && i.game in s.ui.snapshot.value.games && i.request == LaneRequest(s, lane)
  }

  predicate CurrentWrite(s: State, i: Intent) {
    if i.navigationBound then MayPublish(s, i.origin) else MayStart(s, i.origin)
  }

  // ----- The queue both readReplay and writeIndex use -----

  function IndexOf<K(==)>(pending: seq<(K, Intent)>, key: K): (i: nat)
    ensures i <= |pending|
    ensures i < |pending| ==> pending[i].0 == key
    ensures forall j :: 0 <= j < i ==> pending[j].0 != key
  {
    if pending == [] || pending[0].0 == key then 0 else 1 + IndexOf(pending[1..], key)
  }

  function PendingIds<K(==)>(q: Queue<K>, keys: set<K>): set<nat> {
    set i | 0 <= i < |q.pending| && q.pending[i].0 in keys :: q.pending[i].1.id
  }

  function Keep<K(==)>(pending: seq<(K, Intent)>, keys: set<K>): seq<(K, Intent)> {
    if pending == [] then []
    else (if pending[0].0 in keys then [] else [pending[0]]) + Keep(pending[1..], keys)
  }

  function Cancelled(outcomes: map<nat, Outcome>, ids: set<nat>): map<nat, Outcome> {
    outcomes + (map id | id in ids :: Stale)
  }

  /** Cancels the queued intents of the keys. */
  function Supersede<K(==)>(q: Queue<K>, keys: set<K>): Queue<K> {
    q.(outcomes := Cancelled(q.outcomes, PendingIds(q, keys)), pending := Keep(q.pending, keys))
  }

  /** A refused request gets a promise that is already rejected as stale. */
  function Refuse<K>(q: Queue<K>): Queue<K> {
    q.(next := q.next + 1, outcomes := q.outcomes[q.next := Stale])
  }

  /** An accepted one replaces, and cancels, the queued intent of its key, keeping that intent's place. */
  function Enqueue<K(==)>(q: Queue<K>, key: K, intent: Intent, stamp: Stamp<K>): Queue<K> {
    var at := IndexOf(q.pending, key);
    q.(next := q.next + 1, admitted := q.admitted[q.next := stamp],
       pending := if at < |q.pending| then q.pending[at := (key, intent)] else q.pending + [(key, intent)],
       outcomes := if at < |q.pending| then q.outcomes[q.pending[at].1.id := Stale] else q.outcomes)
  }

  /** Starts the queued intent at an index; run() settles it at once when it is no longer current. */
  function Start<K>(q: Queue<K>, at: nat, current: bool): Queue<K>
    requires at < |q.pending|
  {
    var (key, intent) := q.pending[at];
    q.(active := Some(InFlight(key, intent, current)), pending := q.pending[..at] + q.pending[at + 1..],
       outcomes := if current then q.outcomes else q.outcomes[intent.id := Stale])
  }

  function Finish<K>(q: Queue<K>, current: bool, ok: bool): Queue<K>
    requires q.active.Some? && q.active.value.working
  {
    q.(active := Some(q.active.value.(working := false)),
       outcomes := q.outcomes[q.active.value.intent.id := if !current then Stale else if ok then Resolved else Rejected])
  }

  // ----- Refresh -----

  function PumpRefresh(s: State): State {
    if s.closed || s.scans.active.Some? || s.exclusive || !s.scans.pending then s
    else s.(scans := s.scans.(pending := false, active := Some(Scan(s.ui.request, s.rootEpoch, s.scans.completion))))
  }

  function Answered(scans: Scans, answer: Answer): Scans {
    if scans.completion.None? then scans
    else scans.(completion := None, answers := scans.answers[scans.completion.value := answer])
  }

  const LANES: set<Lane> := {Details, Overlay}
  const PURPOSES: set<Purpose> := {Maintenance, Replay, History}

  function SupersedeReplay(s: State): State {
    s.(reading := Supersede(s.reading, LANES), detailsRequest := s.detailsRequest + 1, overlayRequest := s.overlayRequest + 1)
  }

  function SupersedeWrites(s: State, maintenance: bool): State {
    s.(writing := Supersede(s.writing, if maintenance then PURPOSES else {Replay, History}))
  }

  /** Every refresh hands out one completion, answers the one before it with nothing, and asks for a new scan. */
  function Refresh(s: State): State {
    if s.closed || s.ui.root.None? then s
    else
      var asked := Answered(s.scans, NoRefresh).(completion := Some(s.scans.next), next := s.scans.next + 1, pending := true);
      var superseded := SupersedeReplay(SupersedeWrites(s.(scans := asked), true));
      PumpRefresh(superseded.(ui := s.ui.(request := s.ui.request + 1, refreshing := true, actionable := false)))
  }

  predicate CurrentScan(s: State, scan: Scan) {
    !s.closed && scan.request == s.ui.request && scan.rootEpoch == s.rootEpoch
  }

  function Published(s: State, result: Option<Snapshot>): LibraryState
    requires s.scans.active.Some?
  {
    if !CurrentScan(s, s.scans.active.value) then s.ui
    else if result.Some? then s.ui.(snapshot := result, refreshing := false, actionable := true)
    else s.ui.(refreshing := false, actionable := false)
  }

  function ScanDone(s: State, result: Option<Snapshot>): State
    requires s.scans.active.Some?
  {
    var scan := s.scans.active.value;
    var published := s.(ui := Published(s, result));
    var origin := CurrentOrigin(published);
    var answer := if CurrentScan(s, scan) && published.ui.actionable && origin.Some? then Refreshed(origin.value) else NoRefresh;
    var answered := if s.scans.completion == scan.completion then Answered(s.scans, answer) else s.scans;
    PumpRefresh(published.(scans := answered.(active := None)))
  }

  function SetRoot(s: State, root: string): State {
    if s.closed || s.ui.root == Some(root) then s
    else
      var superseded := SupersedeReplay(SupersedeWrites(s.(rootEpoch := s.rootEpoch + 1), true));
      Refresh(superseded.(navigation := s.navigation + 1,
                          ui := s.ui.(root := Some(root), snapshot := None, actionable := false)))
  }

  function InvalidateRoot(s: State, root: string): State {
    if !s.closed && s.ui.root == Some(root) then Refresh(s) else s
  }

  function Navigate(s: State): State {
    SupersedeReplay(SupersedeWrites(s.(navigation := s.navigation + 1), false))
  }

  // ----- Index writes and replay reads -----

  /** Maintenance before replay before history. */
  function NextWrite(q: Queue<Purpose>): (at: nat)
    ensures at <= |q.pending|
  {
    var m, r, h := IndexOf(q.pending, Maintenance), IndexOf(q.pending, Replay), IndexOf(q.pending, History);
    if m < |q.pending| then m else if r < |q.pending| then r else h
  }

  function PumpIndex(s: State): State {
    var at := NextWrite(s.writing);
    if s.closed || s.writing.active.Some? || at >= |s.writing.pending| then s
    else s.(writing := Start(s.writing, at, CurrentWrite(s, s.writing.pending[at].1)))
  }

  function WriteIndex(s: State, origin: Origin, purpose: Purpose): State {
    var intent := Intent(s.writing.next, origin, "", 0, !purpose.Maintenance?);
    if !CurrentWrite(s, intent) then s.(writing := Refuse(s.writing))
    else PumpIndex(s.(writing := Enqueue(s.writing, purpose, intent, Stamp(origin, "", s.rootEpoch, s.ui.request, s.navigation, !purpose.Maintenance?, purpose, 0))))
  }

  function IndexWorkDone(s: State, ok: bool): State
    requires s.writing.active.Some? && s.writing.active.value.working
  {
    var task := s.writing.active.value;
    s.(writing := Finish(s.writing, CurrentWrite(s, task.intent), ok))
  }

  function IndexFinally(s: State): State
    requires s.writing.active.Some? && !s.writing.active.value.working
  {
    PumpIndex(s.(writing := s.writing.(active := None)))
  }

  function PumpReplay(s: State): State {
    if s.closed || s.reading.active.Some? || s.reading.pending == [] then s
    else s.(reading := Start(s.reading, 0, CurrentRead(s, s.reading.pending[0].0, s.reading.pending[0].1)))
  }

  function NewerRead(s: State, lane: Lane): State {
    if lane.Details? then s.(detailsRequest := s.detailsRequest + 1) else s.(overlayRequest := s.overlayRequest + 1)
  }

  function ReadReplay(s: State, origin: Origin, game: string, lane: Lane): State {
    if !(MayPublish(s, origin) && game in s.ui.snapshot.value.games) then s.(reading := Refuse(s.reading))
    else
      var newer := NewerRead(s, lane);
      var intent := Intent(s.reading.next, origin, game, LaneRequest(newer, lane), true);
      var stamp := Stamp(origin, game, s.rootEpoch, s.ui.request, s.navigation, true, lane, intent.request);
      PumpReplay(newer.(reading := Enqueue(s.reading, lane, intent, stamp)))
  }

  function ReadWorkDone(s: State, ok: bool): State
    requires s.reading.active.Some? && s.reading.active.value.working
  {
    var task := s.reading.active.value;
    s.(reading := Finish(s.reading, CurrentRead(s, task.key, task.intent), ok))
  }

  function ReadFinally(s: State): State
    requires s.reading.active.Some? && !s.reading.active.value.working
  {
    PumpReplay(s.(reading := s.reading.(active := None)))
  }

  // ----- Exclusive actions and disposal -----

  predicate Exclusive(kind: ActionKind) {
    kind.Mutation? ==> !kind.independentExport
  }

  predicate Startable(s: State, action: Action) {
    && MayStart(s, action.origin)
    && (Exclusive(action.kind) ==> !s.exclusive)
    && (action.kind.Storage? ==> s.scans.active.None?)
  }

  function StartAction(s: State, action: Action): State {
    if !Startable(s, action) then s
    else s.(exclusive := s.exclusive || Exclusive(action.kind), actions := s.actions + [action])
  }

  function Without<T>(s: seq<T>, i: nat): seq<T>
    requires i < |s|
  {
    s[..i] + s[i + 1..]
  }

  /** What settles with the action; outputPath is what a successful settings save reports. */
  function Reconciled(s: State, action: Action, outputPath: Option<string>): State {
    if s.closed then s
    else if action.kind.Settings? && outputPath.Some? then
      if s.ui.root == outputPath then Refresh(s) else SetRoot(s, outputPath.value)
    else if !action.kind.Storage? && s.ui.root == Some(action.origin.root) then Refresh(s)
    else s
  }

  function ActionDone(s: State, i: nat, outputPath: Option<string>): State
    requires i < |s.actions|
  {
    var action := s.actions[i];
    var rest := s.(actions := Without(s.actions, i));
    match action.kind
    case Mutation(independent) =>
      PumpRefresh(Reconciled(if independent then rest else rest.(exclusive := false), action, outputPath))
    case _ => PumpRefresh(Reconciled(rest, action, outputPath).(exclusive := false))
  }

  function Dispose(s: State): State {
    var written := SupersedeWrites(s.(closed := true), true);
    SupersedeReplay(written.(scans := Answered(s.scans, NoRefresh).(pending := false)))
  }

  // ----- Events -----

  datatype Event =
    | RootChosen(root: string)
    | RefreshAsked
    | RootInvalidated(root: string)
    | Scanned(result: Option<Snapshot>)
    | Navigated
    | WriteAsked(writeOrigin: Origin, purpose: Purpose)
    | WriteWorked(ok: bool)
    | WriteFinished
    | ReadAsked(readOrigin: Origin, game: string, lane: Lane)
    | ReadWorked(ok: bool)
    | ReadFinished
    | ActionAsked(action: Action)
    | ActionFinished(index: nat, outputPath: Option<string>)
    | Disposed

  /** The backend and the finally callbacks only answer what is in flight. */
  predicate Enabled(s: State, e: Event) {
    && (e.Scanned? ==> s.scans.active.Some?)
    && (e.WriteWorked? ==> s.writing.active.Some? && s.writing.active.value.working)
    && (e.WriteFinished? ==> s.writing.active.Some? && !s.writing.active.value.working)
    && (e.ReadWorked? ==> s.reading.active.Some? && s.reading.active.value.working)
    && (e.ReadFinished? ==> s.reading.active.Some? && !s.reading.active.value.working)
    && (e.ActionFinished? ==> e.index < |s.actions|)
  }

  function Step(s: State, e: Event): State
    requires Enabled(s, e)
  {
    match e
    case RootChosen(root) => SetRoot(s, root)
    case RefreshAsked => Refresh(s)
    case RootInvalidated(root) => InvalidateRoot(s, root)
    case Scanned(result) => ScanDone(s, result)
    case Navigated => Navigate(s)
    case WriteAsked(origin, purpose) => WriteIndex(s, origin, purpose)
    case WriteWorked(ok) => IndexWorkDone(s, ok)
    case WriteFinished => IndexFinally(s)
    case ReadAsked(origin, game, lane) => ReadReplay(s, origin, game, lane)
    case ReadWorked(ok) => ReadWorkDone(s, ok)
    case ReadFinished => ReadFinally(s)
    case ActionAsked(action) => StartAction(s, action)
    case ActionFinished(index, outputPath) => ActionDone(s, index, outputPath)
    case Disposed => Dispose(s)
  }

  // ----- Queue invariant -----

  ghost predicate Holds<K(!new)>(q: Queue<K>, id: nat) {
    || (exists i :: 0 <= i < |q.pending| && q.pending[i].1.id == id)
    || (q.active.Some? && q.active.value.working && q.active.value.intent.id == id)
  }

  ghost predicate Fits<K>(stamp: Stamp<K>, key: K, i: Intent) {
    && stamp.rootEpoch == i.origin.rootEpoch && stamp.request == i.origin.request
    && stamp.key == key && stamp.keyRequest == i.request && stamp.origin == i.origin && stamp.game == i.game
    && stamp.navigationBound == i.navigationBound && (i.navigationBound ==> stamp.navigation == i.origin.navigation)
  }

  ghost predicate HeldIntent<K(!new)>(q: Queue<K>, key: K, i: Intent) {
    i.id < q.next && i.id !in q.outcomes && i.id in q.admitted && Fits(q.admitted[i.id], key, i)
  }

  /** One queued intent per key; the unsettled promises are exactly those queued or at work, each once. */
  ghost predicate QueueInv<K(!new)>(q: Queue<K>) {
    && (forall id :: id in q.outcomes ==> id < q.next)
    && (forall id :: id in q.admitted ==> id < q.next)
    && (forall id: nat :: id < q.next && id !in q.outcomes ==> Holds(q, id))
    && (forall i :: 0 <= i < |q.pending| ==> HeldIntent(q, q.pending[i].0, q.pending[i].1))
    && (forall i, j :: 0 <= i < j < |q.pending| ==>
          q.pending[i].0 != q.pending[j].0 && q.pending[i].1.id != q.pending[j].1.id)
    && (q.active.Some? && q.active.value.working ==>
          && HeldIntent(q, q.active.value.key, q.active.value.intent)
          && forall i :: 0 <= i < |q.pending| ==> q.pending[i].1.id != q.active.value.intent.id)
  }

  ghost predicate Stands<T>(before: map<nat, T>, after: map<nat, T>) {
    forall id :: id in before ==> id in after && after[id] == before[id]
  }

  /** What a queue step may do to promises: old outcomes stand, admissions stand, new outcomes are stale. */
  ghost predicate OnlyStale<K>(a: Queue<K>, b: Queue<K>) {
    && Stands(a.outcomes, b.outcomes) && Stands(a.admitted, b.admitted) && a.next <= b.next
    && forall id :: id in b.outcomes && id !in a.outcomes ==> b.outcomes[id] == Stale
  }

  lemma {:induction false} KeepMembers<K>(pending: seq<(K, Intent)>, keys: set<K>)
    ensures forall x :: x in Keep(pending, keys) <==> x in pending && x.0 !in keys
    ensures |Keep(pending, keys)| <= |pending|
  {
    if pending != [] {
      KeepMembers(pending[1..], keys);
    }
  }

  ghost predicate DistinctIntents<K(!new)>(pending: seq<(K, Intent)>) {
    forall i, j :: 0 <= i < j < |pending| ==> pending[i].0 != pending[j].0 && pending[i].1.id != pending[j].1.id
  }

  lemma {:induction false} KeepDistinct<K(!new)>(pending: seq<(K, Intent)>, keys: set<K>)
    requires DistinctIntents(pending)
    ensures DistinctIntents(Keep(pending, keys))
  {
    if pending != [] {
      KeepDistinct(pending[1..], keys);
      KeepMembers(pending[1..], keys);
    }
  }

  /** A kept intent was queued under another key, so its promise is not among the cancelled ones. */
  lemma KeptStaysUnsettled<K(!new)>(q: Queue<K>, keys: set<K>, x: (K, Intent))
    requires QueueInv(q) && x in Keep(q.pending, keys)
    ensures x in q.pending && x.0 !in keys && x.1.id !in PendingIds(q, keys)
  {
    KeepMembers(q.pending, keys);
    var j :| 0 <= j < |q.pending| && q.pending[j] == x;
    forall k | 0 <= k < |q.pending| && q.pending[k].0 in keys ensures q.pending[k].1.id != x.1.id {}
  }

  lemma SupersedeHoldsRest<K(!new)>(q: Queue<K>, keys: set<K>, id: nat)
    requires Holds(q, id) && id !in PendingIds(q, keys)
    ensures Holds(Supersede(q, keys), id)
  {
    KeepMembers(q.pending, keys);
    if i :| 0 <= i < |q.pending| && q.pending[i].1.id == id {
      assert q.pending[i] in Keep(q.pending, keys);
    }
  }

  lemma CancelledWereQueued<K(!new)>(q: Queue<K>, keys: set<K>)
    requires QueueInv(q)
    ensures forall id :: id in PendingIds(q, keys) ==>
              id < q.next && id !in q.outcomes && (q.active.Some? && q.active.value.working ==> id != q.active.value.intent.id)
  {
  }

  lemma SupersedeKeeps<K(!new)>(q: Queue<K>, keys: set<K>)
    requires QueueInv(q)
    ensures QueueInv(Supersede(q, keys)) && OnlyStale(q, Supersede(q, keys))
    ensures forall x :: x in Supersede(q, keys).pending ==> x.0 !in keys
  {
    hide Keep, PendingIds;
    var b := Supersede(q, keys);
    assert DistinctIntents(q.pending);
    KeepDistinct(q.pending, keys);
    assert DistinctIntents(b.pending);
    KeepMembers(q.pending, keys);
    CancelledWereQueued(q, keys);
    forall i | 0 <= i < |b.pending| ensures HeldIntent(b, b.pending[i].0, b.pending[i].1) && b.pending[i] in q.pending {
      KeptStaysUnsettled(q, keys, b.pending[i]);
    }
    SupersedeHolds(q, keys);
  }

  lemma SupersedeHolds<K(!new)>(q: Queue<K>, keys: set<K>)
    requires QueueInv(q)
    ensures var b := Supersede(q, keys); forall id: nat :: id < b.next && id !in b.outcomes ==> Holds(b, id)
  {
    hide Keep;
    var b := Supersede(q, keys);
    forall id: nat | id < b.next && id !in b.outcomes ensures Holds(b, id) {
      SupersedeHoldsRest(q, keys, id);
    }
  }

  lemma RefuseKeeps<K(!new)>(q: Queue<K>)
    requires QueueInv(q)
    ensures QueueInv(Refuse(q)) && OnlyStale(q, Refuse(q))
  {
    forall id: nat | id < q.next && id !in q.outcomes ensures Holds(Refuse(q), id) {
      assert Holds(q, id);
    }
  }

  lemma EnqueueReplaces<K(!new)>(q: Queue<K>, at: nat, intent: Intent, stamp: Stamp<K>)
    requires QueueInv(q) && at < |q.pending| && intent.id == q.next && Fits(stamp, q.pending[at].0, intent)
    ensures var b := q.(next := q.next + 1, admitted := q.admitted[q.next := stamp],
                        pending := q.pending[at := (q.pending[at].0, intent)],
                        outcomes := q.outcomes[q.pending[at].1.id := Stale]);
            QueueInv(b) && OnlyStale(q, b)
  {
    var b := q.(next := q.next + 1, admitted := q.admitted[q.next := stamp],
                pending := q.pending[at := (q.pending[at].0, intent)], outcomes := q.outcomes[q.pending[at].1.id := Stale]);
    forall id: nat | id < b.next && id !in b.outcomes ensures Holds(b, id) {
      if id == q.next {
        assert b.pending[at].1.id == id;
      } else {
        assert Holds(q, id);
        if i :| 0 <= i < |q.pending| && q.pending[i].1.id == id {
          assert b.pending[i] == q.pending[i];
        }
      }
    }
  }

  function Appended<K>(q: Queue<K>, key: K, intent: Intent, stamp: Stamp<K>): Queue<K> {
    q.(next := q.next + 1, admitted := q.admitted[q.next := stamp], pending := q.pending + [(key, intent)])
  }

  lemma AppendedHolds<K(!new)>(q: Queue<K>, key: K, intent: Intent, stamp: Stamp<K>, id: nat)
    requires QueueInv(q) && intent.id == q.next && id <= q.next && id !in q.outcomes
    ensures Holds(Appended(q, key, intent, stamp), id)
  {
    var b := Appended(q, key, intent, stamp);
    if id == q.next {
      assert b.pending[|q.pending|].1.id == id;
    } else {
      assert Holds(q, id);
      if i :| 0 <= i < |q.pending| && q.pending[i].1.id == id {
        assert b.pending[i] == q.pending[i];
      }
    }
  }

  lemma EnqueueAppends<K(!new)>(q: Queue<K>, key: K, intent: Intent, stamp: Stamp<K>)
    requires QueueInv(q) && intent.id == q.next && Fits(stamp, key, intent)
    requires forall i :: 0 <= i < |q.pending| ==> q.pending[i].0 != key
    ensures QueueInv(Appended(q, key, intent, stamp)) && OnlyStale(q, Appended(q, key, intent, stamp))
  {
    var b := Appended(q, key, intent, stamp);
    forall id: nat | id < b.next && id !in b.outcomes ensures Holds(b, id) {
      AppendedHolds(q, key, intent, stamp, id);
    }
    hide Holds;
  }

  lemma EnqueueKeeps<K(!new)>(q: Queue<K>, key: K, intent: Intent, stamp: Stamp<K>)
    requires QueueInv(q) && intent.id == q.next && Fits(stamp, key, intent)
    ensures QueueInv(Enqueue(q, key, intent, stamp)) && OnlyStale(q, Enqueue(q, key, intent, stamp))
  {
    hide QueueInv, OnlyStale;
    var at := IndexOf(q.pending, key);
    if at < |q.pending| {
      EnqueueReplaces(q, at, intent, stamp);
    } else {
      EnqueueAppends(q, key, intent, stamp);
    }
  }

  /** An admitted intent takes the place of the one queued under its key, which alone is cancelled, or goes to the end. */
  lemma LatestIntentTakesThePlace<K(!new)>(q: Queue<K>, key: K, intent: Intent, stamp: Stamp<K>)
    requires QueueInv(q) && intent.id == q.next
    ensures var b := Enqueue(q, key, intent, stamp);
            && (forall x :: x in b.pending <==> x == (key, intent) || (x in q.pending && x.0 != key))
            && |q.pending| <= |b.pending|
            && (forall i :: 0 <= i < |q.pending| ==> b.pending[i].0 == q.pending[i].0)
            && (forall i :: 0 <= i < |q.pending| && q.pending[i].0 == key ==>
                  q.pending[i].1.id in b.outcomes && b.outcomes[q.pending[i].1.id] == Stale)
            && (forall id :: id in b.outcomes && id !in q.outcomes ==>
                  exists i :: 0 <= i < |q.pending| && q.pending[i].0 == key && q.pending[i].1.id == id)
  {
    var at := IndexOf(q.pending, key);
    var b := Enqueue(q, key, intent, stamp);
    if at < |q.pending| {
      assert b.pending[at] == (key, intent);
      forall x | x in q.pending && x.0 != key ensures x in b.pending {
        var i :| 0 <= i < |q.pending| && q.pending[i] == x;
        assert b.pending[i] == x;
      }
    }
  }

  /** What is left of a queue without one entry. */
  lemma RestOf<K(!new)>(pending: seq<(K, Intent)>, at: nat)
    requires at < |pending|
    ensures var rest := pending[..at] + pending[at + 1..];
            && (forall i :: 0 <= i < |rest| ==> rest[i] == pending[if i < at then i else i + 1])
            && (DistinctIntents(pending) ==> DistinctIntents(rest))
  {
    var rest := pending[..at] + pending[at + 1..];
    forall i | 0 <= i < |rest| ensures rest[i] == pending[if i < at then i else i + 1] {}
  }

  lemma StartHolds<K(!new)>(q: Queue<K>, at: nat, current: bool, id: nat)
    requires QueueInv(q) && at < |q.pending| && (q.active.Some? ==> !q.active.value.working)
    requires id < q.next && id !in Start(q, at, current).outcomes
    ensures Holds(Start(q, at, current), id)
  {
    var b := Start(q, at, current);
    RestOf(q.pending, at);
    assert Holds(q, id);
    var i :| 0 <= i < |q.pending| && q.pending[i].1.id == id;
    if i != at {
      var k := if i < at then i else i - 1;
      assert b.pending[k] == q.pending[i];
    }
  }

  lemma StartKeeps<K(!new)>(q: Queue<K>, at: nat, current: bool)
    requires QueueInv(q) && at < |q.pending| && (q.active.Some? ==> !q.active.value.working)
    ensures QueueInv(Start(q, at, current)) && OnlyStale(q, Start(q, at, current))
  {
    var b := Start(q, at, current);
    RestOf(q.pending, at);
    forall id: nat | id < b.next && id !in b.outcomes ensures Holds(b, id) {
      StartHolds(q, at, current, id);
    }
    hide Holds;
    assert DistinctIntents(q.pending) && DistinctIntents(b.pending);
    forall i | 0 <= i < |b.pending| ensures HeldIntent(b, b.pending[i].0, b.pending[i].1) {
      assert b.pending[i] == q.pending[if i < at then i else i + 1];
    }
  }

  lemma FinishKeeps<K(!new)>(q: Queue<K>, current: bool, ok: bool)
    requires QueueInv(q) && q.active.Some? && q.active.value.working
    ensures QueueInv(Finish(q, current, ok))
    ensures Stands(q.outcomes, Finish(q, current, ok).outcomes) && Stands(q.admitted, Finish(q, current, ok).admitted)
  {
    var b := Finish(q, current, ok);
    forall id: nat | id < b.next && id !in b.outcomes ensures Holds(b, id) {
      assert Holds(q, id);
    }
  }

  predicate AtWork<K>(q: Queue<K>, id: nat) {
    q.active.Some? && q.active.value.working && q.active.value.intent.id == id
  }

  // ----- The controller's invariant -----

  /**
   * At most one scan, never beside an exclusive action. Every refresh promise belongs to one request; the newest is the
   * only one that can be open, and an open one is answered by the running scan or by the one still to come.
   */
  ghost predicate ScanInv(s: State) {
    && s.scans.next == s.ui.request
    && (s.scans.active.Some? ==>
          var scan := s.scans.active.value;
          && !s.exclusive && s.ui.root.Some?
          && scan.completion.Some? && scan.completion.value + 1 == scan.request
          && scan.request <= s.ui.request && scan.rootEpoch <= s.rootEpoch
          && (CurrentScan(s, scan) ==> scan.completion == s.scans.completion)
          && (s.scans.pending ==> scan.request < s.ui.request))
    && (s.scans.pending ==> !s.closed && s.ui.root.Some? && s.scans.completion.Some?)
    && (s.scans.completion.Some? ==>
          && !s.closed && s.ui.root.Some? && s.scans.completion.value + 1 == s.scans.next
          && (s.scans.pending || (s.scans.active.Some? && s.scans.active.value.completion == s.scans.completion)))
    && (s.ui.actionable && !s.closed ==> s.scans.active.None? && !s.scans.pending)
    && (forall id :: id in s.scans.answers ==>
          id < s.scans.next && (s.scans.answers[id].Refreshed? ==> s.scans.answers[id].origin.request == id + 1))
    && (forall id: nat :: id < s.scans.next ==> (id !in s.scans.answers <==> s.scans.completion == Some(id)))
  }

  /** No refresh is lost: a requested scan waits only for the running scan or the running exclusive action. */
  ghost predicate RefreshAwake(s: State) {
    s.scans.pending ==> s.scans.active.Some? || s.exclusive
  }

  ghost predicate QueuesAwake(s: State) {
    && (s.reading.pending != [] ==> s.reading.active.Some? && !s.closed)
    && (s.writing.pending != [] ==> s.writing.active.Some? && !s.closed)
  }

  ghost predicate OneExclusive(s: State) {
    && (s.exclusive <==> exists i :: 0 <= i < |s.actions| && Exclusive(s.actions[i].kind))
    && (forall i, j :: 0 <= i < j < |s.actions| ==> !(Exclusive(s.actions[i].kind) && Exclusive(s.actions[j].kind)))
  }

  ghost predicate QueuesInv(s: State) {
    QueueInv(s.reading) && QueueInv(s.writing) && QueuesAwake(s)
  }

  ghost predicate Inv(s: State) {
    ScanInv(s) && RefreshAwake(s) && QueuesInv(s) && OneExclusive(s)
  }

  /** Counters only grow and what was answered or admitted stands. */
  ghost predicate Grows(a: State, b: State) {
    && a.rootEpoch <= b.rootEpoch && a.ui.request <= b.ui.request && a.navigation <= b.navigation
    && a.detailsRequest <= b.detailsRequest && a.overlayRequest <= b.overlayRequest
    && (a.closed ==> b.closed)
    && Stands(a.scans.answers, b.scans.answers) && a.scans.next <= b.scans.next
    && Stands(a.reading.outcomes, b.reading.outcomes) && Stands(a.reading.admitted, b.reading.admitted)
    && Stands(a.writing.outcomes, b.writing.outcomes) && Stands(a.writing.admitted, b.writing.admitted)
    && a.reading.next <= b.reading.next && a.writing.next <= b.writing.next
  }

  /** Any step but a settled read or write only ever rejects promises as stale. */
  ghost predicate StaleOnly(a: State, b: State) {
    OnlyStale(a.reading, b.reading) && OnlyStale(a.writing, b.writing)
  }

  lemma PumpRefreshKeeps(s: State)
    requires ScanInv(s)
    ensures ScanInv(PumpRefresh(s)) && RefreshAwake(PumpRefresh(s)) && Grows(s, PumpRefresh(s)) && StaleOnly(s, PumpRefresh(s))
  {
  }

  lemma {:induction false} KeepNothing<K(!new)>(pending: seq<(K, Intent)>, keys: set<K>)
    requires forall k: K :: k in keys
    ensures Keep(pending, keys) == []
  {
    if pending != [] {
      KeepNothing(pending[1..], keys);
    }
  }

  lemma AllKeys()
    ensures forall l: Lane :: l in LANES
    ensures forall p: Purpose :: p in PURPOSES
  {
    forall l: Lane ensures l in LANES {
      assert l.Details? || l.Overlay?;
    }
    forall p: Purpose ensures p in PURPOSES {
      assert p.Maintenance? || p.Replay? || p.History?;
    }
  }

  ghost predicate OnlyQueues(a: State, b: State) {
    b == a.(reading := b.reading, writing := b.writing, detailsRequest := b.detailsRequest, overlayRequest := b.overlayRequest)
  }

  lemma SupersededQueues(s: State, maintenance: bool)
    requires QueuesInv(s)
    ensures var b := SupersedeReplay(SupersedeWrites(s, maintenance));
            QueuesInv(b) && OnlyQueues(s, b) && Grows(s, b) && StaleOnly(s, b) && b.reading.pending == []
            && (maintenance ==> b.writing.pending == [])
  {
    var keys := if maintenance then PURPOSES else {Replay, History};
    SupersedeKeeps(s.writing, keys);
    SupersedeKeeps(s.reading, LANES);
    hide QueueInv;
    AllKeys();
    KeepNothing(s.reading.pending, LANES);
    if maintenance {
      KeepNothing(s.writing.pending, PURPOSES);
    }
    assert s.writing.pending == [] ==> Keep(s.writing.pending, keys) == [];
  }

  // ----- Every step keeps the invariant -----

  lemma GrowsTransitive(a: State, b: State, c: State)
    requires Grows(a, b) && Grows(b, c)
    ensures Grows(a, c)
  {
  }

  lemma StaleOnlyTransitive(a: State, b: State, c: State)
    requires StaleOnly(a, b) && StaleOnly(b, c)
    ensures StaleOnly(a, c)
  {
    OnlyStaleTransitive(a.reading, b.reading, c.reading);
    OnlyStaleTransitive(a.writing, b.writing, c.writing);
  }

  lemma OnlyStaleTransitive<K>(a: Queue<K>, b: Queue<K>, c: Queue<K>)
    requires OnlyStale(a, b) && OnlyStale(b, c)
    ensures OnlyStale(a, c)
  {
    forall id | id in c.outcomes && id !in a.outcomes ensures c.outcomes[id] == Stale {
      assert id in b.outcomes ==> c.outcomes[id] == b.outcomes[id];
    }
  }

  /** The part of a step's promise that also holds in the middle of an action's completion. */
  ghost predicate Moves(a: State, b: State) {
    && ScanInv(b) && QueuesInv(b) && Grows(a, b) && StaleOnly(a, b)
    && b.exclusive == a.exclusive && b.actions == a.actions
    && (a.rootEpoch != b.rootEpoch ==> a.ui.request < b.ui.request)
  }

  lemma RefreshMoves(s: State)
    requires ScanInv(s) && QueuesInv(s)
    ensures Moves(s, Refresh(s)) && (RefreshAwake(s) ==> RefreshAwake(Refresh(s)))
    ensures !s.closed && s.ui.root.Some? ==> RefreshAwake(Refresh(s)) && Refresh(s).ui.request == s.ui.request + 1
  {
    if s.closed || s.ui.root.None? {
      return;
    }
    SupersededQueues(s, true);
    var queues := SupersedeReplay(SupersedeWrites(s, true));
    RefreshScans(s, queues);
  }

  lemma RefreshScans(s: State, queues: State)
    requires ScanInv(s) && QueuesInv(queues) && OnlyQueues(s, queues) && Grows(s, queues) && StaleOnly(s, queues)
    requires queues == SupersedeReplay(SupersedeWrites(s, true))
    requires !s.closed && s.ui.root.Some?
    ensures Moves(s, Refresh(s)) && RefreshAwake(Refresh(s)) && Refresh(s).ui.request == s.ui.request + 1
  {
    hide QueuesInv, OnlyStale, Supersede, ScanInv, PumpRefresh;
    var b := Asked(s, queues);
    AskedKeeps(s, queues);
    PumpRefreshKeeps(b);
    PumpRefreshFrame(b);
    GrowsTransitive(s, b, PumpRefresh(b));
    StaleOnlyTransitive(s, b, PumpRefresh(b));
    assert Refresh(s) == PumpRefresh(b);
  }

  /** The state a refresh pumps from, once the queues are superseded. */
  ghost function Asked(s: State, queues: State): State {
    var asked := Answered(s.scans, NoRefresh).(completion := Some(s.scans.next), next := s.scans.next + 1, pending := true);
    queues.(scans := asked, ui := s.ui.(request := s.ui.request + 1, refreshing := true, actionable := false))
  }

  lemma AskedKeeps(s: State, queues: State)
    requires ScanInv(s) && QueuesInv(queues) && OnlyQueues(s, queues) && Grows(s, queues) && StaleOnly(s, queues)
    requires !s.closed && s.ui.root.Some?
    ensures var b := Asked(s, queues); ScanInv(b) && QueuesInv(b) && Grows(s, b) && StaleOnly(s, b)
  {
    hide QueueInv, OnlyStale;
  }

  lemma PumpRefreshFrame(s: State)
    ensures PumpRefresh(s) == s.(scans := PumpRefresh(s).scans)
    ensures QueuesInv(s) ==> QueuesInv(PumpRefresh(s))
  {
    hide QueueInv;
  }

  lemma SetRootMoves(s: State, root: string)
    requires ScanInv(s) && QueuesInv(s)
    ensures Moves(s, SetRoot(s, root)) && (RefreshAwake(s) ==> RefreshAwake(SetRoot(s, root)))
    ensures !s.closed && s.ui.root != Some(root) ==> RefreshAwake(SetRoot(s, root))
  {
    if s.closed || s.ui.root == Some(root) {
      return;
    }
    SupersededQueues(s, true);
    var queues := SupersedeReplay(SupersedeWrites(s, true));
    var b := queues.(rootEpoch := s.rootEpoch + 1, navigation := s.navigation + 1,
                     ui := s.ui.(root := Some(root), snapshot := None, actionable := false));
    SetRootScans(s, queues, b, root);
    RefreshMoves(b);
    hide ScanInv, QueuesInv, OnlyStale, Refresh;
    GrowsTransitive(s, b, Refresh(b));
    StaleOnlyTransitive(s, b, Refresh(b));
  }

  lemma SetRootScans(s: State, queues: State, b: State, root: string)
    requires ScanInv(s) && QueuesInv(queues) && OnlyQueues(s, queues) && Grows(s, queues) && StaleOnly(s, queues)
    requires queues == SupersedeReplay(SupersedeWrites(s, true)) && !s.closed && s.ui.root != Some(root)
    requires b == queues.(rootEpoch := s.rootEpoch + 1, navigation := s.navigation + 1,
                          ui := s.ui.(root := Some(root), snapshot := None, actionable := false))
    ensures ScanInv(b) && QueuesInv(b) && Grows(s, b) && StaleOnly(s, b) && SetRoot(s, root) == Refresh(b)
  {
    hide QueueInv, OnlyStale, Supersede, Refresh;
  }

  lemma NavigateMoves(s: State)
    requires ScanInv(s) && QueuesInv(s)
    ensures Moves(s, Navigate(s)) && (RefreshAwake(s) ==> RefreshAwake(Navigate(s)))
  {
    SupersededQueues(s, false);
    NavigateFrame(s);
  }

  lemma NavigateFrame(s: State)
    requires ScanInv(s)
    requires var b := SupersedeReplay(SupersedeWrites(s, false));
             QueuesInv(b) && OnlyQueues(s, b) && Grows(s, b) && StaleOnly(s, b)
    ensures Moves(s, Navigate(s)) && (RefreshAwake(s) ==> RefreshAwake(Navigate(s)))
  {
    hide QueueInv, OnlyStale, Supersede;
    assert Navigate(s) == SupersedeReplay(SupersedeWrites(s, false)).(navigation := s.navigation + 1);
  }

  lemma DisposeMoves(s: State)
    requires ScanInv(s) && QueuesInv(s)
    ensures Moves(s, Dispose(s)) && RefreshAwake(Dispose(s))
    ensures Dispose(s).scans.completion == None && Dispose(s).reading.pending == [] && Dispose(s).writing.pending == []
  {
    SupersededQueues(s, true);
    DisposeFrame(s);
  }

  lemma DisposeFrame(s: State)
    requires ScanInv(s)
    requires var b := SupersedeReplay(SupersedeWrites(s, true));
             QueuesInv(b) && OnlyQueues(s, b) && Grows(s, b) && StaleOnly(s, b) && b.reading.pending == [] && b.writing.pending == []
    ensures Moves(s, Dispose(s)) && RefreshAwake(Dispose(s))
    ensures Dispose(s).scans.completion == None && Dispose(s).reading.pending == [] && Dispose(s).writing.pending == []
  {
    hide QueueInv, OnlyStale, Supersede;
    assert Dispose(s) == SupersedeReplay(SupersedeWrites(s, true)).(closed := true,
                           scans := Answered(s.scans, NoRefresh).(pending := false));
  }

  lemma ScanDoneMoves(s: State, result: Option<Snapshot>)
    requires ScanInv(s) && QueuesInv(s) && s.scans.active.Some?
    ensures Moves(s, ScanDone(s, result)) && RefreshAwake(ScanDone(s, result))
  {
    hide QueueInv;
    var b := ScanSettled(s, result);
    ScanSettledKeeps(s, result);
    PumpRefreshKeeps(b);
    GrowsTransitive(s, b, PumpRefresh(b));
    StaleOnlyTransitive(s, b, PumpRefresh(b));
  }

  /** The state between a scan's answer and the pump that follows it. */
  ghost function ScanSettled(s: State, result: Option<Snapshot>): State
    requires s.scans.active.Some?
  {
    var scan := s.scans.active.value;
    var published := s.(ui := Published(s, result));
    var origin := CurrentOrigin(published);
    var answer := if CurrentScan(s, scan) && published.ui.actionable && origin.Some? then Refreshed(origin.value) else NoRefresh;
    var answered := if s.scans.completion == scan.completion then Answered(s.scans, answer) else s.scans;
    published.(scans := answered.(active := None))
  }

  lemma ScanSettledKeeps(s: State, result: Option<Snapshot>)
    requires ScanInv(s) && s.scans.active.Some?
    ensures var b := ScanSettled(s, result);
            ScanInv(b) && Grows(s, b) && StaleOnly(s, b) && ScanDone(s, result) == PumpRefresh(b) && b.ui.request == s.ui.request
  {
  }

  lemma NextWriteExists(q: Queue<Purpose>)
    requires q.pending != []
    ensures NextWrite(q) < |q.pending|
  {
    var p := q.pending[0].0;
    assert p.Maintenance? || p.Replay? || p.History?;
  }

  /** A step of one queue alone: the rest of the state is untouched. */
  lemma WritingMoves(s: State, b: State)
    requires Inv(s) && b == s.(writing := b.writing) && QueueInv(b.writing) && OnlyStale(s.writing, b.writing) && QueuesAwake(b)
    ensures Inv(b) && Moves(s, b)
  {
    hide QueueInv;
  }

  lemma ReadingMoves(s: State, b: State)
    requires Inv(s) && QueueInv(b.reading) && OnlyStale(s.reading, b.reading) && QueuesAwake(b)
    requires b == s.(reading := b.reading, detailsRequest := b.detailsRequest, overlayRequest := b.overlayRequest)
    requires s.detailsRequest <= b.detailsRequest && s.overlayRequest <= b.overlayRequest
    ensures Inv(b) && Moves(s, b)
  {
    hide QueueInv;
  }

  /** What a pump leaves behind: the queue is empty, closed, or someone is at work. */
  lemma PumpIndexKeeps(s: State)
    requires QueueInv(s.writing) && (s.writing.active.Some? ==> s.writing.pending == [] || !s.closed)
    requires s.writing.pending != [] ==> !s.closed
    requires s.writing.active.Some? ==> !s.writing.active.value.working || s.writing.pending == [] || !s.closed
    ensures var b := PumpIndex(s);
            && b == s.(writing := b.writing) && QueueInv(b.writing) && OnlyStale(s.writing, b.writing)
            && (b.writing.pending != [] ==> b.writing.active.Some? && !b.closed)
  {
    if s.writing.pending != [] {
      NextWriteExists(s.writing);
    }
    var at := NextWrite(s.writing);
    if !(s.closed || s.writing.active.Some? || at >= |s.writing.pending|) {
      StartKeeps(s.writing, at, CurrentWrite(s, s.writing.pending[at].1));
    }
  }

  lemma PumpReplayKeeps(s: State)
    requires QueueInv(s.reading) && (s.reading.pending != [] ==> !s.closed)
    ensures var b := PumpReplay(s);
            && b == s.(reading := b.reading) && QueueInv(b.reading) && OnlyStale(s.reading, b.reading)
            && (b.reading.pending != [] ==> b.reading.active.Some? && !b.closed)
  {
    if !(s.closed || s.reading.active.Some? || s.reading.pending == []) {
      StartKeeps(s.reading, 0, CurrentRead(s, s.reading.pending[0].0, s.reading.pending[0].1));
    }
  }

  lemma WriteIndexMoves(s: State, origin: Origin, purpose: Purpose)
    requires Inv(s)
    ensures Inv(WriteIndex(s, origin, purpose)) && Moves(s, WriteIndex(s, origin, purpose))
  {
    hide QueueInv, ScanInv, RefreshAwake, OneExclusive, OnlyStale;
    var intent := Intent(s.writing.next, origin, "", 0, !purpose.Maintenance?);
    if !CurrentWrite(s, intent) {
      RefuseKeeps(s.writing);
      WritingMoves(s, s.(writing := Refuse(s.writing)));
    } else {
      var stamp := Stamp(origin, "", s.rootEpoch, s.ui.request, s.navigation, !purpose.Maintenance?, purpose, 0);
      EnqueueKeeps(s.writing, purpose, intent, stamp);
      var queued := s.(writing := Enqueue(s.writing, purpose, intent, stamp));
      PumpIndexKeeps(queued);
      OnlyStaleTransitive(s.writing, queued.writing, PumpIndex(queued).writing);
      WritingMoves(s, PumpIndex(queued));
    }
  }

  lemma IdleKeeps<K(!new)>(q: Queue<K>)
    requires QueueInv(q) && (q.active.Some? ==> !q.active.value.working)
    ensures QueueInv(q.(active := None)) && OnlyStale(q, q.(active := None))
  {
    forall id: nat | id < q.next && id !in q.outcomes ensures Holds(q.(active := None), id) {
      assert Holds(q, id);
    }
  }

  lemma IndexFinallyMoves(s: State)
    requires Inv(s) && s.writing.active.Some? && !s.writing.active.value.working
    ensures Inv(IndexFinally(s)) && Moves(s, IndexFinally(s))
  {
    hide QueueInv, ScanInv, RefreshAwake, OneExclusive, OnlyStale;
    IdleKeeps(s.writing);
    var idle := s.(writing := s.writing.(active := None));
    PumpIndexKeeps(idle);
    OnlyStaleTransitive(s.writing, idle.writing, PumpIndex(idle).writing);
    WritingMoves(s, PumpIndex(idle));
  }

  lemma ReadReplayMoves(s: State, origin: Origin, game: string, lane: Lane)
    requires Inv(s)
    ensures Inv(ReadReplay(s, origin, game, lane)) && Moves(s, ReadReplay(s, origin, game, lane))
  {
    hide QueueInv, ScanInv, RefreshAwake, OneExclusive, OnlyStale;
    if !(MayPublish(s, origin) && game in s.ui.snapshot.value.games) {
      RefuseKeeps(s.reading);
      ReadingMoves(s, s.(reading := Refuse(s.reading)));
    } else {
      var newer := NewerRead(s, lane);
      var intent := Intent(s.reading.next, origin, game, LaneRequest(newer, lane), true);
      var stamp := Stamp(origin, game, s.rootEpoch, s.ui.request, s.navigation, true, lane, intent.request);
      EnqueueKeeps(s.reading, lane, intent, stamp);
      var queued := newer.(reading := Enqueue(s.reading, lane, intent, stamp));
      PumpReplayKeeps(queued);
      OnlyStaleTransitive(s.reading, queued.reading, PumpReplay(queued).reading);
      ReadingMoves(s, PumpReplay(queued));
    }
  }

  lemma ReadFinallyMoves(s: State)
    requires Inv(s) && s.reading.active.Some? && !s.reading.active.value.working
    ensures Inv(ReadFinally(s)) && Moves(s, ReadFinally(s))
  {
    hide QueueInv, ScanInv, RefreshAwake, OneExclusive, OnlyStale;
    IdleKeeps(s.reading);
    var idle := s.(reading := s.reading.(active := None));
    PumpReplayKeeps(idle);
    OnlyStaleTransitive(s.reading, idle.reading, PumpReplay(idle).reading);
    ReadingMoves(s, PumpReplay(idle));
  }

  lemma WorkDoneKeeps(s: State, ok: bool)
    requires Inv(s)
    ensures s.writing.active.Some? && s.writing.active.value.working ==>
              var b := IndexWorkDone(s, ok); Inv(b) && Grows(s, b) && b.reading == s.reading
    ensures s.reading.active.Some? && s.reading.active.value.working ==>
              var b := ReadWorkDone(s, ok); Inv(b) && Grows(s, b) && b.writing == s.writing
  {
    hide QueueInv, ScanInv, RefreshAwake, OneExclusive;
    if s.writing.active.Some? && s.writing.active.value.working {
      FinishKeeps(s.writing, CurrentWrite(s, s.writing.active.value.intent), ok);
      ScanFrame(s, IndexWorkDone(s, ok));
    }
    if s.reading.active.Some? && s.reading.active.value.working {
      FinishKeeps(s.reading, CurrentRead(s, s.reading.active.value.key, s.reading.active.value.intent), ok);
      ScanFrame(s, ReadWorkDone(s, ok));
    }
  }

  lemma ScanFrame(s: State, b: State)
    requires b == s.(reading := b.reading, writing := b.writing)
    requires ScanInv(s) && RefreshAwake(s) && OneExclusive(s)
    ensures ScanInv(b) && RefreshAwake(b) && OneExclusive(b)
  {
  }

  lemma StartActionKeeps(s: State, action: Action)
    requires Inv(s)
    ensures Inv(StartAction(s, action)) && Grows(s, StartAction(s, action)) && StaleOnly(s, StartAction(s, action))
  {
    hide QueueInv;
    var b := StartAction(s, action);
    if Startable(s, action) {
      forall i | 0 <= i < |s.actions| ensures b.actions[i] == s.actions[i] {}
      assert b.actions[|s.actions|] == action;
    }
  }

  lemma ReconciledMoves(s: State, action: Action, outputPath: Option<string>)
    requires ScanInv(s) && QueuesInv(s)
    ensures Moves(s, Reconciled(s, action, outputPath))
  {
    hide ScanInv, QueuesInv, RefreshAwake, Refresh, SetRoot;
    RefreshMoves(s);
    if outputPath.Some? {
      SetRootMoves(s, outputPath.value);
    }
  }

  /** Removing one of at most one exclusive actions leaves none; removing any other changes nothing. */
  lemma WithoutAction(s: State, i: nat)
    requires OneExclusive(s) && i < |s.actions|
    ensures OneExclusive(s.(actions := Without(s.actions, i), exclusive := s.exclusive && !Exclusive(s.actions[i].kind)))
  {
    var rest := Without(s.actions, i);
    forall k | 0 <= k < |rest| ensures rest[k] == s.actions[if k < i then k else k + 1] {}
    if k :| 0 <= k < |s.actions| && k != i && Exclusive(s.actions[k].kind) {
      assert rest[if k < i then k else k - 1] == s.actions[k];
    }
  }

  lemma ActionDoneKeeps(s: State, i: nat, outputPath: Option<string>)
    requires Inv(s) && i < |s.actions|
    ensures var b := ActionDone(s, i, outputPath);
            Inv(b) && Grows(s, b) && StaleOnly(s, b) && (s.rootEpoch != b.rootEpoch ==> s.ui.request < b.ui.request)
  {
    hide ScanInv, QueuesInv, OneExclusive, RefreshAwake, Reconciled, Grows, StaleOnly, PumpRefresh;
    var action := s.actions[i];
    WithoutAction(s, i);
    var rest := s.(actions := Without(s.actions, i));
    var early := match action.kind case Mutation(independent) => !independent case _ => false;
    var first := if early then rest.(exclusive := false) else rest;
    ActionFrame(s, first);
    ReconciledMoves(first, action, outputPath);
    var middle := Reconciled(first, action, outputPath);
    var last := if action.kind.Mutation? then middle else middle.(exclusive := false);
    ActionFrame(middle, last);
    PumpRefreshKeeps(last);
    PumpRefreshFrame(last);
    SameActions(s.(actions := Without(s.actions, i), exclusive := s.exclusive && !Exclusive(s.actions[i].kind)),
                PumpRefresh(last));
    ChainMoves(s, first, middle, last, PumpRefresh(last));
  }

  lemma ChainMoves(a: State, b: State, c: State, d: State, e: State)
    requires Grows(a, b) && Grows(b, c) && Grows(c, d) && Grows(d, e)
    requires StaleOnly(a, b) && StaleOnly(b, c) && StaleOnly(c, d) && StaleOnly(d, e)
    ensures Grows(a, e) && StaleOnly(a, e)
  {
    hide Grows, StaleOnly;
    GrowsTransitive(a, b, c);
    GrowsTransitive(a, c, d);
    GrowsTransitive(a, d, e);
    StaleOnlyTransitive(a, b, c);
    StaleOnlyTransitive(a, c, d);
    StaleOnlyTransitive(a, d, e);
  }

  lemma ActionFrame(s: State, b: State)
    requires ScanInv(s) && QueuesInv(s) && b == s.(actions := b.actions, exclusive := b.exclusive)
    requires b.exclusive ==> s.exclusive
    ensures ScanInv(b) && QueuesInv(b) && Grows(s, b) && StaleOnly(s, b)
  {
  }

  lemma NothingQueued<K(!new)>(q: Queue<K>)
    requires QueueInv(q) && q.pending == []
    ensures forall id: nat :: id < q.next && id !in q.outcomes ==> AtWork(q, id)
  {
    forall id: nat | id < q.next && id !in q.outcomes ensures AtWork(q, id) {
      assert Holds(q, id);
    }
  }

  /**
   * A refresh makes every origin handed out before it useless, rejects all queued work as stale, answers the promise before
   * its own with nothing, and leaves its own to the scan that is running or due.
   */
  lemma RefreshSupersedesEverything(s: State)
    requires Inv(s) && !s.closed && s.ui.root.Some?
    ensures var b := Refresh(s);
            && (forall o :: !MayStart(b, o))
            && (forall id: nat :: id < b.reading.next && id !in b.reading.outcomes ==> AtWork(b.reading, id))
            && (forall id: nat :: id < b.writing.next && id !in b.writing.outcomes ==> AtWork(b.writing, id))
            && (s.scans.completion.Some? ==>
                  s.scans.completion.value in b.scans.answers && b.scans.answers[s.scans.completion.value] == NoRefresh)
            && b.scans.completion == Some(s.scans.next)
            && (b.scans.pending || (b.scans.active.Some? && b.scans.active.value.completion == b.scans.completion))
  {
    hide QueueInv, Supersede, OnlyStale;
    SupersededQueues(s, true);
    var queues := SupersedeReplay(SupersedeWrites(s, true));
    var b := Asked(s, queues);
    assert Refresh(s) == PumpRefresh(b);
    NothingQueued(queues.reading);
    NothingQueued(queues.writing);
  }

  /** A refreshed library admits no origin until a scan has answered. */
  lemma RefreshedOrNot(s: State)
    ensures !s.closed && s.ui.root.Some? ==> !Refresh(s).ui.actionable && Refresh(s).ui.request > s.ui.request
    ensures s.closed || s.ui.root.None? ==> Refresh(s) == s
    ensures Refresh(s).ui.root == s.ui.root && Refresh(s).exclusive == s.exclusive
  {
    hide PendingIds, Keep;
  }

  lemma SetRootSets(s: State, root: string)
    ensures !s.closed ==> SetRoot(s, root).ui.root == Some(root)
    ensures !s.closed && s.ui.root != Some(root) ==> !SetRoot(s, root).ui.actionable && SetRoot(s, root).ui.request > s.ui.request
    ensures SetRoot(s, root).exclusive == s.exclusive
  {
    hide PendingIds, Keep, Refresh;
    if !s.closed && s.ui.root != Some(root) {
      var superseded := SupersedeReplay(SupersedeWrites(s.(rootEpoch := s.rootEpoch + 1), true));
      RefreshedOrNot(superseded.(navigation := s.navigation + 1,
                                 ui := s.ui.(root := Some(root), snapshot := None, actionable := false)));
    }
  }

  /** The library is asked again after the action: the directory may have changed under its snapshot. */
  predicate Outdates(s: State, action: Action, outputPath: Option<string>) {
    && !s.closed && !action.kind.Storage?
    && ((action.kind.Settings? && outputPath.Some?) || s.ui.root == Some(action.origin.root))
  }

  lemma ReconciledOutdates(s: State, action: Action, outputPath: Option<string>)
    ensures var b := Reconciled(s, action, outputPath);
            && (Outdates(s, action, outputPath) ==> !b.ui.actionable && b.ui.request > s.ui.request)
            && (!Outdates(s, action, outputPath) ==> b == s)
            && (!s.closed && action.kind.Settings? && outputPath.Some? ==> b.ui.root == outputPath)
            && b.exclusive == s.exclusive
  {
    hide Refresh, SetRoot;
    RefreshedOrNot(s);
    if outputPath.Some? {
      SetRootSets(s, outputPath.value);
    }
  }

  /**
   * When an action ends, the snapshot it may have outdated admits nothing until a new scan answers, a successful settings
   * save has moved the library to the path it reported, and the exclusive lock is given up by its holder and by no other.
   */
  lemma EndedActionIsReconciled(s: State, i: nat, outputPath: Option<string>)
    requires Inv(s) && i < |s.actions|
    ensures var b, action := ActionDone(s, i, outputPath), s.actions[i];
            && (Outdates(s, action, outputPath) ==> b.ui.request > s.ui.request && forall o :: !MayStart(b, o))
            && (!Outdates(s, action, outputPath) ==> b.ui == s.ui)
            && (!s.closed && action.kind.Settings? && outputPath.Some? ==> b.ui.root == outputPath)
            && b.exclusive == (s.exclusive && !Exclusive(action.kind))
            && (b.scans.pending ==> b.scans.active.Some? || b.exclusive)
  {
    hide Reconciled, PumpRefresh, QueuesInv, ScanInv, OneExclusive, RefreshAwake;
    var action := s.actions[i];
    var rest := s.(actions := Without(s.actions, i));
    ReconciledOutdates(rest, action, outputPath);
    ReconciledOutdates(rest.(exclusive := false), action, outputPath);
    var early := match action.kind case Mutation(independent) => !independent case _ => false;
    var middle := Reconciled(if early then rest.(exclusive := false) else rest, action, outputPath);
    PumpRefreshFrame(middle);
    PumpRefreshFrame(middle.(exclusive := false));
    ActionDoneKeeps(s, i, outputPath);
    AwakeAfter(ActionDone(s, i, outputPath));
  }

  lemma AwakeAfter(s: State)
    requires RefreshAwake(s)
    ensures s.scans.pending ==> s.scans.active.Some? || s.exclusive
  {
  }

  /** An admitted read makes every earlier read of its lane stale, at work or not, and none of the other lane's. */
  lemma NewestReadWins(s: State, origin: Origin, game: string, lane: Lane)
    requires Inv(s)
    ensures var b := ReadReplay(s, origin, game, lane);
            if MayPublish(s, origin) && game in s.ui.snapshot.value.games then
              && (forall i: Intent :: i.request <= LaneRequest(s, lane) ==> !CurrentRead(b, lane, i))
              && (forall other, i :: other != lane ==> (CurrentRead(b, other, i) <==> CurrentRead(s, other, i)))
              && s.reading.next in b.reading.admitted && b.reading.admitted[s.reading.next].keyRequest == LaneRequest(b, lane)
            else
              && b == s.(reading := b.reading) && b.reading.pending == s.reading.pending && b.reading.active == s.reading.active
              && s.reading.next in b.reading.outcomes && b.reading.outcomes[s.reading.next] == Stale
  {
    hide QueueInv, IndexOf;
    ReadReplayHolds(s, origin, game, lane);
  }

  /** One step keeps the invariant, only moves counters up, and lets only a read's or write's own work settle it as current. */
  lemma StepKeepsInv(s: State, e: Event)
    requires Inv(s) && Enabled(s, e)
    ensures Inv(Step(s, e)) && Grows(s, Step(s, e))
    ensures s.rootEpoch != Step(s, e).rootEpoch ==> s.ui.request < Step(s, e).ui.request
    ensures !e.WriteWorked? && !e.ReadWorked? ==> StaleOnly(s, Step(s, e))
  {
    hide ScanInv, QueuesInv, RefreshAwake, OneExclusive, OnlyStale, Refresh, SetRoot, ScanDone, Navigate, WriteIndex, ReadReplay,
      IndexFinally, ReadFinally, StartAction, ActionDone, Dispose, IndexWorkDone, ReadWorkDone;
    match e
    case RootChosen(root) => SetRootMoves(s, root); SameActions(s, SetRoot(s, root));
    case RefreshAsked => RefreshMoves(s); SameActions(s, Refresh(s));
    case RootInvalidated(root) => RefreshMoves(s); SameActions(s, Refresh(s)); Reflexive(s);
    case Scanned(result) => ScanDoneMoves(s, result); SameActions(s, ScanDone(s, result));
    case Navigated => NavigateMoves(s); SameActions(s, Navigate(s));
    case WriteAsked(origin, purpose) => WriteIndexMoves(s, origin, purpose);
    case WriteWorked(ok) => WorkDoneKeeps(s, ok); WorkDoneEpoch(s, e);
    case WriteFinished => IndexFinallyMoves(s);
    case ReadAsked(origin, game, lane) => ReadReplayMoves(s, origin, game, lane);
    case ReadWorked(ok) => WorkDoneKeeps(s, ok); WorkDoneEpoch(s, e);
    case ReadFinished => ReadFinallyMoves(s);
    case ActionAsked(action) => StartActionKeeps(s, action); StartActionEpoch(s, action);
    case ActionFinished(index, outputPath) => ActionDoneKeeps(s, index, outputPath);
    case Disposed => DisposeMoves(s); SameActions(s, Dispose(s));
  }

  lemma SameActions(s: State, b: State)
    requires OneExclusive(s) && b.actions == s.actions && b.exclusive == s.exclusive
    ensures OneExclusive(b)
  {
  }

  lemma Reflexive(s: State)
    ensures Grows(s, s) && StaleOnly(s, s)
  {
  }

  lemma WorkDoneEpoch(s: State, e: Event)
    requires Enabled(s, e) && (e.WriteWorked? || e.ReadWorked?)
    ensures Step(s, e) == s.(reading := Step(s, e).reading, writing := Step(s, e).writing)
  {
  }

  lemma StartActionEpoch(s: State, action: Action)
    ensures StartAction(s, action).rootEpoch == s.rootEpoch
  {
  }

  // ----- Whole runs -----

  function InitialQueue<K>(): Queue<K> {
    Queue(None, [], 0, map[], map[])
  }

  function Initial(): State {
    State(LibraryState(None, None, 0, false, false), false, 0, 0, Scans(None, false, None, 0, map[]), false, [], 0, 0,
          InitialQueue(), InitialQueue())
  }

  ghost predicate IsRun(states: seq<State>, events: seq<Event>) {
    && |states| == |events| + 1 && states[0] == Initial()
    && forall i :: 0 <= i < |events| ==> Enabled(states[i], events[i]) && states[i + 1] == Step(states[i], events[i])
  }

  /** No promise was admitted under a counter that has not been reached yet, and none was refused at admission. */
  ghost predicate StampsReached(s: State) {
    && (forall id :: id in s.reading.admitted ==> ReadReached(s, s.reading.admitted[id]))
    && (forall id :: id in s.writing.admitted ==> WriteReached(s, s.writing.admitted[id]))
  }

  ghost predicate ReadReached(s: State, stamp: Stamp<Lane>) {
    && stamp.rootEpoch <= s.rootEpoch && stamp.request <= s.ui.request && stamp.navigation <= s.navigation
    && stamp.keyRequest <= LaneRequest(s, stamp.key) && stamp.navigationBound
    && StillOpen(s, stamp) && (s.closed || stamp.request < s.ui.request || stamp.game in s.ui.snapshot.value.games)
  }

  ghost predicate WriteReached(s: State, stamp: Stamp<Purpose>) {
    && stamp.rootEpoch <= s.rootEpoch && stamp.request <= s.ui.request && stamp.navigation <= s.navigation
    && StillOpen(s, stamp) && stamp.navigationBound == !stamp.key.Maintenance?
  }

  /** An origin that could start at admission can still start, unless the library closed or was refreshed. */
  ghost predicate StillOpen<K>(s: State, stamp: Stamp<K>) {
    s.closed || stamp.request < s.ui.request || MayStart(s, stamp.origin)
  }

  /** What no step but a request, a root change or a scan's answer touches. */
  ghost predicate Holding(a: State, b: State) {
    && a.ui.request <= b.ui.request && (a.closed ==> b.closed)
    && (b.ui.root != a.ui.root ==> a.rootEpoch < b.rootEpoch) && a.rootEpoch <= b.rootEpoch
    && (a.ui.actionable && !a.closed ==>
          b.closed || a.ui.request < b.ui.request || (b.ui == a.ui && b.rootEpoch == a.rootEpoch))
  }

  /** A step that neither installs a snapshot nor admits a promise. */
  ghost predicate Plain(a: State, b: State) {
    && (b.ui.snapshot.Some? ==> b.ui.snapshot == a.ui.snapshot)
    && b.reading.admitted == a.reading.admitted && b.writing.admitted == a.writing.admitted
    && OldOrigins(a, b)
  }

  /** No refresh promise is newly answered with an origin. */
  ghost predicate OldOrigins(a: State, b: State) {
    forall id :: id in b.scans.answers && b.scans.answers[id].Refreshed? ==>
      id in a.scans.answers && a.scans.answers[id] == b.scans.answers[id]
  }

  lemma HoldingTransitive(a: State, b: State, c: State)
    requires Holding(a, b) && Holding(b, c) && Plain(a, b) && Plain(b, c)
    ensures Holding(a, c) && Plain(a, c)
  {
  }

  lemma RefreshHolds(s: State)
    ensures Holding(s, Refresh(s)) && Plain(s, Refresh(s))
  {
    hide PendingIds, Keep;
  }

  lemma SetRootHolds(s: State, root: string)
    ensures Holding(s, SetRoot(s, root)) && Plain(s, SetRoot(s, root))
  {
    hide PendingIds, Keep, Refresh;
    if !s.closed && s.ui.root != Some(root) {
      var superseded := SupersedeReplay(SupersedeWrites(s.(rootEpoch := s.rootEpoch + 1), true));
      var b := superseded.(navigation := s.navigation + 1,
                           ui := s.ui.(root := Some(root), snapshot := None, actionable := false));
      RefreshHolds(b);
      assert Plain(s, b);
      assert Refresh(b).ui.request == s.ui.request + 1 by {
        RefreshCounts(b);
      }
    }
  }

  lemma RefreshCounts(s: State)
    requires !s.closed && s.ui.root.Some?
    ensures Refresh(s).ui.request == s.ui.request + 1
  {
    hide PendingIds, Keep;
  }

  lemma ScanDoneHolds(s: State, result: Option<Snapshot>)
    requires ScanInv(s) && s.scans.active.Some?
    ensures var b := ScanDone(s, result);
            && Holding(s, b) && b.reading == s.reading && b.writing == s.writing
            && (b.ui.snapshot != s.ui.snapshot && b.ui.snapshot.Some? ==>
                  b.ui.snapshot == result && CurrentScan(s, s.scans.active.value))
            && (forall id :: id in b.scans.answers && id !in s.scans.answers && b.scans.answers[id].Refreshed? ==>
                  AnsweredByScan(s, b, result, id))
  {
  }

  /** The answer is the origin of the snapshot that its own, still current scan has just installed. */
  ghost predicate AnsweredByScan(s: State, b: State, result: Option<Snapshot>, id: nat) {
    && s.scans.active.Some? && CurrentScan(s, s.scans.active.value) && result.Some? && b.ui.snapshot == result
    && id in b.scans.answers && b.scans.answers[id].Refreshed? && CurrentOrigin(b) == Some(b.scans.answers[id].origin)
    && b.ui.request == s.ui.request == id + 1 && b.rootEpoch == s.rootEpoch
  }

  lemma NavigateHolds(s: State)
    ensures Holding(s, Navigate(s)) && Plain(s, Navigate(s))
    ensures Holding(s, Dispose(s)) && Plain(s, Dispose(s))
  {
    hide PendingIds, Keep;
  }

  /** A request's promise is admitted under the counters of that moment. */
  lemma WriteIndexHolds(s: State, origin: Origin, purpose: Purpose)
    ensures var b := WriteIndex(s, origin, purpose);
            && Holding(s, b) && b.ui == s.ui && b.reading == s.reading && b.scans == s.scans
  {
    hide IndexOf, CurrentWrite, Enqueue, Start;
  }

  lemma WriteIndexShape(s: State, origin: Origin, purpose: Purpose)
    ensures var b := WriteIndex(s, origin, purpose);
            && b == s.(writing := b.writing)
            && (b.writing.admitted == s.writing.admitted
                || (MayStart(s, origin)
                    && b.writing.admitted == s.writing.admitted[s.writing.next := Stamp(origin, "", s.rootEpoch, s.ui.request,
                                               s.navigation, !purpose.Maintenance?, purpose, 0)]))
  {
    hide IndexOf;
  }

  lemma WriteIndexReaches(s: State, origin: Origin, purpose: Purpose)
    requires StampsReached(s)
    ensures StampsReached(WriteIndex(s, origin, purpose))
  {
    hide WriteIndex, ReadReached;
    var b := WriteIndex(s, origin, purpose);
    WriteIndexShape(s, origin, purpose);
    SameReached(s, b);
  }

  lemma ReadReplayHolds(s: State, origin: Origin, game: string, lane: Lane)
    ensures var b := ReadReplay(s, origin, game, lane);
            Holding(s, b) && b.ui == s.ui && b.writing == s.writing && b.scans == s.scans
  {
    hide IndexOf, CurrentRead, MayStart, Enqueue, Start;
  }

  lemma SameReached(s: State, b: State)
    requires b.rootEpoch == s.rootEpoch && b.ui == s.ui && b.navigation == s.navigation && b.closed == s.closed
    requires s.detailsRequest <= b.detailsRequest && s.overlayRequest <= b.overlayRequest
    ensures forall stamp :: ReadReached(s, stamp) ==> ReadReached(b, stamp)
    ensures forall stamp :: WriteReached(s, stamp) ==> WriteReached(b, stamp)
  {
  }

  lemma ReadReplayShape(s: State, origin: Origin, game: string, lane: Lane)
    ensures var b := ReadReplay(s, origin, game, lane);
            && b == s.(reading := b.reading, detailsRequest := b.detailsRequest, overlayRequest := b.overlayRequest)
            && s.detailsRequest <= b.detailsRequest && s.overlayRequest <= b.overlayRequest
            && (b.reading.admitted == s.reading.admitted
                || (MayPublish(s, origin) && game in s.ui.snapshot.value.games
                    && b.reading.admitted == s.reading.admitted[s.reading.next := Stamp(origin, game, s.rootEpoch, s.ui.request,
                                               s.navigation, true, lane, LaneRequest(b, lane))]))
  {
    hide IndexOf, CurrentRead;
  }

  lemma ReadReplayReaches(s: State, origin: Origin, game: string, lane: Lane)
    requires StampsReached(s)
    ensures StampsReached(ReadReplay(s, origin, game, lane))
  {
    hide ReadReplay, WriteReached;
    var b := ReadReplay(s, origin, game, lane);
    ReadReplayShape(s, origin, game, lane);
    SameReached(s, b);
  }

  lemma SettlingHolds(s: State, e: Event)
    requires Enabled(s, e) && (e.WriteWorked? || e.WriteFinished? || e.ReadWorked? || e.ReadFinished? || e.ActionAsked?)
    ensures Holding(s, Step(s, e)) && Plain(s, Step(s, e))
  {
    hide IndexOf, CurrentRead, CurrentWrite, Refresh, SetRoot, ScanDone, ActionDone, Navigate, Dispose, ReadReplay, WriteIndex,
      MayStart;
  }

  lemma ActionsHold(s: State, b: State)
    requires b == s.(actions := b.actions, exclusive := b.exclusive)
    ensures Holding(s, b) && Plain(s, b)
  {
  }

  lemma PumpRefreshHolds(s: State)
    ensures Holding(s, PumpRefresh(s)) && Plain(s, PumpRefresh(s))
  {
  }

  lemma ReconciledHolds(s: State, action: Action, outputPath: Option<string>)
    ensures Holding(s, Reconciled(s, action, outputPath)) && Plain(s, Reconciled(s, action, outputPath))
  {
    hide Refresh, SetRoot, Holding, Plain;
    RefreshHolds(s);
    ActionsHold(s, s);
    if outputPath.Some? {
      SetRootHolds(s, outputPath.value);
    }
  }

  lemma ActionDoneHolds(s: State, i: nat, outputPath: Option<string>)
    requires i < |s.actions|
    ensures Holding(s, ActionDone(s, i, outputPath)) && Plain(s, ActionDone(s, i, outputPath))
  {
    hide Holding, Plain, Reconciled, PumpRefresh;
    var action := s.actions[i];
    var rest := s.(actions := Without(s.actions, i));
    var early := match action.kind case Mutation(independent) => !independent case _ => false;
    var first := if early then rest.(exclusive := false) else rest;
    ActionsHold(s, first);
    ReconciledHolds(first, action, outputPath);
    var middle := Reconciled(first, action, outputPath);
    var last := if action.kind.Mutation? then middle else middle.(exclusive := false);
    ActionsHold(middle, last);
    PumpRefreshHolds(last);
    HoldingTransitive(s, first, middle);
    HoldingTransitive(s, middle, last);
    HoldingTransitive(s, last, PumpRefresh(last));
  }

  lemma StepHolds(s: State, e: Event)
    requires Inv(s) && Enabled(s, e)
    ensures Holding(s, Step(s, e))
    ensures !e.Scanned? && !e.WriteAsked? && !e.ReadAsked? ==> Plain(s, Step(s, e))
    ensures StampsReached(s) && (e.WriteAsked? || e.ReadAsked?) ==> StampsReached(Step(s, e))
    ensures e.Scanned? || e.WriteAsked? || e.ReadAsked? ==>
              var b := Step(s, e);
              (e.Scanned? ==> b.reading.admitted == s.reading.admitted && b.writing.admitted == s.writing.admitted)
              && (b.ui.snapshot != s.ui.snapshot && b.ui.snapshot.Some? ==>
                    e.Scanned? && b.ui.snapshot == e.result && CurrentScan(s, s.scans.active.value))
    ensures forall id :: id in Step(s, e).scans.answers && id !in s.scans.answers && Step(s, e).scans.answers[id].Refreshed? ==>
              e.Scanned? && AnsweredByScan(s, Step(s, e), e.result, id)
  {
    hide QueuesInv, OneExclusive, Holding, StampsReached, Refresh, SetRoot, ScanDone, Navigate, WriteIndex, ReadReplay, IndexFinally,
      ReadFinally, StartAction, ActionDone, Dispose, IndexWorkDone, ReadWorkDone, ScanInv, CurrentScan, AnsweredByScan;
    match e
    case RootChosen(root) => SetRootHolds(s, root);
    case RefreshAsked => RefreshHolds(s);
    case RootInvalidated(root) => RefreshHolds(s); HoldsSelf(s);
    case Scanned(result) => ScanDoneHolds(s, result);
    case Navigated => NavigateHolds(s);
    case WriteAsked(origin, purpose) =>
      WriteIndexHolds(s, origin, purpose);
      if StampsReached(s) {
        WriteIndexReaches(s, origin, purpose);
      }
    case ReadAsked(origin, game, lane) =>
      ReadReplayHolds(s, origin, game, lane);
      if StampsReached(s) {
        ReadReplayReaches(s, origin, game, lane);
      }
    case ActionFinished(index, outputPath) => ActionDoneHolds(s, index, outputPath);
    case Disposed => NavigateHolds(s);
    case _ => SettlingHolds(s, e);
  }

  lemma HoldsSelf(s: State)
    ensures Holding(s, s)
  {
  }

  lemma StepReaches(s: State, e: Event)
    requires Inv(s) && Enabled(s, e) && StampsReached(s)
    ensures StampsReached(Step(s, e))
  {
    hide Inv, Step;
    StepKeepsInv(s, e);
    StepHolds(s, e);
  }

  lemma InitialInv()
    ensures Inv(Initial()) && StampsReached(Initial())
  {
  }

  lemma {:induction false} RunKeepsInv(states: seq<State>, events: seq<Event>, i: nat)
    requires IsRun(states, events) && i < |states|
    ensures Inv(states[i]) && StampsReached(states[i])
  {
    hide Inv, StampsReached, Step, Initial;
    InitialInv();
    if i > 0 {
      RunKeepsInv(states, events, i - 1);
      StepKeepsInv(states[i - 1], events[i - 1]);
      StepReaches(states[i - 1], events[i - 1]);
    }
  }

  lemma {:induction false} RunGrows(states: seq<State>, events: seq<Event>, i: nat, j: nat)
    requires IsRun(states, events) && i <= j < |states|
    ensures Grows(states[i], states[j])
    decreases j - i
  {
    hide Inv, StampsReached, Step, Grows, Initial;
    if i == j {
      Reflexive(states[i]);
    } else {
      RunGrows(states, events, i, j - 1);
      RunKeepsInv(states, events, j - 1);
      StepKeepsInv(states[j - 1], events[j - 1]);
      GrowsTransitive(states[i], states[j - 1], states[j]);
    }
  }

  /** A scan and an exclusive action never overlap, at most one exclusive action runs, and no refresh is lost. */
  lemma RefreshIsNeverLost(states: seq<State>, events: seq<Event>, i: nat)
    requires IsRun(states, events) && i < |states|
    ensures var s := states[i];
            && !(s.scans.active.Some? && exists k :: 0 <= k < |s.actions| && Exclusive(s.actions[k].kind))
            && (forall k, l :: 0 <= k < l < |s.actions| ==> !(Exclusive(s.actions[k].kind) && Exclusive(s.actions[l].kind)))
            && (s.scans.pending ==> s.scans.active.Some? || s.exclusive)
            && (s.closed ==> !s.scans.pending && s.scans.completion == None)
            && (forall id: nat :: id < s.scans.next && id !in s.scans.answers ==>
                  id + 1 == s.scans.next == s.ui.request && (s.scans.pending || s.scans.active.Some?))
  {
    hide QueuesInv, StampsReached, Step, Initial;
    RunKeepsInv(states, events, i);
  }

  lemma {:induction false} RunHolds(states: seq<State>, events: seq<Event>, i: nat, j: nat)
    requires IsRun(states, events) && i <= j < |states|
    ensures Holding(states[i], states[j])
    decreases j - i
  {
    hide Inv, Step, Holding, Initial, Plain, StampsReached;
    if i == j {
      HoldsSelf(states[i]);
    } else {
      RunHolds(states, events, i, j - 1);
      RunKeepsInv(states, events, j - 1);
      StepHolds(states[j - 1], events[j - 1]);
      HoldingChain(states[i], states[j - 1], states[j]);
    }
  }

  lemma HoldingChain(a: State, b: State, c: State)
    requires Holding(a, b) && Holding(b, c)
    ensures Holding(a, c)
  {
  }

  /** Once a publishable origin goes stale it stays stale, through any sequence of roots, refreshes and screens. */
  lemma StaleOriginsStayStale(states: seq<State>, events: seq<Event>, i: nat, j: nat, k: nat, origin: Origin)
    requires IsRun(states, events) && i <= j <= k < |states|
    ensures MayStart(states[i], origin) && MayStart(states[k], origin) ==> MayStart(states[j], origin)
    ensures MayPublish(states[i], origin) && MayPublish(states[k], origin) ==> MayPublish(states[j], origin)
  {
    hide Step, Initial;
    RunHolds(states, events, i, j);
    RunHolds(states, events, j, k);
    RunGrows(states, events, i, j);
    RunGrows(states, events, j, k);
  }

  /** Scan k's result is installed only if the scan began after the newest request: no request came while it ran. */
  lemma InstalledSnapshotIsFresh(states: seq<State>, events: seq<Event>, i: nat)
    requires IsRun(states, events) && i < |events|
    requires states[i + 1].ui.snapshot.Some? && states[i + 1].ui.snapshot != states[i].ui.snapshot
    ensures events[i].Scanned? && events[i].result == states[i + 1].ui.snapshot
    ensures exists j :: 0 <= j < i && BeganBetween(states, j, i)
  {
    hide Inv, Step, Initial, StampsReached, Holding, Plain;
    RunKeepsInv(states, events, i);
    StepHolds(states[i], events[i]);
    NoInstallIfPlain(states[i], states[i + 1]);
    CurrentScanBegan(states, events, i);
  }

  lemma NoInstallIfPlain(a: State, b: State)
    ensures Plain(a, b) && b.ui.snapshot.Some? ==> b.ui.snapshot == a.ui.snapshot
  {
  }

  /** The scan running at i was begun by step j, and the library's request and root are those it began with ever since. */
  ghost predicate BeganBetween(states: seq<State>, j: nat, i: nat)
    requires j < i < |states|
  {
    && states[i].scans.active.Some? && states[j].scans.active != states[i].scans.active
    && forall k :: j < k <= i ==>
         && states[k].scans.active == states[i].scans.active
         && states[k].ui.request == states[i].scans.active.value.request
         && states[k].rootEpoch == states[i].scans.active.value.rootEpoch
  }

  lemma {:induction false} CurrentScanBegan(states: seq<State>, events: seq<Event>, i: nat)
    requires IsRun(states, events) && i < |states|
    requires states[i].scans.active.Some? && CurrentScan(states[i], states[i].scans.active.value)
    ensures exists j :: 0 <= j < i && BeganBetween(states, j, i)
  {
    hide Inv, Step, StampsReached, Holding, Plain, Grows;
    var scan := states[i].scans.active.value;
    assert i > 0;
    if states[i - 1].scans.active == states[i].scans.active {
      RunKeepsInv(states, events, i - 1);
      RunGrows(states, events, i - 1, i);
      ScanStaysCurrent(states[i - 1], states[i]);
      CurrentScanBegan(states, events, i - 1);
      var j :| 0 <= j < i - 1 && BeganBetween(states, j, i - 1);
      assert BeganBetween(states, j, i);
    } else {
      assert BeganBetween(states, i - 1, i);
    }
  }

  lemma ScanStaysCurrent(a: State, b: State)
    requires Inv(a) && Grows(a, b) && a.scans.active.Some? && a.scans.active == b.scans.active
    requires CurrentScan(b, b.scans.active.value)
    ensures CurrentScan(a, a.scans.active.value)
  {
    hide QueuesInv, OneExclusive;
  }

  lemma {:induction false} RootsChangeRequests(states: seq<State>, events: seq<Event>, i: nat, j: nat)
    requires IsRun(states, events) && i <= j < |states|
    ensures states[i].ui.request == states[j].ui.request ==> states[i].rootEpoch == states[j].rootEpoch
    decreases j - i
  {
    hide Inv, Step, Initial, StampsReached;
    if i < j {
      RootsChangeRequests(states, events, i, j - 1);
      RunGrows(states, events, i, j - 1);
      RunKeepsInv(states, events, j - 1);
      StepKeepsInv(states[j - 1], events[j - 1]);
    }
  }

  /**
   * A refresh promise is answered with an origin only by its own scan, with the snapshot just installed, and only if no
   * other refresh and no other root came since the promise was handed out.
   */
  lemma RefreshAnswersOnlyTheNewest(states: seq<State>, events: seq<Event>, i: nat, id: nat)
    requires IsRun(states, events) && i < |events|
    requires id in states[i + 1].scans.answers && id !in states[i].scans.answers && states[i + 1].scans.answers[id].Refreshed?
    ensures events[i].Scanned? && AnsweredByScan(states[i], states[i + 1], events[i].result, id)
    ensures forall j :: 0 <= j <= i && id < states[j].scans.next ==>
              states[j].ui.request == states[i].ui.request && states[j].rootEpoch == states[i].rootEpoch
  {
    hide Inv, Step, Initial, StampsReached, Plain, Holding;
    RunKeepsInv(states, events, i);
    StepHolds(states[i], events[i]);
    PlainAnswers(states[i], states[i + 1]);
    forall j | 0 <= j <= i && id < states[j].scans.next
      ensures states[j].ui.request == states[i].ui.request && states[j].rootEpoch == states[i].rootEpoch
    {
      RunKeepsInv(states, events, j);
      PromisesFollowRequests(states[j]);
      RunGrows(states, events, j, i);
      RootsChangeRequests(states, events, j, i);
    }
  }

  lemma PlainAnswers(a: State, b: State)
    ensures Plain(a, b) ==> OldOrigins(a, b)
  {
  }

  lemma PromisesFollowRequests(s: State)
    requires Inv(s)
    ensures s.scans.next == s.ui.request
  {
    hide QueuesInv, OneExclusive;
  }

  // ----- Reads and writes over whole runs -----

  /** Every promise is settled, or queued or at work and settled by what comes; none is left waiting for nobody. */
  lemma EveryCallSettlesOnce(states: seq<State>, events: seq<Event>, i: nat, j: nat)
    requires IsRun(states, events) && i <= j < |states|
    ensures Stands(states[i].reading.outcomes, states[j].reading.outcomes)
    ensures Stands(states[i].writing.outcomes, states[j].writing.outcomes)
    ensures states[i].reading.active.None? ==>
              forall id: nat :: id < states[i].reading.next <==> id in states[i].reading.outcomes
    ensures states[i].writing.active.None? ==>
              forall id: nat :: id < states[i].writing.next <==> id in states[i].writing.outcomes
    ensures states[i].closed ==> states[i].reading.pending == [] && states[i].writing.pending == []
  {
    hide Step, Initial, StampsReached, ScanInv, OneExclusive;
    RunGrows(states, events, i, j);
    RunKeepsInv(states, events, i);
    forall id: nat | id < states[i].reading.next && id !in states[i].reading.outcomes
      ensures Holds(states[i].reading, id) {}
    forall id: nat | id < states[i].writing.next && id !in states[i].writing.outcomes
      ensures Holds(states[i].writing, id) {}
  }

  /** Nothing that could make an answer stale happened between two states. */
  ghost predicate Unmoved(a: State, b: State, navigation: bool) {
    && !b.closed && a.rootEpoch == b.rootEpoch && a.ui.root == b.ui.root && a.ui.request == b.ui.request
    && (navigation ==> a.navigation == b.navigation)
  }

  lemma StaleOnlyOutcomes(s: State, b: State, id: nat)
    requires StaleOnly(s, b)
    ensures id in b.reading.outcomes && id !in s.reading.outcomes ==> b.reading.outcomes[id] == Stale
    ensures id in b.writing.outcomes && id !in s.writing.outcomes ==> b.writing.outcomes[id] == Stale
  {
  }

  /** The work at its end: its promise is refused exactly when something moved since it was admitted. */
  lemma WorkIsRefusedIffMoved(s: State)
    requires Inv(s) && StampsReached(s)
    ensures s.reading.active.Some? && s.reading.active.value.working ==>
              var task := s.reading.active.value;
              && task.intent.id in s.reading.admitted
              && var stamp := s.reading.admitted[task.intent.id];
              && stamp.key == task.key
              && (CurrentRead(s, task.key, task.intent) <==>
                    !s.closed && stamp.rootEpoch == s.rootEpoch && stamp.request == s.ui.request
                    && stamp.navigation == s.navigation && stamp.keyRequest == LaneRequest(s, task.key))
    ensures s.writing.active.Some? && s.writing.active.value.working ==>
              var task := s.writing.active.value;
              && task.intent.id in s.writing.admitted
              && var stamp := s.writing.admitted[task.intent.id];
              && (CurrentWrite(s, task.intent) <==>
                    !s.closed && stamp.rootEpoch == s.rootEpoch && stamp.request == s.ui.request
                    && (task.intent.navigationBound ==> stamp.navigation == s.navigation))
  {
    hide ScanInv, OneExclusive, RefreshAwake, QueuesAwake;
  }

  /** A lane's request count as of a state, with everything else a read depends on. */
  ghost predicate SameReadSelection(a: State, b: State, lane: Lane) {
    Unmoved(a, b, true) && LaneRequest(a, lane) == LaneRequest(b, lane)
  }

  /**
   * A read succeeds (with a value or with the read's own error) only if no refresh, no root change, no navigation and no
   * newer read of its lane came between its admission and its settlement.
   */
  lemma ReadSucceedsOnlyIfNothingMoved(states: seq<State>, events: seq<Event>, i: nat, id: nat, j: nat)
    requires IsRun(states, events) && i < |events|
    requires id in states[i + 1].reading.outcomes && id !in states[i].reading.outcomes
    requires states[i + 1].reading.outcomes[id] != Stale
    requires j <= i && id in states[j].reading.admitted
    ensures events[i].ReadWorked? && states[i].reading.active.Some? && states[i].reading.active.value.intent.id == id
    ensures states[i + 1].reading.outcomes[id] == if events[i].ok then Resolved else Rejected
    ensures SameReadSelection(states[j], states[i], states[i].reading.active.value.key)
  {
    hide Inv, StampsReached, Initial, Step, StaleOnly;
    RunKeepsInv(states, events, i);
    StepKeepsInv(states[i], events[i]);
    if !events[i].ReadWorked? && !events[i].WriteWorked? {
      StaleOnlyOutcomes(states[i], states[i + 1], id);
    }
    WorkSettles(states[i], events[i]);
    WorkIsRefusedIffMoved(states[i]);
    RunKeepsInv(states, events, j);
    ReachedSoFar(states[j]);
    RunGrows(states, events, j, i);
    RunHolds(states, events, j, i);
  }

  lemma WriteSucceedsOnlyIfNothingMoved(states: seq<State>, events: seq<Event>, i: nat, id: nat, j: nat)
    requires IsRun(states, events) && i < |events|
    requires id in states[i + 1].writing.outcomes && id !in states[i].writing.outcomes
    requires states[i + 1].writing.outcomes[id] != Stale
    requires j <= i && id in states[j].writing.admitted
    ensures events[i].WriteWorked? && states[i].writing.active.Some? && states[i].writing.active.value.intent.id == id
    ensures states[i + 1].writing.outcomes[id] == if events[i].ok then Resolved else Rejected
    ensures Unmoved(states[j], states[i], states[i].writing.active.value.key != Maintenance)
  {
    hide Inv, StampsReached, Initial, Step, StaleOnly;
    RunKeepsInv(states, events, i);
    StepKeepsInv(states[i], events[i]);
    if !events[i].ReadWorked? && !events[i].WriteWorked? {
      StaleOnlyOutcomes(states[i], states[i + 1], id);
    }
    WorkSettles(states[i], events[i]);
    WorkIsRefusedIffMoved(states[i]);
    RunKeepsInv(states, events, j);
    ReachedSoFar(states[j]);
    ReachedSoFar(states[i]);
    RunGrows(states, events, j, i);
    RunHolds(states, events, j, i);
    WriteTaskStamp(states[i]);
  }

  lemma WorkSettles(s: State, e: Event)
    requires Enabled(s, e)
    ensures e.ReadWorked? ==> Step(s, e) == ReadWorkDone(s, e.ok)
    ensures e.WriteWorked? ==> Step(s, e) == IndexWorkDone(s, e.ok)
  {
  }

  lemma ReachedSoFar(s: State)
    requires StampsReached(s)
    ensures forall id :: id in s.reading.admitted ==> ReadReached(s, s.reading.admitted[id])
    ensures forall id :: id in s.writing.admitted ==> WriteReached(s, s.writing.admitted[id])
  {
  }

  lemma WriteTaskStamp(s: State)
    requires Inv(s) && s.writing.active.Some? && s.writing.active.value.working
    ensures s.writing.active.value.intent.id in s.writing.admitted
    ensures Fits(s.writing.admitted[s.writing.active.value.intent.id], s.writing.active.value.key, s.writing.active.value.intent)
  {
    hide ScanInv, OneExclusive, RefreshAwake, QueuesAwake;
  }

  // ----- The controller itself -----

  lemma {:induction false} KeepConcat<K>(xs: seq<(K, Intent)>, x: (K, Intent), keys: set<K>)
    ensures Keep(xs + [x], keys) == Keep(xs, keys) + (if x.0 in keys then [] else [x])
  {
    if xs == [] {
      assert xs + [x] == [x];
    } else {
      KeepConcat(xs[1..], x, keys);
      assert (xs + [x])[1..] == xs[1..] + [x];
    }
  }

  /** The first i queued intents of a queue. */
  ghost function Front<K>(q: Queue<K>, i: nat): Queue<K>
    requires i <= |q.pending|
  {
    q.(pending := q.pending[..i])
  }

  lemma CancelledOneMore<K>(q: Queue<K>, keys: set<K>, i: nat)
    requires i < |q.pending|
    ensures var before, after := Supersede(Front(q, i), keys), Supersede(Front(q, i + 1), keys);
            if q.pending[i].0 in keys
            then after == before.(outcomes := before.outcomes[q.pending[i].1.id := Stale])
            else after == before.(pending := before.pending + [q.pending[i]])
  {
    KeepConcat(q.pending[..i], q.pending[i], keys);
    assert q.pending[..i + 1] == q.pending[..i] + [q.pending[i]];
    CancelledIds(q, keys, i);
    hide Keep, PendingIds, Cancelled;
    CancelOne(q.outcomes, PendingIds(Front(q, i), keys), q.pending[i].1.id);
  }

  lemma CancelOne(outcomes: map<nat, Outcome>, ids: set<nat>, id: nat)
    ensures Cancelled(outcomes, ids + {id}) == Cancelled(outcomes, ids)[id := Stale]
    ensures ids + {} == ids
  {
  }

  lemma CancelledIds<K>(q: Queue<K>, keys: set<K>, i: nat)
    requires i < |q.pending|
    ensures PendingIds(Front(q, i + 1), keys) ==
            PendingIds(Front(q, i), keys) + (if q.pending[i].0 in keys then {q.pending[i].1.id} else {})
  {
    var before, after := Front(q, i).pending, Front(q, i + 1).pending;
    assert |after| == |before| + 1 && after[i] == q.pending[i];
    forall k | 0 <= k < i ensures after[k] == before[k] {}
    forall id | id in PendingIds(Front(q, i), keys) ensures id in PendingIds(Front(q, i + 1), keys) {
      var k :| 0 <= k < |before| && before[k].0 in keys && before[k].1.id == id;
      assert after[k].0 in keys && after[k].1.id == id;
    }
    forall id | id in PendingIds(Front(q, i + 1), keys)
      ensures id in PendingIds(Front(q, i), keys) || (q.pending[i].0 in keys && id == q.pending[i].1.id)
    {
      var k :| 0 <= k < |after| && after[k].0 in keys && after[k].1.id == id;
      assert k < i ==> before[k].0 in keys && before[k].1.id == id;
    }
  }

  /** Cancels the queued intents of the keys, one after the other, and deletes them from the queue. */
  method CancelPending<K(==)>(q: Queue<K>, keys: set<K>) returns (r: Queue<K>)
    ensures r == Supersede(q, keys)
  {
    var kept, i := [], 0;
    var outcomes: map<nat, Outcome> := q.outcomes;
    while i < |q.pending|
      invariant i <= |q.pending|
      invariant q.(pending := kept, outcomes := outcomes) == Supersede(Front(q, i), keys)
    {
      CancelledOneMore(q, keys, i);
      hide Supersede;
      var (key, intent) := q.pending[i];
      if key in keys {
        outcomes := outcomes[intent.id := Stale];
      } else {
        kept := kept + [(key, intent)];
      }
      i := i + 1;
    }
    assert Front(q, i) == q;
    r := q.(pending := kept, outcomes := outcomes);
  }

  /** One step per event-loop turn; a promise's work and a scan's answer come back as turns of their own. */
  class LibraryController {
    var ui: LibraryState
    var closed: bool
    var rootEpoch: nat
    var navigation: nat
    var scans: Scans
    var exclusive: bool
    var actions: seq<Action>
    var detailsRequest: nat
    var overlayRequest: nat
    var reading: Queue<Lane>
    var writing: Queue<Purpose>

    constructor ()
      ensures View() == Initial() && Inv(View())
    {
      ui := LibraryState(None, None, 0, false, false);
      closed, rootEpoch, navigation := false, 0, 0;
      scans := Scans(None, false, None, 0, map[]);
      exclusive, actions := false, [];
      detailsRequest, overlayRequest := 0, 0;
      reading, writing := Queue(None, [], 0, map[], map[]), Queue(None, [], 0, map[], map[]);
    }

    function View(): State
      reads this
    {
      State(ui, closed, rootEpoch, navigation, scans, exclusive, actions, detailsRequest, overlayRequest, reading, writing)
    }

    /** publish drops everything after dispose. */
    method Publish(next: LibraryState)
      modifies `ui
      ensures ui == if closed then old(ui) else next
    {
      if closed {
        return;
      }
      ui := next;
    }

    method CompleteRefresh(answer: Answer)
      modifies `scans
      ensures scans == Answered(old(scans), answer)
    {
      if scans.completion.Some? {
        scans := scans.(completion := None, answers := scans.answers[scans.completion.value := answer]);
      }
    }

    method RunRefresh()
      modifies `scans
      ensures View() == PumpRefresh(old(View()))
    {
      if closed || scans.active.Some? || exclusive || !scans.pending {
        return;
      }
      scans := scans.(pending := false);
      scans := scans.(active := Some(Scan(ui.request, rootEpoch, scans.completion)));
    }

    method CancelIndexWrites(maintenance: bool)
      modifies `writing
      ensures View() == SupersedeWrites(old(View()), maintenance)
    {
      writing := CancelPending(writing, if maintenance then PURPOSES else {Replay, History});
    }

    method CancelReplay()
      modifies `reading, `detailsRequest, `overlayRequest
      ensures View() == SupersedeReplay(old(View()))
    {
      detailsRequest := detailsRequest + 1;
      overlayRequest := overlayRequest + 1;
      reading := CancelPending(reading, LANES);
    }

    method AskRefresh()
      modifies this
      ensures View() == Refresh(old(View()))
    {
      hide Supersede;
      if closed || ui.root.None? {
        return;
      }
      CompleteRefresh(NoRefresh);
      scans := scans.(completion := Some(scans.next), next := scans.next + 1);
      scans := scans.(pending := true);
      CancelIndexWrites(true);
      CancelReplay();
      Publish(ui.(request := ui.request + 1, refreshing := true, actionable := false));
      RunRefresh();
    }

    method ChooseRoot(root: string)
      modifies this
      ensures View() == SetRoot(old(View()), root)
    {
      hide Supersede, Refresh;
      if closed || ui.root == Some(root) {
        return;
      }
      rootEpoch := rootEpoch + 1;
      CancelIndexWrites(true);
      CancelReplay();
      navigation := navigation + 1;
      Publish(ui.(root := Some(root), snapshot := None, actionable := false));
      AskRefresh();
    }

    method ScanAnswered(result: Option<Snapshot>)
      requires scans.active.Some?
      modifies `scans, `ui
      ensures View() == ScanDone(old(View()), result)
    {
      var scan := scans.active.value;
      if CurrentScan(View(), scan) {
        if result.Some? {
          Publish(ui.(snapshot := result, refreshing := false, actionable := true));
        } else {
          Publish(ui.(refreshing := false, actionable := false));
        }
      }
      if scans.completion == scan.completion {
        var origin := CurrentOrigin(View());
        if CurrentScan(View(), scan) && ui.actionable && origin.Some? {
          CompleteRefresh(Refreshed(origin.value));
        } else {
          CompleteRefresh(NoRefresh);
        }
      }
      scans := scans.(active := None);
      RunRefresh();
    }

    method Leave()
      modifies this
      ensures View() == Navigate(old(View()))
    {
      navigation := navigation + 1;
      CancelIndexWrites(false);
      CancelReplay();
    }

    method RunIndex()
      modifies `writing
      ensures View() == PumpIndex(old(View()))
    {
      hide CurrentWrite;
      if closed || writing.active.Some? {
        return;
      }
      var at := FirstPurpose();
      if at == |writing.pending| {
        return;
      }
      writing := Start(writing, at, CurrentWrite(View(), writing.pending[at].1));
    }

    /** The queued intent of the first purpose that has one, in the order of urgency. */
    method FirstPurpose() returns (at: nat)
      ensures at == NextWrite(writing)
    {
      var order := [Maintenance, Replay, History];
      var i := 0;
      at := IndexOf(writing.pending, order[0]);
      while i < 2 && at >= |writing.pending|
        invariant i <= 2 && at == IndexOf(writing.pending, order[i])
        invariant forall k :: 0 <= k < i ==> IndexOf(writing.pending, order[k]) >= |writing.pending|
      {
        i := i + 1;
        at := IndexOf(writing.pending, order[i]);
      }
      assert i > 0 ==> IndexOf(writing.pending, order[0]) >= |writing.pending|;
      assert i > 1 ==> IndexOf(writing.pending, order[1]) >= |writing.pending|;
    }

    method AskWrite(origin: Origin, purpose: Purpose)
      modifies `writing
      ensures View() == WriteIndex(old(View()), origin, purpose)
    {
      hide CurrentWrite, PumpIndex;
      var intent := Intent(writing.next, origin, "", 0, !purpose.Maintenance?);
      if !CurrentWrite(View(), intent) {
        writing := Refuse(writing);
        return;
      }
      writing := Enqueue(writing, purpose, intent,
                         Stamp(origin, "", rootEpoch, ui.request, navigation, !purpose.Maintenance?, purpose, 0));
      RunIndex();
    }

    method WriteSettled(ok: bool)
      requires writing.active.Some? && writing.active.value.working
      modifies `writing
      ensures View() == IndexWorkDone(old(View()), ok)
    {
      writing := Finish(writing, CurrentWrite(View(), writing.active.value.intent), ok);
    }

    method WriteOver()
      requires writing.active.Some? && !writing.active.value.working
      modifies `writing
      ensures View() == IndexFinally(old(View()))
    {
      writing := writing.(active := None);
      RunIndex();
    }

    method RunReplay()
      modifies `reading
      ensures View() == PumpReplay(old(View()))
    {
      if closed || reading.active.Some? {
        return;
      }
      if reading.pending == [] {
        return;
      }
      reading := Start(reading, 0, CurrentRead(View(), reading.pending[0].0, reading.pending[0].1));
    }

    method AskRead(origin: Origin, game: string, lane: Lane)
      modifies `reading, `detailsRequest, `overlayRequest
      ensures View() == ReadReplay(old(View()), origin, game, lane)
    {
      hide CurrentRead, PumpReplay, Enqueue;
      if !(MayPublish(View(), origin) && game in ui.snapshot.value.games) {
        reading := Refuse(reading);
        return;
      }
      if lane.Details? {
        detailsRequest := detailsRequest + 1;
      } else {
        overlayRequest := overlayRequest + 1;
      }
      var intent := Intent(reading.next, origin, game, LaneRequest(View(), lane), true);
      reading := Enqueue(reading, lane, intent,
                         Stamp(origin, game, rootEpoch, ui.request, navigation, true, lane, intent.request));
      RunReplay();
    }

    method ReadSettled(ok: bool)
      requires reading.active.Some? && reading.active.value.working
      modifies `reading
      ensures View() == ReadWorkDone(old(View()), ok)
    {
      reading := Finish(reading, CurrentRead(View(), reading.active.value.key, reading.active.value.intent), ok);
    }

    method ReadOver()
      requires reading.active.Some? && !reading.active.value.working
      modifies `reading
      ensures View() == ReadFinally(old(View()))
    {
      reading := reading.(active := None);
      RunReplay();
    }

    method AskAction(action: Action)
      modifies `exclusive, `actions
      ensures View() == StartAction(old(View()), action)
    {
      if !Startable(View(), action) {
        return;
      }
      if Exclusive(action.kind) {
        exclusive := true;
      }
      actions := actions + [action];
    }

    /** A mutation gives up the exclusive lock before it asks for the refresh, the other actions after. */
    method ActionAnswered(i: nat, outputPath: Option<string>)
      requires i < |actions|
      modifies this
      ensures View() == ActionDone(old(View()), i, outputPath)
    {
      hide Refresh, SetRoot, PumpRefresh;
      var action := actions[i];
      actions := actions[..i] + actions[i + 1..];
      if action.kind.Mutation? && !action.kind.independentExport {
        exclusive := false;
      }
      if !closed {
        if action.kind.Settings? && outputPath.Some? {
          if ui.root == outputPath {
            AskRefresh();
          } else {
            ChooseRoot(outputPath.value);
          }
        } else if !action.kind.Storage? && ui.root == Some(action.origin.root) {
          AskRefresh();
        }
      }
      if !action.kind.Mutation? {
        exclusive := false;
      }
      RunRefresh();
    }

    method Close()
      modifies this
      ensures View() == Dispose(old(View()))
    {
      closed := true;
      CancelIndexWrites(true);
      CompleteRefresh(NoRefresh);
      CancelReplay();
      scans := scans.(pending := false);
    }

    /** Every event of a run, handled by the method it reaches. */
    method Handle(e: Event)
      requires Enabled(View(), e) && Inv(View())
      modifies this
      ensures View() == Step(old(View()), e) && Inv(View())
    {
      hide Inv, Refresh, SetRoot, ScanDone, Navigate, WriteIndex, ReadReplay, IndexFinally, ReadFinally, StartAction, ActionDone,
        Dispose, IndexWorkDone, ReadWorkDone;
      StepKeepsInv(View(), e);
      match e
      case RootChosen(root) => ChooseRoot(root);
      case RefreshAsked => AskRefresh();
      case RootInvalidated(root) =>
        if !closed && ui.root == Some(root) {
          AskRefresh();
        }
      case Scanned(result) => ScanAnswered(result);
      case Navigated => Leave();
      case WriteAsked(origin, purpose) => AskWrite(origin, purpose);
      case WriteWorked(ok) => WriteSettled(ok);
      case WriteFinished => WriteOver();
      case ReadAsked(origin, game, lane) => AskRead(origin, game, lane);
      case ReadWorked(ok) => ReadSettled(ok);
      case ReadFinished => ReadOver();
      case ActionAsked(action) => AskAction(action);
      case ActionFinished(index, outputPath) => ActionAnswered(index, outputPath);
      case Disposed => Close();
    }
  }
}
