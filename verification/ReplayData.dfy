/**
 * Replay windows (app/src/replayDataController.ts:195-297): bounded pages of a source's events, cached, debounced and asked
 * for one at a time, against the window query of the index (app/src-tauri/src/league_index/replay.rs:66-181).
 */
module ReplayData {
  import opened StableSorting
  import opened Wrappers

  const PAGE_SIZE: nat := 512
  const CACHE_WINDOWS: nat := 4
  const MAX_RESPONSE_BYTES: nat := 2 * 1024 * 1024

  // ----- The index -----

  datatype Row = Row(tick: nat, id: nat, size: nat)

  datatype Cursor = Cursor(tick: nat, id: nat)

  datatype Roster = Roster(tick: nat, players: string)

  /** What the index holds of one source: its mapped events in (tick, id) order, and its rosters in tick order. */
  datatype SourceData = SourceData(ready: bool, rows: seq<Row>, rosters: seq<Roster>, identities: string)

  type Recording = map<string, SourceData>

  datatype Query = Query(source: string, start: nat, end: nat, at: nat, after: Option<Cursor>)

  datatype Window = Window(source: string, rows: seq<Row>, next: Option<Cursor>, roster: Option<Roster>, identities: string)

  predicate Later(row: Row, c: Cursor) {
    row.tick > c.tick || (row.tick == c.tick && row.id > c.id)
  }

  ghost predicate InOrder(rows: seq<Row>) {
    forall i, j :: 0 <= i < j < |rows| ==> Later(rows[j], Cursor(rows[i].tick, rows[i].id))
  }

  ghost predicate Ordered(rec: Recording) {
    forall source :: source in rec ==> InOrder(rec[source].rows)
  }

  predicate InInterval(row: Row, start: nat, end: nat) {
    start <= row.tick <= end
  }

  predicate Wanted(q: Query, row: Row) {
    InInterval(row, q.start, q.end) && (q.after.Some? ==> Later(row, q.after.value))
  }

  function Wanting(q: Query): Row -> bool {
    row => Wanted(q, row)
  }

  function Data(rec: Recording, source: string): SourceData {
    if source in rec then rec[source] else SourceData(false, [], [], "")
  }

  /** The rows the index selects, before any limit. */
  function Selected(rec: Recording, q: Query): seq<Row> {
    var data := Data(rec, q.source);
    if data.ready then Filter(data.rows, Wanting(q)) else []
  }

  /** How many rows fit a response. */
  function Fit(rows: seq<Row>, limit: nat, bytes: nat): (n: nat)
    ensures n <= |rows| && n <= limit
  {
    if rows == [] || limit == 0 || rows[0].size > bytes then 0 else 1 + Fit(rows[1..], limit - 1, bytes - rows[0].size)
  }

  function LatestRoster(rosters: seq<Roster>, at: nat): Option<Roster> {
    if rosters == [] then None
    else if rosters[|rosters| - 1].tick <= at then Some(rosters[|rosters| - 1])
    else LatestRoster(rosters[..|rosters| - 1], at)
  }

  function EndOf(row: Row): Cursor {
    Cursor(row.tick, row.id)
  }

  /** The index's answer to a query; it is a function of the recording and the query. */
  function Fetched(rec: Recording, q: Query): Window {
    var rows := Selected(rec, q);
    var n := Fit(rows, PAGE_SIZE, MAX_RESPONSE_BYTES);
    var data := Data(rec, q.source);
    Window(q.source, rows[..n], if n < |rows| && n > 0 then Some(EndOf(rows[n - 1])) else None,
           if data.ready then LatestRoster(data.rosters, q.at) else None, if data.ready then data.identities else "")
  }

  /** The index refuses a query whose next row is larger than a whole response. */
  ghost predicate Answerable(rec: Recording, q: Query) {
    var rows := Selected(rec, q);
    forall i :: 0 <= i < |rows| && i <= Fit(rows, PAGE_SIZE, MAX_RESPONSE_BYTES) ==> rows[i].size <= MAX_RESPONSE_BYTES
  }

  // ----- Pages -----

  function Total(rows: seq<Row>): nat {
    if rows == [] then 0 else Total(rows[..|rows| - 1]) + rows[|rows| - 1].size
  }

  lemma {:induction false} TotalHead(rows: seq<Row>)
    requires rows != []
    ensures Total(rows) == rows[0].size + Total(rows[1..])
  {
    if |rows| > 1 {
      TotalHead(rows[..|rows| - 1]);
      assert rows[1..][..|rows| - 2] == rows[..|rows| - 1][1..];
    }
  }

  /** A selection fits whole exactly when it is within both limits. */
  lemma {:induction false} FitsWhole(rows: seq<Row>, limit: nat, bytes: nat)
    ensures Fit(rows, limit, bytes) == |rows| <==> |rows| <= limit && Total(rows) <= bytes
  {
    if rows != [] {
      TotalHead(rows);
      if limit > 0 && rows[0].size <= bytes {
        FitsWhole(rows[1..], limit - 1, bytes - rows[0].size);
      }
    }
  }

  lemma {:induction false} FilterShrinks(rows: seq<Row>, keep: Row -> bool)
    ensures |Filter(rows, keep)| <= |rows| && Total(Filter(rows, keep)) <= Total(rows)
  {
    if rows != [] {
      FilterShrinks(rows[..|rows| - 1], keep);
      var front := Filter(rows[..|rows| - 1], keep);
      if keep(rows[|rows| - 1]) {
        assert (front + [rows[|rows| - 1]])[..|front|] == front;
      } else {
        assert Filter(rows, keep) == front;
      }
    }
  }

  /** The timeline's local clip of a window to the viewport. */
  function Clip(rows: seq<Row>, start: nat, end: nat): seq<Row> {
    Filter(rows, row => InInterval(row, start, end))
  }

  lemma {:induction false} FilterTwice(rows: seq<Row>, outer: Query, q: Query)
    requires outer.after == q.after == None && outer.start <= q.start && q.end <= outer.end
    ensures Clip(Filter(rows, Wanting(outer)), q.start, q.end) == Filter(rows, Wanting(q))
  {
    if rows != [] {
      FilterTwice(rows[..|rows| - 1], outer, q);
      var last := rows[|rows| - 1];
      FilterConcat(Filter(rows[..|rows| - 1], Wanting(outer)), if Wanted(outer, last) then [last] else [],
                   row => InInterval(row, q.start, q.end));
    }
  }

  /** A page already fetched answers a query: same source, same instant, complete, and around the asked interval. */
  predicate Contains(prior: Query, window: Window, q: Query) {
    && prior.after.None? && window.next.None? && prior.source == q.source && prior.at == q.at
    && prior.start <= q.start && q.end <= prior.end
  }

  lemma CompleteMeansWhole(rec: Recording, q: Query)
    requires Answerable(rec, q) && Fetched(rec, q).next.None?
    ensures Fetched(rec, q).rows == Selected(rec, q)
    ensures |Selected(rec, q)| <= PAGE_SIZE && Total(Selected(rec, q)) <= MAX_RESPONSE_BYTES
  {
    var rows := Selected(rec, q);
    FitsWhole(rows, PAGE_SIZE, MAX_RESPONSE_BYTES);
    assert rows != [] ==> rows[0].size <= MAX_RESPONSE_BYTES;
  }

  /** A containing page, clipped to the viewport, is the fresh answer: its events, its roster, and that nothing follows. */
  lemma ContainingPageIsFresh(rec: Recording, prior: Query, q: Query)
    requires q.after.None? && Answerable(rec, prior) && Contains(prior, Fetched(rec, prior), q)
    ensures Clip(Fetched(rec, prior).rows, q.start, q.end) == Fetched(rec, q).rows
    ensures Fetched(rec, q).next.None? && Fetched(rec, q).roster == Fetched(rec, prior).roster
    ensures Fetched(rec, q).identities == Fetched(rec, prior).identities
  {
    CompleteMeansWhole(rec, prior);
    var data := Data(rec, q.source);
    if data.ready {
      FilterTwice(data.rows, prior, q);
    }
    FilterShrinks(Selected(rec, prior), row => InInterval(row, q.start, q.end));
    FitsWhole(Selected(rec, q), PAGE_SIZE, MAX_RESPONSE_BYTES);
  }

  /** A page that is not the last one advances, and what it leaves out is what the query after its cursor selects. */
  lemma PagesFollowOn(rec: Recording, q: Query)
    requires Ordered(rec) && Answerable(rec, q)
    ensures var w := Fetched(rec, q);
            var rest := if w.next.Some? then Selected(rec, q.(after := w.next)) else [];
            Selected(rec, q) == w.rows + rest && (w.next.Some? ==> w.rows != [])
  {
    var rows := Selected(rec, q);
    var w := Fetched(rec, q);
    if w.next.None? {
      CompleteMeansWhole(rec, q);
    } else {
      var n, c := |w.rows|, w.next.value;
      SelectedInOrder(rec, q);
      assert Wanted(q, rows[n - 1]);
      SelectAfter(Data(rec, q.source).rows, q, c);
      SplitAfter(rows, n, c);
      hide Filter, Fit, Wanted, InOrder, Ordered;
      assert Selected(rec, q.(after := Some(c))) == rows[n..];
      assert rows == rows[..n] + rows[n..];
    }
  }

  lemma {:induction false} FilterInOrder(rows: seq<Row>, q: Query)
    requires InOrder(rows)
    ensures InOrder(Filter(rows, Wanting(q)))
  {
    if rows != [] {
      var front, last := rows[..|rows| - 1], rows[|rows| - 1];
      FilterInOrder(front, q);
      FilterMember(front, Wanting(q));
      var kept := Filter(front, Wanting(q));
      forall i | 0 <= i < |kept| ensures Later(last, EndOf(kept[i])) {
        assert kept[i] in front;
      }
    }
  }

  lemma SelectedInOrder(rec: Recording, q: Query)
    requires Ordered(rec)
    ensures InOrder(Selected(rec, q))
    ensures forall i :: 0 <= i < |Selected(rec, q)| ==> Wanted(q, Selected(rec, q)[i])
  {
    FilterInOrder(Data(rec, q.source).rows, q);
    FilterMember(Data(rec, q.source).rows, Wanting(q));
    forall i | 0 <= i < |Selected(rec, q)| ensures Wanted(q, Selected(rec, q)[i]) {
      assert Selected(rec, q)[i] in Selected(rec, q);
    }
  }

  /** Moving the cursor forward within the selection only drops rows. */
  lemma {:induction false} SelectAfter(rows: seq<Row>, q: Query, c: Cursor)
    requires q.after.Some? ==> q.after.value.tick < c.tick || (q.after.value.tick == c.tick && q.after.value.id <= c.id)
    ensures Filter(rows, Wanting(q.(after := Some(c)))) ==
            Filter(Filter(rows, Wanting(q)), row => Later(row, c))
  {
    if rows != [] {
      var last := rows[|rows| - 1];
      SelectAfter(rows[..|rows| - 1], q, c);
      FilterConcat(Filter(rows[..|rows| - 1], Wanting(q)), if Wanted(q, last) then [last] else [],
                   row => Later(row, c));
    }
  }

  lemma {:induction false} SplitAfter(rows: seq<Row>, n: nat, c: Cursor)
    requires InOrder(rows) && 0 < n <= |rows| && c == EndOf(rows[n - 1])
    ensures Filter(rows, row => Later(row, c)) == rows[n..]
    decreases |rows|
  {
    var front := rows[..|rows| - 1];
    if n < |rows| {
      SplitAfter(front, n, c);
      assert rows[n..] == front[n..] + [rows[|rows| - 1]];
    } else {
      NoneLater(front, c);
    }
  }

  lemma {:induction false} NoneLater(rows: seq<Row>, c: Cursor)
    requires forall i :: 0 <= i < |rows| ==> !Later(rows[i], c)
    ensures Filter(rows, row => Later(row, c)) == []
  {
    if rows != [] {
      NoneLater(rows[..|rows| - 1], c);
    }
  }

  // ----- The controller's state -----

  datatype Intent = Intent(id: nat, query: Query)

  /** A window object with the query it answers. */
  datatype Cached = Cached(query: Query, window: Window)

  /** timers holds the live timeouts and tasks the queued microtasks, each with the intent its callback captured. */
  datatype State = State(
    closed: bool, scopes: seq<string>, cache: seq<Cached>, shown: Option<Cached>,
    generation: nat, active: Option<Intent>, pending: Option<Intent>, deferred: Option<Intent>, latest: Option<Query>,
    timers: map<nat, Intent>, handles: nat, debounce: Option<nat>, tasks: seq<Intent>, loading: bool, failed: bool)

  predicate CurrentWindow(s: State, intent: Intent) {
    !s.closed && intent.id == s.generation
  }

  function WithoutTimer(timers: map<nat, Intent>, handle: nat): map<nat, Intent> {
    map other | other in timers && other != handle :: timers[other]
  }

  /** Cancelling a timer keeps its handle, and cancelling one that has fired does nothing. */
  function Unscheduled(s: State): State {
    if s.debounce.None? then s else s.(timers := WithoutTimer(s.timers, s.debounce.value))
  }

  function Cancelled(s: State): State {
    Unscheduled(s).(debounce := None)
  }

  /** Once its source is known, the deferred window is dispatched by a timer, or at once where no gesture can precede it. */
  function Arm(s: State): State {
    if s.closed || s.deferred.None? || s.deferred.value.query.source !in s.scopes then s
    else
      var armed := Unscheduled(s).(loading := true);
      if s.shown.Some? || s.active.Some?
      then armed.(timers := armed.timers[s.handles := s.deferred.value], debounce := Some(s.handles), handles := s.handles + 1)
      else armed.(tasks := armed.tasks + [s.deferred.value])
  }

  function PumpWindow(s: State): State {
    if s.closed || s.active.Some? || s.pending.None? then s
    else
      var taken := s.(pending := None);
      if CurrentWindow(taken, s.pending.value) then taken.(active := s.pending, loading := true) else taken
  }

  /** The callback of a timer or microtask; only the one of the deferred window does anything. */
  function Dispatch(s: State, scheduled: Intent): State {
    if s.deferred != Some(scheduled) then s
    else
      var taken := s.(debounce := None, deferred := None);
      if !CurrentWindow(taken, scheduled) || scheduled.query.source !in s.scopes then taken
      else PumpWindow(taken.(pending := Some(scheduled)))
  }

  function FindExact(cache: seq<Cached>, q: Query): (i: nat)
    ensures i <= |cache| && (i < |cache| ==> cache[i].query == q)
  {
    if cache == [] || cache[0].query == q then 0 else 1 + FindExact(cache[1..], q)
  }

  function FindContaining(cache: seq<Cached>, q: Query): (i: nat)
    ensures i <= |cache| && (i < |cache| ==> Contains(cache[i].query, cache[i].window, q))
  {
    if cache == [] || Contains(cache[0].query, cache[0].window, q) then 0 else 1 + FindContaining(cache[1..], q)
  }

  function Lookup(cache: seq<Cached>, q: Query): (hit: Option<Cached>)
    ensures hit.Some? ==> hit.value in cache
    ensures hit.Some? ==> hit.value.query == q || Contains(hit.value.query, hit.value.window, q)
  {
    var exact := FindExact(cache, q);
    var around := FindContaining(cache, q);
    if exact < |cache| then Some(cache[exact]) else if around < |cache| then Some(cache[around]) else None
  }

  function First(q: Query): Query {
    q.(after := None)
  }

  /** A new intent takes the place of whatever was deferred or queued. */
  function Asked(s: State, q: Query): State {
    Cancelled(s).(latest := Some(First(q)), generation := s.generation + 1, pending := None,
                  deferred := Some(Intent(s.generation + 1, First(q))))
  }

  function Served(s: State, hit: Cached): State {
    s.(deferred := None, shown := Some(hit), failed := false, loading := false)
  }

  function RequestWindow(s: State, q: Query): State {
    if s.closed then s
    else
      var asked := Asked(s, q);
      var hit := Lookup(s.cache, First(q));
      if q.source !in s.scopes then asked.(loading := false)
      else if hit.Some? then Served(asked, hit.value)
      else Arm(asked)
  }

  function LoadMore(s: State): State {
    if s.closed || s.shown.None? || s.shown.value.window.next.None? then s
    else
      var query := s.shown.value.query.(after := s.shown.value.window.next);
      Arm(s.(generation := s.generation + 1, pending := None, deferred := Some(Intent(s.generation + 1, query))))
  }

  function NotFor(q: Query): Cached -> bool {
    (c: Cached) => c.query != q
  }

  /** The newest page first, no other page of its key, four pages in all. */
  function Stored(cache: seq<Cached>, page: Cached): seq<Cached> {
    var windows := [page] + Filter(cache, NotFor(page.query));
    if |windows| > CACHE_WINDOWS then windows[..CACHE_WINDOWS] else windows
  }

  /** The answer to the window in flight, or its failure. */
  function Settled(s: State, intent: Intent, answer: Option<Window>): State {
    if !CurrentWindow(s, intent) then s
    else if answer.None? || answer.value.source != intent.query.source || |answer.value.rows| > PAGE_SIZE then s.(failed := true)
    else
      var page := Cached(intent.query, answer.value);
      s.(cache := Stored(s.cache, page), shown := Some(page), failed := false)
  }

  /** The finally-callback. */
  function WindowOver(s: State): State {
    var over := s.(active := None);
    PumpWindow(if !over.closed && over.pending.None? && over.deferred.None? then over.(loading := false) else over)
  }

  function WindowCame(s: State, answer: Option<Window>): State
    requires s.active.Some?
  {
    WindowOver(Settled(s, s.active.value, answer))
  }

  function SetScopes(s: State, scopes: seq<string>): State {
    if s.closed then s else Arm(s.(scopes := scopes))
  }

  function Dispose(s: State): State {
    Cancelled(s).(closed := true, generation := s.generation + 1, pending := None, deferred := None)
  }

  datatype Event =
    | Requested(query: Query)
    | RequestedAgain
    | MoreAsked
    | ScopesRead(scopes: seq<string>)
    | TimerFired(handle: nat)
    | TaskRan
    | WindowRead(answer: Option<Window>)
    | Disposed

  /** A successful answer is the index's; any query may fail. */
  ghost predicate Enabled(s: State, rec: Recording, e: Event) {
    && (e.TimerFired? ==> e.handle in s.timers)
    && (e.TaskRan? ==> s.tasks != [])
    && (e.WindowRead? ==>
          s.active.Some?
          && (e.answer.Some? ==> Answerable(rec, s.active.value.query) && e.answer.value == Fetched(rec, s.active.value.query)))
  }

  ghost function Step(s: State, rec: Recording, e: Event): State
    requires Enabled(s, rec, e)
  {
    match e
    case Requested(query) => RequestWindow(s, query)
    case RequestedAgain => if s.latest.Some? then RequestWindow(s, s.latest.value) else s
    case MoreAsked => LoadMore(s)
    case ScopesRead(scopes) => SetScopes(s, scopes)
    case TimerFired(handle) =>
      Dispatch(s.(timers := WithoutTimer(s.timers, handle)), s.timers[handle])
    case TaskRan => Dispatch(s.(tasks := s.tasks[1..]), s.tasks[0])
    case WindowRead(answer) => WindowCame(s, answer)
    case Disposed => Dispose(s)
  }

  // ----- Invariant -----

  ghost predicate Genuine(rec: Recording, c: Cached) {
    Answerable(rec, c.query) && c.window == Fetched(rec, c.query)
  }

  ghost predicate DistinctKeys(cache: seq<Cached>) {
    forall i, j :: 0 <= i < j < |cache| ==> cache[i].query != cache[j].query
  }

  ghost predicate CacheInv(s: State, rec: Recording) {
    && |s.cache| <= CACHE_WINDOWS
    && (forall i :: 0 <= i < |s.cache| ==> Genuine(rec, s.cache[i]))
    && DistinctKeys(s.cache)
    && (s.shown.Some? ==> Genuine(rec, s.shown.value))
  }

  /** The newest intent is waiting for its timer, queued behind the window in flight, or in flight; older ones are dead. */
  ghost predicate IntentInv(s: State) {
    && (s.active.Some? ==> s.active.value.id <= s.generation)
    && (s.pending.Some? ==> s.pending.value.id == s.generation && s.active.Some? && s.active.value.id < s.generation && !s.closed)
    && (s.deferred.Some? ==>
          && s.deferred.value.id == s.generation && s.pending.None? && !s.closed
          && (s.active.Some? ==> s.active.value.id < s.generation))
    && (forall handle :: handle in s.timers ==> handle < s.handles)
    && (s.debounce.Some? ==> s.debounce.value < s.handles)
  }

  ghost predicate Armed(s: State) {
    || (s.debounce.Some? && s.debounce.value in s.timers && Some(s.timers[s.debounce.value]) == s.deferred)
    || (s.deferred.Some? && s.deferred.value in s.tasks)
  }

  /** No window is lost: a deferred one of a known source has a callback to come; and whatever is due shows as loading. */
  ghost predicate Awake(s: State) {
    && (s.deferred.Some? && s.deferred.value.query.source in s.scopes ==> Armed(s) && s.loading)
    && (s.pending.Some? ==> s.loading)
    && (s.active.Some? && CurrentWindow(s, s.active.value) ==> s.loading)
  }

  ghost predicate Inv(s: State, rec: Recording) {
    CacheInv(s, rec) && IntentInv(s) && Awake(s)
  }

  lemma CancelledKeeps(s: State)
    requires IntentInv(s)
    ensures var b := Cancelled(s);
            IntentInv(b) && b == s.(timers := b.timers, debounce := None)
            && forall handle :: handle in b.timers ==> handle in s.timers && b.timers[handle] == s.timers[handle]
    ensures IntentInv(Unscheduled(s))
  {
  }

  lemma ArmKeeps(s: State)
    requires IntentInv(s) && (s.pending.Some? ==> s.loading) && (s.active.Some? && CurrentWindow(s, s.active.value) ==> s.loading)
    ensures IntentInv(Arm(s)) && Awake(Arm(s))
    ensures var b := Arm(s);
            b == s.(timers := b.timers, debounce := b.debounce, handles := b.handles, tasks := b.tasks, loading := b.loading)
  {
    hide WithoutTimer;
    CancelledKeeps(s);
    if !(s.closed || s.deferred.None? || s.deferred.value.query.source !in s.scopes) {
      assert s.deferred.value in (s.tasks + [s.deferred.value]);
    }
  }

  lemma RequestKeeps(s: State, rec: Recording, q: Query)
    requires Inv(s, rec)
    ensures Inv(RequestWindow(s, q), rec)
  {
    hide Cancelled, Arm, Lookup, Genuine, DistinctKeys, WithoutTimer, Unscheduled;
    CancelledKeeps(s);
    if !s.closed {
      var asked := Cancelled(s).(latest := Some(First(q)), generation := s.generation + 1, pending := None,
                                 deferred := Some(Intent(s.generation + 1, First(q))));
      ArmKeeps(asked);
    }
  }

  lemma LoadMoreKeeps(s: State, rec: Recording)
    requires Inv(s, rec)
    ensures Inv(LoadMore(s), rec)
  {
    hide Arm, Genuine;
    if !(s.closed || s.shown.None? || s.shown.value.window.next.None?) {
      var query := s.shown.value.query.(after := s.shown.value.window.next);
      ArmKeeps(s.(generation := s.generation + 1, pending := None, deferred := Some(Intent(s.generation + 1, query))));
    }
  }

  lemma ScopesKeep(s: State, rec: Recording, scopes: seq<string>)
    requires Inv(s, rec)
    ensures Inv(SetScopes(s, scopes), rec)
  {
    hide Arm, Genuine;
    ArmKeeps(s.(scopes := scopes));
  }

  lemma DisposeKeeps(s: State, rec: Recording)
    requires Inv(s, rec)
    ensures Inv(Dispose(s), rec)
  {
    hide Cancelled, Genuine;
    CancelledKeeps(s);
  }

  /** A callback's own record is gone; only the deferred window's may matter, and then it is dispatched. */
  lemma DispatchKeeps(s: State, rec: Recording, scheduled: Intent)
    requires CacheInv(s, rec) && IntentInv(s)
    requires s.deferred == Some(scheduled) || Awake(s)
    requires (s.pending.Some? ==> s.loading) && (s.active.Some? && CurrentWindow(s, s.active.value) ==> s.loading)
    requires s.deferred == Some(scheduled) && scheduled.query.source in s.scopes ==> s.loading
    ensures Inv(Dispatch(s, scheduled), rec)
  {
    hide Genuine;
  }

  lemma TimerKeeps(s: State, rec: Recording, handle: nat)
    requires Inv(s, rec) && handle in s.timers
    ensures Inv(Step(s, rec, TimerFired(handle)), rec)
  {
    hide Dispatch, Genuine;
    var fired := s.(timers := WithoutTimer(s.timers, handle));
    DispatchKeeps(fired, rec, s.timers[handle]);
  }

  lemma TaskKeeps(s: State, rec: Recording)
    requires Inv(s, rec) && s.tasks != []
    ensures Inv(Step(s, rec, TaskRan), rec)
  {
    hide Dispatch, Genuine;
    var ran := s.(tasks := s.tasks[1..]);
    assert forall x :: x in s.tasks ==> x == s.tasks[0] || x in s.tasks[1..];
    DispatchKeeps(ran, rec, s.tasks[0]);
  }

  lemma StoredInv(cache: seq<Cached>, page: Cached, rec: Recording)
    requires forall i :: 0 <= i < |cache| ==> Genuine(rec, cache[i])
    requires DistinctKeys(cache) && Genuine(rec, page)
    ensures var stored := Stored(cache, page);
            && stored != [] && stored[0] == page && |stored| <= CACHE_WINDOWS
            && (forall i :: 0 <= i < |stored| ==> Genuine(rec, stored[i]))
            && DistinctKeys(stored)
  {
    hide Genuine;
    var others := Filter(cache, NotFor(page.query));
    FilterMember(cache, NotFor(page.query));
    FilterDistinct(cache, page.query);
    forall i | 0 <= i < |others| ensures others[i] in cache && others[i].query != page.query {
      assert others[i] in others;
    }
  }

  lemma {:induction false} FilterDistinct(cache: seq<Cached>, q: Query)
    requires DistinctKeys(cache)
    ensures DistinctKeys(Filter(cache, NotFor(q)))
  {
    if cache != [] {
      var front, last := cache[..|cache| - 1], cache[|cache| - 1];
      FilterDistinct(front, q);
      FilterMember(front, NotFor(q));
      var kept := Filter(front, NotFor(q));
      forall i | 0 <= i < |kept| ensures kept[i].query != last.query {
        assert kept[i] in front;
      }
      assert Filter(cache, NotFor(q)) == kept + if last.query != q then [last] else [];
    }
  }

  lemma SettledKeeps(s: State, rec: Recording, intent: Intent, answer: Option<Window>)
    requires CacheInv(s, rec)
    requires answer.Some? ==> Answerable(rec, intent.query) && answer.value == Fetched(rec, intent.query)
    ensures var b := Settled(s, intent, answer);
            CacheInv(b, rec) && b == s.(cache := b.cache, shown := b.shown, failed := b.failed)
  {
    if answer.Some? {
      StoredInv(s.cache, Cached(intent.query, answer.value), rec);
    }
    hide Stored, Fetched, Answerable;
  }

  lemma OverKeeps(s: State, rec: Recording)
    requires Inv(s, rec) && s.active.Some?
    ensures Inv(WindowOver(s), rec)
  {
    hide Genuine, DistinctKeys;
  }

  lemma WindowKeeps(s: State, rec: Recording, answer: Option<Window>)
    requires Inv(s, rec) && Enabled(s, rec, WindowRead(answer))
    ensures Inv(WindowCame(s, answer), rec)
  {
    hide CacheInv, WindowOver, Settled;
    SettledKeeps(s, rec, s.active.value, answer);
    OverKeeps(Settled(s, s.active.value, answer), rec);
  }

  lemma StepKeepsInv(s: State, rec: Recording, e: Event)
    requires Inv(s, rec) && Enabled(s, rec, e)
    ensures Inv(Step(s, rec, e), rec)
  {
    hide Inv, RequestWindow, LoadMore, SetScopes, WindowCame, Dispose, Dispatch;
    match e
    case Requested(query) => RequestKeeps(s, rec, query);
    case RequestedAgain =>
      if s.latest.Some? {
        RequestKeeps(s, rec, s.latest.value);
      }
    case MoreAsked => LoadMoreKeeps(s, rec);
    case ScopesRead(scopes) => ScopesKeep(s, rec, scopes);
    case TimerFired(handle) => TimerKeeps(s, rec, handle);
    case TaskRan => TaskKeeps(s, rec);
    case WindowRead(answer) => WindowKeeps(s, rec, answer);
    case Disposed => DisposeKeeps(s, rec);
  }

  // ----- Whole runs -----

  function Initial(): State {
    State(false, [], [], None, 0, None, None, None, None, map[], 0, None, [], false, false)
  }

  ghost predicate IsRun(states: seq<State>, events: seq<Event>, rec: Recording) {
    && |states| == |events| + 1 && states[0] == Initial()
    && forall i :: 0 <= i < |events| ==> Takes(states[i], events[i], rec, states[i + 1])
  }

  ghost predicate Takes(a: State, e: Event, rec: Recording, b: State) {
    Enabled(a, rec, e) && b == Step(a, rec, e)
  }

  lemma TakesKeepsInv(a: State, e: Event, rec: Recording, b: State)
    requires Inv(a, rec) && Takes(a, e, rec, b)
    ensures Inv(b, rec)
  {
    hide Inv, Step, Enabled;
    StepKeepsInv(a, rec, e);
  }

  lemma {:induction false} RunKeepsInv(states: seq<State>, events: seq<Event>, rec: Recording, i: nat)
    requires IsRun(states, events, rec) && i < |states|
    ensures Inv(states[i], rec)
  {
    if i > 0 {
      hide Inv, Initial, Takes;
      RunKeepsInv(states, events, rec, i - 1);
      TakesKeepsInv(states[i - 1], events[i - 1], rec, states[i]);
    }
  }

  /** The query that a new intent of this step is for. */
  ghost function Made(s: State, e: Event): Option<Query> {
    match e
    case Requested(query) => Some(First(query))
    case RequestedAgain => if s.latest.Some? then Some(First(s.latest.value)) else None
    case MoreAsked => if s.shown.Some? then Some(s.shown.value.query.(after := s.shown.value.window.next)) else None
    case _ => None
  }

  /** The query of the newest request so far. */
  ghost function Newest(states: seq<State>, events: seq<Event>, i: nat): Option<Query>
    requires |states| == |events| + 1 && i < |states|
  {
    if i == 0 then None
    else if states[i].generation == states[i - 1].generation then Newest(states, events, i - 1)
    else Made(states[i - 1], events[i - 1])
  }

  /** Whatever is still going to set the shown window is the newest request's. */
  ghost predicate NamesNewest(s: State, newest: Option<Query>) {
    && (s.deferred.Some? ==> newest == Some(s.deferred.value.query))
    && (s.pending.Some? ==> newest == Some(s.pending.value.query))
    && (s.active.Some? && CurrentWindow(s, s.active.value) ==> newest == Some(s.active.value.query))
  }

  lemma RequestNames(s: State, q: Query, newest: Option<Query>)
    requires IntentInv(s) && NamesNewest(s, newest)
    ensures var b := RequestWindow(s, q); NamesNewest(b, if b.generation == s.generation then newest else Some(First(q)))
  {
    hide Lookup, Cancelled, Arm;
    CancelledKeeps(s);
    if !s.closed {
      ArmFrame(Cancelled(s).(latest := Some(First(q)), generation := s.generation + 1, pending := None,
                             deferred := Some(Intent(s.generation + 1, First(q)))));
    }
  }

  lemma ArmFrame(s: State)
    ensures var b := Arm(s);
            b == s.(timers := b.timers, debounce := b.debounce, handles := b.handles, tasks := b.tasks, loading := b.loading)
  {
  }

  lemma LoadMoreNames(s: State, newest: Option<Query>)
    requires IntentInv(s) && NamesNewest(s, newest)
    ensures var b := LoadMore(s); NamesNewest(b, if b.generation == s.generation then newest else Made(s, MoreAsked))
  {
  }

  lemma ScopesName(s: State, scopes: seq<string>, newest: Option<Query>)
    requires NamesNewest(s, newest)
    ensures NamesNewest(SetScopes(s, scopes), newest) && SetScopes(s, scopes).generation == s.generation
  {
  }

  lemma DispatchNames(s: State, scheduled: Intent, newest: Option<Query>)
    requires NamesNewest(s, newest)
    ensures NamesNewest(Dispatch(s, scheduled), newest) && Dispatch(s, scheduled).generation == s.generation
  {
  }

  lemma SettledNames(s: State, intent: Intent, answer: Option<Window>, newest: Option<Query>)
    requires NamesNewest(s, newest)
    ensures NamesNewest(Settled(s, intent, answer), newest) && Settled(s, intent, answer).generation == s.generation
  {
    hide Stored;
  }

  lemma OverNames(s: State, newest: Option<Query>)
    requires NamesNewest(s, newest)
    ensures NamesNewest(WindowOver(s), newest) && WindowOver(s).generation == s.generation
  {
  }

  lemma WindowNames(s: State, answer: Option<Window>, newest: Option<Query>)
    requires NamesNewest(s, newest) && s.active.Some?
    ensures NamesNewest(WindowCame(s, answer), newest) && WindowCame(s, answer).generation == s.generation
  {
    hide NamesNewest, Settled, WindowOver;
    SettledNames(s, s.active.value, answer, newest);
    OverNames(Settled(s, s.active.value, answer), newest);
  }

  lemma DisposeNames(s: State)
    ensures NamesNewest(Dispose(s), None) && Dispose(s).generation != s.generation
  {
  }

  lemma StepNamesNewest(s: State, e: Event, rec: Recording, b: State, newest: Option<Query>)
    requires IntentInv(s) && NamesNewest(s, newest) && Takes(s, e, rec, b)
    ensures NamesNewest(b, if b.generation == s.generation then newest else Made(s, e))
  {
    hide IntentInv, RequestWindow, LoadMore, SetScopes, Dispatch, WindowCame, Dispose, Answerable, Fetched;
    match e
    case Requested(query) => RequestNames(s, query, newest);
    case RequestedAgain =>
      if s.latest.Some? {
        RequestNames(s, s.latest.value, newest);
      }
    case MoreAsked => LoadMoreNames(s, newest);
    case ScopesRead(scopes) => ScopesName(s, scopes, newest);
    case TimerFired(handle) =>
      DispatchNames(s.(timers := WithoutTimer(s.timers, handle)), s.timers[handle], newest);
    case TaskRan => DispatchNames(s.(tasks := s.tasks[1..]), s.tasks[0], newest);
    case WindowRead(answer) => WindowNames(s, answer, newest);
    case Disposed => DisposeNames(s);
  }

  lemma {:induction false} RunNamesNewest(states: seq<State>, events: seq<Event>, rec: Recording, i: nat)
    requires IsRun(states, events, rec) && i < |states|
    ensures NamesNewest(states[i], Newest(states, events, i))
  {
    hide Takes, NamesNewest;
    if i == 0 {
      InitialNames();
    } else {
      RunNamesNewest(states, events, rec, i - 1);
      NamesOneMore(states, events, rec, i - 1);
    }
  }

  lemma InitialNames()
    ensures NamesNewest(Initial(), None)
  {
  }

  lemma NamesOneMore(states: seq<State>, events: seq<Event>, rec: Recording, i: nat)
    requires IsRun(states, events, rec) && i < |events| && NamesNewest(states[i], Newest(states, events, i))
    ensures NamesNewest(states[i + 1], Newest(states, events, i + 1))
  {
    hide Inv, Takes, NamesNewest, Made, IntentInv, CacheInv, Awake;
    RunKeepsInv(states, events, rec, i);
    IntentsOf(states[i], rec);
    StepNamesNewest(states[i], events[i], rec, states[i + 1], Newest(states, events, i));
  }

  lemma IntentsOf(s: State, rec: Recording)
    requires Inv(s, rec)
    ensures IntentInv(s) && CacheInv(s, rec) && Awake(s)
  {
  }

  /** A window serves a query as a fresh answer would, once clipped to the asked interval. */
  ghost predicate Serves(rec: Recording, q: Query, c: Cached) {
    var whole := Fetched(rec, q);
    && Clip(c.window.rows, q.start, q.end) == whole.rows
    && c.window.next == whole.next && c.window.roster == whole.roster && c.window.identities == whole.identities
  }

  lemma OwnPageServes(rec: Recording, q: Query)
    ensures Serves(rec, q, Cached(q, Fetched(rec, q)))
  {
    FilterMember(Data(rec, q.source).rows, Wanting(q));
    var rows := Fetched(rec, q).rows;
    forall i | 0 <= i < |rows| ensures InInterval(rows[i], q.start, q.end) {
      assert rows[i] in Selected(rec, q);
    }
    ClipAll(rows, q.start, q.end);
  }

  lemma {:induction false} ClipAll(rows: seq<Row>, start: nat, end: nat)
    requires forall i :: 0 <= i < |rows| ==> InInterval(rows[i], start, end)
    ensures Clip(rows, start, end) == rows
  {
    if rows != [] {
      ClipAll(rows[..|rows| - 1], start, end);
    }
  }

  lemma HitServes(s: State, rec: Recording, q: Query)
    requires CacheInv(s, rec) && Lookup(s.cache, First(q)).Some?
    ensures Serves(rec, First(q), Lookup(s.cache, First(q)).value)
  {
    var hit := Lookup(s.cache, First(q)).value;
    assert Genuine(rec, hit);
    hide Lookup, Fetched, Answerable, Clip;
    if hit.query == First(q) {
      OwnPageServes(rec, First(q));
    } else {
      ContainingPageIsFresh(rec, hit.query, First(q));
    }
  }

  lemma RequestShows(s: State, rec: Recording, q: Query)
    requires CacheInv(s, rec)
    ensures var b := RequestWindow(s, q);
            b.shown != s.shown ==> b.generation != s.generation && b.shown.Some? && Serves(rec, First(q), b.shown.value)
  {
    hide Lookup, Fetched, CacheInv, Serves;
    if Lookup(s.cache, First(q)).Some? {
      HitServes(s, rec, q);
    }
  }

  lemma WindowShows(s: State, rec: Recording, answer: Option<Window>)
    requires Enabled(s, rec, WindowRead(answer))
    ensures var b := WindowCame(s, answer);
            b.shown != s.shown ==>
              && CurrentWindow(s, s.active.value) && b.generation == s.generation
              && b.shown == Some(Cached(s.active.value.query, Fetched(rec, s.active.value.query)))
  {
    hide Stored, Fetched, Answerable;
  }

  lemma DispatchShows(s: State, scheduled: Intent)
    ensures Dispatch(s, scheduled).shown == s.shown
  {
  }

  lemma ArmingShows(s: State, scopes: seq<string>)
    ensures LoadMore(s).shown == SetScopes(s, scopes).shown == Dispose(s).shown == s.shown
  {
    hide Arm;
    ArmFrame(s.(scopes := scopes));
    if s.shown.Some? {
      var query := s.shown.value.query.(after := s.shown.value.window.next);
      ArmFrame(s.(generation := s.generation + 1, pending := None, deferred := Some(Intent(s.generation + 1, query))));
    }
  }

  lemma OthersShow(s: State, e: Event, rec: Recording, b: State)
    requires Takes(s, e, rec, b) && !e.Requested? && !e.RequestedAgain? && !e.WindowRead?
    ensures b.shown == s.shown
  {
    hide Fetched, Answerable, Dispatch, LoadMore, SetScopes, Dispose;
    ArmingShows(s, if e.ScopesRead? then e.scopes else s.scopes);
    match e
    case TimerFired(handle) =>
      DispatchShows(s.(timers := WithoutTimer(s.timers, handle)), s.timers[handle]);
    case TaskRan => DispatchShows(s.(tasks := s.tasks[1..]), s.tasks[0]);
    case _ =>
  }

  lemma StepShows(s: State, e: Event, rec: Recording, b: State)
    requires CacheInv(s, rec) && Takes(s, e, rec, b) && b.shown != s.shown
    ensures b.shown.Some?
    ensures b.generation != s.generation ==> Made(s, e).Some? && Serves(rec, Made(s, e).value, b.shown.value)
    ensures b.generation == s.generation ==>
              s.active.Some? && CurrentWindow(s, s.active.value) && Serves(rec, s.active.value.query, b.shown.value)
  {
    hide RequestWindow, Fetched, Answerable, CacheInv, Serves, WindowCame;
    match e
    case Requested(query) => RequestShows(s, rec, query);
    case RequestedAgain => RequestShows(s, rec, s.latest.value);
    case WindowRead(answer) =>
      WindowShows(s, rec, answer);
      OwnPageServes(rec, s.active.value.query);
    case _ => OthersShow(s, e, rec, b);
  }

  /**
   * Whatever becomes the shown window answers the newest request, and answers it as a fresh query to the index would:
   * after clipping to the viewport, the same events, roster and identities, and the same continuation.
   */
  lemma ShownWindowServesTheNewestRequest(states: seq<State>, events: seq<Event>, rec: Recording, i: nat)
    requires IsRun(states, events, rec) && i < |events| && states[i + 1].shown != states[i].shown
    ensures Newest(states, events, i + 1).Some? && states[i + 1].shown.Some?
    ensures Serves(rec, Newest(states, events, i + 1).value, states[i + 1].shown.value)
  {
    hide Inv, Takes, Initial, Serves, CacheInv, Made;
    RunKeepsInv(states, events, rec, i);
    IntentsOf(states[i], rec);
    RunNamesNewest(states, events, rec, i);
    StepShows(states[i], events[i], rec, states[i + 1]);
  }

  /** A step that starts a window starts the newest one. */
  lemma StartsTheNewest(s: State, e: Event, rec: Recording, b: State)
    requires Takes(s, e, rec, b) && b.active.Some? && b.active != s.active
    ensures CurrentWindow(b, b.active.value)
  {
    hide Stored, Lookup, Fetched, Answerable, Arm, WithoutTimer;
    match e
    case Requested(query) => RequestStarts(s, query);
    case RequestedAgain => RequestStarts(s, s.latest.value);
    case MoreAsked => ArmFrame(s.(generation := s.generation + 1, pending := None, deferred := Some(Intent(s.generation + 1,
                                 s.shown.value.query.(after := s.shown.value.window.next)))));
    case ScopesRead(scopes) => ArmFrame(s.(scopes := scopes));
    case _ =>
  }

  lemma RequestStarts(s: State, q: Query)
    ensures RequestWindow(s, q).active == s.active
  {
    hide Lookup, Arm, WithoutTimer;
    ArmFrame(Asked(s, q));
  }

  /** The index is only ever asked for the newest request: whatever was superseded before its turn is never fetched. */
  lemma OnlyTheNewestIsFetched(states: seq<State>, events: seq<Event>, rec: Recording, i: nat)
    requires IsRun(states, events, rec) && i < |events|
    requires states[i + 1].active.Some? && states[i + 1].active != states[i].active
    ensures Newest(states, events, i + 1) == Some(states[i + 1].active.value.query)
  {
    hide Takes, Initial, Newest;
    RunNamesNewest(states, events, rec, i + 1);
    StartsTheNewest(states[i], events[i], rec, states[i + 1]);
  }

  function CachedRows(cache: seq<Cached>): nat {
    if cache == [] then 0 else CachedRows(cache[..|cache| - 1]) + |cache[|cache| - 1].window.rows|
  }

  lemma {:induction false} FewRows(cache: seq<Cached>)
    requires forall i :: 0 <= i < |cache| ==> |cache[i].window.rows| <= PAGE_SIZE
    ensures CachedRows(cache) <= |cache| * PAGE_SIZE
  {
    if cache != [] {
      FewRows(cache[..|cache| - 1]);
    }
  }

  /** The cache stays bounded, keyed, and true to the index; the capacity check behind it never fires. */
  lemma CacheStaysBounded(states: seq<State>, events: seq<Event>, rec: Recording, i: nat)
    requires IsRun(states, events, rec) && i < |states|
    ensures |states[i].cache| <= CACHE_WINDOWS && CachedRows(states[i].cache) <= 2048
    ensures forall j, k :: 0 <= j < k < |states[i].cache| ==> states[i].cache[j].query != states[i].cache[k].query
    ensures forall j :: 0 <= j < |states[i].cache| ==> Genuine(rec, states[i].cache[j])
  {
    hide Takes, Initial;
    RunKeepsInv(states, events, rec, i);
    FewRows(states[i].cache);
  }

  /**
   * No request is lost: the newest one is shown from the cache, waits armed for its timer, is queued behind the window in
   * flight, is that window, has been answered or refused, or its source is not known yet; and what is due shows as loading.
   */
  lemma NoRequestIsLost(states: seq<State>, events: seq<Event>, rec: Recording, i: nat)
    requires IsRun(states, events, rec) && i < |states|
    ensures var s := states[i];
            && (s.deferred.Some? && s.deferred.value.query.source in s.scopes ==> Armed(s) && s.loading)
            && (s.pending.Some? ==> s.active.Some? && !CurrentWindow(s, s.active.value) && s.loading)
            && (s.deferred.Some? ==> s.pending.None?)
            && (s.active.Some? && CurrentWindow(s, s.active.value) ==> s.loading && s.deferred.None? && s.pending.None?)
  {
    hide Takes, Initial, CacheInv;
    RunKeepsInv(states, events, rec, i);
  }

  // ----- The controller itself -----

  lemma {:induction false} FirstExact(cache: seq<Cached>, q: Query, i: nat)
    requires i <= |cache| && forall j :: 0 <= j < i ==> cache[j].query != q
    requires i < |cache| ==> cache[i].query == q
    ensures FindExact(cache, q) == i
  {
    if i > 0 {
      FirstExact(cache[1..], q, i - 1);
    }
  }

  lemma {:induction false} FirstContaining(cache: seq<Cached>, q: Query, i: nat)
    requires i <= |cache| && forall j :: 0 <= j < i ==> !Contains(cache[j].query, cache[j].window, q)
    requires i < |cache| ==> Contains(cache[i].query, cache[i].window, q)
    ensures FindContaining(cache, q) == i
  {
    if i > 0 {
      FirstContaining(cache[1..], q, i - 1);
    }
  }

  /** The exact page of a query, else the first complete page around it. */
  method Find(cache: seq<Cached>, q: Query) returns (hit: Option<Cached>)
    ensures hit == Lookup(cache, q)
  {
    var i := 0;
    while i < |cache| && cache[i].query != q
      invariant i <= |cache| && forall j :: 0 <= j < i ==> cache[j].query != q
    {
      i := i + 1;
    }
    FirstExact(cache, q, i);
    if i < |cache| {
      return Some(cache[i]);
    }
    i := 0;
    while i < |cache| && !Contains(cache[i].query, cache[i].window, q)
      invariant i <= |cache| && forall j :: 0 <= j < i ==> !Contains(cache[j].query, cache[j].window, q)
    {
      i := i + 1;
    }
    FirstContaining(cache, q, i);
    return if i < |cache| then Some(cache[i]) else None;
  }

  class ReplayDataController {
    var closed: bool
    var scopes: seq<string>
    var cache: seq<Cached>
    var shown: Option<Cached>
    var generation: nat
    var active: Option<Intent>
    var pending: Option<Intent>
    var deferred: Option<Intent>
    var latest: Option<Query>
    var timers: map<nat, Intent>
    var handles: nat
    var debounce: Option<nat>
    var tasks: seq<Intent>
    var loading: bool
    var failed: bool

    constructor ()
      ensures View() == Initial()
    {
      closed, scopes, cache, shown, generation := false, [], [], None, 0;
      active, pending, deferred, latest := None, None, None, None;
      timers, handles, debounce, tasks, loading, failed := map[], 0, None, [], false, false;
    }

    function View(): State
      reads this
    {
      State(closed, scopes, cache, shown, generation, active, pending, deferred, latest, timers, handles, debounce, tasks, loading,
            failed)
    }

    method CancelTimer()
      modifies `timers
      ensures View() == Unscheduled(old(View()))
    {
      if debounce.Some? {
        timers := WithoutTimer(timers, debounce.value);
      }
    }

    method ArmDeferred()
      modifies `timers, `debounce, `handles, `tasks, `loading
      ensures View() == Arm(old(View()))
    {
      hide Unscheduled;
      if closed || deferred.None? || deferred.value.query.source !in scopes {
        return;
      }
      CancelTimer();
      loading := true;
      if shown.Some? || active.Some? {
        Schedule(deferred.value);
      } else {
        tasks := tasks + [deferred.value];
      }
    }

    method Schedule(intent: Intent)
      modifies `timers, `debounce, `handles
      ensures View() == old(View()).(timers := old(timers)[old(handles) := intent], debounce := Some(old(handles)),
                                     handles := old(handles) + 1)
    {
      timers := timers[handles := intent];
      debounce := Some(handles);
      handles := handles + 1;
    }

    method RunPending()
      modifies `pending, `active, `loading
      ensures View() == PumpWindow(old(View()))
    {
      if closed || active.Some? || pending.None? {
        return;
      }
      var intent := pending.value;
      pending := None;
      if !CurrentWindow(View(), intent) {
        return;
      }
      active := Some(intent);
      loading := true;
    }

    method Run(scheduled: Intent)
      modifies `debounce, `deferred, `pending, `active, `loading
      ensures View() == Dispatch(old(View()), scheduled)
    {
      hide PumpWindow;
      if deferred != Some(scheduled) {
        return;
      }
      debounce := None;
      deferred := None;
      if !CurrentWindow(View(), scheduled) || scheduled.query.source !in scopes {
        return;
      }
      pending := Some(scheduled);
      RunPending();
    }

    method TimerFires(handle: nat)
      requires handle in timers
      modifies `timers, `debounce, `deferred, `pending, `active, `loading
      ensures var s := old(View()); View() == Dispatch(s.(timers := WithoutTimer(s.timers, handle)), s.timers[handle])
    {
      hide Dispatch;
      var scheduled := timers[handle];
      timers := WithoutTimer(timers, handle);
      Run(scheduled);
    }

    method TaskRuns()
      requires tasks != []
      modifies `tasks, `debounce, `deferred, `pending, `active, `loading
      ensures View() == Dispatch(old(View()).(tasks := old(tasks)[1..]), old(tasks)[0])
    {
      hide Dispatch;
      var scheduled := tasks[0];
      tasks := tasks[1..];
      Run(scheduled);
    }

    method Intend(query: Query)
      modifies `generation, `pending, `deferred
      ensures View() == old(View()).(generation := old(generation) + 1, pending := None,
                                     deferred := Some(Intent(old(generation) + 1, query)))
    {
      generation := generation + 1;
      pending := None;
      deferred := Some(Intent(generation, query));
    }

    method Ask(q: Query)
      modifies `latest, `generation, `pending, `deferred, `timers, `debounce
      ensures View() == Asked(old(View()), q)
    {
      hide Unscheduled;
      ghost var s := View();
      latest := Some(First(q));
      Intend(First(q));
      CancelTimer();
      debounce := None;
      AskCommutes(s, q);
    }

    method Serve(hit: Cached)
      modifies `deferred, `shown, `failed, `loading
      ensures View() == Served(old(View()), hit)
    {
      deferred, shown, failed, loading := None, Some(hit), false, false;
    }

    method Request(q: Query)
      modifies this
      ensures View() == RequestWindow(old(View()), q)
    {
      hide Asked, Served, Arm, Lookup;
      if closed {
        return;
      }
      Ask(q);
      if q.source !in scopes {
        loading := false;
        return;
      }
      var cached := Find(cache, First(q));
      if cached.Some? {
        Serve(cached.value);
        return;
      }
      ArmDeferred();
    }

    method More()
      modifies this
      ensures View() == LoadMore(old(View()))
    {
      hide Arm;
      if closed || shown.None? || shown.value.window.next.None? {
        return;
      }
      Intend(shown.value.query.(after := shown.value.window.next));
      ArmDeferred();
    }

    method Answered(answer: Option<Window>)
      requires active.Some?
      modifies this
      ensures View() == WindowCame(old(View()), answer)
    {
      hide Settled, PumpWindow;
      Settle(active.value, answer);
      active := None;
      if !closed && pending.None? && deferred.None? {
        loading := false;
      }
      RunPending();
    }

    method Settle(intent: Intent, answer: Option<Window>)
      modifies `cache, `shown, `failed
      ensures View() == Settled(old(View()), intent, answer)
    {
      hide Stored;
      if !CurrentWindow(View(), intent) {
        return;
      }
      if answer.None? || answer.value.source != intent.query.source || |answer.value.rows| > PAGE_SIZE {
        failed := true;
      } else {
        var page := Cached(intent.query, answer.value);
        cache := Stored(cache, page);
        shown := Some(page);
        failed := false;
      }
    }

    method ScopesArrive(next: seq<string>)
      modifies this
      ensures View() == SetScopes(old(View()), next)
    {
      hide Arm;
      if closed {
        return;
      }
      scopes := next;
      ArmDeferred();
    }

    /** Every event of a run, handled by the method it reaches. */
    method Handle(ghost rec: Recording, e: Event)
      requires Inv(View(), rec) && Enabled(View(), rec, e)
      modifies this
      ensures View() == Step(old(View()), rec, e) && Inv(View(), rec)
    {
      hide Inv, RequestWindow, LoadMore, SetScopes, WindowCame, Dispose, Dispatch, Fetched, Answerable;
      StepKeepsInv(View(), rec, e);
      match e
      case Requested(query) => Request(query);
      case RequestedAgain =>
        if latest.Some? {
          Request(latest.value);
        }
      case MoreAsked => More();
      case ScopesRead(next) => ScopesArrive(next);
      case TimerFired(handle) => TimerFires(handle);
      case TaskRan => TaskRuns();
      case WindowRead(answer) => Answered(answer);
      case Disposed => Shut();
    }

    method Shut()
      modifies `closed, `generation, `pending, `deferred, `timers, `debounce
      ensures View() == Dispose(old(View()))
    {
      hide Unscheduled;
      CloseCommutes(View());
      Close();
      CancelTimer();
      debounce := None;
    }

    method Close()
      modifies `closed, `generation, `pending, `deferred
      ensures View() == old(View()).(closed := true, generation := old(generation) + 1, pending := None, deferred := None)
    {
      closed := true;
      generation := generation + 1;
      pending := None;
      deferred := None;
    }
  }

  lemma AskCommutes(s: State, q: Query)
    ensures var asked := Intent(s.generation + 1, First(q));
            Unscheduled(s.(latest := Some(First(q)), generation := s.generation + 1, pending := None, deferred := Some(asked))) ==
            Unscheduled(s).(latest := Some(First(q)), generation := s.generation + 1, pending := None, deferred := Some(asked))
  {
  }

  lemma CloseCommutes(s: State)
    ensures Unscheduled(s.(closed := true, generation := s.generation + 1, pending := None, deferred := None)) ==
            Unscheduled(s).(closed := true, generation := s.generation + 1, pending := None, deferred := None)
  {
  }
}
