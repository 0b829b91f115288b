/**
 * History preparation (app/src/historyController.ts): one local query at a time, repeated while imports invalidate it, and
 * one import poll at a time. Promise callbacks (then, catch, finally) are turns of their own, as they are in the source.
 */
module GameHistory {
  import opened Wrappers

  // ----- Data -----

  datatype Game = Game(timestamp: string, group: Option<string>, media: Option<string>)

  datatype Row = Row(game: Game, media: string)

  datatype Page = Page(rows: seq<Row>, next: Option<string>)

  datatype Query = Query(filter: string, after: Option<string>)

  /** live stands for the library still admitting the origin; a refused origin is refused for good. */
  datatype Context = Context(id: nat, origin: string, live: bool, games: seq<Game>, revision: nat, queriedRevision: int)

  datatype Phase = Running | Failed | Returned

  /** A dispatched query: what it was dispatched with, and which of its callbacks is due next. */
  datatype QueryTask = QueryTask(phase: Phase, context: nat, generation: nat, revision: nat, query: Query)

  datatype Waiting = Waiting(game: string, media: string, ready: bool)

  datatype ImportTask = ImportTask(phase: Phase, context: nat, catalog: bool, waiting: Option<Waiting>)

  datatype Status = Pending | Ready | Unavailable

  datatype Item = Item(game: string, media: Option<string>, status: Option<Status>, ready: Option<bool>)

  datatype ImportResult =
    | Catalog(sameToken: bool, next: Option<string>, items: seq<Item>)
    | Progress(media: string, status: Status, ready: Option<bool>)
    | Rejection

  datatype Shown = Shown(page: Option<Page>, loading: bool, indexing: bool, initializing: bool, error: bool, laterPage: bool)

  datatype State = State(
    context: Option<Context>, contexts: nat, view: Shown, closed: bool,
    query: Query, generation: nat, queryPending: bool, task: Option<QueryTask>, dirty: bool,
    job: Option<ImportTask>, catalogPending: bool, catalogAfter: Option<string>, pending: seq<Waiting>, timer: bool)

  // ----- Currency -----

  predicate Current(s: State, id: nat) {
    !s.closed && s.context.Some? && s.context.value.id == id && s.context.value.live
  }

  predicate Live(s: State) {
    s.context.Some? && Current(s, s.context.value.id)
  }

  function Publish(s: State, view: Shown): State {
    if s.closed then s else s.(view := view)
  }

  // ----- Queries -----

  function PumpQuery(s: State): State {
    if !Live(s) || s.catalogPending || s.task.Some? || !s.queryPending then s
    else
      var dispatched := QueryTask(Running, s.context.value.id, s.generation, s.context.value.revision, s.query);
      s.(queryPending := false, dirty := false, task := Some(dispatched))
  }

  function RequestQuery(s: State, background: bool): State {
    var asked := s.(generation := s.generation + 1, queryPending := true);
    PumpQuery(Publish(asked, s.view.(loading := if background then s.view.loading else true, error := false)))
  }

  /** An import invalidates the data, not an outstanding intent: one coalesced query follows the one in flight. */
  function RefreshQuery(s: State): State {
    if !Live(s) then s
    else if s.task.Some? then s.(dirty := true)
    else if s.queryPending then PumpQuery(s)
    else RequestQuery(s, true)
  }

  function SetQuery(s: State, filter: string): State {
    RequestQuery(s.(query := Query(filter, None)), false)
  }

  function NextPage(s: State): State {
    if s.view.page.None? || s.view.page.value.next.None? || s.view.loading || s.view.error then s
    else RequestQuery(s.(query := s.query.(after := s.view.page.value.next)), false)
  }

  function FirstPage(s: State): State {
    if s.view.loading || s.view.error then s else RequestQuery(s.(query := s.query.(after := None)), false)
  }

  function Advance(s: State): State
    requires s.context.Some?
  {
    RefreshQuery(s.(context := Some(s.context.value.(revision := s.context.value.revision + 1))))
  }

  function Prepared(s: State): State {
    if Live(s) then Advance(s) else s
  }

  /** The accepted recording a row is about: the last of the scan's games with its timestamp. */
  function Accepted(games: seq<Game>, timestamp: string): Option<Game> {
    if games == [] then None
    else if games[|games| - 1].timestamp == timestamp then Some(games[|games| - 1])
    else Accepted(games[..|games| - 1], timestamp)
  }

  predicate RowMatches(games: seq<Game>, row: Row) {
    var game := Accepted(games, row.game.timestamp);
    row.game.group.Some? && game.Some? && game.value.group == row.game.group && game.value.media == Some(row.media)
  }

  /** A page may only show accepted recordings, each match once. */
  ghost predicate Admissible(games: seq<Game>, rows: seq<Row>) {
    && (forall i :: 0 <= i < |rows| ==> RowMatches(games, rows[i]))
    && (forall i, j :: 0 <= i < j < |rows| ==> rows[i].game.group != rows[j].game.group)
  }

  /** The then-callback's loop over the rows; false where it throws. */
  method CheckRows(games: seq<Game>, rows: seq<Row>) returns (ok: bool)
    ensures ok <==> Admissible(games, rows)
  {
    var seen: set<string> := {};
    var i := 0;
    while i < |rows|
      invariant i <= |rows|
      invariant Admissible(games, rows[..i])
      invariant forall group :: group in seen <==> exists k :: 0 <= k < i && rows[k].game.group == Some(group)
    {
      var game := Accepted(games, rows[i].game.timestamp);
      var group := rows[i].game.group;
      if group.None? || group.value in seen || game.None? || game.value.group != group || game.value.media != Some(rows[i].media) {
        return false;
      }
      seen := seen + {group.value};
      i := i + 1;
    }
    assert rows[..i] == rows;
    return true;
  }

  datatype Reply = Answer(page: Page, admissible: bool) | Refusal

  predicate TaskIs(s: State, phase: Phase) {
    s.task.Some? && s.task.value.phase == phase
  }

  function Queried(s: State): State
    requires s.task.Some? && s.context.Some?
  {
    s.(context := Some(s.context.value.(queriedRevision := s.task.value.revision)))
  }

  predicate Answerable(s: State, task: QueryTask) {
    Current(s, task.context) && task.generation == s.generation
  }

  /** The then-callback, or the rejection that skips it. */
  function QueryReplied(s: State, reply: Reply): State
    requires TaskIs(s, Running)
  {
    var task := s.task.value;
    var returned := s.(task := Some(task.(phase := Returned)));
    match reply
    case Refusal => s.(task := Some(task.(phase := Failed)))
    case Answer(page, admissible) =>
      if !Answerable(s, task) then returned
      else if !admissible then s.(task := Some(task.(phase := Failed)))
      else Publish(Queried(returned), s.view.(page := Some(page), laterPage := task.query.after.Some?, loading := false,
                                              error := false))
  }

  /** The catch-callback. */
  function QueryFailed(s: State): State
    requires TaskIs(s, Failed)
  {
    var returned := s.(task := Some(s.task.value.(phase := Returned)));
    if Answerable(s, s.task.value) then Publish(Queried(returned), s.view.(loading := false, error := true)) else returned
  }

  predicate AllReady(pending: seq<Waiting>) {
    forall i :: 0 <= i < |pending| ==> pending[i].ready
  }

  function FinishInitialization(s: State, id: nat): State {
    if Current(s, id) && s.view.initializing && s.job.None? && !s.catalogPending && AllReady(s.pending)
      && s.task.None? && !s.queryPending && s.context.value.queriedRevision == s.context.value.revision
    then Publish(s, s.view.(initializing := false))
    else s
  }

  /** The finally-callback. */
  function QueryOver(s: State): State
    requires TaskIs(s, Returned)
  {
    var idle := s.(task := None);
    var next := if s.queryPending then PumpQuery(idle) else if s.dirty then RefreshQuery(idle) else idle;
    FinishInitialization(next, s.task.value.context)
  }

  // ----- Imports -----

  function Schedule(s: State): State {
    if s.closed || s.job.Some? || s.context.None? || (!s.catalogPending && s.pending == []) then s else s.(timer := true)
  }

  function PumpImport(s: State): State {
    if !Live(s) || s.job.Some? then s
    else if !s.catalogPending && s.pending == [] then s
    else s.(job := Some(ImportTask(Running, s.context.value.id, s.catalogPending,
                                   if s.pending == [] then None else Some(s.pending[0]))))
  }

  function TimerFired(s: State): State {
    PumpImport(s.(timer := false))
  }

  function Position(pending: seq<Waiting>, game: string): (i: nat)
    ensures i <= |pending| && (i < |pending| ==> pending[i].game == game)
  {
    if pending == [] || pending[0].game == game then 0 else 1 + Position(pending[1..], game)
  }

  /** Map.set: a known recording keeps its place. */
  function Put(pending: seq<Waiting>, w: Waiting): seq<Waiting> {
    var at := Position(pending, w.game);
    if at < |pending| then pending[at := w] else pending + [w]
  }

  /** Map.delete. */
  function Remove(pending: seq<Waiting>, game: string): seq<Waiting> {
    var at := Position(pending, game);
    if at < |pending| then pending[..at] + pending[at + 1..] else pending
  }

  function PutItems(pending: seq<Waiting>, items: seq<Item>): seq<Waiting> {
    if items == [] then pending
    else
      var item := items[|items| - 1];
      var before := PutItems(pending, items[..|items| - 1]);
      if item.status == Some(Pending) && item.media.Some?
      then Put(before, Waiting(item.game, item.media.value, item.ready == Some(true)))
      else before
  }

  /** A catalog item that asks for a recording's import. */
  predicate Listed(item: Item, game: string) {
    item.game == game && item.status == Some(Pending) && item.media.Some?
  }

  /** The last of the items that asks for the recording. */
  function Newest(items: seq<Item>, game: string): Option<Waiting> {
    if items == [] then None
    else
      var item := items[|items| - 1];
      if Listed(item, game) then Some(Waiting(game, item.media.value, item.ready == Some(true)))
      else Newest(items[..|items| - 1], game)
  }

  ghost predicate DistinctGames(pending: seq<Waiting>) {
    forall i, j :: 0 <= i < j < |pending| ==> pending[i].game != pending[j].game
  }

  /** The recordings already waiting keep their places; each takes the newest media and readiness the items give it. */
  ghost predicate Updated(pending: seq<Waiting>, items: seq<Item>, after: seq<Waiting>) {
    && DistinctGames(after) && |pending| <= |after|
    && (forall i :: 0 <= i < |pending| ==>
          after[i] == if Newest(items, pending[i].game).Some? then Newest(items, pending[i].game).value else pending[i])
    && (forall i :: |pending| <= i < |after| ==> Newest(items, after[i].game) == Some(after[i]))
    && (forall game :: Newest(items, game).Some? ==> Newest(items, game).value in after)
  }

  lemma PutUpdates(pending: seq<Waiting>, items: seq<Item>, after: seq<Waiting>, item: Item)
    requires Updated(pending, items, after) && Listed(item, item.game)
    ensures Updated(pending, items + [item], Put(after, Waiting(item.game, item.media.value, item.ready == Some(true))))
  {
    var w := Waiting(item.game, item.media.value, item.ready == Some(true));
    var at, b, all := Position(after, w.game), Put(after, w), items + [item];
    assert all[..|all| - 1] == items && Newest(all, w.game) == Some(w);
    assert forall game :: game != w.game ==> Newest(all, game) == Newest(items, game);
    PositionIsFirst(after, w.game);
    assert b[at] == w;
    forall i | 0 <= i < |b| && i != at ensures b[i] == after[i] && b[i].game != w.game {}
    assert DistinctGames(b);
    forall i | 0 <= i < |pending| ensures b[i] == if Newest(all, pending[i].game).Some? then Newest(all, pending[i].game).value else pending[i] {
      NewestIsOfGame(items, pending[i].game);
    }
    assert forall i :: |pending| <= i < |b| ==> Newest(all, b[i].game) == Some(b[i]);
    forall game | Newest(all, game).Some? ensures Newest(all, game).value in b {
      if game != w.game {
        var i :| 0 <= i < |after| && after[i] == Newest(items, game).value;
        NewestIsOfGame(items, game);
        assert b[i] == after[i];
      }
    }
  }

  lemma {:induction false} NewestIsOfGame(items: seq<Item>, game: string)
    ensures Newest(items, game).Some? ==> Newest(items, game).value.game == game
  {
    if items != [] {
      NewestIsOfGame(items[..|items| - 1], game);
    }
  }

  lemma {:induction false} PositionIsFirst(pending: seq<Waiting>, game: string)
    ensures forall i :: 0 <= i < Position(pending, game) ==> pending[i].game != game
  {
    if pending != [] && pending[0].game != game {
      PositionIsFirst(pending[1..], game);
    }
  }

  /** What a catalog page does to the recordings waiting for their import. */
  lemma {:induction false} CatalogItemsKeepTheirPlaces(pending: seq<Waiting>, items: seq<Item>)
    requires DistinctGames(pending)
    ensures Updated(pending, items, PutItems(pending, items))
  {
    if items != [] {
      var front, item := items[..|items| - 1], items[|items| - 1];
      CatalogItemsKeepTheirPlaces(pending, front);
      assert front + [item] == items;
      if Listed(item, item.game) {
        PutUpdates(pending, front, PutItems(pending, front), item);
      } else {
        assert forall game :: Newest(items, game) == Newest(front, game);
      }
    }
  }

  predicate JobIs(s: State, phase: Phase) {
    s.job.Some? && s.job.value.phase == phase
  }

  function JobPhase(s: State, phase: Phase): State
    requires s.job.Some?
  {
    s.(job := Some(s.job.value.(phase := phase)))
  }

  function Indexing(s: State): State {
    Publish(s, s.view.(indexing := s.catalogPending || s.pending != []))
  }

  function CatalogReplied(s: State, result: ImportResult): State
    requires s.job.Some? && result.Catalog? && Live(s)
  {
    if !result.sameToken then JobPhase(s, Failed)
    else
      var taken := s.(catalogAfter := result.next, catalogPending := result.next.Some?,
                      pending := PutItems(s.pending, result.items));
      JobPhase(Advance(Indexing(taken)), Returned)
  }

  /** What a recording's progress makes of its entry. */
  function IsReady(result: ImportResult): bool
    requires result.Progress?
  {
    if result.ready.Some? then result.ready.value else !result.status.Pending?
  }

  function Progressed(pending: seq<Waiting>, was: Waiting, result: ImportResult): seq<Waiting>
    requires result.Progress?
  {
    if result.status.Pending? then Put(Remove(pending, was.game), was.(ready := IsReady(result))) else Remove(pending, was.game)
  }

  function ProgressReplied(s: State, result: ImportResult): State
    requires s.job.Some? && s.job.value.waiting.Some? && result.Progress? && Live(s)
  {
    var was := s.job.value.waiting.value;
    if result.media != was.media then JobPhase(s.(pending := Remove(s.pending, was.game)), Failed)
    else
      var waiting := Indexing(s.(pending := Progressed(s.pending, was, result)));
      var changed := !result.status.Pending? || IsReady(result) != was.ready;
      JobPhase(if changed then Advance(waiting) else waiting, Returned)
  }

  /** The then-callback of an import, or the rejection that skips it. */
  function ImportReplied(s: State, result: ImportResult): State
    requires JobIs(s, Running) && (result.Progress? ==> s.job.value.waiting.Some?)
  {
    if result.Rejection? then JobPhase(s, Failed)
    else if !Current(s, s.job.value.context) then JobPhase(s, Returned)
    else if result.Catalog? then CatalogReplied(s, result)
    else ProgressReplied(s, result)
  }

  /** The catch-callback: preparation ends until another context is accepted. */
  function ImportFailed(s: State): State
    requires JobIs(s, Failed)
  {
    var returned := JobPhase(s, Returned);
    if !Current(s, s.job.value.context) then returned
    else
      var ended := returned.(catalogPending := false, pending := []);
      Advance(Publish(ended, s.view.(indexing := false)))
  }

  /** The finally-callback. */
  function ImportOver(s: State): State
    requires JobIs(s, Returned)
  {
    Schedule(FinishInitialization(s.(job := None), s.job.value.context))
  }

  // ----- Contexts -----

  function SetContext(s: State, origin: Option<string>, live: bool, games: seq<Game>): State {
    if s.closed || (origin.Some? && s.context.Some? && origin.value == s.context.value.origin) then s
    else
      var context := if origin.None? then None else Some(Context(s.contexts, origin.value, live, games, 0, -1));
      Schedule(Publish(Started(s, context), Shown(None, origin.Some?, origin.Some?, origin.Some?, false, false)))
  }

  /** A new context starts over: no page, no queued query, and a catalog still to be read. */
  function Started(s: State, context: Option<Context>): State {
    s.(context := context, contexts := s.contexts + 1, timer := false, pending := [], catalogAfter := None,
       catalogPending := context.Some?, query := s.query.(after := None), generation := s.generation + 1,
       queryPending := false, dirty := false)
  }

  function OriginRefused(s: State): State {
    if s.context.None? then s else s.(context := Some(s.context.value.(live := false)))
  }

  function Close(s: State): State {
    s.(closed := true, context := None, dirty := false, timer := false, pending := [])
  }

  // ----- Events -----

  datatype Event =
    | ContextSet(origin: Option<string>, live: bool, games: seq<Game>)
    | Refused
    | PreparedAgain
    | QuerySet(filter: string)
    | NextAsked
    | FirstAsked
    | QueryThen(reply: Reply)
    | QueryCatch
    | QueryFinally
    | Timer
    | ImportThen(result: ImportResult)
    | ImportCatch
    | ImportFinally
    | Closed

  /** The callbacks that are due; a page's admissibility is what the row check says. */
  ghost predicate Enabled(s: State, e: Event) {
    match e
    case QueryThen(reply) =>
      && TaskIs(s, Running)
      && (reply.Answer? && s.context.Some? ==> reply.admissible == Admissible(s.context.value.games, reply.page.rows))
    case QueryCatch => TaskIs(s, Failed)
    case QueryFinally => TaskIs(s, Returned)
    case Timer => s.timer
    case ImportThen(result) =>
      JobIs(s, Running) && (s.job.value.catalog ==> !result.Progress?) && (!s.job.value.catalog ==> !result.Catalog?)
    case ImportCatch => JobIs(s, Failed)
    case ImportFinally => JobIs(s, Returned)
    case _ => true
  }

  ghost predicate WellFormed(s: State) {
    s.job.Some? && !s.job.value.catalog ==> s.job.value.waiting.Some?
  }

  ghost function Step(s: State, e: Event): State
    requires WellFormed(s) && Enabled(s, e)
  {
    match e
    case ContextSet(origin, live, games) => SetContext(s, origin, live, games)
    case Refused => OriginRefused(s)
    case PreparedAgain => Prepared(s)
    case QuerySet(filter) => SetQuery(s, filter)
    case NextAsked => NextPage(s)
    case FirstAsked => FirstPage(s)
    case QueryThen(reply) => QueryReplied(s, reply)
    case QueryCatch => QueryFailed(s)
    case QueryFinally => QueryOver(s)
    case Timer => TimerFired(s)
    case ImportThen(result) => ImportReplied(s, result)
    case ImportCatch => ImportFailed(s)
    case ImportFinally => ImportOver(s)
    case Closed => Close(s)
  }

  // ----- The invariant -----

  /** The query in flight is the one asked for now, against the data as it is now. */
  ghost predicate UpToDate(s: State, task: QueryTask) {
    Answerable(s, task) && task.revision == s.context.value.revision
  }

  ghost predicate Behind(s: State) {
    Live(s) && !s.catalogPending && s.context.value.queriedRevision < s.context.value.revision
  }

  /** A query that is still owed will be dispatched by the one in flight, or is the one in flight. */
  ghost predicate QueriesFollow(s: State) {
    && (Live(s) && !s.catalogPending && s.queryPending ==> s.task.Some?)
    && (Behind(s) ==>
          && s.task.Some?
          && (s.dirty || s.queryPending || (s.task.value.phase != Returned && UpToDate(s, s.task.value))))
  }

  ghost predicate TasksBelong(s: State) {
    && (s.context.Some? ==>
          && s.context.value.id < s.contexts && s.context.value.queriedRevision <= s.context.value.revision)
    && (s.task.Some? ==>
          && s.task.value.context < s.contexts && s.task.value.generation <= s.generation
          && (s.context.Some? && s.task.value.context != s.context.value.id ==> s.context.value.queriedRevision == -1)
          && (s.context.Some? && s.task.value.context == s.context.value.id ==>
                && s.context.value.queriedRevision <= s.task.value.revision <= s.context.value.revision
                && (s.task.value.generation == s.generation ==> s.task.value.query == s.query)
                && (s.task.value.generation != s.generation ==> s.queryPending)))
    && (s.job.Some? ==>
          && s.job.value.context < s.contexts
          && (s.context.Some? && s.job.value.context != s.context.value.id ==> s.catalogPending))
  }

  /** Preparation never stalls: work that is left has an import running or the timer that starts one. */
  ghost predicate ImportsFollow(s: State) {
    Live(s) && (s.catalogPending || s.pending != []) ==> s.job.Some? || s.timer
  }

  /** Initialization never stalls either: while it lasts, an import or a query will end it. */
  ghost predicate InitializationFollows(s: State) {
    Live(s) && s.view.initializing ==> s.catalogPending || !AllReady(s.pending) || s.job.Some? || s.task.Some?
  }

  ghost predicate Inv(s: State) {
    WellFormed(s) && TasksBelong(s) && QueriesFollow(s) && ImportsFollow(s) && InitializationFollows(s)
  }

  /** What query steps leave alone. */
  ghost predicate SameImports(a: State, b: State) {
    && b.job == a.job && b.catalogPending == a.catalogPending && b.pending == a.pending && b.timer == a.timer
    && b.closed == a.closed && b.contexts == a.contexts && b.view.initializing == a.view.initializing
  }

  lemma RequestKeeps(s: State, query: Query, background: bool)
    requires WellFormed(s) && TasksBelong(s)
    ensures var b := RequestQuery(s.(query := query), background);
            && WellFormed(b) && TasksBelong(b) && SameImports(s, b) && b.context == s.context
            && (QueriesFollow(s) || s.task.None? ==> QueriesFollow(b))
            && (Live(s) && !s.catalogPending ==> b.task.Some?) && (s.task.Some? ==> b.task.Some?)
  {
  }

  lemma RefreshQueryKeeps(s: State)
    requires WellFormed(s) && TasksBelong(s)
    ensures var b := RefreshQuery(s);
            && WellFormed(b) && TasksBelong(b) && SameImports(s, b) && b.context == s.context
            && (Live(s) ==> QueriesFollow(b))
            && (Live(s) && !s.catalogPending ==> b.task.Some?) && (s.task.Some? ==> b.task.Some?)
  {
    hide RequestQuery;
    assert s.(query := s.query) == s;
    RequestKeeps(s, s.query, true);
  }

  lemma AdvanceKeeps(s: State)
    requires WellFormed(s) && TasksBelong(s) && Live(s)
    ensures var b := Advance(s);
            && WellFormed(b) && TasksBelong(b) && SameImports(s, b) && QueriesFollow(b) && Live(b)
            && (!s.catalogPending ==> b.task.Some?) && (s.task.Some? ==> b.task.Some?)
  {
    hide RefreshQuery;
    RefreshQueryKeeps(s.(context := Some(s.context.value.(revision := s.context.value.revision + 1))));
  }

  lemma SameImportsFollow(a: State, b: State)
    requires Inv(a) && WellFormed(b) && TasksBelong(b) && QueriesFollow(b) && SameImports(a, b)
    requires Live(b) ==> Live(a)
    requires a.task.Some? ==> b.task.Some?
    ensures Inv(b)
  {
    hide TasksBelong, QueriesFollow;
  }

  lemma QueryAskedKeeps(s: State, query: Query)
    requires Inv(s)
    ensures Inv(RequestQuery(s.(query := query), false))
  {
    hide TasksBelong, QueriesFollow, RequestQuery;
    RequestKeeps(s, query, false);
    SameImportsFollow(s, RequestQuery(s.(query := query), false));
  }

  lemma PreparedKeeps(s: State)
    requires Inv(s)
    ensures Inv(Prepared(s))
  {
    hide TasksBelong, QueriesFollow, Advance;
    if Live(s) {
      AdvanceKeeps(s);
      SameImportsFollow(s, Advance(s));
    }
  }

  /** The query's own callbacks: the task moves on, and an answerable one has caught the context up. */
  lemma AnsweredKeeps(s: State, view: Shown)
    requires Inv(s) && s.task.Some? && s.task.value.phase != Returned && Answerable(s, s.task.value)
    requires view.initializing == s.view.initializing
    ensures Inv(Queried(s.(task := Some(s.task.value.(phase := Returned)))).(view := view))
  {
  }

  lemma TaskPhaseKeeps(s: State, phase: Phase)
    requires Inv(s) && s.task.Some? && s.task.value.phase != Returned
    requires phase == Returned ==> !Answerable(s, s.task.value)
    ensures Inv(s.(task := Some(s.task.value.(phase := phase))))
  {
  }

  lemma QueryRepliedKeeps(s: State, reply: Reply)
    requires Inv(s) && TaskIs(s, Running)
    ensures Inv(QueryReplied(s, reply))
  {
    hide Inv;
    var task := s.task.value;
    if reply.Answer? && !Answerable(s, task) {
      TaskPhaseKeeps(s, Returned);
    } else if reply.Answer? && reply.admissible {
      AnsweredKeeps(s, s.view.(page := Some(reply.page), laterPage := task.query.after.Some?, loading := false, error := false));
    } else {
      TaskPhaseKeeps(s, Failed);
    }
  }

  lemma QueryFailedKeeps(s: State)
    requires Inv(s) && TaskIs(s, Failed)
    ensures Inv(QueryFailed(s))
  {
    hide Inv;
    if Answerable(s, s.task.value) {
      AnsweredKeeps(s, s.view.(loading := false, error := true));
    } else {
      TaskPhaseKeeps(s, Returned);
    }
  }

  lemma FinishKeeps(s: State, id: nat)
    requires WellFormed(s) && TasksBelong(s) && QueriesFollow(s)
    ensures var b := FinishInitialization(s, id);
            && WellFormed(b) && TasksBelong(b) && QueriesFollow(b) && b == s.(view := b.view)
            && (b.view.initializing ==> s.view.initializing)
            && (Live(s) && id == s.context.value.id ==> InitializationFollows(b))
  {
  }

  lemma QueryOverKeeps(s: State)
    requires Inv(s) && TaskIs(s, Returned)
    ensures Inv(QueryOver(s))
  {
    hide FinishInitialization, RefreshQuery, PumpQuery;
    var next := QueryOverNext(s);
    QueryOverFollows(s);
    FinishKeeps(next, s.task.value.context);
  }

  /** The state in which the finally-callback looks whether initialization is over. */
  ghost function QueryOverNext(s: State): State {
    var idle := s.(task := None);
    if s.queryPending then PumpQuery(idle) else if s.dirty then RefreshQuery(idle) else idle
  }

  lemma IdleIsKept(s: State)
    requires Inv(s) && TaskIs(s, Returned)
    ensures var idle := s.(task := None);
            && WellFormed(idle) && TasksBelong(idle) && SameImports(s, idle)
            && (Live(s) && !s.catalogPending && !s.queryPending && !s.dirty ==>
                  QueriesFollow(idle) && s.context.value.queriedRevision == s.context.value.revision
                  && s.task.value.context == s.context.value.id)
            && (!Live(s) || s.catalogPending ==> QueriesFollow(idle))
  {
  }

  lemma PumpedFollows(s: State)
    requires WellFormed(s) && TasksBelong(s) && s.task.None? && s.queryPending
    ensures var b := PumpQuery(s);
            && WellFormed(b) && TasksBelong(b) && QueriesFollow(b) && SameImports(s, b) && b.context == s.context
            && (Live(s) && !s.catalogPending ==> b.task.Some?)
  {
  }

  lemma QueryOverFollows(s: State)
    requires Inv(s) && TaskIs(s, Returned)
    ensures var b := QueryOverNext(s);
            && WellFormed(b) && TasksBelong(b) && QueriesFollow(b) && SameImports(s, b) && b.context == s.context
            && (Live(s) && s.task.value.context != s.context.value.id ==> InitializationFollows(b))
  {
    IdleIsKept(s);
    hide TasksBelong, QueriesFollow, PumpQuery, RefreshQuery, Inv;
    var idle := s.(task := None);
    if s.queryPending {
      PumpedFollows(idle);
    } else if s.dirty {
      RefreshQueryKeeps(idle);
      RefreshUnlessLive(idle);
    }
  }

  lemma RefreshUnlessLive(s: State)
    ensures !Live(s) ==> RefreshQuery(s) == s
  {
  }

  /** What an import's callbacks may change before they invalidate the data. */
  ghost predicate SameQueries(a: State, b: State) {
    && b == a.(catalogPending := b.catalogPending, catalogAfter := b.catalogAfter, pending := b.pending, view := b.view)
    && b.view.initializing == a.view.initializing && b.view.page == a.view.page
  }

  lemma JobAdvances(s: State, mid: State, phase: Phase)
    requires Inv(s) && SameQueries(s, mid) && Live(s) && s.job.Some? && s.job.value.context == s.context.value.id
    ensures Inv(JobPhase(Advance(mid), phase))
  {
    hide Advance, QueriesFollow;
    assert TasksBelong(mid);
    AdvanceKeeps(mid);
    JobPhaseFollows(Advance(mid), phase);
  }

  lemma JobPhaseFollows(s: State, phase: Phase)
    requires WellFormed(s) && TasksBelong(s) && QueriesFollow(s) && s.job.Some?
    ensures Inv(JobPhase(s, phase))
  {
  }

  lemma JobRests(s: State, mid: State, phase: Phase)
    requires Inv(s) && SameQueries(s, mid) && s.job.Some? && mid.catalogPending == s.catalogPending
    ensures Inv(JobPhase(mid, phase))
  {
    assert TasksBelong(mid) && QueriesFollow(mid);
    hide QueriesFollow, TasksBelong;
    JobPhaseFollows(mid, phase);
  }

  lemma CatalogRepliedKeeps(s: State, result: ImportResult)
    requires Inv(s) && JobIs(s, Running) && result.Catalog? && Current(s, s.job.value.context)
    ensures Inv(CatalogReplied(s, result))
  {
    hide Inv, Advance, PutItems, JobPhase;
    if result.sameToken {
      var taken := s.(catalogAfter := result.next, catalogPending := result.next.Some?,
                      pending := PutItems(s.pending, result.items));
      JobAdvances(s, Indexing(taken), Returned);
    } else {
      JobRests(s, s, Failed);
    }
  }

  lemma ProgressRepliedKeeps(s: State, result: ImportResult)
    requires Inv(s) && JobIs(s, Running) && s.job.value.waiting.Some? && result.Progress? && Current(s, s.job.value.context)
    ensures Inv(ProgressReplied(s, result))
  {
    hide Inv, Advance, Progressed, Remove, JobPhase;
    var was := s.job.value.waiting.value;
    var removed := s.(pending := Remove(s.pending, was.game));
    if result.media != was.media {
      JobRests(s, removed, Failed);
    } else {
      var waiting := s.(pending := Progressed(s.pending, was, result));
      JobAdvances(s, Indexing(waiting), Returned);
      JobRests(s, Indexing(waiting), Returned);
    }
  }

  lemma ImportRepliedKeeps(s: State, result: ImportResult)
    requires Inv(s) && JobIs(s, Running) && (result.Progress? ==> s.job.value.waiting.Some?)
    ensures Inv(ImportReplied(s, result))
  {
    hide Inv, CatalogReplied, ProgressReplied;
    if result.Rejection? {
      JobRests(s, s, Failed);
    } else if !Current(s, s.job.value.context) {
      JobRests(s, s, Returned);
    } else if result.Catalog? {
      CatalogRepliedKeeps(s, result);
    } else {
      ProgressRepliedKeeps(s, result);
    }
  }

  lemma ImportFailedKeeps(s: State)
    requires Inv(s) && JobIs(s, Failed)
    ensures Inv(ImportFailed(s))
  {
    hide Inv, Advance;
    if Current(s, s.job.value.context) {
      var ended := s.(catalogPending := false, pending := [], view := s.view.(indexing := false));
      JobAdvances(s, ended, Returned);
      JobFirst(s, ended);
    } else {
      JobRests(s, s, Returned);
    }
  }

  /** Queries do not look at the import in progress. */
  lemma RequestIgnoresJob(s: State, job: Option<ImportTask>, background: bool)
    ensures RequestQuery(s.(job := job), background) == RequestQuery(s, background).(job := job)
    ensures PumpQuery(s.(job := job)) == PumpQuery(s).(job := job)
    ensures RequestQuery(s, background).job == s.job == PumpQuery(s).job
  {
  }

  lemma RefreshIgnoresJob(s: State, job: Option<ImportTask>)
    ensures RefreshQuery(s.(job := job)) == RefreshQuery(s).(job := job) && RefreshQuery(s).job == s.job
  {
    RequestIgnoresJob(s, job, true);
    hide RequestQuery, PumpQuery;
  }

  /** Marking the import returned before or after the data is invalidated is the same. */
  lemma JobFirst(s: State, ended: State)
    requires s.job.Some? && Live(s) && ended == s.(catalogPending := false, pending := [], view := s.view.(indexing := false))
    ensures ImportFailedEnd(s) == JobPhase(Advance(ended), Returned)
  {
    hide RefreshQuery;
    var next := ended.(context := Some(s.context.value.(revision := s.context.value.revision + 1)));
    RefreshIgnoresJob(next, Some(s.job.value.(phase := Returned)));
  }

  ghost function ImportFailedEnd(s: State): State
    requires s.job.Some? && Live(s)
  {
    Advance(Publish(JobPhase(s, Returned).(catalogPending := false, pending := []), s.view.(indexing := false)))
  }

  lemma ImportOverKeeps(s: State)
    requires Inv(s) && JobIs(s, Returned)
    ensures Inv(ImportOver(s))
  {
  }

  lemma SetContextKeeps(s: State, origin: Option<string>, live: bool, games: seq<Game>)
    requires Inv(s)
    ensures Inv(SetContext(s, origin, live, games))
  {
  }

  lemma StepKeepsInv(s: State, e: Event)
    requires Inv(s) && Enabled(s, e)
    ensures Inv(Step(s, e))
  {
    hide SetContext, RequestQuery, QueryReplied, QueryFailed, QueryOver, TimerFired, ImportReplied, ImportFailed, ImportOver,
      Prepared, TasksBelong, QueriesFollow, ImportsFollow, InitializationFollows;
    match e
    case ContextSet(origin, live, games) => SetContextKeeps(s, origin, live, games);
    case Refused => RefusedKeeps(s);
    case PreparedAgain => PreparedKeeps(s);
    case QuerySet(filter) => QueryAskedKeeps(s, Query(filter, None));
    case NextAsked =>
      if s.view.page.Some? {
        QueryAskedKeeps(s, s.query.(after := s.view.page.value.next));
      }
    case FirstAsked => QueryAskedKeeps(s, s.query.(after := None));
    case QueryThen(reply) => QueryRepliedKeeps(s, reply);
    case QueryCatch => QueryFailedKeeps(s);
    case QueryFinally => QueryOverKeeps(s);
    case Timer => TimerKeeps(s);
    case ImportThen(result) => ImportRepliedKeeps(s, result);
    case ImportCatch => ImportFailedKeeps(s);
    case ImportFinally => ImportOverKeeps(s);
    case Closed => ClosedKeeps(s);
  }

  lemma RefusedKeeps(s: State)
    requires Inv(s)
    ensures Inv(OriginRefused(s))
  {
  }

  lemma ClosedKeeps(s: State)
    requires Inv(s)
    ensures Inv(Close(s))
  {
  }

  lemma TimerKeeps(s: State)
    requires Inv(s)
    ensures Inv(TimerFired(s))
  {
    hide QueriesFollow;
    assert QueriesFollow(TimerFired(s)) by {
      TimerQueries(s);
    }
  }

  lemma TimerQueries(s: State)
    requires QueriesFollow(s)
    ensures QueriesFollow(TimerFired(s))
  {
  }

  // ----- What single steps do -----

  /** Everything initialization waits for: imports ready, and a query answered against the data as it now is. */
  ghost predicate Finished(s: State) {
    && Live(s) && s.job.None? && !s.catalogPending && AllReady(s.pending) && s.task.None? && !s.queryPending
    && s.context.value.queriedRevision == s.context.value.revision
  }

  ghost predicate SameContext(a: State, b: State) {
    b.context.Some? ==>
      && a.context.Some? && a.context.value.id == b.context.value.id && a.context.value.games == b.context.value.games
      && a.context.value.queriedRevision == b.context.value.queriedRevision
      && a.context.value.revision <= b.context.value.revision
  }

  /** A query is dispatched only when none is in flight, for the intent and the data of that moment. */
  ghost predicate Dispatches(a: State, b: State) {
    b.task.Some? && b.task.value.phase == Running && b.task != a.task ==>
      (a.task.None? || a.task.value.phase == Returned) && UpToDate(b, b.task.value) && b.task.value.query == b.query
  }

  /** A step that neither sets a context nor answers a query. */
  ghost predicate Quiet(a: State, b: State) {
    && SameContext(a, b) && Dispatches(a, b) && b.view.page == a.view.page
    && (a.view.initializing && !b.view.initializing ==> Finished(b))
  }

  lemma RequestIsQuiet(s: State, query: Query, background: bool)
    ensures Quiet(s, RequestQuery(s.(query := query), background))
  {
  }

  lemma RefreshIsQuiet(s: State)
    ensures Quiet(s, RefreshQuery(s)) && RefreshQuery(s).view.initializing == s.view.initializing
  {
    hide RequestQuery;
    assert s.(query := s.query) == s;
    RequestIsQuiet(s, s.query, true);
    RequestKeepsInitializing(s, true);
  }

  lemma RequestKeepsInitializing(s: State, background: bool)
    ensures RequestQuery(s, background).view.initializing == s.view.initializing
  {
  }

  lemma AdvanceIsQuiet(s: State)
    requires s.context.Some?
    ensures Quiet(s, Advance(s)) && Advance(s).view.initializing == s.view.initializing
  {
    hide RefreshQuery;
    RefreshIsQuiet(s.(context := Some(s.context.value.(revision := s.context.value.revision + 1))));
  }

  lemma QueryOverIsQuiet(s: State)
    requires TaskIs(s, Returned)
    ensures Quiet(s, QueryOver(s))
  {
    hide RefreshQuery;
    var idle := s.(task := None);
    RefreshIsQuiet(idle);
  }

  lemma JobAdvanceIsQuiet(s: State, mid: State, phase: Phase)
    requires SameQueries(s, mid) && s.context.Some? && s.job.Some?
    ensures Quiet(s, JobPhase(Advance(mid), phase))
    ensures Quiet(s, JobPhase(mid, phase))
  {
    hide Advance;
    AdvanceIsQuiet(mid);
  }

  lemma CatalogIsQuiet(s: State, result: ImportResult)
    requires s.job.Some? && result.Catalog? && Live(s)
    ensures Quiet(s, CatalogReplied(s, result))
  {
    hide Advance, PutItems, JobPhase, Quiet;
    var taken := s.(catalogAfter := result.next, catalogPending := result.next.Some?, pending := PutItems(s.pending, result.items));
    JobAdvanceIsQuiet(s, Indexing(taken), Returned);
    JobAdvanceIsQuiet(s, s, Failed);
  }

  lemma ProgressIsQuiet(s: State, result: ImportResult)
    requires s.job.Some? && s.job.value.waiting.Some? && result.Progress? && Live(s)
    ensures Quiet(s, ProgressReplied(s, result))
  {
    hide Advance, Progressed, Remove, JobPhase, Quiet;
    var was := s.job.value.waiting.value;
    var removed := s.(pending := Remove(s.pending, was.game));
    var waiting := s.(pending := Progressed(s.pending, was, result));
    JobAdvanceIsQuiet(s, removed, Failed);
    JobAdvanceIsQuiet(s, Indexing(waiting), Returned);
  }

  lemma JobPhaseIsQuiet(s: State, phase: Phase)
    requires s.job.Some?
    ensures Quiet(s, JobPhase(s, phase))
  {
  }

  lemma ImportIsQuiet(s: State, result: ImportResult)
    requires JobIs(s, Running) && (result.Progress? ==> s.job.value.waiting.Some?)
    ensures Quiet(s, ImportReplied(s, result))
  {
    hide CatalogReplied, ProgressReplied, JobPhase, Quiet;
    JobPhaseIsQuiet(s, Failed);
    JobPhaseIsQuiet(s, Returned);
    if Current(s, s.job.value.context) && result.Catalog? {
      CatalogIsQuiet(s, result);
    } else if Current(s, s.job.value.context) && result.Progress? {
      ProgressIsQuiet(s, result);
    }
  }

  lemma ImportFailedIsQuiet(s: State)
    requires JobIs(s, Failed)
    ensures Quiet(s, ImportFailed(s))
  {
    hide Advance, JobPhase, Quiet;
    if Live(s) {
      var ended := s.(catalogPending := false, pending := [], view := s.view.(indexing := false));
      JobAdvanceIsQuiet(s, ended, Returned);
      JobFirst(s, ended);
    }
    JobPhaseIsQuiet(s, Returned);
  }

  lemma ImportOverIsQuiet(s: State)
    requires JobIs(s, Returned)
    ensures Quiet(s, ImportOver(s))
  {
  }

  lemma RefusedIsQuiet(s: State)
    ensures Quiet(s, OriginRefused(s)) && Quiet(s, Close(s))
  {
  }

  lemma TimerIsQuiet(s: State)
    ensures Quiet(s, TimerFired(s))
  {
  }

  lemma StepIsQuiet(s: State, e: Event)
    requires Inv(s) && Enabled(s, e) && !e.ContextSet? && !e.QueryThen? && !e.QueryCatch?
    ensures Quiet(s, Step(s, e))
  {
    hide RequestQuery, QueryOver, TimerFired, ImportReplied, ImportFailed, ImportOver, Advance, TasksBelong, QueriesFollow,
      ImportsFollow, InitializationFollows, Close, OriginRefused;
    match e
    case Refused => RefusedIsQuiet(s);
    case PreparedAgain =>
      if Live(s) {
        AdvanceIsQuiet(s);
      }
    case QuerySet(filter) => RequestIsQuiet(s, Query(filter, None), false);
    case NextAsked =>
      if s.view.page.Some? {
        RequestIsQuiet(s, s.query.(after := s.view.page.value.next), false);
      }
    case FirstAsked => RequestIsQuiet(s, s.query.(after := None), false);
    case QueryFinally => QueryOverIsQuiet(s);
    case Timer => TimerIsQuiet(s);
    case ImportThen(result) => ImportIsQuiet(s, result);
    case ImportCatch => ImportFailedIsQuiet(s);
    case ImportFinally => ImportOverIsQuiet(s);
    case Closed => RefusedIsQuiet(s);
  }

  // ----- Whole runs -----

  function Initial(): State {
    State(None, 0, Shown(None, false, false, false, false, false), false, Query("", None), 0, false, None, false, None, false, None,
          [], false)
  }

  ghost predicate IsRun(states: seq<State>, events: seq<Event>) {
    && |states| == |events| + 1 && states[0] == Initial()
    && forall i :: 0 <= i < |events| ==> Takes(states[i], events[i], states[i + 1])
  }

  ghost predicate Takes(a: State, e: Event, b: State) {
    WellFormed(a) && Enabled(a, e) && b == Step(a, e)
  }

  lemma TakesKeepsInv(a: State, e: Event, b: State)
    requires Inv(a) && Takes(a, e, b)
    ensures Inv(b)
    ensures !e.ContextSet? && !e.QueryThen? && !e.QueryCatch? ==> Quiet(a, b)
  {
    hide Inv, Step, Enabled, Quiet;
    StepKeepsInv(a, e);
    if !e.ContextSet? && !e.QueryThen? && !e.QueryCatch? {
      StepIsQuiet(a, e);
    }
  }

  lemma {:induction false} RunKeepsInv(states: seq<State>, events: seq<Event>, i: nat)
    requires IsRun(states, events) && i < |states|
    ensures Inv(states[i])
  {
    if i == 0 {
      InitialInv();
    } else {
      hide Inv, Initial, Takes;
      RunKeepsInv(states, events, i - 1);
      TakesKeepsInv(states[i - 1], events[i - 1], states[i]);
    }
  }

  lemma InitialInv()
    ensures Inv(Initial())
  {
  }

  /**
   * No invalidation is lost: once the catalog is complete, data newer than the last answered query means a query is in
   * flight, and the end of that query dispatches another unless the one in flight already asks about the newest data.
   */
  lemma InvalidationsAreQueried(states: seq<State>, events: seq<Event>, i: nat)
    requires IsRun(states, events) && i < |events| && Behind(states[i])
    ensures states[i].task.Some?
    ensures states[i].task.value.phase == Returned || !UpToDate(states[i], states[i].task.value) ==>
              states[i].dirty || states[i].queryPending
    ensures events[i].QueryFinally? ==>
              TaskIs(states[i + 1], Running) && UpToDate(states[i + 1], states[i + 1].task.value)
  {
    hide Initial, Takes;
    RunKeepsInv(states, events, i);
    if events[i].QueryFinally? {
      QueryOverDispatches(states[i], states[i + 1]);
    }
  }

  lemma QueryOverDispatches(s: State, b: State)
    requires Inv(s) && Behind(s) && Takes(s, QueryFinally, b)
    ensures TaskIs(b, Running) && UpToDate(b, b.task.value)
  {
    hide InitializationFollows, ImportsFollow;
  }

  /** The end of a query dispatches the one that is owed: for the newest intent, against the newest data. */
  lemma OwedQueryFollows(s: State)
    requires Inv(s) && TaskIs(s, Returned) && Live(s) && !s.catalogPending
    ensures var b := QueryOver(s);
            if s.queryPending || s.dirty then
              && TaskIs(b, Running) && UpToDate(b, b.task.value) && b.task.value.query == s.query && !b.queryPending && !b.dirty
              && b.view.initializing == s.view.initializing
            else b.task.None? && b.context == s.context && b.query == s.query
  {
    hide InitializationFollows, ImportsFollow;
  }

  /** An import's answer for an ended context changes nothing; a recording's progress leaves every other recording alone. */
  lemma ImportAnswersStayTheirOwn(s: State, result: ImportResult)
    requires WellFormed(s) && Enabled(s, ImportThen(result))
    ensures var b := ImportReplied(s, result);
            && (!Current(s, s.job.value.context) ==> b == s.(job := b.job))
            && (Current(s, s.job.value.context) && result.Progress? ==>
                  && b.catalogPending == s.catalogPending && b.catalogAfter == s.catalogAfter
                  && forall w: Waiting :: w.game != s.job.value.waiting.value.game ==> (w in b.pending <==> w in s.pending))
  {
    hide Advance, Remove, Put, CatalogReplied, IsReady;
    if result.Progress? && Current(s, s.job.value.context) {
      var was := s.job.value.waiting.value;
      OnlyItsOwnEntry(s.pending, was, was.(ready := IsReady(result)));
      AdvanceLeavesImports(Indexing(s.(pending := Progressed(s.pending, was, result))));
    }
  }

  lemma AdvanceLeavesImports(s: State)
    requires s.context.Some?
    ensures SameImports(s, Advance(s)) && Advance(s).catalogAfter == s.catalogAfter
  {
  }

  lemma OnlyItsOwnEntry(pending: seq<Waiting>, was: Waiting, now: Waiting)
    requires now.game == was.game
    ensures var removed := Remove(pending, was.game);
            forall w: Waiting :: w.game != was.game ==>
              (w in removed <==> w in pending) && (w in Put(removed, now) <==> w in pending)
  {
    var removed := Remove(pending, was.game);
    var at := Position(pending, was.game);
    forall w: Waiting | w.game != was.game ensures w in removed <==> w in pending {
      if i :| 0 <= i < |pending| && pending[i] == w {
        assert at < |pending| ==> w == removed[if i < at then i else i - 1];
      }
    }
    PutLeavesOthers(removed, now);
  }

  lemma PutLeavesOthers(pending: seq<Waiting>, now: Waiting)
    ensures forall w: Waiting :: w.game != now.game ==> (w in Put(pending, now) <==> w in pending)
  {
    var b := Put(pending, now);
    forall w: Waiting | w.game != now.game ensures w in b <==> w in pending {
      if i :| 0 <= i < |pending| && pending[i] == w {
        assert b[i] == w;
      }
    }
  }

  /** A failed import ends preparation for its context, and the data it may have changed is queried. */
  lemma FailedImportEndsPreparation(s: State)
    requires Inv(s) && JobIs(s, Failed) && Current(s, s.job.value.context)
    ensures var b := ImportFailed(s);
            && b.pending == [] && !b.catalogPending && !b.view.indexing
            && b.context == Some(s.context.value.(revision := s.context.value.revision + 1))
            && b.task.Some? && (b.dirty || b.queryPending || UpToDate(b, b.task.value))
  {
    hide InitializationFollows;
  }

  lemma RepliedShows(s: State, reply: Reply)
    requires Inv(s) && TaskIs(s, Running)
    ensures var b := QueryReplied(s, reply);
            b.view.page != s.view.page ==>
              && reply.Answer? && reply.admissible && b.view.page == Some(reply.page)
              && Answerable(s, s.task.value) && s.task.value.query == s.query
  {
    hide InitializationFollows, ImportsFollow, QueriesFollow;
  }

  lemma OthersShow(s: State, e: Event, b: State)
    requires Takes(s, e, b) && (e.QueryCatch? || e.ContextSet?)
    ensures b.view.page == s.view.page || b.view.page == None
  {
  }

  lemma ThenTakes(s: State, reply: Reply, b: State)
    requires Takes(s, QueryThen(reply), b)
    ensures TaskIs(s, Running) && b == QueryReplied(s, reply)
    ensures reply.Answer? && s.context.Some? ==> reply.admissible == Admissible(s.context.value.games, reply.page.rows)
  {
  }

  lemma CatchTakes(s: State, b: State)
    requires Takes(s, QueryCatch, b)
    ensures TaskIs(s, Failed) && b == QueryFailed(s)
  {
  }

  /** A page is shown only if it answers the intent of now, and every row of it is an accepted recording of its own. */
  lemma ShownPageAnswersTheNewestQuery(states: seq<State>, events: seq<Event>, i: nat)
    requires IsRun(states, events) && i < |events|
    requires states[i + 1].view.page.Some? && states[i + 1].view.page != states[i].view.page
    ensures events[i].QueryThen? && events[i].reply.Answer? && states[i + 1].view.page == Some(events[i].reply.page)
    ensures states[i].task.Some? && Answerable(states[i], states[i].task.value) && states[i].task.value.query == states[i].query
    ensures Admissible(states[i].context.value.games, events[i].reply.page.rows)
  {
    hide Initial, Takes, Inv, Admissible, QueryReplied, SameContext, Dispatches, Finished;
    RunKeepsInv(states, events, i);
    TakesKeepsInv(states[i], events[i], states[i + 1]);
    if events[i].QueryThen? {
      ThenTakes(states[i], events[i].reply, states[i + 1]);
      RepliedShows(states[i], events[i].reply);
    } else if events[i].QueryCatch? || events[i].ContextSet? {
      OthersShow(states[i], events[i], states[i + 1]);
    }
  }

  /** Step k answers the query in flight, which was dispatched against this revision of this context. */
  ghost predicate Answers(a: State, b: State, context: nat, revision: int) {
    && a.task.Some? && a.task.value.phase != Returned && Answerable(a, a.task.value)
    && a.task.value.context == context && a.task.value.revision == revision
    && TaskIs(b, Returned)
  }

  ghost predicate AnsweredAt(states: seq<State>, k: nat, context: nat, revision: int)
    requires k + 1 < |states|
  {
    Answers(states[k], states[k + 1], context, revision)
  }

  ghost predicate AnsweredBefore(states: seq<State>, i: nat, context: nat, revision: int)
    requires i < |states|
  {
    exists k :: 0 <= k < i && AnsweredAt(states, k, context, revision)
  }

  /** A callback either leaves the context alone or records the revision of the query it answers. */
  ghost predicate Records(a: State, b: State) {
    && b.view.initializing == a.view.initializing
    && (b.context == a.context
        || (b.context.Some? && Answers(a, b, b.context.value.id, b.context.value.queriedRevision)))
  }

  lemma RepliedRecords(s: State, reply: Reply)
    requires TaskIs(s, Running)
    ensures Records(s, QueryReplied(s, reply))
  {
  }

  lemma FailedRecords(s: State)
    requires TaskIs(s, Failed)
    ensures Records(s, QueryFailed(s))
  {
  }

  lemma CallbackRecords(s: State, e: Event, b: State)
    requires Takes(s, e, b) && (e.QueryThen? || e.QueryCatch?)
    ensures Records(s, b)
  {
    if e.QueryThen? {
      ThenTakes(s, e.reply, b);
      hide Takes, QueryReplied, Records;
      RepliedRecords(s, e.reply);
    } else {
      CatchTakes(s, b);
      hide Takes, QueryFailed, Records;
      FailedRecords(s);
    }
  }

  lemma NewContextIsUnqueried(s: State, e: Event, b: State)
    requires Takes(s, e, b) && e.ContextSet?
    ensures b.context == s.context || (b.context.Some? ==> b.context.value.queriedRevision == -1)
  {
  }

  lemma {:induction false} QueriedRevisionWasAnswered(states: seq<State>, events: seq<Event>, i: nat)
    requires IsRun(states, events) && i < |states|
    requires states[i].context.Some? && states[i].context.value.queriedRevision >= 0
    ensures AnsweredBefore(states, i, states[i].context.value.id, states[i].context.value.queriedRevision)
  {
    assert i > 0;
    hide Initial, Takes, Inv, Dispatches, Answers, Finished;
    var s, e, b := states[i - 1], events[i - 1], states[i];
    RunKeepsInv(states, events, i - 1);
    TakesKeepsInv(s, e, b);
    if e.QueryThen? || e.QueryCatch? {
      CallbackRecords(s, e, b);
    } else if e.ContextSet? {
      NewContextIsUnqueried(s, e, b);
    }
    if (e.QueryThen? || e.QueryCatch?) && b.context != s.context {
      assert AnsweredAt(states, i - 1, b.context.value.id, b.context.value.queriedRevision);
    } else {
      QueriedRevisionWasAnswered(states, events, i - 1);
    }
  }

  /**
   * Initialization ends only when every import is ready and a query dispatched against the current data was answered; it
   * cannot stall before that, for an import or a query is always left to run.
   */
  lemma InitializationEndsAnswered(states: seq<State>, events: seq<Event>, i: nat)
    requires IsRun(states, events) && i < |events| && !events[i].ContextSet?
    requires states[i].view.initializing && !states[i + 1].view.initializing
    ensures Finished(states[i + 1])
    ensures AnsweredBefore(states, i + 1, states[i + 1].context.value.id, states[i + 1].context.value.revision)
  {
    hide Initial, Takes, Inv, Dispatches, AnsweredAt, SameContext, Answers;
    RunKeepsInv(states, events, i);
    TakesKeepsInv(states[i], events[i], states[i + 1]);
    if events[i].QueryThen? || events[i].QueryCatch? {
      CallbackRecords(states[i], events[i], states[i + 1]);
    } else {
      QueriedRevisionWasAnswered(states, events, i + 1);
    }
  }

  /** While a live context initializes, an import is running or due, or a query is in flight. */
  lemma InitializationNeverStalls(states: seq<State>, events: seq<Event>, i: nat)
    requires IsRun(states, events) && i < |states| && Live(states[i]) && states[i].view.initializing
    ensures states[i].job.Some? || states[i].timer || states[i].task.Some?
  {
    hide Initial, Takes, TasksBelong, QueriesFollow;
    RunKeepsInv(states, events, i);
  }

  // ----- The controller itself -----

  /** What the then-callback makes of a page. */
  ghost function ReplyOf(s: State, page: Option<Page>): Reply {
    if page.None? then Refusal else Answer(page.value, s.context.Some? && Admissible(s.context.value.games, page.value.rows))
  }

  class HistoryController {
    var context: Option<Context>
    var contexts: nat
    var view: Shown
    var closed: bool
    var query: Query
    var generation: nat
    var queryPending: bool
    var task: Option<QueryTask>
    var dirty: bool
    var job: Option<ImportTask>
    var catalogPending: bool
    var catalogAfter: Option<string>
    var pending: seq<Waiting>
    var timer: bool

    constructor ()
      ensures View() == Initial() && Inv(View())
    {
      context, contexts, closed := None, 0, false;
      view := Shown(None, false, false, false, false, false);
      query, generation, queryPending, task, dirty := Query("", None), 0, false, None, false;
      job, catalogPending, catalogAfter, pending, timer := None, false, None, [], false;
    }

    function View(): State
      reads this
    {
      State(context, contexts, view, closed, query, generation, queryPending, task, dirty, job, catalogPending, catalogAfter,
            pending, timer)
    }

    method Show(next: Shown)
      modifies `view
      ensures view == if closed then old(view) else next
    {
      if !closed {
        view := next;
      }
    }

    method StartQuery()
      modifies `queryPending, `dirty, `task
      ensures View() == PumpQuery(old(View()))
    {
      if !Live(View()) || catalogPending || task.Some? || !queryPending {
        return;
      }
      queryPending := false;
      dirty := false;
      task := Some(QueryTask(Running, context.value.id, generation, context.value.revision, query));
    }

    method AskQuery(background: bool)
      modifies this
      ensures View() == RequestQuery(old(View()), background)
    {
      hide PumpQuery;
      generation := generation + 1;
      queryPending := true;
      Show(view.(loading := if background then view.loading else true, error := false));
      StartQuery();
    }

    method Refresh()
      modifies this
      ensures View() == RefreshQuery(old(View()))
    {
      hide PumpQuery, RequestQuery;
      if !Live(View()) {
        return;
      }
      if task.Some? {
        dirty := true;
        return;
      }
      if queryPending {
        StartQuery();
      } else {
        AskQuery(true);
      }
    }

    method Invalidate()
      requires context.Some?
      modifies this
      ensures View() == Advance(old(View()))
    {
      hide RefreshQuery;
      context := Some(context.value.(revision := context.value.revision + 1));
      Refresh();
    }

    method ImportsPrepared()
      modifies this
      ensures View() == Prepared(old(View()))
    {
      if Live(View()) {
        Invalidate();
      }
    }

    method ChangeQuery(filter: string)
      modifies this
      ensures View() == SetQuery(old(View()), filter)
    {
      hide RequestQuery;
      query := Query(filter, None);
      AskQuery(false);
    }

    method Next()
      modifies this
      ensures View() == NextPage(old(View()))
    {
      hide RequestQuery;
      if view.page.None? || view.page.value.next.None? || view.loading || view.error {
        return;
      }
      query := query.(after := view.page.value.next);
      AskQuery(false);
    }

    method First()
      modifies this
      ensures View() == FirstPage(old(View()))
    {
      hide RequestQuery;
      if view.loading || view.error {
        return;
      }
      query := query.(after := None);
      AskQuery(false);
    }

    method QueryThenRuns(page: Option<Page>)
      requires TaskIs(View(), Running)
      modifies this
      ensures View() == QueryReplied(old(View()), ReplyOf(old(View()), page))
    {
      var current := task.value;
      if page.None? {
        task := Some(current.(phase := Failed));
        return;
      }
      if !Answerable(View(), current) {
        task := Some(current.(phase := Returned));
        return;
      }
      var admissible := CheckRows(context.value.games, page.value.rows);
      if !admissible {
        task := Some(current.(phase := Failed));
        return;
      }
      context := Some(context.value.(queriedRevision := current.revision));
      Show(view.(page := page, laterPage := current.query.after.Some?, loading := false, error := false));
      task := Some(current.(phase := Returned));
    }

    method QueryCatchRuns()
      requires TaskIs(View(), Failed)
      modifies this
      ensures View() == QueryFailed(old(View()))
    {
      var current := task.value;
      if Answerable(View(), current) {
        context := Some(context.value.(queriedRevision := current.revision));
        Show(view.(loading := false, error := true));
      }
      task := Some(current.(phase := Returned));
    }

    method Finish(id: nat)
      modifies `view
      ensures View() == FinishInitialization(old(View()), id)
    {
      if Current(View(), id) && view.initializing && job.None? && !catalogPending && AllReady(pending)
        && task.None? && !queryPending && context.value.queriedRevision == context.value.revision
      {
        Show(view.(initializing := false));
      }
    }

    method QueryFinallyRuns()
      requires TaskIs(View(), Returned)
      modifies this
      ensures View() == QueryOver(old(View()))
    {
      hide PumpQuery, RefreshQuery, FinishInitialization;
      var over := task.value;
      task := None;
      if queryPending {
        StartQuery();
      } else if dirty {
        Refresh();
      }
      Finish(over.context);
    }

    method Arm()
      modifies `timer
      ensures View() == Schedule(old(View()))
    {
      if closed || job.Some? || context.None? || (!catalogPending && pending == []) {
        return;
      }
      timer := true;
    }

    method TimerFires()
      modifies `timer, `job
      ensures View() == TimerFired(old(View()))
    {
      timer := false;
      if !Live(View()) || job.Some? || (!catalogPending && pending == []) {
        return;
      }
      job := Some(ImportTask(Running, context.value.id, catalogPending, if pending == [] then None else Some(pending[0])));
    }

    /** The catalog page's items, one after the other. */
    method TakeItems(items: seq<Item>)
      modifies `pending
      ensures pending == PutItems(old(pending), items)
    {
      var i := 0;
      while i < |items|
        invariant i <= |items| && pending == PutItems(old(pending), items[..i])
      {
        var item := items[i];
        assert items[..i + 1][..i] == items[..i];
        if item.status == Some(Pending) && item.media.Some? {
          pending := Put(pending, Waiting(item.game, item.media.value, item.ready == Some(true)));
        }
        i := i + 1;
      }
      assert items[..i] == items;
    }

    method Phased(phase: Phase)
      requires job.Some?
      modifies `job
      ensures View() == JobPhase(old(View()), phase)
    {
      job := Some(job.value.(phase := phase));
    }

    method CatalogArrives(result: ImportResult)
      requires job.Some? && result.Catalog? && Live(View())
      modifies this
      ensures View() == CatalogReplied(old(View()), result)
    {
      hide Advance, PutItems;
      if !result.sameToken {
        Phased(Failed);
        return;
      }
      catalogAfter := result.next;
      catalogPending := result.next.Some?;
      TakeItems(result.items);
      Show(view.(indexing := catalogPending || pending != []));
      ghost var before := View();
      Invalidate();
      JobKept(before);
      Phased(Returned);
    }

    method ProgressArrives(result: ImportResult)
      requires job.Some? && job.value.waiting.Some? && result.Progress? && Live(View())
      modifies this
      ensures View() == ProgressReplied(old(View()), result)
    {
      hide Advance, Put, Remove;
      var was := job.value.waiting.value;
      pending := Remove(pending, was.game);
      if result.media != was.media {
        Phased(Failed);
        return;
      }
      var ready := if result.ready.Some? then result.ready.value else !result.status.Pending?;
      var changed := !result.status.Pending? || ready != was.ready;
      if result.status.Pending? {
        pending := Put(pending, was.(ready := ready));
      }
      Show(view.(indexing := catalogPending || pending != []));
      ghost var before := View();
      JobKept(before);
      if changed {
        Invalidate();
      }
      Phased(Returned);
    }

    method ImportThenRuns(result: ImportResult)
      requires JobIs(View(), Running) && (result.Progress? ==> job.value.waiting.Some?)
      modifies this
      ensures View() == ImportReplied(old(View()), result)
    {
      hide CatalogReplied, ProgressReplied;
      if result.Rejection? {
        Phased(Failed);
      } else if !Current(View(), job.value.context) {
        Phased(Returned);
      } else if result.Catalog? {
        CatalogArrives(result);
      } else {
        ProgressArrives(result);
      }
    }

    method ImportCatchRuns()
      requires JobIs(View(), Failed)
      modifies this
      ensures View() == ImportFailed(old(View()))
    {
      hide Advance;
      if Current(View(), job.value.context) {
        Phased(Returned);
        catalogPending := false;
        pending := [];
        Show(view.(indexing := false));
        Invalidate();
      } else {
        Phased(Returned);
      }
    }

    method ImportFinallyRuns()
      requires JobIs(View(), Returned)
      modifies this
      ensures View() == ImportOver(old(View()))
    {
      hide FinishInitialization;
      var over := job.value;
      job := None;
      Finish(over.context);
      Arm();
    }

    method StartOver(next: Option<Context>)
      modifies this
      ensures View() == Started(old(View()), next)
    {
      ghost var before := View();
      ForgetQuery();
      assert View() == before.(query := before.query.(after := None), generation := before.generation + 1,
                               queryPending := false, dirty := false);
      ForgetImports(next.Some?);
      context := next;
      contexts := contexts + 1;
    }

    method ForgetQuery()
      modifies `query, `generation, `queryPending, `dirty
      ensures query == old(query).(after := None) && generation == old(generation) + 1 && !queryPending && !dirty
    {
      query, generation, queryPending, dirty := query.(after := None), generation + 1, false, false;
    }

    method ForgetImports(catalog: bool)
      modifies `timer, `pending, `catalogAfter, `catalogPending
      ensures !timer && pending == [] && catalogAfter == None && catalogPending == catalog
    {
      timer, pending, catalogAfter, catalogPending := false, [], None, catalog;
    }

    method ChooseContext(origin: Option<string>, live: bool, games: seq<Game>)
      modifies this
      ensures View() == SetContext(old(View()), origin, live, games)
    {
      hide Started;
      if closed {
        return;
      }
      if origin.Some? && context.Some? && origin.value == context.value.origin {
        return;
      }
      StartOver(if origin.Some? then Some(Context(contexts, origin.value, live, games, 0, -1)) else None);
      Show(Shown(None, origin.Some?, origin.Some?, origin.Some?, false, false));
      Arm();
    }

    method Shut()
      modifies this
      ensures View() == Close(old(View()))
    {
      closed := true;
      context := None;
      dirty := false;
      timer := false;
      pending := [];
    }

    method LoseOrigin()
      modifies `context
      ensures View() == OriginRefused(old(View()))
    {
      if context.Some? {
        context := Some(context.value.(live := false));
      }
    }

    /** Every event of a run, handled by the method it reaches. */
    method Handle(e: Event)
      requires Inv(View()) && Enabled(View(), e)
      modifies this
      ensures View() == Step(old(View()), e) && Inv(View())
    {
      hide Inv, SetContext, Prepared, SetQuery, NextPage, FirstPage, QueryReplied, QueryFailed, QueryOver, TimerFired,
        ImportReplied, ImportFailed, ImportOver, Close, ReplyOf, Admissible;
      StepKeepsInv(View(), e);
      InvIsWellFormed(View());
      match e
      case ContextSet(origin, live, games) => ChooseContext(origin, live, games);
      case Refused => LoseOrigin();
      case PreparedAgain => ImportsPrepared();
      case QuerySet(filter) => ChangeQuery(filter);
      case NextAsked => Next();
      case FirstAsked => First();
      case QueryThen(reply) =>
        RepliesAgree(View(), reply);
        QueryThenRuns(if reply.Answer? then Some(reply.page) else None);
      case QueryCatch => QueryCatchRuns();
      case QueryFinally => QueryFinallyRuns();
      case Timer => TimerFires();
      case ImportThen(result) => ImportThenRuns(result);
      case ImportCatch => ImportCatchRuns();
      case ImportFinally => ImportFinallyRuns();
      case Closed => Shut();
    }
  }

  lemma InvIsWellFormed(s: State)
    requires Inv(s)
    ensures WellFormed(s)
  {
  }

  /** A reply that cannot be answered is the same whatever its rows are. */
  lemma RepliesAgree(s: State, reply: Reply)
    requires WellFormed(s) && Enabled(s, QueryThen(reply))
    ensures QueryReplied(s, reply) ==
            QueryReplied(s, ReplyOf(s, if reply.Answer? then Some(reply.page) else None))
  {
    hide Admissible;
  }

  /** Invalidating the data leaves the import's own record alone. */
  lemma JobKept(s: State)
    requires s.context.Some?
    ensures Advance(s).job == s.job
  {
  }
}
