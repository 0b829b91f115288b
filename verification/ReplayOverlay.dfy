/**
 * The recorded overlay (app/src/replayOverlayController.ts): one source loaded page by page, one page in flight, samples
 * readable while they still arrive, and scoreboards shared by payload id.
 */
module ReplayOverlay {
  import opened Wrappers

  const MAX_SAMPLES: nat := 131_072
  const MAX_BYTES: nat := 64 * 1024 * 1024
  const PAGE_SIZE: nat := 128

  // ----- Data -----

  datatype Cursor = Cursor(tick: nat, observation: nat)

  datatype Facts = Facts(payload: nat, content: string)

  datatype Player = Player(participant: nat, scoreboard: Option<Facts>)

  datatype Sample = Sample(cursor: Cursor, players: seq<Player>)

  datatype Scope = Scope(source: string, participant: Option<nat>)

  /** wire and compact are the encoded sizes of the samples with and without their scoreboards. */
  datatype Page = Page(scope: Scope, revision: nat, samples: seq<Sample>, next: Option<Cursor>, wire: nat, compact: nat)

  /** A JavaScript Map from participant to facts, in insertion order. */
  type Board = seq<(nat, Facts)>

  datatype Boards = Boards(payloads: map<nat, Facts>, variants: map<seq<(nat, nat)>, Board>, of: map<nat, Board>)

  const NO_BOARDS: Boards := Boards(map[], map[], map[])

  datatype Status = Idle | Loading | Ready | Broken

  datatype Shown = Shown(scope: Option<Scope>, status: Status, boardStatus: Status, bytes: nat)

  /** A load in progress, between two page reads. */
  datatype Load = Load(scope: Scope, generation: nat, after: Option<Cursor>, revision: Option<nat>, boards: bool, boardBytes: nat)

  datatype State = State(view: Shown, samples: seq<Sample>, generation: nat, active: Option<Load>,
                         pending: Option<(Scope, nat)>, closed: bool, boards: Boards)

  // ----- Order -----

  /** compareOverlayCursor (app/src/leagueIndex.ts:72-73). */
  function Compare(a: Cursor, b: Cursor): int {
    if a.tick != b.tick then a.tick - b.tick else a.observation - b.observation
  }

  predicate Before(a: Cursor, b: Cursor) {
    Compare(a, b) < 0
  }

  ghost predicate Increasing(samples: seq<Sample>) {
    forall i, j :: 0 <= i < j < |samples| ==> Before(samples[i].cursor, samples[j].cursor)
  }

  /** A page's samples lie in the media, go up, and start after the cursor. */
  ghost predicate Continues(after: Option<Cursor>, samples: seq<Sample>, end: nat) {
    && Increasing(samples)
    && forall i :: 0 <= i < |samples| ==> samples[i].cursor.tick <= end && (after.Some? ==> Before(after.value, samples[i].cursor))
  }

  /** The validation loop; false where it throws. */
  method CheckSamples(after: Option<Cursor>, samples: seq<Sample>, end: nat) returns (ok: bool)
    ensures ok <==> Continues(after, samples, end)
  {
    var previous := after;
    var i := 0;
    while i < |samples|
      invariant i <= |samples| && Continues(after, samples[..i], end)
      invariant previous == if i == 0 then after else Some(samples[i - 1].cursor)
    {
      if samples[i].cursor.tick > end || (previous.Some? && Compare(samples[i].cursor, previous.value) <= 0) {
        assert previous.Some? && i > 0 ==> !(samples[i].cursor.tick <= end && Before(samples[i - 1].cursor, samples[i].cursor));
        return false;
      }
      previous := Some(samples[i].cursor);
      i := i + 1;
    }
    assert samples[..i] == samples;
    return true;
  }

  /** The last sample at or before a position, in (tick, observation) order. */
  ghost predicate IsLastAtOrBefore(samples: seq<Sample>, position: nat, answer: Option<Sample>) {
    match answer
    case None => forall i :: 0 <= i < |samples| ==> position < samples[i].cursor.tick
    case Some(x) =>
      exists k :: 0 <= k < |samples| && samples[k] == x && x.cursor.tick <= position
                  && forall i :: k < i < |samples| ==> position < samples[i].cursor.tick
  }

  // ----- Scoreboards -----

  function Place(board: Board, participant: nat): (i: nat)
    ensures i <= |board| && (i < |board| ==> board[i].0 == participant)
  {
    if board == [] || board[0].0 == participant then 0 else 1 + Place(board[1..], participant)
  }

  function SetFacts(board: Board, participant: nat, facts: Facts): Board {
    var at := Place(board, participant);
    if at < |board| then board[at := (participant, facts)] else board + [(participant, facts)]
  }

  function Key(board: Board): seq<(nat, nat)> {
    seq(|board|, i requires 0 <= i < |board| => (board[i].0, board[i].1.payload))
  }

  /** The board of the players, each payload id standing for the facts first seen under it. */
  function Shared(payloads: map<nat, Facts>, players: seq<Player>): Option<(map<nat, Facts>, Board)> {
    if players == [] then Some((payloads, []))
    else
      var player := players[|players| - 1];
      var before := Shared(payloads, players[..|players| - 1]);
      if before.None? || player.scoreboard.None? then None
      else
        var id := player.scoreboard.value.payload;
        var known: map<nat, Facts> := if id in before.value.0 then before.value.0 else before.value.0[id := player.scoreboard.value];
        Some((known, SetFacts(before.value.1, player.participant, known[id])))
  }

  function StoreSample(b: Boards, sample: Sample): Option<Boards> {
    var shared := Shared(b.payloads, sample.players);
    if shared.None? then None
    else
      var (payloads, board) := shared.value;
      var variants: map<seq<(nat, nat)>, Board> := if Key(board) in b.variants then b.variants else b.variants[Key(board) := board];
      Some(Boards(payloads, variants, b.of[sample.cursor.observation := variants[Key(board)]]))
  }

  function StoreBoards(b: Boards, samples: seq<Sample>): Option<Boards> {
    if samples == [] then Some(b)
    else
      var before := StoreBoards(b, samples[..|samples| - 1]);
      if before.None? then None else StoreSample(before.value, samples[|samples| - 1])
  }

  ghost predicate HasBoards(players: seq<Player>) {
    forall i :: 0 <= i < |players| ==> players[i].scoreboard.Some?
  }

  /** The board a sample itself carries. */
  ghost function OwnBoard(players: seq<Player>): Board
    requires HasBoards(players)
  {
    if players == [] then []
    else SetFacts(OwnBoard(players[..|players| - 1]), players[|players| - 1].participant, players[|players| - 1].scoreboard.value)
  }

  ghost predicate Complete(samples: seq<Sample>) {
    forall i :: 0 <= i < |samples| ==> HasBoards(samples[i].players)
  }

  /** The facts of every payload id are given; the recording's payload table is one. */
  ghost predicate Agrees(table: map<nat, Facts>, players: seq<Player>) {
    forall i :: 0 <= i < |players| && players[i].scoreboard.Some? ==>
      var facts := players[i].scoreboard.value; facts.payload in table && table[facts.payload] == facts
  }

  ghost predicate Interned(b: Boards) {
    && (forall id :: id in b.payloads ==> b.payloads[id].payload == id)
    && (forall key :: key in b.variants ==> Key(b.variants[key]) == key && FromPayloads(b.payloads, b.variants[key]))
  }

  ghost predicate FromPayloads(payloads: map<nat, Facts>, board: Board) {
    forall i :: 0 <= i < |board| ==> board[i].1.payload in payloads && payloads[board[i].1.payload] == board[i].1
  }

  /** Two boards of known payloads with the same key are the same board. */
  lemma KeyDeterminesBoard(payloads: map<nat, Facts>, a: Board, b: Board)
    requires FromPayloads(payloads, a) && FromPayloads(payloads, b) && Key(a) == Key(b)
    ensures a == b
  {
    assert |Key(a)| == |a| && |Key(b)| == |b|;
    forall i | 0 <= i < |a| ensures a[i] == b[i] {
      assert Key(a)[i] == Key(b)[i];
    }
  }

  ghost predicate Known(payloads: map<nat, Facts>, table: map<nat, Facts>) {
    forall id :: id in payloads ==> id in table && payloads[id] == table[id] && payloads[id].payload == id
  }

  lemma {:induction false} SharedIsOwn(payloads: map<nat, Facts>, table: map<nat, Facts>, players: seq<Player>)
    requires Agrees(table, players) && Known(payloads, table)
    ensures var r := Shared(payloads, players);
            && (r.Some? <==> HasBoards(players))
            && (r.Some? ==>
                  && r.value.1 == OwnBoard(players) && FromPayloads(r.value.0, r.value.1) && Known(r.value.0, table)
                  && forall id :: id in payloads ==> id in r.value.0 && r.value.0[id] == payloads[id])
  {
    if players != [] {
      var front, last := players[..|players| - 1], players[|players| - 1];
      SharedIsOwn(payloads, table, front);
      assert HasBoards(players) <==> HasBoards(front) && last.scoreboard.Some?;
      var r := Shared(payloads, front);
      if r.Some? && last.scoreboard.Some? {
        SetFactsKnown(r.value.0, table, r.value.1, last);
      }
    }
  }

  lemma SetFactsKnown(payloads: map<nat, Facts>, table: map<nat, Facts>, board: Board, player: Player)
    requires Known(payloads, table) && FromPayloads(payloads, board) && player.scoreboard.Some?
    requires player.scoreboard.value.payload in table && table[player.scoreboard.value.payload] == player.scoreboard.value
    ensures var facts := player.scoreboard.value;
            var known: map<nat, Facts> := if facts.payload in payloads then payloads else payloads[facts.payload := facts];
            Known(known, table) && known[facts.payload] == facts
            && FromPayloads(known, SetFacts(board, player.participant, facts))
  {
  }

  /** Each observation of a sample list shows its own board, however payloads and boards are shared. */
  ghost predicate ShowsOwn(b: Boards, samples: seq<Sample>)
    requires Complete(samples)
  {
    forall k :: 0 <= k < |samples| ==> ShowsOwnAt(b, samples, k)
  }

  ghost predicate ShowsOwnAt(b: Boards, samples: seq<Sample>, k: nat)
    requires Complete(samples) && k < |samples|
  {
    && samples[k].cursor.observation in b.of
    && ((forall l :: k < l < |samples| ==> samples[l].cursor.observation != samples[k].cursor.observation) ==>
          b.of[samples[k].cursor.observation] == OwnBoard(samples[k].players))
  }

  lemma StoreSampleShowsOwn(b: Boards, table: map<nat, Facts>, sample: Sample)
    requires Interned(b) && Known(b.payloads, table) && Agrees(table, sample.players)
    ensures var r := StoreSample(b, sample);
            && (r.Some? <==> HasBoards(sample.players))
            && (r.Some? ==>
                  Interned(r.value) && Known(r.value.payloads, table)
                  && r.value.of == b.of[sample.cursor.observation := OwnBoard(sample.players)])
  {
    SharedIsOwn(b.payloads, table, sample.players);
    var shared := Shared(b.payloads, sample.players);
    if shared.Some? {
      var (payloads, board) := shared.value;
      if Key(board) in b.variants {
        KeyDeterminesBoard(payloads, b.variants[Key(board)], board);
      }
    }
  }

  lemma ShowsOneMore(b: Boards, front: seq<Sample>, last: Sample, of: map<nat, Board>)
    requires Complete(front) && HasBoards(last.players) && ShowsOwn(b, front)
    requires of == b.of[last.cursor.observation := OwnBoard(last.players)]
    ensures Complete(front + [last]) && ShowsOwn(b.(of := of), front + [last])
  {
    var all := front + [last];
    forall k | 0 <= k < |all| ensures ShowsOwnAt(b.(of := of), all, k) {
      if k < |front| {
        assert all[k] == front[k] && ShowsOwnAt(b, front, k);
        if forall l :: k < l < |all| ==> all[l].cursor.observation != all[k].cursor.observation {
          assert all[|front|] == last;
          assert forall l :: k < l < |front| ==> front[l] == all[l];
        }
      }
    }
  }

  /** Sharing loses nothing: the stored boards are the samples' own. */
  lemma {:induction false} SharingKeepsScoreboards(table: map<nat, Facts>, samples: seq<Sample>)
    requires forall i :: 0 <= i < |samples| ==> Agrees(table, samples[i].players)
    ensures var r := StoreBoards(NO_BOARDS, samples);
            && (r.Some? <==> Complete(samples))
            && (r.Some? ==> Interned(r.value) && Known(r.value.payloads, table) && ShowsOwn(r.value, samples))
  {
    hide Interned, ShowsOwnAt, StoreSample, Known, HasBoards, Agrees;
    if samples == [] {
      NoBoardsAreInterned(table);
    } else {
      var front, last := samples[..|samples| - 1], samples[|samples| - 1];
      SharingKeepsScoreboards(table, front);
      assert Complete(samples) <==> Complete(front) && HasBoards(last.players);
      var before := StoreBoards(NO_BOARDS, front);
      if before.Some? {
        StoreSampleShowsOwn(before.value, table, last);
        if HasBoards(last.players) {
          ShowsOneMore(before.value, front, last, StoreSample(before.value, last).value.of);
          assert front + [last] == samples;
          OnlyOfMatters(before.value.(of := StoreSample(before.value, last).value.of), StoreSample(before.value, last).value, samples);
        }
      }
    }
  }

  lemma NoBoardsAreInterned(table: map<nat, Facts>)
    ensures Interned(NO_BOARDS) && Known(NO_BOARDS.payloads, table)
  {
  }

  lemma OnlyOfMatters(a: Boards, b: Boards, samples: seq<Sample>)
    requires Complete(samples) && ShowsOwn(a, samples) && a.of == b.of
    ensures ShowsOwn(b, samples)
  {
    forall k | 0 <= k < |samples| ensures ShowsOwnAt(b, samples, k) {
      assert ShowsOwnAt(a, samples, k);
    }
  }

  // ----- Loading -----

  predicate CurrentLoad(s: State, load: Load) {
    !s.closed && load.generation == s.generation
  }

  function Pump(s: State): State {
    if s.closed || s.active.Some? || s.pending.None? then s
    else s.(pending := None, active := Some(Load(s.pending.value.0, s.pending.value.1, None, None, true, 0)))
  }

  function Select(s: State, scope: Option<Scope>, restart: bool): State {
    if s.closed || (!restart && scope.Some? && s.view.scope == scope) then s
    else
      var status := if scope.Some? then Loading else Idle;
      var pending := if scope.Some? then Some((scope.value, s.generation + 1)) else None;
      Pump(s.(generation := s.generation + 1, samples := [], boards := NO_BOARDS, pending := pending,
              view := Shown(scope, status, status, 0)))
  }

  function Retry(s: State): State {
    if s.view.scope.Some? then Select(s, s.view.scope, true) else s
  }

  /** The finally-callback. */
  function Over(s: State): State {
    Pump(s.(active := None))
  }

  /** The outer catch-callback, and what follows it. */
  function Fail(s: State): State
    requires s.active.Some?
  {
    if CurrentLoad(s, s.active.value)
    then Over(s.(samples := [], boards := NO_BOARDS, view := Shown(s.view.scope, Broken, Broken, 0)))
    else Over(s)
  }

  /** A page the load may take: its source and revision, its size, its order, and a continuation that advances. */
  ghost predicate GoodPage(load: Load, end: nat, page: Page) {
    && page.scope == load.scope && (load.revision.Some? ==> load.revision == Some(page.revision))
    && |page.samples| <= PAGE_SIZE && Continues(load.after, page.samples, end)
    && (page.next.Some? ==> page.samples != [] && page.next == Some(page.samples[|page.samples| - 1].cursor))
  }

  function Compacted(samples: seq<Sample>): seq<Sample> {
    seq(|samples|, i requires 0 <= i < |samples| =>
      samples[i].(players := seq(|samples[i].players|, j requires 0 <= j < |samples[i].players| =>
                                   samples[i].players[j].(scoreboard := None))))
  }

  /** The scoreboards after a page, or nothing where they are given up. */
  function PageBoards(s: State, page: Page): Option<Boards>
    requires s.active.Some?
  {
    if s.active.value.boards && s.active.value.boardBytes + page.wire <= MAX_BYTES then StoreBoards(s.boards, page.samples)
    else None
  }

  function Taken(load: Load, page: Page): seq<Sample> {
    if load.boards then Compacted(page.samples) else page.samples
  }

  function Room(s: State, load: Load, page: Page): bool {
    && s.view.bytes + (if load.boards then page.compact else page.wire) <= MAX_BYTES
    && |s.samples| + |page.samples| <= MAX_SAMPLES
  }

  function Boarded(s: State, boards: Option<Boards>): State {
    s.(boards := if boards.Some? then boards.value else NO_BOARDS)
  }

  /** The page's samples and its share of the bytes. */
  function Gained(s: State, page: Page, boards: Option<Boards>): State
    requires s.active.Some?
  {
    var status := if page.next.Some? then Loading else Ready;
    Boarded(s, boards).(samples := s.samples + Taken(s.active.value, page),
                        view := Shown(s.view.scope, status, if boards.Some? then status else Broken,
                                      s.view.bytes + (if s.active.value.boards then page.compact else page.wire)))
  }

  /** A good page, taken. */
  function Take(s: State, page: Page): State
    requires s.active.Some?
  {
    var load := s.active.value;
    var boards := PageBoards(s, page);
    if !Room(s, load, page) then Fail(Boarded(s, boards))
    else
      var taken := Gained(s, page, boards);
      if page.next.Some?
      then taken.(active := Some(load.(after := page.next, revision := Some(page.revision), boards := boards.Some?,
                                       boardBytes := load.boardBytes + (if load.boards then page.wire else 0))))
      else Over(taken)
  }

  ghost function PageCame(s: State, end: nat, page: Page): State
    requires s.active.Some?
  {
    if !CurrentLoad(s, s.active.value) then Over(s)
    else if GoodPage(s.active.value, end, page) then Take(s, page)
    else Fail(s)
  }

  /** The first failed read of a load that still wants scoreboards is repeated without them. */
  function PageLost(s: State): State
    requires s.active.Some?
  {
    if !CurrentLoad(s, s.active.value) then Over(s)
    else if s.active.value.boards then s.(active := Some(s.active.value.(boards := false)), boards := NO_BOARDS)
    else Fail(s)
  }

  /** The load is given up: nothing loaded, nothing in flight. */
  predicate GivenUp(s: State) {
    s.view.status == Broken && s.view.boardStatus == Broken && s.samples == [] && s.active.None? && s.pending.None?
  }

  /**
   * A read that fails with scoreboards wanted is repeated from the same place, keeping every sample loaded so far; a load
   * without them, so the second failure in a row at the latest, is given up.
   */
  lemma SecondFailureEndsTheLoad(s: State, end: nat)
    requires Inv(s, end) && s.active.Some? && CurrentLoad(s, s.active.value)
    ensures var b := PageLost(s);
            if s.active.value.boards then
              && b.active == Some(s.active.value.(boards := false)) && CurrentLoad(b, b.active.value)
              && b.samples == s.samples && b.view == s.view && GivenUp(PageLost(b))
            else GivenUp(b)
  {
  }

  function Initial(): State {
    State(Shown(None, Idle, Idle, 0), [], 0, None, None, false, NO_BOARDS)
  }

  function Dispose(s: State): State {
    State(Shown(None, Idle, Idle, 0), [], s.generation + 1, s.active, None, true, NO_BOARDS)
  }

  datatype Event =
    | Selected(scope: Option<Scope>, restart: bool)
    | Retried
    | PageRead(page: Page)
    | PageFailed
    | Disposed

  ghost predicate Enabled(s: State, e: Event) {
    e.PageRead? || e.PageFailed? ==> s.active.Some?
  }

  ghost function Step(s: State, end: nat, e: Event): State
    requires Enabled(s, e)
  {
    match e
    case Selected(scope, restart) => Select(s, scope, restart)
    case Retried => Retry(s)
    case PageRead(page) => PageCame(s, end, page)
    case PageFailed => PageLost(s)
    case Disposed => Dispose(s)
  }

  // ----- Invariant -----

  ghost predicate LoadGoesOn(s: State, load: Load) {
    && s.view.scope == Some(load.scope) && s.view.status == Loading && s.pending.None?
    && (load.after.None? ==> s.samples == [])
    && (load.after.Some? ==> s.samples != [] && load.after == Some(s.samples[|s.samples| - 1].cursor))
    && (if load.boards then s.view.boardStatus == Loading else s.boards == NO_BOARDS)
  }

  ghost predicate Inv(s: State, end: nat) {
    && Continues(None, s.samples, end) && |s.samples| <= MAX_SAMPLES && s.view.bytes <= MAX_BYTES
    && (s.samples != [] ==> (s.view.status == Loading || s.view.status == Ready) && !s.closed)
    && (s.active.Some? ==>
          s.active.value.generation <= s.generation && (CurrentLoad(s, s.active.value) ==> LoadGoesOn(s, s.active.value)))
    && (s.pending.Some? ==>
          && s.active.Some? && !CurrentLoad(s, s.active.value) && s.samples == [] && !s.closed && s.view.status == Loading
          && s.view.boardStatus == Loading && s.view.scope == Some(s.pending.value.0) && s.pending.value.1 == s.generation && s.boards == NO_BOARDS)
    && (s.view.status == Loading ==>
          s.view.scope.Some? && (s.pending.Some? || (s.active.Some? && CurrentLoad(s, s.active.value))))
  }

  lemma ContinuesAppends(xs: seq<Sample>, ys: seq<Sample>, zs: seq<Sample>, end: nat)
    requires Continues(None, xs, end) && |ys| == |zs| && forall i :: 0 <= i < |ys| ==> ys[i].cursor == zs[i].cursor
    requires Continues(if xs == [] then None else Some(xs[|xs| - 1].cursor), ys, end)
    ensures Continues(None, xs + zs, end)
  {
    forall i, j | 0 <= i < j < |xs + zs| ensures Before((xs + zs)[i].cursor, (xs + zs)[j].cursor) {
      if i < |xs| <= j {
        assert Before(xs[|xs| - 1].cursor, ys[j - |xs|].cursor);
        assert i < |xs| - 1 ==> Before(xs[i].cursor, xs[|xs| - 1].cursor);
      } else if j >= |xs| {
        assert Before(ys[i - |xs|].cursor, ys[j - |xs|].cursor);
      }
    }
  }

  lemma OverKeeps(s: State, end: nat)
    requires Continues(None, s.samples, end) && |s.samples| <= MAX_SAMPLES && s.view.bytes <= MAX_BYTES
    requires s.samples != [] ==> s.view.status == Ready && !s.closed
    requires s.pending.Some? ==>
               && s.samples == [] && !s.closed && s.view.status == Loading && s.boards == NO_BOARDS
               && s.view.scope.Some? && s.pending.value == (s.view.scope.value, s.generation) && s.view.boardStatus == Loading
    requires s.view.status == Loading ==> s.view.scope.Some? && s.pending.Some?
    ensures Inv(Over(s), end) && Over(s).samples == s.samples && Over(s).view == s.view && Over(s).generation == s.generation
    ensures Over(s).boards == s.boards && Over(s).closed == s.closed
  {
    hide Continues;
  }

  lemma SelectKeeps(s: State, end: nat, scope: Option<Scope>, restart: bool)
    requires Inv(s, end)
    ensures Inv(Select(s, scope, restart), end)
  {
  }

  lemma FailKeeps(s: State, end: nat)
    requires Inv(s, end) && s.active.Some?
    ensures Inv(Fail(s), end)
  {
  }

  /** The list after a good page is in order, and ends where the page says it continues. */
  lemma GainedContinues(s: State, end: nat, page: Page, boards: Option<Boards>)
    requires Inv(s, end) && s.active.Some? && CurrentLoad(s, s.active.value) && GoodPage(s.active.value, end, page)
    ensures var b := Gained(s, page, boards).samples;
            && Continues(None, b, end) && |b| == |s.samples| + |page.samples|
            && (page.next.Some? ==> b != [] && page.next == Some(b[|b| - 1].cursor))
  {
    ContinuesAppends(s.samples, page.samples, Taken(s.active.value, page), end);
  }

  lemma LastPageKeeps(s: State, end: nat, page: Page, boards: Option<Boards>)
    requires Inv(s, end) && s.active.Some? && CurrentLoad(s, s.active.value) && Room(s, s.active.value, page) && page.next.None?
    requires var b := Gained(s, page, boards).samples; Continues(None, b, end) && |b| == |s.samples| + |page.samples|
    ensures Inv(Over(Gained(s, page, boards)), end)
  {
    hide Continues, Taken, Over;
    OverKeeps(Gained(s, page, boards), end);
  }

  lemma NextPageKeeps(s: State, end: nat, page: Page, boards: Option<Boards>, load: Load)
    requires Inv(s, end) && s.active.Some? && CurrentLoad(s, s.active.value) && Room(s, s.active.value, page) && page.next.Some?
    requires var b := Gained(s, page, boards).samples;
             && Continues(None, b, end) && |b| == |s.samples| + |page.samples|
             && b != [] && page.next == Some(b[|b| - 1].cursor)
    requires load == s.active.value.(after := page.next, revision := load.revision, boards := boards.Some?, boardBytes := load.boardBytes)
    ensures Inv(Gained(s, page, boards).(active := Some(load)), end)
  {
    hide Continues, Taken;
  }

  lemma NoRoomKeeps(s: State, end: nat, boards: Option<Boards>)
    requires Inv(s, end) && s.active.Some? && CurrentLoad(s, s.active.value)
    ensures Inv(Fail(Boarded(s, boards)), end)
  {
    hide Over;
    EmptyContinues(end);
    hide Continues;
    OverKeeps(Boarded(s, boards).(samples := [], boards := NO_BOARDS, view := Shown(s.view.scope, Broken, Broken, 0)), end);
  }

  lemma TakeKeeps(s: State, end: nat, page: Page)
    requires Inv(s, end) && s.active.Some? && CurrentLoad(s, s.active.value) && GoodPage(s.active.value, end, page)
    ensures Inv(Take(s, page), end)
  {
    hide PageBoards, Inv, Gained, Continues, Over, Fail, Room, GoodPage;
    var load := s.active.value;
    var boards := PageBoards(s, page);
    GainedContinues(s, end, page, boards);
    if !Room(s, load, page) {
      NoRoomKeeps(s, end, boards);
    } else if page.next.None? {
      LastPageKeeps(s, end, page, boards);
    } else {
      NextPageKeeps(s, end, page, boards,
                    load.(after := page.next, revision := Some(page.revision), boards := boards.Some?,
                          boardBytes := load.boardBytes + (if load.boards then page.wire else 0)));
    }
  }

  lemma StepKeepsInv(s: State, end: nat, e: Event)
    requires Inv(s, end) && Enabled(s, e)
    ensures Inv(Step(s, end, e), end)
  {
    hide Continues, Select, Take, Fail;
    match e
    case Selected(scope, restart) => SelectKeeps(s, end, scope, restart);
    case Retried => SelectKeeps(s, end, s.view.scope, true);
    case PageRead(page) =>
      if !CurrentLoad(s, s.active.value) {
        OverKeeps(s, end);
      } else if GoodPage(s.active.value, end, page) {
        TakeKeeps(s, end, page);
      } else {
        FailKeeps(s, end);
      }
    case PageFailed =>
      if !CurrentLoad(s, s.active.value) {
        OverKeeps(s, end);
      } else {
        FailKeeps(s, end);
      }
    case Disposed => EmptyContinues(end);
  }

  lemma EmptyContinues(end: nat)
    ensures Continues(None, [], end)
  {
  }

  // ----- Reading samples -----

  /** sampleAt: nothing where a page still to come could change the answer. */
  method SampleAt(s: State, end: nat, position: Option<nat>) returns (answer: Option<Sample>)
    requires Inv(s, end)
    ensures answer == Answer(s, position)
  {
    if position.None? || s.view.status == Broken || s.samples == [] {
      return None;
    }
    if s.view.status != Ready && position.value >= s.samples[|s.samples| - 1].cursor.tick {
      return None;
    }
    var low, high := 0, |s.samples|;
    while low < high
      invariant 0 <= low <= high <= |s.samples|
      invariant forall i :: 0 <= i < low ==> s.samples[i].cursor.tick <= position.value
      invariant forall i :: high <= i < |s.samples| ==> position.value < s.samples[i].cursor.tick
    {
      var mid := low + (high - low) / 2;
      TicksRise(s.samples, mid);
      if s.samples[mid].cursor.tick <= position.value {
        low := mid + 1;
      } else {
        high := mid;
      }
    }
    CountIsLow(s.samples, position.value, low);
    if low == 0 {
      return None;
    }
    return Some(s.samples[low - 1]);
  }

  lemma TicksRise(samples: seq<Sample>, mid: nat)
    requires Increasing(samples) && mid < |samples|
    ensures forall i :: 0 <= i <= mid ==> samples[i].cursor.tick <= samples[mid].cursor.tick
    ensures forall i :: mid <= i < |samples| ==> samples[mid].cursor.tick <= samples[i].cursor.tick
  {
    forall i | 0 <= i < mid ensures samples[i].cursor.tick <= samples[mid].cursor.tick {
      assert Before(samples[i].cursor, samples[mid].cursor);
    }
    forall i | mid < i < |samples| ensures samples[mid].cursor.tick <= samples[i].cursor.tick {
      assert Before(samples[mid].cursor, samples[i].cursor);
    }
  }

  /** How many samples, from the first on, lie at or before a position. */
  ghost function CountUpTo(samples: seq<Sample>, position: nat): (n: nat)
    ensures n <= |samples|
    ensures forall i :: 0 <= i < n ==> samples[i].cursor.tick <= position
    ensures n < |samples| ==> position < samples[n].cursor.tick
  {
    if samples == [] || position < samples[0].cursor.tick then 0
    else
      var rest := CountUpTo(samples[1..], position);
      assert rest < |samples| - 1 ==> samples[1..][rest] == samples[rest + 1];
      assert forall i :: 0 < i < rest + 1 ==> samples[i] == samples[1..][i - 1];
      1 + rest
  }

  lemma {:induction false} CountIsLow(samples: seq<Sample>, position: nat, low: nat)
    requires low <= |samples|
    requires forall i :: 0 <= i < low ==> samples[i].cursor.tick <= position
    requires forall i :: low <= i < |samples| ==> position < samples[i].cursor.tick
    ensures CountUpTo(samples, position) == low
  {
    if low > 0 {
      CountIsLow(samples[1..], position, low - 1);
    }
  }

  ghost function Answer(s: State, position: Option<nat>): Option<Sample> {
    if position.None? || s.view.status == Broken || s.samples == [] then None
    else if s.view.status != Ready && position.value >= s.samples[|s.samples| - 1].cursor.tick then None
    else
      var n := CountUpTo(s.samples, position.value);
      if n == 0 then None else Some(s.samples[n - 1])
  }

  /** An answer is the last sample of the list at or before the position, by (tick, observation). */
  lemma AnswerIsTheLastSample(s: State, end: nat, position: nat)
    requires Inv(s, end) && (Answer(s, Some(position)).Some? || s.view.status == Ready)
    ensures IsLastAtOrBefore(s.samples, position, Answer(s, Some(position)))
  {
    var n := CountUpTo(s.samples, position);
    forall i | n <= i < |s.samples| ensures position < s.samples[i].cursor.tick {
      TicksRise(s.samples, n);
    }
    if n > 0 {
      assert s.samples[n - 1].cursor.tick <= position;
    }
  }

  // ----- Whole runs -----

  ghost predicate IsRun(states: seq<State>, events: seq<Event>, end: nat) {
    && |states| == |events| + 1 && states[0] == Initial()
    && forall i :: 0 <= i < |events| ==> Takes(states[i], events[i], end, states[i + 1])
  }

  ghost predicate Takes(a: State, e: Event, end: nat, b: State) {
    Enabled(a, e) && b == Step(a, end, e)
  }

  lemma {:induction false} RunKeepsInv(states: seq<State>, events: seq<Event>, end: nat, i: nat)
    requires IsRun(states, events, end) && i < |states|
    ensures Inv(states[i], end)
  {
    if i > 0 {
      RunKeepsInv(states, events, end, i - 1);
      StepKeepsInv(states[i - 1], end, events[i - 1]);
      assert Takes(states[i - 1], events[i - 1], end, states[i]);
    }
  }

  /** Within one selection, unless it breaks, samples are only ever appended, and none after the last page. */
  ghost predicate Extends(a: State, b: State) {
    && a.generation <= b.generation && (a.closed ==> b.closed)
    && (a.generation == b.generation && !b.closed && b.view.status != Broken ==>
          && a.view.status != Broken && a.samples <= b.samples && a.view.scope == b.view.scope
          && (a.view.status == Ready ==> b.view.status == Ready && b.samples == a.samples))
  }

  lemma PageExtends(s: State, end: nat, page: Page)
    requires Inv(s, end) && s.active.Some?
    ensures Extends(s, PageCame(s, end, page))
  {
    hide StoreBoards, Continues, GoodPage;
  }

  lemma StepExtends(s: State, end: nat, e: Event)
    requires Inv(s, end) && Enabled(s, e)
    ensures Extends(s, Step(s, end, e))
  {
    if e.PageRead? {
      hide PageCame, Inv;
      PageExtends(s, end, e.page);
    } else {
      hide Continues;
    }
  }

  lemma {:induction false} RunExtends(states: seq<State>, events: seq<Event>, end: nat, i: nat, j: nat)
    requires IsRun(states, events, end) && i <= j < |states|
    ensures Extends(states[i], states[j])
    decreases j - i
  {
    hide Inv, Step, Initial;
    if i < j {
      RunExtends(states, events, end, i, j - 1);
      RunKeepsInv(states, events, end, j - 1);
      assert Takes(states[j - 1], events[j - 1], end, states[j]);
      StepExtends(states[j - 1], end, events[j - 1]);
    }
  }

  /**
   * An answer given while pages are still arriving is final: as long as the same selection loads on without breaking, and
   * when all its pages are there, the same position gets the same sample, even where equal ticks are split across pages.
   */
  lemma AnswersAreFinal(states: seq<State>, events: seq<Event>, end: nat, i: nat, j: nat, position: Option<nat>)
    requires IsRun(states, events, end) && i <= j < |states|
    requires states[j].generation == states[i].generation && !states[j].closed && states[j].view.status != Broken
    requires Answer(states[i], position).Some?
    ensures Answer(states[j], position) == Answer(states[i], position)
  {
    RunExtends(states, events, end, i, j);
    RunKeepsInv(states, events, end, i);
    RunKeepsInv(states, events, end, j);
    var xs, ys := states[i].samples, states[j].samples;
    if states[i].view.status != Ready {
      hide Step, Initial, Takes;
      var n := CountUpTo(xs, position.value);
      assert n < |xs|;
      TicksRise(ys, n);
      CountIsLow(ys, position.value, n);
      TicksRise(ys, |xs| - 1);
    }
  }

  /** The samples, as read, of the pages taken since the selection of state i was made. */
  ghost function Arrived(states: seq<State>, events: seq<Event>, end: nat, i: nat): seq<Sample>
    requires |states| == |events| + 1 && i < |states|
  {
    if i == 0 || states[i].generation != states[i - 1].generation then []
    else Arrived(states, events, end, i - 1) + Contribution(states[i - 1], end, events[i - 1])
  }

  /** Only a good page of the current selection's own load contributes. */
  ghost function Contribution(s: State, end: nat, e: Event): seq<Sample> {
    if e.PageRead? && s.active.Some? && CurrentLoad(s, s.active.value) && GoodPage(s.active.value, end, e.page) then e.page.samples
    else []
  }

  /** The boards are kept: neither given up by the load in progress nor when it ended. */
  ghost predicate BoardsKept(s: State) {
    && (s.view.boardStatus == Loading || s.view.boardStatus == Ready) && s.view.boardStatus == s.view.status
    && (s.active.Some? && CurrentLoad(s, s.active.value) ==> s.active.value.boards)
  }

  ghost predicate SameCursors(a: seq<Sample>, b: seq<Sample>) {
    |a| == |b| && forall k :: 0 <= k < |a| ==> a[k].cursor == b[k].cursor
  }

  /** What is loaded, and what the boards were built from, is exactly what arrived. */
  ghost predicate Holds(s: State, arrived: seq<Sample>) {
    && (!s.closed && s.view.status != Broken ==> SameCursors(s.samples, arrived))
    && (!s.closed && BoardsKept(s) ==> StoreBoards(NO_BOARDS, arrived) == Some(s.boards))
  }

  lemma {:induction false} StoreBoardsAppends(b: Boards, xs: seq<Sample>, ys: seq<Sample>)
    ensures StoreBoards(b, xs + ys) ==
            (if StoreBoards(b, xs).None? then None else StoreBoards(StoreBoards(b, xs).value, ys))
  {
    if ys == [] {
      assert xs + ys == xs;
    } else {
      StoreBoardsAppends(b, xs, ys[..|ys| - 1]);
      assert (xs + ys)[..|xs + ys| - 1] == xs + ys[..|ys| - 1];
      assert (xs + ys)[|xs + ys| - 1] == ys[|ys| - 1];
      if StoreBoards(b, xs).None? {
        assert StoreBoards(b, xs + ys) == None;
      }
    }
  }

  lemma TakeHolds(s: State, end: nat, page: Page, arrived: seq<Sample>)
    requires Inv(s, end) && s.active.Some? && CurrentLoad(s, s.active.value) && GoodPage(s.active.value, end, page)
    requires Holds(s, arrived)
    ensures Holds(Take(s, page), arrived + page.samples)
  {
    StoreBoardsAppends(NO_BOARDS, arrived, page.samples);
    hide StoreBoards, Continues;
  }

  lemma OthersHold(s: State, end: nat, e: Event, arrived: seq<Sample>)
    requires Inv(s, end) && Enabled(s, e) && Contribution(s, end, e) == [] && Holds(s, arrived)
    requires e.PageRead? ==> !(CurrentLoad(s, s.active.value) && GoodPage(s.active.value, end, e.page))
    ensures Holds(Step(s, end, e), if Step(s, end, e).generation == s.generation then arrived else [])
  {
    hide Continues, GoodPage, Take;
    assert StoreBoards(NO_BOARDS, []) == Some(NO_BOARDS);
    hide StoreBoards;
  }

  lemma StepHolds(s: State, end: nat, e: Event, arrived: seq<Sample>)
    requires Inv(s, end) && Enabled(s, e) && Holds(s, arrived)
    ensures var b := Step(s, end, e);
            Holds(b, if b.generation == s.generation then arrived + Contribution(s, end, e) else [])
  {
    if e.PageRead? && CurrentLoad(s, s.active.value) && GoodPage(s.active.value, end, e.page) {
      TakeHolds(s, end, e.page, arrived);
      TakeKeepsGeneration(s, e.page);
    } else {
      hide Inv, Step, Holds;
      assert arrived + [] == arrived;
      OthersHold(s, end, e, arrived);
    }
  }

  lemma TakeKeepsGeneration(s: State, page: Page)
    requires s.active.Some?
    ensures Take(s, page).generation == s.generation
  {
    hide StoreBoards;
  }

  /** No page of an older selection, and no part of a page refused, is ever in the list; and no page taken is missing. */
  lemma {:induction false} LoadedIsWhatArrived(states: seq<State>, events: seq<Event>, end: nat, i: nat)
    requires IsRun(states, events, end) && i < |states|
    ensures Holds(states[i], Arrived(states, events, end, i))
  {
    if i > 0 {
      hide Inv, Step, Holds, Contribution, Initial;
      LoadedIsWhatArrived(states, events, end, i - 1);
      RunKeepsInv(states, events, end, i - 1);
      assert Takes(states[i - 1], events[i - 1], end, states[i]);
      StepHolds(states[i - 1], end, events[i - 1], Arrived(states, events, end, i - 1));
    }
  }

  /** scoreboardFor. */
  function ScoreboardFor(s: State, sample: Option<Sample>): Option<Board> {
    if sample.Some? && s.view.boardStatus != Broken && sample.value.cursor.observation in s.boards.of
    then Some(s.boards.of[sample.value.cursor.observation]) else None
  }

  /**
   * Interned scoreboards lose nothing: while boards are kept, the scoreboard of a loaded sample is the one its page carried,
   * provided the recording's payload ids name one payload each and no later sample repeats the observation.
   */
  lemma ScoreboardIsTheSamplesOwn(states: seq<State>, events: seq<Event>, end: nat, i: nat, k: nat, table: map<nat, Facts>)
    requires IsRun(states, events, end) && i < |states| && !states[i].closed && BoardsKept(states[i])
    requires var arrived := Arrived(states, events, end, i);
             && (forall l :: 0 <= l < |arrived| ==> Agrees(table, arrived[l].players))
             && k < |states[i].samples|
             && forall l :: k < l < |arrived| ==> arrived[l].cursor.observation != arrived[k].cursor.observation
    ensures var arrived := Arrived(states, events, end, i);
            && k < |arrived| && HasBoards(arrived[k].players)
            && ScoreboardFor(states[i], Some(states[i].samples[k])) == Some(OwnBoard(arrived[k].players))
  {
    hide Step, Initial, Takes, Agrees, Arrived, OwnBoard;
    var arrived := Arrived(states, events, end, i);
    LoadedIsWhatArrived(states, events, end, i);
    SharingKeepsScoreboards(table, arrived);
    hide StoreBoards;
    assert ShowsOwnAt(states[i].boards, arrived, k);
  }

  /** A load that was asked for is running or next in line. */
  lemma LoadingNeverStalls(states: seq<State>, events: seq<Event>, end: nat, i: nat)
    requires IsRun(states, events, end) && i < |states| && states[i].view.status == Loading
    ensures states[i].active.Some? && states[i].view.scope.Some?
    ensures CurrentLoad(states[i], states[i].active.value)
            || states[i].pending == Some((states[i].view.scope.value, states[i].generation))
  {
    hide Step, Initial, Takes;
    RunKeepsInv(states, events, end, i);
  }

  // ----- The controller itself -----

  /** storeScoreboards: sample by sample, player by player; nothing where a player has no scoreboard. */
  method StoreScoreboards(b: Boards, samples: seq<Sample>) returns (r: Option<Boards>)
    ensures r == StoreBoards(b, samples)
  {
    var stored, i := b, 0;
    while i < |samples|
      invariant i <= |samples| && StoreBoards(b, samples[..i]) == Some(stored)
    {
      assert samples[..i + 1][..i] == samples[..i];
      var payloads, board := SharePlayers(stored.payloads, samples[i].players);
      if board.None? {
        MissingStays(b, samples, i + 1);
        return None;
      }
      var variants := stored.variants;
      if Key(board.value) !in variants {
        variants := variants[Key(board.value) := board.value];
      }
      stored := Boards(payloads, variants, stored.of[samples[i].cursor.observation := variants[Key(board.value)]]);
      i := i + 1;
    }
    assert samples[..i] == samples;
    return Some(stored);
  }

  lemma {:induction false} MissingStays(b: Boards, samples: seq<Sample>, i: nat)
    requires i <= |samples| && StoreBoards(b, samples[..i]) == None
    ensures StoreBoards(b, samples) == None
    decreases |samples| - i
  {
    if i < |samples| {
      assert samples[..i + 1][..i] == samples[..i];
      MissingStays(b, samples, i + 1);
    } else {
      assert samples[..i] == samples;
    }
  }

  method SharePlayers(payloads: map<nat, Facts>, players: seq<Player>) returns (known: map<nat, Facts>, board: Option<Board>)
    ensures (board.None? && Shared(payloads, players).None?)
            || (board.Some? && Shared(payloads, players) == Some((known, board.value)))
  {
    known := payloads;
    var facts: Board := [];
    var i := 0;
    while i < |players|
      invariant i <= |players| && Shared(payloads, players[..i]) == Some((known, facts))
    {
      assert players[..i + 1][..i] == players[..i];
      if players[i].scoreboard.None? {
        MissingPlayer(payloads, players, i + 1);
        return known, None;
      }
      var id := players[i].scoreboard.value.payload;
      if id !in known {
        known := known[id := players[i].scoreboard.value];
      }
      facts := SetFacts(facts, players[i].participant, known[id]);
      i := i + 1;
    }
    assert players[..i] == players;
    board := Some(facts);
  }

  lemma {:induction false} MissingPlayer(payloads: map<nat, Facts>, players: seq<Player>, i: nat)
    requires i <= |players| && Shared(payloads, players[..i]) == None
    ensures Shared(payloads, players) == None
    decreases |players| - i
  {
    if i < |players| {
      assert players[..i + 1][..i] == players[..i];
      MissingPlayer(payloads, players, i + 1);
    } else {
      assert players[..i] == players;
    }
  }

  class OverlayController {
    const end: nat
    var view: Shown
    var samples: seq<Sample>
    var generation: nat
    var active: Option<Load>
    var pending: Option<(Scope, nat)>
    var closed: bool
    var boards: Boards

    constructor (end: nat)
      ensures this.end == end && View() == Initial() && Inv(View(), end)
    {
      this.end := end;
      view, samples, generation := Shown(None, Idle, Idle, 0), [], 0;
      active, pending, closed, boards := None, None, false, NO_BOARDS;
    }

    function View(): State
      reads this
    {
      State(view, samples, generation, active, pending, closed, boards)
    }

    method RunPending()
      modifies `pending, `active
      ensures View() == Pump(old(View()))
    {
      if closed || active.Some? || pending.None? {
        return;
      }
      var (scope, asked) := pending.value;
      pending := None;
      active := Some(Load(scope, asked, None, None, true, 0));
    }

    method Choose(scope: Option<Scope>, restart: bool)
      modifies this
      ensures View() == Select(old(View()), scope, restart)
    {
      if closed || (!restart && scope.Some? && view.scope == scope) {
        return;
      }
      generation := generation + 1;
      samples := [];
      boards := NO_BOARDS;
      if scope.Some? {
        pending := Some((scope.value, generation));
        view := Shown(scope, Loading, Loading, 0);
      } else {
        pending := None;
        view := Shown(None, Idle, Idle, 0);
      }
      RunPending();
    }

    method ChooseAgain()
      modifies this
      ensures View() == Retry(old(View()))
    {
      hide Select;
      if view.scope.Some? {
        Choose(view.scope, true);
      }
    }

    method LoadOver()
      modifies `pending, `active
      ensures View() == Over(old(View()))
    {
      active := None;
      RunPending();
    }

    method Break()
      requires active.Some?
      modifies this
      ensures View() == Fail(old(View()))
    {
      if CurrentLoad(View(), active.value) {
        samples := [];
        boards := NO_BOARDS;
        view := Shown(view.scope, Broken, Broken, 0);
      }
      LoadOver();
    }

    method PageArrives(page: Page)
      requires active.Some?
      modifies this
      ensures View() == PageCame(old(View()), end, page)
    {
      hide Take, Fail, Continues;
      if !CurrentLoad(View(), active.value) {
        LoadOver();
        return;
      }
      var load := active.value;
      if page.scope != load.scope || (load.revision.Some? && load.revision != Some(page.revision)) || |page.samples| > PAGE_SIZE {
        Break();
        return;
      }
      var ordered := CheckSamples(load.after, page.samples, end);
      if !ordered || (page.next.Some? && (page.samples == [] || Compare(page.next.value, page.samples[|page.samples| - 1].cursor) != 0)) {
        Break();
        return;
      }
      AcceptPage(page);
    }

    /** What the loop does with a page it has checked. */
    method AcceptPage(page: Page)
      requires active.Some?
      modifies this
      ensures View() == Take(old(View()), page)
    {
      hide StoreBoards, Fail, Compacted;
      var load := active.value;
      var kept: Option<Boards> := None;
      if load.boards && load.boardBytes + page.wire <= MAX_BYTES {
        kept := StoreScoreboards(boards, page.samples);
      }
      boards := if kept.Some? then kept.value else NO_BOARDS;
      var bytes := view.bytes + if load.boards then page.compact else page.wire;
      if bytes > MAX_BYTES || |samples| + |page.samples| > MAX_SAMPLES {
        Break();
        return;
      }
      samples := samples + if load.boards then Compacted(page.samples) else page.samples;
      var status := if page.next.Some? then Loading else Ready;
      view := Shown(view.scope, status, if kept.Some? then status else Broken, bytes);
      if page.next.Some? {
        active := Some(load.(after := page.next, revision := Some(page.revision), boards := kept.Some?,
                             boardBytes := load.boardBytes + if load.boards then page.wire else 0));
      } else {
        LoadOver();
      }
    }

    method PageMissing()
      requires active.Some?
      modifies this
      ensures View() == PageLost(old(View()))
    {
      hide Fail;
      if !CurrentLoad(View(), active.value) {
        LoadOver();
      } else if active.value.boards {
        active := Some(active.value.(boards := false));
        boards := NO_BOARDS;
      } else {
        Break();
      }
    }

    method Shut()
      modifies this
      ensures View() == Dispose(old(View()))
    {
      closed, generation, pending, samples := true, generation + 1, None, [];
      boards := NO_BOARDS;
      view := Shown(None, Idle, Idle, 0);
    }

    method Handle(e: Event)
      requires Enabled(View(), e) && Inv(View(), end)
      modifies this
      ensures View() == Step(old(View()), end, e) && Inv(View(), end)
    {
      hide Inv, Select, Retry, PageCame, PageLost, Dispose;
      StepKeepsInv(View(), end, e);
      match e
      case Selected(scope, restart) => Choose(scope, restart);
      case Retried => ChooseAgain();
      case PageRead(page) => PageArrives(page);
      case PageFailed => PageMissing();
      case Disposed => Shut();
    }
  }
}
