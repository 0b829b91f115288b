/**
 * Folding the raw event stream into timeline events (app/src/timelineEventDisplay.ts): meta events disappear into the kill
 * they describe, and only into one that is shown.
 */
module TimelineEventDisplay {
  import opened ReplayTime
  import opened StableSorting
  import opened Wrappers

  const META_ASSOCIATION_WINDOW: int := 5 * TICKS_PER_SECOND

  // ----- Data -----

  datatype Role = Killer | Victim | Assister | Recipient | Acer

  datatype Actor = Actor(participant: Option<nat>, resolved: bool)

  datatype Kind = ChampionKill | FirstBlood | TurretKilled | FirstBrick | Multikill | Ace | Other(name: string)

  datatype Event = Event(kind: Kind, tick: nat, source: Option<string>, actors: map<Role, seq<Actor>>, killer: Option<string>,
                         relation: string, turret: Option<string>, streak: Option<int>)

  datatype Display = Display(tick: nat, source: Event, multiplier: Option<int>)

  /** The resolved participants an event names in a role, each with the source that names it (app/src/leagueSource.ts:14-18). */
  function ActorKeys(event: Event, role: Role): seq<(string, nat)> {
    if event.source.None? || role !in event.actors then [] else ResolvedKeys(event.source.value, event.actors[role])
  }

  function ResolvedKeys(source: string, actors: seq<Actor>): seq<(string, nat)> {
    if actors == [] then []
    else
      var last := actors[|actors| - 1];
      ResolvedKeys(source, actors[..|actors| - 1])
        + if last.resolved && last.participant.Some? then [(source, last.participant.value)] else []
  }

  predicate SameActor(a: Event, aRole: Role, b: Event, bRole: Role) {
    var left, right := ActorKeys(a, aRole), ActorKeys(b, bRole);
    |left| == 1 && |right| == 1 && left[0] == right[0]
  }

  predicate IsKill(event: Event) {
    event.kind.ChampionKill? || event.kind.FirstBlood?
  }

  predicate Compatible(left: Option<string>, right: Option<string>) {
    left.None? || right.None? || left == right
  }

  predicate SameKill(candidate: Event, event: Event) {
    && candidate.kind.ChampionKill? && candidate.tick == event.tick
    && SameActor(candidate, Killer, event, Killer) && SameActor(candidate, Victim, event, Victim)
  }

  predicate SameTurret(candidate: Event, event: Event) {
    && candidate.kind.TurretKilled? && candidate.tick == event.tick && candidate.relation == event.relation
    && SameActor(candidate, Killer, event, Killer) && Compatible(candidate.turret, event.turret)
  }

  predicate DuplicatesKill(event: Event, events: seq<Event>) {
    event.kind.FirstBlood? && exists i :: 0 <= i < |events| && SameKill(events[i], event)
  }

  predicate DuplicatesTurret(event: Event, events: seq<Event>) {
    event.kind.FirstBrick? && exists i :: 0 <= i < |events| && SameTurret(events[i], event)
  }

  predicate Kept(event: Event, events: seq<Event>) {
    !event.kind.Multikill? && !event.kind.Ace? && !DuplicatesKill(event, events) && !DuplicatesTurret(event, events)
  }

  function KeptIn(events: seq<Event>): Event -> bool {
    (event: Event) => Kept(event, events)
  }

  function Keep(events: seq<Event>): seq<Event> {
    Filter(events, KeptIn(events))
  }

  // ----- The nearest previous kill -----

  /** The role in which a meta event names the killer of the kills it is about. */
  function MetaRole(meta: Event): Role {
    if meta.kind.Ace? then Acer else Killer
  }

  /** A kill the meta event may be folded into. */
  predicate Candidate(kill: Event, meta: Event) {
    && IsKill(kill) && SameActor(kill, Killer, meta, MetaRole(meta))
    && kill.tick <= meta.tick && meta.tick - kill.tick <= META_ASSOCIATION_WINDOW
  }

  /** The latest candidate, the first of those at its tick. */
  function Nearest(events: seq<Event>, meta: Event): (at: Option<nat>)
    ensures at.Some? ==> at.value < |events| && Candidate(events[at.value], meta)
  {
    if events == [] then None
    else
      var front, last := events[..|events| - 1], events[|events| - 1];
      var before := Nearest(front, meta);
      if Candidate(last, meta) && (before.None? || last.tick > events[before.value].tick) then Some(|events| - 1) else before
  }

  lemma {:induction false} NearestIsTheLatest(events: seq<Event>, meta: Event)
    ensures var at := Nearest(events, meta);
            && (at.None? <==> forall i :: 0 <= i < |events| ==> !Candidate(events[i], meta))
            && (at.Some? ==> forall i :: 0 <= i < |events| && Candidate(events[i], meta) ==>
                  && events[i].tick <= events[at.value].tick
                  && (i < at.value ==> events[i].tick < events[at.value].tick))
  {
    hide Candidate;
    if events != [] {
      var front := events[..|events| - 1];
      NearestIsTheLatest(front, meta);
      assert forall i :: 0 <= i < |front| ==> front[i] == events[i];
    }
  }

  function Sources(displays: seq<Display>): seq<Event> {
    seq(|displays|, i requires 0 <= i < |displays| => displays[i].source)
  }

  method NearestPreviousKill(displays: seq<Display>, meta: Event) returns (selected: Option<nat>)
    requires forall i :: 0 <= i < |displays| ==> displays[i].tick == displays[i].source.tick
    ensures selected == Nearest(Sources(displays), meta)
  {
    selected := None;
    var i := 0;
    while i < |displays|
      invariant i <= |displays| && selected == Nearest(Sources(displays)[..i], meta)
    {
      var candidate := displays[i];
      assert Sources(displays)[..i + 1][..i] == Sources(displays)[..i];
      i := i + 1;
      if !IsKill(candidate.source) || !SameActor(candidate.source, Killer, meta, MetaRole(meta)) || candidate.tick > meta.tick {
        continue;
      }
      var distance := meta.tick - candidate.tick;
      if distance < 0 || distance > META_ASSOCIATION_WINDOW {
        continue;
      }
      if selected.None? || candidate.tick > displays[selected.value].tick {
        selected := Some(i - 1);
      }
    }
    assert Sources(displays)[..i] == Sources(displays);
  }

  // ----- What the display is -----

  /** The kill a meta event is folded into: the index among the kept events. */
  function Target(kept: seq<Event>, meta: Event): (at: Option<nat>)
    ensures at.Some? ==> at.value < |kept| && Candidate(kept[at.value], meta)
  {
    if meta.kind.Ace? || (meta.kind.Multikill? && meta.killer.Some?) then Nearest(kept, meta) else None
  }

  function Streak(meta: Event): int {
    if meta.streak.Some? then meta.streak.value else 0
  }

  predicate Standalone(kept: seq<Event>, meta: Event) {
    (meta.kind.Multikill? || meta.kind.Ace?) && Target(kept, meta).None?
  }

  function StandaloneAmong(kept: seq<Event>): Event -> bool {
    (meta: Event) => Standalone(kept, meta)
  }

  predicate Raises(kept: seq<Event>, i: nat, meta: Event) {
    meta.kind.Multikill? && Target(kept, meta) == Some(i) && Streak(meta) > 1
  }

  /** The multiplier of the kept event at i after the meta events of a list. */
  function Raised(metas: seq<Event>, kept: seq<Event>, i: nat): Option<int> {
    if metas == [] then None
    else
      var before := Raised(metas[..|metas| - 1], kept, i);
      var last := metas[|metas| - 1];
      if !Raises(kept, i, last) then before
      else Some(if before.Some? && before.value > Streak(last) then before.value else Streak(last))
  }

  function Alone(meta: Event): Display {
    Display(meta.tick, meta, if meta.kind.Multikill? && Streak(meta) > 1 then Some(Streak(meta)) else None)
  }

  function Alones(metas: seq<Event>, kept: seq<Event>): seq<Display> {
    if metas == [] then []
    else
      Alones(metas[..|metas| - 1], kept)
        + if Standalone(kept, metas[|metas| - 1]) then [Alone(metas[|metas| - 1])] else []
  }

  function Folded(metas: seq<Event>, kept: seq<Event>): seq<Display> {
    seq(|kept|, i requires 0 <= i < |kept| => Display(kept[i].tick, kept[i], Raised(metas, kept, i))) + Alones(metas, kept)
  }

  function EventTick(event: Event): real {
    event.tick as real
  }

  function DisplayTick(display: Display): real {
    display.tick as real
  }

  function Displayed(events: seq<Event>): seq<Display> {
    var ordered := SortBy(events, EventTick);
    SortBy(Folded(ordered, Keep(ordered)), DisplayTick)
  }

  lemma {:induction false} AlonesAreMetas(metas: seq<Event>, kept: seq<Event>)
    ensures forall i :: 0 <= i < |Alones(metas, kept)| ==>
              var d := Alones(metas, kept)[i];
              !IsKill(d.source) && d.tick == d.source.tick && d == Alone(d.source) && Standalone(kept, d.source)
  {
    if metas != [] {
      AlonesAreMetas(metas[..|metas| - 1], kept);
    }
  }

  /** Standalone meta events are no kills, so pushing them never changes a target. */
  lemma {:induction false} NearestSkips(kept: seq<Event>, pushed: seq<Event>, meta: Event)
    requires forall i :: 0 <= i < |pushed| ==> !IsKill(pushed[i])
    ensures Nearest(kept + pushed, meta) == Nearest(kept, meta)
  {
    if pushed == [] {
      assert kept + pushed == kept;
    } else {
      NearestSkips(kept, pushed[..|pushed| - 1], meta);
      assert (kept + pushed)[..|kept + pushed| - 1] == kept + pushed[..|pushed| - 1];
    }
  }

  lemma FoldedSources(metas: seq<Event>, kept: seq<Event>, meta: Event)
    ensures forall i :: 0 <= i < |Folded(metas, kept)| ==> Folded(metas, kept)[i].tick == Folded(metas, kept)[i].source.tick
    ensures Nearest(Sources(Folded(metas, kept)), meta) == Nearest(kept, meta)
  {
    AlonesAreMetas(metas, kept);
    var pushed := Sources(Alones(metas, kept));
    assert Sources(Folded(metas, kept)) == kept + pushed;
    NearestSkips(kept, pushed, meta);
  }

  method TimelineDisplayEvents(events: seq<Event>) returns (display: seq<Display>)
    ensures display == Displayed(events)
  {
    var ordered := SortBy(events, EventTick);
    var kept := Keep(ordered);
    var result := seq(|kept|, i requires 0 <= i < |kept| => Display(kept[i].tick, kept[i], None));
    var n := 0;
    assert Folded(ordered[..0], kept) == result;
    while n < |ordered|
      invariant n <= |ordered| && result == Folded(ordered[..n], kept)
    {
      var meta := ordered[n];
      FoldedSources(ordered[..n], kept, meta);
      FoldOne(ordered, kept, n);
      n := n + 1;
      if meta.kind.Multikill? {
        var multiplier := if meta.streak.Some? then meta.streak.value else 0;
        var target := None;
        if meta.killer.Some? {
          target := NearestPreviousKill(result, meta);
        }
        if target.Some? {
          if multiplier > 1 {
            var earlier := result[target.value].multiplier;
            var most := if earlier.Some? && earlier.value > multiplier then earlier.value else multiplier;
            result := result[target.value := result[target.value].(multiplier := Some(most))];
          }
          continue;
        }
        result := result + [Display(meta.tick, meta, if multiplier > 1 then Some(multiplier) else None)];
        continue;
      }
      if meta.kind.Ace? {
        var target := NearestPreviousKill(result, meta);
        if target.Some? {
          continue;
        }
        result := result + [Display(meta.tick, meta, None)];
      }
    }
    assert ordered[..n] == ordered;
    display := SortBy(result, DisplayTick);
  }

  /** One meta event either raises its target, or is pushed, or changes nothing. */
  lemma FoldOne(ordered: seq<Event>, kept: seq<Event>, n: nat)
    requires n < |ordered|
    ensures var meta, before, after := ordered[n], Folded(ordered[..n], kept), Folded(ordered[..n + 1], kept);
            var at := Target(kept, meta);
            if Standalone(kept, meta) then after == before + [Alone(meta)]
            else if at.Some? && Raises(kept, at.value, meta) then
              at.value < |before| && after == before[at.value := before[at.value].(multiplier :=
                Some(if before[at.value].multiplier.Some? && before[at.value].multiplier.value > Streak(meta)
                     then before[at.value].multiplier.value else Streak(meta)))]
            else after == before
  {
    assert ordered[..n + 1][..n] == ordered[..n];
    var meta := ordered[n];
    forall i | 0 <= i < |kept| && !Raises(kept, i, meta)
      ensures Raised(ordered[..n + 1], kept, i) == Raised(ordered[..n], kept, i) {}
  }

  // ----- Nothing is lost -----

  /** What the display shows of an event that it does not show itself. */
  ghost predicate Represented(event: Event, display: seq<Display>) {
    exists k :: 0 <= k < |display| && Represents(display[k], event)
  }

  predicate Represents(shown: Display, event: Event) {
    match event.kind
    case FirstBlood => SameKill(shown.source, event)
    case FirstBrick => SameTurret(shown.source, event)
    case Multikill => Candidate(shown.source, event) && (Streak(event) > 1 ==>
                                                           shown.multiplier.Some? && shown.multiplier.value >= Streak(event))
    case Ace => Candidate(shown.source, event)
    case _ => false
  }

  /** The events a display drops, in terms of the kept ones. */
  predicate Dropped(event: Event, ordered: seq<Event>) {
    !Kept(event, ordered) && !Standalone(Keep(ordered), event)
  }

  lemma {:induction false} AlonesSources(metas: seq<Event>, kept: seq<Event>)
    ensures Sources(Alones(metas, kept)) == Filter(metas, StandaloneAmong(kept))
  {
    if metas != [] {
      AlonesSources(metas[..|metas| - 1], kept);
      var front := Alones(metas[..|metas| - 1], kept);
      assert Standalone(kept, metas[|metas| - 1]) ==>
               Sources(front + [Alone(metas[|metas| - 1])]) == Sources(front) + [metas[|metas| - 1]];
      assert !Standalone(kept, metas[|metas| - 1]) ==> Alones(metas, kept) == front;
    }
  }

  /** A display's sources are sorted the way the display is. */
  lemma {:induction false} SourcesInsert(sorted: seq<Display>, x: Display)
    requires x.tick == x.source.tick && forall i :: 0 <= i < |sorted| ==> sorted[i].tick == sorted[i].source.tick
    ensures Sources(Insert(sorted, x, DisplayTick)) == Insert(Sources(sorted), x.source, EventTick)
    ensures forall i :: 0 <= i < |Insert(sorted, x, DisplayTick)| ==>
              Insert(sorted, x, DisplayTick)[i].tick == Insert(sorted, x, DisplayTick)[i].source.tick
  {
    if sorted != [] {
      SourcesInsert(sorted[..|sorted| - 1], x);
      assert Sources(sorted)[..|sorted| - 1] == Sources(sorted[..|sorted| - 1]);
    }
  }

  lemma {:induction false} SourcesSort(displays: seq<Display>)
    requires forall i :: 0 <= i < |displays| ==> displays[i].tick == displays[i].source.tick
    ensures Sources(SortBy(displays, DisplayTick)) == SortBy(Sources(displays), EventTick)
    ensures forall i :: 0 <= i < |SortBy(displays, DisplayTick)| ==>
              SortBy(displays, DisplayTick)[i].tick == SortBy(displays, DisplayTick)[i].source.tick
  {
    if displays != [] {
      SourcesSort(displays[..|displays| - 1]);
      SourcesInsert(SortBy(displays[..|displays| - 1], DisplayTick), displays[|displays| - 1]);
      assert Sources(displays)[..|displays| - 1] == Sources(displays[..|displays| - 1]);
    }
  }

  lemma FoldedCount(ordered: seq<Event>, e: Event)
    ensures multiset(Sources(Folded(ordered, Keep(ordered))))[e] ==
            if Dropped(e, ordered) then 0 else multiset(ordered)[e]
  {
    hide Kept, Standalone, Sources, Folded, Keep;
    var kept := Keep(ordered);
    FoldedParts(ordered, kept);
    KeptCount(ordered, e);
    AlonesCount(ordered, kept, e);
    assert multiset(kept + Sources(Alones(ordered, kept)))[e] == multiset(kept)[e] + multiset(Sources(Alones(ordered, kept)))[e];
    NotBoth(ordered, kept, e);
  }

  lemma FoldedParts(metas: seq<Event>, kept: seq<Event>)
    ensures Sources(Folded(metas, kept)) == kept + Sources(Alones(metas, kept))
  {
  }

  lemma KeptCount(ordered: seq<Event>, e: Event)
    ensures multiset(Keep(ordered))[e] == if Kept(e, ordered) then multiset(ordered)[e] else 0
  {
    hide Kept;
    FilterParts(ordered, KeptIn(ordered));
  }

  lemma AlonesCount(metas: seq<Event>, kept: seq<Event>, e: Event)
    ensures multiset(Sources(Alones(metas, kept)))[e] == if Standalone(kept, e) then multiset(metas)[e] else 0
  {
    hide Standalone;
    AlonesSources(metas, kept);
    FilterParts(metas, StandaloneAmong(kept));
  }

  lemma NotBoth(ordered: seq<Event>, kept: seq<Event>, e: Event)
    ensures !(Kept(e, ordered) && Standalone(kept, e))
  {
  }

  /**
   * The timeline shows events in order, each at its own tick, and shows exactly the events it does not fold away, each as
   * often as it came.
   */
  lemma TimelineShowsWhatItDoesNotFold(events: seq<Event>)
    ensures var display := Displayed(events);
            && SortedBy(display, DisplayTick)
            && (forall k :: 0 <= k < |display| ==> display[k].tick == display[k].source.tick)
            && forall e :: multiset(Sources(display))[e] ==
                 if Dropped(e, SortBy(events, EventTick)) then 0 else multiset(events)[e]
  {
    var ordered := SortBy(events, EventTick);
    var folded := Folded(ordered, Keep(ordered));
    FoldedSources(ordered, Keep(ordered), if events == [] then Event(Ace, 0, None, map[], None, "", None, None) else events[0]);
    SortCorrect(events, EventTick);
    SortCorrect(folded, DisplayTick);
    SourcesSort(folded);
    SortCorrect(Sources(folded), EventTick);
    forall e ensures multiset(Sources(Displayed(events)))[e] == if Dropped(e, ordered) then 0 else multiset(events)[e] {
      FoldedCount(ordered, e);
    }
  }

  /** A kill's multiplier is the greatest streak above one of the multikills folded into it. */
  lemma {:induction false} RaisedIsTheGreatestStreak(metas: seq<Event>, kept: seq<Event>, i: nat)
    ensures var m := Raised(metas, kept, i);
            && (m.None? <==> forall k :: 0 <= k < |metas| ==> !Raises(kept, i, metas[k]))
            && (m.Some? ==>
                  && (exists k :: 0 <= k < |metas| && Raises(kept, i, metas[k]) && Streak(metas[k]) == m.value)
                  && forall k :: 0 <= k < |metas| && Raises(kept, i, metas[k]) ==> Streak(metas[k]) <= m.value)
  {
    if metas != [] {
      var front, last := metas[..|metas| - 1], metas[|metas| - 1];
      RaisedIsTheGreatestStreak(front, kept, i);
      assert forall k :: 0 <= k < |front| ==> front[k] == metas[k];
      var before := Raised(front, kept, i);
      if before.Some? {
        var k :| 0 <= k < |front| && Raises(kept, i, front[k]) && Streak(front[k]) == before.value;
        assert Raises(kept, i, metas[k]);
      }
      if Raises(kept, i, last) {
        assert Raises(kept, i, metas[|metas| - 1]);
      }
    }
  }

  lemma ShownAfterSort(folded: seq<Display>, i: nat)
    requires i < |folded|
    ensures folded[i] in SortBy(folded, DisplayTick)
  {
    SortMembers(folded, DisplayTick);
  }

  lemma KeptIsShown(ordered: seq<Event>, e: Event)
    requires e in ordered && Kept(e, ordered)
    ensures exists i :: 0 <= i < |Keep(ordered)| && Folded(ordered, Keep(ordered))[i].source == e
  {
    FilterMember(ordered, KeptIn(ordered));
    var i :| 0 <= i < |Keep(ordered)| && Keep(ordered)[i] == e;
    assert Folded(ordered, Keep(ordered))[i].source == e;
  }

  /** Every event the timeline drops is represented by one it shows. */
  lemma DroppedEventsAreRepresented(events: seq<Event>, event: Event)
    requires event in events && Dropped(event, SortBy(events, EventTick))
    ensures Represented(event, Displayed(events))
    ensures event.kind.FirstBlood? || event.kind.FirstBrick? || event.kind.Multikill? || event.kind.Ace?
  {
    var ordered := SortBy(events, EventTick);
    SortMembers(events, EventTick);
    var folded := Folded(ordered, Keep(ordered));
    hide Keep, Folded, SortBy;
    var i := Representative(ordered, event);
    ShownAfterSort(folded, i);
    var k :| 0 <= k < |Displayed(events)| && Displayed(events)[k] == folded[i];
    assert Represents(Displayed(events)[k], event);
  }

  /** Where, before the last sort, the representative of a dropped event is. */
  lemma Representative(ordered: seq<Event>, event: Event) returns (i: nat)
    requires event in ordered && Dropped(event, ordered)
    ensures i < |Folded(ordered, Keep(ordered))| && Represents(Folded(ordered, Keep(ordered))[i], event)
    ensures event.kind.FirstBlood? || event.kind.FirstBrick? || event.kind.Multikill? || event.kind.Ace?
  {
    if event.kind.FirstBlood? || event.kind.FirstBrick? {
      i := DuplicateIsShown(ordered, event);
    } else {
      i := FoldedIntoTarget(ordered, event);
    }
  }

  lemma DuplicateIsShown(ordered: seq<Event>, event: Event) returns (i: nat)
    requires DuplicatesKill(event, ordered) || DuplicatesTurret(event, ordered)
    ensures i < |Folded(ordered, Keep(ordered))| && Represents(Folded(ordered, Keep(ordered))[i], event)
  {
    var c :| 0 <= c < |ordered| && if event.kind.FirstBlood? then SameKill(ordered[c], event) else SameTurret(ordered[c], event);
    KeptIsShown(ordered, ordered[c]);
    hide Keep, SameActor;
    i :| 0 <= i < |Keep(ordered)| && Folded(ordered, Keep(ordered))[i].source == ordered[c];
  }

  lemma FoldedIntoTarget(ordered: seq<Event>, event: Event) returns (i: nat)
    requires event in ordered && (event.kind.Multikill? || event.kind.Ace?) && Target(Keep(ordered), event).Some?
    ensures i < |Folded(ordered, Keep(ordered))| && Represents(Folded(ordered, Keep(ordered))[i], event)
  {
    var kept := Keep(ordered);
    i := Target(kept, event).value;
    RaisedIsTheGreatestStreak(ordered, kept, i);
    hide Keep, Candidate, Raised;
    var k :| 0 <= k < |ordered| && ordered[k] == event;
    assert Raises(kept, i, ordered[k]) ==> Streak(ordered[k]) <= Raised(ordered, kept, i).value;
  }

  /** A shown multiplier is never invented: it is the greatest streak folded into a kill, or a lone multikill's own. */
  lemma ShownMultiplierIsAStreak(events: seq<Event>, k: nat)
    requires k < |Displayed(events)| && Displayed(events)[k].multiplier.Some?
    ensures exists e :: e in events && e.kind.Multikill? && Streak(e) == Displayed(events)[k].multiplier.value > 1
                        && (e == Displayed(events)[k].source || Candidate(Displayed(events)[k].source, e))
  {
    var ordered := SortBy(events, EventTick);
    var kept := Keep(ordered);
    var folded := Folded(ordered, kept);
    SortMembers(events, EventTick);
    SortMembers(folded, DisplayTick);
    hide SortBy, Keep;
    var shown := Displayed(events)[k];
    assert shown in folded;
    var i :| 0 <= i < |folded| && folded[i] == shown;
    if i < |kept| {
      var c := RaisedByOne(ordered, kept, i);
    } else {
      AloneIsItsOwn(ordered, kept, i - |kept|);
    }
  }

  lemma RaisedByOne(ordered: seq<Event>, kept: seq<Event>, i: nat) returns (c: Event)
    requires i < |kept| && Raised(ordered, kept, i).Some?
    ensures c in ordered && c.kind.Multikill? && Streak(c) == Raised(ordered, kept, i).value > 1 && Candidate(kept[i], c)
  {
    RaisedIsTheGreatestStreak(ordered, kept, i);
    hide Raised;
    var k :| 0 <= k < |ordered| && Raises(kept, i, ordered[k]) && Streak(ordered[k]) == Raised(ordered, kept, i).value;
    c := ordered[k];
  }

  lemma AloneIsItsOwn(ordered: seq<Event>, kept: seq<Event>, i: nat)
    requires i < |Alones(ordered, kept)|
    ensures var d := Alones(ordered, kept)[i]; d.source in ordered && d == Alone(d.source)
  {
    AlonesAreMetas(ordered, kept);
    AlonesSources(ordered, kept);
    FilterMember(ordered, StandaloneAmong(kept));
    assert Sources(Alones(ordered, kept))[i] == Alones(ordered, kept)[i].source;
  }
}
