/** Greedy clustering of timeline events by visual footprint (app/src/replayTimelineGeometry.ts); pixels are reals. */
module TimelineClusters {
  import opened StableSorting

  /** A caller-supplied number, which may be NaN or infinite. */
  datatype Measure = Finite(value: real) | NotFinite

  datatype TimelineEvent = TimelineEvent(id: int, tick: int, width: Measure, priority: Measure)

  datatype Viewport = Viewport(start: int, end: int)

  datatype Item = Item(event: TimelineEvent, x: real, visualWidth: real)

  datatype Cluster =
    | Single(event: TimelineEvent, x: real)
    | Group(events: seq<TimelineEvent>, start: int, end: int, x: real)

  function Max(a: real, b: real): real {
    if a < b then b else a
  }

  function Min(a: real, b: real): real {
    if a < b then a else b
  }

  function VisualWidth(event: TimelineEvent): (w: real)
    ensures w >= 1.0
  {
    if event.width.Finite? then Max(1.0, event.width.value) else 1.0
  }

  function Priority(event: TimelineEvent): (p: real)
    ensures p >= 0.0
  {
    if event.priority.Finite? then Max(0.0, event.priority.value) else 0.0
  }

  function OverlapRatio(raw: Measure): (ratio: real)
    ensures 0.0 <= ratio <= 1.0
  {
    if raw.Finite? then Min(1.0, Max(0.0, raw.value)) else 0.0
  }

  function MinimumCenterDistance(left: real, right: real, overlap: real): real {
    Max(0.0, left / 2.0 + right / 2.0 - Min(left, right) * overlap)
  }

  function Span(viewport: Viewport): int {
    if viewport.end > viewport.start then viewport.end - viewport.start else 0
  }

  predicate Visible(tick: int, viewport: Viewport) {
    viewport.start <= tick <= viewport.end
  }

  function XOf(tick: int, viewport: Viewport, widthPx: real): real
    requires Span(viewport) > 0
  {
    ((tick - viewport.start) as real / Span(viewport) as real) * widthPx
  }

  lemma XMonotone(a: int, b: int, viewport: Viewport, widthPx: real)
    requires Span(viewport) > 0 && widthPx > 0.0 && a <= b
    ensures XOf(a, viewport, widthPx) <= XOf(b, viewport, widthPx)
  {
    RatioMonotone((a - viewport.start) as real, (b - viewport.start) as real, Span(viewport) as real, widthPx);
  }

  lemma RatioMonotone(a: real, b: real, d: real, w: real)
    requires d > 0.0 && w > 0.0 && a <= b
    ensures (a / d) * w <= (b / d) * w
  {
    var p, q := a / d, b / d;
    assert p <= q by {
      assert p * d == a && q * d == b;
      if p > q { StrictProduct(p, q, d); }
    }
    NonNegativeProduct(q - p, w);
  }

  lemma StrictProduct(p: real, q: real, d: real)
    requires d > 0.0 && p > q
    ensures p * d > q * d
  {}

  lemma NonNegativeProduct(a: real, b: real)
    requires a >= 0.0 && b >= 0.0
    ensures a * b >= 0.0
  {}

  // ----- Groups -----

  function GroupWidth(group: seq<Item>): (w: real)
    ensures w >= 1.0
    ensures forall i :: 0 <= i < |group| ==> group[i].visualWidth <= w
  {
    if group == [] then 1.0
    else Max(GroupWidth(group[..|group| - 1]), group[|group| - 1].visualWidth)
  }

  function Midpoint(group: seq<Item>): real
    requires group != []
  {
    (group[0].x + group[|group| - 1].x) / 2.0
  }

  function Spread(group: seq<Item>): real
    requires group != []
  {
    group[|group| - 1].x - group[0].x
  }

  function Flatten<T>(parts: seq<seq<T>>): seq<T> {
    if parts == [] then [] else Flatten(parts[..|parts| - 1]) + parts[|parts| - 1]
  }

  ghost predicate XSorted(items: seq<Item>) {
    forall i, j :: 0 <= i < j < |items| ==> items[i].x <= items[j].x
  }

  /** The item starts a group of its own when it clears the group's footprint. */
  predicate Clears(group: seq<Item>, item: Item, overlap: real)
    requires group != []
  {
    item.x - Midpoint(group) >= MinimumCenterDistance(GroupWidth(group), item.visualWidth, overlap)
  }

  ghost predicate GoodGroup(group: seq<Item>) {
    group != [] && XSorted(group) && Spread(group) < 2.0 * GroupWidth(group)
  }

  /** Each item joined because it did not clear the group as it stood. */
  ghost predicate JoinedInTurn(group: seq<Item>, overlap: real) {
    forall k :: 0 < k < |group| ==> !Clears(group[..k], group[k], overlap)
  }

  ghost predicate Separated(groups: seq<seq<Item>>, g: nat, overlap: real)
    requires g + 1 < |groups|
  {
    groups[g] != [] && groups[g + 1] != [] && Clears(groups[g], groups[g + 1][0], overlap)
  }

  ghost predicate Grouped(groups: seq<seq<Item>>, items: seq<Item>, overlap: real) {
    && Flatten(groups) == items
    && (forall g :: 0 <= g < |groups| ==> GoodGroup(groups[g]) && JoinedInTurn(groups[g], overlap))
    && (forall g: nat :: g + 1 < |groups| ==> Separated(groups, g, overlap))
  }

  lemma OverlapOnlyShrinks(left: real, right: real, overlap: real)
    requires left >= 1.0 && right >= 1.0 && 0.0 <= overlap <= 1.0
    ensures 0.0 <= MinimumCenterDistance(left, right, overlap) <= (left + right) / 2.0
  {
    NonNegativeProduct(Min(left, right), overlap);
  }

  /** Joining halves the old spread's contribution, so a spread below two widths stays below two widths. */
  lemma JoinedSpread(group: seq<Item>, item: Item, overlap: real)
    requires group != [] && XSorted(group) && group[|group| - 1].x <= item.x
    requires item.visualWidth >= 1.0 && 0.0 <= overlap <= 1.0
    requires Spread(group) < 2.0 * GroupWidth(group) && !Clears(group, item, overlap)
    ensures XSorted(group + [item]) && Spread(group + [item]) < 2.0 * GroupWidth(group + [item])
  {
    var joined := group + [item];
    assert joined[..|joined| - 1] == group;
    OverlapOnlyShrinks(GroupWidth(group), item.visualWidth, overlap);
  }

  lemma JoinsInTurn(group: seq<Item>, item: Item, overlap: real)
    requires group != [] && JoinedInTurn(group, overlap) && !Clears(group, item, overlap)
    ensures JoinedInTurn(group + [item], overlap)
  {
    var joined := group + [item];
    forall k | 0 < k < |joined| ensures !Clears(joined[..k], joined[k], overlap) {
      assert joined[..k] == group[..k];
      assert group[..|group|] == group;
    }
  }

  lemma OpenGroup(groups: seq<seq<Item>>, items: seq<Item>, item: Item, overlap: real)
    requires Grouped(groups, items, overlap) && item.visualWidth >= 1.0
    requires groups != [] ==> Clears(groups[|groups| - 1], item, overlap)
    ensures Grouped(groups + [[item]], items + [item], overlap)
  {
    var grown := groups + [[item]];
    assert grown[..|grown| - 1] == groups;
    forall g: nat | g + 1 < |grown| ensures Separated(grown, g, overlap) {
      if g + 1 < |groups| {
        assert Separated(groups, g, overlap);
      } else {
        assert GoodGroup(groups[g]);
      }
    }
  }

  lemma ExtendGroup(groups: seq<seq<Item>>, items: seq<Item>, item: Item, overlap: real)
    requires Grouped(groups, items, overlap) && groups != []
    requires GoodGroup(groups[|groups| - 1] + [item]) && JoinedInTurn(groups[|groups| - 1] + [item], overlap)
    ensures Grouped(groups[..|groups| - 1] + [groups[|groups| - 1] + [item]], items + [item], overlap)
  {
    var front, last := groups[..|groups| - 1], groups[|groups| - 1];
    var extended := front + [last + [item]];
    assert extended[..|extended| - 1] == front;
    forall g: nat | g + 1 < |extended| ensures Separated(extended, g, overlap) {
      assert Separated(groups, g, overlap);
    }
  }

  method GroupByCollision(items: seq<Item>, overlap: real) returns (groups: seq<seq<Item>>)
    requires XSorted(items) && 0.0 <= overlap <= 1.0
    requires forall i :: 0 <= i < |items| ==> items[i].visualWidth >= 1.0
    ensures Grouped(groups, items, overlap)
  {
    groups := [];
    for i := 0 to |items|
      invariant Grouped(groups, items[..i], overlap)
      invariant groups == [] <==> i == 0
      invariant i > 0 ==> groups[|groups| - 1] != []
      invariant i > 0 ==> groups[|groups| - 1][|groups[|groups| - 1]| - 1] == items[i - 1]
    {
      var item := items[i];
      assert items[..i + 1] == items[..i] + [item];
      if groups == [] || Clears(groups[|groups| - 1], item, overlap) {
        OpenGroup(groups, items[..i], item, overlap);
        groups := groups + [[item]];
      } else {
        var group := groups[|groups| - 1];
        assert GoodGroup(group);
        JoinedSpread(group, item, overlap);
        JoinsInTurn(group, item, overlap);
        ExtendGroup(groups, items[..i], item, overlap);
        groups := groups[..|groups| - 1] + [group + [item]];
      }
    }
    assert items[..|items|] == items;
  }

  /** Representatives of neighbouring groups keep the required distance between a group and its successor's first item. */
  lemma RepresentativesKeepTheirDistance(groups: seq<seq<Item>>, items: seq<Item>, overlap: real, g: nat)
    requires Grouped(groups, items, overlap) && g + 1 < |groups|
    ensures groups[g] != [] && groups[g + 1] != []
    ensures Midpoint(groups[g + 1]) - Midpoint(groups[g])
            >= MinimumCenterDistance(GroupWidth(groups[g]), groups[g + 1][0].visualWidth, overlap)
  {
    assert Separated(groups, g, overlap) && GoodGroup(groups[g + 1]);
    assert groups[g + 1][0].x <= groups[g + 1][|groups[g + 1]| - 1].x;
  }

  // ----- Priority split -----

  function EventsOf(cluster: Cluster): seq<TimelineEvent> {
    if cluster.Single? then [cluster.event] else cluster.events
  }

  function ItemEvents(group: seq<Item>): seq<TimelineEvent> {
    seq(|group|, i requires 0 <= i < |group| => group[i].event)
  }

  function ClusterItem(group: seq<Item>): Cluster
    requires group != []
  {
    if |group| == 1 then Single(group[0].event, group[0].x)
    else Group(ItemEvents(group), group[0].event.tick, group[|group| - 1].event.tick, Midpoint(group))
  }

  function Without(group: seq<Item>, index: nat): seq<Item>
    requires index < |group|
  {
    group[..index] + group[index + 1..]
  }

  ghost predicate FirstOfHighestPriority(group: seq<Item>, p: nat) {
    && p < |group|
    && Priority(group[p].event) > 0.0
    && (forall i :: 0 <= i < |group| ==> Priority(group[i].event) <= Priority(group[p].event))
    && (forall i :: 0 <= i < p ==> Priority(group[i].event) < Priority(group[p].event))
  }

  predicate StandsClear(group: seq<Item>, p: nat, overlap: real)
    requires p < |group| && |group| > 1
  {
    var rest := ClusterItem(Without(group, p));
    var distance := if rest.x < group[p].x then group[p].x - rest.x else rest.x - group[p].x;
    distance >= MinimumCenterDistance(group[p].visualWidth, GroupWidth(Without(group, p)), overlap)
  }

  method FindProtected(group: seq<Item>) returns (index: int)
    ensures -1 <= index < |group|
    ensures index >= 0 ==> FirstOfHighestPriority(group, index)
    ensures index == -1 ==> forall i :: 0 <= i < |group| ==> Priority(group[i].event) == 0.0
  {
    index := -1;
    var highest := 0.0;
    for i := 0 to |group|
      invariant -1 <= index < i
      invariant index == -1 ==> highest == 0.0
      invariant index >= 0 ==> highest == Priority(group[index].event) > 0.0
      invariant forall j :: 0 <= j < i ==> Priority(group[j].event) <= highest
      invariant forall j :: 0 <= j < index ==> Priority(group[j].event) < highest
    {
      var priority := Priority(group[i].event);
      if priority > highest {
        highest := priority;
        index := i;
      }
    }
  }

  function SplitAt(group: seq<Item>, p: nat): seq<Cluster>
    requires p < |group| && |group| > 1
  {
    [Single(group[p].event, group[p].x), ClusterItem(Without(group, p))]
  }

  ghost predicate PulledOut(group: seq<Item>, p: nat, overlap: real) {
    |group| > 1 && FirstOfHighestPriority(group, p) && StandsClear(group, p, overlap)
  }

  /** An event is pulled out exactly when it is the first of the highest positive priority and stands clear. */
  ghost predicate IsSplit(group: seq<Item>, overlap: real, clusters: seq<Cluster>)
    requires group != []
  {
    && (clusters == [ClusterItem(group)] || exists p: nat :: PulledOut(group, p, overlap))
    && (forall p: nat :: PulledOut(group, p, overlap) ==> clusters == SplitAt(group, p))
  }

  method SplitGroup(group: seq<Item>, overlap: real) returns (clusters: seq<Cluster>)
    requires group != []
    ensures IsSplit(group, overlap, clusters)
  {
    if |group| == 1 {
      return [ClusterItem(group)];
    }
    var index := FindProtected(group);
    if index >= 0 && StandsClear(group, index, overlap) {
      assert PulledOut(group, index, overlap);
      return SplitAt(group, index);
    }
    return [ClusterItem(group)];
  }

  // ----- What a cluster holds -----

  ghost predicate WithinTwiceWidth(cluster: Cluster, viewport: Viewport, widthPx: real, widest: real)
    requires Span(viewport) > 0
  {
    cluster.Group? ==>
      && cluster.events != []
      && (forall i :: 0 <= i < |cluster.events| ==> cluster.start <= cluster.events[i].tick <= cluster.end)
      && XOf(cluster.end, viewport, widthPx) - XOf(cluster.start, viewport, widthPx) < 2.0 * widest
  }

  function ClusterEvents(clusters: seq<Cluster>): seq<TimelineEvent> {
    if clusters == [] then []
    else ClusterEvents(clusters[..|clusters| - 1]) + EventsOf(clusters[|clusters| - 1])
  }

  lemma ClusterEventsSnoc(clusters: seq<Cluster>, last: Cluster)
    ensures ClusterEvents(clusters + [last]) == ClusterEvents(clusters) + EventsOf(last)
  {
    assert (clusters + [last])[..|clusters|] == clusters;
  }

  lemma Associates<T>(a: seq<T>, b: seq<T>, c: seq<T>)
    ensures a + b + c == a + (b + c)
  {
  }

  lemma {:induction false} ClusterEventsConcat(a: seq<Cluster>, b: seq<Cluster>)
    ensures ClusterEvents(a + b) == ClusterEvents(a) + ClusterEvents(b)
  {
    if b == [] {
      assert a + b == a;
    } else {
      hide *;
      var front, last := b[..|b| - 1], b[|b| - 1];
      ClusterEventsConcat(a, front);
      ClusterEventsSnoc(a + front, last);
      ClusterEventsSnoc(front, last);
      Associates(a, front, [last]);
      assert b == front + [last];
      Associates(ClusterEvents(a), ClusterEvents(front), EventsOf(last));
    }
  }

  lemma {:induction false} InsertedEvents(sorted: seq<Cluster>, c: Cluster, key: Cluster -> real)
    ensures multiset(ClusterEvents(Insert(sorted, c, key))) == multiset(ClusterEvents(sorted)) + multiset(EventsOf(c))
  {
    if sorted == [] {
      assert ClusterEvents([c]) == EventsOf(c);
    } else {
      var front, last := sorted[..|sorted| - 1], sorted[|sorted| - 1];
      if key(last) <= key(c) {
        assert (sorted + [c])[..|sorted|] == sorted;
      } else {
        InsertedEvents(front, c, key);
        var inserted := Insert(front, c, key) + [last];
        assert inserted[..|inserted| - 1] == Insert(front, c, key);
      }
    }
  }

  lemma {:induction false} SortedEvents(clusters: seq<Cluster>, key: Cluster -> real)
    ensures multiset(ClusterEvents(SortBy(clusters, key))) == multiset(ClusterEvents(clusters))
  {
    if clusters != [] {
      var front := clusters[..|clusters| - 1];
      SortedEvents(front, key);
      InsertedEvents(SortBy(front, key), clusters[|clusters| - 1], key);
    }
  }

  ghost predicate Projected(items: seq<Item>, viewport: Viewport, widthPx: real)
    requires Span(viewport) > 0
  {
    forall i :: 0 <= i < |items| ==>
      && items[i].x == XOf(items[i].event.tick, viewport, widthPx)
      && items[i].visualWidth == VisualWidth(items[i].event)
  }

  ghost predicate TickSorted(items: seq<Item>) {
    forall i, j :: 0 <= i < j < |items| ==> items[i].event.tick <= items[j].event.tick
  }

  lemma ClusterItemWithin(group: seq<Item>, viewport: Viewport, widthPx: real, widest: real)
    requires Span(viewport) > 0 && group != [] && TickSorted(group) && Projected(group, viewport, widthPx)
    requires Spread(group) < 2.0 * widest
    ensures WithinTwiceWidth(ClusterItem(group), viewport, widthPx, widest)
    ensures EventsOf(ClusterItem(group)) == ItemEvents(group)
  {
    if |group| > 1 {
      forall i | 0 <= i < |group|
        ensures group[0].event.tick <= group[i].event.tick <= group[|group| - 1].event.tick
      {}
    }
  }

  lemma WithoutKeeps(group: seq<Item>, p: nat, viewport: Viewport, widthPx: real)
    requires Span(viewport) > 0 && p < |group| && |group| > 1
    requires TickSorted(group) && XSorted(group) && Projected(group, viewport, widthPx)
    ensures TickSorted(Without(group, p)) && Projected(Without(group, p), viewport, widthPx)
    ensures Spread(Without(group, p)) <= Spread(group)
  {
    var rest := Without(group, p);
    forall i | 0 <= i < |rest| ensures rest[i] == group[if i < p then i else i + 1] {}
    assert group[0].x <= rest[0].x && rest[|rest| - 1].x <= group[|group| - 1].x;
  }

  /** Either half of a split group is still within the bound, and together they hold the group's events. */
  lemma SplitWithin(group: seq<Item>, p: nat, viewport: Viewport, widthPx: real, widest: real)
    requires Span(viewport) > 0 && p < |group| && |group| > 1
    requires TickSorted(group) && XSorted(group) && Projected(group, viewport, widthPx)
    requires Spread(group) < 2.0 * widest
    ensures WithinTwiceWidth(ClusterItem(Without(group, p)), viewport, widthPx, widest)
    ensures multiset{group[p].event} + multiset(EventsOf(ClusterItem(Without(group, p)))) == multiset(ItemEvents(group))
  {
    WithoutKeeps(group, p, viewport, widthPx);
    ClusterItemWithin(Without(group, p), viewport, widthPx, widest);
    RemovedEvent(group, p);
  }

  lemma RemovedEvent(group: seq<Item>, p: nat)
    requires p < |group|
    ensures multiset{group[p].event} + multiset(ItemEvents(Without(group, p))) == multiset(ItemEvents(group))
  {
    var events := ItemEvents(group);
    assert events == events[..p] + [group[p].event] + events[p + 1..];
    assert ItemEvents(Without(group, p)) == events[..p] + events[p + 1..];
  }

  lemma {:induction false} FlattenParts(groups: seq<seq<Item>>, g: nat)
    requires g < |groups|
    ensures forall i :: 0 <= i < |groups[g]| ==> groups[g][i] in Flatten(groups)
    decreases |groups|
  {
    if g < |groups| - 1 {
      FlattenParts(groups[..|groups| - 1], g);
    }
  }

  lemma TickSortedParts(front: seq<Item>, last: seq<Item>)
    requires TickSorted(front + last)
    ensures TickSorted(front) && TickSorted(last)
  {
    var all := front + last;
    assert forall i :: 0 <= i < |front| ==> front[i] == all[i];
    assert forall i :: 0 <= i < |last| ==> last[i] == all[|front| + i];
  }

  lemma {:induction false} FlattenTickSorted(groups: seq<seq<Item>>, g: nat)
    requires g < |groups| && TickSorted(Flatten(groups))
    ensures TickSorted(groups[g])
    decreases |groups|
  {
    TickSortedParts(Flatten(groups[..|groups| - 1]), groups[|groups| - 1]);
    hide TickSorted;
    if g < |groups| - 1 {
      FlattenTickSorted(groups[..|groups| - 1], g);
    }
  }

  lemma {:induction false} WidestCovers(group: seq<Item>, widest: real)
    requires widest >= 1.0 && forall i :: 0 <= i < |group| ==> group[i].visualWidth <= widest
    ensures GroupWidth(group) <= widest
  {
    if group != [] {
      WidestCovers(group[..|group| - 1], widest);
    }
  }

  // ----- The whole pass -----

  function ProjectItems(events: seq<TimelineEvent>, viewport: Viewport, widthPx: real): seq<Item>
    requires Span(viewport) > 0
  {
    seq(|events|, i requires 0 <= i < |events| =>
      Item(events[i], XOf(events[i].tick, viewport, widthPx), VisualWidth(events[i])))
  }

  function VisibleEvents(events: seq<TimelineEvent>, viewport: Viewport): seq<TimelineEvent> {
    SortBy(Filter(events, (e: TimelineEvent) => Visible(e.tick, viewport)), (e: TimelineEvent) => e.tick as real)
  }

  function ClusterX(): Cluster -> real {
    (c: Cluster) => c.x
  }

  ghost predicate SplitInto(groups: seq<seq<Item>>, overlap: real, parts: seq<seq<Cluster>>) {
    |parts| == |groups| && forall g :: 0 <= g < |groups| ==> groups[g] != [] && IsSplit(groups[g], overlap, parts[g])
  }

  lemma FlattenSnoc<T>(parts: seq<seq<T>>, last: seq<T>)
    ensures Flatten(parts + [last]) == Flatten(parts) + last
  {
    assert (parts + [last])[..|parts|] == parts;
  }

  lemma SplitOneMore(groups: seq<seq<Item>>, overlap: real, parts: seq<seq<Cluster>>, g: nat, split: seq<Cluster>)
    requires g < |groups| && SplitInto(groups[..g], overlap, parts) && groups[g] != [] && IsSplit(groups[g], overlap, split)
    ensures SplitInto(groups[..g + 1], overlap, parts + [split])
  {
    hide IsSplit;
  }

  method SplitGroups(groups: seq<seq<Item>>, overlap: real) returns (clusters: seq<Cluster>, ghost parts: seq<seq<Cluster>>)
    requires forall g :: 0 <= g < |groups| ==> groups[g] != []
    ensures SplitInto(groups, overlap, parts) && clusters == Flatten(parts)
  {
    clusters, parts := [], [];
    for g := 0 to |groups|
      invariant SplitInto(groups[..g], overlap, parts)
      invariant clusters == Flatten(parts)
    {
      hide SplitInto, IsSplit, Flatten;
      var split := SplitGroup(groups[g], overlap);
      SplitOneMore(groups, overlap, parts, g, split);
      FlattenSnoc(parts, split);
      clusters, parts := clusters + split, parts + [split];
    }
    assert groups[..|groups|] == groups;
  }

  /** The splits of the first n groups hold those groups' events within the bound. */
  lemma {:induction false} SplitsHold(groups: seq<seq<Item>>, items: seq<Item>, overlap: real, parts: seq<seq<Cluster>>,
                                      viewport: Viewport, widthPx: real, widest: real, n: nat)
    requires Span(viewport) > 0 && Grouped(groups, items, overlap) && SplitInto(groups, overlap, parts) && n <= |groups|
    requires TickSorted(items) && Projected(items, viewport, widthPx)
    requires widest >= 1.0 && forall item :: item in items ==> item.visualWidth <= widest
    ensures multiset(ClusterEvents(Flatten(parts[..n]))) == multiset(ItemEvents(Flatten(groups[..n])))
    ensures forall c :: c in Flatten(parts[..n]) ==> WithinTwiceWidth(c, viewport, widthPx, widest)
  {
    if n > 0 {
      hide *;
      PartOfGroup(groups, overlap, parts, n - 1);
      SplitsHold(groups, items, overlap, parts, viewport, widthPx, widest, n - 1);
      SplitStep(groups, items, overlap, viewport, widthPx, widest, n - 1, parts[n - 1], Flatten(parts[..n - 1]));
      FlattenOneMore(parts, n - 1);
      WithinConcat(Flatten(parts[..n - 1]), parts[n - 1], viewport, widthPx, widest);
    } else {
      assert parts[..0] == [] && groups[..0] == [];
    }
  }

  lemma WithinConcat(a: seq<Cluster>, b: seq<Cluster>, viewport: Viewport, widthPx: real, widest: real)
    requires Span(viewport) > 0
    requires forall c :: c in a ==> WithinTwiceWidth(c, viewport, widthPx, widest)
    requires forall c :: c in b ==> WithinTwiceWidth(c, viewport, widthPx, widest)
    ensures forall c :: c in a + b ==> WithinTwiceWidth(c, viewport, widthPx, widest)
  {
    hide WithinTwiceWidth;
  }

  lemma FlattenOneMore<T>(parts: seq<seq<T>>, n: nat)
    requires n < |parts|
    ensures Flatten(parts[..n + 1]) == Flatten(parts[..n]) + parts[n]
  {
    assert parts[..n + 1][..n] == parts[..n];
  }

  lemma PartOfGroup(groups: seq<seq<Item>>, overlap: real, parts: seq<seq<Cluster>>, g: nat)
    requires SplitInto(groups, overlap, parts) && g < |groups|
    ensures |parts| == |groups| && groups[g] != [] && IsSplit(groups[g], overlap, parts[g])
  {
  }

  lemma SplitStep(groups: seq<seq<Item>>, items: seq<Item>, overlap: real, viewport: Viewport, widthPx: real,
                  widest: real, g: nat, split: seq<Cluster>, clusters: seq<Cluster>)
    requires Span(viewport) > 0 && Grouped(groups, items, overlap) && g < |groups|
    requires TickSorted(items) && Projected(items, viewport, widthPx)
    requires widest >= 1.0 && forall item :: item in items ==> item.visualWidth <= widest
    requires groups[g] != [] && IsSplit(groups[g], overlap, split)
    requires multiset(ClusterEvents(clusters)) == multiset(ItemEvents(Flatten(groups[..g])))
    ensures multiset(ClusterEvents(clusters + split)) == multiset(ItemEvents(Flatten(groups[..g + 1])))
    ensures forall c :: c in split ==> WithinTwiceWidth(c, viewport, widthPx, widest)
  {
    GroupOfItems(groups, items, overlap, viewport, widthPx, widest, g);
    SplitHolds(groups[g], split, overlap, viewport, widthPx, widest);
    ClusterEventsConcat(clusters, split);
    FlattenNext(groups, g);
  }

  lemma FlattenNext(groups: seq<seq<Item>>, g: nat)
    requires g < |groups|
    ensures ItemEvents(Flatten(groups[..g + 1])) == ItemEvents(Flatten(groups[..g])) + ItemEvents(groups[g])
  {
    assert groups[..g + 1][..g] == groups[..g];
  }

  lemma GroupOfItems(groups: seq<seq<Item>>, items: seq<Item>, overlap: real, viewport: Viewport, widthPx: real,
                     widest: real, g: nat)
    requires Span(viewport) > 0 && Grouped(groups, items, overlap) && g < |groups|
    requires TickSorted(items) && Projected(items, viewport, widthPx)
    requires widest >= 1.0 && forall item :: item in items ==> item.visualWidth <= widest
    ensures GoodGroup(groups[g]) && TickSorted(groups[g]) && Projected(groups[g], viewport, widthPx)
    ensures Spread(groups[g]) < 2.0 * widest
  {
    FlattenParts(groups, g);
    FlattenTickSorted(groups, g);
    WidestCovers(groups[g], widest);
  }

  /**
   * The result is sorted by position and holds exactly the events in the viewport; every cluster spans strictly less
   * than twice any bound on the visual widths, however many events there are. The clusters are the greedy groups of
   * the ordered events, each split as IsSplit says.
   */
  method ClusterTimelineEvents(events: seq<TimelineEvent>, viewport: Viewport, widthPx: real, allowedOverlap: Measure,
                               ghost widest: real)
    returns (result: seq<Cluster>, ghost groups: seq<seq<Item>>, ghost parts: seq<seq<Cluster>>)
    requires widest >= 1.0 && forall e :: e in events && Visible(e.tick, viewport) ==> VisualWidth(e) <= widest
    ensures widthPx <= 0.0 || Span(viewport) == 0 ==> result == []
    ensures widthPx > 0.0 && Span(viewport) > 0 ==>
              multiset(ClusterEvents(result)) == multiset(Filter(events, (e: TimelineEvent) => Visible(e.tick, viewport)))
    ensures SortedBy(result, ClusterX())
    ensures Span(viewport) > 0 ==> forall c :: c in result ==> WithinTwiceWidth(c, viewport, widthPx, widest)
    ensures widthPx > 0.0 && Span(viewport) > 0 ==>
              && Grouped(groups, ProjectItems(VisibleEvents(events, viewport), viewport, widthPx), OverlapRatio(allowedOverlap))
              && SplitInto(groups, OverlapRatio(allowedOverlap), parts)
              && result == SortBy(Flatten(parts), ClusterX())
  {
    if widthPx <= 0.0 || Span(viewport) <= 0 {
      return [], [], [];
    }
    var overlap := OverlapRatio(allowedOverlap);
    var ordered := VisibleEvents(events, viewport);
    var visible := ProjectItems(ordered, viewport, widthPx);
    VisibleItems(events, viewport, widthPx, widest);
    var grouped := GroupByCollision(visible, overlap);
    var clusters;
    groups := grouped;
    assert forall g :: 0 <= g < |groups| ==> GoodGroup(groups[g]);
    clusters, parts := SplitGroups(grouped, overlap);
    SplitsHold(grouped, visible, overlap, parts, viewport, widthPx, widest, |groups|);
    assert parts[..|groups|] == parts && groups[..|groups|] == groups;
    assert ItemEvents(visible) == ordered;
    result := SortBy(clusters, ClusterX());
    SortedEvents(clusters, ClusterX());
    SortCorrect(clusters, ClusterX());
    SortMembers(clusters, ClusterX());
  }

  lemma VisibleItems(events: seq<TimelineEvent>, viewport: Viewport, widthPx: real, widest: real)
    requires Span(viewport) > 0 && widthPx > 0.0
    requires forall e :: e in events && Visible(e.tick, viewport) ==> VisualWidth(e) <= widest
    ensures var ordered := VisibleEvents(events, viewport);
            var visible := ProjectItems(ordered, viewport, widthPx);
            && multiset(ordered) == multiset(Filter(events, (e: TimelineEvent) => Visible(e.tick, viewport)))
            && TickSorted(visible) && XSorted(visible) && Projected(visible, viewport, widthPx)
            && forall item :: item in visible ==> item.visualWidth <= widest
  {
    var keep := (e: TimelineEvent) => Visible(e.tick, viewport);
    var key := (e: TimelineEvent) => e.tick as real;
    var ordered := VisibleEvents(events, viewport);
    var visible := ProjectItems(ordered, viewport, widthPx);
    SortCorrect(Filter(events, keep), key);
    SortMembers(Filter(events, keep), key);
    FilterMember(events, keep);
    forall i, j | 0 <= i < j < |visible|
      ensures visible[i].event.tick <= visible[j].event.tick && visible[i].x <= visible[j].x
    {
      assert key(ordered[i]) <= key(ordered[j]);
      XMonotone(ordered[i].tick, ordered[j].tick, viewport, widthPx);
    }
    forall item | item in visible ensures item.visualWidth <= widest {
      assert item.event in ordered;
    }
  }

  lemma SplitHolds(group: seq<Item>, split: seq<Cluster>, overlap: real, viewport: Viewport, widthPx: real, widest: real)
    requires Span(viewport) > 0 && group != []
    requires TickSorted(group) && XSorted(group) && Projected(group, viewport, widthPx) && Spread(group) < 2.0 * widest
    requires IsSplit(group, overlap, split)
    ensures forall c :: c in split ==> WithinTwiceWidth(c, viewport, widthPx, widest)
    ensures multiset(ClusterEvents(split)) == multiset(ItemEvents(group))
  {
    if p: nat :| PulledOut(group, p, overlap) {
      SplitWithin(group, p, viewport, widthPx, widest);
      PairEvents(split[0], split[1]);
    } else {
      ClusterItemWithin(group, viewport, widthPx, widest);
      assert split[..0] == [];
    }
  }

  lemma PairEvents(a: Cluster, b: Cluster)
    ensures ClusterEvents([a, b]) == EventsOf(a) + EventsOf(b)
  {
    assert [a, b][..1] == [a] && [a][..0] == [];
    assert ClusterEvents([a]) == EventsOf(a);
  }
}
