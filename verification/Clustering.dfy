/** Correlation by shared identifier and time: grouping, time clusters, and the two correlators built on them. */
module Clustering {
  import opened Base
  import opened Contract
  import opened FailureThenChange

  // ---------------------------------------------------------------------------
  // Time clusters
  // ---------------------------------------------------------------------------

  function Flatten<T>(parts: seq<seq<T>>): seq<T> {
    if parts == [] then [] else Flatten(parts[..|parts| - 1]) + parts[|parts| - 1]
  }

  predicate Near(a: TelemetryEvent, b: TelemetryEvent, window: int) {
    EventTime(b) - EventTime(a) <= window
  }

  function Last<T>(xs: seq<T>): T
    requires xs != []
  {
    xs[|xs| - 1]
  }

  // What a clustering is: a partition in order, without gaps inside a part and with a gap between parts.
  ghost predicate IsClustering(parts: seq<seq<TelemetryEvent>>, xs: seq<TelemetryEvent>, window: int) {
    Flatten(parts) == xs && Gapped(parts, window)
  }

  ghost predicate Gapped(parts: seq<seq<TelemetryEvent>>, window: int) {
    && (forall k :: 0 <= k < |parts| ==> parts[k] != [])
    && (forall k :: 0 <= k < |parts| ==> Gapless(parts[k], window))
    && (forall k :: 0 < k < |parts| ==> !Near(Last(parts[k - 1]), parts[k][0], window))
  }

  ghost predicate Gapless(part: seq<TelemetryEvent>, window: int) {
    forall i :: 0 < i < |part| ==> Near(part[i - 1], part[i], window)
  }

  function Clusters(xs: seq<TelemetryEvent>, window: int): seq<seq<TelemetryEvent>> {
    if xs == [] then []
    else Join1(Clusters(xs[..|xs| - 1], window), xs[|xs| - 1], window)
  }

  // Adds the next event to the open cluster, or opens a new one.
  function Join1(parts: seq<seq<TelemetryEvent>>, e: TelemetryEvent, window: int): seq<seq<TelemetryEvent>> {
    if parts == [] || Last(parts) == [] || !Near(Last(Last(parts)), e, window) then parts + [[e]]
    else parts[..|parts| - 1] + [Last(parts) + [e]]
  }

  lemma FlattenSnoc<T>(front: seq<seq<T>>, part: seq<T>)
    ensures Flatten(front + [part]) == Flatten(front) + part
  {
    assert (front + [part])[..|front|] == front;
  }

  // A last part may start after a gap, and may gain or lose a near last event.
  lemma GappedSnoc(front: seq<seq<TelemetryEvent>>, part: seq<TelemetryEvent>, window: int)
    ensures Gapped(front + [part], window) <==>
              && Gapped(front, window) && part != [] && Gapless(part, window)
              && (front != [] && Last(front) != [] ==> !Near(Last(Last(front)), part[0], window))
  {
    var parts := front + [part];
    assert parts[|front|] == part;
    if Gapped(parts, window) {
      forall k | 0 <= k < |front| ensures front[k] != [] && Gapless(front[k], window) {
        assert front[k] == parts[k];
      }
      forall k | 0 < k < |front| ensures !Near(Last(front[k - 1]), front[k][0], window) {
        assert front[k] == parts[k] && front[k - 1] == parts[k - 1];
      }
      assert front != [] ==> parts[|front| - 1] == Last(front);
    }
  }

  lemma GaplessSnoc(part: seq<TelemetryEvent>, e: TelemetryEvent, window: int)
    requires part != []
    ensures Gapless(part + [e], window) <==> Gapless(part, window) && Near(Last(part), e, window)
  {
    var longer := part + [e];
    if Gapless(longer, window) {
      forall i | 0 < i < |part| ensures Near(part[i - 1], part[i], window) {
        assert longer[i - 1] == part[i - 1] && longer[i] == part[i];
      }
      assert longer[|part| - 1] == Last(part) && longer[|part|] == e;
    }
  }

  lemma Join1Clusters(parts: seq<seq<TelemetryEvent>>, xs: seq<TelemetryEvent>, e: TelemetryEvent, window: int)
    requires IsClustering(parts, xs, window)
    ensures IsClustering(Join1(parts, e, window), xs + [e], window)
  {
    if parts != [] && Near(Last(Last(parts)), e, window) {
      var front, part := parts[..|parts| - 1], Last(parts);
      assert parts == front + [part];
      FlattenSnoc(front, part);
      FlattenSnoc(front, part + [e]);
      GappedSnoc(front, part, window);
      GappedSnoc(front, part + [e], window);
      GaplessSnoc(part, e, window);
    } else {
      FlattenSnoc(parts, [e]);
      GappedSnoc(parts, [e], window);
    }
  }

  lemma {:induction false} ClustersIsClustering(xs: seq<TelemetryEvent>, window: int)
    ensures IsClustering(Clusters(xs, window), xs, window)
  {
    if xs != [] {
      ClustersIsClustering(xs[..|xs| - 1], window);
      Join1Clusters(Clusters(xs[..|xs| - 1], window), xs[..|xs| - 1], Last(xs), window);
      assert xs == xs[..|xs| - 1] + [Last(xs)];
    }
  }

  // Takes the last event back out of a clustering.
  lemma Unjoin(parts: seq<seq<TelemetryEvent>>, xs: seq<TelemetryEvent>, window: int)
    returns (before: seq<seq<TelemetryEvent>>)
    requires IsClustering(parts, xs, window) && parts != [] && xs != []
    ensures IsClustering(before, xs[..|xs| - 1], window)
    ensures parts == Join1(before, Last(xs), window)
  {
    var front, part := parts[..|parts| - 1], Last(parts);
    assert parts == front + [part];
    FlattenSnoc(front, part);
    GappedSnoc(front, part, window);
    assert Last(xs) == Last(part);
    if |part| == 1 {
      before := front;
      assert xs[..|xs| - 1] == Flatten(front);
      assert part == [Last(xs)];
    } else {
      var shorter := part[..|part| - 1];
      before := front + [shorter];
      assert part == shorter + [Last(xs)];
      FlattenSnoc(front, shorter);
      GaplessSnoc(shorter, Last(xs), window);
      GappedSnoc(front, shorter, window);
      assert xs[..|xs| - 1] == Flatten(front) + shorter;
      assert before[..|before| - 1] == front;
    }
  }

  lemma LastFits<T>(parts: seq<seq<T>>)
    requires parts != []
    ensures |Flatten(parts)| >= |parts[|parts| - 1]|
  {
  }

  lemma NoParts(parts: seq<seq<TelemetryEvent>>, window: int)
    requires IsClustering(parts, [], window)
    ensures parts == []
  {
    if parts != [] {
      LastFits(parts);
    }
  }

  // There is only one clustering.
  lemma {:induction false} ClusteringUnique(parts: seq<seq<TelemetryEvent>>, xs: seq<TelemetryEvent>, window: int)
    requires IsClustering(parts, xs, window)
    ensures parts == Clusters(xs, window)
    decreases |xs|
  {
    if xs == [] {
      NoParts(parts, window);
    } else {
      assert parts != [];
      var before := Unjoin(parts, xs, window);
      ClusteringUnique(before, xs[..|xs| - 1], window);
    }
  }

  // How many gaps wider than the window lie before position i.
  ghost function GapsBefore(xs: seq<TelemetryEvent>, i: nat, window: int): nat
    requires i < |xs|
  {
    if i == 0 then 0
    else GapsBefore(xs, i - 1, window) + if Near(xs[i - 1], xs[i], window) then 0 else 1
  }

  // The position of event i in the clustering: its cluster, and its place there.
  ghost predicate Placed(parts: seq<seq<TelemetryEvent>>, xs: seq<TelemetryEvent>, i: nat, k: nat)
    requires i < |xs|
  {
    k < |parts| && |Flatten(parts[..k])| <= i < |Flatten(parts[..k + 1])|
  }

  lemma {:induction false} ClusterCount(xs: seq<TelemetryEvent>, window: int)
    requires xs != []
    ensures |Clusters(xs, window)| == GapsBefore(xs, |xs| - 1, window) + 1
    ensures Last(Clusters(xs, window)) != [] && Last(Last(Clusters(xs, window))) == Last(xs)
  {
    var n := |xs| - 1;
    if n > 0 {
      ClusterCount(xs[..n], window);
      GapsPrefix(xs, n - 1, n, window);
    }
  }

  lemma JoinKeepsPlaces(parts: seq<seq<TelemetryEvent>>, xs: seq<TelemetryEvent>, e: TelemetryEvent, i: nat, k: nat,
                        window: int)
    requires i < |xs| && Placed(parts, xs, i, k)
    ensures Placed(Join1(parts, e, window), xs + [e], i, k)
  {
    var out := Join1(parts, e, window);
    assert out[..k] == parts[..k];
    assert out[..k + 1][..k] == out[..k] && parts[..k + 1][..k] == parts[..k];
    assert |out[k]| >= |parts[k]|;
  }

  lemma {:induction false} EventPlaced(xs: seq<TelemetryEvent>, i: nat, window: int)
    requires i < |xs|
    ensures Placed(Clusters(xs, window), xs, i, GapsBefore(xs, i, window))
  {
    var n := |xs| - 1;
    if i < n {
      EventPlaced(xs[..n], i, window);
      GapsPrefix(xs, i, n, window);
      JoinKeepsPlaces(Clusters(xs[..n], window), xs[..n], xs[n], i, GapsBefore(xs, i, window), window);
      assert xs == xs[..n] + [xs[n]];
    } else {
      ClusterCount(xs, window);
      ClustersIsClustering(xs, window);
      LastPlaced(Clusters(xs, window), xs);
    }
  }

  lemma LastPlaced(parts: seq<seq<TelemetryEvent>>, xs: seq<TelemetryEvent>)
    requires parts != [] && Last(parts) != [] && Flatten(parts) == xs
    ensures xs != [] && Placed(parts, xs, |xs| - 1, |parts| - 1)
  {
    assert parts[..|parts|] == parts;
  }

  lemma {:induction false} GapsPrefix(xs: seq<TelemetryEvent>, i: nat, n: nat, window: int)
    requires i < n <= |xs|
    ensures GapsBefore(xs[..n], i, window) == GapsBefore(xs, i, window)
  {
    if i > 0 {
      GapsPrefix(xs, i - 1, n, window);
    }
  }

  // Every consecutive gap from event i to event j is at most the window.
  ghost predicate NoGap(xs: seq<TelemetryEvent>, i: nat, j: nat, window: int)
    requires i <= j < |xs|
  {
    forall m :: i < m <= j ==> Near(xs[m - 1], xs[m], window)
  }

  lemma {:induction false} NoGapsBetween(xs: seq<TelemetryEvent>, i: nat, j: nat, window: int)
    requires i <= j < |xs|
    ensures GapsBefore(xs, i, window) <= GapsBefore(xs, j, window)
    ensures GapsBefore(xs, i, window) == GapsBefore(xs, j, window)
       <==> NoGap(xs, i, j, window)
  {
    if i < j {
      NoGapsBetween(xs, i, j - 1, window);
      assert NoGap(xs, i, j, window) <==> NoGap(xs, i, j - 1, window) && Near(xs[j - 1], xs[j], window);
    }
  }

  ghost predicate Together(parts: seq<seq<TelemetryEvent>>, xs: seq<TelemetryEvent>, i: nat, j: nat)
    requires i < |xs| && j < |xs|
  {
    exists k: nat :: Placed(parts, xs, i, k) && Placed(parts, xs, j, k)
  }

  // Two events share a cluster exactly when every consecutive gap between them is at most the window.
  lemma SharedCluster(xs: seq<TelemetryEvent>, i: nat, j: nat, window: int)
    requires i <= j < |xs|
    ensures Together(Clusters(xs, window), xs, i, j) <==> NoGap(xs, i, j, window)
  {
    var parts := Clusters(xs, window);
    var ki, kj := GapsBefore(xs, i, window), GapsBefore(xs, j, window);
    EventPlaced(xs, i, window);
    EventPlaced(xs, j, window);
    NoGapsBetween(xs, i, j, window);
    if Together(parts, xs, i, j) {
      var k: nat :| Placed(parts, xs, i, k) && Placed(parts, xs, j, k);
      PlacedOnce(parts, xs, i, k, ki);
      PlacedOnce(parts, xs, j, k, kj);
    }
  }

  lemma PlacedOnce(parts: seq<seq<TelemetryEvent>>, xs: seq<TelemetryEvent>, i: nat, k: nat, l: nat)
    requires i < |xs| && Placed(parts, xs, i, k) && Placed(parts, xs, i, l)
    ensures k == l
  {
    if k < l {
      FlattenGrows(parts, k + 1, l);
    } else if l < k {
      FlattenGrows(parts, l + 1, k);
    }
  }

  lemma {:induction false} FlattenGrows(parts: seq<seq<TelemetryEvent>>, k: nat, l: nat)
    requires k <= l <= |parts|
    ensures |Flatten(parts[..k])| <= |Flatten(parts[..l])|
  {
    if k < l {
      FlattenGrows(parts, k, l - 1);
      assert parts[..l][..l - 1] == parts[..l - 1];
    }
  }

  // The loop of the source; None is the error on a missing timestamp.
  lemma OneMoreEvent(xs: seq<TelemetryEvent>, i: nat, window: int)
    requires i < |xs|
    ensures Clusters(xs[..i + 1], window) == Join1(Clusters(xs[..i], window), xs[i], window)
    ensures forall e :: e in xs[..i + 1] <==> e in xs[..i] || e == xs[i]
  {
    assert xs[..i + 1][..i] == xs[..i];
  }

  // The event goes into the open cluster or closes it.
  lemma JoinOpen(clusters: seq<seq<TelemetryEvent>>, cur: seq<TelemetryEvent>, e: TelemetryEvent, window: int)
    ensures cur != [] ==>
              Join1(clusters + [cur], e, window)
                == if Near(Last(cur), e, window) then clusters + [cur + [e]] else clusters + [cur] + [[e]]
    ensures Join1([], e, window) == [] + [[] + [e]]
  {
    var parts := clusters + [cur];
    assert parts[..|parts| - 1] == clusters && Last(parts) == cur;
    assert [] + [e] == [e];
  }

  method ClusterByTime(sorted: seq<TelemetryEvent>, window: int) returns (r: Option<seq<seq<TelemetryEvent>>>)
    ensures r == if exists e :: e in sorted && e.occurredAt.None? then None else Some(Clusters(sorted, window))
  {
    var clusters: seq<seq<TelemetryEvent>>, cur: seq<TelemetryEvent>, prev := [], [], ZERO_TIME;
    for i := 0 to |sorted|
      invariant forall e :: e in sorted[..i] ==> e.occurredAt.Some?
      invariant i > 0 ==> Clusters(sorted[..i], window) == clusters + [cur]
      invariant i > 0 ==> cur != [] && Last(cur) == sorted[i - 1] && prev == EventTime(sorted[i - 1])
      invariant i == 0 ==> cur == [] && clusters == []
    {
      OneMoreEvent(sorted, i, window);
      var e := sorted[i];
      if e.occurredAt.None? {
        return None;
      }
      var at := EventTime(e);
      JoinOpen(clusters, cur, e, window);
      if cur == [] || at - prev <= window {
        cur := cur + [e];
      } else {
        clusters := clusters + [cur];
        cur := [e];
      }
      prev := at;
    }
    assert sorted[..|sorted|] == sorted;
    if cur != [] {
      clusters := clusters + [cur];
    }
    return Some(clusters);
  }

  // ---------------------------------------------------------------------------
  // The two correlators
  // ---------------------------------------------------------------------------

  // Network to application observations by asset or correlation id; endpoint to server observations by host.
  datatype Linker = NetworkToApp | EndpointToServer {

    // The shared identifier of an event, empty when the correlator does not look at it.
    function Link(e: TelemetryEvent): string {
      match this
      case NetworkToApp =>
        if e.eventType != "net.connection" && e.eventType != "http.request" then "" else LinkageKey(e)
      case EndpointToServer =>
        if e.eventType == "endpoint.activity" then Attr(e.attributes, "endpoint.host")
        else if e.eventType == "server.activity" then Attr(e.attributes, "server.hostname")
        else ""
    }

    predicate IsFirst(e: TelemetryEvent) {
      e.eventType == if NetworkToApp? then "net.connection" else "endpoint.activity"
    }

    function Kind(): string {
      if NetworkToApp? then "network-to-application" else "endpoint-to-server"
    }

    function Asset(link: string, cluster: seq<TelemetryEvent>): string {
      if EndpointToServer? then link else if cluster == [] then "" else cluster[0].assetId
    }
  }

  function EventIds(es: seq<TelemetryEvent>): seq<string> {
    seq(|es|, i requires 0 <= i < |es| => es[i].id)
  }

  function Latest(es: seq<TelemetryEvent>): Time {
    if es == [] then ZERO_TIME else Max(Latest(es[..|es| - 1]), EventTime(es[|es| - 1]))
  }

  predicate Mixed(l: Linker, cluster: seq<TelemetryEvent>) {
    (exists e | e in cluster :: l.IsFirst(e)) && (exists e | e in cluster :: !l.IsFirst(e))
  }

  function CorrelationOf(l: Linker, link: string, cluster: seq<TelemetryEvent>): Correlation {
    Correlation(CorrelationId(l.Kind(), EventIds(cluster)), l.Kind(), SortStrings(EventIds(cluster)), "",
                l.Asset(link, cluster), Latest(cluster))
  }

  // The correlations of one group's clusters.
  function FromClusters(l: Linker, link: string, clusters: seq<seq<TelemetryEvent>>): seq<Correlation> {
    if clusters == [] then []
    else
      var earlier := FromClusters(l, link, clusters[..|clusters| - 1]);
      if Mixed(l, Last(clusters)) then earlier + [CorrelationOf(l, link, Last(clusters))] else earlier
  }

  function GroupOf(l: Linker, es: seq<TelemetryEvent>, link: string): seq<TelemetryEvent> {
    if es == [] then []
    else
      var earlier := GroupOf(l, es[..|es| - 1], link);
      if l.Link(Last(es)) == link then earlier + [Last(es)] else earlier
  }

  function FromLinks(l: Linker, es: seq<TelemetryEvent>, links: seq<string>, window: int): seq<Correlation> {
    if links == [] then []
    else
      FromLinks(l, es, links[..|links| - 1], window)
      + FromClusters(l, Last(links), Clusters(SortBy(GroupOf(l, es, Last(links)), TimeIdLe), window))
  }

  ghost function LinksIn(l: Linker, es: seq<TelemetryEvent>): set<string> {
    set e | e in es && l.Link(e) != "" :: l.Link(e)
  }

  // A linked event without a timestamp fails the whole correlation.
  ghost predicate Corrupt(l: Linker, es: seq<TelemetryEvent>) {
    exists e :: e in es && l.Link(e) != "" && e.occurredAt.None?
  }

  ghost function CorrelateSpec(l: Linker, es: seq<TelemetryEvent>, window: int): Option<seq<Correlation>> {
    if window <= 0 || Corrupt(l, es) then None else Some(FromLinks(l, es, SortedKeys(LinksIn(l, es)), window))
  }

  lemma OneMoreLink(l: Linker, es: seq<TelemetryEvent>, i: nat)
    requires i < |es|
    ensures LinksIn(l, es[..i + 1]) == LinksIn(l, es[..i]) + if l.Link(es[i]) != "" then {l.Link(es[i])} else {}
    ensures forall k :: k != "" ==>
              GroupOf(l, es[..i + 1], k)
                == if l.Link(es[i]) == k then GroupOf(l, es[..i], k) + [es[i]] else GroupOf(l, es[..i], k)
  {
    assert es[..i + 1][..i] == es[..i];
    assert forall e :: e in es[..i + 1] <==> e in es[..i] || e == es[i];
  }

  ghost predicate Grouped(l: Linker, es: seq<TelemetryEvent>, groups: map<string, seq<TelemetryEvent>>) {
    && groups.Keys == LinksIn(l, es)
    && (forall k :: k != "" ==> GroupOf(l, es, k) == Lookup(groups, k))
  }

  function Lookup(groups: map<string, seq<TelemetryEvent>>, k: string): seq<TelemetryEvent> {
    if k in groups then groups[k] else []
  }

  lemma GroupedMore(l: Linker, es: seq<TelemetryEvent>, i: nat, groups: map<string, seq<TelemetryEvent>>)
    requires i < |es| && Grouped(l, es[..i], groups)
    ensures var k := l.Link(es[i]);
            Grouped(l, es[..i + 1], if k == "" then groups else groups[k := Lookup(groups, k) + [es[i]]])
  {
    OneMoreLink(l, es, i);
    var k := l.Link(es[i]);
    if k != "" {
      LookupGrows(groups, k, es[i], j => GroupOf(l, es[..i], j), j => GroupOf(l, es[..i + 1], j));
    } else {
      assert LinksIn(l, es[..i]) + {} == LinksIn(l, es[..i]);
    }
  }

  lemma LookupGrows(groups: map<string, seq<TelemetryEvent>>, k: string, e: TelemetryEvent,
                    before: string -> seq<TelemetryEvent>, after: string -> seq<TelemetryEvent>)
    requires k != "" && forall j :: j != "" ==> before(j) == Lookup(groups, j)
    requires forall j :: j != "" ==> after(j) == if k == j then before(j) + [e] else before(j)
    ensures var groups' := groups[k := Lookup(groups, k) + [e]];
            groups'.Keys == groups.Keys + {k} && forall j :: j != "" ==> after(j) == Lookup(groups', j)
  {
  }

  method GroupByLink(l: Linker, es: seq<TelemetryEvent>) returns (groups: map<string, seq<TelemetryEvent>>)
    ensures groups.Keys == LinksIn(l, es)
    ensures forall k :: k in groups ==> groups[k] == GroupOf(l, es, k)
  {
    groups := map[];
    for i := 0 to |es|
      invariant Grouped(l, es[..i], groups)
    {
      GroupedMore(l, es, i, groups);
      var k := l.Link(es[i]);
      if k != "" {
        groups := groups[k := Lookup(groups, k) + [es[i]]];
      }
    }
    assert es[..|es|] == es;
  }

  method CorrelateCluster(l: Linker, link: string, cluster: seq<TelemetryEvent>)
    returns (r: Option<Correlation>)
    ensures r == if Mixed(l, cluster) then Some(CorrelationOf(l, link, cluster)) else None
  {
    var hasFirst, hasSecond, latest, ids := Scan(l, cluster);
    SideMeans(l, true, cluster);
    SideMeans(l, false, cluster);
    if !hasFirst || !hasSecond {
      return None;
    }
    return Some(Correlation(CorrelationId(l.Kind(), ids), l.Kind(), SortStrings(ids), "", l.Asset(link, cluster),
                            latest));
  }

  predicate HasSide(l: Linker, side: bool, xs: seq<TelemetryEvent>) {
    xs != [] && (HasSide(l, side, xs[..|xs| - 1]) || l.IsFirst(Last(xs)) == side)
  }

  lemma {:induction false} SideMeans(l: Linker, side: bool, xs: seq<TelemetryEvent>)
    ensures HasSide(l, side, xs) <==> exists e :: e in xs && l.IsFirst(e) == side
  {
    if xs != [] {
      SideMeans(l, side, xs[..|xs| - 1]);
      assert forall e :: e in xs <==> e in xs[..|xs| - 1] || e == Last(xs);
    }
  }

  // One pass over a cluster: which sides it has, its latest time and its ids.
  method Scan(l: Linker, cluster: seq<TelemetryEvent>)
    returns (hasFirst: bool, hasSecond: bool, latest: Time, ids: seq<string>)
    ensures hasFirst == HasSide(l, true, cluster) && hasSecond == HasSide(l, false, cluster)
    ensures ids == EventIds(cluster) && latest == Latest(cluster)
  {
    hasFirst, hasSecond, latest, ids := false, false, ZERO_TIME, [];
    for i := 0 to |cluster|
      invariant hasFirst == HasSide(l, true, cluster[..i]) && hasSecond == HasSide(l, false, cluster[..i])
      invariant ids == EventIds(cluster[..i]) && latest == Latest(cluster[..i])
    {
      assert cluster[..i + 1][..i] == cluster[..i];
      if l.IsFirst(cluster[i]) {
        hasFirst := true;
      } else {
        hasSecond := true;
      }
      ids := ids + [cluster[i].id];
      if EventTime(cluster[i]) > latest {
        latest := EventTime(cluster[i]);
      }
    }
    assert cluster[..|cluster|] == cluster;
  }

  ghost predicate CorruptGroup(group: seq<TelemetryEvent>) {
    exists e :: e in group && e.occurredAt.None?
  }

  lemma NextCluster(l: Linker, link: string, clusters: seq<seq<TelemetryEvent>>, i: nat)
    requires i < |clusters|
    ensures FromClusters(l, link, clusters[..i + 1])
         == if Mixed(l, clusters[i]) then FromClusters(l, link, clusters[..i]) + [CorrelationOf(l, link, clusters[i])]
            else FromClusters(l, link, clusters[..i])
  {
    assert clusters[..i + 1][..i] == clusters[..i];
  }

  method CorrelateClusters(l: Linker, link: string, clusters: seq<seq<TelemetryEvent>>) returns (out: seq<Correlation>)
    ensures out == FromClusters(l, link, clusters)
  {
    out := [];
    for i := 0 to |clusters|
      invariant out == FromClusters(l, link, clusters[..i])
    {
      NextCluster(l, link, clusters, i);
      var one := CorrelateCluster(l, link, clusters[i]);
      if one.Some? {
        out := out + [one.value];
      }
    }
    assert clusters[..|clusters|] == clusters;
  }

  method CorrelateGroup(l: Linker, link: string, group: seq<TelemetryEvent>, window: int)
    returns (r: Option<seq<Correlation>>)
    ensures r == if CorruptGroup(group) then None
                 else Some(FromClusters(l, link, Clusters(SortBy(group, TimeIdLe), window)))
  {
    SortedMembers(group);
    var clusters := ClusterByTime(SortBy(group, TimeIdLe), window);
    if clusters.None? {
      return None;
    }
    var out := CorrelateClusters(l, link, clusters.value);
    return Some(out);
  }

  lemma SortedMembers(group: seq<TelemetryEvent>)
    ensures forall e :: e in SortBy(group, TimeIdLe) <==> e in group
    ensures multiset(SortBy(group, TimeIdLe)) == multiset(group)
  {
    TimeIdLeIsOrder();
    SortBySorts(group, TimeIdLe);
    MembersOfPermutation(SortBy(group, TimeIdLe), group);
  }

  lemma {:induction false} GroupMembers(l: Linker, es: seq<TelemetryEvent>, link: string)
    ensures forall e :: e in GroupOf(l, es, link) <==> e in es && l.Link(e) == link
  {
    if es != [] {
      GroupMembers(l, es[..|es| - 1], link);
      assert es == es[..|es| - 1] + [Last(es)];
    }
  }

  ghost predicate SomeCorrupt(l: Linker, es: seq<TelemetryEvent>, links: seq<string>) {
    exists k :: k in links && CorruptGroup(GroupOf(l, es, k))
  }

  lemma CorruptLink(l: Linker, es: seq<TelemetryEvent>, k: string)
    ensures CorruptGroup(GroupOf(l, es, k)) <==> exists e :: e in es && l.Link(e) == k && e.occurredAt.None?
  {
    GroupMembers(l, es, k);
    if CorruptGroup(GroupOf(l, es, k)) {
      var e :| e in GroupOf(l, es, k) && e.occurredAt.None?;
      assert e in es && l.Link(e) == k;
    }
  }

  lemma CorruptSomewhere(l: Linker, es: seq<TelemetryEvent>)
    ensures Corrupt(l, es) <==> SomeCorrupt(l, es, SortedKeys(LinksIn(l, es)))
  {
    SortedKeysMembers(LinksIn(l, es));
    if Corrupt(l, es) {
      var e :| e in es && l.Link(e) != "" && e.occurredAt.None?;
      CorruptLink(l, es, l.Link(e));
      assert l.Link(e) in SortedKeys(LinksIn(l, es));
    }
    if SomeCorrupt(l, es, SortedKeys(LinksIn(l, es))) {
      var k :| k in SortedKeys(LinksIn(l, es)) && CorruptGroup(GroupOf(l, es, k));
      CorruptLink(l, es, k);
    }
  }

  lemma NextLink(l: Linker, es: seq<TelemetryEvent>, links: seq<string>, i: nat, window: int)
    requires i < |links|
    ensures SomeCorrupt(l, es, links[..i + 1])
       <==> SomeCorrupt(l, es, links[..i]) || CorruptGroup(GroupOf(l, es, links[i]))
    ensures FromLinks(l, es, links[..i + 1], window)
         == FromLinks(l, es, links[..i], window)
            + FromClusters(l, links[i], Clusters(SortBy(GroupOf(l, es, links[i]), TimeIdLe), window))
  {
    assert links[..i + 1][..i] == links[..i];
    assert links[..i + 1] == links[..i] + [links[i]];
    assert forall k :: k in links[..i + 1] <==> k in links[..i] || k == links[i];
  }

  lemma CorruptIn(l: Linker, es: seq<TelemetryEvent>, links: seq<string>, i: nat)
    requires i < |links| && CorruptGroup(GroupOf(l, es, links[i]))
    ensures SomeCorrupt(l, es, links)
  {
    assert links[i] in links;
  }

  method CorrelateLinks(l: Linker, es: seq<TelemetryEvent>, groups: map<string, seq<TelemetryEvent>>,
                        links: seq<string>, window: int) returns (r: Option<seq<Correlation>>)
    requires forall k :: k in links ==> k in groups && groups[k] == GroupOf(l, es, k)
    ensures r == if SomeCorrupt(l, es, links) then None else Some(FromLinks(l, es, links, window))
  {
    var out := [];
    for i := 0 to |links|
      invariant out == FromLinks(l, es, links[..i], window)
      invariant !SomeCorrupt(l, es, links[..i])
    {
      NextLink(l, es, links, i, window);
      assert links[i] in links;
      var group := CorrelateGroup(l, links[i], groups[links[i]], window);
      if group.None? {
        CorruptIn(l, es, links, i);
        return None;
      }
      out := out + group.value;
    }
    assert links[..|links|] == links;
    return Some(out);
  }

  method Correlate(l: Linker, es: seq<TelemetryEvent>, window: int) returns (r: Option<seq<Correlation>>)
    ensures r == CorrelateSpec(l, es, window)
  {
    if window <= 0 {
      return None;
    }
    var groups := GroupByLink(l, es);
    var links := SortKeys(groups.Keys);
    CorruptSomewhere(l, es);
    SortedKeysMembers(groups.Keys);
    r := CorrelateLinks(l, es, groups, links, window);
  }

  // ---------------------------------------------------------------------------
  // Order of the input, and double counting
  // ---------------------------------------------------------------------------

  lemma {:induction false} GroupMultiset(l: Linker, es: seq<TelemetryEvent>, link: string, e: TelemetryEvent)
    ensures multiset(GroupOf(l, es, link))[e] == if l.Link(e) == link then multiset(es)[e] else 0
  {
    if es != [] {
      GroupMultiset(l, es[..|es| - 1], link, e);
      assert es == es[..|es| - 1] + [Last(es)];
    }
  }

  lemma GroupPermuted(l: Linker, a: seq<TelemetryEvent>, b: seq<TelemetryEvent>, link: string)
    requires multiset(a) == multiset(b) && SameIdSameEvent(a)
    ensures SortBy(GroupOf(l, a, link), TimeIdLe) == SortBy(GroupOf(l, b, link), TimeIdLe)
  {
    forall e ensures multiset(GroupOf(l, a, link))[e] == multiset(GroupOf(l, b, link))[e] {
      GroupMultiset(l, a, link, e);
      GroupMultiset(l, b, link, e);
    }
    assert multiset(GroupOf(l, a, link)) == multiset(GroupOf(l, b, link));
    GroupMembers(l, a, link);
    TimeIdLeIsOrder();
    SortByPermuted(GroupOf(l, a, link), GroupOf(l, b, link), TimeIdLe);
  }

  ghost predicate SameIdSameEvent(es: seq<TelemetryEvent>) {
    forall x, y :: x in es && y in es && x.id == y.id ==> x == y
  }

  lemma {:induction false} LinksPermuted(l: Linker, a: seq<TelemetryEvent>, b: seq<TelemetryEvent>,
                                         links: seq<string>, window: int)
    requires multiset(a) == multiset(b) && SameIdSameEvent(a)
    ensures FromLinks(l, a, links, window) == FromLinks(l, b, links, window)
  {
    if links != [] {
      LinksPermuted(l, a, b, links[..|links| - 1], window);
      GroupPermuted(l, a, b, Last(links));
    }
  }

  // The correlations of a set of events do not depend on the order the events are supplied in.
  lemma CorrelatePermuted(l: Linker, a: seq<TelemetryEvent>, b: seq<TelemetryEvent>, window: int)
    requires multiset(a) == multiset(b) && SameIdSameEvent(a)
    ensures CorrelateSpec(l, a, window) == CorrelateSpec(l, b, window)
  {
    MembersOfPermutation(a, b);
    assert LinksIn(l, a) == LinksIn(l, b);
    LinksPermuted(l, a, b, SortedKeys(LinksIn(l, a)), window);
  }

  // How often an event id occurs in events, in correlations, and in the groups of some links.
  function Occurs(es: seq<TelemetryEvent>, id: string): nat {
    if es == [] then 0 else Occurs(es[..|es| - 1], id) + if Last(es).id == id then 1 else 0
  }

  function Cited(cs: seq<Correlation>, id: string): nat {
    if cs == [] then 0 else Cited(cs[..|cs| - 1], id) + multiset(Last(cs).eventIds)[id]
  }

  function OccursInGroups(l: Linker, es: seq<TelemetryEvent>, links: seq<string>, id: string): nat {
    if links == [] then 0
    else OccursInGroups(l, es, links[..|links| - 1], id) + Occurs(GroupOf(l, es, Last(links)), id)
  }

  lemma {:induction false} OccursAppend(a: seq<TelemetryEvent>, b: seq<TelemetryEvent>, id: string)
    ensures Occurs(a + b, id) == Occurs(a, id) + Occurs(b, id)
  {
    if b != [] {
      assert (a + b)[..|a + b| - 1] == a + b[..|b| - 1];
      OccursAppend(a, b[..|b| - 1], id);
    } else {
      assert a + b == a;
    }
  }

  lemma {:induction false} OccursIsMultiplicity(es: seq<TelemetryEvent>, id: string)
    ensures Occurs(es, id) == multiset(EventIds(es))[id]
  {
    if es != [] {
      OccursIsMultiplicity(es[..|es| - 1], id);
      assert EventIds(es) == EventIds(es[..|es| - 1]) + [Last(es).id];
    }
  }

  lemma {:induction false} CitedAppend(a: seq<Correlation>, b: seq<Correlation>, id: string)
    ensures Cited(a + b, id) == Cited(a, id) + Cited(b, id)
  {
    if b != [] {
      assert (a + b)[..|a + b| - 1] == a + b[..|b| - 1];
      CitedAppend(a, b[..|b| - 1], id);
    } else {
      assert a + b == a;
    }
  }

  lemma CorrelationCites(l: Linker, link: string, cluster: seq<TelemetryEvent>, id: string)
    ensures multiset(CorrelationOf(l, link, cluster).eventIds)[id] == Occurs(cluster, id)
  {
    OccursIsMultiplicity(cluster, id);
    StrLeIsOrder();
    SortBySorts(EventIds(cluster), StrLe);
  }

  lemma {:induction false} ClustersCite(l: Linker, link: string, clusters: seq<seq<TelemetryEvent>>, id: string)
    ensures Cited(FromClusters(l, link, clusters), id) <= Occurs(Flatten(clusters), id)
  {
    if clusters != [] {
      var front := clusters[..|clusters| - 1];
      ClustersCite(l, link, front, id);
      OccursAppend(Flatten(front), Last(clusters), id);
      CorrelationCites(l, link, Last(clusters), id);
      CitedAppend(FromClusters(l, link, front), [CorrelationOf(l, link, Last(clusters))], id);
      CitedOne(CorrelationOf(l, link, Last(clusters)), id);
    }
  }

  lemma CitedOne(c: Correlation, id: string)
    ensures Cited([c], id) == multiset(c.eventIds)[id]
  {
    assert [c][..0] == [];
  }

  lemma {:induction false} OccursInsert(x: TelemetryEvent, xs: seq<TelemetryEvent>, id: string)
    ensures Occurs(Insert(x, xs, TimeIdLe), id) == Occurs([x], id) + Occurs(xs, id)
  {
    if xs == [] {
    } else if TimeIdLe(x, xs[0]) {
      OccursAppend([x], xs, id);
    } else {
      OccursInsert(x, xs[1..], id);
      OccursAppend([xs[0]], Insert(x, xs[1..], TimeIdLe), id);
      OccursAppend([xs[0]], xs[1..], id);
      assert xs == [xs[0]] + xs[1..];
    }
  }

  lemma {:induction false} OccursSorted(xs: seq<TelemetryEvent>, id: string)
    ensures Occurs(SortBy(xs, TimeIdLe), id) == Occurs(xs, id)
  {
    if xs != [] {
      OccursSorted(xs[1..], id);
      OccursInsert(xs[0], SortBy(xs[1..], TimeIdLe), id);
      OccursAppend([xs[0]], xs[1..], id);
      assert xs == [xs[0]] + xs[1..];
    }
  }

  lemma {:induction false} LinksCite(l: Linker, es: seq<TelemetryEvent>, links: seq<string>, window: int, id: string)
    ensures Cited(FromLinks(l, es, links, window), id) <= OccursInGroups(l, es, links, id)
  {
    if links != [] {
      var front, group := links[..|links| - 1], GroupOf(l, es, Last(links));
      LinksCite(l, es, front, window, id);
      var sorted := SortBy(group, TimeIdLe);
      CitedAppend(FromLinks(l, es, front, window), FromClusters(l, Last(links), Clusters(sorted, window)), id);
      ClustersCite(l, Last(links), Clusters(sorted, window), id);
      ClustersIsClustering(sorted, window);
      OccursSorted(group, id);
    }
  }

  // An event belongs to at most one group.
  lemma {:induction false} GroupsDisjoint(l: Linker, es: seq<TelemetryEvent>, links: seq<string>, id: string)
    requires forall i, j :: 0 <= i < j < |links| ==> links[i] != links[j]
    ensures OccursInGroups(l, es, links, id) <= Occurs(es, id)
  {
    if es == [] {
      NoGroups(l, links, id);
    } else {
      GroupsDisjoint(l, es[..|es| - 1], links, id);
      OneMore(l, es, links, id);
    }
  }

  lemma {:induction false} NoGroups(l: Linker, links: seq<string>, id: string)
    ensures OccursInGroups(l, [], links, id) == 0
  {
    if links != [] {
      NoGroups(l, links[..|links| - 1], id);
    }
  }

  lemma {:induction false} OneMore(l: Linker, es: seq<TelemetryEvent>, links: seq<string>, id: string)
    requires es != []
    requires forall i, j :: 0 <= i < j < |links| ==> links[i] != links[j]
    ensures OccursInGroups(l, es, links, id)
         == OccursInGroups(l, es[..|es| - 1], links, id)
            + if l.Link(Last(es)) in links && Last(es).id == id then 1 else 0
  {
    if links != [] {
      var front, k := links[..|links| - 1], Last(links);
      OneMore(l, es, front, id);
      assert links == front + [k];
      if l.Link(Last(es)) == k {
        assert k !in front;
        OccursAppend(GroupOf(l, es[..|es| - 1], k), [Last(es)], id);
        assert Occurs([Last(es)], id) == if Last(es).id == id then 1 else 0 by {
          assert [Last(es)][..0] == [];
        }
      }
    }
  }

  // No event is cited more often than it occurs: with unique ids, each event is in at most one correlation.
  lemma CitedAtMostOnce(l: Linker, es: seq<TelemetryEvent>, window: int, id: string)
    requires CorrelateSpec(l, es, window).Some?
    ensures Cited(CorrelateSpec(l, es, window).value, id) <= Occurs(es, id)
  {
    var links := SortedKeys(LinksIn(l, es));
    LinksCite(l, es, links, window, id);
    DistinctKeys(LinksIn(l, es));
    GroupsDisjoint(l, es, links, id);
  }
}
