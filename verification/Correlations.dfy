/** What the two correlators report, told in event types, identifiers and times: the connected groups of events that hold
    both kinds, each once and whole. */
module Correlations {
  import opened Base
  import opened Contract
  import opened FailureThenChange
  import opened Clustering

  // ---------------------------------------------------------------------------
  // Kinds, identifiers, neighbours
  // ---------------------------------------------------------------------------

  // The two kinds of events a correlator brings together.
  predicate OfKind(l: Linker, e: TelemetryEvent, first: bool) {
    match l
    case NetworkToApp => e.eventType == if first then "net.connection" else "http.request"
    case EndpointToServer => e.eventType == if first then "endpoint.activity" else "server.activity"
  }

  function HostIn(e: TelemetryEvent): string {
    Attr(e.attributes, if e.eventType == "endpoint.activity" then "endpoint.host" else "server.hostname")
  }

  // The event is of one of the kinds and says what it is about.
  predicate Identified(l: Linker, e: TelemetryEvent) {
    && (OfKind(l, e, true) || OfKind(l, e, false))
    && if l.NetworkToApp? then HasSubject(e) else HostIn(e) != ""
  }

  // Two events are about the same: the same asset or correlation id, or the same host.
  predicate Shares(l: Linker, a: TelemetryEvent, b: TelemetryEvent) {
    Identified(l, a) && Identified(l, b) && if l.NetworkToApp? then SameSubject(a, b) else HostIn(a) == HostIn(b)
  }

  lemma LinkMeans(l: Linker, a: TelemetryEvent, b: TelemetryEvent)
    ensures l.Link(a) != "" <==> Identified(l, a)
    ensures Shares(l, a, b) <==> l.Link(a) == l.Link(b) != ""
  {
    SubjectMeans(a, b);
    SubjectMeans(b, a);
  }

  // About the same, and at most a window apart.
  predicate Adjoins(l: Linker, window: int, a: TelemetryEvent, b: TelemetryEvent) {
    Shares(l, a, b) && -window <= EventTime(b) - EventTime(a) <= window
  }

  // A chain of events, each about the same as the one before and at most a window apart.
  ghost predicate IsPath(l: Linker, es: seq<TelemetryEvent>, window: int, p: seq<TelemetryEvent>) {
    && p != [] && (forall x :: x in p ==> x in es && Identified(l, x))
    && forall i :: 0 < i < |p| ==> Adjoins(l, window, p[i - 1], p[i])
  }

  ghost predicate Connected(l: Linker, es: seq<TelemetryEvent>, window: int, a: TelemetryEvent, b: TelemetryEvent) {
    exists p :: IsPath(l, es, window, p) && p[0] == a && p[|p| - 1] == b
  }

  // ---------------------------------------------------------------------------
  // What is reported
  // ---------------------------------------------------------------------------

  // All events connected to one of them, each as often as it was supplied.
  ghost predicate Component(l: Linker, es: seq<TelemetryEvent>, window: int, part: seq<TelemetryEvent>) {
    && part != []
    && (forall x :: x in part <==> Connected(l, es, window, part[0], x))
    && (forall x :: x in part ==> multiset(part)[x] == multiset(es)[x])
  }

  ghost predicate BothKinds(l: Linker, part: seq<TelemetryEvent>) {
    (exists e :: e in part && OfKind(l, e, true)) && exists e :: e in part && OfKind(l, e, false)
  }

  function KindName(l: Linker): string {
    if l.NetworkToApp? then "network-to-application" else "endpoint-to-server"
  }

  // The correlation cites exactly these events, names what they are about, and carries the latest of their times.
  ghost predicate Reports(l: Linker, c: Correlation, part: seq<TelemetryEvent>) {
    && c.kind == KindName(l) && c.id == CorrelationId(c.kind, EventIds(part)) && c.principal == ""
    && c.eventIds == SortStrings(EventIds(part))
    && (forall e :: e in part ==> c.assetId == if l.NetworkToApp? then e.assetId else HostIn(e))
    && (forall e :: e in part ==> EventTime(e) <= c.observedAt)
    && (c.observedAt == ZERO_TIME || exists e :: e in part && EventTime(e) == c.observedAt)
  }

  ghost predicate Apart(parts: seq<seq<TelemetryEvent>>) {
    forall i, j, x :: 0 <= i < j < |parts| && x in parts[i] ==> x !in parts[j]
  }

  // ---------------------------------------------------------------------------
  // One group of events about the same
  // ---------------------------------------------------------------------------

  lemma {:induction false} FlattenMember(parts: seq<seq<TelemetryEvent>>, x: TelemetryEvent)
    ensures x in Flatten(parts) <==> exists n :: 0 <= n < |parts| && x in parts[n]
  {
    if parts != [] {
      var front, n := parts[..|parts| - 1], |parts| - 1;
      FlattenMember(front, x);
      if k :| 0 <= k < |parts| && x in parts[k] {
        assert k < n ==> x in front[k];
      }
      if x in Flatten(front) {
        var k :| 0 <= k < |front| && x in front[k];
        assert x in parts[k];
      }
    }
  }

  // Events of different clusters are more than a window apart.
  ghost predicate FarApart(parts: seq<seq<TelemetryEvent>>, window: int) {
    forall i, j, x, y :: 0 <= i < j < |parts| && x in parts[i] && y in parts[j] ==> EventTime(y) - EventTime(x) > window
  }

  lemma LastIsFar(front: seq<seq<TelemetryEvent>>, part: seq<TelemetryEvent>, window: int, x: TelemetryEvent,
                  y: TelemetryEvent)
    requires Gapped(front + [part], window) && TimeOrdered(Flatten(front) + part) && x in Flatten(front) && y in part
    ensures EventTime(y) - EventTime(x) > window
  {
    var before, parts := Flatten(front), front + [part];
    var all, n := before + part, |front| - 1;
    assert parts[n + 1] == part && parts[n] == front[n] != [];
    assert before[|before| - 1] == Last(front[n]);
    var i :| 0 <= i < |before| && before[i] == x;
    var j :| 0 <= j < |part| && part[j] == y;
    assert all[i] == x && all[|before| - 1] == Last(front[n]) && all[|before|] == part[0] && all[|before| + j] == y;
    assert !Near(Last(parts[n]), parts[n + 1][0], window);
  }

  lemma {:induction false} ClustersFarApart(parts: seq<seq<TelemetryEvent>>, window: int)
    requires Gapped(parts, window) && TimeOrdered(Flatten(parts))
    ensures FarApart(parts, window)
  {
    if parts != [] {
      var front, part := parts[..|parts| - 1], parts[|parts| - 1];
      assert parts == front + [part];
      GappedSnoc(front, part, window);
      TimedFront(Flatten(front), part);
      ClustersFarApart(front, window);
      forall x, y | x in Flatten(front) && y in part ensures EventTime(y) - EventTime(x) > window {
        LastIsFar(front, part, window, x, y);
      }
      FarApartSnoc(front, part, window);
    }
  }

  lemma TimedFront(a: seq<TelemetryEvent>, b: seq<TelemetryEvent>)
    requires TimeOrdered(a + b)
    ensures TimeOrdered(a)
  {
    assert forall i :: 0 <= i < |a| ==> (a + b)[i] == a[i];
  }

  lemma FarApartSnoc(front: seq<seq<TelemetryEvent>>, part: seq<TelemetryEvent>, window: int)
    requires FarApart(front, window)
    requires forall x, y :: x in Flatten(front) && y in part ==> EventTime(y) - EventTime(x) > window
    ensures FarApart(front + [part], window)
  {
    var parts := front + [part];
    forall i, j, x, y | 0 <= i < j < |parts| && x in parts[i] && y in parts[j]
      ensures EventTime(y) - EventTime(x) > window
    {
      assert parts[i] == front[i];
      if j == |front| {
        FlattenMember(front, x);
      } else {
        assert parts[j] == front[j];
      }
    }
  }

  // The events of one identifier: all of es that have it, in time order, in clusters.
  ghost predicate GroupParts(l: Linker, es: seq<TelemetryEvent>, k: string, window: int, parts: seq<seq<TelemetryEvent>>)
  {
    && k != "" && window > 0 && IsClustering(parts, SortBy(GroupOf(l, es, k), TimeIdLe), window)
    && TimeOrdered(Flatten(parts)) && FarApart(parts, window)
    && (forall x :: x in Flatten(parts) <==> x in es && l.Link(x) == k)
    && (forall x :: l.Link(x) == k ==> multiset(Flatten(parts))[x] == multiset(es)[x])
  }

  lemma SortedGroup(l: Linker, es: seq<TelemetryEvent>, k: string)
    ensures var sorted := SortBy(GroupOf(l, es, k), TimeIdLe);
            && TimeOrdered(sorted)
            && (forall x :: x in sorted <==> x in es && l.Link(x) == k)
            && (forall x :: l.Link(x) == k ==> multiset(sorted)[x] == multiset(es)[x])
  {
    var group := GroupOf(l, es, k);
    var sorted := SortBy(group, TimeIdLe);
    TimeIdLeIsOrder();
    SortBySorts(group, TimeIdLe);
    SortedMembers(group);
    GroupMembers(l, es, k);
    forall i, j | 0 <= i <= j < |sorted| ensures EventTime(sorted[i]) <= EventTime(sorted[j]) {
      assert i < j ==> TimeIdLe(sorted[i], sorted[j]);
    }
    forall x | l.Link(x) == k ensures multiset(sorted)[x] == multiset(es)[x] {
      GroupMultiset(l, es, k, x);
    }
  }

  lemma GroupClusters(l: Linker, es: seq<TelemetryEvent>, k: string, window: int)
    requires k != "" && window > 0
    ensures GroupParts(l, es, k, window, Clusters(SortBy(GroupOf(l, es, k), TimeIdLe), window))
  {
    var sorted := SortBy(GroupOf(l, es, k), TimeIdLe);
    SortedGroup(l, es, k);
    ClustersIsClustering(sorted, window);
    ClustersFarApart(Clusters(sorted, window), window);
  }

  // ---------------------------------------------------------------------------
  // A cluster is a component
  // ---------------------------------------------------------------------------

  lemma ReversePath(l: Linker, es: seq<TelemetryEvent>, window: int, a: TelemetryEvent, b: TelemetryEvent)
    requires Connected(l, es, window, a, b)
    ensures Connected(l, es, window, b, a)
  {
    var p :| IsPath(l, es, window, p) && p[0] == a && p[|p| - 1] == b;
    var q := seq(|p|, i requires 0 <= i < |p| => p[|p| - 1 - i]);
    forall x | x in q ensures x in es && Identified(l, x) {
      var i :| 0 <= i < |q| && q[i] == x;
      assert p[|p| - 1 - i] in p;
    }
    forall i | 0 < i < |q| ensures Adjoins(l, window, q[i - 1], q[i]) {
      assert Adjoins(l, window, p[|p| - 1 - i], p[|p| - i]);
    }
    assert IsPath(l, es, window, q);
  }

  // Events about the same, in time order and without gaps.
  ghost predicate Steady(l: Linker, es: seq<TelemetryEvent>, k: string, window: int, part: seq<TelemetryEvent>) {
    && k != "" && TimeOrdered(part) && Gapless(part, window)
    && forall x :: x in part ==> x in es && l.Link(x) == k
  }

  lemma NextAdjoins(l: Linker, es: seq<TelemetryEvent>, k: string, window: int, part: seq<TelemetryEvent>, i: nat)
    requires Steady(l, es, k, window, part) && 0 < i < |part|
    ensures Adjoins(l, window, part[i - 1], part[i]) && Identified(l, part[i - 1]) && Identified(l, part[i])
  {
    var a, b := part[i - 1], part[i];
    assert a in part && b in part;
    LinkMeans(l, a, b);
    assert Near(a, b, window);
  }

  // A stretch of them is a path.
  lemma StretchIsPath(l: Linker, es: seq<TelemetryEvent>, k: string, window: int, part: seq<TelemetryEvent>, j: nat)
    requires Steady(l, es, k, window, part) && j < |part|
    ensures Connected(l, es, window, part[0], part[j])
  {
    var p := part[..j + 1];
    forall x | x in p ensures x in es && Identified(l, x) {
      assert x in part;
      LinkMeans(l, x, x);
    }
    forall m | 0 < m < |p| ensures Adjoins(l, window, p[m - 1], p[m]) {
      NextAdjoins(l, es, k, window, part, m);
    }
    assert IsPath(l, es, window, p);
  }

  lemma {:induction false} PartTimed(parts: seq<seq<TelemetryEvent>>, n: nat)
    requires n < |parts| && TimeOrdered(Flatten(parts))
    ensures TimeOrdered(parts[n])
  {
    var front, last := parts[..|parts| - 1], parts[|parts| - 1];
    assert Flatten(parts) == Flatten(front) + last;
    if n == |front| {
      forall i, j | 0 <= i <= j < |last| ensures EventTime(last[i]) <= EventTime(last[j]) {
        assert Flatten(parts)[|Flatten(front)| + i] == last[i] && Flatten(parts)[|Flatten(front)| + j] == last[j];
      }
    } else {
      TimedFront(Flatten(front), last);
      PartTimed(front, n);
    }
  }

  lemma ClusterConnects(l: Linker, es: seq<TelemetryEvent>, k: string, window: int, parts: seq<seq<TelemetryEvent>>,
                        n: nat, x: TelemetryEvent)
    requires GroupParts(l, es, k, window, parts) && n < |parts| && x in parts[n]
    ensures Connected(l, es, window, parts[n][0], x)
  {
    var i :| 0 <= i < |parts[n]| && parts[n][i] == x;
    PartTimed(parts, n);
    PartLinks(l, es, k, window, parts, n);
    StretchIsPath(l, es, k, window, parts[n], i);
  }

  // One step along a path does not leave the cluster.
  lemma NeighbourStays(l: Linker, es: seq<TelemetryEvent>, k: string, window: int, parts: seq<seq<TelemetryEvent>>,
                       n: nat, x: TelemetryEvent, y: TelemetryEvent)
    requires GroupParts(l, es, k, window, parts) && n < |parts| && x in parts[n]
    requires y in es && Adjoins(l, window, x, y)
    ensures y in parts[n]
  {
    LinkMeans(l, x, y);
    FlattenMember(parts, x);
    FlattenMember(parts, y);
    var m :| 0 <= m < |parts| && y in parts[m];
    assert !(m < n) && !(n < m);
  }

  lemma {:induction false} PathStays(l: Linker, es: seq<TelemetryEvent>, k: string, window: int,
                                     parts: seq<seq<TelemetryEvent>>, n: nat, p: seq<TelemetryEvent>, i: nat)
    requires GroupParts(l, es, k, window, parts) && n < |parts|
    requires IsPath(l, es, window, p) && p[0] in parts[n] && i < |p|
    ensures p[i] in parts[n]
    decreases i
  {
    if i > 0 {
      PathStays(l, es, k, window, parts, n, p, i - 1);
      NeighbourStays(l, es, k, window, parts, n, p[i - 1], p[i]);
    }
  }

  lemma {:induction false} FlattenCount(parts: seq<seq<TelemetryEvent>>, n: nat, x: TelemetryEvent)
    requires n < |parts| && forall m :: 0 <= m < |parts| && m != n ==> x !in parts[m]
    ensures multiset(Flatten(parts))[x] == multiset(parts[n])[x]
  {
    var front, last := parts[..|parts| - 1], parts[|parts| - 1];
    assert Flatten(parts) == Flatten(front) + last;
    if n < |front| {
      FlattenCount(front, n, x);
      assert x !in last;
    } else {
      FlattenMember(front, x);
      assert x !in Flatten(front);
    }
  }

  lemma ClusterIsComponent(l: Linker, es: seq<TelemetryEvent>, k: string, window: int, parts: seq<seq<TelemetryEvent>>,
                           n: nat)
    requires GroupParts(l, es, k, window, parts) && n < |parts|
    ensures Component(l, es, window, parts[n])
  {
    var part := parts[n];
    forall x ensures x in part <==> Connected(l, es, window, part[0], x) {
      if x in part {
        ClusterConnects(l, es, k, window, parts, n, x);
      }
      if Connected(l, es, window, part[0], x) {
        var p :| IsPath(l, es, window, p) && p[0] == part[0] && p[|p| - 1] == x;
        PathStays(l, es, k, window, parts, n, p, |p| - 1);
      }
    }
    forall x | x in part ensures multiset(part)[x] == multiset(es)[x] {
      FlattenMember(parts, x);
      FarApartOnce(parts, window, n, x);
      FlattenCount(parts, n, x);
    }
  }

  lemma FarPair(parts: seq<seq<TelemetryEvent>>, window: int, i: nat, j: nat, x: TelemetryEvent, y: TelemetryEvent)
    requires FarApart(parts, window) && i < j < |parts| && x in parts[i] && y in parts[j]
    ensures EventTime(y) - EventTime(x) > window
  {
  }

  lemma FarApartOnce(parts: seq<seq<TelemetryEvent>>, window: int, n: nat, x: TelemetryEvent)
    requires FarApart(parts, window) && window > 0 && n < |parts| && x in parts[n]
    ensures forall m :: 0 <= m < |parts| && m != n ==> x !in parts[m]
  {
    forall m | 0 <= m < |parts| && m != n ensures x !in parts[m] {
      if x in parts[m] {
        FarPair(parts, window, if m < n then m else n, if m < n then n else m, x, x);
      }
    }
  }

  // ---------------------------------------------------------------------------
  // The reported clusters
  // ---------------------------------------------------------------------------

  // The clusters of both kinds, in order.
  ghost function MixedOf(l: Linker, clusters: seq<seq<TelemetryEvent>>): seq<seq<TelemetryEvent>> {
    if clusters == [] then []
    else
      var earlier := MixedOf(l, clusters[..|clusters| - 1]);
      if Mixed(l, Last(clusters)) then earlier + [Last(clusters)] else earlier
  }

  lemma {:induction false} MixedMembers(l: Linker, clusters: seq<seq<TelemetryEvent>>)
    ensures forall part :: part in MixedOf(l, clusters) <==> part in clusters && Mixed(l, part)
  {
    if clusters != [] {
      MixedMembers(l, clusters[..|clusters| - 1]);
      assert clusters == clusters[..|clusters| - 1] + [Last(clusters)];
    }
  }

  lemma {:induction false} MixedApart(l: Linker, clusters: seq<seq<TelemetryEvent>>)
    requires Apart(clusters)
    ensures Apart(MixedOf(l, clusters))
  {
    if clusters != [] {
      var front, last := clusters[..|clusters| - 1], Last(clusters);
      MixedApart(l, front);
      MixedMembers(l, front);
      ApartSnoc(MixedOf(l, front), front, last);
    }
  }

  lemma ApartSnoc(mixed: seq<seq<TelemetryEvent>>, front: seq<seq<TelemetryEvent>>, last: seq<TelemetryEvent>)
    requires Apart(mixed) && Apart(front + [last]) && forall part :: part in mixed ==> part in front
    ensures Apart(mixed + [last])
  {
    var all, whole := mixed + [last], front + [last];
    forall i, j, x | 0 <= i < j < |all| && x in all[i] ensures x !in all[j] {
      assert x in mixed[i] && mixed[i] in mixed;
      if j == |mixed| {
        var m :| 0 <= m < |front| && front[m] == mixed[i];
        assert whole[m] == front[m] && x in whole[m];
        assert x !in whole[|front|] && whole[|front|] == last == all[j];
      } else {
        assert x !in mixed[j];
      }
    }
  }

  lemma {:induction false} FromClustersReports(l: Linker, k: string, clusters: seq<seq<TelemetryEvent>>)
    ensures var cs, mixed := FromClusters(l, k, clusters), MixedOf(l, clusters);
            |cs| == |mixed| && forall i :: 0 <= i < |cs| ==> cs[i] == Clustering.CorrelationOf(l, k, mixed[i])
  {
    if clusters != [] {
      FromClustersReports(l, k, clusters[..|clusters| - 1]);
    }
  }

  lemma {:induction false} LatestMeans(es: seq<TelemetryEvent>)
    ensures forall e :: e in es ==> EventTime(e) <= Latest(es)
    ensures Latest(es) == ZERO_TIME || exists e :: e in es && EventTime(e) == Latest(es)
  {
    if es != [] {
      var front, last := es[..|es| - 1], es[|es| - 1];
      LatestMeans(front);
      assert last in es && forall e :: e in es <==> e in front || e == last;
    }
  }

  lemma CorrelationReports(l: Linker, k: string, part: seq<TelemetryEvent>)
    requires k != "" && part != [] && forall e :: e in part ==> l.Link(e) == k
    ensures Reports(l, Clustering.CorrelationOf(l, k, part), part)
  {
    LatestMeans(part);
    forall e | e in part
      ensures Clustering.CorrelationOf(l, k, part).assetId == if l.NetworkToApp? then e.assetId else HostIn(e)
    {
      assert part[0] in part;
      LinkMeans(l, part[0], e);
    }
  }

  lemma MixedIsBothKinds(l: Linker, k: string, part: seq<TelemetryEvent>)
    requires k != "" && forall e :: e in part ==> l.Link(e) == k
    ensures Mixed(l, part) <==> BothKinds(l, part)
  {
    forall e | e in part ensures OfKind(l, e, true) <==> l.IsFirst(e) {
    }
    forall e | e in part ensures OfKind(l, e, false) <==> !l.IsFirst(e) {
      LinkMeans(l, e, e);
    }
  }

  // What is reported for one identifier.
  ghost function PartsOf(l: Linker, es: seq<TelemetryEvent>, k: string, window: int): seq<seq<TelemetryEvent>> {
    MixedOf(l, Clusters(SortBy(GroupOf(l, es, k), TimeIdLe), window))
  }

  ghost predicate AllReported(l: Linker, es: seq<TelemetryEvent>, window: int, cs: seq<Correlation>,
                              parts: seq<seq<TelemetryEvent>>)
  {
    && |cs| == |parts| && Apart(parts)
    && forall i :: 0 <= i < |cs| ==> ReportedAt(l, es, window, cs[i], parts[i])
  }

  // A whole connected group that holds both kinds, and the correlation that tells of it.
  ghost predicate ReportedAt(l: Linker, es: seq<TelemetryEvent>, window: int, c: Correlation, part: seq<TelemetryEvent>)
  {
    Reports(l, c, part) && Component(l, es, window, part) && BothKinds(l, part)
  }

  lemma ClustersApart(parts: seq<seq<TelemetryEvent>>, window: int)
    requires FarApart(parts, window) && window > 0
    ensures Apart(parts)
  {
    forall i, j, x | 0 <= i < j < |parts| && x in parts[i] ensures x !in parts[j] {
      FarApartOnce(parts, window, i, x);
    }
  }

  lemma GroupReported(l: Linker, es: seq<TelemetryEvent>, k: string, window: int)
    requires k != "" && window > 0
    ensures AllReported(l, es, window, FromClusters(l, k, Clusters(SortBy(GroupOf(l, es, k), TimeIdLe), window)),
                        PartsOf(l, es, k, window))
    ensures forall part, x :: part in PartsOf(l, es, k, window) && x in part ==> l.Link(x) == k
  {
    var clusters := Clusters(SortBy(GroupOf(l, es, k), TimeIdLe), window);
    GroupClusters(l, es, k, window);
    ClustersApart(clusters, window);
    MixedApart(l, clusters);
    MixedMembers(l, clusters);
    FromClustersReports(l, k, clusters);
    var parts := PartsOf(l, es, k, window);
    forall i | 0 <= i < |parts|
      ensures ReportedAt(l, es, window, Clustering.CorrelationOf(l, k, parts[i]), parts[i])
      ensures forall x :: x in parts[i] ==> l.Link(x) == k
    {
      assert parts[i] in parts;
      var n :| 0 <= n < |clusters| && clusters[n] == parts[i];
      PartLinks(l, es, k, window, clusters, n);
      ClusterIsComponent(l, es, k, window, clusters, n);
      CorrelationReports(l, k, parts[i]);
      MixedIsBothKinds(l, k, parts[i]);
    }
  }

  lemma PartLinks(l: Linker, es: seq<TelemetryEvent>, k: string, window: int, parts: seq<seq<TelemetryEvent>>, n: nat)
    requires GroupParts(l, es, k, window, parts) && n < |parts|
    ensures forall x :: x in parts[n] ==> x in es && l.Link(x) == k
  {
    forall x | x in parts[n] ensures x in es && l.Link(x) == k {
      FlattenMember(parts, x);
    }
  }

  // Over several identifiers.
  ghost function PartsIn(l: Linker, es: seq<TelemetryEvent>, links: seq<string>, window: int): seq<seq<TelemetryEvent>> {
    if links == [] then [] else PartsIn(l, es, links[..|links| - 1], window) + PartsOf(l, es, Last(links), window)
  }

  lemma {:induction false} LinksReported(l: Linker, es: seq<TelemetryEvent>, links: seq<string>, window: int)
    requires window > 0 && forall i, j :: 0 <= i < j < |links| ==> links[i] != links[j]
    requires forall k :: k in links ==> k != ""
    ensures AllReported(l, es, window, FromLinks(l, es, links, window), PartsIn(l, es, links, window))
    ensures forall part, x :: part in PartsIn(l, es, links, window) && x in part ==> l.Link(x) in links
  {
    if links != [] {
      var front, k := links[..|links| - 1], Last(links);
      assert links == front + [k] && k in links;
      assert forall i :: 0 <= i < |front| ==> front[i] == links[i] && front[i] in links;
      LinksReported(l, es, front, window);
      GroupReported(l, es, k, window);
      assert k !in front;
      ApartConcat(PartsIn(l, es, front, window), PartsOf(l, es, k, window));
      ReportedTogether(l, es, window, FromLinks(l, es, front, window), PartsIn(l, es, front, window),
                       FromClusters(l, k, Clusters(SortBy(GroupOf(l, es, k), TimeIdLe), window)),
                       PartsOf(l, es, k, window));
    }
  }

  lemma ApartConcat(parts: seq<seq<TelemetryEvent>>, more: seq<seq<TelemetryEvent>>)
    requires Apart(parts) && Apart(more)
    requires forall p, q, x :: p in parts && q in more && x in p ==> x !in q
    ensures Apart(parts + more)
  {
    var all, n := parts + more, |parts|;
    forall i, j, x | 0 <= i < j < |all| && x in all[i] ensures x !in all[j] {
      if j < n {
        assert all[i] == parts[i] && all[j] == parts[j];
      } else if i < n {
        assert all[i] in parts && all[j] in more;
      } else {
        assert all[i] == more[i - n] && all[j] == more[j - n];
      }
    }
  }

  lemma ReportedTogether(l: Linker, es: seq<TelemetryEvent>, window: int, cs: seq<Correlation>,
                         parts: seq<seq<TelemetryEvent>>, ds: seq<Correlation>, more: seq<seq<TelemetryEvent>>)
    requires AllReported(l, es, window, cs, parts) && AllReported(l, es, window, ds, more)
    requires Apart(parts + more)
    ensures AllReported(l, es, window, cs + ds, parts + more)
  {
    forall i | 0 <= i < |cs + ds| ensures ReportedAt(l, es, window, (cs + ds)[i], (parts + more)[i]) {
      if i < |cs| {
        assert ReportedAt(l, es, window, cs[i], parts[i]);
      } else {
        assert ReportedAt(l, es, window, ds[i - |cs|], more[i - |cs|]);
      }
    }
  }

  lemma {:induction false} PartsMembers(l: Linker, es: seq<TelemetryEvent>, links: seq<string>, window: int, k: string,
                                        part: seq<TelemetryEvent>)
    requires k in links && part in PartsOf(l, es, k, window)
    ensures part in PartsIn(l, es, links, window)
  {
    if k != Last(links) {
      assert links == links[..|links| - 1] + [Last(links)];
      PartsMembers(l, es, links[..|links| - 1], window, k, part);
    }
  }

  // An event that is connected to events of both kinds.
  ghost predicate Bridges(l: Linker, es: seq<TelemetryEvent>, window: int, e: TelemetryEvent) {
    && (exists a :: Connected(l, es, window, e, a) && OfKind(l, a, true))
    && exists b :: Connected(l, es, window, e, b) && OfKind(l, b, false)
  }

  lemma BridgeIsMixed(l: Linker, es: seq<TelemetryEvent>, k: string, window: int, parts: seq<seq<TelemetryEvent>>,
                      n: nat, e: TelemetryEvent)
    requires GroupParts(l, es, k, window, parts) && n < |parts| && e in parts[n] && Bridges(l, es, window, e)
    ensures Mixed(l, parts[n])
  {
    PartLinks(l, es, k, window, parts, n);
    var a :| Connected(l, es, window, e, a) && OfKind(l, a, true);
    var b :| Connected(l, es, window, e, b) && OfKind(l, b, false);
    ConnectedStays(l, es, k, window, parts, n, e, a);
    ConnectedStays(l, es, k, window, parts, n, e, b);
    MixedIsBothKinds(l, k, parts[n]);
  }

  lemma BridgeReported(l: Linker, es: seq<TelemetryEvent>, window: int, e: TelemetryEvent)
    requires window > 0 && e in es && Identified(l, e) && Bridges(l, es, window, e)
    ensures exists part :: part in PartsOf(l, es, l.Link(e), window) && e in part
  {
    var k := l.Link(e);
    var clusters := Clusters(SortBy(GroupOf(l, es, k), TimeIdLe), window);
    LinkMeans(l, e, e);
    GroupClusters(l, es, k, window);
    FlattenMember(clusters, e);
    var n :| 0 <= n < |clusters| && e in clusters[n];
    BridgeIsMixed(l, es, k, window, clusters, n, e);
    MixedMembers(l, clusters);
    assert clusters[n] in clusters;
  }

  lemma ConnectedStays(l: Linker, es: seq<TelemetryEvent>, k: string, window: int, parts: seq<seq<TelemetryEvent>>,
                       n: nat, x: TelemetryEvent, y: TelemetryEvent)
    requires GroupParts(l, es, k, window, parts) && n < |parts| && x in parts[n] && Connected(l, es, window, x, y)
    ensures y in parts[n]
  {
    var p :| IsPath(l, es, window, p) && p[0] == x && p[|p| - 1] == y;
    PathStays(l, es, k, window, parts, n, p, |p| - 1);
  }

  /** What a correlator reports. It fails exactly on a window that is not positive or an identified event without a time. Else
      each correlation is told by a whole connected group of events about the same that holds both kinds, no event is in two
      of them, and every event connected to both kinds is in one. */
  lemma CorrelateMeans(l: Linker, es: seq<TelemetryEvent>, window: int) returns (parts: seq<seq<TelemetryEvent>>)
    ensures CorrelateSpec(l, es, window).None?
       <==> window <= 0 || exists e :: e in es && Identified(l, e) && e.occurredAt.None?
    ensures CorrelateSpec(l, es, window).Some? ==>
              && AllReported(l, es, window, CorrelateSpec(l, es, window).value, parts)
              && forall e :: e in es && Identified(l, e) && Bridges(l, es, window, e) ==>
                   exists i :: 0 <= i < |parts| && e in parts[i]
  {
    forall e ensures l.Link(e) != "" <==> Identified(l, e) {
      LinkMeans(l, e, e);
    }
    var links := SortedKeys(LinksIn(l, es));
    parts := PartsIn(l, es, links, window);
    if window > 0 {
      SortedKeysMembers(LinksIn(l, es));
      DistinctKeys(LinksIn(l, es));
      LinksReported(l, es, links, window);
      forall e | e in es && Identified(l, e) && Bridges(l, es, window, e)
        ensures exists i :: 0 <= i < |parts| && e in parts[i]
      {
        BridgeReported(l, es, window, e);
        var part :| part in PartsOf(l, es, l.Link(e), window) && e in part;
        PartsMembers(l, es, links, window, l.Link(e), part);
      }
    }
  }
}
