/** Cross-domain principal activity: the latest sighting of each domain inside a window, fired once per crossing. */
module CrossDomain {
  import opened Base
  import opened Contract
  import opened BurstRules
  import opened Rule

  function DomainOf(eventType: string): string {
    if eventType == "auth.activity" then "authentication"
    else if eventType == "identity.activity" then "identity"
    else if eventType == "data.activity" then "data"
    else if eventType == "net.connection" then "network"
    else if eventType == "http.request" || eventType == "waf.request_blocked" || eventType == "waf.request_allowed"
    then "application"
    else if eventType == "endpoint.activity" then "endpoint"
    else if eventType == "server.activity" then "server"
    else if eventType == "container.activity" then "container"
    else if eventType == "cloud.activity" then "cloud"
    else ""
  }

  const PRINCIPAL_KEYS: seq<string> := [
    "auth.principal", "identity.principal", "data.principal", "endpoint.user", "cloud.principal",
    "container.user", "server.user"]

  function FirstAttr(attributes: map<string, string>, keys: seq<string>): string {
    if keys == [] then ""
    else if Attr(attributes, keys[0]) != "" then Attr(attributes, keys[0])
    else FirstAttr(attributes, keys[1..])
  }

  function PrincipalOf(attributes: map<string, string>): string {
    FirstAttr(attributes, PRINCIPAL_KEYS)
  }

  datatype Sight = Sight(at: Time, id: string, severity: Severity)

  // What one principal was last seen doing, by domain.
  datatype Activity = Activity(seen: map<string, Sight>, fired: bool)

  const QUIET: Activity := Activity(map[], false)

  function Recent(seen: map<string, Sight>, cutoff: Time): map<string, Sight> {
    map d | d in seen && seen[d].at >= cutoff :: seen[d]
  }

  function ActivityStep(a: Activity, domain: string, x: Sight, window: int, threshold: int): (Activity, bool) {
    var seen := Recent(a.seen[domain := x], x.at - window);
    (Activity(seen, |seen| >= threshold), |seen| >= threshold && !a.fired)
  }

  type Activities = map<string, Activity>

  function ActivityOf(all: Activities, principal: string): Activity {
    if principal in all then all[principal] else QUIET
  }

  function SightIds(seen: map<string, Sight>, domains: seq<string>): seq<string> {
    MapSeq(domains, d => if d in seen then seen[d].id else "")
  }

  ghost predicate IsPeak(peak: Severity, seen: map<string, Sight>) {
    && (forall d :: d in seen ==> seen[d].severity <= peak)
    && (peak == INFO || exists d :: d in seen && seen[d].severity == peak)
    && peak >= INFO
  }

  ghost function Joined(seen: map<string, map<string, Sight>>, fired: map<string, bool>): Activities
    requires seen.Keys == fired.Keys
  {
    map p | p in seen :: Activity(seen[p], fired[p])
  }

  lemma Overwrites(seen: map<string, map<string, Sight>>, fired: map<string, bool>, p: string,
                   mine: map<string, Sight>, f: bool)
    requires seen.Keys == fired.Keys
    ensures Joined(seen[p := mine], fired[p := f]) == Joined(seen, fired)[p := Activity(mine, f)]
  {
  }

  const TITLE: string := "Cross-domain activity"

  class CrossDomainPrincipalRule {
    const threshold: int
    const window: int
    var seen: map<string, map<string, Sight>>
    var fired: map<string, bool>

    ghost predicate Valid()
      reads this
    {
      threshold >= 2 && window > 0 && seen.Keys == fired.Keys
    }

    ghost function State(): Activities
      reads this
      requires Valid()
    {
      Joined(seen, fired)
    }

    constructor (threshold: int, window: int)
      requires threshold >= 2 && window > 0
      ensures Valid() && State() == map[] && this.threshold == threshold && this.window == window
    {
      this.threshold, this.window := threshold, window;
      seen, fired := map[], map[];
    }

    method Evaluate(e: TelemetryEvent, now: Time) returns (r: Evaluation)
      requires Valid()
      modifies this
      ensures Valid()
      ensures var domain, principal := DomainOf(e.eventType), PrincipalOf(e.attributes);
              if now == ZERO_TIME then r == RuleError && State() == old(State())
              else if domain == "" || principal == "" then r == Evaluated(NoMatch) && State() == old(State())
              else if EventTime(e) == ZERO_TIME then r == RuleError && State() == old(State())
              else
                var (a, fires) := ActivityStep(ActivityOf(old(State()), principal), domain,
                                               Sight(EventTime(e), e.id, e.severity), window, threshold);
                && State() == old(State())[principal := a]
                && (!fires ==> r == Evaluated(NoMatch))
                && (fires ==>
                      && r.Evaluated? && r.outcome.Match? && IsPeak(r.outcome.severity, a.seen)
                      && r.outcome.eventIds == SortStrings(SightIds(a.seen, Elements(a.seen.Keys)))
                      && r.outcome.attrs
                         == BurstAttrs(threshold, window, |a.seen|)["principal" := principal])
    {
      if now == ZERO_TIME {
        return RuleError;
      }
      var domain, principal := DomainOf(e.eventType), PrincipalOf(e.attributes);
      if domain == "" || principal == "" {
        return Evaluated(NoMatch);
      }
      var at := EventTime(e);
      if at == ZERO_TIME {
        return RuleError;
      }
      var mine, fires := Sighted(principal, domain, Sight(at, e.id, e.severity));
      if !fires {
        return Evaluated(NoMatch);
      }
      var ids, peak := Summarize(mine);
      return Evaluated(Match(peak, 0.0, TITLE, TITLE, ids,
                             BurstAttrs(threshold, window, |mine|)["principal" := principal]));
    }

    method Sighted(principal: string, domain: string, x: Sight) returns (mine: map<string, Sight>, fires: bool)
      requires Valid()
      modifies this
      ensures Valid()
      ensures var (a, f) := ActivityStep(ActivityOf(old(State()), principal), domain, x, window, threshold);
              State() == old(State())[principal := a] && mine == a.seen && fires == f
    {
      mine := if principal in seen then seen[principal] else map[];
      var wasFired := principal in fired && fired[principal];
      assert ActivityOf(State(), principal) == Activity(mine, wasFired);
      mine := Expire(mine[domain := x], x.at - window);
      fires := Store(principal, mine, wasFired);
    }

    method Store(principal: string, mine: map<string, Sight>, wasFired: bool) returns (fires: bool)
      requires Valid() && ActivityOf(State(), principal).fired == wasFired
      modifies this
      ensures Valid() && fires == (|mine| >= threshold && !wasFired)
      ensures State() == old(State())[principal := Activity(mine, |mine| >= threshold)]
    {
      assert wasFired ==> principal in seen && fired[principal];
      Overwrites(seen, fired, principal, mine, |mine| >= threshold);
      seen := seen[principal := mine];
      if |mine| < threshold {
        fired := fired[principal := false];
        return false;
      }
      if wasFired {
        assert fired == fired[principal := true];
        return false;
      }
      fired := fired[principal := true];
      return true;
    }
  }

  // Deletes stale sightings while ranging over the map in any order.
  method Expire(seen: map<string, Sight>, cutoff: Time) returns (kept: map<string, Sight>)
    ensures kept == Recent(seen, cutoff)
  {
    kept := seen;
    var rest := seen.Keys;
    while rest != {}
      invariant rest <= seen.Keys
      invariant kept == map d | d in seen && (d in rest || seen[d].at >= cutoff) :: seen[d]
      decreases rest
    {
      var d :| d in rest;
      if seen[d].at < cutoff {
        kept := kept - {d};
      }
      rest := rest - {d};
    }
  }

  method Summarize(seen: map<string, Sight>) returns (ids: seq<string>, peak: Severity)
    ensures ids == SortStrings(SightIds(seen, Elements(seen.Keys)))
    ensures IsPeak(peak, seen)
  {
    ids, peak := [], INFO;
    var rest := seen.Keys;
    ghost var visited := [];
    while rest != {}
      invariant rest <= seen.Keys && forall d :: d in visited <==> d in seen && d !in rest
      invariant multiset(visited) + multiset(rest) == multiset(seen.Keys)
      invariant ids == SightIds(seen, visited)
      invariant forall d :: d in visited ==> seen[d].severity <= peak
      invariant peak >= INFO && (peak == INFO || exists d :: d in seen && seen[d].severity == peak)
      decreases rest
    {
      var d :| d in rest;
      ids := ids + [seen[d].id];
      if seen[d].severity > peak {
        peak := seen[d].severity;
      }
      assert multiset(rest) == multiset{d} + multiset(rest - {d});
      visited, rest := visited + [d], rest - {d};
    }
    ElementsMultiset(seen.Keys);
    SightIdsPermuted(seen, visited, Elements(seen.Keys));
    ids := SortStrings(ids);
  }

  lemma SightIdsPermuted(seen: map<string, Sight>, a: seq<string>, b: seq<string>)
    requires multiset(a) == multiset(b)
    ensures SortStrings(SightIds(seen, a)) == SortStrings(SightIds(seen, b))
  {
    MapPermuted(a, b, d => if d in seen then seen[d].id else "");
    SortStringsPermuted(SightIds(seen, a), SightIds(seen, b));
  }

  // ---------------------------------------------------------------------------
  // Histories of one principal
  // ---------------------------------------------------------------------------

  datatype Seen = Seen(domain: string, sight: Sight)

  function RunActivity(xs: seq<Seen>, window: int, threshold: int): Activity {
    if xs == [] then QUIET
    else
      var last := xs[|xs| - 1];
      ActivityStep(RunActivity(xs[..|xs| - 1], window, threshold), last.domain, last.sight, window, threshold).0
  }

  predicate FiresLast(xs: seq<Seen>, window: int, threshold: int)
    requires xs != []
  {
    var last := xs[|xs| - 1];
    ActivityStep(RunActivity(xs[..|xs| - 1], window, threshold), last.domain, last.sight, window, threshold).1
  }

  // The position of the latest sighting of a domain, -1 without one.
  function LatestOf(xs: seq<Seen>, domain: string): int {
    if xs == [] then -1
    else if xs[|xs| - 1].domain == domain then |xs| - 1
    else LatestOf(xs[..|xs| - 1], domain)
  }

  lemma {:induction false} LatestIsLast(xs: seq<Seen>, domain: string)
    ensures -1 <= LatestOf(xs, domain) < |xs|
    ensures LatestOf(xs, domain) >= 0 ==> xs[LatestOf(xs, domain)].domain == domain
    ensures forall i :: LatestOf(xs, domain) < i < |xs| ==> xs[i].domain != domain
  {
    if xs != [] {
      LatestIsLast(xs[..|xs| - 1], domain);
    }
  }

  // Sighting j is inside the window of every event since.
  ghost predicate Survives(xs: seq<Seen>, j: nat, window: int)
    requires j < |xs|
  {
    forall i :: j <= i < |xs| ==> xs[j].sight.at >= xs[i].sight.at - window
  }

  lemma SurvivesStep(xs: seq<Seen>, x: Seen, j: nat, window: int)
    requires j < |xs|
    ensures Survives(xs + [x], j, window) <==> Survives(xs, j, window) && xs[j].sight.at >= x.sight.at - window
  {
    var all := xs + [x];
    assert all[|xs|] == x && all[j] == xs[j];
    if Survives(all, j, window) {
      forall i | j <= i < |xs| ensures xs[j].sight.at >= xs[i].sight.at - window {
        assert all[i] == xs[i];
      }
    }
    if Survives(xs, j, window) && xs[j].sight.at >= x.sight.at - window {
      forall i | j <= i < |all| ensures all[j].sight.at >= all[i].sight.at - window {
        assert i < |xs| ==> all[i] == xs[i];
      }
    }
  }

  ghost predicate HoldsLatest(xs: seq<Seen>, domain: string, seen: map<string, Sight>, window: int) {
    var j := LatestOf(xs, domain);
    && -1 <= j < |xs|
    && (domain in seen <==> j >= 0 && Survives(xs, j, window))
    && (domain in seen ==> seen[domain] == xs[j].sight)
  }

  // After any stream, in order or not, the rule holds a domain exactly when the domain's latest sighting is inside
  // the window of every event since, and then it holds that sighting.
  lemma {:induction false} ActivityHistory(xs: seq<Seen>, domain: string, window: int, threshold: int)
    requires window > 0
    ensures HoldsLatest(xs, domain, RunActivity(xs, window, threshold).seen, window)
    ensures RunActivity(xs, window, threshold).fired <==>
              xs != [] && |RunActivity(xs, window, threshold).seen| >= threshold
  {
    if xs != [] {
      var before, x := xs[..|xs| - 1], xs[|xs| - 1];
      ActivityHistory(before, domain, window, threshold);
      assert xs == before + [x];
      if x.domain != domain && LatestOf(before, domain) >= 0 {
        SurvivesStep(before, x, LatestOf(before, domain), window);
      }
    }
  }

  // On a time-ordered stream that is the latest sighting of each domain, if not older than the window.
  lemma OrderedActivity(xs: seq<Seen>, domain: string, window: int, threshold: int)
    requires xs != [] && window > 0
    requires forall i, k :: 0 <= i <= k < |xs| ==> xs[i].sight.at <= xs[k].sight.at
    ensures var j, seen := LatestOf(xs, domain), RunActivity(xs, window, threshold).seen;
            && -1 <= j < |xs|
            && (domain in seen <==> j >= 0 && xs[j].sight.at >= xs[|xs| - 1].sight.at - window)
            && (domain in seen ==> seen[domain] == xs[j].sight)
  {
    ActivityHistory(xs, domain, window, threshold);
    var j := LatestOf(xs, domain);
    if j >= 0 && xs[j].sight.at >= xs[|xs| - 1].sight.at - window {
      forall i | j <= i < |xs| ensures xs[j].sight.at >= xs[i].sight.at - window {
        assert xs[i].sight.at <= xs[|xs| - 1].sight.at;
      }
    }
  }

  // Firing is exactly the crossing of the threshold from below, with exactly threshold domains in hand.
  lemma FiresOnCrossing(xs: seq<Seen>, window: int, threshold: int)
    requires xs != [] && threshold >= 2 && window > 0
    ensures var before, after := |RunActivity(xs[..|xs| - 1], window, threshold).seen|,
                                 |RunActivity(xs, window, threshold).seen|;
            && (FiresLast(xs, window, threshold) <==> before < threshold <= after)
            && (FiresLast(xs, window, threshold) ==> after == threshold)
  {
    ActivityHistory(xs[..|xs| - 1], "", window, threshold);
    var was, x := RunActivity(xs[..|xs| - 1], window, threshold).seen, xs[|xs| - 1];
    var now := RunActivity(xs, window, threshold).seen;
    assert now.Keys <= was.Keys + {x.domain};
    SubsetSize(now.Keys, was.Keys + {x.domain});
  }

  lemma SubsetSize<T>(a: set<T>, b: set<T>)
    requires a <= b
    ensures |a| <= |b|
  {
    assert b == a + (b - a);
  }

  // ---------------------------------------------------------------------------
  // Principals do not interfere
  // ---------------------------------------------------------------------------

  datatype Named = Named(principal: string, seen: Seen)

  function RunNamed(xs: seq<Named>, window: int, threshold: int): Activities {
    if xs == [] then map[]
    else
      var all, last := RunNamed(xs[..|xs| - 1], window, threshold), xs[|xs| - 1];
      all[last.principal := ActivityStep(ActivityOf(all, last.principal), last.seen.domain, last.seen.sight, window,
                                         threshold).0]
  }

  function OfPrincipal(xs: seq<Named>, principal: string): seq<Seen> {
    if xs == [] then []
    else
      var earlier := OfPrincipal(xs[..|xs| - 1], principal);
      if xs[|xs| - 1].principal == principal then earlier + [xs[|xs| - 1].seen] else earlier
  }

  predicate NamedFiresLast(xs: seq<Named>, window: int, threshold: int)
    requires xs != []
  {
    var before, last := xs[..|xs| - 1], xs[|xs| - 1];
    ActivityStep(ActivityOf(RunNamed(before, window, threshold), last.principal), last.seen.domain, last.seen.sight,
                 window, threshold).1
  }

  // On any interleaving the rule fires on an event exactly when the principal's own events, ended by it, fire.
  lemma NamedFires(xs: seq<Named>, window: int, threshold: int)
    requires xs != []
    ensures var mine := OfPrincipal(xs, xs[|xs| - 1].principal);
            mine != [] && (NamedFiresLast(xs, window, threshold) <==> FiresLast(mine, window, threshold))
  {
    var before, last := xs[..|xs| - 1], xs[|xs| - 1];
    var mine := OfPrincipal(xs, last.principal);
    PrincipalIndependence(before, last.principal, window, threshold);
    assert mine[..|mine| - 1] == OfPrincipal(before, last.principal);
  }

  lemma {:induction false} PrincipalIndependence(xs: seq<Named>, principal: string, window: int, threshold: int)
    ensures ActivityOf(RunNamed(xs, window, threshold), principal)
         == RunActivity(OfPrincipal(xs, principal), window, threshold)
  {
    if xs != [] {
      var before, last := xs[..|xs| - 1], xs[|xs| - 1];
      PrincipalIndependence(before, principal, window, threshold);
      if last.principal == principal {
        var mine := OfPrincipal(xs, principal);
        assert mine[..|mine| - 1] == OfPrincipal(before, principal);
      }
    }
  }

  // ---------------------------------------------------------------------------
  // Whose activity an event is, and of which domain
  // ---------------------------------------------------------------------------

  // The observed event types and their domains.
  const DOMAINS: map<string, string> := map[
    "auth.activity" := "authentication", "identity.activity" := "identity", "data.activity" := "data",
    "net.connection" := "network", "http.request" := "application", "waf.request_blocked" := "application",
    "waf.request_allowed" := "application", "endpoint.activity" := "endpoint", "server.activity" := "server",
    "container.activity" := "container", "cloud.activity" := "cloud"]

  lemma DomainMeans(eventType: string)
    ensures DomainOf(eventType) == if eventType in DOMAINS then DOMAINS[eventType] else ""
    ensures DomainOf(eventType) != "" <==> eventType in DOMAINS
  {
  }

  // The attributes name p: under the first of the seven keys that says anything.
  ghost predicate NamesPrincipal(attributes: map<string, string>, p: string) {
    var keys := ["auth.principal", "identity.principal", "data.principal", "endpoint.user", "cloud.principal",
                 "container.user", "server.user"];
    && p != ""
    && exists i :: 0 <= i < 7 && Attr(attributes, keys[i]) == p && forall j :: 0 <= j < i ==> Attr(attributes, keys[j]) == ""
  }

  lemma {:induction false} FirstMeans(attributes: map<string, string>, keys: seq<string>, p: string)
    requires p != ""
    ensures FirstAttr(attributes, keys) == p
       <==> exists i :: 0 <= i < |keys| && Attr(attributes, keys[i]) == p
                        && forall j :: 0 <= j < i ==> Attr(attributes, keys[j]) == ""
  {
    if keys != [] {
      FirstMeans(attributes, keys[1..], p);
      if Attr(attributes, keys[0]) == "" {
        if i :| 0 <= i < |keys[1..]| && Attr(attributes, keys[1..][i]) == p
                && forall j :: 0 <= j < i ==> Attr(attributes, keys[1..][j]) == "" {
          assert Attr(attributes, keys[i + 1]) == p;
          forall j | 0 <= j < i + 1 ensures Attr(attributes, keys[j]) == "" {
            assert j > 0 ==> keys[1..][j - 1] == keys[j];
          }
        }
        if i :| 0 <= i < |keys| && Attr(attributes, keys[i]) == p
                && forall j :: 0 <= j < i ==> Attr(attributes, keys[j]) == "" {
          assert keys[1..][i - 1] == keys[i];
          forall j | 0 <= j < i - 1 ensures Attr(attributes, keys[1..][j]) == "" {
            assert keys[1..][j] == keys[j + 1];
          }
        }
      }
    }
  }

  lemma PrincipalMeans(attributes: map<string, string>, p: string)
    requires p != ""
    ensures PrincipalOf(attributes) == p <==> NamesPrincipal(attributes, p)
  {
    FirstMeans(attributes, PRINCIPAL_KEYS, p);
  }

  // ---------------------------------------------------------------------------
  // The rule on a stream of events
  // ---------------------------------------------------------------------------

  // The event is activity of p in an observed domain, at a known time.
  ghost predicate Acts(e: TelemetryEvent, p: string) {
    DomainOf(e.eventType) != "" && NamesPrincipal(e.attributes, p) && EventTime(e) != ZERO_TIME
  }

  function SeenOf(e: TelemetryEvent): Seen {
    Seen(DomainOf(e.eventType), Sight(EventTime(e), e.id, e.severity))
  }

  // The events of the stream that the rule takes up.
  function NamedIn(es: seq<TelemetryEvent>): seq<Named> {
    if es == [] then []
    else
      var earlier, e := NamedIn(es[..|es| - 1]), es[|es| - 1];
      if DomainOf(e.eventType) != "" && PrincipalOf(e.attributes) != "" && EventTime(e) != ZERO_TIME
      then earlier + [Named(PrincipalOf(e.attributes), SeenOf(e))] else earlier
  }

  ghost function ActsOf(es: seq<TelemetryEvent>, p: string): seq<TelemetryEvent> {
    if es == [] then []
    else
      var earlier, e := ActsOf(es[..|es| - 1], p), es[|es| - 1];
      if Acts(e, p) then earlier + [e] else earlier
  }

  lemma ActsMeans(e: TelemetryEvent, p: string)
    requires p != ""
    ensures Acts(e, p) <==> DomainOf(e.eventType) != "" && PrincipalOf(e.attributes) == p && EventTime(e) != ZERO_TIME
  {
    PrincipalMeans(e.attributes, p);
  }

  lemma {:induction false} ActsAreSeen(es: seq<TelemetryEvent>, p: string)
    requires p != ""
    ensures OfPrincipal(NamedIn(es), p) == MapSeq(ActsOf(es, p), SeenOf)
  {
    if es != [] {
      var front, e := es[..|es| - 1], es[|es| - 1];
      ActsAreSeen(front, p);
      ActsMeans(e, p);
      NamedMore(es, p);
      SeenMore(ActsOf(front, p), e);
    }
  }

  lemma {:induction false} ActsMembers(es: seq<TelemetryEvent>, p: string)
    ensures forall e :: e in ActsOf(es, p) <==> e in es && Acts(e, p)
  {
    if es != [] {
      ActsMembers(es[..|es| - 1], p);
      assert es == es[..|es| - 1] + [es[|es| - 1]];
    }
  }

  lemma SeenMore(acts: seq<TelemetryEvent>, e: TelemetryEvent)
    ensures MapSeq(acts + [e], SeenOf) == MapSeq(acts, SeenOf) + [SeenOf(e)]
  {
  }

  lemma NamedMore(es: seq<TelemetryEvent>, p: string)
    requires es != [] && p != ""
    ensures var front, e := es[..|es| - 1], es[|es| - 1];
            OfPrincipal(NamedIn(es), p)
              == if DomainOf(e.eventType) != "" && PrincipalOf(e.attributes) == p && EventTime(e) != ZERO_TIME
                 then OfPrincipal(NamedIn(front), p) + [SeenOf(e)] else OfPrincipal(NamedIn(front), p)
  {
    var front, e := es[..|es| - 1], es[|es| - 1];
    var named := Named(PrincipalOf(e.attributes), SeenOf(e));
    assert (NamedIn(front) + [named])[..|NamedIn(front)|] == NamedIn(front);
  }

  // The domains of the events since some time.
  ghost function DomainsSince(acts: seq<TelemetryEvent>, since: Time): set<string> {
    set e | e in acts && EventTime(e) >= since :: DomainOf(e.eventType)
  }

  // The domains p is active in after the stream: those of p's events in the window before the last of them.
  ghost function Active(es: seq<TelemetryEvent>, p: string, window: int): set<string> {
    ActiveIn(ActsOf(es, p), window)
  }

  ghost function ActiveIn(acts: seq<TelemetryEvent>, window: int): set<string> {
    if acts == [] then {} else DomainsSince(acts, EventTime(acts[|acts| - 1]) - window)
  }

  lemma {:induction false} ActsOrdered(es: seq<TelemetryEvent>, p: string)
    requires TimeOrdered(es) && p != ""
    ensures TimeOrdered(ActsOf(es, p))
  {
    if es != [] {
      var front, e := es[..|es| - 1], es[|es| - 1];
      ActsOrdered(front, p);
      ActsMembers(front, p);
      var acts := ActsOf(front, p);
      forall i | 0 <= i < |acts| ensures EventTime(acts[i]) <= EventTime(e) {
        assert acts[i] in front;
        var k :| 0 <= k < |front| && front[k] == acts[i];
        assert es[k] == acts[i];
      }
    }
  }

  lemma {:induction false} LatestMeans(xs: seq<Seen>, domain: string)
    ensures var j := LatestOf(xs, domain);
            && -1 <= j < |xs| && (j >= 0 ==> xs[j].domain == domain)
            && forall i :: j < i < |xs| ==> xs[i].domain != domain
  {
    if xs != [] {
      LatestMeans(xs[..|xs| - 1], domain);
    }
  }

  // A held domain was acted in, and an active one is held.
  lemma HeldIsActed(acts: seq<TelemetryEvent>, since: Time, d: string)
    ensures var xs := MapSeq(acts, SeenOf);
            var j := LatestOf(xs, d);
            -1 <= j < |xs| && (j >= 0 && xs[j].sight.at >= since ==> d in DomainsSince(acts, since))
  {
    var xs := MapSeq(acts, SeenOf);
    LatestMeans(xs, d);
    var j := LatestOf(xs, d);
    if j >= 0 {
      assert acts[j] in acts && xs[j] == SeenOf(acts[j]);
    }
  }

  lemma ActedIsHeld(acts: seq<TelemetryEvent>, since: Time, d: string, e: TelemetryEvent)
    requires TimeOrdered(acts) && e in acts && EventTime(e) >= since && DomainOf(e.eventType) == d
    ensures var xs := MapSeq(acts, SeenOf);
            var j := LatestOf(xs, d);
            0 <= j < |xs| && xs[j].sight.at >= since
  {
    var xs := MapSeq(acts, SeenOf);
    LatestMeans(xs, d);
    var i :| 0 <= i < |acts| && acts[i] == e;
    assert xs[i] == SeenOf(e);
    var j := LatestOf(xs, d);
    assert i <= j && xs[j] == SeenOf(acts[j]);
  }

  lemma SeenOrdered(acts: seq<TelemetryEvent>)
    requires TimeOrdered(acts)
    ensures var xs := MapSeq(acts, SeenOf);
            forall i, k :: 0 <= i <= k < |xs| ==> xs[i].sight.at <= xs[k].sight.at
  {
    var xs := MapSeq(acts, SeenOf);
    forall i, k | 0 <= i <= k < |xs| ensures xs[i].sight.at <= xs[k].sight.at {
      assert EventTime(acts[i]) <= EventTime(acts[k]);
    }
  }

  lemma HeldIn(acts: seq<TelemetryEvent>, window: int, threshold: int, d: string)
    requires window > 0 && TimeOrdered(acts) && acts != []
    ensures d in RunActivity(MapSeq(acts, SeenOf), window, threshold).seen <==> d in ActiveIn(acts, window)
  {
    var since, xs := EventTime(acts[|acts| - 1]) - window, MapSeq(acts, SeenOf);
    SeenOrdered(acts);
    OrderedActivity(xs, d, window, threshold);
    HeldIsActed(acts, since, d);
    assert xs[|xs| - 1] == SeenOf(acts[|acts| - 1]);
    if d in DomainsSince(acts, since) {
      var e :| e in acts && EventTime(e) >= since && DomainOf(e.eventType) == d;
      ActedIsHeld(acts, since, d, e);
    }
  }

  lemma HeldKeys(acts: seq<TelemetryEvent>, window: int, threshold: int)
    requires window > 0 && TimeOrdered(acts)
    ensures |RunActivity(MapSeq(acts, SeenOf), window, threshold).seen| == |ActiveIn(acts, window)|
  {
    var seen := RunActivity(MapSeq(acts, SeenOf), window, threshold).seen;
    if acts != [] {
      forall d ensures d in seen <==> d in ActiveIn(acts, window) {
        HeldIn(acts, window, threshold, d);
      }
      assert seen.Keys == ActiveIn(acts, window);
    }
    assert |seen| == |seen.Keys|;
  }

  /** On a time-ordered stream of events, the rule fires at an event of p exactly when p's active domains reach the threshold
      with it and did not before. */
  lemma ActivityFires(es: seq<TelemetryEvent>, e: TelemetryEvent, p: string, window: int, threshold: int)
    requires p != "" && window > 0 && threshold >= 2 && TimeOrdered(es + [e]) && Acts(e, p)
    ensures NamedIn(es + [e]) != []
    ensures NamedFiresLast(NamedIn(es + [e]), window, threshold)
       <==> |Active(es, p, window)| < threshold <= |Active(es + [e], p, window)|
  {
    var all := es + [e];
    assert all[..|all| - 1] == es;
    assert forall i :: 0 <= i < |es| ==> all[i] == es[i];
    ActsMeans(e, p);
    NamedMore(all, p);
    var mine := OfPrincipal(NamedIn(all), p);
    NamedFires(NamedIn(all), window, threshold);
    FiresOnCrossing(mine, window, threshold);
    assert mine[..|mine| - 1] == OfPrincipal(NamedIn(es), p);
    ActiveKeys(es, p, window, threshold);
    ActiveKeys(all, p, window, threshold);
  }

  lemma ActiveKeys(es: seq<TelemetryEvent>, p: string, window: int, threshold: int)
    requires p != "" && window > 0 && TimeOrdered(es)
    ensures |RunActivity(OfPrincipal(NamedIn(es), p), window, threshold).seen| == |Active(es, p, window)|
  {
    ActsAreSeen(es, p);
    ActsOrdered(es, p);
    HeldKeys(ActsOf(es, p), window, threshold);
  }
}
