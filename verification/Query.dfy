/** Monitoring and hunting queries over persisted events: filter, sort, truncate. */
module Query {
  import opened Base
  import opened Contract
  import opened Text
  import CrossDomain

  const MAX_LIMIT: int := 1000
  const DEFAULT_LIMIT: int := 100

  // Empty texts and zero times constrain nothing.
  datatype Filter = Filter(
    from: Time, to: Time, source: string, eventType: string, severity: Option<Severity>, assetId: string,
    correlationId: string, detectedIds: map<string, bool>, detected: Option<bool>, limit: int, orderDesc: bool)

  datatype Rows = Rows(events: seq<TelemetryEvent>) | ErrLimit | ErrRange | ErrCorrupt

  predicate Passes(q: Filter, e: TelemetryEvent) {
    && (q.from == ZERO_TIME || q.from <= EventTime(e))
    && (q.to == ZERO_TIME || EventTime(e) <= q.to)
    && (q.source == "" || e.source == q.source)
    && (q.eventType == "" || e.eventType == q.eventType)
    && (q.severity.None? || e.severity == q.severity.value)
    && (q.assetId == "" || e.assetId == q.assetId)
    && (q.correlationId == "" || Attr(e.attributes, CORRELATION_KEY) == q.correlationId)
    && (q.detected.None?
        || q.detected.value == (e.id in q.detectedIds && q.detectedIds[e.id]))
  }

  function PassesOf(q: Filter): TelemetryEvent -> bool {
    e => Passes(q, e)
  }

  predicate Ascending(a: TelemetryEvent, b: TelemetryEvent) {
    TimeIdLe(a, b)
  }

  predicate Descending(a: TelemetryEvent, b: TelemetryEvent) {
    TimeIdLe(b, a)
  }

  function OrderOf(desc: bool): (TelemetryEvent, TelemetryEvent) -> bool {
    if desc then Descending else Ascending
  }

  function Keep<T>(xs: seq<T>, p: T -> bool): seq<T> {
    if xs == [] then []
    else if p(xs[|xs| - 1]) then Keep(xs[..|xs| - 1], p) + [xs[|xs| - 1]]
    else Keep(xs[..|xs| - 1], p)
  }

  function Take<T>(xs: seq<T>, n: nat): seq<T> {
    if |xs| > n then xs[..n] else xs
  }

  function LimitOf(limit: int): int {
    if limit == 0 then DEFAULT_LIMIT else limit
  }

  // All matches in the query's order, before truncation.
  function Matches(q: Filter, events: seq<TelemetryEvent>): seq<TelemetryEvent> {
    SortBy(Keep(events, PassesOf(q)), OrderOf(q.orderDesc))
  }

  predicate Corrupt(events: seq<TelemetryEvent>) {
    exists e | e in events :: e.occurredAt.None?
  }

  function Search(q: Filter, events: seq<TelemetryEvent>): Rows {
    if LimitOf(q.limit) < 0 || LimitOf(q.limit) > MAX_LIMIT then ErrLimit
    else if q.from != ZERO_TIME && q.to != ZERO_TIME && q.from > q.to then ErrRange
    else if Corrupt(events) then ErrCorrupt
    else Rows(Take(Matches(q, events), LimitOf(q.limit)))
  }

  method Execute(q: Filter, events: seq<TelemetryEvent>) returns (r: Rows)
    ensures r == Search(q, events)
  {
    var limit := if q.limit == 0 then DEFAULT_LIMIT else q.limit;
    if limit < 0 || limit > MAX_LIMIT {
      return ErrLimit;
    }
    if q.from != ZERO_TIME && q.to != ZERO_TIME && q.from > q.to {
      return ErrRange;
    }
    var out: seq<TelemetryEvent> := [];
    for i := 0 to |events|
      invariant forall e :: e in events[..i] ==> e.occurredAt.Some?
      invariant out == Keep(events[..i], PassesOf(q))
    {
      var e := events[i];
      assert events[..i + 1][..i] == events[..i] && events[..i + 1] == events[..i] + [e];
      if e.occurredAt.None? {
        assert e in events;
        return ErrCorrupt;
      }
      if Passes(q, e) {
        out := out + [e];
      }
    }
    assert events[..|events|] == events;
    out := SortBy(out, OrderOf(q.orderDesc));
    return Rows(if |out| > limit then out[..limit] else out);
  }

  // ---------------------------------------------------------------------------
  // What a query answers
  // ---------------------------------------------------------------------------

  lemma OrderIsOrder(desc: bool)
    ensures TotalPreorder(OrderOf(desc))
    ensures forall a, b :: OrderOf(desc)(a, b) && OrderOf(desc)(b, a) ==> a.id == b.id
  {
    TimeIdLeIsOrder();
    forall a, b, c | OrderOf(desc)(a, b) && OrderOf(desc)(b, c) ensures OrderOf(desc)(a, c) {
      if desc {
        assert TimeIdLe(c, b) && TimeIdLe(b, a);
      } else {
        assert TimeIdLe(a, b) && TimeIdLe(b, c);
      }
    }
    forall a, b ensures OrderOf(desc)(a, b) || OrderOf(desc)(b, a) {
      assert TimeIdLe(a, b) || TimeIdLe(b, a);
    }
  }

  lemma {:induction false} KeepMembers<T>(xs: seq<T>, p: T -> bool)
    ensures forall x :: x in Keep(xs, p) <==> x in xs && p(x)
    ensures forall x :: p(x) ==> multiset(Keep(xs, p))[x] == multiset(xs)[x]
    ensures forall x :: !p(x) ==> multiset(Keep(xs, p))[x] == 0
  {
    if xs != [] {
      KeepMembers(xs[..|xs| - 1], p);
      assert xs == xs[..|xs| - 1] + [xs[|xs| - 1]];
    }
  }

  // The event has been detected, by the ids the caller supplies.
  predicate Detected(q: Filter, e: TelemetryEvent) {
    e.id in q.detectedIds && q.detectedIds[e.id]
  }

  // Why a query leaves an event out: some field that it constrains is another one.
  predicate LeftOut(q: Filter, e: TelemetryEvent) {
    || (q.from != 0 && EventTime(e) < q.from) || (q.to != 0 && EventTime(e) > q.to)
    || (q.source != "" && e.source != q.source) || (q.eventType != "" && e.eventType != q.eventType)
    || (q.severity.Some? && e.severity != q.severity.value) || (q.assetId != "" && e.assetId != q.assetId)
    || (q.correlationId != ""
        && !("blueveil.correlation_id" in e.attributes && e.attributes["blueveil.correlation_id"] == q.correlationId))
    || (q.detected == Some(true) && !Detected(q, e)) || (q.detected == Some(false) && Detected(q, e))
  }

  lemma PassesMeans(q: Filter, e: TelemetryEvent)
    ensures Passes(q, e) <==> !LeftOut(q, e)
  {
  }

  // One event comes before another: it is earlier, or as early with the smaller id; the other way round when descending.
  predicate Before(desc: bool, a: TelemetryEvent, b: TelemetryEvent) {
    if desc then EventTime(a) > EventTime(b) || (EventTime(a) == EventTime(b) && StrLe(b.id, a.id))
    else EventTime(a) < EventTime(b) || (EventTime(a) == EventTime(b) && StrLe(a.id, b.id))
  }

  /** A query fails exactly on a limit outside 0 to 1000, an empty time range, or an event without a time. */
  lemma QueryFails(q: Filter, events: seq<TelemetryEvent>)
    ensures !Search(q, events).Rows? <==>
              || q.limit < 0 || q.limit > 1000 || (q.from != 0 && q.to != 0 && q.from > q.to)
              || exists e :: e in events && e.occurredAt.None?
  {
  }

  /** The rows are the first of the matches: rows and rest together are exactly the events that are not left out, the rows are
      in order, none of the rest belongs before a row, and there is a rest only when the limit, 100 if not given, is
      exhausted. */
  lemma TopRows(q: Filter, events: seq<TelemetryEvent>) returns (rest: seq<TelemetryEvent>)
    requires Search(q, events).Rows?
    ensures var rows := Search(q, events).events;
            var limit := if q.limit == 0 then 100 else q.limit;
            && (forall e :: multiset(rows + rest)[e] == if LeftOut(q, e) then 0 else multiset(events)[e])
            && (forall i, j :: 0 <= i < j < |rows| ==> Before(q.orderDesc, rows[i], rows[j]))
            && (forall r, e :: r in rows && e in rest ==> Before(q.orderDesc, r, e))
            && |rows| <= limit && (rest != [] ==> |rows| == limit)
  {
    MatchesSorted(q, events);
    rest := TakeSplits(Matches(q, events), LimitOf(q.limit), OrderOf(q.orderDesc));
    CountKept(q, events, Search(q, events).events + rest);
    BeforeMeans(q.orderDesc);
    forall e ensures Passes(q, e) <==> !LeftOut(q, e) {
      PassesMeans(q, e);
    }
  }

  lemma BeforeMeans(desc: bool)
    ensures forall a, b :: OrderOf(desc)(a, b) <==> Before(desc, a, b)
  {
  }

  lemma MatchesSorted(q: Filter, events: seq<TelemetryEvent>)
    ensures Sorted(Matches(q, events), OrderOf(q.orderDesc))
    ensures multiset(Matches(q, events)) == multiset(Keep(events, PassesOf(q)))
  {
    OrderIsOrder(q.orderDesc);
    SortBySorts(Keep(events, PassesOf(q)), OrderOf(q.orderDesc));
  }

  lemma CountKept(q: Filter, events: seq<TelemetryEvent>, xs: seq<TelemetryEvent>)
    requires multiset(xs) == multiset(Keep(events, PassesOf(q)))
    ensures forall e :: multiset(xs)[e] == if Passes(q, e) then multiset(events)[e] else 0
  {
    KeepMembers(events, PassesOf(q));
  }

  lemma TakeSplits<T>(all: seq<T>, limit: nat, le: (T, T) -> bool) returns (rest: seq<T>)
    requires Sorted(all, le)
    ensures var rows := Take(all, limit);
            && rows + rest == all && Sorted(rows, le)
            && (forall r, e :: r in rows && e in rest ==> le(r, e))
            && |rows| <= limit && (rest != [] ==> |rows| == limit)
  {
    var n := |Take(all, limit)|;
    rest := all[n..];
    assert Take(all, limit) == all[..n];
    PrefixIsLeast(all, n, le);
  }

  lemma PrefixIsLeast<T>(all: seq<T>, n: nat, le: (T, T) -> bool)
    requires n <= |all| && Sorted(all, le)
    ensures Sorted(all[..n], le) && forall r, e :: r in all[..n] && e in all[n..] ==> le(r, e)
  {
    forall r, e | r in all[..n] && e in all[n..] ensures le(r, e) {
      var i :| 0 <= i < n && all[i] == r;
      var j :| 0 <= j < |all| - n && all[n..][j] == e;
      assert all[n + j] == e;
    }
  }

  lemma {:induction false} KeepPermuted<T>(a: seq<T>, b: seq<T>, p: T -> bool)
    requires multiset(a) == multiset(b)
    ensures multiset(Keep(a, p)) == multiset(Keep(b, p))
  {
    if a == [] {
      assert |multiset(a)| == |multiset(b)|;
    } else {
      assert a == [a[0]] + a[1..];
      var front, back := PickOut(b, a[0]);
      assert multiset(a[1..]) == multiset(a) - multiset{a[0]};
      KeepPermuted(a[1..], front + back, p);
      KeepAppends([a[0]], a[1..], p);
      KeepAppends(front + [a[0]], back, p);
      KeepAppends(front, [a[0]], p);
      KeepAppends(front, back, p);
    }
  }

  lemma {:induction false} KeepsNone<T>(xs: seq<T>, p: T -> bool)
    requires forall i :: 0 <= i < |xs| ==> !p(xs[i])
    ensures Keep(xs, p) == []
  {
    if xs != [] {
      KeepsNone(xs[..|xs| - 1], p);
    }
  }

  lemma KeepAppends<T>(a: seq<T>, b: seq<T>, p: T -> bool)
    ensures Keep(a + b, p) == Keep(a, p) + Keep(b, p)
  {
    KeepSplits(a + b, |a|, p);
    assert (a + b)[..|a|] == a && (a + b)[|a|..] == b;
  }

  /** With unique event ids the answer does not depend on the order of the input. */
  lemma OrderOfInputIrrelevant(q: Filter, a: seq<TelemetryEvent>, b: seq<TelemetryEvent>)
    requires multiset(a) == multiset(b) && UniqueIds(a)
    ensures Search(q, a) == Search(q, b)
  {
    MembersOfPermutation(a, b);
    KeepPermuted(a, b, PassesOf(q));
    KeptSeparate(q, a);
    OrderIsOrder(q.orderDesc);
    SortByPermuted(Keep(a, PassesOf(q)), Keep(b, PassesOf(q)), OrderOf(q.orderDesc));
    assert Matches(q, a) == Matches(q, b);
  }

  // With unique ids the order ties no two matches.
  lemma KeptSeparate(q: Filter, a: seq<TelemetryEvent>)
    requires UniqueIds(a)
    ensures Separates(Keep(a, PassesOf(q)), OrderOf(q.orderDesc))
  {
    var p, le := PassesOf(q), OrderOf(q.orderDesc);
    KeepMembers(a, p);
    OrderIsOrder(q.orderDesc);
    forall x, y | x in Keep(a, p) && y in Keep(a, p) && le(x, y) && le(y, x) ensures x == y {
      var i :| 0 <= i < |a| && a[i] == x;
      var j :| 0 <= j < |a| && a[j] == y;
    }
  }

  // ---------------------------------------------------------------------------
  // Hunting
  // ---------------------------------------------------------------------------

  datatype Hunt = Hunt(base: Filter, principal: string, keyword: string)

  predicate MatchesKeyword(e: TelemetryEvent, keyword: string) {
    || Contains(Lower(e.id), keyword) || Contains(Lower(e.source), keyword) || Contains(Lower(e.assetId), keyword)
    || Contains(Lower(e.eventType), keyword)
    || exists k | k in e.attributes :: Contains(Lower(e.attributes[k]), keyword)
  }

  predicate Hits(h: Hunt, e: TelemetryEvent) {
    var keyword := Lower(Trim(h.keyword));
    && (h.principal == "" || CrossDomain.PrincipalOf(e.attributes) == h.principal)
    && (keyword == "" || MatchesKeyword(e, keyword))
  }

  function HitsOf(h: Hunt): TelemetryEvent -> bool {
    e => Hits(h, e)
  }

  method ExecuteHunt(h: Hunt, events: seq<TelemetryEvent>) returns (r: Rows)
    ensures r == HuntRows(h, events)
  {
    var limit := if h.base.limit == 0 then DEFAULT_LIMIT else h.base.limit;
    if limit < 0 || limit > MAX_LIMIT {
      return ErrLimit;
    }
    var base := h.base.(limit := 0);
    var answer := Execute(base, events);
    if !answer.Rows? {
      return answer;
    }
    var rows, out := answer.events, [];
    for i := 0 to |rows|
      invariant out == Keep(rows[..i], HitsOf(h))
    {
      assert rows[..i + 1][..i] == rows[..i];
      if Hits(h, rows[i]) {
        out := out + [rows[i]];
      }
    }
    assert rows[..|rows|] == rows;
    return Rows(if |out| > limit then out[..limit] else out);
  }

  function HuntRows(h: Hunt, events: seq<TelemetryEvent>): Rows {
    var limit := LimitOf(h.base.limit);
    if limit < 0 || limit > MAX_LIMIT then ErrLimit
    else
      var answer := Search(h.base.(limit := 0), events);
      if answer.Rows? then Rows(Take(Keep(answer.events, HitsOf(h)), limit)) else answer
  }

  // What a hunt is meant to answer: the monitoring query with two more filters.
  function WholeHunt(h: Hunt, events: seq<TelemetryEvent>): Rows {
    var answer := Search(h.base, events);
    if answer.Rows? then Rows(Take(Keep(Matches(h.base, events), HitsOf(h)), LimitOf(h.base.limit))) else answer
  }

  lemma {:induction false} KeepSplits<T>(xs: seq<T>, n: nat, p: T -> bool)
    requires n <= |xs|
    ensures Keep(xs, p) == Keep(xs[..n], p) + Keep(xs[n..], p)
  {
    if n < |xs| {
      var front := xs[..|xs| - 1];
      KeepSplits(front, n, p);
      assert front[..n] == xs[..n];
      assert xs[n..][..|xs| - 1 - n] == front[n..];
    } else {
      assert xs[..n] == xs && xs[n..] == [];
    }
  }

  /** A hunt's inner query keeps its first 100 rows before the hunt filters apply. The hunt is therefore whole exactly
      when those rows already hold as many hits as the limit asks for, or no later row is a hit. */
  lemma HuntIsWhole(h: Hunt, events: seq<TelemetryEvent>)
    requires HuntRows(h, events).Rows?
    ensures var all := Matches(h.base, events);
            var inside := Take(all, DEFAULT_LIMIT);
            var whole := HuntRows(h, events) == WholeHunt(h, events);
            whole <==> |Keep(inside, HitsOf(h))| >= LimitOf(h.base.limit)
                       || forall e :: e in all[|inside|..] ==> !Hits(h, e)
  {
    var all, p, limit := Matches(h.base, events), HitsOf(h), LimitOf(h.base.limit);
    assert Matches(h.base.(limit := 0), events) == all by {
      SameMatches(h.base, h.base.(limit := 0), events);
    }
    var inside := Take(all, DEFAULT_LIMIT);
    var later := all[|inside|..];
    assert inside == all[..|inside|];
    KeepSplits(all, |inside|, p);
    KeepsNoneExactly(later, p);
    TakeMore(Keep(inside, p), Keep(later, p), limit);
    assert HuntRows(h, events) == Rows(Take(Keep(inside, p), limit));
    assert WholeHunt(h, events) == Rows(Take(Keep(inside, p) + Keep(later, p), limit));
  }

  lemma TakeMore<T>(hits: seq<T>, more: seq<T>, limit: nat)
    requires limit > 0
    ensures Take(hits, limit) == Take(hits + more, limit) <==> |hits| >= limit || more == []
  {
    if |hits| >= limit {
      assert Take(hits, limit) == Take(hits + more, limit);
    } else if more == [] {
      assert hits + more == hits;
    } else {
      assert |Take(hits + more, limit)| > |hits|;
    }
  }

  lemma KeepsNoneExactly<T>(xs: seq<T>, p: T -> bool)
    ensures Keep(xs, p) == [] <==> forall x :: x in xs ==> !p(x)
  {
    KeepMembers(xs, p);
    if Keep(xs, p) != [] {
      assert Keep(xs, p)[0] in Keep(xs, p);
    }
  }

  lemma SameMatches(q: Filter, r: Filter, events: seq<TelemetryEvent>)
    requires r == q.(limit := r.limit)
    ensures Matches(q, events) == Matches(r, events)
  {
    var pq, pr := PassesOf(q), PassesOf(r);
    SameKeep(events, pq, pr);
  }

  lemma {:induction false} SameKeep<T(!new)>(xs: seq<T>, p: T -> bool, r: T -> bool)
    requires forall x :: p(x) == r(x)
    ensures Keep(xs, p) == Keep(xs, r)
  {
    if xs != [] {
      SameKeep(xs[..|xs| - 1], p, r);
    }
  }

  // At most 100 base matches are enough.
  lemma SmallHuntIsWhole(h: Hunt, events: seq<TelemetryEvent>)
    requires HuntRows(h, events).Rows? && |Matches(h.base, events)| <= DEFAULT_LIMIT
    ensures HuntRows(h, events) == WholeHunt(h, events)
  {
    HuntIsWhole(h, events);
  }

  // A hit behind 100 other base matches is not found, whatever limit was asked for.
  lemma HuntMisses(h: Hunt, events: seq<TelemetryEvent>, k: nat)
    requires HuntRows(h, events).Rows?
    requires var all := Matches(h.base, events);
             && DEFAULT_LIMIT <= k < |all| && Hits(h, all[k])
             && forall i :: 0 <= i < DEFAULT_LIMIT ==> !Hits(h, all[i])
    ensures HuntRows(h, events) == Rows([]) && WholeHunt(h, events) != Rows([])
  {
    var all, p := Matches(h.base, events), HitsOf(h);
    SameMatches(h.base, h.base.(limit := 0), events);
    KeepsNone(all[..DEFAULT_LIMIT], p);
    HuntIsWhole(h, events);
    assert all[DEFAULT_LIMIT..][k - DEFAULT_LIMIT] in all[DEFAULT_LIMIT..];
  }

  // ---------------------------------------------------------------------------
  // A hunt that misses
  // ---------------------------------------------------------------------------

  const ANY: Filter := Filter(ZERO_TIME, ZERO_TIME, "", "", None, "", "", map[], None, 0, false)
  const MALLORY: Hunt := Hunt(ANY, "mallory", "")

  // One event a second, and only the last of 101 is of the hunted principal.
  function Nth(i: nat): TelemetryEvent {
    TelemetryEvent(Decimal(i + 1), Some(i + 1), "source", "asset", "type", LOW,
                   if i == DEFAULT_LIMIT then map["auth.principal" := "mallory"] else map[])
  }

  function Crowd(): seq<TelemetryEvent> {
    seq(DEFAULT_LIMIT + 1, i requires 0 <= i => Nth(i))
  }

  lemma {:induction false} KeepsAll<T>(xs: seq<T>, p: T -> bool)
    requires forall x :: x in xs ==> p(x)
    ensures Keep(xs, p) == xs
  {
    if xs != [] {
      KeepsAll(xs[..|xs| - 1], p);
      assert xs == xs[..|xs| - 1] + [xs[|xs| - 1]];
    }
  }

  lemma {:induction false} SortedStays<T>(xs: seq<T>, le: (T, T) -> bool)
    requires Sorted(xs, le)
    ensures SortBy(xs, le) == xs
  {
    if xs != [] {
      SortedStays(xs[1..], le);
      assert |xs| > 1 ==> le(xs[0], xs[1]);
    }
  }

  lemma CrowdMatches()
    ensures Matches(ANY, Crowd()) == Crowd()
  {
    var le := OrderOf(false);
    KeepsAll(Crowd(), PassesOf(ANY));
    assert Sorted(Crowd(), le) by {
      assert forall i, j :: 0 <= i < j <= DEFAULT_LIMIT ==> TimeIdLe(Nth(i), Nth(j));
    }
    SortedStays(Crowd(), le);
  }

  lemma {:induction false} NoAttrs(keys: seq<string>)
    ensures CrossDomain.FirstAttr(map[], keys) == ""
  {
    if keys != [] {
      NoAttrs(keys[1..]);
    }
  }

  lemma CrowdHits(i: nat)
    requires i <= DEFAULT_LIMIT
    ensures Hits(MALLORY, Nth(i)) <==> i == DEFAULT_LIMIT
  {
    NoAttrs(CrossDomain.PRINCIPAL_KEYS);
    assert CrossDomain.PRINCIPAL_KEYS[0] == "auth.principal";
    assert Lower(Trim("")) == "";
  }

  lemma CrowdStands()
    ensures UniqueIds(Crowd()) && forall e :: e in Crowd() ==> ValidEvent(e)
  {
    CrowdUnique();
    CrowdValid();
  }

  lemma CrowdUnique()
    ensures UniqueIds(Crowd())
  {
    forall i, j | 0 <= i < j < |Crowd()| ensures Crowd()[i].id != Crowd()[j].id {
      OtherId(i, j);
    }
  }

  lemma OtherId(i: nat, j: nat)
    requires i < j
    ensures Nth(i).id != Nth(j).id
  {
    if Nth(i).id == Nth(j).id {
      DecimalInjective(i + 1, j + 1);
    }
  }

  lemma CrowdValid()
    ensures forall e :: e in Crowd() ==> ValidEvent(e)
  {
    forall i | 0 <= i < |Crowd()| ensures ValidEvent(Crowd()[i]) {
      NthValid(i);
    }
  }

  lemma NthValid(i: nat)
    ensures ValidEvent(Nth(i))
  {
    DecimalDigits(i + 1);
  }

  lemma CrowdFound()
    ensures HuntRows(MALLORY, Crowd()).Rows?
    ensures forall i :: 0 <= i < |Crowd()| ==> (Hits(MALLORY, Crowd()[i]) <==> i == DEFAULT_LIMIT)
  {
    CrowdStands();
    forall i | 0 <= i < |Crowd()| ensures Hits(MALLORY, Crowd()[i]) <==> i == DEFAULT_LIMIT {
      CrowdHits(i);
    }
  }

  /** It happens: 101 events, the last one a hit, and the hunt with the default limit answers nothing. */
  lemma HuntHappens()
    ensures UniqueIds(Crowd()) && forall e :: e in Crowd() ==> ValidEvent(e)
    ensures HuntRows(MALLORY, Crowd()) == Rows([]) && WholeHunt(MALLORY, Crowd()) != Rows([])
  {
    CrowdStands();
    CrowdMatches();
    CrowdFound();
    HuntMisses(MALLORY, Crowd(), DEFAULT_LIMIT);
  }

  // ---------------------------------------------------------------------------
  // What a hunt looks for, on the fields of an event
  // ---------------------------------------------------------------------------

  // The texts a keyword is looked for in.
  ghost predicate TextOf(e: TelemetryEvent, text: string) {
    || text == e.id || text == e.source || text == e.assetId || text == e.eventType
    || exists k :: k in e.attributes && text == e.attributes[k]
  }

  // The keyword stands in the text, whatever the case of either.
  ghost predicate Says(text: string, keyword: string) {
    exists a, b :: Lower(text) == a + keyword + b
  }

  /** An event is a hit exactly when it names the hunted principal and one of its texts says the keyword, where either may be
      left open. */
  lemma HitMeans(h: Hunt, e: TelemetryEvent)
    ensures Hits(h, e) <==>
              && (h.principal == "" || CrossDomain.NamesPrincipal(e.attributes, h.principal))
              && (Lower(Trim(h.keyword)) == "" || exists text :: TextOf(e, text) && Says(text, Lower(Trim(h.keyword))))
  {
    if h.principal != "" {
      CrossDomain.PrincipalMeans(e.attributes, h.principal);
    }
    KeywordMeans(e, Lower(Trim(h.keyword)));
  }

  lemma KeywordMeans(e: TelemetryEvent, keyword: string)
    ensures MatchesKeyword(e, keyword) <==> exists text :: TextOf(e, text) && Says(text, keyword)
  {
    forall text ensures Says(text, keyword) <==> Contains(Lower(text), keyword) {
      ContainsMeans(Lower(text), keyword);
    }
    if k :| k in e.attributes && Contains(Lower(e.attributes[k]), keyword) {
      assert TextOf(e, e.attributes[k]);
    }
    assert TextOf(e, e.id) && TextOf(e, e.source) && TextOf(e, e.assetId) && TextOf(e, e.eventType);
  }
}
