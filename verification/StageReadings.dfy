/** Failure-then-change told in the attributes of events: what each of the two readers takes an event for, when the streaming
    rule fires, and what the batch correlates. */
module StageReadings {
  import opened Base
  import opened Contract
  import opened Text
  import opened FailureThenChange

  // ---------------------------------------------------------------------------
  // What the streaming rule reads
  // ---------------------------------------------------------------------------

  // A text attribute without outer white space.
  function Read(e: TelemetryEvent, key: string): string {
    if key in e.attributes then Trim(e.attributes[key]) else ""
  }

  // A failed log-in of p.
  predicate SaysFailure(e: TelemetryEvent, p: string) {
    && e.eventType == "auth.activity" && Lower(Read(e, "auth.outcome")) == "failure"
    && Read(e, "auth.principal") == p && p != "" && EventTime(e) != ZERO_TIME
  }

  // A privilege change of p: of its role or of a permission.
  predicate SaysChange(e: TelemetryEvent, p: string) {
    && e.eventType == "identity.activity"
    && (Lower(Read(e, "identity.action")) == "role_change" || Lower(Read(e, "identity.action")) == "permission_change")
    && Read(e, "identity.principal") == p && p != "" && EventTime(e) != ZERO_TIME
  }

  const OUTCOMES: set<string> := {"success", "failure", "denied", "challenged", "unknown"}
  const ACTIONS: set<string> := {"login", "logout", "role_change", "group_change", "account_create", "account_disable",
                                 "account_enable", "permission_change"}

  // An observation the rule refuses: without a principal, with an unknown outcome or action, or one that matters but has no
  // time.
  predicate Unreadable(e: TelemetryEvent) {
    || (e.eventType == "auth.activity"
        && (|| Read(e, "auth.principal") == "" || Lower(Read(e, "auth.outcome")) !in OUTCOMES
            || (Lower(Read(e, "auth.outcome")) == "failure" && EventTime(e) == ZERO_TIME)))
    || (e.eventType == "identity.activity"
        && (|| Read(e, "identity.principal") == "" || Lower(Read(e, "identity.action")) !in ACTIONS
            || (Lower(Read(e, "identity.action")) in {"role_change", "permission_change"} && EventTime(e) == ZERO_TIME)))
  }

  lemma EmptyReads()
    ensures Trim("") == "" && Lower("") == ""
  {
  }

  /** What the rule takes an event for. */
  lemma StageMeans(e: TelemetryEvent, p: string)
    ensures StageOf(e) == Failed(p) <==> SaysFailure(e, p)
    ensures StageOf(e) == Changed(p) <==> SaysChange(e, p)
    ensures StageOf(e) == Refused <==> Unreadable(e)
  {
    EmptyReads();
  }

  // ---------------------------------------------------------------------------
  // What the batch reads
  // ---------------------------------------------------------------------------

  predicate Stores(e: TelemetryEvent, key: string, text: string) {
    key in e.attributes && e.attributes[key] == text
  }

  predicate StoresFailure(e: TelemetryEvent, p: string) {
    e.eventType == "auth.activity" && Stores(e, "auth.outcome", "failure") && Stores(e, "auth.principal", p) && p != ""
  }

  predicate StoresChange(e: TelemetryEvent, p: string) {
    && e.eventType == "identity.activity"
    && (Stores(e, "identity.action", "role_change") || Stores(e, "identity.action", "permission_change"))
    && Stores(e, "identity.principal", p) && p != ""
  }

  /** What the batch takes an event for; it refuses none. */
  lemma RawStageMeans(e: TelemetryEvent, p: string)
    ensures RawStageOf(e) == Failed(p) <==> StoresFailure(e, p)
    ensures RawStageOf(e) == Changed(p) <==> StoresChange(e, p)
    ensures RawStageOf(e) != Refused
  {
  }

  // ---------------------------------------------------------------------------
  // When the streaming rule fires
  // ---------------------------------------------------------------------------

  // No later change of p in the stream is before event j or more than a window after it.
  ghost predicate InReach(es: seq<TelemetryEvent>, j: nat, p: string, window: int)
    requires j < |es|
  {
    forall i :: j < i < |es| && SaysChange(es[i], p) ==> 0 <= EventTime(es[i]) - EventTime(es[j]) <= window
  }

  // The ids of the failures of p among the first n events that are in reach of all later changes.
  ghost function Pending(es: seq<TelemetryEvent>, n: nat, p: string, window: int): seq<string>
    requires n <= |es|
  {
    if n == 0 then []
    else
      var earlier := Pending(es, n - 1, p, window);
      if SaysFailure(es[n - 1], p) && InReach(es, n - 1, p, window) then earlier + [es[n - 1].id] else earlier
  }

  ghost function PendingSet(es: seq<TelemetryEvent>, p: string, window: int): seq<string> {
    SortStrings(Pending(es, |es|, p, window))
  }

  // The last event changes a privilege of p, enough failures are pending, and they are not those last fired for.
  ghost predicate Fires(es: seq<TelemetryEvent>, p: string, window: int, threshold: int)
    decreases |es|, 0
  {
    && es != [] && SaysChange(es[|es| - 1], p) && |PendingSet(es, p, window)| >= threshold
    && Join(PendingSet(es, p, window), '\U{1F}') != Join(FiredFor(es[..|es| - 1], p, window, threshold), '\U{1F}')
  }

  ghost function FiredFor(es: seq<TelemetryEvent>, p: string, window: int, threshold: int): seq<string>
    decreases |es|, 1
  {
    if es == [] then []
    else if Fires(es, p, window, threshold) then PendingSet(es, p, window)
    else FiredFor(es[..|es| - 1], p, window, threshold)
  }

  lemma {:induction false} PendingIsLasting(es: seq<TelemetryEvent>, n: nat, p: string, window: int)
    requires n <= |es|
    ensures Pending(es, n, p, window) == FailureIds(Lasting(Sightings(es), n, p, window))
    decreases n
  {
    if n > 0 {
      PendingIsLasting(es, n - 1, p, window);
      PendingNext(es, n, p, window);
    }
  }

  lemma PendingNext(es: seq<TelemetryEvent>, n: nat, p: string, window: int)
    requires 0 < n <= |es| && Pending(es, n - 1, p, window) == FailureIds(Lasting(Sightings(es), n - 1, p, window))
    ensures Pending(es, n, p, window) == FailureIds(Lasting(Sightings(es), n, p, window))
  {
    var xs := Sightings(es);
    var earlier := Lasting(xs, n - 1, p, window);
    PendingMore(es, n - 1, p, window);
    if xs[n - 1].stage == Failed(p) && Lasts(xs, n - 1, p, window) {
      IdsMore(earlier, FailureAt(xs[n - 1]));
      assert Lasting(xs, n, p, window) == earlier + [FailureAt(xs[n - 1])];
    } else {
      assert Lasting(xs, n, p, window) == earlier;
    }
  }

  lemma PendingMore(es: seq<TelemetryEvent>, j: nat, p: string, window: int)
    requires j < |es|
    ensures SaysFailure(es[j], p) && InReach(es, j, p, window)
       <==> Sightings(es)[j].stage == Failed(p) && Lasts(Sightings(es), j, p, window)
  {
    StageMeans(es[j], p);
    ReachIsLasting(es, j, p, window);
  }

  lemma IdsMore(failures: seq<StageFailure>, f: StageFailure)
    ensures FailureIds(failures + [f]) == FailureIds(failures) + [f.id]
  {
  }

  lemma ReachIsLasting(es: seq<TelemetryEvent>, j: nat, p: string, window: int)
    requires j < |es|
    ensures InReach(es, j, p, window) <==> Lasts(Sightings(es), j, p, window)
  {
    var xs := Sightings(es);
    forall i | 0 <= i < |es| ensures xs[i].stage == Changed(p) <==> SaysChange(es[i], p) {
      StageMeans(es[i], p);
    }
  }

  lemma PendingIsKept(es: seq<TelemetryEvent>, p: string, window: int, threshold: int)
    ensures PendingSet(es, p, window) == KeptIds(Sightings(es), p, window, threshold)
  {
    PendingIsLasting(es, |es|, p, window);
    KeptFailures(Sightings(es), p, window, threshold);
  }

  lemma SightingsFront(es: seq<TelemetryEvent>)
    requires es != []
    ensures Sightings(es)[..|es| - 1] == Sightings(es[..|es| - 1])
    ensures Sightings(es)[|es| - 1] == SightingOf(es[|es| - 1])
  {
  }

  lemma {:induction false} FiredIsLastFired(es: seq<TelemetryEvent>, p: string, window: int, threshold: int)
    ensures FiredFor(es, p, window, threshold) == LastFired(Sightings(es), p, window, threshold)
    ensures Fires(es, p, window, threshold)
       <==> es != [] && StageOf(es[|es| - 1]) == Changed(p) && FiresLast(Sightings(es), window, threshold)
  {
    if es != [] {
      FiredIsLastFired(es[..|es| - 1], p, window, threshold);
      SightingsFront(es);
      StageMeans(es[|es| - 1], p);
      PendingIsKept(es, p, window, threshold);
      if SaysChange(es[|es| - 1], p) {
        FiresExactly(Sightings(es), p, window, threshold);
      }
    }
  }

  lemma FiresMeans(es: seq<TelemetryEvent>, e: TelemetryEvent, p: string, window: int, threshold: int)
    ensures var (after, fires) := StageStep(RunRule(Sightings(es), window, threshold), SightingOf(e), window, threshold);
            Fires(es + [e], p, window, threshold) <==> StageOf(e) == Changed(p) && fires
  {
    var all := es + [e];
    SightingsFront(all);
    assert all[..|all| - 1] == es;
    FiredIsLastFired(all, p, window, threshold);
  }

  /** After any stream of events, the rule answers the next with a match exactly when it is a privilege change of someone whose
      pending failures reach the threshold and do not join like those it last fired for. */
  lemma RuleFires(es: seq<TelemetryEvent>, e: TelemetryEvent, window: int, threshold: int)
    ensures StageStep(RunRule(Sightings(es), window, threshold), SightingOf(e), window, threshold).1
       <==> exists p :: Fires(es + [e], p, window, threshold)
  {
    forall p | Fires(es + [e], p, window, threshold) ensures StageOf(e) == Changed(p) {
      FiresMeans(es, e, p, window, threshold);
    }
    var fires := StageStep(RunRule(Sightings(es), window, threshold), SightingOf(e), window, threshold).1;
    if StageOf(e).Changed? {
      FiresMeans(es, e, StageOf(e).principal, window, threshold);
    }
    assert fires ==> StageOf(e).Changed?;
  }

  // ---------------------------------------------------------------------------
  // What the batch correlates
  // ---------------------------------------------------------------------------

  ghost function Batch(es: seq<TelemetryEvent>, window: int): Option<seq<Correlation>> {
    var changes := SortBy(ChangesIn(es), IdLe);
    if window <= 0 then None else FailureThenChange.Correlations(changes, |changes|, es, window)
  }

  predicate Precedes(f: TelemetryEvent, c: TelemetryEvent, window: int) {
    0 <= EventTime(c) - EventTime(f) <= window
  }

  // The ids of the stored failures of p up to a window before c, in the order supplied.
  function FailuresBefore(es: seq<TelemetryEvent>, p: string, c: TelemetryEvent, window: int): seq<string> {
    if es == [] then []
    else
      var front, f := es[..|es| - 1], es[|es| - 1];
      var earlier := FailuresBefore(front, p, c, window);
      if StoresFailure(f, p) && Precedes(f, c, window) then earlier + [f.id] else earlier
  }

  // A change, with some failure of its principal up to a window before it.
  ghost predicate Qualifies(es: seq<TelemetryEvent>, c: TelemetryEvent, window: int) {
    exists p, f :: StoresChange(c, p) && f in es && StoresFailure(f, p) && Precedes(f, c, window)
  }

  // A change or one of its principal's failures has no time.
  ghost predicate Timeless(es: seq<TelemetryEvent>, c: TelemetryEvent) {
    exists p :: StoresChange(c, p) && (c.occurredAt.None? || LacksTime(es, p))
  }

  ghost predicate LacksTime(es: seq<TelemetryEvent>, p: string) {
    exists f :: f in es && StoresFailure(f, p) && f.occurredAt.None?
  }

  ghost predicate Cites(r: Correlation, es: seq<TelemetryEvent>, c: TelemetryEvent, window: int) {
    && StoresChange(c, r.principal) && r.kind == "auth-to-identity-change" && r.assetId == ""
    && r.observedAt == EventTime(c)
    && r.eventIds == SortStrings([c.id] + FailuresBefore(es, r.principal, c, window))
    && r.id == CorrelationId(r.kind, r.eventIds)
  }

  lemma {:induction false} FailuresByMembers(es: seq<TelemetryEvent>, p: string)
    ensures forall f :: f in FailuresBy(es, p) <==> f in es && StoresFailure(f, p)
  {
    if es != [] {
      var last := es[|es| - 1];
      FailuresByMembers(es[..|es| - 1], p);
      RawStageMeans(last, p);
      assert forall f :: f in es <==> f in es[..|es| - 1] || f == last;
    }
  }

  lemma FailuresByMore(es: seq<TelemetryEvent>, p: string)
    requires es != []
    ensures var front, last := FailuresBy(es[..|es| - 1], p), es[|es| - 1];
            FailuresBy(es, p) == if StoresFailure(last, p) then front + [last] else front
  {
    RawStageMeans(es[|es| - 1], p);
    assert FailuresBy(es[..|es| - 1], p) + [] == FailuresBy(es[..|es| - 1], p);
  }

  lemma GatheredMore(fs: seq<TelemetryEvent>, f: TelemetryEvent, c: TelemetryEvent, window: int)
    ensures var earlier := Gathered(fs, EventTime(c), window);
            Gathered(fs + [f], EventTime(c), window)
              == if earlier.None? || f.occurredAt.None? then None
                 else if Precedes(f, c, window) then Some(earlier.value + [f.id]) else earlier
  {
    assert (fs + [f])[..|fs|] == fs;
  }

  lemma {:induction false} GatheredMeans(es: seq<TelemetryEvent>, p: string, c: TelemetryEvent, window: int)
    ensures Gathered(FailuresBy(es, p), EventTime(c), window)
         == if LacksTime(es, p) then None else Some(FailuresBefore(es, p, c, window))
  {
    if es != [] {
      GatheredMeans(es[..|es| - 1], p, c, window);
      FailuresByMore(es, p);
      LacksTimeMore(es, p);
      GatheredMore(FailuresBy(es[..|es| - 1], p), es[|es| - 1], c, window);
    }
  }

  lemma LacksTimeMore(es: seq<TelemetryEvent>, p: string)
    requires es != []
    ensures LacksTime(es, p) <==>
              LacksTime(es[..|es| - 1], p) || (StoresFailure(es[|es| - 1], p) && es[|es| - 1].occurredAt.None?)
  {
    assert forall f :: f in es <==> f in es[..|es| - 1] || f == es[|es| - 1];
  }

  lemma {:induction false} FailuresBeforeSome(es: seq<TelemetryEvent>, p: string, c: TelemetryEvent, window: int)
    ensures FailuresBefore(es, p, c, window) != []
       <==> exists f :: f in es && StoresFailure(f, p) && Precedes(f, c, window)
  {
    if es != [] {
      FailuresBeforeSome(es[..|es| - 1], p, c, window);
      assert forall f :: f in es <==> f in es[..|es| - 1] || f == es[|es| - 1];
    }
  }

  // What the batch makes of one event among the changes.
  lemma ChangeMeans(c: TelemetryEvent, es: seq<TelemetryEvent>, window: int)
    requires c.eventType == "identity.activity" && IsPrivilegeChange(Attr(c.attributes, "identity.action"))
    ensures FailureThenChange.CorrelationOf(c, es, window).None? <==> Timeless(es, c)
    ensures FailureThenChange.CorrelationOf(c, es, window).Some? ==>
              var rs := FailureThenChange.CorrelationOf(c, es, window).value;
              if Qualifies(es, c, window) then |rs| == 1 && Cites(rs[0], es, c, window) else rs == []
  {
    var p := Attr(c.attributes, "identity.principal");
    if p == "" {
      NoPrincipal(es, c, window);
    } else {
      assert StoresChange(c, p) && forall q :: StoresChange(c, q) ==> q == p;
      GatheredMeans(es, p, c, window);
      FailuresBeforeSome(es, p, c, window);
      if !LacksTime(es, p) {
        CitedIds(c.id, FailuresBefore(es, p, c, window));
      }
    }
  }

  lemma NoPrincipal(es: seq<TelemetryEvent>, c: TelemetryEvent, window: int)
    requires Attr(c.attributes, "identity.principal") == ""
    ensures !Timeless(es, c) && !Qualifies(es, c, window)
  {
    assert forall p :: !StoresChange(c, p);
  }

  lemma CitedIds(id: string, ids: seq<string>)
    ensures SortStrings(SortStrings([id] + ids)) == SortStrings([id] + ids)
    ensures |[id] + ids| < 2 <==> ids == []
  {
    StrLeIsOrder();
    SortBySorts([id] + ids, StrLe);
    SortStringsPermuted(SortStrings([id] + ids), [id] + ids);
  }

  // The changes among the first n for which something is reported.
  ghost function Chosen(changes: seq<TelemetryEvent>, n: nat, es: seq<TelemetryEvent>, window: int): seq<TelemetryEvent>
    requires n <= |changes|
  {
    if n == 0 then []
    else
      var earlier := Chosen(changes, n - 1, es, window);
      if Qualifies(es, changes[n - 1], window) then earlier + [changes[n - 1]] else earlier
  }

  ghost predicate AllChanges(changes: seq<TelemetryEvent>) {
    forall c :: c in changes ==> c.eventType == "identity.activity" && IsPrivilegeChange(Attr(c.attributes, "identity.action"))
  }

  ghost predicate AllCited(rs: seq<Correlation>, es: seq<TelemetryEvent>, cs: seq<TelemetryEvent>, window: int) {
    |rs| == |cs| && forall i :: 0 <= i < |rs| ==> Cites(rs[i], es, cs[i], window)
  }

  ghost predicate AnyTimeless(es: seq<TelemetryEvent>, changes: seq<TelemetryEvent>, n: nat)
    requires n <= |changes|
  {
    exists i :: 0 <= i < n && Timeless(es, changes[i])
  }

  lemma {:induction false} CorrelationsFail(changes: seq<TelemetryEvent>, n: nat, es: seq<TelemetryEvent>, window: int)
    requires n <= |changes| && AllChanges(changes)
    ensures FailureThenChange.Correlations(changes, n, es, window).None? <==> AnyTimeless(es, changes, n)
    decreases n
  {
    if n > 0 {
      CorrelationsFail(changes, n - 1, es, window);
      FailMore(changes, n, es, window);
      AnyMore(es, changes, n);
    }
  }

  lemma FailMore(changes: seq<TelemetryEvent>, n: nat, es: seq<TelemetryEvent>, window: int)
    requires 0 < n <= |changes| && AllChanges(changes)
    ensures FailureThenChange.Correlations(changes, n, es, window).None?
       <==> FailureThenChange.Correlations(changes, n - 1, es, window).None? || Timeless(es, changes[n - 1])
  {
    ChangeMeans(changes[n - 1], es, window);
  }

  lemma AnyMore(es: seq<TelemetryEvent>, changes: seq<TelemetryEvent>, n: nat)
    requires 0 < n <= |changes|
    ensures AnyTimeless(es, changes, n) <==> AnyTimeless(es, changes, n - 1) || Timeless(es, changes[n - 1])
  {
  }

  lemma CitedMore(rs: seq<Correlation>, r: Correlation, es: seq<TelemetryEvent>, cs: seq<TelemetryEvent>,
                  c: TelemetryEvent, window: int)
    requires AllCited(rs, es, cs, window) && Cites(r, es, c, window)
    ensures AllCited(rs + [r], es, cs + [c], window)
  {
  }

  lemma {:induction false} CorrelationsCite(changes: seq<TelemetryEvent>, n: nat, es: seq<TelemetryEvent>, window: int)
    requires n <= |changes| && AllChanges(changes)
    requires FailureThenChange.Correlations(changes, n, es, window).Some?
    ensures AllCited(FailureThenChange.Correlations(changes, n, es, window).value, es, Chosen(changes, n, es, window),
                     window)
    decreases n
  {
    if n > 0 {
      var c := changes[n - 1];
      CorrelationsCite(changes, n - 1, es, window);
      ChangeMeans(c, es, window);
      var rs := FailureThenChange.Correlations(changes, n - 1, es, window).value;
      var more := FailureThenChange.CorrelationOf(c, es, window).value;
      if Qualifies(es, c, window) {
        assert more == [more[0]];
        CitedMore(rs, more[0], es, Chosen(changes, n - 1, es, window), c, window);
      } else {
        assert rs + more == rs;
      }
    }
  }

  lemma {:induction false} ChosenCounts(changes: seq<TelemetryEvent>, n: nat, es: seq<TelemetryEvent>, window: int)
    requires n <= |changes|
    ensures forall x :: multiset(Chosen(changes, n, es, window))[x]
                     == if Qualifies(es, x, window) then multiset(changes[..n])[x] else 0
    ensures forall x :: x in Chosen(changes, n, es, window) ==> x in changes[..n]
    decreases n
  {
    if n > 0 {
      ChosenCounts(changes, n - 1, es, window);
      assert changes[..n] == changes[..n - 1] + [changes[n - 1]];
    }
  }

  ghost predicate InIdOrder(cs: seq<TelemetryEvent>) {
    forall i, j :: 0 <= i < j < |cs| ==> StrLe(cs[i].id, cs[j].id)
  }

  lemma {:induction false} ChosenOrdered(changes: seq<TelemetryEvent>, n: nat, es: seq<TelemetryEvent>, window: int)
    requires n <= |changes| && InIdOrder(changes)
    ensures InIdOrder(Chosen(changes, n, es, window))
    decreases n
  {
    if n > 0 {
      ChosenOrdered(changes, n - 1, es, window);
      ChosenCounts(changes, n - 1, es, window);
      var earlier := Chosen(changes, n - 1, es, window);
      forall i | 0 <= i < |earlier| ensures StrLe(earlier[i].id, changes[n - 1].id) {
        assert earlier[i] in changes[..n - 1];
        var m :| 0 <= m < n - 1 && changes[..n - 1][m] == earlier[i];
        assert changes[m] == earlier[i];
      }
    }
  }

  lemma {:induction false} ChangesInCounts(es: seq<TelemetryEvent>)
    ensures AllChanges(ChangesIn(es))
    ensures forall c, p :: StoresChange(c, p) ==> multiset(ChangesIn(es))[c] == multiset(es)[c]
    ensures forall c :: c in ChangesIn(es) ==> c in es
  {
    if es != [] {
      var front, last := es[..|es| - 1], es[|es| - 1];
      ChangesInCounts(front);
      assert es == front + [last];
      assert ChangesIn(front) + [] == ChangesIn(front);
    }
  }

  lemma IdLeIsOrder()
    ensures TotalPreorder(IdLe)
  {
    StrLeIsOrder();
  }

  /** What the batch reports. It fails exactly on a window that is not positive or when a change, or a failure of a change's
      principal, has no time. Else there is one correlation for each change with failures of its principal up to a window
      before it, in the order of the changes' ids, and it cites the change and exactly those failures. */
  lemma BatchMeans(es: seq<TelemetryEvent>, window: int) returns (cs: seq<TelemetryEvent>)
    ensures Batch(es, window).None? <==> window <= 0 || exists c :: c in es && Timeless(es, c)
    ensures forall c :: multiset(cs)[c] == if Qualifies(es, c, window) then multiset(es)[c] else 0
    ensures InIdOrder(cs)
    ensures Batch(es, window).Some? ==> AllCited(Batch(es, window).value, es, cs, window)
  {
    var found := ChangesIn(es);
    var changes := SortBy(found, IdLe);
    IdLeIsOrder();
    SortBySorts(found, IdLe);
    MembersOfPermutation(changes, found);
    ChangesInCounts(es);
    assert changes[..|changes|] == changes;
    cs := Chosen(changes, |changes|, es, window);
    ChosenCounts(changes, |changes|, es, window);
    ChosenOrdered(changes, |changes|, es, window);
    CorrelationsFail(changes, |changes|, es, window);
    TimelessAmong(es, changes);
    if Batch(es, window).Some? {
      CorrelationsCite(changes, |changes|, es, window);
    }
  }

  lemma TimelessAmong(es: seq<TelemetryEvent>, changes: seq<TelemetryEvent>)
    requires multiset(changes) == multiset(ChangesIn(es))
    ensures (exists c :: c in es && Timeless(es, c)) <==> AnyTimeless(es, changes, |changes|)
  {
    ChangesInCounts(es);
    MembersOfPermutation(changes, ChangesIn(es));
    if c :| c in es && Timeless(es, c) {
      assert multiset(ChangesIn(es))[c] == multiset(es)[c] > 0;
      assert c in changes;
      var i :| 0 <= i < |changes| && changes[i] == c;
    }
    if i :| 0 <= i < |changes| && Timeless(es, changes[i]) {
      assert changes[i] in changes;
    }
  }
}
