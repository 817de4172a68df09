/** Batch bursts over recorded rule errors: a head-popping loop that agrees with the streaming window. */
module ErrorBursts {
  import opened Base
  import opened Contract
  import opened Window

  datatype ErrorEvent = ErrorEvent(ruleId: string, eventId: string, at: Time, severity: Severity, err: string)

  function EntryOf(e: ErrorEvent): Entry {
    Entry(e.at, e.eventId, e.severity)
  }

  function Entries(errs: seq<ErrorEvent>): seq<Entry> {
    seq(|errs|, i requires 0 <= i < |errs| => EntryOf(errs[i]))
  }

  predicate TimeIdLe(a: ErrorEvent, b: ErrorEvent) {
    a.at < b.at || (a.at == b.at && StrLe(a.eventId, b.eventId))
  }

  predicate IdLe(a: ErrorEvent, b: ErrorEvent) {
    StrLe(a.eventId, b.eventId)
  }

  function OfRule(errs: seq<ErrorEvent>, ruleId: string): seq<ErrorEvent> {
    if errs == [] then []
    else
      var last := errs[|errs| - 1];
      OfRule(errs[..|errs| - 1], ruleId) + if last.ruleId == ruleId then [last] else []
  }

  // The last recorded event under each id.
  function ById(errs: seq<ErrorEvent>): map<string, ErrorEvent> {
    if errs == [] then map[] else ById(errs[..|errs| - 1])[errs[|errs| - 1].eventId := errs[|errs| - 1]]
  }

  function Resolve(entries: seq<Entry>, byId: map<string, ErrorEvent>): seq<ErrorEvent> {
    if entries == [] then []
    else
      var last := entries[|entries| - 1];
      Resolve(entries[..|entries| - 1], byId) + if last.id in byId then [byId[last.id]] else []
  }

  // The streaming window's contents at each of its first n events that fires, resolved and sorted by id.
  function StreamBursts(mine: seq<ErrorEvent>, n: nat, window: int, threshold: int): seq<seq<ErrorEvent>>
    requires n <= |mine|
  {
    if n == 0 then []
    else
      var es := Entries(mine[..n]);
      StreamBursts(mine, n - 1, window, threshold)
      + if FiresLast(es, window, threshold)
        then [SortBy(Resolve(RunWindow(es, window, threshold).entries, ById(mine)), IdLe)] else []
  }

  lemma TimeIdLeIsOrder()
    ensures TotalPreorder(TimeIdLe)
  {
    StrLeIsOrder();
  }

  lemma SortedEntries(errs: seq<ErrorEvent>)
    ensures InTimeOrder(Entries(SortBy(errs, TimeIdLe)))
  {
    TimeIdLeIsOrder();
    SortBySorts(errs, TimeIdLe);
    var mine := SortBy(errs, TimeIdLe);
    forall i, j | 0 <= i <= j < |mine| ensures mine[i].at <= mine[j].at {
      assert i < j ==> TimeIdLe(mine[i], mine[j]);
    }
  }

  // On entries in time order, dropping stale heads is the filter.
  lemma {:induction false} PopStep(entries: seq<Entry>, cutoff: Time)
    requires entries != [] && InTimeOrder(entries)
    ensures entries[0].at < cutoff ==> Kept(entries, cutoff) == Kept(entries[1..], cutoff)
    ensures entries[0].at >= cutoff ==> Kept(entries, cutoff) == entries
  {
    if |entries| > 1 {
      var n := |entries| - 1;
      PopStep(entries[..n], cutoff);
      assert entries[..n][1..] == entries[1..][..n - 1];
      assert entries[1..][n - 1] == entries[n];
    }
  }

  lemma {:induction false} KeptSubset(entries: seq<Entry>, cutoff: Time)
    ensures forall e :: e in Kept(entries, cutoff) ==> e in entries
    ensures InTimeOrder(entries) ==> InTimeOrder(Kept(entries, cutoff))
  {
    if entries != [] {
      var front, last := entries[..|entries| - 1], entries[|entries| - 1];
      KeptSubset(front, cutoff);
      if InTimeOrder(entries) {
        forall e | e in Kept(front, cutoff) ensures e.at <= last.at {
          assert e in front;
        }
      }
    }
  }

  lemma {:induction false} WindowFromStream(es: seq<Entry>, window: int, threshold: int)
    ensures forall e :: e in RunWindow(es, window, threshold).entries ==> e in es
    ensures InTimeOrder(es) ==> InTimeOrder(RunWindow(es, window, threshold).entries)
  {
    if es != [] {
      var before, last := es[..|es| - 1], es[|es| - 1];
      WindowFromStream(before, window, threshold);
      var held := RunWindow(before, window, threshold).entries;
      KeptSubset(held, last.at - window);
      if InTimeOrder(es) {
        forall e | e in Kept(held, last.at - window) ensures e.at <= last.at {
          assert e in before;
        }
      }
    }
  }

  lemma TailInOrder(entries: seq<Entry>)
    requires entries != [] && InTimeOrder(entries)
    ensures InTimeOrder(entries[1..])
  {
  }

  // One more error in time order is one more observation.
  lemma OneMoreError(mine: seq<ErrorEvent>, i: nat, window: int, threshold: int)
    requires i < |mine| && InTimeOrder(Entries(mine))
    ensures InTimeOrder(RunWindow(Entries(mine[..i]), window, threshold).entries)
    ensures (RunWindow(Entries(mine[..i + 1]), window, threshold), FiresLast(Entries(mine[..i + 1]), window, threshold))
         == Observe(RunWindow(Entries(mine[..i]), window, threshold), EntryOf(mine[i]), window, threshold)
  {
    var es := Entries(mine[..i]);
    assert es == Entries(mine)[..i];
    assert Entries(mine[..i + 1]) == es + [EntryOf(mine[i])];
    WindowFromStream(es, window, threshold);
    RunWindowAppend(es, EntryOf(mine[i]), window, threshold);
  }

  // Drops entries from the head while they are older than the window; on ordered entries this is the filter.
  method PopStale(held: seq<Entry>, at: Time, window: int) returns (entries: seq<Entry>)
    requires InTimeOrder(held)
    ensures entries == Kept(held, at - window)
  {
    entries := held;
    while |entries| > 0 && at - entries[0].at > window
      invariant InTimeOrder(entries)
      invariant Kept(entries, at - window) == Kept(held, at - window)
    {
      PopStep(entries, at - window);
      TailInOrder(entries);
      entries := entries[1..];
    }
    if entries != [] {
      PopStep(entries, at - window);
    }
  }

  // One turn of the batch loop is one observation.
  method Advance(held: seq<Entry>, wasFired: bool, e: Entry, window: int, threshold: int)
    returns (entries: seq<Entry>, fired: bool, reached: bool)
    requires InTimeOrder(held)
    ensures (WindowState(entries, fired), reached) == Observe(WindowState(held, wasFired), e, window, threshold)
  {
    fired := wasFired;
    entries := PopStale(held, e.at, window);
    entries := entries + [e];
    if |entries| < threshold {
      return entries, false, false;
    }
    if fired {
      return entries, true, false;
    }
    return entries, true, true;
  }

  method CollectOfRule(errs: seq<ErrorEvent>, ruleId: string) returns (mine: seq<ErrorEvent>)
    ensures mine == OfRule(errs, ruleId)
  {
    mine := [];
    for i := 0 to |errs|
      invariant mine == OfRule(errs[..i], ruleId)
    {
      assert errs[..i + 1][..i] == errs[..i];
      if errs[i].ruleId == ruleId {
        mine := mine + [errs[i]];
      }
    }
    assert errs[..|errs|] == errs;
  }

  method ComputeErrorBursts(errs: seq<ErrorEvent>, ruleId: string, threshold: int, window: int)
    returns (bursts: seq<seq<ErrorEvent>>)
    ensures var mine := SortBy(OfRule(errs, ruleId), TimeIdLe);
            bursts == StreamBursts(mine, |mine|, window, threshold)
  {
    var mine := CollectOfRule(errs, ruleId);
    SortedEntries(mine);
    mine := SortBy(mine, TimeIdLe);
    bursts := [];
    var entries: seq<Entry>, fired := [], false;
    for i := 0 to |mine|
      invariant WindowState(entries, fired) == RunWindow(Entries(mine[..i]), window, threshold)
      invariant bursts == StreamBursts(mine, i, window, threshold)
    {
      OneMoreError(mine, i, window, threshold);
      var reached;
      entries, fired, reached := Advance(entries, fired, EntryOf(mine[i]), window, threshold);
      if reached {
        var burst := Burst(mine, entries);
        bursts := bursts + [burst];
      }
    }
    assert mine[..|mine|] == mine;
  }

  lemma RunWindowAppend(es: seq<Entry>, e: Entry, window: int, threshold: int)
    ensures (RunWindow(es + [e], window, threshold), FiresLast(es + [e], window, threshold))
         == Observe(RunWindow(es, window, threshold), e, window, threshold)
  {
    assert (es + [e])[..|es|] == es;
  }

  method Burst(mine: seq<ErrorEvent>, entries: seq<Entry>) returns (burst: seq<ErrorEvent>)
    ensures burst == SortBy(Resolve(entries, ById(mine)), IdLe)
  {
    var byId := map[];
    for j := 0 to |mine|
      invariant byId == ById(mine[..j])
    {
      assert mine[..j + 1][..j] == mine[..j];
      byId := byId[mine[j].eventId := mine[j]];
    }
    assert mine[..|mine|] == mine;
    burst := [];
    for j := 0 to |entries|
      invariant burst == Resolve(entries[..j], byId)
    {
      assert entries[..j + 1][..j] == entries[..j];
      if entries[j].id in byId {
        burst := burst + [byId[entries[j].id]];
      }
    }
    assert entries[..|entries|] == entries;
    burst := SortBy(burst, IdLe);
  }

  ghost predicate DistinctIds(errs: seq<ErrorEvent>) {
    forall i, j :: 0 <= i < j < |errs| ==> errs[i].eventId != errs[j].eventId
  }

  lemma {:induction false} ByIdFinds(errs: seq<ErrorEvent>)
    requires DistinctIds(errs)
    ensures forall e :: e in errs ==> e.eventId in ById(errs) && ById(errs)[e.eventId] == e
  {
    if errs != [] {
      ByIdFinds(errs[..|errs| - 1]);
    }
  }

  // With distinct ids a burst is made of the very events whose entries the firing window holds.
  lemma {:induction false} ResolveFaithful(entries: seq<Entry>, mine: seq<ErrorEvent>)
    requires DistinctIds(mine)
    requires forall e :: e in entries ==> e in Entries(mine)
    ensures Entries(Resolve(entries, ById(mine))) == entries
    ensures forall e :: e in Resolve(entries, ById(mine)) ==> e in mine
  {
    if entries != [] {
      var n := |entries| - 1;
      ResolveFaithful(entries[..n], mine);
      ByIdFinds(mine);
      assert entries[n] in Entries(mine);
      var k :| 0 <= k < |mine| && Entries(mine)[k] == entries[n];
      assert mine[k] in mine && ById(mine)[mine[k].eventId] == mine[k];
      var front := Resolve(entries[..n], ById(mine));
      assert Entries(front + [mine[k]]) == Entries(front) + [entries[n]];
    }
  }

  lemma BurstsAreWindows(mine: seq<ErrorEvent>, n: nat, window: int, threshold: int)
    requires DistinctIds(mine) && n <= |mine|
    ensures var held := RunWindow(Entries(mine[..n]), window, threshold).entries;
            Entries(Resolve(held, ById(mine))) == held
  {
    WindowFromStream(Entries(mine[..n]), window, threshold);
    var held := RunWindow(Entries(mine[..n]), window, threshold).entries;
    forall e | e in held ensures e in Entries(mine) {
      assert e in Entries(mine[..n]);
      var k :| 0 <= k < n && Entries(mine[..n])[k] == e;
      assert Entries(mine)[k] == e;
    }
    ResolveFaithful(held, mine);
  }

  lemma {:induction false} OfRuleMultiset(errs: seq<ErrorEvent>, ruleId: string, e: ErrorEvent)
    ensures multiset(OfRule(errs, ruleId))[e] == if e.ruleId == ruleId then multiset(errs)[e] else 0
  {
    if errs != [] {
      OfRuleMultiset(errs[..|errs| - 1], ruleId, e);
      assert errs == errs[..|errs| - 1] + [errs[|errs| - 1]];
    }
  }

  // The bursts of a set of recorded errors do not depend on the order they were recorded in.
  lemma BurstsIgnoreOrder(a: seq<ErrorEvent>, b: seq<ErrorEvent>, ruleId: string)
    requires multiset(a) == multiset(b)
    requires forall x, y :: x in a && y in a && x.eventId == y.eventId ==> x == y
    ensures SortBy(OfRule(a, ruleId), TimeIdLe) == SortBy(OfRule(b, ruleId), TimeIdLe)
  {
    forall e ensures multiset(OfRule(a, ruleId))[e] == multiset(OfRule(b, ruleId))[e] {
      OfRuleMultiset(a, ruleId, e);
      OfRuleMultiset(b, ruleId, e);
    }
    TimeIdLeIsOrder();
    StrLeIsOrder();
    forall x | x in OfRule(a, ruleId) ensures x in a {
      OfRuleMultiset(a, ruleId, x);
      assert x in multiset(OfRule(a, ruleId));
      assert x in multiset(a);
    }
    SortByPermuted(OfRule(a, ruleId), OfRule(b, ruleId), TimeIdLe);
  }

  // Only the errors of the rule are looked at, each as often as it was recorded.
  lemma {:induction false} OfRuleMeans(errs: seq<ErrorEvent>, ruleId: string)
    ensures forall e :: multiset(OfRule(errs, ruleId))[e] == if e.ruleId == ruleId then multiset(errs)[e] else 0
  {
    if errs != [] {
      var front, last := errs[..|errs| - 1], errs[|errs| - 1];
      OfRuleMeans(front, ruleId);
      assert errs == front + [last];
      assert OfRule(front, ruleId) + [] == OfRule(front, ruleId);
    }
  }
}
