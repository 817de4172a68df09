/** When the keyed burst rules fire and what they report, on the events' own fields. */
module BurstReadings {
  import opened Base
  import opened Contract
  import opened Rule
  import opened Window
  import opened BurstRules

  // One evaluation of a rule: the event and the clock's reading.
  datatype Call = Call(event: TelemetryEvent, now: Time)

  function Play(b: Burst, calls: seq<Call>, window: int, threshold: int): Windows {
    if calls == [] then map[]
    else
      var last := calls[|calls| - 1];
      EvaluateStep(b, Play(b, calls[..|calls| - 1], window, threshold), last.event, last.now, window, threshold).0
  }

  // What the last call of a run answers.
  function Reply(b: Burst, calls: seq<Call>, window: int, threshold: int): Evaluation
    requires calls != []
  {
    var last := calls[|calls| - 1];
    EvaluateStep(b, Play(b, calls[..|calls| - 1], window, threshold), last.event, last.now, window, threshold).1
  }

  // The time of an event: the beginning of 1970 when it carries none.
  ghost function At(e: TelemetryEvent): int {
    match e.occurredAt
    case Some(t) => t
    case None => 62135596800_000_000_000
  }

  ghost predicate Concerns(b: Burst, e: TelemetryEvent) {
    e.eventType == match b { case Connections(_) => "net.connection" case Blocks => "waf.request_blocked" }
  }

  // The event counts under the key: it is of the rule's type, its time is set, and so is the clock.
  ghost predicate Counts(b: Burst, c: Call, key: string) {
    && Concerns(b, c.event) && c.now != 0 && At(c.event) != 0
    && (match b case Connections(source) => source(c.event) == Some(key) case Blocks => c.event.assetId == key)
  }

  // The events of a run that count under the key, in order.
  ghost function Own(b: Burst, calls: seq<Call>, key: string): seq<TelemetryEvent>
  {
    if calls == [] then []
    else if Counts(b, calls[|calls| - 1], key) then Own(b, calls[..|calls| - 1], key) + [calls[|calls| - 1].event]
    else Own(b, calls[..|calls| - 1], key)
  }

  // Event i has not been passed by more than the window, by any event since.
  ghost predicate Alive(own: seq<TelemetryEvent>, i: nat, window: int)
  {
    i < |own| && forall j :: i <= j < |own| ==> At(own[j]) - window <= At(own[i])
  }

  // The places of the alive events among the first n, in order.
  ghost function Places(own: seq<TelemetryEvent>, n: nat, window: int): seq<nat>
  {
    if n == 0 then []
    else if Alive(own, n - 1, window) then Places(own, n - 1, window) + [n - 1]
    else Places(own, n - 1, window)
  }

  lemma {:induction false} PlacesMean(own: seq<TelemetryEvent>, n: nat, window: int)
    ensures forall k, l :: 0 <= k < l < |Places(own, n, window)| ==> Places(own, n, window)[k] < Places(own, n, window)[l]
    ensures forall i: nat :: i in Places(own, n, window) <==> i < n && Alive(own, i, window)
  {
    if n > 0 {
      PlacesMean(own, n - 1, window);
      var front := Places(own, n - 1, window);
      assert forall k :: 0 <= k < |front| ==> front[k] in front;
    }
  }

  // Places in a sequence of events.
  predicate Within(own: seq<TelemetryEvent>, at: seq<nat>) {
    forall k :: 0 <= k < |at| ==> at[k] < |own|
  }

  function IdsAt(own: seq<TelemetryEvent>, at: seq<nat>): seq<string>
    requires Within(own, at)
  {
    seq(|at|, k requires 0 <= k < |at| => own[at[k]].id)
  }

  // A report over the events at these places: all their ids in order, and the gravest of their severities from 1 on.
  ghost predicate Reports(b: Burst, m: Outcome, key: string, own: seq<TelemetryEvent>, at: seq<nat>, window: int)
    requires Within(own, at)
  {
    && m.Match? && m.confidence == 0.0
    && m.title == m.detail == (if b.Blocks? then "Blocked burst" else "Connection burst")
    && multiset(m.eventIds) == multiset(IdsAt(own, at)) && Sorted(m.eventIds, StrLe)
    && m.severity >= 1 && (forall k :: 0 <= k < |at| ==> own[at[k]].severity <= m.severity)
    && (m.severity == 1 || exists k :: 0 <= k < |at| && own[at[k]].severity == m.severity)
    && m.attrs.Keys == (if b.Blocks? then {"threshold", "window", "count"} else {"threshold", "window", "count", "src"})
    && m.attrs["threshold"] == m.attrs["count"] == Decimal(|at|) && m.attrs["window"] == Decimal(window)
    && (b.Connections? ==> m.attrs["src"] == key)
  }

  // ---------------------------------------------------------------------------
  // From entries to events
  // ---------------------------------------------------------------------------

  function Entries(own: seq<TelemetryEvent>): seq<Entry> {
    seq(|own|, k requires 0 <= k < |own| => EntryOf(own[k]))
  }

  lemma StepCounts(b: Burst, ws: Windows, c: Call, key: string, window: int, threshold: int)
    ensures var r := EvaluateStep(b, ws, c.event, c.now, window, threshold);
            var w := Observe(WindowOf(ws, key), EntryOf(c.event), window, threshold);
            if Counts(b, c, key) then
              WindowOf(r.0, key) == w.0
              && r.1 == Evaluated(if w.1 then ReportOf(b, key, w.0.entries, threshold, window) else NoMatch)
            else WindowOf(r.0, key) == WindowOf(ws, key)
  {
  }

  lemma {:induction false} OwnWindow(b: Burst, calls: seq<Call>, key: string, window: int, threshold: int)
    ensures WindowOf(Play(b, calls, window, threshold), key) == RunWindow(Entries(Own(b, calls, key)), window, threshold)
  {
    if calls != [] {
      var before, last := calls[..|calls| - 1], calls[|calls| - 1];
      OwnWindow(b, before, key, window, threshold);
      StepCounts(b, Play(b, before, window, threshold), last, key, window, threshold);
      if Counts(b, last, key) {
        RunLonger(Own(b, before, key), last.event, window, threshold);
      }
    }
  }

  lemma RunLonger(past: seq<TelemetryEvent>, e: TelemetryEvent, window: int, threshold: int)
    ensures RunWindow(Entries(past + [e]), window, threshold)
         == Observe(RunWindow(Entries(past), window, threshold), EntryOf(e), window, threshold).0
  {
    var es := Entries(past + [e]);
    assert es[..|past|] == Entries(past) && es[|past|] == EntryOf(e);
  }

  lemma AliveSurvives(own: seq<TelemetryEvent>, i: nat, window: int)
    requires i < |own|
    ensures Alive(own, i, window) <==> Survives(Entries(own), i, window)
  {
    assert forall j :: 0 <= j < |own| ==> Entries(own)[j].at == At(own[j]);
  }

  function EntriesAt(own: seq<TelemetryEvent>, at: seq<nat>): seq<Entry>
    requires Within(own, at)
  {
    seq(|at|, k requires 0 <= k < |at| => EntryOf(own[at[k]]))
  }

  lemma {:induction false} SurvivorsAt(own: seq<TelemetryEvent>, n: nat, window: int)
    requires n <= |own|
    ensures Within(own, Places(own, n, window))
    ensures Survivors(Entries(own), n, window) == EntriesAt(own, Places(own, n, window))
  {
    PlacesMean(own, n, window);
    if n > 0 {
      SurvivorsAt(own, n - 1, window);
      AliveSurvives(own, n - 1, window);
    }
  }

  lemma {:induction false} IdsOfEntries(own: seq<TelemetryEvent>, at: seq<nat>)
    requires Within(own, at)
    ensures Ids(EntriesAt(own, at)) == IdsAt(own, at)
  {
  }

  // ---------------------------------------------------------------------------
  // When a rule fires, and what it reports
  // ---------------------------------------------------------------------------

  ghost predicate Malformed(b: Burst, c: Call) {
    Concerns(b, c.event) && forall key :: !Counts(b, c, key)
  }

  // An event of another type is passed over; one of the rule's type that counts under no key is an error.
  lemma BurstRefuses(b: Burst, calls: seq<Call>, window: int, threshold: int)
    requires calls != []
    ensures var c := calls[|calls| - 1];
            && (Reply(b, calls, window, threshold) == RuleError <==> Malformed(b, c))
            && (!Concerns(b, c.event) ==> Reply(b, calls, window, threshold) == Evaluated(NoMatch))
  {
    var c := calls[|calls| - 1];
    assert KeyUnder(b, c.event).Some? && EventTime(c.event) != 0 && Concerns(b, c.event) && c.now != 0 ==>
        Counts(b, c, KeyUnder(b, c.event).value);
  }

  lemma PeakReads(own: seq<TelemetryEvent>, at: seq<nat>)
    requires Within(own, at)
    ensures var peak := Peak(EntriesAt(own, at));
            && 1 <= peak && (forall k :: 0 <= k < |at| ==> own[at[k]].severity <= peak)
            && (peak == 1 || exists k :: 0 <= k < |at| && own[at[k]].severity == peak)
  {
    var entries := EntriesAt(own, at);
    PeakIsMaximum(entries);
    PeakAtLeast(entries);
    forall k | 0 <= k < |at| ensures own[at[k]].severity <= Peak(entries) {
      assert entries[k] in entries;
    }
    if Peak(entries) != 1 {
      var e :| e in entries && e.severity == Peak(entries);
      var k :| 0 <= k < |entries| && entries[k] == e;
      assert own[at[k]].severity == Peak(entries);
    }
  }

  lemma {:induction false} PeakAtLeast(entries: seq<Entry>)
    ensures 1 <= Peak(entries)
  {
    if entries != [] {
      PeakAtLeast(entries[..|entries| - 1]);
    }
  }

  lemma ReportReads(b: Burst, key: string, own: seq<TelemetryEvent>, at: seq<nat>, window: int, threshold: int)
    requires Within(own, at) && |at| == threshold
    ensures Reports(b, ReportOf(b, key, EntriesAt(own, at), threshold, window), key, own, at, window)
  {
    IdsOfEntries(own, at);
    StrLeIsOrder();
    SortByKeeps(IdsAt(own, at), StrLe);
    SortBySorts(IdsAt(own, at), StrLe);
    PeakReads(own, at);
  }

  lemma ReplyToOwn(b: Burst, calls: seq<Call>, key: string, window: int, threshold: int)
    requires ValidParams(window, threshold) && calls != [] && Counts(b, calls[|calls| - 1], key)
    ensures var es := Entries(Own(b, calls, key));
            && es != []
            && Reply(b, calls, window, threshold)
               == Evaluated(if FiresLast(es, window, threshold)
                            then ReportOf(b, key, Survivors(es, |es|, window), threshold, window) else NoMatch)
  {
    var front, last, own := calls[..|calls| - 1], calls[|calls| - 1], Own(b, calls, key);
    var past := Own(b, front, key);
    assert own[..|past|] == past;
    assert Entries(own)[..|past|] == Entries(past);
    OwnWindow(b, front, key, window, threshold);
    StepCounts(b, Play(b, front, window, threshold), last, key, window, threshold);
    WindowHistory(Entries(own), window, threshold);
  }

  /** Of the events counted under one key, those within the window of every event since are alive. The rule fires on an
      event exactly when it brings the alive ones from below the threshold up to it, and reports exactly those. */
  lemma BurstFires(b: Burst, calls: seq<Call>, key: string, window: int, threshold: int)
    requires ValidParams(window, threshold) && calls != [] && Counts(b, calls[|calls| - 1], key)
    ensures var own, reply := Own(b, calls, key), Reply(b, calls, window, threshold);
            var before, after := Places(own[..|own| - 1], |own| - 1, window), Places(own, |own|, window);
            && Within(own, after)
            && if |before| < threshold <= |after| then
                 |after| == threshold && reply.Evaluated? && Reports(b, reply.outcome, key, own, after, window)
               else reply == Evaluated(NoMatch)
  {
    var own := Own(b, calls, key);
    var past := own[..|own| - 1];
    assert Entries(own)[..|past|] == Entries(past);
    ReplyToOwn(b, calls, key, window, threshold);
    FiresOnRisingEdge(Entries(own), window, threshold);
    SurvivorsAt(past, |past|, window);
    SurvivorsAt(own, |own|, window);
    if |Places(past, |past|, window)| < threshold <= |Places(own, |own|, window)| {
      ReportReads(b, key, own, Places(own, |own|, window), window, threshold);
    }
  }
}
