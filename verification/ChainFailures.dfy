/** What a failed emission leaves behind: when it changes nothing, which of its alerts end up in no incident, and that
    those never get into one. */
module ChainFailures {
  import opened Base
  import opened Contract
  import opened Rule
  import opened Evidences
  import opened Chain
  import D = DetectEngine
  import I = Incidents

  // The engine's answer to the emitted event.
  function Answered(c: Chain, input: Input): D.ProcessResult {
    D.ProcessStep(c.world.engine, c.world.rules, c.world.disabled, input.event, input.now, input.answers).result
  }

  ghost predicate Untouched(c: Chain, c': Chain) {
    c'.stored == c.stored && c'.book == c.book && c'.evidence == c.evidence && c'.archive == c.archive
  }

  /** A failed emission leaves the stored pairs, incidents, evidence and archive alone exactly when the engine aborted or
      returned no detection. The engine's own seen set and statistics are not meant: it may have changed them already. */
  lemma AtomicFailure(c: Chain, input: Input, render: Rendering)
    requires EmitStep(c, input, render).error.Some?
    ensures var r := Answered(c, input);
            Untouched(c, EmitStep(c, input, render).chain) <==> r.Aborted? || r.detections == []
  {
    D.ProcessDelivers(c.world, input.event, input.now, input.answers);
    var r := Answered(c, input);
    if r.Processed? {
      assert |D.Zip(r.detections, r.alerts)| == |r.detections|;
    }
  }

  // Such failures happen: one rule, one match, and the manager's clock at zero.
  const RULE: RuleInfo := RuleInfo("rule", "1", "name")
  const EVENT: TelemetryEvent := TelemetryEvent("event", Some(1), "source", "asset", "type", LOW, map[])
  const OUTCOME: Outcome := Match(LOW, 0.0, "title", "detail", ["event"], map[])

  ghost function Watching(): Chain {
    START.(world := D.World(D.EMPTY, [RULE], {}))
  }

  function Timeless(): Input {
    Input(EVENT, 1, id => Evaluated(OUTCOME), i => ZERO_TIME)
  }

  lemma OutcomeBuilds()
    ensures D.BuildDetection(RULE, OUTCOME, 1).Some?
  {
    assert ["event"][1..] == [] && SortStrings(["event"]) == ["event"];
  }

  lemma WatchingMatches()
    ensures var ev := D.EvaluateRules(map[], [RULE], {}, EVENT, 1, Timeless().answers);
            ev.matches == Some([D.Matched(RULE, OUTCOME)])
  {
    var none := D.EvaluateRules(map[], [], {}, EVENT, 1, Timeless().answers);
    assert none == D.Evaluating(map[], Some([]));
    assert [RULE][..0] == [] && [] + [D.Matched(RULE, OUTCOME)] == [D.Matched(RULE, OUTCOME)];
    assert D.EvaluateRules(map[], [RULE], {}, EVENT, 1, Timeless().answers)
        == D.EvaluateOne(none, RULE, {}, EVENT, 1, Timeless().answers);
  }

  lemma OneMatchEmits(s: D.EngineState)
    requires s.seen == {}
    ensures var r := D.EmitMatches(s, [D.Matched(RULE, OUTCOME)], 1).result; r.Processed? && r.detections != []
  {
    var m := D.Matched(RULE, OUTCOME);
    OutcomeBuilds();
    D.AlertFollows(RULE, OUTCOME, 1);
    assert [m][..0] == [] && D.EmitMatches(s, [], 1) == D.Emitting(s, D.Processed([], [], 0));
    assert D.EmitMatches(s, [m], 1) == D.EmitOne(D.EmitMatches(s, [], 1), m, 1);
  }

  lemma WatchingDetects()
    ensures Answered(Watching(), Timeless()).Processed? && Answered(Watching(), Timeless()).detections != []
  {
    WatchingMatches();
    var ev := D.EvaluateRules(map[], [RULE], {}, EVENT, 1, Timeless().answers);
    OneMatchEmits(D.EMPTY.(stats := ev.stats));
  }

  lemma WatchingFails(render: Rendering)
    ensures Run([Register(RULE)], render) == Emission(Watching(), None)
    ensures EmitStep(Watching(), Timeless(), render).error == Some(ErrIncident)
    ensures !Untouched(Watching(), EmitStep(Watching(), Timeless(), render).chain)
  {
    WatchingDetects();
    assert [Register(RULE)][..0] == [];
    var pairs := ProcessedForm(Watching(), Timeless(), render);
    assert UniqueIds([] + [EVENT]);
    FilingFirstFails(pairs, [] + [EVENT], Timeless().clock, render);
    AtomicFailure(Watching(), Timeless(), render);
  }

  lemma {:induction false} FilingFirstFails(pairs: seq<D.Pair>, snapshot: seq<TelemetryEvent>, clock: nat -> Time,
                                            render: Rendering)
    requires pairs != [] && clock(0) == ZERO_TIME
    ensures FileAll(Filing(START.book, START.evidence, None), pairs, snapshot, clock, render).error
         == Some(ErrIncident)
  {
    var was := Filing(START.book, START.evidence, None);
    assert pairs[..1][..0] == [] && pairs[..1][0] == pairs[0];
    assert FileAll(was, [], snapshot, clock, render) == was;
    assert FileAll(was, pairs[..1], snapshot, clock, render) == FileOne(was, pairs[0], snapshot, clock(0), render);
    ErrorStays(was, pairs, 1, snapshot, clock, render);
  }

  // ---------------------------------------------------------------------------
  // Why filing one pair fails
  // ---------------------------------------------------------------------------

  // Everything evidence needs to record is there.
  predicate Writable(p: D.Pair, snapshot: seq<TelemetryEvent>, render: Rendering)
    requires Gather(snapshot, p.det.eventIds).Some?
  {
    && (forall e | e in Gather(snapshot, p.det.eventIds).value :: ValidEvent(e))
    && (forall d | d in Drafts(p.alert, p.det, snapshot, render) :: WritableDraft(d))
  }

  predicate WritableDraft(d: Draft) {
    d.content.Some? && d.content.value != "" && d.source != "" && d.kind != "" && d.refId != ""
  }

  // An unarchived event or a clock at zero refuses the incident; what cannot be written refuses the evidence.
  function FilingError(p: D.Pair, snapshot: seq<TelemetryEvent>, now: Time, render: Rendering): Option<Error> {
    if Gather(snapshot, p.det.eventIds).None? || now == ZERO_TIME then Some(ErrIncident)
    else if !Writable(p, snapshot, render) then Some(ErrEvidence)
    else None
  }

  lemma AlignedAcceptable(p: D.Pair, snapshot: seq<TelemetryEvent>, now: Time)
    requires AlignedPair(p) && Gather(snapshot, p.det.eventIds).Some?
    ensures I.Acceptable(TripleOf(p, snapshot), now) <==> now != ZERO_TIME
  {
    GatherFacts(snapshot, p.det.eventIds);
    var events := Gather(snapshot, p.det.eventIds).value;
    forall id | id in p.det.eventIds ensures exists e :: e in events && e.id == id {
      FindGathered(snapshot, p.det.eventIds, id);
      FindEventFinds(events, id);
    }
  }

  lemma ItemOutcome(incidentId: string, d: Draft, at: Time)
    requires incidentId != "" && at != ZERO_TIME && LOG_EXCERPT <= d.evidenceType <= NOTE
    ensures NewItem(incidentId, d, at).Some? <==> WritableDraft(d)
  {
  }

  lemma DraftTypes(p: D.Pair, events: seq<TelemetryEvent>, render: Rendering)
    ensures forall d :: d in Drafts(p.alert, p.det, events, render) ==> LOG_EXCERPT <= d.evidenceType <= NOTE
  {
    forall d | d in Drafts(p.alert, p.det, events, render) ensures LOG_EXCERPT <= d.evidenceType <= NOTE {
      DraftShape(p, events, render, d);
    }
  }

  lemma ItemsOutcome(incidentId: string, drafts: seq<Draft>, at: Time)
    requires incidentId != "" && at != ZERO_TIME
    requires forall d :: d in drafts ==> LOG_EXCERPT <= d.evidenceType <= NOTE
    ensures Items(incidentId, drafts, at).Some? <==> forall d :: d in drafts ==> WritableDraft(d)
  {
    ItemsFacts(incidentId, drafts, at);
    forall i | 0 <= i < |drafts| ensures NewItem(incidentId, drafts[i], at).Some? <==> WritableDraft(drafts[i]) {
      ItemOutcome(incidentId, drafts[i], at);
    }
    if Items(incidentId, drafts, at).Some? {
      forall d | d in drafts ensures WritableDraft(d) {
        var i :| 0 <= i < |drafts| && drafts[i] == d;
      }
    }
  }

  lemma BuildOutcome(incidentId: string, p: D.Pair, snapshot: seq<TelemetryEvent>, at: Time, render: Rendering)
    requires AlignedPair(p) && Gather(snapshot, p.det.eventIds).Some? && incidentId != "" && at != ZERO_TIME
    ensures Build(incidentId, p.alert, p.det, Gather(snapshot, p.det.eventIds).value, at, render).Some?
       <==> Writable(p, snapshot, render)
  {
    var events := Gather(snapshot, p.det.eventIds).value;
    GatherFacts(snapshot, p.det.eventIds);
    forall id | id in p.det.eventIds ensures FindEvent(events, id).Some? {
      FindGathered(snapshot, p.det.eventIds, id);
    }
    DraftsGathered(p, snapshot, render);
    DraftTypes(p, snapshot, render);
    ItemsOutcome(incidentId, Drafts(p.alert, p.det, snapshot, render), at);
  }

  // An alert the book does not know yet is ingested now.
  lemma NewAlertStamped(b: I.Book, t: I.Triple, now: Time)
    requires I.Sound(b) && I.Acceptable(t, now) && forall id :: !I.AttachedTo(b, t.alert.id, id)
    ensures var a := I.IngestStep(b, t, now).answer;
            a.Kept? && a.incident.id == I.IncidentId(I.KeyOf(t)) && a.incident.updatedAt == Some(now)
  {
    I.IngestForm(b, t, now);
    IngestAnswers(b, t, now);
    if I.KeyOf(t) in b.byKey {
      assert !I.AttachedTo(b, t.alert.id, b.byKey[I.KeyOf(t)]);
    }
  }

  lemma NewAlertUnknown(book: I.Book, stored: seq<D.Pair>, p: D.Pair, archive: seq<TelemetryEvent>)
    requires Booked(book, Marks(stored, archive)) && Paired(stored + [p])
    ensures forall id :: !I.AttachedTo(book, p.alert.id, id)
  {
    forall id ensures !I.AttachedTo(book, p.alert.id, id) {
      if I.AttachedTo(book, p.alert.id, id) {
        BookedAlerts(book, stored, archive, p.alert.id, id);
        var q :| q in stored && q.alert.id == p.alert.id;
        SameAlertSamePair(stored, p, q);
      }
    }
  }

  lemma SameAlertSamePair(stored: seq<D.Pair>, p: D.Pair, q: D.Pair)
    requires Paired(stored + [p]) && q in stored
    ensures q.alert.id != p.alert.id
  {
    var all := stored + [p];
    var i :| 0 <= i < |stored| && stored[i] == q;
    assert all[i] == q && all[|stored|] == p && q in all && p in all;
    AlignedAlertId(p);
    AlignedAlertId(q);
    if q.alert.id == p.alert.id {
      AlertIdInjective(p.det.id, q.det.id);
    }
  }

  // Filing one new pair: the error is the one its guards say, and what it has done to book and evidence by then.
  lemma FileOneOutcome(f: Filing, stored: seq<D.Pair>, p: D.Pair, snapshot: seq<TelemetryEvent>, now: Time,
                       render: Rendering)
    requires f.error.None? && Booked(f.book, Marks(stored, snapshot)) && Paired(stored + [p])
    ensures var r, e := FileOne(f, p, snapshot, now, render), FilingError(p, snapshot, now, render);
            && r.error == e
            && (e.Some? ==> r.evidence == f.evidence)
            && (e == Some(ErrIncident) ==> r.book == f.book)
            && (e == Some(ErrEvidence) ==>
                  && I.Acceptable(TripleOf(p, snapshot), now)
                  && r.book == I.IngestStep(f.book, TripleOf(p, snapshot), now).book)
  {
    assert p in stored + [p];
    if Gather(snapshot, p.det.eventIds).Some? {
      var t := TripleOf(p, snapshot);
      AlignedAcceptable(p, snapshot, now);
      I.IngestForm(f.book, t, now);
      if now != ZERO_TIME {
        NewAlertUnknown(f.book, stored, p, snapshot);
        NewAlertStamped(f.book, t, now);
        BuildOutcome(I.IncidentId(I.KeyOf(t)), p, snapshot, now, render);
      }
    }
  }

  // ---------------------------------------------------------------------------
  // Where filing stops
  // ---------------------------------------------------------------------------

  // The index of the first pair whose guards refuse it, or the number of pairs.
  function Stop(pairs: seq<D.Pair>, snapshot: seq<TelemetryEvent>, clock: nat -> Time, render: Rendering): (n: nat)
    ensures n <= |pairs|
  {
    if pairs == [] then 0
    else
      var front := Stop(pairs[..|pairs| - 1], snapshot, clock, render);
      if front == |pairs| - 1 && FilingError(pairs[|pairs| - 1], snapshot, clock(|pairs| - 1), render).None?
      then front + 1 else front
  }

  function StopError(pairs: seq<D.Pair>, snapshot: seq<TelemetryEvent>, clock: nat -> Time, render: Rendering)
    : Option<Error>
  {
    var n := Stop(pairs, snapshot, clock, render);
    if n == |pairs| then None else FilingError(pairs[n], snapshot, clock(n), render)
  }

  // How many pairs got into an incident: a pair that fails for its evidence still did.
  function Reached(pairs: seq<D.Pair>, snapshot: seq<TelemetryEvent>, clock: nat -> Time, render: Rendering): nat {
    Stop(pairs, snapshot, clock, render)
    + if StopError(pairs, snapshot, clock, render) == Some(ErrEvidence) then 1 else 0
  }

  lemma {:induction false} StopIsFirst(pairs: seq<D.Pair>, snapshot: seq<TelemetryEvent>, clock: nat -> Time,
                                       render: Rendering)
    ensures var n := Stop(pairs, snapshot, clock, render);
            && (forall i :: 0 <= i < n ==> FilingError(pairs[i], snapshot, clock(i), render).None?)
            && (n < |pairs| ==> FilingError(pairs[n], snapshot, clock(n), render).Some?)
  {
    if pairs != [] {
      StopIsFirst(pairs[..|pairs| - 1], snapshot, clock, render);
    }
  }

  lemma StopStep(pairs: seq<D.Pair>, snapshot: seq<TelemetryEvent>, clock: nat -> Time, render: Rendering)
    requires pairs != []
    ensures var k, front := |pairs| - 1, pairs[..|pairs| - 1];
            var e := FilingError(pairs[k], snapshot, clock(k), render);
            if Stop(front, snapshot, clock, render) < k then
              && Stop(pairs, snapshot, clock, render) == Stop(front, snapshot, clock, render)
              && StopError(pairs, snapshot, clock, render) == StopError(front, snapshot, clock, render)
              && StopError(front, snapshot, clock, render).Some?
            else
              && Stop(pairs, snapshot, clock, render) == (if e.None? then k + 1 else k)
              && StopError(pairs, snapshot, clock, render) == e && StopError(front, snapshot, clock, render).None?
  {
    StopIsFirst(pairs[..|pairs| - 1], snapshot, clock, render);
  }

  // A filing whose book holds the taken pairs and whose evidence holds the written ones.
  ghost predicate HasTaken(f: Filing, taken: seq<D.Pair>, written: seq<D.Pair>, snapshot: seq<TelemetryEvent>,
                           render: Rendering)
  {
    Booked(f.book, Marks(taken, snapshot)) && Recorded(f.evidence, Entries(written, snapshot, render))
  }

  lemma FileLast(was: Filing, done: seq<D.Pair>, p: D.Pair, snapshot: seq<TelemetryEvent>, now: Time,
                 render: Rendering)
    requires was.error.None? && Paired(done + [p]) && Filed(was, done, snapshot, render)
    ensures var f, e := FileOne(was, p, snapshot, now, render), FilingError(p, snapshot, now, render);
            && f.error == e
            && HasTaken(f, if e == Some(ErrIncident) then done else done + [p],
                        if e.None? then done + [p] else done, snapshot, render)
  {
    FileOneOutcome(was, done, p, snapshot, now, render);
    var e := FilingError(p, snapshot, now, render);
    if e.None? {
      FileOneKeeps(was, done, p, snapshot, now, render);
    } else if e == Some(ErrEvidence) {
      FiledBook(was.book, done, p, snapshot, now);
    }
  }

  // Filing stops where the guards say, with the pairs before the stop written and the reached ones taken.
  lemma {:induction false} FileAllStops(f: Filing, stored: seq<D.Pair>, pairs: seq<D.Pair>,
                                        snapshot: seq<TelemetryEvent>, clock: nat -> Time, render: Rendering)
    requires Filed(f, stored, snapshot, render) && f.error.None? && Paired(stored + pairs)
    ensures var r := Reached(pairs, snapshot, clock, render);
            && r <= |pairs|
            && FileAll(f, pairs, snapshot, clock, render).error == StopError(pairs, snapshot, clock, render)
            && HasTaken(FileAll(f, pairs, snapshot, clock, render), stored + pairs[..r],
                        stored + pairs[..Stop(pairs, snapshot, clock, render)], snapshot, render)
  {
    if pairs == [] {
      assert stored + pairs[..0] == stored;
    } else {
      var front, p, k := pairs[..|pairs| - 1], pairs[|pairs| - 1], |pairs| - 1;
      assert stored + pairs == (stored + front) + [p];
      PairedFront(stored + front, [p]);
      FileAllStops(f, stored, front, snapshot, clock, render);
      if Stop(front, snapshot, clock, render) < k {
        StoppedPrefix(stored, pairs, snapshot, clock, render);
      } else {
        StopStep(pairs, snapshot, clock, render);
        FileAllKeeps(f, stored, front, snapshot, clock, render);
        FileLast(FileAll(f, front, snapshot, clock, render), stored + front, p, snapshot, clock(k), render);
        LastPrefix(stored, pairs, snapshot, clock, render);
      }
    }
  }

  lemma StoppedPrefix(stored: seq<D.Pair>, pairs: seq<D.Pair>, snapshot: seq<TelemetryEvent>, clock: nat -> Time,
                      render: Rendering)
    requires pairs != [] && Stop(pairs[..|pairs| - 1], snapshot, clock, render) < |pairs| - 1
    ensures var front := pairs[..|pairs| - 1];
            var n, r := Stop(front, snapshot, clock, render), Reached(front, snapshot, clock, render);
            && Stop(pairs, snapshot, clock, render) == n && Reached(pairs, snapshot, clock, render) == r <= |front|
            && StopError(pairs, snapshot, clock, render) == StopError(front, snapshot, clock, render)
            && StopError(front, snapshot, clock, render).Some?
            && stored + front[..n] == stored + pairs[..n] && stored + front[..r] == stored + pairs[..r]
  {
    StopStep(pairs, snapshot, clock, render);
  }

  lemma LastPrefix(stored: seq<D.Pair>, pairs: seq<D.Pair>, snapshot: seq<TelemetryEvent>, clock: nat -> Time,
                   render: Rendering)
    requires pairs != [] && Stop(pairs[..|pairs| - 1], snapshot, clock, render) == |pairs| - 1
    ensures var k, done := |pairs| - 1, stored + pairs[..|pairs| - 1];
            var e := FilingError(pairs[k], snapshot, clock(k), render);
            var n, r := Stop(pairs, snapshot, clock, render), Reached(pairs, snapshot, clock, render);
            && r <= |pairs|
            && stored + pairs[..r] == (if e == Some(ErrIncident) then done else done + [pairs[k]])
            && stored + pairs[..n] == (if e.None? then done + [pairs[k]] else done)
  {
    StopStep(pairs, snapshot, clock, render);
    assert pairs[..|pairs|] == pairs;
    assert stored + pairs == (stored + pairs[..|pairs| - 1]) + [pairs[|pairs| - 1]];
  }

  // ---------------------------------------------------------------------------
  // A whole emission
  // ---------------------------------------------------------------------------

  // Whether and how a processed emission fails.
  ghost function EmissionError(c: Chain, input: Input, pairs: seq<D.Pair>, render: Rendering): Option<Error> {
    var snapshot := c.archive + [input.event];
    if !UniqueIds(snapshot) then Some(ErrIncident)
    else if StopError(pairs, snapshot, input.clock, render).Some? then StopError(pairs, snapshot, input.clock, render)
    else if c.failing then Some(ErrSink)
    else None
  }

  // How many of its pairs got into an incident: none on a duplicate event id, all on a failing sink.
  ghost function ReachedBy(c: Chain, input: Input, pairs: seq<D.Pair>, render: Rendering): nat {
    var snapshot := c.archive + [input.event];
    if UniqueIds(snapshot) then Reached(pairs, snapshot, input.clock, render) else 0
  }

  // A processed emission, taken apart.
  lemma ProcessedForm(c: Chain, input: Input, render: Rendering) returns (pairs: seq<D.Pair>)
    requires Answered(c, input).Processed?
    ensures |Answered(c, input).detections| == |Answered(c, input).alerts|
    ensures pairs == D.Zip(Answered(c, input).detections, Answered(c, input).alerts)
    ensures var c' := EmitStep(c, input, render).chain;
            var filed := FileAll(Filing(c.book, c.evidence, None), pairs, c.archive + [input.event], input.clock, render);
            && c'.stored == c.stored + pairs
            && FreshPairs(c.world.engine.seen, c'.world.engine.seen, pairs)
            && c'.book == (if UniqueIds(c.archive + [input.event]) then filed.book else c.book)
            && EmitStep(c, input, render).error
               == (if !UniqueIds(c.archive + [input.event]) then Some(ErrIncident)
                   else if filed.error.Some? then filed.error
                   else if c.failing then Some(ErrSink) else None)
  {
    var em := D.ProcessStep(c.world.engine, c.world.rules, c.world.disabled, input.event, input.now, input.answers);
    D.ProcessDelivers(c.world, input.event, input.now, input.answers);
    var n: nat :| D.Delivers(c.world.engine, n, em, input.now);
    DeliveredPairs(c.world.engine, n, em, input.now);
    pairs := D.Zip(em.result.detections, em.result.alerts);
  }

  ghost predicate InSomeIncident(b: I.Book, alertId: string) {
    exists id :: I.AttachedTo(b, alertId, id)
  }

  // A book knows exactly the alerts of the pairs it has taken.
  lemma BookKnows(book: I.Book, taken: seq<D.Pair>, rest: seq<D.Pair>, snapshot: seq<TelemetryEvent>)
    requires Booked(book, Marks(taken, snapshot)) && Paired(taken + rest)
    ensures forall p :: p in taken ==> InSomeIncident(book, p.alert.id)
    ensures forall p :: p in rest ==> !InSomeIncident(book, p.alert.id)
  {
    PairedFront(taken, rest);
    MarksConsistent(taken, snapshot);
    forall p | p in taken ensures InSomeIncident(book, p.alert.id) {
      var m := MarkAt(p, snapshot);
      assert m in Marks(taken, snapshot);
      I.AttachedOnce(book, Marks(taken, snapshot), m);
      assert I.AttachedTo(book, p.alert.id, I.IncidentId(m.key));
    }
    forall p | p in rest ensures !InSomeIncident(book, p.alert.id) {
      if InSomeIncident(book, p.alert.id) {
        var id :| I.AttachedTo(book, p.alert.id, id);
        BookedAlerts(book, taken, snapshot, p.alert.id, id);
        var q :| q in taken && q.alert.id == p.alert.id;
        ApartInAlerts(taken, rest, q, p);
      }
    }
  }

  lemma ApartInAlerts(taken: seq<D.Pair>, rest: seq<D.Pair>, q: D.Pair, p: D.Pair)
    requires Paired(taken + rest) && q in taken && p in rest
    ensures q.alert.id != p.alert.id
  {
    var all := taken + rest;
    var i :| 0 <= i < |taken| && taken[i] == q;
    var j :| 0 <= j < |rest| && rest[j] == p;
    assert all[i] == q && all[|taken| + j] == p && q in all && p in all;
    AlignedAlertId(p);
    AlignedAlertId(q);
    if q.alert.id == p.alert.id {
      AlertIdInjective(p.det.id, q.det.id);
    }
  }

  /** A processed emission fails exactly as its guards say, and of its alerts exactly those before the stop are in an
      incident afterwards: all are stored, and on a duplicate event id none is in an incident. */
  lemma EmissionReaches(c: Chain, input: Input, render: Rendering) returns (pairs: seq<D.Pair>)
    requires Sound(c, render) && Answered(c, input).Processed?
    ensures var e := EmitStep(c, input, render);
            && e.error == EmissionError(c, input, pairs, render)
            && e.chain.stored == c.stored + pairs
            && FreshPairs(c.world.engine.seen, e.chain.world.engine.seen, pairs)
            && forall i :: 0 <= i < |pairs| ==>
                 (InSomeIncident(e.chain.book, pairs[i].alert.id) <==> i < ReachedBy(c, input, pairs, render))
  {
    pairs := ProcessedForm(c, input, render);
    var c', snapshot := EmitStep(c, input, render).chain, c.archive + [input.event];
    RememberedGrows(c.world.engine.seen, c'.world.engine.seen, c.stored, pairs);
    var r := ReachedBy(c, input, pairs, render);
    if UniqueIds(snapshot) {
      ReachedStable(c.stored, c.archive, input.event, render);
      FileAllStops(Filing(c.book, c.evidence, None), c.stored, pairs, snapshot, input.clock, render);
      SplitKnown(c'.book, c.stored, pairs, r, snapshot);
    } else {
      assert c.stored + pairs[..0] == c.stored;
      SplitKnown(c'.book, c.stored, pairs, 0, c.archive);
    }
  }

  lemma SplitKnown(book: I.Book, stored: seq<D.Pair>, pairs: seq<D.Pair>, r: nat, snapshot: seq<TelemetryEvent>)
    requires r <= |pairs| && Paired(stored + pairs) && Booked(book, Marks(stored + pairs[..r], snapshot))
    ensures forall i :: 0 <= i < |pairs| ==> (InSomeIncident(book, pairs[i].alert.id) <==> i < r)
  {
    var taken, rest := stored + pairs[..r], pairs[r..];
    assert taken + rest == stored + pairs;
    BookKnows(book, taken, rest, snapshot);
    forall i | 0 <= i < |pairs| ensures InSomeIncident(book, pairs[i].alert.id) <==> i < r {
      if i < r {
        assert taken[|stored| + i] == pairs[i];
      } else {
        assert rest[i - r] == pairs[i];
      }
    }
  }

  // ---------------------------------------------------------------------------
  // Never again
  // ---------------------------------------------------------------------------

  // The chain after any later actions, successful or not.
  ghost function After(c: Chain, actions: seq<Action>, render: Rendering): Chain {
    if actions == [] then c
    else StepOf(After(c, actions[..|actions| - 1], render), actions[|actions| - 1], render).chain
  }

  // An alert the engine will not produce again and that is in no incident.
  ghost predicate Lost(c: Chain, detId: string) {
    detId in c.world.engine.seen && !InSomeIncident(c.book, D.AlertId(detId))
  }

  lemma IngestBrings(b: I.Book, t: I.Triple, now: Time, alertId: string)
    requires !InSomeIncident(b, alertId) && t.alert.id != alertId
    ensures !InSomeIncident(I.IngestStep(b, t, now).book, alertId)
  {
    var b' := I.IngestStep(b, t, now).book;
    forall id | id in b'.byId ensures !I.AttachedTo(b', alertId, id) {
      assert !I.AttachedTo(b, alertId, id);
      if I.KeyOf(t) in b.byKey && b.byKey[I.KeyOf(t)] in b.byId {
        assert !I.AttachedTo(b, alertId, b.byKey[I.KeyOf(t)]);
      }
    }
  }

  lemma MoveBrings(b: I.Book, i: string, to: int, now: Time, alertId: string)
    requires !InSomeIncident(b, alertId)
    ensures !InSomeIncident(I.TransitionStep(b, i, to, now).book, alertId)
  {
    var b' := I.TransitionStep(b, i, to, now).book;
    forall id | id in b'.byId ensures !I.AttachedTo(b', alertId, id) {
      assert !I.AttachedTo(b, alertId, id);
    }
  }

  lemma {:induction false} FilingBrings(f: Filing, pairs: seq<D.Pair>, snapshot: seq<TelemetryEvent>,
                                        clock: nat -> Time, render: Rendering, alertId: string)
    requires !InSomeIncident(f.book, alertId) && forall p :: p in pairs ==> p.alert.id != alertId
    ensures !InSomeIncident(FileAll(f, pairs, snapshot, clock, render).book, alertId)
  {
    if pairs != [] {
      var front, p := pairs[..|pairs| - 1], pairs[|pairs| - 1];
      assert p in pairs && forall q :: q in front ==> q in pairs;
      FilingBrings(f, front, snapshot, clock, render, alertId);
      var was := FileAll(f, front, snapshot, clock, render);
      if Gather(snapshot, p.det.eventIds).Some? {
        IngestBrings(was.book, I.Triple(p.alert, p.det, Gather(snapshot, p.det.eventIds).value), clock(|front|), alertId);
      }
    }
  }

  lemma EmitStaysLost(c: Chain, input: Input, render: Rendering, detId: string)
    requires Lost(c, detId)
    ensures Lost(EmitStep(c, input, render).chain, detId)
  {
    D.ProcessDelivers(c.world, input.event, input.now, input.answers);
    if Answered(c, input).Processed? {
      var pairs := ProcessedForm(c, input, render);
      forall p | p in pairs ensures p.alert.id != D.AlertId(detId) {
        AlignedAlertId(p);
        if p.alert.id == D.AlertId(detId) {
          AlertIdInjective(p.det.id, detId);
        }
      }
      FilingBrings(Filing(c.book, c.evidence, None), pairs, c.archive + [input.event], input.clock, render,
                   D.AlertId(detId));
    }
  }

  lemma {:induction false} LostForGood(c: Chain, actions: seq<Action>, render: Rendering, detId: string)
    requires Lost(c, detId)
    ensures Lost(After(c, actions, render), detId)
  {
    if actions != [] {
      var was, a := After(c, actions[..|actions| - 1], render), actions[|actions| - 1];
      LostForGood(c, actions[..|actions| - 1], render, detId);
      match a
      case Emit(input) => EmitStaysLost(was, input, render, detId);
      case Register(_) =>
      case Disable(_) =>
      case Enable(_) =>
      case Move(id, to, now) => MoveBrings(was.book, id, to, now, D.AlertId(detId));
      case SetError(_) =>
    }
  }

  /** What a failed emission did not get into an incident never gets into one: whatever is done later, each stored pair at
      or after the stop stays without an incident. */
  lemma FailedEmissionLosesAlerts(c: Chain, input: Input, render: Rendering, later: seq<Action>)
    returns (pairs: seq<D.Pair>)
    requires Sound(c, render) && Answered(c, input).Processed?
    ensures EmitStep(c, input, render).chain.stored == c.stored + pairs
    ensures forall i :: ReachedBy(c, input, pairs, render) <= i < |pairs| ==>
              !InSomeIncident(After(EmitStep(c, input, render).chain, later, render).book, pairs[i].alert.id)
  {
    pairs := EmissionReaches(c, input, render);
    var c' := EmitStep(c, input, render).chain;
    forall i | ReachedBy(c, input, pairs, render) <= i < |pairs|
      ensures !InSomeIncident(After(c', later, render).book, pairs[i].alert.id)
    {
      assert pairs[i] in pairs;
      AlignedAlertId(pairs[i]);
      LostForGood(c', later, render, pairs[i].det.id);
    }
  }
}
