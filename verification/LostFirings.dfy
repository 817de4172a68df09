/** A stateful rule inside the engine: when the engine aborts a call, a window that fired in it keeps its memory of having
    fired, and the match is lost. Modelled for the blocked-request burst rule on the events of one asset. */
module LostFirings {
  import opened Base
  import opened Contract
  import opened Rule
  import opened Window
  import B = BurstRules
  import D = DetectEngine

  // ---------------------------------------------------------------------------
  // When a call is processed
  // ---------------------------------------------------------------------------

  // An enabled rule that fails, or whose match cannot become a detection.
  ghost predicate Spoils(w: D.World, r: RuleInfo, now: Time, answers: D.Answers) {
    && r in w.rules && r.id !in w.disabled
    && (answers(r.id).RuleError?
        || (answers(r.id).outcome.Match? && D.BuildDetection(r, answers(r.id).outcome, now).None?))
  }

  function Answer(w: D.World, e: TelemetryEvent, now: Time, answers: D.Answers): D.ProcessResult {
    D.ProcessStep(w.engine, w.rules, w.disabled, e, now, answers).result
  }

  lemma {:induction false} BuildableAll(matches: seq<D.Matched>, now: Time)
    ensures D.Buildable(matches, now) == |matches|
       <==> forall m :: m in matches ==> D.BuildDetection(m.rule, m.outcome, now).Some?
  {
    if matches != [] {
      BuildableAll(matches[1..], now);
      assert forall m :: m in matches <==> m == matches[0] || m in matches[1..];
    }
  }

  /** A call is processed exactly when event and clock are good and no enabled rule spoils it. */
  lemma ProcessedExactly(w: D.World, e: TelemetryEvent, now: Time, answers: D.Answers)
    ensures Answer(w, e, now, answers).Processed?
       <==> ValidEvent(e) && now != ZERO_TIME && forall r :: !Spoils(w, r, now, answers)
  {
    if ValidEvent(e) && now != ZERO_TIME {
      var ev := D.EvaluateRules(w.engine.stats, w.rules, w.disabled, e, now, answers);
      D.EvaluationAsks(w.engine.stats, w.rules, w.disabled, e, now, answers);
      if ev.matches.Some? {
        D.EmissionBuilds(w.engine.(stats := ev.stats), ev.matches.value, now);
        BuildableAll(ev.matches.value, now);
        MatchesSpoil(w, ev.matches.value, now, answers);
      } else {
        var r :| r in w.rules && D.Asked(r, w.disabled) && answers(r.id).RuleError?;
        assert Spoils(w, r, now, answers);
      }
    }
  }

  lemma MatchesSpoil(w: D.World, matches: seq<D.Matched>, now: Time, answers: D.Answers)
    requires forall r :: r in w.rules && D.Asked(r, w.disabled) ==> !answers(r.id).RuleError?
    requires forall m :: m in matches <==>
               m.rule in w.rules && D.Asked(m.rule, w.disabled) && answers(m.rule.id) == Evaluated(m.outcome)
               && m.outcome.Match?
    ensures (forall m :: m in matches ==> D.BuildDetection(m.rule, m.outcome, now).Some?)
       <==> forall r :: !Spoils(w, r, now, answers)
  {
    forall m | m in matches && D.BuildDetection(m.rule, m.outcome, now).None? ensures Spoils(w, m.rule, now, answers) {
    }
    forall r | Spoils(w, r, now, answers)
      ensures exists m :: m in matches && D.BuildDetection(m.rule, m.outcome, now).None?
    {
      var m := D.Matched(r, answers(r.id).outcome);
      assert m in matches;
    }
  }

  // An enabled rule's new match reaches the caller exactly when the call is processed.
  lemma MatchReturned(w: D.World, e: TelemetryEvent, now: Time, answers: D.Answers, r: RuleInfo)
    requires r in w.rules && r.id !in w.disabled && answers(r.id).Evaluated? && answers(r.id).outcome.Match?
    requires D.DetectionId(r.id, answers(r.id).outcome.eventIds) !in w.engine.seen
    ensures (exists d :: d in D.Returned(w, D.Process(e, now, answers))
                         && d.id == D.DetectionId(r.id, answers(r.id).outcome.eventIds))
       <==> Answer(w, e, now, answers).Processed?
  {
    if Answer(w, e, now, answers).Processed? {
      ProcessedExactly(w, e, now, answers);
      assert !Spoils(w, r, now, answers);
      var ev := D.EvaluateRules(w.engine.stats, w.rules, w.disabled, e, now, answers);
      D.EvaluationAsks(w.engine.stats, w.rules, w.disabled, e, now, answers);
      var m := D.Matched(r, answers(r.id).outcome);
      assert m in ev.matches.value;
      EmittedMatch(w.engine.(stats := ev.stats), ev.matches.value, m, now);
    }
  }

  lemma EmittedMatch(s: D.EngineState, matches: seq<D.Matched>, m: D.Matched, now: Time)
    requires D.EmitMatches(s, matches, now).result.Processed? && m in matches && m.outcome.Match?
    requires D.DetectionId(m.rule.id, m.outcome.eventIds) !in s.seen
    ensures exists d :: d in D.EmitMatches(s, matches, now).result.detections
                        && d.id == D.DetectionId(m.rule.id, m.outcome.eventIds)
  {
    D.EmissionBuilds(s, matches, now);
    D.EmissionRemembers(s, matches, now);
    D.EmissionDelivers(s, matches, now);
    BuildableAll(matches, now);
    D.DetectionStands(m.rule, m.outcome, now);
    BuiltListed(matches, m, now);
    var id := D.DetectionId(m.rule.id, m.outcome.eventIds);
    assert id in D.DetectionIds(D.EmitMatches(s, matches, now).result.detections);
  }

  lemma {:induction false} BuiltListed(matches: seq<D.Matched>, m: D.Matched, now: Time)
    requires D.Buildable(matches, now) == |matches| && m in matches
    requires D.BuildDetection(m.rule, m.outcome, now).Some?
    ensures D.BuildDetection(m.rule, m.outcome, now).value.id in D.BuiltIds(matches, now)
  {
    var front, last := matches[..|matches| - 1], matches[|matches| - 1];
    D.BuildableFront(matches, now);
    if m != last {
      assert m in front;
      BuiltListed(front, m, now);
    }
  }

  // ---------------------------------------------------------------------------
  // The burst rule inside the engine
  // ---------------------------------------------------------------------------

  // The engine beside the rule's window for one asset.
  datatype Watch = Watch(world: D.World, win: WindowState)

  // One blocked request of the asset, with the clock and what the other rules answer.
  datatype Feed = Feed(event: TelemetryEvent, now: Time, others: D.Answers)

  datatype Burst = Burst(rule: RuleInfo, threshold: int, window: int)

  function Observed(b: Burst, x: Watch, f: Feed): (WindowState, bool) {
    Observe(x.win, B.EntryOf(f.event), b.window, b.threshold)
  }

  function AnswersIn(b: Burst, x: Watch, f: Feed): D.Answers {
    id =>
      if id != b.rule.id then f.others(id)
      else if Observed(b, x, f).1 then Evaluated(B.BlockReport(Observed(b, x, f).0.entries, b.threshold, b.window))
      else Evaluated(NoMatch)
  }

  // The engine gets as far as asking the rule: it is enabled and no enabled rule before it fails.
  ghost predicate Consulted(b: Burst, x: Watch, f: Feed) {
    && ValidEvent(f.event) && f.now != ZERO_TIME && b.rule.id !in x.world.disabled
    && exists i :: 0 <= i < |x.world.rules| && AskedAt(b, x, f, i)
  }

  ghost predicate AskedAt(b: Burst, x: Watch, f: Feed, i: nat)
    requires i < |x.world.rules|
  {
    && x.world.rules[i] == b.rule
    && (forall j :: 0 <= j < i && x.world.rules[j].id !in x.world.disabled
          ==> AnswersIn(b, x, f)(x.world.rules[j].id).Evaluated?)
  }

  ghost predicate Fires(b: Burst, x: Watch, f: Feed) {
    Consulted(b, x, f) && Observed(b, x, f).1
  }

  // The rule's window moves when the rule is asked, whatever becomes of the call.
  ghost function Fed(b: Burst, x: Watch, f: Feed): Watch {
    Watch(D.Turn(x.world, D.Process(f.event, f.now, AnswersIn(b, x, f))),
          if Consulted(b, x, f) then Observed(b, x, f).0 else x.win)
  }

  ghost function FedAll(b: Burst, x: Watch, fs: seq<Feed>): Watch {
    if fs == [] then x else Fed(b, FedAll(b, x, fs[..|fs| - 1]), fs[|fs| - 1])
  }

  ghost predicate Spoiled(b: Burst, x: Watch, f: Feed) {
    exists r :: Spoils(x.world, r, f.now, AnswersIn(b, x, f))
  }

  function FiringId(b: Burst, x: Watch, f: Feed): string {
    D.DetectionId(b.rule.id, SortStrings(Ids(Observed(b, x, f).0.entries)))
  }

  /** A new firing reaches the caller exactly when no enabled rule spoils the call. */
  lemma FiringReported(b: Burst, x: Watch, f: Feed)
    requires Fires(b, x, f) && FiringId(b, x, f) !in x.world.engine.seen
    ensures (exists d :: d in D.Returned(x.world, D.Process(f.event, f.now, AnswersIn(b, x, f)))
                         && d.id == FiringId(b, x, f))
       <==> !Spoiled(b, x, f)
  {
    FiringAnswer(b, x, f);
    MatchReturned(x.world, f.event, f.now, AnswersIn(b, x, f), b.rule);
    ProcessedExactly(x.world, f.event, f.now, AnswersIn(b, x, f));
  }

  lemma FiringAnswer(b: Burst, x: Watch, f: Feed)
    requires Fires(b, x, f)
    ensures b.rule in x.world.rules && b.rule.id !in x.world.disabled
    ensures var answer := AnswersIn(b, x, f)(b.rule.id);
            answer.Evaluated? && answer.outcome.Match?
            && D.DetectionId(b.rule.id, answer.outcome.eventIds) == FiringId(b, x, f)
  {
    var i :| 0 <= i < |x.world.rules| && AskedAt(b, x, f, i);
    assert x.world.rules[i] in x.world.rules;
    var entries := Observed(b, x, f).0.entries;
    assert AnswersIn(b, x, f)(b.rule.id) == Evaluated(B.BlockReport(entries, b.threshold, b.window));
    assert B.BlockReport(entries, b.threshold, b.window).eventIds == SortStrings(Ids(entries));
  }

  // The window remembers having fired exactly while it is full.
  ghost predicate Minds(b: Burst, x: Watch) {
    x.win.fired <==> |x.win.entries| >= b.threshold
  }

  lemma FedMinds(b: Burst, x: Watch, f: Feed)
    requires Minds(b, x)
    ensures Minds(b, Fed(b, x, f))
    ensures Fires(b, x, f) ==> |x.win.entries| < b.threshold <= |Fed(b, x, f).win.entries|
  {
  }

  lemma {:induction false} FedAllMinds(b: Burst, x: Watch, fs: seq<Feed>)
    requires Minds(b, x)
    ensures Minds(b, FedAll(b, x, fs))
  {
    if fs != [] {
      FedAllMinds(b, x, fs[..|fs| - 1]);
      FedMinds(b, FedAll(b, x, fs[..|fs| - 1]), fs[|fs| - 1]);
    }
  }

  /** A spoiled firing is lost: the call returns nothing, and however the run goes on, the rule does not match again
      before its window has dropped below the threshold. */
  lemma SpoiledFiringIsLost(b: Burst, x: Watch, f: Feed, later: seq<Feed>, n: nat)
    requires Minds(b, x) && Fires(b, x, f) && Spoiled(b, x, f) && n < |later|
    ensures D.Returned(x.world, D.Process(f.event, f.now, AnswersIn(b, x, f))) == []
    ensures Fires(b, FedAll(b, Fed(b, x, f), later[..n]), later[n]) ==>
              n > 0 && |FedAll(b, Fed(b, x, f), later[..n]).win.entries| < b.threshold
  {
    ProcessedExactly(x.world, f.event, f.now, AnswersIn(b, x, f));
    FedMinds(b, x, f);
    FedAllMinds(b, Fed(b, x, f), later[..n]);
    FedMinds(b, FedAll(b, Fed(b, x, f), later[..n]), later[n]);
    assert n == 0 ==> later[..n] == [];
  }

  // ---------------------------------------------------------------------------
  // A run in which a firing is lost
  // ---------------------------------------------------------------------------

  const BLOCKED: TelemetryEvent :=
    TelemetryEvent("event", Some(1), "source", "asset", "waf.request_blocked", LOW, map[])

  // The burst rule fires on every first event, and the rule registered after it fails.
  const EAGER: Burst := Burst(D.GOOD, 1, 1)

  function Failing(): Feed {
    Feed(BLOCKED, 1, id => RuleError)
  }

  function Registered(): Watch {
    Watch(D.Play([D.Register(D.GOOD), D.Register(D.BAD)]), IDLE)
  }

  /** It happens: the window fires for the first time, the call returns nothing, and the window remembers having fired. */
  lemma SpoilHappens()
    ensures var b, x, f := EAGER, Registered(), Failing();
            && Minds(b, x) && Fires(b, x, f) && Spoiled(b, x, f)
            && FiringId(b, x, f) !in x.world.engine.seen
            && D.Returned(x.world, D.Process(f.event, f.now, AnswersIn(b, x, f))) == []
            && Fed(b, x, f).win.fired
  {
    var b, x, f := EAGER, Registered(), Failing();
    D.TwoRulesPlayed();
    EagerFires(x);
    assert D.BAD in x.world.rules && D.BAD.id[0] != D.GOOD.id[0];
    assert Spoils(x.world, D.BAD, f.now, AnswersIn(b, x, f));
    SpoiledFiringIsLost(b, x, f, [f], 0);
  }

  lemma EagerFires(x: Watch)
    requires x == Watch(D.World(D.EMPTY, [D.GOOD, D.BAD], {}), IDLE)
    ensures Fires(EAGER, x, Failing()) && Minds(EAGER, x)
  {
    assert AskedAt(EAGER, x, Failing(), 0);
    assert |Observed(EAGER, x, Failing()).0.entries| >= 1;
  }
}
