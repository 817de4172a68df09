/** The detection engine: rules in registration order, detections built from matches, each emitted once. */
module DetectEngine {
  import opened Base
  import opened Contract
  import opened Rule

  // ---------------------------------------------------------------------------
  // Building detections and alerts
  // ---------------------------------------------------------------------------

  const RESERVED: string := "blueveil."
  const BASIS: string := "boolean-condition-unmeasured"

  function DetectionId(ruleId: string, eventIds: seq<string>): string {
    "det-" + Digest(ruleId + [SEPARATOR] + Join(SortStrings(eventIds), SEPARATOR))
  }

  // None is ErrDetectionBuild.
  function BuildDetection(rule: RuleInfo, outcome: Outcome, now: Time): Option<Detection> {
    if outcome.NoMatch? then None
    else if outcome.eventIds == [] then None
    else if !KnownSeverity(outcome.severity) then None
    else if outcome.confidence < 0.0 || outcome.confidence > 1.0 then None
    else if now == ZERO_TIME then None
    else if exists k | k in outcome.attrs :: RESERVED <= k then None
    else
      var attrs := map["blueveil.rule_version" := rule.version, "blueveil.confidence_basis" := BASIS];
      var ids := SortStrings(outcome.eventIds);
      var det := Detection(DetectionId(rule.id, ids), rule.id, rule.name, ids, Some(now), outcome.severity,
                           outcome.confidence, outcome.title, outcome.detail, attrs + outcome.attrs);
      if det.title == "" || det.description == "" then None
      else if ValidDetection(det) then Some(det) else None
  }

  function AlertId(detectionId: string): string {
    "alert-" + detectionId
  }

  // None is ErrAlertBuild.
  function BuildAlert(det: Detection, now: Time): Option<Alert> {
    if !ValidDetection(det) then None
    else if now == ZERO_TIME then None
    else
      var alert := Alert(AlertId(det.id), [det.id], ALERT_OPEN, det.severity, Some(now), Some(now),
                         "Alert: " + det.title);
      if ValidAlert(alert) then Some(alert) else None
  }

  // A built detection always has its alert.
  lemma AlertFollows(rule: RuleInfo, outcome: Outcome, now: Time)
    requires BuildDetection(rule, outcome, now).Some?
    ensures BuildAlert(BuildDetection(rule, outcome, now).value, now).Some?
  {
  }

  // A built detection is valid, keeps what the rule said, lists its events in order, and has the id of rule and events.
  lemma DetectionStands(rule: RuleInfo, outcome: Outcome, now: Time)
    requires BuildDetection(rule, outcome, now).Some?
    ensures var det := BuildDetection(rule, outcome, now).value;
            && ValidDetection(det) && det.id == DetectionId(rule.id, outcome.eventIds)
            && Sorted(det.eventIds, StrLe) && multiset(det.eventIds) == multiset(outcome.eventIds)
            && det.ruleId == rule.id && det.severity == outcome.severity && det.confidence == outcome.confidence
            && det.detectedAt == Some(now)
  {
    StrLeIsOrder();
    SortBySorts(outcome.eventIds, StrLe);
    SortStringsPermuted(SortStrings(outcome.eventIds), outcome.eventIds);
  }

  // What keeps a match from becoming a detection: no events or one without an id, a value out of range, a clock at zero, an
  // empty text, or an attribute under the engine's own prefix.
  ghost predicate Unbuildable(rule: RuleInfo, outcome: Outcome, now: Time) {
    || outcome.NoMatch? || outcome.eventIds == [] || "" in outcome.eventIds
    || outcome.severity < 1 || outcome.severity > 5 || outcome.confidence < 0.0 || outcome.confidence > 1.0
    || now == 0 || outcome.title == "" || outcome.detail == "" || rule.id == "" || rule.name == ""
    || exists k :: k in outcome.attrs && "blueveil." <= k
  }

  /** A match becomes a detection exactly when nothing of that kind is wrong, and the detection says what rule and match say. */
  lemma DetectionMeans(rule: RuleInfo, outcome: Outcome, now: Time)
    ensures BuildDetection(rule, outcome, now).None? <==> Unbuildable(rule, outcome, now)
    ensures BuildDetection(rule, outcome, now).Some? ==>
              var det := BuildDetection(rule, outcome, now).value;
              && det.ruleId == rule.id && det.ruleName == rule.name && det.title == outcome.title
              && det.description == outcome.detail && det.severity == outcome.severity
              && det.confidence == outcome.confidence && det.detectedAt == Some(now)
  {
    if outcome.Match? {
      StrLeIsOrder();
      SortBySorts(outcome.eventIds, StrLe);
      MembersOfPermutation(SortStrings(outcome.eventIds), outcome.eventIds);
      assert DetectionId(rule.id, SortStrings(outcome.eventIds))[0] == 'd';
    }
  }

  /** Every detection has its alert, open, of its severity and under its title. */
  lemma AlertMeans(det: Detection, now: Time)
    requires ValidDetection(det) && now != ZERO_TIME
    ensures BuildAlert(det, now).Some?
    ensures var alert := BuildAlert(det, now).value;
            && alert.id == "alert-" + det.id && alert.detectionIds == [det.id] && alert.status == 1
            && alert.severity == det.severity && alert.createdAt == alert.updatedAt == Some(now)
            && alert.title == "Alert: " + det.title
  {
  }

  // Its attributes are the engine's own two and those of the rule, and neither hides the other.
  lemma AttributesKept(rule: RuleInfo, outcome: Outcome, now: Time)
    requires BuildDetection(rule, outcome, now).Some?
    ensures var attrs := BuildDetection(rule, outcome, now).value.attributes;
            && attrs.Keys == outcome.attrs.Keys + {"blueveil.rule_version", "blueveil.confidence_basis"}
            && attrs["blueveil.rule_version"] == rule.version && attrs["blueveil.confidence_basis"] == BASIS
            && (forall k :: k in outcome.attrs ==> attrs[k] == outcome.attrs[k])
  {
    assert RESERVED <= "blueveil.rule_version" && RESERVED <= "blueveil.confidence_basis";
  }

  // The text a detection id digests.
  function Preimage(rule: string, eventIds: seq<string>): string {
    rule + [SEPARATOR] + Join(SortStrings(eventIds), SEPARATOR)
  }

  /** Two matches share a detection id exactly when rule and sorted events join to the same text. */
  lemma DetectionIdExactly(r: string, es: seq<string>, q: string, fs: seq<string>)
    ensures DetectionId(r, es) == DetectionId(q, fs) <==> Preimage(r, es) == Preimage(q, fs)
  {
    if DetectionId(r, es) == DetectionId(q, fs) {
      assert DetectionId(r, es)[4..] == Digest(Preimage(r, es));
      assert DetectionId(q, fs)[4..] == Digest(Preimage(q, fs));
      DigestInjective(Preimage(r, es), Preimage(q, fs));
    }
  }

  lemma SortedOne(a: string)
    ensures SortStrings([a]) == [a] && Join([a], SEPARATOR) == a
  {
    assert [a][1..] == [] && SortBy([], StrLe) == [];
  }

  lemma SortedPair(a: string, b: string)
    requires StrLe(a, b)
    ensures SortStrings([a, b]) == [a, b] && Join([a, b], SEPARATOR) == a + [SEPARATOR] + b
  {
    SortedOne(b);
    assert [a, b][1..] == [b];
    assert SortBy([a, b], StrLe) == Insert(a, [b], StrLe);
    assert [a] + [b] == [a, b];
  }

  /** Ids holding the separator collide: two events and one event of one rule, and one event of two rules. */
  lemma DetectionIdsCollide(r: string, a: string, b: string)
    requires StrLe(a, b)
    ensures DetectionId(r, [a, b]) == DetectionId(r, [a + [SEPARATOR] + b])
         == DetectionId(r + [SEPARATOR] + a, [b])
  {
    var joined := a + [SEPARATOR] + b;
    SortedPair(a, b);
    SortedOne(joined);
    SortedOne(b);
    assert r + [SEPARATOR] + joined == (r + [SEPARATOR] + a) + [SEPARATOR] + b;
  }

  /** Detection ids identify matches: without separators inside rule and event ids, two matches share an id exactly when
      they are of the same rule over the same events, whatever order the events are listed in. */
  lemma DetectionIdIdentifies(r: string, es: seq<string>, q: string, fs: seq<string>)
    requires es != [] && fs != [] && SEPARATOR !in r && SEPARATOR !in q
    requires forall id :: id in es || id in fs ==> SEPARATOR !in id
    ensures DetectionId(r, es) == DetectionId(q, fs) <==> r == q && multiset(es) == multiset(fs)
  {
    StrLeIsOrder();
    SortBySorts(es, StrLe);
    SortBySorts(fs, StrLe);
    MembersOfPermutation(SortStrings(es), es);
    MembersOfPermutation(SortStrings(fs), fs);
    if multiset(es) == multiset(fs) {
      SortStringsPermuted(es, fs);
    }
    if DetectionId(r, es) == DetectionId(q, fs) {
      DetectionIdExactly(r, es, q, fs);
      SplitOnce(r, Join(SortStrings(es), SEPARATOR), q, Join(SortStrings(fs), SEPARATOR));
      JoinInjective(SortStrings(es), SortStrings(fs), SEPARATOR);
    }
  }

  // ---------------------------------------------------------------------------
  // Registry
  // ---------------------------------------------------------------------------

  class Registry {
    var order: seq<RuleInfo>
    var byId: map<string, RuleInfo>
    var disabled: set<string>

    ghost predicate Valid()
      reads this
    {
      && DistinctRules(order)
      && (forall i :: 0 <= i < |order| ==> order[i].id in byId && byId[order[i].id] == order[i])
      && (forall id :: id in byId ==> exists i :: 0 <= i < |order| && order[i].id == id)
      && disabled <= byId.Keys
    }

    constructor ()
      ensures Valid() && order == [] && disabled == {}
    {
      order, byId, disabled := [], map[], {};
    }

    method Register(rule: RuleInfo) returns (ok: bool)
      requires Valid()
      modifies this
      ensures Valid() && disabled == old(disabled)
      ensures ok == (rule.id != "" && forall r :: r in old(order) ==> r.id != rule.id)
      ensures order == if ok then old(order) + [rule] else old(order)
    {
      if rule.id == "" || rule.id in byId {
        return false;
      }
      assert forall r :: r in order ==> r.id in byId;
      byId := byId[rule.id := rule];
      order := order + [rule];
      assert order[..|order| - 1] == old(order) && order[|order| - 1] == rule;
      return true;
    }

    method Disable(id: string) returns (ok: bool)
      requires Valid()
      modifies this
      ensures Valid() && order == old(order)
      ensures ok == exists r :: r in order && r.id == id
      ensures disabled == if ok then old(disabled) + {id} else old(disabled)
    {
      if id !in byId {
        return false;
      }
      disabled := disabled + {id};
      return true;
    }

    method Enable(id: string) returns (ok: bool)
      requires Valid()
      modifies this
      ensures Valid() && order == old(order)
      ensures ok == exists r :: r in order && r.id == id
      ensures disabled == if ok then old(disabled) - {id} else old(disabled)
    {
      if id !in byId {
        return false;
      }
      disabled := disabled - {id};
      return true;
    }

    method IsEnabled(id: string) returns (enabled: bool)
      requires Valid()
      ensures enabled == ((exists r :: r in order && r.id == id) && id !in disabled)
    {
      if id !in byId {
        return false;
      }
      return id !in disabled;
    }
  }

  ghost predicate DistinctRules(rules: seq<RuleInfo>) {
    forall i, j :: 0 <= i < j < |rules| ==> rules[i].id != rules[j].id
  }

  // ---------------------------------------------------------------------------
  // Engine state and one Process call
  // ---------------------------------------------------------------------------

  datatype ErrorRecord = ErrorRecord(ruleId: string, eventId: string, at: Time, severity: Severity)

  datatype RuleStat = RuleStat(evaluated: nat, detections: nat, errors: nat, errEvents: seq<ErrorRecord>)

  const NO_STAT: RuleStat := RuleStat(0, 0, 0, [])

  type Stats = map<string, RuleStat>

  function StatOf(stats: Stats, ruleId: string): RuleStat {
    if ruleId in stats then stats[ruleId] else NO_STAT
  }

  datatype EngineState = EngineState(
    seen: set<string>, emittedDet: nat, emittedAlert: nat, suppressed: nat, stats: Stats)

  const EMPTY: EngineState := EngineState({}, 0, 0, 0, map[])

  datatype Matched = Matched(rule: RuleInfo, outcome: Outcome)

  datatype Error = ErrInvalidTelemetry | ErrRuleEvaluation | ErrDetectionBuild | ErrAlertBuild

  datatype ProcessResult =
    | Processed(detections: seq<Detection>, alerts: seq<Alert>, suppressed: nat)
    | Aborted(error: Error)

  // What the rules would answer about the event, by rule id.
  type Answers = string -> Evaluation

  // The counters after the first n rules; matches is None once a rule has failed, which ends the evaluation.
  datatype Evaluating = Evaluating(stats: Stats, matches: Option<seq<Matched>>)

  // The counters after one rule has been asked.
  function Tallied(stats: Stats, ruleId: string, answer: Evaluation, e: TelemetryEvent, now: Time): Stats {
    var st := StatOf(stats, ruleId);
    if answer.Evaluated? then stats[ruleId := st.(evaluated := st.evaluated + 1)]
    else stats[ruleId := RuleStat(st.evaluated + 1, st.detections, st.errors + 1,
                                  st.errEvents + [ErrorRecord(ruleId, e.id, now, e.severity)])]
  }

  function EvaluateOne(was: Evaluating, rule: RuleInfo, disabled: set<string>, e: TelemetryEvent, now: Time,
                       answers: Answers): Evaluating
  {
    if was.matches.None? || rule.id in disabled then was
    else
      var answer := answers(rule.id);
      Evaluating(Tallied(was.stats, rule.id, answer, e, now),
                 if answer.RuleError? then None
                 else if answer.outcome.Match? then Some(was.matches.value + [Matched(rule, answer.outcome)])
                 else was.matches)
  }

  function EvaluateRules(stats: Stats, rules: seq<RuleInfo>, disabled: set<string>, e: TelemetryEvent, now: Time,
                         answers: Answers): Evaluating
  {
    if rules == [] then Evaluating(stats, Some([]))
    else
      EvaluateOne(EvaluateRules(stats, rules[..|rules| - 1], disabled, e, now, answers), rules[|rules| - 1], disabled,
                  e, now, answers)
  }

  // The engine and its result after emitting some matches.
  datatype Emitting = Emitting(state: EngineState, result: ProcessResult)

  // The engine after a new detection of a rule.
  function Remembering(s: EngineState, detId: string, ruleId: string): EngineState {
    var st := StatOf(s.stats, ruleId);
    EngineState(s.seen + {detId}, s.emittedDet + 1, s.emittedAlert + 1, s.suppressed,
                if ruleId in s.stats then s.stats[ruleId := st.(detections := st.detections + 1)] else s.stats)
  }

  function EmitOne(was: Emitting, m: Matched, now: Time): Emitting {
    if was.result.Aborted? then was
    else
      match BuildDetection(m.rule, m.outcome, now)
      case None => was.(result := Aborted(ErrDetectionBuild))
      case Some(det) =>
        match BuildAlert(det, now)
        case None => was.(result := Aborted(ErrAlertBuild))
        case Some(alert) =>
          var s, r := was.state, was.result;
          if det.id in s.seen then
            Emitting(s.(suppressed := s.suppressed + 1), r.(suppressed := r.suppressed + 1))
          else
            Emitting(Remembering(s, det.id, m.rule.id),
                     r.(detections := r.detections + [det], alerts := r.alerts + [alert]))
  }

  function EmitMatches(s: EngineState, matches: seq<Matched>, now: Time): Emitting {
    if matches == [] then Emitting(s, Processed([], [], 0))
    else EmitOne(EmitMatches(s, matches[..|matches| - 1], now), matches[|matches| - 1], now)
  }

  function ProcessStep(s: EngineState, rules: seq<RuleInfo>, disabled: set<string>, e: TelemetryEvent, now: Time,
                       answers: Answers): Emitting
  {
    if !ValidEvent(e) then Emitting(s, Aborted(ErrInvalidTelemetry))
    else if now == ZERO_TIME then Emitting(s, Aborted(ErrDetectionBuild))
    else
      var ev := EvaluateRules(s.stats, rules, disabled, e, now, answers);
      var s' := s.(stats := ev.stats);
      if ev.matches.None? then Emitting(s', Aborted(ErrRuleEvaluation))
      else EmitMatches(s', ev.matches.value, now)
  }

  // ---------------------------------------------------------------------------
  // Runs
  // ---------------------------------------------------------------------------

  // The engine together with its registry.
  datatype World = World(engine: EngineState, rules: seq<RuleInfo>, disabled: set<string>)

  const START: World := World(EMPTY, [], {})

  datatype Action =
    | Register(rule: RuleInfo)
    | Disable(id: string)
    | Enable(id: string)
    | Process(event: TelemetryEvent, now: Time, answers: Answers)

  predicate Registered(rules: seq<RuleInfo>, id: string) {
    exists r :: r in rules && r.id == id
  }

  function Turn(w: World, a: Action): World {
    match a
    case Register(rule) =>
      if rule.id == "" || Registered(w.rules, rule.id) then w else w.(rules := w.rules + [rule])
    case Disable(id) => if Registered(w.rules, id) then w.(disabled := w.disabled + {id}) else w
    case Enable(id) => if Registered(w.rules, id) then w.(disabled := w.disabled - {id}) else w
    case Process(e, now, answers) =>
      w.(engine := ProcessStep(w.engine, w.rules, w.disabled, e, now, answers).state)
  }

  // The detections an action hands to its caller.
  function Returned(w: World, a: Action): seq<Detection> {
    if !a.Process? then []
    else
      var r := ProcessStep(w.engine, w.rules, w.disabled, a.event, a.now, a.answers).result;
      if r.Processed? then r.detections else []
  }

  function Play(actions: seq<Action>): World {
    if actions == [] then START else Turn(Play(actions[..|actions| - 1]), actions[|actions| - 1])
  }

  function Emissions(actions: seq<Action>): seq<Detection> {
    if actions == [] then []
    else
      var front := actions[..|actions| - 1];
      Emissions(front) + Returned(Play(front), actions[|actions| - 1])
  }

  // ---------------------------------------------------------------------------
  // The engine
  // ---------------------------------------------------------------------------

  class Engine {
    const registry: Registry
    var seen: set<string>
    var emittedDet: nat
    var emittedAlert: nat
    var suppressed: nat
    var stats: Stats

    ghost predicate Valid()
      reads this, registry
    {
      registry.Valid() && Conserved(Current())
    }

    ghost function State(): EngineState
      reads this
    {
      EngineState(seen, emittedDet, emittedAlert, suppressed, stats)
    }

    ghost function Current(): World
      reads this, registry
    {
      World(State(), registry.order, registry.disabled)
    }

    constructor ()
      ensures Valid() && Current() == START && fresh(registry)
    {
      registry := new Registry();
      seen, emittedDet, emittedAlert, suppressed, stats := {}, 0, 0, 0, map[];
    }

    method RegisterRule(rule: RuleInfo) returns (ok: bool)
      requires Valid()
      modifies registry
      ensures Valid() && Current() == Turn(old(Current()), Action.Register(rule))
      ensures ok == (rule.id != "" && !Registered(old(registry.order), rule.id))
    {
      TurnConserves(Current(), Action.Register(rule));
      ok := registry.Register(rule);
    }

    method DisableRule(id: string) returns (ok: bool)
      requires Valid()
      modifies registry
      ensures Valid() && Current() == Turn(old(Current()), Action.Disable(id))
      ensures ok == Registered(registry.order, id)
    {
      ok := registry.Disable(id);
    }

    method EnableRule(id: string) returns (ok: bool)
      requires Valid()
      modifies registry
      ensures Valid() && Current() == Turn(old(Current()), Action.Enable(id))
      ensures ok == Registered(registry.order, id)
    {
      ok := registry.Enable(id);
    }

    method Process(e: TelemetryEvent, now: Time, answers: Answers) returns (r: ProcessResult)
      requires Valid()
      modifies this
      ensures Valid() && Current() == Turn(old(Current()), Action.Process(e, now, answers))
      ensures Emitting(State(), r)
           == ProcessStep(old(State()), registry.order, registry.disabled, e, now, answers)
    {
      TurnConserves(Current(), Action.Process(e, now, answers));
      if !ValidEvent(e) {
        return Aborted(ErrInvalidTelemetry);
      }
      if now == ZERO_TIME {
        return Aborted(ErrDetectionBuild);
      }
      var matches := Evaluate(e, now, answers);
      if matches.None? {
        return Aborted(ErrRuleEvaluation);
      }
      r := Emit(matches.value, now);
    }

    method Evaluate(e: TelemetryEvent, now: Time, answers: Answers) returns (matches: Option<seq<Matched>>)
      requires registry.Valid()
      modifies this`stats
      ensures Evaluating(stats, matches)
           == EvaluateRules(old(stats), registry.order, registry.disabled, e, now, answers)
    {
      var found := [];
      var rules := registry.order;
      for i := 0 to |rules|
        invariant Evaluating(stats, Some(found))
               == EvaluateRules(old(stats), rules[..i], registry.disabled, e, now, answers)
      {
        OneMoreRule(old(stats), rules, i, registry.disabled, e, now, answers);
        assert rules[i] in registry.order;
        var enabled := registry.IsEnabled(rules[i].id);
        if !enabled {
          continue;
        }
        var evaluation := EvaluateRule(rules[i], e, now, answers);
        if evaluation.RuleError? {
          FailureStays(old(stats), rules, i + 1, registry.disabled, e, now, answers);
          return None;
        }
        if evaluation.outcome.Match? {
          found := found + [Matched(rules[i], evaluation.outcome)];
        }
      }
      assert rules[..|rules|] == rules;
      return Some(found);
    }

    method EvaluateRule(rule: RuleInfo, e: TelemetryEvent, now: Time, answers: Answers) returns (r: Evaluation)
      modifies this`stats
      ensures r == answers(rule.id)
      ensures stats == Tallied(old(stats), rule.id, r, e, now)
    {
      var st := if rule.id in stats then stats[rule.id] else NO_STAT;
      st := st.(evaluated := st.evaluated + 1);
      stats := stats[rule.id := st];
      r := answers(rule.id);
      if r.RuleError? {
        st := st.(errors := st.errors + 1,
                  errEvents := st.errEvents + [ErrorRecord(rule.id, e.id, now, e.severity)]);
        stats := stats[rule.id := st];
      }
    }

    method Remember(detId: string, ruleId: string)
      modifies this
      ensures State() == Remembering(old(State()), detId, ruleId)
    {
      seen := seen + {detId};
      emittedDet := emittedDet + 1;
      emittedAlert := emittedAlert + 1;
      if ruleId in stats {
        var st := stats[ruleId];
        stats := stats[ruleId := st.(detections := st.detections + 1)];
      }
    }

    method Emit(matches: seq<Matched>, now: Time) returns (r: ProcessResult)
      modifies this
      ensures Emitting(State(), r) == EmitMatches(old(State()), matches, now)
    {
      r := Processed([], [], 0);
      for i := 0 to |matches|
        invariant r.Processed? && Emitting(State(), r) == EmitMatches(old(State()), matches[..i], now)
      {
        OneMoreMatch(old(State()), matches, i, now);
        r := EmitNext(r, matches[i], now);
        if r.Aborted? {
          AbortStays(old(State()), matches, i + 1, now);
          return;
        }
      }
      assert matches[..|matches|] == matches;
    }

    // One match, after those before it were emitted.
    method EmitNext(was: ProcessResult, m: Matched, now: Time) returns (r: ProcessResult)
      requires was.Processed?
      modifies this
      ensures Emitting(State(), r) == EmitOne(Emitting(old(State()), was), m, now)
    {
      var det := BuildDetection(m.rule, m.outcome, now);
      if det.None? {
        return Aborted(ErrDetectionBuild);
      }
      var alert := BuildAlert(det.value, now);
      if alert.None? {
        return Aborted(ErrAlertBuild);
      }
      if det.value.id in seen {
        suppressed := suppressed + 1;
        return was.(suppressed := was.suppressed + 1);
      }
      Remember(det.value.id, m.rule.id);
      return was.(detections := was.detections + [det.value], alerts := was.alerts + [alert.value]);
    }
  }

  lemma OneMoreRule(stats: Stats, rules: seq<RuleInfo>, i: nat, disabled: set<string>, e: TelemetryEvent, now: Time,
                    answers: Answers)
    requires i < |rules|
    ensures EvaluateRules(stats, rules[..i + 1], disabled, e, now, answers)
         == EvaluateOne(EvaluateRules(stats, rules[..i], disabled, e, now, answers), rules[i], disabled, e, now,
                        answers)
  {
    assert rules[..i + 1][..i] == rules[..i];
  }

  lemma OneMoreMatch(s: EngineState, matches: seq<Matched>, i: nat, now: Time)
    requires i < |matches|
    ensures EmitMatches(s, matches[..i + 1], now) == EmitOne(EmitMatches(s, matches[..i], now), matches[i], now)
  {
    assert matches[..i + 1][..i] == matches[..i];
  }

  lemma {:induction false} FailureStays(stats: Stats, rules: seq<RuleInfo>, n: nat, disabled: set<string>,
                                        e: TelemetryEvent, now: Time, answers: Answers)
    requires n <= |rules| && EvaluateRules(stats, rules[..n], disabled, e, now, answers).matches.None?
    ensures EvaluateRules(stats, rules, disabled, e, now, answers)
         == EvaluateRules(stats, rules[..n], disabled, e, now, answers)
  {
    if n < |rules| {
      assert rules[..|rules| - 1][..n] == rules[..n];
      FailureStays(stats, rules[..|rules| - 1], n, disabled, e, now, answers);
    } else {
      assert rules[..n] == rules;
    }
  }

  lemma {:induction false} AbortStays(s: EngineState, matches: seq<Matched>, n: nat, now: Time)
    requires n <= |matches| && EmitMatches(s, matches[..n], now).result.Aborted?
    ensures EmitMatches(s, matches, now) == EmitMatches(s, matches[..n], now)
  {
    if n < |matches| {
      assert matches[..|matches| - 1][..n] == matches[..n];
      AbortStays(s, matches[..|matches| - 1], n, now);
    } else {
      assert matches[..n] == matches;
    }
  }

  // ---------------------------------------------------------------------------
  // Conservation
  // ---------------------------------------------------------------------------

  function SumDetections(stats: Stats, rules: seq<RuleInfo>): nat {
    if rules == [] then 0
    else SumDetections(stats, rules[..|rules| - 1]) + StatOf(stats, rules[|rules| - 1].id).detections
  }

  // Emissions are counted the same everywhere, and no rule claims more than its evaluations.
  ghost predicate Conserved(w: World) {
    && DistinctRules(w.rules)
    && (forall id :: id in w.engine.stats ==> Registered(w.rules, id))
    && CountsAgree(w.engine, w.rules)
    && Balanced(w.engine.stats)
  }

  ghost predicate CountsAgree(s: EngineState, rules: seq<RuleInfo>) {
    s.emittedDet == s.emittedAlert == |s.seen| == SumDetections(s.stats, rules)
  }

  lemma {:induction false} SumUnchanged(stats: Stats, stats': Stats, rules: seq<RuleInfo>)
    requires forall r :: r in rules ==> StatOf(stats', r.id).detections == StatOf(stats, r.id).detections
    ensures SumDetections(stats', rules) == SumDetections(stats, rules)
  {
    if rules != [] {
      SumUnchanged(stats, stats', rules[..|rules| - 1]);
    }
  }

  lemma {:induction false} SumGrows(stats: Stats, rules: seq<RuleInfo>, rule: RuleInfo, st: RuleStat)
    requires DistinctRules(rules) && rule in rules
    ensures SumDetections(stats[rule.id := st], rules) + StatOf(stats, rule.id).detections
         == SumDetections(stats, rules) + st.detections
  {
    var n := |rules| - 1;
    if rules[n] == rule {
      SumUnchanged(stats, stats[rule.id := st], rules[..n]);
    } else {
      assert rules == rules[..n] + [rules[n]];
      SumGrows(stats, rules[..n], rule, st);
    }
  }

  // No rule claims more detections and errors than evaluations, and every error is recorded.
  ghost predicate Balanced(stats: Stats) {
    forall id :: id in stats ==>
      stats[id].detections + stats[id].errors <= stats[id].evaluated && |stats[id].errEvents| == stats[id].errors
  }

  // The rule of a pending match has been evaluated once more than it has claimed.
  ghost predicate Pending(stats: Stats, id: string) {
    id in stats && stats[id].detections + stats[id].errors < stats[id].evaluated
  }

  ghost predicate Headroom(stats: Stats, matches: seq<Matched>) {
    && Balanced(stats)
    && (forall i :: 0 <= i < |matches| ==> Pending(stats, matches[i].rule.id))
    && (forall i, j :: 0 <= i < j < |matches| ==> matches[i].rule.id != matches[j].rule.id)
  }

  lemma TalliedFacts(stats: Stats, ruleId: string, answer: Evaluation, e: TelemetryEvent, now: Time)
    requires Balanced(stats)
    ensures var after := Tallied(stats, ruleId, answer, e, now);
            && Balanced(after)
            && (forall id :: StatOf(after, id).detections == StatOf(stats, id).detections)
            && (forall id :: id != ruleId && Pending(stats, id) ==> Pending(after, id))
            && (answer.Evaluated? ==> Pending(after, ruleId))
  {
  }

  lemma {:induction false} EvaluationBalances(stats: Stats, rules: seq<RuleInfo>, disabled: set<string>,
                                              e: TelemetryEvent, now: Time, answers: Answers)
    requires Balanced(stats)
    ensures var after := EvaluateRules(stats, rules, disabled, e, now, answers).stats;
            Balanced(after) && forall id :: StatOf(after, id).detections == StatOf(stats, id).detections
  {
    if rules != [] {
      var front, rule := rules[..|rules| - 1], rules[|rules| - 1];
      EvaluationBalances(stats, front, disabled, e, now, answers);
      TalliedFacts(EvaluateRules(stats, front, disabled, e, now, answers).stats, rule.id, answers(rule.id), e, now);
    }
  }

  // The matches come from the registered rules, each at most once.
  lemma {:induction false} EvaluationMatches(stats: Stats, rules: seq<RuleInfo>, disabled: set<string>,
                                             e: TelemetryEvent, now: Time, answers: Answers)
    requires DistinctRules(rules)
    ensures var found := EvaluateRules(stats, rules, disabled, e, now, answers).matches;
            found.Some? ==>
              && (forall m :: m in found.value ==> m.rule in rules && m.outcome.Match?)
              && (forall i, j :: 0 <= i < j < |found.value| ==> found.value[i].rule.id != found.value[j].rule.id)
  {
    if rules != [] {
      var front, rule := rules[..|rules| - 1], rules[|rules| - 1];
      assert rules == front + [rule];
      EvaluationMatches(stats, front, disabled, e, now, answers);
      var was := EvaluateRules(stats, front, disabled, e, now, answers).matches;
      if was.Some? {
        forall m | m in was.value ensures m.rule.id != rule.id {
          assert m.rule in front;
        }
      }
    }
  }

  predicate Asked(rule: RuleInfo, disabled: set<string>) {
    rule.id !in disabled
  }

  /** An evaluation asks every enabled rule and no other: it fails exactly when one of them fails, and otherwise finds
      exactly the matches they answer and counts one evaluation for each. */
  lemma {:induction false} EvaluationAsks(stats: Stats, rules: seq<RuleInfo>, disabled: set<string>, e: TelemetryEvent,
                                          now: Time, answers: Answers)
    ensures var ev := EvaluateRules(stats, rules, disabled, e, now, answers);
            && (ev.matches.None? <==> exists r :: r in rules && Asked(r, disabled) && answers(r.id).RuleError?)
            && (ev.matches.Some? ==> forall m :: m in ev.matches.value <==>
                  m.rule in rules && Asked(m.rule, disabled) && answers(m.rule.id) == Evaluated(m.outcome)
                  && m.outcome.Match?)
  {
    if rules != [] {
      var front, rule := rules[..|rules| - 1], rules[|rules| - 1];
      EvaluationAsks(stats, front, disabled, e, now, answers);
      assert forall r :: r in rules <==> r in front || r == rule;
    }
  }

  // Each enabled rule is counted once, and a disabled or unknown id not at all.
  lemma {:induction false} EvaluationCounts(stats: Stats, rules: seq<RuleInfo>, disabled: set<string>,
                                            e: TelemetryEvent, now: Time, answers: Answers, id: string)
    requires DistinctRules(rules)
    requires EvaluateRules(stats, rules, disabled, e, now, answers).matches.Some?
    ensures StatOf(EvaluateRules(stats, rules, disabled, e, now, answers).stats, id).evaluated
         == StatOf(stats, id).evaluated + if Registered(rules, id) && id !in disabled then 1 else 0
  {
    if rules != [] {
      var front, rule := rules[..|rules| - 1], rules[|rules| - 1];
      EvaluationCounts(stats, front, disabled, e, now, answers, id);
      assert forall r :: r in rules <==> r in front || r == rule;
      assert Registered(rules, id) <==> Registered(front, id) || id == rule.id;
    }
  }

  lemma {:induction false} EvaluationPends(stats: Stats, rules: seq<RuleInfo>, disabled: set<string>,
                                           e: TelemetryEvent, now: Time, answers: Answers)
    requires DistinctRules(rules) && Balanced(stats)
    ensures var ev := EvaluateRules(stats, rules, disabled, e, now, answers);
            ev.matches.Some? ==> forall m :: m in ev.matches.value ==> Pending(ev.stats, m.rule.id)
  {
    if rules != [] {
      var front, rule := rules[..|rules| - 1], rules[|rules| - 1];
      EvaluationPends(stats, front, disabled, e, now, answers);
      EvaluationBalances(stats, front, disabled, e, now, answers);
      EvaluationMatches(stats, front, disabled, e, now, answers);
      var was := EvaluateRules(stats, front, disabled, e, now, answers);
      TalliedFacts(was.stats, rule.id, answers(rule.id), e, now);
      if was.matches.Some? {
        forall m | m in was.matches.value ensures m.rule.id != rule.id {
          assert m.rule in front;
        }
      }
    }
  }

  lemma EvaluationConserves(stats: Stats, rules: seq<RuleInfo>, disabled: set<string>, e: TelemetryEvent, now: Time,
                            answers: Answers)
    requires DistinctRules(rules) && Balanced(stats)
    ensures var ev := EvaluateRules(stats, rules, disabled, e, now, answers);
            && Headroom(ev.stats, if ev.matches.Some? then ev.matches.value else [])
            && (ev.matches.Some? ==> forall m :: m in ev.matches.value ==> m.rule in rules && m.outcome.Match?)
            && (forall id :: StatOf(ev.stats, id).detections == StatOf(stats, id).detections)
  {
    EvaluationBalances(stats, rules, disabled, e, now, answers);
    EvaluationMatches(stats, rules, disabled, e, now, answers);
    EvaluationPends(stats, rules, disabled, e, now, answers);
  }

  lemma {:induction false} EvaluationKeys(stats: Stats, rules: seq<RuleInfo>, disabled: set<string>,
                                          e: TelemetryEvent, now: Time, answers: Answers)
    ensures forall id :: id in EvaluateRules(stats, rules, disabled, e, now, answers).stats
                         ==> id in stats || Registered(rules, id)
  {
    if rules != [] {
      var front, rule := rules[..|rules| - 1], rules[|rules| - 1];
      EvaluationKeys(stats, front, disabled, e, now, answers);
      assert forall r :: r in front ==> r in rules;
      assert rule in rules;
    }
  }

  // Emitting a match claims its rule's pending evaluation and no other's.
  lemma EmitOneFacts(was: Emitting, m: Matched, now: Time)
    requires Balanced(was.state.stats) && Pending(was.state.stats, m.rule.id)
    ensures var stats := EmitOne(was, m, now).state.stats;
            && Balanced(stats) && stats.Keys == was.state.stats.Keys
            && (forall id :: id != m.rule.id && Pending(was.state.stats, id) ==> Pending(stats, id))
  {
  }

  lemma {:induction false} EmissionHeadroom(s: EngineState, matches: seq<Matched>, n: nat, now: Time)
    requires n <= |matches| && Headroom(s.stats, matches)
    ensures var after := EmitMatches(s, matches[..n], now).state.stats;
            && Balanced(after) && after.Keys == s.stats.Keys
            && forall i :: n <= i < |matches| ==> Pending(after, matches[i].rule.id)
  {
    if n > 0 {
      EmissionHeadroom(s, matches, n - 1, now);
      assert matches[..n][..n - 1] == matches[..n - 1];
      EmitOneFacts(EmitMatches(s, matches[..n - 1], now), matches[n - 1], now);
    }
  }

  lemma {:induction false} EmissionCounts(s: EngineState, rules: seq<RuleInfo>, matches: seq<Matched>, now: Time)
    requires DistinctRules(rules) && CountsAgree(s, rules)
    requires forall m :: m in matches ==> m.rule in rules && m.rule.id in s.stats
    ensures CountsAgree(EmitMatches(s, matches, now).state, rules)
    ensures EmitMatches(s, matches, now).state.stats.Keys == s.stats.Keys
  {
    if matches != [] {
      EmissionCounts(s, rules, matches[..|matches| - 1], now);
      EmitOneCounts(EmitMatches(s, matches[..|matches| - 1], now), rules, matches[|matches| - 1], now);
    }
  }

  lemma EmitOneCounts(was: Emitting, rules: seq<RuleInfo>, m: Matched, now: Time)
    requires DistinctRules(rules) && CountsAgree(was.state, rules) && m.rule in rules && m.rule.id in was.state.stats
    ensures CountsAgree(EmitOne(was, m, now).state, rules)
    ensures EmitOne(was, m, now).state.stats.Keys == was.state.stats.Keys
  {
    var em := EmitOne(was, m, now);
    if em.state.stats != was.state.stats {
      SumGrows(was.state.stats, rules, m.rule, em.state.stats[m.rule.id]);
    }
  }

  // Every call keeps all emission counts equal, and aborted ones do too.
  lemma ProcessConserves(w: World, e: TelemetryEvent, now: Time, answers: Answers)
    requires Conserved(w)
    ensures Conserved(Turn(w, Process(e, now, answers)))
  {
    if ValidEvent(e) && now != ZERO_TIME {
      var s := w.engine;
      EvaluationConserves(s.stats, w.rules, w.disabled, e, now, answers);
      EvaluationKeys(s.stats, w.rules, w.disabled, e, now, answers);
      var ev := EvaluateRules(s.stats, w.rules, w.disabled, e, now, answers);
      SumUnchanged(s.stats, ev.stats, w.rules);
      if ev.matches.Some? {
        var matches := ev.matches.value;
        EmissionCounts(s.(stats := ev.stats), w.rules, matches, now);
        EmissionHeadroom(s.(stats := ev.stats), matches, |matches|, now);
        assert matches[..|matches|] == matches;
      }
    }
  }

  lemma TurnConserves(w: World, a: Action)
    requires Conserved(w)
    ensures Conserved(Turn(w, a))
  {
    if a.Process? {
      ProcessConserves(w, a.event, a.now, a.answers);
    } else if a.Register? && Turn(w, a) != w {
      var rules := w.rules + [a.rule];
      assert rules[..|rules| - 1] == w.rules;
      assert a.rule.id !in w.engine.stats;
      assert forall r :: r in w.rules ==> r in rules;
    }
  }

  // Conservation over every run of registrations, switches and events.
  lemma {:induction false} RunConserves(actions: seq<Action>)
    ensures Conserved(Play(actions))
  {
    if actions != [] {
      RunConserves(actions[..|actions| - 1]);
      TurnConserves(Play(actions[..|actions| - 1]), actions[|actions| - 1]);
    }
  }

  // ---------------------------------------------------------------------------
  // What the callers see
  // ---------------------------------------------------------------------------

  // How many matches, from the first on, can be built.
  function Buildable(matches: seq<Matched>, now: Time): (n: nat)
    ensures n <= |matches|
  {
    if matches == [] || BuildDetection(matches[0].rule, matches[0].outcome, now).None? then 0
    else 1 + Buildable(matches[1..], now)
  }

  ghost predicate DistinctIds(detections: seq<Detection>) {
    forall i, j :: 0 <= i < j < |detections| ==> detections[i].id != detections[j].id
  }

  function DetectionIds(detections: seq<Detection>): set<string> {
    set d | d in detections :: d.id
  }

  ghost predicate Aligned(det: Detection, alert: Alert, now: Time) {
    && ValidDetection(det) && ValidAlert(alert)
    && alert.id == AlertId(det.id) && alert.detectionIds == [det.id]
    && alert.severity == det.severity && alert.status == ALERT_OPEN
    && det.detectedAt == alert.createdAt == alert.updatedAt == Some(now)
  }

  // A processed call returns each new detection once, beside its own alert, and counts the others as suppressed.
  ghost predicate Delivers(s: EngineState, matches: nat, em: Emitting, now: Time) {
    var r := em.result;
    r.Processed? ==>
      && |r.detections| == |r.alerts|
      && (forall i :: 0 <= i < |r.detections| ==> Aligned(r.detections[i], r.alerts[i], now))
      && DistinctIds(r.detections)
      && (forall d :: d in r.detections ==> d.id !in s.seen)
      && em.state.seen == s.seen + DetectionIds(r.detections)
      && em.state.emittedDet == s.emittedDet + |r.detections|
      && em.state.suppressed == s.suppressed + r.suppressed
      && |r.detections| + r.suppressed == matches
  }

  lemma {:induction false} EmissionDelivers(s: EngineState, matches: seq<Matched>, now: Time)
    ensures Delivers(s, |matches|, EmitMatches(s, matches, now), now)
    ensures s.seen <= EmitMatches(s, matches, now).state.seen
  {
    if matches != [] {
      var m := matches[|matches| - 1];
      EmissionDelivers(s, matches[..|matches| - 1], now);
      var was, em := EmitMatches(s, matches[..|matches| - 1], now), EmitMatches(s, matches, now);
      if em.result.Processed? && em.result.detections != was.result.detections {
        var det := BuildDetection(m.rule, m.outcome, now).value;
        assert em.result.detections == was.result.detections + [det];
        assert DetectionIds(em.result.detections) == DetectionIds(was.result.detections) + {det.id};
      }
    }
  }

  // Built matches are either emitted or suppressed; the first that cannot be built aborts the call.
  lemma {:induction false} EmissionBuilds(s: EngineState, matches: seq<Matched>, now: Time)
    ensures var em := EmitMatches(s, matches, now);
            && em.state.emittedDet + em.state.suppressed
               == s.emittedDet + s.suppressed + Buildable(matches, now)
            && (em.result.Processed? <==> Buildable(matches, now) == |matches|)
  {
    if matches != [] {
      var front, m := matches[..|matches| - 1], matches[|matches| - 1];
      EmissionBuilds(s, front, now);
      BuildableFront(matches, now);
      if BuildDetection(m.rule, m.outcome, now).Some? {
        AlertFollows(m.rule, m.outcome, now);
      }
    }
  }

  // The matches an action can build before the first it cannot.
  function BuiltBy(w: World, a: Action): nat {
    if !a.Process? || !ValidEvent(a.event) || a.now == ZERO_TIME then 0
    else
      var found := EvaluateRules(w.engine.stats, w.rules, w.disabled, a.event, a.now, a.answers).matches;
      if found.Some? then Buildable(found.value, a.now) else 0
  }

  function RunBuilt(actions: seq<Action>): nat {
    if actions == [] then 0
    else RunBuilt(actions[..|actions| - 1]) + BuiltBy(Play(actions[..|actions| - 1]), actions[|actions| - 1])
  }

  lemma TurnBuilds(w: World, a: Action)
    ensures var before, after := w.engine, Turn(w, a).engine;
            after.emittedDet + after.suppressed == before.emittedDet + before.suppressed + BuiltBy(w, a)
  {
    if a.Process? && ValidEvent(a.event) && a.now != ZERO_TIME {
      var ev := EvaluateRules(w.engine.stats, w.rules, w.disabled, a.event, a.now, a.answers);
      if ev.matches.Some? {
        EmissionBuilds(w.engine.(stats := ev.stats), ev.matches.value, a.now);
      }
    }
  }

  /** Over every run, the matches built are the distinct detection ids remembered and the matches counted as suppressed. */
  lemma {:induction false} RunBuilds(actions: seq<Action>)
    ensures var s := Play(actions).engine; RunBuilt(actions) == |s.seen| + s.suppressed
  {
    RunConserves(actions);
    if actions != [] {
      var front := actions[..|actions| - 1];
      RunBuilds(front);
      RunConserves(front);
      TurnBuilds(Play(front), actions[|actions| - 1]);
    }
  }

  lemma {:induction false} BuildableFront(matches: seq<Matched>, now: Time)
    requires matches != []
    ensures var n, m := Buildable(matches[..|matches| - 1], now), matches[|matches| - 1];
            var more := n == |matches| - 1 && BuildDetection(m.rule, m.outcome, now).Some?;
            Buildable(matches, now) == if more then n + 1 else n
  {
    if |matches| > 1 {
      BuildableFront(matches[1..], now);
      assert matches[1..][..|matches| - 2] == matches[..|matches| - 1][1..];
    }
  }

  // One call: what it returns is new, comes with its alerts, and is exactly what is remembered from then on.
  lemma ProcessDelivers(w: World, e: TelemetryEvent, now: Time, answers: Answers)
    ensures var em := ProcessStep(w.engine, w.rules, w.disabled, e, now, answers);
            && w.engine.seen <= em.state.seen
            && exists matches: nat :: Delivers(w.engine, matches, em, now)
  {
    var em := ProcessStep(w.engine, w.rules, w.disabled, e, now, answers);
    var matches: nat := 0;
    if ValidEvent(e) && now != ZERO_TIME {
      var ev := EvaluateRules(w.engine.stats, w.rules, w.disabled, e, now, answers);
      if ev.matches.Some? {
        EmissionDelivers(w.engine.(stats := ev.stats), ev.matches.value, now);
        matches := |ev.matches.value|;
      }
    }
    assert Delivers(w.engine, matches, em, now);
  }

  lemma ReturnedAreNew(w: World, a: Action)
    ensures var out, seen' := Returned(w, a), Turn(w, a).engine.seen;
            && DistinctIds(out)
            && (forall d :: d in out ==> d.id !in w.engine.seen && d.id in seen' && ValidDetection(d))
            && w.engine.seen <= seen'
  {
    if a.Process? {
      ProcessDelivers(w, a.event, a.now, a.answers);
      var em := ProcessStep(w.engine, w.rules, w.disabled, a.event, a.now, a.answers);
      var matches: nat :| Delivers(w.engine, matches, em, a.now);
      if em.result.Processed? {
        forall d | d in em.result.detections ensures d.id in em.state.seen && ValidDetection(d) {
          var i :| 0 <= i < |em.result.detections| && em.result.detections[i] == d;
          assert Aligned(em.result.detections[i], em.result.alerts[i], a.now);
          assert d.id in DetectionIds(em.result.detections);
        }
      }
    }
  }

  // Over a whole run no detection id reaches a caller twice.
  lemma {:induction false} EmittedOnce(actions: seq<Action>)
    ensures DistinctIds(Emissions(actions))
    ensures forall d :: d in Emissions(actions) ==> d.id in Play(actions).engine.seen && ValidDetection(d)
  {
    if actions != [] {
      var front, a := actions[..|actions| - 1], actions[|actions| - 1];
      EmittedOnce(front);
      ReturnedAreNew(Play(front), a);
      var before: seq<Detection>, out: seq<Detection> := Emissions(front), Returned(Play(front), a);
      var all := before + out;
      forall i: int, j: int | 0 <= i < j < |all| ensures all[i].id != all[j].id {
        if i < |before| && j >= |before| {
          assert before[i] in before && out[j - |before|] in out;
        }
      }
    }
  }

  // A run continued from any point.
  function Later(w: World, actions: seq<Action>): World {
    if actions == [] then w else Turn(Later(w, actions[..|actions| - 1]), actions[|actions| - 1])
  }

  function LaterEmissions(w: World, actions: seq<Action>): seq<Detection> {
    if actions == [] then []
    else
      var front := actions[..|actions| - 1];
      LaterEmissions(w, front) + Returned(Later(w, front), actions[|actions| - 1])
  }

  // What the engine remembers no later call returns.
  lemma {:induction false} RememberedIsNotReturned(w: World, actions: seq<Action>)
    ensures w.engine.seen <= Later(w, actions).engine.seen
    ensures forall d :: d in LaterEmissions(w, actions) ==> d.id !in w.engine.seen
  {
    if actions != [] {
      var front, a := actions[..|actions| - 1], actions[|actions| - 1];
      RememberedIsNotReturned(w, front);
      ReturnedAreNew(Later(w, front), a);
    }
  }

  /** What an aborted call has emitted before the abort nobody ever receives: the call returns nothing, and no continuation
      of the run returns an id it has remembered. */
  lemma AbortedCallSwallows(w: World, a: Action, later: seq<Action>)
    requires a.Process? && ProcessStep(w.engine, w.rules, w.disabled, a.event, a.now, a.answers).result.Aborted?
    ensures Returned(w, a) == []
    ensures forall d :: d in LaterEmissions(Turn(w, a), later) ==> d.id !in Turn(w, a).engine.seen
  {
    RememberedIsNotReturned(Turn(w, a), later);
  }

  // A match that can be built, followed by one that cannot, aborts the emission that has remembered the first.
  lemma AbortRemembers(s: EngineState, one: Matched, other: Matched, now: Time)
    requires BuildDetection(one.rule, one.outcome, now).Some?
    requires BuildDetection(other.rule, other.outcome, now).None?
    ensures var em := EmitMatches(s, [one, other], now);
            && em.result == Aborted(ErrDetectionBuild)
            && em.state.seen == s.seen + {BuildDetection(one.rule, one.outcome, now).value.id}
  {
    AlertFollows(one.rule, one.outcome, now);
    assert [one, other][..1] == [one] && [one][..0] == [];
    assert EmitMatches(s, [], now) == Emitting(s, Processed([], [], 0));
    assert EmitMatches(s, [one], now) == EmitOne(EmitMatches(s, [], now), one, now);
  }

  // Such a call happens: two rules, of which the second names no event.
  const GOOD: RuleInfo := RuleInfo("good", "1", "name")
  const BAD: RuleInfo := RuleInfo("bad", "1", "name")
  const SEEN_EVENT: TelemetryEvent := TelemetryEvent("event", Some(1), "source", "asset", "type", LOW, map[])
  const FOUND: Outcome := Match(LOW, 0.0, "title", "detail", ["event"], map[])
  const UNFOUNDED: Outcome := Match(LOW, 0.0, "title", "detail", [], map[])

  function Faulty(): Action {
    Process(SEEN_EVENT, 1, id => Evaluated(if id == "good" then FOUND else UNFOUNDED))
  }

  lemma TwoRulesPlayed()
    ensures Play([Register(GOOD), Register(BAD)]) == World(EMPTY, [GOOD, BAD], {})
  {
    var actions: seq<Action> := [Register(GOOD), Register(BAD)];
    assert actions[..1] == [Register(GOOD)] && actions[..1][..0] == [];
    assert Play(actions[..1]) == Turn(START, Register(GOOD)) == World(EMPTY, [GOOD], {}) by {
      assert [] + [GOOD] == [GOOD];
    }
    assert Play(actions) == Turn(Play(actions[..1]), Register(BAD));
    assert [GOOD] + [BAD] == [GOOD, BAD] && GOOD.id[0] != BAD.id[0] && !Registered([GOOD], BAD.id);
  }

  lemma FaultyMatches()
    ensures EvaluateRules(map[], [GOOD, BAD], {}, SEEN_EVENT, 1, Faulty().answers).matches
         == Some([Matched(GOOD, FOUND), Matched(BAD, UNFOUNDED)])
  {
    var answers := Faulty().answers;
    var none := EvaluateRules(map[], [], {}, SEEN_EVENT, 1, answers);
    assert [GOOD, BAD][..1] == [GOOD] && [GOOD][..0] == [] && none == Evaluating(map[], Some([]));
    var one := EvaluateRules(map[], [GOOD], {}, SEEN_EVENT, 1, answers);
    assert one == EvaluateOne(none, GOOD, {}, SEEN_EVENT, 1, answers);
    assert [] + [Matched(GOOD, FOUND)] == [Matched(GOOD, FOUND)];
    assert GOOD.id[0] != BAD.id[0] && answers("bad") == Evaluated(UNFOUNDED);
    assert [Matched(GOOD, FOUND)] + [Matched(BAD, UNFOUNDED)] == [Matched(GOOD, FOUND), Matched(BAD, UNFOUNDED)];
  }

  lemma FoundBuilds()
    ensures BuildDetection(GOOD, FOUND, 1).Some? && BuildDetection(BAD, UNFOUNDED, 1).None?
  {
    assert ["event"][1..] == [] && SortStrings(["event"]) == ["event"];
  }

  lemma FaultyAborts(w: World)
    requires w == World(EMPTY, [GOOD, BAD], {})
    ensures Returned(w, Faulty()) == [] && Turn(w, Faulty()).engine.seen == {DetectionId("good", ["event"])}
  {
    FaultyMatches();
    FoundBuilds();
    DetectionStands(GOOD, FOUND, 1);
    var ev := EvaluateRules(map[], [GOOD, BAD], {}, SEEN_EVENT, 1, Faulty().answers);
    AbortRemembers(EMPTY.(stats := ev.stats), Matched(GOOD, FOUND), Matched(BAD, UNFOUNDED), 1);
  }

  /** A run in which a call aborts after counting and remembering a detection that it does not return. */
  lemma AbortHappens()
    ensures var w := Play([Register(GOOD), Register(BAD)]);
            var s := Turn(w, Faulty()).engine;
            Returned(w, Faulty()) == [] && s.seen == {DetectionId("good", ["event"])} && s.emittedDet == 1
  {
    TwoRulesPlayed();
    var w := Play([Register(GOOD), Register(BAD)]);
    FaultyAborts(w);
    RunConserves([Register(GOOD), Register(BAD)]);
    TurnConserves(w, Faulty());
  }

  // The ids of the matches before the first that cannot be built.
  function BuiltIds(matches: seq<Matched>, now: Time): set<string> {
    if matches == [] then {}
    else
      var front, m := matches[..|matches| - 1], matches[|matches| - 1];
      var det := BuildDetection(m.rule, m.outcome, now);
      if Buildable(front, now) == |front| && det.Some? then BuiltIds(front, now) + {det.value.id}
      else BuiltIds(front, now)
  }

  lemma {:induction false} EmissionRemembers(s: EngineState, matches: seq<Matched>, now: Time)
    ensures var em := EmitMatches(s, matches, now);
            && em.state.seen == s.seen + BuiltIds(matches, now)
            && s.emittedDet <= em.state.emittedDet
            && (em.state.emittedDet == s.emittedDet <==> BuiltIds(matches, now) <= s.seen)
  {
    if matches != [] {
      var front := matches[..|matches| - 1];
      EmissionRemembers(s, front, now);
      EmissionBuilds(s, front, now);
      var m := matches[|matches| - 1];
      if BuildDetection(m.rule, m.outcome, now).Some? {
        AlertFollows(m.rule, m.outcome, now);
      }
    }
  }

  // Every emitted detection reaches the caller exactly when all matches can be built, or those before the first that
  // cannot were already emitted.
  lemma NothingSwallowed(s: EngineState, matches: seq<Matched>, now: Time)
    ensures var em := EmitMatches(s, matches, now);
            var returned := if em.result.Processed? then |em.result.detections| else 0;
            var nothingLost := em.state.emittedDet == s.emittedDet + returned;
            nothingLost <==> Buildable(matches, now) == |matches| || BuiltIds(matches, now) <= s.seen
  {
    EmissionDelivers(s, matches, now);
    EmissionBuilds(s, matches, now);
    EmissionRemembers(s, matches, now);
  }

  // ---------------------------------------------------------------------------
  // The store of emitted pairs
  // ---------------------------------------------------------------------------

  datatype Pair = Pair(det: Detection, alert: Alert)

  function Zip(detections: seq<Detection>, alerts: seq<Alert>): seq<Pair>
    requires |detections| == |alerts|
  {
    seq(|detections|, i requires 0 <= i < |detections| => Pair(detections[i], alerts[i]))
  }

  class Store {
    var detections: seq<Detection>
    var alerts: seq<Alert>

    ghost predicate Valid()
      reads this
    {
      |detections| == |alerts|
    }

    ghost function Pairs(): seq<Pair>
      reads this
      requires Valid()
    {
      Zip(detections, alerts)
    }

    constructor ()
      ensures Valid() && Pairs() == []
    {
      detections, alerts := [], [];
    }

    method Add(det: Detection, alert: Alert)
      requires Valid()
      modifies this
      ensures Valid() && Pairs() == old(Pairs()) + [Pair(det, alert)]
    {
      detections := detections + [det];
      alerts := alerts + [alert];
    }
  }

  /** A call is refused outright exactly on a broken event or a clock at zero, and then nothing changes. */
  lemma ProcessRefuses(s: EngineState, rules: seq<RuleInfo>, disabled: set<string>, e: TelemetryEvent, now: Time,
                       answers: Answers)
    ensures var p := ProcessStep(s, rules, disabled, e, now, answers);
            && (p.result == Aborted(ErrInvalidTelemetry) <==> BrokenEvent(e))
            && (BrokenEvent(e) || now == 0 ==> p.state == s && p.result.Aborted?)
  {
    EventFaults(e);
    var ev := EvaluateRules(s.stats, rules, disabled, e, now, answers);
    if ev.matches.Some? {
      EmissionAborts(s.(stats := ev.stats), ev.matches.value, now);
    }
  }

  // An emission only ever fails to build.
  lemma {:induction false} EmissionAborts(s: EngineState, matches: seq<Matched>, now: Time)
    ensures EmitMatches(s, matches, now).result != Aborted(ErrInvalidTelemetry)
  {
    if matches != [] {
      EmissionAborts(s, matches[..|matches| - 1], now);
    }
  }

  // ---------------------------------------------------------------------------
  // The rules' errors
  // ---------------------------------------------------------------------------

  // The rule at n is the first enabled one that fails.
  ghost predicate FailsFirst(rules: seq<RuleInfo>, disabled: set<string>, answers: Answers, n: nat) {
    && n < |rules| && rules[n].id !in disabled && answers(rules[n].id).RuleError?
    && forall i :: 0 <= i < n ==> rules[i].id in disabled || !answers(rules[i].id).RuleError?
  }

  // The record of a rule before and after an evaluation in which it failed first, or did not.
  ghost predicate Notes(was: RuleStat, st: RuleStat, failed: bool, err: ErrorRecord) {
    st.errors == was.errors + (if failed then 1 else 0) && st.detections == was.detections
    && st.errEvents == if failed then was.errEvents + [err] else was.errEvents
  }

  ghost predicate Fails(rules: seq<RuleInfo>, disabled: set<string>, answers: Answers) {
    exists n: nat :: FailsFirst(rules, disabled, answers, n)
  }

  ghost predicate FailsAs(rules: seq<RuleInfo>, disabled: set<string>, answers: Answers, id: string) {
    exists n: nat :: FailsFirst(rules, disabled, answers, n) && rules[n].id == id
  }

  /** An evaluation records one error, of the first enabled rule that fails, with the event and its severity and the time of
      the call, and no other rule's errors change. */
  lemma {:induction false} ErrorsRecorded(stats: Stats, rules: seq<RuleInfo>, disabled: set<string>, e: TelemetryEvent,
                                          now: Time, answers: Answers, id: string)
    ensures var ev := EvaluateRules(stats, rules, disabled, e, now, answers);
            && (ev.matches.None? <==> Fails(rules, disabled, answers))
            && Notes(StatOf(stats, id), StatOf(ev.stats, id), FailsAs(rules, disabled, answers, id),
                     ErrorRecord(id, e.id, now, e.severity))
  {
    if rules != [] {
      var front := rules[..|rules| - 1];
      ErrorsRecorded(stats, front, disabled, e, now, answers, id);
      OneMoreFailure(rules, disabled, answers, id);
      OneMoreNoted(stats, EvaluateRules(stats, front, disabled, e, now, answers), rules[|rules| - 1], disabled, e, now,
                   answers, id, Fails(front, disabled, answers), FailsAs(front, disabled, answers, id));
    }
  }

  lemma OneMoreNoted(stats: Stats, was: Evaluating, rule: RuleInfo, disabled: set<string>, e: TelemetryEvent, now: Time,
                     answers: Answers, id: string, failed: bool, mine: bool)
    requires (was.matches.None? <==> failed) && (mine ==> failed)
    requires Notes(StatOf(stats, id), StatOf(was.stats, id), mine, ErrorRecord(id, e.id, now, e.severity))
    ensures var ev := EvaluateOne(was, rule, disabled, e, now, answers);
            var fails := !failed && rule.id !in disabled && answers(rule.id).RuleError?;
            && (ev.matches.None? <==> failed || fails)
            && Notes(StatOf(stats, id), StatOf(ev.stats, id), mine || (fails && rule.id == id),
                     ErrorRecord(id, e.id, now, e.severity))
  {
  }

  lemma OneMoreFailure(rules: seq<RuleInfo>, disabled: set<string>, answers: Answers, id: string)
    requires rules != []
    ensures var front, rule := rules[..|rules| - 1], rules[|rules| - 1];
            var fails := !Fails(front, disabled, answers) && rule.id !in disabled && answers(rule.id).RuleError?;
            && (Fails(rules, disabled, answers) <==> Fails(front, disabled, answers) || fails)
            && (FailsAs(rules, disabled, answers, id) <==> FailsAs(front, disabled, answers, id) || (fails && rule.id == id))
            && (FailsAs(front, disabled, answers, id) ==> Fails(front, disabled, answers))
  {
    var last := |rules| - 1;
    var front := rules[..last];
    forall n: nat ensures FailsFirst(front, disabled, answers, n) <==> n < last && FailsFirst(rules, disabled, answers, n)
    {
      assert n < last ==> forall i :: 0 <= i <= n ==> front[i] == rules[i];
    }
    NoFailure(front, disabled, answers, last);
    if Fails(front, disabled, answers) {
      var n: nat :| FailsFirst(front, disabled, answers, n);
      assert !FailsFirst(rules, disabled, answers, last);
    } else {
      assert forall i :: 0 <= i < last ==> front[i] == rules[i];
      assert FailsFirst(rules, disabled, answers, last)
        <==> rules[last].id !in disabled && answers(rules[last].id).RuleError?;
    }
  }

  // If none fails first, none of them fails.
  lemma {:induction false} NoFailure(rules: seq<RuleInfo>, disabled: set<string>, answers: Answers, n: nat)
    requires n <= |rules|
    ensures (forall m: nat :: !FailsFirst(rules, disabled, answers, m)) ==>
              forall i :: 0 <= i < n ==> rules[i].id in disabled || !answers(rules[i].id).RuleError?
  {
    if n > 0 && forall m: nat :: !FailsFirst(rules, disabled, answers, m) {
      NoFailure(rules, disabled, answers, n - 1);
      assert !FailsFirst(rules, disabled, answers, n - 1);
    }
  }
}
