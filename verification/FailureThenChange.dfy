/** Authentication failures followed by a privilege change: the streaming rule and its batch twin. */
module FailureThenChange {
  import opened Base
  import opened Contract
  import opened Text
  import opened BurstRules
  import opened Rule

  // What an event means to the correlation of failures and changes; Refused: the streaming rule returns an error.
  datatype Stage =
    | Refused
    | Neither
    | Failed(principal: string)
    | Changed(principal: string)

  datatype Sighting = Sighting(stage: Stage, at: Time, id: string)

  predicate ValidAuthOutcome(outcome: string) {
    outcome in {"success", "failure", "denied", "challenged", "unknown"}
  }

  predicate ValidIdentityAction(action: string) {
    action in {"login", "logout", "role_change", "group_change", "account_create", "account_disable",
               "account_enable", "permission_change"}
  }

  predicate IsPrivilegeChange(action: string) {
    action == "role_change" || action == "permission_change"
  }

  // The streaming rule reads attributes through the observation parser, which trims and lower-cases them.
  function ParsedStage(e: TelemetryEvent): Stage {
    if e.eventType == "auth.activity" then
      var principal := Trim(Attr(e.attributes, "auth.principal"));
      var outcome := Lower(Trim(Attr(e.attributes, "auth.outcome")));
      if principal == "" || !ValidAuthOutcome(outcome) then Refused
      else if outcome == "failure" then Failed(principal)
      else Neither
    else if e.eventType == "identity.activity" then
      var principal := Trim(Attr(e.attributes, "identity.principal"));
      var action := Lower(Trim(Attr(e.attributes, "identity.action")));
      if principal == "" || !ValidIdentityAction(action) then Refused
      else if IsPrivilegeChange(action) then Changed(principal)
      else Neither
    else Neither
  }

  // A failure or change without an event time is refused as well.
  function StageOf(e: TelemetryEvent): Stage {
    var stage := ParsedStage(e);
    if (stage.Failed? || stage.Changed?) && EventTime(e) == ZERO_TIME then Refused else stage
  }

  function SightingOf(e: TelemetryEvent): Sighting {
    Sighting(StageOf(e), EventTime(e), e.id)
  }

  // The batch correlation reads the stored attributes as they are.
  function RawStageOf(e: TelemetryEvent): Stage {
    if e.eventType == "auth.activity" then
      var principal := Attr(e.attributes, "auth.principal");
      if Attr(e.attributes, "auth.outcome") == "failure" && principal != "" then Failed(principal) else Neither
    else if e.eventType == "identity.activity" then
      var principal := Attr(e.attributes, "identity.principal");
      if IsPrivilegeChange(Attr(e.attributes, "identity.action")) && principal != "" then Changed(principal)
      else Neither
    else Neither
  }

  function RawSightingOf(e: TelemetryEvent): Sighting {
    Sighting(RawStageOf(e), EventTime(e), e.id)
  }

  function Sightings(es: seq<TelemetryEvent>): seq<Sighting> {
    seq(|es|, i requires 0 <= i < |es| => SightingOf(es[i]))
  }

  function RawSightings(es: seq<TelemetryEvent>): seq<Sighting> {
    seq(|es|, i requires 0 <= i < |es| => RawSightingOf(es[i]))
  }

  // ---------------------------------------------------------------------------
  // The streaming rule
  // ---------------------------------------------------------------------------

  datatype StageFailure = StageFailure(at: Time, id: string)

  datatype RuleState = RuleState(failures: map<string, seq<StageFailure>>, firedSets: map<string, string>)

  function FailuresOf(st: RuleState, principal: string): seq<StageFailure> {
    if principal in st.failures then st.failures[principal] else []
  }

  predicate Within(f: StageFailure, change: Time, window: int) {
    0 <= change - f.at <= window
  }

  function Pruned(failures: seq<StageFailure>, change: Time, window: int): seq<StageFailure> {
    if failures == [] then []
    else
      var last := failures[|failures| - 1];
      Pruned(failures[..|failures| - 1], change, window) + if Within(last, change, window) then [last] else []
  }

  function FailureIds(failures: seq<StageFailure>): seq<string> {
    seq(|failures|, i requires 0 <= i < |failures| => failures[i].id)
  }

  function SetKey(failures: seq<StageFailure>): string {
    Join(SortStrings(FailureIds(failures)), SEPARATOR)
  }

  // The state after an event, and whether the rule fires on it.
  function StageStep(st: RuleState, x: Sighting, window: int, threshold: int): (RuleState, bool) {
    match x.stage
    case Refused => (st, false)
    case Neither => (st, false)
    case Failed(p) => (st.(failures := st.failures[p := FailuresOf(st, p) + [StageFailure(x.at, x.id)]]), false)
    case Changed(p) =>
      var kept := Pruned(FailuresOf(st, p), x.at, window);
      var st' := st.(failures := st.failures[p := kept]);
      if |kept| < threshold then (st', false)
      else if Attr(st.firedSets, p) == SetKey(kept) then (st', false)
      else (st'.(firedSets := st.firedSets[p := SetKey(kept)]), true)
  }

  const TITLE: string := "Multi-stage activity"

  class MultiStageCorrelatedRule {
    const threshold: int
    const window: int
    var failures: map<string, seq<StageFailure>>
    var firedSets: map<string, string>

    ghost function State(): RuleState
      reads this
    {
      RuleState(failures, firedSets)
    }

    constructor (threshold: int, window: int)
      requires threshold > 0 && window > 0
      ensures State() == RuleState(map[], map[]) && this.threshold == threshold && this.window == window
    {
      this.threshold, this.window := threshold, window;
      failures, firedSets := map[], map[];
    }

    method Evaluate(e: TelemetryEvent, now: Time) returns (r: Evaluation)
      modifies this
      ensures (State(), r.Evaluated? && r.outcome.Match?)
           == if now == ZERO_TIME then (old(State()), false)
              else StageStep(old(State()), SightingOf(e), window, threshold)
      ensures r == RuleError <==> now == ZERO_TIME || StageOf(e) == Refused
      ensures r.Evaluated? && r.outcome.Match? ==>
          && StageOf(e).Changed?
          && (var p := StageOf(e).principal;
              var kept := FailuresOf(State(), p);
              r.outcome == Match(e.severity, 0.0, TITLE, TITLE,
                                 SortStrings(SortStrings(FailureIds(kept)) + [e.id]),
                                 BurstAttrs(threshold, window, |kept|)["principal" := p]))
    {
      if now == ZERO_TIME {
        return RuleError;
      }
      match ParsedStage(e) {
        case Refused => return RuleError;
        case Neither => return Evaluated(NoMatch);
        case Failed(principal) =>
          if EventTime(e) == ZERO_TIME {
            return RuleError;
          }
          var seen := if principal in failures then failures[principal] else [];
          failures := failures[principal := seen + [StageFailure(EventTime(e), e.id)]];
          return Evaluated(NoMatch);
        case Changed(principal) =>
          if EventTime(e) == ZERO_TIME {
            return RuleError;
          }
          r := Change(e, principal);
      }
    }

    method Change(e: TelemetryEvent, principal: string) returns (r: Evaluation)
      modifies this
      ensures var x := Sighting(Changed(principal), EventTime(e), e.id);
              (State(), r != Evaluated(NoMatch)) == StageStep(old(State()), x, window, threshold)
      ensures var kept := FailuresOf(State(), principal);
              || r == Evaluated(NoMatch)
              || r == Evaluated(Match(e.severity, 0.0, TITLE, TITLE,
                                      SortStrings(SortStrings(FailureIds(kept)) + [e.id]),
                                      BurstAttrs(threshold, window, |kept|)["principal" := principal]))
    {
      var seen := if principal in failures then failures[principal] else [];
      var kept := Prune(seen, EventTime(e), window);
      failures := failures[principal := kept];
      if |kept| < threshold {
        return Evaluated(NoMatch);
      }
      var ids := SortStrings(FailureIds(kept));
      var setKey := Join(ids, SEPARATOR);
      if Attr(firedSets, principal) == setKey {
        return Evaluated(NoMatch);
      }
      firedSets := firedSets[principal := setKey];
      ids := SortStrings(ids + [e.id]);
      return Evaluated(Match(e.severity, 0.0, TITLE, TITLE, ids,
                             BurstAttrs(threshold, window, |kept|)["principal" := principal]));
    }
  }

  method Prune(failures: seq<StageFailure>, change: Time, window: int) returns (kept: seq<StageFailure>)
    ensures kept == Pruned(failures, change, window)
  {
    kept := [];
    for i := 0 to |failures|
      invariant kept == Pruned(failures[..i], change, window)
    {
      assert failures[..i + 1][..i] == failures[..i];
      var d := change - failures[i].at;
      if d >= 0 && d <= window {
        kept := kept + [failures[i]];
      }
    }
    assert failures[..|failures|] == failures;
  }

  // ---------------------------------------------------------------------------
  // What the streaming rule has kept, over any history
  // ---------------------------------------------------------------------------

  function RunRule(xs: seq<Sighting>, window: int, threshold: int): RuleState {
    if xs == [] then RuleState(map[], map[])
    else StageStep(RunRule(xs[..|xs| - 1], window, threshold), xs[|xs| - 1], window, threshold).0
  }

  predicate FiresLast(xs: seq<Sighting>, window: int, threshold: int)
    requires xs != []
  {
    StageStep(RunRule(xs[..|xs| - 1], window, threshold), xs[|xs| - 1], window, threshold).1
  }

  function FailureAt(x: Sighting): StageFailure {
    StageFailure(x.at, x.id)
  }

  // Failure j is within the window of every later change of its principal.
  ghost predicate Lasts(xs: seq<Sighting>, j: nat, p: string, window: int)
    requires j < |xs|
  {
    forall i :: j < i < |xs| && xs[i].stage == Changed(p) ==> Within(FailureAt(xs[j]), xs[i].at, window)
  }

  // The failures of p among the first n sightings that last through the whole history.
  ghost function Lasting(xs: seq<Sighting>, n: nat, p: string, window: int): seq<StageFailure>
    requires n <= |xs|
  {
    if n == 0 then []
    else
      var earlier := Lasting(xs, n - 1, p, window);
      if xs[n - 1].stage == Failed(p) && Lasts(xs, n - 1, p, window) then earlier + [FailureAt(xs[n - 1])] else earlier
  }

  lemma LastsStep(xs: seq<Sighting>, x: Sighting, j: nat, p: string, window: int)
    requires j < |xs|
    ensures Lasts(xs + [x], j, p, window) <==>
              Lasts(xs, j, p, window) && (x.stage == Changed(p) ==> Within(FailureAt(xs[j]), x.at, window))
  {
    var all := xs + [x];
    assert all[|xs|] == x && all[j] == xs[j];
    if Lasts(all, j, p, window) {
      forall i | j < i < |xs| && xs[i].stage == Changed(p) ensures Within(FailureAt(xs[j]), xs[i].at, window) {
        assert all[i] == xs[i];
      }
    }
    if Lasts(xs, j, p, window) && (x.stage == Changed(p) ==> Within(FailureAt(xs[j]), x.at, window)) {
      forall i | j < i < |all| && all[i].stage == Changed(p) ensures Within(FailureAt(all[j]), all[i].at, window) {
        assert i < |xs| ==> all[i] == xs[i];
      }
    }
  }

  lemma PrunedAppend(failures: seq<StageFailure>, f: StageFailure, change: Time, window: int)
    ensures Pruned(failures + [f], change, window)
         == if Within(f, change, window) then Pruned(failures, change, window) + [f] else Pruned(failures, change, window)
  {
    assert (failures + [f])[..|failures|] == failures;
  }

  // What is left of some failures of p after a sighting.
  function Left(failures: seq<StageFailure>, x: Sighting, p: string, window: int): seq<StageFailure> {
    if x.stage == Changed(p) then Pruned(failures, x.at, window) else failures
  }

  lemma LeftAppend(failures: seq<StageFailure>, f: StageFailure, x: Sighting, p: string, window: int)
    ensures Left(failures + [f], x, p, window)
         == if x.stage == Changed(p) && !Within(f, x.at, window) then Left(failures, x, p, window)
            else Left(failures, x, p, window) + [f]
  {
    PrunedAppend(failures, f, x.at, window);
  }

  lemma {:induction false} LastingStep(xs: seq<Sighting>, x: Sighting, n: nat, p: string, window: int)
    requires n <= |xs|
    ensures Lasting(xs + [x], n, p, window) == Left(Lasting(xs, n, p, window), x, p, window)
  {
    if n > 0 {
      LastingStep(xs, x, n - 1, p, window);
      LastingNext(xs, x, n - 1, p, window);
    }
  }

  lemma LastingNext(xs: seq<Sighting>, x: Sighting, k: nat, p: string, window: int)
    requires k < |xs| && Lasting(xs + [x], k, p, window) == Left(Lasting(xs, k, p, window), x, p, window)
    ensures Lasting(xs + [x], k + 1, p, window) == Left(Lasting(xs, k + 1, p, window), x, p, window)
  {
    LastsStep(xs, x, k, p, window);
    LeftAppend(Lasting(xs, k, p, window), FailureAt(xs[k]), x, p, window);
    assert (xs + [x])[k] == xs[k];
  }

  // After any stream, in order or not, the rule holds for each principal exactly the failures that were within the
  // window of every later change: pruning is permanent.
  lemma {:induction false} KeptFailures(xs: seq<Sighting>, p: string, window: int, threshold: int)
    ensures FailuresOf(RunRule(xs, window, threshold), p) == Lasting(xs, |xs|, p, window)
  {
    if xs != [] {
      var before, last := xs[..|xs| - 1], xs[|xs| - 1];
      KeptFailures(before, p, window, threshold);
      LastingStep(before, last, |before|, p, window);
      assert xs == before + [last];
      assert Lasts(xs, |before|, p, window);
    }
  }

  // ---------------------------------------------------------------------------
  // Agreement with the batch
  // ---------------------------------------------------------------------------

  // The failures of p among the first n sightings that lie within the window before time t.
  function Collected(xs: seq<Sighting>, n: nat, p: string, t: Time, window: int): seq<StageFailure>
    requires n <= |xs|
  {
    if n == 0 then []
    else
      var x, earlier := xs[n - 1], Collected(xs, n - 1, p, t, window);
      if x.stage == Failed(p) && Within(FailureAt(x), t, window) then earlier + [FailureAt(x)] else earlier
  }

  // Events arrive in time order, failures before a change at the same instant.
  ghost predicate StreamOrdered(xs: seq<Sighting>) {
    && (forall i, j :: 0 <= i <= j < |xs| ==> xs[i].at <= xs[j].at)
    && (forall i, j :: 0 <= i < j < |xs| && xs[i].stage.Changed? && xs[j].stage.Failed? ==> xs[i].at < xs[j].at)
  }

  lemma OrderedLasts(xs: seq<Sighting>, m: nat, j: nat, p: string, window: int)
    requires j < m < |xs| && xs[m].stage == Changed(p) && StreamOrdered(xs)
    ensures Lasts(xs[..m + 1], j, p, window) <==> Within(FailureAt(xs[j]), xs[m].at, window)
  {
    var past := xs[..m + 1];
    assert past[m] == xs[m] && past[j] == xs[j];
    forall i | j < i <= m && Within(FailureAt(xs[j]), xs[m].at, window)
      ensures Within(FailureAt(past[j]), past[i].at, window)
    {
      assert xs[j].at <= xs[i].at <= xs[m].at;
    }
  }

  lemma {:induction false} CollectedIsLasting(xs: seq<Sighting>, m: nat, n: nat, p: string, window: int)
    requires m < |xs| && n <= m + 1 && xs[m].stage == Changed(p) && StreamOrdered(xs)
    ensures Collected(xs, n, p, xs[m].at, window) == Lasting(xs[..m + 1], n, p, window)
  {
    if n > 0 {
      CollectedIsLasting(xs, m, n - 1, p, window);
      assert xs[..m + 1][n - 1] == xs[n - 1];
      if n - 1 < m {
        OrderedLasts(xs, m, n - 1, p, window);
      }
    }
  }

  lemma {:induction false} NothingLater(xs: seq<Sighting>, m: nat, n: nat, p: string, window: int)
    requires m < n <= |xs| && xs[m].stage == Changed(p) && StreamOrdered(xs)
    ensures Collected(xs, n, p, xs[m].at, window) == Collected(xs, m + 1, p, xs[m].at, window)
  {
    if n > m + 1 {
      NothingLater(xs, m, n - 1, p, window);
    }
  }

  // ---------------------------------------------------------------------------
  // When the two readers see the same stages
  // ---------------------------------------------------------------------------

  // A refused event leaves no more trace in the rule than an irrelevant one.
  function Effective(stage: Stage): Stage {
    if stage == Refused then Neither else stage
  }

  predicate Alike(e: TelemetryEvent) {
    Effective(StageOf(e)) == RawStageOf(e)
  }

  function Principal(e: TelemetryEvent): string {
    Attr(e.attributes, if e.eventType == "auth.activity" then "auth.principal" else "identity.principal")
  }

  function Verb(e: TelemetryEvent): string {
    Attr(e.attributes, if e.eventType == "auth.activity" then "auth.outcome" else "identity.action")
  }

  // The stored attributes are already in the form the parser would give them, and the event has a time.
  predicate Literal(e: TelemetryEvent) {
    && Principal(e) != "" && Trim(Principal(e)) == Principal(e)
    && Lower(Trim(Verb(e))) == Verb(e) && EventTime(e) != ZERO_TIME
  }

  // The event says, once trimmed and lowered, that a log-in failed or a privilege changed.
  predicate Telling(e: TelemetryEvent) {
    || (e.eventType == "auth.activity" && Lower(Trim(Verb(e))) == "failure")
    || (e.eventType == "identity.activity" && IsPrivilegeChange(Lower(Trim(Verb(e)))))
  }

  // It says so to at least one reader: to the rule it needs a name and a time, to the batch its verb as stored and a name.
  predicate Notable(e: TelemetryEvent) {
    && Telling(e)
    && (|| (Trim(Principal(e)) != "" && EventTime(e) != ZERO_TIME)
        || (Lower(Trim(Verb(e))) == Verb(e) && Principal(e) != ""))
  }

  lemma VerbsAreLiteral()
    ensures Lower(Trim("failure")) == "failure"
    ensures Lower(Trim("role_change")) == "role_change"
    ensures Lower(Trim("permission_change")) == "permission_change"
  {
  }

  // The readers agree on an event exactly when it is stored in parsed form, wherever it matters to either of them.
  lemma ReadersAgree(e: TelemetryEvent)
    ensures Alike(e) <==> (Notable(e) ==> Literal(e))
  {
    VerbsAreLiteral();
  }

  // The stream as the rule makes use of it.
  function Effectively(xs: seq<Sighting>): seq<Sighting> {
    seq(|xs|, i requires 0 <= i < |xs| => xs[i].(stage := Effective(xs[i].stage)))
  }

  // Whatever matters to either reader is stored in parsed form.
  ghost predicate StoredLiterally(es: seq<TelemetryEvent>) {
    forall e :: e in es && Notable(e) ==> Literal(e)
  }

  /** The readers see the same stream exactly when every event that matters to either is stored in parsed form. */
  lemma StreamReadAlike(es: seq<TelemetryEvent>)
    ensures Effectively(Sightings(es)) == RawSightings(es) <==> StoredLiterally(es)
  {
    var xs, raw := Effectively(Sightings(es)), RawSightings(es);
    forall i | 0 <= i < |es| ensures xs[i] == raw[i] <==> (Notable(es[i]) ==> Literal(es[i])) {
      ReadersAgree(es[i]);
    }
    if xs == raw {
      forall e | e in es && Notable(e) ensures Literal(e) {
        var i :| 0 <= i < |es| && es[i] == e;
        assert xs[i] == raw[i];
      }
    }
    if StoredLiterally(es) {
      assert forall i :: 0 <= i < |es| ==> es[i] in es && xs[i] == raw[i];
    }
  }

  // They can disagree: a padded principal is one principal to the rule and another to the batch.
  lemma ReadersCanDisagree()
    ensures exists e :: ValidEvent(e) && StageOf(e) == Failed("bob") && RawStageOf(e) == Failed(" bob")
  {
    PaddedName();
    VerbsAreLiteral();
    var e := PaddedFailure(" bob");
    assert ValidEvent(e) && StageOf(e) == Failed("bob") && RawStageOf(e) == Failed(" bob");
  }

  function PaddedFailure(principal: string): TelemetryEvent {
    TelemetryEvent("e1", Some(1), "lab", "host", "auth.activity", HIGH,
                   map["auth.principal" := principal, "auth.outcome" := "failure"])
  }

  lemma PaddedName()
    ensures Trim(" bob") == "bob"
  {
    assert " bob"[1..] == "bob";
    TrimFixed("bob");
  }

  lemma {:induction false} SameFailuresCollected(xs: seq<Sighting>, ys: seq<Sighting>, n: nat, p: string, t: Time,
                                                 window: int)
    requires n <= |xs| == |ys|
    requires forall i :: 0 <= i < |xs| ==> xs[i].at == ys[i].at && xs[i].id == ys[i].id
    requires forall i :: 0 <= i < |xs| ==> Effective(xs[i].stage) == ys[i].stage
    ensures Collected(xs, n, p, t, window) == Collected(ys, n, p, t, window)
  {
    if n > 0 {
      SameFailuresCollected(xs, ys, n - 1, p, t, window);
    }
  }

  // At every privilege change of an ordered stream stored in parsed form, what the rule has kept despite all
  // earlier pruning is what the batch collects from the whole history.
  lemma StreamAgreesWithBatch(es: seq<TelemetryEvent>, m: nat, p: string, window: int, threshold: int)
    requires m < |es| && StageOf(es[m]) == Changed(p)
    requires StreamOrdered(Sightings(es)) && StoredLiterally(es)
    ensures FailuresOf(RunRule(Sightings(es)[..m + 1], window, threshold), p)
         == Collected(RawSightings(es), |es|, p, EventTime(es[m]), window)
  {
    var xs := Sightings(es);
    KeptFailures(xs[..m + 1], p, window, threshold);
    CollectedIsLasting(xs, m, m + 1, p, window);
    NothingLater(xs, m, |xs|, p, window);
    StreamReadAlike(es);
    forall i | 0 <= i < |es| ensures Effective(xs[i].stage) == RawSightings(es)[i].stage {
      assert Effectively(xs)[i] == RawSightings(es)[i];
    }
    SameFailuresCollected(xs, RawSightings(es), |es|, p, EventTime(es[m]), window);
  }

  // ---------------------------------------------------------------------------
  // When the rule fires
  // ---------------------------------------------------------------------------

  function KeptIds(xs: seq<Sighting>, p: string, window: int, threshold: int): seq<string> {
    SortStrings(FailureIds(FailuresOf(RunRule(xs, window, threshold), p)))
  }

  // The failure ids of p's last match, sorted; empty before the first.
  function LastFired(xs: seq<Sighting>, p: string, window: int, threshold: int): seq<string> {
    if xs == [] then []
    else if xs[|xs| - 1].stage == Changed(p) && FiresLast(xs, window, threshold) then KeptIds(xs, p, window, threshold)
    else LastFired(xs[..|xs| - 1], p, window, threshold)
  }

  lemma {:induction false} FiredSetIsLastFired(xs: seq<Sighting>, p: string, window: int, threshold: int)
    ensures Attr(RunRule(xs, window, threshold).firedSets, p) == Join(LastFired(xs, p, window, threshold), SEPARATOR)
  {
    if xs != [] {
      FiredSetIsLastFired(xs[..|xs| - 1], p, window, threshold);
    }
  }

  // Event ids are non-empty, as the contract demands, and free of the separator the rule joins them with.
  ghost predicate JoinableIds(xs: seq<Sighting>) {
    forall x :: x in xs ==> x.id != "" && SEPARATOR !in x.id
  }

  lemma {:induction false} LastingIds(xs: seq<Sighting>, n: nat, p: string, window: int)
    requires n <= |xs| && JoinableIds(xs)
    ensures forall f :: f in Lasting(xs, n, p, window) ==> f.id != "" && SEPARATOR !in f.id
  {
    if n > 0 {
      LastingIds(xs, n - 1, p, window);
      assert xs[n - 1] in xs;
    }
  }

  lemma KeptIdsJoinable(xs: seq<Sighting>, p: string, window: int, threshold: int)
    requires JoinableIds(xs)
    ensures forall id :: id in KeptIds(xs, p, window, threshold) ==> id != "" && SEPARATOR !in id
    ensures |KeptIds(xs, p, window, threshold)| == |FailuresOf(RunRule(xs, window, threshold), p)|
  {
    KeptFailures(xs, p, window, threshold);
    LastingIds(xs, |xs|, p, window);
    JoinableFailures(FailuresOf(RunRule(xs, window, threshold), p));
  }

  lemma JoinableFailures(failures: seq<StageFailure>)
    requires forall f :: f in failures ==> f.id != "" && SEPARATOR !in f.id
    ensures |SortStrings(FailureIds(failures))| == |failures|
    ensures forall id :: id in SortStrings(FailureIds(failures)) ==> id != "" && SEPARATOR !in id
  {
    var ids := FailureIds(failures);
    StrLeIsOrder();
    SortBySorts(ids, StrLe);
    MembersOfPermutation(SortStrings(ids), ids);
  }

  lemma {:induction false} LastFiredJoinable(xs: seq<Sighting>, p: string, window: int, threshold: int)
    requires JoinableIds(xs)
    ensures forall id :: id in LastFired(xs, p, window, threshold) ==> id != "" && SEPARATOR !in id
  {
    if xs != [] {
      KeptIdsJoinable(xs, p, window, threshold);
      LastFiredJoinable(xs[..|xs| - 1], p, window, threshold);
    }
  }

  lemma JoinedDiffer(a: seq<string>, b: seq<string>)
    requires a != []
    requires forall id :: id in a || id in b ==> id != "" && SEPARATOR !in id
    ensures Join(a, SEPARATOR) == Join(b, SEPARATOR) <==> a == b
  {
    assert a[0] in a && a[0] != "";
    if b != [] && Join(a, SEPARATOR) == Join(b, SEPARATOR) {
      JoinInjective(a, b, SEPARATOR);
    }
  }

  lemma KeptIdsCount(xs: seq<Sighting>, p: string, window: int, threshold: int)
    ensures |KeptIds(xs, p, window, threshold)| == |FailuresOf(RunRule(xs, window, threshold), p)|
  {
    StrLeIsOrder();
    SortBySorts(FailureIds(FailuresOf(RunRule(xs, window, threshold), p)), StrLe);
  }

  /** The rule fires at a change exactly when the kept failures reach the threshold and their ids, joined, are not the
      joined ids it last fired for. */
  lemma FiresExactly(xs: seq<Sighting>, p: string, window: int, threshold: int)
    requires xs != [] && xs[|xs| - 1].stage == Changed(p)
    ensures FiresLast(xs, window, threshold) <==>
              && |KeptIds(xs, p, window, threshold)| >= threshold
              && Join(KeptIds(xs, p, window, threshold), SEPARATOR)
                 != Join(LastFired(xs[..|xs| - 1], p, window, threshold), SEPARATOR)
  {
    var before := xs[..|xs| - 1];
    FiredSetIsLastFired(before, p, window, threshold);
    KeptIdsCount(xs, p, window, threshold);
    var kept := Pruned(FailuresOf(RunRule(before, window, threshold), p), xs[|xs| - 1].at, window);
    assert FailuresOf(RunRule(xs, window, threshold), p) == kept;
  }

  // A large enough set the rule did not last fire for.
  ghost predicate NewSet(xs: seq<Sighting>, p: string, window: int, threshold: int)
    requires xs != []
  {
    && |KeptIds(xs, p, window, threshold)| >= threshold
    && KeptIds(xs, p, window, threshold) != LastFired(xs[..|xs| - 1], p, window, threshold)
  }

  ghost predicate JoinAlike(a: seq<string>, b: seq<string>) {
    a != b && Join(a, SEPARATOR) == Join(b, SEPARATOR)
  }

  /** Firing is firing on a new set, but for one case: the rule stays silent on a new set exactly when its ids and those
      it last fired for are two different lists that join alike. */
  lemma FiresOnNewSets(xs: seq<Sighting>, p: string, window: int, threshold: int)
    requires xs != [] && xs[|xs| - 1].stage == Changed(p)
    ensures FiresLast(xs, window, threshold) <==>
              && NewSet(xs, p, window, threshold)
              && !JoinAlike(KeptIds(xs, p, window, threshold), LastFired(xs[..|xs| - 1], p, window, threshold))
  {
    FiresExactly(xs, p, window, threshold);
  }

  // With ids that are non-empty and free of the separator the case cannot arise.
  lemma JoinableFiresOnNewSets(xs: seq<Sighting>, p: string, window: int, threshold: int)
    requires xs != [] && xs[|xs| - 1].stage == Changed(p) && threshold > 0 && JoinableIds(xs)
    ensures FiresLast(xs, window, threshold) <==> NewSet(xs, p, window, threshold)
  {
    FiresExactly(xs, p, window, threshold);
    KeptIdsJoinable(xs, p, window, threshold);
    LastFiredJoinable(xs[..|xs| - 1], p, window, threshold);
    if |KeptIds(xs, p, window, threshold)| >= threshold {
      JoinedDiffer(KeptIds(xs, p, window, threshold), LastFired(xs[..|xs| - 1], p, window, threshold));
    }
  }

  // Streams on which the case arises: a failure whose id holds the separator, a change, a later change that finds no
  // failure in the window, then two failures named by the halves of that id, and a change.
  ghost predicate Hiding(xs: seq<Sighting>, p: string, a: string, b: string) {
    && |xs| == 6
    && xs[0] == Sighting(Failed(p), 1, Halves(a, b))
    && xs[1].stage == Changed(p) && xs[1].at == 1
    && xs[2].stage == Changed(p) && xs[2].at == 5
    && xs[3] == Sighting(Failed(p), 9, a)
    && xs[4] == Sighting(Failed(p), 9, b)
    && xs[5].stage == Changed(p) && xs[5].at == 9
  }

  function Halves(a: string, b: string): (s: string)
    ensures s != ""
  {
    a + [SEPARATOR] + b
  }

  lemma RunRuleStep(xs: seq<Sighting>, n: nat, window: int, threshold: int)
    requires n < |xs|
    ensures RunRule(xs[..n + 1], window, threshold)
         == StageStep(RunRule(xs[..n], window, threshold), xs[n], window, threshold).0
    ensures FiresLast(xs[..n + 1], window, threshold)
         == StageStep(RunRule(xs[..n], window, threshold), xs[n], window, threshold).1
  {
    assert xs[..n + 1][..n] == xs[..n];
  }

  lemma LastFiredStep(xs: seq<Sighting>, n: nat, p: string, window: int, threshold: int)
    requires n < |xs|
    ensures LastFired(xs[..n + 1], p, window, threshold)
         == if xs[n].stage == Changed(p) && FiresLast(xs[..n + 1], window, threshold)
            then KeptIds(xs[..n + 1], p, window, threshold) else LastFired(xs[..n], p, window, threshold)
  {
    assert xs[..n + 1][..n] == xs[..n];
  }

  lemma SortOne(x: string)
    ensures SortStrings([x]) == [x]
  {
    assert [x][1..] == [] && SortStrings([]) == [];
  }

  lemma SortTwo(x: string, y: string)
    requires StrLe(x, y)
    ensures SortStrings([x, y]) == [x, y]
  {
    SortOne(y);
    assert [x, y][1..] == [y];
  }

  lemma SingleId(f: StageFailure)
    ensures SortStrings(FailureIds([f])) == [f.id] && SetKey([f]) == f.id
  {
    SortOne(f.id);
    assert FailureIds([f]) == [f.id];
  }

  lemma TwoIds(f: StageFailure, g: StageFailure)
    requires StrLe(f.id, g.id)
    ensures SortStrings(FailureIds([f, g])) == [f.id, g.id] && SetKey([f, g]) == Halves(f.id, g.id)
  {
    SortTwo(f.id, g.id);
    assert FailureIds([f, g]) == [f.id, g.id];
    assert [f.id, g.id][1..] == [g.id] && Join([g.id], SEPARATOR) == g.id;
    assert Join([f.id, g.id], SEPARATOR) == f.id + [SEPARATOR] + Join([g.id], SEPARATOR);
  }

  lemma PrunedSingle(f: StageFailure, change: Time, window: int)
    ensures Pruned([f], change, window) == if Within(f, change, window) then [f] else []
  {
    PrunedAppend([], f, change, window);
    assert [] + [f] == [f];
  }

  lemma PrunedPair(f: StageFailure, g: StageFailure, change: Time, window: int)
    requires Within(f, change, window) && Within(g, change, window)
    ensures Pruned([f, g], change, window) == [f, g]
  {
    PrunedSingle(f, change, window);
    PrunedAppend([f], g, change, window);
    assert [f] + [g] == [f, g];
  }

  // The rule's state for one principal, and what it last fired for.
  ghost predicate Holds(xs: seq<Sighting>, n: nat, p: string, kept: seq<StageFailure>, key: string, fired: seq<string>)
    requires n <= |xs|
  {
    && FailuresOf(RunRule(xs[..n], 1, 1), p) == kept
    && Attr(RunRule(xs[..n], 1, 1).firedSets, p) == key
    && LastFired(xs[..n], p, 1, 1) == fired
  }

  lemma HoldsFailure(xs: seq<Sighting>, n: nat, p: string, kept: seq<StageFailure>, key: string, fired: seq<string>)
    requires n < |xs| && xs[n].stage == Failed(p) && Holds(xs, n, p, kept, key, fired)
    ensures Holds(xs, n + 1, p, kept + [FailureAt(xs[n])], key, fired)
  {
    RunRuleStep(xs, n, 1, 1);
    LastFiredStep(xs, n, p, 1, 1);
  }

  lemma HoldsChange(xs: seq<Sighting>, n: nat, p: string, kept: seq<StageFailure>, key: string, fired: seq<string>)
    requires n < |xs| && xs[n].stage == Changed(p) && Holds(xs, n, p, kept, key, fired)
    ensures var left := Pruned(kept, xs[n].at, 1);
            var fires := |left| >= 1 && SetKey(left) != key;
            && FiresLast(xs[..n + 1], 1, 1) == fires
            && Holds(xs, n + 1, p, left, if fires then SetKey(left) else key,
                     if fires then SortStrings(FailureIds(left)) else fired)
  {
    RunRuleStep(xs, n, 1, 1);
    LastFiredStep(xs, n, p, 1, 1);
  }

  // The first change fires for the one failure.
  lemma HidingFires(xs: seq<Sighting>, p: string, a: string, b: string)
    requires Hiding(xs, p, a, b)
    ensures Holds(xs, 2, p, [StageFailure(1, Halves(a, b))], Halves(a, b), [Halves(a, b)])
  {
    var whole := StageFailure(1, Halves(a, b));
    SingleId(whole);
    assert Holds(xs, 0, p, [], "", []);
    HoldsFailure(xs, 0, p, [], "", []);
    assert [] + [whole] == [whole];
    PrunedSingle(whole, 1, 1);
    HoldsChange(xs, 1, p, [whole], "", []);
  }

  // The second forgets the failure but not that it fired.
  lemma HidingForgets(xs: seq<Sighting>, p: string, a: string, b: string)
    requires Hiding(xs, p, a, b)
    ensures Holds(xs, 3, p, [], Halves(a, b), [Halves(a, b)])
  {
    var whole := StageFailure(1, Halves(a, b));
    HidingFires(xs, p, a, b);
    PrunedSingle(whole, 5, 1);
    HoldsChange(xs, 2, p, [whole], Halves(a, b), [Halves(a, b)]);
  }

  // Then two more failures arrive.
  lemma HidingBuilds(xs: seq<Sighting>, p: string, a: string, b: string)
    requires Hiding(xs, p, a, b)
    ensures Holds(xs, 5, p, [StageFailure(9, a), StageFailure(9, b)], Halves(a, b), [Halves(a, b)])
  {
    var f, g := StageFailure(9, a), StageFailure(9, b);
    HidingForgets(xs, p, a, b);
    HoldsFailure(xs, 3, p, [], Halves(a, b), [Halves(a, b)]);
    assert [] + [f] == [f];
    HoldsFailure(xs, 4, p, [f], Halves(a, b), [Halves(a, b)]);
    assert [f] + [g] == [f, g];
  }

  // On every such stream the rule stays silent at the last change, on a set it never fired for.
  lemma SeparatorHidesASet(xs: seq<Sighting>, p: string, a: string, b: string)
    requires Hiding(xs, p, a, b) && StrLe(a, b)
    ensures !FiresLast(xs, 1, 1) && NewSet(xs, p, 1, 1)
  {
    var f, g := StageFailure(9, a), StageFailure(9, b);
    HidingBuilds(xs, p, a, b);
    TwoIds(f, g);
    PrunedPair(f, g, 9, 1);
    HoldsChange(xs, 5, p, [f, g], Halves(a, b), [Halves(a, b)]);
    assert xs[..6] == xs && xs[..|xs| - 1] == xs[..5];
  }

  function FailedLogin(p: string, at: Time, id: string): TelemetryEvent {
    TelemetryEvent(id, Some(at), "lab", "host", "auth.activity", HIGH,
                   map["auth.principal" := p, "auth.outcome" := "failure"])
  }

  function RoleChange(p: string, at: Time, id: string): TelemetryEvent {
    TelemetryEvent(id, Some(at), "lab", "host", "identity.activity", HIGH,
                   map["identity.principal" := p, "identity.action" := "role_change"])
  }

  lemma SeenAs(p: string, at: Time, id: string)
    requires p != "" && Trim(p) == p && at != ZERO_TIME && id != ""
    ensures SightingOf(FailedLogin(p, at, id)) == Sighting(Failed(p), at, id) && ValidEvent(FailedLogin(p, at, id))
    ensures SightingOf(RoleChange(p, at, id)) == Sighting(Changed(p), at, id) && ValidEvent(RoleChange(p, at, id))
  {
    VerbsAreLiteral();
  }

  function HidingEvents(p: string): seq<TelemetryEvent> {
    [FailedLogin(p, 1, Halves("a", "b")), RoleChange(p, 1, "c"), RoleChange(p, 5, "d"),
     FailedLogin(p, 9, "a"), FailedLogin(p, 9, "b"), RoleChange(p, 9, "e")]
  }

  /** There are such streams, of events the contract accepts and under distinct ids: the rule is silent at the last one, a
      role change, on failures it never fired for. */
  lemma HidingHappens()
    ensures var es := HidingEvents("p");
            && UniqueIds(es) && (forall e :: e in es ==> ValidEvent(e)) && StageOf(es[5]) == Changed("p")
            && !FiresLast(Sightings(es), 1, 1) && NewSet(Sightings(es), "p", 1, 1)
  {
    TrimFixed("p");
    HidingSeen("p");
    HidingStands("p", "a", "b", "c", "d", "e");
    DistinctEvents(HidingEvents("p"));
    assert Sightings(HidingEvents("p"))[5].stage == Changed("p");
  }

  lemma DistinctEvents(es: seq<TelemetryEvent>)
    requires DistinctSightings(Sightings(es))
    ensures UniqueIds(es)
  {
    var xs := Sightings(es);
    forall i, j | 0 <= i < j < |es| ensures es[i].id != es[j].id {
      assert xs[i].id != xs[j].id;
    }
  }

  lemma HidingSeen(p: string)
    requires p != "" && Trim(p) == p
    ensures Sightings(HidingEvents(p)) == HidingStream(p, "a", "b", "c", "d", "e")
    ensures forall e :: e in HidingEvents(p) ==> ValidEvent(e)
  {
    SeenAs(p, 1, Halves("a", "b"));
    SeenAs(p, 1, "c");
    SeenAs(p, 5, "d");
    SeenAs(p, 9, "a");
    SeenAs(p, 9, "b");
    SeenAs(p, 9, "e");
  }

  ghost predicate DistinctSightings(xs: seq<Sighting>) {
    && (forall i :: 0 <= i < |xs| ==> xs[i].id != "")
    && (forall i, j :: 0 <= i < j < |xs| ==> xs[i].id != xs[j].id)
  }

  function HidingStream(p: string, a: string, b: string, c: string, d: string, e: string): seq<Sighting> {
    [Sighting(Failed(p), 1, Halves(a, b)), Sighting(Changed(p), 1, c), Sighting(Changed(p), 5, d),
     Sighting(Failed(p), 9, a), Sighting(Failed(p), 9, b), Sighting(Changed(p), 9, e)]
  }

  lemma HidingStands(p: string, a: string, b: string, c: string, d: string, e: string)
    requires StrLe(a, b) && forall id :: id in [a, b, c, d, e] ==> |id| == 1
    requires a != b && c !in [a, b] && d !in [a, b, c] && e !in [a, b, c, d]
    ensures var xs := HidingStream(p, a, b, c, d, e);
            Hiding(xs, p, a, b) && DistinctSightings(xs) && !FiresLast(xs, 1, 1) && NewSet(xs, p, 1, 1)
  {
    var ids := [a, b, c, d, e];
    assert |ids[0]| == 1 && |ids[1]| == 1 && |ids[2]| == 1 && |ids[3]| == 1 && |ids[4]| == 1;
    SixDistinct(HidingStream(p, a, b, c, d, e));
    SeparatorHidesASet(HidingStream(p, a, b, c, d, e), p, a, b);
  }

  lemma SixDistinct(xs: seq<Sighting>)
    requires |xs| == 6 && |xs[0].id| == 3 && forall i :: 1 <= i < 6 ==> |xs[i].id| == 1
    requires xs[1].id !in {xs[2].id, xs[3].id, xs[4].id, xs[5].id} && xs[2].id !in {xs[3].id, xs[4].id, xs[5].id}
    requires xs[3].id !in {xs[4].id, xs[5].id} && xs[4].id != xs[5].id
    ensures DistinctSightings(xs)
  {
  }

  // ---------------------------------------------------------------------------
  // The batch correlation
  // ---------------------------------------------------------------------------

  datatype Correlation = Correlation(
    id: string, kind: string, eventIds: seq<string>, principal: string, assetId: string, observedAt: Time)

  const AUTH_TO_IDENTITY: string := "auth-to-identity-change"

  function CorrelationId(kind: string, eventIds: seq<string>): string {
    "corr-" + Digest(kind + [SEPARATOR] + Join(SortStrings(eventIds), SEPARATOR))
  }

  predicate IdLe(a: TelemetryEvent, b: TelemetryEvent) {
    StrLe(a.id, b.id)
  }

  function ChangesIn(es: seq<TelemetryEvent>): seq<TelemetryEvent> {
    if es == [] then []
    else
      var last := es[|es| - 1];
      ChangesIn(es[..|es| - 1])
      + if last.eventType == "identity.activity" && IsPrivilegeChange(Attr(last.attributes, "identity.action"))
        then [last] else []
  }

  function FailuresBy(es: seq<TelemetryEvent>, p: string): seq<TelemetryEvent> {
    if es == [] then []
    else
      var last := es[|es| - 1];
      FailuresBy(es[..|es| - 1], p) + if RawStageOf(last) == Failed(p) then [last] else []
  }

  // The ids a change gathers from its principal's failures; None when one of them has no timestamp.
  function Gathered(fs: seq<TelemetryEvent>, t: Time, window: int): Option<seq<string>> {
    if fs == [] then Some([])
    else
      var earlier, last := Gathered(fs[..|fs| - 1], t, window), fs[|fs| - 1];
      if earlier.None? || last.occurredAt.None? then None
      else if Within(FailureOf(last), t, window) then Some(earlier.value + [last.id])
      else earlier
  }

  function FailureOf(e: TelemetryEvent): StageFailure {
    StageFailure(EventTime(e), e.id)
  }

  // The correlation of one change, if it has one; None is the error on a missing timestamp.
  function CorrelationOf(c: TelemetryEvent, es: seq<TelemetryEvent>, window: int): Option<seq<Correlation>> {
    var p := Attr(c.attributes, "identity.principal");
    if p == "" then Some([])
    else if c.occurredAt.None? then None
    else Correlated(c, p, Gathered(FailuresBy(es, p), EventTime(c), window))
  }

  function Correlated(c: TelemetryEvent, p: string, gathered: Option<seq<string>>): Option<seq<Correlation>> {
    if gathered.None? then None
    else
      var ids := [c.id] + gathered.value;
      if |ids| < 2 then Some([])
      else Some([Correlation(CorrelationId(AUTH_TO_IDENTITY, ids), AUTH_TO_IDENTITY, SortStrings(ids), p, "",
                             EventTime(c))])
  }

  function Correlations(changes: seq<TelemetryEvent>, n: nat, es: seq<TelemetryEvent>, window: int)
    : Option<seq<Correlation>>
    requires n <= |changes|
  {
    if n == 0 then Some([])
    else
      var earlier, one := Correlations(changes, n - 1, es, window), CorrelationOf(changes[n - 1], es, window);
      if earlier.None? || one.None? then None else Some(earlier.value + one.value)
  }

  method CorrelateAuthToIdentity(es: seq<TelemetryEvent>, window: int) returns (r: Option<seq<Correlation>>)
    ensures window <= 0 ==> r == None
    ensures window > 0 ==>
        r == Correlations(SortBy(ChangesIn(es), IdLe), |SortBy(ChangesIn(es), IdLe)|, es, window)
  {
    if window <= 0 {
      return None;
    }
    var byPrincipal, changes := Group(es);
    changes := SortBy(changes, IdLe);
    var out := [];
    for i := 0 to |changes|
      invariant Correlations(changes, i, es, window) == Some(out)
    {
      var one := CorrelateChange(changes[i], byPrincipal, window, es);
      if one.None? {
        NoneStays(changes, i + 1, |changes|, es, window);
        return None;
      }
      out := out + one.value;
    }
    return Some(out);
  }

  method CorrelateChange(c: TelemetryEvent, byPrincipal: map<string, seq<TelemetryEvent>>, window: int,
                         ghost es: seq<TelemetryEvent>)
    returns (one: Option<seq<Correlation>>)
    requires forall p :: p != "" ==> FailuresBy(es, p) == if p in byPrincipal then byPrincipal[p] else []
    ensures one == CorrelationOf(c, es, window)
  {
    var p := Attr(c.attributes, "identity.principal");
    if p == "" {
      return Some([]);
    }
    if c.occurredAt.None? {
      return None;
    }
    var failures := if p in byPrincipal then byPrincipal[p] else [];
    var gathered := Gather(failures, EventTime(c), window);
    if gathered.None? {
      return None;
    }
    var ids := [c.id] + gathered.value;
    if |ids| < 2 {
      return Some([]);
    }
    return Some([Correlation(CorrelationId(AUTH_TO_IDENTITY, ids), AUTH_TO_IDENTITY, SortStrings(ids), p, "",
                             EventTime(c))]);
  }

  lemma {:induction false} NoneStays(changes: seq<TelemetryEvent>, m: nat, n: nat, es: seq<TelemetryEvent>, window: int)
    requires m <= n <= |changes| && Correlations(changes, m, es, window) == None
    ensures Correlations(changes, n, es, window) == None
  {
    if m < n {
      NoneStays(changes, m, n - 1, es, window);
    }
  }

  method Group(es: seq<TelemetryEvent>)
    returns (byPrincipal: map<string, seq<TelemetryEvent>>, changes: seq<TelemetryEvent>)
    ensures forall p :: p != "" ==> FailuresBy(es, p) == if p in byPrincipal then byPrincipal[p] else []
    ensures changes == ChangesIn(es)
  {
    byPrincipal, changes := map[], [];
    for i := 0 to |es|
      invariant forall p :: p != "" ==> FailuresBy(es[..i], p) == if p in byPrincipal then byPrincipal[p] else []
      invariant changes == ChangesIn(es[..i])
    {
      assert es[..i + 1][..i] == es[..i];
      var e := es[i];
      if e.eventType == "auth.activity" && Attr(e.attributes, "auth.outcome") == "failure" {
        var p := Attr(e.attributes, "auth.principal");
        if p == "" {
          continue;
        }
        byPrincipal := byPrincipal[p := (if p in byPrincipal then byPrincipal[p] else []) + [e]];
      }
      if e.eventType == "identity.activity" {
        if IsPrivilegeChange(Attr(e.attributes, "identity.action")) {
          changes := changes + [e];
        }
      }
    }
    assert es[..|es|] == es;
  }

  method Gather(fs: seq<TelemetryEvent>, t: Time, window: int) returns (ids: Option<seq<string>>)
    ensures ids == Gathered(fs, t, window)
  {
    var found := [];
    for i := 0 to |fs|
      invariant Gathered(fs[..i], t, window) == Some(found)
    {
      assert fs[..i + 1][..i] == fs[..i];
      if fs[i].occurredAt.None? {
        GatheredNoneStays(fs, i + 1, t, window);
        return None;
      }
      var d := t - EventTime(fs[i]);
      if !(d < 0 || d > window) {
        found := found + [fs[i].id];
      }
    }
    assert fs[..|fs|] == fs;
    return Some(found);
  }

  lemma {:induction false} GatheredNoneStays(fs: seq<TelemetryEvent>, m: nat, t: Time, window: int)
    requires m <= |fs| && Gathered(fs[..m], t, window) == None
    ensures Gathered(fs, t, window) == None
  {
    if m < |fs| {
      assert fs[..|fs| - 1][..m] == fs[..m];
      GatheredNoneStays(fs[..|fs| - 1], m, t, window);
    } else {
      assert fs[..m] == fs;
    }
  }

  lemma GatheredAppend(fs: seq<TelemetryEvent>, f: TelemetryEvent, t: Time, window: int)
    requires f.occurredAt.Some? && Gathered(fs, t, window).Some?
    ensures Gathered(fs + [f], t, window)
         == if Within(FailureOf(f), t, window) then Some(Gathered(fs, t, window).value + [f.id])
            else Gathered(fs, t, window)
  {
    assert (fs + [f])[..|fs|] == fs;
  }

  function KeptBy(es: seq<TelemetryEvent>, f: TelemetryEvent -> bool): seq<TelemetryEvent> {
    if es == [] then []
    else if f(es[|es| - 1]) then KeptBy(es[..|es| - 1], f) + [es[|es| - 1]]
    else KeptBy(es[..|es| - 1], f)
  }

  lemma {:induction false} FailuresAreKept(es: seq<TelemetryEvent>, p: string)
    ensures FailuresBy(es, p) == KeptBy(es, e => RawStageOf(e) == Failed(p))
  {
    if es != [] {
      var front := es[..|es| - 1];
      FailuresAreKept(front, p);
      assert FailuresBy(front, p) + [] == FailuresBy(front, p);
    }
  }

  // Sightings that tell of the events, for one principal.
  ghost predicate TellOf(xs: seq<Sighting>, es: seq<TelemetryEvent>, p: string, f: TelemetryEvent -> bool) {
    && |xs| == |es|
    && (forall i :: 0 <= i < |es| ==> FailureAt(xs[i]) == FailureOf(es[i]) && (xs[i].stage == Failed(p) <==> f(es[i])))
  }

  lemma {:induction false} GatheredIsCollected(es: seq<TelemetryEvent>, xs: seq<Sighting>, n: nat, p: string,
                                               f: TelemetryEvent -> bool, t: Time, window: int)
    requires n <= |es| && TellOf(xs, es, p, f) && forall i :: 0 <= i < |es| ==> es[i].occurredAt.Some?
    ensures Gathered(KeptBy(es[..n], f), t, window) == Some(FailureIds(Collected(xs, n, p, t, window)))
  {
    if n == 0 {
      assert FailureIds([]) == [] && es[..0] == [];
    } else {
      var last, earlier := es[n - 1], Collected(xs, n - 1, p, t, window);
      GatheredIsCollected(es, xs, n - 1, p, f, t, window);
      assert es[..n][..n - 1] == es[..n - 1];
      if f(last) {
        GatheredAppend(KeptBy(es[..n - 1], f), last, t, window);
        assert FailureIds(earlier + [FailureOf(last)]) == FailureIds(earlier) + [last.id];
      }
    }
  }

  // What the batch gathers for a change is the set of failures the histories above speak of.
  lemma BatchGathers(es: seq<TelemetryEvent>, p: string, t: Time, window: int)
    requires forall e :: e in es ==> e.occurredAt.Some?
    ensures Gathered(FailuresBy(es, p), t, window)
         == Some(FailureIds(Collected(RawSightings(es), |es|, p, t, window)))
  {
    var f := (e: TelemetryEvent) => RawStageOf(e) == Failed(p);
    FailuresAreKept(es, p);
    forall i | 0 <= i < |es| ensures es[i].occurredAt.Some? {
      assert es[i] in es;
    }
    GatheredIsCollected(es, RawSightings(es), |es|, p, f, t, window);
    assert es[..|es|] == es;
  }

  // The headline: on an ordered stream stored in parsed form, the batch correlation for a change cites exactly the event
  // ids the streaming rule would report at it, whether or not it fires there; without kept failures there is none.
  lemma SameEventIds(es: seq<TelemetryEvent>, m: nat, p: string, window: int, threshold: int)
    requires m < |es| && StageOf(es[m]) == Changed(p)
    requires StreamOrdered(Sightings(es)) && StoredLiterally(es) && forall e :: e in es ==> e.occurredAt.Some?
    ensures var kept := FailuresOf(RunRule(Sightings(es)[..m + 1], window, threshold), p);
            var found := CorrelationOf(es[m], es, window);
            && found.Some? && |found.value| == (if kept == [] then 0 else 1)
            && forall c :: c in found.value ==>
                 && c.eventIds == SortStrings(SortStrings(FailureIds(kept)) + [es[m].id])
                 && c.principal == p && c.observedAt == EventTime(es[m])
  {
    StreamAgreesWithBatch(es, m, p, window, threshold);
    BatchGathers(es, p, EventTime(es[m]), window);
    ChangedPrincipal(es[m], p);
    SortedCitation(FailureIds(FailuresOf(RunRule(Sightings(es)[..m + 1], window, threshold), p)), es[m].id);
  }

  lemma SortedCitation(ids: seq<string>, id: string)
    ensures SortStrings([id] + ids) == SortStrings(SortStrings(ids) + [id])
  {
    StrLeIsOrder();
    SortBySorts(ids, StrLe);
    SortStringsPermuted([id] + ids, SortStrings(ids) + [id]);
  }

  lemma ChangedPrincipal(e: TelemetryEvent, p: string)
    requires StageOf(e) == Changed(p) && (Notable(e) ==> Literal(e))
    ensures Attr(e.attributes, "identity.principal") == p && p != ""
  {
    ReadersAgree(e);
  }

  /** Two correlations share an id exactly when kind and sorted event ids join to the same text. */
  lemma CorrelationIdExactly(kind: string, es: seq<string>, kind': string, fs: seq<string>)
    ensures CorrelationId(kind, es) == CorrelationId(kind', fs)
       <==> kind + [SEPARATOR] + Join(SortStrings(es), SEPARATOR) == kind' + [SEPARATOR] + Join(SortStrings(fs), SEPARATOR)
  {
    var a, b := Join(SortStrings(es), SEPARATOR), Join(SortStrings(fs), SEPARATOR);
    if CorrelationId(kind, es) == CorrelationId(kind', fs) {
      assert CorrelationId(kind, es)[5..] == Digest(kind + [SEPARATOR] + a);
      assert CorrelationId(kind', fs)[5..] == Digest(kind' + [SEPARATOR] + b);
      DigestInjective(kind + [SEPARATOR] + a, kind' + [SEPARATOR] + b);
    }
  }
}
