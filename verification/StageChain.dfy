/** Multi-stage asset timeline: network, application, then endpoint or server activity under one linkage key. */
module StageChain {
  import opened Base
  import opened Contract
  import opened BurstRules
  import opened Rule

  function StageOf(eventType: string): nat {
    if eventType == "net.connection" then 1
    else if eventType == "http.request" then 2
    else if eventType == "endpoint.activity" || eventType == "server.activity" then 3
    else 0
  }

  datatype Step = Step(stage: nat, at: Time, id: string, severity: Severity)

  datatype Chain = Chain(stage: nat, ids: seq<string>, start: Time, last: Time, peak: Severity)

  const EMPTY: Chain := Chain(0, [], ZERO_TIME, ZERO_TIME, 0)

  // What a completed chain reports.
  datatype Completion = Completion(ids: seq<string>, peak: Severity)

  function ChainStep(before: Chain, x: Step, window: int): (Chain, Option<Completion>) {
    var ch := if before.stage > 0 && x.at - before.start > window then EMPTY else before;
    if x.stage == 1 && ch.stage == 0 then (Chain(1, [x.id], x.at, x.at, x.severity), None)
    else if x.stage == ch.stage + 1 && x.at >= ch.last then
      var grown := Chain(x.stage, ch.ids + [x.id], ch.start, x.at, Max(ch.peak, x.severity));
      if x.stage == 3 then (EMPTY, Some(Completion(SortStrings(grown.ids), grown.peak))) else (grown, None)
    else (ch, None)
  }

  type Chains = map<string, Chain>

  function ChainOf(chains: Chains, key: string): Chain {
    if key in chains then chains[key] else EMPTY
  }

  const TITLE: string := "Asset timeline"

  function TimelineAttrs(window: int, key: string): map<string, string> {
    map["window" := Decimal(window), "linkage" := key, "count" := "3"]
  }

  class MultiStageAssetTimelineRule {
    const window: int
    var chains: Chains

    constructor (window: int)
      requires window > 0
      ensures chains == map[] && this.window == window
    {
      this.window, chains := window, map[];
    }

    method Evaluate(e: TelemetryEvent, now: Time) returns (r: Evaluation)
      modifies this
      ensures var stage, key := StageOf(e.eventType), LinkageKey(e);
              if now == ZERO_TIME then r == RuleError && chains == old(chains)
              else if stage == 0 || key == "" then r == Evaluated(NoMatch) && chains == old(chains)
              else if EventTime(e) == ZERO_TIME then r == RuleError && chains == old(chains)
              else
                var (ch, done) := ChainStep(ChainOf(old(chains), key), Step(stage, EventTime(e), e.id, e.severity),
                                            window);
                && chains == old(chains)[key := ch]
                && r == Evaluated(if done.None? then NoMatch
                                  else Match(done.value.peak, 0.0, TITLE, TITLE, done.value.ids,
                                             map["window" := Decimal(window), "linkage" := key, "count" := "3"]))
    {
      if now == ZERO_TIME {
        return RuleError;
      }
      var stage, key := StageOf(e.eventType), LinkageKey(e);
      if stage == 0 || key == "" {
        return Evaluated(NoMatch);
      }
      var at := EventTime(e);
      if at == ZERO_TIME {
        return RuleError;
      }
      var ch := if key in chains then chains[key] else EMPTY;
      if ch.stage > 0 && at - ch.start > window {
        ch := EMPTY;
      }
      if stage == 1 && ch.stage == 0 {
        chains := chains[key := Chain(1, [e.id], at, at, e.severity)];
        return Evaluated(NoMatch);
      }
      if stage == ch.stage + 1 && !(at < ch.last) {
        ch := ch.(stage := stage, ids := ch.ids + [e.id], last := at);
        if e.severity > ch.peak {
          ch := ch.(peak := e.severity);
        }
        if stage == 3 {
          chains := chains[key := EMPTY];
          return Evaluated(Match(ch.peak, 0.0, TITLE, TITLE, SortStrings(ch.ids), TimelineAttrs(window, key)));
        }
      }
      chains := chains[key := ch];
      return Evaluated(NoMatch);
    }
  }

  // ---------------------------------------------------------------------------
  // Histories of one key: where in the stream the open chain and the matches come from
  // ---------------------------------------------------------------------------

  function RunChain(xs: seq<Step>, window: int): Chain {
    if xs == [] then EMPTY else ChainStep(RunChain(xs[..|xs| - 1], window), xs[|xs| - 1], window).0
  }

  function Completions(xs: seq<Step>, window: int): seq<Completion> {
    if xs == [] then []
    else
      var earlier := Completions(xs[..|xs| - 1], window);
      var done := ChainStep(RunChain(xs[..|xs| - 1], window), xs[|xs| - 1], window).1;
      if done.Some? then earlier + [done.value] else earlier
  }

  // An event with its position in the stream.
  datatype Placed = Placed(pos: nat, step: Step)

  // The events of the open chain, and those of each completed one.
  datatype Progress = Progress(open: seq<Placed>, matches: seq<seq<Placed>>)

  function Advance(was: Progress, x: Placed, window: int): Progress {
    var open := if was.open != [] && x.step.at - was.open[0].step.at > window then [] else was.open;
    if x.step.stage == 1 && open == [] then Progress([x], was.matches)
    else if open != [] && x.step.stage == |open| + 1 && x.step.at >= open[|open| - 1].step.at then
      if x.step.stage == 3 then Progress([], was.matches + [open + [x]]) else Progress(open + [x], was.matches)
    else Progress(open, was.matches)
  }

  function Follow(xs: seq<Step>, window: int): Progress {
    if xs == [] then Progress([], [])
    else Advance(Follow(xs[..|xs| - 1], window), Placed(|xs| - 1, xs[|xs| - 1]), window)
  }

  // Stages 1, 2, ... in order, times not decreasing, inside the window.
  ghost predicate IsChain(ps: seq<Placed>, window: int) {
    && (forall k :: 0 <= k < |ps| ==> ps[k].step.stage == k + 1)
    && (forall j, k :: 0 <= j < k < |ps| ==> ps[j].step.at <= ps[k].step.at)
    && (|ps| > 0 ==> ps[|ps| - 1].step.at - ps[0].step.at <= window)
  }

  // Positions strictly ascend and stay below the bound.
  ghost predicate Ascending(ps: seq<Placed>, bound: nat) {
    && (forall i, j :: 0 <= i < j < |ps| ==> ps[i].pos < ps[j].pos)
    && (forall i :: 0 <= i < |ps| ==> ps[i].pos < bound)
  }

  function Concat(parts: seq<seq<Placed>>): seq<Placed> {
    if parts == [] then [] else Concat(parts[..|parts| - 1]) + parts[|parts| - 1]
  }

  ghost predicate AllComplete(matches: seq<seq<Placed>>, window: int) {
    forall m :: 0 <= m < |matches| ==> |matches[m]| == 3 && IsChain(matches[m], window)
  }

  ghost predicate Sound(p: Progress, n: nat, window: int) {
    && IsChain(p.open, window) && |p.open| <= 2
    && AllComplete(p.matches, window)
    && Ascending(Concat(p.matches) + p.open, n)
  }

  lemma ConcatLast(parts: seq<seq<Placed>>, part: seq<Placed>)
    ensures Concat(parts + [part]) == Concat(parts) + part
  {
    assert (parts + [part])[..|parts|] == parts;
  }

  lemma AscendingSteps(used: seq<Placed>, open: seq<Placed>, x: Placed)
    requires Ascending(used + open, x.pos)
    ensures Ascending(used + [], x.pos + 1) && Ascending(used + [x], x.pos + 1)
    ensures Ascending(used + open, x.pos + 1) && Ascending(used + (open + [x]), x.pos + 1)
  {
    var all := used + open;
    assert forall i :: 0 <= i < |used| ==> all[i] == used[i];
    assert used + [] == used && used + (open + [x]) == all + [x];
    assert forall i :: 0 <= i < |all| ==> all[i].pos < x.pos;
    assert Ascending(used, x.pos);
  }

  lemma ChainGrows(open: seq<Placed>, x: Placed, window: int)
    requires IsChain(open, window) && open != []
    requires x.step.stage == |open| + 1 && x.step.at >= open[|open| - 1].step.at
    requires x.step.at - open[0].step.at <= window
    ensures IsChain(open + [x], window)
  {
    var grown := open + [x];
    assert grown[0] == open[0];
    forall j, k | 0 <= j < k < |grown| ensures grown[j].step.at <= grown[k].step.at {
      if k == |open| && j < |open| - 1 {
        assert open[j].step.at <= open[|open| - 1].step.at;
      }
    }
  }

  // An event that leaves the open chain as it is, drops it, or starts another.
  lemma OpenSound(was: Progress, x: Placed, window: int)
    requires window > 0 && Sound(was, x.pos, window)
    ensures Sound(was, x.pos + 1, window) && Sound(Progress([], was.matches), x.pos + 1, window)
    ensures Sound(Progress([], was.matches), x.pos, window)
    ensures x.step.stage == 1 ==> Sound(Progress([x], was.matches), x.pos + 1, window)
  {
    AscendingSteps(Concat(was.matches), was.open, x);
    var used := Concat(was.matches);
    assert used + [] == used && forall i :: 0 <= i < |used| ==> (used + was.open)[i] == used[i];
  }

  // An event that continues the open chain.
  ghost predicate Continues(open: seq<Placed>, x: Placed, window: int) {
    && open != [] && x.step.stage == |open| + 1 && x.step.at >= open[|open| - 1].step.at
    && x.step.at - open[0].step.at <= window
  }

  lemma GrowSound(was: Progress, x: Placed, window: int)
    requires Sound(was, x.pos, window) && Continues(was.open, x, window) && |was.open| < 2
    ensures Sound(Progress(was.open + [x], was.matches), x.pos + 1, window)
  {
    AscendingSteps(Concat(was.matches), was.open, x);
    ChainGrows(was.open, x, window);
  }

  lemma OneMoreComplete(matches: seq<seq<Placed>>, done: seq<Placed>, window: int)
    requires AllComplete(matches, window) && |done| == 3 && IsChain(done, window)
    ensures AllComplete(matches + [done], window)
  {
  }

  lemma CompleteSound(was: Progress, x: Placed, window: int)
    requires window > 0 && Sound(was, x.pos, window) && Continues(was.open, x, window) && |was.open| == 2
    ensures Sound(Progress([], was.matches + [was.open + [x]]), x.pos + 1, window)
  {
    var done := was.open + [x];
    AscendingSteps(Concat(was.matches), was.open, x);
    ChainGrows(was.open, x, window);
    OneMoreComplete(was.matches, done, window);
    ConcatLast(was.matches, done);
    assert (Concat(was.matches) + done) + [] == Concat(was.matches) + done;
    assert IsChain([], window);
  }

  lemma AdvanceSound(was: Progress, x: Placed, window: int)
    requires window > 0 && Sound(was, x.pos, window)
    ensures Sound(Advance(was, x, window), x.pos + 1, window)
  {
    OpenSound(was, x, window);
    if Continues(was.open, x, window) {
      if |was.open| < 2 {
        GrowSound(was, x, window);
      } else {
        CompleteSound(was, x, window);
      }
    }
  }

  // For any stream, in order or not: the open chain and every match are chains, and reading the matches one after
  // another and then the open chain visits positions in strictly ascending order, so no event is used twice.
  lemma {:induction false} FollowSound(xs: seq<Step>, window: int)
    requires window > 0
    ensures Sound(Follow(xs, window), |xs|, window)
  {
    if xs != [] {
      FollowSound(xs[..|xs| - 1], window);
      AdvanceSound(Follow(xs[..|xs| - 1], window), Placed(|xs| - 1, xs[|xs| - 1]), window);
    } else {
      assert Follow(xs, window) == Progress([], []);
    }
  }

  // What a progress speaks of are events of the stream, at their positions.
  ghost predicate Genuine(xs: seq<Step>, ps: seq<Placed>) {
    forall i :: 0 <= i < |ps| ==> ps[i].pos < |xs| && xs[ps[i].pos] == ps[i].step
  }

  lemma {:induction false} FollowGenuine(xs: seq<Step>, window: int)
    ensures Genuine(xs, Follow(xs, window).open)
    ensures forall m :: 0 <= m < |Follow(xs, window).matches| ==> Genuine(xs, Follow(xs, window).matches[m])
  {
    if xs != [] {
      var front := xs[..|xs| - 1];
      FollowGenuine(front, window);
      forall m | 0 <= m < |Follow(front, window).matches| ensures Genuine(xs, Follow(front, window).matches[m]) {
        assert Genuine(front, Follow(front, window).matches[m]);
      }
    }
  }

  function IdsOf(ps: seq<Placed>): seq<string> {
    seq(|ps|, i requires 0 <= i < |ps| => ps[i].step.id)
  }

  function PeakOf(ps: seq<Placed>): Severity {
    if ps == [] then 0
    else if |ps| == 1 then ps[0].step.severity
    else Max(PeakOf(ps[..|ps| - 1]), ps[|ps| - 1].step.severity)
  }

  function Reported(ps: seq<Placed>): Completion {
    Completion(SortStrings(IdsOf(ps)), PeakOf(ps))
  }

  // The rule's chain state is what the open events say.
  ghost predicate Mirrors(ch: Chain, open: seq<Placed>) {
    && ch.stage == |open| && ch.ids == IdsOf(open) && ch.peak == PeakOf(open)
    && (open != [] ==> ch.start == open[0].step.at && ch.last == open[|open| - 1].step.at)
    && (open == [] ==> ch == EMPTY)
  }

  lemma StepMirrors(ch: Chain, was: Progress, x: Placed, window: int)
    requires window > 0 && Mirrors(ch, was.open) && |was.open| <= 2 && 1 <= x.step.stage <= 3
    ensures var p, done := Advance(was, x, window), ChainStep(ch, x.step, window).1;
            && Mirrors(ChainStep(ch, x.step, window).0, p.open)
            && (done.None? ==> p.matches == was.matches)
            && (done.Some? ==> exists part :: p.matches == was.matches + [part] && done.value == Reported(part))
  {
    var open := was.open;
    if open != [] {
      assert (open + [x])[..|open|] == open;
      assert IdsOf(open + [x]) == IdsOf(open) + [x.step.id];
      assert PeakOf(open + [x]) == Max(PeakOf(open), x.step.severity);
      if ChainStep(ch, x.step, window).1.Some? {
        assert Advance(was, x, window).matches == was.matches + [open + [x]];
        assert ChainStep(ch, x.step, window).1.value == Reported(open + [x]);
      }
    }
  }

  ghost predicate AllReported(done: seq<Completion>, matches: seq<seq<Placed>>) {
    |done| == |matches| && forall m :: 0 <= m < |done| ==> done[m] == Reported(matches[m])
  }

  // The rule completes exactly the matched triples, reporting their ids and their highest severity.
  lemma {:induction false} ChainMirrorsStream(xs: seq<Step>, window: int)
    requires window > 0 && forall x :: x in xs ==> 1 <= x.stage <= 3
    ensures Mirrors(RunChain(xs, window), Follow(xs, window).open)
    ensures AllReported(Completions(xs, window), Follow(xs, window).matches)
  {
    if xs != [] {
      var front, x := xs[..|xs| - 1], Placed(|xs| - 1, xs[|xs| - 1]);
      ChainMirrorsStream(front, window);
      FollowSound(front, window);
      assert x.step in xs;
      StepMirrors(RunChain(front, window), Follow(front, window), x, window);
    }
  }

  // Between calls a chain has as many ids as its stage, at most two, and stays inside its window.
  lemma ChainInvariant(xs: seq<Step>, window: int)
    requires window > 0 && forall x :: x in xs ==> 1 <= x.stage <= 3
    ensures var ch := RunChain(xs, window);
            ch.stage <= 2 && |ch.ids| == ch.stage && ch.start <= ch.last <= ch.start + window
  {
    ChainMirrorsStream(xs, window);
    FollowSound(xs, window);
    var open := Follow(xs, window).open;
    if |open| > 1 {
      assert open[0].step.at <= open[|open| - 1].step.at;
    }
  }

  // ---------------------------------------------------------------------------
  // Keys do not interfere
  // ---------------------------------------------------------------------------

  datatype Linked = Linked(key: string, step: Step)

  function RunLinked(xs: seq<Linked>, window: int): Chains {
    if xs == [] then map[]
    else
      var all, last := RunLinked(xs[..|xs| - 1], window), xs[|xs| - 1];
      all[last.key := ChainStep(ChainOf(all, last.key), last.step, window).0]
  }

  function OfLink(xs: seq<Linked>, key: string): seq<Step> {
    if xs == [] then []
    else
      var earlier := OfLink(xs[..|xs| - 1], key);
      if xs[|xs| - 1].key == key then earlier + [xs[|xs| - 1].step] else earlier
  }

  // The matches an interleaved stream reports on events of one key.
  function LinkedCompletions(xs: seq<Linked>, key: string, window: int): seq<Completion> {
    if xs == [] then []
    else
      var before, last := xs[..|xs| - 1], xs[|xs| - 1];
      var earlier := LinkedCompletions(before, key, window);
      var done := ChainStep(ChainOf(RunLinked(before, window), last.key), last.step, window).1;
      if last.key == key && done.Some? then earlier + [done.value] else earlier
  }

  // On any interleaving the chain of a key and the matches reported for it are those of the key's own events.
  lemma {:induction false} LinkIndependence(xs: seq<Linked>, key: string, window: int)
    ensures ChainOf(RunLinked(xs, window), key) == RunChain(OfLink(xs, key), window)
    ensures LinkedCompletions(xs, key, window) == Completions(OfLink(xs, key), window)
  {
    if xs != [] {
      var before, last := xs[..|xs| - 1], xs[|xs| - 1];
      LinkIndependence(before, key, window);
      if last.key == key {
        var mine := OfLink(xs, key);
        assert mine[..|mine| - 1] == OfLink(before, key);
      }
    }
  }

  // ---------------------------------------------------------------------------
  // The rule on a stream of events
  // ---------------------------------------------------------------------------

  // The event types of the three stages.
  predicate IsStage(e: TelemetryEvent, stage: nat) {
    || (stage == 1 && e.eventType == "net.connection")
    || (stage == 2 && e.eventType == "http.request")
    || (stage == 3 && (e.eventType == "endpoint.activity" || e.eventType == "server.activity"))
  }

  lemma StageMeans(e: TelemetryEvent)
    ensures StageOf(e.eventType) <= 3
    ensures forall stage :: stage > 0 ==> (StageOf(e.eventType) == stage <==> IsStage(e, stage))
  {
  }

  // The event belongs to some stage, has a subject and a time.
  predicate Staged(e: TelemetryEvent) {
    (IsStage(e, 1) || IsStage(e, 2) || IsStage(e, 3)) && HasSubject(e) && EventTime(e) != ZERO_TIME
  }

  function StepOf(e: TelemetryEvent): Step {
    Step(StageOf(e.eventType), EventTime(e), e.id, e.severity)
  }

  // The events of the stream that the rule takes up.
  function LinkedIn(es: seq<TelemetryEvent>): seq<Linked> {
    if es == [] then []
    else
      var earlier, e := LinkedIn(es[..|es| - 1]), es[|es| - 1];
      if StageOf(e.eventType) != 0 && LinkageKey(e) != "" && EventTime(e) != ZERO_TIME
      then earlier + [Linked(LinkageKey(e), StepOf(e))] else earlier
  }

  // The staged events of the stream about the same subject as e, in order of arrival.
  function Timeline(es: seq<TelemetryEvent>, e: TelemetryEvent): seq<TelemetryEvent> {
    if es == [] then []
    else
      var earlier, last := Timeline(es[..|es| - 1], e), es[|es| - 1];
      if Staged(last) && SameSubject(last, e) then earlier + [last] else earlier
  }

  lemma StagedMeans(x: TelemetryEvent, e: TelemetryEvent)
    requires HasSubject(e)
    ensures Staged(x) <==> StageOf(x.eventType) != 0 && LinkageKey(x) != "" && EventTime(x) != ZERO_TIME
    ensures Staged(x) ==> (LinkageKey(x) == LinkageKey(e) <==> SameSubject(x, e)) && 1 <= StageOf(x.eventType) <= 3
  {
    StageMeans(x);
    SubjectMeans(x, e);
  }

  lemma LinkedMore(es: seq<TelemetryEvent>, key: string)
    requires es != []
    ensures var front, x := es[..|es| - 1], es[|es| - 1];
            OfLink(LinkedIn(es), key)
              == if StageOf(x.eventType) != 0 && LinkageKey(x) != "" && EventTime(x) != ZERO_TIME && LinkageKey(x) == key
                 then OfLink(LinkedIn(front), key) + [StepOf(x)] else OfLink(LinkedIn(front), key)
  {
    var front, x := es[..|es| - 1], es[|es| - 1];
    assert (LinkedIn(front) + [Linked(LinkageKey(x), StepOf(x))])[..|LinkedIn(front)|] == LinkedIn(front);
  }

  lemma StepsMore(xs: seq<TelemetryEvent>, x: TelemetryEvent)
    ensures MapSeq(xs + [x], StepOf) == MapSeq(xs, StepOf) + [StepOf(x)]
  {
  }

  lemma {:induction false} TimelineSteps(es: seq<TelemetryEvent>, e: TelemetryEvent)
    requires HasSubject(e)
    ensures OfLink(LinkedIn(es), LinkageKey(e)) == MapSeq(Timeline(es, e), StepOf)
  {
    if es != [] {
      var front, x := es[..|es| - 1], es[|es| - 1];
      TimelineSteps(front, e);
      StagedMeans(x, e);
      LinkedMore(es, LinkageKey(e));
      StepsMore(Timeline(front, e), x);
    }
  }

  lemma {:induction false} TimelineStaged(es: seq<TelemetryEvent>, e: TelemetryEvent)
    ensures forall x :: x in Timeline(es, e) ==> x in es && Staged(x) && SameSubject(x, e)
  {
    if es != [] {
      TimelineStaged(es[..|es| - 1], e);
      assert es == es[..|es| - 1] + [es[|es| - 1]];
    }
  }

  // Three events of a timeline, one of each stage, in order of arrival, in time order and inside the window.
  ghost predicate Triple(ts: seq<TelemetryEvent>, i: nat, j: nat, k: nat, window: int) {
    && i < j < k < |ts| && IsStage(ts[i], 1) && IsStage(ts[j], 2) && IsStage(ts[k], 3)
    && EventTime(ts[i]) <= EventTime(ts[j]) <= EventTime(ts[k]) <= EventTime(ts[i]) + window
  }

  // What is reported for three events: their ids and the highest of their severities.
  ghost predicate TellsOf(c: Completion, a: TelemetryEvent, b: TelemetryEvent, d: TelemetryEvent) {
    && c.ids == SortStrings([a.id, b.id, d.id])
    && c.peak >= a.severity && c.peak >= b.severity && c.peak >= d.severity
    && (c.peak == a.severity || c.peak == b.severity || c.peak == d.severity)
  }

  // A match tells of such a triple.
  ghost predicate Explained(c: Completion, ts: seq<TelemetryEvent>, window: int) {
    exists i: nat, j: nat, k: nat :: Triple(ts, i, j, k, window) && TellsOf(c, ts[i], ts[j], ts[k])
  }

  lemma AscendingHalves(a: seq<Placed>, b: seq<Placed>, n: nat)
    requires Ascending(a + b, n)
    ensures Ascending(a, n) && Ascending(b, n)
  {
    assert forall i :: 0 <= i < |a| ==> (a + b)[i] == a[i];
    assert forall i :: 0 <= i < |b| ==> (a + b)[|a| + i] == b[i];
  }

  lemma {:induction false} PartAscends(parts: seq<seq<Placed>>, m: nat, n: nat)
    requires m < |parts| && Ascending(Concat(parts), n)
    ensures Ascending(parts[m], n)
  {
    var front := parts[..|parts| - 1];
    AscendingHalves(Concat(front), parts[|parts| - 1], n);
    if m < |front| {
      PartAscends(front, m, n);
    }
  }

  // A match is three steps of the stream, at ascending positions.
  lemma MatchSteps(xs: seq<Step>, window: int, m: nat)
    requires window > 0 && m < |Follow(xs, window).matches|
    ensures var ps := Follow(xs, window).matches[m];
            && |ps| == 3 && IsChain(ps, window) && Genuine(xs, ps) && ps[0].pos < ps[1].pos < ps[2].pos < |xs|
  {
    FollowSound(xs, window);
    FollowGenuine(xs, window);
    var p := Follow(xs, window);
    AscendingHalves(Concat(p.matches), p.open, |xs|);
    PartAscends(p.matches, m, |xs|);
  }

  lemma PeakOfThree(ps: seq<Placed>)
    requires |ps| == 3
    ensures PeakOf(ps) == Max(Max(ps[0].step.severity, ps[1].step.severity), ps[2].step.severity)
  {
    var two := ps[..2];
    assert two[..1] == [ps[0]] && PeakOf([ps[0]]) == ps[0].step.severity;
    assert PeakOf(two) == Max(PeakOf(two[..1]), ps[1].step.severity);
    assert PeakOf(ps) == Max(PeakOf(two), ps[2].step.severity);
  }

  lemma MatchTells(ts: seq<TelemetryEvent>, ps: seq<Placed>, window: int)
    requires |ps| == 3 && IsChain(ps, window) && Genuine(MapSeq(ts, StepOf), ps)
    requires ps[0].pos < ps[1].pos < ps[2].pos < |ts|
    ensures Explained(Reported(ps), ts, window)
  {
    var i, j, k := ps[0].pos, ps[1].pos, ps[2].pos;
    var a, b, d := ts[i], ts[j], ts[k];
    assert ps[0].step == StepOf(a) && ps[1].step == StepOf(b) && ps[2].step == StepOf(d);
    StageMeans(a);
    StageMeans(b);
    StageMeans(d);
    assert IdsOf(ps) == [a.id, b.id, d.id];
    PeakOfThree(ps);
    assert Triple(ts, i, j, k, window);
  }

  lemma TimelineStages(ts: seq<TelemetryEvent>)
    requires forall x :: x in ts ==> Staged(x)
    ensures forall x :: x in MapSeq(ts, StepOf) ==> 1 <= x.stage <= 3
  {
    forall x | x in MapSeq(ts, StepOf) ensures 1 <= x.stage <= 3 {
      var i :| 0 <= i < |ts| && StepOf(ts[i]) == x;
      assert ts[i] in ts;
      StageMeans(ts[i]);
    }
  }

  /** On any stream of events, a match tells of a network, an application and an endpoint or server event about its subject,
      in order of arrival and of time and within the window. */
  lemma TimelineMatches(es: seq<TelemetryEvent>, e: TelemetryEvent, window: int)
    requires window > 0 && HasSubject(e)
    ensures forall c :: c in LinkedCompletions(LinkedIn(es), LinkageKey(e), window) ==>
              Explained(c, Timeline(es, e), window)
  {
    var ts := Timeline(es, e);
    var xs := MapSeq(ts, StepOf);
    LinkIndependence(LinkedIn(es), LinkageKey(e), window);
    TimelineSteps(es, e);
    TimelineStaged(es, e);
    TimelineStages(ts);
    ChainMirrorsStream(xs, window);
    forall c | c in Completions(xs, window) ensures Explained(c, ts, window) {
      var m :| 0 <= m < |Completions(xs, window)| && Completions(xs, window)[m] == c;
      MatchSteps(xs, window, m);
      MatchTells(ts, Follow(xs, window).matches[m], window);
    }
  }

  // From an idle chain, three steps of the three stages in time complete it.
  lemma ThreeSteps(ch: Chain, a: Step, b: Step, d: Step, window: int)
    requires ch.stage == 0 && a.stage == 1 && b.stage == 2 && d.stage == 3 && window > 0
    requires a.at <= b.at <= d.at <= a.at + window
    ensures var one := ChainStep(ch, a, window);
            var two := ChainStep(one.0, b, window);
            var three := ChainStep(two.0, d, window);
            && one.1.None? && two.1.None? && three.0 == EMPTY
            && three.1 == Some(Completion(SortStrings([a.id, b.id, d.id]),
                                          Max(Max(a.severity, b.severity), d.severity)))
  {
    assert [a.id] + [b.id] == [a.id, b.id] && [a.id, b.id] + [d.id] == [a.id, b.id, d.id];
  }

  lemma CompletionsMore(xs: seq<Step>, x: Step, window: int)
    ensures RunChain(xs + [x], window) == ChainStep(RunChain(xs, window), x, window).0
    ensures Completions(xs + [x], window)
         == var done := ChainStep(RunChain(xs, window), x, window).1;
            if done.Some? then Completions(xs, window) + [done.value] else Completions(xs, window)
  {
    assert (xs + [x])[..|xs|] == xs;
  }

  lemma TimelineMore(es: seq<TelemetryEvent>, x: TelemetryEvent, e: TelemetryEvent)
    requires Staged(x) && SameSubject(x, e)
    ensures Timeline(es + [x], e) == Timeline(es, e) + [x]
  {
    assert (es + [x])[..|es|] == es;
  }

  /** When no chain is open for a subject, a network, an application and an endpoint or server event about it, in order and
      within the window, always bring a match at the third, whatever else the rule has seen. */
  lemma TimelineCompletes(es: seq<TelemetryEvent>, a: TelemetryEvent, b: TelemetryEvent, d: TelemetryEvent, window: int)
    requires window > 0 && Staged(a) && Staged(b) && Staged(d) && SameSubject(b, a) && SameSubject(d, a)
    requires IsStage(a, 1) && IsStage(b, 2) && IsStage(d, 3)
    requires EventTime(a) <= EventTime(b) <= EventTime(d) <= EventTime(a) + window
    requires ChainOf(RunLinked(LinkedIn(es), window), LinkageKey(a)).stage == 0
    ensures exists c :: TellsOf(c, a, b, d)
                        && LinkedCompletions(LinkedIn(es + [a] + [b] + [d]), LinkageKey(a), window)
                           == LinkedCompletions(LinkedIn(es), LinkageKey(a), window) + [c]
  {
    var key, all := LinkageKey(a), es + [a] + [b] + [d];
    var xs := MapSeq(Timeline(es, a), StepOf);
    LinkIndependence(LinkedIn(es), key, window);
    LinkIndependence(LinkedIn(all), key, window);
    TimelineSteps(es, a);
    TimelineSteps(all, a);
    TimelineMore(es, a, a);
    TimelineMore(es + [a], b, a);
    TimelineMore(es + [a] + [b], d, a);
    StepsMore(Timeline(es, a), a);
    StepsMore(Timeline(es, a) + [a], b);
    StepsMore(Timeline(es, a) + [a] + [b], d);
    StageMeans(a);
    StageMeans(b);
    StageMeans(d);
    ThreeSteps(RunChain(xs, window), StepOf(a), StepOf(b), StepOf(d), window);
    CompletionsMore(xs, StepOf(a), window);
    CompletionsMore(xs + [StepOf(a)], StepOf(b), window);
    CompletionsMore(xs + [StepOf(a)] + [StepOf(b)], StepOf(d), window);
    var c := Completion(SortStrings([a.id, b.id, d.id]), Max(Max(a.severity, b.severity), d.severity));
    assert TellsOf(c, a, b, d);
  }
}
