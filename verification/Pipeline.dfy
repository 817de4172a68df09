/** The pipeline's run loop as a step system: a reader, a bounded queue, a consumer and a cancellation that may come at any
    moment. Go's select is a free choice among its ready cases; its default case is taken only when no other is ready. */
module Pipeline {
  import opened Base

  // An event as the source delivers it.
  datatype Raw = Raw(id: string, source: string, assetId: string, eventType: string, attributes: map<string, string>)

  // ---------------------------------------------------------------------------
  // Handling one event
  // ---------------------------------------------------------------------------

  // How the stages answer one event.
  datatype Stages = Stages(normalizes: bool, enriches: bool, delivers: bool)

  datatype Outcome = Accepted | NotNormalized | NotEnriched | NotDelivered

  function OutcomeOf(stages: Stages, enriching: bool): Outcome {
    if !stages.normalizes then NotNormalized
    else if enriching && !stages.enriches then NotEnriched
    else if !stages.delivers then NotDelivered
    else Accepted
  }

  datatype Handled = Handled(raw: Raw, outcome: Outcome)

  datatype Metrics = Metrics(received: nat, accepted: nat, rejected: nat, normalizeErrs: nat, enrichErrs: nat,
                             sinkErrs: nat)

  datatype Report = Report(accepted: nat, rejections: seq<Raw>, metrics: Metrics)

  predicate Refused(h: Handled) {
    h.outcome == NotNormalized || h.outcome == NotEnriched
  }

  function CountOf(handled: seq<Handled>, outcome: Outcome): nat {
    if handled == [] then 0
    else CountOf(handled[..|handled| - 1], outcome) + if handled[|handled| - 1].outcome == outcome then 1 else 0
  }

  function RefusedOf(handled: seq<Handled>): seq<Raw> {
    if handled == [] then []
    else if Refused(handled[|handled| - 1]) then
      RefusedOf(handled[..|handled| - 1]) + [handled[|handled| - 1].raw]
    else RefusedOf(handled[..|handled| - 1])
  }

  // The report a history of handled events must produce.
  function Accounts(handled: seq<Handled>): Report {
    var a, n, e, d := CountOf(handled, Accepted), CountOf(handled, NotNormalized), CountOf(handled, NotEnriched),
      CountOf(handled, NotDelivered);
    Report(a, RefusedOf(handled), Metrics(|handled|, a, n + e, n, e, d))
  }

  // Every handled event is in exactly one column, and every refusal is kept with its event, in order.
  lemma {:induction false} AccountsAddUp(handled: seq<Handled>)
    ensures var r := Accounts(handled);
            && r.metrics.received == r.metrics.accepted + r.metrics.rejected + r.metrics.sinkErrs
            && r.metrics.rejected == r.metrics.normalizeErrs + r.metrics.enrichErrs == |r.rejections|
            && r.accepted == r.metrics.accepted
  {
    if handled != [] {
      AccountsAddUp(handled[..|handled| - 1]);
    }
  }

  // One more handled event adds to its columns.
  function Tallied(r: Report, h: Handled): Report {
    var m, o := r.metrics, h.outcome;
    Report(r.accepted + if o == Accepted then 1 else 0,
           if Refused(h) then r.rejections + [h.raw] else r.rejections,
           Metrics(m.received + 1,
                   m.accepted + if o == Accepted then 1 else 0,
                   m.rejected + if Refused(h) then 1 else 0,
                   m.normalizeErrs + if o == NotNormalized then 1 else 0,
                   m.enrichErrs + if o == NotEnriched then 1 else 0,
                   m.sinkErrs + if o == NotDelivered then 1 else 0))
  }

  lemma OneMoreHandled(handled: seq<Handled>, h: Handled)
    ensures Accounts(handled + [h]) == Tallied(Accounts(handled), h)
  {
    var all := handled + [h];
    assert all[..|all| - 1] == handled && all[|all| - 1] == h;
  }

  class Collector {
    const enriching: bool
    var accepted: nat
    var rejections: seq<Raw>
    var metrics: Metrics
    ghost var handled: seq<Handled>

    ghost predicate Valid()
      reads this
    {
      Report(accepted, rejections, metrics) == Accounts(handled)
    }

    constructor (enriching: bool)
      ensures Valid() && handled == [] && this.enriching == enriching
    {
      this.enriching := enriching;
      accepted, rejections, metrics := 0, [], Metrics(0, 0, 0, 0, 0, 0);
      handled := [];
    }

    // False is a delivery failure, which ends the run.
    method Handle(raw: Raw, stages: Stages) returns (ok: bool)
      requires Valid()
      modifies this
      ensures Valid() && handled == old(handled) + [Handled(raw, OutcomeOf(stages, enriching))]
      ensures ok == (OutcomeOf(stages, enriching) != NotDelivered)
    {
      ghost var h := Handled(raw, OutcomeOf(stages, enriching));
      OneMoreHandled(handled, h);
      handled := handled + [h];
      var emitted;
      emitted, ok := Process(raw, stages);
      metrics := metrics.(received := metrics.received + 1);
      if !ok {
        metrics := metrics.(sinkErrs := metrics.sinkErrs + 1);
      } else if emitted {
        metrics := metrics.(accepted := metrics.accepted + 1);
      }
    }

    method Process(raw: Raw, stages: Stages) returns (emitted: bool, ok: bool)
      modifies this`accepted, this`rejections, this`metrics
      ensures var o, m := OutcomeOf(stages, enriching), old(metrics);
              && emitted == (o == Accepted) && ok == (o != NotDelivered)
              && accepted == old(accepted) + (if o == Accepted then 1 else 0)
              && rejections == (if Refused(Handled(raw, o)) then old(rejections) + [raw] else old(rejections))
              && metrics == m.(rejected := m.rejected + if Refused(Handled(raw, o)) then 1 else 0,
                               normalizeErrs := m.normalizeErrs + if o == NotNormalized then 1 else 0,
                               enrichErrs := m.enrichErrs + if o == NotEnriched then 1 else 0)
    {
      if !stages.normalizes {
        metrics := metrics.(rejected := metrics.rejected + 1, normalizeErrs := metrics.normalizeErrs + 1);
        rejections := rejections + [raw];
        return false, true;
      }
      if enriching && !stages.enriches {
        metrics := metrics.(rejected := metrics.rejected + 1, enrichErrs := metrics.enrichErrs + 1);
        rejections := rejections + [raw];
        return false, true;
      }
      if !stages.delivers {
        return false, false;
      }
      accepted := accepted + 1;
      return true, true;
    }
  }

  // ---------------------------------------------------------------------------
  // The step system
  // ---------------------------------------------------------------------------

  // The reader goroutine; once done it has closed the queue, perhaps after dropping the event it held.
  datatype Reader = Polling | Holding(event: Raw) | Done(dropped: Option<Raw>)

  // Where the consumer waits: in the select over cancellation and queue, or in the draining select before it.
  datatype Consumer = AtMain | AtDrain | Returned(failed: bool)

  datatype State = State(
    unread: seq<Raw>, reader: Reader, queue: seq<Raw>, cancelled: bool,
    draining: bool, consumer: Consumer, handled: seq<Handled>)

  function Initial(source: seq<Raw>): State {
    State(source, Polling, [], false, false, AtMain, [])
  }

  datatype Step =
    | Cancel
    | Take            // the reader receives from the source
    | SourceClosed    // the reader finds the source closed
    | Quit            // the reader sees the cancellation while polling
    | Drop            // the reader sees the cancellation while holding an event
    | Put             // the reader queues the event it holds
    | Notice          // the consumer sees the cancellation
    | Handle(outcome: Outcome)
    | Finish          // the consumer finds the queue closed, or empty while draining

  predicate Enabled(s: State, step: Step, bound: nat) {
    match step
    case Cancel => !s.cancelled
    case Take => s.reader.Polling? && s.unread != []
    case SourceClosed => s.reader.Polling? && s.unread == []
    case Quit => s.reader.Polling? && s.cancelled
    case Drop => s.reader.Holding? && s.cancelled
    case Put => s.reader.Holding? && |s.queue| < bound
    case Notice => s.consumer.AtMain? && s.cancelled
    case Handle(_) => !s.consumer.Returned? && s.queue != []
    case Finish => s.queue == [] && ((s.consumer.AtMain? && s.reader.Done?) || s.consumer.AtDrain?)
  }

  function Next(s: State, step: Step): State {
    match step
    case Cancel => s.(cancelled := true)
    case Take => if s.unread == [] then s else s.(unread := s.unread[1..], reader := Holding(s.unread[0]))
    case SourceClosed => s.(reader := Done(None))
    case Quit => s.(reader := Done(None))
    case Drop => if s.reader.Holding? then s.(reader := Done(Some(s.reader.event))) else s
    case Put => if s.reader.Holding? then s.(reader := Polling, queue := s.queue + [s.reader.event]) else s
    case Notice => s.(draining := true, consumer := AtDrain)
    case Handle(outcome) =>
      if s.queue == [] then s
      else
        var consumer :=
          if outcome == NotDelivered then Returned(true)
          else if s.consumer.AtDrain? then AtMain      // out of the draining select, into the select after it
          else if s.draining then AtDrain
          else AtMain;
        s.(queue := s.queue[1..], handled := s.handled + [Handled(s.queue[0], outcome)], consumer := consumer)
    case Finish => s.(consumer := Returned(false))
  }

  // The states a run goes through; None when a step was not enabled.
  function Run(source: seq<Raw>, steps: seq<Step>, bound: nat): Option<State> {
    if steps == [] then Some(Initial(source))
    else
      var was := Run(source, steps[..|steps| - 1], bound);
      if was.Some? && Enabled(was.value, steps[|steps| - 1], bound) then Some(Next(was.value, steps[|steps| - 1]))
      else None
  }

  function RawsOf(handled: seq<Handled>): seq<Raw> {
    seq(|handled|, i requires 0 <= i < |handled| => handled[i].raw)
  }

  function InHand(reader: Reader): seq<Raw> {
    match reader
    case Polling => []
    case Holding(e) => [e]
    case Done(dropped) => if dropped.Some? then [dropped.value] else []
  }

  // ---------------------------------------------------------------------------
  // The invariant
  // ---------------------------------------------------------------------------

  // Nothing is lost, duplicated or reordered.
  ghost predicate Conserved(s: State, source: seq<Raw>) {
    RawsOf(s.handled) + s.queue + InHand(s.reader) + s.unread == source
  }

  // A delivery failure is the last thing handled, and it ends the run.
  ghost predicate FailsLast(s: State) {
    && (forall i :: 0 <= i < |s.handled| - 1 ==> s.handled[i].outcome != NotDelivered)
    && (s.consumer == Returned(true) <==> s.handled != [] && s.handled[|s.handled| - 1].outcome == NotDelivered)
  }

  ghost predicate Disciplined(s: State, bound: nat) {
    && |s.queue| <= bound
    && (s.draining ==> s.cancelled)
    && (s.consumer.AtDrain? ==> s.draining)
    && (!s.cancelled && s.reader.Done? ==> s.unread == [] && s.reader.dropped.None?)
    && (s.consumer == Returned(false) && !s.cancelled ==> s.reader.Done? && s.queue == [])
  }

  lemma StepConserves(s: State, step: Step, source: seq<Raw>, bound: nat)
    requires Conserved(s, source) && Enabled(s, step, bound)
    ensures Conserved(Next(s, step), source)
  {
    var s' := Next(s, step);
    match step
    case Take =>
      assert s.unread == [s.unread[0]] + s.unread[1..];
      assert InHand(s.reader) + s.unread == InHand(s'.reader) + s'.unread;
      Regroup(RawsOf(s.handled) + s.queue, InHand(s.reader), s.unread);
      Regroup(RawsOf(s.handled) + s.queue, InHand(s'.reader), s'.unread);
    case Put =>
      assert s.queue + InHand(s.reader) == s'.queue + InHand(s'.reader);
      Regroup(RawsOf(s.handled), s.queue, InHand(s.reader));
      Regroup(RawsOf(s.handled), s'.queue, InHand(s'.reader));
    case Handle(outcome) =>
      assert s.queue == [s.queue[0]] + s.queue[1..];
      assert RawsOf(s'.handled) == RawsOf(s.handled) + [s.queue[0]];
      Regroup(RawsOf(s.handled), [s.queue[0]], s'.queue);
    case _ =>
  }

  lemma Regroup(a: seq<Raw>, b: seq<Raw>, c: seq<Raw>)
    ensures (a + b) + c == a + (b + c)
  {
  }

  lemma StepDisciplined(s: State, step: Step, bound: nat)
    requires Disciplined(s, bound) && Enabled(s, step, bound)
    ensures Disciplined(Next(s, step), bound)
  {
  }

  lemma StepFailsLast(s: State, step: Step, bound: nat)
    requires FailsLast(s) && Enabled(s, step, bound)
    ensures FailsLast(Next(s, step))
  {
  }

  /** In every interleaving handled, queued, held and unread events are the source in order, and the queue keeps its
      bound. */
  lemma {:induction false} RunInvariant(source: seq<Raw>, steps: seq<Step>, bound: nat)
    requires Run(source, steps, bound).Some?
    ensures var s := Run(source, steps, bound).value;
            Conserved(s, source) && Disciplined(s, bound) && FailsLast(s)
  {
    if steps != [] {
      var front, step := steps[..|steps| - 1], steps[|steps| - 1];
      RunInvariant(source, front, bound);
      var s := Run(source, front, bound).value;
      StepConserves(s, step, source, bound);
      StepDisciplined(s, step, bound);
      StepFailsLast(s, step, bound);
    }
  }

  lemma {:induction false} FailureCount(handled: seq<Handled>)
    requires forall i :: 0 <= i < |handled| - 1 ==> handled[i].outcome != NotDelivered
    ensures CountOf(handled, NotDelivered)
         == if handled != [] && handled[|handled| - 1].outcome == NotDelivered then 1 else 0
  {
    if handled != [] {
      FailureCount(handled[..|handled| - 1]);
    }
  }

  /** The accounting of every run: received = accepted + rejected + sink errors, with at most one sink error, counted
      exactly when the run has failed. */
  lemma RunAccounts(source: seq<Raw>, steps: seq<Step>, bound: nat)
    requires Run(source, steps, bound).Some?
    ensures var s := Run(source, steps, bound).value;
            var m := Accounts(s.handled).metrics;
            && m.received == m.accepted + m.rejected + m.sinkErrs == |s.handled| <= |source|
            && m.rejected == m.normalizeErrs + m.enrichErrs
            && m.sinkErrs == (if s.consumer == Returned(true) then 1 else 0)
  {
    RunInvariant(source, steps, bound);
    var s := Run(source, steps, bound).value;
    AccountsAddUp(s.handled);
    FailureCount(s.handled);
    assert |source| == |RawsOf(s.handled) + s.queue + InHand(s.reader) + s.unread|;
  }

  /** Without cancellation or sink failure a returned run has handled every source event exactly once, in order. */
  lemma CompleteRun(source: seq<Raw>, steps: seq<Step>, bound: nat)
    requires Run(source, steps, bound).Some?
    requires var s := Run(source, steps, bound).value; s.consumer == Returned(false) && !s.cancelled
    ensures RawsOf(Run(source, steps, bound).value.handled) == source
  {
    RunInvariant(source, steps, bound);
    var s := Run(source, steps, bound).value;
    var raws := RawsOf(s.handled);
    assert raws + [] + [] + [] == raws;
  }

  /** A run that returns without failure, cancelled or not, has handled everything that ever entered the queue: what it
      leaves behind is at most the one event in the reader's hand and what was never read. */
  lemma DrainedRun(source: seq<Raw>, steps: seq<Step>, step: Step, bound: nat)
    requires Run(source, steps, bound).Some? && Enabled(Run(source, steps, bound).value, step, bound)
    requires !Run(source, steps, bound).value.consumer.Returned?
    requires Next(Run(source, steps, bound).value, step).consumer == Returned(false)
    ensures var s := Next(Run(source, steps, bound).value, step);
            && s.queue == [] && |InHand(s.reader)| <= 1
            && RawsOf(s.handled) + (InHand(s.reader) + s.unread) == source
  {
    RunInvariant(source, steps, bound);
    var s := Next(Run(source, steps, bound).value, step);
    StepConserves(Run(source, steps, bound).value, step, source, bound);
    var raws := RawsOf(s.handled);
    assert raws + [] == raws;
    Regroup(raws, InHand(s.reader), s.unread);
  }

  // ---------------------------------------------------------------------------
  // Return is inevitable
  // ---------------------------------------------------------------------------

  function Rank(s: State): nat {
    8 * |s.unread|
    + (match s.reader case Polling => 1 case Holding(_) => 7 case Done(_) => 0)
    + 4 * |s.queue|
    + (match s.consumer case AtMain => 2 case AtDrain => 1 case Returned(_) => 0)
    + if s.cancelled then 0 else 1
  }

  lemma StepDescends(s: State, step: Step, bound: nat)
    requires Enabled(s, step, bound)
    ensures Rank(Next(s, step)) < Rank(s)
  {
  }

  // No interleaving runs for ever.
  lemma {:induction false} BoundedRun(source: seq<Raw>, steps: seq<Step>, bound: nat)
    requires Run(source, steps, bound).Some?
    ensures |steps| + Rank(Run(source, steps, bound).value) <= 8 * |source| + 4
  {
    if steps != [] {
      var front := steps[..|steps| - 1];
      BoundedRun(source, front, bound);
      StepDescends(Run(source, front, bound).value, steps[|steps| - 1], bound);
    }
  }

  // Until the consumer has returned somebody can move, even if no cancellation ever comes.
  lemma NeverStuck(s: State, bound: nat)
    requires bound > 0 && Disciplined(s, bound) && !s.consumer.Returned?
    ensures exists step :: step != Cancel && Enabled(s, step, bound)
  {
    if s.queue != [] {
      assert Enabled(s, Handle(Accepted), bound);
    } else if s.consumer.AtDrain? {
      assert Enabled(s, Finish, bound);
    } else {
      match s.reader
      case Polling =>
        assert Enabled(s, Take, bound) || Enabled(s, SourceClosed, bound);
      case Holding(_) =>
        assert Enabled(s, Put, bound);
      case Done(_) =>
        assert Enabled(s, Finish, bound);
    }
  }

  /** Every run can be continued to its return, however it went so far and without any cancellation. */
  lemma {:induction false} RunReturns(source: seq<Raw>, steps: seq<Step>, bound: nat) returns (all: seq<Step>)
    requires bound > 0 && Run(source, steps, bound).Some?
    ensures steps <= all && Run(source, all, bound).Some? && Run(source, all, bound).value.consumer.Returned?
    ensures Run(source, all, bound).value.cancelled == Run(source, steps, bound).value.cancelled
    decreases Rank(Run(source, steps, bound).value)
  {
    var s := Run(source, steps, bound).value;
    if s.consumer.Returned? {
      return steps;
    }
    RunInvariant(source, steps, bound);
    NeverStuck(s, bound);
    var step :| step != Cancel && Enabled(s, step, bound);
    StepDescends(s, step, bound);
    assert (steps + [step])[..|steps|] == steps;
    all := RunReturns(source, steps + [step], bound);
  }

  /** What becomes of an event: it is accepted exactly when every stage that is there lets it through, and otherwise counted
      against the first that does not. */
  lemma OutcomeMeans(stages: Stages, enriching: bool)
    ensures OutcomeOf(stages, enriching) == Accepted
       <==> stages.normalizes && (enriching ==> stages.enriches) && stages.delivers
    ensures OutcomeOf(stages, enriching) == NotNormalized <==> !stages.normalizes
    ensures OutcomeOf(stages, enriching) == NotEnriched <==> stages.normalizes && enriching && !stages.enriches
  {
  }
}
