/** Concrete runs of the response engine in which the audit trail falls behind the state, one for each cause. */
module ResponseLags {
  import opened Base
  import opened Contract
  import opened Response
  import opened ResponseRuns

  const INC: Incident := Incident("inc", ["alert"], INCIDENT_OPEN, LOW, Some(1), Some(1), "title", "summary")
  const ALERT: Alert := Alert("alert", ["det"], ALERT_OPEN, LOW, Some(1), Some(1), "title")
  const DET: Detection := Detection("det", "rule", "name", ["event"], Some(1), LOW, 0.0, "title", "detail", map[])
  const EVENT: TelemetryEvent := TelemetryEvent("event", Some(1), "source", "asset", "type", LOW, map[])
  const TICK: Clock := Clock(1, 1, 1)

  ghost function RecId(): string {
    RecommendationId(INC.id, ALERT.id)
  }

  ghost function Recommended(clock: Clock): Call {
    Recommend(INC, ALERT, DET, [EVENT], clock)
  }

  ghost function Decided(decision: int): Call {
    Decide(RecId(), "actor", req => Answer(decision), TICK)
  }

  ghost function ExecutedMutely(): Call {
    Execute(RecId(), req => Report(true, ""), TICK)
  }

  lemma ProposalStands()
    ensures var built := Proposal(INC, ALERT, DET, [EVENT], 1);
            && built.Some? && built.value.id == RecId() && built.value.status == Proposed
            && built.value.operation == OBSERVE && built.value.risk == RISK_LOW
  {
  }

  lemma AfterRecommend(clock: Clock)
    requires clock.first != ZERO_TIME && clock.second == 1
    ensures var rec := Proposal(INC, ALERT, DET, [EVENT], 1).value;
            Run([Recommended(clock)]) == Apply(EMPTY, RecId(), NewRecord(rec, clock.third))
    ensures Run([]) == EMPTY && MoveOf(EMPTY, Recommended(clock)).Moved?
  {
    ProposalStands();
    assert [Recommended(clock)][..0] == [];
  }

  // A clock that reads zero when the recommendation is audited: the recommendation exists, its trail is empty.
  lemma ClockCanLag()
    ensures !AuditAgrees(Run([Recommended(Clock(1, 1, ZERO_TIME))]), RecId())
  {
    AfterRecommend(Clock(1, 1, ZERO_TIME));
    StrandedDisagrees([], Recommended(Clock(1, 1, ZERO_TIME)), RecId());
    assert [] + [Recommended(Clock(1, 1, ZERO_TIME))] == [Recommended(Clock(1, 1, ZERO_TIME))];
  }

  lemma StateAfterRecommend()
    ensures var s := Run([Recommended(TICK)]);
            && RecId() in s.recs && RecId() in s.sessions && s.sessions[RecId()] == FRESH
            && s.recs[RecId()].status == Proposed && s.recs[RecId()].operation == OBSERVE
            && s.recs[RecId()].risk == RISK_LOW
  {
    ProposalStands();
    AfterRecommend(TICK);
  }

  // A policy that answers 7: the session has moved on, the trail still says recommended.
  lemma PolicyCanLag()
    ensures !AuditAgrees(Run([Recommended(TICK), Decided(7)]), RecId())
  {
    StateAfterRecommend();
    StrandedDisagrees([Recommended(TICK)], Decided(7), RecId());
    assert [Recommended(TICK)] + [Decided(7)] == [Recommended(TICK), Decided(7)];
  }

  lemma StateAfterAllow()
    ensures var s := Run([Recommended(TICK), Decided(ALLOW)]);
            && RecId() in s.recs && RecId() in s.sessions
            && s.recs[RecId()].status == Approved && s.sessions[RecId()] == FRESH.(safety := StateConfirm)
            && s.recs[RecId()].operation == OBSERVE && s.recs[RecId()].risk == RISK_LOW
  {
    StateAfterRecommend();
    assert [Recommended(TICK), Decided(ALLOW)][..1] == [Recommended(TICK)];
  }

  // An executor that reports success without detail: it has been called, and the trail still says allowed.
  lemma ExecutorCanLag()
    ensures !AuditAgrees(Run([Recommended(TICK), Decided(ALLOW), ExecutedMutely()]), RecId())
  {
    StateAfterAllow();
    StrandedDisagrees([Recommended(TICK), Decided(ALLOW)], ExecutedMutely(), RecId());
    assert [Recommended(TICK), Decided(ALLOW)] + [ExecutedMutely()]
        == [Recommended(TICK), Decided(ALLOW), ExecutedMutely()];
  }
}
