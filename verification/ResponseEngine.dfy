/** The engine as it runs: maps updated in place, one audit log, one call log. Each method is proved to have
    exactly the effect that Step describes. */
module ResponseEngine {
  import opened Base
  import opened Contract
  import opened Response
  import opened ResponseRuns

  class InMemoryAuditLog {
    var entries: seq<AuditEntry>

    constructor ()
      ensures entries == []
    {
      entries := [];
    }

    // Stamps the next sequential number, whatever number the entry arrived with.
    method Append(entry: AuditEntry)
      modifies this
      ensures entries == old(entries) + [entry.(number := |old(entries)| + 1)]
    {
      var stamped := entry.(number := |entries| + 1);
      entries := entries + [stamped];
    }
  }

  class Engine {
    const audit: InMemoryAuditLog
    var recs: map<string, Recommendation>
    var sessions: map<string, Session>
    var calls: seq<ExecRequest>

    ghost function State(): EngineState
      reads this, audit
    {
      EngineState(recs, sessions, audit.entries, calls)
    }

    // What every run keeps holds of every engine between calls.
    ghost predicate Valid()
      reads this, audit
    {
      Invariant(State())
    }

    constructor ()
      ensures Valid() && State() == EMPTY && fresh(audit)
    {
      audit := new InMemoryAuditLog();
      recs, sessions, calls := map[], map[], [];
    }

    // Storing what is stored changes nothing.
    lemma Untouched(recId: string)
      requires recId in recs && recId in sessions
      ensures recs[recId := recs[recId]] == recs && sessions[recId := sessions[recId]] == sessions
    {
    }

    // Stores a record with its session and audits the decision that changed them.
    method Settle(rec: Recommendation, sess: Session, at: Time, actor: string, decision: AuditDecision,
                  result: string, phase: SafetyState, answer: Reply) returns (reply: Reply)
      modifies this, audit
      ensures var ch := Audited(rec, sess, None, at, actor, decision, result, phase, answer);
              State() == Apply(old(State()), rec.id, ch) && reply == ch.reply
    {
      recs, sessions := recs[rec.id := rec], sessions[rec.id := sess];
      if at == ZERO_TIME {
        return Failed(Panicked);
      }
      audit.Append(AuditEntry(0, at, actor, rec.operation, rec.risk, decision, result, rec.id, phase));
      return answer;
    }

    method Live(recId: string) returns (refused: Option<Failure>)
      ensures refused == Refused(State(), recId)
    {
      if recId !in recs || recId !in sessions {
        return Some(ErrUnknown);
      }
      if sessions[recId].done {
        return Some(ErrState);
      }
      return None;
    }

    // The two first steps of the safety sequence, which never refuse.
    method WalkToRecommend() returns (safety: Option<SafetyState>)
      ensures safety == Some(StateRecommend)
    {
      var at := StateObserve;
      for i := 0 to 2
        invariant at == [StateObserve, StateAnalyze, StateRecommend][i]
      {
        var next := Advance(at, GateAutomatic);
        if next.None? {
          return None;
        }
        at := next.value;
      }
      return Some(at);
    }

    method DoRecommend(incident: Incident, alert: Alert, det: Detection, events: seq<TelemetryEvent>, clock: Clock)
      returns (reply: Reply)
      requires Valid()
      modifies this, audit
      ensures Valid()
      ensures (State(), reply) == Step(old(State()), Recommend(incident, alert, det, events, clock))
    {
      StepKeepsInvariant(State(), Recommend(incident, alert, det, events, clock));
      if clock.first == ZERO_TIME {
        return Failed(ErrClock);
      }
      var built := BuildProposal(incident, alert, det, events, clock.second);
      if built.None? {
        return Failed(ErrBuild);
      }
      var rec := built.value;
      if rec.id in recs {
        return GotRecommendation(recs[rec.id]);
      }
      var safety := WalkToRecommend();
      if safety != Some(StateRecommend) {
        return Failed(ErrSafety);
      }
      reply := Settle(rec, Session(safety.value, None, false, false, false, false, None), clock.third,
                      rec.recommendedBy, AuditRecommended, rec.id, StateRecommend, GotRecommendation(rec));
    }

    method DoDecide(recId: string, actor: string, policy: ActionRequest -> PolicyAnswer, clock: Clock)
      returns (reply: Reply)
      requires Valid()
      modifies this, audit
      ensures Valid()
      ensures (State(), reply) == Step(old(State()), Decide(recId, actor, policy, clock))
    {
      StepKeepsInvariant(State(), Decide(recId, actor, policy, clock));
      if clock.first == ZERO_TIME {
        return Failed(ErrClock);
      }
      var refused := Live(recId);
      if refused.Some? {
        return Failed(refused.value);
      }
      reply := DecideLive(recId, actor, policy, clock);
    }

    // The decision on a live recommendation.
    method DecideLive(recId: string, actor: string, policy: ActionRequest -> PolicyAnswer, clock: Clock)
      returns (reply: Reply)
      requires recId in recs && recId in sessions && recs[recId].id == recId
      modifies this, audit
      ensures var ch := DecideChange(old(recs[recId]), old(sessions[recId]), Decide(recId, actor, policy, clock));
              State() == Apply(old(State()), recId, ch) && reply == ch.reply
    {
      Untouched(recId);
      var rec, sess := recs[recId], sessions[recId];
      if rec.status != Proposed || sess.safety != StateRecommend {
        return Failed(ErrState);
      }
      var answer := policy(ActionRequest(actor, rec.operation, rec.target, rec.risk));
      if answer == PolicyError {
        return Failed(ErrPolicy);
      }
      var safety := Advance(sess.safety, GateAutomatic);
      if safety.None? {
        return Failed(ErrSafety);
      }
      reply := Settled(rec, sess.(safety := safety.value), answer.decision, actor, clock.second);
    }

    // The branches on the policy's answer, for the stored record and its session in CONFIRM.
    method Settled(was: Recommendation, held: Session, decision: int, actor: string, at: Time) returns (reply: Reply)
      requires was.id in recs && recs[was.id] == was && held.safety == StateConfirm
      modifies this, audit
      ensures State() == Apply(old(State()), was.id, DecidedChange(was, held, decision, actor, at))
      ensures reply == DecidedChange(was, held, decision, actor, at).reply
    {
      var rec, sess := was, held;
      if decision == ALLOW {
        if RequiredGate(rec.operation, rec.risk, false) == GateApproved {
          rec, sess := rec.(status := PendingApproval), sess.(approvalRequired := true);
          reply := Settle(rec, sess, at, actor, AuditApprovalRequired, rec.id, StateConfirm,
                          Checked(rec, GotRecommendation(rec)));
        } else {
          rec, sess := rec.(status := Approved), sess.(approvalRequired := false);
          reply := Settle(rec, sess, at, actor, AuditAllowed, rec.id, StateConfirm,
                          Checked(rec, GotRecommendation(rec)));
        }
      } else if decision == DENY {
        rec, sess := rec.(status := Denied), sess.(done := true);
        reply := Settle(rec, sess, at, actor, AuditDenied, rec.id, StateConfirm,
                        Checked(rec, GotDenied(rec)));
      } else if decision == REQUIRE_APPROVAL {
        rec, sess := rec.(status := PendingApproval), sess.(approvalRequired := true);
        reply := Settle(rec, sess, at, actor, AuditApprovalRequired, rec.id, StateConfirm,
                        Checked(rec, GotRecommendation(rec)));
      } else {
        assert recs[was.id := was] == recs;
        sessions := sessions[was.id := sess];
        reply := Checked(rec, GotRecommendation(rec));
      }
    }

    method DoApprove(recId: string, approver: string, reason: string, ttl: int, clock: Clock) returns (reply: Reply)
      requires Valid()
      modifies this, audit
      ensures Valid()
      ensures (State(), reply) == Step(old(State()), Approve(recId, approver, reason, ttl, clock))
    {
      StepKeepsInvariant(State(), Approve(recId, approver, reason, ttl, clock));
      if clock.first == ZERO_TIME {
        return Failed(ErrClock);
      }
      var refused := Live(recId);
      if refused.Some? {
        return Failed(refused.value);
      }
      reply := ApproveLive(recId, approver, reason, ttl, clock);
    }

    // The approval of a live recommendation.
    method ApproveLive(recId: string, approver: string, reason: string, ttl: int, clock: Clock) returns (reply: Reply)
      requires recId in recs && recId in sessions && recs[recId].id == recId && ValidRecommendation(recs[recId])
      modifies this, audit
      ensures var ch := ApproveChange(old(recs[recId]), old(sessions[recId]),
                                      Approve(recId, approver, reason, ttl, clock));
              State() == Apply(old(State()), recId, ch) && reply == ch.reply
    {
      Untouched(recId);
      var rec, sess := recs[recId], sessions[recId];
      if rec.status != PendingApproval || sess.safety != StateConfirm {
        return Failed(ErrState);
      }
      var appr := Grant(rec, approver, reason, clock.first, ttl);
      if appr.None? {
        return Failed(ErrApprovalInvalid);
      }
      rec, sess := rec.(status := Approved), sess.(approval := appr);
      if !ValidRecommendation(rec) {
        assert false; // approving keeps a recommendation valid
      }
      reply := Settle(rec, sess, clock.second, approver, AuditApproved, appr.value.id, StateConfirm,
                      GotApproval(appr.value));
    }

    method DoExecute(recId: string, executor: ExecRequest -> ExecAnswer, clock: Clock) returns (reply: Reply)
      requires Valid()
      modifies this, audit
      ensures Valid()
      ensures (State(), reply) == Step(old(State()), Execute(recId, executor, clock))
    {
      StepKeepsInvariant(State(), Execute(recId, executor, clock));
      if clock.first == ZERO_TIME {
        return Failed(ErrClock);
      }
      var refused := Live(recId);
      if refused.Some? {
        return Failed(refused.value);
      }
      reply := ExecuteLive(recId, executor, clock);
    }

    // The execution of a live recommendation.
    method ExecuteLive(recId: string, executor: ExecRequest -> ExecAnswer, clock: Clock) returns (reply: Reply)
      requires recId in recs && recId in sessions && recs[recId].id == recId
      modifies this, audit
      ensures var ch := ExecuteChange(old(recs[recId]), old(sessions[recId]), Execute(recId, executor, clock));
              State() == Apply(old(State()), recId, ch) && reply == ch.reply
    {
      Untouched(recId);
      var rec, sess := recs[recId], sessions[recId];
      if rec.status != Approved || sess.safety != StateConfirm {
        return Failed(ErrState);
      }
      if sess.executed {
        return Failed(ErrState);
      }
      var unauthorized, approvalId := Authorize(rec, sess, clock.first);
      if unauthorized.Some? {
        return Failed(unauthorized.value);
      }
      var safety := Advance(sess.safety, GateApproved);
      if safety.None? {
        return Failed(ErrSafety);
      }
      rec, sess := rec.(status := Executing), sess.(safety := safety.value);
      var req := ExecRequest(rec.operation, rec.target, rec.risk, rec.id, approvalId);
      reply := Dispatch(rec, sess, req, executor, clock);
    }

    // The execution gate: a human approval where the gate rule asks for one.
    method Authorize(rec: Recommendation, sess: Session, now: Time)
      returns (unauthorized: Option<Failure>, approvalId: string)
      ensures unauthorized == Unauthorized(rec, sess, now)
      ensures unauthorized.None? ==> approvalId == RequestFor(rec, sess).approvalId
    {
      if RequiredGate(rec.operation, rec.risk, sess.approvalRequired) == GateApproved {
        if sess.approval.None? {
          return Some(ErrApprovalRequired), "";
        }
        if !Covers(sess.approval.value, rec, now) {
          return Some(ErrApprovalInvalid), "";
        }
        return None, sess.approval.value.id;
      }
      return None, "";
    }

    // Marks the recommendation EXECUTING before the executor sees it, then records what the executor answers.
    method Dispatch(rec: Recommendation, sess: Session, req: ExecRequest, executor: ExecRequest -> ExecAnswer,
                    clock: Clock) returns (reply: Reply)
      requires sess.safety == StateExecute
      modifies this, audit
      ensures var ch := DispatchedChange(rec, sess, req, executor(req), clock);
              State() == Apply(old(State()), rec.id, ch) && reply == ch.reply
    {
      recs, sessions := recs[rec.id := rec], sessions[rec.id := sess];
      calls := calls + [req];
      var answer := executor(req);
      if answer.ExecutorError? {
        reply := Settle(rec, sess, clock.second, "executor", AuditExecutorError, answer.message, StateExecute,
                        Failed(ErrExecutor));
      } else {
        reply := Finish(rec, sess, req, answer.success, answer.detail, clock);
      }
      MapOverwrites(old(recs), rec.id, rec, recs[rec.id]);
      MapOverwrites(old(sessions), rec.id, sess, sessions[rec.id]);
    }

    // What follows an executor's report.
    method Finish(rec: Recommendation, sess: Session, req: ExecRequest, success: bool, detail: string, clock: Clock)
      returns (reply: Reply)
      requires rec.id in recs && rec.id in sessions && recs[rec.id] == rec && sessions[rec.id] == sess
      requires sess.safety == StateExecute
      modifies this, audit
      ensures var ch := ReportedChange(rec, sess, req, success, detail, clock);
              State() == Apply(old(State()), rec.id, ch.(dispatched := None)) && reply == ch.reply
    {
      Untouched(rec.id);
      if clock.second == ZERO_TIME {
        return Failed(ErrClock);
      }
      var x := BuildExecution(req, success, detail, clock.first, clock.second);
      if x.None? {
        return Failed(ErrExecution);
      }
      var safety := Advance(sess.safety, GateAutomatic);
      if safety.None? {
        return Failed(ErrSafety);
      }
      var sess' := sess.(execution := x, executed := true, safety := safety.value);
      if success {
        var rec' := rec.(status := Executed);
        reply := Settle(rec', sess', clock.third, "executor", AuditExecuted, x.value.id, StateVerify,
                        Checked(rec', GotExecution(x.value)));
      } else {
        var rec' := rec.(status := ExecutionFailed);
        reply := Settle(rec', sess', clock.third, "executor", AuditExecutionFailed, x.value.id, StateVerify,
                        Checked(rec', GotFailedExecution(x.value)));
      }
    }

    method DoVerify(recId: string, verifier: (Recommendation, Execution) -> Verdict, clock: Clock)
      returns (reply: Reply)
      requires Valid()
      modifies this, audit
      ensures Valid()
      ensures (State(), reply) == Step(old(State()), Verify(recId, verifier, clock))
    {
      StepKeepsInvariant(State(), Verify(recId, verifier, clock));
      if clock.first == ZERO_TIME {
        return Failed(ErrClock);
      }
      var refused := Live(recId);
      if refused.Some? {
        return Failed(refused.value);
      }
      reply := VerifyLive(recId, verifier, clock);
    }

    // The verification of a live recommendation.
    method VerifyLive(recId: string, verifier: (Recommendation, Execution) -> Verdict, clock: Clock)
      returns (reply: Reply)
      requires recId in recs && recId in sessions && recs[recId].id == recId
      modifies this, audit
      ensures var ch := VerifyChange(old(recs[recId]), old(sessions[recId]), Verify(recId, verifier, clock));
              State() == Apply(old(State()), recId, ch) && reply == ch.reply
    {
      Untouched(recId);
      var rec, sess := recs[recId], sessions[recId];
      if !sess.executed || sess.verified || sess.safety != StateVerify {
        return Failed(ErrState);
      }
      if sess.execution.None? {
        return Failed(ErrVerification);
      }
      var verdict;
      if sess.execution.value.success {
        verdict := verifier(rec, sess.execution.value);
      } else {
        verdict := Verdict(OUTCOME_FAILED, INTENT_FAILED);
      }
      var ver := BuildVerification(sess.execution.value, verdict, clock.first);
      if ver.None? {
        return Failed(ErrVerification);
      }
      var safety := Advance(sess.safety, GateAutomatic);
      if safety.None? {
        return Failed(ErrSafety);
      }
      sess := sess.(safety := safety.value, verified := true, done := true);
      var decision;
      if verdict.outcome == OUTCOME_VERIFIED {
        rec, decision := rec.(status := Verified), AuditVerified;
      } else if verdict.outcome == OUTCOME_FAILED {
        rec, decision := rec.(status := VerificationFailed), AuditVerificationFailed;
      } else {
        rec, decision := rec.(status := VerificationUnknown), AuditVerificationUnknown;
      }
      reply := Settle(rec, sess, clock.second, "verifier", decision, ver.value.id, StateAudit,
                      Checked(rec, GotVerification(ver.value)));
    }
  }
}
