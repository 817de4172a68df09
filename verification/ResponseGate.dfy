/** What the gates of the response engine let through, told in the fields of the calls: what an incident's severity asks
    for, who approved it and until when, and what each answer of a collaborator leads to. */
module ResponseGate {
  import opened Base
  import opened Contract
  import opened Response
  import opened ResponseRuns

  // ---------------------------------------------------------------------------
  // What a severity asks for
  // ---------------------------------------------------------------------------

  // The operation and the risk an incident of some severity calls for.
  predicate Fits(severity: Severity, op: Operation, risk: Risk) {
    && (severity == CRITICAL ==> op == ANALYZE && risk == RISK_CRITICAL)
    && (severity == HIGH ==> op == RECOMMEND && risk == RISK_HIGH)
    && (severity == MEDIUM ==> op == OBSERVE && risk == RISK_MEDIUM)
    && (severity < MEDIUM ==> op == OBSERVE && risk == RISK_LOW)
  }

  predicate Grave(severity: Severity) {
    severity == HIGH || severity == CRITICAL
  }

  // The assets of the events, each once, in order.
  ghost predicate Names(names: seq<string>, events: seq<TelemetryEvent>) {
    && (forall name :: name in names <==> exists e :: e in events && e.assetId == name)
    && (forall i, j :: 0 <= i < j < |names| ==> names[i] != names[j] && StrLe(names[i], names[j]))
  }

  ghost predicate Grounded(incident: Incident, alert: Alert, det: Detection, events: seq<TelemetryEvent>, now: Time) {
    && ValidIncident(incident) && ValidAlert(alert) && ValidDetection(det) && alert.id in incident.alertIds
    && events != [] && (forall e :: e in events ==> ValidEvent(e)) && now != ZERO_TIME
  }

  /** There is a proposal exactly for grounded incident data. It asks for what the severity calls for, needs a human exactly
      when the severity is high or critical, and targets exactly the assets of the events. */
  lemma ProposalMeans(incident: Incident, alert: Alert, det: Detection, events: seq<TelemetryEvent>, now: Time)
    ensures Proposal(incident, alert, det, events, now).Some? <==> Grounded(incident, alert, det, events, now)
    ensures Proposal(incident, alert, det, events, now).Some? ==>
              var rec := Proposal(incident, alert, det, events, now).value;
              && Fits(incident.severity, rec.operation, rec.risk)
              && (rec.approvalRequired <==> Grave(incident.severity))
              && rec.id == RecommendationId(incident.id, alert.id) && rec.incidentId == incident.id
              && rec.status == Proposed && rec.recommendedAt == now
              && exists names :: Names(names, events) && rec.target == Join(names, ',')
  {
    NamesAreSorted(events);
  }

  lemma NamesAreSorted(events: seq<TelemetryEvent>)
    ensures Names(SortedKeys(AssetsOf(events)), events)
  {
    SortedKeysOf(AssetsOf(events));
    DistinctKeys(AssetsOf(events));
  }

  // ---------------------------------------------------------------------------
  // One call on a stored recommendation
  // ---------------------------------------------------------------------------

  ghost predicate StatusIs(s: EngineState, id: string, status: Status) {
    id in s.recs && id in s.sessions && s.recs[id].status == status
  }

  // A call on a recommendation that is stored and not done does its change and answers its reply.
  lemma LiveStep(s: EngineState, c: Call)
    requires !c.Recommend? && c.recId in s.recs && c.recId in s.sessions && !s.sessions[c.recId].done
    requires c.clock.first != ZERO_TIME
    ensures var ch := ChangeOf(s.recs[c.recId], s.sessions[c.recId], c);
            Step(s, c) == (Apply(s, c.recId, ch), ch.reply)
  {
  }

  // A refused call changes nothing.
  lemma RejectedStep(s: EngineState, c: Call, failure: Failure)
    requires !c.Recommend? && c.recId in s.recs && c.recId in s.sessions && !s.sessions[c.recId].done
    requires c.clock.first != ZERO_TIME
    requires ChangeOf(s.recs[c.recId], s.sessions[c.recId], c)
          == Rejected(s.recs[c.recId], s.sessions[c.recId], failure)
    ensures Step(s, c) == (s, Failed(failure))
  {
    LiveStep(s, c);
    MapSame(s.recs, c.recId);
    MapSame(s.sessions, c.recId);
  }

  lemma MapSame<V>(m: map<string, V>, id: string)
    requires id in m
    ensures m[id := m[id]] == m
  {
  }

  // Only the status of the recommendation changes.
  ghost predicate Becomes(s: EngineState, s': EngineState, id: string, status: Status) {
    id in s.recs && id in s'.recs && s'.recs[id] == s.recs[id].(status := status)
  }

  // What a policy's answer makes of a recommendation of some risk.
  function Decided(decision: int, risk: Risk): Status {
    if decision == 0 then if risk <= RISK_MEDIUM then Approved else PendingApproval
    else if decision == 1 then Denied
    else if decision == 2 then PendingApproval
    else Proposed
  }

  lemma DecidedRow(id: string, rec: Recommendation, sess: Session, decision: int, actor: string, at: Time)
    requires RowOk(id, rec, sess) && rec.status == Proposed
    ensures var ch := DecidedChange(rec, sess.(safety := StateConfirm), decision, actor, at);
            ch.rec == rec.(status := Decided(decision, rec.risk)) && ch.dispatched.None?
  {
  }

  /** A decision on a new recommendation: an error of the policy changes nothing, allow approves low and medium risk and
      sends the rest to a human, deny denies, and require-approval sends everything to a human. */
  lemma DecideOutcome(s: EngineState, c: Call)
    requires Invariant(s) && c.Decide? && ViewOf(s, c.recId) == PROPOSED && c.clock.first != ZERO_TIME
    ensures var rec := s.recs[c.recId];
            var answer := c.policy(ActionRequest(c.actor, rec.operation, rec.target, rec.risk));
            if answer == PolicyError then Step(s, c) == (s, Failed(ErrPolicy))
            else
              && Becomes(s, Step(s, c).0, c.recId, Decided(answer.decision, rec.risk))
              && Step(s, c).0.calls == s.calls
  {
    var rec, sess := s.recs[c.recId], s.sessions[c.recId];
    var answer := c.policy(ActionRequest(c.actor, rec.operation, rec.target, rec.risk));
    if answer == PolicyError {
      RejectedStep(s, c, ErrPolicy);
    } else {
      LiveStep(s, c);
      DecidedRow(c.recId, rec, sess, answer.decision, c.actor, c.clock.second);
    }
  }

  // A human's signature.
  predicate Signed(c: Call)
    requires c.Approve?
  {
    c.approver != "" && c.reason != "" && c.ttl >= 0 && c.clock.first != ZERO_TIME
  }

  // The approval such a call makes: bound to the recommendation, and with an end exactly when a positive ttl was given.
  predicate GrantOf(a: Approval, rec: Recommendation, c: Call)
    requires c.Approve?
  {
    && a.recommendationId == rec.id && a.operation == rec.operation && a.target == rec.target && a.risk == rec.risk
    && a.approver == c.approver && a.reason == c.reason && a.approvedAt == c.clock.first
    && a.expiresAt == if c.ttl > 0 then Some(c.clock.first + c.ttl) else None
  }

  lemma GrantMeans(rec: Recommendation, c: Call)
    requires ValidRecommendation(rec) && c.Approve?
    ensures var a := Grant(rec, c.approver, c.reason, c.clock.first, c.ttl);
            if Signed(c) then a.Some? && GrantOf(a.value, rec, c) else a.None?
  {
  }

  lemma ApprovedRow(id: string, rec: Recommendation, sess: Session, c: Call)
    requires RowOk(id, rec, sess) && c.Approve? && rec.status == PendingApproval
    ensures var ch, a := ApproveChange(rec, sess, c), Grant(rec, c.approver, c.reason, c.clock.first, c.ttl);
            if a.Some? then
              ch.rec == rec.(status := Approved) && ch.sess == sess.(approval := a) && ch.dispatched.None?
            else ch == Rejected(rec, sess, ErrApprovalInvalid)
  {
  }

  /** An approval of a pending recommendation takes effect exactly when it is signed. */
  lemma ApproveOutcome(s: EngineState, c: Call)
    requires Invariant(s) && c.Approve? && StatusIs(s, c.recId, PendingApproval)
    ensures var id, s' := c.recId, Step(s, c).0;
            if Signed(c) then
              && Becomes(s, s', id, Approved) && id in s'.sessions && s'.calls == s.calls
              && s'.sessions[id].approval.Some? && GrantOf(s'.sessions[id].approval.value, s.recs[id], c)
            else Step(s, c) == (s, Failed(if c.clock.first == ZERO_TIME then ErrClock else ErrApprovalInvalid))
  {
    var rec, sess := s.recs[c.recId], s.sessions[c.recId];
    PendingLive(s, c.recId);
    if c.clock.first != ZERO_TIME {
      GrantMeans(rec, c);
      ApprovedRow(c.recId, rec, sess, c);
      if Signed(c) {
        LiveStep(s, c);
      } else {
        RejectedStep(s, c, ErrApprovalInvalid);
      }
    }
  }

  lemma PendingLive(s: EngineState, id: string)
    requires RowsOk(s) && StatusIs(s, id, PendingApproval)
    ensures RowOk(id, s.recs[id], s.sessions[id]) && !s.sessions[id].done
  {
  }

  // What a grant authorizes, and until when.
  lemma GrantCovers(rec: Recommendation, c: Call, other: Recommendation, now: Time)
    requires c.Approve? && Grant(rec, c.approver, c.reason, c.clock.first, c.ttl).Some?
    ensures Covers(Grant(rec, c.approver, c.reason, c.clock.first, c.ttl).value, other, now) <==>
              && other.id == rec.id && other.operation == rec.operation && other.target == rec.target
              && other.risk == rec.risk && InTime(c, now)
  {
  }

  // Now is before the end of the approval, if it has one.
  predicate InTime(c: Call, now: Time)
    requires c.Approve?
  {
    c.ttl > 0 ==> now < c.clock.first + c.ttl
  }

  // What an executor's answer makes of a recommendation; a report without detail, or with the clock at zero, leaves it
  // executing.
  function Ended(answer: ExecAnswer, finished: Time): Status {
    match answer
    case ExecutorError(_) => Executing
    case Report(success, detail) =>
      if detail == "" || finished == ZERO_TIME then Executing else if success then Executed else ExecutionFailed
  }

  lemma DispatchedRow(id: string, rec: Recommendation, sess: Session, req: ExecRequest, answer: ExecAnswer, clock: Clock)
    requires RowOk(id, rec.(status := Approved), sess.(safety := StateConfirm)) && rec.status == Executing
    requires req == RequestFor(rec.(status := Approved), sess) && clock.first != ZERO_TIME
    ensures var ch := DispatchedChange(rec, sess, req, answer, clock);
            ch.rec == rec.(status := Ended(answer, clock.second)) && ch.dispatched == Some(req)
  {
  }

  /** An execution that the approval does not hold back reaches the executor, and ends as the executor says. */
  lemma ExecuteOutcome(s: EngineState, c: Call)
    requires Invariant(s) && c.Execute? && StatusIs(s, c.recId, Approved) && c.clock.first != ZERO_TIME
    ensures var rec, sess := s.recs[c.recId], s.sessions[c.recId];
            var req := RequestFor(rec, sess);
            if sess.approval.None? || Covers(sess.approval.value, rec, c.clock.first) then
              && Step(s, c).0.calls == s.calls + [req]
              && Becomes(s, Step(s, c).0, c.recId, Ended(c.executor(req), c.clock.second))
            else Step(s, c) == (s, Failed(ErrApprovalInvalid))
  {
    var rec, sess := s.recs[c.recId], s.sessions[c.recId];
    ApprovedLive(s, c.recId);
    UnauthorizedMeans(c.recId, rec, sess, c.clock.first);
    if Unauthorized(rec, sess, c.clock.first).None? {
      LiveStep(s, c);
      var req := RequestFor(rec, sess);
      DispatchedRow(c.recId, rec.(status := Executing), sess.(safety := StateExecute), req, c.executor(req), c.clock);
    } else {
      RejectedStep(s, c, ErrApprovalInvalid);
    }
  }

  lemma ApprovedLive(s: EngineState, id: string)
    requires RowsOk(s) && StatusIs(s, id, Approved)
    ensures RowOk(id, s.recs[id], s.sessions[id])
    ensures var sess := s.sessions[id]; !sess.done && !sess.executed && sess.safety == StateConfirm
  {
  }

  lemma UnauthorizedMeans(id: string, rec: Recommendation, sess: Session, now: Time)
    requires RowOk(id, rec, sess) && rec.status == Approved
    ensures Unauthorized(rec, sess, now)
         == if sess.approval.None? || Covers(sess.approval.value, rec, now) then None else Some(ErrApprovalInvalid)
  {
  }

  // What a verifier's verdict makes of a successful execution; a failed one fails verification whatever is said.
  function Judged(success: bool, outcome: int): Status {
    if !success || outcome == 2 then VerificationFailed else if outcome == 1 then Verified else VerificationUnknown
  }

  lemma VerifiedRow(id: string, rec: Recommendation, sess: Session, c: Call)
    requires RowOk(id, rec, sess) && c.Verify? && (rec.status == Executed || rec.status == ExecutionFailed)
    requires c.clock.first != ZERO_TIME
    ensures var x := sess.execution.value;
            var verdict := c.verifier(rec, x);
            var ch := VerifyChange(rec, sess, c);
            if x.success && (verdict.detail == "" || !(1 <= verdict.outcome <= 3)) then
              ch == Rejected(rec, sess, ErrVerification)
            else ch.rec == rec.(status := Judged(x.success, verdict.outcome)) && ch.dispatched.None?
  {
  }

  /** A verification: of a failed execution it always fails, of a successful one it is what the verifier says, and refused
      when that is no verdict. */
  lemma VerifyOutcome(s: EngineState, c: Call)
    requires Invariant(s) && c.Verify? && c.clock.first != ZERO_TIME
    requires StatusIs(s, c.recId, Executed) || StatusIs(s, c.recId, ExecutionFailed)
    ensures s.sessions[c.recId].execution.Some?
    ensures var rec, x := s.recs[c.recId], s.sessions[c.recId].execution.value;
            var verdict := c.verifier(rec, x);
            if x.success && (verdict.detail == "" || !(1 <= verdict.outcome <= 3)) then
              Step(s, c) == (s, Failed(ErrVerification))
            else Becomes(s, Step(s, c).0, c.recId, Judged(x.success, verdict.outcome)) && Step(s, c).0.calls == s.calls
    ensures s.sessions[c.recId].execution.value.success <==> s.recs[c.recId].status == Executed
  {
    ExecutedLive(s, c.recId);
    var rec, sess := s.recs[c.recId], s.sessions[c.recId];
    var verdict := c.verifier(rec, sess.execution.value);
    VerifiedRow(c.recId, rec, sess, c);
    if sess.execution.value.success && (verdict.detail == "" || !(1 <= verdict.outcome <= 3)) {
      RejectedStep(s, c, ErrVerification);
    } else {
      LiveStep(s, c);
    }
  }

  lemma ExecutedLive(s: EngineState, id: string)
    requires RowsOk(s) && (StatusIs(s, id, Executed) || StatusIs(s, id, ExecutionFailed))
    ensures RowOk(id, s.recs[id], s.sessions[id]) && !s.sessions[id].done && s.sessions[id].execution.Some?
    ensures s.sessions[id].execution.value.success <==> s.recs[id].status == Executed
  {
  }

  // ---------------------------------------------------------------------------
  // From the incident to the executor
  // ---------------------------------------------------------------------------

  // Call k brings the recommendation into being.
  ghost predicate ProposedAt(cs: seq<Call>, k: nat, id: string)
    requires k < |cs|
  {
    && cs[k].Recommend? && Addressed(cs[k]) == id
    && id !in Run(cs[..k]).recs && id in Run(cs[..k + 1]).recs
  }

  lemma RunStep(cs: seq<Call>, n: nat)
    requires n < |cs|
    ensures Run(cs[..n + 1]) == Step(Run(cs[..n]), cs[n]).0
  {
    assert cs[..n + 1][..n] == cs[..n];
  }

  // A record of the proposal a call made, whatever has become of its status.
  ghost predicate RecordOf(s: EngineState, id: string, c: Call)
    requires c.Recommend?
  {
    && id in s.recs && id in s.sessions
    && Some(s.recs[id].(status := Proposed)) == Proposal(c.incident, c.alert, c.det, c.events, c.clock.second)
  }

  lemma StepKeepsRecord(s: EngineState, c: Call, id: string, origin: Call)
    requires Invariant(s) && origin.Recommend? && RecordOf(s, id, origin)
    ensures RecordOf(Step(s, c).0, id, origin)
  {
    if id != Addressed(c) {
      StepFrame(s, c, id);
    } else if ChangeIn(s, c).Some? {
      StepRecords(s, c);
    } else {
      UnchangedIsQuiet(s, c);
    }
  }

  lemma StepMakesRecord(s: EngineState, c: Call, id: string)
    requires Invariant(s) && id !in s.recs && id in Step(s, c).0.recs
    ensures c.Recommend? && Addressed(c) == id && RecordOf(Step(s, c).0, id, c)
  {
    if ChangeIn(s, c).Some? && id == Addressed(c) {
      StepRecords(s, c);
    } else if ChangeIn(s, c).Some? {
      StepFrame(s, c, id);
    } else {
      UnchangedIsQuiet(s, c);
    }
  }

  // From the call on, the record is that call's proposal.
  lemma Recorded(cs: seq<Call>, k: nat, id: string, n: nat)
    requires k < n <= |cs| && ProposedAt(cs, k, id)
    ensures RecordOf(Run(cs[..n]), id, cs[k])
  {
    FirstRecorded(cs, k, id, k + 1);
    RecordedUntil(cs, k + 1, n, id, cs[k]);
  }

  lemma {:induction false} RecordedUntil(cs: seq<Call>, m: nat, n: nat, id: string, origin: Call)
    requires m <= n <= |cs| && origin.Recommend? && RecordOf(Run(cs[..m]), id, origin)
    ensures RecordOf(Run(cs[..n]), id, origin)
    decreases n
  {
    if m < n {
      RecordedUntil(cs, m, n - 1, id, origin);
      NextKeepsRecord(cs, n, id, origin);
    }
  }

  lemma FirstRecorded(cs: seq<Call>, k: nat, id: string, n: nat)
    requires k < |cs| && n == k + 1 && ProposedAt(cs, k, id)
    ensures RecordOf(Run(cs[..n]), id, cs[k])
  {
    RunStep(cs, k);
    RunInvariant(cs[..k]);
    StepMakesRecord(Run(cs[..k]), cs[k], id);
  }

  lemma NextKeepsRecord(cs: seq<Call>, n: nat, id: string, origin: Call)
    requires 0 < n <= |cs| && origin.Recommend?
    ensures RecordOf(Run(cs[..n - 1]), id, origin) ==> RecordOf(Run(cs[..n]), id, origin)
  {
    RunStep(cs, n - 1);
    RunInvariant(cs[..n - 1]);
    if RecordOf(Run(cs[..n - 1]), id, origin) {
      StepKeepsRecord(Run(cs[..n - 1]), cs[n - 1], id, origin);
    }
  }

  // Every stored recommendation was proposed by some call.
  lemma {:induction false} Born(cs: seq<Call>, n: nat, id: string) returns (k: nat)
    requires n <= |cs| && id in Run(cs[..n]).recs
    ensures k < n && ProposedAt(cs, k, id)
    decreases n
  {
    if n > 0 {
      RunStep(cs, n - 1);
      RunInvariant(cs[..n - 1]);
      if id in Run(cs[..n - 1]).recs {
        k := Born(cs, n - 1, id);
      } else {
        StepMakesRecord(Run(cs[..n - 1]), cs[n - 1], id);
        k := n - 1;
      }
    }
  }

  // ---------------------------------------------------------------------------
  // From the approval to the executor
  // ---------------------------------------------------------------------------

  // Call j approves the recommendation.
  ghost predicate GrantedAt(cs: seq<Call>, j: nat, id: string)
    requires j < |cs|
  {
    && cs[j].Approve? && cs[j].recId == id
    && StatusIs(Run(cs[..j]), id, PendingApproval) && StatusIs(Run(cs[..j + 1]), id, Approved)
  }

  // A signed approval by that call is what the id holds.
  ghost predicate HoldsGrant(s: EngineState, id: string, c: Call)
    requires c.Approve?
  {
    && id in s.recs && id in s.sessions && s.sessions[id].approval.Some? && Signed(c)
    && GrantOf(s.sessions[id].approval.value, s.recs[id], c)
  }

  ghost predicate NotPending(s: EngineState, id: string) {
    Rank(ViewOf(s, id)) <= 3
  }

  lemma StepKeepsGrant(s: EngineState, c: Call, id: string, granter: Call)
    requires Invariant(s) && KeepsGrant(s, id, granter)
    ensures KeepsGrant(Step(s, c).0, id, granter)
  {
    StepDescends(s, c, id);
    if id != Addressed(c) {
      StepFrame(s, c, id);
    } else if ChangeIn(s, c).None? {
      UnchangedIsQuiet(s, c);
    } else {
      StepRecords(s, c);
      RowApproved(id, s.recs[id], s.sessions[id], c);
    }
  }

  lemma GrantedHolds(cs: seq<Call>, j: nat, id: string, n: nat)
    requires j < |cs| && n == j + 1 && GrantedAt(cs, j, id)
    ensures KeepsGrant(Run(cs[..n]), id, cs[j])
  {
    RunStep(cs, j);
    RunInvariant(cs[..j]);
    ApproveOutcome(Run(cs[..j]), cs[j]);
    RunInvariant(cs[..n]);
    assert RowOk(id, Run(cs[..n]).recs[id], Run(cs[..n]).sessions[id]);
  }

  lemma GrantStays(cs: seq<Call>, j: nat, id: string, n: nat)
    requires j < n <= |cs| && GrantedAt(cs, j, id)
    ensures KeepsGrant(Run(cs[..n]), id, cs[j])
  {
    GrantedHolds(cs, j, id, j + 1);
    HeldUntil(cs, j + 1, n, id, cs[j]);
  }

  lemma {:induction false} HeldUntil(cs: seq<Call>, m: nat, n: nat, id: string, granter: Call)
    requires m <= n <= |cs| && KeepsGrant(Run(cs[..m]), id, granter)
    ensures KeepsGrant(Run(cs[..n]), id, granter)
    decreases n
  {
    if m < n {
      HeldUntil(cs, m, n - 1, id, granter);
      NextKeepsGrant(cs, n, id, granter);
    }
  }

  // The grant is held for good.
  ghost predicate KeepsGrant(s: EngineState, id: string, granter: Call) {
    granter.Approve? && HoldsGrant(s, id, granter) && NotPending(s, id)
  }

  lemma NextKeepsGrant(cs: seq<Call>, n: nat, id: string, granter: Call)
    requires 0 < n <= |cs|
    ensures KeepsGrant(Run(cs[..n - 1]), id, granter) ==> KeepsGrant(Run(cs[..n]), id, granter)
  {
    RunStep(cs, n - 1);
    RunInvariant(cs[..n - 1]);
    if KeepsGrant(Run(cs[..n - 1]), id, granter) {
      StepKeepsGrant(Run(cs[..n - 1]), cs[n - 1], id, granter);
    }
  }

  // Whoever holds an approval was granted it by some call.
  lemma GrantedBySome(cs: seq<Call>, n: nat, id: string) returns (j: nat)
    requires n <= |cs| && id in Run(cs[..n]).sessions && Run(cs[..n]).sessions[id].approval.Some?
    ensures j < n && GrantedAt(cs, j, id)
  {
    var before := cs[..n];
    RunInvariant(before);
    var appr := Run(before).sessions[id].approval.value;
    Provenance(before, id);
    assert HeldApproval(Run(before), id, appr);
    j :| 0 <= j < |before| && ApprovedAt(before, j, id, appr);
    assert before[..j] == cs[..j];
    RunInvariant(cs[..j]);
    RunStep(cs, j);
    PendingLive(Run(cs[..j]), id);
    GrantMeans(Run(cs[..j]).recs[id], cs[j]);
    ApproveOutcome(Run(cs[..j]), cs[j]);
  }

  /** The approval gate: an approved recommendation that call j has approved is dispatched at any time before the end that
      call set, and refused with an invalid approval from then on, with nothing changed. */
  lemma ApprovalGate(cs: seq<Call>, j: nat, id: string, c: Call)
    requires j < |cs| && GrantedAt(cs, j, id) && StatusIs(Run(cs), id, Approved)
    requires c.Execute? && c.recId == id && c.clock.first != ZERO_TIME
    ensures var s := Run(cs);
            var (s', reply) := Step(s, c);
            if cs[j].ttl > 0 && c.clock.first >= cs[j].clock.first + cs[j].ttl then
              s' == s && reply == Failed(ErrApprovalInvalid)
            else
              && |s'.calls| == |s.calls| + 1 && s'.calls[..|s.calls|] == s.calls
              && s'.calls[|s.calls|].recommendationId == id
  {
    assert cs[..|cs|] == cs;
    GrantStays(cs, j, id, |cs|);
    RunInvariant(cs);
    ExecuteOutcome(Run(cs), c);
    ApprovedLive(Run(cs), id);
  }

  // A human approved it, between the proposal and the dispatch, in writing and for long enough.
  ghost predicate HumanAgreed(cs: seq<Call>, k: nat, i: nat, id: string)
    requires i < |cs|
  {
    exists j :: k < j < i && GrantedAt(cs, j, id) && Signed(cs[j])
                && (cs[j].ttl > 0 ==> cs[i].clock.first < cs[j].clock.first + cs[j].ttl)
  }

  // The policy allowed it, between the proposal and the dispatch.
  ghost predicate PolicyAllowed(cs: seq<Call>, k: nat, i: nat, req: ExecRequest)
    requires i < |cs|
  {
    exists d :: k < d < i && cs[d].Decide? && cs[d].recId == req.recommendationId
                && cs[d].policy(ActionRequest(cs[d].actor, req.operation, req.target, req.risk)) == Answer(0)
  }

  // What is sent is what the incident of the proposing call asked for.
  ghost predicate Carries(req: ExecRequest, id: string, c: Call)
    requires c.Recommend?
  {
    && req.recommendationId == id && Fits(c.incident.severity, req.operation, req.risk)
    && exists names :: Names(names, c.events) && req.target == Join(names, ',')
  }

  // The request a dispatching call hands to the executor.
  ghost predicate SentAt(cs: seq<Call>, i: nat, req: ExecRequest)
    requires i < |cs|
  {
    Run(cs[..i + 1]).calls == Run(cs[..i]).calls + [req]
  }

  // What is there at one moment is there at any later one.
  lemma {:induction false} StoredStays(cs: seq<Call>, m: nat, n: nat, id: string)
    requires m <= n <= |cs| && id in Run(cs[..m]).recs
    ensures id in Run(cs[..n]).recs
    decreases n
  {
    if m < n {
      StoredStays(cs, m, n - 1, id);
      RunStep(cs, n - 1);
      StepIsChange(Run(cs[..n - 1]), cs[n - 1]);
    }
  }

  // A call that finds the recommendation comes after the one that proposed it.
  lemma ProposedBefore(cs: seq<Call>, k: nat, n: nat, id: string)
    requires k < |cs| && n <= |cs| && ProposedAt(cs, k, id) && id in Run(cs[..n]).recs
    ensures k < n
  {
    if n <= k {
      StoredStays(cs, n, k, id);
    }
  }

  /** Whatever reaches the executor was proposed by an earlier call. It carries the operation and the risk that the severity
      of that call's incident asks for and the assets of its events; and in between a human has agreed in writing, for long
      enough, or, for at most medium severity only, the policy has answered allow to this very request. */
  lemma DispatchMeans(cs: seq<Call>, i: nat, id: string) returns (k: nat, req: ExecRequest)
    requires i < |cs| && DispatchedAt(cs, i, id)
    ensures k < i && ProposedAt(cs, k, id) && SentAt(cs, i, req) && Carries(req, id, cs[k])
    ensures HumanAgreed(cs, k, i, id) || (!Grave(cs[k].incident.severity) && PolicyAllowed(cs, k, i, req))
  {
    AuthorizedExecution(cs, i, id);
    var s := Run(cs[..i]);
    RunInvariant(cs[..i]);
    k := Born(cs, i, id);
    req := RequestFor(s.recs[id], s.sessions[id]);
    Recorded(cs, k, id, i);
    ProposalCarries(s.recs[id], s.sessions[id], id, cs[k]);
    if s.sessions[id].approval.Some? {
      DispatchHasHuman(cs, k, i, id);
    } else {
      DispatchHasPolicy(cs, k, i, id);
    }
  }

  lemma ProposalCarries(rec: Recommendation, sess: Session, id: string, c: Call)
    requires c.Recommend? && Addressed(c) == id
    requires Some(rec.(status := Proposed)) == Proposal(c.incident, c.alert, c.det, c.events, c.clock.second)
    ensures Carries(RequestFor(rec, sess), id, c)
  {
    ProposalMeans(c.incident, c.alert, c.det, c.events, c.clock.second);
  }

  lemma DispatchHasHuman(cs: seq<Call>, k: nat, i: nat, id: string)
    requires k < i < |cs| && ProposedAt(cs, k, id) && DispatchedAt(cs, i, id) && cs[i].Execute?
    requires id in Run(cs[..i]).sessions && Run(cs[..i]).sessions[id].approval.Some?
    ensures HumanAgreed(cs, k, i, id)
  {
    var j := GrantedBySome(cs, i, id);
    ProposedBefore(cs, k, j, id);
    GrantStays(cs, j, id, i);
    RunStep(cs, i);
    RunInvariant(cs[..i]);
    DispatchIsAuthorized(Run(cs[..i]), cs[i], id);
    HumanInTime(Run(cs[..i]), id, cs[j], cs[i]);
  }

  // A covering approval is one whose end has not come.
  lemma HumanInTime(s: EngineState, id: string, granter: Call, c: Call)
    requires RowsOk(s) && granter.Approve? && HoldsGrant(s, id, granter)
    requires s.sessions[id].approvalRequired ==> Covers(s.sessions[id].approval.value, s.recs[id], c.clock.first)
    ensures granter.ttl > 0 ==> c.clock.first < granter.clock.first + granter.ttl
  {
    assert RowOk(id, s.recs[id], s.sessions[id]);
  }

  lemma DispatchHasPolicy(cs: seq<Call>, k: nat, i: nat, id: string)
    requires k < i < |cs| && ProposedAt(cs, k, id) && DispatchedAt(cs, i, id)
    requires id in Run(cs[..i]).recs && id in Run(cs[..i]).sessions && Run(cs[..i]).sessions[id].approval.None?
    ensures !Grave(cs[k].incident.severity)
    ensures PolicyAllowed(cs, k, i, RequestFor(Run(cs[..i]).recs[id], Run(cs[..i]).sessions[id]))
  {
    var s := Run(cs[..i]);
    RunStep(cs, i);
    RunInvariant(cs[..i]);
    DispatchIsAuthorized(s, cs[i], id);
    Recorded(cs, k, id, i);
    AutomaticIsMild(s.recs[id], cs[k]);
    Provenance(cs[..i], id);
    var d :| 0 <= d < i && AllowedAt(cs[..i], d, id);
    AllowAnswered(cs, k, d, i, id);
  }

  lemma AutomaticIsMild(rec: Recommendation, c: Call)
    requires c.Recommend?
    requires Some(rec.(status := Proposed)) == Proposal(c.incident, c.alert, c.det, c.events, c.clock.second)
    requires RequiredGate(rec.operation, rec.risk, false) == GateAutomatic
    ensures !Grave(c.incident.severity)
  {
    ProposalMeans(c.incident, c.alert, c.det, c.events, c.clock.second);
  }

  lemma AllowAnswered(cs: seq<Call>, k: nat, d: nat, i: nat, id: string)
    requires k < |cs| && d < i < |cs| && ProposedAt(cs, k, id) && AllowedAt(cs[..i], d, id)
    requires RecordOf(Run(cs[..i]), id, cs[k])
    ensures PolicyAllowed(cs, k, i, RequestFor(Run(cs[..i]).recs[id], Run(cs[..i]).sessions[id]))
  {
    assert cs[..i][..d] == cs[..d];
    ProposedBefore(cs, k, d, id);
    Recorded(cs, k, id, d);
    SameRequest(Run(cs[..d]), Run(cs[..i]), id, cs[k]);
  }

  lemma SameRequest(s: EngineState, t: EngineState, id: string, c: Call)
    requires c.Recommend? && RecordOf(s, id, c) && RecordOf(t, id, c)
    ensures var rec, req := s.recs[id], RequestFor(t.recs[id], t.sessions[id]);
            req.operation == rec.operation && req.target == rec.target && req.risk == rec.risk
            && req.recommendationId == rec.id == t.recs[id].id
  {
    assert s.recs[id].(status := Proposed) == t.recs[id].(status := Proposed);
  }

  /** Whatever reaches the executor for a high or critical incident has been agreed to by a human. */
  lemma GraveNeedsHuman(cs: seq<Call>, k: nat, i: nat, id: string)
    requires k < |cs| && i < |cs| && ProposedAt(cs, k, id) && Grave(cs[k].incident.severity) && DispatchedAt(cs, i, id)
    ensures k < i && HumanAgreed(cs, k, i, id)
  {
    var k', req := DispatchMeans(cs, i, id);
    AuthorizedExecution(cs, i, id);
    ProposedBefore(cs, k, i, id);
    ProposedOnce(cs, k, k', id);
  }

  lemma ProposedOnce(cs: seq<Call>, k: nat, l: nat, id: string)
    requires k < |cs| && l < |cs| && ProposedAt(cs, k, id) && ProposedAt(cs, l, id)
    ensures k == l
  {
    ProposedBefore(cs, k, l + 1, id);
    ProposedBefore(cs, l, k + 1, id);
  }

  // ---------------------------------------------------------------------------
  // The rules behind the gates
  // ---------------------------------------------------------------------------

  // Block, isolate, delete and execute.
  const DESTRUCTIVE: set<Operation> := {7, 8, 9, 10}

  /** A human is needed exactly where the policy says so, for the four destructive operations, and for the two upper risks. */
  lemma GateMeans(op: Operation, risk: Risk, approvalRequired: bool)
    ensures RequiredGate(op, risk, approvalRequired) == GateApproved
       <==> approvalRequired || op in DESTRUCTIVE || risk == 3 || risk == 4
  {
  }

  /** The default policy fails on a nameless actor or on an unknown operation or risk, sends what is destructive or of one of
      the two upper risks to a human, and allows the rest. */
  lemma PolicyMeans(req: ActionRequest)
    ensures DefaultPolicy(req) == PolicyError
       <==> req.actor == "" || req.operation < 1 || req.operation > 10 || req.risk < 1 || req.risk > 4
    ensures DefaultPolicy(req) != PolicyError ==>
              DefaultPolicy(req) == Answer(if req.operation in DESTRUCTIVE || req.risk > 2 then 2 else 0)
  {
  }

  function Phase(s: SafetyState): nat {
    match s
    case StateObserve => 0
    case StateAnalyze => 1
    case StateRecommend => 2
    case StateConfirm => 3
    case StateExecute => 4
    case StateVerify => 5
    case StateAudit => 6
  }

  /** The safety states are passed one by one and never back, and only an approved gate leads from confirmation to
      execution. */
  lemma AdvanceMeans(s: SafetyState, gate: Gate, t: SafetyState)
    ensures Advance(s, gate) == Some(t) <==> Phase(t) == Phase(s) + 1 && (Phase(t) == 4 ==> gate == GateApproved)
  {
  }

  // ---------------------------------------------------------------------------
  // What is handed over and written down
  // ---------------------------------------------------------------------------

  // What the executor is asked to do: what was recommended, under the approval if there is one.
  ghost predicate Asks(req: ExecRequest, rec: Recommendation, approval: Option<Approval>) {
    && req.operation == rec.operation && req.target == rec.target && req.risk == rec.risk
    && req.recommendationId == rec.id && req.approvalId == (match approval case None => "" case Some(a) => a.id)
  }

  // The record of a report: what was asked, when the call began and when the executor had answered, and its answer.
  ghost predicate Tells(x: Execution, req: ExecRequest, success: bool, detail: string, clock: Clock) {
    && x.id == ExecutionId(req) && x.recommendationId == req.recommendationId && x.approvalId == req.approvalId
    && x.operation == req.operation && x.target == req.target && x.success == success && x.detail == detail
    && x.startedAt == clock.first && x.finishedAt == clock.second
  }

  // An execution is recorded exactly for a report with a detail at a running clock.
  ghost predicate Reports(x: Option<Execution>, req: ExecRequest, answer: ExecAnswer, clock: Clock) {
    match answer
    case ExecutorError(_) => x.None?
    case Report(success, detail) =>
      if detail == "" || clock.second == 0 then x.None? else x.Some? && Tells(x.value, req, success, detail, clock)
  }

  lemma DispatchedWrites(id: string, rec: Recommendation, sess: Session, c: Call)
    requires RowOk(id, rec, sess) && rec.status == Approved && c.Execute? && c.clock.first != ZERO_TIME
    requires sess.safety == StateConfirm && !sess.executed && Unauthorized(rec, sess, c.clock.first).None?
    ensures var req, ch := RequestFor(rec, sess), ExecuteChange(rec, sess, c);
            && Asks(req, rec, sess.approval) && Reports(ch.sess.execution, req, c.executor(req), c.clock)
            && (ch.entry.Some? ==> ExecutionLogged(ch.entry.value, c.executor(req), ch.sess.execution, c.clock))
  {
  }

  // The entry of an execution names the executor and its error, or the execution that was recorded.
  ghost predicate ExecutionLogged(e: AuditEntry, answer: ExecAnswer, x: Option<Execution>, clock: Clock) {
    && e.actor == "executor"
    && match answer
       case ExecutorError(message) => e.result == message && e.decidedAt == clock.second
       case Report(_, _) => x.Some? && e.result == x.value.id && e.decidedAt == clock.third
  }

  /** A dispatched execution asks for what was recommended under its approval, and its report is recorded as it was given. */
  lemma ExecutionWritten(s: EngineState, c: Call)
    requires Invariant(s) && c.Execute? && StatusIs(s, c.recId, Approved) && c.clock.first != ZERO_TIME
    requires Step(s, c).0.calls != s.calls
    ensures c.recId in Step(s, c).0.sessions
    ensures var req := Step(s, c).0.calls[|s.calls|];
            && Asks(req, s.recs[c.recId], s.sessions[c.recId].approval)
            && Reports(Step(s, c).0.sessions[c.recId].execution, req, c.executor(req), c.clock)
  {
    var rec, sess := s.recs[c.recId], s.sessions[c.recId];
    ExecuteOutcome(s, c);
    ApprovedLive(s, c.recId);
    UnauthorizedMeans(c.recId, rec, sess, c.clock.first);
    LiveStep(s, c);
    DispatchedWrites(c.recId, rec, sess, c);
  }

  // A verification of an execution: the verdict, which is failure for a failed execution, at the time of the call.
  ghost predicate Verifies(v: Verification, x: Execution, verdict: Verdict, clock: Clock) {
    && v.id == VerificationId(x.id) && v.executionId == x.id && v.verifiedAt == clock.first
    && v.outcome == (if x.success then verdict.outcome else 2)
    && (x.success ==> v.detail == verdict.detail)
  }

  lemma VerifyWrites(id: string, rec: Recommendation, sess: Session, c: Call)
    requires RowOk(id, rec, sess) && c.Verify? && (rec.status == Executed || rec.status == ExecutionFailed)
    requires c.clock.first != ZERO_TIME
    ensures var x, ch := sess.execution.value, VerifyChange(rec, sess, c);
            ch.reply.GotVerification? ==> Verifies(ch.reply.verification, x, c.verifier(rec, x), c.clock)
  {
  }

  /** The answer to a verification is the verdict on the recorded execution. */
  lemma VerificationAnswered(s: EngineState, c: Call)
    requires Invariant(s) && c.Verify? && Step(s, c).1.GotVerification?
    ensures c.recId in s.recs && c.recId in s.sessions && s.sessions[c.recId].execution.Some?
    ensures var x := s.sessions[c.recId].execution.value;
            Verifies(Step(s, c).1.verification, x, c.verifier(s.recs[c.recId], x), c.clock)
  {
    var rec, sess := s.recs[c.recId], s.sessions[c.recId];
    LiveStep(s, c);
    VerifiedLive(s, c);
    VerifyWrites(c.recId, rec, sess, c);
  }

  lemma VerifiedLive(s: EngineState, c: Call)
    requires RowsOk(s) && c.Verify? && c.recId in s.recs && c.recId in s.sessions
    requires VerifyChange(s.recs[c.recId], s.sessions[c.recId], c).reply.GotVerification?
    ensures RowOk(c.recId, s.recs[c.recId], s.sessions[c.recId]) && s.sessions[c.recId].execution.Some?
    ensures s.recs[c.recId].status == Executed || s.recs[c.recId].status == ExecutionFailed
  {
  }

  // ---------------------------------------------------------------------------
  // The trail
  // ---------------------------------------------------------------------------

  // Who did it, with what result and when, by the kind of the call; before and after are the recommendation's sessions,
  // and asked is what the call asked of the executor.
  ghost predicate Logs(e: AuditEntry, c: Call, before: Option<Session>, after: Session, asked: Option<ExecRequest>) {
    match c
    case Recommend(_, _, _, _, clock) =>
      e.actor == "blueveil-recommender/1" && e.result == e.responseId && e.decidedAt == clock.third
    case Decide(id, actor, _, clock) => e.actor == actor && e.result == id == e.responseId && e.decidedAt == clock.second
    case Approve(id, approver, _, _, clock) =>
      && e.actor == approver && e.responseId == id && e.decidedAt == clock.second
      && after.approval.Some? && e.result == after.approval.value.id
    case Execute(id, executor, clock) =>
      e.responseId == id && asked.Some? && ExecutionLogged(e, executor(asked.value), after.execution, clock)
    case Verify(id, _, clock) =>
      && e.actor == "verifier" && e.responseId == id && e.decidedAt == clock.second
      && before.Some? && before.value.execution.Some? && e.result == VerificationId(before.value.execution.value.id)
  }

  lemma ChangeLogs(id: string, rec: Recommendation, sess: Session, c: Call)
    requires RowOk(id, rec, sess) && !c.Recommend? && c.recId == id && c.clock.first != ZERO_TIME
    ensures var ch := ChangeOf(rec, sess, c);
            ch.entry.Some? ==> Logs(ch.entry.value, c, Some(sess), ch.sess, ch.dispatched)
  {
    if c.Execute? {
      ExecuteLogs(id, rec, sess, c);
    }
  }

  lemma ExecuteLogs(id: string, rec: Recommendation, sess: Session, c: Call)
    requires RowOk(id, rec, sess) && c.Execute? && c.recId == id && c.clock.first != ZERO_TIME
    ensures var ch := ExecuteChange(rec, sess, c);
            ch.entry.Some? ==> Logs(ch.entry.value, c, Some(sess), ch.sess, ch.dispatched)
  {
    if rec.status == Approved && sess.safety == StateConfirm && !sess.executed
       && Unauthorized(rec, sess, c.clock.first).None? {
      DispatchedWrites(id, rec, sess, c);
    }
  }

  ghost predicate LogsOne(s: EngineState, s': EngineState, c: Call) {
    var n := |s.audit|;
    && |s'.audit| == n + 1 && s'.audit[..n] == s.audit && s'.audit[n].number == n + 1
    && (var id := s'.audit[n].responseId;
        && id in s'.sessions
        && Logs(s'.audit[n], c, if id in s.sessions then Some(s.sessions[id]) else None, s'.sessions[id],
                if |s'.calls| > |s.calls| then Some(s'.calls[|s.calls|]) else None))
  }

  /** A call leaves the trail as it is or adds one entry, with the next number, that says who did it, with what result and
      when. */
  lemma TrailGrows(s: EngineState, c: Call)
    requires Invariant(s)
    ensures Step(s, c).0.audit == s.audit || LogsOne(s, Step(s, c).0, c)
  {
    if c.clock.first != ZERO_TIME && !c.Recommend? && Refused(s, c.recId).None? {
      LiveStep(s, c);
      assert RowOk(c.recId, s.recs[c.recId], s.sessions[c.recId]);
      ChangeLogs(c.recId, s.recs[c.recId], s.sessions[c.recId], c);
    }
  }

  // ---------------------------------------------------------------------------
  // Identities
  // ---------------------------------------------------------------------------

  lemma Preimages(prefix: string, a: string, b: string)
    requires Digest(prefix + [SEPARATOR] + a) == Digest(prefix + [SEPARATOR] + b)
    ensures a == b
  {
    var head := prefix + [SEPARATOR];
    DigestInjective(head + a, head + b);
    assert (head + a)[|head|..] == a && (head + b)[|head|..] == b;
  }

  /** Recommendations are told apart by incident and alert: each pair has its own. */
  lemma RecommendationIdInjective(incident: string, alert: string, incident': string, alert': string)
    requires SEPARATOR !in incident && SEPARATOR !in incident'
    ensures RecommendationId(incident, alert) == RecommendationId(incident', alert')
       <==> incident == incident' && alert == alert'
  {
    if RecommendationId(incident, alert) == RecommendationId(incident', alert') {
      var prefix := "blueveil-recommendation-v1";
      var x, y := incident + [SEPARATOR] + alert, incident' + [SEPARATOR] + alert';
      assert prefix + [SEPARATOR] + incident + [SEPARATOR] + alert == prefix + [SEPARATOR] + x;
      assert prefix + [SEPARATOR] + incident' + [SEPARATOR] + alert' == prefix + [SEPARATOR] + y;
      assert RecommendationId(incident, alert)[4..] == Digest(prefix + [SEPARATOR] + x);
      assert RecommendationId(incident', alert')[4..] == Digest(prefix + [SEPARATOR] + y);
      Preimages(prefix, x, y);
      SplitOnce(incident, alert, incident', alert');
    }
  }

  /** Approvals are told apart by recommendation, approver and time. */
  lemma ApprovalIdInjective(rec: string, approver: string, now: nat, rec': string, approver': string, now': nat)
    requires SEPARATOR !in rec && SEPARATOR !in rec' && SEPARATOR !in approver && SEPARATOR !in approver'
    ensures ApprovalId(rec, approver, now) == ApprovalId(rec', approver', now')
       <==> rec == rec' && approver == approver' && now == now'
  {
    if ApprovalId(rec, approver, now) == ApprovalId(rec', approver', now') {
      var prefix := "blueveil-approval-v1";
      var x, y := approver + [SEPARATOR] + Decimal(now), approver' + [SEPARATOR] + Decimal(now');
      var u, v := rec + [SEPARATOR] + x, rec' + [SEPARATOR] + y;
      assert prefix + [SEPARATOR] + rec + [SEPARATOR] + approver + [SEPARATOR] + Decimal(now) == prefix + [SEPARATOR] + u;
      assert prefix + [SEPARATOR] + rec' + [SEPARATOR] + approver' + [SEPARATOR] + Decimal(now')
          == prefix + [SEPARATOR] + v;
      assert ApprovalId(rec, approver, now)[5..] == Digest(prefix + [SEPARATOR] + u);
      assert ApprovalId(rec', approver', now')[5..] == Digest(prefix + [SEPARATOR] + v);
      Preimages(prefix, u, v);
      SplitOnce(rec, x, rec', y);
      SplitOnce(approver, Decimal(now), approver', Decimal(now'));
      DecimalInjective(now, now');
    }
  }

  /** What an execution id is the digest of, grouped from the right. */
  lemma ExecutionPreimage(x: ExecRequest)
    requires x.operation >= 0
    ensures ExecutionId(x)
         == "exec-" + Digest("blueveil-execution-v1" + [SEPARATOR] + (x.recommendationId + [SEPARATOR]
                             + (Decimal(x.operation) + [SEPARATOR] + x.target)))
  {
    assert "blueveil-execution-v1" + [SEPARATOR] + x.recommendationId + [SEPARATOR] + Decimal(x.operation)
         + [SEPARATOR] + x.target
        == "blueveil-execution-v1" + [SEPARATOR] + (x.recommendationId + [SEPARATOR]
         + (Decimal(x.operation) + [SEPARATOR] + x.target));
  }

  /** Executions are told apart by recommendation, operation and target. */
  lemma ExecutionIdInjective(x: ExecRequest, y: ExecRequest)
    requires SEPARATOR !in x.recommendationId && SEPARATOR !in y.recommendationId
    requires x.operation >= 0 && y.operation >= 0
    ensures ExecutionId(x) == ExecutionId(y)
       <==> x.recommendationId == y.recommendationId && x.operation == y.operation && x.target == y.target
  {
    if ExecutionId(x) == ExecutionId(y) {
      SameExecution(x, y);
    }
  }

  lemma SameExecution(x: ExecRequest, y: ExecRequest)
    requires SEPARATOR !in x.recommendationId && SEPARATOR !in y.recommendationId
    requires x.operation >= 0 && y.operation >= 0 && ExecutionId(x) == ExecutionId(y)
    ensures x.recommendationId == y.recommendationId && x.operation == y.operation && x.target == y.target
  {
    var prefix := "blueveil-execution-v1";
    var a, b := Decimal(x.operation) + [SEPARATOR] + x.target, Decimal(y.operation) + [SEPARATOR] + y.target;
    var u, v := x.recommendationId + [SEPARATOR] + a, y.recommendationId + [SEPARATOR] + b;
    SamePreimage(x, y, prefix, u, v);
    SplitOnce(x.recommendationId, a, y.recommendationId, b);
    DecimalDigits(x.operation);
    DecimalDigits(y.operation);
    SplitOnce(Decimal(x.operation), x.target, Decimal(y.operation), y.target);
    DecimalInjective(x.operation, y.operation);
  }

  lemma SamePreimage(x: ExecRequest, y: ExecRequest, prefix: string, u: string, v: string)
    requires x.operation >= 0 && y.operation >= 0 && ExecutionId(x) == ExecutionId(y)
    requires prefix == "blueveil-execution-v1"
    requires u == x.recommendationId + [SEPARATOR] + (Decimal(x.operation) + [SEPARATOR] + x.target)
    requires v == y.recommendationId + [SEPARATOR] + (Decimal(y.operation) + [SEPARATOR] + y.target)
    ensures u == v
  {
    var a, b := Digest(prefix + [SEPARATOR] + u), Digest(prefix + [SEPARATOR] + v);
    assert "exec-" + a == "exec-" + b by {
      ExecutionPreimage(x);
      ExecutionPreimage(y);
    }
    assert ("exec-" + a)[5..] == a && ("exec-" + b)[5..] == b;
    Preimages(prefix, u, v);
  }
}
