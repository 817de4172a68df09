/** The gated response path: safety states, policy, approvals, and the engine that walks one
    recommendation through recommend, decide, approve, execute and verify. */
module Response {
  import opened Base
  import opened Contract

  // ---------------------------------------------------------------------------
  // Safety lifecycle
  // ---------------------------------------------------------------------------

  datatype SafetyState =
    StateObserve | StateAnalyze | StateRecommend | StateConfirm | StateExecute | StateVerify | StateAudit

  datatype Gate = GateAutomatic | GateApproved

  function NextState(s: SafetyState): Option<SafetyState> {
    match s
    case StateObserve => Some(StateAnalyze)
    case StateAnalyze => Some(StateRecommend)
    case StateRecommend => Some(StateConfirm)
    case StateConfirm => Some(StateExecute)
    case StateExecute => Some(StateVerify)
    case StateVerify => Some(StateAudit)
    case StateAudit => None
  }

  // None is ErrSafetyViolation.
  function Advance(s: SafetyState, gate: Gate): Option<SafetyState> {
    if s == StateAudit then None
    else if s == StateConfirm && gate != GateApproved then None
    else NextState(s)
  }

  type Operation = int
  const OBSERVE: Operation := 2
  const ANALYZE: Operation := 3
  const RECOMMEND: Operation := 4
  const BLOCK: Operation := 7
  const ISOLATE: Operation := 8
  const DELETE: Operation := 9
  const EXECUTE: Operation := 10

  type Risk = int
  const RISK_LOW: Risk := 1
  const RISK_MEDIUM: Risk := 2
  const RISK_HIGH: Risk := 3
  const RISK_CRITICAL: Risk := 4

  predicate KnownOperation(op: Operation) {
    1 <= op <= 10
  }

  predicate KnownRisk(risk: Risk) {
    1 <= risk <= 4
  }

  predicate IsDestructive(op: Operation) {
    op == BLOCK || op == ISOLATE || op == DELETE || op == EXECUTE
  }

  function RequiredGate(op: Operation, risk: Risk, policyApprovalRequired: bool): Gate {
    if policyApprovalRequired then GateApproved
    else if op == BLOCK || op == ISOLATE || op == DELETE || op == EXECUTE then GateApproved
    else if risk == RISK_HIGH || risk == RISK_CRITICAL then GateApproved
    else GateAutomatic
  }

  // ---------------------------------------------------------------------------
  // Policy
  // ---------------------------------------------------------------------------

  datatype ActionRequest = ActionRequest(actor: string, operation: Operation, target: string, risk: Risk)

  // A policy may return any integer; only three of them are decisions.
  const ALLOW: int := 0
  const DENY: int := 1
  const REQUIRE_APPROVAL: int := 2

  datatype PolicyAnswer = PolicyError | Answer(decision: int)

  function DefaultPolicy(req: ActionRequest): PolicyAnswer {
    if req.actor == "" then PolicyError
    else if !KnownOperation(req.operation) then PolicyError
    else if !KnownRisk(req.risk) then PolicyError
    else if IsDestructive(req.operation) then Answer(REQUIRE_APPROVAL)
    else if req.risk == RISK_HIGH || req.risk == RISK_CRITICAL then Answer(REQUIRE_APPROVAL)
    else Answer(ALLOW)
  }

  function StaticPolicy(decision: int, req: ActionRequest): PolicyAnswer {
    if req.actor == "" then PolicyError
    else if !KnownOperation(req.operation) || !KnownRisk(req.risk) then PolicyError
    else Answer(decision)
  }

  // ---------------------------------------------------------------------------
  // Records
  // ---------------------------------------------------------------------------

  datatype Status =
    Proposed | PendingApproval | Approved | Denied | Executing | Executed | ExecutionFailed
    | Verified | VerificationFailed | VerificationUnknown

  datatype Recommendation = Recommendation(
    id: string, incidentId: string, operation: Operation, target: string, risk: Risk, reason: string,
    status: Status, recommendedAt: Time, recommendedBy: string, approvalRequired: bool)

  predicate ValidRecommendation(r: Recommendation) {
    && r.id != "" && r.incidentId != "" && r.target != "" && r.reason != "" && r.recommendedBy != ""
    && KnownOperation(r.operation) && KnownRisk(r.risk)
  }

  datatype Approval = Approval(
    id: string, recommendationId: string, operation: Operation, target: string, risk: Risk,
    approver: string, approvedAt: Time, expiresAt: Option<Time>, reason: string)

  predicate ValidApproval(a: Approval) {
    && a.id != "" && a.recommendationId != "" && a.target != "" && a.approver != "" && a.reason != ""
    && KnownOperation(a.operation) && KnownRisk(a.risk)
  }

  function ApprovalId(recId: string, approver: string, now: Time): string {
    "appr-" + Digest("blueveil-approval-v1" + [SEPARATOR] + recId + [SEPARATOR] + approver + [SEPARATOR] + Decimal(now))
  }

  // None is ErrApprovalInvalid.
  function Grant(rec: Recommendation, approver: string, reason: string, now: Time, ttl: int): Option<Approval> {
    if !ValidRecommendation(rec) then None
    else if approver == "" || reason == "" then None
    else if now == ZERO_TIME then None
    else if ttl < 0 then None
    else
      var appr := Approval(ApprovalId(rec.id, approver, now), rec.id, rec.operation, rec.target, rec.risk, approver,
                           now, if ttl > 0 then Some(now + ttl) else None, reason);
      if ValidApproval(appr) then Some(appr) else None
  }

  predicate Covers(approval: Approval, rec: Recommendation, now: Time) {
    && approval.recommendationId == rec.id
    && approval.operation == rec.operation
    && approval.target == rec.target
    && approval.risk == rec.risk
    && (approval.expiresAt.Some? ==> now < approval.expiresAt.value)
  }

  datatype ExecRequest = ExecRequest(
    operation: Operation, target: string, risk: Risk, recommendationId: string, approvalId: string)

  datatype ExecAnswer = ExecutorError(message: string) | Report(success: bool, detail: string)

  datatype Execution = Execution(
    id: string, recommendationId: string, approvalId: string, operation: Operation, target: string,
    startedAt: Time, finishedAt: Time, success: bool, detail: string)

  predicate ValidExecution(x: Execution) {
    x.id != "" && x.recommendationId != "" && x.target != "" && x.detail != "" && KnownOperation(x.operation)
  }

  function ExecutionId(req: ExecRequest): string {
    "exec-" + Digest("blueveil-execution-v1" + [SEPARATOR] + req.recommendationId + [SEPARATOR]
                     + Decimal(req.operation) + [SEPARATOR] + req.target)
  }

  function BuildExecution(req: ExecRequest, success: bool, detail: string, started: Time, finished: Time)
    : Option<Execution>
  {
    if req.recommendationId == "" || req.target == "" then None
    else if started == ZERO_TIME || finished == ZERO_TIME then None
    else
      var x := Execution(ExecutionId(req), req.recommendationId, req.approvalId, req.operation, req.target,
                         started, finished, success, detail);
      if ValidExecution(x) then Some(x) else None
  }

  const OUTCOME_VERIFIED: int := 1
  const OUTCOME_FAILED: int := 2
  const OUTCOME_UNKNOWN: int := 3

  datatype Verdict = Verdict(outcome: int, detail: string)

  datatype Verification = Verification(id: string, executionId: string, outcome: int, verifiedAt: Time, detail: string)

  function VerificationId(executionId: string): string {
    "verif-" + Digest("blueveil-verification-v1" + [SEPARATOR] + executionId)
  }

  function BuildVerification(x: Execution, verdict: Verdict, now: Time): Option<Verification> {
    if !ValidExecution(x) then None
    else if !(OUTCOME_VERIFIED <= verdict.outcome <= OUTCOME_UNKNOWN) then None
    else if verdict.detail == "" then None
    else if now == ZERO_TIME then None
    else Some(Verification(VerificationId(x.id), x.id, verdict.outcome, now, verdict.detail))
  }

  // ---------------------------------------------------------------------------
  // Recommender
  // ---------------------------------------------------------------------------

  const RECOMMENDER_NAME: string := "blueveil-recommender/1"

  function SeverityOperation(sev: Severity): (Operation, Risk) {
    if sev == CRITICAL then (ANALYZE, RISK_CRITICAL)
    else if sev == HIGH then (RECOMMEND, RISK_HIGH)
    else if sev == MEDIUM then (OBSERVE, RISK_MEDIUM)
    else (OBSERVE, RISK_LOW)
  }

  function RecommendationId(incidentId: string, alertId: string): string {
    "rec-" + Digest("blueveil-recommendation-v1" + [SEPARATOR] + incidentId + [SEPARATOR] + alertId)
  }

  function RecommendationReason(incidentId: string, ruleId: string): string {
    "incident " + incidentId + " rule " + ruleId
  }

  ghost function AssetsOf(events: seq<TelemetryEvent>): set<string> {
    set e | e in events :: e.assetId
  }

  // What the recommender proposes; None is ErrResponseBuild.
  ghost function Proposal(incident: Incident, alert: Alert, det: Detection, events: seq<TelemetryEvent>, now: Time)
    : Option<Recommendation>
  {
    if !ValidIncident(incident) || !ValidAlert(alert) || !ValidDetection(det) then None
    else if alert.id !in incident.alertIds then None
    else if exists e | e in events :: !ValidEvent(e) then None
    else if events == [] then None
    else if now == ZERO_TIME then None
    else
      var (op, risk) := SeverityOperation(incident.severity);
      Some(Recommendation(RecommendationId(incident.id, alert.id), incident.id, op,
                          Join(SortedKeys(AssetsOf(events)), ','), risk,
                          RecommendationReason(incident.id, det.ruleId), Proposed, now, RECOMMENDER_NAME,
                          risk == RISK_HIGH || risk == RISK_CRITICAL))
  }

  // A proposal is contract-valid: its target joins at least one non-empty asset id.
  lemma ProposalValid(incident: Incident, alert: Alert, det: Detection, events: seq<TelemetryEvent>, now: Time)
    requires Proposal(incident, alert, det, events, now).Some?
    ensures ValidRecommendation(Proposal(incident, alert, det, events, now).value)
  {
    var names := SortedKeys(AssetsOf(events));
    SortedKeysOf(AssetsOf(events));
    assert events[0].assetId in AssetsOf(events);
    assert events[0].assetId in names;
    assert names[0] in names;
    assert Join(names, ',') != "";
  }

  method CollectAssets(events: seq<TelemetryEvent>) returns (ok: bool, assets: set<string>)
    ensures ok <==> forall e | e in events :: ValidEvent(e)
    ensures ok ==> assets == AssetsOf(events)
  {
    assets := {};
    for i := 0 to |events|
      invariant forall e | e in events[..i] :: ValidEvent(e)
      invariant assets == AssetsOf(events[..i])
    {
      if !ValidEvent(events[i]) || events[i].assetId == "" {
        return false, {};
      }
      assets := assets + {events[i].assetId};
      assert events[..i + 1] == events[..i] + [events[i]];
    }
    assert events[..|events|] == events;
    return true, assets;
  }

  method Contains(ids: seq<string>, id: string) returns (found: bool)
    ensures found <==> id in ids
  {
    found := false;
    for i := 0 to |ids|
      invariant found <==> id in ids[..i]
    {
      if ids[i] == id {
        found := true;
      }
    }
  }

  method BuildProposal(incident: Incident, alert: Alert, det: Detection, events: seq<TelemetryEvent>, now: Time)
    returns (r: Option<Recommendation>)
    ensures r == Proposal(incident, alert, det, events, now)
  {
    if !ValidIncident(incident) || !ValidAlert(alert) || !ValidDetection(det) {
      return None;
    }
    var attached := Contains(incident.alertIds, alert.id);
    if !attached {
      return None;
    }
    var ok, assets := CollectAssets(events);
    if !ok {
      return None;
    }
    var names := SortKeys(assets);
    SortedKeysOf(assets);
    if |names| == 0 {
      assert events != [] ==> events[0].assetId in assets;
      return None;
    }
    if now == ZERO_TIME {
      return None;
    }
    var (op, risk) := SeverityOperation(incident.severity);
    var rec := Recommendation(RecommendationId(incident.id, alert.id), incident.id, op, Join(names, ','), risk,
                              RecommendationReason(incident.id, det.ruleId), Proposed, now, RECOMMENDER_NAME,
                              risk == RISK_HIGH || risk == RISK_CRITICAL);
    assert events != [];
    ProposalValid(incident, alert, det, events, now);
    if !ValidRecommendation(rec) {
      return None;
    }
    return Some(rec);
  }

  // ---------------------------------------------------------------------------
  // Engine state and the effect of each call
  // ---------------------------------------------------------------------------

  datatype AuditDecision =
    AuditRecommended | AuditAllowed | AuditDenied | AuditApprovalRequired | AuditApproved | AuditExecuted
    | AuditExecutionFailed | AuditExecutorError | AuditVerified | AuditVerificationFailed | AuditVerificationUnknown

  datatype AuditEntry = AuditEntry(
    number: nat, decidedAt: Time, actor: string, operation: Operation, risk: Risk, decision: AuditDecision,
    result: string, responseId: string, phase: SafetyState)

  datatype Session = Session(
    safety: SafetyState, approval: Option<Approval>, approvalRequired: bool,
    executed: bool, verified: bool, done: bool, execution: Option<Execution>)

  // calls is what reached the executor, in order.
  datatype EngineState = EngineState(
    recs: map<string, Recommendation>, sessions: map<string, Session>,
    audit: seq<AuditEntry>, calls: seq<ExecRequest>)

  datatype Failure =
    ErrClock | ErrBuild | ErrUnknown | ErrState | ErrPolicy | ErrSafety | ErrContract | ErrApprovalRequired
    | ErrApprovalInvalid | ErrExecutor | ErrExecution | ErrVerification | Panicked

  datatype Reply =
    | Failed(failure: Failure)
    | GotRecommendation(rec: Recommendation)
    | GotDenied(rec: Recommendation)
    | GotApproval(approval: Approval)
    | GotExecution(execution: Execution)
    | GotFailedExecution(execution: Execution)
    | GotVerification(verification: Verification)

  // The readings of the injected clock during one call, in the order the call takes them.
  datatype Clock = Clock(first: Time, second: Time, third: Time)

  // One call on the engine with the answers its collaborators would give during it.
  datatype Call =
    | Recommend(incident: Incident, alert: Alert, det: Detection, events: seq<TelemetryEvent>, clock: Clock)
    | Decide(recId: string, actor: string, policy: ActionRequest -> PolicyAnswer, clock: Clock)
    | Approve(recId: string, approver: string, reason: string, ttl: int, clock: Clock)
    | Execute(recId: string, executor: ExecRequest -> ExecAnswer, clock: Clock)
    | Verify(recId: string, verifier: (Recommendation, Execution) -> Verdict, clock: Clock)

  const EMPTY: EngineState := EngineState(map[], map[], [], [])

  // What one call does to the record it addresses: the new record and session, what reaches the executor, the
  // audit entry it leaves, and its reply.
  datatype Change = Change(
    rec: Recommendation, sess: Session, dispatched: Option<ExecRequest>, entry: Option<AuditEntry>, reply: Reply)

  function Rejected(rec: Recommendation, sess: Session, failure: Failure): Change {
    Change(rec, sess, None, None, Failed(failure))
  }

  // An audit entry needs a fresh clock reading; a zero reading panics and leaves no entry.
  function Audited(rec: Recommendation, sess: Session, dispatched: Option<ExecRequest>, at: Time, actor: string,
                   decision: AuditDecision, result: string, phase: SafetyState, reply: Reply): Change
  {
    if at == ZERO_TIME then Change(rec, sess, dispatched, None, Failed(Panicked))
    else
      Change(rec, sess, dispatched,
             Some(AuditEntry(0, at, actor, rec.operation, rec.risk, decision, result, rec.id, phase)), reply)
  }

  function Checked(rec: Recommendation, reply: Reply): Reply {
    if ValidRecommendation(rec) then reply else Failed(ErrContract)
  }

  function DecideChange(rec: Recommendation, sess: Session, c: Call): Change
    requires c.Decide?
  {
    if rec.status != Proposed || sess.safety != StateRecommend then Rejected(rec, sess, ErrState) else
    match c.policy(ActionRequest(c.actor, rec.operation, rec.target, rec.risk))
    case PolicyError => Rejected(rec, sess, ErrPolicy)
    case Answer(decision) => DecidedChange(rec, sess.(safety := StateConfirm), decision, c.actor, c.clock.second)
  }

  // What follows the policy's answer on a session in CONFIRM.
  function DecidedChange(rec: Recommendation, sess: Session, decision: int, actor: string, at: Time): Change {
    if decision == ALLOW && RequiredGate(rec.operation, rec.risk, false) == GateAutomatic then
      var rec' := rec.(status := Approved);
      Audited(rec', sess.(approvalRequired := false), None, at, actor, AuditAllowed, rec.id, StateConfirm,
              Checked(rec', GotRecommendation(rec')))
    else if decision == ALLOW || decision == REQUIRE_APPROVAL then
      var rec' := rec.(status := PendingApproval);
      Audited(rec', sess.(approvalRequired := true), None, at, actor, AuditApprovalRequired, rec.id, StateConfirm,
              Checked(rec', GotRecommendation(rec')))
    else if decision == DENY then
      var rec' := rec.(status := Denied);
      Audited(rec', sess.(done := true), None, at, actor, AuditDenied, rec.id, StateConfirm,
              Checked(rec', GotDenied(rec')))
    else Change(rec, sess, None, None, Checked(rec, GotRecommendation(rec)))
  }

  function ApproveChange(rec: Recommendation, sess: Session, c: Call): Change
    requires c.Approve?
  {
    if rec.status != PendingApproval || sess.safety != StateConfirm then Rejected(rec, sess, ErrState) else
    match Grant(rec, c.approver, c.reason, c.clock.first, c.ttl)
    case None => Rejected(rec, sess, ErrApprovalInvalid)
    case Some(appr) =>
      var rec', sess' := rec.(status := Approved), sess.(approval := Some(appr));
      if !ValidRecommendation(rec') then Rejected(rec', sess', ErrContract) else
      Audited(rec', sess', None, c.clock.second, c.approver, AuditApproved, appr.id, StateConfirm, GotApproval(appr))
  }

  // Why an approved recommendation may not execute now, if it may not.
  function Unauthorized(rec: Recommendation, sess: Session, now: Time): Option<Failure> {
    if RequiredGate(rec.operation, rec.risk, sess.approvalRequired) == GateAutomatic then None
    else if sess.approval.None? then Some(ErrApprovalRequired)
    else if !Covers(sess.approval.value, rec, now) then Some(ErrApprovalInvalid)
    else None
  }

  function RequestFor(rec: Recommendation, sess: Session): ExecRequest {
    ExecRequest(rec.operation, rec.target, rec.risk, rec.id,
                if RequiredGate(rec.operation, rec.risk, sess.approvalRequired) == GateApproved && sess.approval.Some?
                then sess.approval.value.id else "")
  }

  function ExecuteChange(rec: Recommendation, sess: Session, c: Call): Change
    requires c.Execute?
  {
    if rec.status != Approved || sess.safety != StateConfirm || sess.executed then Rejected(rec, sess, ErrState)
    else if Unauthorized(rec, sess, c.clock.first).Some? then
      Rejected(rec, sess, Unauthorized(rec, sess, c.clock.first).value)
    else
      var req := RequestFor(rec, sess);
      DispatchedChange(rec.(status := Executing), sess.(safety := StateExecute), req, c.executor(req), c.clock)
  }

  // What follows the executor's answer on a recommendation in EXECUTING.
  function DispatchedChange(rec: Recommendation, sess: Session, req: ExecRequest, answer: ExecAnswer, clock: Clock)
    : Change
  {
    match answer
    case ExecutorError(message) =>
      Audited(rec, sess, Some(req), clock.second, "executor", AuditExecutorError, message, StateExecute,
              Failed(ErrExecutor))
    case Report(success, detail) => ReportedChange(rec, sess, req, success, detail, clock)
  }

  // What follows an executor's report on a recommendation in EXECUTING.
  function ReportedChange(rec: Recommendation, sess: Session, req: ExecRequest, success: bool, detail: string,
                          clock: Clock): Change
  {
    if clock.second == ZERO_TIME then Change(rec, sess, Some(req), None, Failed(ErrClock)) else
    match BuildExecution(req, success, detail, clock.first, clock.second)
    case None => Change(rec, sess, Some(req), None, Failed(ErrExecution))
    case Some(x) =>
      var rec' := rec.(status := if success then Executed else ExecutionFailed);
      var sess' := sess.(execution := Some(x), executed := true, safety := StateVerify);
      Audited(rec', sess', Some(req), clock.third, "executor", if success then AuditExecuted else AuditExecutionFailed,
              x.id, StateVerify, Checked(rec', if success then GotExecution(x) else GotFailedExecution(x)))
  }

  const INTENT_FAILED: string := "execution failed"

  function Judge(rec: Recommendation, x: Execution, verifier: (Recommendation, Execution) -> Verdict): Verdict {
    if x.success then verifier(rec, x) else Verdict(OUTCOME_FAILED, INTENT_FAILED)
  }

  function VerdictStatus(outcome: int): Status {
    if outcome == OUTCOME_VERIFIED then Verified
    else if outcome == OUTCOME_FAILED then VerificationFailed
    else VerificationUnknown
  }

  function VerdictDecision(outcome: int): AuditDecision {
    if outcome == OUTCOME_VERIFIED then AuditVerified
    else if outcome == OUTCOME_FAILED then AuditVerificationFailed
    else AuditVerificationUnknown
  }

  function VerifyChange(rec: Recommendation, sess: Session, c: Call): Change
    requires c.Verify?
  {
    if !sess.executed || sess.verified || sess.safety != StateVerify then Rejected(rec, sess, ErrState) else
    if sess.execution.None? then Rejected(rec, sess, ErrVerification) else
    var verdict := Judge(rec, sess.execution.value, c.verifier);
    match BuildVerification(sess.execution.value, verdict, c.clock.first)
    case None => Rejected(rec, sess, ErrVerification)
    case Some(ver) =>
      var sess' := sess.(safety := StateAudit, verified := true, done := true);
      var rec' := rec.(status := VerdictStatus(verdict.outcome));
      Audited(rec', sess', None, c.clock.second, "verifier", VerdictDecision(verdict.outcome), ver.id, StateAudit,
              Checked(rec', GotVerification(ver)))
  }

  function ChangeOf(rec: Recommendation, sess: Session, c: Call): Change
    requires !c.Recommend?
  {
    match c
    case Decide(_, _, _, _) => DecideChange(rec, sess, c)
    case Approve(_, _, _, _, _) => ApproveChange(rec, sess, c)
    case Execute(_, _, _) => ExecuteChange(rec, sess, c)
    case Verify(_, _, _) => VerifyChange(rec, sess, c)
  }

  function Apply(s: EngineState, id: string, ch: Change): EngineState {
    EngineState(
      s.recs[id := ch.rec], s.sessions[id := ch.sess],
      if ch.entry.Some? then s.audit + [ch.entry.value.(number := |s.audit| + 1)] else s.audit,
      if ch.dispatched.Some? then s.calls + [ch.dispatched.value] else s.calls)
  }

  // What live reports about an id: why it is refused, if it is.
  function Refused(s: EngineState, recId: string): Option<Failure> {
    if recId !in s.recs || recId !in s.sessions then Some(ErrUnknown)
    else if s.sessions[recId].done then Some(ErrState)
    else None
  }

  const FRESH: Session := Session(StateRecommend, None, false, false, false, false, None)

  function NewRecord(rec: Recommendation, at: Time): Change {
    Audited(rec, FRESH, None, at, rec.recommendedBy, AuditRecommended, rec.id, StateRecommend, GotRecommendation(rec))
  }

  // The state after one call, and its reply.
  ghost function Step(s: EngineState, c: Call): (EngineState, Reply) {
    if c.clock.first == ZERO_TIME then (s, Failed(ErrClock))
    else if c.Recommend? then
      match Proposal(c.incident, c.alert, c.det, c.events, c.clock.second)
      case None => (s, Failed(ErrBuild))
      case Some(rec) =>
        if rec.id in s.recs then (s, GotRecommendation(s.recs[rec.id]))
        else (Apply(s, rec.id, NewRecord(rec, c.clock.third)), NewRecord(rec, c.clock.third).reply)
    else if Refused(s, c.recId).Some? then (s, Failed(Refused(s, c.recId).value))
    else
      var ch := ChangeOf(s.recs[c.recId], s.sessions[c.recId], c);
      (Apply(s, c.recId, ch), ch.reply)
  }
}
