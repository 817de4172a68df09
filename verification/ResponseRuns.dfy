/** What every run of the response engine keeps: the audit trail replays to the engine's state, nothing reaches
    the executor unauthorized or twice, and every recommendation makes a bounded number of moves. */
module ResponseRuns {
  import opened Base
  import opened Contract
  import opened Response

  // ---------------------------------------------------------------------------
  // The lifecycle of one recommendation, as the audit vocabulary tells it
  // ---------------------------------------------------------------------------

  // The part of an engine's state that concerns one id.
  datatype View = Absent | Present(
    status: Status, safety: SafetyState, approvalRequired: bool, executed: bool, verified: bool, done: bool)

  function Seen(rec: Recommendation, sess: Session): View {
    Present(rec.status, sess.safety, sess.approvalRequired, sess.executed, sess.verified, sess.done)
  }

  function ViewOf(s: EngineState, id: string): View {
    if id in s.recs && id in s.sessions then Seen(s.recs[id], s.sessions[id]) else Absent
  }

  const PROPOSED: View := Present(Proposed, StateRecommend, false, false, false, false)
  const STUCK: View := Present(Proposed, StateConfirm, false, false, false, false)
  const PENDING: View := Present(PendingApproval, StateConfirm, true, false, false, false)
  const DENIED: View := Present(Denied, StateConfirm, false, false, false, true)

  predicate IsReady(v: View) {
    v.Present? && v == Present(Approved, StateConfirm, v.approvalRequired, false, false, false)
  }

  predicate IsFinished(v: View, status: Status) {
    v.Present? && v == Present(status, StateVerify, v.approvalRequired, true, false, false)
  }

  // What one audited decision does to a recommendation; None where the decision cannot follow.
  function Next(v: View, d: AuditDecision): Option<View> {
    match d
    case AuditRecommended => if v == Absent then Some(PROPOSED) else None
    case AuditAllowed =>
      if v == PROPOSED then Some(Present(Approved, StateConfirm, false, false, false, false)) else None
    case AuditApprovalRequired => if v == PROPOSED then Some(PENDING) else None
    case AuditDenied => if v == PROPOSED then Some(DENIED) else None
    case AuditApproved =>
      if v == PENDING then Some(Present(Approved, StateConfirm, true, false, false, false)) else None
    case AuditExecutorError => if IsReady(v) then Some(v.(status := Executing, safety := StateExecute)) else None
    case AuditExecuted =>
      if IsReady(v) then Some(v.(status := Executed, safety := StateVerify, executed := true)) else None
    case AuditExecutionFailed =>
      if IsReady(v) then Some(v.(status := ExecutionFailed, safety := StateVerify, executed := true)) else None
    case AuditVerified => if IsFinished(v, Executed) then Some(Closed(v, Verified)) else None
    case AuditVerificationUnknown => if IsFinished(v, Executed) then Some(Closed(v, VerificationUnknown)) else None
    case AuditVerificationFailed =>
      if IsFinished(v, Executed) || IsFinished(v, ExecutionFailed) then Some(Closed(v, VerificationFailed)) else None
  }

  function Closed(v: View, status: Status): View
    requires v.Present?
  {
    v.(status := status, safety := StateAudit, verified := true, done := true)
  }

  function Replay(word: seq<AuditDecision>): Option<View> {
    if word == [] then Some(Absent)
    else
      var before := Replay(word[..|word| - 1]);
      if before.None? then None else Next(before.value, word[|word| - 1])
  }

  // The decisions the trail records about one id, in order.
  function Word(audit: seq<AuditEntry>, id: string): seq<AuditDecision> {
    if audit == [] then []
    else
      var last := audit[|audit| - 1];
      Word(audit[..|audit| - 1], id) + if last.responseId == id then [last.decision] else []
  }

  // The complete histories: recommended, then denied, or authorized and then one of five endings.
  const AUTHORIZATIONS: seq<seq<AuditDecision>> := [[AuditAllowed], [AuditApprovalRequired, AuditApproved]]
  const ENDINGS: seq<seq<AuditDecision>> := [
    [AuditExecutorError], [AuditExecuted, AuditVerified], [AuditExecuted, AuditVerificationFailed],
    [AuditExecuted, AuditVerificationUnknown], [AuditExecutionFailed, AuditVerificationFailed]]

  ghost predicate Complete(word: seq<AuditDecision>) {
    || word == [AuditRecommended, AuditDenied]
    || exists a, e :: 0 <= a < |AUTHORIZATIONS| && 0 <= e < |ENDINGS|
                      && word == [AuditRecommended] + AUTHORIZATIONS[a] + ENDINGS[e]
  }

  ghost predicate Admissible(word: seq<AuditDecision>) {
    exists full :: Complete(full) && word <= full
  }

  // ---------------------------------------------------------------------------
  // Moves
  // ---------------------------------------------------------------------------

  // What a call will do, decided from the state before it and its collaborators' answers.
  datatype Move =
    | Quiet
    | Unanswered
    | Moved(decision: AuditDecision, logged: bool)

  function DecideMove(rec: Recommendation, sess: Session, c: Call): Move
    requires c.Decide?
  {
    var answer := c.policy(ActionRequest(c.actor, rec.operation, rec.target, rec.risk));
    if rec.status != Proposed || sess.safety != StateRecommend || answer == PolicyError then Quiet
    else if !(ALLOW <= answer.decision <= REQUIRE_APPROVAL) then Unanswered
    else
      Moved(if answer.decision == DENY then AuditDenied
            else if answer.decision == ALLOW && RequiredGate(rec.operation, rec.risk, false) == GateAutomatic
            then AuditAllowed else AuditApprovalRequired,
            c.clock.second != ZERO_TIME)
  }

  function ExecuteMove(rec: Recommendation, sess: Session, c: Call): Move
    requires c.Execute?
  {
    if rec.status != Approved || sess.safety != StateConfirm || sess.executed then Quiet
    else if Unauthorized(rec, sess, c.clock.first).Some? then Quiet
    else
      var answer := c.executor(RequestFor(rec, sess));
      if answer.ExecutorError? then Moved(AuditExecutorError, c.clock.second != ZERO_TIME)
      else if c.clock.second == ZERO_TIME || answer.detail == "" then Moved(AuditExecutorError, false)
      else Moved(if answer.success then AuditExecuted else AuditExecutionFailed, c.clock.third != ZERO_TIME)
  }

  function VerifyMove(rec: Recommendation, sess: Session, c: Call): Move
    requires c.Verify?
  {
    if !sess.executed || sess.verified || sess.safety != StateVerify || sess.execution.None? then Quiet
    else
      var verdict := Judge(rec, sess.execution.value, c.verifier);
      if BuildVerification(sess.execution.value, verdict, c.clock.first).None? then Quiet
      else
        Moved(VerdictDecision(verdict.outcome), c.clock.second != ZERO_TIME)
  }

  function RowMove(rec: Recommendation, sess: Session, c: Call): Move
    requires !c.Recommend?
  {
    match c
    case Decide(_, _, _, _) => DecideMove(rec, sess, c)
    case Approve(_, approver, reason, ttl, clock) =>
      if rec.status != PendingApproval || sess.safety != StateConfirm then Quiet
      else if Grant(rec, approver, reason, clock.first, ttl).None? then Quiet
      else Moved(AuditApproved, clock.second != ZERO_TIME)
    case Execute(_, _, _) => ExecuteMove(rec, sess, c)
    case Verify(_, _, _) => VerifyMove(rec, sess, c)
  }

  // The id a call addresses: for a recommendation, the id of what it would propose.
  ghost function Addressed(c: Call): string {
    if c.Recommend? then RecommendationId(c.incident.id, c.alert.id) else c.recId
  }

  ghost function MoveOf(s: EngineState, c: Call): Move {
    if c.clock.first == ZERO_TIME then Quiet
    else if c.Recommend? then
      if Proposal(c.incident, c.alert, c.det, c.events, c.clock.second).None? || Addressed(c) in s.recs then Quiet
      else Moved(AuditRecommended, c.clock.third != ZERO_TIME)
    else if Refused(s, c.recId).Some? then Quiet
    else RowMove(s.recs[c.recId], s.sessions[c.recId], c)
  }

  predicate Dispatching(d: AuditDecision) {
    d == AuditExecutorError || d == AuditExecuted || d == AuditExecutionFailed
  }

  // ---------------------------------------------------------------------------
  // The invariant
  // ---------------------------------------------------------------------------

  predicate ReachableView(v: View) {
    v.Present? &&
    match v.status
    case Proposed => v == PROPOSED || v == STUCK
    case PendingApproval => v == PENDING
    case Approved => v == Present(Approved, StateConfirm, v.approvalRequired, false, false, false)
    case Denied => v == DENIED
    case Executing => v == Present(Executing, StateExecute, v.approvalRequired, false, false, false)
    case Executed => v == Present(Executed, StateVerify, v.approvalRequired, true, false, false)
    case ExecutionFailed => v == Present(ExecutionFailed, StateVerify, v.approvalRequired, true, false, false)
    case _ => v == Present(v.status, StateAudit, v.approvalRequired, true, true, true)
  }

  predicate Dispatched(v: View) {
    v.Present? && v.status != Proposed && v.status != PendingApproval && v.status != Approved && v.status != Denied
  }

  predicate Bound(approval: Approval, rec: Recommendation) {
    && approval.recommendationId == rec.id && approval.operation == rec.operation
    && approval.target == rec.target && approval.risk == rec.risk
  }

  // Whoever is authorized holds a bound approval, or was allowed where no human is needed.
  predicate RowOk(id: string, rec: Recommendation, sess: Session) {
    && rec.id == id && ValidRecommendation(rec) && ReachableView(Seen(rec, sess))
    && (rec.operation == OBSERVE || rec.operation == ANALYZE || rec.operation == RECOMMEND)
    && (sess.approval.Some? ==> sess.approvalRequired && Bound(sess.approval.value, rec))
    && (rec.status == PendingApproval ==> sess.approval.None?)
    && (rec.status == Approved && sess.approvalRequired ==> sess.approval.Some?)
    && (rec.status == Approved && !sess.approvalRequired ==>
          RequiredGate(rec.operation, rec.risk, false) == GateAutomatic)
    && (sess.executed <==> sess.execution.Some?)
    && (sess.execution.Some? ==> ValidExecution(sess.execution.value))
    && (rec.status == Executed ==> sess.execution.Some? && sess.execution.value.success)
    && (rec.status == ExecutionFailed ==> sess.execution.Some? && !sess.execution.value.success)
  }

  // How often an id was handed to the executor.
  function Calls(calls: seq<ExecRequest>, id: string): nat {
    if calls == [] then 0
    else Calls(calls[..|calls| - 1], id) + if calls[|calls| - 1].recommendationId == id then 1 else 0
  }

  lemma CallsAppend(calls: seq<ExecRequest>, req: ExecRequest, id: string)
    ensures Calls(calls + [req], id) == Calls(calls, id) + if req.recommendationId == id then 1 else 0
  {
    assert (calls + [req])[..|calls|] == calls;
  }

  lemma WordAppend(audit: seq<AuditEntry>, e: AuditEntry, id: string)
    ensures Word(audit + [e], id) == Word(audit, id) + if e.responseId == id then [e.decision] else []
  {
    assert (audit + [e])[..|audit|] == audit;
  }

  lemma ReplayAppend(word: seq<AuditDecision>, d: AuditDecision)
    ensures Replay(word + [d]) == if Replay(word).None? then None else Next(Replay(word).value, d)
  {
    assert (word + [d])[..|word|] == word;
  }

  ghost predicate RowsOk(s: EngineState) {
    s.recs.Keys == s.sessions.Keys && forall id :: id in s.recs ==> RowOk(id, s.recs[id], s.sessions[id])
  }

  ghost predicate CallsOk(s: EngineState) {
    forall id :: Calls(s.calls, id) == if Dispatched(ViewOf(s, id)) then 1 else 0
  }

  ghost predicate Invariant(s: EngineState) {
    && RowsOk(s) && CallsOk(s)
    && (forall i :: 0 <= i < |s.audit| ==> s.audit[i].number == i + 1)
    && (forall i :: 0 <= i < |s.calls| ==> !IsDestructive(s.calls[i].operation))
  }

  // ---------------------------------------------------------------------------
  // A call does its move, and only its move
  // ---------------------------------------------------------------------------

  // The record-level meaning of a move.
  predicate RowEffect(v: View, rec: Recommendation, sess: Session, move: Move, ch: Change) {
    match move
    case Quiet => ch.rec == rec && ch.sess == sess && ch.entry.None? && ch.dispatched.None?
    case Unanswered => v == PROPOSED && Seen(ch.rec, ch.sess) == STUCK && ch.entry.None? && ch.dispatched.None?
    case Moved(d, logged) =>
      && Next(v, d) == Some(Seen(ch.rec, ch.sess))
      && (logged <==> ch.entry.Some?)
      && (logged ==> EntryFor(ch.entry.value, ch.rec, d, Seen(ch.rec, ch.sess)))
      && (Dispatching(d) <==> ch.dispatched.Some?)
      && (Dispatching(d) ==> ch.dispatched.value == RequestFor(rec, sess))
  }

  predicate EntryFor(e: AuditEntry, rec: Recommendation, d: AuditDecision, v: View) {
    && e.responseId == rec.id && e.operation == rec.operation && e.risk == rec.risk
    && e.decision == d && v.Present? && e.phase == v.safety && e.decidedAt != ZERO_TIME
  }

  lemma DecideEffect(id: string, rec: Recommendation, sess: Session, c: Call)
    requires RowOk(id, rec, sess) && c.Decide? && c.clock.first != ZERO_TIME
    ensures RowEffect(Seen(rec, sess), rec, sess, DecideMove(rec, sess, c), DecideChange(rec, sess, c))
  {
  }

  lemma DecideKeepsRow(id: string, rec: Recommendation, sess: Session, c: Call)
    requires RowOk(id, rec, sess) && c.Decide? && c.clock.first != ZERO_TIME
    ensures RowOk(id, DecideChange(rec, sess, c).rec, DecideChange(rec, sess, c).sess)
  {
  }

  lemma ApproveEffect(id: string, rec: Recommendation, sess: Session, c: Call)
    requires RowOk(id, rec, sess) && c.Approve? && c.clock.first != ZERO_TIME
    ensures RowEffect(Seen(rec, sess), rec, sess, RowMove(rec, sess, c), ApproveChange(rec, sess, c))
    ensures RowOk(id, ApproveChange(rec, sess, c).rec, ApproveChange(rec, sess, c).sess)
  {
  }

  lemma ReportedEffect(id: string, rec: Recommendation, sess: Session, req: ExecRequest, success: bool, detail: string,
                       clock: Clock)
    requires RowOk(id, rec, sess) && rec.status == Executing && clock.first != ZERO_TIME
    requires req == ExecRequest(rec.operation, rec.target, rec.risk, rec.id, req.approvalId)
    ensures var ch := ReportedChange(rec, sess, req, success, detail, clock);
            && ch.dispatched == Some(req)
            && Seen(ch.rec, ch.sess)
               == (if clock.second == ZERO_TIME || detail == "" then Seen(rec, sess)
                   else Present(if success then Executed else ExecutionFailed, StateVerify, sess.approvalRequired,
                                true, false, false))
            && (ch.entry.Some? <==> clock.second != ZERO_TIME && detail != "" && clock.third != ZERO_TIME)
            && (ch.entry.Some? ==> EntryFor(ch.entry.value, ch.rec,
                                            if success then AuditExecuted else AuditExecutionFailed,
                                            Seen(ch.rec, ch.sess)))
  {
  }

  lemma ReportedKeepsRow(id: string, rec: Recommendation, sess: Session, req: ExecRequest, success: bool, detail: string,
                         clock: Clock)
    requires RowOk(id, rec, sess) && rec.status == Executing && clock.first != ZERO_TIME
    requires req == ExecRequest(rec.operation, rec.target, rec.risk, rec.id, req.approvalId)
    ensures var ch := ReportedChange(rec, sess, req, success, detail, clock);
            RowOk(id, ch.rec, ch.sess)
  {
  }

  lemma ExecuteEffect(id: string, rec: Recommendation, sess: Session, c: Call)
    requires RowOk(id, rec, sess) && c.Execute? && c.clock.first != ZERO_TIME
    ensures RowEffect(Seen(rec, sess), rec, sess, ExecuteMove(rec, sess, c), ExecuteChange(rec, sess, c))
  {
    if rec.status == Approved && Unauthorized(rec, sess, c.clock.first).None? {
      var answer := c.executor(RequestFor(rec, sess));
      if answer.Report? {
        ReportedEffect(id, rec.(status := Executing), sess.(safety := StateExecute), RequestFor(rec, sess),
                       answer.success, answer.detail, c.clock);
      }
    }
  }

  lemma ExecuteKeepsRow(id: string, rec: Recommendation, sess: Session, c: Call)
    requires RowOk(id, rec, sess) && c.Execute? && c.clock.first != ZERO_TIME
    ensures RowOk(id, ExecuteChange(rec, sess, c).rec, ExecuteChange(rec, sess, c).sess)
  {
    if rec.status == Approved && Unauthorized(rec, sess, c.clock.first).None? {
      var answer := c.executor(RequestFor(rec, sess));
      if answer.Report? {
        ReportedKeepsRow(id, rec.(status := Executing), sess.(safety := StateExecute), RequestFor(rec, sess),
                         answer.success, answer.detail, c.clock);
      }
    }
  }

  lemma VerifyEffect(id: string, rec: Recommendation, sess: Session, c: Call)
    requires RowOk(id, rec, sess) && c.Verify? && c.clock.first != ZERO_TIME
    ensures RowEffect(Seen(rec, sess), rec, sess, VerifyMove(rec, sess, c), VerifyChange(rec, sess, c))
  {
    if VerifyMove(rec, sess, c).Moved? {
      VerdictMoves(rec, sess, Judge(rec, sess.execution.value, c.verifier));
    }
  }

  // A verdict closes a finished execution as the vocabulary says.
  lemma VerdictMoves(rec: Recommendation, sess: Session, verdict: Verdict)
    requires ReachableView(Seen(rec, sess)) && sess.safety == StateVerify
    requires OUTCOME_VERIFIED <= verdict.outcome <= OUTCOME_UNKNOWN
    requires rec.status == ExecutionFailed ==> verdict.outcome == OUTCOME_FAILED
    ensures var rec', sess' := rec.(status := VerdictStatus(verdict.outcome)),
                               sess.(safety := StateAudit, verified := true, done := true);
            Next(Seen(rec, sess), VerdictDecision(verdict.outcome)) == Some(Seen(rec', sess'))
  {
  }

  lemma VerifyKeepsRow(id: string, rec: Recommendation, sess: Session, c: Call)
    requires RowOk(id, rec, sess) && c.Verify? && c.clock.first != ZERO_TIME
    ensures RowOk(id, VerifyChange(rec, sess, c).rec, VerifyChange(rec, sess, c).sess)
  {
  }

  lemma RowEffects(id: string, rec: Recommendation, sess: Session, c: Call)
    requires RowOk(id, rec, sess) && !c.Recommend? && c.clock.first != ZERO_TIME
    ensures RowEffect(Seen(rec, sess), rec, sess, RowMove(rec, sess, c), ChangeOf(rec, sess, c))
    ensures RowOk(id, ChangeOf(rec, sess, c).rec, ChangeOf(rec, sess, c).sess)
  {
    match c {
      case Decide(_, _, _, _) =>
        DecideEffect(id, rec, sess, c);
        DecideKeepsRow(id, rec, sess, c);
      case Approve(_, _, _, _, _) => ApproveEffect(id, rec, sess, c);
      case Execute(_, _, _) =>
        ExecuteEffect(id, rec, sess, c);
        ExecuteKeepsRow(id, rec, sess, c);
      case Verify(_, _, _) =>
        VerifyEffect(id, rec, sess, c);
        VerifyKeepsRow(id, rec, sess, c);
    }
  }

  // What is seen of one id: its view, its word in the trail, and how often it was dispatched.
  datatype Sight = Sight(view: View, word: seq<AuditDecision>, dispatched: nat)

  ghost function SightOf(s: EngineState, id: string): Sight {
    Sight(ViewOf(s, id), Word(s.audit, id), Calls(s.calls, id))
  }

  // One move of an id.
  predicate Makes(move: Move, x: Sight, x': Sight) {
    match move
    case Quiet => x' == x
    case Unanswered => x.view == PROPOSED && x' == x.(view := STUCK)
    case Moved(d, logged) =>
      && Next(x.view, d) == Some(x'.view)
      && x'.word == (if logged then x.word + [d] else x.word)
      && x'.dispatched == x.dispatched + if Dispatching(d) then 1 else 0
  }

  // Everything a call does to one id, in terms of its move.
  ghost predicate Does(s: EngineState, c: Call, s': EngineState, id: string) {
    Makes(if id == Addressed(c) then MoveOf(s, c) else Quiet, SightOf(s, id), SightOf(s', id))
  }

  lemma ApplyRows(s: EngineState, id: string, ch: Change, other: string)
    requires RowsOk(s) && RowOk(id, ch.rec, ch.sess)
    ensures RowsOk(Apply(s, id, ch))
    ensures ViewOf(Apply(s, id, ch), other) == if other == id then Seen(ch.rec, ch.sess) else ViewOf(s, other)
  {
  }

  lemma ApplyTrail(s: EngineState, id: string, ch: Change, other: string)
    requires ch.entry.Some? ==> ch.entry.value.responseId == id
    ensures Word(Apply(s, id, ch).audit, other)
         == if other == id && ch.entry.Some? then Word(s.audit, other) + [ch.entry.value.decision]
            else Word(s.audit, other)
  {
    if ch.entry.Some? {
      WordAppend(s.audit, ch.entry.value.(number := |s.audit| + 1), other);
      assert Word(s.audit, other) + [] == Word(s.audit, other);
    }
  }

  lemma ApplyCalls(s: EngineState, id: string, ch: Change, other: string)
    requires ch.dispatched.Some? ==> ch.dispatched.value.recommendationId == id
    ensures Calls(Apply(s, id, ch).calls, other)
         == Calls(s.calls, other) + if other == id && ch.dispatched.Some? then 1 else 0
  {
    if ch.dispatched.Some? {
      CallsAppend(s.calls, ch.dispatched.value, other);
    }
  }

  // The change a call makes when nothing refuses it outright.
  ghost function ChangeIn(s: EngineState, c: Call): Option<Change> {
    if c.clock.first == ZERO_TIME then None
    else if c.Recommend? then
      var built := Proposal(c.incident, c.alert, c.det, c.events, c.clock.second);
      if built.None? || Addressed(c) in s.recs then None else Some(NewRecord(built.value, c.clock.third))
    else if Refused(s, c.recId).Some? then None
    else Some(ChangeOf(s.recs[c.recId], s.sessions[c.recId], c))
  }

  lemma StepIsChange(s: EngineState, c: Call)
    ensures Step(s, c).0 == if ChangeIn(s, c).None? then s else Apply(s, Addressed(c), ChangeIn(s, c).value)
  {
  }

  lemma NewRecordFacts(s: EngineState, c: Call)
    requires c.Recommend? && ChangeIn(s, c).Some?
    ensures var ch := ChangeIn(s, c).value;
            && Step(s, c).0 == Apply(s, Addressed(c), ch)
            && RowOk(Addressed(c), ch.rec, ch.sess)
            && Seen(ch.rec, ch.sess) == PROPOSED && ch.dispatched.None?
            && MoveOf(s, c) == Moved(AuditRecommended, ch.entry.Some?)
            && (ch.entry.Some? ==> EntryFor(ch.entry.value, ch.rec, AuditRecommended, PROPOSED))
  {
    ProposalValid(c.incident, c.alert, c.det, c.events, c.clock.second);
  }

  // What a change writes down is about the id it addresses, and never destructive.
  predicate Addresses(ch: Change, id: string) {
    && (ch.entry.Some? ==> ch.entry.value.responseId == id)
    && (ch.dispatched.Some? ==> ch.dispatched.value.recommendationId == id
                                && !IsDestructive(ch.dispatched.value.operation))
  }

  lemma EffectAddresses(id: string, v: View, rec: Recommendation, sess: Session, move: Move, ch: Change)
    requires RowOk(id, rec, sess) && ch.rec.id == id && RowEffect(v, rec, sess, move, ch)
    ensures Addresses(ch, id)
  {
  }

  lemma ChangeFacts(s: EngineState, c: Call)
    requires RowsOk(s) && ChangeIn(s, c).Some?
    ensures var ch := ChangeIn(s, c).value;
            Step(s, c).0 == Apply(s, Addressed(c), ch) && RowOk(Addressed(c), ch.rec, ch.sess)
            && Addresses(ch, Addressed(c))
  {
    StepIsChange(s, c);
    if c.Recommend? {
      NewRecordFacts(s, c);
    } else {
      var rec, sess := s.recs[c.recId], s.sessions[c.recId];
      RowEffects(c.recId, rec, sess, c);
      EffectAddresses(c.recId, Seen(rec, sess), rec, sess, RowMove(rec, sess, c), ChangeOf(rec, sess, c));
    }
  }

  // What a change does to the recommendation it addresses, in terms of its move.
  predicate Meets(v: View, move: Move, v': View, ch: Change) {
    match move
    case Quiet => v' == v && ch.entry.None? && ch.dispatched.None?
    case Unanswered => v == PROPOSED && v' == STUCK && ch.entry.None? && ch.dispatched.None?
    case Moved(d, logged) =>
      && Next(v, d) == Some(v')
      && (logged <==> ch.entry.Some?) && (logged ==> ch.entry.value.decision == d)
      && (Dispatching(d) <==> ch.dispatched.Some?)
  }

  lemma ChangeMeets(s: EngineState, c: Call)
    requires RowsOk(s) && ChangeIn(s, c).Some?
    ensures var ch := ChangeIn(s, c).value;
            Meets(ViewOf(s, Addressed(c)), MoveOf(s, c), Seen(ch.rec, ch.sess), ch)
  {
    if c.Recommend? {
      NewRecordFacts(s, c);
    } else {
      RowEffects(c.recId, s.recs[c.recId], s.sessions[c.recId], c);
    }
  }

  lemma UnchangedIsQuiet(s: EngineState, c: Call)
    requires ChangeIn(s, c).None?
    ensures MoveOf(s, c) == Quiet && Step(s, c).0 == s
  {
    StepIsChange(s, c);
  }

  // The row, the trail and the dispatch count of one id after a call.
  lemma StepView(s: EngineState, c: Call, id: string)
    requires RowsOk(s)
    ensures RowsOk(Step(s, c).0)
    ensures ViewOf(Step(s, c).0, id)
         == if ChangeIn(s, c).Some? && id == Addressed(c) then Seen(ChangeIn(s, c).value.rec, ChangeIn(s, c).value.sess)
            else ViewOf(s, id)
  {
    if ChangeIn(s, c).Some? {
      ChangeFacts(s, c);
      ApplyRows(s, Addressed(c), ChangeIn(s, c).value, id);
    } else {
      UnchangedIsQuiet(s, c);
    }
  }

  lemma StepTrail(s: EngineState, c: Call, id: string)
    requires RowsOk(s)
    ensures var own := ChangeIn(s, c).Some? && id == Addressed(c) && ChangeIn(s, c).value.entry.Some?;
            Word(Step(s, c).0.audit, id)
              == if own then Word(s.audit, id) + [ChangeIn(s, c).value.entry.value.decision] else Word(s.audit, id)
  {
    if ChangeIn(s, c).Some? {
      ChangeFacts(s, c);
      ApplyTrail(s, Addressed(c), ChangeIn(s, c).value, id);
    } else {
      UnchangedIsQuiet(s, c);
    }
  }

  lemma StepDispatches(s: EngineState, c: Call, id: string)
    requires RowsOk(s)
    ensures var own := ChangeIn(s, c).Some? && id == Addressed(c) && ChangeIn(s, c).value.dispatched.Some?;
            Calls(Step(s, c).0.calls, id) == Calls(s.calls, id) + if own then 1 else 0
  {
    if ChangeIn(s, c).Some? {
      ChangeFacts(s, c);
      ApplyCalls(s, Addressed(c), ChangeIn(s, c).value, id);
    } else {
      UnchangedIsQuiet(s, c);
    }
  }

  // An id's sight under a change.
  function Under(x: Sight, v': View, ch: Change): Sight {
    Sight(v', if ch.entry.Some? then x.word + [ch.entry.value.decision] else x.word,
          x.dispatched + if ch.dispatched.Some? then 1 else 0)
  }

  lemma MeetsMakes(x: Sight, move: Move, v': View, ch: Change)
    requires Meets(x.view, move, v', ch)
    ensures Makes(move, x, Under(x, v', ch))
  {
  }

  lemma StepSight(s: EngineState, c: Call, id: string)
    requires RowsOk(s)
    ensures SightOf(Step(s, c).0, id)
         == if ChangeIn(s, c).Some? && id == Addressed(c) then
              Under(SightOf(s, id), Seen(ChangeIn(s, c).value.rec, ChangeIn(s, c).value.sess), ChangeIn(s, c).value)
            else SightOf(s, id)
  {
    StepView(s, c, id);
    StepTrail(s, c, id);
    StepDispatches(s, c, id);
  }

  // Every call, in every state a run can reach, does exactly its move to the id it addresses and nothing to others.
  lemma StepDoes(s: EngineState, c: Call, id: string)
    requires Invariant(s)
    ensures Does(s, c, Step(s, c).0, id)
  {
    StepSight(s, c, id);
    if ChangeIn(s, c).None? {
      UnchangedIsQuiet(s, c);
    } else if id == Addressed(c) {
      var ch := ChangeIn(s, c).value;
      ChangeMeets(s, c);
      MeetsMakes(SightOf(s, id), MoveOf(s, c), Seen(ch.rec, ch.sess), ch);
    }
  }

  // The recommendations and sessions of all other ids are the very same ones.
  lemma StepFrame(s: EngineState, c: Call, other: string)
    requires other != Addressed(c)
    ensures var s' := Step(s, c).0;
            && (other in s'.recs <==> other in s.recs) && (other in s.recs ==> s'.recs[other] == s.recs[other])
            && (other in s'.sessions <==> other in s.sessions)
            && (other in s.sessions ==> s'.sessions[other] == s.sessions[other])
  {
    StepIsChange(s, c);
  }

  // The decision of a move, if it makes one.
  predicate Decides(move: Move, d: AuditDecision) {
    move.Moved? && move.decision == d
  }

  // What a call does to the rest of a row: only the status of the recommendation changes, the approval is the one granted
  // now or before, and the execution the one reported now or before.
  predicate RecordsFollow(rec: Recommendation, sess: Session, c: Call, ch: Change)
    requires !c.Recommend?
  {
    var move := RowMove(rec, sess, c);
    && ch.rec == rec.(status := ch.rec.status)
    && ch.sess.approval == (if c.Approve? && Decides(move, AuditApproved)
                            then Grant(rec, c.approver, c.reason, c.clock.first, c.ttl) else sess.approval)
    && ch.sess.execution == (if c.Execute? && (Decides(move, AuditExecuted) || Decides(move, AuditExecutionFailed))
                             then ExecutionOf(rec, sess, c) else sess.execution)
  }

  // The execution record of an executor's report.
  function ExecutionOf(rec: Recommendation, sess: Session, c: Call): Option<Execution>
    requires c.Execute?
  {
    var req := RequestFor(rec, sess);
    var answer := c.executor(req);
    if answer.Report? then BuildExecution(req, answer.success, answer.detail, c.clock.first, c.clock.second) else None
  }

  lemma DecidedRecords(rec: Recommendation, sess: Session, decision: int, actor: string, at: Time)
    ensures var ch := DecidedChange(rec, sess, decision, actor, at);
            && ch.rec == rec.(status := ch.rec.status)
            && ch.sess.approval == sess.approval && ch.sess.execution == sess.execution
  {
  }

  lemma DecideRecords(rec: Recommendation, sess: Session, c: Call)
    requires c.Decide?
    ensures var ch := DecideChange(rec, sess, c);
            && ch.rec == rec.(status := ch.rec.status)
            && ch.sess.approval == sess.approval && ch.sess.execution == sess.execution
  {
    var answer := c.policy(ActionRequest(c.actor, rec.operation, rec.target, rec.risk));
    if answer.Answer? {
      DecidedRecords(rec, sess.(safety := StateConfirm), answer.decision, c.actor, c.clock.second);
    }
  }

  lemma ApproveRecords(rec: Recommendation, sess: Session, c: Call)
    requires c.Approve?
    ensures RecordsFollow(rec, sess, c, ApproveChange(rec, sess, c))
  {
  }

  lemma ReportedRecords(rec: Recommendation, sess: Session, req: ExecRequest, success: bool, detail: string, clock: Clock)
    ensures var ch := ReportedChange(rec, sess, req, success, detail, clock);
            var x := BuildExecution(req, success, detail, clock.first, clock.second);
            && ch.rec == rec.(status := ch.rec.status) && ch.sess.approval == sess.approval
            && ch.sess.execution == if clock.second == ZERO_TIME || x.None? then sess.execution else x
  {
  }

  // What can be said of an execution without its text: it is built exactly when it has a time and a text.
  lemma ExecutionBuilt(rec: Recommendation, sess: Session, success: bool, detail: string, clock: Clock)
    requires ValidRecommendation(rec) && clock.first != ZERO_TIME && clock.second != ZERO_TIME
    ensures BuildExecution(RequestFor(rec, sess), success, detail, clock.first, clock.second).None? <==> detail == ""
  {
  }

  lemma ExecuteRecords(rec: Recommendation, sess: Session, c: Call)
    requires ValidRecommendation(rec) && c.Execute? && c.clock.first != ZERO_TIME
    ensures RecordsFollow(rec, sess, c, ExecuteChange(rec, sess, c))
  {
    var req := RequestFor(rec, sess);
    var answer := c.executor(req);
    if answer.Report? {
      ReportedRecords(rec.(status := Executing), sess.(safety := StateExecute), req, answer.success, answer.detail,
                      c.clock);
      if c.clock.second != ZERO_TIME {
        ExecutionBuilt(rec, sess, answer.success, answer.detail, c.clock);
      }
    }
  }

  lemma VerifyRecords(rec: Recommendation, sess: Session, c: Call)
    requires c.Verify?
    ensures var ch := VerifyChange(rec, sess, c);
            ch.rec == rec.(status := ch.rec.status) && ch.sess.approval == sess.approval
            && ch.sess.execution == sess.execution
  {
  }

  lemma RowRecords(id: string, rec: Recommendation, sess: Session, c: Call)
    requires RowOk(id, rec, sess) && !c.Recommend? && c.clock.first != ZERO_TIME
    ensures RecordsFollow(rec, sess, c, ChangeOf(rec, sess, c))
  {
    match c {
      case Decide(_, _, _, _) => DecideRecords(rec, sess, c);
      case Approve(_, _, _, _, _) => ApproveRecords(rec, sess, c);
      case Execute(_, _, _) => ExecuteRecords(rec, sess, c);
      case Verify(_, _, _) => VerifyRecords(rec, sess, c);
    }
  }

  // The addressed row after a call, records included; a new recommendation starts as proposed, with a blank session.
  lemma StepRecords(s: EngineState, c: Call)
    requires RowsOk(s) && ChangeIn(s, c).Some?
    ensures var s', id, ch := Step(s, c).0, Addressed(c), ChangeIn(s, c).value;
            && id in s'.recs && id in s'.sessions && s'.recs[id] == ch.rec && s'.sessions[id] == ch.sess
            && (if c.Recommend? then
                  Some(ch.rec) == Proposal(c.incident, c.alert, c.det, c.events, c.clock.second) && ch.sess == FRESH
                else RecordsFollow(s.recs[id], s.sessions[id], c, ch))
  {
    StepIsChange(s, c);
    if !c.Recommend? {
      RowRecords(c.recId, s.recs[c.recId], s.sessions[c.recId], c);
    }
  }

  lemma NextDispatches(v: View, d: AuditDecision)
    requires Next(v, d).Some?
    ensures if Dispatching(d) then !Dispatched(v) && Dispatched(Next(v, d).value)
            else Dispatched(v) == Dispatched(Next(v, d).value)
  {
  }

  lemma StepKeepsCalls(s: EngineState, c: Call, id: string)
    requires Invariant(s)
    ensures Calls(Step(s, c).0.calls, id) == if Dispatched(ViewOf(Step(s, c).0, id)) then 1 else 0
  {
    StepDoes(s, c, id);
    if id == Addressed(c) && MoveOf(s, c).Moved? {
      NextDispatches(ViewOf(s, id), MoveOf(s, c).decision);
    }
  }

  lemma StepKeepsReads(s: EngineState, c: Call)
    requires RowsOk(s) && forall i :: 0 <= i < |s.calls| ==> !IsDestructive(s.calls[i].operation)
    ensures forall i :: 0 <= i < |Step(s, c).0.calls| ==> !IsDestructive(Step(s, c).0.calls[i].operation)
  {
    if ChangeIn(s, c).Some? {
      ChangeFacts(s, c);
    } else {
      UnchangedIsQuiet(s, c);
    }
  }

  lemma StepKeepsNumbers(s: EngineState, c: Call)
    requires forall i :: 0 <= i < |s.audit| ==> s.audit[i].number == i + 1
    ensures forall i :: 0 <= i < |Step(s, c).0.audit| ==> Step(s, c).0.audit[i].number == i + 1
  {
    StepIsChange(s, c);
  }

  lemma StepKeepsInvariant(s: EngineState, c: Call)
    requires Invariant(s)
    ensures Invariant(Step(s, c).0)
  {
    StepView(s, c, Addressed(c));
    StepKeepsReads(s, c);
    StepKeepsNumbers(s, c);
    forall id { StepKeepsCalls(s, c, id); }
  }

  // ---------------------------------------------------------------------------
  // Runs
  // ---------------------------------------------------------------------------

  // The state after any interleaving of calls, with any answers from the collaborators.
  ghost function Run(cs: seq<Call>): EngineState {
    if cs == [] then EMPTY else Step(Run(cs[..|cs| - 1]), cs[|cs| - 1]).0
  }

  lemma {:induction false} RunInvariant(cs: seq<Call>)
    ensures Invariant(Run(cs))
  {
    if cs != [] {
      RunInvariant(cs[..|cs| - 1]);
      StepKeepsInvariant(Run(cs[..|cs| - 1]), cs[|cs| - 1]);
    }
  }

  predicate SafeReply(reply: Reply) {
    reply != Failed(ErrSafety) && reply != Failed(ErrContract) && reply != Failed(ErrApprovalRequired)
  }

  lemma DecideReplies(id: string, rec: Recommendation, sess: Session, c: Call)
    requires RowOk(id, rec, sess) && c.Decide?
    ensures SafeReply(DecideChange(rec, sess, c).reply)
  {
  }

  lemma ExecuteReplies(id: string, rec: Recommendation, sess: Session, c: Call)
    requires RowOk(id, rec, sess) && c.Execute?
    ensures SafeReply(ExecuteChange(rec, sess, c).reply)
  {
  }

  lemma VerifyReplies(id: string, rec: Recommendation, sess: Session, c: Call)
    requires RowOk(id, rec, sess) && c.Verify?
    ensures SafeReply(VerifyChange(rec, sess, c).reply)
  {
  }

  lemma RowReplies(id: string, rec: Recommendation, sess: Session, c: Call)
    requires RowOk(id, rec, sess) && !c.Recommend?
    ensures SafeReply(ChangeOf(rec, sess, c).reply)
  {
    match c {
      case Decide(_, _, _, _) => DecideReplies(id, rec, sess, c);
      case Approve(_, _, _, _, _) =>
      case Execute(_, _, _) => ExecuteReplies(id, rec, sess, c);
      case Verify(_, _, _) => VerifyReplies(id, rec, sess, c);
    }
  }

  // No call ever answers with a broken safety walk, an invalid stored record, or a missing approval.
  lemma UnreachableFailures(cs: seq<Call>, c: Call)
    ensures SafeReply(Step(Run(cs), c).1)
  {
    RunInvariant(cs);
    var s := Run(cs);
    if c.clock.first != ZERO_TIME && !c.Recommend? && Refused(s, c.recId).None? {
      RowReplies(c.recId, s.recs[c.recId], s.sessions[c.recId], c);
    }
  }

  // ---------------------------------------------------------------------------
  // Progress is bounded
  // ---------------------------------------------------------------------------

  // How many moves a recommendation can still make.
  function Rank(v: View): nat {
    match v
    case Absent => 6
    case Present(status, safety, _, _, _, _) =>
      match status
      case Proposed => if safety == StateRecommend then 5 else 0
      case PendingApproval => 4
      case Approved => 3
      case Executed => 2
      case ExecutionFailed => 2
      case _ => 0
  }

  lemma NextDescends(v: View, d: AuditDecision)
    requires Next(v, d).Some?
    ensures Rank(Next(v, d).value) < Rank(v)
  {
  }

  // Every accepted call that changes a recommendation lowers its rank; all others leave it exactly as it was.
  lemma StepDescends(s: EngineState, c: Call, id: string)
    requires Invariant(s)
    ensures var v, v' := ViewOf(s, id), ViewOf(Step(s, c).0, id);
            v' == v || (id == Addressed(c) && Rank(v') < Rank(v))
  {
    StepDoes(s, c, id);
    if id == Addressed(c) && MoveOf(s, c).Moved? {
      NextDescends(ViewOf(s, id), MoveOf(s, c).decision);
    }
  }

  ghost function Changes(cs: seq<Call>, id: string): nat {
    if cs == [] then 0
    else
      Changes(cs[..|cs| - 1], id)
      + if ViewOf(Run(cs), id) != ViewOf(Run(cs[..|cs| - 1]), id) then 1 else 0
  }

  // However long a run is, each recommendation changes at most six times in it.
  lemma {:induction false} BoundedLife(cs: seq<Call>, id: string)
    ensures Changes(cs, id) + Rank(ViewOf(Run(cs), id)) <= 6
  {
    if cs != [] {
      BoundedLife(cs[..|cs| - 1], id);
      RunInvariant(cs[..|cs| - 1]);
      StepDescends(Run(cs[..|cs| - 1]), cs[|cs| - 1], id);
    }
  }

  // ---------------------------------------------------------------------------
  // The audit trail replays to the state
  // ---------------------------------------------------------------------------

  ghost predicate AuditAgrees(s: EngineState, id: string) {
    Replay(Word(s.audit, id)) == Some(ViewOf(s, id))
  }

  predicate ThreeValued(answer: PolicyAnswer) {
    answer.Answer? && ALLOW <= answer.decision <= REQUIRE_APPROVAL
  }

  // What keeps an effective call from leaving its audit entry: the clock reads zero when the entry is stamped, the
  // policy answers none of its three decisions, or the executor reports without detail.
  ghost predicate Unrecorded(s: EngineState, c: Call)
    requires !c.Recommend? ==> c.recId in s.recs && c.recId in s.sessions
  {
    match c
    case Recommend(_, _, _, _, clock) => clock.third == ZERO_TIME
    case Decide(id, actor, policy, clock) =>
      var rec := s.recs[id];
      !ThreeValued(policy(ActionRequest(actor, rec.operation, rec.target, rec.risk))) || clock.second == ZERO_TIME
    case Approve(_, _, _, _, clock) => clock.second == ZERO_TIME
    case Execute(id, executor, clock) =>
      var answer := executor(RequestFor(s.recs[id], s.sessions[id]));
      clock.second == ZERO_TIME || (answer.Report? && (answer.detail == "" || clock.third == ZERO_TIME))
    case Verify(_, _, clock) => clock.second == ZERO_TIME
  }

  // A call strands an id when it takes effect on it and leaves no audit entry.
  ghost predicate Strands(s: EngineState, c: Call, id: string) {
    Addressed(c) == id && MoveOf(s, c) != Quiet && Unrecorded(s, c)
  }

  lemma StrandsMove(s: EngineState, c: Call, id: string)
    ensures Strands(s, c, id) <==>
              Addressed(c) == id && (MoveOf(s, c).Unanswered? || (MoveOf(s, c).Moved? && !MoveOf(s, c).logged))
  {
  }

  // A trail lags a view when it tells something impossible, or an earlier view.
  ghost predicate Lags(word: seq<AuditDecision>, v: View) {
    var told := Replay(word);
    told.None? || Rank(told.value) > Rank(v)
  }

  lemma SourcesShareRank(v: View, w: View, d: AuditDecision)
    requires Next(v, d).Some? && Next(w, d).Some?
    ensures Rank(v) == Rank(w)
  {
  }

  lemma MoveReplay(word: seq<AuditDecision>, v: View, d: AuditDecision, logged: bool)
    requires Next(v, d).Some?
    ensures var word' := if logged then word + [d] else word;
            && (Replay(word) == Some(v) && logged ==> Replay(word') == Next(v, d))
            && (Replay(word) == Some(v) && !logged ==> Lags(word', Next(v, d).value))
            && (Lags(word, v) ==> Lags(word', Next(v, d).value))
  {
    NextDescends(v, d);
    if logged {
      ReplayAppend(word, d);
      if Replay(word).Some? && Next(Replay(word).value, d).Some? {
        SourcesShareRank(Replay(word).value, v, d);
      }
    }
  }

  lemma StepReplay(s: EngineState, c: Call, id: string)
    requires Invariant(s)
    ensures var s' := Step(s, c).0;
            && (AuditAgrees(s, id) && !Strands(s, c, id) ==> AuditAgrees(s', id))
            && (AuditAgrees(s, id) && Strands(s, c, id) ==> Lags(Word(s'.audit, id), ViewOf(s', id)))
            && (Lags(Word(s.audit, id), ViewOf(s, id)) ==> Lags(Word(s'.audit, id), ViewOf(s', id)))
  {
    StepDoes(s, c, id);
    StrandsMove(s, c, id);
    if id == Addressed(c) && MoveOf(s, c).Moved? {
      MoveReplay(Word(s.audit, id), ViewOf(s, id), MoveOf(s, c).decision, MoveOf(s, c).logged);
    }
  }

  // No call of the run strands the id.
  ghost predicate Unstranded(cs: seq<Call>, id: string) {
    cs == [] || (Unstranded(cs[..|cs| - 1], id) && !Strands(Run(cs[..|cs| - 1]), cs[|cs| - 1], id))
  }

  // In every run, the trail of an id replays to exactly its state if and only if no call has stranded the id.
  lemma {:induction false} AuditReplay(cs: seq<Call>, id: string)
    ensures AuditAgrees(Run(cs), id) <==> Unstranded(cs, id)
    ensures AuditAgrees(Run(cs), id) || Lags(Word(Run(cs).audit, id), ViewOf(Run(cs), id))
  {
    if cs != [] {
      var before := cs[..|cs| - 1];
      AuditReplay(before, id);
      RunInvariant(before);
      StepReplay(Run(before), cs[|cs| - 1], id);
    }
  }

  // One stranding call makes the trail disagree for good.
  lemma StrandedDisagrees(cs: seq<Call>, c: Call, id: string)
    requires Strands(Run(cs), c, id)
    ensures !AuditAgrees(Run(cs + [c]), id)
  {
    assert (cs + [c])[..|cs|] == cs;
    AuditReplay(cs + [c], id);
  }

  // The one or two words that lead to a view.
  ghost predicate Spells(v: View, word: seq<AuditDecision>) {
    match v
    case Absent => word == []
    case Present(status, _, required, _, _, _) =>
      match status
      case Proposed => word == [AuditRecommended]
      case PendingApproval => word == [AuditRecommended, AuditApprovalRequired]
      case Denied => word == [AuditRecommended, AuditDenied]
      case Approved => word == Authorization(required)
      case Executing => word == Authorization(required) + [AuditExecutorError]
      case Executed => word == Authorization(required) + [AuditExecuted]
      case ExecutionFailed => word == Authorization(required) + [AuditExecutionFailed]
      case Verified => word == Authorization(required) + [AuditExecuted, AuditVerified]
      case VerificationUnknown => word == Authorization(required) + [AuditExecuted, AuditVerificationUnknown]
      case VerificationFailed =>
        || word == Authorization(required) + [AuditExecuted, AuditVerificationFailed]
        || word == Authorization(required) + [AuditExecutionFailed, AuditVerificationFailed]
  }

  function Authorization(required: bool): seq<AuditDecision> {
    if required then [AuditRecommended, AuditApprovalRequired, AuditApproved] else [AuditRecommended, AuditAllowed]
  }

  // One more decision spells one more letter: before the execution, at the execution, and after it.
  lemma SpellsAuthorization(v: View, word: seq<AuditDecision>, d: AuditDecision)
    requires Spells(v, word) && Next(v, d).Some? && (v == Absent || v.status in {Proposed, PendingApproval})
    ensures Spells(Next(v, d).value, word + [d])
  {
  }

  lemma SpellsExecution(v: View, word: seq<AuditDecision>, d: AuditDecision)
    requires Spells(v, word) && Next(v, d).Some? && v.Present? && v.status == Approved
    ensures Spells(Next(v, d).value, word + [d])
  {
  }

  lemma SpellsVerification(v: View, word: seq<AuditDecision>, d: AuditDecision)
    requires Spells(v, word) && Next(v, d).Some? && v.Present? && v.status in {Executed, ExecutionFailed}
    ensures Spells(Next(v, d).value, word + [d])
  {
    var auth := Authorization(v.approvalRequired);
    assert auth + [AuditExecuted] + [d] == auth + [AuditExecuted, d];
    assert auth + [AuditExecutionFailed] + [d] == auth + [AuditExecutionFailed, d];
  }

  lemma NextReachable(v: View, d: AuditDecision)
    requires (v == Absent || ReachableView(v)) && Next(v, d).Some?
    ensures ReachableView(Next(v, d).value)
    ensures v == Absent || v.status in {Proposed, PendingApproval, Approved, Executed, ExecutionFailed}
  {
  }

  lemma {:induction false} ReplaySpells(word: seq<AuditDecision>)
    requires Replay(word).Some?
    ensures Spells(Replay(word).value, word)
    ensures Replay(word).value == Absent || ReachableView(Replay(word).value)
  {
    if word != [] {
      var n := |word| - 1;
      ReplaySpells(word[..n]);
      assert word == word[..n] + [word[n]];
      var v := Replay(word[..n]).value;
      NextReachable(v, word[n]);
      if v == Absent || v.status in {Proposed, PendingApproval} {
        SpellsAuthorization(v, word[..n], word[n]);
      } else if v.status == Approved {
        SpellsExecution(v, word[..n], word[n]);
      } else {
        SpellsVerification(v, word[..n], word[n]);
      }
    }
  }

  // A word that is continued by an authorization and an ending is admissible.
  lemma ContinuedIsAdmissible(word: seq<AuditDecision>, required: bool, e: nat)
    requires e < |ENDINGS| && word <= Authorization(required) + ENDINGS[e]
    ensures Admissible(word)
  {
    var a := if required then 1 else 0;
    var full := [AuditRecommended] + AUTHORIZATIONS[a] + ENDINGS[e];
    assert full == Authorization(required) + ENDINGS[e];
    assert Complete(full);
  }

  // The ending a spelled word belongs to.
  function EndingOf(v: View, word: seq<AuditDecision>): nat {
    if v == Absent then 1
    else
      match v.status
      case Executing => 0
      case VerificationFailed => if |word| >= 2 && word[|word| - 2] == AuditExecuted then 2 else 4
      case VerificationUnknown => 3
      case ExecutionFailed => 4
      case _ => 1
  }

  lemma SpelledIsAdmissible(v: View, word: seq<AuditDecision>)
    requires Spells(v, word)
    ensures Admissible(word)
  {
    if v.Present? && v.status == Denied {
      assert Complete(word) && word <= word;
    } else {
      var required := v.Present? && (v.approvalRequired || v.status == PendingApproval);
      ContinuedIsAdmissible(word, required, EndingOf(v, word));
    }
  }

  lemma {:induction false} ReplayOfPrefix(word: seq<AuditDecision>, n: nat)
    requires Replay(word).Some? && n <= |word|
    ensures Replay(word[..n]).Some?
  {
    if n < |word| {
      ReplayOfPrefix(word[..|word| - 1], n);
      assert word[..|word| - 1][..n] == word[..n];
    } else {
      assert word[..n] == word;
    }
  }

  lemma CompleteReplays(word: seq<AuditDecision>)
    requires Complete(word)
    ensures Replay(word).Some?
  {
    if word == [AuditRecommended, AuditDenied] {
      ReplayAppend([], AuditRecommended);
      ReplayAppend([AuditRecommended], AuditDenied);
      assert [AuditRecommended, AuditDenied] == [AuditRecommended] + [AuditDenied];
    } else {
      var a, e :| 0 <= a < |AUTHORIZATIONS| && 0 <= e < |ENDINGS|
                  && word == [AuditRecommended] + AUTHORIZATIONS[a] + ENDINGS[e];
      assert Authorization(a == 1) == [AuditRecommended] + AUTHORIZATIONS[a];
      AuthorizationReplays(a == 1);
      EndingReplays(Authorization(a == 1), ENDINGS[e], a == 1);
    }
  }

  lemma AuthorizationReplays(required: bool)
    ensures Replay(Authorization(required))
         == Some(Present(Approved, StateConfirm, required, false, false, false))
  {
    ReplayAppend([], AuditRecommended);
    if required {
      ReplayAppend([AuditRecommended], AuditApprovalRequired);
      ReplayAppend([AuditRecommended, AuditApprovalRequired], AuditApproved);
      assert [AuditRecommended] + [AuditApprovalRequired] == [AuditRecommended, AuditApprovalRequired];
      assert Authorization(true) == [AuditRecommended, AuditApprovalRequired] + [AuditApproved];
    } else {
      ReplayAppend([AuditRecommended], AuditAllowed);
      assert Authorization(false) == [AuditRecommended] + [AuditAllowed];
    }
  }

  lemma EndingReplays(start: seq<AuditDecision>, ending: seq<AuditDecision>, required: bool)
    requires Replay(start) == Some(Present(Approved, StateConfirm, required, false, false, false))
    requires ending in ENDINGS
    ensures Replay(start + ending).Some?
  {
    ReplayAppend(start, ending[0]);
    if |ending| == 1 {
      assert start + ending == start + [ending[0]];
    } else {
      ReplayAppend(start + [ending[0]], ending[1]);
      assert start + ending == start + [ending[0]] + [ending[1]];
    }
  }

  // The lifecycle automaton accepts exactly the prefixes of the complete histories.
  lemma ReplayIsLanguage(word: seq<AuditDecision>)
    ensures Replay(word).Some? <==> Admissible(word)
  {
    if Replay(word).Some? {
      ReplaySpells(word);
      SpelledIsAdmissible(Replay(word).value, word);
    }
    if Admissible(word) {
      var full :| Complete(full) && word <= full;
      CompleteReplays(full);
      ReplayOfPrefix(full, |word|);
      assert full[..|word|] == word;
    }
  }

  // A caller who supplies a running clock, a three-valued policy and an explaining executor never strands anything.
  ghost predicate Honest(c: Call) {
    && c.clock.first != ZERO_TIME && c.clock.second != ZERO_TIME && c.clock.third != ZERO_TIME
    && (c.Decide? ==> forall req :: c.policy(req).Answer? ==> ALLOW <= c.policy(req).decision <= REQUIRE_APPROVAL)
    && (c.Execute? ==> forall req :: c.executor(req).Report? ==> c.executor(req).detail != "")
  }

  lemma HonestNeverStrands(s: EngineState, c: Call, id: string)
    requires Honest(c)
    ensures !Strands(s, c, id)
  {
    StrandsMove(s, c, id);
  }

  lemma {:induction false} HonestUnstranded(cs: seq<Call>, id: string)
    requires forall c :: c in cs ==> Honest(c)
    ensures Unstranded(cs, id)
  {
    if cs != [] {
      HonestUnstranded(cs[..|cs| - 1], id);
      HonestNeverStrands(Run(cs[..|cs| - 1]), cs[|cs| - 1], id);
    }
  }

  lemma HonestRunsReplay(cs: seq<Call>, id: string)
    requires forall c :: c in cs ==> Honest(c)
    ensures AuditAgrees(Run(cs), id)
    ensures Admissible(Word(Run(cs).audit, id))
  {
    HonestUnstranded(cs, id);
    AuditReplay(cs, id);
    ReplayIsLanguage(Word(Run(cs).audit, id));
  }

  // ---------------------------------------------------------------------------
  // Authorized, and at most once
  // ---------------------------------------------------------------------------

  ghost predicate DispatchedAt(cs: seq<Call>, i: nat, id: string)
    requires i < |cs|
  {
    Calls(Run(cs[..i + 1]).calls, id) > Calls(Run(cs[..i]).calls, id)
  }

  // The call takes effect as an allow: the policy, consulted for id, answers allow, and its operation and risk need no
  // human.
  ghost predicate Allows(s: EngineState, c: Call, id: string) {
    && c.Decide? && c.recId == id && id in s.recs
    && MoveOf(s, c).Moved? && MoveOf(s, c).decision == AuditAllowed
    && (var rec := s.recs[id];
        && c.policy(ActionRequest(c.actor, rec.operation, rec.target, rec.risk)) == Answer(ALLOW)
        && RequiredGate(rec.operation, rec.risk, false) == GateAutomatic)
  }

  // The call is a human granting appr for id.
  ghost predicate Approves(s: EngineState, c: Call, id: string, appr: Approval) {
    && c.Approve? && c.recId == id && id in s.recs && s.recs[id].status == PendingApproval
    && Grant(s.recs[id], c.approver, c.reason, c.clock.first, c.ttl) == Some(appr)
  }

  ghost predicate AllowedAt(cs: seq<Call>, j: nat, id: string)
    requires j < |cs|
  {
    Allows(Run(cs[..j]), cs[j], id)
  }

  ghost predicate ApprovedAt(cs: seq<Call>, j: nat, id: string, appr: Approval)
    requires j < |cs|
  {
    Approves(Run(cs[..j]), cs[j], id, appr)
  }

  ghost predicate AllowedBefore(cs: seq<Call>, id: string) {
    exists j :: 0 <= j < |cs| && AllowedAt(cs, j, id)
  }

  ghost predicate ApprovedBefore(cs: seq<Call>, id: string, appr: Approval) {
    exists j :: 0 <= j < |cs| && ApprovedAt(cs, j, id, appr)
  }

  lemma PrefixKeepsHistory(cs: seq<Call>, n: nat, id: string)
    requires n <= |cs|
    ensures AllowedBefore(cs[..n], id) ==> AllowedBefore(cs, id)
    ensures forall appr :: ApprovedBefore(cs[..n], id, appr) ==> ApprovedBefore(cs, id, appr)
  {
    if AllowedBefore(cs[..n], id) {
      var j :| 0 <= j < n && AllowedAt(cs[..n], j, id);
      assert cs[..n][..j] == cs[..j] && AllowedAt(cs, j, id);
    }
    forall appr | ApprovedBefore(cs[..n], id, appr) ensures ApprovedBefore(cs, id, appr) {
      var j :| 0 <= j < n && ApprovedAt(cs[..n], j, id, appr);
      assert cs[..n][..j] == cs[..j] && ApprovedAt(cs, j, id, appr);
    }
  }

  // How an allow gets into a session.
  lemma RowAllowed(id: string, rec: Recommendation, sess: Session, c: Call)
    requires RowOk(id, rec, sess) && !c.Recommend?
    ensures var ch := ChangeOf(rec, sess, c);
            && (ch.rec.status == Approved && !ch.sess.approvalRequired && rec.status != Approved ==>
                  && c.Decide? && RequiredGate(rec.operation, rec.risk, false) == GateAutomatic
                  && c.policy(ActionRequest(c.actor, rec.operation, rec.target, rec.risk)) == Answer(ALLOW)
                  && RowMove(rec, sess, c).Moved? && RowMove(rec, sess, c).decision == AuditAllowed)
            && (rec.status == Approved && ch.rec.status == Approved ==>
                  ch.sess.approvalRequired == sess.approvalRequired)
  {
  }

  // How an approval gets into a session.
  lemma RowApproved(id: string, rec: Recommendation, sess: Session, c: Call)
    requires RowOk(id, rec, sess) && !c.Recommend?
    ensures ChangeOf(rec, sess, c).sess.approval != sess.approval ==>
              && c.Approve? && rec.status == PendingApproval
              && Grant(rec, c.approver, c.reason, c.clock.first, c.ttl) == ChangeOf(rec, sess, c).sess.approval
  {
  }

  ghost predicate HeldAllowed(s: EngineState, id: string) {
    id in s.recs && id in s.sessions && s.recs[id].status == Approved && !s.sessions[id].approvalRequired
  }

  ghost predicate HeldApproval(s: EngineState, id: string, appr: Approval) {
    id in s.recs && id in s.sessions && s.sessions[id].approval == Some(appr)
  }

  // Where the authorization an id holds after a call comes from: the call, or the state before it.
  lemma StepAllows(s: EngineState, c: Call, id: string)
    requires RowsOk(s) && HeldAllowed(Step(s, c).0, id)
    ensures Allows(s, c, id) || HeldAllowed(s, id)
  {
    StepIsChange(s, c);
    if ChangeIn(s, c).Some? && id == Addressed(c) && !c.Recommend? {
      RowAllowed(id, s.recs[id], s.sessions[id], c);
    }
  }

  lemma StepApproves(s: EngineState, c: Call, id: string, appr: Approval)
    requires RowsOk(s) && HeldApproval(Step(s, c).0, id, appr)
    ensures Approves(s, c, id, appr) || HeldApproval(s, id, appr)
  {
    StepIsChange(s, c);
    if ChangeIn(s, c).Some? && id == Addressed(c) && !c.Recommend? {
      RowApproved(id, s.recs[id], s.sessions[id], c);
    }
  }

  // An approved recommendation was either allowed where no human is needed, or holds an approval granted earlier.
  lemma {:induction false} Provenance(cs: seq<Call>, id: string)
    ensures HeldAllowed(Run(cs), id) ==> AllowedBefore(cs, id)
    ensures forall appr :: HeldApproval(Run(cs), id, appr) ==> ApprovedBefore(cs, id, appr)
  {
    if cs != [] {
      var n := |cs| - 1;
      var s, c := Run(cs[..n]), cs[n];
      PrefixKeepsHistory(cs, n, id);
      RunInvariant(cs[..n]);
      Provenance(cs[..n], id);
      if HeldAllowed(Run(cs), id) {
        StepAllows(s, c, id);
        assert Allows(s, c, id) ==> AllowedAt(cs, n, id);
      }
      forall appr | HeldApproval(Run(cs), id, appr) ensures ApprovedBefore(cs, id, appr) {
        StepApproves(s, c, id, appr);
        assert Approves(s, c, id, appr) ==> ApprovedAt(cs, n, id, appr);
      }
    }
  }

  // Whatever reaches the executor is the recommendation as proposed, and was authorized: allowed by policy where no
  // human is needed, or covered at that very call by an approval granted earlier in the run.
  lemma AuthorizedExecution(cs: seq<Call>, i: nat, id: string)
    requires i < |cs| && DispatchedAt(cs, i, id)
    ensures cs[i].Execute? && cs[i].recId == id
    ensures id in Run(cs[..i]).recs && id in Run(cs[..i]).sessions
    ensures var rec, sess := Run(cs[..i]).recs[id], Run(cs[..i]).sessions[id];
            && Run(cs[..i + 1]).calls == Run(cs[..i]).calls + [RequestFor(rec, sess)]
            && (|| (AllowedBefore(cs[..i], id) && RequiredGate(rec.operation, rec.risk, false) == GateAutomatic
                    && RequestFor(rec, sess).approvalId == "")
                || exists appr :: ApprovedBefore(cs[..i], id, appr) && Covers(appr, rec, cs[i].clock.first)
                                  && RequestFor(rec, sess).approvalId == appr.id)
  {
    var s, c := Run(cs[..i]), cs[i];
    assert cs[..i + 1][..i] == cs[..i];
    RunInvariant(cs[..i]);
    DispatchIsAuthorized(s, c, id);
    Provenance(cs[..i], id);
    var sess := s.sessions[id];
    if sess.approvalRequired {
      assert HeldApproval(s, id, sess.approval.value);
    } else {
      assert HeldAllowed(s, id);
    }
  }

  // A call that reaches the executor, on the session it finds.
  lemma DispatchIsAuthorized(s: EngineState, c: Call, id: string)
    requires Invariant(s) && Calls(Step(s, c).0.calls, id) > Calls(s.calls, id)
    ensures c.Execute? && c.recId == id && id in s.recs && id in s.sessions
    ensures var rec, sess := s.recs[id], s.sessions[id];
            && Step(s, c).0.calls == s.calls + [RequestFor(rec, sess)]
            && rec.status == Approved && (sess.approvalRequired ==> sess.approval.Some?)
            && (if sess.approvalRequired then
                  Covers(sess.approval.value, rec, c.clock.first)
                  && RequestFor(rec, sess).approvalId == sess.approval.value.id
                else
                  RequiredGate(rec.operation, rec.risk, false) == GateAutomatic
                  && RequestFor(rec, sess).approvalId == "")
  {
    StepDoes(s, c, id);
    DispatchingCalls(s, c);
    RowEffects(id, s.recs[id], s.sessions[id], c);
  }

  // Only an Execute call makes a move that reaches the executor.
  lemma DispatchingCalls(s: EngineState, c: Call)
    requires MoveOf(s, c).Moved? && Dispatching(MoveOf(s, c).decision)
    ensures c.Execute?
  {
  }

  // In every run each recommendation reaches the executor at most once, errors included, and only read-only
  // operations do.
  lemma ExecutedAtMostOnce(cs: seq<Call>, id: string)
    ensures Calls(Run(cs).calls, id) <= 1
    ensures forall req :: req in Run(cs).calls ==> !IsDestructive(req.operation)
  {
    RunInvariant(cs);
  }

  // A denied recommendation stays denied, and neither has reached nor will reach the executor.
  lemma {:induction false} DeniedNeverExecutes(cs: seq<Call>, n: nat, id: string)
    requires n <= |cs| && ViewOf(Run(cs[..n]), id) == DENIED
    ensures ViewOf(Run(cs), id) == DENIED
    ensures Calls(Run(cs).calls, id) == 0
  {
    RunInvariant(cs);
    if n < |cs| {
      var before := cs[..|cs| - 1];
      assert before[..n] == cs[..n];
      DeniedNeverExecutes(before, n, id);
      RunInvariant(before);
      StepDoes(Run(before), cs[|cs| - 1], id);
    } else {
      assert cs[..n] == cs;
    }
  }

  // Under a policy that denies everything, a recommendation is proposed or denied and never anything else.
  ghost predicate DeniesAll(c: Call) {
    c.Decide? ==> forall req :: c.policy(req) == StaticPolicy(DENY, req)
  }

  lemma {:induction false} DenyAllViews(cs: seq<Call>, id: string)
    requires forall c :: c in cs ==> DeniesAll(c)
    ensures ViewOf(Run(cs), id) in {Absent, PROPOSED, DENIED}
  {
    if cs != [] {
      var before, c := cs[..|cs| - 1], cs[|cs| - 1];
      DenyAllViews(before, id);
      RunInvariant(before);
      StepDoes(Run(before), c, id);
      assert DeniesAll(c);
      if id == Addressed(c) {
        DeniedMoves(Run(before), c);
      }
    }
  }

  lemma DeniedMoves(s: EngineState, c: Call)
    requires DeniesAll(c) && ViewOf(s, Addressed(c)) in {Absent, PROPOSED, DENIED}
    requires RowsOk(s)
    ensures MoveOf(s, c).Moved? ==> MoveOf(s, c).decision in {AuditRecommended, AuditDenied}
    ensures !MoveOf(s, c).Unanswered?
  {
  }

  // ... so nothing reaches the executor.
  lemma DenyAllExecutesNothing(cs: seq<Call>)
    requires forall c :: c in cs ==> DeniesAll(c)
    ensures Run(cs).calls == []
  {
    RunInvariant(cs);
    var calls := Run(cs).calls;
    if calls != [] {
      LastCounted(calls);
      DenyAllViews(cs, calls[|calls| - 1].recommendationId);
    }
  }

  lemma LastCounted(calls: seq<ExecRequest>)
    requires calls != []
    ensures Calls(calls, calls[|calls| - 1].recommendationId) >= 1
  {
  }

  // Under the default policy the gate rule and the policy never disagree about who needs a human.
  lemma DefaultPolicyMatchesGate(req: ActionRequest)
    ensures DefaultPolicy(req) == Answer(ALLOW) <==>
              req.actor != "" && KnownOperation(req.operation) && KnownRisk(req.risk)
              && RequiredGate(req.operation, req.risk, false) == GateAutomatic
    ensures DefaultPolicy(req) == Answer(REQUIRE_APPROVAL) <==>
              req.actor != "" && KnownOperation(req.operation) && KnownRisk(req.risk)
              && RequiredGate(req.operation, req.risk, false) == GateApproved
    ensures DefaultPolicy(req) != Answer(DENY)
  {
  }
}
