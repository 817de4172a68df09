# Blueveil, verified

A Dafny model of the stateful core of Blueveil, a deterministic security pipeline, with proofs of what holds over every
run. `dafny verify dfyconfig.toml` checks all of it.

| file | models |
|---|---|
| Response, ResponseRuns, ResponseGate, ResponseLags, ResponseEngine | the gated response engine: its step function, the theorems about runs, what the gates let through on the fields of the calls, runs in which the trail lags, and the mutating engine that refines the step |
| Window, BurstRules, BurstReadings, ErrorBursts | the sliding window with in-place compaction, two keyed burst rules, when they fire on events, and their batch twin |
| FailureThenChange, StageReadings, Clustering, Correlations | failure-then-change in its streaming and batch forms, and time clustering with its two correlators, each with what it reads and reports on raw events |
| CrossDomain, StageChain | the cross-domain rule and the three-stage chain |
| Rule, DetectEngine, LostFirings | registry, detection engine, deduplication and counters; a stateful rule inside it |
| Incidents, IncidentKeys, Evidences, Chain, ChainFailures, IncidentSink | the incident manager and its grouping of alerts, the evidence store, the stage that composes them with the engine, and what its failures leave behind |
| Pipeline | the run loop as a step system |
| Canonical, Inventory, InventoryRuns, AssetReadings, InventoryRaces | canonical identifiers, asset repositories, ingestion and its runs, what observations and URLs are made into, interleaved reads and saves |
| SupplyChain, Query | version order and policy fold; monitoring and hunting queries |
| Base, Text, Contract | strings, sorting, digests, trimming, messages and their validation |

Each mutating component appears twice: as a class whose methods follow the Go code field by field, and as a step function
on values. A method's `ensures` equates the two; the theorems are about runs of the step function. Clock readings, policy,
executor, verifier, rule answers, serializers and outside parsers are parameters, so every theorem quantifies over all
their answers. The helpers that steps and methods share (keys, stages, gates, severities, readings of attributes) have laws
of their own on raw fields and literals, in the modules named Gate, Keys, Correlations and Readings or at the end of their
module. Times are integers with 0 as Go's zero time. A SHA-256 digest is an injective text over the hex alphabet.

## What the code does against its own documentation

- An audit trail can fall behind the state: a clock that reads zero when the entry is stamped, an executor report without
  detail, or a policy answer outside its three values changes a recommendation without an entry
  (`ResponseRuns.AuditReplay` says exactly when, `ResponseLags` has a run for each cause).
- The streaming rule trims and lowers attributes that its batch twin reads raw (`FailureThenChange.ReadersAgree`), and its
  set key is ambiguous for ids that contain the separator (`FailureThenChange.FiresOnNewSets`, `HidingHappens`). So are
  detection ids (`DetectEngine.DetectionIdExactly`, `DetectionIdsCollide`).
- A `Process` call that aborts after an emission loses that detection for good (`DetectEngine.NothingSwallowed` says
  exactly when, `AbortHappens` has a run), and so does a stateful rule whose firing another rule spoils
  (`LostFirings.FiringReported`, `SpoilHappens`).
- A failed `Emit` leaves pairs, incidents, evidence and archive alone only when the engine returned nothing
  (`ChainFailures.AtomicFailure`); otherwise the alerts from the stop on never get into an incident
  (`ChainFailures.EmissionReaches`, `FailedEmissionLosesAlerts`).
- The incident manager alone keeps an alert in one incident exactly when it always comes with one key
  (`Incidents.OneIncidentPerAlert`); behind the engine's deduplication it always does (`Chain.OneIncidentPerAlert`).
- `last_seen` does not always advance on a touch (`InventoryRuns.ReobservationOutcome`, `InventoryRaces.LastSeenGoesBack`),
  and RETIRED is absorbing exactly when no save lands after a retirement its read has missed
  (`InventoryRaces.RetiredAbsorbs`).
- A hunt looks at the first 100 base rows only (`Query.HuntIsWhole`, `HuntHappens`).
- `RequireSBOM` and `ApprovedRepos` are policy dimensions that the evaluation never reads (`SupplyChain.UnreadDimensions`).

## Model

| member | source | states |
|---|---|---|
| `ResponseRuns.StepDoes` | collector/internal/response/engine.go:124-357 | Every call, in every reachable state, does exactly the lifecycle move of its kind to the recommendation it addresses: its status, safety state and flags, its trail, and how often it was dispatched. Of every other id these stay as they were. |
| `ResponseRuns.StepRecords` | collector/internal/response/engine.go:92-357 | The addressed record and session after a call: a new recommendation is the proposal with a blank session; later only the status of the record changes, the approval is the one granted now or before, and the execution the one reported now or before. |
| `ResponseRuns.StepFrame` | collector/internal/response/engine.go:92-357 | The records and sessions of all other recommendations are the very same ones. |
| `ResponseRuns.RunInvariant` | collector/internal/response/engine.go:21-357 | Over every interleaving of calls: each recommendation and session agree on one reachable combination of status, safety state, approval and flags; audit ids are gap-free; the executor log holds one request per dispatched recommendation and no destructive one. |
| `ResponseRuns.UnreachableFailures` | collector/internal/response/engine.go:161-179 | No run ever answers an illegal safety transition, a failed re-validation, or 'no approval presented': those branches are unreachable. |
| `ResponseRuns.BoundedLife` | collector/internal/response/engine.go:92-357 | A rank on (status, safety) drops at each state change, so a recommendation changes at most six times in any run. |
| `ResponseRuns.AuditReplay` | collector/internal/response/engine.go:73-88 | After any run, folding a recommendation's audit entries gives exactly its status, safety state, executed, verified and done if and only if no call stranded it, that is, took effect with the clock at zero when the entry is stamped, with an executor report without detail, or with a policy answer out of range; otherwise the trail lags behind the state. |
| `ResponseLags.ClockCanLag` | collector/internal/response/engine.go:73-88 | A run in which the trail lags for the first cause: a recommendation exists and its trail is empty. |
| `ResponseLags.PolicyCanLag` | collector/internal/response/engine.go:138-179 | A run in which it lags for a policy answering 7. |
| `ResponseLags.ExecutorCanLag` | collector/internal/response/engine.go:251-275 | A run in which it lags for an executor that reports success without detail. |
| `ResponseRuns.ReplayIsLanguage` | collector/internal/response/audit.go:20-34 | The fold accepts exactly the prefixes of recommended (denied | (allowed | approval-required approved) (executor-error | executed (verified | verification-failed | verification-unknown) | execution-failed verification-failed)). |
| `ResponseRuns.ReplaySpells` | collector/internal/response/engine.go:92-357 | A replayed state determines its trail: the word that leads to each lifecycle state is unique up to how it was authorized and how it failed. |
| `ResponseRuns.HonestRunsReplay` | collector/internal/response/engine.go:73-357 | With a non-zero clock, a three-valued policy and executor reports with detail, every trail is admissible and replays to the state. |
| `ResponseRuns.Provenance` | collector/internal/response/engine.go:124-215 | An approved recommendation was allowed by a call that took effect, consulted the policy and got an allow where no human is needed, or holds an approval granted earlier in the same run. |
| `ResponseRuns.AuthorizedExecution` | collector/internal/response/engine.go:218-301 | Whatever reaches the executor is the recommendation as proposed, at a call whose recommendation had been effectively allowed with an automatic gate, or that an approval granted earlier in the run covers; ResponseGate says on the fields of the calls what covering, granting and proposing are. |
| `ResponseGate.ApprovalGate` | collector/internal/response/approval.go:28-90 | The approval gate over runs: an approved recommendation that an earlier Approve call signed, at its clock and with its ttl, is dispatched at every time before that clock plus a positive ttl (at any time when the ttl is zero), and refused as approval-invalid with nothing changed from then on. |
| `ResponseGate.DispatchMeans` | collector/internal/response/engine.go:92-301 | Whatever reaches the executor was proposed by an earlier call, carries the operation and risk that the severity of that call's incident asks for and the joined assets of its events; in between either a call with a non-empty approver and reason, and an end still ahead, approved it, or, for at most medium severity only, the policy answered allow to this very request. |
| `ResponseGate.GraveNeedsHuman` | collector/internal/response/recommend.go:25-38 | Whatever reaches the executor for a HIGH or CRITICAL incident holds an approval that such a call granted earlier in the run. |
| `ResponseGate.DecideOutcome` | collector/internal/response/engine.go:124-182 | A decision on a new recommendation, on the policy's answer and the risk alone: an error changes nothing, allow approves the two lower risks and sends the rest to a human, deny denies, require-approval sends everything to a human, any other answer leaves it proposed. |
| `ResponseGate.ApproveOutcome` | collector/internal/response/engine.go:186-214 | An approval takes effect exactly when approver and reason are non-empty, the ttl is not negative and the clock is set; it then holds id, operation, target and risk of the recommendation and ends the ttl after the clock. |
| `ResponseGate.ExecuteOutcome` | collector/internal/response/engine.go:218-301 | An execution not held back by its approval appends exactly one request to the executor's log and ends in the status that the executor's answer says; otherwise nothing changes. |
| `ResponseGate.VerifyOutcome` | collector/internal/response/engine.go:306-357 | A failed execution is always verified as failed; a successful one as the verifier says, and refused when that is no verdict. |
| `ResponseGate.ExecutionWritten` | collector/internal/response/engine.go:218-301 | A dispatched execution asks for the operation, target and risk that were recommended, under the id of the approval if there is one; a report with a detail at a running clock is recorded as given, with both clock readings, and nothing else is. |
| `ResponseGate.VerificationAnswered` | collector/internal/response/engine.go:306-357 | A verification answers the verdict on the recorded execution at the time of the call, which is failure for a failed execution. |
| `ResponseGate.TrailGrows` | collector/internal/response/engine.go:73-88 | A call leaves the trail as it is or adds one entry, with the next number, that says which recommendation, who did it, with what result and when, by the kind of the call. |
| `ResponseGate.RecommendationIdInjective` | collector/internal/response/recommend.go:41-43 | Recommendations are told apart by incident and alert exactly. |
| `ResponseGate.ApprovalIdInjective` | collector/internal/response/approval.go:21-24 | Approvals are told apart by recommendation, approver and time exactly. |
| `ResponseGate.ExecutionIdInjective` | collector/internal/response/executor.go:47-50 | Executions are told apart by recommendation, operation and target exactly. |
| `ResponseRuns.DenyAllExecutesNothing` | collector/internal/response/policy.go:91-114 | In a run under the deny-all policy nothing reaches the executor. |
| `ResponseRuns.ExecutedAtMostOnce` | collector/internal/response/engine.go:218-301 | Each recommendation appears at most once in the executor's log, executor errors included, and no destructive operation appears at all. |
| `ResponseRuns.DeniedNeverExecutes` | collector/internal/response/engine.go:124-301 | A denied recommendation stays denied and neither has reached nor will reach the executor. |
| `ResponseRuns.DefaultPolicyMatchesGate` | collector/internal/response/policy.go:65-88 | The default policy allows exactly where the gate is automatic and asks for approval exactly where the gate needs it, for known operations, risks and a named actor. |
| `Response.ProposalValid` | collector/internal/response/recommend.go:64-132 | A built proposal is always a contract-valid PROPOSED recommendation. |
| `ResponseGate.ProposalMeans` | collector/internal/response/recommend.go:25-132 | There is a proposal exactly for valid, linked incident data with at least one event and a set clock. CRITICAL asks for ANALYZE at critical risk, HIGH for RECOMMEND at high risk, MEDIUM and the rest for OBSERVE at medium and low risk; approval is required exactly for HIGH and CRITICAL; the target joins exactly the distinct assets of the events in order. |
| `Response.BuildProposal` | collector/internal/response/recommend.go:64-132 | The recommender's loops and sorts compute the proposal that ResponseGate.ProposalMeans pins on the incident's severity, with its refusals for broken linkage, missing events, empty assets and a zero clock. |
| `ResponseEngine.Engine.DoRecommend` | collector/internal/response/engine.go:92-120 | The mutating call equals the step of the specification on the whole state and keeps the run invariant; the proposal it stores is the one of ResponseGate.ProposalMeans. |
| `ResponseEngine.Engine.DoDecide` | collector/internal/response/engine.go:124-182 | As above, for the policy decision. |
| `ResponseEngine.Engine.DoApprove` | collector/internal/response/engine.go:186-214 | As above, for the approval. |
| `ResponseEngine.Engine.DoExecute` | collector/internal/response/engine.go:218-301 | As above, for the gated execution: approval coverage, safety advance, dispatch, executor error, build and failure paths; when it dispatches over runs is ResponseGate.ApprovalGate. |
| `ResponseEngine.Engine.DoVerify` | collector/internal/response/engine.go:306-357 | As above, for the verification. |
| `ResponseEngine.InMemoryAuditLog.Append` | collector/internal/response/audit.go:64-72 | Appending numbers the entry and leaves earlier entries as they were. |
| `Window.NetWindow.Compact` | collector/internal/detect/network.go:179-187 | The in-place compaction leaves exactly the entries not older than the cutoff, in order. |
| `Window.NetWindow.ObserveEvent` | collector/internal/detect/network.go:179-198 | One observation on the mutable buffer is the abstract window step. |
| `Window.WindowHistory` | collector/internal/detect/network.go:179-198 | After any stream, ordered or not, the window holds exactly the events that survived every later cutoff, and fired holds exactly when they reach the threshold. |
| `Window.OrderedWindow` | collector/internal/detect/network.go:179-198 | On a time-ordered stream those are exactly the past events not older than the window. |
| `Window.FiresOnRisingEdge` | collector/internal/detect/network.go:179-198 | Firing is exactly the rising edge of the count, and a firing window holds exactly threshold entries. |
| `Window.PeakIsMaximum` | collector/internal/detect/network.go:200-208 | The reported severity is the maximum over the window. |
| `BurstRules.NetConnectionBurstRule.Evaluate` | collector/internal/detect/network.go:280-323 | The rule over its map of mutable windows equals one evaluation step, whose meaning on events is BurstReadings.BurstFires; refused events change nothing. |
| `BurstRules.BlockBurstRule.Evaluate` | collector/internal/detect/rules.go:114-176 | The second copy of the machinery, written out in the rule, computes the same evaluation step. |
| `BurstRules.KeyIndependence` | collector/internal/detect/network.go:280-323 | On any interleaving the window of a key is the window run on that key's own events. |
| `BurstRules.KeyedFires` | collector/internal/detect/rules.go:114-176 | A keyed rule fires on an event exactly when the key's own subsequence, ended by that event, fires. |
| `BurstReadings.BurstFires` | collector/internal/detect/network.go:280-323 | On the events' own fields, for any calls of either rule in any order: of the events of the rule's type counted under one key, those within the window of every event since are alive; the rule fires exactly when an event brings the alive ones from below the threshold up to it, and reports exactly their ids in order, their gravest severity, threshold, window and count, and the key. |
| `BurstReadings.BurstRefuses` | collector/internal/detect/rules.go:114-140 | An event of another type is passed over; one of the rule's type is an error exactly when clock, source address or event time is missing. |
| `ErrorBursts.ComputeErrorBursts` | collector/internal/detect/threat.go:233-279 | The head-popping loop over sorted errors returns exactly the windows at which the streaming window fires on the same errors. |
| `ErrorBursts.PopStep` | collector/internal/detect/threat.go:250-262 | On time-ordered entries, popping stale heads is the filtering compaction. |
| `ErrorBursts.BurstsAreWindows` | collector/internal/detect/threat.go:233-279 | With distinct event ids, each reported burst lists exactly the entries of the streaming window. |
| `ErrorBursts.BurstsIgnoreOrder` | collector/internal/detect/threat.go:233-247 | The sorted input, hence the result, does not depend on the order errors were recorded in. |
| `FailureThenChange.MultiStageCorrelatedRule.Evaluate` | collector/internal/detect/threat.go:135-207 | The rule over its two maps equals the abstract step, whose meaning on events is StageReadings.StageMeans and RuleFires; refused events change nothing. |
| `StageReadings.StageMeans` | collector/internal/detect/threat.go:135-170 | What the rule takes an event for, on raw attributes: a change of p exactly when the type is identity.activity, the trimmed and lowered action is role_change or permission_change, p is the trimmed non-empty principal and the time is set; likewise a failure; and refused exactly when it is of one of the two types and unreadable or, where it matters, without a time. |
| `StageReadings.RuleFires` | collector/internal/detect/threat.go:135-207 | After any stream of events the rule matches the next exactly when it is a privilege change of someone whose failures in reach of all their later changes number at least the threshold and do not join like those it last fired for. |
| `FailureThenChange.KeptFailures` | collector/internal/detect/threat.go:142-180 | After any stream the rule holds for each principal exactly the failures within the window of every later change: pruning is permanent. |
| `FailureThenChange.StreamReadAlike` | collector/internal/monitor/siem.go:81-125 | The two see the same stream exactly when every event that matters to either of them is stored trimmed and in lower case, with a time. |
| `FailureThenChange.StreamAgreesWithBatch` | collector/internal/detect/threat.go:142-207 | On ordered streams so stored, the failures kept at a change equal those the batch collects over the whole history. |
| `FailureThenChange.SameEventIds` | collector/internal/monitor/siem.go:81-138 | On ordered streams so stored, the batch correlation for a change cites exactly the event ids the streaming rule would report at it, and there is one exactly when failures are kept. |
| `FailureThenChange.ReadersAgree` | collector/internal/monitor/siem.go:81-125 | Stream and batch read an event alike exactly when it is already trimmed and in lower case, wherever event type and attributes matter to either reader. |
| `FailureThenChange.ReadersCanDisagree` | collector/internal/monitor/siem.go:81-125 | A contract-valid event with a padded principal is read under two different principals. |
| `FailureThenChange.FiresExactly` | collector/internal/detect/threat.go:180-207 | The rule fires at a change exactly when the kept failures reach the threshold and their joined ids differ from the joined ids of the principal's last match. |
| `FailureThenChange.FiresOnNewSets` | collector/internal/detect/threat.go:180-207 | It fires on every new set but one kind: it stays silent on a new set exactly when that and the last fired set are different lists that join alike. |
| `FailureThenChange.JoinableFiresOnNewSets` | collector/internal/detect/threat.go:180-207 | With non-empty separator-free ids it fires exactly on new sets that reach the threshold. |
| `FailureThenChange.SeparatorHidesASet` | collector/internal/detect/threat.go:213-222 | On every stream of a certain form (an id that holds the separator, then its two halves) the rule stays silent at the last change on a set it never fired for. |
| `FailureThenChange.HidingHappens` | collector/internal/detect/threat.go:213-222 | Six contract-valid events with distinct ids at the last of which, a role change, the rule is silent on failures it never fired for. |
| `FailureThenChange.CorrelateAuthToIdentity` | collector/internal/monitor/siem.go:81-138 | The batch loops compute the specified correlations, with the window and timestamp errors; which changes are correlated with which failures is StageReadings.BatchMeans. |
| `StageReadings.RawStageMeans` | collector/internal/monitor/siem.go:81-105 | What the batch takes an event for: the stored texts themselves, role_change or permission_change, and failure, of a stored non-empty principal. |
| `StageReadings.BatchMeans` | collector/internal/monitor/siem.go:81-138 | The batch fails exactly on a window that is not positive or a change, or a failure of a change's principal, without a time; else it reports one correlation for each change with failures of its principal up to a window before it, in the order of the changes' ids, citing the change and exactly those failures. |
| `FailureThenChange.CorrelationIdExactly` | collector/internal/monitor/siem.go:45-60 | Two correlations share an id exactly when kind and sorted event ids join to the same text. |
| `Clustering.ClusterByTime` | collector/internal/monitor/siem.go:148-167 | The loop over current cluster and previous time computes the clustering, or fails on a missing timestamp. |
| `Clustering.ClustersIsClustering` | collector/internal/monitor/siem.go:148-167 | The clusters are the input in order, gapless inside and separated by gaps wider than the window. |
| `Clustering.ClusteringUnique` | collector/internal/monitor/siem.go:148-167 | Any partition with these gap conditions is this one. |
| `Clustering.SharedCluster` | collector/internal/monitor/siem.go:148-167 | Two events share a cluster exactly when every consecutive gap between them is at most the window. |
| `Clustering.Correlate` | collector/internal/monitor/siem.go:195-319 | Both correlators (network to application, endpoint to server) compute the specified correlations from their maps and sorts; what those are on event types and ids is Correlations.CorrelateMeans. |
| `Correlations.CorrelateMeans` | collector/internal/monitor/siem.go:195-319 | On event types, identifiers and times: a correlator fails exactly on a window that is not positive or an identified event without a time; else each correlation is told by a whole connected group (linked by gaps of at most the window under one identifier) that holds both kinds, with exactly the group's ids, its latest time and its asset; no event is in two of them, and every event connected to both kinds is in one. |
| `Correlations.LinkMeans` | collector/internal/monitor/siem.go:182-215 | Two events are linked exactly when both are of the correlator's two types and name the same asset (or, without asset, the same correlation id), or the same host. |
| `Clustering.CorrelatePermuted` | collector/internal/monitor/siem.go:195-254 | The correlations do not depend on the order of the input events. |
| `Clustering.CitedAtMostOnce` | collector/internal/monitor/siem.go:195-254 | With unique ids each event is cited by at most one correlation. |
| `CrossDomain.CrossDomainPrincipalRule.Evaluate` | collector/internal/detect/investigate.go:113-179 | The rule over its maps equals the abstract step per principal; refused events change nothing. |
| `CrossDomain.ActivityHistory` | collector/internal/detect/investigate.go:113-179 | After any stream a domain is held exactly when its latest sighting is inside the window of every event since, and then it holds that sighting. |
| `CrossDomain.OrderedActivity` | collector/internal/detect/investigate.go:113-179 | On ordered streams that is the latest sighting of each domain if not older than the window. |
| `CrossDomain.FiresOnCrossing` | collector/internal/detect/investigate.go:150-179 | The rule fires exactly when the distinct-domain count crosses the threshold from below, with exactly threshold domains. |
| `CrossDomain.PrincipalIndependence` | collector/internal/detect/investigate.go:113-179 | A principal's state depends on that principal's events only. |
| `CrossDomain.NamedFires` | collector/internal/detect/investigate.go:113-179 | On an interleaved stream the rule fires on an event exactly when the principal's own events, ended by it, fire. |
| `CrossDomain.ActivityFires` | collector/internal/detect/investigate.go:33-179 | On the events' own fields: on a time-ordered stream the rule fires at an event of p exactly when p's active domains reach the threshold with it and did not before, a domain being active when its latest event of p is within the window. |
| `CrossDomain.DomainMeans` | collector/internal/detect/investigate.go:35-58 | Eleven event types stand for nine domains, and every other for none. |
| `CrossDomain.PrincipalMeans` | collector/internal/investigate/hunt.go:29-97 | An event names p exactly when p is the text of the first of the seven keys that says anything. |
| `StageChain.MultiStageAssetTimelineRule.Evaluate` | collector/internal/detect/investigate.go:255-315 | The rule over its map of chains equals the abstract step. |
| `StageChain.FollowSound` | collector/internal/detect/investigate.go:255-315 | For any stream, even out of order: every match is three events at stages 1, 2, 3 in arrival order with nondecreasing times inside the window, and no event is used twice. |
| `StageChain.FollowGenuine` | collector/internal/detect/investigate.go:255-315 | Every position of a match names the event that stands there in the stream. |
| `StageChain.ChainMirrorsStream` | collector/internal/detect/investigate.go:255-315 | The rule reports exactly those matches, with their ids and their highest severity. |
| `StageChain.ChainInvariant` | collector/internal/detect/investigate.go:199-211 | Between calls stage is 0..2 with stage-many ids and start <= last <= start + window. |
| `StageChain.LinkIndependence` | collector/internal/detect/investigate.go:240-315 | The chain of a linkage key, and the matches an interleaved stream reports for it, are those of that key's own events. |
| `StageChain.TimelineMatches` | collector/internal/detect/investigate.go:186-315 | On any stream of events, a match tells of a network, an application and an endpoint or server event about its subject, in order of arrival and time and within the window. |
| `StageChain.TimelineCompletes` | collector/internal/detect/investigate.go:186-315 | Conversely, when no chain is open for a subject, three such events in order and within the window always bring a match at the third, with their ids and gravest severity. |
| `DetectEngine.DetectionStands` | collector/internal/detect/engine.go:259-313 | A built detection is valid, keeps rule, severity, confidence and time, lists exactly the outcome's events in order, and has the id of rule and events. |
| `DetectEngine.DetectionMeans` | collector/internal/detect/engine.go:259-313 | A match becomes a detection exactly when it names events, none without an id, severity and confidence are in range, the clock is set, rule id, name, title and detail are non-empty, and no attribute uses the engine's prefix; the detection says what rule and match say, field by field. |
| `DetectEngine.AttributesKept` | collector/internal/detect/engine.go:280-293 | A detection has exactly the engine's two attributes and those of the rule, and neither hides the other. |
| `DetectEngine.DetectionIdExactly` | collector/internal/detect/engine.go:247-254 | Two matches share a detection id exactly when rule and sorted event ids join to the same text. |
| `DetectEngine.DetectionIdsCollide` | collector/internal/detect/engine.go:247-254 | With separators in ids they can: one rule over two events, over one event, and another rule over one event share an id. |
| `DetectEngine.DetectionIdIdentifies` | collector/internal/detect/engine.go:247-254 | Without separators inside ids, two matches share a detection id exactly when they are of the same rule over the same events in any order. |
| `DetectEngine.EvaluationAsks` | collector/internal/detect/engine.go:189-211 | An evaluation fails exactly when an enabled rule fails, and otherwise finds exactly the matches the enabled rules answer. |
| `DetectEngine.EvaluationCounts` | collector/internal/detect/engine.go:190-199 | Each enabled rule is counted as evaluated once, and no other. |
| `DetectEngine.ErrorsRecorded` | collector/internal/detect/engine.go:189-211 | An evaluation fails exactly when an enabled rule fails; it then records one error, of the first such rule, with the event, its severity and the time, and leaves the errors of all other rules and all detection counters alone. |
| `DetectEngine.AlertFollows` | collector/internal/detect/engine.go:318-344 | A built detection always has its alert. |
| `DetectEngine.AlertMeans` | collector/internal/detect/engine.go:318-344 | That alert is open, of the detection alone, with its severity and title, created at the call's time, and its id is the detection's with a prefix. |
| `DetectEngine.ProcessRefuses` | collector/internal/detect/engine.go:181-189 | A call is refused as invalid telemetry exactly on a broken event; then, and with the clock at zero, nothing changes. |
| `DetectEngine.Registry.Register` | collector/internal/detect/registry.go:33-54 | Registration appends in order and refuses empty and duplicate ids. |
| `DetectEngine.Registry.Disable` | collector/internal/detect/registry.go:75-83 | Disabling marks a registered id and nothing else. |
| `DetectEngine.Registry.Enable` | collector/internal/detect/registry.go:86-94 | Enabling unmarks a registered id and nothing else. |
| `DetectEngine.Engine.Process` | collector/internal/detect/engine.go:181-245 | The mutating call equals the specified step on counters, seen set and rule statistics and keeps conservation. |
| `DetectEngine.ProcessConserves` | collector/internal/detect/engine.go:181-245 | Each call, aborted or not, keeps emitted detections = emitted alerts = size of the seen set = sum of the rules' detection counters, and detections + errors <= evaluations per rule. |
| `DetectEngine.RunConserves` | collector/internal/detect/engine.go:181-245 | The same over every run of registrations, switches and events. |
| `DetectEngine.EmissionDelivers` | collector/internal/detect/engine.go:214-243 | A processed call returns new, pairwise distinct detections aligned one to one with their alerts; returned + suppressed = matches. |
| `DetectEngine.EmissionBuilds` | collector/internal/detect/engine.go:211-243 | Emitted + suppressed grows by exactly the matches before the first that cannot be built, and the call aborts exactly there. |
| `DetectEngine.RunBuilds` | collector/internal/detect/engine.go:181-245 | Over every run, the matches built are the distinct detection ids remembered and the matches counted as suppressed, calls that abort included. |
| `DetectEngine.EmittedOnce` | collector/internal/detect/engine.go:181-245 | Over a whole run no detection id is returned twice. |
| `DetectEngine.AbortedCallSwallows` | collector/internal/detect/engine.go:213-243 | An aborted call returns nothing, and no continuation of the run returns any id it has remembered. |
| `DetectEngine.AbortHappens` | collector/internal/detect/engine.go:213-243 | A run of two registrations and one call that aborts: it counts and remembers one detection and returns none. |
| `LostFirings.ProcessedExactly` | collector/internal/detect/engine.go:181-245 | A call is processed exactly when event and clock are good and no enabled rule fails or answers a match that cannot be built. |
| `LostFirings.FiringReported` | collector/internal/detect/engine.go:189-243 | A new firing of a burst rule reaches the caller exactly when no enabled rule spoils the call. |
| `LostFirings.SpoiledFiringIsLost` | collector/internal/detect/engine.go:189-211 | A spoiled firing is lost: the rule does not match again before its window has dropped below the threshold, however the run goes on. |
| `LostFirings.SpoilHappens` | collector/internal/detect/engine.go:189-211 | A run of two registrations and one event in which the first rule's window fires, the second rule fails, and the call returns nothing. |
| `DetectEngine.NothingSwallowed` | collector/internal/detect/engine.go:213-243 | No emitted detection is lost in a call exactly when all matches can be built, or those before the first that cannot were already emitted. |
| `Incidents.CorrelationKey` | collector/internal/incident/incident.go:74-87 | The loop answers the key of the triple, which IncidentKeys.KeyMeans pins on the events' attributes. |
| `IncidentKeys.KeyMeans` | collector/internal/incident/incident.go:74-87 | For c non-empty, the key is corr: and c exactly when there are events and every one carries c under its correlation attribute; it is the alert's own exactly when no such c exists. |
| `IncidentKeys.SharedIncident` | collector/internal/incident/incident.go:67-210 | In every run two different alerts are in one incident exactly when each was accepted with events that all carry one and the same non-empty correlation id. |
| `IncidentKeys.IngestOutcome` | collector/internal/incident/incident.go:112-210 | One ingestion: refused exactly when a message is invalid, the links are broken or the clock is at zero; otherwise a new key opens an incident, an attached alert changes nothing, and any other alert extends the incident of its key, each said field by field. |
| `Incidents.IncidentIdInjective` | collector/internal/incident/incident.go:89-92 | Different keys have different incident ids. |
| `Incidents.Manager.Ingest` | collector/internal/incident/incident.go:112-210 | The mutating call equals the specified ingestion and keeps the invariant; where the alert goes is IncidentKeys.KeyMeans and what it does there IncidentKeys.IngestOutcome. |
| `Incidents.Manager.Transition` | collector/internal/incident/incident.go:216-237 | The mutating call equals the specified transition and keeps the invariant. |
| `IncidentKeys.TransitionOutcome` | collector/internal/incident/incident.go:216-237 | A transition succeeds exactly for a stored incident, to the very next of the five states and with the clock set, and changes status and time of change only. |
| `Incidents.Manager.List` | collector/internal/incident/incident.go:251-264 | All incidents, each as stored, in id order. |
| `Incidents.RunSound` | collector/internal/incident/incident.go:112-237 | In every run keys and ids name each other, alert ids are sorted, duplicate-free and equal to the tracked set, and every incident is contract-valid. |
| `Incidents.IngestSound` | collector/internal/incident/incident.go:150-210 | An ingestion is refused exactly on unacceptable input: validation after the mutation cannot fail. |
| `Incidents.ReingestIsIdle` | collector/internal/incident/incident.go:150-154 | Ingesting an attached alert again changes nothing and answers the incident as it stands. |
| `Incidents.RunDescribes` | collector/internal/incident/incident.go:150-210 | If no alert id was accepted with two different contents, then at every moment an incident's alerts, rules, assets and severity are those of the accepted triples of its key; severity is their maximum. |
| `Incidents.Confluence` | collector/internal/incident/incident.go:150-210 | Two runs that accepted the same triples, in any order and with any repetitions and lifecycle moves, hold the same incidents up to title, timestamps and status. |
| `Incidents.AttachedExactly` | collector/internal/incident/incident.go:74-210 | In every run an alert is attached to exactly the incidents of the keys its accepted triples had. |
| `Incidents.OneIncidentPerAlert` | collector/internal/incident/incident.go:74-210 | In every run an alert is in at most one incident exactly when all its accepted triples have one key. |
| `Incidents.SameAlertTwoIncidents` | collector/internal/incident/incident.go:74-210 | Two accepted triples of one alert with two keys put it into two incidents. |
| `Incidents.TwoKeysHappen` | collector/internal/incident/incident.go:74-87 | There are such triples: one event told under two correlation ids. |
| `Incidents.CallTouchesOne` | collector/internal/incident/incident.go:150-237 | A call changes no incident but the one it addresses, never its title or creation time, and stamps it with the call's time. |
| `Incidents.StatusCountsMoves` | collector/internal/incident/incident.go:39-44 | Status is OPEN plus the number of accepted transitions, so an incident moves at most four times and only one step forward each time. |
| `Evidences.EvidenceIdInjective` | collector/internal/evidence/evidence.go:58-61 | Ids tell incident, kind and reference apart when the first two hold no separator. |
| `Evidences.VerifiedContent` | collector/internal/evidence/evidence.go:51-56 | Two verifying items share a digest exactly when they share content. |
| `Evidences.ItemStands` | collector/internal/evidence/evidence.go:158-182 | A built item verifies and carries the id of its incident, kind and reference. |
| `Evidences.ItemMeans` | collector/internal/evidence/evidence.go:158-182 | An item is built exactly from what can be written; it is collected at the time of the call, as JSON, with incident, type, source, content and the digest of the content. |
| `Evidences.ItemsFacts` | collector/internal/evidence/evidence.go:118-152 | A set is built exactly when every item can be built, in order and one per draft. |
| `Evidences.BuildForAlert` | collector/internal/evidence/evidence.go:68-153 | The method with its map, checks and loops computes the specified set or the specified refusal. |
| `Evidences.BuildCovers` | collector/internal/evidence/evidence.go:118-152 | A built set misses nothing: one verifying item per contributing event with the event's own source and serialization, one for the detection, one for the alert. |
| `Evidences.FoundIsLast` | collector/internal/evidence/evidence.go:89-98 | Of several events under one id the last given is the one recorded. |
| `Evidences.KeepAllFacts` | collector/internal/evidence/evidence.go:199-211 | Storing keeps what was there, adds each new id once and nothing else. |
| `Evidences.Store.Add` | collector/internal/evidence/evidence.go:199-211 | Add keeps the first item of an id and reports whether it was added. |
| `Chain.RunSound` | collector/internal/pipeline/incident_sink.go:62-117 | After every run of successful emissions, rule switches and incident moves: archived ids are unique, the engine's seen set is what is stored, stored detections' events are archived, the incidents are those of the stored pairs, and the evidence store holds exactly what is owed. |
| `Chain.MarksConsistent` | collector/internal/pipeline/incident_sink.go:84-104 | Dedup in the engine supplies what the incident manager cannot check: no alert id arrives with two contents. |
| `Chain.OneIncidentPerAlert` | collector/internal/pipeline/incident_sink.go:84-104 | After every successful run each stored alert is in exactly one incident. |
| `Chain.OneItemPerSlot` | collector/internal/pipeline/incident_sink.go:104-110 | After every successful run the evidence store holds one verifying item per (incident, kind, reference) reached, recording that event, detection or alert, and no other. |
| `Chain.ArchiveIsEmitted` | collector/internal/pipeline/incident_sink.go:112-116 | Forwarding is last: the archive is the emitted events in order and a failed emission adds nothing. |
| `ChainFailures.AtomicFailure` | collector/internal/pipeline/incident_sink.go:58-116 | A failed emission leaves stored pairs, incidents, evidence and archive as they were exactly when the engine aborted or returned no detection; its seen set and statistics are not meant. |
| `ChainFailures.WatchingFails` | collector/internal/pipeline/incident_sink.go:58-116 | A failed emission that is not atomic, on a chain that a run reaches. |
| `ChainFailures.EmissionReaches` | collector/internal/pipeline/incident_sink.go:62-116 | A processed emission fails exactly as its guards say (duplicate event id, unarchived event or zero clock, unwritable evidence, failing sink); all its pairs are stored, and exactly those before the stop are in an incident afterwards, none on a duplicate id. |
| `ChainFailures.StopIsFirst` | collector/internal/pipeline/incident_sink.go:92-111 | The stop is the first pair whose guards refuse it. |
| `ChainFailures.FailedEmissionLosesAlerts` | collector/internal/pipeline/incident_sink.go:62-116 | Whatever is done later, each stored pair at or after the stop stays without an incident. |
| `IncidentSinks.IncidentSink.Emit` | collector/internal/pipeline/incident_sink.go:62-117 | The stage over its mutable components equals the specified step on the whole composed state, error paths included. |
| `IncidentSinks.InMemorySink.Emit` | collector/internal/pipeline/pipeline.go:55-63 | The sink appends the event unless it is failing. |
| `Pipeline.RunInvariant` | collector/internal/pipeline/pipeline.go:155-209 | In every interleaving of reader, consumer and cancellation, handled, queued, held or dropped, and unread events are the source in order; the queue keeps its bound; a sink error is the last event handled and ends the run. |
| `Pipeline.RunAccounts` | collector/internal/pipeline/pipeline.go:219-265 | received = accepted + rejected + sink errors, rejected = normalize errors + enrich errors, at most one sink error, counted exactly when the run failed. |
| `Pipeline.AccountsAddUp` | collector/internal/pipeline/pipeline.go:89-117 | Every handled event is in exactly one column and every refusal is kept with its event. |
| `Pipeline.Collector.Handle` | collector/internal/pipeline/pipeline.go:219-236 | The counters updated in place always equal the accounts of the events handled so far. |
| `Pipeline.CompleteRun` | collector/internal/pipeline/pipeline.go:155-209 | Without cancellation or sink failure a returned run has handled every source event exactly once, in order. |
| `Pipeline.DrainedRun` | collector/internal/pipeline/pipeline.go:180-209 | A run that returns without failure, cancelled or not, has handled everything that ever entered the queue: it leaves at most the one event in the reader's hand and what was never read. |
| `Pipeline.BoundedRun` | collector/internal/pipeline/pipeline.go:155-209 | No interleaving runs for ever: steps are bounded by the length of the source. |
| `Pipeline.NeverStuck` | collector/internal/pipeline/pipeline.go:155-209 | Until the consumer has returned some step other than a cancellation is possible. |
| `Pipeline.RunReturns` | collector/internal/pipeline/pipeline.go:155-209 | Every run can be continued to its return without any further cancellation. |
| `Canonical.DomainIdempotent` | collector/internal/asset/canonicalize.go:116-136 | A canonical domain is its own canonical form. |
| `Canonical.DomainChars` | collector/internal/asset/canonicalize.go:116-136 | A canonical domain is at most 253 characters of labels of 1 to 63 letters, digits and inner hyphens (section 2.3.4 of RFC 1035, section 2.1 of RFC 1123). |
| `Canonical.DomainMeans` | collector/internal/asset/canonicalize.go:116-136 | What is a canonical domain: the trimmed and lowered text less one final dot, of 1 to 253 characters, whose dot-separated labels are well formed; every such text is accepted, as it is. |
| `Canonical.HostMeans` | collector/internal/asset/canonicalize.go:185-194 | What is a canonical host: the trimmed and lowered text, unless it is empty or holds a blank, a tab or a slash. |
| `Canonical.RootDotIgnored` | collector/internal/asset/canonicalize.go:116-119 | The trailing dot of a fully qualified name makes no other domain. |
| `Canonical.CaseIgnored` | collector/internal/asset/canonicalize.go:116-119 | Letter case makes neither another domain nor another host. |
| `Canonical.HostIdempotent` | collector/internal/asset/canonicalize.go:185-194 | A canonical host is its own canonical form. |
| `Canonical.CanonicalIdempotent` | collector/internal/asset/canonicalize.go:57-79 | The same for every type that needs no outside parser. |
| `Canonical.IdForInjective` | collector/internal/asset/canonicalize.go:83-86 | Ids tell types and identifiers apart. |
| `Inventory.NormalizedIsCanonical` | collector/internal/asset/discovery.go:83-100 | Assets normalized from domain, host or opaque input always pass the repository's canonical check. |
| `AssetReadings.NormalizeMeans` | collector/internal/asset/discovery.go:143-180 | An observation is normalized exactly when its source is not blank, its type is one of the eleven, its time is set and its raw text stands for a name of that type; the asset is discovered, with the id of type and name, the trimmed environment and both sightings at the time observed. |
| `Inventory.LifecycleMoves` | collector/internal/asset/lifecycle.go:18-83 | Touch and Transition keep identity and first sighting, never leave RETIRED and never return to DISCOVERED. |
| `Inventory.AssetRepository.Create` | collector/internal/store/memory.go:701-721 | Create stores the asset exactly when it is valid, canonical and new in id and in (type, name). |
| `Inventory.AssetRepository.Save` | collector/internal/store/memory.go:723-745 | Save replaces exactly a stored, valid asset whose (type, name) no other holds. |
| `Inventory.RelationshipRepository.Append` | collector/internal/store/memory.go:799-811 | Append stores a valid relationship once per (parent, child, kind). |
| `AssetReadings.WritesMean` | collector/internal/store/memory.go:701-745 | On the fields: created exactly when whole, named as its type demands, and new in id and in type and name; saved exactly when whole, so named, stored already, and alone in type and name. |
| `AssetReadings.AppendMeans` | collector/internal/store/memory.go:799-811 | On the fields: appended exactly when it names two different assets, one of the twelve kinds, its source and time, and none such is stored. |
| `Inventory.Manager.Ingest` | collector/internal/asset/manager.go:66-117 | The mutating call equals the specified ingestion over the repositories, with other writers creating, touching and moving assets between its lookup and its create. |
| `Inventory.Manager.Move` | collector/internal/api/assets.go:382-396 | The status change reads, moves and saves as specified. |
| `InventoryRuns.RunSound` | collector/internal/asset/manager.go:66-131 | Every run, error paths and races included, keeps id = id of (type, name), first <= last sighting, canonical names, and containment links between stored assets of rising layer. |
| `InventoryRuns.IdentityUnique` | collector/internal/store/memory.go:714-719 | In a sound inventory (type, name) is unique. |
| `InventoryRuns.RunEvolves` | collector/internal/asset/manager.go:66-131 | In a run of whole ingestions and status changes no asset disappears, changes identity or first sighting, leaves RETIRED or returns to DISCOVERED between any two moments. |
| `InventoryRuns.DecomposeFacts` | collector/internal/asset/discovery.go:190-258 | Decomposition yields normalized assets and only links owner to URL and URL to service among them. |
| `AssetReadings.AssetsMean` | collector/internal/asset/discovery.go:190-258 | What a URL yields: exactly the address, or else the domain, that its host is, and the service at its port, discovered at the same time in the same environment and marked as derived. |
| `AssetReadings.LinksMean` | collector/internal/asset/discovery.go:190-258 | Each derived asset is linked with the URL, once: owner above, service below. |
| `InventoryRuns.NoContainmentCycle` | collector/internal/asset/discovery.go:190-258 | The containment graph of every run is acyclic and no chain is longer than owner, URL, service. |
| `InventoryRuns.IngestOutcome` | collector/internal/asset/manager.go:66-131 | An ingestion succeeds exactly when clock and observation are good and either the asset is stored by then and the clock is not before its first sighting, or it is new and it and all assets derived from it pass the repository's checks. |
| `InventoryRuns.StableFirstIngestion` | collector/internal/asset/manager.go:66-117 | With parsers whose results are their own canonical form a first ingestion always completes. |
| `InventoryRuns.IngestFindsItsAsset` | collector/internal/asset/manager.go:66-131 | A successful ingestion answers the one stored asset of its canonical identity, whoever raced it; when it created the asset, that is stored as observed with all derived assets and links. |
| `InventoryRuns.DomainOwnsUrl` | collector/internal/asset/discovery.go:232-241 | A URL whose host is a domain name always yields that domain as its owner, linked above it. |
| `InventoryRuns.ReobservationOutcome` | collector/internal/asset/lifecycle.go:64-83 | A re-observation succeeds exactly when the clock is not before the first sighting; it then sets the last sighting to the clock (possibly backwards), makes all but retired assets ACTIVE, and adds neither assets nor links. |
| `InventoryRuns.MoveOutcome` | collector/internal/asset/lifecycle.go:41-62 | A status change succeeds exactly on a legal step with a clock that is set and not before the first sighting, and changes status and last sighting of that asset only. |
| `AssetReadings.MoveMeans` | collector/internal/asset/lifecycle.go:18-62 | The same with the legal steps written out: unspecified and discovered to active, active to stale, stale to active, and both to retired. |
| `InventoryRuns.StaleSaveRevives` | collector/internal/store/memory.go:723-745 | A retirement that lands between another writer's read and its save is lost. |
| `InventoryRaces.TouchLawful` | collector/internal/store/memory.go:723-745 | Saving a touched copy over the stored record is lawful exactly when the copy knows of a retirement the store knows. |
| `InventoryRaces.MoveLawful` | collector/internal/store/memory.go:723-745 | Saving a moved copy is lawful exactly when the store is not retired or the move retires it. |
| `InventoryRaces.RunGood` | collector/internal/api/assets.go:382-396 | Every interleaving of whole calls, reads and saves keeps the inventory sound, with identities and first sightings fixed and nothing rediscovered. |
| `InventoryRaces.RetiredAbsorbs` | collector/internal/api/assets.go:382-396 | RETIRED is absorbing in an interleaved run exactly when no save lands after a retirement its read has missed. |
| `InventoryRaces.RetirementLost` | collector/internal/api/assets.go:382-396 | There is a run in which one does. |
| `InventoryRaces.LastSeenGoesBack` | collector/internal/asset/lifecycle.go:64-83 | A run of three successful ingestions of one host after which its last sighting is earlier than after the second. |
| `SupplyChain.CompareVersions` | collector/internal/supplychain/dependency.go:178-216 | The parse and the loop compute the specified comparison, unevaluable on anything non-numeric. |
| `SupplyChain.CompareMeans` | collector/internal/supplychain/dependency.go:178-216 | The order is: equal exactly on equal component lists, smaller exactly on a proper prefix or a smaller first difference. |
| `SupplyChain.CompareAntisymmetric` | collector/internal/supplychain/dependency.go:178-216 | Swapping the arguments negates the result. |
| `SupplyChain.CompareTransitive` | collector/internal/supplychain/dependency.go:178-216 | The order is transitive, strictly where one side is strict. |
| `SupplyChain.EvaluatePolicy` | collector/internal/supplychain/dependency.go:221-296 | The mutable fold yields the verdict and the sorted reasons of all findings. |
| `SupplyChain.VerdictMeans` | collector/internal/supplychain/dependency.go:221-296 | The verdict is VIOLATION if any dimension is violated, else UNKNOWN if any cannot be evaluated, else OK, each dimension stated on its own. |
| `SupplyChain.VerdictOnFields` | collector/internal/supplychain/dependency.go:221-296 | The verdict on the fields of component and policy alone: which texts a list names, which component a prohibition hits, which version is below the minimum or cannot be told. |
| `SupplyChain.VersionReads` | collector/internal/supplychain/dependency.go:178-192 | A version in its usual notation is read as its numbers. |
| `SupplyChain.VersionRejects` | collector/internal/supplychain/dependency.go:178-192 | Whatever is read as a version is numerals joined by dots, one for each of its numbers, between white space. |
| `SupplyChain.UnreadDimensions` | collector/internal/supplychain/dependency.go:123-135 | Requiring an SBOM or listing approved repositories changes no finding of any component. |
| `SupplyChain.SbomUnenforced` | collector/internal/supplychain/dependency.go:221-296 | A policy that demands both finds nothing wrong with a component that has neither. |
| `SupplyChain.OnlyUnreadDimensions` | collector/internal/supplychain/dependency.go:221-296 | A policy that is empty but for them finds nothing in any component. |
| `SupplyChain.StricterNeverImproves` | collector/internal/supplychain/dependency.go:221-296 | Filling in empty dimensions never improves the verdict. |
| `SupplyChain.RaisedMinimumNeverImproves` | collector/internal/supplychain/dependency.go:255-263 | Raising a parsable minimum never improves the verdict and so removes no violation. |
| `Query.Execute` | collector/internal/monitor/query.go:43-110 | The filter loop, sort and truncation compute the specified rows or the specified error. |
| `Query.TopRows` | collector/internal/monitor/query.go:43-110 | Rows and rest together are exactly the events that no field of the query leaves out, rows are in order of time and id, none of the rest belongs before a row, and a rest exists only at the limit, 100 if none is given. |
| `Query.QueryFails` | collector/internal/monitor/query.go:43-66 | A query fails exactly on a limit outside 0 to 1000, an empty time range or an event without a time. |
| `Query.OrderOfInputIrrelevant` | collector/internal/monitor/query.go:43-110 | With unique ids the answer does not depend on the order of the input. |
| `Query.ExecuteHunt` | collector/internal/investigate/hunt.go:52-81 | The hunt's loop over the inner query's rows computes the specified rows. |
| `Query.HitMeans` | collector/internal/investigate/hunt.go:83-112 | An event is a hit exactly when it names the hunted principal and one of its texts holds the keyword up to case, where either may be left open. |
| `Query.HuntIsWhole` | collector/internal/investigate/hunt.go:52-81 | A hunt equals the query with the two hunt filters added exactly when the first 100 base rows hold as many hits as the limit or no later row is a hit. |
| `Query.SmallHuntIsWhole` | collector/internal/investigate/hunt.go:52-81 | In particular it does whenever at most 100 events match the base query. |
| `Query.HuntMisses` | collector/internal/investigate/hunt.go:58-60 | A hit behind 100 other base matches is never found, whatever limit was asked for. |
| `Query.HuntHappens` | collector/internal/investigate/hunt.go:52-80 | A hunt over 101 events, the last one a hit, that answers nothing. |
| `Base.SortedUnique` | collector/internal/monitor/query.go:92-105 | A sorted arrangement without ties is unique, so the answer of an unstable sort is determined. |

## Left out

- HTTP API, command line, user interface, configuration, authentication and the SQL backends: plumbing over the components
  modelled here.
- SHA-256 collisions and the truncation of ids to 16 hex digits: digests are injective, and the 64-digit check on an
  evidence digest is not modelled.
- Messages are values: the response engine's Approve and Execute return the stored message itself, which a caller could
  change afterwards; nil messages are not modelled.
- Mutexes: calls of one component interleave as whole calls, except where an ingestion races other writers and where a
  status change or touch reads and saves at different moments.
- Duration arithmetic does not saturate, and timestamp range checks are not modelled: times are unbounded integers.
- Case folding outside ASCII; lengths count characters, which are bytes for every identifier accepted as a domain.
- Parsing of addresses, URLs and host:port pairs, the canonical forms of those three types and their idempotence: they are
  functions given from outside. So is the source address a connection rule reads off its event.
- Canonical JSON rendering is a function that may fail; NaN confidences do not exist over `real`.
- Human text: titles, details, reasons and error texts are shortened; an error is its kind, so the inventory's match on
  the words "duplicate" and "not found" is a match on the kind. Latency metrics.
- Asset identifiers and criticality, which follow the name and are never updated.
- The remaining burst rules (denied network activity, HTTP, identity and infrastructure rules): the same window under other
  keys.
- Resolve, Health, Counts, RuleErrors and the listing methods of the stores: reads over states described here.
- Completeness of the stage chain while a chain is already open (with none open it is `StageChain.TimelineCompletes`), and
  progress after an expired approval or an executor error: the code does not promise them.
- Exit of the reader goroutine after a sink error, and a source that delivers events after reporting its end.
