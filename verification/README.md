# A verified model of Aegis-OS control, budget, audit and token logic

This project models, in Dafny, the stateful parts of Aegis-OS that exist to keep a promise across
retries, redeliveries, restarts and interleavings, and proves those promises for all inputs, all runs
or all reachable states.

| files | what they model |
|---|---|
| `DecimalContext` | Python's default decimal context by value: results rounded to 28 significant digits, ties to even |
| `BudgetLedger`, `BudgetTheorems` | budget sessions, the registry that updates them in place, and what it promises over whole runs |
| `BudgetActivities` | the budget activities, rebuilt from workflow-owned history on every delivery |
| `BudgetGate` | concurrent runs between the pre-LLM check and the debit of one session |
| `LoopDetection`, `LoopTheorems` | the loop detector, its checkpoints and the activity around it |
| `Strings`, `Timestamps`, `AuditSequencer` | string order, ISO-8601 timestamps, and the per-task sequencer of the audit logger |
| `ReplayStore`, `DpopProofs`, `SessionTokens` | expiring dictionaries, DPoP proof validation, token rotation and revocation |
| `ApprovalWorkflow`, `WorkflowTheorems`, `LifecycleTheorems` | the durable workflow with its approval gate, its audit trail, status query and output |
| `RunTheorems`, `ReachTheorems` | the order in which a run completes its activities, how it ends, and that its outcomes can be reached |
| `ApprovalClients`, `ApprovalReports` | the reviewers that query and signal the workflow, and what they are told |
| `OrchestratorPipeline`, `PipelineTheorems`, `PromptTheorems` | the orchestrator's stages, audit trace and error counters, and the text that reaches the adapter |
| `Prelude` | option and result types, sums over sets of keys |

Objects the code updates in place are classes whose methods are proved against functions on values;
the theorems are about those functions. Every lemma switches automatic induction off, so each proof is
the one written down.

Clocks, ids, LLM answers, policy verdicts, guardrail results, crashes and lost results are parameters
or events: every theorem holds for all of them. In the token and proof models one clock reading is made per
call, and the replay store sees the same reading as the proof checks.

## Where the code and its own documentation disagree

The model follows the code.

- `record_step` documents that a human-intervention step leaves the no-progress streak alone; the scan
  stops at such a step, so it resets the streak (`src/watchdog/loop_detector.py:193-194`, `364-376`).
  `LoopTheorems.HumanStepHidesALoop` is a run that never trips although the documented streak reached the
  limit; `LoopTheorems.StreakIsDocumentedIff` says exactly which histories agree with the documentation, and
  `LoopTheorems.HumanStepKeepsStreakIff` when one such step does.
- A history entry is documented to yield the exact per-token cost; the division rounds, so an entry may
  restore to another amount. `BudgetActivities.RedeliveryCanDrift` gives an input, and
  `BudgetActivities.RedeliveryIsStableIff` with `BudgetActivities.EntryRestoresIff` says exactly when it does not.
- `_span_stage` documents at least one audit event for any failing stage. A run stopped by a collaborator that
  raises a controlled type which its stage does not catch leaves none (`PipelineTheorems.AdapterCanFailSilently`);
  `PipelineTheorems.SilentIff` says that this is the only case, `PipelineTheorems.TwoRefusalsIff` when there are
  two, and `PipelineTheorems.FailuresAreAudited` gives the documented count otherwise.
- `approve` and `deny` return "the accepted decision". A later signal may overrule it
  (`ApprovalClients.ReportCanBeOverruled`), and one that arrives after the timeout is not stored at all
  (`ApprovalClients.ReportCanComeTooLate`). `ApprovalReports.ReportDecidesIff` says exactly when the reported
  decision is the one the gate resumes on, `ApprovalReports.ReportHoldsIff` when the outcome agrees with it.
- A used DPoP proof id is kept for the proof lifetime counted from its use, not from `iat`; a proof dated at
  or after its first use can be accepted again (`DpopProofs.SameProofTwice`, `DpopProofs.CanBeAcceptedAgainIff`;
  section 11.1 of RFC 9449).

## Model

| member | source | states |
|---|---|---|
| `DecimalContext.RoundIff` | src/watchdog/budget_enforcer.py:17-20 | decimal results are the nearest 28-digit number, ties to even: an independent characterisation of the rounding function |
| `DecimalContext.RoundFits` | src/watchdog/budget_enforcer.py:17-20 | every rounded result fits 28 digits, so rounding is idempotent |
| `DecimalContext.RoundNotBelow` | src/watchdog/budget_enforcer.py:221-221 | a sum never rounds to less than the representable cost it was added to |
| `DecimalContext.DivideThenMultiply` | src/watchdog/budget_enforcer.py:313-389 | dividing an unrounded price-times-tokens product by the tokens and multiplying back loses nothing |
| `DecimalContext.ThirdDoesNotComeBack` | src/watchdog/budget_enforcer.py:384-389 | a 28-digit price over three tokens for which divide-then-multiply does not return the amount |
| `Strings.Sorted` | src/watchdog/budget_enforcer.py:88-88 | the serialized id list is strictly increasing in code-point order and holds exactly the ids of the set |
| `BudgetLedger.BudgetEnforcer.CreateSession` | src/watchdog/budget_enforcer.py:147-187 | registers a fresh empty session under its id and leaves all others alone |
| `BudgetLedger.BudgetEnforcer.RecordSpend` | src/watchdog/budget_enforcer.py:189-244 | updates exactly one session as the ledger function says, missing session and breached cap included |
| `BudgetLedger.BudgetEnforcer.RecordTokens` | src/watchdog/budget_enforcer.py:276-314 | the same for token usage, which is not counted again on a redelivery |
| `BudgetLedger.BudgetEnforcer.Check` | src/watchdog/budget_enforcer.py:246-274 | refuses at or above the cap, changes nothing |
| `BudgetLedger.BudgetEnforcer.RestoreFromHistory` | src/watchdog/budget_enforcer.py:326-355 | replays into a newly registered session, stopping at the first raise, whatever the registry held before |
| `BudgetLedger.BudgetEnforcer.RestoreSession` | src/watchdog/budget_enforcer.py:316-324 | registers the deserialized session in place of any other under its id |
| `BudgetTheorems.RedeliveryIsInvisible` | src/watchdog/budget_enforcer.py:217-244 | any run with arbitrary redeliveries ends in the session its first deliveries alone would leave: cost, tokens, alerts and ids, under real rounding |
| `BudgetTheorems.RedeliveryNeverRaises` | src/watchdog/budget_enforcer.py:218-219 | a redelivered operation returns, even when its first delivery raised |
| `BudgetTheorems.TokensAreExact` | src/watchdog/budget_enforcer.py:307-314 | under any redelivery and any rounding the tokens are the exact sum over first occurrences and unkeyed calls, raising calls included |
| `BudgetTheorems.TotalsAreExact` | src/watchdog/budget_enforcer.py:217-314 | so is the cost, when the amounts share a unit and fit 28 digits of it |
| `BudgetTheorems.BreachesAreRecorded` | src/watchdog/budget_enforcer.py:217-274 | in any run a debit raises iff it is no redelivery and leaves the cost above the cap, a check iff the cost has reached it; the alerts are those of the raising debits, in order, with the cost each left |
| `BudgetTheorems.SnapshotIsTransparent` | src/watchdog/budget_enforcer.py:74-106 | a session restored from its snapshot answers every later run of calls as the uninterrupted one |
| `BudgetTheorems.RestoreRaisesIff` | src/watchdog/budget_enforcer.py:326-355 | rebuilding raises iff the total over distinct operations exceeds the cap, and otherwise rebuilds that total and the id set |
| `BudgetTheorems.ReplayCounts` | src/watchdog/budget_enforcer.py:326-355 | a replay that returns counted the tokens of each distinct operation once, and changed nothing but tokens, cost and ids |
| `BudgetTheorems.RestoreIgnoresOrderAndDuplicates` | src/watchdog/budget_enforcer.py:334-338 | two histories with the same entries, in any order and multiplicity, end alike and rebuild the same session in every field |
| `BudgetActivities.Activities.BudgetRecordSpend` | src/control_plane/scheduler.py:778-850 | the answer depends on input and operation id only, never on earlier registry contents; no other session is touched |
| `BudgetActivities.Activities.BudgetPreCheck` | src/control_plane/scheduler.py:726-776 | the same for the pre-check: a function of its input, no other session touched; the next rows say which |
| `BudgetActivities.PreCheckAnswersIff` | src/control_plane/scheduler.py:738-776 | the pre-check answers iff the total over distinct operations is strictly below the cap, and then shows that total, their tokens and their ids |
| `BudgetActivities.FirstPreCheck` | src/control_plane/scheduler.py:738-776 | on an empty history it answers iff the cap is positive, and shows nothing spent |
| `BudgetActivities.RecordNewAnswersIff` | src/control_plane/scheduler.py:798-831 | recording a new operation answers iff the history is within the cap and stays so with the rounded cost added; it shows the new totals and appends the entry to replay |
| `BudgetActivities.RecordAgainAnswersIff` | src/control_plane/scheduler.py:798-831 | recording an operation the history holds answers iff its total is within the cap, and changes nothing |
| `BudgetActivities.TaskIdIsRequired` | src/control_plane/scheduler.py:726-850 | without a task id neither activity answers, and that error means nothing else |
| `BudgetActivities.OperationIdsDiffer` | src/control_plane/scheduler.py:791-797 | operation ids tell activities of one workflow apart, and those of all workflows when activity ids hold no colon |
| `BudgetActivities.OperationIdsCanCollide` | src/control_plane/scheduler.py:791-797 | with a colon two workflows can share an operation id |
| `BudgetActivities.FirstRecord` | src/control_plane/scheduler.py:798-831 | on an empty ledger the activity answers iff rounded tokens times price is within the cap, and debits exactly that |
| `BudgetActivities.EntryRestoresIff` | src/watchdog/budget_enforcer.py:384-389 | a history entry restores to its amount iff the amount is nearest to tokens times the recovered price at the last of its 28 digits |
| `BudgetActivities.ZeroTokensRestoreNothing` | src/watchdog/budget_enforcer.py:384-389 | an entry without tokens restores to 0, so to its amount iff that is 0 |
| `BudgetActivities.ReturnedHistoryReplays` | src/control_plane/scheduler.py:811-831 | replaying the returned history rebuilds the returned snapshot in every field, when price and product fit the precision |
| `BudgetActivities.RedeliveryIsStable` | src/control_plane/scheduler.py:798-831 | redelivery with the returned history gives the same snapshot and history |
| `BudgetActivities.RedeliveryIsStableIff` | src/control_plane/scheduler.py:798-831 | without that hypothesis, redelivery is stable iff the operation was already recorded or the restored debit adds up to the same cost |
| `BudgetActivities.RedeliveryCanDrift` | src/control_plane/scheduler.py:811-820 | a concrete operation whose redelivery reports another spend |
| `BudgetActivities.AllDeliveriesAgree` | src/control_plane/scheduler.py:791-831 | any number of deliveries, each with the original or any returned history, give one and the same answer |
| `BudgetActivities.ChainReplays` | src/control_plane/scheduler.py:1538-1559 | the history a chain of activities writes replays to the session one live ledger would hold |
| `BudgetActivities.ChainTotalIsExact` | src/control_plane/scheduler.py:811-820 | such a history replays to the exact sum of price times tokens over distinct operations when products and sums fit |
| `BudgetGate.OverspendIsBounded` | src/control_plane/orchestrator.py:601-707 | with at most k runs between check and debit, spends in [0, m] and no debit rounded up, the cost stays strictly below cap + k·m in every interleaving, from any state that leaves room for the runs not in flight |
| `BudgetGate.SharedUnitIsNeverRounded` | src/watchdog/budget_enforcer.py:221-221 | amounts on one decimal unit with cap + k·m within 28 digits of it are never rounded, so every such interleaving is covered |
| `BudgetGate.ExhaustedStaysExhausted` | src/watchdog/budget_enforcer.py:261-274 | once the cap is reached every later check fails, the cost never falls, and no new run gets in flight, however amounts are rounded |
| `BudgetGate.TimesIsProduct` | src/control_plane/orchestrator.py:695-695 | the k·m of the bound is the product |
| `BudgetGate.BoundIsReached` | src/control_plane/orchestrator.py:601-707 | the bound cannot be improved: k overlapping runs that it covers do add k·m |
| `BudgetGate.RoundingCanBreakTheBound` | src/watchdog/budget_enforcer.py:221-221 | with a spend finer than 28 digits of the cost, one run alone exceeds cap + m from a safe state with every hypothesis but the one on rounding |
| `LoopDetection.LoopDetector.NoProgressStreak` | src/watchdog/loop_detector.py:364-376 | the backward scan returns the longest trailing run without progress, which is the incremental counter |
| `LoopDetection.LoopDetector.Record` | src/watchdog/loop_detector.py:179-288 | appends first, then checks velocity, human hold and streak; only the named context changes |
| `LoopDetection.LoopDetector.CreateContext` | src/watchdog/loop_detector.py:168-177 | registers an empty context |
| `LoopDetection.LoopDetector.TakeCheckpoint` | src/watchdog/loop_detector.py:294-321 | serializes the registered context, or reports that there is none |
| `LoopDetection.LoopDetector.Restore` | src/watchdog/loop_detector.py:323-351 | replaces the context of the checkpoint's session, or fails on an unknown signal and changes nothing |
| `LoopDetection.CheckpointRoundTrip` | src/watchdog/loop_detector.py:294-351 | restoring a checkpoint gives back the context it was taken from |
| `LoopDetection.LoopRecordStep` | src/control_plane/scheduler.py:852-954 | the activity is a function of its input, so redelivery cannot advance state; every error path is covered |
| `LoopTheorems.CheckpointShowsContext` | src/watchdog/loop_detector.py:294-321 | a checkpoint shows every field of the context and of each step, signals by their names |
| `LoopTheorems.VerdictsAreExact` | src/watchdog/loop_detector.py:220-288 | over any run, every outcome, both flags, the history and the token total are exactly the history predicates implied by velocity-first order |
| `LoopTheorems.StreakIsDocumentedIff` | src/watchdog/loop_detector.py:193-194 | the streak is at most the one documented, and equal iff no human-intervention step followed one without progress since the last progress |
| `LoopTheorems.HumanStepKeepsStreakIff` | src/watchdog/loop_detector.py:364-376 | a human-intervention step leaves the streak alone iff there is none |
| `LoopTheorems.HumanStepHidesALoop` | src/watchdog/loop_detector.py:364-376 | with a limit of two, a run without progress that is interrupted by such a step does not trip though the documented streak is two |
| `LoopTheorems.QuietRunsAreShort` | src/watchdog/loop_detector.py:268-288 | a run that never raised has at most (P+1)·max − 1 steps for P progress steps, and at most steps × max velocity tokens |
| `LoopTheorems.ChainIsLive` | src/control_plane/scheduler.py:865-954 | a chain of activities over checkpoints ends as one uninterrupted detector: same error, step count and tokens |
| `LoopTheorems.ActivityRefusesIff` | src/control_plane/scheduler.py:852-890 | the activity refuses without a task id, with a checkpoint holding an unknown signal, and with one of another session, in that order and in no other case |
| `LoopTheorems.ActivityReports` | src/control_plane/scheduler.py:865-954 | an activity at the end of a chain answers with the number of reports, their tokens and both flags down iff the verdict on the last report is to go on, and otherwise halts with that verdict and the same counts |
| `LoopTheorems.InterruptionsAreInvisible` | src/watchdog/loop_detector.py:323-332 | cutting a run into segments with checkpoint and restore after each, anywhere and any number of times, changes nothing |
| `Timestamps.DateOf` | src/audit_vault/logger.py:20-23 | the calendar date of a day is valid and its day number is that day |
| `Timestamps.FormatOrder` | src/audit_vault/logger.py:20-23 | lexicographic order on formatted timestamps is chronological order of the instants, and formatting is injective |
| `Timestamps.FormatReadsBack` | src/audit_vault/logger.py:20-23 | reading the fields of a formatted timestamp gives back the instant |
| `Timestamps.FormatIsIso` | src/audit_vault/logger.py:20-23 | every timestamp is punctuated YYYY-MM-DDThh:mm:ss.ffffffZ |
| `Timestamps.DaysBeforeYearInClosedForm` | src/audit_vault/logger.py:20-23 | the calendar's day count is the closed form of the Gregorian leap rule |
| `Timestamps.OffsetsAreSubtracted` | src/audit_vault/logger.py:20-23 | a reading ahead of UTC by its offset and the UTC reading are one instant; naive readings are UTC |
| `AuditSequencer.AuditLogger.ReserveMetadata` | src/audit_vault/logger.py:147-189 | reserves exactly as the sequencer function says; a refused override changes nothing |
| `AuditSequencer.LatestIsMaximum` | src/audit_vault/logger.py:171-188 | the running reading is the maximum of all readings so far |
| `AuditSequencer.TasksAreIndependent` | src/audit_vault/logger.py:91-97 | for every interleaving a trail is the one its own requests alone would produce |
| `AuditSequencer.TrailIsExpected` | src/audit_vault/logger.py:163-189 | events carry the running maximum, a late clock reading takes a warning directly before its event, a late override is refused |
| `AuditSequencer.TrailsAreSequenced` | src/audit_vault/logger.py:240-244 | numbers are 0..n−1 without gap or repeat, warnings included, and times never go back along them |
| `AuditSequencer.SortingRecoversTheTrail` | src/audit_vault/logger.py:246-276 | whatever order records are emitted in, sorting by number gives back the reservation order, and timestamps are then in string order |
| `ReplayStore.Purge` | src/governance/session_mgr.py:586-590 | the purge loop leaves exactly the entries that have not expired |
| `ReplayStore.InMemoryStore.RegisterIfUnused` | src/governance/replay_store.py:42-50 | purges, then registers the id unless it is still held |
| `ReplayStore.AcceptedIffNotBlocked` | src/governance/replay_store.py:42-50 | over any run an id is accepted iff no earlier accepted registration of it is still within its lifetime |
| `DpopProofs.ValidateDpopProof` | src/governance/session_mgr.py:440-503 | the method answers and updates the replay store as the value function that the next rows characterise |
| `DpopProofs.AcceptedIff` | src/governance/session_mgr.py:440-503 | accepted iff readable, of type dpop+jwt, with a supported key, verified, with claims that match method up to case, URL, required nonce and required token hash, in the window, and with an id not held |
| `DpopProofs.AnswerIsFirstUnmet` | src/governance/session_mgr.py:440-503 | the error is that of the first unmet requirement in the order of checks; acceptance holds the id for the lifetime |
| `DpopProofs.AcceptedInRunIff` | src/governance/session_mgr.py:440-503 | in any run a proof is accepted iff it meets all that and no proof with its id was accepted within the lifetime before |
| `DpopProofs.RejectionConsumesNothing` | src/governance/session_mgr.py:484-503 | a failed check leaves the store untouched; a replay only lets expired entries go |
| `DpopProofs.AcceptancesAreApart` | src/governance/session_mgr.py:497-503 | in any run two acceptances of one id are at least ttl apart |
| `DpopProofs.AcceptanceIsInWindow` | src/governance/session_mgr.py:484-487 | every acceptance lies in [iat − skew, iat + ttl] |
| `DpopProofs.AcceptancesAreFew` | src/governance/session_mgr.py:484-503 | one proof is accepted at most 1 + ⌊(ttl+skew)/ttl⌋ times, and once if it was issued before its first acceptance |
| `DpopProofs.CanBeAcceptedAgainIff` | src/governance/session_mgr.py:484-503 | an accepted proof can be accepted again iff its iat is not before the acceptance |
| `DpopProofs.SameProofTwice` | src/governance/session_mgr.py:497-503 | one proof accepted, refused a second before its lifetime ends, and accepted again when it ends |
| `SessionTokens.SessionManager.IssueToken` | src/governance/session_mgr.py:297-346 | purges, revokes the key's previous token, signs, indexes; a failed signing leaves the revocation in place |
| `SessionTokens.IssueAnswers` | src/governance/session_mgr.py:297-346 | refused iff unidentified or unsigned; otherwise the token carries the drawn id, the confirmation key and the text issued for, and runs out after the lifetime asked for or the default |
| `SessionTokens.SessionManager.Validate` | src/governance/session_mgr.py:376-406 | signature, expiry, purge and revocation in the code's order |
| `SessionTokens.ValidatedIff` | src/governance/session_mgr.py:376-406 | accepted iff genuine, not past exp and not held on the revocation list; each error iff it is the first of these to fail |
| `SessionTokens.SessionManager.IsRevoked` | src/governance/session_mgr.py:562-565 | purges and answers membership |
| `SessionTokens.SessionManager.Revoke` | src/governance/session_mgr.py:557-560 | lists the id until the given expiry or for the default lifetime |
| `SessionTokens.RevocationLasts` | src/governance/session_mgr.py:557-565 | a revoked id is held until its expiry, or for the default lifetime, and no longer |
| `SessionTokens.SessionManager.ValidateSenderConstrained` | src/governance/session_mgr.py:505-543 | accepts iff the token is genuine, unexpired and unrevoked, bound to the proof's key, and the proof is sound for the request with the hash of this very token and unused; errors in the code's order; only a proof that passed its checks touches the replay store |
| `SessionTokens.AcceptedIffNotWithdrawn` | src/governance/session_mgr.py:315-346 | the dictionaries agree with the history: a token that an issue of the run returned is, before its exp, accepted iff no later issue under its key, successful or not, and no revocation withdrew it |
| `SessionTokens.AtMostOneAccepted` | src/governance/session_mgr.py:322-345 | of the tokens a run returned under one rotation key at most one that has not run out is accepted at any instant, the last |
| `SessionTokens.RetryRetiresEarlierTokens` | src/control_plane/scheduler.py:1044-1052 | each LLM retry retires every token issued before under the key, even when the new token is never signed |
| `ApprovalWorkflow.AgentTaskWorkflow.Approve` | src/control_plane/scheduler.py:1319-1323 | stores the payload only while awaiting |
| `ApprovalWorkflow.AgentTaskWorkflow.Deny` | src/control_plane/scheduler.py:1325-1329 | the same; the decision is in the payload |
| `ApprovalWorkflow.AgentTaskWorkflow.Begin` | src/control_plane/scheduler.py:1363-1379 | the first step of a run |
| `ApprovalWorkflow.AgentTaskWorkflow.EnterGate` | src/control_plane/scheduler.py:1609-1614 | entering the gate sets state, status and pending time together |
| `ApprovalWorkflow.AgentTaskWorkflow.TryActivity` | src/control_plane/scheduler.py:1373-1607 | one attempt of the awaited activity, with or without its audit event, and the code up to the next await if its answer arrives |
| `ApprovalWorkflow.AgentTaskWorkflow.Continue` | src/control_plane/scheduler.py:1382-1607 | the body of `run` between two awaits, for every activity |
| `ApprovalWorkflow.AgentTaskWorkflow.ActivityGivesUp` | src/control_plane/scheduler.py:1484-1536 | giving up on the LLM fails or escalates by cause; on any other activity it ends the run |
| `ApprovalWorkflow.AgentTaskWorkflow.Wake` | src/control_plane/scheduler.py:1663-1671 | resuming on a stored signal |
| `ApprovalWorkflow.AgentTaskWorkflow.WakeOnTimeout` | src/control_plane/scheduler.py:1637-1640 | resuming on the timeout, signal or not |
| `WorkflowTheorems.LlmIsGated` | src/control_plane/scheduler.py:1373-1483 | in every run an LLM attempt comes only after scrub, policy and token completed in order and, above 50.00, after the gate resumed on an approving payload delivered while awaiting |
| `WorkflowTheorems.OutcomeIsLastPayload` | src/control_plane/scheduler.py:1609-1695 | approved and denied equal the last payload delivered between entering the gate and resuming |
| `WorkflowTheorems.ApprovalOnlyMovesForward` | src/control_plane/scheduler.py:1609-1695 | approval moves only not-required → awaiting → one final state, which is absorbing |
| `WorkflowTheorems.UnheardSignalsAreInert` | src/control_plane/scheduler.py:1319-1329 | deleting every signal outside the window from a run changes no state, audit event or log entry |
| `LifecycleTheorems.TrailIsLegal` | src/control_plane/scheduler.py:1044-1080 | every lifecycle trail is a prefix of STARTED+ (PENDING+ (APPROVED+ or DENIED+))? RETRIED* (COMPLETED+ or FAILED+)?, nothing after DENIED, retry counts growing and at most 4, COMPLETED reporting the last of them or 0 |
| `LifecycleTheorems.LlmAttemptsAreFew` | src/control_plane/scheduler.py:416-426 | no run makes more than five LLM attempts, however activities fail and are retried |
| `LifecycleTheorems.PendingIffAwaiting` | src/control_plane/scheduler.py:1309-1341 | pending_since is set iff awaiting, and awaiting shows as human intervention |
| `LifecycleTheorems.StatusTellsTheGate` | src/control_plane/scheduler.py:1331-1341 | the query shows a pending approval iff the gate was entered and has neither resumed nor timed out, then since the clock reading of that entry; it shows the task's identity iff the run has started |
| `LifecycleTheorems.OutputsAreAccounted` | src/control_plane/scheduler.py:1420-1607 | a completed output passed the gate and spent exactly tokens × price within the cap despite retries; any other output had no LLM attempt, no tokens, no content, no spend, and names its reviewer or the timeout |
| `LifecycleTheorems.LlmResultWasGiven` | src/control_plane/scheduler.py:1161-1167 | tokens and retries accounted for are those of the attempt that answered |
| `LifecycleTheorems.ContentWasSanitized` | src/control_plane/scheduler.py:1561-1607 | completed content is what the post-sanitizer returned |
| `RunTheorems.ActivitiesAreInOrder` | src/control_plane/scheduler.py:1373-1607 | in every run activities complete in the documented order and none is skipped: stages, above 50.00 announcement and decision, with a budget its check, LLM, with a budget the debit, post-sanitizer |
| `RunTheorems.LlmComesAfterChecks` | src/control_plane/scheduler.py:1437-1483 | every LLM attempt comes after all of that; with a budget an earlier event completed the awaited pre-check and the cap is positive |
| `RunTheorems.StatusIsExact` | src/control_plane/scheduler.py:1363-1695 | the status is the one of the point the run has reached, and an output carries it |
| `RunTheorems.ErrorsAreExplained` | src/control_plane/scheduler.py:1484-1536 | a run raises only after an activity gave up: a refusal with the cause the LLM call gave up for, an escalation for any other cause, the failure itself for another activity |
| `RunTheorems.GivingUpIsFinal` | src/control_plane/scheduler.py:1484-1536 | once an activity has been given up on, no continuation returns |
| `RunTheorems.AttemptsFollowPolicy` | src/control_plane/scheduler.py:1373-1607 | five attempts for the LLM, one for policy and budget check, three for all others, each used before no more are made |
| `RunTheorems.CompletedIsAnnounced` | src/control_plane/scheduler.py:1044-1080 | each completed activity has left its lifecycle event in the trail, however often attempts crashed |
| `RunTheorems.NamelessTasksGetNowhere` | src/control_plane/scheduler.py:1373-1380 | a task without an id completes no stage, announces nothing and calls nothing |
| `ReachTheorems.TasksCanComplete` | src/control_plane/scheduler.py:1373-1607 | a task that is approved if need be and that its budget can pay for has a run that completes with the sanitized reply, its tokens and their price |
| `ReachTheorems.Decides` | src/control_plane/scheduler.py:1609-1695 | above 50.00 each decision has a run that acts on it; a denial returns the reviewer and the reason |
| `ReachTheorems.TimesOut` | src/control_plane/scheduler.py:1632-1660 | and one that times out |
| `ApprovalClients.ClientsRunTheWorkflow` | src/control_plane/approval_service.py:78-138 | any number of concurrent query-then-signal clients amounts to one run of the workflow |
| `ApprovalClients.DecisionsComeFromReviewers` | src/control_plane/approval_service.py:110-138 | the payload a decision rests on was sent by a client that had seen the approval pending and was told it was accepted |
| `ApprovalClients.LastWordWins` | src/control_plane/scheduler.py:1632-1671 | once a payload is stored and no other follows, only it can decide |
| `ApprovalClients.ReportCanBeOverruled` | src/control_plane/approval_service.py:110-138 | two reviewers are both told their decision was accepted while only the later one counts |
| `ApprovalClients.ReportCanComeTooLate` | src/control_plane/approval_service.py:110-138 | a reviewer is told so although the gate had timed out and nothing was stored |
| `ApprovalReports.ReportDecidesIff` | src/control_plane/approval_service.py:78-138 | in every run, a reported decision is the one the gate resumes on iff the gate was open when it arrived and later resumed with no other decision heard in between; then the approval shows it |
| `ApprovalReports.ReportHoldsIff` | src/control_plane/approval_service.py:78-138 | the outcome agrees with a reported decision iff the last decision heard before the gate resumed has the same verdict |
| `ApprovalReports.OutcomeIsSettled` | src/control_plane/scheduler.py:1632-1671 | approved and denied always come from such a last heard delivery |
| `ApprovalReports.ClientsAreTold` | src/control_plane/approval_service.py:66-138 | each call is told what it met: not found if unreachable or already ended, a conflict with the state its query showed if not pending, and otherwise that its own decision was accepted |
| `OrchestratorPipeline.Orchestrator.PreSanitize` | src/control_plane/orchestrator.py:338-359 | stage 1 inside its span: what it adds to trace, counters and adapter calls |
| `OrchestratorPipeline.Orchestrator.EvaluatePolicy` | src/control_plane/orchestrator.py:364-422 | stage 2, failing closed |
| `OrchestratorPipeline.Orchestrator.ApplyMask` | src/control_plane/orchestrator.py:427-451 | the mask stage: one more scrub per prompt field, types merged without repeats |
| `OrchestratorPipeline.Orchestrator.MergeTypes` | src/control_plane/orchestrator.py:440-443 | the merge loop appends exactly the types not seen yet, in order |
| `OrchestratorPipeline.Orchestrator.FindToken` | src/control_plane/orchestrator.py:464-549 | supplied tokens are refused when expired, revoked or of another agent type, in that order; otherwise one is issued |
| `OrchestratorPipeline.Orchestrator.ObtainToken` | src/control_plane/orchestrator.py:456-594 | stage 3 with every refusal path and the protected flow |
| `OrchestratorPipeline.Orchestrator.CheckBudget` | src/control_plane/orchestrator.py:601-633 | the pre-LLM budget guard |
| `OrchestratorPipeline.Orchestrator.Complete` | src/control_plane/orchestrator.py:640-675 | the single adapter call |
| `OrchestratorPipeline.Orchestrator.RecordSpend` | src/control_plane/orchestrator.py:683-714 | the debit |
| `OrchestratorPipeline.Orchestrator.RecordStep` | src/control_plane/orchestrator.py:723-782 | the loop detector step |
| `OrchestratorPipeline.Orchestrator.PostSanitizeOutput` | src/control_plane/orchestrator.py:787-807 | stage 5 |
| `OrchestratorPipeline.Orchestrator.Leave` | src/control_plane/orchestrator.py:244-260 | an exception leaving a span raises its counter once and adds an error event unless controlled |
| `OrchestratorPipeline.Orchestrator.Run` | src/control_plane/orchestrator.py:300-826 | the whole run adds exactly what its stages add and returns the sanitized prompt and the masked reply of the adapter to that prompt |
| `PipelineTheorems.DocumentedSequence` | src/control_plane/orchestrator.py:17-23 | the documented trace spelled out stage by stage |
| `PipelineTheorems.ScriptIsOfStages` | src/control_plane/orchestrator.py:323-826 | the points at which a run can stop, listed from request and environment, are those of the stages that run, in order |
| `PipelineTheorems.TraceIsDocumented` | src/control_plane/orchestrator.py:323-826 | the trail, event by event, is that of the script; a run that nothing stops leaves exactly the documented trace; a stopped one raises what its first stop says, raises that stage's counter once and leaves a proper prefix of the trace followed by that stop's own refusal and error events |
| `PipelineTheorems.AdapterIsGoverned` | src/control_plane/orchestrator.py:268-274 | the adapter is reached iff every check before it passed, spelled out over the collaborators' answers |
| `PromptTheorems.AdapterSeesTheScrubbedPrompt` | src/control_plane/orchestrator.py:427-451 | what reaches the adapter is the masked prompt scrubbed once more for each prompt field of a mask instruction; the reported types are those of the first mask and then each new one where first seen |
| `PromptTheorems.MergeKeepsFirstSeen` | src/control_plane/orchestrator.py:440-443 | merging appends exactly the types seen neither before nor in the list so far, in order |
| `PromptTheorems.SanitizingFailsInChain` | src/control_plane/orchestrator.py:427-451 | sanitizing fails only with the exception of the mask or of a scrub of that chain |
| `PromptTheorems.ContentIsTheAnswer` | src/control_plane/orchestrator.py:640-807 | what is post-sanitized is the reply to the very prompt that was sent |
| `PipelineTheorems.RefusalsOfRun` | src/control_plane/orchestrator.py:198-260 | a run fails iff something in its script stops it, and the deny and error events in its trace are those of that first stop |
| `PipelineTheorems.SilentIff` | src/control_plane/orchestrator.py:198-260 | a failing run leaves no deny or error event iff what stopped it is a collaborator raising a controlled type that its stage does not catch |
| `PipelineTheorems.TwoRefusalsIff` | src/control_plane/orchestrator.py:480-489 | a run leaves two deny or error events iff it got to check a supplied token and was told that it was revoked |
| `PipelineTheorems.FailuresAreAudited` | src/control_plane/orchestrator.py:198-260 | when no collaborator raises a controlled type uncaught, every failing run leaves exactly one deny or error event, and two on the revoked path |
| `PipelineTheorems.AdapterCanFailSilently` | src/control_plane/orchestrator.py:198-207 | an adapter raising a policy denial ends the run with no refusing event |

## Left out

- LLM adapters, OPA client, worker, HTTP router, startup and demo script: represented by arbitrary answers and failures.
- Guardrails internals: masking, scrubbing and injection detection are arbitrary functions.
- JWT, ES256, SHA-256, Fernet, Redis and base64 helpers: tokens and proofs are the claims they decode to and whether they verify.
- Sub-second rounding of `exp` by the JWT library: token results are stated for instants before `exp`.
- Decimal exponents, NaN, infinities and exponent limits; the textual form of decimals, UUIDs and alert messages in snapshots: values stand for them.
- Metrics, OpenTelemetry spans and the clock-skew length in milliseconds.
- `AgentScheduler`, `ComplianceReporter`, configuration loading, the pending-approval gauge, `list_pending_snapshots`: simple bookkeeping.
- Audit events without an `event_type`, which bypass the sequencer, and PII type merging in the workflow output.
- Merging of sanitized prompts through the workflow: stage answers other than the LLM reply and the sanitized content carry no text.
- Timestamps past year 9999, where `astimezone` raises.
- BudgetTheorems.TotalsAreExact: assumes amounts on one decimal unit within 28 digits, because decimal addition rounds beyond that; `BudgetTheorems.RedeliveryIsInvisible` needs no such assumption.
- DpopProofs.AcceptedIff: method names are compared ignoring the case of ASCII letters only.
- BudgetActivities.PreCheckAnswersIff: like the two lemmas on recording, assumes of the history what `BudgetTheorems.RestoreRaisesIff` does.
- BudgetTheorems.RestoreRaisesIff: assumes agreeing duplicates, non-negative amounts and sums within the precision, because otherwise order matters.
- BudgetActivities.RedeliveryIsStable: assumes price and product fit 28 digits; the exact condition is `BudgetActivities.RedeliveryIsStableIff`.
- BudgetGate.OverspendIsBounded: assumes that no debit is rounded up; `BudgetGate.SharedUnitIsNeverRounded` says when that is sure and `BudgetGate.RoundingCanBreakTheBound` why it is needed.
- SessionTokens.AcceptedIffNotWithdrawn: assumes new ids, a clock that does not go back, lifetimes up to the default and no revocation that ends before the token does.
- DpopProofs.AcceptancesAreFew: assumes a positive lifetime and a non-negative skew.
