# Verification model of the ARIV recovery engine

This project models the decision and execution core of ARIV, a payment-recovery backend, and proves
properties of the model.

**The durable execution protocol** is the main part. `Protocol` is a transition system over a committed
database (cases, classifications, decisions, actions with their outbox rows and attempts, outcomes,
provider events), any number of pollers with one in-flight transaction each, a payment provider that no
rollback reaches, the kill switch, the attribution window and a clock. Its steps are the decision cycle of a
failure event, claim, execute, commit, crash, the gateway's payment-link tool, acceptance of a provider event
and a paid webhook. What the outside world answers (provider replies and exceptions, links created behind an
error, the queries behind a webhook, whether a commit is lost) is part of the step's label, so a theorem about
all runs holds whatever it answers.

| layer | modules |
|---|---|
| one execution as a function of the rows it reads | `Execution`, `Ingestion`, `Recovery`, `Policy` |
| the same operations on row objects, in the source's step-by-step form | `Worker`, `Webhook`, `Recovery.Ledger`, `Poller` |
| what one execution guarantees | `ExecutionLaws` |
| the transition system, its inductive invariant and its preservation | `Protocol`, `ProtocolInvariant`, `ProtocolSteps`, `ProtocolCommit`, `ProtocolLocal`, `ProtocolCreation`, `ProtocolWebhook`, `ProtocolRuns` |
| theorems over all reachable states and runs | `ProtocolTheorems`, `ProtocolLease`, `ProtocolLinks`, `ProtocolLinkCount`, `ProtocolDrain`, `ProtocolClosing`, `ProtocolRevenue`, `ProtocolRepeats`, `ProtocolExperiments` |
| runs that reach what the theorems speak about | `ProtocolWitness`, `ProtocolExhibits` |
| the knowledge outbox, a second claim protocol | `KnowledgeOutbox`, `KnowledgeStarvation`, `KnowledgeWorker` |
| event deduplication | `WebhookGate` |
| the decision pipeline | `DecisionPipeline`, `Ranking`, `StableSort`, `RouteAware` |
| the WAIT model | `CorridorChain`, `WaitModel` |
| stores and benchmark arithmetic | `Learning`, `RouteHealth`, `Calibration`, `Oracle` |
| helpers | `Domain`, `Numbers`, `Text`, `Sums` |

`Execution.Process` and its neighbours are the specification functions: the methods of `Worker` and `Webhook`
change row objects as the source does and are proved equal to them, and the protocol's steps are built from
them. History fields (`Row.raises`, `Case.recoveredBy`, `Outcome.evidence`, `Event.credits`, `Entry.triggers`,
`State.calls`, `State.undone`, `State.links`, `SignalBuffer.log`, `RecoveryLearningService.log`) record what happened
and influence no step, with one exception: `links` is the provider's own store, keyed by idempotency key.

The main results over all runs:

- of the links whose actions are on file, a case has at most one and a payroll case none
  (`ProtocolLinks.OneLinkPerCase`); counting also the links of actions that were rolled back with their
  transaction, a case has at most one more for each such call (`ProtocolLinkCount.LinksOfACase`). That each action
  has one link rests on the provider's deduplication by key; what the engine contributes is that every call for an
  action uses one key and that calls are not repeated at will (next item);
- every call to the provider was authorized when it was made, and a repeated call follows only a call that
  raised or was rolled back, under the same key;
- of the sixteen preflight checks only five can decide in a reachable state, one of them only after a
  reclassification (`ProtocolTheorems.PreflightIsTheGate`);
- a lease protects its row for its length and no longer (`ProtocolLease.LeaseProtects`), and an outbox row is
  COMPLETED exactly when an attempt succeeded (`ProtocolTheorems.CompletedIffSucceeded`);
- nothing is recovered without a payload that says paid or an answer that did
  (`ProtocolRevenue.RecoveredCaseHasProof`, `ProtocolWebhook.UnpaidChangesNothing`);
- recovered amounts add up to what credited webhooks and paid answers state, each counted once
  (`ProtocolRevenue.RecoveredTotalIsConfirmed`);
- an open row that nobody holds can be closed by the pollers alone exactly when it has budget left and either the
  gate would refuse it or its amount is positive; when customers may pay, budget alone decides
  (`ProtocolClosing.ClosableByPollingIff`, `ProtocolClosing.ClosableWithoutSwitchIff`);
- a pending knowledge entry behind `i` up-to-date completed ones can be claimed by drainers of a given limit exactly
  when `i` is less than limit times the number of sessions open at a time (`KnowledgeStarvation.ClaimableIff`).

## Where the code differs from what it says

- app/worker.py:36-42 says that an action left UNKNOWN is reconciled by the poller. A row left open by a
  retriable failure or an unclear answer has an action that is no longer executable, and its next execution
  closes it as superseded without a call (`ExecutionLaws.OpenAfterAnswerCloses`).
- The claim query's comment promises stale lease recovery. A row whose last permitted claim raised stays
  CLAIMED for ever (`ProtocolDrain.SpentForever`, reached by `ProtocolExhibits.ThreeRaisesStrand`).
- SUCCEEDED is not final for an action (`ProtocolTheorems.PaidBeforeDispatchIsSuperseded`, reached by
  `ProtocolExhibits.PaidBeforeDispatch`), and a RECOVERED case need not have a recovered outcome
  (`ProtocolRevenue.CaseAndOutcomeMayDisagree`, reached by `ProtocolExhibits.RecoveredWithFailedOutcome`).
- The gateway commits only when a link came with a url (app/services/mcp_gateway.py:646-652). A call whose action is
  not committed leaves a link behind, and the next call makes a second one under a new key
  (`ProtocolExhibits.TwoLinksForOneCase`).
- Recording an outcome is documented as idempotent by action or provider resource (app/services/recovery.py:51-54).
  The code looks for the action only, so the second of two events for one payment files a further recovered outcome
  exactly when the case has no action on file (`ProtocolRepeats.RepeatedPaymentCountsTwiceIff`, reached by
  `ProtocolExhibits.OnePaymentCountedTwice`).
- The outcome status NO_RECOVERY is never used (`Recovery.NewOutcome`).
- The counterfactual estimate of app/services/baseline.py:65-69 is five per cent of an amount in major units and is
  subtracted from recovered amounts in minor units (app/services/recovery.py:267), so it is a hundredth of what it is
  documented as (`Recovery.EstimateIsAHundredthOfFivePercent`).
- Up-to-date COMPLETED knowledge entries use up the claim query's limit before the second filter discards them. A
  single drainer never reaches a pending entry behind `limit` of them; overlapping sessions do, because discarded
  entries stay locked until their session ends (`KnowledgeStarvation.ClaimableIff`,
  `KnowledgeStarvation.OverlapReachesPast`, `KnowledgeStarvation.StarvationHappens`).
- The lease branch of the knowledge outbox's filters never applies: a session finishes what it claims, so no
  committed entry is CLAIMED (`KnowledgeOutbox.NothingLeftClaimed`).
- The failure-rate thresholds of the route analyser never decide, because the score's lie below them
  (`RouteHealth.RateThresholdsNeverDecide`).
- The ranking charges cost and risk to every candidate alike, so apart from rounding they never change the choice
  (`Ranking.ChargesNeverReorder`).
- The ranking is documented as independent of candidate order. It is, unless WAIT and RETRY_NOW tie
  (`Ranking.OrderNeutralIffNoTie`).
- The WAIT model reads the route analyser's OPERATIONAL as DEGRADED (`WaitModel.OperationalRoutesMayWait`).
- An event whose insert failed keeps its Redis lock, so redeliveries are dropped while the lock lives
  (`WebhookGate.FailedInsertBlocksRetries`).
- The benchmark charges fraud risk differently to the oracle and to a strategy, so regret does not account for the
  difference on fraud blocks (`Oracle.FraudBalancesIff`).

## Model

| member | source | states |
|---|---|---|
| `Policy.EligibilityVersusPolicy` | app/services/candidate_generator.py:24-45 | what the generator admits the policy never rejects; the converse fails exactly for an immediate B2B retry on an unhealthy route outside NON_RETRIABLE |
| `Policy.HealthOnlyRestricts` | app/services/policy.py:27-61 | an approval stands when the route health is dropped, as preflight does |
| `Policy.LinkApprovedIffNotPayroll` | app/services/policy.py:27-61 | a payment link is approved exactly outside payroll |
| `Policy.AutonomyFollowsVerdict` | app/services/policy.py:27-61 | verdict and autonomy determine each other; review is for B2B retries only |
| `Policy.RejectedIff` | app/services/policy.py:27-61 | exactly what is rejected: retries of non-retriable failures, payroll links, and immediate retries on unhealthy routes that are not business-to-business |
| `Policy.BaselineByAction` | app/services/baseline.py:13-34 | for each action exactly the situations in which it is the baseline |
| `Policy.BaselineEligibleIff` | app/services/baseline.py:13-34 | the baseline action is eligible except for two named situations |
| `Recovery.NewOutcome` | app/services/recovery.py:65-160 | recovered iff the provider succeeded; partial iff less than the case; attribution iff inside the window; no amount unless recovered; NO_RECOVERY never |
| `Recovery.NewMeasurement` | app/services/recovery.py:225-285 | treatment and control make up the recovery; control iff an active experiment holds the case out; the increment is what treatment exceeds the estimate by, never negative |
| `Recovery.AllocationIsMonotone` | app/services/recovery.py:352-393 | raising the allocation moves exactly the buckets in between, and only into treatment |
| `Recovery.BaselineStopsIff` | app/services/baseline.py:46-67 | where the counterfactual baseline stops, with the defaults for a missing category and retryability |
| `Recovery.EstimateIsAHundredthOfFivePercent` | app/services/baseline.py:65-69 | the counterfactual estimate is nothing where the baseline stops and otherwise one hundredth of five per cent of the case amount in minor units |
| `Recovery.Ledger.RecordOutcome` | app/services/recovery.py:41-198 | the first outcome of an action wins; only its entry changes |
| `Recovery.Ledger.CreateMeasurement` | app/services/recovery.py:200-300 | one measurement per outcome; held out iff an active experiment says so; nothing else changes |
| `Execution.TransitionsMoveForward` | app/domain/state_machine.py:9-41 | exactly the forward transitions are accepted, except that an open case is assessed before it awaits approval or fails; one version bump; terminal statuses accept none |
| `Worker.CaseRow.TransitionTo` | app/domain/state_machine.py:22-41 | the method on the row object is the transition function, and a refusal changes nothing |
| `Worker.CreateAuthorizedAction` | app/services/outbox.py:34-91 | an authorized action with its pending outbox row, budget three |
| `Worker.SelectClaimable` | app/services/outbox.py:112-133 | exactly the oldest unlocked claimable rows up to the batch size, in order |
| `Worker.OldestFirst` | app/services/outbox.py:125-130 | no claimable free row is passed over for a younger one |
| `Worker.ClaimPendingItems` | app/services/outbox.py:94-150 | exactly the selected rows are claimed with lease and attempt count; all others are untouched |
| `Worker.Preflight` | app/services/execution_worker.py:71-230 | the early returns compute the verdict function |
| `Worker.ReconcileAction` | app/services/reconciliation.py:47-160 | attempt, action and outbox end as the reconciliation function says, or the call raised |
| `Worker.HandleSuccess` | app/services/execution_worker.py:415-523 | paid answers recover the case and file the outcome, others leave it waiting |
| `Worker.HandleFailure` | app/services/execution_worker.py:525-569 | the row closes only on a final failure or a spent budget |
| `Worker.HandleUnknown` | app/services/execution_worker.py:571-607 | recorded as unknown, then reconciled |
| `Worker.ProcessOutboxItem` | app/services/execution_worker.py:251-621 | the whole execution on row objects equals `Execution.Process`, including the missing action |
| `Webhook.CreditPayment` | app/services/ingestion.py:228-300 | the handler's writes equal `Ingestion.CaseAfter`, `RowAfter` and `RecordedAfter` |
| `ExecutionLaws.ClaimMakesReady` | app/services/outbox.py:113-146 | claiming keeps the books and uses one unit of the budget |
| `ExecutionLaws.ProcessKeepsBooks` | app/services/execution_worker.py:305-621 | identity, earlier attempts and outcome untouched; at most one new attempt under a fresh number; an action stays executable only when the execution raised |
| `ExecutionLaws.OpenAfterAnswerCloses` | app/services/execution_worker.py:118-123 | a row left open by an answer is closed without a call by its next execution |
| `ExecutionLaws.RefusalFailsTheRow` | app/services/execution_worker.py:300-343 | an execution makes no call and does not raise iff authorization or adapter is missing; it leaves the row FAILED, the action SUPERSEDED or CANCELLED, and everything else alone |
| `ExecutionLaws.UnclassifiedIsUnknown` | app/services/execution_worker.py:141-149 | a case without a classification is gated as one of an unknown category |
| `ExecutionLaws.CalledIffAuthorized` | app/services/execution_worker.py:101-230 | the provider is called exactly under the full authorization and a positive amount |
| `ExecutionLaws.WhatACallDecides` | app/services/execution_worker.py:400-621 | action, row and case after a call, exactly, from what the provider said |
| `ExecutionLaws.WhatACallRecords` | app/services/execution_worker.py:344-422 | one attempt, with request id, time and a status that follows the last word of the provider; the dispatch time exactly on a yes |
| `ExecutionLaws.CaseAfterACall` | app/services/execution_worker.py:424-508 | the case is RECOVERED iff the link was reported paid or captured, waiting iff it was reported open, with a url iff the answer had one |
| `ExecutionLaws.WhatACallFiles` | app/services/execution_worker.py:449-590 | which answered calls file an outcome, with which status, amount and window, and which of them a measurement |
| `ExecutionLaws.ProcessAndCase` | app/services/execution_worker.py:428-498 | an execution moves a case only to RECOVERED, on a paid attempt on file |
| `ExecutionLaws.ProcessFilesTruth` | app/services/execution_worker.py:449-480 | an outcome says recovered only on a paid answer, for its stated amount, attributed only inside the window |
| `ExecutionLaws.ProcessMeasures` | app/services/recovery.py:225-285 | executions keep measurements consistent with their outcomes |
| `Ingestion.CorrelationIsIsolated` | app/services/ingestion.py:144-206 | only a case of the event's tenant and an action of that case are ever credited |
| `Ingestion.NotesDecide` | app/services/ingestion.py:147-202 | a consistent pair in the notes is credited as it stands, an inconsistent one ignored |
| `Ingestion.FallbacksInOrder` | app/services/ingestion.py:147-206 | the whole correlation: notes, then the resource id, then the case of the action, then the latest action; inconsistent pairs and unknown payloads are ignored |
| `Ingestion.ConfirmedIffSaysPaid` | app/services/ingestion.py:92-114 | a payload confirms iff the status of the entity that counts for its event type spells paid or captured |
| `Ingestion.CaseAfterAPayment` | app/services/ingestion.py:229-246 | a payment makes a live case RECOVERED, marks its stage and changes nothing else |
| `Ingestion.WebhookFilesTruth` | app/services/ingestion.py:249-268 | a first outcome is recovered, for the amount of the entity, the metadata or the case, under its event and the window in force; an existing one stands; held out iff an experiment says so |
| `ProtocolRuns.StepKeepsInv` | app/worker.py:36-60 | every step of every participant keeps the invariant and only lets durable facts grow |
| `ProtocolRuns.RunInv` | app/worker.py:36-60 | the invariant holds throughout every run |
| `ProtocolRuns.RunGrows` | app/worker.py:36-60 | between any two moments of a run committed facts only grow |
| `ProtocolSteps.ClaimStep` | app/services/outbox.py:112-148 | claiming keeps the invariant |
| `ProtocolSteps.ExecuteStep` | app/services/execution_worker.py:251-621 | executing a claimed row keeps the invariant |
| `ProtocolSteps.CrashStep` | app/worker.py:55-61 | a rollback keeps the invariant, provider side included |
| `ProtocolCommit.CommitStep` | app/worker.py:50-52 | committing a sweep keeps the invariant |
| `ProtocolCreation.DecideStep` | app/services/decision_engine.py:255-361 | a decision cycle with its immediate execution keeps the invariant, committed or lost |
| `ProtocolCreation.GatewayStep` | app/services/mcp_gateway.py:457-652 | the gateway's payment-link path keeps the invariant, committed or lost |
| `ProtocolWebhook.ConfirmStep` | app/services/ingestion.py:116-300 | a paid webhook keeps the invariant |
| `ProtocolWebhook.UnpaidChangesNothing` | app/services/ingestion.py:122-130 | an event whose payload does not say paid changes nothing but its own mark |
| `ProtocolTheorems.LocksAreExclusive` | app/services/outbox.py:112-130 | an action is in at most one in-flight transaction |
| `ProtocolTheorems.EveryCallAuthorized` | app/services/execution_worker.py:101-228 | every call ever made had an approved decision, one tenant, an open case outside payroll, the switch on and policy approval |
| `ProtocolTheorems.OneLinkPerAction` | app/services/execution_worker.py:385-400 | at most one provider link per action, given that the provider keeps one per key |
| `ProtocolTheorems.RepeatOnlyAfterUndone` | app/services/execution_worker.py:385-400 | a repeated call follows one that raised or was rolled back, with the same key |
| `ProtocolTheorems.AttemptsOfAnAction` | app/services/execution_worker.py:344-353 | every attempt number is within the budget; at most one attempt is finished, and it is the last |
| `ProtocolTheorems.FinishedForGood` | app/services/execution_worker.py:410-607 | a finished attempt stays the last and only one for the rest of the run |
| `ProtocolTheorems.CompletedIffSucceeded` | app/services/execution_worker.py:313-318 | an outbox row is COMPLETED iff an attempt of its action succeeded |
| `ProtocolTheorems.PreflightIsTheGate` | app/services/execution_worker.py:85-228 | in reachable states the checks decide exactly as a gate of five |
| `ProtocolTheorems.PreflightAtGateway` | app/services/mcp_gateway.py:622-632 | the same for the gateway's immediate execution, where all checks pass |
| `ProtocolTheorems.PreflightAtDecision` | app/services/decision_engine.py:335-361 | the same for the engine's, where only the switch and the kind of action can stop it |
| `ProtocolTheorems.DecisionFollowsTheLifeCycle` | app/services/decision_engine.py:306-309 | a decided case went through the state machine, on to pending approval iff the policy wants a human |
| `ProtocolTheorems.ServicesCallIff` | app/services/decision_engine.py:311-361 | when the engine and the gateway call the provider on the spot: the engine for no negative amount, none counting as a hundred; the gateway for a positive one |
| `ProtocolTheorems.WaitingCaseTakesNoSecondLink` | app/services/mcp_gateway.py:477-490 | while a case waits for its open link the gateway refuses it, whichever decision it names |
| `ProtocolTheorems.PaidBeforeDispatchIsSuperseded` | app/services/execution_worker.py:110-123 | an action paid by webhook before its row is executed ends SUPERSEDED |
| `ProtocolTheorems.OneLinkActionPerCase` | app/services/mcp_gateway.py:612-629 | actions exist for approved decisions only, and a case has at most one of each kind |
| `ProtocolLinks.OneLinkPerCase` | app/services/mcp_gateway.py:457-652 | of links with an action on file a case has at most one, a payroll case none |
| `ProtocolLinkCount.LinksOfACase` | app/services/mcp_gateway.py:622-652 | all links of a case are at most one plus its undone calls whose action is not on file |
| `ProtocolDrain.DrainBound` | app/services/outbox.py:112-146 | with at most one raised execution a row has closed by its third committed claim; in general at most one claim more than raises while open |
| `ProtocolLease.LeaseProtects` | app/services/outbox.py:110-146 | after a committed claim at time t with lease L nobody can claim the row until t + L has passed, and any idle worker can afterwards if it is open, unlocked and has budget left |
| `ProtocolDrain.DrainBoundIsTight` | app/services/execution_worker.py:571-607 | three claims can be needed, and two raises with an unclear answer leave a row open with no budget |
| `ProtocolDrain.SpentForever` | app/services/outbox.py:124 | a row with a spent budget keeps its outbox entry for ever |
| `ProtocolDrain.ClosableIffBudgetLeft` | app/services/outbox.py:112-146 | with the kill switch among the steps, an open unlocked row can still be closed iff it has budget left |
| `ProtocolClosing.ClosableByPollingIff` | app/services/execution_worker.py:384-400 | the pollers alone can close an open free row iff it has budget and the gate refuses it or its amount is positive |
| `ProtocolClosing.ClosableWithoutSwitchIff` | app/services/ingestion.py:228-247 | without the operator, but with customers paying, budget alone decides |
| `Poller.PollOnce` | app/services/execution_worker.py:623-645 | a sweep is a path of the protocol, changes only its batch and lowers the non-negative total budget by exactly its size |
| `ProtocolRevenue.RecoveredCaseHasProof` | app/services/ingestion.py:234-238 | a RECOVERED case has a processed webhook of its tenant whose payload says paid, or an attempt of its own answered paid or captured |
| `ProtocolRevenue.RecoveredOutcomeHasProof` | app/services/recovery.py:65-160 | a recovered outcome has its own evidence, which says paid and states its amount; any other has no amount; attribution lies inside the window |
| `ProtocolRevenue.EvidenceIsNotShared` | app/services/ingestion.py:249-268 | no confirmation is counted for two outcomes |
| `ProtocolRevenue.RecoveredTotalIsConfirmed` | app/services/recovery.py:41-198 | recovered amounts sum exactly to the amounts confirmations state, and every credited webhook says paid |
| `ProtocolRevenue.MeasurementTotals` | app/services/recovery.py:257-285 | treatment and control totals make the recovered total; increments stay within treatment |
| `ProtocolExperiments.NoControlWithoutExperiment` | app/services/recovery.py:371-393 | over a run without active experiments the control total is zero and the treatment total is all that was measured |
| `ProtocolRevenue.DispatchFilesAsOfNow` | app/services/recovery.py:88-137 | an execution files its outcome under the window in force and the time of the clock, and is held out by the category on file |
| `ProtocolRevenue.CaseAndOutcomeMayDisagree` | app/services/recovery.py:56-63 | after a webhook the case is RECOVERED, the outcome recovered iff none contrary was filed before |
| `ProtocolRepeats.ConfirmFiles` | app/services/ingestion.py:249-268 | a confirmed payment files one recovered outcome of the stated amount, as of now and under the window in force, or nothing when its action has one |
| `ProtocolRepeats.SecondConfirmationFilesIff` | app/services/recovery.py:51-63 | a second confirmation for a case files a further outcome iff the case has no action, or it names another action without outcome |
| `ProtocolRepeats.RepeatedPaymentCountsTwiceIff` | app/services/recovery.py:51-63 | two events of one payment are counted twice iff the case has no action on file |
| `ProtocolWitness.RecoveryAfterCrash` | app/services/execution_worker.py:385-480 | a run with a crash after the call, a repeated call, one link and an attributed recovery exists |
| `ProtocolExhibits.DrainBoundIsReached` | app/services/outbox.py:112-146 | runs that need the third claim, and that end open with a spent budget |
| `ProtocolExhibits.ThreeRaisesStrand` | app/services/outbox.py:124 | a run that leaves an authorized row open and out of budget |
| `ProtocolExhibits.PaidBeforeDispatch` | app/services/ingestion.py:228-230 | a run that executes a row whose action is SUCCEEDED |
| `ProtocolExhibits.RecoveredWithFailedOutcome` | app/services/recovery.py:56-63 | a run that ends with a RECOVERED case and a FAILED outcome |
| `ProtocolExhibits.OnePaymentCountedTwice` | app/services/recovery.py:56-63 | a run in which one payment of a case is on the books twice |
| `ProtocolExhibits.TwoLinksForOneCase` | app/services/mcp_gateway.py:631-652 | a run in which a lost gateway call gives a case a second link |
| `KnowledgeOutbox.FiltersDiffer` | app/services/qdrant_indexer.py:35-56 | the Python filter implies the SQL filter, and they differ exactly on up-to-date completed entries |
| `KnowledgeOutbox.StepKeepsInv` | app/services/qdrant_indexer.py:111-241 | sweeps, processing, commits, crashes, triggers and version bumps keep the invariant |
| `KnowledgeOutbox.IndexedForGood` | app/services/qdrant_indexer.py:165-204 | attempts at most three plus triggers; a completed entry has its point, its tenant, and shares it with no other |
| `KnowledgeOutbox.NothingLeftClaimed` | app/services/qdrant_indexer.py:35-56 | no committed entry is CLAIMED, FAILED ones have budget, dead-lettered ones none; an entry needs processing iff it has budget and is not completed under the current version |
| `KnowledgeOutbox.PointsKeepTheirTenant` | app/services/qdrant_indexer.py:177-182 | a point belongs to the tenant of the entry with its measurement |
| `KnowledgeOutbox.SweepClaims` | app/services/qdrant_indexer.py:122-157 | a sweep locks at most its limit, oldest first, passes over no free older match, and claims exactly those in need |
| `KnowledgeOutbox.ProcessWrites` | app/services/qdrant_indexer.py:165-204 | which points processing writes: its own, iff the call went through or failed after writing |
| `KnowledgeStarvation.StarvedForever` | app/services/qdrant_indexer.py:127-150 | behind sessions times limit up-to-date entries a pending one is never claimed while that many sessions are open at most |
| `KnowledgeStarvation.ClaimableIff` | app/services/qdrant_indexer.py:127-150 | from a quiet state it can be claimed iff fewer precede it |
| `KnowledgeStarvation.OverlapReachesPast` | app/services/qdrant_indexer.py:146-150 | the second of two overlapping sweeps reaches past a full front |
| `KnowledgeStarvation.StarvationHappens` | app/main.py:44-60 | starved states are reached for every limit and number of sessions without a failure |
| `KnowledgeWorker.CreateOutboxEntry` | app/services/qdrant_indexer.py:65-109 | one entry per measurement |
| `KnowledgeWorker.ClaimPendingItems` | app/services/qdrant_indexer.py:112-163 | exactly the swept entries are claimed, all others untouched |
| `KnowledgeWorker.ProcessItem` | app/services/qdrant_indexer.py:166-204 | completed with the current version, failed, or dead-lettered on a spent budget |
| `KnowledgeWorker.ProcessOutboxItemSafe` | app/services/qdrant_indexer.py:207-241 | skips missing, locked and completed entries, otherwise ignores the budget |
| `WebhookGate.EventGate.Receive` | app/api/webhooks/razorpay.py:91-116 | lock, then insert: the outcome and both stores afterwards |
| `WebhookGate.AcceptedOnce` | app/core/idempotency.py:21-38 | an event is accepted at most once, and exactly when persisted, whatever Redis forgets |
| `WebhookGate.DeliveredOrFailed` | app/core/idempotency.py:10-42 | a delivered event is persisted unless an insert for it failed |
| `WebhookGate.FailedInsertBlocksRetries` | app/core/idempotency.py:10-19 | after a failed insert redeliveries are dropped exactly while the lock lives |
| `Ranking.TiesAreWaitAndRetryNow` | app/services/economic_optimizer.py:16-25 | sort keys collide exactly for WAIT and RETRY_NOW, tied and not the baseline |
| `Ranking.RankCandidates` | app/services/economic_optimizer.py:99-144 | the loop and sort produce the ranking with estimate and net value per item |
| `Ranking.HigherValueFirst` | app/services/economic_optimizer.py:134-144 | the higher net recovery goes first |
| `Ranking.BaselineFirstAmongEquals` | app/services/economic_optimizer.py:137-141 | among equals the baseline goes first |
| `Ranking.EqualsByPreference` | app/services/economic_optimizer.py:16-25 | among other equals: link, payment-method update, reminder, later retry, wait or retry now, human, stop |
| `Ranking.ValueIsGrossLessCharges` | app/services/economic_optimizer.py:47-65 | the value is linear in the probability, from nothing to the amount, less both charges |
| `Ranking.ChargesNeverReorder` | app/services/economic_optimizer.py:99-144 | without rounding cost and risk never change the order |
| `StableSort.SortOrder` | app/services/economic_optimizer.py:130-144 | one candidate precedes another iff its key is smaller, or equal and it came first |
| `StableSort.SortPermutes` | app/services/economic_optimizer.py:130-144 | the output is a permutation of the candidates |
| `Ranking.OrderNeutralIffNoTie` | app/services/economic_optimizer.py:130-144 | the ranking depends on the candidate set alone iff WAIT and RETRY_NOW do not tie in it |
| `RouteAware.RetriesNeverOvertake` | app/services/route_aware_probability.py:86-108 | discounting retries lets none overtake another kind of action ranked ahead of it |
| `RouteAware.WrappingDemotes` | app/services/route_aware_probability.py:63-108 | the wrapper lowers retry estimates at most and leaves all others |
| `RouteAware.WhatRoutesLeave` | app/services/route_aware_probability.py:40-72 | what degraded and critical routes leave of a retry, and that nothing else is discounted |
| `RouteAware.FirstKeyDecides` | app/services/route_aware_probability.py:48-60 | the first of status, state and summary that says something decides |
| `RouteAware.WrappedRetriesNeverOvertake` | app/services/route_aware_probability.py:48-108 | as called, on the raw route health: no retry overtakes another kind of action, and without CRITICAL or DEGRADED in the resolved token the ranking is unchanged |
| `RouteAware.HealthyRoutesAreNeutral` | app/services/route_aware_probability.py:40-45 | on a route that is not unhealthy wrapping changes no ranking |
| `DecisionPipeline.GenerateCandidates` | app/services/candidate_generator.py:47-97 | the first five distinct eligible actions; the list is never empty |
| `DecisionPipeline.CandidatesAre` | app/services/candidate_generator.py:84-97 | distinct, eligible, between one and five |
| `DecisionPipeline.RecommendedFirst` | app/services/candidate_generator.py:53-97 | an eligible recommendation is the first candidate |
| `DecisionPipeline.WithoutProposal` | app/services/candidate_generator.py:66-97 | without a proposal exactly the eligible ones of baseline and pool, baseline first; only stopping can be crowded out |
| `DecisionPipeline.BaselineIsCandidateIff` | app/services/candidate_generator.py:53-92 | the baseline is missing iff ineligible or preceded by five other eligible AI proposals |
| `DecisionPipeline.SelectCandidate` | app/services/decision_engine.py:162-217 | the first candidate the policy does not reject, a safe stop iff all are rejected |
| `DecisionPipeline.GateNeverRejectsCandidates` | app/services/decision_engine.py:142-217 | no generated candidate is rejected, so the fallback is out of reach |
| `DecisionPipeline.Decide` | app/services/decision_engine.py:142-194 | a cycle selects the head of the ranking with its policy verdict; no candidate is worth more, and stopping without being the baseline is strictly best |
| `DecisionPipeline.StopIsTheLastResort` | app/services/economic_optimizer.py:134-144 | stopping heads the ranking iff every other candidate is worth less, or no more when stopping is the baseline |
| `DecisionPipeline.Estimate` | app/services/probability_provider.py:27-56 | the success rate iff at least five matches, the clamped prior otherwise |
| `DecisionPipeline.OneMoreCase` | app/services/probability_provider.py:31-44 | which retrieved cases count for an action, and which as successes |
| `DecisionPipeline.AtMostOneLeavesThePrior` | app/services/probability_provider.py:31-52 | with fewer than ten retrieved cases at most one action leaves the prior |
| `DecisionPipeline.NoSteeringWithoutHistory` | app/services/decision_engine.py:142-194 | without history no proposal moves the selection away from a candidate baseline |
| `CorridorChain.EnvRecoveryProbability` | app/services/wait_ev.py:88-97 | the dictionary loop computes the expected readiness in any iteration order |
| `CorridorChain.StepsAreTheTable` | app/services/temporal_state.py:20-40 | the two vector steps are the frozen transition table |
| `CorridorChain.MassIsOne` | app/services/wait_ev.py:90-96 | the propagated distribution keeps mass one and stays non-negative |
| `CorridorChain.ForwardIsBackward` | app/services/wait_ev.py:88-97 | forward propagation equals backward value iteration |
| `CorridorChain.ReadinessOverTime` | app/services/temporal_state.py:20-49 | bounds, constancy for healthy, monotony for the others, from the first step on for expiring |
| `WaitModel.Optimal` | app/services/wait_ev.py:131-139 | the least maximiser over the horizon and its value |
| `WaitModel.WaitingNeverOverpromises` | app/services/wait_ev.py:103-113 | the waited probability lies between base and one and the outer clamp never acts |
| `WaitModel.OptimalWaitIsMonotone` | app/services/wait_ev.py:119-139 | the optimal wait does not fall with the amount and does not rise with base probability or cost |
| `WaitModel.HealthyNeverWaits` | app/services/wait_ev.py:17-18 | a healthy corridor is never waited for |
| `WaitModel.WaitsIffFirstIntervalPays` | app/services/wait_ev.py:131-143 | a degraded or critical corridor is waited for iff the first interval's gain on the stake beats its cost |
| `WaitModel.LateCorridorsWaitToTheEnd` | app/services/wait_ev.py:131-143 | within the fixed horizon a customer-pending or expiring corridor is waited for to the end or not at all, the former iff the whole wait's gain on the stake beats its cost |
| `WaitModel.LateRecommendation` | app/services/wait_ev.py:145-167 | at the fixed horizon the recommendation is four intervals or none |
| `WaitModel.OperationalRoutesMayWait` | app/services/wait_ev.py:145-167 | with the default costs an OPERATIONAL route is waited for iff more than 7.50 is at stake |
| `WaitModel.StatesByName` | app/services/wait_ev.py:52-63 | the five names in any case, the state before the status, no name as degraded |
| `WaitModel.EvaluateWaitRecommendation` | app/services/wait_ev.py:145-167 | the recommendation is the optimal wait for the named corridor, at most four intervals |
| `Learning.RecoveryLearningService.RecordOutcome` | app/services/recovery_learning.py:105-132 | the memory stays equal to the confirmed counts of the log |
| `Learning.RecoveryLearningService.Estimate` | app/services/recovery_learning.py:148-164 | the estimate, or its division by zero, is a function of the log |
| `Learning.OrderOfLearningIsIrrelevant` | app/services/recovery_learning.py:105-164 | permuted logs give equal estimates |
| `Learning.OtherKeysUntouched` | app/services/recovery_learning.py:188-198 | other keys, other actions and unconfirmed outcomes leave an estimate alone |
| `Learning.EstimatesAreModest` | app/services/recovery_learning.py:159-164 | strictly between 0 and 1, and between prior and empirical rate |
| `Learning.EstimatesAreProbabilities` | app/services/recovery_learning.py:148-164 | an estimate that comes out is a probability, whatever the configuration |
| `Learning.EvidencePullsItsWay` | app/services/recovery_learning.py:159-164 | with support a success raises and a failed attempt lowers the estimate, strictly |
| `Learning.ImaginedOutcomes` | app/services/recovery_learning.py:159-164 | a supported estimate is the rate among the outcomes and beta imagined ones at the prior; below the support it is the prior |
| `Learning.DividesByZeroIff` | app/services/recovery_learning.py:162 | an estimate can divide by zero iff the weight is the negative of a count that may override the prior |
| `Learning.KeysIgnoreCase` | app/services/recovery_learning.py:188-191 | domain and category are matched whatever their case |
| `Learning.MissingNames` | app/services/recovery_learning.py:188-191 | missing names and UNKNOWN are one key, an empty corridor and none another; corridors are kept apart |
| `Learning.OutcomesThatCount` | app/services/recovery_learning.py:85-104 | exactly three outcomes count as successes and nine as failed attempts, in any case and behind blanks |
| `RouteHealth.SignalBuffer.RecordSignal` | app/services/systemic_intelligence.py:46-67 | the buffer after an append and eviction |
| `RouteHealth.SignalBuffer.AnalyzeRouteHealth` | app/services/systemic_intelligence.py:70-111 | the buffer answers as the full log would within the retention |
| `RouteHealth.OneMoreSignal` | app/services/systemic_intelligence.py:79-93 | which signals count as samples, as failures and at which amount |
| `RouteHealth.AnalysisCounts` | app/services/systemic_intelligence.py:74-93 | the analysis counts the signals of its window, an hour unless another one is named |
| `RouteHealth.NoSignals` | app/services/systemic_intelligence.py:95-99 | a corridor without signals is operational with nothing at risk |
| `RouteHealth.StatusInCounts` | app/services/systemic_intelligence.py:95-111 | critical from five samples and eight failures in twenty-five on, degraded from three samples and four in twenty-five on |
| `RouteHealth.RateThresholdsNeverDecide` | app/services/systemic_intelligence.py:101-110 | a rate of sixty or thirty per cent always meets the score threshold beside it |
| `RouteHealth.EvictionInvisibleIff` | app/services/systemic_intelligence.py:65-67 | eviction is invisible for all logs up to a latest time iff that time is at most the retention less the window after now |
| `RouteHealth.FailuresNeverLowerSeverity` | app/services/systemic_intelligence.py:94-111 | one more failure in the window never lowers severity |
| `RouteHealth.RecordingFailuresNeverLowersSeverity` | app/services/systemic_intelligence.py:46-111 | the same through the evicting buffer |
| `Calibration.CalculateProbabilityCalibration` | scripts/run_judge_benchmark.py:679-744 | Brier score, calibration error and bin sizes, zero on missing or mismatched inputs |
| `Calibration.ExactlyOneBin` | scripts/run_judge_benchmark.py:700-706 | a prediction in [0, 1] lies in exactly one bin |
| `Calibration.CountsAddUp` | scripts/run_judge_benchmark.py:700-707 | bin sizes add up to the number of predictions |
| `Calibration.BrierIsMeanSquare` | scripts/run_judge_benchmark.py:684-688 | the Brier score of one prediction is its square error, and a further one adds its own to the total |
| `Calibration.EceForm` | scripts/run_judge_benchmark.py:700-712 | the calibration error is the sum of the net errors of the bins, in absolute value, over the number of predictions |
| `Calibration.EceSquaredWithinBrier` | scripts/run_judge_benchmark.py:684-712 | the squared calibration error never exceeds the Brier score |
| `Oracle.ComputeOracle` | scripts/run_judge_benchmark.py:502-584 | the best admissible net value or zero, earned by the action it names |
| `Oracle.OracleIsBest` | scripts/run_judge_benchmark.py:539-577 | no admissible listed action beats the oracle |
| `Oracle.EvaluateStrategyOutcome` | scripts/run_judge_benchmark.py:586-651 | net value and regret of a decision |
| `Oracle.StrategyIsCharged` | scripts/run_judge_benchmark.py:602-646 | what a strategy is paid and charged, cost by cost |
| `Oracle.OracleIsCharged` | scripts/run_judge_benchmark.py:539-577 | what the oracle is paid and charged, cost by cost |
| `Oracle.OracleConsiders` | scripts/run_judge_benchmark.py:524-532 | every action but waiting, and exactly those the gate does not reject |
| `Oracle.BalancesIffNotBeaten` | scripts/run_judge_benchmark.py:647-651 | oracle equals strategy plus regret iff the strategy does not beat the oracle |
| `Oracle.CohortBalances` | scripts/run_judge_benchmark.py:602-651 | without fraud blocks the totals balance over every cohort |
| `Oracle.FraudBalancesIff` | scripts/run_judge_benchmark.py:565-639 | on fraud blocks the balance holds for every truth iff a named condition on action and costs does |

## Left out

- HTTP and SSE handlers, authentication, signature validation, dashboards, activity and audit rows, Telegram, log texts, claimed error strings, demo seeding and migrations: presentation or plumbing.
- The Razorpay, language-model, Qdrant and Redis clients: the provider is a keyed store with arbitrary answers, Qdrant a keyed upsert that may fail with or without effect, Redis a lock that may be down or forget.
- Database isolation: row locks are held to commit and transactions on case and action rows are serialisable; the optimistic version column is not modelled beyond the counter of the state machine.
- Blocking on a locked row: a step that needs a case another transaction has written is not enabled until that transaction ends.
- ProtocolLinks.OneLinkPerCase: speaks of links whose action is on file only, because a crash between the call and the commit on the engine and gateway routes rolls the action itself back; `ProtocolLinkCount.LinksOfACase` bounds the others.
- ProtocolDrain.DrainBoundIsTight: composes the executions of one row outside any run; `ProtocolExhibits.DrainBoundIsReached` gives the runs.
- The gateway's read tools, preview mode and payment-link cancellation, and the cancellation branch of reconciliation, which names an enum member and a request field that do not exist.
- Protocol.DoGateway: models the gateway's payment-link path on values, not on row objects; the rejected requests, which write audit rows only, are the states in which the step is not enabled.
- Protocol.DoDecide: models the decision cycle on values; the new case, its classification and its decision appear in one step, as they are committed together, and any choice the policy does not reject may be made (`DecisionPipeline.Decide` says which one is).
- Poller.PollOnce: assumes that no other transaction holds a case of the batch, where the database would wait.
- Worker.ProcessOutboxItem: the method returns at a raised exception and leaves catching it, which poll_once does, to the protocol's execute step.
- Tenant resolution and the bootstrap of the first tenant: the tenant set is fixed over a run and an accepted event carries its tenant or none.
- Webhook payload parsing: statuses, notes, amounts and the resource id are fields of the payload; unparsable identifiers are absent ones.
- Time to recovery, currencies, experiment assignment dates and the MD5 bucket, which is an arbitrary number.
- Float rounding: estimates are exact reals; where the source rounds, the rounding is any function with the order properties stated at the lemma.
- app/domain/money.py, app/services/temporal_layer.py, app/services/temporal_decision_engine.py, app/services/temporal_value_model.py, app/services/temporal_oracle.py and app/services/estimator.py: easy members or superseded by app/services/wait_ev.py.
- The legacy tie break of the ranking, which is the same stable sort without tiers and serves frozen benchmark artifacts.
- Calibration.CalculateProbabilityCalibration: zero bins, which divide by zero in the source, are excluded.
- Text.Upper: case mapping and stripping are those of ASCII.
