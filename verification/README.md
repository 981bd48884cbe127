# Verified model of the sales department backend

This project models the parts of the repository where several tables, services or clients
have to agree, and proves that they do, over every run or every interleaving.

**Outbound actions.** An action is created under an idempotency key, may wait for a human
approval, and is then delivered, retried, cancelled or expired, archived, and finally cleaned
up. `OutboundTables` gives each service call as one transaction on the shared tables (accounts,
leads, actions, approvals, attempts, audit events); `OutboundService` walks through the same
calls statement by statement in a class and is proved equal to them. `OutboundInvariant` states
what ties the tables together, `OutboundPreservation` proves that every call keeps it, and
`OutboundTheorems`, `OutboundEffects`, `OutboundOutcomes` and `OutboundCreation` draw the
conclusions for all runs: no adapter call without approval, an audit log that rebuilds the
actions, gapless attempt numbers, idempotent creation, nothing lost by cleanups. Arguments,
adapter results and channel results are arbitrary inputs of every call; an adapter may also
raise, and the commit that follows a call to the outside may fail. `DeliveryAnswers`,
`DecisionScope` and `MaintenanceAnswers` say what each call answers and stores, case by case, in
terms of the stored fields.

**Views on the outbound tables.** `Readiness`, `ReadinessAnswers`, `Summary`, `StateHistory`, `Timeline` and
`RetryDelay` recompute the truth from other columns, other aggregates or the log. Each is
proved to agree with the guards of the delivery service, with the exact condition where it
does not.

**Receipt protocols.** `DirectTurns` and `InboundEvents` are state machines in which any number
of clients interleave single database transactions over a table with a unique key, and may
crash between any two of them.

**AI budget.** `UsageLimits` decides from a workspace's policy columns and its ledger rows,
`AiGateway` makes the call and appends the row, and `AiBudget` proves what holds over every
sequence of calls by any number of workspaces; `AiShutOff` says when a workspace can never call
again, `AiEstimates` why estimates matter, `AiAnswers` which outcome a call has. `ModelPricing` and `UsageLedger` price the rows
and aggregate them.

**Retention.** `RetentionCleanup` proves the batched deletion loop equal to one filter.

Where the code does not meet what its comments promise, or what a reader would expect, the
model follows the code and the difference is a theorem:

- An adapter is called before the transaction that records the attempt commits. If that commit
  fails, the action can be delivered again under the same attempt number
  (`OutboundEffects.CalledAgainAfterDeliveryIff`, `OutboundWitnesses.DeliveredTwice`), or be
  cancelled and cleaned up although it was delivered (`OutboundEffects.UnattemptedCallsWereLost`,
  `OutboundWitnesses.DeliveredThenCleanedUp`).
- A lead's message is sent before its approval is stored. If that commit fails, the message can
  go out twice, or the approval can be rejected although its message went out
  (`OutboundEffects.DecidedMessageWasSent`, `OutboundWitnesses.SentTwice`,
  `OutboundWitnesses.RejectedButSent`).
- One stored failure code that is not a safe name makes the operational summary of its whole
  workspace raise (`Summary.SummaryRaisesIff`, `OutboundWitnesses.SummaryCanRaise`).
- `app/departments/sales/services/direct_conversation_turn_idempotency.py:69` says that a direct
  turn runs once per key. A turn that raises after it stored the customer's message is run
  again by the retry, and the message is stored twice (`DirectTurns.RetryStoresMessageTwice`);
  `DirectTurns.MessageStoredOnceIff` says exactly when it is stored once.
- A reservation whose client crashed, or whose outcome could not be written, blocks its key for
  good (`DirectTurns.BlockedForGoodIff`, `DirectTurns.CrashBlocksKey`).
- Readiness of a failed action is stricter than retrying it: a retry ignores expiry, not-before
  and the retry delay (`Readiness.FailedReadyIff`, `OutboundWitnesses.ExpiredActionIsRetried`).
- A repeated create ignores a changed expiry or not-before time (`OutboundCreation.CreateIsIdempotent`).
- The state history reads only the newest 100 audit events, so an action that is not pending can
  have an empty history (`StateHistory.HistoryIsTrueSuffix`, `OutboundWitnesses.HistoryCanVanish`).
- Budgets are checked against estimates: the call that passes may itself overshoot, but only the
  last one ever does (`AiBudget.BudgetsHold`, `AiEstimates.TokenEstimateIsNecessary`,
  `AiBudget.UnderestimatePassesLimit`).
- A lost accounting write is a call that no limit counts (`AiShutOff.InvocationLimitPassedIff`,
  `AiShutOff.LostWritePassesLimit`).
- Under a spend limit one provider error shuts the workspace off for good
  (`AiShutOff.ShutOffIff`, `AiShutOff.ProviderErrorShutsOff`, `AiShutOff.OneErrorEndsAllCalls`).

Verify everything with `dafny verify dfyconfig.toml`.

## Model

| member | source | states |
|---|---|---|
| OutboundTheorems.EveryAdapterCallWasApproved | app/services/outbound_delivery.py:148-182 | over every run, every adapter call made for an action that requires approval, also by a retry (which never looks at the approval), found its linked approval approved at that moment |
| DecisionScope.EveryCallWasApprovedFromWithin | app/services/approval_decisions.py:115-153 | over every run, whenever an adapter is called for an action that requires approval, by a delivery or a retry, its linked approval was approved by an actor of the action's own workspace, in whose name the call was made |
| DecisionScope.DecidedFromWithin | app/services/approval_decisions.py:115-153 | over every run, a command that decides an approval or sends its message is an approve or reject of that undecided approval, by an actor of the workspace it names, and the approval is for a lead of that workspace or gates an action of it |
| DecisionScope.ApproveAnswers | app/services/approval_decisions.py:55-96 | approving decides exactly the undecided approvals that concern the actor's workspace, recording actor, note and time, if the commit succeeds and a lead's message was delivered first; a message that was delivered has gone out either way, and otherwise nothing changes |
| DecisionScope.RejectAnswers | app/services/approval_decisions.py:98-113 | rejecting decides exactly the undecided approvals that concern the actor's workspace, recording actor, note and time, and sends nothing |
| DecisionScope.DecisionRefusals | app/services/approval_decisions.py:115-153 | a foreign actor is refused first, then an approval that does not concern the workspace, then a decided one, and each refusal occurs in no other case |
| OutboundEffects.CommittedCallsAreFinal | app/services/outbound_delivery.py:279-288 | over every run the attempt numbers of an action's adapter calls never fall; a call whose transaction committed shares its number with no later call, and if it delivered it is the last call of its action |
| OutboundEffects.CalledAgainAfterDeliveryIff | app/services/outbound_delivery.py:279-288 | over every run, after an adapter call that delivered, some continuation calls an adapter for that action again if and only if the commit that follows the call failed |
| OutboundEffects.NumberedAgainIff | app/services/outbound_delivery.py:300-314 | over every run, some continuation uses the number of a given adapter call again if and only if its commit failed |
| OutboundEffects.NumbersBetweenCalls | app/services/outbound_delivery.py:300-314 | of two adapter calls for one action the later is numbered higher by the attempts stored from the first on, so the numbers are equal exactly when the first was not committed and none was stored in between |
| OutboundWitnesses.DeliveredTwice | app/services/outbound_delivery.py:279-288 | a concrete run from empty tables in which an action is delivered twice, both times as attempt 1, because the first commit failed |
| OutboundTheorems.AuditLogRebuildsActions | app/services/outbound_delivery.py:343-399 | over every run the audit events of each action are accepted by one automaton, and replaying them rebuilds the live action's status, archive mark, numbered attempts with their times, and delivered, failed, cancelled and expired times; logs of removed actions are accepted too |
| OutboundTheorems.AttemptNumbering | app/services/outbound_delivery.py:300-314 | over every run an action's attempts are numbered 1..n, n is the largest stored number and at most the largest maximum any retry ran under; all but the last attempt failed, the last one has the action's status, and n is 0 exactly for pending, cancelled and expired actions |
| OutboundTheorems.RunStaysWithin | app/services/outbound_retry_policy.py:68-97 | the attempt bound is kept by every run: no stored attempt number exceeds the largest maximum any retry was given |
| OutboundTheorems.DecisionsAreFinal | app/services/approval_decisions.py:139-168 | a stored approval decision is never revised by anything that follows |
| OutboundEffects.MessagesSent | app/services/approval_decisions.py:74-96 | over every run a lead's message has gone out once for its executed approval and once more for every approval of it that sent and then failed to commit |
| OutboundEffects.DecidedMessageWasSent | app/services/approval_decisions.py:74-96 | once an approval is decided its message is never sent again; an executed one's was sent exactly once, and a rejected one's never, if and only if no approval of it failed to commit after sending; gating approvals send nothing |
| OutboundWitnesses.RejectedButSent | app/services/approval_decisions.py:170-178 | a concrete run that ends with a rejected approval whose message the lead has received |
| OutboundWitnesses.SentTwice | app/services/approval_decisions.py:170-178 | a concrete run that ends with an approved message sent twice |
| OutboundTheorems.AttemptedActionsStayApproved | app/services/approval_decisions.py:55-72 | once a gated action has been attempted, its linked approval exists and stays approved through every further run |
| OutboundTheorems.RecordedRowsDecide | app/services/outbound_delivery.py:334-388 | the attempt rows alone determine the status: none for a never-attempted action, otherwise the last row's status after failures only |
| OutboundOutcomes.NewestAttemptExplainsAction | app/services/outbound_delivery.py:343-388 | over every run an action and its newest attempt row report the same status, delivery id, failure code, message and class; a delivery keeps no failure, a failure has a code, a message and no delivery id, an unattempted action has none of them |
| OutboundOutcomes.ConcludedKeepsOutcomes | app/services/outbound_delivery.py:343-388 | one concluded attempt keeps every action in agreement with its newest row, whatever the adapter reported |
| OutboundCreation.CreateIsIdempotent | app/services/outbound_integrations.py:34-107 | after a successful create, any run in between, and a second create under the same trimmed key while the action lives and the account is active: the same request returns the same action, a request differing in a compared field is refused, and neither changes a table |
| OutboundCreation.KeysAndApprovalsAreExclusive | app/services/outbound_integrations.py:61-89 | over every run no two live actions share workspace, account and key; an approval is linked exactly when one is required, and never to two actions |
| OutboundCreation.RunKeepsContent | app/services/outbound_integrations.py:78-93 | no call rewrites what a live action was created with (target, type, content, payload, correlation, key, approval link, time gates), and a removed action never comes back |
| OutboundCreation.CleanupLosesNothingElse | app/services/outbound_action_query.py:141-152 | over every run, actions created equal live actions plus the totals returned by the cleanups, and no attempt row has lost its action |
| OutboundCreation.CreateFindsHolder | app/services/outbound_integrations.py:63-76 | with keys unique, the first row found under a key is the only one, so the answer of a repeated create is determined |
| MaintenanceAnswers.CreateAnswers | app/services/outbound_integrations.py:49-93 | creating is refused for an unknown or inactive account and otherwise, under an unused trimmed key, stores the request with trimmed texts, both time limits and an undecided approval if one is required, in an otherwise untouched pending action |
| MaintenanceAnswers.CreatedActionHoldsDraft | app/services/outbound_integrations.py:53-93 | over every run an action holds what it was created with for as long as it lives |
| AuditReplay.ReplayIsWellShaped | app/services/outbound_action_state_transitions.py:19-39 | every accepted event word describes a possible lifecycle: attempts 1..n with only the last one possibly successful, exactly the time stamps its status implies, archived only when terminal |
| AuditReplay.ReplayAttempt | app/services/outbound_delivery.py:262-290 | appending one attempt's events (retried or not, delivered or failed) to an accepted word adds exactly one closed attempt and moves status and times accordingly |
| OutboundInvariant.MaxIsCount | app/services/outbound_delivery.py:334-341 | when rows are numbered 1..n the largest number is the number of rows |
| OutboundInvariant.LiveAttempts | app/services/outbound_delivery.py:300-314 | an accepted log forces the stored attempt rows of a live action to be numbered 1..n |
| OutboundPreservation.DeliverKeepsValid | app/services/outbound_delivery.py:112-150 | delivering, in every branch (refused, expired on the spot, attempted), keeps the whole cross-table invariant |
| DeliveryAnswers.DeliverAnswers | app/services/outbound_delivery.py:122-150 | a pending action on an active account expires exactly from its expiry on, is not ready exactly before its not-before time, and in between is refused while its linked approval is undecided, refused as rejected, or attempted once it is approved or none is required |
| DeliveryAnswers.DeliverRefusals | app/services/outbound_delivery.py:118-142 | an unknown account, an inactive one, an unknown action and an action that is not pending are answered in that order, each exactly in its case, with nothing changed |
| DeliveryAnswers.DeliveredInWindow | app/services/outbound_delivery.py:143-150 | over every run, an adapter is called to deliver an action only from the not-before time of the request that created it on and only before its expiry |
| DeliveryAnswers.AttemptedIsMade | app/services/outbound_delivery.py:262-290 | one attempt calls the adapter exactly when one is registered whose constraints the action meets, and stores the attempt with its outcome exactly when the commit succeeds |
| DeliveryAnswers.AttemptStores | app/services/outbound_delivery.py:343-388 | a committed attempt stores the adapter's own outcome, with defaults for a missing code or message, the fixed failure of an adapter that raised, or the fixed failure for which none was called |
| DeliveryAnswers.TakesIsNotRefused | app/services/delivery_adapters.py:271-302 | an action is refused before the adapter exactly when none is registered or it breaks the declared action types or content length; an adapter that declares nothing takes text messages |
| DeliveryAnswers.ReportedClasses | app/services/delivery_adapters.py:82-89 | the generic failure names that an adapter may report have their fixed classes |
| DeliveryAnswers.RetryAnswers | app/services/outbound_retry_policy.py:68-97 | retrying a failed action on an active account is denied at the policy's maximum, raises on an unsafe stored code, is denied on a denied code, then on a denied class, each exactly in its case, and is attempted otherwise |
| DeliveryAnswers.RetryRefusals | app/services/outbound_delivery.py:159-170 | an unknown account, an inactive one, an unknown action and an action that has not failed are answered in that order, each exactly in its case, with nothing changed |
| DeliveryAnswers.RetriesRespectPolicy | app/services/outbound_delivery.py:171-182 | over every run, no retry is stored and no adapter called for one at the policy's maximum or on a failure code or class that the policy denies |
| OutboundPreservation.RetryKeepsValid | app/services/outbound_delivery.py:152-182 | retrying keeps the invariant although it re-checks no approval |
| OutboundPreservation.FailedPassedGate | app/services/outbound_delivery.py:171-182 | a failed action that requires approval has an approved one, whoever put it there |
| OutboundPreservation.CancelKeepsValid | app/services/outbound_delivery.py:184-204 | cancelling keeps the invariant |
| OutboundPreservation.AttemptKeepsValid | app/services/outbound_delivery.py:343-388 | one concluded attempt keeps the invariant whatever the adapter reported |
| OutboundPreservation.CreateKeepsValid | app/services/outbound_integrations.py:34-93 | creating keeps the invariant, with or without an approval |
| OutboundPreservation.InsertReplays | app/services/outbound_integrations.py:78-93 | a fresh identifier has no earlier events, so its log is exactly the creation |
| OutboundPreservation.ApproveKeepsValid | app/services/approval_decisions.py:55-113 | approving and rejecting keep the invariant whether or not the channel delivers and whether or not the commit after it succeeds |
| OutboundPreservation.ArchiveKeepsValid | app/services/outbound_action_archiving.py:34-49 | archiving keeps the invariant |
| OutboundPreservation.UnarchiveKeepsValid | app/services/outbound_action_archiving.py:51-62 | unarchiving keeps the invariant |
| OutboundPreservation.LabelsKeepValid | app/services/outbound_action_query.py:133-139 | changing priority or owner keeps the invariant |
| MaintenanceAnswers.CancelAnswers | app/services/outbound_delivery.py:184-204 | exactly a pending action is cancelled, with its time, and its attempts, calls and approval stay as they were |
| MaintenanceAnswers.ArchiveAnswers | app/services/outbound_action_archiving.py:34-62 | exactly a delivered, cancelled or expired action that is not archived is archived, and exactly an archived one unarchived |
| MaintenanceAnswers.LabelAnswers | app/services/outbound_action_query.py:109-139 | a priority or owner changes alone and only for an action found through its account in the workspace |
| MaintenanceAnswers.SurroundingsAnswers | app/services/integration_accounts.py:71-79 | an account is activated or deactivated alone and only inside its workspace; an approval requested for a known lead starts undecided and changes nothing else |
| MaintenanceAnswers.CleanupAnswers | app/services/outbound_action_query.py:141-152 | a cleanup removes exactly the workspace's unarchived cancelled or expired actions whose expiry lies strictly before the cutoff, returns their number and changes nothing else |
| OutboundPreservation.LostKeepsValid | app/services/outbound_delivery.py:279-288 | an adapter call whose transaction is rolled back keeps the invariant |
| OutboundPreservation.CleanupSparesHistory | app/services/outbound_action_query.py:141-152 | no action that a cleanup removes has a stored attempt, and no committed adapter call refers to one |
| OutboundEffects.UnattemptedCallsWereLost | app/services/outbound_delivery.py:262-290 | over every run a pending, cancelled, expired or removed action had its adapter called if and only if a call for it did not commit; none of its calls committed and all carried number 1 |
| OutboundWitnesses.DeliveredThenCancelled | app/services/outbound_delivery.py:184-204 | a concrete run that ends with a cancelled action whose adapter had delivered it |
| OutboundWitnesses.DeliveredThenCleanedUp | app/services/outbound_action_query.py:141-152 | a concrete run in which a cleanup removes an action that was delivered |
| OutboundPreservation.CleanupKeepsValid | app/services/outbound_action_query.py:141-152 | removing expired and cancelled actions keeps the invariant; their audit events stay behind |
| OutboundPreservation.StepKeepsValid | app/services/outbound_delivery.py:112-204 | every call, with any arguments and any foreign outcome, keeps the invariant |
| OutboundPreservation.ReachableIsValid | app/services/outbound_delivery.py:112-204 | the invariant holds after every sequence of calls from empty tables |
| OutboundService.Database.constructor | app/models.py:362-415 | a new database is empty and satisfies the invariant |
| OutboundService.Database.PersistOutcome | app/services/outbound_delivery.py:343-388 | writes the same outcome to the action and to the newest attempt row, clearing the fields of the opposite outcome, and records the transition |
| OutboundService.Database.CallAdapter | app/services/outbound_delivery.py:270-285 | calls the adapter exactly when it is configured and accepts the action; a missing adapter, a capability refusal and an exception become failure results |
| OutboundService.Database.DeliverAction | app/services/outbound_delivery.py:262-290 | one whole attempt equals its one-step specification: numbered row, attempted and closing events, outcome on both rows; when the commit fails only the adapter call remains |
| OutboundService.Database.DeliverPendingAction | app/services/outbound_delivery.py:112-150 | the new tables and the answer are exactly those of the specification, including expiry on the spot and a failing commit, and the invariant is kept |
| OutboundService.Database.RetryFailedAction | app/services/outbound_delivery.py:152-182 | recording the retry and then attempting equals the specified retried attempt; a failing commit takes the retry event back too, and refusals change nothing |
| OutboundService.Database.CancelPendingAction | app/services/outbound_delivery.py:184-204 | cancels exactly a pending action and records it; otherwise nothing changes |
| OutboundService.Database.InsertAction | app/services/outbound_integrations.py:78-90 | adds the action, its approval if required, and the creation event in one step |
| OutboundService.Database.CreateAction | app/services/outbound_integrations.py:34-93 | the answer and the tables are those of the idempotent specification in every branch |
| OutboundService.Database.ApproveRequest | app/services/approval_decisions.py:55-96 | a gating approval becomes approved; a lead's message is sent first and its approval then becomes executed; when the commit fails the message is out and the approval undecided, when the channel fails nothing changes |
| OutboundService.Database.RejectRequest | app/services/approval_decisions.py:98-113 | a pending approval in scope becomes rejected; otherwise nothing changes |
| OutboundService.Database.ArchiveAction | app/services/outbound_action_archiving.py:34-49 | archives exactly a terminal, unarchived action |
| OutboundService.Database.UnarchiveAction | app/services/outbound_action_archiving.py:51-62 | clears exactly an archived action's mark |
| OutboundService.Database.ChangePriority | app/services/outbound_action_query.py:133-139 | changes the priority of one action and nothing else |
| OutboundService.Database.CleanupExpired | app/services/outbound_action_query.py:141-152 | removes exactly the unarchived cancelled or expired actions of the workspace whose expiry lies before the cutoff and returns their number |
| Readiness.CountAgreesWithMax | app/services/outbound_delivery_status.py:105-118 | in every valid state the status view's row count equals the delivery service's largest attempt number |
| Readiness.NextRetryExistsIffRetryable | app/services/outbound_delivery_status.py:59-79 | a next retry time is shown exactly for failed actions that the static policy allows |
| Readiness.StatusReasons | app/services/outbound_delivery_readiness.py:71-88 | account and status give exactly these first reasons, and the action remains a candidate exactly when it is pending or failed and eligible |
| Readiness.CollectReasons | app/services/outbound_delivery_readiness.py:71-102 | the collected list contains a reason if and only if that reason blocks the action, once each and in the reporting order |
| ReadinessAnswers.ReasonsMean | app/services/outbound_delivery_readiness.py:71-126 | each readiness reason blocks under exactly one condition on the stored action, its account, its linked approval, the clock and the adapter's constraints |
| Readiness.EvaluateReadiness | app/services/outbound_delivery_readiness.py:60-114 | missing account and action are reported in that order, a malformed stored code makes the policy raise, and otherwise the action is reported ready exactly when no reason blocks |
| Readiness.UnblockedIff | app/services/outbound_delivery_readiness.py:71-113 | no reason blocks exactly when the account is active, the action is a due candidate, inside its time window, gated open and within capabilities |
| Readiness.RefusalIsCapabilityFailure | app/services/delivery_adapters.py:271-302 | the delivery path refuses before any adapter I/O exactly when the registry's capability check fails |
| Readiness.DeliverReachesAdapterIff | app/services/outbound_delivery.py:112-150 | a delivery reaches the adapter if and only if all its guards and the capability check pass |
| Readiness.RetryReachesAdapterIff | app/services/outbound_delivery.py:152-182 | a retry reaches the adapter if and only if account, status, policy and capability check pass |
| Readiness.PendingReadyIffDelivers | app/services/outbound_delivery_readiness.py:60-114 | a pending action is ready exactly when delivering it at that instant would reach the adapter |
| Readiness.FailedReadyIff | app/services/outbound_delivery_readiness.py:60-114 | a failed action is ready exactly when retrying it would reach the adapter and, what retrying ignores, it is not expired, not early, and its delay has run out |
| Readiness.FailedGateIsOpen | app/services/outbound_delivery_approvals.py:70-85 | the approval reason can never block a failed action |
| Readiness.TerminalIsInert | app/services/outbound_action_state_transitions.py:41-61 | terminal actions are never ready, and delivering or retrying them changes nothing |
| RetryDelay.ExponentialIsBackoff | app/services/outbound_retry_delay_policy.py:42-48 | the closed form equals the process that starts at the delay, doubles and stops at the cap, for every attempt count |
| RetryDelay.BackoffGrows | app/services/outbound_retry_delay_policy.py:42-48 | that process stays between delay and cap, never decreases and stays at the cap once there |
| RetryDelay.DelayIsMonotone | app/services/outbound_retry_delay_policy.py:16-48 | for both strategies the delay lies between delay and cap, never decreases with further attempts, and is constant from the cap on |
| RetryDelay.NextRetryTime | app/services/outbound_retry_delay_policy.py:42-48 | the next retry is due the fixed, or the doubled and capped, number of seconds after the failure, and never without a failure |
| RetryPolicy.SafeCodeIff | app/services/outbound_retry_policy.py:129-135 | a failure code is accepted exactly when, trimmed and lowered, it is a name of at most 100 lower-case letters, digits and underscores that starts with a letter |
| StateHistory.AcceptedLogIsChain | app/services/outbound_action_state_transitions.py:22-39 | the transitions spelled by any accepted log form a path of the guard from pending to the replayed status |
| StateHistory.NewestIsReversedTail | app/services/outbound_action_audit.py:74-83 | the bounded newest-first read is the reversed tail of the action's events |
| StateHistory.TransitionsShow | app/services/outbound_action_state_history.py:68-76 | the transitions are exactly what the delivered, failed, cancelled and expired events show: their kind, their time and the status they lead to |
| StateHistory.HistoryIsTrueSuffix | app/services/outbound_action_state_history.py:47-77 | over every run the history is a contiguous suffix of the action's transitions, a path of the guard ending in the current status, and with at most 100 events exactly the last min(limit, n) of them; it is empty if and only if the action is pending, or terminal and archived or unarchived at least 100 times, so with at most 100 events only a pending action has none and a failed one always has some |
| StateHistory.AcceptedLogHasTail | app/services/outbound_action_state_transitions.py:22-39 | in every accepted log the last transition comes right before exactly as many events as the terminal action was archived and unarchived, last of all for a failed action, and there is none while pending |
| StateHistory.QuietTailIff | app/services/outbound_action_audit.py:74-83 | the newest n events of an accepted log hold no transition exactly while pending or after at least n archive events of a terminal action |
| StateHistory.BoundedReadForgets | app/services/outbound_action_state_history.py:59-77 | 100 archive and unarchive calls leave a terminal action with an empty history: empty does not mean pending |
| OutboundWitnesses.HistoryCanVanish | app/services/outbound_action_state_history.py:59-77 | a concrete run from empty tables after which a cancelled action has an empty history at every permitted limit |
| OutboundWitnesses.ExpiredActionIsRetried | app/services/outbound_delivery.py:152-182 | a concrete run after which a failed action has expired and is not ready, yet a retry calls its adapter |
| Timeline.ListTimeline | app/services/outbound_action_timeline.py:139-176 | rejects a bad limit or range, then account, then action; otherwise, on tables whose rows are linked, the answer is the only list that consists of the oldest `limit` of exactly the selected items of the three sources in key order |
| Timeline.TimelineOfRun | app/services/outbound_action_timeline.py:139-176 | over every run a list is the length-limit prefix of a sorted list with exactly the selected items of the three sources if and only if it is the one computed |
| Timeline.AnswerShows | app/services/outbound_action_timeline.py:155-168 | before truncation the timeline shows exactly what the newest 100 audit events, the first 100 attempts and the linked approval of the action hold and every given criterion of the query admits, both time bounds included |
| Timeline.AnswerIsOldestFirst | app/services/outbound_action_timeline.py:169-176 | the timeline lists oldest first, at equal times approvals before audit events before attempts, and is cut to the limit without leaving out an earlier entry |
| Timeline.SortSorts | app/services/outbound_action_timeline.py:169-175 | for distinct keys the result is strictly ordered and a permutation of the input |
| Timeline.TimelineIsDetermined | app/services/outbound_action_timeline.py:156-176 | for distinct keys the list is the only sorted list of the selected items, whatever the order in which the sources are concatenated and whether filtering precedes or follows sorting |
| Timeline.SourcesHaveDistinctKeys | app/services/outbound_action_timeline.py:178-285 | the merged sources of an action have pairwise distinct sort keys in every state whose rows are linked, as all reachable ones are |
| Summary.StatusesPartition | app/services/integration_operational_summary.py:58-62 | the five status counts sum to the workspace's live actions |
| Summary.PrioritiesPartition | app/services/integration_operational_summary.py:67-70 | the four priority counts sum to the workspace's live actions |
| Summary.OwnersAndArchivePartition | app/services/integration_operational_summary.py:71-74 | owned and unowned, archived and unarchived counts each sum to the live actions |
| Summary.CountsHold | app/services/integration_operational_summary.py:58-78 | each count is of exactly the workspace's live actions with that status, with that priority, with an owner, and archived |
| Summary.GroupedMaxIsMax | app/services/integration_operational_summary.py:87-101 | the attempt count grouped inside one workspace is the one the delivery service uses |
| Summary.RetryableCountIsExact | app/services/integration_operational_summary.py:102-109 | over every run the retryable count is the number of live actions whose explicit retry would pass every guard apart from account activity, for whatever adapter, clock and outcome |
| Summary.VerdictDecidesRetry | app/services/integration_operational_summary.py:102-109 | one action is counted retryable exactly when a retry of it on an active account would be accepted |
| Summary.SummaryRaisesIff | app/services/integration_operational_summary.py:104-111 | over every run the retryable count of a workspace raises if and only if a live failed action below the attempt maximum has a stored failure code that is not a safe name |
| Summary.MalformedCodeRefusesRetry | app/services/outbound_retry_policy.py:68-97 | on an active account exactly those actions make a retry raise under the same policy, and nothing changes then |
| OutboundWitnesses.SummaryCanRaise | app/services/integration_operational_summary.py:104-111 | a concrete run in which one adapter's failure code makes the summary of the workspace raise |
| DirectTurns.AtMostOnePerKey | app/departments/sales/services/direct_conversation_turn_idempotency.py:63-108 | over all interleavings of any number of clients: under one key never two turns in flight, never one in flight beside a success, never two first successes |
| DirectTurns.SuccessesAgree | app/departments/sales/services/direct_conversation_turn_idempotency.py:146-175 | over all interleavings every success under a key, first or replayed, carries the same stored result and was asked with the same fingerprint |
| DirectTurns.OnlyFailedTurnsRelease | app/services/repository.py:146-177 | a receipt changes only by its owner completing it with its own result and disappears only by its owner discarding it after its turn raised |
| DirectTurns.SettledReceiptIsForever | app/departments/sales/services/direct_conversation_turn_idempotency.py:86-107 | a receipt whose owner no longer runs never changes again: completed keys replay for good, and a key whose owner crashed or could not write its outcome stays in progress for good |
| DirectTurns.BlockedForGoodIff | app/departments/sales/services/direct_conversation_turn_idempotency.py:86-107 | over every run a key in progress can still be released or completed by some continuation if and only if the client that reserved it is running its turn; otherwise it answers in progress for good |
| DirectTurns.CrashBlocksKey | app/departments/sales/services/direct_conversation_turn_idempotency.py:86-107 | a concrete run in which a client stores its message, crashes and leaves its key in progress for good |
| DirectTurns.CompletedIsForever | app/services/repository.py:146-168 | a completed key answers every later retry from the same receipt |
| DirectTurns.RetryIsAnswered | app/departments/sales/services/direct_conversation_turn_idempotency.py:82-89 | over every run and whatever others do before its read, a conflicting client is answered with the stored result exactly when the key then holds a completed receipt of the same request, as in progress exactly when that receipt is unfinished, as used differently exactly when it is another request's, and as raced exactly when there is none |
| DirectTurns.CompletedKeyReplays | app/departments/sales/services/direct_conversation_turn_idempotency.py:146-175 | over every run, once a key is completed every later client that repeats the request is answered with the stored result, and every other one is refused |
| DirectTurns.StoredMessagesOfCompletedKey | app/departments/sales/services/direct_conversation_turn_idempotency.py:86-98 | the stored customer messages of a completed key are exactly one of the completed turn and one of each other turn of the key that stored its message and then raised; crashed turns and failed completions are not among them |
| DirectTurns.MessageStoredOnceIff | app/departments/sales/services/direct_conversation_turn_idempotency.py:86-98 | over every run the message of a completed key is stored once, by the completing turn, if and only if no turn of the key ever raised after storing |
| DirectTurns.ReachableEndsSound | app/departments/sales/services/direct_conversation_turn_idempotency.py:86-107 | over every run a turn that crashed after storing, or could not write its outcome, still owns its reservation, and a turn that stored its message ends no other way than so, by success or by having raised |
| DirectTurns.RetryStoresMessageTwice | app/departments/sales/services/direct_conversation_turn_idempotency.py:86-98 | such a late failure occurs: a concrete interleaving in which the client's retry succeeds and the message is stored twice |
| DirectTurns.ReachableIsValid | app/services/repository.py:110-144 | every reachable state ties in-flight clients, receipts and stored messages together |
| DirectTurns.StepKeepsValid | app/services/repository.py:110-177 | each atomic step of any client keeps that tie |
| InboundEvents.HandledAtMostOnce | app/services/inbound_integrations.py:32-91 | over all interleavings and failures each (workspace, account, event id) reaches the handler at most once |
| InboundEvents.CorrelationIdentifiesEvent | app/api/routes/integrations.py:1456-1470 | whatever ids are generated, two requests know the same correlation id if and only if they are for the same event; a duplicate is told the first reservation's id |
| InboundEvents.FailedInsertExplained | app/services/inbound_integrations.py:49-63 | over every interleaving, whatever other requests do between a request's insert and its read: it raises if and only if its event still has no receipt at the read, and then its insert failed only because its correlation id was another event's and it has handled nothing; otherwise a failed insert is answered as a duplicate of the receipt found |
| InboundEvents.ReceiptsAreForever | app/services/inbound_integrations.py:32-63 | an inserted receipt is never changed or removed, also when handling its event fails |
| InboundEvents.HandlingIsReported | app/services/inbound_integrations.py:65-91 | over every run a request whose handling succeeds reports the correlation id of its event's receipt, one whose handling fails reports that, and the receipt stays either way |
| Common.TokenIff | app/departments/sales/services/direct_conversation_turn_idempotency.py:122-128 | a retry key or event id is accepted exactly when, trimmed, it has 1 to 200 characters, starts with an ASCII letter or digit and consists of those and `.`, `_`, `:`, `-` |
| InboundEvents.ReachableIsValid | app/services/inbound_integrations.py:32-91 | every reachable state ties receipts, their owners and the handled sequence together |
| ModelPricing.BuildCatalog | app/services/ai_model_pricing.py:75-83 | building fails exactly when a (provider, model) pair is listed twice; otherwise the catalogue holds exactly the listed prices |
| ModelPricing.CostAdds | app/services/ai_model_pricing.py:100-116 | cost is additive in the token counts |
| UsageLedger.CostIsCharge | app/services/ai_model_pricing.py:105-115 | a million times the cost is the input rate times the input tokens plus the output rate times the output tokens |
| UsageLedger.MadeRowIsPriced | app/services/ai_invocation_usage.py:198-222 | a recorded row carries the catalogue's cost when both counts are known and its pair is listed, and no cost otherwise |
| UsageLedger.NoneUnknown | app/services/ai_invocation_usage.py:122-145 | the unknown-pricing count is zero exactly when every row has a cost |
| UsageLedger.SpendDistributes | app/services/ai_invocation_usage.py:122-145 | known spend equals the sum over listed pairs of their rates applied to the token totals of their fully counted rows |
| UsageLedger.SpendByModelGrows | app/services/ai_model_pricing.py:85-116 | one more row adds its own cost under its own pair and nothing elsewhere |
| UsageLedger.SpendIgnoresOrder | app/services/ai_invocation_usage.py:114-145 | known spend does not depend on the order in which rows are read |
| UsageLedger.SpendIsMonotone | app/services/ai_invocation_usage.py:122-145 | with non-negative rates no appended row lowers known spend |
| UsageLimits.ReadPermitted | app/services/workspace_ai_usage_limits.py:213-222 | parses the permitted names, failing exactly on an unknown or repeated one, and always adds the tier that needs no model |
| UsageLimits.ReadDowngrades | app/services/workspace_ai_usage_limits.py:224-237 | parses the mapping, failing exactly when some entry is not a strict downgrade between model tiers; otherwise it maps exactly the listed tiers to the listed targets |
| UsageLimits.ReadConfiguration | app/services/workspace_ai_usage_limits.py:213-275 | the looped parse equals the declarative reading of the stored columns, and any malformed column is a configuration error |
| UsageLimits.DescriptionIsUnique | app/services/workspace_ai_usage_limits.py:213-245 | at most one configuration fits the stored columns, so the order of the stored entries does not matter |
| UsageLimits.DowngradesGoDown | app/services/workspace_ai_usage_limits.py:224-237 | every configured downgrade goes strictly down and stops above the tier without a model |
| UsageLimits.PassesIff | app/services/workspace_ai_usage_limits.py:99-211 | a model call passes if and only if its estimates are canonical, every enforced budget has room, and the requested tier is permitted or has a permitted, mapped downgrade; an allowed call keeps its tier, a downgraded one gets a lower permitted one |
| UsageLimits.ParseInvertsName | app/services/workspace_ai_usage_limits.py:321-330 | tier names and tiers correspond one to one |
| AiAnswers.TierNames | app/services/ai_model_tiers.py:13-19 | the four stored tier names and their order |
| AiAnswers.BlockedWhy | app/services/workspace_ai_usage_limits.py:156-211 | which reason blocks a model call: the first budget without room in the order invocations, tokens, spend, and only then the tier, each exactly in its case |
| AiGateway.CanonicalUsage | app/services/ai_invocation_gateway.py:254-279 | usable metadata are exactly completions with no negative or non-integer count and no contradicting total |
| AiGateway.Gateway.constructor | app/services/ai_invocation_gateway.py:96-111 | a new gateway has an empty ledger and has called nothing |
| AiGateway.Gateway.Invoke | app/services/ai_invocation_gateway.py:113-203 | the new ledger, the provider calls and the outcome are exactly those of the specification in every branch: policy errors, block, no model needed, unmapped tier, client failure, provider error, bad metadata, failed accounting, success |
| AiAnswers.OutcomeIff | app/services/ai_invocation_gateway.py:113-203 | which outcome a call has: configuration error, request error, no model needed, provider error, bad metadata, failed accounting or success, each exactly in its case |
| AiAnswers.UnreachedIff | app/services/ai_invocation_gateway.py:131-160 | a call is blocked exactly with the policy's reason, fails as unresolved exactly when its tier has no model and as unavailable exactly when the client cannot be built |
| AiAnswers.RowIsWrittenIff | app/services/ai_invocation_usage.py:73-111 | a row is written exactly when the write succeeds and its identifiers have 1 to 200 trimmed characters; it carries the trimmed task and agent and is successful exactly when the metadata were usable |
| AiBudget.AccountingIsConserved | app/services/ai_invocation_gateway.py:131-251 | over every run the ledger rows are, in order, exactly the provider calls whose write succeeded, so calls equal rows plus failed writes |
| AiBudget.OutcomeTellsTheCall | app/services/ai_invocation_gateway.py:131-203 | the outcome tells whether a model was called; every other outcome leaves ledger and provider untouched, and a failed call leaves at most one failed row without counts |
| AiBudget.UsageReportsReply | app/services/ai_invocation_gateway.py:174-203 | a returned usage repeats the counts the provider reported, for the requesting workspace, and its total is their sum whenever both are known |
| AiBudget.BudgetsHold | app/services/workspace_ai_usage_limits.py:156-211 | over every run, whatever providers report: rows never outnumber the invocation limit, tokens and known spend can pass their limits only with the last row, and under a spend limit every row but the last is priced |
| AiBudget.InvocationBudget | app/services/workspace_ai_usage_limits.py:169-177 | over every run a workspace's provider calls are its rows plus its lost writes, and exceed its invocation limit by at most the lost writes |
| AiBudget.TokenBudget | app/services/workspace_ai_usage_limits.py:179-191 | when each call's token estimate bounds what is recorded for it, total tokens never exceed the limit |
| AiBudget.SpendBudget | app/services/workspace_ai_usage_limits.py:193-209 | when each call's cost estimate bounds what is recorded for it, known spend never exceeds the limit |
| AiBudget.UnderestimatePassesLimit | app/services/workspace_ai_usage_limits.py:179-191 | a concrete call whose estimate of 1 token passes a limit of 10 and leaves 20 recorded |
| AiBudget.UnknownPriceRefuses | app/services/workspace_ai_usage_limits.py:193-203 | a workspace with a spend limit whose last row has no cost is refused every model call |
| AiBudget.UnknownPriceBlocks | app/services/workspace_ai_usage_limits.py:193-203 | under a spend limit at most one row has an unknown cost, it is the last one, and while it is there no call of the workspace reaches a provider |
| AiShutOff.ShutOffIff | app/services/workspace_ai_usage_limits.py:115-154 | over every run, no continuation makes a further provider call for a workspace if and only if it cannot call now: its policy is malformed, or some budget has no room for a call estimated at nothing, or no permitted tier has a model |
| AiShutOff.UnknownPriceShutsOff | app/services/workspace_ai_usage_limits.py:193-203 | under a spend limit a workspace whose last row has no cost makes no further provider call and gets no further row in any continuation of the run |
| AiShutOff.ProviderErrorShutsOff | app/services/ai_invocation_gateway.py:162-186 | over every run, under a spend limit one provider error or unusable metadata whose failed row is written shuts the workspace off in every continuation |
| AiShutOff.OneErrorEndsAllCalls | app/services/ai_invocation_gateway.py:162-172 | a concrete run in which a workspace that could call makes one call, the provider raises, and no later call of the workspace reaches a provider |
| AiShutOff.InvocationLimitPassedIff | app/services/workspace_ai_usage_limits.py:169-177 | over every run a workspace has made more provider calls than its invocation limit if and only if more of them lost their row than the limit had room for; with a limit of 0 it has made none |
| AiShutOff.LostWritePassesLimit | app/services/ai_invocation_gateway.py:231-251 | a concrete run with an invocation limit of 1 and a lost row in which two provider calls are made |
| AiEstimates.TokenEstimateIsNecessary | app/services/workspace_ai_usage_limits.py:179-191 | for a call and any token limit of at least its estimate: some run lets the call through and ends above the limit if and only if the call records more tokens than estimated |
| AiEstimates.SpendEstimateIsNecessary | app/services/workspace_ai_usage_limits.py:193-209 | the same for spend, where some permitted model has the price that fills the budget up to the estimate |
| AiBudget.LimitsAfterCallIff | app/services/workspace_ai_usage_limits.py:179-209 | from every ledger a further recorded call keeps its workspace within the token limit, and within the spend limit, if and only if what it recorded is at most the room left before it, which was never negative |
| AiBudget.WorkspacesAreIsolated | app/services/ai_invocation_usage.py:114-120 | a workspace's rows after a run are those of the run of its own calls alone |
| AiBudget.SameRowsSameOutcome | app/services/workspace_ai_usage_limits.py:115-127 | the outcome of a call depends on its own workspace's rows only |
| AiBudget.OtherWorkspaceUnchanged | app/services/ai_invocation_usage.py:53-112 | a call adds nothing to another workspace's rows |
| AiBudget.OnlyPermittedTiers | app/services/workspace_ai_usage_limits.py:129-154 | over every run every model called belongs to a mapped tier its workspace permits, never above the requested one |
| AiBudget.ProceedingCall | app/services/ai_invocation_gateway.py:131-160 | a call that reaches the provider passed every budget of its workspace and uses the model that its configuration alone determines |
| AiBudget.StepOfRows | app/services/ai_invocation_gateway.py:113-203 | one call changes a workspace's rows by nothing, or by one row behind rows that still had room for its estimates |
| AiBudget.RunIsPriced | app/services/ai_invocation_usage.py:198-222 | over every run each ledger row was priced from the catalogue |
| AiBudget.SpendOfRun | app/services/ai_invocation_usage.py:122-145 | over every run a workspace's known spend is the price list applied to its token totals |
| AiBudget.RunIsCharged | app/services/ai_invocation_usage.py:198-222 | over every run a ledger row has a cost exactly when both counts are known and its pair is listed, and a million times that cost is the listed input rate times its input tokens plus the listed output rate times its output tokens |
| AiBudget.ChargeOfRun | app/services/ai_invocation_usage.py:122-145 | over every run a million times the known spend of a workspace is the sum over the price list of input rate times input tokens plus output rate times output tokens |
| RetentionCleanup.AuditTable.SelectBatch | app/services/integration_account_audit.py:127-137 | returns up to `size` expired events of the workspace such that none left out is older than one chosen |
| RetentionCleanup.AuditTable.Cleanup | app/services/integration_account_audit.py:104-151 | for every positive batch size the loop terminates with exactly the workspace's events gone and counted that are older than the given number of days; a batch size below one is rejected unchanged |
| RetentionCleanup.BatchIsDeleted | app/services/integration_account_audit.py:141-148 | deleting one batch takes it out of the expired events and touches nothing retained |
| RetentionCleanup.CleanupComposes | app/services/integration_account_audit.py:104-151 | an immediate second cleanup finds nothing, and an earlier cleanup followed by a later one removes and counts what the later one alone would |

## Left out

- OutboundTables: each call is one sequential transaction, because the tables carry no row versions; two outbound calls that interleave on one action are not modelled.
- OutboundService.Database.CreateAction: a failing commit is modelled only where something outside was called before it; any other call whose commit fails changes nothing, like a refused one.
- OutboundTheorems.DecisionsAreFinal: does not promise that a message goes out once, because a commit can fail after it was sent; OutboundEffects.DecidedMessageWasSent says exactly when it does.
- OutboundEffects.CommittedCallsAreFinal: does not promise the same for calls whose commit failed, because the action is then as it was before the call.
- OutboundService.Database.DeliverPendingAction: one clock value per call stands for the separate readings of the clock; instants are integers, so timezone handling is not modelled.
- OutboundService.Database.CallAdapter: the foreign delivery (HTTP, signing, secret lookup) is an arbitrary result or an exception; what adapters do with an action is not modelled.
- OutboundService.Database.ApproveRequest: the conversation message that an approval stores, its stage and its text are not modelled, only that the message goes out; the channel is an arbitrary success or failure.
- OutboundCreation.CreateIsIdempotent: payloads are compared as opaque text, and generated identifiers are consecutive numbers.
- OutboundService.Database.CleanupExpired: audit events of removed actions stay behind, as in the default database configuration, which does not enforce foreign keys.
- OutboundTheorems.AuditLogRebuildsActions: audit events are read in write order, so timestamps are taken to follow it.
- Timeline.TimelineIsDetermined: ties in the sort key are broken by the numeric identifiers used here, not by the text of random ones.
- Readiness.EvaluateReadiness: explanation texts, and the retry time shown inside them, are not modelled.
- Summary.RetryableCountIsExact: counts of accounts, the recency window and the newest creation time are not modelled.
- DirectTurns.ReachableIsValid: a turn is an arbitrary result or failure that may store one message; its prompts, handoff policy, stage detection and language model are not modelled, nor are requests without a retry key, which nothing protects, or for a lead of another workspace, which are refused before reserving.
- DirectTurns.SuccessesAgree: fingerprints are opaque, so hash collisions of different requests are not modelled.
- InboundEvents.HandledAtMostOnce: requests without an event id header are not protected and not modelled; webhook authentication is assumed to have passed.
- Common.NormalizeToken: character classes are those of ASCII tokens; other lower-casing than of ASCII letters and the Kelvin sign is not modelled.
- ModelPricing.Cost: amounts are exact reals; the rounding of stored decimals to eight places is not modelled.
- AiGateway.Gateway.Invoke: calls are sequential, as the limit check takes no lock; routing of a task to a tier, prompts and the transport are inputs.
- UsageLimits.ReadConfiguration: amounts given as text or floating point, and their parse errors, are not modelled.
- RetentionCleanup.AuditTable.Cleanup: the batches see no event added while the loop runs.
- Role permissions, workspace membership and authentication: finite tables and foreign checks that guard the routes, not the state.
- Sales stages, qualification scores, handoffs, labels, annotations and owner names: one-table updates with one-branch rules.
- The supervisor, research and lead workflow agents, the event dispatcher and health views: orchestration without shared state of their own.
