# Licence fulfilment: a verified model

A Dafny model of the API's four state machines: fulfilment and its seat ledger, outbound
tickets and their repair queue, agent runs and human approval, and the time-window limiters.
They share one database.

## How the model is built

- **State.** `Database.Db` is the tables as a value; `Database.Tables` is the mutable object the
  services share. `Outside.World` adds what calls leave behind elsewhere: licences held in the
  tenant, licences granted, ServiceNow tickets opened and the order each was for. `AgentRuns.Agent` holds the principal, run
  and proposal rows, and `AgentApproval.Site` puts the two side by side.
- **Services** are classes whose methods update those objects step by step. Each method is proved
  equal to a specification function on the old state (`StageService.Advance`, `Assign.Outcome`,
  `OutboundRetry.Retry`, `AgentRuns.RunTurn`, ...).
- **The outside world** (Graph, ServiceNow, the queue, the agent runtime, the clock, a failing
  database write) answers through arguments: a recorded outcome per call.
- **Runs.** `Platform.Call` lists every fulfilment call and `Platform.Run` runs any sequence of
  them; `AgentMachine.AgentCall` adds the agent calls. `PlatformService.Service` and
  `AgentSiteService.Service` hold the service objects behind one door and are proved to make
  exactly those steps, so what holds over runs holds of the objects. One service call is one step, except in
  `IntakeRace`, `BudgetRace` and `ToolBudget`, where calls interleave at their reads and writes.
- **What the rows mean.** The modules named `...Laws`, and `AssignWrites`, `QueuedWrites` and
  `QueueFields`, say in terms of columns, literal constants and the outside world's answers when each
  call goes through and what it writes. They do not use the specification functions' own conditions,
  so they are an independent description the specification is proved to meet; `Terms` holds the few
  words they share.
- **Main results** are lemmas over all runs. `Reachable.EveryReachableState` collects the
  invariants from empty tables, which `Reachable.StartIsSound` shows to satisfy them; the module
  names below say which machine each law belongs to.

## What turned out to be false, and when it is true

- *One ticket per create* fails when a retry submits and its local write then fails: the row stays
  open and the next retry submits again (`OutboundLaws.SecondTicketAfterAFailedWrite`).
  `QueueDecisions.OrphansExactlyWhen` gives the exact condition for one retry, and
  `QueueHistory.RunKeepsQueue` the exact number of tickets for any run.
- *One licence ticket per request* fails in two ways, because the once-only guard looks at the
  request's own lines only. Retrying a queued submission after a later push went through opens a
  second ticket (`LicenceLaws.RetryAfterRepushOpensASecond`), and repairing a raise whose local
  write failed makes a second local request and leaves the pushed one without a RITM
  (`LicenceRepair.RepairDoesNotCloseTheGuard`). `LicenceLaws.StepOpensExactlyWhen` says exactly
  which calls open a ticket, and `LicenceLaws.SecondTicketExactlyWhen` when a request has more
  than one.
- *A retry places the order that failed* holds for a create (`CreateLaws.RetryAsksTheSame`) and never for
  a licence raise: the opener's sysId is not on the queue's allow-list, so the retry asks for the same
  licences without naming the requester by it (`RaiseLaws.RetryForgetsTheRequester`), and the provider
  falls back on the address that the intake path was meant not to use.
- *The kill switch can always be brought to settle* is false: it can if and only if no proposal is
  stranded (`Stranded.SettlesExactlyWhen`). A proposal is stranded exactly when the runtime takes a
  turn that ends its run while it waits (`Stranded.StepStrandsExactlyWhen`). The ordinary way there
  is a run that pauses on two calls: both runtime adapters refuse a resume that leaves a pause
  undecided (`openai-agents.provider.ts`, `claude-tool-runner.provider.ts`), so deciding one of the
  two proposals fails the run and strands the other (`Stranded.DecidingOneStrandsTheOther`, from
  empty tables in `Stranded.TwoPausesStrand`).
- *Terminal run states are final* holds call by call only: a turn that lands after an abort writes
  over it, dates it anew, or reopens the run (`Stranded.LateTurnOverwritesTheEnding`).
- *The budget gate keeps seats within the allocation* holds for one assign at a time; `k` assigns
  begun together overrun it by exactly `k - 1` (`BudgetRace.RushOverrunsTheBudget`).
- *The announced number of omitted turns* is exact if and only if the conversation has at most 21
  turns (a clause of `HistoryWindow.InputFor`).
- *Attempts equal retries* holds with one added: the column starts at 1, and a row is created with it.
  An abandoned row can be retried without being reopened, because `requireOpen` refuses resolved
  rows only, although its name says more.

## Model

| member | source | states |
|---|---|---|
| Stages.AggregateIgnoresOrder | apps/api/src/fulfilment/stage.service.ts:61-72 | the aggregate status is a function of the set of stages: neither order nor repeats of lines matter |
| Stages.CompletedMeansDelivered | apps/api/src/fulfilment/stage.service.ts:61-72 | COMPLETED if and only if some line is assigned and every line is assigned or cancelled |
| StageLaws.StatusMeans | apps/api/src/fulfilment/stage.service.ts:61-72 | OPEN, CANCELLED and COMPLETED each if and only if the lines stand as they say, with the stages written out; IN_PROGRESS is the rest |
| Database.Tables.FindStages | apps/api/src/fulfilment/stage.service.ts:142-146 | reads one stage per line of the request, covering exactly the set of its lines' stages |
| StageService.Service.AdvanceStage | apps/api/src/fulfilment/stage.service.ts:85-131 | one advance: the result and the new tables of `Advance`, whose moves StageLaws writes out one by one |
| StageLaws.AdvancesExactlyWhen | apps/api/src/fulfilment/stage.service.ts:25-117 | for every line, target and actor: accepted if and only if the line exists, the actor may touch it and the move is one of ten written out; otherwise refused with its own error and nothing changes |
| StageLaws.AdvanceMoves | apps/api/src/fulfilment/stage.service.ts:99-131 | an accepted advance moves that line, stamps the five working stages and no other, writes one timeline row and leaves every other column alone |
| StageLaws.WalksToTheEnd | apps/api/src/fulfilment/stage.service.ts:25-46 | an actor in scope can walk a line down any sequence of those moves to its end |
| StageLaws.BothWaysCanBeWalked | apps/api/src/fulfilment/stage.service.ts:25-46 | both ways from REQUESTED to READY are such sequences, and cancelling is one exactly from every stage short of ASSIGNED and CANCELLED |
| StageHistory.LinesFollowPathsOverRuns | apps/api/src/fulfilment/stage.service.ts:25-46 | over every run, read from the timeline rows: a line at READY or ASSIGNED came straight from REQUESTED or through QUOTING, OPCO_APPROVED and AWAITING_VENDOR in that order; nothing follows ASSIGNED or CANCELLED |
| StageService.Service.RecomputeRequestStatus | apps/api/src/fulfilment/stage.service.ts:141-152 | stores and returns the status its lines' stages determine |
| RequestService.Service.IntakeRequest | apps/api/src/fulfilment/request.service.ts:37-80 | files a request in scope, mirroring a ServiceNow record when one is named and found |
| RequestService.Service.AddLineItem | apps/api/src/fulfilment/request.service.ts:82-147 | adds one line at REQUESTED unless the request is the platform's own or complete, and recomputes |
| RequestService.Service.UpdateRequestHeader | apps/api/src/fulfilment/request.service.ts:160-198 | edits the header fields that changed; a UPN cannot change once the account has synced |
| RequestService.Service.RemoveLineItem | apps/api/src/fulfilment/request.service.ts:206-241 | removes a line only at REQUESTED and only without a RITM, and recomputes |
| RequestLaws.FilesExactlyWhen | apps/api/src/fulfilment/request.service.ts:37-80 | a request is filed if and only if its OpCo is known and in scope, the record it names is found and not mirrored yet; each refusal by its own error |
| RequestLaws.FiledRow | apps/api/src/fulfilment/request.service.ts:52-75 | every column of the filed request from the message and the record, both gates shut |
| RequestLaws.AddsExactlyWhen | apps/api/src/fulfilment/request.service.ts:82-125 | a line is added if and only if the request is an onboarding in scope that is not delivered (some line assigned, the rest assigned or cancelled) and the SKU exists |
| RequestLaws.AddedLine | apps/api/src/fulfilment/request.service.ts:126-147 | every column of the new row, one note, and no change but to the status of its request |
| RequestLaws.RemovesExactlyWhen | apps/api/src/fulfilment/request.service.ts:206-241 | a line goes if and only if it is this request's, at REQUESTED and without a RITM; nothing else moves |
| RequestLaws.EditsExactlyWhen | apps/api/src/fulfilment/request.service.ts:160-198 | an edit is accepted unless it names a UPN after the sync; each column becomes the one sent or stays, and a note is written exactly when something changed |
| SyncGates.OpenSyncGate | apps/api/src/fulfilment/open-sync-gate.ts:48-71 | sets the Azure gate, keeps an earlier account timestamp, writes one timeline row |
| SyncGates.OpenServiceNowUserGate | apps/api/src/fulfilment/open-sync-gate.ts:28-46 | sets the ServiceNow gate and the user's sysId, writes one timeline row |
| SyncGates.MarkRequestSynced | apps/api/src/fulfilment/assign.service.ts:79-103 | opens the Azure gate of a request in scope |
| GateHistory.StepMovesGates | apps/api/src/fulfilment/open-sync-gate.ts:28-71 | one call, any call: the gate columns of a request change exactly as an assertion in scope, an Azure sweep or a user sweep of that request says |
| GateHistory.GatesOpenByTheirCalls | apps/api/src/fulfilment/open-sync-gate.ts:28-71 | over every run a gate is open at the end if and only if it was open at the start or some call of the run opened it |
| Assign.Service.AssignLineItem | apps/api/src/fulfilment/assign.service.ts:110-811 | one assign, step by step: the result, the tables and the vendor calls of `Outcome`; AssignLaws and AssignWrites say what those are |
| Assign.Service.RunStoredGates | apps/api/src/fulfilment/assign.service.ts:181-227 | the stage gate and both sync gates stop the call exactly where the first of them fails |
| Assign.Service.RunUserGates | apps/api/src/fulfilment/assign.service.ts:229-258 | directory and usage-location gates; a failing directory read throws |
| Assign.Service.RunBudgetGate | apps/api/src/fulfilment/assign.service.ts:259-341 | refuses one seat past the allocation unless overridden, and holds the ticket when it refuses |
| Assign.Service.RunTenantGates | apps/api/src/fulfilment/assign.service.ts:343-490 | the holding read and the seats gate stop the call exactly where the gate list says; AssignLaws.StopsExactlyWhere writes the condition out |
| Assign.Service.PerformAssignment | apps/api/src/fulfilment/assign.service.ts:492-656 | licence first, then the transaction; a refused licence call changes nothing |
| Assign.Service.CommitAssignment | apps/api/src/fulfilment/assign.service.ts:572-644 | stage, seat, timeline row and status move together; no seat when already held |
| Assign.Service.WriteTicketBack | apps/api/src/fulfilment/assign.service.ts:658-770 | closes the line's RITM, else notes the parent record, else skips; failures are queued |
| Assign.Service.HoldTicketOnce | apps/api/src/fulfilment/assign.service.ts:863-891 | asks for the hold at most once successfully per line |
| Assign.Service.WriteTicket | apps/api/src/fulfilment/assign.service.ts:902-928 | a refused and a thrown ticket move are both queued |
| AssignLaws.AssignsExactlyWhen | apps/api/src/fulfilment/assign.service.ts:158-546 | for every state, call and answer: it assigns if and only if the line is in scope, an override is an admin's with a reason, the line is READY, both gates are open, the user is found, a location is known, a seat is left in the allocation or overridden, the licence is held or the SKU unlimited or the tenant lists one more unit, and the licence call works |
| AssignLaws.StopsExactlyWhere | apps/api/src/fulfilment/assign.service.ts:181-490 | otherwise it stops at the first of those that fails, reporting the ones before it, or throws where the outside world gave no answer |
| AssignLaws.ImproperCallsThrow | apps/api/src/fulfilment/assign.service.ts:110-180 | a missing or foreign line and a misused override are refused before any gate, each with its error, and nothing happens |
| AssignLaws.UnlicensedCallsThrow | apps/api/src/fulfilment/assign.service.ts:492-546 | with every gate passed a licence call that does not work throws and nothing happens |
| AssignLaws.DoneReports | apps/api/src/fulfilment/assign.service.ts:492-790 | the eleven reports of a call that assigned, each from the rows and answers |
| AssignWrites.DoneWrites | apps/api/src/fulfilment/assign.service.ts:492-811 | everything such a call writes: line, stamp, ledger row, timeline rows, status, queue, holdings and grants, and nothing else |
| TenantUnits.RunStaysWithinUnits | apps/api/src/fulfilment/assign.service.ts:420-490 | over every run whose inventory reads are honest when made, no metered SKU is held by more users than it has units |
| QueuedWrites.HoldsOrQueues | apps/api/src/fulfilment/assign.service.ts:863-958 | a hold is asked for once per line with a RITM: taken it is dated, not taken it is queued as a hold of that RITM with its note |
| QueuedWrites.AssignQueues | apps/api/src/fulfilment/assign.service.ts:658-958 | an assign queues a hold for a budget refusal, a close or a parent note for an assign whose write-back did not go through, word for word, and otherwise nothing |
| AssignReport.BlockedListsTheGatesReached | apps/api/src/fulfilment/assign.service.ts:131-158 | a refusal lists the gates in order up to the failing key, and only the last one failed |
| AssignReport.DoneListsEveryStep | apps/api/src/fulfilment/assign-step.ts:48-76 | success lists all eleven keys in order; only `ticket` may have failed, only `budget` be overridden |
| AssignReport.AssignsExactlyWhenEveryGatePasses | apps/api/src/fulfilment/assign.service.ts:181-546 | the gate list decides: no gate is skipped and none is asked twice (the gates themselves are written out in AssignLaws) |
| AssignReport.RefusalLeavesTheDomainAlone | apps/api/src/fulfilment/assign.service.ts:181-546 | any other ending leaves stages, ledger, statuses, timeline and licences untouched; only a budget refusal may hold a ticket or queue a row |
| AssignReport.DoneMovesOneLineAndOneSeat | apps/api/src/fulfilment/assign.service.ts:572-644 | exactly one line becomes ASSIGNED and exactly its cell gains one seat, none when already held |
| AssignReport.CommitMovesOneLineAndOneSeat | apps/api/src/fulfilment/assign.service.ts:572-644 | the same for the transaction alone, allocations unchanged |
| History.MoveKeepsSound | apps/api/src/fulfilment/stage.service.ts:99-131 | a legal stage move keeps the cached status, the replayable timeline and the gate invariants |
| History.MoveExtendsTheTimeline | apps/api/src/fulfilment/stage.service.ts:99-131 | the moved line's path grows by exactly that edge; every other line's path is unchanged |
| History.InsertKeepsSound | apps/api/src/fulfilment/request.service.ts:82-147 | authoring a line keeps every invariant and cannot reopen a completed request |
| History.DeleteKeepsSound | apps/api/src/fulfilment/request.service.ts:206-241 | removing a REQUESTED line keeps every invariant |
| History.CreateKeepsSound | apps/api/src/fulfilment/request.service.ts:60-80 | a new request is OPEN and its lines replay from REQUESTED |
| History.EditKeepsSound | apps/api/src/fulfilment/request.service.ts:160-198 | a header or gate edit moves no stage and no status |
| PlatformHistory.AssignKeeps | apps/api/src/fulfilment/assign.service.ts:572-656 | an assign, however it ends, keeps status, timeline and gate invariants |
| PlatformHistory.StepKeeps | apps/api/src/fulfilment/stage.service.ts:133-152 | every call keeps them, and COMPLETED is absorbing under all of them |
| PlatformHistory.RunKeeps | apps/api/src/fulfilment/stage.service.ts:25-72 | over every run: status equals the aggregate of its lines, each timeline replays to the row, an ASSIGNED line has both gates open, no gate closes, the UPN is frozen at sync, COMPLETED stays |
| Seats.OneSeatOneHolder | apps/api/src/fulfilment/assign.service.ts:584-599 | one more seat and one more holding move the drift by one exactly when the user held the licence already |
| AssignSeats.AssignStaysExplained | apps/api/src/fulfilment/assign.service.ts:584-612 | ledger and ASSIGN rows move together in one assign |
| AssignSeats.AssignDrifts | apps/api/src/fulfilment/assign.service.ts:343-379 | one assign drifts by one exactly when its holding read gave no answer and the user held the licence |
| AssignSeats.DoneGrantsTheUser | apps/api/src/fulfilment/assign.service.ts:493-546 | the licence goes to the request's own user, past both gates, and only when not already held |
| SeatHistory.OtherCallsMoveNoSeat | apps/api/src/fulfilment/assign.service.ts:572-612 | no call but an assign touches seats, licences or ASSIGN rows |
| SeatHistory.RunStaysExplained | apps/api/src/fulfilment/assign.service.ts:584-612 | over every run each ledger cell is its starting value plus the ASSIGN rows for that OpCo and SKU that were not already held |
| SeatHistory.RunDrifts | apps/api/src/fulfilment/holding-check.service.ts:58-86 | over every run seats minus holders of a SKU never falls and rises by exactly the blind double charges, at most the unread holdings |
| SeatHistory.RunGrantsOneUser | apps/api/src/fulfilment/request.service.ts:160-187 | over every run all licences granted for one request went to one user, the one it still names |
| CheckThenAct.RunStaysBounded | apps/api/src/agent/tool-registry.ts:222-259 | a counter checked below a limit and incremented later, with at most k calls between, ends at most k-1 past it plus what was forced |
| CheckThenAct.TheBoundIsReached | apps/api/src/agent/tool-registry.ts:222-259 | the bound is exact for the counter: a schedule of k calls reaches it |
| BudgetRace.NextFollowsTheCounter | apps/api/src/fulfilment/assign.service.ts:268-309 | each move of overlapping assigns is a move of that counter for every ledger cell |
| BudgetRace.RunFollowsTheCounter | apps/api/src/fulfilment/assign.service.ts:268-309 | every schedule of assigns is a run of the counter, as crowded as the schedule |
| BudgetRace.SeatsStayWithinBudget | apps/api/src/fulfilment/assign.service.ts:268-309 | under every schedule seats stay within allocation plus landed overrides plus k-1 |
| BudgetRace.RushOverrunsTheBudget | apps/api/src/fulfilment/assign.service.ts:268-309 | any k assigns each let through on their own, with one seat left and begun together, end exactly k-1 seats past the allocation without an override |
| ToolBudget.RunFollowsTheCounter | apps/api/src/agent/tool-registry.ts:222-259 | tool calls under any schedule are a run of the counter |
| ToolBudget.AutonomousCallsStayBounded | apps/api/src/agent/tool-registry.ts:222-259 | a run records at most 25+k-1 successful autonomous calls |
| ToolBudget.Registry.CountSteps | apps/api/src/agent/tool-registry.ts:222-236 | counts this run's successful autonomous steps |
| ToolBudget.Registry.Execute | apps/api/src/agent/tool-registry.ts:244-259 | refuses exactly when a capped tool is past the ceiling; only a call that went through spends |
| LimiterLaws.LetsThroughExactlyWhen | apps/api/src/agent/tool-registry.ts:222-259 | a tool runs if and only if a person approves it or its run has made fewer than twenty-five successful calls by itself |
| FailureQueue.PickKeys | apps/api/src/fulfilment/outbound-failure-fields.ts:170-180 | keeps exactly the allowed, non-secret, defined entries |
| FailureQueue.PickFailurePayload | apps/api/src/fulfilment/outbound-failure-fields.ts:183-196 | the stored payload is the per-kind projection, with lines only for the two request kinds |
| FailureQueue.PickFailureExternalRef | apps/api/src/fulfilment/outbound-failure-fields.ts:199-214 | the stored references are the per-kind projection, or nothing |
| FailureQueue.StoredRowIsAllowed | apps/api/src/fulfilment/outbound-failure-fields.ts:82-214 | for every kind and input, no key outside the allow-lists and no secret name is stored, in the payload, the references or any line of either; values under an allowed key are stored whole |
| QueueFields.SecretMeans | apps/api/src/audit/audit-fields.ts:459-475 | a name is never stored if and only if it is one of nine or ends in hash or secret, in any case |
| QueueFields.PayloadStores | apps/api/src/fulfilment/outbound-failure-fields.ts:82-196 | name by name for each kind: the row keeps exactly the values under the names listed, and lines with three names for the two request kinds |
| QueueFields.ReferencesStore | apps/api/src/fulfilment/outbound-failure-fields.ts:153-214 | only a mirror row keeps references: the ticket's two and its items' two |
| QueueFields.NamesAreStorable | apps/api/src/fulfilment/outbound-failure-fields.ts:82-161 | no listed name is a secret one, so what a row is meant to keep it keeps |
| FailureQueue.Record | apps/api/src/fulfilment/outbound-failure.service.ts:48-74 | appends an open row with the projected payload and references |
| FailureQueue.MarkResolved | apps/api/src/fulfilment/outbound-failure.service.ts:105-116 | closes the row and counts the attempt |
| FailureQueue.MarkAttemptFailed | apps/api/src/fulfilment/outbound-failure.service.ts:124-133 | counts the attempt and leaves the status |
| FailureQueue.MarkAbandoned | apps/api/src/fulfilment/outbound-failure.service.ts:139-148 | closes the row without counting an attempt |
| FailureQueue.Reopen | apps/api/src/fulfilment/outbound-failure.service.ts:151-160 | back to open, its decider cleared |
| IntakeService.IntakeRequest | apps/api/src/fulfilment/intake.service.ts:59-154 | one push: the result and the tables of `Intake`, whose rows IntakeLaws writes out |
| IntakeService.CreateOrRecover | apps/api/src/fulfilment/intake.service.ts:104-153 | a unique violation returns the request that won |
| IntakeLaws.IntakesExactlyWhen | apps/api/src/fulfilment/intake.service.ts:59-161 | a REQ that is mirrored is answered with its request; another is stored if and only if its OpCo is known, every SKU can be ordered and the write goes through |
| IntakeLaws.PushStores | apps/api/src/fulfilment/intake.service.ts:104-135 | every column of the stored request equals its field of the message, and its lines are the message's lines in order, by SKU, quantity and RITM |
| GateHistory.PushedRequestsWaitForTheirGates | apps/api/src/fulfilment/intake.service.ts:104-135 | over every run: pushed without a sync time, no line of the request is ASSIGNED until some later call opened its Azure gate, nor in any case before its user gate was opened |
| IntakeRace.CompletedCallsShareOneRequest | apps/api/src/fulfilment/intake.service.ts:59-161 | for any number of calls for one REQ under every interleaving, all that complete return the same request and it is the only one |
| IntakeRace.RefusedCallsRecover | apps/api/src/fulfilment/intake.service.ts:137-151 | a call refused by the constraint always finds the winner |
| IntakeRace.OnlyOwnWritesFail | apps/api/src/fulfilment/intake.service.ts:104-153 | a call ends in a database error only when its own write failed |
| IntakeRace.AloneItIsIntake | apps/api/src/fulfilment/intake.service.ts:59-161 | the interleaved steps of one undisturbed call give the result of the whole call |
| OutboundRequest.Service.CreateRequest | apps/api/src/fulfilment/outbound-request.service.ts:39-179 | checks, then submit, then mirror; each failing half leaves its own kind of row |
| OutboundRequest.Service.ResolveLines | apps/api/src/fulfilment/outbound-request.service.ts:48-68 | every SKU is resolved before anything is submitted |
| CreateLaws.CreatesExactlyWhen | apps/api/src/fulfilment/outbound-request.service.ts:39-179 | each of the six endings of a create by its own condition, and nothing changes before the submission |
| CreateLaws.CreateOpensOneTicket | apps/api/src/fulfilment/outbound-request.service.ts:71-83 | a create that submits opens one ticket, for the user, OpCo, requester, remark and lines it was given |
| CreateLaws.CreateStores | apps/api/src/fulfilment/outbound-request.service.ts:107-140 | every column of the mirrored request and of each line, line i with item i's RITM |
| CreateLaws.CreateQueues | apps/api/src/fulfilment/outbound-request.service.ts:84-166 | a create that reached ServiceNow and mirrored nothing leaves one row: a submit row or a mirror row, holding the message |
| CreateLaws.RetryAsksTheSame | apps/api/src/fulfilment/outbound-retry.service.ts:156-180 | the order a retry places from the row is the order the create placed |
| CreateHistory.FailedSubmitIsMadeGood | apps/api/src/fulfilment/outbound-retry.service.ts:156-180 | over every run: a create that could not submit is made good by a retry that submits, under one new ticket for the same order, storing the request and lines the create would have stored |
| CreateHistory.FailedMirrorIsMadeGood | apps/api/src/fulfilment/outbound-retry.service.ts:190-199 | over every run: a create that could not store is made good without a ticket, storing the request and lines of the ticket there is |
| OutboundRetry.Service.RetryFailure | apps/api/src/fulfilment/outbound-retry.service.ts:70-116 | one retry: the result, the tables and the tickets of `Retry`; QueueFields and QueueLaws say what those are |
| OutboundRetry.Service.RunRepair | apps/api/src/fulfilment/outbound-retry.service.ts:73-96 | dispatch by kind; only a submit row submits, and a note, a ticket move or a mail is replayed by the one vendor call its row names |
| OutboundRetry.Service.RunSubmitRepair | apps/api/src/fulfilment/outbound-retry.service.ts:156-180 | submits, then writes the mirror from the fresh references |
| OutboundRetry.Service.RunMirrorRepair | apps/api/src/fulfilment/outbound-retry.service.ts:190-199 | writes the mirror from the recorded references and never submits |
| OutboundRetry.Service.StoreRepairedMirror | apps/api/src/fulfilment/outbound-retry.service.ts:316-373 | the mirror of a ticket already stored is returned, otherwise built line by line |
| OutboundRetry.Service.AbandonFailure | apps/api/src/fulfilment/outbound-retry.service.ts:119-129 | abandons any row that is not resolved |
| OutboundRetry.Service.ReopenFailure | apps/api/src/fulfilment/outbound-retry.service.ts:132-148 | reopens abandoned rows only |
| QueueFields.RetryRecords | apps/api/src/fulfilment/outbound-retry.service.ts:70-115 | a retry of an unresolved row counts one attempt and closes the row in the actor's name exactly when it succeeded; no other row moves |
| QueueFields.AbandonsExactlyWhen | apps/api/src/fulfilment/outbound-retry.service.ts:117-129 | any unresolved row is abandoned in the actor's name, without an attempt |
| QueueFields.ReopensExactlyWhen | apps/api/src/fulfilment/outbound-retry.service.ts:131-148 | only an abandoned row is reopened, and its decider cleared |
| QueueFields.RepairDoes | apps/api/src/fulfilment/outbound-retry.service.ts:156-210 | each repair kind by kind: what it submits, what it writes and each way it fails |
| QueueFields.MoveIsReplayedExactlyWhen | apps/api/src/fulfilment/outbound-retry.service.ts:210-252 | a ticket is moved if and only if its row names it and says close or hold: a task when the row says so, otherwise a RITM |
| QueueFields.NoteIsReplayedTo | apps/api/src/fulfilment/outbound-retry.service.ts:299-307 | a note goes to the record and table its row names, and to the RITM table when it names none |
| QueueFields.MailIsReplayedExactlyWhen | apps/api/src/fulfilment/outbound-retry.service.ts:254-297 | a mail is sent again exactly when it has a recipient and is the one template without parameters |
| QueuedWrites.QueuedMoveIsRepairable | apps/api/src/fulfilment/outbound-retry.service.ts:210-252 | a queued hold is replayed as a hold and a queued close as a close, on the same RITM with the same note, and succeeds if and only if the vendor takes that call |
| QueuedWrites.QueuedNoteIsRepairable | apps/api/src/fulfilment/outbound-retry.service.ts:300-312 | a queued note is replayed on the parent record in its own table |
| QueueLaws.QueuedWritesStayRepairable | apps/api/src/fulfilment/outbound-retry.service.ts:70-312 | over every run: whatever an assign queued, as long as the row is not resolved a retry makes the very call that was missed and resolves the row if and only if the vendor takes it |
| QueueLaws.QueuedMailStaysRepairable | apps/api/src/fulfilment/outbound-retry.service.ts:265-297 | over every run: a queued mail that is not resolved is sent again if and only if it has a recipient, is the template without parameters, and is taken |
| RepairRoundTrip.PayloadLinesReadBack | apps/api/src/fulfilment/outbound-retry.service.ts:376-386 | lines survive projection and parsing in order |
| RepairRoundTrip.TicketRefsReadBack | apps/api/src/fulfilment/outbound-failure-fields.ts:199-214 | ticket and RITM references survive projection and parsing, RITM by index |
| RepairRoundTrip.RepairBuildsWhatCreateWouldHave | apps/api/src/fulfilment/outbound-retry.service.ts:190-373 | repairing an orphaned create stores the same request and lines, field by field |
| OutboundLaws.LostWriteIsRecovered | apps/api/src/fulfilment/outbound-request.service.ts:110-169 | the same after any run of the platform in between |
| OutboundLaws.OneTicketPerFailedSubmit | apps/api/src/fulfilment/outbound-retry.service.ts:70-180 | over every run whose retries of it can write locally, a failed-submit create has one ticket when resolved and none before; attempts are 1 plus admitted retries |
| OutboundLaws.OneTicketPerFailedMirror | apps/api/src/fulfilment/outbound-retry.service.ts:190-199 | over every run a failed-mirror create keeps its one ticket and is never submitted again |
| OutboundLaws.ResolvedMeansMirroredOnce | apps/api/src/fulfilment/outbound-retry.service.ts:316-373 | a resolved request row has a ticket mirrored by exactly one request |
| OutboundLaws.SecondTicketAfterAFailedWrite | apps/api/src/fulfilment/outbound-retry.service.ts:156-180 | a retry that submits and cannot write locally is followed by a second ticket |
| QueueDecisions.OrphansExactlyWhen | apps/api/src/fulfilment/outbound-retry.service.ts:156-180 | a retry orphans a ticket if and only if it submits, the ticket is not mirrored and the local write fails |
| QueueDecisions.RetryDecides | apps/api/src/fulfilment/outbound-retry.service.ts:70-116 | one more attempt, resolved exactly when repaired, a ticket exactly when a submit row submitted, other rows untouched |
| QueueHistory.RunKeepsQueue | apps/api/src/fulfilment/outbound-failure.service.ts:105-160 | over every run contents are fixed, RESOLVED is final, attempts grow by admitted retries, tickets beyond the resolution's own are exactly the orphaned ones |
| QueueHistory.StepKeepsQueue | apps/api/src/fulfilment/outbound-retry.service.ts:388-395 | the same for each call, with the queue invariant: mirror rows have one ticket and never a retry's, a resolved row was replayable |
| LicenceTicket.LineIdsAreTheLines | apps/api/src/fulfilment/intake-adapter.service.ts:273-282 | the ticket's lines are the request's lines in ascending order |
| LicenceTicket.RitmLandsByIndex | apps/api/src/fulfilment/intake-adapter.service.ts:333-345 | item i's RITM lands on line i |
| LicenceTicket.Service.IntakeFlatRequest | apps/api/src/fulfilment/intake-adapter.service.ts:177-244 | mirrors the request, then raises its ticket |
| LicenceTicket.Service.RaiseLicenceRequest | apps/api/src/fulfilment/intake-adapter.service.ts:268-396 | once-only guard, submit, then RITMs and number together or a mirror row |
| LicenceTicket.Service.SubmitLicence | apps/api/src/fulfilment/intake-adapter.service.ts:292-376 | past the guard: one submission, then its RITMs and number together, or the queue row of the half that failed |
| RaiseLaws.RaiseDoes | apps/api/src/fulfilment/intake-adapter.service.ts:268-376 | case by case: a request without lines or with a RITM is left alone; another is submitted for, and its RITMs, number and note or its queue row are written, with the order the ticket was for |
| RaiseLaws.RetryForgetsTheRequester | apps/api/src/fulfilment/outbound-failure-fields.ts:82-101 | the retry of a failed raise places the same order without the opener's sysId |
| RaiseLaws.FlatPushBecomes | apps/api/src/fulfilment/intake-adapter.service.ts:200-214 | the message a flat push becomes: no text, no times, the REQ's sysId and number, the default licence once or no line |
| RaiseLaws.FlatPushDoes | apps/api/src/fulfilment/intake-adapter.service.ts:177-244 | refused for an unknown or inactive OpCo and an unusable REQ; otherwise pushed and, if that gave a request, raised |
| LicenceTicket.Service.WriteRitms | apps/api/src/fulfilment/intake-adapter.service.ts:333-345 | the updates of the transaction, by index |
| LicenceAccounting.RaiseAccounts | apps/api/src/fulfilment/intake-adapter.service.ts:285-376 | one raise keeps tickets equal to (1 if a line has a RITM) plus unwritten rows, for every request |
| LicenceHistory.RemoveKeepsRitms | apps/api/src/fulfilment/request.service.ts:218-229 | a line with a RITM is never removed, so the guard never reopens |
| LicenceHistory.RunAccounts | apps/api/src/fulfilment/intake-adapter.service.ts:268-376 | over every run the tickets raised by pushes are the one the lines carry, if any, and the unwritten ones; tickets of retries are counted in LicenceLaws |
| LicenceHistory.FlatRequestsAlwaysAccounted | apps/api/src/fulfilment/intake-adapter.service.ts:177-376 | and from the first push of every request the flat intake creates, again for tickets raised by pushes |
| LicenceLaws.StepOpensExactlyWhen | apps/api/src/fulfilment/intake-adapter.service.ts:268-376 | a call opens a ticket for a request if and only if it is a submitted push of it that finds lines and no RITM, or a submitted retry of one of its unresolved submit rows |
| LicenceLaws.FlatRequestsBalance | apps/api/src/fulfilment/intake-adapter.service.ts:177-376 | full balance over every run of every call: all tickets of the request are the one on its lines, if any, the unwritten ones, and the submitted retries of its own rows |
| LicenceLaws.SecondTicketExactlyWhen | apps/api/src/fulfilment/intake-adapter.service.ts:285-376 | more than one ticket if and only if those three come to more than one |
| LicenceLaws.RetryAfterRepushOpensASecond | apps/api/src/fulfilment/outbound-retry.service.ts:156-180 | a push whose submission fails, a push that goes through and a retry of the first row open two tickets |
| LicenceRepair.RepairDoesNotCloseTheGuard | apps/api/src/fulfilment/outbound-retry.service.ts:316-373 | repairing a raise's row makes a second request and leaves the first without a RITM |
| LicenceRepair.RaiseTicketsExactlyWhen | apps/api/src/fulfilment/intake-adapter.service.ts:285-307 | a raise opens a ticket if and only if there are lines, none has a RITM and the submission goes through |
| AgentServices.KillSwitch.AssertEnabled | apps/api/src/agent/kill-switch.service.ts:170-180 | refuses exactly when the principal exists and is inactive |
| AgentServices.KillSwitch.Set | apps/api/src/agent/kill-switch.service.ts:109-153 | creates or flips the principal |
| AgentServices.KillSwitch.Status | apps/api/src/agent/kill-switch.service.ts:72-93 | settled means off, no live run, no pending proposal |
| AgentServices.AiAssist.StartRun | apps/api/src/agent/ai-assist.service.ts:140-159 | switch, request, scope, wording and one-open-run guards, then the queue |
| AgentServices.AiAssist.StartConversationRun | apps/api/src/agent/ai-assist.service.ts:183-201 | switch only, then the queue |
| AgentServices.AiAssist.StoreRun | apps/api/src/agent/ai-assist.service.ts:212-333 | second look at the principal, profile, row; a failed enqueue ends the run |
| AgentServices.AiAssist.Execute | apps/api/src/agent/ai-assist.service.ts:344-414 | runs only `running` runs; a switched-off agent fails the run rather than leaving it |
| AgentServices.AiAssist.Resume | apps/api/src/agent/ai-assist.service.ts:518-602 | resumes waiting runs; an unreadable state expires the run |
| AgentServices.AiAssist.PersistTurn | apps/api/src/agent/ai-assist.service.ts:1194-1288 | a finished turn ends the run; a pause records proposals up to the first unknown tool |
| AgentServices.AiAssist.Fail | apps/api/src/agent/ai-assist.service.ts:1167-1184 | ends the run as failed, proposals as they are |
| AgentServices.AiAssist.Expire | apps/api/src/agent/ai-assist.service.ts:1048-1091 | ends the run and drops its pending proposals undecided |
| AgentServices.AiAssist.Abort | apps/api/src/agent/ai-assist.service.ts:916-949 | stops open runs only, dropping pending proposals undecided |
| AgentServices.AiAssist.Hide | apps/api/src/agent/ai-assist.service.ts:968-976 | hides ended runs only |
| AgentServices.AiAssist.Unhide | apps/api/src/agent/ai-assist.service.ts:989-992 | puts a hidden run back |
| RunLaws.StartsExactlyWhen | apps/api/src/agent/ai-assist.service.ts:140-159 | a run starts from a request screen if and only if the agent is on, the request exists, is in scope and says something, and has no open run |
| RunLaws.ConversationStartsExactlyWhen | apps/api/src/agent/ai-assist.service.ts:183-201 | from a conversation only the switch is asked |
| RunLaws.QueueDoes | apps/api/src/agent/ai-assist.service.ts:212-333 | the row of a new run, column by column; failed at once when it cannot be queued |
| RunLaws.ExecutesExactlyWhen | apps/api/src/agent/ai-assist.service.ts:344-414 | a run is executed if and only if it is running; a switched-off agent fails it |
| RunLaws.ResumesExactlyWhen | apps/api/src/agent/ai-assist.service.ts:518-602 | a run is resumed if and only if the agent is on and it waits with a legible state; an illegible one expires it |
| RunLaws.TurnDoes | apps/api/src/agent/ai-assist.service.ts:1167-1288 | what a turn writes: failed, completed, or paused with one proposal row per pause up to the first unknown tool, each column spelled out |
| RunLaws.AbortsExactlyWhen | apps/api/src/agent/ai-assist.service.ts:916-949 | an open run is aborted by whoever may see it, and exactly its pending proposals are dropped, undecided |
| RunLaws.HidesExactlyWhen | apps/api/src/agent/ai-assist.service.ts:968-992 | an ended run is hidden, any run is put back, and nothing else moves |
| RunLaws.BatchMeans | apps/api/src/agent/run-expiry.service.ts:94-119 | the sweep sees at most fifty waiting runs started more than seven days ago, the oldest first |
| RunLaws.SweepDoes | apps/api/src/agent/run-expiry.service.ts:120-156 | a sweep ends exactly the runs it found and drops exactly their pending proposals |
| RunLaws.SettledMeans | apps/api/src/agent/kill-switch.service.ts:72-93 | settled if and only if switched off, no run open and no proposal pending |
| AgentServices.RunExpiry.Sweep | apps/api/src/agent/run-expiry.service.ts:94-156 | expires each stale run the query returned and counts them |
| AgentHistory.SweepClears | apps/api/src/agent/run-expiry.service.ts:94-156 | after a sweep something stale is left only if the batch was full |
| ProposalHistory.RunKeepsAgent | apps/api/src/agent/agent-run-status.ts:28-32 | over every run: endings are final, `endedAt` is set exactly when terminal, waiting runs have a state, hidden runs have ended, one open run per request screen, decider and decision time together |
| ApprovalService.Service.ApproveProposal | apps/api/src/agent-approval/agent-approval.service.ts:107-168 | one approval: the result and the state of `Approve`, whose decision and rows ApprovalLaws writes out |
| ApprovalService.Service.RunAssign | apps/api/src/agent-approval/agent-approval.service.ts:236-306 | the ordinary assign without override; blocked is failed, done is executed, a throw changes nothing |
| ApprovalService.Service.RunLineItems | apps/api/src/agent-approval/agent-approval.service.ts:125-168 | the lines are created before the decision is recorded, and the run resumed after it; ApprovalLaws says which lines |
| ApprovalService.Service.Resolve | apps/api/src/agent-approval/agent-approval.service.ts:410-463 | refuses exactly as the payload, the run's request and every SKU say, before the first write |
| ApprovalService.Service.CreateLineItems | apps/api/src/agent-approval/agent-approval.service.ts:336-408 | creates lines in order and stops at the first that throws |
| ApprovalService.Service.LoadDecidable | apps/api/src/agent-approval/agent-approval.service.ts:467-504 | pending, its run waiting, its reference present |
| ApprovalService.Service.RejectProposal | apps/api/src/agent-approval/agent-approval.service.ts:170-198 | records the rejection without asking the switch, then resumes |
| ApprovalLaws.RefusedBeforeTheFirstWrite | apps/api/src/agent-approval/agent-approval.service.ts:107-165 | switched off, undecidable, or a list that is for another request, empty, or asks for a quantity below one or a SKU that cannot be ordered: refused with its error, and nothing changes |
| ApprovalLaws.CreatesInOrder | apps/api/src/agent-approval/agent-approval.service.ts:336-408 | lines are created in order, all of them or as many as the database takes, and none where lines cannot be authored |
| ApprovalLaws.ApprovedItemsBecomeLines | apps/api/src/agent-approval/agent-approval.service.ts:107-168 | on the tables: line i of an approved list is a new row of the run's own request at REQUESTED with item i's quantity and SKU; the proposal is executed with exactly those ids if all were created, else failed |
| ApprovalLaws.ApprovedAssignIsAnAssign | apps/api/src/agent-approval/agent-approval.service.ts:236-306 | an approved assign is that assign by the approver without an override: executed, failed or left undecided as it ended |
| ApprovalLaws.RejectsExactlyWhen | apps/api/src/agent-approval/agent-approval.service.ts:170-198 | a decidable proposal is rejected by that person at that time, switch or no switch |
| Provenance.ErasureLeavesAPlatformRun | apps/api/src/agent-approval/agent-approval.service.ts:107-198 | erasing the agent tables from any combined run leaves a run of the platform alone |
| Provenance.CreationsSucceed | apps/api/src/agent-approval/agent-approval.service.ts:336-408 | each credited line creation succeeded where it stood in that run, with the id reported |
| Provenance.LogIsTruthful | apps/api/src/agent-approval/agent-approval.service.ts:236-408 | over every run each entry of the log holds on the platform as the entries before it left it: a credited assign assigned, a reported line is the one created |
| ProposalHistory.RunKeepsBooks | apps/api/src/agent-approval/agent-approval.service.ts:236-408 | over every run: an executed list accounts for one successful line creation per item, in order, on the proposal's request, with that item's quantity and SKU and the id the proposal reports; an executed assign for one assign; a failed list for a proper prefix; the rest for nothing |
| SwitchedOff.AgentCallWindsDown | apps/api/src/agent/kill-switch.service.ts:155-180 | with the switch off an agent call changes nothing on the platform, and runs and proposals only stop |
| SwitchedOff.SwitchedOffRun | apps/api/src/agent/kill-switch.service.ts:155-180 | until it is turned on the platform moves exactly as people's own calls move it |
| SwitchedOff.SettledStays | apps/api/src/agent/kill-switch.service.ts:72-93 | live runs plus pending proposals never rise, and settled stays |
| Stranded.StepStrandsExactlyWhen | apps/api/src/agent/ai-assist.service.ts:374-414 | a call strands a proposal if and only if the runtime takes a turn that ends the run (throws, completes, or pauses on an unknown tool) while the proposal waits, pending before or recorded by that turn |
| Stranded.TurnStrandsExactlyWhen | apps/api/src/agent/ai-assist.service.ts:1167-1288 | the same for one turn |
| Stranded.DecidingOneStrandsTheOther | apps/api/src/agent/openai-agents.provider.ts:397-403 | of two pending proposals of a run, deciding one strands the other once the adapter refuses the partial decision |
| Stranded.TwoPausesStrand | apps/api/src/agent/ai-assist.service.ts:1224-1271 | it happens from empty tables: one conversation, one turn with two pauses, one rejection |
| Stranded.SettlesExactlyWhen | apps/api/src/agent/kill-switch.service.ts:72-93 | some calls that never turn the switch on lead to settled if and only if no proposal is stranded |
| Stranded.StrandedNeverSettles | apps/api/src/agent/ai-assist.service.ts:1167-1184 | a stranded proposal stays pending for ever and the switch never settles |
| Stranded.LateTurnOverwritesTheEnding | apps/api/src/agent/ai-assist.service.ts:1200-1271 | a turn landing on an ended run keeps the status exactly when it says the same, always dates the ending anew when it ends the run, and reopens the run when it merely pauses |
| ReviewStats.MedianHasHalfOnEachSide | apps/api/src/agent/review-stats.service.ts:94-101 | at least half of the values lie on each side of the median |
| ReviewStats.MedianIgnoresOrder | apps/api/src/agent/review-stats.service.ts:94-101 | the median does not depend on row order |
| ReviewStats.RatesAreShares | apps/api/src/agent/review-stats.service.ts:81-84 | a rate lies in 0 to 1 and reads as 1 exactly from 99.95 per cent, in real arithmetic |
| ReviewStats.ByReviewer | apps/api/src/agent/review-stats.service.ts:190-212 | one entry per decider, none left out, each tallying exactly its own rows |
| ReviewStats.Summarise | apps/api/src/agent/review-stats.service.ts:126-212 | on any reachable state every returned entry names a person, each once, and their decided, approved, rejected and fast counts sum to the returned total |
| ReviewLaws.TotalsMean | apps/api/src/agent/review-stats.service.ts:126-182 | the totals are the numbers of proposals decided in the window, of those executed or failed, of the others, and of those decided in under 29.5 seconds |
| ReviewLaws.TallyMeans | apps/api/src/agent/review-stats.service.ts:171-182 | the rate is the share of approvals to the nearest thousandth, the median that of the rows' seconds |
| ReviewLaws.MedianMeans | apps/api/src/agent/review-stats.service.ts:94-101 | the middle value in ascending order, or the mean of the two in the middle, a half counting up |
| ReviewLaws.SecondsMean | apps/api/src/agent/review-stats.service.ts:103-107 | to the nearest second, a half counting up, never below zero |
| ReviewStats.ReachableFiguresAddUp | apps/api/src/agent/review-stats.service.ts:171-212 | the same for any listing of the deciders |
| ReviewStats.DroppedProposalsDoNotCount | apps/api/src/agent/ai-assist.service.ts:1081-1087 | proposals dropped by an abort or an expiry move no figure |
| LoginLockout.LocalUser.TryLogin | apps/api/src/auth/auth.service.ts:57-116 | an inactive, single-sign-on or hashless account is refused; a locked one answers without a password check; success clears the window |
| LoginLockout.LocalUser.RegisterFailedLogin | apps/api/src/auth/auth.service.ts:248-260 | the fifth failure in a row locks for fifteen minutes and restarts the count |
| LoginLockout.FailedChecksAreBounded | apps/api/src/auth/auth.service.ts:80-105 | n failed checks over time T without success satisfy n <= 5(T/15min + 1) |
| LoginLockout.TheBoundIsReached | apps/api/src/auth/auth.service.ts:248-260 | five failures at each unlocking meet that bound exactly |
| LimiterLaws.LoginDoes | apps/api/src/auth/auth.service.ts:57-116 | each attempt by its case: locked, good or bad, the fifth bad one locking for nine hundred seconds |
| LimiterLaws.TheFifthLocks | apps/api/src/auth/auth.service.ts:248-260 | bad passwords lock an account exactly from the fifth on and exactly for that long |
| PasswordReset.Resets.Issue | apps/api/src/auth/password-reset.service.ts:71-118 | issues exactly for an active local account with a password and no token younger than five minutes |
| PasswordReset.Resets.Consume | apps/api/src/auth/password-reset.service.ts:130-206 | accepts exactly a live token of an active local account, spends it, sets the password and unlocks the account |
| PasswordReset.NeverMoreThanSixLive | apps/api/src/auth/password-reset.service.ts:93-110 | no account ever has more than six live tokens |
| PasswordReset.SixAreReached | apps/api/src/auth/password-reset.service.ts:93-110 | six is reached |
| PasswordReset.SpentStaysSpent | apps/api/src/auth/password-reset.service.ts:130-146 | a spent token is left as it is by every call |
| LimiterLaws.IssuesExactlyWhen | apps/api/src/auth/password-reset.service.ts:93-118 | a token is issued if and only if none is younger than three hundred seconds |
| LimiterLaws.LivesHalfAnHour | apps/api/src/auth/password-reset.service.ts:93-146 | an issued token can be spent for half an hour, and once |
| SyncCheck.Service.Check | apps/api/src/fulfilment/sync-check.service.ts:56-118 | found, throttled or asked; the stamp is set before the vendor is asked, whatever it answers; the map and the vendor calls stay those of the cooldown machine on the checks so far |
| SyncCheck.Service.AskedApart | apps/api/src/fulfilment/sync-check.service.ts:68-81 | the vendor calls the service really made for one request are at least thirty seconds apart |
| SyncCheck.Service.CooldownRemaining | apps/api/src/fulfilment/sync-check.service.ts:121-129 | whole seconds left, on the pruned map |
| SyncCheck.Service.Prune | apps/api/src/fulfilment/sync-check.service.ts:136-140 | drops exactly the expired stamps |
| SyncCheck.PruningIsInvisible | apps/api/src/fulfilment/sync-check.service.ts:121-141 | answers equal those of a map that is never pruned, for any interleaving of requests |
| SyncCheck.VendorCallsAreApart | apps/api/src/fulfilment/sync-check.service.ts:68-81 | two vendor calls for one request are at least thirty seconds apart |
| SyncCheck.WaitingIsEnough | apps/api/src/fulfilment/sync-check.service.ts:121-129 | a throttled caller waits 1 to 30 seconds, and that is enough |
| LimiterLaws.RemainingMeans | apps/api/src/fulfilment/sync-check.service.ts:121-129 | the seconds named are the fewest whole ones after which a check is due |
| HistoryWindow.InputFor | apps/api/src/agent/ai-assist.service.ts:434-502 | the longest most recent stretch within 20 turns and 20000 characters, or the newest turn alone, in order; an omission is announced exactly when there is one, and its number is right if and only if there are at most 21 turns |
| PlatformService.Service.PerformAll | apps/api/src/fulfilment/assign.service.ts:110-811 | any sequence of calls on the service objects is that run of the machine, and keeps its invariants |
| AgentSiteService.Service.Perform | apps/api/src/agent/ai-assist.service.ts:140-414 | any call on the platform and agent service objects is that step of the combined machine |
| Reachable.EveryReachableState | apps/api/src/fulfilment/assign.service.ts:572-656 | from empty tables, every state people and agents reach together keeps the platform, queue, grant and agent invariants; ledger, drift, licence tickets and proposals add up, and the log they add up from is truthful |

## Left out

- HTTP controllers, guards, DTO validation, cookies, audit rows, logging and message wording: no state the laws speak about.
- Graph, ServiceNow, n8n, e-mail, Redis and the agent SDK adapters: they answer through arguments; the provider is held to naming one item per line where a law needs it.
- Conversations beyond their turn list, SSE, queue transport, user administration, refresh tokens, SSO, connector settings, seeds and deployment.
- Allocation imports, catalogue edits and reconciliation: the catalogue and the allocations are fixed in every run.
- The order of `byReviewer` entries and reviewers' display names: a library sort and a lookup.
- Runs without a profile: `executeRun` may then throw before its `try`, which a run created by `queueRun` never does.
- Concurrent retries of one queue row: retries are whole calls; only intake, assigns and tool calls are interleaved.
- Service Desk task references on intake lines: columns nothing reads.
- LicenceTicket.Raise: its timeline note always succeeds; in the code a failed note is swallowed and nothing else depends on it.
- Provenance.ErasureLeavesAPlatformRun: states the platform half at whole-call granularity, as every run law here does.
- ReviewStats.RatesAreShares: rates are exact reals rounded to three places; the code computes them in floating point.
- ToolBudget.AutonomousCallsStayBounded: holds while step writes succeed; the code says itself that losing them stops the count.
- SeatHistory.RunDrifts: counts licences that the platform's own calls put on users; changes made in the tenant by others are not part of it.
