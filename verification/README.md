# Central: proofs about its durable actions, money, trials and permissions

Central sells servers that regions run. It keeps the intents, the bills, the trials and the grants; a region keeps
the machines, may not answer, and reports late. This project models the parts of Central where that gap matters and
proves what they keep over every run. Where a promise of the code or of its comments does not hold, the project says
so with a concrete run and proves exactly when it does hold.

| files | subject |
|---|---|
| `ActionProtocol`, `ActionSafety`, `ActionResults`, `ActionWorker` | the durable action: rows, row locks, workers that crash, calls, machines and the paged search; what every step keeps; at most one call, when a settlement is sound; the worker's stretches updated in place |
| `CreatedSearch`, `ActionList`, `AtlasReply` | the paged search for a machine nobody answered about, over any changing list; its scan as steps of the protocol; the classification of replies |
| `ResizeReplay`, `ResizeWorker` | a resize that may crash or be refused anywhere, and run again |
| `Sums`, `Ledger`, `Budget` | the change log as the price lock, the batched reads of it, and the spending limit over runs |
| `BillingStates`, `Dunning` | the status machines and their events; suspend and restore of an unpaid team |
| `TrialStates`, `TrialPhases`, `TrialPower`, `TrialClock` | the trial of one owner: the count and the lock over three tables, the two jobs that race for one server, the timetable |
| `Capabilities`, `Iam`, `Permissions` | the closure of capabilities, grouped grants, and the readings that must agree |
| `StateDelivery` | a region's reports in any order |
| `EmailCode`, `Digest`, `TaxShare` | one-time codes, digest windows, tax by server |

`dafny verify dfyconfig.toml` checks everything.

## What does not hold, and exactly when it does

- A terminal action can be written over by any job of it that is under way, dispatched or not: one that outlived its
  job lock, the only one after a report settled the action, or one whose handler rolled back before it locked the row
  again (`TerminalReopensIffJob`, `FailedReadReopens`, `EarlyCrashReopens`).
- A creation can be settled as not accepted although it has, or will have, a machine: if and only if a call is still
  under way when the search starts, or a machine of it is listed, which deletions can carry past the pages read
  (`FalseSettlementIff`, `LateLandingOrphans`, `MissedIff`). While no machine vanishes, only an outstanding call or a
  machine older than the dispatch the search looks behind can do it (`FalseSettlementIffStill`).
- A crash between a resize's reshape and its start leaves a paid, running server stopped and the resize succeeded
  (`ReplayConverges`, `CrashAfterReshapeLeavesStopped`). The docstring of `resize_server` (`central/integrations/servers.py:146`) promises a start.
- A Failed resize can have the new shape, unbilled and stopped: any call after the reshape can be refused too
  (`RefusalKeepsShapeIff`, `RefusedStartLeavesNewShape`, `RefusalRestoresPowerIff`).
- A retried creation is checked at today's price and billed at the price accepted before (`RetryKeepsIff`); a
  resumed subscription (`ResumeKeepsIff`) and a failed creation that a late worker makes pending again
  (`ReopenKeepsIff`) pass no gate, and a resize passes one that forgets what is reserved (`ResizeKeepsIff`,
  `ResizeOverspends`): all four can overspend, and a reopened creation can pass the trial limit (`ReopensIff`).
- A resize that names no subscription and finds the server's own cancelled on the very plan it moves to enables it
  again without a billing segment (`SegmentIsTargetIff`).
- A subscription cancelled before its future start keeps its opening rate (`CancelBeforeStartStaysOpen`).
- A paid trial's server can stay down, exactly after a step that is not clean (`StepEndsDownIff`): its stop job fails or
  dies after the stop, the job queue also drops requests while a job runs, a report or a reading of up is recorded after
  the stop job's own, a conversion begins just before the stop job commits, or a job dies.
- `mark_terminated` and `_apply_deletion` call a termination final; a report newer than the watermark undoes it
  (`TerminationStaysIff`, `DeletedStaysTerminatedIff`), and can then put an owner over the trial limit (`ComesBackIff`).
- A server's host can lag behind its latest report (`HostConvergesIff`).
- A payment before dunning's stop completed leaves the server stopped, and a stop of the customer's that dunning
  adopts is undone by the payment (`RoundTripRestoresIff`).
- The two lock readings can disagree, though in no reachable state (`LockViewsAgreeIff`, `LockViewsAgree`). An operator's
  gate without its bypass can disagree with `can`, though no caller asks it so (`GateAloneAgreesIff`).
- A one-time code outlives the expiry its email names whenever a wrong code was compared after it was stored
  (`OutlivesIff`), by one expiry for each wrong code at most (`LifeIsBounded`).
- The feed hides categories a user turned off in the app, and the digest does not (`FeedMatchesDigest`).
- A feed entry committed after the digest that covers its creation time is in no digest (`ReadIff`).

## Hypotheses

Money is in whole minor units and time in whole units. Each operation that holds a row or the Team lock is one step.
A region's list is newest first and its clock within 120 seconds of Central's. Names are compared exactly, as
Python does, and a server is never named `*`. A region that refuses a call in so many words did not act on it; one
that does not answer may have. A call has landed when its machine is listed with its metadata, and a region sends
whole creation times. A read sees what is committed. How the job queue treats a job it already knows is not part of
this model: both readings are covered where it matters (`TrialPower.Dedupe`).


## Model

| member | source | states |
|---|---|---|
| `ActionResults.AtMostOneCall` | central/integrations/resource_actions.py:44-144 | For every run of any number of workers, with a crash possible after every step and the job lock free to expire, an action's calls to the region number at most one plus its retries, its machines at most its calls, and a command is sent at most once |
| `ActionResults.SnapshotBeforeTerminate` | central/integrations/resource_actions.py:442-487 | Whenever a call of a terminate with a final snapshot exists, that snapshot is Available |
| `ActionResults.NoSharedMachine` | central/integrations/resource_actions.py:136-145 | Two creations never hold the same remote machine, in their rows or in their server records |
| `ActionResults.BoundMachineIsItsOwn` | central/integrations/resource_actions.py:172-196 | Every machine a creation's row or server record names carries that creation's marker |
| `ActionResults.OneIdentity` | central/integrations/resource_actions.py:147-169 | A creation that was never retried has one machine: any two with its marker are the same |
| `ActionResults.SettlementSound` | central/integrations/resource_actions.py:147-169 | If no call of the action is outstanding at a step, and the search that settles it as not accepted began later, met no vanishing machine and had no match older than the dispatch it looks behind, then no machine of its tenant, image and marker exists, then and ever after without a retry |
| `ActionResults.OwnMachinesAreNewer` | central/integrations/resource_actions.py:172-196 | An action never retried has no match older than the dispatch its settling search looked behind |
| `ActionResults.FalseSettlementIff` | central/integrations/resource_actions.py:147-208 | Over all runs, a search that begins can end in a false not-accepted if and only if a call of the action is still outstanding or a machine of it is listed, which joining and vanishing machines can carry past every page read |
| `ActionResults.FalseSettlementIffStill` | central/integrations/resource_actions.py:147-208 | While no machine vanishes it can if and only if every listed match is older than a dispatch some worker still looks behind, and there is such a match or a call is outstanding |
| `ActionResults.LateLandingOrphans` | central/integrations/resource_actions.py:131-169 | A concrete run from the start: the reply is lost, the search meets an empty list, the action is Failed, and the call lands |
| `ActionResults.FailedReadReopens` | central/integrations/resource_actions.py:384-439 | A concrete run from the start with one worker: a report settles the action, and the worker's failed read writes Sent over Succeeded |
| `ActionResults.EarlyCrashReopens` | central/integrations/resource_actions.py:54-71 | A concrete run from the start in which no call is ever made: a worker raises on a queued start, a report settles the start before the handler has the row, and the handler writes Sent over Succeeded |
| `ActionResults.TerminalReopensIffJob` | central/integrations/resource_actions.py:48-71 | A terminal status can be written over by a worker's next step, or by its handler's once it raised, if and only if a job of the action is under way, dispatched or not |
| `ActionResults.RetriesCounted` | central/infrastructure/doctype/resource_action/resource_action.py:446-469 | The retries of a row are the retry events of the run |
| `ActionSafety.RunKeeps` | central/integrations/resource_actions.py:87-144 | Every reachable state keeps locks, one ticket for one call, machines accounted to calls, marked bindings, dispatch times no later than the machines they built, searches that passed by no match in a list that did not shrink, settlements that such searches justify, and snapshots before terminates |
| `ActionSafety.CleanSearchIsRight` | central/integrations/resource_actions.py:172-208 | A search in a list that lost nothing says not-accepted only when none of the machines it started from, and built since its dispatch, matches |
| `ActionList.ScanIsProtocolStep` | central/integrations/resource_actions.py:185-208 | Each answer of the scan of one page of the region's list is a step of the protocol's search: found, ended, or on to the next page |
| `ActionList.ListedIff` | central/integrations/resource_actions.py:199-208 | The list the search reads shows exactly the tenant's living machines |
| `ActionProtocol.Finished` | central/infrastructure/doctype/resource_action/resource_action.py:315-326 | What settling on an observed state writes, with the goal of each verb as a server state: a settled row stays; any other succeeds exactly at its goal, fails exactly at Failed or Terminated short of it, times out exactly if it is a command overdue short of all these, and is In Progress otherwise |
| `ActionProtocol.Handled` | central/integrations/resource_actions.py:57-84 | The last-resort handler fails only what was still Queued and never makes an action Queued again |
| `ActionWorker.DispatchExactly` | central/integrations/resource_actions.py:87-144 | From a row the worker calls the region, searches for what an earlier one built, finalizes or observes it, begins the final snapshot, or leaves, each in exactly the stated case: it leaves only a settled action and a final snapshot still awaited |
| `ActionWorker.Central.ReadForUpdate` | central/integrations/resource_actions.py:87-93 | Locks the row and reads what is committed |
| `ActionWorker.Central.CommitTransaction` | central/integrations/resource_actions.py:118-121 | Publishes the row of the open transaction, releases its locks and moves the worker on |
| `ActionWorker.Central.RollbackTransaction` | central/integrations/resource_actions.py:57-62 | Drops the row of the open transaction and its locks |
| `ActionWorker.Central.ProcessLocked` | central/integrations/resource_actions.py:87-144 | One stretch of the job keeps the invariant and leaves, by the row as it was read: a settled action untouched, a bound creation to be finalized, an unanswered one searched for behind its dispatch, a queued one refused or marked; a command refused, observed, marked, or with its final snapshot awaited, begun or failed |
| `ActionWorker.Central.ProcessCreate` | central/integrations/resource_actions.py:87-144 | The creation branches, each with the rows and the worker it leaves: bound, unanswered, refused, or the dispatch marker committed before the call |
| `ActionWorker.Central.ProcessCommand` | central/integrations/resource_actions.py:384-439 | The command branches up to the committed dispatch marker, each with the rows, snapshots and worker it leaves: a command whose server changed hands is failed even when it was sent |
| `ActionWorker.Central.IsFinalSnapshotReady` | central/integrations/resource_actions.py:442-487 | True exactly when the snapshot is Available; otherwise it is waited for, fails the action, waits for another snapshot of the server, fails with the stop that prepares it, or is started once |
| `ActionWorker.Central.RecordReply` | central/integrations/resource_actions.py:122-144 | Accepted: a creation is bound and goes on to its record, a command is Sent and observed; declined: Failed, or Succeeded for a terminate of a machine that is gone; lost: a creation is searched for under its lock, a command Uncertain and observed |
| `ActionWorker.Central.TurnPage` | central/integrations/resource_actions.py:199-208 | A full page without a match leaves exactly the protocol's search of the next page |
| `ActionWorker.Central.RecoverUnanswered` | central/integrations/resource_actions.py:147-169 | A match leaves the creation Sent, bound and to be finalized, an empty search Failed, an unreadable region Uncertain, each with its row free |
| `ActionWorker.Central.ReadNextPage` | central/integrations/resource_actions.py:185-208 | The next page of the region's own list settles the search, by a match that is not too old or by showing none before it ends or a machine is too old, or is full and clear and turned |
| `ActionWorker.Central.RecoverCreation` | central/integrations/resource_actions.py:87-169 | A job that nothing interrupts, in a region that answers, ends an unanswered creation: bound and Sent if a living machine of its tenant, image and marker is listed and not older than the dispatch allows, and Failed and free if there is none |
| `ActionWorker.Central.FinalizeLocally` | central/integrations/resource_actions.py:261-301 | The server record is made once and the machine observed; a failed finalization leaves the action Sent with its remote identity, and the worker idle |
| `ActionWorker.Central.Finish` | central/infrastructure/doctype/resource_action/resource_action.py:315-326 | The committed row is settled against the observed state, with the goal of each verb spelled out: Succeeded, Failed, Timed Out for an overdue command, or In Progress, and the row is free |
| `ActionWorker.Central.RaiseException` | central/integrations/resource_actions.py:57-62 | A job that raises rolls back first: no row changes and no lock of the worker is left |
| `ActionWorker.Central.HandleException` | central/integrations/resource_actions.py:63-71 | Then its handler reads the row again under the lock and writes Failed on a queued one, Sent on a bound one and Uncertain on any other, and makes no call |
| `ActionWorker.RetryLeaves` | central/infrastructure/doctype/resource_action/resource_action.py:446-469 | A retry makes the creation Queued again as it was submitted, with no dispatch on record, and it may be sent once more exactly if no machine is bound to it |
| `ActionWorker.ConfirmLeaves` | central/infrastructure/doctype/resource_action/resource_action.py:382-412 | A report settles as Succeeded exactly an action that nobody holds, is open, and has reached its verb's goal, a creation only once its server is on record |
| `AtlasReply.Read` | central/integrations/atlas.py:395-431 | A read is never classed uncertain |
| `AtlasReply.MutationOutcomeExact` | central/integrations/atlas.py:477-528 | Of every reply to a mutation exactly one holds: explicit refusal and definite, readable success and accepted, or uncertain; of the refusals 404 is an absence, 401 and 403 a refused login, and any other client error or a 503 that names why a rejection |
| `AtlasReply.ReadOutcomeExact` | central/integrations/atlas.py:477-528 | Of every reply to a read: success, absence and named refusal are recognised exactly, and anything else is a plain error |
| `CreatedSearch.FindCreated` | central/integrations/resource_actions.py:172-208 | The paged search with early stop answers what the page-by-page definition does on any lists, returns only machines of ours, what a full scan returns on a list that stands still, and over a list that grows in front misses no machine of the first page request that is not older than the dispatch allows |
| `CreatedSearch.ReadPage` | central/integrations/resource_actions.py:185-196 | One page, row by row: too old is asked before ours, and the verdict is that of the first row that decides |
| `CreatedSearch.FullScanFindsIff` | central/integrations/resource_actions.py:172-196 | A full scan finds a machine exactly when one of ours stands before the first stop |
| `CreatedSearch.MissedIff` | central/integrations/resource_actions.py:172-208 | However machines join and vanish, the search answers None about a machine listed all the time if and only if it slips past a page boundary before any page shows it and no later page that is read shows it again |
| `CreatedSearch.MissedIffSlips` | central/integrations/resource_actions.py:199-208 | While machines only vanish, it answers None if and only if the machine slips past a page boundary between two requests |
| `CreatedSearch.DeletionHidesMachine` | central/integrations/resource_actions.py:199-208 | One deletion between two pages: every view lists our machine and the search answers None |
| `ResizeReplay.SucceededMeansApplied` | central/integrations/resource_actions.py:304-368 | Over every run of crashes, refusals, unanswered calls and cancellations, Succeeded means the observed shape was the target's when the resize was billed, and that it was billed in exactly one step; a job that has not succeeded has billed nothing |
| `ResizeReplay.AgreedStep` | central/integrations/servers.py:145-192 | What each agreed call does to the machine, the mirror, the segments and the status, and that nothing else succeeds but the billing |
| `ResizeReplay.RefusedStep` | central/integrations/servers.py:145-192 | A refusal changes nothing there and fails the resize wherever it comes, but at the billing, which is asked again, and where a refused reshape first brings the power back |
| `ResizeReplay.DecidesExactly` | central/integrations/servers.py:145-192 | What the machine just read is sent through: refused exactly for a rescue in the way of a reshape, or running asleep; else woken or stopped to be reshaped, grown, or started |
| `ResizeReplay.SegmentIsTargetIff` | central/billing/catalog/subscriptions.py:577-598 | After success the open segment is the target plan's if and only if no cancellation came later and, when the resize was billed, the subscription was open, or none is named and the server's own did not end on that very plan, which is then enabled again without a segment |
| `ResizeReplay.RefusalKeepsShapeIff` | central/integrations/servers.py:145-192 | A Failed resize was refused at one step, and kept the old shape if and only if no reshape and no disk growth took effect before it; a refusal on the way to the reshape always kept it, one after the last change only when there was nothing to change; nothing is billed either way |
| `ResizeReplay.RefusedStartLeavesNewShape` | central/integrations/servers.py:178-191 | A concrete run: the reshape is accepted and the start refused, and the resize is Failed at the new shape, with the server stopped and the old plan billed |
| `ResizeReplay.AttemptIsRun` | central/integrations/resource_actions.py:304-368 | An attempt, however its calls are answered, is a piece of a run without a crash |
| `ResizeReplay.AttemptConverges` | central/integrations/resource_actions.py:304-368 | From any unfinished job, however earlier attempts crashed, one uninterrupted attempt with a cooperative region leaves exactly `Outcome` |
| `ResizeReplay.ReplayConverges` | central/integrations/resource_actions.py:304-381 | After any run that did not end the job, a replay succeeds at the target shape; it leaves the machine running if and only if the request names no subscription, the shape it decides on is not the target yet, or the machine runs already |
| `ResizeReplay.CrashAfterReshapeLeavesStopped` | central/integrations/resource_actions.py:371-381 | A crash between reshape and start: the replay succeeds and the server stays stopped |
| `ResizeReplay.RefusalRestoresPowerIff` | central/integrations/servers.py:173-182 | After a refused reshape the machine runs again if and only if it was not stopped when the attempt read it and the restart worked, even where a later poll of it was refused; an unanswered restart leaves the resize open, anything else Failed |
| `ResizeWorker.WaitForPowerState` | central/integrations/servers.py:216-233 | The poll succeeds exactly when some reading is the goal; one command at most, at the first settled reading before it |
| `ResizeWorker.Worker.ResizeServer` | central/integrations/servers.py:145-192 | However each of its calls is answered, it goes through exactly the attempt of the state machine; the shape changes exactly when the call that sets it was reached and agreed to, and success means the target, running, awake and observed |
| `ResizeWorker.Worker.ApplyBilling` | central/billing/catalog/subscriptions.py:577-598 | Appends the target's segment unless it bills already or the subscription closed |
| `ResizeWorker.Worker.ProcessResize` | central/integrations/resource_actions.py:304-368 | One attempt equals `Attempt` for every way its calls can be answered, and `Outcome` when all agree |
| `Ledger.LatestUnique` | central/billing/catalog/subscriptions.py:1002-1009 | The latest segment of a subscription is the only one no other outdates |
| `Ledger.OtherRowsKeepSegments` | central/billing/catalog/subscriptions.py:51-63 | A Past Due, Suspended, Reactivated, Paused, Resumed or Payment Method entry, or another subscription's, never alters an open segment or its rate |
| `Ledger.RateBearingRowSetsRate` | central/billing/catalog/subscriptions.py:891-923 | A Created or Plan Changed entry makes the open rate its own and a Cancelled one makes it nothing, unless a rate-bearing entry that is there takes effect later: then it changes nothing |
| `Ledger.OpenRateIs` | central/billing/catalog/subscriptions.py:1002-1009 | The open rate read off any log: that of the entry that opened the subscription or changed its plan last, by time of effect and then by order, and nothing if that entry cancelled it |
| `Ledger.PlanChangeMovesRunRate` | central/billing/catalog/subscriptions.py:1012-1020 | A plan change moves the run rate of an enabled subscription by exactly the difference of the two rates, and of a paused one not at all |
| `Ledger.AppendDecidesIff` | central/billing/catalog/subscriptions.py:897-923 | A new segment row decides the rate if and only if no earlier one takes effect after it |
| `Ledger.CancelBeforeStartStaysOpen` | central/billing/doctype/subscription/subscription.py:136-162 | A subscription cancelled before its future start keeps its opening rate |
| `Ledger.LatestBySubscription` | central/billing/catalog/subscriptions.py:897-923 | The batched newest-first scan gives each subscription the same open segment as folding its own log, and no other |
| `Ledger.TeamRunRate` | central/billing/catalog/subscriptions.py:1012-1020 | The run rate is the sum of the open rates of the enabled subscriptions that are not excluded |
| `Ledger.LockedTeamRunRate` | central/billing/catalog/subscriptions.py:1023-1041 | The locked run rate is the same sum |
| `Ledger.RunRateAdd` | central/billing/catalog/subscriptions.py:937-983 | One more subscription adds exactly its open rate |
| `Budget.BudgetHolds` | central/resource_actions.py:135-161 | Over every run of purchases, trials, failures, finalizations, cancellations, pauses, and careful resumes, resizes, retries and reopened creations, running rate plus bought reservations stay within a fixed cap |
| `Budget.ReservedMoves` | central/resource_actions.py:549-564 | What is reserved, step by step: a submission, a free trial's too, a retry and a reopened creation add the creation's rate, a failure and the link to its server give exactly that back, and no other step moves it |
| `Budget.ChangePlanMoves` | central/billing/catalog/subscriptions.py:764-787 | A resize moves the running rate by the difference of the two rates, unless the subscription is paused or a later entry has the last word |
| `Budget.ResizeKeepsIff` | central/billing/catalog/subscriptions.py:1044-1063 | A resize that passed its gate, which reads no reservations, keeps the budget if and only if what the new plan adds fits beside what runs and what is bought, or it adds nothing because the subscription is paused or another entry has the last word |
| `Budget.ResizeOverspends` | central/billing/catalog/subscriptions.py:764-787 | A concrete run: a server is bought, the other one resized to the whole cap, the purchase finalized, and half as much again runs |
| `Budget.FinalizeConserves` | central/integrations/resource_actions.py:261-288 | Finalization moves a bought creation's rate from reserved to running and changes no sum |
| `Budget.FailureFrees` | central/resource_actions.py:549-564 | A failed purchase gives back exactly what it reserved, and settling a linked one moves nothing |
| `Budget.CancelLowers` | central/billing/catalog/subscriptions.py:1127-1131 | Ending a subscription lowers the running rate by exactly its open rate, unless a pause took that out before |
| `Budget.CancelCloses` | central/billing/catalog/subscriptions.py:1127-1131 | What was ended leaves no open rate that a resume could put back, unless another entry has the last word |
| `Budget.PauseLowers` | central/billing/catalog/subscriptions.py:1134-1147 | A pause lowers the running rate by exactly the open rate |
| `Budget.ResumeRaises` | central/billing/catalog/subscriptions.py:1150-1160 | A resume raises it by exactly the open rate |
| `Budget.ResumeKeepsIff` | central/billing/catalog/subscriptions.py:1150-1160 | A resume keeps the budget if and only if the open rate fits what the cap leaves |
| `Budget.ResumeOverspends` | central/billing/api/dashboard/invoices.py:262-280 | A concrete run: paused at the cap, a server bought in the room, resumed without a gate, and twice the cap is committed |
| `Budget.OpeningAddsRate` | central/billing/catalog/subscriptions.py:134-152 | Opening a subscription raises the running rate by exactly its opening quote |
| `Budget.RetryKeepsIff` | central/infrastructure/doctype/resource_action/resource_action.py:471-485 | A retry that passed the gate at today's price keeps the budget if and only if the rate accepted before fits too |
| `Budget.RetryAtOldPriceOverspends` | central/infrastructure/doctype/resource_action/resource_action.py:471-485 | A retry at an old higher rate passes the gate at today's lower one and overspends |
| `Budget.ReopenKeepsIff` | central/integrations/resource_actions.py:54-71 | A failed creation that a late worker makes pending again keeps the budget if and only if it is a free trial or its rate fits what the cap leaves |
| `Budget.TeamRecords.SubmitRequest` | central/resource_actions.py:456-514 | Passes the spending gate exactly when it is a free trial or its rate, all reservations and the running rate fit the cap, queues the creation, and keeps the budget |
| `Budget.TeamRecords.FinalizeCreation` | central/integrations/resource_actions.py:261-288 | The link, the subscription and its opening row commit together, and running plus reserved stays the same |
| `Budget.TeamRecords.EndSubscription` | central/billing/catalog/subscriptions.py:1127-1131 | The Cancelled row and the disabled subscription lower the running rate by its open rate |
| `Budget.TeamRecords.ResizeToPlan` | central/billing/catalog/subscriptions.py:764-787 | Passes exactly when the subscription is open and the new rate fits the cap beside the other running ones, and then records the plan change and nothing else |
| `Budget.TeamRecords.PauseBilling` | central/billing/catalog/subscriptions.py:1134-1147 | The Paused row and the disabled subscription lower it by the open rate, and a repeat does nothing |
| `Budget.TeamRecords.ResumeBilling` | central/billing/catalog/subscriptions.py:1150-1160 | The Resumed row and the enabled subscription raise it by the open rate with no gate asked, and a repeat does nothing |
| `TrialPhases.ExactlyOnePhase` | central/resource_actions.py:591-637 | A free-trial creation is in exactly one of pending, server without a site, open and closed |
| `TrialPhases.CountsEveryOpenTrialOnce` | central/resource_actions.py:591-637 | The gate's three joined counts together count every open trial once |
| `TrialPhases.LimitHolds` | central/resource_actions.py:577-598 | Over every run in which no terminated server comes back unrecorded and no failed trial is reopened, an owner's open trials never pass the limit |
| `TrialPhases.CountAfter` | central/resource_actions.py:577-637 | The gate's count moves by exactly what the step does: one more for a trial's submission, retry or reopening and for a server that comes back before its site was recorded; one less for a failed trial, a conversion, a payment found at the recording, and the end of a server with an open trial; nothing else moves it |
| `TrialPhases.ClosingFreesOne` | central/infrastructure/doctype/virtual_machine/virtual_machine.py:158-171 | A terminated or converted server closes exactly its own trial, recorded or not, and frees one of the limit |
| `TrialPhases.ComesBackIff` | central/infrastructure/doctype/virtual_machine/virtual_machine.py:326-345 | A terminated server that is reported again opens one more trial if and only if it was built for a trial whose site was never recorded |
| `TrialPhases.ComingBackPassesLimit` | central/infrastructure/doctype/virtual_machine/virtual_machine.py:593-609 | A concrete run with a limit of one ends with two open trials |
| `TrialPhases.ReopensIff` | central/integrations/resource_actions.py:54-71 | A failed creation that a late worker makes pending again opens one more trial if and only if it is a free trial |
| `TrialPhases.ReopeningPassesLimit` | central/integrations/resource_actions.py:54-71 | A concrete run with a limit of one: a trial fails, a second begins, the first is reopened, and two are open |
| `TrialPhases.SitesFollowLifecycle` | central/signups/trial.py:94-118 | Every step moves a recorded site's trial along the lifecycle table or leaves it |
| `TrialPhases.LockViewsAgreeIff` | central/signups/access.py:40-50 | The bulk and the single lock reading disagree exactly on a trial's server whose recorded site has no trial state |
| `TrialPhases.LockViewsAgree` | central/signups/access.py:15-18 | In every reachable state the bulk locked set is the set of servers the single reading locks |
| `TrialPower.PaidSiteIsUp` | central/signups/trial.py:169-226 | Over every clean interleaving of the stop job, the conversion and its job, failing ones included, the daily job, and reads and reports recorded late, a converted site's server is up once all jobs drained |
| `TrialPower.PaidSiteComesUp` | central/signups/trial.py:169-226 | From every state clean steps can reach, clean steps lead a paid site to a server that is up with all jobs drained, whatever the two jobs were in the middle of |
| `TrialPower.StopAlone` | central/signups/trial.py:289-312 | A stop job that nothing disturbs stops an ended trial's server, records it down, clears the error and ends |
| `TrialPower.StartSentOnce` | central/integrations/servers.py:216-233 | In every run each conversion job tells the region to start the server once at most |
| `TrialPower.MirrorAfter` | central/signups/trial.py:289-312 | Central's record moves only with what the stop job saw, what the conversion job sees as it ends, a reading made earlier, and a report |
| `TrialPower.ErrorAfter` | central/signups/trial.py:198-226 | The error the daily job reads is left by a job that fails or is blocked, and cleared by the customer's moves and by a job that ends well, but not by a stop job that found the site paid |
| `TrialPower.ConversionQueuedAfter` | central/signups/trial.py:544-552 | A conversion is asked for exactly by a payment, a stop job that found the site paid, and the daily job after an error, and leaves the queue as its job begins |
| `TrialPower.StopQueuedAfter` | central/signups/trial.py:228-261 | A stop is asked for exactly by the end of the trial and by the daily job where the record says that an ended trial's server is up |
| `TrialPower.RunKeeps` | central/signups/trial.py:289-312 | A paid server that is down always has a job queued or that will ask for one, or an error the daily job retries on, and the mirror of a server that is down says so unless the stop job will yet record it |
| `TrialPower.StepKeepsIff` | central/signups/trial.py:289-312 | A step keeps that if and only if it is clean: not a stop job that breaks off or dies before it recorded the server, a dropped request or cleared error, a conversion job that dies, one that begins between the stop job's last look at the site and its commit, nor a report or reading of up recorded of a server that is down after the stop job's own record |
| `TrialPower.EndsDownIff` | central/signups/trial.py:169-226 | A state can end with all jobs drained and the paid server down, by clean steps alone, if and only if it is outside the invariant |
| `TrialPower.StepEndsDownIff` | central/signups/trial.py:169-226 | A step of a good state makes that end possible if and only if it is not clean |
| `TrialPower.QueueOnlyIsClean` | central/signups/trial.py:544-552 | With a queue that drops a job only while one waits, a stop job that found the site paid ends cleanly |
| `TrialPower.ReloadKeepsIff` | central/signups/trial.py:305-312 | After the stop job's last step a paid site cannot end down if and only if its server is up or its request is not dropped while the conversion job is past its decision |
| `TrialPower.BreakOffKeepsIff` | central/signups/trial.py:297-303 | After a stop job that breaks off it cannot if and only if the server is up, or the mirror says down and a conversion past its decision is followed by another |
| `TrialPower.BeginKeepsIff` | central/signups/trial.py:198-219 | After a conversion begins on a mirror that says up it cannot if and only if the server is up or the stop job will still ask for another |
| `TrialPower.ReportKeepsIff` | central/infrastructure/doctype/virtual_machine/virtual_machine.py:326-345 | After a report is applied, or a reading recorded late, it cannot if and only if it says down, or the server is up, or the stop job has yet to record it down |
| `TrialPower.ConvertAloneIff` | central/integrations/servers.py:204-213 | A conversion job alone brings the server up if and only if it is up or the mirror says it is not |
| `TrialPower.DroppedRequestLeavesSiteDown` | central/signups/trial.py:305-309 | With a queue that also drops while a job runs, a paid site stays down though nothing failed |
| `TrialPower.BrokenStopLeavesSiteDown` | central/signups/trial.py:297-303 | With either queue, a stop job that fails after its stop leaves a paid site down |
| `TrialPower.LateReportLeavesSiteDown` | central/infrastructure/doctype/virtual_machine/virtual_machine.py:326-345 | With either queue and no failure, the start's report applied after the stop job's record leaves a paid site down |
| `TrialPower.FailedConversionLeavesSiteDown` | central/signups/trial.py:217-224 | With either queue, a conversion job that fails past its decision, after such a report, leaves a paid site down |
| `TrialPower.PaymentAtCommitLeavesSiteDown` | central/signups/trial.py:305-312 | With either queue and no failure, a payment and a conversion between the stop job's last look at the site and its commit leave a paid site down |
| `TrialPower.TrialSite.EnqueueConversion` | central/signups/trial.py:544-552 | Queues a conversion as the queue's rule allows |
| `TrialPower.TrialSite.End` | central/signups/trial.py:279-287 | Ends an active trial and queues its stop |
| `TrialPower.TrialSite.ConvertPaid` | central/signups/trial.py:169-196 | Converts and queues the conversion job, keeping the invariant |
| `TrialPower.TrialSite.BeginStop` | central/signups/trial.py:289-298 | Stops only an ended trial, keeping the invariant |
| `TrialPower.TrialSite.ReloadSite` | central/signups/trial.py:305-306 | Reads the site again, keeping the invariant |
| `TrialPower.TrialSite.EndStop` | central/signups/trial.py:305-312 | Records the stop and hands a site found paid to the conversion job; the invariant is kept exactly when the step is clean |
| `TrialPower.TrialSite.BeginConversion` | central/signups/trial.py:198-219 | Decides from the mirror, or records that another action is pending; the invariant is kept exactly when the step is clean |
| `TrialPower.TrialSite.EndConversion` | central/signups/trial.py:216-226 | Observes and clears the error, or records that anything failed, keeping the invariant |
| `TrialClock.ClockHolds` | central/signups/trial.py:94-118 | In every reachable state, late reports included, Active has an end and no deletion day, Ended has both, and Converted and Deleted never change |
| `TrialClock.DeletedStaysTerminatedIff` | central/signups/trial.py:314-347 | A trial becomes Deleted on a terminated server only, and the server stays terminated from then on if and only if no late report revives it |
| `TrialClock.StepKeeps` | central/signups/trial.py:30-36 | Every operation keeps the dates, moves only along the lifecycle table and deletes only on a terminated server, and only a late report takes a termination back |
| `TrialStates.EnteredFrom` | central/signups/trial.py:30-36 | Where each state of a trial can come from: nothing final is left, and no trial is unmade |
| `TrialClock.PowerAfter` | central/signups/trial.py:279-347 | The server's power after any step: stopped overnight when that was asked of an ended trial's running server, terminated overnight when that was asked, started with an extended trial, and else as it was or as a late report says |
| `TrialClock.StateAfter` | central/signups/trial.py:94-118 | The trial after any step but the daily one: converted, extended to no earlier than its days from today and from its end, closed with a server that terminates, and else as it was |
| `TrialClock.Timetable` | central/signups/trial.py:228-287 | For any run days, any protection and any payment after the end: ended by the first run on or after the end, deleted in the night after the first unprotected run on or after the deletion day, and not before |
| `TrialClock.PaidTimetable` | central/signups/trial.py:228-241 | If the team pays before an unpaid run reaches the end, the first run that sees it converts the trial, which keeps its end and its running server, and no later run ends, stops or deletes it |
| `TrialClock.ConvertsIff` | central/signups/trial.py:228-241 | By its runs a trial converts if and only if one of them sees the team pay before an unpaid one reaches the end |
| `TrialClock.DailyTimetable` | central/signups/trial.py:239-261 | With daily runs a trial of day d is Ended by the run on d plus its days, Deleted the night after its deletion days, and never before its server is terminated |
| `TrialClock.ProtectedIsKept` | central/signups/trial.py:314-325 | A protected server's trial stays Ended |
| `TrialClock.TrialSite.MoveTo` | central/signups/trial.py:94-106 | Moves exactly where the table allows and otherwise changes nothing |
| `TrialClock.TrialSite.End` | central/signups/trial.py:279-287 | Only an active trial ends, with its deletion day and a stop asked for |
| `TrialClock.TrialSite.ExtendBy` | central/signups/trial.py:263-277 | Only an open trial and only by a positive number of days, from the later of today and its end, with its deletion day off and its stopped server started |
| `TrialClock.TrialSite.Delete` | central/signups/trial.py:314-347 | Closes a terminated server's trial, keeps a protected one, else asks for the terminate and leaves the state |
| `TrialClock.TrialSite.AdvanceDay` | central/signups/trial.py:228-261 | Today's step, case by case: a terminated server closes the trial; a paying active trial converts with nothing stopped; an unpaid one ends on its day; an ended one asks for its stop until its deletion day and then, unprotected, for its terminate |
| `Capabilities.ExpandCapabilities` | central/iam.py:48-60 | For any rules the worklist stops with the given list in its order followed, in alphabetical order, by everything else that follows from it |
| `Capabilities.ExpansionIsLeastClosed` | central/iam.py:48-60 | The expansion is closed and inside every closed set that holds the list |
| `Capabilities.ExpansionIdempotent` | central/iam.py:48-60 | Expanding an expansion adds nothing |
| `Capabilities.ExpansionOfUnion` | central/iam.py:48-60 | Expanding two lists together gives what expanding them apart gives |
| `Capabilities.ExpansionUnique` | central/iam.py:48-60 | The expansion is determined, order included |
| `Iam.GroupRow` | central/iam.py:244-250 | A new key opens a grant and joins its team's list, and each capability is kept once |
| `Iam.GroupRows` | central/iam.py:235-250 | Grants open in the order their keys first appear, each capability once |
| `Iam.ResolveMemberGrants` | central/iam.py:217-262 | The resolved grants are exactly one for each role and scope of a valid row, closed and cut down to the scope |
| `Iam.ResolveOperatorGrants` | central/iam.py:222-233 | An operator gets every registered capability team-wide in exactly the active teams |
| `Iam.CanIffSomeRow` | central/iam.py:286-301 | `can` on the grouped grants holds exactly when some row of a system role or a role of the team, with a capability that leads to the asked one, names no kind of resource or every one, or names the asked server itself or by its site and the asked capability is one a server can carry |
| `Iam.OneServerOnly` | central/iam.py:264-301 | A member whose rows in a team all name one server, themselves or by a site on it, can do nothing on another server and nothing team-wide, and on that one only what one server can carry |
| `Iam.SeesServerIff` | central/iam.py:18-43 | With this program's rules a server is seen exactly with a row of a counting role, team-wide or on that server itself or by its site, of server:view or one of the capabilities that imply it, each listed |
| `Iam.RulesAreShallow` | central/iam.py:18-29 | Nothing that is implied implies anything else |
| `Permissions.GetAllowedServers` | central/iam.py:311-322 | Team by team and server by server, the allowed list answers what `can` answers |
| `Permissions.ChecksExactly` | central/permissions.py:395-459 | Who may do what to one record: an operator anything, nobody else a change, a reader whoever holds server:view in the record's team, on the whole team or on its server, and a staff viewer what is open to staff |
| `Permissions.ServerScopedQueryConditions` | central/permissions.py:428-459 | The list admits a record exactly when the document check lets the user read it, for every user, grants and record, empty fields included |
| `Permissions.StaffReadableQueryConditions` | central/permissions.py:420-425 | The same with staff who read across teams |
| `Permissions.TeamFieldQueryConditions` | central/permissions.py:383-392 | The team list admits exactly the teams where the capability is held somewhere |
| `Permissions.DeviceListAgrees` | central/permissions.py:155-175 | The device list and the device check agree, because no grant on one server carries the capability |
| `Permissions.UnscopableIsTeamWide` | central/iam.py:304-308 | A capability no server can carry is held somewhere exactly when it is held team-wide |
| `Permissions.TeamListShowsMoreIff` | central/permissions.py:395-417 | The team filter shows more than the team-wide check if and only if only grants on single servers hold the capability |
| `Permissions.GetCapabilityGate` | central/iam.py:325-338 | The gate admits an entry exactly when it asks nothing or the grants hold its capability on its server |
| `Permissions.VisibleRows` | central/notification/digest.py:190-201 | The digest's filter with its answers remembered keeps, in order, exactly what the reader may see |
| `Permissions.FeedMatchesDigest` | central/notification/__init__.py:95-117 | Of the entries the digest reads the feed shows exactly those it keeps whose category is not turned off in the app, where a reader who turned any off sees none without a category; an operator's feed asks neither; the two agree on an entry if and only if it is hidden from both or not turned off |
| `Permissions.GateAloneAgreesIff` | central/iam.py:222-233 | For an operator the gate without the bypass agrees with `can` if and only if the entry asks nothing, or the team is active and the capability registered |
| `StateDelivery.WatermarkNeverDrops` | central/integrations/state_delivery.py:143-171 | No delivery, job, deletion or direct read ever moves the watermark back |
| `StateDelivery.DecideExactly` | central/integrations/state_delivery.py:143-171 | What a report leaves to do: a deletion is queued unless the row is Terminated; a state report does something exactly with a known word and a time later than the row's, queued if it says another state or another host, and done at once if not |
| `StateDelivery.ExecuteExactly` | central/integrations/state_delivery.py:95-140 | What an item does to the row it finds: the state the report says and its time if that is later, the host of a queued report that names one, and nothing else; a deletion terminates and moves nothing else |
| `StateDelivery.Converges` | central/integrations/state_delivery.py:33-57 | For any order, repetition, delay and interleaving of reports, once nothing waits the row holds the time and state of the latest, or none was newer |
| `StateDelivery.RunKeeps` | central/integrations/state_delivery.py:81-122 | Every usable report is under the watermark or still waits, and the row is a delivered report's |
| `StateDelivery.HostConvergesIff` | central/integrations/state_delivery.py:125-171 | Over every run, once nothing waits the host is the latest report's if and only if the item that brought the row to the latest time set it or met it standing already |
| `StateDelivery.HostAfterIff` | central/integrations/state_delivery.py:125-140 | One newer item leaves its report's host if and only if it sets it or it stands there already |
| `StateDelivery.HostConverges` | central/integrations/state_delivery.py:125-140 | The host converges too when every report names one and an advance meets the host it was decided on |
| `StateDelivery.HostLagsInRace` | central/integrations/state_delivery.py:157-167 | A concrete run in which status and time converge and the host does not |
| `StateDelivery.TerminationStaysIff` | central/infrastructure/doctype/virtual_machine/virtual_machine.py:593-609 | A termination holds if and only if no newer state report's item runs after it |
| `StateDelivery.LateReportRevives` | central/integrations/state_delivery.py:95-102 | A concrete run: a deleted server is stopped again in Central, and nothing is left to correct it |
| `StateDelivery.ServerRow.RecordObservedState` | central/infrastructure/doctype/virtual_machine/virtual_machine.py:326-345 | Applied exactly when no order is asked or the report is newer; a report without a host keeps the known one |
| `StateDelivery.ServerRow.ApplyReport` | central/integrations/state_delivery.py:105-114 | The queued job leaves the row at or past the report's time |
| `StateDelivery.ServerRow.ApplyDeletionReport` | central/integrations/state_delivery.py:95-102 | Terminated, without an order check and without moving the watermark |
| `StateDelivery.ServerRow.Accept` | central/integrations/state_delivery.py:143-171 | What is not queued is done at once, ignored, or already under the watermark |
| `BillingStates.EventsAreWalk` | central/billing/states.py:200-235 | However a document is driven and refused, its events form one connected walk along its machine's edges to its status |
| `BillingStates.WalkIsDriven` | central/billing/states.py:200-235 | The other way round: every walk along a machine's edges can be driven move by move and leaves exactly its events |
| `BillingStates.TransitionIff` | central/billing/states.py:200-235 | A document without a machine and a move that is no edge are refused, a move to the status it has writes nothing, and every other succeeds with one event |
| `BillingStates.LeavesIff` | central/billing/states.py:49-174 | The statuses each of the ten machines can still leave, and no other |
| `BillingStates.EnteredFrom` | central/billing/states.py:49-174 | Where Paid, Waived, Cancelled, Captured, Refunded, Suspended, Current, Completed and Credited can come from, and nowhere else |
| `BillingStates.TerminalAbsorbs` | central/billing/states.py:35-36 | Nothing moves a document out of a status without edges |
| `BillingStates.SuspendedOnlyAfterGrace` | central/billing/states.py:79-87 | No walk enters Suspended but from Past Due, and one that began elsewhere was marked Past Due first |
| `BillingStates.NoStatusTwice` | central/billing/states.py:49-174 | An invoice, attempt, webhook, top-up, re-rating or commitment is in each status at most once, with at most three events |
| `BillingStates.ComesBackIff` | central/billing/states.py:79-153 | A document can enter a status twice if and only if it is a subscription, refund, payment method or billing run |
| `BillingStates.Document.MoveTo` | central/billing/states.py:200-235 | The move follows an edge and appends one event, a repeat appends nothing, a refusal changes nothing, and the events stay a walk |
| `Dunning.FlagHolds` | central/billing/catalog/subscriptions.py:1189-1231 | In every reachable state the stopped-for-nonpayment flag implies Suspended |
| `Dunning.RoundTripIsIdentity` | central/billing/catalog/subscriptions.py:1173-1231 | With nothing else pending and the stops done first, suspend and restore leave every subscription Current, no flag, and every server as it was |
| `Dunning.RoundTripRestoresIff` | central/billing/catalog/subscriptions.py:1234-1257 | After the round trip a server's power is as without it if and only if the stop dunning asked for completed first and it took over no completed stop of the customer's |
| `Dunning.PaidTooSoonStaysStopped` | central/billing/catalog/subscriptions.py:1214-1231 | A payment while the stop is on its way leaves the paid server stopped |
| `Dunning.AdoptedStopIsUndone` | central/infrastructure/doctype/resource_action/resource_action.py:162-175 | A stop of the customer's that dunning adopts is undone by the payment |
| `Dunning.SuspendEachIs` | central/billing/catalog/subscriptions.py:1173-1211 | With one subscription on each server the loop does to each what it would do alone: one that cannot move is skipped, and the others are suspended all the same |
| `Dunning.StandingAfter` | central/billing/catalog/subscriptions.py:1173-1231 | The standing of any subscription after any step: Past Due when marked, Suspended exactly when dunning meets it and it can move, Current exactly when the team has paid, and else what it was |
| `Dunning.RestoreEachIs` | central/billing/catalog/subscriptions.py:1214-1231 | So does the restoring loop |
| `Dunning.TeamBilling.QueuePower` | central/billing/catalog/subscriptions.py:1234-1257 | Queued exactly when a stop meets a running server or a start a stopped, paused or failed one, with a regional identity and over no other pending action |
| `Dunning.TeamBilling.SuspendSubscription` | central/billing/catalog/subscriptions.py:1189-1211 | One suspension: refused or suspended already, nothing; else Suspended, the stop queued where it can be, and the flag set exactly for a stop that was queued or a flag that stood |
| `Dunning.TeamBilling.RestoreSubscription` | central/billing/catalog/subscriptions.py:1222-1231 | One restoration: Current already, nothing; else Current, the flag cleared, and a start exactly where the flag stood |
| `Dunning.TeamBilling.SuspendForNonpayment` | central/billing/catalog/subscriptions.py:1173-1211 | The loop suspends every listed subscription that can move, skips the others, and keeps the flag's meaning |
| `Dunning.TeamBilling.RestoreAfterPayment` | central/billing/catalog/subscriptions.py:1214-1231 | The loop equals `RestoreEach` and leaves everyone Current |
| `EmailCodes.LifeIsCounted` | central/identity/email_code.py:42-104 | In one entry's life its counters are exactly the wrong codes compared and the codes stored, and neither passes its limit |
| `EmailCodes.LockedStaysLocked` | central/identity/email_code.py:85-98 | After the limit no code verifies and none is stored for the rest of the life |
| `EmailCodes.ResendKeepsAttempts` | central/identity/email_code.py:60-77 | A code stored again in a life carries exactly the wrong codes compared so far and adds one send |
| `EmailCodes.SinceLastStore` | central/identity/email_code.py:56-104 | Since its last store an entry holds that code, and its expiry runs from that store or a later wrong code |
| `EmailCodes.SpentStaysSpent` | central/identity/email_code.py:100-101 | A discarded code verifies nothing until another is stored |
| `EmailCodes.RightIff` | central/identity/email_code.py:85-98 | In a life a check succeeds exactly when its code is the last one stored, fewer wrong codes than the limit were compared, and it can be compared at all |
| `EmailCodes.NoEntryIff` | central/identity/email_code.py:52-89 | A check finds no entry exactly when there is none or its time has come, and a code stored then starts with no wrong attempt and one send |
| `EmailCodes.ExpiredStaysRefused` | central/identity/email_code.py:85-89 | Past its expiry a code verifies nothing, however often it is tried, until another is stored |
| `EmailCodes.HoldAnswersLikeSend` | central/identity/email_code.py:56-77 | Holding a code that is never sent has the outcome of sending one and leaves the same counts and expiry, so an address that may not sign in answers like any other |
| `EmailCodes.OutlivesIff` | central/identity/email_code.py:93-104 | An entry outlives one expiry from its last store if and only if a wrong code was compared later than that store |
| `EmailCodes.LifeIsBounded` | central/identity/email_code.py:103-104 | An entry never outlives one expiry for each code stored and each wrong one compared |
| `EmailCodes.WrongCodeKeepsEntryAlive` | central/identity/email_code.py:93-96 | A code signs in past the expiry it was mailed with, because a wrong one kept the entry alive |
| `EmailCodes.EmailCode.StoreCode` | central/identity/email_code.py:56-77 | A send or hold is Locked exactly at the limit of wrong codes and stores exactly below both limits, with the counts of a live entry carried over and those of a dead one dropped |
| `EmailCodes.EmailCode.VerifyCode` | central/identity/email_code.py:85-98 | Right exactly for the live entry's code below the limit of attempts, no entry exactly without a live one, and only a wrong code writes: one attempt more and the expiry anew |
| `EmailCodes.EmailCode.SignIn` | central/users.py:63-89 | The code is spent exactly when the sign-in succeeds |
| `Digest.DueIsNextSlot` | central/notification/digest.py:106-123 | The due time is the least daily or Monday slot strictly after the last send |
| `Digest.IsDueIff` | central/notification/digest.py:106-123 | Due exactly when a slot has passed since the last send |
| `Digest.StepSendsIff` | central/notification/digest.py:76-89 | A pass sends exactly if the send works and the preference was never sent or a slot has passed since, and its window runs from the last one sent, empty the first time |
| `Digest.WindowsAreAdjacent` | central/notification/digest.py:76-89 | Under failures and changed hours the windows sent follow one another without gap or overlap, from the first |
| `Digest.CoveredExactlyOnce` | central/notification/digest.py:145-171 | Every entry created since the first window falls in exactly one |
| `Digest.ReadIff` | central/notification/digest.py:145-171 | An entry within the windows is read by exactly one digest if and only if it is visible when the one that covers it runs, and else by none |
| `Digest.LateCommitIsMissed` | central/notification/digest.py:153-155 | An entry written in a window and committed after it is in no digest |
| `Digest.Group.Send` | central/notification/digest.py:76-89 | Each category asks from its last send, and the times move only when the send succeeds |
| `TaxShare.SharesAddUp` | central/billing/api/server_billing.py:39-45 | The rounded tax shares of all servers on an invoice add up to its tax within half a cent for each server |
| `TaxShare.SharesOfSome` | central/billing/api/server_billing.py:16-21 | So do the shares of any servers, to the tax on their subtotals |
| `TaxShare.SoleServerBearsAll` | central/billing/api/server_billing.py:39-45 | A server charged the whole invoice bears exactly the whole tax, one charged nothing none, and none does on an invoice without a subtotal |
| `TaxShare.SubtotalsAddUp` | central/billing/api/server_billing.py:48-60 | Every line is counted for exactly one server |
| `TaxShare.BoundIsMet` | central/billing/api/server_billing.py:39-45 | The bound is met by two equal servers and one cent of tax |
| `TaxShare.ReadLines` | central/billing/api/server_billing.py:54-62 | One pass gives the server's lines, subtotal and whether another server is named |
| `TaxShare.GetServerInvoices` | central/billing/api/server_billing.py:48-75 | One statement, in order, for each invoice that names the server, with its lines' sum; a PDF or a payment is offered exactly where no line names another server of the team |
| `TaxShare.ListedIff` | central/billing/api/server_billing.py:48-75 | A statement is listed exactly if it is that of an invoice with a line of the server |

## Left out

- ActionResults.AtMostOneCall: counts a retry of a failed creation as a new permission to call, because `retry` sends the same record again; without retries the bound is one. The stop that prepares a final snapshot is sent before the action's own call and is not counted.
- CreatedSearch.FindCreated: the code has no bound on pages; `bound` says that the region's list stops growing, and nothing is promised about a list that grows for ever. Lists that shrink are `MissedIff`.
- ActionResults.TerminalReopensIffJob: a report's confirmation reads and writes the committed status in one step, so its own race with a worker is not part of this model.
- ActionWorker.Central.RecordReply: the reading of the reply is `AtlasReply`, and the machine's mailbox, credential and firewall side effects of a success are not modelled.
- ActionWorker.Central.RecoverCreation: the search runs in a region where nothing joins or vanishes between its pages; what a changing list does to a search is `FalseSettlementIff` and `MissedIff`. Rows are told too old only from before the dispatch, as the clock hypothesis says.
- ResizeReplay.ReplayConverges: rescue mode and the sleep setting stay as they were during one resize, apart from what the resize sets; a machine that is gone is not modelled.
- ResizeReplay.RefusalKeepsShapeIff: a Failed resize is not promised the old shape, which a refused start, poll, idle setting or observation after the reshape takes from it.
- ResizeWorker.Worker.ProcessResize: the permission asked before the first dispatch and the ownership asked on every attempt are one answer, at `Entry`.
- Budget.BudgetHolds: reservations of free trials pass no budget gate and are not billed, so the bound is on bought reservations; trial conversions, whose gate does not read reservations either, are kept out of the run. What is not careful is `ResumeKeepsIff`, `ResizeKeepsIff`, `RetryKeepsIff` and `ReopenKeepsIff`. A resize reads the run rate without a lock; here its gate and its write are one step.
- Budget.TeamRecords.SubmitRequest: the spending gate alone; a purchase is also refused for its payment method, its server slots or an unlisted plan, and an internal team is not held to the gate.
- TrialPower.PaidSiteIsUp: a move to a paid plan through a resize, and the customer's own stop of a converted server, are not part of these runs; the region reports each power command once and in order of its clock. The conversion job's own late reading is its end followed by another reader's.
- TrialPhases.LockViewsAgree: both readings see every row; `get_locked_servers` reads through the user's own permissions, so a user who sees the site and not the request that built it is shown less.
- TrialPhases.LimitHolds: each step reads a consistent state. The code locks one Team while the count spans all teams of the owner, so two submissions on two teams rest on the counting reads' own locks.
- TrialClock.PaidTimetable: what a payment outside the daily job does is `TrialPower`; here the daily job sees whether the team pays.
- TrialClock.DailyTimetable: the region completes stops and terminates overnight and no late report revives the server; `RegionFails` and `Revive` in `ClockHolds` cover the nights it is not so. The warning emails and the trial's cost are not modelled.
- StateDelivery.Converges: a job that never runs is not covered; the scheduled reconcile and the refresh queued behind an applied Running report, direct reads, are the event `Observe`, which the theorem keeps out.
- Dunning.RoundTripIsIdentity: a region that fails a stop or a start, and a subscription whose save is refused, are outside the round trip; `FlagHolds` covers both.
- BillingStates.Document.MoveTo: the event's amount, actor, correlation and time are not modelled.
- EmailCodes.EmailCode.SignIn: a sign-up limit that refuses the account after a right code is not modelled; races on the cache are not either.
- Digest.CoveredExactlyOnce: says in which window an entry falls; the newest 2000 of a category are read and 50 shown, and a member who left the team is sent nothing while the time still moves. Time zones and daylight saving are one local clock.
- TaxShare.SharesAddUp: a half cent may be rounded either way, which covers every rounding setting; the invoice's stored subtotal is taken to be the sum of its lines.
- Iam.ResolveMemberGrants: the dictionary a grant is, which the second loop closes in place through both lists, is a value looked up by its key.
- Permissions.ServerScopedQueryConditions: SQL text and escaping are a predicate on rows; a column that is null and one that is empty are both empty.
- `begin_resize`, `enforce_headroom` and `_due_groups`: the gate that queues a resize and the grouping of due preferences; the resize itself and one group's send are modelled.
- The server catalog, its filters and its grouping by category: short filters over given rows.
- Discovering machines a region already runs, public addresses, WireGuard, snapshots as products, proxies and site routes.
- Invoicing, credits, the wallet, gateways and mandates beyond their status machines.
- HTTP, tokens, signatures, Redis, email, the dashboard, telemetry and translations.
