# Verification model of the e-commerce diagnosis agent

The agent diagnoses falling sales for a merchant and may propose a new product description. The
description is written only after the merchant approved it, and it is to be written once, although
messages may be delivered twice, workers may stop anywhere and task records may be overwritten by stale
copies. This project models the four parts that promise to make that work and proves what they keep.

* **The ledger** (`Commerce`, `CommerceRepository`, `LedgerRuns`, `LedgerTheorems`, `IdempotencyKey`).
  Products, plans, approvals and receipts as SQL tables. Recording a decision and applying a plan are
  one transaction each; creating a plan is a read and, later or never, an insert. `LedgerRuns` interleaves
  these operations in any way; the theorems speak of every state of every run.
* **The task protocol** (`TaskRecords`, `RecordRules`, `Protocol`, `ProtocolInvariant`, `ProtocolSteps`, `ProtocolRuns`,
  `ProtocolTheorems`, `TaskIdentity`, `LedgerInProtocol`, `TruthfulRecords`, `StrandedTasks`, `CompletedTasks`,
  `SampleRuns`). Any number of API handlers and workers, each at one point of its code, take turns
  between any two of their accesses to Redis, RabbitMQ and the ledger. Each access may work, raise, or raise
  after it took effect; processes may die, connections may drop, leases may run out. The classes `RedisStore`,
  `TaskService` and `WorkerService` hold the same handlers as code that changes fields step by step;
  `Refinement` proves that these are the protocol's handlers without interruption.
* **The agent graph** (`AgentGraph`, `NodeRules`, `Validation`, `Transcript`, `GraphRuns`, `GraphTheorems`,
  `GraphOutcomes`, `GraphInProtocol`). Seven nodes
  over a checkpointed state. The model answers anything, tools return anything. `GraphRuns` is the whole life of
  a task's thread: any number of runs, each stopped anywhere, with other processes working on the ledger in
  between. `GraphActsWithinMessage` and `OutcomesAreTrue` are the link to the protocol: what the graph does to the
  ledger is what the protocol lets it do for its message, at any time after its start, since the threads that work on
  the database outlive a run that times out; and what it returns is what the protocol takes outcomes to be.
* **Funnel attribution** (`Funnel`) over exact reals, **event numbers** (`EventNumbers`), and **event replay**
  (`EventReplay`) for the contract of the `Last-Event-ID` header in section 9.2 of the WHATWG HTML Living Standard.

`Wrappers`, `Tables` and `Runs` hold options, results, rows with unique columns, and lemmas about any run.

## What turned out not to hold

* *A task that is queued or retrying always has its message under way.* For each task this holds throughout a run if
  and only if no step loses a message that its record waits for and that nobody else holds (`HeldThroughoutIff`). Such a step is a
  process that dies between a save and its publish, or Redis failing there, at the record or at the event appended in
  between. It is not enough that a handler is lost: another copy may be in the queue (`HarmlessLoss`). When nothing
  else is under way the task is stuck for good, since only failed and stale running tasks can be resumed
  (`StrandingRun`, `StrandedForever`).
* *A completed task stays completed.* In Redis it does so exactly as long as no handler of the task saves over it
  (`CompletedStaysIff`): a worker whose final event or acknowledgement raised, a duplicate's worker whose
  acknowledgement raised, a worker or a resume that read the record earlier, or a handler that saves its copy after a
  failed publish. `CompletedMayRetry` is such a run from an empty system. The ledger is exact anyway
  (`LedgerStaysExact`), and a retried run is answered from the finished thread (`FinishedConverges`).
* *Events are numbered in the order of the stream.* Numbers are unique (`NumbersUnique`); they are in order exactly
  as long as no appender is overtaken between its two commands (`InOrderIff`, `OutOfOrder`).
* *The business key identifies the action.* It does for task ids without a colon, which is what the token
  generator yields (`KeyInjective`); an id with a colon always shares its key with another task's (`KeyCollides`).
* The branch of `resume_task` that decodes `interaction` when no kind is pending is not needed for any record
  these services write: the pending fields always say as much (`FailedPublishRecovers`, `InteractionRoundTrip`).

## Assumptions

* LangGraph commits a node's whole delta or nothing; a failed node leaves the checkpoint and is executed again;
  an interrupt stays pending until its node commits; a finished graph invoked without input returns its state.
* Ids from `secrets.token_urlsafe` hold no colon; in the protocol a new task's id is not in use.
* No exception of a run carries the code `QUEUE_PUBLISH_FAILED`; only the services themselves write it.
* One worker at a time runs a task's thread (`GraphRuns`). Of the protocol only `RecordsTellTruth` rests on it, through
  the outcomes of runs (`OutcomesAreTrue`); the ledger theorems do not need it.
* SHA-256 is injective on call batches: the stored signature is the batch itself.
* XADD gives each event an id above all earlier ones of its stream; a read sees a prefix of the stream.

## Model

The specification functions named in the third column are the modelled code on values (`ReadForPlan`,
`RecordApproval`, `ApplyApprovedPlan`, `AfterFailure`, `ResumeMessage`, `ApiMove`, `WorkerMove`, `RunNode`,
`RunGate`, `CompareFunnel`, `Resume`, ...); each row is a member whose contract states something about them.
`RecordRules` and `NodeRules` say of the record rewrites and of the graph's nodes what they come to without naming
the functions that compute it; those of their lemmas that only spell a case distinction out have no row.

| member | source | states |
|---|---|---|
| `IdempotencyKey.KeyInjective` | src/backend_agent/commerce.py:625-632 | Two colon-joined business keys are equal only for the same merchant, task, version and action, as soon as task and action ids hold no colon (merchant ids may). |
| `IdempotencyKey.KeyCollides` | src/backend_agent/commerce.py:625-632 | The condition is needed: a task id with a colon always shares its key with a different task of a different merchant. |
| `IdempotencyKey.DecimalInjective` | src/backend_agent/commerce.py:629 | `str` of an integer determines the integer, sign included. |
| `CommerceRepositories.CommerceRepository.constructor` | src/backend_agent/commerce.py:156-252 | Opening a database inserts each seed product whose id is not taken and changes nothing else; a new one holds the seed and no plan, approval or receipt. |
| `CommerceRepositories.CommerceRepository.CreatePlan` | src/backend_agent/commerce.py:479-530 | Returns the plan the task has afterwards: the one found, or a draft of the product row as read, inserted into whatever other connections have made of the tables by then; if one of them stored the task's plan first, the insert is refused and their tables stay. |
| `CommerceRepositories.CommerceRepository.RecordApproval` | src/backend_agent/commerce.py:539-589 | One transaction: tables and answer for each of its seven ways to end; the first decision is kept, the same decision again gets its id, a different one is refused. |
| `CommerceRepositories.CommerceRepository.ApplyApprovedPlan` | src/backend_agent/commerce.py:605-687 | One transaction: tables and answer for each way to end; the update is rolled back when the receipt is refused. |
| `LedgerRuns.ApplyShape` | src/backend_agent/commerce.py:641-680 | An apply that changes anything changes one product from the plan's version to the next with the plan's new text and adds one receipt whose key and id were not there. |
| `LedgerRuns.StepExtends` | src/backend_agent/commerce.py:479-687 | No operation loses or changes a row; owners of products never change and texts of earlier versions stay what they were. |
| `LedgerRuns.StepInv` | src/backend_agent/commerce.py:479-687 | Every interleaved operation (plan read, plan insert, record, apply) keeps unique columns, versions, plans that describe the version they read, approvals that decide their own task's plan, receipts that execute an approved plan. |
| `LedgerTheorems.RunInv` | src/backend_agent/commerce.py:479-687 | The invariant holds in every state of every run. |
| `LedgerTheorems.RunExtends` | src/backend_agent/commerce.py:539-687 | Along any run the tables only grow, from any moment to any later one. |
| `LedgerTheorems.SameKeySameTask` | src/backend_agent/commerce.py:625-632 | Plans have equal keys exactly when they belong to one task, and then they are one plan. |
| `LedgerTheorems.EveryReceiptHasTask` | src/backend_agent/commerce.py:625-638 | In every state of every run each receipt carries the key of a stored plan, and so belongs to a task. |
| `LedgerTheorems.ExactlyOnce` | src/backend_agent/commerce.py:605-687 | In every state of every run two receipts are one exactly when their tasks are: at most one receipt a task, whatever was duplicated, retried or interleaved. |
| `LedgerTheorems.VersionsCountReceipts` | src/backend_agent/commerce.py:651-680 | In every state of every run each product's version is one plus the number of its receipts, and these carry 2, 3, ... up to it, in order. |
| `LedgerTheorems.ReceiptNeedsOwnApproval` | src/backend_agent/commerce.py:612-621 | A task with a receipt has an approve decision for the very plan, version and action the receipt executes, and no reject. |
| `LedgerTheorems.RejectIsFinal` | src/backend_agent/commerce.py:561-568 | The decision recorded first is the task's decision in every later state; after a reject no receipt of the task ever appears. |
| `LedgerTheorems.AppliedDiff` | src/backend_agent/commerce.py:641-658 | Whenever any step changes any product, the step is an apply of an approved plan and replaces exactly that plan's before-text and version by its after-text and the next version, all other products untouched. |
| `LedgerTheorems.VersionDeterminesText` | src/backend_agent/commerce.py:641-658 | Versions never go back, and two moments that show one version show one text. |
| `LedgerTheorems.DiffsChain` | src/backend_agent/commerce.py:641-680 | Receipts with consecutive versions join up: the later plan's before-text is the earlier plan's after-text, whoever wrote them. |
| `LedgerTheorems.StableApply` | src/backend_agent/commerce.py:633-638 | Once an apply has answered a receipt, every later apply of that approval answers the same receipt with `applied` false, changes nothing and reports no version conflict, however far the product has moved. |
| `LedgerTheorems.ConflictIff` | src/backend_agent/commerce.py:645-646 | An approved plan without a receipt is refused for its version exactly when another receipt has moved the product past the version the plan was read at. |
| `LedgerTheorems.ApplyIff` | src/backend_agent/commerce.py:633-687 | For an approved plan without a receipt: it is written, with `applied` set, exactly that change and one receipt of key, product, action and next version, if and only if the plan changes the description, no receipt has moved the product since, and the receipt id is free; each refusal occurs exactly for its own reason and changes nothing. |
| `LedgerTheorems.ApplyRefusedIff` | src/backend_agent/commerce.py:605-623 | An apply reports a missing or an unapproved decision exactly when no approval, or a rejecting one, has that id; in a reachable ledger plan and product are always found. |
| `LedgerTheorems.DecisionIff` | src/backend_agent/commerce.py:551-589 | A decision that names the task's stored plan with its merchant, version and action is stored under its id if it is the first, is answered by the stored id if it repeats the task's decision, and conflicts otherwise; any other request changes nothing. |
| `LedgerTheorems.DecisionRefusedIff` | src/backend_agent/commerce.py:551-560 | Unknown plan, foreign merchant and wrong version or action are each reported exactly when that is the case. |
| `LedgerTheorems.PlanReadIff` | src/backend_agent/commerce.py:486-522 | `create_plan` finds the plan the task has; without one it drafts a plan from text and version of the merchant's product as they are and the patch; it refuses exactly products that are not the merchant's. |
| `LedgerTheorems.PlanInsertIff` | src/backend_agent/commerce.py:523-530 | The insert stores exactly the draft, if and only if neither its task nor its id is taken. |
| `Funnel.FunnelIdentity` | src/backend_agent/commerce.py:38-48 | Both contributions are present exactly when both windows have clicks, and then they add up exactly to the change in orders. |
| `Funnel.RatesAreRatios` | src/backend_agent/commerce.py:38-68 | Each rate belongs to its own window and is absent exactly when its denominator is zero; otherwise rate times denominator is the numerator. |
| `Funnel.ContributionIsAverageMarginalEffect` | src/backend_agent/commerce.py:43-48 | Each contribution is what its factor alone changes, averaged over the two orders of changing them. |
| `Funnel.SwapNegates` | src/backend_agent/commerce.py:29-68 | Swapping the windows negates the order change and each contribution. |
| `TaskRecords.InteractionRoundTrip` | src/backend_agent/services/worker_service.py:284-292 | What a failed publish encodes in `interaction`, `resume_task` decodes to the same kind and id. |
| `TaskRecords.FailedResumeRecovers` | src/backend_agent/services/task_service.py:299-344 | A resume whose own publish raises leaves a record that still recovers the same message. |
| `TaskRecords.LosslessResume` | src/backend_agent/services/task_service.py:275-342 | However many resumes in a row fail to publish, the next one publishes attempt, kind and id of the message lost first. |
| `RedisStores.RedisStore.CreateTask` | src/backend_agent/repositories/redis_store.py:58-102 | A key that stands for a stored task returns it and creates nothing, a key whose task is gone is forgotten, a fresh task is stored under its key; a task id in use is never overwritten (with a key the call then recurses until the interpreter stops it); other keys untouched. |
| `RedisStores.RedisStore.TransitionTask` | src/backend_agent/repositories/redis_store.py:116-143 | Compare-and-set: the record is replaced exactly when the stored status is the expected one. |
| `RedisStores.RedisStore.AcquireTaskLease` | src/backend_agent/repositories/redis_store.py:165-172 | Taken exactly when nobody holds it. |
| `RedisStores.RedisStore.ReleaseTaskLease` | src/backend_agent/repositories/redis_store.py:174-181 | Removed exactly when this owner holds it. |
| `RedisStores.RedisStore.NextSequence` | src/backend_agent/repositories/redis_store.py:192 | INCR: the next number of this task's counter, an `Increment` of the event-number system; streams untouched. |
| `RedisStores.RedisStore.AddEvent` | src/backend_agent/repositories/redis_store.py:206-211 | XADD: the entry, with the number drawn before, goes to the end of the stream, an `Add` of the event-number system. |
| `RedisStores.RedisStore.AppendEvent` | src/backend_agent/repositories/redis_store.py:186-221 | One appender: the number is drawn first, others append in between what they append, and the entry goes to the end of what they leave. |
| `EventNumbers.NumbersUnique` | src/backend_agent/repositories/redis_store.py:186-221 | With any number of appenders taking turns between INCR and XADD, and any of them stopping, no two events of a task have the same number. |
| `EventNumbers.InOrderIff` | src/backend_agent/repositories/redis_store.py:186-221 | The stream is in the order of its numbers exactly as long as no appender adds after one with a higher number. |
| `EventNumbers.OutOfOrder` | src/backend_agent/repositories/redis_store.py:192-211 | It happens: a run of two appenders whose stream reads 2, 1. |
| `TaskServices.TaskService.CreateTask` | src/backend_agent/services/task_service.py:32-85 | With a known key the earlier task and with an id in use no new one, nothing published; otherwise the new record, of this merchant and product, with its message sent, or failed so that a resume sends it; other tasks untouched. |
| `TaskServices.TaskService.SubmitInput` | src/backend_agent/services/task_service.py:99-150 | Accepted exactly for a visible task awaiting input and a product of its merchant; then the record holds this product and waits for the message with it, sent or recoverable; other tasks untouched; every refusal has its own error and changes nothing. |
| `TaskServices.TaskService.SubmitApproval` | src/backend_agent/services/task_service.py:152-249 | Says for every visible status which answer comes: a running or ended task answers the stored approval exactly if the request repeats it; a task awaiting approval, or failed at a publish, gets what the ledger makes of the decision, and then waits for the approval message, sent or recoverable; everything else is refused with store, queue and ledger unchanged. An id that is answered is the ledger's decision for this task. |
| `TaskServices.TaskService.RecordAndPublish` | src/backend_agent/services/task_service.py:186-242 | Ledger, compare-and-set and publish of an accepted decision, for every answer of the ledger and every fate of the publish. |
| `TaskServices.TaskService.PublishOrFail` | src/backend_agent/services/task_service.py:133-149 | A publish that raises, delivered or not, leaves the failed record from which a resume sends that message. |
| `TaskServices.TaskService.ResumeTask` | src/backend_agent/services/task_service.py:257-344 | A task is resumed exactly if its merchant asks and it has failed, or shows as running without a lease, and not of one of the four final errors, which are refused as not resumable with nothing changed; a resumed record keeps task, merchant and product and waits for the message worked out from it, sent or recoverable again; other tasks untouched. |
| `WorkerServices.HandledSettles` | src/backend_agent/services/worker_service.py:114-148 | After an accepted message the record is at rest without error, or waits for the next attempt below the maximum, or has failed; it fails at the publish only recoverably. |
| `WorkerServices.HandledIs` | src/backend_agent/services/worker_service.py:105-217 | A handled record stays its task's; it shows status, result and interaction of the outcome that was returned, or the next attempt of the same answer; that retry is sent exactly if the failure is a time-out, unforeseen, or of a dependency that did not refuse the request, an attempt is left, and the publish reaches the broker. |
| `WorkerServices.WorkerService.HandleMessage` | src/backend_agent/services/worker_service.py:35-156 | Verdict to the broker, record, queue and lease for every path: undecodable, lease taken, no record, not accepted, run returned, run raised with and without a retry, each fate of the retry's publish; a delayed duplicate is never lost and the lease is left as found. |
| `WorkerServices.WorkerService.HandleLeased` | src/backend_agent/services/worker_service.py:73-149 | The same under the lease: exactly the messages the record waits for change it, only this task's record changes, and exactly the retry of a failed run is sent. |
| `WorkerServices.WorkerService.HandleFailure` | src/backend_agent/services/worker_service.py:173-272 | Status, error, next attempt, kind and id of the retry for each failure; acknowledged only if the retry was published, dead-lettered otherwise. What that comes to is said by `RetryKeepsAnswer`, `RetriedIff` and `FinalFailures`. |
| `RecordRules.RetryKeepsAnswer` | src/backend_agent/services/worker_service.py:197-217 | A failed input or approval is retried, and stays pending, as that same input or approval; anything else goes on from its checkpoint once the graph was started, and is sent again unchanged before. |
| `RecordRules.RetriedIff` | src/backend_agent/services/worker_service.py:190-217 | The record is retrying exactly for failures another attempt may mend and while one is left, failed otherwise; it shows the code of the failure; task, merchant, product, result and interaction stay. |
| `RecordRules.FinalFailures` | src/backend_agent/services/worker_service.py:295-315 | A detected loop and a model that refused the request or answered unusably are never retried and leave a record that cannot be resumed; after every other failure the task is retried or can be resumed. |
| `Refinement.WorkerRefines` | src/backend_agent/services/worker_service.py:73-272 | The uninterrupted protocol worker ends with the record and the messages of `HandleMessage`, for every run end and publish fate. |
| `Refinement.ApiRefines` | src/backend_agent/services/task_service.py:99-344 | The uninterrupted protocol handlers of input, approval and resume end with the record and the message the service methods promise. |
| `ProtocolInvariant.ResumedOk` | src/backend_agent/services/task_service.py:277-313 | A resume of a well-formed record is well-formed, waits for the message worked out, and keeps the attempt of a failed publish below the maximum. |
| `ProtocolInvariant.AfterFailureOk` | src/backend_agent/services/worker_service.py:190-217 | The record after a failure waits for the retry, one attempt further, and is retrying only below the maximum. |
| `ProtocolSteps.WriterCarries` | src/backend_agent/services/task_service.py:194-242 | Whoever writes a record that waits for a message is about to publish that message, or is the one lost doing so. |
| `ProtocolSteps.WorkerPasses` | src/backend_agent/services/worker_service.py:59-103 | A worker step that writes nothing never lets go of a message its record still waits for. |
| `ProtocolSteps.DeliverySettled` | src/backend_agent/services/worker_service.py:35-156 | A delivery ends exactly when its worker acknowledges or rejects it and the broker hears that; until then the worker holds it or it is back in the queue, and a delivery that is no longer open is not given back again. |
| `ProtocolSteps.ExceptionsHandled` | src/backend_agent/services/worker_service.py:73-151 | Between lease and last acknowledgement every exception becomes a failure of the task, of one whose graph has started exactly from the start of the graph on; outside it leaves the record alone and the delivery to the broker. |
| `ProtocolRuns.StepInv` | src/backend_agent/services/worker_service.py:35-272 | Every step of every API handler, worker, broker redelivery and lease expiry keeps the whole invariant: records, messages, handlers, leases and ledger. |
| `ProtocolRuns.RunInv` | src/backend_agent/services/worker_service.py:35-272 | The invariant holds in every state of every run, with the ledger invariant inside. |
| `ProtocolTheorems.RecordInvariant` | src/backend_agent/services/worker_service.py:80-132 | In every reachable record: no pending attempt exactly at rest, no error at rest; a worker goes on with a message if and only if it is the one the record waits for and the task has not failed other than at a publish; the compare-and-set of an approval expects the status read. |
| `ProtocolTheorems.ApprovalExpectsWhatItRead` | src/backend_agent/services/task_service.py:201-206 | The same for the copy an approval handler still holds at its compare-and-set. |
| `ProtocolTheorems.RetryBound` | src/backend_agent/services/worker_service.py:203-217 | Every message in the queue has an attempt below the maximum; a retry about to be published is exactly one above its predecessor and below the maximum. |
| `ProtocolTheorems.RetriesKeepAnswers` | src/backend_agent/services/worker_service.py:197-229 | In every run, the retry a worker is about to save, publish or give up carries the same input or approval as the message that failed, and no other. |
| `ProtocolTheorems.RetryChainFinite` | src/backend_agent/services/worker_service.py:190-235 | In every run, a chain of steps that each publish the retry of an attempt at the message published before is shorter than the attempts left to its first message. |
| `StrandedTasks.NotStranded` | src/backend_agent/services/worker_service.py:203-254 | A runnable record's message is in the queue or carried by a handler, unless a handler was lost between saving that very record and publishing. |
| `StrandedTasks.MoveLoses` | src/backend_agent/services/task_service.py:207-242 | A handler is lost with its message exactly by the steps `LosesMessage` lists: it stops between a save that took effect and the publish that belongs to it. |
| `StrandedTasks.HeldThroughoutIff` | src/backend_agent/services/task_service.py:194-242 | In every run, for every task whatever became of the others: while its record is runnable its message is in the queue or with a handler in all states if and only if no step lost a message that the record waits for and nobody else holds. |
| `StrandedTasks.NeverStranded` | src/backend_agent/services/task_service.py:194-242 | So it is for every task none of whose handlers stops between a save and its publish. |
| `SampleRuns.HarmlessLoss` | src/backend_agent/services/task_service.py:61-84 | A lost handler alone strands nothing: in this run the publish raised although the broker had the message. |
| `StrandedTasks.StrandedByLoss` | src/backend_agent/services/task_service.py:299-344 | A stranded task has a handler that was lost with exactly the message the record waits for. |
| `StrandedTasks.StrandedForever` | src/backend_agent/services/task_service.py:257-274 | No API call and no worker ever gets a stranded task going again: it is not resumable and nothing is left to deliver. |
| `SampleRuns.StrandingRun` | src/backend_agent/services/task_service.py:52-69 | It happens: a run from an empty system in which the failure between create and publish strands the task. |
| `ProtocolTheorems.FailedPublishRecovers` | src/backend_agent/services/task_service.py:304-311 | In every state of every run a record failed at its publish has a pending attempt and gives back its own pending message. |
| `ProtocolTheorems.LostMessageIsResumed` | src/backend_agent/services/task_service.py:330-344 | Whoever's publish raised, and however many resumes fail after it, a resume that gets through sends the lost message. |
| `ProtocolTheorems.ResumeKeepsAnswer` | src/backend_agent/services/task_service.py:275-313 | A resume publishes an attempt below the maximum, an approval only of its own task, and the merchant's pending answer as that same answer. |
| `ProtocolTheorems.ResumeGoesOnIff` | src/backend_agent/services/task_service.py:263-274 | In every run a resume that comes to look at the lease has read a record that had failed or was running, without one of the four final errors; it goes on exactly if that record had failed or no lease is held. |
| `TaskIdentity.MerchantStays` | src/backend_agent/services/task_service.py:93-97 | In every run, stale copies and all, a record stays in the store and with the merchant that created it. |
| `ProtocolTheorems.ApprovalMessagesAreOwn` | src/backend_agent/services/task_service.py:186-235 | Every approval message under way - in the queue, in a worker's hands, about to be published or retried, or lost - and every approval a record waits for is recorded in the ledger for that same task. |
| `ProtocolTheorems.WriteByOwnApproval` | src/backend_agent/agent/graph.py:434-447 | A receipt appears only by an apply that the graph, started for an approval message of the receipt's own task, performs for that task's approving decision, whether its run is still going on, has raised, or was cut off. |
| `ProtocolTheorems.StartedByWorker` | src/backend_agent/services/worker_service.py:97-113 | The graph is started for a message only by a worker that holds it under the lease of its task. |
| `ProtocolTheorems.LedgerStaysExact` | src/backend_agent/services/worker_service.py:133-156 | Under duplicates, redeliveries, crashes, expired leases and stale overwrites of records the exactly-once statement holds in every state. |
| `LedgerInProtocol.BooksRun` | src/backend_agent/services/worker_service.py:35-272 | The steps of a protocol run that touch the ledger form a ledger run, in which each protocol state finds its ledger, in order. |
| `LedgerInProtocol.RejectStaysFinal` | src/backend_agent/commerce.py:561-568 | In every protocol run the first decision stays the task's decision, and after a reject no receipt of the task ever appears. |
| `LedgerInProtocol.ApplyStaysStable` | src/backend_agent/commerce.py:633-638 | In every protocol run an approval once answered by a receipt is answered by it ever after, with nothing written. |
| `LedgerInProtocol.ChangeIsApprovedDiff` | src/backend_agent/commerce.py:641-658 | In every protocol run a step that changes any product is the graph's apply of an approved plan, and makes exactly that plan's change. |
| `LedgerInProtocol.VersionFixesText` | src/backend_agent/commerce.py:641-658 | In every protocol run versions never go back and one version shows one text. |
| `TruthfulRecords.RecordsTellTruth` | src/backend_agent/services/worker_service.py:114-133 | In every protocol run a rejected record's task has a reject as its one decision and no receipt, a record that shows a proposed change as completed has a receipt, and one awaiting approval shows the task's stored plan. |
| `CompletedTasks.CompletedStaysIff` | src/backend_agent/services/worker_service.py:133-254 | In every run a completed record stays completed over any stretch if and only if no handler of its task takes a step in it that saves another record over it; `Overwrites` lists those by phase and event. |
| `CompletedTasks.StaysUnless` | src/backend_agent/services/worker_service.py:133-254 | The same for one step of any handler, delivery, call or lease. |
| `SampleRuns.CompletedMayRetry` | src/backend_agent/services/worker_service.py:133-151 | It happens: a run from an empty system in which a task is saved as completed, the final event or acknowledgement raises, and it is saved as retrying. |
| `ProtocolTheorems.LeaseExcludes` | src/backend_agent/repositories/redis_store.py:165-181 | Two workers work under one task's lease only if one of them let it run out. |
| `ProtocolTheorems.LeaseMoves` | src/backend_agent/services/worker_service.py:54-60 | At every step but an expiry: a lease is taken exactly by the worker that asks while it is free, and disappears exactly when its owner stops working under it without crashing. |
| `AgentGraph.ResolveOwnId` | src/backend_agent/commerce.py:359-377 | Resolving a product id finds that id exactly when the merchant owns the product. |
| `NodeRules.ScopeNodeIs` | src/backend_agent/agent/graph.py:209-230 | The candidates are the merchant's products, narrowed to the matching ones if there are any; a named product or a single candidate is taken, otherwise the merchant is asked with these candidates, and an answer is taken exactly if it is an input naming a product the merchant owns; each other way has its error. |
| `NodeRules.SameBatchIff` | src/backend_agent/agent/graph.py:603-612 | Two turns without submissions make the same batch if and only if they make the same calls in order, whatever the call ids. |
| `NodeRules.ExecuteAllIff` | src/backend_agent/agent/graph.py:331-338 | The tools answer a turn if and only if every call is of one of the three read tools, asks for the task's merchant and product where it reads one, and gets a result; then each call gets its own tool's evidence. |
| `NodeRules.ExecuteAllFailsAs` | src/backend_agent/agent/graph.py:331-338 | Otherwise the turn fails as its first call that does not run. |
| `NodeRules.ReportsFaults` | src/backend_agent/agent/graph.py:523-544 | Each reported error is a fault the diagnosis has and each fault is reported: facts without evidence by their statement, unknown ids by the set of them, a patch without an evidenced content fact; an unparsed diagnosis as such. |
| `NodeRules.ValidationNodeIs` | src/backend_agent/agent/graph.py:340-396 | A faulty diagnosis goes back to the model, with the faults as the answer to its submission, exactly while reflections are left, and fails the run otherwise; a sound one is left as it is. |
| `NodeRules.ApprovalNodeIs` | src/backend_agent/agent/graph.py:426-467 | The approval node asks until it is resumed; it then follows the recorded decision, sets only status and note, and fails exactly as the ledger fails. |
| `Validation.CollectEvidenceIds` | src/backend_agent/agent/graph.py:547-561 | The loop collects the metrics' ids and those of tool results; rejected submissions contribute none. |
| `Validation.ValidateDiagnosis` | src/backend_agent/agent/graph.py:523-544 | The loop reports, in order, exactly the errors of the specification that `ValidatesIff` characterises. |
| `Validation.DiagnosisToolCallId` | src/backend_agent/agent/graph.py:622-630 | The id of the first submission call, present exactly when the turn has one. |
| `Transcript.OwingPaired` | src/backend_agent/agent/graph.py:621-630 | A transcript with nothing owed is paired: each assistant message is followed at once by one answer per call, in order, and every tool message of the transcript is such an answer, so each call is answered exactly once. |
| `Transcript.TrailingRunIsARun` | src/backend_agent/agent/graph.py:602-612 | The trailing run is a run of one non-empty batch and cannot be extended to the left. |
| `Transcript.DetectRepetitionCounts` | src/backend_agent/agent/graph.py:602-612 | The incremental counter and signature equal trailing run and last batch of the history one turn further. |
| `GraphRuns.ExecuteAllAnswers` | src/backend_agent/agent/graph.py:331-338 | If all calls succeed, the answers are one per call in call order, each of a known tool within the task's scope. |
| `GraphRuns.ExecuteAllEvidence` | src/backend_agent/agent/graph.py:331-338 | And they bring exactly the evidence the tools returned. |
| `GraphRuns.CorrectionsAnswer` | src/backend_agent/agent/graph.py:344-365 | A rejected submission is answered by its own tool message, a turn without a call by none, and neither brings evidence. |
| `GraphRuns.ModelCommit` | src/backend_agent/agent/graph.py:262-329 | A committed model turn keeps pairing, counters, bounds and scope of the state, and leads to tools or validation accordingly. |
| `GraphRuns.PlansFrom` | src/backend_agent/commerce.py:486-529 | A plan in the table was a draft; a new draft carries task, merchant, product and patch of its own read. |
| `GraphRuns.StepInv` | src/backend_agent/agent/graph.py:79-467 | Every start, node execution, abort, plan draft and foreign ledger operation keeps the invariant of thread and ledger. |
| `GraphRuns.RunInv` | src/backend_agent/agent/graph.py:79-467 | The invariant holds in every state of every life of a thread. |
| `GraphTheorems.ValidatesIff` | src/backend_agent/agent/graph.py:523-544 | Validation is silent exactly for a parsed diagnosis whose ids are all known, whose facts have evidence, and whose patch has an evidenced content fact. |
| `GraphTheorems.EvidenceProvenance` | src/backend_agent/agent/graph.py:340-396 | Against any model: past validation all cited ids were returned by the metrics node or an executed tool of this thread, and any stored plan rests on an evidenced content fact. |
| `GraphTheorems.TranscriptPairing` | src/backend_agent/agent/graph.py:291-380 | Whenever the model is next, every earlier call is answered exactly once, in order, before the next assistant message, and no tool message answers anything else; every executed call was of a read tool and asked for no other merchant or product than the task's. |
| `GraphTheorems.WindowIsRun` | src/backend_agent/agent/graph.py:602-612 | k equal non-empty batches at the end make a trailing run of at least k. |
| `GraphTheorems.RepetitionCounted` | src/backend_agent/agent/graph.py:282-290 | The stored counter is the trailing run of the committed turns, and no `max_repeated_steps` turns in a row ever made the same calls. |
| `GraphTheorems.LoopBounds` | src/backend_agent/agent/graph.py:86-89 | Over a task's whole life: at most `max_iterations` turns of at most `max_tool_calls_per_turn` calls, `max_reflections` reflections and 2*max_iterations+4 committed nodes, below the recursion limit. |
| `GraphTheorems.ModelRefusesIff` | src/backend_agent/agent/graph.py:262-305 | A turn is refused as a loop exactly when turns are used up, it has too many calls, or it would complete `max_repeated_steps` equal batches; as a submission exactly when it is not alone; otherwise it commits. |
| `GraphTheorems.CommitsBounded` | src/backend_agent/agent/graph.py:178-207 | Across any stretch of runs the nodes committed are counted by the measure and stay under the same bound. |
| `GraphTheorems.ScopeIsChosen` | src/backend_agent/agent/graph.py:209-238 | The product a thread is about is the one the task names; otherwise the merchant owns it and it is the only candidate found or the one the merchant's input message brought. |
| `GraphTheorems.PlanAgreement` | src/backend_agent/agent/graph.py:398-424 | However often the plan node runs, the task has one plan, for the product fixed by scope (the task's own, if it names one) and owned by the merchant, with the text of the validated patch; the interaction shows the merchant every field of it. |
| `GraphTheorems.PatchIsAskedFor` | src/backend_agent/agent/graph.py:398-424 | A thread ends without having asked for approval exactly when its validated diagnosis proposes no patch. |
| `GraphTheorems.InterruptHolds` | src/backend_agent/agent/graph.py:102-123 | At an interrupt a run goes on exactly for a message of the kind waited for that brings an id, and with that id; until one comes, thread and ledger stay as they are, every other kind is answered with the awaiting status and the interrupt's own question, and a missing id is refused. |
| `GraphTheorems.WaitingIs` | src/backend_agent/agent/graph.py:125-156 | In every life a waiting thread is at scope or at approval, and the outcome of a run there is awaiting input or awaiting approval accordingly, with the pending interaction. |
| `GraphTheorems.ApprovalNeedsMessage` | src/backend_agent/agent/graph.py:104-119 | The approval interrupt is passed only after a run was started with an approval message that has an id. |
| `GraphTheorems.ToldIsTrue` | src/backend_agent/agent/graph.py:430-467 | When the approval node commits it was resumed with a recorded approval's id; rejected is reported exactly for a reject, with the ledger untouched, and otherwise the receipt reported is the stored one the ledger answers that approval with. |
| `GraphOutcomes.FinalOutcomeIs` | src/backend_agent/agent/graph.py:129-135 | In every life the outcome of a finished thread reports its validated diagnosis; it shows an interaction exactly if a change was proposed, and then an earlier step ended the thread by a recorded approval: the outcome is rejected exactly if that approval rejects, and completed otherwise. |
| `GraphInProtocol.ToldIsOwn` | src/backend_agent/agent/graph.py:430-467 | If every approval a run was started with is recorded for this task, as the protocol's messages are, then the approval reported on and every receipt that answers it are this task's own. |
| `GraphInProtocol.OutcomesAreTrue` | src/backend_agent/agent/graph.py:125-156 | Under the same condition whatever a run can return is so on the ledger: a rejection was decided, a proposed change reported as completed has the task's receipt, what waits for approval is the task's plan, and a waiting thread is never reported as anything else. The protocol takes outcomes to be like that. |
| `GraphTheorems.FinishedConverges` | src/backend_agent/agent/graph.py:120-135 | A finished thread never changes, and every accepted redelivery gets the same final outcome. |
| `GraphInProtocol.RunKeepsToMessage` | src/backend_agent/agent/graph.py:114-119 | Over any stretch of a life in which runs are started for one message, the resume value a run still has is that message's. |
| `GraphInProtocol.GraphActsWithinMessage` | src/backend_agent/agent/graph.py:398-447 | Over such a stretch, whatever the thread does to the ledger, inserts of its plan included, is nothing or an enabled operation the protocol allows for the message: its own task's plan, and only the approval the message brought. |
| `EventReplay.EventIterator.constructor` | src/backend_agent/repositories/redis_store.py:227-233 | A generator stands at the id it was given, before its opening read. |
| `EventReplay.EventIterator.Next` | src/backend_agent/repositories/redis_store.py:232-251 | One resumption of the generator: what it yields and where it stands afterwards, for its opening range, a batch in hand, a new batch or a timeout. |
| `EventReplay.Continue` | src/backend_agent/repositories/redis_store.py:232-236 | Reading after the last id received gives exactly the rest of what reading from the start gives. |
| `EventReplay.ReplayIsExact` | src/backend_agent/repositories/redis_store.py:227-251 | Across any appends and reconnects with the last received id, what the client has received is exactly the stream after its starting id up to where it stands, and all of it once a read of the whole stream times out with nothing on the wire. |

## Left out

- FunnelIdentity: over exact reals, while the program computes in binary floating point and may leave a rounding remainder.
- RatesAreRatios: over exact reals, while the program divides in binary floating point.
- ContributionIsAverageMarginalEffect: over exact reals, while the program computes in binary floating point.
- SubmitInput: runs without interference, so the branch after a lost compare-and-set is only in `Protocol`, where the handler then ends; what it answers is left out.
- SubmitApproval: the same; the branch after a lost compare-and-set is only in `Protocol`.
- HandleMessage: exceptions of Redis and of acknowledging are left to `Protocol`; events appended between the saves are not recorded.
- Protocol: the check of the lease in `resume_task` is a step of its own, and the events a handler appends between two accesses are modelled only as points where it can fail.
- LeaseExcludes: leases run out at any moment instead of after their time to live.
- RedisStore: time to live, stream trimming, conversations and the wall clock are left out.
- TaskRecord: session, trace and prompt ids, timestamps and error messages are not part of the record.
- ResolveProduct: which products match a query is handed in; lower-casing and the order of candidates are not modelled.
- TaskQueue: in the services and the protocol the queue is a multiset of waiting, delayed and returned messages; the choice among retry queues and their delays is left out.
- Model and tool clients, the MCP server, the mock model and the calculator: the model is any sequence of turns, tools are any results.
- Report rendering, prompts, evidence extraction from product context, the snapshot hash of metrics: text production without state.
- Knowledge-base scoring: floating-point logarithms over text.
- API routing, authentication, schemas, logging, settings and retries inside clients: none of them holds state of the parts above.
