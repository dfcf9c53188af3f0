/** The task protocol as a transition system: any number of API handlers and workers, each at one point of
  * its code, interleaved between any two of their accesses to Redis, RabbitMQ and the ledger. */
module Protocol {
  import opened Wrappers
  import opened Tables
  import opened IdempotencyKey
  import opened Commerce
  import opened TaskRecords
  import LedgerRuns

  /** A delivery a worker holds; once `open` is false the broker no longer waits for its acknowledgement. */
  datatype Delivery = Delivery(message: QueueMessage, open: bool)

  /** What a handler does next, with the record copy it has in memory. */
  datatype Phase =
    // API handlers
    | SubmittingInput(task: TaskRecord, productId: string)       // compare-and-set next
    | SubmittingApproval(task: TaskRecord, planId: string, planVersion: int, actionId: string,
                         decision: ApprovalDecision, freshId: string)  // record_approval next
    | ApprovalRecorded(task: TaskRecord, approvalId: string)     // compare-and-set next
    | ResumeRead(task: TaskRecord)                               // look at the lease next
    | Resuming(task: TaskRecord)                                 // save next
    | Publishing(failed: TaskRecord, message: QueueMessage)      // saved; publish next
    | Unpublished(failed: TaskRecord, message: QueueMessage)     // publish raised; save `failed` next
    // Workers
    | Delivered(d: Delivery)                                     // acquire the lease next
    | Contended(d: Delivery)                                     // lease taken: publish_retry next
    | Delayed(d: Delivery)                                       // acknowledge next
    | Leased(d: Delivery)                                        // get_task next
    | Dropping(d: Delivery)                                      // not for this record: acknowledge next
    | Matched(d: Delivery, task: TaskRecord)                     // save RUNNING next
    | Started(d: Delivery, task: TaskRecord)                     // running the graph
    | Finishing(d: Delivery, task: TaskRecord)                   // final save next
    | Saved(d: Delivery)                                         // events and acknowledgement next
    | Failing(d: Delivery, graphStarted: bool, failure: Failure) // exception caught: get_task next
    | FailureRead(d: Delivery, task: TaskRecord, retry: QueueMessage)             // save next
    | Retrying'(d: Delivery, failed: TaskRecord, retry: QueueMessage)             // publish_retry next
    | RetryUnpublished(d: Delivery, failed: TaskRecord, retry: QueueMessage)      // save `failed` next
    | Settling(d: Delivery)                                      // events and acknowledgement next
    // Ends
    | Lost(message: QueueMessage)  // stopped after saving a record and before the publish that belongs to it
    | Done

  /** How the next access of a handler goes: it works, it raises with or without having taken effect, or the
    * handler's process or its broker connection is gone. */
  datatype Event =
    | Proceed
    | Raise(failure: Failure)
    | RaiseAfter(failure: Failure)
    | RunRaise(failure: Failure)
    | RunReturn(outcome: RunOutcome)
    | Redeliver
    | Crash

  /** What one step of a handler does to the shared state. */
  datatype Effect = Effect(next: Phase, write: Option<TaskRecord>, sends: multiset<QueueMessage>,
                           act: Option<LedgerRuns.Action>)

  function Quiet(next: Phase): Effect { Effect(next, None, multiset{}, None) }
  function Write(next: Phase, task: TaskRecord): Effect { Effect(next, Some(task), multiset{}, None) }
  function Send(next: Phase, sends: multiset<QueueMessage>): Effect { Effect(next, None, sends, None) }

  /** A delivery that is still open goes back to the queue when its worker lets go of it. */
  function Returned(d: Delivery): multiset<QueueMessage> {
    if d.open then multiset{d.message} else multiset{}
  }

  function GiveUp(d: Delivery): Effect { Send(Done, Returned(d)) }

  predicate IsWorker(p: Phase) {
    p.Delivered? || p.Contended? || p.Delayed? || p.Leased? || p.Dropping? || p.Matched? || p.Started?
    || p.Finishing? || p.Saved? || p.Failing? || p.FailureRead? || p.Retrying'? || p.RetryUnpublished? || p.Settling?
  }

  /** The worker works under the lease of its task. */
  predicate UnderLease(p: Phase) {
    IsWorker(p) && !p.Delivered? && !p.Contended? && !p.Delayed?
  }

  predicate IsApi(p: Phase) {
    p.SubmittingInput? || p.SubmittingApproval? || p.ApprovalRecorded? || p.ResumeRead? || p.Resuming? || p.Publishing? || p.Unpublished?
  }

  function TaskOf(p: Phase): Option<string> {
    if p.SubmittingInput? || p.SubmittingApproval? || p.ApprovalRecorded? || p.ResumeRead? || p.Resuming? then Some(p.task.taskId)
    else if p.Publishing? || p.Unpublished? || p.Lost? then Some(p.message.taskId)
    else if IsWorker(p) then Some(p.d.message.taskId)
    else None
  }

  // ----- API handlers -----

  function InputMessage(task: TaskRecord, productId: string): QueueMessage {
    QueueMessage(task.taskId, 0, Some(InputKind), Some(productId))
  }

  function ApprovalMessage(task: TaskRecord, approvalId: string): QueueMessage {
    QueueMessage(task.taskId, 0, Some(ApprovalKind), Some(approvalId))
  }

  /** `stored` is the record in Redis at the moment of the step. */
  function ApiMove(p: Phase, e: Event, stored: TaskRecord, l: Ledger): Option<Effect>
    requires IsApi(p)
  {
    match p
    case SubmittingInput(task, productId) =>
      var m := InputMessage(task, productId);
      var saved := InputSubmitted(task, productId);
      CompareAndSet(e, stored, AwaitingInput, saved, PublishFailed(saved, Some(InputResume(productId))), m)
    case SubmittingApproval(task, planId, planVersion, actionId, decision, freshId) =>
      var act := LedgerRuns.Record(freshId, task.taskId, task.merchantId, planId, planVersion, actionId, decision);
      var answer := RecordApproval(l, freshId, task.taskId, task.merchantId, planId, planVersion, actionId, decision).1;
      if e.Proceed? then
        Some(Effect(if answer.Ok? then ApprovalRecorded(task, answer.value) else Done, None, multiset{}, Some(act)))
      else if e.RaiseAfter? then Some(Effect(Done, None, multiset{}, Some(act)))
      else if e.Raise? || e.Crash? then Some(Quiet(Done))
      else None
    case ApprovalRecorded(task, approvalId) =>
      var m := ApprovalMessage(task, approvalId);
      var saved := ApprovalSubmitted(task, approvalId);
      CompareAndSet(e, stored, ExpectedStatus(task), saved, PublishFailed(saved, Some(ApprovalResume(approvalId))), m)
    case ResumeRead(task) =>
      if e.Raise? || e.Crash? then Some(Quiet(Done)) else None  // otherwise the lease decides, see Next
    case Resuming(task) =>
      if e.Proceed? then Some(Write(Publishing(ResumeFailed(task), ResumeMessage(task)), Resumed(task)))
      else if e.RaiseAfter? then Some(Write(Lost(ResumeMessage(task)), Resumed(task)))
      else if e.Raise? || e.Crash? then Some(Quiet(Done))
      else None
    case Publishing(failed, m) =>
      if e.Proceed? then Some(Send(Done, multiset{m}))
      else if e.Raise? then Some(Quiet(Unpublished(failed, m)))
      else if e.RaiseAfter? then Some(Send(Unpublished(failed, m), multiset{m}))
      else if e.Crash? then Some(Quiet(Lost(m)))  // also: the event append before the publish raised
      else None
    case Unpublished(failed, m) =>
      if e.Proceed? || e.RaiseAfter? then Some(Write(Done, failed))
      else if e.Raise? || e.Crash? then Some(Quiet(Lost(m)))
      else None
  }

  /** `transition_task` looks only at the status that is stored, and replaces the whole record. */
  function CompareAndSet(e: Event, stored: TaskRecord, expected: TaskStatus, saved: TaskRecord,
                         failed: TaskRecord, m: QueueMessage): Option<Effect>
  {
    if e.Proceed? then
      Some(if stored.status == expected then Write(Publishing(failed, m), saved) else Quiet(Done))
    else if e.RaiseAfter? then
      Some(if stored.status == expected then Write(Lost(m), saved) else Quiet(Done))
    else if e.Raise? || e.Crash? then Some(Quiet(Done))
    else None
  }

  // ----- Workers -----

  function Closed(d: Delivery): Delivery { d.(open := false) }

  function WithDelivery(p: Phase, d: Delivery): Phase
    requires IsWorker(p)
  {
    match p
    case Delivered(_) => Delivered(d)
    case Contended(_) => Contended(d)
    case Delayed(_) => Delayed(d)
    case Leased(_) => Leased(d)
    case Dropping(_) => Dropping(d)
    case Matched(_, task) => Matched(d, task)
    case Started(_, task) => Started(d, task)
    case Finishing(_, task) => Finishing(d, task)
    case Saved(_) => Saved(d)
    case Failing(_, g, f) => Failing(d, g, f)
    case FailureRead(_, task, retry) => FailureRead(d, task, retry)
    case Retrying'(_, failed, retry) => Retrying'(d, failed, retry)
    case RetryUnpublished(_, failed, retry) => RetryUnpublished(d, failed, retry)
    case Settling(_) => Settling(d)
  }

  function WorkerMove(p: Phase, e: Event, stored: TaskRecord, maxAttempts: int): Option<Effect>
    requires IsWorker(p)
  {
    if e.Redeliver? then
      // The connection drops: the broker hands the delivery to someone else while this worker goes on.
      Some(Send(WithDelivery(p, Closed(p.d)), Returned(p.d)))
    else if e.Crash? then
      Some(if p.Retrying'? || p.RetryUnpublished? then Send(Lost(p.retry), Returned(p.d)) else GiveUp(p.d))
    else match p
      case Delivered(d) =>
        if e.Raise? then Some(GiveUp(d)) else None  // otherwise the lease decides, see Next
      case Contended(d) =>
        if e.Proceed? then Some(Send(Delayed(d), multiset{d.message}))
        else if e.Raise? then Some(GiveUp(d))
        else if e.RaiseAfter? then Some(Send(Done, multiset{d.message} + Returned(d)))
        else None
      case Delayed(d) => SettleMove(d, e)
      case Leased(d) =>
        if e.Proceed? then Some(Quiet(if Accepts(stored, d.message) then Matched(d, stored) else Dropping(d)))
        else if e.Raise? then Some(Quiet(Failing(d, false, e.failure)))
        else None
      case Dropping(d) => AckMove(d, e, false)
      case Matched(d, task) =>
        var running := MarkRunning(task, d.message);
        if e.Proceed? then Some(Write(Started(d, running), running))
        else if e.Raise? then Some(Quiet(Failing(d, false, e.failure)))
        else if e.RaiseAfter? then Some(Write(Failing(d, false, e.failure), running))
        else None
      case Started(d, task) =>
        if e.Raise? then Some(Quiet(Failing(d, false, e.failure)))  // before the graph was started
        else if e.RunRaise? then Some(Quiet(Failing(d, true, e.failure)))
        else if e.RunReturn? then Some(Quiet(Finishing(d, Finished(task, e.outcome))))
        else None
      case Finishing(d, task) =>
        if e.Proceed? then Some(Write(Saved(d), task))
        else if e.Raise? then Some(Quiet(Failing(d, true, e.failure)))
        else if e.RaiseAfter? then Some(Write(Failing(d, true, e.failure), task))
        else None
      case Saved(d) => AckMove(d, e, true)
      case Failing(d, graphStarted, f) =>
        if e.Proceed? then
          var task := AfterFailure(stored, d.message, graphStarted, f, maxAttempts);
          Some(Quiet(FailureRead(d, task, RetryMessage(d.message, graphStarted))))
        else if e.Raise? then Some(GiveUp(d))
        else None
      case FailureRead(d, task, retry) =>
        var next := if task.status.Retrying?
                    then Retrying'(d, PublishFailed(task, ResumeInteraction(retry)), retry) else Settling(d);
        if e.Proceed? then Some(Write(next, task))
        else if e.Raise? then Some(GiveUp(d))
        else if e.RaiseAfter? then
          Some(Effect(if task.status.Retrying? then Lost(retry) else Done, Some(task), Returned(d), None))
        else None
      case Retrying'(d, failed, retry) =>
        if e.Proceed? then Some(Send(Settling(d), multiset{retry}))
        else if e.Raise? then Some(Quiet(RetryUnpublished(d, failed, retry)))
        else if e.RaiseAfter? then Some(Send(RetryUnpublished(d, failed, retry), multiset{retry}))
        else None
      case RetryUnpublished(d, failed, retry) =>
        if e.Proceed? then Some(Write(Settling(d), failed))
        else if e.Raise? then Some(Send(Lost(retry), Returned(d)))
        else if e.RaiseAfter? then Some(Effect(Done, Some(failed), Returned(d), None))
        else None
      case Settling(d) => SettleMove(d, e)
  }

  /** Acknowledging inside the `try`: an exception here is handled like a failed run. */
  function AckMove(d: Delivery, e: Event, graphStarted: bool): Option<Effect> {
    if e.Proceed? then Some(Quiet(Done))
    else if e.Raise? then Some(Quiet(Failing(d, graphStarted, e.failure)))
    else if e.RaiseAfter? then Some(Quiet(Failing(Closed(d), graphStarted, e.failure)))
    else None
  }

  /** Acknowledging or dead-lettering outside the `try`: an exception leaves the delivery with the broker. */
  function SettleMove(d: Delivery, e: Event): Option<Effect> {
    if e.Proceed? || e.RaiseAfter? then Some(Quiet(Done))
    else if e.Raise? then Some(GiveUp(d))
    else None
  }

  function Move(p: Phase, e: Event, stored: TaskRecord, l: Ledger, maxAttempts: int): Option<Effect> {
    if IsApi(p) then ApiMove(p, e, stored, l)
    else if IsWorker(p) then WorkerMove(p, e, stored, maxAttempts)
    else None
  }

  // ----- The whole system -----

  /** `late` are the workers whose lease ran out while they were working, `started` the messages for which the
    * graph has been started. */
  datatype World = World(
    records: map<string, TaskRecord>, queue: multiset<QueueMessage>, handlers: map<nat, Phase>,
    leases: map<string, nat>, late: set<nat>, started: set<QueueMessage>, books: LedgerRuns.State)

  datatype Action =
    | Create(h: nat, taskId: string, merchantId: string, productId: Option<string>)
    | OpenInput(h: nat, taskId: string, chosen: string)
    | OpenApproval(h: nat, taskId: string, planId: string, planVersion: int, actionId: string,
                   decision: ApprovalDecision, freshId: string)
    | OpenResume(h: nat, taskId: string)
    | Deliver(h: nat, message: QueueMessage)
    | Acquire(h: nat)
    | CheckLease(h: nat)
    | Local(h: nat, event: Event)
    | Graph(message: QueueMessage, act: LedgerRuns.Action)
    | Expire(taskId: string)

  /** The ledger operations the graph of a task may perform for message `m`: it drafts and inserts plans of its
    * own task, and it applies only the approval that `m` brought. It performs them in threads that a time-out
    * or the end of the run does not stop, so at any time after its start. */
  predicate GraphMay(m: QueueMessage, a: LedgerRuns.Action) {
    match a
    case Read(_, taskId, _, _, _) => taskId == m.taskId
    case Insert(plan) => plan.taskId == m.taskId
    case Record(_, _, _, _, _, _, _) => false
    case Apply(approvalId, _) => m.kind == Some(ApprovalKind) && m.id == Some(approvalId)
  }

  /** What the graph returns is so: a rejection was decided, a completed plan has been carried out, and what
    * waits for approval is the task's plan. */
  ghost predicate OutcomeTrue(l: Ledger, taskId: string, o: RunOutcome) {
    match o.status
    case RunRejected => RejectKnown(l, taskId)
    case RunCompleted => o.interaction.Some? ==> ReceiptKnown(l, taskId)
    case RunAwaitingApproval => PlanShown(l, taskId, o.interaction)
    case RunAwaitingInput => o.interaction.Some? && o.interaction.value.InputRequired?
  }

  ghost predicate RejectKnown(l: Ledger, taskId: string) {
    exists a | a in l.approvals :: a.taskId == taskId && a.decision == Reject
  }

  ghost predicate ReceiptKnown(l: Ledger, taskId: string) {
    exists p, r | p in l.plans && r in l.receipts :: p.taskId == taskId && r.idempotencyKey == PlanKey(p)
  }

  ghost predicate PlanShown(l: Ledger, taskId: string, i: Option<Interaction>) {
    exists p | p in l.plans :: p.taskId == taskId && i == Some(PlanInteraction(p))
  }

  ghost predicate Init(w: World) {
    && w.records == map[] && w.queue == multiset{} && w.handlers == map[] && w.leases == map[] && w.late == {} && w.started == {}
    && LedgerRuns.Init(w.books)
  }

  predicate Fresh(w: World, h: nat) { h !in w.handlers }

  ghost predicate CanLocal(w: World, h: nat, e: Event, maxAttempts: int) {
    && h in w.handlers
    && TaskOf(w.handlers[h]).Some? && TaskOf(w.handlers[h]).value in w.records
    && Move(w.handlers[h], e, w.records[TaskOf(w.handlers[h]).value], w.books.ledger, maxAttempts).Some?
    && (e.RunReturn? ==> OutcomeTrue(w.books.ledger, TaskOf(w.handlers[h]).value, e.outcome))
    // No exception of a run carries the code that is reserved for failed publishes.
    && ((e.Raise? || e.RaiseAfter? || e.RunRaise?) ==> SafeError(e.failure) != QueuePublishFailed)
  }

  ghost predicate Can(w: World, a: Action, maxAttempts: int) {
    match a
    case Create(h, taskId, _, _) => Fresh(w, h) && taskId !in w.records && ColonFree(taskId)
    case OpenInput(h, taskId, productId) =>
      Fresh(w, h) && taskId in w.records && w.records[taskId].status.AwaitingInput?
      && Owns(w.books.ledger, w.records[taskId].merchantId, productId)
    case OpenApproval(h, taskId, _, _, _, _, _) =>
      Fresh(w, h) && taskId in w.records && AcceptsApproval(w.records[taskId])
    case OpenResume(h, taskId) =>
      Fresh(w, h) && taskId in w.records && Resumable(w.records[taskId], false)
    case Deliver(h, m) => Fresh(w, h) && m in w.queue
    case Acquire(h) => h in w.handlers && w.handlers[h].Delivered?
    case CheckLease(h) => h in w.handlers && w.handlers[h].ResumeRead?
    case Local(h, e) => CanLocal(w, h, e, maxAttempts)
    case Graph(m, act) => m in w.started && GraphMay(m, act) && LedgerRuns.Enabled(w.books, act)
    case Expire(taskId) => taskId in w.leases
  }

  function ApplyEffect(w: World, h: nat, eff: Effect): World {
    w.(handlers := w.handlers[h := eff.next],
       records := if eff.write.Some? then w.records[eff.write.value.taskId := eff.write.value] else w.records,
       queue := w.queue + eff.sends,
       started := if eff.next.Started? then w.started + {eff.next.d.message} else w.started,
       books := if eff.act.Some? then LedgerRuns.After(w.books, eff.act.value) else w.books)
  }

  /** A worker that ends gives back the lease only if it still is the owner; one that crashes does not. */
  function Release(w: World, h: nat): World {
    w.(leases := map t | t in w.leases && w.leases[t] != h :: w.leases[t])
  }

  function With(w: World, h: nat, p: Phase): World {
    w.(handlers := w.handlers[h := p])
  }

  function CreateNext(w: World, h: nat, task: TaskRecord): World {
    w.(records := w.records[task.taskId := task],
       handlers := w.handlers[h := Publishing(PublishFailed(task, None), QueueMessage(task.taskId, 0, None, None))])
  }

  function DeliverNext(w: World, h: nat, m: QueueMessage): World {
    w.(queue := w.queue - multiset{m}, handlers := w.handlers[h := Delivered(Delivery(m, true))])
  }

  function AcquireNext(w: World, h: nat, d: Delivery): World {
    if d.message.taskId in w.leases then With(w, h, Contended(d))
    else w.(handlers := w.handlers[h := Leased(d)], leases := w.leases[d.message.taskId := h])
  }

  function LocalNext(w: World, h: nat, e: Event, eff: Effect): World
    requires h in w.handlers
  {
    var w' := ApplyEffect(w, h, eff);
    if UnderLease(w.handlers[h]) && !UnderLease(eff.next) && !e.Crash? then Release(w', h) else w'
  }

  function ExpireNext(w: World, taskId: string): World
    requires taskId in w.leases
  {
    w.(leases := w.leases - {taskId}, late := w.late + {w.leases[taskId]})
  }

  function Next(w: World, a: Action, maxAttempts: int): World
    requires Can(w, a, maxAttempts)
  {
    match a
    case Create(h, taskId, merchantId, productId) => CreateNext(w, h, NewTask(taskId, merchantId, productId))
    case OpenInput(h, taskId, productId) => With(w, h, SubmittingInput(w.records[taskId], productId))
    case OpenApproval(h, taskId, planId, planVersion, actionId, decision, freshId) =>
      With(w, h, SubmittingApproval(w.records[taskId], planId, planVersion, actionId, decision, freshId))
    case OpenResume(h, taskId) => With(w, h, ResumeRead(w.records[taskId]))
    case Deliver(h, m) => DeliverNext(w, h, m)
    case Acquire(h) => AcquireNext(w, h, w.handlers[h].d)
    case CheckLease(h) =>
      var task := w.handlers[h].task;
      With(w, h, if Resumable(task, task.taskId in w.leases) then Resuming(task) else Done)
    case Local(h, e) =>
      LocalNext(w, h, e, Move(w.handlers[h], e, w.records[TaskOf(w.handlers[h]).value], w.books.ledger, maxAttempts).value)
    case Graph(_, act) => w.(books := LedgerRuns.After(w.books, act))
    case Expire(taskId) => ExpireNext(w, taskId)
  }
}
