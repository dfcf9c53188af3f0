/** Task records, queue messages, and every rewrite the services make of a record. */
module TaskRecords {
  import opened Wrappers
  import opened Commerce

  datatype TaskStatus =
    Queued | Running | Retrying | AwaitingInput | AwaitingApproval | Rejected | Completed | Failed

  datatype ResumeKind = RetryKind | InputKind | ApprovalKind

  datatype ErrorCode =
    | QueuePublishFailed
    | AgentLoopDetected
    | ModelRequestRejected
    | ModelEmptyResponse
    | ModelInvalidToolArguments
    | TaskTimeout
    | TaskExecutionFailed
    | OtherCode(code: string)

  /** The dictionary stored in a record's `interaction`, by its `type`. */
  datatype Interaction =
    | InputRequired(candidates: set<string>)
    | ApprovalRequired(planId: string, planVersion: int, actionId: string, productId: string,
                       productVersion: int, before: string, after: string, reason: string)
    | InputResume(productId: string)
    | ApprovalResume(approvalId: string)
    | RetryResume(resumeId: string)

  /** A plan as it is shown to the merchant for approval. */
  function PlanInteraction(plan: ActionPlan): Interaction {
    ApprovalRequired(plan.planId, plan.planVersion, plan.actionId, plan.productId, plan.productVersion,
                     plan.beforeValue, plan.afterValue, plan.reason)
  }

  datatype TaskRecord = TaskRecord(
    taskId: string, merchantId: string, productId: Option<string>, status: TaskStatus, attempt: int,
    pendingAttempt: Option<int>, pendingKind: Option<ResumeKind>, pendingId: Option<string>,
    result: Option<string>, interaction: Option<Interaction>, error: Option<ErrorCode>)

  datatype QueueMessage = QueueMessage(
    taskId: string, attempt: int, kind: Option<ResumeKind>, id: Option<string>)

  datatype RunStatus = RunCompleted | RunAwaitingInput | RunAwaitingApproval | RunRejected

  datatype RunOutcome = RunOutcome(status: RunStatus, result: Option<string>, interaction: Option<Interaction>)

  /** An exception as the worker tells them apart. */
  datatype Failure =
    | LoopError
    | DependencyError(dependencyCode: ErrorCode)
    | AppError(appCode: ErrorCode)
    | ValueError
    | TimeoutError
    | OtherError

  // ----- worker_service.py -----

  predicate IsRetryable(f: Failure) {
    match f
    case LoopError => false
    case ValueError => false
    case DependencyError(code) =>
      !(code.ModelRequestRejected? || code.ModelEmptyResponse? || code.ModelInvalidToolArguments?)
    case AppError(_) => false
    case TimeoutError => true
    case OtherError => true
  }

  function SafeError(f: Failure): ErrorCode {
    match f
    case LoopError => AgentLoopDetected
    case DependencyError(code) => code
    case AppError(code) => code
    case TimeoutError => TaskTimeout
    case ValueError => TaskExecutionFailed
    case OtherError => TaskExecutionFailed
  }

  predicate MatchesPending(task: TaskRecord, m: QueueMessage) {
    task.pendingAttempt.None?
    || (m.attempt == task.pendingAttempt.value && m.kind == task.pendingKind && m.id == task.pendingId)
  }

  predicate PublishRecovery(task: TaskRecord) {
    task.status.Failed? && task.error == Some(QueuePublishFailed)
  }

  /** A worker goes on with a message only if the record it reads says so; otherwise it acknowledges and forgets it. */
  predicate Accepts(task: TaskRecord, m: QueueMessage) {
    && (task.status.Queued? || task.status.Running? || task.status.Retrying? || PublishRecovery(task))
    && MatchesPending(task, m)
  }

  function MarkRunning(task: TaskRecord, m: QueueMessage): TaskRecord {
    task.(status := Running, attempt := m.attempt)
  }

  function Finished(task: TaskRecord, outcome: RunOutcome): TaskRecord {
    task.(result := outcome.result, interaction := outcome.interaction, error := None,
          pendingAttempt := None, pendingKind := None, pendingId := None,
          status := match outcome.status
                    case RunAwaitingInput => AwaitingInput
                    case RunAwaitingApproval => AwaitingApproval
                    case RunRejected => Rejected
                    case RunCompleted => Completed)
  }

  /** The message a failed attempt is replaced by. */
  function RetryMessage(m: QueueMessage, graphStarted: bool): QueueMessage {
    if graphStarted && m.kind != Some(InputKind) && m.kind != Some(ApprovalKind)
    then QueueMessage(m.taskId, m.attempt + 1, Some(RetryKind), Some(m.taskId))
    else m.(attempt := m.attempt + 1)
  }

  function AfterFailure(task: TaskRecord, m: QueueMessage, graphStarted: bool, f: Failure, maxAttempts: int): TaskRecord {
    var next := RetryMessage(m, graphStarted);
    task.(error := Some(SafeError(f)), attempt := m.attempt,
          pendingAttempt := Some(next.attempt), pendingKind := next.kind, pendingId := next.id,
          status := if IsRetryable(f) && next.attempt < maxAttempts then Retrying else Failed)
  }

  function ResumeInteraction(m: QueueMessage): Option<Interaction> {
    if m.id.None? || m.id.value == "" then None
    else match m.kind
      case Some(InputKind) => Some(InputResume(m.id.value))
      case Some(ApprovalKind) => Some(ApprovalResume(m.id.value))
      case Some(RetryKind) => Some(RetryResume(m.id.value))
      case None => None
  }

  // ----- task_service.py -----

  function NewTask(taskId: string, merchantId: string, productId: Option<string>): TaskRecord {
    TaskRecord(taskId, merchantId, productId, Queued, 0, Some(0), None, None, None, None, None)
  }

  /** A record after its publish raised. */
  function PublishFailed(task: TaskRecord, interaction: Option<Interaction>): TaskRecord {
    task.(status := Failed, error := Some(QueuePublishFailed), interaction := interaction)
  }

  function InputSubmitted(task: TaskRecord, productId: string): TaskRecord {
    task.(productId := Some(productId), status := Queued, interaction := None,
          pendingAttempt := Some(0), pendingKind := Some(InputKind), pendingId := Some(productId))
  }

  function ApprovalSubmitted(task: TaskRecord, approvalId: string): TaskRecord {
    task.(status := Queued, interaction := None, error := None,
          pendingAttempt := Some(0), pendingKind := Some(ApprovalKind), pendingId := Some(approvalId))
  }

  /** The status `submit_approval` hands to the compare-and-set. */
  function ExpectedStatus(task: TaskRecord): TaskStatus {
    if task.error == Some(QueuePublishFailed) then Failed else AwaitingApproval
  }

  predicate AcceptsApproval(task: TaskRecord) {
    task.status.AwaitingApproval? || PublishRecovery(task)
  }

  predicate Resumable(task: TaskRecord, leaseHeld: bool) {
    && !(task.error.Some? && (task.error.value.AgentLoopDetected? || task.error.value.ModelRequestRejected?
         || task.error.value.ModelEmptyResponse? || task.error.value.ModelInvalidToolArguments?))
    && (task.status.Failed? || (task.status.Running? && !leaseHeld))
  }

  /** The kind and id `resume_task` works out: the pending fields, or else what the interaction encodes. */
  function ResumePoint(task: TaskRecord): (Option<ResumeKind>, Option<string>) {
    if task.pendingKind.Some? then (task.pendingKind, task.pendingId)
    else if task.error == Some(QueuePublishFailed) then
      match task.interaction
      case Some(InputResume(id)) => (Some(InputKind), Some(id))
      case Some(ApprovalResume(id)) => (Some(ApprovalKind), Some(id))
      case Some(RetryResume(id)) => (Some(RetryKind), Some(id))
      case _ => (None, None)
    else (Some(RetryKind), Some(task.taskId))
  }

  function ResumeMessage(task: TaskRecord): QueueMessage {
    var (kind, id) := ResumePoint(task);
    var attempt := if task.error == Some(QueuePublishFailed) && task.pendingAttempt.Some?
                   then task.pendingAttempt.value else 0;
    QueueMessage(task.taskId, attempt, kind, id)
  }

  function Resumed(task: TaskRecord): TaskRecord {
    var m := ResumeMessage(task);
    task.(status := Queued, result := None, error := None, interaction := None,
          pendingAttempt := Some(m.attempt), pendingKind := m.kind, pendingId := m.id)
  }

  /** What `resume_task` saves when its own publish raises. */
  function ResumeFailed(task: TaskRecord): TaskRecord {
    var encoded := ResumeInteraction(ResumeMessage(task));
    PublishFailed(Resumed(task), if encoded.Some? then encoded else task.interaction)
  }

  // ----- What a record stands for -----

  /** The message a record is waiting for. */
  function PendingMessage(task: TaskRecord): QueueMessage
    requires task.pendingAttempt.Some?
  {
    QueueMessage(task.taskId, task.pendingAttempt.value, task.pendingKind, task.pendingId)
  }

  /** A record from which a resume gives back exactly the message that was lost. */
  predicate Recovers(task: TaskRecord, m: QueueMessage) {
    PublishRecovery(task) && task.pendingAttempt.Some? && PendingMessage(task) == m && ResumeMessage(task) == m
  }

  predicate Encodes(i: Option<Interaction>) {
    i.Some? && (i.value.InputResume? || i.value.ApprovalResume? || i.value.RetryResume?)
  }

  /** The interaction alone is a full encoding of kind and id: with the pending kind erased, decoding gives
    * the message back (an id is never the empty string). */
  lemma InteractionRoundTrip(task: TaskRecord, m: QueueMessage)
    requires task.pendingKind.None? && task.error == Some(QueuePublishFailed)
    requires task.interaction == ResumeInteraction(m)
    requires (m.kind.Some? <==> m.id.Some?) && m.id != Some("")
    ensures ResumePoint(task) == (m.kind, m.id)
  {
  }

  /** One more resume whose publish raises loses nothing: the same message can still be recovered. */
  lemma FailedResumeRecovers(task: TaskRecord, m: QueueMessage)
    requires Recovers(task, m)
    ensures Recovers(ResumeFailed(task), m)
    ensures ResumeMessage(ResumeFailed(task)) == ResumeMessage(task)
  {
  }

  function FailedResumes(task: TaskRecord, times: nat): TaskRecord {
    if times == 0 then task else ResumeFailed(FailedResumes(task, times - 1))
  }

  /** However many resumes in a row fail to publish, the next one publishes the attempt, kind and id of the
    * message that was lost first. */
  lemma {:induction false} LosslessResume(task: TaskRecord, m: QueueMessage, times: nat)
    requires Recovers(task, m)
    ensures Recovers(FailedResumes(task, times), m)
    ensures ResumeMessage(FailedResumes(task, times)) == m
  {
    if times > 0 {
      LosslessResume(task, m, times - 1);
      FailedResumeRecovers(FailedResumes(task, times - 1), m);
    }
  }
}
