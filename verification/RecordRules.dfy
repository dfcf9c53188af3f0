/** The rules by which the services rewrite a task record, said without the functions that carry them out: what
  * each rewrite sets, what it leaves alone, and when it is made at all. */
module RecordRules {
  import opened Wrappers
  import opened TaskRecords

  /** An answer of the merchant: the chosen product or the recorded approval. */
  predicate IsAnswer(m: QueueMessage) {
    m.kind == Some(InputKind) || m.kind == Some(ApprovalKind)
  }

  /** A message that carries the same answer, if there is one. */
  predicate KeepsAnswer(m: QueueMessage, retry: QueueMessage) {
    retry.taskId == m.taskId && (IsAnswer(m) || IsAnswer(retry) ==> retry.kind == m.kind && retry.id == m.id)
  }

  /** The errors after which a task cannot be resumed. */
  const FINAL_ERRORS := {AgentLoopDetected, ModelRequestRejected, ModelEmptyResponse, ModelInvalidToolArguments}

  // ----- Acceptance -----

  /** A worker goes on with a message for a task that is queued, running, retrying or failed at a publish, if it
    * is the one the record waits for; a record that names none takes any. */
  lemma AcceptsIff(task: TaskRecord, m: QueueMessage)
    ensures Accepts(task, m)
       <==> (task.status in {Queued, Running, Retrying} || (task.status == Failed && task.error == Some(QueuePublishFailed)))
            && (task.pendingAttempt.Some? ==>
                  m.attempt == task.pendingAttempt.value && m.kind == task.pendingKind && m.id == task.pendingId)
  {
  }

  /** A record marked as running, or as failed at its publish, still waits for the same message. */
  lemma MarkedIs(task: TaskRecord, m: QueueMessage, i: Option<Interaction>)
    ensures var running, failed := MarkRunning(task, m), PublishFailed(task, i);
      && running.status == Running && running.attempt == m.attempt && running.error == task.error
      && failed.status == Failed && failed.error == Some(QueuePublishFailed) && failed.interaction == i
      && forall after | after == running || after == failed ::
           SameTask(task, after) && after.productId == task.productId && after.result == task.result
           && after.pendingAttempt == task.pendingAttempt && after.pendingKind == task.pendingKind && after.pendingId == task.pendingId
  {
  }

  // ----- Failures -----

  /** A failed answer is retried, and stays pending, as that same answer; a run without one that has started goes
    * on from its checkpoint; one that has not is simply sent again. */
  lemma RetryKeepsAnswer(task: TaskRecord, m: QueueMessage, graphStarted: bool, f: Failure, maxAttempts: int)
    requires task.taskId == m.taskId
    ensures var after, retry := AfterFailure(task, m, graphStarted, f, maxAttempts), RetryMessage(m, graphStarted);
      && KeepsAnswer(m, retry) && after.pendingAttempt.Some? && PendingMessage(after) == retry && retry.attempt == m.attempt + 1
      && (IsAnswer(m) ==> after.pendingKind == m.kind && after.pendingId == m.id)
      && (!IsAnswer(m) && graphStarted ==> after.pendingKind == Some(RetryKind) && after.pendingId == Some(m.taskId))
      && (!graphStarted ==> after.pendingKind == m.kind && after.pendingId == m.id)
  {
  }

  /** The failure is one that another attempt may mend: a time-out, an unforeseen exception, or a dependency that
    * did not refuse the request itself. */
  predicate MayMend(f: Failure) {
    || f == TimeoutError || f == OtherError
    || (f.DependencyError? && f.dependencyCode !in {ModelRequestRejected, ModelEmptyResponse, ModelInvalidToolArguments})
  }

  /** A failed attempt is retried exactly if another may mend it and one is left; else the task has failed; the
    * code of the failure is stored, and nothing else of the record is touched. */
  lemma RetriedIff(task: TaskRecord, m: QueueMessage, graphStarted: bool, f: Failure, maxAttempts: int)
    ensures var after := AfterFailure(task, m, graphStarted, f, maxAttempts);
      && (after.status == Retrying <==> MayMend(f) && m.attempt + 1 < maxAttempts)
      && (after.status == Failed <==> !MayMend(f) || m.attempt + 1 >= maxAttempts)
      && (f == LoopError ==> after.error == Some(AgentLoopDetected))
      && (f == TimeoutError ==> after.error == Some(TaskTimeout))
      && (f == ValueError || f == OtherError ==> after.error == Some(TaskExecutionFailed))
      && (f.DependencyError? ==> after.error == Some(f.dependencyCode))
      && (f.AppError? ==> after.error == Some(f.appCode))
      && after.attempt == m.attempt && SameTask(task, after) && after.productId == task.productId
      && after.result == task.result && after.interaction == task.interaction
  {
  }

  predicate SameTask(task: TaskRecord, task': TaskRecord) {
    task'.taskId == task.taskId && task'.merchantId == task.merchantId
  }

  /** A task can be resumed exactly if it has failed, or shows as running without a lease, and shows no final error. */
  lemma ResumableIff(task: TaskRecord, leaseHeld: bool)
    ensures Resumable(task, leaseHeld)
       <==> (task.status == Failed || (task.status == Running && !leaseHeld))
            && (task.error.Some? ==> task.error.value !in FINAL_ERRORS)
  {
  }

  /** A loop, or a request the model refused or answered unusably, ends the task for good: it is not retried and
    * cannot be resumed. After every other failure it is retried or can be resumed. */
  lemma FinalFailures(task: TaskRecord, m: QueueMessage, graphStarted: bool, f: Failure, maxAttempts: int, leaseHeld: bool)
    requires (f.AppError? ==> f.appCode !in FINAL_ERRORS) && (f.DependencyError? ==> f.dependencyCode != AgentLoopDetected)
    ensures var after := AfterFailure(task, m, graphStarted, f, maxAttempts);
      if f == LoopError || (f.DependencyError? && f.dependencyCode in FINAL_ERRORS)
      then after.status == Failed && !Resumable(after, leaseHeld)
      else after.status == Retrying || Resumable(after, leaseHeld)
  {
  }

  // ----- Runs that return -----

  /** After a run that returned, the record shows its outcome, no error and nothing pending. */
  lemma FinishedIs(task: TaskRecord, m: QueueMessage, o: RunOutcome)
    ensures var after := Finished(MarkRunning(task, m), o);
      && (after.status == Completed <==> o.status == RunCompleted)
      && (after.status == Rejected <==> o.status == RunRejected)
      && (after.status == AwaitingInput <==> o.status == RunAwaitingInput)
      && (after.status == AwaitingApproval <==> o.status == RunAwaitingApproval)
      && after.result == o.result && after.interaction == o.interaction && after.error == None && after.attempt == m.attempt
      && after.pendingAttempt == None && after.pendingKind == None && after.pendingId == None
      && SameTask(task, after) && after.productId == task.productId
  {
  }

  // ----- The API -----

  lemma NewTaskIs(taskId: string, merchantId: string, productId: Option<string>)
    ensures var task := NewTask(taskId, merchantId, productId);
      && task.taskId == taskId && task.merchantId == merchantId && task.productId == productId
      && task.status == Queued && task.pendingAttempt == Some(0) && PendingMessage(task) == QueueMessage(taskId, 0, None, None)
      && task.result == None && task.interaction == None && task.error == None
  {
  }

  /** An input puts its product into the record and makes it wait for the message that carries it. */
  lemma InputSubmittedIs(task: TaskRecord, productId: string)
    ensures var after := InputSubmitted(task, productId);
      && after.productId == Some(productId) && after.status == Queued && after.interaction == None
      && after.pendingAttempt == Some(0)
      && PendingMessage(after) == QueueMessage(task.taskId, 0, Some(InputKind), Some(productId))
      && SameTask(task, after) && after.error == task.error && after.result == task.result
  {
  }

  /** A decision makes the record wait for the message that carries its id, and takes the error away. */
  lemma ApprovalSubmittedIs(task: TaskRecord, approvalId: string)
    ensures var after := ApprovalSubmitted(task, approvalId);
      && after.status == Queued && after.interaction == None && after.error == None && after.pendingAttempt == Some(0)
      && PendingMessage(after) == QueueMessage(task.taskId, 0, Some(ApprovalKind), Some(approvalId))
      && SameTask(task, after) && after.productId == task.productId && after.result == task.result
  {
  }

  lemma AcceptsApprovalIff(task: TaskRecord)
    ensures AcceptsApproval(task)
       <==> task.status == AwaitingApproval || (task.status == Failed && task.error == Some(QueuePublishFailed))
  {
  }

  /** A resume keeps the attempt of a failed publish and otherwise starts from 0; it keeps what is pending, and
    * without that goes on from the checkpoint, unless the first message of all was never published. */
  lemma ResumedIs(task: TaskRecord)
    ensures var after, m := Resumed(task), ResumeMessage(task);
      && after.status == Queued && after.error == None && after.result == None && after.interaction == None
      && after.pendingAttempt.Some? && PendingMessage(after) == m && SameTask(task, after) && after.productId == task.productId
      && m.attempt == (if task.error == Some(QueuePublishFailed) && task.pendingAttempt.Some? then task.pendingAttempt.value else 0)
      && (task.pendingKind.Some? ==> m.kind == task.pendingKind && m.id == task.pendingId)
      && (task.pendingKind.None? && task.error != Some(QueuePublishFailed) ==> m.kind == Some(RetryKind) && m.id == Some(task.taskId))
      && (task.pendingKind.None? && task.error == Some(QueuePublishFailed) && !Encodes(task.interaction) ==> m.kind == None && m.id == None)
  {
  }

  /** A resume that could not publish leaves the task failed, still waiting for its message and showing it; a
    * message that shows nothing leaves the interaction as it was. */
  lemma ResumeFailedIs(task: TaskRecord)
    ensures var after, m := ResumeFailed(task), ResumeMessage(task);
      && after.status == Failed && after.error == Some(QueuePublishFailed) && after.result == None
      && after.pendingAttempt.Some? && PendingMessage(after) == m && SameTask(task, after) && after.productId == task.productId
      && after.interaction ==
           if m.kind.None? || m.id.None? || m.id.value == "" then task.interaction
           else if m.kind.value == InputKind then Some(InputResume(m.id.value))
           else if m.kind.value == ApprovalKind then Some(ApprovalResume(m.id.value))
           else Some(RetryResume(m.id.value))
  {
  }
}
