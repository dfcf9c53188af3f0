/** What every record, message and handler satisfies in every reachable state of the protocol. */
module ProtocolInvariant {
  import opened Wrappers
  import opened Tables
  import opened Commerce
  import opened TaskRecords
  import opened RecordRules
  import opened Protocol
  import LedgerRuns

  /** Approval `id` is recorded for this very task. */
  ghost predicate ApprovalKnown(l: Ledger, taskId: string, id: string) {
    exists a | a in l.approvals :: a.approvalId == id && a.taskId == taskId
  }

  /** Attempt `n` of kind `kind` may stand in a message or record of the task. */
  ghost predicate PointOk(l: Ledger, taskId: string, kind: Option<ResumeKind>, id: Option<string>) {
    && (kind.Some? <==> id.Some?)
    && (kind == Some(ApprovalKind) ==> ApprovalKnown(l, taskId, id.value))
  }

  ghost predicate MessageOk(l: Ledger, maxAttempts: int, m: QueueMessage) {
    0 <= m.attempt < maxAttempts && PointOk(l, m.taskId, m.kind, m.id)
  }

  /** The task waits for a person or has ended. */
  predicate AtRest(s: TaskStatus) {
    s.AwaitingInput? || s.AwaitingApproval? || s.Completed? || s.Rejected?
  }

  /** The record promises that a message is on its way. */
  predicate Runnable(task: TaskRecord) {
    task.status.Queued? || task.status.Retrying?
  }

  ghost predicate RecordOk(l: Ledger, maxAttempts: int, task: TaskRecord) {
    && (task.pendingAttempt.None? <==> AtRest(task.status))
    && (AtRest(task.status) ==> task.error.None?)
    && PointOk(l, task.taskId, task.pendingKind, task.pendingId)
    && (task.pendingAttempt.Some? ==>
          && 0 <= task.pendingAttempt.value <= maxAttempts
          && (task.pendingAttempt.value == maxAttempts ==>
                task.status.Failed? && task.error != Some(QueuePublishFailed)))
    && (task.error == Some(QueuePublishFailed) && task.pendingKind.None? ==> !Encodes(task.interaction))
  }

  /** The copy saved when a publish of `m` raises. */
  ghost predicate FailedCopyOk(l: Ledger, maxAttempts: int, failed: TaskRecord, m: QueueMessage) {
    && RecordOk(l, maxAttempts, failed) && MessageOk(l, maxAttempts, m) && Recovers(failed, m)
  }

  ghost predicate PhaseOk(l: Ledger, maxAttempts: int, p: Phase) {
    && (IsWorker(p) ==> MessageOk(l, maxAttempts, p.d.message))
    && match p
       case SubmittingInput(task, _) => RecordOk(l, maxAttempts, task) && task.status.AwaitingInput?
       case SubmittingApproval(task, _, _, _, _, _) => RecordOk(l, maxAttempts, task) && AcceptsApproval(task)
       case ApprovalRecorded(task, id) =>
         RecordOk(l, maxAttempts, task) && AcceptsApproval(task) && ApprovalKnown(l, task.taskId, id)
       case ResumeRead(task) => RecordOk(l, maxAttempts, task) && Resumable(task, false)
       case Resuming(task) => RecordOk(l, maxAttempts, task) && Resumable(task, false)
       case Publishing(failed, m) => FailedCopyOk(l, maxAttempts, failed, m)
       case Unpublished(failed, m) => FailedCopyOk(l, maxAttempts, failed, m)
       case Lost(m) => MessageOk(l, maxAttempts, m)
       case Matched(d, task) => RecordOk(l, maxAttempts, task) && Accepts(task, d.message) && task.taskId == d.message.taskId
       case Started(d, task) =>
         RecordOk(l, maxAttempts, task) && task.status.Running? && task.taskId == d.message.taskId
       case Finishing(d, task) => RecordOk(l, maxAttempts, task) && AtRest(task.status) && task.taskId == d.message.taskId
       case Failing(_, _, f) => SafeError(f) != QueuePublishFailed
       case FailureRead(d, task, retry) =>
         && RecordOk(l, maxAttempts, task) && task.taskId == d.message.taskId == retry.taskId
         && task.pendingAttempt.Some? && PendingMessage(task) == retry && retry.attempt == d.message.attempt + 1
         && KeepsAnswer(d.message, retry)
         && (task.status.Retrying? || (task.status.Failed? && task.error != Some(QueuePublishFailed)))
         && (task.status.Retrying? ==> MessageOk(l, maxAttempts, retry))
       case Retrying'(d, failed, retry) =>
         && FailedCopyOk(l, maxAttempts, failed, retry)
         && retry.attempt == d.message.attempt + 1 && KeepsAnswer(d.message, retry)
       case RetryUnpublished(d, failed, retry) =>
         && FailedCopyOk(l, maxAttempts, failed, retry)
         && retry.attempt == d.message.attempt + 1 && KeepsAnswer(d.message, retry)
       case _ => true
  }

  /** The ledger after a step's ledger action, if it has one. */
  function LedgerThen(l: Ledger, act: Option<LedgerRuns.Action>): Ledger {
    if act.Some? then LedgerRuns.LedgerAfter(l, act.value) else l
  }

  ghost predicate EffectOk(l: Ledger, maxAttempts: int, taskId: string, eff: Effect) {
    && PhaseOk(l, maxAttempts, eff.next)
    && (eff.next.Done? || TaskOf(eff.next) == Some(taskId))
    && (eff.write.Some? ==> RecordOk(l, maxAttempts, eff.write.value) && eff.write.value.taskId == taskId)
    && (forall m | m in eff.sends :: MessageOk(l, maxAttempts, m) && m.taskId == taskId)
  }

  // ----- Each rewrite of a record keeps it well-formed -----

  lemma FailedCopy(l: Ledger, maxAttempts: int, saved: TaskRecord, interaction: Option<Interaction>)
    requires RecordOk(l, maxAttempts, saved) && Runnable(saved)
    requires saved.pendingKind.None? ==> !Encodes(interaction)
    ensures FailedCopyOk(l, maxAttempts, PublishFailed(saved, interaction), PendingMessage(saved))
  {
  }

  lemma ResumedOk(l: Ledger, maxAttempts: int, task: TaskRecord)
    requires RecordOk(l, maxAttempts, task) && Resumable(task, false) && maxAttempts >= 1
    ensures RecordOk(l, maxAttempts, Resumed(task)) && Runnable(Resumed(task))
    ensures PendingMessage(Resumed(task)) == ResumeMessage(task)
    ensures FailedCopyOk(l, maxAttempts, ResumeFailed(task), ResumeMessage(task))
    ensures task.error == Some(QueuePublishFailed) ==> ResumeMessage(task) == PendingMessage(task)
  {
  }

  lemma AfterFailureOk(l: Ledger, maxAttempts: int, task: TaskRecord, m: QueueMessage, graphStarted: bool, f: Failure)
    requires RecordOk(l, maxAttempts, task) && MessageOk(l, maxAttempts, m) && task.taskId == m.taskId
    requires SafeError(f) != QueuePublishFailed
    ensures var task', retry := AfterFailure(task, m, graphStarted, f, maxAttempts), RetryMessage(m, graphStarted);
      && RecordOk(l, maxAttempts, task') && PendingMessage(task') == retry && retry.attempt == m.attempt + 1
      && KeepsAnswer(m, retry)
      && (task'.status.Retrying? ==> MessageOk(l, maxAttempts, retry))
  {
  }

  lemma RecordedApproval(l: Ledger, freshId: string, task: TaskRecord, planId: string, planVersion: int,
                         actionId: string, decision: ApprovalDecision)
    requires RecordApproval(l, freshId, task.taskId, task.merchantId, planId, planVersion, actionId, decision).1.Ok?
    ensures var (l', answer) := RecordApproval(l, freshId, task.taskId, task.merchantId, planId, planVersion, actionId, decision);
      ApprovalKnown(l', task.taskId, answer.value)
  {
  }

  // ----- The ledger only gains approvals -----

  ghost predicate Grown(l: Ledger, l': Ledger) {
    forall a | a in l.approvals :: a in l'.approvals
  }

  lemma KnownStable(l: Ledger, l': Ledger, taskId: string, id: string)
    requires Grown(l, l') && ApprovalKnown(l, taskId, id)
    ensures ApprovalKnown(l', taskId, id)
  {
  }

  lemma PointStable(l: Ledger, l': Ledger)
    requires Grown(l, l')
    ensures forall t, k, i | PointOk(l, t, k, i) :: PointOk(l', t, k, i)
  {
  }

  lemma RecordStable(l: Ledger, l': Ledger, maxAttempts: int, task: TaskRecord)
    requires Grown(l, l') && RecordOk(l, maxAttempts, task)
    ensures RecordOk(l', maxAttempts, task)
  {
  }

  lemma PhaseStable(l: Ledger, l': Ledger, maxAttempts: int, p: Phase)
    requires Grown(l, l') && PhaseOk(l, maxAttempts, p)
    ensures PhaseOk(l', maxAttempts, p)
  {
    PointStable(l, l');
    if p.ApprovalRecorded? {
      KnownStable(l, l', p.task.taskId, p.approvalId);
    }
  }
}
