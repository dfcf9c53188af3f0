/** One step of one handler: it keeps everything well-formed, and it never lets go of a message that a
  * record is still waiting for. */
module ProtocolSteps {
  import opened Wrappers
  import opened Tables
  import opened Commerce
  import opened TaskRecords
  import opened Protocol
  import opened ProtocolInvariant
  import LedgerRuns

  // ----- Well-formedness -----

  lemma CompareAndSetOk(e: Event, stored: TaskRecord, expected: TaskStatus, saved: TaskRecord,
                        interaction: Interaction, l: Ledger, maxAttempts: int)
    requires RecordOk(l, maxAttempts, saved) && saved.status.Queued? && saved.pendingKind.Some?
    requires CompareAndSet(e, stored, expected, saved, PublishFailed(saved, Some(interaction)), PendingMessage(saved)).Some?
    ensures EffectOk(l, maxAttempts, saved.taskId,
      CompareAndSet(e, stored, expected, saved, PublishFailed(saved, Some(interaction)), PendingMessage(saved)).value)
  {
    FailedCopy(l, maxAttempts, saved, Some(interaction));
  }

  lemma RecordStepOk(p: Phase, e: Event, stored: TaskRecord, l: Ledger, maxAttempts: int, eff: Effect)
    requires p.SubmittingApproval? && PhaseOk(l, maxAttempts, p)
    requires ApiMove(p, e, stored, l) == Some(eff)
    ensures EffectOk(LedgerThen(l, eff.act), maxAttempts, p.task.taskId, eff)
  {
    if eff.next.ApprovalRecorded? {
      RecordedApproval(l, p.freshId, p.task, p.planId, p.planVersion, p.actionId, p.decision);
      RecordGrows(l, eff.act.value);
      RecordStable(l, LedgerThen(l, eff.act), maxAttempts, p.task);
    }
  }

  lemma ApiOk(p: Phase, e: Event, stored: TaskRecord, l: Ledger, maxAttempts: int, eff: Effect)
    requires maxAttempts >= 1 && IsApi(p) && !p.SubmittingApproval? && PhaseOk(l, maxAttempts, p)
    requires ApiMove(p, e, stored, l) == Some(eff)
    ensures eff.act.None? && EffectOk(l, maxAttempts, TaskOf(p).value, eff)
  {
    if p.SubmittingInput? {
      CompareAndSetOk(e, stored, AwaitingInput, InputSubmitted(p.task, p.productId), InputResume(p.productId), l, maxAttempts);
    } else if p.ApprovalRecorded? {
      CompareAndSetOk(e, stored, ExpectedStatus(p.task), ApprovalSubmitted(p.task, p.approvalId),
                      ApprovalResume(p.approvalId), l, maxAttempts);
    } else if p.Publishing? || p.Unpublished? {
      PublishOk(p, e, stored, l, maxAttempts, eff);
    } else {
      ResumePublishOk(p, e, stored, l, maxAttempts, eff);
    }
  }

  lemma ResumePublishOk(p: Phase, e: Event, stored: TaskRecord, l: Ledger, maxAttempts: int, eff: Effect)
    requires (p.ResumeRead? || p.Resuming?) && PhaseOk(l, maxAttempts, p)
    requires maxAttempts >= 1 && ApiMove(p, e, stored, l) == Some(eff)
    ensures eff.act.None? && EffectOk(l, maxAttempts, TaskOf(p).value, eff)
  {
    if p.Resuming? {
      ResumedOk(l, maxAttempts, p.task);
    }
  }

  lemma PublishOk(p: Phase, e: Event, stored: TaskRecord, l: Ledger, maxAttempts: int, eff: Effect)
    requires (p.Publishing? || p.Unpublished?) && PhaseOk(l, maxAttempts, p) && ApiMove(p, e, stored, l) == Some(eff)
    ensures eff.act.None? && EffectOk(l, maxAttempts, TaskOf(p).value, eff)
  {
  }

  lemma RecordGrows(l: Ledger, act: LedgerRuns.Action)
    requires act.Record?
    ensures Grown(l, LedgerRuns.LedgerAfter(l, act))
  {
  }

  lemma CrashOk(p: Phase, stored: TaskRecord, l: Ledger, maxAttempts: int, eff: Effect)
    requires IsWorker(p) && PhaseOk(l, maxAttempts, p) && WorkerMove(p, Crash, stored, maxAttempts) == Some(eff)
    ensures EffectOk(l, maxAttempts, p.d.message.taskId, eff) && eff.act.None?
  {
  }

  lemma RedeliverOk(p: Phase, stored: TaskRecord, l: Ledger, maxAttempts: int, eff: Effect)
    requires IsWorker(p) && PhaseOk(l, maxAttempts, p) && WorkerMove(p, Redeliver, stored, maxAttempts) == Some(eff)
    ensures EffectOk(l, maxAttempts, p.d.message.taskId, eff) && eff.act.None?
  {
  }

  lemma FailingOk(p: Phase, e: Event, stored: TaskRecord, l: Ledger, maxAttempts: int, eff: Effect)
    requires p.Failing? && PhaseOk(l, maxAttempts, p) && !e.Redeliver? && !e.Crash?
    requires RecordOk(l, maxAttempts, stored) && stored.taskId == p.d.message.taskId
    requires WorkerMove(p, e, stored, maxAttempts) == Some(eff)
    ensures EffectOk(l, maxAttempts, p.d.message.taskId, eff) && eff.act.None?
  {
    AfterFailureOk(l, maxAttempts, stored, p.d.message, p.graphStarted, p.failure);
  }

  lemma FailureReadOk(p: Phase, e: Event, stored: TaskRecord, l: Ledger, maxAttempts: int, eff: Effect)
    requires p.FailureRead? && PhaseOk(l, maxAttempts, p) && !e.Redeliver? && !e.Crash?
    requires WorkerMove(p, e, stored, maxAttempts) == Some(eff)
    ensures EffectOk(l, maxAttempts, p.d.message.taskId, eff) && eff.act.None?
  {
    if p.task.status.Retrying? {
      FailedCopy(l, maxAttempts, p.task, ResumeInteraction(p.retry));
    }
  }

  lemma RetryOk(p: Phase, e: Event, stored: TaskRecord, l: Ledger, maxAttempts: int, eff: Effect)
    requires p.Retrying'? && PhaseOk(l, maxAttempts, p)
    requires !e.Redeliver? && !e.Crash? && WorkerMove(p, e, stored, maxAttempts) == Some(eff)
    ensures EffectOk(l, maxAttempts, p.d.message.taskId, eff) && eff.act.None?
  {
  }

  lemma SettleOk(p: Phase, e: Event, stored: TaskRecord, l: Ledger, maxAttempts: int, eff: Effect)
    requires (p.RetryUnpublished? || p.Settling?) && PhaseOk(l, maxAttempts, p)
    requires !e.Redeliver? && !e.Crash?
    requires WorkerMove(p, e, stored, maxAttempts) == Some(eff)
    ensures EffectOk(l, maxAttempts, p.d.message.taskId, eff) && eff.act.None?
  {
  }

  lemma ContendedOk(p: Phase, e: Event, stored: TaskRecord, l: Ledger, maxAttempts: int, eff: Effect)
    requires (p.Delayed? || p.Contended? || p.Delivered?) && PhaseOk(l, maxAttempts, p)
    requires !e.Redeliver? && !e.Crash?
    requires WorkerMove(p, e, stored, maxAttempts) == Some(eff)
    ensures EffectOk(l, maxAttempts, p.d.message.taskId, eff) && eff.act.None?
  {
  }

  lemma AcceptOk(p: Phase, e: Event, stored: TaskRecord, l: Ledger, maxAttempts: int, eff: Effect)
    requires (p.Leased? || p.Dropping? || p.Saved?) && PhaseOk(l, maxAttempts, p)
    requires !e.Redeliver? && !e.Crash?
    requires RecordOk(l, maxAttempts, stored) && stored.taskId == p.d.message.taskId
    requires (e.Raise? || e.RaiseAfter? || e.RunRaise?) ==> SafeError(e.failure) != QueuePublishFailed
    requires WorkerMove(p, e, stored, maxAttempts) == Some(eff)
    ensures EffectOk(l, maxAttempts, p.d.message.taskId, eff) && eff.act.None?
  {
  }

  lemma RunPathOk(p: Phase, e: Event, stored: TaskRecord, l: Ledger, maxAttempts: int, eff: Effect)
    requires (p.Matched? || p.Started? || p.Finishing?) && PhaseOk(l, maxAttempts, p)
    requires !e.Redeliver? && !e.Crash?
    requires RecordOk(l, maxAttempts, stored) && stored.taskId == p.d.message.taskId
    requires (e.Raise? || e.RaiseAfter? || e.RunRaise?) ==> SafeError(e.failure) != QueuePublishFailed
    requires WorkerMove(p, e, stored, maxAttempts) == Some(eff)
    ensures EffectOk(l, maxAttempts, p.d.message.taskId, eff) && eff.act.None?
  {
  }

  // ----- No message is let go of while it is waited for -----

  /** The handler will still publish `m`, hand it back, or overwrite the record that waits for it. */
  predicate Carries(p: Phase, m: QueueMessage) {
    if p.Publishing? || p.Unpublished? then p.message == m
    else if p.Retrying'? || p.RetryUnpublished? then p.retry == m
    else if p.Delivered? || p.Contended? || p.Leased? || p.Matched? || p.Failing? || p.FailureRead? then
      p.d.open && p.d.message == m
    else false
  }

  /** A step that leaves record and queue without a handler for `m`. */
  predicate Passes(eff: Effect, m: QueueMessage) {
    Carries(eff.next, m) || m in eff.sends || eff.next == Lost(m)
  }

  lemma ApiWriterCarries(p: Phase, e: Event, stored: TaskRecord, l: Ledger, maxAttempts: int, eff: Effect)
    requires maxAttempts >= 1 && IsApi(p) && PhaseOk(l, maxAttempts, p)
    requires ApiMove(p, e, stored, l) == Some(eff) && eff.write.Some? && Runnable(eff.write.value)
    ensures eff.write.value.pendingAttempt.Some?
    ensures Passes(eff, PendingMessage(eff.write.value))
  {
    if p.Resuming? {
      ResumedOk(l, maxAttempts, p.task);
    }
  }

  lemma WorkerWriterCarries(p: Phase, e: Event, stored: TaskRecord, l: Ledger, maxAttempts: int, eff: Effect)
    requires IsWorker(p) && PhaseOk(l, maxAttempts, p)
    requires WorkerMove(p, e, stored, maxAttempts) == Some(eff) && eff.write.Some? && Runnable(eff.write.value)
    ensures eff.write.value.pendingAttempt.Some?
    ensures Passes(eff, PendingMessage(eff.write.value))
  {
  }

  /** Whoever writes a record that waits for a message is the one about to publish it. */
  lemma WriterCarries(p: Phase, e: Event, stored: TaskRecord, l: Ledger, maxAttempts: int, eff: Effect)
    requires maxAttempts >= 1 && (IsApi(p) || IsWorker(p)) && PhaseOk(l, maxAttempts, p)
    requires Move(p, e, stored, l, maxAttempts) == Some(eff) && eff.write.Some? && Runnable(eff.write.value)
    ensures eff.write.value.pendingAttempt.Some?
    ensures Passes(eff, PendingMessage(eff.write.value))
  {
    if IsApi(p) {
      ApiWriterCarries(p, e, stored, l, maxAttempts, eff);
    } else {
      WorkerWriterCarries(p, e, stored, l, maxAttempts, eff);
    }
  }

  /** A step that writes no record keeps carrying what it carried, unless it has just read that the record
    * waits for something else. */
  lemma ApiPasses(p: Phase, e: Event, stored: TaskRecord, l: Ledger, eff: Effect, m: QueueMessage)
    requires IsApi(p) && ApiMove(p, e, stored, l) == Some(eff) && eff.write.None? && Carries(p, m)
    ensures Passes(eff, m)
  {
  }

  lemma WorkerPasses(p: Phase, e: Event, stored: TaskRecord, maxAttempts: int, eff: Effect, m: QueueMessage)
    requires IsWorker(p) && WorkerMove(p, e, stored, maxAttempts) == Some(eff) && eff.write.None?
    requires Carries(p, m) && Runnable(stored) && stored.pendingAttempt.Some? && PendingMessage(stored) == m
    ensures Passes(eff, m)
  {
  }

  // ----- What becomes of a delivery and of an exception -----

  /** The broker still waits for this worker's answer to `m`. */
  predicate Holds(p: Phase, m: QueueMessage) {
    IsWorker(p) && p.d.open && p.d.message == m
  }

  /** The worker tells the broker that it is done with its delivery, and the broker hears it. */
  predicate Settles(p: Phase, e: Event) {
    (p.Delayed? || p.Dropping? || p.Saved? || p.Settling?) && (e.Proceed? || e.RaiseAfter?)
  }

  /** A delivery ends exactly when its worker settles it: until then the worker holds it, or it is back in the
    * queue, and one that was settled or has gone back does not come again. */
  lemma DeliverySettled(p: Phase, e: Event, stored: TaskRecord, maxAttempts: int, eff: Effect)
    requires IsWorker(p) && WorkerMove(p, e, stored, maxAttempts) == Some(eff)
    ensures p.d.open ==>
      if Settles(p, e) then !Holds(eff.next, p.d.message) && eff.sends == multiset{}
      else Holds(eff.next, p.d.message) || p.d.message in eff.sends
    ensures !p.d.open ==>
      && !Holds(eff.next, p.d.message)
      && (eff.sends != multiset{} ==> (p.Contended? || p.Retrying'?) && (e.Proceed? || e.RaiseAfter?))
  {
  }

  /** Between lease and last acknowledgement an exception is handled as a failure of the task, of one whose graph
    * has started exactly from the start of the graph on; before and after it leaves the delivery to the broker. */
  lemma ExceptionsHandled(p: Phase, e: Event, stored: TaskRecord, maxAttempts: int, eff: Effect)
    requires IsWorker(p) && WorkerMove(p, e, stored, maxAttempts) == Some(eff) && (e.Raise? || e.RaiseAfter? || e.RunRaise?)
    ensures p.Leased? || p.Dropping? || p.Matched? || p.Started? || p.Finishing? || p.Saved? ==>
      && eff.next.Failing? && eff.next.failure == e.failure && eff.next.d.message == p.d.message
      && (eff.next.graphStarted <==> p.Finishing? || p.Saved? || e.RunRaise?)
    ensures e.Raise? && (p.Delivered? || p.Contended? || p.Delayed? || p.Failing? || p.FailureRead? || p.Settling?) ==>
      eff.next.Done? && eff.write.None? && eff.sends == if p.d.open then multiset{p.d.message} else multiset{}
    ensures p.Retrying'? ==> eff.next == RetryUnpublished(p.d, p.failed, p.retry)
  {
  }
}
