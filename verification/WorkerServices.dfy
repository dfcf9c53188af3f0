/** `WorkerService`: one delivery handled from its first to its last statement with no other handler in
  * between. How the graph's run ends is decided outside. */
module WorkerServices {
  import opened Wrappers
  import opened TaskRecords
  import opened RecordRules
  import opened RedisStores
  import opened TaskServices

  /** What the broker is told about the delivery. */
  datatype Verdict = Acked | Requeued | DeadLettered

  datatype RunEnd = Returned(outcome: RunOutcome) | Raised(failure: Failure)

  /** The record after the message was accepted and the run ended as `end`; `fate` is that of the retry's publish. */
  function Handled(task: TaskRecord, m: QueueMessage, end: RunEnd, fate: Fate, maxAttempts: int): TaskRecord {
    match end
    case Returned(outcome) => Finished(MarkRunning(task, m), outcome)
    case Raised(f) =>
      var failed := AfterFailure(task, m, true, f, maxAttempts);
      if failed.status.Retrying? && !fate.Sent?
      then PublishFailed(failed, ResumeInteraction(RetryMessage(m, true))) else failed
  }

  /** What is sent while the message is handled: the retry of a run that is worth it, unless its publish raises
    * before the broker has it. */
  function HandledSends(task: TaskRecord, m: QueueMessage, end: RunEnd, fate: Fate, maxAttempts: int): multiset<QueueMessage> {
    if end.Raised? && AfterFailure(task, m, true, end.failure, maxAttempts).status.Retrying? && !fate.NotSent?
    then multiset{RetryMessage(m, true)} else multiset{}
  }

  /** A handled task is at rest, or waits for a message one attempt further, or has failed; it fails at its
    * publish only in such a way that a resume sends the very message that was lost. */
  lemma HandledSettles(task: TaskRecord, m: QueueMessage, end: RunEnd, fate: Fate, maxAttempts: int)
    requires end.Raised? ==> SafeError(end.failure) != QueuePublishFailed
    ensures var after := Handled(task, m, end, fate, maxAttempts);
      && (end.Returned? <==> after.pendingAttempt.None?)
      && (after.pendingAttempt.None? ==>
            (after.status.AwaitingInput? || after.status.AwaitingApproval? || after.status.Rejected? || after.status.Completed?)
            && after.error.None?)
      && (after.status.Retrying? ==> fate.Sent? && after.pendingAttempt == Some(m.attempt + 1) && m.attempt + 1 < maxAttempts)
      && (PublishRecovery(after) <==> end.Raised? && IsRetryable(end.failure) && m.attempt + 1 < maxAttempts && !fate.Sent?)
      && (PublishRecovery(after) && after.taskId == m.taskId ==> Recovers(after, RetryMessage(m, true)))
  {
  }

  /** A handled task shows the outcome its run returned, or else waits for the retry of the same answer; that
    * retry is sent exactly if the failure may be mended, an attempt is left, and the publish reaches the broker. */
  lemma HandledIs(task: TaskRecord, m: QueueMessage, end: RunEnd, fate: Fate, maxAttempts: int)
    requires task.taskId == m.taskId
    ensures var after := Handled(task, m, end, fate, maxAttempts);
      && SameTask(task, after) && after.productId == task.productId && after.attempt == m.attempt
      && (end.Returned? ==>
            && after.result == end.outcome.result && after.interaction == end.outcome.interaction
            && (after.status == Completed <==> end.outcome.status == RunCompleted)
            && (after.status == Rejected <==> end.outcome.status == RunRejected)
            && (after.status == AwaitingApproval <==> end.outcome.status == RunAwaitingApproval))
      && (end.Raised? ==>
            && after.pendingAttempt == Some(m.attempt + 1) && KeepsAnswer(m, PendingMessage(after))
            && after.status == if MayMend(end.failure) && m.attempt + 1 < maxAttempts && fate.Sent? then Retrying else Failed)
      && HandledSends(task, m, end, fate, maxAttempts)
         == if end.Raised? && MayMend(end.failure) && m.attempt + 1 < maxAttempts && !fate.NotSent?
            then multiset{PendingMessage(after)} else multiset{}
  {
  }

  class WorkerService {
    const store: RedisStore
    const queue: TaskQueue
    const maxTaskAttempts: int

    constructor (store: RedisStore, queue: TaskQueue, maxTaskAttempts: int)
      ensures this.store == store && this.queue == queue && this.maxTaskAttempts == maxTaskAttempts
    {
      this.store, this.queue, this.maxTaskAttempts := store, queue, maxTaskAttempts;
    }

    /** `None` is a message that cannot be decoded. The lease is left as it was found; no other task is touched;
      * a message that finds the lease taken stays in the queue or with the broker, even when its delayed copy's
      * publish raises; a message its record does not wait for changes nothing; and one it does wait for leaves
      * the record as `Handled` says, with the retry in the queue whenever the record promises it. */
    method HandleMessage(payload: Option<QueueMessage>, owner: string, end: RunEnd, fate: Fate) returns (verdict: Verdict)
      requires forall t | t in store.tasks :: store.tasks[t].taskId == t
      modifies store`tasks, store`leases, queue
      ensures store.leases == old(store.leases)
      ensures payload.None? ==>
        verdict == DeadLettered && store.tasks == old(store.tasks) && queue.messages == old(queue.messages)
      ensures payload.Some? && payload.value.taskId in old(store.leases) ==>
        && store.tasks == old(store.tasks)
        && queue.messages == (if fate.NotSent? then old(queue.messages) else old(queue.messages) + multiset{payload.value})
        && verdict == (if fate.Sent? then Acked else Requeued)
        && (verdict == Requeued || payload.value in queue.messages)
      ensures payload.Some? && payload.value.taskId !in old(store.leases) ==>
        var m := payload.value;
        if m.taskId !in old(store.tasks) then
          verdict == DeadLettered && store.tasks == old(store.tasks) && queue.messages == old(queue.messages)
        else if !Accepts(old(store.tasks)[m.taskId], m) then
          verdict == Acked && store.tasks == old(store.tasks) && queue.messages == old(queue.messages)
        else
          var after := Handled(old(store.tasks)[m.taskId], m, end, fate, maxTaskAttempts);
          && store.tasks == old(store.tasks)[m.taskId := after]
          && queue.messages == old(queue.messages)
                               + HandledSends(old(store.tasks)[m.taskId], m, end, fate, maxTaskAttempts)
          && (after.status.Retrying? ==> PendingMessage(after) in queue.messages)
          && (verdict == Acked <==> end.Returned? || after.status.Retrying?) && verdict != Requeued
    {
      if payload.None? {
        return DeadLettered;
      }
      var m := payload.value;
      var acquired := store.AcquireTaskLease(m.taskId, owner);
      if !acquired {
        var raised := queue.Publish(m, fate);
        return if raised then Requeued else Acked;
      }
      verdict := HandleLeased(m, end, fate);
      store.ReleaseTaskLease(m.taskId, owner);
    }

    method HandleLeased(m: QueueMessage, end: RunEnd, fate: Fate) returns (verdict: Verdict)
      requires forall t | t in store.tasks :: store.tasks[t].taskId == t
      modifies store`tasks, queue
      ensures if m.taskId !in old(store.tasks) then
          verdict == DeadLettered && store.tasks == old(store.tasks) && queue.messages == old(queue.messages)
        else if !Accepts(old(store.tasks)[m.taskId], m) then
          verdict == Acked && store.tasks == old(store.tasks) && queue.messages == old(queue.messages)
        else
          var after := Handled(old(store.tasks)[m.taskId], m, end, fate, maxTaskAttempts);
          && store.tasks == old(store.tasks)[m.taskId := after]
          && queue.messages == old(queue.messages)
                               + HandledSends(old(store.tasks)[m.taskId], m, end, fate, maxTaskAttempts)
          && (after.status.Retrying? ==> PendingMessage(after) in queue.messages)
          && (verdict == Acked <==> end.Returned? || after.status.Retrying?) && verdict != Requeued
    {
      var found := store.GetTask(m.taskId);
      if found.None? {
        return DeadLettered;
      }
      var task := found.value;
      if task.status.Completed? || task.status.Rejected? {
        return Acked;
      }
      var recovery := task.status.Failed? && task.error == Some(QueuePublishFailed);
      if !task.status.Queued? && !task.status.Running? && !task.status.Retrying? && !recovery {
        return Acked;
      }
      if !MatchesPending(task, m) {
        return Acked;
      }
      task := task.(status := Running, attempt := m.attempt);
      assert task == MarkRunning(found.value, m);
      store.SaveTask(task);
      if end.Raised? {
        assert AfterFailure(task, m, true, end.failure, maxTaskAttempts)
            == AfterFailure(found.value, m, true, end.failure, maxTaskAttempts);
        verdict := HandleFailure(m, end.failure, true, fate);
        return;
      }
      SaveOutcome(task, end.outcome);
      return Acked;
    }

    /** The end of a run that returned: results, no error, nothing pending, and the status of the outcome. */
    method SaveOutcome(running: TaskRecord, outcome: RunOutcome)
      modifies store`tasks
      ensures store.tasks == old(store.tasks)[running.taskId := Finished(running, outcome)]
    {
      var task := running.(result := outcome.result, interaction := outcome.interaction, error := None,
                           pendingAttempt := None, pendingKind := None, pendingId := None);
      match outcome.status {
        case RunAwaitingInput => task := task.(status := AwaitingInput);
        case RunAwaitingApproval => task := task.(status := AwaitingApproval);
        case RunRejected => task := task.(status := Rejected);
        case RunCompleted => task := task.(status := Completed);
      }
      store.SaveTask(task);
    }

    /** The failed attempt is replaced by the next one while attempts are left and the failure is worth retrying;
      * if that cannot be published, the record keeps what a resume needs to send it. */
    method HandleFailure(m: QueueMessage, failure: Failure, graphStarted: bool, fate: Fate) returns (verdict: Verdict)
      requires forall t | t in store.tasks :: store.tasks[t].taskId == t
      modifies store`tasks, queue
      ensures if m.taskId !in old(store.tasks) then
          verdict == DeadLettered && store.tasks == old(store.tasks) && queue.messages == old(queue.messages)
        else
          var retry := RetryMessage(m, graphStarted);
          var failed := AfterFailure(old(store.tasks)[m.taskId], m, graphStarted, failure, maxTaskAttempts);
          && store.tasks == old(store.tasks)[m.taskId :=
               if failed.status.Retrying? && !fate.Sent? then PublishFailed(failed, ResumeInteraction(retry)) else failed]
          && queue.messages == (if failed.status.Retrying? && !fate.NotSent?
                                then old(queue.messages) + multiset{retry} else old(queue.messages))
          && verdict == (if failed.status.Retrying? && fate.Sent? then Acked else DeadLettered)
    {
      var found := store.GetTask(m.taskId);
      if found.None? {
        return DeadLettered;
      }
      var task := found.value;
      var nextAttempt := m.attempt + 1;
      task := task.(error := Some(SafeError(failure)), attempt := m.attempt);
      var retryKind, retryId := m.kind, m.id;
      if graphStarted && m.kind != Some(InputKind) && m.kind != Some(ApprovalKind) {
        retryKind, retryId := Some(RetryKind), Some(m.taskId);
      }
      task := task.(pendingAttempt := Some(nextAttempt), pendingKind := retryKind, pendingId := retryId);
      assert QueueMessage(m.taskId, nextAttempt, retryKind, retryId) == RetryMessage(m, graphStarted);
      if IsRetryable(failure) && nextAttempt < maxTaskAttempts {
        task := task.(status := Retrying);
        store.SaveTask(task);
        var retry := QueueMessage(m.taskId, nextAttempt, retryKind, retryId);
        var raised := queue.Publish(retry, fate);
        if raised {
          task := task.(status := Failed, error := Some(QueuePublishFailed), interaction := ResumeInteraction(retry));
          store.SaveTask(task);
          return DeadLettered;
        }
        return Acked;
      }
      task := task.(status := Failed);
      store.SaveTask(task);
      return DeadLettered;
    }
  }
}
