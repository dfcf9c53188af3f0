/** `TaskService`: the API operations on a task, run from their first to their last statement with no other
  * handler in between. Each access is the same record rewrite that the protocol interleaves. */
module TaskServices {
  import opened Wrappers
  import opened Tables
  import opened Commerce
  import opened CommerceRepositories
  import opened TaskRecords
  import opened RecordRules
  import opened RedisStores
  import AgentGraph

  /** How a publish ends: delivered, raised without delivery, or raised although the broker has the message. */
  datatype Fate = Sent | NotSent | SentButRaised

  class TaskQueue {
    var messages: multiset<QueueMessage>

    constructor ()
      ensures messages == multiset{}
    {
      messages := multiset{};
    }

    method Publish(m: QueueMessage, fate: Fate) returns (raised: bool)
      modifies this
      ensures raised <==> !fate.Sent?
      ensures messages == if fate.NotSent? then old(messages) else old(messages) + multiset{m}
    {
      if !fate.NotSent? {
        messages := messages + multiset{m};
      }
      return !fate.Sent?;
    }
  }

  datatype ServiceError =
    | TaskNotFound
    | WrongMerchant
    | StateConflict
    | NotResumable
    | QueueFailed
    | StoreFailed
    | LedgerError(error: CommerceError)

  class TaskService {
    const store: RedisStore
    const queue: TaskQueue
    const commerce: CommerceRepository

    constructor (store: RedisStore, queue: TaskQueue, commerce: CommerceRepository)
      ensures this.store == store && this.queue == queue && this.commerce == commerce
    {
      this.store, this.queue, this.commerce := store, queue, commerce;
    }

    /** The record of `taskId` as this merchant may see it. */
    ghost function Visible(taskId: string, merchantId: string): Option<TaskRecord>
      reads this, store
    {
      if taskId in store.tasks && store.tasks[taskId].merchantId == merchantId then Some(store.tasks[taskId]) else None
    }

    method GetTaskForMerchant(taskId: string, merchantId: string) returns (r: Result<TaskRecord, ServiceError>)
      ensures r.Ok? <==> Visible(taskId, merchantId).Some?
      ensures r.Ok? ==> Some(r.value) == Visible(taskId, merchantId)
      ensures r.Err? ==> r.error == if taskId in store.tasks then WrongMerchant else TaskNotFound
    {
      var task := store.GetTask(taskId);
      if task.None? {
        return Err(TaskNotFound);
      }
      if task.value.merchantId != merchantId {
        return Err(WrongMerchant);
      }
      return Ok(task.value);
    }

    /** Publishes the message a record waits for. If the publish raises, the record is saved as failed in such
      * a way that a resume publishes that very message. */
    method PublishOrFail(saved: TaskRecord, failed: TaskRecord, m: QueueMessage, fate: Fate)
      returns (r: Result<TaskRecord, ServiceError>)
      requires Recovers(failed, m) && failed.taskId == saved.taskId
      modifies store`tasks, queue
      ensures queue.messages == if fate.NotSent? then old(queue.messages) else old(queue.messages) + multiset{m}
      ensures fate.Sent? ==> r == Ok(saved) && store.tasks == old(store.tasks)
      ensures !fate.Sent? ==> r == Err(QueueFailed) && store.tasks == old(store.tasks)[failed.taskId := failed]
                              && ResumeMessage(store.tasks[failed.taskId]) == m
    {
      var raised := queue.Publish(m, fate);
      if raised {
        store.SaveTask(failed);
        return Err(QueueFailed);
      }
      return Ok(saved);
    }

    /** A known key gets its task and a token that is in use its new record back, with nothing published; a
      * task that is created has its message sent, or is saved so that a resume sends it. */
    method CreateTask(taskId: string, merchantId: string, productId: Option<string>, key: Option<string>, depth: nat, fate: Fate)
      returns (r: Result<TaskRecord, ServiceError>)
      modifies store`tasks, store`idempotency, queue
      ensures old(store.KeyedTask(key)).Some? ==> r == Ok(old(store.KeyedTask(key)).value)
      ensures old(store.KeyedTask(key)).Some? || taskId in old(store.tasks) ==>
        && store.tasks == old(store.tasks) && queue.messages == old(queue.messages)
        && (r.Ok? || r == Err(StoreFailed)) && (!HasKey(key) ==> r == Ok(NewTask(taskId, merchantId, productId)))
      ensures old(store.KeyedTask(key)).None? && taskId !in old(store.tasks) && (depth > 0 || !old(store.Dangling(key))) ==>
        var m := QueueMessage(taskId, 0, None, None);
        && store.tasks.Keys == old(store.tasks).Keys + {taskId}
        && (forall t | t in old(store.tasks) :: store.tasks[t] == old(store.tasks)[t])
        && queue.messages == (if fate.NotSent? then old(queue.messages) else old(queue.messages) + multiset{m})
        && (fate.Sent? ==> r == Ok(store.tasks[taskId]) && store.tasks[taskId] == NewTask(taskId, merchantId, productId))
        && (!fate.Sent? ==> r == Err(QueueFailed) && Recovers(store.tasks[taskId], m)
                            && SameTask(NewTask(taskId, merchantId, productId), store.tasks[taskId])
                            && store.tasks[taskId].productId == productId)
    {
      var task := NewTask(taskId, merchantId, productId);
      var stored := store.CreateTask(task, key, depth);
      if stored.Err? {
        return Err(StoreFailed);
      }
      var (resolved, created) := stored.value;
      if !created {
        return Ok(resolved);
      }
      r := PublishOrFail(task, PublishFailed(task, None), QueueMessage(taskId, 0, None, None), fate);
    }

    /** Accepted only while the task awaits input and for a product of its merchant; afterwards the task
      * waits for exactly the message that carries this product, published or recoverable. `matching` are the
      * products whose id or name contains the id asked for, none if that is blank. */
    method SubmitInput(taskId: string, merchantId: string, productId: string, matching: set<string>, fate: Fate)
      returns (r: Result<TaskRecord, ServiceError>)
      requires forall t | t in store.tasks :: store.tasks[t].taskId == t
      requires Owns(commerce.Tables(), merchantId, productId) ==> productId in matching || matching == {}
      modifies store`tasks, queue
      ensures var m := QueueMessage(taskId, 0, Some(InputKind), Some(productId));
        if old(Visible(taskId, merchantId)).Some? && old(store.tasks)[taskId].status.AwaitingInput?
           && Owns(commerce.Tables(), merchantId, productId) then
          && store.tasks.Keys == old(store.tasks).Keys
          && (forall t | t in store.tasks && t != taskId :: store.tasks[t] == old(store.tasks)[t])
          && queue.messages == (if fate.NotSent? then old(queue.messages) else old(queue.messages) + multiset{m})
          && SameTask(old(store.tasks)[taskId], store.tasks[taskId]) && store.tasks[taskId].productId == Some(productId)
          && (fate.Sent? ==> r == Ok(InputSubmitted(old(store.tasks)[taskId], productId)) && r == Ok(store.tasks[taskId])
                             && PendingMessage(store.tasks[taskId]) == m)
          && (!fate.Sent? ==> r == Err(QueueFailed) && Recovers(store.tasks[taskId], m))
        else
          && store.tasks == old(store.tasks) && queue.messages == old(queue.messages)
          && r == Err(if old(Visible(taskId, merchantId)).None?
                      then if taskId in old(store.tasks) then WrongMerchant else TaskNotFound
                      else if old(store.tasks)[taskId].status.AwaitingInput?
                              && forall p | p in commerce.products :: !Owns(commerce.Tables(), merchantId, p)
                      then LedgerError(MerchantNotFound) else StateConflict)
    {
      var found := GetTaskForMerchant(taskId, merchantId);
      if found.Err? {
        return Err(found.error);
      }
      var task := found.value;
      if !task.status.AwaitingInput? {
        return Err(StateConflict);
      }
      var tables := Ledger(commerce.products, commerce.plans, commerce.approvals, commerce.receipts);
      AgentGraph.ResolvesTo(tables, merchantId, matching);
      AgentGraph.ResolveOwnId(tables, merchantId, productId, matching);
      var matches := AgentGraph.ResolveProduct(tables, merchantId, matching);
      if matches.Err? {
        return Err(LedgerError(matches.error));
      }
      if productId !in matches.value {
        return Err(StateConflict);
      }
      var saved := InputSubmitted(task, productId);
      var done := store.TransitionTask(saved, AwaitingInput);
      assert done;
      r := PublishOrFail(saved, PublishFailed(saved, Some(InputResume(productId))), PendingMessage(saved), fate);
    }

    /** A repeated request for a task that runs or has ended gets the id of the stored approval, if it asks for
      * exactly that. A task that awaits approval, or whose approval could not be published, gets what the
      * ledger makes of the decision, and then waits for the message that carries the approval's id. Everything
      * else is refused and changes nothing. */
    method SubmitApproval(taskId: string, merchantId: string, planId: string, planVersion: int, actionId: string,
                          decision: ApprovalDecision, freshId: string, fate: Fate)
      returns (r: Result<string, ServiceError>)
      requires forall t | t in store.tasks :: store.tasks[t].taskId == t
      requires taskId in store.tasks && store.tasks[taskId].status.AwaitingApproval? ==> store.tasks[taskId].error.None?
      modifies store`tasks, queue, commerce
      ensures match old(Visible(taskId, merchantId))
        case None => r == Err(if taskId in old(store.tasks) then WrongMerchant else TaskNotFound)
        case Some(task) =>
          if task.status in {Queued, Running, Completed, Rejected} then
            var stored := First(old(commerce.approvals), ApprovalOfTask(taskId));
            if stored.Some? && stored.value == Approval(stored.value.approvalId, taskId, merchantId, planId, planVersion,
                                                        actionId, decision)
            then r == Ok(stored.value.approvalId) else r == Err(StateConflict)
          else if !AcceptsApproval(task) then r == Err(StateConflict)
          else
            var (l, answer) := Commerce.RecordApproval(old(commerce.Tables()), freshId, taskId, merchantId, planId,
                                                       planVersion, actionId, decision);
            && commerce.Tables() == l
            && match answer
               case Err(e) => r == Err(LedgerError(e))
               case Ok(id) =>
                 var saved := ApprovalSubmitted(task, id);
                 && queue.messages == (if fate.NotSent? then old(queue.messages)
                                       else old(queue.messages) + multiset{PendingMessage(saved)})
                 && store.tasks.Keys == old(store.tasks).Keys
                 && (forall t | t in store.tasks && t != taskId :: store.tasks[t] == old(store.tasks)[t])
                 && (fate.Sent? ==> r == Ok(id) && store.tasks[taskId] == saved)
                 && (!fate.Sent? ==> r == Err(QueueFailed) && Recovers(store.tasks[taskId], PendingMessage(saved)))
                 && SameTask(task, store.tasks[taskId]) && store.tasks[taskId].productId == task.productId
      ensures old(Visible(taskId, merchantId)).None? || !AcceptsApproval(old(Visible(taskId, merchantId)).value)
              || (r.Err? && r != Err(QueueFailed)) ==>
        store.tasks == old(store.tasks) && queue.messages == old(queue.messages) && commerce.Tables() == old(commerce.Tables())
      ensures r.Ok? ==>
        && var a := First(commerce.approvals, ApprovalOfTask(taskId));
        a.Some? && a.value.approvalId == r.value && a.value.decision == decision
    {
      var found := GetTaskForMerchant(taskId, merchantId);
      if found.Err? {
        return Err(found.error);
      }
      var task := found.value;
      if task.status.Queued? || task.status.Running? || task.status.Completed? || task.status.Rejected? {
        var existing := First(commerce.approvals, ApprovalOfTask(taskId));
        if existing.Some? && existing.value.merchantId == merchantId && existing.value.planId == planId
           && existing.value.planVersion == planVersion && existing.value.actionId == actionId
           && existing.value.decision == decision {
          return Ok(existing.value.approvalId);
        }
        return Err(StateConflict);
      }
      if task.status.Failed? && task.error != Some(QueuePublishFailed) {
        return Err(StateConflict);
      }
      if !task.status.AwaitingApproval? && !task.status.Failed? {
        return Err(StateConflict);
      }
      RecordedFirst(commerce.Tables(), freshId, taskId, merchantId, planId, planVersion, actionId, decision);
      r := RecordAndPublish(task, planId, planVersion, actionId, decision, freshId, fate);
    }

    /** The part of `submit_approval` that writes: ledger, compare-and-set, publish. */
    method RecordAndPublish(task: TaskRecord, planId: string, planVersion: int, actionId: string,
                            decision: ApprovalDecision, freshId: string, fate: Fate)
      returns (r: Result<string, ServiceError>)
      requires AcceptsApproval(task) && (task.status.AwaitingApproval? ==> task.error.None?)
      requires task.taskId in store.tasks && store.tasks[task.taskId] == task
      modifies store`tasks, queue, commerce
      ensures var (l, answer) := Commerce.RecordApproval(old(commerce.Tables()), freshId, task.taskId, task.merchantId,
                                                         planId, planVersion, actionId, decision);
        && commerce.Tables() == l
        && match answer
           case Err(e) => r == Err(LedgerError(e)) && store.tasks == old(store.tasks) && queue.messages == old(queue.messages)
           case Ok(id) =>
             var saved := ApprovalSubmitted(task, id);
             && queue.messages == (if fate.NotSent? then old(queue.messages)
                                   else old(queue.messages) + multiset{PendingMessage(saved)})
             && store.tasks.Keys == old(store.tasks).Keys
             && (forall t | t in store.tasks && t != task.taskId :: store.tasks[t] == old(store.tasks)[t])
             && (fate.Sent? ==> r == Ok(id) && store.tasks[task.taskId] == saved)
             && (!fate.Sent? ==> r == Err(QueueFailed) && Recovers(store.tasks[task.taskId], PendingMessage(saved)))
             && SameTask(task, store.tasks[task.taskId]) && store.tasks[task.taskId].productId == task.productId
    {
      var recorded := commerce.RecordApproval(freshId, task.taskId, task.merchantId, planId, planVersion, actionId, decision);
      if recorded.Err? {
        return Err(LedgerError(recorded.error));
      }
      var saved := ApprovalSubmitted(task, recorded.value);
      var done := store.TransitionTask(saved, ExpectedStatus(task));
      assert done;
      var published := PublishOrFail(saved, PublishFailed(saved, Some(ApprovalResume(recorded.value))), PendingMessage(saved), fate);
      if published.Err? {
        return Err(QueueFailed);
      }
      return Ok(recorded.value);
    }

    /** A successful decision is the first and only one the task has; a refused one changes nothing. */
    lemma RecordedFirst(l: Ledger, freshId: string, taskId: string, merchantId: string, planId: string,
                        planVersion: int, actionId: string, decision: ApprovalDecision)
      ensures var (l', answer) := Commerce.RecordApproval(l, freshId, taskId, merchantId, planId, planVersion, actionId, decision);
        && (answer.Err? ==> l' == l)
        && (answer.Ok? ==>
              var a := First(l'.approvals, ApprovalOfTask(taskId));
              a.Some? && a.value.approvalId == answer.value && a.value.decision == decision)
    {
      var row := Approval(freshId, taskId, merchantId, planId, planVersion, actionId, decision);
      FirstAppend(l.approvals, [row], ApprovalOfTask(taskId));
    }

    /** A task is resumed exactly if it has failed, or shows as running without a lease, and not of a final
      * error; then it waits for the message worked out from its record, whether or not that is published. */
    method ResumeTask(taskId: string, merchantId: string, fate: Fate) returns (r: Result<TaskRecord, ServiceError>)
      requires forall t | t in store.tasks :: store.tasks[t].taskId == t
      modifies store`tasks, queue
      ensures match old(Visible(taskId, merchantId))
        case None =>
          && r == Err(if taskId in old(store.tasks) then WrongMerchant else TaskNotFound)
          && store.tasks == old(store.tasks) && queue.messages == old(queue.messages)
        case Some(task) =>
          if (task.status != Failed && (task.status != Running || taskId in store.leases))
             || (task.error.Some? && task.error.value in FINAL_ERRORS) then
            r == Err(NotResumable) && store.tasks == old(store.tasks) && queue.messages == old(queue.messages)
          else
            var m := ResumeMessage(task);
            && store.tasks.Keys == old(store.tasks).Keys
            && (forall t | t in store.tasks && t != taskId :: store.tasks[t] == old(store.tasks)[t])
            && queue.messages == (if fate.NotSent? then old(queue.messages) else old(queue.messages) + multiset{m})
            && SameTask(task, store.tasks[taskId]) && store.tasks[taskId].productId == task.productId
            && (fate.Sent? ==> r == Ok(store.tasks[taskId]) && store.tasks[taskId].status.Queued?
                               && store.tasks[taskId].pendingAttempt.Some? && PendingMessage(store.tasks[taskId]) == m)
            && (!fate.Sent? ==> r == Err(QueueFailed) && Recovers(store.tasks[taskId], m))
    {
      var found := GetTaskForMerchant(taskId, merchantId);
      if found.Err? {
        return Err(found.error);
      }
      var task := found.value;
      if !Resumable(task, taskId in store.leases) {
        return Err(NotResumable);
      }
      var saved := Resumed(task);
      store.SaveTask(saved);
      r := PublishOrFail(saved, ResumeFailed(task), ResumeMessage(task), fate);
    }
  }
}
