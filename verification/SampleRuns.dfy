/** Runs from an empty system, step by step, that show what the protocol does not promise. */
module SampleRuns {
  import opened Wrappers
  import opened Tables
  import opened IdempotencyKey
  import opened Commerce
  import opened TaskRecords
  import opened Protocol
  import opened ProtocolInvariant
  import opened ProtocolSteps
  import opened ProtocolRuns
  import opened StrandedTasks
  import opened CompletedTasks

  lemma Extend(ws: seq<World>, actions: seq<Action>, maxAttempts: int, a: Action, w: World)
    requires Run(ws, actions, maxAttempts) && Can(ws[|ws| - 1], a, maxAttempts) && w == Next(ws[|ws| - 1], a, maxAttempts)
    ensures Run(ws + [w], actions + [a], maxAttempts)
  {
    var ws', actions' := ws + [w], actions + [a];
    forall i | 0 <= i < |actions'| ensures Can(ws'[i], actions'[i], maxAttempts) && ws'[i + 1] == Next(ws'[i], actions'[i], maxAttempts) {
      if i < |actions| {
        assert ws'[i] == ws[i] && ws'[i + 1] == ws[i + 1] && actions'[i] == actions[i];
      }
    }
  }

  /** A run that ends without having proposed anything. */
  predicate Returns(e: Event) {
    e.RunReturn? && e.outcome.status.RunCompleted? && e.outcome.interaction.None?
  }

  /** A step that only moves its handler on, without leaving a lease. */
  lemma QuietStep(w: World, h: nat, e: Event, next: Phase, maxAttempts: int)
    requires h in w.handlers && TaskOf(w.handlers[h]).Some? && TaskOf(w.handlers[h]).value in w.records
    requires e.Proceed? || Returns(e) || e.Crash? || ((e.Raise? || e.RaiseAfter?) && e.failure == OtherError)
    requires !next.Started?
    requires Move(w.handlers[h], e, w.records[TaskOf(w.handlers[h]).value], w.books.ledger, maxAttempts) == Some(Quiet(next))
    requires UnderLease(w.handlers[h]) ==> UnderLease(next)
    ensures Can(w, Local(h, e), maxAttempts) && Next(w, Local(h, e), maxAttempts) == With(w, h, next)
  {
    assert w.queue + multiset{} == w.queue;
  }

  lemma WriteStep(w: World, h: nat, e: Event, next: Phase, task: TaskRecord, maxAttempts: int)
    requires h in w.handlers && TaskOf(w.handlers[h]).Some? && TaskOf(w.handlers[h]).value in w.records && e.Proceed?
    requires Move(w.handlers[h], e, w.records[TaskOf(w.handlers[h]).value], w.books.ledger, maxAttempts) == Some(Write(next, task))
    requires UnderLease(w.handlers[h]) ==> UnderLease(next)
    ensures Can(w, Local(h, e), maxAttempts)
    ensures Next(w, Local(h, e), maxAttempts)
         == With(w, h, next).(records := w.records[task.taskId := task],
                              started := if next.Started? then w.started + {next.d.message} else w.started)
  {
    assert w.queue + multiset{} == w.queue;
  }

  /** The publish of an API handler, as the broker sees it. */
  lemma PublishStep(w: World, h: nat, e: Event, failed: TaskRecord, m: QueueMessage, maxAttempts: int)
    requires h in w.handlers && w.handlers[h] == Publishing(failed, m) && m.taskId in w.records
    requires e == Proceed || e == RaiseAfter(OtherError)
    ensures Can(w, Local(h, e), maxAttempts)
    ensures Next(w, Local(h, e), maxAttempts)
         == With(w, h, if e.Proceed? then Done else Unpublished(failed, m)).(queue := w.queue + multiset{m})
  {
  }

  /** The first step of every sample: a task is created, its record saved. */
  lemma Created(w: World, t: string, merchantId: string, maxAttempts: int) returns (w': World)
    requires Protocol.Init(w) && ColonFree(t) && maxAttempts >= 1
    ensures Run([w, w'], [Create(0, t, merchantId, None)], maxAttempts)
    ensures w'.records == map[t := NewTask(t, merchantId, None)] && w'.queue == multiset{} && w'.leases == map[]
    ensures w'.handlers == map[0 := Publishing(PublishFailed(NewTask(t, merchantId, None), None), QueueMessage(t, 0, None, None))]
  {
    w' := CreateNext(w, 0, NewTask(t, merchantId, None));
    assert Run([w], [], maxAttempts);
    Extend([w], [], maxAttempts, Create(0, t, merchantId, None), w');
    assert [w] + [w'] == [w, w'] && [] + [Create(0, t, merchantId, None)] == [Create(0, t, merchantId, None)];
  }

  /** The event append (or the process) fails after `create_task` stored the record and before it published. */
  lemma StrandingRun(w: World, t: string, merchantId: string) returns (ws: seq<World>, actions: seq<Action>)
    requires Protocol.Init(w) && ColonFree(t)
    ensures Run(ws, actions, 1) && |ws| == 3 && ws[0] == w && Stranded(ws[2], t)
  {
    var m := QueueMessage(t, 0, None, None);
    var w1 := Created(w, t, merchantId, 1);
    QuietStep(w1, 0, Crash, Lost(m), 1);
    var w2 := With(w1, 0, Lost(m));
    ws, actions := [w, w1] + [w2], [Create(0, t, merchantId, None)] + [Local(0, Crash)];
    Extend([w, w1], [Create(0, t, merchantId, None)], 1, Local(0, Crash), w2);
  }

  /** A step may lose a message and strand nothing: here the publish raised although the broker has it. */
  lemma HarmlessLoss(w: World, t: string, merchantId: string) returns (ws: seq<World>, actions: seq<Action>)
    requires Protocol.Init(w) && ColonFree(t)
    ensures Run(ws, actions, 1) && |ws| == 4 && ws[0] == w && HeldFor(ws[3], t) && t in ws[3].records && Runnable(ws[3].records[t])
    ensures ws[3].handlers == map[0 := Lost(QueueMessage(t, 0, None, None))]
  {
    var m := QueueMessage(t, 0, None, None);
    var w2;
    ws, actions, w2 := PublishRaises(w, t, merchantId);
    QuietStep(w2, 0, Crash, Lost(m), 1);
    var w3 := With(w2, 0, Lost(m));
    Extend(ws, actions, 1, Local(0, Crash), w3);
    ws, actions := ws + [w3], actions + [Local(0, Crash)];
    InQueue(w3, NewTask(t, merchantId, None));
  }

  lemma PublishRaises(w: World, t: string, merchantId: string) returns (ws: seq<World>, actions: seq<Action>, w2: World)
    requires Protocol.Init(w) && ColonFree(t)
    ensures Run(ws, actions, 1) && |ws| == 3 && ws[0] == w && ws[2] == w2
    ensures w2.records == map[t := NewTask(t, merchantId, None)] && w2.queue == multiset{QueueMessage(t, 0, None, None)}
    ensures w2.handlers == map[0 := Unpublished(PublishFailed(NewTask(t, merchantId, None), None), QueueMessage(t, 0, None, None))]
  {
    var m, failed := QueueMessage(t, 0, None, None), PublishFailed(NewTask(t, merchantId, None), None);
    var w1 := Created(w, t, merchantId, 1);
    PublishStep(w1, 0, RaiseAfter(OtherError), failed, m, 1);
    w2 := With(w1, 0, Unpublished(failed, m)).(queue := w1.queue + multiset{m});
    Extend([w, w1], [Create(0, t, merchantId, None)], 1, Local(0, RaiseAfter(OtherError)), w2);
    ws, actions := [w, w1] + [w2], [Create(0, t, merchantId, None)] + [Local(0, RaiseAfter(OtherError))];
  }

  lemma InQueue(w: World, task: TaskRecord)
    requires w.records == map[task.taskId := task] && task.pendingAttempt.Some? && PendingMessage(task) in w.queue
    ensures HeldFor(w, task.taskId)
  {
  }

  // ----- A completed record goes back to retrying -----

  /** The only worker of the sample has the lease of `t`, and nothing else is under way. */
  predicate Working(w: World, t: string, p: Phase, task: TaskRecord) {
    && w.records == map[t := task] && task.taskId == t && w.handlers == map[0 := Done, 1 := p] && UnderLease(p)
    && p.d == Delivery(QueueMessage(t, 0, None, None), true)
  }

  lemma ToLeased(w: World, t: string, merchantId: string) returns (ws: seq<World>, actions: seq<Action>)
    requires Protocol.Init(w) && ColonFree(t)
    ensures Run(ws, actions, 2) && |ws| == 5 && ws[0] == w
    ensures Working(ws[4], t, Leased(Delivery(QueueMessage(t, 0, None, None), true)), NewTask(t, merchantId, None))
  {
    var m, failed := QueueMessage(t, 0, None, None), PublishFailed(NewTask(t, merchantId, None), None);
    var w1 := Created(w, t, merchantId, 2);
    PublishStep(w1, 0, Proceed, failed, m, 2);
    var w2 := With(w1, 0, Done).(queue := w1.queue + multiset{m});
    Extend([w, w1], [Create(0, t, merchantId, None)], 2, Local(0, Proceed), w2);
    ws, actions := [w, w1] + [w2], [Create(0, t, merchantId, None)] + [Local(0, Proceed)];
    var w3 := DeliverNext(w2, 1, m);
    Extend(ws, actions, 2, Deliver(1, m), w3);
    ws, actions := ws + [w3], actions + [Deliver(1, m)];
    var w4 := AcquireNext(w3, 1, Delivery(m, true));
    Extend(ws, actions, 2, Acquire(1), w4);
    ws, actions := ws + [w4], actions + [Acquire(1)];
  }

  /** One more step of that worker that writes nothing, and one that saves a record. */
  lemma Works(ws: seq<World>, actions: seq<Action>, t: string, p: Phase, task: TaskRecord, e: Event, p': Phase)
    returns (ws': seq<World>, actions': seq<Action>)
    requires Run(ws, actions, 2) && Working(ws[|ws| - 1], t, p, task) && UnderLease(p') && p'.d == p.d
    requires Move(p, e, task, ws[|ws| - 1].books.ledger, 2) == Some(Quiet(p'))
    requires !p'.Started? && (e.Proceed? || Returns(e) || e == Raise(OtherError))
    ensures Run(ws', actions', 2) && |ws'| == |ws| + 1 && ws <= ws' && actions' == actions + [Local(1, e)]
    ensures Working(ws'[|ws|], t, p', task)
  {
    var w := ws[|ws| - 1];
    QuietStep(w, 1, e, p', 2);
    Extend(ws, actions, 2, Local(1, e), With(w, 1, p'));
    ws', actions' := ws + [With(w, 1, p')], actions + [Local(1, e)];
  }

  lemma Saves(ws: seq<World>, actions: seq<Action>, t: string, p: Phase, task: TaskRecord, p': Phase, write: TaskRecord)
    returns (ws': seq<World>, actions': seq<Action>)
    requires Run(ws, actions, 2) && Working(ws[|ws| - 1], t, p, task) && UnderLease(p') && p'.d == p.d
    requires Move(p, Proceed, task, ws[|ws| - 1].books.ledger, 2) == Some(Write(p', write)) && write.taskId == t
    ensures Run(ws', actions', 2) && |ws'| == |ws| + 1 && ws <= ws' && actions' == actions + [Local(1, Proceed)]
    ensures Working(ws'[|ws|], t, p', write)
  {
    var w := ws[|ws| - 1];
    var w' := With(w, 1, p').(records := w.records[t := write],
                              started := if p'.Started? then w.started + {p'.d.message} else w.started);
    WriteStep(w, 1, Proceed, p', write, 2);
    Extend(ws, actions, 2, Local(1, Proceed), w');
    ws', actions' := ws + [w'], actions + [Local(1, Proceed)];
  }

  lemma ToSaved(w: World, t: string, merchantId: string, result: string) returns (ws: seq<World>, actions: seq<Action>, task: TaskRecord)
    requires Protocol.Init(w) && ColonFree(t)
    ensures Run(ws, actions, 2) && |ws| == 9 && ws[0] == w && task.status.Completed? && task.result == Some(result)
    ensures Working(ws[8], t, Saved(Delivery(QueueMessage(t, 0, None, None), true)), task)
  {
    var d, created := Delivery(QueueMessage(t, 0, None, None), true), NewTask(t, merchantId, None);
    var outcome := RunOutcome(RunCompleted, Some(result), None);
    var running := MarkRunning(created, d.message);
    task := Finished(running, outcome);
    ws, actions := ToLeased(w, t, merchantId);
    ws, actions := Works(ws, actions, t, Leased(d), created, Proceed, Matched(d, created));
    ws, actions := Saves(ws, actions, t, Matched(d, created), created, Started(d, running), running);
    ws, actions := Works(ws, actions, t, Started(d, running), running, RunReturn(outcome), Finishing(d, task));
    ws, actions := Saves(ws, actions, t, Finishing(d, task), running, Saved(d), task);
  }

  /** A task runs to its end and its record is saved as completed; then appending the final event, or
    * acknowledging, raises, and the record is saved as retrying. */
  lemma CompletedMayRetry(w: World, t: string, merchantId: string, result: string) returns (ws: seq<World>, actions: seq<Action>)
    requires Protocol.Init(w) && ColonFree(t)
    ensures Run(ws, actions, 2) && |ws| == 12 && ws[0] == w
    ensures IsCompleted(ws[8], t) && ws[8].records[t].result == Some(result)
    ensures t in ws[11].records && ws[11].records[t].status.Retrying? && actions[8] == Local(1, Raise(OtherError))
  {
    var d, task := Delivery(QueueMessage(t, 0, None, None), true), NewTask(t, merchantId, None);
    ws, actions, task := ToSaved(w, t, merchantId, result);
    var failed, retry := AfterFailure(task, d.message, true, OtherError, 2), RetryMessage(d.message, true);
    var failing := Failing(d, true, OtherError);
    ws, actions := Works(ws, actions, t, Saved(d), task, Raise(OtherError), failing);
    ws, actions := Works(ws, actions, t, failing, task, Proceed, FailureRead(d, failed, retry));
    ws, actions := Saves(ws, actions, t, FailureRead(d, failed, retry), task,
                         Retrying'(d, PublishFailed(failed, ResumeInteraction(retry)), retry), failed);
  }
}
