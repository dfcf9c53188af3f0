/** What a task record tells the merchant agrees with the ledger, although the two are never written together. */
module TruthfulRecords {
  import opened Wrappers
  import opened Tables
  import opened Commerce
  import opened TaskRecords
  import opened Protocol
  import opened ProtocolInvariant
  import opened ProtocolSteps
  import opened ProtocolRuns
  import LedgerRuns
  import LedgerTheorems

  /** A record at rest says of its task what an outcome may say. */
  ghost predicate RecordTrue(l: Ledger, task: TaskRecord) {
    && (task.status.Rejected? ==> RejectKnown(l, task.taskId))
    && (task.status.Completed? && task.interaction.Some? ==> ReceiptKnown(l, task.taskId))
    && (task.status.AwaitingApproval? ==> PlanShown(l, task.taskId, task.interaction))
    && (task.status.AwaitingInput? ==> task.interaction.Some? && task.interaction.value.InputRequired?)
  }

  /** So it is for every stored record and for every copy a worker is about to save as final. */
  ghost predicate AllTrue(w: World) {
    && (forall t | t in w.records :: RecordTrue(w.books.ledger, w.records[t]))
    && (forall h | h in w.handlers && w.handlers[h].Finishing? :: RecordTrue(w.books.ledger, w.handlers[h].task))
  }

  lemma RestIsFinished(p: Phase, e: Event, stored: TaskRecord, l: Ledger, maxAttempts: int, eff: Effect)
    requires (IsApi(p) || IsWorker(p)) && PhaseOk(l, maxAttempts, p) && Move(p, e, stored, l, maxAttempts) == Some(eff)
    ensures eff.write.Some? && AtRest(eff.write.value.status) ==> p.Finishing? && eff.write.value == p.task
  {
    if IsApi(p) {
      ApiWritesNoRest(p, e, stored, l, maxAttempts, eff);
    } else {
      WorkerRest(p, e, stored, l, maxAttempts, eff);
    }
  }

  lemma ApiWritesNoRest(p: Phase, e: Event, stored: TaskRecord, l: Ledger, maxAttempts: int, eff: Effect)
    requires IsApi(p) && PhaseOk(l, maxAttempts, p) && ApiMove(p, e, stored, l) == Some(eff)
    ensures eff.write.Some? ==> !AtRest(eff.write.value.status)
  {
  }

  lemma WorkerRest(p: Phase, e: Event, stored: TaskRecord, l: Ledger, maxAttempts: int, eff: Effect)
    requires IsWorker(p) && PhaseOk(l, maxAttempts, p) && WorkerMove(p, e, stored, maxAttempts) == Some(eff)
    ensures eff.write.Some? && AtRest(eff.write.value.status) ==> p.Finishing? && eff.write.value == p.task
  {
  }

  lemma WorkerFinishes(p: Phase, e: Event, stored: TaskRecord, maxAttempts: int, eff: Effect)
    requires IsWorker(p) && WorkerMove(p, e, stored, maxAttempts) == Some(eff) && eff.next.Finishing?
    ensures (p.Started? && e.RunReturn? && eff.next.task == Finished(p.task, e.outcome))
         || (p.Finishing? && eff.next.task == p.task)
  {
  }

  lemma FinishingFrom(p: Phase, e: Event, stored: TaskRecord, l: Ledger, maxAttempts: int, eff: Effect)
    requires Move(p, e, stored, l, maxAttempts) == Some(eff) && eff.next.Finishing?
    ensures (p.Started? && e.RunReturn? && eff.next.task == Finished(p.task, e.outcome))
         || (p.Finishing? && eff.next.task == p.task)
  {
    if IsWorker(p) {
      WorkerFinishes(p, e, stored, maxAttempts, eff);
    } else {
      ApiTakesNoLease(p, e, stored, l, eff);
    }
  }

  lemma FinishedTrue(l: Ledger, task: TaskRecord, o: RunOutcome)
    requires OutcomeTrue(l, task.taskId, o)
    ensures RecordTrue(l, Finished(task, o))
  {
  }

  lemma RestlessTrue(l: Ledger, task: TaskRecord)
    requires !AtRest(task.status)
    ensures RecordTrue(l, task)
  {
  }

  // ----- The ledger only grows -----

  lemma TrueStays(s: LedgerRuns.State, s': LedgerRuns.State, task: TaskRecord)
    requires LedgerRuns.Extends(s, s') && RecordTrue(s.ledger, task)
    ensures RecordTrue(s'.ledger, task)
  {
    var l, l' := s.ledger, s'.ledger;
    if task.status.Rejected? {
      var a :| a in l.approvals && a.taskId == task.taskId && a.decision == Reject;
      assert a in l'.approvals;
    }
    if task.status.Completed? && task.interaction.Some? {
      var p, r :| p in l.plans && r in l.receipts && p.taskId == task.taskId && r.idempotencyKey == PlanKey(p);
      assert p in l'.plans && r in l'.receipts;
    }
    if task.status.AwaitingApproval? {
      var p :| p in l.plans && p.taskId == task.taskId && task.interaction == Some(PlanInteraction(p));
      assert p in l'.plans;
    }
  }

  lemma AllTrueStays(w: World, w': World)
    requires AllTrue(w) && LedgerRuns.Extends(w.books, w'.books)
    requires forall t | t in w'.records :: (t in w.records && w'.records[t] == w.records[t]) || RecordTrue(w'.books.ledger, w'.records[t])
    requires forall h | h in w'.handlers && w'.handlers[h].Finishing? ::
               (h in w.handlers && w'.handlers[h] == w.handlers[h]) || RecordTrue(w'.books.ledger, w'.handlers[h].task)
    ensures AllTrue(w')
  {
    forall t | t in w'.records ensures RecordTrue(w'.books.ledger, w'.records[t]) {
      if t in w.records && w'.records[t] == w.records[t] {
        TrueStays(w.books, w'.books, w.records[t]);
      }
    }
    forall h | h in w'.handlers && w'.handlers[h].Finishing? ensures RecordTrue(w'.books.ledger, w'.handlers[h].task) {
      if h in w.handlers && w'.handlers[h] == w.handlers[h] {
        TrueStays(w.books, w'.books, w.handlers[h].task);
      }
    }
  }

  // ----- Every step -----

  lemma LocalExtends(w: World, h: nat, e: Event, eff: Effect)
    requires h in w.handlers && LedgerRuns.Inv(w.books)
    ensures LedgerRuns.Extends(w.books, LocalNext(w, h, e, eff).books)
  {
    if eff.act.Some? {
      LedgerRuns.StepExtends(w.books, eff.act.value);
    }
  }

  /** The copy a handler saves, and the one it is about to save, is true. */
  lemma SavedTrue(w: World, h: nat, e: Event, maxAttempts: int, eff: Effect)
    requires LocalStep(w, h, e, maxAttempts, eff) && AllTrue(w) && eff.write.Some?
    ensures RecordTrue(w.books.ledger, eff.write.value)
  {
    var p, l := w.handlers[h], w.books.ledger;
    RestIsFinished(p, e, w.records[TaskOf(p).value], l, maxAttempts, eff);
    if !AtRest(eff.write.value.status) {
      RestlessTrue(l, eff.write.value);
    }
  }

  lemma ToSaveTrue(p: Phase, e: Event, stored: TaskRecord, l: Ledger, maxAttempts: int, eff: Effect)
    requires Move(p, e, stored, l, maxAttempts) == Some(eff) && eff.next.Finishing?
    requires p.Finishing? ==> RecordTrue(l, p.task)
    requires p.Started? && e.RunReturn? ==> OutcomeTrue(l, p.task.taskId, e.outcome)
    ensures RecordTrue(l, eff.next.task)
  {
    FinishingFrom(p, e, stored, l, maxAttempts, eff);
    if p.Started? {
      FinishedTrue(l, p.task, e.outcome);
    }
  }

  lemma AppliedTrue(w: World, w': World, h: nat, eff: Effect, mine: string)
    requires AllTrue(w) && LedgerRuns.Extends(w.books, w'.books) && EffectApplied(w, w', h, eff, mine)
    requires eff.write.Some? ==> RecordTrue(w'.books.ledger, eff.write.value)
    requires eff.next.Finishing? ==> RecordTrue(w'.books.ledger, eff.next.task)
    ensures AllTrue(w')
  {
    AllTrueStays(w, w');
  }

  lemma LocalTrue(w: World, w': World, h: nat, eff: Effect, mine: string)
    requires AllTrue(w) && LedgerRuns.Extends(w.books, w'.books) && EffectApplied(w, w', h, eff, mine)
    requires eff.write.Some? ==> RecordTrue(w.books.ledger, eff.write.value)
    requires eff.next.Finishing? ==> RecordTrue(w.books.ledger, eff.next.task)
    ensures AllTrue(w')
  {
    if eff.write.Some? {
      TrueStays(w.books, w'.books, eff.write.value);
    }
    if eff.next.Finishing? {
      TrueStays(w.books, w'.books, eff.next.task);
    }
    AppliedTrue(w, w', h, eff, mine);
  }

  lemma LocalCopies(w: World, h: nat, e: Event, maxAttempts: int, eff: Effect)
    requires LocalStep(w, h, e, maxAttempts, eff) && AllTrue(w)
    ensures eff.write.Some? ==> RecordTrue(w.books.ledger, eff.write.value)
    ensures eff.next.Finishing? ==> RecordTrue(w.books.ledger, eff.next.task)
  {
    if eff.write.Some? {
      SavedTrue(w, h, e, maxAttempts, eff);
    }
    if eff.next.Finishing? {
      ToSaveTrue(w.handlers[h], e, w.records[TaskOf(w.handlers[h]).value], w.books.ledger, maxAttempts, eff);
    }
  }

  lemma LocalNextTrue(w: World, h: nat, e: Event, maxAttempts: int, eff: Effect)
    requires LocalStep(w, h, e, maxAttempts, eff) && AllTrue(w)
    ensures AllTrue(LocalNext(w, h, e, eff))
  {
    LocalCopies(w, h, e, maxAttempts, eff);
    LocalEffectOk(w, h, e, maxAttempts, eff);
    LocalApplies(w, h, e, eff, TaskOf(w.handlers[h]).value);
    LocalExtends(w, h, e, eff);
    LocalTrue(w, LocalNext(w, h, e, eff), h, eff, TaskOf(w.handlers[h]).value);
  }

  /** Other steps leave ledger, records and final copies alone. */
  lemma OpenTrue(w: World, a: Action, maxAttempts: int)
    requires Can(w, a, maxAttempts) && AllTrue(w) && !a.Local? && !a.Graph? && !a.Create?
    ensures AllTrue(Next(w, a, maxAttempts))
  {
  }

  lemma CreateTrue(w: World, h: nat, task: TaskRecord)
    requires AllTrue(w) && !AtRest(task.status)
    ensures AllTrue(CreateNext(w, h, task))
  {
    RestlessTrue(w.books.ledger, task);
  }

  lemma GraphTrue(w: World, act: LedgerRuns.Action)
    requires LedgerRuns.Inv(w.books) && AllTrue(w)
    ensures AllTrue(w.(books := LedgerRuns.After(w.books, act)))
  {
    LedgerRuns.StepExtends(w.books, act);
    AllTrueStays(w, w.(books := LedgerRuns.After(w.books, act)));
  }

  lemma OtherTrue(w: World, a: Action, maxAttempts: int)
    requires Inv(w, maxAttempts) && Can(w, a, maxAttempts) && AllTrue(w) && !a.Local?
    ensures AllTrue(Next(w, a, maxAttempts))
  {
    match a
    case Create(h, t, merchantId, productId) => CreateTrue(w, h, NewTask(t, merchantId, productId));
    case Graph(_, act) => GraphTrue(w, act);
    case _ => OpenTrue(w, a, maxAttempts);
  }

  lemma StepTrue(w: World, a: Action, maxAttempts: int)
    requires maxAttempts >= 1 && Inv(w, maxAttempts) && Can(w, a, maxAttempts) && AllTrue(w)
    ensures AllTrue(Next(w, a, maxAttempts))
  {
    if a.Local? {
      LocalNextTrue(w, a.h, a.event, maxAttempts,
        Move(w.handlers[a.h], a.event, w.records[TaskOf(w.handlers[a.h]).value], w.books.ledger, maxAttempts).value);
    } else {
      OtherTrue(w, a, maxAttempts);
    }
  }

  lemma RunStepTrue(ws: seq<World>, actions: seq<Action>, maxAttempts: int, i: nat)
    requires Run(ws, actions, maxAttempts) && i < |actions| && AllTrue(ws[i])
    ensures AllTrue(ws[i + 1])
  {
    RunInv(ws, actions, maxAttempts, i);
    StepTrue(ws[i], actions[i], maxAttempts);
  }

  lemma {:induction false} RunTrue(ws: seq<World>, actions: seq<Action>, maxAttempts: int, i: nat)
    requires Run(ws, actions, maxAttempts) && i < |ws|
    ensures AllTrue(ws[i])
  {
    if i > 0 {
      RunTrue(ws, actions, maxAttempts, i - 1);
      RunStepTrue(ws, actions, maxAttempts, i - 1);
    }
  }

  /** In every state of every run: a record that shows a rejection belongs to a task whose one decision is
    * Reject and which has no receipt; one that shows a proposed change as done has a receipt; and one that
    * waits for approval shows the task's own plan as it is stored. */
  lemma RecordsTellTruth(ws: seq<World>, actions: seq<Action>, maxAttempts: int, i: nat, t: string)
    requires Run(ws, actions, maxAttempts) && i < |ws| && t in ws[i].records
    ensures var l, task := ws[i].books.ledger, ws[i].records[t];
      && (task.status.Rejected? ==>
            && First(l.approvals, ApprovalOfTask(t)).Some? && First(l.approvals, ApprovalOfTask(t)).value.decision == Reject
            && forall r | r in l.receipts :: !LedgerTheorems.ReceiptOf(l, r, t))
      && (task.status.Completed? && task.interaction.Some? ==> exists r | r in l.receipts :: LedgerTheorems.ReceiptOf(l, r, t))
      && (task.status.AwaitingApproval? ==> PlanShown(l, t, task.interaction))
  {
    RunTrue(ws, actions, maxAttempts, i);
    RunInv(ws, actions, maxAttempts, i);
    var l, task := ws[i].books.ledger, ws[i].records[t];
    if task.status.Rejected? {
      RejectedHasNone(ws[i].books, t);
    }
    if task.status.Completed? && task.interaction.Some? {
      var p, r :| p in l.plans && r in l.receipts && p.taskId == t && r.idempotencyKey == PlanKey(p);
      assert LedgerTheorems.ReceiptOf(l, r, t);
    }
  }

  lemma RejectedHasNone(s: LedgerRuns.State, t: string)
    requires LedgerRuns.Inv(s) && RejectKnown(s.ledger, t)
    ensures var first := First(s.ledger.approvals, ApprovalOfTask(t)); first.Some? && first.value.decision == Reject
    ensures forall r | r in s.ledger.receipts :: !LedgerTheorems.ReceiptOf(s.ledger, r, t)
  {
    var a :| a in s.ledger.approvals && a.taskId == t && a.decision == Reject;
    assert ApprovalOfTask(t)(a);
    UniqueRow(s.ledger.approvals, LedgerRuns.ApprovalTask, a, First(s.ledger.approvals, ApprovalOfTask(t)).value);
    forall r | r in s.ledger.receipts ensures !LedgerTheorems.ReceiptOf(s.ledger, r, t) {
      if LedgerTheorems.ReceiptOf(s.ledger, r, t) {
        LedgerTheorems.ReceiptNeedsOwnApproval(s, r, t);
        assert false;
      }
    }
  }
}
