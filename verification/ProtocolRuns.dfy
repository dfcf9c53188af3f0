/** The invariant of the whole protocol and its proof, step by step. */
module ProtocolRuns {
  import opened Wrappers
  import opened Tables
  import opened Commerce
  import opened TaskRecords
  import opened Protocol
  import opened ProtocolInvariant
  import opened ProtocolSteps
  import LedgerRuns

  ghost predicate RecordsOk(w: World, maxAttempts: int) {
    forall t | t in w.records :: w.records[t].taskId == t && RecordOk(w.books.ledger, maxAttempts, w.records[t])
  }

  ghost predicate QueueOk(w: World, maxAttempts: int) {
    forall m | m in w.queue :: MessageOk(w.books.ledger, maxAttempts, m) && m.taskId in w.records
  }

  ghost predicate HandlersOk(w: World, maxAttempts: int) {
    forall h | h in w.handlers ::
      && PhaseOk(w.books.ledger, maxAttempts, w.handlers[h])
      && (w.handlers[h].Done? || (TaskOf(w.handlers[h]).Some? && TaskOf(w.handlers[h]).value in w.records))
  }

  /** Some queue copy, live handler or lost handler stands for `m`. */
  ghost predicate Carried(w: World, m: QueueMessage) {
    m in w.queue || exists h | h in w.handlers :: Carries(w.handlers[h], m) || w.handlers[h] == Lost(m)
  }

  ghost predicate AllCarried(w: World) {
    forall t | t in w.records && Runnable(w.records[t]) ::
      w.records[t].pendingAttempt.Some? && Carried(w, PendingMessage(w.records[t]))
  }

  ghost predicate StartedOk(w: World, maxAttempts: int) {
    forall m | m in w.started :: MessageOk(w.books.ledger, maxAttempts, m) && m.taskId in w.records
  }

  /** A worker whose lease has not run out owns the lease of its task. */
  ghost predicate LeasesOk(w: World) {
    forall h | h in w.handlers && UnderLease(w.handlers[h]) && h !in w.late ::
      w.handlers[h].d.message.taskId in w.leases && w.leases[w.handlers[h].d.message.taskId] == h
  }

  ghost predicate Inv(w: World, maxAttempts: int) {
    && LedgerRuns.Inv(w.books)
    && RecordsOk(w, maxAttempts) && QueueOk(w, maxAttempts) && HandlersOk(w, maxAttempts)
    && AllCarried(w) && LeasesOk(w) && StartedOk(w, maxAttempts)
  }

  lemma InitInv(w: World, maxAttempts: int)
    requires Protocol.Init(w)
    ensures Inv(w, maxAttempts)
  {
  }

  // ----- Steps of one handler -----

  ghost predicate LocalStep(w: World, h: nat, e: Event, maxAttempts: int, eff: Effect) {
    && maxAttempts >= 1 && Inv(w, maxAttempts) && CanLocal(w, h, e, maxAttempts)
    && Move(w.handlers[h], e, w.records[TaskOf(w.handlers[h]).value], w.books.ledger, maxAttempts) == Some(eff)
  }

  /** The only step of a handler itself that touches the ledger records a decision. */
  lemma ActsFrom(p: Phase, e: Event, stored: TaskRecord, l: Ledger, maxAttempts: int, eff: Effect)
    requires Move(p, e, stored, l, maxAttempts) == Some(eff) && eff.act.Some?
    ensures p.SubmittingApproval? && eff.act.value.Record? && eff.act.value.taskId == p.task.taskId
  {
  }

  lemma BooksStep(books: LedgerRuns.State, act: LedgerRuns.Action)
    requires LedgerRuns.Inv(books) && LedgerRuns.Enabled(books, act)
    ensures LedgerRuns.Inv(LedgerRuns.After(books, act))
    ensures Grown(books.ledger, LedgerRuns.LedgerAfter(books.ledger, act))
  {
    LedgerRuns.StepInv(books, act);
    LedgerRuns.StepExtends(books, act);
  }

  /** The ledger part of a step is a step of the ledger system, or none. */
  lemma LocalBooks(w: World, h: nat, e: Event, maxAttempts: int, eff: Effect)
    requires LocalStep(w, h, e, maxAttempts, eff)
    ensures eff.act.Some? ==> LedgerRuns.Enabled(w.books, eff.act.value)
    ensures LedgerRuns.Inv(ApplyEffect(w, h, eff).books)
    ensures ApplyEffect(w, h, eff).books.ledger == LedgerThen(w.books.ledger, eff.act)
    ensures Grown(w.books.ledger, ApplyEffect(w, h, eff).books.ledger)
  {
    if eff.act.Some? {
      ActsFrom(w.handlers[h], e, w.records[TaskOf(w.handlers[h]).value], w.books.ledger, maxAttempts, eff);
      BooksStep(w.books, eff.act.value);
    }
  }

  lemma LocalEffectOk(w: World, h: nat, e: Event, maxAttempts: int, eff: Effect)
    requires LocalStep(w, h, e, maxAttempts, eff)
    ensures EffectOk(LedgerThen(w.books.ledger, eff.act), maxAttempts, TaskOf(w.handlers[h]).value, eff)
  {
    var p, l := w.handlers[h], w.books.ledger;
    var stored := w.records[TaskOf(p).value];
    if p.SubmittingApproval? {
      RecordStepOk(p, e, stored, l, maxAttempts, eff);
    } else if IsApi(p) {
      ApiOk(p, e, stored, l, maxAttempts, eff);
    } else {
      LocalWorkerOk(p, e, stored, l, maxAttempts, eff);
    }
  }

  lemma LocalWorkerOk(p: Phase, e: Event, stored: TaskRecord, l: Ledger, maxAttempts: int, eff: Effect)
    requires maxAttempts >= 1 && IsWorker(p) && PhaseOk(l, maxAttempts, p)
    requires RecordOk(l, maxAttempts, stored) && stored.taskId == p.d.message.taskId
    requires (e.Raise? || e.RaiseAfter? || e.RunRaise?) ==> SafeError(e.failure) != QueuePublishFailed
    requires WorkerMove(p, e, stored, maxAttempts) == Some(eff)
    ensures EffectOk(l, maxAttempts, p.d.message.taskId, eff) && eff.act.None?
  {
    if e.Redeliver? {
      RedeliverOk(p, stored, l, maxAttempts, eff);
    } else if e.Crash? {
      CrashOk(p, stored, l, maxAttempts, eff);
    } else if p.Failing? {
      FailingOk(p, e, stored, l, maxAttempts, eff);
    } else if p.FailureRead? {
      FailureReadOk(p, e, stored, l, maxAttempts, eff);
    } else if p.Retrying'? {
      RetryOk(p, e, stored, l, maxAttempts, eff);
    } else if p.RetryUnpublished? || p.Settling? {
      SettleOk(p, e, stored, l, maxAttempts, eff);
    } else if p.Delayed? || p.Contended? || p.Delivered? {
      ContendedOk(p, e, stored, l, maxAttempts, eff);
    } else if p.Leased? || p.Dropping? || p.Saved? {
      AcceptOk(p, e, stored, l, maxAttempts, eff);
    } else {
      RunPathOk(p, e, stored, l, maxAttempts, eff);
    }
  }

  /** One handler has moved on, and perhaps something was sent. */
  predicate MovesOn(w: World, w': World, h: nat, eff: Effect) {
    h in w.handlers && w'.handlers == w.handlers[h := eff.next] && w'.queue == w.queue + eff.sends
  }

  /** `w'` is `w` with the effect applied, whatever became of leases and ledger. */
  predicate EffectApplied(w: World, w': World, h: nat, eff: Effect, t: string) {
    && MovesOn(w, w', h, eff)
    && w'.records == (if eff.write.Some? then w.records[t := eff.write.value] else w.records)
  }

  lemma LocalApplies(w: World, h: nat, e: Event, eff: Effect, t: string)
    requires h in w.handlers && (eff.write.Some? ==> eff.write.value.taskId == t)
    ensures EffectApplied(w, LocalNext(w, h, e, eff), h, eff, t)
  {
  }

  /** Records and messages stay well-formed under an effect that is. */
  lemma ApplyMessagesOk(w: World, h: nat, maxAttempts: int, taskId: string, eff: Effect)
    requires RecordsOk(w, maxAttempts) && QueueOk(w, maxAttempts) && StartedOk(w, maxAttempts) && taskId in w.records
    requires Grown(w.books.ledger, ApplyEffect(w, h, eff).books.ledger)
    requires EffectOk(ApplyEffect(w, h, eff).books.ledger, maxAttempts, taskId, eff)
    ensures var w' := ApplyEffect(w, h, eff);
      RecordsOk(w', maxAttempts) && QueueOk(w', maxAttempts) && StartedOk(w', maxAttempts)
  {
    PointStable(w.books.ledger, ApplyEffect(w, h, eff).books.ledger);
  }

  lemma ApplyHandlersOk(w: World, h: nat, maxAttempts: int, taskId: string, eff: Effect)
    requires HandlersOk(w, maxAttempts) && h in w.handlers && taskId in w.records
    requires Grown(w.books.ledger, ApplyEffect(w, h, eff).books.ledger)
    requires EffectOk(ApplyEffect(w, h, eff).books.ledger, maxAttempts, taskId, eff)
    ensures HandlersOk(ApplyEffect(w, h, eff), maxAttempts)
  {
    var w', l := ApplyEffect(w, h, eff), w.books.ledger;
    forall g | g in w'.handlers && g != h ensures PhaseOk(w'.books.ledger, maxAttempts, w'.handlers[g]) {
      PhaseStable(l, w'.books.ledger, maxAttempts, w.handlers[g]);
    }
  }

  /** A handler carries only messages of the task it works for. */
  lemma CarrierTask(p: Phase, l: Ledger, maxAttempts: int, m: QueueMessage)
    requires PhaseOk(l, maxAttempts, p) && (Carries(p, m) || p == Lost(m))
    ensures TaskOf(p) == Some(m.taskId)
  {
  }

  lemma CarrierPasses(p: Phase, e: Event, stored: TaskRecord, l: Ledger, maxAttempts: int, eff: Effect, m: QueueMessage)
    requires Move(p, e, stored, l, maxAttempts) == Some(eff) && eff.write.None? && Carries(p, m)
    requires Runnable(stored) && stored.pendingAttempt.Some? && PendingMessage(stored) == m
    ensures Passes(eff, m)
  {
    if IsApi(p) {
      ApiPasses(p, e, stored, l, eff, m);
    } else {
      WorkerPasses(p, e, stored, maxAttempts, eff, m);
    }
  }

  /** What stood for `m` before a handler's step stands for it afterwards, if the handler passes it on. */
  lemma CarriedAfter(w: World, w': World, h: nat, eff: Effect, m: QueueMessage)
    requires h in w.handlers && w'.queue == w.queue + eff.sends && w'.handlers == w.handlers[h := eff.next]
    requires Passes(eff, m)
          || (Carried(w, m) && !Carries(w.handlers[h], m) && w.handlers[h] != Lost(m))
    ensures Carried(w', m)
  {
    assert w'.handlers[h] == eff.next;
    if !Passes(eff, m) && m !in w.queue {
      var g :| g in w.handlers && (Carries(w.handlers[g], m) || w.handlers[g] == Lost(m));
      assert w'.handlers[g] == w.handlers[g];
    }
  }

  lemma LocalCarried(w: World, h: nat, e: Event, maxAttempts: int, eff: Effect, w': World)
    requires LocalStep(w, h, e, maxAttempts, eff)
    requires EffectApplied(w, w', h, eff, TaskOf(w.handlers[h]).value)
    ensures AllCarried(w')
  {
    var p, l := w.handlers[h], w.books.ledger;
    forall t | t in w'.records && Runnable(w'.records[t])
      ensures w'.records[t].pendingAttempt.Some? && Carried(w', PendingMessage(w'.records[t]))
    {
      if eff.write.Some? && t == TaskOf(p).value {
        WriterCarries(p, e, w.records[t], l, maxAttempts, eff);
        CarriedAfter(w, w', h, eff, PendingMessage(eff.write.value));
      } else {
        var m := PendingMessage(w.records[t]);
        assert m.taskId == t;
        if Carries(p, m) {
          CarrierTask(p, l, maxAttempts, m);
          CarrierPasses(p, e, w.records[t], l, maxAttempts, eff, m);
        }
        CarriedAfter(w, w', h, eff, m);
      }
    }
  }

  lemma ApiTakesNoLease(p: Phase, e: Event, stored: TaskRecord, l: Ledger, eff: Effect)
    requires IsApi(p) && ApiMove(p, e, stored, l) == Some(eff)
    ensures !UnderLease(eff.next)
  {
  }

  lemma LettingGoKeepsTask(p: Phase, e: Event, stored: TaskRecord, maxAttempts: int, eff: Effect)
    requires IsWorker(p) && (e.Redeliver? || e.Crash?) && WorkerMove(p, e, stored, maxAttempts) == Some(eff) && UnderLease(eff.next)
    ensures UnderLease(p) && eff.next.d.message == p.d.message
  {
  }

  lemma LeaseStaysWithTask(p: Phase, e: Event, stored: TaskRecord, maxAttempts: int, eff: Effect)
    requires IsWorker(p) && !e.Redeliver? && !e.Crash? && WorkerMove(p, e, stored, maxAttempts) == Some(eff) && UnderLease(eff.next)
    ensures UnderLease(p) && eff.next.d.message == p.d.message
  {
  }

  /** Only a worker that leaves its lease can make another entry disappear, and only its own. */
  lemma LeasesAfter(w: World, w': World, h: nat, p: Phase)
    requires LeasesOk(w) && h in w.handlers && w'.handlers == w.handlers[h := p] && w'.late == w.late
    requires UnderLease(p) ==>
               UnderLease(w.handlers[h]) && p.d.message == w.handlers[h].d.message && w'.leases == w.leases
    requires w'.leases == w.leases || w'.leases == Release(w, h).leases
    ensures LeasesOk(w')
  {
  }

  lemma LocalLeases(w: World, h: nat, e: Event, maxAttempts: int, eff: Effect)
    requires LocalStep(w, h, e, maxAttempts, eff)
    ensures LeasesOk(LocalNext(w, h, e, eff))
  {
    var p := w.handlers[h];
    if IsApi(p) {
      ApiTakesNoLease(p, e, w.records[TaskOf(p).value], w.books.ledger, eff);
    } else if UnderLease(eff.next) && (e.Redeliver? || e.Crash?) {
      LettingGoKeepsTask(p, e, w.records[TaskOf(p).value], maxAttempts, eff);
    } else if UnderLease(eff.next) {
      LeaseStaysWithTask(p, e, w.records[TaskOf(p).value], maxAttempts, eff);
    }
    assert Release(ApplyEffect(w, h, eff), h).leases == Release(w, h).leases;
    LeasesAfter(w, LocalNext(w, h, e, eff), h, eff.next);
  }

  lemma LocalApplyInv(w: World, h: nat, e: Event, maxAttempts: int, eff: Effect)
    requires LocalStep(w, h, e, maxAttempts, eff)
    ensures var w' := ApplyEffect(w, h, eff);
      && LedgerRuns.Inv(w'.books) && RecordsOk(w', maxAttempts) && QueueOk(w', maxAttempts)
      && HandlersOk(w', maxAttempts) && StartedOk(w', maxAttempts)
  {
    var t := TaskOf(w.handlers[h]).value;
    LocalBooks(w, h, e, maxAttempts, eff);
    LocalEffectOk(w, h, e, maxAttempts, eff);
    ApplyMessagesOk(w, h, maxAttempts, t, eff);
    ApplyHandlersOk(w, h, maxAttempts, t, eff);
  }

  lemma LocalNextCarried(w: World, h: nat, e: Event, maxAttempts: int, eff: Effect)
    requires LocalStep(w, h, e, maxAttempts, eff)
    ensures AllCarried(LocalNext(w, h, e, eff))
  {
    LocalEffectOk(w, h, e, maxAttempts, eff);
    LocalApplies(w, h, e, eff, TaskOf(w.handlers[h]).value);
    LocalCarried(w, h, e, maxAttempts, eff, LocalNext(w, h, e, eff));
  }

  lemma LocalInv(w: World, h: nat, e: Event, maxAttempts: int, eff: Effect)
    requires LocalStep(w, h, e, maxAttempts, eff)
    ensures Inv(LocalNext(w, h, e, eff), maxAttempts)
  {
    LocalApplyInv(w, h, e, maxAttempts, eff);
    LocalNextCarried(w, h, e, maxAttempts, eff);
    LocalLeases(w, h, e, maxAttempts, eff);
    SameButLeases(ApplyEffect(w, h, eff), LocalNext(w, h, e, eff), maxAttempts);
  }

  lemma SameButLeases(w: World, w': World, maxAttempts: int)
    requires w'.(leases := w.leases) == w
    requires LedgerRuns.Inv(w.books) && RecordsOk(w, maxAttempts) && QueueOk(w, maxAttempts) && HandlersOk(w, maxAttempts)
    requires StartedOk(w, maxAttempts)
    ensures LedgerRuns.Inv(w'.books) && RecordsOk(w', maxAttempts) && QueueOk(w', maxAttempts) && HandlersOk(w', maxAttempts)
    ensures StartedOk(w', maxAttempts)
  {
  }

  // ----- Steps that open a handler or touch the lease -----

  /** Everything a record waits for is still carried when handlers are added and none is changed. */
  lemma CarriedStays(w: World, w': World)
    requires AllCarried(w) && w'.records == w.records
    requires forall h | h in w.handlers :: h in w'.handlers
    requires forall h, m | h in w.handlers && (Carries(w.handlers[h], m) || w.handlers[h] == Lost(m)) ::
               Carries(w'.handlers[h], m) || w'.handlers[h] == Lost(m)
    requires forall m | m in w.queue :: Carried(w', m)
    ensures AllCarried(w')
  {
  }

  lemma CreateCarried(w: World, h: nat, task: TaskRecord)
    requires AllCarried(w) && h !in w.handlers && task.taskId !in w.records
    requires task == NewTask(task.taskId, task.merchantId, task.productId)
    ensures AllCarried(CreateNext(w, h, task))
  {
    var w' := CreateNext(w, h, task);
    forall t | t in w'.records && Runnable(w'.records[t])
      ensures w'.records[t].pendingAttempt.Some? && Carried(w', PendingMessage(w'.records[t]))
    {
      if t == task.taskId {
        assert Carries(w'.handlers[h], PendingMessage(task));
      } else {
        var m := PendingMessage(w.records[t]);
        if m !in w.queue {
          var g :| g in w.handlers && (Carries(w.handlers[g], m) || w.handlers[g] == Lost(m));
          assert w'.handlers[g] == w.handlers[g];
        }
      }
    }
  }

  lemma CreateInv(w: World, h: nat, taskId: string, merchantId: string, productId: Option<string>, maxAttempts: int)
    requires maxAttempts >= 1 && Inv(w, maxAttempts) && h !in w.handlers && taskId !in w.records
    ensures Inv(CreateNext(w, h, NewTask(taskId, merchantId, productId)), maxAttempts)
  {
    var task := NewTask(taskId, merchantId, productId);
    FailedCopy(w.books.ledger, maxAttempts, task, None);
    CreateCarried(w, h, task);
  }

  /** One handler is set to a phase that is well-formed; records and ledger are as they were. */
  lemma SetHandler(w: World, w': World, h: nat, p: Phase, maxAttempts: int)
    requires Inv(w, maxAttempts) && PhaseOk(w.books.ledger, maxAttempts, p)
    requires p.Done? || (TaskOf(p).Some? && TaskOf(p).value in w.records)
    requires w'.books == w.books && w'.records == w.records && w'.handlers == w.handlers[h := p] && w'.started == w.started
    requires forall m | m in w'.queue :: m in w.queue
    ensures LedgerRuns.Inv(w'.books)
    ensures RecordsOk(w', maxAttempts) && QueueOk(w', maxAttempts) && HandlersOk(w', maxAttempts) && StartedOk(w', maxAttempts)
  {
  }

  /** A handler without lease and cargo appears, or one without cargo moves on to such a phase. */
  lemma OpenInv(w: World, h: nat, p: Phase, maxAttempts: int)
    requires Inv(w, maxAttempts) && PhaseOk(w.books.ledger, maxAttempts, p) && !UnderLease(p)
    requires h in w.handlers ==> w.handlers[h].ResumeRead?
    requires p.Done? || (TaskOf(p).Some? && TaskOf(p).value in w.records)
    ensures Inv(With(w, h, p), maxAttempts)
  {
    SetHandler(w, With(w, h, p), h, p, maxAttempts);
    CarriedStays(w, With(w, h, p));
    assert LeasesOk(With(w, h, p));
  }

  lemma DeliverCarried(w: World, h: nat, m: QueueMessage)
    requires AllCarried(w) && h !in w.handlers && m in w.queue
    ensures AllCarried(DeliverNext(w, h, m))
  {
    var w' := DeliverNext(w, h, m);
    forall x | x in w.queue ensures Carried(w', x) {
      if x == m {
        assert Carries(w'.handlers[h], x);
      }
    }
    CarriedStays(w, w');
  }

  lemma DeliverInv(w: World, h: nat, m: QueueMessage, maxAttempts: int)
    requires Inv(w, maxAttempts) && h !in w.handlers && m in w.queue
    ensures Inv(DeliverNext(w, h, m), maxAttempts)
  {
    SetHandler(w, DeliverNext(w, h, m), h, Delivered(Delivery(m, true)), maxAttempts);
    DeliverCarried(w, h, m);
    assert LeasesOk(DeliverNext(w, h, m));
  }

  lemma AcquireCarried(w: World, h: nat, d: Delivery)
    requires AllCarried(w) && h in w.handlers && w.handlers[h] == Delivered(d)
    ensures AllCarried(AcquireNext(w, h, d))
  {
    CarriedStays(w, AcquireNext(w, h, d));
  }

  lemma AcquireLeases(w: World, h: nat, d: Delivery)
    requires LeasesOk(w) && h in w.handlers && w.handlers[h] == Delivered(d)
    ensures LeasesOk(AcquireNext(w, h, d))
  {
    if d.message.taskId in w.leases {
      LeasesAfter(w, AcquireNext(w, h, d), h, Contended(d));
    }
  }

  lemma AcquireInv(w: World, h: nat, maxAttempts: int)
    requires Inv(w, maxAttempts) && h in w.handlers && w.handlers[h].Delivered?
    ensures Inv(AcquireNext(w, h, w.handlers[h].d), maxAttempts)
  {
    var d := w.handlers[h].d;
    var w' := AcquireNext(w, h, d);
    assert PhaseOk(w.books.ledger, maxAttempts, w.handlers[h]);
    SetHandler(w, w', h, w'.handlers[h], maxAttempts);
    AcquireCarried(w, h, d);
    AcquireLeases(w, h, d);
  }

  lemma CheckLeaseInv(w: World, h: nat, maxAttempts: int, p: Phase)
    requires Inv(w, maxAttempts) && h in w.handlers && w.handlers[h].ResumeRead?
    requires p == Resuming(w.handlers[h].task) || p == Done
    ensures Inv(With(w, h, p), maxAttempts)
  {
    assert PhaseOk(w.books.ledger, maxAttempts, w.handlers[h]);
    OpenInv(w, h, p, maxAttempts);
  }

  lemma ExpireInv(w: World, taskId: string, maxAttempts: int)
    requires Inv(w, maxAttempts) && taskId in w.leases
    ensures Inv(ExpireNext(w, taskId), maxAttempts)
  {
  }

  /** Everything said of records, messages and handlers survives the growth of the ledger. */
  lemma GrownInv(w: World, w': World, maxAttempts: int)
    requires Inv(w, maxAttempts) && w' == w.(books := w'.books) && LedgerRuns.Inv(w'.books)
    requires Grown(w.books.ledger, w'.books.ledger)
    ensures Inv(w', maxAttempts)
  {
    var l, l' := w.books.ledger, w'.books.ledger;
    PointStable(l, l');
    forall h | h in w.handlers ensures PhaseOk(l', maxAttempts, w.handlers[h]) {
      PhaseStable(l, l', maxAttempts, w.handlers[h]);
    }
    CarriedStays(w, w');
  }

  lemma GraphInv(w: World, act: LedgerRuns.Action, maxAttempts: int)
    requires Inv(w, maxAttempts) && LedgerRuns.Enabled(w.books, act)
    ensures Inv(w.(books := LedgerRuns.After(w.books, act)), maxAttempts)
  {
    BooksStep(w.books, act);
    GrownInv(w, w.(books := LedgerRuns.After(w.books, act)), maxAttempts);
  }

  lemma OpenInputInv(w: World, a: Action, maxAttempts: int)
    requires Inv(w, maxAttempts) && Can(w, a, maxAttempts) && a.OpenInput?
    ensures Inv(Next(w, a, maxAttempts), maxAttempts)
  {
    OpenInv(w, a.h, SubmittingInput(w.records[a.taskId], a.chosen), maxAttempts);
  }

  lemma OpenApprovalInv(w: World, a: Action, maxAttempts: int)
    requires Inv(w, maxAttempts) && Can(w, a, maxAttempts) && a.OpenApproval?
    ensures Inv(Next(w, a, maxAttempts), maxAttempts)
  {
    OpenInv(w, a.h, SubmittingApproval(w.records[a.taskId], a.planId, a.planVersion, a.actionId, a.decision, a.freshId), maxAttempts);
  }

  lemma OpenResumeInv(w: World, a: Action, maxAttempts: int)
    requires Inv(w, maxAttempts) && Can(w, a, maxAttempts) && a.OpenResume?
    ensures Inv(Next(w, a, maxAttempts), maxAttempts)
  {
    OpenInv(w, a.h, ResumeRead(w.records[a.taskId]), maxAttempts);
  }

  lemma StepInv(w: World, a: Action, maxAttempts: int)
    requires maxAttempts >= 1 && Inv(w, maxAttempts) && Can(w, a, maxAttempts)
    ensures Inv(Next(w, a, maxAttempts), maxAttempts)
  {
    match a
    case Create(h, t, merchantId, productId) => CreateInv(w, h, t, merchantId, productId, maxAttempts);
    case Local(h, e) =>
      LocalInv(w, h, e, maxAttempts,
               Move(w.handlers[h], e, w.records[TaskOf(w.handlers[h]).value], w.books.ledger, maxAttempts).value);
    case Deliver(h, m) => DeliverInv(w, h, m, maxAttempts);
    case Acquire(h) => AcquireInv(w, h, maxAttempts);
    case CheckLease(h) => CheckLeaseInv(w, h, maxAttempts, Next(w, a, maxAttempts).handlers[h]);
    case Graph(_, act) => GraphInv(w, act, maxAttempts);
    case Expire(t) => ExpireInv(w, t, maxAttempts);
    case OpenInput(_, _, _) => OpenInputInv(w, a, maxAttempts);
    case OpenApproval(_, _, _, _, _, _, _) => OpenApprovalInv(w, a, maxAttempts);
    case OpenResume(_, _) => OpenResumeInv(w, a, maxAttempts);
  }

  // ----- Runs -----

  ghost predicate Run(ws: seq<World>, actions: seq<Action>, maxAttempts: int) {
    && |ws| == |actions| + 1 && maxAttempts >= 1
    && Protocol.Init(ws[0])
    && forall i | 0 <= i < |actions| ::
         Can(ws[i], actions[i], maxAttempts) && ws[i + 1] == Next(ws[i], actions[i], maxAttempts)
  }

  lemma {:induction false} RunInv(ws: seq<World>, actions: seq<Action>, maxAttempts: int, i: nat)
    requires Run(ws, actions, maxAttempts) && i < |ws|
    ensures Inv(ws[i], maxAttempts)
  {
    if i == 0 {
      InitInv(ws[0], maxAttempts);
    } else {
      RunInv(ws, actions, maxAttempts, i - 1);
      StepInv(ws[i - 1], actions[i - 1], maxAttempts);
    }
  }
}
