/** Tasks that wait for a message nobody will send: when that happens, exactly, and that it is for good. */
module StrandedTasks {
  import opened Wrappers
  import opened Tables
  import opened Runs
  import opened Commerce
  import opened TaskRecords
  import opened Protocol
  import opened ProtocolInvariant
  import opened ProtocolSteps
  import opened ProtocolRuns
  import LedgerRuns

  /** If a record promises that a message is on its way, that message is in the queue, or a handler still
    * holds or is about to publish it, or else a handler was stopped between saving that record and publishing. */
  lemma NotStranded(ws: seq<World>, actions: seq<Action>, maxAttempts: int, i: nat, t: string)
    requires Run(ws, actions, maxAttempts) && i < |ws| && t in ws[i].records && Runnable(ws[i].records[t])
    ensures ws[i].records[t].pendingAttempt.Some?
    ensures var w, m := ws[i], PendingMessage(ws[i].records[t]);
      (forall h | h in w.handlers :: w.handlers[h] != Lost(m)) ==>
        m in w.queue || exists h | h in w.handlers :: Carries(w.handlers[h], m)
  {
    RunInv(ws, actions, maxAttempts, i);
  }

  // ----- Losing a message -----

  /** The handler stops here although a record it has saved waits for a message it has not published: its
    * process dies, or Redis (the record, or the event between save and publish) fails at the wrong moment. A
    * compare-and-set that finds another status saves nothing and loses nothing. */
  predicate LosesMessage(p: Phase, e: Event, stored: TaskRecord) {
    match p
    case SubmittingInput(_, _) => e.RaiseAfter? && stored.status.AwaitingInput?
    case ApprovalRecorded(task, _) => e.RaiseAfter? && stored.status == ExpectedStatus(task)
    case Resuming(_) => e.RaiseAfter?
    case Publishing(_, _) => e.Crash?
    case Unpublished(_, _) => e.Raise? || e.Crash?
    case FailureRead(_, task, _) => e.RaiseAfter? && task.status.Retrying?
    case Retrying'(_, _, _) => e.Crash?
    case RetryUnpublished(_, _, _) => e.Raise? || e.Crash?
    case _ => false
  }

  /** The message such a handler would have published. */
  function MessageToCome(p: Phase): Option<QueueMessage> {
    match p
    case SubmittingInput(task, productId) => Some(InputMessage(task, productId))
    case ApprovalRecorded(task, approvalId) => Some(ApprovalMessage(task, approvalId))
    case Resuming(task) => Some(ResumeMessage(task))
    case Publishing(_, m) => Some(m)
    case Unpublished(_, m) => Some(m)
    case FailureRead(_, _, retry) => Some(retry)
    case Retrying'(_, _, retry) => Some(retry)
    case RetryUnpublished(_, _, retry) => Some(retry)
    case _ => None
  }

  /** A handler ends as lost exactly by such a step, and with that message. */
  lemma ApiLoses(p: Phase, e: Event, stored: TaskRecord, l: Ledger, eff: Effect)
    requires IsApi(p) && ApiMove(p, e, stored, l) == Some(eff)
    ensures eff.next.Lost? <==> LosesMessage(p, e, stored)
    ensures eff.next.Lost? ==> MessageToCome(p) == Some(eff.next.message)
  {
  }

  lemma CrashLoses(p: Phase, e: Event, stored: TaskRecord, maxAttempts: int, eff: Effect)
    requires IsWorker(p) && (e.Crash? || e.Redeliver?) && WorkerMove(p, e, stored, maxAttempts) == Some(eff)
    ensures eff.next.Lost? <==> LosesMessage(p, e, stored)
    ensures eff.next.Lost? ==> MessageToCome(p) == Some(eff.next.message)
  {
  }

  lemma WorkerLoses(p: Phase, e: Event, stored: TaskRecord, maxAttempts: int, eff: Effect)
    requires IsWorker(p) && !e.Crash? && !e.Redeliver? && WorkerMove(p, e, stored, maxAttempts) == Some(eff)
    ensures eff.next.Lost? <==> LosesMessage(p, e, stored)
    ensures eff.next.Lost? ==> MessageToCome(p) == Some(eff.next.message)
  {
  }

  lemma MoveLoses(p: Phase, e: Event, stored: TaskRecord, l: Ledger, maxAttempts: int, eff: Effect)
    requires Move(p, e, stored, l, maxAttempts) == Some(eff)
    ensures eff.next.Lost? <==> LosesMessage(p, e, stored)
    ensures eff.next.Lost? ==> MessageToCome(p) == Some(eff.next.message)
  {
    if IsApi(p) {
      ApiLoses(p, e, stored, l, eff);
    } else if e.Crash? || e.Redeliver? {
      CrashLoses(p, e, stored, maxAttempts, eff);
    } else {
      WorkerLoses(p, e, stored, maxAttempts, eff);
    }
  }

  // ----- When the message a record waits for is gone -----

  /** The message is in the queue, or a handler will still publish it, hand it back or overwrite the record. */
  ghost predicate Held(w: World, m: QueueMessage) {
    m in w.queue || exists h | h in w.handlers :: Carries(w.handlers[h], m)
  }

  ghost predicate HeldByOthers(w: World, h: nat, m: QueueMessage) {
    m in w.queue || exists g | g in w.handlers && g != h :: Carries(w.handlers[g], m)
  }

  predicate WaitsFor(task: TaskRecord, m: QueueMessage) {
    Runnable(task) && task.pendingAttempt.Some? && PendingMessage(task) == m
  }

  /** If the task's record promises a message, it is held somewhere. */
  ghost predicate HeldFor(w: World, t: string) {
    t in w.records && Runnable(w.records[t]) ==>
      w.records[t].pendingAttempt.Some? && Held(w, PendingMessage(w.records[t]))
  }

  /** The step loses a message that the task's record waits for, or is just being made to wait for, and that
    * nobody else holds. */
  ghost predicate Strands(w: World, a: Action, t: string) {
    && a.Local? && a.h in w.handlers && TaskOf(w.handlers[a.h]) == Some(t) && t in w.records
    && var p, stored := w.handlers[a.h], w.records[t];
    && LosesMessage(p, a.event, stored)
    && MessageToCome(p).Some?
    && (p.SubmittingInput? || p.ApprovalRecorded? || p.Resuming? || p.FailureRead? || WaitsFor(stored, MessageToCome(p).value))
    && !HeldByOthers(w, a.h, MessageToCome(p).value)
  }

  /** What a step passes on is held afterwards; what it loses, only if others hold it. */
  lemma PassedOn(w: World, w': World, h: nat, eff: Effect, m: QueueMessage)
    requires MovesOn(w, w', h, eff) && Passes(eff, m)
    requires eff.next == Lost(m) ==> HeldByOthers(w, h, m)
    ensures Held(w', m)
  {
    assert w'.handlers[h] == eff.next;
    if eff.next == Lost(m) && m !in w.queue {
      var g :| g in w.handlers && g != h && Carries(w.handlers[g], m);
      assert w'.handlers[g] == w.handlers[g];
    }
  }

  lemma OthersKeep(w: World, w': World, h: nat, eff: Effect, m: QueueMessage)
    requires MovesOn(w, w', h, eff) && HeldByOthers(w, h, m)
    ensures Held(w', m)
  {
    if m !in w.queue {
      var g :| g in w.handlers && g != h && Carries(w.handlers[g], m);
      assert w'.handlers[g] == w.handlers[g];
    }
  }

  lemma LostUnheld(w: World, w': World, h: nat, eff: Effect, m: QueueMessage)
    requires MovesOn(w, w', h, eff) && eff.next == Lost(m) && m !in eff.sends && !HeldByOthers(w, h, m)
    ensures !Held(w', m)
  {
    forall g | g in w'.handlers ensures !Carries(w'.handlers[g], m) {
      assert g != h ==> w'.handlers[g] == w.handlers[g];
    }
  }

  lemma LosingWriter(p: Phase, e: Event, stored: TaskRecord, l: Ledger, maxAttempts: int, eff: Effect)
    requires Move(p, e, stored, l, maxAttempts) == Some(eff) && eff.next.Lost?
    ensures eff.write.Some? <==> p.SubmittingInput? || p.ApprovalRecorded? || p.Resuming? || p.FailureRead?
  {
  }

  /** What a losing step leaves: a record that waits for the message, and no new copy of it. */
  lemma LosingLeaves(p: Phase, e: Event, stored: TaskRecord, l: Ledger, maxAttempts: int, eff: Effect)
    requires Move(p, e, stored, l, maxAttempts) == Some(eff) && LosesMessage(p, e, stored) && PhaseOk(l, maxAttempts, p)
    ensures eff.next.Lost? && MessageToCome(p) == Some(eff.next.message) && eff.next.message !in eff.sends
    ensures eff.write.Some? ==> WaitsFor(eff.write.value, eff.next.message)
  {
  }

  /** The record a handler writes is held after the step, if the step does not strand it. */
  lemma OwnHeld(w: World, h: nat, e: Event, maxAttempts: int, eff: Effect, w': World)
    requires LocalStep(w, h, e, maxAttempts, eff) && MovesOn(w, w', h, eff)
    requires !Strands(w, Local(h, e), TaskOf(w.handlers[h]).value)
    requires eff.write.Some? && Runnable(eff.write.value)
    ensures eff.write.value.pendingAttempt.Some? && Held(w', PendingMessage(eff.write.value))
  {
    var p, l := w.handlers[h], w.books.ledger;
    var stored := w.records[TaskOf(p).value];
    WriterCarries(p, e, stored, l, maxAttempts, eff);
    var m := PendingMessage(eff.write.value);
    if eff.next == Lost(m) {
      MoveLoses(p, e, stored, l, maxAttempts, eff);
      LosingWriter(p, e, stored, l, maxAttempts, eff);
    }
    PassedOn(w, w', h, eff, m);
  }

  /** A record that is not written is held as before. */
  lemma OldHeld(w: World, h: nat, e: Event, maxAttempts: int, eff: Effect, w': World, t: string, m: QueueMessage)
    requires LocalStep(w, h, e, maxAttempts, eff) && MovesOn(w, w', h, eff) && !Strands(w, Local(h, e), t)
    requires t in w.records && (eff.write.None? || t != TaskOf(w.handlers[h]).value)
    requires WaitsFor(w.records[t], m) && Held(w, m)
    ensures Held(w', m)
  {
    var p, l := w.handlers[h], w.books.ledger;
    assert m.taskId == t;
    if HeldByOthers(w, h, m) {
      OthersKeep(w, w', h, eff, m);
    } else {
      assert Carries(p, m);
      CarrierTask(p, l, maxAttempts, m);
      CarrierPasses(p, e, w.records[t], l, maxAttempts, eff, m);
      if eff.next == Lost(m) {
        MoveLoses(p, e, w.records[t], l, maxAttempts, eff);
      }
      PassedOn(w, w', h, eff, m);
    }
  }

  lemma LocalHeld(w: World, h: nat, e: Event, maxAttempts: int, eff: Effect, w': World, t: string)
    requires LocalStep(w, h, e, maxAttempts, eff) && HeldFor(w, t) && !Strands(w, Local(h, e), t)
    requires EffectApplied(w, w', h, eff, TaskOf(w.handlers[h]).value)
    ensures HeldFor(w', t)
  {
    if t in w'.records && Runnable(w'.records[t]) {
      if eff.write.Some? && t == TaskOf(w.handlers[h]).value {
        OwnHeld(w, h, e, maxAttempts, eff, w');
      } else {
        OldHeld(w, h, e, maxAttempts, eff, w', t, PendingMessage(w.records[t]));
      }
    }
  }

  lemma LocalStrands(w: World, h: nat, e: Event, maxAttempts: int, eff: Effect, w': World, t: string)
    requires LocalStep(w, h, e, maxAttempts, eff) && Strands(w, Local(h, e), t)
    requires EffectApplied(w, w', h, eff, t)
    ensures !HeldFor(w', t)
  {
    var p, l := w.handlers[h], w.books.ledger;
    LosingLeaves(p, e, w.records[t], l, maxAttempts, eff);
    LosingWriter(p, e, w.records[t], l, maxAttempts, eff);
    LostUnheld(w, w', h, eff, eff.next.message);
    assert WaitsFor(w'.records[t], eff.next.message);
  }

  lemma LocalHeldIff(w: World, h: nat, e: Event, maxAttempts: int, eff: Effect, t: string)
    requires LocalStep(w, h, e, maxAttempts, eff) && HeldFor(w, t)
    ensures HeldFor(LocalNext(w, h, e, eff), t) <==> !Strands(w, Local(h, e), t)
  {
    LocalEffectOk(w, h, e, maxAttempts, eff);
    LocalApplies(w, h, e, eff, TaskOf(w.handlers[h]).value);
    if Strands(w, Local(h, e), t) {
      LocalStrands(w, h, e, maxAttempts, eff, LocalNext(w, h, e, eff), t);
    } else {
      LocalHeld(w, h, e, maxAttempts, eff, LocalNext(w, h, e, eff), t);
    }
  }

  /** What is held stays held when handlers are only added or keep what they carry. */
  lemma HeldStays(w: World, w': World, t: string)
    requires HeldFor(w, t) && w'.records == w.records
    requires forall h, m | h in w.handlers && Carries(w.handlers[h], m) :: h in w'.handlers && Carries(w'.handlers[h], m)
    requires forall m | m in w.queue :: Held(w', m)
    ensures HeldFor(w', t)
  {
  }

  lemma CreateHeld(w: World, h: nat, task: TaskRecord, t: string)
    requires HeldFor(w, t) && h !in w.handlers && task.taskId !in w.records
    requires task == NewTask(task.taskId, task.merchantId, task.productId)
    ensures HeldFor(CreateNext(w, h, task), t)
  {
    var w' := CreateNext(w, h, task);
    if t == task.taskId {
      assert Carries(w'.handlers[h], PendingMessage(task));
    } else if t in w.records && Runnable(w.records[t]) && PendingMessage(w.records[t]) !in w.queue {
      var g :| g in w.handlers && Carries(w.handlers[g], PendingMessage(w.records[t]));
      assert w'.handlers[g] == w.handlers[g];
    }
  }

  lemma DeliverHeld(w: World, h: nat, m: QueueMessage, t: string)
    requires HeldFor(w, t) && h !in w.handlers && m in w.queue
    ensures HeldFor(DeliverNext(w, h, m), t)
  {
    var w' := DeliverNext(w, h, m);
    forall x | x in w.queue ensures Held(w', x) {
      if x == m {
        assert Carries(w'.handlers[h], x);
      }
    }
    HeldStays(w, w', t);
  }

  lemma AcquireHeld(w: World, h: nat, t: string)
    requires HeldFor(w, t) && h in w.handlers && w.handlers[h].Delivered?
    ensures HeldFor(AcquireNext(w, h, w.handlers[h].d), t)
  {
    HeldStays(w, AcquireNext(w, h, w.handlers[h].d), t);
  }

  lemma SetHeld(w: World, h: nat, p: Phase, t: string)
    requires HeldFor(w, t) && (h in w.handlers ==> w.handlers[h].ResumeRead?)
    ensures HeldFor(With(w, h, p), t)
  {
    HeldStays(w, With(w, h, p), t);
  }

  lemma OpenHeld(w: World, a: Action, maxAttempts: int, t: string)
    requires HeldFor(w, t) && Can(w, a, maxAttempts) && (a.OpenInput? || a.OpenApproval? || a.OpenResume? || a.CheckLease?)
    ensures HeldFor(Next(w, a, maxAttempts), t)
  {
    SetHeld(w, a.h, Next(w, a, maxAttempts).handlers[a.h], t);
    assert Next(w, a, maxAttempts) == With(w, a.h, Next(w, a, maxAttempts).handlers[a.h]);
  }

  /** Leases and ledger do not matter. */
  lemma AsideHeld(w: World, w': World, t: string)
    requires HeldFor(w, t) && w'.records == w.records && w'.queue == w.queue && w'.handlers == w.handlers
    ensures HeldFor(w', t)
  {
    HeldStays(w, w', t);
  }

  /** A step that is not a handler's own loses nothing. */
  lemma OtherHeld(w: World, a: Action, maxAttempts: int, t: string)
    requires Can(w, a, maxAttempts) && HeldFor(w, t) && !a.Local?
    ensures HeldFor(Next(w, a, maxAttempts), t)
  {
    match a
    case Create(h, x, merchantId, productId) => CreateHeld(w, h, NewTask(x, merchantId, productId), t);
    case Deliver(h, m) => DeliverHeld(w, h, m, t);
    case Acquire(h) => AcquireHeld(w, h, t);
    case Graph(_, _) => AsideHeld(w, Next(w, a, maxAttempts), t);
    case Expire(_) => AsideHeld(w, Next(w, a, maxAttempts), t);
    case _ => OpenHeld(w, a, maxAttempts, t);
  }

  lemma StepHeld(w: World, a: Action, maxAttempts: int, t: string)
    requires maxAttempts >= 1 && Inv(w, maxAttempts) && Can(w, a, maxAttempts) && HeldFor(w, t)
    ensures HeldFor(Next(w, a, maxAttempts), t) <==> !Strands(w, a, t)
  {
    if a.Local? {
      LocalHeldIff(w, a.h, a.event, maxAttempts,
        Move(w.handlers[a.h], a.event, w.records[TaskOf(w.handlers[a.h]).value], w.books.ledger, maxAttempts).value, t);
    } else {
      OtherHeld(w, a, maxAttempts, t);
    }
  }

  /** In every run, for every task, whatever became of the others: whenever its record promises a message, that
    * very message is in the queue or with a handler in all states up to here, if and only if no step up to here
    * lost a message that the record waits for and nobody else holds. */
  lemma HeldThroughoutIff(ws: seq<World>, actions: seq<Action>, maxAttempts: int, i: nat, t: string)
    requires Run(ws, actions, maxAttempts) && i < |ws|
    ensures (forall k | 0 <= k <= i :: HeldFor(ws[k], t)) <==> (forall k | 0 <= k < i :: !Strands(ws[k], actions[k], t))
  {
    var holds := seq(|ws|, k requires 0 <= k < |ws| => HeldFor(ws[k], t));
    var breaks := seq(|actions|, k requires 0 <= k < |actions| => Strands(ws[k], actions[k], t));
    StartsHeld(ws[0], t);
    forall k | 0 <= k < |breaks| && holds[k] ensures holds[k + 1] <==> !breaks[k] {
      RunStepHeld(ws, actions, maxAttempts, k, t);
    }
    Throughout(holds, breaks, 0, i);
    forall k | 0 <= k <= i ensures HeldFor(ws[k], t) == holds[k] {
    }
    forall k | 0 <= k < i ensures Strands(ws[k], actions[k], t) == breaks[k] {
    }
  }

  lemma StartsHeld(w: World, t: string)
    requires Protocol.Init(w)
    ensures HeldFor(w, t)
  {
  }

  lemma RunStepHeld(ws: seq<World>, actions: seq<Action>, maxAttempts: int, i: nat, t: string)
    requires Run(ws, actions, maxAttempts) && i < |actions| && HeldFor(ws[i], t)
    ensures HeldFor(ws[i + 1], t) <==> !Strands(ws[i], actions[i], t)
  {
    RunInv(ws, actions, maxAttempts, i);
    StepHeld(ws[i], actions[i], maxAttempts, t);
  }

  /** So a task never misses its message as long as none of its handlers stops between a save and its publish. */
  lemma NeverStranded(ws: seq<World>, actions: seq<Action>, maxAttempts: int, i: nat, t: string)
    requires Run(ws, actions, maxAttempts) && i < |ws| && t in ws[i].records && Runnable(ws[i].records[t])
    requires forall k | 0 <= k < i :: !LosesFor(ws[k], actions[k], t)
    ensures ws[i].records[t].pendingAttempt.Some? && Held(ws[i], PendingMessage(ws[i].records[t]))
  {
    HeldThroughoutIff(ws, actions, maxAttempts, i, t);
    forall k | 0 <= k < i ensures !Strands(ws[k], actions[k], t) {
      assert !LosesFor(ws[k], actions[k], t);
    }
  }

  /** A handler of the task loses its message. */
  predicate LosesFor(w: World, a: Action, t: string) {
    && a.Local? && a.h in w.handlers && TaskOf(w.handlers[a.h]) == Some(t) && t in w.records
    && LosesMessage(w.handlers[a.h], a.event, w.records[t])
  }

  // ----- Nothing gets a stranded task going again -----

  /** The record promises a message, and nothing is left that could deliver one or change the record. */
  ghost predicate Stranded(w: World, t: string) {
    && t in w.records && Runnable(w.records[t])
    && (forall m | m in w.queue :: m.taskId != t)
    && (forall h | h in w.handlers && TaskOf(w.handlers[h]) == Some(t) :: w.handlers[h].Lost?)
  }

  /** A handler of another task writes, sends and becomes nothing that concerns the stranded one. */
  lemma AppliedStranded(w: World, w': World, h: nat, eff: Effect, mine: string, t: string)
    requires Stranded(w, t) && EffectApplied(w, w', h, eff, mine) && mine != t && TaskOf(eff.next) != Some(t)
    requires forall m | m in eff.sends :: m.taskId != t
    ensures Stranded(w', t)
  {
  }

  lemma EffectStranded(w: World, w': World, h: nat, l: Ledger, maxAttempts: int, eff: Effect, mine: string, t: string)
    requires Stranded(w, t) && EffectApplied(w, w', h, eff, mine) && EffectOk(l, maxAttempts, mine, eff)
    requires TaskOf(w.handlers[h]) == Some(mine) && (IsApi(w.handlers[h]) || IsWorker(w.handlers[h]))
    ensures Stranded(w', t)
  {
    assert mine != t;
    AppliedStranded(w, w', h, eff, mine, t);
  }

  lemma LocalStranded(w: World, h: nat, e: Event, maxAttempts: int, eff: Effect, t: string)
    requires LocalStep(w, h, e, maxAttempts, eff) && Stranded(w, t)
    ensures Stranded(LocalNext(w, h, e, eff), t)
  {
    var mine := TaskOf(w.handlers[h]).value;
    LocalEffectOk(w, h, e, maxAttempts, eff);
    assert eff.write.Some? ==> eff.write.value.taskId == mine;
    LocalApplies(w, h, e, eff, mine);
    EffectStranded(w, LocalNext(w, h, e, eff), h, LedgerThen(w.books.ledger, eff.act), maxAttempts, eff, mine, t);
  }

  /** Nothing that a handler of another task is set to concerns the stranded one. */
  lemma WithStranded(w: World, h: nat, p: Phase, t: string)
    requires Stranded(w, t) && TaskOf(p) != Some(t)
    requires h in w.handlers ==> TaskOf(w.handlers[h]) != Some(t)
    ensures Stranded(With(w, h, p), t)
  {
  }

  lemma AcquireStranded(w: World, h: nat, t: string)
    requires Stranded(w, t) && h in w.handlers && w.handlers[h].Delivered?
    ensures Stranded(AcquireNext(w, h, w.handlers[h].d), t)
  {
  }

  lemma OpenStranded(w: World, a: Action, maxAttempts: int, t: string)
    requires Can(w, a, maxAttempts) && Stranded(w, t) && (a.OpenInput? || a.OpenApproval? || a.OpenResume?)
    requires forall x | x in w.records :: w.records[x].taskId == x
    ensures Stranded(Next(w, a, maxAttempts), t)
  {
    assert a.taskId != t;
    var p := match a
      case OpenInput(_, x, productId) => SubmittingInput(w.records[x], productId)
      case OpenApproval(_, x, planId, planVersion, actionId, decision, freshId) =>
        SubmittingApproval(w.records[x], planId, planVersion, actionId, decision, freshId)
      case OpenResume(_, x) => ResumeRead(w.records[x]);
    WithStranded(w, a.h, p, t);
  }

  lemma CheckLeaseStranded(w: World, h: nat, p: Phase, t: string)
    requires Stranded(w, t) && h in w.handlers && w.handlers[h].ResumeRead?
    requires p == Done || p == Resuming(w.handlers[h].task)
    ensures Stranded(With(w, h, p), t)
  {
    assert TaskOf(w.handlers[h]) != Some(t);
    WithStranded(w, h, p, t);
  }

  lemma OtherStranded(w: World, a: Action, maxAttempts: int, t: string)
    requires Can(w, a, maxAttempts) && Stranded(w, t) && !a.Local?
    requires forall x | x in w.records :: w.records[x].taskId == x
    ensures Stranded(Next(w, a, maxAttempts), t)
  {
    match a
    case Acquire(h) => AcquireStranded(w, h, t);
    case CheckLease(h) => CheckLeaseStranded(w, h, Next(w, a, maxAttempts).handlers[h], t);
    case Create(h, x, merchantId, productId) => CreateStranded(w, h, NewTask(x, merchantId, productId), t);
    case Deliver(h, m) => DeliverStranded(w, h, m, t);
    case Graph(_, _) =>
    case Expire(_) =>
    case _ => OpenStranded(w, a, maxAttempts, t);
  }

  /** No API call and no worker ever gets a stranded task going again. */
  lemma StrandedStays(w: World, a: Action, maxAttempts: int, t: string)
    requires maxAttempts >= 1 && Inv(w, maxAttempts) && Can(w, a, maxAttempts) && Stranded(w, t)
    ensures Stranded(Next(w, a, maxAttempts), t)
  {
    if a.Local? {
      LocalStranded(w, a.h, a.event, maxAttempts,
        Move(w.handlers[a.h], a.event, w.records[TaskOf(w.handlers[a.h]).value], w.books.ledger, maxAttempts).value, t);
    } else {
      OtherStranded(w, a, maxAttempts, t);
    }
  }

  lemma CreateStranded(w: World, h: nat, task: TaskRecord, t: string)
    requires Stranded(w, t) && h !in w.handlers && task.taskId != t
    ensures Stranded(CreateNext(w, h, task), t)
  {
  }

  lemma DeliverStranded(w: World, h: nat, m: QueueMessage, t: string)
    requires Stranded(w, t) && h !in w.handlers && m in w.queue
    ensures Stranded(DeliverNext(w, h, m), t)
  {
  }

  lemma RunStrandedStays(ws: seq<World>, actions: seq<Action>, maxAttempts: int, i: nat, t: string)
    requires Run(ws, actions, maxAttempts) && i < |actions| && Stranded(ws[i], t)
    ensures Stranded(ws[i + 1], t)
  {
    RunInv(ws, actions, maxAttempts, i);
    StrandedStays(ws[i], actions[i], maxAttempts, t);
  }

  lemma StrandedForever(ws: seq<World>, actions: seq<Action>, maxAttempts: int, i: nat, j: nat, t: string)
    requires Run(ws, actions, maxAttempts) && i <= j < |ws| && Stranded(ws[i], t)
    ensures Stranded(ws[j], t)
  {
    var holds := seq(|ws|, k requires 0 <= k < |ws| => Stranded(ws[k], t));
    forall k | i <= k < j && holds[k] ensures holds[k + 1] {
      RunStrandedStays(ws, actions, maxAttempts, k, t);
    }
    AllAlong(holds, i, j);
    assert holds[j];
  }

  /** A task is stranded only through a handler lost between saving this very record and its publish. */
  lemma StrandedByLoss(ws: seq<World>, actions: seq<Action>, maxAttempts: int, i: nat, t: string)
    requires Run(ws, actions, maxAttempts) && i < |ws| && Stranded(ws[i], t)
    ensures ws[i].records[t].pendingAttempt.Some?
    ensures exists h | h in ws[i].handlers :: ws[i].handlers[h] == Lost(PendingMessage(ws[i].records[t]))
  {
    RunInv(ws, actions, maxAttempts, i);
    LostHandler(ws[i], maxAttempts, t);
  }

  lemma LostHandler(w: World, maxAttempts: int, t: string)
    requires AllCarried(w) && HandlersOk(w, maxAttempts) && Stranded(w, t) && w.records[t].taskId == t
    ensures w.records[t].pendingAttempt.Some?
    ensures exists h | h in w.handlers :: w.handlers[h] == Lost(PendingMessage(w.records[t]))
  {
    var m := PendingMessage(w.records[t]);
    var h :| h in w.handlers && (Carries(w.handlers[h], m) || w.handlers[h] == Lost(m));
    CarrierTask(w.handlers[h], w.books.ledger, maxAttempts, m);
  }
}
