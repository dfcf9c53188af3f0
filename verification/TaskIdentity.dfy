/** A task stays its merchant's, although handlers overwrite whole records with copies they read long ago. */
module TaskIdentity {
  import opened Wrappers
  import opened Tables
  import opened Runs
  import opened Commerce
  import opened TaskRecords
  import opened Protocol
  import opened ProtocolInvariant
  import opened ProtocolRuns
  import LedgerRuns

  /** The record copies a handler has in memory. */
  function Copies(p: Phase): set<TaskRecord> {
    (if p.SubmittingInput? || p.SubmittingApproval? || p.ApprovalRecorded? || p.ResumeRead? || p.Resuming?
        || p.Matched? || p.Started? || p.Finishing? || p.FailureRead? then {p.task} else {})
    + (if p.Publishing? || p.Unpublished? || p.Retrying'? || p.RetryUnpublished? then {p.failed} else {})
  }

  predicate AllOf(copies: set<TaskRecord>, t: string, merchantId: string) {
    forall c | c in copies :: c.taskId == t && c.merchantId == merchantId
  }

  /** Every copy under way is of the merchant that the stored record has. */
  ghost predicate SameMerchants(w: World) {
    forall h | h in w.handlers && TaskOf(w.handlers[h]).Some? ::
      && TaskOf(w.handlers[h]).value in w.records
      && AllOf(Copies(w.handlers[h]), TaskOf(w.handlers[h]).value, w.records[TaskOf(w.handlers[h]).value].merchantId)
  }

  lemma ApiKeeps(p: Phase, e: Event, stored: TaskRecord, l: Ledger, eff: Effect, t: string, merchantId: string)
    requires IsApi(p) && ApiMove(p, e, stored, l) == Some(eff) && AllOf(Copies(p), t, merchantId)
    ensures AllOf(Copies(eff.next), t, merchantId)
    ensures eff.write.Some? ==> eff.write.value.taskId == t && eff.write.value.merchantId == merchantId
  {
  }

  lemma WorkerKeeps(p: Phase, e: Event, stored: TaskRecord, maxAttempts: int, eff: Effect, t: string, merchantId: string)
    requires IsWorker(p) && WorkerMove(p, e, stored, maxAttempts) == Some(eff) && AllOf(Copies(p), t, merchantId)
    requires stored.taskId == t && stored.merchantId == merchantId
    ensures AllOf(Copies(eff.next), t, merchantId)
    ensures eff.write.Some? ==> eff.write.value.taskId == t && eff.write.value.merchantId == merchantId
  {
  }

  /** Every record of before is there afterwards, with its merchant. */
  predicate KeepsMerchants(w: World, w': World) {
    forall t | t in w.records :: t in w'.records && w'.records[t].merchantId == w.records[t].merchantId
  }

  lemma EffectKeeps(w: World, w': World, h: nat, eff: Effect, t: string, l: Ledger, maxAttempts: int)
    requires SameMerchants(w) && EffectApplied(w, w', h, eff, t) && t in w.records && EffectOk(l, maxAttempts, t, eff)
    requires AllOf(Copies(eff.next), t, w.records[t].merchantId)
    requires eff.write.Some? ==> eff.write.value.merchantId == w.records[t].merchantId
    ensures SameMerchants(w') && KeepsMerchants(w, w')
  {
    forall g | g in w'.handlers && TaskOf(w'.handlers[g]).Some?
      ensures TaskOf(w'.handlers[g]).value in w'.records
      ensures AllOf(Copies(w'.handlers[g]), TaskOf(w'.handlers[g]).value, w'.records[TaskOf(w'.handlers[g]).value].merchantId)
    {
      if g != h {
        assert w'.handlers[g] == w.handlers[g];
      }
    }
  }

  lemma LocalKeeps(w: World, h: nat, e: Event, maxAttempts: int, eff: Effect)
    requires LocalStep(w, h, e, maxAttempts, eff) && SameMerchants(w)
    ensures SameMerchants(LocalNext(w, h, e, eff)) && KeepsMerchants(w, LocalNext(w, h, e, eff))
  {
    var p, t := w.handlers[h], TaskOf(w.handlers[h]).value;
    if IsApi(p) {
      ApiKeeps(p, e, w.records[t], w.books.ledger, eff, t, w.records[t].merchantId);
    } else {
      WorkerKeeps(p, e, w.records[t], maxAttempts, eff, t, w.records[t].merchantId);
    }
    LocalEffectOk(w, h, e, maxAttempts, eff);
    LocalApplies(w, h, e, eff, t);
    EffectKeeps(w, LocalNext(w, h, e, eff), h, eff, t, LedgerThen(w.books.ledger, eff.act), maxAttempts);
  }

  lemma CreateKeeps(w: World, h: nat, task: TaskRecord)
    requires SameMerchants(w) && task.taskId !in w.records && h !in w.handlers
    ensures SameMerchants(CreateNext(w, h, task)) && KeepsMerchants(w, CreateNext(w, h, task))
  {
  }

  lemma AcquireKeeps(w: World, h: nat)
    requires SameMerchants(w) && h in w.handlers && w.handlers[h].Delivered?
    ensures SameMerchants(AcquireNext(w, h, w.handlers[h].d)) && KeepsMerchants(w, AcquireNext(w, h, w.handlers[h].d))
  {
  }

  lemma DeliverKeeps(w: World, h: nat, m: QueueMessage)
    requires SameMerchants(w) && m.taskId in w.records
    ensures SameMerchants(DeliverNext(w, h, m)) && KeepsMerchants(w, DeliverNext(w, h, m))
  {
  }

  /** A handler gets a phase with no copy, or with one of the record that is stored or of the one it has. */
  lemma WithKeeps(w: World, h: nat, p: Phase, t: string)
    requires SameMerchants(w) && t in w.records
    requires TaskOf(p).Some? ==> TaskOf(p) == Some(t) && AllOf(Copies(p), t, w.records[t].merchantId)
    ensures SameMerchants(With(w, h, p)) && KeepsMerchants(w, With(w, h, p))
  {
  }

  lemma CheckKeeps(w: World, h: nat)
    requires SameMerchants(w) && h in w.handlers && w.handlers[h].ResumeRead?
    ensures forall p | p == Resuming(w.handlers[h].task) || p == Done ::
      SameMerchants(With(w, h, p)) && KeepsMerchants(w, With(w, h, p))
  {
    var task := w.handlers[h].task;
    assert task in Copies(w.handlers[h]);
    forall p | p == Resuming(task) || p == Done ensures SameMerchants(With(w, h, p)) && KeepsMerchants(w, With(w, h, p)) {
      WithKeeps(w, h, p, task.taskId);
    }
  }

  /** The ledger, the leases and the start of graphs have nothing to do with it. */
  lemma SameRecordsKeep(w: World, w': World)
    requires SameMerchants(w) && w'.records == w.records && w'.handlers == w.handlers
    ensures SameMerchants(w') && KeepsMerchants(w, w')
  {
  }

  lemma OpensKeep(w: World, a: Action, maxAttempts: int)
    requires Can(w, a, maxAttempts) && SameMerchants(w) && (a.OpenInput? || a.OpenApproval? || a.OpenResume?)
    requires a.taskId in w.records && w.records[a.taskId].taskId == a.taskId
    ensures SameMerchants(Next(w, a, maxAttempts)) && KeepsMerchants(w, Next(w, a, maxAttempts))
  {
    var task := w.records[a.taskId];
    match a
    case OpenInput(h, t, productId) => WithKeeps(w, h, SubmittingInput(task, productId), t);
    case OpenApproval(h, t, planId, planVersion, actionId, decision, freshId) =>
      WithKeeps(w, h, SubmittingApproval(task, planId, planVersion, actionId, decision, freshId), t);
    case OpenResume(h, t) => WithKeeps(w, h, ResumeRead(task), t);
  }

  lemma OtherKeeps(w: World, a: Action, maxAttempts: int)
    requires Can(w, a, maxAttempts) && !a.Local? && SameMerchants(w)
    requires RecordsOk(w, maxAttempts) && QueueOk(w, maxAttempts)
    ensures SameMerchants(Next(w, a, maxAttempts)) && KeepsMerchants(w, Next(w, a, maxAttempts))
  {
    match a {
      case Create(h, taskId, merchantId, productId) => CreateKeeps(w, h, NewTask(taskId, merchantId, productId));
      case Deliver(h, m) => DeliverKeeps(w, h, m);
      case Acquire(h) => AcquireKeeps(w, h);
      case CheckLease(h) => CheckKeeps(w, h);
      case Graph(_, _) => SameRecordsKeep(w, Next(w, a, maxAttempts));
      case Expire(_) => SameRecordsKeep(w, Next(w, a, maxAttempts));
      case _ => OpensKeep(w, a, maxAttempts);
    }
  }

  lemma StepKeeps(ws: seq<World>, actions: seq<Action>, maxAttempts: int, i: nat)
    requires Run(ws, actions, maxAttempts) && i < |actions| && SameMerchants(ws[i])
    ensures SameMerchants(ws[i + 1]) && KeepsMerchants(ws[i], ws[i + 1])
  {
    var w, a := ws[i], actions[i];
    RunInv(ws, actions, maxAttempts, i);
    if a.Local? {
      LocalKeeps(w, a.h, a.event, maxAttempts,
        Move(w.handlers[a.h], a.event, w.records[TaskOf(w.handlers[a.h]).value], w.books.ledger, maxAttempts).value);
    } else {
      OtherKeeps(w, a, maxAttempts);
    }
  }

  lemma RunSameMerchants(ws: seq<World>, actions: seq<Action>, maxAttempts: int, i: nat)
    requires Run(ws, actions, maxAttempts) && i < |ws|
    ensures SameMerchants(ws[i])
  {
    var holds := seq(|ws|, k requires 0 <= k < |ws| => SameMerchants(ws[k]));
    forall k | 0 <= k < i && holds[k] ensures holds[k + 1] {
      StepKeeps(ws, actions, maxAttempts, k);
    }
    AllAlong(holds, 0, i);
    assert holds[i];
  }

  ghost predicate IsOf(w: World, t: string, merchantId: string) {
    t in w.records && w.records[t].merchantId == merchantId
  }

  /** No step of any run, stale overwrites included, takes a task from its merchant or away. */
  lemma MerchantStays(ws: seq<World>, actions: seq<Action>, maxAttempts: int, i: nat, j: nat, t: string)
    requires Run(ws, actions, maxAttempts) && i <= j < |ws| && t in ws[i].records
    ensures t in ws[j].records && ws[j].records[t].merchantId == ws[i].records[t].merchantId
  {
    var merchantId := ws[i].records[t].merchantId;
    var holds := seq(|ws|, k requires 0 <= k < |ws| => IsOf(ws[k], t, merchantId));
    forall k | i <= k < j && holds[k] ensures holds[k + 1] {
      RunSameMerchants(ws, actions, maxAttempts, k);
      StepKeeps(ws, actions, maxAttempts, k);
    }
    AllAlong(holds, i, j);
    assert holds[j];
  }
}
