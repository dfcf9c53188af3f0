/** A completed record in Redis is not final: exactly which steps overwrite it. */
module CompletedTasks {
  import opened Wrappers
  import opened Tables
  import opened Runs
  import opened Commerce
  import opened TaskRecords
  import opened Protocol
  import opened ProtocolInvariant
  import opened ProtocolSteps
  import opened ProtocolRuns
  import LedgerRuns

  predicate IsCompleted(w: World, t: string) {
    t in w.records && w.records[t].status.Completed?
  }

  /** The handler's next access is an unconditional save of a record that is not completed, and the save takes
    * effect. (A compare-and-set never expects the completed status.) */
  predicate Overwrites(p: Phase, e: Event) {
    && (e.Proceed? || e.RaiseAfter?)
    && (p.Resuming? || p.Unpublished? || p.Matched? || p.FailureRead? || p.RetryUnpublished?
        || (p.Finishing? && !p.task.status.Completed?))
  }

  lemma ApiOverwrites(p: Phase, e: Event, stored: TaskRecord, l: Ledger, maxAttempts: int, eff: Effect)
    requires IsApi(p) && PhaseOk(l, maxAttempts, p) && stored.status.Completed? && ApiMove(p, e, stored, l) == Some(eff)
    ensures eff.write.Some? && !eff.write.value.status.Completed? <==> Overwrites(p, e)
  {
  }

  lemma WorkerOverwrites(p: Phase, e: Event, stored: TaskRecord, l: Ledger, maxAttempts: int, eff: Effect)
    requires IsWorker(p) && PhaseOk(l, maxAttempts, p) && WorkerMove(p, e, stored, maxAttempts) == Some(eff)
    ensures eff.write.Some? && !eff.write.value.status.Completed? <==> Overwrites(p, e)
  {
  }

  lemma LocalOverwrites(w: World, h: nat, e: Event, maxAttempts: int, eff: Effect, t: string)
    requires LocalStep(w, h, e, maxAttempts, eff) && IsCompleted(w, t)
    ensures IsCompleted(LocalNext(w, h, e, eff), t)
       <==> !(TaskOf(w.handlers[h]) == Some(t) && Overwrites(w.handlers[h], e))
  {
    var p, l := w.handlers[h], w.books.ledger;
    LocalEffectOk(w, h, e, maxAttempts, eff);
    if TaskOf(p) == Some(t) && IsApi(p) {
      ApiOverwrites(p, e, w.records[t], l, maxAttempts, eff);
    } else if TaskOf(p) == Some(t) {
      WorkerOverwrites(p, e, w.records[t], l, maxAttempts, eff);
    }
    LocalApplies(w, h, e, eff, TaskOf(p).value);
  }

  /** The step overwrites the record of this task. */
  predicate StepOverwrites(w: World, a: Action, t: string) {
    a.Local? && a.h in w.handlers && TaskOf(w.handlers[a.h]) == Some(t) && Overwrites(w.handlers[a.h], a.event)
  }

  lemma StaysUnless(w: World, a: Action, maxAttempts: int, t: string)
    requires maxAttempts >= 1 && Inv(w, maxAttempts) && Can(w, a, maxAttempts) && IsCompleted(w, t)
    ensures IsCompleted(Next(w, a, maxAttempts), t) <==> !StepOverwrites(w, a, t)
  {
    if a.Local? {
      LocalOverwrites(w, a.h, a.event, maxAttempts,
        Move(w.handlers[a.h], a.event, w.records[TaskOf(w.handlers[a.h]).value], w.books.ledger, maxAttempts).value, t);
    } else {
      OthersWriteNothing(w, a, maxAttempts, t);
    }
  }

  lemma OthersWriteNothing(w: World, a: Action, maxAttempts: int, t: string)
    requires Can(w, a, maxAttempts) && !a.Local? && t in w.records
    ensures t in Next(w, a, maxAttempts).records && Next(w, a, maxAttempts).records[t] == w.records[t]
  {
  }

  /** In every run, a record that is completed stays completed exactly as long as no handler of its task - a
    * failed worker, a duplicate's, a stale one, or an API handler with an old copy - saves over it. */
  lemma CompletedStaysIff(ws: seq<World>, actions: seq<Action>, maxAttempts: int, i: nat, j: nat, t: string)
    requires Run(ws, actions, maxAttempts) && i <= j < |ws| && IsCompleted(ws[i], t)
    ensures (forall k | i <= k <= j :: IsCompleted(ws[k], t)) <==> (forall k | i <= k < j :: !StepOverwrites(ws[k], actions[k], t))
  {
    var holds := seq(|ws|, k requires 0 <= k < |ws| => IsCompleted(ws[k], t));
    var breaks := seq(|actions|, k requires 0 <= k < |actions| => StepOverwrites(ws[k], actions[k], t));
    forall k | i <= k < j && holds[k] ensures holds[k + 1] <==> !breaks[k] {
      RunStaysUnless(ws, actions, maxAttempts, k, t);
    }
    Throughout(holds, breaks, i, j);
    forall k | i <= k <= j ensures IsCompleted(ws[k], t) == holds[k] {
    }
    forall k | i <= k < j ensures StepOverwrites(ws[k], actions[k], t) == breaks[k] {
    }
  }

  lemma RunStaysUnless(ws: seq<World>, actions: seq<Action>, maxAttempts: int, i: nat, t: string)
    requires Run(ws, actions, maxAttempts) && i < |actions| && IsCompleted(ws[i], t)
    ensures IsCompleted(ws[i + 1], t) <==> !StepOverwrites(ws[i], actions[i], t)
  {
    RunInv(ws, actions, maxAttempts, i);
    StaysUnless(ws[i], actions[i], maxAttempts, t);
  }
}
