/** What holds in every reachable state of the task protocol. */
module ProtocolTheorems {
  import opened Wrappers
  import opened Tables
  import opened Runs
  import opened Commerce
  import opened TaskRecords
  import opened RecordRules
  import opened Protocol
  import opened ProtocolInvariant
  import opened ProtocolSteps
  import opened ProtocolRuns
  import LedgerRuns
  import LedgerTheorems

  // ----- Task records -----

  /** A record has no pending attempt exactly when the task waits for a person or has ended, and then it
    * shows no error. So a worker goes on with a message exactly if it is the one the record waits for and the
    * task has not failed, except at a publish; and `submit_approval` expects the very status it read. */
  lemma RecordInvariant(ws: seq<World>, actions: seq<Action>, maxAttempts: int, i: nat, t: string, m: QueueMessage)
    requires Run(ws, actions, maxAttempts) && i < |ws| && t in ws[i].records && m.taskId == t
    ensures var task := ws[i].records[t];
      && (task.pendingAttempt.None? <==> AtRest(task.status))
      && (AtRest(task.status) ==> task.error.None?)
      && (Accepts(task, m) <==> task.pendingAttempt.Some? && PendingMessage(task) == m
                                && (task.status == Failed ==> task.error == Some(QueuePublishFailed)))
      && (AcceptsApproval(task) ==> ExpectedStatus(task) == task.status)
  {
    RunInv(ws, actions, maxAttempts, i);
  }

  /** The same for the copy an approval handler holds when it comes to its compare-and-set. */
  lemma ApprovalExpectsWhatItRead(ws: seq<World>, actions: seq<Action>, maxAttempts: int, i: nat, h: nat)
    requires Run(ws, actions, maxAttempts) && i < |ws| && h in ws[i].handlers && ws[i].handlers[h].ApprovalRecorded?
    ensures ExpectedStatus(ws[i].handlers[h].task) == ws[i].handlers[h].task.status
  {
    RunInv(ws, actions, maxAttempts, i);
    assert PhaseOk(ws[i].books.ledger, maxAttempts, ws[i].handlers[h]);
  }

  // ----- Bounded retries -----

  /** Every message in the queue has an attempt below the maximum, and a retry that is about to be published
    * is one above the message it replaces and still below the maximum. */
  lemma RetryBound(ws: seq<World>, actions: seq<Action>, maxAttempts: int, i: nat)
    requires Run(ws, actions, maxAttempts) && i < |ws|
    ensures forall m | m in ws[i].queue :: 0 <= m.attempt < maxAttempts
    ensures forall h | h in ws[i].handlers && ws[i].handlers[h].Retrying'? ::
      0 <= ws[i].handlers[h].d.message.attempt < ws[i].handlers[h].retry.attempt
        == ws[i].handlers[h].d.message.attempt + 1 < maxAttempts
  {
    RunInv(ws, actions, maxAttempts, i);
    forall h | h in ws[i].handlers && ws[i].handlers[h].Retrying'?
      ensures 0 <= ws[i].handlers[h].d.message.attempt < ws[i].handlers[h].retry.attempt
                == ws[i].handlers[h].d.message.attempt + 1 < maxAttempts
    {
      assert PhaseOk(ws[i].books.ledger, maxAttempts, ws[i].handlers[h]);
    }
  }

  /** An answer of the merchant stays that answer however often it is retried: the retry a worker is about to
    * save, publish or give up carries the answer of the message that failed, and no other. */
  lemma RetriesKeepAnswers(ws: seq<World>, actions: seq<Action>, maxAttempts: int, i: nat, h: nat)
    requires Run(ws, actions, maxAttempts) && i < |ws| && h in ws[i].handlers
    requires ws[i].handlers[h].FailureRead? || ws[i].handlers[h].Retrying'? || ws[i].handlers[h].RetryUnpublished?
    ensures KeepsAnswer(ws[i].handlers[h].d.message, ws[i].handlers[h].retry)
  {
    RunInv(ws, actions, maxAttempts, i);
    PhaseKeepsAnswer(ws[i].books.ledger, maxAttempts, ws[i].handlers[h]);
  }

  lemma PhaseKeepsAnswer(l: Ledger, maxAttempts: int, p: Phase)
    requires PhaseOk(l, maxAttempts, p) && (p.FailureRead? || p.Retrying'? || p.RetryUnpublished?)
    ensures KeepsAnswer(p.d.message, p.retry)
  {
  }

  /** Which calls on a task get past their checks: an input while the task awaits one and for a product of its
    * merchant, a decision while it awaits one or after a failed publish, and a resume once it has failed or while
    * it shows as running, unless it shows a final error. */
  lemma OpensIff(w: World, h: nat, t: string, productId: string, planId: string, planVersion: int, actionId: string,
                 decision: ApprovalDecision, freshId: string, maxAttempts: int)
    requires h !in w.handlers && t in w.records
    ensures var task := w.records[t];
      && (Can(w, OpenInput(h, t, productId), maxAttempts)
          <==> task.status == AwaitingInput && Owns(w.books.ledger, task.merchantId, productId))
      && (Can(w, OpenApproval(h, t, planId, planVersion, actionId, decision, freshId), maxAttempts)
          <==> task.status == AwaitingApproval || (task.status == Failed && task.error == Some(QueuePublishFailed)))
      && (Can(w, OpenResume(h, t), maxAttempts)
          <==> (task.status == Failed || task.status == Running)
               && (task.error.Some? ==> task.error.value !in FINAL_ERRORS))
  {
    ResumableIff(w.records[t], false);
    AcceptsApprovalIff(w.records[t]);
  }

  /** A resume that comes to look at the lease has read a record without a final error, failed or running; it goes
    * on exactly if that had failed, or no lease is held. */
  lemma ResumeGoesOnIff(ws: seq<World>, actions: seq<Action>, maxAttempts: int, i: nat)
    requires Run(ws, actions, maxAttempts) && i < |actions| && actions[i].CheckLease?
    ensures var task := ws[i].handlers[actions[i].h].task;
      && (task.status == Failed || task.status == Running)
      && (task.error.Some? ==> task.error.value !in FINAL_ERRORS)
      && ws[i + 1].handlers[actions[i].h]
         == if task.status == Failed || task.taskId !in ws[i].leases then Resuming(task) else Done
  {
    RunInv(ws, actions, maxAttempts, i);
    var h := actions[i].h;
    assert PhaseOk(ws[i].books.ledger, maxAttempts, ws[i].handlers[h]);
    ResumableIff(ws[i].handlers[h].task, false);
    ResumableIff(ws[i].handlers[h].task, ws[i].handlers[h].task.taskId in ws[i].leases);
  }

  /** At step `k` of the run, handler `h` publishes the retry of a failed attempt. */
  predicate RetriesAt(ws: seq<World>, actions: seq<Action>, k: nat, h: nat) {
    && k < |actions| && k < |ws| && actions[k].Local? && actions[k].h == h
    && (actions[k].event.Proceed? || actions[k].event.RaiseAfter?)
    && h in ws[k].handlers && ws[k].handlers[h].Retrying'?
  }

  /** The message whose attempt failed, and the retry published for it. */
  function FailedMessage(ws: seq<World>, at: (nat, nat)): Option<QueueMessage> {
    if at.0 < |ws| && at.1 in ws[at.0].handlers && ws[at.0].handlers[at.1].Retrying'?
    then Some(ws[at.0].handlers[at.1].d.message) else None
  }

  function RetryPublished(ws: seq<World>, at: (nat, nat)): Option<QueueMessage> {
    if at.0 < |ws| && at.1 in ws[at.0].handlers && ws[at.0].handlers[at.1].Retrying'?
    then Some(ws[at.0].handlers[at.1].retry) else None
  }

  /** Steps of a run, each publishing the retry of a failed attempt at the message the one before it published. */
  ghost predicate RetryChain(ws: seq<World>, actions: seq<Action>, chain: seq<(nat, nat)>) {
    && (forall j | 0 <= j < |chain| :: RetriesAt(ws, actions, chain[j].0, chain[j].1))
    && (forall j | 0 < j < |chain| :: FailedMessage(ws, chain[j]) == RetryPublished(ws, chain[j - 1]))
  }

  /** Automatic retries end: a chain of them in a run is shorter than the attempts left to its first message. */
  lemma {:induction false} RetryChainFinite(ws: seq<World>, actions: seq<Action>, maxAttempts: int, chain: seq<(nat, nat)>)
    requires Run(ws, actions, maxAttempts) && RetryChain(ws, actions, chain) && chain != []
    ensures FailedMessage(ws, chain[0]).Some? && FailedMessage(ws, chain[0]).value.attempt >= 0
    ensures |chain| < maxAttempts - FailedMessage(ws, chain[0]).value.attempt
  {
    RetryBound(ws, actions, maxAttempts, chain[0].0);
    assert RetriesAt(ws, actions, chain[0].0, chain[0].1);
    if |chain| > 1 {
      RetryChainFinite(ws, actions, maxAttempts, chain[1..]);
      assert FailedMessage(ws, chain[1]) == RetryPublished(ws, chain[0]);
    }
  }

  // ----- Lossless resume -----

  /** Every record that failed at its publish gives back, when resumed, exactly the message it stands for. */
  lemma FailedPublishRecovers(ws: seq<World>, actions: seq<Action>, maxAttempts: int, i: nat, t: string)
    requires Run(ws, actions, maxAttempts) && i < |ws| && t in ws[i].records && PublishRecovery(ws[i].records[t])
    ensures ws[i].records[t].pendingAttempt.Some?
    ensures Recovers(ws[i].records[t], PendingMessage(ws[i].records[t]))
  {
    RunInv(ws, actions, maxAttempts, i);
  }

  /** Whoever's publish raised - create, input, approval, resume or worker retry - and however many resumes
    * fail the same way afterwards, the resume that gets through publishes the lost message. */
  lemma LostMessageIsResumed(ws: seq<World>, actions: seq<Action>, maxAttempts: int, i: nat, h: nat, times: nat)
    requires Run(ws, actions, maxAttempts) && i < |ws| && h in ws[i].handlers
    requires ws[i].handlers[h].Unpublished? || ws[i].handlers[h].RetryUnpublished?
    ensures var p := ws[i].handlers[h];
      ResumeMessage(FailedResumes(p.failed, times)) == (if p.Unpublished? then p.message else p.retry)
  {
    RunInv(ws, actions, maxAttempts, i);
    var p := ws[i].handlers[h];
    assert PhaseOk(ws[i].books.ledger, maxAttempts, p);
    LosslessResume(p.failed, if p.Unpublished? then p.message else p.retry, times);
  }

  /** A resume never publishes an attempt at the maximum or an approval of another task, and an answer the
    * merchant gave is resumed as that same answer, whatever the task failed of. */
  lemma ResumeKeepsAnswer(ws: seq<World>, actions: seq<Action>, maxAttempts: int, i: nat, t: string)
    requires Run(ws, actions, maxAttempts) && i < |ws| && t in ws[i].records && Resumable(ws[i].records[t], false)
    ensures var task, m := ws[i].records[t], ResumeMessage(ws[i].records[t]);
      && m.taskId == t && 0 <= m.attempt < maxAttempts
      && (m.kind == Some(ApprovalKind) ==> m.id.Some? && ApprovalKnown(ws[i].books.ledger, t, m.id.value))
      && (task.pendingKind.Some? ==> m.kind == task.pendingKind && m.id == task.pendingId)
  {
    RunInv(ws, actions, maxAttempts, i);
    ResumedOk(ws[i].books.ledger, maxAttempts, ws[i].records[t]);
  }

  // ----- No write without its own approval -----

  /** The messages a handler holds or is about to publish. */
  function InHand(p: Phase): set<QueueMessage> {
    (if IsWorker(p) then {p.d.message} else {})
    + (if p.Publishing? || p.Unpublished? || p.Lost? then {p.message} else {})
    + (if p.FailureRead? || p.Retrying'? || p.RetryUnpublished? then {p.retry} else {})
  }

  ghost predicate IsOwnApproval(l: Ledger, m: QueueMessage) {
    m.kind == Some(ApprovalKind) ==> m.id.Some? && ApprovalKnown(l, m.taskId, m.id.value)
  }

  /** Every approval message under way - in the queue, in a worker's hands, about to be published or lost - and
    * every approval a record waits for is recorded for its own task. */
  lemma ApprovalMessagesAreOwn(ws: seq<World>, actions: seq<Action>, maxAttempts: int, i: nat)
    requires Run(ws, actions, maxAttempts) && i < |ws|
    ensures forall m | m in ws[i].queue :: IsOwnApproval(ws[i].books.ledger, m)
    ensures forall h, m | h in ws[i].handlers && m in InHand(ws[i].handlers[h]) :: IsOwnApproval(ws[i].books.ledger, m)
    ensures forall t | t in ws[i].records && ws[i].records[t].pendingKind == Some(ApprovalKind) ::
      ws[i].records[t].pendingId.Some? && ApprovalKnown(ws[i].books.ledger, t, ws[i].records[t].pendingId.value)
  {
    RunInv(ws, actions, maxAttempts, i);
    forall h, m | h in ws[i].handlers && m in InHand(ws[i].handlers[h]) ensures IsOwnApproval(ws[i].books.ledger, m) {
      InHandOwn(ws[i].books.ledger, maxAttempts, ws[i].handlers[h], m);
    }
  }

  lemma InHandOwn(l: Ledger, maxAttempts: int, p: Phase, m: QueueMessage)
    requires PhaseOk(l, maxAttempts, p) && m in InHand(p)
    ensures IsOwnApproval(l, m)
  {
  }

  /** Receipt `r` was written for message `m`: it is an approval message of the receipt's own task, and that
    * approval approves. */
  ghost predicate WrittenFor(l: Ledger, l': Ledger, r: Receipt, m: QueueMessage) {
    && m.kind == Some(ApprovalKind) && m.id.Some?
    && LedgerTheorems.ReceiptOf(l', r, m.taskId)
    && exists a | a in l.approvals :: a.approvalId == m.id.value && a.taskId == m.taskId && a.decision == Approve
  }

  /** Handlers themselves write no receipt; only the graph does. */
  lemma OnlyGraphWrites(w: World, a: Action, maxAttempts: int)
    requires Can(w, a, maxAttempts) && !a.Graph?
    ensures Next(w, a, maxAttempts).books.ledger.receipts == w.books.ledger.receipts
  {
    if a.Local? {
      var p := w.handlers[a.h];
      var stored := w.records[TaskOf(p).value];
      var eff := Move(p, a.event, stored, w.books.ledger, maxAttempts).value;
      if eff.act.Some? {
        ActsFrom(p, a.event, stored, w.books.ledger, maxAttempts, eff);
        LedgerRuns.NoWrite(w.books, eff.act.value);
      }
    }
  }

  lemma StepWrites(w: World, a: Action, maxAttempts: int, r: Receipt)
    requires Inv(w, maxAttempts) && Can(w, a, maxAttempts)
    requires r in Next(w, a, maxAttempts).books.ledger.receipts && r !in w.books.ledger.receipts
    ensures a.Graph? && a.message in w.started && a.act.Apply?
    ensures WrittenFor(w.books.ledger, Next(w, a, maxAttempts).books.ledger, r, a.message)
  {
    if !a.Graph? {
      OnlyGraphWrites(w, a, maxAttempts);
    }
    AppliesOwn(w.books, a.act, a.message, r);
  }

  /** Whenever a receipt appears, the graph was started for an approval message of the very task the receipt is
    * for, with that task's approving decision, and applies it - whether its run is still going on or not. */
  lemma WriteByOwnApproval(ws: seq<World>, actions: seq<Action>, maxAttempts: int, i: nat, r: Receipt)
    requires Run(ws, actions, maxAttempts) && i < |actions|
    requires r in ws[i + 1].books.ledger.receipts && r !in ws[i].books.ledger.receipts
    ensures actions[i].Graph? && actions[i].message in ws[i].started && actions[i].act.Apply?
    ensures WrittenFor(ws[i].books.ledger, ws[i + 1].books.ledger, r, actions[i].message)
  {
    RunInv(ws, actions, maxAttempts, i);
    StepWrites(ws[i], actions[i], maxAttempts, r);
  }

  lemma StartsHere(w: World, a: Action, maxAttempts: int, m: QueueMessage) returns (h: nat)
    requires Can(w, a, maxAttempts) && m in Next(w, a, maxAttempts).started && m !in w.started
    ensures StartedAt(Next(w, a, maxAttempts), h, m)
  {
    h := a.h;
  }

  predicate StartedAt(w: World, h: nat, m: QueueMessage) {
    h in w.handlers && w.handlers[h].Started? && w.handlers[h].d.message == m
  }

  lemma StepStarts(ws: seq<World>, actions: seq<Action>, maxAttempts: int, i: nat, m: QueueMessage) returns (h: nat)
    requires Run(ws, actions, maxAttempts) && i < |actions| && m in ws[i + 1].started && m !in ws[i].started
    ensures StartedAt(ws[i + 1], h, m)
  {
    h := StartsHere(ws[i], actions[i], maxAttempts, m);
  }

  lemma NothingStarted(ws: seq<World>, actions: seq<Action>, maxAttempts: int)
    requires Run(ws, actions, maxAttempts)
    ensures ws[0].started == {}
  {
  }

  /** The graph is started for a message only by a worker that holds it, under the lease of its task. */
  lemma StartedByWorker(ws: seq<World>, actions: seq<Action>, maxAttempts: int, i: nat, m: QueueMessage)
    returns (k: nat, h: nat)
    requires Run(ws, actions, maxAttempts) && i < |ws| && m in ws[i].started
    ensures k <= i && StartedAt(ws[k], h, m)
  {
    NothingStarted(ws, actions, maxAttempts);
    var before := Entry(seq(|ws|, j requires 0 <= j < |ws| => ws[j].started), i, m);
    k := before + 1;
    h := StepStarts(ws, actions, maxAttempts, before, m);
  }

  lemma AppliesOwn(books: LedgerRuns.State, act: LedgerRuns.Action, m: QueueMessage, r: Receipt)
    requires LedgerRuns.Inv(books) && GraphMay(m, act)
    requires PointOk(books.ledger, m.taskId, m.kind, m.id)
    requires r in LedgerRuns.LedgerAfter(books.ledger, act).receipts && r !in books.ledger.receipts
    ensures act.Apply? && m.kind == Some(ApprovalKind) && m.id == Some(act.approvalId)
    ensures LedgerTheorems.ReceiptOf(LedgerRuns.LedgerAfter(books.ledger, act), r, m.taskId)
    ensures exists a | a in books.ledger.approvals ::
      a.approvalId == m.id.value && a.taskId == m.taskId && a.decision == Approve
  {
    if !act.Apply? {
      LedgerRuns.NoWrite(books, act);
    }
    var a, p, r' := LedgerRuns.ApplyShape(books.ledger, act.approvalId, act.freshReceiptId);
    assert r == r';
    LedgerRuns.ApplyDecides(books, a, p);
    var b :| b in books.ledger.approvals && b.approvalId == m.id.value && b.taskId == m.taskId;
    UniqueRow(books.ledger.approvals, LedgerRuns.ApprovalId, a, b);
  }

  // ----- The ledger under the whole protocol -----

  /** Whatever the protocol does - duplicates, redeliveries, retries, stale overwrites of task records,
    * completed records that go back to retrying - the effects on the ledger happen exactly once. */
  lemma LedgerStaysExact(ws: seq<World>, actions: seq<Action>, maxAttempts: int, i: nat)
    requires Run(ws, actions, maxAttempts) && i < |ws|
    ensures LedgerTheorems.ReceiptsHaveTasks(ws[i].books.ledger)
    ensures LedgerTheorems.OneReceiptEach(ws[i].books.ledger)
    ensures LedgerTheorems.VersionsAreWritten(ws[i].books.ledger)
  {
    RunInv(ws, actions, maxAttempts, i);
    LedgerTheorems.InvExactOnce(ws[i].books);
  }

  // ----- The lease -----

  /** Two workers are inside the lease of one task only if one of them let its lease run out. */
  lemma LeaseExcludes(ws: seq<World>, actions: seq<Action>, maxAttempts: int, i: nat, g: nat, h: nat)
    requires Run(ws, actions, maxAttempts) && i < |ws| && g in ws[i].handlers && h in ws[i].handlers
    requires UnderLease(ws[i].handlers[g]) && UnderLease(ws[i].handlers[h])
    requires ws[i].handlers[g].d.message.taskId == ws[i].handlers[h].d.message.taskId
    requires g !in ws[i].late && h !in ws[i].late
    ensures g == h
  {
    RunInv(ws, actions, maxAttempts, i);
  }

  /** Handler `h` worked under the lease before this step, does no longer, and has not crashed. */
  predicate GivesBack(w: World, w': World, a: Action, h: nat) {
    a.Local? && a.h == h && !a.event.Crash? && h in w.handlers && UnderLease(w.handlers[h])
    && h in w'.handlers && !UnderLease(w'.handlers[h])
  }

  /** Whoever asks for a lease gets it exactly if it is free; a worker that stops working under it other than by
    * a crash gives back its own and no other; and no other step but an expiry touches a lease. */
  lemma LeaseMoves(w: World, a: Action, maxAttempts: int)
    requires Can(w, a, maxAttempts) && !a.Expire?
    ensures var w' := Next(w, a, maxAttempts);
      && (forall t | t in w.leases ::
            (t in w'.leases && w'.leases[t] == w.leases[t]) <==> !GivesBack(w, w', a, w.leases[t]))
      && (forall t | t in w'.leases && t !in w.leases :: a == Acquire(w'.leases[t]))
      && (a.Acquire? ==>
            var m := w.handlers[a.h].d.message;
            if m.taskId in w.leases then w'.handlers[a.h] == Contended(w.handlers[a.h].d)
            else w'.handlers[a.h] == Leased(w.handlers[a.h].d) && m.taskId in w'.leases && w'.leases[m.taskId] == a.h)
  {
  }
}
