/** The graph inside the task protocol: a thread whose runs are started by the protocol's messages does to the
  * ledger only what the protocol allows for them, and returns only outcomes that are so. */
module GraphInProtocol {
  import opened Wrappers
  import opened Tables
  import opened Commerce
  import opened TaskRecords
  import opened AgentGraph
  import opened GraphRuns
  import opened GraphTheorems
  import opened ProtocolInvariant
  import LedgerRuns
  import LedgerTheorems
  import Protocol

  // ----- What the thread does to the ledger -----

  /** The run in progress works on message `m`: a resume value it still has came with `m`. */
  predicate RunsFor(life: Life, m: QueueMessage) {
    life.running.Some? && life.running.value.Some? ==>
      m.kind == Some(life.running.value.value.kind) && m.id == Some(life.running.value.value.id)
  }

  predicate StartsWith(mv: Move, m: QueueMessage) {
    mv.StartRun? ==> mv.kind == m.kind && mv.id == m.id
  }

  lemma MoveKeepsToMessage(su: Setup, life: Life, mv: Move, m: QueueMessage)
    requires Can(su, life, mv) && StartsWith(mv, m) && RunsFor(life, m)
    ensures RunsFor(Do(su, life, mv), m)
  {
  }

  /** From a moment when no run is in progress, as long as runs are started with the kind and id of `m`, the
    * resume value a run still has is the one of `m`. */
  lemma {:induction false} RunKeepsToMessage(su: Setup, lives: seq<Life>, moves: seq<Move>, lo: nat, i: nat, m: QueueMessage)
    requires Run(su, lives, moves) && lo <= i < |lives| && lives[lo].running.None?
    requires forall k | lo <= k < i :: StartsWith(moves[k], m)
    ensures RunsFor(lives[i], m)
    decreases i
  {
    if lo < i {
      RunKeepsToMessage(su, lives, moves, lo, i - 1, m);
      MoveKeepsToMessage(su, lives[i - 1], moves[i - 1], m);
    }
  }

  /** The ledger is as it was, or the protocol lets the worker of `m` do what was done to it. */
  ghost predicate WithinMessage(m: QueueMessage, books: LedgerRuns.State, books': LedgerRuns.State) {
    books' == books
    || exists act :: Protocol.GraphMay(m, act) && LedgerRuns.Enabled(books, act) && books' == LedgerRuns.After(books, act)
  }

  /** A move of the thread itself, or the insert of a plan its plan node has drafted. */
  predicate IsOwn(su: Setup, mv: Move) {
    mv.OtherLedger? ==> mv.act.Insert? && mv.act.plan.taskId == su.task.taskId
  }

  /** Whatever the graph does to the ledger while runs are started for `m` is something the protocol lets the
    * worker of `m` do: it reads and inserts for its own task, and it applies no approval but the one `m` brought. */
  lemma GraphActsWithinMessage(su: Setup, lives: seq<Life>, moves: seq<Move>, lo: nat, i: nat, m: QueueMessage)
    requires Run(su, lives, moves) && lo <= i < |moves| && lives[lo].running.None? && IsOwn(su, moves[i])
    requires m.taskId == su.task.taskId && forall k | lo <= k < i :: StartsWith(moves[k], m)
    ensures WithinMessage(m, lives[i].books, lives[i + 1].books)
  {
    RunInv(su, lives, moves, i);
    RunKeepsToMessage(su, lives, moves, lo, i, m);
    if moves[i].OtherLedger? {
      assert Protocol.GraphMay(m, moves[i].act);
    } else {
      MoveWithinMessage(su, lives[i], moves[i], m);
    }
  }

  lemma MoveWithinMessage(su: Setup, life: Life, mv: Move, m: QueueMessage)
    requires Can(su, life, mv) && !mv.OtherLedger? && RunsFor(life, m)
    requires m.taskId == su.task.taskId && (life.thread.Some? ==> life.thread.value.state.taskId == m.taskId)
    ensures WithinMessage(m, life.books, Do(su, life, mv).books)
  {
    MoveBooks(su, life, mv);
    if mv.DraftPlan? {
      assert Protocol.GraphMay(m, OwnRead(life.thread.value, mv.planId));
    } else if mv.Execute? || mv.Abort? {
      OwnLedgerPart(life, mv.input, m);
    }
  }

  /** What each move of the thread itself does to the ledger. */
  lemma MoveBooks(su: Setup, life: Life, mv: Move)
    requires Can(su, life, mv) && !mv.OtherLedger?
    ensures mv.StartRun? ==> Do(su, life, mv).books == life.books
    ensures mv.Execute? || mv.Abort? ==> Do(su, life, mv).books in {life.books, LedgerPart(life, mv.input)}
    ensures mv.DraftPlan? ==> Do(su, life, mv).books == LedgerRuns.After(life.books, OwnRead(life.thread.value, mv.planId))
  {
  }

  lemma OwnLedgerPart(life: Life, input: Input, m: QueueMessage)
    requires Active(life) && RunsFor(life, m)
    ensures WithinMessage(m, life.books, LedgerPart(life, input))
  {
    if life.thread.value.next == Approval' {
      var act := ApprovalAct(life.books.ledger, life.thread.value.state, life.running.value, FreshId(input));
      if act.Some? {
        assert Protocol.GraphMay(m, act.value);
      }
    }
  }

  // ----- Whose approval it acts on -----

  /** A run is started with an approval only if that is recorded for this very task, as every approval message
    * in the protocol is. */
  ghost predicate BringsOwn(su: Setup, life: Life, mv: Move) {
    mv.StartRun? && mv.kind == Some(ApprovalKind) && mv.id.Some? ==>
      ApprovalKnown(life.books.ledger, su.task.taskId, mv.id.value)
  }

  ghost predicate ResumesOwn(su: Setup, life: Life) {
    life.running.Some? && life.running.value.Some? && life.running.value.value.kind == ApprovalKind ==>
      ApprovalKnown(life.books.ledger, su.task.taskId, life.running.value.value.id)
  }

  /** Whatever the move, the ledger only grows. */
  lemma MoveExtends(su: Setup, life: Life, mv: Move)
    requires Inv(su, life) && Can(su, life, mv)
    ensures LedgerRuns.Extends(life.books, Do(su, life, mv).books)
  {
    if mv.OtherLedger? {
      LedgerRuns.StepExtends(life.books, mv.act);
    } else {
      MoveBooks(su, life, mv);
      if mv.DraftPlan? {
        LedgerRuns.StepExtends(life.books, OwnRead(life.thread.value, mv.planId));
      } else if Do(su, life, mv).books != life.books {
        OwnLedgerExtends(life, mv.input);
      }
    }
  }

  lemma OwnLedgerExtends(life: Life, input: Input)
    requires Active(life) && LedgerRuns.Inv(life.books)
    ensures LedgerRuns.Extends(life.books, LedgerPart(life, input))
  {
    var act := ApprovalAct(life.books.ledger, life.thread.value.state, life.running.value, FreshId(input));
    if life.thread.value.next == Approval' && act.Some? {
      LedgerRuns.StepExtends(life.books, act.value);
    }
  }

  lemma MoveGrows(su: Setup, life: Life, mv: Move)
    requires Inv(su, life) && Can(su, life, mv)
    ensures Grown(life.books.ledger, Do(su, life, mv).books.ledger)
  {
    MoveExtends(su, life, mv);
  }

  /** A move keeps the resume value of the run in progress, consumes it, or takes it from a start. */
  lemma ResumeComesFrom(su: Setup, life: Life, mv: Move)
    requires Can(su, life, mv)
    ensures var r := Do(su, life, mv).running;
      r.Some? && r.value.Some? ==> r == life.running || (mv.StartRun? && mv.kind == Some(r.value.value.kind) && mv.id == Some(r.value.value.id))
  {
  }

  lemma MoveResumesOwn(su: Setup, life: Life, mv: Move)
    requires Inv(su, life) && Can(su, life, mv) && BringsOwn(su, life, mv) && ResumesOwn(su, life)
    ensures ResumesOwn(su, Do(su, life, mv))
  {
    var life' := Do(su, life, mv);
    ResumeComesFrom(su, life, mv);
    MoveGrows(su, life, mv);
    if life'.running.Some? && life'.running.value.Some? && life'.running.value.value.kind == ApprovalKind {
      KnownStable(life.books.ledger, life'.books.ledger, su.task.taskId, life'.running.value.value.id);
    }
  }

  lemma StepResumesOwn(su: Setup, lives: seq<Life>, moves: seq<Move>, i: nat)
    requires Run(su, lives, moves) && i < |moves| && BringsOwn(su, lives[i], moves[i]) && ResumesOwn(su, lives[i])
    ensures ResumesOwn(su, lives[i + 1])
  {
    RunInv(su, lives, moves, i);
    MoveResumesOwn(su, lives[i], moves[i]);
  }

  lemma {:induction false} RunResumesOwn(su: Setup, lives: seq<Life>, moves: seq<Move>, i: nat)
    requires Run(su, lives, moves) && i < |lives|
    requires forall k | 0 <= k < i :: BringsOwn(su, lives[k], moves[k])
    ensures ResumesOwn(su, lives[i])
  {
    if i > 0 {
      RunResumesOwn(su, lives, moves, i - 1);
      StepResumesOwn(su, lives, moves, i - 1);
    }
  }

  /** Whatever receipt answers this approval is one of this task. */
  ghost predicate AnsweredFor(l: Ledger, approvalId: string, t: string) {
    forall r | r in l.receipts && LedgerTheorems.Answered(l, approvalId, r) :: LedgerTheorems.ReceiptOf(l, r, t)
  }

  /** If every approval a run was started with is one of this task, then the decision the merchant is told about
    * is this task's own, and the receipt named in the report is this task's own. */
  lemma ToldIsOwn(su: Setup, lives: seq<Life>, moves: seq<Move>, i: nat) returns (a: Approval)
    requires Run(su, lives, moves) && i < |moves| && IsCommit(su, lives[i], moves[i])
    requires lives[i].thread.value.next == Approval'
    requires forall k | 0 <= k < i :: BringsOwn(su, lives[k], moves[k])
    ensures a in lives[i].books.ledger.approvals && a.taskId == su.task.taskId
    ensures lives[i + 1].thread.Some? && Told(lives[i + 1].thread.value.state, lives[i + 1].books.ledger, a)
    ensures AnsweredFor(lives[i + 1].books.ledger, a.approvalId, su.task.taskId)
  {
    a := ToldIsTrue(su, lives, moves, i);
    RunInv(su, lives, moves, i);
    RunInv(su, lives, moves, i + 1);
    RunResumesOwn(su, lives, moves, i);
    KnownIsOwn(lives[i].books, a, su.task.taskId);
    MoveGrows(su, lives[i], moves[i]);
    AllAnsweredOwn(lives[i + 1].books, a);
  }

  lemma KnownIsOwn(books: LedgerRuns.State, a: Approval, t: string)
    requires LedgerRuns.Inv(books) && a in books.ledger.approvals && ApprovalKnown(books.ledger, t, a.approvalId)
    ensures a.taskId == t
  {
    var b :| b in books.ledger.approvals && b.approvalId == a.approvalId && b.taskId == t;
    UniqueRow(books.ledger.approvals, LedgerRuns.ApprovalId, a, b);
  }

  lemma AllAnsweredOwn(books: LedgerRuns.State, a: Approval)
    requires LedgerRuns.Inv(books) && a in books.ledger.approvals
    ensures AnsweredFor(books.ledger, a.approvalId, a.taskId)
  {
    forall r | r in books.ledger.receipts && LedgerTheorems.Answered(books.ledger, a.approvalId, r)
      ensures LedgerTheorems.ReceiptOf(books.ledger, r, a.taskId)
    {
      AnsweredIsOwn(books, a, r);
    }
  }

  /** The receipt that answers an approval is of the approval's task. */
  lemma AnsweredIsOwn(books: LedgerRuns.State, a: Approval, r: Receipt)
    requires LedgerRuns.Inv(books) && a in books.ledger.approvals && LedgerTheorems.Answered(books.ledger, a.approvalId, r)
    ensures LedgerTheorems.ReceiptOf(books.ledger, r, a.taskId)
  {
    var l := books.ledger;
    var x := First(l.approvals, ApprovalWithId(a.approvalId)).value;
    UniqueRow(l.approvals, LedgerRuns.ApprovalId, a, x);
    var p := First(l.plans, PlanWithId(x.planId)).value;
    LedgerRuns.ApplyDecides(books, x, p);
    assert ReceiptWithKey(PlanKey(p))(r);
  }

  // ----- What a run returns -----

  /** The outcome of a run as the worker gets it; `text` is the rendered report. */
  function Returned(o: Outcome, text: Option<string>): RunOutcome {
    RunOutcome(o.status, text, o.interaction)
  }

  lemma OutcomeStays(s: LedgerRuns.State, s': LedgerRuns.State, t: string, o: RunOutcome)
    requires LedgerRuns.Extends(s, s') && Protocol.OutcomeTrue(s.ledger, t, o)
    ensures Protocol.OutcomeTrue(s'.ledger, t, o)
  {
    var l, l' := s.ledger, s'.ledger;
    match o.status
    case RunRejected =>
      var a :| a in l.approvals && a.taskId == t && a.decision == Reject;
      assert a in l'.approvals;
    case RunCompleted =>
      if o.interaction.Some? {
        var p, r :| p in l.plans && r in l.receipts && p.taskId == t && r.idempotencyKey == PlanKey(p);
        assert p in l'.plans && r in l'.receipts;
      }
    case RunAwaitingApproval =>
      var p :| p in l.plans && p.taskId == t && o.interaction == Some(PlanInteraction(p));
      assert p in l'.plans;
    case RunAwaitingInput =>
  }

  /** A finished thread holds an outcome that is so. */
  ghost predicate EndsTrue(su: Setup, life: Life) {
    life.thread.Some? && life.thread.value.next == End ==>
      Protocol.OutcomeTrue(life.books.ledger, su.task.taskId, Returned(FinalOutcome(life.thread.value.state), None))
  }

  lemma ToldEndsTrue(l: Ledger, st: AgentState, a: Approval)
    requires Told(st, l, a) && a in l.approvals && AnsweredFor(l, a.approvalId, a.taskId)
    ensures Protocol.OutcomeTrue(l, a.taskId, Returned(FinalOutcome(st), None))
  {
    if a.decision == Approve {
      var r :| r in l.receipts && LedgerTheorems.Answered(l, a.approvalId, r);
      assert LedgerTheorems.ReceiptOf(l, r, a.taskId);
      var p :| p in l.plans && p.taskId == a.taskId && r.idempotencyKey == PlanKey(p);
    }
  }

  /** A commit into the end comes from the plan node without a plan, or from the approval node. */
  lemma CommitEnds(su: Setup, life: Life, mv: Move)
    requires IsCommit(su, life, mv) && Do(su, life, mv).thread.Some? && Do(su, life, mv).thread.value.next == End
    ensures life.thread.value.next == Approval'
         || (FinalOutcome(Do(su, life, mv).thread.value.state).status == RunCompleted
             && Do(su, life, mv).thread.value.state.interaction.None?)
  {
  }

  lemma OtherwiseSameEnd(su: Setup, life: Life, mv: Move)
    requires Can(su, life, mv) && !IsCommit(su, life, mv)
    requires Do(su, life, mv).thread.Some? && Do(su, life, mv).thread.value.next == End
    ensures life.thread.Some? && life.thread.value.next == End
    ensures Do(su, life, mv).thread.value.state == life.thread.value.state
  {
  }

  lemma StepEndsTrue(su: Setup, lives: seq<Life>, moves: seq<Move>, i: nat)
    requires Run(su, lives, moves) && i < |moves| && EndsTrue(su, lives[i])
    requires forall k | 0 <= k < i :: BringsOwn(su, lives[k], moves[k])
    ensures EndsTrue(su, lives[i + 1])
  {
    RunInv(su, lives, moves, i);
    if lives[i + 1].thread.Some? && lives[i + 1].thread.value.next == End {
      if IsCommit(su, lives[i], moves[i]) {
        CommitEnds(su, lives[i], moves[i]);
        if lives[i].thread.value.next == Approval' {
          var a := ToldIsOwn(su, lives, moves, i);
          MoveGrows(su, lives[i], moves[i]);
          ToldEndsTrue(lives[i + 1].books.ledger, lives[i + 1].thread.value.state, a);
        }
      } else {
        OtherwiseSameEnd(su, lives[i], moves[i]);
        MoveExtends(su, lives[i], moves[i]);
        OutcomeStays(lives[i].books, lives[i + 1].books, su.task.taskId,
                     Returned(FinalOutcome(lives[i].thread.value.state), None));
      }
    }
  }

  lemma {:induction false} RunEndsTrue(su: Setup, lives: seq<Life>, moves: seq<Move>, i: nat)
    requires Run(su, lives, moves) && i < |lives|
    requires forall k | 0 <= k < i :: BringsOwn(su, lives[k], moves[k])
    ensures EndsTrue(su, lives[i])
  {
    if i > 0 {
      RunEndsTrue(su, lives, moves, i - 1);
      StepEndsTrue(su, lives, moves, i - 1);
    }
  }

  lemma InterruptTrue(su: Setup, life: Life)
    requires Inv(su, life) && life.thread.Some? && life.thread.value.interrupt.Some?
    ensures Protocol.OutcomeTrue(life.books.ledger, su.task.taskId,
                                 Returned(InterruptedOutcome(life.thread.value.interrupt.value), None))
  {
  }

  /** Whatever a run can return - the outcome of a finished thread or of one that waits at an interrupt - is so
    * on the ledger: this is what the protocol takes the outcomes of runs to be. */
  lemma OutcomesAreTrue(su: Setup, lives: seq<Life>, moves: seq<Move>, i: nat, text: Option<string>)
    requires Run(su, lives, moves) && i < |lives| && lives[i].thread.Some?
    requires forall k | 0 <= k < i :: BringsOwn(su, lives[k], moves[k])
    ensures var th, l := lives[i].thread.value, lives[i].books.ledger;
      && (th.next == End ==> Protocol.OutcomeTrue(l, su.task.taskId, Returned(FinalOutcome(th.state), text)))
      && (th.interrupt.Some? ==>
            && Protocol.OutcomeTrue(l, su.task.taskId, Returned(InterruptedOutcome(th.interrupt.value), text))
            && Returned(InterruptedOutcome(th.interrupt.value), text)
               == RunOutcome(if th.next == Approval' then RunAwaitingApproval else RunAwaitingInput, text, th.interrupt))
  {
    RunEndsTrue(su, lives, moves, i);
    RunInv(su, lives, moves, i);
    if lives[i].thread.value.interrupt.Some? {
      InterruptTrue(su, lives[i]);
    }
  }
}
