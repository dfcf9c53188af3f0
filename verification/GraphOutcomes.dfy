/** What a thread that has ended says of itself, and how that came about. */
module GraphOutcomes {
  import opened Wrappers
  import opened Tables
  import opened Runs
  import opened Commerce
  import opened TaskRecords
  import opened AgentGraph
  import opened GraphRuns
  import opened GraphTheorems
  import opened NodeRules
  import LedgerRuns

  /** The results a thread shows at each node: none before the plan node, the report of its diagnosis at the
    * approval node, and at the end the report with the note that goes with the status. */
  predicate ResultsAt(th: Thread) {
    var st := th.state;
    match th.next
    case Approval' => st.finalStatus.None? && Reports(st, None)
    case End =>
      st.finalStatus.Some? && st.finalOutput.Some? && Reports(st, st.finalOutput.value.note)
      && (match st.finalOutput.value.note
          case None => st.finalStatus.value == RunCompleted && st.interaction.None?
          case Some(RejectedNote) => st.finalStatus.value == RunRejected && st.interaction.Some?
          case Some(AppliedNote(_, _)) => st.finalStatus.value == RunCompleted && st.interaction.Some?)
    case _ => st.finalStatus.None? && st.finalOutput.None? && st.interaction.None?
  }

  /** The report is of the diagnosis in the state. */
  predicate Reports(st: AgentState, note: Option<Note>) {
    st.diagnosis.Some? && st.diagnosis.value.Parsed? && st.finalOutput == Some(Report(st.diagnosis.value.diagnosis, note))
  }

  lemma NodeResults(cfg: Config, l: Ledger, th: Thread, resume: Option<Resume>, input: Input, st': AgentState, next': Node)
    requires ResultsAt(th) && RunNode(cfg, l, th, resume, input) == Commit(st', next')
    ensures ResultsAt(Thread(st', next', None))
  {
  }

  ghost predicate ThreadResults(life: Life) {
    life.thread.Some? ==> ResultsAt(life.thread.value)
  }

  lemma StepResults(su: Setup, life: Life, mv: Move)
    requires ThreadResults(life) && Can(su, life, mv)
    ensures ThreadResults(Do(su, life, mv))
  {
    if mv.Execute? {
      var th := life.thread.value;
      match RunNode(su.cfg, life.books.ledger, th, life.running.value, mv.input)
      case Commit(st', next') => NodeResults(su.cfg, life.books.ledger, th, life.running.value, mv.input, st', next');
      case _ =>
    }
  }

  lemma {:induction false} RunResults(su: Setup, lives: seq<Life>, moves: seq<Move>, i: nat)
    requires Run(su, lives, moves) && i < |lives|
    ensures ThreadResults(lives[i])
  {
    if i > 0 {
      RunResults(su, lives, moves, i - 1);
      StepResults(su, lives[i - 1], moves[i - 1]);
    }
  }

  /** A step leaves the thread's end as it was, or is the commit that ends it. */
  lemma StepToEnd(su: Setup, life: Life, mv: Move)
    requires Can(su, life, mv) && Do(su, life, mv).thread.Some? && Do(su, life, mv).thread.value.next == End
    ensures Do(su, life, mv).thread == life.thread
         || (IsCommit(su, life, mv) && (life.thread.value.next == Plan || life.thread.value.next == Approval'))
  {
  }

  lemma {:induction false} EndedAt(su: Setup, lives: seq<Life>, moves: seq<Move>, i: nat) returns (k: nat)
    requires Run(su, lives, moves) && i < |lives| && lives[i].thread.Some? && lives[i].thread.value.next == End
    ensures k < i && IsCommit(su, lives[k], moves[k]) && lives[k + 1].thread == lives[i].thread
    ensures lives[k].thread.value.next == Plan || lives[k].thread.value.next == Approval'
  {
    StepToEnd(su, lives[i - 1], moves[i - 1]);
    if lives[i].thread == lives[i - 1].thread {
      k := EndedAt(su, lives, moves, i - 1);
    } else {
      k := i - 1;
    }
  }

  /** The plan node ends a thread only without a patch. */
  lemma PlanEnds(su: Setup, life: Life, mv: Move)
    requires IsCommit(su, life, mv) && life.thread.value.next == Plan
    requires Do(su, life, mv).thread.Some? && Do(su, life, mv).thread.value.next == End
    ensures Do(su, life, mv).thread.value.state.interaction.None?
    ensures Do(su, life, mv).thread.value.state.finalStatus == Some(RunCompleted)
  {
  }

  lemma ApprovalEnds(su: Setup, life: Life, mv: Move)
    requires IsCommit(su, life, mv) && life.thread.value.next == Approval' && life.thread.value.state.interaction.Some?
    ensures Do(su, life, mv).thread.Some? && Do(su, life, mv).thread.value.state.interaction.Some?
  {
  }

  /** The outcome of a thread that has ended. Without a proposed change it is the completed report of the validated
    * diagnosis. With one, it still shows the interaction, and the approval node ended the thread at some step `k`,
    * resumed with a recorded approval: the outcome is rejected if that approval rejects, and else completed. */
  lemma FinalOutcomeIs(su: Setup, lives: seq<Life>, moves: seq<Move>, i: nat) returns (k: nat, a: Option<Approval>)
    requires Run(su, lives, moves) && i < |lives| && lives[i].thread.Some? && lives[i].thread.value.next == End
    ensures var st, o := lives[i].thread.value.state, FinalOutcome(lives[i].thread.value.state);
      && o.interaction == st.interaction && o.report == st.finalOutput
      && st.diagnosis.Some? && st.diagnosis.value.Parsed?
      && o.report.Some? && o.report.value.diagnosis == st.diagnosis.value.diagnosis
      && (a.None? <==> st.diagnosis.value.diagnosis.proposedPatch.None?) && (a.None? <==> o.interaction.None?)
      && o.status == (if a.Some? && a.value.decision == Reject then RunRejected else RunCompleted)
      && (o.report.value.note.None? <==> a.None?) && (o.report.value.note == Some(RejectedNote) <==> o.status == RunRejected)
    ensures a.Some? ==>
      && k < i && lives[k].thread.Some? && lives[k].thread.value.next == Approval' && lives[k + 1].thread == lives[i].thread
      && a.value in lives[k].books.ledger.approvals
      && lives[k].running == Some(Some(Resume(ApprovalKind, a.value.approvalId)))
  {
    k := EndedAt(su, lives, moves, i);
    RunResults(su, lives, moves, i);
    PatchIsAskedFor(su, lives, moves, i);
    if lives[k].thread.value.next == Plan {
      PlanEnds(su, lives[k], moves[k]);
      a := None;
    } else {
      var x := ToldIsTrue(su, lives, moves, k);
      RunInv(su, lives, moves, k);
      ApprovalEnds(su, lives[k], moves[k]);
      a := Some(x);
    }
  }
}
