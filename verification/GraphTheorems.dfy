/** What holds in every state of every life of a thread, whatever the model answers, wherever runs are cut
  * off, and whatever others do to the ledger. */
module GraphTheorems {
  import opened Wrappers
  import opened Tables
  import opened Runs
  import opened Commerce
  import opened TaskRecords
  import opened AgentGraph
  import opened Transcript
  import opened GraphRuns
  import opened NodeRules
  import LedgerRuns
  import LedgerTheorems

  // ----- Evidence -----

  /** The rules a diagnosis has to keep. */
  ghost predicate WellFounded(d: Diagnosis, known: set<string>) {
    && (forall f | f in d.findings :: (forall e | e in f.evidenceIds :: e in known) && (f.kind == Fact ==> f.evidenceIds != []))
    && (d.proposedPatch.Some? ==> exists f | f in d.findings :: IsEvidence(f))
  }

  /** A fact about the product's content, with evidence. */
  predicate IsEvidence(f: Finding) {
    f.category == "content" && f.kind == Fact && f.evidenceIds != []
  }

  lemma {:induction false} NoFindingErrors(findings: seq<Finding>, known: set<string>)
    ensures FindingsErrors(findings, known) == []
       <==> forall f | f in findings :: (forall e | e in f.evidenceIds :: e in known) && (f.kind == Fact ==> f.evidenceIds != [])
  {
    if findings != [] {
      var n := |findings| - 1;
      var f := findings[n];
      NoFindingErrors(findings[..n], known);
      assert findings == findings[..n] + [f];
      var unknown := (set e | e in f.evidenceIds) - known;
      assert unknown == {} <==> forall e | e in f.evidenceIds :: e in known by {
        if unknown != {} {
          var e :| e in unknown;
          assert e in f.evidenceIds && e !in known;
        }
        if e :| e in f.evidenceIds && e !in known {
          assert e in unknown;
        }
      }
    }
  }

  /** Validation reports nothing exactly when the diagnosis keeps all rules. */
  lemma ValidatesIff(st: AgentState)
    ensures ValidationErrors(st) == []
       <==> st.diagnosis.Some? && st.diagnosis.value.Parsed? && WellFounded(st.diagnosis.value.diagnosis, EvidenceIds(st))
  {
    if st.diagnosis.Some? && st.diagnosis.value.Parsed? {
      NoFindingErrors(st.diagnosis.value.diagnosis.findings, EvidenceIds(st));
      assert forall f: Finding :: IsEvidence(f) == IsContentFact(f);
    }
  }

  /** Past validation, every evidence id of the diagnosis was returned to this thread by the metrics node or
    * by a tool that ran, every fact has evidence, and a stored plan rests on an evidenced content fact. */
  lemma EvidenceProvenance(su: Setup, lives: seq<Life>, moves: seq<Move>, i: nat)
    requires Run(su, lives, moves) && i < |lives| && lives[i].thread.Some?
    ensures var st, next := lives[i].thread.value.state, lives[i].thread.value.next;
      && EvidenceIds(st) == lives[i].served
      && (Late(next) ==> st.diagnosis.Some? && st.diagnosis.value.Parsed?
                         && WellFounded(st.diagnosis.value.diagnosis, lives[i].served))
      && (forall p | p in lives[i].books.ledger.plans && p.taskId == su.task.taskId ::
            && Late(next) && PlanAgrees(st, p)
            && exists f | f in st.diagnosis.value.diagnosis.findings ::
                 IsEvidence(f) && forall e | e in f.evidenceIds :: e in lives[i].served)
  {
    RunInv(su, lives, moves, i);
    var st := lives[i].thread.value.state;
    ValidatesIff(st);
    forall p | p in lives[i].books.ledger.plans && p.taskId == su.task.taskId
      ensures Late(lives[i].thread.value.next) && PlanAgrees(st, p)
        && exists f | f in st.diagnosis.value.diagnosis.findings ::
             IsEvidence(f) && forall e | e in f.evidenceIds :: e in lives[i].served
    {
      var f :| f in st.diagnosis.value.diagnosis.findings && IsEvidence(f);
    }
  }

  // ----- Transcript -----

  /** Whenever the model is about to be called, every earlier call is answered: once, in order, before the
    * next assistant message. And every call that was executed was within the task's merchant and product. */
  lemma TranscriptPairing(su: Setup, lives: seq<Life>, moves: seq<Move>, i: nat)
    requires Run(su, lives, moves) && i < |lives| && lives[i].thread.Some?
    ensures lives[i].thread.value.next == Model ==> Paired(lives[i].thread.value.state.messages)
    ensures lives[i].thread.value.state.merchantId == su.task.merchantId
    ensures RanInScope(lives[i].thread.value.state)
  {
    RunInv(su, lives, moves, i);
    if lives[i].thread.value.next == Model {
      OwingPaired(lives[i].thread.value.state.messages);
    }
    ScopeSpelled(su.cfg, lives[i].thread.value.state, lives[i].thread.value.next);
  }

  /** Every call of a turn that something follows was a submission, or ran for this merchant and product. */
  ghost predicate RanInScope(st: AgentState) {
    forall j, c | 0 <= j < |st.messages| - 1 && st.messages[j].Assistant? && c in st.messages[j].calls ::
      c.name == "submit_diagnosis" || (st.productId.Some? && MayRun(st.merchantId, st.productId.value, c))
  }

  lemma ScopeSpelled(cfg: Config, st: AgentState, next: Node)
    requires CallsInScope(st) && TurnInv(cfg, st) && (Early(next) ==> st.iteration == 0) && (!Early(next) ==> HasProduct(st))
    ensures RanInScope(st)
  {
    if Early(next) {
      NoTurns(st.messages);
    }
  }

  // ----- Repetition -----

  /** The last `k` turns made one and the same non-empty batch of calls. */
  ghost predicate SameBatches(turns: seq<Batch>, k: nat)
    requires 0 < k <= |turns|
  {
    turns[|turns| - 1] != [] && forall i | |turns| - k <= i < |turns| :: turns[i] == turns[|turns| - 1]
  }

  /** `k` equal, non-empty batches in a row make a trailing run of at least `k`. */
  lemma {:induction false} WindowIsRun(turns: seq<Batch>, k: nat)
    requires 0 < k <= |turns| && SameBatches(turns, k)
    ensures TrailingRun(turns) >= k
  {
    var n := |turns| - 1;
    if k > 1 {
      assert turns[n - 1] == turns[n];
      WindowIsRun(turns[..n], k - 1);
    }
  }

  /** The stored counter is the length of the trailing run of equal batches in the committed history, and no
    * `max_repeated_steps` turns in a row ever made the same calls. */
  lemma RepetitionCounted(su: Setup, lives: seq<Life>, moves: seq<Move>, i: nat)
    requires Run(su, lives, moves) && i < |lives| && lives[i].thread.Some?
    ensures var st := lives[i].thread.value.state;
      var turns, k := Turns(st.messages), su.cfg.maxRepeatedSteps;
      && st.repeatedSteps == TrailingRun(turns)
      && forall n | 0 < k <= n <= |turns| :: !SameBatches(turns[..n], k)
  {
    RunInv(su, lives, moves, i);
    var turns, k := Turns(lives[i].thread.value.state.messages), su.cfg.maxRepeatedSteps;
    forall n | 0 < k <= n <= |turns| ensures !SameBatches(turns[..n], k) {
      if SameBatches(turns[..n], k) {
        WindowIsRun(turns[..n], k);
      }
    }
  }

  // ----- Bounds -----

  /** Over the whole life: at most `max_iterations` model turns, at most `max_reflections` reflections, and
    * so few committed node executions that no run can come near its recursion limit. */
  lemma LoopBounds(su: Setup, lives: seq<Life>, moves: seq<Move>, i: nat)
    requires Run(su, lives, moves) && i < |lives|
    ensures lives[i].steps <= 2 * su.cfg.maxIterations + 4 < 3 * su.cfg.maxIterations + 12
    ensures lives[i].thread.Some? ==>
      && |Turns(lives[i].thread.value.state.messages)| <= su.cfg.maxIterations
      && lives[i].thread.value.state.reflectionCount <= su.cfg.maxReflections
      && forall m | m in lives[i].thread.value.state.messages && m.Assistant? :: |m.calls| <= su.cfg.maxToolCalls
  {
    RunInv(su, lives, moves, i);
    InvBounds(su, lives[i]);
  }

  lemma InvBounds(su: Setup, life: Life)
    requires Inv(su, life)
    ensures life.steps <= 2 * su.cfg.maxIterations + 4
    ensures life.thread.Some? ==> TurnInv(su.cfg, life.thread.value.state) && CallsBounded(su.cfg, life.thread.value.state)
                                  && life.thread.value.state.reflectionCount <= su.cfg.maxReflections
  {
  }

  /** When the model node is next, a turn is refused as a loop exactly when the turns are used up, the turn has
    * too many calls, or it would be the `max_repeated_steps`-th in a row with the same calls; it is refused as
    * a submission exactly when it is none of these and submits together with other calls; otherwise it commits. */
  lemma ModelRefusesIff(su: Setup, lives: seq<Life>, moves: seq<Move>, i: nat, turn: Turn)
    requires Run(su, lives, moves) && i < |lives| && lives[i].thread.Some? && lives[i].thread.value.next == Model
    ensures var st, cfg := lives[i].thread.value.state, su.cfg;
      var turns := Turns(st.messages);
      var loops := |turns| == cfg.maxIterations || |turn.calls| > cfg.maxToolCalls
                   || TrailingRun(turns + [BatchOf(turn.calls)]) >= cfg.maxRepeatedSteps;
      var answer := ModelNode(cfg, st, turn);
      && (answer == Err(LoopDetected) <==> loops)
      && (answer == Err(InvalidSubmission) <==> !loops && HasSubmit(turn.calls) && |turn.calls| > 1)
      && (answer.Ok? <==> !loops && (HasSubmit(turn.calls) ==> |turn.calls| == 1))
  {
    RunInv(su, lives, moves, i);
    DetectRepetitionCounts(lives[i].thread.value.state, turn, Turns(lives[i].thread.value.state.messages));
  }

  /** The move committed a node. */
  predicate IsCommit(su: Setup, life: Life, mv: Move) {
    mv.Execute? && Active(life)
    && RunNode(su.cfg, life.books.ledger, life.thread.value, life.running.value, mv.input).Commit?
  }

  function CountCommits(su: Setup, lives: seq<Life>, moves: seq<Move>, lo: nat, hi: nat): nat
    requires lo <= hi <= |moves| <= |lives|
    decreases hi - lo
  {
    if lo == hi then 0
    else CountCommits(su, lives, moves, lo, hi - 1) + (if IsCommit(su, lives[hi - 1], moves[hi - 1]) then 1 else 0)
  }

  /** In any stretch of a life, across any number of runs, at most 2 * max_iterations + 4 nodes commit. */
  lemma {:induction false} CommitsBounded(su: Setup, lives: seq<Life>, moves: seq<Move>, lo: nat, hi: nat)
    requires Run(su, lives, moves) && lo <= hi <= |moves|
    ensures lives[hi].steps == lives[lo].steps + CountCommits(su, lives, moves, lo, hi)
    ensures CountCommits(su, lives, moves, lo, hi) <= 2 * su.cfg.maxIterations + 4
    decreases hi - lo
  {
    if lo < hi {
      CommitsBounded(su, lives, moves, lo, hi - 1);
    }
    LoopBounds(su, lives, moves, hi);
  }

  // ----- Scope -----

  /** The product a thread is about is the one the task names; or else it is the merchant's own and either the
    * only candidate or the very one the merchant answered with. */
  lemma ScopeIsChosen(su: Setup, lives: seq<Life>, moves: seq<Move>, i: nat)
    requires Run(su, lives, moves) && i < |moves| && IsCommit(su, lives[i], moves[i])
    requires lives[i].thread.value.next == Scope
    ensures lives[i + 1].thread.Some? && lives[i + 1].thread.value.state.productId.Some?
    ensures var p, l := lives[i + 1].thread.value.state.productId.value, lives[i].books.ledger;
      if Named(su.task.productId) then su.task.productId == Some(p)
      else
        && Owns(l, su.task.merchantId, p)
        && (lives[i].running == Some(Some(Resume(InputKind, p)))
            || ResolveProduct(l, su.task.merchantId, Matching(moves[i].input)) == Ok({p}))
  {
    RunInv(su, lives, moves, i);
    ScopeNodeChooses(lives[i].books.ledger, lives[i].thread.value.state, lives[i].running.value, Matching(moves[i].input));
  }

  lemma ScopeNodeChooses(l: Ledger, st: AgentState, resume: Option<Resume>, matching: set<string>)
    requires ScopeNode(l, st, resume, matching).InScope?
    ensures var p := ScopeNode(l, st, resume, matching).productId;
      if Named(st.productId) then st.productId == Some(p)
      else
        && Owns(l, st.merchantId, p)
        && (resume == Some(Resume(InputKind, p)) || ResolveProduct(l, st.merchantId, matching) == Ok({p}))
  {
    if !Named(st.productId) {
      var candidates := ResolveProduct(l, st.merchantId, matching).value;
      if |candidates| == 1 {
        OneElement(candidates);
      }
    }
  }

  // ----- Plan -----

  /** However often the plan node runs, the task has one plan; it carries the text of the validated patch for
    * the product fixed by scope, and it is the plan the merchant is shown. */
  lemma PlanAgreement(su: Setup, lives: seq<Life>, moves: seq<Move>, i: nat, p: ActionPlan)
    requires Run(su, lives, moves) && i < |lives|
    requires p in lives[i].books.ledger.plans && p.taskId == su.task.taskId
    ensures lives[i].thread.Some? && PlanAgrees(lives[i].thread.value.state, p)
    ensures Owns(lives[i].books.ledger, su.task.merchantId, p.productId)
    ensures Named(su.task.productId) ==> su.task.productId == Some(p.productId)
    ensures forall q | q in lives[i].books.ledger.plans && q.taskId == su.task.taskId :: q == p
    ensures lives[i].thread.value.state.interaction.Some? ==> Shows(lives[i].thread.value.state.interaction.value, p)
  {
    RunInv(su, lives, moves, i);
    var l, st := lives[i].books.ledger, lives[i].thread.value.state;
    forall q | q in l.plans && q.taskId == su.task.taskId ensures q == p {
      UniqueRow(l.plans, LedgerRuns.PlanTask, p, q);
    }
    if st.interaction.Some? {
      var q :| q in l.plans && q.taskId == st.taskId && st.interaction == Some(PlanInteraction(q));
      UniqueRow(l.plans, LedgerRuns.PlanTask, p, q);
    }
  }

  /** A thread ends without having asked for approval exactly when its validated diagnosis proposes no patch. */
  lemma PatchIsAskedFor(su: Setup, lives: seq<Life>, moves: seq<Move>, i: nat)
    requires Run(su, lives, moves) && i < |lives| && lives[i].thread.Some? && lives[i].thread.value.next == End
    ensures var st := lives[i].thread.value.state;
      && st.diagnosis.Some? && st.diagnosis.value.Parsed? && st.finalOutput.Some?
      && (st.interaction.None? <==> st.diagnosis.value.diagnosis.proposedPatch.None?)
  {
    RunInv(su, lives, moves, i);
  }

  /** What the merchant is told: a rejection, if approval `a` rejects, and otherwise the receipt by which the
    * ledger answers `a`. */
  ghost predicate Told(st: AgentState, l: Ledger, a: Approval) {
    && st.finalOutput.Some?
    && if a.decision == Reject then
         st.finalStatus == Some(RunRejected) && st.finalOutput.value.note == Some(RejectedNote)
       else
         && st.finalStatus == Some(RunCompleted)
         && exists r | r in l.receipts ::
              && st.finalOutput.value.note == Some(AppliedNote(r.receiptId, r.productVersion))
              && LedgerTheorems.Answered(l, a.approvalId, r)
  }

  /** What the merchant is told is what happened: when the approval node commits, it was resumed with the id of
    * a recorded approval; the outcome follows its decision, a rejection leaves the ledger alone, and the
    * receipt named is the one the ledger answers that approval with. */
  lemma ToldIsTrue(su: Setup, lives: seq<Life>, moves: seq<Move>, i: nat) returns (a: Approval)
    requires Run(su, lives, moves) && i < |moves| && IsCommit(su, lives[i], moves[i])
    requires lives[i].thread.value.next == Approval'
    ensures a in lives[i].books.ledger.approvals && lives[i].running == Some(Some(Resume(ApprovalKind, a.approvalId)))
    ensures lives[i + 1].thread.Some? && lives[i + 1].thread.value.next == End
    ensures Told(lives[i + 1].thread.value.state, lives[i + 1].books.ledger, a)
    ensures a.decision == Reject ==> lives[i + 1].books == lives[i].books
  {
    RunInv(su, lives, moves, i);
    a := ApprovalTold(su, lives[i], moves[i]);
  }

  lemma ApprovalTold(su: Setup, life: Life, mv: Move) returns (a: Approval)
    requires IsCommit(su, life, mv) && life.thread.value.next == Approval'
    requires life.thread.value.state.finalOutput.Some?
    ensures a in life.books.ledger.approvals && life.running == Some(Some(Resume(ApprovalKind, a.approvalId)))
    ensures Do(su, life, mv).thread.Some? && Do(su, life, mv).thread.value.next == End
    ensures Told(Do(su, life, mv).thread.value.state, Do(su, life, mv).books.ledger, a)
    ensures a.decision == Reject ==> Do(su, life, mv).books == life.books
  {
    var th, l := life.thread.value, life.books.ledger;
    a := NodeTold(l, th.state, life.running.value, FreshId(mv.input));
    DoCommits(su, life, mv.input, ApprovalNode(l, th.state, life.running.value, FreshId(mv.input)).state, End);
  }

  /** The approval node on its own: what it did to the ledger and what it says it did. */
  lemma NodeTold(l: Ledger, st: AgentState, resume: Option<Resume>, freshId: string) returns (a: Approval)
    requires ApprovalNode(l, st, resume, freshId).Decided? && st.finalOutput.Some?
    ensures a in l.approvals && resume == Some(Resume(ApprovalKind, a.approvalId))
    ensures var act := ApprovalAct(l, st, resume, freshId);
      && (act.None? <==> a.decision == Reject)
      && Told(ApprovalNode(l, st, resume, freshId).state, if act.Some? then LedgerRuns.LedgerAfter(l, act.value) else l, a)
  {
    a := First(l.approvals, ApprovalWithId(resume.value.id)).value;
    if a.decision == Approve {
      var r := ApplyApprovedPlan(l, a.approvalId, freshId).1.value.receipt;
      LedgerTheorems.ApplyAnswers(l, a.approvalId, freshId);
      AnsweredIsStored(ApplyApprovedPlan(l, a.approvalId, freshId).0, a.approvalId, r);
    }
  }

  lemma AnsweredIsStored(l: Ledger, id: string, r: Receipt)
    requires LedgerTheorems.Answered(l, id, r)
    ensures r in l.receipts
  {
  }

  // ----- The interrupt gate -----

  /** The kind of message a thread waits for at interrupt `i`. */
  function WaitedKind(i: Interaction): ResumeKind {
    if i.ApprovalRequired? then ApprovalKind else InputKind
  }

  /** This move could not resume the thread from interrupt `i`. */
  predicate NotAnswer(mv: Move, i: Interaction) {
    mv.StartRun? ==> mv.kind != Some(WaitedKind(i)) || mv.id.None? || mv.id.value == ""
  }

  /** The outcome of a run that leaves the thread waiting: the merchant is asked what the interrupt asks. */
  function Awaiting(i: Interaction): Outcome {
    Outcome(if i.ApprovalRequired? then RunAwaitingApproval else RunAwaitingInput, None, Some(i))
  }

  /** A run on a thread that waits at an interrupt goes on exactly for a message of the kind it waits for that
    * brings an id, and then with that id; one without an id is refused, and a message of any other kind gets the
    * question of the interrupt once more. */
  predicate Gated(th: Thread, kind: Option<ResumeKind>, id: Option<string>)
    requires th.interrupt.Some?
  {
    var i, gate := th.interrupt.value, RunGate(Some(th), kind, id);
    if kind != Some(WaitedKind(i)) then gate == Answer(Awaiting(i))
    else if id.None? || id.value == "" then gate == Refuse(ResumeValueRequired)
    else gate == GoOn(Some(Resume(WaitedKind(i), id.value)))
  }

  /** The thread is as it was, and no run is in progress. */
  predicate SameThread(lives: seq<Life>, lo: nat, k: nat)
    requires lo < |lives| && k < |lives|
  {
    lives[k].thread == lives[lo].thread && lives[k].running.None?
  }

  /** Unless others work on the ledger, nothing at all happens at this step. */
  predicate Idle(lives: seq<Life>, moves: seq<Move>, k: nat)
    requires k < |moves| < |lives|
  {
    !moves[k].OtherLedger? ==> lives[k + 1] == lives[k]
  }

  /** Nothing moves a thread at its interrupt but a run that answers it. */
  lemma MoveAtInterrupt(su: Setup, life: Life, mv: Move)
    requires life.thread.Some? && life.thread.value.interrupt.Some? && life.running.None?
    requires Can(su, life, mv) && NotAnswer(mv, life.thread.value.interrupt.value)
    ensures Do(su, life, mv).thread == life.thread && Do(su, life, mv).running.None?
    ensures !mv.OtherLedger? ==> Do(su, life, mv) == life
  {
  }

  lemma RunMoveAtInterrupt(su: Setup, lives: seq<Life>, moves: seq<Move>, i: nat)
    requires Run(su, lives, moves) && i < |moves| && lives[i].running.None?
    requires lives[i].thread.Some? && lives[i].thread.value.interrupt.Some?
    requires NotAnswer(moves[i], lives[i].thread.value.interrupt.value)
    ensures lives[i + 1].thread == lives[i].thread && lives[i + 1].running.None?
    ensures Idle(lives, moves, i)
  {
    MoveAtInterrupt(su, lives[i], moves[i]);
  }

  lemma InterruptStays(su: Setup, lives: seq<Life>, moves: seq<Move>, lo: nat, hi: nat)
    requires Run(su, lives, moves) && lo <= hi < |lives|
    requires lives[lo].thread.Some? && lives[lo].thread.value.interrupt.Some? && lives[lo].running.None?
    requires forall k | lo <= k < hi :: NotAnswer(moves[k], lives[lo].thread.value.interrupt.value)
    ensures lives[hi].thread == lives[lo].thread && lives[hi].running.None?
    ensures forall k | lo <= k < hi :: Idle(lives, moves, k)
  {
    var holds := seq(|lives|, k requires 0 <= k < |lives| => SameThread(lives, lo, k));
    forall k | lo <= k < hi && holds[k] ensures holds[k + 1] {
      RunMoveAtInterrupt(su, lives, moves, k);
    }
    AllAlong(holds, lo, hi);
    assert holds[hi];
    forall k | lo <= k < hi ensures Idle(lives, moves, k) {
      assert holds[k];
      RunMoveAtInterrupt(su, lives, moves, k);
    }
  }

  /** A thread waiting at an interrupt stays exactly as it is, and does nothing to the ledger, until a run is
    * started with the kind it waits for and an id. */
  lemma InterruptHolds(su: Setup, lives: seq<Life>, moves: seq<Move>, lo: nat, hi: nat)
    requires Run(su, lives, moves) && lo <= hi < |lives|
    requires lives[lo].thread.Some? && lives[lo].thread.value.interrupt.Some? && lives[lo].running.None?
    requires forall k | lo <= k < hi :: NotAnswer(moves[k], lives[lo].thread.value.interrupt.value)
    ensures lives[hi].thread == lives[lo].thread && lives[hi].running.None?
    ensures forall k | lo <= k < hi :: Idle(lives, moves, k)
    ensures forall kind, id :: Gated(lives[hi].thread.value, kind, id)
  {
    InterruptStays(su, lives, moves, lo, hi);
  }

  /** A thread waits only at the scope node, for a product, or at the approval node, for a decision; whoever finds
    * it there, and the run that first gets there, is answered just that, with what the merchant is to be asked. */
  lemma WaitingIs(su: Setup, lives: seq<Life>, moves: seq<Move>, i: nat)
    requires Run(su, lives, moves) && i < |lives| && lives[i].thread.Some? && lives[i].thread.value.interrupt.Some?
    ensures var th, o := lives[i].thread.value, InterruptedOutcome(lives[i].thread.value.interrupt.value);
      && (th.next == Scope || th.next == Approval')
      && (o.status == RunAwaitingApproval <==> th.next == Approval') && (o.status == RunAwaitingInput <==> th.next == Scope)
      && o.interaction == th.interrupt && o.report == None
      && (th.next == Approval' ==> o.interaction == th.state.interaction && o.interaction.value.ApprovalRequired?)
      && (th.next == Scope ==> o.interaction.value.InputRequired?)
  {
    RunInv(su, lives, moves, i);
  }

  /** What a run is started as, when the thread waits at no interrupt: from the beginning without a checkpoint,
    * else from the checkpoint, unless the thread has ended or a resume brings no value. */
  lemma StartIs(checkpoint: Option<Thread>, kind: Option<ResumeKind>, id: Option<string>)
    requires checkpoint.Some? ==> checkpoint.value.interrupt.None?
    ensures var gate, resumes := RunGate(checkpoint, kind, id), kind == Some(InputKind) || kind == Some(ApprovalKind);
      match checkpoint
      case None => gate == if resumes then Refuse(CheckpointNotFound) else Begin
      case Some(th) =>
        if resumes && (id.None? || id.value == "") then gate == Refuse(ResumeValueRequired)
        else if th.next != End then gate == GoOn(None)
        else
          && gate.Answer? && gate.outcome.report == th.state.finalOutput && gate.outcome.interaction == th.state.interaction
          && gate.outcome.status == if th.state.finalStatus.Some? then th.state.finalStatus.value else RunCompleted
  {
  }

  /** The approval interrupt is passed only by an approval message that brings an id. */
  lemma ApprovalNeedsMessage(su: Setup, lives: seq<Life>, moves: seq<Move>, lo: nat, hi: nat)
    requires Run(su, lives, moves) && lo <= hi < |lives|
    requires lives[lo].thread.Some? && lives[lo].thread.value.next == Approval'
    requires lives[lo].thread.value.interrupt.Some? && lives[lo].running.None?
    requires lives[hi].thread != lives[lo].thread
    ensures exists k | lo <= k < hi ::
      moves[k].StartRun? && moves[k].kind == Some(ApprovalKind) && moves[k].id.Some? && moves[k].id.value != ""
  {
    RunInv(su, lives, moves, lo);
    var th := lives[lo].thread.value;
    assert th.interrupt.value.ApprovalRequired?;
    if forall k | lo <= k < hi :: NotAnswer(moves[k], th.interrupt.value) {
      InterruptStays(su, lives, moves, lo, hi);
    }
  }

  /** A run on a finished thread answers the stored outcome, or refuses a resume without a value. */
  predicate AnswersFinal(th: Thread, kind: Option<ResumeKind>, id: Option<string>) {
    var gate := RunGate(Some(th), kind, id);
    gate == Answer(FinalOutcome(th.state))
    || (gate == Refuse(ResumeValueRequired) && (id.None? || id.value == "")
        && (kind == Some(InputKind) || kind == Some(ApprovalKind)))
  }

  lemma MoveAtEnd(su: Setup, life: Life, mv: Move)
    requires life.thread.Some? && life.thread.value.next == End && life.thread.value.interrupt.None? && life.running.None?
    requires Can(su, life, mv)
    ensures Do(su, life, mv).thread == life.thread && Do(su, life, mv).running.None?
    ensures !mv.OtherLedger? ==> Do(su, life, mv) == life
  {
  }

  lemma RunMoveAtEnd(su: Setup, lives: seq<Life>, moves: seq<Move>, i: nat)
    requires Run(su, lives, moves) && i < |moves| && lives[i].running.None?
    requires lives[i].thread.Some? && lives[i].thread.value.next == End && lives[i].thread.value.interrupt.None?
    ensures lives[i + 1].thread == lives[i].thread && lives[i + 1].running.None?
    ensures Idle(lives, moves, i)
  {
    MoveAtEnd(su, lives[i], moves[i]);
  }

  lemma FinishedStays(su: Setup, lives: seq<Life>, moves: seq<Move>, lo: nat, hi: nat)
    requires Run(su, lives, moves) && lo <= hi < |lives|
    requires lives[lo].thread.Some? && lives[lo].thread.value.next == End && lives[lo].running.None?
    requires lives[lo].thread.value.interrupt.None?
    ensures lives[hi].thread == lives[lo].thread && lives[hi].running.None?
    ensures forall k | lo <= k < hi :: Idle(lives, moves, k)
  {
    var holds := seq(|lives|, k requires 0 <= k < |lives| => SameThread(lives, lo, k));
    forall k | lo <= k < hi && holds[k] ensures holds[k + 1] {
      RunMoveAtEnd(su, lives, moves, k);
    }
    AllAlong(holds, lo, hi);
    assert holds[hi];
    forall k | lo <= k < hi ensures Idle(lives, moves, k) {
      assert holds[k];
      RunMoveAtEnd(su, lives, moves, k);
    }
  }

  /** A finished thread never changes again, and every redelivery that is accepted gets the same outcome. */
  lemma FinishedConverges(su: Setup, lives: seq<Life>, moves: seq<Move>, lo: nat, hi: nat)
    requires Run(su, lives, moves) && lo <= hi < |lives|
    requires lives[lo].thread.Some? && lives[lo].thread.value.next == End && lives[lo].running.None?
    ensures lives[hi].thread == lives[lo].thread && lives[hi].running.None?
    ensures forall k | lo <= k < hi :: Idle(lives, moves, k)
    ensures forall kind, id :: AnswersFinal(lives[hi].thread.value, kind, id)
  {
    RunInv(su, lives, moves, lo);
    FinishedStays(su, lives, moves, lo, hi);
  }
}
