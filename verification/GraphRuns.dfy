/** The whole life of one task's thread: any number of runs, each stopped anywhere, with other processes
  * working on the ledger in between. One worker at a time runs the thread. */
module GraphRuns {
  import opened Wrappers
  import opened Tables
  import opened IdempotencyKey
  import opened Commerce
  import opened TaskRecords
  import opened AgentGraph
  import opened Transcript
  import LedgerRuns

  /** `running` holds the resume value of the run in progress until a node has consumed it. `steps` counts
    * committed node executions; `served` collects the evidence ids the metrics node and tools returned. */
  datatype Life = Life(thread: Option<Thread>, books: LedgerRuns.State, running: Option<Option<Resume>>,
                       steps: nat, served: set<string>)

  datatype Move =
    | StartRun(kind: Option<ResumeKind>, id: Option<string>)
    | Execute(input: Input)            // the next node runs: it commits, interrupts or fails
    | Abort(input: Input)              // the next node has its ledger effect but does not commit
    | DraftPlan(planId: string)        // the SELECTs of create_plan in the plan node
    | OtherLedger(act: LedgerRuns.Action)

  /** The task a thread belongs to, with the limits it runs under. */
  datatype Setup = Setup(cfg: Config, task: TaskRecord, prompt: string)

  predicate PatchPending(th: Thread) {
    th.next == Plan && HasProduct(th.state) && th.state.diagnosis.Some? && th.state.diagnosis.value.Parsed?
    && th.state.diagnosis.value.diagnosis.proposedPatch.Some?
  }

  function OwnRead(th: Thread, planId: string): LedgerRuns.Action
    requires PatchPending(th)
  {
    LedgerRuns.Read(planId, th.state.taskId, th.state.merchantId, th.state.productId.value,
                    th.state.diagnosis.value.diagnosis.proposedPatch.value)
  }

  predicate Active(life: Life) {
    life.running.Some? && life.thread.Some? && life.thread.value.next != End
  }

  /** Plans of this task are drafted by this thread's plan node only; what the plan node is handed is a plan
    * that `create_plan` found or stored. Everything else on the ledger may be done by anyone. */
  predicate Can(su: Setup, life: Life, mv: Move) {
    match mv
    case StartRun(_, _) => life.running.None?
    case Execute(input) => Active(life) && PlanGiven(su, life, input)
    case Abort(_) => Active(life)
    case DraftPlan(_) => Active(life) && PatchPending(life.thread.value) && ColonFree(su.task.taskId)
    case OtherLedger(act) => LedgerRuns.Enabled(life.books, act) && (act.Read? ==> act.taskId != su.task.taskId)
  }

  predicate PlanGiven(su: Setup, life: Life, input: Input) {
    input.PlanInput? ==> input.plan in life.books.ledger.plans && input.plan.taskId == su.task.taskId
  }

  function LedgerPart(life: Life, input: Input): LedgerRuns.State
    requires Active(life)
  {
    var th := life.thread.value;
    var act := if th.next == Approval'
               then ApprovalAct(life.books.ledger, th.state, life.running.value, FreshId(input)) else None;
    if act.Some? then LedgerRuns.After(life.books, act.value) else life.books
  }

  function UnionOf(results: seq<Option<set<string>>>): set<string> {
    if results == [] then {}
    else UnionOf(results[..|results| - 1])
         + (if results[|results| - 1].Some? then results[|results| - 1].value else {})
  }

  function Served(node: Node, input: Input): set<string> {
    if node == Metrics then METRIC_EVIDENCE
    else if node == Tools && input.ToolsInput? then UnionOf(input.results)
    else {}
  }

  /** The life after its next node has committed. */
  function Advanced(life: Life, input: Input, st: AgentState, next: Node): Life
    requires Active(life)
  {
    Life(Some(Thread(st, next, None)), LedgerPart(life, input), if next == End then None else Some(None),
         life.steps + 1, life.served + Served(life.thread.value.next, input))
  }

  function Do(su: Setup, life: Life, mv: Move): Life {
    match mv
    case StartRun(kind, id) =>
      (match RunGate(life.thread, kind, id)
       case Begin => life.(thread := Some(Thread(InitialState(su.task, su.prompt), Scope, None)), running := Some(None))
       case GoOn(resume) => life.(running := Some(resume))
       case _ => life)
    case Execute(input) =>
      if !Active(life) then life
      else
        var th := life.thread.value;
        var books := LedgerPart(life, input);
        (match RunNode(su.cfg, life.books.ledger, th, life.running.value, input)
         case Commit(st, next) => Advanced(life, input, st, next)
         case Interrupt(i) => life.(thread := Some(th.(interrupt := Some(i))), running := None)
         case Fail(_) => life.(books := books, running := None))
    case Abort(input) =>
      if !Active(life) then life else life.(books := LedgerPart(life, input), running := None)
    case DraftPlan(planId) =>
      if life.thread.None? || !PatchPending(life.thread.value) then life
      else life.(books := LedgerRuns.After(life.books, OwnRead(life.thread.value, planId)))
    case OtherLedger(act) => life.(books := LedgerRuns.After(life.books, act))
  }

  ghost predicate Init(life: Life) {
    life.thread.None? && life.running.None? && life.steps == 0 && life.served == {} && LedgerRuns.Init(life.books)
  }

  // ----- What the committed state satisfies -----

  predicate Late(next: Node) { next == Plan || next == Approval' || next == End }
  predicate Early(next: Node) { next == Scope || next == Metrics }

  predicate EndsInTurn(st: AgentState) {
    st.messages != [] && st.messages[|st.messages| - 1].Assistant?
  }

  /** Which calls are answered, by the node that runs next. */
  ghost predicate PairingInv(st: AgentState, next: Node) {
    && Owing(st.messages).Some?
    && (Early(next) || next == Model ==> Owing(st.messages) == Some([]))
    && (next == Tools || next == Validate ==> EndsInTurn(st) && Owing(st.messages) == Some(CallIds(LastCalls(st))))
    && (next == Tools ==> !HasSubmit(LastCalls(st)) && LastCalls(st) != [])
    && (next == Validate ==> LastCalls(st) == [] || (|LastCalls(st)| == 1 && LastCalls(st)[0].name == SUBMIT))
  }

  ghost predicate TurnInv(cfg: Config, st: AgentState) {
    var turns := Turns(st.messages);
    && st.iteration == |turns| <= cfg.maxIterations
    && st.repeatedSteps == TrailingRun(turns) && st.lastSignature == LastBatch(turns)
    && (forall n | 0 < n <= |turns| :: TrailingRun(turns[..n]) < cfg.maxRepeatedSteps)
  }

  function Stage(next: Node, iteration: nat): nat {
    match next
    case Scope => 0
    case Metrics => 1
    case Model => 2 + 2 * iteration
    case Tools => 1 + 2 * iteration
    case Validate => 1 + 2 * iteration
    case Plan => 2 + 2 * iteration
    case Approval' => 3 + 2 * iteration
    case End => 4 + 2 * iteration
  }

  predicate CountInv(cfg: Config, st: AgentState, next: Node, steps: nat) {
    && st.reflectionCount <= cfg.maxReflections
    && (steps == Stage(next, st.iteration) || (next == End && steps == Stage(Approval', st.iteration)))
    && (Early(next) ==> st.iteration == 0)
  }

  /** The diagnosis in the state: none while tools run, and past validation one that passed it. */
  ghost predicate DiagnosisInv(st: AgentState, next: Node) {
    && (next == Validate ==> st.diagnosis.Some? && (st.diagnosis.value.Parsed? ==> LastCalls(st) != []))
    && (Late(next) ==> st.diagnosis.Some? && st.diagnosis.value.Parsed? && ValidationErrors(st) == [])
  }

  predicate ScopeInv(st: AgentState, next: Node) {
    && (!Early(next) ==> HasProduct(st))
    && (if Early(next) then st.metrics.None? else st.metrics == Some(METRIC_EVIDENCE))
  }

  /** Once anything follows a turn, each of its calls was the submission or ran within the task's scope. */
  ghost predicate CallsInScope(st: AgentState) {
    forall i, c | 0 <= i < |st.messages| - 1 && st.messages[i].Assistant? && c in st.messages[i].calls ::
      c.name == SUBMIT || (c.name in TOOLS && InTaskScope(st, c))
  }

  ghost predicate CallsBounded(cfg: Config, st: AgentState) {
    forall m | m in st.messages && m.Assistant? :: |m.calls| <= cfg.maxToolCalls
  }

  ghost predicate StateInv(cfg: Config, st: AgentState, next: Node, steps: nat, served: set<string>) {
    && PairingInv(st, next) && TurnInv(cfg, st) && CountInv(cfg, st, next, steps)
    && DiagnosisInv(st, next) && ScopeInv(st, next) && CallsInScope(st) && CallsBounded(cfg, st)
    && EvidenceIds(st) == served
  }

  // ----- Appending messages -----

  lemma ScopeAppend(st: AgentState, st': AgentState, more: seq<Message>)
    requires CallsInScope(st) && st'.messages == st.messages + more
    requires st'.merchantId == st.merchantId && st'.productId == st.productId
    requires forall m | m in more :: !m.Assistant?
    requires EndsInTurn(st) ==> forall c | c in LastCalls(st) :: c.name == SUBMIT || (c.name in TOOLS && InTaskScope(st, c))
    ensures CallsInScope(st')
  {
  }

  /** Messages that are no turns leave everything that is said about turns as it is. */
  lemma TurnsKept(cfg: Config, st: AgentState, st': AgentState, more: seq<Message>)
    requires TurnInv(cfg, st) && CallsInScope(st) && CallsBounded(cfg, st) && st'.messages == st.messages + more
    requires st'.merchantId == st.merchantId && st'.productId == st.productId
    requires (st'.iteration, st'.repeatedSteps, st'.lastSignature) == (st.iteration, st.repeatedSteps, st.lastSignature)
    requires forall m | m in more :: !m.Assistant?
    requires EndsInTurn(st) ==> forall c | c in LastCalls(st) :: c.name == SUBMIT || (c.name in TOOLS && InTaskScope(st, c))
    ensures TurnInv(cfg, st') && CallsInScope(st') && CallsBounded(cfg, st')
  {
    TurnsNoAssistant(st.messages, more);
    ScopeAppend(st, st', more);
  }

  // ----- Each node -----

  lemma MetricsCommit(cfg: Config, l: Ledger, st: AgentState, st': AgentState, complete: bool, steps: nat, served: set<string>)
    requires StateInv(cfg, st, Metrics, steps, served) && MetricsNode(l, st, complete) == Ok(st')
    ensures StateInv(cfg, st', Model, steps + 1, served + METRIC_EVIDENCE)
  {
  }

  /** What a committed turn leaves behind. */
  lemma ModelLeaves(cfg: Config, st: AgentState, st': AgentState, turn: Turn)
    requires ModelNode(cfg, st, turn) == Ok(st')
    ensures st'.messages == st.messages + [Assistant(turn.calls)] && LastCalls(st') == turn.calls
    ensures if HasSubmit(turn.calls) then |turn.calls| == 1 && turn.calls[0].name == SUBMIT && st'.diagnosis.Some?
            else if turn.calls == [] then st'.diagnosis == Some(Unparsed) else st'.diagnosis.None?
    ensures st'.metrics == st.metrics && st'.productId == st.productId && st'.reflectionCount == st.reflectionCount
    ensures st'.iteration == st.iteration + 1 <= cfg.maxIterations
  {
  }

  lemma NoNewEvidence(st: AgentState, st': AgentState, m: Message)
    requires st'.messages == st.messages + [m] && st'.metrics == st.metrics && !m.Tool?
    ensures EvidenceIds(st') == EvidenceIds(st)
  {
    EvidenceAppend(st.messages, m);
    assert TranscriptEvidence(st'.messages) == TranscriptEvidence(st.messages) + {};
    assert TranscriptEvidence(st.messages) + {} == TranscriptEvidence(st.messages);
  }

  /** A turn owes its calls: it is answered by the tools, or it is a lone submission or no call at all. */
  lemma ModelPairing(cfg: Config, st: AgentState, st': AgentState, turn: Turn)
    requires Owing(st.messages) == Some([]) && ModelNode(cfg, st, turn) == Ok(st')
    ensures PairingInv(st', RouteAfterModel(st'))
  {
    ModelLeaves(cfg, st, st', turn);
    OwingAppend(st.messages, Assistant(turn.calls));
    assert Owing(st'.messages) == Some(CallIds(turn.calls)) && EndsInTurn(st');
  }

  lemma ModelDiagnosis(cfg: Config, st: AgentState, st': AgentState, turn: Turn)
    requires ModelNode(cfg, st, turn) == Ok(st')
    ensures DiagnosisInv(st', RouteAfterModel(st'))
  {
    ModelLeaves(cfg, st, st', turn);
  }

  /** What precedes a turn is fully answered, so its calls have been executed within scope. */
  lemma ModelScope(cfg: Config, st: AgentState, st': AgentState, turn: Turn)
    requires Owing(st.messages) == Some([]) && CallsInScope(st) && CallsBounded(cfg, st) && ModelNode(cfg, st, turn) == Ok(st')
    ensures CallsInScope(st') && CallsBounded(cfg, st')
  {
  }

  /** Counters and scope one turn further. */
  lemma TurnCounts(cfg: Config, st: AgentState, st': AgentState, next: Node, steps: nat)
    requires CountInv(cfg, st, Model, steps) && ScopeInv(st, Model) && (next == Tools || next == Validate)
    requires st'.metrics == st.metrics && st'.productId == st.productId && st'.reflectionCount == st.reflectionCount
    requires st'.iteration == st.iteration + 1
    ensures CountInv(cfg, st', next, steps + 1) && ScopeInv(st', next)
  {
  }

  lemma ModelCounts(cfg: Config, st: AgentState, st': AgentState, turn: Turn, steps: nat)
    requires CountInv(cfg, st, Model, steps) && ScopeInv(st, Model) && ModelNode(cfg, st, turn) == Ok(st')
    ensures CountInv(cfg, st', RouteAfterModel(st'), steps + 1) && ScopeInv(st', RouteAfterModel(st'))
    ensures EvidenceIds(st') == EvidenceIds(st)
  {
    ModelLeaves(cfg, st, st', turn);
    NoNewEvidence(st, st', Assistant(turn.calls));
    TurnCounts(cfg, st, st', RouteAfterModel(st'), steps);
  }

  lemma ModelCommit(cfg: Config, st: AgentState, st': AgentState, turn: Turn, steps: nat, served: set<string>)
    requires StateInv(cfg, st, Model, steps, served) && ModelNode(cfg, st, turn) == Ok(st')
    ensures StateInv(cfg, st', RouteAfterModel(st'), steps + 1, served)
  {
    ModelCounts(cfg, st, st', turn, steps);
    ModelPairing(cfg, st, st', turn);
    ModelDiagnosis(cfg, st, st', turn);
    ModelTurnInv(cfg, st, st', turn);
    ModelScope(cfg, st, st', turn);
  }

  lemma ModelTurnInv(cfg: Config, st: AgentState, st': AgentState, turn: Turn)
    requires TurnInv(cfg, st) && ModelNode(cfg, st, turn) == Ok(st')
    ensures TurnInv(cfg, st')
  {
    TurnsAppend(st.messages, Assistant(turn.calls));
    DetectRepetitionCounts(st, turn, Turns(st.messages));
    ModelTurns(cfg, Turns(st.messages), BatchOf(turn.calls));
  }

  lemma ModelTurns(cfg: Config, turns: seq<Batch>, batch: Batch)
    requires forall n | 0 < n <= |turns| :: TrailingRun(turns[..n]) < cfg.maxRepeatedSteps
    requires TrailingRun(turns + [batch]) < cfg.maxRepeatedSteps
    ensures forall n | 0 < n <= |turns + [batch]| :: TrailingRun((turns + [batch])[..n]) < cfg.maxRepeatedSteps
  {
    forall n | 0 < n <= |turns + [batch]| ensures TrailingRun((turns + [batch])[..n]) < cfg.maxRepeatedSteps {
      if n <= |turns| {
        assert (turns + [batch])[..n] == turns[..n];
      } else {
        assert (turns + [batch])[..n] == turns + [batch];
      }
    }
  }

  lemma FirstCall(st: AgentState, calls: seq<ToolCall>, results: seq<Option<set<string>>>)
    returns (m: Message, ms: seq<Message>)
    requires |results| == |calls| && calls != [] && ExecuteAll(st, calls, results).Ok?
    ensures results[0].Some? && m == Tool(calls[0].callId, calls[0].name, ToolResult(results[0].value))
    ensures calls[0].name in TOOLS && InTaskScope(st, calls[0])
    ensures ExecuteAll(st, calls[1..], results[1..]) == Ok(ms) && ExecuteAll(st, calls, results) == Ok([m] + ms)
  {
    m := ExecuteTool(st, calls[0], results[0]).value;
    ms := ExecuteAll(st, calls[1..], results[1..]).value;
  }

  predicate IsAnswer(st: AgentState, m: Message, call: ToolCall) {
    Answers(m, call) && call.name in TOOLS && InTaskScope(st, call)
  }

  /** When all calls of a turn succeed, their answers come in call order, each within scope. */
  lemma {:induction false} ExecuteAllAnswers(st: AgentState, calls: seq<ToolCall>, results: seq<Option<set<string>>>)
    requires |results| == |calls| && ExecuteAll(st, calls, results).Ok?
    ensures var ms := ExecuteAll(st, calls, results).value;
      |ms| == |calls| && forall i | 0 <= i < |ms| :: IsAnswer(st, ms[i], calls[i])
  {
    if calls != [] {
      var m, ms := FirstCall(st, calls, results);
      ExecuteAllAnswers(st, calls[1..], results[1..]);
      forall i | 0 <= i < |calls| ensures IsAnswer(st, ([m] + ms)[i], calls[i]) {
        if i > 0 {
          assert IsAnswer(st, ms[i - 1], calls[1..][i - 1]);
        }
      }
    }
  }

  /** And they bring exactly the evidence the tools returned. */
  lemma {:induction false} ExecuteAllEvidence(st: AgentState, calls: seq<ToolCall>, results: seq<Option<set<string>>>)
    requires |results| == |calls| && ExecuteAll(st, calls, results).Ok?
    ensures TranscriptEvidence(ExecuteAll(st, calls, results).value) == UnionOf(results)
  {
    if calls != [] {
      var m, ms := FirstCall(st, calls, results);
      ExecuteAllEvidence(st, calls[1..], results[1..]);
      EvidenceAppendAll([m], ms);
      EvidenceAppend([], m);
      assert [] + [m] == [m];
      UnionCons(results[0], results[1..]);
      assert results == [results[0]] + results[1..];
    }
  }

  lemma {:induction false} UnionCons(r: Option<set<string>>, rs: seq<Option<set<string>>>)
    ensures UnionOf([r] + rs) == (if r.Some? then r.value else {}) + UnionOf(rs)
  {
    if rs == [] {
      assert [r] + rs == [r] && [r][..0] == [];
    } else {
      var n := |rs| - 1;
      assert ([r] + rs)[..n + 1] == [r] + rs[..n];
      UnionCons(r, rs[..n]);
    }
  }

  /** The answers of the tools pay off the turn they answer. */
  lemma ToolsAnswer(st: AgentState, results: seq<Option<set<string>>>)
    requires Owing(st.messages) == Some(CallIds(LastCalls(st)))
    requires |results| == |LastCalls(st)| && ExecuteAll(st, LastCalls(st), results).Ok?
    ensures var ms := ExecuteAll(st, LastCalls(st), results).value;
      && Owing(st.messages + ms) == Some([])
      && TranscriptEvidence(st.messages + ms) == TranscriptEvidence(st.messages) + UnionOf(results)
      && (forall m | m in ms :: !m.Assistant?)
      && (forall c | c in LastCalls(st) :: c.name in TOOLS && InTaskScope(st, c))
  {
    var calls := LastCalls(st);
    ExecuteAllAnswers(st, calls, results);
    ExecuteAllEvidence(st, calls, results);
    var ms := ExecuteAll(st, calls, results).value;
    forall i | 0 <= i < |ms| ensures ms[i].Tool? && ms[i].callId == CallIds(calls)[i] {
      assert IsAnswer(st, ms[i], calls[i]);
    }
    forall c | c in calls ensures c.name in TOOLS && InTaskScope(st, c) {
      var i :| 0 <= i < |calls| && calls[i] == c;
      assert IsAnswer(st, ms[i], calls[i]);
    }
    OwingAnswers(st.messages, ms);
    assert CallIds(calls)[|ms|..] == [];
    EvidenceAppendAll(st.messages, ms);
  }

  /** Counters and scope after the tools have answered. */
  lemma ToolsCounts(cfg: Config, st: AgentState, st': AgentState, results: seq<Option<set<string>>>, steps: nat)
    requires CountInv(cfg, st, Tools, steps) && ScopeInv(st, Tools) && ToolNode(st, results) == Ok(st')
    ensures CountInv(cfg, st', Model, steps + 1) && ScopeInv(st', Model) && DiagnosisInv(st', Model)
  {
  }

  lemma ToolsMessages(cfg: Config, st: AgentState, st': AgentState, results: seq<Option<set<string>>>)
    requires PairingInv(st, Tools) && TurnInv(cfg, st) && CallsInScope(st) && CallsBounded(cfg, st)
    requires ToolNode(st, results) == Ok(st')
    ensures PairingInv(st', Model) && TurnInv(cfg, st') && CallsInScope(st') && CallsBounded(cfg, st')
    ensures EvidenceIds(st') == EvidenceIds(st) + UnionOf(results)
  {
    ToolsAnswer(st, results);
    TurnsKept(cfg, st, st', ExecuteAll(st, LastCalls(st), results).value);
  }

  lemma ToolsCommit(cfg: Config, st: AgentState, st': AgentState, results: seq<Option<set<string>>>, steps: nat, served: set<string>)
    requires StateInv(cfg, st, Tools, steps, served) && ToolNode(st, results) == Ok(st')
    ensures StateInv(cfg, st', Model, steps + 1, served + UnionOf(results))
  {
    ToolsCounts(cfg, st, st', results, steps);
    ToolsMessages(cfg, st, st', results);
  }

  /** A rejected submission is answered by its own tool message, a turn without a call by none. */
  lemma CorrectionsAnswer(st: AgentState, errors: seq<ValidationError>)
    requires Owing(st.messages) == Some(CallIds(LastCalls(st)))
    requires LastCalls(st) == [] || (|LastCalls(st)| == 1 && LastCalls(st)[0].name == SUBMIT)
    ensures Owing(st.messages + Corrections(st, errors)) == Some([])
    ensures TranscriptEvidence(st.messages + Corrections(st, errors)) == TranscriptEvidence(st.messages)
    ensures forall m | m in Corrections(st, errors) :: !m.Assistant?
  {
    var calls := LastCalls(st);
    var note := User("<validation errors>");
    if calls == [] {
      assert Corrections(st, errors) == [note];
      OwingAppend(st.messages, note);
      assert CallIds(calls) == [];
      EvidenceAppend(st.messages, note);
    } else {
      var answer := Tool(calls[0].callId, SUBMIT, Rejection(errors));
      assert Corrections(st, errors) == [answer, note];
      assert st.messages + Corrections(st, errors) == st.messages + [answer] + [note];
      OwingAppend(st.messages, answer);
      OwingAppend(st.messages + [answer], note);
      EvidenceAppend(st.messages, answer);
      EvidenceAppend(st.messages + [answer], note);
      assert CallIds(calls)[1..] == [];
    }
  }

  lemma ValidateRejects(cfg: Config, st: AgentState, st': AgentState, steps: nat, served: set<string>)
    requires StateInv(cfg, st, Validate, steps, served) && ValidationNode(cfg, st) == Ok(st') && ValidationErrors(st) != []
    ensures StateInv(cfg, st', Model, steps + 1, served)
  {
    CorrectionsAnswer(st, ValidationErrors(st));
    TurnsKept(cfg, st, st', Corrections(st, ValidationErrors(st)));
  }

  /** The two states have the same transcript, product, metrics, diagnosis and counters. */
  predicate SameCourse(st: AgentState, st': AgentState) {
    && st'.messages == st.messages && st'.merchantId == st.merchantId && st'.productId == st.productId
    && st'.metrics == st.metrics && st'.diagnosis == st.diagnosis && st'.iteration == st.iteration
    && st'.repeatedSteps == st.repeatedSteps && st'.lastSignature == st.lastSignature
    && st'.reflectionCount == st.reflectionCount
  }

  lemma SameErrors(st: AgentState, st': AgentState)
    requires SameCourse(st, st')
    ensures EvidenceIds(st') == EvidenceIds(st) && ValidationErrors(st') == ValidationErrors(st)
  {
  }

  lemma SameTurns(cfg: Config, st: AgentState, st': AgentState)
    requires SameCourse(st, st')
    ensures TurnInv(cfg, st) ==> TurnInv(cfg, st')
    ensures CallsInScope(st) ==> CallsInScope(st')
    ensures CallsBounded(cfg, st) ==> CallsBounded(cfg, st')
  {
  }

  /** Past validation only results, interaction and the error list change. */
  lemma CourseKept(cfg: Config, st: AgentState, st': AgentState, next: Node, next': Node, steps: nat, served: set<string>)
    requires StateInv(cfg, st, next, steps, served) && SameCourse(st, st')
    requires Late(next') && (next == Validate || Late(next))
    requires st.diagnosis.Some? && st.diagnosis.value.Parsed? && ValidationErrors(st) == []
    requires CountInv(cfg, st, next', steps + 1)
    ensures StateInv(cfg, st', next', steps + 1, served)
  {
    SameErrors(st, st');
    SameTurns(cfg, st, st');
  }

  lemma ValidatePasses(cfg: Config, st: AgentState, st': AgentState, steps: nat, served: set<string>)
    requires StateInv(cfg, st, Validate, steps, served) && ValidationNode(cfg, st) == Ok(st') && ValidationErrors(st) == []
    ensures StateInv(cfg, st', Plan, steps + 1, served) && st'.(validationErrors := st.validationErrors) == st
  {
    CourseKept(cfg, st, st', Validate, Plan, steps, served);
  }

  /** Nodes that only set results and interaction leave everything else as it was. */
  lemma ResultsCommit(cfg: Config, st: AgentState, st': AgentState, next: Node, next': Node, steps: nat, served: set<string>)
    requires StateInv(cfg, st, next, steps, served)
    requires (next == Plan && (next' == Approval' || next' == End)) || (next == Approval' && next' == End)
    requires st'.(interaction := st.interaction, finalStatus := st.finalStatus, finalOutput := st.finalOutput) == st
    ensures StateInv(cfg, st', next', steps + 1, served)
  {
    CourseKept(cfg, st, st', next, next', steps, served);
  }

  lemma ScopeCommit(cfg: Config, st: AgentState, productId: string, steps: nat, served: set<string>)
    requires StateInv(cfg, st, Scope, steps, served)
    ensures StateInv(cfg, st.(productId := Some(productId)), Metrics, steps + 1, served)
  {
    assert Turns(st.messages) == [];
    NoTurns(st.messages);
  }

  lemma {:induction false} NoTurns(messages: seq<Message>)
    requires Turns(messages) == []
    ensures forall m | m in messages :: !m.Assistant?
  {
    if messages != [] {
      NoTurns(messages[..|messages| - 1]);
    }
  }

  // ----- The thread and the ledger -----

  /** The plan says what the validated diagnosis of this state proposes, for this state's product. */
  predicate PlanAgrees(st: AgentState, p: ActionPlan) {
    && st.diagnosis.Some? && st.diagnosis.value.Parsed?
    && st.diagnosis.value.diagnosis.proposedPatch == Some(ProductPatch(p.field, p.afterValue, p.reason))
    && p.taskId == st.taskId && p.merchantId == st.merchantId && st.productId == Some(p.productId)
  }

  predicate ProposesPatch(st: AgentState) {
    st.diagnosis.Some? && st.diagnosis.value.Parsed? && st.diagnosis.value.diagnosis.proposedPatch.Some?
  }

  ghost predicate BooksInv(su: Setup, th: Thread, books: LedgerRuns.State) {
    var st := th.state;
    && LedgerRuns.Inv(books)
    && st.taskId == su.task.taskId && st.merchantId == su.task.merchantId
    && (Named(su.task.productId) || th.next == Scope ==> st.productId == su.task.productId)
    && (th.next == End ==> st.finalOutput.Some? && (st.interaction.Some? <==> ProposesPatch(st)))
    && (th.next == Approval' ==> st.finalOutput.Some? && ProposesPatch(st))
    && (!Early(th.next) ==> HasProduct(st) && Owns(books.ledger, st.merchantId, st.productId.value))
    && (forall p | (p in books.drafts || p in books.ledger.plans) && p.taskId == st.taskId ::
          Late(th.next) && PlanAgrees(st, p))
    && (th.next != Approval' && th.next != End ==> st.interaction.None?)
    && (st.interaction.Some? ==> exists p | p in books.ledger.plans ::
          p.taskId == st.taskId && st.interaction == Some(PlanInteraction(p)))
    && (th.next == Approval' ==> st.interaction.Some?)
    && (th.interrupt.Some? ==>
          || (th.next == Scope && th.interrupt.value.InputRequired?)
          || (th.next == Approval' && th.interrupt == st.interaction))
  }

  ghost predicate Inv(su: Setup, life: Life) {
    && LedgerRuns.Inv(life.books)
    && match life.thread
       case None =>
         && life.running.None? && life.steps == 0 && life.served == {}
         && forall p | p in life.books.drafts || p in life.books.ledger.plans :: p.taskId != su.task.taskId
       case Some(th) =>
         && StateInv(su.cfg, th.state, th.next, life.steps, life.served)
         && BooksInv(su, th, life.books)
  }

  /** A ledger step that brings no plan of this task leaves the thread's relation to the ledger intact. */
  lemma BooksKept(su: Setup, th: Thread, books: LedgerRuns.State, act: LedgerRuns.Action)
    requires BooksInv(su, th, books) && LedgerRuns.Enabled(books, act)
    requires act.Read? ==> act.taskId != su.task.taskId || (PatchPending(th) && exists id :: act == OwnRead(th, id))
    ensures BooksInv(su, th, LedgerRuns.After(books, act))
  {
    var books' := LedgerRuns.After(books, act);
    LedgerRuns.StepInv(books, act);
    LedgerRuns.StepExtends(books, act);
    PlansFrom(books, act);
    var st := th.state;
    forall p | (p in books'.drafts || p in books'.ledger.plans) && p.taskId == st.taskId
      ensures Late(th.next) && PlanAgrees(st, p)
    {
    }
    if st.interaction.Some? {
      var p :| p in books.ledger.plans && p.taskId == st.taskId && st.interaction == Some(PlanInteraction(p));
      assert p in books'.ledger.plans;
    }
  }

  /** Where plans come from: an insert stores a draft, a read drafts a plan of its own task. */
  lemma PlansFrom(books: LedgerRuns.State, act: LedgerRuns.Action)
    requires LedgerRuns.Enabled(books, act)
    ensures var books' := LedgerRuns.After(books, act);
      && (forall p | p in books'.ledger.plans :: p in books.ledger.plans || p in books.drafts)
      && (forall p | p in books'.drafts && p !in books.drafts ::
            && act.Read? && p.taskId == act.taskId && p.merchantId == act.merchantId && p.productId == act.productId
            && act.patch == ProductPatch(p.field, p.afterValue, p.reason))
  {
  }

  lemma InitThreadInv(su: Setup, books: LedgerRuns.State)
    requires LedgerRuns.Inv(books)
    requires forall p | p in books.drafts || p in books.ledger.plans :: p.taskId != su.task.taskId
    ensures StateInv(su.cfg, InitialState(su.task, su.prompt), Scope, 0, {})
    ensures BooksInv(su, Thread(InitialState(su.task, su.prompt), Scope, None), books)
  {
    var st := InitialState(su.task, su.prompt);
    var m := User(su.prompt);
    OwingAppend([], m);
    TurnsAppend([], m);
    EvidenceAppend([], m);
    assert [] + [m] == st.messages;
  }

  // ----- Every step of a life -----

  /** Before the plan node there is no plan or draft of the task, so early nodes cannot disagree with one. */
  lemma EarlyCommit(su: Setup, th: Thread, books: LedgerRuns.State, st': AgentState, next': Node)
    requires BooksInv(su, th, books) && !Late(th.next) && next' != Scope && next' != Approval' && next' != End
    requires st'.taskId == th.state.taskId && st'.merchantId == th.state.merchantId
    requires st'.interaction == th.state.interaction
    requires Named(su.task.productId) ==> st'.productId == su.task.productId
    requires !Early(next') ==> HasProduct(st') && Owns(books.ledger, st'.merchantId, st'.productId.value)
    ensures BooksInv(su, Thread(st', next', None), books)
  {
  }

  lemma PlanCommit(su: Setup, th: Thread, books: LedgerRuns.State, plan: Option<ActionPlan>, st': AgentState)
    requires BooksInv(su, th, books) && th.next == Plan && PlanNode(th.state, plan) == Ok(st')
    requires plan.Some? ==> plan.value in books.ledger.plans && plan.value.taskId == su.task.taskId
    ensures BooksInv(su, Thread(st', RouteAfterPlan(st'), None), books)
  {
  }

  lemma ApprovalCommit(su: Setup, th: Thread, books: LedgerRuns.State, st': AgentState)
    requires BooksInv(su, th, books) && th.next == Approval'
    requires st'.(finalStatus := th.state.finalStatus, finalOutput := th.state.finalOutput) == th.state
    requires st'.finalOutput.Some? == th.state.finalOutput.Some?
    ensures BooksInv(su, Thread(st', End, None), books)
  {
  }

  lemma LedgerPartKept(su: Setup, life: Life, input: Input)
    requires Inv(su, life) && Active(life)
    ensures BooksInv(su, life.thread.value, LedgerPart(life, input))
    ensures LedgerPart(life, input) != life.books ==> life.thread.value.next == Approval'
  {
    var th := life.thread.value;
    if LedgerPart(life, input) != life.books {
      var act := ApprovalAct(life.books.ledger, th.state, life.running.value, FreshId(input)).value;
      assert act.Apply?;
      BooksKept(su, th, life.books, act);
    }
  }

  /** The next node has run and committed `st'`, to be followed by `next'`. */
  predicate Commits(su: Setup, life: Life, input: Input, st': AgentState, next': Node) {
    && Active(life)
    && RunNode(su.cfg, life.books.ledger, life.thread.value, life.running.value, input) == Commit(st', next')
  }

  /** What each node may have committed. */
  predicate NodeShape(cfg: Config, l: Ledger, th: Thread, input: Input, st': AgentState, next': Node) {
    match th.next
    case Scope =>
      && next' == Metrics && st' == th.state.(productId := st'.productId) && st'.productId.Some?
      && (Named(th.state.productId) ==> st' == th.state)
    case Metrics => next' == Model && MetricsNode(l, th.state, true) == Ok(st')
    case Model => input.ModelInput? && ModelNode(cfg, th.state, input.turn) == Ok(st') && next' == RouteAfterModel(st')
    case Tools => input.ToolsInput? && ToolNode(th.state, input.results) == Ok(st') && next' == Model
    case Validate => ValidationNode(cfg, th.state) == Ok(st') && next' == RouteAfterValidation(st')
    case Plan =>
      && PlanNode(th.state, if input.PlanInput? then Some(input.plan) else None) == Ok(st')
      && next' == RouteAfterPlan(st')
    case Approval' =>
      && next' == End
      && st'.(finalStatus := th.state.finalStatus, finalOutput := th.state.finalOutput) == th.state
      && st'.finalOutput.Some? == th.state.finalOutput.Some?
    case End => false
  }

  lemma CommitShape(su: Setup, life: Life, input: Input, st': AgentState, next': Node)
    requires Commits(su, life, input, st', next')
    ensures NodeShape(su.cfg, life.books.ledger, life.thread.value, input, st', next')
  {
  }

  lemma StateCommit(su: Setup, life: Life, input: Input, st': AgentState, next': Node)
    requires Inv(su, life) && Commits(su, life, input, st', next')
    ensures StateInv(su.cfg, st', next', life.steps + 1, life.served + Served(life.thread.value.next, input))
  {
    CommitShape(su, life, input, st', next');
    NodeCommit(su.cfg, life.books.ledger, life.thread.value, input, st', next', life.steps, life.served);
  }

  lemma NodeCommit(cfg: Config, l: Ledger, th: Thread, input: Input, st': AgentState, next': Node, steps: nat, served: set<string>)
    requires StateInv(cfg, th.state, th.next, steps, served)
    requires NodeShape(cfg, l, th, input, st', next')
    ensures StateInv(cfg, st', next', steps + 1, served + Served(th.next, input))
  {
    if th.next == Scope || th.next == Metrics || th.next == Model || th.next == Tools {
      GatheringCommit(cfg, l, th, input, st', next', steps, served);
    } else {
      DecidingCommit(cfg, l, th, input, st', next', steps, served);
    }
  }

  lemma GatheringCommit(cfg: Config, l: Ledger, th: Thread, input: Input, st': AgentState, next': Node, steps: nat, served: set<string>)
    requires StateInv(cfg, th.state, th.next, steps, served)
    requires NodeShape(cfg, l, th, input, st', next') && (Early(th.next) || th.next == Model || th.next == Tools)
    ensures StateInv(cfg, st', next', steps + 1, served + Served(th.next, input))
  {
    match th.next
    case Scope => ScopeCommit(cfg, th.state, st'.productId.value, steps, served);
    case Metrics => MetricsCommit(cfg, l, th.state, st', true, steps, served);
    case Model => ModelCommit(cfg, th.state, st', input.turn, steps, served);
    case Tools => ToolsCommit(cfg, th.state, st', input.results, steps, served);
  }

  lemma DecidingCommit(cfg: Config, l: Ledger, th: Thread, input: Input, st': AgentState, next': Node, steps: nat, served: set<string>)
    requires StateInv(cfg, th.state, th.next, steps, served)
    requires NodeShape(cfg, l, th, input, st', next') && (th.next == Validate || th.next == Plan || th.next == Approval')
    ensures StateInv(cfg, st', next', steps + 1, served)
  {
    match th.next
    case Validate => ValidateCommit(cfg, th.state, st', next', steps, served);
    case Plan => ResultsCommit(cfg, th.state, st', Plan, next', steps, served);
    case Approval' => ResultsCommit(cfg, th.state, st', Approval', End, steps, served);
  }

  lemma ValidateCommit(cfg: Config, st: AgentState, st': AgentState, next': Node, steps: nat, served: set<string>)
    requires StateInv(cfg, st, Validate, steps, served) && ValidationNode(cfg, st) == Ok(st') && next' == RouteAfterValidation(st')
    ensures StateInv(cfg, st', next', steps + 1, served)
  {
    if ValidationErrors(st) == [] {
      ValidatePasses(cfg, st, st', steps, served);
    } else {
      ValidateRejects(cfg, st, st', steps, served);
    }
  }

  /** Before the plan node, a node leaves task, merchant and interaction alone, and a product once owned. */
  lemma EarlyShape(cfg: Config, l: Ledger, th: Thread, input: Input, st': AgentState, next': Node)
    requires NodeShape(cfg, l, th, input, st', next') && !Late(th.next)
    requires !Early(th.next) ==> HasProduct(th.state) && Owns(l, th.state.merchantId, th.state.productId.value)
    ensures st'.taskId == th.state.taskId && st'.merchantId == th.state.merchantId && st'.interaction == th.state.interaction
    ensures Named(th.state.productId) ==> st'.productId == th.state.productId
    ensures next' != Scope && next' != Approval' && next' != End
    ensures !Early(next') ==> HasProduct(st') && Owns(l, st'.merchantId, st'.productId.value)
  {
  }

  lemma BooksCommit(su: Setup, life: Life, input: Input, st': AgentState, next': Node)
    requires Inv(su, life) && PlanGiven(su, life, input) && Commits(su, life, input, st', next')
    ensures BooksInv(su, Thread(st', next', None), LedgerPart(life, input))
  {
    var th := life.thread.value;
    CommitShape(su, life, input, st', next');
    LedgerPartKept(su, life, input);
    if th.next == Plan {
      PlanCommit(su, th, life.books, if input.PlanInput? then Some(input.plan) else None, st');
    } else if th.next == Approval' {
      ApprovalCommit(su, th, LedgerPart(life, input), st');
    } else {
      EarlyShape(su.cfg, life.books.ledger, th, input, st', next');
      EarlyCommit(su, th, life.books, st', next');
    }
  }

  /** Only two nodes interrupt, the approval node with the interaction of its own plan. */
  lemma InterruptShape(cfg: Config, l: Ledger, th: Thread, resume: Option<Resume>, input: Input, i: Interaction)
    requires RunNode(cfg, l, th, resume, input) == Interrupt(i)
    ensures (th.next == Scope && i.InputRequired?) || (th.next == Approval' && th.state.interaction == Some(i))
  {
  }

  lemma InterruptKept(su: Setup, th: Thread, books: LedgerRuns.State, i: Interaction)
    requires BooksInv(su, th, books)
    requires (th.next == Scope && i.InputRequired?) || (th.next == Approval' && th.state.interaction == Some(i))
    ensures BooksInv(su, th.(interrupt := Some(i)), books)
  {
  }

  lemma DoCommits(su: Setup, life: Life, input: Input, st': AgentState, next': Node)
    requires Commits(su, life, input, st', next')
    ensures Do(su, life, Execute(input)) == Advanced(life, input, st', next')
  {
  }

  lemma AdvancedInv(su: Setup, life: Life, input: Input, st': AgentState, next': Node)
    requires Active(life) && BooksInv(su, Thread(st', next', None), LedgerPart(life, input))
    requires StateInv(su.cfg, st', next', life.steps + 1, life.served + Served(life.thread.value.next, input))
    ensures Inv(su, Advanced(life, input, st', next'))
  {
  }

  lemma ExecuteCommits(su: Setup, life: Life, input: Input, st': AgentState, next': Node)
    requires Inv(su, life) && PlanGiven(su, life, input) && Commits(su, life, input, st', next')
    ensures Inv(su, Do(su, life, Execute(input)))
  {
    StateCommit(su, life, input, st', next');
    BooksCommit(su, life, input, st', next');
    AdvancedInv(su, life, input, st', next');
    DoCommits(su, life, input, st', next');
  }

  lemma ExecuteInterrupts(su: Setup, life: Life, input: Input, i: Interaction)
    requires Inv(su, life) && Active(life)
    requires RunNode(su.cfg, life.books.ledger, life.thread.value, life.running.value, input) == Interrupt(i)
    ensures Inv(su, Do(su, life, Execute(input)))
  {
    InterruptShape(su.cfg, life.books.ledger, life.thread.value, life.running.value, input, i);
    InterruptKept(su, life.thread.value, life.books, i);
  }

  lemma ExecuteFails(su: Setup, life: Life, input: Input)
    requires Inv(su, life) && Active(life)
    requires RunNode(su.cfg, life.books.ledger, life.thread.value, life.running.value, input).Fail?
    ensures Inv(su, Do(su, life, Execute(input)))
  {
    LedgerPartKept(su, life, input);
  }

  lemma ExecuteInv(su: Setup, life: Life, input: Input)
    requires Inv(su, life) && Can(su, life, Execute(input))
    ensures Inv(su, Do(su, life, Execute(input)))
  {
    match RunNode(su.cfg, life.books.ledger, life.thread.value, life.running.value, input)
    case Commit(st', next') => ExecuteCommits(su, life, input, st', next');
    case Interrupt(i) => ExecuteInterrupts(su, life, input, i);
    case Fail(_) => ExecuteFails(su, life, input);
  }

  lemma StartInv(su: Setup, life: Life, mv: Move)
    requires Inv(su, life) && mv.StartRun?
    ensures Inv(su, Do(su, life, mv))
  {
    match RunGate(life.thread, mv.kind, mv.id)
    case Begin =>
      InitThreadInv(su, life.books);
      assert Do(su, life, mv)
          == life.(thread := Some(Thread(InitialState(su.task, su.prompt), Scope, None)), running := Some(None));
    case _ =>
  }

  lemma OtherLedgerInv(su: Setup, life: Life, mv: Move)
    requires Inv(su, life) && Can(su, life, mv) && mv.OtherLedger?
    ensures Inv(su, Do(su, life, mv))
  {
    LedgerRuns.StepInv(life.books, mv.act);
    if life.thread.Some? {
      BooksKept(su, life.thread.value, life.books, mv.act);
    } else {
      PlansFrom(life.books, mv.act);
    }
  }

  lemma StepInv(su: Setup, life: Life, mv: Move)
    requires Inv(su, life) && Can(su, life, mv)
    ensures Inv(su, Do(su, life, mv))
  {
    match mv
    case StartRun(_, _) => StartInv(su, life, mv);
    case Execute(input) => ExecuteInv(su, life, input);
    case Abort(input) => LedgerPartKept(su, life, input);
    case DraftPlan(planId) => BooksKept(su, life.thread.value, life.books, OwnRead(life.thread.value, planId));
    case OtherLedger(_) => OtherLedgerInv(su, life, mv);
  }

  // ----- Lives -----

  ghost predicate Run(su: Setup, lives: seq<Life>, moves: seq<Move>) {
    && |lives| == |moves| + 1 && Init(lives[0])
    && forall i | 0 <= i < |moves| :: Can(su, lives[i], moves[i]) && lives[i + 1] == Do(su, lives[i], moves[i])
  }

  lemma {:induction false} RunInv(su: Setup, lives: seq<Life>, moves: seq<Move>, i: nat)
    requires Run(su, lives, moves) && i < |lives|
    ensures Inv(su, lives[i])
  {
    if i == 0 {
      LedgerRuns.InitInv(lives[0].books);
    } else {
      RunInv(su, lives, moves, i - 1);
      StepInv(su, lives[i - 1], moves[i - 1]);
    }
  }
}
