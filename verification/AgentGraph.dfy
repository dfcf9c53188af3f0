/** The agent graph: its state, its seven nodes, its routers, and what a run does at its start. The language
  * model and the tools are whatever the environment hands in. */
module AgentGraph {
  import opened Wrappers
  import opened Tables
  import opened Commerce
  import opened TaskRecords
  import LedgerRuns

  /** An argument value: a JSON string, or the text of any other JSON value. */
  datatype Json = JString(text: string) | JOther(json: string)

  datatype ToolCall = ToolCall(callId: string, name: string, arguments: map<string, Json>)

  datatype FindingKind = Fact | Hypothesis | Gap

  datatype Finding = Finding(category: string, statement: string, kind: FindingKind, evidenceIds: seq<string>)

  datatype Diagnosis = Diagnosis(summary: string, findings: seq<Finding>, proposedPatch: Option<ProductPatch>)

  /** What the model node stores: a diagnosis, or the note that none could be parsed. */
  datatype RawDiagnosis = Unparsed | Parsed(diagnosis: Diagnosis)

  /** A model turn; `submission` is what `submit_diagnosis` arguments parse to, if they fit the schema. */
  datatype Turn = Turn(calls: seq<ToolCall>, submission: Option<Diagnosis>)

  datatype ValidationError =
    | SchemaError
    | FactWithoutEvidence(statement: string)
    | UnknownEvidence(ids: set<string>)
    | PatchWithoutContentFact

  datatype ToolContent = ToolResult(evidenceIds: set<string>) | Rejection(errors: seq<ValidationError>)

  datatype Message =
    | User(text: string)
    | Assistant(calls: seq<ToolCall>)
    | Tool(callId: string, name: string, content: ToolContent)

  /** The calls of a turn as the repetition check compares them: names and arguments, not call ids. */
  type Batch = seq<(string, map<string, Json>)>

  datatype Note = RejectedNote | AppliedNote(receiptId: string, productVersion: int)

  datatype Report = Report(diagnosis: Diagnosis, note: Option<Note>)

  datatype AgentState = AgentState(
    taskId: string, merchantId: string, productId: Option<string>, messages: seq<Message>,
    metrics: Option<set<string>>, diagnosis: Option<RawDiagnosis>, iteration: nat, repeatedSteps: nat,
    lastSignature: Option<Batch>, reflectionCount: nat, validationErrors: seq<ValidationError>,
    interaction: Option<Interaction>, finalStatus: Option<RunStatus>, finalOutput: Option<Report>)

  datatype Node = Scope | Metrics | Model | Tools | Validate | Plan | Approval' | End

  /** A checkpoint: the committed state, the node to run next, and the interrupt that node is waiting at. */
  datatype Thread = Thread(state: AgentState, next: Node, interrupt: Option<Interaction>)

  datatype Config = Config(maxIterations: nat, maxRepeatedSteps: nat, maxToolCalls: nat, maxReflections: nat)

  datatype Resume = Resume(kind: ResumeKind, id: string)

  datatype GraphError =
    | LoopDetected
    | InvalidSubmission
    | ToolNotFound
    | ScopeForbidden
    | ToolFailed
    | ProductScopeMissing
    | MetricsIncomplete
    | DiagnosisValidationFailed
    | InvalidResume
    | ApprovalStateMissing
    | CheckpointNotFound
    | ResumeValueRequired
    | Commerce(error: CommerceError)

  /** What the environment contributes to one execution of a node. */
  datatype Input =
    | NoInput
    | ScopeInput(matching: set<string>)            // products whose id or name contains the query
    | MetricsInput(complete: bool)
    | ModelInput(turn: Turn)
    | ToolsInput(results: seq<Option<set<string>>>) // evidence ids each tool returned, None if it raised
    | PlanInput(plan: ActionPlan)                  // what create_plan returned
    | ApprovalInput(freshReceiptId: string)

  /** The receipt id the token generator gave; it is used only if a receipt is written. */
  function FreshId(input: Input): string { if input.ApprovalInput? then input.freshReceiptId else "" }

  /** The products whose id or name contains the task's prompt. */
  function Matching(input: Input): set<string> { if input.ScopeInput? then input.matching else {} }

  const SUBMIT := "submit_diagnosis"
  const SCOPED_TOOLS := {"get_metrics", "get_product_context"}
  const TOOLS := {"get_metrics", "get_product_context", "search_knowledge"}
  const METRIC_EVIDENCE := {"metric_paid_orders", "metric_search_impressions"}

  function InitialState(task: TaskRecord, prompt: string): AgentState {
    AgentState(task.taskId, task.merchantId, task.productId, [User(prompt)], None, None, 0, 0, None, 0, [],
               None, None, None)
  }

  // ----- scope and metrics -----

  /** `resolve_product`: the merchant's products that match, or all of them when none does. */
  function ResolveProduct(l: Ledger, merchantId: string, matching: set<string>): Result<set<string>, CommerceError> {
    var owned := set p | p in l.products && Owns(l, merchantId, p);
    if owned == {} then Err(MerchantNotFound)
    else if owned * matching != {} then Ok(owned * matching)
    else Ok(owned)
  }

  /** The candidates are the merchant's products that match, or all of them if none does; the only error is that
    * there are none at all. */
  lemma ResolvesTo(l: Ledger, merchantId: string, matching: set<string>)
    ensures var r := ResolveProduct(l, merchantId, matching);
      && (r.Err? <==> forall p | p in l.products :: !Owns(l, merchantId, p))
      && (r.Err? ==> r.error == MerchantNotFound)
      && (r.Ok? ==> forall p :: p in r.value <==>
            Owns(l, merchantId, p) && (p in matching || forall q | q in matching :: !Owns(l, merchantId, q)))
  {
    var owned := set p | p in l.products && Owns(l, merchantId, p);
    assert forall p :: p in owned <==> Owns(l, merchantId, p);
    if owned * matching == {} {
      forall q | q in matching ensures !Owns(l, merchantId, q) {
        assert q !in owned * matching;
      }
    }
  }

  /** Resolving a product id finds that id exactly when the merchant owns the product: a product's own id
    * always matches itself, unless the query is blank and matches nothing. */
  lemma ResolveOwnId(l: Ledger, merchantId: string, id: string, matching: set<string>)
    requires Owns(l, merchantId, id) ==> id in matching || matching == {}
    ensures (ResolveProduct(l, merchantId, matching).Ok? && id in ResolveProduct(l, merchantId, matching).value)
       <==> Owns(l, merchantId, id)
  {
    var owned := set p | p in l.products && Owns(l, merchantId, p);
    if Owns(l, merchantId, id) {
      assert id in owned;
      if id in matching {
        assert id in owned * matching;
      } else {
        assert owned * matching == {};
      }
    }
  }

  lemma OneElement(s: set<string>)
    requires |s| == 1
    ensures exists x :: s == {x}
  {
    var x :| x in s;
    assert |s - {x}| == 0;
    assert s == {x};
  }

  datatype ScopeResult = InScope(productId: string) | AskProduct(interaction: Interaction) | ScopeError(error: GraphError)

  function ScopeNode(l: Ledger, st: AgentState, resume: Option<Resume>, matching: set<string>): ScopeResult {
    if HasProduct(st) then InScope(st.productId.value)
    else match ResolveProduct(l, st.merchantId, matching)
      case Err(e) => ScopeError(Commerce(e))
      case Ok(candidates) =>
        if |candidates| == 1 then (OneElement(candidates); var only :| only in candidates; InScope(only))
        else if resume.None? then AskProduct(InputRequired(candidates))
        else if resume.value.kind != InputKind then ScopeError(InvalidResume)
        else if Owns(l, st.merchantId, resume.value.id) then InScope(resume.value.id)
        else ScopeError(Commerce(ProductNotFound))
  }

  predicate Named(productId: Option<string>) {
    productId.Some? && productId.value != ""
  }

  predicate HasProduct(st: AgentState) {
    Named(st.productId)
  }

  function MetricsNode(l: Ledger, st: AgentState, complete: bool): Result<AgentState, GraphError> {
    if !HasProduct(st) then Err(ProductScopeMissing)
    else if !Owns(l, st.merchantId, st.productId.value) then Err(Commerce(ProductNotFound))
    else if !complete then Err(GraphError.MetricsIncomplete)
    else Ok(st.(metrics := Some(METRIC_EVIDENCE), messages := st.messages + [User("<task_context>")]))
  }

  // ----- model -----

  function BatchOf(calls: seq<ToolCall>): Batch {
    if calls == [] then []
    else (if calls[0].name == SUBMIT then [] else [(calls[0].name, calls[0].arguments)]) + BatchOf(calls[1..])
  }

  function DetectRepetition(st: AgentState, turn: Turn): (nat, Option<Batch>) {
    var batch := BatchOf(turn.calls);
    if batch == [] then (0, None)
    else (if st.lastSignature == Some(batch) then st.repeatedSteps + 1 else 1, Some(batch))
  }

  predicate HasSubmit(calls: seq<ToolCall>) {
    exists i | 0 <= i < |calls| :: calls[i].name == SUBMIT
  }

  function ModelNode(cfg: Config, st: AgentState, turn: Turn): Result<AgentState, GraphError> {
    if st.iteration >= cfg.maxIterations then Err(LoopDetected)
    else
      var (repeated, signature) := DetectRepetition(st, turn);
      if |turn.calls| > cfg.maxToolCalls then Err(LoopDetected)
      else if repeated >= cfg.maxRepeatedSteps then Err(LoopDetected)
      else if HasSubmit(turn.calls) && |turn.calls| != 1 then Err(InvalidSubmission)
      else
        var diagnosis :=
          if HasSubmit(turn.calls) then
            Some(if turn.submission.Some? then Parsed(turn.submission.value) else Unparsed)
          else if turn.calls == [] then Some(Unparsed)
          else None;
        Ok(st.(messages := st.messages + [Assistant(turn.calls)], diagnosis := diagnosis,
               iteration := st.iteration + 1, repeatedSteps := repeated, lastSignature := signature))
  }

  // ----- tools -----

  function Argument(call: ToolCall, name: string): Option<Json> {
    if name in call.arguments then Some(call.arguments[name]) else None
  }

  /** A tool that reads a merchant's product may only be asked about this task's merchant and product. */
  predicate InTaskScope(st: AgentState, call: ToolCall) {
    call.name in SCOPED_TOOLS ==>
      && HasProduct(st)
      && Argument(call, "merchant_id") == Some(JString(st.merchantId))
      && Argument(call, "product_id") == Some(JString(st.productId.value))
  }

  function ExecuteTool(st: AgentState, call: ToolCall, result: Option<set<string>>): Result<Message, GraphError> {
    if call.name !in TOOLS then Err(ToolNotFound)
    else if !HasProduct(st) then Err(ProductScopeMissing)
    else if !InTaskScope(st, call) then Err(ScopeForbidden)
    else if result.None? then Err(ToolFailed)
    else Ok(Tool(call.callId, call.name, ToolResult(result.value)))
  }

  /** All calls of a turn run together; one failure fails the node. */
  function ExecuteAll(st: AgentState, calls: seq<ToolCall>, results: seq<Option<set<string>>>): Result<seq<Message>, GraphError>
    requires |results| == |calls|
  {
    if calls == [] then Ok([])
    else match ExecuteTool(st, calls[0], results[0])
      case Err(e) => Err(e)
      case Ok(m) =>
        match ExecuteAll(st, calls[1..], results[1..])
        case Err(e) => Err(e)
        case Ok(ms) => Ok([m] + ms)
  }

  function LastCalls(st: AgentState): seq<ToolCall> {
    if |st.messages| == 0 then []
    else match st.messages[|st.messages| - 1]
      case Assistant(calls) => calls
      case _ => []
  }

  function ToolNode(st: AgentState, results: seq<Option<set<string>>>): Result<AgentState, GraphError> {
    if |results| != |LastCalls(st)| then Err(ToolFailed)
    else match ExecuteAll(st, LastCalls(st), results)
      case Err(e) => Err(e)
      case Ok(ms) => Ok(st.(messages := st.messages + ms))
  }

  // ----- validate -----

  function MessageEvidence(m: Message): set<string> {
    if m.Tool? && m.content.ToolResult? then m.content.evidenceIds else {}
  }

  function TranscriptEvidence(messages: seq<Message>): set<string> {
    if messages == [] then {} else TranscriptEvidence(messages[..|messages| - 1]) + MessageEvidence(messages[|messages| - 1])
  }

  function EvidenceIds(st: AgentState): set<string> {
    (if st.metrics.Some? then st.metrics.value else {}) + TranscriptEvidence(st.messages)
  }

  function FindingErrors(f: Finding, known: set<string>): seq<ValidationError> {
    var unknown := (set e | e in f.evidenceIds) - known;
    (if f.kind == Fact && f.evidenceIds == [] then [FactWithoutEvidence(f.statement)] else [])
    + (if unknown != {} then [UnknownEvidence(unknown)] else [])
  }

  function FindingsErrors(findings: seq<Finding>, known: set<string>): seq<ValidationError> {
    if findings == [] then []
    else FindingsErrors(findings[..|findings| - 1], known) + FindingErrors(findings[|findings| - 1], known)
  }

  predicate IsContentFact(f: Finding) {
    f.category == "content" && f.kind == Fact && f.evidenceIds != []
  }

  function ValidationErrors(st: AgentState): seq<ValidationError> {
    match st.diagnosis
    case Some(Parsed(d)) =>
      FindingsErrors(d.findings, EvidenceIds(st))
      + (if d.proposedPatch.Some? && !(exists f | f in d.findings :: IsContentFact(f))
         then [PatchWithoutContentFact] else [])
    case _ => [SchemaError]
  }

  function FirstSubmit(calls: seq<ToolCall>): Option<string> {
    if calls == [] then None
    else if calls[0].name == SUBMIT then Some(calls[0].callId)
    else FirstSubmit(calls[1..])
  }

  function Corrections(st: AgentState, errors: seq<ValidationError>): seq<Message> {
    var id := FirstSubmit(LastCalls(st));
    (if id.Some? then [Tool(id.value, SUBMIT, Rejection(errors))] else []) + [User("<validation errors>")]
  }

  function ValidationNode(cfg: Config, st: AgentState): Result<AgentState, GraphError> {
    var errors := ValidationErrors(st);
    if errors == [] then Ok(st.(validationErrors := []))
    else if st.reflectionCount < cfg.maxReflections then
      Ok(st.(diagnosis := None, validationErrors := errors, reflectionCount := st.reflectionCount + 1,
             messages := st.messages + Corrections(st, errors)))
    else Err(DiagnosisValidationFailed)
  }

  // ----- plan and approval -----

  /** `plan` is what `create_plan` returned; it is not used when the diagnosis proposes no patch. */
  function PlanNode(st: AgentState, plan: Option<ActionPlan>): Result<AgentState, GraphError> {
    match st.diagnosis
    case Some(Parsed(d)) =>
      var report := Some(Report(d, None));
      if d.proposedPatch.None? then
        Ok(st.(finalStatus := Some(RunCompleted), finalOutput := report, interaction := None))
      else if plan.None? then Err(Commerce(PlanNotFound))
      else Ok(st.(finalOutput := report, interaction := Some(PlanInteraction(plan.value))))
    case _ => Err(DiagnosisValidationFailed)
  }

  datatype ApprovalResult =
    | AskApproval(interaction: Interaction)
    | ApprovalError(error: GraphError)
    | Decided(state: AgentState)

  function Noted(st: AgentState, status: RunStatus, note: Note): AgentState {
    st.(finalStatus := Some(status),
        finalOutput := if st.finalOutput.Some? then Some(st.finalOutput.value.(note := Some(note))) else None)
  }

  /** The ledger operation the approval node performs, if it comes that far. */
  function ApprovalAct(l: Ledger, st: AgentState, resume: Option<Resume>, freshId: string): Option<LedgerRuns.Action> {
    if st.interaction.None? || resume.None? || resume.value.kind != ApprovalKind then None
    else match First(l.approvals, ApprovalWithId(resume.value.id))
      case Some(a) => if a.decision == Approve then Some(LedgerRuns.Apply(resume.value.id, freshId)) else None
      case None => None
  }

  function ApprovalNode(l: Ledger, st: AgentState, resume: Option<Resume>, freshId: string): ApprovalResult {
    if st.interaction.None? then ApprovalError(ApprovalStateMissing)
    else if resume.None? then AskApproval(st.interaction.value)
    else if resume.value.kind != ApprovalKind then ApprovalError(InvalidResume)
    else match First(l.approvals, ApprovalWithId(resume.value.id))
      case None => ApprovalError(Commerce(ApprovalNotFound))
      case Some(a) =>
        if a.decision == Reject then Decided(Noted(st, RunRejected, RejectedNote))
        else match ApplyApprovedPlan(l, resume.value.id, freshId).1
          case Err(e) => ApprovalError(Commerce(e))
          case Ok(x) => Decided(Noted(st, RunCompleted, AppliedNote(x.receipt.receiptId, x.receipt.productVersion)))
  }

  // ----- Routing -----

  function RouteAfterModel(st: AgentState): Node { if st.diagnosis.Some? then Validate else Tools }
  function RouteAfterValidation(st: AgentState): Node { if st.validationErrors != [] then Model else Plan }
  function RouteAfterPlan(st: AgentState): Node { if st.interaction.Some? then Approval' else End }

  /** What one execution of the next node comes to. */
  datatype NodeResult =
    | Commit(state: AgentState, next: Node)
    | Interrupt(interaction: Interaction)
    | Fail(error: GraphError)

  function Committed(r: Result<AgentState, GraphError>, route: AgentState -> Node): NodeResult {
    match r
    case Ok(st) => Commit(st, route(st))
    case Err(e) => Fail(e)
  }

  function RunNode(cfg: Config, l: Ledger, th: Thread, resume: Option<Resume>, input: Input): NodeResult {
    var st := th.state;
    match th.next
    case Scope =>
      (match ScopeNode(l, st, resume, Matching(input))
       case InScope(p) => Commit(st.(productId := Some(p)), Metrics)
       case AskProduct(i) => Interrupt(i)
       case ScopeError(e) => Fail(e))
    case Metrics => Committed(MetricsNode(l, st, input.MetricsInput? && input.complete), (s: AgentState) => Model)
    case Model =>
      if input.ModelInput? then Committed(ModelNode(cfg, st, input.turn), RouteAfterModel) else Fail(ToolFailed)
    case Tools =>
      if input.ToolsInput? then Committed(ToolNode(st, input.results), (s: AgentState) => Model) else Fail(ToolFailed)
    case Validate => Committed(ValidationNode(cfg, st), RouteAfterValidation)
    case Plan => Committed(PlanNode(st, if input.PlanInput? then Some(input.plan) else None), RouteAfterPlan)
    case Approval' =>
      (match ApprovalNode(l, st, resume, FreshId(input))
       case Decided(s) => Commit(s, End)
       case AskApproval(i) => Interrupt(i)
       case ApprovalError(e) => Fail(e))
    case End => Fail(ApprovalStateMissing)
  }

  // ----- The start of a run -----

  function ExpectedKind(i: Interaction): ResumeKind { if i.ApprovalRequired? then ApprovalKind else InputKind }

  datatype Outcome = Outcome(status: RunStatus, report: Option<Report>, interaction: Option<Interaction>)

  function InterruptedOutcome(i: Interaction): Outcome {
    Outcome(if ExpectedKind(i) == ApprovalKind then RunAwaitingApproval else RunAwaitingInput, None, Some(i))
  }

  function FinalOutcome(st: AgentState): Outcome {
    Outcome(if st.finalStatus.Some? then st.finalStatus.value else RunCompleted, st.finalOutput, st.interaction)
  }

  /** What `run` decides before it invokes the graph. */
  datatype Gate = Refuse(error: GraphError) | Answer(outcome: Outcome) | Begin | GoOn(resume: Option<Resume>)

  function RunGate(checkpoint: Option<Thread>, kind: Option<ResumeKind>, id: Option<string>): Gate {
    var wanted := kind == Some(InputKind) || kind == Some(ApprovalKind);
    var hasId := id.Some? && id.value != "";
    match checkpoint
    case None => if wanted then Refuse(CheckpointNotFound) else Begin
    case Some(th) =>
      match th.interrupt
      case Some(i) =>
        if kind != Some(ExpectedKind(i)) then Answer(InterruptedOutcome(i))
        else if !hasId then Refuse(ResumeValueRequired)
        else GoOn(Some(Resume(ExpectedKind(i), id.value)))
      case None =>
        if wanted && !hasId then Refuse(ResumeValueRequired)
        else if th.next == End then Answer(FinalOutcome(th.state))
        else GoOn(None)
  }
}
