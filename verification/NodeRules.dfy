/** What each node of the graph does, said without the functions that do it: when it commits, interrupts or
  * fails, and what it leaves in the state. */
module NodeRules {
  import opened Wrappers
  import opened Tables
  import opened Commerce
  import opened TaskRecords
  import opened AgentGraph

  /** The merchant has no product at all. */
  ghost predicate OwnsNothing(l: Ledger, merchantId: string) {
    forall p | p in l.products :: l.products[p].merchantId != merchantId
  }

  /** The products in question: the merchant's own, narrowed to those that match if any does. */
  ghost predicate InQuestion(l: Ledger, merchantId: string, matching: set<string>, candidates: set<string>) {
    forall p :: p in candidates <==>
      && p in l.products && l.products[p].merchantId == merchantId
      && (p in matching || forall q | q in matching && q in l.products :: l.products[q].merchantId != merchantId)
  }

  lemma CandidatesInQuestion(l: Ledger, merchantId: string, matching: set<string>) returns (candidates: set<string>)
    ensures InQuestion(l, merchantId, matching, candidates)
    ensures ResolveProduct(l, merchantId, matching)
         == if OwnsNothing(l, merchantId) then Err(MerchantNotFound) else Ok(candidates)
    ensures candidates == {} <==> OwnsNothing(l, merchantId)
  {
    ResolvesTo(l, merchantId, matching);
    var r := ResolveProduct(l, merchantId, matching);
    candidates := if r.Ok? then r.value else {};
    if r.Ok? {
      var p :| p in l.products && Owns(l, merchantId, p);
      assert p in matching || candidates != {} by {
        if forall q | q in matching :: !Owns(l, merchantId, q) {
          assert p in candidates;
        } else {
          var q :| q in matching && Owns(l, merchantId, q);
          assert q in candidates;
        }
      }
      if p in matching {
        assert p in candidates;
      }
    }
  }

  /** Scope takes the product the state has. Without one it takes the only one in question; among several it asks
    * the merchant, and then takes the one the answer names, if the merchant owns it. */
  lemma ScopeNodeIs(l: Ledger, st: AgentState, resume: Option<Resume>, matching: set<string>) returns (candidates: set<string>)
    ensures InQuestion(l, st.merchantId, matching, candidates)
    ensures var answer := ScopeNode(l, st, resume, matching);
      if st.productId.Some? && st.productId.value != "" then answer == InScope(st.productId.value)
      else if candidates == {} then answer == ScopeError(Commerce(MerchantNotFound))
      else if |candidates| == 1 then answer.InScope? && candidates == {answer.productId}
      else if resume.None? then answer == AskProduct(InputRequired(candidates))
      else if resume.value.kind != InputKind then answer == ScopeError(InvalidResume)
      else if resume.value.id in l.products && l.products[resume.value.id].merchantId == st.merchantId then
        answer == InScope(resume.value.id)
      else answer == ScopeError(Commerce(ProductNotFound))
  {
    candidates := CandidatesInQuestion(l, st.merchantId, matching);
    if |candidates| == 1 {
      OneElement(candidates);
    }
  }

  /** The metrics node needs the product of the task, owned by its merchant, and all its metrics; it adds their
    * two evidence ids and one message. */
  lemma MetricsNodeIs(l: Ledger, st: AgentState, complete: bool)
    ensures var answer := MetricsNode(l, st, complete);
      if st.productId.None? || st.productId.value == "" then answer == Err(ProductScopeMissing)
      else if st.productId.value !in l.products || l.products[st.productId.value].merchantId != st.merchantId then
        answer == Err(Commerce(ProductNotFound))
      else if !complete then answer == Err(GraphError.MetricsIncomplete)
      else
        && answer.Ok? && answer.value.metrics == Some({"metric_paid_orders", "metric_search_impressions"})
        && |answer.value.messages| == |st.messages| + 1 && st.messages <= answer.value.messages
        && answer.value.messages[|st.messages|].User?
        && answer.value.(metrics := st.metrics, messages := st.messages) == st
  {
  }

  // ----- The model -----

  /** The batch compared for repetition is put together call by call: name and arguments of a call, nothing of a
    * submission. */
  lemma {:induction false} BatchJoins(calls: seq<ToolCall>, more: seq<ToolCall>, c: ToolCall)
    ensures BatchOf(calls + more) == BatchOf(calls) + BatchOf(more)
    ensures BatchOf([c]) == if c.name == "submit_diagnosis" then [] else [(c.name, c.arguments)]
  {
    if calls == [] {
      assert calls + more == more;
    } else {
      assert (calls + more)[1..] == calls[1..] + more;
      BatchJoins(calls[1..], more, c);
    }
  }

  /** Two turns without submissions are the same batch exactly if they make the same calls, whatever their ids. */
  lemma {:induction false} SameBatchIff(calls: seq<ToolCall>, calls': seq<ToolCall>)
    requires forall c | c in calls || c in calls' :: c.name != "submit_diagnosis"
    ensures BatchOf(calls) == BatchOf(calls')
       <==> |calls| == |calls'| && forall i | 0 <= i < |calls| :: SameCall(calls[i], calls'[i])
  {
    BatchLength(calls);
    BatchLength(calls');
    if calls != [] && calls' != [] {
      SameBatchIff(calls[1..], calls'[1..]);
      assert BatchOf(calls) == [(calls[0].name, calls[0].arguments)] + BatchOf(calls[1..]);
      assert BatchOf(calls') == [(calls'[0].name, calls'[0].arguments)] + BatchOf(calls'[1..]);
      assert BatchOf(calls) == BatchOf(calls') <==> SameCall(calls[0], calls'[0]) && BatchOf(calls[1..]) == BatchOf(calls'[1..]) by {
        assert BatchOf(calls)[0] == (calls[0].name, calls[0].arguments) && BatchOf(calls)[1..] == BatchOf(calls[1..]);
        assert BatchOf(calls')[0] == (calls'[0].name, calls'[0].arguments) && BatchOf(calls')[1..] == BatchOf(calls'[1..]);
      }
      if |calls| == |calls'| {
        assert forall i | 1 <= i < |calls| :: calls[i] == calls[1..][i - 1] && calls'[i] == calls'[1..][i - 1];
      }
    }
  }

  predicate SameCall(c: ToolCall, c': ToolCall) {
    c.name == c'.name && c.arguments == c'.arguments
  }

  lemma {:induction false} BatchLength(calls: seq<ToolCall>)
    requires forall c | c in calls :: c.name != "submit_diagnosis"
    ensures |BatchOf(calls)| == |calls|
  {
    if calls != [] {
      BatchLength(calls[1..]);
    }
  }

  /** A turn that is not refused is appended with its calls and counted; a submission is kept as it was parsed, a
    * turn without a call as one that could not be. */
  lemma ModelNodeIs(cfg: Config, st: AgentState, turn: Turn)
    requires ModelNode(cfg, st, turn).Ok?
    ensures var after := ModelNode(cfg, st, turn).value;
      && after.messages == st.messages + [Assistant(turn.calls)] && after.iteration == st.iteration + 1
      && (after.diagnosis.None? <==> turn.calls != [] && forall c | c in turn.calls :: c.name != "submit_diagnosis")
      && (after.diagnosis.Some? ==>
            after.diagnosis.value == if turn.calls != [] && turn.submission.Some? then Parsed(turn.submission.value) else Unparsed)
      && after.(messages := st.messages, iteration := st.iteration, diagnosis := st.diagnosis,
                repeatedSteps := st.repeatedSteps, lastSignature := st.lastSignature) == st
  {
    if turn.calls != [] && !HasSubmit(turn.calls) {
      forall c | c in turn.calls ensures c.name != "submit_diagnosis" {
        var i :| 0 <= i < |turn.calls| && turn.calls[i] == c;
      }
    }
  }

  // ----- Tools -----

  /** The call may run: it is of one of the three read tools, and one that reads a product asks for the product
    * of the task and its merchant. */
  predicate MayRun(merchantId: string, productId: string, call: ToolCall) {
    && call.name in {"get_metrics", "get_product_context", "search_knowledge"}
    && (call.name != "search_knowledge" ==>
          && "merchant_id" in call.arguments && call.arguments["merchant_id"] == JString(merchantId)
          && "product_id" in call.arguments && call.arguments["product_id"] == JString(productId))
  }

  lemma ExecuteToolIs(st: AgentState, call: ToolCall, result: Option<set<string>>)
    ensures var answer := ExecuteTool(st, call, result);
      if call.name !in {"get_metrics", "get_product_context", "search_knowledge"} then answer == Err(ToolNotFound)
      else if st.productId.None? || st.productId.value == "" then answer == Err(ProductScopeMissing)
      else if !MayRun(st.merchantId, st.productId.value, call) then answer == Err(ScopeForbidden)
      else if result.None? then answer == Err(ToolFailed)
      else answer == Ok(Tool(call.callId, call.name, ToolResult(result.value)))
  {
  }

  /** The call runs and its tool answers. */
  predicate Runs(st: AgentState, call: ToolCall, result: Option<set<string>>) {
    st.productId.Some? && st.productId.value != "" && MayRun(st.merchantId, st.productId.value, call) && result.Some?
  }

  /** The tools answer a turn exactly if every call may run and every tool answers, and then each call with the
    * evidence its tool returned. */
  lemma {:induction false} ExecuteAllIff(st: AgentState, calls: seq<ToolCall>, results: seq<Option<set<string>>>)
    requires |results| == |calls|
    ensures var answer := ExecuteAll(st, calls, results);
      && (answer.Ok? <==> forall k | 0 <= k < |calls| :: Runs(st, calls[k], results[k]))
      && (answer.Ok? ==>
            && |answer.value| == |calls|
            && forall k | 0 <= k < |calls| ::
                 results[k].Some? && answer.value[k] == Tool(calls[k].callId, calls[k].name, ToolResult(results[k].value)))
  {
    if calls != [] {
      ExecuteToolIs(st, calls[0], results[0]);
      ExecuteAllIff(st, calls[1..], results[1..]);
      assert Runs(st, calls[0], results[0]) <==> ExecuteTool(st, calls[0], results[0]).Ok?;
      assert forall k | 1 <= k < |calls| :: calls[k] == calls[1..][k - 1] && results[k] == results[1..][k - 1];
    }
  }

  /** Otherwise the turn fails as the first call that does not run. */
  lemma {:induction false} ExecuteAllFailsAs(st: AgentState, calls: seq<ToolCall>, results: seq<Option<set<string>>>) returns (k: nat)
    requires |results| == |calls| && ExecuteAll(st, calls, results).Err?
    ensures k < |calls| && !Runs(st, calls[k], results[k]) && forall j | 0 <= j < k :: Runs(st, calls[j], results[j])
    ensures ExecuteTool(st, calls[k], results[k]) == Err(ExecuteAll(st, calls, results).error)
  {
    ExecuteToolIs(st, calls[0], results[0]);
    if ExecuteTool(st, calls[0], results[0]).Err? {
      k := 0;
    } else {
      var n := ExecuteAllFailsAs(st, calls[1..], results[1..]);
      k := n + 1;
      assert forall j | 1 <= j < |calls| :: calls[j] == calls[1..][j - 1] && results[j] == results[1..][j - 1];
    }
  }

  // ----- Validation -----

  /** The diagnosis proposes a patch without a content finding that is a fact with evidence. */
  predicate LacksContentFact(d: Diagnosis) {
    d.proposedPatch.Some?
    && forall f | f in d.findings :: f.category == "content" && f.kind == Fact ==> f.evidenceIds == []
  }

  /** Each finding and the patch give rise to these errors and to no others. */
  predicate HasFault(d: Diagnosis, known: set<string>, e: ValidationError) {
    match e
    case SchemaError => false
    case FactWithoutEvidence(text) => exists f | f in d.findings :: f.kind == Fact && f.evidenceIds == [] && f.statement == text
    case UnknownEvidence(ids) =>
      ids != {} && exists f | f in d.findings :: ids == set i | i in f.evidenceIds && i !in known
    case PatchWithoutContentFact => LacksContentFact(d)
  }

  lemma {:induction false} FindingsFaults(findings: seq<Finding>, known: set<string>, e: ValidationError)
    ensures e in FindingsErrors(findings, known)
       <==> exists f | f in findings ::
              || (f.kind == Fact && f.evidenceIds == [] && e == FactWithoutEvidence(f.statement))
              || (e.UnknownEvidence? && e.ids != {} && e.ids == set i | i in f.evidenceIds && i !in known)
  {
    if findings != [] {
      var n := |findings| - 1;
      FindingsFaults(findings[..n], known, e);
      assert findings == findings[..n] + [findings[n]];
      var f := findings[n];
      assert (set i | i in f.evidenceIds) - known == set i | i in f.evidenceIds && i !in known;
    }
  }

  /** Validation reports a diagnosis that was not parsed as such, and of a parsed one each fault it has and no other. */
  lemma ReportsFaults(st: AgentState, e: ValidationError)
    ensures match st.diagnosis
      case Some(Parsed(d)) => e in ValidationErrors(st) <==> HasFault(d, EvidenceIds(st), e)
      case _ => ValidationErrors(st) == [SchemaError]
  {
    match st.diagnosis
    case Some(Parsed(d)) => FindingsFaults(d.findings, EvidenceIds(st), e);
    case _ =>
  }

  /** A diagnosis with faults goes back to the model while reflections are left, with the faults as the answer to
    * its submission, and otherwise fails the run; one without faults is left as it is. */
  lemma ValidationNodeIs(cfg: Config, st: AgentState)
    requires LastCalls(st) == [] || (|LastCalls(st)| == 1 && LastCalls(st)[0].name == "submit_diagnosis")
    ensures var errors, answer, calls := ValidationErrors(st), ValidationNode(cfg, st), LastCalls(st);
      if errors == [] then answer.Ok? && answer.value.validationErrors == [] && answer.value.(validationErrors := st.validationErrors) == st
      else if st.reflectionCount >= cfg.maxReflections then answer == Err(DiagnosisValidationFailed)
      else
        && answer.Ok? && answer.value.diagnosis == None && answer.value.validationErrors == errors
        && answer.value.reflectionCount == st.reflectionCount + 1
        && (exists note: Message :: note.User? && answer.value.messages == st.messages
              + (if calls == [] then [] else [Tool(calls[0].callId, "submit_diagnosis", Rejection(errors))]) + [note])
        && answer.value.(diagnosis := st.diagnosis, validationErrors := st.validationErrors,
                         reflectionCount := st.reflectionCount, messages := st.messages) == st
  {
    var errors, calls := ValidationErrors(st), LastCalls(st);
    var rejection := if calls == [] then [] else [Tool(calls[0].callId, "submit_diagnosis", Rejection(errors))];
    assert Corrections(st, errors) == rejection + [User("<validation errors>")];
    assert st.messages + Corrections(st, errors) == st.messages + rejection + [User("<validation errors>")];
    assert User("<validation errors>").User?;
  }

  // ----- Plan and approval -----

  /** The plan node reports the diagnosis; without a patch that completes the run, with one the merchant is to be
    * shown every field of the plan. */
  lemma PlanNodeIs(st: AgentState, plan: Option<ActionPlan>)
    ensures var answer := PlanNode(st, plan);
      match st.diagnosis
      case Some(Parsed(d)) =>
        if d.proposedPatch.Some? && plan.None? then answer == Err(Commerce(PlanNotFound))
        else
          && answer.Ok? && answer.value.finalOutput == Some(Report(d, None))
          && answer.value.(finalOutput := st.finalOutput, finalStatus := st.finalStatus, interaction := st.interaction) == st
          && if d.proposedPatch.None? then answer.value.finalStatus == Some(RunCompleted) && answer.value.interaction == None
             else answer.value.finalStatus == st.finalStatus && answer.value.interaction.Some? && Shows(answer.value.interaction.value, plan.value)
      case _ => answer == Err(DiagnosisValidationFailed)
  {
  }

  /** The interaction asks for the approval of this plan and shows it as it is. */
  predicate Shows(i: Interaction, p: ActionPlan) {
    && i.ApprovalRequired? && i.planId == p.planId && i.planVersion == p.planVersion && i.actionId == p.actionId
    && i.productId == p.productId && i.productVersion == p.productVersion
    && i.before == p.beforeValue && i.after == p.afterValue && i.reason == p.reason
  }

  /** The approval node asks until it is resumed; resumed with an approval it ends the run as that approval
    * decides, or fails as the ledger fails to apply it. */
  lemma ApprovalNodeIs(l: Ledger, st: AgentState, resume: Option<Resume>, freshId: string)
    ensures var answer := ApprovalNode(l, st, resume, freshId);
      if st.interaction.None? then answer == ApprovalError(ApprovalStateMissing)
      else if resume.None? then answer == AskApproval(st.interaction.value)
      else if resume.value.kind != ApprovalKind then answer == ApprovalError(InvalidResume)
      else if forall a | a in l.approvals :: a.approvalId != resume.value.id then answer == ApprovalError(Commerce(ApprovalNotFound))
      else exists a | a in l.approvals ::
        a.approvalId == resume.value.id && Follows(answer, st, a.decision, ApplyApprovedPlan(l, resume.value.id, freshId).1)
  {
  }

  /** What comes of a decision, given what the ledger answers an apply of it. */
  predicate Follows(answer: ApprovalResult, st: AgentState, decision: ApprovalDecision, applied: Result<Applied, CommerceError>) {
    if decision == Reject then DecidedAs(answer, st, RunRejected, RejectedNote)
    else if applied.Err? then answer == ApprovalError(Commerce(applied.error))
    else DecidedAs(answer, st, RunCompleted, AppliedNote(applied.value.receipt.receiptId, applied.value.receipt.productVersion))
  }

  /** Only status and note change. */
  predicate DecidedAs(answer: ApprovalResult, st: AgentState, status: RunStatus, note: Note) {
    && answer.Decided? && answer.state.finalStatus == Some(status)
    && answer.state.(finalStatus := st.finalStatus, finalOutput := st.finalOutput) == st
    && (answer.state.finalOutput.Some? <==> st.finalOutput.Some?)
    && (st.finalOutput.Some? ==> answer.state.finalOutput == Some(Report(st.finalOutput.value.diagnosis, Some(note))))
  }
}
