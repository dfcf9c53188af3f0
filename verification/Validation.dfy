/** The loops of the validation node, and what they compute. */
module Validation {
  import opened Wrappers
  import opened AgentGraph

  method CollectEvidenceIds(st: AgentState) returns (evidence: set<string>)
    ensures evidence == EvidenceIds(st)
  {
    evidence := {};
    if st.metrics.Some? {
      evidence := evidence + st.metrics.value;
    }
    for i := 0 to |st.messages|
      invariant evidence == (if st.metrics.Some? then st.metrics.value else {}) + TranscriptEvidence(st.messages[..i])
    {
      assert st.messages[..i + 1][..i] == st.messages[..i];
      if st.messages[i].Tool? && st.messages[i].content.ToolResult? {
        evidence := evidence + st.messages[i].content.evidenceIds;
      }
    }
    assert st.messages[..|st.messages|] == st.messages;
  }

  method ValidateDiagnosis(st: AgentState) returns (errors: seq<ValidationError>)
    ensures errors == ValidationErrors(st)
  {
    if st.diagnosis.None? || st.diagnosis.value.Unparsed? {
      return [SchemaError];
    }
    var d := st.diagnosis.value.diagnosis;
    var known := CollectEvidenceIds(st);
    errors := [];
    var supported := false;
    for i := 0 to |d.findings|
      invariant errors == FindingsErrors(d.findings[..i], known)
      invariant supported <==> exists f | f in d.findings[..i] :: IsContentFact(f)
    {
      var f := d.findings[i];
      assert d.findings[..i + 1] == d.findings[..i] + [f] && d.findings[..i + 1][..i] == d.findings[..i];
      ghost var before := errors;
      if f.kind == Fact && f.evidenceIds == [] {
        errors := errors + [FactWithoutEvidence(f.statement)];
      }
      var unknown := (set e | e in f.evidenceIds) - known;
      if unknown != {} {
        errors := errors + [UnknownEvidence(unknown)];
      }
      assert errors == before + FindingErrors(f, known);
      supported := supported || IsContentFact(f);
    }
    assert d.findings[..|d.findings|] == d.findings;
    if d.proposedPatch.Some? && !supported {
      errors := errors + [PatchWithoutContentFact];
    }
  }

  /** The first `submit_diagnosis` call of a turn, whose id the rejection answers. */
  method DiagnosisToolCallId(calls: seq<ToolCall>) returns (id: Option<string>)
    ensures id == FirstSubmit(calls)
    ensures id.Some? <==> HasSubmit(calls)
  {
    for i := 0 to |calls|
      invariant !HasSubmit(calls[..i])
      invariant FirstSubmit(calls) == FirstSubmit(calls[i..])
    {
      if calls[i].name == SUBMIT {
        return Some(calls[i].callId);
      }
      assert calls[i..][1..] == calls[i + 1..];
      assert calls[..i + 1] == calls[..i] + [calls[i]];
    }
    assert calls[..|calls|] == calls;
    return None;
  }
}
