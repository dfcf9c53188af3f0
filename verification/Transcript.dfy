/** The transcript a thread has built up: which calls are answered, how many turns it holds, and how long the
  * last batch of calls has been repeated. */
module Transcript {
  import opened Wrappers
  import opened AgentGraph

  function CallIds(calls: seq<ToolCall>): seq<string> {
    seq(|calls|, i requires 0 <= i < |calls| => calls[i].callId)
  }

  /** What is owed after one more message. None if it comes out of turn: an answer nobody waits for, or
    * anything else before all answers are in. */
  function Pay(owed: seq<string>, m: Message): Option<seq<string>> {
    match m
    case User(_) => if owed == [] then Some([]) else None
    case Assistant(calls) => if owed == [] then Some(CallIds(calls)) else None
    case Tool(id, _, _) => if owed != [] && owed[0] == id then Some(owed[1..]) else None
  }

  /** Reads a transcript from left to right, keeping the ids that are still to be answered. */
  function Owing(messages: seq<Message>): Option<seq<string>> {
    if messages == [] then Some([])
    else
      var n := |messages| - 1;
      match Owing(messages[..n])
      case None => None
      case Some(owed) => Pay(owed, messages[n])
  }

  lemma OwingAppend(messages: seq<Message>, m: Message)
    ensures Owing(messages + [m]) == if Owing(messages).None? then None else Pay(Owing(messages).value, m)
  {
  }

  /** Answers that follow the owed ids in order pay them off. */
  lemma {:induction false} OwingAnswers(messages: seq<Message>, answers: seq<Message>)
    requires Owing(messages).Some?
    requires |answers| <= |Owing(messages).value|
    requires forall i | 0 <= i < |answers| :: answers[i].Tool? && answers[i].callId == Owing(messages).value[i]
    ensures Owing(messages + answers) == Some(Owing(messages).value[|answers|..])
    decreases |answers|
  {
    if answers == [] {
      assert messages + answers == messages;
    } else {
      OwingAppend(messages, answers[0]);
      var more := messages + [answers[0]];
      assert messages + answers == more + answers[1..];
      OwingAnswers(more, answers[1..]);
    }
  }

  predicate Answers(m: Message, call: ToolCall) {
    m.Tool? && m.callId == call.callId
  }

  /** Every call is answered exactly once and at once: right after each assistant message come exactly as many
    * tool messages as it has calls, each with the id of its call, in order; and there are no other tool messages. */
  ghost predicate Paired(messages: seq<Message>) {
    && (forall i | 0 <= i < |messages| && messages[i].Assistant? :: AnsweredAt(messages, i))
    && (forall j | 0 <= j < |messages| && messages[j].Tool? :: exists i | 0 <= i < j :: AnswersWithin(messages, i, j))
  }

  /** Message `j` lies in the block of answers to the assistant message `i`. */
  predicate AnswersWithin(messages: seq<Message>, i: nat, j: nat)
    requires i < |messages|
  {
    messages[i].Assistant? && i < j <= i + |messages[i].calls|
  }

  ghost predicate AnsweredAt(messages: seq<Message>, i: nat)
    requires i < |messages| && messages[i].Assistant?
  {
    var calls := messages[i].calls;
    && i + |calls| < |messages|
    && (forall k | 0 <= k < |calls| ::
          Answers(messages[i + 1 + k], calls[k]))
    && (i + |calls| + 1 < |messages| ==> !messages[i + |calls| + 1].Tool?)
  }

  /** Nothing owed at the end means that every earlier call is answered, and nothing else is. */
  lemma OwingPaired(messages: seq<Message>)
    requires Owing(messages) == Some([])
    ensures Paired(messages)
  {
    forall i | 0 <= i < |messages| && messages[i].Assistant? ensures AnsweredAt(messages, i) {
      var calls := messages[i].calls;
      Pays(messages, i, |calls|);
      assert CallIds(calls)[|calls|..] == [];
      if i + |calls| + 1 < |messages| {
        NextMessage(messages, i + |calls| + 1);
      }
    }
    forall j | 0 <= j < |messages| && messages[j].Tool? ensures exists i | 0 <= i < j :: AnswersWithin(messages, i, j) {
      var i := NoStray(messages, j);
    }
  }

  /** Something is owed only to the last assistant message, and as much as has not been answered since. */
  lemma {:induction false} OwedTo(messages: seq<Message>) returns (i: nat)
    requires Owing(messages).Some? && Owing(messages).value != []
    ensures i < |messages| && messages[i].Assistant?
    ensures |messages| - i - 1 + |Owing(messages).value| == |messages[i].calls|
  {
    var n := |messages| - 1;
    if messages[n].Assistant? {
      i := n;
    } else {
      i := OwedTo(messages[..n]);
    }
  }

  /** A tool message is an answer to the assistant message whose block it lies in. */
  lemma NoStray(messages: seq<Message>, j: nat) returns (i: nat)
    requires Owing(messages).Some? && j < |messages| && messages[j].Tool?
    ensures i < j && AnswersWithin(messages, i, j)
  {
    NextMessage(messages, j);
    i := OwedTo(messages[..j]);
  }

  lemma {:induction false} OwingPrefix(messages: seq<Message>, n: nat)
    requires Owing(messages).Some? && n <= |messages|
    ensures Owing(messages[..n]).Some?
    decreases |messages|
  {
    if n < |messages| {
      assert messages[..|messages| - 1][..n] == messages[..n];
      OwingPrefix(messages[..|messages| - 1], n);
    } else {
      assert messages[..n] == messages;
    }
  }

  /** In a transcript without a message out of turn, each message fits what is owed before it. */
  lemma {:induction false} NextMessage(messages: seq<Message>, n: nat)
    requires Owing(messages).Some? && n < |messages|
    ensures Owing(messages[..n]).Some? && Owing(messages[..n + 1]).Some?
    ensures Owing(messages[..n + 1]) == Pay(Owing(messages[..n]).value, messages[n])
  {
    OwingPrefix(messages, n);
    OwingPrefix(messages, n + 1);
    assert messages[..n + 1] == messages[..n] + [messages[n]];
    OwingAppend(messages[..n], messages[n]);
  }

  /** After an assistant message, the next `k` messages answer its first `k` calls. */
  lemma {:induction false} Pays(messages: seq<Message>, i: nat, k: nat)
    requires Owing(messages) == Some([]) && i < |messages| && messages[i].Assistant?
    requires k <= |messages[i].calls|
    ensures i + k < |messages|
    ensures Owing(messages[..i + 1 + k]) == Some(CallIds(messages[i].calls)[k..])
    ensures forall j | 0 <= j < k :: Answers(messages[i + 1 + j], messages[i].calls[j])
  {
    var ids := CallIds(messages[i].calls);
    if k == 0 {
      NextMessage(messages, i);
      assert ids[0..] == ids;
    } else {
      Pays(messages, i, k - 1);
      var n := i + k;
      assert |ids[k - 1..]| > 0;
      assert messages[..|messages|] == messages;
      NextMessage(messages, n);
      assert ids[k - 1..][0] == ids[k - 1] && ids[k - 1..][1..] == ids[k..];
      assert Answers(messages[n], messages[i].calls[k - 1]);
    }
  }

  // ----- Turns -----

  /** The committed model turns of a transcript: the call batch of each assistant message. */
  function Turns(messages: seq<Message>): seq<Batch> {
    if messages == [] then []
    else
      var n := |messages| - 1;
      Turns(messages[..n]) + (if messages[n].Assistant? then [BatchOf(messages[n].calls)] else [])
  }

  lemma TurnsAppend(messages: seq<Message>, m: Message)
    ensures Turns(messages + [m]) == Turns(messages) + (if m.Assistant? then [BatchOf(m.calls)] else [])
  {
  }

  lemma {:induction false} TurnsNoAssistant(messages: seq<Message>, more: seq<Message>)
    requires forall m | m in more :: !m.Assistant?
    ensures Turns(messages + more) == Turns(messages)
    decreases |more|
  {
    if more == [] {
      assert messages + more == messages;
    } else {
      assert messages + more == (messages + [more[0]]) + more[1..];
      TurnsNoAssistant(messages + [more[0]], more[1..]);
      TurnsAppend(messages, more[0]);
    }
  }

  /** How many turns at the end of the history made one and the same non-empty batch of calls. */
  function TrailingRun(turns: seq<Batch>): nat {
    if turns == [] || turns[|turns| - 1] == [] then 0
    else
      var n := |turns| - 1;
      1 + (if n > 0 && turns[n - 1] == turns[n] then TrailingRun(turns[..n]) else 0)
  }

  lemma {:induction false} TrailingRunIsARun(turns: seq<Batch>)
    ensures TrailingRun(turns) <= |turns|
    ensures forall i | |turns| - TrailingRun(turns) <= i < |turns| :: turns[i] == turns[|turns| - 1] != []
    ensures 0 < TrailingRun(turns) < |turns| ==> turns[|turns| - TrailingRun(turns) - 1] != turns[|turns| - 1]
  {
    if TrailingRun(turns) > 1 {
      TrailingRunIsARun(turns[..|turns| - 1]);
    }
  }

  /** The last batch, if there is one and it is not empty: what the next batch is compared with. */
  function LastBatch(turns: seq<Batch>): Option<Batch> {
    if turns == [] || turns[|turns| - 1] == [] then None else Some(turns[|turns| - 1])
  }

  /** The repetition counter works out the trailing run one turn further. */
  lemma DetectRepetitionCounts(st: AgentState, turn: Turn, turns: seq<Batch>)
    requires st.repeatedSteps == TrailingRun(turns) && st.lastSignature == LastBatch(turns)
    ensures DetectRepetition(st, turn)
         == (TrailingRun(turns + [BatchOf(turn.calls)]), LastBatch(turns + [BatchOf(turn.calls)]))
  {
  }

  // ----- Evidence -----

  lemma EvidenceAppend(messages: seq<Message>, m: Message)
    ensures TranscriptEvidence(messages + [m]) == TranscriptEvidence(messages) + MessageEvidence(m)
  {
  }

  lemma {:induction false} EvidenceAppendAll(messages: seq<Message>, more: seq<Message>)
    ensures TranscriptEvidence(messages + more) == TranscriptEvidence(messages) + TranscriptEvidence(more)
  {
    if more == [] {
      assert messages + more == messages;
    } else {
      var n := |more| - 1;
      assert messages + more == (messages + more[..n]) + [more[n]];
      EvidenceAppend(messages + more[..n], more[n]);
      EvidenceAppendAll(messages, more[..n]);
    }
  }
}
