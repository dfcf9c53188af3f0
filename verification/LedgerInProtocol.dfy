/** The ledger inside the task protocol: the steps of a protocol run that touch it form a run of the ledger, so
  * what holds in every ledger run holds under duplicates, redeliveries, crashes and stale overwrites as well. */
module LedgerInProtocol {
  import opened Wrappers
  import opened Tables
  import opened Commerce
  import opened Protocol
  import opened ProtocolInvariant
  import opened ProtocolRuns
  import LedgerRuns
  import LedgerTheorems

  /** The ledger operation of a step, if it has one. */
  function BooksAct(w: World, a: Action, maxAttempts: int): Option<LedgerRuns.Action>
    requires Can(w, a, maxAttempts)
  {
    match a
    case Local(h, e) => Move(w.handlers[h], e, w.records[TaskOf(w.handlers[h]).value], w.books.ledger, maxAttempts).value.act
    case Graph(_, act) => Some(act)
    case _ => None
  }

  lemma StepBooks(w: World, a: Action, maxAttempts: int)
    requires Can(w, a, maxAttempts)
    ensures var act := BooksAct(w, a, maxAttempts);
      && Next(w, a, maxAttempts).books == (if act.Some? then LedgerRuns.After(w.books, act.value) else w.books)
      && (act.Some? ==> LedgerRuns.Enabled(w.books, act.value))
  {
    if a.Local? {
      var p := w.handlers[a.h];
      var stored := w.records[TaskOf(p).value];
      var eff := Move(p, a.event, stored, w.books.ledger, maxAttempts).value;
      if eff.act.Some? {
        ActsFrom(p, a.event, stored, w.books.ledger, maxAttempts, eff);
      }
    }
  }

  lemma RunStepBooks(ws: seq<World>, actions: seq<Action>, maxAttempts: int, i: nat) returns (act: Option<LedgerRuns.Action>)
    requires Run(ws, actions, maxAttempts) && i < |actions|
    ensures ws[i + 1].books == (if act.Some? then LedgerRuns.After(ws[i].books, act.value) else ws[i].books)
    ensures act.Some? ==> LedgerRuns.Enabled(ws[i].books, act.value)
    ensures actions[i].Graph? ==> act == Some(actions[i].act)
    ensures act.Some? && act.value.Apply? ==> actions[i].Graph?
  {
    StepBooks(ws[i], actions[i], maxAttempts);
    act := BooksAct(ws[i], actions[i], maxAttempts);
    OnlyGraphApplies(ws[i], actions[i], maxAttempts);
  }

  lemma OnlyGraphApplies(w: World, a: Action, maxAttempts: int)
    requires Can(w, a, maxAttempts)
    ensures BooksAct(w, a, maxAttempts).Some? && BooksAct(w, a, maxAttempts).value.Apply? ==> a.Graph?
  {
    if a.Local? {
      var p := w.handlers[a.h];
      var stored := w.records[TaskOf(p).value];
      var eff := Move(p, a.event, stored, w.books.ledger, maxAttempts).value;
      if eff.act.Some? {
        ActsFrom(p, a.event, stored, w.books.ledger, maxAttempts, eff);
      }
    }
  }

  lemma ExtendLedgerRun(states: seq<LedgerRuns.State>, acts: seq<LedgerRuns.Action>, act: LedgerRuns.Action)
    requires LedgerTheorems.Run(states, acts) && LedgerRuns.Enabled(states[|acts|], act)
    ensures LedgerTheorems.Run(states + [LedgerRuns.After(states[|acts|], act)], acts + [act])
  {
    var states', acts' := states + [LedgerRuns.After(states[|acts|], act)], acts + [act];
    forall i | 0 <= i < |acts'| ensures LedgerRuns.Enabled(states'[i], acts'[i]) && states'[i + 1] == LedgerRuns.After(states'[i], acts'[i]) {
      if i < |acts| {
        assert states'[i] == states[i] && states'[i + 1] == states[i + 1] && acts'[i] == acts[i];
      }
    }
  }

  /** `at` says where in the ledger run each state of the protocol run finds its ledger. */
  ghost predicate Located(books: seq<LedgerRuns.State>, states: seq<LedgerRuns.State>, at: seq<nat>) {
    && |at| == |books|
    && (forall k | 0 <= k < |at| :: at[k] < |states| && states[at[k]] == books[k])
    && (forall k, l | 0 <= k <= l < |at| :: at[k] <= at[l])
  }

  function Books(ws: seq<World>): seq<LedgerRuns.State> {
    seq(|ws|, k requires 0 <= k < |ws| => ws[k].books)
  }

  /** Dropping the steps that do not touch it, a protocol run is a run of the ledger. */
  lemma {:induction false} BooksRun(ws: seq<World>, actions: seq<Action>, maxAttempts: int, i: nat)
    returns (states: seq<LedgerRuns.State>, acts: seq<LedgerRuns.Action>, at: seq<nat>)
    requires Run(ws, actions, maxAttempts) && i < |ws|
    ensures LedgerTheorems.Run(states, acts) && Located(Books(ws[..i + 1]), states, at)
    ensures at[i] == |acts|
  {
    if i == 0 {
      states, acts, at := [ws[0].books], [], [0];
    } else {
      states, acts, at := BooksRun(ws, actions, maxAttempts, i - 1);
      var act := RunStepBooks(ws, actions, maxAttempts, i - 1);
      assert Books(ws[..i + 1]) == Books(ws[..i]) + [ws[i].books];
      assert states[|acts|] == Books(ws[..i])[i - 1] == ws[i - 1].books;
      if act.Some? {
        ExtendLedgerRun(states, acts, act.value);
        states, acts, at := states + [ws[i].books], acts + [act.value], at + [|acts| + 1];
      } else {
        at := at + [|acts|];
      }
    }
  }

  /** A decision once recorded is the task's decision for ever; after a reject the task never gets a receipt. */
  lemma RejectStaysFinal(ws: seq<World>, actions: seq<Action>, maxAttempts: int, i: nat, j: nat, a: Approval)
    requires Run(ws, actions, maxAttempts) && i <= j < |ws| && a in ws[i].books.ledger.approvals
    ensures First(ws[j].books.ledger.approvals, ApprovalOfTask(a.taskId)) == Some(a)
    ensures a.decision == Reject ==>
              forall r | r in ws[j].books.ledger.receipts :: !LedgerTheorems.ReceiptOf(ws[j].books.ledger, r, a.taskId)
  {
    var states, acts, at := BooksRun(ws, actions, maxAttempts, j);
    assert Books(ws[..j + 1])[i] == ws[i].books && Books(ws[..j + 1])[j] == ws[j].books;
    LedgerTheorems.RejectIsFinal(states, acts, at[i], at[j], a);
  }

  /** The receipt an apply answered is what every later apply of that approval answers, with nothing written. */
  lemma ApplyStaysStable(ws: seq<World>, actions: seq<Action>, maxAttempts: int, i: nat, j: nat, r: Receipt, freshId: string)
    requires Run(ws, actions, maxAttempts) && i < j < |ws| && actions[i].Graph? && actions[i].act.Apply?
    requires var answer := ApplyApprovedPlan(ws[i].books.ledger, actions[i].act.approvalId, actions[i].act.freshReceiptId).1;
      answer.Ok? && answer.value.receipt == r
    ensures ApplyApprovedPlan(ws[j].books.ledger, actions[i].act.approvalId, freshId)
         == (ws[j].books.ledger, Ok(Applied(r, false)))
  {
    var act := RunStepBooks(ws, actions, maxAttempts, i);
    LedgerTheorems.ApplyAnswers(ws[i].books.ledger, actions[i].act.approvalId, actions[i].act.freshReceiptId);
    var states, acts, at := BooksRun(ws, actions, maxAttempts, j);
    assert Books(ws[..j + 1])[i + 1] == ws[i + 1].books && Books(ws[..j + 1])[j] == ws[j].books;
    LedgerTheorems.RunExtends(states, acts, at[i + 1], at[j]);
    LedgerTheorems.AnsweredStays(ws[i + 1].books.ledger, ws[j].books.ledger, actions[i].act.approvalId, r);
  }

  /** Whenever any step changes any product, the step is an apply and it replaces exactly the text its own
    * approved plan shows as "before" by the one it shows as "after". */
  lemma ChangeIsApprovedDiff(ws: seq<World>, actions: seq<Action>, maxAttempts: int, i: nat) returns (a: Approval, p: ActionPlan)
    requires Run(ws, actions, maxAttempts) && i < |actions|
    requires ws[i + 1].books.ledger.products != ws[i].books.ledger.products
    ensures actions[i].Graph? && actions[i].act.Apply?
    ensures a in ws[i].books.ledger.approvals && a.approvalId == actions[i].act.approvalId && a.decision == Approve
    ensures p in ws[i].books.ledger.plans && LedgerRuns.Decides(a, p)
    ensures LedgerTheorems.Replaces(ws[i].books.ledger, ws[i + 1].books.ledger, p)
  {
    RunInv(ws, actions, maxAttempts, i);
    var act := RunStepBooks(ws, actions, maxAttempts, i);
    if !act.value.Apply? {
      LedgerRuns.NoWrite(ws[i].books, act.value);
    }
    a, p := LedgerTheorems.WriteReplaces(ws[i].books, act.value);
  }

  /** Versions never go back, and two moments of a run that show one version of a product show one text. */
  lemma VersionFixesText(ws: seq<World>, actions: seq<Action>, maxAttempts: int, i: nat, j: nat, p: string)
    requires Run(ws, actions, maxAttempts) && i <= j < |ws| && p in ws[i].books.ledger.products
    ensures p in ws[j].books.ledger.products
    ensures ws[i].books.ledger.products[p].version <= ws[j].books.ledger.products[p].version
    ensures ws[i].books.ledger.products[p].version == ws[j].books.ledger.products[p].version ==>
              ws[i].books.ledger.products[p].description == ws[j].books.ledger.products[p].description
  {
    var states, acts, at := BooksRun(ws, actions, maxAttempts, j);
    assert Books(ws[..j + 1])[i] == ws[i].books && Books(ws[..j + 1])[j] == ws[j].books;
    LedgerTheorems.VersionDeterminesText(states, acts, at[i], at[j], p);
  }
}
