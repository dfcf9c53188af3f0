/** What holds in every state of every run of the ledger, whatever the interleaving, the number of
  * duplicates and the moment at which processes stop. */
module LedgerTheorems {
  import opened Wrappers
  import opened Tables
  import opened Runs
  import opened IdempotencyKey
  import opened Commerce
  import opened LedgerRuns

  ghost predicate Run(states: seq<State>, actions: seq<Action>) {
    && |states| == |actions| + 1
    && Init(states[0])
    && forall i | 0 <= i < |actions| ::
         Enabled(states[i], actions[i]) && states[i + 1] == After(states[i], actions[i])
  }

  lemma {:induction false} RunInv(states: seq<State>, actions: seq<Action>, i: nat)
    requires Run(states, actions) && i < |states|
    ensures Inv(states[i])
  {
    if i == 0 {
      InitInv(states[0]);
    } else {
      RunInv(states, actions, i - 1);
      StepInv(states[i - 1], actions[i - 1]);
    }
  }

  lemma RunStepExtends(states: seq<State>, actions: seq<Action>, i: nat)
    requires Run(states, actions) && i < |actions|
    ensures Extends(states[i], states[i + 1])
  {
    RunInv(states, actions, i);
    StepExtends(states[i], actions[i]);
  }

  ghost predicate ExtendsFrom(states: seq<State>, i: nat, k: nat)
    requires i < |states| && k < |states|
  {
    Extends(states[i], states[k])
  }

  lemma RunExtends(states: seq<State>, actions: seq<Action>, i: nat, j: nat)
    requires Run(states, actions) && i <= j < |states|
    ensures Extends(states[i], states[j])
  {
    var holds := seq(|states|, k requires 0 <= k < |states| => ExtendsFrom(states, i, k));
    forall k | i <= k < j && holds[k] ensures holds[k + 1] {
      RunStepExtends(states, actions, k);
      ExtendsTransitive(states[i], states[k], states[k + 1]);
    }
    ExtendsReflexive(states[i]);
    AllAlong(holds, i, j);
    assert holds[j];
  }

  lemma ExtendsReflexive(s: State)
    ensures Extends(s, s)
  {
  }

  // ----- Exactly-once effect -----

  /** Receipt `r` was written for task `t`: it carries the key of a plan of that task. */
  ghost predicate ReceiptOf(l: Ledger, r: Receipt, t: string) {
    exists p | p in l.plans :: p.taskId == t && r.idempotencyKey == PlanKey(p)
  }

  /** A receipt's key names one task only, and a task's receipts all carry one key. */
  lemma SameKeySameTask(s: State, p: ActionPlan, q: ActionPlan)
    requires Inv(s) && p in s.ledger.plans && q in s.ledger.plans
    ensures PlanKey(p) == PlanKey(q) <==> p.taskId == q.taskId
    ensures p.taskId == q.taskId ==> p == q
  {
    assert PlanOk(s, p) && PlanOk(s, q);
    if PlanKey(p) == PlanKey(q) {
      assert ColonFree(UPDATE_DESCRIPTION);
      KeyInjective(p.merchantId, p.taskId, p.planVersion, p.actionId,
                   q.merchantId, q.taskId, q.planVersion, q.actionId);
    }
    if p.taskId == q.taskId {
      UniqueRow(s.ledger.plans, PlanTask, p, q);
    }
  }

  lemma OneReceiptPerTask(s: State, r1: Receipt, r2: Receipt, t1: string, t2: string)
    requires Inv(s) && r1 in s.ledger.receipts && r2 in s.ledger.receipts
    requires ReceiptOf(s.ledger, r1, t1) && ReceiptOf(s.ledger, r2, t2)
    ensures r1 == r2 <==> t1 == t2
  {
    var p :| p in s.ledger.plans && p.taskId == t1 && r1.idempotencyKey == PlanKey(p);
    var q :| q in s.ledger.plans && q.taskId == t2 && r2.idempotencyKey == PlanKey(q);
    SameKeySameTask(s, p, q);
    if t1 == t2 {
      UniqueRow(s.ledger.receipts, ReceiptKey, r1, r2);
    }
  }

  /** The number of receipts inserted for a product. */
  function CountReceipts(receipts: seq<Receipt>, productId: string): nat {
    if receipts == [] then 0
    else CountReceipts(receipts[1..], productId) + (if receipts[0].productId == productId then 1 else 0)
  }

  lemma {:induction false} VersionsAppend(a: seq<Receipt>, b: seq<Receipt>, productId: string)
    ensures Versions(a + b, productId) == Versions(a, productId) + Versions(b, productId)
  {
    if b == [] {
      assert a + b == a;
    } else {
      var n := |b| - 1;
      assert (a + b)[..|a| + n] == a + b[..n];
      VersionsAppend(a, b[..n], productId);
    }
  }

  lemma {:induction false} VersionsCount(receipts: seq<Receipt>, productId: string)
    ensures |Versions(receipts, productId)| == CountReceipts(receipts, productId)
  {
    if receipts != [] {
      assert receipts == receipts[..1] + receipts[1..];
      VersionsAppend(receipts[..1], receipts[1..], productId);
      assert receipts[..1][..0] == [];
      VersionsCount(receipts[1..], productId);
    }
  }

  ghost predicate ReceiptsHaveTasks(l: Ledger) {
    forall r | r in l.receipts :: exists t :: ReceiptOf(l, r, t)
  }

  ghost predicate OneReceiptEach(l: Ledger) {
    forall r1, r2, t1, t2 | r1 in l.receipts && r2 in l.receipts && ReceiptOf(l, r1, t1) && ReceiptOf(l, r2, t2) ::
      r1 == r2 <==> t1 == t2
  }

  ghost predicate VersionsAreWritten(l: Ledger) {
    forall p | p in l.products ::
      && l.products[p].version == 1 + CountReceipts(l.receipts, p)
      && Versions(l.receipts, p) == UpTo(l.products[p].version)
  }

  lemma InvExactOnce(s: State)
    requires Inv(s)
    ensures ReceiptsHaveTasks(s.ledger) && OneReceiptEach(s.ledger) && VersionsAreWritten(s.ledger)
  {
    var l := s.ledger;
    forall r | r in l.receipts ensures exists t :: ReceiptOf(l, r, t) {
      assert ReceiptOk(s, r);
      var a, p :| a in l.approvals && p in l.plans && Executes(s, r, a, p);
      assert ReceiptOf(l, r, p.taskId);
    }
    forall r1, r2, t1, t2 | r1 in l.receipts && r2 in l.receipts && ReceiptOf(l, r1, t1) && ReceiptOf(l, r2, t2)
      ensures r1 == r2 <==> t1 == t2
    {
      OneReceiptPerTask(s, r1, r2, t1, t2);
    }
    forall p | p in l.products
      ensures l.products[p].version == 1 + CountReceipts(l.receipts, p)
           && Versions(l.receipts, p) == UpTo(l.products[p].version)
    {
      assert ProductOk(s, p);
      VersionsCount(l.receipts, p);
    }
  }

  lemma EveryReceiptHasTask(states: seq<State>, actions: seq<Action>, i: nat)
    requires Run(states, actions) && i < |states|
    ensures ReceiptsHaveTasks(states[i].ledger)
  {
    RunInv(states, actions, i);
    InvExactOnce(states[i]);
  }

  /** In every state of every run, two receipts are one and the same exactly when their tasks are. */
  lemma ExactlyOnce(states: seq<State>, actions: seq<Action>, i: nat)
    requires Run(states, actions) && i < |states|
    ensures OneReceiptEach(states[i].ledger)
  {
    RunInv(states, actions, i);
    InvExactOnce(states[i]);
  }

  /** Each product's version is one plus its number of receipts, and these carry the versions 2, 3, ... up to it. */
  lemma VersionsCountReceipts(states: seq<State>, actions: seq<Action>, i: nat)
    requires Run(states, actions) && i < |states|
    ensures VersionsAreWritten(states[i].ledger)
  {
    RunInv(states, actions, i);
    InvExactOnce(states[i]);
  }

  // ----- No write without its own approval -----

  /** Whatever receipt a task has, the task's one recorded decision is Approve, and it decides the very
    * plan the receipt executes. */
  lemma ReceiptNeedsOwnApproval(s: State, r: Receipt, t: string)
    requires Inv(s) && r in s.ledger.receipts && ReceiptOf(s.ledger, r, t)
    ensures exists a, p | a in s.ledger.approvals && p in s.ledger.plans ::
              a.taskId == t && Executes(s, r, a, p)
    ensures forall a | a in s.ledger.approvals && a.taskId == t :: a.decision == Approve
  {
    assert ReceiptOk(s, r);
    var a, p :| a in s.ledger.approvals && p in s.ledger.plans && Executes(s, r, a, p);
    var q :| q in s.ledger.plans && q.taskId == t && r.idempotencyKey == PlanKey(q);
    SameKeySameTask(s, p, q);
    forall b | b in s.ledger.approvals && b.taskId == t ensures b.decision == Approve {
      UniqueRow(s.ledger.approvals, ApprovalTask, a, b);
    }
  }

  /** A decision once recorded is the task's decision for ever; after a reject the task never gets a receipt. */
  lemma RejectIsFinal(states: seq<State>, actions: seq<Action>, i: nat, j: nat, a: Approval)
    requires Run(states, actions) && i <= j < |states| && a in states[i].ledger.approvals
    ensures First(states[j].ledger.approvals, ApprovalOfTask(a.taskId)) == Some(a)
    ensures a.decision == Reject ==>
              forall r | r in states[j].ledger.receipts :: !ReceiptOf(states[j].ledger, r, a.taskId)
  {
    RunInv(states, actions, j);
    RunExtends(states, actions, i, j);
    var s := states[j];
    assert a in s.ledger.approvals;
    var found := First(s.ledger.approvals, ApprovalOfTask(a.taskId));
    assert ApprovalOfTask(a.taskId)(a);
    UniqueRow(s.ledger.approvals, ApprovalTask, found.value, a);
    forall r | r in s.ledger.receipts && ReceiptOf(s.ledger, r, a.taskId) ensures a.decision == Approve {
      ReceiptNeedsOwnApproval(s, r, a.taskId);
    }
  }

  // ----- The approved diff is the applied diff -----

  /** `l'` is `l` with plan `p` written: from the text and version it was read at to its new text and the
    * next version, every other product untouched. */
  predicate Replaces(l: Ledger, l': Ledger, p: ActionPlan) {
    && Owns(l, p.merchantId, p.productId) && p.productId in l'.products
    && l.products[p.productId].description == p.beforeValue
    && l.products[p.productId].version == p.productVersion
    && l'.products[p.productId].description == p.afterValue
    && l'.products[p.productId].version == p.productVersion + 1
    && l.products - {p.productId} == l'.products - {p.productId}
  }

  lemma OthersUntouched(products: map<string, ProductRow>, p: string, row: ProductRow)
    ensures products - {p} == products[p := row] - {p}
  {
  }

  lemma WriteReplaces(s: State, act: Action) returns (a: Approval, p: ActionPlan)
    requires Inv(s) && act.Apply? && LedgerAfter(s.ledger, act) != s.ledger
    ensures a in s.ledger.approvals && p in s.ledger.plans && a.approvalId == act.approvalId
    ensures a.decision == Approve && Decides(a, p)
    ensures Replaces(s.ledger, LedgerAfter(s.ledger, act), p)
  {
    var r: Receipt;
    a, p, r := ApplyShape(s.ledger, act.approvalId, act.freshReceiptId);
    ApplyDecides(s, a, p);
    assert PlanOk(s, p) && ProductOk(s, p.productId);
    var row := s.ledger.products[p.productId].(description := p.afterValue, version := p.productVersion + 1);
    OthersUntouched(s.ledger.products, p.productId, row);
  }

  /** Whenever any step changes any product, the step is an apply and it replaces exactly the text its own
    * approved plan shows as "before" by the one it shows as "after". */
  lemma AppliedDiff(states: seq<State>, actions: seq<Action>, i: nat)
    requires Run(states, actions) && i < |actions|
    requires states[i + 1].ledger.products != states[i].ledger.products
    ensures actions[i].Apply?
    ensures exists a, p | a in states[i].ledger.approvals && p in states[i].ledger.plans ::
      && a.approvalId == actions[i].approvalId && a.decision == Approve && Decides(a, p)
      && Replaces(states[i].ledger, states[i + 1].ledger, p)
  {
    RunInv(states, actions, i);
    if !actions[i].Apply? {
      NoWrite(states[i], actions[i]);
    }
    var a, p := WriteReplaces(states[i], actions[i]);
  }

  /** One version of a product is one text: any two moments of a run that show the same version show the
    * same description, and versions never go back. */
  lemma VersionDeterminesText(states: seq<State>, actions: seq<Action>, i: nat, j: nat, p: string)
    requires Run(states, actions) && i <= j < |states| && p in states[i].ledger.products
    ensures p in states[j].ledger.products
    ensures states[i].ledger.products[p].version <= states[j].ledger.products[p].version
    ensures states[i].ledger.products[p].version == states[j].ledger.products[p].version ==>
              states[i].ledger.products[p].description == states[j].ledger.products[p].description
  {
    RunInv(states, actions, i);
    RunInv(states, actions, j);
    RunExtends(states, actions, i, j);
    assert ProductOk(states[i], p) && ProductOk(states[j], p);
    assert states[i].history[p] <= states[j].history[p];
  }

  /** Consecutive receipts of a product join up: the later plan starts from the earlier plan's new text. */
  lemma DiffsChain(s: State, r1: Receipt, a1: Approval, p1: ActionPlan, r2: Receipt, a2: Approval, p2: ActionPlan)
    requires Inv(s) && Executes(s, r1, a1, p1) && Executes(s, r2, a2, p2)
    requires r1.productId == r2.productId && r2.productVersion == r1.productVersion + 1
    ensures p1.afterValue == p2.beforeValue
  {
  }

  // ----- Stable, idempotent apply -----

  /** Approval `id` is answered by receipt `r` from the tables of `l`. */
  predicate Answered(l: Ledger, id: string, r: Receipt) {
    match First(l.approvals, ApprovalWithId(id))
    case None => false
    case Some(a) =>
      a.decision == Approve &&
      match First(l.plans, PlanWithId(a.planId))
      case None => false
      case Some(p) => First(l.receipts, ReceiptWithKey(PlanKey(p))) == Some(r)
  }

  lemma ApplyAnswers(l: Ledger, id: string, freshId: string)
    requires ApplyApprovedPlan(l, id, freshId).1.Ok?
    ensures Answered(ApplyApprovedPlan(l, id, freshId).0, id, ApplyApprovedPlan(l, id, freshId).1.value.receipt)
  {
    var p := First(l.plans, PlanWithId(First(l.approvals, ApprovalWithId(id)).value.planId)).value;
    var r := ApplyApprovedPlan(l, id, freshId).1.value.receipt;
    FirstAppend(l.receipts, [r], ReceiptWithKey(PlanKey(p)));
  }

  lemma AnsweredStays(l: Ledger, l': Ledger, id: string, r: Receipt)
    requires l.approvals <= l'.approvals && l.plans <= l'.plans && l.receipts <= l'.receipts
    requires Answered(l, id, r)
    ensures Answered(l', id, r)
  {
    Stays(l.approvals, l'.approvals, ApprovalWithId(id));
    var a := First(l.approvals, ApprovalWithId(id)).value;
    Stays(l.plans, l'.plans, PlanWithId(a.planId));
    var p := First(l.plans, PlanWithId(a.planId)).value;
    Stays(l.receipts, l'.receipts, ReceiptWithKey(PlanKey(p)));
  }

  /** The receipt an apply answered is what every later apply of that approval answers, with nothing
    * written and no version conflict, however far other tasks have moved the product. */
  lemma StableApply(states: seq<State>, actions: seq<Action>, i: nat, j: nat, r: Receipt, freshId: string)
    requires Run(states, actions) && i < j < |states| && actions[i].Apply?
    requires ApplyApprovedPlan(states[i].ledger, actions[i].approvalId, actions[i].freshReceiptId).1.Ok?
    requires ApplyApprovedPlan(states[i].ledger, actions[i].approvalId, actions[i].freshReceiptId).1.value.receipt == r
    ensures ApplyApprovedPlan(states[j].ledger, actions[i].approvalId, freshId)
         == (states[j].ledger, Ok(Applied(r, false)))
  {
    ApplyAnswers(states[i].ledger, actions[i].approvalId, actions[i].freshReceiptId);
    RunExtends(states, actions, i + 1, j);
    AnsweredStays(states[i + 1].ledger, states[j].ledger, actions[i].approvalId, r);
  }

  lemma Stays<T>(rows: seq<T>, later: seq<T>, cond: T -> bool)
    requires rows <= later && First(rows, cond).Some?
    ensures First(later, cond) == First(rows, cond)
  {
  }

  /** The approval stored under an id and the plan it decides. */
  lemma ApprovedPlan(s: State, id: string) returns (a: Approval, p: ActionPlan)
    requires Inv(s) && First(s.ledger.approvals, ApprovalWithId(id)).Some?
    ensures First(s.ledger.approvals, ApprovalWithId(id)) == Some(a)
    ensures First(s.ledger.plans, PlanWithId(a.planId)) == Some(p) && Decides(a, p)
    ensures PlanOk(s, p) && ProductOk(s, p.productId)
  {
    a := First(s.ledger.approvals, ApprovalWithId(id)).value;
    assert ApprovalOk(s.ledger, a);
    var q :| q in s.ledger.plans && Decides(a, q);
    assert PlanWithId(a.planId)(q);
    p := First(s.ledger.plans, PlanWithId(a.planId)).value;
    UniqueRow(s.ledger.plans, PlanId, p, q);
  }

  /** Some receipt already moved the product of plan `p` past the version the plan was read at. */
  ghost predicate Overtaken(l: Ledger, p: ActionPlan) {
    exists r | r in l.receipts :: r.productId == p.productId && r.productVersion == p.productVersion + 1
  }

  lemma OvertakenIff(s: State, p: ActionPlan)
    requires Inv(s) && PlanOk(s, p) && ProductOk(s, p.productId)
    ensures s.ledger.products[p.productId].version != p.productVersion <==> Overtaken(s.ledger, p)
  {
    var l := s.ledger;
    if l.products[p.productId].version > p.productVersion {
      assert UpTo(l.products[p.productId].version)[p.productVersion - 1] == p.productVersion + 1;
      VersionWritten(l.receipts, p.productId, p.productVersion + 1);
    }
    if Overtaken(l, p) {
      var r :| r in l.receipts && r.productId == p.productId && r.productVersion == p.productVersion + 1;
      WrittenVersion(l.receipts, r);
    }
  }

  /** An approved plan that has no receipt yet is refused for its version exactly when some other task's
    * receipt has moved the product since the plan was read. */
  lemma ConflictIff(s: State, id: string, freshId: string) returns (a: Approval, p: ActionPlan)
    requires Inv(s) && First(s.ledger.approvals, ApprovalWithId(id)).Some?
    requires First(s.ledger.approvals, ApprovalWithId(id)).value.decision == Approve
    requires forall r | r in s.ledger.receipts ::
               !ReceiptOf(s.ledger, r, First(s.ledger.approvals, ApprovalWithId(id)).value.taskId)
    ensures a in s.ledger.approvals && a.approvalId == id && p in s.ledger.plans && Decides(a, p)
    ensures ApplyApprovedPlan(s.ledger, id, freshId).1 == Err(ProductVersionConflict) <==> Overtaken(s.ledger, p)
  {
    a, p := ApprovedPlan(s, id);
    forall r | r in s.ledger.receipts ensures !ReceiptWithKey(PlanKey(p))(r) {
      assert !ReceiptOf(s.ledger, r, a.taskId);
    }
    OvertakenIff(s, p);
  }

  /** What an apply of approval `id` comes to when its task has no receipt yet: it writes the approved change and
    * one receipt, exactly if the plan changes the description, nobody has moved the product since it was read,
    * and the new receipt's id is not taken; and each refusal has exactly its own reason. */
  lemma ApplyIff(s: State, id: string, freshId: string) returns (a: Approval, p: ActionPlan)
    requires Inv(s) && First(s.ledger.approvals, ApprovalWithId(id)).Some?
    requires First(s.ledger.approvals, ApprovalWithId(id)).value.decision == Approve
    requires forall r | r in s.ledger.receipts ::
               !ReceiptOf(s.ledger, r, First(s.ledger.approvals, ApprovalWithId(id)).value.taskId)
    ensures a in s.ledger.approvals && a.approvalId == id && p in s.ledger.plans && Decides(a, p)
    ensures var (l', answer) := ApplyApprovedPlan(s.ledger, id, freshId);
      && (answer.Ok? <==> !Overtaken(s.ledger, p) && p.field == "description" && ReceiptIdFree(s.ledger, freshId))
      && (answer.Ok? ==> answer.value.applied && PlanWritten(s.ledger, l', p, answer.value.receipt) && answer.value.receipt.receiptId == freshId)
      && (answer == Err(ProductVersionConflict) <==> Overtaken(s.ledger, p))
      && (answer == Err(ActionFieldForbidden) <==> !Overtaken(s.ledger, p) && p.field != "description")
      && (answer == Err(IntegrityError) <==>
            !Overtaken(s.ledger, p) && p.field == "description" && !ReceiptIdFree(s.ledger, freshId))
      && (answer.Err? ==> l' == s.ledger)
  {
    a, p := ApprovedPlan(s, id);
    forall r | r in s.ledger.receipts ensures !ReceiptWithKey(PlanKey(p))(r) {
      assert !ReceiptOf(s.ledger, r, a.taskId);
    }
    OvertakenIff(s, p);
    ReceiptIdIff(s.ledger, freshId);
    PlanApplies(s.ledger, p, freshId);
    if ApplyPlan(s.ledger, p, freshId).1.Ok? {
      CurrentText(s, p);
      PlanIsWritten(s.ledger, p, freshId);
    }
  }

  /** The refusals that do not depend on the plan. */
  lemma ApplyRefusedIff(s: State, id: string, freshId: string)
    requires Inv(s)
    ensures ApplyApprovedPlan(s.ledger, id, freshId).1 == Err(ApprovalNotFound)
       <==> forall a | a in s.ledger.approvals :: a.approvalId != id
    ensures ApplyApprovedPlan(s.ledger, id, freshId).1 == Err(ActionNotApproved)
       <==> exists a | a in s.ledger.approvals :: a.approvalId == id && a.decision == Reject
    ensures var answer := ApplyApprovedPlan(s.ledger, id, freshId).1;
      answer.Ok? || answer.error in {ApprovalNotFound, ActionNotApproved, ProductVersionConflict, ActionFieldForbidden, IntegrityError}
  {
    var l, found := s.ledger, First(s.ledger.approvals, ApprovalWithId(id));
    forall a | a in l.approvals ensures ApprovalWithId(id)(a) <==> a.approvalId == id {
    }
    if found.Some? {
      var a, p := ApprovedPlan(s, id);
      forall b | b in l.approvals && b.approvalId == id ensures b == a {
        UniqueRow(l.approvals, ApprovalId, a, b);
      }
      PlanRefusals(l, p, freshId);
    }
  }

  lemma PlanRefusals(l: Ledger, p: ActionPlan, freshId: string)
    requires Owns(l, p.merchantId, p.productId)
    ensures var answer := ApplyPlan(l, p, freshId).1;
      answer.Ok? || answer.error == ProductVersionConflict || answer.error == ActionFieldForbidden || answer.error == IntegrityError
  {
  }

  // ----- Decisions -----

  /** The request names a stored plan of the task, with its merchant, version and action. */
  predicate NamesPlan(l: Ledger, taskId: string, merchantId: string, planId: string, planVersion: int, actionId: string) {
    exists p | p in l.plans :: p.planId == planId && p.taskId == taskId && p.merchantId == merchantId
      && p.planVersion == planVersion && p.actionId == actionId
  }

  predicate Undecided(l: Ledger, taskId: string) {
    forall a | a in l.approvals :: a.taskId != taskId
  }

  predicate ApprovalIdFree(l: Ledger, approvalId: string) {
    forall a | a in l.approvals :: a.approvalId != approvalId
  }

  /** A decision is accepted exactly if it names the task's plan, and either repeats the task's decision, which is
    * answered by the id stored for it, or is the first, which is stored under its new id. */
  lemma DecisionIff(s: State, freshId: string, taskId: string, merchantId: string, planId: string,
                    planVersion: int, actionId: string, decision: ApprovalDecision)
    requires Inv(s)
    ensures var l, named := s.ledger, NamesPlan(s.ledger, taskId, merchantId, planId, planVersion, actionId);
      var (l', answer) := RecordApproval(l, freshId, taskId, merchantId, planId, planVersion, actionId, decision);
      && (named && Undecided(l, taskId) && ApprovalIdFree(l, freshId) ==>
            && answer == Ok(freshId)
            && l' == l.(approvals := l.approvals + [Approval(freshId, taskId, merchantId, planId, planVersion, actionId, decision)]))
      && (named && Undecided(l, taskId) && !ApprovalIdFree(l, freshId) ==> answer == Err(IntegrityError) && l' == l)
      && (named ==> forall a | a in l.approvals && a.taskId == taskId ::
            l' == l && answer == if a.decision == decision then Ok(a.approvalId) else Err(ApprovalConflict))
      && (!named ==> l' == l && (answer == Err(PlanNotFound) || answer == Err(MerchantForbidden) || answer == Err(PlanVersionConflict)))
  {
    var l, found := s.ledger, First(s.ledger.plans, PlanIdOfTask(planId, taskId));
    forall p | p in l.plans && p.planId == planId && p.taskId == taskId ensures found == Some(p) {
      assert PlanIdOfTask(planId, taskId)(p);
      UniqueRow(l.plans, PlanId, p, found.value);
    }
    DecisionRows(s, freshId, taskId);
  }

  /** Which of the two rows a decision looks for are there. */
  lemma DecisionRows(s: State, freshId: string, taskId: string)
    requires Inv(s)
    ensures First(s.ledger.approvals, ApprovalOfTask(taskId)).None? <==> Undecided(s.ledger, taskId)
    ensures First(s.ledger.approvals, ApprovalWithId(freshId)).None? <==> ApprovalIdFree(s.ledger, freshId)
    ensures forall a | a in s.ledger.approvals && a.taskId == taskId :: First(s.ledger.approvals, ApprovalOfTask(taskId)) == Some(a)
  {
    var l := s.ledger;
    forall a | a in l.approvals
      ensures (ApprovalOfTask(taskId)(a) <==> a.taskId == taskId) && (ApprovalWithId(freshId)(a) <==> a.approvalId == freshId)
    {
    }
    forall a | a in l.approvals && a.taskId == taskId ensures First(l.approvals, ApprovalOfTask(taskId)) == Some(a) {
      UniqueRow(l.approvals, ApprovalTask, a, First(l.approvals, ApprovalOfTask(taskId)).value);
    }
  }

  /** Each refusal of a decision that names no plan has exactly its own reason. */
  lemma DecisionRefusedIff(s: State, freshId: string, taskId: string, merchantId: string, planId: string,
                           planVersion: int, actionId: string, decision: ApprovalDecision)
    requires Inv(s)
    ensures var l := s.ledger;
      var answer := RecordApproval(l, freshId, taskId, merchantId, planId, planVersion, actionId, decision).1;
      && (answer == Err(PlanNotFound) <==> forall p | p in l.plans :: p.planId != planId || p.taskId != taskId)
      && (answer == Err(MerchantForbidden) <==>
            exists p | p in l.plans :: p.planId == planId && p.taskId == taskId && p.merchantId != merchantId)
      && (answer == Err(PlanVersionConflict) <==>
            exists p | p in l.plans :: p.planId == planId && p.taskId == taskId && p.merchantId == merchantId
              && (p.planVersion != planVersion || p.actionId != actionId))
  {
    var l, found := s.ledger, First(s.ledger.plans, PlanIdOfTask(planId, taskId));
    forall p | p in l.plans && p.planId == planId && p.taskId == taskId ensures found == Some(p) {
      assert PlanIdOfTask(planId, taskId)(p);
      UniqueRow(l.plans, PlanId, p, found.value);
    }
  }

  // ----- Plans -----

  /** What `create_plan` reads: the plan the task has, or else a draft for a product of this merchant, with the
    * product's text and version as they are now and the patch's text; and nothing else is refused. */
  lemma PlanReadIff(s: State, planId: string, taskId: string, merchantId: string, productId: string, patch: ProductPatch)
    requires Inv(s)
    ensures var l, read := s.ledger, ReadForPlan(s.ledger, planId, taskId, merchantId, productId, patch);
      && (forall p | p in l.plans && p.taskId == taskId :: read == Ok(Existing(p)))
      && ((forall p | p in l.plans :: p.taskId != taskId) && Owns(l, merchantId, productId) ==>
            read == Ok(Draft(ActionPlan(planId, taskId, merchantId, productId, 1, "update_description", patch.field,
                                        l.products[productId].description, patch.newValue,
                                        l.products[productId].version, patch.reason))))
      && ((forall p | p in l.plans :: p.taskId != taskId) && !Owns(l, merchantId, productId) ==> read == Err(ProductNotFound))
  {
    var l, found := s.ledger, First(s.ledger.plans, PlanOfTask(taskId));
    forall p | p in l.plans ensures PlanOfTask(taskId)(p) <==> p.taskId == taskId {
    }
    forall p | p in l.plans && p.taskId == taskId ensures found == Some(p) {
      UniqueRow(l.plans, PlanTask, p, found.value);
    }
  }

  /** An insert stores exactly the plan, exactly if neither its task nor its id is taken. */
  lemma PlanInsertIff(l: Ledger, plan: ActionPlan)
    ensures if forall p | p in l.plans :: p.taskId != plan.taskId && p.planId != plan.planId
            then InsertPlan(l, plan) == Ok(l.(plans := l.plans + [plan])) else InsertPlan(l, plan) == Err(IntegrityError)
  {
    forall p | p in l.plans
      ensures (PlanOfTask(plan.taskId)(p) <==> p.taskId == plan.taskId) && (PlanWithId(plan.planId)(p) <==> p.planId == plan.planId)
    {
    }
  }

  predicate ReceiptIdFree(l: Ledger, receiptId: string) {
    forall r | r in l.receipts :: r.receiptId != receiptId
  }

  lemma ReceiptIdIff(l: Ledger, receiptId: string)
    ensures First(l.receipts, ReceiptWithId(receiptId)).None? <==> ReceiptIdFree(l, receiptId)
  {
    forall r | r in l.receipts ensures ReceiptWithId(receiptId)(r) <==> r.receiptId == receiptId {
    }
  }

  /** Plan `p` is written to its product, and `r` is the one new receipt, naming key, product, action and version. */
  predicate PlanWritten(l: Ledger, l': Ledger, p: ActionPlan, r: Receipt) {
    && Replaces(l, l', p) && l'.plans == l.plans && l'.approvals == l.approvals && l'.receipts == l.receipts + [r]
    && r.idempotencyKey == PlanKey(p) && r.merchantId == p.merchantId && r.productId == p.productId
    && r.actionId == p.actionId && r.productVersion == p.productVersion + 1
  }

  lemma PlanApplies(l: Ledger, p: ActionPlan, freshId: string)
    requires First(l.receipts, ReceiptWithKey(PlanKey(p))).None? && Owns(l, p.merchantId, p.productId)
    ensures var (l', answer) := ApplyPlan(l, p, freshId);
      var current, idFree := l.products[p.productId].version == p.productVersion, First(l.receipts, ReceiptWithId(freshId)).None?;
      && (answer.Ok? <==> current && p.field == "description" && idFree)
      && (answer == Err(ProductVersionConflict) <==> !current)
      && (answer == Err(ActionFieldForbidden) <==> current && p.field != "description")
      && (answer == Err(IntegrityError) <==> current && p.field == "description" && !idFree)
      && (answer.Err? ==> l' == l)
      && (answer.Ok? ==> answer.value.applied && answer.value.receipt.receiptId == freshId)
  {
  }

  lemma PlanIsWritten(l: Ledger, p: ActionPlan, freshId: string)
    requires First(l.receipts, ReceiptWithKey(PlanKey(p))).None? && ApplyPlan(l, p, freshId).1.Ok?
    requires Owns(l, p.merchantId, p.productId) && l.products[p.productId].description == p.beforeValue
    ensures PlanWritten(l, ApplyPlan(l, p, freshId).0, p, ApplyPlan(l, p, freshId).1.value.receipt)
  {
    OthersUntouched(l.products, p.productId, ApplyPlan(l, p, freshId).0.products[p.productId]);
  }

  lemma CurrentText(s: State, p: ActionPlan)
    requires PlanOk(s, p) && ProductOk(s, p.productId) && s.ledger.products[p.productId].version == p.productVersion
    ensures s.ledger.products[p.productId].description == p.beforeValue
  {
  }

  lemma {:induction false} VersionWritten(receipts: seq<Receipt>, productId: string, version: int)
    requires version in Versions(receipts, productId)
    ensures exists r | r in receipts :: r.productId == productId && r.productVersion == version
  {
    var n := |receipts| - 1;
    if version in Versions(receipts[..n], productId) {
      VersionWritten(receipts[..n], productId, version);
    } else {
      assert receipts[n] in receipts;
    }
  }

  lemma {:induction false} WrittenVersion(receipts: seq<Receipt>, r: Receipt)
    requires r in receipts
    ensures r.productVersion in Versions(receipts, r.productId)
  {
    var n := |receipts| - 1;
    if receipts[n] != r {
      WrittenVersion(receipts[..n], r);
    }
  }
}
