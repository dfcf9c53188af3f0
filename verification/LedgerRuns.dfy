/** Every interleaving of ledger operations by any number of processes, and what all of them keep. */
module LedgerRuns {
  import opened Wrappers
  import opened Tables
  import opened IdempotencyKey
  import opened Commerce

  /** The ledger together with the drafts processes have read but may not have inserted (now, later or
    * never), and the descriptions each product has had: `history[p][v - 1]` is the one at version `v`. */
  datatype State = State(ledger: Ledger, drafts: set<ActionPlan>, history: map<string, seq<string>>)

  datatype Action =
    | Read(planId: string, taskId: string, merchantId: string, productId: string, patch: ProductPatch)
    | Insert(plan: ActionPlan)
    | Record(freshId: string, taskId: string, merchantId: string, planId: string, planVersion: int,
             actionId: string, decision: ApprovalDecision)
    | Apply(approvalId: string, freshReceiptId: string)

  /** A new database: products at version 1 and nothing else. */
  ghost predicate Init(s: State) {
    && s.ledger.plans == [] && s.ledger.approvals == [] && s.ledger.receipts == []
    && s.drafts == {}
    && s.history.Keys == s.ledger.products.Keys
    && forall p | p in s.ledger.products ::
         s.ledger.products[p].version == 1 && s.history[p] == [s.ledger.products[p].description]
  }

  function Observe(history: map<string, seq<string>>, l: Ledger, l': Ledger): map<string, seq<string>> {
    map p | p in history ::
      if p in l.products && p in l'.products && l.products[p] != l'.products[p]
      then history[p] + [l'.products[p].description]
      else history[p]
  }

  function Drafted(s: State, a: Action): set<ActionPlan>
    requires a.Read?
  {
    match ReadForPlan(s.ledger, a.planId, a.taskId, a.merchantId, a.productId, a.patch)
    case Ok(Draft(plan)) => {plan}
    case _ => {}
  }

  function LedgerAfter(l: Ledger, a: Action): Ledger {
    match a
    case Read(_, _, _, _, _) => l
    case Insert(plan) =>
      (match InsertPlan(l, plan)
       case Ok(l') => l'
       case Err(_) => l)
    case Record(freshId, taskId, merchantId, planId, planVersion, actionId, decision) =>
      RecordApproval(l, freshId, taskId, merchantId, planId, planVersion, actionId, decision).0
    case Apply(approvalId, freshId) => ApplyApprovedPlan(l, approvalId, freshId).0
  }

  /** Task ids come from a URL-safe token generator, which has no colon in its alphabet; only drafts that
    * were read can be inserted. */
  predicate Enabled(s: State, a: Action) {
    && (a.Read? ==> ColonFree(a.taskId))
    && (a.Insert? ==> a.plan in s.drafts)
  }

  function After(s: State, a: Action): State {
    var l := LedgerAfter(s.ledger, a);
    State(l, s.drafts + (if a.Read? then Drafted(s, a) else {}), Observe(s.history, s.ledger, l))
  }

  // ----- The invariant -----

  /** A plan describes its product as it was at the plan's product version. */
  ghost predicate PlanOk(s: State, p: ActionPlan) {
    && p.planVersion == 1 && p.actionId == UPDATE_DESCRIPTION && ColonFree(p.taskId)
    && Owns(s.ledger, p.merchantId, p.productId)
    && p.productId in s.history
    && 1 <= p.productVersion <= |s.history[p.productId]|
    && p.beforeValue == s.history[p.productId][p.productVersion - 1]
  }

  /** An approval is a decision on the one plan of its own task. */
  ghost predicate ApprovalOk(l: Ledger, a: Approval) {
    exists p | p in l.plans :: Decides(a, p)
  }

  predicate Decides(a: Approval, p: ActionPlan) {
    && p.planId == a.planId && p.taskId == a.taskId && p.merchantId == a.merchantId
    && p.planVersion == a.planVersion && p.actionId == a.actionId
  }

  /** A receipt is the trace of one approved plan: it names that plan's key, product and action, and the
    * description changed exactly as the plan says. */
  predicate Executes(s: State, r: Receipt, a: Approval, p: ActionPlan) {
    && a.decision == Approve && Decides(a, p)
    && r.idempotencyKey == PlanKey(p) && r.merchantId == p.merchantId && r.productId == p.productId
    && r.actionId == p.actionId && r.productVersion == p.productVersion + 1
    && p.productId in s.history && 2 <= r.productVersion <= |s.history[p.productId]|
    && s.history[p.productId][r.productVersion - 2] == p.beforeValue
    && s.history[p.productId][r.productVersion - 1] == p.afterValue
  }

  ghost predicate ReceiptOk(s: State, r: Receipt) {
    exists a, p | a in s.ledger.approvals && p in s.ledger.plans :: Executes(s, r, a, p)
  }

  /** The product versions written by receipts, in the order the receipts were inserted. */
  function Versions(receipts: seq<Receipt>, productId: string): seq<int> {
    if receipts == [] then []
    else
      var n := |receipts| - 1;
      Versions(receipts[..n], productId)
      + (if receipts[n].productId == productId then [receipts[n].productVersion] else [])
  }

  function UpTo(version: int): seq<int> {
    seq(if version < 1 then 0 else version - 1, i => i + 2)
  }

  ghost predicate ProductOk(s: State, p: string)
    requires p in s.ledger.products && p in s.history
  {
    var row := s.ledger.products[p];
    && row.version == |s.history[p]| >= 1
    && row.description == s.history[p][row.version - 1]
    && Versions(s.ledger.receipts, p) == UpTo(row.version)
  }

  function PlanTask(p: ActionPlan): string { p.taskId }
  function PlanId(p: ActionPlan): string { p.planId }
  function ApprovalTask(a: Approval): string { a.taskId }
  function ApprovalId(a: Approval): string { a.approvalId }
  function ReceiptKey(r: Receipt): string { r.idempotencyKey }
  function ReceiptId(r: Receipt): string { r.receiptId }

  ghost predicate UniqueRows(l: Ledger) {
    && Unique(l.plans, PlanTask) && Unique(l.plans, PlanId)
    && Unique(l.approvals, ApprovalTask) && Unique(l.approvals, ApprovalId)
    && Unique(l.receipts, ReceiptKey) && Unique(l.receipts, ReceiptId)
  }

  ghost predicate Inv(s: State) {
    && UniqueRows(s.ledger)
    && s.history.Keys == s.ledger.products.Keys
    && (forall p | p in s.ledger.products :: ProductOk(s, p))
    && (forall p | p in s.drafts :: PlanOk(s, p))
    && (forall p | p in s.ledger.plans :: PlanOk(s, p))
    && (forall a | a in s.ledger.approvals :: ApprovalOk(s.ledger, a))
    && (forall r | r in s.ledger.receipts :: ReceiptOk(s, r))
  }

  // ----- Rows are never lost or changed -----

  /** `s'` has all of `s`: the tables only grew, and each product only gained descriptions. */
  ghost predicate Extends(s: State, s': State) {
    && s.ledger.plans <= s'.ledger.plans
    && s.ledger.approvals <= s'.ledger.approvals
    && s.ledger.receipts <= s'.ledger.receipts
    && s.drafts <= s'.drafts
    && s.history.Keys == s'.history.Keys
    && s.ledger.products.Keys == s'.ledger.products.Keys
    && (forall p | p in s.history :: s.history[p] <= s'.history[p])
    && (forall p | p in s.ledger.products ::
          s.ledger.products[p].merchantId == s'.ledger.products[p].merchantId)
  }

  /** What an apply that writes something wrote: exactly one approved plan, read at the current version. */
  lemma ApplyShape(l: Ledger, approvalId: string, freshId: string) returns (a: Approval, p: ActionPlan, r: Receipt)
    requires ApplyApprovedPlan(l, approvalId, freshId).0 != l
    ensures a in l.approvals && a.approvalId == approvalId && a.decision == Approve
    ensures p in l.plans && p.planId == a.planId
    ensures Owns(l, p.merchantId, p.productId) && l.products[p.productId].version == p.productVersion
    ensures r == Receipt(freshId, PlanKey(p), p.merchantId, p.productId, p.actionId, p.productVersion + 1)
    ensures forall x | x in l.receipts :: x.idempotencyKey != PlanKey(p) && x.receiptId != freshId
    ensures ApplyApprovedPlan(l, approvalId, freshId).0
         == l.(products := l.products[p.productId := l.products[p.productId].(
                 description := p.afterValue, version := p.productVersion + 1)],
               receipts := l.receipts + [r])
    ensures ApplyApprovedPlan(l, approvalId, freshId).1 == Ok(Applied(r, true))
  {
    a := First(l.approvals, ApprovalWithId(approvalId)).value;
    p := First(l.plans, PlanWithId(a.planId)).value;
    r := Receipt(freshId, PlanKey(p), p.merchantId, p.productId, p.actionId, p.productVersion + 1);
    forall x | x in l.receipts ensures x.idempotencyKey != PlanKey(p) && x.receiptId != freshId {
      assert !ReceiptWithKey(PlanKey(p))(x) && !ReceiptWithId(freshId)(x);
    }
  }

  /** The history after a write: one product gained the plan's new text. */
  lemma ApplyHistory(s: State, a: Action, p: ActionPlan, r: Receipt)
    requires Inv(s) && a.Apply? && Owns(s.ledger, p.merchantId, p.productId)
    requires s.ledger.products[p.productId].version == p.productVersion
    requires LedgerAfter(s.ledger, a).products
          == s.ledger.products[p.productId := s.ledger.products[p.productId].(
               description := p.afterValue, version := p.productVersion + 1)]
    ensures After(s, a).history == s.history[p.productId := s.history[p.productId] + [p.afterValue]]
  {
  }

  /** Apart from an apply that writes, an action inserts at most one row and leaves the products alone. */
  lemma NoWrite(s: State, a: Action)
    requires a.Apply? ==> LedgerAfter(s.ledger, a) == s.ledger
    ensures LedgerAfter(s.ledger, a).products == s.ledger.products
    ensures LedgerAfter(s.ledger, a).receipts == s.ledger.receipts
    ensures After(s, a).history == s.history
    ensures s.ledger.plans <= LedgerAfter(s.ledger, a).plans
    ensures s.ledger.approvals <= LedgerAfter(s.ledger, a).approvals
  {
  }

  lemma WriteExtends(s: State, s': State, p: ActionPlan, r: Receipt)
    requires Writes(s, s', p, r) && s.history.Keys == s.ledger.products.Keys
    ensures Extends(s, s')
  {
  }

  /** An apply that changes the ledger writes one plan and one receipt. */
  lemma ApplyWrites(s: State, a: Action) returns (x: Approval, p: ActionPlan, r: Receipt)
    requires Inv(s) && a.Apply? && LedgerAfter(s.ledger, a) != s.ledger
    ensures x in s.ledger.approvals && x.decision == Approve && p in s.ledger.plans && p.planId == x.planId
    ensures r.idempotencyKey == PlanKey(p) && r.merchantId == p.merchantId && r.actionId == p.actionId
    ensures forall y | y in s.ledger.receipts :: y.idempotencyKey != PlanKey(p) && y.receiptId != r.receiptId
    ensures Writes(s, After(s, a), p, r)
  {
    x, p, r := ApplyShape(s.ledger, a.approvalId, a.freshReceiptId);
    ApplyHistory(s, a, p, r);
  }

  lemma StepExtends(s: State, a: Action)
    requires Inv(s)
    ensures Extends(s, After(s, a))
  {
    if a.Apply? && LedgerAfter(s.ledger, a) != s.ledger {
      var _, p, r := ApplyWrites(s, a);
      WriteExtends(s, After(s, a), p, r);
    } else {
      NoWrite(s, a);
    }
  }

  lemma ExtendsTransitive(s: State, t: State, u: State)
    requires Extends(s, t) && Extends(t, u)
    ensures Extends(s, u)
  {
  }

  lemma PlanOkStable(s: State, s': State, p: ActionPlan)
    requires Extends(s, s') && PlanOk(s, p)
    ensures PlanOk(s', p)
  {
  }

  lemma ApprovalOkStable(s: State, s': State, a: Approval)
    requires Extends(s, s') && ApprovalOk(s.ledger, a)
    ensures ApprovalOk(s'.ledger, a)
  {
  }

  lemma ReceiptOkStable(s: State, s': State, r: Receipt)
    requires Extends(s, s') && ReceiptOk(s, r)
    ensures ReceiptOk(s', r)
  {
    var a, p :| a in s.ledger.approvals && p in s.ledger.plans && Executes(s, r, a, p);
    assert a in s'.ledger.approvals && p in s'.ledger.plans;
    assert s.history[p.productId] <= s'.history[p.productId];
    assert Executes(s', r, a, p);
  }

  // ----- Every step keeps the invariant -----

  lemma InitInv(s: State)
    requires Init(s)
    ensures Inv(s)
  {
  }

  /** The parts of the invariant that survive because nothing they speak of was removed. */
  lemma Kept(s: State, a: Action)
    requires Inv(s)
    ensures var s' := After(s, a);
      && s'.history.Keys == s'.ledger.products.Keys
      && (forall p | p in s.drafts || p in s.ledger.plans :: PlanOk(s', p))
      && (forall x | x in s.ledger.approvals :: ApprovalOk(s'.ledger, x))
      && (forall r | r in s.ledger.receipts :: ReceiptOk(s', r))
  {
    var s' := After(s, a);
    StepExtends(s, a);
    forall p | p in s.drafts || p in s.ledger.plans ensures PlanOk(s', p) {
      PlanOkStable(s, s', p);
    }
    forall x | x in s.ledger.approvals ensures ApprovalOk(s'.ledger, x) {
      ApprovalOkStable(s, s', x);
    }
    forall r | r in s.ledger.receipts ensures ReceiptOk(s', r) {
      ReceiptOkStable(s, s', r);
    }
  }

  lemma ReadInv(s: State, a: Action)
    requires Inv(s) && Enabled(s, a) && a.Read?
    ensures Inv(After(s, a))
  {
    Kept(s, a);
    NoWrite(s, a);
    assert After(s, a).ledger == s.ledger;
    forall p | p in Drafted(s, a) ensures PlanOk(After(s, a), p) {
      assert ProductOk(s, a.productId);
    }
    forall p | p in s.ledger.products ensures ProductOk(After(s, a), p) {
      assert ProductOk(s, p);
    }
  }

  lemma InsertInv(s: State, a: Action)
    requires Inv(s) && Enabled(s, a) && a.Insert?
    ensures Inv(After(s, a))
  {
    Kept(s, a);
    NoWrite(s, a);
    var s' := After(s, a);
    forall p | p in s.ledger.products ensures ProductOk(s', p) {
      assert ProductOk(s, p);
    }
    if InsertPlan(s.ledger, a.plan).Ok? {
      forall x | x in s.ledger.plans ensures PlanTask(x) != PlanTask(a.plan) && PlanId(x) != PlanId(a.plan) {
        assert !PlanOfTask(a.plan.taskId)(x) && !PlanWithId(a.plan.planId)(x);
      }
      UniqueAppend(s.ledger.plans, a.plan, PlanTask);
      UniqueAppend(s.ledger.plans, a.plan, PlanId);
    }
  }

  lemma RecordInv(s: State, a: Action)
    requires Inv(s) && a.Record?
    ensures Inv(After(s, a))
  {
    Kept(s, a);
    NoWrite(s, a);
    var s', l := After(s, a), s.ledger;
    forall p | p in l.products ensures ProductOk(s', p) {
      assert ProductOk(s, p);
    }
    if s'.ledger != l {
      var row := Approval(a.freshId, a.taskId, a.merchantId, a.planId, a.planVersion, a.actionId, a.decision);
      assert s'.ledger == l.(approvals := l.approvals + [row]);
      forall x | x in l.approvals ensures ApprovalTask(x) != ApprovalTask(row) && ApprovalId(x) != ApprovalId(row) {
        assert !ApprovalOfTask(a.taskId)(x) && !ApprovalWithId(a.freshId)(x);
      }
      UniqueAppend(l.approvals, row, ApprovalTask);
      UniqueAppend(l.approvals, row, ApprovalId);
      assert Decides(row, First(l.plans, PlanIdOfTask(a.planId, a.taskId)).value);
    }
  }

  lemma ApplyInv(s: State, a: Action)
    requires Inv(s) && a.Apply?
    ensures Inv(After(s, a))
  {
    Kept(s, a);
    if After(s, a).ledger == s.ledger {
      NoWrite(s, a);
      forall p | p in s.ledger.products ensures ProductOk(After(s, a), p) {
        assert ProductOk(s, p);
      }
    } else {
      var x, p, r := ApplyWrites(s, a);
      WriteInv(s, After(s, a), x, p, r);
    }
  }

  /** `s'` is `s` with plan `p` written to its product and receipt `r` inserted. */
  ghost predicate Writes(s: State, s': State, p: ActionPlan, r: Receipt) {
    && Owns(s.ledger, p.merchantId, p.productId) && p.productId in s.history
    && s.ledger.products[p.productId].version == p.productVersion
    && r.productId == p.productId && r.productVersion == p.productVersion + 1
    && s'.ledger == s.ledger.(receipts := s.ledger.receipts + [r],
         products := s.ledger.products[p.productId := s.ledger.products[p.productId].(
           description := p.afterValue, version := p.productVersion + 1)])
    && s'.drafts == s.drafts
    && s'.history == s.history[p.productId := s.history[p.productId] + [p.afterValue]]
  }

  lemma WriteInv(s: State, s': State, a: Approval, p: ActionPlan, r: Receipt)
    requires Inv(s) && Writes(s, s', p, r)
    requires a in s.ledger.approvals && a.decision == Approve && p in s.ledger.plans && p.planId == a.planId
    requires r.idempotencyKey == PlanKey(p) && r.merchantId == p.merchantId && r.actionId == p.actionId
    requires forall y | y in s.ledger.receipts :: y.idempotencyKey != PlanKey(p) && y.receiptId != r.receiptId
    requires forall q | q in s.drafts || q in s.ledger.plans :: PlanOk(s', q)
    requires forall x | x in s.ledger.approvals :: ApprovalOk(s'.ledger, x)
    requires forall y | y in s.ledger.receipts :: ReceiptOk(s', y)
    ensures Inv(s')
  {
    UniqueAppend(s.ledger.receipts, r, ReceiptKey);
    UniqueAppend(s.ledger.receipts, r, ReceiptId);
    ApplyDecides(s, a, p);
    WriteExecutes(s, s', a, p, r);
    forall q | q in s'.ledger.products ensures ProductOk(s', q) {
      WriteProduct(s, s', p, r, q);
    }
  }

  lemma WriteExecutes(s: State, s': State, a: Approval, p: ActionPlan, r: Receipt)
    requires Inv(s) && Writes(s, s', p, r) && p in s.ledger.plans && Decides(a, p) && a.decision == Approve
    requires r.idempotencyKey == PlanKey(p) && r.merchantId == p.merchantId && r.actionId == p.actionId
    ensures Executes(s', r, a, p)
  {
  }

  /** The plan an approval points to by id is the plan of the approval's own task. */
  lemma ApplyDecides(s: State, a: Approval, p: ActionPlan)
    requires Inv(s) && a in s.ledger.approvals && p in s.ledger.plans && p.planId == a.planId
    ensures Decides(a, p)
  {
  }

  lemma WriteProduct(s: State, s': State, p: ActionPlan, r: Receipt, q: string)
    requires Inv(s) && q in s.ledger.products && Writes(s, s', p, r)
    ensures ProductOk(s', q)
  {
  }

  lemma StepInv(s: State, a: Action)
    requires Inv(s) && Enabled(s, a)
    ensures Inv(After(s, a))
  {
    match a
    case Read(_, _, _, _, _) => ReadInv(s, a);
    case Insert(_) => InsertInv(s, a);
    case Record(_, _, _, _, _, _, _) => RecordInv(s, a);
    case Apply(_, _) => ApplyInv(s, a);
  }
}
