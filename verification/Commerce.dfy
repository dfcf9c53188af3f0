/** The business ledger: products, action plans, approvals and action receipts, and the effect of
  * each SQL statement group on them. */
module Commerce {
  import opened Wrappers
  import opened Tables
  import opened IdempotencyKey

  datatype ProductRow = ProductRow(merchantId: string, name: string, description: string, version: int)

  datatype ProductPatch = ProductPatch(field: string, newValue: string, reason: string)

  datatype ApprovalDecision = Approve | Reject

  datatype ActionPlan = ActionPlan(
    planId: string, taskId: string, merchantId: string, productId: string, planVersion: int,
    actionId: string, field: string, beforeValue: string, afterValue: string,
    productVersion: int, reason: string)

  datatype Approval = Approval(
    approvalId: string, taskId: string, merchantId: string, planId: string, planVersion: int,
    actionId: string, decision: ApprovalDecision)

  datatype Receipt = Receipt(
    receiptId: string, idempotencyKey: string, merchantId: string, productId: string,
    actionId: string, productVersion: int)

  /** What `apply_approved_plan` returns: the stored receipt and whether this call wrote it. */
  datatype Applied = Applied(receipt: Receipt, applied: bool)

  datatype Ledger = Ledger(
    products: map<string, ProductRow>, plans: seq<ActionPlan>,
    approvals: seq<Approval>, receipts: seq<Receipt>)

  datatype CommerceError =
    | MerchantNotFound
    | ProductNotFound
    | PlanNotFound
    | MerchantForbidden
    | PlanVersionConflict
    | ApprovalConflict
    | ApprovalNotFound
    | ActionNotApproved
    | ProductVersionConflict
    | ActionFieldForbidden
    | IntegrityError  // SQLite refuses a row that breaks a PRIMARY KEY or UNIQUE column

  const UPDATE_DESCRIPTION := "update_description"

  // ----- Conditions and columns used in the statements -----

  function PlanOfTask(taskId: string): ActionPlan -> bool { (p: ActionPlan) => p.taskId == taskId }
  function PlanWithId(planId: string): ActionPlan -> bool { (p: ActionPlan) => p.planId == planId }
  function ApprovalOfTask(taskId: string): Approval -> bool { (a: Approval) => a.taskId == taskId }
  function ApprovalWithId(approvalId: string): Approval -> bool { (a: Approval) => a.approvalId == approvalId }
  function ReceiptWithKey(key: string): Receipt -> bool { (r: Receipt) => r.idempotencyKey == key }
  function ReceiptWithId(receiptId: string): Receipt -> bool { (r: Receipt) => r.receiptId == receiptId }
  function PlanIdOfTask(planId: string, taskId: string): ActionPlan -> bool {
    (p: ActionPlan) => p.planId == planId && p.taskId == taskId
  }

  predicate Owns(l: Ledger, merchantId: string, productId: string) {
    productId in l.products && l.products[productId].merchantId == merchantId
  }

  function PlanKey(p: ActionPlan): string {
    Key(p.merchantId, p.taskId, p.planVersion, p.actionId)
  }

  // ----- create_plan: a read, then an INSERT in its own transaction -----

  /** What the SELECTs of `create_plan` find: the plan the task already has, or a new plan built from
    * the product row as it is now, still to be inserted. */
  datatype PlanRead = Existing(plan: ActionPlan) | Draft(plan: ActionPlan)

  function ReadForPlan(l: Ledger, planId: string, taskId: string, merchantId: string,
                       productId: string, patch: ProductPatch): Result<PlanRead, CommerceError>
  {
    match First(l.plans, PlanOfTask(taskId))
    case Some(plan) => Ok(Existing(plan))
    case None =>
      if !Owns(l, merchantId, productId) then Err(ProductNotFound)
      else
        var row := l.products[productId];
        Ok(Draft(ActionPlan(planId, taskId, merchantId, productId, 1, UPDATE_DESCRIPTION, patch.field,
                            row.description, patch.newValue, row.version, patch.reason)))
  }

  function InsertPlan(l: Ledger, plan: ActionPlan): Result<Ledger, CommerceError> {
    if First(l.plans, PlanOfTask(plan.taskId)).Some? || First(l.plans, PlanWithId(plan.planId)).Some?
    then Err(IntegrityError)
    else Ok(l.(plans := l.plans + [plan]))
  }

  // ----- record_approval and apply_approved_plan: one immediate transaction each -----

  /** The state a transaction leaves (unchanged when it rolls back) and its answer. */
  function RecordApproval(l: Ledger, freshId: string, taskId: string, merchantId: string, planId: string,
                          planVersion: int, actionId: string, decision: ApprovalDecision)
    : (Ledger, Result<string, CommerceError>)
  {
    match First(l.plans, PlanIdOfTask(planId, taskId))
    case None => (l, Err(PlanNotFound))
    case Some(plan) =>
      if plan.merchantId != merchantId then (l, Err(MerchantForbidden))
      else if plan.planVersion != planVersion || plan.actionId != actionId then (l, Err(PlanVersionConflict))
      else match First(l.approvals, ApprovalOfTask(taskId))
        case Some(existing) =>
          if existing.decision != decision then (l, Err(ApprovalConflict))
          else (l, Ok(existing.approvalId))
        case None =>
          if First(l.approvals, ApprovalWithId(freshId)).Some? then (l, Err(IntegrityError))
          else
            var row := Approval(freshId, taskId, merchantId, planId, planVersion, actionId, decision);
            (l.(approvals := l.approvals + [row]), Ok(freshId))
  }

  function ApplyApprovedPlan(l: Ledger, approvalId: string, freshId: string)
    : (Ledger, Result<Applied, CommerceError>)
  {
    match First(l.approvals, ApprovalWithId(approvalId))
    case None => (l, Err(ApprovalNotFound))
    case Some(approval) =>
      if approval.decision != Approve then (l, Err(ActionNotApproved))
      else match First(l.plans, PlanWithId(approval.planId))
        case None => (l, Err(PlanNotFound))
        case Some(plan) => ApplyPlan(l, plan, freshId)
  }

  function ApplyPlan(l: Ledger, plan: ActionPlan, freshId: string): (Ledger, Result<Applied, CommerceError>) {
    match First(l.receipts, ReceiptWithKey(PlanKey(plan)))
    case Some(existing) => (l, Ok(Applied(existing, false)))
    case None =>
      if !Owns(l, plan.merchantId, plan.productId) then (l, Err(ProductNotFound))
      else
        var row := l.products[plan.productId];
        if row.version != plan.productVersion then (l, Err(ProductVersionConflict))
        else if plan.field != "description" then (l, Err(ActionFieldForbidden))
        else if First(l.receipts, ReceiptWithId(freshId)).Some? then (l, Err(IntegrityError))
        else
          var row' := row.(description := plan.afterValue, version := row.version + 1);
          var receipt := Receipt(freshId, PlanKey(plan), plan.merchantId, plan.productId,
                                 plan.actionId, row.version + 1);
          (l.(products := l.products[plan.productId := row'], receipts := l.receipts + [receipt]),
           Ok(Applied(receipt, true)))
  }
}
