/** `CommerceRepository`: the ledger tables held by one object, changed statement by statement.
  * A transaction that fails rolls its statements back. */
module CommerceRepositories {
  import opened Wrappers
  import opened Tables
  import opened Commerce

  class CommerceRepository {
    var products: map<string, ProductRow>
    var plans: seq<ActionPlan>
    var approvals: seq<Approval>
    var receipts: seq<Receipt>

    ghost function Tables(): Ledger
      reads this
    {
      Ledger(products, plans, approvals, receipts)
    }

    /** Opens a database: seed products are inserted where their id is not taken, and nothing else changes. */
    constructor (existing: Ledger, seed: map<string, ProductRow>)
      ensures Tables() == existing.(products := seed + existing.products)
      ensures existing == Ledger(map[], [], [], []) ==> Tables() == Ledger(seed, [], [], [])
    {
      products, plans, approvals, receipts := seed + existing.products, existing.plans, existing.approvals, existing.receipts;
    }

    /** Returns the task's one plan: the one it had, or the draft it has just stored. `meanwhile` is what other
      * connections have made of the tables between the read and the INSERT; if one of them has stored a plan
      * of this task, the INSERT is refused and their tables stay. */
    method CreatePlan(planId: string, taskId: string, merchantId: string, productId: string, patch: ProductPatch, meanwhile: Ledger)
      returns (r: Result<ActionPlan, CommerceError>)
      modifies this
      ensures match ReadForPlan(old(Tables()), planId, taskId, merchantId, productId, patch)
              case Err(e) => r == Err(e) && Tables() == old(Tables())
              case Ok(Existing(plan)) => r == Ok(plan) && Tables() == old(Tables())
              case Ok(Draft(plan)) =>
                match InsertPlan(meanwhile, plan)
                case Err(e) => r == Err(e) && Tables() == meanwhile
                case Ok(l) => r == Ok(plan) && Tables() == l
      ensures r.Ok? ==> First(plans, PlanOfTask(taskId)) == Some(r.value)
    {
      var existing := First(plans, PlanOfTask(taskId));
      if existing.Some? {
        return Ok(existing.value);
      }
      if productId !in products || products[productId].merchantId != merchantId {
        return Err(ProductNotFound);
      }
      var product := products[productId];
      var plan := ActionPlan(planId, taskId, merchantId, productId, 1, UPDATE_DESCRIPTION, patch.field,
                             product.description, patch.newValue, product.version, patch.reason);
      products, plans, approvals, receipts := meanwhile.products, meanwhile.plans, meanwhile.approvals, meanwhile.receipts;
      if First(plans, PlanOfTask(taskId)).Some? || First(plans, PlanWithId(planId)).Some? {
        return Err(IntegrityError);
      }
      FirstAppend(plans, [plan], PlanOfTask(taskId));
      plans := plans + [plan];
      return Ok(plan);
    }

    method RecordApproval(freshId: string, taskId: string, merchantId: string, planId: string,
                          planVersion: int, actionId: string, decision: ApprovalDecision)
      returns (r: Result<string, CommerceError>)
      modifies this
      ensures (Tables(), r) == Commerce.RecordApproval(old(Tables()), freshId, taskId, merchantId, planId,
                                                       planVersion, actionId, decision)
    {
      var plan := First(plans, PlanIdOfTask(planId, taskId));
      if plan.None? {
        return Err(PlanNotFound);
      }
      if plan.value.merchantId != merchantId {
        return Err(MerchantForbidden);
      }
      if plan.value.planVersion != planVersion || plan.value.actionId != actionId {
        return Err(PlanVersionConflict);
      }
      var existing := First(approvals, ApprovalOfTask(taskId));
      if existing.Some? {
        if existing.value.decision != decision {
          return Err(ApprovalConflict);
        }
        return Ok(existing.value.approvalId);
      }
      if First(approvals, ApprovalWithId(freshId)).Some? {
        return Err(IntegrityError);
      }
      approvals := approvals + [Approval(freshId, taskId, merchantId, planId, planVersion, actionId, decision)];
      return Ok(freshId);
    }

    /** The UPDATE comes before the INSERT of the receipt: when the INSERT is refused, the UPDATE is
      * rolled back with it. */
    method ApplyApprovedPlan(approvalId: string, freshId: string) returns (r: Result<Applied, CommerceError>)
      modifies this
      ensures (Tables(), r) == Commerce.ApplyApprovedPlan(old(Tables()), approvalId, freshId)
    {
      var savepoint := products;
      var approval := First(approvals, ApprovalWithId(approvalId));
      if approval.None? {
        return Err(ApprovalNotFound);
      }
      if approval.value.decision != Approve {
        return Err(ActionNotApproved);
      }
      var found := First(plans, PlanWithId(approval.value.planId));
      if found.None? {
        return Err(PlanNotFound);
      }
      var plan := found.value;
      var existing := First(receipts, ReceiptWithKey(PlanKey(plan)));
      if existing.Some? {
        return Ok(Applied(existing.value, false));
      }
      if plan.productId !in products || products[plan.productId].merchantId != plan.merchantId {
        return Err(ProductNotFound);
      }
      var product := products[plan.productId];
      if product.version != plan.productVersion {
        return Err(ProductVersionConflict);
      }
      if plan.field != "description" {
        return Err(ActionFieldForbidden);
      }
      var newVersion := product.version + 1;
      products := products[plan.productId := product.(description := plan.afterValue, version := newVersion)];
      var receipt := Receipt(freshId, PlanKey(plan), plan.merchantId, plan.productId, plan.actionId, newVersion);
      if First(receipts, ReceiptWithId(freshId)).Some? {
        products := savepoint;
        return Err(IntegrityError);
      }
      receipts := receipts + [receipt];
      return Ok(Applied(receipt, true));
    }
  }
}
