/** The purchase requisition: a request to buy supplies from a vendor for a
    production facility. It needs the approval of both finance and the
    production manager before purchase orders may be derived from it, and
    it tracks whether a derived purchase order is outstanding. Its creation
    and end stamps come from a lifecycle base class, modelled here by the
    fields that class writes. */
module Requisitions {
  import opened Common
  import opened Ledger

  datatype ApprovalStatus = PendingApproval | Approved | Rejected

  datatype PurchaseRequisitionStatus = Processing | Purchasing | Delayed | Completed | Canceled

  datatype Vendor = Vendor(id: int, defaultLocation: string)

  datatype ProductionFacility = ProductionFacility(id: int, location: string)

  /** A purchase order as `GeneratePurchaseOrder` builds it: the link back to
      the requisition, the vendor and facility, the creator, the two
      locations and the copied line items. */
  datatype PurchaseOrder = PurchaseOrder(
    purchaseRequisitionId: int,
    vendorId: int,
    productionFacilityId: int,
    createUserId: string,
    fromLocation: string,
    toLocation: string,
    items: seq<OrderItem>)

  /** The purchase order lines built from requisition lines: identifier,
      quantity, unit and unit price copied position by position. */
  function CopyItems(items: seq<OrderItem>): (r: seq<OrderItem>)
    ensures |r| == |items|
    ensures forall k :: 0 <= k < |r| ==>
              r[k].itemId == items[k].itemId && r[k].quantity == items[k].quantity &&
              r[k].unit == items[k].unit && r[k].unitPrice == items[k].unitPrice
  {
    seq(|items|, k requires 0 <= k < |items| =>
      OrderItem(items[k].itemId, items[k].unit, items[k].unitPrice, items[k].quantity))
  }

  /** Requisition lines and purchase order lines share one datatype here,
      whose four fields are exactly the four that are copied, so the copy is
      the identity on lines; in particular the copied lines have the
      requisition's subtotal and keep its identifiers free of repetition. */
  lemma CopyItemsKeepsLedger(items: seq<OrderItem>)
    ensures CopyItems(items) == items
    ensures SubTotalOf(CopyItems(items)) == SubTotalOf(items)
    ensures UniqueItemIds(CopyItems(items)) <==> UniqueItemIds(items)
  {
    assert forall k :: 0 <= k < |items| ==> CopyItems(items)[k] == items[k];
  }

  class PurchaseRequisition {
    var id: int
    var approvalStatus: ApprovalStatus
    /** The two approver slots. */
    var approveFinance: Option<User>
    var approveProductionManager: Option<User>
    var items: seq<OrderItem>
    var productionFacility: ProductionFacility
    var purchaseOrders: seq<PurchaseOrder>
    var status: PurchaseRequisitionStatus
    var subTotal: real
    var totalAmount: real
    var vatAmount: real
    /** A public setter in the source. */
    var vatRate: real
    var vendor: Vendor
    /** Written by the lifecycle base class. */
    var createUserId: string
    var endTime: Option<Time>
    var endUserId: Option<string>
    var problem: Option<string>

    predicate IsEnded()
      reads this
    {
      endTime.Some?
    }

    predicate IsApprovalAllowed()
      reads this
    {
      !IsEnded() && approvalStatus == PendingApproval
    }

    predicate IsCancelAllowed()
      reads this
    {
      !IsEnded()
    }

    predicate IsInfoUpdateAllowed()
      reads this
    {
      !IsEnded() && approvalStatus == PendingApproval
    }

    predicate IsPurchaseOrderCreateAllowed()
      reads this
    {
      !IsEnded() && approvalStatus == Approved && status != Purchasing
    }

    /** Both approver slots are filled. */
    predicate BothApproved()
      reads this
    {
      approveFinance.Some? && approveProductionManager.Some?
    }

    ghost predicate TotalsConsistent()
      reads this
    {
      TotalsHold(items, vatRate, subTotal, vatAmount, totalAmount)
    }

    /** `Valid()` without its clause "a rejected requisition has ended".
        `Reject` breaks that clause between setting `Rejected` and running
        the inner `Cancel`, which therefore requires only this:
        - its items, and those of every derived order, repeat no identifier;
        - the end time and the ending user are written together;
        - approval, and every derived purchase order, needs both approvers;
        - an outstanding purchase order exists while `Purchasing`, and a
          purchasing requisition has not ended;
        - a canceled or completed requisition has ended. */
    ghost predicate Consistent()
      reads this
    {
      UniqueItemIds(items) &&
      (forall k :: 0 <= k < |purchaseOrders| ==> UniqueItemIds(purchaseOrders[k].items)) &&
      (endTime.Some? <==> endUserId.Some?) &&
      (approvalStatus == Approved ==> BothApproved()) &&
      (purchaseOrders != [] ==> BothApproved()) &&
      (status == Purchasing ==> !IsEnded() && purchaseOrders != []) &&
      (status == Canceled || status == Completed ==> IsEnded())
    }

    /** The requisition invariant: `Consistent`, and a rejected requisition
        has ended. */
    ghost predicate Valid()
      reads this
    {
      Consistent() && (approvalStatus == Rejected ==> IsEnded())
    }

    /** A requisition as first created: nothing approved, nothing ended. */
    constructor (id: int, createUserId: string, vendor: Vendor, productionFacility: ProductionFacility, vatRate: real)
      ensures Valid()
      ensures this.id == id && this.createUserId == createUserId && this.vendor == vendor
      ensures this.productionFacility == productionFacility && this.vatRate == vatRate
      ensures approvalStatus == PendingApproval && status == Processing
      ensures approveFinance == None && approveProductionManager == None
      ensures items == [] && purchaseOrders == [] && !IsEnded() && endUserId == None && problem == None
      ensures subTotal == 0.0 && vatAmount == 0.0 && totalAmount == 0.0
    {
      this.id := id;
      this.createUserId := createUserId;
      this.vendor := vendor;
      this.productionFacility := productionFacility;
      this.vatRate := vatRate;
      approvalStatus := PendingApproval;
      status := Processing;
      approveFinance, approveProductionManager := None, None;
      items, purchaseOrders := [], [];
      endTime, endUserId, problem := None, None, None;
      subTotal, vatAmount, totalAmount := 0.0, 0.0, 0.0;
    }

    /** Recomputes the three cached amounts from the items. */
    method CalculateTotals()
      modifies this`subTotal, this`vatAmount, this`totalAmount
      ensures TotalsConsistent()
    {
      subTotal := SubTotalOf(items);
      vatAmount := subTotal * vatRate;
      totalAmount := subTotal + vatAmount;
    }

    /** Replaces the items wholesale while the requisition is open and
        awaiting approval, refusing an input that repeats an identifier. */
    method AddItems(newItems: seq<OrderItem>) returns (r: Outcome)
      requires Valid()
      modifies this`items, this`subTotal, this`vatAmount, this`totalAmount
      ensures Valid()
      ensures r.Fail? <==> !old(IsInfoUpdateAllowed()) || !UniqueItemIds(newItems)
      ensures r.Fail? ==> r.error == InvalidDomainOperation && unchanged(this)
      ensures r.Pass? ==> items == newItems && TotalsConsistent()
    {
      if IsEnded() || approvalStatus != PendingApproval {
        return Fail(InvalidDomainOperation);
      }
      DuplicateGroupsIffRepeated(newItems);
      if DuplicateGroupCount(newItems) > 0 {
        return Fail(InvalidDomainOperation);
      }
      items := newItems;
      CalculateTotals();
      r := Pass;
    }

    /** Moves a pending requisition to `Approved` once both slots are filled. */
    method Approve() returns (r: Outcome)
      requires Valid()
      modifies this`approvalStatus
      ensures Valid()
      ensures r.Pass? <==> old(approvalStatus) == PendingApproval
      ensures r.Fail? ==> r.error == InvalidDomainOperation && unchanged(this)
      ensures r.Pass? ==> approvalStatus == if BothApproved() then Approved else PendingApproval
    {
      if approvalStatus != PendingApproval {
        return Fail(InvalidDomainOperation);
      }
      if approveProductionManager.Some? && approveFinance.Some? {
        approvalStatus := Approved;
      }
      r := Pass;
    }

    /** Records the finance approver, then tries to approve. The slot is
        written even when the approval step refuses. */
    method ApproveAsFinance(user: User) returns (r: Outcome)
      requires Valid()
      modifies this`approveFinance, this`approvalStatus
      ensures Valid()
      ensures approveFinance == Some(user)
      ensures r.Pass? <==> old(approvalStatus) == PendingApproval
      ensures r.Fail? ==> r.error == InvalidDomainOperation && approvalStatus == old(approvalStatus)
      ensures r.Pass? ==> approvalStatus == if approveProductionManager.Some? then Approved else PendingApproval
    {
      approveFinance := Some(user);
      r := Approve();
    }

    /** Records the production-manager approver, then tries to approve. The
        slot is written even when the approval step refuses. */
    method ApproveAsProductionManager(user: User) returns (r: Outcome)
      requires Valid()
      modifies this`approveProductionManager, this`approvalStatus
      ensures Valid()
      ensures approveProductionManager == Some(user)
      ensures r.Pass? <==> old(approvalStatus) == PendingApproval
      ensures r.Fail? ==> r.error == InvalidDomainOperation && approvalStatus == old(approvalStatus)
      ensures r.Pass? ==> approvalStatus == if approveFinance.Some? then Approved else PendingApproval
    {
      approveProductionManager := Some(user);
      r := Approve();
    }

    /** Starts the lifecycle: the creator is recorded, purchasing is
        `Processing` and approval is pending. */
    method Begin(user: User)
      requires Valid()
      modifies this`createUserId, this`status, this`approvalStatus
      ensures Valid()
      ensures createUserId == user.id
      ensures status == Processing && approvalStatus == PendingApproval
    {
      createUserId := user.id;
      status := Processing;
      approvalStatus := PendingApproval;
    }

    /** The lifecycle base class's end step: stamps the end time and user. */
    method End(user: User, now: Time)
      modifies this`endTime, this`endUserId
      ensures endTime == Some(now) && endUserId == Some(user.id)
    {
      endTime := Some(now);
      endUserId := Some(user.id);
    }

    /** The lifecycle base class's abnormal end: `End` plus the problem text. */
    method EndWithProblem(user: User, problem: string, now: Time)
      modifies this`endTime, this`endUserId, this`problem
      ensures endTime == Some(now) && endUserId == Some(user.id) && this.problem == Some(problem)
    {
      End(user, now);
      this.problem := Some(problem);
    }

    /** Cancels a requisition that has not ended. */
    method Cancel(user: User, problem: string, now: Time) returns (r: Outcome)
      requires Consistent()
      modifies this`status, this`endTime, this`endUserId, this`problem
      ensures Consistent() && (old(Valid()) ==> Valid())
      ensures r.Fail? <==> !old(IsCancelAllowed())
      ensures r.Fail? ==> r.error == InvalidDomainOperation && unchanged(this)
      ensures r.Pass? ==>
                status == Canceled && endTime == Some(now) && endUserId == Some(user.id) &&
                this.problem == Some(problem)
    {
      if IsEnded() {
        return Fail(InvalidDomainOperation);
      }
      status := Canceled;
      EndWithProblem(user, problem, now);
      r := Pass;
    }

    /** Completes a requisition whose purchase order is outstanding. */
    method Complete(user: User, now: Time) returns (r: Outcome)
      requires Valid()
      modifies this`status, this`endTime, this`endUserId
      ensures Valid()
      ensures r.Pass? <==> old(status) == Purchasing
      ensures r.Fail? ==> r.error == InvalidDomainOperation && unchanged(this)
      ensures r.Pass? ==> status == Completed && endTime == Some(now) && endUserId == Some(user.id)
    {
      if status != Purchasing {
        return Fail(InvalidDomainOperation);
      }
      status := Completed;
      End(user, now);
      r := Pass;
    }

    /** Marks an outstanding purchase as delayed, with the reason. Approval
        and the end state are untouched. */
    method Delay(problem: string) returns (r: Outcome)
      requires Valid()
      modifies this`status, this`problem
      ensures Valid()
      ensures r.Pass? <==> old(status) == Purchasing
      ensures r.Fail? ==> r.error == InvalidDomainOperation && unchanged(this)
      ensures r.Pass? ==> status == Delayed && this.problem == Some(problem)
    {
      if status != Purchasing {
        return Fail(InvalidDomainOperation);
      }
      status := Delayed;
      this.problem := Some(problem);
      r := Pass;
    }

    /** Derives a purchase order from an approved, open requisition that has
        no purchase order outstanding. */
    method GeneratePurchaseOrder(userId: string) returns (r: Result<PurchaseOrder>)
      requires Valid()
      modifies this`purchaseOrders, this`status
      ensures Valid()
      ensures r.Err? <==> !old(IsPurchaseOrderCreateAllowed())
      ensures r.Err? ==> r.error == InvalidDomainOperation && unchanged(this)
      ensures r.Ok? ==>
                r.value == PurchaseOrder(id, vendor.id, productionFacility.id, userId,
                                         vendor.defaultLocation, productionFacility.location, CopyItems(items)) &&
                purchaseOrders == old(purchaseOrders) + [r.value] && status == Purchasing
    {
      if approvalStatus != Approved {
        return Err(InvalidDomainOperation);
      }
      if IsEnded() {
        return Err(InvalidDomainOperation);
      }
      if status == Purchasing {
        return Err(InvalidDomainOperation);
      }
      var order := PurchaseOrder(id, vendor.id, productionFacility.id, userId,
                                 vendor.defaultLocation, productionFacility.location, CopyItems(items));
      CopyItemsKeepsLedger(items);
      purchaseOrders := purchaseOrders + [order];
      status := Purchasing;
      r := Ok(order);
    }

    /** Rejects a requisition awaiting approval and cancels it. If it has
        already ended, the cancellation refuses after the approval status
        was set to `Rejected`. */
    method Reject(user: User, problem: string, now: Time) returns (r: Outcome)
      requires Valid()
      modifies this`approvalStatus, this`status, this`endTime, this`endUserId, this`problem
      ensures Valid()
      ensures r.Pass? <==> old(approvalStatus) == PendingApproval && !old(IsEnded())
      ensures old(approvalStatus) != PendingApproval ==> r == Fail(InvalidDomainOperation) && unchanged(this)
      ensures old(approvalStatus) == PendingApproval && old(IsEnded()) ==>
                r == Fail(InvalidDomainOperation) && approvalStatus == Rejected &&
                status == old(status) && endTime == old(endTime) && endUserId == old(endUserId) &&
                this.problem == old(this.problem)
      ensures r.Pass? ==>
                approvalStatus == Rejected && status == Canceled && endTime == Some(now) &&
                endUserId == Some(user.id) && this.problem == Some(problem)
    {
      if approvalStatus != PendingApproval {
        return Fail(InvalidDomainOperation);
      }
      approvalStatus := Rejected;
      r := Cancel(user, problem, now);
    }
  }
}
