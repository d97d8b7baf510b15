/** Call sequences against the order and requisition entities, proved from
    the entities' method contracts alone. */
module Scenarios {
  import opened Common
  import opened Ledger
  import opened Orders
  import opened Requisitions

  /** An order at 10% VAT with one line of two units at 100 totals 200 + 20;
      once in transit it can be delivered and completed by "user1", which
      leaves the payment due. */
  method DeliverAndCompleteExample() returns (subTotal: real, vat: real, total: real,
                                              status: OrderStatus, payment: OrderPaymentStatus,
                                              finisher: Option<string>)
    ensures subTotal == 200.0 && vat == 20.0 && total == 220.0
    ensures status == OrderStatus.Completed && payment == OrderPaymentStatus.Due
    ensures finisher == Some("user1")
  {
    var o := new Order(1, "creator", 0.1, Some("warehouse"), "customer");
    var added := o.AddItem(OrderItem(7, "box", 100.0, 2.0));
    assert added.Pass?;
    subTotal, vat, total := o.subTotal, o.vatAmount, o.totalAmount;
    o.status := OrderStatus.Delivering;
    var delivered := o.FinishDelivery(10);
    var completed := o.Complete("user1", 20);
    status, payment, finisher := o.status, o.paymentStatus, o.finishUserId;
  }

  /** Adding an item whose identifier is present fails and keeps the ledger. */
  method DuplicateItemRefused(o: Order, item: OrderItem) returns (first: Outcome, second: Outcome)
    requires o.Valid()
    modifies o
    ensures o.Valid()
    ensures second == Fail(InvalidDomainOperation)
    ensures HasItemId(o.items, item.itemId)
    ensures first.Pass? ==> o.items == old(o.items) + [item]
  {
    first := o.AddItem(item);
    if first.Pass? {
      assert o.items[|o.items| - 1].itemId == item.itemId;
    }
    second := o.AddItem(item);
  }

  /** Two payment completions in a row: the second always fails. */
  method CompletePaymentTwice(o: Order) returns (first: Outcome, second: Outcome)
    requires o.Valid()
    modifies o
    ensures first.Pass? <==> old(o.paymentStatus) == OrderPaymentStatus.Due
    ensures second == Fail(InvalidDomainOperation)
  {
    first := o.CompletePayment();
    second := o.CompletePayment();
  }

  /** A completed order accepts no further completion, cancellation or
      return, and its finish stamps stay as they were. */
  method CompletedOrderIsFinal(o: Order, userId: string, now: Time) returns (c: Outcome, x: Outcome, t: Outcome)
    requires o.Valid() && o.status == OrderStatus.Completed
    modifies o
    ensures c.Fail? && x.Fail? && t.Fail?
    ensures o.finishUserId == old(o.finishUserId) && o.finishTime == old(o.finishTime)
    ensures o.events == old(o.events)
  {
    c := o.Complete(userId, now);
    x := o.Cancel(userId, now);
    t := o.Return(userId, now);
  }

  /** Paying, then completing, makes the payment due again, so it can be
      completed a second time and the log holds two payment events. */
  method PaymentCompletedTwiceAroundComplete(o: Order, userId: string, now: Time)
    returns (p1: Outcome, c: Outcome, p2: Outcome)
    requires o.Valid() && o.status == OrderStatus.Delivered && o.paymentStatus == OrderPaymentStatus.Due
    modifies o
    ensures p1.Pass? && c.Pass? && p2.Pass?
    ensures o.paymentStatus == OrderPaymentStatus.Completed
    ensures o.events == old(o.events) + [NewEvent(OrderEventType.PaymentCompleted, o.toLocation, None),
                                         NewEvent(OrderEventType.Completed, o.toLocation, None),
                                         NewEvent(OrderEventType.PaymentCompleted, o.toLocation, None)]
  {
    p1 := o.CompletePayment();
    c := o.Complete(userId, now);
    p2 := o.CompletePayment();
  }

  /** A canceled order with a non-empty log can be canceled again, and the
      second call overwrites the finish stamps. */
  method CancelTwice(o: Order, first: string, second: string, t1: Time, t2: Time)
    returns (r1: Outcome, r2: Outcome)
    requires o.Valid() && o.status == OrderStatus.Processing && o.events != []
    modifies o
    ensures r1.Pass? && r2.Pass?
    ensures o.status == OrderStatus.Canceled && o.finishUserId == Some(second) && o.finishTime == Some(t2)
    ensures |o.events| == |old(o.events)| + 2
  {
    r1 := o.Cancel(first, t1);
    r2 := o.Cancel(second, t2);
  }

  /** Canceling a new order, whose log is empty, throws; by then the order
      is already marked canceled and finished. */
  method CancelNewOrder() returns (r: Outcome, status: OrderStatus, payment: OrderPaymentStatus,
                                   finisher: Option<string>, eventCount: nat)
    ensures r == Fail(InvalidOperation)
    ensures status == OrderStatus.Canceled && payment == OrderPaymentStatus.Canceled
    ensures finisher == Some("user1") && eventCount == 0
  {
    var o := new Order(2, "creator", 0.1, None, "customer");
    r := o.Cancel("user1", 5);
    status, payment, finisher, eventCount := o.status, o.paymentStatus, o.finishUserId, |o.events|;
  }

  /** Editing an event: an unknown identifier is not found, a location is
      always refused, and a message-only edit replaces that one message. */
  method EditRecordedEvent(location: string, message: string)
    returns (unknown: Outcome, withLocation: Outcome, messageOnly: Outcome, edited: OrderEvent)
    ensures unknown == Fail(EntityNotFound)
    ensures withLocation == Fail(InvalidDomainOperation)
    ensures messageOnly == Pass
    ensures edited == OrderEvent(0, OrderEventType.Arrived, "dock", Some(message))
  {
    var o := new Order(3, "creator", 0.0, None, "customer");
    var added := o.AddManualEvent(OrderEventTypeSelection.Arrived, "dock", None);
    unknown := o.EditEvent(42, None, Some(message));
    withLocation := o.EditEvent(0, Some(location), Some(message));
    messageOnly := o.EditEvent(0, None, Some(message));
    edited := o.events[0];
  }

  /** Finance then production manager, or the other way round: both end in
      `Approved`; after the first approval alone it is still pending. */
  method ApprovalInEitherOrder(finance: User, manager: User)
    returns (afterOne: ApprovalStatus, financeFirst: ApprovalStatus, managerFirst: ApprovalStatus)
    ensures afterOne == PendingApproval
    ensures financeFirst == Approved && managerFirst == Approved
  {
    var v := Vendor(1, "vendor dock");
    var f := ProductionFacility(2, "plant");
    var a := new PurchaseRequisition(10, "creator", v, f, 0.1);
    var b := new PurchaseRequisition(11, "creator", v, f, 0.1);
    var r1 := a.ApproveAsFinance(finance);
    afterOne := a.approvalStatus;
    var r2 := a.ApproveAsProductionManager(manager);
    var r3 := b.ApproveAsProductionManager(manager);
    var r4 := b.ApproveAsFinance(finance);
    financeFirst, managerFirst := a.approvalStatus, b.approvalStatus;
  }

  /** Approving a requisition that is no longer pending fails, yet the
      approver slot has been overwritten. */
  method ApproveAfterDecision(pr: PurchaseRequisition, user: User) returns (r: Outcome)
    requires pr.Valid() && pr.approvalStatus != PendingApproval
    modifies pr
    ensures r == Fail(InvalidDomainOperation)
    ensures pr.approveFinance == Some(user) && pr.approvalStatus == old(pr.approvalStatus)
  {
    r := pr.ApproveAsFinance(user);
  }

  /** `Approve` does not consult `IsEnded`: a pending requisition that was
      canceled no longer allows approval, yet both approvals go through and
      leave it `Approved` while ended. */
  method ApproveEndedRequisition(finance: User, manager: User)
    returns (allowed: bool, r1: Outcome, r2: Outcome, approval: ApprovalStatus, ended: bool)
    ensures !allowed
    ensures r1 == Pass && r2 == Pass && approval == Approved && ended
  {
    var pr := new PurchaseRequisition(13, "creator", Vendor(1, "dock"), ProductionFacility(2, "plant"), 0.0);
    var canceled := pr.Cancel(manager, "no longer needed", 4);
    allowed := pr.IsApprovalAllowed();
    r1 := pr.ApproveAsFinance(finance);
    r2 := pr.ApproveAsProductionManager(manager);
    approval, ended := pr.approvalStatus, pr.IsEnded();
  }

  /** Rejecting a pending, open requisition cancels and ends it. */
  method RejectCancels(user: User) returns (r: Outcome, approval: ApprovalStatus,
                                            status: PurchaseRequisitionStatus, ended: bool)
    ensures r == Pass && approval == Rejected && status == PurchaseRequisitionStatus.Canceled && ended
  {
    var pr := new PurchaseRequisition(12, "creator", Vendor(1, "dock"), ProductionFacility(2, "plant"), 0.0);
    r := pr.Reject(user, "over budget", 3);
    approval, status, ended := pr.approvalStatus, pr.status, pr.IsEnded();
  }

  /** An immediate second derivation fails; after a delay, a second order
      can be derived, so a requisition may hold several purchase orders. */
  method DeriveDelayDerive(pr: PurchaseRequisition, userId: string, problem: string)
    returns (first: Result<PurchaseOrder>, again: Result<PurchaseOrder>, delayed: Outcome, second: Result<PurchaseOrder>)
    requires pr.Valid() && pr.IsPurchaseOrderCreateAllowed()
    modifies pr
    ensures first.Ok? && again.Err? && delayed.Pass? && second.Ok?
    ensures pr.purchaseOrders == old(pr.purchaseOrders) + [first.value, second.value]
    ensures first.value.items == CopyItems(old(pr.items))
    ensures first.value.fromLocation == pr.vendor.defaultLocation
    ensures first.value.toLocation == pr.productionFacility.location
    ensures pr.status == Purchasing
  {
    first := pr.GeneratePurchaseOrder(userId);
    again := pr.GeneratePurchaseOrder(userId);
    delayed := pr.Delay(problem);
    second := pr.GeneratePurchaseOrder(userId);
  }
}
