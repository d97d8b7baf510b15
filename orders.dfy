/** The generic transactional order: an item ledger with cached totals, an
    append-only event log, a delivery status and a payment status.
    The source's `Order<TItem, TEvent>` is generic over its item and event
    classes; every variant shares the behaviour modelled here. */
module Orders {
  import opened Common
  import opened Ledger

  datatype OrderStatus = Processing | Delivering | Delivered | Completed | Canceled | Returned

  datatype OrderPaymentStatus = Pending | Due | Completed | Canceled

  datatype OrderEventType =
    Left | Arrived | Delivered | Interrupted | Completed | Canceled | Returned | PaymentCompleted

  /** The event type a caller asks for when recording an event by hand.
      `Unlisted` stands for every value of the selection enumeration other
      than the four that `AddManualEvent` accepts. */
  datatype OrderEventTypeSelection = Left | Arrived | Delivered | Interrupted | Unlisted(code: int)

  /** An entry of the event log. */
  datatype OrderEvent = OrderEvent(id: int, eventType: OrderEventType, location: string, message: Option<string>)

  /** A freshly built event; its `Id` keeps the default 0 until the
      database assigns one. */
  function NewEvent(t: OrderEventType, location: string, message: Option<string>): OrderEvent {
    OrderEvent(0, t, location, message)
  }

  /** The event type a manual selection stands for, or `None` for a
      selection `AddManualEvent` refuses. */
  function ManualEventType(sel: OrderEventTypeSelection): (r: Option<OrderEventType>)
    ensures r.Some? <==> !sel.Unlisted?
    ensures r.Some? ==>
      r.value.Left? == sel.Left? && r.value.Arrived? == sel.Arrived? &&
      r.value.Delivered? == sel.Delivered? && r.value.Interrupted? == sel.Interrupted?
  {
    match sel
    case Left => Some(OrderEventType.Left)
    case Arrived => Some(OrderEventType.Arrived)
    case Delivered => Some(OrderEventType.Delivered)
    case Interrupted => Some(OrderEventType.Interrupted)
    case Unlisted(_) => None
  }

  /** The position of the first event whose identifier is `id`
      (`Events.FirstOrDefault(i => i.Id == id)`), or `None`. */
  function FirstEventIndex(events: seq<OrderEvent>, id: int): (r: Option<nat>)
    ensures r.None? <==> forall k :: 0 <= k < |events| ==> events[k].id != id
    ensures r.Some? ==> r.value < |events| && events[r.value].id == id &&
                        forall k :: 0 <= k < r.value ==> events[k].id != id
    decreases |events|
  {
    if events == [] then None
    else if events[0].id == id then Some(0)
    else match FirstEventIndex(events[1..], id)
      case None => None
      case Some(k) => Some(k + 1)
  }

  /** The guard `EditEvent` puts in front of a location change, as written:
      a disjunction of three inequalities, which no event type falsifies. */
  predicate LocationEditRefused(t: OrderEventType): (r: bool)
    ensures r
  {
    t != OrderEventType.Left || t != OrderEventType.Arrived || t != OrderEventType.Interrupted
  }

  /** `Cancel` refuses an order that has been delivered or completed. */
  predicate CancelRefused(s: OrderStatus) {
    s == OrderStatus.Delivered || s == OrderStatus.Completed
  }

  class Order {
    var id: int
    var items: seq<OrderItem>
    var subTotal: real
    const vatRate: real
    var vatAmount: real
    var totalAmount: real
    var fromLocation: Option<string>
    var toLocation: string
    /** Public setters in the source: any client may assign these two. */
    var status: OrderStatus
    var paymentStatus: OrderPaymentStatus
    var events: seq<OrderEvent>
    var createUserId: string
    var finishUserId: Option<string>
    var deliverTime: Option<Time>
    var finishTime: Option<Time>

    /** The cached totals agree with the items. */
    ghost predicate TotalsConsistent()
      reads this
    {
      TotalsHold(items, vatRate, subTotal, vatAmount, totalAmount)
    }

    /** The order invariant: totals derived from the items, item identifiers
        unique, and the finish actor and finish time written together. */
    ghost predicate Valid()
      reads this
    {
      TotalsConsistent() && UniqueItemIds(items) && (finishUserId.Some? <==> finishTime.Some?)
    }

    /** A new order: `Processing`, payment `Pending`, no items, no events. */
    constructor (id: int, createUserId: string, vatRate: real, fromLocation: Option<string>, toLocation: string)
      ensures Valid()
      ensures this.id == id && this.createUserId == createUserId && this.vatRate == vatRate
      ensures this.fromLocation == fromLocation && this.toLocation == toLocation
      ensures status == OrderStatus.Processing && paymentStatus == OrderPaymentStatus.Pending
      ensures items == [] && events == [] && subTotal == 0.0 && vatAmount == 0.0 && totalAmount == 0.0
      ensures finishUserId == None && finishTime == None && deliverTime == None
    {
      this.id := id;
      this.createUserId := createUserId;
      this.vatRate := vatRate;
      this.fromLocation := fromLocation;
      this.toLocation := toLocation;
      status := OrderStatus.Processing;
      paymentStatus := OrderPaymentStatus.Pending;
      items := [];
      events := [];
      subTotal, vatAmount, totalAmount := 0.0, 0.0, 0.0;
      finishUserId, finishTime, deliverTime := None, None, None;
    }

    /** Recomputes the three cached amounts from the items. */
    method CalculateTotals()
      modifies this`subTotal, this`vatAmount, this`totalAmount
      ensures TotalsConsistent()
    {
      subTotal := SubTotalOf(items);
      vatAmount := subTotal * vatRate;
      totalAmount := subTotal + vatAmount;
    }

    /** Adds a line item unless one with the same identifier is present. */
    method AddItem(item: OrderItem) returns (r: Outcome)
      requires Valid()
      modifies this`items, this`subTotal, this`vatAmount, this`totalAmount
      ensures Valid()
      ensures r.Fail? <==> HasItemId(old(items), item.itemId)
      ensures r.Fail? ==> r.error == InvalidDomainOperation && unchanged(this)
      ensures r.Pass? ==> items == old(items) + [item] && subTotal == old(subTotal) + item.TotalPrice()
    {
      if exists k :: 0 <= k < |items| && items[k].itemId == item.itemId {
        return Fail(InvalidDomainOperation);
      }
      UniqueAfterAppend(items, item);
      SumAppend(items, item, TotalPriceOf);
      items := items + [item];
      CalculateTotals();
      r := Pass;
    }

    /** Appends one event to the log. */
    method AddEvent(t: OrderEventType, location: string, message: Option<string>)
      modifies this`events
      ensures events == old(events) + [NewEvent(t, location, message)]
    {
      events := events + [NewEvent(t, location, message)];
    }

    /** Records a departure, arrival, delivery or interruption by hand. */
    method AddManualEvent(sel: OrderEventTypeSelection, location: string, message: Option<string>) returns (r: Outcome)
      modifies this`events
      ensures r.Pass? <==> ManualEventType(sel).Some?
      ensures r.Fail? ==> r.error == InvalidArgument && events == old(events)
      ensures r.Pass? ==> events == old(events) + [NewEvent(ManualEventType(sel).value, location, message)]
    {
      var t: OrderEventType;
      match sel {
        case Left => t := OrderEventType.Left;
        case Arrived => t := OrderEventType.Arrived;
        case Delivered => t := OrderEventType.Delivered;
        case Interrupted => t := OrderEventType.Interrupted;
        case Unlisted(_) => return Fail(InvalidArgument);
      }
      AddEvent(t, location, message);
      r := Pass;
    }

    /** Edits the first event with identifier `id`. As written, a location
        change is refused for every event type, so only a call without a
        location succeeds, and it replaces the message (possibly by none). */
    method EditEvent(id: int, location: Option<string>, message: Option<string>) returns (r: Outcome)
      modifies this`events
      ensures FirstEventIndex(old(events), id).None? ==> r == Fail(EntityNotFound) && events == old(events)
      ensures FirstEventIndex(old(events), id).Some? && location.Some? ==>
                r == Fail(InvalidDomainOperation) && events == old(events)
      ensures FirstEventIndex(old(events), id).Some? && location.None? ==>
                var k := FirstEventIndex(old(events), id).value;
                r == Pass && events == old(events)[k := old(events)[k].(message := message)]
    {
      var found := FirstEventIndex(events, id);
      if found.None? {
        return Fail(EntityNotFound);
      }
      var k := found.value;
      var item := events[k];
      match location {
        case None =>
        case Some(loc) =>
          if LocationEditRefused(item.eventType) {
            return Fail(InvalidDomainOperation);
          }
          item := item.(location := loc);
      }
      events := events[k := item.(message := message)];
      r := Pass;
    }

    /** Stamps the finishing actor and time. */
    method Finish(userId: string, now: Time)
      modifies this`finishUserId, this`finishTime
      ensures finishUserId == Some(userId) && finishTime == Some(now)
    {
      finishTime := Some(now);
      finishUserId := Some(userId);
    }

    /** Completes a delivered order; payment becomes due. */
    method Complete(userId: string, now: Time) returns (r: Outcome)
      requires Valid()
      modifies this`status, this`paymentStatus, this`finishUserId, this`finishTime, this`events
      ensures Valid()
      ensures r.Pass? <==> old(status) == OrderStatus.Delivered
      ensures r.Fail? ==> r.error == InvalidDomainOperation && unchanged(this)
      ensures r.Pass? ==>
                status == OrderStatus.Completed && paymentStatus == OrderPaymentStatus.Due &&
                finishUserId == Some(userId) && finishTime == Some(now) &&
                events == old(events) + [NewEvent(OrderEventType.Completed, toLocation, None)]
    {
      if status != OrderStatus.Delivered {
        return Fail(InvalidDomainOperation);
      }
      status := OrderStatus.Completed;
      paymentStatus := OrderPaymentStatus.Due;
      Finish(userId, now);
      AddEvent(OrderEventType.Completed, toLocation, None);
      r := Pass;
    }

    /** Ends the delivery of an order in transit; payment becomes due. No
        event is recorded. */
    method FinishDelivery(now: Time) returns (r: Outcome)
      requires Valid()
      modifies this`status, this`paymentStatus, this`deliverTime
      ensures Valid()
      ensures r.Pass? <==> old(status) == OrderStatus.Delivering
      ensures r.Fail? ==> r.error == InvalidDomainOperation && unchanged(this)
      ensures r.Pass? ==>
                status == OrderStatus.Delivered && paymentStatus == OrderPaymentStatus.Due &&
                deliverTime == Some(now)
    {
      if status != OrderStatus.Delivering {
        return Fail(InvalidDomainOperation);
      }
      status := OrderStatus.Delivered;
      paymentStatus := OrderPaymentStatus.Due;
      deliverTime := Some(now);
      r := Pass;
    }

    /** Cancels an order that is not delivered or completed (a canceled or
        returned order included). The new event is placed at the location
        of the last event; on an empty log that lookup throws
        `InvalidOperationException`, the same class as the status guard,
        after the status, payment and finish fields were already written. */
    method Cancel(userId: string, now: Time) returns (r: Outcome)
      requires Valid()
      modifies this`status, this`paymentStatus, this`finishUserId, this`finishTime, this`events
      ensures Valid()
      ensures CancelRefused(old(status)) ==> r == Fail(InvalidOperation) && unchanged(this)
      ensures !CancelRefused(old(status)) ==>
                status == OrderStatus.Canceled && paymentStatus == OrderPaymentStatus.Canceled &&
                finishUserId == Some(userId) && finishTime == Some(now)
      ensures !CancelRefused(old(status)) && old(events) == [] ==> r == Fail(InvalidOperation) && events == []
      ensures !CancelRefused(old(status)) && old(events) != [] ==>
                r == Pass &&
                events == old(events) + [NewEvent(OrderEventType.Canceled, old(events)[|old(events)| - 1].location, None)]
    {
      if status == OrderStatus.Delivered || status == OrderStatus.Completed {
        return Fail(InvalidOperation);
      }
      status := OrderStatus.Canceled;
      paymentStatus := OrderPaymentStatus.Canceled;
      Finish(userId, now);
      if events == [] {
        return Fail(InvalidOperation);
      }
      var lastEvent := events[|events| - 1];
      AddEvent(OrderEventType.Canceled, lastEvent.location, None);
      r := Pass;
    }

    /** Returns a delivered order; payment is canceled. */
    method Return(userId: string, now: Time) returns (r: Outcome)
      requires Valid()
      modifies this`status, this`paymentStatus, this`finishUserId, this`finishTime, this`events
      ensures Valid()
      ensures r.Pass? <==> old(status) == OrderStatus.Delivered
      ensures r.Fail? ==> r.error == InvalidOperation && unchanged(this)
      ensures r.Pass? ==>
                status == OrderStatus.Returned && paymentStatus == OrderPaymentStatus.Canceled &&
                finishUserId == Some(userId) && finishTime == Some(now) &&
                events == old(events) + [NewEvent(OrderEventType.Returned, toLocation, None)]
    {
      if status != OrderStatus.Delivered {
        return Fail(InvalidOperation);
      }
      status := OrderStatus.Returned;
      paymentStatus := OrderPaymentStatus.Canceled;
      Finish(userId, now);
      AddEvent(OrderEventType.Returned, toLocation, None);
      r := Pass;
    }

    /** Settles a due payment. */
    method CompletePayment() returns (r: Outcome)
      requires Valid()
      modifies this`paymentStatus, this`events
      ensures Valid()
      ensures r.Pass? <==> old(paymentStatus) == OrderPaymentStatus.Due
      ensures r.Fail? ==> r.error == InvalidDomainOperation && unchanged(this)
      ensures r.Pass? ==>
                paymentStatus == OrderPaymentStatus.Completed &&
                events == old(events) + [NewEvent(OrderEventType.PaymentCompleted, toLocation, None)]
    {
      if paymentStatus != OrderPaymentStatus.Due {
        return Fail(InvalidDomainOperation);
      }
      paymentStatus := OrderPaymentStatus.Completed;
      AddEvent(OrderEventType.PaymentCompleted, toLocation, None);
      r := Pass;
    }
  }
}
