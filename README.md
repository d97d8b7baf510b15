# Order and requisition domain model of a supply-chain backend

This Dafny project models the entity classes that enforce the business rules of a
supply-chain management backend. The rest of that backend (controllers, data-transfer
objects, database mapping, identity) only moves data in and out of these classes.

- **Orders** (`orders.dfy`) covers the generic transactional order. It has an item
  ledger with cached `SubTotal`/`VatAmount`/`TotalAmount`, which refuses duplicate item
  identifiers. It has an append-only event log with manual events and event editing. It
  has a delivery status (`Processing`, `Delivering`, `Delivered`, `Completed`, `Canceled`,
  `Returned`) and a payment status (`Pending`, `Due`, `Completed`, `Canceled`), linked by
  `FinishDelivery`, `Complete`, `Cancel`, `Return` and `CompletePayment`. The class is
  `Orders.Order`. Its fields are `seq` values that the methods reassign, and every method
  states its whole new state.
- **Requisitions** (`requisitions.dfy`) covers the purchase requisition. It has a
  dual-approval gate with a finance slot and a production-manager slot. Rejection
  cascades into cancellation. A purchasing status (`Processing`, `Purchasing`, then
  `Delayed`, `Completed` or `Canceled`) tracks the derived orders. Purchase orders are
  derived with their line items copied by value. The lifecycle base class is modelled by
  the fields it writes: an end time (`IsEnded` holds exactly when it is set), the ending
  user and a problem text.
- **Products** (`products.dfy`) covers product cost arithmetic: `SupplyCost`, `Cost` and
  `Profit`.
- **Ledger** (`ledger.dfy`) and **Common** (`common.dfy`) hold the shared pieces: line
  items, the totals equations, the duplicate-identifier check, the exception kinds and
  `Sum`.
- **Scenarios** (`scenarios.dfy`) holds call sequences proved from the method contracts
  alone. Examples are two payment completions in a row, cancelling twice, approving in
  either order, and deriving again after a delay.

## How the model is built

- **Exceptions.** A thrown exception is a returned `Outcome.Fail(kind)` or `Result.Err(kind)`.
  `DomainError` tells apart the exception classes the source throws:
  - `InvalidDomainOperation`: the domain exception;
  - `InvalidOperation`: `InvalidOperationException`, thrown by the order's own `Cancel` and `Return` guards,
    and also by `Last()` on an empty list;
  - `InvalidArgument`: `ArgumentException`;
  - `EntityNotFound`: the not-found exception;
- **Partial writes.** Where the source writes fields before a later step throws, the
  contract states those writes:
  - `Cancel` on an empty event log;
  - an approver slot written before `Approve` refuses;
  - `Reject` setting `Rejected` before `Cancel` refuses.
- **Numbers.** Decimals, the `double` VAT rate and the `double` quantity are exact `real`s.
  An item's `TotalPrice` is `UnitPrice × Quantity`.
- **Time.** Clock readings are a `now: Time` parameter of the method that stamps them.
- **Public setters.** `Status` and `PaymentStatus` of an order, and `VatRate` of a
  requisition, have public setters in the source. Here they are public fields that any
  client may assign. For that reason neither class invariant constrains them.
- **Event ids.** A new event keeps `Id = 0` until the database assigns one. `EditEvent`
  edits the first event with the given identifier.
- **Literal behaviour.** The model keeps these behaviours of the source as written:
  - The location guard of `EditEvent` (Order.cs:94-96) is a disjunction of three
    inequalities. No event type is equal to all three, so the guard is always true
    (`Orders.LocationEditRefused`). As a result, every edit that supplies a location
    throws, and only message edits succeed.
  - `Cancel` refuses only `Delivered` and `Completed`. A `Canceled` or `Returned` order
    can be canceled again, and this overwrites `FinishUserId` and `FinishTime`
    (`Scenarios.CancelTwice`). So finish metadata is not written only once.
  - A new order has an empty event log. Cancelling it throws `InvalidOperationException`,
    because `Events.Last()` has nothing to return. A caller sees the same exception class
    as for the status guard. By then the order is already canceled and
    finished (`Scenarios.CancelNewOrder`).
  - `Complete` sets the payment status to `Due` even when it was `Completed`. A paid,
    delivered order can therefore be completed and then paid a second time
    (`Scenarios.PaymentCompletedTwiceAroundComplete`).
  - `Approve` does not check whether the requisition has ended, unlike
    `IsApprovalAllowed`. A canceled requisition can still be approved by both
    approvers (`Scenarios.ApproveEndedRequisition`).
  - `Cost` adds `MiscCost` to `SupplyCost`, which already contains it, so `MiscCost`
    counts twice (`Products.CostCountsMiscTwice`).
  - A `Delay` reopens derivation. A requisition can therefore hold several purchase
    orders (`Scenarios.DeriveDelayDerive`).

## Model

| member | source | states |
|---|---|---|
| Orders.Order.constructor | ScmssApiServer/Models/Order.cs:12-42 | a new order is `Processing` with payment `Pending`, has no items or events, all three totals are zero, and no finish or delivery stamps are set |
| Orders.Order.CalculateTotals | ScmssApiServer/Models/Order.cs:174-179 | afterwards `SubTotal` is the sum of the items' line totals, `VatAmount = SubTotal × VatRate` and `TotalAmount = SubTotal + VatAmount` |
| Orders.Order.AddItem | ScmssApiServer/Models/Order.cs:44-55 | fails exactly when an item with the same `ItemId` is present, and then changes nothing; otherwise appends exactly that item, raises the subtotal by its line total, and keeps the totals equations and the unique identifiers |
| Orders.Order.AddEvent | ScmssApiServer/Models/Order.cs:181-190 | appends exactly one event with the given type, location and message |
| Orders.ManualEventType | ScmssApiServer/Models/Order.cs:59-80 | accepts exactly `Left`, `Arrived`, `Delivered` and `Interrupted`, each mapped to the event type of the same name; refuses every other selection |
| Orders.Order.AddManualEvent | ScmssApiServer/Models/Order.cs:57-82 | for an accepted selection, appends one event of the mapped type with the given location and message; otherwise throws `ArgumentException` and appends nothing |
| Orders.FirstEventIndex | ScmssApiServer/Models/Order.cs:86 | returns the position of the first event with the identifier, with no earlier event carrying it; returns `None` exactly when no event carries it |
| Orders.LocationEditRefused | ScmssApiServer/Models/Order.cs:94-96 | the location guard, as written, holds for every event type |
| Orders.Order.EditEvent | ScmssApiServer/Models/Order.cs:84-103 | an unknown identifier gives not-found; any supplied location throws; with no location, only the found event's message is replaced (possibly by none), and its position, type and location stay the same |
| Orders.Order.Finish | ScmssApiServer/Models/Order.cs:192-196 | stamps the finishing user and the finish time |
| Orders.Order.Complete | ScmssApiServer/Models/Order.cs:105-117 | succeeds exactly from `Delivered`, and otherwise changes nothing; on success sets `Completed`, payment `Due`, the finish user and time, and appends one `Completed` event at `ToLocation` |
| Orders.Order.FinishDelivery | ScmssApiServer/Models/Order.cs:119-130 | succeeds exactly from `Delivering`, and otherwise changes nothing; on success sets `Delivered`, payment `Due` and the deliver time, and records no event |
| Orders.Order.Cancel | ScmssApiServer/Models/Order.cs:132-146 | throws `InvalidOperationException` from `Delivered` or `Completed` and then changes nothing; from any other status it sets status and payment to `Canceled` and stamps the finish user and time; it then either appends one `Canceled` event at the previous last event's location, or, on an empty log, throws `InvalidOperationException` with those fields already written |
| Orders.Order.Return | ScmssApiServer/Models/Order.cs:148-160 | succeeds exactly from `Delivered`, and otherwise changes nothing; on success sets `Returned`, payment `Canceled`, the finish user and time, and appends one `Returned` event at `ToLocation` |
| Orders.Order.CompletePayment | ScmssApiServer/Models/Order.cs:162-172 | succeeds exactly when payment is `Due`, and otherwise changes nothing; on success sets payment `Completed` and appends one `PaymentCompleted` event at `ToLocation` |
| Ledger.UniqueAfterAppend | ScmssApiServer/Models/Order.cs:46-53 | appending to an item list with unique identifiers keeps them unique exactly when the new identifier is absent |
| Common.SumAppend | ScmssApiServer/Models/Order.cs:176 | adding one item raises the sum by exactly that item's term |
| Common.SumConcat | ScmssApiServer/Models/Product.cs:46 | the sum over two concatenated lists is the sum of the two sums |
| Common.SumNonNegative | ScmssApiServer/Models/Product.cs:46 | a sum of non-negative terms is non-negative |
| Ledger.IdCountPositive | ScmssApiServer/Models/PurchaseRequisition.cs:57 | an identifier's group is non-empty exactly when some item carries the identifier |
| Ledger.IdCountRepeated | ScmssApiServer/Models/PurchaseRequisition.cs:57 | an identifier's group has more than one member exactly when two distinct positions carry the identifier |
| Ledger.DuplicateGroupsIffRepeated | ScmssApiServer/Models/PurchaseRequisition.cs:57-61 | the group count of `AddItems` is positive exactly when the input repeats an identifier |
| Requisitions.PurchaseRequisition.constructor | ScmssApiServer/Models/PurchaseRequisition.cs:12-46 | a new requisition is pending approval and `Processing`, has no approvers, items or purchase orders, and has not ended |
| Requisitions.PurchaseRequisition.CalculateTotals | ScmssApiServer/Models/PurchaseRequisition.cs:202-207 | afterwards the three totals satisfy the totals equations over the items |
| Requisitions.PurchaseRequisition.AddItems | ScmssApiServer/Models/PurchaseRequisition.cs:48-65 | fails exactly when the requisition is not open for updates (it has ended, or is no longer pending approval), or when the input repeats an identifier, and then changes nothing; otherwise replaces the items wholesale and re-establishes the totals equations |
| Requisitions.PurchaseRequisition.Approve | ScmssApiServer/Models/PurchaseRequisition.cs:187-200 | fails exactly when not pending approval, and then changes nothing; otherwise becomes `Approved` exactly when both slots are filled |
| Requisitions.PurchaseRequisition.ApproveAsFinance | ScmssApiServer/Models/PurchaseRequisition.cs:67-72 | the finance slot holds the user afterwards, even on failure; fails exactly when not pending approval; on success the result is `Approved` exactly when the manager slot is filled |
| Requisitions.PurchaseRequisition.ApproveAsProductionManager | ScmssApiServer/Models/PurchaseRequisition.cs:74-79 | the manager slot holds the user afterwards, even on failure; fails exactly when not pending approval; on success the result is `Approved` exactly when the finance slot is filled |
| Requisitions.PurchaseRequisition.Begin | ScmssApiServer/Models/PurchaseRequisition.cs:81-86 | leaves `Processing` and `PendingApproval`, with the creator recorded |
| Requisitions.PurchaseRequisition.End | ScmssApiServer/Models/ILifecycle.cs:19 | stamps the end time and the ending user, so that `IsEnded` holds |
| Requisitions.PurchaseRequisition.EndWithProblem | ScmssApiServer/Models/PurchaseRequisition.cs:97 | ends the requisition and records the problem text |
| Requisitions.PurchaseRequisition.Cancel | ScmssApiServer/Models/PurchaseRequisition.cs:88-98 | fails exactly when the requisition has ended, and then changes nothing; otherwise sets `Canceled`, ends it and records the problem |
| Requisitions.PurchaseRequisition.Complete | ScmssApiServer/Models/PurchaseRequisition.cs:100-110 | succeeds exactly from `Purchasing`, and otherwise changes nothing; on success sets `Completed` and ends the requisition |
| Requisitions.PurchaseRequisition.Delay | ScmssApiServer/Models/PurchaseRequisition.cs:112-122 | succeeds exactly from `Purchasing`, and otherwise changes nothing; on success sets `Delayed` and the problem text, and leaves approval and the end state alone |
| Requisitions.CopyItems | ScmssApiServer/Models/PurchaseRequisition.cs:160-166 | the order lines copy `ItemId`, `Quantity`, `Unit` and `UnitPrice` of the requisition lines, position by position |
| Requisitions.CopyItemsKeepsLedger | ScmssApiServer/Models/PurchaseRequisition.cs:160-167 | with both line kinds sharing one datatype, the copy is the identity on lines; so the copied lines have the requisition's subtotal, and repeat an identifier exactly when the requisition's lines do |
| Requisitions.PurchaseRequisition.GeneratePurchaseOrder | ScmssApiServer/Models/PurchaseRequisition.cs:124-173 | fails exactly when `IsPurchaseOrderCreateAllowed` is false (not approved, ended, or purchasing), and then changes nothing; otherwise appends exactly one order and sets `Purchasing`; the order links to the requisition, vendor and facility, and has `CreateUserId = userId`, from = vendor default location, to = facility location, and the copied lines |
| Requisitions.PurchaseRequisition.Reject | ScmssApiServer/Models/PurchaseRequisition.cs:175-185 | fails from anything but `PendingApproval`, and then changes nothing; from pending on an open requisition it sets `Rejected`, `Canceled` and ends the requisition; on an ended one it throws after setting `Rejected` |
| Products.CostCountsMiscTwice | ScmssApiServer/Models/Product.cs:19-46 | `Cost = Σ TotalCost + 2·MiscCost` and `Profit = Price − Σ TotalCost − 2·MiscCost` |
| Products.NoCostItems | ScmssApiServer/Models/Product.cs:19-46 | with no cost items, `SupplyCost = MiscCost`, `Cost = 2·MiscCost` and `Profit = Price − 2·MiscCost` |
| Products.AddCostItem | ScmssApiServer/Models/Product.cs:46 | one more cost item raises `Cost`, and lowers `Profit`, by exactly its total cost |
| Products.CostOfSplitItems | ScmssApiServer/Models/Product.cs:46 | the cost is additive over a split of the cost items |
| Products.ProfitBound | ScmssApiServer/Models/Product.cs:19-46 | with no negative cost item, `Cost ≥ 2·MiscCost` and `Profit ≤ Price − 2·MiscCost` |
| Scenarios.DeliverAndCompleteExample | ScmssApiServer/Models/Order.cs:105-179 | at 10% VAT, one line of 2 × 100 gives 200 / 20 / 220; delivery then `Complete("user1")` gives `Completed`, payment `Due` and finisher "user1" |
| Scenarios.DuplicateItemRefused | ScmssApiServer/Models/Order.cs:44-55 | adding the same item twice always fails the second time |
| Scenarios.CompletePaymentTwice | ScmssApiServer/Models/Order.cs:162-172 | the first call succeeds exactly when payment is due, and a second consecutive call always fails |
| Scenarios.CompletedOrderIsFinal | ScmssApiServer/Models/Order.cs:105-160 | a completed order refuses `Complete`, `Cancel` and `Return`, and its finish stamps and log stay as they were |
| Scenarios.PaymentCompletedTwiceAroundComplete | ScmssApiServer/Models/Order.cs:105-117 | a delivered, due order can be paid, completed and paid again, leaving two payment events |
| Scenarios.CancelTwice | ScmssApiServer/Models/Order.cs:132-146 | a second `Cancel` succeeds and overwrites the finish user and time |
| Scenarios.CancelNewOrder | ScmssApiServer/Models/Order.cs:140-145 | cancelling a new order throws `InvalidOperationException`, yet leaves it canceled and finished with no event |
| Scenarios.EditRecordedEvent | ScmssApiServer/Models/Order.cs:84-103 | editing shows all three paths: not-found, refusal of a location change, and a message-only edit |
| Scenarios.ApprovalInEitherOrder | ScmssApiServer/Models/PurchaseRequisition.cs:67-79 | one approval leaves the requisition pending; finance then manager, and manager then finance, both end `Approved` |
| Scenarios.ApproveAfterDecision | ScmssApiServer/Models/PurchaseRequisition.cs:67-72 | approving a decided requisition fails, but the slot is overwritten |
| Scenarios.ApproveEndedRequisition | ScmssApiServer/Models/PurchaseRequisition.cs:18-20 | a canceled, still pending requisition does not allow approval (`IsApprovalAllowed` is false), yet `ApproveAsFinance` and `ApproveAsProductionManager` both succeed and leave it `Approved` while ended |
| Scenarios.RejectCancels | ScmssApiServer/Models/PurchaseRequisition.cs:175-185 | rejecting a new requisition leaves it `Rejected`, `Canceled` and ended |
| Scenarios.DeriveDelayDerive | ScmssApiServer/Models/PurchaseRequisition.cs:112-145 | an immediate second derivation fails; after `Delay` a second order is derived, so `PurchaseOrders` holds two |

The requisition invariant `Valid()` is kept by every requisition method except the
base-class steps `End` and `EndWithProblem`. Those two may end a `Purchasing`
requisition, so they neither require nor ensure it; only `Cancel` and `Complete` call
them, after leaving `Purchasing`. `Cancel` needs only the weaker `Consistent()`, which
is `Valid()` without "a rejected requisition has ended", and keeps `Valid()` whenever
it held before. `Valid()` says:
- approval needs both approvers, and so does every derived purchase order;
- a `Purchasing` requisition has an order and has not ended;
- a rejected, canceled or completed requisition has ended;
- the end time and the ending user are set together;
- no item list repeats an identifier, including the lists of derived orders.

The order invariant `Valid()` is kept by every order method. It says:
- the totals equations hold;
- item identifiers are unique;
- the finish user and the finish time are set together.

## Left out

- `StartDelivery` does not exist in the order class. The move to `Delivering` exists only
  as the public `Status` setter. Here that setter is a client assigning `status`.
- The type parameters of `Order<TItem, TEvent>` are collapsed into one concrete item
  type and one concrete event type. Navigation properties (`CreateUser`, `FinishUser`,
  the requisition's `Vendor`/`ProductionFacility` objects and approver `User` objects)
  are kept by value or by identifier. On a requisition, an approver's identifier and user
  object are one slot.
- `CreateTime`, `UpdateTime`, `InvoiceUrl` and `ReceiptUrl` are database-generated or
  file-host fields that no core method touches.
- The lifecycle base class of the requisition is not part of this model:
  - `Begin` is modelled as recording the creator only;
  - `End` and `EndWithProblem` stamp the end time and user, plus the problem text;
  - whatever else that class checks or writes is not modelled.
- The purchase order's own `AddItems` and its totals are not part of this model. A
  derived order is a value carrying its copied lines. Its order behaviour is the
  `Orders.Order` class.
- `ProductionSupplyCostItem.TotalCost` is not part of this model. It is taken as a given
  value per cost item.
- The `OrderItem` class is not part of this model. `TotalPrice = UnitPrice × Quantity`
  is assumed for it.
- The decimal casts of the `double` VAT rate and quantity are exact. Floating-point and
  decimal rounding are not modelled.
- Overflow is not modelled. In the source, `decimal` arithmetic in `CalculateTotals`
  (Order.cs:176-178, PurchaseRequisition.cs:204-206) and the `(decimal)VatRate` cast throw
  `OverflowException` on values out of the `decimal` range. Here amounts are unbounded
  reals, so totals recomputation never fails.
- `AddItems` keeps the caller's collection by reference (`Items = items`). Later changes
  the caller makes to that collection reach the requisition without the duplicate check
  or `CalculateTotals`. Here the requisition stores a copy of the list value, so that
  aliasing is not captured.
- The order's `Items` is a public, mutable list. Code other than `AddItem` can add
  duplicate identifiers to it or leave the totals stale. Here `items` changes only through
  `AddItem`, and every order method requires the invariant `Valid()` (unique identifiers,
  totals equations), which such outside changes could break.
- `IsCreated` (`Id != 0`) only reports whether the database has assigned an identifier,
  and no modelled method reads it; it is not modelled.
- Persistence, the sales-order service, controllers, DTOs, identity and the database
  schema (its unique index and composite keys included) are outside the modelled core.
- The "at most one outstanding purchase order" rule holds only as the `Purchasing`
  status check. Derived orders evolve independently and are not tracked back.
