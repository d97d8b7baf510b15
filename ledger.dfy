/** Line items and the totals derived from them, shared by every order
    variant and by the purchase requisition. */
module Ledger {
  import opened Common

  /** A line item: the goods it refers to, the unit it is counted in, its
      unit price and quantity. Decimals and the source's `double` quantity
      are exact reals here. */
  datatype OrderItem = OrderItem(itemId: int, unit: string, unitPrice: real, quantity: real)
  {
    /** The line total: unit price times quantity. */
    function TotalPrice(): real {
      unitPrice * quantity
    }
  }

  function TotalPriceOf(i: OrderItem): real {
    i.TotalPrice()
  }

  /** `Items.Sum(i => i.TotalPrice)`. */
  function SubTotalOf(items: seq<OrderItem>): real {
    Sum(items, TotalPriceOf)
  }

  /** The three derived amounts agree with the item list and the VAT rate:
      the state `CalculateTotals` establishes. */
  predicate TotalsHold(items: seq<OrderItem>, vatRate: real, subTotal: real, vatAmount: real, totalAmount: real) {
    subTotal == SubTotalOf(items) && vatAmount == subTotal * vatRate && totalAmount == subTotal + vatAmount
  }

  /** Some item of `items` carries the identifier `id`. */
  predicate HasItemId(items: seq<OrderItem>, id: int) {
    exists k :: 0 <= k < |items| && items[k].itemId == id
  }

  /** No two items of `items` carry the same identifier. */
  predicate UniqueItemIds(items: seq<OrderItem>) {
    forall i, j :: 0 <= i < j < |items| ==> items[i].itemId != items[j].itemId
  }

  /** Appending to a list without repeated identifiers keeps it so exactly
      when the new identifier is not already present. */
  lemma UniqueAfterAppend(items: seq<OrderItem>, x: OrderItem)
    requires UniqueItemIds(items)
    ensures UniqueItemIds(items + [x]) <==> !HasItemId(items, x.itemId)
  {
    var s := items + [x];
    if HasItemId(items, x.itemId) {
      var k :| 0 <= k < |items| && items[k].itemId == x.itemId;
      assert s[k].itemId == s[|items|].itemId;
    }
  }

  /** How many items carry the identifier `id`: the size of the group that
      `GroupBy(x => x.ItemId)` forms for `id`. */
  function IdCount(items: seq<OrderItem>, id: int): nat
    decreases |items|
  {
    if items == [] then 0
    else (if items[0].itemId == id then 1 else 0) + IdCount(items[1..], id)
  }

  /** The keys of the groups with more than one member. */
  function DuplicatedIds(items: seq<OrderItem>): set<int> {
    set k | 0 <= k < |items| && IdCount(items, items[k].itemId) > 1 :: items[k].itemId
  }

  /** `items.GroupBy(x => x.ItemId).Count(g => g.Count() > 1)`. */
  function DuplicateGroupCount(items: seq<OrderItem>): nat {
    |DuplicatedIds(items)|
  }

  /** A group is non-empty exactly when some item carries its key. */
  lemma {:induction false} IdCountPositive(items: seq<OrderItem>, id: int)
    ensures IdCount(items, id) > 0 <==> HasItemId(items, id)
    decreases |items|
  {
    if items != [] {
      IdCountPositive(items[1..], id);
      if HasItemId(items[1..], id) {
        var k :| 0 <= k < |items[1..]| && items[1..][k].itemId == id;
        assert items[k + 1].itemId == id;
      }
      if HasItemId(items, id) && items[0].itemId != id {
        var k :| 0 <= k < |items| && items[k].itemId == id;
        assert items[1..][k - 1].itemId == id;
      }
    }
  }

  /** A group has more than one member exactly when two distinct positions
      carry its key. */
  lemma {:induction false} IdCountRepeated(items: seq<OrderItem>, id: int)
    ensures IdCount(items, id) > 1 <==>
            exists i, j :: 0 <= i < j < |items| && items[i].itemId == id && items[j].itemId == id
    decreases |items|
  {
    if items != [] {
      var t := items[1..];
      IdCountRepeated(t, id);
      IdCountPositive(t, id);
      if IdCount(items, id) > 1 {
        if items[0].itemId == id {
          var k :| 0 <= k < |t| && t[k].itemId == id;
          assert items[0].itemId == id && items[k + 1].itemId == id;
        } else {
          var i, j :| 0 <= i < j < |t| && t[i].itemId == id && t[j].itemId == id;
          assert items[i + 1].itemId == id && items[j + 1].itemId == id;
        }
      }
      if exists i, j :: 0 <= i < j < |items| && items[i].itemId == id && items[j].itemId == id {
        var i, j :| 0 <= i < j < |items| && items[i].itemId == id && items[j].itemId == id;
        if i == 0 {
          assert t[j - 1].itemId == id;
        } else {
          assert t[i - 1].itemId == id && t[j - 1].itemId == id;
        }
      }
    }
  }

  /** The duplicate check of `AddItems` fires exactly when the input repeats
      an identifier. */
  lemma DuplicateGroupsIffRepeated(items: seq<OrderItem>)
    ensures DuplicateGroupCount(items) > 0 <==> !UniqueItemIds(items)
  {
    if !UniqueItemIds(items) {
      var i, j :| 0 <= i < j < |items| && items[i].itemId == items[j].itemId;
      IdCountRepeated(items, items[i].itemId);
      assert items[i].itemId in DuplicatedIds(items);
    }
    if DuplicateGroupCount(items) > 0 {
      var id :| id in DuplicatedIds(items);
      var k :| 0 <= k < |items| && IdCount(items, items[k].itemId) > 1 && items[k].itemId == id;
      IdCountRepeated(items, id);
    }
  }
}
