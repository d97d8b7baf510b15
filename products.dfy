/** Cost and profit of a product for sale, computed from the cost items of
    the supplies used to produce it and a miscellaneous cost. */
module Products {
  import opened Common

  /** A supply cost item; only its total cost enters the product's cost. */
  datatype ProductionSupplyCostItem = ProductionSupplyCostItem(totalCost: real)

  datatype Product = Product(price: real, miscCost: real, supplyCostItems: seq<ProductionSupplyCostItem>)

  function TotalCostOf(i: ProductionSupplyCostItem): real {
    i.totalCost
  }

  /** The sum of the cost items' totals. */
  function SupplyItemsCost(items: seq<ProductionSupplyCostItem>): real {
    Sum(items, TotalCostOf)
  }

  /** `SupplyCost`: the cost items' totals plus the miscellaneous cost. */
  function SupplyCost(p: Product): real {
    SupplyItemsCost(p.supplyCostItems) + p.miscCost
  }

  /** `Cost`: the supply cost plus the miscellaneous cost. */
  function Cost(p: Product): real {
    SupplyCost(p) + p.miscCost
  }

  /** `Profit`: the price less the cost. */
  function Profit(p: Product): real {
    p.price - Cost(p)
  }

  /** Put together, the three formulas count the miscellaneous cost twice. */
  lemma CostCountsMiscTwice(p: Product)
    ensures Cost(p) == SupplyItemsCost(p.supplyCostItems) + 2.0 * p.miscCost
    ensures Profit(p) == p.price - SupplyItemsCost(p.supplyCostItems) - 2.0 * p.miscCost
  {
  }

  /** Without cost items, the supply cost is the miscellaneous cost alone. */
  lemma NoCostItems(p: Product)
    requires p.supplyCostItems == []
    ensures SupplyCost(p) == p.miscCost
    ensures Cost(p) == 2.0 * p.miscCost
    ensures Profit(p) == p.price - 2.0 * p.miscCost
  {
  }

  /** One more cost item raises the cost, and lowers the profit, by exactly
      its total cost. */
  lemma AddCostItem(p: Product, x: ProductionSupplyCostItem)
    ensures Cost(p.(supplyCostItems := p.supplyCostItems + [x])) == Cost(p) + x.totalCost
    ensures Profit(p.(supplyCostItems := p.supplyCostItems + [x])) == Profit(p) - x.totalCost
  {
    SumAppend(p.supplyCostItems, x, TotalCostOf);
  }

  /** The cost of two batches of cost items is additive in the batches. */
  lemma CostOfSplitItems(p: Product, a: seq<ProductionSupplyCostItem>, b: seq<ProductionSupplyCostItem>)
    requires p.supplyCostItems == a + b
    ensures Cost(p) == SupplyItemsCost(a) + SupplyItemsCost(b) + 2.0 * p.miscCost
  {
    SumConcat(a, b, TotalCostOf);
  }

  /** With no negative cost item, the cost is at least twice the
      miscellaneous cost, so the profit is at most the price less that. */
  lemma ProfitBound(p: Product)
    requires forall k :: 0 <= k < |p.supplyCostItems| ==> p.supplyCostItems[k].totalCost >= 0.0
    ensures Cost(p) >= 2.0 * p.miscCost
    ensures Profit(p) <= p.price - 2.0 * p.miscCost
  {
    SumNonNegative(p.supplyCostItems, TotalCostOf);
  }
}
