/** The figures of the dashboard page (`dashboard` in app.py), over the
    product rows and the purchase rows as the queries return them. */
module Dashboard {
  import opened Catalog
  import opened Checkout

  /** The products with quantity > 0, in row order. */
  function InStock(rows: seq<Product>): (r: seq<Product>)
    ensures |r| <= |rows|
    ensures forall p :: p in r <==> p in rows && p.quantity > 0
  {
    if |rows| == 0 then []
    else if rows[0].quantity > 0 then [rows[0]] + InStock(rows[1..])
    else InStock(rows[1..])
  }

  /** The products with 0 < quantity <= 5, in row order. */
  function LowStock(rows: seq<Product>): (r: seq<Product>)
    ensures |r| <= |InStock(rows)|
    ensures forall p :: p in r <==> p in rows && 0 < p.quantity <= 5
  {
    if |rows| == 0 then []
    else if 0 < rows[0].quantity <= 5 then [rows[0]] + LowStock(rows[1..])
    else LowStock(rows[1..])
  }

  function QuantitySum(rows: seq<Product>): int {
    if |rows| == 0 then 0 else rows[0].quantity + QuantitySum(rows[1..])
  }

  function RevenueSum(rows: seq<Product>): real {
    if |rows| == 0 then 0.0 else rows[0].sellPrice * rows[0].quantity as real + RevenueSum(rows[1..])
  }

  function ProfitSum(rows: seq<Product>): real {
    if |rows| == 0 then 0.0 else rows[0].profit * rows[0].quantity as real + ProfitSum(rows[1..])
  }

  /** What the stock cost, in riyals; not shown on the page, it is the
      reference the profit figure is checked against. */
  function CostSum(rows: seq<Product>): real {
    if |rows| == 0 then 0.0 else rows[0].buyPriceSar * rows[0].quantity as real + CostSum(rows[1..])
  }

  /** `total_quantity`: at least one unit per product in stock, so it is
      zero only when nothing is in stock. */
  function TotalQuantity(rows: seq<Product>): (r: int)
    ensures r >= |InStock(rows)|
  {
    InStockQuantity(InStock(rows));
    QuantitySum(InStock(rows))
  }

  lemma {:induction false} InStockQuantity(rows: seq<Product>)
    requires forall i :: 0 <= i < |rows| ==> rows[i].quantity > 0
    ensures QuantitySum(rows) >= |rows|
    decreases |rows|
  {
    if |rows| > 0 {
      InStockQuantity(rows[1..]);
    }
  }

  /** `total_revenue_potential`. */
  function RevenuePotential(rows: seq<Product>): real {
    RevenueSum(InStock(rows))
  }

  /** `total_profits`. */
  function ProfitPotential(rows: seq<Product>): real {
    ProfitSum(InStock(rows))
  }

  /** `total_sales`: the amounts paid, summed over every purchase. */
  function TotalSales(purchases: seq<Purchase>): real {
    if |purchases| == 0 then 0.0 else purchases[0].finalAmount + TotalSales(purchases[1..])
  }

  function GrossSales(purchases: seq<Purchase>): real {
    if |purchases| == 0 then 0.0 else purchases[0].totalPrice + GrossSales(purchases[1..])
  }

  function Discounts(purchases: seq<Purchase>): real {
    if |purchases| == 0 then 0.0 else purchases[0].discount + Discounts(purchases[1..])
  }

  /** The figures the page shows (the top-five chart is left out). */
  datatype Summary = Summary(
    totalProducts: int,
    totalQuantity: int,
    revenuePotential: real,
    profitPotential: real,
    lowStock: seq<Product>,
    totalSales: real)

  function Compute(rows: seq<Product>, purchases: seq<Purchase>): (r: Summary)
    ensures 0 <= r.totalProducts <= r.totalQuantity
    ensures r.totalProducts <= |rows|
    ensures |r.lowStock| <= r.totalProducts
  {
    Summary(
      |InStock(rows)|,
      TotalQuantity(rows),
      RevenuePotential(rows),
      ProfitPotential(rows),
      LowStock(rows),
      TotalSales(purchases))
  }

  /** With no product rows every product figure is zero, and total
      sales are the ledger's alone; with no purchases they are zero too. */
  lemma EmptyDashboard(purchases: seq<Purchase>)
    ensures Compute([], purchases) == Summary(0, 0, 0.0, 0.0, [], TotalSales(purchases))
    ensures Compute([], []) == Summary(0, 0, 0.0, 0.0, [], 0.0)
  {
  }

  /** The filters keep row order: filtering a join is joining the
      filtered parts. */
  lemma {:induction false} FiltersConcat(a: seq<Product>, b: seq<Product>)
    ensures InStock(a + b) == InStock(a) + InStock(b)
    ensures LowStock(a + b) == LowStock(a) + LowStock(b)
    decreases |a|
  {
    if |a| == 0 {
      assert a + b == b;
    } else {
      assert (a + b)[1..] == a[1..] + b;
      FiltersConcat(a[1..], b);
    }
  }

  /** Appending a row appends it to each list it qualifies for. With
      InStock([]) == [] and LowStock([]) == [] this fixes both lists,
      order and repeated rows included. */
  lemma FiltersSnoc(rows: seq<Product>, p: Product)
    ensures InStock(rows + [p]) == InStock(rows) + (if p.quantity > 0 then [p] else [])
    ensures LowStock(rows + [p]) == LowStock(rows) + (if 0 < p.quantity <= 5 then [p] else [])
  {
    FiltersConcat(rows, [p]);
    assert [p][1..] == [];
  }

  lemma {:induction false} SumsConcat(a: seq<Product>, b: seq<Product>)
    ensures QuantitySum(a + b) == QuantitySum(a) + QuantitySum(b)
    ensures RevenueSum(a + b) == RevenueSum(a) + RevenueSum(b)
    ensures ProfitSum(a + b) == ProfitSum(a) + ProfitSum(b)
    decreases |a|
  {
    if |a| == 0 {
      assert a + b == b;
    } else {
      assert (a + b)[1..] == a[1..] + b;
      SumsConcat(a[1..], b);
    }
  }

  /** A row out of stock, wherever it stands, drops out of both lists. */
  lemma FiltersIgnoreOutOfStock(a: seq<Product>, p: Product, b: seq<Product>)
    requires p.quantity <= 0
    ensures InStock(a + [p] + b) == InStock(a + b)
    ensures LowStock(a + [p] + b) == LowStock(a + b)
  {
    FiltersConcat(a + [p], b);
    FiltersSnoc(a, p);
    FiltersConcat(a, b);
    assert InStock(a) + [] == InStock(a);
    assert LowStock(a) + [] == LowStock(a);
  }

  /** One more row raises each figure by that row's share: a product in
      stock adds one product, its quantity, its revenue and profit, and
      joins the low-stock list when it has at most 5 units; a product
      out of stock changes nothing. With EmptyDashboard this fixes every
      figure for every list of rows. */
  lemma ComputeSnoc(rows: seq<Product>, purchases: seq<Purchase>, p: Product)
    ensures var c := Compute(rows, purchases);
            var q := p.quantity as real;
            Compute(rows + [p], purchases) ==
              if p.quantity > 0 then
                Summary(
                  c.totalProducts + 1,
                  c.totalQuantity + p.quantity,
                  c.revenuePotential + p.sellPrice * q,
                  c.profitPotential + p.profit * q,
                  if p.quantity <= 5 then c.lowStock + [p] else c.lowStock,
                  c.totalSales)
              else c
  {
    FiltersSnoc(rows, p);
    if p.quantity > 0 {
      FiguresSnoc(rows, p);
    } else {
      assert InStock(rows + [p]) == InStock(rows);
      assert LowStock(rows + [p]) == LowStock(rows);
    }
  }

  lemma FiguresSnoc(rows: seq<Product>, p: Product)
    requires p.quantity > 0
    ensures |InStock(rows + [p])| == |InStock(rows)| + 1
    ensures TotalQuantity(rows + [p]) == TotalQuantity(rows) + p.quantity
    ensures RevenuePotential(rows + [p]) == RevenuePotential(rows) + p.sellPrice * p.quantity as real
    ensures ProfitPotential(rows + [p]) == ProfitPotential(rows) + p.profit * p.quantity as real
  {
    FiltersSnoc(rows, p);
    var s := InStock(rows);
    assert InStock(rows + [p]) == s + [p];
    SumsConcat(s, [p]);
    SumsSingleton(p);
  }

  lemma SumsSingleton(p: Product)
    ensures QuantitySum([p]) == p.quantity
    ensures RevenueSum([p]) == p.sellPrice * p.quantity as real
    ensures ProfitSum([p]) == p.profit * p.quantity as real
  {
    assert [p][1..] == [];
  }

  lemma {:induction false} LowStockOfInStock(rows: seq<Product>)
    ensures LowStock(InStock(rows)) == LowStock(rows)
    decreases |rows|
  {
    if |rows| > 0 {
      LowStockOfInStock(rows[1..]);
      if rows[0].quantity > 0 {
        assert ([rows[0]] + InStock(rows[1..]))[1..] == InStock(rows[1..]);
      }
    }
  }

  /** Rows out of stock do not count towards any figure: the dashboard of
      the rows in stock is the dashboard of all rows. */
  lemma OutOfStockIgnored(rows: seq<Product>, purchases: seq<Purchase>)
    ensures Compute(InStock(rows), purchases) == Compute(rows, purchases)
  {
    var s := InStock(rows);
    forall i | 0 <= i < |s| ensures s[i].quantity > 0 {
      assert s[i] in s;
    }
    InStockKeepsStocked(s);
    LowStockOfInStock(rows);
  }

  /** When every row is in stock, as the catalog invariant makes it, the
      filter keeps every row. */
  lemma {:induction false} InStockKeepsStocked(rows: seq<Product>)
    requires forall i :: 0 <= i < |rows| ==> rows[i].quantity > 0
    ensures InStock(rows) == rows
    decreases |rows|
  {
    if |rows| > 0 {
      InStockKeepsStocked(rows[1..]);
    }
  }

  lemma {:induction false} ProfitSumSplit(rows: seq<Product>)
    requires forall i :: 0 <= i < |rows| ==> Consistent(rows[i])
    ensures ProfitSum(rows) == RevenueSum(rows) - CostSum(rows)
    decreases |rows|
  {
    if |rows| > 0 {
      var p := rows[0];
      var q := p.quantity as real;
      assert p.profit * q == p.sellPrice * q - p.buyPriceSar * q by {
        assert p.profit == p.sellPrice - p.buyPriceSar;
      }
      ProfitSumSplit(rows[1..]);
    }
  }

  /** The profit figure is the revenue figure less what the stock cost,
      for consistent products. */
  lemma ProfitIsRevenueLessCost(rows: seq<Product>)
    requires forall i :: 0 <= i < |rows| ==> Consistent(rows[i])
    ensures ProfitPotential(rows) == RevenuePotential(rows) - CostSum(InStock(rows))
  {
    var s := InStock(rows);
    forall i | 0 <= i < |s| ensures Consistent(s[i]) {
      assert s[i] in s;
    }
    ProfitSumSplit(s);
  }

  /** Total sales are the totals less the discounts, over purchases whose
      amount was recorded as total less discount. */
  lemma {:induction false} SalesAreTotalsLessDiscounts(purchases: seq<Purchase>)
    requires forall i :: 0 <= i < |purchases| ==>
      purchases[i].finalAmount == purchases[i].totalPrice - purchases[i].discount
    ensures TotalSales(purchases) == GrossSales(purchases) - Discounts(purchases)
    decreases |purchases|
  {
    if |purchases| > 0 {
      SalesAreTotalsLessDiscounts(purchases[1..]);
    }
  }

  lemma {:induction false} TotalSalesConcat(a: seq<Purchase>, b: seq<Purchase>)
    ensures TotalSales(a + b) == TotalSales(a) + TotalSales(b)
    decreases |a|
  {
    if |a| == 0 {
      assert a + b == b;
    } else {
      assert (a + b)[1..] == a[1..] + b;
      TotalSalesConcat(a[1..], b);
    }
  }

  /** Recording a purchase raises total sales by its final amount. */
  lemma RecordedSale(purchases: seq<Purchase>, receipt: Purchase)
    ensures TotalSales(purchases + [receipt]) == TotalSales(purchases) + receipt.finalAmount
  {
    TotalSalesConcat(purchases, [receipt]);
    assert [receipt][1..] == [];
  }
}
