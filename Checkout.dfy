/** The checkout transaction of `purchase` in app.py, as specification
    functions: the totals, the ledger rows a checkout appends, and the
    effect of the cart on the catalog. */
module Checkout {
  import opened Wrappers
  import opened Catalog

  /** One entry of the cart the page sends as JSON. `price` is the unit
      price the client supplied; the checkout uses it as it is. */
  datatype CartEntry = CartEntry(id: int, price: real, quantity: int)

  /** A row of the purchase table (the date column is left out). */
  datatype Purchase = Purchase(
    id: int,
    customerName: string,
    totalPrice: real,
    discount: real,
    finalAmount: real)

  /** A row of the purchase item table. */
  datatype PurchaseItem = PurchaseItem(purchaseId: int, productId: int, quantity: int)

  function LineTotal(e: CartEntry): real {
    e.price * e.quantity as real
  }

  /** `total_price`: the line totals added up in cart order, from 0. */
  function TotalPrice(cart: seq<CartEntry>): real {
    if |cart| == 0 then 0.0
    else TotalPrice(cart[..|cart| - 1]) + LineTotal(cart[|cart| - 1])
  }

  /** The same sum taken from the front; a reference for TotalPrice. */
  function SumFromFront(cart: seq<CartEntry>): real {
    if |cart| == 0 then 0.0 else LineTotal(cart[0]) + SumFromFront(cart[1..])
  }

  lemma {:induction false} TotalPriceConcat(a: seq<CartEntry>, b: seq<CartEntry>)
    ensures TotalPrice(a + b) == TotalPrice(a) + TotalPrice(b)
    decreases |b|
  {
    if |b| > 0 {
      var n := |b|;
      assert (a + b)[..|a + b| - 1] == a + b[..n - 1];
      TotalPriceConcat(a, b[..n - 1]);
    } else {
      assert a + b == a;
    }
  }

  /** The total does not depend on the order the lines are added in. */
  lemma {:induction false} TotalPriceIsSumFromFront(cart: seq<CartEntry>)
    ensures TotalPrice(cart) == SumFromFront(cart)
    decreases |cart|
  {
    if |cart| > 0 {
      assert cart == [cart[0]] + cart[1..];
      TotalPriceConcat([cart[0]], cart[1..]);
      TotalPriceIsSumFromFront(cart[1..]);
      assert TotalPrice([cart[0]]) == LineTotal(cart[0]) by {
        assert [cart[0]][..0] == [];
      }
    }
  }

  /** With prices and quantities that are not negative the total is not
      negative either. */
  lemma {:induction false} TotalPriceNonNegative(cart: seq<CartEntry>)
    requires forall i :: 0 <= i < |cart| ==> cart[i].price >= 0.0 && cart[i].quantity >= 0
    ensures TotalPrice(cart) >= 0.0
    decreases |cart|
  {
    if |cart| > 0 {
      TotalPriceNonNegative(cart[..|cart| - 1]);
      var e := cart[|cart| - 1];
      assert e.price * e.quantity as real >= 0.0;
    }
  }

  /** The purchase row a checkout records: `final_amount` is the total
      less the discount, with no floor at zero. */
  function Receipt(id: int, customerName: string, discount: real, cart: seq<CartEntry>): (r: Purchase)
    ensures r.id == id && r.customerName == customerName && r.discount == discount
    ensures r.totalPrice == TotalPrice(cart)
    ensures r.finalAmount + r.discount == r.totalPrice
  {
    var total := TotalPrice(cart);
    Purchase(id, customerName, total, discount, total - discount)
  }

  /** A discount above the total gives a negative amount to pay. */
  lemma DiscountAboveTotal(id: int, customerName: string, discount: real, cart: seq<CartEntry>)
    requires discount > TotalPrice(cart)
    ensures Receipt(id, customerName, discount, cart).finalAmount < 0.0
  {
  }

  /** The purchase items a checkout appends, one per cart entry, in cart
      order, as the loop of `purchase` adds them. */
  function ItemsFor(purchaseId: int, cart: seq<CartEntry>): (r: seq<PurchaseItem>)
    ensures |r| == |cart|
    ensures forall i :: 0 <= i < |cart| ==>
      r[i].purchaseId == purchaseId && r[i].productId == cart[i].id && r[i].quantity == cart[i].quantity
  {
    if |cart| == 0 then []
    else
      var e := cart[|cart| - 1];
      ItemsFor(purchaseId, cart[..|cart| - 1]) + [PurchaseItem(purchaseId, e.id, e.quantity)]
  }

  /** The ids the cart refers to. */
  function CartIds(cart: seq<CartEntry>): set<int> {
    set i | 0 <= i < |cart| :: cart[i].id
  }

  /** No product appears twice in the cart. */
  predicate DistinctIds(cart: seq<CartEntry>) {
    forall i, j :: 0 <= i < j < |cart| ==> cart[i].id != cart[j].id
  }

  /** One step of the loop: take the entry's quantity off the product and
      delete the product once its quantity is zero or below. */
  function Decrement(products: map<int, Product>, e: CartEntry): (r: map<int, Product>)
    requires e.id in products
  {
    var q := products[e.id].quantity - e.quantity;
    if q <= 0 then products - {e.id}
    else products[e.id := products[e.id].(quantity := q)]
  }

  /** The catalog after the cart, entries taken strictly in order, or the
      id of the first entry whose product is not there at its turn (the
      lookup returns None and the request fails before the commit). */
  function ApplySale(products: map<int, Product>, cart: seq<CartEntry>): Result<map<int, Product>, int>
    decreases |cart|
  {
    if |cart| == 0 then Ok(products)
    else if cart[0].id !in products then Err(cart[0].id)
    else ApplySale(Decrement(products, cart[0]), cart[1..])
  }

  lemma CartIdsSplit(cart: seq<CartEntry>)
    requires |cart| > 0
    ensures CartIds(cart) == {cart[0].id} + CartIds(cart[1..])
  {
    forall x | x in CartIds(cart) ensures x in {cart[0].id} + CartIds(cart[1..]) {
      var i :| 0 <= i < |cart| && cart[i].id == x;
      if i > 0 { assert cart[1..][i - 1].id == x; }
    }
    forall x | x in CartIds(cart[1..]) ensures x in CartIds(cart) {
      var i :| 0 <= i < |cart| - 1 && cart[1..][i].id == x;
      assert cart[i + 1].id == x;
    }
  }

  /** A failed checkout names an id of the cart; a successful one only
      removes products, never adds them. */
  lemma {:induction false} SaleShrinks(products: map<int, Product>, cart: seq<CartEntry>)
    ensures ApplySale(products, cart).Ok? ==> ApplySale(products, cart).value.Keys <= products.Keys
    ensures ApplySale(products, cart).Err? ==> ApplySale(products, cart).error in CartIds(cart)
    decreases |cart|
  {
    if |cart| > 0 {
      CartIdsSplit(cart);
      if cart[0].id in products {
        SaleShrinks(Decrement(products, cart[0]), cart[1..]);
      }
    }
  }

  /** Products the cart does not mention come out of a successful
      checkout exactly as they went in. */
  lemma {:induction false} SaleFrame(products: map<int, Product>, cart: seq<CartEntry>, id: int)
    requires ApplySale(products, cart).Ok?
    requires id !in CartIds(cart)
    ensures id in ApplySale(products, cart).value <==> id in products
    ensures id in products ==> ApplySale(products, cart).value[id] == products[id]
    decreases |cart|
  {
    if |cart| > 0 {
      CartIdsSplit(cart);
      SaleFrame(Decrement(products, cart[0]), cart[1..], id);
    }
  }

  /** A checkout changes nothing of a product but its quantity. */
  lemma {:induction false} SaleOnlyChangesQuantity(products: map<int, Product>, cart: seq<CartEntry>, id: int)
    requires ApplySale(products, cart).Ok?
    requires id in ApplySale(products, cart).value
    ensures id in products
    ensures ApplySale(products, cart).value[id]
            == products[id].(quantity := ApplySale(products, cart).value[id].quantity)
    decreases |cart|
  {
    if |cart| > 0 {
      SaleOnlyChangesQuantity(Decrement(products, cart[0]), cart[1..], id);
    }
  }

  /** No product the cart touched is left with a quantity of zero or
      below: the last entry for it either left it positive or deleted it. */
  lemma {:induction false} SaleRemovesSoldOut(products: map<int, Product>, cart: seq<CartEntry>, id: int)
    requires ApplySale(products, cart).Ok?
    requires id in CartIds(cart)
    requires id in ApplySale(products, cart).value
    ensures ApplySale(products, cart).value[id].quantity > 0
    decreases |cart|
  {
    CartIdsSplit(cart);
    var rest := Decrement(products, cart[0]);
    if id in CartIds(cart[1..]) {
      SaleRemovesSoldOut(rest, cart[1..], id);
    } else {
      SaleFrame(rest, cart[1..], id);
    }
  }

  /** A cart that mentions a product missing from the catalog fails, and
      a cart of distinct ids all in the catalog succeeds. */
  lemma {:induction false} SaleFailsExactlyOnUnknown(products: map<int, Product>, cart: seq<CartEntry>)
    requires DistinctIds(cart)
    ensures ApplySale(products, cart).Err? <==> exists i :: 0 <= i < |cart| && cart[i].id !in products
    decreases |cart|
  {
    if |cart| > 0 {
      if cart[0].id in products {
        var rest := Decrement(products, cart[0]);
        SaleFailsExactlyOnUnknown(rest, cart[1..]);
        forall i | 1 <= i < |cart| ensures cart[i].id in rest <==> cart[i].id in products {
        }
        if exists i :: 0 <= i < |cart| && cart[i].id !in products {
          var i :| 0 <= i < |cart| && cart[i].id !in products;
          assert cart[1..][i - 1] == cart[i];
        }
      }
    }
  }

  /** A cart id unknown to the catalog makes any cart fail, distinct ids
      or not, because a checkout never adds products. */
  lemma {:induction false} SaleFailsOnUnknown(products: map<int, Product>, cart: seq<CartEntry>, i: int)
    requires 0 <= i < |cart| && cart[i].id !in products
    ensures ApplySale(products, cart).Err?
    decreases |cart|
  {
    if cart[0].id in products {
      var rest := Decrement(products, cart[0]);
      assert cart[1..][i - 1] == cart[i];
      SaleFailsOnUnknown(rest, cart[1..], i - 1);
    }
  }

  /** With distinct ids, each product of the cart ends with its old
      quantity less the purchased quantity, or is deleted when that is
      zero or below. */
  lemma {:induction false} SaleDecrements(products: map<int, Product>, cart: seq<CartEntry>, i: int)
    requires DistinctIds(cart)
    requires ApplySale(products, cart).Ok?
    requires 0 <= i < |cart|
    ensures cart[i].id in products
    ensures var q := products[cart[i].id].quantity - cart[i].quantity;
            && (q <= 0 ==> cart[i].id !in ApplySale(products, cart).value)
            && (q > 0 ==> cart[i].id in ApplySale(products, cart).value
                          && ApplySale(products, cart).value[cart[i].id].quantity == q)
    decreases |cart|
  {
    var rest := Decrement(products, cart[0]);
    if i == 0 {
      forall j | 0 <= j < |cart| - 1 ensures cart[1..][j].id != cart[0].id {
        assert cart[1..][j] == cart[j + 1];
      }
      SaleFrame(rest, cart[1..], cart[0].id);
    } else {
      assert cart[1..][i - 1] == cart[i];
      SaleDecrements(rest, cart[1..], i - 1);
    }
  }

  /** A successful checkout keeps the catalog invariant. */
  lemma SalePreservesInvariant(products: map<int, Product>, cart: seq<CartEntry>)
    requires CatalogInvariant(products)
    requires ApplySale(products, cart).Ok?
    ensures CatalogInvariant(ApplySale(products, cart).value)
  {
  }

  /** The recorded total uses the prices the client sent: a product that
      sells at 100 in the catalog is charged 1 per unit if the cart says
      so. */
  lemma ClientPriceIsCharged()
    ensures var p := Product("Serum", "", 10.0, 37.5, 100.0, 62.5, 4, "", None);
            var cart := [CartEntry(1, 1.0, 2)];
            && ApplySale(map[1 := p], cart) == Ok(map[1 := p.(quantity := 2)])
            && Receipt(1, "Ali", 0.0, cart).finalAmount == 2.0
  {
    var p := Product("Serum", "", 10.0, 37.5, 100.0, 62.5, 4, "", None);
    var cart := [CartEntry(1, 1.0, 2)];
    assert cart[..0] == [];
    assert cart[1..] == [];
    assert Decrement(map[1 := p], cart[0]) == map[1 := p.(quantity := 2)];
  }

  /** Selling the last two units at 100 with a discount of 20 records a
      total of 200 and an amount of 180, and deletes the product. */
  lemma SellOutExample()
    ensures var p := Product("Toner", "", 20.0, 75.0, 100.0, 25.0, 2, "", None);
            var cart := [CartEntry(7, 100.0, 2)];
            && ApplySale(map[7 := p], cart) == Ok(map[])
            && Receipt(1, "Sara", 20.0, cart) == Purchase(1, "Sara", 200.0, 20.0, 180.0)
  {
    var p := Product("Toner", "", 20.0, 75.0, 100.0, 25.0, 2, "", None);
    var cart := [CartEntry(7, 100.0, 2)];
    assert cart[..0] == [];
    assert cart[1..] == [];
    assert map[7 := p] - {7} == map[];
  }

  /** Nothing checks the stock: a cart line for more units than are in
      stock is not refused, and the product is deleted. */
  lemma OversellIsAccepted()
    ensures var p := Product("Toner", "", 20.0, 75.0, 100.0, 25.0, 2, "", None);
            ApplySale(map[7 := p], [CartEntry(7, 100.0, 3)]) == Ok(map[])
  {
    var p := Product("Toner", "", 20.0, 75.0, 100.0, 25.0, 2, "", None);
    assert [CartEntry(7, 100.0, 3)][1..] == [];
    assert map[7 := p] - {7} == map[];
  }
}
