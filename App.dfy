/** The state the request handlers of app.py change: the product table
    and the purchase ledger, with the product page and the checkout as
    methods. Each method commits on success and leaves the store as it
    was on failure, as the request's database session does. */
module App {
  import opened Wrappers
  import opened Catalog
  import opened Checkout

  datatype Failure =
    | NotFound(id: int)        // get_or_404 on a missing product
    | UnknownProduct(id: int)  // a cart entry whose product lookup returns None

  class Store {
    var products: map<int, Product>
    var purchases: seq<Purchase>
    var items: seq<PurchaseItem>
    /** Ids the database hands out next; every id below is taken. */
    var nextProductId: int
    var nextPurchaseId: int

    ghost function PurchaseIds(): set<int>
      reads this
    {
      set i | 0 <= i < |purchases| :: purchases[i].id
    }

    ghost predicate Valid()
      reads this
    {
      && CatalogInvariant(products)
      && 1 <= nextProductId && 1 <= nextPurchaseId
      && (forall id | id in products :: 1 <= id < nextProductId)
      && (forall i :: 0 <= i < |purchases| ==> 1 <= purchases[i].id < nextPurchaseId)
      && (forall i, j :: 0 <= i < j < |purchases| ==> purchases[i].id < purchases[j].id)
      && (forall i :: 0 <= i < |purchases| ==>
            purchases[i].finalAmount == purchases[i].totalPrice - purchases[i].discount)
      && (forall i :: 0 <= i < |items| ==> items[i].purchaseId in PurchaseIds())
    }

    constructor ()
      ensures Valid()
      ensures products == map[] && purchases == [] && items == []
    {
      products := map[];
      purchases := [];
      items := [];
      nextProductId := 1;
      nextPurchaseId := 1;
    }

    /** The add branch of the product page: a new product under a fresh
        id, with its derived fields computed from the form. */
    method AddProduct(form: ProductForm, upload: Option<Upload>) returns (id: int)
      requires Valid() && ValidForm(form)
      modifies this
      ensures Valid()
      ensures id !in old(products)
      ensures products == old(products)[id := Created(form, upload)]
      ensures purchases == old(purchases) && items == old(items)
      ensures nextPurchaseId == old(nextPurchaseId)
    {
      id := nextProductId;
      SaveKeepsInvariant(products, id, form, upload);
      products := products[id := Created(form, upload)];
      nextProductId := nextProductId + 1;
    }

    /** The edit branch of the product page: every field of the form is
        assigned and the derived fields recomputed; a missing id is a
        not-found response and changes nothing. */
    method EditProduct(id: int, form: ProductForm, upload: Option<Upload>) returns (r: Result<int, Failure>)
      requires Valid() && ValidForm(form)
      modifies this
      ensures Valid()
      ensures id in old(products) ==> r == Ok(id) && products == old(products)[id := Edited(old(products)[id], form, upload)]
      ensures id !in old(products) ==> r == Err(NotFound(id)) && products == old(products)
      ensures purchases == old(purchases) && items == old(items)
      ensures nextProductId == old(nextProductId) && nextPurchaseId == old(nextPurchaseId)
    {
      if id !in products {
        return Err(NotFound(id));
      }
      SaveKeepsInvariant(products, id, form, upload);
      products := products[id := Edited(products[id], form, upload)];
      r := Ok(id);
    }

    /** `product_page`: with no id, or the id 0 (which the `if id` test
        takes as no id), a new product; otherwise an edit. */
    method ProductPage(route: Option<nat>, form: ProductForm, upload: Option<Upload>) returns (r: Result<int, Failure>)
      requires Valid() && ValidForm(form)
      modifies this
      ensures Valid()
      ensures route.None? || route.value == 0 ==>
        r.Ok? && r.value !in old(products) && products == old(products)[r.value := Created(form, upload)]
      ensures route.Some? && route.value in old(products) ==>
        r == Ok(route.value) && products == old(products)[route.value := Edited(old(products)[route.value], form, upload)]
      ensures route.Some? && route.value != 0 && route.value !in old(products) ==>
        r == Err(NotFound(route.value)) && products == old(products)
      ensures route.Some? && route.value != 0 ==> nextProductId == old(nextProductId)
      ensures nextPurchaseId == old(nextPurchaseId)
      ensures r.Ok? ==> r.value in products && Consistent(products[r.value])
      ensures purchases == old(purchases) && items == old(items)
    {
      if route.None? || route.value == 0 {
        var id := AddProduct(form, upload);
        r := Ok(id);
      } else {
        r := EditProduct(route.value, form, upload);
      }
    }

    /** `purchase`: record the purchase and its items and take the cart
        off the catalog, entries in order. A cart entry whose product is
        missing at its turn fails the request before the commit, and the
        store is left as it was. */
    method Checkout(customerName: string, discount: real, cart: seq<CartEntry>) returns (r: Result<int, Failure>)
      requires Valid() && Filled(customerName) && discount >= 0.0
      modifies this
      ensures Valid()
      ensures ApplySale(old(products), cart).Err? ==>
        && r == Err(UnknownProduct(ApplySale(old(products), cart).error))
        && products == old(products) && purchases == old(purchases) && items == old(items)
        && nextPurchaseId == old(nextPurchaseId)
      ensures ApplySale(old(products), cart).Ok? ==>
        && r.Ok? && r.value !in old(PurchaseIds())
        && products == ApplySale(old(products), cart).value
        && purchases == old(purchases) + [Receipt(r.value, customerName, discount, cart)]
        && items == old(items) + ItemsFor(r.value, cart)
      ensures nextProductId == old(nextProductId)
    {
      // the id `flush` assigns to the new purchase row
      var id := nextPurchaseId;
      var receipt := Receipt(id, customerName, discount, cart);
      var work := products;
      var added: seq<PurchaseItem> := [];
      var i := 0;
      while i < |cart|
        invariant 0 <= i <= |cart|
        invariant ApplySale(products, cart) == ApplySale(work, cart[i..])
        invariant added == ItemsFor(id, cart[..i])
      {
        var e := cart[i];
        assert cart[..i + 1] == cart[..i] + [e];
        added := added + [PurchaseItem(id, e.id, e.quantity)];
        if e.id !in work {
          return Err(UnknownProduct(e.id));
        }
        var q := work[e.id].quantity - e.quantity;
        if q <= 0 {
          work := work - {e.id};
        } else {
          work := work[e.id := work[e.id].(quantity := q)];
        }
        assert cart[i..][1..] == cart[i + 1..];
        i := i + 1;
      }
      assert cart[..i] == cart;
      SalePreservesInvariant(products, cart);
      SaleShrinks(products, cart);
      ghost var oldIds, oldPurchases := PurchaseIds(), purchases;
      products := work;
      purchases := purchases + [receipt];
      items := items + added;
      nextPurchaseId := id + 1;
      assert oldIds <= PurchaseIds() by {
        forall x | x in oldIds ensures x in PurchaseIds() {
          var k :| 0 <= k < |oldPurchases| && oldPurchases[k].id == x;
          assert purchases[k] == oldPurchases[k];
        }
      }
      assert id in PurchaseIds() by {
        assert purchases[|purchases| - 1].id == id;
      }
      r := Ok(id);
    }
  }
}
