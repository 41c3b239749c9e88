# Store management app: checkout, product pricing, uploads and dashboard

A Dafny model of the logic in `app.py` of a small Flask inventory-and-sales
application. The database is replaced by in-memory state: the product
table is a `map<int, Product>` and the purchase ledger two sequences
(`Purchase` rows and `PurchaseItem` rows), held by the class
`App.Store`. Prices are exact `real`s.

- `Uploads`: `allowed_file` — the text after the last `.`, lower-cased,
  must be one of png, jpg, jpeg, gif.
- `Catalog`: the product row, the rate `USD_TO_SAR = 3.75`, and the
  fields the product page derives on create and on edit
  (`buy_price_sar = buy_price_usd * 3.75`, `profit = sell_price - buy_price_sar`).
- `Checkout`: the checkout as specification functions — the total in cart
  order, the purchase row (`final_amount = total_price - discount`, no
  floor), one item row per cart entry, and the catalog after the cart
  (`ApplySale`: each entry's quantity taken off its product, which is
  deleted once its quantity is zero or below; a missing product fails
  the whole checkout).
- `Dashboard`: the read-only figures — in-stock filter, total quantity,
  revenue and profit potential, low-stock list, total sales.
- `App.Store`: the product page (add, edit, and the dispatch between
  them) and the checkout as methods that change the store. The checkout
  loop works on a copy of the catalog and commits only when every entry
  has been processed, so a failure leaves catalog and ledger exactly as
  they were.

The store keeps an invariant (`App.Store.Valid`): every product has its
derived fields up to date and a quantity above zero, ids are fresh, and
every recorded purchase has `final_amount = total - discount`.

The model follows the code in three places a reader might not expect:
- The unit price of a cart line is the price the client sent with the
  cart (app.py:244), not the catalog's sell price (`ClientPriceIsCharged`).
- Nothing checks the stock: a cart line for more units than are in stock
  takes the quantity to zero or below, and lines 267-268 then delete the
  product (`OversellIsAccepted`).
- A cart id that is not in the catalog is not checked for: the lookup at
  app.py:265 returns None and the attribute access raises, so the
  request fails before the commit and nothing is written. The model
  returns `UnknownProduct` and leaves the store unchanged.

Deleting a product at checkout follows lines 265-268 as written. The
object mapping may keep that commit from succeeding, and this is not
modelled. The relationship `PurchaseItem.product` with its backref
(app.py:64) has no delete cascade, so deleting a product makes the
database layer set `product_id` to NULL in that product's item rows.
That column is declared `nullable=False` (app.py:62), which would make
the commit fail.

Form validation is turned into preconditions. WTForms' `DataRequired`
turns away falsy values, so a valid product form has a non-blank name and
prices and quantity strictly above zero (`Catalog.ValidForm`); the
purchase form needs a non-blank customer name and a discount of at least
zero. Because of that, and because a checkout deletes a product whose
quantity reaches zero or below, no product at rest has quantity zero.

## Model

| member | source | states |
|---|---|---|
| `Uploads.Lower` | app.py:103 | the `.lower()` of the extension: same length, A-Z mapped to a-z; its use is stated by ExtensionOfLower and AllowedFileIgnoresCase |
| `Uploads.AllowedFile` | app.py:102-103 | `allowed_file`: the name has a '.' and the lower-cased text after the last one is an accepted extension; see AllowedFileIff, AllowedFileIgnoresCase, AllowedFileExamples |
| `Uploads.Extension` | app.py:103 | None exactly when the name has no '.'; otherwise the text after the last '.', which holds no '.' |
| `Uploads.AllowedFileIff` | app.py:102-103 | accepted iff there is a '.' with no '.' after it and the text after it, lower-cased, is png, jpg, jpeg or gif |
| `Uploads.ExtensionOfLower` | app.py:103 | the extension of the lower-cased name is the lower-cased extension |
| `Uploads.AllowedFileIgnoresCase` | app.py:103 | whether a name is accepted does not depend on its case |
| `Uploads.AllowedFileExamples` | app.py:102-103 | "x.PNG" and ".gif" are accepted; "x.png.exe", "png" and "photo." are rejected |
| `Catalog.StoredImage` | app.py:201-204 | the image becomes the saved name of an upload that passes allowed_file, and stays as it was otherwise |
| `Catalog.Created` | app.py:188-197 | a created product has buy_price_sar = buy_price_usd * 3.75 and profit = sell_price - buy_price_sar, with prices and quantity from the form |
| `Catalog.Edited` | app.py:179-186 | an edited product has its derived fields recomputed from the new prices, with prices and quantity from the form |
| `Catalog.EditAgreesWithCreate` | app.py:178-197 | the edit branch stores the same fields as the add branch, except that it keeps the old image when no new one is accepted |
| `Catalog.SaveKeepsInvariant` | app.py:178-197 | saving a valid form as a new row, or over an existing row, keeps every product consistent and in stock |
| `Checkout.TotalPrice` | app.py:244 | `total_price`: the line totals price × quantity added in cart order from 0; see TotalPriceConcat, TotalPriceIsSumFromFront, TotalPriceNonNegative |
| `Checkout.TotalPriceConcat` | app.py:244 | the total of two carts joined is the sum of their totals |
| `Checkout.TotalPriceIsSumFromFront` | app.py:244 | the total taken in cart order equals the sum taken from the other end |
| `Checkout.TotalPriceNonNegative` | app.py:244 | with prices and quantities not below zero the total is not below zero |
| `Checkout.Receipt` | app.py:244-253 | the purchase row carries the given id, name and discount, total_price = the cart total, and final_amount + discount = total_price |
| `Checkout.DiscountAboveTotal` | app.py:246 | a discount above the total gives a negative final amount (no floor at zero) |
| `Checkout.ItemsFor` | app.py:257-263 | exactly one item per cart entry, in cart order, each with the purchase id and the entry's id and quantity |
| `Checkout.Decrement` | app.py:265-268 | one loop step: the entry's quantity taken off its product, which is deleted once its quantity is zero or below; see SaleDecrements |
| `Checkout.ApplySale` | app.py:257-268 | the catalog after the cart, entries in order, or the first id missing at its turn; see SaleDecrements, SaleFrame, SaleOnlyChangesQuantity, SaleRemovesSoldOut, SaleFailsExactlyOnUnknown, SaleFailsOnUnknown, SaleShrinks |
| `Checkout.SaleShrinks` | app.py:265-268 | a checkout only removes products; a failed one names an id of the cart |
| `Checkout.SaleFrame` | app.py:257-268 | a product the cart does not mention is present after the checkout iff before, and unchanged |
| `Checkout.SaleOnlyChangesQuantity` | app.py:266 | a product left after the checkout differs from its old row in the quantity only |
| `Checkout.SaleRemovesSoldOut` | app.py:265-268 | no product the cart touched is left with quantity zero or below |
| `Checkout.SaleDecrements` | app.py:265-268 | with distinct cart ids, each product's new quantity is old minus purchased, and it is deleted iff that is zero or below |
| `Checkout.SaleFailsExactlyOnUnknown` | app.py:265-266 | with distinct cart ids, the checkout fails iff some cart id is not in the catalog |
| `Checkout.SaleFailsOnUnknown` | app.py:265-266 | any cart holding an id that is not in the catalog fails |
| `Checkout.SalePreservesInvariant` | app.py:265-268 | a successful checkout keeps every product consistent and in stock |
| `Checkout.ClientPriceIsCharged` | app.py:244 | the recorded total uses the client's unit price, not the catalog's sell price |
| `Checkout.SellOutExample` | app.py:244-268 | selling the last 2 units at 100 with discount 20 records total 200 and final 180, and lines 267-268 delete the product |
| `Checkout.OversellIsAccepted` | app.py:265-268 | no stock check: buying 3 of a product with 2 in stock is not refused, and the product is deleted |
| `Dashboard.InStock` | app.py:142 | the in-stock rows are exactly the rows with quantity above zero, no more of them than rows |
| `Dashboard.LowStock` | app.py:148 | the low-stock rows are exactly the rows with 0 < quantity <= 5, no more of them than rows in stock |
| `Dashboard.FiltersConcat` | app.py:142-148 | both filters keep row order: filtering two joined lists gives the two filtered lists joined |
| `Dashboard.FiltersSnoc` | app.py:142-148 | appending a row appends it to each list it qualifies for, and to no other; with the empty case this fixes both lists, order and repeated rows included |
| `Dashboard.QuantitySum` | app.py:144 | the quantities of the given rows added up; see FiguresSnoc, ComputeSnoc |
| `Dashboard.TotalQuantity` | app.py:144 | the total quantity is at least the number of products in stock |
| `Dashboard.RevenuePotential` | app.py:145 | `total_revenue_potential`: sell price × quantity summed over the rows in stock; see FiguresSnoc, ComputeSnoc, ProfitIsRevenueLessCost |
| `Dashboard.ProfitPotential` | app.py:146 | `total_profits`: profit × quantity summed over the rows in stock; see FiguresSnoc, ComputeSnoc, ProfitIsRevenueLessCost |
| `Dashboard.Compute` | app.py:142-156 | the count of products in stock is at most the total quantity and the number of rows, and at least the size of the low-stock list |
| `Dashboard.EmptyDashboard` | app.py:142-156 | with no product rows every product figure is zero and total sales are those of the ledger; with no purchases either, every figure is zero |
| `Dashboard.ComputeSnoc` | app.py:142-148 | one more row in stock adds one product, its quantity, sell price × quantity and profit × quantity to the figures, and joins the low-stock list when it has at most 5 units; a row out of stock changes nothing |
| `Dashboard.FiguresSnoc` | app.py:143-146 | one more row in stock raises the product count by one, the total quantity by its quantity, revenue by sell price × quantity and profit by profit × quantity |
| `Dashboard.FiltersIgnoreOutOfStock` | app.py:142-148 | a row with quantity zero or below, at any position, changes neither the in-stock nor the low-stock list |
| `Dashboard.OutOfStockIgnored` | app.py:142-156 | the dashboard of the rows in stock is the dashboard of all rows |
| `Dashboard.InStockKeepsStocked` | app.py:142 | when every row has quantity above zero the filter keeps them all |
| `Dashboard.ProfitSumSplit` | app.py:145-146 | over consistent rows, the sum of profit * quantity is the sum of sell price * quantity less the stock cost |
| `Dashboard.ProfitIsRevenueLessCost` | app.py:145-146 | the profit figure is the revenue figure less the cost of the stock in stock |
| `Dashboard.TotalSales` | app.py:156 | `total_sales`: the final amounts of all purchases added up; see SalesAreTotalsLessDiscounts, TotalSalesConcat, RecordedSale, EmptyDashboard |
| `Dashboard.SalesAreTotalsLessDiscounts` | app.py:156 | total sales are the sum of totals less the sum of discounts |
| `Dashboard.TotalSalesConcat` | app.py:156 | total sales over two ledgers joined is the sum of both |
| `Dashboard.RecordedSale` | app.py:156 | recording a purchase raises total sales by its final amount |
| `App.Store.constructor` | app.py:92-94 | an empty catalog and ledger satisfy the store invariant |
| `App.Store.AddProduct` | app.py:187-198 | a new product under a fresh id, as Created gives it; the rest of the catalog, the ledger and the purchase id counter are unchanged |
| `App.Store.EditProduct` | app.py:176-186 | an existing product becomes Edited of its old row; a missing id is not-found and changes nothing; the ledger and both id counters are unchanged |
| `App.Store.ProductPage` | app.py:174-206 | no id or id 0 adds, another id edits or is not-found; a saved product is consistent; the ledger is untouched |
| `App.Store.Checkout` | app.py:239-272 | on success: the catalog is ApplySale of the old one, one receipt and its items appended under a fresh id; on a missing product: an error and catalog and ledger unchanged |

## Left out

- Flask routing, templates, `flash` and redirects (app.py:106-135, 158-168, 218, 276): request and page plumbing.
- Login, registration, logout, `User` and `load_user`: password hashing and sessions are library calls.
- `delete_product`, `stock` and `invoices` (app.py:220-234, 278-283): plain table operations outside the modelled logic.
- The top-five chart (`order_by(...).limit(5)` and the lists built from it, app.py:147, 151-153): a database ordering query.
- Dashboard rows: the figures are functions of the rows as the queries return them; the model does not build those rows from the store's map.
- WTForms machinery: the validators become preconditions; `Filled` treats only space, tab, line feed, carriage return, vertical tab and form feed as blank, while Python's `strip` removes further characters too (the separators `\x1c`-`\x1f` and other Unicode whitespace).
- `json.loads` of the cart: the cart is an already parsed sequence with integer ids and quantities and real prices; a fractional quantity in the JSON is not modelled.
- Saving the image, `secure_filename` and the upload folder: the saved name is a parameter (`Upload.savedAs`).
- CSV export (app.py:285-295): a wrapper over `csv.writer` and `send_file`.
- Floating point: prices are exact reals, so sums and differences are exact.
- The purchase timestamp (`date`), and the item rows' own ids.
- Ids: new products and purchases get ids from counters; SQLite may reuse the highest id of a deleted product.
- Concurrency: two checkouts racing for the same stock.
- ORM details of deletion: the nulling of `purchase_item.product_id` when a product is deleted (app.py:62-64), which would make a checkout that deletes a product fail at the commit; the model deletes the product as lines 267-268 say.
- Repeated cart ids: a cart naming the same product again after an earlier entry deleted it is treated as a missing product, while the session's identity map may still return the pending row.
- A failing checkout is an error result; the application answers it with a server error page.
- TotalQuantity: its own contract gives only a lower bound; the sum of the in-stock quantities that it equals is stated by `FiguresSnoc` and `ComputeSnoc` together with `EmptyDashboard`.
- Compute: its own contract gives only bounds among the figures; what each figure equals is stated by `ComputeSnoc` (one row at a time) together with `EmptyDashboard`.
