/** Products and the fields the product page derives from the form:
    the converted buy price and the profit (`product_page` in app.py). */
module Catalog {
  import opened Wrappers
  import Uploads

  /** USD_TO_SAR: the fixed rate from US dollars to Saudi riyals. */
  const UsdToSar: real := 3.75

  /** A row of the product table. Prices are exact reals; `image` is the
      stored file name of the product picture, if one was accepted. */
  datatype Product = Product(
    name: string,
    category: string,
    buyPriceUsd: real,
    buyPriceSar: real,
    sellPrice: real,
    profit: real,
    quantity: int,
    notes: string,
    image: Option<string>)

  /** The submitted product form. */
  datatype ProductForm = ProductForm(
    name: string,
    category: string,
    buyPriceUsd: real,
    sellPrice: real,
    quantity: int,
    notes: string)

  /** An uploaded image: the name the client sent, and the name it is
      saved under (the result of `secure_filename`, a library call). */
  datatype Upload = Upload(filename: string, savedAs: string)

  predicate IsSpace(c: char) {
    c == ' ' || c == '\t' || c == '\n' || c == '\r' || c == '\U{B}' || c == '\U{C}'
  }

  /** A text field that passes DataRequired: something besides blanks. */
  predicate Filled(s: string) {
    exists i :: 0 <= i < |s| && !IsSpace(s[i])
  }

  /** The validators of ProductForm. DataRequired turns away the falsy
      values 0 and 0.0 as well, so with NumberRange(min=0) both prices and
      the quantity are strictly positive. */
  predicate ValidForm(form: ProductForm) {
    && Filled(form.name)
    && form.buyPriceUsd > 0.0
    && form.sellPrice > 0.0
    && form.quantity > 0
  }

  /** The derived fields agree with the two entered prices. */
  predicate Consistent(p: Product) {
    && p.buyPriceSar == p.buyPriceUsd * UsdToSar
    && p.profit == p.sellPrice - p.buyPriceSar
  }

  /** What the catalog keeps at rest: every product has its derived fields
      up to date and is in stock (a checkout deletes a product whose
      quantity reaches zero, and the form does not accept zero). */
  ghost predicate CatalogInvariant(products: map<int, Product>) {
    forall id | id in products :: Consistent(products[id]) && products[id].quantity > 0
  }

  /** The image a save leaves on the product: the saved name of an upload
      whose name passes `allowed_file`, otherwise the image it had. */
  function StoredImage(upload: Option<Upload>, current: Option<string>): (r: Option<string>)
    ensures upload.Some? && Uploads.AllowedFile(upload.value.filename) ==> r == Some(upload.value.savedAs)
    ensures !(upload.Some? && Uploads.AllowedFile(upload.value.filename)) ==> r == current
  {
    match upload
    case Some(u) => if Uploads.AllowedFile(u.filename) then Some(u.savedAs) else current
    case None => current
  }

  /** The product the add branch of the product page creates. */
  function Created(form: ProductForm, upload: Option<Upload>): (p: Product)
    ensures Consistent(p)
    ensures p.buyPriceUsd == form.buyPriceUsd && p.sellPrice == form.sellPrice
    ensures p.quantity == form.quantity
  {
    Product(
      form.name,
      form.category,
      form.buyPriceUsd,
      form.buyPriceUsd * UsdToSar,
      form.sellPrice,
      form.sellPrice - form.buyPriceUsd * UsdToSar,
      form.quantity,
      form.notes,
      StoredImage(upload, None))
  }

  /** The product the edit branch leaves: every form field assigned, the
      derived fields recomputed, the image kept unless a new one is
      accepted. */
  function Edited(p: Product, form: ProductForm, upload: Option<Upload>): (r: Product)
    ensures Consistent(r)
    ensures r.buyPriceUsd == form.buyPriceUsd && r.sellPrice == form.sellPrice
    ensures r.quantity == form.quantity
  {
    var buySar := form.buyPriceUsd * UsdToSar;
    p.(name := form.name,
       category := form.category,
       buyPriceUsd := form.buyPriceUsd,
       buyPriceSar := buySar,
       sellPrice := form.sellPrice,
       profit := form.sellPrice - buySar,
       quantity := form.quantity,
       notes := form.notes,
       image := StoredImage(upload, p.image))
  }

  /** Editing leaves no trace of the old values except the image: the
      edit branch and the add branch store the same fields. */
  lemma EditAgreesWithCreate(p: Product, form: ProductForm, upload: Option<Upload>)
    ensures Edited(p, form, upload) == Created(form, upload).(image := StoredImage(upload, p.image))
  {
  }

  /** Saving a valid form, as a new row or over an existing one, keeps
      the catalog invariant. */
  lemma SaveKeepsInvariant(products: map<int, Product>, id: int, form: ProductForm, upload: Option<Upload>)
    requires CatalogInvariant(products) && ValidForm(form)
    ensures CatalogInvariant(products[id := Created(form, upload)])
    ensures id in products ==> CatalogInvariant(products[id := Edited(products[id], form, upload)])
  {
  }
}
