/**
 * The admin product form (app/routes/admin.products/ProductForm.tsx): its
 * schema, the default values taken from the product being edited, and the
 * texts that depend on whether a product is being edited or created.
 *
 * Price and stock pass through `z.coerce.number()`, so the schema sees the
 * number the field's text converts to, or NaN; the conversion itself is not
 * modelled, and a field value here is that number (`None` for NaN).
 */
module ProductForm {
  import opened Wrappers
  import opened Validation

  datatype ProductFormData = ProductFormData(name: string, description: string, price: Option<real>, stock: Option<real>)

  datatype ProductStatus = Active | Inactive

  /** The `product` prop passed in for editing; its images and timestamps are not read by the form. */
  datatype ProductRecord = ProductRecord(
    id: int,
    name: string,
    description: Option<string>,
    price: real,
    stockQuantity: int,
    category: Option<string>,
    status: ProductStatus)

  const NAME_MESSAGE := "Name is required"
  const DESCRIPTION_MESSAGE := "Description is required"
  const PRICE_MESSAGE := "Price must be a positive number"
  const STOCK_MESSAGE := "Stock must be a non-negative integer"
  /** zod's messages for NaN where a number is expected, and for a fraction where an integer is. */
  const NAN_MESSAGE := "Expected number, received nan"
  const FLOAT_MESSAGE := "Expected integer, received float"

  predicate IsInteger(x: real) { x == x.Floor as real }

  /** `z.coerce.number()` followed by its checks: NaN stops at the type issue; otherwise every failing check adds its issue. */
  function NumberIssues(path: string, value: Option<real>, integer: bool, message: string): (r: set<Issue>)
    requires message != FLOAT_MESSAGE
    ensures value.None? ==> r == {Issue(path, NAN_MESSAGE)}
    ensures value.Some? ==>
      (Issue(path, message) in r <==> value.value < 0.0) &&
      (Issue(path, FLOAT_MESSAGE) in r <==> integer && !IsInteger(value.value)) &&
      r <= {Issue(path, message), Issue(path, FLOAT_MESSAGE)}
  {
    match value
    case None => {Issue(path, NAN_MESSAGE)}
    case Some(x) =>
      (if integer && !IsInteger(x) then {Issue(path, FLOAT_MESSAGE)} else {}) +
      (if x < 0.0 then {Issue(path, message)} else {})
  }

  /** `productSchema`. */
  function ProductIssues(form: ProductFormData): set<Issue>
  {
    MinLength("name", form.name, 1, NAME_MESSAGE) +
    MinLength("description", form.description, 1, DESCRIPTION_MESSAGE) +
    NumberIssues("price", form.price, false, PRICE_MESSAGE) +
    NumberIssues("stock", form.stock, true, STOCK_MESSAGE)
  }

  /**
   * Accepted exactly when name and description are not empty, the price is a
   * number of at least 0 (fractions allowed) and the stock a whole number of
   * at least 0.
   */
  lemma ProductAcceptsExactly(form: ProductFormData)
    ensures ProductIssues(form) == {} <==>
      form.name != "" && form.description != "" &&
      form.price.Some? && form.price.value >= 0.0 &&
      form.stock.Some? && form.stock.value >= 0.0 && IsInteger(form.stock.value)
  {
    if ProductIssues(form) == {} {
      assert NumberIssues("price", form.price, false, PRICE_MESSAGE) == {};
      assert NumberIssues("stock", form.stock, true, STOCK_MESSAGE) == {};
    }
  }

  /** A negative fractional stock gets both the integer and the minimum issue. */
  lemma NegativeFractionalStock()
    ensures NumberIssues("stock", Some(-1.5), true, STOCK_MESSAGE) ==
      {Issue("stock", FLOAT_MESSAGE), Issue("stock", STOCK_MESSAGE)}
  {
    assert !IsInteger(-1.5) by {
      assert (-1.5).Floor == -2;
    }
  }

  /** `isEditMode = !!product`. */
  predicate IsEditMode(product: Option<ProductRecord>)
  {
    product.Some?
  }

  /** The default values: the product's fields, `stockQuantity` as the stock, and "" or 0 for what is missing. */
  function DefaultValues(product: Option<ProductRecord>): (d: ProductFormData)
    ensures product.None? ==> d == ProductFormData("", "", Some(0.0), Some(0.0))
    ensures product.Some? ==>
      d.name == product.value.name &&
      d.description == (if product.value.description.Some? then product.value.description.value else "") &&
      d.price == Some(product.value.price) &&
      d.stock == Some(product.value.stockQuantity as real)
  {
    match product
    case None => ProductFormData("", "", Some(0.0), Some(0.0))
    case Some(p) =>
      ProductFormData(
        p.name,
        match p.description case Some(text) => text case None => "",
        Some(p.price),
        Some(p.stockQuantity as real))
  }

  /** A new product's untouched form fails only on the name and the description: price and stock 0 pass. */
  lemma NewProductDefaultsFail()
    ensures ProductIssues(DefaultValues(None)) == {Issue("name", NAME_MESSAGE), Issue("description", DESCRIPTION_MESSAGE)}
  {
    assert IsInteger(0.0);
  }

  /** Editing a product whose fields already satisfy the schema starts from an accepted form. */
  lemma EditDefaultsAccepted(p: ProductRecord)
    requires p.name != "" && p.description.Some? && p.description.value != ""
    requires p.price >= 0.0 && p.stockQuantity >= 0
    ensures ProductIssues(DefaultValues(Some(p))) == {}
  {
    var d := DefaultValues(Some(p));
    assert IsInteger(p.stockQuantity as real);
    ProductAcceptsExactly(d);
  }

  /** The card title. */
  function Title(product: Option<ProductRecord>): string
  {
    if IsEditMode(product) then "Edit Product" else "New Product"
  }

  /** The submit button's text. */
  function SubmitLabel(product: Option<ProductRecord>): string
  {
    (if IsEditMode(product) then "Update" else "Create") + " Product"
  }

  /** The toast shown after a submit, as title and description. */
  function Toast(product: Option<ProductRecord>, name: string): (string, string)
  {
    var verb := if IsEditMode(product) then "updated" else "created";
    ("Product " + verb + " successfully", name + " has been " + verb + ".")
  }

  /** The title and the button read as editing exactly when a product is given. */
  lemma EditModeTexts(product: Option<ProductRecord>)
    ensures Title(product) == "Edit Product" <==> product.Some?
    ensures SubmitLabel(product) == "Update Product" <==> product.Some?
    ensures product.None? ==> Title(product) == "New Product" && SubmitLabel(product) == "Create Product"
  {
    if product.None? {
      assert SubmitLabel(product) == "Create Product";
      assert SubmitLabel(product)[0] != "Update Product"[0];
    } else {
      assert SubmitLabel(product) == "Update Product";
    }
  }

  /** The toast reads "updated" exactly when a product is given, and "created" otherwise. */
  lemma EditModeToast(product: Option<ProductRecord>, name: string)
    ensures Toast(product, name).0 == "Product updated successfully" <==> product.Some?
    ensures product.Some? ==> Toast(product, name).1 == name + " has been updated."
    ensures product.None? ==> Toast(product, name) == ("Product created successfully", name + " has been created.")
  {
    var toast := Toast(product, name);
    if product.None? {
      assert toast.0 == "Product created successfully";
      assert toast.0[8] != "Product updated successfully"[8];
      assert toast.1 == name + " has been created.";
    } else {
      assert toast.0 == "Product updated successfully";
      assert toast.1 == name + " has been updated.";
    }
  }
}
