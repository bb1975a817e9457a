/** The decisions of the products page, `src/pages/Products.jsx`: the form and its derived
    expiry date, the serial-number box, validation before submitting, the search filter, and
    how the product list follows the server's answers. */
module ProductsPage {
  import opened Wrappers
  import opened Docs
  import opened JsString
  import opened JsNumber
  import opened Calendar
  import opened Mongoose
  import opened ProductModel
  import opened UserModel
  import opened ClientCommon

  /** The `formData` object: the product's paths plus `vendorInput`, which only the form has. */
  datatype ProductForm = ProductForm(product: Product, vendorInput: Field)

  /** The form `resetForm` sets (and the page starts with): ten empty strings, no `vendorInput`. */
  const EmptyForm := ProductForm(Product(Str(""), Str(""), Str(""), Str(""), Str(""), Str(""), Str(""),
                                         Str(""), Str(""), Str("")), Absent)

  /** JavaScript truthiness of a form value. */
  predicate Truthy(f: Field) {
    f.Str? && f.text != ""
  }

  /** The text of a form value, `""` for a missing or null one. */
  function TextOf(f: Field): string {
    if f.Str? then f.text else ""
  }

  /** The alert of the page's permission check. */
  function DeniedMessage(a: Action): string {
    "Permission Denied: You do not have permission to " + ActionName(a) + "categories."
  }

  /** `calculateExpiryDate(purchaseDate, warranty)`: "" when either is empty; otherwise the
      purchase date moved on by `parseInt(warranty)` months, as `YYYY-MM-DD`. None stands for
      the RangeError `toISOString` throws on an invalid date (an unreadable purchase date, or a
      warranty that `parseInt` reads as NaN). */
  function CalculateExpiryDate(purchaseDate: string, warranty: string): (r: Option<string>)
    ensures purchaseDate == "" || warranty == "" ==> r == Some("")
    ensures purchaseDate != "" && warranty != "" ==>
              (r.Some? <==> ParseIsoDate(purchaseDate).Some? && ParseInt(warranty).Some?)
  {
    if purchaseDate == "" || warranty == "" then Some("")
    else match (ParseIsoDate(purchaseDate), ParseInt(warranty))
      case (Some(d), Some(k)) => Some(FormatIsoDate(AddMonths(d, k)))
      case _ => None
  }

  /** For a date written as a date input writes it and a whole number of months written as
      a number input writes it, the expiry date is the date that many months later. */
  lemma ExpiryOfDate(d: Date, months: int)
    requires ValidDate(d) && 0 <= d.year <= 9999
    ensures CalculateExpiryDate(FormatIsoDate(d), IntToString(months)) == Some(FormatIsoDate(AddMonths(d, months)))
  {
    IsoRoundTrip(d);
    ParseIntOfString(months);
    assert |FormatIsoDate(d)| > 0;
    assert |IntToString(months)| > 0;
  }

  /** A warranty of zero months expires on the day of purchase. */
  lemma ExpiryOfNoMonths(d: Date)
    requires ValidDate(d) && 0 <= d.year <= 9999
    ensures CalculateExpiryDate(FormatIsoDate(d), "0") == Some(FormatIsoDate(d))
  {
    assert IntToString(0) == "0";
    ExpiryOfDate(d, 0);
    AddNoMonths(d);
  }

  /** A purchase on the last day of a long month with a warranty ending in a shorter month
      runs over into the month after: 31 January 2024 plus one month is 2 March 2024. */
  lemma ExpiryRunsOver()
    ensures CalculateExpiryDate(FormatIsoDate(Date(2024, 1, 31)), IntToString(1)) == Some(FormatIsoDate(Date(2024, 3, 2)))
  {
    ExpiryOfDate(Date(2024, 1, 31), 1);
    LastOfJanuaryPlusOneMonth();
  }

  /** The inputs wired to `handleInputChange`. */
  datatype InputName = NameInput | DescriptionInput | CategoryInput | QuantityInput | PriceInput
                     | SerialBoxInput | PurchaseDateInput | WarrantyPeriodInput

  function InputOf(p: Product, n: InputName): Field {
    match n
    case NameInput => p.name
    case DescriptionInput => p.description
    case CategoryInput => p.category
    case QuantityInput => p.quantity
    case PriceInput => p.price
    case SerialBoxInput => p.serialBox
    case PurchaseDateInput => p.purchaseDate
    case WarrantyPeriodInput => p.warrantyPeriod
  }

  /** `{ ...prevState, [name]: value }`. */
  function WithInput(p: Product, n: InputName, v: string): (r: Product)
    ensures InputOf(r, n) == Str(v)
    ensures forall m :: m != n ==> InputOf(r, m) == InputOf(p, m)
    ensures r.vendor == p.vendor && r.expiryDate == p.expiryDate
  {
    match n
    case NameInput => p.(name := Str(v))
    case DescriptionInput => p.(description := Str(v))
    case CategoryInput => p.(category := Str(v))
    case QuantityInput => p.(quantity := Str(v))
    case PriceInput => p.(price := Str(v))
    case SerialBoxInput => p.(serialBox := Str(v))
    case PurchaseDateInput => p.(purchaseDate := Str(v))
    case WarrantyPeriodInput => p.(warrantyPeriod := Str(v))
  }

  /** `handleInputChange`: the named input takes the value; a change of the purchase date or
      the warranty, when both are then non-empty, also recomputes the expiry date. None is
      the update throwing, as `calculateExpiryDate` does on an invalid date. */
  function InputChange(form: ProductForm, n: InputName, v: string): (r: Option<ProductForm>)
    ensures r.Some? ==> InputOf(r.value.product, n) == Str(v)
                        && (forall m :: m != n ==> InputOf(r.value.product, m) == InputOf(form.product, m))
                        && r.value.product.vendor == form.product.vendor
                        && r.value.vendorInput == form.vendorInput
    ensures var p := WithInput(form.product, n, v);
            if (n == PurchaseDateInput || n == WarrantyPeriodInput) && Truthy(p.purchaseDate) && Truthy(p.warrantyPeriod)
            then
              match CalculateExpiryDate(p.purchaseDate.text, p.warrantyPeriod.text)
              case None => r.None?
              case Some(e) => r.Some? && r.value.product.expiryDate == Str(e)
            else r.Some? && r.value.product.expiryDate == form.product.expiryDate
  {
    var p := WithInput(form.product, n, v);
    if (n == PurchaseDateInput || n == WarrantyPeriodInput) && Truthy(p.purchaseDate) && Truthy(p.warrantyPeriod) then
      match CalculateExpiryDate(p.purchaseDate.text, p.warrantyPeriod.text)
      case None => None
      case Some(e) => Some(ProductForm(p.(expiryDate := Str(e)), form.vendorInput))
    else Some(ProductForm(p, form.vendorInput))
  }

  /** The two vendor inputs wired to `handleVendorChange`: the select and the free text. */
  datatype VendorInputName = VendorSelect | VendorText

  /** `handleVendorChange`: the changed vendor input takes the value and the other is emptied,
      so at most one of them names a vendor. */
  function VendorChange(form: ProductForm, n: VendorInputName, v: string): (r: ProductForm)
    ensures n == VendorSelect ==> r.product.vendor == Str(v) && r.vendorInput == Str("")
    ensures n == VendorText ==> r.vendorInput == Str(v) && r.product.vendor == Str("")
    ensures r.product.(vendor := form.product.vendor) == form.product
  {
    match n
    case VendorSelect => ProductForm(form.product.(vendor := Str(v)), Str(""))
    case VendorText => ProductForm(form.product.(vendor := Str("")), Str(v))
  }

  /** The serial box after one more serial: appended after a comma, or alone when the box
      was empty. */
  function Appended(box: Field, serial: string): (r: string)
    ensures Truthy(box) ==> r == box.text + "," + serial
    ensures !Truthy(box) ==> r == serial
  {
    if Truthy(box) then box.text + "," + serial else serial
  }

  /** `handleBarcodeInput` for a key press on an element holding `targetValue`: on Enter with a
      non-blank value, the trimmed value is appended to the serial box; anything else
      changes nothing. */
  function BarcodeInput(form: ProductForm, key: string, targetValue: string): (r: ProductForm)
    ensures key != "Enter" || IsBlank(targetValue) ==> r == form
    ensures key == "Enter" && !IsBlank(targetValue) ==>
              r == ProductForm(form.product.(serialBox := Str(Appended(form.product.serialBox, Trim(targetValue)))), form.vendorInput)
  {
    if key == "Enter" && !IsBlank(targetValue) then
      ProductForm(form.product.(serialBox := Str(Appended(form.product.serialBox, Trim(targetValue)))), form.vendorInput)
    else form
  }

  /** As written, the handler listens on the serial-box textarea itself, so the value it
      reads is the box's own content. */
  function SerialBoxKeyDown(form: ProductForm, key: string): ProductForm {
    BarcodeInput(form, key, TextOf(form.product.serialBox))
  }

  /** Pressing Enter in a non-blank serial box appends the box, trimmed, to itself: a trimmed
      box's items are all listed twice, so a box holding "A" becomes "A,A". */
  lemma SerialBoxKeyDownDuplicates(form: ProductForm, b: string)
    requires form.product.serialBox == Str(b) && !IsBlank(b)
    ensures SerialBoxKeyDown(form, "Enter").product.serialBox == Str(b + "," + Trim(b))
    ensures IsTrimmed(b) ==>
              SerialBoxKeyDown(form, "Enter").product.serialBox == Str(b + "," + b)
              && Split(b + "," + b, ',') == Split(b, ',') + Split(b, ',')
  {
    if IsTrimmed(b) {
      TrimFixedIffTrimmed(b);
      assert b + "," + b == b + [','] + b;
      SplitConcat(b, b, ',');
    }
  }

  /** The handler as evidently meant: the scanned serial comes from its own input, and each
      scan adds exactly that one serial as the last item of the box. */
  function ScanSerial(form: ProductForm, key: string, scanned: string): (r: ProductForm)
    ensures r.vendorInput == form.vendorInput
    ensures r.product.(serialBox := form.product.serialBox) == form.product
  {
    BarcodeInput(form, key, scanned)
  }

  /** After a scan of a serial without commas, the items of the box are the items it had
      followed by the trimmed serial. */
  lemma ScanAddsOneSerial(form: ProductForm, scanned: string)
    requires Truthy(form.product.serialBox) && !IsBlank(scanned) && ',' !in Trim(scanned)
    ensures var r := ScanSerial(form, "Enter", scanned);
            r.product.serialBox.Str?
            && Split(r.product.serialBox.text, ',') == Split(form.product.serialBox.text, ',') + [Trim(scanned)]
  {
    var box := form.product.serialBox.text;
    var t := Trim(scanned);
    assert box + "," + t == box + [','] + t;
    SplitConcat(box, t, ',');
    SplitWithoutSeparator(t, ',');
  }

  /** `formatSerialNumbers(serialBox)`: "" for an empty box, the box itself when it holds at
      most two items, and otherwise the first two items and how many more there are. */
  function FormatSerialNumbers(serialBox: Field): (r: string)
    ensures !Truthy(serialBox) ==> r == ""
    ensures Truthy(serialBox) && |Split(serialBox.text, ',')| <= 2 ==> r == serialBox.text
  {
    if !Truthy(serialBox) then ""
    else
      var serials := Split(serialBox.text, ',');
      if |serials| <= 2 then serialBox.text
      else serials[0] + ", " + serials[1] + "... +" + NatToString(|serials| - 2) + " more"
  }

  /** A box of three or more serials shows the first two and the count of the rest. */
  lemma FormatManySerials(serials: seq<string>)
    requires |serials| >= 3
    requires forall i :: 0 <= i < |serials| ==> ',' !in serials[i]
    ensures FormatSerialNumbers(Str(Join(serials, ',')))
            == serials[0] + ", " + serials[1] + "... +" + NatToString(|serials| - 2) + " more"
  {
    SplitJoin(serials, ',');
    var s := Join(serials, ',');
    assert s == serials[0] + [','] + Join(serials[1..], ',');
  }

  /** Whether the filter keeps a product: its name or its vendor matches the search. */
  predicate ProductMatches(p: Product, term: string) {
    (p.name.Str? && Matches(p.name.text, term)) || (p.vendor.Str? && Matches(p.vendor.text, term))
  }

  /** Whether the filter throws on a product: `toLowerCase` on a missing or null name, or on
      a missing or null vendor when the name does not match. */
  predicate FilterThrows(p: Product, term: string) {
    !p.name.Str? || (!Matches(p.name.text, term) && !p.vendor.Str?)
  }

  /** `filteredProducts`: the products whose lower-cased name or vendor contains the lower-cased
      search, in list order; None when the filter throws on some product. */
  function FilteredProducts(products: seq<Doc<Product>>, term: string): (r: Option<seq<Doc<Product>>>)
    ensures r.None? <==> exists i :: 0 <= i < |products| && FilterThrows(products[i].body, term)
    ensures r.Some? ==> r.value == Keep(products, (d: Doc<Product>) => ProductMatches(d.body, term))
  {
    if |products| == 0 then Some([])
    else
      var p := products[0].body;
      var rest := FilteredProducts(products[1..], term);
      assert forall i :: 1 <= i < |products| ==> products[i] == products[1..][i - 1];
      if FilterThrows(p, term) then None
      else if rest.None? then None
      else if ProductMatches(p, term) then Some([products[0]] + rest.value)
      else rest
  }

  /** With an empty search every product is shown, provided every product has a name. */
  lemma EmptySearchShowsAll(products: seq<Doc<Product>>)
    requires forall i :: 0 <= i < |products| ==> products[i].body.name.Str?
    ensures FilteredProducts(products, "") == Some(products)
  {
    forall i | 0 <= i < |products|
      ensures !FilterThrows(products[i].body, "") && ProductMatches(products[i].body, "")
    {
      MatchesEmptyQuery(products[i].body.name.text);
    }
    KeepAll(products, (d: Doc<Product>) => ProductMatches(d.body, ""));
  }

  /** What `handleSubmit` decides before any request: refuse with an alert, or send the data. */
  datatype Submission = Reject(message: string) | Submit(data: Product)

  /** `formData.x || ''`. */
  function OrEmpty(f: Field): string {
    if Truthy(f) then f.text else ""
  }

  /** `handleSubmit`'s checks, in order: a blank name, then no vendor in either input, then a
      quantity `parseInt` reads as negative, then a price `parseFloat` reads as zero or less.
      A form that passes is sent as it is, except that a non-blank typed vendor replaces the
      selected one. A quantity or price that reads as NaN passes. */
  function Validate(form: ProductForm): (r: Submission)
    ensures r.Submit? <==>
              Truthy(form.product.name) && !IsBlank(form.product.name.text)
              && !(IsBlank(OrEmpty(form.product.vendor)) && IsBlank(OrEmpty(form.vendorInput)))
              && !(form.product.quantity.Str? && ParseInt(form.product.quantity.text).Some?
                   && ParseInt(form.product.quantity.text).value < 0)
              && !(form.product.price.Str? && ParseFloat(form.product.price.text).Some?
                   && ParseFloat(form.product.price.text).value <= 0.0)
    ensures r.Submit? ==>
              r.data.(vendor := form.product.vendor) == form.product
              && r.data.vendor.Str? && !IsBlank(r.data.vendor.text)
              && (!IsBlank(OrEmpty(form.vendorInput)) ==> r.data.vendor == Str(OrEmpty(form.vendorInput)))
              && (IsBlank(OrEmpty(form.vendorInput)) ==> r.data.vendor == Str(OrEmpty(form.product.vendor)))
    ensures !Truthy(form.product.name) || IsBlank(form.product.name.text) ==> r == Reject("Product name is required")
  {
    var p := form.product;
    if !Truthy(p.name) || IsBlank(p.name.text) then Reject("Product name is required")
    else
      var vendorInput := OrEmpty(form.vendorInput);
      var vendor := OrEmpty(p.vendor);
      if IsBlank(vendor) && IsBlank(vendorInput) then Reject("Vendor is required")
      else
        var vendorToSubmit := if !IsBlank(vendorInput) then vendorInput else vendor;
        if p.quantity.Str? && ParseInt(p.quantity.text).Some? && ParseInt(p.quantity.text).value < 0 then
          Reject("Quantity cannot be negative")
        else if p.price.Str? && ParseFloat(p.price.text).Some? && ParseFloat(p.price.text).value <= 0.0 then
          Reject("Price must be greater than 0")
        else Submit(p.(vendor := Str(vendorToSubmit)))
  }

  /** A form the page accepts can still be refused by the server: the page checks neither the
      category nor the dates, so an accepted form with no category gets a 500. */
  lemma AcceptedFormMayLackCategory(form: ProductForm)
    requires Validate(form).Submit? && !RequiredField(form.product.category)
    ensures ProductModel.MissingPaths(Validate(form).data) != []
  {
  }

  class ProductsPageState {
    var user: Option<ClientUser>
    var products: seq<Doc<Product>>
    var form: ProductForm
    var editing: Option<Doc<Product>>
    var showModal: bool
    /** An error escaped rendering: with no error boundary React unmounts the page, which then
        shows nothing and runs no further handler. */
    var crashed: bool

    constructor (user: Option<ClientUser>, products: seq<Doc<Product>>)
      ensures this.user == user && this.products == products
      ensures form == EmptyForm && editing.None? && !showModal && !crashed
    {
      this.user := user;
      this.products := products;
      form := EmptyForm;
      editing := None;
      showModal := false;
      crashed := false;
    }

    /** The add button: with the "add" flag, open an empty-target modal. */
    method OpenAdd() returns (gate: Gate)
      modifies this
      ensures gate == CheckPermission(user, Add, DeniedMessage(Add))
      ensures gate == Granted ==> editing.None? && showModal && form == old(form) && products == old(products)
      ensures gate != Granted ==> unchanged(this)
    {
      gate := CheckPermission(user, Add, DeniedMessage(Add));
      if gate == Granted {
        editing := None;
        showModal := true;
      }
    }

    /** `handleEditProduct`: with the "edit" flag, edit a copy of the product. */
    method OpenEdit(product: Doc<Product>) returns (gate: Gate)
      modifies this
      ensures gate == CheckPermission(user, Edit, DeniedMessage(Edit))
      ensures gate == Granted ==>
                editing == Some(product) && form == ProductForm(product.body, Absent) && showModal
                && products == old(products)
      ensures gate != Granted ==> unchanged(this)
    {
      gate := CheckPermission(user, Edit, DeniedMessage(Edit));
      if gate == Granted {
        editing := Some(product);
        form := ProductForm(product.body, Absent);
        showModal := true;
      }
    }

    /** An input wired to `handleInputChange` changes. The update runs inside `setFormData`,
        so when it throws (false) React rethrows the error while rendering and the page
        crashes; no new form is ever rendered. */
    method ChangeInput(n: InputName, v: string) returns (ok: bool)
      modifies this
      ensures ok <==> InputChange(old(form), n, v).Some?
      ensures ok ==> form == InputChange(old(form), n, v).value && crashed == old(crashed)
      ensures !ok ==> crashed && form == old(form)
      ensures products == old(products) && editing == old(editing) && showModal == old(showModal)
    {
      var next := InputChange(form, n, v);
      ok := next.Some?;
      if ok {
        form := next.value;
      } else {
        crashed := true;
      }
    }

    /** One of the two vendor inputs changes. */
    method ChangeVendor(n: VendorInputName, v: string)
      modifies this
      ensures form == VendorChange(old(form), n, v)
      ensures products == old(products) && editing == old(editing) && showModal == old(showModal)
    {
      form := VendorChange(form, n, v);
    }

    /** A key press in the serial-box textarea, the only element wired to
        `handleBarcodeInput`: the value the handler reads is the box's own text. */
    method SerialBoxKey(key: string)
      modifies this
      ensures form == SerialBoxKeyDown(old(form), key)
      ensures products == old(products) && editing == old(editing) && showModal == old(showModal)
      ensures crashed == old(crashed)
    {
      form := SerialBoxKeyDown(form, key);
    }

    /** `handleSubmit`: a refused form sends nothing and changes nothing. Otherwise the server's
        answer (`reply`; None when the request fails) replaces the edited product, matched by
        the id of the answer, or is appended; then the modal closes and the form is reset. */
    method SubmitForm(reply: Option<Doc<Product>>) returns (decision: Submission)
      modifies this
      ensures decision == Validate(old(form))
      ensures decision.Reject? || reply.None? ==> unchanged(this)
      ensures decision.Submit? && reply.Some? ==>
                (if old(editing).Some?
                 then products == UpdateWhereId(old(products), reply.value.id, (d: Doc<Product>) => reply.value)
                 else products == old(products) + [reply.value])
                && !showModal && form == EmptyForm && editing == old(editing)
    {
      decision := Validate(form);
      if decision.Reject? || reply.None? {
        return;
      }
      if editing.Some? {
        products := UpdateWhereId(products, reply.value.id, (d: Doc<Product>) => reply.value);
      } else {
        products := products + [reply.value];
      }
      showModal := false;
      form := EmptyForm;
    }

    /** `handleDeleteProduct`: with the "delete" flag, a confirmation, and a request that
        succeeds (`ok`), exactly the products with that id leave the list. */
    method DeleteProduct(id: Id, confirmed: bool, ok: bool) returns (gate: Gate)
      modifies this
      ensures gate == CheckPermission(user, Delete, DeniedMessage(Delete))
      ensures gate == Granted && confirmed && ok ==> products == WithoutId(old(products), id)
      ensures !(gate == Granted && confirmed && ok) ==> products == old(products)
      ensures form == old(form) && editing == old(editing) && showModal == old(showModal) && user == old(user)
    {
      gate := CheckPermission(user, Delete, DeniedMessage(Delete));
      if gate == Granted && confirmed && ok {
        products := WithoutId(products, id);
      }
    }
  }
}
