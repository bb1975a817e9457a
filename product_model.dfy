/** The product schema of `models/Product.js`: ten String paths, all required except
    `description` and `serialBox`. Prices, quantities and dates are stored as text. */
module ProductModel {
  import opened Wrappers
  import opened JsString
  import opened Mongoose

  datatype Product = Product(name: Field, description: Field, vendor: Field, category: Field,
                             quantity: Field, price: Field, serialBox: Field,
                             purchaseDate: Field, warrantyPeriod: Field, expiryDate: Field)

  /** A request body cast to the schema: keys outside it are dropped, the rest kept as sent. */
  type ProductInput = Product

  /** The paths whose `required` validator fails (missing, null or ""), in schema order. */
  function MissingPaths(p: Product): (r: seq<string>)
    ensures r == [] <==> RequiredField(p.name) && RequiredField(p.vendor) && RequiredField(p.category)
                         && RequiredField(p.quantity) && RequiredField(p.price)
                         && RequiredField(p.purchaseDate) && RequiredField(p.warrantyPeriod)
                         && RequiredField(p.expiryDate)
  {
    (if RequiredField(p.name) then [] else ["name"])
    + (if RequiredField(p.vendor) then [] else ["vendor"])
    + (if RequiredField(p.category) then [] else ["category"])
    + (if RequiredField(p.quantity) then [] else ["quantity"])
    + (if RequiredField(p.price) then [] else ["price"])
    + (if RequiredField(p.purchaseDate) then [] else ["purchaseDate"])
    + (if RequiredField(p.warrantyPeriod) then [] else ["warrantyPeriod"])
    + (if RequiredField(p.expiryDate) then [] else ["expiryDate"])
  }

  /** One entry of a validation error's message. */
  function RequiredMessage(path: string): string {
    path + ": Path `" + path + "` is required."
  }

  function RequiredMessages(paths: seq<string>): (r: seq<string>)
    ensures |r| == |paths|
    ensures forall i :: 0 <= i < |r| ==> r[i] == RequiredMessage(paths[i])
  {
    if |paths| == 0 then [] else [RequiredMessage(paths[0])] + RequiredMessages(paths[1..])
  }

  /** The `message` of the validation error `save()` rejects with. */
  function ValidationMessage(paths: seq<string>): (r: string)
    ensures "Product validation failed: " <= r
  {
    "Product validation failed: " + JoinWith(RequiredMessages(paths), ", ")
  }

  function JoinWith(parts: seq<string>, sep: string): string {
    if |parts| == 0 then ""
    else if |parts| == 1 then parts[0]
    else parts[0] + sep + JoinWith(parts[1..], sep)
  }

  /** `findByIdAndUpdate(id, req.body)`: every path the body carries, null included,
      overwrites the stored one; no validator runs. */
  function Merge(stored: Product, body: ProductInput): (r: Product)
    ensures body.name.Absent? ==> r.name == stored.name
    ensures !body.name.Absent? ==> r.name == body.name
    ensures body.description.Absent? ==> r.description == stored.description
    ensures !body.description.Absent? ==> r.description == body.description
    ensures body.vendor.Absent? ==> r.vendor == stored.vendor
    ensures !body.vendor.Absent? ==> r.vendor == body.vendor
    ensures body.category.Absent? ==> r.category == stored.category
    ensures !body.category.Absent? ==> r.category == body.category
    ensures body.quantity.Absent? ==> r.quantity == stored.quantity
    ensures !body.quantity.Absent? ==> r.quantity == body.quantity
    ensures body.price.Absent? ==> r.price == stored.price
    ensures !body.price.Absent? ==> r.price == body.price
    ensures body.serialBox.Absent? ==> r.serialBox == stored.serialBox
    ensures !body.serialBox.Absent? ==> r.serialBox == body.serialBox
    ensures body.purchaseDate.Absent? ==> r.purchaseDate == stored.purchaseDate
    ensures !body.purchaseDate.Absent? ==> r.purchaseDate == body.purchaseDate
    ensures body.warrantyPeriod.Absent? ==> r.warrantyPeriod == stored.warrantyPeriod
    ensures !body.warrantyPeriod.Absent? ==> r.warrantyPeriod == body.warrantyPeriod
    ensures body.expiryDate.Absent? ==> r.expiryDate == stored.expiryDate
    ensures !body.expiryDate.Absent? ==> r.expiryDate == body.expiryDate
    ensures body == Product(Absent, Absent, Absent, Absent, Absent, Absent, Absent, Absent, Absent, Absent) ==> r == stored
  {
    Product(OverwriteField(stored.name, body.name), OverwriteField(stored.description, body.description),
            OverwriteField(stored.vendor, body.vendor), OverwriteField(stored.category, body.category),
            OverwriteField(stored.quantity, body.quantity), OverwriteField(stored.price, body.price),
            OverwriteField(stored.serialBox, body.serialBox), OverwriteField(stored.purchaseDate, body.purchaseDate),
            OverwriteField(stored.warrantyPeriod, body.warrantyPeriod), OverwriteField(stored.expiryDate, body.expiryDate))
  }

  /** Sending the same update twice leaves the product as sending it once. */
  lemma MergeIdempotent(stored: Product, body: ProductInput)
    ensures Merge(Merge(stored, body), body) == Merge(stored, body)
  {
  }
}
