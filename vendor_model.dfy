/** The vendor schema of `models/Vendor.js`: five required strings, the email unique. */
module VendorModel {
  import opened Wrappers
  import opened Docs
  import opened Mongoose

  datatype Vendor = Vendor(name: string, location: string, department: string, email: string, phone: string)

  function VendorEmail(d: Doc<Vendor>): string {
    d.body.email
  }

  /** The five paths of a create or update body; None is a key the body does not carry. */
  datatype VendorInput = VendorInput(name: Option<string>, location: Option<string>, department: Option<string>,
                                     email: Option<string>, phone: Option<string>)

  /** The paths whose `required` validator fails, in schema order. */
  function MissingPaths(v: VendorInput): (r: seq<string>)
    ensures r == [] <==> Required(v.name) && Required(v.location) && Required(v.department)
                         && Required(v.email) && Required(v.phone)
    ensures |r| <= 5
  {
    (if Required(v.name) then [] else ["name"])
    + (if Required(v.location) then [] else ["location"])
    + (if Required(v.department) then [] else ["department"])
    + (if Required(v.email) then [] else ["email"])
    + (if Required(v.phone) then [] else ["phone"])
  }

  /** The vendor `new Vendor(body).save()` stores once validation passed. */
  function NewVendor(v: VendorInput): (r: Vendor)
    requires MissingPaths(v) == []
    ensures r.name != "" && r.location != "" && r.department != "" && r.email != "" && r.phone != ""
    ensures Merge(r, v) == r
  {
    Vendor(v.name.value, v.location.value, v.department.value, v.email.value, v.phone.value)
  }

  /** `findByIdAndUpdate(id, body)`: every path the body carries overwrites the stored one,
      the others stay; no validator runs. */
  function Merge(stored: Vendor, v: VendorInput): (r: Vendor)
    ensures v.name.Some? ==> r.name == v.name.value
    ensures v.name.None? ==> r.name == stored.name
    ensures v.location.Some? ==> r.location == v.location.value
    ensures v.location.None? ==> r.location == stored.location
    ensures v.department.Some? ==> r.department == v.department.value
    ensures v.department.None? ==> r.department == stored.department
    ensures v.email.Some? ==> r.email == v.email.value
    ensures v.email.None? ==> r.email == stored.email
    ensures v.phone.Some? ==> r.phone == v.phone.value
    ensures v.phone.None? ==> r.phone == stored.phone
  {
    Vendor(Overwrite(stored.name, v.name), Overwrite(stored.location, v.location),
           Overwrite(stored.department, v.department), Overwrite(stored.email, v.email),
           Overwrite(stored.phone, v.phone))
  }

  /** Sending the same update twice leaves the vendor as sending it once. */
  lemma MergeIdempotent(stored: Vendor, v: VendorInput)
    ensures Merge(Merge(stored, v), v) == Merge(stored, v)
  {
  }

  /** An update that carries no path leaves the vendor as it is. */
  lemma MergeNothing(stored: Vendor)
    ensures Merge(stored, VendorInput(None, None, None, None, None)) == stored
  {
  }
}
