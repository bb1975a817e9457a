/** The decisions of the vendors page, `src/pages/Vendors.jsx`: its own permission check,
    the gated buttons, which draft an input edits, how the list follows add, update and
    delete, and the search. */
module VendorsPage {
  import opened Wrappers
  import opened Docs
  import opened VendorModel
  import opened UserModel
  import opened ClientCommon

  /** The `newVendor` draft the page starts with and returns to after an add. */
  const EmptyVendor := Vendor("", "", "", "", "")

  /** The page's `checkPermission`: silently refused without a user, refused with an alert
      when the flag is not truthy, granted otherwise. */
  function CheckVendorPermission(user: Option<ClientUser>, a: Action): (g: Gate)
    ensures g == Granted <==> Permitted(user, a)
    ensures g == Silent <==> user.None?
    ensures g.Alerted? ==> g.message == "You do not have permission to " + ActionName(a) + " vendors."
  {
    if user.None? then Silent
    else if !Permitted(user, a) then Alerted("You do not have permission to " + ActionName(a) + " vendors.")
    else Granted
  }

  /** The five inputs of the vendor form. */
  datatype VendorField = NameField | LocationField | DepartmentField | EmailField | PhoneField

  /** The value an input of the form shows for a vendor. */
  function FieldOf(v: Vendor, f: VendorField): string {
    match f
    case NameField => v.name
    case LocationField => v.location
    case DepartmentField => v.department
    case EmailField => v.email
    case PhoneField => v.phone
  }

  /** `{ ...vendor, [name]: value }`: the named input takes the value and the other four are
      kept. */
  function SetField(v: Vendor, f: VendorField, value: string): (r: Vendor)
    ensures FieldOf(r, f) == value
    ensures forall g :: g != f ==> FieldOf(r, g) == FieldOf(v, g)
  {
    match f
    case NameField => v.(name := value)
    case LocationField => v.(location := value)
    case DepartmentField => v.(department := value)
    case EmailField => v.(email := value)
    case PhoneField => v.(phone := value)
  }

  /** Typing back the value an input already shows changes nothing. */
  lemma SetFieldUnchanged(v: Vendor, f: VendorField)
    ensures SetField(v, f, FieldOf(v, f)) == v
  {
  }

  /** `filteredVendors`: the vendors whose lower-cased name contains the lower-cased query, in
      list order. */
  function FilteredVendors(vendors: seq<Doc<Vendor>>, query: string): (r: seq<Doc<Vendor>>)
    ensures forall i :: 0 <= i < |r| ==> r[i] in vendors && Matches(r[i].body.name, query)
    ensures forall i :: 0 <= i < |vendors| && Matches(vendors[i].body.name, query) ==> vendors[i] in r
  {
    Keep(vendors, (d: Doc<Vendor>) => Matches(d.body.name, query))
  }

  /** An empty query shows every vendor. */
  lemma EmptyQueryShowsAllVendors(vendors: seq<Doc<Vendor>>)
    ensures FilteredVendors(vendors, "") == vendors
  {
    forall i | 0 <= i < |vendors| ensures Matches(vendors[i].body.name, "") {
      MatchesEmptyQuery(vendors[i].body.name);
    }
    KeepAll(vendors, (d: Doc<Vendor>) => Matches(d.body.name, ""));
  }

  class VendorsPageState {
    var user: Option<ClientUser>
    var vendors: seq<Doc<Vendor>>
    var newVendor: Vendor
    var editVendor: Option<Doc<Vendor>>
    var showModal: bool

    constructor (user: Option<ClientUser>, vendors: seq<Doc<Vendor>>)
      ensures this.user == user && this.vendors == vendors
      ensures newVendor == EmptyVendor && editVendor.None? && !showModal
    {
      this.user := user;
      this.vendors := vendors;
      newVendor := EmptyVendor;
      editVendor := None;
      showModal := false;
    }

    /** The add button: with the "add" flag, open the form for a new vendor. */
    method AddButton() returns (gate: Gate)
      modifies this
      ensures gate == CheckVendorPermission(user, Add)
      ensures gate == Granted ==> editVendor.None? && showModal && vendors == old(vendors) && newVendor == old(newVendor)
      ensures gate != Granted ==> unchanged(this)
    {
      gate := CheckVendorPermission(user, Add);
      if gate == Granted {
        editVendor := None;
        showModal := true;
      }
    }

    /** The edit button of a row: with the "edit" flag, open the form on that vendor. */
    method EditButton(vendor: Doc<Vendor>) returns (gate: Gate)
      modifies this
      ensures gate == CheckVendorPermission(user, Edit)
      ensures gate == Granted ==> editVendor == Some(vendor) && showModal && vendors == old(vendors) && newVendor == old(newVendor)
      ensures gate != Granted ==> unchanged(this)
    {
      gate := CheckVendorPermission(user, Edit);
      if gate == Granted {
        editVendor := Some(vendor);
        showModal := true;
      }
    }

    /** The delete button of a row and `handleDeleteVendor`: with the "delete" flag, a
        confirmation and a request that succeeds (`ok`), exactly the vendors with that id
        leave the list. */
    method DeleteButton(id: Id, confirmed: bool, ok: bool) returns (gate: Gate)
      modifies this
      ensures gate == CheckVendorPermission(user, Delete)
      ensures gate == Granted && confirmed && ok ==> vendors == WithoutId(old(vendors), id)
      ensures !(gate == Granted && confirmed && ok) ==> vendors == old(vendors)
      ensures newVendor == old(newVendor) && editVendor == old(editVendor) && showModal == old(showModal)
    {
      gate := CheckVendorPermission(user, Delete);
      if gate == Granted && confirmed && ok {
        vendors := WithoutId(vendors, id);
      }
    }

    /** The form's cancel button: the modal closes; the vendor being edited stays selected. */
    method CloseModal()
      modifies this
      ensures !showModal
      ensures vendors == old(vendors) && newVendor == old(newVendor) && editVendor == old(editVendor)
    {
      showModal := false;
    }

    /** `handleInputChange`: the vendor being edited changes when there is one, the new
        vendor's draft otherwise. */
    method ChangeInput(f: VendorField, value: string)
      modifies this
      ensures vendors == old(vendors) && showModal == old(showModal)
      ensures old(editVendor).Some? ==>
                editVendor == Some(Doc(old(editVendor).value.id, SetField(old(editVendor).value.body, f, value)))
                && newVendor == old(newVendor)
      ensures old(editVendor).None? ==> newVendor == SetField(old(newVendor), f, value) && editVendor.None?
    {
      if editVendor.Some? {
        editVendor := Some(Doc(editVendor.value.id, SetField(editVendor.value.body, f, value)));
      } else {
        newVendor := SetField(newVendor, f, value);
      }
    }

    /** The form's submit: `handleUpdateVendor` when a vendor is being edited, `handleAddVendor`
        otherwise; neither checks a permission. With the server's answer (`reply`; None when
        the request fails), an update replaces the entries with the edited id by the answer and
        ends the edit; an add appends the answer and resets the draft. */
    method SubmitForm(reply: Option<Doc<Vendor>>)
      modifies this
      ensures reply.None? ==> unchanged(this)
      ensures reply.Some? && old(editVendor).Some? ==>
                vendors == UpdateWhereId(old(vendors), old(editVendor).value.id, (d: Doc<Vendor>) => reply.value)
                && editVendor.None? && !showModal && newVendor == old(newVendor)
      ensures reply.Some? && old(editVendor).None? ==>
                vendors == old(vendors) + [reply.value] && newVendor == EmptyVendor && !showModal
                && editVendor.None?
    {
      if reply.None? {
        return;
      }
      if editVendor.Some? {
        var id := editVendor.value.id;
        vendors := UpdateWhereId(vendors, id, (d: Doc<Vendor>) => reply.value);
        editVendor := None;
      } else {
        vendors := vendors + [reply.value];
        newVendor := EmptyVendor;
      }
      showModal := false;
    }
  }
}
