/** The vendor routes of `routes/vendors.js` over the `vendors` collection. */
module Vendors {
  import opened Wrappers
  import opened Docs
  import opened VendorModel

  datatype Body =
    | Message(text: string)
    | Text(text: string)
    | VendorJson(vendor: Doc<Vendor>)
    | VendorList(vendors: seq<Doc<Vendor>>)

  datatype Reply = Reply(status: int, body: Body)

  /** Whether a document other than the one at index `k` has the email `e`. */
  predicate EmailTakenByOther(vendors: seq<Doc<Vendor>>, k: int, e: string) {
    exists i :: 0 <= i < |vendors| && i != k && vendors[i].body.email == e
  }

  class VendorStore {
    var vendors: seq<Doc<Vendor>>
    var nextId: nat

    /** Ids are distinct and below the counter, and the unique index on `email` holds. */
    ghost predicate Valid()
      reads this
    {
      DistinctIds(vendors) && UniqueBy(vendors, VendorEmail)
      && forall i :: 0 <= i < |vendors| ==> vendors[i].id < nextId
    }

    constructor ()
      ensures Valid() && vendors == [] && nextId == 0
    {
      vendors := [];
      nextId := 0;
    }

    /** `POST /`: 500 and no change when a required path is missing or the email is
        taken; otherwise the vendor is appended and returned with 201. */
    method Create(v: VendorInput) returns (reply: Reply)
      requires Valid()
      modifies this
      ensures Valid()
      ensures if MissingPaths(v) != [] || EmailTakenByOther(old(vendors), -1, v.email.value) then
                reply == Reply(500, Message("Error adding vendor"))
                && vendors == old(vendors) && nextId == old(nextId)
              else
                vendors == old(vendors) + [Doc(old(nextId), NewVendor(v))] && nextId == old(nextId) + 1
                && reply == Reply(201, VendorJson(Doc(old(nextId), NewVendor(v))))
    {
      if MissingPaths(v) != [] || EmailTakenByOther(vendors, -1, v.email.value) {
        reply := Reply(500, Message("Error adding vendor"));
        return;
      }
      var doc := Doc(nextId, NewVendor(v));
      assert forall i :: 0 <= i < |vendors| ==> VendorEmail(vendors[i]) != VendorEmail(doc);
      UniqueAppend(vendors, doc, IdOf);
      UniqueAppend(vendors, doc, VendorEmail);
      vendors := vendors + [doc];
      nextId := nextId + 1;
      reply := Reply(201, VendorJson(doc));
    }

    /** `GET /`: every vendor in natural order. */
    method List() returns (reply: Reply)
      ensures reply.status == 200 && reply.body.VendorList? && reply.body.vendors == vendors
    {
      reply := Reply(200, VendorList(vendors));
    }

    /** `PUT /:vendorId`: 404 for an unknown id; 500 and no change when the new email is
        another vendor's; otherwise that vendor's present paths are overwritten and the
        updated vendor is returned. */
    method Update(id: Id, v: VendorInput) returns (reply: Reply)
      requires Valid()
      modifies this
      ensures Valid() && nextId == old(nextId)
      ensures match IndexWhere(old(vendors), IdOf, id)
              case None => reply == Reply(404, Message("Vendor not found")) && vendors == old(vendors)
              case Some(k) =>
                if v.email.Some? && EmailTakenByOther(old(vendors), k, v.email.value) then
                  reply == Reply(500, Message("Error updating vendor")) && vendors == old(vendors)
                else
                  vendors == old(vendors)[k := Doc(id, Merge(old(vendors)[k].body, v))]
                  && reply == Reply(200, VendorJson(vendors[k]))
    {
      var found := IndexWhere(vendors, IdOf, id);
      if found.None? {
        reply := Reply(404, Message("Vendor not found"));
        return;
      }
      var k := found.value;
      if v.email.Some? && EmailTakenByOther(vendors, k, v.email.value) {
        reply := Reply(500, Message("Error updating vendor"));
        return;
      }
      var doc := Doc(id, Merge(vendors[k].body, v));
      assert forall i :: 0 <= i < |vendors| && i != k ==> VendorEmail(vendors[i]) != VendorEmail(doc);
      UniqueUpdate(vendors, k, doc, IdOf);
      UniqueUpdate(vendors, k, doc, VendorEmail);
      vendors := vendors[k := doc];
      reply := Reply(200, VendorJson(doc));
    }

    /** `DELETE /:vendorId`: the vendor with that id, if any, is removed, and the reply is
        200 in either case. */
    method Delete(id: Id) returns (reply: Reply)
      requires Valid()
      modifies this
      ensures Valid() && nextId == old(nextId)
      ensures vendors == WithoutId(old(vendors), id)
      ensures reply == Reply(200, Text("Vendor deleted successfully"))
    {
      var found := IndexWhere(vendors, IdOf, id);
      if found.Some? {
        WithoutIdRemovesOne(vendors, found.value);
        UniqueRemove(vendors, found.value, IdOf);
        UniqueRemove(vendors, found.value, VendorEmail);
      } else {
        WithoutAbsentId(vendors, id);
      }
      vendors := WithoutId(vendors, id);
      reply := Reply(200, Text("Vendor deleted successfully"));
    }
  }
}
