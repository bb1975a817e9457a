/** The product routes of `routes/products.js` over the `products` collection. */
module Products {
  import opened Wrappers
  import opened Docs
  import opened ProductModel

  datatype Body =
    | Message(text: string)
    | Failure(message: string, error: string)
    | ProductJson(product: Doc<Product>)
    | ProductList(products: seq<Doc<Product>>)

  datatype Reply = Reply(status: int, body: Body)

  class ProductStore {
    var products: seq<Doc<Product>>
    var nextId: nat

    /** Ids are distinct and below the counter. */
    ghost predicate Valid()
      reads this
    {
      DistinctIds(products) && forall i :: 0 <= i < |products| ==> products[i].id < nextId
    }

    constructor ()
      ensures Valid() && products == [] && nextId == 0
    {
      products := [];
      nextId := 0;
    }

    /** `POST /`: the body is stored as sent when every required path is there (201), and
        otherwise refused with 500 and the validation error naming the missing paths. The
        server computes nothing: an `expiryDate` is stored as the client sent it. */
    method Create(body: ProductInput) returns (reply: Reply)
      requires Valid()
      modifies this
      ensures Valid()
      ensures MissingPaths(body) != [] ==>
                reply == Reply(500, Failure("Error adding product", ValidationMessage(MissingPaths(body))))
                && products == old(products) && nextId == old(nextId)
      ensures MissingPaths(body) == [] ==>
                products == old(products) + [Doc(old(nextId), body)] && nextId == old(nextId) + 1
                && reply == Reply(201, ProductJson(Doc(old(nextId), body)))
    {
      var missing := MissingPaths(body);
      if missing != [] {
        reply := Reply(500, Failure("Error adding product", ValidationMessage(missing)));
        return;
      }
      var doc := Doc(nextId, body);
      UniqueAppend(products, doc, IdOf);
      products := products + [doc];
      nextId := nextId + 1;
      reply := Reply(201, ProductJson(doc));
    }

    /** `GET /`: every product in natural order. The `populate` calls name paths that hold
        plain strings without a `ref`, so they leave the documents as stored. */
    method List() returns (reply: Reply)
      ensures reply.status == 200 && reply.body.ProductList? && reply.body.products == products
    {
      reply := Reply(200, ProductList(products));
    }

    /** `PUT /:id`: 404 for an unknown id; otherwise that product's paths that the body
        carries are overwritten, unchecked, and the updated product is returned. */
    method Update(id: Id, body: ProductInput) returns (reply: Reply)
      requires Valid()
      modifies this
      ensures Valid() && nextId == old(nextId)
      ensures match IndexWhere(old(products), IdOf, id)
              case None => reply == Reply(404, Message("Product not found")) && products == old(products)
              case Some(k) =>
                products == old(products)[k := Doc(id, Merge(old(products)[k].body, body))]
                && reply == Reply(200, ProductJson(products[k]))
    {
      var found := IndexWhere(products, IdOf, id);
      if found.None? {
        reply := Reply(404, Message("Product not found"));
        return;
      }
      var k := found.value;
      var doc := Doc(id, Merge(products[k].body, body));
      UniqueUpdate(products, k, doc, IdOf);
      products := products[k := doc];
      reply := Reply(200, ProductJson(doc));
    }

    /** `DELETE /:id`: 404 for an unknown id; otherwise that product, and only it, is removed. */
    method Delete(id: Id) returns (reply: Reply)
      requires Valid()
      modifies this
      ensures Valid() && nextId == old(nextId)
      ensures match IndexWhere(old(products), IdOf, id)
              case None => reply == Reply(404, Message("Product not found")) && products == old(products)
              case Some(k) =>
                products == old(products)[..k] + old(products)[k + 1..]
                && reply == Reply(200, Message("Product deleted successfully"))
    {
      var found := IndexWhere(products, IdOf, id);
      if found.None? {
        reply := Reply(404, Message("Product not found"));
        return;
      }
      var k := found.value;
      WithoutIdRemovesOne(products, k);
      UniqueRemove(products, k, IdOf);
      products := WithoutId(products, id);
      reply := Reply(200, Message("Product deleted successfully"));
    }
  }
}
