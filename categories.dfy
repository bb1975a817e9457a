/** The category routes of `routes/categories.js` over the `categories` collection. */
module Categories {
  import opened Wrappers
  import opened Docs
  import opened CategoryModel

  datatype Body =
    | Message(text: string)
    | Text(text: string)
    | CategoryJson(category: Doc<Category>)
    | CategoryList(categories: seq<Doc<Category>>)

  datatype Reply = Reply(status: int, body: Body)

  /** Whether a document other than the one at index `k` has the name `n`. */
  predicate NameTakenByOther(categories: seq<Doc<Category>>, k: int, n: string) {
    exists i :: 0 <= i < |categories| && i != k && categories[i].body.name == n
  }

  class CategoryStore {
    var categories: seq<Doc<Category>>
    var nextId: nat

    /** Ids are distinct and below the counter, and the unique index on `name` holds. */
    ghost predicate Valid()
      reads this
    {
      DistinctIds(categories) && UniqueBy(categories, CategoryName)
      && forall i :: 0 <= i < |categories| ==> categories[i].id < nextId
    }

    constructor ()
      ensures Valid() && categories == [] && nextId == 0
    {
      categories := [];
      nextId := 0;
    }

    /** `POST /`: 500 and no change when a validator fails or the name is taken; otherwise
        the category is appended and returned with 201. */
    method Create(c: CategoryInput, now: int) returns (reply: Reply)
      requires Valid()
      modifies this
      ensures Valid()
      ensures if InvalidPaths(c) != [] || NameTakenByOther(old(categories), -1, c.name.value) then
                reply == Reply(500, Message("Error adding category"))
                && categories == old(categories) && nextId == old(nextId)
              else
                categories == old(categories) + [Doc(old(nextId), NewCategory(c, now))]
                && nextId == old(nextId) + 1
                && reply == Reply(201, CategoryJson(Doc(old(nextId), NewCategory(c, now))))
    {
      if InvalidPaths(c) != [] || NameTakenByOther(categories, -1, c.name.value) {
        reply := Reply(500, Message("Error adding category"));
        return;
      }
      var doc := Doc(nextId, NewCategory(c, now));
      assert forall i :: 0 <= i < |categories| ==> CategoryName(categories[i]) != CategoryName(doc);
      UniqueAppend(categories, doc, IdOf);
      UniqueAppend(categories, doc, CategoryName);
      categories := categories + [doc];
      nextId := nextId + 1;
      reply := Reply(201, CategoryJson(doc));
    }

    /** `GET /`: every category in natural order. */
    method List() returns (reply: Reply)
      ensures reply.status == 200 && reply.body.CategoryList? && reply.body.categories == categories
    {
      reply := Reply(200, CategoryList(categories));
    }

    /** `PUT /:categoryId`: 404 for an unknown id; 500 and no change when the new name is
        another category's; otherwise that category's present paths are overwritten. */
    method Update(id: Id, c: CategoryInput, now: int) returns (reply: Reply)
      requires Valid()
      modifies this
      ensures Valid() && nextId == old(nextId)
      ensures match IndexWhere(old(categories), IdOf, id)
              case None => reply == Reply(404, Message("Category not found")) && categories == old(categories)
              case Some(k) =>
                if c.name.Some? && NameTakenByOther(old(categories), k, c.name.value) then
                  reply == Reply(500, Message("Error updating category")) && categories == old(categories)
                else
                  categories == old(categories)[k := Doc(id, Merge(old(categories)[k].body, c, now))]
                  && reply == Reply(200, CategoryJson(categories[k]))
    {
      var found := IndexWhere(categories, IdOf, id);
      if found.None? {
        reply := Reply(404, Message("Category not found"));
        return;
      }
      var k := found.value;
      if c.name.Some? && NameTakenByOther(categories, k, c.name.value) {
        reply := Reply(500, Message("Error updating category"));
        return;
      }
      var doc := Doc(id, Merge(categories[k].body, c, now));
      assert forall i :: 0 <= i < |categories| && i != k ==> CategoryName(categories[i]) != CategoryName(doc);
      UniqueUpdate(categories, k, doc, IdOf);
      UniqueUpdate(categories, k, doc, CategoryName);
      categories := categories[k := doc];
      reply := Reply(200, CategoryJson(doc));
    }

    /** `DELETE /:categoryId`: the category with that id, if any, is removed, and the reply
        is 200 in either case. */
    method Delete(id: Id) returns (reply: Reply)
      requires Valid()
      modifies this
      ensures Valid() && nextId == old(nextId)
      ensures categories == WithoutId(old(categories), id)
      ensures reply == Reply(200, Text("Category deleted successfully"))
    {
      var found := IndexWhere(categories, IdOf, id);
      if found.Some? {
        WithoutIdRemovesOne(categories, found.value);
        UniqueRemove(categories, found.value, IdOf);
        UniqueRemove(categories, found.value, CategoryName);
      } else {
        WithoutAbsentId(categories, id);
      }
      categories := WithoutId(categories, id);
      reply := Reply(200, Text("Category deleted successfully"));
    }
  }
}
