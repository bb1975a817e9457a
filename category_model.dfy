/** The category schema of `models/Category.js`: a required, unique name; a required type
    restricted to "Purchased" or "Rented"; and timestamps. */
module CategoryModel {
  import opened Wrappers
  import opened Docs
  import opened Mongoose

  /** `type` is a reserved word here, so the path `type` is the field `categoryType`. */
  datatype Category = Category(name: string, categoryType: string, createdAt: int, updatedAt: int)

  function CategoryName(d: Doc<Category>): string {
    d.body.name
  }

  /** The values the enum validator admits. */
  predicate IsCategoryType(t: string) {
    t == "Purchased" || t == "Rented"
  }

  datatype CategoryInput = CategoryInput(name: Option<string>, categoryType: Option<string>)

  /** The paths whose validators fail on create, in schema order: `required` on both, and
      the enum on a type that is there. */
  function InvalidPaths(c: CategoryInput): (r: seq<string>)
    ensures r == [] <==> Required(c.name) && Required(c.categoryType) && IsCategoryType(c.categoryType.value)
    ensures |r| <= 2
  {
    (if Required(c.name) then [] else ["name"])
    + (if Required(c.categoryType) && IsCategoryType(c.categoryType.value) then [] else ["type"])
  }

  /** The category `new Category({ name, type }).save()` stores once validation passed. */
  function NewCategory(c: CategoryInput, now: int): (r: Category)
    requires InvalidPaths(c) == []
    ensures r.name == c.name.value && r.categoryType == c.categoryType.value
    ensures r.name != "" && IsCategoryType(r.categoryType)
    ensures r.createdAt == now && r.updatedAt == now
  {
    Category(c.name.value, c.categoryType.value, now, now)
  }

  /** `findByIdAndUpdate(id, { name, type })`: present paths overwrite, `updatedAt` moves to
      `now`, and neither `required` nor the enum is checked. */
  function Merge(stored: Category, c: CategoryInput, now: int): (r: Category)
    ensures c.name.Some? ==> r.name == c.name.value
    ensures c.name.None? ==> r.name == stored.name
    ensures c.categoryType.Some? ==> r.categoryType == c.categoryType.value
    ensures c.categoryType.None? ==> r.categoryType == stored.categoryType
    ensures r.createdAt == stored.createdAt && r.updatedAt == now
  {
    Category(Overwrite(stored.name, c.name), Overwrite(stored.categoryType, c.categoryType), stored.createdAt, now)
  }
}
