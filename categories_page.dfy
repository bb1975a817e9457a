/** The decisions of the categories page, `src/pages/Categories.jsx`: the permission check,
    which draft an input edits, how the list follows add, edit and delete, and the search. */
module CategoriesPage {
  import opened Wrappers
  import opened Docs
  import opened CategoryModel
  import opened UserModel
  import opened ClientCommon

  /** The `newCategory` draft. */
  datatype CategoryDraft = CategoryDraft(name: string, categoryType: string)

  /** The draft the page starts with and returns to after an add. */
  const EmptyDraft := CategoryDraft("", "Purchased")

  /** The two inputs of the add and edit forms, `name` and `type`. */
  datatype CategoryInputName = NameInput | TypeInput

  function DeniedMessage(a: Action): string {
    "Permission Denied: You do not have permission to " + ActionName(a) + " categories."
  }

  /** The value an input of the form shows for a draft. */
  function InputOf(d: CategoryDraft, n: CategoryInputName): string {
    match n
    case NameInput => d.name
    case TypeInput => d.categoryType
  }

  /** `{ ...draft, [name]: value }`: the named input takes the value and the other is kept. */
  function SetDraft(d: CategoryDraft, n: CategoryInputName, v: string): (r: CategoryDraft)
    ensures InputOf(r, n) == v
    ensures forall m :: m != n ==> InputOf(r, m) == InputOf(d, m)
  {
    match n
    case NameInput => d.(name := v)
    case TypeInput => d.(categoryType := v)
  }

  /** The name and type of a category, as the edit form shows them. */
  function DraftOf(c: Category): CategoryDraft {
    CategoryDraft(c.name, c.categoryType)
  }

  /** The same update on the category being edited: its name and type change as a draft's
      would, and its timestamps are kept. */
  function SetCategory(c: Category, n: CategoryInputName, v: string): (r: Category)
    ensures DraftOf(r) == SetDraft(DraftOf(c), n, v)
    ensures r.createdAt == c.createdAt && r.updatedAt == c.updatedAt
  {
    var d := SetDraft(DraftOf(c), n, v);
    c.(name := d.name, categoryType := d.categoryType)
  }

  /** `filteredCategories`: the categories whose lower-cased name contains the lower-cased
      query, in list order. */
  function FilteredCategories(categories: seq<Doc<Category>>, query: string): (r: seq<Doc<Category>>)
    ensures forall i :: 0 <= i < |r| ==> r[i] in categories && Matches(r[i].body.name, query)
    ensures forall i :: 0 <= i < |categories| && Matches(categories[i].body.name, query) ==> categories[i] in r
  {
    Keep(categories, (d: Doc<Category>) => Matches(d.body.name, query))
  }

  /** An empty query shows every category. */
  lemma EmptyQueryShowsAllCategories(categories: seq<Doc<Category>>)
    ensures FilteredCategories(categories, "") == categories
  {
    forall i | 0 <= i < |categories| ensures Matches(categories[i].body.name, "") {
      MatchesEmptyQuery(categories[i].body.name);
    }
    KeepAll(categories, (d: Doc<Category>) => Matches(d.body.name, ""));
  }

  class CategoriesPageState {
    var user: Option<ClientUser>
    var categories: seq<Doc<Category>>
    var newCategory: CategoryDraft
    var editing: Option<Doc<Category>>
    var isAddModalOpen: bool
    var isEditModalOpen: bool

    /** The edit modal is open only with a category to edit. */
    ghost predicate Valid()
      reads this
    {
      isEditModalOpen ==> editing.Some?
    }

    constructor (user: Option<ClientUser>, categories: seq<Doc<Category>>)
      ensures Valid() && this.user == user && this.categories == categories
      ensures newCategory == EmptyDraft && editing.None? && !isAddModalOpen && !isEditModalOpen
    {
      this.user := user;
      this.categories := categories;
      newCategory := EmptyDraft;
      editing := None;
      isAddModalOpen := false;
      isEditModalOpen := false;
    }

    /** The add button opens the add modal without any check. */
    method OpenAddModal()
      requires Valid()
      modifies this
      ensures Valid() && isAddModalOpen
      ensures categories == old(categories) && newCategory == old(newCategory) && editing == old(editing)
      ensures isEditModalOpen == old(isEditModalOpen)
    {
      isAddModalOpen := true;
    }

    /** The add modal's cancel button: the modal closes, the draft stays. */
    method CloseAddModal()
      requires Valid()
      modifies this
      ensures Valid() && !isAddModalOpen
      ensures categories == old(categories) && editing == old(editing) && newCategory == old(newCategory)
      ensures isEditModalOpen == old(isEditModalOpen)
    {
      isAddModalOpen := false;
    }

    /** `handleInputChange`: the edit draft changes while the edit modal is open, the new
        category's draft otherwise; never both. */
    method ChangeInput(n: CategoryInputName, v: string)
      requires Valid()
      modifies this
      ensures Valid() && categories == old(categories)
      ensures isAddModalOpen == old(isAddModalOpen) && isEditModalOpen == old(isEditModalOpen)
      ensures old(isEditModalOpen) ==>
                editing == Some(Doc(old(editing).value.id, SetCategory(old(editing).value.body, n, v)))
                && newCategory == old(newCategory)
      ensures !old(isEditModalOpen) ==> newCategory == SetDraft(old(newCategory), n, v) && editing == old(editing)
    {
      if isEditModalOpen {
        editing := Some(Doc(editing.value.id, SetCategory(editing.value.body, n, v)));
      } else {
        newCategory := SetDraft(newCategory, n, v);
      }
    }

    /** `handleAddCategory`: with the "add" flag and the server's record (`reply`; None when the
        request fails), the record is appended, the draft reset and the modal closed. */
    method AddCategory(reply: Option<Doc<Category>>) returns (gate: Gate)
      requires Valid()
      modifies this
      ensures Valid()
      ensures gate == CheckPermission(user, Add, DeniedMessage(Add))
      ensures gate == Granted && reply.Some? ==>
                categories == old(categories) + [reply.value] && newCategory == EmptyDraft && !isAddModalOpen
                && editing == old(editing) && isEditModalOpen == old(isEditModalOpen)
      ensures !(gate == Granted && reply.Some?) ==> unchanged(this)
    {
      gate := CheckPermission(user, Add, DeniedMessage(Add));
      if gate == Granted && reply.Some? {
        categories := categories + [reply.value];
        newCategory := EmptyDraft;
        isAddModalOpen := false;
      }
    }

    /** `handleDeleteCategory`: with the "delete" flag and a request that succeeds (`ok`),
        exactly the categories with that id leave the list. */
    method DeleteCategory(id: Id, ok: bool) returns (gate: Gate)
      requires Valid()
      modifies this
      ensures Valid()
      ensures gate == CheckPermission(user, Delete, DeniedMessage(Delete))
      ensures gate == Granted && ok ==> categories == WithoutId(old(categories), id)
      ensures !(gate == Granted && ok) ==> categories == old(categories)
      ensures newCategory == old(newCategory) && editing == old(editing)
      ensures isAddModalOpen == old(isAddModalOpen) && isEditModalOpen == old(isEditModalOpen)
    {
      gate := CheckPermission(user, Delete, DeniedMessage(Delete));
      if gate == Granted && ok {
        categories := WithoutId(categories, id);
      }
    }

    /** `openEditModal`: with the "edit" flag, the category becomes the edit draft and the
        edit modal opens. */
    method OpenEditModal(category: Doc<Category>) returns (gate: Gate)
      requires Valid()
      modifies this
      ensures Valid()
      ensures gate == CheckPermission(user, Edit, DeniedMessage(Edit))
      ensures gate == Granted ==>
                editing == Some(category) && isEditModalOpen
                && categories == old(categories) && newCategory == old(newCategory)
                && isAddModalOpen == old(isAddModalOpen)
      ensures gate != Granted ==> unchanged(this)
    {
      gate := CheckPermission(user, Edit, DeniedMessage(Edit));
      if gate == Granted {
        editing := Some(category);
        isEditModalOpen := true;
      }
    }

    /** The edit modal's cancel button: the modal closes, the draft stays. */
    method CloseEditModal()
      requires Valid()
      modifies this
      ensures Valid() && !isEditModalOpen
      ensures categories == old(categories) && editing == old(editing) && newCategory == old(newCategory)
      ensures isAddModalOpen == old(isAddModalOpen)
    {
      isEditModalOpen := false;
    }

    /** `handleEditCategory`: with the "edit" flag, a draft and a request that succeeds (`ok`),
        the entries with the draft's id are replaced by the draft itself, not by the server's
        answer; then the modal closes and the draft is dropped. Without a draft the handler
        throws inside its `try` and nothing happens. */
    method EditCategory(ok: bool) returns (gate: Gate)
      requires Valid()
      modifies this
      ensures Valid()
      ensures gate == CheckPermission(user, Edit, DeniedMessage(Edit))
      ensures gate == Granted && old(editing).Some? && ok ==>
                (var draft := old(editing).value;
                 categories == UpdateWhereId(old(categories), draft.id, (d: Doc<Category>) => draft))
                && !isEditModalOpen && editing.None?
                && newCategory == old(newCategory) && isAddModalOpen == old(isAddModalOpen)
      ensures !(gate == Granted && old(editing).Some? && ok) ==> unchanged(this)
    {
      gate := CheckPermission(user, Edit, DeniedMessage(Edit));
      if gate == Granted && editing.Some? && ok {
        var draft := editing.value;
        categories := UpdateWhereId(categories, draft.id, (d: Doc<Category>) => draft);
        isEditModalOpen := false;
        editing := None;
      }
    }
  }
}
