/** The decisions of the administrator's page, `src/pages/AdminDashBoard.jsx`: toggling one
    permission flag of a user and removing a user from the list. */
module AdminDashboard {
  import opened Wrappers
  import opened Docs
  import opened UserModel
  import opened ClientCommon

  /** `{ ...user.permissions, [permission]: value }`: the named flag takes the value and the
      others keep theirs; a user without a permissions object starts from none. */
  function MergePermission(permissions: Option<PermissionsJson>, a: Action, value: bool): (r: PermissionsJson)
    ensures Flag(r, a) == value
    ensures forall b :: b != a ==> Flag(r, b) == (permissions.Some? && Flag(permissions.value, b))
    ensures permissions.Some? ==> r.Keys == permissions.value.Keys + {a}
    ensures permissions.None? ==> r.Keys == {a}
  {
    (if permissions.Some? then permissions.value else map[])[a := value]
  }

  /** `user.permissions?.x || false`: what a checkbox shows; a missing flag is unchecked. */
  predicate Checked(u: ClientUser, a: Action) {
    Permitted(Some(u), a)
  }

  /** The flags with one of them set to a value. */
  function WithFlag(p: Permissions, a: Action, value: bool): (r: Permissions)
    ensures FlagOf(r, a) == value
    ensures forall b :: b != a ==> FlagOf(r, b) == FlagOf(p, b)
  {
    match a
    case Add => p.(add := value)
    case Edit => p.(edit := value)
    case Delete => p.(delete := value)
  }

  /** A toggle followed by the server's store changes exactly the toggled flag: the client
      sends the merged object for the user as the server rendered it, and reading it back
      gives the old flags with only that one replaced. */
  lemma ToggleStoresOneFlag(p: Permissions, a: Action, value: bool)
    ensures FromJson(MergePermission(Some(ToJson(p)), a, value)) == WithFlag(p, a, value)
  {
    var r := FromJson(MergePermission(Some(ToJson(p)), a, value));
    var w := WithFlag(p, a, value);
    assert FlagOf(r, Add) == FlagOf(w, Add);
    assert FlagOf(r, Edit) == FlagOf(w, Edit);
    assert FlagOf(r, Delete) == FlagOf(w, Delete);
  }

  /** After a toggle the checkbox shows the new value and the other two are as they were. */
  lemma ToggleShowsValue(u: ClientUser, a: Action, value: bool)
    ensures Checked(u.(permissions := Some(MergePermission(u.permissions, a, value))), a) == value
    ensures forall b :: b != a ==>
              Checked(u.(permissions := Some(MergePermission(u.permissions, a, value))), b) == Checked(u, b)
  {
  }

  class AdminDashboardState {
    var users: seq<Doc<ClientUser>>

    constructor (users: seq<Doc<ClientUser>>)
      ensures this.users == users
    {
      this.users := users;
    }

    /** `handlePermissionChange`: an unknown id sends nothing and changes nothing. Otherwise
        the merged flags of the first user with that id are sent (`sent`), and only when the
        answer's status (`status`; None when the request fails) is 200 do the users with
        that id get them. */
    method PermissionChange(userId: Id, a: Action, value: bool, status: Option<int>) returns (sent: Option<PermissionsJson>)
      modifies this
      ensures sent.None? <==> FindWhere(old(users), IdOf, userId).None?
      ensures sent.Some? ==> sent.value == MergePermission(FindWhere(old(users), IdOf, userId).value.body.permissions, a, value)
      ensures sent.Some? && status == Some(200) ==>
                users == UpdateWhereId(old(users), userId,
                                       (d: Doc<ClientUser>) => Doc(d.id, d.body.(permissions := Some(sent.value))))
      ensures sent.None? || status != Some(200) ==> users == old(users)
    {
      var user := FindWhere(users, IdOf, userId);
      if user.None? {
        sent := None;
        return;
      }
      var merged := MergePermission(user.value.body.permissions, a, value);
      sent := Some(merged);
      if status == Some(200) {
        users := UpdateWhereId(users, userId, (d: Doc<ClientUser>) => Doc(d.id, d.body.(permissions := Some(merged))));
      }
    }

    /** `handleUserDelete`: after a confirmation and an answer with status 200, exactly the
        users with that id leave the list. */
    method UserDelete(userId: Id, confirmed: bool, status: Option<int>)
      modifies this
      ensures confirmed && status == Some(200) ==> users == WithoutId(old(users), userId)
      ensures !(confirmed && status == Some(200)) ==> users == old(users)
    {
      if confirmed && status == Some(200) {
        users := WithoutId(users, userId);
      }
    }
  }
}
