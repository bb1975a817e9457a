/** The user schema of `models/User.js`: a required, trimmed full name; a required, trimmed,
    unique email; a required password that is stored only as a bcrypt digest; three
    permission flags that default to false; and timestamps. */
module UserModel {
  import opened Wrappers
  import opened Docs
  import opened JsString
  import opened Crypto
  import opened Mongoose

  /** The three per-action permission flags. */
  datatype Permissions = Permissions(add: bool, edit: bool, delete: bool)

  const DefaultPermissions := Permissions(false, false, false)

  /** The actions the flags gate, named as the client names them (`"add"`, `"edit"`, `"delete"`). */
  datatype Action = Add | Edit | Delete

  function FlagOf(p: Permissions, a: Action): bool {
    match a
    case Add => p.add
    case Edit => p.edit
    case Delete => p.delete
  }

  /** A `permissions` object in JSON, where a key may be missing. */
  type PermissionsJson = map<Action, bool>

  /** The value of a flag in a JSON permissions object; a missing key reads as false. */
  function Flag(m: PermissionsJson, a: Action): bool {
    a in m && m[a]
  }

  /** How the server renders the flags in a reply: all three keys present. */
  function ToJson(p: Permissions): (m: PermissionsJson)
    ensures m.Keys == {Add, Edit, Delete}
    ensures forall a | a in m :: m[a] == FlagOf(p, a)
  {
    map[Add := p.add, Edit := p.edit, Delete := p.delete]
  }

  /** How a JSON permissions object reads back from the store: a missing flag takes
      its schema default, false. */
  function FromJson(m: PermissionsJson): (p: Permissions)
    ensures forall a :: FlagOf(p, a) == Flag(m, a)
  {
    Permissions(Flag(m, Add), Flag(m, Edit), Flag(m, Delete))
  }

  /** Rendering the flags and reading them back gives the same flags. */
  lemma JsonRoundTrip(p: Permissions)
    ensures FromJson(ToJson(p)) == p
  {
    assert FlagOf(FromJson(ToJson(p)), Add) == p.add;
    assert FlagOf(FromJson(ToJson(p)), Edit) == p.edit;
    assert FlagOf(FromJson(ToJson(p)), Delete) == p.delete;
  }

  datatype User = User(fullName: string, email: string, password: Secret,
                       permissions: Permissions, createdAt: int, updatedAt: int)

  function EmailOf(d: Doc<User>): string {
    d.body.email
  }

  /** What a stored user always satisfies: the required paths hold, the `trim` setters
      have run (so trimming again changes nothing, by `TrimFixedIffTrimmed`), and the password is a digest, never the text. */
  predicate WellFormed(u: User) {
    u.fullName != "" && IsTrimmed(u.fullName)
    && u.email != "" && IsTrimmed(u.email)
    && u.password.Digest?
  }

  /** The paths of `new User({ fullName, email, password })` after the `trim` setters ran. */
  datatype UserInput = UserInput(fullName: Option<string>, email: Option<string>, password: Option<string>)

  function TrimOption(v: Option<string>): Option<string> {
    if v.Some? then Some(Trim(v.value)) else None
  }

  function Cast(fullName: Option<string>, email: Option<string>, password: Option<string>): UserInput {
    UserInput(TrimOption(fullName), TrimOption(email), password)
  }

  /** The paths whose `required` validator fails, in schema order. */
  function MissingPaths(u: UserInput): (r: seq<string>)
    ensures r == [] <==> Required(u.fullName) && Required(u.email) && Required(u.password)
    ensures forall i :: 0 <= i < |r| ==> r[i] in ["fullName", "email", "password"]
  {
    (if Required(u.fullName) then [] else ["fullName"])
    + (if Required(u.email) then [] else ["email"])
    + (if Required(u.password) then [] else ["password"])
  }

  /** The pre-save hook: a password path that was modified is replaced by its digest;
      an unmodified one is left as it is. */
  function PreSave(password: Secret, modified: bool): (r: Secret)
    ensures !modified ==> r == password
    ensures modified && password.Plain? ==> r.Digest? && Compare(password.text, r)
  {
    if modified && password.Plain? then Hash(password.text) else password
  }

  /** The document `save()` stores for `new User({ fullName, email, password })`: the `trim`
      setters run on cast, new documents count as modified so the password is hashed, the
      flags take their defaults and both timestamps are `now`. */
  function NewUser(fullName: Option<string>, email: Option<string>, password: Option<string>, now: int): (r: User)
    requires MissingPaths(Cast(fullName, email, password)) == []
    ensures WellFormed(r)
    ensures r.permissions == DefaultPermissions
    ensures Compare(password.value, r.password)
    ensures r.fullName == Trim(fullName.value) && r.email == Trim(email.value)
  {
    User(Trim(fullName.value), Trim(email.value), PreSave(Plain(password.value), true), DefaultPermissions, now, now)
  }

  /** `user.matchPassword(p)`: bcrypt compares `p` with the stored digest. Without a `p`
      bcrypt throws, which is None here. */
  function MatchPassword(u: User, p: Option<string>): (r: Option<bool>)
    ensures r.None? <==> p.None?
    ensures r == Some(true) <==> p.Some? && u.password == Hash(p.value)
  {
    if p.None? then None else Some(Compare(p.value, u.password))
  }
}
