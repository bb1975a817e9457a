/** What the client pages share: the current user as `GET /api/users/get` returned it, the
    per-action permission check, and the case-insensitive search used by the list filters. */
module ClientCommon {
  import opened Wrappers
  import opened JsString
  import opened UserModel

  /** A user object on the client; `permissions` may be missing from it. */
  datatype ClientUser = ClientUser(email: string, fullName: string, permissions: Option<PermissionsJson>)

  /** How an account reaches the client: the flags as the server renders them. */
  function ClientView(u: User): ClientUser {
    ClientUser(u.email, u.fullName, Some(ToJson(u.permissions)))
  }

  /** `user?.permissions?.[action]` is truthy. */
  predicate Permitted(user: Option<ClientUser>, a: Action) {
    user.Some? && user.value.permissions.Some? && Flag(user.value.permissions.value, a)
  }

  /** The client's name for an action, as it appears in its alerts. */
  function ActionName(a: Action): string {
    match a
    case Add => "add"
    case Edit => "edit"
    case Delete => "delete"
  }

  /** The result of a permission check: granted, refused with an alert, or refused silently. */
  datatype Gate = Granted | Alerted(message: string) | Silent

  /** The check of the products and categories pages: refused, with `alert`, whenever the
      flag is not truthy, including when there is no user. */
  function CheckPermission(user: Option<ClientUser>, a: Action, alert: string): (g: Gate)
    ensures g == Granted <==> Permitted(user, a)
    ensures g != Granted ==> g == Alerted(alert)
  {
    if Permitted(user, a) then Granted else Alerted(alert)
  }

  /** A signed-in user is granted exactly the actions whose flags the server holds as true. */
  lemma PermittedIffStoredFlag(u: User, a: Action)
    ensures Permitted(Some(ClientView(u)), a) <==> FlagOf(u.permissions, a)
  {
  }

  /** A user fresh from signup may do nothing until an administrator grants it. */
  lemma NewUserPermittedNothing(fullName: Option<string>, email: Option<string>, password: Option<string>, now: int, a: Action)
    requires MissingPaths(Cast(fullName, email, password)) == []
    ensures !Permitted(Some(ClientView(NewUser(fullName, email, password, now))), a)
  {
    PermittedIffStoredFlag(NewUser(fullName, email, password, now), a);
  }

  /** `text.toLowerCase().includes(query.toLowerCase())`. */
  predicate Matches(text: string, query: string) {
    Includes(Lower(text), Lower(query))
  }

  /** An empty search matches every text. */
  lemma MatchesEmptyQuery(text: string)
    ensures Matches(text, "")
  {
    IncludesEmpty(Lower(text));
  }

  /** Letter case plays no part: a text matches a query exactly when it matches the query
      lower-cased. */
  lemma MatchesIgnoresCase(text: string, query: string)
    ensures Matches(text, query) <==> Matches(text, Lower(query))
  {
    LowerIdempotent(query);
  }
}
