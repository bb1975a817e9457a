/** The user routes of `routes/usersAuth.js`: signup, login, listing, setting permissions,
    deleting, the forgot-password mail and the password reset. The `users` collection is a
    sequence of documents in natural order; ids come from a counter. */
module UsersAuth {
  import opened Wrappers
  import opened Docs
  import opened JsString
  import opened JsNumber
  import opened Crypto
  import opened Mongoose
  import opened UserModel

  /** The `user` object of a signup or login reply. Its `name` reads `user.name`, a path
      the schema does not have, so it is always undefined (None). */
  datatype SessionUser = SessionUser(id: Id, name: Option<string>, email: string)

  datatype Body =
    | Message(text: string)
    | Session(message: string, token: string, user: SessionUser)
    | UserJson(account: Doc<User>)
    | UserList(users: seq<Doc<User>>)

  datatype Reply = Reply(status: int, body: Body)

  /** The mail handed to the transport by `forgot-password`. */
  datatype Mail = Mail(to: string, link: string)

  /** The document `User.findOne({ email })` finds: the first with that email. Mongoose casts a
      filter value through the path's setters, so the email looked up is the trimmed one. */
  function ByEmail(users: seq<Doc<User>>, email: string): Option<Doc<User>> {
    FindWhere(users, EmailOf, Trim(email))
  }

  predicate HasEmail(users: seq<Doc<User>>, email: string) {
    exists i :: 0 <= i < |users| && users[i].body.email == email
  }

  /** Why `POST /signup` refuses a request, if it does: the passwords differ (400), an
      account has the email (400; the lookup trims it), or a required path is missing
      after trimming (500, a validation error). */
  function SignupRejection(users: seq<Doc<User>>, fullName: Option<string>, email: string,
                           password: Option<string>, confirmPassword: Option<string>): (r: Option<Reply>)
    ensures r.None? <==> password == confirmPassword && !HasEmail(users, Trim(email))
                         && MissingPaths(Cast(fullName, Some(email), password)) == []
    ensures r.Some? && r.value.status == 500 <==>
              password == confirmPassword && !HasEmail(users, Trim(email))
              && MissingPaths(Cast(fullName, Some(email), password)) != []
    ensures r.Some? && r.value.status == 400 <==>
              password != confirmPassword || HasEmail(users, Trim(email))
    ensures r.Some? ==> r.value.body.Message?
  {
    if password != confirmPassword then Some(Reply(400, Message("Passwords do not match.")))
    else if ByEmail(users, email).Some? then Some(Reply(400, Message("User already exists")))
    else if MissingPaths(Cast(fullName, Some(email), password)) != [] then Some(Reply(500, Message("Error creating user.")))
    else None
  }

  /** `POST /login`: 404 without an account for the (trimmed) email, 500 when bcrypt is
      given no password, 401 on a wrong password, and otherwise 200 with a token for the
      account. */
  function Login(users: seq<Doc<User>>, email: string, password: Option<string>): (r: Reply)
    ensures r.status == 404 <==> !HasEmail(users, Trim(email))
    ensures r.status == 500 <==> HasEmail(users, Trim(email)) && password.None?
    ensures r.status == 401 <==> HasEmail(users, Trim(email)) && password.Some?
                                 && ByEmail(users, email).value.body.password != Hash(password.value)
    ensures r.status == 200 <==> exists i :: 0 <= i < |users| && users[i].body.email == Trim(email)
                                   && password.Some? && users[i].body.password == Hash(password.value)
                                   && (forall j :: 0 <= j < i ==> users[j].body.email != Trim(email))
    ensures r.status == 200 ==>
              r.body.Session? && r.body.user.email == Trim(email)
              && Verify(r.body.token) == Some(Claims(Some(r.body.user.id), None))
  {
    match ByEmail(users, email)
    case None => Reply(404, Message("User not found"))
    case Some(d) =>
      var k := IndexWhere(users, EmailOf, Trim(email)).value;
      assert users[k] == d;
      match MatchPassword(d.body, password)
      case None => Reply(500, Message("Server error"))
      case Some(false) => Reply(401, Message("Invalid email or password"))
      case Some(true) =>
        VerifySign(d.id);
        Reply(200, Session("Login successful", Sign(d.id), SessionUser(d.id, None, d.body.email)))
  }

  const ResetBase := "https://project-max-vendor.onrender.com/reset-password/"

  /** The link the reset mail carries: the account id, then the token. */
  function ResetLink(id: Id, token: string): (r: string)
    ensures ResetBase <= r
  {
    ResetBase + NatToString(id) + "/" + token
  }

  /** The path after the base splits into exactly the account id and a 64-digit hex token,
      from which the 32 random bytes can be read back. */
  lemma ResetLinkParts(id: Id, random: seq<byte>)
    requires |random| == 32
    ensures var link := ResetLink(id, HexEncode(random));
            Split(link[|ResetBase|..], '/') == [NatToString(id), HexEncode(random)]
    ensures |HexEncode(random)| == 64 && HexDecode(HexEncode(random)) == Some(random)
  {
    var digits := NatToString(id);
    var token := HexEncode(random);
    var link := ResetLink(id, token);
    assert link[|ResetBase|..] == digits + ['/'] + token;
    assert '/' !in digits by {
      forall i | 0 <= i < |digits| ensures digits[i] != '/' { assert IsDigit(digits[i]); }
    }
    assert '/' !in token by {
      forall i | 0 <= i < |token| ensures token[i] != '/' { assert IsHexChar(token[i]); }
    }
    SplitAfterPiece(digits, token, '/');
    SplitWithoutSeparator(token, '/');
    HexRoundTrip(random);
  }

  /** `POST /forgot-password`: 404 and no mail without an account for the (trimmed) email;
      otherwise a mail to the email as sent with a reset link for the account, and 200 if the
      transport delivers it, 500 if it fails. The store is not changed and the token is not kept. */
  function ForgotPassword(users: seq<Doc<User>>, email: string, random: seq<byte>, delivered: bool): (r: (Reply, Option<Mail>))
    requires |random| == 32
    ensures r.1.None? <==> !HasEmail(users, Trim(email))
    ensures r.1.None? ==> r.0 == Reply(404, Message("User not found."))
    ensures r.1.Some? && delivered ==> r.0 == Reply(200, Message("Password reset link sent to your email."))
    ensures r.1.Some? && !delivered ==> r.0 == Reply(500, Message("Error sending reset link."))
    ensures r.1.Some? ==> r.1.value.to == email && ResetBase <= r.1.value.link
                          && ByEmail(users, email).Some?
                          && r.1.value.link == ResetLink(ByEmail(users, email).value.id, HexEncode(random))
    ensures r.0.status == 200 <==> r.1.Some? && delivered
  {
    match ByEmail(users, email)
    case None => (Reply(404, Message("User not found.")), None)
    case Some(d) =>
      var mail := Mail(email, ResetLink(d.id, HexEncode(random)));
      if delivered then (Reply(200, Message("Password reset link sent to your email.")), Some(mail))
      else (Reply(500, Message("Error sending reset link.")), Some(mail))
  }

  /** The account after `reset-password` saved a new password: the pre-save hook hashes it. */
  function WithPassword(u: User, password: string, now: int): (r: User)
    ensures Compare(password, r.password) && r.password.Digest?
    ensures r.(password := u.password, updatedAt := u.updatedAt) == u
  {
    u.(password := PreSave(Plain(password), true), updatedAt := now)
  }

  /** The account after `PUT /:id/permissions`: the flags the body sent, missing ones false. */
  function WithPermissions(u: User, permissions: PermissionsJson, now: int): (r: User)
    ensures forall a :: FlagOf(r.permissions, a) == Flag(permissions, a)
    ensures r.(permissions := u.permissions, updatedAt := u.updatedAt) == u
  {
    u.(permissions := FromJson(permissions), updatedAt := now)
  }

  /** Right after a signup, logging in with the same email and password succeeds for the
      new account. */
  lemma SignupThenLogin(users: seq<Doc<User>>, id: Id, fullName: Option<string>, email: string,
                        password: string, now: int)
    requires MissingPaths(Cast(fullName, Some(email), Some(password))) == []
    requires !HasEmail(users, Trim(email))
    ensures var after := users + [Doc(id, NewUser(fullName, Some(email), Some(password), now))];
            Login(after, email, Some(password))
            == Reply(200, Session("Login successful", Sign(id), SessionUser(id, None, Trim(email))))
  {
    var after := users + [Doc(id, NewUser(fullName, Some(email), Some(password), now))];
    assert after[|users|].body.email == Trim(email);
    assert forall j :: 0 <= j < |users| ==> after[j].body.email != Trim(email);
    assert IndexWhere(after, EmailOf, Trim(email)) == Some(|users|);
  }

  /** After a password reset, logging in with an email that trims to the account's succeeds
      with the new password and with no other. */
  lemma ResetThenLogin(users: seq<Doc<User>>, k: nat, typed: string, password: string, attempt: string, now: int)
    requires k < |users| && UniqueBy(users, EmailOf)
    requires Trim(typed) == users[k].body.email
    ensures var after := users[k := Doc(users[k].id, WithPassword(users[k].body, password, now))];
            Login(after, typed, Some(attempt)).status == 200 <==> attempt == password
  {
    var after := users[k := Doc(users[k].id, WithPassword(users[k].body, password, now))];
    var email := users[k].body.email;
    assert forall j :: 0 <= j < |after| && j != k ==> after[j].body.email != email;
    assert after[k].body.email == email;
    assert IndexWhere(after, EmailOf, email) == Some(k);
    CompareHash(attempt, password);
  }

  class UserStore {
    var users: seq<Doc<User>>
    var nextId: nat

    /** Ids are distinct and below the counter, the unique index on `email` holds, and every
        account is well formed (trimmed, required paths present, password hashed). */
    ghost predicate Valid()
      reads this
    {
      DistinctIds(users) && UniqueBy(users, EmailOf)
      && (forall i :: 0 <= i < |users| ==> users[i].id < nextId && WellFormed(users[i].body))
    }

    constructor ()
      ensures Valid() && users == [] && nextId == 0
    {
      users := [];
      nextId := 0;
    }

    /** `POST /signup`: a refused request changes nothing; otherwise the account is appended
        with a hashed password and default flags, and the reply is 201 with a token for it. */
    method Signup(fullName: Option<string>, email: string, password: Option<string>,
                  confirmPassword: Option<string>, now: int) returns (reply: Reply)
      requires Valid()
      modifies this
      ensures Valid()
      ensures var rejection := SignupRejection(old(users), fullName, email, password, confirmPassword);
              if rejection.Some? then reply == rejection.value && users == old(users) && nextId == old(nextId)
              else
                users == old(users) + [Doc(old(nextId), NewUser(fullName, Some(email), password, now))]
                && nextId == old(nextId) + 1
                && reply == Reply(201, Session("User registered successfully", Sign(old(nextId)),
                                               SessionUser(old(nextId), None, Trim(email))))
    {
      var rejection := SignupRejection(users, fullName, email, password, confirmPassword);
      if rejection.Some? {
        reply := rejection.value;
        return;
      }
      var doc := Doc(nextId, NewUser(fullName, Some(email), password, now));
      assert forall i :: 0 <= i < |users| ==> EmailOf(users[i]) != EmailOf(doc);
      UniqueAppend(users, doc, IdOf);
      UniqueAppend(users, doc, EmailOf);
      users := users + [doc];
      nextId := nextId + 1;
      reply := Reply(201, Session("User registered successfully", Sign(doc.id), SessionUser(doc.id, None, Trim(email))));
    }

    /** `POST /login`, answered from the current store. */
    method LoginRoute(email: string, password: Option<string>) returns (reply: Reply)
      ensures reply == Login(users, email, password)
    {
      reply := Login(users, email, password);
    }

    /** `GET /get`: every account in natural order, digests included. */
    method GetUsers() returns (reply: Reply)
      ensures reply.status == 200 && reply.body.UserList? && reply.body.users == users
    {
      reply := Reply(200, UserList(users));
    }

    /** `PUT /:id/permissions`: 404 and no change for an unknown id; otherwise only that
        account's flags (and `updatedAt`) change, and the reply is the updated account. */
    method SetPermissions(id: Id, permissions: PermissionsJson, now: int) returns (reply: Reply)
      requires Valid()
      modifies this
      ensures Valid() && nextId == old(nextId)
      ensures match IndexWhere(old(users), IdOf, id)
              case None => reply == Reply(404, Message("User not found")) && users == old(users)
              case Some(k) =>
                users == old(users)[k := Doc(id, WithPermissions(old(users)[k].body, permissions, now))]
                && reply == Reply(200, UserJson(users[k]))
    {
      var found := IndexWhere(users, IdOf, id);
      if found.None? {
        reply := Reply(404, Message("User not found"));
        return;
      }
      var k := found.value;
      var doc := Doc(id, WithPermissions(users[k].body, permissions, now));
      UniqueUpdate(users, k, doc, IdOf);
      UniqueUpdate(users, k, doc, EmailOf);
      users := users[k := doc];
      reply := Reply(200, UserJson(doc));
    }

    /** `DELETE /:id`: 404 for an unknown id; otherwise that account, and only it, is removed. */
    method DeleteUser(id: Id) returns (reply: Reply)
      requires Valid()
      modifies this
      ensures Valid() && nextId == old(nextId)
      ensures match IndexWhere(old(users), IdOf, id)
              case None => reply == Reply(404, Message("User not found.")) && users == old(users)
              case Some(k) =>
                users == old(users)[..k] + old(users)[k + 1..]
                && reply == Reply(200, Message("User deleted successfully."))
    {
      var found := IndexWhere(users, IdOf, id);
      if found.None? {
        reply := Reply(404, Message("User not found."));
        return;
      }
      var k := found.value;
      WithoutIdRemovesOne(users, k);
      UniqueRemove(users, k, IdOf);
      UniqueRemove(users, k, EmailOf);
      users := WithoutId(users, id);
      reply := Reply(200, Message("User deleted successfully."));
    }

    /** `POST /forgot-password`, answered from the current store. */
    method ForgotPasswordRoute(email: string, random: seq<byte>, delivered: bool) returns (reply: Reply, mail: Option<Mail>)
      requires |random| == 32
      ensures (reply, mail) == ForgotPassword(users, email, random, delivered)
    {
      reply, mail := ForgotPassword(users, email, random, delivered).0, ForgotPassword(users, email, random, delivered).1;
    }

    /** `POST /reset-password/:userId`: 404 for an unknown id; 500 and no change when the body
        has no password (the required validator fails); otherwise that account's password is
        replaced by the digest of the new one. No token is asked for. */
    method ResetPassword(userId: Id, password: Option<string>, now: int) returns (reply: Reply)
      requires Valid()
      modifies this
      ensures Valid() && nextId == old(nextId)
      ensures match IndexWhere(old(users), IdOf, userId)
              case None => reply == Reply(404, Message("User not found.")) && users == old(users)
              case Some(k) =>
                if !Required(password) then
                  reply == Reply(500, Message("Error resetting password.")) && users == old(users)
                else
                  users == old(users)[k := Doc(userId, WithPassword(old(users)[k].body, password.value, now))]
                  && reply == Reply(200, Message("Password has been reset successfully."))
    {
      var found := IndexWhere(users, IdOf, userId);
      if found.None? {
        reply := Reply(404, Message("User not found."));
        return;
      }
      if !Required(password) {
        reply := Reply(500, Message("Error resetting password."));
        return;
      }
      var k := found.value;
      var doc := Doc(userId, WithPassword(users[k].body, password.value, now));
      UniqueUpdate(users, k, doc, IdOf);
      UniqueUpdate(users, k, doc, EmailOf);
      users := users[k := doc];
      reply := Reply(200, Message("Password has been reset successfully."));
    }
  }
}
