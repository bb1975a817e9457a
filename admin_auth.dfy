/** The admin routes of `routes/adminAuth.js`. The `Admin` model is not part of this model;
    an admin is taken to have a name, an email and a password kept as a bcrypt digest, and
    whatever `Admin.create` may refuse is a parameter. */
module AdminAuth {
  import opened Wrappers
  import opened Docs
  import opened Crypto

  datatype Admin = Admin(name: Option<string>, email: string, password: Secret)

  function AdminEmail(d: Doc<Admin>): string {
    d.body.email
  }

  datatype AdminView = AdminView(id: Id, name: Option<string>, email: string)

  datatype Body =
    | Message(text: string)
    | AdminSession(token: string, admin: AdminView)

  datatype Reply = Reply(status: int, body: Body)

  /** The message bcrypt throws when `compare` is given no password. */
  const BcryptMissingArgument := "data and hash arguments required"

  /** `POST /login`: 404 without an admin for the email, 500 with bcrypt's message when no
      password is sent, 401 on a wrong password, and otherwise a token for the admin. */
  function Login(admins: seq<Doc<Admin>>, email: string, password: Option<string>): (r: Reply)
    ensures r.status == 404 <==> forall i :: 0 <= i < |admins| ==> admins[i].body.email != email
    ensures r.status == 500 <==> FindWhere(admins, AdminEmail, email).Some? && password.None?
    ensures r.status == 500 ==> r == Reply(500, Message(BcryptMissingArgument))
    ensures r.status == 401 <==> FindWhere(admins, AdminEmail, email).Some? && password.Some?
                                 && !Compare(password.value, FindWhere(admins, AdminEmail, email).value.body.password)
    ensures r.status == 200 <==> exists i :: 0 <= i < |admins| && admins[i].body.email == email
                                   && password.Some? && Compare(password.value, admins[i].body.password)
                                   && (forall j :: 0 <= j < i ==> admins[j].body.email != email)
    ensures r.status == 200 ==>
              r.body.AdminSession? && r.body.admin.email == email
              && Verify(r.body.token) == Some(Claims(Some(r.body.admin.id), None))
  {
    match FindWhere(admins, AdminEmail, email)
    case None => Reply(404, Message("Admin not found"))
    case Some(d) =>
      var k := IndexWhere(admins, AdminEmail, email).value;
      assert admins[k] == d;
      if password.None? then Reply(500, Message(BcryptMissingArgument))
      else if !Compare(password.value, d.body.password) then Reply(401, Message("Invalid credentials"))
      else
        VerifySign(d.id);
        Reply(200, AdminSession(Sign(d.id), AdminView(d.id, d.body.name, d.body.email)))
  }

  class AdminStore {
    var admins: seq<Doc<Admin>>
    var nextId: nat

    /** Ids are distinct and below the counter, and passwords are kept only as digests. */
    ghost predicate Valid()
      reads this
    {
      DistinctIds(admins)
      && forall i :: 0 <= i < |admins| ==> admins[i].id < nextId && admins[i].body.password.Digest?
    }

    constructor ()
      ensures Valid() && admins == [] && nextId == 0
    {
      admins := [];
      nextId := 0;
    }

    /** `POST /signup`: 400 when an admin has the email; 500 with the error's message when
        `Admin.create` rejects (`createError`); otherwise the admin is stored with a hashed
        password and the reply is 201, without a token. */
    method Signup(name: Option<string>, email: string, password: string, createError: Option<string>) returns (reply: Reply)
      requires Valid()
      modifies this
      ensures Valid()
      ensures FindWhere(old(admins), AdminEmail, email).Some? ==>
                reply == Reply(400, Message("Admin already exists")) && admins == old(admins) && nextId == old(nextId)
      ensures FindWhere(old(admins), AdminEmail, email).None? && createError.Some? ==>
                reply == Reply(500, Message(createError.value)) && admins == old(admins) && nextId == old(nextId)
      ensures FindWhere(old(admins), AdminEmail, email).None? && createError.None? ==>
                admins == old(admins) + [Doc(old(nextId), Admin(name, email, Hash(password)))]
                && nextId == old(nextId) + 1
                && reply == Reply(201, Message("Admin created successfully"))
    {
      if FindWhere(admins, AdminEmail, email).Some? {
        reply := Reply(400, Message("Admin already exists"));
        return;
      }
      if createError.Some? {
        reply := Reply(500, Message(createError.value));
        return;
      }
      var doc := Doc(nextId, Admin(name, email, Hash(password)));
      UniqueAppend(admins, doc, IdOf);
      admins := admins + [doc];
      nextId := nextId + 1;
      reply := Reply(201, Message("Admin created successfully"));
    }

    /** `POST /login`, answered from the current store. */
    method LoginRoute(email: string, password: Option<string>) returns (reply: Reply)
      ensures reply == Login(admins, email, password)
    {
      reply := Login(admins, email, password);
    }
  }

  /** An admin just signed up can log in with the same email and password. */
  lemma SignupThenLogin(admins: seq<Doc<Admin>>, id: Id, name: Option<string>, email: string, password: string)
    requires forall i :: 0 <= i < |admins| ==> admins[i].body.email != email
    ensures Login(admins + [Doc(id, Admin(name, email, Hash(password)))], email, Some(password)).status == 200
  {
    var after := admins + [Doc(id, Admin(name, email, Hash(password)))];
    assert after[|admins|].body.email == email;
    assert IndexWhere(after, AdminEmail, email) == Some(|admins|);
  }
}
