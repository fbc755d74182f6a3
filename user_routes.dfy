/**
 * The user routes: registration, login, and reading, updating and deleting
 * the caller's own account. Password hashing, password comparison and token
 * signing are parameters: `hash` stands for bcrypt hashing with a fresh salt,
 * `compare` for bcrypt's comparison, `sign` for signing a token for an id.
 */
module UserRoutes {
  import opened Wrappers
  import opened Collections
  import opened Models

  const UserExists := "User already exists"
  const CredentialsRequired := "Please provide email and password"
  const InvalidCredentials := "Invalid credentials"
  const UserNotFound := "User not found"
  const UserDeleted := "User deleted successfully"

  /** The validated registration body. */
  datatype Registration = Registration(name: string, email: string, password: string)

  /** The body of the register and login responses: it has no password field. */
  datatype AuthBody = AuthBody(id: Id, name: string, email: string, token: string)

  /**
   * POST /register: 400 with the validation message, or 400 "User already
   * exists" when the email is taken, both leaving the store unchanged;
   * otherwise exactly one user is added with the given name and email and the
   * hashed password, and answered with 201 and a token.
   */
  method Register(users: UserCollection, validation: Result<Registration, string>, hash: string -> string, sign: Id -> string)
    returns (reply: Reply<AuthBody>)
    requires users.Valid()
    modifies users
    ensures users.Valid()
    ensures validation.Failure? ==>
      reply == Reject(400, validation.error) && users.docs == old(users.docs) && users.nextId == old(users.nextId)
    ensures validation.Success? && old(users.IndexOfEmail(validation.value.email)).Some? ==>
      reply == Reject(400, UserExists) && users.docs == old(users.docs) && users.nextId == old(users.nextId)
    ensures validation.Success? && old(users.IndexOfEmail(validation.value.email)).None? ==>
      var v := validation.value;
      && reply.Respond? && reply.status == 201
      && reply.body == AuthBody(reply.body.id, v.name, v.email, sign(reply.body.id))
      && (forall k :: 0 <= k < |old(users.docs)| ==> old(users.docs)[k].id != reply.body.id)
      && users.docs == old(users.docs) + [UserRecord(reply.body.id, v.name, v.email, hash(v.password), users.defaultRole)]
      && users.nextId == old(users.nextId) + 1
  {
    if validation.Failure? {
      reply := Reject(400, validation.error);
      return;
    }
    var v := validation.value;
    var existing := users.IndexOfEmail(v.email);
    if existing.Some? {
      reply := Reject(400, UserExists);
      return;
    }
    var hashed := hash(v.password);
    var user := UserRecord(users.nextId, v.name, v.email, hashed, users.defaultRole);
    users.docs := users.docs + [user];
    users.nextId := users.nextId + 1;
    reply := Respond(201, AuthBody(user.id, user.name, user.email, sign(user.id)));
  }

  /**
   * POST /login: 400 when email or password is empty, before any lookup; 401
   * "Invalid credentials" both for an unknown email and for a wrong password;
   * otherwise 200 with the user's id, name, email and a token.
   */
  method Login(users: UserCollection, email: string, password: string, compare: (string, string) -> bool, sign: Id -> string)
    returns (reply: Reply<AuthBody>)
    ensures email == [] || password == [] ==> reply == Reject(400, CredentialsRequired)
    ensures email != [] && password != [] && users.IndexOfEmail(email).None? ==>
      reply == Reject(401, InvalidCredentials)
    ensures var found := users.IndexOfEmail(email);
      email != [] && password != [] && found.Some? && !compare(password, users.docs[found.value].password) ==>
        reply == Reject(401, InvalidCredentials)
    ensures var found := users.IndexOfEmail(email);
      email != [] && password != [] && found.Some? && compare(password, users.docs[found.value].password) ==>
        var u := users.docs[found.value];
        reply == Respond(200, AuthBody(u.id, u.name, u.email, sign(u.id)))
  {
    if email == [] || password == [] {
      reply := Reject(400, CredentialsRequired);
      return;
    }
    var found := users.IndexOfEmail(email);
    if found.None? {
      reply := Reject(401, InvalidCredentials);
      return;
    }
    var user := users.docs[found.value];
    if !compare(password, user.password) {
      reply := Reject(401, InvalidCredentials);
      return;
    }
    reply := Respond(200, AuthBody(user.id, user.name, user.email, sign(user.id)));
  }

  /** GET /me: the caller's record without its password, or 404 when it no longer exists. */
  method GetMe(users: UserCollection, caller: Id) returns (reply: Reply<Profile>)
    ensures users.IndexOf(caller).None? ==> reply == Reject(404, UserNotFound)
    ensures users.IndexOf(caller).Some? ==> reply == Respond(200, ProfileOf(users.docs[users.IndexOf(caller).value]))
    ensures reply.Respond? ==> reply.body.id == caller
  {
    var found := users.IndexOf(caller);
    if found.None? {
      reply := Reject(404, UserNotFound);
      return;
    }
    reply := Respond(200, ProfileOf(users.docs[found.value]));
  }

  /**
   * The validated profile changes, `{ ...value }`: every field of the user
   * schema that the body may carry; an absent field is left as it is.
   */
  datatype ProfileUpdate = ProfileUpdate(name: Option<string>, email: Option<string>, password: Option<string>, role: Option<string>)

  /** `if (updates.password) updates.password = hash(...)`: only a non-empty password is hashed. */
  function HashPassword(updates: ProfileUpdate, hash: string -> string): (r: ProfileUpdate)
    ensures r.name == updates.name && r.email == updates.email && r.role == updates.role
    ensures updates.password.Some? && updates.password.value != [] ==> r.password == Some(hash(updates.password.value))
    ensures updates.password.None? || updates.password.value == [] ==> r.password == updates.password
  {
    if updates.password.Some? && updates.password.value != [] then updates.(password := Some(hash(updates.password.value)))
    else updates
  }

  /** The record after `findByIdAndUpdate`: each given field replaced, the id kept. */
  function ApplyUpdate(u: UserRecord, updates: ProfileUpdate): (r: UserRecord)
    ensures r.id == u.id
    ensures r.role == updates.role.GetOr(u.role)
    ensures r.name == updates.name.GetOr(u.name)
    ensures r.email == updates.email.GetOr(u.email)
    ensures r.password == updates.password.GetOr(u.password)
  {
    UserRecord(u.id, updates.name.GetOr(u.name), updates.email.GetOr(u.email), updates.password.GetOr(u.password), updates.role.GetOr(u.role))
  }

  /**
   * PUT /me: 400 with the validation message; otherwise only the caller's
   * record changes, with the password hashed if one is given, and the updated
   * record is returned without its password (null when the record is gone).
   */
  method UpdateMe(users: UserCollection, caller: Id, validation: Result<ProfileUpdate, string>, hash: string -> string)
    returns (reply: Reply<Option<Profile>>)
    requires users.Valid()
    modifies users
    ensures users.Valid() && users.nextId == old(users.nextId)
    ensures !reply.Respond? ==> users.docs == old(users.docs)
    ensures validation.Failure? ==> reply == Reject(400, validation.error)
    ensures validation.Success? && old(users.IndexOf(caller)).None? ==>
      reply == Respond(200, None) && users.docs == old(users.docs)
    ensures var found := old(users.IndexOf(caller));
      validation.Success? && found.Some? ==>
        var updated := ApplyUpdate(old(users.docs[found.value]), HashPassword(validation.value, hash));
        && users.docs == old(users.docs)[found.value := updated]
        && reply == Respond(200, Some(ProfileOf(updated)))
  {
    if validation.Failure? {
      reply := Reject(400, validation.error);
      return;
    }
    var updates := validation.value;
    if updates.password.Some? && updates.password.value != [] {
      updates := updates.(password := Some(hash(updates.password.value)));
    }
    assert updates == HashPassword(validation.value, hash);
    var found := users.IndexOf(caller);
    if found.None? {
      reply := Respond(200, None);
      return;
    }
    var updated := ApplyUpdate(users.docs[found.value], updates);
    users.docs := users.docs[found.value := updated];
    reply := Respond(200, Some(ProfileOf(updated)));
  }

  /** DELETE /me: removes only the caller's record, if it is still there, and always answers 200. */
  method DeleteMe(users: UserCollection, caller: Id) returns (reply: Reply<string>)
    requires users.Valid()
    modifies users
    ensures users.Valid() && users.nextId == old(users.nextId)
    ensures reply == Respond(200, UserDeleted)
    ensures old(users.IndexOf(caller)).None? ==> users.docs == old(users.docs)
    ensures old(users.IndexOf(caller)).Some? ==> users.docs == RemoveAt(old(users.docs), old(users.IndexOf(caller)).value)
    ensures forall k :: 0 <= k < |users.docs| ==> users.docs[k].id != caller
  {
    var found := users.IndexOf(caller);
    if found.Some? {
      users.docs := RemoveAt(users.docs, found.value);
    }
    reply := Respond(200, UserDeleted);
  }
}
