/**
 * backend/controllers/authController.js: the register and login handlers that
 * backend/routes/authRoutes.js wires. Unlike the auth service they use the email exactly as
 * sent, accept any role the validators let through (ADMIN included) and create no profile row.
 */
module AuthController {
  import opened JsValues
  import opened Http
  import opened Schema
  import AuthService

  const EMAIL_TAKEN := "El email ya está en uso."
  const BAD_CREDENTIALS := "Credenciales incorrectas."
  /** A validation failure answers `{ errors: [...] }`, which carries no message. */
  const INVALID := ""

  /** The fields of `req.body` the two handlers read; absent fields are `None`. */
  datatype AuthBody = AuthBody(email: Option<string>, password: Option<string>, role: Option<string>)

  /** `role || "PATIENT"`. */
  function StoredRole(role: Option<string>): (r: string)
    ensures Truthy(role) ==> r == role.value
    ensures !Truthy(role) ==> r == PATIENT
  {
    if Truthy(role) then role.value else PATIENT
  }

  /**
   * register. `invalid` is whether the route's validators reported errors. A missing email
   * makes the lookup throw (500), a taken email gives 409 before any write, a missing
   * password makes bcrypt throw (500); otherwise one user row is created with the hash of
   * the password and `role || "PATIENT"`, and 201 answers its id, email and role.
   */
  method Register(s: Store, invalid: bool, b: AuthBody) returns (r: Response<Claims>)
    modifies s`users, s`userSeq
    requires s.Valid()
    ensures s.Valid()
    ensures invalid ==> r == Refuse(Error(BadRequest, INVALID))
    ensures !invalid && b.email.None? ==> r == Refuse(Error(ServerError, THROWN))
    ensures !invalid && b.email.Some? && old(s.EmailUsed(b.email.value, None)) ==>
              r == Refuse(Error(Conflict, EMAIL_TAKEN))
    ensures r.Reply? <==> !invalid && b.email.Some? && b.password.Some? && !old(s.EmailUsed(b.email.value, None))
    ensures r.Refuse? ==> s.users == old(s.users)
    ensures r.Reply? ==>
              var id, u := old(s.userSeq), User(b.email.value, Some(Hash(b.password.value)), Some(StoredRole(b.role)));
              id !in old(s.users) && s.users == old(s.users)[id := u]
              && r == Reply(Created, Claims(id, u.email, u.role))
    ensures old(s.Linked()) ==> s.Linked()
  {
    if invalid {
      return Refuse(Error(BadRequest, INVALID));
    }
    if b.email.None? {
      return Refuse(Error(ServerError, THROWN));
    }
    var existing := s.FindUserByEmail(b.email.value);
    if existing.Some? {
      return Refuse(Error(Conflict, EMAIL_TAKEN));
    }
    if b.password.None? {
      return Refuse(Error(ServerError, THROWN));
    }
    var u := User(b.email.value, Some(Hash(b.password.value)), Some(StoredRole(b.role)));
    var id := s.InsertUser(u);
    assert id.Some?;
    return Reply(Created, Claims(id.value, u.email, u.role));
  }

  /**
   * login. An unknown email and a wrong password give the same 401 and the same message;
   * a missing email, a missing password or a user without a stored hash make the lookup or
   * bcrypt throw (500). On success the token's claims are the user's id, email and role.
   */
  method Login(s: Store, invalid: bool, b: AuthBody) returns (r: Response<AuthService.Session>)
    requires s.UniqueEmails()
    ensures invalid ==> r == Refuse(Error(BadRequest, INVALID))
    ensures !invalid && b.email.Some? && !s.EmailUsed(b.email.value, None) ==>
              r == Refuse(Error(Unauthorized, BAD_CREDENTIALS))
    ensures !invalid && b.email.None? ==> r == Refuse(Error(ServerError, THROWN))
    ensures !invalid && b.email.Some? && b.password.Some?
            && (exists id :: id in s.users && s.users[id].email == b.email.value
                             && s.users[id].password.Some? && s.users[id].password != Some(Hash(b.password.value))) ==>
              r == Refuse(Error(Unauthorized, BAD_CREDENTIALS))
    ensures !invalid && b.email.Some?
            && (exists id :: id in s.users && s.users[id].email == b.email.value
                             && (b.password.None? || s.users[id].password.None?)) ==>
              r == Refuse(Error(ServerError, THROWN))
    ensures r.Refuse? && r.error.status == Unauthorized ==> r.error == Error(Unauthorized, BAD_CREDENTIALS)
    ensures r.Reply? <==>
              !invalid && b.email.Some? && b.password.Some?
              && exists id :: id in s.users && s.users[id].email == b.email.value
                              && s.users[id].password == Some(Hash(b.password.value))
    ensures r.Reply? ==>
              var id := r.body.user.id;
              id in s.users && s.users[id].email == b.email.value
              && r == Reply(Ok, AuthService.Session(AuthService.SignToken(id, s.users[id]),
                                                    Claims(id, s.users[id].email, s.users[id].role)))
  {
    if invalid {
      return Refuse(Error(BadRequest, INVALID));
    }
    if b.email.None? {
      return Refuse(Error(ServerError, THROWN));
    }
    var found := s.FindUserByEmail(b.email.value);
    if found.None? {
      return Refuse(Error(Unauthorized, BAD_CREDENTIALS));
    }
    var id := found.value;
    var u := s.users[id];
    if b.password.None? || u.password.None? {
      return Refuse(Error(ServerError, THROWN));
    }
    if !Compare(b.password.value, u.password.value) {
      return Refuse(Error(Unauthorized, BAD_CREDENTIALS));
    }
    var token := AuthService.SignToken(id, u);
    return Reply(Ok, AuthService.Session(token, Claims(id, u.email, u.role)));
  }

  /** me: answers the claims verifyToken stored on the request. */
  method Me(req: Request) returns (r: Response<Option<Claims>>)
    ensures r == Reply(Ok, req.user)
  {
    return Reply(Ok, req.user);
  }

  /**
   * The controller's register followed by its login with the same email and password
   * logs the new user in, with the role it was registered with.
   */
  method RegisterThenLogin(s: Store, b: AuthBody) returns (reg: Response<Claims>, log: Response<AuthService.Session>)
    modifies s`users, s`userSeq
    requires s.Valid()
    ensures reg.Reply? ==> log.Reply? && log.body.user == reg.body
  {
    reg := Register(s, false, b);
    if reg.Reply? {
      var id := reg.body.id;
      assert id in s.users && s.users[id].email == b.email.value;
      assert s.users[id].password == Some(Hash(b.password.value));
    }
    log := Login(s, false, b);
    if reg.Reply? && log.Reply? {
      var id := reg.body.id;
      var k := log.body.user.id;
      assert k in s.users && s.users[k].email == s.users[id].email;
      assert k == id;
    }
  }
}
