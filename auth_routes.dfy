/**
 * backend/routes/authRoutes.js: the validators in front of the auth controller's register
 * and login, and `/me` behind verifyToken.
 *
 * express-validator's isEmail is the parameter `isEmail`; an absent field is checked as
 * the empty string, and `optional()` skips only an absent field. The body shows a role sent
 * as JSON `null` as no role, so the flag `roleNull` says that the request carried one:
 * `optional()` does not skip it and `isIn` refuses it.
 */
module AuthRoutes {
  import opened JsValues
  import opened Http
  import opened Schema
  import AuthJwt
  import AuthController
  import AuthService

  /** The roles `body("role").optional().isIn([...])` admits. */
  const REGISTER_ROLES: seq<string> := [ADMIN, CENTRE, THERAPIST, PATIENT]

  /** Whether `body("email").isEmail()` fails. */
  predicate EmailInvalid(isEmail: string -> bool, email: Option<string>) {
    !isEmail(OrElse(email, ""))
  }

  /**
   * The register validators report errors: the email is not an email, the password is
   * shorter than 6 characters, or a role is given (a null one included) that is not one of
   * the four roles.
   */
  function RegisterInvalid(isEmail: string -> bool, b: AuthController.AuthBody, roleNull: bool): (bad: bool)
    ensures !bad ==> b.password.Some? && |b.password.value| >= 6
    ensures !bad ==> !roleNull && (b.role.None? || b.role.value in REGISTER_ROLES)
    ensures !isEmail("") && b.email.None? ==> bad
  {
    EmailInvalid(isEmail, b.email)
    || |OrElse(b.password, "")| < 6
    || roleNull
    || (b.role.Some? && b.role.value !in REGISTER_ROLES)
  }

  /** The login validators report errors: the email is not an email, or the password is empty. */
  function LoginInvalid(isEmail: string -> bool, b: AuthController.AuthBody): (bad: bool)
    ensures !bad ==> b.password.Some? && b.password.value != ""
    ensures !bad ==> isEmail(OrElse(b.email, ""))
  {
    EmailInvalid(isEmail, b.email) || OrElse(b.password, "") == ""
  }

  /**
   * POST /register. A password shorter than 6 characters, an unknown role or a null role is
   * answered 400 and writes nothing. A created user keeps the role it asked for, ADMIN
   * included, and gets PATIENT when it sent no role field.
   */
  method Register(s: Store, isEmail: string -> bool, b: AuthController.AuthBody, roleNull: bool) returns (r: Response<Claims>)
    modifies s`users, s`userSeq
    requires s.Valid()
    ensures s.Valid()
    ensures |OrElse(b.password, "")| < 6 ==> r.StatusOf() == BadRequest && s.users == old(s.users)
    ensures b.role.Some? && b.role.value !in REGISTER_ROLES ==> r.StatusOf() == BadRequest && s.users == old(s.users)
    ensures roleNull ==> r.StatusOf() == BadRequest && s.users == old(s.users)
    ensures r.Reply? ==> r.body.role == Some(if b.role.Some? then b.role.value else PATIENT)
    ensures b.role == Some(ADMIN) && !roleNull && b.email.Some? && isEmail(b.email.value) && b.password.Some?
            && |b.password.value| >= 6 && !old(s.EmailUsed(b.email.value, None)) ==>
              r.Reply? && r.body.role == Some(ADMIN)
  {
    var bad := RegisterInvalid(isEmail, b, roleNull);
    r := AuthController.Register(s, bad, b);
  }

  /** POST /login: an empty password never reaches the store. */
  method Login(s: Store, isEmail: string -> bool, b: AuthController.AuthBody) returns (r: Response<AuthService.Session>)
    requires s.UniqueEmails()
    ensures OrElse(b.password, "") == "" ==> r.StatusOf() == BadRequest
    ensures r.Reply? ==> b.email.Some? && isEmail(b.email.value) && b.password.Some? && b.password.value != ""
  {
    var bad := LoginInvalid(isEmail, b);
    r := AuthController.Login(s, bad, b);
  }

  /**
   * GET /me: answered only for a request whose bearer token verifies, and then with the
   * claims of that token; every other request gets verifyToken's 401.
   */
  method Me(req: Request, verify: string -> Option<Claims>) returns (r: Response<Option<Claims>>)
    modifies req`user
    ensures r.Reply? <==> Truthy(req.authorization) && AuthJwt.HeaderToken(req.authorization.value).Some?
                          && verify(AuthJwt.HeaderToken(req.authorization.value).value).Some?
    ensures r.Reply? ==> r.body == verify(AuthJwt.HeaderToken(req.authorization.value).value)
    ensures r.Refuse? ==> r.error.status == Unauthorized
  {
    var d := AuthJwt.VerifyToken(req, verify);
    if d.Reject? {
      return Refuse(d.error);
    }
    r := AuthController.Me(req);
  }
}
