/**
 * What every handler shares: the HTTP status a handler answers with, the roles,
 * the token claims, the request object that the middlewares decorate, and the
 * symbolic stand-ins for bcrypt and jsonwebtoken.
 */
module Http {
  import opened JsValues

  /** The status codes the handlers answer with; the JSON envelopes are not modelled. */
  datatype Status = Ok | Created | BadRequest | Unauthorized | Forbidden | NotFound | Conflict | ServerError
  {
    function Code(): (c: int)
      ensures (c < 400) <==> (this == Ok || this == Created)
    {
      match this
      case Ok => 200
      case Created => 201
      case BadRequest => 400
      case Unauthorized => 401
      case Forbidden => 403
      case NotFound => 404
      case Conflict => 409
      case ServerError => 500
    }

    predicate Success() {
      this == Ok || this == Created
    }
  }

  const ADMIN: string := "ADMIN"
  const CENTRE: string := "CENTRE"
  const THERAPIST: string := "THERAPIST"
  const PATIENT: string := "PATIENT"

  /** The payload a token carries: `{ id, email, role }`; `role` is null for users created without one. */
  datatype Claims = Claims(id: int, email: string, role: Option<string>)

  /** A signed token, kept symbolic: the secret and the expiry are not modelled. */
  datatype Token = Signed(claims: Claims)

  /** A bcrypt digest, kept symbolic. */
  datatype Digest = Bcrypt(plain: string)

  function Hash(password: string): Digest {
    Bcrypt(password)
  }

  /** `bcrypt.compare(password, digest)`. */
  predicate Compare(password: string, digest: Digest) {
    digest == Bcrypt(password)
  }

  /**
   * The request as the middlewares and the centre handlers see it: the Authorization
   * header, `req.user` (set by verifyToken) and `req.params.id`.
   */
  class Request {
    var authorization: Option<string>
    var user: Option<Claims>
    var paramId: IdValue

    constructor(authorization: Option<string>, paramId: IdValue)
      ensures this.authorization == authorization && this.paramId == paramId && user.None?
    {
      this.authorization := authorization;
      this.paramId := paramId;
      this.user := None;
    }
  }

  /** An error answer: its status and its `message`. */
  datatype Error = Error(status: Status, message: string)

  /**
   * The message of an error the store, bcrypt or the ORM throws on its own: the handlers
   * answer 500 with the library's text, which the model does not carry.
   */
  const THROWN: string := ""

  /** What a service returns to its caller, or the error it throws. */
  datatype Result<T> = Success(value: T) | Failure(error: Error)

  /** What a handler answers: a success status with its body, or an error. */
  datatype Response<T> = Reply(status: Status, body: T) | Refuse(error: Error)
  {
    function StatusOf(): Status {
      if Reply? then status else error.status
    }
  }

  /** What a middleware decides: continue with `next()`, or answer with an error. */
  datatype Decision = Next | Reject(error: Error)
}
