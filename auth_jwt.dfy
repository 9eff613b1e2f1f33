/**
 * backend/middlewares/authJwt.js: verifyToken reads the Authorization header, verifies its
 * bearer token and stores the decoded claims on the request; requireRole lets through
 * exactly the requests whose claims carry one of the listed roles.
 *
 * jwt.verify is the parameter `verify`: the claims of a token it accepts, or `None` when it
 * throws (bad signature, expired token, malformed token).
 */
module AuthJwt {
  import opened JsValues
  import opened Http

  const NO_TOKEN := "No token provided."
  const BAD_HEADER := "Invalid Authorization header."
  const BAD_TOKEN := "Unauthorized (invalid/expired token)."
  const NO_ROLE := "Unauthorized."
  const FORBIDDEN := "Forbidden."

  /**
   * `const [type, token] = header.split(" ")`, accepted when `type === "Bearer"` and
   * `token` is a non-empty string: the token, or `None`.
   */
  function HeaderToken(header: string): (t: Option<string>)
    ensures t.Some? ==> t.value != "" && ' ' !in t.value
  {
    var parts := Split(header, ' ');
    if parts[0] == "Bearer" && |parts| > 1 && parts[1] != "" then Some(parts[1]) else None
  }

  /** The header a client sends for token `t`: `` `Bearer ${t}` ``. */
  function BearerHeader(t: string): string {
    "Bearer " + t
  }

  /** `header` is "Bearer ", then `t`, then nothing or text that starts with a space. */
  predicate SentAs(header: string, t: string) {
    var h := BearerHeader(t);
    h <= header && (|header| == |h| || header[|h|] == ' ')
  }

  /**
   * An accepted header starts with "Bearer ", then the token, which is non-empty and has no
   * space; whatever follows the token starts with a space and is ignored.
   */
  lemma HeaderTokenShape(header: string, t: string)
    requires HeaderToken(header) == Some(t)
    ensures t != "" && ' ' !in t && SentAs(header, t)
  {
    var i, j := HeaderTokenAt(header);
    PrefixShape(header, i, j);
  }

  /** Where the accepted token sits: after "Bearer" and the first space, up to the next space. */
  lemma HeaderTokenAt(header: string) returns (i: nat, j: nat)
    requires HeaderToken(header).Some?
    ensures i < |header| && header[..i] == "Bearer" && header[i] == ' '
    ensures i + 1 + j <= |header| && (i + 1 + j == |header| || header[i + 1 + j] == ' ')
    ensures HeaderToken(header).value == header[i + 1..i + 1 + j] != ""
    ensures forall k :: i + 1 <= k < i + 1 + j ==> header[k] != ' '
  {
    i := IndexOf(header, ' ');
    SplitUnfold(header, ' ');
    var after := header[i + 1..];
    j := IndexOf(after, ' ');
    assert HeaderToken(header).value == after[..j];
    forall k | i + 1 <= k < i + 1 + j ensures header[k] != ' ' {
      assert header[k] == after[k - (i + 1)];
    }
  }

  lemma PrefixShape(header: string, i: nat, j: nat)
    requires i < |header| && header[..i] == "Bearer" && header[i] == ' '
    requires i + 1 + j <= |header| && (i + 1 + j == |header| || header[i + 1 + j] == ' ')
    requires forall k :: i + 1 <= k < i + 1 + j ==> header[k] != ' '
    ensures ' ' !in header[i + 1..i + 1 + j]
    ensures SentAs(header, header[i + 1..i + 1 + j])
  {
    var t := header[i + 1..i + 1 + j];
    assert header[..i + 1 + j] == header[..i] + [' '] + t;
    assert BearerHeader(t) == header[..i + 1 + j];
  }

  /** A token without spaces, sent as `Bearer <token>`, is the token verifyToken reads back. */
  lemma {:induction false} BearerHeaderRoundTrip(t: string)
    requires t != "" && ' ' !in t
    ensures HeaderToken(BearerHeader(t)) == Some(t)
  {
    var h := BearerHeader(t);
    assert IndexOf(h, ' ') == 6 by {
      assert h[6] == ' ';
      forall j | 0 <= j < 6 ensures h[j] != ' ' { }
      IndexOfFirst(h, ' ', 6);
    }
    assert h[7..] == t;
    assert IndexOf(t, ' ') == |t| by {
      IndexOfAbsent(t, ' ');
    }
    assert Split(t, ' ') == [t];
    assert Split(h, ' ') == [h[..6]] + Split(t, ' ');
  }

  /**
   * verifyToken. A missing or empty header, a header that is not `Bearer <token>`, and a
   * token `verify` rejects each answer 401 and leave `req.user` as it was; otherwise
   * `req.user` becomes the decoded claims and the request continues.
   */
  method VerifyToken(req: Request, verify: string -> Option<Claims>) returns (d: Decision)
    modifies req`user
    ensures !Truthy(req.authorization) ==> d == Reject(Error(Unauthorized, NO_TOKEN))
    ensures Truthy(req.authorization) && HeaderToken(req.authorization.value).None? ==>
              d == Reject(Error(Unauthorized, BAD_HEADER))
    ensures Truthy(req.authorization) && HeaderToken(req.authorization.value).Some?
            && verify(HeaderToken(req.authorization.value).value).None? ==>
              d == Reject(Error(Unauthorized, BAD_TOKEN))
    ensures d.Next? <==> Truthy(req.authorization) && HeaderToken(req.authorization.value).Some?
                         && verify(HeaderToken(req.authorization.value).value).Some?
    ensures d.Next? ==> req.user == verify(HeaderToken(req.authorization.value).value)
    ensures d.Reject? ==> req.user == old(req.user)
  {
    if !Truthy(req.authorization) {
      return Reject(Error(Unauthorized, NO_TOKEN));
    }
    var token := HeaderToken(req.authorization.value);
    if token.None? {
      return Reject(Error(Unauthorized, BAD_HEADER));
    }
    var decoded := verify(token.value);
    if decoded.None? {
      return Reject(Error(Unauthorized, BAD_TOKEN));
    }
    req.user := decoded;
    return Next;
  }

  /** `!req.user?.role`: no claims, or claims whose role is absent or empty. */
  predicate HasRole(user: Option<Claims>) {
    user.Some? && Truthy(user.value.role)
  }

  /**
   * requireRole(...roles): 401 without a role, 403 with a role outside `roles`, and `next()`
   * exactly for the listed roles.
   */
  function RequireRole(roles: seq<string>, user: Option<Claims>): (d: Decision)
    ensures d.Next? <==> HasRole(user) && user.value.role.value in roles
    ensures !HasRole(user) ==> d == Reject(Error(Unauthorized, NO_ROLE))
    ensures HasRole(user) && user.value.role.value !in roles ==> d == Reject(Error(Forbidden, FORBIDDEN))
  {
    if !HasRole(user) then Reject(Error(Unauthorized, NO_ROLE))
    else if user.value.role.value !in roles then Reject(Error(Forbidden, FORBIDDEN))
    else Next
  }

  /**
   * `verifyToken, requireRole(...roles)` in front of a handler: the handler runs exactly
   * when the bearer token verifies and its claims carry one of `roles`; a bad token answers
   * 401 before the role is looked at.
   */
  method Authorize(req: Request, verify: string -> Option<Claims>, roles: seq<string>) returns (d: Decision)
    modifies req`user
    ensures d.Next? <==> Truthy(req.authorization) && HeaderToken(req.authorization.value).Some?
                         && HasRole(verify(HeaderToken(req.authorization.value).value))
                         && verify(HeaderToken(req.authorization.value).value).value.role.value in roles
    ensures d.Next? ==> req.user == verify(HeaderToken(req.authorization.value).value)
    ensures d.Reject? ==> d.error.status == Unauthorized || d.error.status == Forbidden
  {
    d := VerifyToken(req, verify);
    if d.Next? {
      d := RequireRole(roles, req.user);
    }
  }
}
