/**
 * How an Express router picks the handler of a request: the routes are tried in the order
 * they were declared and the first whose verb and path pattern match wins. A route is either
 * public or guarded by `verifyToken, requireRole(...roles)`.
 *
 * Paths are lists of segments below the router's mount point.
 */
module Router {
  import opened JsValues
  import opened Http
  import AuthJwt

  datatype Verb = GET | POST | PUT | DELETE

  /** A path segment of a route: a literal, or a `:name` parameter that matches any non-empty segment. */
  datatype Seg = Lit(text: string) | Param(name: string)

  /** A declared route: verb, pattern, the roles that guard it (`None` for a public route), and its handler. */
  datatype Route<H> = Route(verb: Verb, pattern: seq<Seg>, roles: Option<seq<string>>, handler: H)

  predicate SegMatches(p: Seg, segment: string) {
    if p.Lit? then segment == p.text else segment != ""
  }

  predicate PathMatches(pattern: seq<Seg>, path: seq<string>) {
    |pattern| == |path| && forall i :: 0 <= i < |path| ==> SegMatches(pattern[i], path[i])
  }

  predicate Accepts<H>(route: Route<H>, verb: Verb, path: seq<string>) {
    route.verb == verb && PathMatches(route.pattern, path)
  }

  /** The index of the first route, from `k` on, that accepts the request. */
  function DispatchFrom<H>(table: seq<Route<H>>, k: nat, verb: Verb, path: seq<string>): (r: Option<nat>)
    requires k <= |table|
    ensures r.Some? ==> k <= r.value < |table| && Accepts(table[r.value], verb, path)
                        && forall j :: k <= j < r.value ==> !Accepts(table[j], verb, path)
    ensures r.None? ==> forall j :: k <= j < |table| ==> !Accepts(table[j], verb, path)
    decreases |table| - k
  {
    if k == |table| then None
    else if Accepts(table[k], verb, path) then Some(k)
    else DispatchFrom(table, k + 1, verb, path)
  }

  /** The index of the route that handles the request: the first declared one that accepts it. */
  function Dispatch<H>(table: seq<Route<H>>, verb: Verb, path: seq<string>): (r: Option<nat>)
    ensures r.Some? ==> r.value < |table| && Accepts(table[r.value], verb, path)
                        && forall j :: 0 <= j < r.value ==> !Accepts(table[j], verb, path)
    ensures r.None? ==> forall j :: 0 <= j < |table| ==> !Accepts(table[j], verb, path)
  {
    DispatchFrom(table, 0, verb, path)
  }

  /** A route reached with no earlier route accepting the request is the one dispatch picks. */
  lemma {:induction false} DispatchFromIsFirst<H>(table: seq<Route<H>>, k: nat, verb: Verb, path: seq<string>, i: nat)
    requires k <= i < |table| && Accepts(table[i], verb, path)
    requires forall j :: k <= j < i ==> !Accepts(table[j], verb, path)
    ensures DispatchFrom(table, k, verb, path) == Some(i)
    decreases i - k
  {
    if k < i {
      DispatchFromIsFirst(table, k + 1, verb, path, i);
    }
  }

  /** The first declared route that accepts the request is the one that handles it. */
  lemma DispatchIsFirst<H>(table: seq<Route<H>>, verb: Verb, path: seq<string>, i: nat)
    requires i < |table| && Accepts(table[i], verb, path)
    requires forall j :: 0 <= j < i ==> !Accepts(table[j], verb, path)
    ensures Dispatch(table, verb, path) == Some(i)
  {
    DispatchFromIsFirst(table, 0, verb, path, i);
  }

  /**
   * The middleware chain a route puts in front of its handler: nothing for a public route,
   * otherwise requireRole on the claims verifyToken stored.
   */
  function Gate<H>(route: Route<H>, user: Option<Claims>): (d: Decision)
    ensures route.roles.None? ==> d == Next
    ensures route.roles.Some? ==> d == AuthJwt.RequireRole(route.roles.value, user)
  {
    if route.roles.None? then Next else AuthJwt.RequireRole(route.roles.value, user)
  }

  /**
   * A request arriving at a router: the handler of the first accepting route, or none
   * (Express's 404), together with the decision of that route's middleware. A public route
   * lets every request through and leaves `req.user` alone; a guarded one runs
   * `verifyToken, requireRole(...roles)`.
   */
  method Admit<H>(table: seq<Route<H>>, req: Request, verify: string -> Option<Claims>, verb: Verb, path: seq<string>)
    returns (handler: Option<H>, d: Decision)
    modifies req`user
    ensures Dispatch(table, verb, path).None? ==> handler.None? && req.user == old(req.user)
    ensures Dispatch(table, verb, path).Some? ==> handler == Some(table[Dispatch(table, verb, path).value].handler)
    ensures Dispatch(table, verb, path).Some? && table[Dispatch(table, verb, path).value].roles.None? ==>
              d == Next && req.user == old(req.user)
    ensures Dispatch(table, verb, path).Some? && table[Dispatch(table, verb, path).value].roles.Some? ==>
              (d.Next? <==> Truthy(req.authorization) && AuthJwt.HeaderToken(req.authorization.value).Some?
                            && AuthJwt.HasRole(verify(AuthJwt.HeaderToken(req.authorization.value).value))
                            && verify(AuthJwt.HeaderToken(req.authorization.value).value).value.role.value
                                 in table[Dispatch(table, verb, path).value].roles.value)
  {
    var i := Dispatch(table, verb, path);
    if i.None? {
      return None, Next;
    }
    var route := table[i.value];
    handler := Some(route.handler);
    if route.roles.None? {
      d := Next;
    } else {
      d := AuthJwt.Authorize(req, verify, route.roles.value);
    }
  }
}
