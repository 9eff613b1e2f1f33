/**
 * backend/middlewares/role.js: allowRoles(...permitted), a second spelling of requireRole
 * with its own messages.
 */
module RoleMiddleware {
  import opened JsValues
  import opened Http
  import AuthJwt

  const NOT_AUTHENTICATED := "No autenticado"
  const NOT_PERMITTED := "No tienes permisos para esta acción"

  /**
   * allowRoles: 401 when there is no user or no role, 403 when the role is not permitted,
   * `next()` otherwise. On every request it decides as requireRole does with the same list;
   * only the messages differ.
   */
  function AllowRoles(permitted: seq<string>, user: Option<Claims>): (d: Decision)
    ensures d.Next? <==> user.Some? && Truthy(user.value.role) && user.value.role.value in permitted
    ensures !(user.Some? && Truthy(user.value.role)) ==> d == Reject(Error(Unauthorized, NOT_AUTHENTICATED))
    ensures user.Some? && Truthy(user.value.role) && user.value.role.value !in permitted ==>
              d == Reject(Error(Forbidden, NOT_PERMITTED))
    ensures d.Next? == AuthJwt.RequireRole(permitted, user).Next?
    ensures d.Reject? ==> d.error.status == AuthJwt.RequireRole(permitted, user).error.status
  {
    if user.None? || !Truthy(user.value.role) then Reject(Error(Unauthorized, NOT_AUTHENTICATED))
    else if user.value.role.value !in permitted then Reject(Error(Forbidden, NOT_PERMITTED))
    else Next
  }
}
