/**
 * The role guard of server/middlewares/checkRole.js: `checkRole(allowedRoles)`
 * builds an Express middleware that answers 401 without an authenticated
 * caller, 403 when the caller's role is not listed, and otherwise passes
 * the request on without writing a response.
 */
module CheckRole {
  import opened Wrappers

  /** `req.user` as the authentication middleware fills it in. */
  datatype Caller = Caller(id: string, tenantId: string, role: string)

  /** A response that ends a request: a status code and its `message`. */
  datatype Refusal = Refusal(status: int, message: string)

  /** What the guard does with the request. */
  datatype Decision = Unauthorized | Forbidden | Next

  /** The response the guard writes, if any. */
  function GuardRefusal(d: Decision): Option<Refusal> {
    match d
    case Unauthorized => Some(Refusal(401, "Unauthorized"))
    case Forbidden => Some(Refusal(403, "Forbidden"))
    case Next => None
  }

  /** `checkRole(allowedRoles = [])`: an omitted list is the empty list. */
  function AllowedRoles(allowedRoles: Option<seq<string>>): seq<string> {
    allowedRoles.GetOr([])
  }

  /** `roleGuard(req, res, next)`: the caller is checked before the role. */
  function RoleGuard(allowedRoles: Option<seq<string>>, user: Option<Caller>): (d: Decision)
    ensures d == Unauthorized <==> user.None?
    ensures d == Next <==> user.Some? && user.value.role in AllowedRoles(allowedRoles)
    ensures d == Forbidden <==> user.Some? && user.value.role !in AllowedRoles(allowedRoles)
  {
    if user.None? then Unauthorized
    else if user.value.role !in AllowedRoles(allowedRoles) then Forbidden
    else Next
  }

  /** Only a passed request goes on without a response being written. */
  lemma ResponseWrittenUnlessNext(allowedRoles: Option<seq<string>>, user: Option<Caller>)
    ensures var r := GuardRefusal(RoleGuard(allowedRoles, user));
      && (r.None? <==> user.Some? && user.value.role in AllowedRoles(allowedRoles))
      && (r == Some(Refusal(401, "Unauthorized")) <==> user.None?)
      && (r == Some(Refusal(403, "Forbidden")) <==> user.Some? && user.value.role !in AllowedRoles(allowedRoles))
  {
  }

  /** Without a list (or with an empty one) the guard lets nobody through:
    * every authenticated caller gets 403. */
  lemma DefaultListForbidsEveryone(caller: Caller)
    ensures RoleGuard(None, Some(caller)) == Forbidden
    ensures RoleGuard(Some([]), Some(caller)) == Forbidden
  {
  }

  /** A caller let through by a list is let through by every list that
    * contains it; an anonymous request is refused whatever the list. */
  lemma WiderListAdmitsMore(narrow: seq<string>, wide: seq<string>, user: Option<Caller>)
    requires forall r :: r in narrow ==> r in wide
    ensures RoleGuard(Some(narrow), user) == Next ==> RoleGuard(Some(wide), user) == Next
    ensures RoleGuard(Some(wide), user) == Forbidden ==> RoleGuard(Some(narrow), user) == Forbidden
    ensures user.None? ==> RoleGuard(Some(narrow), user) == Unauthorized
  {
  }

  /** The upload and retry routes' `checkRole(['admin', 'editor'])`: admins
    * and editors pass, every other role gets 403. */
  lemma EditorsAndAdminsPass(caller: Caller)
    ensures RoleGuard(Some(["admin", "editor"]), Some(caller)) == Next <==>
      caller.role == "admin" || caller.role == "editor"
  {
  }
}
