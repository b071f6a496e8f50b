/**
 * The admin user routes of server/routes/user.routes.js: `POST /` checks
 * and defaults for a new user, and `PATCH /:id/role`, which checks the role
 * before the lookup and then changes only the found user's role. Both sit
 * behind `checkRole(['admin'])`. Password hashing is not modelled.
 */
module UserRoutes {
  import opened Wrappers
  import opened JsText
  import opened CheckRole

  /** `Object.values(User.ROLES)`. */
  const ROLES: seq<string> := ["viewer", "editor", "admin"]
  const DEFAULT_ROLE: string := "viewer"
  const MIN_PASSWORD: nat := 8

  /** The start of the message of the error `user.save()` throws when a
    * schema validator fails; the app's error handler answers it with 500. */
  const VALIDATION_FAILED: string := "User validation failed"

  /** `x` present and not the empty string. */
  predicate Given(x: Option<string>) {
    x.Some? && x.value != ""
  }

  /** The decoded `req.body` of `POST /`. */
  datatype UserBody = UserBody(email: Option<string>, password: Option<string>, name: Option<string>,
                               role: Option<string>, tenantId: Option<string>)

  /** The user to create, with its fields as the schema stores them (its
    * password is hashed on save). */
  datatype NewUser = NewUser(email: string, password: string, name: string, tenantId: string, role: string)

  /** `tenantId || req.user.tenantId`. */
  function ResolvedTenant(body: UserBody, caller: Caller): string {
    if Given(body.tenantId) then body.tenantId.value else caller.tenantId
  }

  /** The schema's `lowercase` and `trim` setters on the e-mail, which run
    * both when a user is built and on the `findOne` filter. */
  function StoredEmail(email: string): string {
    ToLower(Trim(email))
  }

  /** `/.+@.+\..+/.test(e)`: an `'@'` and a later `'.'`, with at least one
    * character before, between and after them, on one line (`.` matches
    * anything but a line terminator). */
  predicate EmailShaped(e: string) {
    exists i, j :: 1 <= i && i + 2 <= j && j + 2 <= |e| && e[i] == '@' && e[j] == '.'
      && forall k :: i - 1 <= k < j + 2 ==> !IsLineTerminator(e[k])
  }

  /** The schema's validators at `save()` for what the route checked not
    * itself: the required tenant, e-mail and name are non-empty, and the
    * e-mail has the expected shape. */
  predicate SchemaValid(u: NewUser) {
    u.tenantId != "" && u.email != "" && EmailShaped(u.email) && u.name != ""
  }

  /** `POST /` after authentication; `existing` holds the (stored e-mail,
    * tenant) pairs already registered. */
  function CreateUser(user: Option<Caller>, body: UserBody, existing: set<(string, string)>): Result<NewUser, Refusal> {
    var guard := RoleGuard(Some(["admin"]), user);
    if guard != Next then Failure(GuardRefusal(guard).value)
    else
      var tenant := ResolvedTenant(body, user.value);
      if !Given(body.email) || !Given(body.password) || !Given(body.name) then
        Failure(Refusal(400, "email, password, and name are required"))
      else if |body.password.value| < MIN_PASSWORD then Failure(Refusal(400, "Password must be at least 8 characters"))
      else if Given(body.role) && body.role.value !in ROLES then Failure(Refusal(400, "Invalid role"))
      else if (StoredEmail(body.email.value), tenant) in existing then Failure(Refusal(409, "User already exists"))
      else
        var u := NewUser(StoredEmail(body.email.value), body.password.value, Trim(body.name.value), tenant,
                         if Given(body.role) then body.role.value else DEFAULT_ROLE);
        if !SchemaValid(u) then Failure(Refusal(500, VALIDATION_FAILED)) else Success(u)
  }

  /** A created user has every required field, a password of at least 8
    * characters, a listed role (viewer when none was given), the tenant
    * given in the body or else the admin's, the e-mail trimmed and
    * lower-cased and of the expected shape, the name trimmed, and an
    * (e-mail, tenant) pair that did not exist. */
  lemma CreatedUserIsValid(user: Option<Caller>, body: UserBody, existing: set<(string, string)>)
    requires CreateUser(user, body, existing).Success?
    ensures var u := CreateUser(user, body, existing).value;
      && user.Some? && user.value.role == "admin"
      && body.email.Some? && body.name.Some?
      && u.email == StoredEmail(body.email.value) && u.name == Trim(body.name.value)
      && SchemaValid(u) && |u.password| >= MIN_PASSWORD
      && u.role in ROLES
      && (!Given(body.role) ==> u.role == DEFAULT_ROLE)
      && u.tenantId == (if Given(body.tenantId) then body.tenantId.value else user.value.tenantId)
      && (u.email, u.tenantId) !in existing
  {
  }

  /** The checks in order: missing fields, then a short password, then an
    * unknown role, then an existing pair (409), then the schema's
    * validators (500); each answers alone. The missing-field test looks at
    * the raw values, the lookup at the stored e-mail. */
  lemma CreateUserCheckOrder(admin: Caller, body: UserBody, existing: set<(string, string)>)
    requires admin.role == "admin"
    ensures !Given(body.email) || !Given(body.password) || !Given(body.name) ==>
      CreateUser(Some(admin), body, existing) == Failure(Refusal(400, "email, password, and name are required"))
    ensures (&& Given(body.email) && Given(body.password) && Given(body.name)
             && |body.password.value| < MIN_PASSWORD) ==>
      CreateUser(Some(admin), body, existing) == Failure(Refusal(400, "Password must be at least 8 characters"))
    ensures (&& Given(body.email) && Given(body.password) && Given(body.name)
             && |body.password.value| >= MIN_PASSWORD
             && Given(body.role) && body.role.value !in ROLES) ==>
      CreateUser(Some(admin), body, existing) == Failure(Refusal(400, "Invalid role"))
    ensures (&& Given(body.email) && Given(body.password) && Given(body.name)
             && |body.password.value| >= MIN_PASSWORD
             && (!Given(body.role) || body.role.value in ROLES)
             && (StoredEmail(body.email.value), ResolvedTenant(body, admin)) in existing) ==>
      CreateUser(Some(admin), body, existing) == Failure(Refusal(409, "User already exists"))
    ensures (&& Given(body.email) && Given(body.password) && Given(body.name)
             && |body.password.value| >= MIN_PASSWORD
             && (!Given(body.role) || body.role.value in ROLES)
             && (StoredEmail(body.email.value), ResolvedTenant(body, admin)) !in existing
             && (!EmailShaped(StoredEmail(body.email.value)) || Trim(body.name.value) == ""
                 || ResolvedTenant(body, admin) == "")) ==>
      CreateUser(Some(admin), body, existing) == Failure(Refusal(500, VALIDATION_FAILED))
  {
  }

  /** Once a user is created, every later request for the same stored
    * e-mail in the same tenant answers 409, whatever its case or the
    * blanks around it, once it passes the field checks. */
  lemma SecondCreateConflicts(admin: Caller, body: UserBody, again: UserBody, existing: set<(string, string)>)
    requires CreateUser(Some(admin), body, existing).Success?
    requires Given(again.email) && Given(again.password) && Given(again.name)
    requires |again.password.value| >= MIN_PASSWORD && (!Given(again.role) || again.role.value in ROLES)
    requires StoredEmail(again.email.value) == StoredEmail(body.email.value)
    requires ResolvedTenant(again, admin) == ResolvedTenant(body, admin)
    ensures var u := CreateUser(Some(admin), body, existing).value;
      CreateUser(Some(admin), again, existing + {(u.email, u.tenantId)}) == Failure(Refusal(409, "User already exists"))
  {
    CreatedUserIsValid(Some(admin), body, existing);
  }

  /** "a@x.io" is stored as it is and has the expected shape. */
  lemma PlainEmailStored()
    ensures StoredEmail("a@x.io") == "a@x.io" && EmailShaped("a@x.io")
  {
    var e := "a@x.io";
    assert TrimStart(e) == e;
    assert TrimEnd(e) == e;
    assert ToLower(e) == e;
    assert e[1] == '@' && e[3] == '.';
    assert forall k :: 0 <= k < 5 ==> !IsLineTerminator(e[k]);
  }

  /** Conversely, a request from an admin that passes every check creates
    * the user with the stored fields. */
  lemma CreateUserSucceedsWhenChecksPass(admin: Caller, body: UserBody, existing: set<(string, string)>)
    requires admin.role == "admin"
    requires Given(body.email) && Given(body.password) && Given(body.name)
    requires |body.password.value| >= MIN_PASSWORD && (!Given(body.role) || body.role.value in ROLES)
    requires (StoredEmail(body.email.value), ResolvedTenant(body, admin)) !in existing
    requires EmailShaped(StoredEmail(body.email.value)) && Trim(body.name.value) != ""
    requires ResolvedTenant(body, admin) != ""
    ensures CreateUser(Some(admin), body, existing) ==
      Success(NewUser(StoredEmail(body.email.value), body.password.value, Trim(body.name.value),
                      ResolvedTenant(body, admin), if Given(body.role) then body.role.value else DEFAULT_ROLE))
  {
  }

  /** An ordinary request creates the user, a viewer of the admin's tenant. */
  lemma PlainUserCreated(admin: Caller, password: string)
    requires admin.role == "admin" && admin.tenantId != "" && |password| >= MIN_PASSWORD
    ensures CreateUser(Some(admin), UserBody(Some("a@x.io"), Some(password), Some("Ann"), None, None), {})
         == Success(NewUser("a@x.io", password, "Ann", admin.tenantId, DEFAULT_ROLE))
  {
    PlainEmailStored();
    assert Trim("Ann") == "Ann" by {
      assert TrimStart("Ann") == "Ann";
      assert TrimEnd("Ann") == "Ann";
    }
    var body := UserBody(Some("a@x.io"), Some(password), Some("Ann"), None, None);
    assert ResolvedTenant(body, admin) == admin.tenantId;
    CreateUserSucceedsWhenChecksPass(admin, body, {});
  }

  /** "A@X.io" is stored as "a@x.io", so it conflicts with that user. */
  lemma CaseVariantConflicts(admin: Caller, password: string, name: string)
    requires admin.role == "admin" && admin.tenantId != "" && |password| >= MIN_PASSWORD && name != ""
    ensures CreateUser(Some(admin), UserBody(Some("A@X.io"), Some(password), Some(name), None, None),
                       {("a@x.io", admin.tenantId)}) == Failure(Refusal(409, "User already exists"))
  {
    assert TrimStart("A@X.io") == "A@X.io";
    assert TrimEnd("A@X.io") == "A@X.io";
    assert ToLower("A@X.io") == "a@x.io";
  }

  // ---------------------------------------------------------------------
  // PATCH /:id/role
  // ---------------------------------------------------------------------

  /** A `User` document; only its role is ever changed here. */
  class UserRecord {
    const id: string
    const email: string
    const name: string
    const tenantId: string
    var role: string

    constructor (id: string, email: string, name: string, tenantId: string, role: string)
      ensures this.id == id && this.email == email && this.name == name
      ensures this.tenantId == tenantId && this.role == role
    {
      this.id, this.email, this.name, this.tenantId, this.role := id, email, name, tenantId, role;
    }
  }

  /** The JSON the route answers with. */
  datatype UserView = UserView(id: string, email: string, name: string, role: string, tenantId: string)

  /** The decision of `PATCH /:id/role`: the guard, then the role (before
    * any lookup), then whether the tenant-scoped lookup found the user. */
  function PatchRoleCheck(user: Option<Caller>, role: Option<string>, found: bool): Option<Refusal> {
    var guard := RoleGuard(Some(["admin"]), user);
    if guard != Next then GuardRefusal(guard)
    else if role.None? || role.value !in ROLES then Some(Refusal(400, "Invalid role"))
    else if !found then Some(Refusal(404, "User not found"))
    else None
  }

  /** A role change passes exactly for an admin caller, a listed role and a
    * user that exists; an unlisted role is refused whether or not the user exists. */
  lemma PatchRoleCheckCases(user: Option<Caller>, role: Option<string>, found: bool)
    ensures PatchRoleCheck(user, role, found).None? <==>
      user.Some? && user.value.role == "admin" && role.Some? && role.value in ROLES && found
    ensures user.Some? && user.value.role == "admin" && (role.None? || role.value !in ROLES) ==>
      PatchRoleCheck(user, role, found) == Some(Refusal(400, "Invalid role"))
    ensures user.Some? && user.value.role == "admin" && role.Some? && role.value in ROLES && !found ==>
      PatchRoleCheck(user, role, found) == Some(Refusal(404, "User not found"))
  {
  }

  /** `PATCH /:id/role` on the record the lookup found (or `null`): only the
    * role changes, and only when the checks pass. */
  method PatchRole(user: Option<Caller>, role: Option<string>, target: UserRecord?)
    returns (r: Result<UserView, Refusal>)
    modifies target
    ensures PatchRoleCheck(user, role, target != null).Some? ==>
      r == Failure(PatchRoleCheck(user, role, target != null).value)
      && (target != null ==> target.role == old(target.role))
    ensures PatchRoleCheck(user, role, target != null).None? ==>
      && target != null && target.role == role.value
      && r == Success(UserView(target.id, target.email, target.name, role.value, target.tenantId))
  {
    var refusal := PatchRoleCheck(user, role, target != null);
    if refusal.Some? {
      return Failure(refusal.value);
    }
    target.role := role.value;
    r := Success(UserView(target.id, target.email, target.name, target.role, target.tenantId));
  }
}
