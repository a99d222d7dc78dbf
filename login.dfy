/** Login: the token is kept, the user payload is normalised so that both
    role casings read as `role.permissions`, and a flat user record is
    stored alongside. Also the small token holder used by the auth pages. */
module Login {
  import opened Wrappers
  import opened AccessTypes
  import opened ModulesMap

  /** The login answer; a missing `user` makes the normalisation throw. */
  datatype LoginResponse = LoginResponse(token: Option<string>, user: Option<User>)

  /** The flat user record kept by the auth store. */
  datatype SavedUser = SavedUser(
    id: string,
    name: string,
    email: string,
    roleId: string,
    dni: string,
    phonenumber: string,
    password: string,
    status: bool)

  /** `a || b` on optional strings: the empty string is falsy. */
  function OrString(a: Option<string>, b: Option<string>): (r: Option<string>)
    ensures r == a || r == b
    ensures a.Some? && a.value != "" ==> r == a
  {
    if a.Some? && a.value != "" then a else b
  }

  /** `a || b || ''` on optional strings. */
  function OrEmpty(a: Option<string>, b: Option<string>): (r: string)
    ensures r == "" || Some(r) == a || Some(r) == b
    ensures r == "" ==> (a.None? || a.value == "") && (b.None? || b.value == "")
  {
    OrString(OrString(a, b), Some("")).value
  }

  /** A field of the optional role, read with `?.`. */
  function RoleId(r: Option<RoleInfo>): Option<string> { if r.Some? then Some(r.value.id) else None }
  function RoleName(r: Option<RoleInfo>): Option<string> { if r.Some? then Some(r.value.name) else None }
  function RoleDescription(r: Option<RoleInfo>): Option<string> { if r.Some? then Some(r.value.description) else None }
  function RoleCreatedAt(r: Option<RoleInfo>): Option<string> { if r.Some? then r.value.createdAt else None }
  function RoleUpdatedAt(r: Option<RoleInfo>): Option<string> { if r.Some? then r.value.updatedAt else None }
  function RolePermissions(r: Option<RoleInfo>): Option<seq<Permission>> { if r.Some? then r.value.permissions else None }

  /** `normalizedUser`: the payload spread, with `role` rebuilt from either
      casing. `status` is `role?.status || Role?.status || true`. */
  function NormalizeUser(u: User): (r: User)
    ensures r.(role := u.role) == u
    ensures EffectivePermissions(Some(u)).Some? ==> EffectivePermissions(Some(r)) == EffectivePermissions(Some(u))
    ensures EffectivePermissions(Some(u)).None? ==>
      EffectivePermissions(Some(r)).None? || EffectivePermissions(Some(r)) == Some([])
  {
    var role :=
      if u.role.None? && u.Role.None? then None
      else Some(RoleInfo(
        OrEmpty(RoleId(u.role), RoleId(u.Role)),
        OrEmpty(RoleName(u.role), RoleName(u.Role)),
        OrEmpty(RoleDescription(u.role), RoleDescription(u.Role)),
        true,
        Some(if RolePermissions(u.role).Some? then RolePermissions(u.role).value
             else if RolePermissions(u.Role).Some? then RolePermissions(u.Role).value
             else []),
        OrString(RoleCreatedAt(u.role), RoleCreatedAt(u.Role)),
        OrString(RoleUpdatedAt(u.role), RoleUpdatedAt(u.Role))));
    u.(role := role)
  }

  /** `userToSave` */
  function UserToSave(u: User): (s: SavedUser)
    ensures s.password == ""
    ensures s.id == u.id && s.name == u.name && s.email == u.email && s.roleId == u.roleId && s.status == u.status
    ensures s.dni == OrEmpty(u.dni, None) && s.phonenumber == OrEmpty(u.phonenumber, None)
  {
    SavedUser(u.id, u.name, u.email, u.roleId, OrEmpty(u.dni, None), OrEmpty(u.phonenumber, None), "", u.status)
  }

  /** The auth store and the `authToken` entry of local storage, as the
      login's success handler writes them. */
  class AuthStore {
    var storedToken: Option<string>
    var user: Option<SavedUser>
    var userWithPermissions: Option<User>

    constructor(storedToken: Option<string>)
      ensures this.storedToken == storedToken && user.None? && userWithPermissions.None?
    {
      this.storedToken := storedToken;
      user := None;
      userWithPermissions := None;
    }

    /** `onSuccess`: a truthy token is stored first; a missing user then
        throws inside the `try`, which is caught and leaves the store as it
        was. */
    method OnLoginSuccess(data: LoginResponse)
      modifies this
      ensures storedToken == if data.token.Some? && data.token.value != "" then data.token else old(storedToken)
      ensures data.user.None? ==> user == old(user) && userWithPermissions == old(userWithPermissions)
      ensures data.user.Some? ==>
        user == Some(UserToSave(data.user.value)) &&
        userWithPermissions == Some(NormalizeUser(data.user.value))
    {
      if data.token.Some? && data.token.value != "" {
        storedToken := data.token;
      }
      if data.user.None? {
        return;
      }
      var normalized := NormalizeUser(data.user.value);
      var toSave := UserToSave(data.user.value);
      user := Some(toSave);
      userWithPermissions := Some(normalized);
    }
  }

  /** `useAuthToken`: the token state and its copy in local storage. */
  class AuthToken {
    var token: Option<string>
    var stored: Option<string>

    /** The mount effect: a truthy stored token is loaded into state. */
    constructor(stored: Option<string>)
      ensures this.stored == stored
      ensures token == if stored.Some? && stored.value != "" then stored else None
    {
      this.stored := stored;
      token := if stored.Some? && stored.value != "" then stored else None;
    }

    method SaveToken(t: string)
      modifies this
      ensures token == Some(t) && stored == Some(t)
    {
      stored := Some(t);
      token := Some(t);
    }

    method RemoveToken()
      modifies this
      ensures token.None? && stored.None?
    {
      stored := None;
      token := None;
    }
  }

  // ------------------------------------------------------------ lemmas

  /** The normalised role is absent exactly when both casings are. */
  lemma NormalizedRolePresence(u: User)
    ensures NormalizeUser(u).role.None? <==> u.role.None? && u.Role.None?
  {
  }

  /** The normalised permissions are never absent, and come from `role`, else
      from `Role`, else are empty. */
  lemma NormalizedPermissions(u: User)
    requires u.role.Some? || u.Role.Some?
    ensures NormalizeUser(u).role.value.permissions.Some?
    ensures u.role.Some? && u.role.value.permissions.Some? ==>
      NormalizeUser(u).role.value.permissions == u.role.value.permissions
    ensures !(u.role.Some? && u.role.value.permissions.Some?) && u.Role.Some? && u.Role.value.permissions.Some? ==>
      NormalizeUser(u).role.value.permissions == u.Role.value.permissions
    ensures !(u.role.Some? && u.role.value.permissions.Some?) && !(u.Role.Some? && u.Role.value.permissions.Some?) ==>
      NormalizeUser(u).role.value.permissions == Some([])
  {
  }

  /** Id, name and description take the `role` value, else the `Role` value,
      else the empty string. The status is always true, even when both
      casings say false. */
  lemma NormalizedRoleFields(u: User)
    requires u.role.Some? || u.Role.Some?
    ensures var r := NormalizeUser(u).role.value;
      r.status &&
      (u.role.Some? && u.role.value.id != "" ==> r.id == u.role.value.id) &&
      (u.role.Some? && u.role.value.name != "" ==> r.name == u.role.value.name) &&
      (u.role.Some? && u.role.value.description != "" ==> r.description == u.role.value.description) &&
      ((u.role.None? || u.role.value.id == "") && u.Role.Some? ==> r.id == u.Role.value.id) &&
      ((u.role.None? || u.role.value.name == "") && u.Role.Some? ==> r.name == u.Role.value.name) &&
      ((u.role.None? || u.role.value.description == "") && u.Role.Some? ==> r.description == u.Role.value.description)
  {
  }

  /** Normalising twice changes nothing more. */
  lemma NormalizeIdempotent(u: User)
    ensures NormalizeUser(NormalizeUser(u)) == NormalizeUser(u)
  {
  }

  /** Normalisation never changes an access decision: the gate and every
      per-module answer are the same for the raw and the normalised user. */
  lemma NormalizePreservesAccess(u: User, q: ModulesQuery, moduleName: string, action: Action)
    ensures HasModuleAccess(Some(NormalizeUser(u))) == HasModuleAccess(Some(u))
    ensures UseModulePermission(Some(NormalizeUser(u)), q, moduleName, action) ==
            UseModulePermission(Some(u), q, moduleName, action)
  {
    var n := NormalizeUser(u);
    if EffectivePermissions(Some(u)).Some? {
      assert EffectivePermissions(Some(n)) == EffectivePermissions(Some(u));
    } else {
      assert EffectivePermissions(Some(n)).None? || EffectivePermissions(Some(n)) == Some([]);
    }
    assert UseModulesMap(Some(n), q) == UseModulesMap(Some(u), q);
  }
}
