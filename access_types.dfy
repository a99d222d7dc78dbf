/** The authenticated user as the backend sends it, with its role in one of
    two casings: `role.permissions` or `Role.Permissions`. */
module AccessTypes {
  import opened Wrappers

  /** One permission row: what a role may do in one module. */
  datatype Permission = Permission(
    id: string,
    moduleId: string,
    canRead: bool,
    canWrite: bool,
    canEdit: bool,
    canDelete: bool)

  /** A role; the same record arrives under `role` (with `permissions`) or
      under `Role` (with `Permissions`). The permission array may be missing. */
  datatype RoleInfo = RoleInfo(
    id: string,
    name: string,
    description: string,
    status: bool,
    permissions: Option<seq<Permission>>,
    createdAt: Option<string>,
    updatedAt: Option<string>)

  /** The user with its permissions, as held by the auth store. */
  datatype User = User(
    id: string,
    name: string,
    email: string,
    roleId: string,
    status: bool,
    dni: Option<string>,
    phonenumber: Option<string>,
    role: Option<RoleInfo>,
    Role: Option<RoleInfo>)

  /** The four capability flags a permission row carries. */
  datatype Action = CanRead | CanWrite | CanEdit | CanDelete

  /** `permission[action] === true` */
  function Flag(p: Permission, a: Action): bool {
    match a
    case CanRead => p.canRead
    case CanWrite => p.canWrite
    case CanEdit => p.canEdit
    case CanDelete => p.canDelete
  }

  /** `user?.role?.permissions || user?.Role?.Permissions`: an array, even an
      empty one, is truthy, so a present `role.permissions` always wins. */
  function EffectivePermissions(user: Option<User>): Option<seq<Permission>> {
    if user.None? then None
    else if user.value.role.Some? && user.value.role.value.permissions.Some? then user.value.role.value.permissions
    else if user.value.Role.Some? then user.value.Role.value.permissions
    else None
  }

  /** `permissions.some(p => p.canRead === true)` */
  predicate AnyRead(ps: seq<Permission>) {
    exists i :: 0 <= i < |ps| && ps[i].canRead
  }
}
