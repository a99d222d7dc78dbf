/** The client-side access-control resolver: the "any module access" gate,
    the name/id maps built from the module catalogue, and the per-module,
    per-action permission answer with default-deny semantics. */
module ModulesMap {
  import opened Wrappers
  import opened AccessTypes

  /** A catalogue entry as the backend lists it. */
  datatype Module = Module(id: string, name: string)

  /** The catalogue query as the resolver sees it. An error object is truthy,
      so `error` is present exactly when it counts as an error. */
  datatype ModulesQuery = ModulesQuery(
    data: Option<seq<Module>>,
    isLoading: bool,
    error: Option<string>)

  /** What `useModulesMap` hands out. `keyOrder` is `Object.keys(modulesMap)`. */
  datatype ModulesMapView = ModulesMapView(
    modules: Option<seq<Module>>,
    modulesMap: map<string, string>,
    modulesByIdMap: map<string, string>,
    keyOrder: seq<string>,
    isLoading: bool,
    error: Option<string>,
    hasModuleAccess: bool,
    isReady: bool)

  /** What `useModulePermission` hands out. */
  datatype PermissionView = PermissionView(
    hasPermission: bool,
    moduleId: Option<string>,
    isLoading: bool,
    moduleName: string,
    hasModuleAccess: bool)

  // Module names as the backend spells them.
  const MODULES_NAME := "modulos"
  const USERS_NAME := "user"
  const ROLES_NAME := "roles"
  const INVENTORY_NAME := "inventario"
  const PRODUCTION_NAME := "Produccion"
  const SALES_NAME := "Ventas"
  const MUSEUM_NAME := "Museo"
  const RENTALS_NAME := "Alquileres"
  const FINANZAS_NAME := "Finanzas"
  const MONASTERIO_NAME := "Monasterio"
  const CHURCH_NAME := "Iglesia"

  /** The gate: some permission row of the user grants read access. A user
      without a role in either casing never passes it. */
  function HasModuleAccess(user: Option<User>): (r: bool)
    ensures r ==> user.Some? && (user.value.role.Some? || user.value.Role.Some?)
  {
    match EffectivePermissions(user)
    case None => false
    case Some(ps) => AnyRead(ps)
  }

  /** The key a catalogue entry gets in one of the two maps. */
  function KeyOf(m: Module, byName: bool): string {
    if byName then m.name else m.id
  }

  /** The value a catalogue entry gets in one of the two maps. */
  function ValueOf(m: Module, byName: bool): string {
    if byName then m.id else m.name
  }

  /** The `reduce` that assigns `acc[key] = value` module by module; with
      `byName` it builds name -> id, otherwise id -> name. */
  function Index(mods: seq<Module>, byName: bool): (acc: map<string, string>)
    ensures acc.Keys == set i | 0 <= i < |mods| :: KeyOf(mods[i], byName)
  {
    if |mods| == 0 then map[]
    else
      var prefix := mods[..|mods| - 1];
      var last := mods[|mods| - 1];
      assert forall i | 0 <= i < |prefix| :: prefix[i] == mods[i];
      Index(prefix, byName)[KeyOf(last, byName) := ValueOf(last, byName)]
  }

  /** The keys of `Index(mods, byName)` in the order JavaScript enumerates
      them: first insertion, later re-assignments do not move a key. */
  function KeysInOrder(mods: seq<Module>, byName: bool): (ks: seq<string>)
    ensures forall k :: k in ks <==> k in Index(mods, byName)
    ensures forall i, j :: 0 <= i < j < |ks| ==> ks[i] != ks[j]
  {
    if |mods| == 0 then []
    else
      var prefix := mods[..|mods| - 1];
      var key := KeyOf(mods[|mods| - 1], byName);
      assert forall i | 0 <= i < |prefix| :: prefix[i] == mods[i];
      var before := KeysInOrder(prefix, byName);
      if key in before then before else before + [key]
  }

  /** `Object.keys(modulesMap)` lists the map's keys, each once. */
  ghost predicate KeyOrderFormed(v: ModulesMapView) {
    (forall n :: n in v.keyOrder <==> n in v.modulesMap) &&
    forall i, j :: 0 <= i < j < |v.keyOrder| ==> v.keyOrder[i] != v.keyOrder[j]
  }

  /** `useModulesMap`: with the gate closed every derived value is emptied
      and the query's loading and error state is masked. */
  function UseModulesMap(user: Option<User>, q: ModulesQuery): (v: ModulesMapView)
    ensures v.hasModuleAccess == HasModuleAccess(user)
    ensures !v.hasModuleAccess ==>
      v.modules == Some([]) && v.modulesMap == map[] && v.modulesByIdMap == map[] &&
      v.keyOrder == [] && !v.isLoading && v.error.None? && !v.isReady
    ensures v.hasModuleAccess ==> v.modules == q.data && v.isLoading == q.isLoading && v.error == q.error
    ensures v.isReady ==> v.hasModuleAccess && q.data.Some?
    ensures forall n :: n in v.modulesMap ==>
      q.data.Some? && exists i :: 0 <= i < |q.data.value| && q.data.value[i].name == n
    ensures KeyOrderFormed(v)
  {
    var access := HasModuleAccess(user);
    var catalogue := if q.data.None? || !access then [] else q.data.value;
    ModulesMapView(
      if access then q.data else Some([]),
      Index(catalogue, true),
      Index(catalogue, false),
      KeysInOrder(catalogue, true),
      if access then q.isLoading else false,
      if access then q.error else None,
      access,
      access && !q.isLoading && q.error.None? && q.data.Some?)
  }

  /** `getModuleId`: a lookup of the module's own key. */
  function GetModuleId(v: ModulesMapView, name: string): (r: Option<string>)
    ensures r.Some? <==> name in v.modulesMap
    ensures r.Some? ==> r.value == v.modulesMap[name]
  {
    if name in v.modulesMap then Some(v.modulesMap[name]) else None
  }

  /** `getModuleName`: a lookup of the id's own key. */
  function GetModuleName(v: ModulesMapView, id: string): (r: Option<string>)
    ensures r.Some? <==> id in v.modulesByIdMap
    ensures r.Some? ==> r.value == v.modulesByIdMap[id]
  {
    if id in v.modulesByIdMap then Some(v.modulesByIdMap[id]) else None
  }

  /** The names visible through `in` on any plain object literal, because
      they are inherited from `Object.prototype`. */
  const ObjectPrototypeNames: set<string> := {
    "constructor", "__defineGetter__", "__defineSetter__", "hasOwnProperty",
    "__lookupGetter__", "__lookupSetter__", "isPrototypeOf", "propertyIsEnumerable",
    "toString", "valueOf", "__proto__", "toLocaleString" }

  /** `moduleName in modulesMap` exactly as written: the `in` operator also
      sees the inherited names. */
  function ModuleExistsAsWritten(v: ModulesMapView, name: string): (r: bool)
    ensures name in ObjectPrototypeNames ==> r
    ensures GetModuleId(v, name).Some? ==> r
    ensures r ==> GetModuleId(v, name).Some? || name in ObjectPrototypeNames
  {
    name in v.modulesMap || name in ObjectPrototypeNames
  }

  /** `moduleExists` as intended: the name is a key of the map. */
  function ModuleExists(v: ModulesMapView, name: string): (r: bool)
    ensures r <==> GetModuleId(v, name).Some?
  {
    name in v.modulesMap
  }

  /** `getAvailableModules`: on a view `useModulesMap` built, every module
      that exists, each once. */
  function GetAvailableModules(v: ModulesMapView): (r: seq<string>)
    ensures KeyOrderFormed(v) ==> forall n :: n in r <==> ModuleExists(v, n)
    ensures KeyOrderFormed(v) ==> forall i, j :: 0 <= i < j < |r| ==> r[i] != r[j]
  {
    v.keyOrder
  }

  /** `permissions.find(p => p.moduleId === id)`, as the index of the first
      matching row. */
  function FindRow(ps: seq<Permission>, id: string): (r: Option<nat>)
    ensures r.None? <==> forall i :: 0 <= i < |ps| ==> ps[i].moduleId != id
    ensures r.Some? ==>
      r.value < |ps| && ps[r.value].moduleId == id &&
      forall j :: 0 <= j < r.value ==> ps[j].moduleId != id
  {
    if |ps| == 0 then None
    else if ps[0].moduleId == id then Some(0)
    else match FindRow(ps[1..], id)
      case None => None
      case Some(k) => Some(k + 1)
  }

  /** `useModulePermission(moduleName, action)`. An empty module id is falsy
      and counts as unresolved. */
  function UseModulePermission(user: Option<User>, q: ModulesQuery, moduleName: string, action: Action): (r: PermissionView)
    ensures r.hasModuleAccess == HasModuleAccess(user) && r.moduleName == moduleName
    ensures !r.hasModuleAccess ==> !r.hasPermission && r.moduleId.None? && !r.isLoading
    ensures r.hasModuleAccess ==>
      r.moduleId == GetModuleId(UseModulesMap(user, q), moduleName) &&
      r.isLoading == !UseModulesMap(user, q).isReady
  {
    var v := UseModulesMap(user, q);
    var moduleId := GetModuleId(v, moduleName);
    var permissions := EffectivePermissions(user);
    var granted :=
      if !v.hasModuleAccess then false
      else if moduleId.None? || moduleId.value == "" || permissions.None? then false
      else match FindRow(permissions.value, moduleId.value)
        case None => false
        case Some(k) => Flag(permissions.value[k], action);
    PermissionView(
      granted,
      if v.hasModuleAccess then moduleId else None,
      if v.hasModuleAccess then !v.isReady else false,
      moduleName,
      v.hasModuleAccess)
  }

  // ---------------------------------------------------------------- gate

  /** The gate in terms of the two payload shapes: a present `role.permissions`
      decides alone, `Role.Permissions` is consulted only when it is absent. */
  lemma AccessGateShapes(u: User)
    ensures u.role.Some? && u.role.value.permissions.Some? ==>
      (HasModuleAccess(Some(u)) <==> AnyRead(u.role.value.permissions.value))
    ensures !(u.role.Some? && u.role.value.permissions.Some?) ==>
      (HasModuleAccess(Some(u)) <==>
        u.Role.Some? && u.Role.value.permissions.Some? && AnyRead(u.Role.value.permissions.value))
    ensures !HasModuleAccess(None)
  {
  }

  /** An empty camelCase array is truthy and closes the gate even when the
      PascalCase array grants read access. */
  lemma EmptyCamelCaseClosesGate(u: User)
    requires u.role.Some? && u.role.value.permissions == Some([])
    ensures !HasModuleAccess(Some(u))
  {
  }

  /** Gate monotonicity: a user whose rows include another user's rows has at
      least that user's access. */
  lemma {:induction false} GateMonotone(u: User, w: User)
    requires EffectivePermissions(Some(u)).Some? && EffectivePermissions(Some(w)).Some?
    requires forall p :: p in EffectivePermissions(Some(u)).value ==> p in EffectivePermissions(Some(w)).value
    ensures HasModuleAccess(Some(u)) ==> HasModuleAccess(Some(w))
  {
    if HasModuleAccess(Some(u)) {
      var ps := EffectivePermissions(Some(u)).value;
      var qs := EffectivePermissions(Some(w)).value;
      var i :| 0 <= i < |ps| && ps[i].canRead;
      assert ps[i] in ps;
      var j :| 0 <= j < |qs| && qs[j] == ps[i];
      assert qs[j].canRead;
    }
  }

  /** Shape coalescing at the resolver: the same rows under `role.permissions`
      or under `Role.Permissions` (the other casing absent) give the same
      answer for every module and action. */
  lemma ShapeCoalescing(u: User, ps: seq<Permission>, r: RoleInfo, q: ModulesQuery, n: string, a: Action)
    ensures UseModulePermission(Some(u.(role := Some(r.(permissions := Some(ps))), Role := None)), q, n, a) ==
            UseModulePermission(Some(u.(role := None, Role := Some(r.(permissions := Some(ps))))), q, n, a)
    ensures UseModulesMap(Some(u.(role := Some(r.(permissions := Some(ps))), Role := None)), q) ==
            UseModulesMap(Some(u.(role := None, Role := Some(r.(permissions := Some(ps))))), q)
  {
  }

  /** A `role` without a permission array is passed over: the rows under
      `Role.Permissions` decide, as if `role` were absent. */
  lemma ShapeCoalescingMissingArray(u: User, ps: seq<Permission>, r0: RoleInfo, r: RoleInfo,
                                    q: ModulesQuery, n: string, a: Action)
    ensures UseModulePermission(Some(u.(role := Some(r0.(permissions := None)), Role := Some(r.(permissions := Some(ps))))), q, n, a) ==
            UseModulePermission(Some(u.(role := None, Role := Some(r.(permissions := Some(ps))))), q, n, a)
  {
  }

  // ---------------------------------------------------------------- maps

  /** With the gate open and a catalogue loaded, the maps are the two folds
      over the catalogue. */
  lemma OpenGateMaps(user: Option<User>, q: ModulesQuery)
    requires HasModuleAccess(user) && q.data.Some?
    ensures UseModulesMap(user, q).modulesMap == Index(q.data.value, true)
    ensures UseModulesMap(user, q).modulesByIdMap == Index(q.data.value, false)
    ensures UseModulesMap(user, q).keyOrder == KeysInOrder(q.data.value, true)
  {
  }

  /** Last one wins: an entry whose key no later entry repeats supplies the
      value stored under that key. */
  lemma {:induction false} LastWins(mods: seq<Module>, byName: bool, i: int)
    requires 0 <= i < |mods|
    requires forall j :: i < j < |mods| ==> KeyOf(mods[j], byName) != KeyOf(mods[i], byName)
    ensures KeyOf(mods[i], byName) in Index(mods, byName)
    ensures Index(mods, byName)[KeyOf(mods[i], byName)] == ValueOf(mods[i], byName)
  {
    if i < |mods| - 1 {
      var prefix := mods[..|mods| - 1];
      assert forall j | 0 <= j < |prefix| :: prefix[j] == mods[j];
      LastWins(prefix, byName, i);
    }
  }

  /** No two catalogue entries share a name. */
  predicate UniqueNames(mods: seq<Module>) {
    forall i, j :: 0 <= i < j < |mods| ==> mods[i].name != mods[j].name
  }

  /** No two catalogue entries share an id. */
  predicate UniqueIds(mods: seq<Module>) {
    forall i, j :: 0 <= i < j < |mods| ==> mods[i].id != mods[j].id
  }

  /** Under unique keys the map stores each entry's own value. */
  lemma EntryStored(mods: seq<Module>, byName: bool, i: int)
    requires 0 <= i < |mods|
    requires if byName then UniqueNames(mods) else UniqueIds(mods)
    ensures KeyOf(mods[i], byName) in Index(mods, byName)
    ensures Index(mods, byName)[KeyOf(mods[i], byName)] == ValueOf(mods[i], byName)
  {
    LastWins(mods, byName, i);
  }

  /** `getModuleName(getModuleId(n)) == n` for a catalogue with unique names
      and ids. */
  lemma NameIdRoundTrip(user: Option<User>, q: ModulesQuery, n: string)
    requires HasModuleAccess(user) && q.data.Some?
    requires UniqueNames(q.data.value) && UniqueIds(q.data.value)
    requires GetModuleId(UseModulesMap(user, q), n).Some?
    ensures GetModuleName(UseModulesMap(user, q), GetModuleId(UseModulesMap(user, q), n).value) == Some(n)
  {
    var mods := q.data.value;
    OpenGateMaps(user, q);
    var i :| 0 <= i < |mods| && KeyOf(mods[i], true) == n;
    EntryStored(mods, true, i);
    EntryStored(mods, false, i);
  }

  /** `getModuleId(getModuleName(i)) == i` for a catalogue with unique names
      and ids. */
  lemma IdNameRoundTrip(user: Option<User>, q: ModulesQuery, id: string)
    requires HasModuleAccess(user) && q.data.Some?
    requires UniqueNames(q.data.value) && UniqueIds(q.data.value)
    requires GetModuleName(UseModulesMap(user, q), id).Some?
    ensures GetModuleId(UseModulesMap(user, q), GetModuleName(UseModulesMap(user, q), id).value) == Some(id)
  {
    var mods := q.data.value;
    OpenGateMaps(user, q);
    var i :| 0 <= i < |mods| && KeyOf(mods[i], false) == id;
    EntryStored(mods, false, i);
    EntryStored(mods, true, i);
  }

  /** `getAvailableModules` lists each existing module name exactly once. */
  lemma AvailableModulesExact(user: Option<User>, q: ModulesQuery)
    ensures forall n :: n in GetAvailableModules(UseModulesMap(user, q)) <==> ModuleExists(UseModulesMap(user, q), n)
    ensures var ks := GetAvailableModules(UseModulesMap(user, q));
      forall i, j :: 0 <= i < j < |ks| ==> ks[i] != ks[j]
  {
  }

  /** The inherited names make the as-written `moduleExists` answer true for
      a module that is in no catalogue, which `getAvailableModules` never
      lists. */
  lemma PrototypeNameExists(user: Option<User>, q: ModulesQuery)
    requires q.data == Some([])
    ensures ModuleExistsAsWritten(UseModulesMap(user, q), "toString")
    ensures !ModuleExists(UseModulesMap(user, q), "toString")
    ensures "toString" !in GetAvailableModules(UseModulesMap(user, q))
  {
    AvailableModulesExact(user, q);
  }

  // ---------------------------------------------------------- permission

  /** Default deny: a closed gate, an unresolved name, absent permissions or
      no row for the resolved module all answer false. */
  lemma DefaultDeny(user: Option<User>, q: ModulesQuery, moduleName: string, action: Action)
    requires
      !HasModuleAccess(user) ||
      GetModuleId(UseModulesMap(user, q), moduleName).None? ||
      EffectivePermissions(user).None? ||
      (forall i :: 0 <= i < |EffectivePermissions(user).value| ==>
        EffectivePermissions(user).value[i].moduleId != GetModuleId(UseModulesMap(user, q), moduleName).value)
    ensures !UseModulePermission(user, q, moduleName, action).hasPermission
  {
  }

  /** Otherwise the answer is the requested flag of the first row whose
      module id matches. */
  lemma FirstRowDecides(user: Option<User>, q: ModulesQuery, moduleName: string, action: Action, i: int)
    requires HasModuleAccess(user)
    requires GetModuleId(UseModulesMap(user, q), moduleName).Some?
    requires GetModuleId(UseModulesMap(user, q), moduleName).value != ""
    requires 0 <= i < |EffectivePermissions(user).value|
    requires EffectivePermissions(user).value[i].moduleId == GetModuleId(UseModulesMap(user, q), moduleName).value
    requires forall j :: 0 <= j < i ==>
      EffectivePermissions(user).value[j].moduleId != GetModuleId(UseModulesMap(user, q), moduleName).value
    ensures UseModulePermission(user, q, moduleName, action).hasPermission == Flag(EffectivePermissions(user).value[i], action)
  {
    var id := GetModuleId(UseModulesMap(user, q), moduleName).value;
    var ps := EffectivePermissions(user).value;
    FindRowFirst(ps, id, i);
  }

  lemma FindRowFirst(ps: seq<Permission>, id: string, i: nat)
    requires i < |ps| && ps[i].moduleId == id
    requires forall j :: 0 <= j < i ==> ps[j].moduleId != id
    ensures FindRow(ps, id) == Some(i)
  {
  }

  /** A granted permission needs an open gate, a loaded catalogue listing the
      module, and a row of the user for that module granting the action. */
  lemma GrantedHasWitnesses(user: Option<User>, q: ModulesQuery, moduleName: string, action: Action)
    requires UseModulePermission(user, q, moduleName, action).hasPermission
    ensures HasModuleAccess(user)
    ensures q.data.Some? && exists i :: 0 <= i < |q.data.value| && q.data.value[i].name == moduleName
    ensures exists k ::
      0 <= k < |EffectivePermissions(user).value| &&
      EffectivePermissions(user).value[k].moduleId == GetModuleId(UseModulesMap(user, q), moduleName).value &&
      Flag(EffectivePermissions(user).value[k], action)
  {
    var ps := EffectivePermissions(user).value;
    var id := GetModuleId(UseModulesMap(user, q), moduleName).value;
    var k := FindRow(ps, id).value;
    assert ps[k].moduleId == id && Flag(ps[k], action);
  }
}
