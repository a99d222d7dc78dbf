/** Permission rows between the role screens and the backend: the backend
    calls the edit flag `canEdit`, the role screens call it `canUpdate`. */
module PermissionActions {
  import opened Wrappers
  import Js

  /** The module a backend row may embed. */
  datatype ModuleRef = ModuleRef(id: string, name: string)

  /** A permission row as the backend sends it. */
  datatype BackendPermission = BackendPermission(
    id: string,
    moduleId: string,
    canRead: bool,
    canWrite: bool,
    canEdit: bool,
    canDelete: bool,
    Module: Option<ModuleRef>,
    createdAt: Option<string>,
    updatedAt: Option<string>)

  /** A permission row as the role screens hold it: every backend field,
      plus `canUpdate`. */
  datatype FrontendPermission = FrontendPermission(
    id: string,
    moduleId: string,
    canRead: bool,
    canWrite: bool,
    canEdit: bool,
    canDelete: bool,
    Module: Option<ModuleRef>,
    canUpdate: bool,
    createdAt: Option<string>,
    updatedAt: Option<string>)

  /** The fields a form row supplies for the backend. */
  datatype PermissionForm = PermissionForm(
    moduleId: string,
    canRead: bool,
    canWrite: bool,
    canUpdate: bool,
    canDelete: bool)

  /** A permission row as the backend accepts it on write. */
  datatype PermissionWrite = PermissionWrite(
    moduleId: string,
    canRead: bool,
    canWrite: bool,
    canEdit: bool,
    canDelete: bool)

  /** `convertBackendToFrontend`: the spread, `canUpdate` copied from
      `canEdit`, the timestamps dropped. */
  function BackendToFrontend(b: BackendPermission): (f: FrontendPermission)
    ensures f.id == b.id && f.moduleId == b.moduleId && f.Module == b.Module
    ensures f.canRead == b.canRead && f.canWrite == b.canWrite && f.canEdit == b.canEdit && f.canDelete == b.canDelete
    ensures f.canUpdate == b.canEdit
    ensures f.createdAt.None? && f.updatedAt.None?
  {
    FrontendPermission(b.id, b.moduleId, b.canRead, b.canWrite, b.canEdit, b.canDelete, b.Module, b.canEdit, None, None)
  }

  /** `convertFrontendToBackend`: exactly five fields, `canEdit` taken from
      `canUpdate`. */
  function FrontendToBackend(p: PermissionForm): (w: PermissionWrite)
    ensures w.moduleId == p.moduleId && w.canRead == p.canRead && w.canWrite == p.canWrite
    ensures w.canEdit == p.canUpdate && w.canDelete == p.canDelete
  {
    PermissionWrite(p.moduleId, p.canRead, p.canWrite, p.canUpdate, p.canDelete)
  }

  /** A held row read as a form row (its other fields are ignored). */
  function AsForm(f: FrontendPermission): PermissionForm {
    PermissionForm(f.moduleId, f.canRead, f.canWrite, f.canUpdate, f.canDelete)
  }

  /** The backend's own view of a row's write-relevant fields. */
  function WriteOf(b: BackendPermission): PermissionWrite {
    PermissionWrite(b.moduleId, b.canRead, b.canWrite, b.canEdit, b.canDelete)
  }

  /** `rows.map(convertBackendToFrontend)` */
  function MapToFrontend(rows: seq<BackendPermission>): (r: seq<FrontendPermission>)
    ensures |r| == |rows|
    ensures forall i :: 0 <= i < |rows| ==> r[i] == BackendToFrontend(rows[i])
  {
    seq(|rows|, i requires 0 <= i < |rows| => BackendToFrontend(rows[i]))
  }

  /** `rows?.map(convertFrontendToBackend)`: undefined stays undefined. */
  function MapToBackend(rows: Option<seq<PermissionForm>>): (r: Option<seq<PermissionWrite>>)
    ensures r.Some? <==> rows.Some?
    ensures rows.Some? ==> |r.value| == |rows.value|
    ensures rows.Some? ==> forall i :: 0 <= i < |rows.value| ==> r.value[i] == FrontendToBackend(rows.value[i])
  {
    match rows
    case None => None
    case Some(ps) => Some(seq(|ps|, i requires 0 <= i < |ps| => FrontendToBackend(ps[i])))
  }

  /** A response body: an array of rows, or anything else. */
  datatype PermissionsBody = RowsBody(rows: seq<BackendPermission>) | OtherBody(value: Js.Json)

  /** An HTTP failure. */
  datatype HttpError = HttpError(status: Option<int>, message: string)

  /** The result shaping of `getPermissionsByRole`. `primary` is the answer
      of the role's own endpoint, `secondary` that of the filtered list,
      which is only consulted when the first answer is not an array. */
  function GetPermissionsByRole(
    primary: Result<PermissionsBody, HttpError>,
    secondary: Result<PermissionsBody, HttpError>): (r: seq<FrontendPermission>)
    ensures primary.Success? && primary.value.RowsBody? ==> r == MapToFrontend(primary.value.rows)
    ensures primary.Failure? ==> r == []
    ensures primary.Success? && !primary.value.RowsBody? ==>
      r == if secondary.Success? && secondary.value.RowsBody? then MapToFrontend(secondary.value.rows) else []
  {
    match primary
    case Failure(_) => []
    case Success(RowsBody(rows)) => MapToFrontend(rows)
    case Success(OtherBody(_)) =>
      match secondary
      case Success(RowsBody(rows)) => MapToFrontend(rows)
      case _ => []
  }

  /** The payload of a permission update: its permission rows, and the
      other fields it carries, kept as they are. */
  datatype UpdatePayload = UpdatePayload(others: seq<(string, Js.Json)>, permissions: Option<seq<PermissionForm>>)

  /** The converted payload sent to the backend. */
  datatype BackendUpdatePayload = BackendUpdatePayload(others: seq<(string, Js.Json)>, permissions: Option<seq<PermissionWrite>>)

  /** `updatePermission`'s `convertedPayload`. */
  function ConvertUpdatePayload(p: UpdatePayload): (r: BackendUpdatePayload)
    ensures r.others == p.others
    ensures r.permissions == MapToBackend(p.permissions)
  {
    BackendUpdatePayload(p.others, MapToBackend(p.permissions))
  }

  // ------------------------------------------------------------ lemmas

  /** Backend to frontend to backend keeps the module and all four flags. */
  lemma RowRoundTrip(b: BackendPermission)
    ensures FrontendToBackend(AsForm(BackendToFrontend(b))) == WriteOf(b)
  {
  }

  /** The same round trip over a whole list fetched for a role. */
  lemma {:induction false} ListRoundTrip(rows: seq<BackendPermission>)
    ensures var back := MapToBackend(Some(seq(|rows|, i requires 0 <= i < |rows| => AsForm(MapToFrontend(rows)[i]))));
      back.Some? && |back.value| == |rows| &&
      forall i :: 0 <= i < |rows| ==> back.value[i] == WriteOf(rows[i])
  {
    var forms := seq(|rows|, i requires 0 <= i < |rows| => AsForm(MapToFrontend(rows)[i]));
    forall i | 0 <= i < |rows| ensures MapToBackend(Some(forms)).value[i] == WriteOf(rows[i]) {
      RowRoundTrip(rows[i]);
    }
  }

  /** Frontend to backend to frontend keeps what the form edits, as far as
      the backend echoes the written row back. */
  lemma FormRoundTrip(p: PermissionForm, id: string, m: Option<ModuleRef>, c: Option<string>, u: Option<string>)
    ensures var w := FrontendToBackend(p);
      AsForm(BackendToFrontend(BackendPermission(id, w.moduleId, w.canRead, w.canWrite, w.canEdit, w.canDelete, m, c, u))) == p
  {
  }

  /** A failing role endpoint gives the empty list whatever the second
      endpoint would say, and an array from the first is never replaced. */
  lemma FallbackOrder(primary: Result<PermissionsBody, HttpError>, s1: Result<PermissionsBody, HttpError>, s2: Result<PermissionsBody, HttpError>)
    requires primary.Failure? || primary.value.RowsBody?
    ensures GetPermissionsByRole(primary, s1) == GetPermissionsByRole(primary, s2)
  {
  }
}
