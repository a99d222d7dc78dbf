/** The payload conversion of `updateRolePermissions`, written inline in the
    roles actions rather than through the shared converter. */
module RoleActions {
  import opened Wrappers
  import opened PermissionActions

  /** The inline `map` of `updateRolePermissions`. */
  function ConvertRolePayload(p: UpdatePayload): (r: BackendUpdatePayload)
    ensures r.others == p.others
    ensures r.permissions.Some? <==> p.permissions.Some?
    ensures p.permissions.Some? ==> |r.permissions.value| == |p.permissions.value|
    ensures p.permissions.Some? ==> forall i :: 0 <= i < |p.permissions.value| ==>
      var f := p.permissions.value[i];
      var w := r.permissions.value[i];
      w.moduleId == f.moduleId && w.canRead == f.canRead && w.canWrite == f.canWrite &&
      w.canEdit == f.canUpdate && w.canDelete == f.canDelete
  {
    var converted :=
      match p.permissions
      case None => None
      case Some(ps) =>
        Some(seq(|ps|, i requires 0 <= i < |ps| =>
          PermissionWrite(ps[i].moduleId, ps[i].canRead, ps[i].canWrite, ps[i].canUpdate, ps[i].canDelete)));
    BackendUpdatePayload(p.others, converted)
  }

  /** Both update paths send the same body for the same payload. */
  lemma SameAsPermissionUpdate(p: UpdatePayload)
    ensures ConvertRolePayload(p) == ConvertUpdatePayload(p)
  {
    if p.permissions.Some? {
      assert ConvertRolePayload(p).permissions.value == MapToBackend(p.permissions).value;
    }
  }
}
