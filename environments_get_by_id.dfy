/** GET /environments/{id}: one environment of the caller's tenant. */
module EnvironmentsGetById {
  import opened Wrappers
  import opened Query
  import opened Http
  import opened Models
  import opened Auth
  import opened DocumentStore

  /** `getEnvironmentByIdHandler`: a tenant-scoped lookup, 404 when it finds
      nothing or a soft-deleted document, then a defensive tenant check. */
  function GetEnvironmentById(auth: Option<AuthContext>, envs: seq<Environment>, id: string)
    : (r: HttpResponse<Environment>)
    requires UniqueKeys(envs, EnvironmentKey)
    ensures auth.None? ==> r.Fail? && r.status == 401
    ensures r.status != 403
    ensures r.Ok? ==>
      && r.status == 200 && r.body in envs && r.body.id == id
      && r.body.tenantId == auth.value.tenantId && !IsSoftDeleted(r.body)
    ensures auth.Some? ==> (r.Ok? <==>
      exists e :: e in envs && e.id == id && e.tenantId == auth.value.tenantId && !IsSoftDeleted(e))
    ensures auth.Some? && r.Fail? ==> r.status == 404
  {
    if auth.None? then Unauthorized()
    else
      var tenantId := auth.value.tenantId;
      match ReadEnvironment(envs, id, tenantId)
      case None => Fail(404, "Environment not found")
      case Some(e) =>
        if IsSoftDeleted(e) then Fail(404, "Environment not found")
        else if e.tenantId != tenantId then Forbidden()
        else
          assert forall x :: x in envs && x.id == id && x.tenantId == tenantId ==> x == e by {
            forall x | x in envs && x.id == id && x.tenantId == tenantId ensures x == e {
              LookupFindsMember(envs, EnvironmentKey, x);
            }
          }
          Ok(200, e)
  }
}
