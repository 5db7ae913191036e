/** GET /environments: the caller's tenant's environments that are not soft-deleted. */
module EnvironmentsGet {
  import opened Wrappers
  import opened Query
  import opened Http
  import opened Models
  import opened Auth

  /** `c.tenantId = @tenantId AND (NOT IS_DEFINED(c.softDeleted) OR c.softDeleted != true)`. */
  function Listed(tenantId: string): Environment -> bool
  {
    (e: Environment) => e.tenantId == tenantId && !IsSoftDeleted(e)
  }

  /** `getEnvironmentsHandler`. The status field is not consulted. */
  function GetEnvironments(auth: Option<AuthContext>, envs: seq<Environment>)
    : (r: HttpResponse<seq<Environment>>)
    ensures auth.None? ==> r.Fail? && r.status == 401
    ensures auth.Some? ==> r.Ok? && r.status == 200
    ensures r.Ok? ==> forall e :: e in r.body <==>
      e in envs && e.tenantId == auth.value.tenantId && e.softDeleted != Some(true)
    ensures r.Ok? ==> multiset(r.body) <= multiset(envs)
  {
    if auth.None? then Unauthorized()
    else Ok(200, Filter(envs, Listed(auth.value.tenantId)))
  }

  /** An environment whose status is Deleted but whose flag is absent is still listed. */
  lemma ListsUnflaggedDeletedStatus(auth: AuthContext, envs: seq<Environment>, e: Environment)
    requires e in envs && e.tenantId == auth.tenantId
    requires e.status == EnvironmentStatus.Deleted && e.softDeleted.None?
    ensures e in GetEnvironments(Some(auth), envs).body
  {
  }
}
