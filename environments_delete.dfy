/** DELETE /environments/{id}: soft-delete one environment of the caller's tenant. */
module EnvironmentsDelete {
  import opened Wrappers
  import opened Query
  import opened Http
  import opened Models
  import opened Auth
  import opened DocumentStore

  /** The `{ success: true }` body. */
  datatype DeleteResult = DeleteResult(success: bool)

  /** The soft-deleted form of an environment: flagged and marked Deleted, all else kept. */
  function SoftDeleted(e: Environment): (d: Environment)
    ensures IsSoftDeleted(d) && d.status == EnvironmentStatus.Deleted
    ensures d.(status := e.status, softDeleted := e.softDeleted) == e
  {
    e.(status := EnvironmentStatus.Deleted, softDeleted := Some(true))
  }

  /** `deleteEnvironmentHandler`: a tenant-scoped lookup, 404 when it finds nothing
      or an already soft-deleted document, then the flagged document is upserted
      in place. Any prior status is accepted. */
  method DeleteEnvironmentHandler(store: Store, auth: Option<AuthContext>, id: string)
    returns (resp: HttpResponse<DeleteResult>)
    requires store.Valid()
    modifies store`environments
    ensures store.Valid()
    ensures resp.status != 403
    ensures FlagsAsWritten(old(store.environments)) ==> FlagsAsWritten(store.environments)
    ensures resp.status != 200 ==> store.environments == old(store.environments)
    ensures auth.None? ==> resp.Fail? && resp.status == 401
    ensures auth.Some? ==>
      var found := ReadEnvironment(old(store.environments), id, auth.value.tenantId);
      && (found.None? || IsSoftDeleted(found.value) ==> resp == Fail(404, "Environment not found"))
      && (found.Some? && !IsSoftDeleted(found.value) ==>
          var i := IndexWhere(old(store.environments), HasKey(EnvironmentKey, (id, auth.value.tenantId)));
          && resp == Ok(200, DeleteResult(true))
          && i < |old(store.environments)|
          && store.environments == old(store.environments)[i := SoftDeleted(found.value)])
  {
    if auth.None? {
      return Unauthorized();
    }
    var tenantId := auth.value.tenantId;
    var found := ReadEnvironment(store.environments, id, tenantId);
    if found.None? || IsSoftDeleted(found.value) {
      return Fail(404, "Environment not found");
    }
    var env := found.value;
    if env.tenantId != tenantId {
      // The defensive check; the tenant-scoped lookup means it cannot fire.
      return Forbidden();
    }
    env := SoftDeleted(env);
    ghost var before := store.environments;
    store.UpsertEnvironment(env);
    if FlagsAsWritten(before) {
      FlagsAfterWrite(before, IndexWhere(before, HasKey(EnvironmentKey, EnvironmentKey(env))), env);
    }
    resp := Ok(200, DeleteResult(true));
  }

  /** Deleting twice: a first success is followed by 404, and a first 404 by another. */
  method DeleteTwice(store: Store, auth: Option<AuthContext>, id: string)
    returns (first: HttpResponse<DeleteResult>, second: HttpResponse<DeleteResult>)
    requires store.Valid() && auth.Some?
    modifies store`environments
    ensures first.status == 200 || first.status == 404
    ensures second == Fail(404, "Environment not found")
    ensures |store.environments| == |old(store.environments)|
  {
    ghost var before := store.environments;
    first := DeleteEnvironmentHandler(store, auth, id);
    if first.status == 200 {
      var found := ReadEnvironment(before, id, auth.value.tenantId);
      LookupUpsertSame(before, EnvironmentKey, SoftDeleted(found.value));
    }
    second := DeleteEnvironmentHandler(store, auth, id);
  }
}
