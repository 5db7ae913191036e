/** GET /me: the caller's profile, creating the user document on first sight. */
module Me {
  import opened Wrappers
  import opened Query
  import opened Http
  import opened Models
  import opened Auth
  import opened DocumentStore
  import opened SubscriptionsGet

  const DefaultRole: string := "Student"

  datatype Profile = Profile(
    userId: string,
    tenantId: string,
    displayName: string,
    roles: seq<string>,
    subscriptions: seq<Subscription>)

  /** `auth.roles.length ? auth.roles : ["Student"]`: never empty. */
  function InitialRoles(roles: seq<string>): (r: seq<string>)
    ensures |r| > 0
    ensures |roles| > 0 ==> r == roles
    ensures |roles| == 0 ==> r == [DefaultRole]
  {
    if |roles| > 0 then roles else [DefaultRole]
  }

  /** `meHandler`. The user lookup is by userId alone, not tenant-scoped; the
      subscriptions listed are the caller's own. */
  method MeHandler(store: Store, auth: Option<AuthContext>, now: Timestamp)
    returns (resp: HttpResponse<Profile>)
    requires store.Valid()
    modifies store`users
    ensures store.Valid()
    ensures auth.None? ==> resp.Fail? && resp.status == 401 && store.users == old(store.users)
    ensures auth.Some? ==> resp.Ok? && resp.status == 200
    ensures auth.Some? ==>
      var existing := Lookup(old(store.users), UserKey, auth.value.userId);
      && (existing.Some? ==>
          && store.users == old(store.users)
          && resp.body.userId == existing.value.userId
          && resp.body.tenantId == existing.value.tenantId
          && resp.body.displayName == existing.value.displayName
          && resp.body.roles == existing.value.roles)
      && (existing.None? ==>
          && store.users == old(store.users) + [User(
               auth.value.userId, auth.value.tenantId, auth.value.userId,
               OrElse(auth.value.email, ""), OrElse(auth.value.name, ""),
               InitialRoles(auth.value.roles), UserStatus.Active, now)]
          && resp.body == Profile(
               auth.value.userId, auth.value.tenantId, OrElse(auth.value.name, ""),
               InitialRoles(auth.value.roles), resp.body.subscriptions))
    ensures auth.Some? ==>
      resp.body.subscriptions == SubscriptionsOf(store.subscriptions, auth.value.tenantId, auth.value.userId)
    ensures auth.Some? ==>
      var stored := Lookup(store.users, UserKey, auth.value.userId);
      && stored.Some?
      && resp.body == Profile(
           stored.value.userId, stored.value.tenantId, stored.value.displayName,
           stored.value.roles, resp.body.subscriptions)
  {
    if auth.None? {
      return Unauthorized();
    }
    var a := auth.value;
    var user := Lookup(store.users, UserKey, a.userId);
    if user.None? {
      var newUser := User(
        a.userId, a.tenantId, a.userId, OrElse(a.email, ""), OrElse(a.name, ""),
        InitialRoles(a.roles), UserStatus.Active, now);
      ghost var before := store.users;
      store.CreateUser(newUser);
      UpsertKeepsUniqueKeys(before, UserKey, newUser);
      LookupUpsertSame(before, UserKey, newUser);
      user := Some(newUser);
    }
    var u := user.value;
    var subs := SubscriptionsOf(store.subscriptions, a.tenantId, a.userId);
    resp := Ok(200, Profile(u.userId, u.tenantId, u.displayName, u.roles, subs));
  }

  /** Two profile fetches create at most one user, and the second sees the same
      profile as the first. */
  method MeTwice(store: Store, auth: Option<AuthContext>, now: Timestamp)
    returns (first: HttpResponse<Profile>, second: HttpResponse<Profile>)
    requires store.Valid()
    modifies store`users
    ensures |store.users| <= |old(store.users)| + 1
    ensures auth.Some? ==> first == second
    ensures auth.None? ==> store.users == old(store.users)
  {
    first := MeHandler(store, auth, now);
    second := MeHandler(store, auth, now);
  }
}
