/** GET /subscriptions: the caller's own subscriptions. */
module SubscriptionsGet {
  import opened Wrappers
  import opened Query
  import opened Http
  import opened Models
  import opened Auth

  /** `c.tenantId = @tenantId AND c.userId = @userId`. */
  function OwnedBy(tenantId: string, userId: string): Subscription -> bool
  {
    (s: Subscription) => s.tenantId == tenantId && s.userId == userId
  }

  /** The subscriptions of one user of one tenant, in store order. */
  function SubscriptionsOf(subs: seq<Subscription>, tenantId: string, userId: string): (r: seq<Subscription>)
    ensures forall s :: s in r <==> s in subs && s.tenantId == tenantId && s.userId == userId
    ensures multiset(r) <= multiset(subs)
  {
    Filter(subs, OwnedBy(tenantId, userId))
  }

  /** `getSubscriptionsHandler`. */
  function GetSubscriptions(auth: Option<AuthContext>, subs: seq<Subscription>)
    : (r: HttpResponse<seq<Subscription>>)
    ensures auth.None? ==> r.Fail? && r.status == 401
    ensures auth.Some? ==> r.Ok? && r.status == 200
    ensures r.Ok? ==> forall s :: s in r.body <==>
      s in subs && s.tenantId == auth.value.tenantId && s.userId == auth.value.userId
    ensures r.Ok? ==> multiset(r.body) <= multiset(subs)
  {
    if auth.None? then Unauthorized()
    else Ok(200, SubscriptionsOf(subs, auth.value.tenantId, auth.value.userId))
  }

  /** Another user's subscription in the same tenant is never listed. */
  lemma OtherUsersHidden(auth: AuthContext, subs: seq<Subscription>, s: Subscription)
    requires s.userId != auth.userId
    ensures s !in GetSubscriptions(Some(auth), subs).body
  {
  }
}
