/** POST /subscriptions: subscribe the caller to a tier with prepaid credits. */
module SubscriptionsCreate {
  import opened Wrappers
  import opened Http
  import opened Models
  import opened Auth
  import opened DocumentStore

  const FallbackCredits: int := 2000

  datatype CreateSubscriptionBody = CreateSubscriptionBody(tierId: Option<string>, prepaidCredits: Option<int>)

  /** `body.prepaidCredits ?? tier.defaultCredits ?? 2000`: an explicit amount wins,
      even 0; then the tier's default; then 2000. */
  function PrepaidCredits(requested: Option<int>, tier: TierDefinition): (credits: int)
    ensures requested.Some? ==> credits == requested.value
    ensures requested.None? && tier.defaultCredits.Some? ==> credits == tier.defaultCredits.value
    ensures requested.None? && tier.defaultCredits.None? ==> credits == FallbackCredits
  {
    OrElse(requested, OrElse(tier.defaultCredits, FallbackCredits))
  }

  /** `createSubscriptionHandler`. `subId` is the fresh id, `now` the clock reading.
      The owner comes from the auth context, never from the body. */
  method CreateSubscriptionHandler(
    store: Store, auth: Option<AuthContext>, body: Option<CreateSubscriptionBody>,
    subId: string, now: Timestamp)
    returns (resp: HttpResponse<Subscription>)
    requires store.Valid()
    requires forall s :: s in store.subscriptions ==> s.id != subId
    modifies store`subscriptions
    ensures store.Valid()
    ensures resp.status != 201 ==> store.subscriptions == old(store.subscriptions)
    ensures auth.None? ==> resp.Fail? && resp.status == 401
    ensures auth.Some? && (body.None? || !Truthy(body.value.tierId)) ==>
      resp == Fail(400, "tierId is required")
    ensures auth.Some? && body.Some? && Truthy(body.value.tierId) ==>
      var tierId := body.value.tierId.value;
      var tier := ReadTier(store.tiers, tierId);
      && (tier.None? ==> resp == Fail(404, "Tier not found"))
      && (tier.Some? ==>
          var prepaid := PrepaidCredits(body.value.prepaidCredits, tier.value);
          && resp.Ok? && resp.status == 201
          && resp.body == Subscription(
               subId, auth.value.tenantId, auth.value.userId, tierId, SubscriptionStatus.Active,
               prepaid, prepaid, now, AddDays(now, LabExpiryDays(tier.value.limits)))
          && store.subscriptions == old(store.subscriptions) + [resp.body])
  {
    if auth.None? {
      return Unauthorized();
    }
    if body.None? || !Truthy(body.value.tierId) {
      return Fail(400, "tierId is required");
    }
    var tierId := body.value.tierId.value;
    var tier := ReadTier(store.tiers, tierId);
    if tier.None? {
      return Fail(404, "Tier not found");
    }
    var expires := AddDays(now, LabExpiryDays(tier.value.limits));
    var prepaid := PrepaidCredits(body.value.prepaidCredits, tier.value);
    var sub := Subscription(
      subId, auth.value.tenantId, auth.value.userId, tierId, SubscriptionStatus.Active,
      prepaid, prepaid, now, expires);
    store.CreateSubscription(sub);
    resp := Ok(201, sub);
  }
}
