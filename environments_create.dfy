/** POST /environments: create a logical lab environment for one of the
    caller's subscriptions, within its tier's environment quota. */
module EnvironmentsCreate {
  import opened Wrappers
  import opened Query
  import opened Http
  import opened Models
  import opened Auth
  import opened DocumentStore

  const FallbackRegion: string := "southindia"
  const FallbackResourceGroupPrefix: string := "rg-ailab"

  /** The `DEFAULT_REGION` and `LAB_RESOURCE_GROUP_PREFIX` settings; an empty setting is unset. */
  datatype Settings = Settings(defaultRegion: Option<string>, resourceGroupPrefix: Option<string>)

  datatype CreateEnvironmentBody = CreateEnvironmentBody(
    subscriptionId: Option<string>,
    name: Option<string>,
    tierId: Option<string>,
    region: Option<string>)

  /** Counted toward the quota: an environment of this tenant and subscription whose
      status is not Deleted and that is not soft-deleted; an absent flag is read as
      "not deleted", as the listing's `NOT IS_DEFINED(c.softDeleted)` does. */
  function CountsTowardQuota(tenantId: string, subscriptionId: string): Environment -> bool
  {
    (e: Environment) =>
      e.tenantId == tenantId && e.subscriptionId == subscriptionId
      && e.status != EnvironmentStatus.Deleted && !IsSoftDeleted(e)
  }

  /** `countActiveEnvironments`, with the reading of `softDeleted` above. */
  function CountActiveEnvironments(envs: seq<Environment>, tenantId: string, subscriptionId: string): (n: nat)
    ensures n <= |envs|
  {
    |Filter(envs, CountsTowardQuota(tenantId, subscriptionId))|
  }

  /** A new environment adds one to its subscription's count exactly when it counts. */
  lemma {:induction false} CountAfterAppend(envs: seq<Environment>, e: Environment, tenantId: string, subscriptionId: string)
    ensures CountActiveEnvironments(envs + [e], tenantId, subscriptionId)
      == CountActiveEnvironments(envs, tenantId, subscriptionId)
         + (if CountsTowardQuota(tenantId, subscriptionId)(e) then 1 else 0)
  {
    var p := CountsTowardQuota(tenantId, subscriptionId);
    FilterAppend(envs, [e], p);
    assert [e] == [e] + [];
  }

  /** The quota condition as the document store evaluates the query text
      `c.softDeleted != true`: on a document without the field the comparison is
      undefined and the row is dropped, so only an explicit `false` is counted. */
  function CountsAsQueried(tenantId: string, subscriptionId: string): Environment -> bool
  {
    (e: Environment) =>
      e.tenantId == tenantId && e.subscriptionId == subscriptionId
      && e.status != EnvironmentStatus.Deleted && e.softDeleted == Some(false)
  }

  function CountActiveEnvironmentsAsQueried(envs: seq<Environment>, tenantId: string, subscriptionId: string): (n: nat)
    ensures n <= CountActiveEnvironments(envs, tenantId, subscriptionId)
  {
    FilterWeaker(envs, CountsTowardQuota(tenantId, subscriptionId), CountsAsQueried(tenantId, subscriptionId));
    |Filter(envs, CountsAsQueried(tenantId, subscriptionId))|
  }

  /** As written, the query never counts a document this code writes: creation
      leaves `softDeleted` absent and deletion sets it to true. So the count is 0,
      and a tier allowing one environment admits a second. */
  lemma {:induction false} QuotaNeverReachedAsQueried(envs: seq<Environment>, tenantId: string, subscriptionId: string)
    requires FlagsAsWritten(envs)
    ensures CountActiveEnvironmentsAsQueried(envs, tenantId, subscriptionId) == 0
  {
    if envs != [] {
      assert envs == [envs[0]] + envs[1..];
      FilterAppend([envs[0]], envs[1..], CountsAsQueried(tenantId, subscriptionId));
      QuotaNeverReachedAsQueried(envs[1..], tenantId, subscriptionId);
    }
  }

  /** The counterexample: one freshly created environment of the subscription. It
      counts once under the intended reading and not at all as queried. */
  lemma QuotaOfOneBypassedAsQueried(e: Environment)
    requires e.status == EnvironmentStatus.Active && e.softDeleted.None?
    ensures CountActiveEnvironmentsAsQueried([e], e.tenantId, e.subscriptionId) == 0
    ensures CountActiveEnvironments([e], e.tenantId, e.subscriptionId) == 1
  {
    assert [e] == [e] + [];
  }

  /** Which reading of the quota query the handler counts with: the intended one, or
      the query text as the document store evaluates it. */
  datatype QuotaReading = Intended | AsQueried

  function QuotaCount(reading: QuotaReading, envs: seq<Environment>, tenantId: string, subscriptionId: string): (n: nat)
    ensures n <= CountActiveEnvironments(envs, tenantId, subscriptionId)
  {
    match reading
    case Intended => CountActiveEnvironments(envs, tenantId, subscriptionId)
    case AsQueried => CountActiveEnvironmentsAsQueried(envs, tenantId, subscriptionId)
  }

  /** ASCII lower-casing of one character. */
  function LowerChar(c: char): (d: char)
    ensures !('A' <= d <= 'Z')
    ensures 'A' <= c <= 'Z' ==> d as int == c as int + 32
    ensures !('A' <= c <= 'Z') ==> d == c
  {
    if 'A' <= c <= 'Z' then (c as int + 32) as char else c
  }

  function ToLower(s: string): (r: string)
    ensures |r| == |s|
    ensures forall i :: 0 <= i < |s| ==> r[i] == LowerChar(s[i])
  {
    seq(|s|, i requires 0 <= i < |s| => LowerChar(s[i]))
  }

  /** `getResourceGroupName`: `${prefix}-${tenantId}-${envId}`, lower-cased. */
  function ResourceGroupName(prefix: string, tenantId: string, envId: string): (r: string)
    ensures r == ToLower(prefix) + "-" + ToLower(tenantId) + "-" + ToLower(envId)
    ensures forall i :: 0 <= i < |r| ==> !('A' <= r[i] <= 'Z')
  {
    var r := ToLower(prefix + "-" + tenantId + "-" + envId);
    assert r == ToLower(prefix) + "-" + ToLower(tenantId) + "-" + ToLower(envId);
    r
  }

  /** Lower-casing the name again changes nothing. */
  lemma ResourceGroupNameIsLowerCase(prefix: string, tenantId: string, envId: string)
    ensures ToLower(ResourceGroupName(prefix, tenantId, envId)) == ResourceGroupName(prefix, tenantId, envId)
  {
  }

  predicate BodyComplete(body: Option<CreateEnvironmentBody>)
  {
    body.Some? && Truthy(body.value.subscriptionId) && Truthy(body.value.name)
  }

  /** The outcome of the checks before the quota: the refusal, or an Active
      subscription of the caller's tenant (of any user: the read is keyed by id and
      tenant only) and the effective tier. */
  datatype Checked =
    | Refused(response: HttpResponse<Environment>)
    | Passed(sub: Subscription, tierId: string, tier: TierDefinition)

  /** The checks of `createEnvironmentHandler` up to the quota, in order. */
  function CheckRequest(
    auth: Option<AuthContext>, body: Option<CreateEnvironmentBody>,
    subs: seq<Subscription>, tiers: seq<TierDefinition>)
    : (c: Checked)
    ensures c.Refused? ==> c.response.Fail?
    ensures auth.None? ==> c.Refused? && c.response.status == 401
    ensures auth.Some? && !BodyComplete(body) ==>
      c == Refused(Fail(400, "subscriptionId and name are required"))
    ensures auth.Some? && BodyComplete(body) ==>
      var sub := ReadSubscription(subs, body.value.subscriptionId.value, auth.value.tenantId);
      && (sub.None? || sub.value.status != SubscriptionStatus.Active ==>
          c == Refused(Fail(400, "Subscription not found or not active")))
      && (sub.Some? && sub.value.status == SubscriptionStatus.Active ==>
          var tierId := OrElse(body.value.tierId, sub.value.tierId);
          var tier := ReadTier(tiers, tierId);
          && (tier.None? ==> c == Refused(Fail(400, "Tier not found")))
          && (tier.Some? ==> c == Passed(sub.value, tierId, tier.value)))
    ensures c.Passed? ==>
      && auth.Some? && BodyComplete(body)
      && c.sub in subs && c.sub.tenantId == auth.value.tenantId
      && c.sub.status == SubscriptionStatus.Active
      && c.tier in tiers && c.tier.id == c.tierId
  {
    if auth.None? then Refused(Unauthorized())
    else if !BodyComplete(body) then Refused(Fail(400, "subscriptionId and name are required"))
    else
      var sub := ReadSubscription(subs, body.value.subscriptionId.value, auth.value.tenantId);
      if sub.None? || sub.value.status != SubscriptionStatus.Active then
        Refused(Fail(400, "Subscription not found or not active"))
      else
        var tierId := OrElse(body.value.tierId, sub.value.tierId);
        match ReadTier(tiers, tierId)
        case None => Refused(Fail(400, "Tier not found"))
        case Some(tier) => Passed(sub.value, tierId, tier)
  }

  /** The response of `createEnvironmentHandler`: a refusal of the checks, the
      quota's refusal when the live count has reached the tier's maximum, or 201
      with the new Provisioning document. `reading` says how the live environments
      are counted. */
  function Admit(
    auth: Option<AuthContext>, body: Option<CreateEnvironmentBody>,
    subs: seq<Subscription>, tiers: seq<TierDefinition>, envs: seq<Environment>,
    envId: string, now: Timestamp, settings: Settings, reading: QuotaReading)
    : (r: HttpResponse<Environment>)
    ensures
      var c := CheckRequest(auth, body, subs, tiers);
      && (c.Refused? ==> r == c.response)
      && (c.Passed? ==>
          var tenantId := auth.value.tenantId;
          var count := QuotaCount(reading, envs, tenantId, c.sub.id);
          && (count >= c.tier.limits.maxEnvironments ==>
              r == Fail(400, "Max environments reached for this tier"))
          && (count < c.tier.limits.maxEnvironments ==>
              r == Ok(201, Environment(
                envId, tenantId, c.sub.id, c.tierId, body.value.name.value,
                ResourceGroupName(OrFallback(settings.resourceGroupPrefix, FallbackResourceGroupPrefix),
                                  tenantId, envId),
                OrElse(body.value.region, OrFallback(settings.defaultRegion, FallbackRegion)),
                EnvironmentStatus.Provisioning, now,
                AddDays(now, LabExpiryDays(c.tier.limits)), None))))
  {
    match CheckRequest(auth, body, subs, tiers)
    case Refused(response) => response
    case Passed(sub, tierId, tier) =>
      var tenantId := auth.value.tenantId;
      if QuotaCount(reading, envs, tenantId, sub.id) >= tier.limits.maxEnvironments then
        Fail(400, "Max environments reached for this tier")
      else
        var prefix := OrFallback(settings.resourceGroupPrefix, FallbackResourceGroupPrefix);
        Ok(201, Environment(
          envId, tenantId, sub.id, tierId, body.value.name.value,
          ResourceGroupName(prefix, tenantId, envId),
          OrElse(body.value.region, OrFallback(settings.defaultRegion, FallbackRegion)),
          EnvironmentStatus.Provisioning, now,
          AddDays(now, LabExpiryDays(tier.limits)), None))
  }

  /** `createEnvironmentHandler`: answers as `Admit` does and, on 201, stores the
      created document, marked Active, after all others. `envId` is the fresh id,
      `now` the clock reading. */
  method CreateEnvironmentHandler(
    store: Store, auth: Option<AuthContext>, body: Option<CreateEnvironmentBody>,
    envId: string, now: Timestamp, settings: Settings, reading: QuotaReading)
    returns (resp: HttpResponse<Environment>)
    requires store.Valid()
    requires forall e :: e in store.environments ==> e.id != envId
    modifies store`environments
    ensures store.Valid()
    ensures resp == Admit(auth, body, store.subscriptions, store.tiers, old(store.environments),
                          envId, now, settings, reading)
    ensures resp.Ok? <==> resp.status == 201
    ensures resp.Ok? ==> resp.body.id == envId
    ensures resp.Fail? ==> store.environments == old(store.environments)
    ensures resp.Ok? ==>
      store.environments == old(store.environments) + [resp.body.(status := EnvironmentStatus.Active)]
    ensures FlagsAsWritten(old(store.environments)) ==> FlagsAsWritten(store.environments)
  {
    resp := Admit(auth, body, store.subscriptions, store.tiers, store.environments, envId, now, settings, reading);
    if resp.Fail? {
      return;
    }
    var env := resp.body;
    ghost var before := store.environments;
    store.CreateEnvironment(env);

    // Provisioning is a stub: the document is marked Active at once and replaced.
    env := env.(status := EnvironmentStatus.Active);
    UpsertAfterAppend(before, EnvironmentKey, resp.body, env);
    store.UpsertEnvironment(env);
    if FlagsAsWritten(before) {
      FlagsAfterWrite(before, |before|, env);
    }
  }

  /** The checks admit a subscription of the caller's tenant that another user of
      that tenant owns. */
  lemma ColleagueSubscriptionPasses(
    a: AuthContext, body: Option<CreateEnvironmentBody>,
    subs: seq<Subscription>, tiers: seq<TierDefinition>, s: Subscription)
    requires BodyComplete(body)
    requires ReadSubscription(subs, body.value.subscriptionId.value, a.tenantId) == Some(s)
    requires s.status == SubscriptionStatus.Active && s.userId != a.userId
    requires ReadTier(tiers, OrElse(body.value.tierId, s.tierId)).Some?
    ensures CheckRequest(Some(a), body, subs, tiers).Passed?
    ensures CheckRequest(Some(a), body, subs, tiers).sub.userId != a.userId
  {
  }

  /** Counting as intended, storing an admitted document adds one live environment
      to its subscription and keeps the count within the tier's maximum. */
  lemma AdmittedWithinQuota(
    auth: Option<AuthContext>, body: Option<CreateEnvironmentBody>,
    subs: seq<Subscription>, tiers: seq<TierDefinition>, envs: seq<Environment>,
    envId: string, now: Timestamp, settings: Settings)
    requires Admit(auth, body, subs, tiers, envs, envId, now, settings, Intended).Ok?
    ensures
      var created := Admit(auth, body, subs, tiers, envs, envId, now, settings, Intended).body;
      var after := envs + [created.(status := EnvironmentStatus.Active)];
      var n := CountActiveEnvironments(after, created.tenantId, created.subscriptionId);
      && n == CountActiveEnvironments(envs, created.tenantId, created.subscriptionId) + 1
      && n <= ReadTier(tiers, created.tierId).value.limits.maxEnvironments
  {
    var created := Admit(auth, body, subs, tiers, envs, envId, now, settings, Intended).body;
    CountAfterAppend(envs, created.(status := EnvironmentStatus.Active), created.tenantId, created.subscriptionId);
  }

  /** Counting as intended, where every tier allows at most one environment: once
      a request is admitted and its document stored, the same request is refused
      by the quota. */
  lemma QuotaOfOneRefusesSecond(
    auth: Option<AuthContext>, body: Option<CreateEnvironmentBody>,
    subs: seq<Subscription>, tiers: seq<TierDefinition>, envs: seq<Environment>,
    firstId: string, secondId: string, now: Timestamp, settings: Settings)
    requires forall t :: t in tiers ==> t.limits.maxEnvironments <= 1
    requires Admit(auth, body, subs, tiers, envs, firstId, now, settings, Intended).Ok?
    ensures
      var created := Admit(auth, body, subs, tiers, envs, firstId, now, settings, Intended).body;
      Admit(auth, body, subs, tiers, envs + [created.(status := EnvironmentStatus.Active)],
            secondId, now, settings, Intended)
      == Fail(400, "Max environments reached for this tier")
  {
    var created := Admit(auth, body, subs, tiers, envs, firstId, now, settings, Intended).body;
    var stored := created.(status := EnvironmentStatus.Active);
    CountAfterAppend(envs, stored, created.tenantId, created.subscriptionId);
  }

  /** Counting as the query text is evaluated, over environments the handlers
      wrote: once a request is admitted and its document stored, the same request
      is admitted again wherever the tier allows at least one environment. */
  lemma AsQueriedAdmitsSecond(
    auth: Option<AuthContext>, body: Option<CreateEnvironmentBody>,
    subs: seq<Subscription>, tiers: seq<TierDefinition>, envs: seq<Environment>,
    firstId: string, secondId: string, now: Timestamp, settings: Settings)
    requires FlagsAsWritten(envs)
    requires forall t :: t in tiers ==> t.limits.maxEnvironments >= 1
    requires Admit(auth, body, subs, tiers, envs, firstId, now, settings, AsQueried).Ok?
    ensures
      var created := Admit(auth, body, subs, tiers, envs, firstId, now, settings, AsQueried).body;
      Admit(auth, body, subs, tiers, envs + [created.(status := EnvironmentStatus.Active)],
            secondId, now, settings, AsQueried).Ok?
  {
    var created := Admit(auth, body, subs, tiers, envs, firstId, now, settings, AsQueried).body;
    var stored := created.(status := EnvironmentStatus.Active);
    FlagsAfterWrite(envs, |envs|, stored);
    QuotaNeverReachedAsQueried(envs + [stored], created.tenantId, created.subscriptionId);
  }

  /** Counting as intended, where every tier allows at most one environment, a
      second identical request after a successful one is refused by the quota. */
  method CreateTwiceWithQuotaOfOne(
    store: Store, auth: Option<AuthContext>, body: Option<CreateEnvironmentBody>,
    firstId: string, secondId: string, now: Timestamp, settings: Settings)
    returns (first: HttpResponse<Environment>, second: HttpResponse<Environment>)
    requires store.Valid()
    requires forall t :: t in store.tiers ==> t.limits.maxEnvironments <= 1
    requires firstId != secondId
    requires forall e :: e in store.environments ==> e.id != firstId && e.id != secondId
    modifies store`environments
    ensures first.status == 201 ==> second == Fail(400, "Max environments reached for this tier")
  {
    ghost var before := store.environments;
    first := CreateEnvironmentHandler(store, auth, body, firstId, now, settings, Intended);
    if first.Ok? {
      QuotaOfOneRefusesSecond(auth, body, store.subscriptions, store.tiers, before, firstId, secondId, now, settings);
      assert store.environments == before + [first.body.(status := EnvironmentStatus.Active)];
      ghost var expected := Admit(auth, body, store.subscriptions, store.tiers, store.environments,
                                  secondId, now, settings, Intended);
      assert expected == Fail(400, "Max environments reached for this tier");
      second := CreateEnvironmentHandler(store, auth, body, secondId, now, settings, Intended);
      assert second == expected;
    } else {
      second := CreateEnvironmentHandler(store, auth, body, secondId, now, settings, Intended);
    }
  }

  /** Counting as the query text is evaluated, over a store the handlers wrote, a
      second identical request after a successful one is admitted as well, even
      where the tier allows only one environment. */
  method CreateTwiceAsQueried(
    store: Store, auth: Option<AuthContext>, body: Option<CreateEnvironmentBody>,
    firstId: string, secondId: string, now: Timestamp, settings: Settings)
    returns (first: HttpResponse<Environment>, second: HttpResponse<Environment>)
    requires store.Valid() && FlagsAsWritten(store.environments)
    requires forall t :: t in store.tiers ==> t.limits.maxEnvironments >= 1
    requires firstId != secondId
    requires forall e :: e in store.environments ==> e.id != firstId && e.id != secondId
    modifies store`environments
    ensures first.status == 201 ==> second.status == 201
    ensures first.status == 201 ==> |store.environments| == |old(store.environments)| + 2
    ensures first.Ok? ==>
      (second.Ok? && store.environments == old(store.environments) +
        [first.body.(status := EnvironmentStatus.Active), second.body.(status := EnvironmentStatus.Active)])
  {
    ghost var before := store.environments;
    first := CreateEnvironmentHandler(store, auth, body, firstId, now, settings, AsQueried);
    if first.Ok? {
      AsQueriedAdmitsSecond(auth, body, store.subscriptions, store.tiers, before, firstId, secondId, now, settings);
      assert store.environments == before + [first.body.(status := EnvironmentStatus.Active)];
    }
    second := CreateEnvironmentHandler(store, auth, body, secondId, now, settings, AsQueried);
  }
}
