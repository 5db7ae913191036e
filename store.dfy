/** The document store: one container per document kind. Each container is a
    sequence of documents in store order, identified by a key made of the
    document's id and its partition key value. */
module DocumentStore {
  import opened Wrappers
  import opened Query
  import opened Models

  /** Users carry `userId` (equal to `id`); the lookup by `userId` is not tenant-scoped. */
  function UserKey(u: User): string { u.userId }

  /** Subscriptions, environments and usage snapshots are partitioned by tenant. */
  function SubscriptionKey(s: Subscription): (string, string) { (s.id, s.tenantId) }
  function EnvironmentKey(e: Environment): (string, string) { (e.id, e.tenantId) }
  function UsageKey(u: UsageSnapshot): (string, string) { (u.id, u.tenantId) }

  /** Tier definitions and experiments are partitioned by their own id. */
  function TierKey(t: TierDefinition): string { t.id }
  function ExperimentKey(x: AIExperiment): string { x.id }

  /** `subscriptions.item(id, tenantId).read()`. */
  function ReadSubscription(subs: seq<Subscription>, id: string, tenantId: string): (r: Option<Subscription>)
    ensures r.Some? ==> r.value in subs && r.value.id == id && r.value.tenantId == tenantId
    ensures r.None? ==> forall s :: s in subs ==> s.id != id || s.tenantId != tenantId
  {
    Lookup(subs, SubscriptionKey, (id, tenantId))
  }

  /** `environments.item(id, tenantId).read()`, and equally the query
      `WHERE c.id = @id AND c.tenantId = @tenantId` taking `resources[0]`. */
  function ReadEnvironment(envs: seq<Environment>, id: string, tenantId: string): (r: Option<Environment>)
    ensures r.Some? ==> r.value in envs && r.value.id == id && r.value.tenantId == tenantId
    ensures r.None? ==> forall e :: e in envs ==> e.id != id || e.tenantId != tenantId
  {
    Lookup(envs, EnvironmentKey, (id, tenantId))
  }

  /** `tierDefinitions.item(tierId, tierId).read()`. */
  function ReadTier(tiers: seq<TierDefinition>, id: string): (r: Option<TierDefinition>)
    ensures r.Some? ==> r.value in tiers && r.value.id == id
    ensures r.None? ==> forall t :: t in tiers ==> t.id != id
  {
    Lookup(tiers, TierKey, id)
  }

  /** `aiExperiments.item(id, id).read()`. */
  function ReadExperiment(experiments: seq<AIExperiment>, id: string): (r: Option<AIExperiment>)
    ensures r.Some? ==> r.value in experiments && r.value.id == id
    ensures r.None? ==> forall x :: x in experiments ==> x.id != id
  {
    Lookup(experiments, ExperimentKey, id)
  }

  class Store {
    var users: seq<User>
    var subscriptions: seq<Subscription>
    var tiers: seq<TierDefinition>
    var environments: seq<Environment>
    var usage: seq<UsageSnapshot>
    var experiments: seq<AIExperiment>

    /** Keys are unique in every container, and every user's id is its userId. */
    ghost predicate Valid()
      reads this
    {
      && UniqueKeys(users, UserKey)
      && (forall u :: u in users ==> u.id == u.userId)
      && UniqueKeys(subscriptions, SubscriptionKey)
      && UniqueKeys(tiers, TierKey)
      && UniqueKeys(environments, EnvironmentKey)
      && UniqueKeys(usage, UsageKey)
      && UniqueKeys(experiments, ExperimentKey)
    }

    /** A store holding only the static catalogs: tier definitions and experiments. */
    constructor (tiers: seq<TierDefinition>, experiments: seq<AIExperiment>)
      requires UniqueKeys(tiers, TierKey) && UniqueKeys(experiments, ExperimentKey)
      ensures Valid()
      ensures this.tiers == tiers && this.experiments == experiments
      ensures users == [] && subscriptions == [] && environments == [] && usage == []
    {
      this.tiers := tiers;
      this.experiments := experiments;
      users, subscriptions, environments, usage := [], [], [], [];
    }

    /** `users.items.create(u)` for a user whose userId is not yet stored. */
    method CreateUser(u: User)
      requires Valid() && u.id == u.userId
      requires Lookup(users, UserKey, u.userId).None?
      modifies this`users
      ensures Valid()
      ensures users == old(users) + [u]
    {
      UpsertKeepsUniqueKeys(users, UserKey, u);
      users := users + [u];
    }

    /** `subscriptions.items.create(s)` with a fresh id. */
    method CreateSubscription(s: Subscription)
      requires Valid()
      requires Lookup(subscriptions, SubscriptionKey, SubscriptionKey(s)).None?
      modifies this`subscriptions
      ensures Valid()
      ensures subscriptions == old(subscriptions) + [s]
    {
      UpsertKeepsUniqueKeys(subscriptions, SubscriptionKey, s);
      subscriptions := subscriptions + [s];
    }

    /** `subscriptions.item(s.id, s.tenantId).replace(s)` of a stored subscription. */
    method ReplaceSubscription(s: Subscription)
      requires Valid()
      requires Lookup(subscriptions, SubscriptionKey, SubscriptionKey(s)).Some?
      modifies this`subscriptions
      ensures Valid()
      ensures subscriptions == Upsert(old(subscriptions), SubscriptionKey, s)
      ensures |subscriptions| == |old(subscriptions)|
    {
      UpsertKeepsUniqueKeys(subscriptions, SubscriptionKey, s);
      subscriptions := Upsert(subscriptions, SubscriptionKey, s);
    }

    /** `environments.items.create(e)` with a fresh id. */
    method CreateEnvironment(e: Environment)
      requires Valid()
      requires Lookup(environments, EnvironmentKey, EnvironmentKey(e)).None?
      modifies this`environments
      ensures Valid()
      ensures environments == old(environments) + [e]
    {
      UpsertKeepsUniqueKeys(environments, EnvironmentKey, e);
      environments := environments + [e];
    }

    /** `environments.items.upsert(e)`, and `environments.item(e.id, e.tenantId).replace(e)`
        when the document is stored. */
    method UpsertEnvironment(e: Environment)
      requires Valid()
      modifies this`environments
      ensures Valid()
      ensures environments == Upsert(old(environments), EnvironmentKey, e)
    {
      UpsertKeepsUniqueKeys(environments, EnvironmentKey, e);
      environments := Upsert(environments, EnvironmentKey, e);
    }

    /** `usageSnapshots.items.create(u)` with a fresh id. */
    method CreateUsage(u: UsageSnapshot)
      requires Valid()
      requires Lookup(usage, UsageKey, UsageKey(u)).None?
      modifies this`usage
      ensures Valid()
      ensures usage == old(usage) + [u]
    {
      UpsertKeepsUniqueKeys(usage, UsageKey, u);
      usage := usage + [u];
    }
  }
}
