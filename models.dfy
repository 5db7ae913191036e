/** The documents of the lab portal's store: users, tier definitions,
    subscriptions, environments, usage snapshots and AI experiments. */
module Models {
  import opened Wrappers

  /** Timestamps (ISO strings in the store) as milliseconds since the epoch,
      a totally ordered key. */
  type Timestamp = int

  const MillisPerDay: int := 86_400_000

  /** `now + days`, on the day counter of the timestamp. */
  function AddDays(now: Timestamp, days: int): (t: Timestamp)
    ensures t - now == days * MillisPerDay
  {
    now + days * MillisPerDay
  }

  datatype UserStatus = Active | Inactive

  datatype User = User(
    id: string,          // documented to equal userId
    tenantId: string,
    userId: string,
    email: string,
    displayName: string,
    roles: seq<string>,
    status: UserStatus,
    createdAt: Timestamp)

  /** `limits.labExpiryDays` is read with `?? 14`, so it is modelled as optional. */
  datatype TierLimits = TierLimits(
    maxEnvironments: int,
    maxTokensPerDay: int,
    maxConcurrentCalls: int,
    labExpiryDays: Option<int>)

  const DefaultLabExpiryDays: int := 14

  /** `limits.labExpiryDays ?? 14`. */
  function LabExpiryDays(limits: TierLimits): (days: int)
    ensures limits.labExpiryDays.Some? ==> days == limits.labExpiryDays.value
    ensures limits.labExpiryDays.None? ==> days == DefaultLabExpiryDays
  {
    OrElse(limits.labExpiryDays, DefaultLabExpiryDays)
  }

  /** `defaultCredits` is read with `?? 2000`, so it is modelled as optional. */
  datatype TierDefinition = TierDefinition(
    id: string,
    name: string,
    description: string,
    defaultCredits: Option<int>,
    limits: TierLimits,
    allowedServices: seq<string>,
    bicepParameterSet: Option<string>)

  datatype SubscriptionStatus = Active | Expired | Cancelled

  datatype Subscription = Subscription(
    id: string,
    tenantId: string,
    userId: string,
    tierId: string,
    status: SubscriptionStatus,
    prepaidCredits: int,
    creditsRemaining: int,
    createdAt: Timestamp,
    expiresAt: Timestamp)

  /** Exactly five environment states. */
  datatype EnvironmentStatus = Provisioning | Active | Deleting | Deleted | Error

  /** `softDeleted` is optional: an absent flag is distinct from `Some(false)`. */
  datatype Environment = Environment(
    id: string,
    tenantId: string,
    subscriptionId: string,
    tierId: string,
    name: string,
    resourceGroupName: string,
    region: string,
    status: EnvironmentStatus,
    createdAt: Timestamp,
    expiresAt: Timestamp,
    softDeleted: Option<bool>)

  /** JavaScript truthiness of `softDeleted`: only an explicit `true` marks a deletion. */
  predicate IsSoftDeleted(e: Environment)
  {
    e.softDeleted == Some(true)
  }

  /** The only `softDeleted` values the handlers write: absent on creation, true on
      deletion. */
  ghost predicate FlagsAsWritten(envs: seq<Environment>)
  {
    forall e :: e in envs ==> e.softDeleted.None? || IsSoftDeleted(e)
  }

  /** Writing a document whose flag is absent or true, appended or in place of
      another, keeps the flags as written. */
  lemma FlagsAfterWrite(envs: seq<Environment>, i: nat, e: Environment)
    requires FlagsAsWritten(envs) && i <= |envs|
    requires e.softDeleted.None? || IsSoftDeleted(e)
    ensures i < |envs| ==> FlagsAsWritten(envs[i := e])
    ensures FlagsAsWritten(envs + [e])
  {
    if i < |envs| {
      forall x | x in envs[i := e] ensures x.softDeleted.None? || IsSoftDeleted(x) {
        var j :| 0 <= j < |envs| && envs[i := e][j] == x;
        if j != i { assert x == envs[j]; }
      }
    }
  }

  /** One metered operation; only the environment and experiment references are optional. */
  datatype UsageSnapshot = UsageSnapshot(
    id: string,
    tenantId: string,
    subscriptionId: string,
    environmentId: Option<string>,
    timestamp: Timestamp,
    tokensUsed: int,
    creditsConsumed: int,
    operation: string,
    experimentId: Option<string>)

  datatype AIExperiment = AIExperiment(
    id: string,
    title: string,
    tierIds: seq<string>,
    description: string,
    systemPrompt: string,
    maxTokensPerCall: int,
    maxDailyTokensPerUser: int,
    samplePrompts: seq<string>)
}
