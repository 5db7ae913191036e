/** Metering: the token-to-credit conversion, and the recording of one usage
    snapshot per metered operation. */
module Usage {
  import opened Wrappers
  import opened Query
  import opened Models
  import opened DocumentStore

  /** One credit per ten tokens, rounded up (1 token = 0.1 credit).
      The source multiplies by the float 0.1; this is the exact ceiling. */
  function TokensToCredits(tokens: nat): (credits: nat)
    ensures tokens <= 10 * credits < tokens + 10
  {
    (tokens + 9) / 10
  }

  /** The bounds determine the credit count: it is the ceiling of tokens / 10. */
  lemma CreditsAreCeiling(tokens: nat, c: nat)
    requires tokens <= 10 * c < tokens + 10
    ensures TokensToCredits(tokens) == c
  {
    var d := TokensToCredits(tokens);
    assert 10 * d - 10 < 10 * c < 10 * d + 10;
  }

  lemma TokensToCreditsExamples()
    ensures TokensToCredits(0) == 0
    ensures TokensToCredits(1) == 1
    ensures TokensToCredits(10) == 1
    ensures TokensToCredits(11) == 2
    ensures TokensToCredits(100) == 10
  {
  }

  /** More tokens never cost fewer credits. */
  lemma TokensToCreditsMonotone(a: nat, b: nat)
    requires a <= b
    ensures TokensToCredits(a) <= TokensToCredits(b)
  {
  }

  /** The parameters of `recordUsage`. */
  datatype UsageParams = UsageParams(
    tenantId: string,
    subscriptionId: string,
    environmentId: Option<string>,
    tokensUsed: nat,
    operation: string,
    experimentId: Option<string>)

  /** `recordUsage`: builds the snapshot with the fresh id `snapshotId` and the
      clock reading `now`, appends it to the usage container and returns it. */
  method RecordUsage(store: Store, params: UsageParams, snapshotId: string, now: Timestamp)
    returns (snapshot: UsageSnapshot)
    requires store.Valid()
    requires Lookup(store.usage, UsageKey, (snapshotId, params.tenantId)).None?
    modifies store`usage
    ensures store.Valid()
    ensures store.usage == old(store.usage) + [snapshot]
    ensures snapshot.id == snapshotId && snapshot.timestamp == now
    ensures snapshot.tenantId == params.tenantId
    ensures snapshot.subscriptionId == params.subscriptionId
    ensures snapshot.environmentId == params.environmentId
    ensures snapshot.tokensUsed == params.tokensUsed
    ensures snapshot.creditsConsumed == TokensToCredits(params.tokensUsed)
    ensures snapshot.operation == params.operation
    ensures snapshot.experimentId == params.experimentId
  {
    var creditsConsumed := TokensToCredits(params.tokensUsed);
    snapshot := UsageSnapshot(
      snapshotId, params.tenantId, params.subscriptionId, params.environmentId,
      now, params.tokensUsed, creditsConsumed, params.operation, params.experimentId);
    store.CreateUsage(snapshot);
  }
}
