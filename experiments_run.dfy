/** POST /experiments/{id}/run: one metered chat completion inside an experiment. */
module ExperimentsRun {
  import opened Wrappers
  import opened Query
  import opened Http
  import opened Models
  import opened Auth
  import opened DocumentStore
  import opened ChatClient
  import opened Usage

  const RunOperation: string := "OpenAIChat"

  /** The request body; `messages` is None when the body's field is not an array. */
  datatype RunBody = RunBody(environmentId: Option<string>, messages: Option<seq<ChatMessage>>)

  datatype RunResult = RunResult(reply: string, approxTokensUsed: nat, creditsRemaining: int)

  /** `Math.max(0, remaining - consumed)`: the balance never drops below zero, a
      positive balance never grows, and the exact difference is kept whenever it
      is positive. */
  function Debit(remaining: int, consumed: nat): (r: int)
    ensures r >= 0
    ensures remaining >= 0 ==> r <= remaining
    ensures r > 0 ==> r == remaining - consumed
    ensures consumed <= remaining ==> r == remaining - consumed
    ensures remaining <= consumed ==> r == 0
  {
    if remaining - consumed > 0 then remaining - consumed else 0
  }

  /** The system prompt goes first, then the caller's messages in order. */
  function PromptedMessages(systemPrompt: string, messages: seq<ChatMessage>): (r: seq<ChatMessage>)
    ensures |r| == |messages| + 1
    ensures r[0] == ChatMessage("system", systemPrompt)
    ensures r[1..] == messages
  {
    [ChatMessage("system", systemPrompt)] + messages
  }

  predicate BodyComplete(body: Option<RunBody>) {
    body.Some? && Truthy(body.value.environmentId) && body.value.messages.Some?
  }

  /** `runExperimentHandler`. The provider's answer to the request this handler
      sends is the input `completion`; `sent` is the request, None when no call is
      made. `usageId` is the fresh snapshot id and `now` the clock reading. */
  method RunExperimentHandler(
    store: Store, auth: Option<AuthContext>, experimentId: string, body: Option<RunBody>,
    completion: ProviderResult, usageId: string, now: Timestamp)
    returns (resp: HttpResponse<RunResult>, sent: Option<ChatRequest>)
    requires store.Valid()
    requires forall u :: u in store.usage ==> u.id != usageId
    modifies store`usage, store`subscriptions
    ensures store.Valid()
    ensures resp.status != 200 ==>
      && sent.None?
      && store.usage == old(store.usage)
      && store.subscriptions == old(store.subscriptions)
    ensures auth.None? ==> resp.Fail? && resp.status == 401
    ensures auth.Some? && !BodyComplete(body) ==>
      resp == Fail(400, "environmentId and messages[] are required")
    ensures auth.Some? && BodyComplete(body) ==>
      var tenant := auth.value.tenantId;
      var exp := ReadExperiment(store.experiments, experimentId);
      var env := ReadEnvironment(store.environments, body.value.environmentId.value, tenant);
      && (exp.None? ==> resp == Fail(404, "Experiment not found"))
      && (exp.Some? && env.None? ==> resp == Fail(404, "Environment not found"))
      && (exp.Some? && env.Some? ==>
          var sub := ReadSubscription(old(store.subscriptions), env.value.subscriptionId, tenant);
          && (sub.None? || sub.value.status != SubscriptionStatus.Active ==>
                resp == Fail(400, "Subscription not active"))
          && (sub.Some? && sub.value.status == SubscriptionStatus.Active && sub.value.creditsRemaining <= 0 ==>
                resp == Fail(400, "No credits remaining"))
          && (sub.Some? && sub.value.status == SubscriptionStatus.Active && sub.value.creditsRemaining > 0 ==>
                var chat := RunChatCompletion(completion);
                var consumed := TokensToCredits(chat.tokensUsed);
                var debited := sub.value.(creditsRemaining := Debit(sub.value.creditsRemaining, consumed));
                var i := IndexWhere(old(store.subscriptions), HasKey(SubscriptionKey, (sub.value.id, tenant)));
                && sent == Some(ChatRequest(
                     PromptedMessages(exp.value.systemPrompt, body.value.messages.value),
                     exp.value.maxTokensPerCall))
                && store.usage == old(store.usage) + [UsageSnapshot(
                     usageId, tenant, sub.value.id, Some(env.value.id), now,
                     chat.tokensUsed, consumed, RunOperation, Some(experimentId))]
                && i < |old(store.subscriptions)|
                && store.subscriptions == old(store.subscriptions)[i := debited]
                && resp == Ok(200, RunResult(chat.reply, chat.tokensUsed, debited.creditsRemaining))
                && 0 <= resp.body.creditsRemaining < sub.value.creditsRemaining + 1))
  {
    sent := None;
    if auth.None? {
      return Unauthorized(), sent;
    }
    var a := auth.value;
    if !BodyComplete(body) {
      return Fail(400, "environmentId and messages[] are required"), sent;
    }
    var environmentId := body.value.environmentId.value;
    var messages := body.value.messages.value;

    var experiment := ReadExperiment(store.experiments, experimentId);
    if experiment.None? {
      return Fail(404, "Experiment not found"), sent;
    }
    var env := ReadEnvironment(store.environments, environmentId, a.tenantId);
    if env.None? || env.value.tenantId != a.tenantId {
      return Fail(404, "Environment not found"), sent;
    }
    var sub := ReadSubscription(store.subscriptions, env.value.subscriptionId, a.tenantId);
    if sub.None? || sub.value.status != SubscriptionStatus.Active {
      return Fail(400, "Subscription not active"), sent;
    }
    if sub.value.creditsRemaining <= 0 {
      return Fail(400, "No credits remaining"), sent;
    }

    var request := ChatRequest(
      PromptedMessages(experiment.value.systemPrompt, messages), experiment.value.maxTokensPerCall);
    sent := Some(request);
    var chat := RunChatCompletion(completion);

    var snapshot := RecordUsage(
      store,
      UsageParams(a.tenantId, sub.value.id, Some(env.value.id), chat.tokensUsed, RunOperation, Some(experimentId)),
      usageId, now);

    var debited := sub.value.(creditsRemaining := Debit(sub.value.creditsRemaining, snapshot.creditsConsumed));
    store.ReplaceSubscription(debited);
    resp := Ok(200, RunResult(chat.reply, chat.tokensUsed, debited.creditsRemaining));
  }
}
