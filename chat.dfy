/** The post-processing of a chat completion: which text is the reply, and how
    many tokens the call is billed for. The provider call itself is not
    modelled; its result is an input. */
module ChatClient {
  import opened Wrappers

  datatype ChatMessage = ChatMessage(role: string, content: string)

  /** What is sent to the provider: the messages and the `maxTokens` cap, unchanged. */
  datatype ChatRequest = ChatRequest(messages: seq<ChatMessage>, maxTokens: int)

  datatype ResponseMessage = ResponseMessage(content: Option<string>)
  datatype ChatChoice = ChatChoice(message: Option<ResponseMessage>)
  datatype CompletionUsage = CompletionUsage(completionTokens: Option<nat>, promptTokens: Option<nat>)

  /** The provider's answer: its choices and an optional usage report. */
  datatype ProviderResult = ProviderResult(choices: seq<ChatChoice>, usage: Option<CompletionUsage>)

  datatype ChatReply = ChatReply(reply: string, tokensUsed: nat)

  /** `result.choices[0]?.message?.content ?? ""`. */
  function ReplyText(result: ProviderResult): (reply: string)
    ensures |result.choices| > 0 && result.choices[0].message.Some? && result.choices[0].message.value.content.Some?
      ==> reply == result.choices[0].message.value.content.value
    ensures |result.choices| == 0 || result.choices[0].message.None? || result.choices[0].message.value.content.None?
      ==> reply == ""
  {
    if |result.choices| == 0 then ""
    else match result.choices[0].message
      case None => ""
      case Some(m) => OrElse(m.content, "")
  }

  /** `(usage?.completionTokens ?? 0) + (usage?.promptTokens ?? 0)`. */
  function ReportedTokens(usage: Option<CompletionUsage>): (n: nat)
    ensures usage.None? ==> n == 0
    ensures usage.Some? ==> n == OrElse(usage.value.completionTokens, 0) + OrElse(usage.value.promptTokens, 0)
  {
    match usage
    case None => 0
    case Some(u) => OrElse(u.completionTokens, 0) + OrElse(u.promptTokens, 0)
  }

  /** `Math.round(n / 4)` for n >= 0: the nearest integer to n / 4, halves rounded up. */
  function RoundQuarter(n: nat): (r: nat)
    ensures 4 * r <= n + 2 < 4 * r + 4
  {
    (n + 2) / 4
  }

  /** `runChatCompletion` after the call: the reported token sum when it is
      non-zero, otherwise the estimate of a quarter of the reply's length. */
  function RunChatCompletion(result: ProviderResult): (out: ChatReply)
    ensures out.reply == ReplyText(result)
    ensures ReportedTokens(result.usage) != 0 ==> out.tokensUsed == ReportedTokens(result.usage)
    ensures ReportedTokens(result.usage) == 0 ==>
      4 * out.tokensUsed <= |out.reply| + 2 < 4 * out.tokensUsed + 4
  {
    var reply := ReplyText(result);
    var reported := ReportedTokens(result.usage);
    ChatReply(reply, if reported != 0 then reported else RoundQuarter(|reply|))
  }

  /** An empty reply with no usage report is billed zero tokens. */
  lemma EmptyReplyWithoutUsageIsFree(result: ProviderResult)
    requires ReplyText(result) == "" && ReportedTokens(result.usage) == 0
    ensures RunChatCompletion(result).tokensUsed == 0
  {
  }
}
