/** Assembly of the OpenAI-style response from a finished prediction: the
    output fragments joined, one assistant choice, and the usage counts. */
module Assembler {
  import opened Wrappers
  import opened Seqs
  import opened Types

  /** The fragments concatenated in order with no separator. */
  function Join(fragments: seq<string>): string
  {
    ConcatMap(fragments, s => s)
  }

  /** Joining is concatenation: a single fragment is kept as it is, and
      joining two runs of fragments concatenates their joins. */
  lemma JoinIsConcatenation(xs: seq<string>, ys: seq<string>, x: string)
    ensures Join([x]) == x
    ensures Join(xs + ys) == Join(xs) + Join(ys)
  {
    ConcatMapSnoc([], x, s => s);
    assert [] + [x] == [x];
    ConcatMapAppend(xs, ys, s => s);
  }

  /** The length of the joined text is the sum of the fragments' lengths. */
  function TotalLength(fragments: seq<string>): nat
  {
    if |fragments| == 0 then 0 else TotalLength(fragments[..|fragments| - 1]) + |fragments[|fragments| - 1]|
  }

  lemma {:induction false} JoinLength(fragments: seq<string>)
    ensures |Join(fragments)| == TotalLength(fragments)
  {
    if |fragments| != 0 {
      JoinLength(fragments[..|fragments| - 1]);
    }
  }

  /** The usage record: the backend's counts and their sum when metrics are
      present, all zero when they are absent. */
  function UsageOf(metrics: Option<Metrics>): (u: Usage)
    ensures u.totalTokens == u.promptTokens + u.completionTokens
    ensures metrics.None? ==> u == Usage(0, 0, 0)
    ensures metrics.Some? ==> u.promptTokens == metrics.value.inputTokenCount
    ensures metrics.Some? ==> u.completionTokens == metrics.value.outputTokenCount
  {
    match metrics
    case None => Usage(0, 0, 0)
    case Some(m) => Usage(m.inputTokenCount, m.outputTokenCount, m.inputTokenCount + m.outputTokenCount)
  }

  /** The text of the single choice. */
  function ResponseText(output: Option<seq<string>>): string
  {
    if output.Some? then Join(output.value) else ""
  }

  /** Builds the response of a finished prediction; `created` is the clock
      reading and `modelName` the provider's model name. */
  function ConvertToChatOpenai(response: PredictionResponse, modelName: string, created: int): (r: ChatCompletionResponse)
    ensures r.id == response.id && r.objectKind == ChatCompletionObject
    ensures r.model == modelName && r.created == created
    ensures |r.choices| == 1
    ensures r.choices[0].message.role == AssistantRole && r.choices[0].finishReason == Stop
    ensures r.choices[0].message.content == ResponseText(response.output)
    ensures r.usage.totalTokens == r.usage.promptTokens + r.usage.completionTokens
    ensures r.usage == UsageOf(response.metrics)
  {
    var choice := Choice(ChatMessage(AssistantRole, ResponseText(response.output)), Stop);
    ChatCompletionResponse(response.id, ChatCompletionObject, created, modelName, [choice], UsageOf(response.metrics))
  }

  /** A prediction with 12 input and 34 output tokens reports 46 in total. */
  lemma UsageExample(response: PredictionResponse, modelName: string, created: int)
    requires response.metrics == Some(Metrics(12, 34))
    ensures ConvertToChatOpenai(response, modelName, created).usage == Usage(12, 34, 46)
  {
  }
}
