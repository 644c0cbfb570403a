/** The values the Replicate chat provider reads and builds: the
    OpenAI-style request it receives, the prediction input it submits, the
    prediction it reads back, and the OpenAI-style response it returns. */
module Types {
  import opened Wrappers

  const SystemRole := "system"
  const AssistantRole := "assistant"
  const ChatCompletionObject := "chat.completion"

  /** One part of a message's parsed content. Parts of any other content
      type are carried as OtherPart and ignored by the translator. */
  datatype Part =
    | Text(text: string)
    | ImageUrl(url: string)
    | OtherPart(kind: string)

  /** A chat message: its role, its content read as one string (what a
      system message contributes) and its content parsed into parts (what
      every other message contributes). */
  datatype Message = Message(role: string, text: string, parts: seq<Part>)

  /** The incoming OpenAI-style request. It is an object because the
      translator writes the resolved token limit back into it. The sampling
      parameters are copied, never computed with, so they are plain reals. */
  class ChatCompletionRequest {
    var messages: seq<Message>
    var maxTokens: int
    var maxCompletionTokens: int
    var stream: bool
    var temperature: real
    var topP: real
    var presencePenalty: real
    var frequencyPenalty: real

    constructor (messages: seq<Message>, maxTokens: int, maxCompletionTokens: int, stream: bool,
                 temperature: real, topP: real, presencePenalty: real, frequencyPenalty: real)
      ensures this.messages == messages && this.maxTokens == maxTokens
      ensures this.maxCompletionTokens == maxCompletionTokens && this.stream == stream
      ensures this.temperature == temperature && this.topP == topP
      ensures this.presencePenalty == presencePenalty && this.frequencyPenalty == frequencyPenalty
    {
      this.messages := messages;
      this.maxTokens := maxTokens;
      this.maxCompletionTokens := maxCompletionTokens;
      this.stream := stream;
      this.temperature := temperature;
      this.topP := topP;
      this.presencePenalty := presencePenalty;
      this.frequencyPenalty := frequencyPenalty;
    }
  }

  /** The `input` object of a prediction. */
  datatype ReplicateChatRequest = ReplicateChatRequest(
    topP: real,
    maxTokens: int,
    minTokens: int,
    temperature: real,
    systemPrompt: string,
    prompt: string,
    presencePenalty: real,
    frequencyPenalty: real,
    image: string)

  /** The body of the prediction-creation call. */
  datatype ReplicateRequest = ReplicateRequest(stream: bool, input: ReplicateChatRequest)

  datatype Metrics = Metrics(inputTokenCount: int, outputTokenCount: int)

  /** A prediction as the backend reports it. A missing output or metrics
      object is None; a missing stream URL is the empty string. */
  datatype PredictionResponse = PredictionResponse(
    id: string,
    status: string,
    output: Option<seq<string>>,
    error: string,
    metrics: Option<Metrics>,
    streamUrl: string)

  datatype Usage = Usage(promptTokens: int, completionTokens: int, totalTokens: int)

  datatype FinishReason = Stop | Null

  datatype ChatMessage = ChatMessage(role: string, content: string)

  datatype Choice = Choice(message: ChatMessage, finishReason: FinishReason)

  /** The OpenAI-style response. `created` is the clock reading the caller
      supplies. */
  datatype ChatCompletionResponse = ChatCompletionResponse(
    id: string,
    objectKind: string,
    created: int,
    model: string,
    choices: seq<Choice>,
    usage: Usage)
}
