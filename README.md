# Replicate chat provider, modelled in Dafny

This project models the chat provider for the Replicate backend
(`providers/replicate/chat.go`). The provider turns an OpenAI-style chat
completion request into a Replicate prediction, submits it, polls the
prediction until it finishes, and turns the finished prediction back into an
OpenAI-style response.

The model has three parts:

- **Request translation** (`Translator`). `ConvertFromChatOpenai` resolves
  the token limit and writes it back into the request object. It takes the
  completion-token alias when `maxTokens` is 0, then raises the value to 1024.
  `FlattenMessages` is its message loop:
  - system text goes into the system prompt, followed by a newline;
  - every other message becomes `role + ": \n" + its text parts + "\n"`;
  - each image part overwrites the image URL;
  - `"assistant: \n"` closes the prompt.

  The loop is proved against reference definitions built from one
  concatenation function, `Seqs.ConcatMap`. Lemmas about those definitions
  state the layout, the last-image-wins rule and the token floor.
- **Response assembly** (`Assembler`). `ConvertToChatOpenai` joins the
  output fragments with no separator. It builds one assistant choice with
  finish reason stop. Usage is the backend's counts with their sum, or all
  zero when there are no metrics.
- **Polling and the call itself** (`Poller`, `Provider`).
  - `PollResult` is the bounded loop of at most 30 fetches. Each fetch's
    result is an input, `fetch(i)`.
  - `ChatCompletion` accepts only 200, 201 and 202 from the submission.
  - It polls only when the first status is not `succeeded`.
  - It wraps every failure in the error code the source uses.

The network is never called. The submission's HTTP answer and every poll
fetch are parameters. The clock reading (`created`) and the provider's model
name are parameters too.

## Model

| member | source | states |
|---|---|---|
| `Translator.ResolveMaxTokens` | providers/replicate/chat.go:20-27 | the limit is at least 1024. It is kept when already at least 1024. An unset (0) limit takes an alias of at least 1024. Every other case gives exactly 1024. |
| `Translator.ResolveIsIdempotent` | providers/replicate/chat.go:20-27 | resolving an already resolved limit again changes nothing |
| `Translator.FlattenMessages` | providers/replicate/chat.go:16-48 | the message loop returns exactly the reference system prompt, the prompt (turns followed by the assistant cue) and the image (last image URL, or "") |
| `Translator.ConvertFromChatOpenai` | providers/replicate/chat.go:15-64 | the request's `maxTokens` becomes the resolved limit and nothing else in the request changes. The prediction copies stream, topP, temperature and both penalties, sends min tokens 0 and the resolved limit, and carries the reference prompts and image. |
| `Translator.TranslateTwice` | providers/replicate/chat.go:15-64 | translating the same request twice gives identical predictions, although the first call wrote into the request |
| `Translator.PromptEndsWithCue` | providers/replicate/chat.go:48 | the prompt always ends with `"assistant: \n"` |
| `Translator.SystemMessageAddsOnlySystemText` | providers/replicate/chat.go:29-33 | a system message appends its text and "\n" to the system prompt. It changes neither the prompt nor the image, even when it holds image parts. |
| `Translator.TurnLayout` | providers/replicate/chat.go:35-45 | a non-system message adds `role + ": \n" + its text parts in order + "\n"` just before the cue and leaves the system prompt alone |
| `Translator.SplitConversation` | providers/replicate/chat.go:29-48 | for a conversation a ++ b, the turns and the system prompts concatenate in order, and b's image wins unless b has none |
| `Translator.LastImagePartWins` | providers/replicate/chat.go:37-43 | the image is the URL of the image part, in a non-system message, that no later image part follows |
| `Translator.NoImagePartMeansNoImage` | providers/replicate/chat.go:18-43 | with no image part in any non-system message the image is "" |
| `Translator.LaterAssistantImageWins` | providers/replicate/chat.go:37-43 | given a user image and then a later assistant image, the assistant's image is sent |
| `Assembler.JoinIsConcatenation` | providers/replicate/chat.go:69-72 | joining one fragment keeps it, and joining two runs concatenates their joins (no separator) |
| `Assembler.JoinLength` | providers/replicate/chat.go:69-72 | the joined text is as long as the fragments together |
| `Assembler.UsageOf` | providers/replicate/chat.go:91-98 | total = prompt + completion. With metrics, prompt and completion are the input and output counts. Without metrics, usage is all zero. |
| `Assembler.ConvertToChatOpenai` | providers/replicate/chat.go:67-101 | id = prediction id, object "chat.completion", exactly one choice (assistant, finish reason stop) whose content is the joined output or "" without output, usage as in UsageOf |
| `Assembler.UsageExample` | providers/replicate/chat.go:91-98 | 12 input and 34 output tokens give a total of 46 |
| `Poller.Verdict` | providers/replicate/chat.go:353-380 | a fetch that ends the loop succeeds exactly when it received status "succeeded", and then returns that prediction. A failed send or decode gives a transport error with its message. "failed" and "canceled" give a prediction failure carrying the backend's error text. |
| `Poller.PollResult` | providers/replicate/chat.go:343-387 | the loop's outcome and fetch count equal the reference `Poll`. A success always carries status "succeeded". |
| `Poller.PollFetchBounds` | providers/replicate/chat.go:350-351 | the loop makes at least one and at most 30 fetches |
| `Poller.PollStopsAtFirstStop` | providers/replicate/chat.go:351-381 | if fetch k < 30 is the first terminal status or failed fetch, the loop stops after exactly k + 1 fetches with that fetch's verdict |
| `Poller.PollTimesOut` | providers/replicate/chat.go:350-386 | if none of the first 30 fetches is terminal, the loop ends with a polling timeout after exactly 30 fetches |
| `Poller.SucceedsOnSixthFetch` | providers/replicate/chat.go:351-384 | five "processing" answers followed by "succeeded" give success after exactly 6 fetches |
| `Provider.AcceptedStatus` | providers/replicate/chat.go:136 | a submission is accepted exactly for status codes 200 to 202 |
| `Provider.NeedsPolling` | providers/replicate/chat.go:187-193 | polling is skipped exactly when the first status is "succeeded". A first status of failed, canceled or starting is polled. |
| `Provider.StreamPlaceholder` | providers/replicate/chat.go:162-177 | a streaming call answers with the prediction id, object "chat.completion", the model name and clock reading, one empty assistant choice with no finish reason, and zero usage |
| `Provider.ChatCompletion` | providers/replicate/chat.go:104-197 | the request is translated and its limit written back. Each failure maps to its error code, status 500 and its cause: send failure (with the transport's message), rejected status (code and body), decode failure, missing stream URL, and polling failure (with the poller's error: failed or canceled with the backend's error text, a failed fetch, or the timeout). Polling happens exactly for an accepted, decoded, non-streaming submission whose status is not "succeeded", with Poll's fetch count. An accepted non-streaming prediction already "succeeded" always gives the response assembled from it. After a successful poll the response is assembled from the polled prediction. |

## Left out

- HTTP plumbing is not modelled: building requests, headers, `client.Do` and reading bodies. The submission's answer is the `Submission` input, and each poll fetch is `fetch(i)`.
- JSON marshalling of the prediction (lines 109-112) is not modelled. Creating the POST request (lines 118-121) is not modelled either. Both only fail on library errors.
- `ChatCompletionStream`, `getStreamUrl` and `handleChatCompletionStream` (lines 200-340) are not modelled. They are network calls plus a reader goroutine whose channel loop is concurrency, and their output buffer is discarded.
- The SSE chunk handler (`NewReplicateStreamHandler`, `HandlerChatStream`) is defined in a file that is not part of this model. Its paragraph-break handling is therefore not modelled.
- `time.Sleep` between polls is not modelled, because time does not affect the outcome. `common.GetTimestamp()` becomes the `created` parameter.
- `StringContent()` and `ParseContent()` of a message are defined elsewhere. A message therefore carries both results: `text` and `parts`.
- Temperature, top-p and the penalties are only copied, so they are plain reals with no arithmetic.
- Error messages are structured values, not formatted strings: each wrapped error keeps its code, its status and the error it wraps. Examples: `PredictionFailed(detail)` for "prediction failed or canceled: %s", `PollingTimeout(30)` for "polling timeout after %d attempts", and `RequestRejected(code, body)` for the formatted rejection message.
- PollResult: every fetch is taken as a whole prediction. In the source each answer is decoded into the same reused `result` variable, so a field missing from a later answer keeps its earlier value. The partially decoded `result` that the source returns beside an error is also not modelled, because `ChatCompletion` discards it.
- UsageOf: the total is the unbounded sum of the two counts. Go's `int` wrap-around above 2^63 - 1 is not modelled, because token counts never come near it.
