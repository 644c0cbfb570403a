/** The non-streaming chat call: translate, submit, check the submission's
    status code, poll when the prediction is not yet finished, and assemble
    the response. The HTTP exchange of the submission is an input (what the
    backend answered), and so is every poll fetch. */
module Provider {
  import opened Wrappers
  import opened Types
  import opened Translator
  import opened Assembler
  import opened Poller

  const InternalServerError := 500

  /** What the prediction-creation call came back with: no answer at all
      (with the transport's error text), or a status code, the raw body and
      the body decoded (None when it does not decode). */
  datatype Submission =
    | SendFailed(message: string)
    | Answered(statusCode: int, body: string, decoded: Option<PredictionResponse>)

  /** The error a wrapped failure carries. */
  datatype Cause =
    | SendError(message: string)       // the submission could not be sent
    | DecodeError                      // the submission's answer did not decode
    | MissingStreamUrl                 // a streaming prediction came back without a stream URL
    | PollFailure(error: PollError)    // polling failed, with the poller's error

  datatype ApiError =
    | RequestRejected(statusCode: int, body: string)        // the backend refused the submission
    | Wrapped(code: string, statusCode: int, cause: Cause)  // a failure reported with an error code and its cause

  /** The submission status codes treated as success: 200 OK, 201 Created
      and 202 Accepted, and no other. */
  predicate AcceptedStatus(statusCode: int)
    ensures AcceptedStatus(statusCode) <==> 200 <= statusCode <= 202
  {
    statusCode == 200 || statusCode == 201 || statusCode == 202
  }

  /** Whether a submitted prediction must be polled: exactly when its first
      status is not "succeeded", so a prediction already reported failed
      or canceled is polled too. */
  predicate NeedsPolling(status: string)
    ensures !NeedsPolling(status) <==> status == Succeeded
    ensures status == Failed || status == Canceled || status == "starting" ==> NeedsPolling(status)
  {
    status != Succeeded
  }

  /** The placeholder response of a streaming request: empty content, no
      finish reason yet, the prediction's id. */
  function StreamPlaceholder(response: PredictionResponse, modelName: string, created: int): (r: ChatCompletionResponse)
    ensures r.id == response.id && r.objectKind == ChatCompletionObject
    ensures r.model == modelName && r.created == created
    ensures |r.choices| == 1 && r.choices[0] == Choice(ChatMessage(AssistantRole, ""), Null)
    ensures r.usage == Usage(0, 0, 0)
  {
    ChatCompletionResponse(response.id, ChatCompletionObject, created, modelName,
                           [Choice(ChatMessage(AssistantRole, ""), Null)], Usage(0, 0, 0))
  }

  /** Whether the call polls: the submission was accepted and decoded, the
      request is not streaming, and the prediction is not yet "succeeded". */
  predicate Polls(submission: Submission, stream: bool)
  {
    submission.Answered? && AcceptedStatus(submission.statusCode) && !stream
    && submission.decoded.Some? && NeedsPolling(submission.decoded.value.status)
  }

  /** The chat call. `sent` is the prediction submitted, `fetches` the
      number of poll fetches made. */
  method ChatCompletion(request: ChatCompletionRequest, modelName: string, created: int,
                        submission: Submission, fetch: nat -> Fetch)
    returns (sent: ReplicateRequest, r: Result<ChatCompletionResponse, ApiError>, fetches: nat)
    modifies request`maxTokens
    ensures request.maxTokens == ResolveMaxTokens(old(request.maxTokens), request.maxCompletionTokens)
    ensures sent == Translation(request)
    ensures submission.SendFailed? ==> r == Failure(Wrapped("send_request_error", InternalServerError, SendError(submission.message)))
    ensures (submission.Answered? && !AcceptedStatus(submission.statusCode))
              ==> r == Failure(RequestRejected(submission.statusCode, submission.body))
    ensures (submission.Answered? && AcceptedStatus(submission.statusCode) && submission.decoded.None?)
              ==> r == Failure(Wrapped("decode_error", InternalServerError, DecodeError))
    ensures r.Success? ==> submission.Answered? && AcceptedStatus(submission.statusCode) && submission.decoded.Some?
    // Streaming: no polling, a placeholder response when a stream URL exists.
    ensures (request.stream && submission.Answered? && AcceptedStatus(submission.statusCode) && submission.decoded.Some?)
              ==> r == (if submission.decoded.value.streamUrl == ""
                        then Failure(Wrapped("missing_stream_url", InternalServerError, MissingStreamUrl))
                        else Success(StreamPlaceholder(submission.decoded.value, modelName, created)))
    // Polling happens exactly when the first status is not "succeeded".
    ensures Polls(submission, request.stream) <==> fetches != 0
    ensures Polls(submission, request.stream) ==> fetches == Poll(fetch).1 && fetches <= MaxAttempts
    ensures Polls(submission, request.stream) ==>
              r == (if Poll(fetch).0.Success?
                    then Success(ConvertToChatOpenai(Poll(fetch).0.value, modelName, created))
                    else Failure(Wrapped("polling_error", InternalServerError, PollFailure(Poll(fetch).0.error))))
    ensures (!request.stream && submission.Answered? && AcceptedStatus(submission.statusCode)
             && submission.decoded.Some? && !NeedsPolling(submission.decoded.value.status))
              ==> r == Success(ConvertToChatOpenai(submission.decoded.value, modelName, created))
  {
    sent := ConvertFromChatOpenai(request);
    fetches := 0;
    match submission
    case SendFailed(message) =>
      r := Failure(Wrapped("send_request_error", InternalServerError, SendError(message)));
    case Answered(statusCode, body, decoded) =>
      if !AcceptedStatus(statusCode) {
        r := Failure(RequestRejected(statusCode, body));
      } else if decoded.None? {
        r := Failure(Wrapped("decode_error", InternalServerError, DecodeError));
      } else if request.stream {
        if decoded.value.streamUrl == "" {
          r := Failure(Wrapped("missing_stream_url", InternalServerError, MissingStreamUrl));
        } else {
          r := Success(StreamPlaceholder(decoded.value, modelName, created));
        }
      } else {
        var response := decoded.value;
        if response.status != Succeeded {
          var outcome;
          outcome, fetches := PollResult(fetch);
          PollFetchBounds(fetch, 0);
          if outcome.Failure? {
            r := Failure(Wrapped("polling_error", InternalServerError, PollFailure(outcome.error)));
            return;
          }
          response := outcome.value;
        }
        r := Success(ConvertToChatOpenai(response, modelName, created));
      }
  }
}
