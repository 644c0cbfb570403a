/** Translation of an OpenAI-style chat request into a Replicate prediction
    input: the token limit is resolved and written back into the request,
    the messages are flattened into one prompt, system text is collected
    separately, and at most one image is kept (the last one). */
module Translator {
  import opened Seqs
  import opened Types

  /** Smallest token limit ever sent to the backend. */
  const TokenFloor := 1024

  /** Cue appended after the last turn so that the model answers as the assistant. */
  const AssistantCue := "assistant: \n"

  /** The token limit sent to the backend: the primary field, or the
      completion-token alias when the primary field is unset (zero) and the
      alias is positive, raised to TokenFloor. The ensures clauses cover
      every case, so together they determine the result. */
  function ResolveMaxTokens(maxTokens: int, maxCompletionTokens: int): (r: int)
    ensures r >= TokenFloor
    ensures maxTokens >= TokenFloor ==> r == maxTokens
    ensures maxTokens != 0 && maxTokens < TokenFloor ==> r == TokenFloor
    ensures maxTokens == 0 && maxCompletionTokens >= TokenFloor ==> r == maxCompletionTokens
    ensures maxTokens == 0 && maxCompletionTokens < TokenFloor ==> r == TokenFloor
  {
    var chosen := if maxTokens == 0 && maxCompletionTokens > 0 then maxCompletionTokens else maxTokens;
    if chosen < TokenFloor then TokenFloor else chosen
  }

  /** Resolving an already resolved limit changes nothing, whatever the alias. */
  lemma ResolveIsIdempotent(maxTokens: int, maxCompletionTokens: int)
    ensures ResolveMaxTokens(ResolveMaxTokens(maxTokens, maxCompletionTokens), maxCompletionTokens)
         == ResolveMaxTokens(maxTokens, maxCompletionTokens)
  {
  }

  predicate IsSystem(m: Message)
  {
    m.role == SystemRole
  }

  // ---- Reference definitions of the three accumulators ----

  /** What a content part adds to the prompt text. */
  function PartText(p: Part): string
  {
    if p.Text? then p.text else ""
  }

  /** What a content part adds to the list of image URLs. */
  function PartImage(p: Part): seq<string>
  {
    if p.ImageUrl? then [p.url] else []
  }

  /** The text of a message's parts, in order. */
  function PartsText(parts: seq<Part>): string
  {
    ConcatMap(parts, PartText)
  }

  /** What a message adds to the system prompt: its text and a newline,
      for a system message only. */
  function SystemLine(m: Message): string
  {
    if IsSystem(m) then m.text + "\n" else ""
  }

  /** What a message adds to the prompt: for a non-system message, its role,
      ": \n", its text parts and a newline. */
  function Turn(m: Message): string
  {
    if IsSystem(m) then "" else m.role + ": \n" + PartsText(m.parts) + "\n"
  }

  /** The image URLs of a non-system message, in part order. */
  function MessageImages(m: Message): seq<string>
  {
    if IsSystem(m) then [] else ConcatMap(m.parts, PartImage)
  }

  function SystemPrompt(msgs: seq<Message>): string
  {
    ConcatMap(msgs, SystemLine)
  }

  /** All turns, without the closing cue. */
  function Turns(msgs: seq<Message>): string
  {
    ConcatMap(msgs, Turn)
  }

  function Prompt(msgs: seq<Message>): string
  {
    Turns(msgs) + AssistantCue
  }

  /** Every image URL of every non-system message, messages and parts in order. */
  function Images(msgs: seq<Message>): seq<string>
  {
    ConcatMap(msgs, MessageImages)
  }

  /** The one image sent: the last image URL, or "" when there is none. */
  function Image(msgs: seq<Message>): string
  {
    LastOr("", Images(msgs))
  }

  /** The prediction the request translates to, once its token limit is resolved. */
  ghost function Translation(request: ChatCompletionRequest): ReplicateRequest
    reads request
  {
    ReplicateRequest(
      request.stream,
      ReplicateChatRequest(
        topP := request.topP,
        maxTokens := request.maxTokens,
        minTokens := 0,
        temperature := request.temperature,
        systemPrompt := SystemPrompt(request.messages),
        prompt := Prompt(request.messages),
        presencePenalty := request.presencePenalty,
        frequencyPenalty := request.frequencyPenalty,
        image := Image(request.messages)))
  }

  // ---- The translator ----

  /** The message loop: system text goes to the system prompt, every other
      message becomes a turn of the prompt, and each image part overwrites
      the image URL. */
  method FlattenMessages(messages: seq<Message>) returns (systemPrompt: string, prompt: string, imageUrl: string)
    ensures systemPrompt == SystemPrompt(messages)
    ensures prompt == Prompt(messages)
    ensures imageUrl == Image(messages)
  {
    systemPrompt, prompt, imageUrl := "", "", "";
    var i := 0;
    while i < |messages|
      invariant 0 <= i <= |messages|
      invariant systemPrompt == SystemPrompt(messages[..i])
      invariant prompt == Turns(messages[..i])
      invariant imageUrl == LastOr("", Images(messages[..i]))
    {
      var msg := messages[i];
      MessageStep(messages, i);
      if msg.role == SystemRole {
        systemPrompt := systemPrompt + msg.text + "\n";
      } else {
        ghost var turnsBefore, imageBefore := prompt, imageUrl;
        prompt := prompt + msg.role + ": \n";
        ghost var header := prompt;
        var j := 0;
        while j < |msg.parts|
          invariant 0 <= j <= |msg.parts|
          invariant prompt == header + PartsText(msg.parts[..j])
          invariant imageUrl == LastOr(imageBefore, ConcatMap(msg.parts[..j], PartImage))
        {
          var part := msg.parts[j];
          PartStep(header, msg.parts, j);
          if part.Text? {
            prompt := prompt + part.text;
          } else if part.ImageUrl? {
            imageUrl := part.url;
          }
          j := j + 1;
        }
        assert msg.parts[..j] == msg.parts;
        TurnSplit(turnsBefore, msg);
        LastOrAppend("", Images(messages[..i]), MessageImages(msg));
        prompt := prompt + "\n";
      }
      i := i + 1;
    }
    assert messages[..i] == messages;
    prompt := prompt + AssistantCue;
  }

  /** A non-system turn is its header, its text parts and a newline. */
  lemma TurnSplit(before: string, m: Message)
    requires !IsSystem(m)
    ensures before + m.role + ": \n" + PartsText(m.parts) + "\n" == before + Turn(m)
  {
  }

  /** One more message extends each accumulator by that message's piece. */
  lemma MessageStep(messages: seq<Message>, i: nat)
    requires i < |messages|
    ensures SystemPrompt(messages[..i + 1]) == SystemPrompt(messages[..i]) + SystemLine(messages[i])
    ensures Turns(messages[..i + 1]) == Turns(messages[..i]) + Turn(messages[i])
    ensures Images(messages[..i + 1]) == Images(messages[..i]) + MessageImages(messages[i])
  {
    assert messages[..i + 1] == messages[..i] + [messages[i]];
    ConcatMapSnoc(messages[..i], messages[i], SystemLine);
    ConcatMapSnoc(messages[..i], messages[i], Turn);
    ConcatMapSnoc(messages[..i], messages[i], MessageImages);
  }

  /** One more part extends the prompt, after its turn header, by a text
      part and the image list by an image part, and leaves each alone
      otherwise. */
  lemma PartStep(header: string, parts: seq<Part>, j: nat)
    requires j < |parts|
    ensures parts[j].Text? ==> header + PartsText(parts[..j + 1]) == (header + PartsText(parts[..j])) + parts[j].text
    ensures !parts[j].Text? ==> PartsText(parts[..j + 1]) == PartsText(parts[..j])
    ensures parts[j].ImageUrl? ==> ConcatMap(parts[..j + 1], PartImage) == ConcatMap(parts[..j], PartImage) + [parts[j].url]
    ensures !parts[j].ImageUrl? ==> ConcatMap(parts[..j + 1], PartImage) == ConcatMap(parts[..j], PartImage)
  {
    assert parts[..j + 1] == parts[..j] + [parts[j]];
    ConcatMapSnoc(parts[..j], parts[j], PartText);
    ConcatMapSnoc(parts[..j], parts[j], PartImage);
    assert (header + PartsText(parts[..j])) + PartText(parts[j]) == header + (PartsText(parts[..j]) + PartText(parts[j]));
  }

  /** Translates the request. The resolved token limit is written back into
      the request; nothing else in it changes. */
  method ConvertFromChatOpenai(request: ChatCompletionRequest) returns (r: ReplicateRequest)
    modifies request`maxTokens
    ensures request.maxTokens == ResolveMaxTokens(old(request.maxTokens), request.maxCompletionTokens)
    ensures r == Translation(request)
  {
    if request.maxTokens == 0 && request.maxCompletionTokens > 0 {
      request.maxTokens := request.maxCompletionTokens;
    }
    if request.maxTokens < TokenFloor {
      request.maxTokens := TokenFloor;
    }
    var systemPrompt, prompt, imageUrl := FlattenMessages(request.messages);
    r := ReplicateRequest(
      request.stream,
      ReplicateChatRequest(
        topP := request.topP,
        maxTokens := request.maxTokens,
        minTokens := 0,
        temperature := request.temperature,
        systemPrompt := systemPrompt,
        prompt := prompt,
        presencePenalty := request.presencePenalty,
        frequencyPenalty := request.frequencyPenalty,
        image := imageUrl));
  }

  /** Translating the same request a second time yields the same prediction,
      even though the first translation wrote into the request. */
  method TranslateTwice(request: ChatCompletionRequest) returns (first: ReplicateRequest, second: ReplicateRequest)
    modifies request`maxTokens
    ensures first == second
    ensures request.maxTokens == ResolveMaxTokens(old(request.maxTokens), request.maxCompletionTokens)
  {
    first := ConvertFromChatOpenai(request);
    second := ConvertFromChatOpenai(request);
    ResolveIsIdempotent(old(request.maxTokens), request.maxCompletionTokens);
  }

  // ---- Properties of the translation ----

  /** The prompt always ends with the assistant cue. */
  lemma PromptEndsWithCue(msgs: seq<Message>)
    ensures |Prompt(msgs)| >= |AssistantCue|
    ensures Prompt(msgs)[|Prompt(msgs)| - |AssistantCue|..] == AssistantCue
  {
  }

  /** A system message adds its text and a newline to the system prompt and
      nothing to the prompt or the image, even when it holds image parts. */
  lemma SystemMessageAddsOnlySystemText(msgs: seq<Message>, m: Message)
    requires IsSystem(m)
    ensures SystemPrompt(msgs + [m]) == SystemPrompt(msgs) + m.text + "\n"
    ensures Prompt(msgs + [m]) == Prompt(msgs)
    ensures Image(msgs + [m]) == Image(msgs)
  {
    ConcatMapSnoc(msgs, m, SystemLine);
    ConcatMapSnoc(msgs, m, Turn);
    ConcatMapSnoc(msgs, m, MessageImages);
  }

  /** A non-system message adds one turn (role, ": \n", its text parts in
      order, "\n") just before the cue, and nothing to the system prompt. */
  lemma TurnLayout(msgs: seq<Message>, m: Message)
    requires !IsSystem(m)
    ensures Prompt(msgs + [m]) == Turns(msgs) + m.role + ": \n" + PartsText(m.parts) + "\n" + AssistantCue
    ensures SystemPrompt(msgs + [m]) == SystemPrompt(msgs)
  {
    ConcatMapSnoc(msgs, m, SystemLine);
    ConcatMapSnoc(msgs, m, Turn);
  }

  /** Translating a conversation split in two: the turns and the system
      prompt of the halves are concatenated in order, and the image of the
      second half wins unless it has none. */
  lemma SplitConversation(a: seq<Message>, b: seq<Message>)
    ensures Prompt(a + b) == Turns(a) + Prompt(b)
    ensures SystemPrompt(a + b) == SystemPrompt(a) + SystemPrompt(b)
    ensures Image(a + b) == if |Images(b)| == 0 then Image(a) else Image(b)
  {
    ConcatMapAppend(a, b, Turn);
    ConcatMapAppend(a, b, SystemLine);
    ConcatMapAppend(a, b, MessageImages);
    assert (Turns(a) + Turns(b)) + AssistantCue == Turns(a) + (Turns(b) + AssistantCue);
    LastOrAppend("", Images(a), Images(b));
  }

  /** No part of the sequence is an image. */
  predicate NoImageParts(parts: seq<Part>)
  {
    forall k :: 0 <= k < |parts| ==> !parts[k].ImageUrl?
  }

  lemma PartsWithoutImages(parts: seq<Part>)
    requires NoImageParts(parts)
    ensures ConcatMap(parts, PartImage) == []
  {
    ConcatMapOfEmptyPieces(parts, PartImage);
  }

  /** The image is the URL of the image part that no later image part of a
      non-system message follows: scanning messages and parts in order,
      the last one wins. */
  lemma LastImagePartWins(msgs: seq<Message>, i: nat, j: nat)
    requires i < |msgs| && !IsSystem(msgs[i])
    requires j < |msgs[i].parts| && msgs[i].parts[j].ImageUrl?
    requires NoImageParts(msgs[i].parts[j + 1..])
    requires forall n :: i < n < |msgs| && !IsSystem(msgs[n]) ==> NoImageParts(msgs[n].parts)
    ensures Image(msgs) == msgs[i].parts[j].url
  {
    var m := msgs[i];
    var url := m.parts[j].url;
    // The messages after i add no image.
    var rest := msgs[i + 1..];
    forall k | 0 <= k < |rest| ensures MessageImages(rest[k]) == [] {
      assert rest[k] == msgs[i + 1 + k];
      if !IsSystem(rest[k]) {
        PartsWithoutImages(rest[k].parts);
      }
    }
    ConcatMapOfEmptyPieces(rest, MessageImages);
    // Message i ends its image list with url.
    assert m.parts == m.parts[..j] + [m.parts[j]] + m.parts[j + 1..];
    PartsWithoutImages(m.parts[j + 1..]);
    ConcatMapSnoc(m.parts[..j], m.parts[j], PartImage);
    ConcatMapAppend(m.parts[..j] + [m.parts[j]], m.parts[j + 1..], PartImage);
    assert MessageImages(m) == ConcatMap(m.parts[..j], PartImage) + [url];
    // Put the pieces together.
    assert msgs == msgs[..i] + [m] + rest;
    ConcatMapSnoc(msgs[..i], m, MessageImages);
    ConcatMapAppend(msgs[..i] + [m], rest, MessageImages);
    assert Images(msgs) == Images(msgs[..i]) + ConcatMap(m.parts[..j], PartImage) + [url];
  }

  /** Without any image part in a non-system message, the image is empty. */
  lemma NoImagePartMeansNoImage(msgs: seq<Message>)
    requires forall n :: 0 <= n < |msgs| && !IsSystem(msgs[n]) ==> NoImageParts(msgs[n].parts)
    ensures Image(msgs) == ""
  {
    forall k | 0 <= k < |msgs| ensures MessageImages(msgs[k]) == [] {
      if !IsSystem(msgs[k]) {
        PartsWithoutImages(msgs[k].parts);
      }
    }
    ConcatMapOfEmptyPieces(msgs, MessageImages);
  }

  /** A user message with an image followed by an assistant message with
      another image: the assistant's image is sent. */
  lemma LaterAssistantImageWins(u1: string, u2: string)
    ensures Image([Message("user", "", [ImageUrl(u1)]), Message(AssistantRole, "", [ImageUrl(u2)])]) == u2
  {
    var msgs := [Message("user", "", [ImageUrl(u1)]), Message(AssistantRole, "", [ImageUrl(u2)])];
    assert msgs[1].parts[1..] == [];
    LastImagePartWins(msgs, 1, 0);
  }
}
