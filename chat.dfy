/** components/Chat.tsx: the chat screen's state, its send handler over the
    append-only transcript, and the Enter-key guard. */
module Chat {
  import opened Wrappers
  import opened Types
  import opened JsString
  import opened GeminiService

  const ChatFallback: string := "An error occurred while fetching the response."

  class State {
    var messages: seq<ChatMessage>
    var input: string
    var isLoading: bool
    var error: Option<string>
    var model: ModelId
    var useThinkingMode: bool
    /** The requests this screen has handed to the service, oldest first. */
    ghost var sent: seq<Request>

    /** The transcript invariant: every user message is non-blank, and every
        AI message answers the user message right before it. */
    ghost predicate Valid()
      reads this
    {
      && (forall i :: 0 <= i < |messages| && messages[i].sender == User ==> !IsBlank(messages[i].text))
      && (forall i :: 0 <= i < |messages| && messages[i].sender == Ai ==> 0 < i && messages[i - 1].sender == User)
    }

    constructor ()
      ensures Valid()
      ensures messages == [] && input == "" && !isLoading && error == None
      ensures model == Flash && !useThinkingMode && sent == []
    {
      messages, input, isLoading, error := [], "", false, None;
      model, useThinkingMode := Flash, false;
      sent := [];
    }

    /** The model selector. */
    method SetModel(m: ModelId)
      modifies this`model
      ensures model == m
    {
      model := m;
    }

    /** The thinking-mode checkbox; the flag is kept when another model is
        chosen later, and only takes effect with Pro. */
    method SetThinkingMode(on: bool)
      modifies this`useThinkingMode
      ensures useThinkingMode == on
    {
      useThinkingMode := on;
    }

    /** The send button is disabled while loading and while the input is
        blank. */
    predicate SendDisabled()
      reads this
    {
      isLoading || IsBlank(input)
    }

    /** `handleSend` up to the `await`: a blank input changes nothing;
        otherwise the user's message is appended, the input cleared, and the
        screen starts loading. The text to send is the input as it was. */
    method BeginSend() returns (prompt: Option<string>)
      requires Valid()
      modifies this`messages, this`input, this`isLoading, this`error
      ensures Valid()
      ensures prompt.None? <==> IsBlank(old(input))
      ensures prompt.None? ==>
        messages == old(messages) && input == old(input) && isLoading == old(isLoading) && error == old(error)
      ensures prompt.Some? ==> prompt.value == old(input)
      ensures prompt.Some? ==>
        messages == old(messages) + [ChatMessage(User, old(input))] && input == "" && isLoading && error == None
    {
      if IsBlank(input) {
        return None;
      }
      prompt := Some(input);
      messages := messages + [ChatMessage(User, input)];
      input, isLoading, error := "", true, None;
    }

    /** `handleSend` after the `await`: the AI's answer is appended, or the
        error is set and nothing is appended; loading stops either way. */
    method FinishSend(response: Result<string>)
      requires Valid() && |messages| > 0 && messages[|messages| - 1].sender == User
      modifies this`messages, this`isLoading, this`error
      ensures Valid() && !isLoading
      ensures response.Ok? ==> messages == old(messages) + [ChatMessage(Ai, response.value)] && error == old(error)
      ensures response.Err? ==> messages == old(messages) && error == Some(OrElse(response.message, ChatFallback))
    {
      match response {
        case Ok(text) =>
          messages := messages + [ChatMessage(Ai, text)];
        case Err(message) =>
          error := Some(OrElse(message, ChatFallback));
      }
      isLoading := false;
    }

    /** What one `handleSend` does, start to finish. */
    twostate predicate SendEffect(remote: Request -> Reply)
      reads this
    {
      if IsBlank(old(input)) then
        unchanged(this)
      else
        && model == old(model) && useThinkingMode == old(useThinkingMode)
        && input == "" && !isLoading
        && sent == old(sent) + [ChatRequest(old(input), old(model), old(useThinkingMode))]
        && match GenerateChatResponse(remote, old(input), old(model), old(useThinkingMode))
           case Ok(text) =>
             messages == old(messages) + [ChatMessage(User, old(input)), ChatMessage(Ai, text)] && error == None
           case Err(_) =>
             messages == old(messages) + [ChatMessage(User, old(input))] && error == Some(ChatFailure)
    }

    /** `handleSend`: the transcript only grows, by the user's message and,
        when the call succeeds, the AI's answer after it. */
    method HandleSend(remote: Request -> Reply)
      requires Valid()
      modifies this
      ensures Valid()
      ensures SendEffect(remote)
      ensures old(messages) <= messages
      ensures !IsBlank(old(input)) ==>
        |messages| == |old(messages)| + (if GenerateChatResponse(remote, old(input), model, useThinkingMode).Ok? then 2 else 1)
    {
      var prompt := BeginSend();
      if prompt.Some? {
        var request := ChatRequest(prompt.value, model, useThinkingMode);
        sent := sent + [request];
        var response := GenerateChatResponse(remote, prompt.value, model, useThinkingMode);
        FinishSend(response);
      }
    }

    /** `handleKeyPress`: Enter sends unless a reply is still loading; any
        other key, or Enter while loading, changes nothing. */
    method HandleKeyPress(key: string, remote: Request -> Reply)
      requires Valid()
      modifies this
      ensures Valid()
      ensures key == "Enter" && !old(isLoading) ==> SendEffect(remote)
      ensures !(key == "Enter" && !old(isLoading)) ==> unchanged(this)
    {
      if key == "Enter" && !isLoading {
        HandleSend(remote);
      }
    }
  }
}
