/** The floating HR assistant (src/components/chatbot.tsx): the conversation,
    the input box and the turn-taking between the user and the hosted model. */
module Chatbot {
  import opened Common
  import opened JsText

  datatype Role = User | Model

  /** `ChatMessage` of src/lib/types.ts. */
  datatype ChatMessage = ChatMessage(role: Role, content: string)

  /** What `chat` is called with: the conversation so far, the new message and
      the sender's role. */
  datatype ChatRequest = ChatRequest(history: seq<ChatMessage>, message: string, role: Role)

  const Greeting: string := "Hi there! I\U{2019}m your AI HR Assistant. How can I help you today?"
  const ErrorReply: string := "Sorry, I encountered an error. Please try again."

  /** The conversation takes turns: the model greets first (even positions),
      the user speaks at odd positions. */
  predicate Alternates(messages: seq<ChatMessage>) {
    |messages| >= 1 && messages[0] == ChatMessage(Model, Greeting)
    && forall i :: 0 <= i < |messages| ==> messages[i].role == (if i % 2 == 0 then Model else User)
  }

  /** The user may speak when the model has spoken last. */
  lemma {:induction false} UserTurnKeepsAlternation(messages: seq<ChatMessage>, question: string)
    requires Alternates(messages) && |messages| % 2 == 1
    ensures Alternates(messages + [ChatMessage(User, question)])
  {
    var ms := messages + [ChatMessage(User, question)];
    assert forall i :: 0 <= i < |messages| ==> ms[i] == messages[i];
  }

  /** The model may speak when the user has spoken last. */
  lemma {:induction false} ModelTurnKeepsAlternation(messages: seq<ChatMessage>, answer: string)
    requires Alternates(messages) && |messages| % 2 == 0
    ensures Alternates(messages + [ChatMessage(Model, answer)])
  {
    var ms := messages + [ChatMessage(Model, answer)];
    assert forall i :: 0 <= i < |messages| ==> ms[i] == messages[i];
  }

  /** The send button: `disabled={isLoading || !input.trim()}`. It is enabled
      exactly when nothing is loading and the input has a non-whitespace
      character. */
  function SendButtonEnabled(isLoading: bool, input: string): (enabled: bool)
    ensures enabled <==> !isLoading && exists k :: 0 <= k < |input| && !IsWhitespace(input[k])
  {
    !isLoading && !IsBlank(input)
  }

  class ChatState {
    var isOpen: bool
    var messages: seq<ChatMessage>
    var input: string
    var isLoading: bool

    /** Between calls the turns alternate and the model has spoken last; while
        a reply is awaited the user has spoken last. */
    predicate Valid()
      reads this
    {
      Alternates(messages) && |messages| % 2 == (if isLoading then 0 else 1)
    }

    constructor ()
      ensures Valid()
      ensures !isOpen && messages == [ChatMessage(Model, Greeting)] && input == "" && !isLoading
    {
      isOpen := false;
      messages := [ChatMessage(Model, Greeting)];
      input := "";
      isLoading := false;
    }

    /** The round button: `setIsOpen(!isOpen)`. */
    method ToggleOpen()
      modifies this
      ensures isOpen == !old(isOpen)
      ensures messages == old(messages) && input == old(input) && isLoading == old(isLoading)
    {
      isOpen := !isOpen;
    }

    /** The close button in the card header: `setIsOpen(false)`. */
    method Close()
      modifies this
      ensures !isOpen
      ensures messages == old(messages) && input == old(input) && isLoading == old(isLoading)
    {
      isOpen := false;
    }

    /** The text area's `onChange`. */
    method SetInput(text: string)
      modifies this
      ensures input == text
      ensures isOpen == old(isOpen) && messages == old(messages) && isLoading == old(isLoading)
    {
      input := text;
    }

    /** `handleSendMessage` up to the `await`. A blank input sends nothing and
        changes nothing. Otherwise the input, untrimmed, is appended as the
        user's message, the box is cleared, loading starts, and `chat` is
        called with the conversation as it was before that message. */
    method BeginSend() returns (request: Option<ChatRequest>)
      modifies this
      ensures request.None? <==> IsBlank(old(input))
      ensures request.None? ==>
        messages == old(messages) && input == old(input) && isLoading == old(isLoading)
      ensures request.Some? ==>
        && request.value == ChatRequest(old(messages), old(input), User)
        && messages == old(messages) + [ChatMessage(User, old(input))]
        && input == "" && isLoading
      ensures isOpen == old(isOpen)
      ensures old(Valid()) && !old(isLoading) ==> Valid()
    {
      if IsBlank(input) {
        return None;
      }
      request := Some(ChatRequest(messages, input, User));
      if Valid() && !isLoading {
        UserTurnKeepsAlternation(messages, input);
      }
      messages := messages + [ChatMessage(User, input)];
      input := "";
      isLoading := true;
    }

    /** `handleSendMessage` after the `await`: the model's reply, or the fixed
        apology when the call threw, is appended and loading ends. */
    method CompleteSend(outcome: Outcome<string>)
      modifies this
      ensures messages == old(messages) + [ChatMessage(Model, if outcome.Resolved? then outcome.value else ErrorReply)]
      ensures !isLoading
      ensures isOpen == old(isOpen) && input == old(input)
      ensures old(Valid()) && old(isLoading) ==> Valid()
    {
      var reply := if outcome.Resolved? then outcome.value else ErrorReply;
      if Valid() && isLoading {
        ModelTurnKeepsAlternation(messages, reply);
      }
      messages := messages + [ChatMessage(Model, reply)];
      isLoading := false;
    }

    /** The whole of `handleSendMessage`: a non-blank input adds one exchange
        to the conversation and keeps the turns alternating. */
    method HandleSendMessage(outcome: Outcome<string>) returns (request: Option<ChatRequest>)
      modifies this
      ensures request.None? <==> IsBlank(old(input))
      ensures request.None? ==>
        messages == old(messages) && input == old(input) && isLoading == old(isLoading)
      ensures request.Some? ==>
        && request.value == ChatRequest(old(messages), old(input), User)
        && messages == old(messages) + [ChatMessage(User, old(input)),
                                        ChatMessage(Model, if outcome.Resolved? then outcome.value else ErrorReply)]
        && input == "" && !isLoading
      ensures isOpen == old(isOpen)
      ensures old(Valid()) && !old(isLoading) ==> Valid()
    {
      request := BeginSend();
      if request.Some? {
        CompleteSend(outcome);
      }
    }

    /** `handleEnter`: Enter without Shift sends the message; any other key
        changes nothing here. */
    method HandleEnter(key: string, shiftKey: bool, outcome: Outcome<string>) returns (request: Option<ChatRequest>)
      modifies this
      ensures !(key == "Enter" && !shiftKey) ==>
        request.None? && messages == old(messages) && input == old(input) && isLoading == old(isLoading)
      ensures key == "Enter" && !shiftKey && request.Some? ==>
        request.value == ChatRequest(old(messages), old(input), User)
        && messages == old(messages) + [ChatMessage(User, old(input)),
                                        ChatMessage(Model, if outcome.Resolved? then outcome.value else ErrorReply)]
      ensures request.None? <==> !(key == "Enter" && !shiftKey) || IsBlank(old(input))
      ensures request.None? ==> messages == old(messages) && input == old(input) && isLoading == old(isLoading)
      ensures request.Some? ==> input == "" && !isLoading
      ensures isOpen == old(isOpen)
      ensures old(Valid()) && !old(isLoading) ==> Valid()
    {
      if key == "Enter" && !shiftKey {
        request := HandleSendMessage(outcome);
      } else {
        request := None;
      }
    }
  }
}
