/** The message list of `ChatInterface.tsx`. A submission is split into its two
    halves around the awaited reply: `Submit` appends the user's turn and marks the
    window busy, `Finish` appends the reply, if there is one, and clears the busy flag. */
module ChatInterface {
  import opened Wrappers
  import opened Text

  datatype Role = User | Assistant
  datatype Message = Message(role: Role, content: string)

  /** What the awaited `onSendMessage` call produced: a reply text, or an exception. */
  datatype Reply = Replied(text: string) | Threw

  /** The text shown when no `onSendMessage` handler was supplied. */
  const DemoReply: string :=
    "I'm your AI study assistant. Upload documents and I'll help you analyze them! This is a demo response - connect to Lovable Cloud to enable real AI capabilities."

  /** The guard of `handleSubmit`: the content of the user turn to send, or nothing when
      the input is blank or a reply is still pending. */
  function Accepted(input: string, isLoading: bool): (sent: Option<string>)
    ensures sent.Some? <==> !isLoading && !IsBlank(input)
    ensures sent.Some? ==> sent.value == Trim(input) && sent.value != [] && IsTrimmed(sent.value)
  {
    TrimEmptyIffBlank(input);
    TrimmedResult(input);
    if Trim(input) == "" || isLoading then None else Some(Trim(input))
  }

  /** `handleKeyDown`: Enter without Shift submits; every other key, and Shift+Enter, does not. */
  predicate SubmitsOnKey(key: string, shift: bool) {
    key == "Enter" && !shift
  }

  /** Shift+Enter never submits, so it is left to the text area (a new line). */
  lemma ShiftEnterDoesNotSubmit()
    ensures SubmitsOnKey("Enter", false)
    ensures !SubmitsOnKey("Enter", true)
  {
  }

  /** The reply that ends an exchange: the handler's outcome, or the demo text without a handler. */
  function Outcome(hasHandler: bool, handlerResult: Reply): (r: Reply)
    ensures !hasHandler ==> r == Replied(DemoReply)
    ensures hasHandler ==> r == handlerResult
  {
    if hasHandler then handlerResult else Replied(DemoReply)
  }

  /** Every user turn in the list holds trimmed, non-empty text. */
  ghost predicate UserTurnsTrimmed(messages: seq<Message>) {
    forall i :: 0 <= i < |messages| && messages[i].role == User ==>
      messages[i].content != [] && IsTrimmed(messages[i].content)
  }

  class ChatWindow {
    /** Whether the `onSendMessage` property was supplied. */
    const hasHandler: bool
    var messages: seq<Message>
    var input: string
    var isLoading: bool

    /** User turns are trimmed and non-empty; while a reply is pending the last message is
        the user turn awaiting it. */
    ghost predicate Valid()
      reads this
    {
      && UserTurnsTrimmed(messages)
      && (isLoading ==> |messages| > 0 && messages[|messages| - 1].role == User)
    }

    constructor (hasHandler: bool)
      ensures this.hasHandler == hasHandler
      ensures messages == [] && input == "" && !isLoading
      ensures Valid()
    {
      this.hasHandler := hasHandler;
      messages := [];
      input := "";
      isLoading := false;
    }

    /** Typing in the text area, which stays enabled while a reply is pending. */
    method Edit(text: string)
      modifies this
      ensures input == text && messages == old(messages) && isLoading == old(isLoading)
    {
      input := text;
    }

    /** The first half of `handleSubmit`. */
    method Submit() returns (sent: Option<string>)
      requires Valid()
      modifies this
      ensures Valid()
      ensures sent == Accepted(old(input), old(isLoading))
      ensures sent.None? ==> messages == old(messages) && input == old(input) && isLoading == old(isLoading)
      ensures sent.Some? ==> messages == old(messages) + [Message(User, sent.value)] && input == "" && isLoading
    {
      sent := Accepted(input, isLoading);
      if sent.Some? {
        messages := messages + [Message(User, sent.value)];
        input := "";
        isLoading := true;
      }
    }

    /** The second half of `handleSubmit`, once the awaited reply has settled. */
    method Finish(handlerResult: Reply)
      requires Valid() && isLoading
      modifies this
      ensures Valid()
      ensures !isLoading && input == old(input)
      ensures match Outcome(hasHandler, handlerResult)
              case Replied(text) => messages == old(messages) + [Message(Assistant, text)]
              case Threw => messages == old(messages)
    {
      var reply := Outcome(hasHandler, handlerResult);
      if reply.Replied? {
        messages := messages + [Message(Assistant, reply.text)];
      }
      isLoading := false;
    }

    /** `handleKeyDown`: a key press in the text area. */
    method KeyDown(key: string, shift: bool) returns (sent: Option<string>)
      requires Valid()
      modifies this
      ensures Valid()
      ensures !SubmitsOnKey(key, shift) ==> sent.None? && messages == old(messages)
                                            && input == old(input) && isLoading == old(isLoading)
      ensures SubmitsOnKey(key, shift) ==> sent == Accepted(old(input), old(isLoading))
      ensures sent.None? ==> messages == old(messages) && input == old(input) && isLoading == old(isLoading)
      ensures sent.Some? ==> messages == old(messages) + [Message(User, sent.value)] && input == "" && isLoading
      ensures old(messages) <= messages
    {
      sent := None;
      if SubmitsOnKey(key, shift) {
        sent := Submit();
      }
    }
  }
}
