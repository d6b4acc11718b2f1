/**
 * The floating chat of src/components/AIWellnessChat.tsx: the transcript,
 * the guard on sending, and how the analysis service's reply (or failure)
 * becomes the assistant's message. The service call itself is not
 * modelled: its outcome is an input of the second half of a send.
 */
module AIWellnessChat {
  import opened Wrappers
  import opened Text

  datatype Role = User | Assistant

  /** `Message`. */
  datatype Message = Message(id: string, role: Role, content: string)

  const GreetingText := "Hi there! \U{1F44B} I'm MindPal, your AI wellness companion. How are you feeling today? I'm here to listen, offer support, or guide you through relaxation exercises."
  const FallbackText := "I'm here for you. Would you like to talk more about how you're feeling?"
  const ApologyText := "I'm having trouble connecting right now. Please try again in a moment. \U{1F499}"

  /** The fields of the service's reply the chat reads. */
  datatype ReplyData = ReplyData(response: Option<string>, insight: Option<string>)

  /**
   * How the service call ended: it answered (with `None` standing for a
   * null body, which makes reading its fields throw), or it reported an
   * error or could not be reached.
   */
  datatype ChatOutcome = Answered(data: Option<ReplyData>) | Failed

  /** JavaScript truthiness of an optional string: present and not empty. */
  predicate Truthy(s: Option<string>) {
    s.Some? && s.value != ""
  }

  /**
   * The assistant's text for an outcome: `data.response || data.insight ||`
   * the fallback sentence on an answer, the apology on any failure.
   */
  function ReplyText(outcome: ChatOutcome): (text: string)
    ensures outcome.Failed? || outcome.data.None? ==> text == ApologyText
    ensures outcome.Answered? && outcome.data.Some? ==>
              var d := outcome.data.value;
              text == (if Truthy(d.response) then d.response.value
                       else if Truthy(d.insight) then d.insight.value
                       else FallbackText)
    ensures text != ""
  {
    match outcome
    case Failed => ApologyText
    case Answered(None) => ApologyText
    case Answered(Some(d)) =>
      if Truthy(d.response) then d.response.value
      else if Truthy(d.insight) then d.insight.value
      else FallbackText
  }

  /** The state of the chat window. */
  class Chat {
    var isOpen: bool
    var messages: seq<Message>
    var input: string
    var isLoading: bool

    /** The chat starts closed, with only the assistant's greeting. */
    constructor ()
      ensures !isOpen && messages == [Message("1", Assistant, GreetingText)] && input == "" && !isLoading
    {
      isOpen := false;
      messages := [Message("1", Assistant, GreetingText)];
      input := "";
      isLoading := false;
    }

    /** The floating button and the close button. */
    method SetOpen(open: bool)
      modifies this`isOpen
      ensures isOpen == open
    {
      isOpen := open;
    }

    /** Typing; the input is disabled while a reply is awaited. */
    method SetInput(text: string)
      requires !isLoading
      modifies this`input
      ensures input == text
    {
      input := text;
    }

    /**
     * The first half of `sendMessage`: a blank input, or a send while a
     * reply is awaited, does nothing; otherwise the trimmed input is appended
     * as the user's message, the input is cleared, loading starts, and the
     * trimmed text is returned as the request to the service.
     */
    method SendMessage(id: string) returns (request: Option<string>)
      modifies this`messages, this`input, this`isLoading
      ensures request.Some? <==> !IsBlank(old(input)) && !old(isLoading)
      ensures request.Some? ==>
                && request.value == Trim(old(input)) && request.value != ""
                && messages == old(messages) + [Message(id, User, Trim(old(input)))]
                && input == "" && isLoading
      ensures request.None? ==> messages == old(messages) && input == old(input) && isLoading == old(isLoading)
    {
      if Trim(input) == "" || isLoading {
        return None;
      }
      var text := Trim(input);
      messages := messages + [Message(id, User, text)];
      input := "";
      isLoading := true;
      request := Some(text);
    }

    /**
     * The second half of `sendMessage`, when the service call settles: one
     * assistant message is appended and loading ends, whatever the outcome.
     */
    method ReceiveReply(outcome: ChatOutcome, id: string)
      requires isLoading
      modifies this`messages, this`isLoading
      ensures messages == old(messages) + [Message(id, Assistant, ReplyText(outcome))]
      ensures !isLoading
    {
      messages := messages + [Message(id, Assistant, ReplyText(outcome))];
      isLoading := false;
    }

    /**
     * A whole send: an accepted one adds exactly two messages, the user's
     * then the assistant's, and leaves loading off; a refused one changes
     * nothing.
     */
    method Exchange(userId: string, replyId: string, outcome: ChatOutcome) returns (accepted: bool)
      modifies this`messages, this`input, this`isLoading
      ensures accepted <==> !IsBlank(old(input)) && !old(isLoading)
      ensures accepted ==> messages == old(messages) + [Message(userId, User, Trim(old(input))),
                                                        Message(replyId, Assistant, ReplyText(outcome))]
      ensures accepted ==> |messages| == |old(messages)| + 2 && !isLoading && input == ""
      ensures !accepted ==> messages == old(messages) && input == old(input) && isLoading == old(isLoading)
    {
      var request := SendMessage(userId);
      accepted := request.Some?;
      if accepted {
        ReceiveReply(outcome, replyId);
      }
    }
  }
}
