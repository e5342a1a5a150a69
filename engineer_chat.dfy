/** The transcript of frontend/src/components/EngineerChatbot.tsx: loading
    it from session storage, sending typed text or an action, appending the
    reply or the error message, and writing the transcript back to session
    storage after every change.

    The request to the chat service is split in two steps: sending returns
    the request the component posts, and the outcome of the request arrives
    later as an argument. Message ids (`Date.now`) are inputs, and the JSON
    encoding of the stored transcript is taken to round-trip. */
module EngineerChat {
  import opened Common
  import opened Messages

  /** One entry of the history sent with a request: sender and text only. */
  datatype HistoryEntry = HistoryEntry(sender: Sender, content: string)

  /** The body posted to the chat service. */
  datatype ChatRequest = ChatRequest(prompt: string, userRole: string, language: string, history: seq<HistoryEntry>)

  /** How a request ends: a reply text, or any failure (a response that is
      not ok, a network error, a body that is not JSON). */
  datatype Outcome = Replied(response: string) | Failed

  const WelcomeActions := ["Generate Root Cause Report", "Show Recommended Action Plan", "Create FMEA"]

  const ErrorText := "❌ Sorry, I encountered an error while processing your request. Please try again or check your connection."

  /** What follows the user's name in the greeting. */
  const GreetingTail := "! I'm your advanced AI quality engineering assistant. I can help you with:\n\n"
    + "• Advanced root cause analysis\n• Statistical process control\n• FMEA generation\n"
    + "• Supplier quality management\n• Real-time quality monitoring\n• Industry-specific solutions\n\n"
    + "What quality challenge are you facing today?"

  /** The greeting shown when no transcript is saved: a bot message that
      opens with "Hello <name>" and offers the three report actions. */
  function WelcomeMessage(userName: string): (m: Message)
    ensures m.sender == FromBot && m.id == "1" && m.actions == WelcomeActions
    ensures |m.content| > 6 + |userName|
    ensures m.content[..6] == "Hello " && m.content[6..6 + |userName|] == userName
  {
    var hello := "Hello ";
    var content := hello + userName + GreetingTail;
    assert content[..6] == hello;
    assert content[6..6 + |userName|] == userName;
    Message("1", FromBot, content, [], [], WelcomeActions)
  }

  /** `messages.map((msg) => ({ type, content }))`. */
  function History(ms: seq<Message>): (h: seq<HistoryEntry>)
    ensures |h| == |ms|
    ensures forall i :: 0 <= i < |ms| ==> h[i].sender == ms[i].sender && h[i].content == ms[i].content
  {
    seq(|ms|, i requires 0 <= i < |ms| => HistoryEntry(ms[i].sender, ms[i].content))
  }

  /** The prompt an action button sends. */
  function ActionPrompt(action: string): string {
    "Generate a detailed " + action + " for quality management. Include analysis, recommendations, and next steps."
  }

  /** The text of the bot message an outcome appends. */
  function ReplyText(o: Outcome): (t: string)
    ensures o.Replied? ==> t == o.response
    ensures o.Failed? ==> t == ErrorText
  {
    match o
    case Replied(response) => response
    case Failed => ErrorText
  }

  class EngineerChatbot {
    /** `currentUser.name` and `currentUser.role`. */
    const userName: string
    const userRole: string
    var messages: seq<Message>
    var inputText: string
    var isTyping: bool
    /** The "engineer_chatbot_history" entry of session storage. */
    var session: Option<seq<Message>>

    /** Session storage holds the transcript as it is, and while a request is
        outstanding the transcript ends with the user message that started
        it. */
    ghost predicate Valid()
      reads this
    {
      && session == Some(messages)
      && (isTyping ==> |messages| > 0 && messages[|messages| - 1].sender == FromUser)
    }

    /** Mounting: a saved transcript is loaded as it is, otherwise the
        transcript is the greeting alone; the storage entry then mirrors it. */
    constructor(name: string, role: string, saved: Option<seq<Message>>)
      ensures Valid()
      ensures userName == name && userRole == role
      ensures messages == if saved.Some? then saved.value else [WelcomeMessage(name)]
      ensures inputText == "" && !isTyping
    {
      userName := name;
      userRole := role;
      messages := if saved.Some? then saved.value else [WelcomeMessage(name)];
      inputText := "";
      isTyping := false;
      session := Some(messages);
    }

    /** Typing into the input field. */
    method SetInput(text: string)
      modifies this
      ensures inputText == text
      ensures messages == old(messages) && session == old(session) && isTyping == old(isTyping)
    {
      inputText := text;
    }

    /** `handleSendMessage`, offered while no request is outstanding: blank
        input changes nothing and sends nothing; otherwise the input is
        appended as a user message, the input cleared, and the request
        carries the input as prompt and the transcript from before the new
        message as history. */
    method Send(id: string) returns (request: Option<ChatRequest>)
      requires Valid() && !isTyping
      modifies this
      ensures Valid()
      ensures request.None? <==> IsBlank(old(inputText))
      ensures request.None? ==>
        messages == old(messages) && inputText == old(inputText) && !isTyping
      ensures request.Some? ==>
        && messages == old(messages) + [TextMessage(id, FromUser, old(inputText))]
        && request.value == ChatRequest(old(inputText), userRole, "en", History(old(messages)))
        && inputText == "" && isTyping
    {
      TrimEmptyIffBlank(inputText);
      if Trim(inputText) == "" {
        return None;
      }
      var currentInput := inputText;
      request := Some(ChatRequest(currentInput, userRole, "en", History(messages)));
      messages := messages + [TextMessage(id, FromUser, currentInput)];
      session := Some(messages);
      inputText := "";
      isTyping := true;
    }

    /** `handleActionClick`, offered while no request is outstanding: the
        user message "Generate: <action>" is appended and the request asks
        for a detailed report on the action, with the transcript from before
        the click as history. The input field is left alone. */
    method ClickAction(action: string, id: string) returns (request: ChatRequest)
      requires Valid() && !isTyping
      modifies this
      ensures Valid()
      ensures messages == old(messages) + [TextMessage(id, FromUser, "Generate: " + action)]
      ensures request == ChatRequest(ActionPrompt(action), userRole, "en", History(old(messages)))
      ensures isTyping && inputText == old(inputText)
    {
      request := ChatRequest(ActionPrompt(action), userRole, "en", History(messages));
      messages := messages + [TextMessage(id, FromUser, "Generate: " + action)];
      session := Some(messages);
      isTyping := true;
    }

    /** The outstanding request ends: exactly one bot message is appended,
        the reply or the fixed error text, and typing stops either way. */
    method Receive(outcome: Outcome, id: string)
      requires Valid() && isTyping
      modifies this
      ensures Valid()
      ensures messages == old(messages) + [TextMessage(id, FromBot, ReplyText(outcome))]
      ensures !isTyping && inputText == old(inputText)
    {
      messages := messages + [TextMessage(id, FromBot, ReplyText(outcome))];
      session := Some(messages);
      isTyping := false;
    }

    /** Reloading the page: a component mounted from the stored entry shows
        the same transcript. */
    method Reload() returns (reloaded: EngineerChatbot)
      requires Valid()
      ensures reloaded.messages == messages && reloaded.Valid() && !reloaded.isTyping
    {
      reloaded := new EngineerChatbot(userName, userRole, session);
    }
  }

  /** One exchange from an empty session: the stored transcript is the
      greeting, the user's text and the reply, three messages in all. */
  method OneExchange(name: string, text: string, reply: Outcome) returns (stored: seq<Message>)
    requires !IsBlank(text)
    ensures |stored| == 3
    ensures stored[0] == WelcomeMessage(name)
    ensures stored[1].sender == FromUser && stored[1].content == text
    ensures stored[2].sender == FromBot && stored[2].content == ReplyText(reply)
  {
    var chat := new EngineerChatbot(name, "engineer", None);
    chat.SetInput(text);
    var request := chat.Send("2");
    chat.Receive(reply, "3");
    stored := chat.session.value;
  }
}
