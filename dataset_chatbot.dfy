/**
 * The dataset chatbot panel: a floating button opens a conversation that starts with a
 * greeting, each sent question is posted with the last eight messages as history, and
 * an assistant message can be read aloud. The chat request is an input; `handleSend`
 * is split at its `await`.
 */
module DatasetChatbot {
  import opened Wrappers
  import opened JsString
  import SpeakToggle

  datatype Role = User | Assistant
  datatype Message = Message(role: Role, content: string)

  /** The body of the chat request. */
  datatype ChatRequest = ChatRequest(message: string, history: seq<Message>, language: string)

  const DefaultLang := "en-IN"
  const HistoryLength := 8
  const SorryReply := "Sorry, something went wrong."
  const ConnectionError := "Connection error. Please try again."

  const QuickPrompts: seq<string> :=
    ["What are the key anomalies?", "Explain the risk score", "What does the forecast say?",
     "Summary in simple words"]

  const GreetingOpening := "Hello! I'm your Sarthi AI assistant for \""
  const GreetingClosing :=
    "\". Ask me anything about the statistics, anomalies, trends, or risk factors in this dataset. " +
    "You can also ask in Hindi, Marathi, or Telugu!"

  /** The opening assistant message for a dataset: its name, quoted, inside the fixed text. */
  function Greeting(datasetName: string): (text: string)
    ensures |text| == |GreetingOpening| + |datasetName| + |GreetingClosing|
    ensures text[..|GreetingOpening|] == GreetingOpening
    ensures text[|GreetingOpening|..|text| - |GreetingClosing|] == datasetName
    ensures text[|text| - |GreetingClosing|..] == GreetingClosing
  {
    GreetingOpening + datasetName + GreetingClosing
  }

  /** `newMessages.slice(-8)`. */
  function History(newMessages: seq<Message>): (h: seq<Message>)
    ensures |h| == if |newMessages| < HistoryLength then |newMessages| else HistoryLength
    ensures h == newMessages[|newMessages| - |h|..]
  {
    SliceLast(newMessages, HistoryLength);
    Slice(newMessages, -HistoryLength, |newMessages|)
  }

  /**
   * The history sent with a question is the last eight messages, or all of them when
   * there are fewer, and always ends with the question itself.
   */
  lemma HistoryWindow(messages: seq<Message>, question: Message)
    ensures var h := History(messages + [question]);
            |h| == (if |messages| + 1 < HistoryLength then |messages| + 1 else HistoryLength) &&
            h == (messages + [question])[|messages| + 1 - |h|..] &&
            h[|h| - 1] == question
  {
    SliceLast(messages + [question], HistoryLength);
  }

  /** `json.reply ?? "Sorry, something went wrong."`, or the connection message when the request failed. */
  function ReplyText(answer: Outcome<Option<string>>): (text: string)
    ensures answer.Received? && answer.body.Some? ==> text == answer.body.value
    ensures answer.Received? && answer.body.None? ==> text == SorryReply
    ensures answer.Failed? ==> text == ConnectionError
  {
    match answer
    case Received(reply) => reply.GetOr(SorryReply)
    case Failed(_) => ConnectionError
  }

  /** A message the user sent: trimmed and not empty. */
  predicate SentByUser(m: Message) {
    m.role == User ==> m.content != "" && Trim(m.content) == m.content
  }

  class ChatPanel {
    const datasetName: string
    var open: bool
    var messages: seq<Message>
    var input: string
    var loading: bool
    var lang: string
    var speakingIdx: Option<int>

    /**
     * What every handler keeps: user messages are trimmed and not empty, and while a
     * request is pending the conversation ends with the question it carries.
     */
    predicate Valid()
      reads this
    {
      (forall i :: 0 <= i < |messages| ==> SentByUser(messages[i])) &&
      (loading ==> |messages| > 0 && messages[|messages| - 1].role == User)
    }

    /**
     * The quick prompts are offered until the first question joins the greeting; while a
     * question is pending they show only when that question is the whole conversation.
     */
    predicate QuickPromptsShown(): (shown: bool)
      reads this
      ensures Valid() && shown && loading ==> |messages| == 1 && messages[0].role == User
    {
      |messages| <= 1
    }

    constructor(name: string)
      ensures datasetName == name && !open && messages == [] && input == "" && !loading
      ensures lang == DefaultLang && speakingIdx == None
      ensures Valid() && QuickPromptsShown()
    {
      datasetName := name;
      open := false;
      messages := [];
      input := "";
      loading := false;
      lang := DefaultLang;
      speakingIdx := None;
    }

    /**
     * The floating button flips `open`; the effect on `open` then greets the user when
     * the panel opens on an empty conversation, and only then.
     */
    method Toggle()
      modifies this
      ensures open == !old(open)
      ensures messages == if open && old(messages) == [] then [Message(Assistant, Greeting(datasetName))]
                          else old(messages)
      ensures input == old(input) && loading == old(loading) && lang == old(lang)
      ensures speakingIdx == old(speakingIdx)
      ensures old(Valid()) ==> Valid()
    {
      open := !open;
      if open && |messages| == 0 {
        var greeting := Message(Assistant, Greeting(datasetName));
        assert SentByUser(greeting);
        messages := [greeting];
      }
    }

    /** Typing in the field, or picking a quick prompt, sets the input. */
    method SetInput(text: string)
      modifies this
      ensures input == text
      ensures open == old(open) && messages == old(messages) && loading == old(loading)
      ensures lang == old(lang) && speakingIdx == old(speakingIdx)
      ensures old(Valid()) ==> Valid()
    {
      input := text;
    }

    /** The language selector. */
    method SetLang(code: string)
      modifies this
      ensures lang == code
      ensures open == old(open) && messages == old(messages) && input == old(input)
      ensures loading == old(loading) && speakingIdx == old(speakingIdx)
      ensures old(Valid()) ==> Valid()
    {
      lang := code;
    }

    /**
     * `handleSend` up to its request: nothing happens with a blank input or while a
     * request is pending. Otherwise the trimmed question joins the conversation, the
     * input is cleared, loading starts, and the request carries the question, the last
     * eight messages and the language.
     */
    method BeginSend() returns (request: Option<ChatRequest>)
      modifies this
      ensures open == old(open) && lang == old(lang) && speakingIdx == old(speakingIdx)
      ensures Trim(old(input)) == "" || old(loading) ==>
                request == None && messages == old(messages) && input == old(input) && loading == old(loading)
      ensures Trim(old(input)) != "" && !old(loading) ==>
                var question := Message(User, Trim(old(input)));
                messages == old(messages) + [question] && input == "" && loading &&
                request == Some(ChatRequest(question.content, History(messages), lang))
      ensures request.Some? ==> request.value.message != "" && |request.value.history| <= HistoryLength
      ensures old(Valid()) ==> Valid()
    {
      var trimmed := Trim(input);
      if trimmed == "" || loading {
        return None;
      }
      TrimIdempotent(input);
      var question := Message(User, trimmed);
      messages := messages + [question];
      input := "";
      loading := true;
      request := Some(ChatRequest(trimmed, History(messages), lang));
    }

    /**
     * The continuation of `handleSend`: the reply, or the fallback when the answer has
     * none, or the connection message when the request failed, is appended to the
     * conversation as it is now, and loading ends.
     */
    method FinishSend(answer: Outcome<Option<string>>)
      modifies this
      ensures messages == old(messages) + [Message(Assistant, ReplyText(answer))] && !loading
      ensures open == old(open) && input == old(input) && lang == old(lang)
      ensures speakingIdx == old(speakingIdx)
      ensures old(Valid()) ==> Valid()
    {
      messages := messages + [Message(Assistant, ReplyText(answer))];
      loading := false;
    }

    /** `handleSpeak`: the shared read-aloud toggle, speaking in the selected language. */
    method HandleSpeak(text: string, idx: int) returns (request: SpeakToggle.SpeechRequest)
      modifies this
      ensures speakingIdx == SpeakToggle.AfterClick(old(speakingIdx), idx)
      ensures request == SpeakToggle.RequestFor(old(speakingIdx), idx, text, Some(lang))
      ensures open == old(open) && messages == old(messages) && input == old(input)
      ensures loading == old(loading) && lang == old(lang)
    {
      if speakingIdx == Some(idx) {
        request := SpeakToggle.StopSpeaking;
        speakingIdx := None;
      } else {
        speakingIdx := Some(idx);
        request := SpeakToggle.Speak(text, Some(lang));
      }
    }

    /** The effect on `speaking`: the highlight goes once the engine is silent. */
    method SpeakingChanged(speaking: bool)
      modifies this
      ensures speakingIdx == if speaking then old(speakingIdx) else None
      ensures open == old(open) && messages == old(messages) && input == old(input)
      ensures loading == old(loading) && lang == old(lang)
    {
      if !speaking {
        speakingIdx := None;
      }
    }
  }

  /**
   * The first question after the greeting hides the quick prompts, and its reply
   * follows it directly.
   */
  method FirstExchange(name: string, typed: string, answer: Outcome<Option<string>>)
    returns (panel: ChatPanel)
    requires Trim(typed) != ""
    ensures panel.messages == [Message(Assistant, Greeting(name)), Message(User, Trim(typed)),
                               Message(Assistant, ReplyText(answer))]
    ensures !panel.QuickPromptsShown() && !panel.loading && panel.input == "" && panel.Valid()
  {
    panel := new ChatPanel(name);
    panel.Toggle();
    panel.SetInput(typed);
    var request := panel.BeginSend();
    panel.FinishSend(answer);
  }
}
