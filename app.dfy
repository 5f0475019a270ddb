/**
 * The conversation controller (App.tsx): the message list, the loading
 * state and the error text held at the application's root, and the send
 * handler that updates them around the call to the tutor service.
 *
 * `handleSendMessage` runs in two steps split at its one `await`: `Send`
 * (clear the error, append the user's turn, start thinking) and `Complete`
 * (append the reply or record the failure, then go idle). Identifiers and
 * clock readings are arguments.
 */
module App {
  import opened Wrappers
  import opened Types
  import opened GeminiService
  import MessageBubble
  import DualInputArea

  const ConnectionErrorText: string :=
    "Unable to connect to the tutor. Please verify your connection or API key and try again."
  const TopicPrefix: string := "Topic: "
  const PerspectivePrefix: string := "\nPerspective: "

  /** The display text stored as a user turn's content: both fields verbatim, labelled. */
  function UserContent(topic: string, perspective: string): (r: string)
    ensures |r| == |TopicPrefix| + |topic| + |PerspectivePrefix| + |perspective|
    ensures r[..|TopicPrefix|] == TopicPrefix
    ensures r[|TopicPrefix|..|TopicPrefix| + |topic|] == topic
    ensures r[|TopicPrefix| + |topic|..|r| - |perspective|] == PerspectivePrefix
    ensures r[|r| - |perspective|..] == perspective
  {
    TopicPrefix + topic + PerspectivePrefix + perspective
  }

  /**
   * The user's turn as `handleSendMessage` builds it: well formed, and shown
   * as the inquiry card with the two fields exactly as submitted.
   */
  function UserMessage(id: string, topic: string, perspective: string, timestamp: int): (m: Message)
    ensures m.id == id && m.timestamp == timestamp && m.role == User
    ensures WellFormed(m)
    ensures MessageBubble.Render(m) == MessageBubble.InquiryCard(topic, perspective)
  {
    Message(id, User, UserContent(topic, perspective), timestamp, Some(StructuredInput(topic, perspective)))
  }

  /**
   * The tutor's turn as `handleSendMessage` builds it: the reply text stored
   * as is, no structured input, shown as markdown after the fix-up.
   */
  function ModelMessage(id: string, text: string, timestamp: int): (m: Message)
    ensures m.id == id && m.timestamp == timestamp && m.role == Model && m.content == text
    ensures WellFormed(m)
    ensures MessageBubble.Render(m) == MessageBubble.Markdown(MessageBubble.ProcessedContent(text))
  {
    Message(id, Model, text, timestamp, None)
  }

  /**
   * A message as the controller creates it: a user turn carries its fields
   * and the content built from them; a model turn carries no fields.
   */
  ghost predicate WellFormed(m: Message) {
    match m.role
    case User =>
      m.structuredInput.Some? &&
      m.content == UserContent(m.structuredInput.value.topic, m.structuredInput.value.perspective)
    case Model => m.structuredInput.None?
  }

  /** Of the messages the controller creates, exactly the user turns are shown as the inquiry card. */
  lemma WellFormedRendering(m: Message)
    requires WellFormed(m)
    ensures MessageBubble.Render(m).InquiryCard? <==> m.role == User
    ensures m.role == User ==>
      MessageBubble.Render(m) == MessageBubble.InquiryCard(m.structuredInput.value.topic, m.structuredInput.value.perspective)
    ensures m.role == Model ==> MessageBubble.Render(m) == MessageBubble.Markdown(MessageBubble.ProcessedContent(m.content))
  {
  }

  class Conversation {
    var messages: seq<Message>
    var loadingState: LoadingState
    var error: Option<string>

    /** Only Idle and Thinking are ever entered, and every stored message is well formed. */
    ghost predicate Valid()
      reads this
    {
      (loadingState == Idle || loadingState == Thinking) &&
      forall i :: 0 <= i < |messages| ==> WellFormed(messages[i])
    }

    /** No messages, idle, no error. */
    constructor ()
      ensures Valid()
      ensures messages == [] && loadingState == Idle && error == None
    {
      messages, loadingState, error := [], Idle, None;
    }

    /** `isLoading` as handed to the form: true exactly while a reply is awaited. */
    function IsLoading(): (loading: bool)
      reads this
      requires Valid()
      ensures loading <==> loadingState == Thinking
    {
      loadingState != Idle
    }

    /**
     * The first half of `handleSendMessage`: clear the error, append the
     * user's turn, start thinking. The history for the service is the list
     * as it was before the append.
     */
    method Send(topic: string, perspective: string, id: string, timestamp: int) returns (history: seq<Message>)
      requires Valid()
      modifies this
      ensures Valid()
      ensures history == old(messages)
      ensures messages == old(messages) + [UserMessage(id, topic, perspective, timestamp)]
      ensures loadingState == Thinking && error == None
    {
      error := None;
      var userMessage := UserMessage(id, topic, perspective, timestamp);
      history := messages;
      messages := messages + [userMessage];
      loadingState := Thinking;
    }

    /**
     * The second half: on a reply append one model turn holding its text;
     * on a failure append nothing and set the fixed error text; idle in
     * both cases.
     */
    method Complete(outcome: Result<string, ServiceError>, id: string, timestamp: int)
      requires Valid()
      modifies this
      ensures Valid()
      ensures loadingState == Idle
      ensures outcome.Success? ==>
        messages == old(messages) + [ModelMessage(id, outcome.value, timestamp)] && error == old(error)
      ensures outcome.Failure? ==> messages == old(messages) && error == Some(ConnectionErrorText)
    {
      match outcome {
        case Success(responseText) =>
          var botMessage := ModelMessage(id, responseText, timestamp);
          messages := messages + [botMessage];
        case Failure(_) =>
          error := Some(ConnectionErrorText);
      }
      loadingState := Idle;
    }

    /**
     * `handleSendMessage` from start to finish, with the service call in
     * between. Returns the request the service sent, if any.
     */
    method HandleSendMessage(
      topic: string, perspective: string, apiKey: string, reply: SdkReply,
      userId: string, userTimestamp: int, botId: string, botTimestamp: int)
      returns (request: Option<ChatRequest>)
      requires Valid()
      modifies this
      ensures Valid()
      ensures loadingState == Idle
      ensures request == if apiKey == "" then None
        else Some(ChatRequest(ModelName, HistoryContents(old(messages)), UserPrompt(topic, perspective)))
      ensures apiKey != "" && reply.Replied? ==>
        messages == old(messages) + [UserMessage(userId, topic, perspective, userTimestamp),
                                     ModelMessage(botId, ReplyText(reply.text), botTimestamp)] &&
        messages[|messages| - 1].content != "" &&
        error == None
      ensures apiKey == "" || reply.Threw? ==>
        messages == old(messages) + [UserMessage(userId, topic, perspective, userTimestamp)] &&
        error == Some(ConnectionErrorText)
    {
      var history := Send(topic, perspective, userId, userTimestamp);
      var result;
      result, request := GenerateResponse(apiKey, history, topic, perspective, reply);
      Complete(result, botId, botTimestamp);
    }
  }

  /**
   * A submission of the form wired to the controller (App.tsx line 155):
   * the form is told it is loading when the controller is not idle, and a
   * submission it lets through starts a send. While a reply is awaited,
   * nothing is appended and no history is handed out.
   */
  method SubmitForm(form: DualInputArea.InputForm, chat: Conversation, userId: string, userTimestamp: int)
    returns (history: Option<seq<Message>>)
    requires chat.Valid()
    modifies form, chat
    ensures chat.Valid()
    ensures history.Some? <==>
      DualInputArea.CanSubmit(old(form.topic), old(form.perspective), old(chat.loadingState) != Idle)
    ensures old(chat.loadingState) == Thinking ==> history == None
    ensures history.Some? ==>
      history.value == old(chat.messages) &&
      chat.messages == old(chat.messages) + [UserMessage(userId, old(form.topic), old(form.perspective), userTimestamp)] &&
      chat.loadingState == Thinking && chat.error == None &&
      form.topic == "" && form.perspective == ""
    ensures history.None? ==>
      chat.messages == old(chat.messages) && chat.loadingState == old(chat.loadingState) &&
      chat.error == old(chat.error) &&
      form.topic == old(form.topic) && form.perspective == old(form.perspective)
  {
    var sent := form.Submit(chat.IsLoading());
    if sent.Some? {
      var h := chat.Send(sent.value.topic, sent.value.perspective, userId, userTimestamp);
      history := Some(h);
    } else {
      history := None;
    }
  }
}
