/**
 * The request to the remote tutor model (services/geminiService.ts).
 *
 * The remote chat service is not part of this model: its answer is an
 * argument (`SdkReply`), either a reply whose text may be absent or empty,
 * or a thrown error. The API key, read from the environment at start-up,
 * is an argument too (an unset key reads as the empty string).
 */
module GeminiService {
  import opened Wrappers
  import opened Types

  const ModelName: string := "gemini-3-flash-preview"
  const MissingKeyMessage: string := "API Key is missing."
  const FallbackReply: string := "I apologize, but I couldn't generate a response at this time."
  const TopicLabel: string := "\nTOPIC/QUESTION: "
  const PerspectiveLabel: string := "\n\nUSER'S CURRENT PERSPECTIVE (The way I see it is...):\n"

  /** One text part of a turn, as the chat API takes it. */
  datatype Part = Part(text: string)

  /** One turn of history, as the chat API takes it. */
  datatype Content = Content(role: Role, parts: seq<Part>)

  /** What is sent: the model, the prior turns, and the new prompt. */
  datatype ChatRequest = ChatRequest(model: string, history: seq<Content>, message: string)

  /** What the remote call produced: a reply (its `text` may be absent) or a thrown error. */
  datatype SdkReply = Replied(text: Option<string>) | Threw(cause: string)

  /** Why `generateResponse` failed: no key, or the remote call's error, passed on unchanged. */
  datatype ServiceError = MissingApiKey | Remote(cause: string) {
    /** The thrown error's message: the fixed text for a missing key, the remote error's own otherwise. */
    function ErrorMessage(): (m: string)
      ensures MissingApiKey? ==> m == "API Key is missing."
      ensures Remote? ==> m == cause
    {
      match this
      case MissingApiKey => MissingKeyMessage
      case Remote(cause) => cause
    }
  }

  /** The history mapping: each message becomes its role and one text part holding its content. */
  function HistoryContents(history: seq<Message>): (r: seq<Content>)
    ensures |r| == |history|
    ensures forall i :: 0 <= i < |r| ==>
      r[i].role == history[i].role && r[i].parts == [Part(history[i].content)]
  {
    if |history| == 0 then []
    else [Content(history[0].role, [Part(history[0].content)])] + HistoryContents(history[1..])
  }

  /** The mapping distributes over concatenation: order is kept turn by turn. */
  lemma {:induction false} HistoryContentsAppend(a: seq<Message>, b: seq<Message>)
    ensures HistoryContents(a + b) == HistoryContents(a) + HistoryContents(b)
    decreases |a|
  {
    if |a| > 0 {
      assert (a + b)[1..] == a[1..] + b;
      HistoryContentsAppend(a[1..], b);
    }
  }

  /**
   * Only role and content reach the API: two histories that agree on those,
   * whatever their ids, timestamps and structured inputs, map to the same turns.
   */
  lemma HistoryContentsDropsMetadata(a: seq<Message>, b: seq<Message>)
    requires |a| == |b|
    requires forall i :: 0 <= i < |a| ==> a[i].role == b[i].role && a[i].content == b[i].content
    ensures HistoryContents(a) == HistoryContents(b)
  {
    var ra, rb := HistoryContents(a), HistoryContents(b);
    assert forall i :: 0 <= i < |ra| ==> ra[i] == rb[i];
  }

  /** The prompt for the new turn: both fields inserted verbatim into a fixed template. */
  function UserPrompt(topic: string, perspective: string): (r: string)
    ensures |r| == |TopicLabel| + |topic| + |PerspectiveLabel| + |perspective| + 1
    ensures r[..|TopicLabel|] == TopicLabel
    ensures r[|TopicLabel|..|TopicLabel| + |topic|] == topic
    ensures r[|TopicLabel| + |topic|..|r| - |perspective| - 1] == PerspectiveLabel
    ensures r[|r| - |perspective| - 1..|r| - 1] == perspective
    ensures r[|r| - 1] == '\n'
  {
    TopicLabel + topic + PerspectiveLabel + perspective + "\n"
  }

  /** Given the topic's length, the prompt determines both fields. */
  lemma UserPromptDeterminesFields(t1: string, p1: string, t2: string, p2: string)
    requires |t1| == |t2|
    requires UserPrompt(t1, p1) == UserPrompt(t2, p2)
    ensures t1 == t2 && p1 == p2
  {
    var r := UserPrompt(t1, p1);
    assert t1 == r[|TopicLabel|..|TopicLabel| + |t1|];
    assert p1 == r[|r| - |p1| - 1..|r| - 1];
  }

  /** `result.text || fallback`: an absent or empty reply text is replaced, any other is kept. */
  function ReplyText(text: Option<string>): (r: string)
    ensures r != ""
    ensures text.Some? && text.value != "" ==> r == text.value
    ensures text.None? || text.value == "" ==> r == FallbackReply
  {
    if text.Some? && text.value != "" then text.value else FallbackReply
  }

  /**
   * `generateResponse`: with no key, fail before building anything or calling
   * out; otherwise send exactly one request built from the history and the
   * two fields, and return its reply text (with the fallback) or pass its
   * error on. `request` is the one request sent, if any.
   */
  method GenerateResponse(apiKey: string, currentHistory: seq<Message>, topic: string, perspective: string, reply: SdkReply)
    returns (result: Result<string, ServiceError>, request: Option<ChatRequest>)
    ensures apiKey == "" ==> request == None && result == Failure(MissingApiKey)
    ensures apiKey == "" ==> result.Failure? && result.error.ErrorMessage() == "API Key is missing."
    ensures apiKey != "" ==>
      request == Some(ChatRequest(ModelName, HistoryContents(currentHistory), UserPrompt(topic, perspective)))
    ensures apiKey != "" && reply.Threw? ==> result == Failure(Remote(reply.cause))
    ensures apiKey != "" && reply.Threw? ==> result.Failure? && result.error.ErrorMessage() == reply.cause
    ensures apiKey != "" && reply.Replied? ==> result == Success(ReplyText(reply.text))
    ensures result.Success? ==> result.value != ""
  {
    if apiKey == "" {
      return Failure(MissingApiKey), None;
    }
    var historyContents := HistoryContents(currentHistory);
    var userPrompt := UserPrompt(topic, perspective);
    request := Some(ChatRequest(ModelName, historyContents, userPrompt));
    match reply {
      case Replied(text) =>
        result := Success(ReplyText(text));
      case Threw(cause) =>
        result := Failure(Remote(cause));
    }
  }
}
