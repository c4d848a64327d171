/**
  The values the chat API exchanges: history entries, the body of a chat
  request, the shapes of its answers, and the kinds of error it reports.
 */
module Messages {

  /** One entry of a conversation's history. The role is free text: the chat
      endpoint stores whatever role the caller sends. */
  datatype Message = Message(role: string, content: string)

  /** The instruction every conversation starts with (main.py:48). */
  const SystemPrompt: string := "You are a useful AI assistant."

  /** The history of a conversation that has just been created (main.py:47-49). */
  const InitialMessages: seq<Message> := [Message("system", SystemPrompt)]

  /** The body of a chat request (main.py:38-42); `role` defaults to "user".
      The last field is accepted but never read by the chat endpoint. */
  datatype UserInput = UserInput(
    message: string,
    role: string := "user",
    conversationId: string,
    getOrCreateConversation: string)

  /** The answer of a successful chat request (main.py:139-142). */
  datatype ChatResponse = ChatResponse(response: string, conversationId: string)

  /** The answer of a successful lookup (main.py:153-158), without the timestamps. */
  datatype ConversationView = ConversationView(conversationId: string, messages: seq<Message>)

  /** The failures the endpoints report. */
  datatype Error =
    | NotFound                     // lookup or delete of an absent id
    | Inactive                     // chat on a conversation whose `active` flag is false
    | UpstreamError(cause: string) // the completion call or its stream failed

  /** The HTTP status each failure is reported with: a server error exactly
      when the completion service is at fault, a client error otherwise. */
  function Status(e: Error): (code: nat)
    ensures 400 <= code < 600
    ensures code >= 500 <==> e.UpstreamError?
    ensures code == 404 <==> e.NotFound?
    ensures e.Inactive? ==> code == 400
  {
    match e
    case NotFound => 404
    case Inactive => 400
    case UpstreamError(_) => 500
  }

  /** The detail text each failure is reported with. */
  function Detail(e: Error): string
  {
    match e
    case NotFound => "Conversation not found"
    case Inactive => SessionEnded
    case UpstreamError(cause) => UpstreamPrefix + cause
  }

  /** The text an inactive conversation is refused with (main.py:119), in two
      parts so the verifier can look inside it. */
  const SessionEnded: string := "The chat session has ended. " + "Please start a new session."

  /** The text the completion helper puts before the underlying cause (main.py:109). */
  const UpstreamPrefix: string := "Error with Groq API: "

  /** The detail text determines the failure: the fixed texts are distinct,
      and an upstream failure's text keeps its whole cause. */
  lemma DetailIdentifiesError(e1: Error, e2: Error)
    ensures Detail(e1) == Detail(e2) <==> e1 == e2
  {
    if Detail(e1) == Detail(e2) {
      var d := Detail(e1);
      // Only an upstream failure's text starts with 'E'.
      assert Detail(Inactive)[0] == 'T';
      assert Detail(NotFound)[0] == 'C';
      assert e1.UpstreamError? ==> d[0] == UpstreamPrefix[0] == 'E';
      assert e2.UpstreamError? ==> d[0] == UpstreamPrefix[0] == 'E';
      if e1.UpstreamError? && e2.UpstreamError? {
        assert e1.cause == d[|UpstreamPrefix|..] == e2.cause;
      }
    }
  }
}
