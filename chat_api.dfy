/**
  The request handlers of the chat API and the helpers they use
  (main.py:44-166): loading or creating a conversation, writing it back,
  draining the completion stream, the chat exchange, lookup and delete.
  The completion service is a parameter: a function from the history sent
  to what the service does with it.
 */
module ChatApi {
  import opened Wrappers
  import opened Messages
  import opened Aggregation
  import opened Storage

  /** A conversation loaded into memory for one request (main.py:44-52). */
  class Conversation {
    const conversationId: string
    var messages: seq<Message>
    var active: bool

    /** A new conversation: only the system message, and active. */
    constructor (conversationId: string)
      ensures this.conversationId == conversationId
      ensures messages == InitialMessages && active
    {
      this.conversationId := conversationId;
      messages := InitialMessages;
      active := true;
    }
  }

  /** The record a request works on: the stored one, or a new one when the id is absent. */
  ghost function Loaded(db: map<string, Record>, id: string): Record
  {
    if id in db then db[id] else NewRecord
  }

  /** Loads the stored conversation or, when there is none, creates and inserts one. */
  method GetOrCreateConversation(store: ConversationStore, conversationId: string)
    returns (conversation: Conversation)
    modifies store
    ensures fresh(conversation) && conversation.conversationId == conversationId
    ensures conversation.messages == Loaded(old(store.records), conversationId).messages
    ensures conversation.active == Loaded(old(store.records), conversationId).active
    ensures conversationId in old(store.records) ==>
              store.records == old(store.records) && store.writes == old(store.writes)
    ensures conversationId !in old(store.records) ==>
              store.records == old(store.records)[conversationId := NewRecord] &&
              store.writes == old(store.writes) + [Insert(conversationId)]
  {
    var conversationData := store.FindOne(conversationId);
    if conversationData.Some? {
      conversation := new Conversation(conversationId);
      conversation.messages := conversationData.value.messages;
      conversation.active := conversationData.value.active;
    } else {
      conversation := new Conversation(conversationId);
      store.InsertOne(conversationId, Record(conversation.messages, conversation.active));
    }
  }

  /** Writes the conversation's history and flag back to the record with its
      id; every other record, and an absent one, stays as it was. */
  method SaveConversation(store: ConversationStore, conversation: Conversation)
    modifies store
    ensures var id := conversation.conversationId;
            if id in old(store.records)
            then store.records == old(store.records)[id := Record(conversation.messages, conversation.active)]
            else store.records == old(store.records)
    ensures forall k :: k != conversation.conversationId ==>
              (k in store.records <==> k in old(store.records)) &&
              (k in store.records ==> store.records[k] == old(store.records)[k])
    ensures store.writes == old(store.writes) + [Update(conversation.conversationId)]
  {
    store.UpdateOne(conversation.conversationId, conversation.messages, conversation.active);
  }

  /** Sends the conversation's history to the completion service and drains
      the stream into one reply. */
  method QueryGroqApi(conversation: Conversation, service: seq<Message> -> Upstream)
    returns (r: Result<string, Error>)
    ensures r == Reply(service(conversation.messages))
  {
    var completion := service(conversation.messages);
    if completion.Refused? {
      return Failure(UpstreamError(completion.cause));
    }
    var chunks := completion.chunks;
    var response := "";
    var i := 0;
    while i < |chunks|
      invariant 0 <= i <= |chunks|
      invariant response == Aggregate(chunks[..i])
    {
      var content := chunks[i];
      if content.Some? && content.value != "" {
        response := response + content.value;
      }
      assert chunks[..i + 1][..i] == chunks[..i];
      i := i + 1;
    }
    assert chunks[..i] == chunks;
    if completion.end.Broken? {
      return Failure(UpstreamError(completion.end.cause));
    }
    return Success(response);
  }

  /** The chat exchange (main.py:111-145). An inactive conversation is refused
      before anything is appended or written. Otherwise the caller's message,
      with the caller's role, is appended and the whole history is sent; when
      the reply arrives it is appended as the assistant's message and the
      history is written back, and when it does not nothing is written back,
      so the store keeps what `get_or_create` left there. */
  method Chat(store: ConversationStore, input: UserInput, service: seq<Message> -> Upstream)
    returns (r: Result<ChatResponse, Error>)
    modifies store
    ensures var id := input.conversationId;
            var prior := Loaded(old(store.records), id);
            var loaded := old(store.records)[id := prior];
            var inserted := if id in old(store.records) then [] else [Insert(id)];
            var sent := prior.messages + [Message(input.role, input.message)];
            if !prior.active then
              r == Failure(Inactive) &&
              store.records == old(store.records) && store.writes == old(store.writes)
            else match Reply(service(sent))
              case Failure(e) =>
                r == Failure(e) &&
                store.records == loaded && store.writes == old(store.writes) + inserted
              case Success(reply) =>
                r == Success(ChatResponse(reply, id)) &&
                store.records == loaded[id := Record(sent + [Message("assistant", reply)], true)] &&
                store.writes == old(store.writes) + inserted + [Update(id)]
    ensures forall k :: k != input.conversationId ==>
              (k in store.records <==> k in old(store.records)) &&
              (k in store.records ==> store.records[k] == old(store.records)[k])
    ensures forall k :: k in old(store.records) ==>
              k in store.records && old(store.records)[k].messages <= store.records[k].messages
    ensures StartsWithSystem(old(store.records)) ==> StartsWithSystem(store.records)
  {
    var conversation := GetOrCreateConversation(store, input.conversationId);
    if !conversation.active {
      return Failure(Inactive);
    }
    conversation.messages := conversation.messages + [Message(input.role, input.message)];
    var response := QueryGroqApi(conversation, service);
    if response.Failure? {
      return Failure(response.error);
    }
    conversation.messages := conversation.messages + [Message("assistant", response.value)];
    SaveConversation(store, conversation);
    return Success(ChatResponse(response.value, input.conversationId));
  }

  /** Looks a conversation up without changing anything (main.py:147-158). */
  method GetConversation(store: ConversationStore, conversationId: string)
    returns (r: Result<ConversationView, Error>)
    ensures r.Success? <==> conversationId in store.records
    ensures r.Success? ==>
              r.value == ConversationView(conversationId, store.records[conversationId].messages)
    ensures r.Failure? ==> r.error == NotFound
  {
    var conversationData := store.FindOne(conversationId);
    if conversationData.None? {
      return Failure(NotFound);
    }
    return Success(ConversationView(conversationId, conversationData.value.messages));
  }

  /** Removes a conversation (main.py:160-166); an absent id is reported as
      not found and the records stay as they were. */
  method DeleteConversation(store: ConversationStore, conversationId: string)
    returns (r: Result<string, Error>)
    modifies store
    ensures r.Success? <==> conversationId in old(store.records)
    ensures r.Success? ==> r.value == "Conversation deleted successfully"
    ensures r.Failure? ==> r.error == NotFound
    ensures store.records == old(store.records) - {conversationId}
    ensures conversationId !in old(store.records) ==> store.records == old(store.records)
    ensures store.writes == old(store.writes) + [Delete(conversationId)]
  {
    var deletedCount := store.DeleteOne(conversationId);
    if deletedCount == 0 {
      return Failure(NotFound);
    }
    return Success("Conversation deleted successfully");
  }
}
