/**
  Properties that span several requests, stated as client methods that
  call the handlers and promise only what the handlers' contracts give.
 */
module Scenarios {
  import opened Wrappers
  import opened Messages
  import opened Aggregation
  import opened Storage
  import opened ChatApi

  /** Two loads of one id with nothing in between see the same history, and
      only the first can write (when it creates the record). */
  method GetOrCreateTwice(store: ConversationStore, id: string)
    returns (first: seq<Message>, second: seq<Message>)
    modifies store
    ensures first == second
    ensures id !in old(store.records) ==>
              first == InitialMessages && store.writes == old(store.writes) + [Insert(id)]
    ensures id in old(store.records) ==>
              first == old(store.records)[id].messages &&
              store.records == old(store.records) && store.writes == old(store.writes)
  {
    var c1 := GetOrCreateConversation(store, id);
    var c2 := GetOrCreateConversation(store, id);
    first, second := c1.messages, c2.messages;
  }

  /** After a delete, a lookup of the same id is not found, whether or not the
      delete found a record. */
  method DeleteThenGet(store: ConversationStore, id: string)
    returns (deleted: Result<string, Error>, lookup: Result<ConversationView, Error>)
    modifies store
    ensures deleted.Success? <==> id in old(store.records)
    ensures lookup == Failure(NotFound)
    ensures store.records == old(store.records) - {id}
  {
    deleted := DeleteConversation(store, id);
    lookup := GetConversation(store, id);
  }

  /** A first exchange on an empty store: the service streams "hel", a chunk
      without text, and "lo"; the stored history then holds the system
      message, the user's "hi" and the reply "hello". After a delete the
      conversation is gone. */
  method FirstExchange() returns (reply: Result<ChatResponse, Error>,
                                  view: Result<ConversationView, Error>,
                                  afterDelete: Result<ConversationView, Error>)
    ensures reply == Success(ChatResponse("hello", "c1"))
    ensures view == Success(ConversationView("c1",
              InitialMessages + [Message("user", "hi"), Message("assistant", "hello")]))
    ensures afterDelete == Failure(NotFound)
  {
    var store := new ConversationStore(map[]);
    var chunks: seq<Chunk> := [Some("hel"), None, Some("lo")];
    assert chunks[..2][..1] == [Some("hel")] && chunks[..2] == [Some("hel"), None];
    assert [Some("hel")][..0] == [];
    assert Aggregate(chunks) == "hello";
    var service := (history: seq<Message>) => Streamed(chunks, Exhausted);
    reply := Chat(store, UserInput(message := "hi", conversationId := "c1",
                                   getOrCreateConversation := ""), service);
    assert InitialMessages + [Message("user", "hi")] + [Message("assistant", "hello")]
        == InitialMessages + [Message("user", "hi"), Message("assistant", "hello")];
    view := GetConversation(store, "c1");
    var _ := DeleteConversation(store, "c1");
    afterDelete := GetConversation(store, "c1");
  }

  /** A conversation stored with `active` false refuses a chat, and its
      record is not touched. */
  method ChatOnInactive(history: seq<Message>, service: seq<Message> -> Upstream)
    returns (reply: Result<ChatResponse, Error>, view: Result<ConversationView, Error>)
    ensures reply == Failure(Inactive) && Status(reply.error) == 400
    ensures Detail(reply.error) == SessionEnded
    ensures view == Success(ConversationView("c2", history))
  {
    var store := new ConversationStore(map["c2" := Record(history, false)]);
    reply := Chat(store, UserInput(message := "hi", conversationId := "c2",
                                   getOrCreateConversation := ""), service);
    view := GetConversation(store, "c2");
  }

  /** When the service fails on a first message, the record that was just
      created keeps only the system message. */
  method FailedFirstExchange(cause: string) returns (reply: Result<ChatResponse, Error>,
                                                     view: Result<ConversationView, Error>)
    ensures reply == Failure(UpstreamError(cause)) && Status(reply.error) == 500
    ensures Detail(reply.error) == "Error with Groq API: " + cause
    ensures view == Success(ConversationView("c3", InitialMessages))
  {
    var store := new ConversationStore(map[]);
    var service := (history: seq<Message>) => Refused(cause);
    reply := Chat(store, UserInput(message := "test", conversationId := "c3",
                                   getOrCreateConversation := ""), service);
    view := GetConversation(store, "c3");
  }
}
