# Conversation lifecycle of a small chat API

This project models the core of a chat API that keeps one message history
per conversation id in a document store. Each chat request loads the
conversation, or creates it with a single system message. It refuses the
request if the conversation is inactive. Otherwise it appends the caller's
message, sends the whole history to a completion service, joins the
streamed reply into one string, appends that reply as the assistant's
message and writes the history back. Two more endpoints look a
conversation up and delete it.

The two external services are replaced by stand-ins:

- The conversations collection is the class `Storage.ConversationStore`. Its
  field `records` maps a conversation id to a `Record(messages, active)`.
  A ghost field `writes` logs the write requests issued (insert, update,
  delete), so contracts can say when nothing was written.
- The completion service is a parameter `service: seq<Message> -> Upstream`.
  It maps the history sent to what the service does with it. It either
  refuses the call (`Refused(cause)`) or streams chunks and then ends: drained
  (`Exhausted`) or cut off (`Broken(cause)`). A chunk is the optional text of
  its first choice's delta.

Modules follow the program's parts:

- `Wrappers`: Option and Result.
- `Messages`: the message, the request and answer shapes, and the error kinds
  with their statuses.
- `Aggregation`: the fold of the stream into a reply, and its laws.
- `Storage`: the collection.
- `ChatApi`: the `Conversation` class and the handlers of `main.py`.
- `Scenarios`: client methods that chain several requests.

The model follows the code in these places:

- A role is any string, stored as given. It is not one of three values.
- `update_one` on an id with no record does nothing. It does not fail.
- Store writes are not modelled as failing (see Left out).

## Model

| member | source | states |
|---|---|---|
| `Messages.Status` | main.py:109-164 | a failure is reported as a server error (5xx) exactly when the completion service is at fault (main.py:109, 145); an inactive session is reported as exactly 400 (main.py:118); a missing conversation is 404 (main.py:151, 164) |
| `Messages.DetailIdentifiesError` | main.py:109-164 | the detail text a failure is reported with determines the failure: the three fixed texts differ from each other, and an upstream detail keeps its underlying cause, so two different causes never give the same text |
| `Aggregation.AggregateAppend` | main.py:101-106 | aggregating `a + b` equals aggregating `a` followed by aggregating `b`, so the reply does not depend on where the stream is cut |
| `Aggregation.AggregateIsConcat` | main.py:101-106 | the accumulated reply equals the in-order concatenation of the contents of the chunks whose content is present and non-empty (an independent definition) |
| `Aggregation.Rechunk` | main.py:101-106 | two adjacent chunks `x`, `y` give the same reply as the single chunk `x + y`, whatever surrounds them |
| `Aggregation.SkipsSilentChunk` | main.py:103 | a chunk with missing or empty content can be dropped from anywhere in the stream without changing the reply |
| `Storage.ConversationStore.constructor` | main.py:31-33 | the collection starts with the given records and no writes issued |
| `Storage.ConversationStore.FindOne` | main.py:56 | finds a record exactly when the id is stored, and then returns that record; changes nothing |
| `Storage.ConversationStore.InsertOne` | main.py:68-74 | adds the record under a new id, leaving every other record as it was, and logs one insert |
| `Storage.ConversationStore.UpdateOne` | main.py:78-87 | overwrites the history and flag of the record with this id; with no such record nothing changes; logs one update |
| `Storage.ConversationStore.DeleteOne` | main.py:162 | removes the id's record and reports 1 if it was stored, 0 otherwise; logs one delete |
| `ChatApi.Conversation.constructor` | main.py:45-52 | a new conversation has the given id, exactly one message `{system, "You are a useful AI assistant."}`, and is active |
| `ChatApi.GetOrCreateConversation` | main.py:54-75 | for a stored id, returns its history and flag unchanged and performs no write; for an absent id, inserts the initial record under that id (one insert, nothing else changed) and returns that same history and flag |
| `ChatApi.SaveConversation` | main.py:77-87 | overwrites only the history and flag of the record whose id matches; every other record is unchanged; an absent id changes nothing |
| `ChatApi.QueryGroqApi` | main.py:89-109 | sends the conversation's current history; the result is the aggregated reply when the stream is drained, and the upstream failure (no partial reply) when the call is refused or the stream breaks |
| `ChatApi.Chat` | main.py:111-145 | inactive: fails with `Inactive`, no message appended, no write; reply fails: fails with that error, and the store holds only what get-or-create left (a new id keeps just the system message), with no update issued; success: the history sent is the prior history plus `{input.role, input.message}`, and the stored history becomes that plus `{assistant, reply}`, with one update; other ids are never touched, stored histories only grow, and "every history starts with the system message" is preserved |
| `ChatApi.GetConversation` | main.py:147-158 | returns the id and its stored history exactly when the id is stored, `NotFound` otherwise; changes nothing |
| `ChatApi.DeleteConversation` | main.py:160-166 | succeeds with "Conversation deleted successfully" exactly when the id was stored; removes it; an absent id gives `NotFound` and leaves the records unchanged |
| `Scenarios.GetOrCreateTwice` | main.py:54-75 | two consecutive loads of one id return identical histories; only the first may write, and only when it creates the record |
| `Scenarios.DeleteThenGet` | main.py:147-166 | after a delete, whether it found the record or not, a lookup of that id is `NotFound` |
| `Scenarios.FirstExchange` | main.py:111-166 | on an empty store, chatting "hi" with a streamed "hel", an empty chunk, and "lo" answers "hello" and stores system, user "hi", assistant "hello"; a delete then makes the lookup `NotFound` |
| `Scenarios.ChatOnInactive` | main.py:116-120 | a record stored with `active` false refuses a chat with a 400-class error and keeps its history |
| `Scenarios.FailedFirstExchange` | main.py:114-145 | a chat on a new id whose completion call is refused fails with a 500-class error, and the new record keeps only the system message |

## Left out

- Timestamps: `created_at` and `updated_at` are wall-clock values. The model has none. Also, a loaded conversation does not get back its stored `updated_at`.
- `ChatApi.GetConversation`: the answer omits the two timestamps the endpoint returns.
- Store write failures: a failed insert, update or delete is not modelled. In the code, a failed save inside the chat exchange is reported as a 500.
- `Storage.ConversationStore.InsertOne`: requires the id to be absent. The map cannot hold two documents with one id. The only caller inserts only after finding none.
- The wording of the chat endpoint's 500 detail is not modelled. It re-wraps the inner error through the web framework's string form of the exception. `Messages.Detail` gives the detail that the completion helper and the other handlers raise.
- A chunk with no choices raises inside the loop and is reported like any other stream error. The model folds this into `Broken(cause)`.
- The Groq client call, its model name and its sampling parameters are left out. The service is a parameter, and only its outcome matters.
- The model leaves out HTTP routing and status plumbing beyond the `Error` kinds. It also leaves out request-body validation, CORS, server startup, environment loading and the missing-key check.
- Concurrency is left out: the model covers single sequential requests. Two interleaved chats on one id can lose an update. That comes from interleaving, which the model does not express.
- The MongoDB query language, `$set`, and the `deleted_count` object are left out. They become map operations and a count.
- The completion stream is a finite sequence of chunks. A stream that never ends would block the chat handler forever, with nothing saved. `Upstream` cannot express that case.
