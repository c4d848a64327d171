/**
  The conversations collection of the document store (main.py:31-33), as
  a map from conversation id to the stored record. Besides the records it
  keeps, as ghost state, the writes it has been asked to perform, so that
  contracts can say when nothing was written.
 */
module Storage {
  import opened Wrappers
  import opened Messages

  /** A stored conversation document; the timestamps are not modelled. */
  datatype Record = Record(messages: seq<Message>, active: bool)

  /** A write request issued to the collection. */
  datatype Write = Insert(id: string) | Update(id: string) | Delete(id: string)

  /** The record `get_or_create_conversation` inserts for a new id. */
  const NewRecord: Record := Record(InitialMessages, true)

  /** Every stored history starts with the system message. */
  ghost predicate StartsWithSystem(db: map<string, Record>)
  {
    forall id :: id in db ==> InitialMessages <= db[id].messages
  }

  class ConversationStore {
    var records: map<string, Record>
    ghost var writes: seq<Write>

    /** A collection holding `seed`, e.g. records written by some other client. */
    constructor (seed: map<string, Record>)
      ensures records == seed && writes == []
    {
      records := seed;
      writes := [];
    }

    /** `find_one` by conversation id: the stored record, or nothing when absent. */
    method FindOne(id: string) returns (found: Option<Record>)
      ensures found.Some? <==> id in records
      ensures found.Some? ==> found.value == records[id]
    {
      found := if id in records then Some(records[id]) else None;
    }

    /** `insert_one` of a new document. It is only issued for an id that is
        not stored, so the map never has to hold two documents for one id. */
    method InsertOne(id: string, record: Record)
      requires id !in records
      modifies this
      ensures records == old(records)[id := record]
      ensures writes == old(writes) + [Insert(id)]
    {
      records := records[id := record];
      writes := writes + [Insert(id)];
    }

    /** `update_one` with `$set` of the history and the flag: the record with
        this id is overwritten, and when there is none nothing changes. */
    method UpdateOne(id: string, messages: seq<Message>, active: bool)
      modifies this
      ensures id in old(records) ==> records == old(records)[id := Record(messages, active)]
      ensures id !in old(records) ==> records == old(records)
      ensures writes == old(writes) + [Update(id)]
    {
      if id in records {
        records := records[id := Record(messages, active)];
      }
      writes := writes + [Update(id)];
    }

    /** `delete_one` by conversation id, reporting how many documents went. */
    method DeleteOne(id: string) returns (deletedCount: nat)
      modifies this
      ensures deletedCount == if id in old(records) then 1 else 0
      ensures records == old(records) - {id}
      ensures writes == old(writes) + [Delete(id)]
    {
      deletedCount := if id in records then 1 else 0;
      records := records - {id};
      writes := writes + [Delete(id)];
    }
  }
}
