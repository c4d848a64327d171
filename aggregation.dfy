/**
  How a streamed completion becomes one reply (main.py:101-106): the
  contents of the chunks are concatenated in arrival order, a chunk whose
  content is missing or empty adding nothing.
 */
module Aggregation {
  import opened Wrappers
  import opened Messages

  /** The content of one streamed chunk's first choice: `None` when the delta carries no text. */
  type Chunk = Option<string>

  /** How the stream stopped: drained to its end, or cut off by an error. */
  datatype StreamEnd = Exhausted | Broken(cause: string)

  /** What the completion service does with one request: it refuses the call
      outright, or it streams some chunks and then ends. */
  datatype Upstream =
    | Refused(cause: string)
    | Streamed(chunks: seq<Chunk>, end: StreamEnd)

  /** The `if content:` test of the loop: a missing or empty content is skipped. */
  predicate Contributes(c: Chunk)
  {
    c.Some? && c.value != ""
  }

  /** What one chunk adds to the reply. */
  function Piece(c: Chunk): string
  {
    if Contributes(c) then c.value else ""
  }

  /** The reply after consuming `chunks`, folded from the left as the loop does. */
  function Aggregate(chunks: seq<Chunk>): string
    decreases |chunks|
  {
    if chunks == [] then ""
    else Aggregate(chunks[..|chunks| - 1]) + Piece(chunks[|chunks| - 1])
  }

  /** An independent reference: the texts of the contributing chunks, in order. */
  function Contents(chunks: seq<Chunk>): seq<string>
    decreases |chunks|
  {
    if chunks == [] then []
    else (if Contributes(chunks[0]) then [chunks[0].value] else []) + Contents(chunks[1..])
  }

  /** The concatenation of a sequence of texts. */
  function Concat(texts: seq<string>): string
    decreases |texts|
  {
    if texts == [] then "" else texts[0] + Concat(texts[1..])
  }

  /** What the call yields: the whole reply once the stream is drained, the
      failure otherwise; no partial reply escapes. */
  function Reply(u: Upstream): Result<string, Error>
  {
    match u
    case Refused(cause) => Failure(UpstreamError(cause))
    case Streamed(chunks, Exhausted) => Success(Aggregate(chunks))
    case Streamed(_, Broken(cause)) => Failure(UpstreamError(cause))
  }

  /** Aggregating two consecutive parts of a stream is aggregating each and
      concatenating the results. */
  lemma {:induction false} AggregateAppend(a: seq<Chunk>, b: seq<Chunk>)
    ensures Aggregate(a + b) == Aggregate(a) + Aggregate(b)
    decreases |b|
  {
    if b == [] {
      assert a + b == a;
    } else {
      var n := |b| - 1;
      assert (a + b)[..|a + b| - 1] == a + b[..n];
      assert (a + b)[|a + b| - 1] == b[n];
      AggregateAppend(a, b[..n]);
    }
  }

  /** The reply is exactly the in-order concatenation of the non-empty contents. */
  lemma {:induction false} AggregateIsConcat(chunks: seq<Chunk>)
    ensures Aggregate(chunks) == Concat(Contents(chunks))
    decreases |chunks|
  {
    if chunks != [] {
      var c, rest := chunks[0], chunks[1..];
      assert chunks == [c] + rest;
      AggregateAppend([c], rest);
      assert [c][..0] == [];
      AggregateIsConcat(rest);
      var head := if Contributes(c) then [c.value] else [];
      assert Contents(chunks) == head + Contents(rest);
      if Contributes(c) {
        assert (head + Contents(rest))[1..] == Contents(rest);
      } else {
        assert head + Contents(rest) == Contents(rest);
      }
    }
  }

  /** Two adjacent chunks give the same reply as one chunk holding both texts:
      the reply does not depend on how the service splits its output. */
  lemma {:induction false} Rechunk(before: seq<Chunk>, x: string, y: string, after: seq<Chunk>)
    ensures Aggregate(before + [Some(x), Some(y)] + after)
         == Aggregate(before + [Some(x + y)] + after)
  {
    var pair, merged := [Some(x), Some(y)], [Some(x + y)];
    assert pair[..1] == [Some(x)] && [Some(x)][..0] == [] && merged[..0] == [];
    assert Aggregate(pair) == Aggregate(merged);
    AggregateAppend(before + pair, after);
    AggregateAppend(before, pair);
    AggregateAppend(before + merged, after);
    AggregateAppend(before, merged);
  }

  /** A chunk without text can be dropped without changing the reply. */
  lemma {:induction false} SkipsSilentChunk(before: seq<Chunk>, c: Chunk, after: seq<Chunk>)
    requires !Contributes(c)
    ensures Aggregate(before + [c] + after) == Aggregate(before + after)
  {
    AggregateAppend(before + [c], after);
    AggregateAppend(before, [c]);
    AggregateAppend(before, after);
    assert [c][..0] == [];
  }
}
