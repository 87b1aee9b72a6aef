/** Bytes and chunked byte streams. */
module Bytes {

  type byte = x: int | 0 <= x < 256

  /** The bytes of a queue of chunks, first chunk first. */
  function Concat(chunks: seq<seq<byte>>): seq<byte> {
    if chunks == [] then [] else chunks[0] + Concat(chunks[1..])
  }

  lemma {:induction false} ConcatSnoc(chunks: seq<seq<byte>>, chunk: seq<byte>)
    ensures Concat(chunks + [chunk]) == Concat(chunks) + chunk
  {
    if chunks == [] {
      assert [chunk][1..] == [];
    } else {
      ConcatSnoc(chunks[1..], chunk);
      assert (chunks + [chunk])[1..] == chunks[1..] + [chunk];
      assert chunks[0] + (Concat(chunks[1..]) + chunk) == (chunks[0] + Concat(chunks[1..])) + chunk;
    }
  }
}
