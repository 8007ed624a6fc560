/** Draining a child's pipe to the end while keeping a bounded prefix. */
module Pipe {
  import opened RunState

  const READ_SIZE: nat := 65536

  function Concat(chunks: seq<Bytes>): Bytes {
    if chunks == [] then [] else Concat(chunks[..|chunks| - 1]) + chunks[|chunks| - 1]
  }

  function Prefix(b: Bytes, n: nat): Bytes { if |b| <= n then b else b[..n] }

  /** A pipe hands out what the child wrote in pieces of its own choosing, none
      empty before the end. */
  class ChildPipe {
    var pending: seq<Bytes>
    var closed: bool

    ghost predicate Valid()
      reads this
    {
      !closed && forall i :: 0 <= i < |pending| ==> 0 < |pending[i]| <= READ_SIZE
    }

    constructor (chunks: seq<Bytes>)
      requires forall i :: 0 <= i < |chunks| ==> 0 < |chunks[i]| <= READ_SIZE
      ensures Valid() && pending == chunks
    {
      pending, closed := chunks, false;
    }

    method Read() returns (chunk: Bytes)
      requires Valid()
      modifies this
      ensures Valid()
      ensures if old(pending) == [] then chunk == [] && pending == []
              else chunk == old(pending)[0] && pending == old(pending)[1..]
    {
      if pending == [] { return []; }
      chunk, pending := pending[0], pending[1..];
    }

    method Close()
      modifies this
      ensures closed && pending == old(pending)
    {
      closed := true;
    }
  }

  lemma KeepMore(seen: Bytes, chunk: Bytes, max: nat)
    ensures Prefix(seen + chunk, max + 1) ==
      if |Prefix(seen, max + 1)| <= max
      then Prefix(seen, max + 1) + Prefix(chunk, max + 1 - |Prefix(seen, max + 1)|)
      else Prefix(seen, max + 1)
  {
  }

  /** However the child's output is cut into chunks, the result is its first
      `max + 1` bytes and nothing is left in the pipe; so the result is longer
      than `max` exactly when the output is, and otherwise it is the output. */
  method ReadPipe(stream: ChildPipe, max: nat) returns (data: Bytes)
    requires stream.Valid()
    modifies stream
    ensures data == Prefix(Concat(old(stream.pending)), max + 1)
    ensures |data| > max <==> |Concat(old(stream.pending))| > max
    ensures |data| <= max ==> data == Concat(old(stream.pending))
    ensures stream.pending == [] && stream.closed
  {
    var chunks: seq<Bytes>, retained := [], 0;
    ghost var all := stream.pending;
    ghost var n: nat := 0;
    while true
      invariant stream.Valid() && n <= |all| && stream.pending == all[n..]
      invariant Concat(chunks) == Prefix(Concat(all[..n]), max + 1) && retained == |Concat(chunks)|
      decreases |stream.pending|
    {
      var chunk := stream.Read();
      if chunk == [] { break; }
      assert all[..n + 1][..n] == all[..n];
      KeepMore(Concat(all[..n]), chunk, max);
      n := n + 1;
      if retained <= max {
        var keep := Prefix(chunk, max + 1 - retained);
        assert (chunks + [keep])[..|chunks|] == chunks;
        chunks, retained := chunks + [keep], retained + |keep|;
      }
    }
    assert all[..n] == all;
    data := Concat(chunks);
    stream.Close();
  }
}
