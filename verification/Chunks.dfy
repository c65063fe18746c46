// Cutting a byte stream into 600 ms pieces.  The furniture sends by these pieces and the
// ASR service decodes by them (UPLINK_CHUNK_BYTES and CHUNK_STRIDE_BYTES are both 19200).
module Chunks {
  import opened Wire

  const CHUNK := 19200

  /** The full pieces of a stream, in order. */
  function Pieces(p: Bytes): seq<Bytes>
    decreases |p|
  {
    if |p| < CHUNK then [] else [p[..CHUNK]] + Pieces(p[CHUNK..])
  }

  /** What is left after the full pieces. */
  function Rest(p: Bytes): (r: Bytes)
    ensures |r| < CHUNK
    decreases |p|
  {
    if |p| < CHUNK then p else Rest(p[CHUNK..])
  }

  function Flatten(parts: seq<Bytes>): Bytes {
    if parts == [] then [] else Flatten(parts[..|parts| - 1]) + parts[|parts| - 1]
  }

  /** Each packet as one binary frame. */
  function Audios(packets: seq<Bytes>): (a: seq<AsrFrame>)
    ensures |a| == |packets|
  {
    seq(|packets|, i requires 0 <= i < |packets| => Audio(packets[i]))
  }

  lemma AudiosAppend(pieces: seq<Bytes>, piece: Bytes)
    ensures Audios(pieces + [piece]) == Audios(pieces) + [Audio(piece)]
  {
  }

  lemma FlattenAppend(parts: seq<Bytes>, part: Bytes)
    ensures Flatten(parts + [part]) == Flatten(parts) + part
  {
    assert (parts + [part])[..|parts|] == parts;
  }

  lemma {:induction false} FlattenConcat(a: seq<Bytes>, b: seq<Bytes>)
    ensures Flatten(a + b) == Flatten(a) + Flatten(b)
    decreases |b|
  {
    if b == [] {
      assert a + b == a;
    } else {
      var front := b[..|b| - 1];
      assert (a + b)[..|a + b| - 1] == a + front;
      FlattenConcat(a, front);
      assert Flatten(a) + Flatten(front) + b[|b| - 1] == Flatten(a) + Flatten(b);
    }
  }

  lemma {:induction false} FlattenSize(parts: seq<Bytes>, size: nat)
    requires forall i | 0 <= i < |parts| :: |parts[i]| == size
    ensures |Flatten(parts)| == size * |parts|
    decreases |parts|
  {
    if parts != [] {
      FlattenSize(parts[..|parts| - 1], size);
    }
  }

  /** Nothing is lost or reordered. */
  lemma {:induction false} PiecesKeep(p: Bytes)
    ensures Flatten(Pieces(p)) + Rest(p) == p
    decreases |p|
  {
    if |p| >= CHUNK {
      var head, q := p[..CHUNK], p[CHUNK..];
      PiecesKeep(q);
      FlattenConcat([head], Pieces(q));
      assert Flatten([head]) == head by { assert [head][..0] == []; }
      assert head + Flatten(Pieces(q)) + Rest(q) == head + (Flatten(Pieces(q)) + Rest(q));
      assert p == head + q;
    }
  }

  /** There are floor(n / 19200) pieces, and the rest is shorter than one. */
  lemma {:induction false} PiecesCount(p: Bytes)
    ensures |p| == CHUNK * |Pieces(p)| + |Rest(p)|
    ensures |Pieces(p)| == |p| / CHUNK && |Rest(p)| == |p| % CHUNK
    decreases |p|
  {
    if |p| >= CHUNK {
      PiecesCount(p[CHUNK..]);
    }
  }

  /** Every piece is full, and is the slice at its own position. */
  lemma {:induction false} PiecesAreSlices(p: Bytes, i: nat)
    requires i < |Pieces(p)|
    ensures CHUNK * (i + 1) <= |p|
    ensures Pieces(p)[i] == p[CHUNK * i..CHUNK * (i + 1)]
    decreases |p|
  {
    if i > 0 {
      var q := p[CHUNK..];
      PiecesAreSlices(q, i - 1);
      var from, to := CHUNK * (i - 1), CHUNK * i;
      assert q[from..to] == p[from + CHUNK..to + CHUNK];
    }
  }

  /** Cutting can be resumed: the rest of the first part goes in front of the second. */
  lemma {:induction false} PiecesResume(p: Bytes, q: Bytes)
    ensures Pieces(p + q) == Pieces(p) + Pieces(Rest(p) + q)
    ensures Rest(p + q) == Rest(Rest(p) + q)
    decreases |p|
  {
    if |p| >= CHUNK {
      var head, tail := p[..CHUNK], p[CHUNK..];
      var pq := p + q;
      PiecesResume(tail, q);
      assert pq[..CHUNK] == head;
      assert pq[CHUNK..] == tail + q;
      assert Pieces(pq) == [head] + Pieces(tail + q);
      assert Pieces(p) == [head] + Pieces(tail);
    } else {
      assert Pieces(p) == [] && Rest(p) == p;
    }
  }
}
