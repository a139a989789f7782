/** The piece-digest table: an indexed view over the `pieces` byte string of
    a BEP 3 info dictionary, the concatenation of the 20-byte SHA-1 digests
    of the pieces in order. */
module PieceDigests {
  import opened Foreign

  function Min(a: nat, b: nat): nat {
    if a <= b then a else b
  }

  /** `s[start:end]` for non-negative bounds: both bounds are clipped to the
      length of `s`, and a slice whose start is not below its end is empty. */
  function Slice(s: Bytes, start: nat, end: nat): (r: Bytes)
    ensures start <= end <= |s| ==> r == s[start..end]
    ensures start <= |s| <= end ==> r == s[start..]
    ensures |s| <= start ==> r == []
    ensures end <= start ==> r == []
  {
    var lo := Min(start, |s|);
    var hi := Min(end, |s|);
    if lo < hi then s[lo..hi] else []
  }

  /** `Pieces(pieces_buffer)`: the table keeps the buffer as it was given. */
  datatype Pieces = Pieces(buffer: Bytes) {

    /** `_piece_hash_size`: the record size, the same for every table. */
    const pieceHashSize: nat := 20

    /** `self[index]`: the record at `index`, clipped to the buffer. */
    function Get(index: nat): (r: Bytes)
      ensures |r| <= pieceHashSize
      ensures pieceHashSize * (index + 1) <= |buffer| ==>
                r == buffer[pieceHashSize * index .. pieceHashSize * index + pieceHashSize]
      ensures pieceHashSize * index < |buffer| < pieceHashSize * (index + 1) ==>
                r == buffer[pieceHashSize * index ..]
      ensures |buffer| <= pieceHashSize * index ==> r == []
    {
      var start := index * pieceHashSize;
      var end := start + pieceHashSize;
      Slice(buffer, start, end)
    }

    /** The number of indices whose record is not empty. */
    function Count(): nat {
      (|buffer| + pieceHashSize - 1) / pieceHashSize
    }

    /** The records at indices `0 .. n - 1`, concatenated in index order. */
    function Joined(n: nat): Bytes {
      if n == 0 then [] else Joined(n - 1) + Get(n - 1)
    }
  }

  /** A record is non-empty exactly below `Count()`, and every record but
      possibly the last non-empty one is a full 20-byte digest. */
  lemma RecordsUpToCount(p: Pieces, i: nat)
    ensures p.Get(i) != [] <==> i < p.Count()
    ensures i + 1 < p.Count() ==> |p.Get(i)| == 20
    ensures |p.buffer| % 20 == 0 && i < p.Count() ==> |p.Get(i)| == 20
  {
  }

  /** The first `n` records are the first `20 * n` bytes of the buffer: the
      records address adjacent ranges that leave no gap. */
  lemma {:induction false} JoinedIsPrefix(p: Pieces, n: nat)
    ensures p.Joined(n) == p.buffer[..Min(20 * n, |p.buffer|)]
  {
    if n > 0 {
      JoinedIsPrefix(p, n - 1);
      var b := p.buffer;
      if 20 * (n - 1) < |b| {
        assert b[..20 * (n - 1)] + b[20 * (n - 1) .. Min(20 * n, |b|)] == b[..Min(20 * n, |b|)];
      }
    }
  }

  /** Concatenating all records reproduces the buffer; when the buffer is a
      whole number of digests that is `|buffer| / 20` records. */
  lemma {:induction false} PiecesReassemble(p: Pieces)
    ensures p.Joined(p.Count()) == p.buffer
    ensures |p.buffer| % 20 == 0 ==> p.Count() == |p.buffer| / 20
  {
    JoinedIsPrefix(p, p.Count());
    assert p.buffer[..|p.buffer|] == p.buffer;
  }

  /** Each byte of the buffer belongs to exactly one record: changing the
      byte at offset `o` changes the record at `o / 20` and no other. */
  lemma AlteredByte(p: Pieces, o: nat, b: bv8, i: nat)
    requires o < |p.buffer| && b != p.buffer[o]
    ensures Pieces(p.buffer[o := b]).Get(i) != p.Get(i) <==> i == o / 20
  {
    var q := Pieces(p.buffer[o := b]);
    if i == o / 20 {
      assert q.Get(i)[o - 20 * i] != p.Get(i)[o - 20 * i];
    } else {
      assert o < 20 * i || 20 * i + 20 <= o;
      var lo, hi := Min(20 * i, |p.buffer|), Min(20 * i + 20, |p.buffer|);
      if lo < hi {
        assert q.buffer[lo..hi] == p.buffer[lo..hi];
      }
    }
  }
}
