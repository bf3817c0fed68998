/** How much a reader may read from an offset right now. */
module Reader {
  import opened Types
  import opened Geometry

  datatype Host = Host(layout: Layout, pieces: seq<PieceEntry>, dirty: set<RequestIndex>) {

    predicate Complete(piece: PieceIndex) {
      piece < |pieces| && pieces[piece].complete
    }

    /** A torrent byte that can be read: its piece is verified or, for a responsive reader, its
        block has been written. */
    predicate Available(byte: int, responsive: bool)
      requires layout.Valid()
    {
      && 0 <= byte < layout.total
      && (Complete(byte / layout.pieceLength) || (responsive && layout.FocusIndex(byte).value in dirty))
    }
  }

  /** All bytes of a block share its piece and its request index. */
  lemma SameBlock(g: Layout, off: int, byte: int)
    requires g.Valid() && 0 <= off <= byte < g.total
    requires var start := off % g.pieceLength / BLOCK_SIZE * BLOCK_SIZE;
             byte - off < Min(g.pieceLength - start, BLOCK_SIZE) - (off % g.pieceLength - start)
    ensures byte / g.pieceLength == off / g.pieceLength && g.FocusIndex(byte) == g.FocusIndex(off)
  {
    var r := off % g.pieceLength;
    SameQuotient(off, byte, g.pieceLength);
    SameQuotient(r, r + (byte - off), BLOCK_SIZE);
  }

  lemma SameQuotient(x: nat, y: nat, d: nat)
    requires d > 0 && x <= y && y - x < d - x % d
    ensures y / d == x / d && y % d == x % d + (y - x)
  {
    DivModUnique(x / d, d, x % d + (y - x));
    assert y == x / d * d + (x % d + (y - x));
  }

  /** The longest run of readable bytes from `offset`, capped at `len`; steps over whole blocks
      and takes back what the last one has too much. A negative `len` comes back as it is. */
  method Have(info: Option<Host>, offset: int, len: int, responsive: bool) returns (ret: int)
    requires info.Some? ==> info.value.layout.Valid()
    ensures info.None? ==> ret == 0
    ensures info.Some? && len < 0 ==> ret == len
    ensures info.Some? && len >= 0 ==> 0 <= ret <= len
    ensures info.Some? ==> forall b :: offset <= b < offset + ret ==> info.value.Available(b, responsive)
    ensures info.Some? && ret < len ==> !info.value.Available(offset + ret, responsive)
  {
    if info.None? {
      return 0;
    }
    var h := info.value;
    var g := h.layout;
    var off, max := offset, len;
    ret := 0;
    while max > 0
      invariant ret >= 0 && off == offset + ret && max == len - ret
      invariant forall b :: offset <= b < offset + ret ==> h.Available(b, responsive)
      decreases max
    {
      if off < 0 || off >= g.total {
        break;
      }
      var piece: PieceIndex, inPiece := off / g.pieceLength, off % g.pieceLength;
      var chunkStart := inPiece / BLOCK_SIZE * BLOCK_SIZE;
      var pieceEnd := Min((piece + 1) * g.pieceLength, g.total);
      var pieceBase := piece * g.pieceLength;
      var chunkLen := Min(pieceEnd - (pieceBase + chunkStart), BLOCK_SIZE);
      var complete := h.Complete(piece);
      if !responsive && !complete {
        break;
      }
      if !complete {
        ReaderBlock(g, off);
        if g.ReqIndex(piece, chunkStart) !in h.dirty {
          break;
        }
      }
      var len1 := chunkLen - (inPiece - chunkStart);
      StepBounds(g, off, len1);
      forall b | off <= b < off + len1
        ensures h.Available(b, responsive)
      {
        ReaderBlock(g, off);
        SameBlock(g, off, b);
      }
      max := max - len1;
      ret := ret + len1;
      off := off + len1;
    }
    if max < 0 {
      ret := ret + max;
    }
  }

  /** The reader's block is the focus block. */
  lemma ReaderBlock(g: Layout, off: int)
    requires g.Valid() && 0 <= off < g.total
    ensures g.FocusIndex(off) ==
            Some(g.ReqIndex(off / g.pieceLength, off % g.pieceLength / BLOCK_SIZE * BLOCK_SIZE))
  {
    DivModUnique(off % g.pieceLength / BLOCK_SIZE, BLOCK_SIZE, 0);
  }

  /** A step is never empty and stays in the block, the piece and the torrent. */
  lemma StepBounds(g: Layout, off: int, step: int)
    requires g.Valid() && 0 <= off < g.total
    requires var piece, inPiece := off / g.pieceLength, off % g.pieceLength;
             var start := inPiece / BLOCK_SIZE * BLOCK_SIZE;
             step == Min(Min((piece + 1) * g.pieceLength, g.total) - (piece * g.pieceLength + start), BLOCK_SIZE)
                     - (inPiece - start)
    ensures 0 < step && off + step <= g.total
    ensures var inPiece := off % g.pieceLength;
            var start := inPiece / BLOCK_SIZE * BLOCK_SIZE;
            step <= Min(g.pieceLength - start, BLOCK_SIZE) - (inPiece - start)
  {
    var q := off / g.pieceLength;
    assert (q + 1) * g.pieceLength == q * g.pieceLength + g.pieceLength;
    assert off == q * g.pieceLength + off % g.pieceLength;
  }
}
