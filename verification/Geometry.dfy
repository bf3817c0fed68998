/** How blocks, pieces and bytes are numbered, and how the numbers convert. */
module Geometry {
  import opened Types

  /** Request indexes, piece indexes and in-piece offsets are 32-bit in the engine. */
  const INDEX_LIMIT := 0x1_0000_0000

  datatype BlockCoord = BlockCoord(piece: PieceIndex, offset: nat, length: nat)

  function Min(a: int, b: int): int {
    if a <= b then a else b
  }

  function Max(a: int, b: int): int {
    if a >= b then a else b
  }

  function CeilDiv(a: int, b: int): int
    requires b > 0
  {
    (a + b - 1) / b
  }

  function Interval(lo: nat, hi: nat): (s: set<nat>)
    ensures forall i :: i in s <==> lo <= i < hi
    decreases hi - lo
  {
    if lo >= hi then {} else {lo} + Interval(lo + 1, hi)
  }

  /** Piece length and total length of a torrent whose info is known. */
  datatype Layout = Layout(pieceLength: int, total: int) {

    predicate Valid() {
      pieceLength > 0 && total >= 0
    }

    function ChunksPerPiece(): (c: nat)
      ensures c >= 1
    {
      Max(CeilDiv(pieceLength, BLOCK_SIZE), 1)
    }

    function NumPieces(): nat
      requires Valid()
    {
      CeilDiv(total, pieceLength)
    }

    /** Bytes of `piece`: short for the last one, none past the end. */
    function PieceLength(piece: PieceIndex): nat {
      Max(Min((piece + 1) * pieceLength, total) - piece * pieceLength, 0)
    }

    function Coord(req: RequestIndex): BlockCoord {
      var piece := req / ChunksPerPiece();
      var offset := (req % ChunksPerPiece()) * BLOCK_SIZE;
      var length := PieceLength(piece);
      BlockCoord(piece, offset, if offset >= length then 0 else Min(BLOCK_SIZE, length - offset))
    }

    function PieceOf(req: RequestIndex): PieceIndex {
      req / ChunksPerPiece()
    }

    function ReqIndex(piece: PieceIndex, offset: nat): RequestIndex {
      piece * ChunksPerPiece() + offset / BLOCK_SIZE
    }

    /** The index of a block a peer names: nobody checks its numbers, and the arithmetic wraps. */
    function WireIndex(piece: PieceIndex, offset: nat): RequestIndex {
      ReqIndex(piece, offset) % INDEX_LIMIT
    }

    function RangeBegin(piece: PieceIndex): RequestIndex {
      piece * ChunksPerPiece()
    }

    function RangeEnd(piece: PieceIndex): RequestIndex {
      RangeBegin(piece) + CeilDiv(PieceLength(piece), BLOCK_SIZE)
    }

    /** One past the last request index; 0 for a torrent without pieces. */
    function MaxEnd(): RequestIndex
      requires Valid()
    {
      if NumPieces() == 0 then 0 else RangeEnd(NumPieces() - 1)
    }

    /** Bits in the engine's per-block bit sets: room for every piece at full length, in whole
        64-bit words. */
    function Capacity(): nat
      requires Valid()
    {
      CeilDiv(NumPieces() * ChunksPerPiece(), 64) * 64
    }

    /** Where the block holding torrent byte `off` is, as a request index. */
    function FocusIndex(off: int): Option<RequestIndex>
      requires Valid()
    {
      if off < 0 || off >= total then None
      else Some(RangeBegin(off / pieceLength) + off % pieceLength / BLOCK_SIZE)
    }

    /** The torrent bytes of block `req`. */
    predicate Holds(req: RequestIndex, byte: int) {
      var at := Coord(req).piece * pieceLength + Coord(req).offset;
      at <= byte < at + Coord(req).length
    }

    /** Bytes of the blocks `0..n`. */
    function BytesBefore(n: nat): nat {
      if n == 0 then 0 else BytesBefore(n - 1) + Coord(n - 1).length
    }

    /** Every index of this torrent fits the engine's 32-bit index types. */
    predicate Fits()
      requires Valid()
    {
      pieceLength < INDEX_LIMIT && NumPieces() * ChunksPerPiece() < INDEX_LIMIT
    }
  }

  lemma DivModUnique(q: nat, d: nat, r: nat)
    requires r < d
    ensures (q * d + r) / d == q && (q * d + r) % d == r
  {
    var n := q * d + r;
    QuotientIs(n, d, q);
    assert n == n / d * d + n % d;
  }

  lemma QuotientIs(n: nat, d: nat, q: nat)
    requires q * d <= n < q * d + d
    ensures n / d == q
  {
    var x, r := n / d, n % d;
    assert n == x * d + r && 0 <= r < d;
    if x < q {
      MulMonotone(x + 1, q, d);
    } else if x > q {
      MulMonotone(q + 1, x, d);
    }
  }

  lemma MulMonotone(a: int, b: int, d: nat)
    ensures a <= b ==> a * d <= b * d
    ensures (a + 1) * d == a * d + d && (a - 1) * d == a * d - d
  {
  }

  /** `CeilDiv(a, b)` is the least `c` with `c * b >= a`. */
  lemma CeilDivBounds(a: nat, b: nat)
    requires b > 0
    ensures var c := CeilDiv(a, b); c >= 0 && (c - 1) * b < a <= c * b && (a == 0 <==> c == 0)
  {
    var c := CeilDiv(a, b);
    assert a + b - 1 == c * b + (a + b - 1) % b;
    assert (c - 1) * b == c * b - b;
    if a == 0 {
      assert (b - 1) / b == 0 by { DivModUnique(0, b, b - 1); }
    }
    if c == 0 {
      assert a <= 0;
    }
  }

  lemma InsideExactly(g: Layout, piece: PieceIndex)
    requires g.Valid()
    ensures piece < g.NumPieces() <==> piece * g.pieceLength < g.total
    ensures piece + 1 < g.NumPieces() ==> piece * g.pieceLength + g.pieceLength < g.total
    ensures piece + 1 == g.NumPieces() ==> piece * g.pieceLength + g.pieceLength >= g.total
  {
    var n: int := g.NumPieces();
    CeilDivBounds(g.total, g.pieceLength);
    MulMonotone(piece, n - 1, g.pieceLength);
    MulMonotone(piece + 1, n - 1, g.pieceLength);
    MulMonotone(n, piece, g.pieceLength);
  }

  /** A piece is within the torrent exactly when it has bytes, and then they are its own. */
  lemma PieceBounds(g: Layout, piece: PieceIndex)
    requires g.Valid()
    ensures piece < g.NumPieces() <==> piece * g.pieceLength < g.total
    ensures piece < g.NumPieces() ==> 1 <= g.PieceLength(piece) <= g.pieceLength
    ensures piece + 1 < g.NumPieces() ==> g.PieceLength(piece) == g.pieceLength
    ensures piece + 1 == g.NumPieces() ==> piece * g.pieceLength + g.PieceLength(piece) == g.total
    ensures piece >= g.NumPieces() ==> g.PieceLength(piece) == 0
  {
    InsideExactly(g, piece);
    LengthIs(g, piece);
  }

  lemma LengthIs(g: Layout, piece: PieceIndex)
    ensures g.PieceLength(piece) == Max(Min(g.pieceLength, g.total - piece * g.pieceLength), 0)
  {
    assert (piece + 1) * g.pieceLength == piece * g.pieceLength + g.pieceLength;
  }

  /** A piece has at most `ChunksPerPiece` blocks; only the last may have fewer. */
  lemma ChunkBounds(g: Layout, piece: PieceIndex)
    requires g.Valid()
    ensures g.RangeBegin(piece) <= g.RangeEnd(piece) <= g.RangeBegin(piece) + g.ChunksPerPiece()
    ensures piece < g.NumPieces() <==> g.RangeBegin(piece) < g.RangeEnd(piece)
    ensures piece + 1 < g.NumPieces() ==> g.RangeEnd(piece) == g.RangeBegin(piece + 1)
  {
    PieceBounds(g, piece);
    CeilDivBounds(g.pieceLength, BLOCK_SIZE);
    CeilDivBounds(g.PieceLength(piece), BLOCK_SIZE);
    assert (piece + 1) * g.ChunksPerPiece() == piece * g.ChunksPerPiece() + g.ChunksPerPiece();
  }

  /** A request index in a piece's range belongs to that piece and to the torrent. */
  lemma RangeMember(g: Layout, req: RequestIndex, piece: PieceIndex)
    requires g.Valid() && g.RangeBegin(piece) <= req < g.RangeEnd(piece)
    ensures g.PieceOf(req) == piece && piece < g.NumPieces() && req < g.MaxEnd()
  {
    var c := g.ChunksPerPiece();
    var last := g.NumPieces() - 1;
    ChunkBounds(g, piece);
    DivModUnique(piece, c, req - piece * c);
    ChunkBounds(g, last);
    if piece < last {
      MulMonotone(piece + 1, last, c);
      MulMonotone(piece, last, c);
    }
  }

  /** Every request index of the torrent is in the range of its piece. */
  lemma RangeCovers(g: Layout, req: RequestIndex)
    requires g.Valid() && req < g.MaxEnd()
    ensures g.PieceOf(req) < g.NumPieces()
    ensures g.RangeBegin(g.PieceOf(req)) <= req < g.RangeEnd(g.PieceOf(req))
  {
    var c := g.ChunksPerPiece();
    var p := g.PieceOf(req);
    var last := g.NumPieces() - 1;
    ChunkBounds(g, last);
    assert req == p * c + req % c;
    MulMonotone(p, last, c);
    MulMonotone(last + 1, p, c);
    MulMonotone(last, p, c);
    ChunkBounds(g, p);
  }

  /** The request indexes of all pieces are consecutive: block `req` of the torrent is in the
      range of `PieceOf(req)` and of no other piece. */
  lemma RangesPartition(g: Layout, req: RequestIndex, piece: PieceIndex)
    requires g.Valid()
    ensures g.RangeBegin(piece) <= req < g.RangeEnd(piece) <==> req < g.MaxEnd() && g.PieceOf(req) == piece
  {
    if g.RangeBegin(piece) <= req < g.RangeEnd(piece) {
      RangeMember(g, req, piece);
    }
    if req < g.MaxEnd() {
      RangeCovers(g, req);
    }
  }

  /** The bit sets have a bit for every block of the torrent. */
  lemma CapacityCovers(g: Layout)
    requires g.Valid()
    ensures g.MaxEnd() <= g.Capacity()
  {
    var n: int, c := g.NumPieces(), g.ChunksPerPiece();
    if n > 0 {
      ChunkBounds(g, n - 1);
      MulMonotone(n - 1, n, c);
    }
    CeilDivBounds(n * c, 64);
  }

  /** The two index conversions undo each other. */
  lemma ConversionsInvert(g: Layout, req: RequestIndex, piece: PieceIndex, offset: nat)
    requires g.Valid()
    ensures g.ReqIndex(g.Coord(req).piece, g.Coord(req).offset) == req
    ensures offset < g.pieceLength ==>
              g.Coord(g.ReqIndex(piece, offset)).piece == piece &&
              g.Coord(g.ReqIndex(piece, offset)).offset == offset - offset % BLOCK_SIZE
    ensures offset < g.PieceLength(piece) ==>
              g.RangeBegin(piece) <= g.ReqIndex(piece, offset) < g.RangeEnd(piece)
  {
    var c := g.ChunksPerPiece();
    assert req == (req / c) * c + req % c;
    if offset < g.pieceLength {
      CeilDivBounds(g.pieceLength, BLOCK_SIZE);
      assert offset / BLOCK_SIZE < c;
      DivModUnique(piece, c, offset / BLOCK_SIZE);
    }
    if offset < g.PieceLength(piece) {
      CeilDivBounds(g.PieceLength(piece), BLOCK_SIZE);
    }
  }

  /** Every byte of the torrent is in exactly one block, the one the focus index names. */
  lemma FocusNamesTheBlock(g: Layout, byte: int, req: RequestIndex)
    requires g.Valid()
    ensures 0 <= byte < g.total <==> g.FocusIndex(byte).Some?
    ensures g.FocusIndex(byte).Some? ==> g.FocusIndex(byte).value < g.MaxEnd()
    ensures byte >= 0 ==> (g.Holds(req, byte) <==> g.FocusIndex(byte) == Some(req))
  {
    if 0 <= byte < g.total {
      FocusedByteIsHeld(g, byte);
    }
    if byte >= 0 && g.Holds(req, byte) {
      HeldByteIsFocused(g, byte, req);
    }
  }

  lemma FocusedByteIsHeld(g: Layout, byte: nat)
    requires g.Valid() && byte < g.total
    ensures var req := g.FocusIndex(byte).value; req < g.MaxEnd() && g.Holds(req, byte)
  {
    var piece := byte / g.pieceLength;
    var off := byte % g.pieceLength;
    assert byte == piece * g.pieceLength + off;
    InPiece(g, piece, off);
    ConversionsInvert(g, 0, piece, off);
    RangeMember(g, g.ReqIndex(piece, off), piece);
  }

  lemma InPiece(g: Layout, piece: PieceIndex, off: nat)
    requires g.Valid() && off < g.pieceLength && piece * g.pieceLength + off < g.total
    ensures off < g.PieceLength(piece)
  {
    assert (piece + 1) * g.pieceLength == piece * g.pieceLength + g.pieceLength;
  }

  lemma HeldByteIsFocused(g: Layout, byte: nat, req: RequestIndex)
    requires g.Valid() && g.Holds(req, byte)
    ensures g.FocusIndex(byte) == Some(req)
  {
    var at := g.Coord(req);
    PieceBounds(g, at.piece);
    var off := byte - at.piece * g.pieceLength;
    DivModUnique(at.piece, g.pieceLength, off);
    assert at.offset / BLOCK_SIZE == req % g.ChunksPerPiece();
    DivModUnique(at.offset / BLOCK_SIZE, BLOCK_SIZE, off - at.offset);
    assert (at.piece + 1) * g.pieceLength == at.piece * g.pieceLength + g.pieceLength;
    ConversionsInvert(g, req, at.piece, at.offset);
  }

  /** The blocks before `req` hold exactly the bytes before its first byte, so all blocks
      together hold the whole torrent: short last piece and odd piece lengths included. */
  lemma {:induction false} BlocksSumToTotal(g: Layout, req: RequestIndex)
    requires g.Valid() && req <= g.MaxEnd()
    ensures req < g.MaxEnd() ==> g.BytesBefore(req) == g.Coord(req).piece * g.pieceLength + g.Coord(req).offset
    ensures req == g.MaxEnd() ==> g.BytesBefore(req) == g.total
  {
    if req == 0 {
      FirstBlock(g);
    } else {
      BlocksSumToTotal(g, req - 1);
      StepToNextBlock(g, req - 1);
    }
  }

  lemma FirstBlock(g: Layout)
    requires g.Valid()
    ensures g.Coord(0).piece == 0 && g.Coord(0).offset == 0
    ensures g.MaxEnd() == 0 ==> g.total == 0
  {
    DivModUnique(0, g.ChunksPerPiece(), 0);
    CeilDivBounds(g.total, g.pieceLength);
    if g.NumPieces() > 0 {
      ChunkBounds(g, g.NumPieces() - 1);
    }
  }

  /** The byte after block `req` is the first byte of the next block, or the torrent's end. */
  lemma StepToNextBlock(g: Layout, req: RequestIndex)
    requires g.Valid() && req < g.MaxEnd()
    ensures var here := g.Coord(req); var next := g.Coord(req + 1);
            var end := here.piece * g.pieceLength + here.offset + here.length;
            if req + 1 < g.MaxEnd() then end == next.piece * g.pieceLength + next.offset
            else end == g.total
  {
    var p := g.PieceOf(req);
    RangeCovers(g, req);
    LastBlockEnds(g, req);
    if req + 1 < g.RangeEnd(p) {
      NextInPiece(g, req);
    } else if p + 1 < g.NumPieces() {
      NextPiece(g, req);
    } else {
      PieceBounds(g, p);
    }
  }

  lemma NextInPiece(g: Layout, req: RequestIndex)
    requires g.Valid() && req < g.MaxEnd() && req + 1 < g.RangeEnd(g.PieceOf(req))
    ensures req + 1 < g.MaxEnd()
    ensures g.PieceOf(req + 1) == g.PieceOf(req) && g.Coord(req + 1).offset == g.Coord(req).offset + BLOCK_SIZE
  {
    var c, p := g.ChunksPerPiece(), g.PieceOf(req);
    RangeCovers(g, req);
    RangeMember(g, req + 1, p);
    ChunkBounds(g, p);
    DivModUnique(p, c, req - p * c);
    DivModUnique(p, c, req + 1 - p * c);
  }

  lemma NextPiece(g: Layout, req: RequestIndex)
    requires g.Valid() && req < g.MaxEnd()
    requires req + 1 == g.RangeEnd(g.PieceOf(req)) && g.PieceOf(req) + 1 < g.NumPieces()
    ensures req + 1 < g.MaxEnd()
    ensures g.Coord(req + 1).offset == 0
    ensures g.Coord(req + 1).piece * g.pieceLength == g.PieceOf(req) * g.pieceLength + g.PieceLength(g.PieceOf(req))
  {
    var p := g.PieceOf(req);
    ChunkBounds(g, p);
    ChunkBounds(g, p + 1);
    RangeMember(g, req + 1, p + 1);
    DivModUnique(p + 1, g.ChunksPerPiece(), 0);
    PieceBounds(g, p);
    MulMonotone(p, p, g.pieceLength);
  }

  /** Within a piece blocks are whole; its last block ends with the piece. */
  lemma LastBlockEnds(g: Layout, req: RequestIndex)
    requires g.Valid() && req < g.MaxEnd()
    ensures var p := g.PieceOf(req); var here := g.Coord(req);
            if req + 1 < g.RangeEnd(p) then here.length == BLOCK_SIZE
            else here.offset + here.length == g.PieceLength(p)
  {
    var p := g.PieceOf(req);
    var k := req % g.ChunksPerPiece();
    RangeCovers(g, req);
    assert req == g.RangeBegin(p) + k;
    CeilDivBounds(g.PieceLength(p), BLOCK_SIZE);
  }

  /** No index computation leaves 32 bits when the torrent's indexes fit. */
  lemma NoTruncation(g: Layout, req: RequestIndex, piece: PieceIndex, offset: nat)
    requires g.Valid() && g.Fits()
    ensures g.Coord(req).offset < INDEX_LIMIT && g.PieceLength(piece) < INDEX_LIMIT
    ensures piece < g.NumPieces() && offset < g.pieceLength ==>
              g.RangeEnd(piece) < INDEX_LIMIT && g.ReqIndex(piece, offset) < INDEX_LIMIT
    ensures g.MaxEnd() < INDEX_LIMIT
  {
    var c := g.ChunksPerPiece();
    CeilDivBounds(g.pieceLength, BLOCK_SIZE);
    PieceBounds(g, piece);
    if g.NumPieces() > 0 {
      IndexesFit(g, g.NumPieces() - 1);
    }
    if piece < g.NumPieces() && offset < g.pieceLength {
      IndexesFit(g, piece);
      assert offset / BLOCK_SIZE < c;
    }
  }

  /** A block inside a piece of the torrent, its end included, is named without wrapping. */
  lemma WireExact(g: Layout, piece: PieceIndex, offset: nat)
    requires g.Valid() && g.Fits() && piece < g.NumPieces() && offset <= g.PieceLength(piece)
    ensures g.WireIndex(piece, offset) == g.ReqIndex(piece, offset)
  {
    var c := g.ChunksPerPiece();
    PieceBounds(g, piece);
    CeilDivBounds(g.pieceLength, BLOCK_SIZE);
    assert offset / BLOCK_SIZE <= c;
    MulMonotone(piece + 1, g.NumPieces(), c);
    MulMonotone(piece, piece, c);
  }

  lemma IndexesFit(g: Layout, piece: PieceIndex)
    requires g.Valid() && g.Fits() && piece < g.NumPieces()
    ensures g.RangeEnd(piece) <= g.RangeBegin(piece) + g.ChunksPerPiece() < INDEX_LIMIT
  {
    ChunkBounds(g, piece);
    MulMonotone(piece, piece, g.ChunksPerPiece());
    MulMonotone(piece + 1, g.NumPieces(), g.ChunksPerPiece());
  }
}
