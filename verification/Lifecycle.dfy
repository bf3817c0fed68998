/** The write, hash and evict lifecycle of pieces: when a full piece reaches the hasher. */
module Lifecycle {
  import opened Types
  import opened Geometry
  import opened BlockTables
  import opened Protocol
  import opened Swarm

  /** Whoever can be inside a storage write. */
  datatype Writer = Peer(key: PeerKey) | Seed(id: nat)

  /** The block `w` is writing now. */
  function InFlight(s: State, w: Writer): Option<RequestIndex> {
    match w
    case Peer(p) => if p in s.conns && s.conns[p].write.Some? then Some(s.conns[p].write.value.req) else None
    case Seed(b) => if b in s.batches && s.batches[b].writing then Some(s.batches[b].at) else None
  }

  /** A write reservation is one writer's, and no reserved block is readable yet. */
  ghost predicate Reserved(s: State) {
    && s.torrent.writing !! s.torrent.dirty
    && (forall w :: InFlight(s, w).Some? ==> InFlight(s, w).value in s.torrent.writing)
    && (forall r :: r in s.torrent.writing ==> exists w :: InFlight(s, w) == Some(r))
    && (forall w, v :: w != v && InFlight(s, w).Some? ==> InFlight(s, w) != InFlight(s, v))
  }

  ghost predicate InBatch(batches: map<nat, Batch>, piece: PieceIndex) {
    exists b :: b in batches && batches[b].piece == piece
  }

  /** A full piece is verified, being checked, or a web seed that will still check it is at work. */
  ghost predicate Served(t: Torrent, batches: map<nat, Batch>) {
    forall p :: 0 <= p < |t.pieces| && t.AllDirty(p) ==> t.Busy(p) || InBatch(batches, p)
  }

  /** A piece being checked has every block. */
  ghost predicate CheckedIsFull(t: Torrent) {
    forall p :: 0 <= p < |t.pieces| && t.pieces[p].checking ==> t.AllDirty(p)
  }

  /** A piece being checked has a job with the hasher. */
  ghost predicate CheckedIsQueued(t: Torrent) {
    forall p :: 0 <= p < |t.pieces| && t.pieces[p].checking ==> p in t.jobs
  }

  ghost predicate BatchesFit(s: State) {
    forall b :: b in s.batches ==>
      var batch := s.batches[b];
      && batch.piece < |s.torrent.pieces|
      && s.torrent.layout.RangeBegin(batch.piece) <= batch.at <= batch.stop <= s.torrent.layout.RangeEnd(batch.piece)
      && (batch.writing ==> batch.at < batch.stop)
  }

  ghost predicate Inv(s: State) {
    && s.torrent.layout.Valid() && |s.torrent.pieces| == s.torrent.layout.NumPieces()
    && Reserved(s) && BatchesFit(s) && CheckedIsFull(s.torrent) && CheckedIsQueued(s.torrent)
    && Served(s.torrent, s.batches)
  }

  /** The one way a full piece is forgotten: the event that filled it, or the last web seed on it,
      did not hand it to the hasher. A delivered block is hashed under the piece index its message
      names, so an empty block addressed past the end of one piece can fill the next one unseen. */
  ghost predicate Strands(s: State, e: Event)
    requires Enabled(s, e)
  {
    var t := s.torrent;
    match e
    case OnWritten(p, ok, accepted) =>
      var w := s.conns[p].write.value;
      var filled := t.layout.PieceOf(w.req);
      && ok && filled < |t.pieces| && t.FinishWrite(w.req, true).AllDirty(filled)
      && !t.Busy(filled) && !InBatch(s.batches, filled)
      && !(accepted && w.piece == filled)
    case BatchEnd(id, accepted) =>
      var piece := s.batches[id].piece;
      && piece < |t.pieces| && t.AllDirty(piece) && !t.Busy(piece) && !InBatch(s.batches - {id}, piece) && !accepted
    case _ => false
  }

  // ------------------------------------------------------------ reservations

  lemma Unreserve(s: State, s': State, w: Writer)
    requires Reserved(s) && InFlight(s, w).Some?
    requires forall v :: InFlight(s', v) == if v == w then None else InFlight(s, v)
    requires s'.torrent.writing == s.torrent.writing - {InFlight(s, w).value}
    requires s'.torrent.dirty <= s.torrent.dirty + {InFlight(s, w).value}
    ensures Reserved(s')
  {
    var req := InFlight(s, w).value;
    forall r | r in s'.torrent.writing
      ensures exists v :: InFlight(s', v) == Some(r)
    {
      var v :| InFlight(s, v) == Some(r);
      assert InFlight(s', v) == Some(r);
    }
  }

  lemma Reserve(s: State, s': State, w: Writer, req: RequestIndex)
    requires Reserved(s) && InFlight(s, w).None? && req !in s.torrent.dirty && req !in s.torrent.writing
    requires forall v :: InFlight(s', v) == if v == w then Some(req) else InFlight(s, v)
    requires s'.torrent.writing == s.torrent.writing + {req}
    requires s'.torrent.dirty == s.torrent.dirty
    ensures Reserved(s')
  {
    forall r | r in s'.torrent.writing
      ensures exists v :: InFlight(s', v) == Some(r)
    {
      if r == req {
        assert InFlight(s', w) == Some(r);
      } else {
        var v :| InFlight(s, v) == Some(r);
        assert InFlight(s', v) == Some(r);
      }
    }
  }

  lemma SameFlights(s: State, s': State)
    requires Reserved(s)
    requires forall v :: InFlight(s', v) == InFlight(s, v)
    requires s'.torrent.writing == s.torrent.writing && s'.torrent.dirty <= s.torrent.dirty
    ensures Reserved(s')
  {
    forall r | r in s'.torrent.writing
      ensures exists v :: InFlight(s', v) == Some(r)
    {
      var v :| InFlight(s, v) == Some(r);
      assert InFlight(s', v) == Some(r);
    }
  }

  predicate IsWrite(e: Event) {
    e.OnPiece? || e.OnWritten? || e.BatchNext? || e.BatchWritten?
  }

  lemma WriteStep(s: State, e: Event)
    requires Reserved(s) && Enabled(s, e) && IsWrite(e)
    ensures Reserved(Apply(s, e))
  {
    var s' := Apply(s, e);
    match e
    case OnPiece(p, i, b, len) =>
      var req := s.torrent.layout.WireIndex(i, b);
      if s.conns[p].Expects(req) && s.torrent.MayWrite(req) {
        Reserve(s, s', Peer(p), req);
      } else {
        SameFlights(s, s');
      }
    case OnWritten(p, _, _) => Unreserve(s, s', Peer(p));
    case BatchNext(id) =>
      if s.torrent.MayWrite(s.batches[id].at) {
        Reserve(s, s', Seed(id), s.batches[id].at);
      } else {
        SameFlights(s, s');
      }
    case BatchWritten(id, _) => Unreserve(s, s', Seed(id));
  }

  /** An event without a write makes no block readable. */
  lemma NoWriteToTorrent(s: State, e: Event)
    requires Enabled(s, e) && !IsWrite(e)
    ensures Apply(s, e).torrent.writing == s.torrent.writing && Apply(s, e).torrent.dirty <= s.torrent.dirty
  {
    if IsPlain(e) {
      PlainStep(s, e);
    }
  }

  /** An event without a write moves no block into or out of flight. */
  lemma NoWriteInFlight(s: State, e: Event)
    requires Enabled(s, e) && !IsWrite(e)
    ensures forall v :: InFlight(Apply(s, e), v) == InFlight(s, v)
  {
    if IsPlain(e) {
      PlainStep(s, e);
    }
  }

  /** No event lets two writers share a block or leaves a reservation behind. */
  lemma ReservationStep(s: State, e: Event)
    requires Reserved(s) && Enabled(s, e)
    ensures Reserved(Apply(s, e))
  {
    if IsWrite(e) {
      WriteStep(s, e);
    } else {
      NoWriteToTorrent(s, e);
      NoWriteInFlight(s, e);
      SameFlights(s, Apply(s, e));
    }
  }

  // ------------------------------------------------------------ full pieces

  /** Nothing about which pieces are full, complete or being checked changed. */
  ghost predicate SameProgress(t: Torrent, t': Torrent) {
    && t'.layout == t.layout && t'.dirty == t.dirty && |t'.pieces| == |t.pieces|
    && (forall i :: 0 <= i < |t.pieces| ==>
          t'.pieces[i].complete == t.pieces[i].complete && t'.pieces[i].checking == t.pieces[i].checking)
  }

  lemma SameProgressKeeps(t: Torrent, t': Torrent)
    requires SameProgress(t, t')
    ensures forall p: PieceIndex :: t'.AllDirty(p) <==> t.AllDirty(p)
    ensures forall p: PieceIndex :: t'.Busy(p) <==> t.Busy(p)
    ensures CheckedIsFull(t') <==> CheckedIsFull(t)
  {
  }

  /** A new block can only fill its own piece. */
  lemma WriteFills(t: Torrent, req: RequestIndex, p: PieceIndex)
    requires t.layout.Valid()
    ensures t.AllDirty(p) ==> t.FinishWrite(req, true).AllDirty(p)
    ensures t.FinishWrite(req, true).AllDirty(p) && p != t.layout.PieceOf(req) ==> t.AllDirty(p)
  {
    if t.layout.RangeBegin(p) <= req < t.layout.RangeEnd(p) {
      RangeMember(t.layout, req, p);
    }
    assert forall r :: r in t.dirty ==> r in t.FinishWrite(req, true).dirty;
    assert forall r :: r in t.FinishWrite(req, true).dirty ==> r in t.dirty || r == req;
  }

  /** Losing a piece's blocks empties that piece only. */
  lemma LossEmpties(t: Torrent, t': Torrent, lost: PieceIndex, p: PieceIndex)
    requires t.layout.Valid() && t'.layout == t.layout && t'.dirty == t.dirty - t.BlocksOf(lost)
    requires lost < t.layout.NumPieces()
    ensures t'.AllDirty(p) <==> t.AllDirty(p) && p != lost
  {
    ChunkBounds(t.layout, lost);
    if p == lost {
      assert t.layout.RangeBegin(lost) !in t'.dirty;
    } else {
      forall r | t.layout.RangeBegin(p) <= r < t.layout.RangeEnd(p)
        ensures r in t'.dirty <==> r in t.dirty
      {
        RangeMember(t.layout, r, p);
        if t.layout.RangeBegin(lost) <= r < t.layout.RangeEnd(lost) {
          RangeMember(t.layout, r, lost);
        }
      }
    }
  }

  /** Events that change neither full pieces nor web-seed batches. */
  predicate IsNeutral(e: Event) {
    IsPlain(e) || e.Attach? || e.OnClosed? || e.Dropped? || e.OnPiece? || e.Prioritised?
  }

  lemma NeutralStep(s: State, e: Event)
    requires Enabled(s, e) && IsNeutral(e)
    ensures SameProgress(s.torrent, Apply(s, e).torrent) && Apply(s, e).batches == s.batches
  {
    if IsPlain(e) {
      PlainStep(s, e);
    }
  }

  lemma QueueKeeps(t: Torrent, piece: PieceIndex, accepted: bool)
    requires CheckedIsFull(t)
    ensures var t' := t.QueueIfFull(piece, accepted);
            && CheckedIsFull(t') && t'.layout == t.layout && |t'.pieces| == |t.pieces|
            && (forall p: PieceIndex :: t'.AllDirty(p) <==> t.AllDirty(p))
            && (forall p: PieceIndex :: t'.Busy(p) <==> t.Busy(p) || (p == piece && p < |t.pieces| && t.AllDirty(p) && accepted))
  {
    var t' := t.QueueIfFull(piece, accepted);
    assert t'.dirty == t.dirty;
  }

  lemma FinishKeeps(t: Torrent, req: RequestIndex, written: bool)
    requires t.layout.Valid() && CheckedIsFull(t)
    ensures var t' := t.FinishWrite(req, written);
            && CheckedIsFull(t') && t'.layout == t.layout && |t'.pieces| == |t.pieces|
            && (forall p: PieceIndex :: t'.Busy(p) <==> t.Busy(p))
  {
    var t' := t.FinishWrite(req, written);
    if written {
      forall p | 0 <= p < |t'.pieces| && t'.pieces[p].checking
        ensures t'.AllDirty(p)
      {
        WriteFills(t, req, p);
      }
    } else {
      SameProgressKeeps(t, t');
    }
  }

  lemma WrittenStep(s: State, e: Event)
    requires Inv(s) && Enabled(s, e) && e.OnWritten?
    ensures CheckedIsFull(Apply(s, e).torrent)
    ensures Served(Apply(s, e).torrent, Apply(s, e).batches) <==> !Strands(s, e)
  {
    var t, c := s.torrent, s.conns[e.peer];
    var w := c.write.value;
    var t1 := t.FinishWrite(w.req, e.ok);
    FinishKeeps(t, w.req, e.ok);
    forall p
      ensures t1.AllDirty(p) <==> if e.ok then t.AllDirty(p) || (p == t.layout.PieceOf(w.req) && t1.AllDirty(p)) else t.AllDirty(p)
    {
      WriteFills(t, w.req, p);
    }
    if e.ok {
      var t2 := t1.(table := Table(t1.table.owners - {w.req}, t1.table.seconds - {w.req}));
      SameProgressKeeps(t1, t2);
      QueueKeeps(t2, w.piece, e.accepted);
    } else {
      SameProgressKeeps(t1, Apply(s, e).torrent);
    }
  }

  lemma BatchStep(s: State, e: Event)
    requires Inv(s) && Enabled(s, e) && (e.BatchStart? || e.BatchNext? || e.BatchWritten?)
    ensures CheckedIsFull(Apply(s, e).torrent)
    ensures Served(Apply(s, e).torrent, Apply(s, e).batches)
  {
    var t, s' := s.torrent, Apply(s, e);
    forall p | InBatch(s.batches, p)
      ensures InBatch(s'.batches, p)
    {
      var b :| b in s.batches && s.batches[b].piece == p;
      assert b in s'.batches && s'.batches[b].piece == p;
    }
    if e.BatchWritten? {
      var b := s.batches[e.id];
      FinishKeeps(t, b.at, e.ok);
      RangeMember(t.layout, b.at, b.piece);
      assert s'.batches[e.id].piece == b.piece;
      forall p | s'.torrent.AllDirty(p) && !t.AllDirty(p)
        ensures p == b.piece
      {
        WriteFills(t, b.at, p);
      }
    } else {
      SameProgressKeeps(t, s'.torrent);
    }
  }

  lemma BatchEndStep(s: State, e: Event)
    requires Inv(s) && Enabled(s, e) && e.BatchEnd?
    ensures CheckedIsFull(Apply(s, e).torrent)
    ensures Served(Apply(s, e).torrent, Apply(s, e).batches) <==> !Strands(s, e)
  {
    var s' := Apply(s, e);
    var piece := s.batches[e.id].piece;
    QueueKeeps(s.torrent, piece, e.accepted);
    forall p | p != piece && InBatch(s.batches, p)
      ensures InBatch(s'.batches, p)
    {
      var b :| b in s.batches && s.batches[b].piece == p;
      assert b in s'.batches && s'.batches[b].piece == p;
    }
  }

  /** Full pieces after a verdict or a refresh of `piece`: it keeps its blocks or loses them all. */
  lemma VerdictFills(t: Torrent, t': Torrent, piece: PieceIndex, p: PieceIndex)
    requires t.layout.Valid() && t'.layout == t.layout && piece < t.layout.NumPieces()
    requires t'.dirty == t.dirty || t'.dirty == t.dirty - t.BlocksOf(piece)
    ensures t'.AllDirty(p) <==> t.AllDirty(p) && (p != piece || t'.dirty == t.dirty)
  {
    if t'.dirty != t.dirty {
      LossEmpties(t, t', piece, p);
    }
  }

  lemma HashedKeeps(t: Torrent, batches: map<nat, Batch>, piece: PieceIndex, valid: bool)
    requires t.layout.Valid() && |t.pieces| == t.layout.NumPieces() && piece < |t.pieces|
    requires CheckedIsFull(t) && Served(t, batches)
    ensures CheckedIsFull(t.HashResult(piece, valid)) && Served(t.HashResult(piece, valid), batches)
  {
    var t' := t.HashResult(piece, valid);
    forall p: PieceIndex
      ensures t'.AllDirty(p) <==> t.AllDirty(p) && (p != piece || t'.dirty == t.dirty)
    {
      VerdictFills(t, t', piece, p);
    }
  }

  lemma RefreshedKeeps(t: Torrent, batches: map<nat, Batch>, piece: PieceIndex, complete: bool, ok: bool, readable: bool)
    requires t.layout.Valid() && |t.pieces| == t.layout.NumPieces() && piece < |t.pieces|
    requires CheckedIsFull(t) && Served(t, batches)
    ensures var t' := t.Refresh(piece, complete, ok, readable); CheckedIsFull(t') && Served(t', batches)
  {
    var t' := t.Refresh(piece, complete, ok, readable);
    forall p: PieceIndex
      ensures t'.AllDirty(p) <==> t.AllDirty(p) && (p != piece || t'.dirty == t.dirty)
    {
      VerdictFills(t, t', piece, p);
    }
  }

  lemma VerdictStep(s: State, e: Event)
    requires Inv(s) && Enabled(s, e) && (e.Hashed? || e.Refreshed?)
    ensures CheckedIsFull(Apply(s, e).torrent)
    ensures Served(Apply(s, e).torrent, Apply(s, e).batches)
  {
    if e.Hashed? {
      HashedKeeps(s.torrent, s.batches, e.piece, e.valid);
    } else {
      RefreshedKeeps(s.torrent, s.batches, e.piece, e.storedComplete, e.storedOk, e.readable);
    }
  }

  lemma BatchesStep(s: State, e: Event)
    requires Inv(s) && Enabled(s, e)
    ensures BatchesFit(Apply(s, e))
  {
    SizesStep(s, e);
    if IsNeutral(e) {
      NeutralStep(s, e);
    }
  }

  lemma FinishKeepsJobs(t: Torrent, req: RequestIndex, written: bool)
    requires CheckedIsQueued(t)
    ensures CheckedIsQueued(t.FinishWrite(req, written))
  {
  }

  lemma QueueKeepsJobs(t: Torrent, table: Table, piece: PieceIndex, accepted: bool)
    requires CheckedIsQueued(t)
    ensures CheckedIsQueued(t.(table := table).QueueIfFull(piece, accepted))
  {
  }

  lemma VerdictKeepsJobs(t: Torrent, piece: PieceIndex, a: bool, b: bool, c: bool)
    requires CheckedIsQueued(t) && piece < |t.pieces|
    ensures CheckedIsQueued(t.HashResult(piece, a)) && CheckedIsQueued(t.Refresh(piece, a, b, c))
  {
  }

  /** Every event keeps a job behind every piece being checked. */
  lemma JobsStep(s: State, e: Event)
    requires CheckedIsQueued(s.torrent) && Enabled(s, e)
    ensures CheckedIsQueued(Apply(s, e).torrent)
  {
    var t := s.torrent;
    if e.OnWritten? {
      var req := s.conns[e.peer].write.value.req;
      FinishKeepsJobs(t, req, e.ok);
      var t1 := t.FinishWrite(req, e.ok);
      QueueKeepsJobs(t1, Table(t1.table.owners - {req}, t1.table.seconds - {req}),
                     s.conns[e.peer].write.value.piece, e.accepted);
    } else if e.BatchEnd? {
      QueueKeepsJobs(t, t.table, s.batches[e.id].piece, e.accepted);
    } else if e.BatchWritten? {
      FinishKeepsJobs(t, s.batches[e.id].at, e.ok);
    } else if e.Hashed? {
      VerdictKeepsJobs(t, e.piece, e.valid, false, false);
    } else if e.Refreshed? {
      VerdictKeepsJobs(t, e.piece, e.storedComplete, e.storedOk, e.readable);
    } else {
      NoJobsStep(s, e);
    }
  }

  lemma NoJobsStep(s: State, e: Event)
    requires Enabled(s, e) && (IsNeutral(e) || e.BatchStart? || e.BatchNext?)
    requires CheckedIsQueued(s.torrent)
    ensures CheckedIsQueued(Apply(s, e).torrent)
  {
    if IsPlain(e) {
      PlainStep(s, e);
    }
  }

  /** Exactly what keeps every full piece on its way to the hasher: from any good state, an event
      leads to a good state if and only if it is not one that strands a piece. */
  lemma StepExact(s: State, e: Event)
    requires Inv(s) && Enabled(s, e)
    ensures Inv(Apply(s, e)) <==> !Strands(s, e)
  {
    ReservationStep(s, e);
    SizesStep(s, e);
    BatchesStep(s, e);
    JobsStep(s, e);
    if IsNeutral(e) {
      NeutralStep(s, e);
      SameProgressKeeps(s.torrent, Apply(s, e).torrent);
    } else if e.OnWritten? {
      WrittenStep(s, e);
    } else if e.BatchEnd? {
      BatchEndStep(s, e);
    } else if e.Hashed? || e.Refreshed? {
      VerdictStep(s, e);
    } else {
      BatchStep(s, e);
    }
  }

  // ------------------------------------------------------------ whole runs

  /** The piece a block message names is the piece its block belongs to, or the block has bytes
      and indexes fit (so that storage itself refuses a misaddressed one); and the hasher takes
      every job. */
  predicate Proper(g: Layout, e: Event) {
    match e
    case OnPiece(_, index, begin, length) => Addresses(g, g.WireIndex(index, begin), index, length)
    case OnWritten(_, _, accepted) => accepted
    case BatchEnd(_, accepted) => accepted
    case _ => true
  }

  predicate Addresses(g: Layout, req: RequestIndex, piece: PieceIndex, length: nat) {
    (g.Valid() && g.Fits() && length > 0) || g.PieceOf(req) == piece
  }

  predicate WellAddressed(g: Layout, w: Write) {
    w.req == g.WireIndex(w.piece, w.begin) && Addresses(g, w.req, w.piece, w.length)
  }

  /** A block whose named index wrapped is never inside the piece it names, so storage refuses it. */
  lemma WrappedIsRefused(t: Torrent, w: Write)
    requires t.layout.Valid() && t.layout.Fits() && |t.pieces| == t.layout.NumPieces()
    requires w.req == t.layout.WireIndex(w.piece, w.begin) && w.req != t.layout.ReqIndex(w.piece, w.begin)
    ensures !InBounds(t, w)
  {
    if InBounds(t, w) {
      WireExact(t.layout, w.piece, w.begin);
    }
  }

  ghost predicate Addressed(s: State) {
    forall p :: p in s.conns && s.conns[p].write.Some? ==> WellAddressed(s.torrent.layout, s.conns[p].write.value)
  }

  lemma AddressedStep(s: State, e: Event)
    requires Inv(s) && Addressed(s) && Enabled(s, e) && Proper(s.torrent.layout, e)
    ensures Addressed(Apply(s, e))
  {
    SizesStep(s, e);
    if !IsWrite(e) {
      NoWriteInFlightOfPeers(s, e);
    } else {
      AddressedWrite(s, e);
    }
  }

  lemma AddressedWrite(s: State, e: Event)
    requires Inv(s) && Addressed(s) && Enabled(s, e) && Proper(s.torrent.layout, e) && IsWrite(e)
    ensures Addressed(Apply(s, e))
  {
    SizesStep(s, e);
  }

  lemma NoWriteInFlightOfPeers(s: State, e: Event)
    requires Enabled(s, e) && !IsWrite(e)
    ensures var s' := Apply(s, e);
            forall p :: p in s'.conns && s'.conns[p].write.Some? ==> p in s.conns && s'.conns[p].write == s.conns[p].write
  {
    if IsPlain(e) {
      PlainStep(s, e);
    }
  }

  /** A block storage accepted belongs to the piece its message named, unless it is empty and
      addressed exactly one whole piece further, where the next piece's first block begins. */
  lemma MisaddressedExactly(t: Torrent, w: Write)
    requires t.layout.Valid() && InBounds(t, w) && w.req == t.layout.ReqIndex(w.piece, w.begin)
    requires |t.pieces| == t.layout.NumPieces()
    ensures t.layout.PieceOf(w.req) != w.piece <==>
              w.length == 0 && w.begin == t.layout.pieceLength && t.layout.pieceLength % BLOCK_SIZE == 0
    ensures t.layout.PieceOf(w.req) != w.piece ==> w.req == t.layout.RangeBegin(w.piece + 1)
  {
    var g := t.layout;
    PieceBounds(g, w.piece);
    if w.begin < g.pieceLength {
      ConversionsInvert(g, 0, w.piece, w.begin);
    } else {
      CeilDivBounds(g.pieceLength, BLOCK_SIZE);
      var c := g.ChunksPerPiece();
      MulMonotone(w.piece, w.piece, c);
      if g.pieceLength % BLOCK_SIZE == 0 {
        DivModUnique(w.piece + 1, c, 0);
      } else {
        DivModUnique(w.piece, c, g.pieceLength / BLOCK_SIZE);
      }
    }
  }

  lemma ProperNeverStrands(s: State, e: Event)
    requires Inv(s) && Addressed(s) && Enabled(s, e) && Proper(s.torrent.layout, e)
    ensures !Strands(s, e)
  {
    if e.OnWritten? && e.ok {
      var w := s.conns[e.peer].write.value;
      if s.torrent.layout.PieceOf(w.req) != w.piece {
        WireExact(s.torrent.layout, w.piece, w.begin);
        MisaddressedExactly(s.torrent, w);
      }
    }
  }

  lemma {:induction false} RunKeeps(s: State, events: seq<Event>)
    requires Inv(s) && Addressed(s) && Runs(s, events)
    requires forall i :: 0 <= i < |events| ==> Proper(s.torrent.layout, events[i])
    ensures Inv(After(s, events))
    decreases |events|
  {
    if events != [] {
      var e, s' := events[0], Apply(s, events[0]);
      ProperNeverStrands(s, e);
      StepExact(s, e);
      AddressedStep(s, e);
      SizesStep(s, e);
      assert forall i :: 0 <= i < |events[1..]| ==> events[1..][i] == events[i + 1];
      RunKeeps(s', events[1..]);
    }
  }

  /** No piece is stranded in any run of well-addressed blocks with a willing hasher: a full piece is
      verified, being checked, or about to be checked by the web seed still writing to it; and a
      piece being checked is full, with a job at the hasher and no writer inside it. */
  lemma NoPieceStranded(start: State, events: seq<Event>, piece: PieceIndex, w: Writer)
    requires Initial(start) && Runs(start, events)
    requires forall i :: 0 <= i < |events| ==> Proper(start.torrent.layout, events[i])
    ensures var s := After(start, events);
            piece < |s.torrent.pieces| ==>
              && (s.torrent.AllDirty(piece) ==> s.torrent.Busy(piece) || InBatch(s.batches, piece))
              && (s.torrent.pieces[piece].checking ==> s.torrent.AllDirty(piece) && piece in s.torrent.jobs)
              && (s.torrent.pieces[piece].checking && InFlight(s, w).Some? ==>
                    !(s.torrent.layout.RangeBegin(piece) <= InFlight(s, w).value < s.torrent.layout.RangeEnd(piece)))
  {
    InitialHolds(start);
    RunKeeps(start, events);
  }

  lemma InitialHolds(s: State)
    requires Initial(s)
    ensures Inv(s) && Addressed(s)
  {
    forall p: PieceIndex
      ensures !s.torrent.AllDirty(p)
    {
      assert s.torrent.layout.RangeBegin(p) !in s.torrent.dirty;
    }
  }
}
