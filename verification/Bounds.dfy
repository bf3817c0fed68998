/** Every index in use names a block of the torrent, so every one of them has its bits. */
module Bounds {
  import opened Types
  import opened Geometry
  import opened BlockTables
  import opened Protocol
  import opened Swarm

  ghost predicate Below(table: Table, limit: nat) {
    (forall r <- table.owners :: r < limit) && (forall r <- table.seconds :: r < limit)
  }

  /** What a connection has requested, cancelled, still expects or is writing. */
  ghost predicate Bounded(c: Conn, limit: nat) {
    && (forall r <- c.outstanding :: r < limit) && (forall r <- c.cancelled :: r < limit)
    && (forall r <- c.cancelledAt :: r < limit) && (forall r <- c.expected :: r < limit)
    && (c.write.Some? ==> c.write.value.req < limit)
  }

  ghost predicate InRange(attempts: seq<Attempt>, limit: nat) {
    forall i :: 0 <= i < |attempts| ==> attempts[i].req < limit
  }

  lemma CancelBounded(t: Table, c: Conn, me: PeerKey, reqs: set<RequestIndex>, now: int, limit: nat)
    requires Below(t, limit) && Bounded(c, limit)
    ensures var (t', c') := Cancel(t, c, me, reqs, now); Below(t', limit) && Bounded(c', limit)
  {
  }

  lemma ClaimBounded(t: Torrent, table: Table, me: PeerKey, a: Attempt, now: int, limit: nat)
    requires Below(table, limit) && a.req < limit
    ensures var table1 := TryClaim(t, table, me, a, now).1; Below(table1, limit) && Below(Undo(table1, me, a), limit)
  {
  }

  lemma SentBounded(c: Conn, req: RequestIndex, limit: nat)
    requires Bounded(c, limit) && req < limit
    ensures Bounded(Sent(c, req), limit)
  {
  }

  lemma {:induction false} ClaimAllBelow(t: Torrent, table: Table, c: Conn, me: PeerKey, attempts: seq<Attempt>, now: int, limit: nat)
    requires Below(table, limit) && InRange(attempts, limit)
    ensures Below(ClaimAll(t, table, c, me, attempts, now).0, limit)
    decreases |attempts|
  {
    if attempts != [] {
      var a := attempts[0];
      var table1 := TryClaim(t, table, me, a, now).1;
      ClaimBounded(t, table, me, a, now, limit);
      ClaimAllBelow(t, table, c, me, attempts[1..], now, limit);
      ClaimAllBelow(t, table1, c, me, attempts[1..], now, limit);
      ClaimAllBelow(t, table1, Sent(c, a.req), me, attempts[1..], now, limit);
    }
  }

  lemma {:induction false} ClaimAllBounded(t: Torrent, table: Table, c: Conn, me: PeerKey, attempts: seq<Attempt>, now: int, limit: nat)
    requires Bounded(c, limit) && InRange(attempts, limit)
    ensures Bounded(ClaimAll(t, table, c, me, attempts, now).1, limit)
    decreases |attempts|
  {
    if attempts != [] {
      var a := attempts[0];
      var table1 := TryClaim(t, table, me, a, now).1;
      SentBounded(c, a.req, limit);
      ClaimAllBounded(t, table, c, me, attempts[1..], now, limit);
      ClaimAllBounded(t, table1, c, me, attempts[1..], now, limit);
      ClaimAllBounded(t, table1, Sent(c, a.req), me, attempts[1..], now, limit);
    }
  }

  lemma RefillBounded(t: Torrent, c: Conn, me: PeerKey, refocus: bool, limit: nat, picks: seq<Attempt>, now: int, end: nat)
    requires Below(t.table, end) && Bounded(c, end) && InRange(picks, end)
    ensures var (table, c') := Refill(t, c, me, refocus, limit, picks, now); Below(table, end) && Bounded(c', end)
  {
    var gone := Displaced(t, c, me) + if refocus then Unfocused(t, c) else {};
    CancelBounded(t.table, c, me, gone, now, end);
    var (table, c1) := Reconcile(t, c, me, refocus, limit, now);
    ClaimAllBelow(t, table, c1, me, picks[..Min(Room(c1), |picks|)], now, end);
    ClaimAllBounded(t, table, c1, me, picks[..Min(Room(c1), |picks|)], now, end);
  }

  // ------------------------------------------------------------ whole runs

  ghost predicate Inv(s: State) {
    var t := s.torrent;
    && t.layout.Valid() && |t.pieces| == t.layout.NumPieces()
    && var end := t.layout.MaxEnd();
       && Below(t.table, end)
       && (forall r <- t.writing :: r < end) && (forall r <- t.dirty :: r < end)
       && (forall p <- s.conns :: Bounded(s.conns[p], end))
       && (forall b <- s.batches :: s.batches[b].stop <= end && (s.batches[b].writing ==> s.batches[b].at < s.batches[b].stop))
  }

  /** Refills ask for blocks of the torrent. */
  predicate Sensible(e: Event, end: nat) {
    e.OnRefill? ==> forall i :: 0 <= i < |e.picks| ==> e.picks[i].req < end
  }

  /** What a plain handler call leaves behind. */
  lemma PlainBounded(s: State, e: Event, end: nat)
    requires Enabled(s, e) && IsPlain(e) && Sensible(e, end)
    requires Below(s.torrent.table, end) && Bounded(s.conns[e.peer], end)
    ensures Below(Apply(s, e).torrent.table, end)
    ensures e.peer in Apply(s, e).conns && Bounded(Apply(s, e).conns[e.peer], end)
  {
    var t, c := s.torrent, s.conns[e.peer];
    match e {
      case OnRefill(p, refocus, limit, picks, now) => RefillBounded(t, c, p, refocus, limit, picks, now, end);
      case OnChoke(p, now) => CancelBounded(t.table, c.(choking := true), p, ChokedRequests(t, c), now, end);
      case OnPaused(p, now) => CancelBounded(t.table, c, p, c.outstanding, now, end);
      case OnBitfield(p, bits, now) => BitfieldBounded(t, c, p, bits, now, end);
      case OnExpire(p, expired, silent, now) => ExpireBounded(t.table, c, p, expired, silent, now, end);
      case OnReject(p, index, begin) => RejectBounded(t, c, p, index, begin, end);
      case _ =>
    }
  }

  lemma BitfieldBounded(t: Torrent, c: Conn, me: PeerKey, bits: set<PieceIndex>, now: int, end: nat)
    requires Below(t.table, end) && Bounded(c, end)
    ensures var (t', c') := Bitfield(t, c, me, bits, now); Below(t'.table, end) && Bounded(c', end)
  {
    var next := set i | i in bits && (|t.pieces| == 0 || i < |t.pieces|);
    var unavailable := set r | r in c.outstanding && t.layout.PieceOf(r) in c.pieces - next;
    CancelBounded(t.table, c.(pieces := next, haveAll := false), me, unavailable, now, end);
  }

  lemma ExpireBounded(t: Table, c: Conn, me: PeerKey, expired: set<RequestIndex>, silent: bool, now: int, end: nat)
    requires Below(t, end) && Bounded(c, end)
    ensures var (t', c') := Expire(t, c, me, expired, silent, now); Below(t', end) && Bounded(c', end)
  {
  }

  lemma RejectBounded(t: Torrent, c: Conn, me: PeerKey, index: PieceIndex, begin: nat, end: nat)
    requires Below(t.table, end) && Bounded(c, end)
    ensures var (t', c') := Reject(t, c, me, index, begin); Below(t', end) && Bounded(c', end)
  {
  }

  lemma DeliverBounded(t: Torrent, c: Conn, me: PeerKey, index: PieceIndex, begin: nat, length: nat, end: nat)
    requires Below(t.table, end) && Bounded(c, end) && (forall r <- t.writing :: r < end)
    ensures var (t', c') := Deliver(t, c, me, index, begin, length);
            && Below(t'.table, end) && Bounded(c', end) && (forall r <- t'.writing :: r < end)
            && t' == t.(table := t'.table, writing := t'.writing)
  {
  }

  lemma WrittenBounded(t: Torrent, c: Conn, me: PeerKey, ok: bool, accepted: bool, end: nat)
    requires Below(t.table, end) && Bounded(c, end) && c.write.Some?
    requires (forall r <- t.writing :: r < end) && (forall r <- t.dirty :: r < end)
    ensures var (t', c') := Written(t, c, me, ok, accepted);
            && Below(t'.table, end) && Bounded(c', end)
            && (forall r <- t'.writing :: r < end) && (forall r <- t'.dirty :: r < end)
  {
  }

  /** One connection and the torrent's blocks moved, within bounds. */
  lemma LocalKeeps(s: State, p: PeerKey, s': State)
    requires Inv(s) && p in s'.conns && s'.batches == s.batches && s'.conns == s.conns[p := s'.conns[p]]
    requires s'.torrent.layout == s.torrent.layout && |s'.torrent.pieces| == |s.torrent.pieces|
    requires var t', end := s'.torrent, s.torrent.layout.MaxEnd();
             && Below(t'.table, end) && (forall r <- t'.writing :: r < end) && (forall r <- t'.dirty :: r < end)
             && Bounded(s'.conns[p], end)
    ensures Inv(s')
  {
  }

  lemma StepKeeps(s: State, e: Event)
    requires Inv(s) && Enabled(s, e) && Sensible(e, s.torrent.layout.MaxEnd())
    ensures Inv(Apply(s, e))
  {
    SizesStep(s, e);
    if IsPlain(e) {
      PlainKeeps(s, e);
    } else if e.OnPiece? {
      DeliverBounded(s.torrent, s.conns[e.peer], e.peer, e.index, e.begin, e.length, s.torrent.layout.MaxEnd());
      LocalKeeps(s, e.peer, Apply(s, e));
    } else if e.OnWritten? {
      WrittenBounded(s.torrent, s.conns[e.peer], e.peer, e.ok, e.accepted, s.torrent.layout.MaxEnd());
      LocalKeeps(s, e.peer, Apply(s, e));
    } else {
      OtherStep(s, e);
    }
  }

  lemma PlainKeeps(s: State, e: Event)
    requires Inv(s) && Enabled(s, e) && IsPlain(e) && Sensible(e, s.torrent.layout.MaxEnd())
    ensures Inv(Apply(s, e))
  {
    PlainStep(s, e);
    PlainBounded(s, e, s.torrent.layout.MaxEnd());
    LocalKeeps(s, e.peer, Apply(s, e));
  }

  lemma OtherStep(s: State, e: Event)
    requires Inv(s) && Enabled(s, e) && !IsPlain(e) && !e.OnPiece? && !e.OnWritten?
    ensures Inv(Apply(s, e))
  {
    if e.BatchStart? || e.BatchNext? || e.BatchWritten? || e.BatchEnd? {
      BatchBounded(s, e);
    } else {
      RestBounded(s, e);
    }
  }

  lemma BatchBounded(s: State, e: Event)
    requires Inv(s) && Enabled(s, e) && (e.BatchStart? || e.BatchNext? || e.BatchWritten? || e.BatchEnd?)
    ensures Inv(Apply(s, e))
  {
    if e.BatchStart? {
      RangeInside(s.torrent.layout, e.piece);
    }
  }

  lemma RestBounded(s: State, e: Event)
    requires Inv(s) && Enabled(s, e) && !IsPlain(e) && !e.OnPiece? && !e.OnWritten?
    requires !e.BatchStart? && !e.BatchNext? && !e.BatchWritten? && !e.BatchEnd?
    ensures Inv(Apply(s, e))
  {
    SizesStep(s, e);
  }

  lemma RangeInside(g: Layout, piece: PieceIndex)
    requires g.Valid() && piece < g.NumPieces()
    ensures g.RangeEnd(piece) <= g.MaxEnd()
  {
    ChunkBounds(g, piece);
    RangeMember(g, g.RangeEnd(piece) - 1, piece);
  }

  lemma {:induction false} RunKeeps(s: State, events: seq<Event>)
    requires Inv(s) && Runs(s, events)
    requires forall i :: 0 <= i < |events| ==> Sensible(events[i], s.torrent.layout.MaxEnd())
    ensures Inv(After(s, events))
    decreases |events|
  {
    if events != [] {
      StepKeeps(s, events[0]);
      SizesStep(s, events[0]);
      assert forall i :: 0 <= i < |events[1..]| ==> events[1..][i] == events[i + 1];
      RunKeeps(Apply(s, events[0]), events[1..]);
    }
  }

  /** In every run whose refills ask for blocks of the torrent, every block anybody owns, copies,
      requested, cancelled, expects or writes is inside the bit sets. */
  lemma EveryIndexHasItsBits(start: State, events: seq<Event>, peer: PeerKey)
    requires Initial(start) && Runs(start, events)
    requires forall i :: 0 <= i < |events| ==> Sensible(events[i], start.torrent.layout.MaxEnd())
    ensures var s := After(start, events);
            && s.torrent.layout.Valid()
            && Below(s.torrent.table, s.torrent.layout.Capacity())
            && (forall r <- s.torrent.writing + s.torrent.dirty :: r < s.torrent.layout.Capacity())
            && (peer in s.conns ==> Bounded(s.conns[peer], s.torrent.layout.Capacity()))
  {
    RunKeeps(start, events);
    CapacityCovers(After(start, events).torrent.layout);
  }
}
