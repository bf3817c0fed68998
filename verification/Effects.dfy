/** What each event does to single blocks, holds and pieces, said without the protocol's own
    functions: which requests survive, who loses a hold, what a verdict changes. */
module Effects {
  import opened Types
  import opened Geometry
  import opened BlockTables
  import opened Protocol
  import opened Swarm

  // ------------------------------------------------------------ what a cancelling handler drops

  /** A connection's requests, cancels and awaited answers. */
  datatype Queue = Queue(
    outstanding: set<RequestIndex>,
    cancelled: set<RequestIndex>,
    cancelledAt: map<RequestIndex, int>,
    expected: map<RequestIndex, nat>,
    rejectsCancels: bool)

  function QueueOf(c: Conn): Queue {
    Queue(c.outstanding, c.cancelled, c.cancelledAt, c.expected, c.rejectsCancels)
  }

  /** The table loses exactly the holds of `me` on `gone` blocks. */
  ghost predicate Loses(t: Table, me: PeerKey, gone: set<RequestIndex>, t': Table) {
    && (forall r :: r in t'.owners <==> r in t.owners && !(t.owners[r].peer == me && r in gone))
    && (forall r <- t'.owners :: r in t.owners && t'.owners[r] == t.owners[r])
    && (forall r :: r in t'.seconds <==> r in t.seconds && !(t.seconds[r] == me && r in gone))
    && (forall r <- t'.seconds :: r in t.seconds && t'.seconds[r] == t.seconds[r])
  }

  /** Exactly the `gone` requests are cancelled: a peer that answers cancels is waited for, and every
      cancel has its time. */
  ghost predicate Cancels(q: Queue, gone: set<RequestIndex>, now: int, q': Queue) {
    && (forall r :: r in q'.outstanding <==> r in q.outstanding && r !in gone)
    && (forall r :: r in q'.cancelled <==> r in q.cancelled || (q.rejectsCancels && r in gone))
    && (forall r :: r in q'.cancelledAt <==> r in q.cancelledAt || r in gone)
    && (forall r <- q'.cancelledAt ::
          if r in gone then q'.cancelledAt[r] == now else r in q.cancelledAt && q'.cancelledAt[r] == q.cancelledAt[r])
    && q'.expected == q.expected && q'.rejectsCancels == q.rejectsCancels
  }

  /** A handler drops exactly the outstanding requests for which `gone` holds, with this peer's
      holds on them and no other hold. */
  ghost predicate Drops(t: Table, q: Queue, me: PeerKey, gone: RequestIndex -> bool, now: int, t': Table, q': Queue) {
    var dropped := set r | r in q.outstanding && gone(r);
    Loses(t, me, dropped, t') && Cancels(q, dropped, now, q')
  }

  lemma CancelDrops(t: Table, c: Conn, me: PeerKey, reqs: set<RequestIndex>, now: int, gone: RequestIndex -> bool)
    requires forall r :: r in c.outstanding ==> (gone(r) <==> r in reqs)
    ensures var (t', c') := Cancel(t, c, me, reqs, now);
            && Drops(t, QueueOf(c), me, gone, now, t', QueueOf(c'))
            && c' == c.(outstanding := c'.outstanding, cancelled := c'.cancelled, cancelledAt := c'.cancelledAt)
  {
    assert (set r | r in c.outstanding && gone(r)) == reqs * c.outstanding;
  }

  /** A request survives the reconciling half of a refill. */
  predicate Survives(t: Torrent, c: Conn, me: PeerKey, refocus: bool, r: RequestIndex) {
    && r in c.outstanding && r !in t.dirty
    && ((r in t.table.owners && t.table.owners[r].peer == me) || (r in t.table.seconds && t.table.seconds[r] == me))
    && (refocus ==> t.layout.PieceOf(r) < |t.pieces| && t.pieces[t.layout.PieceOf(r)].priority == Now)
  }

  /** A refill first drops exactly what others took or delivered and, after a seek, what is not
      wanted at once. Everything else stays requested and held. */
  lemma ReconcileDrops(t: Torrent, c: Conn, me: PeerKey, refocus: bool, limit: nat, now: int)
    ensures var (t', c') := Reconcile(t, c, me, refocus, limit, now);
            && Drops(t.table, QueueOf(c), me, (r: RequestIndex) => !Survives(t, c, me, refocus, r), now, t', QueueOf(c'))
            && c' == c.(outstanding := c'.outstanding, cancelled := c'.cancelled, cancelledAt := c'.cancelledAt,
                        pieces := c'.pieces, pipelineLimit := limit)
  {
    var reqs := Displaced(t, c, me) + if refocus then Unfocused(t, c) else {};
    CancelDrops(t.table, c, me, reqs, now, (r: RequestIndex) => !Survives(t, c, me, refocus, r));
  }

  predicate Holds(t: Table, r: RequestIndex, q: PeerKey) {
    (r in t.owners && t.owners[r].peer == q) || (r in t.seconds && t.seconds[r] == q)
  }

  /** What a refill leaves of the queue and the table before it asks for more: exactly the surviving
      requests, and every hold but this peer's on the dropped ones. */
  ghost predicate Leaves(t: Torrent, c: Conn, me: PeerKey, refocus: bool, table: Table, c1: Conn) {
    && (forall r :: r in c1.outstanding <==> Survives(t, c, me, refocus, r))
    && (forall r, p :: Holds(table, r, p) <==>
          Holds(t.table, r, p) && (p == me && r in c.outstanding ==> Survives(t, c, me, refocus, r)))
  }

  lemma ReconcileLeaves(t: Torrent, c: Conn, me: PeerKey, refocus: bool, limit: nat, now: int)
    ensures var (table, c1) := Reconcile(t, c, me, refocus, limit, now); Leaves(t, c, me, refocus, table, c1)
  {
    ReconcileDrops(t, c, me, refocus, limit, now);
  }

  /** A refill gives a peer with everything the pieces it announced before their number was known. */
  lemma ReconcilePieces(t: Torrent, c: Conn, me: PeerKey, refocus: bool, limit: nat, now: int, i: PieceIndex)
    ensures i in Reconcile(t, c, me, refocus, limit, now).1.pieces <==>
            i in c.pieces || (c.haveAll && |c.pieces| < |t.pieces| && i < |t.pieces|)
  {
  }

  /** A choke drops exactly the requests outside the allowed-fast pieces. */
  lemma ChokeDrops(t: Torrent, c: Conn, me: PeerKey, now: int)
    ensures var (t', c') := Choke(t, c, me, now);
            && Drops(t.table, QueueOf(c), me, (r: RequestIndex) => t.layout.PieceOf(r) !in c.allowedFast,
                     now, t', QueueOf(c'))
            && c' == c.(choking := true, outstanding := c'.outstanding, cancelled := c'.cancelled,
                        cancelledAt := c'.cancelledAt)
  {
    CancelDrops(t.table, c.(choking := true), me, ChokedRequests(t, c), now,
                (r: RequestIndex) => t.layout.PieceOf(r) !in c.allowedFast);
  }

  /** A bitfield drops exactly the requests in pieces the peer had and no longer claims. */
  lemma BitfieldDrops(t: Torrent, c: Conn, me: PeerKey, bits: set<PieceIndex>, now: int)
    ensures var (t', c') := Bitfield(t, c, me, bits, now);
            && (forall i :: i in c'.pieces <==> i in bits && (|t.pieces| == 0 || i < |t.pieces|)) && !c'.haveAll
            && Drops(t.table, QueueOf(c), me,
                     (r: RequestIndex) => t.layout.PieceOf(r) in c.pieces && t.layout.PieceOf(r) !in c'.pieces,
                     now, t'.table, QueueOf(c'))
            && c' == c.(pieces := c'.pieces, haveAll := false,
                        outstanding := c'.outstanding, cancelled := c'.cancelled, cancelledAt := c'.cancelledAt)
  {
    var next := set i | i in bits && (|t.pieces| == 0 || i < |t.pieces|);
    var c' := Bitfield(t, c, me, bits, now).1;
    assert c'.pieces == next;
    var unavailable := set r | r in c.outstanding && t.layout.PieceOf(r) in c.pieces - next;
    CancelDrops(t.table, c.(pieces := next, haveAll := false), me, unavailable, now,
                (r: RequestIndex) => t.layout.PieceOf(r) in c.pieces && t.layout.PieceOf(r) !in c'.pieces);
  }

  /** Old cancels are no longer waited for. */
  ghost predicate Forgets(c: Conn, expired: set<RequestIndex>, c': Conn) {
    && (forall r :: r in c'.cancelled <==> r in c.cancelled && r !in expired)
    && (forall r :: r in c'.cancelledAt <==> r in c.cancelledAt && r !in expired)
    && (forall r <- c'.cancelledAt :: r in c.cancelledAt && c'.cancelledAt[r] == c.cancelledAt[r])
    && (forall r :: r in c'.expected <==> r in c.expected && !(r in expired && r !in c.outstanding))
    && (forall r <- c'.expected :: r in c.expected && c'.expected[r] == c.expected[r])
    && c' == c.(cancelled := c'.cancelled, cancelledAt := c'.cancelledAt, expected := c'.expected)
  }

  lemma ForgetCancels(c: Conn, expired: set<RequestIndex>)
    ensures Forgets(c, expired, c.(cancelledAt := c.cancelledAt - expired, cancelled := c.cancelled - expired,
                                   expected := c.expected - (expired - c.outstanding)))
  {
  }

  /** Whoever owns the block has waited too long for it. */
  predicate Overdue(t: Table, now: int, r: RequestIndex) {
    r in t.owners && now - t.owners[r].asked > DEAD_PEER_AFTER
  }

  lemma NothingDrops(t: Table, c: Conn, me: PeerKey, gone: RequestIndex -> bool, now: int)
    requires forall r :: r in c.outstanding ==> !gone(r)
    ensures Drops(t, QueueOf(c), me, gone, now, t, QueueOf(c))
  {
    assert (set r | r in c.outstanding && gone(r)) == {};
  }

  /** Expiry forgets old cancels; only a silent peer loses requests, exactly the overdue ones, and
      its peak shrinks by as many. */
  lemma ExpireDrops(t: Table, c: Conn, me: PeerKey, expired: set<RequestIndex>, silent: bool, now: int) returns (c1: Conn)
    ensures Forgets(c, expired, c1)
    ensures var (t', c') := Expire(t, c, me, expired, silent, now);
            && Drops(t, QueueOf(c1), me, (r: RequestIndex) => silent && Overdue(t, now, r), now, t', QueueOf(c'))
            && c'.peak == Max(c.peak - |c.outstanding - c'.outstanding|, 0)
  {
    c1 := c.(cancelledAt := c.cancelledAt - expired, cancelled := c.cancelled - expired,
             expected := c.expected - (expired - c.outstanding));
    ForgetCancels(c, expired);
    var stale := StaleRequests(t, c1, now);
    if silent && stale != {} {
      StaleDrop(t, c1, me, silent, now);
    } else {
      FreshStay(t, c1, me, silent, now);
      assert c.outstanding - c1.outstanding == {};
    }
  }

  lemma StaleDrop(t: Table, c: Conn, me: PeerKey, silent: bool, now: int)
    requires silent
    ensures var stale := StaleRequests(t, c, now);
            var (t', c') := Cancel(t, c.(peak := Max(c.peak - |stale|, 0)), me, stale, now);
            && Drops(t, QueueOf(c), me, (r: RequestIndex) => silent && Overdue(t, now, r), now, t', QueueOf(c'))
            && c'.peak == Max(c.peak - |c.outstanding - c'.outstanding|, 0)
  {
    var stale := StaleRequests(t, c, now);
    var c0 := c.(peak := Max(c.peak - |stale|, 0));
    CancelDrops(t, c0, me, stale, now, (r: RequestIndex) => silent && Overdue(t, now, r));
    assert c.outstanding - Cancel(t, c0, me, stale, now).1.outstanding == stale;
  }

  lemma FreshStay(t: Table, c: Conn, me: PeerKey, silent: bool, now: int)
    requires !silent || StaleRequests(t, c, now) == {}
    ensures Drops(t, QueueOf(c), me, (r: RequestIndex) => silent && Overdue(t, now, r), now, t, QueueOf(c))
  {
    var gone := (r: RequestIndex) => silent && Overdue(t, now, r);
    assert forall r :: r in c.outstanding && gone(r) ==> r in StaleRequests(t, c, now);
    NothingDrops(t, c, me, gone, now);
  }

  // ------------------------------------------------------------ blocks and answers

  /** Answers a connection still takes for a block. */
  function Awaited(c: Conn, r: RequestIndex): nat {
    if r in c.expected then c.expected[r] else 0
  }

  /** A sent request is outstanding, undoes a cancel and adds one awaited answer. */
  lemma SentEffect(c: Conn, req: RequestIndex, r: RequestIndex)
    ensures var c' := Sent(c, req);
            && (r in c'.outstanding <==> r in c.outstanding || r == req)
            && (r in c'.cancelled <==> r in c.cancelled && r != req)
            && (r in c'.cancelledAt <==> r in c.cancelledAt && r != req)
            && Awaited(c', r) == Awaited(c, r) + if r == req then 1 else 0
  {
  }

  /** A connection after an answer for `req`: the request is over and one answer fewer is awaited. */
  ghost predicate Settles(c: Conn, req: RequestIndex, c': Conn) {
    && (forall r :: r in c'.outstanding <==> r in c.outstanding && r != req)
    && (forall r :: r in c'.cancelled <==> r in c.cancelled && r != req)
    && (forall r :: r in c'.cancelledAt <==> r in c.cancelledAt && r != req)
    && (forall r <- c'.cancelledAt :: r in c.cancelledAt && c'.cancelledAt[r] == c.cancelledAt[r])
    && (forall r :: Awaited(c', r) == if r == req then Max(Awaited(c, r) - 1, 0) else Awaited(c, r))
  }

  /** `t'` is `t` without the holds of `me` on `req`: as owner, as second copy, or both. */
  ghost predicate Yields(t: Table, me: PeerKey, req: RequestIndex, owner: bool, copy: bool, t': Table) {
    && (forall r :: r in t'.owners <==> r in t.owners && !(owner && r == req && t.owners[r].peer == me))
    && (forall r <- t'.owners :: r in t.owners && t'.owners[r] == t.owners[r])
    && (forall r :: r in t'.seconds <==> r in t.seconds && !(copy && r == req && t.seconds[r] == me))
    && (forall r <- t'.seconds :: r in t.seconds && t'.seconds[r] == t.seconds[r])
  }

  /** An awaited block settles its request. A block of an open piece that nobody wrote or writes is
      reserved for this peer; any other costs it its claims. */
  lemma AcceptEffect(t: Torrent, c: Conn, me: PeerKey, w: Write)
    ensures var piece := t.layout.PieceOf(w.req);
            var open := (piece < |t.pieces| ==> !t.pieces[piece].complete && !t.pieces[piece].checking) &&
                        w.req !in t.dirty && w.req !in t.writing;
            var (t', c') := Accept(t, c, me, w);
            && Yields(t.table, me, w.req, !open, true, t'.table)
            && t' == t.(table := t'.table, writing := if open then t.writing + {w.req} else t.writing)
            && Settles(c, w.req, c') && c'.write == (if open then Some(w) else c.write)
            && c' == c.(outstanding := c'.outstanding, cancelled := c'.cancelled, cancelledAt := c'.cancelledAt,
                        expected := c'.expected, write := c'.write)
  {
  }

  /** A block message is for the block its two numbers name, in 32 bits. It is taken if that is
      outstanding or an answer is awaited; a message for nothing does nothing. */
  lemma DeliverEffect(t: Torrent, c: Conn, me: PeerKey, index: PieceIndex, begin: nat, length: nat)
    ensures var req := (index * t.layout.ChunksPerPiece() + begin / BLOCK_SIZE) % 0x1_0000_0000;
            Deliver(t, c, me, index, begin, length) ==
            if req in c.outstanding || Awaited(c, req) > 0 then Accept(t, c, me, Write(req, index, begin, length)) else (t, c)
  {
  }

  /** A reject settles the request and costs this peer its holds on the block; only a live request
      lowers the peak. */
  lemma RejectEffect(t: Torrent, c: Conn, me: PeerKey, index: PieceIndex, begin: nat)
    ensures var req := (index * t.layout.ChunksPerPiece() + begin / BLOCK_SIZE) % 0x1_0000_0000;
            var (t', c') := Reject(t, c, me, index, begin);
            && Settles(c, req, c') && Yields(t.table, me, req, true, true, t')
            && c'.peak == (if req in c.outstanding && c.peak > 0 then c.peak - 1 else c.peak)
            && c' == c.(outstanding := c'.outstanding, cancelled := c'.cancelled, cancelledAt := c'.cancelledAt,
                        expected := c'.expected, peak := c'.peak)
  {
  }

  /** A finished write leaves its reservation. A stored block is received, its piece begun, and
      nobody holds it any more; a failed one is only given back by its writer. */
  lemma WrittenEffect(t: Torrent, c: Conn, me: PeerKey, ok: bool, accepted: bool)
    requires c.write.Some?
    ensures var w := c.write.value;
            var filled := t.layout.PieceOf(w.req);
            var (t', c') := Written(t, c, me, ok, accepted);
            && c' == c.(write := None)
            && (forall r :: r in t'.writing <==> r in t.writing && r != w.req)
            && (forall r :: r in t'.dirty <==> r in t.dirty || (ok && r == w.req))
            && (if ok then Frees(t.table, w.req, t'.table) else Yields(t.table, me, w.req, true, false, t'.table))
            && |t'.pieces| == |t.pieces|
            && (forall i :: 0 <= i < |t.pieces| ==>
                  t'.pieces[i] == t.pieces[i].(partial := t.pieces[i].partial || (ok && i == filled),
                                               checking := t.pieces[i].checking || t'.pieces[i].checking))
            && (!ok ==> t'.jobs == t.jobs && forall i :: 0 <= i < |t.pieces| ==> t'.pieces[i] == t.pieces[i])
  {
  }

  /** `t'` is `t` without any hold on `req`. */
  ghost predicate Frees(t: Table, req: RequestIndex, t': Table) {
    && (forall r :: r in t'.owners <==> r in t.owners && r != req)
    && (forall r <- t'.owners :: r in t.owners && t'.owners[r] == t.owners[r])
    && (forall r :: r in t'.seconds <==> r in t.seconds && r != req)
    && (forall r <- t'.seconds :: r in t.seconds && t'.seconds[r] == t.seconds[r])
  }

  /** A piece goes to the hasher exactly when all its blocks are there, it is neither verified nor
      under check, and the hasher takes it. */
  lemma QueueEffect(t: Torrent, piece: PieceIndex, accepted: bool)
    ensures var begin := piece * t.layout.ChunksPerPiece();
            var end := begin + CeilDiv(t.layout.PieceLength(piece), BLOCK_SIZE);
            var queued := accepted && piece < |t.pieces| && !t.pieces[piece].complete && !t.pieces[piece].checking &&
                          begin < end && forall r :: begin <= r < end ==> r in t.dirty;
            var t' := t.QueueIfFull(piece, accepted);
            && t' == t.(pieces := t'.pieces, jobs := t'.jobs)
            && t'.jobs == (if queued then t.jobs + multiset{piece} else t.jobs)
            && |t'.pieces| == |t.pieces|
            && (forall i :: 0 <= i < |t.pieces| ==>
                  t'.pieces[i] == t.pieces[i].(checking := t.pieces[i].checking || (queued && i == piece)))
  {
  }

  /** A connection that ends, or is dropped, holds nothing; every other hold stays. */
  lemma ForgetEffect(t: Table, me: PeerKey)
    ensures var t' := t.Forget(me);
            && (forall r :: r in t'.owners <==> r in t.owners && t.owners[r].peer != me)
            && (forall r <- t'.owners :: r in t.owners && t'.owners[r] == t.owners[r])
            && (forall r :: r in t'.seconds <==> r in t.seconds && t.seconds[r] != me)
            && (forall r <- t'.seconds :: r in t.seconds && t'.seconds[r] == t.seconds[r])
  {
  }

  // ------------------------------------------------------------ nobody else loses

  /** `q` may lose its hold on `r` to this event: it is `q`'s own, a steal that names it, or the
      delivery of the block. */
  predicate MayLose(s: State, e: Event, r: RequestIndex, q: PeerKey)
    requires Enabled(s, e)
  {
    match e
    case OnRefill(p, _, _, picks, _) => p == q || exists i :: 0 <= i < |picks| && picks[i].req == r && picks[i].take == From(q)
    case OnWritten(p, ok, _) => p == q || (ok && s.conns[p].write.value.req == r)
    case Dropped(p) => p == q
    case BatchStart(_, _, _, _) => false
    case BatchNext(_) => false
    case BatchWritten(_, _) => false
    case BatchEnd(_, _) => false
    case Hashed(_, _) => false
    case Refreshed(_, _, _, _) => false
    case Prioritised(_, _) => false
    case _ => e.peer == q
  }

  lemma {:induction false} ClaimsTakeNamed(t: Torrent, table: Table, c: Conn, me: PeerKey, attempts: seq<Attempt>, now: int,
                                           r: RequestIndex, q: PeerKey)
    requires q != me && Holds(table, r, q)
    requires !exists i :: 0 <= i < |attempts| && attempts[i].req == r && attempts[i].take == From(q)
    ensures Holds(ClaimAll(t, table, c, me, attempts, now).0, r, q)
    decreases |attempts|
  {
    if attempts != [] {
      var a := attempts[0];
      var (claimed, table1) := TryClaim(t, table, me, a, now);
      assert !(a.req == r && a.take == From(q));
      assert forall i :: 0 <= i < |attempts[1..]| ==> attempts[1..][i] == attempts[i + 1];
      ClaimKeepsOther(t, table, me, a, now, r, q);
      if a.req in c.outstanding {
        ClaimsTakeNamed(t, table, c, me, attempts[1..], now, r, q);
      } else if !claimed {
        ClaimsTakeNamed(t, table1, c, me, attempts[1..], now, r, q);
      } else if a.sent {
        ClaimsTakeNamed(t, table1, Sent(c, a.req), me, attempts[1..], now, r, q);
      }
    }
  }

  lemma ClaimKeepsOther(t: Torrent, table: Table, me: PeerKey, a: Attempt, now: int, r: RequestIndex, q: PeerKey)
    requires q != me && Holds(table, r, q) && !(a.req == r && a.take == From(q))
    ensures var (claimed, table1) := TryClaim(t, table, me, a, now);
            Holds(table1, r, q) && (claimed ==> Holds(Undo(table1, me, a), r, q))
  {
  }

  lemma RefillTakesNamed(t: Torrent, c: Conn, me: PeerKey, refocus: bool, limit: nat, picks: seq<Attempt>, now: int,
                         r: RequestIndex, q: PeerKey)
    requires q != me && Holds(t.table, r, q)
    requires !exists i :: 0 <= i < |picks| && picks[i].req == r && picks[i].take == From(q)
    ensures Holds(Refill(t, c, me, refocus, limit, picks, now).0, r, q)
  {
    ReconcileDrops(t, c, me, refocus, limit, now);
    var (table, c1) := Reconcile(t, c, me, refocus, limit, now);
    var some := picks[..Min(Room(c1), |picks|)];
    assert forall i :: 0 <= i < |some| ==> some[i] == picks[i];
    ClaimsTakeNamed(t, table, c1, me, some, now, r, q);
  }

  /** No event takes a hold from a peer that is not its own, unless it is a steal that names the
      peer or the delivery of that very block. */
  lemma NobodyElseLoses(s: State, e: Event, r: RequestIndex, q: PeerKey)
    requires Enabled(s, e) && Holds(s.torrent.table, r, q) && !MayLose(s, e, r, q)
    ensures Holds(Apply(s, e).torrent.table, r, q)
  {
    if e.OnRefill? {
      RefillTakesNamed(s.torrent, s.conns[e.peer], e.peer, e.refocus, e.limit, e.picks, e.now, r, q);
    } else if e.OnWritten? {
      WrittenEffect(s.torrent, s.conns[e.peer], e.peer, e.ok, e.accepted);
    } else if e.OnPiece? {
      var req := s.torrent.layout.WireIndex(e.index, e.begin);
      AcceptEffect(s.torrent, s.conns[e.peer], e.peer, Write(req, e.index, e.begin, e.length));
    } else if e.OnChoke? || e.OnBitfield? || e.OnExpire? || e.OnPaused? {
      CancelLoses(s, e, r, q);
    } else {
      RestLoses(s, e, r, q);
    }
  }

  lemma CancelLoses(s: State, e: Event, r: RequestIndex, q: PeerKey)
    requires Enabled(s, e) && Holds(s.torrent.table, r, q) && !MayLose(s, e, r, q)
    requires e.OnChoke? || e.OnBitfield? || e.OnExpire? || e.OnPaused?
    ensures Holds(Apply(s, e).torrent.table, r, q)
  {
    var t := s.torrent;
    match e {
      case OnChoke(p, now) => ChokeDrops(t, s.conns[p], p, now);
      case OnBitfield(p, bits, now) => BitfieldDrops(t, s.conns[p], p, bits, now);
      case OnExpire(p, expired, silent, now) => var c1 := ExpireDrops(t.table, s.conns[p], p, expired, silent, now);
      case OnPaused(p, now) => CancelDrops(t.table, s.conns[p], p, s.conns[p].outstanding, now, (x: RequestIndex) => true);
    }
  }

  lemma RestLoses(s: State, e: Event, r: RequestIndex, q: PeerKey)
    requires Enabled(s, e) && Holds(s.torrent.table, r, q) && !MayLose(s, e, r, q)
    requires !e.OnRefill? && !e.OnWritten? && !e.OnPiece? && !e.OnChoke? && !e.OnBitfield? && !e.OnExpire? && !e.OnPaused?
    ensures Holds(Apply(s, e).torrent.table, r, q)
  {
    if e.OnReject? {
      RejectEffect(s.torrent, s.conns[e.peer], e.peer, e.index, e.begin);
    } else if e.OnClosed? || e.Dropped? {
      ForgetEffect(s.torrent.table, e.peer);
    }
  }

  // ------------------------------------------------------------ verdicts

  /** Only `piece` changes, and of it neither number, priority nor length. */
  ghost predicate OnlyPiece(t: Torrent, piece: PieceIndex, t': Torrent) {
    && piece < |t.pieces| == |t'.pieces|
    && (forall i :: 0 <= i < |t.pieces| && i != piece ==> t'.pieces[i] == t.pieces[i])
    && t'.pieces[piece].index == t.pieces[piece].index && t'.pieces[piece].priority == t.pieces[piece].priority
    && t'.pieces[piece].chunks == t.pieces[piece].chunks
  }

  /** The received blocks are the same, or `lost` those of `piece`. */
  ghost predicate BlocksLeft(t: Torrent, piece: PieceIndex, lost: bool, t': Torrent) {
    var begin := piece * t.layout.ChunksPerPiece();
    var end := begin + CeilDiv(t.layout.PieceLength(piece), BLOCK_SIZE);
    forall r :: r in t'.dirty <==> r in t.dirty && !(lost && begin <= r < end)
  }

  /** A verdict ends the check. A piece is complete exactly when its hash was right; otherwise it
      has no block left and is fetched again if it is wanted. */
  lemma HashedEffect(t: Torrent, piece: PieceIndex, valid: bool)
    requires piece < |t.pieces|
    ensures var t' := t.HashResult(piece, valid);
            var p, p' := t.pieces[piece], t'.pieces[piece];
            && OnlyPiece(t, piece, t') && BlocksLeft(t, piece, !valid, t')
            && p'.complete == valid && !p'.checking && p'.ok && p'.partial == (valid && p.partial)
            && t' == t.(pieces := t'.pieces, dirty := t'.dirty, jobs := t.jobs - multiset{piece})
            && (!valid && p.priority != Unwanted ==> p'.Requestable())
  {
  }

  /** Some received block of `piece`. */
  ghost predicate AnyReceived(t: Torrent, piece: PieceIndex) {
    exists r :: r in t.dirty && piece * t.layout.ChunksPerPiece() <= r
                && r < piece * t.layout.ChunksPerPiece() + CeilDiv(t.layout.PieceLength(piece), BLOCK_SIZE)
  }

  /** A refresh makes a piece complete exactly when storage says so. Its blocks are lost exactly
      when it was complete and is not, or when there was data that can no longer be read; a lost
      piece starts over. */
  lemma RefreshedEffect(t: Torrent, piece: PieceIndex, storedComplete: bool, storedOk: bool, readable: bool)
    requires piece < |t.pieces|
    ensures var t' := t.Refresh(piece, storedComplete, storedOk, readable);
            var p, p' := t.pieces[piece], t'.pieces[piece];
            var complete := storedOk && storedComplete;
            var lost := !complete && (p.complete || ((p.partial || AnyReceived(t, piece)) && !readable));
            && OnlyPiece(t, piece, t') && BlocksLeft(t, piece, lost, t')
            && p'.complete == complete && p'.ok == storedOk
            && p'.partial == (p.partial && !lost) && p'.checking == (p.checking && !lost)
            && t' == t.(pieces := t'.pieces, dirty := t'.dirty)
  {
    var blocks := t.BlocksOf(piece);
    assert AnyReceived(t, piece) <==> t.dirty * blocks != {} by {
      if AnyReceived(t, piece) {
        var r :| r in t.dirty && piece * t.layout.ChunksPerPiece() <= r
                 && r < piece * t.layout.ChunksPerPiece() + CeilDiv(t.layout.PieceLength(piece), BLOCK_SIZE);
        assert r in t.dirty * blocks;
      }
    }
  }

  // ------------------------------------------------------------ refills and extents

  /** A refill changes a connection's requests, its limit and its peak; and a peer with everything
      gets the pieces it announced before their number was known. */
  lemma RefillShape(t: Torrent, c: Conn, me: PeerKey, refocus: bool, limit: nat, picks: seq<Attempt>, now: int)
    ensures var c' := Refill(t, c, me, refocus, limit, picks, now).1;
            && c' == c.(outstanding := c'.outstanding, expected := c'.expected, cancelled := c'.cancelled,
                        cancelledAt := c'.cancelledAt, pieces := c'.pieces, peak := c'.peak, pipelineLimit := limit)
            && c'.peak == Max(c.peak, |c'.outstanding|)
            && forall i :: i in c'.pieces <==> i in c.pieces || (c.haveAll && |c.pieces| < |t.pieces| && 0 <= i < |t.pieces|)
  {
    var (table, c1) := Reconcile(t, c, me, refocus, limit, now);
    ReconcileDrops(t, c, me, refocus, limit, now);
    ClaimAllShape(t, table, c1, me, picks[..Min(Room(c1), |picks|)], now);
    forall i: PieceIndex
      ensures i in c1.pieces <==> i in c.pieces || (c.haveAll && |c.pieces| < |t.pieces| && i < |t.pieces|)
    {
      ReconcilePieces(t, c, me, refocus, limit, now, i);
    }
  }

  /** A peer's own request limit counts up to what the protocol allows; none is no limit at all. */
  lemma ReqqEffect(s: State, p: PeerKey, requests: nat)
    requires Enabled(s, OnReqq(p, requests))
    ensures var s', most := Apply(s, OnReqq(p, requests)), ((1024 * 1024) - (512 * 1024) - 5) / 17;
            && p in s'.conns && s'.conns[p] == s.conns[p].(maxRequests := s'.conns[p].maxRequests)
            && s'.conns[p].maxRequests ==
               (if requests == 0 then s.conns[p].maxRequests else if requests > most then most else requests)
  {
  }

  /** The table and the queue after some claims: who owns a block owned it before, at the same time, or
      is this peer as of now; each new request is awaited once more and no longer cancelled. */
  ghost predicate Dated(table: Table, c: Conn, me: PeerKey, now: int, table': Table, c': Conn) {
    && (forall r <- table'.owners ::
          (r in table.owners && table'.owners[r] == table.owners[r]) || table'.owners[r] == Request(me, now))
    && (forall r :: if r in c'.outstanding && r !in c.outstanding
                    then Awaited(c', r) == Awaited(c, r) + 1 && r !in c'.cancelled && r !in c'.cancelledAt
                    else Awaited(c', r) == Awaited(c, r) && (r in c'.cancelled <==> r in c.cancelled) &&
                         (r in c'.cancelledAt <==> r in c.cancelledAt))
  }

  lemma DatedTwice(table: Table, c: Conn, me: PeerKey, now: int, table1: Table, c1: Conn, table': Table, c': Conn)
    requires Dated(table, c, me, now, table1, c1) && Dated(table1, c1, me, now, table', c')
    requires c.outstanding <= c1.outstanding <= c'.outstanding
    ensures Dated(table, c, me, now, table', c')
  {
  }

  lemma ClaimDates(t: Torrent, table: Table, c: Conn, me: PeerKey, a: Attempt, now: int)
    requires a.req !in c.outstanding
    ensures var (claimed, table1) := TryClaim(t, table, me, a, now);
            && Dated(table, c, me, now, table1, if claimed then Sent(c, a.req) else c)
            && Dated(table, c, me, now, Undo(table1, me, a), c)
  {
  }

  lemma {:induction false} ClaimsDate(t: Torrent, table: Table, c: Conn, me: PeerKey, attempts: seq<Attempt>, now: int)
    ensures var (table', c') := ClaimAll(t, table, c, me, attempts, now);
            c.outstanding <= c'.outstanding && Dated(table, c, me, now, table', c')
    decreases |attempts|
  {
    if attempts != [] {
      var a, rest := attempts[0], attempts[1..];
      if a.req in c.outstanding {
        ClaimsDate(t, table, c, me, rest, now);
      } else {
        var (claimed, table1) := TryClaim(t, table, me, a, now);
        ClaimDates(t, table, c, me, a, now);
        if !claimed || a.sent {
          var c1 := if claimed then Sent(c, a.req) else c;
          var (table', c') := ClaimAll(t, table1, c1, me, rest, now);
          ClaimsDate(t, table1, c1, me, rest, now);
          DatedTwice(table, c, me, now, table1, c1, table', c');
        }
      }
    }
  }

  /** The claims of a refill are dated now, and each request it sends is awaited once more. */
  lemma RefillDates(t: Torrent, c: Conn, me: PeerKey, refocus: bool, limit: nat, picks: seq<Attempt>, now: int)
    ensures var (table, c1) := Reconcile(t, c, me, refocus, limit, now);
            var (table', c') := Refill(t, c, me, refocus, limit, picks, now);
            Dated(table, c1, me, now, table', c')
  {
    var (table, c1) := Reconcile(t, c, me, refocus, limit, now);
    ClaimsDate(t, table, c1, me, picks[..Min(Room(c1), |picks|)], now);
  }

  /** A web seed goes through its extent block by block: it reserves a block of an open piece that
      nobody wrote or writes and passes over any other; a stored block is received and its piece
      begun; a failed write gives the block back and ends the extent. */
  lemma BatchEffect(s: State, e: Event)
    requires Enabled(s, e) && (e.BatchNext? || e.BatchWritten?)
    ensures var t, t', b, b' := s.torrent, Apply(s, e).torrent, s.batches[e.id], Apply(s, e).batches[e.id];
            var piece := t.layout.PieceOf(b.at);
            var open := (piece < |t.pieces| ==> !t.pieces[piece].complete && !t.pieces[piece].checking) &&
                        b.at !in t.dirty && b.at !in t.writing;
            && b' == b.(at := b'.at, writing := b'.writing) && Apply(s, e).batches == s.batches[e.id := b']
            && (e.BatchNext? ==>
                  && t' == t.(writing := if open then t.writing + {b.at} else t.writing)
                  && b'.writing == open && b'.at == if open then b.at else b.at + 1)
            && (e.BatchWritten? ==>
                  && t'.writing == t.writing - {b.at} && t'.dirty == (if e.ok then t.dirty + {b.at} else t.dirty)
                  && |t'.pieces| == |t.pieces|
                  && (forall i :: 0 <= i < |t.pieces| ==>
                        t'.pieces[i] == t.pieces[i].(partial := t.pieces[i].partial || (e.ok && i == piece)))
                  && t' == t.(writing := t'.writing, dirty := t'.dirty, pieces := t'.pieces)
                  && !b'.writing && b'.at == if e.ok then b.at + 1 else b.stop)
  {
  }
}
