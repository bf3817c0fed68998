/** What each connection, web seed and hasher event does to the shared torrent state. */
module Protocol {
  import opened Types
  import opened Geometry
  import opened BlockTables

  /** A received block on its way into storage. */
  datatype Write = Write(req: RequestIndex, piece: PieceIndex, begin: nat, length: nat)

  /** One connection's private request and availability state. */
  datatype Conn = Conn(
    outstanding: set<RequestIndex>,
    cancelled: set<RequestIndex>,
    cancelledAt: map<RequestIndex, int>,
    expected: map<RequestIndex, nat>,
    peak: nat,
    maxRequests: nat,
    pipelineLimit: nat,
    choking: bool,
    haveAll: bool,
    pieces: set<PieceIndex>,
    allowedFast: set<PieceIndex>,
    rejectsCancels: bool,
    write: Option<Write>)
  {
    predicate Expects(req: RequestIndex) {
      req in outstanding || (req in expected && expected[req] > 0)
    }

    /** A queue of `n` requests respects every limit: one is always allowed, the queue at most
        doubles, and the peer's, the protocol's and the playback's limits hold. */
    predicate Allows(n: nat) {
      && n <= Max(peak * 2, 1) && n <= Max(maxRequests, 1) && n <= MAX_LOCAL_TO_REMOTE_REQUESTS
      && (pipelineLimit > 0 ==> n <= pipelineLimit)
    }

    /** Requests this connection may have in flight: the most that respects every limit. */
    function Nominal(): (limit: nat)
      ensures limit >= 1 && Allows(limit)
      ensures forall n: nat :: Allows(n) ==> n <= limit
    {
      var base := Max(Min(Min(peak * 2, maxRequests), MAX_LOCAL_TO_REMOTE_REQUESTS), 1);
      if pipelineLimit > 0 then Min(base, pipelineLimit) else base
    }
  }

  const DEFAULT_PEER_MAX_REQUESTS := 250
  const MAX_LOCAL_TO_REMOTE_REQUESTS := ((1024 * 1024) - (512 * 1024) - 5) / 17
  /** Milliseconds without a block after which a peer's old requests are dropped. */
  const DEAD_PEER_AFTER := 30_000

  function NewConn(rejectsCancels: bool): Conn {
    Conn({}, {}, map[], map[], 0, DEFAULT_PEER_MAX_REQUESTS, 0, true, false, {}, {}, rejectsCancels, None)
  }

  /** The torrent state all handlers share. */
  datatype Torrent = Torrent(
    layout: Layout,
    table: Table,
    writing: set<RequestIndex>,
    dirty: set<RequestIndex>,
    pieces: seq<PieceEntry>,
    jobs: multiset<PieceIndex>,
    announced: seq<int>,
    haveAllPeers: int)
  {
    predicate Busy(piece: PieceIndex) {
      piece < |pieces| && (pieces[piece].complete || pieces[piece].checking)
    }

    predicate AllDirty(piece: PieceIndex) {
      layout.RangeBegin(piece) < layout.RangeEnd(piece) &&
      forall r :: layout.RangeBegin(piece) <= r < layout.RangeEnd(piece) ==> r in dirty
    }

    function Priority(piece: PieceIndex): PiecePriority {
      if piece < |pieces| then pieces[piece].priority else Unwanted
    }

    /** A received block may be written: its piece is open and nobody wrote or writes it. */
    predicate MayWrite(req: RequestIndex) {
      !Busy(layout.PieceOf(req)) && req !in dirty && req !in writing
    }

    /** The reservation goes, and a block that was written is marked. */
    function FinishWrite(req: RequestIndex, written: bool): Torrent {
      var t := this.(writing := writing - {req});
      if !written then t else t.(dirty := dirty + {req}, pieces := MarkPartial(layout.PieceOf(req)))
    }

    function MarkPartial(piece: PieceIndex): (ps: seq<PieceEntry>)
      ensures |ps| == |pieces|
    {
      if piece < |pieces| then pieces[piece := pieces[piece].(partial := true)] else pieces
    }

    /** Hands a piece to the hasher. `accepted`: it has a v1 hash and the pool took the job. */
    function QueueHash(piece: PieceIndex, accepted: bool): Torrent {
      if piece >= |pieces| || Busy(piece) || !accepted then this
      else this.(pieces := pieces[piece := pieces[piece].(checking := true)], jobs := jobs + multiset{piece})
    }

    function QueueIfFull(piece: PieceIndex, accepted: bool): Torrent {
      if AllDirty(piece) then QueueHash(piece, accepted) else this
    }

    function BlocksOf(piece: PieceIndex): set<RequestIndex> {
      Interval(layout.RangeBegin(piece), layout.RangeEnd(piece))
    }

    /** The hasher's verdict: a failed piece loses its blocks. */
    function HashResult(piece: PieceIndex, valid: bool): Torrent
      requires piece < |pieces|
    {
      var entry := pieces[piece].(checking := false, complete := valid, ok := true,
                                  partial := valid && pieces[piece].partial);
      this.(pieces := pieces[piece := entry], jobs := jobs - multiset{piece},
            dirty := if valid then dirty else dirty - BlocksOf(piece))
    }

    /** Re-reads a piece's state from storage: bounded storage may have dropped it.
        `readable`: probing the piece's first byte succeeds. */
    function Refresh(piece: PieceIndex, storedComplete: bool, storedOk: bool, readable: bool): Torrent
      requires piece < |pieces|
    {
      var p := pieces[piece];
      var complete := storedOk && storedComplete;
      var hadData := p.complete || p.partial || dirty * BlocksOf(piece) != {};
      var lost := !complete && hadData && !readable;
      var evicted := (p.complete && !complete) || lost;
      if !lost && p.complete == complete && p.ok == storedOk then this
      else if evicted then
        this.(pieces := pieces[piece := p.(complete := complete, ok := storedOk, partial := false, checking := false)],
              dirty := dirty - BlocksOf(piece))
      else
        this.(pieces := pieces[piece := p.(complete := complete, ok := storedOk)])
    }
  }

  // ------------------------------------------------------------ cancelling

  /** Cancels those of `reqs` that are outstanding, in whatever order they are visited. */
  function Cancel(t: Table, c: Conn, me: PeerKey, reqs: set<RequestIndex>, now: int): (Table, Conn) {
    var gone := reqs * c.outstanding;
    (t.Withdraw(gone, me),
     c.(outstanding := c.outstanding - gone,
        cancelled := if c.rejectsCancels then c.cancelled + gone else c.cancelled,
        cancelledAt := c.cancelledAt + map r | r in gone :: now))
  }

  function ChokedRequests(t: Torrent, c: Conn): set<RequestIndex> {
    set r | r in c.outstanding && t.layout.PieceOf(r) !in c.allowedFast
  }

  function Choke(t: Torrent, c: Conn, me: PeerKey, now: int): (Table, Conn) {
    Cancel(t.table, c.(choking := true), me, ChokedRequests(t, c), now)
  }

  /** Requests this long in the table while the peer was silent. The time is the owner's,
      whoever that is by now. */
  function StaleRequests(t: Table, c: Conn, now: int): set<RequestIndex> {
    set r | r in c.outstanding && r in t.owners && now - t.owners[r].asked > DEAD_PEER_AFTER
  }

  function Expire(t: Table, c: Conn, me: PeerKey, expired: set<RequestIndex>, silent: bool, now: int): (Table, Conn) {
    var c1 := c.(cancelledAt := c.cancelledAt - expired,
                 cancelled := c.cancelled - expired,
                 expected := c.expected - (expired - c.outstanding));
    var stale := StaleRequests(t, c1, now);
    if !silent || stale == {} then (t, c1)
    else Cancel(t, c1.(peak := Max(c1.peak - |stale|, 0)), me, stale, now)
  }

  // ------------------------------------------------------------ refilling

  datatype Take = Free | Copy(eager: bool) | From(holder: PeerKey)

  /** One picked block. `granted`: the seek's eager-copy budget allows it;
      `sent`: the request message could be queued. */
  datatype Attempt = Attempt(req: RequestIndex, take: Take, granted: bool, sent: bool)

  predicate Claimable(t: Torrent, table: Table, req: RequestIndex, me: PeerKey) {
    req !in t.writing && req !in t.dirty && table.MayClaim(req, me)
  }

  /** Whether the claim succeeds, and the table after it. */
  function TryClaim(t: Torrent, table: Table, me: PeerKey, a: Attempt, now: int): (bool, Table) {
    match a.take
    case Copy(eager) =>
      if (eager ==> a.granted) && a.req !in t.dirty && a.req !in table.seconds
      then (true, table.(seconds := table.seconds[a.req := me]))
      else (false, table)
    case Free => ClaimOwner(t, table, me, a.req, now)
    case From(holder) => ClaimOwner(t, table.Release(a.req, holder), me, a.req, now)
  }

  function ClaimOwner(t: Torrent, table: Table, me: PeerKey, req: RequestIndex, now: int): (bool, Table) {
    if Claimable(t, table, req, me)
    then (true, table.(owners := table.owners[req := Request(me, now)]))
    else (false, table)
  }

  /** Gives back a claim whose request could not be sent. */
  function Undo(table: Table, me: PeerKey, a: Attempt): Table {
    if a.take.Copy? then table.(seconds := table.seconds - {a.req}) else table.Release(a.req, me)
  }

  function Sent(c: Conn, req: RequestIndex): Conn {
    c.(outstanding := c.outstanding + {req},
       expected := c.expected[req := (if req in c.expected then c.expected[req] else 0) + 1],
       cancelled := c.cancelled - {req},
       cancelledAt := c.cancelledAt - {req})
  }

  /** Claims and requests the picked blocks in turn; the first failed send ends the refill. */
  function ClaimAll(t: Torrent, table: Table, c: Conn, me: PeerKey, attempts: seq<Attempt>, now: int): (Table, Conn)
    decreases |attempts|
  {
    if attempts == [] then (table, c)
    else
      var a := attempts[0];
      if a.req in c.outstanding then ClaimAll(t, table, c, me, attempts[1..], now)
      else
        var (claimed, table1) := TryClaim(t, table, me, a, now);
        if !claimed then ClaimAll(t, table1, c, me, attempts[1..], now)
        else if !a.sent then (Undo(table1, me, a), c)
        else ClaimAll(t, table1, Sent(c, a.req), me, attempts[1..], now)
  }

  /** Outstanding blocks that somebody else took or delivered. */
  function Displaced(t: Torrent, c: Conn, me: PeerKey): set<RequestIndex> {
    set r | r in c.outstanding && (r in t.dirty || !t.table.HeldBy(r, me))
  }

  function Unfocused(t: Torrent, c: Conn): set<RequestIndex> {
    set r | r in c.outstanding && t.Priority(t.layout.PieceOf(r)) != Now
  }

  /** The first half of a refill: reconcile with the table, then fix the request limit. */
  function Reconcile(t: Torrent, c: Conn, me: PeerKey, refocus: bool, limit: nat, now: int): (Table, Conn) {
    var gone := Displaced(t, c, me) + if refocus then Unfocused(t, c) else {};
    var (table, c1) := Cancel(t.table, c, me, gone, now);
    var all := c1.haveAll && |t.pieces| > 0 && |c1.pieces| < |t.pieces|;
    (table, c1.(pieces := if all then c1.pieces + Interval(0, |t.pieces|) else c1.pieces, pipelineLimit := limit))
  }

  function Room(c: Conn): nat {
    Max(c.Nominal() - |c.outstanding|, 0)
  }

  /** The second half: claims as many of the picked blocks as the limit has room for. */
  function FillRoom(t: Torrent, table: Table, c: Conn, me: PeerKey, picks: seq<Attempt>, now: int): (Table, Conn) {
    var (table', c') := ClaimAll(t, table, c, me, picks[..Min(Room(c), |picks|)], now);
    (table', c'.(peak := Max(c'.peak, |c'.outstanding|)))
  }

  function Refill(t: Torrent, c: Conn, me: PeerKey, refocus: bool, limit: nat, picks: seq<Attempt>, now: int): (Table, Conn) {
    var (table, c1) := Reconcile(t, c, me, refocus, limit, now);
    FillRoom(t, table, c1, me, picks, now)
  }

  // ------------------------------------------------------------ receiving

  /** One answer fewer expected. */
  function Received(expected: map<RequestIndex, nat>, req: RequestIndex): map<RequestIndex, nat> {
    if req !in expected then expected
    else if expected[req] <= 1 then expected - {req}
    else expected[req := expected[req] - 1]
  }

  /** An expected block arrived: it is unpended and, when it may be written, reserved. */
  function Accept(t: Torrent, c: Conn, me: PeerKey, w: Write): (Torrent, Conn) {
    var table := t.table.ReleaseSecond(w.req, me);
    var c1 := c.(outstanding := c.outstanding - {w.req}, cancelled := c.cancelled - {w.req},
                 cancelledAt := c.cancelledAt - {w.req}, expected := Received(c.expected, w.req));
    if t.MayWrite(w.req)
    then (t.(table := table, writing := t.writing + {w.req}), c1.(write := Some(w)))
    else (t.(table := table.Release(w.req, me).ReleaseSecond(w.req, me)), c1)
  }

  /** A block message; one nobody asked for is dropped. */
  function Deliver(t: Torrent, c: Conn, me: PeerKey, index: PieceIndex, begin: nat, length: nat): (Torrent, Conn) {
    var req := t.layout.WireIndex(index, begin);
    if c.Expects(req) then Accept(t, c, me, Write(req, index, begin, length)) else (t, c)
  }

  /** The write returned. A delivered block leaves the table; a full piece goes to the hasher. */
  function Written(t: Torrent, c: Conn, me: PeerKey, ok: bool, accepted: bool): (Torrent, Conn)
    requires c.write.Some?
  {
    var req := c.write.value.req;
    var t1 := t.FinishWrite(req, ok);
    var c1 := c.(write := None);
    if !ok then (t1.(table := t1.table.Release(req, me)), c1)
    else (t1.(table := Table(t1.table.owners - {req}, t1.table.seconds - {req}))
            .QueueIfFull(c.write.value.piece, accepted), c1)
  }

  function Reject(t: Torrent, c: Conn, me: PeerKey, index: PieceIndex, begin: nat): (Table, Conn) {
    var req := t.layout.WireIndex(index, begin);
    (t.table.Withdraw({req}, me),
     c.(outstanding := c.outstanding - {req},
        peak := if req in c.outstanding then Max(c.peak - 1, 0) else c.peak,
        expected := Received(c.expected, req),
        cancelled := c.cancelled - {req}, cancelledAt := c.cancelledAt - {req}))
  }

  // ------------------------------------------------------------ availability

  /** Adds `delta` to the counters of `pieces`; indexes past the end have no counter. */
  function Note(counts: seq<int>, pieces: set<PieceIndex>, delta: int): (r: seq<int>)
    ensures |r| == |counts|
  {
    seq(|counts|, i requires 0 <= i < |counts| => counts[i] + if i in pieces then delta else 0)
  }

  function Have(t: Torrent, c: Conn, index: PieceIndex): (Torrent, Conn) {
    if index in c.pieces then (t, c)
    else (t.(announced := Note(t.announced, {index}, 1)), c.(pieces := c.pieces + {index}))
  }

  /** A (replacement) bitfield; `HaveNone` is the empty one. */
  function Bitfield(t: Torrent, c: Conn, me: PeerKey, bits: set<PieceIndex>, now: int): (Torrent, Conn) {
    var next := set i | i in bits && (|t.pieces| == 0 || i < |t.pieces|);
    var counts := if c.haveAll then Note(t.announced, c.pieces, 1) else t.announced;
    var removed := c.pieces - next;
    var announced := Note(Note(counts, removed, -1), next - c.pieces, 1);
    var unavailable := set r | r in c.outstanding && t.layout.PieceOf(r) in removed;
    var (table, c1) := Cancel(t.table, c.(pieces := next, haveAll := false), me, unavailable, now);
    (t.(announced := announced, haveAllPeers := t.haveAllPeers - (if c.haveAll then 1 else 0), table := table), c1)
  }

  function HaveAll(t: Torrent, c: Conn): (Torrent, Conn) {
    if c.haveAll then (t, c)
    else (t.(announced := Note(t.announced, c.pieces, -1), haveAllPeers := t.haveAllPeers + 1),
          c.(haveAll := true, pieces := c.pieces + Interval(0, |t.pieces|)))
  }

  /** A connection ends: its availability and everything it holds go. */
  function Close(t: Torrent, c: Conn, me: PeerKey): Torrent {
    var t1 := t.(table := t.table.Forget(me));
    if c.haveAll then t1.(haveAllPeers := t.haveAllPeers - 1)
    else t1.(announced := Note(t.announced, c.pieces, -1))
  }
}
