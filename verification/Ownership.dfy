/** Ownership and request bookkeeping: what every run of the swarm keeps. */
module Ownership {
  import opened Types
  import opened Geometry
  import opened BlockTables
  import opened Protocol
  import opened Swarm
  import opened Effects

  /** `req` is requested here, or is the block this connection is writing now. */
  predicate Answers(c: Conn, req: RequestIndex) {
    req in c.outstanding || (c.write.Some? && c.write.value.req == req)
  }

  /** The table credits `me` only with blocks it answers for; a block being written has no
      second copy by its writer. */
  ghost predicate Accountable(t: Table, c: Conn, me: PeerKey) {
    && (forall r <- t.owners :: t.owners[r].peer == me ==> Answers(c, r))
    && (forall r <- t.seconds :: t.seconds[r] == me ==> r in c.outstanding)
  }

  /** No block is held twice by one peer. */
  ghost predicate TwoHolders(t: Table) {
    forall r :: r in t.owners && r in t.seconds ==> t.owners[r].peer != t.seconds[r]
  }

  /** A connection's own request sets agree with each other. */
  ghost predicate RequestSets(c: Conn) {
    && c.outstanding !! c.cancelled
    && (forall r :: r in c.outstanding ==> r in c.expected)
    && (forall r :: r in c.expected ==> c.expected[r] >= 1)
    && c.cancelled <= c.cancelledAt.Keys
  }

  ghost predicate Consistent(c: Conn) {
    RequestSets(c) && |c.outstanding| <= c.peak
  }

  /** Every block's holders are live and answer for it. */
  ghost predicate Owned(t: Table, conns: map<PeerKey, Conn>) {
    && TwoHolders(t)
    && (forall r <- t.owners :: t.owners[r].peer in conns)
    && (forall r <- t.seconds :: t.seconds[r] in conns)
    && (forall p :: p in conns ==> Accountable(t, conns[p], p))
  }

  ghost predicate Inv(s: State) {
    Owned(s.torrent.table, s.conns) && (forall p :: p in s.conns ==> Consistent(s.conns[p]))
  }

  /** Nobody but `me` gains a block. */
  ghost predicate OthersKeep(t: Table, t': Table, me: PeerKey) {
    forall r, p :: p != me ==>
      (t'.OwnedBy(r, p) ==> t.OwnedBy(r, p)) && (t'.CopiedBy(r, p) ==> t.CopiedBy(r, p))
  }

  // ------------------------------------------------------------ one connection

  lemma CancelKeeps(t: Table, c: Conn, me: PeerKey, reqs: set<RequestIndex>, now: int)
    requires Accountable(t, c, me) && TwoHolders(t) && RequestSets(c)
    ensures var (t', c') := Cancel(t, c, me, reqs, now);
            && Accountable(t', c', me) && TwoHolders(t') && RequestSets(c') && OthersKeep(t, t', me)
            && c'.outstanding == c.outstanding - reqs
            && (forall r, p :: t'.HeldBy(r, p) <==>
                  t.HeldBy(r, p) && !(p == me && r in reqs && r in c.outstanding))
  {
  }

  lemma SentSets(c: Conn, req: RequestIndex)
    requires RequestSets(c)
    ensures RequestSets(Sent(c, req))
  {
  }

  /** Taking over a block nobody else owns, possibly after its holder lost it. */
  lemma OwnerClaimKeeps(t: Torrent, table: Table, c: Conn, me: PeerKey, req: RequestIndex, now: int)
    requires Accountable(table, c, me) && TwoHolders(table) && !table.HeldBy(req, me)
    ensures var (claimed, table1) := ClaimOwner(t, table, me, req, now);
            && OthersKeep(table, table1, me) && TwoHolders(table1)
            && Accountable(table1, if claimed then Sent(c, req) else c, me)
            && (claimed ==> req !in t.dirty && table1.OwnedBy(req, me) && table1.Release(req, me) == table)
  {
    var (claimed, table1) := ClaimOwner(t, table, me, req, now);
    if claimed {
      assert table1.Release(req, me).owners == table.owners;
    }
  }

  lemma CopyClaimKeeps(table: Table, c: Conn, me: PeerKey, req: RequestIndex)
    requires Accountable(table, c, me) && TwoHolders(table) && !table.HeldBy(req, me) && req !in table.seconds
    ensures var table1 := table.(seconds := table.seconds[req := me]);
            && OthersKeep(table, table1, me) && TwoHolders(table1)
            && Accountable(table1, Sent(c, req), me) && table1.CopiedBy(req, me)
            && table1.seconds - {req} == table.seconds
  {
  }

  lemma ReleaseKeeps(table: Table, c: Conn, me: PeerKey, req: RequestIndex, holder: PeerKey)
    requires Accountable(table, c, me) && TwoHolders(table)
    ensures var table1 := table.Release(req, holder);
            Accountable(table1, c, me) && TwoHolders(table1) && OthersKeep(table, table1, me)
  {
  }

  /** Nobody but `me` loses a hold, except the holder a steal names. */
  ghost predicate OnlyFrom(table: Table, table': Table, me: PeerKey, a: Attempt) {
    && (forall r, p :: p != me && table.OwnedBy(r, p) && !table'.OwnedBy(r, p) ==> r == a.req && a.take == From(p))
    && (forall r, p :: p != me && table.CopiedBy(r, p) ==> table'.CopiedBy(r, p))
  }

  lemma TakesFromHolder(t: Torrent, table: Table, me: PeerKey, a: Attempt, now: int)
    ensures OnlyFrom(table, TryClaim(t, table, me, a, now).1, me, a)
  {
  }

  /** One claim: it succeeds only on a block nobody delivered, takes a block from nobody but the
      holder a steal names, and giving it back after a failed send restores the table, but for a
      stolen block's lost holder. */
  lemma ClaimKeeps(t: Torrent, table: Table, c: Conn, me: PeerKey, a: Attempt, now: int)
    requires Accountable(table, c, me) && TwoHolders(table)
    requires c.write.None? && a.req !in c.outstanding
    ensures var (claimed, table1) := TryClaim(t, table, me, a, now);
            && OthersKeep(table, table1, me) && OnlyFrom(table, table1, me, a) && TwoHolders(table1)
            && Accountable(table1, if claimed then Sent(c, a.req) else c, me)
            && (claimed ==> a.req !in t.dirty && table1.HeldBy(a.req, me))
            && (claimed ==> var undone := Undo(table1, me, a);
                            && undone == (if a.take.From? then table.Release(a.req, a.take.holder) else table)
                            && Accountable(undone, c, me) && TwoHolders(undone) && OthersKeep(table, undone, me))
  {
    assert !table.HeldBy(a.req, me);
    TakesFromHolder(t, table, me, a, now);
    match a.take
    case Free => OwnerClaimKeeps(t, table, c, me, a.req, now);
    case From(holder) =>
      ReleaseKeeps(table, c, me, a.req, holder);
      OwnerClaimKeeps(t, table.Release(a.req, holder), c, me, a.req, now);
    case Copy(_) =>
      if a.req !in table.seconds {
        CopyClaimKeeps(table, c, me, a.req);
      }
  }

  lemma {:induction false} ClaimAllKeeps(t: Torrent, table: Table, c: Conn, me: PeerKey, attempts: seq<Attempt>, now: int)
    requires Accountable(table, c, me) && TwoHolders(table) && RequestSets(c) && c.write.None?
    ensures var (table', c') := ClaimAll(t, table, c, me, attempts, now);
            && Accountable(table', c', me) && TwoHolders(table') && RequestSets(c')
            && OthersKeep(table, table', me)
            && c.outstanding <= c'.outstanding && |c'.outstanding| <= |c.outstanding| + |attempts|
    decreases |attempts|
  {
    if attempts != [] {
      var a := attempts[0];
      if a.req in c.outstanding {
        ClaimAllKeeps(t, table, c, me, attempts[1..], now);
      } else {
        ClaimKeeps(t, table, c, me, a, now);
        SentSets(c, a.req);
        var (claimed, table1) := TryClaim(t, table, me, a, now);
        if !claimed {
          ClaimAllKeeps(t, table1, c, me, attempts[1..], now);
        } else if a.sent {
          ClaimAllKeeps(t, table1, Sent(c, a.req), me, attempts[1..], now);
        }
      }
    }
  }

  /** The first half of a refill keeps the books and leaves a queue that agrees with the table: the
      requests that survive and no others, each with this peer's holds on it. */
  lemma ReconcileKeeps(t: Torrent, c: Conn, me: PeerKey, refocus: bool, limit: nat, now: int)
    requires Accountable(t.table, c, me) && TwoHolders(t.table) && Consistent(c) && c.write.None?
    ensures var (table, c1) := Reconcile(t, c, me, refocus, limit, now);
            && Accountable(table, c1, me) && TwoHolders(table) && Consistent(c1) && OthersKeep(t.table, table, me)
            && Agrees(t, table, c1, me) && c1.write.None?
            && Leaves(t, c, me, refocus, table, c1)
            && c1.outstanding <= c.outstanding && c1.peak == c.peak && c1.maxRequests == c.maxRequests
            && c1.pipelineLimit == limit
  {
    ReconcileLeaves(t, c, me, refocus, limit, now);
    var gone := Displaced(t, c, me) + if refocus then Unfocused(t, c) else {};
    CancelKeeps(t.table, c, me, gone, now);
    var (table, c1) := Reconcile(t, c, me, refocus, limit, now);
    assert c1.outstanding == c.outstanding - gone;
    CardinalityShrinks(c1.outstanding, c.outstanding);
  }

  /** A refill keeps the books and never raises the queue above the limit it started with. */
  lemma RefillKeeps(t: Torrent, c: Conn, me: PeerKey, refocus: bool, limit: nat, picks: seq<Attempt>, now: int)
    requires Accountable(t.table, c, me) && TwoHolders(t.table) && Consistent(c) && c.write.None?
    ensures var (t', c') := Refill(t, c, me, refocus, limit, picks, now);
            && Accountable(t', c', me) && TwoHolders(t') && Consistent(c') && OthersKeep(t.table, t', me)
            && |c'.outstanding| <= Max(|c.outstanding|, c.(pipelineLimit := limit).Nominal())
  {
    var (table, c1) := Reconcile(t, c, me, refocus, limit, now);
    ReconcileKeeps(t, c, me, refocus, limit, now);
    CardinalityShrinks(c1.outstanding, c.outstanding);
    ClaimAllKeeps(t, table, c1, me, picks[..Min(Room(c1), |picks|)], now);
    ClaimAllShape(t, table, c1, me, picks[..Min(Room(c1), |picks|)], now);
  }

  lemma CardinalityShrinks<T>(a: set<T>, b: set<T>)
    requires a <= b
    ensures |a| <= |b| && |b - a| == |b| - |a|
  {
    assert b == a + (b - a);
  }

  lemma ExpireKeeps(t: Table, c: Conn, me: PeerKey, expired: set<RequestIndex>, silent: bool, now: int)
    requires Accountable(t, c, me) && TwoHolders(t) && Consistent(c)
    ensures var (t', c') := Expire(t, c, me, expired, silent, now);
            Accountable(t', c', me) && TwoHolders(t') && Consistent(c') && OthersKeep(t, t', me)
  {
    var c1 := c.(cancelledAt := c.cancelledAt - expired,
                 cancelled := c.cancelled - expired,
                 expected := c.expected - (expired - c.outstanding));
    assert Consistent(c1);
    var stale := StaleRequests(t, c1, now);
    if silent && stale != {} {
      var c2 := c1.(peak := Max(c1.peak - |stale|, 0));
      CancelKeeps(t, c2, me, stale, now);
      CardinalityShrinks(stale, c1.outstanding);
    }
  }

  /** A block arrived and is being written: its writer may stay its owner, not its second copy. */
  lemma WritingKeeps(t: Table, c: Conn, me: PeerKey, w: Write)
    requires Accountable(t, c, me) && TwoHolders(t) && c.write.None?
    ensures var t1 := t.ReleaseSecond(w.req, me);
            && TwoHolders(t1) && OthersKeep(t, t1, me)
            && Accountable(t1, c.(outstanding := c.outstanding - {w.req}, write := Some(w)), me)
  {
  }

  /** A block arrived too late: whatever `me` held of it is given up. */
  lemma YieldKeeps(t: Table, c: Conn, me: PeerKey, req: RequestIndex)
    requires Accountable(t, c, me) && TwoHolders(t)
    ensures var t1 := t.ReleaseSecond(req, me).Release(req, me);
            && TwoHolders(t1) && OthersKeep(t, t1, me) && t1.ReleaseSecond(req, me) == t1
            && Accountable(t1, c.(outstanding := c.outstanding - {req}), me)
  {
  }

  lemma UnpendKeeps(c: Conn, req: RequestIndex)
    requires Consistent(c)
    ensures Consistent(c.(outstanding := c.outstanding - {req}, cancelled := c.cancelled - {req},
                          cancelledAt := c.cancelledAt - {req}, expected := Received(c.expected, req)))
  {
    CardinalityShrinks(c.outstanding - {req}, c.outstanding);
  }

  lemma DeliverKeeps(t: Torrent, c: Conn, me: PeerKey, index: PieceIndex, begin: nat, length: nat)
    requires Accountable(t.table, c, me) && TwoHolders(t.table) && Consistent(c) && c.write.None?
    ensures var (t', c') := Deliver(t, c, me, index, begin, length);
            Accountable(t'.table, c', me) && TwoHolders(t'.table) && Consistent(c') && OthersKeep(t.table, t'.table, me)
  {
    var w := Write(t.layout.WireIndex(index, begin), index, begin, length);
    AcceptKeeps(t, c, me, w);
  }

  lemma AcceptKeeps(t: Torrent, c: Conn, me: PeerKey, w: Write)
    requires Accountable(t.table, c, me) && TwoHolders(t.table) && Consistent(c) && c.write.None?
    ensures var (t', c') := Accept(t, c, me, w);
            Accountable(t'.table, c', me) && TwoHolders(t'.table) && Consistent(c') && OthersKeep(t.table, t'.table, me)
  {
    UnpendKeeps(c, w.req);
    if t.MayWrite(w.req) {
      WritingKeeps(t.table, c, me, w);
    } else {
      YieldKeeps(t.table, c, me, w.req);
    }
  }

  lemma WrittenKeeps(t: Torrent, c: Conn, me: PeerKey, ok: bool, accepted: bool)
    requires Accountable(t.table, c, me) && TwoHolders(t.table) && Consistent(c) && c.write.Some?
    ensures var (t', c') := Written(t, c, me, ok, accepted);
            Accountable(t'.table, c', me) && TwoHolders(t'.table) && Consistent(c') && OthersKeep(t.table, t'.table, me)
  {
  }

  lemma RejectKeeps(t: Torrent, c: Conn, me: PeerKey, index: PieceIndex, begin: nat)
    requires Accountable(t.table, c, me) && TwoHolders(t.table) && Consistent(c) && c.write.None?
    ensures var (t', c') := Reject(t, c, me, index, begin);
            Accountable(t', c', me) && TwoHolders(t') && Consistent(c') && OthersKeep(t.table, t', me)
  {
  }

  // ------------------------------------------------------------ all connections

  lemma LocalStep(t: Table, conns: map<PeerKey, Conn>, p: PeerKey, t': Table, c': Conn)
    requires Owned(t, conns)
    requires Accountable(t', c', p) && TwoHolders(t') && OthersKeep(t, t', p)
    ensures Owned(t', conns[p := c'])
  {
    var conns' := conns[p := c'];
    forall q | q in conns' && q != p
      ensures Accountable(t', conns'[q], q)
    {
      assert forall r :: r in t'.owners && t'.owners[r].peer == q ==> t'.OwnedBy(r, q);
      assert forall r :: r in t'.seconds && t'.seconds[r] == q ==> t'.CopiedBy(r, q);
    }
    forall r | r in t'.owners
      ensures t'.owners[r].peer in conns'
    {
      assert t'.OwnedBy(r, t'.owners[r].peer);
    }
    forall r | r in t'.seconds
      ensures t'.seconds[r] in conns'
    {
      assert t'.CopiedBy(r, t'.seconds[r]);
    }
  }

  /** What a handler call of connection `p` does, as the other connections see it. */
  ghost predicate Local(s: State, p: PeerKey, s': State) {
    && p in s'.conns && s'.conns == s.conns[p := s'.conns[p]]
    && Accountable(s'.torrent.table, s'.conns[p], p) && Consistent(s'.conns[p])
    && TwoHolders(s'.torrent.table) && OthersKeep(s.torrent.table, s'.torrent.table, p)
  }

  /** Events that move requests. */
  predicate Moves(e: Event) {
    e.OnRefill? || e.OnChoke? || e.OnBitfield? || e.OnPiece? || e.OnWritten? || e.OnReject? || e.OnExpire? || e.OnPaused?
  }

  lemma CancellingStep(s: State, e: Event)
    requires Inv(s) && Enabled(s, e) && (e.OnChoke? || e.OnPaused? || e.OnBitfield? || e.OnExpire?)
    ensures Local(s, e.peer, Apply(s, e))
  {
    var t, p := s.torrent, e.peer;
    var c := s.conns[p];
    match e
    case OnChoke(_, now) => PlainCancelKeeps(t.table, c.(choking := true), p, ChokedRequests(t, c), now);
    case OnPaused(_, now) => PlainCancelKeeps(t.table, c, p, c.outstanding, now);
    case OnBitfield(_, bits, now) => BitfieldKeeps(t, c, p, bits, now);
    case OnExpire(_, expired, silent, now) => ExpireKeeps(t.table, c, p, expired, silent, now);
  }

  lemma BlockStep(s: State, e: Event)
    requires Inv(s) && Enabled(s, e) && (e.OnPiece? || e.OnWritten? || e.OnReject?)
    ensures Local(s, e.peer, Apply(s, e))
  {
    var t, p := s.torrent, e.peer;
    var c := s.conns[p];
    match e
    case OnPiece(_, i, b, len) => DeliverKeeps(t, c, p, i, b, len);
    case OnWritten(_, ok, accepted) => WrittenKeeps(t, c, p, ok, accepted);
    case OnReject(_, i, b) => RejectKeeps(t, c, p, i, b);
  }

  lemma RefillStep(s: State, e: Event)
    requires Inv(s) && Enabled(s, e) && e.OnRefill?
    ensures Local(s, e.peer, Apply(s, e))
  {
    RefillKeeps(s.torrent, s.conns[e.peer], e.peer, e.refocus, e.limit, e.picks, e.now);
  }

  lemma HandlerStep(s: State, e: Event)
    requires Inv(s) && Enabled(s, e) && Moves(e)
    ensures Inv(Apply(s, e))
  {
    if e.OnRefill? {
      RefillStep(s, e);
    } else if e.OnPiece? || e.OnWritten? || e.OnReject? {
      BlockStep(s, e);
    } else {
      CancellingStep(s, e);
    }
    var s' := Apply(s, e);
    LocalStep(s.torrent.table, s.conns, e.peer, s'.torrent.table, s'.conns[e.peer]);
  }

  lemma PlainCancelKeeps(t: Table, c: Conn, me: PeerKey, reqs: set<RequestIndex>, now: int)
    requires Accountable(t, c, me) && TwoHolders(t) && Consistent(c)
    ensures var (t', c') := Cancel(t, c, me, reqs, now);
            Accountable(t', c', me) && TwoHolders(t') && Consistent(c') && OthersKeep(t, t', me)
  {
    CancelKeeps(t, c, me, reqs, now);
    CardinalityShrinks(c.outstanding - reqs, c.outstanding);
  }

  lemma BitfieldKeeps(t: Torrent, c: Conn, me: PeerKey, bits: set<PieceIndex>, now: int)
    requires Accountable(t.table, c, me) && TwoHolders(t.table) && Consistent(c)
    ensures var (t', c') := Bitfield(t, c, me, bits, now);
            Accountable(t'.table, c', me) && TwoHolders(t'.table) && Consistent(c') && OthersKeep(t.table, t'.table, me)
  {
    var next := set i | i in bits && (|t.pieces| == 0 || i < |t.pieces|);
    var unavailable := set r | r in c.outstanding && t.layout.PieceOf(r) in c.pieces - next;
    PlainCancelKeeps(t.table, c.(pieces := next, haveAll := false), me, unavailable, now);
  }

  lemma ForgetKeeps(t: Table, conns: map<PeerKey, Conn>, p: PeerKey)
    requires Owned(t, conns)
    ensures Owned(t.Forget(p), conns) && Owned(t.Forget(p), conns - {p})
  {
  }

  /** Events that leave every connection's request sets alone, or take a whole peer away. */
  lemma OtherStep(s: State, e: Event)
    requires Inv(s) && Enabled(s, e) && !Moves(e)
    ensures Inv(Apply(s, e))
  {
    if e.OnClosed? || e.Dropped? {
      ForgetKeeps(s.torrent.table, s.conns, e.peer);
    } else {
      QuietStep(s, e);
      QuietKeeps(s, Apply(s, e));
    }
  }

  ghost predicate Quiet(s: State, s': State) {
    && s'.torrent.table == s.torrent.table
    && s.conns.Keys <= s'.conns.Keys
    && (forall p :: p in s'.conns ==>
          if p in s.conns then SameRequests(s.conns[p], s'.conns[p])
          else s'.conns[p] == NewConn(s'.conns[p].rejectsCancels))
  }

  lemma QuietStep(s: State, e: Event)
    requires Enabled(s, e) && !Moves(e) && !e.OnClosed? && !e.Dropped?
    ensures Quiet(s, Apply(s, e))
  {
    if e.Attach? || e.OnUnchoke? || e.OnAllowedFast? || e.OnReqq? || e.OnHave? || e.OnHaveAll? {
      QuietPeer(s, e);
    } else {
      QuietTorrent(s, e);
    }
  }

  lemma QuietPeer(s: State, e: Event)
    requires Enabled(s, e) && (e.Attach? || e.OnUnchoke? || e.OnAllowedFast? || e.OnReqq? || e.OnHave? || e.OnHaveAll?)
    ensures Quiet(s, Apply(s, e))
  {
  }

  lemma QuietTorrent(s: State, e: Event)
    requires Enabled(s, e) && !Moves(e) && !e.OnClosed? && !e.Dropped?
    requires !e.Attach? && !e.OnUnchoke? && !e.OnAllowedFast? && !e.OnReqq? && !e.OnHave? && !e.OnHaveAll?
    ensures Quiet(s, Apply(s, e))
  {
  }

  lemma QuietKeeps(s: State, s': State)
    requires Inv(s) && Quiet(s, s')
    ensures Inv(s')
  {
  }

  predicate SameRequests(c: Conn, c': Conn) {
    c' == c.(maxRequests := c'.maxRequests, choking := c'.choking, haveAll := c'.haveAll,
             pieces := c'.pieces, allowedFast := c'.allowedFast)
  }

  lemma StepKeeps(s: State, e: Event)
    requires Inv(s) && Enabled(s, e)
    ensures Inv(Apply(s, e))
  {
    if Moves(e) {
      HandlerStep(s, e);
    } else {
      OtherStep(s, e);
    }
  }

  lemma {:induction false} RunKeeps(s: State, events: seq<Event>)
    requires Inv(s) && Runs(s, events)
    ensures Inv(After(s, events))
    decreases |events|
  {
    if events != [] {
      StepKeeps(s, events[0]);
      RunKeeps(Apply(s, events[0]), events[1..]);
    }
  }

  /** In every run of any number of peers, a holder of a block is a live connection that requested
      it or is writing it right now, owner and second copy are different peers, and every
      connection's request sets agree. */
  lemma EveryHolderAnswers(start: State, events: seq<Event>, req: RequestIndex, peer: PeerKey)
    requires Initial(start) && Runs(start, events)
    ensures var s := After(start, events);
            && (s.torrent.table.HeldBy(req, peer) ==> peer in s.conns && Answers(s.conns[peer], req))
            && !(s.torrent.table.OwnedBy(req, peer) && s.torrent.table.CopiedBy(req, peer))
            && (peer in s.conns ==> Consistent(s.conns[peer]))
  {
    assert Inv(start);
    RunKeeps(start, events);
  }

  // ------------------------------------------------------------ reconciliation

  /** The connection's queue is exactly what the table credits it with, none of it delivered. */
  ghost predicate Agrees(t: Torrent, table: Table, c: Conn, me: PeerKey) {
    forall r :: r in c.outstanding ==> table.HeldBy(r, me) && r !in t.dirty
  }

  lemma {:induction false} ClaimAllAgrees(t: Torrent, table: Table, c: Conn, me: PeerKey, attempts: seq<Attempt>, now: int)
    requires Accountable(table, c, me) && TwoHolders(table) && c.write.None? && Agrees(t, table, c, me)
    ensures var (table', c') := ClaimAll(t, table, c, me, attempts, now); Agrees(t, table', c', me)
    decreases |attempts|
  {
    if attempts != [] {
      var a := attempts[0];
      if a.req in c.outstanding {
        ClaimAllAgrees(t, table, c, me, attempts[1..], now);
      } else {
        ClaimKeeps(t, table, c, me, a, now);
        var (claimed, table1) := TryClaim(t, table, me, a, now);
        if !claimed {
          ClaimAllAgrees(t, table1, c, me, attempts[1..], now);
        } else if a.sent {
          ClaimAllAgrees(t, table1, Sent(c, a.req), me, attempts[1..], now);
        }
      }
    }
  }

  /** After any refill a connection's queue is exactly the set of blocks the table credits to it,
      and none of them has been delivered: steals, copies and late deliveries are all settled. */
  lemma RefillReconciles(t: Torrent, c: Conn, me: PeerKey, refocus: bool, limit: nat, picks: seq<Attempt>, now: int)
    requires Accountable(t.table, c, me) && TwoHolders(t.table) && Consistent(c) && c.write.None?
    ensures var (t', c') := Refill(t, c, me, refocus, limit, picks, now);
            && (forall r :: r in c'.outstanding <==> t'.HeldBy(r, me))
            && c'.outstanding !! t.dirty
  {
    var (table, c1) := Reconcile(t, c, me, refocus, limit, now);
    ReconcileKeeps(t, c, me, refocus, limit, now);
    var sent := picks[..Min(Room(c1), |picks|)];
    ClaimAllAgrees(t, table, c1, me, sent, now);
    ClaimAllKeeps(t, table, c1, me, sent, now);
    ClaimAllShape(t, table, c1, me, sent, now);
  }
}
