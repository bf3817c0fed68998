/** Any number of connections, web seeds, hash workers and storage refreshes over one torrent.
    Every event is one handler call; a storage write is two events, so that everything else may
    happen while it is under way. */
module Swarm {
  import opened Types
  import opened Geometry
  import opened BlockTables
  import opened Protocol

  /** A web seed's fetched extent being written block by block: `at..stop` is still to do. */
  datatype Batch = Batch(piece: PieceIndex, at: RequestIndex, stop: RequestIndex, writing: bool)

  datatype State = State(torrent: Torrent, conns: map<PeerKey, Conn>, batches: map<nat, Batch>)

  datatype Event =
    | Attach(peer: PeerKey, rejectsCancels: bool)
    | OnRefill(peer: PeerKey, refocus: bool, limit: nat, picks: seq<Attempt>, now: int)
    | OnChoke(peer: PeerKey, now: int)
    | OnUnchoke(peer: PeerKey)
    | OnAllowedFast(peer: PeerKey, index: PieceIndex)
    | OnReqq(peer: PeerKey, requests: nat)
    | OnHave(peer: PeerKey, index: PieceIndex)
    | OnBitfield(peer: PeerKey, bits: set<PieceIndex>, now: int)
    | OnHaveAll(peer: PeerKey)
    | OnPiece(peer: PeerKey, index: PieceIndex, begin: nat, length: nat)
    | OnWritten(peer: PeerKey, ok: bool, accepted: bool)
    | OnReject(peer: PeerKey, index: PieceIndex, begin: nat)
    | OnExpire(peer: PeerKey, expired: set<RequestIndex>, silent: bool, now: int)
    | OnPaused(peer: PeerKey, now: int)
    | OnClosed(peer: PeerKey)
    | Dropped(peer: PeerKey)
    | BatchStart(id: nat, piece: PieceIndex, at: RequestIndex, stop: RequestIndex)
    | BatchNext(id: nat)
    | BatchWritten(id: nat, ok: bool)
    | BatchEnd(id: nat, accepted: bool)
    | Hashed(piece: PieceIndex, valid: bool)
    | Refreshed(piece: PieceIndex, storedComplete: bool, storedOk: bool, readable: bool)
    | Prioritised(piece: PieceIndex, priority: PiecePriority)

  /** A live connection whose handler is not inside a storage write. */
  predicate Idle(s: State, peer: PeerKey) {
    peer in s.conns && s.conns[peer].write.None?
  }

  /** Storage accepts a write only inside the piece it is addressed to. */
  predicate InBounds(t: Torrent, w: Write) {
    w.piece < |t.pieces| && w.begin + w.length <= t.layout.PieceLength(w.piece)
  }

  predicate Enabled(s: State, e: Event) {
    match e
    case Attach(p, _) => p !in s.conns
    case OnWritten(p, ok, _) =>
      p in s.conns && s.conns[p].write.Some? && (ok ==> InBounds(s.torrent, s.conns[p].write.value))
    case Dropped(p) => true
    case BatchStart(id, piece, at, stop) =>
      id !in s.batches && piece < |s.torrent.pieces| &&
      s.torrent.layout.RangeBegin(piece) <= at <= stop <= s.torrent.layout.RangeEnd(piece)
    case BatchNext(id) => id in s.batches && !s.batches[id].writing && s.batches[id].at < s.batches[id].stop
    case BatchWritten(id, _) => id in s.batches && s.batches[id].writing
    case BatchEnd(id, _) => id in s.batches && !s.batches[id].writing && s.batches[id].at == s.batches[id].stop
    case Hashed(piece, _) => piece < |s.torrent.pieces| && piece in s.torrent.jobs
    case Refreshed(piece, _, _, _) => piece < |s.torrent.pieces|
    case Prioritised(piece, _) => piece < |s.torrent.pieces|
    case _ => Idle(s, e.peer)
  }

  function SetConn(s: State, peer: PeerKey, r: (Torrent, Conn)): State {
    s.(torrent := r.0, conns := s.conns[peer := r.1])
  }

  function SetTable(s: State, peer: PeerKey, r: (Table, Conn)): State {
    s.(torrent := s.torrent.(table := r.0), conns := s.conns[peer := r.1])
  }

  function Apply(s: State, e: Event): State
    requires Enabled(s, e)
  {
    var t := s.torrent;
    match e
    case Attach(p, rejects) => s.(conns := s.conns[p := NewConn(rejects)])
    case OnRefill(p, refocus, limit, picks, now) =>
      SetTable(s, p, Refill(t, s.conns[p], p, refocus, limit, picks, now))
    case OnChoke(p, now) => SetTable(s, p, Choke(t, s.conns[p], p, now))
    case OnUnchoke(p) => s.(conns := s.conns[p := s.conns[p].(choking := false)])
    case OnAllowedFast(p, i) =>
      s.(conns := s.conns[p := s.conns[p].(allowedFast := s.conns[p].allowedFast + {i})])
    case OnReqq(p, n) =>
      if n == 0 then s
      else s.(conns := s.conns[p := s.conns[p].(maxRequests := Max(1, Min(n, MAX_LOCAL_TO_REMOTE_REQUESTS)))])
    case OnHave(p, i) => SetConn(s, p, Have(t, s.conns[p], i))
    case OnBitfield(p, bits, now) => SetConn(s, p, Bitfield(t, s.conns[p], p, bits, now))
    case OnHaveAll(p) => SetConn(s, p, HaveAll(t, s.conns[p]))
    case OnPiece(p, i, b, len) => SetConn(s, p, Deliver(t, s.conns[p], p, i, b, len))
    case OnWritten(p, ok, accepted) => SetConn(s, p, Written(t, s.conns[p], p, ok, accepted))
    case OnReject(p, i, b) => SetTable(s, p, Reject(t, s.conns[p], p, i, b))
    case OnExpire(p, expired, silent, now) => SetTable(s, p, Expire(t.table, s.conns[p], p, expired, silent, now))
    case OnPaused(p, now) => SetTable(s, p, Cancel(t.table, s.conns[p], p, s.conns[p].outstanding, now))
    case OnClosed(p) => s.(torrent := Close(t, s.conns[p], p), conns := s.conns - {p})
    case Dropped(p) => s.(torrent := t.(table := t.table.Forget(p)))
    case BatchStart(id, piece, at, stop) => s.(batches := s.batches[id := Batch(piece, at, stop, false)])
    case BatchNext(id) =>
      var b := s.batches[id];
      if t.MayWrite(b.at)
      then s.(torrent := t.(writing := t.writing + {b.at}), batches := s.batches[id := b.(writing := true)])
      else s.(batches := s.batches[id := b.(at := b.at + 1)])
    case BatchWritten(id, ok) =>
      var b := s.batches[id];
      s.(torrent := t.FinishWrite(b.at, ok),
         batches := s.batches[id := b.(writing := false, at := if ok then b.at + 1 else b.stop)])
    case BatchEnd(id, accepted) =>
      s.(torrent := t.QueueIfFull(s.batches[id].piece, accepted), batches := s.batches - {id})
    case Hashed(piece, valid) => s.(torrent := t.HashResult(piece, valid))
    case Refreshed(piece, complete, ok, readable) => s.(torrent := t.Refresh(piece, complete, ok, readable))
    case Prioritised(piece, priority) =>
      s.(torrent := t.(pieces := t.pieces[piece := t.pieces[piece].(priority := priority)]))
  }

  /** Every piece knows how many blocks it has. */
  ghost predicate Sized(t: Torrent) {
    forall i :: 0 <= i < |t.pieces| ==> t.pieces[i].chunks == CeilDiv(t.layout.PieceLength(i), BLOCK_SIZE)
  }

  /** The info has just arrived: nobody is connected and nothing is in flight. Pieces already
      in storage are complete. */
  ghost predicate Initial(s: State) {
    var t := s.torrent;
    && t.layout.Valid() && |t.pieces| == t.layout.NumPieces() == |t.announced|
    && (forall i :: 0 <= i < |t.pieces| ==> !t.pieces[i].checking && t.pieces[i].index == i)
    && Sized(t)
    && t.table == Table(map[], map[]) && t.writing == {} && t.dirty == {} && t.jobs == multiset{}
    && (forall i :: 0 <= i < |t.announced| ==> t.announced[i] == 0) && t.haveAllPeers == 0
    && s.conns == map[] && s.batches == map[]
  }

  /** `events` can happen in this order from `s`. */
  predicate Runs(s: State, events: seq<Event>)
    decreases |events|
  {
    events == [] || (Enabled(s, events[0]) && Runs(Apply(s, events[0]), events[1..]))
  }

  function After(s: State, events: seq<Event>): State
    requires Runs(s, events)
    decreases |events|
  {
    if events == [] then s else After(Apply(s, events[0]), events[1..])
  }

  lemma OneStep(s: State, e: Event)
    requires Enabled(s, e)
    ensures Runs(s, [e]) && After(s, [e]) == Apply(s, e)
  {
    assert [e][1..] == [];
  }

  lemma {:induction false} RunsAppend(s: State, a: seq<Event>, b: seq<Event>)
    requires Runs(s, a) && Runs(After(s, a), b)
    ensures Runs(s, a + b) && After(s, a + b) == After(After(s, a), b)
    decreases |a|
  {
    if a == [] {
      assert a + b == b;
    } else {
      assert (a + b)[1..] == a[1..] + b;
      RunsAppend(Apply(s, a[0]), a[1..], b);
    }
  }

  lemma TwoSteps(s: State, a: Event, b: Event)
    requires Enabled(s, a) && Enabled(Apply(s, a), b)
    ensures Runs(s, [a, b]) && After(s, [a, b]) == Apply(Apply(s, a), b)
  {
    OneStep(s, a);
    OneStep(Apply(s, a), b);
    RunsAppend(s, [a], [b]);
    assert [a] + [b] == [a, b];
  }

  lemma ThreeSteps(s: State, a: Event, b: Event, c: Event)
    requires Enabled(s, a) && Enabled(Apply(s, a), b) && Enabled(Apply(Apply(s, a), b), c)
    ensures Runs(s, [a, b, c]) && After(s, [a, b, c]) == Apply(Apply(Apply(s, a), b), c)
  {
    TwoSteps(s, a, b);
    OneStep(Apply(Apply(s, a), b), c);
    RunsAppend(s, [a, b], [c]);
    assert [a, b] + [c] == [a, b, c];
  }

  // ------------------------------------------------------------ the shape of a handler call

  /** Handler calls that neither start nor finish a write. */
  predicate IsPlain(e: Event) {
    e.OnRefill? || e.OnChoke? || e.OnUnchoke? || e.OnAllowedFast? || e.OnReqq? || e.OnHave? || e.OnBitfield? ||
    e.OnHaveAll? || e.OnReject? || e.OnExpire? || e.OnPaused?
  }

  /** Such a call touches its own connection, the table and the availability counters only. */
  lemma PlainStep(s: State, e: Event)
    requires Enabled(s, e) && IsPlain(e)
    ensures var s' := Apply(s, e);
            && s'.batches == s.batches
            && e.peer in s'.conns && s'.conns == s.conns[e.peer := s'.conns[e.peer]] && s'.conns[e.peer].write.None?
            && s'.torrent == s.torrent.(table := s'.torrent.table, announced := s'.torrent.announced,
                                        haveAllPeers := s'.torrent.haveAllPeers)
  {
    if e.OnRefill? {
      var c := s.conns[e.peer];
      var (table, c1) := Reconcile(s.torrent, c, e.peer, e.refocus, e.limit, e.now);
      ClaimAllShape(s.torrent, table, c1, e.peer, e.picks[..Min(Room(c1), |e.picks|)], e.now);
    }
  }

  /** Claiming changes a connection's request sets and nothing else of it. */
  lemma {:induction false} ClaimAllShape(t: Torrent, table: Table, c: Conn, me: PeerKey, attempts: seq<Attempt>, now: int)
    ensures var c' := ClaimAll(t, table, c, me, attempts, now).1;
            c' == c.(outstanding := c'.outstanding, expected := c'.expected,
                     cancelled := c'.cancelled, cancelledAt := c'.cancelledAt)
    decreases |attempts|
  {
    if attempts != [] {
      var a := attempts[0];
      var (claimed, table1) := TryClaim(t, table, me, a, now);
      ClaimAllShape(t, table, c, me, attempts[1..], now);
      ClaimAllShape(t, table1, c, me, attempts[1..], now);
      ClaimAllShape(t, table1, Sent(c, a.req), me, attempts[1..], now);
    }
  }

  /** No event changes the geometry, the number of pieces or their sizes. */
  lemma SizesStep(s: State, e: Event)
    requires Enabled(s, e)
    ensures Apply(s, e).torrent.layout == s.torrent.layout && |Apply(s, e).torrent.pieces| == |s.torrent.pieces|
    ensures Sized(s.torrent) ==> Sized(Apply(s, e).torrent)
  {
    if IsPlain(e) {
      PlainStep(s, e);
    } else {
      SameSizes(s, e);
    }
  }

  /** Same geometry, same piece sizes. */
  ghost predicate SameShape(t: Torrent, t': Torrent) {
    && t'.layout == t.layout && |t'.pieces| == |t.pieces|
    && forall i :: 0 <= i < |t.pieces| ==> t'.pieces[i].chunks == t.pieces[i].chunks
  }

  lemma QueueShape(t: Torrent, req: RequestIndex, written: bool, piece: PieceIndex, accepted: bool)
    ensures SameShape(t, t.QueueIfFull(piece, accepted)) && SameShape(t, t.FinishWrite(req, written))
  {
  }

  lemma VerdictShape(t: Torrent, piece: PieceIndex, valid: bool, complete: bool, ok: bool, readable: bool)
    requires piece < |t.pieces|
    ensures SameShape(t, t.HashResult(piece, valid)) && SameShape(t, t.Refresh(piece, complete, ok, readable))
  {
  }

  lemma SameSizes(s: State, e: Event)
    requires Enabled(s, e) && !IsPlain(e)
    ensures SameShape(s.torrent, Apply(s, e).torrent)
  {
    var t := s.torrent;
    if e.OnWritten? {
      var w := s.conns[e.peer].write.value;
      var t1 := t.FinishWrite(w.req, e.ok);
      QueueShape(t, w.req, e.ok, w.piece, e.accepted);
      QueueShape(t1.(table := Table(t1.table.owners - {w.req}, t1.table.seconds - {w.req})), w.req, e.ok, w.piece, e.accepted);
    } else if e.BatchWritten? {
      QueueShape(t, s.batches[e.id].at, e.ok, 0, false);
    } else if e.BatchEnd? {
      QueueShape(t, 0, false, s.batches[e.id].piece, e.accepted);
    } else if e.Hashed? {
      VerdictShape(t, e.piece, e.valid, false, false, false);
    } else if e.Refreshed? {
      VerdictShape(t, e.piece, false, e.storedComplete, e.storedOk, e.readable);
    } else {
      RestShape(s, e);
    }
  }

  lemma RestShape(s: State, e: Event)
    requires Enabled(s, e) && !IsPlain(e)
    requires !e.OnWritten? && !e.BatchWritten? && !e.BatchEnd? && !e.Hashed? && !e.Refreshed?
    ensures SameShape(s.torrent, Apply(s, e).torrent)
  {
  }

  lemma {:induction false} SizesKeep(s: State, events: seq<Event>)
    requires Runs(s, events)
    ensures After(s, events).torrent.layout == s.torrent.layout
    ensures |After(s, events).torrent.pieces| == |s.torrent.pieces|
    ensures Sized(s.torrent) ==> Sized(After(s, events).torrent)
    decreases |events|
  {
    if events != [] {
      SizesStep(s, events[0]);
      SizesKeep(Apply(s, events[0]), events[1..]);
    }
  }
}
