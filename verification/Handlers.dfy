/** The engine's objects: the shared torrent and one handler per connection, updating their
    fields in place. Every method is proved to do what the protocol says. */
module Handlers {
  import opened Types
  import opened Geometry
  import opened BlockTables
  import opened Protocol
  import opened Bounds

  /** Torrent-wide state, shared by all handlers. */
  class TorrentInner {
    const layout: Layout
    const blocks: BlockTable
    var dirty: set<RequestIndex>
    var pieces: seq<PieceEntry>
    var jobs: multiset<PieceIndex>
    var announced: seq<int>
    var haveAllPeers: int

    ghost predicate Valid()
      reads this, blocks
    {
      blocks.Valid() && layout.Valid() && layout.MaxEnd() <= blocks.limit
    }

    /** Every held block has its bits. */
    ghost predicate Covered()
      reads this, blocks
    {
      Below(blocks.Abs(), blocks.limit)
    }

    ghost function Abs(): Torrent
      reads this, blocks
    {
      Torrent(layout, blocks.Abs(), blocks.writing, dirty, pieces, jobs, announced, haveAllPeers)
    }

    /** Info arrived: every piece as storage knows it, nothing in flight. */
    constructor (layout: Layout, pieces: seq<PieceEntry>)
      requires layout.Valid()
      ensures Valid() && Covered() && fresh(blocks) && blocks.limit == layout.Capacity()
      ensures Abs() == Torrent(layout, Table(map[], map[]), {}, {}, pieces, multiset{}, seq(|pieces|, _ => 0), 0)
    {
      this.layout := layout;
      this.blocks := new BlockTable(layout.Capacity());
      CapacityCovers(layout);
      this.dirty, this.jobs, this.haveAllPeers := {}, multiset{}, 0;
      this.pieces := pieces;
      this.announced := seq(|pieces|, _ => 0);
    }

    /** Reserves a received block. The engine looks at the block again once it is reserved; with the
        whole call as one step the two looks agree, and module Reservation takes them apart. Past
        the bit sets nothing is recorded. */
    method BeginChunkWrite(req: RequestIndex) returns (reserved: bool)
      requires Valid()
      modifies blocks
      ensures Valid() && reserved == old(Abs()).MayWrite(req)
      ensures Abs() == if reserved && req < blocks.limit
                       then old(Abs()).(writing := old(Abs()).writing + {req}) else old(Abs())
    {
      var piece := layout.PieceOf(req);
      if piece < |pieces| && (pieces[piece].complete || pieces[piece].checking) {
        return false;
      }
      if req in dirty {
        return false;
      }
      reserved := blocks.BeginWrite(req);
      assert !reserved ==> blocks.writing == old(blocks.writing);
    }

    /** Past the bit sets no block is marked. */
    method FinishChunkWrite(req: RequestIndex, written: bool)
      requires Valid()
      modifies this`dirty, this`pieces, blocks
      ensures Valid() && blocks.Abs() == old(blocks.Abs())
      ensures var t := old(Abs()).FinishWrite(req, written);
              Abs() == if req < blocks.limit then t else t.(dirty := old(dirty))
    {
      if written {
        if req < blocks.limit {
          dirty := dirty + {req};
        }
        var piece := layout.PieceOf(req);
        if piece < |pieces| && !pieces[piece].partial {
          pieces := pieces[piece := pieces[piece].(partial := true)];
        }
      }
      blocks.EndWrite(req);
    }

    method PieceAllDirty(piece: PieceIndex) returns (full: bool)
      ensures full <==> Abs().AllDirty(piece)
    {
      var begin, end := layout.RangeBegin(piece), layout.RangeEnd(piece);
      if begin >= end {
        return false;
      }
      var r := begin;
      while r < end
        invariant begin <= r <= end
        invariant forall q :: begin <= q < r ==> q in dirty
      {
        if r !in dirty {
          return false;
        }
        r := r + 1;
      }
      return true;
    }

    method QueuePieceHash(piece: PieceIndex, accepted: bool)
      requires Valid()
      modifies this`pieces, this`jobs
      ensures Valid() && Abs() == old(Abs()).QueueHash(piece, accepted)
    {
      if piece >= |pieces| || pieces[piece].checking || pieces[piece].complete {
        return;
      }
      var before := pieces[piece];
      pieces := pieces[piece := before.(checking := true)];
      if accepted {
        jobs := jobs + multiset{piece};
      } else {
        pieces := pieces[piece := pieces[piece].(checking := false)];
        assert pieces == old(pieces);
      }
    }

    method ApplyHashResult(piece: PieceIndex, valid: bool)
      requires Valid() && piece < |pieces|
      modifies this`pieces, this`jobs, this`dirty
      ensures Valid() && Abs() == old(Abs()).HashResult(piece, valid)
    {
      jobs := jobs - multiset{piece};
      var entry := pieces[piece].(checking := false, complete := valid, ok := true);
      if !valid {
        entry := entry.(partial := false);
      }
      pieces := pieces[piece := entry];
      if !valid {
        ForgetBlocks(piece);
      }
    }

    /** Clears the received bit of every block of a piece. */
    method ForgetBlocks(piece: PieceIndex)
      requires Valid()
      modifies this`dirty
      ensures Valid() && dirty == old(dirty) - Abs().BlocksOf(piece)
    {
      var r, end := layout.RangeBegin(piece), layout.RangeEnd(piece);
      while r < end
        invariant layout.RangeBegin(piece) <= r
        invariant r <= end || r == layout.RangeBegin(piece)
        invariant forall q :: q in dirty <==> q in old(dirty) && !(layout.RangeBegin(piece) <= q < r)
      {
        dirty := dirty - {r};
        r := r + 1;
      }
    }

    /** True when anything changed. Storage's own flags are not part of this state. */
    method RefreshPieceCompletion(piece: PieceIndex, storedComplete: bool, storedOk: bool, readable: bool) returns (changed: bool)
      requires Valid() && piece < |pieces|
      modifies this`pieces, this`dirty
      ensures Valid() && Abs() == old(Abs()).Refresh(piece, storedComplete, storedOk, readable)
      ensures !changed ==> Abs() == old(Abs())
    {
      var complete := storedOk && storedComplete;
      var p := pieces[piece];
      var anyDirty := AnyDirty(piece);
      var hadData := p.complete || p.partial || anyDirty;
      var lost := !complete && hadData && !readable;
      if !lost && p.complete == complete && p.ok == storedOk {
        return false;
      }
      var evicted := (p.complete && !complete) || lost;
      if evicted {
        pieces := pieces[piece := p.(complete := complete, ok := storedOk, partial := false, checking := false)];
        ForgetBlocks(piece);
      } else {
        pieces := pieces[piece := p.(complete := complete, ok := storedOk)];
      }
      return true;
    }

    method AnyDirty(piece: PieceIndex) returns (any: bool)
      ensures any <==> dirty * Abs().BlocksOf(piece) != {}
    {
      var r, end := layout.RangeBegin(piece), layout.RangeEnd(piece);
      ghost var blocksOf := Abs().BlocksOf(piece);
      while r < end
        invariant layout.RangeBegin(piece) <= r
        invariant forall q :: layout.RangeBegin(piece) <= q < r ==> q !in dirty
      {
        if r in dirty {
          assert r in dirty * blocksOf;
          return true;
        }
        r := r + 1;
      }
      return false;
    }

    method NoteAvailability(piece: PieceIndex, delta: int)
      requires Valid()
      modifies this`announced
      ensures Valid() && announced == Note(old(announced), {piece}, delta)
    {
      if piece < |announced| {
        announced := announced[piece := announced[piece] + delta];
      }
    }

    /** Counts `delta` for each of `which`, visited in any order. */
    method NoteEach(which: set<PieceIndex>, delta: int)
      requires Valid()
      modifies this`announced
      ensures Valid() && announced == Note(old(announced), which, delta)
    {
      var left := which;
      while left != {}
        invariant Valid() && left <= which && |announced| == |old(announced)|
        invariant forall i :: 0 <= i < |announced| ==>
                    announced[i] == old(announced)[i] + if i in which - left then delta else 0
        decreases left
      {
        var piece :| piece in left;
        NoteAvailability(piece, delta);
        left := left - {piece};
      }
    }

    method ClaimRequest(req: RequestIndex, peer: PeerKey, when: int) returns (claimed: bool)
      requires Valid()
      modifies blocks
      ensures Valid()
      ensures (claimed, blocks.Abs()) == ClaimOwner(old(Abs()), old(blocks.Abs()), peer, req, when)
      ensures Abs() == old(Abs()).(table := blocks.Abs())
    {
      if blocks.IsWriting(req) || req in dirty {
        return false;
      }
      claimed := blocks.Claim(req, peer, when);
    }

    method ClaimHedge(req: RequestIndex, peer: PeerKey) returns (claimed: bool)
      requires Valid()
      modifies blocks
      ensures Valid()
      ensures claimed <==> req !in dirty && req !in old(blocks.Abs()).seconds
      ensures blocks.Abs() == if claimed
                              then old(blocks.Abs()).(seconds := old(blocks.Abs()).seconds[req := peer])
                              else old(blocks.Abs())
      ensures Abs() == old(Abs()).(table := blocks.Abs())
    {
      if req in dirty {
        return false;
      }
      claimed := blocks.ClaimSecond(req, peer);
    }
  }

  /** One connection. */
  class PeerConnHandler {
    const key: PeerKey
    const torrent: TorrentInner
    var outstanding: set<RequestIndex>
    var cancelled: set<RequestIndex>
    var cancelledAt: map<RequestIndex, int>
    var expected: map<RequestIndex, nat>
    var peak: nat
    var maxRequests: nat
    var pipelineLimit: nat
    var choking: bool
    var haveAll: bool
    var pieces: set<PieceIndex>
    var allowedFast: set<PieceIndex>
    const rejectsCancels: bool
    var write: Option<Write>

    ghost predicate Valid()
      reads torrent, torrent.blocks
    {
      torrent.Valid() && torrent.Covered()
    }

    function Abs(): Conn
      reads this
    {
      Conn(outstanding, cancelled, cancelledAt, expected, peak, maxRequests, pipelineLimit, choking, haveAll,
           pieces, allowedFast, rejectsCancels, write)
    }

    constructor (key: PeerKey, torrent: TorrentInner, rejectsCancels: bool)
      ensures this.key == key && this.torrent == torrent && Abs() == NewConn(rejectsCancels)
    {
      this.key, this.torrent, this.rejectsCancels := key, torrent, rejectsCancels;
      outstanding, cancelled, cancelledAt, expected := {}, {}, map[], map[];
      peak, maxRequests, pipelineLimit := 0, DEFAULT_PEER_MAX_REQUESTS, 0;
      choking, haveAll, pieces, allowedFast, write := true, false, {}, {}, None;
    }

    /** Takes a request back: this peer's holds on the block go, a thief's stays. */
    method CancelOutstanding(req: RequestIndex, now: int)
      requires Valid()
      modifies this, torrent.blocks
      ensures Valid() && torrent.blocks.writing == old(torrent.blocks.writing)
      ensures (torrent.blocks.Abs(), Abs()) == Cancel(old(torrent.blocks.Abs()), old(Abs()), key, {req}, now)
    {
      ghost var t := torrent.blocks.Abs();
      if req !in outstanding {
        CancelNothing(t, Abs(), key, {req}, now);
        return;
      }
      outstanding := outstanding - {req};
      if rejectsCancels {
        cancelled := cancelled + {req};
      }
      cancelledAt := cancelledAt[req := now];
      ReleaseHolds(req);
      CancelOne(t, old(Abs()), key, req, now);
    }

    /** Gives up this peer's holds on a block, and nobody else's. */
    method ReleaseHolds(req: RequestIndex)
      requires Valid()
      modifies torrent.blocks
      ensures Valid() && torrent.blocks.writing == old(torrent.blocks.writing)
      ensures torrent.blocks.Abs() == old(torrent.blocks.Abs()).ReleaseSecond(req, key).Release(req, key)
    {
      var owner := torrent.blocks.Owner(req);
      torrent.blocks.ReleaseSecond(req, key);
      if owner.Some? && owner.value.peer == key {
        torrent.blocks.Release(req, key);
      }
    }

    /** Cancels each of `reqs`, in any order. */
    method CancelEach(reqs: set<RequestIndex>, now: int)
      requires Valid()
      modifies this, torrent.blocks
      ensures Valid() && torrent.blocks.writing == old(torrent.blocks.writing)
      ensures (torrent.blocks.Abs(), Abs()) == Cancel(old(torrent.blocks.Abs()), old(Abs()), key, reqs, now)
    {
      var left := reqs;
      CancelNothing(torrent.blocks.Abs(), Abs(), key, reqs - left, now);
      while left != {}
        invariant Valid() && left <= reqs && torrent.blocks.writing == old(torrent.blocks.writing)
        invariant (torrent.blocks.Abs(), Abs()) == Cancel(old(torrent.blocks.Abs()), old(Abs()), key, reqs - left, now)
        decreases left
      {
        var req :| req in left;
        CancelOneMore(old(torrent.blocks.Abs()), old(Abs()), key, reqs - left, req, now);
        assert reqs - (left - {req}) == reqs - left + {req};
        CancelOutstanding(req, now);
        left := left - {req};
      }
      assert reqs - left == reqs;
    }

    method HandleChoke(now: int)
      requires Valid()
      modifies this, torrent.blocks
      ensures Valid() && torrent.blocks.writing == old(torrent.blocks.writing)
      ensures (torrent.blocks.Abs(), Abs()) == Choke(old(torrent.Abs()), old(Abs()), key, now)
    {
      choking := true;
      var reqs := set r | r in outstanding && torrent.layout.PieceOf(r) !in allowedFast;
      CancelEach(reqs, now);
    }

    /** `tooOld`: cancels waiting at least eight round trips; `silent`: nothing arrived for long. */
    method ExpireStaleRequests(tooOld: set<RequestIndex>, silent: bool, now: int)
      requires Valid()
      modifies this, torrent.blocks
      ensures Valid() && torrent.blocks.writing == old(torrent.blocks.writing)
      ensures (torrent.blocks.Abs(), Abs()) == Expire(old(torrent.blocks.Abs()), old(Abs()), key, tooOld, silent, now)
    {
      ForgetCancels(tooOld);
      if !silent {
        return;
      }
      var stale := StaleNow(now);
      if stale == {} {
        return;
      }
      peak := Max(peak - |stale|, 0);
      CancelEach(stale, now);
    }

    /** Stops waiting for the answers to old cancels. */
    method ForgetCancels(tooOld: set<RequestIndex>)
      modifies this`cancelledAt, this`cancelled, this`expected
      ensures Abs() == old(Abs()).(cancelledAt := old(cancelledAt) - tooOld, cancelled := old(cancelled) - tooOld,
                                   expected := old(expected) - (tooOld - outstanding))
    {
      cancelledAt := cancelledAt - tooOld;
      cancelled := cancelled - tooOld;
      expected := expected - (tooOld - outstanding);
    }

    method StaleNow(now: int) returns (stale: set<RequestIndex>)
      requires Valid()
      ensures stale == StaleRequests(torrent.blocks.Abs(), Abs(), now)
    {
      stale := set r | r in outstanding && torrent.blocks.Owner(r).Some? &&
                       now - torrent.blocks.Owner(r).value.asked > DEAD_PEER_AFTER;
    }

    /** Books a request as sent, when the connection takes it: one more answer may come. */
    method SendRequest(req: RequestIndex, queued: bool) returns (sent: bool)
      modifies this`expected, this`cancelled, this`cancelledAt
      ensures sent == queued
      ensures Abs() == if sent then Sent(old(Abs()), req).(outstanding := outstanding) else old(Abs())
    {
      if !queued {
        return false;
      }
      expected := expected[req := (if req in expected then expected[req] else 0) + 1];
      cancelled := cancelled - {req};
      cancelledAt := cancelledAt - {req};
      return true;
    }

    /** Claims a picked block in the way the picker asked for. */
    method ClaimPicked(a: Attempt, now: int) returns (claimed: bool)
      requires torrent.Valid()
      modifies torrent.blocks
      ensures torrent.Valid() && torrent.Abs() == old(torrent.Abs()).(table := torrent.blocks.Abs())
      ensures (claimed, torrent.blocks.Abs()) ==
              TryClaim(old(torrent.Abs()), old(torrent.blocks.Abs()), key, a, now)
    {
      match a.take {
        case Free =>
          claimed := torrent.ClaimRequest(a.req, key, now);
        case From(holder) =>
          torrent.blocks.Release(a.req, holder);
          claimed := torrent.ClaimRequest(a.req, key, now);
        case Copy(eager) =>
          if eager && !a.granted {
            return false;
          }
          claimed := torrent.ClaimHedge(a.req, key);
      }
    }

    /** Claims and requests picked blocks until one cannot be sent. */
    method ClaimAndSend(picks: seq<Attempt>, now: int)
      requires torrent.Valid()
      modifies this, torrent.blocks
      ensures torrent.Valid() && torrent.blocks.writing == old(torrent.blocks.writing)
      ensures (torrent.blocks.Abs(), Abs()) ==
              ClaimAll(old(torrent.Abs()), old(torrent.blocks.Abs()), old(Abs()), key, picks, now)
    {
      ghost var t0 := torrent.Abs();
      ghost var goal := ClaimAll(t0, torrent.blocks.Abs(), Abs(), key, picks, now);
      var i := 0;
      while i < |picks|
        invariant 0 <= i <= |picks| && torrent.Valid()
        invariant torrent.Abs() == t0.(table := torrent.blocks.Abs())
        invariant ClaimAll(t0, torrent.blocks.Abs(), Abs(), key, picks[i..], now) == goal
      {
        var a := picks[i];
        assert picks[i..][1..] == picks[i + 1..];
        i := i + 1;
        if a.req in outstanding {
          continue;
        }
        TableIrrelevant(t0, torrent.blocks.Abs(), torrent.blocks.Abs(), key, a, now);
        var claimed := ClaimPicked(a, now);
        if !claimed {
          continue;
        }
        var sent := SendRequest(a.req, a.sent);
        if !sent {
          if a.take.Copy? {
            torrent.blocks.ClearSecond(a.req);
          } else {
            torrent.blocks.Release(a.req, key);
          }
          return;
        }
        outstanding := outstanding + {a.req};
      }
    }

    method DisplacedRequests() returns (gone: set<RequestIndex>)
      requires Valid()
      ensures gone == Displaced(torrent.Abs(), Abs(), key)
    {
      gone := set r | r in outstanding && (r in torrent.dirty || !torrent.blocks.HeldBy(r, key));
    }

    method UnfocusedRequests() returns (gone: set<RequestIndex>)
      requires Valid()
      ensures gone == Unfocused(torrent.Abs(), Abs())
    {
      gone := set r | r in outstanding && PriorityOf(r) != Now;
    }

    /** Drops what others took or delivered, and fixes the request limit. */
    method ReconcileRequests(refocus: bool, limit: nat, now: int)
      requires Valid()
      modifies this, torrent.blocks
      ensures Valid() && torrent.blocks.writing == old(torrent.blocks.writing)
      ensures (torrent.blocks.Abs(), Abs()) == Reconcile(old(torrent.Abs()), old(Abs()), key, refocus, limit, now)
    {
      var displaced := DisplacedRequests();
      var unfocused := {};
      if refocus {
        unfocused := UnfocusedRequests();
      }
      CancelEach(displaced + unfocused, now);
      FixLimit(limit);
    }

    /** A peer with everything has every piece by now; the request limit is the new one. */
    method FixLimit(limit: nat)
      modifies this`pieces, this`pipelineLimit
      ensures var all := haveAll && |torrent.pieces| > 0 && |old(pieces)| < |torrent.pieces|;
              Abs() == old(Abs()).(pieces := if all then old(pieces) + Interval(0, |torrent.pieces|) else old(pieces),
                                   pipelineLimit := limit)
    {
      if haveAll && |torrent.pieces| > 0 && |pieces| < |torrent.pieces| {
        pieces := pieces + Interval(0, |torrent.pieces|);
      }
      pipelineLimit := limit;
    }

    /** Recomputes this peer's requests: reconciles with the table, then claims what was picked. */
    method UpdateRequests(refocus: bool, limit: nat, picks: seq<Attempt>, now: int)
      requires Valid()
      modifies this, torrent.blocks
      ensures torrent.Valid() && torrent.blocks.writing == old(torrent.blocks.writing)
      ensures InRange(picks, torrent.blocks.limit) ==> Valid()
      ensures (torrent.blocks.Abs(), Abs()) == Refill(old(torrent.Abs()), old(Abs()), key, refocus, limit, picks, now)
    {
      ghost var t0, c0 := torrent.Abs(), Abs();
      ReconcileRequests(refocus, limit, now);
      RefillIs(t0, c0, key, refocus, limit, picks, now);
      ClaimWithinRoom(picks, now);
    }

    /** Claims as many of the picked blocks as the limit has room for. */
    method ClaimWithinRoom(picks: seq<Attempt>, now: int)
      requires Valid()
      modifies this, torrent.blocks
      ensures torrent.Valid() && torrent.blocks.writing == old(torrent.blocks.writing)
      ensures InRange(picks, torrent.blocks.limit) ==> Valid()
      ensures (torrent.blocks.Abs(), Abs()) == FillRoom(old(torrent.Abs()), old(torrent.blocks.Abs()), old(Abs()), key, picks, now)
    {
      var some := picks[..Min(RoomNow(), |picks|)];
      if InRange(picks, torrent.blocks.limit) {
        ClaimAllBelow(torrent.Abs(), torrent.blocks.Abs(), Abs(), key, some, now, torrent.blocks.limit);
      }
      ClaimAndSend(some, now);
      peak := Max(peak, |outstanding|);
    }

    function RoomNow(): (room: nat)
      reads this
      ensures room == Room(Abs())
    {
      var nominal := NominalMax();
      if nominal >= |outstanding| then nominal - |outstanding| else 0
    }

    method HandleHave(index: PieceIndex)
      requires Valid()
      modifies this`pieces, torrent`announced
      ensures Valid() && (torrent.Abs(), Abs()) == Have(old(torrent.Abs()), old(Abs()), index)
    {
      if index !in pieces {
        pieces := pieces + {index};
        torrent.NoteAvailability(index, 1);
      }
    }

    /** Replaces the announced pieces, and moves the peer to the per-piece counters. */
    method ReplacePieces(next: set<PieceIndex>)
      requires Valid()
      modifies this`pieces, this`haveAll, torrent`announced, torrent`haveAllPeers
      ensures Valid() && pieces == next && !haveAll
      ensures torrent.haveAllPeers == old(torrent.haveAllPeers) - if old(haveAll) then 1 else 0
      ensures torrent.announced ==
              var counts := if old(haveAll) then Note(old(torrent.announced), old(pieces), 1) else old(torrent.announced);
              Note(Note(counts, old(pieces) - next, -1), next - old(pieces), 1)
    {
      if haveAll {
        torrent.haveAllPeers := torrent.haveAllPeers - 1;
        torrent.NoteEach(pieces, 1);
      }
      torrent.NoteEach(pieces - next, -1);
      torrent.NoteEach(next - pieces, 1);
      pieces := next;
      haveAll := false;
    }

    /** A (replacement) bitfield, one bit per piece index. Bits past the last piece are ignored. */
    method HandleBitfield(bits: seq<bool>, now: int)
      requires Valid()
      modifies this, torrent`announced, torrent`haveAllPeers, torrent.blocks
      ensures Valid()
      ensures (torrent.Abs(), Abs()) == Bitfield(old(torrent.Abs()), old(Abs()), key, Claimed(bits), now)
    {
      var next := SelectPieces(bits, |torrent.pieces|);
      assert next == set i | i in Claimed(bits) && (|torrent.pieces| == 0 || i < |torrent.pieces|);
      var removed := pieces - next;
      ReplacePieces(next);
      var unavailable := set r | r in outstanding && torrent.layout.PieceOf(r) in removed;
      CancelEach(unavailable, now);
    }

    method HandleHaveAll()
      requires Valid()
      modifies this`pieces, this`haveAll, torrent`announced, torrent`haveAllPeers
      ensures Valid() && (torrent.Abs(), Abs()) == HaveAll(old(torrent.Abs()), old(Abs()))
    {
      if !haveAll {
        torrent.NoteEach(pieces, -1);
        torrent.haveAllPeers := torrent.haveAllPeers + 1;
        pieces := pieces + Interval(0, |torrent.pieces|);
        haveAll := true;
      }
    }

    /** One answer fewer expected. */
    method DecExpected(req: RequestIndex)
      modifies this`expected
      ensures expected == Received(old(expected), req)
    {
      if req in expected {
        if expected[req] <= 1 {
          expected := expected - {req};
        } else {
          expected := expected[req := expected[req] - 1];
        }
      }
    }

    /** The request is answered: it is neither outstanding nor waiting for a cancel's reply. */
    method Unpend(req: RequestIndex)
      modifies this`outstanding, this`cancelled, this`cancelledAt, this`expected
      ensures Abs() == old(Abs()).(outstanding := old(outstanding) - {req}, cancelled := old(cancelled) - {req},
                                   cancelledAt := old(cancelledAt) - {req}, expected := Received(old(expected), req))
    {
      outstanding := outstanding - {req};
      cancelled := cancelled - {req};
      cancelledAt := cancelledAt - {req};
      DecExpected(req);
    }

    /** An expected block, up to the point where its bytes go to storage. */
    method AcceptBlock(w: Write)
      requires Valid()
      modifies this, torrent.blocks
      ensures Valid()
      ensures var (t, c) := Accept(old(torrent.Abs()), old(Abs()), key, w);
              && torrent.Abs() == (if w.req < torrent.blocks.limit then t else t.(writing := old(torrent.blocks.writing)))
              && Abs() == c
    {
      Unpend(w.req);
      ReserveBlock(w);
    }

    /** Reserves the block for writing, or gives up every claim to it. */
    method ReserveBlock(w: Write)
      requires Valid()
      modifies this`write, torrent.blocks
      ensures Valid()
      ensures var t := old(torrent.Abs());
              var table := t.table.ReleaseSecond(w.req, key);
              var inside := w.req < torrent.blocks.limit;
              if t.MayWrite(w.req)
              then write == Some(w) &&
                   torrent.Abs() == t.(table := table, writing := if inside then t.writing + {w.req} else t.writing)
              else write == old(write) &&
                   torrent.Abs() == t.(table := table.Release(w.req, key).ReleaseSecond(w.req, key))
    {
      torrent.blocks.ReleaseSecond(w.req, key);
      var reserved := torrent.BeginChunkWrite(w.req);
      if reserved {
        write := Some(w);
      } else {
        torrent.blocks.Release(w.req, key);
        torrent.blocks.ReleaseSecond(w.req, key);
      }
    }

    /** A block message arrives. Past the bit sets its reservation leaves no trace. */
    method ReceivePiece(index: PieceIndex, begin: nat, length: nat)
      requires Valid() && write.None?
      modifies this, torrent.blocks
      ensures Valid()
      ensures var (t, c) := Deliver(old(torrent.Abs()), old(Abs()), key, index, begin, length);
              var inside := torrent.layout.WireIndex(index, begin) < torrent.blocks.limit;
              && torrent.Abs() == (if inside then t else t.(writing := old(torrent.blocks.writing)))
              && Abs() == c
    {
      var req := torrent.layout.WireIndex(index, begin);
      if req in outstanding || (req in expected && expected[req] > 0) {
        AcceptBlock(Write(req, index, begin, length));
      }
    }

    /** Storage answered. Past the bit sets no block is marked. */
    method FinishPiece(ok: bool, accepted: bool)
      requires Valid() && write.Some?
      modifies this`write, torrent`dirty, torrent`pieces, torrent`jobs, torrent.blocks
      ensures Valid()
      ensures var (t, c) := Written(old(torrent.Abs()), old(Abs()), key, ok, accepted);
              var inside := old(write).value.req < torrent.blocks.limit;
              && torrent.Abs() == (if inside then t else t.(dirty := old(torrent.dirty)))
              && Abs() == c
    {
      var w := write.value;
      write := None;
      if ok {
        BlockStored(w, accepted);
      } else {
        torrent.FinishChunkWrite(w.req, false);
        torrent.blocks.Release(w.req, key);
      }
    }

    /** A block is in storage: nobody holds it any more, and its piece may be full. */
    method BlockStored(w: Write, accepted: bool)
      requires Valid()
      modifies torrent`dirty, torrent`pieces, torrent`jobs, torrent.blocks
      ensures Valid()
      ensures var t1 := old(torrent.Abs()).FinishWrite(w.req, true);
              var t := t1.(table := Table(t1.table.owners - {w.req}, t1.table.seconds - {w.req})).QueueIfFull(w.piece, accepted);
              torrent.Abs() == if w.req < torrent.blocks.limit then t else t.(dirty := old(torrent.dirty))
    {
      torrent.FinishChunkWrite(w.req, true);
      torrent.blocks.Clear(w.req);
      MarkPast(torrent.Abs(), w.req, w.piece);
      QueueIfFull(w.piece, accepted);
    }

    method QueueIfFull(piece: PieceIndex, accepted: bool)
      requires Valid()
      modifies torrent`pieces, torrent`jobs
      ensures Valid() && torrent.Abs() == old(torrent.Abs()).QueueIfFull(piece, accepted)
    {
      var full := torrent.PieceAllDirty(piece);
      if full {
        torrent.QueuePieceHash(piece, accepted);
      }
    }

    method HandleReject(index: PieceIndex, begin: nat)
      requires Valid()
      modifies this, torrent.blocks
      ensures Valid() && torrent.blocks.writing == old(torrent.blocks.writing)
      ensures (torrent.blocks.Abs(), Abs()) == Reject(old(torrent.Abs()), old(Abs()), key, index, begin)
    {
      var req := torrent.layout.WireIndex(index, begin);
      if req in outstanding {
        peak := if peak >= 1 then peak - 1 else 0;
      }
      Unpend(req);
      WithdrawOne(req);
    }

    method WithdrawOne(req: RequestIndex)
      requires Valid()
      modifies torrent.blocks
      ensures Valid() && torrent.blocks.writing == old(torrent.blocks.writing)
      ensures torrent.blocks.Abs() == old(torrent.blocks.Abs()).Withdraw({req}, key)
    {
      ghost var t := torrent.blocks.Abs();
      var owner := torrent.blocks.Owner(req);
      if owner.Some? && owner.value.peer == key {
        torrent.blocks.ClearOwner(req);
      }
      if torrent.blocks.Second(req) == Some(key) {
        torrent.blocks.ReleaseSecond(req, key);
      }
      assert torrent.blocks.Abs().owners == t.Withdraw({req}, key).owners;
      assert torrent.blocks.Abs().seconds == t.Withdraw({req}, key).seconds;
    }

    /** The connection ended: take back its announcements, then everything it holds. */
    method OnClosed()
      requires Valid()
      modifies this, torrent`announced, torrent`haveAllPeers, torrent.blocks
      ensures Valid() && torrent.Abs() == Close(old(torrent.Abs()), old(Abs()), key)
    {
      if haveAll {
        torrent.haveAllPeers := torrent.haveAllPeers - 1;
      } else {
        torrent.NoteEach(pieces, -1);
      }
      ClearOwned();
      torrent.blocks.ForgetPeer(key);
    }

    method ClearOwned()
      requires Valid()
      modifies torrent.blocks
      ensures Valid() && torrent.blocks.writing == old(torrent.blocks.writing)
      ensures torrent.blocks.Abs().Forget(key) == old(torrent.blocks.Abs()).Forget(key)
    {
      var left := outstanding;
      while left != {}
        invariant Valid() && torrent.blocks.writing == old(torrent.blocks.writing)
        invariant torrent.blocks.Abs().Forget(key) == old(torrent.blocks.Abs()).Forget(key)
        decreases left
      {
        var r :| r in left;
        left := left - {r};
        var owner := torrent.blocks.Owner(r);
        if owner.Some? && owner.value.peer == key {
          ForgetAbsorbs(torrent.blocks.Abs(), r, key);
          torrent.blocks.ClearOwner(r);
        }
      }
    }

    function PriorityOf(req: RequestIndex): PiecePriority
      reads this, torrent
    {
      var piece := torrent.layout.PieceOf(req);
      if piece < |torrent.pieces| then torrent.pieces[piece].priority else Unwanted
    }

    /** The most requests that respect every limit. */
    function NominalMax(): (limit: nat)
      reads this
      ensures limit >= 1 && Abs().Allows(limit)
      ensures forall n: nat :: Abs().Allows(n) ==> n <= limit
    {
      Abs().Nominal()
    }
  }

  function Claimed(bits: seq<bool>): set<PieceIndex> {
    set i | 0 <= i < |bits| && bits[i]
  }

  lemma RefillIs(t: Torrent, c: Conn, me: PeerKey, refocus: bool, limit: nat, picks: seq<Attempt>, now: int)
    ensures var (table, c1) := Reconcile(t, c, me, refocus, limit, now);
            Refill(t, c, me, refocus, limit, picks, now) == FillRoom(t.(table := table), table, c1, me, picks, now)
  {
    var (table, c1) := Reconcile(t, c, me, refocus, limit, now);
    TableUnused(t, table, table, c1, me, picks[..Min(Room(c1), |picks|)], now);
  }

  /** Marking a block past the torrent's last one fills no piece. */
  lemma MarkPast(t: Torrent, req: RequestIndex, piece: PieceIndex)
    requires t.layout.Valid()
    ensures req >= t.layout.MaxEnd() ==> (t.(dirty := t.dirty + {req}).AllDirty(piece) <==> t.AllDirty(piece))
  {
    if req >= t.layout.MaxEnd() {
      RangesPartition(t.layout, req, piece);
      var t' := t.(dirty := t.dirty + {req});
      assert forall r :: r in t'.dirty <==> r in t.dirty || r == req;
    }
  }

  /** The pieces a bitfield message claims, as far as the torrent has them. */
  method SelectPieces(bits: seq<bool>, numPieces: nat) returns (next: set<PieceIndex>)
    ensures forall i: nat :: i in next <==> i < |bits| && bits[i] && (numPieces == 0 || i < numPieces)
  {
    next := {};
    var i := 0;
    while i < |bits|
      invariant 0 <= i <= |bits|
      invariant forall j: nat :: j in next <==> j < i && bits[j] && (numPieces == 0 || j < numPieces)
    {
      if bits[i] && (numPieces == 0 || i < numPieces) {
        next := next + {i};
      }
      i := i + 1;
    }
  }

  lemma ForgetAbsorbs(t: Table, req: RequestIndex, peer: PeerKey)
    requires t.OwnedBy(req, peer)
    ensures t.(owners := t.owners - {req}).Forget(peer) == t.Forget(peer)
  {
    assert t.(owners := t.owners - {req}).Forget(peer).owners == t.Forget(peer).owners;
  }

  lemma CancelNothing(t: Table, c: Conn, me: PeerKey, reqs: set<RequestIndex>, now: int)
    requires reqs !! c.outstanding
    ensures Cancel(t, c, me, reqs, now) == (t, c)
  {
    var gone := reqs * c.outstanding;
    assert gone == {};
    assert t.Withdraw(gone, me).owners == t.owners && t.Withdraw(gone, me).seconds == t.seconds;
    assert c.outstanding - gone == c.outstanding && c.cancelled + gone == c.cancelled;
    assert c.cancelledAt + (map r | r in gone :: now) == c.cancelledAt;
  }

  lemma CancelOne(t: Table, c: Conn, me: PeerKey, req: RequestIndex, now: int)
    requires req in c.outstanding
    ensures Cancel(t, c, me, {req}, now) ==
            (t.ReleaseSecond(req, me).Release(req, me),
             c.(outstanding := c.outstanding - {req},
                cancelled := if c.rejectsCancels then c.cancelled + {req} else c.cancelled,
                cancelledAt := c.cancelledAt[req := now]))
  {
    var gone := {req} * c.outstanding;
    assert gone == {req};
    var t1, t2 := t.ReleaseSecond(req, me).Release(req, me), t.Withdraw(gone, me);
    assert t1.owners == t2.owners && t1.seconds == t2.seconds;
    assert c.cancelledAt + (map r | r in gone :: now) == c.cancelledAt[req := now];
  }

  lemma WithdrawOneMore(t: Table, me: PeerKey, gone: set<RequestIndex>, more: set<RequestIndex>)
    ensures t.Withdraw(gone, me).Withdraw(more, me) == t.Withdraw(gone + more, me)
  {
    assert t.Withdraw(gone, me).Withdraw(more, me).owners == t.Withdraw(gone + more, me).owners;
    assert t.Withdraw(gone, me).Withdraw(more, me).seconds == t.Withdraw(gone + more, me).seconds;
  }

  /** Cancelling one request after some others is cancelling them all: order does not matter. */
  lemma CancelOneMore(t: Table, c: Conn, me: PeerKey, reqs: set<RequestIndex>, req: RequestIndex, now: int)
    requires req !in reqs
    ensures var (t1, c1) := Cancel(t, c, me, reqs, now);
            Cancel(t1, c1, me, {req}, now) == Cancel(t, c, me, reqs + {req}, now)
  {
    var c1 := Cancel(t, c, me, reqs, now).1;
    var gone, more := reqs * c.outstanding, {req} * c1.outstanding;
    assert gone + more == (reqs + {req}) * c.outstanding;
    WithdrawOneMore(t, me, gone, more);
    assert c.outstanding - gone - more == c.outstanding - (gone + more);
    assert c.cancelled + gone + more == c.cancelled + (gone + more);
    assert c.cancelledAt + (map r | r in gone :: now) + (map r | r in more :: now) ==
           c.cancelledAt + (map r | r in gone + more :: now);
  }

  /** A claim looks at the torrent's blocks, not at its table: the current table is passed along. */
  lemma TableIrrelevant(t: Torrent, other: Table, table: Table, me: PeerKey, a: Attempt, now: int)
    ensures TryClaim(t.(table := other), table, me, a, now) == TryClaim(t, table, me, a, now)
  {
  }

  lemma {:induction false} TableUnused(t: Torrent, other: Table, table: Table, c: Conn, me: PeerKey, attempts: seq<Attempt>, now: int)
    ensures ClaimAll(t.(table := other), table, c, me, attempts, now) == ClaimAll(t, table, c, me, attempts, now)
    decreases |attempts|
  {
    if attempts != [] {
      var a := attempts[0];
      TableIrrelevant(t, other, table, me, a, now);
      var (claimed, table1) := TryClaim(t, table, me, a, now);
      TableUnused(t, other, table, c, me, attempts[1..], now);
      TableUnused(t, other, table1, c, me, attempts[1..], now);
      TableUnused(t, other, table1, Sent(c, a.req), me, attempts[1..], now);
    }
  }
}
