/** The block picker: four passes over shared and per-peer state produce one request list. */
module Picker {
  import opened Types
  import opened Geometry
  import opened BlockTables
  import opened Protocol
  import opened Wanted
  import Swarm
  import Ownership
  import Effects
  import Bounds

  const PLAYHEAD_WINDOW_BLOCKS := 128
  const SEEK_COPY_BLOCKS := 64
  const STALLED_SCAN_PIECES := 256
  const STALLED_TAKE := 16
  const SLOW_PEER_YIELDS := 10
  const ENDGAME_BYTES := 16 * 1024 * 1024
  const PLAYBACK_OPEN_BYTES := 64 * 1024 * 1024
  const SAVED_OPEN_BYTES := 192 * 1024 * 1024
  const OPEN_MIN_PIECES := 4

  datatype Entry = Entry(req: RequestIndex, take: Take)

  datatype Pick = Pick(blocks: seq<Entry>, interested: bool)

  /** What one refill sees: the torrent, the shared scan, and the refilling peer. */
  datatype View = View(t: Torrent, wanted: WantedPieces, peer: Conn, me: PeerKey) {
    predicate Requestable(piece: PieceIndex) {
      piece < |wanted.requestable| && wanted.requestable[piece]
    }

    predicate Has(piece: PieceIndex) {
      peer.haveAll || piece in peer.pieces
    }

    predicate Blocked(piece: PieceIndex) {
      peer.choking && piece !in peer.allowedFast
    }

    predicate Tracks(req: RequestIndex) {
      req in peer.outstanding || req in peer.cancelled
    }

    /** Delivered, or being delivered. */
    predicate Done(req: RequestIndex) {
      req in t.dirty || req in t.writing
    }

    predicate BlockFree(req: RequestIndex) {
      !Done(req) && req !in t.table.owners
    }

    /** The scan is current, and the table credits this peer only with what it has requested. */
    ghost predicate Sound() {
      && t.layout.Valid() && |t.pieces| == t.layout.NumPieces() && Swarm.Sized(t) && Agrees(wanted, t.pieces)
      && (forall r <- t.table.owners :: t.table.owners[r].peer == me ==> r in peer.outstanding)
    }

    /** A block of a wanted piece that this peer has and may be asked for. */
    predicate Eligible(req: RequestIndex) {
      var piece := t.layout.PieceOf(req);
      && Requestable(piece) && Has(piece) && !Blocked(piece) && !Tracks(req)
      && t.layout.RangeBegin(piece) <= req < t.layout.RangeEnd(piece)
    }

    /** An eligible block, taken in a way that is true of the table. */
    predicate Proper(e: Entry) {
      && Eligible(e.req)
      && match e.take
         case Free => BlockFree(e.req)
         case From(holder) => t.table.OwnedBy(e.req, holder) && holder != me
         case Copy(_) => e.req in t.table.owners && t.table.owners[e.req].peer != me && !Done(e.req)
    }

    /** Proper entries, no block twice. */
    ghost predicate Good(blocks: seq<Entry>) {
      && (forall e :: e in blocks ==> Proper(e))
      && (forall i, j :: 0 <= i < j < |blocks| ==> blocks[i].req != blocks[j].req)
    }

    /** Some requestable piece is at this peer. */
    ghost predicate HasWanted() {
      exists i :: 0 <= i < |t.pieces| && t.pieces[i].priority != Unwanted && !t.pieces[i].complete &&
                  !t.pieces[i].checking && (peer.haveAll || i in peer.pieces)
    }

    /** Some candidate before position `k` is at this peer. */
    ghost predicate Offered(k: nat)
      requires k <= |wanted.candidates|
    {
      exists j :: 0 <= j < k && Has(wanted.candidates[j].index)
    }

    /** `piece` is a candidate before position `k`. */
    ghost predicate Seen(k: nat, piece: PieceIndex)
      requires k <= |wanted.candidates|
    {
      exists j :: 0 <= j < k && wanted.candidates[j].index == piece
    }
  }

  /** Everything the passes measure. Rates, round trips and ages decide these; the contracts hold
      whatever the answers are. */
  datatype Measures = Measures(
    leaveIt: RequestIndex -> bool,      // a much quicker peer should fetch this playhead block
    stuck: RequestIndex -> bool,        // its holder went quiet while the player waits for it
    mayCopy: bool,                      // second copies are on and this peer's speed is known
    overdue: RequestIndex -> bool,      // its holder is late
    eager: bool,                        // the seek still has copies to spend
    quickest: RequestIndex -> bool,     // no other peer would deliver a copy sooner
    slow: bool,                         // this peer lets faster ones go first
    outrun: PieceIndex -> bool,         // faster peers finish the piece before this one gets to it
    starving: bool,                     // this peer has next to nothing queued
    moving: bool,                       // this peer delivers at all
    stalled: RequestIndex -> bool)      // held too long by a peer under half this one's rate

  datatype Window = Window(begin: RequestIndex, end: RequestIndex) {
    predicate Contains(req: RequestIndex) {
      begin <= req < end
    }
  }

  predicate Within(window: Option<Window>, req: RequestIndex) {
    window.Some? && window.value.Contains(req)
  }

  /** What makes a block eligible, from the state alone: its piece is wanted, open and at this peer,
      which may be asked for it and has neither requested nor cancelled it. */
  lemma EligibleMeans(v: View, req: RequestIndex)
    requires v.Sound()
    ensures var piece := req / v.t.layout.ChunksPerPiece();
            v.Eligible(req) <==>
            && piece < |v.t.pieces| && v.t.pieces[piece].priority != Unwanted
            && !v.t.pieces[piece].complete && !v.t.pieces[piece].checking
            && (v.peer.haveAll || piece in v.peer.pieces) && (v.peer.choking ==> piece in v.peer.allowedFast)
            && req !in v.peer.outstanding && req !in v.peer.cancelled && req < v.t.layout.MaxEnd()
  {
    if req < v.t.layout.MaxEnd() {
      RangeCovers(v.t.layout, req);
    }
    if v.Eligible(req) {
      RangeMember(v.t.layout, req, v.t.layout.PieceOf(req));
    }
  }

  lemma Appended(v: View, blocks: seq<Entry>, e: Entry)
    requires v.Good(blocks) && v.Proper(e) && forall b :: b in blocks ==> b.req != e.req
    ensures v.Good(blocks + [e])
  {
  }

  /** Joins two lists that share no block. */
  lemma Joined(v: View, a: seq<Entry>, b: seq<Entry>)
    requires v.Good(a) && v.Good(b) && forall x, y :: x in a && y in b ==> x.req != y.req
    ensures v.Good(a + b)
  {
  }

  lemma CandidateIs(v: View, k: nat)
    requires v.Sound() && k < |v.wanted.candidates|
    ensures var piece := v.wanted.candidates[k].index;
            && piece < |v.t.pieces| && v.t.pieces[piece].Requestable() && v.Requestable(piece)
            && !v.Seen(k, piece) && (v.Has(piece) ==> v.HasWanted())
  {
    assert v.wanted.candidates[k] in v.wanted.candidates;
  }

  lemma OfferedIsWanted(v: View)
    requires v.Sound() && v.HasWanted()
    ensures v.Offered(|v.wanted.candidates|)
  {
    var i :| 0 <= i < |v.t.pieces| && v.t.pieces[i].Requestable() && v.Has(i);
    var c :| c in v.wanted.candidates && c.index == i;
  }

  // ------------------------------------------------------------ playhead

  /** How the playhead pass takes block `req`, if it does. */
  function PlayheadTake(v: View, focus: RequestIndex, req: RequestIndex, m: Measures): (take: Option<Take>)
    ensures take.Some? && v.Sound() && v.Eligible(req) && !v.Done(req) ==> v.Proper(Entry(req, take.value))
  {
    var table := v.t.table;
    if req !in table.owners || table.owners[req].peer == v.me then
      if m.leaveIt(req) then None else Some(Free)
    else if m.stuck(req) then Some(From(table.owners[req].peer))
    else if !m.mayCopy || req in table.seconds then None
    else if !m.overdue(req) && !(m.eager && req < focus + SEEK_COPY_BLOCKS) then None
    else if m.quickest(req) then Some(Copy(!m.overdue(req)))
    else None
  }

  /** The playhead pass, rule by rule: a block nobody else holds is asked for unless a much quicker
      peer should have it; a stuck one is taken over; one that is late, or near a fresh seek, is
      copied once by the quickest peer. Nothing else is taken. */
  lemma PlayheadMeans(v: View, focus: RequestIndex, req: RequestIndex, m: Measures)
    ensures var take := PlayheadTake(v, focus, req, m);
            var held := req in v.t.table.owners && v.t.table.owners[req].peer != v.me;
            var copied := held && !m.stuck(req) && m.mayCopy && req !in v.t.table.seconds && m.quickest(req);
            && (take == Some(Free) <==> !held && !m.leaveIt(req))
            && (forall p :: take == Some(From(p)) <==> held && v.t.table.owners[req].peer == p && m.stuck(req))
            && (take == Some(Copy(false)) <==> copied && m.overdue(req))
            && (take == Some(Copy(true)) <==> copied && !m.overdue(req) && m.eager && req < focus + 64)
  {
  }

  /** The playhead pass has a use for block `req`. */
  predicate Takes(v: View, focus: RequestIndex, req: RequestIndex, m: Measures) {
    v.Eligible(req) && !v.Done(req) && PlayheadTake(v, focus, req, m).Some?
  }

  /** Every block of the window the pass has a use for is listed, in order, until the list is full. */
  ghost predicate AheadIsComplete(v: View, want: nat, window: Window, m: Measures, blocks: seq<Entry>) {
    && (forall i, j :: 0 <= i < j < |blocks| ==> blocks[i].req < blocks[j].req)
    && forall r: RequestIndex :: window.Contains(r) && Takes(v, window.begin, r, m) ==>
         || Entry(r, PlayheadTake(v, window.begin, r, m).value) in blocks
         || (|blocks| == want && forall e :: e in blocks ==> e.req < r)
  }

  /** One sweep over the window, which lists every block the pass has a use for while there is room. */
  method PickPlayhead(v: View, want: nat, window: Window, m: Measures) returns (pick: Pick)
    requires v.Sound() && window.end <= v.t.layout.MaxEnd()
    ensures |pick.blocks| <= want && v.Good(pick.blocks)
    ensures forall e :: e in pick.blocks ==> window.Contains(e.req) && PlayheadTake(v, window.begin, e.req, m) == Some(e.take)
    ensures AheadIsComplete(v, want, window, m, pick.blocks)
    ensures pick.interested ==> v.HasWanted()
    ensures pick.blocks != [] ==> pick.interested
  {
    pick := Pick([], false);
    var req := window.begin;
    while req < window.end && |pick.blocks| < want
      invariant window.begin <= req && |pick.blocks| <= want
      invariant Swept(v, window, m, req, pick)
      decreases window.end - req
    {
      var piece := v.t.layout.PieceOf(req);
      RangeCovers(v.t.layout, req);
      SweepPast(v, window, m, req, pick);
      if v.Requestable(piece) && !v.Done(req) && !v.Tracks(req) && v.Has(piece) {
        pick := pick.(interested := true);
        if !v.Blocked(piece) {
          var take := PlayheadTake(v, window.begin, req, m);
          if take.Some? {
            SweepTakes(v, window, m, req, pick);
            pick := pick.(blocks := pick.blocks + [Entry(req, take.value)]);
          }
        }
      }
      req := req + 1;
    }
  }

  /** The window has been looked at up to `req`: what is listed is what the pass has a use for. */
  ghost predicate Swept(v: View, window: Window, m: Measures, req: RequestIndex, pick: Pick) {
    && v.Good(pick.blocks)
    && (forall e :: e in pick.blocks ==>
          window.begin <= e.req < req && e.req < window.end && PlayheadTake(v, window.begin, e.req, m) == Some(e.take))
    && (forall i, j :: 0 <= i < j < |pick.blocks| ==> pick.blocks[i].req < pick.blocks[j].req)
    && (forall r: RequestIndex :: window.begin <= r < req && Takes(v, window.begin, r, m) ==>
          Entry(r, PlayheadTake(v, window.begin, r, m).value) in pick.blocks)
    && (pick.interested ==> v.HasWanted())
    && (pick.blocks != [] ==> pick.interested)
  }

  lemma SweepPast(v: View, window: Window, m: Measures, req: RequestIndex, pick: Pick)
    requires v.Sound() && Swept(v, window, m, req, pick)
    ensures !Takes(v, window.begin, req, m) ==> Swept(v, window, m, req + 1, pick)
    ensures var piece := v.t.layout.PieceOf(req);
            v.Requestable(piece) && v.Has(piece) ==>
              && Swept(v, window, m, req, pick.(interested := true))
              && (!Takes(v, window.begin, req, m) ==> Swept(v, window, m, req + 1, pick.(interested := true)))
  {
    var piece := v.t.layout.PieceOf(req);
    if v.Requestable(piece) && v.Has(piece) {
      assert v.t.pieces[piece].Requestable();
    }
  }

  lemma SweepTakes(v: View, window: Window, m: Measures, req: RequestIndex, pick: Pick)
    requires v.Sound() && Swept(v, window, m, req, pick) && pick.interested
    requires window.begin <= req < window.end && Takes(v, window.begin, req, m)
    ensures var e := Entry(req, PlayheadTake(v, window.begin, req, m).value);
            Swept(v, window, m, req + 1, pick.(blocks := pick.blocks + [e]))
  {
    Appended(v, pick.blocks, Entry(req, PlayheadTake(v, window.begin, req, m).value));
  }

  // ------------------------------------------------------------ the shared queue

  /** A free block the queue may hand to this peer. */
  predicate Queued(v: View, window: Option<Window>, req: RequestIndex) {
    v.Eligible(req) && v.BlockFree(req) && !Within(window, req)
  }

  /** Free blocks of one piece from its block `from` on, at most `room` of them, and the next
      block to look at. */
  method PickFromPiece(v: View, room: nat, window: Option<Window>, index: PieceIndex, from: nat)
    returns (extra: seq<Entry>, next: nat)
    requires v.Sound() && v.Requestable(index) && v.Has(index) && !v.Blocked(index)
    ensures |extra| <= room && v.Good(extra) && next >= from
    ensures forall e :: e in extra ==>
              && e.take == Free && v.t.layout.PieceOf(e.req) == index && !Within(window, e.req)
              && from <= e.req - v.t.layout.RangeBegin(index) < next
    ensures forall r: RequestIndex :: Queued(v, window, r) ==>
              from <= r - v.t.layout.RangeBegin(index) < next ==> Entry(r, Free) in extra
    ensures |extra| < room ==> v.t.layout.RangeEnd(index) <= v.t.layout.RangeBegin(index) + next
  {
    var begin, end := v.t.layout.RangeBegin(index), v.t.layout.RangeEnd(index);
    extra := [];
    var at := begin + from;
    while at < end && |extra| < room
      invariant begin + from <= at && |extra| <= room && v.Good(extra)
      invariant forall e :: e in extra ==>
                  && e.take == Free && begin + from <= e.req < at && v.t.layout.PieceOf(e.req) == index && !Within(window, e.req)
      invariant forall r: RequestIndex :: begin + from <= r < at && Queued(v, window, r) ==> Entry(r, Free) in extra
      decreases end - at
    {
      var req := at;
      at := at + 1;
      if Within(window, req) || v.Tracks(req) || !v.BlockFree(req) {
        continue;
      }
      RangeMember(v.t.layout, req, index);
      Appended(v, extra, Entry(req, Free));
      extra := extra + [Entry(req, Free)];
    }
    next := at - begin;
  }

  /** One cursor per piece: refills go on where the one before them stopped. */
  class SharedQueue {
    var next: seq<nat>
    var rewound: bool
    var open: nat
    var generation: nat

    /** A seek asks for this: the next refill starts over. */
    method Rewind()
      modifies this`rewound
      ensures !rewound
    {
      rewound := false;
    }

    /** Starts over after a seek, when the piece count changed or when the last rewind is too old,
        and counts the open pieces again when anything changed. */
    method Prepare(wanted: WantedPieces, tooOld: bool)
      modifies this
      ensures next == Cursors(old(next), |wanted.requestable|, !old(rewound) || tooOld) && rewound
      ensures var rewind := |old(next)| != |wanted.requestable| || !old(rewound) || tooOld;
              open == if rewind || old(generation) != wanted.generation
                      then wanted.checking + CountOpen(wanted.candidates, next) else old(open)
    {
      var rewind := |next| != |wanted.requestable| || !rewound || tooOld;
      if rewind {
        next := seq(|wanted.requestable|, _ => 0);
        rewound := true;
      }
      if rewind || generation != wanted.generation {
        generation := wanted.generation;
        open := wanted.checking + CountOpen(wanted.candidates, next);
      }
    }

    /** Best piece first; what is handed out lies between the old cursor of its piece and the new
        one. Only the first call, a seek, a changed piece count or an old rewind start the cursors
        over. Every untouched piece it starts is counted as open. `head` is what the playhead pass
        found. Nothing is held back without a reason: a free block ahead of its cursor is listed, or
        the list is full of nothing later, or the open limit stops it, or it is among the few pieces
        a slow peer leaves to faster ones. */
    method PickQueue(v: View, want: nat, window: Option<Window>, openLimit: int, tooOld: bool, m: Measures, head: Pick)
      returns (pick: Pick, ghost g: Brief, ghost deferred: set<PieceIndex>, ghost tail: seq<Entry>)
      requires v.Sound() && |head.blocks| <= want && v.Good(head.blocks)
      requires forall e :: e in head.blocks ==> Within(window, e.req)
      requires head.interested ==> v.HasWanted()
      modifies this
      ensures |pick.blocks| <= want && v.Good(pick.blocks) && pick.blocks == head.blocks + tail
      ensures pick.interested <==> v.HasWanted()
      ensures rewound
      ensures g == BriefFor(v, want - |head.blocks|, window, openLimit, tooOld, m, old(next), old(rewound), old(open), old(generation))
      ensures QueueLaw(v, g, deferred, next, open, tail)
    {
      Prepare(v.wanted, tooOld);
      var brief := Brief(want - |head.blocks|, window, openLimit, m, next, open);
      g := brief;
      RecountIs(v, next);
      var lap: Lap;
      lap, deferred := RunQueue(v, brief, head.interested);
      Joined(v, head.blocks, lap.tail);
      tail := lap.tail;
      next, open := lap.next, lap.open;
      pick := Pick(head.blocks + lap.tail, lap.interested);
    }
  }

  /** What one queue pass is given: room, limits and measures, and the cursors and the open count it
      starts from. */
  datatype Brief = Brief(room: nat, window: Option<Window>, openLimit: int, m: Measures, start: seq<nat>, before: nat)

  /** How far the pass is: cursors, open pieces, passes left to a slow peer, and what is handed out. */
  datatype Lap = Lap(next: seq<nat>, open: nat, passes: nat, tail: seq<Entry>, interested: bool)

  /** What a refill does with a candidate its peer has. */
  datatype Turn = Halt | Pass | Defer | Serve

  /** Neither begun on disk nor handed out. */
  predicate Untried(c: Candidate, next: seq<nat>) {
    !c.partial && c.index < |next| && next[c.index] == 0
  }

  function Judge(v: View, g: Brief, c: Candidate, lap: Lap): (turn: Turn)
    ensures turn == Serve ==> |lap.tail| < g.room && !v.Blocked(c.index)
    ensures turn == Serve && Untried(c, lap.next) ==> lap.open < g.openLimit || g.m.starving || c.priority == Now
    ensures turn == Defer ==> lap.passes > 0
  {
    if |lap.tail| >= g.room then Halt
    else if v.Blocked(c.index) then (if v.peer.allowedFast == {} then Halt else Pass)
    else if Untried(c, lap.next) && lap.open >= g.openLimit && !g.m.starving && c.priority.Rank() < Now.Rank() then Halt
    else if g.m.slow && c.priority == Next && lap.passes > 0 && g.m.outrun(c.index) then Defer
    else Serve
  }

  /** One pass over the candidates. */
  method RunQueue(v: View, g: Brief, interested: bool) returns (lap: Lap, ghost deferred: set<PieceIndex>)
    requires v.Sound() && |g.start| == |v.t.pieces| && (interested ==> v.HasWanted())
    ensures QueueLaw(v, g, deferred, lap.next, lap.open, lap.tail)
    ensures |lap.tail| <= g.room && v.Good(lap.tail) && forall e :: e in lap.tail ==> !Within(g.window, e.req)
    ensures lap.interested <==> v.HasWanted()
  {
    lap, deferred := Lap(g.start, g.before, SLOW_PEER_YIELDS, [], interested), {};
    LapStarts(v, g, lap);
    var k, stop := 0, false;
    while k < |v.wanted.candidates| && !stop
      invariant 0 <= k <= |v.wanted.candidates|
      invariant Standing(v, g, deferred, k, if stop then |v.wanted.candidates| else k, lap)
      invariant stop ==> lap.interested
      decreases |v.wanted.candidates| - k
    {
      lap, stop, deferred := Visit(v, g, k, lap, deferred);
      k := k + 1;
    }
    LapEnds(v, g, deferred, k, lap, stop);
  }

  /** Takes what the peer may have of candidate `k`; says whether the pass ends there. */
  method Visit(v: View, g: Brief, k: nat, lap: Lap, ghost deferred: set<PieceIndex>)
    returns (lap': Lap, stop: bool, ghost deferred': set<PieceIndex>)
    requires v.Sound() && k < |v.wanted.candidates| && Standing(v, g, deferred, k, k, lap)
    ensures Standing(v, g, deferred', k + 1, if stop then |v.wanted.candidates| else k + 1, lap')
    ensures stop ==> lap'.interested
  {
    var c := v.wanted.candidates[k];
    CandidateIs(v, k);
    lap', stop, deferred' := lap, false, deferred;
    if (lap.next[c.index] >= c.chunks && lap.interested) || !v.Has(c.index) {
      LapPasses(v, g, deferred, k, lap);
      return;
    }
    lap' := lap.(interested := true);
    match Judge(v, g, c, lap) {
      case Halt =>
        stop := true;
        LapHalts(v, g, deferred, k, lap);
      case Pass =>
        LapPasses(v, g, deferred, k, lap);
      case Defer =>
        lap', deferred' := lap'.(passes := lap.passes - 1), deferred + {c.index};
        LapDefers(v, g, deferred, k, lap);
      case Serve =>
        lap' := Serving(v, g, k, lap, deferred);
    }
  }

  /** Hands out what the peer may have of candidate `k`, moves its cursor and counts it when it is
      started. */
  method Serving(v: View, g: Brief, k: nat, lap: Lap, ghost deferred: set<PieceIndex>) returns (lap': Lap)
    requires v.Sound() && k < |v.wanted.candidates| && Standing(v, g, deferred, k, k, lap)
    requires v.Has(v.wanted.candidates[k].index) && Judge(v, g, v.wanted.candidates[k], lap) == Serve
    ensures Standing(v, g, deferred, k + 1, k + 1, lap') && lap'.interested
  {
    var c := v.wanted.candidates[k];
    CandidateIs(v, k);
    var extra, to := PickFromPiece(v, g.room - |lap.tail|, g.window, c.index, lap.next[c.index]);
    var started := if Untried(c, lap.next) && extra != [] then 1 else 0;
    lap' := Lap(lap.next[c.index := to], lap.open + started, lap.passes, lap.tail + extra, true);
    LapServes(v, g, deferred, k, lap, extra, to, lap');
  }

  /** Candidates whose piece has been started, by its cursor or on disk. */
  function CountOpen(cs: seq<Candidate>, next: seq<nat>): nat {
    if cs == [] then 0
    else CountOpen(cs[1..], next) + if IsBegun(cs[0], next) then 1 else 0
  }

  /** Pieces nobody had begun, of which `blocks` are handed out. */
  ghost function Started(v: View, start: seq<nat>, blocks: seq<Entry>): set<PieceIndex> {
    set e | e in blocks && Fresh(v, start, v.t.layout.PieceOf(e.req)) :: v.t.layout.PieceOf(e.req)
  }

  predicate Fresh(v: View, start: seq<nat>, piece: PieceIndex) {
    piece < |start| && piece < |v.t.pieces| && start[piece] == 0 && !v.t.pieces[piece].partial
  }

  /** Those that are not wanted at once. */
  ghost function Patient(v: View, pieces: set<PieceIndex>): set<PieceIndex> {
    set p | p in pieces && p < |v.t.pieces| && v.t.pieces[p].priority != Now
  }

  /** The cursors passed over no block that this peer could have had. */
  ghost predicate NoneSkipped(v: View, window: Option<Window>, start: seq<nat>, next: seq<nat>, blocks: seq<Entry>)
    requires |start| == |next|
  {
    forall r: RequestIndex :: Queued(v, window, r) && HandedOut(v.t.layout, start, next, Entry(r, Free)) ==> Entry(r, Free) in blocks
  }

  /** A block the queue still has for this peer: free, and not passed by its cursor. */
  ghost predicate Leftover(v: View, g: Brief, r: RequestIndex) {
    var piece := v.t.layout.PieceOf(r);
    Queued(v, g.window, r) && piece < |g.start| && g.start[piece] <= r - v.t.layout.RangeBegin(piece)
  }

  /** A piece that a slow peer may leave to faster ones. */
  predicate Outrun(v: View, m: Measures, piece: PieceIndex) {
    m.slow && m.outrun(piece) && piece < |v.t.pieces| && v.t.pieces[piece].priority == Next
  }

  /** A piece the open limit stops. */
  predicate Limited(v: View, g: Brief, open: nat, piece: PieceIndex) {
    !g.m.starving && g.openLimit <= open && piece < |v.t.pieces| && v.t.pieces[piece].priority != Now
  }

  /** Every entry is of one of the first `k` candidates. */
  ghost predicate AllSeen(v: View, k: nat, blocks: seq<Entry>)
    requires k <= |v.wanted.candidates|
  {
    forall e :: e in blocks ==> v.Seen(k, v.t.layout.PieceOf(e.req))
  }

  /** Why block `r` of candidate `j` is, or is not, handed out. */
  ghost predicate Justified(v: View, g: Brief, deferred: set<PieceIndex>, tail: seq<Entry>, open: nat, j: nat, r: RequestIndex)
    requires j < |v.wanted.candidates|
  {
    || Entry(r, Free) in tail
    || v.wanted.candidates[j].index in deferred
    || Limited(v, g, open, v.wanted.candidates[j].index)
    || (|tail| == g.room && AllSeen(v, j + 1, tail))
  }

  /** Nothing of the first `k` candidates is held back without a reason. */
  ghost predicate Fair(v: View, g: Brief, deferred: set<PieceIndex>, k: nat, tail: seq<Entry>, open: nat)
    requires k <= |v.wanted.candidates|
  {
    forall j, r: RequestIndex :: 0 <= j < k && Leftover(v, g, r) && v.t.layout.PieceOf(r) == v.wanted.candidates[j].index ==>
      Justified(v, g, deferred, tail, open, j, r)
  }

  /** A slow peer defers only pieces that faster ones finish, at most ten, and takes such a piece
      only after that. */
  ghost predicate Yields(v: View, m: Measures, deferred: set<PieceIndex>, tail: seq<Entry>) {
    && |deferred| <= 10
    && (forall p :: p in deferred ==> Outrun(v, m, p))
    && (forall e :: e in tail ==> Outrun(v, m, v.t.layout.PieceOf(e.req)) ==> |deferred| == 10)
  }

  /** Entries come in the order of the candidates. */
  ghost predicate InTurn(v: View, tail: seq<Entry>) {
    forall a, b, j :: 0 <= a < b < |tail| && 0 <= j < |v.wanted.candidates| &&
                      v.t.layout.PieceOf(tail[b].req) == v.wanted.candidates[j].index ==>
      v.Seen(j + 1, v.t.layout.PieceOf(tail[a].req))
  }

  /** The open limit holds, but for pieces wanted at once and peers short of work. */
  ghost predicate Thrifty(v: View, g: Brief, tail: seq<Entry>) {
    !g.m.starving ==> |Patient(v, Started(v, g.start, tail))| <= Max(g.openLimit - g.before, 0)
  }

  /** What a pass is given by a queue in this state: the cursors start over after a seek, when the
      piece count changed or when they are too old, and the open pieces are counted again then or
      when the scan is new. */
  ghost function BriefFor(v: View, room: nat, window: Option<Window>, openLimit: int, tooOld: bool, m: Measures,
                          next: seq<nat>, rewound: bool, open: nat, generation: nat): (g: Brief)
    ensures |g.start| == |v.t.pieces|
  {
    var rewind := |next| != |v.t.pieces| || !rewound || tooOld;
    var start := if rewind then seq(|v.t.pieces|, _ => 0) else next;
    Brief(room, window, openLimit, m, start,
          if rewind || generation != v.wanted.generation then |OpenPieces(v.t.pieces, start)| else open)
  }

  /** Pieces that hold memory: under check, or wanted and begun, on disk or by the cursors. */
  ghost function OpenPieces(pieces: seq<PieceEntry>, next: seq<nat>): set<PieceIndex>
    requires |pieces| == |next|
  {
    set i: PieceIndex | i < |pieces| &&
      (pieces[i].checking || (pieces[i].priority != Unwanted && !pieces[i].complete && (pieces[i].partial || next[i] > 0)))
  }

  predicate IsBegun(c: Candidate, next: seq<nat>) {
    c.partial || (c.index < |next| && next[c.index] > 0)
  }

  /** The pieces among `cs` that are begun. */
  ghost function Begun(cs: seq<Candidate>, next: seq<nat>): set<PieceIndex> {
    set c | c in cs && IsBegun(c, next) :: c.index
  }

  lemma BegunMore(c: Candidate, rest: seq<Candidate>, next: seq<nat>)
    ensures Begun([c] + rest, next) == Begun(rest, next) + if IsBegun(c, next) then {c.index} else {}
  {
    assert forall x :: x in [c] + rest <==> x == c || x in rest;
  }

  lemma {:induction false} CountOpenIs(cs: seq<Candidate>, next: seq<nat>)
    requires forall i, j :: 0 <= i < j < |cs| ==> cs[i].index != cs[j].index
    ensures CountOpen(cs, next) == |Begun(cs, next)|
  {
    if cs == [] {
      assert Begun(cs, next) == {};
    } else {
      CountOpenIs(cs[1..], next);
      BegunMore(cs[0], cs[1..], next);
      assert cs == [cs[0]] + cs[1..];
      assert cs[0].index !in Begun(cs[1..], next);
    }
  }

  /** The recount is the number of open pieces. */
  lemma RecountIs(v: View, next: seq<nat>)
    requires v.Sound() && |next| == |v.t.pieces|
    ensures v.wanted.checking + CountOpen(v.wanted.candidates, next) == |OpenPieces(v.t.pieces, next)|
  {
    CountOpenIs(v.wanted.candidates, next);
    CountIsSize(v.t.pieces, (p: PieceEntry) => p.checking);
    OpenSplit(v, next);
    DisjointSize(Places(v.t.pieces, (p: PieceEntry) => p.checking), Begun(v.wanted.candidates, next));
  }

  lemma DisjointSize<T>(a: set<T>, b: set<T>)
    requires a !! b
    ensures |a + b| == |a| + |b|
  {
  }

  lemma OpenSplit(v: View, next: seq<nat>)
    requires v.Sound() && |next| == |v.t.pieces|
    ensures var checked, begun := Places(v.t.pieces, (p: PieceEntry) => p.checking), Begun(v.wanted.candidates, next);
            checked !! begun && OpenPieces(v.t.pieces, next) == checked + begun
  {
    BegunAre(v, next);
  }

  lemma BegunAre(v: View, next: seq<nat>)
    requires v.Sound() && |next| == |v.t.pieces|
    ensures forall i: PieceIndex :: i in Begun(v.wanted.candidates, next) <==>
              i < |v.t.pieces| && v.t.pieces[i].Requestable() && (v.t.pieces[i].partial || next[i] > 0)
  {
    forall i: PieceIndex | i < |v.t.pieces| && v.t.pieces[i].Requestable() && (v.t.pieces[i].partial || next[i] > 0)
      ensures i in Begun(v.wanted.candidates, next)
    {
      var c :| c in v.wanted.candidates && c.index == i;
    }
  }

  /** Everything one queue pass promises of what it hands out. */
  ghost predicate QueueLaw(v: View, g: Brief, deferred: set<PieceIndex>, next: seq<nat>, open: nat, tail: seq<Entry>) {
    && Handout(g.start, next, tail).From(v.t.layout) && NoneSkipped(v, g.window, g.start, next, tail)
    && open == g.before + |Started(v, g.start, tail)| && Thrifty(v, g, tail)
    && Fair(v, g, deferred, |v.wanted.candidates|, tail, open)
    && InTurn(v, tail) && Yields(v, g.m, deferred, tail)
  }

  // ------------------------------------------------------------ one pass, candidate by candidate

  /** What is handed out before candidate `k` is good, and lies between the cursors. */
  ghost predicate Going(v: View, g: Brief, k: nat, next: seq<nat>, tail: seq<Entry>, interested: bool)
    requires k <= |v.wanted.candidates|
  {
    && |next| == |v.t.pieces| && Moved(g.start, next)
    && |tail| <= g.room && v.Good(tail) && (forall e :: e in tail ==> !Within(g.window, e.req))
    && (forall e :: e in tail ==> HandedOut(v.t.layout, g.start, next, e))
    && NoneSkipped(v, g.window, g.start, next, tail)
    && (interested ==> v.HasWanted()) && (v.Offered(k) ==> interested)
  }

  /** Pieces not yet visited have their old cursor, and what is handed out is of visited ones. */
  ghost predicate Visited(v: View, start: seq<nat>, next: seq<nat>, k: nat, tail: seq<Entry>)
    requires k <= |v.wanted.candidates|
  {
    && |start| == |next| == |v.t.pieces|
    && (forall p: nat :: p < |start| && !v.Seen(k, p) ==> next[p] == start[p])
    && AllSeen(v, k, tail)
  }

  /** The open count before candidate `k`. */
  ghost predicate Tally(v: View, g: Brief, k: nat, next: seq<nat>, tail: seq<Entry>, open: nat)
    requires k <= |v.wanted.candidates|
  {
    Visited(v, g.start, next, k, tail) && open == g.before + |Started(v, g.start, tail)| && Thrifty(v, g, tail)
  }

  /** Who waited before candidate `k`, and in what order the rest was served. */
  ghost predicate Turns(v: View, g: Brief, deferred: set<PieceIndex>, k: nat, passes: nat, tail: seq<Entry>)
    requires k <= |v.wanted.candidates|
  {
    && |deferred| + passes == SLOW_PEER_YIELDS && (forall p :: p in deferred ==> v.Seen(k, p))
    && Yields(v, g.m, deferred, tail) && InTurn(v, tail)
  }

  /** Where the pass stands before candidate `k`, with everything before `upto` accounted for. */
  ghost predicate Standing(v: View, g: Brief, deferred: set<PieceIndex>, k: nat, upto: nat, lap: Lap)
    requires k <= |v.wanted.candidates| && upto <= |v.wanted.candidates|
  {
    && Going(v, g, k, lap.next, lap.tail, lap.interested) && Tally(v, g, k, lap.next, lap.tail, lap.open)
    && Turns(v, g, deferred, k, lap.passes, lap.tail) && Fair(v, g, deferred, upto, lap.tail, lap.open)
  }

  lemma SeenGrows(v: View, k: nat)
    requires k < |v.wanted.candidates|
    ensures forall piece :: v.Seen(k + 1, piece) <==> v.Seen(k, piece) || piece == v.wanted.candidates[k].index
    ensures v.Offered(k + 1) <==> v.Offered(k) || v.Has(v.wanted.candidates[k].index)
  {
    assert v.Seen(k + 1, v.wanted.candidates[k].index);
  }

  lemma SeenMonotone(v: View, a: nat, b: nat)
    requires a <= b <= |v.wanted.candidates|
    ensures forall p :: v.Seen(a, p) ==> v.Seen(b, p)
  {
  }

  lemma LapStarts(v: View, g: Brief, lap: Lap)
    requires |g.start| == |v.t.pieces| && (lap.interested ==> v.HasWanted())
    requires lap == Lap(g.start, g.before, SLOW_PEER_YIELDS, [], lap.interested)
    ensures Standing(v, g, {}, 0, 0, lap)
  {
    assert Started(v, g.start, []) == {};
    assert Patient(v, {}) == {};
  }

  /** Looking at candidate `k` without taking anything. */
  lemma LapLooks(v: View, g: Brief, deferred: set<PieceIndex>, k: nat, lap: Lap)
    requires v.Sound() && k < |v.wanted.candidates| && Standing(v, g, deferred, k, k, lap)
    ensures var c := v.wanted.candidates[k];
            && c.index < |lap.next| && c.index < |g.start| && lap.next[c.index] == g.start[c.index] && c.index !in deferred
            && Tally(v, g, k + 1, lap.next, lap.tail, lap.open) && Turns(v, g, deferred, k + 1, lap.passes, lap.tail)
            && (v.Has(c.index) ==> Going(v, g, k + 1, lap.next, lap.tail, true))
            && (!v.Has(c.index) || lap.interested ==> Going(v, g, k + 1, lap.next, lap.tail, lap.interested))
  {
    CandidateIs(v, k);
    SeenGrows(v, k);
  }

  /** Nothing of candidate `k` is left for this peer: its cursor is at the end, the peer lacks it, or
      may not be asked for it. */
  predicate Barren(v: View, k: nat, next: seq<nat>)
    requires k < |v.wanted.candidates|
  {
    var c := v.wanted.candidates[k];
    (c.index < |next| && next[c.index] >= c.chunks) || !v.Has(c.index) || v.Blocked(c.index)
  }

  lemma NothingLeft(v: View, g: Brief, k: nat, r: RequestIndex)
    requires v.Sound() && k < |v.wanted.candidates| && Barren(v, k, g.start) && Leftover(v, g, r)
    ensures v.t.layout.PieceOf(r) != v.wanted.candidates[k].index
  {
    assert v.wanted.candidates[k] in v.wanted.candidates;
  }

  lemma LapPasses(v: View, g: Brief, deferred: set<PieceIndex>, k: nat, lap: Lap)
    requires v.Sound() && k < |v.wanted.candidates| && Standing(v, g, deferred, k, k, lap) && Barren(v, k, lap.next)
    ensures var has := v.Has(v.wanted.candidates[k].index);
            && (has ==> Standing(v, g, deferred, k + 1, k + 1, lap.(interested := true)))
            && (!has || lap.interested ==> Standing(v, g, deferred, k + 1, k + 1, lap))
  {
    LapLooks(v, g, deferred, k, lap);
    forall r: RequestIndex | Leftover(v, g, r)
      ensures v.t.layout.PieceOf(r) != v.wanted.candidates[k].index
    {
      NothingLeft(v, g, k, r);
    }
  }

  lemma LapDefers(v: View, g: Brief, deferred: set<PieceIndex>, k: nat, lap: Lap)
    requires v.Sound() && k < |v.wanted.candidates| && Standing(v, g, deferred, k, k, lap)
    requires v.Has(v.wanted.candidates[k].index) && Judge(v, g, v.wanted.candidates[k], lap) == Defer
    ensures Standing(v, g, deferred + {v.wanted.candidates[k].index}, k + 1, k + 1, lap.(interested := true, passes := lap.passes - 1))
  {
    LapLooks(v, g, deferred, k, lap);
    assert v.wanted.candidates[k] in v.wanted.candidates;
    FairDefer(v, g, deferred, k, lap.tail, lap.open);
    TurnsDefer(v, g, deferred, k, lap.passes, lap.tail);
  }

  lemma FairDefer(v: View, g: Brief, deferred: set<PieceIndex>, k: nat, tail: seq<Entry>, open: nat)
    requires k < |v.wanted.candidates| && Fair(v, g, deferred, k, tail, open)
    ensures Fair(v, g, deferred + {v.wanted.candidates[k].index}, k + 1, tail, open)
  {
    forall j, r: RequestIndex | 0 <= j < k && Leftover(v, g, r) && v.t.layout.PieceOf(r) == v.wanted.candidates[j].index
      ensures Justified(v, g, deferred + {v.wanted.candidates[k].index}, tail, open, j, r)
    {
      assert Justified(v, g, deferred, tail, open, j, r);
    }
  }

  lemma TurnsDefer(v: View, g: Brief, deferred: set<PieceIndex>, k: nat, passes: nat, tail: seq<Entry>)
    requires k < |v.wanted.candidates| && Turns(v, g, deferred, k + 1, passes, tail) && passes > 0
    requires var index := v.wanted.candidates[k].index; index !in deferred && Outrun(v, g.m, index)
    ensures Turns(v, g, deferred + {v.wanted.candidates[k].index}, k + 1, passes - 1, tail)
  {
    var index := v.wanted.candidates[k].index;
    assert |deferred + {index}| == |deferred| + 1;
    assert v.Seen(k + 1, index);
  }

  /** The pass ends at candidate `k`: the list is full, this peer may be asked for nothing, or the
      open limit stops this piece and every later one. */
  lemma LapHalts(v: View, g: Brief, deferred: set<PieceIndex>, k: nat, lap: Lap)
    requires v.Sound() && k < |v.wanted.candidates| && Standing(v, g, deferred, k, k, lap)
    requires v.Has(v.wanted.candidates[k].index) && Judge(v, g, v.wanted.candidates[k], lap) == Halt
    ensures Standing(v, g, deferred, k + 1, |v.wanted.candidates|, lap.(interested := true))
  {
    LapLooks(v, g, deferred, k, lap);
    forall j, r: RequestIndex |
      0 <= j < |v.wanted.candidates| && Leftover(v, g, r) && v.t.layout.PieceOf(r) == v.wanted.candidates[j].index
      ensures Justified(v, g, deferred, lap.tail, lap.open, j, r)
    {
      if j >= k {
        HaltExcuses(v, g, deferred, k, lap, j, r);
      }
    }
  }

  lemma HaltExcuses(v: View, g: Brief, deferred: set<PieceIndex>, k: nat, lap: Lap, j: nat, r: RequestIndex)
    requires v.Sound() && k <= j < |v.wanted.candidates| && |lap.tail| <= g.room && AllSeen(v, k, lap.tail)
    requires Leftover(v, g, r) && v.t.layout.PieceOf(r) == v.wanted.candidates[j].index
    requires Judge(v, g, v.wanted.candidates[k], lap) == Halt
    ensures Justified(v, g, deferred, lap.tail, lap.open, j, r)
  {
    SeenMonotone(v, k, j + 1);
    assert v.wanted.candidates[j] in v.wanted.candidates;
    assert k < j ==> v.wanted.candidates[k].Before(v.wanted.candidates[j]);
  }

  /** What the scan of one piece finds: its free blocks between the two cursors, and all up to the end
      unless the list is full. */
  ghost predicate Scanned(v: View, g: Brief, index: PieceIndex, from: nat, tail: seq<Entry>, extra: seq<Entry>, to: nat) {
    && |tail| + |extra| <= g.room && v.Good(extra) && from <= to
    && (forall e :: e in extra ==>
          && e.take == Free && v.t.layout.PieceOf(e.req) == index && !Within(g.window, e.req)
          && from <= e.req - v.t.layout.RangeBegin(index) < to)
    && (forall r: RequestIndex :: Queued(v, g.window, r) ==>
          from <= r - v.t.layout.RangeBegin(index) < to ==> Entry(r, Free) in extra)
    && (|tail| + |extra| < g.room ==> v.t.layout.RangeEnd(index) <= v.t.layout.RangeBegin(index) + to)
  }

  /** Blocks of piece `index` only. */
  ghost predicate AllOf(v: View, index: PieceIndex, extra: seq<Entry>) {
    forall e :: e in extra ==> v.t.layout.PieceOf(e.req) == index
  }

  lemma LapServes(v: View, g: Brief, deferred: set<PieceIndex>, k: nat, lap: Lap, extra: seq<Entry>, to: nat, lap': Lap)
    requires v.Sound() && k < |v.wanted.candidates| && Standing(v, g, deferred, k, k, lap)
    requires var c := v.wanted.candidates[k];
             && v.Has(c.index) && c.index < |lap.next| && Judge(v, g, c, lap) == Serve
             && Scanned(v, g, c.index, lap.next[c.index], lap.tail, extra, to)
             && lap' == Lap(lap.next[c.index := to], lap.open + (if Untried(c, lap.next) && extra != [] then 1 else 0),
                            lap.passes, lap.tail + extra, true)
    ensures Standing(v, g, deferred, k + 1, k + 1, lap')
  {
    var c := v.wanted.candidates[k];
    LapLooks(v, g, deferred, k, lap);
    GoingServe(v, g, k, lap.next, lap.tail, lap.interested, extra, to);
    TallyServe(v, g, k, lap, extra, to);
    TurnsServe(v, g, deferred, k, lap, extra);
    FairServe(v, g, deferred, k, lap.next, lap.tail, lap.open, extra, to, lap'.open);
  }

  lemma GoingServe(v: View, g: Brief, k: nat, next: seq<nat>, tail: seq<Entry>, interested: bool, extra: seq<Entry>, to: nat)
    requires v.Sound() && k < |v.wanted.candidates| && Going(v, g, k, next, tail, interested) && AllSeen(v, k, tail)
    requires var index := v.wanted.candidates[k].index;
             v.Has(index) && index < |next| && Scanned(v, g, index, next[index], tail, extra, to)
    ensures Going(v, g, k + 1, next[v.wanted.candidates[k].index := to], tail + extra, true)
  {
    CandidateIs(v, k);
    SeenGrows(v, k);
    Joined(v, tail, extra);
    CursorMoves(v.t.layout, g.start, next, v.wanted.candidates[k].index, to, tail, extra);
  }

  lemma TallyServe(v: View, g: Brief, k: nat, lap: Lap, extra: seq<Entry>, to: nat)
    requires v.Sound() && k < |v.wanted.candidates| && Tally(v, g, k, lap.next, lap.tail, lap.open)
    requires AllOf(v, v.wanted.candidates[k].index, extra) && Judge(v, g, v.wanted.candidates[k], lap) == Serve
    ensures var c := v.wanted.candidates[k];
            && c.index < |lap.next|
            && Tally(v, g, k + 1, lap.next[c.index := to], lap.tail + extra,
                     lap.open + if Untried(c, lap.next) && extra != [] then 1 else 0)
  {
    var c := v.wanted.candidates[k];
    VisitedServe(v, g, k, lap.next, lap.tail, extra, to);
    StartedGrows(v, g.start, lap.tail, extra, c.index);
    assert c in v.wanted.candidates;
    assert Fresh(v, g.start, c.index) <==> Untried(c, lap.next);
    ThriftyServe(v, g, c, lap.tail, extra);
  }

  lemma VisitedServe(v: View, g: Brief, k: nat, next: seq<nat>, tail: seq<Entry>, extra: seq<Entry>, to: nat)
    requires v.Sound() && k < |v.wanted.candidates| && Visited(v, g.start, next, k, tail)
    requires AllOf(v, v.wanted.candidates[k].index, extra)
    ensures var index := v.wanted.candidates[k].index;
            && index < |next| && next[index] == g.start[index] && index !in Started(v, g.start, tail)
            && Visited(v, g.start, next[index := to], k + 1, tail + extra)
  {
    CandidateIs(v, k);
    SeenGrows(v, k);
  }

  lemma StartedGrows(v: View, start: seq<nat>, tail: seq<Entry>, extra: seq<Entry>, index: PieceIndex)
    requires AllOf(v, index, extra)
    ensures Started(v, start, tail + extra) ==
            Started(v, start, tail) + if extra != [] && Fresh(v, start, index) then {index} else {}
  {
    assert forall e :: e in tail + extra <==> e in tail || e in extra;
    if extra != [] {
      assert extra[0] in extra;
    }
  }

  lemma ThriftyServe(v: View, g: Brief, c: Candidate, tail: seq<Entry>, extra: seq<Entry>)
    requires c.index < |v.t.pieces| && v.t.pieces[c.index].priority == c.priority && AllOf(v, c.index, extra) && Thrifty(v, g, tail)
    requires c.index !in Started(v, g.start, tail)
    requires Fresh(v, g.start, c.index) && !g.m.starving && c.priority != Now ==> g.before + |Started(v, g.start, tail)| < g.openLimit
    ensures Thrifty(v, g, tail + extra)
  {
    var was, all := Started(v, g.start, tail), Started(v, g.start, tail + extra);
    StartedGrows(v, g.start, tail, extra, c.index);
    if extra != [] && Fresh(v, g.start, c.index) {
      assert all == was + {c.index};
      if !g.m.starving {
        PatientGrows(v, g, was, c);
      }
    } else {
      assert all == was;
    }
  }

  lemma PatientGrows(v: View, g: Brief, was: set<PieceIndex>, c: Candidate)
    requires c.index < |v.t.pieces| && v.t.pieces[c.index].priority == c.priority && c.index !in was
    requires |Patient(v, was)| <= Max(g.openLimit - g.before, 0)
    requires c.priority != Now ==> g.before + |was| < g.openLimit
    ensures |Patient(v, was + {c.index})| <= Max(g.openLimit - g.before, 0)
  {
    if c.priority == Now {
      assert Patient(v, was + {c.index}) == Patient(v, was);
    } else {
      SubsetSize(Patient(v, was + {c.index}), was + {c.index});
    }
  }

  lemma SubsetSize<T>(a: set<T>, b: set<T>)
    requires a <= b
    ensures |a| <= |b|
  {
    assert b == a + (b - a);
  }

  lemma TurnsServe(v: View, g: Brief, deferred: set<PieceIndex>, k: nat, lap: Lap, extra: seq<Entry>)
    requires v.Sound() && k < |v.wanted.candidates| && Turns(v, g, deferred, k, lap.passes, lap.tail) && AllSeen(v, k, lap.tail)
    requires AllOf(v, v.wanted.candidates[k].index, extra) && Judge(v, g, v.wanted.candidates[k], lap) == Serve
    ensures Turns(v, g, deferred, k + 1, lap.passes, lap.tail + extra)
  {
    SeenGrows(v, k);
    InTurnServe(v, k, lap.tail, extra);
    assert v.wanted.candidates[k] in v.wanted.candidates;
  }

  lemma InTurnServe(v: View, k: nat, tail: seq<Entry>, extra: seq<Entry>)
    requires v.Sound() && k < |v.wanted.candidates| && InTurn(v, tail) && AllSeen(v, k, tail)
    requires AllOf(v, v.wanted.candidates[k].index, extra)
    ensures InTurn(v, tail + extra)
  {
    SeenGrows(v, k);
    forall a, b, j | 0 <= a < b < |tail + extra| && 0 <= j < |v.wanted.candidates| &&
                     v.t.layout.PieceOf((tail + extra)[b].req) == v.wanted.candidates[j].index
      ensures v.Seen(j + 1, v.t.layout.PieceOf((tail + extra)[a].req))
    {
      if b >= |tail| {
        assert (tail + extra)[b] in extra;
        assert j == k;
        assert (tail + extra)[a] in tail || (tail + extra)[a] in extra;
      }
    }
  }

  lemma FairServe(v: View, g: Brief, deferred: set<PieceIndex>, k: nat, next: seq<nat>, tail: seq<Entry>, open: nat,
                  extra: seq<Entry>, to: nat, open': nat)
    requires v.Sound() && k < |v.wanted.candidates| && Fair(v, g, deferred, k, tail, open) && AllSeen(v, k, tail) && open <= open'
    requires var index := v.wanted.candidates[k].index;
             index < |next| && index < |g.start| && next[index] == g.start[index] && Scanned(v, g, index, next[index], tail, extra, to)
    ensures Fair(v, g, deferred, k + 1, tail + extra, open')
  {
    SeenGrows(v, k);
    forall j, r: RequestIndex | 0 <= j < k + 1 && Leftover(v, g, r) && v.t.layout.PieceOf(r) == v.wanted.candidates[j].index
      ensures Justified(v, g, deferred, tail + extra, open', j, r)
    {
      if j < k {
        assert Justified(v, g, deferred, tail, open, j, r);
        if |tail| == g.room {
          assert tail + extra == tail;
        }
      }
    }
  }

  /** The pass is through: everything it promises. */
  lemma LapEnds(v: View, g: Brief, deferred: set<PieceIndex>, k: nat, lap: Lap, stop: bool)
    requires v.Sound() && k <= |v.wanted.candidates| && (stop || k == |v.wanted.candidates|) && (stop ==> lap.interested)
    requires Standing(v, g, deferred, k, |v.wanted.candidates|, lap)
    ensures QueueLaw(v, g, deferred, lap.next, lap.open, lap.tail)
    ensures lap.interested <==> v.HasWanted()
  {
    if v.HasWanted() {
      OfferedIsWanted(v);
    }
  }

  /** The queue's cursors as a refill finds them. */
  function Cursors(next: seq<nat>, count: nat, rewind: bool): (r: seq<nat>)
    ensures |r| == count
  {
    if rewind || |next| != count then seq(count, _ => 0) else next
  }

  ghost predicate Moved(start: seq<nat>, next: seq<nat>) {
    |start| == |next| && forall i :: 0 <= i < |start| ==> start[i] <= next[i]
  }

  /** `e` is a free block between the two cursors of its piece. */
  ghost predicate HandedOut(g: Layout, start: seq<nat>, next: seq<nat>, e: Entry)
    requires |start| == |next|
  {
    var piece := g.PieceOf(e.req);
    e.take == Free && piece < |start| && start[piece] <= e.req - g.RangeBegin(piece) < next[piece]
  }

  lemma CursorMoves(g: Layout, start: seq<nat>, next: seq<nat>, index: PieceIndex, to: nat, a: seq<Entry>, b: seq<Entry>)
    requires Moved(start, next) && index < |next| && next[index] <= to
    requires forall e :: e in a ==> HandedOut(g, start, next, e)
    requires forall e :: e in b ==>
               && e.take == Free && g.PieceOf(e.req) == index
               && next[index] <= e.req - g.RangeBegin(index) < to
    ensures Moved(start, next[index := to])
    ensures forall e :: e in a + b ==> HandedOut(g, start, next[index := to], e)
  {
  }

  // ------------------------------------------------------------ many refills

  /** What one refill took from the queue, with the cursors before and after. */
  datatype Handout = Handout(start: seq<nat>, next: seq<nat>, blocks: seq<Entry>) {
    ghost predicate From(g: Layout) {
      Moved(start, next) && forall e :: e in blocks ==> HandedOut(g, start, next, e)
    }
  }

  /** Refills by any peers, one after the other, none of which started the cursors over. */
  ghost predicate NoRewind(g: Layout, hs: seq<Handout>) {
    && (forall k :: 0 <= k < |hs| ==> hs[k].From(g))
    && (forall k :: 0 < k < |hs| ==> hs[k].start == hs[k - 1].next)
  }

  lemma {:induction false} CursorsGrow(g: Layout, hs: seq<Handout>, j: nat, k: nat)
    requires NoRewind(g, hs) && j < k < |hs|
    ensures Moved(hs[j].next, hs[k].start)
  {
    if j + 1 < k {
      CursorsGrow(g, hs, j, k - 1);
      assert hs[k - 1].From(g);
      MovedTwice(hs[j].next, hs[k - 1].start, hs[k - 1].next);
    }
  }

  lemma MovedTwice(a: seq<nat>, b: seq<nat>, c: seq<nat>)
    requires Moved(a, b) && Moved(b, c)
    ensures Moved(a, c)
  {
  }

  /** Between two rewinds no block is handed out twice, whatever peers refill in between. */
  lemma NothingTwice(g: Layout, hs: seq<Handout>, j: nat, k: nat, a: Entry, b: Entry)
    requires NoRewind(g, hs) && j < k < |hs| && a in hs[j].blocks && b in hs[k].blocks
    ensures a.req != b.req
  {
    CursorsGrow(g, hs, j, k);
    assert hs[j].From(g) && hs[k].From(g);
  }

  // ------------------------------------------------------------ the end of the torrent

  /** Every eligible free block of the candidates before `k` is in the list. */
  ghost predicate Exhausted(v: View, k: nat, blocks: seq<Entry>)
    requires k <= |v.wanted.candidates|
  {
    forall r: RequestIndex :: v.Eligible(r) && v.BlockFree(r) && v.Seen(k, v.t.layout.PieceOf(r)) ==>
      Entry(r, Free) in blocks
  }

  /** Lists of blocks in the candidates before `k`. */
  ghost predicate Listed(v: View, k: nat, want: nat, blocks: seq<Entry>)
    requires k <= |v.wanted.candidates|
  {
    && |blocks| <= want && v.Good(blocks)
    && forall e :: e in blocks ==> v.Seen(k, v.t.layout.PieceOf(e.req))
  }

  ghost predicate Frees(blocks: seq<Entry>) {
    forall e :: e in blocks ==> e.take == Free
  }

  /** Every eligible free block of piece `index` below `req` is in the list. */
  ghost predicate ExhaustedTo(v: View, index: PieceIndex, req: RequestIndex, blocks: seq<Entry>) {
    forall r: RequestIndex :: v.Eligible(r) && v.BlockFree(r) && v.t.layout.PieceOf(r) == index && r < req ==>
      Entry(r, Free) in blocks
  }

  /** A block somebody else holds and this peer could fetch as well. */
  predicate Copyable(v: View, r: RequestIndex) {
    v.Eligible(r) && !v.Done(r) && r in v.t.table.owners
  }

  /** Every such block of piece `index` below `req` is in the list. */
  ghost predicate CopiedTo(v: View, index: PieceIndex, req: RequestIndex, copies: seq<Entry>) {
    forall r: RequestIndex :: Copyable(v, r) && v.t.layout.PieceOf(r) == index && r < req ==> Entry(r, Copy(false)) in copies
  }

  /** Every such block of the candidates before `k` is in the list. */
  ghost predicate AllCopied(v: View, k: nat, copies: seq<Entry>)
    requires k <= |v.wanted.candidates|
  {
    forall r: RequestIndex :: Copyable(v, r) && v.Seen(k, v.t.layout.PieceOf(r)) ==> Entry(r, Copy(false)) in copies
  }

  /** What the end of the torrent lists: every free block while there is room; only when none is free,
      second copies of what others hold. */
  ghost predicate EndgameLaw(v: View, want: nat, blocks: seq<Entry>) {
    && (forall r: RequestIndex :: v.Eligible(r) && v.BlockFree(r) ==> |blocks| == want || Entry(r, Free) in blocks)
    && (NothingFree(v) || Frees(blocks))
    && (NothingFree(v) ==>
          && (forall e :: e in blocks ==> e.take == Copy(false))
          && forall r: RequestIndex :: Copyable(v, r) ==> |blocks| == want || Entry(r, Copy(false)) in blocks)
  }

  ghost predicate NothingFree(v: View) {
    forall r: RequestIndex :: !(v.Eligible(r) && v.BlockFree(r))
  }

  /** Proper entries of piece `index`. */
  ghost predicate OfPiece(v: View, index: PieceIndex, blocks: seq<Entry>) {
    v.Good(blocks) && forall e :: e in blocks ==> v.t.layout.PieceOf(e.req) == index
  }

  /** Free blocks of one piece, and copies of those somebody holds, until `room` are free. */
  method EndgamePiece(v: View, index: PieceIndex, room: nat, copyRoom: nat)
    returns (blocks: seq<Entry>, copies: seq<Entry>, full: bool)
    requires v.Sound() && v.Requestable(index) && v.Has(index) && !v.Blocked(index)
    ensures |blocks| <= room && OfPiece(v, index, blocks) && Frees(blocks)
    ensures |copies| <= copyRoom && OfPiece(v, index, copies) && (forall e :: e in copies ==> e.take == Copy(false))
    ensures !full && |copies| < copyRoom ==> CopiedTo(v, index, v.t.layout.RangeEnd(index), copies)
    ensures if full then |blocks| == room else ExhaustedTo(v, index, v.t.layout.RangeEnd(index), blocks)
  {
    var begin, end := v.t.layout.RangeBegin(index), v.t.layout.RangeEnd(index);
    blocks, copies, full := [], [], false;
    var req := begin;
    while req < end
      invariant begin <= req && |blocks| <= room && |copies| <= copyRoom
      invariant OfPiece(v, index, blocks) && Frees(blocks) && OfPiece(v, index, copies)
      invariant forall e :: e in blocks || e in copies ==> e.req < req
      invariant ExhaustedTo(v, index, req, blocks)
      invariant forall e :: e in copies ==> e.take == Copy(false)
      invariant |copies| < copyRoom ==> CopiedTo(v, index, req, copies)
    {
      if |blocks| >= room {
        return blocks, copies, true;
      }
      RangeMember(v.t.layout, req, index);
      if !v.Done(req) && !v.Tracks(req) {
        if req in v.t.table.owners {
          if |copies| < copyRoom {
            Appended(v, copies, Entry(req, Copy(false)));
            copies := copies + [Entry(req, Copy(false))];
          }
        } else {
          Appended(v, blocks, Entry(req, Free));
          blocks := blocks + [Entry(req, Free)];
        }
      }
      req := req + 1;
    }
  }

  /** Adds the entries of candidate `k` to those of the candidates before it. */
  lemma ListedMore(v: View, k: nat, want: nat, blocks: seq<Entry>, extra: seq<Entry>)
    requires v.Sound() && k < |v.wanted.candidates| && Listed(v, k, want, blocks)
    requires OfPiece(v, v.wanted.candidates[k].index, extra) && |blocks| + |extra| <= want
    ensures Listed(v, k + 1, want, blocks + extra) && Listed(v, k + 1, want, blocks)
  {
    CandidateIs(v, k);
    SeenGrows(v, k);
    Joined(v, blocks, extra);
  }

  lemma ExhaustedMore(v: View, k: nat, blocks: seq<Entry>, extra: seq<Entry>)
    requires v.Sound() && k < |v.wanted.candidates| && Exhausted(v, k, blocks)
    requires var index := v.wanted.candidates[k].index;
             v.Has(index) && !v.Blocked(index) ==> ExhaustedTo(v, index, v.t.layout.RangeEnd(index), extra)
    ensures Exhausted(v, k + 1, blocks + extra)
  {
    SeenGrows(v, k);
  }

  lemma CopiedMore(v: View, k: nat, copies: seq<Entry>, extra: seq<Entry>)
    requires v.Sound() && k < |v.wanted.candidates| && AllCopied(v, k, copies)
    requires var index := v.wanted.candidates[k].index;
             v.Has(index) && !v.Blocked(index) ==> CopiedTo(v, index, v.t.layout.RangeEnd(index), extra)
    ensures AllCopied(v, k + 1, copies + extra)
  {
    SeenGrows(v, k);
  }

  /** Looks through every candidate: free blocks while there is room, and second copies only where
      that finds nothing. */
  method PickEndgame(v: View, want: nat) returns (pick: Pick)
    requires v.Sound()
    ensures |pick.blocks| <= want && v.Good(pick.blocks)
    ensures pick.interested <==> v.HasWanted()
    ensures EndgameLaw(v, want, pick.blocks)
  {
    var copies: seq<Entry> := [];
    pick := Pick([], false);
    var k, full := 0, false;
    while k < |v.wanted.candidates| && !full
      invariant 0 <= k <= |v.wanted.candidates|
      invariant Listed(v, k, want, pick.blocks) && Listed(v, k, want, copies) && Frees(pick.blocks)
      invariant if full then |pick.blocks| == want else Exhausted(v, k, pick.blocks)
      invariant (forall e :: e in copies ==> e.take == Copy(false)) && (full || |copies| == want || AllCopied(v, k, copies))
      invariant pick.interested ==> v.HasWanted()
      invariant full || v.Offered(k) ==> pick.interested
      decreases |v.wanted.candidates| - k
    {
      var index := v.wanted.candidates[k].index;
      CandidateIs(v, k);
      SeenGrows(v, k);
      var blocks: seq<Entry>, more: seq<Entry> := [], [];
      if v.Has(index) {
        pick := pick.(interested := true);
        if !v.Blocked(index) {
          blocks, more, full := EndgamePiece(v, index, want - |pick.blocks|, want - |copies|);
        }
      }
      ListedMore(v, k, want, pick.blocks, blocks);
      ListedMore(v, k, want, copies, more);
      if !full {
        ExhaustedMore(v, k, pick.blocks, blocks);
        if |copies| + |more| < want {
          CopiedMore(v, k, copies, more);
        }
      }
      pick := pick.(blocks := pick.blocks + blocks);
      copies := copies + more;
      k := k + 1;
    }
    if !full {
      EveryPieceSeen(v);
    }
    if v.HasWanted() {
      OfferedIsWanted(v);
    }
    if pick.blocks == [] {
      pick := pick.(blocks := copies);
    } else {
      assert pick.blocks[0] in pick.blocks;
    }
  }

  lemma EveryPieceSeen(v: View)
    requires v.Sound()
    ensures forall piece: PieceIndex :: v.Requestable(piece) ==> v.Seen(|v.wanted.candidates|, piece)
  {
    forall piece: PieceIndex | v.Requestable(piece)
      ensures v.Seen(|v.wanted.candidates|, piece)
    {
      assert v.t.pieces[piece].Requestable();
      var c :| c in v.wanted.candidates && c.index == piece;
    }
  }

  // ------------------------------------------------------------ stalled blocks

  ghost predicate Steals(blocks: seq<Entry>) {
    forall e :: e in blocks ==> e.take.From?
  }

  /** An eligible block another peer has sat on for too long. */
  predicate Stuck(v: View, m: Measures, r: RequestIndex) {
    v.Eligible(r) && r in v.t.table.owners && v.t.table.owners[r].peer != v.me && m.stalled(r)
  }

  /** Every such block of the candidates before `k` is in the list. */
  ghost predicate NoneLeft(v: View, m: Measures, k: nat, blocks: seq<Entry>)
    requires k <= |v.wanted.candidates|
  {
    forall r: RequestIndex :: Stuck(v, m, r) && v.Seen(k, v.t.layout.PieceOf(r)) ==>
      Entry(r, From(v.t.table.owners[r].peer)) in blocks
  }

  /** Blocks of one piece that their holders sit on, at most `room` of them. */
  method StalledPiece(v: View, room: nat, index: PieceIndex, m: Measures) returns (extra: seq<Entry>)
    requires v.Sound() && room > 0 && !v.peer.choking && v.Requestable(index) && v.Has(index)
    ensures |extra| <= room && v.Good(extra) && Steals(extra)
    ensures forall e :: e in extra ==> v.t.layout.PieceOf(e.req) == index
    ensures |extra| < room ==> forall r: RequestIndex :: Stuck(v, m, r) && v.t.layout.PieceOf(r) == index ==>
              Entry(r, From(v.t.table.owners[r].peer)) in extra
  {
    var begin, end := v.t.layout.RangeBegin(index), v.t.layout.RangeEnd(index);
    extra := [];
    var req := begin;
    while req < end
      invariant begin <= req && |extra| < room && v.Good(extra) && Steals(extra)
      invariant forall e :: e in extra ==> v.t.layout.PieceOf(e.req) == index && e.req < req
      invariant forall r: RequestIndex :: Stuck(v, m, r) && begin <= r < req ==>
                  Entry(r, From(v.t.table.owners[r].peer)) in extra
    {
      RangeMember(v.t.layout, req, index);
      if req in v.t.table.owners && !v.Tracks(req) {
        var holder := v.t.table.owners[req].peer;
        if holder != v.me && m.stalled(req) {
          Appended(v, extra, Entry(req, From(holder)));
          extra := extra + [Entry(req, From(holder))];
          if |extra| >= room {
            return;
          }
        }
      }
      req := req + 1;
    }
  }

  /** The last pass, for a peer the others left without work: takes over blocks that do not move. */
  method PickStalled(v: View, want: nat, m: Measures) returns (blocks: seq<Entry>)
    requires v.Sound() && want > 0 && !v.peer.choking
    ensures |blocks| <= want && v.Good(blocks) && Steals(blocks)
    ensures |blocks| < want ==> NoneLeft(v, m, Min(|v.wanted.candidates|, STALLED_SCAN_PIECES), blocks)
  {
    blocks := [];
    var k := 0;
    while k < |v.wanted.candidates| && k < STALLED_SCAN_PIECES && |blocks| < want
      invariant 0 <= k <= |v.wanted.candidates| && k <= STALLED_SCAN_PIECES
      invariant Listed(v, k, want, blocks) && Steals(blocks)
      invariant |blocks| < want ==> NoneLeft(v, m, k, blocks)
      decreases |v.wanted.candidates| - k
    {
      var index := v.wanted.candidates[k].index;
      CandidateIs(v, k);
      SeenGrows(v, k);
      if v.Has(index) {
        var extra := StalledPiece(v, want - |blocks|, index, m);
        Joined(v, blocks, extra);
        blocks := blocks + extra;
      }
      k := k + 1;
    }
  }

  // ------------------------------------------------------------ all passes

  /** The torrent is being saved, and nothing that a player needs soon is left to fetch. */
  ghost predicate Saving(v: View, saved: bool) {
    saved && forall i :: 0 <= i < |v.t.pieces| && ForPlayback(v.t.pieces[i].priority) ==>
      v.t.pieces[i].complete || v.t.pieces[i].checking
  }

  predicate ForPlayback(p: PiecePriority) {
    p == Readahead || p == Next || p == Now
  }

  /** The first candidate has the highest priority of all. */
  lemma FirstDecides(v: View, saved: bool)
    requires v.Sound()
    ensures var cs := v.wanted.candidates;
            Saving(v, saved) <==> saved && (cs == [] || cs[0].priority.Rank() < Readahead.Rank())
  {
    var cs := v.wanted.candidates;
    if cs != [] {
      assert cs[0] in cs;
    }
    forall i | 0 <= i < |v.t.pieces| && v.t.pieces[i].Requestable()
      ensures cs != [] && v.t.pieces[i].priority.Rank() <= cs[0].priority.Rank()
    {
      var c :| c in cs && c.index == i;
      var j :| 0 <= j < |cs| && cs[j] == c;
      assert j > 0 ==> cs[0].Before(cs[j]);
    }
  }

  /** The blocks ahead of the player: 128 from the one that holds the playhead byte, unless the
      torrent is only being saved. */
  ghost function PlayWindow(v: View, saved: bool, focus: int): Option<Window>
    requires v.Sound()
  {
    var at := v.t.layout.FocusIndex(focus);
    if Saving(v, saved) || at.None? then None else Some(Window(at.value, Min(at.value + 128, v.t.layout.MaxEnd())))
  }

  /** Pieces that may be open at once: 64 MiB of them, 192 MiB when saving, and never under four. */
  ghost function OpenLimit(v: View, saved: bool): int
    requires v.Sound()
  {
    Max((if Saving(v, saved) then 192 else 64) * 1024 * 1024 / v.t.layout.pieceLength, 4)
  }

  /** What the passes found on the way: ahead of the player, after that, and the pieces left to faster
      peers. */
  datatype Found = Found(ahead: seq<Entry>, rest: seq<Entry>, deferred: set<PieceIndex>)

  /** The playhead pass comes first and is complete. */
  ghost predicate AheadLaw(v: View, want: nat, window: Option<Window>, m: Measures, ahead: seq<Entry>) {
    match window
    case None => ahead == []
    case Some(w) =>
      && (forall e :: e in ahead ==> w.Contains(e.req) && PlayheadTake(v, w.begin, e.req, m) == Some(e.take))
      && AheadIsComplete(v, want, w, m, ahead)
  }

  /** With nothing listed, a peer that delivers and does not choke takes over blocks that do not
      move: all of the first 256 candidates, at most 16. */
  ghost predicate LastResort(v: View, want: nat, m: Measures, listed: seq<Entry>, blocks: seq<Entry>) {
    if listed == [] && want > 0 && !v.peer.choking && m.moving then
      && |blocks| <= Min(want, 16) && Steals(blocks)
      && (|blocks| < Min(want, 16) ==> NoneLeft(v, m, Min(|v.wanted.candidates|, 256), blocks))
    else blocks == listed
  }

  /** So little is left that it is looked through whole. */
  ghost predicate NearTheEnd(v: View, window: Option<Window>) {
    window.None? && v.wanted.count * v.t.layout.pieceLength <= 16 * 1024 * 1024
  }

  /** A block that `v`'s peer could fetch, from the state alone: wanted, missing, held by nobody, at
      this peer and open to it. */
  predicate Fetchable(v: View, r: RequestIndex)
    requires v.t.layout.Valid()
  {
    var piece := r / v.t.layout.ChunksPerPiece();
    && r < v.t.layout.MaxEnd() && piece < |v.t.pieces|
    && v.t.pieces[piece].priority != Unwanted && !v.t.pieces[piece].complete && !v.t.pieces[piece].checking
    && r !in v.t.dirty && r !in v.t.writing && r !in v.t.table.owners
    && (v.peer.haveAll || piece in v.peer.pieces) && (v.peer.choking ==> piece in v.peer.allowedFast)
    && r !in v.peer.outstanding && r !in v.peer.cancelled
  }

  /** After a seek, a peer short of work gets work whenever there is a block it could fetch and need
      not leave to a faster one. */
  lemma FindsWork(v: View, want: nat, g: Brief, found: Found, next: seq<nat>, open: nat, r: RequestIndex)
    requires v.Sound() && want > 0 && g.m.starving && !g.m.slow && Fetchable(v, r) && !g.m.leaveIt(r)
    requires |g.start| == |v.t.pieces| && forall i :: 0 <= i < |g.start| ==> g.start[i] == 0
    requires g.room == want - |found.ahead| && AheadLaw(v, want, g.window, g.m, found.ahead)
    requires if NearTheEnd(v, g.window) then EndgameLaw(v, want, found.rest)
             else QueueLaw(v, g, found.deferred, next, open, found.rest)
    ensures found.ahead + found.rest != []
  {
    EligibleMeans(v, r);
    if NearTheEnd(v, g.window) {
      assert v.BlockFree(r);
    } else if Within(g.window, r) {
      assert Takes(v, g.window.value.begin, r, g.m);
      assert found.ahead != [];
    } else if found.ahead == [] {
      QueueFindsWork(v, g, found.deferred, next, open, found.rest, r);
    }
  }

  lemma QueueFindsWork(v: View, g: Brief, deferred: set<PieceIndex>, next: seq<nat>, open: nat, tail: seq<Entry>, r: RequestIndex)
    requires v.Sound() && g.room > 0 && g.m.starving && !g.m.slow && v.Eligible(r) && v.BlockFree(r) && !Within(g.window, r)
    requires |g.start| == |v.t.pieces| && forall i :: 0 <= i < |g.start| ==> g.start[i] == 0
    requires QueueLaw(v, g, deferred, next, open, tail)
    ensures tail != []
  {
    var piece := v.t.layout.PieceOf(r);
    EveryPieceSeen(v);
    var j :| 0 <= j < |v.wanted.candidates| && v.wanted.candidates[j].index == piece;
    assert Leftover(v, g, r);
    assert Justified(v, g, deferred, tail, open, j, r);
    assert piece !in deferred;
  }

  /** The blocks ahead of the player, and how many pieces may be open. */
  method FindWindow(v: View, saved: bool, focus: int) returns (window: Option<Window>, openLimit: int)
    requires v.Sound()
    ensures window == PlayWindow(v, saved, focus) && openLimit == OpenLimit(v, saved)
  {
    var candidates := v.wanted.candidates;
    var saving := saved && (candidates == [] || candidates[0].priority.Rank() < Readahead.Rank());
    FirstDecides(v, saved);
    var at := if saving then None else v.t.layout.FocusIndex(focus);
    window := None;
    if at.Some? {
      window := Some(Window(at.value, Min(at.value + PLAYHEAD_WINDOW_BLOCKS, v.t.layout.MaxEnd())));
    }
    var openBytes := if saving then SAVED_OPEN_BYTES else PLAYBACK_OPEN_BYTES;
    openLimit := Max(openBytes / v.t.layout.pieceLength, OPEN_MIN_PIECES);
  }

  method PickAhead(v: View, want: nat, window: Option<Window>, m: Measures) returns (pick: Pick)
    requires v.Sound() && (window.Some? ==> window.value.end <= v.t.layout.MaxEnd())
    ensures |pick.blocks| <= want && v.Good(pick.blocks) && (pick.interested ==> v.HasWanted())
    ensures AheadLaw(v, want, window, m, pick.blocks)
  {
    pick := Pick([], false);
    if window.Some? {
      pick := PickPlayhead(v, want, window.value, m);
    }
  }

  /** What follows the playhead pass: the endgame when little is left, or else the queue. */
  method PickRest(v: View, queue: SharedQueue, want: nat, window: Option<Window>, openLimit: int, tooOld: bool, m: Measures, ahead: Pick)
    returns (pick: Pick, ghost g: Brief, ghost found: Found)
    requires v.Sound() && |ahead.blocks| <= want && v.Good(ahead.blocks)
    requires AheadLaw(v, want, window, m, ahead.blocks) && (ahead.interested ==> v.HasWanted())
    modifies queue
    ensures |pick.blocks| <= want && v.Good(pick.blocks)
    ensures found.ahead == ahead.blocks && pick.blocks == found.ahead + found.rest
    ensures pick.interested <==> v.HasWanted()
    ensures NearTheEnd(v, window) ==> EndgameLaw(v, want, found.rest) && unchanged(queue)
    ensures g == BriefFor(v, want - |ahead.blocks|, window, openLimit, tooOld, m,
                          old(queue.next), old(queue.rewound), old(queue.open), old(queue.generation))
    ensures !NearTheEnd(v, window) ==> QueueLaw(v, g, found.deferred, queue.next, queue.open, found.rest)
    ensures !old(queue.rewound) && want > 0 && m.starving && !m.slow && (exists r :: Fetchable(v, r) && !m.leaveIt(r)) ==>
              pick.blocks != []
  {
    g := BriefFor(v, want - |ahead.blocks|, window, openLimit, tooOld, m, queue.next, queue.rewound, queue.open, queue.generation);
    if window.None? && v.wanted.count * v.t.layout.pieceLength <= ENDGAME_BYTES {
      pick := PickEndgame(v, want);
      found := Found([], pick.blocks, {});
    } else {
      ghost var tail: seq<Entry>, deferred: set<PieceIndex>;
      pick, g, deferred, tail := queue.PickQueue(v, want, window, openLimit, tooOld, m, ahead);
      found := Found(ahead.blocks, tail, deferred);
    }
    if !old(queue.rewound) && want > 0 && m.starving && !m.slow && exists r :: Fetchable(v, r) && !m.leaveIt(r) {
      ghost var r :| Fetchable(v, r) && !m.leaveIt(r);
      FindsWork(v, want, g, found, queue.next, queue.open, r);
    }
  }

  /** Stalled blocks for a peer left with nothing. */
  method PickLast(v: View, want: nat, m: Measures, listed: seq<Entry>) returns (blocks: seq<Entry>)
    requires v.Sound() && |listed| <= want && v.Good(listed)
    ensures |blocks| <= want && v.Good(blocks) && LastResort(v, want, m, listed, blocks)
  {
    blocks := listed;
    if listed == [] && want > 0 && !v.peer.choking && m.moving {
      blocks := PickStalled(v, Min(want, STALLED_TAKE), m);
    }
  }

  /** Runs the passes in order and joins what they list. `focus` is the playhead byte, if any;
      `saved` says the torrent is being downloaded rather than played. What is ahead of the player
      comes first and is complete; outside it the queue's laws hold, or near the end those of the
      endgame; only an empty list is a reason to take over stalled blocks. */
  method PickBlocks(v: View, queue: SharedQueue, want: nat, saved: bool, focus: int, tooOld: bool, m: Measures)
    returns (pick: Pick, ghost g: Brief, ghost found: Found)
    requires v.Sound()
    modifies queue
    ensures |pick.blocks| <= want && v.Good(pick.blocks)
    ensures pick.interested <==> v.HasWanted()
    ensures |found.ahead| <= want
    ensures g == BriefFor(v, want - |found.ahead|, PlayWindow(v, saved, focus), OpenLimit(v, saved), tooOld, m,
                          old(queue.next), old(queue.rewound), old(queue.open), old(queue.generation))
    ensures AheadLaw(v, want, g.window, m, found.ahead)
    ensures NearTheEnd(v, g.window) ==> EndgameLaw(v, want, found.rest) && unchanged(queue)
    ensures !NearTheEnd(v, g.window) ==> QueueLaw(v, g, found.deferred, queue.next, queue.open, found.rest)
    ensures LastResort(v, want, m, found.ahead + found.rest, pick.blocks)
    ensures pick.blocks == [] && want > 0 && !v.peer.choking && m.moving ==>
              NoneLeft(v, m, Min(|v.wanted.candidates|, 256), [])
    ensures !old(queue.rewound) && want > 0 && m.starving && !m.slow && (exists r :: Fetchable(v, r) && !m.leaveIt(r)) ==>
              pick.blocks != []
  {
    var window, openLimit := FindWindow(v, saved, focus);
    var ahead := PickAhead(v, want, window, m);
    pick, g, found := PickRest(v, queue, want, window, openLimit, tooOld, m, ahead);
    var blocks := PickLast(v, want, m, pick.blocks);
    pick := pick.(blocks := blocks);
  }

  // ------------------------------------------------------------ picking in a run

  /** What the picker sees during a refill: the table and the connection after the reconciling
      cancels. */
  function RefillView(t: Torrent, wanted: WantedPieces, c: Conn, me: PeerKey, refocus: bool, limit: nat, now: int): View {
    var (table, c1) := Reconcile(t, c, me, refocus, limit, now);
    View(t.(table := table), wanted, c1, me)
  }

  /** In every reachable state a refill by any idle connection gives the picker a sound view, from
      any current scan. */
  lemma ReachableIsSound(s0: Swarm.State, es: seq<Swarm.Event>, me: PeerKey, wanted: WantedPieces,
                         refocus: bool, limit: nat, now: int)
    requires Swarm.Initial(s0) && Swarm.Runs(s0, es)
    requires var s := Swarm.After(s0, es);
             Swarm.Idle(s, me) && Agrees(wanted, s.torrent.pieces)
    ensures var s := Swarm.After(s0, es);
            RefillView(s.torrent, wanted, s.conns[me], me, refocus, limit, now).Sound()
  {
    Ownership.RunKeeps(s0, es);
    Swarm.SizesKeep(s0, es);
    var s := Swarm.After(s0, es);
    Ownership.ReconcileKeeps(s.torrent, s.conns[me], me, refocus, limit, now);
  }

  /** Proper entries name blocks of the torrent. */
  lemma GoodIsInTorrent(v: View, blocks: seq<Entry>)
    requires v.Sound() && v.Good(blocks)
    ensures forall e :: e in blocks ==> e.req < v.t.layout.MaxEnd()
  {
    forall e | e in blocks
      ensures e.req < v.t.layout.MaxEnd()
    {
      assert v.Proper(e);
      RangeMember(v.t.layout, e.req, v.t.layout.PieceOf(e.req));
    }
  }

  /** A refill with a list the picker may return asks for blocks of the torrent only. */
  lemma PickedIsSensible(v: View, blocks: seq<Entry>, e: Swarm.Event)
    requires v.Sound() && v.Good(blocks) && e.OnRefill? && |e.picks| == |blocks|
    requires forall i :: 0 <= i < |blocks| ==> e.picks[i].req == blocks[i].req
    ensures Bounds.Sensible(e, v.t.layout.MaxEnd())
  {
    GoodIsInTorrent(v, blocks);
    assert forall i :: 0 <= i < |blocks| ==> blocks[i] in blocks;
  }

  /** The picked entries behind a list of attempts. */
  function Entries(attempts: seq<Attempt>): (r: seq<Entry>)
    ensures |r| == |attempts| && forall i :: 0 <= i < |r| ==> r[i] == Entry(attempts[i].req, attempts[i].take)
  {
    seq(|attempts|, i requires 0 <= i < |attempts| => Entry(attempts[i].req, attempts[i].take))
  }

  predicate SameOwner(a: Table, b: Table, r: RequestIndex) {
    (r in a.owners <==> r in b.owners) && (r in a.owners ==> a.owners[r] == b.owners[r])
  }

  predicate SameSecond(a: Table, b: Table, r: RequestIndex) {
    (r in a.seconds <==> r in b.seconds) && (r in a.seconds ==> a.seconds[r] == b.seconds[r])
  }

  /** A claim is granted: the block is neither delivered nor being delivered; for a copy, it is
      not delivered, has no second copy yet, and an eager one is paid for. */
  predicate Gains(t: Torrent, table: Table, a: Attempt) {
    match a.take
    case Copy(eager) => (eager ==> a.granted) && a.req !in t.dirty && a.req !in table.seconds
    case _ => a.req !in t.dirty && a.req !in t.writing
  }

  /** What an attempt does to its block: a granted one is owned or copied and requested; a refused
      steal still costs the holder the block; a refused copy changes nothing. */
  predicate Outcome(t: Torrent, table: Table, me: PeerKey, a: Attempt, table': Table, c': Conn) {
    && (a.req in c'.outstanding <==> Gains(t, table, a))
    && if a.take.Copy? then
         && SameOwner(table, table', a.req)
         && (if Gains(t, table, a) then table'.CopiedBy(a.req, me) else SameSecond(table, table', a.req))
       else
         && SameSecond(table, table', a.req)
         && (if Gains(t, table, a) then table'.OwnedBy(a.req, me) else a.req !in table'.owners)
  }

  /** A block no attempt names. */
  predicate Untouched(table: Table, c: Conn, table': Table, c': Conn, r: RequestIndex) {
    SameOwner(table, table', r) && SameSecond(table, table', r) && (r in c'.outstanding <==> r in c.outstanding)
  }

  predicate Names(attempts: seq<Attempt>, r: RequestIndex) {
    exists i :: 0 <= i < |attempts| && attempts[i].req == r
  }

  /** Exactly what claiming a picked list does, with every request sent: each attempt has its own
      outcome, whatever the ones before it did, and no other block changes hands. A free block is
      always gained; a steal is refused if and only if the block is delivered or being delivered. */
  lemma {:induction false} PickedAreClaimed(v: View, t: Torrent, attempts: seq<Attempt>, now: int)
    requires v.Sound() && v.Good(Entries(attempts)) && v.t == t.(table := v.t.table)
    requires forall i :: 0 <= i < |attempts| ==> attempts[i].sent
    ensures var table, c := v.t.table, v.peer;
            var (table', c') := ClaimAll(t, table, c, v.me, attempts, now);
            && (forall i :: 0 <= i < |attempts| ==> Outcome(t, table, v.me, attempts[i], table', c'))
            && (forall i :: 0 <= i < |attempts| && attempts[i].take.Free? ==> Gains(t, table, attempts[i]))
            && (forall r: RequestIndex :: !Names(attempts, r) ==> Untouched(table, c, table', c', r))
    decreases |attempts|
  {
    if attempts != [] {
      var a, rest := attempts[0], attempts[1..];
      var (claimed, table1) := TryClaim(t, v.t.table, v.me, a, now);
      var c1 := if claimed then Sent(v.peer, a.req) else v.peer;
      ClaimIsolated(v, attempts, now);
      PickedAreClaimed(v.(t := v.t.(table := table1), peer := c1), t, rest, now);
      var (table', c') := ClaimAll(t, table1, c1, v.me, rest, now);
      Unlike(v, attempts);
      OutcomesChain(t, v.me, v.t.table, v.peer, attempts, table1, c1, table', c');
    }
  }

  /** One attempt on a proper entry: its outcome, and no other block touched. */
  lemma ClaimOutcome(v: View, a: Attempt, now: int)
    requires v.Sound() && v.Proper(Entry(a.req, a.take))
    ensures var (claimed, table1) := TryClaim(v.t, v.t.table, v.me, a, now);
            var c1 := if claimed then Sent(v.peer, a.req) else v.peer;
            && Outcome(v.t, v.t.table, v.me, a, table1, c1) && (a.take.Free? ==> Gains(v.t, v.t.table, a))
            && (forall r: RequestIndex :: r != a.req ==> Untouched(v.t.table, v.peer, table1, c1, r))
            && (forall r <- table1.owners :: table1.owners[r].peer == v.me ==> r in c1.outstanding)
            && c1.cancelled <= v.peer.cancelled
            && c1 == v.peer.(outstanding := c1.outstanding, expected := c1.expected,
                             cancelled := c1.cancelled, cancelledAt := c1.cancelledAt)
  {
  }

  /** Entries whose blocks nobody touched stay proper. */
  lemma StaysProper(v: View, table1: Table, c1: Conn, e: Entry)
    requires v.Proper(e) && Untouched(v.t.table, v.peer, table1, c1, e.req) && c1.cancelled <= v.peer.cancelled
    requires c1 == v.peer.(outstanding := c1.outstanding, expected := c1.expected,
                           cancelled := c1.cancelled, cancelledAt := c1.cancelledAt)
    ensures v.(t := v.t.(table := table1), peer := c1).Proper(e)
  {
  }

  /** The first attempt has its outcome, touches no other block and leaves the rest as good. */
  lemma ClaimIsolated(v: View, attempts: seq<Attempt>, now: int)
    requires v.Sound() && v.Good(Entries(attempts)) && attempts != []
    ensures var a := attempts[0];
            var (claimed, table1) := TryClaim(v.t, v.t.table, v.me, a, now);
            var c1 := if claimed then Sent(v.peer, a.req) else v.peer;
            var v1 := v.(t := v.t.(table := table1), peer := c1);
            && a.req !in v.peer.outstanding && v1.Sound() && v1.Good(Entries(attempts[1..]))
            && Outcome(v.t, v.t.table, v.me, a, table1, c1) && (a.take.Free? ==> Gains(v.t, v.t.table, a))
            && (forall r: RequestIndex :: r != a.req ==> Untouched(v.t.table, v.peer, table1, c1, r))
  {
    var a, es := attempts[0], Entries(attempts);
    var (claimed, table1) := TryClaim(v.t, v.t.table, v.me, a, now);
    var c1 := if claimed then Sent(v.peer, a.req) else v.peer;
    assert es[0] in es && v.Proper(es[0]);
    ClaimOutcome(v, a, now);
    assert Entries(attempts[1..]) == es[1..];
    forall i | 0 <= i < |es[1..]|
      ensures v.(t := v.t.(table := table1), peer := c1).Proper(es[1..][i])
    {
      assert es[i + 1] in es && v.Proper(es[i + 1]);
      StaysProper(v, table1, c1, es[i + 1]);
    }
  }

  /** A refill in any reachable state, with a list the picker may return there and every request
      sent: each attempt has its outcome, and no other block changes hands. What was requested
      before stays requested and held if and only if it survives. */
  lemma RefillGets(s0: Swarm.State, es: seq<Swarm.Event>, wanted: WantedPieces, e: Swarm.Event)
    requires Swarm.Initial(s0) && Swarm.Runs(s0, es) && e.OnRefill?
    requires var s := Swarm.After(s0, es);
             && Swarm.Enabled(s, e) && Agrees(wanted, s.torrent.pieces)
             && var v := RefillView(s.torrent, wanted, s.conns[e.peer], e.peer, e.refocus, e.limit, e.now);
                v.Good(Entries(e.picks)) && (e.picks == [] || |v.peer.outstanding| + |e.picks| <= v.peer.Nominal())
    requires forall i :: 0 <= i < |e.picks| ==> e.picks[i].sent
    ensures var s := Swarm.After(s0, es);
            var v := RefillView(s.torrent, wanted, s.conns[e.peer], e.peer, e.refocus, e.limit, e.now);
            var s' := Swarm.Apply(s, e);
            && (forall i :: 0 <= i < |e.picks| ==>
                  Outcome(s.torrent, v.t.table, e.peer, e.picks[i], s'.torrent.table, s'.conns[e.peer]))
            && (forall r: RequestIndex :: !Names(e.picks, r) ==>
                  Untouched(v.t.table, v.peer, s'.torrent.table, s'.conns[e.peer], r))
            && (forall r: RequestIndex :: !Names(e.picks, r) ==>
                  Stays(s.torrent, s.conns[e.peer], e.peer, e.refocus, s'.torrent.table, s'.conns[e.peer], r))
            && (forall r: RequestIndex :: Names(e.picks, r) ==>
                  !Effects.Survives(s.torrent, s.conns[e.peer], e.peer, e.refocus, r))
  {
    var s := Swarm.After(s0, es);
    ReachableIsSound(s0, es, e.peer, wanted, e.refocus, e.limit, e.now);
    ListGets(s.torrent, wanted, s.conns[e.peer], e.peer, e.refocus, e.limit, e.picks, e.now);
    var s' := Swarm.Apply(s, e);
    ListStays(s.torrent, wanted, s.conns[e.peer], e.peer, e.refocus, e.limit, e.picks, e.now, s'.torrent.table, s'.conns[e.peer]);
  }

  /** A block outside the list: requested afterwards if and only if its request survives, and held
      by whom it was, except by this peer when its request does not. */
  ghost predicate Stays(t: Torrent, c: Conn, me: PeerKey, refocus: bool, table': Table, c': Conn, r: RequestIndex) {
    && (r in c'.outstanding <==> Effects.Survives(t, c, me, refocus, r))
    && forall p :: Effects.Holds(table', r, p) <==>
         Effects.Holds(t.table, r, p) && (p == me && r in c.outstanding ==> Effects.Survives(t, c, me, refocus, r))
  }

  lemma ListStays(t: Torrent, wanted: WantedPieces, c: Conn, me: PeerKey, refocus: bool, limit: nat, picks: seq<Attempt>, now: int,
                  table': Table, c': Conn)
    requires var v := RefillView(t, wanted, c, me, refocus, limit, now);
             && v.Good(Entries(picks))
             && forall r: RequestIndex :: !Names(picks, r) ==> Untouched(v.t.table, v.peer, table', c', r)
    ensures forall r: RequestIndex :: !Names(picks, r) ==> Stays(t, c, me, refocus, table', c', r)
    ensures forall r: RequestIndex :: Names(picks, r) ==> !Effects.Survives(t, c, me, refocus, r)
  {
    Effects.ReconcileLeaves(t, c, me, refocus, limit, now);
    var v := RefillView(t, wanted, c, me, refocus, limit, now);
    forall r: RequestIndex | !Names(picks, r)
      ensures Stays(t, c, me, refocus, table', c', r)
    {
      assert Untouched(v.t.table, v.peer, table', c', r);
      assert forall p :: Effects.Holds(table', r, p) <==> Effects.Holds(v.t.table, r, p);
    }
    forall r: RequestIndex | Names(picks, r)
      ensures !Effects.Survives(t, c, me, refocus, r)
    {
      var i :| 0 <= i < |picks| && picks[i].req == r;
      assert Entries(picks)[i] in Entries(picks);
    }
  }

  lemma ListGets(t: Torrent, wanted: WantedPieces, c: Conn, me: PeerKey, refocus: bool, limit: nat, picks: seq<Attempt>, now: int)
    requires var v := RefillView(t, wanted, c, me, refocus, limit, now);
             v.Sound() && v.Good(Entries(picks)) && (picks == [] || |v.peer.outstanding| + |picks| <= v.peer.Nominal())
    requires forall i :: 0 <= i < |picks| ==> picks[i].sent
    ensures var v := RefillView(t, wanted, c, me, refocus, limit, now);
            var (table', c') := Refill(t, c, me, refocus, limit, picks, now);
            && (forall i :: 0 <= i < |picks| ==> Outcome(t, v.t.table, me, picks[i], table', c'))
            && (forall r: RequestIndex :: !Names(picks, r) ==> Untouched(v.t.table, v.peer, table', c', r))
  {
    var v := RefillView(t, wanted, c, me, refocus, limit, now);
    assert picks[..Min(Room(v.peer), |picks|)] == picks;
    PickedAreClaimed(v, t, picks, now);
    var (table2, c2) := ClaimAll(t, v.t.table, v.peer, me, picks, now);
    PeakIrrelevant(t, v.t.table, v.peer, me, picks, table2, c2, Max(c2.peak, |c2.outstanding|));
  }

  /** Of a longer list a refill tries exactly as many entries, from the front, as the limit still has
      room for. */
  lemma FrontIsTried(t: Torrent, table: Table, c: Conn, me: PeerKey, picks: seq<Attempt>, now: int, n: nat)
    requires n == (if c.Nominal() > |c.outstanding| then c.Nominal() - |c.outstanding| else 0) && n < |picks|
    ensures FillRoom(t, table, c, me, picks, now) == FillRoom(t, table, c, me, picks[..n], now)
  {
    assert Room(c) == n && picks[..n][..n] == picks[..n];
  }

  lemma PeakIrrelevant(t: Torrent, table: Table, c: Conn, me: PeerKey, picks: seq<Attempt>, table': Table, c': Conn, peak: nat)
    ensures forall i :: 0 <= i < |picks| ==>
              (Outcome(t, table, me, picks[i], table', c') <==> Outcome(t, table, me, picks[i], table', c'.(peak := peak)))
    ensures forall r: RequestIndex ::
              Untouched(table, c, table', c', r) <==> Untouched(table, c, table', c'.(peak := peak), r)
  {
  }

  lemma Unlike(v: View, attempts: seq<Attempt>)
    requires v.Good(Entries(attempts))
    ensures forall i, j :: 0 <= i < j < |attempts| ==> attempts[i].req != attempts[j].req
  {
    var es := Entries(attempts);
    forall i, j | 0 <= i < j < |attempts|
      ensures attempts[i].req != attempts[j].req
    {
      assert es[i].req != es[j].req;
    }
  }

  /** Outcomes of the rest, seen from before the first attempt. */
  lemma OutcomesChain(t: Torrent, me: PeerKey, table: Table, c: Conn, attempts: seq<Attempt>,
                      table1: Table, c1: Conn, table': Table, c': Conn)
    requires attempts != [] && forall i, j :: 0 <= i < j < |attempts| ==> attempts[i].req != attempts[j].req
    requires Outcome(t, table, me, attempts[0], table1, c1)
    requires forall r: RequestIndex :: r != attempts[0].req ==> Untouched(table, c, table1, c1, r)
    requires forall i :: 0 <= i < |attempts[1..]| ==> Outcome(t, table1, me, attempts[1..][i], table', c')
    requires forall r: RequestIndex :: !Names(attempts[1..], r) ==> Untouched(table1, c1, table', c', r)
    ensures forall i :: 0 <= i < |attempts| ==> Outcome(t, table, me, attempts[i], table', c')
    ensures forall i :: 0 < i < |attempts| ==> (Gains(t, table, attempts[i]) <==> Gains(t, table1, attempts[i]))
    ensures forall r: RequestIndex :: !Names(attempts, r) ==> Untouched(table, c, table', c', r)
  {
    assert !Names(attempts[1..], attempts[0].req);
    forall i | 0 < i < |attempts|
      ensures Outcome(t, table, me, attempts[i], table', c')
      ensures Gains(t, table, attempts[i]) <==> Gains(t, table1, attempts[i])
    {
      assert attempts[1..][i - 1] == attempts[i];
      assert Untouched(table, c, table1, c1, attempts[i].req);
    }
    forall r: RequestIndex | !Names(attempts, r)
      ensures Untouched(table, c, table', c', r)
    {
      assert !Names(attempts[1..], r) by {
        assert forall i :: 0 <= i < |attempts[1..]| ==> attempts[1..][i] == attempts[i + 1];
      }
      assert r != attempts[0].req;
      assert Untouched(table, c, table1, c1, r) && Untouched(table1, c1, table', c', r);
    }
  }

  /** A request that cannot be sent ends the claiming: what went before stands, the failed claim
      is given back, and nothing after it is tried. */
  lemma {:induction false} StopsAtFailedSend(t: Torrent, table: Table, c: Conn, me: PeerKey,
                                             attempts: seq<Attempt>, k: nat, now: int)
    requires k < |attempts| && !attempts[k].sent && forall i :: 0 <= i < k ==> attempts[i].sent
    requires var (table1, c1) := ClaimAll(t, table, c, me, attempts[..k], now);
             attempts[k].req !in c1.outstanding && TryClaim(t, table1, me, attempts[k], now).0
    ensures var (table1, c1) := ClaimAll(t, table, c, me, attempts[..k], now);
            ClaimAll(t, table, c, me, attempts, now) == (Undo(TryClaim(t, table1, me, attempts[k], now).1, me, attempts[k]), c1)
    decreases k
  {
    if k > 0 {
      var a := attempts[0];
      var (claimed, table1) := TryClaim(t, table, me, a, now);
      assert attempts[..k][0] == a && attempts[..k][1..] == attempts[1..][..k - 1];
      assert attempts[1..][k - 1] == attempts[k];
      if a.req in c.outstanding {
        StopsAtFailedSend(t, table, c, me, attempts[1..], k - 1, now);
      } else if !claimed {
        StopsAtFailedSend(t, table1, c, me, attempts[1..], k - 1, now);
      } else {
        StopsAtFailedSend(t, table1, Sent(c, a.req), me, attempts[1..], k - 1, now);
      }
    }
  }
}
