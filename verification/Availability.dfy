/** Piece availability: the counters never drift from what the live peers announced. */
module Availability {
  import opened Types
  import opened Geometry
  import opened BlockTables
  import opened Protocol
  import opened Swarm
  import LastWord

  /** Counted in the piece's own counter. */
  predicate Announces(c: Conn, i: PieceIndex) {
    !c.haveAll && i in c.pieces
  }

  function Announcers(conns: map<PeerKey, Conn>, i: PieceIndex): set<PeerKey> {
    set p | p in conns && Announces(conns[p], i)
  }

  function HaveAllPeers(conns: map<PeerKey, Conn>): set<PeerKey> {
    set p | p in conns && conns[p].haveAll
  }

  /** Live peers that have piece `i`, however they said so. */
  function Holders(conns: map<PeerKey, Conn>, i: PieceIndex): set<PeerKey> {
    set p | p in conns && (conns[p].haveAll || i in conns[p].pieces)
  }

  ghost predicate Counted(announced: seq<int>, conns: map<PeerKey, Conn>) {
    forall i :: 0 <= i < |announced| ==> announced[i] == |Announcers(conns, i)|
  }

  ghost predicate Inv(s: State) {
    && |s.torrent.announced| == |s.torrent.pieces|
    && Counted(s.torrent.announced, s.conns)
    && s.torrent.haveAllPeers == |HaveAllPeers(s.conns)|
    && (forall p, i :: p in s.conns && s.conns[p].haveAll && 0 <= i < |s.torrent.pieces| ==> i in s.conns[p].pieces)
  }

  function One(b: bool): int {
    if b then 1 else 0
  }

  lemma ReplacedAnnouncer(conns: map<PeerKey, Conn>, p: PeerKey, c: Conn, i: PieceIndex)
    ensures |Announcers(conns[p := c], i)| ==
            |Announcers(conns, i)| - One(p in conns && Announces(conns[p], i)) + One(Announces(c, i))
  {
    var rest := Announcers(conns, i) - {p};
    assert Announcers(conns[p := c], i) == if Announces(c, i) then rest + {p} else rest;
    assert Announcers(conns, i) == if p in conns && Announces(conns[p], i) then rest + {p} else rest;
  }

  lemma ReplacedHaveAll(conns: map<PeerKey, Conn>, p: PeerKey, c: Conn)
    ensures |HaveAllPeers(conns[p := c])| ==
            |HaveAllPeers(conns)| - One(p in conns && conns[p].haveAll) + One(c.haveAll)
  {
    var others := HaveAllPeers(conns) - {p};
    assert HaveAllPeers(conns[p := c]) == if c.haveAll then others + {p} else others;
    assert HaveAllPeers(conns) == if p in conns && conns[p].haveAll then others + {p} else others;
  }

  lemma Removed(conns: map<PeerKey, Conn>, p: PeerKey, i: PieceIndex)
    requires p in conns
    ensures |Announcers(conns - {p}, i)| == |Announcers(conns, i)| - One(Announces(conns[p], i))
    ensures |HaveAllPeers(conns - {p})| == |HaveAllPeers(conns)| - One(conns[p].haveAll)
  {
    assert Announcers(conns - {p}, i) == Announcers(conns, i) - {p};
    assert HaveAllPeers(conns - {p}) == HaveAllPeers(conns) - {p};
  }

  /** What an announcement owes each counter. */
  ghost predicate Settled(t: Torrent, c: Conn, t': Torrent, c': Conn) {
    && |t'.announced| == |t.announced| && |t'.pieces| == |t.pieces|
    && (forall i :: 0 <= i < |t.announced| ==>
          t'.announced[i] - t.announced[i] == One(Announces(c', i)) - One(Announces(c, i)))
    && t'.haveAllPeers - t.haveAllPeers == One(c'.haveAll) - One(c.haveAll)
    && (c'.haveAll ==> forall i :: 0 <= i < |t.pieces| ==> i in c'.pieces)
  }

  lemma SettledKeeps(s: State, p: PeerKey, s': State)
    requires Inv(s) && p in s'.conns && s'.conns == s.conns[p := s'.conns[p]]
    requires Settled(s.torrent, if p in s.conns then s.conns[p] else NewConn(true), s'.torrent, s'.conns[p])
    ensures Inv(s')
  {
    ReplacedHaveAll(s.conns, p, s'.conns[p]);
    forall i | 0 <= i < |s'.torrent.announced|
      ensures s'.torrent.announced[i] == |Announcers(s'.conns, i)|
    {
      ReplacedAnnouncer(s.conns, p, s'.conns[p], i);
    }
  }

  /** Replacing a bitfield settles with exactly the pieces gained and lost, also coming from have-all. */
  lemma BitfieldSettles(t: Torrent, c: Conn, me: PeerKey, bits: set<PieceIndex>, now: int)
    requires |t.announced| == |t.pieces|
    requires c.haveAll ==> forall i :: 0 <= i < |t.pieces| ==> i in c.pieces
    ensures var (t', c') := Bitfield(t, c, me, bits, now); Settled(t, c, t', c')
  {
  }

  lemma HaveSettles(t: Torrent, c: Conn, index: PieceIndex)
    requires |t.announced| == |t.pieces|
    requires c.haveAll ==> forall i :: 0 <= i < |t.pieces| ==> i in c.pieces
    ensures var (t', c') := Have(t, c, index); Settled(t, c, t', c')
  {
  }

  lemma HaveAllSettles(t: Torrent, c: Conn)
    requires |t.announced| == |t.pieces|
    requires c.haveAll ==> forall i :: 0 <= i < |t.pieces| ==> i in c.pieces
    ensures var (t', c') := HaveAll(t, c); Settled(t, c, t', c')
  {
  }

  lemma RefillSettles(t: Torrent, c: Conn, me: PeerKey, refocus: bool, limit: nat, picks: seq<Attempt>, now: int)
    requires c.haveAll ==> forall i :: 0 <= i < |t.pieces| ==> i in c.pieces
    ensures var (table, c') := Refill(t, c, me, refocus, limit, picks, now); Settled(t, c, t.(table := table), c')
  {
    var (table, c1) := Reconcile(t, c, me, refocus, limit, now);
    ClaimAllShape(t, table, c1, me, picks[..Min(Room(c1), |picks|)], now);
  }

  predicate IsAnnouncement(e: Event) {
    e.OnHave? || e.OnBitfield? || e.OnHaveAll? || e.OnRefill?
  }

  lemma AnnouncementStep(s: State, e: Event)
    requires Inv(s) && Enabled(s, e) && IsAnnouncement(e)
    ensures Inv(Apply(s, e))
  {
    var t, p := s.torrent, e.peer;
    var c := s.conns[p];
    match e {
      case OnHave(_, i) => HaveSettles(t, c, i);
      case OnBitfield(_, bits, now) => BitfieldSettles(t, c, p, bits, now);
      case OnHaveAll(_) => HaveAllSettles(t, c);
      case OnRefill(_, refocus, limit, picks, now) => RefillSettles(t, c, p, refocus, limit, picks, now);
    }
    SettledKeeps(s, p, Apply(s, e));
  }

  lemma ClosedStep(s: State, e: Event)
    requires Inv(s) && Enabled(s, e) && e.OnClosed?
    ensures Inv(Apply(s, e))
  {
    var s' := Apply(s, e);
    Removed(s.conns, e.peer, 0);
    forall i | 0 <= i < |s'.torrent.announced|
      ensures s'.torrent.announced[i] == |Announcers(s'.conns, i)|
    {
      Removed(s.conns, e.peer, i);
    }
  }

  /** The rest keeps all counters and all announcements. */
  ghost predicate SameAnnouncements(s: State, s': State) {
    && s'.torrent.announced == s.torrent.announced && s'.torrent.haveAllPeers == s.torrent.haveAllPeers
    && |s'.torrent.pieces| == |s.torrent.pieces| && s'.conns.Keys == s.conns.Keys
    && (forall p :: p in s.conns ==>
          s'.conns[p].haveAll == s.conns[p].haveAll && s'.conns[p].pieces == s.conns[p].pieces)
  }

  lemma SilentStep(s: State, e: Event)
    requires Enabled(s, e) && !IsAnnouncement(e) && !e.Attach? && !e.OnClosed?
    ensures SameAnnouncements(s, Apply(s, e))
  {
    if IsPlain(e) {
      PlainStep(s, e);
      SilentHandler(s, e);
    } else {
      SilentOther(s, e);
    }
  }

  lemma SilentOther(s: State, e: Event)
    requires Enabled(s, e) && !IsPlain(e) && !e.Attach? && !e.OnClosed?
    ensures SameAnnouncements(s, Apply(s, e))
  {
    if e.OnPiece? || e.OnWritten? {
      SilentBlock(s, e);
    } else {
      SilentTorrent(s, e);
    }
  }

  lemma SilentBlock(s: State, e: Event)
    requires Enabled(s, e) && (e.OnPiece? || e.OnWritten?)
    ensures SameAnnouncements(s, Apply(s, e))
  {
  }

  /** Events that touch no connection. */
  lemma SilentTorrent(s: State, e: Event)
    requires Enabled(s, e) && !IsPlain(e) && !e.Attach? && !e.OnClosed? && !e.OnPiece? && !e.OnWritten?
    ensures Apply(s, e).conns == s.conns
    ensures SameAnnouncements(s, Apply(s, e))
  {
  }

  lemma SilentHandler(s: State, e: Event)
    requires Enabled(s, e) && IsPlain(e) && !IsAnnouncement(e)
    ensures var s' := Apply(s, e);
            && s'.torrent.announced == s.torrent.announced && s'.torrent.haveAllPeers == s.torrent.haveAllPeers
            && s'.conns[e.peer].haveAll == s.conns[e.peer].haveAll && s'.conns[e.peer].pieces == s.conns[e.peer].pieces
  {
  }

  lemma SilentKeeps(s: State, s': State)
    requires Inv(s) && SameAnnouncements(s, s')
    ensures Inv(s')
  {
    assert HaveAllPeers(s'.conns) == HaveAllPeers(s.conns);
    forall i | 0 <= i < |s'.torrent.announced|
      ensures s'.torrent.announced[i] == |Announcers(s'.conns, i)|
    {
      assert Announcers(s'.conns, i) == Announcers(s.conns, i);
    }
  }

  lemma StepKeeps(s: State, e: Event)
    requires Inv(s) && Enabled(s, e)
    ensures Inv(Apply(s, e))
  {
    if IsAnnouncement(e) {
      AnnouncementStep(s, e);
    } else if e.OnClosed? {
      ClosedStep(s, e);
    } else if e.Attach? {
      SettledKeeps(s, e.peer, Apply(s, e));
    } else {
      SilentStep(s, e);
      SilentKeeps(s, Apply(s, e));
    }
  }

  lemma {:induction false} RunKeeps(s: State, events: seq<Event>)
    requires Inv(s) && Runs(s, events)
    ensures Inv(After(s, events))
    decreases |events|
  {
    if events != [] {
      StepKeeps(s, events[0]);
      RunKeeps(Apply(s, events[0]), events[1..]);
    }
  }

  /** In every run, each piece's counter is the number of live peers announcing it, the have-all
      counter the number of live have-all peers, and their sum the number of peers that have it. */
  lemma AvailabilityConserved(start: State, events: seq<Event>, i: PieceIndex)
    requires Initial(start) && Runs(start, events)
    ensures var s := After(start, events);
            && |s.torrent.announced| == |s.torrent.pieces|
            && s.torrent.haveAllPeers == |HaveAllPeers(s.conns)|
            && (i < |s.torrent.announced| ==>
                  && s.torrent.announced[i] == |Announcers(s.conns, i)|
                  && s.torrent.announced[i] + s.torrent.haveAllPeers == |Holders(s.conns, i)|)
  {
    assert HaveAllPeers(start.conns) == {};
    assert forall j: nat :: Announcers(start.conns, j) == {};
    RunKeeps(start, events);
    var conns := After(start, events).conns;
    assert Holders(conns, i) == Announcers(conns, i) + HaveAllPeers(conns);
    assert Announcers(conns, i) !! HaveAllPeers(conns);
  }

  /** The same from the events alone: a piece's two counters add up to the number of peers whose last
      word about it was that they have it. */
  lemma AvailabilityIsWhatWasSaid(start: State, events: seq<Event>, i: PieceIndex, peers: set<PeerKey>)
    requires Initial(start) && Runs(start, events) && i < |start.torrent.pieces|
    requires forall p :: p in peers <==> LastWord.Latest(events, LastWord.SaysHas(p, i)) == Some(true)
    ensures var t := After(start, events).torrent;
            i < |t.announced| && t.announced[i] + t.haveAllPeers == |peers|
  {
    SizesKeep(start, events);
    AvailabilityConserved(start, events, i);
    var conns := After(start, events).conns;
    forall p
      ensures p in Holders(conns, i) <==> p in peers
    {
      LastWord.SaidExactly(start, events, p, i);
    }
    assert Holders(conns, i) == peers;
  }
}
