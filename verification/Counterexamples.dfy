/** Concrete runs in which the engine does less than one would expect. They all start with a
    torrent of two pieces of one block each, and every refill in them asks for what the picker may
    list at that moment. */
module Counterexamples {
  import opened Types
  import opened Geometry
  import opened BlockTables
  import opened Protocol
  import opened Swarm
  import opened Wanted
  import opened Picker

  // ------------------------------------------------------------ the torrent

  predicate OneBlockPieces(g: Layout) {
    && g.Valid() && g.NumPieces() == 2 && g.PieceLength(0) == BLOCK_SIZE && g.PieceLength(1) == BLOCK_SIZE
    && g.WireIndex(0, BLOCK_SIZE) == 1 && g.WireIndex(1, 0) == 1 && g.PieceOf(1) == 1
    && g.RangeBegin(0) == 0 && g.RangeEnd(0) == 1 && g.RangeBegin(1) == 1 && g.RangeEnd(1) == 2
  }

  lemma TwoPiecesGeometry()
    ensures OneBlockPieces(Layout(BLOCK_SIZE, 2 * BLOCK_SIZE))
  {
  }

  /** Two wanted pieces, nothing received. */
  predicate Clean(t: Torrent) {
    && OneBlockPieces(t.layout) && |t.pieces| == 2 && t.pieces[0].Requestable() && t.pieces[1].Requestable()
    && t.dirty == {} && t.writing == {}
  }

  lemma TwoPieces() returns (start: State)
    ensures Initial(start) && Clean(start.torrent)
  {
    TwoPiecesGeometry();
    var piece := PieceEntry(0, Normal, false, false, false, false, 1);
    start := State(Torrent(Layout(BLOCK_SIZE, 2 * BLOCK_SIZE), Table(map[], map[]), {}, {},
                           [piece, piece.(index := 1)], multiset{}, [0, 0], 0), map[], map[]);
  }

  // ------------------------------------------------------------ a peer joins and is asked

  /** A connection that has the second piece and may be asked. */
  function Ready(): Conn {
    NewConn(true).(choking := false, pieces := {1})
  }

  function JoinRun(p: PeerKey): seq<Event> {
    [Attach(p, true), OnHave(p, 1), OnUnchoke(p)]
  }

  lemma Join(s: State, p: PeerKey)
    requires p !in s.conns
    ensures Runs(s, JoinRun(p))
    ensures After(s, JoinRun(p)) == State(s.torrent.(announced := Note(s.torrent.announced, {1}, 1)),
                                          s.conns[p := Ready()], s.batches)
  {
    var s1 := Apply(s, Attach(p, true));
    var s2 := Apply(s1, OnHave(p, 1));
    assert s2.conns[p] == NewConn(true).(pieces := {1});
    ThreeSteps(s, Attach(p, true), OnHave(p, 1), OnUnchoke(p));
  }

  /** The picker may list exactly `entries` for `p`, whatever current scan it uses. */
  ghost predicate MayList(s: State, p: PeerKey, entries: seq<Entry>)
    requires p in s.conns
  {
    forall wanted :: Agrees(wanted, s.torrent.pieces) ==>
      RefillView(s.torrent, wanted, s.conns[p], p, false, 0, 0).Good(entries)
  }

  function Ask(p: PeerKey, take: Take): Event {
    OnRefill(p, false, 0, [Attempt(1, take, true, true)], 0)
  }

  lemma NothingToCancel(t: Torrent, p: PeerKey)
    ensures Reconcile(t, Ready(), p, false, 0, 0) == (t.table, Ready()) && Room(Ready()) == 1
  {
    var gone: set<RequestIndex> := Displaced(t, Ready(), p) + {};
    assert gone == {};
    var (table, c) := Cancel(t.table, Ready(), p, gone, 0);
    assert gone * Ready().outstanding == {};
    assert table.owners == t.table.owners && table.seconds == t.table.seconds;
    assert c == Ready();
  }

  lemma AskIsListed(s: State, p: PeerKey, take: Take)
    requires p in s.conns && s.conns[p] == Ready() && OneBlockPieces(s.torrent.layout)
    requires |s.torrent.pieces| == 2 && s.torrent.pieces[1].Requestable()
    requires match take
             case Free => 1 !in s.torrent.table.owners && 1 !in s.torrent.dirty && 1 !in s.torrent.writing
             case From(h) => s.torrent.table.OwnedBy(1, h) && h != p
             case Copy(_) => false
    ensures MayList(s, p, [Entry(1, take)])
  {
    NothingToCancel(s.torrent, p);
    forall wanted | Agrees(wanted, s.torrent.pieces)
      ensures RefillView(s.torrent, wanted, s.conns[p], p, false, 0, 0).Good([Entry(1, take)])
    {
      var v := RefillView(s.torrent, wanted, s.conns[p], p, false, 0, 0);
      assert wanted.requestable[1] && v.Proper(Entry(1, take));
    }
  }

  lemma ClaimOne(t: Torrent, p: PeerKey, take: Take)
    ensures var a := Attempt(1, take, true, true);
            var (claimed, table1) := TryClaim(t, t.table, p, a, 0);
            ClaimAll(t, t.table, Ready(), p, [a], 0) == (table1, if claimed then Sent(Ready(), 1) else Ready())
  {
    assert [Attempt(1, take, true, true)][1..] == [];
  }

  lemma AskDoes(t: Torrent, p: PeerKey, take: Take)
    ensures var (claimed, table1) := TryClaim(t, t.table, p, Attempt(1, take, true, true), 0);
            Refill(t, Ready(), p, false, 0, [Attempt(1, take, true, true)], 0) ==
            (table1, if claimed then Sent(Ready(), 1).(peak := 1) else Ready())
  {
    NothingToCancel(t, p);
    var picks := [Attempt(1, take, true, true)];
    assert picks[..1] == picks;
    ClaimOne(t, p, take);
    assert |Sent(Ready(), 1).outstanding| == 1 by {
      assert Sent(Ready(), 1).outstanding == {1};
    }
  }

  /** Peer 7 was asked for the second piece's block, and nothing else happened. */
  ghost predicate Asked(s: State) {
    && Clean(s.torrent) && s.batches == map[] && s.torrent.table == Table(map[1 := Request(7, 0)], map[])
    && s.conns == map[7 := Sent(Ready(), 1).(peak := 1)]
  }

  function AskedRun(): seq<Event> {
    JoinRun(7) + [Ask(7, Free)]
  }

  lemma AskFirst() returns (start: State)
    ensures Initial(start) && Runs(start, AskedRun()) && Asked(After(start, AskedRun()))
    ensures Runs(start, JoinRun(7)) && 7 in After(start, JoinRun(7)).conns
    ensures MayList(After(start, JoinRun(7)), 7, [Entry(1, Free)])
  {
    start := TwoPieces();
    Join(start, 7);
    var s := After(start, JoinRun(7));
    AskIsListed(s, 7, Free);
    AskFrom(s);
    OneStep(s, Ask(7, Free));
    RunsAppend(start, JoinRun(7), [Ask(7, Free)]);
  }

  lemma AskFrom(s: State)
    requires Clean(s.torrent) && s.torrent.table == Table(map[], map[])
    requires s.conns == map[7 := Ready()] && s.batches == map[]
    ensures Enabled(s, Ask(7, Free)) && Asked(Apply(s, Ask(7, Free)))
  {
    AskDoes(s.torrent, 7, Free);
  }

  // ------------------------------------------------------------ a block for the wrong piece

  function AnsweredRun(index: PieceIndex, begin: nat, length: nat, accepted: bool): seq<Event> {
    AskedRun() + [OnPiece(7, index, begin, length), OnWritten(7, true, accepted)]
  }

  lemma Answered(start: State, index: PieceIndex, begin: nat, length: nat, accepted: bool)
    requires Runs(start, AskedRun()) && Asked(After(start, AskedRun()))
    requires After(start, AskedRun()).torrent.layout.WireIndex(index, begin) == 1
    requires index < 2 && begin + length <= BLOCK_SIZE
    ensures var run := AnsweredRun(index, begin, length, accepted);
            && Runs(start, run) && var s := After(start, run);
            s.torrent.AllDirty(1) && s.batches == map[] && s.torrent.Busy(1) == (index == 1 && accepted)
  {
    Answer(After(start, AskedRun()), index, begin, length, accepted);
    RunsAppend(start, AskedRun(), [OnPiece(7, index, begin, length), OnWritten(7, true, accepted)]);
  }

  lemma DeliverAsked(s: State, index: PieceIndex, begin: nat, length: nat)
    requires Asked(s) && s.torrent.layout.WireIndex(index, begin) == 1
    ensures var e := OnPiece(7, index, begin, length);
            && Enabled(s, e) && var s' := Apply(s, e);
            && s'.conns.Keys == {7} && s'.conns[7].write == Some(Write(1, index, begin, length))
            && s'.batches == map[] && s'.torrent == s.torrent.(table := s'.torrent.table, writing := {1})
  {
    assert s.torrent.MayWrite(1) && s.conns[7].Expects(1);
  }

  lemma Answer(s: State, index: PieceIndex, begin: nat, length: nat, accepted: bool)
    requires Asked(s) && s.torrent.layout.WireIndex(index, begin) == 1 && index < 2 && begin + length <= BLOCK_SIZE
    ensures var run := [OnPiece(7, index, begin, length), OnWritten(7, true, accepted)];
            && Runs(s, run) && var s' := After(s, run);
            && s'.torrent.AllDirty(1) && s'.batches == map[] && s'.torrent.Busy(1) == (index == 1 && accepted)
  {
    var e, f := OnPiece(7, index, begin, length), OnWritten(7, true, accepted);
    DeliverAsked(s, index, begin, length);
    var s1 := Apply(s, e);
    WrittenAsked(s1.torrent, s1.conns[7], index, accepted);
    TwoSteps(s, e, f);
  }

  lemma WrittenAsked(t: Torrent, c: Conn, index: PieceIndex, accepted: bool)
    requires OneBlockPieces(t.layout) && |t.pieces| == 2 && t.pieces[0].Requestable() && t.pieces[1].Requestable()
    requires t.dirty == {} && index < 2 && c.write.Some? && c.write.value.req == 1 && c.write.value.piece == index
    ensures var t' := Written(t, c, 7, true, accepted).0;
            t'.AllDirty(1) && t'.Busy(1) == (index == 1 && accepted)
  {
    var t1 := t.FinishWrite(1, true);
    assert t1.dirty == {1} && 0 !in t1.dirty && 1 in t1.dirty;
    var t2 := t1.(table := Table(t1.table.owners - {1}, t1.table.seconds - {1}));
    assert t2.AllDirty(index) <==> index == 1;
  }

  /** No piece is stranded only if blocks are well addressed. Asked for the second piece, the peer
      answers with an empty block one whole piece after the first: the second piece is then full
      and nobody checks it, although the hasher takes every job. */
  lemma EmptyBlockStrands() returns (start: State)
    ensures Initial(start) && Runs(start, AnsweredRun(0, BLOCK_SIZE, 0, true))
    ensures var s := After(start, AnsweredRun(0, BLOCK_SIZE, 0, true));
            s.torrent.AllDirty(1) && !s.torrent.Busy(1) && s.batches == map[]
    ensures Runs(start, JoinRun(7)) && 7 in After(start, JoinRun(7)).conns
    ensures MayList(After(start, JoinRun(7)), 7, [Entry(1, Free)])
  {
    start := AskFirst();
    Answered(start, 0, BLOCK_SIZE, 0, true);
  }

  // ------------------------------------------------------------ a refused hash job

  /** The hasher refuses the second piece: it stays full, unverified and unchecked. */
  lemma RefusedJobStrands() returns (start: State)
    ensures Initial(start) && Runs(start, AnsweredRun(1, 0, BLOCK_SIZE, false))
    ensures var s := After(start, AnsweredRun(1, 0, BLOCK_SIZE, false));
            s.torrent.AllDirty(1) && !s.torrent.Busy(1) && s.batches == map[]
    ensures Runs(start, JoinRun(7)) && 7 in After(start, JoinRun(7)).conns
    ensures MayList(After(start, JoinRun(7)), 7, [Entry(1, Free)])
  {
    start := AskFirst();
    Answered(start, 1, 0, BLOCK_SIZE, false);
  }

  /** Nor can the picker help: all it may ever list of a full piece are steals, and none is granted. */
  lemma FullPieceGainsNothing(v: View, a: Attempt)
    requires v.Proper(Entry(a.req, a.take)) && v.t.AllDirty(v.t.layout.PieceOf(a.req))
    ensures a.take.From? && !Gains(v.t, v.t.table, a)
  {
    assert a.req in v.t.dirty;
  }

  // ------------------------------------------------------------ a steal of a delivered block

  function SeededRun(): seq<Event> {
    AskedRun() + [BatchStart(0, 1, 1, 2), BatchNext(0), BatchWritten(0, true)]
  }

  function StealRun(): seq<Event> {
    SeededRun() + JoinRun(8) + [Ask(8, From(7))]
  }

  lemma Seeded(s: State)
    requires Asked(s)
    ensures var run := [BatchStart(0, 1, 1, 2), BatchNext(0), BatchWritten(0, true)];
            && Runs(s, run) && var s' := After(s, run);
            && s'.torrent.dirty == {1} && s'.torrent.table == s.torrent.table && s'.conns == s.conns
            && OneBlockPieces(s'.torrent.layout) && |s'.torrent.pieces| == 2 && s'.torrent.pieces[1].Requestable()
  {
    var s1 := Apply(s, BatchStart(0, 1, 1, 2));
    assert s1.torrent.MayWrite(1);
    ThreeSteps(s, BatchStart(0, 1, 1, 2), BatchNext(0), BatchWritten(0, true));
  }

  /** A web seed delivers the block peer 7 was asked for; peer 8, left without work, steals it. It
      does not get it, and peer 7, who still waits for it, is no longer its owner. */
  lemma StealOfDeliveredBlock() returns (start: State)
    ensures Initial(start) && Runs(start, StealRun())
    ensures Runs(start, SeededRun() + JoinRun(8)) && 8 in After(start, SeededRun() + JoinRun(8)).conns
    ensures MayList(After(start, SeededRun() + JoinRun(8)), 8, [Entry(1, From(7))])
    ensures var s, s' := After(start, SeededRun() + JoinRun(8)), After(start, StealRun());
            && s.torrent.table.OwnedBy(1, 7) && 1 !in s'.torrent.table.owners
            && 8 in s'.conns && 1 !in s'.conns[8].outstanding && 7 in s'.conns && 1 in s'.conns[7].outstanding
  {
    start := AskFirst();
    var s1 := After(start, AskedRun());
    Seeded(s1);
    RunsAppend(start, AskedRun(), [BatchStart(0, 1, 1, 2), BatchNext(0), BatchWritten(0, true)]);
    var s2 := After(start, SeededRun());
    Join(s2, 8);
    RunsAppend(start, SeededRun(), JoinRun(8));
    Stolen(start, After(start, SeededRun() + JoinRun(8)));
  }

  lemma Stolen(start: State, s: State)
    requires Runs(start, SeededRun() + JoinRun(8)) && s == After(start, SeededRun() + JoinRun(8))
    requires OneBlockPieces(s.torrent.layout) && |s.torrent.pieces| == 2 && s.torrent.pieces[1].Requestable()
    requires s.torrent.table == Table(map[1 := Request(7, 0)], map[]) && 1 in s.torrent.dirty
    requires 7 in s.conns && 1 in s.conns[7].outstanding && 8 in s.conns && s.conns[8] == Ready()
    ensures MayList(s, 8, [Entry(1, From(7))])
    ensures Runs(start, StealRun())
    ensures var s' := After(start, StealRun());
            && 1 !in s'.torrent.table.owners
            && 8 in s'.conns && 1 !in s'.conns[8].outstanding && 7 in s'.conns && 1 in s'.conns[7].outstanding
  {
    AskIsListed(s, 8, From(7));
    AskDoes(s.torrent, 8, From(7));
    OneStep(s, Ask(8, From(7)));
    RunsAppend(start, SeededRun() + JoinRun(8), [Ask(8, From(7))]);
  }
}
