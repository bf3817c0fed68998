/** What holds at the end of a run is what was said last: about every piece by the hasher or storage,
    and by every peer about itself. */
module LastWord {
  import opened Types
  import opened Geometry
  import opened BlockTables
  import opened Protocol
  import opened Swarm
  import opened Effects

  // ------------------------------------------------------------ the last word

  /** The last thing any of the events says, where `word` is what one of them says. */
  function Latest(events: seq<Event>, word: Event -> Option<bool>): Option<bool> {
    if events == [] then None
    else
      var last := word(events[|events| - 1]);
      if last.Some? then last else Latest(events[..|events| - 1], word)
  }

  lemma {:induction false} LatestAppend(a: seq<Event>, e: Event, b: seq<Event>, word: Event -> Option<bool>)
    requires a == [e] + b
    ensures Latest(a, word) == if Latest(b, word).Some? then Latest(b, word) else word(e)
    decreases |b|
  {
    if b == [] {
      assert a == [e] && [e][..0] == [];
    } else {
      var n := |b| - 1;
      assert a[..|a| - 1] == [e] + b[..n] && a[|a| - 1] == b[n];
      LatestAppend(a[..|a| - 1], e, b[..n], word);
    }
  }

  /** What the hasher or storage says about a piece. */
  function SaysComplete(piece: PieceIndex): Event -> Option<bool> {
    (e: Event) => match e
      case Hashed(p, valid) => if p == piece then Some(valid) else None
      case Refreshed(p, complete, ok, _) => if p == piece then Some(ok && complete) else None
      case _ => None
  }

  /** Complete after one event: as it says, or as before. */
  lemma CompleteStep(s: State, e: Event, piece: PieceIndex)
    requires Enabled(s, e) && piece < |s.torrent.pieces|
    ensures piece < |Apply(s, e).torrent.pieces|
    ensures var said := SaysComplete(piece)(e);
            Apply(s, e).torrent.pieces[piece].complete ==
            if said.Some? then said.value else s.torrent.pieces[piece].complete
  {
    SizesStep(s, e);
    var t := s.torrent;
    if e.Hashed? {
      HashedEffect(t, e.piece, e.valid);
    } else if e.Refreshed? {
      RefreshedEffect(t, e.piece, e.storedComplete, e.storedOk, e.readable);
    } else if e.OnWritten? {
      WrittenEffect(t, s.conns[e.peer], e.peer, e.ok, e.accepted);
    } else if IsPlain(e) {
      PlainStep(s, e);
    } else {
      CompleteStays(s, e, piece);
    }
  }

  lemma CompleteStays(s: State, e: Event, piece: PieceIndex)
    requires Enabled(s, e) && piece < |s.torrent.pieces| && piece < |Apply(s, e).torrent.pieces|
    requires !e.Hashed? && !e.Refreshed? && !e.OnWritten? && !IsPlain(e)
    ensures Apply(s, e).torrent.pieces[piece].complete == s.torrent.pieces[piece].complete
  {
  }

  /** In every run a piece is complete if and only if the last verdict or refresh of it said so, or
      there was none and it was complete from the start. */
  lemma {:induction false} CompleteExactly(s: State, events: seq<Event>, piece: PieceIndex)
    requires Runs(s, events) && piece < |s.torrent.pieces|
    ensures piece < |After(s, events).torrent.pieces|
    ensures var said := Latest(events, SaysComplete(piece));
            After(s, events).torrent.pieces[piece].complete ==
            if said.Some? then said.value else s.torrent.pieces[piece].complete
    decreases |events|
  {
    if events != [] {
      CompleteStep(s, events[0], piece);
      CompleteExactly(Apply(s, events[0]), events[1..], piece);
      LatestAppend(events, events[0], events[1..], SaysComplete(piece));
    }
  }

  // ------------------------------------------------------------ what a peer said

  /** A live peer has piece `i`. */
  predicate HasPiece(s: State, p: PeerKey, i: PieceIndex) {
    p in s.conns && (s.conns[p].haveAll || i in s.conns[p].pieces)
  }

  predicate Chokes(s: State, p: PeerKey) {
    p in s.conns && s.conns[p].choking
  }

  predicate Allows(s: State, p: PeerKey, i: PieceIndex) {
    p in s.conns && i in s.conns[p].allowedFast
  }

  function SaysHas(p: PeerKey, i: PieceIndex): Event -> Option<bool> {
    (e: Event) => match e
      case OnHave(q, j) => if q == p && j == i then Some(true) else None
      case OnBitfield(q, bits, _) => if q == p then Some(i in bits) else None
      case OnHaveAll(q) => if q == p then Some(true) else None
      case Attach(q, _) => if q == p then Some(false) else None
      case OnClosed(q) => if q == p then Some(false) else None
      case _ => None
  }

  function SaysChoked(p: PeerKey): Event -> Option<bool> {
    (e: Event) => match e
      case OnChoke(q, _) => if q == p then Some(true) else None
      case OnUnchoke(q) => if q == p then Some(false) else None
      case Attach(q, _) => if q == p then Some(true) else None
      case OnClosed(q) => if q == p then Some(false) else None
      case _ => None
  }

  function SaysAllowed(p: PeerKey, i: PieceIndex): Event -> Option<bool> {
    (e: Event) => match e
      case OnAllowedFast(q, j) => if q == p && j == i then Some(true) else None
      case Attach(q, _) => if q == p then Some(false) else None
      case OnClosed(q) => if q == p then Some(false) else None
      case _ => None
  }

  /** One event changes what a peer has said exactly as it says. */
  ghost predicate Heard(s: State, e: Event, s': State, p: PeerKey, i: PieceIndex) {
    && HasPiece(s', p, i) == (if SaysHas(p, i)(e).Some? then SaysHas(p, i)(e).value else HasPiece(s, p, i))
    && Chokes(s', p) == (if SaysChoked(p)(e).Some? then SaysChoked(p)(e).value else Chokes(s, p))
    && Allows(s', p, i) == (if SaysAllowed(p, i)(e).Some? then SaysAllowed(p, i)(e).value else Allows(s, p, i))
  }

  lemma SaidStep(s: State, e: Event, p: PeerKey, i: PieceIndex)
    requires Enabled(s, e) && i < |s.torrent.pieces|
    ensures Heard(s, e, Apply(s, e), p, i)
  {
    if e.OnRefill? {
      SaidRefill(s, e, p, i);
    } else if e.OnBitfield? {
      SaidBitfield(s, e, p, i);
    } else if e.OnChoke? {
      SaidChoke(s, e, p, i);
    } else {
      SaidPlainly(s, e, p, i);
    }
  }

  lemma RefillUnsaid(t: Torrent, c: Conn, me: PeerKey, refocus: bool, limit: nat, picks: seq<Attempt>, now: int, i: PieceIndex)
    requires i < |t.pieces|
    ensures var c' := Refill(t, c, me, refocus, limit, picks, now).1;
            && c'.haveAll == c.haveAll && c'.choking == c.choking && c'.allowedFast == c.allowedFast
            && (c'.haveAll || i in c'.pieces <==> c.haveAll || i in c.pieces)
  {
    RefillShape(t, c, me, refocus, limit, picks, now);
  }

  lemma SaidRefill(s: State, e: Event, p: PeerKey, i: PieceIndex)
    requires Enabled(s, e) && i < |s.torrent.pieces| && e.OnRefill?
    ensures Heard(s, e, Apply(s, e), p, i)
  {
    RefillUnsaid(s.torrent, s.conns[e.peer], e.peer, e.refocus, e.limit, e.picks, e.now, i);
    var s' := Apply(s, e);
    SaidNothing(s, e, s', s'.conns[e.peer], p, i);
  }

  lemma SaidNothing(s: State, e: Event, s': State, c': Conn, p: PeerKey, i: PieceIndex)
    requires e.OnRefill? && e.peer in s.conns && s'.conns == s.conns[e.peer := c']
    requires var c := s.conns[e.peer];
             && c'.haveAll == c.haveAll && c'.choking == c.choking && c'.allowedFast == c.allowedFast
             && (c'.haveAll || i in c'.pieces <==> c.haveAll || i in c.pieces)
    ensures Heard(s, e, s', p, i)
  {
  }

  lemma SaidBitfield(s: State, e: Event, p: PeerKey, i: PieceIndex)
    requires Enabled(s, e) && i < |s.torrent.pieces| && e.OnBitfield?
    ensures Heard(s, e, Apply(s, e), p, i)
  {
    BitfieldDrops(s.torrent, s.conns[e.peer], e.peer, e.bits, e.now);
  }

  lemma SaidChoke(s: State, e: Event, p: PeerKey, i: PieceIndex)
    requires Enabled(s, e) && e.OnChoke?
    ensures Heard(s, e, Apply(s, e), p, i)
  {
    ChokeDrops(s.torrent, s.conns[e.peer], e.peer, e.now);
  }

  lemma SaidPlainly(s: State, e: Event, p: PeerKey, i: PieceIndex)
    requires Enabled(s, e) && i < |s.torrent.pieces| && !e.OnRefill? && !e.OnBitfield? && !e.OnChoke?
    ensures Heard(s, e, Apply(s, e), p, i)
  {
    if e.OnHave? || e.OnHaveAll? || e.OnUnchoke? || e.OnAllowedFast? || e.Attach? || e.OnClosed? {
      SaidOutright(s, e, p, i);
    } else {
      Unsaid(s, e, p, i);
    }
  }

  lemma SaidOutright(s: State, e: Event, p: PeerKey, i: PieceIndex)
    requires Enabled(s, e) && i < |s.torrent.pieces|
    requires e.OnHave? || e.OnHaveAll? || e.OnUnchoke? || e.OnAllowedFast? || e.Attach? || e.OnClosed?
    ensures Heard(s, e, Apply(s, e), p, i)
  {
  }

  lemma Unsaid(s: State, e: Event, p: PeerKey, i: PieceIndex)
    requires Enabled(s, e) && !e.OnRefill? && !e.OnBitfield? && !e.OnChoke?
    requires !e.OnHave? && !e.OnHaveAll? && !e.OnUnchoke? && !e.OnAllowedFast? && !e.Attach? && !e.OnClosed?
    ensures Heard(s, e, Apply(s, e), p, i)
  {
  }

  ghost predicate Last(events: seq<Event>, word: Event -> Option<bool>, before: bool, after: bool) {
    after == if Latest(events, word).Some? then Latest(events, word).value else before
  }

  /** In every run a peer has a piece, chokes, and lets us fetch a piece while choking, if and only if
      its last word about it says so. */
  lemma {:induction false} SaidExactly(s: State, events: seq<Event>, p: PeerKey, i: PieceIndex)
    requires Runs(s, events) && i < |s.torrent.pieces|
    ensures Last(events, SaysHas(p, i), HasPiece(s, p, i), HasPiece(After(s, events), p, i))
    ensures Last(events, SaysChoked(p), Chokes(s, p), Chokes(After(s, events), p))
    ensures Last(events, SaysAllowed(p, i), Allows(s, p, i), Allows(After(s, events), p, i))
    decreases |events|
  {
    if events != [] {
      SizesStep(s, events[0]);
      SaidStep(s, events[0], p, i);
      SaidExactly(Apply(s, events[0]), events[1..], p, i);
      LatestAppend(events, events[0], events[1..], SaysHas(p, i));
      LatestAppend(events, events[0], events[1..], SaysChoked(p));
      LatestAppend(events, events[0], events[1..], SaysAllowed(p, i));
    }
  }
}
