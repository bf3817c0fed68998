/** The part of a file a player is about to need, cut to fit the piece cache. */
module PlaybackWindow {
  import opened Types
  import opened Geometry
  import opened KeyframeOrder

  /** A file inside its torrent. */
  datatype File = File(torrentOffset: int, length: int, pieceLength: int) {
    predicate Valid() {
      torrentOffset >= 0 && length > 0 && pieceLength > 0
    }

    function BeginPiece(): nat
      requires Valid()
    {
      torrentOffset / pieceLength
    }

    function EndPiece(): nat
      requires Valid()
    {
      CeilDiv(torrentOffset + length, pieceLength)
    }
  }

  /** The file's pieces are those from its first byte's to its last byte's. */
  lemma FilePieces(file: File)
    requires file.Valid()
    ensures file.BeginPiece() * file.pieceLength <= file.torrentOffset < (file.BeginPiece() + 1) * file.pieceLength
    ensures var last := file.torrentOffset + file.length - 1;
            (file.EndPiece() - 1) * file.pieceLength <= last < file.EndPiece() * file.pieceLength
  {
    Floor(file.torrentOffset, file.pieceLength);
    Floor(file.torrentOffset + file.length + file.pieceLength - 1, file.pieceLength);
  }

  datatype PieceSpan = PieceSpan(begin: nat, end: nat)

  datatype Spans = Spans(urgent: PieceSpan, readahead: PieceSpan, lookahead: PieceSpan) {
    /** Pieces the window asks for. */
    function Pieces(): int {
      lookahead.end - urgent.begin
    }

    /** Adjacent, in order, from `play`, inside `begin..end`, the first one not empty. */
    predicate Tiles(play: nat, begin: nat, end: nat) {
      && begin <= play == urgent.begin < urgent.end == readahead.begin
      && readahead.begin <= readahead.end == lookahead.begin <= lookahead.end <= end
    }
  }

  /** The window is as large as it may be and no larger than it must: it stops short of the reach only
      at the allowance or the end of the file, its urgent part only at the end of the window, and
      neither has a piece it does not need. A window that looks further ahead uses the whole
      allowance: a quarter to look ahead, and a quarter of the rest is urgent. */
  predicate Serves(s: Spans, reach: Reach, allowance: nat, pieceLength: int, end: nat) {
    if reach.further && allowance >= 3 then
      s.urgent.begin + allowance <= end ==>
        var ahead := s.lookahead.end - s.lookahead.begin;
        && s.Pieces() == allowance && ahead == Max(allowance / 4, 1)
        && s.urgent.end - s.urgent.begin == Min(Max((allowance - ahead) / 4, 1), allowance - ahead - 1)
    else
      && s.Pieces() <= Max(allowance, 1) && Needed(s.Pieces(), pieceLength, reach.forward)
      && Needed(s.urgent.end - s.urgent.begin, pieceLength, reach.urgent)
      && s.lookahead.begin == s.lookahead.end
      && (s.lookahead.end == end || s.Pieces() >= allowance || s.Pieces() * pieceLength >= reach.forward)
      && (s.urgent.end == s.lookahead.end || (s.urgent.end - s.urgent.begin) * pieceLength >= reach.urgent)
  }

  /** Without the last of `n` pieces some of `bytes` would be missing; one piece is always asked for. */
  predicate Needed(n: int, pieceLength: int, bytes: int) {
    n <= 1 || (n - 1) * pieceLength < bytes
  }

  /** How far the session wants to read: bytes of the whole window and of its urgent part, and
      whether the window is of the kind that looks further ahead. */
  datatype Reach = Reach(forward: int, urgent: int, further: bool)

  function ClampOffset(offset: int, length: int): (r: int)
    requires length > 0
    ensures 0 <= r < length && (0 <= offset < length ==> r == offset)
  {
    if offset < 0 then 0 else if offset >= length then length - 1 else offset
  }

  /** Pieces one reader may ask for. */
  function Allowance(budget: int, readers: int, pieceLength: int): (n: nat)
    requires 0 < pieceLength <= budget && readers > 0
    ensures n <= Max(budget / pieceLength / readers, 1)
  {
    var least := Max(budget / 20, pieceLength);
    var reserve := if least >= budget then 0 else least;
    Min(As32(Max(Share(budget - reserve, readers, pieceLength), 1)),
        As32(Max(Share(budget, pieceLength, readers), 1)))
  }

  /** What one reader may ask for, in bytes: at least one piece, and else the most pieces such that as
      many for every reader leave a twentieth of the budget, or a piece, unless that is all there is. */
  lemma AllowanceMeans(budget: int, readers: int, pieceLength: int)
    requires 0 < pieceLength <= budget && readers > 0 && budget / pieceLength < INDEX_LIMIT
    ensures var n := Allowance(budget, readers, pieceLength);
            var least := Max(budget / 20, pieceLength);
            var spend := if least < budget then budget - least else budget;
            n >= 1 && (n > 1 ==> n * (readers * pieceLength) <= spend) && spend < (n + 1) * (readers * pieceLength)
  {
    var least := Max(budget / 20, pieceLength);
    var spend := if least < budget then budget - least else budget;
    TwoDivisions(spend, readers, pieceLength);
    TwoDivisions(budget, pieceLength, readers);
    var each := readers * pieceLength;
    var q, most := spend / readers / pieceLength, budget / pieceLength / readers;
    AtLeastProduct(q, spend, budget, each, most);
    Floor(budget / pieceLength, readers);
    MulMonotone(1, readers, most);
  }

  lemma TwoDivisions(x: int, a: int, b: int)
    requires x > 0 && a > 0 && b > 0
    ensures var q := x / a / b; 0 <= q && q * (a * b) <= x < (q + 1) * (a * b)
  {
    var y := x / a;
    var q := y / b;
    Floor(x, a);
    Floor(y, b);
    ShareBounds(x, a, b);
    MulMonotone(q * b, y, a);
    MulMonotone(y + 1, (q + 1) * b, a);
    assert q * b * a == q * (a * b) && (q + 1) * b * a == (q + 1) * (a * b);
  }

  lemma AtLeastProduct(q: int, spend: int, budget: int, each: int, most: int)
    requires each > 0 && q * each <= spend <= budget && budget < (most + 1) * each
    ensures q <= most
  {
    if q > most {
      MulMonotone(most + 1, q, each);
    }
  }

  /** Two divisions in turn. */
  function Share(a: int, b: int, c: int): (r: int)
    requires a > 0 && b > 0 && c > 0
    ensures r == a / b / c >= 0
  {
    ShareBounds(a, b, c);
    a / b / c
  }

  lemma ShareBounds(a: int, b: int, c: int)
    requires a > 0 && b > 0 && c > 0
    ensures a / b >= 0 && a / b / c >= 0
  {
  }

  /** Enough pieces for `bytes`, counted in 32 bits. */
  lemma PiecesFor(bytes: int, pieceLength: int)
    requires pieceLength > 0
    ensures CeilDiv(bytes, pieceLength) * pieceLength >= bytes
    ensures (CeilDiv(bytes, pieceLength) - 1) * pieceLength < bytes
    ensures 0 <= bytes < INDEX_LIMIT ==> As32(CeilDiv(bytes, pieceLength)) == CeilDiv(bytes, pieceLength)
  {
    Floor(bytes + pieceLength - 1, pieceLength);
    if 0 <= bytes < INDEX_LIMIT {
      AtLeast(0, bytes + pieceLength - 1, pieceLength);
      if CeilDiv(bytes, pieceLength) >= INDEX_LIMIT {
        MulMonotone(INDEX_LIMIT, CeilDiv(bytes, pieceLength), pieceLength);
      }
    }
  }

  /** Pieces for `bytes`, or fewer, are all needed. */
  lemma NeededUpTo(n: int, bytes: int, pieceLength: int)
    requires pieceLength > 0 && n <= CeilDiv(bytes, pieceLength)
    ensures Needed(n, pieceLength, bytes)
  {
    PiecesFor(bytes, pieceLength);
    MulMonotone(n - 1, CeilDiv(bytes, pieceLength) - 1, pieceLength);
  }

  lemma NeededFor(forward: int, urgent: int, allowance: nat, pieceLength: int)
    requires pieceLength > 0
    ensures forward < INDEX_LIMIT && pieceLength < INDEX_LIMIT ==>
              forall n :: n <= Max(As32(CeilDiv(Max(forward, pieceLength), pieceLength)), 1) ==> Needed(n, pieceLength, forward)
    ensures 0 <= urgent < INDEX_LIMIT ==>
              forall n :: n <= Max(As32(CeilDiv(urgent, pieceLength)), 1) ==> Needed(n, pieceLength, urgent)
  {
    PiecesFor(Max(forward, pieceLength), pieceLength);
    PiecesFor(urgent, pieceLength);
    if forward < INDEX_LIMIT && pieceLength < INDEX_LIMIT {
      forall n | n <= Max(As32(CeilDiv(Max(forward, pieceLength), pieceLength)), 1)
        ensures Needed(n, pieceLength, forward)
      {
        OnePieceFor(pieceLength);
        if n > 1 {
          NeededUpTo(n, Max(forward, pieceLength), pieceLength);
        }
      }
    }
    if 0 <= urgent < INDEX_LIMIT {
      forall n | n <= Max(As32(CeilDiv(urgent, pieceLength)), 1)
        ensures Needed(n, pieceLength, urgent)
      {
        if n > 1 {
          NeededUpTo(n, urgent, pieceLength);
        }
      }
    }
  }

  lemma OnePieceFor(pieceLength: int)
    requires pieceLength > 0
    ensures CeilDiv(pieceLength, pieceLength) == 1
  {
    DivModUnique(1, pieceLength, pieceLength - 1);
  }

  /** Window, forward and urgent pieces. */
  function Parts(reach: Reach, allowance: nat, pieceLength: int): (r: (nat, nat, nat))
    requires pieceLength > 0
    ensures 1 <= r.2 <= r.1 <= r.0 <= Max(allowance, 1)
    ensures reach.further && allowance >= 3 ==>
              r.2 < r.1 < r.0 == allowance && r.0 - r.1 == Max(allowance / 4, 1) && r.2 == Min(Max(r.1 / 4, 1), r.1 - 1)
    ensures !(reach.further && allowance >= 3) && reach.forward < INDEX_LIMIT && pieceLength < INDEX_LIMIT ==>
              r.0 == r.1 && (r.0 >= allowance || r.0 * pieceLength >= reach.forward) && Needed(r.0, pieceLength, reach.forward)
    ensures !(reach.further && allowance >= 3) && 0 <= reach.urgent < INDEX_LIMIT ==>
              (r.2 == r.1 || r.2 * pieceLength >= reach.urgent) && Needed(r.2, pieceLength, reach.urgent)
  {
    PiecesFor(Max(reach.forward, pieceLength), pieceLength);
    PiecesFor(reach.urgent, pieceLength);
    NeededFor(reach.forward, reach.urgent, allowance, pieceLength);
    if reach.further && allowance >= 3 then
      var ahead := Max(allowance / 4, 1);
      var forward := allowance - ahead;
      (allowance, forward, Min(Max(forward / 4, 1), forward - 1))
    else
      var wanted := As32(CeilDiv(Max(reach.forward, pieceLength), pieceLength));
      var forward := Max(Min(wanted, allowance), 1);
      (forward, forward, Max(Min(As32(CeilDiv(reach.urgent, pieceLength)), forward), 1))
  }

  /** Three spans of these lengths from `play`, cut at the end of the file. */
  function Cut(play: nat, fileEnd: nat, parts: (nat, nat, nat)): (s: Spans)
    requires play < fileEnd && 1 <= parts.2 <= parts.1 <= parts.0
    ensures s.Tiles(play, play, fileEnd) && 1 <= s.Pieces() <= parts.0
  {
    var end := Min(play + parts.0, fileEnd);
    var urgent := PieceSpan(play, Min(play + parts.2, end));
    var readahead := PieceSpan(urgent.end, Min(play + parts.1, end));
    Spans(urgent, readahead, PieceSpan(readahead.end, end))
  }

  lemma NeededLess(n: int, m: int, pieceLength: int, bytes: int)
    requires pieceLength > 0 && n <= m && Needed(m, pieceLength, bytes)
    ensures Needed(n, pieceLength, bytes)
  {
    MulMonotone(n - 1, m - 1, pieceLength);
  }

  lemma CutServes(reach: Reach, allowance: nat, pieceLength: int, play: nat, fileEnd: nat)
    requires 0 < pieceLength < INDEX_LIMIT && play < fileEnd && reach.forward < INDEX_LIMIT && 0 <= reach.urgent < INDEX_LIMIT
    ensures Serves(Cut(play, fileEnd, Parts(reach, allowance, pieceLength)), reach, allowance, pieceLength, fileEnd)
  {
    var parts := Parts(reach, allowance, pieceLength);
    var s := Cut(play, fileEnd, parts);
    if !(reach.further && allowance >= 3) {
      NeededLess(s.Pieces(), parts.0, pieceLength, reach.forward);
      NeededLess(s.urgent.end - s.urgent.begin, parts.2, pieceLength, reach.urgent);
    }
  }

  /** What the keyframes leave of the cache. */
  function Left(file: File, cache: int, keyframes: nat): int {
    cache - keyframes * file.pieceLength
  }

  /** `pieces` for each reader and the keyframes fit in the cache. */
  predicate InCache(pieces: int, readers: int, keyframes: nat, file: File, cache: int) {
    (pieces * readers + keyframes) * file.pieceLength <= cache
  }

  /** The spans of a session that has left its opening phase, with `cache` bytes of piece cache of
      which `keyframes` pieces are taken. Nothing when not even a piece is left. */
  method BudgetWindow(file: File, at: int, reach: Reach, cache: int, keyframes: nat, readers: int)
    returns (r: Option<Spans>)
    requires file.Valid() && readers > 0 && reach.urgent >= 0
    ensures r.Some? <==> Left(file, cache, keyframes) >= file.pieceLength
    ensures r.Some? ==>
              var play := (file.torrentOffset + ClampOffset(at, file.length)) / file.pieceLength;
              r.value.Tiles(play, file.BeginPiece(), file.EndPiece())
    ensures r.Some? && reach.forward < INDEX_LIMIT && reach.urgent < INDEX_LIMIT && file.pieceLength < INDEX_LIMIT ==>
              Serves(r.value, reach, Allowance(Left(file, cache, keyframes), readers, file.pieceLength),
                     file.pieceLength, file.EndPiece())
    ensures r.Some? ==> (InCache(r.value.Pieces(), readers, keyframes, file, cache) <==> InCache(1, readers, keyframes, file, cache))
  {
    var plen := file.pieceLength;
    var offset := ClampOffset(at, file.length);
    var budget := Left(file, cache, keyframes);
    if budget < plen {
      return None;
    }
    var allowance := Allowance(budget, readers, plen);
    PlayInFile(file, offset);
    var play: nat := (file.torrentOffset + offset) / plen;
    r := Some(Cut(play, file.EndPiece(), Parts(reach, allowance, plen)));
    if reach.forward < INDEX_LIMIT && reach.urgent < INDEX_LIMIT && plen < INDEX_LIMIT {
      CutServes(reach, allowance, plen, play, file.EndPiece());
    }
    FitsExactly(r.value.Pieces(), budget, readers, plen);
    Sums(r.value.Pieces(), readers, keyframes, plen);
    Sums(1, readers, keyframes, plen);
  }

  /** The player's piece belongs to the file. */
  lemma PlayInFile(file: File, offset: int)
    requires file.Valid() && 0 <= offset < file.length
    ensures file.BeginPiece() <= (file.torrentOffset + offset) / file.pieceLength < file.EndPiece()
  {
    var d, x := file.pieceLength, file.torrentOffset + offset;
    Floor(file.torrentOffset, d);
    AtLeast(file.torrentOffset / d, x, d);
    Floor(x, d);
    MulMonotone(x / d, 0, d);
    AtLeast(x / d + 1, file.torrentOffset + file.length + d - 1, d);
  }

  lemma Floor(x: int, d: int)
    requires d > 0
    ensures x / d * d <= x < x / d * d + d
  {
  }

  lemma AtLeast(q: int, x: int, d: int)
    requires d > 0 && q * d <= x
    ensures q <= x / d
  {
    Floor(x, d);
    if x / d < q {
      MulMonotone(x / d + 1, q, d);
    }
  }

  lemma Sums(pieces: int, readers: int, keyframes: int, plen: int)
    ensures (pieces * readers + keyframes) * plen == pieces * readers * plen + keyframes * plen
  {
  }

  /** A window within the allowance fits exactly when a piece per reader does. */
  lemma FitsExactly(pieces: int, budget: int, readers: int, plen: int)
    requires 0 < plen <= budget && readers > 0 && 1 <= pieces <= Max(budget / plen / readers, 1)
    ensures pieces * readers * plen <= budget <==> readers * plen <= budget
  {
    if readers * plen <= budget {
      Nested(budget, plen, readers);
      MulMonotone(pieces, budget / plen / readers, readers);
      MulMonotone(pieces * readers, budget / plen, plen);
    } else {
      MulMonotone(1, pieces, readers);
      MulMonotone(readers, pieces * readers, plen);
    }
  }

  lemma Nested(budget: int, plen: int, readers: int)
    requires 0 < plen && readers > 0 && readers * plen <= budget
    ensures budget / plen / readers >= 1
    ensures budget / plen / readers * readers <= budget / plen && budget / plen * plen <= budget
  {
    AtLeast(readers, budget, plen);
    AtLeast(1, budget / plen, readers);
    Floor(budget, plen);
    Floor(budget / plen, readers);
  }

  /** Keyframes are given at most a quarter of the cache, so they leave the window the rest. */
  lemma KeyframesLeaveRoom(cache: int, keyframes: nat, readers: int, plen: int)
    requires cache >= 0 && plen > 0 && readers > 0
    requires keyframes * plen <= cache / 4 && 4 * (readers * plen) <= 3 * cache
    ensures (readers + keyframes) * plen <= cache
  {
    Sums(1, readers, keyframes, plen);
  }
}
