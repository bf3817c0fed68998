/** Which keyframes to fetch ahead of a seek, and in what order. */
module KeyframeOrder {
  import opened Types
  import opened Geometry

  const KEYFRAME_FETCH_BYTES := 512 * 1024

  function Pow2(n: nat): (p: nat)
    ensures p >= 1
  {
    if n == 0 then 1 else 2 * Pow2(n - 1)
  }

  /** The low `bits` bits of `i` in reverse. */
  function Reverse(i: nat, bits: nat): (r: nat)
    ensures r < Pow2(bits)
  {
    if bits == 0 then 0 else (i % 2) * Pow2(bits - 1) + Reverse(i / 2, bits - 1)
  }

  lemma {:induction false} PowSplit(a: nat, b: nat)
    ensures Pow2(a + b) == Pow2(a) * Pow2(b)
  {
    if a > 0 {
      PowSplit(a - 1, b);
      assert a + b - 1 == (a - 1) + b;
    }
  }

  lemma Scale(a: nat, p: nat, q: nat, r: nat)
    ensures a * (p * q) + r * q == (a * p + r) * q
  {
  }

  /** Zero bits above the low `k` only scale the reversal. */
  lemma {:induction false} ReverseScales(i: nat, k: nat, bits: nat)
    requires i < Pow2(k) && k <= bits
    ensures Reverse(i, bits) == Reverse(i, k) * Pow2(bits - k)
    decreases bits
  {
    if k == 0 {
      ReverseZero(bits);
    } else {
      ReverseScales(i / 2, k - 1, bits - 1);
      var low, rest := Pow2(k - 1), Pow2(bits - k);
      assert Pow2(bits - 1) == low * rest by {
        PowSplit(k - 1, bits - k);
        assert (k - 1) + (bits - k) == bits - 1;
      }
      Scale(i % 2, low, rest, Reverse(i / 2, k - 1));
    }
  }

  lemma {:induction false} ReverseZero(bits: nat)
    ensures Reverse(0, bits) == 0
  {
    if bits > 0 {
      ReverseZero(bits - 1);
    }
  }

  /** The top bit becomes the lowest one. */
  lemma {:induction false} ReverseTop(hi: nat, y: nat, bits: nat)
    requires hi < 2 && y < Pow2(bits)
    ensures Reverse(hi * Pow2(bits) + y, bits + 1) == 2 * Reverse(y, bits) + hi
  {
    var x := hi * Pow2(bits) + y;
    if bits == 0 {
      assert x == hi && Reverse(x, 1) == (x % 2) * Pow2(0) + Reverse(x / 2, 0);
    } else {
      var p := Pow2(bits - 1);
      Double(hi, p);
      Half(hi * p, y);
      assert x % 2 == y % 2 && x / 2 == hi * p + y / 2;
      ReverseTop(hi, y / 2, bits - 1);
      Double(y % 2, p);
      calc {
        Reverse(x, bits + 1);
        (y % 2) * Pow2(bits) + Reverse(hi * p + y / 2, bits);
        2 * ((y % 2) * p) + 2 * Reverse(y / 2, bits - 1) + hi;
        2 * Reverse(y, bits) + hi;
      }
    }
  }

  lemma Half(a: nat, y: nat)
    ensures (2 * a + y) % 2 == y % 2 && (2 * a + y) / 2 == a + y / 2
  {
  }

  lemma Double(a: nat, p: nat)
    ensures a * (2 * p) == 2 * (a * p)
  {
  }

  /** Reversing twice gives the number back. */
  lemma {:induction false} ReverseTwice(i: nat, bits: nat)
    requires i < Pow2(bits)
    ensures Reverse(Reverse(i, bits), bits) == i
  {
    if bits > 0 {
      ReverseTwice(i / 2, bits - 1);
      ReverseTop(i % 2, Reverse(i / 2, bits - 1), bits - 1);
    }
  }

  function ShiftDown(x: nat, count: nat): nat {
    Quotient(x, Pow2(count))
  }

  function Quotient(x: nat, d: nat): nat
    requires d > 0
  {
    x / d
  }

  /** Reversing a whole word and shifting it down is reversing the low bits. */
  lemma ShiftedReverse(i: nat, bits: nat, word: nat)
    requires i < Pow2(bits) && bits <= word
    ensures ShiftDown(Reverse(i, word), word - bits) == Reverse(i, bits)
  {
    ReverseScales(i, bits, word);
    DivModUnique(Reverse(i, bits), Pow2(word - bits), 0);
  }

  /** Bits of the next power of two. */
  function BitsFor(n: nat, b: nat): (bits: nat)
    ensures bits >= b && n <= Pow2(bits) && (bits > b ==> Pow2(bits - 1) < n)
    decreases Max(n - Pow2(b), 0)
  {
    if Pow2(b) >= n then b else BitsFor(n, b + 1)
  }

  /** The first `m` values of the order, those below `n` kept, on words of `word` bits. */
  function Coarse(n: nat, bits: nat, word: nat, m: nat): seq<nat>
    requires bits <= word
  {
    if m == 0 then []
    else
      var v := if bits == 0 then 0 else ShiftDown(Reverse(m - 1, word), word - bits);
      Coarse(n, bits, word, m - 1) + if v < n then [v] else []
  }

  lemma FitsWord(n: nat, word: nat)
    requires n <= Pow2(word)
    ensures BitsFor(n, 0) <= word
  {
    var bits := BitsFor(n, 0);
    if bits > word {
      PowGrows(word, bits - 1);
    }
  }

  /** All indexes below `n` in bit-reversed order. */
  function CoarseToFine(n: nat, word: nat): seq<nat>
    requires n <= Pow2(word)
  {
    FitsWord(n, word);
    var bits := BitsFor(n, 0);
    Coarse(n, bits, word, Pow2(bits))
  }

  ghost predicate Distinct(s: seq<nat>) {
    forall a, b :: 0 <= a < b < |s| ==> s[a] != s[b]
  }

  lemma CoarseStep(n: nat, bits: nat, word: nat, m: nat)
    requires 0 < m <= Pow2(bits) && bits <= word
    ensures Coarse(n, bits, word, m) ==
            Coarse(n, bits, word, m - 1) + if Reverse(m - 1, bits) < n then [Reverse(m - 1, bits)] else []
  {
    ShiftedReverse(m - 1, bits, word);
  }

  /** Only one index reverses to `v`. */
  lemma ReverseUnique(j: nat, m: nat, bits: nat)
    requires j < Pow2(bits) && m < Pow2(bits)
    ensures Reverse(j, bits) == m <==> j == Reverse(m, bits)
  {
    ReverseTwice(j, bits);
    ReverseTwice(m, bits);
  }

  /** `s` lists the indexes below `n` whose rank is below `m`, each once. */
  ghost predicate Ranked(s: seq<nat>, n: nat, rank: nat -> nat, m: nat) {
    Distinct(s) && forall j: nat :: j in s <==> j < n && rank(j) < m
  }

  lemma RankNext(s: seq<nat>, n: nat, rank: nat -> nat, m: nat, v: nat)
    requires Ranked(s, n, rank, m) && forall j: nat :: j < n ==> (rank(j) == m <==> j == v)
    ensures Ranked(s + if v < n then [v] else [], n, rank, m + 1)
  {
    if v < n {
      assert rank(v) == m;
      assert v !in s;
      assert forall j: nat :: j in s + [v] <==> j in s || j == v;
    } else {
      assert s + [] == s;
    }
    assert forall j: nat :: j < n && rank(j) < m + 1 <==> j < n && (rank(j) < m || j == v);
  }

  function Rank(bits: nat): nat -> nat {
    j => Reverse(j, bits)
  }

  /** A prefix holds exactly the indexes whose reversal is below its length, each once. */
  lemma {:induction false} CoarseHolds(n: nat, bits: nat, word: nat, m: nat)
    requires m <= Pow2(bits) && n <= Pow2(bits) && bits <= word
    ensures Ranked(Coarse(n, bits, word, m), n, Rank(bits), m)
    decreases m
  {
    if m > 0 {
      CoarseHolds(n, bits, word, m - 1);
      CoarseStep(n, bits, word, m);
      forall j: nat | j < n
        ensures Rank(bits)(j) == m - 1 <==> j == Reverse(m - 1, bits)
      {
        ReverseUnique(j, m - 1, bits);
      }
      RankNext(Coarse(n, bits, word, m - 1), n, Rank(bits), m - 1, Reverse(m - 1, bits));
    }
  }

  /** Every index below `n` appears exactly once. */
  lemma EachIndexOnce(n: nat, word: nat)
    requires n <= Pow2(word)
    ensures forall j: nat :: j in CoarseToFine(n, word) <==> j < n
    ensures Distinct(CoarseToFine(n, word))
  {
    FitsWord(n, word);
    CoarseHolds(n, BitsFor(n, 0), word, Pow2(BitsFor(n, 0)));
  }

  lemma {:induction false} PowGrows(a: nat, b: nat)
    requires a <= b
    ensures Pow2(a) <= Pow2(b)
  {
    if a < b {
      PowGrows(a, b - 1);
    }
  }

  /** Before the cut at `n`, the first 2^k values are exactly the multiples of 2^(bits - k). */
  lemma PrefixIsEven(bits: nat, k: nat, v: nat)
    requires k <= bits
    ensures (exists i: nat :: i < Pow2(k) && Reverse(i, bits) == v) <==> v < Pow2(bits) && v % Pow2(bits - k) == 0
  {
    if i: nat :| i < Pow2(k) && Reverse(i, bits) == v {
      ReverseScales(i, k, bits);
      DivModUnique(Reverse(i, k), Pow2(bits - k), 0);
    }
    if v < Pow2(bits) && v % Pow2(bits - k) == 0 {
      var i := EvenValue(bits, k, v);
    }
  }

  /** Where a multiple of 2^(bits - k) stands among the first 2^k values. */
  lemma EvenValue(bits: nat, k: nat, v: nat) returns (i: nat)
    requires k <= bits && v < Pow2(bits) && v % Pow2(bits - k) == 0
    ensures i < Pow2(k) && Reverse(i, bits) == v
  {
    var j := Quotient(v, Pow2(bits - k));
    PowSplit(k, bits - k);
    SmallQuotient(v, Pow2(k), Pow2(bits - k));
    ReverseTwice(j, k);
    i := Reverse(j, k);
    ReverseScales(i, k, bits);
  }

  lemma SmallQuotient(v: nat, a: nat, gap: nat)
    requires gap > 0 && v < a * gap && v % gap == 0
    ensures Quotient(v, gap) < a && Quotient(v, gap) * gap == v
  {
    MulMonotone(a, v / gap, gap);
  }

  /** The order goes by reversed bits. */
  lemma {:induction false} CoarseRises(n: nat, bits: nat, word: nat, m: nat)
    requires m <= Pow2(bits) && n <= Pow2(bits) && bits <= word
    ensures var s := Coarse(n, bits, word, m);
            forall a, b :: 0 <= a < b < |s| ==> Reverse(s[a], bits) < Reverse(s[b], bits)
    decreases m
  {
    if m > 0 {
      CoarseRises(n, bits, word, m - 1);
      CoarseStep(n, bits, word, m);
      CoarseHolds(n, bits, word, m - 1);
      ReverseTwice(m - 1, bits);
      var front := Coarse(n, bits, word, m - 1);
      forall a | 0 <= a < |front|
        ensures Reverse(front[a], bits) < m - 1
      {
        assert front[a] in front && Rank(bits)(front[a]) < m - 1;
      }
    }
  }

  lemma OrderBounded(n: nat, word: nat, a: nat)
    requires n <= Pow2(word) && a < |CoarseToFine(n, word)|
    ensures CoarseToFine(n, word)[a] < Pow2(BitsFor(n, 0))
  {
    EachIndexOnce(n, word);
    assert CoarseToFine(n, word)[a] in CoarseToFine(n, word);
  }

  lemma OrderRises(n: nat, word: nat, order: seq<nat>, a: nat, b: nat)
    requires n <= Pow2(word) && order == CoarseToFine(n, word) && a < b < |order|
    ensures Reverse(order[a], BitsFor(n, 0)) < Reverse(order[b], BitsFor(n, 0))
  {
    var bits := BitsFor(n, 0);
    FitsWord(n, word);
    RisesAt(n, bits, word, order, a, b);
  }

  lemma RisesAt(n: nat, bits: nat, word: nat, s: seq<nat>, a: nat, b: nat)
    requires n <= Pow2(bits) && bits <= word && s == Coarse(n, bits, word, Pow2(bits)) && a < b < |s|
    ensures Reverse(s[a], bits) < Reverse(s[b], bits)
  {
    CoarseRises(n, bits, word, Pow2(bits));
  }

  /** At every step width the coarse indexes come before the fine ones: no multiple of 2^(bits - k)
      stands behind an index that is none. */
  lemma CoarserFirst(n: nat, word: nat, k: nat, a: nat, b: nat)
    requires n <= Pow2(word) && k <= BitsFor(n, 0) && a < b < |CoarseToFine(n, word)|
    ensures var order := CoarseToFine(n, word);
            Multiple(order[b], Pow2(BitsFor(n, 0) - k)) ==> Multiple(order[a], Pow2(BitsFor(n, 0) - k))
  {
    OrderRises(n, word, CoarseToFine(n, word), a, b);
    OrderBounded(n, word, a);
    OrderBounded(n, word, b);
    EvenRank(BitsFor(n, 0), k, CoarseToFine(n, word)[b]);
    EvenRank(BitsFor(n, 0), k, CoarseToFine(n, word)[a]);
  }

  predicate Multiple(v: nat, gap: nat)
    requires gap > 0
  {
    v % gap == 0
  }

  /** The multiples of 2^(bits - k) are those that reverse below 2^k. */
  lemma EvenRank(bits: nat, k: nat, v: nat)
    requires k <= bits && v < Pow2(bits)
    ensures Multiple(v, Pow2(bits - k)) <==> Reverse(v, bits) < Pow2(k)
  {
    if v % Pow2(bits - k) == 0 {
      var i := EvenValue(bits, k, v);
      PowGrows(k, bits);
      ReverseTwice(i, bits);
    }
    if Reverse(v, bits) < Pow2(k) {
      ReverseTwice(v, bits);
      PrefixIsEven(bits, k, v);
    }
  }

  // ------------------------------------------------------------ pieces

  /** Integer division rounding toward zero. */
  function TruncDiv(a: int, b: int): int
    requires b > 0
  {
    if a >= 0 then a / b else -((-a) / b)
  }

  /** The conversion to an unsigned word keeps the low bits. */
  function AsWord(x: int, word: nat): (r: nat)
    ensures r < Pow2(word)
    ensures 0 <= x ==> r <= x
    ensures x == 0 ==> r == 0
  {
    WordBounds(x, Pow2(word));
    x % Pow2(word)
  }

  lemma WordBounds(x: int, limit: nat)
    requires limit > 0
    ensures 0 <= x % limit < limit && (0 <= x ==> x % limit <= x) && (x == 0 ==> x % limit == 0)
  {
    if 0 <= x {
      MulMonotone(0, x / limit, limit);
      assert x == x / limit * limit + x % limit;
    }
  }

  /** What the choice of pieces depends on. `begin` and `end` bound the file's pieces. */
  datatype Request = Request(offsets: seq<int>, torrentOffset: int, pieceLength: int, begin: nat, end: nat, word: nat) {

    /** Torrent offset of the keyframe chosen for `point` out of `points`. */
    function Start(point: nat, points: nat): int
      requires point < points && points <= |offsets|
    {
      PointIndex(point, points, |offsets|);
      torrentOffset + offsets[point * |offsets| / points]
    }

    /** The first and last piece of the bytes fetched at a keyframe. */
    function First(start: int): int
      requires pieceLength > 0
    {
      TruncDiv(start, pieceLength)
    }

    function Last(start: int): int
      requires pieceLength > 0
    {
      TruncDiv(start + KEYFRAME_FETCH_BYTES - 1, pieceLength)
    }

    /** Piece `p` belongs to the file and holds bytes fetched at `start`. */
    ghost predicate Fetches(start: int, p: nat)
      requires pieceLength > 0
    {
      begin <= p < end && exists q: int :: First(start) <= q <= Last(start) && As32(q) == p
    }
  }

  function As32(q: int): (p: nat)
    ensures p < INDEX_LIMIT && (0 <= q < INDEX_LIMIT ==> p == q)
  {
    q % INDEX_LIMIT
  }

  lemma PointIndex(point: nat, points: nat, len: nat)
    requires point < points <= len
    ensures 0 <= point * len / points < len
  {
    MulMonotone(point + 1, points, len);
    assert (point + 1) * len == point * len + len;
    assert point * len < len * points;
    QuotientBelow(point * len, points, len);
  }

  lemma QuotientBelow(x: nat, d: nat, bound: nat)
    requires d > 0 && x < bound * d
    ensures x / d < bound
  {
    MulMonotone(bound, x / d, d);
  }

  /** The keyframe for `point` is the one `point` out of `points` parts into the list. */
  lemma EvenlyChosen(r: Request, point: nat, points: nat) returns (i: nat)
    requires point < points <= |r.offsets|
    ensures i < |r.offsets| && r.Start(point, points) == r.torrentOffset + r.offsets[i]
    ensures i * points <= point * |r.offsets| < (i + 1) * points
  {
    PointIndex(point, points, |r.offsets|);
    i := point * |r.offsets| / points;
    QuotientBetween(point * |r.offsets|, points);
  }

  lemma QuotientBetween(x: nat, d: nat)
    requires d > 0
    ensures x / d * d <= x < (x / d + 1) * d
  {
    assert x == x / d * d + x % d;
  }

  /** A piece of the file is fetched exactly when it shares a byte with the fetch. */
  lemma FetchesMeans(r: Request, start: int, p: nat)
    requires r.pieceLength > 0 && 0 <= start && start + KEYFRAME_FETCH_BYTES <= INDEX_LIMIT
    ensures r.Fetches(start, p) <==>
            r.begin <= p < r.end && p * r.pieceLength < start + 512 * 1024 && start < (p + 1) * r.pieceLength
  {
    var d, last := r.pieceLength, start + KEYFRAME_FETCH_BYTES - 1;
    Divided(start, d, p);
    Divided(last, d, p);
    SmallDivided(start, d);
    SmallDivided(last, d);
    if r.Fetches(start, p) {
      var q: int :| r.First(start) <= q <= r.Last(start) && As32(q) == p;
    }
    if r.First(start) <= p <= r.Last(start) {
      assert As32(p) == p;
    }
  }

  lemma Divided(x: int, d: int, p: nat)
    requires x >= 0 && d > 0
    ensures (TruncDiv(x, d) <= p <==> x < (p + 1) * d) && (p <= TruncDiv(x, d) <==> p * d <= x)
  {
    QuotientBetween(x, d);
    if x / d <= p {
      MulMonotone(x / d + 1, p + 1, d);
    } else {
      MulMonotone(p + 1, x / d, d);
    }
    if p <= x / d {
      MulMonotone(p, x / d, d);
    } else {
      MulMonotone(x / d + 1, p, d);
    }
  }

  lemma SmallDivided(x: int, d: int)
    requires 0 <= x < INDEX_LIMIT && d > 0
    ensures 0 <= TruncDiv(x, d) < INDEX_LIMIT
  {
    QuotientBetween(x, d);
    MulMonotone(1, d, x / d);
  }

  /** Adds the new pieces of one keyframe while there is room. */
  method AddPieces(r: Request, start: int, room: nat, pieces0: seq<nat>) returns (pieces: seq<nat>)
    requires r.pieceLength > 0 && Distinct(pieces0) && |pieces0| <= room
    ensures Distinct(pieces) && |pieces| <= room && pieces0 <= pieces
    ensures forall p :: p in pieces[|pieces0|..] ==> r.Fetches(start, p)
    ensures |pieces| < room ==> forall p :: r.Fetches(start, p) ==> p in pieces
  {
    pieces := pieces0;
    var q, last := r.First(start), r.Last(start);
    while q <= last
      invariant r.First(start) <= q
      invariant Distinct(pieces) && |pieces| <= room && pieces0 <= pieces
      invariant forall p :: p in pieces[|pieces0|..] ==> r.Fetches(start, p)
      invariant |pieces| < room ==> forall x :: r.First(start) <= x < q && r.begin <= As32(x) < r.end ==> As32(x) in pieces
      decreases last - q
    {
      var piece := As32(q);
      if r.begin <= piece < r.end && |pieces| < room && piece !in pieces {
        assert (pieces + [piece])[|pieces0|..] == pieces[|pieces0|..] + [piece];
        pieces := pieces + [piece];
      }
      q := q + 1;
    }
  }

  /** How many keyframes the budget allows. */
  function Points(r: Request, maxBytes: int): (n: nat)
    ensures n <= |r.offsets|
  {
    if r.offsets == [] || r.pieceLength <= 0 then 0
    else Min(AsWord(TruncDiv(maxBytes, Max(KEYFRAME_FETCH_BYTES, r.pieceLength)), r.word), |r.offsets|)
  }

  /** Bytes of budget per keyframe. */
  function PerPoint(r: Request): int {
    Max(KEYFRAME_FETCH_BYTES, r.pieceLength)
  }

  /** A budget that is not negative pays for as many keyframes as fit in it, at half a MiB or a piece
      each, and for as many pieces as fit in it. */
  lemma BudgetBuys(r: Request, maxBytes: int)
    requires r.offsets != [] && r.pieceLength > 0 && maxBytes >= 0
    requires maxBytes / r.pieceLength < Pow2(r.word) && maxBytes / PerPoint(r) < Pow2(r.word)
    ensures var n, each := Points(r, maxBytes), Max(512 * 1024, r.pieceLength);
            n * each <= maxBytes && (n == |r.offsets| || maxBytes < (n + 1) * each)
    ensures var room := RoomFor(r, maxBytes);
            room * r.pieceLength <= maxBytes < (room + 1) * r.pieceLength
  {
    WordKeeps(maxBytes / PerPoint(r), Pow2(r.word));
    WordKeeps(maxBytes / r.pieceLength, Pow2(r.word));
    QuotientBetween(maxBytes, PerPoint(r));
    QuotientBetween(maxBytes, r.pieceLength);
    MulMonotone(Points(r, maxBytes), maxBytes / PerPoint(r), PerPoint(r));
  }

  lemma WordKeeps(x: nat, limit: nat)
    requires x < limit
    ensures x % limit == x
  {
    DivModUnique(0, limit, x);
  }

  /** Without a budget nothing is chosen as long as the budget is less than one fetch below zero;
      from there on the count wraps around, and every keyframe is. */
  lemma NoBudgetExactly(r: Request, maxBytes: int)
    requires maxBytes <= 0
    ensures -PerPoint(r) < maxBytes ==> Points(r, maxBytes) == 0
    ensures r.offsets != [] && r.pieceLength > 0 && |r.offsets| - TruncDiv(maxBytes, PerPoint(r)) <= Pow2(r.word) ==>
              && (Points(r, maxBytes) == 0 <==> -PerPoint(r) < maxBytes)
              && (maxBytes <= -PerPoint(r) ==> Points(r, maxBytes) == |r.offsets|)
  {
    if -PerPoint(r) < maxBytes < 0 {
      DivModUnique(0, PerPoint(r), -maxBytes);
    } else if maxBytes < 0 {
      DivPositive(-maxBytes, PerPoint(r));
      if r.offsets != [] && |r.offsets| - TruncDiv(maxBytes, PerPoint(r)) <= Pow2(r.word) {
        WrapOnce(TruncDiv(maxBytes, PerPoint(r)), Pow2(r.word));
      }
    }
  }

  /** One keyframe at the start of a one-piece file, with a budget of minus one fetch. */
  function OneKeyframe(word: nat): Request {
    Request([0], 0, KEYFRAME_FETCH_BYTES, 0, 1, word)
  }

  /** There the keyframe's piece is chosen, with room for it. */
  lemma OverrunInput(word: nat)
    requires word > 0
    ensures var r := OneKeyframe(word);
            && Points(r, -KEYFRAME_FETCH_BYTES) == 1 && Chosen(r, 1, 0)
            && RoomFor(r, -KEYFRAME_FETCH_BYTES) > 0
  {
    var r := OneKeyframe(word);
    assert TruncDiv(-KEYFRAME_FETCH_BYTES, KEYFRAME_FETCH_BYTES) == -1;
    NoBudgetExactly(r, -KEYFRAME_FETCH_BYTES);
    WrapOnce(-1, Pow2(word));
    assert r.Start(0, 1) == 0 && As32(0) == 0;
    assert r.Fetches(r.Start(0, 1), 0);
  }

  /** The budget is overrun on that input. */
  method Overrun(word: nat) returns (pieces: seq<nat>)
    requires word > 0
    ensures |pieces| * KEYFRAME_FETCH_BYTES > Max(-KEYFRAME_FETCH_BYTES, 0)
  {
    OverrunInput(word);
    ghost var marks: seq<nat>;
    pieces, marks := PiecesForKeyframes(OneKeyframe(word), -KEYFRAME_FETCH_BYTES);
  }

  lemma DivPositive(a: int, d: int)
    requires a >= d > 0
    ensures a / d >= 1
  {
  }

  lemma WrapOnce(x: int, limit: int)
    requires 0 < x + limit && x < 0
    ensures x % limit == x + limit
  {
    DivModUnique(0, limit, x + limit);
  }

  /** Piece `p` is part of one of the chosen keyframes. */
  ghost predicate Chosen(r: Request, points: nat, p: nat)
    requires r.pieceLength > 0 && points <= |r.offsets|
  {
    exists k: nat :: k < points && r.Fetches(r.Start(k, points), p)
  }

  ghost predicate AllChosen(r: Request, points: nat, pieces: seq<nat>)
    requires r.pieceLength > 0 && points <= |r.offsets|
  {
    forall p :: p in pieces ==> Chosen(r, points, p)
  }

  /** Every piece of keyframe `k` is listed. */
  ghost predicate CoversOne(r: Request, points: nat, k: nat, pieces: seq<nat>)
    requires r.pieceLength > 0 && k < points <= |r.offsets|
  {
    forall p :: r.Fetches(r.Start(k, points), p) ==> p in pieces
  }

  ghost predicate Covers(r: Request, points: nat, ks: seq<nat>, pieces: seq<nat>)
    requires r.pieceLength > 0 && points <= |r.offsets|
  {
    forall k :: k in ks && k < points ==> CoversOne(r, points, k, pieces)
  }

  lemma AddedCovers(r: Request, points: nat, ks: seq<nat>, k: nat, before: seq<nat>, pieces: seq<nat>)
    requires r.pieceLength > 0 && k < points <= |r.offsets| && before <= pieces && Covers(r, points, ks, before)
    requires forall p :: r.Fetches(r.Start(k, points), p) ==> p in pieces
    ensures Covers(r, points, ks + [k], pieces)
  {
    assert forall p :: p in before ==> p in pieces;
    forall j | j in ks + [k] && j < points
      ensures CoversOne(r, points, j, pieces)
    {
      if j != k {
        assert CoversOne(r, points, j, before);
      }
    }
  }

  lemma CoversAll(r: Request, points: nat, order: seq<nat>, pieces: seq<nat>)
    requires r.pieceLength > 0 && points <= |r.offsets| && Covers(r, points, order, pieces)
    requires forall k: nat :: k < points ==> k in order
    ensures forall p :: Chosen(r, points, p) ==> p in pieces
  {
    forall p | Chosen(r, points, p)
      ensures p in pieces
    {
      var k: nat :| k < points && r.Fetches(r.Start(k, points), p);
      assert CoversOne(r, points, k, pieces);
    }
  }

  /** After the first `i` keyframes of the order, `pieces` up to `mark` is what they need: nothing
      else, and all of it while there is room. */
  ghost predicate AfterSome(r: Request, points: nat, ks: seq<nat>, room: nat, pieces: seq<nat>)
    requires r.pieceLength > 0 && points <= |r.offsets|
  {
    && (forall p :: p in pieces ==> exists k :: k in ks && k < points && r.Fetches(r.Start(k, points), p))
    && (|pieces| < room ==> Covers(r, points, ks, pieces))
  }

  /** The list grew keyframe by keyframe in this order: `marks[i]` is its length after `i` of them. */
  ghost predicate GrownBy(r: Request, points: nat, order: seq<nat>, room: nat, pieces: seq<nat>, marks: seq<nat>)
    requires r.pieceLength > 0 && points <= |r.offsets|
  {
    && |marks| == |order| + 1 && marks[|order|] == |pieces|
    && forall i :: 0 <= i <= |order| ==> marks[i] <= |pieces| && AfterSome(r, points, order[..i], room, pieces[..marks[i]])
  }

  lemma GrowsBy(r: Request, points: nat, order: seq<nat>, k: nat, room: nat, before: seq<nat>, pieces: seq<nat>, marks: seq<nat>)
    requires r.pieceLength > 0 && k < points <= |r.offsets| && before <= pieces
    requires GrownBy(r, points, order, room, before, marks) && AfterSome(r, points, order + [k], room, pieces)
    ensures GrownBy(r, points, order + [k], room, pieces, marks + [|pieces|])
  {
    var order', marks' := order + [k], marks + [|pieces|];
    forall i | 0 <= i <= |order'|
      ensures marks'[i] <= |pieces| && AfterSome(r, points, order'[..i], room, pieces[..marks'[i]])
    {
      if i <= |order| {
        assert order'[..i] == order[..i] && pieces[..marks[i]] == before[..marks[i]];
      } else {
        assert order'[..i] == order' && pieces[..|pieces|] == pieces;
      }
    }
  }

  lemma AfterOneMore(r: Request, points: nat, ks: seq<nat>, k: nat, room: nat, before: seq<nat>, pieces: seq<nat>)
    requires r.pieceLength > 0 && k < points <= |r.offsets| && before <= pieces && AfterSome(r, points, ks, room, before)
    requires forall p :: p in pieces[|before|..] ==> r.Fetches(r.Start(k, points), p)
    requires |pieces| < room ==> forall p :: r.Fetches(r.Start(k, points), p) ==> p in pieces
    ensures AfterSome(r, points, ks + [k], room, pieces)
  {
    assert k in ks + [k];
    forall p | p in pieces
      ensures exists j :: j in ks + [k] && j < points && r.Fetches(r.Start(j, points), p)
    {
      assert pieces == before + pieces[|before|..];
      if p in before {
        var j :| j in ks && j < points && r.Fetches(r.Start(j, points), p);
        assert j in ks + [k];
      }
    }
    if |pieces| < room {
      AddedCovers(r, points, ks, k, before, pieces);
    }
  }

  /** The pieces of `count` keyframes, coarse to fine, while there is room. */
  method Gather(r: Request, count: nat, room: nat) returns (pieces: seq<nat>, ghost marks: seq<nat>)
    requires r.pieceLength > 0 && count <= |r.offsets| <= Pow2(r.word)
    ensures Distinct(pieces) && |pieces| <= room && AllChosen(r, count, pieces)
    ensures |pieces| < room ==> forall p :: Chosen(r, count, p) ==> p in pieces
    ensures GrownBy(r, count, CoarseToFine(count, r.word), room, pieces, marks)
  {
    pieces, marks := [], [0];
    EachIndexOnce(count, r.word);
    var order := CoarseToFine(count, r.word);
    var i := 0;
    while i < |order|
      invariant 0 <= i <= |order|
      invariant Distinct(pieces) && |pieces| <= room && GrownBy(r, count, order[..i], room, pieces, marks)
    {
      assert order[i] in order;
      var before := pieces;
      pieces := AddPieces(r, r.Start(order[i], count), room, pieces);
      assert order[..i][..i] == order[..i] && before[..|before|] == before;
      AfterOneMore(r, count, order[..i], order[i], room, before, pieces);
      GrowsBy(r, count, order[..i], order[i], room, before, pieces, marks);
      assert order[..i + 1] == order[..i] + [order[i]];
      marks := marks + [|pieces|];
      i := i + 1;
    }
    assert order[..i] == order;
    GrownAll(r, count, order, room, pieces, marks);
  }

  lemma GrownAll(r: Request, points: nat, order: seq<nat>, room: nat, pieces: seq<nat>, marks: seq<nat>)
    requires r.pieceLength > 0 && points <= |r.offsets| && GrownBy(r, points, order, room, pieces, marks)
    requires forall k: nat :: k < points ==> k in order
    ensures AllChosen(r, points, pieces)
    ensures |pieces| < room ==> forall p :: Chosen(r, points, p) ==> p in pieces
  {
    assert order[..|order|] == order && pieces[..|pieces|] == pieces;
    assert AfterSome(r, points, order, room, pieces);
    if |pieces| < room {
      CoversAll(r, points, order, pieces);
    }
  }

  /** Pieces the budget has room for, as the engine counts them. */
  function RoomFor(r: Request, maxBytes: int): nat {
    if r.pieceLength <= 0 then 0 else AsWord(TruncDiv(maxBytes, r.pieceLength), r.word)
  }

  /** Pieces of the chosen keyframes only, each once, and all of them unless the room ran out. */
  ghost predicate Gathered(r: Request, points: nat, room: nat, pieces: seq<nat>)
    requires points <= |r.offsets|
  {
    && Distinct(pieces) && (forall p :: p in pieces ==> r.begin <= p < r.end)
    && (r.pieceLength <= 0 || points == 0 ==> pieces == [])
    && (r.pieceLength > 0 ==> AllChosen(r, points, pieces))
    && (r.pieceLength > 0 && |pieces| < room ==> forall p :: Chosen(r, points, p) ==> p in pieces)
  }

  /** The pieces fit a budget that is not negative. */
  predicate WithinBudget(r: Request, maxBytes: int, pieces: seq<nat>) {
    r.pieceLength > 0 && maxBytes >= 0 ==> |pieces| * r.pieceLength <= maxBytes
  }

  /** A negative budget gets nothing fetched exactly when it is less than one fetch below zero, or
      there is nothing to fetch. */
  ghost predicate NegativeBudget(r: Request, maxBytes: int, pieces: seq<nat>) {
    maxBytes < 0 && CountsFit(r, maxBytes) ==>
      (pieces == [] <==> -PerPoint(r) < maxBytes || NothingChosen(r, |r.offsets|))
  }

  /** What to fetch ahead for seeks. */
  method PiecesForKeyframes(r: Request, maxBytes: int) returns (pieces: seq<nat>, ghost marks: seq<nat>)
    requires |r.offsets| <= Pow2(r.word)
    ensures r.pieceLength > 0 ==>
              GrownBy(r, Points(r, maxBytes), CoarseToFine(Points(r, maxBytes), r.word), RoomFor(r, maxBytes), pieces, marks)
    ensures Gathered(r, Points(r, maxBytes), RoomFor(r, maxBytes), pieces)
    ensures WithinBudget(r, maxBytes, pieces)
    ensures NegativeBudget(r, maxBytes, pieces)
  {
    var count, room := Points(r, maxBytes), RoomFor(r, maxBytes);
    pieces, marks := GatherAny(r, count, room);
    FitsBudget(r, maxBytes, pieces);
    FitsNegative(r, maxBytes, pieces);
  }

  method GatherAny(r: Request, count: nat, room: nat) returns (pieces: seq<nat>, ghost marks: seq<nat>)
    requires count <= |r.offsets| <= Pow2(r.word) && (r.pieceLength <= 0 ==> count == 0)
    ensures |pieces| <= room && Gathered(r, count, room, pieces)
    ensures r.pieceLength > 0 ==> GrownBy(r, count, CoarseToFine(count, r.word), room, pieces, marks)
  {
    pieces, marks := [], [0];
    if count > 0 {
      pieces, marks := Gather(r, count, room);
    } else {
      EmptyOrder(r.word);
    }
  }

  lemma EmptyOrder(word: nat)
    ensures CoarseToFine(0, word) == []
  {
    assert BitsFor(0, 0) == 0 && Coarse(0, 0, word, 1) == Coarse(0, 0, word, 0) + [];
  }

  lemma FitsBudget(r: Request, maxBytes: int, pieces: seq<nat>)
    requires |pieces| <= RoomFor(r, maxBytes)
    ensures WithinBudget(r, maxBytes, pieces)
  {
    if r.pieceLength > 0 {
      BudgetHolds(|pieces|, maxBytes, r.pieceLength, RoomFor(r, maxBytes));
    }
  }

  lemma FitsNegative(r: Request, maxBytes: int, pieces: seq<nat>)
    requires Gathered(r, Points(r, maxBytes), RoomFor(r, maxBytes), pieces)
    ensures NegativeBudget(r, maxBytes, pieces)
  {
    if maxBytes < 0 && CountsFit(r, maxBytes) {
      NoBudgetExactly(r, maxBytes);
      if maxBytes <= -PerPoint(r) {
        OverrunExactly(r, maxBytes, pieces);
      }
    }
  }

  /** No piece of the file belongs to the start of any of the keyframes. */
  ghost predicate NothingChosen(r: Request, points: nat)
    requires r.pieceLength > 0 && points <= |r.offsets|
  {
    forall p :: !Chosen(r, points, p)
  }

  /** There are keyframes, and neither count wraps around more than once. */
  predicate CountsFit(r: Request, maxBytes: int) {
    && r.offsets != [] && r.pieceLength > 0
    && |r.offsets| - TruncDiv(maxBytes, PerPoint(r)) <= Pow2(r.word)
    && -TruncDiv(maxBytes, r.pieceLength) < Pow2(r.word)
  }

  lemma OverrunExactly(r: Request, maxBytes: int, pieces: seq<nat>)
    requires maxBytes <= -PerPoint(r) && CountsFit(r, maxBytes) && Points(r, maxBytes) == |r.offsets|
    requires Gathered(r, |r.offsets|, RoomFor(r, maxBytes), pieces)
    ensures pieces == [] <==> NothingChosen(r, |r.offsets|)
  {
    DivPositive(-maxBytes, r.pieceLength);
    WrapOnce(TruncDiv(maxBytes, r.pieceLength), Pow2(r.word));
    if pieces != [] {
      assert pieces[0] in pieces;
    }
  }

  lemma BudgetHolds(n: nat, maxBytes: int, pieceLength: int, room: nat)
    requires pieceLength > 0 && n <= room && (maxBytes >= 0 ==> room <= TruncDiv(maxBytes, pieceLength))
    ensures maxBytes >= 0 ==> n * pieceLength <= maxBytes
  {
    if maxBytes >= 0 {
      MulMonotone(n, maxBytes / pieceLength, pieceLength);
      assert maxBytes == maxBytes / pieceLength * pieceLength + maxBytes % pieceLength;
    }
  }
}
