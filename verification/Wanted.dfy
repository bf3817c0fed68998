/** The scan of wanted pieces that all refills share, and its generation-checked cache. */
module Wanted {
  import opened Types
  import opened Geometry

  const RARE_AVAILABILITY := 2

  datatype Candidate = Candidate(index: PieceIndex, priority: PiecePriority, partial: bool, chunks: nat, availability: int) {

    /** Rank among equal priorities, lower first: only background pieces have one. Started pieces
        come first, then rare ones. */
    function BackgroundRank(): (bool, int) {
      if priority == Normal then (!partial, Min(availability, RARE_AVAILABILITY + 1)) else (false, 0)
    }

    /** Same place in the fetch order, apart from the index. */
    predicate Ties(c: Candidate) {
      priority == c.priority && BackgroundRank() == c.BackgroundRank()
    }

    /** Fetched strictly earlier, apart from the index. */
    predicate Beats(c: Candidate) {
      || priority.Rank() > c.priority.Rank()
      || (priority == c.priority &&
          (|| (!BackgroundRank().0 && c.BackgroundRank().0)
           || (BackgroundRank().0 == c.BackgroundRank().0 && BackgroundRank().1 < c.BackgroundRank().1)))
    }

    predicate Before(c: Candidate) {
      Beats(c) || (Ties(c) && index < c.index)
    }
  }

  /** One scan of all pieces. */
  datatype WantedPieces = WantedPieces(
    generation: nat,
    checking: nat,
    count: nat,
    incomplete: nat,
    requestable: seq<bool>,
    candidates: seq<Candidate>)

  predicate Incomplete(p: PieceEntry) {
    !p.complete && p.priority != Unwanted
  }

  function Count<T>(s: seq<T>, f: T -> bool): nat {
    if s == [] then 0 else Count(s[..|s| - 1], f) + if f(s[|s| - 1]) then 1 else 0
  }

  predicate Describes(c: Candidate, p: PieceEntry) {
    c.priority == p.priority && c.partial == p.partial && c.chunks == p.chunks
  }

  ghost predicate Ordered(cs: seq<Candidate>) {
    forall i, j :: 0 <= i < j < |cs| ==> cs[i].Before(cs[j]) && cs[i].index != cs[j].index
  }

  /** The candidates are exactly the requestable pieces, each once, in fetch order. */
  ghost predicate Lists(cs: seq<Candidate>, pieces: seq<PieceEntry>) {
    && (forall c :: c in cs ==> c.index < |pieces| && pieces[c.index].Requestable() && Describes(c, pieces[c.index]))
    && (forall i :: 0 <= i < |pieces| && pieces[i].Requestable() ==> exists c :: c in cs && c.index == i)
    && Ordered(cs)
  }

  /** `w` is what a fresh scan of `pieces` finds, whatever the availability counters were. */
  ghost predicate Agrees(w: WantedPieces, pieces: seq<PieceEntry>) {
    && |w.requestable| == |pieces|
    && (forall i :: 0 <= i < |pieces| ==> w.requestable[i] == pieces[i].Requestable())
    && w.count == Count(pieces, (p: PieceEntry) => p.Requestable())
    && w.incomplete == Count(pieces, Incomplete)
    && w.checking == Count(pieces, (p: PieceEntry) => p.checking)
    && |w.candidates| == w.count
    && Lists(w.candidates, pieces)
  }

  /** The fetch order in plain words: what is wanted sooner comes first. Among background pieces
      those begun come first, then those at fewer than three peers, rarest first. Everything else
      goes by position in the torrent. */
  lemma FetchOrder(cs: seq<Candidate>, i: nat, j: nat)
    requires Ordered(cs) && i < j < |cs|
    ensures var a, b := cs[i], cs[j];
            && (b.priority == Now ==> a.priority == Now)
            && (b.priority == Next ==> a.priority == Now || a.priority == Next)
            && (b.priority == Readahead ==> a.priority == Now || a.priority == Next || a.priority == Readahead)
            && (b.priority == High ==> a.priority != Normal && a.priority != Unwanted)
            && (b.priority == Normal ==> a.priority != Unwanted)
            && (a.priority == b.priority && a.priority != Normal ==> a.index < b.index)
            && (a.priority == Normal && b.priority == Normal ==>
                  && (b.partial ==> a.partial)
                  && (a.partial == b.partial ==> a.availability <= b.availability || b.availability >= 3)
                  && (a.partial == b.partial && (a.availability == b.availability || (a.availability >= 3 && b.availability >= 3)) ==>
                        a.index < b.index))
  {
    assert cs[i].Before(cs[j]);
  }

  // ------------------------------------------------------------ sorting

  /** Puts `c` behind everything that does not come strictly later: the stable place. */
  function Insert(cs: seq<Candidate>, c: Candidate): (r: seq<Candidate>)
    ensures |r| == |cs| + 1
    ensures forall x :: x in r <==> x in cs || x == c
  {
    if cs == [] || !c.Beats(cs[|cs| - 1]) then cs + [c]
    else Insert(cs[..|cs| - 1], c) + [cs[|cs| - 1]]
  }

  lemma {:induction false} InsertOrders(cs: seq<Candidate>, c: Candidate)
    requires Ordered(cs) && forall x :: x in cs ==> x.index < c.index
    ensures Ordered(Insert(cs, c))
    decreases |cs|
  {
    if cs != [] {
      var last := cs[|cs| - 1];
      if c.Beats(last) {
        InsertOrders(cs[..|cs| - 1], c);
        forall x | x in Insert(cs[..|cs| - 1], c)
          ensures x.Before(last) && x.index != last.index
        {
          assert x == c || exists i :: 0 <= i < |cs| - 1 && cs[i] == x;
        }
      } else {
        forall i | 0 <= i < |cs|
          ensures cs[i].Before(c)
        {
          if i < |cs| - 1 {
            BeforeTrans(cs[i], last, c);
          } else {
            BeatsTotal(last, c);
          }
        }
      }
    }
  }

  lemma BeatsTotal(a: Candidate, b: Candidate)
    ensures a.Beats(b) || b.Beats(a) || a.Ties(b)
  {
  }

  /** `b` is no later than `c` (whose index is larger), so neither is `a`, before `b`. */
  lemma BeforeTrans(a: Candidate, b: Candidate, c: Candidate)
    requires a.Before(b) && !c.Beats(b) && a.index < c.index && b.index < c.index
    ensures a.Before(c)
  {
    BeatsTotal(b, c);
  }

  /** One pass over the pieces, keeping the candidates in fetch order. The availability of each
      candidate is whatever the counters say at that moment. */
  method Scan(pieces: seq<PieceEntry>, availability: seq<int>, generation: nat) returns (w: WantedPieces)
    requires |availability| == |pieces|
    requires forall i :: 0 <= i < |pieces| ==> pieces[i].index == i
    ensures Agrees(w, pieces) && w.generation == generation
    ensures forall c :: c in w.candidates ==> c.index < |availability| && c.availability == availability[c.index]
  {
    w := WantedPieces(generation, 0, 0, 0, [], []);
    var i := 0;
    while i < |pieces|
      invariant 0 <= i <= |pieces| && w.generation == generation
      invariant Agrees(w, pieces[..i])
      invariant forall c :: c in w.candidates ==> c.index < i && c.availability == availability[c.index]
    {
      var p := pieces[i];
      assert pieces[..i + 1][..i] == pieces[..i];
      var wanted := p.Requestable();
      var candidates := w.candidates;
      if wanted {
        var c := Candidate(p.index, p.priority, p.partial, p.chunks, availability[i]);
        InsertOrders(candidates, c);
        candidates := Insert(candidates, c);
        InsertLists(w.candidates, pieces[..i], c, p);
        assert pieces[..i] + [p] == pieces[..i + 1];
      } else {
        SkipLists(w.candidates, pieces[..i], p);
        assert pieces[..i] + [p] == pieces[..i + 1];
      }
      w := WantedPieces(generation,
                        w.checking + if p.checking then 1 else 0,
                        w.count + if wanted then 1 else 0,
                        w.incomplete + if Incomplete(p) then 1 else 0,
                        w.requestable + [wanted],
                        candidates);
      i := i + 1;
    }
    assert pieces[..i] == pieces;
  }

  lemma InsertLists(cs: seq<Candidate>, pieces: seq<PieceEntry>, c: Candidate, p: PieceEntry)
    requires Lists(cs, pieces) && Ordered(Insert(cs, c)) && c.index == |pieces| && p.Requestable() && Describes(c, p)
    ensures Lists(Insert(cs, c), pieces + [p])
  {
    forall i | 0 <= i < |pieces + [p]| && (pieces + [p])[i].Requestable()
      ensures exists x :: x in Insert(cs, c) && x.index == i
    {
      if i < |pieces| {
        var x :| x in cs && x.index == i;
        assert x in Insert(cs, c);
      } else {
        assert c in Insert(cs, c);
      }
    }
  }

  lemma SkipLists(cs: seq<Candidate>, pieces: seq<PieceEntry>, p: PieceEntry)
    requires Lists(cs, pieces) && !p.Requestable()
    ensures Lists(cs, pieces + [p])
  {
    forall i | 0 <= i < |pieces + [p]| && (pieces + [p])[i].Requestable()
      ensures exists x :: x in cs && x.index == i
    {
      assert pieces[i].Requestable();
    }
  }

  lemma {:induction false} CountPositive<T>(s: seq<T>, f: T -> bool)
    ensures Count(s, f) > 0 <==> exists i :: 0 <= i < |s| && f(s[i])
  {
    if s != [] {
      var n := |s| - 1;
      CountPositive(s[..n], f);
      if Count(s[..n], f) > 0 {
        var i :| 0 <= i < n && f(s[..n][i]);
        assert f(s[i]);
      }
    }
  }

  ghost function Places<T>(s: seq<T>, f: T -> bool): set<int> {
    set i | 0 <= i < |s| && f(s[i])
  }

  /** A count is the number of places it counts. */
  lemma {:induction false} CountIsSize<T>(s: seq<T>, f: T -> bool)
    ensures Count(s, f) == |Places(s, f)|
  {
    if s == [] {
      assert Places(s, f) == {};
    } else {
      var n := |s| - 1;
      CountIsSize(s[..n], f);
      assert Places(s, f) == Places(s[..n], f) + if f(s[n]) then {n} else {};
    }
  }

  // ------------------------------------------------------------ the cache

  /** The piece table with its generation counter and the cached scan. `writing` says whether a
      writer is inside the write lock; then no reader is. */
  class PieceTable {
    var pieces: seq<PieceEntry>
    var generation: nat
    var writing: bool
    var cache: Option<WantedPieces>

    /** While a writer is inside, every cached scan is already out of date; outside, a scan of the
        current generation is exact. */
    ghost predicate Valid()
      reads this
    {
      && (forall i :: 0 <= i < |pieces| ==> pieces[i].index == i)
      && (cache.Some? ==>
            && cache.value.generation <= generation
            && (writing ==> cache.value.generation < generation)
            && (cache.value.generation == generation ==> Agrees(cache.value, pieces)))
    }

    constructor (pieces: seq<PieceEntry>)
      requires forall i :: 0 <= i < |pieces| ==> pieces[i].index == i
      ensures Valid() && !writing && this.pieces == pieces
    {
      this.pieces, generation, writing, cache := pieces, 0, false, None;
    }

    /** Takes the write lock. The generation moves with the lock held, before anything is written. */
    method PiecesMut()
      requires Valid() && !writing
      modifies this`generation, this`writing
      ensures Valid() && writing && pieces == old(pieces) && generation == old(generation) + 1
    {
      writing := true;
      generation := generation + 1;
    }

    method SetEntry(i: nat, entry: PieceEntry)
      requires Valid() && writing && i < |pieces| && entry.index == i
      modifies this`pieces
      ensures Valid() && writing && pieces == old(pieces)[i := entry]
    {
      pieces := pieces[i := entry];
    }

    method Unlock()
      requires Valid() && writing
      modifies this`writing
      ensures Valid() && !writing && pieces == old(pieces)
    {
      writing := false;
    }

    /** The refill inputs. `young`: the cached scan is not too old for its availability figures. */
    method WantedNow(young: bool, availability: seq<int>) returns (w: WantedPieces)
      requires Valid() && !writing && |availability| == |pieces|
      modifies this`cache
      ensures Valid() && Agrees(w, pieces) && cache == Some(w)
      ensures !young ==> forall c :: c in w.candidates ==> c.index < |availability| && c.availability == availability[c.index]
    {
      if cache.Some? && cache.value.generation == generation && young {
        return cache.value;
      }
      w := Scan(pieces, availability, generation);
      cache := Some(w);
    }

    /** Whether any piece is wanted and not verified, answered from the shared scan. */
    method AnyWantedIncomplete(young: bool, availability: seq<int>) returns (any: bool)
      requires Valid() && !writing && |availability| == |pieces|
      modifies this`cache
      ensures Valid()
      ensures any <==> exists i :: 0 <= i < |pieces| && pieces[i].priority != Unwanted && !pieces[i].complete
    {
      var w := WantedNow(young, availability);
      CountPositive(pieces, Incomplete);
      any := w.incomplete > 0;
      assert any <==> exists i :: 0 <= i < |pieces| && Incomplete(pieces[i]);
    }
  }
}
