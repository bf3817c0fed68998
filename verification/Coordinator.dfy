/** Merging the demands of all readers of a torrent into one priority per piece. */
module Coordinator {
  import opened Types

  type Demand = map<PieceIndex, PiecePriority>
  type SessionId = nat

  /** Everything the coordinator keeps that the merged demand depends on. */
  datatype Coord = Coord(
    owners: map<SessionId, Demand>,
    hints: Demand,
    focus: Demand,
    resume: Demand,
    preview: Demand,
    effective: Demand,
    generation: nat,
    positions: map<nat, int>)
  {
    ghost function Sources(): set<Demand> {
      owners.Values + {hints} + {focus} + {resume} + {preview}
    }

    /** Several readers compete. */
    predicate Shared() {
      |owners| > 1
    }

    /** A preview goes before the readers' own urgent pieces. */
    predicate PreviewFirst() {
      preview != map[] && owners != map[]
    }

    /** `effective` is the capped pointwise maximum of all demands, and asks for nothing else. */
    ghost predicate Merged() {
      Merges(Sources(), Shared(), PreviewFirst(), effective)
    }
  }

  function Capped(shared: bool, previewFirst: bool, p: PiecePriority): (r: PiecePriority)
    ensures r.Rank() <= p.Rank() && (r == p || (shared && r == High) || (previewFirst && r == Next))
    ensures (shared ==> r.Rank() <= High.Rank()) && (previewFirst ==> r.Rank() <= Next.Rank())
  {
    var q := if shared && p.Rank() > High.Rank() then High else p;
    if previewFirst && q.Rank() > Next.Rank() then Next else q
  }

  ghost predicate Merges(sources: set<Demand>, shared: bool, previewFirst: bool, effective: Demand) {
    && (forall i: PieceIndex :: i in effective <==> Asked(sources, i))
    && (forall i: PieceIndex :: i in effective ==>
          exists p :: Top(sources, i, p) && effective[i] == Capped(shared, previewFirst, p))
  }

  ghost predicate Asked(sources: set<Demand>, i: PieceIndex) {
    exists d :: d in sources && i in d
  }

  /** `p` is the highest priority anyone asks of piece `i`. */
  ghost predicate Top(sources: set<Demand>, i: PieceIndex, p: PiecePriority) {
    && (exists d :: d in sources && i in d && d[i] == p)
    && (forall d: Demand :: d in sources && i in d ==> d[i].Rank() <= p.Rank())
  }

  /** `next` holds the top demand of exactly the pieces asked for. */
  ghost predicate Tops(next: Demand, sources: set<Demand>) {
    && (forall i: PieceIndex :: i in next <==> Asked(sources, i))
    && (forall i: PieceIndex :: i in next ==> Top(sources, i, next[i]))
  }

  lemma TopOnce(sources: set<Demand>, i: PieceIndex, p: PiecePriority, q: PiecePriority)
    requires Top(sources, i, p) && Top(sources, i, q)
    ensures p == q
  {
  }

  function Higher(a: PiecePriority, b: PiecePriority): PiecePriority {
    if b.Rank() > a.Rank() then b else a
  }

  function Level(d: Demand, i: PieceIndex): PiecePriority {
    if i in d then d[i] else Unwanted
  }

  /** `r` is `dst` raised by `src` at the pieces outside `left`. */
  ghost predicate Raised(dst: Demand, src: Demand, left: set<PieceIndex>, r: Demand) {
    && (forall i: PieceIndex :: i in r <==> i in dst || (i in src && i !in left))
    && (forall i: PieceIndex :: i in r ==> r[i] == if i in left then dst[i] else Higher(Level(dst, i), Level(src, i)))
  }

  /** Raises `dst` by one demand, visiting its pieces in any order. */
  method Raise(dst: Demand, src: Demand) returns (r: Demand)
    ensures Raised(dst, src, {}, r)
  {
    r := dst;
    var left := src.Keys;
    while left != {}
      invariant left <= src.Keys && Raised(dst, src, left, r)
      decreases |left|
    {
      var i :| i in left;
      var e := if i in r then r[i] else Unwanted;
      r := r[i := if src[i].Rank() > e.Rank() then src[i] else e];
      left := left - {i};
    }
  }

  /** Raising by one more demand adds it to the sources. */
  lemma RaiseAdds(next: Demand, sources: set<Demand>, d: Demand, r: Demand)
    requires Tops(next, sources) && Raised(next, d, {}, r)
    ensures Tops(r, sources + {d})
  {
    forall i: PieceIndex
      ensures i in r <==> Asked(sources + {d}, i)
    {
      if i in d {
        assert d in sources + {d};
      }
      if Asked(sources, i) {
        var x :| x in sources && i in x;
        assert x in sources + {d};
      }
    }
    forall i: PieceIndex | i in r
      ensures Top(sources + {d}, i, r[i])
    {
      TopAfter(next, sources, d, i);
    }
  }

  lemma TopAfter(next: Demand, sources: set<Demand>, d: Demand, i: PieceIndex)
    requires Tops(next, sources) && (i in next || i in d)
    ensures Top(sources + {d}, i, Higher(Level(next, i), Level(d, i)))
  {
    if i in next {
      assert Top(sources, i, next[i]);
      var x :| x in sources && i in x && x[i] == next[i];
      assert x in sources + {d};
    } else {
      assert forall x :: x in sources ==> i !in x;
    }
    assert d in sources + {d};
  }

  /** Caps every value of `next`. */
  method CapAll(next: Demand, shared: bool, previewFirst: bool) returns (r: Demand)
    ensures r.Keys == next.Keys && forall i :: i in next ==> r[i] == Capped(shared, previewFirst, next[i])
  {
    r := next;
    var left := next.Keys;
    while left != {}
      invariant left <= next.Keys && r.Keys == next.Keys
      invariant forall i :: i in next ==> r[i] == if i in left then next[i] else Capped(shared, previewFirst, next[i])
      decreases |left|
    {
      var i :| i in left;
      r := r[i := Capped(shared, previewFirst, r[i])];
      left := left - {i};
    }
  }

  /** Adds one more demand to a merge. */
  method RaiseNext(next: Demand, ghost sources: set<Demand>, d: Demand) returns (r: Demand)
    requires Tops(next, sources)
    ensures Tops(r, sources + {d})
  {
    r := Raise(next, d);
    RaiseAdds(next, sources, d, r);
  }

  /** Merges the demands of all owners, in any order. */
  method RaiseOwners(owners: map<SessionId, Demand>) returns (next: Demand)
    ensures Tops(next, owners.Values)
  {
    next := map[];
    var left := owners.Keys;
    ghost var seen: set<Demand> := {};
    while left != {}
      invariant left <= owners.Keys && Tops(next, seen)
      invariant seen == set id | id in owners && id !in left :: owners[id]
      decreases |left|
    {
      var id :| id in left;
      next := RaiseNext(next, seen, owners[id]);
      seen := seen + {owners[id]};
      left := left - {id};
    }
    assert seen == owners.Values;
  }

  /** The demands of all owners and of the four shared sources. */
  method RaiseAll(c: Coord) returns (next: Demand)
    ensures Tops(next, c.Sources())
  {
    next := RaiseOwners(c.owners);
    ghost var s := c.owners.Values;
    next := RaiseNext(next, s, c.hints);
    next := RaiseNext(next, s + {c.hints}, c.focus);
    next := RaiseNext(next, s + {c.hints} + {c.focus}, c.resume);
    next := RaiseNext(next, s + {c.hints} + {c.focus} + {c.resume}, c.preview);
  }

  /** The merged demand of `c`. */
  method Merge(c: Coord) returns (effective: Demand)
    ensures Merges(c.Sources(), c.Shared(), c.PreviewFirst(), effective)
  {
    var next := RaiseAll(c);
    effective := CapAll(next, c.Shared(), c.PreviewFirst());
    CappedIsMerged(next, effective, c.Sources(), c.Shared(), c.PreviewFirst());
  }

  lemma CappedIsMerged(next: Demand, effective: Demand, sources: set<Demand>, shared: bool, previewFirst: bool)
    requires Tops(next, sources) && effective.Keys == next.Keys
    requires forall i :: i in next ==> effective[i] == Capped(shared, previewFirst, next[i])
    ensures Merges(sources, shared, previewFirst, effective)
  {
    forall i: PieceIndex | i in effective
      ensures exists p :: Top(sources, i, p) && effective[i] == Capped(shared, previewFirst, p)
    {
      assert i in next && Top(sources, i, next[i]);
    }
  }

  /** The merged demand is determined by the demands: it does not depend on the order in which
      the maps were visited. */
  lemma MergedOnce(sources: set<Demand>, shared: bool, previewFirst: bool, a: Demand, b: Demand)
    requires Merges(sources, shared, previewFirst, a) && Merges(sources, shared, previewFirst, b)
    ensures a == b
  {
    assert a.Keys == b.Keys;
    forall i: PieceIndex | i in a
      ensures a[i] == b[i]
    {
      var p :| Top(sources, i, p) && a[i] == Capped(shared, previewFirst, p);
      var q :| Top(sources, i, q) && b[i] == Capped(shared, previewFirst, q);
      TopOnce(sources, i, p, q);
    }
  }

  // ------------------------------------------------------------ operations

  datatype Op =
    | SetFocus(demand: Demand)
    | SetHints(demand: Demand)
    | SetPreview(demand: Demand)
    | RememberResume(file: nat, offset: int)
    | PrepareResume(file: nat, offset: int)
    | HoldResume(demand: Demand)
    | ExpireResume(generation: nat)
    | Update(session: SessionId, demand: Demand)
    | Remove(session: SessionId)

  /** The inputs of the merge after `op`. */
  function Raw(c: Coord, op: Op): Coord {
    match op
    case SetFocus(d) => c.(focus := d)
    case SetHints(d) => c.(hints := d)
    case SetPreview(d) => c.(preview := d)
    case RememberResume(f, off) => if f in c.positions then c else c.(positions := c.positions[f := off])
    case PrepareResume(f, off) =>
      c.(positions := c.positions[f := off], generation := c.generation + 1, resume := map[])
    case HoldResume(d) => c.(generation := c.generation + 1, resume := d)
    case ExpireResume(g) => if c.generation != g then c else c.(resume := map[])
    case Update(id, d) => c.(owners := c.owners[id := d])
    case Remove(id) => c.(owners := c.owners - {id})
  }

  /** Whether `op` merges again. */
  predicate Remerges(c: Coord, op: Op) {
    match op
    case SetFocus(d) => c.focus != d
    case RememberResume(_, _) => false
    case ExpireResume(g) => c.generation == g
    case _ => true
  }

  ghost predicate Step(c: Coord, op: Op, c': Coord) {
    && c' == Raw(c, op).(effective := c'.effective)
    && (if Remerges(c, op) then c'.Merged() else c'.effective == c.effective)
  }

  lemma StepIs(c: Coord, op: Op, c': Coord)
    requires op.Update? || op.Remove?
    requires c' == Raw(c, op).(effective := c'.effective) && c'.Merged()
    ensures Step(c, op, c')
  {
  }

  ghost predicate StepAt(cs: seq<Coord>, ops: seq<Op>, k: nat)
    requires k < |ops| && |cs| == |ops| + 1
  {
    Step(cs[k], ops[k], cs[k + 1])
  }

  /** A run: `cs[k + 1]` follows from `cs[k]` by `ops[k]`. */
  ghost predicate Runs(cs: seq<Coord>, ops: seq<Op>) {
    |cs| == |ops| + 1 && forall k: nat :: k < |ops| ==> StepAt(cs, ops, k)
  }

  /** Without a new merge only remembered positions change. */
  lemma StepKeeps(c: Coord, op: Op, c': Coord)
    requires Step(c, op, c') && !Remerges(c, op)
    ensures c' == c.(positions := c'.positions)
  {
  }

  lemma PositionsIrrelevant(c: Coord, positions: map<nat, int>)
    requires c.Merged()
    ensures c.(positions := positions).Merged()
  {
    assert c.(positions := positions).Sources() == c.Sources();
  }

  lemma StepMerged(c: Coord, op: Op, c': Coord)
    requires c.Merged() && Step(c, op, c')
    ensures c'.Merged()
  {
    if !Remerges(c, op) {
      StepKeeps(c, op, c');
      PositionsIrrelevant(c, c'.positions);
    }
  }

  lemma MergedNext(cs: seq<Coord>, ops: seq<Op>, k: nat)
    requires Runs(cs, ops) && k < |ops| && cs[k].Merged()
    ensures cs[k + 1].Merged()
  {
    assert StepAt(cs, ops, k);
    StepMerged(cs[k], ops[k], cs[k + 1]);
  }

  /** The published demand is exact after every operation of every run. */
  lemma {:induction false} AlwaysMerged(cs: seq<Coord>, ops: seq<Op>, k: nat)
    requires Runs(cs, ops) && cs[0].Merged() && k < |cs|
    ensures cs[k].Merged()
  {
    if k > 0 {
      AlwaysMerged(cs, ops, k - 1);
      MergedNext(cs, ops, k - 1);
    }
  }

  predicate Renews(op: Op) {
    op.PrepareResume? || op.HoldResume?
  }

  lemma StepGeneration(c: Coord, op: Op, c': Coord)
    requires Step(c, op, c')
    ensures c'.generation == c.generation + if Renews(op) then 1 else 0
  {
  }

  function Renewals(ops: seq<Op>, a: nat, b: nat): nat
    requires a <= b <= |ops|
  {
    if a == b then 0 else Renewals(ops, a, b - 1) + if Renews(ops[b - 1]) then 1 else 0
  }

  lemma {:induction false} NoRenewals(ops: seq<Op>, a: nat, b: nat)
    requires a <= b <= |ops|
    ensures Renewals(ops, a, b) == 0 <==> forall k :: a <= k < b ==> !Renews(ops[k])
  {
    if a < b {
      NoRenewals(ops, a, b - 1);
    }
  }

  lemma {:induction false} GenerationCounts(cs: seq<Coord>, ops: seq<Op>, a: nat, b: nat)
    requires Runs(cs, ops) && a <= b < |cs|
    ensures cs[b].generation == cs[a].generation + Renewals(ops, a, b)
  {
    if a < b {
      GenerationCounts(cs, ops, a, b - 1);
      assert StepAt(cs, ops, b - 1);
      StepGeneration(cs[b - 1], ops[b - 1], cs[b]);
    }
  }

  lemma ExpireStep(c: Coord, g: nat, c': Coord)
    requires Step(c, ExpireResume(g), c')
    ensures c.generation != g ==> c' == c
    ensures c.generation == g ==> c'.resume == map[] && c'.Merged()
  {
  }

  lemma ExpireAt(cs: seq<Coord>, ops: seq<Op>, b: nat, g: nat)
    requires Runs(cs, ops) && b < |ops| && ops[b] == ExpireResume(g)
    ensures cs[b].generation != g ==> cs[b + 1] == cs[b]
    ensures cs[b].generation == g ==> cs[b + 1].resume == map[] && cs[b + 1].Merged()
  {
    assert StepAt(cs, ops, b);
    ExpireStep(cs[b], g, cs[b + 1]);
  }

  /** The timer of a resume hold that was set at step `a`, firing at step `b`: if another hold or
      prepare came in between it changes nothing at all, and if none did the hold ends. */
  lemma ExpiryMatchesItsHold(cs: seq<Coord>, ops: seq<Op>, a: nat, b: nat)
    requires Runs(cs, ops) && a < b < |ops|
    requires Renews(ops[a]) && ops[b] == ExpireResume(cs[a + 1].generation)
    ensures Renewals(ops, a + 1, b) > 0 ==> cs[b + 1] == cs[b]
    ensures Renewals(ops, a + 1, b) == 0 ==> cs[b + 1].resume == map[] && cs[b + 1].Merged()
    ensures Renewals(ops, a + 1, b) == 0 <==> forall k :: a < k < b ==> !Renews(ops[k])
  {
    GenerationCounts(cs, ops, a + 1, b);
    NoRenewals(ops, a + 1, b);
    ExpireAt(cs, ops, b, cs[a + 1].generation);
  }

  // ------------------------------------------------------------ what a run publishes, from its operations alone

  /** A coordinator nobody used yet. */
  predicate Unused(c: Coord) {
    c == Coord(map[], map[], map[], map[], map[], map[], 0, map[])
  }

  predicate Concerns(op: Op, id: SessionId) {
    (op.Update? || op.Remove?) && op.session == id
  }

  /** Operation `k` is the session's latest update of the first `n`, and it was not removed since. */
  ghost predicate Asks(ops: seq<Op>, n: nat, id: SessionId, k: nat) {
    k < n <= |ops| && ops[k].Update? && ops[k].session == id && forall j :: k < j < n ==> !Concerns(ops[j], id)
  }

  /** Operation `k` is the last of the first `n` to set the hints, the focus or the preview. */
  ghost predicate LastHints(ops: seq<Op>, n: nat, k: nat) {
    k < n <= |ops| && ops[k].SetHints? && forall j :: k < j < n ==> !ops[j].SetHints?
  }

  ghost predicate LastFocus(ops: seq<Op>, n: nat, k: nat) {
    k < n <= |ops| && ops[k].SetFocus? && forall j :: k < j < n ==> !ops[j].SetFocus?
  }

  ghost predicate LastPreview(ops: seq<Op>, n: nat, k: nat) {
    k < n <= |ops| && ops[k].SetPreview? && forall j :: k < j < n ==> !ops[j].SetPreview?
  }

  /** Operation `k` holds a place that nothing of the first `n` has ended: no later hold or prepare,
      and no expiry of its own generation. */
  ghost predicate Holding(ops: seq<Op>, n: nat, k: nat) {
    k < n <= |ops| && ops[k].HoldResume? &&
    forall j :: k < j < n ==> !Renews(ops[j]) && ops[j] != ExpireResume(Renewals(ops, 0, k + 1))
  }

  /** What the `n`th operation does to each input of the merge. */
  lemma InputsStep(cs: seq<Coord>, ops: seq<Op>, n: nat)
    requires Runs(cs, ops) && 0 < n < |cs|
    ensures var op, c, c' := ops[n - 1], cs[n - 1], cs[n];
            && c'.owners == (if op.Update? then c.owners[op.session := op.demand]
                             else if op.Remove? then c.owners - {op.session} else c.owners)
            && c'.hints == (if op.SetHints? then op.demand else c.hints)
            && c'.focus == (if op.SetFocus? then op.demand else c.focus)
            && c'.preview == (if op.SetPreview? then op.demand else c.preview)
            && c'.resume == (if op.HoldResume? then op.demand
                             else if op.PrepareResume? || op == ExpireResume(c.generation) then map[] else c.resume)
            && c'.positions == (if op.PrepareResume? || (op.RememberResume? && op.file !in c.positions)
                                then c.positions[op.file := op.offset] else c.positions)
  {
    assert StepAt(cs, ops, n - 1);
  }

  /** A session has a demand if and only if it was updated and not removed since; it is the one of
      the latest update. */
  lemma {:induction false} OwnersExactly(cs: seq<Coord>, ops: seq<Op>, n: nat, id: SessionId)
    requires Runs(cs, ops) && Unused(cs[0]) && n < |cs|
    ensures id in cs[n].owners <==> exists k: nat :: Asks(ops, n, id, k)
    ensures forall k: nat :: Asks(ops, n, id, k) ==> id in cs[n].owners && cs[n].owners[id] == ops[k].demand
  {
    if n > 0 {
      OwnersExactly(cs, ops, n - 1, id);
      InputsStep(cs, ops, n);
      AsksStep(ops, n, id);
      if !Concerns(ops[n - 1], id) && id in cs[n - 1].owners {
        var k: nat :| Asks(ops, n - 1, id, k);
        assert Asks(ops, n, id, k);
      }
    }
  }

  lemma AsksStep(ops: seq<Op>, n: nat, id: SessionId)
    requires 0 < n <= |ops|
    ensures forall k: nat :: Asks(ops, n, id, k) <==>
              if Concerns(ops[n - 1], id) then k == n - 1 && ops[n - 1].Update? else Asks(ops, n - 1, id, k)
    ensures ops[n - 1].Update? && ops[n - 1].session == id ==> Asks(ops, n, id, n - 1)
    ensures !Concerns(ops[n - 1], id) ==> forall k: nat :: Asks(ops, n - 1, id, k) ==> Asks(ops, n, id, k)
  {
  }

  /** The hints are the last ones set. */
  lemma {:induction false} HintsExactly(cs: seq<Coord>, ops: seq<Op>, n: nat)
    requires Runs(cs, ops) && Unused(cs[0]) && n < |cs|
    ensures forall k: nat :: LastHints(ops, n, k) ==> cs[n].hints == ops[k].demand
    ensures cs[n].hints == map[] || exists k: nat :: LastHints(ops, n, k)
  {
    if n > 0 {
      HintsExactly(cs, ops, n - 1);
      InputsStep(cs, ops, n);
      assert ops[n - 1].SetHints? ==> LastHints(ops, n, n - 1);
      if !ops[n - 1].SetHints? {
        assert forall k: nat :: LastHints(ops, n, k) <==> LastHints(ops, n - 1, k);
        if cs[n].hints != map[] {
          var k: nat :| LastHints(ops, n - 1, k);
          assert LastHints(ops, n, k);
        }
      }
    }
  }

  /** So is the focus. */
  lemma {:induction false} FocusExactly(cs: seq<Coord>, ops: seq<Op>, n: nat)
    requires Runs(cs, ops) && Unused(cs[0]) && n < |cs|
    ensures forall k: nat :: LastFocus(ops, n, k) ==> cs[n].focus == ops[k].demand
    ensures cs[n].focus == map[] || exists k: nat :: LastFocus(ops, n, k)
  {
    if n > 0 {
      FocusExactly(cs, ops, n - 1);
      InputsStep(cs, ops, n);
      assert ops[n - 1].SetFocus? ==> LastFocus(ops, n, n - 1);
      if !ops[n - 1].SetFocus? {
        assert forall k: nat :: LastFocus(ops, n, k) <==> LastFocus(ops, n - 1, k);
        if cs[n].focus != map[] {
          var k: nat :| LastFocus(ops, n - 1, k);
          assert LastFocus(ops, n, k);
        }
      }
    }
  }

  /** And the preview demand. */
  lemma {:induction false} PreviewExactly(cs: seq<Coord>, ops: seq<Op>, n: nat)
    requires Runs(cs, ops) && Unused(cs[0]) && n < |cs|
    ensures forall k: nat :: LastPreview(ops, n, k) ==> cs[n].preview == ops[k].demand
    ensures cs[n].preview == map[] || exists k: nat :: LastPreview(ops, n, k)
  {
    if n > 0 {
      PreviewExactly(cs, ops, n - 1);
      InputsStep(cs, ops, n);
      assert ops[n - 1].SetPreview? ==> LastPreview(ops, n, n - 1);
      if !ops[n - 1].SetPreview? {
        assert forall k: nat :: LastPreview(ops, n, k) <==> LastPreview(ops, n - 1, k);
        if cs[n].preview != map[] {
          var k: nat :| LastPreview(ops, n - 1, k);
          assert LastPreview(ops, n, k);
        }
      }
    }
  }

  /** The resume demand is the one of a hold that nothing has ended, or nothing. */
  lemma {:induction false} ResumeExactly(cs: seq<Coord>, ops: seq<Op>, n: nat)
    requires Runs(cs, ops) && Unused(cs[0]) && n < |cs|
    ensures forall k: nat :: Holding(ops, n, k) ==> cs[n].resume == ops[k].demand
    ensures cs[n].resume == map[] || exists k: nat :: Holding(ops, n, k)
  {
    if n > 0 {
      ResumeExactly(cs, ops, n - 1);
      InputsStep(cs, ops, n);
      GenerationCounts(cs, ops, 0, n - 1);
      if ops[n - 1].ExpireResume? {
        ExpiryEnds(ops, n);
      } else {
        HoldingStep(ops, n);
      }
      if cs[n].resume != map[] && !ops[n - 1].HoldResume? {
        var k: nat :| Holding(ops, n - 1, k);
        assert Holding(ops, n, k);
      }
    }
  }

  lemma HoldingStep(ops: seq<Op>, n: nat)
    requires 0 < n <= |ops| && !ops[n - 1].ExpireResume?
    ensures forall k: nat :: Holding(ops, n, k) <==>
              if Renews(ops[n - 1]) then k == n - 1 && ops[n - 1].HoldResume? else Holding(ops, n - 1, k)
    ensures ops[n - 1].HoldResume? ==> Holding(ops, n, n - 1)
    ensures !Renews(ops[n - 1]) ==> forall k: nat :: Holding(ops, n - 1, k) ==> Holding(ops, n, k)
  {
  }

  /** An expiry ends a hold if and only if it is of the current generation: a hold that is still on
      was the last renewal. */
  lemma ExpiryEnds(ops: seq<Op>, n: nat)
    requires 0 < n <= |ops| && ops[n - 1].ExpireResume?
    ensures forall k: nat :: Holding(ops, n, k) <==>
              Holding(ops, n - 1, k) && ops[n - 1].generation != Renewals(ops, 0, n - 1)
    ensures ops[n - 1].generation != Renewals(ops, 0, n - 1) ==> forall k: nat :: Holding(ops, n - 1, k) ==> Holding(ops, n, k)
  {
    forall k: nat
      ensures Holding(ops, n, k) <==> Holding(ops, n - 1, k) && ops[n - 1].generation != Renewals(ops, 0, n - 1)
    {
      if Holding(ops, n - 1, k) {
        NoRenewals(ops, k + 1, n - 1);
        RenewalsAdd(ops, 0, k + 1, n - 1);
      }
    }
  }

  lemma {:induction false} RenewalsAdd(ops: seq<Op>, a: nat, b: nat, c: nat)
    requires a <= b <= c <= |ops|
    ensures Renewals(ops, a, c) == Renewals(ops, a, b) + Renewals(ops, b, c)
  {
    if b < c {
      RenewalsAdd(ops, a, b, c - 1);
    }
  }

  predicate Places(op: Op, file: nat) {
    (op.PrepareResume? || op.RememberResume?) && op.file == file
  }

  /** Operation `k` gave the file its position: its latest prepare, or without one the first time it
      was remembered. */
  ghost predicate PlacedBy(ops: seq<Op>, n: nat, file: nat, k: nat) {
    && k < n <= |ops| && Places(ops[k], file)
    && (forall j :: k < j < n && Places(ops[j], file) ==> ops[j].RememberResume?)
    && (ops[k].RememberResume? ==> forall j :: 0 <= j < k ==> !Places(ops[j], file))
  }

  /** A file has a position once it was remembered or prepared. */
  lemma {:induction false} PositionsKnown(cs: seq<Coord>, ops: seq<Op>, n: nat, file: nat)
    requires Runs(cs, ops) && Unused(cs[0]) && n < |cs|
    ensures file in cs[n].positions <==> exists k :: 0 <= k < n && Places(ops[k], file)
  {
    if n > 0 {
      PositionsKnown(cs, ops, n - 1, file);
      InputsStep(cs, ops, n);
      if k :| 0 <= k < n && Places(ops[k], file) {
        assert k < n - 1 || Places(ops[n - 1], file);
      }
    }
  }

  /** It is the one of the latest prepare, or without one the first remembered. */
  lemma {:induction false} PositionsExactly(cs: seq<Coord>, ops: seq<Op>, n: nat, file: nat, k: nat)
    requires Runs(cs, ops) && Unused(cs[0]) && n < |cs| && PlacedBy(ops, n, file, k)
    ensures file in cs[n].positions && cs[n].positions[file] == ops[k].offset
    decreases n
  {
    InputsStep(cs, ops, n);
    if k < n - 1 {
      PositionsExactly(cs, ops, n - 1, file, k);
    } else if ops[k].RememberResume? {
      PositionsKnown(cs, ops, n - 1, file);
    }
  }

  /** One of the demands that count after the first `n` operations. */
  ghost predicate Live(ops: seq<Op>, n: nat, d: Demand) {
    || (exists id: SessionId, k: nat :: Asks(ops, n, id, k) && ops[k].demand == d)
    || (exists k: nat :: LastHints(ops, n, k) && ops[k].demand == d)
    || (exists k: nat :: LastFocus(ops, n, k) && ops[k].demand == d)
    || (exists k: nat :: LastPreview(ops, n, k) && ops[k].demand == d)
    || (exists k: nat :: Holding(ops, n, k) && ops[k].demand == d)
  }

  /** `p` is the highest priority these demands ask of piece `i`. */
  ghost predicate Highest(ops: seq<Op>, n: nat, i: PieceIndex, p: PiecePriority) {
    && (exists d: Demand :: Live(ops, n, d) && i in d && d[i] == p)
    && (forall d: Demand :: Live(ops, n, d) && i in d ==> d[i].Rank() <= p.Rank())
  }

  /** Two sessions ask. */
  ghost predicate Crowded(ops: seq<Op>, n: nat) {
    exists a: SessionId, b: SessionId, j: nat, k: nat :: a != b && Asks(ops, n, a, j) && Asks(ops, n, b, k)
  }

  /** A preview is wanted while a session asks. */
  ghost predicate Previewed(ops: seq<Op>, n: nat) {
    (exists k: nat :: LastPreview(ops, n, k) && ops[k].demand != map[]) && exists id: SessionId, k: nat :: Asks(ops, n, id, k)
  }

  lemma SourcesAreLive(cs: seq<Coord>, ops: seq<Op>, n: nat, d: Demand)
    requires Runs(cs, ops) && Unused(cs[0]) && n < |cs| && d in cs[n].Sources()
    ensures Live(ops, n, d) || d == map[]
  {
    HintsExactly(cs, ops, n);
    FocusExactly(cs, ops, n);
    PreviewExactly(cs, ops, n);
    ResumeExactly(cs, ops, n);
    if d in cs[n].owners.Values {
      var id :| id in cs[n].owners && cs[n].owners[id] == d;
      OwnersExactly(cs, ops, n, id);
    }
  }

  lemma LiveAreSources(cs: seq<Coord>, ops: seq<Op>, n: nat, d: Demand)
    requires Runs(cs, ops) && Unused(cs[0]) && n < |cs| && Live(ops, n, d)
    ensures d in cs[n].Sources()
  {
    HintsExactly(cs, ops, n);
    FocusExactly(cs, ops, n);
    PreviewExactly(cs, ops, n);
    ResumeExactly(cs, ops, n);
    if id: SessionId, k: nat :| Asks(ops, n, id, k) && ops[k].demand == d {
      OwnersExactly(cs, ops, n, id);
      assert cs[n].owners[id] in cs[n].owners.Values;
    }
  }

  lemma SharedExactly(cs: seq<Coord>, ops: seq<Op>, n: nat)
    requires Runs(cs, ops) && Unused(cs[0]) && n < |cs|
    ensures cs[n].Shared() <==> Crowded(ops, n)
  {
    var owners := cs[n].owners;
    if Crowded(ops, n) {
      var a: SessionId, b: SessionId, j: nat, k: nat :| a != b && Asks(ops, n, a, j) && Asks(ops, n, b, k);
      OwnersExactly(cs, ops, n, a);
      OwnersExactly(cs, ops, n, b);
      TwoKeys(owners, a, b);
    }
    if cs[n].Shared() {
      var a :| a in owners;
      var b := OtherKey(owners, a);
      OwnersExactly(cs, ops, n, a);
      OwnersExactly(cs, ops, n, b);
      var j: nat :| Asks(ops, n, a, j);
      var k: nat :| Asks(ops, n, b, k);
    }
  }

  lemma PreviewFirstExactly(cs: seq<Coord>, ops: seq<Op>, n: nat)
    requires Runs(cs, ops) && Unused(cs[0]) && n < |cs|
    ensures cs[n].PreviewFirst() <==> Previewed(ops, n)
  {
    PreviewExactly(cs, ops, n);
    if cs[n].PreviewFirst() {
      var k: nat :| LastPreview(ops, n, k);
      assert ops[k].demand != map[];
      var a :| a in cs[n].owners;
      OwnersExactly(cs, ops, n, a);
    }
    if Previewed(ops, n) {
      var id: SessionId, k: nat :| Asks(ops, n, id, k);
      OwnersExactly(cs, ops, n, id);
    }
  }

  lemma TwoKeys(owners: map<SessionId, Demand>, a: SessionId, b: SessionId)
    requires a in owners && b in owners && a != b
    ensures |owners| > 1
  {
    var rest := owners.Keys - {a};
    assert b in rest && owners.Keys == rest + {a};
    assert |owners.Keys| == |rest| + 1;
  }

  lemma OtherKey(owners: map<SessionId, Demand>, a: SessionId) returns (b: SessionId)
    requires a in owners && |owners| > 1
    ensures b in owners && b != a
  {
    var rest := owners.Keys - {a};
    assert owners.Keys == rest + {a} && |owners.Keys| == |rest| + 1;
    b :| b in rest;
  }

  /** After any operations, a piece is in the published demand if and only if a demand that counts
      asks for it, and its priority is the highest of those, capped while two sessions ask and while
      a preview is wanted. */
  lemma PublishedExactly(cs: seq<Coord>, ops: seq<Op>, n: nat, i: PieceIndex)
    requires Runs(cs, ops) && Unused(cs[0]) && n < |cs|
    ensures i in cs[n].effective <==> exists d :: Live(ops, n, d) && i in d
    ensures forall p :: Highest(ops, n, i, p) ==>
              i in cs[n].effective && cs[n].effective[i] == Capped(Crowded(ops, n), Previewed(ops, n), p)
  {
    var c := cs[n];
    EmptyIsMerged(cs[0]);
    AlwaysMerged(cs, ops, n);
    SharedExactly(cs, ops, n);
    PreviewFirstExactly(cs, ops, n);
    forall d | i in d
      ensures d in c.Sources() <==> Live(ops, n, d)
    {
      if d in c.Sources() {
        SourcesAreLive(cs, ops, n, d);
      }
      if Live(ops, n, d) {
        LiveAreSources(cs, ops, n, d);
      }
    }
    forall p | Highest(ops, n, i, p)
      ensures i in c.effective && c.effective[i] == Capped(Crowded(ops, n), Previewed(ops, n), p)
    {
      assert Top(c.Sources(), i, p);
      assert Asked(c.Sources(), i);
      var q :| Top(c.Sources(), i, q) && c.effective[i] == Capped(c.Shared(), c.PreviewFirst(), q);
      TopOnce(c.Sources(), i, p, q);
    }
  }

  lemma EmptyIsMerged(c: Coord)
    requires Unused(c)
    ensures c.Merged()
  {
    assert c.Sources() == {map[]};
  }

  /** The shared coordinator of one torrent. */
  class PlaybackCoordinator {
    var owners: map<SessionId, Demand>
    var hints: Demand
    var focus: Demand
    var resume: Demand
    var preview: Demand
    var effective: Demand
    var generation: nat
    var positions: map<nat, int>

    function Abs(): Coord
      reads this
    {
      Coord(owners, hints, focus, resume, preview, effective, generation, positions)
    }

    constructor ()
      ensures Abs() == Coord(map[], map[], map[], map[], map[], map[], 0, map[]) && Abs().Merged()
    {
      owners, hints, focus, resume, preview, effective := map[], map[], map[], map[], map[], map[];
      generation, positions := 0, map[];
    }

    method ApplyLocked()
      modifies this`effective
      ensures Abs() == old(Abs()).(effective := effective) && Abs().Merged()
    {
      effective := Merge(Abs());
    }

    method SetFocus(demand: Demand)
      modifies this
      ensures Step(old(Abs()), Op.SetFocus(demand), Abs())
    {
      if focus == demand {
        return;
      }
      focus := demand;
      ApplyLocked();
    }

    method SetHints(demand: Demand)
      modifies this
      ensures Step(old(Abs()), Op.SetHints(demand), Abs())
    {
      hints := demand;
      ApplyLocked();
    }

    method SetPreview(demand: Demand)
      modifies this
      ensures Step(old(Abs()), Op.SetPreview(demand), Abs())
    {
      preview := demand;
      ApplyLocked();
    }

    method RememberResume(file: nat, offset: int)
      modifies this
      ensures Step(old(Abs()), Op.RememberResume(file, offset), Abs())
    {
      if file !in positions {
        positions := positions[file := offset];
      }
    }

    method PrepareResume(file: nat, offset: int)
      modifies this
      ensures Step(old(Abs()), Op.PrepareResume(file, offset), Abs())
    {
      positions := positions[file := offset];
      generation := generation + 1;
      resume := map[];
      ApplyLocked();
    }

    method HoldResume(demand: Demand) returns (g: nat)
      modifies this
      ensures Step(old(Abs()), Op.HoldResume(demand), Abs()) && g == generation
    {
      generation := generation + 1;
      resume := demand;
      ApplyLocked();
      g := generation;
    }

    method ExpireResume(g: nat) returns (r: Option<Demand>)
      modifies this
      ensures Step(old(Abs()), Op.ExpireResume(g), Abs())
      ensures r == if old(generation) == g then Some(effective) else None
    {
      if generation != g {
        return None;
      }
      resume := map[];
      ApplyLocked();
      return Some(effective);
    }

    method Update(session: SessionId, demand: Demand) returns (r: Demand)
      modifies this
      ensures Step(old(Abs()), Op.Update(session, demand), Abs()) && r == effective
    {
      owners := owners[session := demand];
      ApplyLocked();
      StepIs(old(Abs()), Op.Update(session, demand), Abs());
      r := effective;
    }

    method Remove(session: SessionId) returns (r: Demand)
      modifies this
      ensures Step(old(Abs()), Op.Remove(session), Abs()) && r == effective
    {
      owners := owners - {session};
      ApplyLocked();
      StepIs(old(Abs()), Op.Remove(session), Abs());
      r := effective;
    }
  }
}
