/** The block write reservation, one atomic flag access at a time: any number of threads deliver
    blocks while failed hashes and evictions clear received bits at any moment. */
module Reservation {
  import opened Types

  /** Where a thread is inside begin_chunk_write, the storage write and finish_chunk_write. */
  datatype Phase =
    | Checking    // about to look at the piece
    | Looking     // about to read the received bit
    | Grabbing    // about to set the writing bit
    | Rechecking  // has the reservation, about to read the received bit again
    | Backing     // found the block received after all, about to give the reservation back
    | Writing     // storage is writing the block
    | Marking     // storage succeeded, about to set the received bit
    | Releasing   // about to clear the writing bit
    | Finished

  datatype Thread = Thread(req: RequestIndex, phase: Phase) {
    /** Between winning the writing bit and clearing it. */
    predicate Holds() {
      phase in {Rechecking, Backing, Writing, Marking, Releasing}
    }
  }

  /** `writes[r]`: storage writes of block `r` that succeeded since its received bit was last cleared. */
  datatype State = State(
    capacity: nat,
    dirty: set<RequestIndex>,
    writing: set<RequestIndex>,
    threads: map<nat, Thread>,
    writes: map<RequestIndex, nat>)
  {
    function WritesOf(req: RequestIndex): nat {
      if req in writes then writes[req] else 0
    }
  }

  datatype Event =
    | Arrive(id: nat, req: RequestIndex)
    | CheckPiece(id: nat, open: bool)
    | Look(id: nat)
    | Grab(id: nat)
    | LookAgain(id: nat)
    | BackOff(id: nat)
    | Store(id: nat, ok: bool)
    | Mark(id: nat)
    | Release(id: nat)
    | Clear(reqs: set<RequestIndex>)

  predicate At(s: State, id: nat, phase: Phase) {
    id in s.threads && s.threads[id].phase == phase
  }

  predicate Enabled(s: State, e: Event) {
    match e
    case Arrive(id, _) => id !in s.threads
    case CheckPiece(id, _) => At(s, id, Checking)
    case Look(id) => At(s, id, Looking)
    case Grab(id) => At(s, id, Grabbing)
    case LookAgain(id) => At(s, id, Rechecking)
    case BackOff(id) => At(s, id, Backing)
    case Store(id, _) => At(s, id, Writing)
    case Mark(id) => At(s, id, Marking)
    case Release(id) => At(s, id, Releasing)
    case Clear(_) => true
  }

  function Go(s: State, id: nat, phase: Phase): State
    requires id in s.threads
  {
    s.(threads := s.threads[id := s.threads[id].(phase := phase)])
  }

  /** Bit sets ignore indexes past their capacity; setting such a bit looks like winning it. */
  function Apply(s: State, e: Event): State
    requires Enabled(s, e)
  {
    match e
    case Arrive(id, req) => s.(threads := s.threads[id := Thread(req, Checking)])
    case CheckPiece(id, open) => Go(s, id, if open then Looking else Finished)
    case Look(id) => Go(s, id, if s.threads[id].req in s.dirty then Finished else Grabbing)
    case Grab(id) =>
      var req := s.threads[id].req;
      if req >= s.capacity then Go(s, id, Rechecking)
      else if req in s.writing then Go(s, id, Finished)
      else Go(s, id, Rechecking).(writing := s.writing + {req})
    case LookAgain(id) => Go(s, id, if s.threads[id].req in s.dirty then Backing else Writing)
    case BackOff(id) => Go(s, id, Finished).(writing := s.writing - {s.threads[id].req})
    case Store(id, ok) =>
      var req := s.threads[id].req;
      if ok then Go(s, id, Marking).(writes := s.writes[req := s.WritesOf(req) + 1]) else Go(s, id, Releasing)
    case Mark(id) =>
      var req := s.threads[id].req;
      Go(s, id, Releasing).(dirty := if req < s.capacity then s.dirty + {req} else s.dirty)
    case Release(id) => Go(s, id, Finished).(writing := s.writing - {s.threads[id].req})
    case Clear(reqs) => s.(dirty := s.dirty - reqs, writes := s.writes - reqs)
  }

  function Start(capacity: nat): State {
    State(capacity, {}, {}, map[], map[])
  }

  predicate Runs(s: State, events: seq<Event>)
    decreases |events|
  {
    events == [] || (Enabled(s, events[0]) && Runs(Apply(s, events[0]), events[1..]))
  }

  function After(s: State, events: seq<Event>): State
    requires Runs(s, events)
    decreases |events|
  {
    if events == [] then s else After(Apply(s, events[0]), events[1..])
  }

  predicate HoldsBlock(s: State, id: nat, req: RequestIndex) {
    id in s.threads && s.threads[id].Holds() && s.threads[id].req == req
  }

  ghost predicate AtMostOneHolder(s: State, req: RequestIndex) {
    forall i, j :: HoldsBlock(s, i, req) && HoldsBlock(s, j, req) ==> i == j
  }

  /** The invariant of one block whose bits exist. */
  ghost predicate Guarded(s: State, req: RequestIndex) {
    && AtMostOneHolder(s, req)
    && (req in s.writing <==> exists i :: HoldsBlock(s, i, req))
    && (forall i :: HoldsBlock(s, i, req) && s.threads[i].phase in {Writing, Marking} ==> req !in s.dirty)
    && s.WritesOf(req) <= 1
    && (s.WritesOf(req) == 1 ==> req in s.dirty || exists i :: HoldsBlock(s, i, req) && s.threads[i].phase == Marking)
  }

  /** The writing bit is set exactly while somebody holds the block: it is never left behind. */
  lemma HoldersStep(s: State, e: Event, req: RequestIndex)
    requires req < s.capacity && Guarded(s, req) && Enabled(s, e)
    ensures req in Apply(s, e).writing <==> exists i :: HoldsBlock(Apply(s, e), i, req)
  {
    var s' := Apply(s, e);
    if i :| HoldsBlock(s, i, req) && (e.Clear? || e.id != i) {
      assert HoldsBlock(s', i, req);
    }
    if !e.Clear? && !e.Arrive? && s.threads[e.id].req == req {
      assert HoldsBlock(s, e.id, req) <==> s.threads[e.id].Holds();
      assert HoldsBlock(s', e.id, req) <==> s'.threads[e.id].Holds();
    }
    if i :| HoldsBlock(s', i, req) && (e.Clear? || e.id != i) {
      assert HoldsBlock(s, i, req);
    }
  }

  lemma StepKeeps(s: State, e: Event, req: RequestIndex)
    requires req < s.capacity && Guarded(s, req) && Enabled(s, e)
    ensures Guarded(Apply(s, e), req)
  {
    var s' := Apply(s, e);
    HoldersStep(s, e, req);
    assert forall i :: HoldsBlock(s', i, req) ==>
             HoldsBlock(s, i, req) || (e.Grab? && i == e.id && req !in s.writing);
    assert !e.Clear? && !e.Arrive? ==>
             (HoldsBlock(s, e.id, req) <==> s.threads[e.id].Holds() && s.threads[e.id].req == req);
    if s.WritesOf(req) == 1 && req !in s.dirty {
      var i :| HoldsBlock(s, i, req) && s.threads[i].phase == Marking;
      if s'.WritesOf(req) == 1 && req !in s'.dirty {
        assert HoldsBlock(s', i, req) && s'.threads[i].phase == Marking;
      }
    } else if s'.WritesOf(req) == 1 && req !in s'.dirty {
      assert HoldsBlock(s', e.id, req) && s'.threads[e.id].phase == Marking;
    }
  }

  lemma {:induction false} RunKeeps(s: State, events: seq<Event>, req: RequestIndex)
    requires req < s.capacity && Guarded(s, req) && Runs(s, events)
    ensures Guarded(After(s, events), req)
    decreases |events|
  {
    if events != [] {
      StepKeeps(s, events[0], req);
      RunKeeps(Apply(s, events[0]), events[1..], req);
    }
  }

  /** In every interleaving a block inside the bit sets has at most one reservation holder, its
      writer never finds it received already, its writing bit is set exactly while it has a holder,
      and storage successfully writes it at most once between two clearings of its received bit. */
  lemma WrittenOncePerClearing(capacity: nat, events: seq<Event>, req: RequestIndex, id: nat)
    requires req < capacity && Runs(Start(capacity), events)
    ensures var s := After(Start(capacity), events);
            && AtMostOneHolder(s, req)
            && (At(s, id, Writing) && s.threads[id].req == req ==> req !in s.dirty)
            && (req in s.writing <==> exists i :: HoldsBlock(s, i, req))
            && Stores(Start(capacity), events, req, 0) <= 1
  {
    RunKeeps(Start(capacity), events, req);
    StoresAreCounted(Start(capacity), events, req);
    var s := After(Start(capacity), events);
    assert At(s, id, Writing) && s.threads[id].req == req ==> HoldsBlock(s, id, req);
  }

  /** Successful storage writes of `req` since its received bit was last cleared, from the events;
      `n` before them. */
  function Stores(s: State, events: seq<Event>, req: RequestIndex, n: nat): nat
    requires Runs(s, events)
    decreases |events|
  {
    if events == [] then n
    else
      var e := events[0];
      var n' := if e.Store? && e.ok && s.threads[e.id].req == req then n + 1
                else if e.Clear? && req in e.reqs then 0 else n;
      Stores(Apply(s, e), events[1..], req, n')
  }

  lemma {:induction false} StoresAreCounted(s: State, events: seq<Event>, req: RequestIndex)
    requires Runs(s, events)
    ensures Stores(s, events, req, s.WritesOf(req)) == After(s, events).WritesOf(req)
    decreases |events|
  {
    if events != [] {
      StoresAreCounted(Apply(s, events[0]), events[1..], req);
    }
  }

  /** A block that is neither received nor being written can be written: a thread that finds it so and
      is not disturbed gets to write it. */
  lemma FreeIsTaken(s: State, id: nat, req: RequestIndex)
    requires id !in s.threads && req < s.capacity && Guarded(s, req) && req !in s.dirty
    requires forall i :: !HoldsBlock(s, i, req)
    ensures var run := [Arrive(id, req), CheckPiece(id, true), Look(id), Grab(id), LookAgain(id)];
            Runs(s, run) && At(After(s, run), id, Writing) && After(s, run).threads[id].req == req
  {
    var s1 := Apply(s, Arrive(id, req));
    var s2 := Apply(s1, CheckPiece(id, true));
    var s3 := Apply(s2, Look(id));
    var s4 := Apply(s3, Grab(id));
    var run := [Arrive(id, req), CheckPiece(id, true), Look(id), Grab(id), LookAgain(id)];
    var r1, r2, r3, r4 := run[1..], run[2..], run[3..], run[4..];
    assert r1[1..] == r2 && r2[1..] == r3 && r3[1..] == r4 && r4 == [LookAgain(id)];
    OneStep(s4, LookAgain(id));
    assert Runs(s3, r3) && After(s3, r3) == After(s4, r4);
    assert Runs(s2, r2) && After(s2, r2) == After(s3, r3);
    assert Runs(s1, r1) && After(s1, r1) == After(s2, r2);
  }

  /** Exclusion in every run. */
  ghost predicate Exclusive(capacity: nat, req: RequestIndex) {
    forall events :: Runs(Start(capacity), events) ==> AtMostOneHolder(After(Start(capacity), events), req)
  }

  /** Exactly the blocks inside the bit sets are exclusive: past their capacity everyone wins. */
  lemma ExclusiveExactly(capacity: nat, req: RequestIndex)
    ensures Exclusive(capacity, req) <==> req < capacity
  {
    if req < capacity {
      forall events | Runs(Start(capacity), events)
        ensures AtMostOneHolder(After(Start(capacity), events), req)
      {
        RunKeeps(Start(capacity), events, req);
      }
    } else {
      var one, two := Alone(0, req), Alone(1, req);
      GrabsAlone(Start(capacity), 0, req);
      var s := After(Start(capacity), one);
      GrabsAlone(s, 1, req);
      RunsAppend(Start(capacity), one, two);
      var both := After(Start(capacity), one + two);
      assert HoldsBlock(both, 0, req) && HoldsBlock(both, 1, req);
    }
  }

  function Alone(id: nat, req: RequestIndex): seq<Event> {
    [Arrive(id, req), CheckPiece(id, true), Look(id), Grab(id)]
  }

  lemma GrabsAlone(s: State, id: nat, req: RequestIndex)
    requires id !in s.threads && req >= s.capacity && req !in s.dirty
    ensures Runs(s, Alone(id, req))
    ensures After(s, Alone(id, req)) == s.(threads := s.threads[id := Thread(req, Rechecking)])
  {
    var run := Alone(id, req);
    var at := (phase: Phase) => s.(threads := s.threads[id := Thread(req, phase)]);
    assert run[1..] == [CheckPiece(id, true), Look(id), Grab(id)];
    assert run[1..][1..] == [Look(id), Grab(id)] && run[1..][1..][1..] == [Grab(id)];
    assert Apply(at(Grabbing), Grab(id)) == at(Rechecking);
    OneStep(at(Grabbing), Grab(id));
    assert Apply(at(Looking), Look(id)) == at(Grabbing);
    assert Apply(at(Checking), CheckPiece(id, true)) == at(Looking);
    assert Runs(at(Looking), run[1..][1..]) && After(at(Looking), run[1..][1..]) == at(Rechecking);
    assert Runs(at(Checking), run[1..]) && After(at(Checking), run[1..]) == at(Rechecking);
  }

  lemma OneStep(s: State, e: Event)
    requires Enabled(s, e)
    ensures Runs(s, [e]) && After(s, [e]) == Apply(s, e)
  {
    assert [e][1..] == [];
  }

  lemma {:induction false} RunsAppend(s: State, a: seq<Event>, b: seq<Event>)
    requires Runs(s, a) && Runs(After(s, a), b)
    ensures Runs(s, a + b) && After(s, a + b) == After(After(s, a), b)
    decreases |a|
  {
    if a == [] {
      assert a + b == b;
    } else {
      assert (a + b)[1..] == a[1..] + b;
      RunsAppend(Apply(s, a[0]), a[1..], b);
    }
  }
}
