/** The shared record of owners and second copies. */
module BlockTables {
  import opened Types

  /** An ownership claim and when it was made. */
  datatype Request = Request(peer: PeerKey, asked: int)

  /** The table seen from outside: each block's owner and its one optional second copy. */
  datatype Table = Table(owners: map<RequestIndex, Request>, seconds: map<RequestIndex, PeerKey>) {

    predicate OwnedBy(req: RequestIndex, peer: PeerKey) {
      req in owners && owners[req].peer == peer
    }

    predicate CopiedBy(req: RequestIndex, peer: PeerKey) {
      req in seconds && seconds[req] == peer
    }

    predicate HeldBy(req: RequestIndex, peer: PeerKey) {
      OwnedBy(req, peer) || CopiedBy(req, peer)
    }

    predicate MayClaim(req: RequestIndex, peer: PeerKey) {
      req in owners ==> owners[req].peer == peer
    }

    function Release(req: RequestIndex, peer: PeerKey): Table {
      if OwnedBy(req, peer) then this.(owners := owners - {req}) else this
    }

    function ReleaseSecond(req: RequestIndex, peer: PeerKey): Table {
      if CopiedBy(req, peer) then this.(seconds := seconds - {req}) else this
    }

    /** Drop everything `peer` holds among `reqs`. */
    function Withdraw(reqs: set<RequestIndex>, peer: PeerKey): Table {
      Table(owners - (set r | r in reqs && OwnedBy(r, peer)),
            seconds - (set r | r in reqs && CopiedBy(r, peer)))
    }

    /** Drop everything `peer` holds. */
    function Forget(peer: PeerKey): Table {
      Table(map r | r in owners && owners[r].peer != peer :: owners[r],
            map r | r in seconds && seconds[r] != peer :: seconds[r])
    }
  }

  /** One row of the hash map; a row exists only while somebody holds the block. */
  datatype Hold = Hold(owner: Option<Request>, second: Option<PeerKey>)

  const NOBODY := Hold(None, None)

  function RowOf(holds: map<RequestIndex, Hold>, req: RequestIndex): Hold {
    if req in holds then holds[req] else NOBODY
  }

  function TableOf(holds: map<RequestIndex, Hold>): Table {
    Table(map r | r in holds && holds[r].owner.Some? :: holds[r].owner.value,
          map r | r in holds && holds[r].second.Some? :: holds[r].second.value)
  }

  lemma SetRow(holds: map<RequestIndex, Hold>, req: RequestIndex, hold: Hold)
    ensures var t, t' := TableOf(holds), TableOf(holds[req := hold]);
            && t'.owners == (if hold.owner.Some? then t.owners[req := hold.owner.value] else t.owners - {req})
            && t'.seconds == (if hold.second.Some? then t.seconds[req := hold.second.value] else t.seconds - {req})
  {
  }

  lemma DropRow(holds: map<RequestIndex, Hold>, req: RequestIndex)
    ensures TableOf(holds - {req}) == Table(TableOf(holds).owners - {req}, TableOf(holds).seconds - {req})
  {
    assert TableOf(holds - {req}).owners == TableOf(holds).owners - {req};
    assert TableOf(holds - {req}).seconds == TableOf(holds).seconds - {req};
  }

  lemma KeepRow(t: Table, req: RequestIndex)
    ensures req in t.owners ==> t.owners[req := t.owners[req]] == t.owners
    ensures req in t.seconds ==> t.seconds[req := t.seconds[req]] == t.seconds
    ensures req !in t.owners ==> t.owners - {req} == t.owners
    ensures req !in t.seconds ==> t.seconds - {req} == t.seconds
  {
  }

  lemma ForgetRows(holds: map<RequestIndex, Hold>, holds': map<RequestIndex, Hold>, peer: PeerKey)
    requires forall r :: RowOf(holds', r) == Without(RowOf(holds, r), peer)
    ensures TableOf(holds') == TableOf(holds).Forget(peer)
  {
    forall r
      ensures r in TableOf(holds').owners <==> RowOf(holds', r).owner.Some?
      ensures r in TableOf(holds').seconds <==> RowOf(holds', r).second.Some?
    {
    }
    assert TableOf(holds').owners == TableOf(holds).Forget(peer).owners;
    assert TableOf(holds').seconds == TableOf(holds).Forget(peer).seconds;
  }

  /** The table as the engine stores it: hash-map rows, plus a bit per owned block that is read
      without a lock, plus a bit per block being written. Each method runs under its shard's
      lock and is one atomic step. Bits outside `0..limit` are dropped, as the bit sets do. */
  class BlockTable {
    var holds: map<RequestIndex, Hold>
    var owned: set<RequestIndex>
    var writing: set<RequestIndex>
    const limit: nat

    /** No row is left empty, and inside the bit sets the owned bit is set exactly where a row
        names an owner. */
    ghost predicate Valid()
      reads this
    {
      && (forall r <- holds :: holds[r] != NOBODY)
      && (forall r :: r in owned <==> r < limit && r in holds && holds[r].owner.Some?)
      && (forall r <- writing :: r < limit)
    }

    ghost function Abs(): Table
      reads this
    {
      TableOf(holds)
    }

    constructor (limit: nat)
      ensures Valid() && Abs() == Table(map[], map[]) && writing == {} && this.limit == limit
    {
      this.limit := limit;
      holds, owned, writing := map[], {}, {};
    }

    function IsOwned(req: RequestIndex): bool
      reads this
    {
      req in owned
    }

    function IsWriting(req: RequestIndex): bool
      reads this
    {
      req in writing
    }

    /** Sets the writing bit and says whether it was clear; without a bit the answer is always yes. */
    method BeginWrite(req: RequestIndex) returns (won: bool)
      requires Valid()
      modifies this`writing
      ensures Valid() && Abs() == old(Abs())
      ensures won <==> req !in old(writing) || req >= limit
      ensures writing == if req < limit then old(writing) + {req} else old(writing)
    {
      won := req !in writing || req >= limit;
      if req < limit {
        writing := writing + {req};
      }
    }

    method EndWrite(req: RequestIndex)
      requires Valid()
      modifies this`writing
      ensures Valid() && Abs() == old(Abs()) && writing == old(writing) - {req}
    {
      writing := writing - {req};
    }

    function Get(req: RequestIndex): Hold
      reads this
    {
      RowOf(holds, req)
    }

    function Owner(req: RequestIndex): (owner: Option<Request>)
      requires Valid()
      reads this
      ensures owner == if req < limit && req in Abs().owners then Some(Abs().owners[req]) else None
    {
      if IsOwned(req) then Get(req).owner else None
    }

    function Second(req: RequestIndex): (second: Option<PeerKey>)
      requires Valid()
      reads this
      ensures second == if req in Abs().seconds then Some(Abs().seconds[req]) else None
    {
      Get(req).second
    }

    function HeldBy(req: RequestIndex, peer: PeerKey): (held: bool)
      requires Valid()
      reads this
      ensures held <==> Abs().HeldBy(req, peer)
    {
      Get(req).second == Some(peer) || (Get(req).owner.Some? && Get(req).owner.value.peer == peer)
    }

    /** Puts the peer in the owner's place when that is empty or already its own. */
    method Claim(req: RequestIndex, peer: PeerKey, when: int) returns (claimed: bool)
      requires Valid()
      modifies this`holds, this`owned
      ensures Valid()
      ensures claimed == old(Abs()).MayClaim(req, peer)
      ensures Abs() == if claimed
                       then old(Abs()).(owners := old(Abs()).owners[req := Request(peer, when)])
                       else old(Abs())
    {
      var hold := Get(req);
      if hold.owner.Some? && hold.owner.value.peer != peer {
        return false;
      }
      SetRow(holds, req, hold.(owner := Some(Request(peer, when))));
      KeepRow(Abs(), req);
      holds := holds[req := hold.(owner := Some(Request(peer, when)))];
      if req < limit {
        owned := owned + {req};
      }
      return true;
    }

    method Release(req: RequestIndex, peer: PeerKey)
      requires Valid()
      modifies this`holds, this`owned
      ensures Valid() && Abs() == old(Abs()).Release(req, peer)
    {
      if req in holds && holds[req].owner.Some? && holds[req].owner.value.peer == peer {
        DropOwner(req);
      }
    }

    method ClearOwner(req: RequestIndex)
      requires Valid()
      modifies this`holds, this`owned
      ensures Valid() && Abs() == old(Abs()).(owners := old(Abs()).owners - {req})
    {
      if req in holds {
        DropOwner(req);
      }
    }

    /** Empties the owner of an existing row, and the row with it when no copy is left. */
    method DropOwner(req: RequestIndex)
      requires Valid() && req in holds
      modifies this`holds, this`owned
      ensures Valid() && Abs() == old(Abs()).(owners := old(Abs()).owners - {req})
    {
      KeepRow(Abs(), req);
      owned := owned - {req};
      if holds[req].second.None? {
        DropRow(holds, req);
        holds := holds - {req};
      } else {
        SetRow(holds, req, holds[req].(owner := None));
        holds := holds[req := holds[req].(owner := None)];
      }
    }

    /** Fills the place of the second copy, if it is empty. */
    method ClaimSecond(req: RequestIndex, peer: PeerKey) returns (claimed: bool)
      requires Valid()
      modifies this`holds
      ensures Valid()
      ensures claimed <==> req !in old(Abs()).seconds
      ensures Abs() == if claimed
                       then old(Abs()).(seconds := old(Abs()).seconds[req := peer])
                       else old(Abs())
    {
      var hold := Get(req);
      if hold.second.Some? {
        return false;
      }
      SetRow(holds, req, hold.(second := Some(peer)));
      KeepRow(Abs(), req);
      holds := holds[req := hold.(second := Some(peer))];
      return true;
    }

    method ClearSecond(req: RequestIndex)
      requires Valid()
      modifies this`holds
      ensures Valid() && Abs() == old(Abs()).(seconds := old(Abs()).seconds - {req})
    {
      if req in holds {
        KeepRow(Abs(), req);
        if holds[req].owner.None? {
          DropRow(holds, req);
          holds := holds - {req};
        } else {
          SetRow(holds, req, holds[req].(second := None));
          holds := holds[req := holds[req].(second := None)];
        }
      }
    }

    method ReleaseSecond(req: RequestIndex, peer: PeerKey)
      requires Valid()
      modifies this`holds
      ensures Valid() && Abs() == old(Abs()).ReleaseSecond(req, peer)
    {
      if req in holds && holds[req].second == Some(peer) {
        ClearSecond(req);
      }
    }

    /** Takes the row out, whoever it names. */
    method Clear(req: RequestIndex)
      requires Valid()
      modifies this`holds, this`owned
      ensures Valid()
      ensures Abs() == Table(old(Abs()).owners - {req}, old(Abs()).seconds - {req})
    {
      DropRow(holds, req);
      holds := holds - {req};
      owned := owned - {req};
    }

    /** Strikes the peer from every row. The rows are visited in any order. */
    method ForgetPeer(peer: PeerKey)
      requires Valid()
      modifies this`holds, this`owned
      ensures Valid() && Abs() == old(Abs()).Forget(peer)
    {
      var rows := holds.Keys;
      while rows != {}
        invariant Valid()
        invariant forall r :: r in rows ==> r in holds
        invariant forall r :: RowOf(holds, r) == if r in rows then RowOf(old(holds), r) else Without(RowOf(old(holds), r), peer)
        decreases rows
      {
        var r :| r in rows;
        rows := rows - {r};
        ForgetRow(r, peer);
      }
      ForgetRows(old(holds), holds, peer);
    }

    method ForgetRow(req: RequestIndex, peer: PeerKey)
      requires Valid() && req in holds
      modifies this`holds, this`owned
      ensures Valid()
      ensures forall r :: RowOf(holds, r) == if r == req then Without(RowOf(old(holds), r), peer) else RowOf(old(holds), r)
    {
      var hold := Without(holds[req], peer);
      if hold.owner.None? && holds[req].owner.Some? {
        owned := owned - {req};
      }
      holds := if hold == NOBODY then holds - {req} else holds[req := hold];
    }
  }

  function Without(hold: Hold, peer: PeerKey): Hold {
    Hold(if hold.owner.Some? && hold.owner.value.peer == peer then None else hold.owner,
         if hold.second == Some(peer) then None else hold.second)
  }
}
