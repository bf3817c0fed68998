/** Change notification: notify_progress skips the mutex when nobody waits, and wait_version
    registers before it looks. One step is one atomic access, lock operation or condition-variable
    operation, in a single sequentially consistent order. */
module Notify {
  import opened Types

  datatype Phase =
    // notify_progress
    | Bump                       // about to add one to the version
    | CheckWaiters(seen: nat)    // bumped to `seen`, about to read the waiter count
    | LockToNotify(seen: nat)    // about to lock
    | NotifyAll(seen: nat)       // locked, about to notify
    | UnlockNotifier
    | Notified
    // wait_version(after)
    | LockToWait(after: nat)
    | Register(after: nat)       // locked, about to count itself
    | Load(after: nat)           // about to read the version
    | Decide(after: nat, cur: nat)
    | FallAsleep(after: nat)     // locked, about to unlock and sleep in one step
    | Asleep(after: nat)
    | Relock(after: nat)         // awake, about to lock again
    | Leave(after: nat, cur: nat, timedOut: bool)
    | UnlockWaiter(after: nat, cur: nat, timedOut: bool)
    | Returned(after: nat, cur: nat, timedOut: bool)

  datatype State = State(version: nat, waiters: int, lock: Option<nat>, threads: map<nat, Phase>)

  datatype Event =
    | StartNotify(id: nat)
    | StartWait(id: nat, after: nat)
    | Step(id: nat, timeout: bool)

  predicate Locked(p: Phase) {
    p.NotifyAll? || p.UnlockNotifier? || p.Register? || p.Load? || p.Decide? || p.FallAsleep? || p.Leave? || p.UnlockWaiter?
  }

  /** Counted in `waiters`. */
  predicate Counted(p: Phase) {
    p.Load? || p.Decide? || p.FallAsleep? || p.Asleep? || p.Relock? || p.Leave?
  }

  /** Asleep, or bound to fall asleep on what it has seen. */
  predicate Sleeping(p: Phase) {
    p.Asleep? || p.FallAsleep? || (p.Decide? && p.cur <= p.after)
  }

  /** Has bumped the version and has yet to notify. */
  predicate Pending(p: Phase) {
    p.CheckWaiters? || p.LockToNotify? || p.NotifyAll?
  }

  predicate Enabled(s: State, e: Event) {
    match e
    case StartNotify(id) => id !in s.threads
    case StartWait(id, _) => id !in s.threads
    case Step(id, timeout) =>
      && id in s.threads
      && var p := s.threads[id];
         && !p.Notified? && !p.Returned?
         && (p.LockToNotify? || p.LockToWait? || p.Relock? ==> s.lock.None?)
         && (p.Asleep? ==> timeout)
  }

  function Go(s: State, id: nat, p: Phase): State {
    s.(threads := s.threads[id := p])
  }

  /** Everyone asleep wakes up and queues for the lock. */
  function WakeAll(threads: map<nat, Phase>): map<nat, Phase> {
    map id | id in threads :: if threads[id].Asleep? then Relock(threads[id].after) else threads[id]
  }

  function Apply(s: State, e: Event): State
    requires Enabled(s, e)
  {
    match e
    case StartNotify(id) => Go(s, id, Bump)
    case StartWait(id, after) => Go(s, id, LockToWait(after))
    case Step(id, timeout) => Advance(s, id, timeout)
  }

  function Advance(s: State, id: nat, timeout: bool): State
    requires Enabled(s, Step(id, timeout))
  {
    match s.threads[id]
    case Bump => Go(s, id, CheckWaiters(s.version + 1)).(version := s.version + 1)
    case CheckWaiters(seen) => Go(s, id, if s.waiters == 0 then Notified else LockToNotify(seen))
    case LockToNotify(seen) => Go(s, id, NotifyAll(seen)).(lock := Some(id))
    case NotifyAll(_) => Go(s.(threads := WakeAll(s.threads)), id, UnlockNotifier)
    case UnlockNotifier => Go(s, id, Notified).(lock := None)
    case LockToWait(after) => Go(s, id, Register(after)).(lock := Some(id))
    case Register(after) => Go(s, id, Load(after)).(waiters := s.waiters + 1)
    case Load(after) => Go(s, id, Decide(after, s.version))
    case Decide(after, cur) =>
      if cur > after then Go(s, id, Leave(after, cur, false))
      else if timeout then Go(s, id, Leave(after, cur, true))
      else Go(s, id, FallAsleep(after))
    case FallAsleep(after) => Go(s, id, Asleep(after)).(lock := None)
    case Asleep(after) => Go(s, id, Relock(after))
    case Relock(after) => Go(s, id, Load(after)).(lock := Some(id))
    case Leave(after, cur, late) =>
      Go(s, id, UnlockWaiter(after, cur, late)).(waiters := s.waiters - 1)
    case UnlockWaiter(after, cur, late) => Go(s, id, Returned(after, cur, late)).(lock := None)
  }

  predicate Runs(s: State, events: seq<Event>)
    decreases |events|
  {
    events == [] || (Enabled(s, events[0]) && Runs(Apply(s, events[0]), events[1..]))
  }

  function After(s: State, events: seq<Event>): State
    requires Runs(s, events)
    decreases |events|
  {
    if events == [] then s else After(Apply(s, events[0]), events[1..])
  }

  function CountedIds(threads: map<nat, Phase>): set<nat> {
    set id | id in threads && Counted(threads[id])
  }

  ghost predicate OneLock(s: State) {
    && (s.lock.Some? ==> s.lock.value in s.threads)
    && (forall id :: id in s.threads ==> (Locked(s.threads[id]) <==> s.lock == Some(id)))
  }

  /** A notifier that passed `after` and has still to notify. */
  ghost predicate Coming(threads: map<nat, Phase>, after: nat) {
    exists n :: n in threads && Pending(threads[n]) && threads[n].seen > after
  }

  ghost predicate NoneMissed(s: State) {
    forall w :: w in s.threads && Sleeping(s.threads[w]) && s.version > s.threads[w].after ==>
      Coming(s.threads, s.threads[w].after)
  }

  /** Whoever leaves has seen news, or else its timeout. */
  predicate Explained(p: Phase) {
    p.Leave? || p.UnlockWaiter? || p.Returned? ==> (p.timedOut <==> p.cur <= p.after)
  }

  /** A version somebody carries has been published. */
  predicate Published(p: Phase, version: nat) {
    p.Decide? || p.Leave? || p.UnlockWaiter? || p.Returned? ==> p.cur <= version
  }

  ghost predicate Inv(s: State) {
    && OneLock(s) && s.waiters == |CountedIds(s.threads)| && NoneMissed(s)
    && (forall id :: id in s.threads ==> Explained(s.threads[id]) && Published(s.threads[id], s.version))
  }

  lemma CountReplaced(threads: map<nat, Phase>, id: nat, p: Phase)
    ensures |CountedIds(threads[id := p])| ==
            |CountedIds(threads)| - (if id in threads && Counted(threads[id]) then 1 else 0) + (if Counted(p) then 1 else 0)
  {
    var rest := CountedIds(threads) - {id};
    assert CountedIds(threads[id := p]) == if Counted(p) then rest + {id} else rest;
    assert CountedIds(threads) == if id in threads && Counted(threads[id]) then rest + {id} else rest;
  }

  lemma CountStep(s: State, e: Event)
    requires s.waiters == |CountedIds(s.threads)| && Enabled(s, e)
    ensures Apply(s, e).waiters == |CountedIds(Apply(s, e).threads)|
  {
    var p := Apply(s, e).threads[e.id];
    assert CountedIds(WakeAll(s.threads)) == CountedIds(s.threads);
    CountReplaced(WakeAll(s.threads), e.id, p);
    CountReplaced(s.threads, e.id, p);
  }

  lemma LockStep(s: State, e: Event)
    requires OneLock(s) && Enabled(s, e)
    ensures OneLock(Apply(s, e))
  {
  }

  /** The heart: a bump leaves its notifier on the way; it cannot turn back while a waiter is
      counted, and when it notifies, nobody is between deciding to sleep and sleeping. */
  lemma WakeupStep(s: State, e: Event)
    requires Inv(s) && Enabled(s, e)
    ensures NoneMissed(Apply(s, e))
  {
    var s' := Apply(s, e);
    forall w | w in s'.threads && Sleeping(s'.threads[w]) && s'.version > s'.threads[w].after
      ensures Coming(s'.threads, s'.threads[w].after)
    {
      var after := s'.threads[w].after;
      if e.Step? && s.threads[e.id].Bump? && s.version <= after {
        assert s'.threads[e.id].seen > after;
      } else {
        StillComing(s, e, w);
      }
    }
  }

  lemma StillComing(s: State, e: Event, w: nat)
    requires Inv(s) && Enabled(s, e)
    requires var s' := Apply(s, e);
             && w in s'.threads && Sleeping(s'.threads[w]) && s'.version > s'.threads[w].after
             && !(e.Step? && s.threads[e.id].Bump? && s.version <= s'.threads[w].after)
    ensures Coming(Apply(s, e).threads, Apply(s, e).threads[w].after)
  {
    var s' := Apply(s, e);
    var after := s'.threads[w].after;
    assert w in s.threads && Sleeping(s.threads[w]) && s.threads[w].after == after;
    var n :| n in s.threads && Pending(s.threads[n]) && s.threads[n].seen > after;
    if e.id == n {
      assert w in CountedIds(s.threads);
      assert s.waiters > 0;
    }
    assert n in s'.threads && Pending(s'.threads[n]) && s'.threads[n].seen > after;
  }

  lemma StepKeeps(s: State, e: Event)
    requires Inv(s) && Enabled(s, e)
    ensures Inv(Apply(s, e))
  {
    CountStep(s, e);
    LockStep(s, e);
    WakeupStep(s, e);
    ExplainedStep(s, e);
  }

  lemma ExplainedStep(s: State, e: Event)
    requires Enabled(s, e) && forall id :: id in s.threads ==> Explained(s.threads[id]) && Published(s.threads[id], s.version)
    ensures var s' := Apply(s, e);
            forall id :: id in s'.threads ==> Explained(s'.threads[id]) && Published(s'.threads[id], s'.version)
  {
  }

  lemma {:induction false} RunKeeps(s: State, events: seq<Event>)
    requires Inv(s) && Runs(s, events)
    ensures Inv(After(s, events))
    decreases |events|
  {
    if events != [] {
      StepKeeps(s, events[0]);
      RunKeeps(Apply(s, events[0]), events[1..]);
    }
  }

  /** No wake-up is lost in any interleaving: while a waiter sleeps, or is bound to, on a version
      that has passed, a notifier that passed it too is still coming. So once every notifier is
      done nobody sleeps on news. Whoever returns has a published version, a later one than it waited
      for if and only if it did not time out. */
  lemma NoLostWakeup(version: nat, events: seq<Event>, w: nat)
    requires Runs(State(version, 0, None, map[]), events)
    ensures var s := After(State(version, 0, None, map[]), events);
            w in s.threads ==>
              && (Sleeping(s.threads[w]) && s.version > s.threads[w].after ==> Coming(s.threads, s.threads[w].after))
              && (Sleeping(s.threads[w]) && (forall n :: n in s.threads ==> !Pending(s.threads[n])) ==>
                    s.version <= s.threads[w].after)
              && (s.threads[w].Returned? ==>
                    s.threads[w].cur <= s.version && (s.threads[w].timedOut <==> s.threads[w].cur <= s.threads[w].after))
  {
    assert CountedIds(map[]) == {};
    RunKeeps(State(version, 0, None, map[]), events);
  }
}
