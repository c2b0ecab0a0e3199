/** Every run of any number of lock instances, each with its own token, against one lock key.

    A call is in flight from the moment it is sent until it returns; its command takes effect at most
    once and in between. A call that returns an error was or was not applied. LockWithRetry does not
    take `mu`, Unlock and Extend do, so an instance has room for one call of each kind. */
module LockRuns {
  import opened Prelude
  import opened Locking

  datatype LockCall = NotLocking | LockSent(at: int) | LockApplied(at: int, won: bool)

  datatype MutexCall =
    | NotCalling
    | ExtendSent(at: int, seconds: int)
    | ExtendApplied(at: int, seconds: int, ok: bool)
    | UnlockSent
    | UnlockApplied(ok: bool)

  /** `lease` is the end of the time during which the owner of the instance believes it holds the lock. */
  datatype Instance = Instance(lock: LockCall, call: MutexCall, unlocked: bool, lease: int)

  datatype State = State(now: int, entry: Option<Entry>, instances: map<Token, Instance>)

  /** The TTL of every instance; the instances used by several goroutines, which call Lock while an Unlock
      or Extend is under way or the other way round; the time at which the run starts. */
  datatype Setup = Setup(ttl: map<Token, int>, shared: set<Token>, start: int)

  datatype Event =
    | Tick(to: int)
    | Expire                                 // at any moment once the deadline is reached
    | SendLock(i: Token)                     // an attempt of LockWithRetry
    | ApplyLock(i: Token)
    | EndLock(i: Token, lost: bool)          // with the server's reply, or with an error
    | SendExtend(i: Token, additional: int)
    | SendUnlock(i: Token)
    | ApplyCall(i: Token)
    | EndCall(i: Token, lost: bool)

  predicate Enabled(u: Setup, s: State, e: Event) {
    if e.Tick? then s.now <= e.to
    else if e.Expire? then s.entry.Some? && s.entry.value.deadline <= s.now
    else
      && e.i in s.instances
      && var x := s.instances[e.i];
         match e
         case SendLock(i) => x.lock.NotLocking? && (i in u.shared || x.call.NotCalling?)
         case ApplyLock(_) => x.lock.LockSent?
         case EndLock(_, lost) => x.lock.LockApplied? || (x.lock.LockSent? && lost)
         case ApplyCall(_) => x.call.ExtendSent? || x.call.UnlockSent?
         case EndCall(_, lost) => x.call.ExtendApplied? || x.call.UnlockApplied? || (!x.call.NotCalling? && lost)
         case _ => x.call.NotCalling? && !x.unlocked && (e.i in u.shared || x.lock.NotLocking?)
  }

  function Put(s: State, i: Token, x: Instance): State {
    s.(instances := s.instances[i := x])
  }

  function Next(u: Setup, s: State, e: Event): State
    requires s.instances.Keys == u.ttl.Keys && Enabled(u, s, e)
  {
    match e
    case Tick(to) => s.(now := to)
    case Expire => s.(entry := None)
    case SendLock(i) => Put(s, i, s.instances[i].(lock := LockSent(s.now)))
    case ApplyLock(i) =>
      var (entry, won) := SetNX(s.entry, i, s.now, u.ttl[i]);
      Put(s.(entry := entry), i, s.instances[i].(lock := LockApplied(s.instances[i].lock.at, won)))
    case EndLock(i, lost) =>
      var x := s.instances[i];
      Put(s, i, x.(lock := NotLocking, lease := if !lost && x.lock.won then x.lock.at + u.ttl[i] else x.lease))
    case SendExtend(i, additional) =>
      var seconds := WholeSeconds(additional);
      var x := s.instances[i];
      Put(s, i, x.(call := ExtendSent(s.now, seconds), lease := Min(x.lease, s.now + 1000 * seconds)))
    case SendUnlock(i) => Put(s, i, s.instances[i].(call := UnlockSent, lease := Min(s.instances[i].lease, s.now)))
    case ApplyCall(i) =>
      var x := s.instances[i];
      if x.call.ExtendSent? then
        var (entry, reply) := CompareExpire(s.entry, i, s.now, x.call.seconds);
        Put(s.(entry := entry), i, x.(call := ExtendApplied(x.call.at, x.call.seconds, reply == 1)))
      else
        var (entry, reply) := CompareDelete(s.entry, i);
        Put(s.(entry := entry), i, x.(call := UnlockApplied(reply == 1)))
    case EndCall(i, lost) =>
      var x := s.instances[i];
      var ended := x.(call := NotCalling);
      if lost then Put(s, i, ended)
      else if x.call.ExtendApplied? then
        Put(s, i, if x.call.ok then ended.(lease := x.call.at + 1000 * x.call.seconds) else ended)
      else Put(s, i, ended.(unlocked := x.unlocked || x.call.ok))
  }

  function Initial(u: Setup): State {
    State(u.start, None, map i | i in u.ttl :: Instance(NotLocking, NotCalling, false, u.start))
  }

  ghost predicate Run(u: Setup, es: seq<Event>) {
    es == [] || (Run(u, es[..|es| - 1]) && Enabled(u, Exec(u, es[..|es| - 1]), es[|es| - 1]))
  }

  function Exec(u: Setup, es: seq<Event>): (s: State)
    ensures s.instances.Keys == u.ttl.Keys
  {
    if es == [] then Initial(u)
    else
      var s := Exec(u, es[..|es| - 1]);
      if Enabled(u, s, es[|es| - 1]) then Next(u, s, es[|es| - 1]) else s
  }

  predicate PositiveTtls(u: Setup) {
    forall i <- u.ttl :: 1 <= u.ttl[i]
  }

  // ---------- mutual exclusion ----------

  /** The instance's owner may act as the holder of the lock. */
  predicate Believes(s: State, i: Token)
    requires i in s.instances
  {
    s.now < s.instances[i].lease
  }

  predicate HeldUntil(s: State, i: Token, end: int) {
    s.now < end ==> Holds(s.entry, i) && end <= s.entry.value.deadline
  }

  /** One instance is covered by the server's entry in everything it believes or is about to believe. */
  predicate Covered(u: Setup, s: State, i: Token)
    requires i in s.instances && i in u.ttl
  {
    var x := s.instances[i];
    && HeldUntil(s, i, x.lease)
    && (x.lock.NotLocking? || x.call.NotCalling?)
    && (x.lock.LockSent? ==> x.lock.at <= s.now)
    && (x.lock.LockApplied? && x.lock.won ==> HeldUntil(s, i, x.lock.at + u.ttl[i]))
    && (x.call.ExtendSent? ==> x.call.at <= s.now && x.lease <= x.call.at + 1000 * x.call.seconds)
    && (x.call.ExtendApplied? && x.call.ok ==> HeldUntil(s, i, x.call.at + 1000 * x.call.seconds))
    && (x.call.UnlockSent? ==> x.lease <= s.now)
  }

  /** The steps of time and of other instances. */
  lemma CoveredFromOthers(u: Setup, s: State, e: Event, i: Token)
    requires i !in u.shared && s.instances.Keys == u.ttl.Keys && i in u.ttl
    requires Covered(u, s, i) && Enabled(u, s, e) && (e.Tick? || e.Expire? || e.i != i)
    ensures Covered(u, Next(u, s, e), i)
  {
  }

  /** The steps of i's own Lock. */
  lemma CoveredLocking(u: Setup, s: State, e: Event, i: Token)
    requires i !in u.shared && s.instances.Keys == u.ttl.Keys && i in u.ttl
    requires Covered(u, s, i) && Enabled(u, s, e)
    requires e == SendLock(i) || e == ApplyLock(i) || (e.EndLock? && e.i == i)
    ensures Covered(u, Next(u, s, e), i)
  {
  }

  lemma CoveredStep(u: Setup, s: State, e: Event, i: Token)
    requires i !in u.shared && s.instances.Keys == u.ttl.Keys && i in u.ttl
    requires Covered(u, s, i) && Enabled(u, s, e)
    ensures Covered(u, Next(u, s, e), i)
  {
    if e.Tick? || e.Expire? || e.i != i {
      CoveredFromOthers(u, s, e, i);
    } else if e.SendLock? || e.ApplyLock? || e.EndLock? {
      CoveredLocking(u, s, e, i);
    }
  }

  lemma {:induction false} AlwaysCovered(u: Setup, es: seq<Event>, i: Token)
    requires i !in u.shared && i in u.ttl && Run(u, es)
    ensures Covered(u, Exec(u, es), i)
  {
    if es != [] {
      AlwaysCovered(u, es[..|es| - 1], i);
      CoveredStep(u, Exec(u, es[..|es| - 1]), es[|es| - 1], i);
    }
  }

  /** A believed lease of an instance that is not shared is backed by the server until it ends, whatever
      the other instances do. */
  lemma BeliefIsBacked(u: Setup, es: seq<Event>, i: Token)
    requires i !in u.shared && i in u.ttl && Run(u, es)
    ensures var s := Exec(u, es);
            Believes(s, i) ==> Holds(s.entry, i) && s.instances[i].lease <= s.entry.value.deadline
  {
    AlwaysCovered(u, es, i);
  }

  ghost predicate Exclusive(u: Setup) {
    forall es, i, j :: Run(u, es) && i in u.ttl && j in u.ttl && Believes(Exec(u, es), i) && Believes(Exec(u, es), j) ==> i == j
  }

  lemma Snoc(u: Setup, es: seq<Event>, e: Event)
    requires Run(u, es) && Enabled(u, Exec(u, es), e)
    ensures Run(u, es + [e]) && Exec(u, es + [e]) == Next(u, Exec(u, es), e)
  {
    assert (es + [e])[..|es + [e]| - 1] == es;
  }

  /** Two goroutines share instance i: one unlocks it while the other has not yet seen that its Lock
      succeeded. The late reply makes the second one believe in a lock that is already given away. */
  function Overlap(i: Token, j: Token): seq<Event> {
    [SendLock(i)] + [ApplyLock(i)] + [SendUnlock(i)] + [ApplyCall(i)] + [EndLock(i, false)]
    + [SendLock(j)] + [ApplyLock(j)] + [EndLock(j, false)]
  }

  lemma OverlapBreaks(u: Setup, i: Token, j: Token)
    requires PositiveTtls(u) && i in u.shared
    requires i in u.ttl && j in u.ttl && i != j
    ensures Run(u, Overlap(i, j))
    ensures Believes(Exec(u, Overlap(i, j)), i) && Believes(Exec(u, Overlap(i, j)), j)
  {
    assert [] + [SendLock(i)] == [SendLock(i)];
    Snoc(u, [], SendLock(i));
    var es := [SendLock(i)];
    Snoc(u, es, ApplyLock(i));
    es := es + [ApplyLock(i)];
    Snoc(u, es, SendUnlock(i));
    es := es + [SendUnlock(i)];
    Snoc(u, es, ApplyCall(i));
    es := es + [ApplyCall(i)];
    Snoc(u, es, EndLock(i, false));
    es := es + [EndLock(i, false)];
    Snoc(u, es, SendLock(j));
    es := es + [SendLock(j)];
    Snoc(u, es, ApplyLock(j));
    es := es + [ApplyLock(j)];
    Snoc(u, es, EndLock(j, false));
  }

  ghost predicate NeverBoth(u: Setup, i: Token, j: Token)
    requires i in u.ttl && j in u.ttl
  {
    forall es :: Run(u, es) ==> !(Believes(Exec(u, es), i) && Believes(Exec(u, es), j))
  }

  lemma OverlapRefutes(u: Setup, i: Token, j: Token)
    requires PositiveTtls(u) && i in u.shared && i in u.ttl && j in u.ttl && i != j
    ensures !NeverBoth(u, i, j) && !NeverBoth(u, j, i) && !Exclusive(u)
  {
    hide Exec, Run, Believes;
    OverlapBreaks(u, i, j);
    var es := Overlap(i, j);
    assert Run(u, es) && Believes(Exec(u, es), i) && Believes(Exec(u, es), j);
  }

  /** Two instances never believe they hold the lock at the same time, over all runs with expiry and lost
      replies, if and only if neither of them is shared between goroutines. */
  lemma PairExclusiveExactlyWhen(u: Setup, i: Token, j: Token)
    requires PositiveTtls(u) && i in u.ttl && j in u.ttl && i != j
    ensures NeverBoth(u, i, j) <==> i !in u.shared && j !in u.shared
  {
    hide Exec, Run;
    if i in u.shared {
      OverlapRefutes(u, i, j);
    } else if j in u.shared {
      OverlapRefutes(u, j, i);
    } else {
      forall es | Run(u, es)
        ensures !(Believes(Exec(u, es), i) && Believes(Exec(u, es), j))
      {
        BeliefIsBacked(u, es, i);
        BeliefIsBacked(u, es, j);
      }
    }
  }

  /** No two instances do, if and only if no instance is shared, or there is only one. */
  lemma ExclusiveExactlyWhen(u: Setup)
    requires PositiveTtls(u)
    ensures Exclusive(u) <==> (forall i <- u.ttl :: i !in u.shared) || |u.ttl| <= 1
  {
    hide Exec, Run, Believes, NeverBoth;
    assert |u.ttl| == |u.ttl.Keys|;
    if i :| i in u.ttl && i in u.shared && |u.ttl| >= 2 {
      assert |u.ttl.Keys - {i}| == |u.ttl| - 1;
      var j :| j in u.ttl.Keys - {i};
      OverlapRefutes(u, i, j);
    } else {
      forall es, i, j | Run(u, es) && i in u.ttl && j in u.ttl && Believes(Exec(u, es), i) && Believes(Exec(u, es), j)
        ensures i == j
      {
        SubsetSize({i, j}, u.ttl.Keys);
        if i != j {
          PairExclusiveExactlyWhen(u, i, j);
          NotBoth(u, es, i, j);
        }
      }
    }
  }

  lemma NotBoth(u: Setup, es: seq<Event>, i: Token, j: Token)
    requires i in u.ttl && j in u.ttl && NeverBoth(u, i, j) && Run(u, es)
    ensures !(Believes(Exec(u, es), i) && Believes(Exec(u, es), j))
  {
  }

  /** The lock is not excluded away: whenever the key is absent, an idle instance that asks for the lock
      and gets its answer within its TTL believes it holds it. */
  lemma FreeLockIsAcquired(u: Setup, es: seq<Event>, i: Token, late: nat)
    requires i in u.ttl && Run(u, es) && late < u.ttl[i]
    requires Exec(u, es).entry.None? && Enabled(u, Exec(u, es), SendLock(i))
    ensures var locked := es + [SendLock(i)] + [ApplyLock(i)] + [Tick(Exec(u, es).now + late)] + [EndLock(i, false)];
            Run(u, locked) && Believes(Exec(u, locked), i)
  {
    Snoc(u, es, SendLock(i));
    var sent := es + [SendLock(i)];
    Snoc(u, sent, ApplyLock(i));
    var applied := sent + [ApplyLock(i)];
    Snoc(u, applied, Tick(Exec(u, es).now + late));
    Snoc(u, applied + [Tick(Exec(u, es).now + late)], EndLock(i, false));
  }

  /** Extend by the holder of the entry: if the answer arrives within the whole seconds asked for, the
      entry and the belief both last until they are over, counted from the moment of the call. */
  lemma ExtendRenews(u: Setup, es: seq<Event>, i: Token, additional: nat, late: nat)
    requires i in u.ttl && Run(u, es) && late < 1000 * (additional / 1_000_000_000)
    requires Holds(Exec(u, es).entry, i) && Enabled(u, Exec(u, es), SendExtend(i, additional))
    ensures var extended := es + [SendExtend(i, additional)] + [ApplyCall(i)] + [Tick(Exec(u, es).now + late)] + [EndCall(i, false)];
            var end := Exec(u, es).now + 1000 * (additional / 1_000_000_000);
            && Run(u, extended)
            && Exec(u, extended).entry == Some(Entry(i, end))
            && Exec(u, extended).instances[i].lease == end
  {
    Snoc(u, es, SendExtend(i, additional));
    var sent := es + [SendExtend(i, additional)];
    Snoc(u, sent, ApplyCall(i));
    var applied := sent + [ApplyCall(i)];
    Snoc(u, applied, Tick(Exec(u, es).now + late));
    Snoc(u, applied + [Tick(Exec(u, es).now + late)], EndCall(i, false));
  }

  /** Unlock by the holder of the entry frees the key and ends the belief. */
  lemma UnlockReleases(u: Setup, es: seq<Event>, i: Token)
    requires i in u.ttl && Run(u, es)
    requires Holds(Exec(u, es).entry, i) && Enabled(u, Exec(u, es), SendUnlock(i))
    ensures var released := es + [SendUnlock(i)] + [ApplyCall(i)] + [EndCall(i, false)];
            && Run(u, released)
            && Exec(u, released).entry.None?
            && Exec(u, released).instances[i].unlocked && !Believes(Exec(u, released), i)
  {
    Snoc(u, es, SendUnlock(i));
    var sent := es + [SendUnlock(i)];
    Snoc(u, sent, ApplyCall(i));
    Snoc(u, sent + [ApplyCall(i)], EndCall(i, false));
  }

  // ---------- ownership ----------

  /** The entry belongs to its token: it appears by that token's SETNX into an absent key, changes by
      that token's own Extend or Unlock, and vanishes otherwise only once its deadline is reached. */
  lemma OwnershipStable(u: Setup, s: State, e: Event)
    requires s.instances.Keys == u.ttl.Keys && Enabled(u, s, e)
    ensures var s' := Next(u, s, e);
            s'.entry != s.entry ==>
              || (e.ApplyLock? && s.entry.None? && s'.entry == Some(Entry(e.i, s.now + u.ttl[e.i])))
              || (e.ApplyCall? && Holds(s.entry, e.i) && (s'.entry.None? || Holds(s'.entry, e.i)))
              || (e.Expire? && s.entry.value.deadline <= s.now && s'.entry.None?)
  {
  }

  lemma TimeMovesForward(u: Setup, es: seq<Event>, more: seq<Event>)
    requires Run(u, es + more)
    ensures Run(u, es) && Exec(u, es).now <= Exec(u, es + more).now
  {
    if more == [] {
      assert es + more == es;
    } else {
      var init := more[..|more| - 1];
      assert (es + more)[..|es + more| - 1] == es + init;
      TimeMovesForward(u, es, init);
    }
  }

  /** From a successful SETNX of v until its deadline nobody else touches the entry. */
  lemma {:induction false} UntouchedUntilDeadline(u: Setup, es: seq<Event>, v: Token, more: seq<Event>)
    requires v in u.ttl && Run(u, es + [ApplyLock(v)] + more)
    requires Exec(u, es).entry.None?
    requires ApplyCall(v) !in more
    requires Exec(u, es + [ApplyLock(v)] + more).now < Exec(u, es).now + u.ttl[v]
    ensures Exec(u, es + [ApplyLock(v)] + more).entry == Some(Entry(v, Exec(u, es).now + u.ttl[v]))
  {
    var upto := es + [ApplyLock(v)];
    TimeMovesForward(u, upto, more);
    TimeMovesForward(u, es, [ApplyLock(v)]);
    assert upto[..|upto| - 1] == es;
    if more == [] {
      assert upto + more == upto;
    } else {
      var init := more[..|more| - 1];
      var e := more[|more| - 1];
      assert (upto + more)[..|upto + more| - 1] == upto + init;
      assert upto + more == upto + init + [e];
      TimeMovesForward(u, upto + init, [e]);
      UntouchedUntilDeadline(u, es, v, init);
      OwnershipStable(u, Exec(u, upto + init), e);
    }
  }

  /** v's entry was put there by a SETNX of v at step k and has been v's ever since. */
  ghost predicate HeldSince(u: Setup, es: seq<Event>, v: Token, k: nat) {
    && k < |es|
    && es[k] == ApplyLock(v) && Exec(u, es[..k]).entry.None?
    && forall p :: k < p <= |es| ==> Holds(Exec(u, es[..p]).entry, v)
  }

  lemma {:induction false} HolderLocked(u: Setup, es: seq<Event>, v: Token) returns (k: nat)
    requires Run(u, es) && Holds(Exec(u, es).entry, v)
    ensures HeldSince(u, es, v, k)
  {
    var init := es[..|es| - 1];
    var e := es[|es| - 1];
    OwnershipStable(u, Exec(u, init), e);
    assert es[..|es|] == es;
    if Exec(u, init).entry.None? {
      k := |es| - 1;
    } else {
      k := HolderLocked(u, init, v);
      assert forall p | k < p <= |init| :: es[..p] == init[..p];
      assert es[..k] == init[..k];
    }
  }

  /** A successful Unlock certifies an unbroken hold: if v's Unlock returns nil then its delete was
      applied at some step m, and from v's winning SETNX at step k to that moment the entry was v's. */
  lemma {:induction false} UnlockCertifiesHold(u: Setup, es: seq<Event>, v: Token) returns (k: nat, m: nat)
    requires v in u.ttl && Run(u, es) && Exec(u, es).instances[v].call == UnlockApplied(true)
    ensures k < m < |es| && es[m] == ApplyCall(v) && Exec(u, es[..m]).instances[v].call.UnlockSent?
    ensures HeldSince(u, es[..m], v, k)
  {
    var init := es[..|es| - 1];
    var before := Exec(u, init).instances[v];
    if before.call == UnlockApplied(true) {
      k, m := UnlockCertifiesHold(u, init, v);
      assert es[..m] == init[..m];
    } else {
      m := |es| - 1;
      k := HolderLocked(u, init, v);
    }
  }

  /** How many Unlock calls of v return nil. */
  function Unlocks(u: Setup, es: seq<Event>, v: Token): nat
    requires v in u.ttl
  {
    if es == [] then 0
    else
      var init := es[..|es| - 1];
      Unlocks(u, init, v)
      + if es[|es| - 1] == EndCall(v, false) && Exec(u, init).instances[v].call == UnlockApplied(true) then 1 else 0
  }

  lemma {:induction false} UnlockedOnce(u: Setup, es: seq<Event>, v: Token)
    requires v in u.ttl && Run(u, es)
    ensures Unlocks(u, es, v) == if Exec(u, es).instances[v].unlocked then 1 else 0
    ensures Exec(u, es).instances[v].unlocked ==> Exec(u, es).instances[v].call.NotCalling?
  {
    if es != [] {
      UnlockedOnce(u, es[..|es| - 1], v);
    }
  }

  /** At most one Unlock of an instance ever succeeds, and after it neither Unlock nor Extend reaches the server. */
  lemma AtMostOneUnlock(u: Setup, es: seq<Event>, v: Token)
    requires v in u.ttl && Run(u, es)
    ensures Unlocks(u, es, v) <= 1
    ensures Unlocks(u, es, v) == 1 ==>
              forall e: Event | e == SendUnlock(v) || e == ApplyCall(v) || (e.SendExtend? && e.i == v) :: !Enabled(u, Exec(u, es), e)
  {
    UnlockedOnce(u, es, v);
  }
}
