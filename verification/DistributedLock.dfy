/** The lock key on the server and the client object that drives it.

    Redis semantics assumed here: SET NX with a TTL, and each of the two scripts, is one atomic step;
    EXPIRE with a non-positive number of seconds deletes the key and still replies 1. Times are
    milliseconds; a TTL is a whole number of milliseconds, at least 1. */
module Locking {
  import opened Prelude

  /** The value stored under the key: every instance has its own. */
  type Token = nat

  datatype Entry = Entry(token: Token, deadline: int)

  predicate Holds(entry: Option<Entry>, token: Token) {
    entry.Some? && entry.value.token == token
  }

  function SetNX(entry: Option<Entry>, token: Token, now: int, ttl: int): (Option<Entry>, bool) {
    if entry.None? then (Some(Entry(token, now + ttl)), true) else (entry, false)
  }

  /** The script of Unlock. */
  function CompareDelete(entry: Option<Entry>, token: Token): (Option<Entry>, int) {
    if Holds(entry, token) then (None, 1) else (entry, 0)
  }

  /** The script of Extend. */
  function CompareExpire(entry: Option<Entry>, token: Token, now: int, seconds: int): (Option<Entry>, int) {
    if !Holds(entry, token) then (entry, 0)
    else if seconds <= 0 then (None, 1)
    else (Some(Entry(token, now + 1000 * seconds)), 1)
  }

  /** `int(additionalTTL.Seconds())` */
  function WholeSeconds(additional: int): int {
    TruncDiv(additional, NANOS_PER_SECOND)
  }

  /** Extend of a held lock: below one second it gives the lock up, although it reports success;
      otherwise the TTL is replaced, losing less than a second, and it is cut short exactly when the
      whole seconds asked for are less than what remained. */
  lemma ExtendOutcome(entry: Option<Entry>, token: Token, now: int, additional: int)
    requires Holds(entry, token)
    ensures var (after, reply) := CompareExpire(entry, token, now, WholeSeconds(additional));
            && reply == 1
            && (after.None? <==> additional < NANOS_PER_SECOND)
            && (after.Some? ==>
                  && after.value.token == token
                  && 0 <= additional - NANOS_PER_MILLI * (after.value.deadline - now) < NANOS_PER_SECOND
                  && (after.value.deadline < entry.value.deadline <==>
                        additional < NANOS_PER_SECOND * ((entry.value.deadline - now + 999) / 1000)))
  {
    var r := entry.value.deadline - now;
    var s := WholeSeconds(additional);
    assert additional >= 0 ==> s == additional / NANOS_PER_SECOND;
    assert (r + 999) / 1000 <= s <==> r <= 1000 * s;
  }

  /** `time.Millisecond * 100 * time.Duration(i+1)`, as an int64 number of nanoseconds; a timer set to a
      negative delay fires at once. */
  function LockDelay(i: nat): nat {
    Max(0, Wrap64(100 * NANOS_PER_MILLI * (i + 1)))
  }

  /** The time spent in the first n waits. */
  function LockWaits(n: nat): nat {
    if n == 0 then 0 else LockWaits(n - 1) + LockDelay(n - 1)
  }

  const LOCK_RETRIES_MAX: nat := (TWO_TO_63 - 1) / (100 * NANOS_PER_MILLI)

  lemma LockDelayBounds(i: nat)
    ensures LockDelay(i) <= 100 * NANOS_PER_MILLI * (i + 1)
    ensures i < LOCK_RETRIES_MAX ==> LockDelay(i) == 100 * NANOS_PER_MILLI * (i + 1)
    ensures i == LOCK_RETRIES_MAX ==> LockDelay(i) == 0
  {
  }

  lemma {:induction false} LockWaitsAtMost(n: nat)
    ensures LockWaits(n) <= 50 * NANOS_PER_MILLI * (n * (n + 1))
    ensures LockWaits(n) == 50 * NANOS_PER_MILLI * (n * (n + 1)) <==> n <= LOCK_RETRIES_MAX
  {
    if n > 0 {
      LockWaitsAtMost(n - 1);
      LockDelayBounds(n - 1);
      var below, here := (n - 1) * n, n * (n + 1);
      assert here == below + 2 * n;
    }
  }

  /** n refused attempts wait 50 n (n + 1) milliseconds, exactly as long as no delay overflows int64. */
  lemma LockWaitsExactlyWhen(n: nat)
    ensures LockWaits(n) == 50 * NANOS_PER_MILLI * (n * (n + 1)) <==> n <= 92_233_720_368
  {
    LockWaitsAtMost(n);
  }

  class LockServer {
    var entry: Option<Entry>
  }

  /** The environment of one attempt of LockWithRetry: what the other instances and expiry left under
      the key when it executes, the server time, what happens to the command, and whether the context
      is cancelled during the wait that follows a refusal. */
  datatype Attempt = Attempt(found: Option<Entry>, now: int, executed: bool, replied: bool, cancelled: bool)

  datatype LockOutcome = Acquired | CommandFailed | Cancelled | Exhausted

  datatype ReleaseError = AlreadyReleased | ReleaseFailed | NotHeld

  class DistributedLock {
    const server: LockServer
    const token: Token
    const ttl: int
    var unlocked: bool

    constructor (server: LockServer, token: Token, ttl: int)
      ensures this.server == server && this.token == token && this.ttl == ttl && !unlocked
    {
      this.server, this.token, this.ttl, unlocked := server, token, ttl, false;
    }

    /** `sent` SETNX commands go out, all but the last of them refused, and the waits that run to their end
        take `waited` nanoseconds. */
    method LockWithRetry(maxRetries: int, env: nat -> Attempt) returns (outcome: LockOutcome, sent: nat, waited: nat)
      modifies server
      ensures sent <= if maxRetries > 0 then maxRetries else 0
      ensures forall i: nat | i < sent - 1 ::
                env(i).executed && env(i).replied && env(i).found.Some? && !env(i).cancelled
      ensures sent > 0 ==>
                var last := env(sent - 1);
                && (outcome == CommandFailed <==> !(last.executed && last.replied))
                && (outcome == Acquired <==> last.executed && last.replied && last.found.None?)
                && (outcome == Cancelled <==> last.executed && last.replied && last.found.Some? && last.cancelled)
                && server.entry == if last.executed && last.found.None? then Some(Entry(token, last.now + ttl)) else last.found
      ensures sent == 0 ==> outcome == Exhausted && server.entry == old(server.entry)
      ensures outcome == Exhausted ==> sent == if maxRetries > 0 then maxRetries else 0
      ensures waited == LockWaits(if outcome == Exhausted then sent else sent - 1)
    {
      var i := 0;
      sent, waited := 0, 0;
      while i < maxRetries
        invariant 0 <= i <= Max(0, maxRetries) && sent == i
        invariant forall k: nat | k < i :: env(k).executed && env(k).replied && env(k).found.Some? && !env(k).cancelled
        invariant waited == LockWaits(i)
        invariant server.entry == if i == 0 then old(server.entry) else env(i - 1).found
      {
        var attempt := env(i);
        server.entry := attempt.found;
        sent := sent + 1;
        var success := false;
        if attempt.executed {
          var (entry, won) := SetNX(server.entry, token, attempt.now, ttl);
          server.entry, success := entry, won;
        }
        if !(attempt.executed && attempt.replied) {
          return CommandFailed, sent, waited;
        }
        if success {
          return Acquired, sent, waited;
        }
        if attempt.cancelled {
          return Cancelled, sent, waited;
        }
        waited := waited + LockDelay(i);
        i := i + 1;
      }
      outcome := Exhausted;
    }

    method Unlock(executed: bool, replied: bool) returns (r: Result<(), ReleaseError>)
      modifies this`unlocked, server
      ensures old(unlocked) ==> r == Err(AlreadyReleased) && unlocked && server.entry == old(server.entry)
      ensures !old(unlocked) ==>
                var held := old(server.entry).Some? && old(server.entry).value.token == token;
                && server.entry == (if executed && held then None else old(server.entry))
                && r == (if !(executed && replied) then Err(ReleaseFailed) else if !held then Err(NotHeld) else Ok(()))
                && unlocked == (executed && replied && held)
    {
      if unlocked {
        return Err(AlreadyReleased);
      }
      var result := 0;
      if executed {
        var (entry, reply) := CompareDelete(server.entry, token);
        server.entry, result := entry, reply;
      }
      if !(executed && replied) {
        return Err(ReleaseFailed);
      }
      if result == 0 {
        return Err(NotHeld);
      }
      unlocked := true;
      return Ok(());
    }

    method Extend(additional: int, now: int, executed: bool, replied: bool) returns (r: Result<(), ReleaseError>)
      modifies server
      ensures unlocked ==> r == Err(AlreadyReleased) && server.entry == old(server.entry)
      ensures !unlocked ==>
                var held := old(server.entry).Some? && old(server.entry).value.token == token;
                && r == (if !(executed && replied) then Err(ReleaseFailed) else if !held then Err(NotHeld) else Ok(()))
                && server.entry == (if !(executed && held) then old(server.entry)
                                    else if additional < 1_000_000_000 then None
                                    else Some(Entry(token, now + 1000 * (additional / 1_000_000_000))))
    {
      if unlocked {
        return Err(AlreadyReleased);
      }
      var newTTL := WholeSeconds(additional);
      var result := 0;
      if executed {
        var (entry, reply) := CompareExpire(server.entry, token, now, newTTL);
        server.entry, result := entry, reply;
      }
      if !(executed && replied) {
        return Err(ReleaseFailed);
      }
      return if result == 0 then Err(NotHeld) else Ok(());
    }
  }
}
