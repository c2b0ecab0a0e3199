/** The sorted set behind one rate-limiter key, and the limiter that drives it.

    Redis semantics assumed here: one command, or one whole script, is one atomic step;
    ZREMRANGEBYSCORE bounds are inclusive; a sorted set that becomes empty takes its key and
    its TTL away; ZADD leaves an existing TTL alone; PEXPIRE on a missing key does nothing and
    with a non-positive argument deletes the key. */
module RateLimiting {
  import opened Prelude

  /** `fmt.Sprintf("%d:%d", now, randInt())` */
  datatype Member = Member(stamp: int, nonce: int)

  /** The value under the key; no key is `ZSet(map[], None)`. The deadline is in server milliseconds. */
  datatype ZSet = ZSet(scores: map<Member, int>, deadline: Option<int>)

  const NO_KEY := ZSet(map[], None)

  /** The members whose score lies between the inclusive bounds. */
  function Scored(scores: map<Member, int>, lo: int, hi: int): set<Member> {
    set m | m in scores && lo <= scores[m] <= hi
  }

  function ZRemRangeByScore(z: ZSet, lo: int, hi: int): ZSet {
    var kept := z.scores - Scored(z.scores, lo, hi);
    if |kept| == 0 then NO_KEY else ZSet(kept, z.deadline)
  }

  function ZAdd(z: ZSet, score: int, member: Member): ZSet {
    z.(scores := z.scores[member := score])
  }

  function PExpire(z: ZSet, now: int, millis: int): ZSet {
    if |z.scores| == 0 then z
    else if millis <= 0 then NO_KEY
    else z.(deadline := Some(now + millis))
  }

  /** The whole script of Allow: the new sorted set and the script's reply. */
  function AllowScript(z: ZSet, now: int, stamp: int, limit: int, member: Member, windowMillis: int): (ZSet, int) {
    var purged := ZRemRangeByScore(z, 0, stamp - windowMillis);
    if |purged.scores| >= limit then (purged, 0)
    else (PExpire(ZAdd(purged, stamp, member), now, windowMillis), 1)
  }

  /** The server's copy of one key, changed command by command. */
  class SortedSetKey {
    var scores: map<Member, int>
    var deadline: Option<int>

    function Contents(): ZSet
      reads this
    {
      ZSet(scores, deadline)
    }

    constructor ()
      ensures Contents() == NO_KEY
    {
      scores, deadline := map[], None;
    }

    method RemoveRange(lo: int, hi: int)
      modifies this
      ensures Contents() == ZRemRangeByScore(old(Contents()), lo, hi)
    {
      scores := scores - Scored(scores, lo, hi);
      if |scores| == 0 {
        deadline := None;
      }
    }

    method Add(score: int, member: Member)
      modifies this
      ensures Contents() == ZAdd(old(Contents()), score, member)
    {
      scores := scores[member := score];
    }

    method ExpireIn(now: int, millis: int)
      modifies this
      ensures Contents() == PExpire(old(Contents()), now, millis)
    {
      if |scores| != 0 {
        if millis <= 0 {
          scores, deadline := map[], None;
        } else {
          deadline := Some(now + millis);
        }
      }
    }

    method Delete()
      modifies this
      ensures Contents() == NO_KEY
    {
      scores, deadline := map[], None;
    }
  }

  datatype CommandError = LimitNotPositive | WindowNotPositive | CommandFailed

  class RateLimiter {
    const key: SortedSetKey

    constructor (key: SortedSetKey)
      ensures this.key == key
    {
      this.key := key;
    }

    /** `stamp` is the client's clock when Allow reads it, `now` the server's when the script runs.
        A command that fails was either not executed (`executed` false) or its reply was lost. */
    method Allow(limit: int, window: int, stamp: int, nonce: int, now: int, executed: bool, replied: bool)
      returns (r: Result<bool, CommandError>)
      modifies key
      ensures limit <= 0 ==> r == Err(LimitNotPositive)
      ensures limit > 0 && window <= 0 ==> r == Err(WindowNotPositive)
      ensures limit <= 0 || window <= 0 || !executed ==> key.Contents() == old(key.Contents())
      ensures limit > 0 && window > 0 && !(executed && replied) ==> r == Err(CommandFailed)
      ensures limit > 0 && window > 0 && executed ==>
                var (z, reply) := AllowScript(old(key.Contents()), now, stamp, limit, Member(stamp, nonce), window / NANOS_PER_MILLI);
                key.Contents() == z && (replied ==> r == Ok(reply == 1))
    {
      if limit <= 0 {
        return Err(LimitNotPositive);
      }
      if window <= 0 {
        return Err(WindowNotPositive);
      }
      var windowStart := stamp - window / NANOS_PER_MILLI;
      var reply := 0;
      if executed {
        key.RemoveRange(0, windowStart);
        if |key.scores| < limit {
          key.Add(stamp, Member(stamp, nonce));
          key.ExpireIn(now, window / NANOS_PER_MILLI);
          reply := 1;
        }
      }
      if !(executed && replied) {
        return Err(CommandFailed);
      }
      return Ok(reply != 0);
    }

    /** The two commands of GetUsage with nothing in between. Whether the purge worked is not looked at;
        only a count that fails is an error. */
    method GetUsage(window: int, stamp: int, purged: bool, counted: bool) returns (usage: Result<nat, CommandError>)
      modifies key
      ensures key.Contents() == if purged
                                then ZRemRangeByScore(old(key.Contents()), 0, stamp - TruncDiv(window, NANOS_PER_MILLI))
                                else old(key.Contents())
      ensures usage == if counted then Ok(|key.Contents().scores|) else Err(CommandFailed)
    {
      var windowStart := stamp - TruncDiv(window, NANOS_PER_MILLI);
      if purged {
        key.RemoveRange(0, windowStart);
      }
      if !counted {
        return Err(CommandFailed);
      }
      usage := Ok(|key.scores|);
    }

    /** As in Allow, a failing DEL may have been executed. */
    method Reset(executed: bool, replied: bool) returns (r: Option<CommandError>)
      modifies key
      ensures key.Contents() == if executed then NO_KEY else old(key.Contents())
      ensures r == None <==> executed && replied
    {
      if executed {
        key.Delete();
      }
      r := if executed && replied then None else Some(CommandFailed);
    }
  }
}
