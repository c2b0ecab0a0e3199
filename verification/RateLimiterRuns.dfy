/** Every run of any number of clients against one rate-limiter key: what is admitted, in which
    windows, and why. */
module RateLimiterRuns {
  import opened Prelude
  import opened RateLimiting

  /** How a timestamp captured by a client relates to server time when its command executes. */
  datatype Clocks =
    | Arbitrary
    | Lagging(lag: nat)  // never ahead of the server, at most `lag` milliseconds behind it

  /** What all clients of the key agree on. `window` and `usage` are the milliseconds passed to
      Allow and to GetUsage, `start` the server time at which the run begins. */
  datatype Setup = Setup(limit: int, window: int, usage: int, clocks: Clocks, start: int)

  /** `admitted` is history: the events admitted since the last Reset, with their timestamps. An event is
      known by its member, so executing the same command twice, as a resend does, admits one event. */
  datatype State = State(now: int, zset: ZSet, admitted: map<Member, int>)

  datatype Event =
    | Allow(stamp: int, nonce: int)  // the script of Allow
    | Purge(stamp: int)              // the first command of GetUsage
    | Count                          // the second command of GetUsage
    | Reset
    | Tick(to: int)
    | Expire                         // Redis drops the key, at any moment once its deadline is reached

  predicate ClockAllows(c: Clocks, now: int, stamp: int) {
    c.Lagging? ==> now - c.lag <= stamp <= now
  }

  predicate Enabled(u: Setup, s: State, e: Event) {
    match e
    case Allow(stamp, _) => ClockAllows(u.clocks, s.now, stamp)
    case Purge(stamp) => ClockAllows(u.clocks, s.now, stamp)
    case Count => true
    case Reset => true
    case Tick(to) => s.now <= to
    case Expire => s.zset.deadline.Some? && s.zset.deadline.value <= s.now
  }

  function Script(u: Setup, s: State, stamp: int, nonce: int): (ZSet, int) {
    AllowScript(s.zset, s.now, stamp, u.limit, Member(stamp, nonce), u.window)
  }

  predicate Admits(u: Setup, s: State, stamp: int, nonce: int) {
    Script(u, s, stamp, nonce).1 == 1
  }

  function Next(u: Setup, s: State, e: Event): State {
    match e
    case Allow(stamp, nonce) =>
      var admitted := if Admits(u, s, stamp, nonce) then s.admitted[Member(stamp, nonce) := stamp] else s.admitted;
      s.(zset := Script(u, s, stamp, nonce).0, admitted := admitted)
    case Purge(stamp) => s.(zset := ZRemRangeByScore(s.zset, 0, stamp - u.usage))
    case Count => s
    case Reset => s.(zset := NO_KEY, admitted := map[])
    case Tick(to) => s.(now := to)
    case Expire => s.(zset := NO_KEY)
  }

  function Exec(u: Setup, es: seq<Event>): State {
    if es == [] then State(u.start, NO_KEY, map[])
    else Next(u, Exec(u, es[..|es| - 1]), es[|es| - 1])
  }

  predicate Run(u: Setup, es: seq<Event>) {
    es == [] || (Run(u, es[..|es| - 1]) && Enabled(u, Exec(u, es[..|es| - 1]), es[|es| - 1]))
  }

  predicate StampsFrom(es: seq<Event>, floor: int) {
    forall e <- es :: e.Allow? ==> floor <= e.stamp
  }

  /** The admitted events with a timestamp in [lo, lo + length). */
  function InWindow(admitted: map<Member, int>, lo: int, length: int): set<Member> {
    set m | m in admitted && lo <= admitted[m] < lo + length
  }

  function Newer(admitted: map<Member, int>, after: int): set<Member> {
    set m | m in admitted && after < admitted[m]
  }

  lemma ExecSnoc(u: Setup, es: seq<Event>, e: Event)
    ensures Exec(u, es + [e]) == Next(u, Exec(u, es), e)
    ensures Run(u, es + [e]) <==> Run(u, es) && Enabled(u, Exec(u, es), e)
  {
    assert (es + [e])[..|es + [e]| - 1] == es;
  }

  // ---------- arbitrary clocks ----------

  /** What holds whatever the clients' clocks say. */
  predicate Sound(u: Setup, s: State) {
    && (forall m <- s.zset.scores :: m in s.admitted && s.zset.scores[m] == s.admitted[m])
    && |s.zset.scores| <= u.limit
    && (|s.zset.scores| == 0 <==> s.zset.deadline == None)
    && (s.zset.deadline.Some? ==> s.zset.deadline.value <= s.now + u.window)
  }

  lemma Purged(z: ZSet, hi: int) returns (z': ZSet)
    ensures z' == ZRemRangeByScore(z, 0, hi)
    ensures z'.scores.Keys <= z.scores.Keys && |z'.scores| <= |z.scores|
    ensures forall m <- z'.scores :: z'.scores[m] == z.scores[m] && !(0 <= z.scores[m] <= hi)
    ensures forall m <- z.scores :: !(0 <= z.scores[m] <= hi) ==> m in z'.scores
    ensures z'.deadline == if |z'.scores| == 0 then None else z.deadline
  {
    z' := ZRemRangeByScore(z, 0, hi);
    SubsetSize(z'.scores.Keys, z.scores.Keys);
    assert |z'.scores| == |z'.scores.Keys| && |z.scores| == |z.scores.Keys|;
  }

  /** Recording an event: a key with a member more and a fresh TTL. */
  lemma Recorded(z: ZSet, now: int, stamp: int, member: Member, millis: int)
    requires millis >= 1
    ensures PExpire(ZAdd(z, stamp, member), now, millis) == ZSet(z.scores[member := stamp], Some(now + millis))
    ensures 0 < |z.scores[member := stamp]| <= |z.scores| + 1
  {
    var scores := z.scores[member := stamp];
    assert scores.Keys == z.scores.Keys + {member};
    assert |scores| == |scores.Keys| && |z.scores| == |z.scores.Keys|;
  }

  /** The state after recording one event, on top of an already purged set. */
  function Record(u: Setup, s: State, purged: ZSet, stamp: int, nonce: int): State {
    var m := Member(stamp, nonce);
    s.(zset := ZSet(purged.scores[m := stamp], Some(s.now + u.window)), admitted := s.admitted[m := stamp])
  }

  /** The two outcomes of Allow. */
  lemma AllowStep(u: Setup, s: State, stamp: int, nonce: int) returns (purged: ZSet)
    requires u.window >= 1
    ensures purged == ZRemRangeByScore(s.zset, 0, stamp - u.window)
    ensures Admits(u, s, stamp, nonce) <==> |purged.scores| < u.limit
    ensures Next(u, s, Allow(stamp, nonce)) ==
            if |purged.scores| < u.limit then Record(u, s, purged, stamp, nonce) else s.(zset := purged)
  {
    purged := ZRemRangeByScore(s.zset, 0, stamp - u.window);
    Recorded(purged, s.now, stamp, Member(stamp, nonce), u.window);
  }

  lemma SoundStep(u: Setup, s: State, e: Event)
    requires u.limit >= 1 && u.window >= 1
    requires Sound(u, s) && Enabled(u, s, e)
    ensures Sound(u, Next(u, s, e))
  {
    hide ZRemRangeByScore, Script, Admits;
    match e
    case Allow(stamp, nonce) =>
      var purged := AllowStep(u, s, stamp, nonce);
      var purged' := Purged(s.zset, stamp - u.window);
      assert Sound(u, s.(zset := purged));
      Recorded(purged, s.now, stamp, Member(stamp, nonce), u.window);
    case Purge(stamp) =>
      var purged := Purged(s.zset, stamp - u.usage);
    case _ =>
  }

  lemma {:induction false} AlwaysSound(u: Setup, es: seq<Event>)
    requires u.limit >= 1 && u.window >= 1
    requires Run(u, es)
    ensures Sound(u, Exec(u, es))
  {
    if es != [] {
      AlwaysSound(u, es[..|es| - 1]);
      SoundStep(u, Exec(u, es[..|es| - 1]), es[|es| - 1]);
    }
  }

  /** A window below one millisecond truncates to 0: PEXPIRE 0 deletes what was just added, so the
      limiter never refuses. */
  lemma {:induction false} NoMillisecondNoLimit(u: Setup, es: seq<Event>, stamp: int, nonce: int)
    requires u.limit >= 1 && u.window == 0
    requires Run(u, es)
    ensures Exec(u, es).zset == NO_KEY
    ensures Admits(u, Exec(u, es), stamp, nonce)
  {
    if es != [] {
      var before := es[..|es| - 1];
      var e := es[|es| - 1];
      NoMillisecondNoLimit(u, before, stamp, nonce);
      if e.Allow? {
        assert Member(e.stamp, e.nonce) in map[Member(e.stamp, e.nonce) := e.stamp];
      }
    }
  }

  /** Memory stays bounded: never more than `limit` members, and never a key without a TTL of at most
      one window. */
  lemma MemoryBounded(u: Setup, es: seq<Event>)
    requires u.limit >= 1 && u.window >= 0
    requires Run(u, es)
    ensures var s := Exec(u, es);
            && |s.zset.scores| <= u.limit
            && (|s.zset.scores| != 0 ==> s.zset.deadline.Some? && s.zset.deadline.value - s.now <= u.window)
  {
    if u.window == 0 {
      NoMillisecondNoLimit(u, es, 0, 0);
    } else {
      AlwaysSound(u, es);
    }
  }

  // ---------- bursts ----------

  /** n admissions with one timestamp, at one server time. */
  function Burst(at: int, stamp: int, n: nat): seq<Event> {
    if n == 0 then [Tick(at)] else Burst(at, stamp, n - 1) + [Allow(stamp, n)]
  }

  function Stamped(stamp: int, n: nat): map<Member, int> {
    if n == 0 then map[] else Stamped(stamp, n - 1)[Member(stamp, n) := stamp]
  }

  function BurstState(u: Setup, at: int, stamp: int, n: nat): State {
    State(at, ZSet(Stamped(stamp, n), if n == 0 then None else Some(at + u.window)), Stamped(stamp, n))
  }

  lemma {:induction false} StampedSize(stamp: int, n: nat)
    ensures |Stamped(stamp, n)| == n
    ensures forall m <- Stamped(stamp, n) :: Stamped(stamp, n)[m] == stamp && 1 <= m.nonce <= n
  {
    if n > 0 {
      StampedSize(stamp, n - 1);
      assert Member(stamp, n) !in Stamped(stamp, n - 1);
    }
  }

  lemma NothingToPurge(z: ZSet, hi: int)
    requires forall m <- z.scores :: !(0 <= z.scores[m] <= hi)
    requires |z.scores| == 0 ==> z.deadline == None
    ensures ZRemRangeByScore(z, 0, hi) == z
  {
    assert ZRemRangeByScore(z, 0, hi).scores == z.scores;
  }

  lemma BurstStep(u: Setup, at: int, stamp: int, n: nat)
    requires u.limit >= 1 && u.window >= 1 && 1 <= n <= u.limit
    ensures Next(u, BurstState(u, at, stamp, n - 1), Allow(stamp, n)) == BurstState(u, at, stamp, n)
  {
    hide ZRemRangeByScore, Next, Script, Admits;
    var s := BurstState(u, at, stamp, n - 1);
    StampedSize(stamp, n - 1);
    StampedSize(stamp, n);
    NothingToPurge(s.zset, stamp - u.window);
    var purged := AllowStep(u, s, stamp, n);
  }

  lemma BurstStart(u: Setup, at: int)
    requires u.start <= at
    ensures Run(u, [Tick(at)]) && Exec(u, [Tick(at)]) == State(at, NO_KEY, map[])
  {
    ExecSnoc(u, [], Tick(at));
    assert [] + [Tick(at)] == [Tick(at)];
  }

  /** With a real window a burst may be as long as the limit. */
  lemma {:induction false} BurstRuns(u: Setup, at: int, stamp: int, n: nat)
    requires u.limit >= 1 && u.window >= 1 && n <= u.limit
    requires u.start <= at && ClockAllows(u.clocks, at, stamp)
    ensures Run(u, Burst(at, stamp, n)) && StampsFrom(Burst(at, stamp, n), stamp)
    ensures Exec(u, Burst(at, stamp, n)) == BurstState(u, at, stamp, n)
  {
    hide Next, Exec, Run;
    if n == 0 {
      BurstStart(u, at);
    } else {
      BurstRuns(u, at, stamp, n - 1);
      ExecSnoc(u, Burst(at, stamp, n - 1), Allow(stamp, n));
      BurstStep(u, at, stamp, n);
    }
  }

  /** With a window of zero milliseconds it may have any length. */
  lemma {:induction false} OpenBurstRuns(u: Setup, at: int, stamp: int, n: nat)
    requires u.limit >= 1 && u.window == 0
    requires u.start <= at && ClockAllows(u.clocks, at, stamp)
    ensures Run(u, Burst(at, stamp, n))
    ensures Exec(u, Burst(at, stamp, n)).admitted == Stamped(stamp, n) && Exec(u, Burst(at, stamp, n)).now == at
  {
    hide Exec, Run, Script, Admits;
    if n == 0 {
      BurstStart(u, at);
    } else {
      OpenBurstRuns(u, at, stamp, n - 1);
      NoMillisecondNoLimit(u, Burst(at, stamp, n - 1), stamp, n);
      ExecSnoc(u, Burst(at, stamp, n - 1), Allow(stamp, n));
    }
  }

  // ---------- when refusals are justified ----------

  predicate NonNegative(s: State) {
    forall m <- s.admitted :: 0 <= s.admitted[m]
  }

  lemma {:induction false} AlwaysNonNegative(u: Setup, es: seq<Event>)
    requires Run(u, es)
    requires StampsFrom(es, 0) || (u.clocks.Lagging? && u.start >= u.clocks.lag)
    ensures NonNegative(Exec(u, es)) && u.start <= Exec(u, es).now
  {
    if es != [] {
      AlwaysNonNegative(u, es[..|es| - 1]);
      NonNegativeStep(u, Exec(u, es[..|es| - 1]), es[|es| - 1]);
    }
  }

  lemma NonNegativeStep(u: Setup, s: State, e: Event)
    requires NonNegative(s) && u.start <= s.now && Enabled(u, s, e)
    requires (e.Allow? ==> 0 <= e.stamp) || (u.clocks.Lagging? && u.start >= u.clocks.lag)
    ensures NonNegative(Next(u, s, e)) && u.start <= Next(u, s, e).now
  {
    hide Script, Admits;
  }

  lemma DenialJustifiedAt(u: Setup, s: State, stamp: int, nonce: int)
    requires u.limit >= 1 && u.window >= 1
    requires Sound(u, s) && NonNegative(s) && !Admits(u, s, stamp, nonce)
    ensures |Newer(s.admitted, stamp - u.window)| >= u.limit
  {
    var purged := Purged(s.zset, stamp - u.window);
    SubsetSize(purged.scores.Keys, Newer(s.admitted, stamp - u.window));
    assert |purged.scores| == |purged.scores.Keys|;
  }

  /** Over all runs in which no timestamp is below `floor`, every refusal is justified by at least `limit`
      admitted events newer than the caller's window start. */
  ghost predicate Justified(u: Setup, floor: int) {
    forall es, stamp, nonce ::
      Run(u, es + [Allow(stamp, nonce)]) && StampsFrom(es + [Allow(stamp, nonce)], floor)
      && !Admits(u, Exec(u, es), stamp, nonce)
      ==> |Newer(Exec(u, es).admitted, stamp - u.window)| >= u.limit
  }

  lemma DenialJustified(u: Setup, es: seq<Event>, stamp: int, nonce: int)
    requires u.limit >= 1 && u.window >= 0
    requires Run(u, es) && !Admits(u, Exec(u, es), stamp, nonce)
    requires StampsFrom(es, 0) || (u.clocks.Lagging? && u.start >= u.clocks.lag)
    ensures |Newer(Exec(u, es).admitted, stamp - u.window)| >= u.limit
  {
    hide Exec, Run, Admits;
    if u.window == 0 {
      NoMillisecondNoLimit(u, es, stamp, nonce);
    } else {
      AlwaysSound(u, es);
      AlwaysNonNegative(u, es);
      DenialJustifiedAt(u, Exec(u, es), stamp, nonce);
    }
  }

  /** The run that makes a refusal unjustified: fill the limit with a negative timestamp, which the purge
      never reaches because it starts at score 0, and wait for a window. */
  function FillTime(u: Setup, floor: int): int { Max(u.start, floor) }

  function FillStamp(u: Setup, floor: int): int {
    if u.clocks.Lagging? then Max(floor, FillTime(u, floor) - u.clocks.lag) else floor
  }

  lemma FilledRefuses(u: Setup, at: int, stamp: int, nonce: int)
    requires u.limit >= 1 && u.window >= 1 && stamp < 0 && stamp <= at
    ensures var s := BurstState(u, at, stamp, u.limit).(now := at + u.window);
            !Admits(u, s, at + u.window, nonce) && Newer(s.admitted, at) == {}
  {
    hide ZRemRangeByScore, Script, Admits;
    var s := BurstState(u, at, stamp, u.limit).(now := at + u.window);
    StampedSize(stamp, u.limit);
    NothingToPurge(s.zset, at);
    var purged := AllowStep(u, s, at + u.window, nonce);
  }

  lemma UnjustifiedRun(u: Setup, floor: int) returns (es: seq<Event>, stamp: int)
    requires u.limit >= 1 && u.window >= 1
    requires floor < 0 && (u.clocks.Lagging? ==> u.start < u.clocks.lag)
    ensures Run(u, es + [Allow(stamp, 0)]) && StampsFrom(es + [Allow(stamp, 0)], floor)
    ensures !Admits(u, Exec(u, es), stamp, 0) && Newer(Exec(u, es).admitted, stamp - u.window) == {}
  {
    hide Script, Admits, Next, Stamped;
    var at, early := FillTime(u, floor), FillStamp(u, floor);
    stamp := at + u.window;
    BurstRuns(u, at, early, u.limit);
    ExecSnoc(u, Burst(at, early, u.limit), Tick(stamp));
    es := Burst(at, early, u.limit) + [Tick(stamp)];
    TickOnly(u, BurstState(u, at, early, u.limit), stamp);
    FilledRefuses(u, at, early, 0);
    ExecSnoc(u, es, Allow(stamp, 0));
  }

  lemma TickOnly(u: Setup, s: State, to: int)
    ensures Next(u, s, Tick(to)) == s.(now := to)
  {
  }

  /** Refusals are justified over all runs whose timestamps are at least `floor` exactly when no negative
      timestamp can occur: because of the floor, or because the clocks cannot lag behind 1970. (With a
      window of zero milliseconds nothing is ever refused.) */
  lemma DenialJustifiedExactlyWhen(u: Setup, floor: int)
    requires u.limit >= 1 && u.window >= 0
    ensures Justified(u, floor) <==>
            u.window == 0 || floor >= 0 || (u.clocks.Lagging? && u.start >= u.clocks.lag)
  {
    hide Exec, Run, Admits;
    if u.window == 0 || floor >= 0 || (u.clocks.Lagging? && u.start >= u.clocks.lag) {
      forall es, stamp, nonce |
        Run(u, es + [Allow(stamp, nonce)]) && StampsFrom(es + [Allow(stamp, nonce)], floor)
        && !Admits(u, Exec(u, es), stamp, nonce)
        ensures |Newer(Exec(u, es).admitted, stamp - u.window)| >= u.limit
      {
        ExecSnoc(u, es, Allow(stamp, nonce));
        assert floor >= 0 ==> forall e <- es :: e in es + [Allow(stamp, nonce)];
        if u.window == 0 {
          NoMillisecondNoLimit(u, es, stamp, nonce);
        } else {
          DenialJustified(u, es, stamp, nonce);
        }
      }
    } else {
      var es, stamp := UnjustifiedRun(u, floor);
    }
  }

  /** The special case of one event per millisecond and clocks that may be set to any time. */
  lemma DenialUnjustifiedBeforeEpoch()
    ensures !Justified(Setup(1, 1, 1, Arbitrary, 0), -1)
    ensures Justified(Setup(1, 1, 1, Arbitrary, 0), 0)
  {
    DenialJustifiedExactlyWhen(Setup(1, 1, 1, Arbitrary, 0), -1);
    DenialJustifiedExactlyWhen(Setup(1, 1, 1, Arbitrary, 0), 0);
  }

  // ---------- lagging clocks ----------

  /** How long an admitted event is guaranteed to stay in the sorted set. */
  function Retention(u: Setup): int { Min(u.window, u.usage) }

  /** The longest interval in which the limit is guaranteed. */
  function Guarded(u: Setup): int
    requires u.clocks.Lagging?
  {
    Max(0, Retention(u) - u.clocks.lag)
  }

  /** No admitted event younger than the retention is missing, and the key outlives its events. */
  predicate Retains(u: Setup, s: State) {
    && (forall m <- s.admitted :: s.admitted[m] <= s.now)
    && (forall m <- s.admitted :: s.now - Retention(u) < s.admitted[m] ==> m in s.zset.scores)
    && (forall m <- s.zset.scores :: s.zset.deadline.Some? && s.zset.scores[m] + u.window <= s.zset.deadline.value)
  }

  lemma RetainsPurge(u: Setup, s: State, hi: int)
    requires Sound(u, s) && Retains(u, s) && hi <= s.now - Retention(u)
    ensures Retains(u, s.(zset := ZRemRangeByScore(s.zset, 0, hi)))
  {
    hide ZRemRangeByScore;
    var purged := Purged(s.zset, hi);
  }

  lemma RetainsRecord(u: Setup, s: State, stamp: int, nonce: int)
    requires Retains(u, s) && stamp <= s.now
    requires s.zset.deadline.Some? ==> s.zset.deadline.value <= s.now + u.window
    ensures Retains(u, Record(u, s, s.zset, stamp, nonce))
  {
  }

  lemma RetainsAllow(u: Setup, s: State, stamp: int, nonce: int)
    requires u.window >= 1 && Sound(u, s) && Retains(u, s) && stamp <= s.now
    ensures Retains(u, Next(u, s, Allow(stamp, nonce)))
  {
    hide ZRemRangeByScore, Next, Script, Admits, Retains;
    var purged := AllowStep(u, s, stamp, nonce);
    var purged' := Purged(s.zset, stamp - u.window);
    RetainsPurge(u, s, stamp - u.window);
    RetainsRecord(u, s.(zset := purged), stamp, nonce);
  }

  /** Reset empties key and history, time only moves forward, and a key expires after its last event. */
  lemma RetainsQuiet(u: Setup, s: State, e: Event)
    requires u.window >= 1 && Sound(u, s) && Retains(u, s)
    requires Enabled(u, s, e) && !e.Allow? && !e.Purge?
    ensures Retains(u, Next(u, s, e))
  {
    hide Script, Admits;
  }

  lemma RetainsStep(u: Setup, s: State, e: Event)
    requires u.limit >= 1 && u.window >= 1 && u.clocks.Lagging?
    requires Sound(u, s) && Retains(u, s)
    requires Enabled(u, s, e)
    ensures Retains(u, Next(u, s, e))
  {
    hide ZRemRangeByScore, Script, Admits, Sound, Retains;
    match e
    case Allow(stamp, nonce) => RetainsAllow(u, s, stamp, nonce);
    case Purge(stamp) => RetainsPurge(u, s, stamp - u.usage);
    case _ => RetainsQuiet(u, s, e);
  }

  lemma {:induction false} AlwaysRetains(u: Setup, es: seq<Event>)
    requires u.limit >= 1 && u.window >= 1 && u.clocks.Lagging?
    requires Run(u, es)
    ensures Retains(u, Exec(u, es)) && Sound(u, Exec(u, es))
  {
    AlwaysSound(u, es);
    if es != [] {
      var before := es[..|es| - 1];
      AlwaysRetains(u, before);
      RetainsStep(u, Exec(u, before), es[|es| - 1]);
    }
  }

  lemma AdmissionFits(u: Setup, s: State, stamp: int, nonce: int, lo: int)
    requires u.limit >= 1 && u.window >= 1 && u.clocks.Lagging?
    requires Sound(u, s) && Retains(u, s)
    requires Enabled(u, s, Allow(stamp, nonce)) && Admits(u, s, stamp, nonce)
    requires lo <= stamp < lo + Guarded(u)
    ensures |InWindow(s.admitted, lo, Guarded(u))| < u.limit
  {
    var purged := ZRemRangeByScore(s.zset, 0, stamp - u.window);
    forall m | m in InWindow(s.admitted, lo, Guarded(u))
      ensures m in purged.scores
    {
      assert s.admitted[m] > s.now - Retention(u);
    }
    SubsetSize(InWindow(s.admitted, lo, Guarded(u)), purged.scores.Keys);
    assert |purged.scores| == |purged.scores.Keys|;
  }

  /** Over every interleaving, key expiry included, no interval of the guarded length holds more
      than `limit` events admitted since the last Reset. */
  lemma {:induction false} WindowsRespectLimit(u: Setup, es: seq<Event>, lo: int)
    requires u.limit >= 1 && u.window >= 0 && u.clocks.Lagging?
    requires Run(u, es)
    ensures |InWindow(Exec(u, es).admitted, lo, Guarded(u))| <= u.limit
  {
    hide ZRemRangeByScore, Scored;
    if u.window == 0 {
      assert InWindow(Exec(u, es).admitted, lo, Guarded(u)) == {};
    } else if es != [] {
      var before := es[..|es| - 1];
      WindowsRespectLimit(u, before, lo);
      AlwaysRetains(u, before);
      WindowStep(u, Exec(u, before), es[|es| - 1], lo);
    }
  }

  lemma WindowStep(u: Setup, s: State, e: Event, lo: int)
    requires u.limit >= 1 && u.window >= 1 && u.clocks.Lagging?
    requires Sound(u, s) && Retains(u, s) && Enabled(u, s, e)
    requires |InWindow(s.admitted, lo, Guarded(u))| <= u.limit
    ensures |InWindow(Next(u, s, e).admitted, lo, Guarded(u))| <= u.limit
  {
    hide ZRemRangeByScore, Script, Sound, Retains;
    if e.Allow? && Admits(u, s, e.stamp, e.nonce) {
      var m := Member(e.stamp, e.nonce);
      var was, grown := InWindow(s.admitted, lo, Guarded(u)), InWindow(s.admitted[m := e.stamp], lo, Guarded(u));
      if lo <= e.stamp < lo + Guarded(u) {
        AdmissionFits(u, s, e.stamp, e.nonce, lo);
        assert grown == was + {m};
      } else {
        SubsetSize(grown, was);
      }
    } else if e.Reset? {
      assert InWindow(map[], lo, Guarded(u)) == {};
    }
  }

  ghost predicate Guaranteed(u: Setup, length: int) {
    forall es, lo :: Run(u, es) ==> |InWindow(Exec(u, es).admitted, lo, length)| <= u.limit
  }

  /** The run that defeats any longer interval: fill the limit, wait out the retention, lose every entry,
      admit once more with the oldest timestamp the clocks allow. */
  function Begin(u: Setup): int { Max(u.start, 0) }

  function Wait(u: Setup): int { Begin(u) + Max(0, Retention(u)) }

  function Oldest(u: Setup): int
    requires u.clocks.Lagging?
  {
    Max(Begin(u), Wait(u) - u.clocks.lag)
  }

  function Loss(u: Setup): Event {
    if u.usage <= u.window then Purge(Wait(u)) else Expire
  }

  function Filled(u: Setup): State
    requires u.limit >= 1
  {
    BurstState(u, Begin(u), Begin(u), u.limit).(now := Wait(u))
  }

  lemma LossClears(u: Setup)
    requires u.limit >= 1 && u.window >= 1 && u.clocks.Lagging?
    ensures Enabled(u, Filled(u), Loss(u)) && Next(u, Filled(u), Loss(u)) == Filled(u).(zset := NO_KEY)
  {
    StampedSize(Begin(u), u.limit);
    if u.usage <= u.window {
      var purged := Purged(Filled(u).zset, Wait(u) - u.usage);
      assert purged.scores.Keys == {};
    }
  }

  function Fill(u: Setup): seq<Event>
    requires u.limit >= 1
  {
    Burst(Begin(u), Begin(u), u.limit) + [Tick(Wait(u))] + [Loss(u)]
  }

  lemma FillRuns(u: Setup)
    requires u.limit >= 1 && u.window >= 1 && u.clocks.Lagging?
    ensures Run(u, Fill(u)) && Exec(u, Fill(u)) == Filled(u).(zset := NO_KEY)
  {
    hide Script, Admits, Next, Stamped;
    var es := Burst(Begin(u), Begin(u), u.limit);
    BurstRuns(u, Begin(u), Begin(u), u.limit);
    ExecSnoc(u, es, Tick(Wait(u)));
    TickOnly(u, BurstState(u, Begin(u), Begin(u), u.limit), Wait(u));
    LossClears(u);
    ExecSnoc(u, es + [Tick(Wait(u))], Loss(u));
  }

  lemma EmptyAdmits(u: Setup, s: State, stamp: int, nonce: int)
    requires u.limit >= 1 && u.window >= 1 && s.zset == NO_KEY
    ensures Admits(u, s, stamp, nonce)
    ensures Next(u, s, Allow(stamp, nonce)).admitted == s.admitted[Member(stamp, nonce) := stamp]
  {
    hide ZRemRangeByScore;
    NothingToPurge(NO_KEY, stamp - u.window);
    var purged := AllowStep(u, s, stamp, nonce);
  }

  lemma DefeatRuns(u: Setup)
    requires u.limit >= 1 && u.window >= 1 && u.clocks.Lagging?
    ensures var es := Fill(u) + [Allow(Oldest(u), 0)];
            Run(u, es) && Exec(u, es).admitted == Stamped(Begin(u), u.limit)[Member(Oldest(u), 0) := Oldest(u)]
  {
    hide Script, Admits, Next, Stamped, Fill;
    FillRuns(u);
    ExecSnoc(u, Fill(u), Allow(Oldest(u), 0));
    EmptyAdmits(u, Filled(u).(zset := NO_KEY), Oldest(u), 0);
  }

  lemma DefeatCounts(u: Setup, length: int)
    requires u.limit >= 1 && u.window >= 1 && u.clocks.Lagging? && length > Guarded(u)
    ensures |InWindow(Stamped(Begin(u), u.limit)[Member(Oldest(u), 0) := Oldest(u)], Begin(u), length)| == u.limit + 1
  {
    var m := Member(Oldest(u), 0);
    var burst := Stamped(Begin(u), u.limit);
    StampedSize(Begin(u), u.limit);
    assert InWindow(burst[m := Oldest(u)], Begin(u), length) == burst.Keys + {m};
    assert |burst| == |burst.Keys|;
  }

  lemma OpenWindowCounts(u: Setup, n: nat, length: int)
    requires length >= 1
    ensures |InWindow(Stamped(u.start, n), u.start, length)| == n
  {
    var burst := Stamped(u.start, n);
    StampedSize(u.start, n);
    assert InWindow(burst, u.start, length) == burst.Keys;
    assert |burst| == |burst.Keys|;
  }

  lemma OpenWindowBreaks(u: Setup, length: int)
    requires u.limit >= 1 && u.window == 0 && u.clocks.Lagging? && length >= 1
    ensures !Guaranteed(u, length)
  {
    hide Exec, Run, Stamped, Burst;
    var es := Burst(u.start, u.start, u.limit + 1);
    OpenBurstRuns(u, u.start, u.start, u.limit + 1);
    OpenWindowCounts(u, u.limit + 1, length);
    assert |InWindow(Exec(u, es).admitted, u.start, length)| > u.limit;
  }

  lemma LongerBreaks(u: Setup, length: int)
    requires u.limit >= 1 && u.window >= 0 && u.clocks.Lagging? && length > Guarded(u)
    ensures !Guaranteed(u, length)
  {
    hide Exec, Run;
    if u.window == 0 {
      OpenWindowBreaks(u, length);
    } else {
      DefeatRuns(u);
      DefeatCounts(u, length);
      assert |InWindow(Exec(u, Fill(u) + [Allow(Oldest(u), 0)]).admitted, Begin(u), length)| > u.limit;
    }
  }

  /** What lagging clocks can do, arbitrary clocks can. */
  lemma {:induction false} ClocksSetFree(u: Setup, lag: nat, es: seq<Event>)
    requires u.clocks == Arbitrary
    ensures Exec(u.(clocks := Lagging(lag)), es) == Exec(u, es)
    ensures Run(u.(clocks := Lagging(lag)), es) ==> Run(u, es)
  {
    if es != [] {
      ClocksSetFree(u, lag, es[..|es| - 1]);
    }
  }

  lemma ArbitraryBreaks(u: Setup, length: int)
    requires u.limit >= 1 && u.window >= 0 && u.clocks == Arbitrary && length >= 1
    ensures !Guaranteed(u, length)
  {
    hide Exec, Run;
    var lagging := u.(clocks := Lagging(u.window));
    LongerBreaks(lagging, length);
    var es, lo :| Run(lagging, es) && |InWindow(Exec(lagging, es).admitted, lo, length)| > u.limit;
    ClocksSetFree(u, u.window, es);
  }

  /** The guarantee is exact. With timestamps at most `lag` behind the server, the limit holds in all
      windows of a given length, over all runs, if and only if that length is at most the smaller of
      the two windows in use minus `lag`: the full window when timestamps are current and GetUsage
      is given the same window, less when it is given a smaller one, nothing below one millisecond and
      nothing when the clients' clocks are arbitrary. */
  lemma LimitExactlyWhen(u: Setup, length: int)
    requires u.limit >= 1 && u.window >= 0
    ensures Guaranteed(u, length) <==>
            length <= if u.clocks.Lagging? then Max(0, Min(u.window, u.usage) - u.clocks.lag) else 0
  {
    hide Exec, Run;
    if u.clocks.Lagging? && length > Guarded(u) {
      LongerBreaks(u, length);
    } else if u.clocks == Arbitrary && length > 0 {
      ArbitraryBreaks(u, length);
    } else {
      forall es, lo | Run(u, es)
        ensures |InWindow(Exec(u, es).admitted, lo, length)| <= u.limit
      {
        WindowWithin(u, es, lo, length);
      }
    }
  }

  lemma WindowWithin(u: Setup, es: seq<Event>, lo: int, length: int)
    requires u.limit >= 1 && u.window >= 0 && Run(u, es)
    requires length <= if u.clocks.Lagging? then Guarded(u) else 0
    ensures |InWindow(Exec(u, es).admitted, lo, length)| <= u.limit
  {
    hide Exec, Run;
    if length <= 0 {
      assert InWindow(Exec(u, es).admitted, lo, length) == {};
    } else {
      WindowsRespectLimit(u, es, lo);
      SubsetSize(InWindow(Exec(u, es).admitted, lo, length), InWindow(Exec(u, es).admitted, lo, Guarded(u)));
    }
  }

  // ---------- the simple limiter ----------

  /** The limiter a reader has in mind: it forgets nothing and counts the last window. */
  datatype Simple = Simple(now: int, log: map<Member, int>)

  predicate SimplyAdmits(u: Setup, r: Simple) {
    |InWindow(r.log, r.now - u.window + 1, u.window)| < u.limit
  }

  function SimpleNext(u: Setup, r: Simple, e: Event): Simple {
    match e
    case Allow(stamp, nonce) => if SimplyAdmits(u, r) then r.(log := r.log[Member(stamp, nonce) := stamp]) else r
    case Reset => r.(log := map[])
    case Tick(to) => r.(now := to)
    case _ => r
  }

  function SimpleExec(u: Setup, es: seq<Event>): Simple {
    if es == [] then Simple(u.start, map[])
    else SimpleNext(u, SimpleExec(u, es[..|es| - 1]), es[|es| - 1])
  }

  lemma SameDecision(u: Setup, s: State, nonce: int)
    requires u.limit >= 1 && u.window >= 1 && u.usage >= u.window
    requires Sound(u, s) && Retains(u, s) && NonNegative(s)
    ensures Admits(u, s, s.now, nonce) <==> SimplyAdmits(u, Simple(s.now, s.admitted))
  {
    hide ZRemRangeByScore, Script, Admits;
    var purged := AllowStep(u, s, s.now, nonce);
    var purged' := Purged(s.zset, s.now - u.window);
    assert purged.scores.Keys == InWindow(s.admitted, s.now - u.window + 1, u.window);
    assert |purged.scores| == |purged.scores.Keys|;
  }

  lemma SimpleStep(u: Setup, s: State, e: Event)
    requires u.limit >= 1 && u.window >= 1 && u.usage >= u.window && u.clocks == Lagging(0)
    requires Sound(u, s) && Retains(u, s) && NonNegative(s) && Enabled(u, s, e)
    ensures var s' := Next(u, s, e);
            Simple(s'.now, s'.admitted) == SimpleNext(u, Simple(s.now, s.admitted), e)
  {
    hide ZRemRangeByScore, Script, Admits, SimplyAdmits, Sound, Retains, NonNegative;
    if e.Allow? {
      SameDecision(u, s, e.nonce);
    }
  }

  /** With current timestamps the limiter makes the simple limiter's decision at every point of every
      run: neither purging nor PEXPIRE ever drops an event that still counts. */
  lemma {:induction false} RefinesSimpleLimiter(u: Setup, es: seq<Event>, nonce: int)
    requires u.limit >= 1 && u.window >= 1 && u.usage >= u.window && u.clocks == Lagging(0) && u.start >= 0
    requires Run(u, es)
    ensures Simple(Exec(u, es).now, Exec(u, es).admitted) == SimpleExec(u, es)
    ensures Admits(u, Exec(u, es), Exec(u, es).now, nonce) <==> SimplyAdmits(u, SimpleExec(u, es))
  {
    hide Next, SimpleNext, Admits, SimplyAdmits, Sound, Retains, NonNegative;
    AlwaysRetains(u, es);
    AlwaysNonNegative(u, es);
    SameDecision(u, Exec(u, es), nonce);
    if es != [] {
      var before := es[..|es| - 1];
      RefinesSimpleLimiter(u, before, nonce);
      AlwaysRetains(u, before);
      AlwaysNonNegative(u, before);
      SimpleStep(u, Exec(u, before), es[|es| - 1]);
    }
  }

  ghost predicate Refines(u: Setup) {
    forall es, nonce :: Run(u, es) ==>
      (Admits(u, Exec(u, es), Exec(u, es).now, nonce) <==> SimplyAdmits(u, SimpleExec(u, es)))
  }

  lemma SimpleSnoc(u: Setup, es: seq<Event>, e: Event)
    ensures SimpleExec(u, es + [e]) == SimpleNext(u, SimpleExec(u, es), e)
  {
    assert (es + [e])[..|es|] == es;
  }

  lemma SimpleBurstStep(u: Setup, at: int, n: nat)
    requires u.limit >= 1 && u.window >= 1 && 1 <= n <= u.limit
    ensures SimpleNext(u, Simple(at, Stamped(at, n - 1)), Allow(at, n)) == Simple(at, Stamped(at, n))
  {
    var log := Stamped(at, n - 1);
    StampedSize(at, n - 1);
    SubsetSize(InWindow(log, at - u.window + 1, u.window), log.Keys);
    assert |log| == |log.Keys|;
  }

  lemma {:induction false} SimpleBurst(u: Setup, at: int, n: nat)
    requires u.limit >= 1 && u.window >= 1 && n <= u.limit
    ensures SimpleExec(u, Burst(at, at, n)) == Simple(at, Stamped(at, n))
  {
    hide SimpleExec;
    if n == 0 {
      SimpleSnoc(u, [], Tick(at));
      assert [] + [Tick(at)] == [Tick(at)];
      SimpleStart(u);
    } else {
      hide SimpleNext;
      SimpleBurst(u, at, n - 1);
      SimpleSnoc(u, Burst(at, at, n - 1), Allow(at, n));
      SimpleBurstStep(u, at, n);
    }
  }

  lemma SimpleStart(u: Setup)
    ensures SimpleExec(u, []) == Simple(u.start, map[])
  {
  }

  /** With a start before 1970 the limiter refuses where the simple one admits. */
  lemma EarlyStartDiffers(u: Setup)
    requires u.limit >= 1 && u.window >= 1 && u.clocks == Lagging(0) && u.start < 0
    ensures !Refines(u)
  {
    hide Script, Admits, Next, Stamped;
    var burst := Burst(u.start, u.start, u.limit);
    var es := burst + [Tick(u.start + u.window)];
    BurstRuns(u, u.start, u.start, u.limit);
    ExecSnoc(u, burst, Tick(u.start + u.window));
    TickOnly(u, BurstState(u, u.start, u.start, u.limit), u.start + u.window);
    FilledRefuses(u, u.start, u.start, 0);
    SimpleBurst(u, u.start, u.limit);
    SimpleSnoc(u, burst, Tick(u.start + u.window));
    var r := SimpleExec(u, es);
    assert InWindow(r.log, u.start + 1, u.window) <= Newer(r.log, u.start);
    assert InWindow(r.log, u.start + 1, u.window) == {};
    assert !Admits(u, Exec(u, es), Exec(u, es).now, 0);
  }

  /** With a smaller window given to GetUsage it admits where the simple one refuses. */
  lemma SmallUsageDiffers(u: Setup)
    requires u.limit >= 1 && u.window >= 1 && u.clocks == Lagging(0) && u.start >= 0 && u.usage < u.window
    ensures !Refines(u)
  {
    hide Script, Admits, Next, Exec, Run;
    FillRuns(u);
    EmptyAdmits(u, Filled(u).(zset := NO_KEY), Wait(u), 0);
    var burst := Burst(u.start, u.start, u.limit);
    SimpleBurst(u, u.start, u.limit);
    SimpleSnoc(u, burst, Tick(Wait(u)));
    SimpleSnoc(u, burst + [Tick(Wait(u))], Loss(u));
    var r := SimpleExec(u, Fill(u));
    StampedSize(u.start, u.limit);
    assert InWindow(r.log, r.now - u.window + 1, u.window) == r.log.Keys;
    assert |r.log| == |r.log.Keys|;
    assert Admits(u, Exec(u, Fill(u)), Exec(u, Fill(u)).now, 0);
  }

  /** With current timestamps the limiter and the simple limiter agree at every point of every run exactly
      when GetUsage is not given a smaller window and time starts in 1970 or later, or when the window is
      below a millisecond and neither refuses anything. */
  lemma RefinesExactlyWhen(u: Setup)
    requires u.limit >= 1 && u.window >= 0 && u.clocks == Lagging(0)
    ensures Refines(u) <==> u.window == 0 || (u.usage >= u.window && u.start >= 0)
  {
    hide Exec, Run, Admits;
    if u.window == 0 {
      forall es, nonce | Run(u, es)
        ensures Admits(u, Exec(u, es), Exec(u, es).now, nonce) && SimplyAdmits(u, SimpleExec(u, es))
      {
        NoMillisecondNoLimit(u, es, Exec(u, es).now, nonce);
        assert InWindow(SimpleExec(u, es).log, SimpleExec(u, es).now - u.window + 1, u.window) == {};
      }
    } else if u.start < 0 {
      EarlyStartDiffers(u);
    } else if u.usage < u.window {
      SmallUsageDiffers(u);
    } else {
      forall es, nonce | Run(u, es)
        ensures Admits(u, Exec(u, es), Exec(u, es).now, nonce) <==> SimplyAdmits(u, SimpleExec(u, es))
      {
        RefinesSimpleLimiter(u, es, nonce);
      }
    }
  }

  lemma UsageBoundsAt(u: Setup, s: State)
    requires u.usage >= u.window && Sound(u, s) && Retains(u, s)
    ensures |InWindow(s.admitted, s.now - u.window + 1, u.window)| <= |s.zset.scores| <= u.limit
  {
    SubsetSize(InWindow(s.admitted, s.now - u.window + 1, u.window), s.zset.scores.Keys);
    assert |s.zset.scores| == |s.zset.scores.Keys|;
  }

  /** What GetUsage reports at any moment: every event still inside the window, never more than the limit. */
  lemma UsageBounds(u: Setup, es: seq<Event>)
    requires u.limit >= 1 && u.window >= 0 && u.usage >= u.window && u.clocks.Lagging?
    requires Run(u, es)
    ensures var s := Exec(u, es);
            |InWindow(s.admitted, s.now - u.window + 1, u.window)| <= |s.zset.scores| <= u.limit
  {
    hide Exec, Run, Sound, Retains;
    if u.window == 0 {
      NoMillisecondNoLimit(u, es, 0, 0);
      assert InWindow(Exec(u, es).admitted, Exec(u, es).now - u.window + 1, u.window) == {};
    } else {
      AlwaysRetains(u, es);
      UsageBoundsAt(u, Exec(u, es));
    }
  }
}
