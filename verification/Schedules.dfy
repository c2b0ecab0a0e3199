/** The lifecycle operations as sequences of atomic steps, each run without interference except for the
    collectors that finish, and the one thing that still goes wrong: the reuse of the WaitGroup. */
module Schedules {
  import opened Prelude
  import opened Lifecycle

  lemma Extend(s: State, es: seq<Event>, e: Event)
    requires Run(s, es) && Enabled(Exec(s, es), e)
    ensures Run(s, es + [e]) && Exec(s, es + [e]) == Next(Exec(s, es), e)
  {
    assert (es + [e])[..|es|] == es;
  }

  lemma {:induction false} Append(s: State, a: seq<Event>, b: seq<Event>)
    requires Run(s, a) && Run(Exec(s, a), b)
    ensures Run(s, a + b) && Exec(s, a + b) == Exec(Exec(s, a), b)
  {
    hide Next, Enabled;
    if b == [] {
      assert a + b == a;
    } else {
      assert (a + b)[..|a + b| - 1] == a + b[..|b| - 1];
      Append(s, a, b[..|b| - 1]);
    }
  }

  lemma NoStep(s: State)
    ensures Run(s, []) && Exec(s, []) == s
  {
  }

  lemma OneStep(s: State, e: Event)
    requires Enabled(s, e)
    ensures Run(s, [e]) && Exec(s, [e]) == Next(s, e)
  {
    hide Next, Enabled, Run, Exec;
    NoStep(s);
    Extend(s, [], e);
    assert [] + [e] == [e];
  }

  lemma TwoSteps(s: State, a: Event, b: Event)
    requires Enabled(s, a) && Enabled(Next(s, a), b)
    ensures Run(s, [a, b]) && Exec(s, [a, b]) == Next(Next(s, a), b)
  {
    hide Enabled, Next, Run, Exec;
    OneStep(s, a);
    Extend(s, [a], b);
    assert [a] + [b] == [a, b];
  }

  lemma ThreeSteps(s: State, a: Event, b: Event, c: Event)
    requires Enabled(s, a) && Enabled(Next(s, a), b) && Enabled(Next(Next(s, a), b), c)
    ensures Run(s, [a, b, c]) && Exec(s, [a, b, c]) == Next(Next(Next(s, a), b), c)
  {
    hide Enabled, Next, Run, Exec;
    TwoSteps(s, a, b);
    Extend(s, [a, b], c);
    assert [a, b] + [c] == [a, b, c];
  }

  // ---------- startup ----------

  /** startPoolStatsCollector or startInfoCollector. */
  function CollectorEvents(quit: Option<Channel>): seq<Event> {
    if quit.None? then [ReadQuit] else [ReadQuit, AddToWaitGroup, Spawn]
  }

  function PublishEvents(): seq<Event> {
    [BeginStartup, EndPing(true)] + [PublishClient, PublishQuit]
  }

  function StartupEvents(ok: bool, quit: Channel): seq<Event> {
    if ok then PublishEvents() + (CollectorEvents(Some(quit)) + CollectorEvents(Some(quit)))
    else [BeginStartup, EndPing(false)] + [CloseFailedClient, CountFailure]
  }

  function WithCollector(s: State): State
    requires s.op.StartingCollector? && s.statsQuit.Some?
  {
    s.(op := AfterCollector(s.op.info), waitGroup := s.waitGroup + 1,
       running := s.running[s.spawned := s.statsQuit.value], spawned := s.spawned + 1)
  }

  lemma CollectorRun(s: State)
    requires s.op.StartingCollector?
    ensures Run(s, CollectorEvents(s.statsQuit))
    ensures Exec(s, CollectorEvents(s.statsQuit)) ==
            if s.statsQuit.None? then s.(op := AfterCollector(s.op.info)) else WithCollector(s)
  {
    hide Exec, Run;
    if s.statsQuit.None? {
      OneStep(s, ReadQuit);
    } else {
      ThreeSteps(s, ReadQuit, AddToWaitGroup, Spawn);
    }
  }

  lemma PingRun(s: State, ok: bool)
    requires s.op.Idle? && s.rdb.None?
    ensures Run(s, [BeginStartup, EndPing(ok)])
    ensures Exec(s, [BeginStartup, EndPing(ok)]) ==
            s.(op := if ok then Pinged(s.created) else PingFailed(s.created), attempts := s.attempts + 1, created := s.created + 1)
  {
    hide Exec, Run;
    TwoSteps(s, BeginStartup, EndPing(ok));
  }

  function WithClient(s: State): State {
    s.(op := StartingCollector(false), attempts := s.attempts + 1, created := s.created + 1,
       rdb := Some(s.created), statsQuit := Some(s.made), made := s.made + 1, publications := s.publications + 1)
  }

  lemma PublishRun(s: State)
    requires s.op.Idle? && s.rdb.None?
    ensures Run(s, PublishEvents()) && Exec(s, PublishEvents()) == WithClient(s)
  {
    hide Exec, Run;
    PingRun(s, true);
    TwoSteps(Exec(s, [BeginStartup, EndPing(true)]), PublishClient, PublishQuit);
    Append(s, [BeginStartup, EndPing(true)], [PublishClient, PublishQuit]);
  }

  lemma FailRun(s: State)
    requires s.op.Idle? && s.rdb.None?
    ensures Run(s, StartupEvents(false, s.made))
    ensures Exec(s, StartupEvents(false, s.made)) ==
            s.(attempts := s.attempts + 1, created := s.created + 1,
               closeCalls := s.closeCalls + [s.created], failures := s.failures + 1)
  {
    hide Exec, Run;
    PingRun(s, false);
    TwoSteps(Exec(s, [BeginStartup, EndPing(false)]), CloseFailedClient, CountFailure);
    Append(s, [BeginStartup, EndPing(false)], [CloseFailedClient, CountFailure]);
  }

  // ---------- cleanup ----------

  function ExitEvents(exits: seq<Collector>): seq<Event> {
    if exits == [] then [] else ExitEvents(exits[..|exits| - 1]) + [Exit(exits[|exits| - 1])]
  }

  /** Waiting for the collectors, of which `exits` finish before the waiter looks at the count. */
  function WaitEvents(quit: Channel, exits: seq<Collector>, stopped: bool): seq<Event> {
    ExitEvents(exits) + [EnterWait(quit), if stopped then TakeDone else GiveUpWaiting]
  }

  function CleanupEvents(client: Option<Client>, quit: Option<Channel>, exits: seq<Collector>, stopped: bool): seq<Event> {
    [BeginCleanup, ClearQuit, SignalStop]
    + (if client.Some? && quit.Some? then WaitEvents(quit.value, exits, stopped) else [])
    + (if client.Some? then [RequestClose, EndCleanup] else [])
  }

  function TakenDown(s: State): State {
    var t := s.(rdb := None, statsQuit := None);
    if s.rdb.None? then t
    else if s.statsQuit.None? then t.(op := Closing(s.rdb.value))
    else
      t.(op := Waiting(s.rdb.value, s.statsQuit.value), closings := s.closings + [s.statsQuit.value],
         waiters := s.waiters[s.statsQuit.value := Starting])
  }

  lemma TakeRun(s: State)
    requires s.op.Idle?
    ensures Run(s, [BeginCleanup, ClearQuit, SignalStop])
    ensures Exec(s, [BeginCleanup, ClearQuit, SignalStop]) == TakenDown(s)
  {
    hide Exec, Run;
    ThreeSteps(s, BeginCleanup, ClearQuit, SignalStop);
  }

  /** The collectors that finish were running and are running no longer; nothing else moves but the count
      and, when it reaches zero, the blocked waiters. */
  predicate Exited(s: State, exits: seq<Collector>, t: State) {
    && t == s.(running := t.running, waitGroup := t.waitGroup, waiters := t.waiters)
    && t.running.Keys == s.running.Keys - (set c | c in exits)
    && t.waiters.Keys == s.waiters.Keys
    && forall q <- s.waiters :: s.waiters[q].Starting? ==> t.waiters[q].Starting?
  }

  lemma ExitEffect(s: State, c: Collector)
    requires c in s.running
    ensures Next(s, Exit(c)) == s.(running := s.running - {c}, waitGroup := s.waitGroup - 1,
                                   waiters := if s.waitGroup == 1 then Wake(s.waiters) else s.waiters)
  {
  }

  lemma ExitStep(s: State, exits: seq<Collector>, t: State, c: Collector)
    requires Exited(s, exits, t) && c in t.running
    ensures Exited(s, exits + [c], Next(t, Exit(c)))
  {
    assert (set x | x in exits + [c]) == (set x | x in exits) + {c};
  }

  lemma {:induction false} ExitRun(s: State, exits: seq<Collector>)
    requires NoRepeats(exits) && forall c <- exits :: c in s.running
    ensures Run(s, ExitEvents(exits)) && Exited(s, exits, Exec(s, ExitEvents(exits)))
  {
    hide Exec, Run, Next;
    if exits == [] {
      NoStep(s);
    } else {
      var init, c := exits[..|exits| - 1], exits[|exits| - 1];
      ExitRun(s, init);
      Extend(s, ExitEvents(init), Exit(c));
      ExitStep(s, init, Exec(s, ExitEvents(init)), c);
      assert init + [c] == exits;
    }
  }

  lemma ExitNext(s: State, exits: seq<Collector>, i: nat)
    requires NoRepeats(exits) && (forall c <- exits :: c in s.running) && i < |exits|
    requires Run(s, ExitEvents(exits[..i]))
    ensures Run(s, ExitEvents(exits[..i + 1]))
    ensures var t := Exec(s, ExitEvents(exits[..i]));
            exits[i] in t.running && Exec(s, ExitEvents(exits[..i + 1])) == Next(t, Exit(exits[i]))
  {
    hide Exec, Run, Next;
    ExitRun(s, exits[..i]);
    assert exits[..i + 1][..i] == exits[..i];
    Extend(s, ExitEvents(exits[..i]), Exit(exits[i]));
  }

  lemma StopWaiting(s: State, stopped: bool)
    requires s.op.Waiting? && s.op.quit in s.waiters && s.waiters[s.op.quit].Starting? && (stopped ==> s.waitGroup == 0)
    ensures var es := [EnterWait(s.op.quit), if stopped then TakeDone else GiveUpWaiting];
            && Run(s, es)
            && Exec(s, es) == s.(op := Closing(s.op.client),
                                 waiters := s.waiters[s.op.quit := if s.waitGroup == 0 then Returned else Blocked])
  {
    hide Exec, Run;
    TwoSteps(s, EnterWait(s.op.quit), if stopped then TakeDone else GiveUpWaiting);
  }

  lemma CloseRun(s: State)
    requires s.op.Closing?
    ensures Run(s, [RequestClose, EndCleanup])
    ensures Exec(s, [RequestClose, EndCleanup]) == s.(op := Idle, closeCalls := s.closeCalls + [s.op.client])
  {
    hide Exec, Run;
    TwoSteps(s, RequestClose, EndCleanup);
  }

  lemma StartupRun(s: State)
    requires s.op.Idle? && s.rdb.None?
    ensures Run(s, StartupEvents(true, s.made))
    ensures Exec(s, StartupEvents(true, s.made)) ==
            s.(rdb := Some(s.created), statsQuit := Some(s.made), created := s.created + 1, made := s.made + 1,
               attempts := s.attempts + 1, publications := s.publications + 1,
               waitGroup := s.waitGroup + 2, spawned := s.spawned + 2,
               running := s.running[s.spawned := s.made][s.spawned + 1 := s.made])
  {
    hide Exec, Run, CollectorEvents;
    var quit := Some(s.made);
    PublishRun(s);
    CollectorRun(WithClient(s));
    CollectorRun(WithCollector(WithClient(s)));
    Append(WithClient(s), CollectorEvents(quit), CollectorEvents(quit));
    Append(s, PublishEvents(), CollectorEvents(quit) + CollectorEvents(quit));
  }

  /** The state in which the client is handed to Close; `t` is where TakenDown and the wait led. */
  lemma CleanupRun(s: State, exits: seq<Collector>, stopped: bool, t: State)
    requires s.op.Idle? && (s.rdb.Some? ==> t.op == Closing(s.rdb.value))
    requires s.rdb.Some? && s.statsQuit.Some? ==>
               var wait := WaitEvents(s.statsQuit.value, exits, stopped); Run(TakenDown(s), wait) && t == Exec(TakenDown(s), wait)
    requires !(s.rdb.Some? && s.statsQuit.Some?) ==> t == TakenDown(s)
    ensures var es := CleanupEvents(s.rdb, s.statsQuit, exits, stopped);
            && Run(s, es)
            && Exec(s, es) == if s.rdb.None? then t else t.(op := Idle, closeCalls := t.closeCalls + [s.rdb.value])
  {
    hide Exec, Run, Next, Enabled, TakenDown, WaitEvents;
    var take, close := [BeginCleanup, ClearQuit, SignalStop], [RequestClose, EndCleanup];
    var wait := if s.rdb.Some? && s.statsQuit.Some? then WaitEvents(s.statsQuit.value, exits, stopped) else [];
    TakeRun(s);
    NoStep(t);
    Append(s, take, wait);
    if s.rdb.Some? {
      CloseRun(t);
      Append(s, take + wait, close);
    } else {
      assert take + wait + [] == take + wait;
    }
  }

  lemma ConfigureRun(s: State, c: Config)
    requires s.op.Idle?
    ensures Run(s, [BeginConfigure(c), StoreConfig])
    ensures Exec(s, [BeginConfigure(c), StoreConfig]) == s.(conf := Some(c))
  {
    hide Exec, Run;
    TwoSteps(s, BeginConfigure(c), StoreConfig);
  }

  lemma InitializeRun(s: State, c: Config)
    requires MuFree(s)
    ensures Run(s, [Initialize(c)]) && Exec(s, [Initialize(c)]) == s.(conf := Some(c))
  {
    hide Exec, Run;
    OneStep(s, Initialize(c));
  }

  // ---------- reuse of the WaitGroup ----------

  /** The Go runtime panics in a Wait that was woken and finds the count nonzero again: "WaitGroup is
      reused before previous Wait has returned". */
  predicate Reused(s: State) {
    s.waitGroup != 0 && exists q <- s.waiters :: s.waiters[q].Woken?
  }

  /** Every waiter has returned except that of the cleanup in progress. */
  predicate NoStray(s: State) {
    forall q <- s.waiters :: s.waiters[q].Returned? || (s.op.Waiting? && s.op.quit == q)
  }

  lemma {:induction false} PatienceLeavesNoStray(s: State, es: seq<Event>)
    requires Run(s, es) && NoStray(s) && GiveUpWaiting !in es
    ensures NoStray(Exec(s, es))
  {
    if es != [] {
      hide Next;
      var e := es[|es| - 1];
      assert e in es;
      PatienceLeavesNoStray(s, es[..|es| - 1]);
      StrayStep(Exec(s, es[..|es| - 1]), e);
    }
  }

  lemma StrayStep(s: State, e: Event)
    requires NoStray(s) && Enabled(s, e) && !e.GiveUpWaiting?
    ensures NoStray(Next(s, e))
  {
  }

  lemma NoStrayNoReuse(s: State)
    requires NoStray(s) && WaitersAccounted(s)
    ensures !Reused(s)
  {
  }

  /** The panic can follow, even if no cleanup gives up from now on. */
  ghost predicate ReuseFollows(s: State) {
    exists es :: Run(s, es) && GiveUpWaiting !in es && Reused(Exec(s, es))
  }

  /** All running collectors finish, and every blocked waiter is woken. */
  lemma {:induction false} Drain(s: State) returns (es: seq<Event>)
    requires Inv(s) && s.op.Idle?
    ensures Run(s, es) && GiveUpWaiting !in es
    ensures var t := Exec(s, es);
            && Inv(t) && t.op.Idle? && t.waitGroup == 0
            && forall q <- s.waiters :: q in t.waiters && t.waiters[q] == if s.waiters[q].Blocked? then Woken else s.waiters[q]
    decreases |s.running|
  {
    hide Exec, Run, ClientsAccounted, ClientsCovered, AttemptsAccounted, ChannelsAccounted, Published, Watched;
    if s.running == map[] {
      es := [];
      NoStep(s);
    } else {
      var c :| c in s.running;
      InvStep(s, Exit(c));
      OneStep(s, Exit(c));
      RemovedSize(s.running, c);
      es := Drain(Next(s, Exit(c)));
      Append(s, [Exit(c)], es);
      es := [Exit(c)] + es;
    }
  }

  lemma RemovedSize(m: map<Collector, Channel>, c: Collector)
    requires c in m
    ensures |m - {c}| < |m|
  {
    assert (m - {c}).Keys == m.Keys - {c};
    assert |m| == |m.Keys| && |m - {c}| == |(m - {c}).Keys|;
  }

  /** Cleanup of what is published, if anything, when no collector runs any more. */
  lemma Quiesce(s: State) returns (es: seq<Event>)
    requires Inv(s) && s.op.Idle? && s.waitGroup == 0
    ensures Run(s, es) && GiveUpWaiting !in es
    ensures var t := Exec(s, es);
            && t.op.Idle? && t.waitGroup == 0 && t.rdb.None?
            && forall q <- s.waiters :: q in t.waiters && t.waiters[q] == s.waiters[q]
  {
    hide Exec, Run;
    if s.rdb.None? {
      es := [];
      NoStep(s);
    } else {
      var take, close := [BeginCleanup, ClearQuit, SignalStop], [RequestClose, EndCleanup];
      var wait := [EnterWait(s.statsQuit.value), TakeDone];
      var taken := TakenDown(s);
      TakeRun(s);
      StopWaiting(taken, true);
      Append(s, take, wait);
      CloseRun(Exec(s, take + wait));
      Append(s, take + wait, close);
      es := take + wait + close;
    }
  }

  lemma Restart(s: State) returns (es: seq<Event>)
    requires Inv(s) && s.op.Idle? && s.waitGroup == 0
    ensures Run(s, es) && GiveUpWaiting !in es
    ensures var t := Exec(s, es);
            && Inv(t) && t.op.Idle? && t.waitGroup == 2
            && forall q <- s.waiters :: q in t.waiters && t.waiters[q] == s.waiters[q]
  {
    hide Exec, Run, Inv;
    var down := Quiesce(s);
    var t := Exec(s, down);
    StartupRun(t);
    Append(s, down, StartupEvents(true, t.made));
    es := down + StartupEvents(true, t.made);
    InvRun(s, es);
  }

  lemma WokenLeads(s: State, q: Channel)
    requires Inv(s) && s.op.Idle? && q in s.waiters && s.waiters[q].Woken?
    ensures ReuseFollows(s)
  {
    hide Exec, Run, Inv;
    var es := [];
    NoStep(s);
    if s.waitGroup == 0 {
      es := Restart(s);
    }
    assert Reused(Exec(s, es));
  }

  lemma ReuseFollowsLater(s: State, es: seq<Event>)
    requires Run(s, es) && GiveUpWaiting !in es && ReuseFollows(Exec(s, es))
    ensures ReuseFollows(s)
  {
    hide Exec, Run, Reused;
    var more :| Run(Exec(s, es), more) && GiveUpWaiting !in more && Reused(Exec(Exec(s, es), more));
    Append(s, es, more);
    assert GiveUpWaiting !in es + more;
  }

  lemma BlockedLeads(s: State, q: Channel)
    requires Inv(s) && s.op.Idle? && q in s.waiters && s.waiters[q].Blocked?
    ensures ReuseFollows(s)
  {
    hide Exec, Run, Inv, ReuseFollows;
    var es := Drain(s);
    WokenLeads(Exec(s, es), q);
    ReuseFollowsLater(s, es);
  }

  lemma BusyStartingLeads(s: State, q: Channel)
    requires Inv(s) && s.op.Idle? && s.waitGroup != 0 && q in s.waiters && s.waiters[q].Starting?
    ensures ReuseFollows(s)
  {
    hide Exec, Run, Inv, ReuseFollows;
    InvStep(s, EnterWait(q));
    OneStep(s, EnterWait(q));
    BlockedLeads(Next(s, EnterWait(q)), q);
    ReuseFollowsLater(s, [EnterWait(q)]);
  }

  lemma StartingLeads(s: State, q: Channel)
    requires Inv(s) && s.op.Idle? && q in s.waiters && s.waiters[q].Starting?
    ensures ReuseFollows(s)
  {
    hide Exec, Run, Inv, ReuseFollows;
    if s.waitGroup != 0 {
      BusyStartingLeads(s, q);
    } else {
      var es := Restart(s);
      BusyStartingLeads(Exec(s, es), q);
      ReuseFollowsLater(s, es);
    }
  }

  /** Between two operations the panic can follow without a further give-up exactly when the waiter of an
      earlier cleanup, which then gave up, has not returned. */
  lemma ReuseFollowsExactlyWhen(s: State)
    requires Inv(s) && s.op.Idle?
    ensures ReuseFollows(s) <==> exists q <- s.waiters :: !s.waiters[q].Returned?
  {
    hide Exec, Run;
    if q :| q in s.waiters && !s.waiters[q].Returned? {
      match s.waiters[q]
      case Starting => StartingLeads(s, q);
      case Blocked => BlockedLeads(s, q);
      case Woken => WokenLeads(s, q);
    } else {
      forall es | Run(s, es) && GiveUpWaiting !in es
        ensures !Reused(Exec(s, es))
      {
        PatienceLeavesNoStray(s, es);
        InvRun(s, es);
        NoStrayNoReuse(Exec(s, es));
      }
    }
  }

  /** Some run, without give-ups unless they are allowed, reaches the panic. */
  ghost predicate ReuseReachable(mayGiveUp: bool) {
    exists es :: Run(INITIAL, es) && (mayGiveUp || GiveUpWaiting !in es) && Reused(Exec(INITIAL, es))
  }

  lemma GiveUpRun() returns (es: seq<Event>)
    ensures Run(INITIAL, es)
    ensures var t := Exec(INITIAL, es); t.op.Idle? && 0 in t.waiters && t.waiters[0].Blocked?
  {
    hide Exec, Run;
    var start := StartupEvents(true, 0);
    StartupRun(INITIAL);
    var s := Exec(INITIAL, start);
    TakeRun(s);
    StopWaiting(TakenDown(s), false);
    var take, wait, close := [BeginCleanup, ClearQuit, SignalStop], [EnterWait(0), GiveUpWaiting], [RequestClose, EndCleanup];
    Append(s, take, wait);
    CloseRun(Exec(s, take + wait));
    Append(s, take + wait, close);
    Append(INITIAL, start, take + wait + close);
    es := start + (take + wait + close);
  }

  /** Over all runs the panic is reachable exactly if cleanups may give up waiting. */
  lemma ReuseReachableExactlyWhen(mayGiveUp: bool)
    ensures ReuseReachable(mayGiveUp) <==> mayGiveUp
  {
    hide Exec, Run, Inv, Reused;
    InitialInv();
    if mayGiveUp {
      var es := GiveUpRun();
      InvRun(INITIAL, es);
      ReuseFollowsExactlyWhen(Exec(INITIAL, es));
      var more :| Run(Exec(INITIAL, es), more) && GiveUpWaiting !in more && Reused(Exec(Exec(INITIAL, es), more));
      Append(INITIAL, es, more);
      assert Run(INITIAL, es + more);
    } else {
      ReuseFollowsExactlyWhen(INITIAL);
      assert INITIAL.waiters == map[];
    }
  }
}
