/** The plugin object. Each of its lifecycle operations, run by one goroutine, is proved to be a run of the
    atomic steps of module Lifecycle, and with that to keep what holds over all runs. */
module Plugin {
  import opened Prelude
  import opened Lifecycle
  import opened Schedules
  import Configuration

  datatype StartupError = CanceledBefore | AlreadyStarted | Canceled | CanceledDuringPing | PingFailure

  datatype CleanupError = NotBegun | CloseFailed | CanceledClosing | CanceledAfter

  /** How the select on client.Close and the context ends. */
  datatype Closure = Closed | CloseError | ContextExpired

  /** What Configure is given: nil, a value of another type, or a configuration. */
  datatype Argument = Nil | OtherType | Given(config: Configuration.RedisConfig)

  datatype ConfigureError = WrongType | Rejected

  /** What the runtime's configuration is, and what scanning it into a new configuration gives. */
  datatype RuntimeConfig = NoConfig | ScanFails | Scanned(config: Configuration.RedisConfig)

  datatype InitializeError = BaseFailed | NoRuntimeConfig | NotScanned | NotValid

  /** No operation in progress and nothing published: every client ever created was closed, once. */
  lemma AllClientsClosed(s: State)
    requires Inv(s) && s.op.Idle? && s.rdb.None?
    ensures NoRepeats(s.closeCalls) && forall c: Client :: c < s.created <==> c in s.closeCalls
  {
  }

  lemma BothOrNeither(s: State)
    requires Inv(s) && s.op.Idle?
    ensures s.rdb.Some? <==> s.statsQuit.Some?
  {
  }

  lemma InvAnyConfig(s: State, c: Config)
    requires Inv(s) && s.op.Idle?
    ensures Inv(s.(conf := Some(c)))
  {
    hide Inv;
    InvStep(s, Initialize(c));
  }

  lemma NoCountNoCollectors(s: State)
    requires Inv(s) && s.waitGroup == 0
    ensures s.running == map[]
  {
    assert |s.running| == 0;
  }


  class PlugRedis {
    ghost var op: Op
    var rdb: Option<Client>
    var statsQuit: Option<Channel>
    var conf: Configuration.RedisConfig?
    var created: nat
    var closeCalls: seq<Client>
    var made: nat
    var closings: seq<Channel>
    var spawned: nat
    var running: map<Collector, Channel>
    var statsWG: int
    ghost var waiters: map<Channel, Waiter>
    var attempts: nat
    var failures: nat
    var publications: nat

    ghost function Snapshot(): State
      reads this, conf
    {
      State(op, rdb, statsQuit, if conf == null then None else Some(conf.Value()),
            created, closeCalls, made, closings, spawned, running, statsWG, waiters,
            attempts, failures, publications)
    }

    /** What holds between two operations. */
    ghost predicate AtRest()
      reads this, conf
    {
      op.Idle? && Inv(Snapshot())
    }

    constructor ()
      ensures Snapshot() == INITIAL && AtRest()
    {
      hide Inv, INITIAL, Snapshot;
      op, rdb, statsQuit, conf := Idle, None, None, null;
      created, closeCalls, made, closings, spawned, running, statsWG, waiters := 0, [], 0, [], 0, map[], 0, map[];
      attempts, failures, publications := 0, 0, 0;
      new;
      InitialInv();
      NewIsInitial(this);
    }

    /** startPoolStatsCollector (info false) and startInfoCollector (info true). */
    method StartCollector(info: bool)
      requires op == StartingCollector(info)
      modifies this
      ensures Run(old(Snapshot()), CollectorEvents(old(statsQuit)))
      ensures Snapshot() == Exec(old(Snapshot()), CollectorEvents(old(statsQuit)))
      ensures statsQuit == old(statsQuit) && rdb == old(rdb) && op == AfterCollector(info) && conf == old(conf)
      ensures statsWG == old(statsWG) + One(statsQuit != None) && spawned == old(spawned) + One(statsQuit != None)
      ensures running == if statsQuit == None then old(running) else old(running)[old(spawned) := statsQuit.value]
    {
      hide Exec, Run, Next, Enabled;
      CollectorRun(Snapshot());
      var quit := statsQuit;
      op := AfterCollector(info);
      if quit == None {
        return;
      }
      statsWG := statsWG + 1;
      running := running[spawned := quit.value];
      spawned := spawned + 1;
    }

    method StartCollectors()
      requires op == StartingCollector(false)
      modifies this
      ensures Run(old(Snapshot()), CollectorEvents(old(statsQuit)) + CollectorEvents(old(statsQuit)))
      ensures Snapshot() == Exec(old(Snapshot()), CollectorEvents(old(statsQuit)) + CollectorEvents(old(statsQuit)))
      ensures op.Idle? && rdb == old(rdb) && conf == old(conf)
    {
      hide Exec, Run, Next, Enabled, CollectorEvents;
      ghost var s := Snapshot();
      StartCollector(false);
      StartCollector(true);
      Append(s, CollectorEvents(old(statsQuit)), CollectorEvents(old(statsQuit)));
    }

    /** `pingOk` is the outcome of PING, `canceledAfter` whether the context is cancelled once it is known. */
    method StartupTasksContext(canceledBefore: bool, canceled: bool, pingOk: bool, canceledAfter: bool)
      returns (err: Option<StartupError>)
      requires AtRest()
      modifies this
      ensures AtRest()
      ensures canceledBefore ==> err == Some(CanceledBefore) && Snapshot() == old(Snapshot())
      ensures !canceledBefore && old(rdb).Some? ==> err == Some(AlreadyStarted) && Snapshot() == old(Snapshot())
      ensures !canceledBefore && old(rdb).None? && canceled ==> err == Some(Canceled) && Snapshot() == old(Snapshot())
      ensures !canceledBefore && old(rdb).None? && !canceled ==>
                && err == (if canceledAfter then Some(CanceledDuringPing) else if !pingOk then Some(PingFailure) else None)
                && var es := StartupEvents(err.None?, old(made));
                   Run(old(Snapshot()), es) && Snapshot() == Exec(old(Snapshot()), es)
      ensures !canceledBefore && old(rdb).None? && !canceled && err == None ==>
                && rdb == Some(old(created)) && statsQuit == Some(old(made))
                && created == old(created) + 1 && made == old(made) + 1
                && attempts == old(attempts) + 1 && publications == old(publications) + 1 && failures == old(failures)
                && closeCalls == old(closeCalls) && closings == old(closings)
                && statsWG == old(statsWG) + 2 && spawned == old(spawned) + 2
                && running == old(running)[old(spawned) := old(made)][old(spawned) + 1 := old(made)]
      ensures !canceledBefore && old(rdb).None? && !canceled && err != None ==>
                && rdb == None && statsQuit == old(statsQuit)
                && created == old(created) + 1 && made == old(made)
                && attempts == old(attempts) + 1 && publications == old(publications) && failures == old(failures) + 1
                && closeCalls == old(closeCalls) + [old(created)] && closings == old(closings)
                && statsWG == old(statsWG) && spawned == old(spawned) && running == old(running)
      ensures conf == old(conf)
    {
      hide Exec, Run, Next, Enabled, Inv;
      if canceledBefore {
        return Some(CanceledBefore);
      }
      if rdb != None {
        return Some(AlreadyStarted);
      }
      if canceled {
        return Some(Canceled);
      }
      if !pingOk || canceledAfter {
        FailedStartup();
        return Some(if canceledAfter then CanceledDuringPing else PingFailure);
      }
      Publish();
      return None;
    }

    method NewClient() returns (client: Client)
      requires op.Idle?
      modifies this
      ensures client == old(created) && conf == old(conf)
      ensures Snapshot() == old(Snapshot()).(op := Pinging(client), created := client + 1, attempts := old(attempts) + 1)
    {
      attempts := attempts + 1;
      client := created;
      created := created + 1;
      op := Pinging(client);
    }

    /** From the created client to the count of the failed startup. */
    method FailedStartup()
      requires AtRest() && rdb == None
      modifies this
      ensures AtRest() && conf == old(conf)
      ensures Snapshot() == old(Snapshot()).(created := old(created) + 1, attempts := old(attempts) + 1,
                                             failures := old(failures) + 1, closeCalls := old(closeCalls) + [old(created)])
      ensures var es := StartupEvents(false, old(made));
              Run(old(Snapshot()), es) && Snapshot() == Exec(old(Snapshot()), es)
    {
      hide Exec, Run, Next, Enabled, Inv;
      ghost var s := Snapshot();
      var client := NewClient();
      closeCalls := closeCalls + [client];
      failures := failures + 1;
      op := Idle;
      FailRun(s);
      InvRun(s, StartupEvents(false, s.made));
    }

    method PublishClient(client: Client)
      modifies this
      ensures Snapshot() == old(Snapshot()).(op := StartingCollector(false), rdb := Some(client), statsQuit := Some(old(made)),
                                             made := old(made) + 1, publications := old(publications) + 1)
      ensures conf == old(conf)
    {
      rdb := Some(client);
      statsQuit := Some(made);
      made := made + 1;
      publications := publications + 1;
      op := StartingCollector(false);
    }

    /** From the created client to the started collectors. */
    method Publish()
      requires AtRest() && rdb == None
      modifies this
      ensures AtRest() && conf == old(conf)
      ensures Snapshot() == old(Snapshot()).(
                rdb := Some(old(created)), statsQuit := Some(old(made)), created := old(created) + 1, made := old(made) + 1,
                attempts := old(attempts) + 1, publications := old(publications) + 1,
                waitGroup := old(statsWG) + 2, spawned := old(spawned) + 2,
                running := old(running)[old(spawned) := old(made)][old(spawned) + 1 := old(made)])
      ensures var es := StartupEvents(true, old(made));
              Run(old(Snapshot()), es) && Snapshot() == Exec(old(Snapshot()), es)
    {
      hide Exec, Run, Next, Enabled, Inv, CollectorEvents;
      ghost var s := Snapshot();
      PublishRun(s);
      var client := NewClient();
      PublishClient(client);
      StartCollectors();
      ghost var collect := CollectorEvents(Some(s.made)) + CollectorEvents(Some(s.made));
      Append(s, PublishEvents(), collect);
      StartupRun(s);
      InvRun(s, PublishEvents() + collect);
    }

    method Finish(collector: Collector)
      requires collector in running
      modifies this
      ensures Snapshot() == Next(old(Snapshot()), Exit(collector)) && conf == old(conf)
    {
      hide Next, Wake;
      ExitEffect(Snapshot(), collector);
      running := running - {collector};
      statsWG := statsWG - 1;
      if statsWG == 0 {
        waiters := Wake(waiters);
      }
    }

    /** The collectors that finish while cleanup waits. */
    method WaitForCollectors(exits: seq<Collector>)
      requires NoRepeats(exits) && forall c <- exits :: c in running
      modifies this
      ensures Run(old(Snapshot()), ExitEvents(exits))
      ensures Snapshot() == Exec(old(Snapshot()), ExitEvents(exits)) && conf == old(conf)
    {
      hide Exec, Run, Next, NoRepeats;
      ghost var s := Snapshot();
      NoStep(s);
      var i := 0;
      while i < |exits|
        invariant 0 <= i <= |exits| && conf == old(conf)
        invariant Run(s, ExitEvents(exits[..i])) && Snapshot() == Exec(s, ExitEvents(exits[..i]))
      {
        ExitNext(s, exits, i);
        Finish(exits[i]);
        i := i + 1;
      }
      assert exits[..i] == exits;
    }

    /** Signals the collectors, waits for them, and takes `done` or gives up. */
    method StopCollectors(client: Client, quit: Channel, exits: seq<Collector>, gaveUp: bool) returns (stopped: bool)
      requires op == Waiting(client, quit) && quit in waiters && waiters[quit] == Starting
      requires NoRepeats(exits) && forall c <- exits :: c in running
      modifies this
      ensures stopped <==> statsWG == 0 && !gaveUp
      ensures op == Closing(client) && conf == old(conf) && rdb == old(rdb) && statsQuit == old(statsQuit)
      ensures closings == old(closings) && closeCalls == old(closeCalls)
      ensures created == old(created) && made == old(made) && spawned == old(spawned)
              && attempts == old(attempts) && failures == old(failures) && publications == old(publications)
      ensures running.Keys == old(running).Keys - set c | c in exits
      ensures Run(old(Snapshot()), WaitEvents(quit, exits, stopped))
      ensures Snapshot() == Exec(old(Snapshot()), WaitEvents(quit, exits, stopped))
    {
      hide Exec, Run, Next, NoRepeats, ExitEvents;
      ghost var s := Snapshot();
      ExitRun(s, exits);
      WaitForCollectors(exits);
      stopped := statsWG == 0 && !gaveUp;
      StopWaiting(Snapshot(), stopped);
      Append(s, ExitEvents(exits), [EnterWait(quit), if stopped then TakeDone else GiveUpWaiting]);
      waiters := waiters[quit := if statsWG == 0 then Returned else Blocked];
      op := Closing(client);
    }

    /** Takes client and channel down, closes the channel and starts its waiter. */
    method Disconnect() returns (client: Option<Client>, quit: Option<Channel>)
      requires op.Idle?
      modifies this
      ensures client == old(rdb) && quit == old(statsQuit) && conf == old(conf) && running == old(running)
      ensures Snapshot() == TakenDown(old(Snapshot()))
      ensures rdb == None && statsQuit == None && closeCalls == old(closeCalls)
      ensures closings == old(closings) + if client.Some? && quit.Some? then [quit.value] else []
      ensures created == old(created) && made == old(made) && spawned == old(spawned)
              && attempts == old(attempts) && failures == old(failures) && publications == old(publications)
      ensures client.Some? && quit.Some? ==>
                op == Waiting(client.value, quit.value) && quit.value in waiters && waiters[quit.value] == Starting
      ensures client.Some? && quit.None? ==> op == Closing(client.value)
      ensures client.None? ==> op.Idle?
    {
      client, quit := rdb, statsQuit;
      rdb, statsQuit := None, None;
      if client == None {
        return;
      }
      op := Closing(client.value);
      if quit != None {
        closings := closings + [quit.value];
        waiters := waiters[quit.value := Starting];
        op := Waiting(client.value, quit.value);
      }
    }

    /** Close is called in a goroutine of its own and finishes even if nobody waits for it any longer. */
    method CloseClient(client: Client)
      requires op == Closing(client)
      modifies this
      ensures Snapshot() == old(Snapshot()).(op := Idle, closeCalls := old(closeCalls) + [client])
      ensures conf == old(conf) && rdb == old(rdb) && statsQuit == old(statsQuit) && statsWG == old(statsWG)
      ensures closings == old(closings) && closeCalls == old(closeCalls) + [client] && running == old(running)
      ensures created == old(created) && made == old(made) && spawned == old(spawned)
              && attempts == old(attempts) && failures == old(failures) && publications == old(publications)
    {
      closeCalls := closeCalls + [client];
      op := Idle;
    }

    /** The whole cleanup once its context was found alive. */
    method TakeDown(exits: seq<Collector>, gaveUp: bool) returns (stopped: bool)
      requires AtRest() && NoRepeats(exits) && forall c <- exits :: c in running
      modifies this
      ensures AtRest() && rdb == None && statsQuit == None && conf == old(conf)
      ensures closeCalls == old(closeCalls) + if old(rdb).Some? then [old(rdb).value] else []
      ensures closings == old(closings) + if old(rdb).Some? && old(statsQuit).Some? then [old(statsQuit).value] else []
      ensures created == old(created) && made == old(made) && spawned == old(spawned)
              && attempts == old(attempts) && failures == old(failures) && publications == old(publications)
      ensures old(rdb).Some? && old(statsQuit).Some? ==> running.Keys == old(running).Keys - set c | c in exits
      ensures stopped <==> old(rdb).Some? && old(statsQuit).Some? && statsWG == 0 && !gaveUp
      ensures var es := CleanupEvents(old(rdb), old(statsQuit), exits, stopped);
              Run(old(Snapshot()), es) && Snapshot() == Exec(old(Snapshot()), es)
    {
      hide Exec, Run, Next, Enabled, NoRepeats, TakenDown, WaitEvents, CleanupEvents, Inv;
      ghost var s := Snapshot();
      var client, quit := Disconnect();
      stopped := false;
      if client != None && quit != None {
        stopped := StopCollectors(client.value, quit.value, exits, gaveUp);
      }
      CleanupRun(s, exits, stopped, Snapshot());
      if client != None {
        CloseClient(client.value);
      }
      InvRun(s, CleanupEvents(s.rdb, s.statsQuit, exits, stopped));
    }

    /** `exits` are the collectors that finish while cleanup waits; `gaveUp` says that its timeout or its
        context fires, which wins over `done` when the latter never comes or loses the race. */
    method CleanupTasksContext(canceledBefore: bool, exits: seq<Collector>, gaveUp: bool, closure: Closure, canceledAfter: bool)
      returns (err: Option<CleanupError>, stopped: bool)
      requires AtRest() && NoRepeats(exits) && forall c <- exits :: c in running
      modifies this
      ensures AtRest()
      ensures canceledBefore ==> err == Some(NotBegun) && !stopped && Snapshot() == old(Snapshot())
      ensures !canceledBefore ==>
                && err == (if old(rdb).None? then None
                           else match closure
                             case CloseError => Some(CloseFailed)
                             case ContextExpired => Some(CanceledClosing)
                             case Closed => if canceledAfter then Some(CanceledAfter) else None)
                && var es := CleanupEvents(old(rdb), old(statsQuit), exits, stopped);
                   Run(old(Snapshot()), es) && Snapshot() == Exec(old(Snapshot()), es)
      ensures !canceledBefore ==>
                && rdb == None && statsQuit == None
                && NoRepeats(closeCalls) && (forall c: Client :: c < created <==> c in closeCalls)
                && closeCalls == old(closeCalls) + (if old(rdb).Some? then [old(rdb).value] else [])
                && closings == old(closings) + (if old(rdb).Some? then [old(statsQuit).value] else [])
                && (old(rdb).Some? ==> running.Keys == old(running).Keys - set c | c in exits)
      ensures created == old(created) && made == old(made) && spawned == old(spawned)
              && attempts == old(attempts) && failures == old(failures) && publications == old(publications)
      ensures conf == old(conf)
      ensures stopped <==> !canceledBefore && old(rdb).Some? && statsWG == 0 && !gaveUp
      ensures stopped ==> running == map[]
    {
      hide Exec, Run, Next, NoRepeats, CleanupEvents, Inv;
      if canceledBefore {
        return Some(NotBegun), false;
      }
      var client := rdb;
      BothOrNeither(Snapshot());
      stopped := TakeDown(exits, gaveUp);
      AllClientsClosed(Snapshot());
      if stopped {
        NoCountNoCollectors(Snapshot());
      }
      if client == None {
        return None, stopped;
      }
      match closure {
        case CloseError => return Some(CloseFailed), stopped;
        case ContextExpired => return Some(CanceledClosing), stopped;
        case Closed =>
      }
      if canceledAfter {
        return Some(CanceledAfter), stopped;
      }
      return None, stopped;
    }

    /** A configuration set beforehand is used as it is, and defaulted in place even if it is rejected. */
    method InitializeResources(policy: bool -> bool, baseOk: bool, runtime: RuntimeConfig) returns (err: Option<InitializeError>)
      requires AtRest()
      modifies this, conf, if runtime.Scanned? then {runtime.config} else {}
      ensures AtRest()
      ensures !baseOk ==> err == Some(BaseFailed) && Snapshot() == old(Snapshot())
      ensures baseOk && old(conf) == null && !runtime.Scanned? ==>
                && err == Some(if runtime.NoConfig? then NoRuntimeConfig else NotScanned)
                && Snapshot() == old(Snapshot())
      ensures baseOk && (old(conf) != null || runtime.Scanned?) ==>
                var c := Configuration.WithDefaults(old(if conf != null then conf.Value() else runtime.config.Value()));
                && err == (if Configuration.Acceptable(policy, c) then None else Some(NotValid))
                && conf == (if err == None then (if old(conf) != null then old(conf) else runtime.config) else old(conf))
                && (err == None ==> Run(old(Snapshot()), [Initialize(c)]) && Snapshot() == Exec(old(Snapshot()), [Initialize(c)]))
                && (err != None ==> Snapshot() == if old(conf) != null then old(Snapshot()).(conf := Some(c)) else old(Snapshot()))
    {
      hide Exec, Run, Next, Enabled, Inv, Configuration.Acceptable, Configuration.WithDefaults;
      ghost var s := Snapshot();
      if !baseOk {
        return Some(BaseFailed);
      }
      var cfg := conf;
      if cfg == null {
        match runtime {
          case NoConfig => return Some(NoRuntimeConfig);
          case ScanFails => return Some(NotScanned);
          case Scanned(config) => cfg := config;
        }
      }
      var ok := Configuration.ValidateAndSetDefaults(policy, cfg);
      ghost var c := cfg.Value();
      InitializeRun(s, c);
      InvAnyConfig(s, c);
      if !ok {
        return Some(NotValid);
      }
      conf := cfg;
      return None;
    }

    /** A rejected configuration has been defaulted all the same; that shows in the plugin if it is the one
        already stored. */
    method Configure(policy: bool -> bool, arg: Argument) returns (err: Option<ConfigureError>)
      requires AtRest()
      modifies this, if arg.Given? then {arg.config} else {}
      ensures AtRest()
      ensures arg.Nil? ==> err == None && Snapshot() == old(Snapshot())
      ensures arg.OtherType? ==> err == Some(WrongType) && Snapshot() == old(Snapshot())
      ensures arg.Given? ==>
                var c := Configuration.WithDefaults(old(arg.config.Value()));
                && arg.config.Value() == c
                && err == (if Configuration.Acceptable(policy, c) then None else Some(Rejected))
                && (err == None ==>
                      && conf == arg.config
                      && Run(old(Snapshot()), [BeginConfigure(c), StoreConfig])
                      && Snapshot() == Exec(old(Snapshot()), [BeginConfigure(c), StoreConfig]))
                && (err != None ==>
                      && conf == old(conf)
                      && Snapshot() == if old(conf) == arg.config then old(Snapshot()).(conf := Some(c)) else old(Snapshot()))
    {
      hide Exec, Run, Next, Enabled, Inv, Configuration.Acceptable, Configuration.WithDefaults;
      ghost var s := Snapshot();
      if arg.Nil? {
        return None;
      }
      if arg.OtherType? {
        return Some(WrongType);
      }
      var ok := Configuration.ValidateAndSetDefaults(policy, arg.config);
      ghost var c := arg.config.Value();
      InvAnyConfig(s, c);
      if !ok {
        return Some(Rejected);
      }
      conf := arg.config;
      ConfigureRun(s, c);
      return None;
    }
  }

  lemma NewIsInitial(r: PlugRedis)
    requires r.op.Idle? && r.rdb.None? && r.statsQuit.None? && r.conf == null
    requires r.created == r.made == r.spawned == r.statsWG == r.attempts == r.failures == r.publications == 0
    requires r.closeCalls == r.closings == [] && r.running == map[] && r.waiters == map[]
    ensures r.Snapshot() == INITIAL
  {
  }
}
