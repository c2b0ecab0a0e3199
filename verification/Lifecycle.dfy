/** The plugin's lifecycle: Startup, Cleanup and Configure serialised by `lifecycleMu`, the published
    fields guarded by `mu`, the collectors of every generation counted by one WaitGroup.

    Every step below is one stretch of code between two points where another goroutine may run.
    `op` says where the holder of `lifecycleMu` stands, `waiters` where the goroutines stand that cleanups
    start to wait for the collectors. */
module Lifecycle {
  import opened Prelude
  import Configuration

  type Client = nat     // in order of creation
  type Channel = nat    // in order of creation
  type Collector = nat  // in order of creation
  type Config = Configuration.Redis

  datatype Op =
    | Idle                                                      // lifecycleMu is free
    | Pinging(client: Client)
    | PingFailed(client: Client)
    | FailedClosed                                              // closed, not yet counted as a failure
    | Pinged(client: Client)
    | HalfPublished(client: Client)                             // holds mu: rdb set, statsQuit not yet
    | StartingCollector(info: bool)                             // pool stats first, then INFO
    | AddingCollector(info: bool, quit: Channel)
    | SpawningCollector(info: bool, quit: Channel)              // statsWG.Add(1) done, goroutine not started
    | HalfTaken(taken: Option<Client>, channel: Option<Channel>)   // holds mu: rdb cleared, statsQuit not yet
    | Taken(taken: Option<Client>, channel: Option<Channel>)
    | Waiting(client: Client, quit: Channel)                    // quit closed, its waiter started
    | Closing(client: Client)
    | CloseRequested                                            // client.Close runs in its own goroutine
    | Configuring(config: Config)                               // validated, not yet stored

  /** A goroutine that calls statsWG.Wait once and then closes its `done` channel. */
  datatype Waiter = Starting | Blocked | Woken | Returned

  datatype State = State(
    op: Op,
    rdb: Option<Client>, statsQuit: Option<Channel>, conf: Option<Config>,
    created: nat, closeCalls: seq<Client>,            // clients created; clients handed to Close, in order
    made: nat, closings: seq<Channel>,                // quit channels made; closed, in order
    spawned: nat, running: map<Collector, Channel>,   // collectors started; those not yet past Done
    waitGroup: int, waiters: map<Channel, Waiter>,    // a waiter is known by the channel its cleanup closed
    attempts: nat, failures: nat, publications: nat)

  const INITIAL := State(Idle, None, None, None, 0, [], 0, [], 0, map[], 0, map[], 0, 0, 0)

  datatype Event =
    | BeginStartup                 // past the cancellation checks: client created
    | EndPing(ok: bool)            // ok: PING succeeded and the context is still live
    | CloseFailedClient
    | CountFailure
    | PublishClient
    | PublishQuit
    | ReadQuit
    | AddToWaitGroup
    | Spawn
    | BeginCleanup
    | ClearQuit
    | SignalStop                   // close(statsQuit), start the waiter
    | EnterWait(quit: Channel)     // Wait returns at once if the count is zero, else it blocks
    | WakeUp(quit: Channel)        // the woken Wait checks that the count is still zero, and returns
    | TakeDone
    | GiveUpWaiting                // timeout or cancelled context
    | RequestClose
    | EndCleanup                   // Close returned, or the context expired first
    | BeginConfigure(config: Config)
    | StoreConfig
    | Initialize(config: Config)   // InitializeResources stores an accepted configuration, without lifecycleMu
    | Exit(collector: Collector)   // told to quit, or panicked: statsWG.Done

  predicate MuFree(s: State) {
    !s.op.HalfPublished? && !s.op.HalfTaken?
  }

  predicate Enabled(s: State, e: Event) {
    match e
    case BeginStartup => s.op.Idle? && s.rdb.None?
    case EndPing(_) => s.op.Pinging?
    case CloseFailedClient => s.op.PingFailed?
    case CountFailure => s.op.FailedClosed?
    case PublishClient => s.op.Pinged?
    case PublishQuit => s.op.HalfPublished?
    case ReadQuit => s.op.StartingCollector?
    case AddToWaitGroup => s.op.AddingCollector?
    case Spawn => s.op.SpawningCollector?
    case BeginCleanup => s.op.Idle?
    case ClearQuit => s.op.HalfTaken?
    case SignalStop => s.op.Taken?
    case EnterWait(q) => q in s.waiters && s.waiters[q].Starting?
    case WakeUp(q) => q in s.waiters && s.waiters[q].Woken? && s.waitGroup == 0
    case TakeDone => s.op.Waiting? && s.op.quit in s.waiters && s.waiters[s.op.quit].Returned?
    case GiveUpWaiting => s.op.Waiting?
    case RequestClose => s.op.Closing?
    case EndCleanup => s.op.CloseRequested?
    case BeginConfigure(_) => s.op.Idle?
    case StoreConfig => s.op.Configuring?
    case Initialize(_) => MuFree(s)
    case Exit(c) => c in s.running
  }

  function AfterCollector(info: bool): Op {
    if info then Idle else StartingCollector(true)
  }

  /** The count has reached zero. */
  function Wake(waiters: map<Channel, Waiter>): map<Channel, Waiter> {
    map q | q in waiters :: if waiters[q].Blocked? then Woken else waiters[q]
  }

  function Next(s: State, e: Event): State
    requires Enabled(s, e)
  {
    match e
    case BeginStartup => s.(op := Pinging(s.created), created := s.created + 1, attempts := s.attempts + 1)
    case EndPing(ok) => s.(op := if ok then Pinged(s.op.client) else PingFailed(s.op.client))
    case CloseFailedClient => s.(op := FailedClosed, closeCalls := s.closeCalls + [s.op.client])
    case CountFailure => s.(op := Idle, failures := s.failures + 1)
    case PublishClient => s.(op := HalfPublished(s.op.client), rdb := Some(s.op.client))
    case PublishQuit =>
      s.(op := StartingCollector(false), statsQuit := Some(s.made), made := s.made + 1, publications := s.publications + 1)
    case ReadQuit =>
      s.(op := if s.statsQuit.None? then AfterCollector(s.op.info) else AddingCollector(s.op.info, s.statsQuit.value))
    case AddToWaitGroup => s.(op := SpawningCollector(s.op.info, s.op.quit), waitGroup := s.waitGroup + 1)
    case Spawn =>
      s.(op := AfterCollector(s.op.info), running := s.running[s.spawned := s.op.quit], spawned := s.spawned + 1)
    case BeginCleanup => s.(op := HalfTaken(s.rdb, s.statsQuit), rdb := None)
    case ClearQuit => s.(op := Taken(s.op.taken, s.op.channel), statsQuit := None)
    case SignalStop =>
      match s.op.taken {
        case None => s.(op := Idle)
        case Some(client) =>
          match s.op.channel
          case None => s.(op := Closing(client))
          case Some(quit) =>
            s.(op := Waiting(client, quit), closings := s.closings + [quit], waiters := s.waiters[quit := Starting])
      }
    case EnterWait(q) => s.(waiters := s.waiters[q := if s.waitGroup == 0 then Returned else Blocked])
    case WakeUp(q) => s.(waiters := s.waiters[q := Returned])
    case TakeDone => s.(op := Closing(s.op.client))
    case GiveUpWaiting => s.(op := Closing(s.op.client))
    case RequestClose => s.(op := CloseRequested, closeCalls := s.closeCalls + [s.op.client])
    case EndCleanup => s.(op := Idle)
    case BeginConfigure(config) => s.(op := Configuring(config))
    case StoreConfig => s.(op := Idle, conf := Some(s.op.config))
    case Initialize(config) => s.(conf := Some(config))
    case Exit(c) =>
      s.(running := s.running - {c}, waitGroup := s.waitGroup - 1,
         waiters := if s.waitGroup == 1 then Wake(s.waiters) else s.waiters)
  }

  predicate Run(s: State, es: seq<Event>)
    decreases |es|, 0
  {
    es == [] || (Run(s, es[..|es| - 1]) && Enabled(Exec(s, es[..|es| - 1]), es[|es| - 1]))
  }

  function Exec(s: State, es: seq<Event>): State
    requires Run(s, es)
    decreases |es|, 1
  {
    if es == [] then s else Next(Exec(s, es[..|es| - 1]), es[|es| - 1])
  }

  // ---------- the invariant ----------

  predicate NoRepeats(s: seq<nat>) {
    forall i, j :: 0 <= i < j < |s| ==> s[i] != s[j]
  }

  /** The client the holder of lifecycleMu has in its hands: not published, not yet handed to Close. */
  function InFlight(op: Op): Option<Client> {
    match op
    case Pinging(client) => Some(client)
    case PingFailed(client) => Some(client)
    case Pinged(client) => Some(client)
    case HalfTaken(taken, _) => taken
    case Taken(taken, _) => taken
    case Waiting(client, _) => Some(client)
    case Closing(client) => Some(client)
    case _ => None
  }

  /** The channel the holder of lifecycleMu has taken down but not closed. */
  function Unclosed(op: Op): Option<Channel> {
    if op.HalfTaken? || op.Taken? then op.channel else None
  }

  predicate ClientsAccounted(s: State) {
    && NoRepeats(s.closeCalls)
    && (forall c <- s.closeCalls :: c < s.created && s.rdb != Some(c) && InFlight(s.op) != Some(c))
    && (s.rdb.Some? ==> s.rdb.value < s.created && InFlight(s.op) != s.rdb)
    && (InFlight(s.op).Some? ==> InFlight(s.op).value < s.created)
    && s.created == s.attempts
  }

  predicate ClientsCovered(s: State) {
    forall c: Client :: c < s.created ==> c in s.closeCalls || s.rdb == Some(c) || InFlight(s.op) == Some(c)
  }

  /** A startup is under way that has neither failed nor published yet. */
  predicate Undecided(op: Op) {
    op.Pinging? || op.PingFailed? || op.FailedClosed? || op.Pinged? || op.HalfPublished?
  }

  predicate AttemptsAccounted(s: State) {
    && s.attempts == s.failures + s.publications + One(Undecided(s.op))
    && s.publications == s.made
  }

  predicate ChannelsAccounted(s: State) {
    && NoRepeats(s.closings)
    && (forall q <- s.closings :: q < s.made && s.statsQuit != Some(q) && Unclosed(s.op) != Some(q))
    && (s.statsQuit.Some? ==> s.statsQuit.value < s.made)
    && (Unclosed(s.op).Some? ==> Unclosed(s.op).value < s.made)
    && (s.op.HalfTaken? ==> s.op.channel == s.statsQuit)
  }

  predicate Published(s: State) {
    && (MuFree(s) ==> (s.rdb.Some? <==> s.statsQuit.Some?))
    && (s.op.HalfPublished? ==> s.rdb.Some? && s.statsQuit.None?)
    && (s.op.HalfTaken? || s.op.Taken? ==> s.rdb.None? && (s.op.taken.Some? <==> s.op.channel.Some?))
    && (s.op.Pinging? || s.op.PingFailed? || s.op.FailedClosed? || s.op.Pinged? ==> s.rdb.None?)
    && (s.op.Taken? || s.op.Waiting? || s.op.Closing? || s.op.CloseRequested? ==> s.rdb.None?)
    && (s.op.AddingCollector? || s.op.SpawningCollector? ==> s.statsQuit == Some(s.op.quit))
    && (s.op.StartingCollector? ==> s.statsQuit.Some?)
  }

  predicate Watched(s: State, q: Channel) {
    q in s.closings || s.statsQuit == Some(q) || Unclosed(s.op) == Some(q)
  }

  predicate CollectorsAccounted(s: State) {
    && (forall c <- s.running :: c < s.spawned && Watched(s, s.running[c]))
    && s.waitGroup == |s.running| + One(s.op.SpawningCollector?)
  }

  predicate WaitersAccounted(s: State) {
    && (forall q <- s.waiters :: q in s.closings)
    && (forall q <- s.waiters :: s.waiters[q].Blocked? ==> s.waitGroup != 0)
    && (s.op.Waiting? ==> s.op.quit in s.waiters)
    && (s.op.Waiting? && (s.waiters[s.op.quit].Woken? || s.waiters[s.op.quit].Returned?) ==> s.waitGroup == 0)
  }

  predicate Inv(s: State) {
    && ClientsAccounted(s) && ClientsCovered(s) && AttemptsAccounted(s) && ChannelsAccounted(s) && Published(s)
    && CollectorsAccounted(s) && WaitersAccounted(s)
  }

  lemma NoRepeatsAppend(s: seq<nat>, x: nat)
    requires NoRepeats(s) && x !in s
    ensures NoRepeats(s + [x])
    ensures forall c <- s + [x] :: c in s || c == x
  {
  }

  lemma ClientClosed(s: State, e: Event)
    requires ClientsAccounted(s) && Published(s) && Enabled(s, e) && (e.CloseFailedClient? || e.RequestClose?)
    ensures ClientsAccounted(Next(s, e))
  {
    hide NoRepeats;
    NoRepeatsAppend(s.closeCalls, s.op.client);
  }

  lemma ClientsStep(s: State, e: Event)
    requires ClientsAccounted(s) && Published(s) && Enabled(s, e)
    ensures ClientsAccounted(Next(s, e))
  {
    hide NoRepeats, Wake;
    if e.CloseFailedClient? || e.RequestClose? {
      ClientClosed(s, e);
    }
  }

  lemma ClientCoveredStep(s: State, e: Event)
    requires ClientsAccounted(s) && ClientsCovered(s) && Published(s) && Enabled(s, e)
    ensures ClientsCovered(Next(s, e))
  {
  }

  lemma AttemptsStep(s: State, e: Event)
    requires AttemptsAccounted(s) && Enabled(s, e)
    ensures AttemptsAccounted(Next(s, e))
  {
  }

  lemma ChannelClosed(s: State)
    requires ChannelsAccounted(s) && Published(s) && Enabled(s, SignalStop)
    ensures ChannelsAccounted(Next(s, SignalStop))
  {
    hide NoRepeats;
    if s.op.channel.Some? {
      NoRepeatsAppend(s.closings, s.op.channel.value);
    }
  }

  lemma ChannelsStep(s: State, e: Event)
    requires ChannelsAccounted(s) && Published(s) && Enabled(s, e)
    ensures ChannelsAccounted(Next(s, e))
  {
    hide NoRepeats, Wake;
    if e.SignalStop? {
      ChannelClosed(s);
    }
  }

  lemma PublishedStep(s: State, e: Event)
    requires Published(s) && ChannelsAccounted(s) && Enabled(s, e)
    ensures Published(Next(s, e))
  {
  }

  lemma WatchedStep(s: State, e: Event, q: Channel)
    requires ChannelsAccounted(s) && Published(s) && Enabled(s, e)
    requires Watched(s, q)
    ensures Watched(Next(s, e), q)
  {
  }

  lemma PublishedIsWatched(s: State, q: Channel)
    requires s.statsQuit == Some(q)
    ensures Watched(s, q)
  {
  }

  lemma SpawnEffect(s: State)
    requires Published(s) && Enabled(s, Spawn)
    ensures Next(s, Spawn) == s.(op := AfterCollector(s.op.info), running := s.running[s.spawned := s.op.quit], spawned := s.spawned + 1)
    ensures s.statsQuit == Some(s.op.quit)
  {
  }

  lemma AddedSize(m: map<Collector, Channel>, c: Collector, q: Channel)
    requires c !in m
    ensures |m[c := q]| == |m| + 1
  {
    assert m[c := q].Keys == m.Keys + {c};
    assert |m[c := q]| == |m[c := q].Keys| && |m| == |m.Keys|;
  }

  lemma CollectorSpawned(s: State)
    requires ChannelsAccounted(s) && Published(s) && CollectorsAccounted(s) && Enabled(s, Spawn)
    ensures CollectorsAccounted(Next(s, Spawn))
  {
    hide Watched, ChannelsAccounted, Published, Next;
    SpawnEffect(s);
    StillWatched(s, Spawn);
    PublishedIsWatched(Next(s, Spawn), s.op.quit);
    AddedSize(s.running, s.spawned, s.op.quit);
  }

  lemma CollectorExited(s: State, c: Collector)
    requires ChannelsAccounted(s) && Published(s) && CollectorsAccounted(s) && Enabled(s, Exit(c))
    ensures CollectorsAccounted(Next(s, Exit(c)))
  {
    hide Watched, ChannelsAccounted, Published, Wake;
    var s' := Next(s, Exit(c));
    StillWatched(s, Exit(c));
    assert s'.running.Keys == s.running.Keys - {c};
    assert |s'.running| == |s'.running.Keys| && |s.running| == |s.running.Keys|;
  }

  lemma StillWatched(s: State, e: Event)
    requires ChannelsAccounted(s) && Published(s) && CollectorsAccounted(s) && Enabled(s, e)
    ensures forall c <- s.running :: Watched(Next(s, e), s.running[c])
  {
    hide Watched, ChannelsAccounted, Published, Next;
    forall c | c in s.running
      ensures Watched(Next(s, e), s.running[c])
    {
      WatchedStep(s, e, s.running[c]);
    }
  }

  lemma CollectorsStep(s: State, e: Event)
    requires ChannelsAccounted(s) && Published(s) && CollectorsAccounted(s) && Enabled(s, e)
    ensures CollectorsAccounted(Next(s, e))
  {
    hide Watched, ChannelsAccounted, Published, Wake;
    match e
    case Spawn => CollectorSpawned(s);
    case Exit(c) => CollectorExited(s, c);
    case _ => StillWatched(s, e);
  }

  lemma WaitersStep(s: State, e: Event)
    requires CollectorsAccounted(s) && WaitersAccounted(s) && Enabled(s, e)
    ensures WaitersAccounted(Next(s, e))
  {
    hide Watched;
  }

  lemma InvStep(s: State, e: Event)
    requires Inv(s) && Enabled(s, e)
    ensures Inv(Next(s, e))
  {
    hide Next, ClientsAccounted, ClientsCovered, AttemptsAccounted, ChannelsAccounted, Published, CollectorsAccounted,
         WaitersAccounted;
    ClientsStep(s, e);
    ClientCoveredStep(s, e);
    AttemptsStep(s, e);
    ChannelsStep(s, e);
    PublishedStep(s, e);
    CollectorsStep(s, e);
    WaitersStep(s, e);
  }

  lemma InitialInv()
    ensures Inv(INITIAL)
  {
    var s := INITIAL;
    assert s.created == s.made == s.spawned == 0;
    assert s.running == map[] && s.closeCalls == [] && s.closings == [];
    assert ClientsCovered(s);
    assert ClientsAccounted(s);
    assert ChannelsAccounted(s);
    assert CollectorsAccounted(s);
    assert WaitersAccounted(s);
  }

  lemma {:induction false} InvRun(s: State, es: seq<Event>)
    requires Inv(s) && Run(s, es)
    ensures Inv(Exec(s, es))
  {
    hide Inv, Next;
    if es != [] {
      InvRun(s, es[..|es| - 1]);
      InvStep(Exec(s, es[..|es| - 1]), es[|es| - 1]);
    }
  }

  lemma AlwaysInv(es: seq<Event>)
    requires Run(INITIAL, es)
    ensures Inv(Exec(INITIAL, es))
  {
    hide Inv, Run, Exec;
    InitialInv();
    InvRun(INITIAL, es);
  }

  // ---------- what it means ----------

  /** Whenever mu is free, the client is set iff the quit channel is; whenever lifecycleMu is free,
      every collector still running watches the published quit channel or a closed one; and no channel
      is ever closed twice. */
  lemma LifecycleInvariant(es: seq<Event>)
    requires Run(INITIAL, es)
    ensures var s := Exec(INITIAL, es);
            && (MuFree(s) ==> (s.rdb.Some? <==> s.statsQuit.Some?))
            && (s.op.Idle? ==> forall c <- s.running :: s.statsQuit == Some(s.running[c]) || s.running[c] in s.closings)
            && NoRepeats(s.closings)
  {
    hide Exec, Run;
    AlwaysInv(es);
  }

  /** Every client is conserved: once Startup has created it, it is either published, or in the hands of
      the operation in progress, or was handed to Close exactly once; never two of these. Every attempt
      has failed, was published, or is the one in flight, and there is a quit channel for every publication. */
  lemma ClientConservation(es: seq<Event>, c: Client)
    requires Run(INITIAL, es)
    ensures var s := Exec(INITIAL, es);
            && c < s.created <==> c in s.closeCalls || s.rdb == Some(c) || InFlight(s.op) == Some(c)
    ensures var s := Exec(INITIAL, es);
            && NoRepeats(s.closeCalls)
            && !(c in s.closeCalls && s.rdb == Some(c))
            && !(InFlight(s.op) == Some(c) && (c in s.closeCalls || s.rdb == Some(c)))
            && s.created == s.attempts
            && s.attempts == s.failures + s.publications + One(Undecided(s.op))
            && s.publications == s.made
  {
    hide Exec, Run;
    AlwaysInv(es);
  }

  function Occurrences(es: seq<Event>, e: Event): nat {
    if es == [] then 0 else Occurrences(es[..|es| - 1], e) + One(es[|es| - 1] == e)
  }

  /** The metrics count what happened: startups begun, failed startups after their client was closed, and
      clients published together with their quit channel. */
  lemma {:induction false} MetricsCountEvents(es: seq<Event>)
    requires Run(INITIAL, es)
    ensures var s := Exec(INITIAL, es);
            && s.attempts == s.created == Occurrences(es, BeginStartup)
            && s.failures == Occurrences(es, CountFailure)
            && s.publications == s.made == Occurrences(es, PublishQuit)
  {
    if es != [] {
      hide Next, Enabled, INITIAL;
      MetricsCountEvents(es[..|es| - 1]);
      MetricsStep(Exec(INITIAL, es[..|es| - 1]), es[|es| - 1]);
    }
  }

  lemma MetricsStep(s: State, e: Event)
    requires Enabled(s, e)
    ensures var t := Next(s, e);
            && t.attempts == s.attempts + One(e.BeginStartup?) && t.created == s.created + One(e.BeginStartup?)
            && t.failures == s.failures + One(e.CountFailure?)
            && t.publications == s.publications + One(e.PublishQuit?) && t.made == s.made + One(e.PublishQuit?)
  {
    hide Wake;
  }

  /** A cleanup that sees `done` leaves no collector of any generation, however many earlier cleanups
      gave up waiting. */
  lemma DoneMeansNoCollectors(es: seq<Event>)
    requires Run(INITIAL, es) && Enabled(Exec(INITIAL, es), TakeDone)
    ensures Exec(INITIAL, es).running == map[]
    ensures Exec(INITIAL, es).waitGroup == 0
  {
    hide Exec, Run;
    AlwaysInv(es);
    assert |Exec(INITIAL, es).running| == 0;
  }

  /** The WaitGroup never goes negative, which would panic. */
  lemma WaitGroupNonNegative(es: seq<Event>)
    requires Run(INITIAL, es)
    ensures Exec(INITIAL, es).waitGroup >= |Exec(INITIAL, es).running|
  {
    hide Exec, Run;
    AlwaysInv(es);
  }

  /** How many steps of its own the holder of lifecycleMu is at most away from releasing it. */
  function StepsLeft(op: Op): nat {
    match op
    case Idle => 0
    case Pinging(_) => 9
    case PingFailed(_) => 2
    case FailedClosed => 1
    case Pinged(_) => 8
    case HalfPublished(_) => 7
    case StartingCollector(info) => if info then 3 else 6
    case AddingCollector(info, _) => if info then 2 else 5
    case SpawningCollector(info, _) => if info then 1 else 4
    case HalfTaken(_, _) => 5
    case Taken(_, _) => 4
    case Waiting(_, _) => 3
    case Closing(_) => 2
    case CloseRequested => 1
    case Configuring(_) => 1
  }

  /** What the holder can do whatever the collectors and the waiter do. */
  function Proceed(op: Op): Event
    requires !op.Idle?
  {
    match op
    case Pinging(_) => EndPing(false)
    case PingFailed(_) => CloseFailedClient
    case FailedClosed => CountFailure
    case Pinged(_) => PublishClient
    case HalfPublished(_) => PublishQuit
    case StartingCollector(_) => ReadQuit
    case AddingCollector(_, _) => AddToWaitGroup
    case SpawningCollector(_, _) => Spawn
    case HalfTaken(_, _) => ClearQuit
    case Taken(_, _) => SignalStop
    case Waiting(_, _) => GiveUpWaiting
    case Closing(_) => RequestClose
    case CloseRequested => EndCleanup
    case Configuring(_) => StoreConfig
  }

  /** lifecycleMu is always released: the holder can always take a step, whatever the collectors do, and
      apart from the step that takes the lock no step of anyone moves it further from the release. */
  lemma OperationsFinish(s: State, e: Event)
    requires Enabled(s, e) && !s.op.Idle?
    ensures Enabled(s, Proceed(s.op)) && StepsLeft(Next(s, Proceed(s.op)).op) < StepsLeft(s.op)
    ensures StepsLeft(Next(s, e).op) <= StepsLeft(s.op)
    ensures StepsLeft(Next(s, e).op) < StepsLeft(s.op) || Next(s, e).op == s.op
  {
  }
}
