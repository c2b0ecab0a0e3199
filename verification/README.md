# Verification model of the Redis plugin

A Dafny model of the plugin's stateful parts and the proofs of what they promise: the sliding-window
rate limiter, the lease-based distributed lock, the start/stop lifecycle with its background collectors,
the cache manager, and the pipeline from configuration to client. `dafny verify dfyconfig.toml` checks it.

Objects whose methods update fields are classes here (`RateLimiter`, `DistributedLock`, `PlugRedis`,
`CacheManager`, `RedisConfig`, `ValidationResult`); every method is proved against a specification.
What happens between several clients or goroutines is a state machine over atomic steps, and the theorems
speak about every run of it. The two halves are tied together: rate limiter and lock use the same
functions for their commands in both; each lifecycle operation of `PlugRedis` is proved to be a run of
the state machine and to keep its invariant; and the cache's state machine is proved to give every
call, in every interleaving, the contract that the methods of `CacheManager` are proved to have. The
steps of Redis, the clocks, the contexts and the loader are parameters or events, so that every outcome
is covered.

| file | content |
|---|---|
| `Prelude.dfy` | options, 64-bit wrap-around, counting |
| `RateLimiter.dfy`, `RateLimiterRuns.dfy` | the sorted set and the limiter; all runs of its clients |
| `DistributedLock.dfy`, `LockRuns.dfy` | the lock key and the lock object; all runs of its instances |
| `Lifecycle.dfy` | the lifecycle as atomic steps, its invariant over all runs |
| `Schedules.dfy`, `PlugRedis.dfy` | its operations as runs, and the WaitGroup's reuse; the plugin object that performs them |
| `CacheManager.dfy`, `CacheRuns.dfy` | cache, counters, average, backoff; all interleavings of calls |
| `Address.dfy`, `Config.dfy`, `Topology.dfy` | addresses, defaults and validation, options and modes |
| `Info.dfy` | the `connected_slaves` scan |

## Assumptions

- Redis: a command or a script is one atomic step. SET NX stores only into an absent key. EXPIRE and
  PEXPIRE with a non-positive argument delete the key, EXPIRE then still replies 1; PEXPIRE on a missing
  key does nothing. ZREMRANGEBYSCORE bounds are inclusive; an emptied sorted set takes its key and TTL
  away; ZADD keeps a TTL. A key with a TTL may vanish at any moment once its deadline is reached, which
  covers both eager and lazy expiry. Server time does not run backwards, and the lock's clients measure
  time at the server's rate.
- A command takes effect, at most once per attempt, between being sent and its call's return; a call that
  ends in an error was or was not applied. A command that the client library resends is a further attempt.
- Tokens are distinct per lock instance; a rate-limiter event is identified by its member, and members of
  different calls are distinct.
- go-redis builds a failover client if a master name is set, else a cluster client for more than one
  address, else a single-node client.
- An instance may lock again after unlocking: the theorems about the lock do not need one-shot use.
- `sync.WaitGroup`: Wait returns at once if the count is zero and blocks otherwise; the Done that brings
  the count to zero wakes all that are blocked; a woken Wait panics if it finds the count nonzero again.

## Findings

Places where the code does not do what a reader, or its own documentation, might expect, each with the
lemmas or contracts that say when. The last entry concerns constants only and has no lemma.

- `enhanced_features.go:382-392`: a rate-limiter window below one millisecond truncates to 0, PEXPIRE 0
  deletes the key again, and the limiter never refuses (`NoMillisecondNoLimit`, and the case of window 0
  in `LimitExactlyWhen`).
- `enhanced_features.go:419-422`: a smaller window passed to GetUsage erases entries that still count;
  `LimitExactlyWhen` and `RefinesExactlyWhen` say what is left of the guarantee.
- `enhanced_features.go:386`: the purge starts at score 0, so events stamped before 1970 are never purged
  and can cause refusals that no recent event justifies, exactly if such stamps can occur
  (`DenialJustifiedExactlyWhen`).
- `enhanced_features.go:228-231`: the comment says that calls from several goroutines are serialised
  internally. LockWithRetry (`enhanced_features.go:259`) does not take the mutex, and two instances
  exclude each other exactly if neither is shared (`PairExclusiveExactlyWhen`, `ExclusiveExactlyWhen`,
  with the run in `OverlapBreaks`).
- `enhanced_features.go:343`: Extend truncates to whole seconds and replaces the TTL: below one second it
  releases the lock while reporting success (`ExtendOutcome`).
- `enhanced_features.go:49`: the comment says that an undecodable cached value is treated as a miss; line
  56 counts it as a hit (`CountersBalance`, `EveryCallKeepsItsContract`, `CacheManager.GetWithLoader`).
- `enhanced_features.go:115`: from the 38th attempt the backoff of SetWithRetry overflows
  (`SetWaitsExactlyWhen`).
- `enhanced_features.go:221-225`: an average that rounds down to 0 is taken for a missing one
  (`AverageTracksExactlyWhen`).
- `lifecycle.go:153-167`: a cleanup that gives up leaves its waiter behind, and a later startup
  (`pool_stats.go:20`) can make the Go runtime panic in it, exactly as long as such a waiter has not
  returned (`ReuseFollowsExactlyWhen`, `ReuseReachableExactlyWhen`).
- `validator.go:464-522`: defaults can turn an acceptable configuration into a rejected one
  (`DefaultingRejectsExactlyWhen`).
- `lifecycle.go:37-39`, `lifecycle.go:198-200`: a configuration is defaulted in place before it is
  checked, so a rejected one has still been changed, and if it is the one already stored the plugin's own
  is (`PlugRedis.Configure`, `PlugRedis.InitializeResources`).
- `VALIDATION.md:61`, `VALIDATION.md:168`, `VALIDATION.md:177`: they give another limit for the pool
  timeout (30 s) and other defaults (20 active connections, 10 s idle time) than the code (5 minutes at
  `validator.go:246-255`; 100 and 5 minutes at `validator.go:482-506`); the model follows the code.

## Model

| member | source | states |
|---|---|---|
| RateLimiting.RateLimiter.Allow | enhanced_features.go:373-414 | argument errors send nothing; otherwise the key ends as the script leaves it and the reply decides; a lost reply still leaves the script's effect |
| RateLimiting.RateLimiter.GetUsage | enhanced_features.go:417-426 | the purge, whether or not it worked, is followed by the count of what is left; only a failing count is an error |
| RateLimiting.RateLimiter.Reset | enhanced_features.go:429-431 | the key is gone if the DEL was executed; nil only if it was and the reply arrived |
| RateLimiterRuns.DenialJustifiedExactlyWhen | enhanced_features.go:386-390 | for every limit, window and kind of clocks: every refusal, over all runs with stamps from a floor up, is justified by at least `limit` admitted events newer than its window start, if and only if no negative stamp can occur |
| RateLimiterRuns.MemoryBounded | enhanced_features.go:386-393 | over all runs under arbitrary clocks the set never exceeds `limit` members and an existing key always has a TTL of at most one window |
| RateLimiterRuns.DenialUnjustifiedBeforeEpoch | enhanced_features.go:386 | the smallest case of both halves: one event per millisecond, stamps from -1 and from 0 |
| RateLimiterRuns.NoMillisecondNoLimit | enhanced_features.go:377-399 | a window under 1 ms never refuses anything |
| RateLimiterRuns.AlwaysRetains | enhanced_features.go:381-400 | no event younger than the retention is ever missing, through purges out of order and through key expiry |
| RateLimiterRuns.WindowsRespectLimit | enhanced_features.go:381-400 | over every interleaving, no interval of the guaranteed length contains more than `limit` admitted events between Resets |
| RateLimiterRuns.LimitExactlyWhen | enhanced_features.go:381-426 | for all setups the limit holds in all windows of a given length if and only if the length is at most min(Allow window, GetUsage window) minus the clock lag, or nothing: with arbitrary clocks, or a window that truncates to 0 |
| RateLimiterRuns.RefinesSimpleLimiter | enhanced_features.go:385-400 | with current timestamps every decision of every run is that of a limiter that forgets nothing and counts (now-W, now] |
| RateLimiterRuns.RefinesExactlyWhen | enhanced_features.go:381-426 | with current timestamps it agrees with that limiter over all runs if and only if GetUsage gets no smaller window and time starts in 1970 or later (or the window truncates to 0 and neither refuses) |
| RateLimiterRuns.UsageBounds | enhanced_features.go:417-426 | the reported usage covers every event inside the window and never exceeds the limit |
| Locking.ExtendOutcome | enhanced_features.go:335-345 | Extend of a held lock: reply 1 always; released iff below one second; otherwise TTL replaced, less than a second lost, and when exactly it shortens |
| Locking.LockWaitsExactlyWhen | enhanced_features.go:275-281 | n refused attempts wait exactly 50n(n+1) ms if and only if no delay overflows int64 |
| Locking.DistributedLock.LockWithRetry | enhanced_features.go:259-287 | at most maxRetries SETNX, all but the last executed, answered and refused; nil iff the last one was executed on an absent key and answered; error iff it was not executed or not answered; cancelled and exhausted told apart; the total wait; the final entry |
| Locking.DistributedLock.Unlock | enhanced_features.go:290-323 | compare-and-delete; the flag is set exactly on success; after it nothing is sent |
| Locking.DistributedLock.Extend | enhanced_features.go:326-354 | compare-and-expire with truncated seconds; nothing is sent once unlocked |
| LockRuns.BeliefIsBacked | enhanced_features.go:259-354 | a believed lease of an instance used by one goroutine is always covered by the server's entry and its deadline, whatever the other instances do |
| LockRuns.OverlapBreaks | enhanced_features.go:228-231 | one instance shared by two goroutines and any other one: a run in which both believe they hold the lock |
| LockRuns.PairExclusiveExactlyWhen | enhanced_features.go:228-354 | two instances never believe they hold the lock at once, over all runs with expiry and lost replies, if and only if neither is shared between goroutines |
| LockRuns.ExclusiveExactlyWhen | enhanced_features.go:228-354 | no two instances do, if and only if none is shared or there is only one |
| LockRuns.FreeLockIsAcquired | enhanced_features.go:261-272 | an absent key can always be locked, and the holder then believes it |
| LockRuns.ExtendRenews | enhanced_features.go:326-354 | from any state of any run in which the entry is its own, an idle instance that extends has entry and belief last for the whole seconds asked for |
| LockRuns.UnlockReleases | enhanced_features.go:290-323 | and one that unlocks frees the key, is marked unlocked and no longer believes |
| LockRuns.OwnershipStable | enhanced_features.go:299-341 | each step changes the entry only by SETNX into an absent key, by the owner's own command, or at the deadline |
| LockRuns.UntouchedUntilDeadline | enhanced_features.go:261-341 | from a winning SETNX to its deadline the entry stays as it was unless its owner extends or unlocks |
| LockRuns.HolderLocked | enhanced_features.go:261-266 | whoever the entry names won a SETNX and has been named ever since |
| LockRuns.UnlockCertifiesHold | enhanced_features.go:299-322 | an Unlock about to return nil deleted its own entry, held without a break since its winning SETNX |
| LockRuns.AtMostOneUnlock | enhanced_features.go:291-316 | at most one Unlock per instance returns nil, and afterwards no Unlock or Extend reaches the server |
| Lifecycle.LifecycleInvariant | lifecycle.go:66-167 | mu free: client set iff quit channel set; lifecycleMu free: every collector watches the published or a closed channel; no channel closed twice |
| Lifecycle.InvRun | lifecycle.go:58-209 | the invariant behind the next rows is kept by every run from every state that has it |
| Lifecycle.ClientConservation | lifecycle.go:77-178 | every created client is published, in flight, or handed to Close exactly once; attempts = failures + publications + in flight, and a quit channel is made for each publication |
| Lifecycle.MetricsCountEvents | lifecycle.go:77-105 | over all runs the startup and failure totals are the numbers of startups begun and of failed clients closed |
| Lifecycle.DoneMeansNoCollectors | lifecycle.go:151-167 | the done branch implies that no collector of any generation runs, whatever earlier cleanups left behind |
| Lifecycle.WaitGroupNonNegative | pool_stats.go:20-22 | the WaitGroup count never drops below the number of running collectors |
| Lifecycle.OperationsFinish | lifecycle.go:129-183 | the holder of lifecycleMu can always take a step towards releasing it, and nobody else's step moves it away |
| Schedules.ReuseFollowsExactlyWhen | lifecycle.go:153-167 | from every reachable state between two operations: the panic of a reused WaitGroup can follow, without a further give-up, if and only if an earlier cleanup's waiter has not returned |
| Schedules.ReuseReachableExactlyWhen | lifecycle.go:153-167 | over all runs the panic is reachable if and only if cleanups may give up waiting |
| Plugin.PlugRedis.StartCollector | pool_stats.go:12-38 | capture the quit channel, Add, start: a run of the three atomic steps; without a channel only the first |
| Plugin.PlugRedis.StartupTasksContext | lifecycle.go:58-116 | the invariant is kept; cancelled or already started: nothing changes; otherwise a run of the steps of a failed or of a successful startup, with every field: which total goes up, which client is published or closed, which collectors run; a cancellation during PING is told apart from its failure |
| Plugin.PlugRedis.StopCollectors | lifecycle.go:151-167 | waits as a run of the steps, and takes `done` only if the count is zero |
| Plugin.PlugRedis.CleanupTasksContext | lifecycle.go:129-183 | the invariant is kept; a run of the steps of a cleanup, with every field; afterwards every client ever created was handed to Close exactly once, and no collector runs if it stopped them; which error is returned |
| Plugin.PlugRedis.Configure | lifecycle.go:187-209 | nil and other types change nothing; a configuration is defaulted in place and stored, as a run, iff it is then acceptable; which error is returned |
| Plugin.PlugRedis.InitializeResources | lifecycle.go:17-44 | the same for a configuration set beforehand or scanned from the runtime, with its three other errors |
| Caching.AverageTracksExactlyWhen | enhanced_features.go:220-225 | for all latency sequences the stored average is within [0,1) ns below the exact one at every point iff no zero average meets a nonzero sample |
| Caching.AverageBounds | enhanced_features.go:220-225 | latencies of at least 1 ns: zero branch only once, average between smallest and largest |
| Caching.SetWaitsExactlyWhen | enhanced_features.go:115-123 | an exhausted SetWithRetry waits 100(2^n-1) ms iff n <= 37, and less beyond |
| Caching.CacheManager.GetWithLoader | enhanced_features.go:50-91 | result, loader calls, text sent, every counter field and the average for every outcome of GET, decoding, loader, encoding and SET |
| Caching.CacheManager.SetWithRetry | enhanced_features.go:95-128 | attempts, outcome and waits; past encoding exactly one of Sets and Errors goes up by one |
| Caching.CacheManager.DeletePattern | enhanced_features.go:131-153 | collects what the scan yields; each failure counts one error, success counts the keys |
| CacheRuns.CacheAgreesWithLoader | enhanced_features.go:54-90 | under every interleaving the stored text encodes the loader's value, every returned value is that value or its decode-of-encode form, loader at most once per call |
| CacheRuns.StoredExactlyWhen | enhanced_features.go:54-150 | over all runs a text is stored iff a SET took effect and no deletion, expiry or eviction followed |
| CacheRuns.AverageOfLatencies | enhanced_features.go:191-225 | in every interleaving AvgLatency is the moving average of the latencies since the last ResetStats |
| CacheRuns.OwesWhatItHeard | enhanced_features.go:54-143 | in each step a call comes to owe the record of exactly what Redis answered, read off the command, its reply and the stored text |
| CacheRuns.AlwaysBalanced | enhanced_features.go:54-213 | at every moment of every run the counters plus the records still owed equal what Redis answered since the last reset |
| CacheRuns.CountersBalance | enhanced_features.go:54-213 | when nothing is owed: hits, misses, sets and deletes are exactly the texts found, keys absent, values stored and keys deleted, errors the failures of all five kinds once each, and hits + misses + failed GETs = answered lookups |
| CacheRuns.EveryCallKeepsItsContract | enhanced_features.go:50-153 | in every interleaving each finished GetWithLoader, SetWithRetry and DeletePattern call has returned, loaded, sent and counted what the method's contract says for the replies it got |
| CacheRuns.AloneMeansGetWithLoader | enhanced_features.go:50-91 | from any state a call run alone ends with exactly the result, loader calls, text, counters and average that the contract of GetWithLoader gives for what is stored |
| Address.ValidAddressExactlyWhen | validator.go:154-187 | an address passes iff it is host and port after an optional lower-case `rediss://` and then an optional lower-case `redis://` |
| Address.PortExactlyWhen | validator.go:178-184 | exactly the spellings of 1 to 65535 are ports, with leading zeros and an optional plus sign |
| Address.NumberedAddress | validator.go:154-187 | every host, plain or in brackets, followed by the decimal digits of n is accepted iff 1 <= n <= 65535, and otherwise the port is blamed |
| Address.SplitSound | validator.go:166-184 | what is split off is a host and a port of the text |
| Address.SplitComplete | validator.go:166-184 | every `host:port` and `[host]:port` is split into just these |
| Address.ValidAddressStripped | options.go:28-35 | an accepted address keeps no `rediss://` after stripping, in any letter case |
| Configuration.RedisConfig.SetDefaultValues | validator.go:464-522 | field by field, the value each of the thirteen gaps is filled with, everything given kept |
| Configuration.PoolExactly | validator.go:190-256 | the pool checks add no error exactly for acceptable sizes, lifetimes and pool timeout, and never drop an earlier one |
| Configuration.SentinelExactly | validator.go:363-386 | the same for the sentinel checks |
| Configuration.ValidateRedisConfig | validator.go:53-91 | nil is one error; otherwise normalised, all errors in order, exactly the bad fields and addresses among them, valid iff acceptable |
| Configuration.ValidateAndSetDefaults | validator.go:449-461 | defaulted in place; accepted iff the defaulted configuration is acceptable |
| Configuration.ValidExactlyWhen | validator.go:53-443 | no error is reported exactly for the acceptable configurations, legacy fields normalised or not |
| Configuration.ReportedExactlyWhen | validator.go:53-443 | for every field and every address: it is reported exactly if its value breaks its rule, with all limits and lists in figures |
| Configuration.DefaultsFillGapsOnly | validator.go:464-522 | each gap gets its own default value, each given field keeps its value, fields without a default are untouched |
| Configuration.DefaultsIdempotent | validator.go:464-522 | defaulting twice is defaulting once |
| Configuration.DefaultingExactly | validator.go:464-522 | acceptance after defaulting, for every configuration: repaired only by max_active_conns, broken in exactly three ways |
| Configuration.DefaultingRejectsExactlyWhen | validator.go:190-334 | an acceptable configuration is rejected after defaulting exactly in those three cases |
| Topology.BuildUniversalOptions | options.go:13-88 | addresses, master name, TLS inference, and for both lifetimes the preferred value, else the legacy one, else 0 |
| Topology.ModeIsClientKind | health.go:14-27 | the detected mode is the kind of client built, for every configuration |
| Topology.ValidatorAgreesExactlyWhen | validator.go:396 | when exactly the validator's cluster test agrees with the detected mode |
| Topology.TopologyAgrees | validator.go:389-408 | for accepted configurations all three readings coincide, cluster implies db 0, and 0 <= db <= 15 |
| Topology.AddressesAgree | health.go:29-41 | the reported addresses are the built ones up to `rediss://` |
| Topology.AnySecureExactly | options.go:28-29 | TLS is inferred iff some address starts with `rediss://` in any letter case |
| Topology.TlsInferredExactly | options.go:24-35 | for accepted configurations TLS is inferred iff some address starts with lower-case `rediss://` |
| Topology.LifetimesSurviveNormalization | options.go:70-88 | the effective lifetimes are the same before and after normalisation |
| Info.ConnectedSlaves | health.go:87-97 | nothing without the key; otherwise the digits after its first occurrence, accumulated in 64 bits |
| Info.DecimalAccumulates | health.go:89-95 | accumulating the digits of n gives n wrapped to 64 bits |
| Info.RoundTrip | health.go:87-97 | the scan of a written number yields that number iff it is in int range |

## Left out

- go-redis, the network, script caching, cluster routing and commands that take effect after their call has returned.
- Token and member generation: distinctness is assumed.
- Lock TTLs below one millisecond or not whole milliseconds, for which the client library changes the command.
- `additionalTTL.Seconds()` goes through a float in the source; the model divides integers, which agrees below about 48 days.
- Two LockWithRetry calls in flight on one instance: an instance has one lock call and one Unlock or Extend call at a time.
- CacheRuns.CountersBalance: counters do not wrap. Latencies do not overflow int64.
- CacheRuns.EveryCallKeepsItsContract: the attempts of one SetWithRetry call, for other keys, are one step with their outcome.
- JSON: encoding and decoding are arbitrary functions.
- Partial waits of cancelled retry loops are not added to the waited time.
- The Go runtime's other check, for an Add that overlaps the Done reaching zero: both are single steps here.
- Plugin.PlugRedis.CleanupTasksContext: sequential, with the collectors that finish during its wait as a parameter; all other interleavings are runs of module Lifecycle.
- Changes a caller makes to a configuration object after handing it to Configure.
- Address.ValidAddressExactlyWhen: letter case and white space are those of ASCII.
- Error message texts, the TLS production policy (a parameter), user name, password and the option fields that are copied unchanged.
- The framework validator (`RedisConfigValidator`), metrics, hooks, logging, resource registration, provider lookup, INFO fields other than `connected_slaves`.
- Whether an accepted address can be dialled: `redis://` and prefixed sentinel addresses are passed on as they are.
