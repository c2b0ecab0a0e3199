/** Every interleaving of cache-manager calls over one manager: any number of GetWithLoader calls for one
    key with a deterministic loader, SetWithRetry calls for other keys, DeletePattern calls that may hit
    the key, expiry, and ResetStats.

    A call alternates between an answer from Redis and the `record` call for it, which takes the lock of
    the counters and is a step of its own. */
module CacheRuns {
  import opened Prelude
  import opened Caching

  datatype Cause = GetFailure | SetFailure | RetryFailure | ScanFailure | DeleteFailure

  /** The record call a call owes. */
  datatype Mark = Hit | Miss | Set | Deletion(keys: nat) | Error(cause: Cause)

  datatype Phase<V, T> =
    | Getting
    | Decoding(text: T)
    | Loading
    | Setting(text: T)
    | Leaving(result: Lookup<V>)     // only the deferred recordLatency is left
    | Returned(result: Lookup<V>)
    | Storing                        // SetWithRetry, in its attempts
    | StoreEnded(outcome: StoreOutcome)
    | Scanning
    | Deleting(keys: nat)
    | PurgeEnded(end: PurgeOutcome, keys: nat)

  /** `due` is the record call owed. The rest is history: how often the call ran the loader, what it was
      answered, what it sent to be stored, and what it has recorded. */
  datatype Call<V, T> = Call(
    phase: Phase<V, T>, due: Option<Mark>, loads: nat, reply: Option<GetReply<T>>, loaded: Option<V>,
    sent: Option<T>, setOk: bool, counted: Counts)

  /** What Redis answered: texts found and absent, values stored, keys deleted, and failures. */
  datatype Answers = Answers(found: nat, absent: nat, stored: nat, deleted: nat, failed: multiset<Cause>)

  /** `heard` is history: the answers since the last ResetStats, and those unrecorded at that moment;
      `lookups` is the number of GetWithLoader calls that got, or wait for, one of them. */
  datatype State<V, T> = State(
    text: Option<T>, calls: seq<Call<V, T>>, counts: Counts, avgLatency: nat, heard: Answers, lookups: nat)

  datatype Setup<!V, !T> = Setup(codec: Codec<V, T>, loaded: V)

  /** A call is known by its place in `calls`. */
  datatype Event =
    | StartLookup
    | Get(i: nat, ok: bool)
    | Decode(i: nat)
    | Load(i: nat, ok: bool)
    | SetKey(i: nat, ok: bool, applied: bool)  // a failed SET may have been applied
    | Leave(i: nat, latency: nat)
    | StartStore
    | EndStore(i: nat, outcome: StoreOutcome)
    | StartPurge
    | Scan(i: nat, ok: bool, keys: nat)
    | Delete(i: nat, keys: nat, ok: bool, applied: bool)  // applied: the key was among those deleted
    | Record(i: nat)
    | Drop                                     // expiry, eviction or any other deletion of the key
    | ResetStats

  predicate Starts(e: Event) { e.StartLookup? || e.StartStore? || e.StartPurge? }

  predicate OfCall(e: Event) { !Starts(e) && !e.Drop? && !e.ResetStats? }

  /** A call may take this step now. */
  predicate Ready<V(==), T(==)>(c: Call<V, T>, e: Event) {
    if e.Record? then c.due.Some?
    else c.due.None? && match e
      case Get(_, _) => c.phase.Getting?
      case Decode(_) => c.phase.Decoding?
      case Load(_, _) => c.phase.Loading?
      case SetKey(_, _, _) => c.phase.Setting?
      case Leave(_, _) => c.phase.Leaving?
      case EndStore(_, _) => c.phase.Storing?
      case Scan(_, _, _) => c.phase.Scanning?
      case Delete(_, keys, _, _) => c.phase == Deleting(keys)
      case _ => false
  }

  predicate Enabled<V(==), T(==)>(s: State<V, T>, e: Event) {
    OfCall(e) ==> e.i < |s.calls| && Ready(s.calls[e.i], e)
  }

  // ---------- the steps ----------

  function NewCall<V, T>(phase: Phase<V, T>): Call<V, T> {
    Call(phase, None, 0, None, None, None, false, ZERO)
  }

  function StartedCall<V, T>(e: Event): Call<V, T> {
    NewCall(if e.StartLookup? then Getting else if e.StartStore? then Storing else Scanning)
  }

  /** The record calls. */
  function Bump(counts: Counts, m: Mark): Counts {
    match m
    case Hit => counts.(hits := counts.hits + 1)
    case Miss => counts.(misses := counts.misses + 1)
    case Set => counts.(sets := counts.sets + 1)
    case Deletion(keys) => counts.(deletes := counts.deletes + keys)
    case Error(_) => counts.(errors := counts.errors + 1)
  }

  function AfterGet<V(==), T(==)>(text: Option<T>, c: Call<V, T>, ok: bool): Call<V, T> {
    if !ok then c.(phase := Loading, due := Some(Error(GetFailure)), reply := Some(GetFailed))
    else match text
      case Some(t) => c.(phase := Decoding(t), due := Some(Hit), reply := Some(Found(t)))
      case None => c.(phase := Loading, due := Some(Miss), reply := Some(Missing))
  }

  function AfterLoad<V(==), T(==)>(u: Setup<V, T>, c: Call<V, T>, ok: bool): Call<V, T> {
    if !ok then c.(phase := Leaving(LoaderFailed), loads := c.loads + 1, loaded := None)
    else
      var phase := match u.codec.encode(u.loaded)
        case Some(t) => Setting(t)
        case None => Leaving(Unencodable(u.loaded));
      c.(phase := phase, loads := c.loads + 1, loaded := Some(u.loaded))
  }

  function SteppedCall<V(==), T(==)>(u: Setup<V, T>, text: Option<T>, c: Call<V, T>, e: Event): Call<V, T>
    requires OfCall(e) && Ready(c, e)
  {
    match e
    case Get(_, ok) => AfterGet(text, c, ok)
    case Decode(_) =>
      var decoded := u.codec.decode(c.phase.text);
      c.(phase := if decoded.Some? then Leaving(Value(decoded.value)) else Loading)
    case Load(_, ok) => AfterLoad(u, c, ok)
    case SetKey(_, ok, _) =>
      c.(phase := Leaving(Value(u.loaded)), due := Some(if ok then Set else Error(SetFailure)),
         sent := Some(c.phase.text), setOk := ok)
    case Leave(_, _) => c.(phase := Returned(c.phase.result))
    case EndStore(_, outcome) =>
      var due := match outcome
        case Stored => Some(Set)
        case NotEncodable => None
        case _ => Some(Error(RetryFailure));
      c.(phase := StoreEnded(outcome), due := due)
    case Scan(_, ok, keys) =>
      if !ok then c.(phase := PurgeEnded(ScanFailed, keys), due := Some(Error(ScanFailure)))
      else c.(phase := if keys > 0 then Deleting(keys) else PurgeEnded(Purged, keys))
    case Delete(_, keys, ok, _) =>
      if ok then c.(phase := PurgeEnded(Purged, keys), due := Some(Deletion(keys)))
      else c.(phase := PurgeEnded(DeleteFailed, keys), due := Some(Error(DeleteFailure)))
    case Record(_) => c.(due := None, counted := Bump(c.counted, c.due.value))
  }

  /** What is stored after a step of a call. */
  function SteppedText<V(==), T(==)>(text: Option<T>, c: Call<V, T>, e: Event): Option<T>
    requires OfCall(e) && Ready(c, e)
  {
    match e
    case SetKey(_, ok, applied) => if ok || applied then Some(c.phase.text) else text
    case Delete(_, _, _, applied) => if applied then None else text
    case _ => text
  }

  // ---------- the history ----------

  const NOTHING := Answers(0, 0, 0, 0, multiset{})

  function Sum(a: Answers, b: Answers): Answers {
    Answers(a.found + b.found, a.absent + b.absent, a.stored + b.stored, a.deleted + b.deleted, a.failed + b.failed)
  }

  function Failure(e: Event): multiset<Cause> {
    match e
    case Get(_, false) => multiset{GetFailure}
    case SetKey(_, false, _) => multiset{SetFailure}
    case EndStore(_, outcome) => if outcome.Cancelled? || outcome.Exhausted? then multiset{RetryFailure} else multiset{}
    case Scan(_, false, _) => multiset{ScanFailure}
    case Delete(_, _, false, _) => multiset{DeleteFailure}
    case _ => multiset{}
  }

  /** What Redis says in this step, by the command, its reply and what is stored. */
  function Heard<T>(text: Option<T>, e: Event): Answers {
    Answers(
      One(e.Get? && e.ok && text.Some?),
      One(e.Get? && e.ok && text.None?),
      One((e.SetKey? && e.ok) || (e.EndStore? && e.outcome.Stored?)),
      if e.Delete? && e.ok then e.keys else 0,
      Failure(e))
  }

  /** The answer a record call stands for. */
  function Owed(due: Option<Mark>): Answers {
    Answers(
      One(due == Some(Hit)),
      One(due == Some(Miss)),
      One(due == Some(Set)),
      if due.Some? && due.value.Deletion? then due.value.keys else 0,
      if due.Some? && due.value.Error? then multiset{due.value.cause} else multiset{})
  }

  function AllOwed<V, T>(calls: seq<Call<V, T>>): Answers {
    if calls == [] then NOTHING else Sum(AllOwed(calls[..|calls| - 1]), Owed(calls[|calls| - 1].due))
  }

  /** The GetWithLoader calls that were not answered by their GET yet. */
  function Unanswered<V, T>(calls: seq<Call<V, T>>): nat {
    if calls == [] then 0 else Unanswered(calls[..|calls| - 1]) + One(calls[|calls| - 1].phase.Getting?)
  }

  function Next<V(==), T(==)>(u: Setup<V, T>, s: State<V, T>, e: Event): State<V, T>
    requires Enabled(s, e)
  {
    if e.Drop? then s.(text := None)
    else if e.ResetStats? then
      var owed := AllOwed(s.calls);
      s.(counts := ZERO, avgLatency := 0, heard := owed,
         lookups := owed.found + owed.absent + owed.failed[GetFailure] + Unanswered(s.calls))
    else if Starts(e) then
      s.(calls := s.calls + [StartedCall(e)], lookups := s.lookups + One(e.StartLookup?))
    else
      State(SteppedText(s.text, s.calls[e.i], e),
            s.calls[e.i := SteppedCall(u, s.text, s.calls[e.i], e)],
            if e.Record? then Bump(s.counts, s.calls[e.i].due.value) else s.counts,
            if e.Leave? then Average(s.avgLatency, e.latency) else s.avgLatency,
            Sum(s.heard, Heard(s.text, e)),
            s.lookups)
  }

  function Beginning<V, T>(): State<V, T> {
    State(None, [], ZERO, 0, NOTHING, 0)
  }

  predicate RunFrom<V(==), T(==)>(u: Setup<V, T>, s: State<V, T>, es: seq<Event>)
    decreases |es|, 0
  {
    es == [] || (RunFrom(u, s, es[..|es| - 1]) && Enabled(ExecFrom(u, s, es[..|es| - 1]), es[|es| - 1]))
  }

  function ExecFrom<V(==), T(==)>(u: Setup<V, T>, s: State<V, T>, es: seq<Event>): State<V, T>
    requires RunFrom(u, s, es)
    decreases |es|, 1
  {
    if es == [] then s else Next(u, ExecFrom(u, s, es[..|es| - 1]), es[|es| - 1])
  }

  predicate Run<V(==), T(==)>(u: Setup<V, T>, es: seq<Event>) { RunFrom(u, Beginning(), es) }

  function Exec<V(==), T(==)>(u: Setup<V, T>, es: seq<Event>): State<V, T>
    requires Run(u, es)
  {
    ExecFrom(u, Beginning(), es)
  }

  // ---------- the cache agrees with its loader ----------

  predicate IsEncoding<V(==), T(==)>(u: Setup<V, T>, text: T) {
    u.codec.encode(u.loaded) == Some(text)
  }

  /** The loader's value, or what decoding its encoding gives. */
  predicate IsLoaded<V(==), T(==)>(u: Setup<V, T>, value: V) {
    value == u.loaded
    || (u.codec.encode(u.loaded).Some? && u.codec.decode(u.codec.encode(u.loaded).value) == Some(value))
  }

  predicate ResultAgrees<V(==), T(==)>(u: Setup<V, T>, r: Lookup<V>) {
    match r
    case Value(value) => IsLoaded(u, value)
    case LoaderFailed => true
    case Unencodable(loaded) => loaded == u.loaded && u.codec.encode(u.loaded).None?
  }

  predicate CallAgrees<V(==), T(==)>(u: Setup<V, T>, c: Call<V, T>) {
    && (c.phase.Decoding? || c.phase.Setting? ==> IsEncoding(u, c.phase.text))
    && (c.phase.Leaving? || c.phase.Returned? ==> ResultAgrees(u, c.phase.result))
    && c.loads <= 1
    && (c.phase.Getting? || c.phase.Decoding? || c.phase.Loading? ==> c.loads == 0)
  }

  predicate Agrees<V(==), T(==)>(u: Setup<V, T>, s: State<V, T>) {
    && (s.text.Some? ==> IsEncoding(u, s.text.value))
    && forall c <- s.calls :: CallAgrees(u, c)
  }

  lemma SteppedCallAgrees<V, T>(u: Setup<V, T>, text: Option<T>, c: Call<V, T>, e: Event)
    requires OfCall(e) && Ready(c, e)
    requires CallAgrees(u, c) && (text.Some? ==> IsEncoding(u, text.value))
    ensures CallAgrees(u, SteppedCall(u, text, c, e))
  {
  }

  lemma AgreesStep<V, T>(u: Setup<V, T>, s: State<V, T>, e: Event)
    requires Agrees(u, s) && Enabled(s, e)
    ensures Agrees(u, Next(u, s, e))
  {
    hide SteppedCall, Bump, AllOwed, Unanswered, Heard, Sum;
    if OfCall(e) {
      SteppedCallAgrees(u, s.text, s.calls[e.i], e);
    }
  }

  /** If the key is written only by GetWithLoader with a deterministic loader, then under any interleaving
      with expiry, failed commands and deletions the stored text is the encoding of the loader's value,
      every value returned is that value or the decoding of its encoding, and no call runs the loader
      twice. */
  lemma {:induction false} CacheAgreesWithLoader<V, T>(u: Setup<V, T>, es: seq<Event>)
    requires Run(u, es)
    ensures var s := Exec(u, es);
            && (s.text.Some? ==> u.codec.encode(u.loaded) == s.text)
            && forall c <- s.calls :: c.loads <= 1 && (c.phase.Returned? ==> ResultAgrees(u, c.phase.result))
    ensures Agrees(u, Exec(u, es))
  {
    if es != [] {
      CacheAgreesWithLoader(u, es[..|es| - 1]);
      AgreesStep(u, Exec(u, es[..|es| - 1]), es[|es| - 1]);
    }
  }

  // ---------- what is stored, and the average ----------

  predicate Writes(e: Event) { e.SetKey? && (e.ok || e.applied) }

  predicate Removes(e: Event) { e.Drop? || (e.Delete? && e.applied) }

  /** A SET took effect, and nothing removed the key since. */
  ghost predicate Standing(es: seq<Event>) {
    exists k :: 0 <= k < |es| && Writes(es[k]) && forall j :: k < j < |es| ==> !Removes(es[j])
  }

  lemma StandingSnoc(es: seq<Event>)
    requires es != []
    ensures var e := es[|es| - 1];
            Standing(es) <==> Writes(e) || (Standing(es[..|es| - 1]) && !Removes(e))
  {
    var init, n := es[..|es| - 1], |es| - 1;
    if Standing(es) && !Writes(es[n]) {
      var k :| 0 <= k < |es| && Writes(es[k]) && forall j :: k < j < |es| ==> !Removes(es[j]);
      assert Writes(init[k]) && forall j :: k < j < |init| ==> !Removes(init[j]);
    }
    if Standing(init) && !Removes(es[n]) {
      var k :| 0 <= k < |init| && Writes(init[k]) && forall j :: k < j < |init| ==> !Removes(init[j]);
      assert Writes(es[k]) && forall j | k < j < |es| :: !Removes(es[j]) by {
        forall j | k < j < |es|
          ensures !Removes(es[j])
        {
          if j < n {
            assert es[j] == init[j];
          }
        }
      }
    }
  }

  lemma StoredStep<V, T>(u: Setup<V, T>, s: State<V, T>, e: Event)
    requires Enabled(s, e)
    ensures Next(u, s, e).text.Some? <==> Writes(e) || (s.text.Some? && !Removes(e))
  {
    hide SteppedCall, Bump, AllOwed, Unanswered, Heard, Sum, ZERO;
  }

  /** Over all runs a text is stored exactly if a SET took effect, reported as successful or not, and no
      deletion, expiry or eviction followed it. */
  lemma {:induction false} StoredExactlyWhen<V, T>(u: Setup<V, T>, es: seq<Event>)
    requires Run(u, es)
    ensures Exec(u, es).text.Some? <==>
            exists k :: 0 <= k < |es| && Writes(es[k]) && forall j :: k < j < |es| ==> !Removes(es[j])
  {
    if es != [] {
      hide Next;
      StoredExactlyWhen(u, es[..|es| - 1]);
      StandingSnoc(es);
      StoredStep(u, Exec(u, es[..|es| - 1]), es[|es| - 1]);
      assert Standing(es[..|es| - 1]) <==> Exec(u, es[..|es| - 1]).text.Some?;
    }
  }

  /** The latencies recorded since the last ResetStats. */
  function Latencies(es: seq<Event>): seq<nat> {
    if es == [] then []
    else
      var before := Latencies(es[..|es| - 1]);
      match es[|es| - 1]
      case Leave(_, latency) => before + [latency]
      case ResetStats => []
      case _ => before
  }

  lemma AverageStep<V, T>(u: Setup<V, T>, s: State<V, T>, e: Event)
    requires Enabled(s, e)
    ensures Next(u, s, e).avgLatency ==
            if e.ResetStats? then 0 else if e.Leave? then Average(s.avgLatency, e.latency) else s.avgLatency
  {
    hide SteppedCall, SteppedText, Bump, AllOwed, Unanswered, Heard, Sum, ZERO, Average;
  }

  /** In every interleaving AvgLatency is the moving average of the latencies since the last ResetStats, in
      the order in which the calls return. */
  lemma {:induction false} AverageOfLatencies<V, T>(u: Setup<V, T>, es: seq<Event>)
    requires Run(u, es)
    ensures Exec(u, es).avgLatency == AvgLatency(Latencies(es))
  {
    if es != [] {
      hide Next;
      var before := Latencies(es[..|es| - 1]);
      AverageOfLatencies(u, es[..|es| - 1]);
      AverageStep(u, Exec(u, es[..|es| - 1]), es[|es| - 1]);
      if es[|es| - 1].Leave? {
        assert (before + [es[|es| - 1].latency])[..|before|] == before;
      }
    }
  }

  // ---------- the counters balance ----------

  /** The counters that record the answers. */
  function Recorded(a: Answers): Counts {
    Counts(a.found, a.absent, a.stored, a.deleted, |a.failed|)
  }

  predicate Balanced<V(==), T(==)>(s: State<V, T>) {
    && Plus(s.counts, Recorded(AllOwed(s.calls))) == Recorded(s.heard)
    && s.lookups == s.heard.found + s.heard.absent + s.heard.failed[GetFailure] + Unanswered(s.calls)
  }

  lemma {:induction false} AllOwedPut<V, T>(calls: seq<Call<V, T>>, i: nat, c: Call<V, T>)
    requires i < |calls|
    ensures Sum(AllOwed(calls[i := c]), Owed(calls[i].due)) == Sum(AllOwed(calls), Owed(c.due))
  {
    hide Owed, NOTHING, Sum;
    var n := |calls| - 1;
    if i < n {
      AllOwedPut(calls[..n], i, c);
      assert calls[i := c][..n] == calls[..n][i := c];
      SumSwap(AllOwed(calls[..n][i := c]), Owed(calls[i].due), AllOwed(calls[..n]), Owed(c.due), Owed(calls[n].due));
    } else {
      assert calls[i := c][..n] == calls[..n];
      SumCommutes(AllOwed(calls[..n]), Owed(c.due), Owed(calls[i].due));
    }
  }

  lemma SumCommutes(a: Answers, b: Answers, c: Answers)
    ensures Sum(Sum(a, b), c) == Sum(Sum(a, c), b)
  {
  }

  lemma SumSwap(a: Answers, x: Answers, b: Answers, y: Answers, c: Answers)
    requires Sum(a, x) == Sum(b, y)
    ensures Sum(Sum(a, c), x) == Sum(Sum(b, c), y)
  {
    SumCommutes(a, c, x);
    SumCommutes(b, c, y);
  }

  lemma {:induction false} UnansweredPut<V, T>(calls: seq<Call<V, T>>, i: nat, c: Call<V, T>)
    requires i < |calls|
    ensures Unanswered(calls[i := c]) + One(calls[i].phase.Getting?) == Unanswered(calls) + One(c.phase.Getting?)
  {
    var n := |calls| - 1;
    if i < n {
      UnansweredPut(calls[..n], i, c);
      assert calls[i := c][..n] == calls[..n][i := c];
    } else {
      assert calls[i := c][..n] == calls[..n];
    }
  }

  /** A call comes to owe exactly the answer Redis gave it. */
  lemma OwesWhatItHeard<V, T>(u: Setup<V, T>, text: Option<T>, c: Call<V, T>, e: Event)
    requires OfCall(e) && !e.Record? && Ready(c, e)
    ensures Owed(SteppedCall(u, text, c, e).due) == Heard(text, e)
  {
    hide ZERO, NOTHING;
    DueAfter(u, text, c, e);
    hide SteppedCall;
  }

  lemma DueAfter<V, T>(u: Setup<V, T>, text: Option<T>, c: Call<V, T>, e: Event)
    requires OfCall(e) && !e.Record? && Ready(c, e)
    ensures SteppedCall(u, text, c, e).due ==
      match e
      case Get(_, true) => if text.Some? then Some(Hit) else Some(Miss)
      case Get(_, false) => Some(Error(GetFailure))
      case SetKey(_, true, _) => Some(Set)
      case SetKey(_, false, _) => Some(Error(SetFailure))
      case EndStore(_, Stored) => Some(Set)
      case EndStore(_, NotEncodable) => None
      case EndStore(_, _) => Some(Error(RetryFailure))
      case Scan(_, false, _) => Some(Error(ScanFailure))
      case Delete(_, keys, true, _) => Some(Deletion(keys))
      case Delete(_, _, false, _) => Some(Error(DeleteFailure))
      case _ => None
  {
  }

  lemma BumpRecords(counts: Counts, m: Mark)
    ensures Bump(counts, m) == Plus(counts, Recorded(Owed(Some(m))))
  {
  }

  /** Only GET answers an unanswered lookup. */
  lemma GettingEnds<V, T>(u: Setup<V, T>, text: Option<T>, c: Call<V, T>, e: Event)
    requires OfCall(e) && Ready(c, e) && (c.phase.Getting? ==> c.due.None?)
    ensures var c', heard := SteppedCall(u, text, c, e), Heard(text, e);
            && !c'.phase.Getting?
            && heard.found + heard.absent + heard.failed[GetFailure] == One(c.phase.Getting?)
  {
  }

  predicate GettingOwesNothing<V(==), T(==)>(s: State<V, T>) {
    forall c <- s.calls :: c.phase.Getting? ==> c.due.None?
  }

  lemma RecordedSum(a: Answers, b: Answers)
    ensures Recorded(Sum(a, b)) == Plus(Recorded(a), Recorded(b))
  {
  }

  lemma BalancedPut<V, T>(s: State<V, T>, i: nat, c: Call<V, T>, counts: Counts, heard: Answers)
    requires Balanced(s) && i < |s.calls| && !c.phase.Getting?
    requires Plus(counts, Recorded(Owed(c.due))) == Plus(Plus(s.counts, Recorded(Owed(s.calls[i].due))), Recorded(heard))
    requires heard.found + heard.absent + heard.failed[GetFailure] == One(s.calls[i].phase.Getting?)
    ensures Balanced(s.(calls := s.calls[i := c], counts := counts, heard := Sum(s.heard, heard)))
  {
    hide Owed, AllOwed, Unanswered, ZERO, NOTHING, Recorded;
    AllOwedPut(s.calls, i, c);
    UnansweredPut(s.calls, i, c);
    RecordedSum(AllOwed(s.calls[i := c]), Owed(s.calls[i].due));
    RecordedSum(AllOwed(s.calls), Owed(c.due));
    RecordedSum(s.heard, heard);
  }

  lemma BalancedElsewhere<V, T>(s: State<V, T>, t: State<V, T>)
    requires Balanced(s)
    requires t.calls == s.calls && t.counts == s.counts && t.heard == s.heard && t.lookups == s.lookups
    ensures Balanced(t)
  {
  }

  lemma BalancedCall<V, T>(u: Setup<V, T>, s: State<V, T>, e: Event)
    requires Balanced(s) && GettingOwesNothing(s) && OfCall(e) && Enabled(s, e)
    ensures Balanced(Next(u, s, e))
  {
    hide SteppedCall, SteppedText, Heard, Owed, Bump, AllOwed, Unanswered, Plus, Recorded, ZERO, NOTHING, Sum, Balanced;
    var c := s.calls[e.i];
    var c' := SteppedCall(u, s.text, c, e);
    GettingEnds(u, s.text, c, e);
    var heard, counts := Heard(s.text, e), Next(u, s, e).counts;
    RecordedNothing();
    PlusZero(counts);
    if e.Record? {
      RecordSettles(u, s.text, c, e);
      BumpRecords(s.counts, c.due.value);
    } else {
      OwesWhatItHeard(u, s.text, c, e);
      OwesNothing(c);
    }
    BalancedPut(s, e.i, c', counts, heard);
    BalancedElsewhere(s.(calls := s.calls[e.i := c'], counts := counts, heard := Sum(s.heard, heard)), Next(u, s, e));
  }

  lemma GettingStep<V, T>(u: Setup<V, T>, s: State<V, T>, e: Event)
    requires GettingOwesNothing(s) && Enabled(s, e)
    ensures GettingOwesNothing(Next(u, s, e))
  {
    hide SteppedCall, SteppedText, Heard, AllOwed, Unanswered, Bump, ZERO, NOTHING, Sum;
    if OfCall(e) {
      GettingEnds(u, s.text, s.calls[e.i], e);
    }
  }

  lemma RecordSettles<V, T>(u: Setup<V, T>, text: Option<T>, c: Call<V, T>, e: Event)
    requires e.Record? && Ready(c, e)
    ensures Owed(SteppedCall(u, text, c, e).due) == NOTHING == Heard(text, e)
  {
  }

  lemma OwesNothing<V, T>(c: Call<V, T>)
    requires c.due.None?
    ensures Owed(c.due) == NOTHING
  {
  }

  lemma PlusZero(a: Counts)
    ensures Plus(ZERO, a) == a == Plus(a, ZERO)
  {
  }

  lemma SumNothing(a: Answers)
    ensures Sum(NOTHING, a) == a == Sum(a, NOTHING)
  {
  }

  lemma RecordedNothing()
    ensures Recorded(NOTHING) == ZERO
    ensures NOTHING.found + NOTHING.absent + NOTHING.failed[GetFailure] == 0
  {
  }

  lemma BalancedStart<V, T>(s: State<V, T>, c: Call<V, T>)
    requires Balanced(s) && c.due.None?
    ensures Balanced(s.(calls := s.calls + [c], lookups := s.lookups + One(c.phase.Getting?)))
  {
    hide ZERO, NOTHING, Owed, Sum, Plus, Recorded;
    assert (s.calls + [c])[..|s.calls|] == s.calls;
    OwesNothing(c);
    SumNothing(AllOwed(s.calls));
  }

  lemma BalancedReset<V, T>(s: State<V, T>)
    ensures var owed := AllOwed(s.calls);
            Balanced(s.(counts := ZERO, avgLatency := 0, heard := owed,
                        lookups := owed.found + owed.absent + owed.failed[GetFailure] + Unanswered(s.calls)))
  {
    hide AllOwed, Unanswered, Plus, Recorded, ZERO;
    PlusZero(Recorded(AllOwed(s.calls)));
  }

  lemma BalancedStep<V, T>(u: Setup<V, T>, s: State<V, T>, e: Event)
    requires Balanced(s) && GettingOwesNothing(s) && Enabled(s, e)
    ensures Balanced(Next(u, s, e)) && GettingOwesNothing(Next(u, s, e))
  {
    hide Balanced, GettingOwesNothing, AllOwed, Unanswered, ZERO;
    GettingStep(u, s, e);
    if OfCall(e) {
      hide Next;
      BalancedCall(u, s, e);
    } else if Starts(e) {
      BalancedStart(s, StartedCall(e));
    } else if e.ResetStats? {
      BalancedReset(s);
    } else {
      BalancedElsewhere(s, Next(u, s, e));
    }
  }

  lemma BalancedAtStart<V, T>()
    ensures Balanced<V, T>(Beginning()) && GettingOwesNothing<V, T>(Beginning())
  {
    hide ZERO, NOTHING, Plus, Recorded;
    RecordedNothing();
    PlusZero(ZERO);
  }

  lemma {:induction false} AlwaysBalanced<V, T>(u: Setup<V, T>, es: seq<Event>)
    requires Run(u, es)
    ensures Balanced(Exec(u, es)) && GettingOwesNothing(Exec(u, es))
  {
    hide Next, Balanced, GettingOwesNothing;
    if es == [] {
      BalancedAtStart<V, T>();
    } else {
      AlwaysBalanced(u, es[..|es| - 1]);
      BalancedStep(u, Exec(u, es[..|es| - 1]), es[|es| - 1]);
    }
  }

  predicate Settled<V(==), T(==)>(s: State<V, T>) {
    forall c <- s.calls :: c.due.None?
  }

  lemma {:induction false} NothingOwed<V, T>(calls: seq<Call<V, T>>)
    requires forall c <- calls :: c.due.None?
    ensures AllOwed(calls) == NOTHING
  {
    if calls != [] {
      hide Owed, NOTHING, Sum;
      NothingOwed(calls[..|calls| - 1]);
      OwesNothing(calls[|calls| - 1]);
      SumNothing(NOTHING);
    }
  }

  /** Whenever no call owes a record, the counters are exactly what Redis answered since the last
      ResetStats: a text found, even an undecodable one, is a hit, an absent key is a miss, and every
      failure counts once. */
  lemma CountersBalance<V, T>(u: Setup<V, T>, es: seq<Event>)
    requires Run(u, es) && Settled(Exec(u, es))
    ensures var s := Exec(u, es);
            && s.counts.hits == s.heard.found
            && s.counts.misses == s.heard.absent
            && s.counts.sets == s.heard.stored
            && s.counts.deletes == s.heard.deleted
            && s.counts.errors == |s.heard.failed|
            && s.counts.hits + s.counts.misses + s.heard.failed[GetFailure] == s.lookups - Unanswered(s.calls)
  {
    hide Exec, Run, AllOwed, Unanswered;
    AlwaysBalanced(u, es);
    NothingOwed(Exec(u, es).calls);
  }

  // ---------- each call keeps its contract ----------

  /** What a GetWithLoader call has to count, by its replies so far. */
  function Expected<V, T>(c: Call<V, T>): Counts {
    if c.reply.None? then ZERO else LookupCounts(c.reply.value, c.sent, c.setOk)
  }

  /** What a call has counted together with what it still owes. */
  function Accounted<V, T>(c: Call<V, T>): Counts {
    Plus(c.counted, Recorded(Owed(c.due)))
  }

  predicate LookupProgress<V(==), T(==)>(u: Setup<V, T>, c: Call<V, T>) {
    && (c.reply.None? <==> c.phase.Getting?)
    && (c.phase.Getting? || c.phase.Decoding? || c.phase.Loading? || c.phase.Setting? ==> c.sent.None?)
    && (c.phase.Getting? || c.phase.Decoding? || c.phase.Loading? ==> c.loads == 0)
    && (c.phase.Decoding? ==> c.reply == Some(Found(c.phase.text)))
    && (c.phase.Loading? && c.reply.value.Found? ==> u.codec.decode(c.reply.value.text).None?)
    && (c.phase.Setting? ==>
          LookupContract(u.codec, c.reply.value, c.loaded, Value(u.loaded), c.loads, Some(c.phase.text)))
    && (c.phase.Leaving? || c.phase.Returned? ==>
          LookupContract(u.codec, c.reply.value, c.loaded, c.phase.result, c.loads, c.sent))
    && (c.phase.Returned? ==> c.due.None?)
  }

  predicate LookupKept<V(==), T(==)>(u: Setup<V, T>, c: Call<V, T>) {
    LookupProgress(u, c) && Accounted(c) == Expected(c)
  }

  predicate StoreKept<V(==), T(==)>(c: Call<V, T>) {
    Accounted(c) == if c.phase.StoreEnded? then StoreCounts(c.phase.outcome) else ZERO
  }

  predicate PurgeKept<V(==), T(==)>(c: Call<V, T>) {
    Accounted(c) == if c.phase.PurgeEnded? then PurgeCounts(c.phase.end, c.phase.keys) else ZERO
  }

  predicate CallKept<V(==), T(==)>(u: Setup<V, T>, c: Call<V, T>) {
    match c.phase
    case Storing => StoreKept(c)
    case StoreEnded(_) => StoreKept(c)
    case Scanning => PurgeKept(c)
    case Deleting(_) => PurgeKept(c)
    case PurgeEnded(_, _) => PurgeKept(c)
    case _ => LookupKept(u, c)
  }

  lemma AccountedBy<V, T>(c: Call<V, T>)
    ensures Accounted(c) == if c.due.None? then c.counted else Bump(c.counted, c.due.value)
  {
    hide ZERO, NOTHING, Plus, Recorded, Owed, Bump;
    if c.due.None? {
      OwesNothing(c);
      RecordedNothing();
      PlusZero(c.counted);
    } else {
      BumpRecords(c.counted, c.due.value);
    }
  }

  lemma RecordKeeps<V, T>(c: Call<V, T>)
    requires c.due.Some?
    ensures Accounted(c.(due := None, counted := Bump(c.counted, c.due.value))) == Accounted(c)
  {
    hide Accounted, Bump;
    AccountedBy(c);
    AccountedBy(c.(due := None, counted := Bump(c.counted, c.due.value)));
  }

  lemma LookupProgresses<V, T>(u: Setup<V, T>, text: Option<T>, c: Call<V, T>, e: Event)
    requires OfCall(e) && !e.Record? && Ready(c, e) && LookupProgress(u, c)
    requires e.Get? || e.Decode? || e.Load? || e.SetKey? || e.Leave?
    ensures LookupProgress(u, SteppedCall(u, text, c, e))
  {
  }

  lemma LookupAccounted<V, T>(u: Setup<V, T>, text: Option<T>, c: Call<V, T>, e: Event)
    requires OfCall(e) && !e.Record? && Ready(c, e) && LookupProgress(u, c) && Accounted(c) == Expected(c)
    requires e.Get? || e.Decode? || e.Load? || e.SetKey? || e.Leave?
    ensures Accounted(SteppedCall(u, text, c, e)) == Expected(SteppedCall(u, text, c, e))
  {
    hide Accounted, LookupContract;
    AccountedBy(c);
    AccountedBy(SteppedCall(u, text, c, e));
  }

  lemma LookupCallKept<V, T>(u: Setup<V, T>, text: Option<T>, c: Call<V, T>, e: Event)
    requires OfCall(e) && !e.Record? && Ready(c, e) && LookupKept(u, c)
    requires e.Get? || e.Decode? || e.Load? || e.SetKey? || e.Leave?
    ensures LookupKept(u, SteppedCall(u, text, c, e))
  {
    hide LookupProgress, Accounted, SteppedCall, Expected;
    LookupProgresses(u, text, c, e);
    LookupAccounted(u, text, c, e);
  }

  lemma StoreCallKept<V, T>(u: Setup<V, T>, text: Option<T>, c: Call<V, T>, e: Event)
    requires e.EndStore? && Ready(c, e) && StoreKept(c)
    ensures StoreKept(SteppedCall(u, text, c, e))
  {
    hide Accounted;
    AccountedBy(c);
    AccountedBy(SteppedCall(u, text, c, e));
  }

  lemma PurgeCallKept<V, T>(u: Setup<V, T>, text: Option<T>, c: Call<V, T>, e: Event)
    requires (e.Scan? || e.Delete?) && Ready(c, e) && PurgeKept(c)
    ensures PurgeKept(SteppedCall(u, text, c, e))
  {
    hide Accounted;
    AccountedBy(c);
    AccountedBy(SteppedCall(u, text, c, e));
  }

  lemma RecordCallKept<V, T>(u: Setup<V, T>, c: Call<V, T>)
    requires c.due.Some? && CallKept(u, c)
    ensures CallKept(u, c.(due := None, counted := Bump(c.counted, c.due.value)))
  {
    hide Bump, Accounted, LookupCounts, LookupContract, StoreCounts, PurgeCounts;
    RecordKeeps(c);
  }

  lemma SteppedCallKept<V, T>(u: Setup<V, T>, text: Option<T>, c: Call<V, T>, e: Event)
    requires OfCall(e) && Ready(c, e) && CallKept(u, c)
    ensures CallKept(u, SteppedCall(u, text, c, e))
  {
    hide LookupKept, StoreKept, PurgeKept;
    match e
    case Record(_) => RecordCallKept(u, c);
    case EndStore(_, _) => StoreCallKept(u, text, c, e);
    case Scan(_, _, _) => PurgeCallKept(u, text, c, e);
    case Delete(_, _, _, _) => PurgeCallKept(u, text, c, e);
    case _ => LookupCallKept(u, text, c, e);
  }

  lemma KeptStep<V, T>(u: Setup<V, T>, s: State<V, T>, e: Event)
    requires Enabled(s, e) && forall c <- s.calls :: CallKept(u, c)
    ensures forall c <- Next(u, s, e).calls :: CallKept(u, c)
  {
    hide SteppedCall, SteppedText, CallKept, AllOwed, Unanswered, Bump, Sum, Heard, StartedCall;
    if OfCall(e) {
      SteppedCallKept(u, s.text, s.calls[e.i], e);
    } else {
      NewCallKept(u, e);
    }
  }

  lemma NewCallKept<V, T>(u: Setup<V, T>, e: Event)
    ensures CallKept(u, StartedCall(e))
  {
    hide ZERO, Accounted;
    AccountedBy(StartedCall<V, T>(e));
  }

  lemma {:induction false} AlwaysKept<V, T>(u: Setup<V, T>, es: seq<Event>)
    requires Run(u, es)
    ensures forall c <- Exec(u, es).calls :: CallKept(u, c)
  {
    if es != [] {
      hide Next, CallKept;
      AlwaysKept(u, es[..|es| - 1]);
      KeptStep(u, Exec(u, es[..|es| - 1]), es[|es| - 1]);
    }
  }

  /** In every interleaving each finished call has returned, loaded, sent and counted what the operation
      promises for the answers it got, whatever the other calls did meanwhile. */
  lemma EveryCallKeepsItsContract<V, T>(u: Setup<V, T>, es: seq<Event>, c: Call<V, T>)
    requires Run(u, es) && c in Exec(u, es).calls && c.due.None?
    ensures c.phase.Returned? ==>
              && c.reply.Some?
              && LookupContract(u.codec, c.reply.value, c.loaded, c.phase.result, c.loads, c.sent)
              && c.counted == LookupCounts(c.reply.value, c.sent, c.setOk)
    ensures c.phase.StoreEnded? ==> c.counted == StoreCounts(c.phase.outcome)
    ensures c.phase.PurgeEnded? ==> c.counted == PurgeCounts(c.phase.end, c.phase.keys)
  {
    hide Exec, Run, Accounted, LookupContract, LookupCounts, StoreCounts, PurgeCounts;
    AlwaysKept(u, es);
    assert CallKept(u, c);
    AccountedBy(c);
  }

  // ---------- one call alone ----------

  /** How Redis and the loader answer one GetWithLoader call, and how long it takes. */
  datatype Env = Env(getOk: bool, loadOk: bool, setOk: bool, applied: bool, latency: nat)

  /** A step of call i answered that way. */
  predicate Own(v: Env, i: nat, e: Event) {
    match e
    case Get(j, ok) => j == i && ok == v.getOk
    case Decode(j) => j == i
    case Load(j, ok) => j == i && ok == v.loadOk
    case SetKey(j, ok, applied) => j == i && ok == v.setOk && applied == v.applied
    case Leave(j, latency) => j == i && latency == v.latency
    case Record(j) => j == i
    case _ => false
  }

  lemma Extend<V, T>(u: Setup<V, T>, s: State<V, T>, es: seq<Event>, e: Event)
    requires RunFrom(u, s, es) && Enabled(ExecFrom(u, s, es), e)
    ensures RunFrom(u, s, es + [e]) && ExecFrom(u, s, es + [e]) == Next(u, ExecFrom(u, s, es), e)
  {
    assert (es + [e])[..|es|] == es;
  }

  /** The newest call takes a step. */
  lemma OwnStep<V, T>(u: Setup<V, T>, s: State<V, T>, es: seq<Event>, c: Call<V, T>, e: Event)
    returns (es': seq<Event>, c': Call<V, T>)
    requires RunFrom(u, s, es) && ExecFrom(u, s, es).calls == s.calls + [c]
    requires OfCall(e) && e.i == |s.calls| && Ready(c, e)
    ensures es' == es + [e] && RunFrom(u, s, es')
    ensures c' == SteppedCall(u, ExecFrom(u, s, es).text, c, e)
    ensures var t, t' := ExecFrom(u, s, es), ExecFrom(u, s, es');
            && t'.calls == s.calls + [c']
            && t'.text == SteppedText(t.text, c, e)
            && t'.counts == (if e.Record? then Bump(t.counts, c.due.value) else t.counts)
            && t'.avgLatency == if e.Leave? then Average(t.avgLatency, e.latency) else t.avgLatency
  {
    hide ExecFrom, RunFrom, SteppedCall, SteppedText, Bump, Heard, Sum, AllOwed, Unanswered, ZERO;
    var t := ExecFrom(u, s, es);
    Extend(u, s, es, e);
    es', c' := es + [e], SteppedCall(u, t.text, c, e);
    assert (s.calls + [c])[|s.calls| := c'] == s.calls + [c'];
  }

  function ReplyTo<T>(text: Option<T>, ok: bool): GetReply<T> {
    if !ok then GetFailed else if text.Some? then Found(text.value) else Missing
  }

  function LoadedBy<V(==), T>(u: Setup<V, T>, v: Env): Option<V> {
    if v.loadOk then Some(u.loaded) else None
  }

  predicate IsLookup<V, T>(c: Call<V, T>) {
    !(c.phase.Storing? || c.phase.StoreEnded? || c.phase.Scanning? || c.phase.Deleting? || c.phase.PurgeEnded?)
  }

  /** The steps are those of call i alone, from its start. */
  predicate Solo(v: Env, i: nat, es: seq<Event>) {
    |es| > 0 && es[0] == StartLookup && forall e <- es[1..] :: Own(v, i, e)
  }

  /** How a call that has taken all the steps since s stands to the state t it has reached. */
  predicate Alone<V(==), T(==)>(u: Setup<V, T>, s: State<V, T>, v: Env, t: State<V, T>, c: Call<V, T>) {
    && IsLookup(c) && LookupKept(u, c)
    && (c.reply.Some? ==> c.reply.value == ReplyTo(s.text, v.getOk))
    && (c.loads != 0 ==> c.loaded == LoadedBy(u, v))
    && (c.sent.Some? ==> c.setOk == v.setOk)
    && t.counts == Plus(s.counts, c.counted)
    && t.text == (if c.sent.Some? && (v.setOk || v.applied) then c.sent else s.text)
    && t.avgLatency == if c.phase.Returned? then Average(s.avgLatency, v.latency) else s.avgLatency
  }

  /** What a waiting call does next. */
  function Move<V, T>(v: Env, i: nat, c: Call<V, T>): Event {
    if c.due.Some? then Record(i)
    else match c.phase
      case Getting => Get(i, v.getOk)
      case Decoding(_) => Decode(i)
      case Loading => Load(i, v.loadOk)
      case Setting(_) => SetKey(i, v.setOk, v.applied)
      case _ => Leave(i, v.latency)
  }

  function Rest<V, T>(c: Call<V, T>): nat {
    One(c.due.Some?) + match c.phase
      case Getting => 10
      case Decoding(_) => 8
      case Loading => 6
      case Setting(_) => 4
      case Leaving(_) => 2
      case _ => 0
  }

  lemma MoveProgresses<V, T>(u: Setup<V, T>, text: Option<T>, v: Env, i: nat, c: Call<V, T>)
    requires IsLookup(c) && !c.phase.Returned?
    ensures var e := Move(v, i, c);
            OfCall(e) && Own(v, i, e) && Ready(c, e) && Rest(SteppedCall(u, text, c, e)) < Rest(c)
  {
  }

  lemma MoveCounts<V, T>(u: Setup<V, T>, s: State<V, T>, text: Option<T>, counts: Counts, c: Call<V, T>, e: Event)
    requires OfCall(e) && Ready(c, e) && counts == Plus(s.counts, c.counted)
    ensures Plus(s.counts, SteppedCall(u, text, c, e).counted)
            == if e.Record? then Bump(counts, c.due.value) else counts
  {
  }

  lemma MoveKeeps<V, T>(u: Setup<V, T>, s: State<V, T>, v: Env, t: State<V, T>, c: Call<V, T>, e: Event)
    requires Alone(u, s, v, t, c) && OfCall(e) && Ready(c, e) && Own(v, |s.calls|, e)
    ensures var c' := SteppedCall(u, t.text, c, e);
            && IsLookup(c')
            && (c'.reply.Some? ==> c'.reply.value == ReplyTo(s.text, v.getOk))
            && (c'.loads != 0 ==> c'.loaded == LoadedBy(u, v))
            && (c'.sent.Some? ==> c'.setOk == v.setOk)
            && SteppedText(t.text, c, e) == (if c'.sent.Some? && (v.setOk || v.applied) then c'.sent else s.text)
            && (c'.phase.Returned? <==> e.Leave? || c.phase.Returned?)
  {
    hide LookupContract, Accounted, Expected, Bump;
  }

  lemma AloneStep<V, T>(u: Setup<V, T>, s: State<V, T>, v: Env, t: State<V, T>, c: Call<V, T>, e: Event, t': State<V, T>)
    requires Alone(u, s, v, t, c) && OfCall(e) && Ready(c, e) && Own(v, |s.calls|, e)
    requires t'.text == SteppedText(t.text, c, e)
    requires t'.counts == if e.Record? then Bump(t.counts, c.due.value) else t.counts
    requires t'.avgLatency == if e.Leave? then Average(t.avgLatency, e.latency) else t.avgLatency
    ensures Alone(u, s, v, t', SteppedCall(u, t.text, c, e))
  {
    MoveKeeps(u, s, v, t, c, e);
    MoveCounts(u, s, t.text, t.counts, c, e);
    SteppedCallKept(u, t.text, c, e);
    hide SteppedCall, SteppedText, LookupKept, Bump, Plus, Average, ReplyTo, LoadedBy;
  }

  lemma OneMove<V, T>(u: Setup<V, T>, s: State<V, T>, v: Env, es: seq<Event>, c: Call<V, T>)
    returns (es': seq<Event>, c': Call<V, T>)
    requires RunFrom(u, s, es) && ExecFrom(u, s, es).calls == s.calls + [c] && Alone(u, s, v, ExecFrom(u, s, es), c)
    requires Solo(v, |s.calls|, es) && !c.phase.Returned?
    ensures RunFrom(u, s, es') && ExecFrom(u, s, es').calls == s.calls + [c'] && Alone(u, s, v, ExecFrom(u, s, es'), c')
    ensures Solo(v, |s.calls|, es') && Rest(c') < Rest(c)
  {
    hide RunFrom, ExecFrom, Own, Alone, LookupKept, SteppedCall, SteppedText, Bump, Average, Rest, Move;
    var e := Move(v, |s.calls|, c);
    var t := ExecFrom(u, s, es);
    AloneIsLookup(u, s, v, t, c);
    MoveProgresses(u, t.text, v, |s.calls|, c);
    OwnIs(v, |s.calls|, e);
    es', c' := OwnStep(u, s, es, c, e);
    AloneStep(u, s, v, t, c, e, ExecFrom(u, s, es'));
    assert es'[1..] == es[1..] + [e];
  }

  lemma OwnIs(v: Env, i: nat, e: Event)
    requires Own(v, i, e)
    ensures OfCall(e) && e.i == i
  {
  }

  lemma AloneIsLookup<V, T>(u: Setup<V, T>, s: State<V, T>, v: Env, t: State<V, T>, c: Call<V, T>)
    requires Alone(u, s, v, t, c)
    ensures IsLookup(c)
  {
  }

  lemma {:induction false} AloneFinishes<V, T>(u: Setup<V, T>, s: State<V, T>, v: Env, es: seq<Event>, c: Call<V, T>)
    returns (es': seq<Event>, c': Call<V, T>)
    requires RunFrom(u, s, es) && ExecFrom(u, s, es).calls == s.calls + [c] && Alone(u, s, v, ExecFrom(u, s, es), c)
    requires Solo(v, |s.calls|, es)
    ensures RunFrom(u, s, es') && ExecFrom(u, s, es').calls == s.calls + [c'] && Alone(u, s, v, ExecFrom(u, s, es'), c')
    ensures Solo(v, |s.calls|, es') && c'.phase.Returned?
    decreases Rest(c)
  {
    hide RunFrom, ExecFrom, Alone, Solo, Rest;
    if c.phase.Returned? {
      es', c' := es, c;
    } else {
      es', c' := OneMove(u, s, v, es, c);
      es', c' := AloneFinishes(u, s, v, es', c');
    }
  }

  lemma AloneStarts<V, T>(u: Setup<V, T>, s: State<V, T>, v: Env)
    ensures RunFrom(u, s, [StartLookup]) && Solo(v, |s.calls|, [StartLookup])
    ensures var t, c := ExecFrom(u, s, [StartLookup]), NewCall<V, T>(Getting);
            t.calls == s.calls + [c] && Alone(u, s, v, t, c)
  {
    hide ZERO, Accounted;
    Extend(u, s, [], StartLookup);
    assert [] + [StartLookup] == [StartLookup];
    NewCallKept(u, StartLookup);
    PlusZero(s.counts);
  }

  /** From any state, a call that is not interfered with does to the text, the counters and the average, and
      returns, what GetWithLoader ensures. */
  lemma AloneMeansGetWithLoader<V, T>(u: Setup<V, T>, s: State<V, T>, v: Env) returns (es: seq<Event>, c: Call<V, T>)
    ensures Solo(v, |s.calls|, es) && RunFrom(u, s, es)
    ensures var t, reply := ExecFrom(u, s, es), ReplyTo(s.text, v.getOk);
            && t.calls == s.calls + [c] && c.phase.Returned?
            && LookupContract(u.codec, reply, LoadedBy(u, v), c.phase.result, c.loads, c.sent)
            && t.counts == Plus(s.counts, LookupCounts(reply, c.sent, v.setOk))
            && t.avgLatency == Average(s.avgLatency, v.latency)
            && t.text == if c.sent.Some? && (v.setOk || v.applied) then c.sent else s.text
  {
    AloneStarts(u, s, v);
    hide RunFrom, ExecFrom, Solo, Accounted;
    es, c := AloneFinishes(u, s, v, [StartLookup], NewCall(Getting));
    AccountedBy(c);
  }
}
