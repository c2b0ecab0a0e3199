/** The cache manager: one object whose counters its operations update.

    What Redis, the loader and the context do is passed in; JSON encoding is a pair of functions, of
    which encoding may fail. Counters do not wrap in this model. */
module Caching {
  import opened Prelude

  datatype Codec<!V, !T> = Codec(encode: V -> Option<T>, decode: T -> Option<V>)

  datatype GetReply<T> = Found(text: T) | Missing | GetFailed

  /** What GetWithLoader returns: a value, nothing but an error, or a value together with an error. */
  datatype Lookup<V> = Value(value: V) | LoaderFailed | Unencodable(loaded: V)

  // ---------- average latency ----------

  /** One update of AvgLatency; 0 means that nothing was recorded yet. */
  function Average(avg: nat, latency: nat): nat {
    if avg == 0 then latency else (avg + latency) / 2
  }

  function AvgLatency(ls: seq<nat>): nat {
    if ls == [] then 0 else Average(AvgLatency(ls[..|ls| - 1]), ls[|ls| - 1])
  }

  /** The same average without rounding and without a reserved value. */
  function ExactAverage(ls: seq<nat>): real
    requires ls != []
  {
    if |ls| == 1 then ls[0] as real
    else (ExactAverage(ls[..|ls| - 1]) + ls[|ls| - 1] as real) / 2.0
  }

  predicate Tracks(ls: seq<nat>) {
    ls != [] ==> 0.0 <= ExactAverage(ls) - AvgLatency(ls) as real < 1.0
  }

  /** Some average came out as 0 and was then taken for a missing one. */
  predicate Restarts(ls: seq<nat>) {
    exists k :: 1 <= k < |ls| && AvgLatency(ls[..k]) == 0 && ls[k] != 0
  }

  lemma TracksStep(ls: seq<nat>)
    requires |ls| >= 2 && Tracks(ls[..|ls| - 1])
    ensures Tracks(ls) <==> !(AvgLatency(ls[..|ls| - 1]) == 0 && ls[|ls| - 1] != 0)
  {
    var a, l := AvgLatency(ls[..|ls| - 1]), ls[|ls| - 1];
    var h := (a + l) / 2;
    assert (a + l) as real == 2.0 * h as real || (a + l) as real == 2.0 * h as real + 1.0;
  }

  predicate AlwaysTracks(ls: seq<nat>) {
    forall n :: 0 <= n <= |ls| ==> Tracks(ls[..n])
  }

  lemma AlwaysTracksSnoc(ls: seq<nat>)
    requires ls != []
    ensures AlwaysTracks(ls) <==> AlwaysTracks(ls[..|ls| - 1]) && Tracks(ls)
  {
    hide Tracks;
    var init := ls[..|ls| - 1];
    assert forall n | 0 <= n <= |init| :: ls[..n] == init[..n];
    assert ls[..|ls|] == ls;
  }

  lemma RestartsSnoc(ls: seq<nat>)
    requires |ls| >= 2
    ensures Restarts(ls) <==> Restarts(ls[..|ls| - 1]) || (AvgLatency(ls[..|ls| - 1]) == 0 && ls[|ls| - 1] != 0)
  {
    hide AvgLatency;
    var init := ls[..|ls| - 1];
    assert forall k | 0 <= k <= |init| :: ls[..k] == init[..k];
  }

  /** The stored average stays within [0, 1) ns below the exact one, for every sequence of latencies,
      exactly when no zero average is followed by a nonzero sample. */
  lemma {:induction false} AverageTracksExactlyWhen(ls: seq<nat>)
    ensures AlwaysTracks(ls) <==> !Restarts(ls)
  {
    if |ls| >= 2 {
      hide AlwaysTracks, Restarts, Tracks;
      var init := ls[..|ls| - 1];
      AverageTracksExactlyWhen(init);
      AlwaysTracksSnoc(ls);
      RestartsSnoc(ls);
      if AlwaysTracks(init) {
        TracksAtEnd(init);
        TracksStep(ls);
      }
    } else {
      TracksShort(ls);
    }
  }

  lemma TracksAtEnd(ls: seq<nat>)
    requires AlwaysTracks(ls)
    ensures Tracks(ls)
  {
    assert ls[..|ls|] == ls;
  }

  lemma TracksShort(ls: seq<nat>)
    requires |ls| <= 1
    ensures AlwaysTracks(ls)
  {
    if ls == [] {
      assert forall n | 0 <= n <= |ls| :: ls[..n] == [];
    } else {
      assert ls[..|ls| - 1] == [];
      TracksShort([]);
      AlwaysTracksSnoc(ls);
      assert AvgLatency(ls) == ls[0];
    }
  }

  /** Latencies of at least 1 ns take the zero branch only once, and the average stays between the
      smallest and the largest of them. */
  lemma {:induction false} AverageBounds(ls: seq<nat>, lo: nat, hi: nat)
    requires ls != [] && lo >= 1 && forall i :: 0 <= i < |ls| ==> lo <= ls[i] <= hi
    ensures lo <= AvgLatency(ls) <= hi
    ensures !Restarts(ls)
  {
    if |ls| >= 2 {
      var init := ls[..|ls| - 1];
      AverageBounds(init, lo, hi);
      assert forall k | 0 <= k <= |init| :: ls[..k] == init[..k];
    } else {
      assert ls[..0] == [];
    }
  }

  // ---------- backoff ----------

  function Pow2(n: nat): nat {
    if n == 0 then 1 else 2 * Pow2(n - 1)
  }

  /** `time.Duration(1<<uint(i)) * 100 * time.Millisecond` in int64 arithmetic, where all bits shifted out
      are lost; a negative delay is none. */
  function SetDelay(i: nat): nat {
    Max(0, Wrap64(Pow2(i) * 100 * NANOS_PER_MILLI))
  }

  function SetWaits(n: nat): nat {
    if n == 0 then 0 else SetWaits(n - 1) + SetDelay(n - 1)
  }

  lemma {:induction false} Pow2Monotonic(m: nat, n: nat)
    requires m <= n
    ensures Pow2(m) <= Pow2(n)
  {
    if m < n {
      Pow2Monotonic(m, n - 1);
    }
  }

  lemma Pow2Values()
    ensures Pow2(36) == 0x10_0000_0000 && Pow2(37) == 0x20_0000_0000
  {
    assert Pow2(6) == 0x40;
    assert Pow2(12) == 0x1000;
    assert Pow2(18) == 0x4_0000;
    assert Pow2(24) == 0x100_0000;
    assert Pow2(30) == 0x4000_0000;
  }

  /** Delays in nanoseconds; 100_000_000 of them are 100 ms. */
  lemma SetDelayBounds(i: nat)
    ensures SetDelay(i) <= 100_000_000 * Pow2(i)
    ensures i <= 36 ==> SetDelay(i) == 100_000_000 * Pow2(i) < TWO_TO_63
    ensures i == 37 ==> SetDelay(i) == 0
  {
    Pow2Values();
    hide Pow2;
    if i <= 36 {
      Pow2Monotonic(i, 36);
    }
  }

  lemma Pow2Grows(n: nat)
    requires n > 0
    ensures Pow2(n) == 2 * Pow2(n - 1) && Pow2(n - 1) >= 1
  {
    Pow2Monotonic(0, n - 1);
  }

  /** An exhausted SetWithRetry of n attempts has waited 100 (2^n - 1) ms, exactly as long as no delay
      overflows int64; beyond that it has waited less. */
  lemma {:induction false} SetWaitsExactlyWhen(n: nat)
    ensures SetWaits(n) <= 100_000_000 * (Pow2(n) - 1)
    ensures SetWaits(n) == 100_000_000 * (Pow2(n) - 1) <==> n <= 37
  {
    hide SetDelay, Pow2;
    if n == 0 {
      Pow2Zero();
    } else {
      SetWaitsExactlyWhen(n - 1);
      SetDelayBounds(n - 1);
      Pow2Grows(n);
    }
  }

  lemma Pow2Zero()
    ensures Pow2(0) == 1
  {
  }

  // ---------- what the operations promise ----------

  /** The counters that the record calls add to. */
  datatype Counts = Counts(hits: nat, misses: nat, sets: nat, deletes: nat, errors: nat)

  const ZERO := Counts(0, 0, 0, 0, 0)

  function Plus(a: Counts, b: Counts): Counts {
    Counts(a.hits + b.hits, a.misses + b.misses, a.sets + b.sets, a.deletes + b.deletes, a.errors + b.errors)
  }

  /** A cached text that decodes is returned; otherwise the loader is called once, and what it returned is
      sent to be stored if it can be encoded. `loaded` is what the loader returns if it is called. */
  predicate LookupContract<V(==), T(==)>(
    codec: Codec<V, T>, reply: GetReply<T>, loaded: Option<V>, r: Lookup<V>, loads: nat, sent: Option<T>)
  {
    if reply.Found? && codec.decode(reply.text).Some? then
      r == Value(codec.decode(reply.text).value) && loads == 0 && sent == None
    else
      && loads == 1
      && r == (if loaded.None? then LoaderFailed
               else if codec.encode(loaded.value).None? then Unencodable(loaded.value)
               else Value(loaded.value))
      && sent == if loaded.None? then None else codec.encode(loaded.value)
  }

  /** A text found is a hit even if it does not decode; failed GETs and SETs are errors. */
  function LookupCounts<T>(reply: GetReply<T>, sent: Option<T>, setOk: bool): Counts {
    Counts(One(reply.Found?), One(reply.Missing?), One(sent.Some? && setOk), 0,
           One(reply.GetFailed?) + One(sent.Some? && !setOk))
  }

  function StoreCounts(outcome: StoreOutcome): Counts {
    Counts(0, 0, One(outcome.Stored?), 0, One(outcome.Cancelled? || outcome.Exhausted?))
  }

  function PurgeCounts(outcome: PurgeOutcome, keys: nat): Counts {
    Counts(0, 0, 0, if outcome.Purged? then keys else 0, One(!outcome.Purged?))
  }

  // ---------- the object ----------

  /** The environment of one attempt of SetWithRetry. */
  datatype SetAttempt = SetAttempt(ok: bool, cancelled: bool)

  datatype StoreOutcome = Stored | NotEncodable | Cancelled | Exhausted

  datatype PurgeOutcome = Purged | ScanFailed | DeleteFailed

  class CacheManager<V(==), T(==)> {
    const codec: Codec<V, T>
    var hits: nat
    var misses: nat
    var sets: nat
    var deletes: nat
    var errors: nat
    var avgLatency: nat

    constructor (codec: Codec<V, T>)
      ensures this.codec == codec
      ensures hits == misses == sets == deletes == errors == avgLatency == 0
    {
      this.codec := codec;
      hits, misses, sets, deletes, errors, avgLatency := 0, 0, 0, 0, 0, 0;
    }

    function Counted(): Counts
      reads this
    {
      Counts(hits, misses, sets, deletes, errors)
    }

    method ResetStats()
      modifies this
      ensures hits == misses == sets == deletes == errors == avgLatency == 0
    {
      hits, misses, sets, deletes, errors, avgLatency := 0, 0, 0, 0, 0, 0;
    }

    method RecordLatency(latency: nat)
      modifies this`avgLatency
      ensures avgLatency == if old(avgLatency) == 0 then latency else (old(avgLatency) + latency) / 2
    {
      if avgLatency == 0 {
        avgLatency := latency;
      } else {
        avgLatency := (avgLatency + latency) / 2;
      }
    }

    /** `loaded` is what the loader returns if it is called, `setOk` whether the SET is reported successful;
        `loads` counts the loader's calls and `text` is what was sent to be stored. */
    method GetWithLoader(reply: GetReply<T>, loaded: Option<V>, setOk: bool, latency: nat)
      returns (r: Lookup<V>, loads: nat, text: Option<T>)
      modifies this
      ensures LookupContract(codec, reply, loaded, r, loads, text)
      ensures reply.Found? && codec.decode(reply.text).Some? ==>
                r == Value(codec.decode(reply.text).value) && loads == 0 && text == None
      ensures !(reply.Found? && codec.decode(reply.text).Some?) ==>
                && loads == 1
                && (loaded == None ==> r == LoaderFailed && text == None)
                && (loaded != None && codec.encode(loaded.value) == None ==> r == Unencodable(loaded.value) && text == None)
                && (loaded != None && codec.encode(loaded.value) != None ==>
                      r == Value(loaded.value) && text == codec.encode(loaded.value))
      ensures hits == old(hits) + (if reply.Found? then 1 else 0)
      ensures misses == old(misses) + (if reply.Missing? then 1 else 0)
      ensures sets == old(sets) + (if text.Some? && setOk then 1 else 0)
      ensures errors == old(errors) + (if reply.GetFailed? then 1 else 0) + (if text.Some? && !setOk then 1 else 0)
      ensures deletes == old(deletes)
      ensures Counted() == Plus(old(Counted()), LookupCounts(reply, text, setOk))
      ensures avgLatency == if old(avgLatency) == 0 then latency else (old(avgLatency) + latency) / 2
    {
      loads, text := 0, None;
      match reply {
        case Found(cached) =>
          hits := hits + 1;
          var result := codec.decode(cached);
          if result.Some? {
            RecordLatency(latency);
            return Value(result.value), loads, text;
          }
        case GetFailed => errors := errors + 1;
        case Missing => misses := misses + 1;
      }
      loads := loads + 1;
      if loaded.None? {
        RecordLatency(latency);
        return LoaderFailed, loads, text;
      }
      text := codec.encode(loaded.value);
      if text.None? {
        RecordLatency(latency);
        return Unencodable(loaded.value), loads, text;
      }
      if setOk {
        sets := sets + 1;
      } else {
        errors := errors + 1;
      }
      RecordLatency(latency);
      return Value(loaded.value), loads, text;
    }

    /** Past encoding, exactly one of Sets and Errors goes up, by one, and an exhausted call has waited
        SetWaits of its attempts. */
    method SetWithRetry(value: V, maxRetries: int, env: nat -> SetAttempt)
      returns (outcome: StoreOutcome, sent: nat, waited: nat)
      modifies this`sets, this`errors
      ensures outcome == NotEncodable <==> codec.encode(value).None?
      ensures outcome == NotEncodable ==> sent == 0 && waited == 0
      ensures sets == old(sets) + (if outcome == Stored then 1 else 0)
      ensures errors == old(errors) + (if outcome == Cancelled || outcome == Exhausted then 1 else 0)
      ensures Counted() == Plus(old(Counted()), StoreCounts(outcome))
      ensures sent <= Max(0, maxRetries)
      ensures forall i: nat | i < sent - 1 :: !env(i).ok && !env(i).cancelled
      ensures outcome == Stored ==> sent > 0 && env(sent - 1).ok
      ensures outcome == Cancelled ==> sent > 0 && !env(sent - 1).ok && env(sent - 1).cancelled
      ensures outcome == Exhausted ==> sent == Max(0, maxRetries) && (sent > 0 ==> !env(sent - 1).ok && !env(sent - 1).cancelled)
      ensures outcome != NotEncodable ==> waited == SetWaits(if outcome == Exhausted then sent else sent - 1)
    {
      sent, waited := 0, 0;
      if codec.encode(value).None? {
        return NotEncodable, sent, waited;
      }
      var i := 0;
      while i < maxRetries
        invariant 0 <= i <= Max(0, maxRetries) && sent == i && waited == SetWaits(i)
        invariant forall k: nat | k < i :: !env(k).ok && !env(k).cancelled
        invariant sets == old(sets) && errors == old(errors)
      {
        sent := sent + 1;
        if env(i).ok {
          sets := sets + 1;
          return Stored, sent, waited;
        }
        if env(i).cancelled {
          errors := errors + 1;
          return Cancelled, sent, waited;
        }
        waited := waited + SetDelay(i);
        i := i + 1;
      }
      errors := errors + 1;
      outcome := Exhausted;
    }

    /** `scanned` are the keys the iterator yields before it ends or fails. */
    method DeletePattern(scanned: seq<string>, scanOk: bool, deleteOk: bool) returns (outcome: PurgeOutcome, keys: seq<string>)
      modifies this`deletes, this`errors
      ensures keys == scanned
      ensures outcome == if !scanOk then ScanFailed else if scanned != [] && !deleteOk then DeleteFailed else Purged
      ensures deletes == old(deletes) + (if outcome == Purged then |scanned| else 0)
      ensures errors == old(errors) + (if outcome == Purged then 0 else 1)
      ensures Counted() == Plus(old(Counted()), PurgeCounts(outcome, |scanned|))
    {
      keys := [];
      var i := 0;
      while i < |scanned|
        invariant 0 <= i <= |scanned| && keys == scanned[..i]
      {
        keys := keys + [scanned[i]];
        i := i + 1;
      }
      if !scanOk {
        errors := errors + 1;
        return ScanFailed, keys;
      }
      if |keys| > 0 {
        if !deleteOk {
          errors := errors + 1;
          return DeleteFailed, keys;
        }
        deletes := deletes + |keys|;
      }
      return Purged, keys;
    }
  }
}
