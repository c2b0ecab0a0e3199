/** The configuration, its defaults and its validation.

    A `*durationpb.Duration` is an optional number of nanoseconds. The TLS production policy of the
    framework is a parameter: whether certificate verification may be skipped. */
module Configuration {
  import opened Prelude
  import opened Address

  datatype Tls = Tls(enabled: bool, insecureSkipVerify: bool)

  datatype Sentinel = Sentinel(masterName: string, addrs: seq<string>)

  datatype Redis = Redis(
    network: string, addrs: seq<string>, db: int, clientName: string,
    minIdleConns: int, maxIdleConns: int, maxActiveConns: int,
    connMaxIdleTime: Option<int>, idleTimeout: Option<int>,
    connMaxLifetime: Option<int>, maxConnAge: Option<int>,
    poolTimeout: Option<int>, dialTimeout: Option<int>, readTimeout: Option<int>, writeTimeout: Option<int>,
    maxRetries: int, minRetryBackoff: Option<int>, maxRetryBackoff: Option<int>,
    tls: Option<Tls>, sentinel: Option<Sentinel>)

  const MILLI := NANOS_PER_MILLI
  const SECOND := NANOS_PER_SECOND
  const MINUTE := 60 * SECOND
  const HOUR := 60 * MINUTE

  /** `ValidationError.Field`; the message texts are not modelled. */
  datatype Field = Plain(name: string) | Item(list: string, index: nat)

  // ---------- specification ----------

  function Or<T>(a: Option<T>, b: Option<T>): Option<T> {
    if a.Some? then a else b
  }

  function Normalized(c: Redis): Redis {
    c.(connMaxIdleTime := Or(c.connMaxIdleTime, c.idleTimeout), connMaxLifetime := Or(c.connMaxLifetime, c.maxConnAge))
  }

  function NonZero(n: int, default: int): int {
    if n == 0 then default else n
  }

  function WithDefaults(c: Redis): Redis {
    var n := Normalized(c);
    n.(network := if n.network == "" then "tcp" else n.network,
       minIdleConns := NonZero(n.minIdleConns, 10),
       maxIdleConns := NonZero(n.maxIdleConns, 20),
       maxActiveConns := NonZero(n.maxActiveConns, 100),
       dialTimeout := Or(n.dialTimeout, Some(10 * SECOND)),
       readTimeout := Or(n.readTimeout, Some(10 * SECOND)),
       writeTimeout := Or(n.writeTimeout, Some(10 * SECOND)),
       poolTimeout := Or(n.poolTimeout, Some(3 * SECOND)),
       connMaxIdleTime := Or(n.connMaxIdleTime, Some(5 * MINUTE)),
       connMaxLifetime := Or(n.connMaxLifetime, Some(30 * MINUTE)),
       maxRetries := NonZero(n.maxRetries, 3),
       minRetryBackoff := Or(n.minRetryBackoff, Some(8 * MILLI)),
       maxRetryBackoff := Or(n.maxRetryBackoff, Some(512 * MILLI)))
  }

  predicate ValidAddress(addr: string) {
    !Blank(addr) && ValidateAddress(addr).None?
  }

  predicate Within(d: Option<int>, limit: int) {
    d.Some? ==> 0 <= d.value <= limit
  }

  predicate Equal(a: Option<int>, b: Option<int>) {
    a.Some? && b.Some? ==> a.value == b.value
  }

  /** The validator's test for cluster mode. */
  predicate IsClusterMode(c: Redis) {
    |c.addrs| > 1 && (c.sentinel.None? || c.sentinel.value.masterName == "")
  }

  predicate NameCharacter(c: char) {
    'a' <= c <= 'z' || 'A' <= c <= 'Z' || '0' <= c <= '9' || c == '_' || c == '-'
  }

  const NETWORKS := ["tcp", "tcp4", "tcp6", "unix", "unixpacket"]

  predicate SizesAcceptable(c: Redis) {
    0 <= c.minIdleConns <= c.maxActiveConns && 0 <= c.maxIdleConns && 0 < c.maxActiveConns
  }

  predicate LifetimesAcceptable(c: Redis) {
    && Equal(c.connMaxIdleTime, c.idleTimeout) && Within(Or(c.connMaxIdleTime, c.idleTimeout), 24 * HOUR)
    && Equal(c.connMaxLifetime, c.maxConnAge) && Within(Or(c.connMaxLifetime, c.maxConnAge), 7 * 24 * HOUR)
  }

  predicate TimeoutsAcceptable(c: Redis) {
    && Within(c.dialTimeout, MINUTE) && Within(c.readTimeout, 5 * MINUTE) && Within(c.writeTimeout, 5 * MINUTE)
  }

  predicate RetriesAcceptable(c: Redis) {
    && 0 <= c.maxRetries <= 10
    && Within(c.minRetryBackoff, SECOND) && Within(c.maxRetryBackoff, 30 * SECOND)
    && (c.minRetryBackoff.Some? && c.maxRetryBackoff.Some? ==> c.minRetryBackoff.value <= c.maxRetryBackoff.value)
  }

  predicate SentinelAcceptable(c: Redis) {
    c.sentinel.Some? ==> !Blank(c.sentinel.value.masterName) && forall a <- c.sentinel.value.addrs :: ValidAddress(a)
  }

  /** In cluster mode only database 0 exists, otherwise 0 to 15. */
  predicate NamesAcceptable(c: Redis) {
    && 0 <= c.db && c.db <= (if IsClusterMode(c) then 0 else 15)
    && |c.clientName| <= 64 && (forall x <- c.clientName :: NameCharacter(x))
    && (c.network == "" || c.network in NETWORKS)
  }

  /** The configurations that are accepted as they are. */
  predicate Acceptable(policy: bool -> bool, c: Redis) {
    && c.addrs != [] && (forall a <- c.addrs :: ValidAddress(a))
    && SizesAcceptable(c) && LifetimesAcceptable(c) && Within(c.poolTimeout, 5 * MINUTE)
    && TimeoutsAcceptable(c) && RetriesAcceptable(c)
    && (c.tls.Some? && c.tls.value.enabled ==> policy(c.tls.value.insecureSkipVerify))
    && SentinelAcceptable(c) && NamesAcceptable(c)
  }

  // ---------- the validator ----------

  function Check(errors: seq<Field>, bad: bool, name: string): seq<Field> {
    if bad then errors + [Plain(name)] else errors
  }

  class ValidationResult {
    var isValid: bool
    var errors: seq<Field>

    constructor ()
      ensures isValid && errors == []
    {
      isValid, errors := true, [];
    }

    method AddError(field: Field)
      modifies this
      ensures errors == old(errors) + [field] && !isValid
    {
      errors := errors + [field];
      isValid := false;
    }

    predicate Consistent()
      reads this
    {
      isValid <==> errors == []
    }

    /** `if bad { result.AddError(name, …) }` */
    method Require(ok: bool, name: string)
      requires Consistent()
      modifies this
      ensures Consistent() && errors == Check(old(errors), !ok, name)
    {
      if !ok {
        AddError(Plain(name));
      }
    }

    method RequireRange(d: Option<int>, limit: int, name: string)
      requires Consistent()
      modifies this
      ensures Consistent() && errors == RangeErrors(old(errors), d, limit, name)
    {
      if d != None {
        Require(0 <= d.value, name);
        Require(d.value <= limit, name);
      }
    }

    method RequireAddresses(list: string, addrs: seq<string>)
      requires Consistent()
      modifies this
      ensures Consistent() && errors == AddressErrors(old(errors), list, addrs)
    {
      hide Blank, ValidateAddress;
      var i := 0;
      while i < |addrs|
        invariant 0 <= i <= |addrs| && Consistent()
        invariant errors == AddressErrors(old(errors), list, addrs[..i])
      {
        assert addrs[..i + 1][..i] == addrs[..i];
        if Blank(addrs[i]) || ValidateAddress(addrs[i]) != None {
          AddError(Item(list, i));
        }
        i := i + 1;
      }
      assert addrs[..i] == addrs;
    }
  }

  function RangeErrors(errors: seq<Field>, d: Option<int>, limit: int, name: string): seq<Field> {
    if d.None? then errors else Check(Check(errors, d.value < 0, name), d.value > limit, name)
  }

  function AddressErrors(errors: seq<Field>, list: string, addrs: seq<string>): seq<Field> {
    if addrs == [] then errors
    else
      var before := AddressErrors(errors, list, addrs[..|addrs| - 1]);
      if ValidAddress(addrs[|addrs| - 1]) then before else before + [Item(list, |addrs| - 1)]
  }

  function BasicErrors(c: Redis, e: seq<Field>): seq<Field> {
    if c.addrs == [] then e + [Plain("addrs")] else AddressErrors(e, "addrs", c.addrs)
  }

  function SizeErrors(c: Redis, e0: seq<Field>): seq<Field> {
    var e1 := Check(e0, c.minIdleConns < 0, "min_idle_conns");
    var e2 := Check(e1, c.maxIdleConns < 0, "max_idle_conns");
    var e3 := Check(e2, c.maxActiveConns <= 0, "max_active_conns");
    var e4 := Check(e3, c.minIdleConns > 0 && c.maxActiveConns > 0 && c.minIdleConns > c.maxActiveConns, "min_idle_conns");
    var e5 := Check(e4, !Equal(c.connMaxIdleTime, c.idleTimeout), "idle_timeout");
    Check(e5, !Equal(c.connMaxLifetime, c.maxConnAge), "max_conn_age")
  }

  function PoolErrors(c: Redis, e0: seq<Field>): seq<Field> {
    var e1 := SizeErrors(c, e0);
    var e2 := RangeErrors(e1, Or(c.connMaxIdleTime, c.idleTimeout), 24 * HOUR,
                          if c.connMaxIdleTime.Some? then "conn_max_idle_time" else "idle_timeout");
    var e3 := RangeErrors(e2, Or(c.connMaxLifetime, c.maxConnAge), 7 * 24 * HOUR,
                          if c.connMaxLifetime.Some? then "conn_max_lifetime" else "max_conn_age");
    RangeErrors(e3, c.poolTimeout, 5 * MINUTE, "pool_timeout")
  }

  function TimeoutErrors(c: Redis, e0: seq<Field>): seq<Field> {
    var e1 := RangeErrors(e0, c.dialTimeout, 60 * SECOND, "dial_timeout");
    var e2 := RangeErrors(e1, c.readTimeout, 300 * SECOND, "read_timeout");
    RangeErrors(e2, c.writeTimeout, 300 * SECOND, "write_timeout")
  }

  function RetryErrors(c: Redis, e0: seq<Field>): seq<Field> {
    var e1 := Check(e0, c.maxRetries < 0, "max_retries");
    var e2 := Check(e1, c.maxRetries > 10, "max_retries");
    var e3 := RangeErrors(e2, c.minRetryBackoff, SECOND, "min_retry_backoff");
    var e4 := RangeErrors(e3, c.maxRetryBackoff, 30 * SECOND, "max_retry_backoff");
    Check(e4, c.minRetryBackoff.Some? && c.maxRetryBackoff.Some? && c.minRetryBackoff.value > c.maxRetryBackoff.value, "min_retry_backoff")
  }

  function TlsErrors(policy: bool -> bool, c: Redis, e: seq<Field>): seq<Field> {
    Check(e, c.tls.Some? && c.tls.value.enabled && !policy(c.tls.value.insecureSkipVerify), "tls.insecure_skip_verify")
  }

  function SentinelErrors(c: Redis, e: seq<Field>): seq<Field> {
    match c.sentinel
    case None => e
    case Some(s) => AddressErrors(Check(e, Blank(s.masterName), "sentinel.master_name"), "sentinel.addrs", s.addrs)
  }

  function DatabaseErrors(c: Redis, e: seq<Field>): seq<Field> {
    var e1 := Check(e, c.db < 0, "db");
    if IsClusterMode(c) then Check(e1, c.db != 0, "db") else Check(e1, c.db > 15, "db")
  }

  function NameErrors(c: Redis, e: seq<Field>): seq<Field> {
    if c.clientName == "" then e
    else Check(Check(e, |c.clientName| > 64, "client_name"), !(forall x <- c.clientName :: NameCharacter(x)), "client_name")
  }

  function NetworkErrors(c: Redis, e: seq<Field>): seq<Field> {
    Check(e, c.network != "" && c.network !in NETWORKS, "network")
  }

  function AllErrors(policy: bool -> bool, c: Redis): seq<Field> {
    NetworkErrors(c, NameErrors(c, DatabaseErrors(c, SentinelErrors(c, TlsErrors(policy, c,
      RetryErrors(c, TimeoutErrors(c, PoolErrors(c, BasicErrors(c, [])))))))))
  }

  // ---------- the errors are exactly the unacceptable ----------

  lemma {:induction false} AddressesExactly(errors: seq<Field>, list: string, addrs: seq<string>)
    ensures errors <= AddressErrors(errors, list, addrs)
    ensures AddressErrors(errors, list, addrs) == errors <==> forall a <- addrs :: ValidAddress(a)
  {
    if addrs != [] {
      var init := addrs[..|addrs| - 1];
      AddressesExactly(errors, list, init);
      assert forall a <- addrs :: a in init || a == addrs[|addrs| - 1];
    }
  }

  lemma SizesExactly(c: Redis, e: seq<Field>)
    ensures e <= SizeErrors(c, e)
    ensures SizeErrors(c, e) == e <==>
            SizesAcceptable(c) && Equal(c.connMaxIdleTime, c.idleTimeout) && Equal(c.connMaxLifetime, c.maxConnAge)
  {
  }

  lemma PoolExactly(c: Redis, e: seq<Field>)
    ensures e <= PoolErrors(c, e)
    ensures PoolErrors(c, e) == e <==> SizesAcceptable(c) && LifetimesAcceptable(c) && Within(c.poolTimeout, 5 * MINUTE)
  {
    hide SizeErrors, SizesAcceptable;
    SizesExactly(c, e);
  }

  lemma TimeoutsExactly(c: Redis, e: seq<Field>)
    ensures e <= TimeoutErrors(c, e)
    ensures TimeoutErrors(c, e) == e <==> TimeoutsAcceptable(c)
  {
  }

  lemma RetriesExactly(c: Redis, e: seq<Field>)
    ensures e <= RetryErrors(c, e)
    ensures RetryErrors(c, e) == e <==> RetriesAcceptable(c)
  {
  }

  lemma SentinelExactly(c: Redis, e: seq<Field>)
    ensures e <= SentinelErrors(c, e)
    ensures SentinelErrors(c, e) == e <==> SentinelAcceptable(c)
  {
    if c.sentinel.Some? {
      AddressesExactly(Check(e, Blank(c.sentinel.value.masterName), "sentinel.master_name"), "sentinel.addrs", c.sentinel.value.addrs);
    }
  }

  lemma NamesExactly(c: Redis, e: seq<Field>)
    ensures e <= NetworkErrors(c, NameErrors(c, DatabaseErrors(c, e)))
    ensures NetworkErrors(c, NameErrors(c, DatabaseErrors(c, e))) == e <==> NamesAcceptable(c)
  {
  }

  lemma NormalizedAcceptable(policy: bool -> bool, c: Redis)
    ensures Acceptable(policy, Normalized(c)) <==> Acceptable(policy, c)
  {
  }

  /** The validator reports no error exactly for the acceptable configurations; normalising the legacy
      fields first makes no difference. */
  lemma ValidExactlyWhen(policy: bool -> bool, c: Redis)
    ensures AllErrors(policy, Normalized(c)) == [] <==> Acceptable(policy, c)
  {
    NormalizedAcceptable(policy, c);
    ErrorsExactly(policy, Normalized(c));
  }

  lemma ErrorsExactly(policy: bool -> bool, c: Redis)
    ensures AllErrors(policy, c) == [] <==> Acceptable(policy, c)
  {
    hide PoolErrors, TimeoutErrors, RetryErrors, SentinelErrors, DatabaseErrors, NameErrors, NetworkErrors, ValidAddress,
         SizesAcceptable, LifetimesAcceptable, TimeoutsAcceptable, RetriesAcceptable, SentinelAcceptable, NamesAcceptable;
    AddressesExactly([], "addrs", c.addrs);
    var e1 := BasicErrors(c, []);
    PoolExactly(c, e1);
    var e2 := PoolErrors(c, e1);
    TimeoutsExactly(c, e2);
    var e3 := TimeoutErrors(c, e2);
    RetriesExactly(c, e3);
    var e4 := RetryErrors(c, e3);
    var e5 := TlsErrors(policy, c, e4);
    SentinelExactly(c, e5);
    NamesExactly(c, SentinelErrors(c, e5));
  }

  // ---------- which fields are blamed ----------

  predicate Outside(d: Option<int>, limit: int) {
    d.Some? && (d.value < 0 || limit < d.value)
  }

  predicate Differ(a: Option<int>, b: Option<int>) {
    a.Some? && b.Some? && a.value != b.value
  }

  /** The addresses and sentinel addresses that do not pass. */
  predicate BadItem(list: string, addrs: seq<string>, f: Field) {
    f.Item? && f.list == list && f.index < |addrs| && (Blank(addrs[f.index]) || ValidateAddress(addrs[f.index]).Some?)
  }

  predicate BadSizes(c: Redis, f: Field) {
    || (f == Plain("min_idle_conns") && (c.minIdleConns < 0 || 0 < c.maxActiveConns < c.minIdleConns))
    || (f == Plain("max_idle_conns") && c.maxIdleConns < 0)
    || (f == Plain("max_active_conns") && c.maxActiveConns <= 0)
    || (f == Plain("idle_timeout") && Differ(c.connMaxIdleTime, c.idleTimeout))
    || (f == Plain("max_conn_age") && Differ(c.connMaxLifetime, c.maxConnAge))
  }

  predicate BadLimits(c: Redis, f: Field) {
    || (f == Plain("conn_max_idle_time") && Outside(if c.connMaxIdleTime.Some? then c.connMaxIdleTime else c.idleTimeout, 86_400_000_000_000))
    || (f == Plain("conn_max_lifetime") && Outside(if c.connMaxLifetime.Some? then c.connMaxLifetime else c.maxConnAge, 604_800_000_000_000))
    || (f == Plain("pool_timeout") && Outside(c.poolTimeout, 300_000_000_000))
  }

  predicate BadTimeouts(c: Redis, f: Field) {
    || (f == Plain("dial_timeout") && Outside(c.dialTimeout, 60_000_000_000))
    || (f == Plain("read_timeout") && Outside(c.readTimeout, 300_000_000_000))
    || (f == Plain("write_timeout") && Outside(c.writeTimeout, 300_000_000_000))
  }

  predicate BadRetries(c: Redis, f: Field) {
    || (f == Plain("max_retries") && !(0 <= c.maxRetries <= 10))
    || (f == Plain("min_retry_backoff") && Outside(c.minRetryBackoff, 1_000_000_000))
    || (f == Plain("max_retry_backoff") && Outside(c.maxRetryBackoff, 30_000_000_000))
    || (f == Plain("min_retry_backoff") && c.minRetryBackoff.Some? && c.maxRetryBackoff.Some?
        && c.minRetryBackoff.value > c.maxRetryBackoff.value)
  }

  predicate BadPlace(policy: bool -> bool, c: Redis, f: Field) {
    || (f == Plain("addrs") && c.addrs == [])
    || (f == Plain("tls.insecure_skip_verify")
        && c.tls.Some? && c.tls.value.enabled && !policy(c.tls.value.insecureSkipVerify))
    || (f == Plain("sentinel.master_name") && c.sentinel.Some? && Blank(c.sentinel.value.masterName))
    || BadItem("addrs", c.addrs, f)
    || (c.sentinel.Some? && BadItem("sentinel.addrs", c.sentinel.value.addrs, f))
  }

  /** Several addresses without a sentinel master are a cluster, which has database 0 only. */
  predicate BadNames(c: Redis, f: Field) {
    || (f == Plain("db")
        && !(0 <= c.db <= if |c.addrs| > 1 && (c.sentinel.None? || c.sentinel.value.masterName == "") then 0 else 15))
    || (f == Plain("client_name") && |c.clientName| > 64)
    || (f == Plain("client_name")
        && exists x <- c.clientName ::
             !('a' <= x <= 'z') && !('A' <= x <= 'Z') && !('0' <= x <= '9') && x != '_' && x != '-')
    || (f == Plain("network")
        && c.network != "" && c.network != "tcp" && c.network != "tcp4" && c.network != "tcp6"
        && c.network != "unix" && c.network != "unixpacket")
  }

  lemma {:induction false} AddressesReport(errors: seq<Field>, list: string, addrs: seq<string>, f: Field)
    ensures f in AddressErrors(errors, list, addrs) <==> f in errors || BadItem(list, addrs, f)
  {
    hide Blank, ValidateAddress;
    if addrs != [] {
      var init := addrs[..|addrs| - 1];
      AddressesReport(errors, list, init, f);
      assert f.Item? && f.index < |init| ==> init[f.index] == addrs[f.index];
    }
  }

  lemma RangeReports(e: seq<Field>, d: Option<int>, limit: int, name: string, f: Field)
    ensures f in RangeErrors(e, d, limit, name) <==> f in e || (f == Plain(name) && Outside(d, limit))
  {
  }

  lemma CheckReports(e: seq<Field>, bad: bool, name: string, f: Field)
    ensures f in Check(e, bad, name) <==> f in e || (f == Plain(name) && bad)
  {
  }

  lemma SizesReport(c: Redis, e: seq<Field>, f: Field)
    ensures f in SizeErrors(c, e) <==> f in e || BadSizes(c, f)
  {
  }

  lemma PoolReports(c: Redis, e: seq<Field>, f: Field)
    ensures f in PoolErrors(Normalized(c), e) <==> f in e || BadSizes(c, f) || BadLimits(c, f)
  {
    hide SizeErrors, RangeErrors, BadSizes, Outside;
    var n := Normalized(c);
    SizesReport(n, e, f);
    SizesNormalized(c, f);
    var e1 := SizeErrors(n, e);
    var idle := if n.connMaxIdleTime.Some? then "conn_max_idle_time" else "idle_timeout";
    var age := if n.connMaxLifetime.Some? then "conn_max_lifetime" else "max_conn_age";
    RangeReports(e1, Or(n.connMaxIdleTime, n.idleTimeout), 24 * HOUR, idle, f);
    var e2 := RangeErrors(e1, Or(n.connMaxIdleTime, n.idleTimeout), 24 * HOUR, idle);
    RangeReports(e2, Or(n.connMaxLifetime, n.maxConnAge), 7 * 24 * HOUR, age, f);
    var e3 := RangeErrors(e2, Or(n.connMaxLifetime, n.maxConnAge), 7 * 24 * HOUR, age);
    RangeReports(e3, n.poolTimeout, 5 * MINUTE, "pool_timeout", f);
    NothingOutside(24 * HOUR);
    NothingOutside(7 * 24 * HOUR);
  }

  lemma NothingOutside(limit: int)
    ensures !Outside(None, limit)
  {
  }

  lemma SizesNormalized(c: Redis, f: Field)
    ensures BadSizes(Normalized(c), f) <==> BadSizes(c, f)
  {
  }

  lemma NamesReport(c: Redis, e: seq<Field>, f: Field)
    ensures f in NetworkErrors(c, NameErrors(c, DatabaseErrors(c, e))) <==> f in e || BadNames(c, f)
  {
  }

  lemma TimeoutsReport(c: Redis, e: seq<Field>, f: Field)
    ensures f in TimeoutErrors(c, e) <==> f in e || BadTimeouts(c, f)
  {
    hide RangeErrors, Outside;
    var e1 := RangeErrors(e, c.dialTimeout, 60 * SECOND, "dial_timeout");
    RangeReports(e, c.dialTimeout, 60 * SECOND, "dial_timeout", f);
    RangeReports(e1, c.readTimeout, 300 * SECOND, "read_timeout", f);
    RangeReports(RangeErrors(e1, c.readTimeout, 300 * SECOND, "read_timeout"), c.writeTimeout, 300 * SECOND, "write_timeout", f);
  }

  lemma RetriesReport(c: Redis, e: seq<Field>, f: Field)
    ensures f in RetryErrors(c, e) <==> f in e || BadRetries(c, f)
  {
    hide RangeErrors, Outside, Check;
    var bad := c.minRetryBackoff.Some? && c.maxRetryBackoff.Some? && c.minRetryBackoff.value > c.maxRetryBackoff.value;
    var e1 := Check(e, c.maxRetries < 0, "max_retries");
    var e2 := Check(e1, c.maxRetries > 10, "max_retries");
    var e3 := RangeErrors(e2, c.minRetryBackoff, SECOND, "min_retry_backoff");
    var e4 := RangeErrors(e3, c.maxRetryBackoff, 30 * SECOND, "max_retry_backoff");
    CheckReports(e, c.maxRetries < 0, "max_retries", f);
    CheckReports(e1, c.maxRetries > 10, "max_retries", f);
    RangeReports(e2, c.minRetryBackoff, SECOND, "min_retry_backoff", f);
    RangeReports(e3, c.maxRetryBackoff, 30 * SECOND, "max_retry_backoff", f);
    CheckReports(e4, bad, "min_retry_backoff", f);
  }

  lemma PlacesReport(policy: bool -> bool, c: Redis, e: seq<Field>, f: Field)
    ensures f in BasicErrors(c, []) <==> (f == Plain("addrs") && c.addrs == []) || BadItem("addrs", c.addrs, f)
    ensures f in SentinelErrors(c, TlsErrors(policy, c, e)) <==>
            || f in e
            || (f == Plain("tls.insecure_skip_verify") && c.tls.Some? && c.tls.value.enabled && !policy(c.tls.value.insecureSkipVerify))
            || (f == Plain("sentinel.master_name") && c.sentinel.Some? && Blank(c.sentinel.value.masterName))
            || (c.sentinel.Some? && BadItem("sentinel.addrs", c.sentinel.value.addrs, f))
  {
    hide AddressErrors, BadItem, Blank;
    AddressesReport([], "addrs", c.addrs, f);
    NoBadItem(f);
    if c.sentinel.Some? {
      var e' := Check(TlsErrors(policy, c, e), Blank(c.sentinel.value.masterName), "sentinel.master_name");
      AddressesReport(e', "sentinel.addrs", c.sentinel.value.addrs, f);
    }
  }

  lemma NoBadItem(f: Field)
    ensures !BadItem("addrs", [], f)
  {
  }

  /** What is wrong with a configuration, field by field. */
  predicate Bad(policy: bool -> bool, c: Redis, f: Field) {
    BadPlace(policy, c, f) || BadSizes(c, f) || BadLimits(c, f) || BadTimeouts(c, f) || BadRetries(c, f) || BadNames(c, f)
  }

  /** Exactly the bad fields and items are reported. */
  lemma ReportedExactlyWhen(policy: bool -> bool, c: Redis, f: Field)
    ensures f in AllErrors(policy, Normalized(c)) <==> Bad(policy, c, f)
  {
    hide BasicErrors, PoolErrors, TimeoutErrors, RetryErrors, TlsErrors, SentinelErrors, DatabaseErrors, NameErrors, NetworkErrors,
         BadSizes, BadLimits, BadTimeouts, BadRetries, BadNames, BadItem, Blank, Normalized;
    var n := Normalized(c);
    SameElsewhere(policy, c, f);
    var e1 := BasicErrors(n, []);
    var e2 := PoolErrors(n, e1);
    var e3 := RetryErrors(n, TimeoutErrors(n, e2));
    var e4 := SentinelErrors(n, TlsErrors(policy, n, e3));
    PlacesReport(policy, n, e3, f);
    PoolReports(c, e1, f);
    TimeoutsReport(n, e2, f);
    RetriesReport(n, TimeoutErrors(n, e2), f);
    NamesReport(n, e4, f);
  }

  lemma SameElsewhere(policy: bool -> bool, c: Redis, f: Field)
    ensures var n := Normalized(c);
            && n.addrs == c.addrs && n.tls == c.tls && n.sentinel == c.sentinel
            && (BadTimeouts(n, f) <==> BadTimeouts(c, f)) && (BadRetries(n, f) <==> BadRetries(c, f)) && (BadNames(n, f) <==> BadNames(c, f))
  {
  }

  // ---------- the configuration object ----------

  class RedisConfig {
    var network: string
    var addrs: seq<string>
    var db: int
    var clientName: string
    var minIdleConns: int
    var maxIdleConns: int
    var maxActiveConns: int
    var connMaxIdleTime: Option<int>
    var idleTimeout: Option<int>
    var connMaxLifetime: Option<int>
    var maxConnAge: Option<int>
    var poolTimeout: Option<int>
    var dialTimeout: Option<int>
    var readTimeout: Option<int>
    var writeTimeout: Option<int>
    var maxRetries: int
    var minRetryBackoff: Option<int>
    var maxRetryBackoff: Option<int>
    var tls: Option<Tls>
    var sentinel: Option<Sentinel>

    function Value(): Redis
      reads this
    {
      Redis(network, addrs, db, clientName, minIdleConns, maxIdleConns, maxActiveConns,
            connMaxIdleTime, idleTimeout, connMaxLifetime, maxConnAge,
            poolTimeout, dialTimeout, readTimeout, writeTimeout,
            maxRetries, minRetryBackoff, maxRetryBackoff, tls, sentinel)
    }

    method NormalizeLegacyLifecycleFields()
      modifies this
      ensures Value() == Normalized(old(Value()))
      ensures connMaxIdleTime == (if old(connMaxIdleTime) == None then old(idleTimeout) else old(connMaxIdleTime))
      ensures connMaxLifetime == (if old(connMaxLifetime) == None then old(maxConnAge) else old(connMaxLifetime))
    {
      if connMaxIdleTime == None && idleTimeout != None {
        connMaxIdleTime := idleTimeout;
      }
      if connMaxLifetime == None && maxConnAge != None {
        connMaxLifetime := maxConnAge;
      }
    }

    /** The four groups of defaults of setDefaultValues. */
    method DefaultSizes()
      modifies this
      ensures Value() == var c := old(Value()); c.(network := if c.network == "" then "tcp" else c.network,
                                                   minIdleConns := NonZero(c.minIdleConns, 10),
                                                   maxIdleConns := NonZero(c.maxIdleConns, 20),
                                                   maxActiveConns := NonZero(c.maxActiveConns, 100))
    {
      if network == "" { network := "tcp"; }
      if minIdleConns == 0 { minIdleConns := 10; }
      if maxIdleConns == 0 { maxIdleConns := 20; }
      if maxActiveConns == 0 { maxActiveConns := 100; }
    }

    method DefaultTimeouts()
      modifies this
      ensures Value() == var c := old(Value()); c.(dialTimeout := Or(c.dialTimeout, Some(10 * SECOND)),
                                                   readTimeout := Or(c.readTimeout, Some(10 * SECOND)),
                                                   writeTimeout := Or(c.writeTimeout, Some(10 * SECOND)),
                                                   poolTimeout := Or(c.poolTimeout, Some(3 * SECOND)))
    {
      if dialTimeout == None { dialTimeout := Some(10 * SECOND); }
      if readTimeout == None { readTimeout := Some(10 * SECOND); }
      if writeTimeout == None { writeTimeout := Some(10 * SECOND); }
      if poolTimeout == None { poolTimeout := Some(3 * SECOND); }
    }

    method DefaultLifetimes()
      modifies this
      ensures Value() == var c := old(Value()); c.(connMaxIdleTime := Or(c.connMaxIdleTime, Some(5 * MINUTE)),
                                                   connMaxLifetime := Or(c.connMaxLifetime, Some(30 * MINUTE)))
    {
      if connMaxIdleTime == None { connMaxIdleTime := Some(5 * MINUTE); }
      if connMaxLifetime == None { connMaxLifetime := Some(30 * MINUTE); }
    }

    method DefaultRetries()
      modifies this
      ensures Value() == var c := old(Value()); c.(maxRetries := NonZero(c.maxRetries, 3),
                                                   minRetryBackoff := Or(c.minRetryBackoff, Some(8 * MILLI)),
                                                   maxRetryBackoff := Or(c.maxRetryBackoff, Some(512 * MILLI)))
    {
      if maxRetries == 0 { maxRetries := 3; }
      if minRetryBackoff == None { minRetryBackoff := Some(8 * MILLI); }
      if maxRetryBackoff == None { maxRetryBackoff := Some(512 * MILLI); }
    }

    method SetDefaultValues()
      modifies this
      ensures Value() == WithDefaults(old(Value()))
      ensures network == (if old(network) == "" then "tcp" else old(network))
      ensures minIdleConns == (if old(minIdleConns) == 0 then 10 else old(minIdleConns))
      ensures maxIdleConns == (if old(maxIdleConns) == 0 then 20 else old(maxIdleConns))
      ensures maxActiveConns == (if old(maxActiveConns) == 0 then 100 else old(maxActiveConns))
      ensures maxRetries == (if old(maxRetries) == 0 then 3 else old(maxRetries))
      ensures dialTimeout == (if old(dialTimeout) == None then Some(10_000_000_000) else old(dialTimeout))
      ensures readTimeout == (if old(readTimeout) == None then Some(10_000_000_000) else old(readTimeout))
      ensures writeTimeout == (if old(writeTimeout) == None then Some(10_000_000_000) else old(writeTimeout))
      ensures poolTimeout == (if old(poolTimeout) == None then Some(3_000_000_000) else old(poolTimeout))
      ensures minRetryBackoff == (if old(minRetryBackoff) == None then Some(8_000_000) else old(minRetryBackoff))
      ensures maxRetryBackoff == (if old(maxRetryBackoff) == None then Some(512_000_000) else old(maxRetryBackoff))
      ensures connMaxIdleTime == (if old(connMaxIdleTime) != None then old(connMaxIdleTime)
                                  else if old(idleTimeout) != None then old(idleTimeout) else Some(300_000_000_000))
      ensures connMaxLifetime == (if old(connMaxLifetime) != None then old(connMaxLifetime)
                                  else if old(maxConnAge) != None then old(maxConnAge) else Some(1_800_000_000_000))
      ensures addrs == old(addrs) && db == old(db) && clientName == old(clientName)
              && idleTimeout == old(idleTimeout) && maxConnAge == old(maxConnAge) && tls == old(tls) && sentinel == old(sentinel)
    {
      NormalizeLegacyLifecycleFields();
      DefaultSizes();
      DefaultTimeouts();
      DefaultLifetimes();
      DefaultRetries();
    }

    method ValidateBasicConnection(result: ValidationResult)
      requires result.Consistent()
      modifies result
      ensures result.Consistent() && result.errors == BasicErrors(Value(), old(result.errors))
    {
      if |addrs| == 0 {
        result.AddError(Plain("addrs"));
        return;
      }
      result.RequireAddresses("addrs", addrs);
    }

    method ValidateConnectionPool(result: ValidationResult)
      requires result.Consistent()
      modifies result
      ensures result.Consistent() && result.errors == PoolErrors(Value(), old(result.errors))
    {
      result.Require(minIdleConns >= 0, "min_idle_conns");
      result.Require(maxIdleConns >= 0, "max_idle_conns");
      result.Require(maxActiveConns > 0, "max_active_conns");
      result.Require(!(minIdleConns > 0 && maxActiveConns > 0 && minIdleConns > maxActiveConns), "min_idle_conns");
      result.Require(Equal(connMaxIdleTime, idleTimeout), "idle_timeout");
      result.Require(Equal(connMaxLifetime, maxConnAge), "max_conn_age");
      assert result.errors == SizeErrors(Value(), old(result.errors));
      var idle, idleField := Or(connMaxIdleTime, idleTimeout), if connMaxIdleTime != None then "conn_max_idle_time" else "idle_timeout";
      result.RequireRange(idle, 24 * HOUR, idleField);
      var life, lifeField := Or(connMaxLifetime, maxConnAge), if connMaxLifetime != None then "conn_max_lifetime" else "max_conn_age";
      result.RequireRange(life, 7 * 24 * HOUR, lifeField);
      result.RequireRange(poolTimeout, 5 * MINUTE, "pool_timeout");
    }

    method ValidateTimeouts(result: ValidationResult)
      requires result.Consistent()
      modifies result
      ensures result.Consistent() && result.errors == TimeoutErrors(Value(), old(result.errors))
    {
      result.RequireRange(dialTimeout, 60 * SECOND, "dial_timeout");
      result.RequireRange(readTimeout, 300 * SECOND, "read_timeout");
      result.RequireRange(writeTimeout, 300 * SECOND, "write_timeout");
    }

    method ValidateRetryConfig(result: ValidationResult)
      requires result.Consistent()
      modifies result
      ensures result.Consistent() && result.errors == RetryErrors(Value(), old(result.errors))
    {
      result.Require(maxRetries >= 0, "max_retries");
      result.Require(maxRetries <= 10, "max_retries");
      result.RequireRange(minRetryBackoff, SECOND, "min_retry_backoff");
      result.RequireRange(maxRetryBackoff, 30 * SECOND, "max_retry_backoff");
      result.Require(!(minRetryBackoff != None && maxRetryBackoff != None && minRetryBackoff.value > maxRetryBackoff.value),
                     "min_retry_backoff");
    }

    method ValidateTlsConfig(policy: bool -> bool, result: ValidationResult)
      requires result.Consistent()
      modifies result
      ensures result.Consistent() && result.errors == TlsErrors(policy, Value(), old(result.errors))
    {
      if tls != None && tls.value.enabled {
        result.Require(policy(tls.value.insecureSkipVerify), "tls.insecure_skip_verify");
      }
    }

    method ValidateSentinelConfig(result: ValidationResult)
      requires result.Consistent()
      modifies result
      ensures result.Consistent() && result.errors == SentinelErrors(Value(), old(result.errors))
    {
      if sentinel != None {
        result.Require(!Blank(sentinel.value.masterName), "sentinel.master_name");
        result.RequireAddresses("sentinel.addrs", sentinel.value.addrs);
      }
    }

    method ValidateDatabaseConfig(result: ValidationResult)
      requires result.Consistent()
      modifies result
      ensures result.Consistent() && result.errors == DatabaseErrors(Value(), old(result.errors))
    {
      result.Require(db >= 0, "db");
      var isClusterMode := |addrs| > 1 && (sentinel == None || sentinel.value.masterName == "");
      if isClusterMode {
        result.Require(db == 0, "db");
      } else {
        result.Require(db <= 15, "db");
      }
    }

    method ValidateClientName(result: ValidationResult)
      requires result.Consistent()
      modifies result
      ensures result.Consistent() && result.errors == NameErrors(Value(), old(result.errors))
    {
      if clientName != "" {
        result.Require(|clientName| <= 64, "client_name");
        result.Require(forall x <- clientName :: NameCharacter(x), "client_name");
      }
    }

    method ValidateNetworkConfig(result: ValidationResult)
      requires result.Consistent()
      modifies result
      ensures result.Consistent() && result.errors == NetworkErrors(Value(), old(result.errors))
    {
      if network != "" {
        var isValid, i := false, 0;
        while i < |NETWORKS| && !isValid
          invariant 0 <= i <= |NETWORKS| && (isValid <==> network in NETWORKS[..i])
        {
          isValid := network == NETWORKS[i];
          i := i + 1;
        }
        result.Require(isValid, "network");
      }
    }
  }

  /** ValidateRedisConfig: normalises the configuration it is given, then runs every check. */
  method ValidateRedisConfig(policy: bool -> bool, config: RedisConfig?) returns (result: ValidationResult)
    modifies config
    ensures fresh(result) && result.Consistent()
    ensures config == null ==> result.errors == [Plain("config")]
    ensures config != null ==> config.Value() == Normalized(old(config.Value()))
    ensures config != null ==> result.errors == AllErrors(policy, Normalized(old(config.Value())))
    ensures config != null ==> forall f :: f in result.errors <==> Bad(policy, old(config.Value()), f)
    ensures config != null ==> (result.isValid <==> Acceptable(policy, old(config.Value())))
  {
    hide AllErrors, Acceptable, Bad, BasicErrors, PoolErrors, TimeoutErrors, RetryErrors, TlsErrors, SentinelErrors,
         DatabaseErrors, NameErrors, NetworkErrors;
    result := new ValidationResult();
    if config == null {
      result.AddError(Plain("config"));
      return;
    }
    ValidExactlyWhen(policy, config.Value());
    forall f: Field
      ensures f in AllErrors(policy, Normalized(config.Value())) <==> Bad(policy, config.Value(), f)
    {
      ReportedExactlyWhen(policy, config.Value(), f);
    }
    config.NormalizeLegacyLifecycleFields();
    config.ValidateBasicConnection(result);
    config.ValidateConnectionPool(result);
    config.ValidateTimeouts(result);
    config.ValidateRetryConfig(result);
    config.ValidateTlsConfig(policy, result);
    config.ValidateSentinelConfig(result);
    config.ValidateDatabaseConfig(result);
    config.ValidateClientName(result);
    config.ValidateNetworkConfig(result);
    AllErrorsAre(policy, config.Value());
  }

  lemma AllErrorsAre(policy: bool -> bool, c: Redis)
    ensures AllErrors(policy, c) ==
            NetworkErrors(c, NameErrors(c, DatabaseErrors(c, SentinelErrors(c, TlsErrors(policy, c,
              RetryErrors(c, TimeoutErrors(c, PoolErrors(c, BasicErrors(c, [])))))))))
  {
  }

  /** ValidateAndSetDefaults; true means accepted. */
  method ValidateAndSetDefaults(policy: bool -> bool, config: RedisConfig) returns (ok: bool)
    modifies config
    ensures config.Value() == WithDefaults(old(config.Value()))
    ensures ok <==> Acceptable(policy, WithDefaults(old(config.Value())))
  {
    hide Acceptable;
    config.SetDefaultValues();
    DefaultsNormalized(config.Value());
    var result := ValidateRedisConfig(policy, config);
    ok := result.isValid;
  }

  // ---------- what defaulting does to acceptance ----------

  lemma DefaultsNormalized(c: Redis)
    ensures Normalized(WithDefaults(c)) == WithDefaults(c)
  {
  }

  /** Defaulting fills each gap with its own value and touches nothing that was given. */
  lemma DefaultsFillGapsOnly(c: Redis)
    ensures var d := WithDefaults(c);
            && d.network == (if c.network == "" then "tcp" else c.network)
            && d.minIdleConns == (if c.minIdleConns == 0 then 10 else c.minIdleConns)
            && d.maxIdleConns == (if c.maxIdleConns == 0 then 20 else c.maxIdleConns)
            && d.maxActiveConns == (if c.maxActiveConns == 0 then 100 else c.maxActiveConns)
            && d.maxRetries == (if c.maxRetries == 0 then 3 else c.maxRetries)
            && d.dialTimeout == (if c.dialTimeout == None then Some(10_000_000_000) else c.dialTimeout)
            && d.readTimeout == (if c.readTimeout == None then Some(10_000_000_000) else c.readTimeout)
            && d.writeTimeout == (if c.writeTimeout == None then Some(10_000_000_000) else c.writeTimeout)
            && d.poolTimeout == (if c.poolTimeout == None then Some(3_000_000_000) else c.poolTimeout)
            && d.minRetryBackoff == (if c.minRetryBackoff == None then Some(8_000_000) else c.minRetryBackoff)
            && d.maxRetryBackoff == (if c.maxRetryBackoff == None then Some(512_000_000) else c.maxRetryBackoff)
            && d.connMaxIdleTime == (if c.connMaxIdleTime.Some? then c.connMaxIdleTime
                                     else if c.idleTimeout.Some? then c.idleTimeout else Some(300_000_000_000))
            && d.connMaxLifetime == (if c.connMaxLifetime.Some? then c.connMaxLifetime
                                     else if c.maxConnAge.Some? then c.maxConnAge else Some(1_800_000_000_000))
            && d.addrs == c.addrs && d.db == c.db && d.clientName == c.clientName
            && d.idleTimeout == c.idleTimeout && d.maxConnAge == c.maxConnAge
            && d.tls == c.tls && d.sentinel == c.sentinel
  {
  }

  /** Defaulting twice is defaulting once, so a second ValidateAndSetDefaults changes nothing and decides the same. */
  lemma DefaultsIdempotent(c: Redis)
    ensures WithDefaults(WithDefaults(c)) == WithDefaults(c)
  {
  }

  lemma PlaceKept(c: Redis)
    ensures var d := WithDefaults(c);
            && d.addrs == c.addrs && d.tls == c.tls
            && (SentinelAcceptable(d) <==> SentinelAcceptable(c)) && (NamesAcceptable(d) <==> NamesAcceptable(c))
    ensures var r := c.(maxActiveConns := NonZero(c.maxActiveConns, 100));
            && (SentinelAcceptable(r) <==> SentinelAcceptable(c)) && (NamesAcceptable(r) <==> NamesAcceptable(c))
            && (LifetimesAcceptable(r) <==> LifetimesAcceptable(c)) && (TimeoutsAcceptable(r) <==> TimeoutsAcceptable(c))
            && (RetriesAcceptable(r) <==> RetriesAcceptable(c))
  {
    hide Blank, ValidAddress, NameCharacter;
  }

  lemma SizesDefaulted(c: Redis)
    ensures SizesAcceptable(WithDefaults(c)) <==>
            && SizesAcceptable(c.(maxActiveConns := NonZero(c.maxActiveConns, 100)))
            && !(c.minIdleConns == 0 && 0 < c.maxActiveConns < 10)
  {
  }

  lemma LifetimesDefaulted(c: Redis)
    ensures LifetimesAcceptable(WithDefaults(c)) <==> LifetimesAcceptable(c)
    ensures TimeoutsAcceptable(WithDefaults(c)) <==> TimeoutsAcceptable(c)
    ensures Within(WithDefaults(c).poolTimeout, 5 * MINUTE) <==> Within(c.poolTimeout, 5 * MINUTE)
  {
  }

  lemma RetriesDefaulted(c: Redis)
    ensures RetriesAcceptable(WithDefaults(c)) <==>
            && RetriesAcceptable(c)
            && !(c.minRetryBackoff.None? && c.maxRetryBackoff.Some? && c.maxRetryBackoff.value < 8 * MILLI)
            && !(c.maxRetryBackoff.None? && c.minRetryBackoff.Some? && c.minRetryBackoff.value > 512 * MILLI)
  {
  }

  /** Exactly what defaulting changes: it repairs max_active_conns = 0 and nothing else, and it breaks an
      acceptable configuration exactly when the default minimum of idle connections exceeds the maximum
      of active ones, or a default backoff bound crosses the one that was given. */
  lemma DefaultingExactly(policy: bool -> bool, c: Redis)
    ensures Acceptable(policy, WithDefaults(c)) <==>
            && Acceptable(policy, c.(maxActiveConns := NonZero(c.maxActiveConns, 100)))
            && !(c.minIdleConns == 0 && 0 < c.maxActiveConns < 10)
            && !(c.minRetryBackoff.None? && c.maxRetryBackoff.Some? && c.maxRetryBackoff.value < 8 * MILLI)
            && !(c.maxRetryBackoff.None? && c.minRetryBackoff.Some? && c.minRetryBackoff.value > 512 * MILLI)
  {
    hide SizesAcceptable, LifetimesAcceptable, TimeoutsAcceptable, RetriesAcceptable, SentinelAcceptable, NamesAcceptable,
         ValidAddress, WithDefaults;
    PlaceKept(c);
    SizesDefaulted(c);
    LifetimesDefaulted(c);
    RetriesDefaulted(c);
  }

  /** In particular, for a configuration that is acceptable as it stands. */
  lemma DefaultingRejectsExactlyWhen(policy: bool -> bool, c: Redis)
    requires Acceptable(policy, c)
    ensures !Acceptable(policy, WithDefaults(c)) <==>
            || (c.minIdleConns == 0 && c.maxActiveConns < 10)
            || (c.minRetryBackoff.None? && c.maxRetryBackoff.Some? && c.maxRetryBackoff.value < 8 * MILLI)
            || (c.maxRetryBackoff.None? && c.minRetryBackoff.Some? && c.minRetryBackoff.value > 512 * MILLI)
  {
    DefaultingExactly(policy, c);
  }
}
