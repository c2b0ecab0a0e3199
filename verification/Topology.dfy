/** From configuration to client: the options handed to go-redis, and the three places that read the
    topology off the same configuration.

    go-redis, as assumed here, chooses a failover client when a master name is set, otherwise a cluster
    client for more than one address, otherwise a single-node client. */
module Topology {
  import opened Prelude
  import opened Address
  import opened Configuration

  /** `tls` is the InsecureSkipVerify of the TLS configuration, if there is one. */
  datatype Options = Options(
    addrs: seq<string>, masterName: string, db: int, tls: Option<bool>, connMaxIdleTime: int, connMaxLifetime: int)

  datatype Mode = Unknown | Single | Cluster | Sentinels

  function EffectiveDuration(d: Option<int>, legacy: Option<int>): int {
    match Or(d, legacy)
    case None => 0
    case Some(n) => n
  }

  function StripAll(addrs: seq<string>): seq<string> {
    seq(|addrs|, i requires 0 <= i < |addrs| => Strip(addrs[i], REDISS))
  }

  predicate AnySecure(addrs: seq<string>) {
    exists a <- addrs :: HasPrefix(ToLower(a), REDISS)
  }

  /** What decides which client is built, and for which addresses. */
  predicate Built(c: Redis, o: Options) {
    && o.addrs == (if c.sentinel.Some? && c.sentinel.value.addrs != [] then c.sentinel.value.addrs else StripAll(c.addrs))
    && o.masterName == (if c.sentinel.Some? then c.sentinel.value.masterName else "")
  }

  method BuildUniversalOptions(conf: Option<Redis>) returns (o: Options)
    ensures conf.None? ==> o == Options([], "", 0, None, 0, 0)
    ensures conf.Some? ==>
              var c := conf.value;
              && Built(c, o)
              && o.db == c.db
              && (!(c.sentinel.Some? && c.sentinel.value.addrs != []) ==>
                    && |o.addrs| == |c.addrs|
                    && forall i :: 0 <= i < |o.addrs| ==>
                         o.addrs[i] == if "rediss://" <= c.addrs[i] then c.addrs[i][9..] else c.addrs[i])
              && o.tls == (if c.tls.Some? && c.tls.value.enabled then Some(c.tls.value.insecureSkipVerify)
                           else if AnySecure(c.addrs) then Some(false) else None)
              && o.connMaxIdleTime == (match c.connMaxIdleTime
                                       case Some(d) => d
                                       case None => if c.idleTimeout.Some? then c.idleTimeout.value else 0)
              && o.connMaxLifetime == (match c.connMaxLifetime
                                       case Some(d) => d
                                       case None => if c.maxConnAge.Some? then c.maxConnAge.value else 0)
  {
    if conf == None {
      return Options([], "", 0, None, 0, 0);
    }
    var c := conf.value;
    var addrs := c.addrs;
    var tlsConfig: Option<bool> := None;
    if c.tls != None && c.tls.value.enabled {
      tlsConfig := Some(c.tls.value.insecureSkipVerify);
    }
    ghost var given := tlsConfig;
    var i := 0;
    while i < |addrs|
      invariant 0 <= i <= |addrs| == |c.addrs|
      invariant forall k :: 0 <= k < i ==> addrs[k] == Strip(c.addrs[k], REDISS)
      invariant forall k :: i <= k < |addrs| ==> addrs[k] == c.addrs[k]
      invariant tlsConfig == if given.Some? then given else if AnySecure(c.addrs[..i]) then Some(false) else None
    {
      assert c.addrs[..i + 1] == c.addrs[..i] + [c.addrs[i]];
      if HasPrefix(ToLower(addrs[i]), REDISS) {
        assert c.addrs[i] in c.addrs[..i + 1];
        if tlsConfig == None {
          tlsConfig := Some(false);
        }
        addrs := addrs[i := TrimPrefix(addrs[i], REDISS)];
      }
      i := i + 1;
    }
    assert c.addrs[..i] == c.addrs;
    assert addrs == StripAll(c.addrs);
    forall k | 0 <= k < |addrs|
      ensures addrs[k] == if "rediss://" <= c.addrs[k] then c.addrs[k][9..] else c.addrs[k]
    {
      StripIsTrim(c.addrs[k]);
    }
    var masterName := "";
    if c.sentinel != None {
      masterName := c.sentinel.value.masterName;
      if |c.sentinel.value.addrs| > 0 {
        addrs := c.sentinel.value.addrs;
      }
    }
    o := Options(addrs, masterName, c.db, tlsConfig,
                 EffectiveDuration(c.connMaxIdleTime, c.idleTimeout), EffectiveDuration(c.connMaxLifetime, c.maxConnAge));
  }

  function CurrentAddrList(conf: Option<Redis>): seq<string> {
    if conf.None? then []
    else if conf.value.sentinel.Some? && conf.value.sentinel.value.addrs != [] then conf.value.sentinel.value.addrs
    else conf.value.addrs
  }

  function DetectMode(conf: Option<Redis>): Mode {
    if conf.None? then Unknown
    else if conf.value.sentinel.Some? && conf.value.sentinel.value.masterName != "" then Sentinels
    else if |CurrentAddrList(conf)| > 1 then Cluster
    else Single
  }

  /** The client go-redis builds from a master name and a number of addresses. */
  function ClientKind(masterName: string, addrs: nat): Mode {
    if masterName != "" then Sentinels else if addrs > 1 then Cluster else Single
  }

  lemma StripIsTrim(a: string)
    ensures Strip(a, REDISS) == if "rediss://" <= a then a[9..] else a
  {
    if HasPrefix(a, REDISS) {
      PrefixInAnyCase(a, REDISS);
    }
  }

  /** TLS is inferred from an address with the scheme in any letter case. */
  lemma AnySecureExactly(addrs: seq<string>)
    ensures AnySecure(addrs) <==>
            exists a <- addrs ::
              && |a| >= 9
              && a[0] in "rR" && a[1] in "eE" && a[2] in "dD" && a[3] in "iI" && a[4] in "sS" && a[5] in "sS"
              && a[6] == ':' && a[7] == '/' && a[8] == '/'
  {
    forall a | a in addrs
      ensures HasPrefix(ToLower(a), REDISS) <==>
              && |a| >= 9
              && a[0] in "rR" && a[1] in "eE" && a[2] in "dD" && a[3] in "iI" && a[4] in "sS" && a[5] in "sS"
              && a[6] == ':' && a[7] == '/' && a[8] == '/'
    {
      SecureSchemeExactly(a);
    }
  }

  /** The mode the plugin reports is always the kind of client it built. */
  lemma ModeIsClientKind(c: Redis, o: Options)
    requires Built(c, o)
    ensures DetectMode(None) == Unknown && CurrentAddrList(None) == []
    ensures DetectMode(Some(c)) == if o.masterName != "" then Sentinels else if |o.addrs| > 1 then Cluster else Single
  {
  }

  /** The validator's cluster test agrees with the other two exactly unless a sentinel section without a
      master name lists addresses of its own that are plural where `addrs` are not, or the reverse. */
  lemma ValidatorAgreesExactlyWhen(c: Redis)
    ensures (IsClusterMode(c) <==> DetectMode(Some(c)) == Cluster) <==>
            !(c.sentinel.Some? && c.sentinel.value.masterName == "" && c.sentinel.value.addrs != []
              && (|c.addrs| > 1) != (|c.sentinel.value.addrs| > 1))
  {
  }

  /** For every accepted configuration the three readings coincide, and the database number fits the
      client that is built. */
  lemma TopologyAgrees(policy: bool -> bool, c: Redis, o: Options)
    requires Acceptable(policy, c) && Built(c, o)
    ensures IsClusterMode(c) <==> DetectMode(Some(c)) == Cluster
    ensures DetectMode(Some(c)) == ClientKind(o.masterName, |o.addrs|)
    ensures ClientKind(o.masterName, |o.addrs|) == Cluster ==> c.db == 0
    ensures 0 <= c.db <= 15
    ensures c.sentinel.Some? <==> ClientKind(o.masterName, |o.addrs|) == Sentinels
  {
    ModeIsClientKind(c, o);
    ValidatorAgreesExactlyWhen(c);
  }

  /** The addresses the plugin reports are those it connects to, up to the scheme; and none of those
      taken from `addrs` still carries `rediss://`. */
  lemma AddressesAgree(policy: bool -> bool, c: Redis, o: Options, i: nat)
    requires Acceptable(policy, c) && Built(c, o)
    ensures |o.addrs| == |CurrentAddrList(Some(c))| >= 1
    ensures i < |o.addrs| ==>
              var shown, dialled := CurrentAddrList(Some(c))[i], o.addrs[i];
              if c.sentinel.Some? && c.sentinel.value.addrs != [] then dialled == shown
              else
                && dialled == (if HasPrefix(shown, REDISS) then shown[|REDISS|..] else shown)
                && !HasPrefix(ToLower(dialled), REDISS)
  {
    if i < |c.addrs| && !(c.sentinel.Some? && c.sentinel.value.addrs != []) {
      assert c.addrs[i] in c.addrs;
      assert ValidAddress(c.addrs[i]);
      ValidAddressStripped(c.addrs[i]);
    }
  }

  /** For accepted configurations TLS is inferred from the addresses exactly when one of them starts
      with `rediss://` in lower case. */
  lemma TlsInferredExactly(policy: bool -> bool, c: Redis)
    requires Acceptable(policy, c)
    ensures AnySecure(c.addrs) <==> exists a <- c.addrs :: HasPrefix(a, REDISS)
  {
    forall a | a in c.addrs
      ensures HasPrefix(ToLower(a), REDISS) <==> HasPrefix(a, REDISS)
    {
      assert ValidAddress(a);
      ValidAddressStripped(a);
    }
  }

  /** Normalising, as validation does, does not change the lifetimes the client gets. */
  lemma LifetimesSurviveNormalization(c: Redis)
    ensures EffectiveDuration(Normalized(c).connMaxIdleTime, c.idleTimeout) == EffectiveDuration(c.connMaxIdleTime, c.idleTimeout)
    ensures EffectiveDuration(Normalized(c).connMaxLifetime, c.maxConnAge) == EffectiveDuration(c.connMaxLifetime, c.maxConnAge)
  {
  }
}
