/** Address checking: scheme stripping, net.SplitHostPort and strconv.Atoi, and exactly which texts pass.

    Strings are sequences of characters; letter case and white space are those of ASCII. */
module Address {
  import opened Prelude

  function Lower(c: char): char {
    if 'A' <= c <= 'Z' then c - 'A' + 'a' else c
  }

  function ToLower(s: string): string {
    seq(|s|, i requires 0 <= i < |s| => Lower(s[i]))
  }

  predicate HasPrefix(s: string, prefix: string) {
    prefix <= s
  }

  function TrimPrefix(s: string, prefix: string): string {
    if HasPrefix(s, prefix) then s[|prefix|..] else s
  }

  predicate IsSpace(c: char) {
    c in " \t\n\r" || c == 0xB as char || c == 0xC as char
  }

  /** `strings.TrimSpace(s) == ""` */
  predicate Blank(s: string) {
    forall c <- s :: IsSpace(c)
  }

  /** The first position of c, or the length if there is none. */
  function IndexOf(s: string, c: char): (i: nat)
    ensures i <= |s|
    ensures c !in s[..i]
    ensures i < |s| ==> s[i] == c
  {
    if s == [] || s[0] == c then 0 else 1 + IndexOf(s[1..], c)
  }

  /** The last position of c, or -1. */
  function LastIndexOf(s: string, c: char): (i: int)
    ensures -1 <= i < |s|
    ensures c !in s[i + 1..]
    ensures i >= 0 ==> s[i] == c
  {
    if s == [] then -1
    else if s[|s| - 1] == c then |s| - 1
    else
      var i := LastIndexOf(s[..|s| - 1], c);
      assert forall k | i < k < |s| - 1 :: s[k] == s[..|s| - 1][k] && s[k] in s[..|s| - 1][i + 1..];
      i
  }

  /** net.SplitHostPort */
  function SplitHostPort(s: string): Option<(string, string)> {
    var i := LastIndexOf(s, ':');
    if i < 0 then None
    else if s[0] == '[' then
      var end := IndexOf(s, ']');
      if end + 1 != i then None
      else if '[' in s[1..] || ']' in s[end + 1..] then None
      else Some((s[1..end], s[i + 1..]))
    else if ':' in s[..i] || '[' in s || ']' in s then None
    else Some((s[..i], s[i + 1..]))
  }

  function Digits(s: string): Option<nat> {
    if s == [] then Some(0)
    else
      var front := Digits(s[..|s| - 1]);
      var d := s[|s| - 1];
      if front.None? || !('0' <= d <= '9') then None else Some(10 * front.value + (d - '0') as int)
  }

  /** strconv.Atoi, which also fails on what does not fit an int64; no such number is a port. */
  function Atoi(s: string): Option<int> {
    var unsigned := if s != [] && (s[0] == '+' || s[0] == '-') then s[1..] else s;
    if unsigned == [] then None
    else
      match Digits(unsigned)
      case None => None
      case Some(n) => Some(if s[0] == '-' then 0 - n else n)
  }

  predicate IsPort(s: string) {
    Atoi(s).Some? && 1 <= Atoi(s).value <= 65535
  }

  datatype AddressError = Malformed | NoHost | NoPort | BadPort

  const REDISS := "rediss://"
  const REDIS := "redis://"

  /** Strip a scheme the way the code does: tested in any letter case, removed only in lower case. */
  function Strip(s: string, scheme: string): string {
    if HasPrefix(ToLower(s), scheme) then TrimPrefix(s, scheme) else s
  }

  function ValidateAddress(addr: string): Option<AddressError> {
    match SplitHostPort(Strip(Strip(addr, REDISS), REDIS))
    case None => Some(Malformed)
    case Some((host, port)) =>
      if host == "" then Some(NoHost)
      else if port == "" then Some(NoPort)
      else if !IsPort(port) then Some(BadPort)
      else None
  }

  // ---------- which addresses pass ----------

  predicate NoneOf(s: string, cs: string) {
    forall c <- cs :: c !in s
  }

  /** `host:port`, or `[host]:port` for a host that contains colons. */
  predicate HostPort(s: string, host: string, port: string) {
    && host != "" && IsPort(port) && NoneOf(host, "[]") && NoneOf(port, ":[]")
    && (s == "[" + host + "]:" + port || (s == host + ":" + port && ':' !in host))
  }

  lemma LastIndexUnique(s: string, c: char, i: nat)
    requires i < |s| && s[i] == c && c !in s[i + 1..]
    ensures LastIndexOf(s, c) == i
  {
    var j := LastIndexOf(s, c);
  }

  lemma IndexUnique(s: string, c: char, i: nat)
    requires i < |s| && s[i] == c && c !in s[..i]
    ensures IndexOf(s, c) == i
  {
    var j := IndexOf(s, c);
  }

  lemma SplitSound(s: string)
    requires SplitHostPort(s).Some?
    requires SplitHostPort(s).value.0 != "" && IsPort(SplitHostPort(s).value.1)
    ensures HostPort(s, SplitHostPort(s).value.0, SplitHostPort(s).value.1)
  {
    var (host, port) := SplitHostPort(s).value;
    var i := LastIndexOf(s, ':');
    if s[0] == '[' {
      var end := IndexOf(s, ']');
      assert forall c <- host :: c in s[1..] && c in s[..end];
      assert forall c <- port :: c in s[1..] && c in s[end + 1..];
      assert s == "[" + host + "]:" + port;
    } else {
      assert forall c <- host :: c in s;
      assert forall c <- port :: c in s;
      assert s == host + ":" + port;
    }
  }

  lemma SplitPlain(host: string, port: string)
    requires host != "" && ':' !in host && '[' !in host && ']' !in host
    requires ':' !in port && '[' !in port && ']' !in port
    ensures SplitHostPort(host + ":" + port) == Some((host, port))
  {
    var s := host + ":" + port;
    assert s[|host| + 1..] == port && s[..|host|] == host;
    LastIndexUnique(s, ':', |host|);
    assert s[0] == host[0] && host[0] in host;
    assert forall c | c in s :: c in host || c == ':' || c in port;
  }

  lemma SplitBracketed(host: string, port: string)
    requires '[' !in host && ']' !in host
    requires ':' !in port && '[' !in port && ']' !in port
    ensures SplitHostPort("[" + host + "]:" + port) == Some((host, port))
  {
    var s := "[" + host + "]:" + port;
    assert s[|host| + 3..] == port && s[1..|host| + 1] == host;
    LastIndexUnique(s, ':', |host| + 2);
    assert s[..|host| + 1] == "[" + host;
    IndexUnique(s, ']', |host| + 1);
    assert s[1..] == host + "]:" + port;
    assert s[|host| + 2..] == ":" + port;
  }

  lemma SplitComplete(s: string, host: string, port: string)
    requires HostPort(s, host, port)
    ensures SplitHostPort(s) == Some((host, port))
  {
    hide SplitHostPort, IsPort;
    assert NoneOf(host, "[]") ==> '[' in "[]" && ']' in "[]";
    assert ':' in ":[]" && '[' in ":[]" && ']' in ":[]";
    if s == "[" + host + "]:" + port {
      SplitBracketed(host, port);
    } else {
      SplitPlain(host, port);
    }
  }

  ghost predicate IsHostPort(s: string) {
    exists host, port :: HostPort(s, host, port)
  }

  lemma {:induction false} DigitsOnly(s: string, i: nat)
    requires Digits(s).Some? && i < |s|
    ensures '0' <= s[i] <= '9'
  {
    if i < |s| - 1 {
      DigitsOnly(s[..|s| - 1], i);
    }
  }

  /** No host and port read like a scheme, in any letter case: the slashes cannot be part of a port. */
  lemma NoScheme(s: string, host: string, port: string, colon: nat)
    requires HostPort(s, host, port) && colon >= 1
    ensures !(colon + 1 < |s| && s[0] != '[' && s[colon] == ':' && s[colon + 1] == '/')
  {
    if colon + 1 < |s| && s[0] != '[' && s[colon] == ':' && s[colon + 1] == '/' {
      assert ':' in ":[]";
      assert colon == |host| && port[0] == '/';
      DigitsOnly(port, 0);
    }
  }

  lemma SchemeColon(s: string, scheme: string)
    requires HasPrefix(ToLower(s), scheme) && (scheme == REDISS || scheme == REDIS)
    ensures |s| >= |scheme| && s[0] != '[' && s[|scheme| - 3] == ':' && s[|scheme| - 2] == '/'
  {
    var t := ToLower(s);
    assert t[0] == scheme[0] && t[|scheme| - 3] == scheme[|scheme| - 3] && t[|scheme| - 2] == scheme[|scheme| - 2];
  }

  lemma PrefixInAnyCase(s: string, scheme: string)
    requires HasPrefix(s, scheme) && (scheme == REDISS || scheme == REDIS)
    ensures HasPrefix(ToLower(s), scheme)
  {
    forall i | 0 <= i < |scheme|
      ensures ToLower(s)[i] == scheme[i]
    {
      assert s[i] == scheme[i];
    }
  }

  lemma StripHostPort(s: string, scheme: string)
    requires IsHostPort(s) && (scheme == REDISS || scheme == REDIS)
    ensures Strip(s, scheme) == s
    ensures !HasPrefix(s, scheme)
  {
    var host, port :| HostPort(s, host, port);
    if HasPrefix(ToLower(s), scheme) {
      SchemeColon(s, scheme);
      NoScheme(s, host, port, |scheme| - 3);
    }
    if HasPrefix(s, scheme) {
      PrefixInAnyCase(s, scheme);
    }
  }

  /** A text that becomes host and port by stripping a scheme either was one or started with the scheme
      in lower case. */
  lemma StripExactly(s: string, scheme: string)
    requires scheme == REDISS || scheme == REDIS
    ensures IsHostPort(Strip(s, scheme)) <==> IsHostPort(s) || (HasPrefix(s, scheme) && IsHostPort(s[|scheme|..]))
  {
    if HasPrefix(s, scheme) {
      PrefixInAnyCase(s, scheme);
      if IsHostPort(s) {
        StripHostPort(s, scheme);
      }
    } else if IsHostPort(s) {
      StripHostPort(s, scheme);
    }
  }

  lemma ValidMeansHostPort(addr: string)
    ensures ValidateAddress(addr).None? <==> IsHostPort(Strip(Strip(addr, REDISS), REDIS))
  {
    hide Strip;
    var s := Strip(Strip(addr, REDISS), REDIS);
    if ValidateAddress(addr).None? {
      SplitSound(s);
    }
    if IsHostPort(s) {
      var host, port :| HostPort(s, host, port);
      SplitComplete(s, host, port);
    }
  }

  /** The two schemes differ at their sixth character. */
  lemma NotBothSchemes(t: string)
    ensures !(HasPrefix(t, REDIS) && HasPrefix(t, REDISS))
  {
    assert REDIS[5] == ':' && REDISS[5] == 's';
  }

  lemma StripOverRedis(addr: string)
    ensures HasPrefix(Strip(addr, REDISS), REDIS) && IsHostPort(Strip(addr, REDISS)[|REDIS|..]) <==>
            || (HasPrefix(addr, REDIS) && IsHostPort(addr[|REDIS|..]))
            || (HasPrefix(addr, REDISS) && HasPrefix(addr[|REDISS|..], REDIS) && IsHostPort(addr[|REDISS| + |REDIS|..]))
  {
    if HasPrefix(addr, REDISS) {
      PrefixInAnyCase(addr, REDISS);
      NotBothSchemes(addr);
      if HasPrefix(addr[|REDISS|..], REDIS) {
        assert addr[|REDISS|..][|REDIS|..] == addr[|REDISS| + |REDIS|..];
      }
    } else if HasPrefix(addr, REDIS) {
      PrefixInAnyCase(addr, REDIS);
      NotBothSchemes(ToLower(addr));
    }
  }

  /** An address passes if and only if it is host and port, optionally after `rediss://` and then
      optionally after `redis://`, both in lower case. Other spellings of a scheme are recognised but
      not removed, and fail. */
  lemma ValidAddressExactlyWhen(addr: string)
    ensures ValidateAddress(addr).None? <==>
            || IsHostPort(addr)
            || ("rediss://" <= addr && IsHostPort(addr[9..]))
            || ("redis://" <= addr && IsHostPort(addr[8..]))
            || ("rediss://redis://" <= addr && IsHostPort(addr[17..]))
  {
    hide Strip, ValidateAddress, IsHostPort;
    ValidMeansHostPort(addr);
    StripExactly(Strip(addr, REDISS), REDIS);
    StripExactly(addr, REDISS);
    StripOverRedis(addr);
    BothSchemes(addr);
  }

  lemma BothSchemes(addr: string)
    ensures HasPrefix(addr, REDISS) && HasPrefix(addr[|REDISS|..], REDIS) <==> "rediss://redis://" <= addr
  {
    assert REDISS + REDIS == "rediss://redis://";
    if HasPrefix(addr, REDISS) && HasPrefix(addr[|REDISS|..], REDIS) {
      assert addr[..17] == addr[..9] + addr[9..17];
      assert addr[9..][..8] == addr[9..17];
    }
    if "rediss://redis://" <= addr {
      assert addr[..17] == REDISS + REDIS;
      assert addr[..9] == addr[..17][..9];
      assert addr[9..][..8] == addr[..17][9..];
    }
  }

  // ---------- which numbers are ports ----------

  function Zeros(k: nat): string {
    if k == 0 then "" else "0" + Zeros(k - 1)
  }

  lemma {:induction false} ZerosSnoc(k: nat)
    ensures Zeros(k) + "0" == Zeros(k + 1)
  {
    if k > 0 {
      ZerosSnoc(k - 1);
      assert Zeros(k) + "0" == "0" + (Zeros(k - 1) + "0");
    }
  }

  /** Leading zeros and decimal digits: the texts that Atoi reads as n without a sign. */
  predicate Spells(s: string, k: nat, n: nat) {
    s == Zeros(k) + Decimal(n)
  }

  lemma {:induction false} DigitsOfZeros(k: nat)
    ensures Digits(Zeros(k)) == Some(0)
  {
    if k > 0 {
      DigitsOfZeros(k - 1);
      ZerosSnoc(k - 1);
      assert Zeros(k)[..|Zeros(k)| - 1] == Zeros(k - 1);
    }
  }

  lemma DigitsSnoc(s: string, d: char)
    ensures Digits(s + [d]) == if Digits(s).Some? && IsDigit(d) then Some(10 * Digits(s).value + Digit(d)) else None
  {
    assert (s + [d])[..|s|] == s;
  }

  lemma {:induction false} DigitsOfSpelling(k: nat, n: nat)
    ensures Digits(Zeros(k) + Decimal(n)) == Some(n)
  {
    hide Digits;
    var last := ('0' as int + n % 10) as char;
    if n < 10 {
      DigitsOfZeros(k);
      DigitsSnoc(Zeros(k), last);
    } else {
      DigitsOfSpelling(k, n / 10);
      DigitsSnoc(Zeros(k) + Decimal(n / 10), last);
      assert Zeros(k) + Decimal(n) == Zeros(k) + Decimal(n / 10) + [last];
    }
  }

  lemma DecimalSnoc(n: nat, d: char)
    requires IsDigit(d) && n > 0
    ensures Decimal(10 * n + Digit(d)) == Decimal(n) + [d]
  {
  }

  /** Every run of digits is zeros and a number. */
  lemma {:induction false} DigitsSpell(s: string) returns (k: nat)
    requires s != [] && Digits(s).Some?
    ensures Spells(s, k, Digits(s).value)
  {
    var init, d := s[..|s| - 1], s[|s| - 1];
    assert s == init + [d];
    if init == [] {
      k := 0;
    } else {
      k := DigitsSpell(init);
      var n := Digits(init).value;
      if n == 0 {
        ZerosSnoc(k);
        k := k + 1;
        assert s == Zeros(k) + Decimal(Digit(d));
      } else {
        DecimalSnoc(n, d);
      }
    }
  }

  lemma {:induction false} SpellingIsDigits(k: nat, n: nat)
    ensures Zeros(k) + Decimal(n) != "" && forall c <- Zeros(k) + Decimal(n) :: IsDigit(c)
  {
    if k > 0 {
      SpellingIsDigits(k - 1, n);
      assert Zeros(k) + Decimal(n) == "0" + (Zeros(k - 1) + Decimal(n));
    } else {
      DecimalDigits(n);
      assert Zeros(0) + Decimal(n) == Decimal(n);
    }
  }

  lemma SpellingIsPort(s: string, t: string, k: nat, n: nat)
    requires Spells(t, k, n) && (s == t || s == "+" + t)
    ensures Atoi(s) == Some(n)
  {
    hide Digits;
    SpellingIsDigits(k, n);
    DigitsOfSpelling(k, n);
    assert t[0] in t;
    assert s == "+" + t ==> s[1..] == t;
  }

  /** Exactly the texts that spell a number from 1 to 65535 are ports, with any leading zeros and an
      optional plus sign. */
  lemma PortExactlyWhen(s: string)
    ensures IsPort(s) <==>
            exists k: nat, n: nat :: 1 <= n <= 65535 && (Spells(s, k, n) || ("+" <= s && Spells(s[1..], k, n)))
  {
    hide Digits, Spells;
    if IsPort(s) {
      var unsigned := if s[0] == '+' || s[0] == '-' then s[1..] else s;
      var k := DigitsSpell(unsigned);
      assert Spells(unsigned, k, Atoi(s).value);
    }
    forall k: nat, n: nat | 1 <= n <= 65535 && (Spells(s, k, n) || ("+" <= s && Spells(s[1..], k, n)))
      ensures IsPort(s)
    {
      if Spells(s, k, n) {
        SpellingIsPort(s, s, k, n);
      } else {
        assert s == "+" + s[1..];
        SpellingIsPort(s, s[1..], k, n);
      }
    }
  }

  lemma DecimalIsPort(n: nat)
    ensures IsPort(Decimal(n)) <==> 1 <= n <= 65535
    ensures Decimal(n) != "" && forall c <- Decimal(n) :: IsDigit(c)
  {
    hide Digits, Atoi, Decimal;
    DecimalDigits(n);
    assert Zeros(0) + Decimal(n) == Decimal(n);
    SpellingIsPort(Decimal(n), Decimal(n), 0, n);
  }

  lemma OneColon(host: string, port: string, i: nat)
    requires ':' !in host && (forall c <- port :: IsDigit(c)) && i + 1 < |host + ":" + port|
    ensures !((host + ":" + port)[i] == ':' && (host + ":" + port)[i + 1] == '/')
  {
    var s := host + ":" + port;
    if i < |host| {
      assert s[i] in host;
    } else {
      assert s[i + 1] in port;
    }
  }

  /** A text of this form is not taken for one with a scheme. */
  lemma NumberedKeepsScheme(host: string, port: string, scheme: string)
    requires scheme == REDISS || scheme == REDIS
    requires port != "" && forall c <- port :: IsDigit(c)
    ensures ':' !in host ==> Strip(host + ":" + port, scheme) == host + ":" + port
    ensures Strip("[" + host + "]:" + port, scheme) == "[" + host + "]:" + port
  {
    var plain, bracketed := host + ":" + port, "[" + host + "]:" + port;
    if HasPrefix(ToLower(bracketed), scheme) {
      SchemeColon(bracketed, scheme);
    }
    if ':' !in host && |plain| >= |scheme| {
      OneColon(host, port, |scheme| - 3);
      if HasPrefix(ToLower(plain), scheme) {
        SchemeColon(plain, scheme);
      }
    }
  }

  /** For every host, with or without brackets: followed by a colon and the decimal digits of n it is
      accepted exactly if n is from 1 to 65535, and otherwise the port is blamed. */
  lemma NumberedAddress(host: string, n: nat)
    requires host != "" && '[' !in host && ']' !in host
    ensures ':' !in host ==>
              ValidateAddress(host + ":" + Decimal(n)) == if 1 <= n <= 65535 then None else Some(BadPort)
    ensures ValidateAddress("[" + host + "]:" + Decimal(n)) == if 1 <= n <= 65535 then None else Some(BadPort)
  {
    hide SplitHostPort, IsPort, Strip, Decimal;
    var port := Decimal(n);
    DecimalIsPort(n);
    NumberedKeepsScheme(host, port, REDISS);
    NumberedKeepsScheme(host, port, REDIS);
    SplitBracketed(host, port);
    if ':' !in host {
      SplitPlain(host, port);
    }
  }

  lemma NoColonKeepsScheme(s: string, scheme: string)
    requires scheme == REDISS || scheme == REDIS
    requires forall i :: 5 <= i <= 6 && i < |s| ==> s[i] != ':' || i + 1 == |s|
    ensures Strip(s, scheme) == s
  {
    if HasPrefix(ToLower(s), scheme) {
      SchemeColon(s, scheme);
    }
  }

  /** What is blamed when there is no port text or no host. */
  lemma HostAlone(host: string)
    requires ':' !in host && '[' !in host && ']' !in host
    ensures ValidateAddress(host) == Some(Malformed)
    ensures host != "" ==> ValidateAddress(host + ":") == Some(NoPort)
  {
    hide IsPort, Strip;
    forall i | 0 <= i < |host|
      ensures host[i] != ':' && (host + ":")[i] != ':'
    {
      assert host[i] in host;
    }
    NoColonKeepsScheme(host, REDISS);
    NoColonKeepsScheme(host, REDIS);
    NoColonKeepsScheme(host + ":", REDISS);
    NoColonKeepsScheme(host + ":", REDIS);
    if host != "" {
      SplitPlain(host, "");
      assert host + ":" + "" == host + ":";
    }
  }

  lemma PortAlone(n: nat)
    ensures ValidateAddress(":" + Decimal(n)) == Some(NoHost)
  {
    hide IsPort, Strip, Decimal;
    var port := Decimal(n);
    DecimalIsPort(n);
    NumberedKeepsScheme("", port, REDISS);
    NumberedKeepsScheme("", port, REDIS);
    assert "" + ":" + port == ":" + port;
    LastIndexUnique(":" + port, ':', 0);
    assert (":" + port)[1..] == port && (":" + port)[..0] == "";
  }

  /** In any letter case, exactly these nine characters. */
  lemma SecureSchemeExactly(s: string)
    ensures HasPrefix(ToLower(s), REDISS) <==>
            && |s| >= 9
            && s[0] in "rR" && s[1] in "eE" && s[2] in "dD" && s[3] in "iI" && s[4] in "sS" && s[5] in "sS"
            && s[6] == ':' && s[7] == '/' && s[8] == '/'
  {
    assert REDISS == ['r', 'e', 'd', 'i', 's', 's', ':', '/', '/'];
    if |s| >= 9 {
      var t := ToLower(s);
      assert HasPrefix(t, REDISS) <==> t[..9] == REDISS;
      assert t[..9] == [Lower(s[0]), Lower(s[1]), Lower(s[2]), Lower(s[3]), Lower(s[4]), Lower(s[5]), Lower(s[6]), Lower(s[7]), Lower(s[8])];
    }
  }

  /** White space is tab, line feed, vertical tab, form feed, carriage return and space. */
  lemma BlankExactlyWhen(s: string)
    ensures Blank(s) <==> forall c <- s :: 9 <= c as int <= 13 || c as int == 32
  {
  }

  /** What the client is given of an accepted address is free of the `rediss://` scheme. */
  lemma ValidAddressStripped(addr: string)
    requires ValidateAddress(addr).None?
    ensures HasPrefix(ToLower(addr), REDISS) <==> HasPrefix(addr, REDISS)
    ensures !HasPrefix(ToLower(Strip(addr, REDISS)), REDISS)
  {
    var s := Strip(addr, REDISS);
    ValidMeansHostPort(addr);
    StripExactly(s, REDIS);
    if HasPrefix(addr, REDISS) {
      PrefixInAnyCase(addr, REDISS);
    }
    NotBothSchemes(ToLower(s));
    if IsHostPort(s) {
      var host, port :| HostPort(s, host, port);
      if HasPrefix(ToLower(s), REDISS) {
        SchemeColon(s, REDISS);
        NoScheme(s, host, port, |REDISS| - 3);
      }
    } else {
      PrefixInAnyCase(s, REDIS);
    }
  }
}
