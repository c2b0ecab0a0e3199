/** Reading `connected_slaves:N` out of the text of INFO replication. */
module Info {
  import opened Prelude

  const KEY := "connected_slaves:"

  /** strings.Index: the first position at which the key occurs. */
  predicate OccursAt(text: string, key: string, i: nat) {
    i <= |text| && key <= text[i..]
  }

  predicate FirstAt(text: string, key: string, i: nat) {
    OccursAt(text, key, i) && forall j: nat :: j < i ==> !OccursAt(text, key, j)
  }

  method Index(text: string, key: string) returns (idx: int)
    ensures idx >= 0 ==> FirstAt(text, key, idx)
    ensures idx < 0 ==> idx == -1 && forall j: nat :: !OccursAt(text, key, j)
  {
    var i := 0;
    while i + |key| <= |text|
      invariant forall j: nat :: j < i ==> !OccursAt(text, key, j)
    {
      assert text[i..][..|key|] == text[i..i + |key|];
      if text[i..i + |key|] == key {
        return i;
      }
      i := i + 1;
    }
    return -1;
  }

  /** One step of the scan, in a 64-bit int. */
  function Shift(n: int, d: nat): int {
    Wrap64(Wrap64(n * 10) + d)
  }

  /** The value of a run of digits as the loop accumulates it. */
  function Accumulate(ds: string): int
    requires forall c <- ds :: IsDigit(c)
  {
    if ds == [] then 0 else Shift(Accumulate(ds[..|ds| - 1]), Digit(ds[|ds| - 1]))
  }

  /** The length of the run of digits at the front. */
  function DigitRun(rest: string): (k: nat)
    ensures k <= |rest|
    ensures forall c <- rest[..k] :: IsDigit(c)
    ensures k < |rest| ==> !IsDigit(rest[k])
  {
    if rest == [] || !IsDigit(rest[0]) then 0
    else
      var k := 1 + DigitRun(rest[1..]);
      assert rest[..k] == [rest[0]] + rest[1..][..k - 1];
      k
  }

  /** The loop over the digits. */
  method LeadingNumber(rest: string) returns (n: int)
    ensures n == Accumulate(rest[..DigitRun(rest)])
  {
    n := 0;
    var i := 0;
    while i < |rest| && IsDigit(rest[i])
      invariant 0 <= i <= |rest|
      invariant forall c <- rest[..i] :: IsDigit(c)
      invariant n == Accumulate(rest[..i])
    {
      assert rest[..i + 1] == rest[..i] + [rest[i]];
      assert rest[..i + 1][..i] == rest[..i];
      n := Wrap64(Wrap64(n * 10) + Digit(rest[i]));
      i := i + 1;
    }
    RunUnique(rest, i);
  }

  method ConnectedSlaves(info: string) returns (r: Option<int>)
    ensures r.None? <==> forall j :: 0 <= j <= |info| ==> !("connected_slaves:" <= info[j..])
    ensures forall idx: nat | idx <= |info| && "connected_slaves:" <= info[idx..]
                              && (forall j :: 0 <= j < idx ==> !("connected_slaves:" <= info[j..])) ::
              var rest := info[idx + 17..];
              r == Some(Accumulate(rest[..DigitRun(rest)]))
  {
    hide KEY, OccursAt, Accumulate, DigitRun;
    var idx := Index(info, KEY);
    KeyIs(info);
    if idx < 0 {
      return None;
    }
    FirstUnique(info, KEY, idx);
    var n := LeadingNumber(info[idx + |KEY|..]);
    return Some(n);
  }

  lemma KeyIs(info: string)
    ensures |KEY| == 17
    ensures forall j: nat :: OccursAt(info, KEY, j) <==> j <= |info| && "connected_slaves:" <= info[j..]
  {
  }

  lemma FirstUnique(text: string, key: string, i: nat)
    requires FirstAt(text, key, i)
    ensures forall j: nat :: FirstAt(text, key, j) ==> j == i
  {
  }

  lemma RunUnique(rest: string, k: nat)
    requires k <= |rest| && (forall c <- rest[..k] :: IsDigit(c)) && (k < |rest| ==> !IsDigit(rest[k]))
    ensures DigitRun(rest) == k
  {
    var r := DigitRun(rest);
  }

  // ---------- the round trip ----------

  /** Wrapping may be put off to the end. */
  lemma ShiftWraps(m: int, d: nat)
    ensures Shift(Wrap64(m), d) == Wrap64(10 * m + d)
  {
    var k := (m + TWO_TO_63) / TWO_TO_64;
    assert Wrap64(m) == m - k * TWO_TO_64;
    var t := 10 * Wrap64(m);
    var j := (t + TWO_TO_63) / TWO_TO_64;
    assert Wrap64(t) == t - j * TWO_TO_64;
    WrapPeriodic(10 * m + d, -(10 * k + j));
  }

  lemma WrapPeriodic(x: int, k: int)
    ensures Wrap64(x + k * TWO_TO_64) == Wrap64(x)
  {
    var q := (x + TWO_TO_63) / TWO_TO_64;
    var q' := (x + k * TWO_TO_64 + TWO_TO_63) / TWO_TO_64;
    assert 0 <= x + TWO_TO_63 - q * TWO_TO_64 < TWO_TO_64;
    assert 0 <= x + k * TWO_TO_64 + TWO_TO_63 - q' * TWO_TO_64 < TWO_TO_64;
    assert q' == q + k;
  }

  lemma {:induction false} DecimalAccumulates(n: nat)
    ensures (forall c <- Decimal(n) :: IsDigit(c)) && Accumulate(Decimal(n)) == Wrap64(n)
  {
    DecimalDigits(n);
    var ds := Decimal(n);
    var init := ds[..|ds| - 1];
    if n < 10 {
      assert init == [];
    } else {
      DecimalAccumulates(n / 10);
      assert init == Decimal(n / 10);
      ShiftWraps(n / 10, n % 10);
    }
  }

  lemma WrapExact(n: nat)
    ensures Wrap64(n) == n <==> n < TWO_TO_63
  {
  }

  lemma ScanOfDecimal(n: nat, rest: string)
    requires rest == "" || !IsDigit(rest[0])
    ensures var tail := Decimal(n) + rest;
            && Accumulate(tail[..DigitRun(tail)]) == Wrap64(n)
            && (Wrap64(n) == n <==> n < TWO_TO_63)
  {
    hide Decimal, Accumulate, Wrap64, DigitRun;
    var tail := Decimal(n) + rest;
    WrapExact(n);
    DecimalAccumulates(n);
    assert tail[..|Decimal(n)|] == Decimal(n);
    RunUnique(tail, |Decimal(n)|);
  }

  /** Reading inverts writing: where the key first occurs right after `pre`, is followed by the decimal
      digits of n and then by no further digit, the scan yields n wrapped to 64 bits, which is n exactly
      if n is in int range. */
  method RoundTrip(pre: string, n: nat, rest: string) returns (r: Option<int>)
    requires forall j :: 0 <= j < |pre| ==> !("connected_slaves:" <= (pre + "connected_slaves:" + Decimal(n) + rest)[j..])
    requires rest == "" || !('0' <= rest[0] <= '9')
    ensures r == Some(Wrap64(n))
    ensures r == Some(n) <==> n < TWO_TO_63
  {
    hide Decimal, Accumulate, DigitRun, Wrap64;
    var key := "connected_slaves:";
    KeyFollows(pre, key, Decimal(n), rest);
    ScanOfDecimal(n, rest);
    r := ConnectedSlaves(pre + key + Decimal(n) + rest);
  }

  lemma KeyFollows(pre: string, key: string, digits: string, rest: string)
    ensures var text := pre + key + digits + rest;
            key <= text[|pre|..] && text[|pre| + |key|..] == digits + rest
  {
    assert pre + key + digits + rest == pre + (key + (digits + rest));
    assert (pre + (key + (digits + rest)))[|pre|..] == key + (digits + rest);
  }
}
