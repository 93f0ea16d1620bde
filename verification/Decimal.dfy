/** Decimal rendering of counters and record numbers, as `fmt.Sprintf("%d", n)` writes them and
    `fmt.Sscanf(s, "%d", &n)` reads them back. */
module Decimal {
  import opened Options

  predicate IsDigit(c: char) {
    '0' <= c <= '9'
  }

  predicate AllDigits(s: string) {
    forall i :: 0 <= i < |s| ==> IsDigit(s[i])
  }

  function Dec(n: nat): (s: string)
    ensures |s| > 0 && AllDigits(s)
  {
    var last := ['0' + (n % 10) as char];
    if n < 10 then last else Dec(n / 10) + last
  }

  function Value(s: string): nat
    requires AllDigits(s)
  {
    if s == [] then 0 else Value(s[..|s| - 1]) * 10 + (s[|s| - 1] - '0') as nat
  }

  lemma {:induction false} ValueDec(n: nat)
    ensures Value(Dec(n)) == n
  {
    if n >= 10 {
      var s := Dec(n);
      assert s[..|s| - 1] == Dec(n / 10);
      ValueDec(n / 10);
    }
  }

  lemma DecInjective(m: nat, n: nat)
    requires Dec(m) == Dec(n)
    ensures m == n
  {
    ValueDec(m);
    ValueDec(n);
  }

  /** The most significant digit comes first. */
  lemma DecForInstance()
    ensures Dec(0) == "0" && Dec(7) == "7" && Dec(120) == "120"
  {
    assert Dec(1) == "1" && Dec(12) == "1" + "2" && Dec(120) == "12" + "0";
  }

  /** Number of leading digits. */
  function DigitRun(s: string): (k: nat)
    ensures k <= |s| && AllDigits(s[..k])
    ensures k < |s| ==> !IsDigit(s[k])
  {
    if s == [] || !IsDigit(s[0]) then 0 else 1 + DigitRun(s[1..])
  }

  /** Scanning stops at the first non-digit and fails when there is none to read. */
  function Scan(s: string): Option<nat> {
    var k := DigitRun(s);
    if k == 0 then None else Some(Value(s[..k]))
  }

  lemma ScanDec(n: nat)
    ensures Scan(Dec(n)) == Some(n)
  {
    var s := Dec(n);
    assert s[..|s|] == s;
    ValueDec(n);
  }

  /** A text ending in a dash and a decimal splits in one way only, because decimals hold no dash. */
  lemma LastDashSplits(a: string, m: nat, b: string, n: nat)
    requires a + "-" + Dec(m) == b + "-" + Dec(n)
    ensures a == b && m == n
  {
    var x, y := a + "-" + Dec(m), b + "-" + Dec(n);
    assert x[|a|] == '-' && y[|b|] == '-';
    assert forall i :: |a| < i < |x| ==> x[i] == Dec(m)[i - |a| - 1];
    assert forall i :: |b| < i < |y| ==> y[i] == Dec(n)[i - |b| - 1];
    assert |a| == |b|;
    assert a == x[..|a|] && b == y[..|b|];
    assert Dec(m) == x[|a| + 1..] && Dec(n) == y[|b| + 1..];
    DecInjective(m, n);
  }
}
