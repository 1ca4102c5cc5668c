/** Shared vocabulary: optional values and the way every service treats an
    optional query parameter (Python truthiness: None and "" switch a filter off). */
module Common {

  datatype Option<+T> = None | Some(value: T)

  /** `if param:` on an optional string parameter. */
  predicate Given(f: Option<string>) {
    f.Some? && f.value != ""
  }

  /** An equality filter on one field that applies only when its parameter is given. */
  predicate Passes(f: Option<string>, field: string) {
    !Given(f) || f.value == field
  }

  /** No key occurs twice in a sequence of keys. */
  predicate Distinct<K(==)>(ks: seq<K>) {
    forall i, j :: 0 <= i < j < |ks| ==> ks[i] != ks[j]
  }

  /** Python's `s[:n]` for a non-negative `n`. */
  function Take<T>(s: seq<T>, n: nat): (r: seq<T>)
    ensures |r| == (if n < |s| then n else |s|)
    ensures r <= s
  {
    if n < |s| then s[..n] else s
  }

  /** `s.split("@")[0]`: everything before the first `@`. */
  function LocalPart(s: string): (r: string)
    ensures r <= s && '@' !in r
    ensures |r| < |s| ==> s[|r|] == '@'
  {
    if s == [] || s[0] == '@' then [] else [s[0]] + LocalPart(s[1..])
  }

  function Pow10(k: nat): (p: nat)
    ensures p >= 1
  {
    if k == 0 then 1 else 10 * Pow10(k - 1)
  }

  predicate IsDigits(s: string) {
    forall i :: 0 <= i < |s| ==> '0' <= s[i] <= '9'
  }

  /** The last `k` decimal digits of `n`, most significant first, zero-padded. */
  function Digits(n: nat, k: nat): (s: string)
    ensures |s| == k && IsDigits(s)
  {
    if k == 0 then [] else Digits(n / 10, k - 1) + [('0' as int + n % 10) as char]
  }

  /** The number a string of decimal digits denotes. */
  function DigitsValue(s: string): nat
    requires IsDigits(s)
  {
    if s == [] then 0 else 10 * DigitsValue(s[..|s| - 1]) + (s[|s| - 1] as int - '0' as int)
  }

  /** Reading the digits back gives `n` modulo `10^k`: padding loses nothing but the
      digits beyond the `k`-th. */
  lemma {:induction false} DigitsRoundTrip(n: nat, k: nat)
    ensures DigitsValue(Digits(n, k)) == n % Pow10(k)
  {
    if k > 0 {
      var s := Digits(n, k);
      assert s[..|s| - 1] == Digits(n / 10, k - 1);
      assert s[|s| - 1] as int - '0' as int == n % 10;
      DigitsRoundTrip(n / 10, k - 1);
      ModSplit(n, Pow10(k - 1));
      assert Pow10(k) == 10 * Pow10(k - 1);
    }
  }

  lemma ModSplit(n: nat, p: nat)
    requires p >= 1
    ensures n % (10 * p) == 10 * ((n / 10) % p) + n % 10
  {
    var q := n / 10;
    var b := q % p;
    assert q == p * (q / p) + b;
    assert n == (10 * p) * (q / p) + (10 * b + n % 10);
    ModUnique(n, 10 * p, q / p, 10 * b + n % 10);
  }

  /** The remainder is determined by any decomposition with an in-range remainder. */
  lemma ModUnique(n: int, d: int, a: int, c: int)
    requires d >= 1 && 0 <= c < d && n == d * a + c
    ensures n % d == c
  {
    var x := n / d - a;
    assert d * x == c - n % d;
    assert x >= 1 ==> d * x >= d * 1;
    assert x <= -1 ==> d * x <= d * -1;
  }

  lemma ModOfSmaller(n: nat, p: nat)
    requires n < p
    ensures n % p == n
  {
  }
}
