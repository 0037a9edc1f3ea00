/**
 * The string operations of JavaScript that the dashboard relies on, over `seq<char>`:
 * `includes`, `toLowerCase` (ASCII letters only), decimal rendering of a non-negative
 * integer, `slice(-n)`, `padStart` and single-character `replace`.
 */
module Text {

  /** True when `sub` occurs in `s` starting at index `i`. */
  predicate OccursAt(s: string, sub: string, i: nat)
  {
    i + |sub| <= |s| && s[i..i + |sub|] == sub
  }

  /** JavaScript `s.includes(sub)`. */
  function Contains(s: string, sub: string): bool
    decreases |s|
  {
    if |sub| > |s| then false
    else if s[..|sub|] == sub then true
    else Contains(s[1..], sub)
  }

  lemma OccursAtShift(s: string, sub: string, i: nat)
    requires |s| > 0
    ensures OccursAt(s[1..], sub, i) <==> OccursAt(s, sub, i + 1)
  {
    if i + 1 + |sub| <= |s| {
      assert s[1..][i..i + |sub|] == s[i + 1..i + 1 + |sub|];
    }
  }

  /** `Contains` is exactly "occurs at some position". */
  lemma {:induction false} ContainsSpec(s: string, sub: string)
    ensures Contains(s, sub) <==> exists i: nat :: OccursAt(s, sub, i)
    decreases |s|
  {
    if |sub| > |s| {
    } else if s[..|sub|] == sub {
      assert OccursAt(s, sub, 0);
    } else {
      ContainsSpec(s[1..], sub);
      if Contains(s, sub) {
        var i: nat :| OccursAt(s[1..], sub, i);
        OccursAtShift(s, sub, i);
      } else {
        forall i: nat ensures !OccursAt(s, sub, i) {
          if i > 0 {
            OccursAtShift(s, sub, i - 1);
          }
        }
      }
    }
  }

  /** A hit at a known position makes `Contains` true. */
  lemma ContainsAt(s: string, sub: string, i: nat)
    requires OccursAt(s, sub, i)
    ensures Contains(s, sub)
  {
    ContainsSpec(s, sub);
  }

  /** `Contains` of a text that is a prefix plus the rest. */
  lemma ContainsInfix(a: string, sub: string, b: string)
    ensures Contains(a + sub + b, sub)
  {
    assert (a + sub + b)[|a|..|a| + |sub|] == sub;
    ContainsAt(a + sub + b, sub, |a|);
  }

  lemma {:induction false} NotContainsChar(s: string, c: char)
    requires forall i :: 0 <= i < |s| ==> s[i] != c
    ensures !Contains(s, [c])
  {
    ContainsSpec(s, [c]);
    forall i: nat ensures !OccursAt(s, [c], i) {
      if i + 1 <= |s| {
        assert s[i..i + 1][0] == s[i];
      }
    }
  }

  /** JavaScript `toLowerCase` on one character; letters outside A-Z are kept. */
  function LowerChar(c: char): char
  {
    if 'A' <= c <= 'Z' then (c as int + 32) as char else c
  }

  /** JavaScript `s.toLowerCase()` restricted to ASCII upper-case letters. */
  function ToLower(s: string): (r: string)
    ensures |r| == |s|
    ensures forall i :: 0 <= i < |s| ==> r[i] == LowerChar(s[i])
  {
    seq(|s|, i requires 0 <= i < |s| => LowerChar(s[i]))
  }

  predicate IsDigit(c: char)
  {
    '0' <= c <= '9'
  }

  function DigitChar(d: nat): (c: char)
    requires d < 10
    ensures IsDigit(c)
  {
    (d + '0' as int) as char
  }

  function DigitValue(c: char): nat
  {
    if IsDigit(c) then c as int - '0' as int else 0
  }

  /** JavaScript `String(n)` for a non-negative integer: decimal, no leading zeros. */
  function NatToString(n: nat): string
    decreases n
  {
    if n < 10 then [DigitChar(n)] else NatToString(n / 10) + [DigitChar(n % 10)]
  }

  /** Reads a decimal digit string back (the reverse of `NatToString`). */
  function ParseNat(s: string): nat
    decreases |s|
  {
    if s == [] then 0 else 10 * ParseNat(s[..|s| - 1]) + DigitValue(s[|s| - 1])
  }

  predicate AllDigits(s: string)
  {
    forall i :: 0 <= i < |s| ==> IsDigit(s[i])
  }

  function Pow10(k: nat): (p: nat)
    ensures p > 0
  {
    if k == 0 then 1 else 10 * Pow10(k - 1)
  }

  /** Decimal rendering round-trips and needs exactly as many digits as the size of `n` says. */
  lemma {:induction false} NatToStringFacts(n: nat)
    ensures AllDigits(NatToString(n)) && |NatToString(n)| >= 1
    ensures ParseNat(NatToString(n)) == n
    ensures n < Pow10(|NatToString(n)|)
    ensures |NatToString(n)| > 1 ==> Pow10(|NatToString(n)| - 1) <= n
    decreases n
  {
    var s := NatToString(n);
    if n < 10 {
      assert s == [DigitChar(n)];
      assert s[..0] == [];
    } else {
      NatToStringFacts(n / 10);
      var p := NatToString(n / 10);
      assert s == p + [DigitChar(n % 10)];
      assert s[..|s| - 1] == p;
      assert |s| == |p| + 1;
      assert Pow10(|s|) == 10 * Pow10(|p|);
      if |p| > 1 {
        assert Pow10(|s| - 1) == 10 * Pow10(|p| - 1);
      }
    }
  }

  /** A number with at least `k` digits is at least 10^(k-1), and conversely. */
  lemma NatToStringLength(n: nat, k: nat)
    requires k >= 2
    ensures |NatToString(n)| >= k <==> n >= Pow10(k - 1)
  {
    NatToStringFacts(n);
    var m := |NatToString(n)|;
    if m >= k {
      if m > 1 { Pow10Monotone(k - 1, m - 1); }
    } else {
      Pow10Monotone(m, k - 1);
    }
  }

  lemma {:induction false} Pow10Monotone(a: nat, b: nat)
    requires a <= b
    ensures Pow10(a) <= Pow10(b)
    decreases b
  {
    if a < b { Pow10Monotone(a, b - 1); }
  }

  /** JavaScript `s.slice(-n)` for `n > 0`: the last `n` characters, or all of `s`. */
  function TakeLast(s: string, n: nat): (r: string)
    ensures |r| == if n < |s| then n else |s|
    ensures r == s[|s| - |r|..]
  {
    if n < |s| then s[|s| - n..] else s
  }

  function Repeat(c: char, n: nat): (r: string)
    ensures |r| == n && forall i :: 0 <= i < n ==> r[i] == c
  {
    seq(n, _ => c)
  }

  /** JavaScript `s.padStart(n, c)`. */
  function PadStart(s: string, n: nat, c: char): (r: string)
    ensures |r| == if |s| < n then n else |s|
    ensures r[|r| - |s|..] == s
    ensures forall i :: 0 <= i < |r| - |s| ==> r[i] == c
  {
    if |s| < n then Repeat(c, n - |s|) + s else s
  }

  /** JavaScript `s.replace(a, b)` with one-character strings: only the first `a` is replaced. */
  function ReplaceFirst(s: string, a: char, b: char): (r: string)
    ensures |r| == |s|
    ensures forall i :: 0 <= i < |s| && (forall j :: 0 <= j < i ==> s[j] != a) ==>
      r[i] == (if s[i] == a then b else s[i])
    ensures forall i :: 0 <= i < |s| && (exists j :: 0 <= j < i && s[j] == a) ==> r[i] == s[i]
  {
    if s == [] then []
    else if s[0] == a then [b] + s[1..]
    else [s[0]] + ReplaceFirst(s[1..], a, b)
  }

  /** Leading zeros do not change the value ParseNat reads. */
  lemma {:induction false} ParseNatZeros(z: nat, s: string)
    ensures ParseNat(Repeat('0', z) + s) == ParseNat(s)
    decreases |s|
  {
    var zs := Repeat('0', z);
    if s == [] {
      assert zs + s == zs;
      ParseNatOfZeros(z);
    } else {
      var init := s[..|s| - 1];
      assert (zs + s)[..|zs + s| - 1] == zs + init;
      ParseNatZeros(z, init);
    }
  }

  lemma {:induction false} ParseNatOfZeros(z: nat)
    ensures ParseNat(Repeat('0', z)) == 0
  {
    if z > 0 {
      assert Repeat('0', z)[..z - 1] == Repeat('0', z - 1);
      ParseNatOfZeros(z - 1);
    }
  }

  /** The last `k` decimal digits of `n` read back as `n % 10^k`. */
  lemma {:induction false} ParseLastDigits(n: nat, k: nat)
    requires |NatToString(n)| >= k
    ensures ParseNat(TakeLast(NatToString(n), k)) == n % Pow10(k)
    decreases k
  {
    if k == 0 || n < 10 {
      ParseLastDigitsBase(n, k);
    } else {
      ParseLastDigitsLength(n);
      ParseLastDigits(n / 10, k - 1);
      ParseLastDigitsStep(n, k);
    }
  }

  lemma ParseLastDigitsLength(n: nat)
    requires n >= 10
    ensures |NatToString(n)| == |NatToString(n / 10)| + 1
  {
  }

  lemma ParseLastDigitsBase(n: nat, k: nat)
    requires |NatToString(n)| >= k
    requires k == 0 || n < 10
    ensures ParseNat(TakeLast(NatToString(n), k)) == n % Pow10(k)
  {
    if k == 0 {
      assert TakeLast(NatToString(n), 0) == [];
      assert Pow10(0) == 1;
    } else {
      assert NatToString(n) == [DigitChar(n)];
      assert k == 1;
      assert TakeLast(NatToString(n), k) == NatToString(n);
      assert Pow10(1) == 10 by { assert Pow10(0) == 1; }
      assert ParseNat([DigitChar(n)]) == DigitValue(DigitChar(n)) by {
        assert [DigitChar(n)][..0] == [];
      }
    }
  }

  lemma ParseLastDigitsStep(n: nat, k: nat)
    requires n >= 10 && k >= 1 && |NatToString(n / 10)| >= k - 1
    requires ParseNat(TakeLast(NatToString(n / 10), k - 1)) == (n / 10) % Pow10(k - 1)
    ensures ParseNat(TakeLast(NatToString(n), k)) == n % Pow10(k)
  {
    var p := NatToString(n / 10);
    var x := DigitChar(n % 10);
    var t := TakeLast(p, k - 1);
    var q := Pow10(k - 1);
    NatToStringSnoc(n);
    TakeLastSnoc(p, x, k);
    ParseNatSnoc(t, x);
    DigitRoundTrip(n % 10);
    Pow10Step(k);
    ModDecompose(n, q);
  }

  lemma NatToStringSnoc(n: nat)
    requires n >= 10
    ensures NatToString(n) == NatToString(n / 10) + [DigitChar(n % 10)]
  {
  }

  lemma DigitRoundTrip(d: nat)
    requires d < 10
    ensures DigitValue(DigitChar(d)) == d
  {
  }

  lemma Pow10Step(k: nat)
    requires k >= 1
    ensures Pow10(k) == 10 * Pow10(k - 1)
  {
  }

  lemma TakeLastSnoc(p: string, x: char, k: nat)
    requires k >= 1
    ensures TakeLast(p + [x], k) == TakeLast(p, k - 1) + [x]
  {
  }

  lemma ParseNatSnoc(t: string, x: char)
    ensures ParseNat(t + [x]) == 10 * ParseNat(t) + DigitValue(x)
  {
    assert (t + [x])[..|t|] == t;
  }

  lemma ModDecompose(n: nat, q: nat)
    requires q > 0
    ensures n % (10 * q) == 10 * ((n / 10) % q) + n % 10
  {
    var a := n / 10;
    var d := n % 10;
    var b := a / q;
    var c := a % q;
    assert a == q * b + c;
    assert n == 10 * a + d;
    MulAssoc(10, q, b);
    assert n == (10 * q) * b + (10 * c + d);
    assert 10 * c + d < 10 * q by { assert c <= q - 1; }
    ModUnique(n, 10 * q, b, 10 * c + d);
  }

  lemma MulAssoc(x: int, y: int, z: int)
    ensures x * (y * z) == (x * y) * z
  {
  }

  /** Euclidean division has one quotient and one remainder. */
  lemma ModUnique(n: int, m: int, b: int, r: int)
    requires m > 0 && 0 <= r < m && n == m * b + r
    ensures n % m == r
  {
    var q := n / m;
    var s := n % m;
    assert m * (q - b) == r - s;
    if q > b {
      MulAtLeast(m, q - b);
    } else if q < b {
      MulAtLeast(m, b - q);
    }
  }

  lemma MulAtLeast(m: int, k: int)
    requires m > 0 && k >= 1
    ensures m * k >= m
  {
  }
}
