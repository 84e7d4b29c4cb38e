/** Helpers shared by every analyser and manager: an Option type, JavaScript's
    Math.round and Math.min/max on reals, sums and means of real sequences,
    and ASCII case mapping on strings. */
module Common {

  datatype Option<+T> = None | Some(value: T)

  /** Math.round: the nearest integer, halves rounded up. */
  function Round(x: real): (n: int)
    ensures x - 0.5 < n as real <= x + 0.5
  {
    (x + 0.5).Floor
  }

  function MinR(a: real, b: real): real { if a <= b then a else b }
  function MaxR(a: real, b: real): real { if a >= b then a else b }

  /** Math.max(lo, Math.min(hi, x)) */
  function ClampR(x: real, lo: real, hi: real): (r: real)
    requires lo <= hi
    ensures lo <= r <= hi
    ensures lo <= x <= hi ==> r == x
  {
    MaxR(lo, MinR(hi, x))
  }

  function AbsR(x: real): real { if x < 0.0 then -x else x }

  /** x², kept behind a function so that proofs see it as one term. */
  function Sq(x: real): real { x * x }

  lemma SqNonNegative(x: real)
    ensures Sq(x) >= 0.0
  {
    if x < 0.0 {
      MulNonNegReal(-x, -x);
    } else {
      MulNonNegReal(x, x);
    }
  }

  function MinI(a: int, b: int): int { if a <= b then a else b }
  function MaxI(a: int, b: int): int { if a >= b then a else b }

  /** Array.prototype.push followed by one shift() once the array holds more
      than `limit` entries: the newest `limit` entries survive, oldest first. */
  function PushShift<T>(s: seq<T>, x: T, limit: nat): (r: seq<T>)
    requires limit >= 1
    ensures |s| <= limit ==> |r| <= limit
    ensures |s| == limit ==> |r| == limit
    ensures |s| < limit ==> r == s + [x]
    ensures |r| > 0 && r[|r| - 1] == x
    ensures |s| >= limit ==> r == s[1..] + [x]
  {
    var pushed := s + [x];
    if |pushed| > limit then pushed[1..] else pushed
  }

  /** Left-to-right sum, written so that a loop over a prefix can keep `Sum(s[..i])`. */
  function Sum(s: seq<real>): real
  {
    if |s| == 0 then 0.0 else Sum(s[..|s| - 1]) + s[|s| - 1]
  }

  /** The arithmetic mean of a non-empty sequence (`reduce(+) / length`). */
  function Mean(s: seq<real>): real
    requires |s| > 0
  {
    Sum(s) / |s| as real
  }

  predicate AllNonNegative(s: seq<real>)
  {
    forall i :: 0 <= i < |s| ==> s[i] >= 0.0
  }

  lemma {:induction false} SumNonNegative(s: seq<real>)
    requires AllNonNegative(s)
    ensures Sum(s) >= 0.0
  {
    if |s| > 0 {
      SumNonNegative(s[..|s| - 1]);
    }
  }

  lemma {:induction false} SumAppend(s: seq<real>, x: real)
    ensures Sum(s + [x]) == Sum(s) + x
  {
    assert (s + [x])[..|s + [x]| - 1] == s;
  }

  lemma {:induction false} SumConcat(s: seq<real>, t: seq<real>)
    ensures Sum(s + t) == Sum(s) + Sum(t)
    decreases |t|
  {
    if |t| == 0 {
      assert s + t == s;
    } else {
      var t' := t[..|t| - 1];
      assert s + t == (s + t') + [t[|t| - 1]];
      SumAppend(s + t', t[|t| - 1]);
      SumConcat(s, t');
      assert t == t' + [t[|t| - 1]];
      SumAppend(t', t[|t| - 1]);
    }
  }

  lemma {:induction false} SumBoundedBy(s: seq<real>, c: real)
    requires forall i :: 0 <= i < |s| ==> s[i] <= c
    ensures Sum(s) <= |s| as real * c
  {
    if |s| > 0 {
      SumBoundedBy(s[..|s| - 1], c);
    }
  }

  lemma {:induction false} SumAtLeast(s: seq<real>, c: real)
    requires forall i :: 0 <= i < |s| ==> s[i] >= c
    ensures Sum(s) >= |s| as real * c
  {
    if |s| > 0 {
      SumAtLeast(s[..|s| - 1], c);
    }
  }

  /** A sum of non-negative entries bounds each entry. */
  lemma {:induction false} EntryAtMostSum(s: seq<real>, k: int)
    requires AllNonNegative(s) && 0 <= k < |s|
    ensures s[k] <= Sum(s)
  {
    SumNonNegative(s[..|s| - 1]);
    if k < |s| - 1 {
      EntryAtMostSum(s[..|s| - 1], k);
    }
  }

  /** A sum of non-negative entries is zero only if every entry is. */
  lemma ZeroSumAllZero(s: seq<real>)
    requires AllNonNegative(s) && Sum(s) == 0.0
    ensures forall i :: 0 <= i < |s| ==> s[i] == 0.0
  {
    forall i | 0 <= i < |s| ensures s[i] == 0.0 {
      EntryAtMostSum(s, i);
    }
  }

  /** String.prototype.toLowerCase on the ASCII letters. */
  function LowerChar(c: char): char
  {
    if 'A' <= c <= 'Z' then (c as int + 32) as char else c
  }

  function UpperChar(c: char): char
  {
    if 'a' <= c <= 'z' then (c as int - 32) as char else c
  }

  function Lower(s: string): (r: string)
    ensures |r| == |s|
    ensures forall i :: 0 <= i < |s| ==> r[i] == LowerChar(s[i])
  {
    seq(|s|, i requires 0 <= i < |s| => LowerChar(s[i]))
  }

  function Upper(s: string): (r: string)
    ensures |r| == |s|
    ensures forall i :: 0 <= i < |s| ==> r[i] == UpperChar(s[i])
  {
    seq(|s|, i requires 0 <= i < |s| => UpperChar(s[i]))
  }

  predicate IsLower(s: string)
  {
    forall i :: 0 <= i < |s| ==> !('A' <= s[i] <= 'Z')
  }

  lemma LowerIsLower(s: string)
    ensures IsLower(Lower(s))
  {
  }

  lemma LowerOfLower(s: string)
    requires IsLower(s)
    ensures Lower(s) == s
  {
  }

  lemma LowerConcat(s: string, t: string)
    ensures Lower(s + t) == Lower(s) + Lower(t)
  {
  }

  predicate EndsWith(s: string, suffix: string)
  {
    |suffix| <= |s| && s[|s| - |suffix|..] == suffix
  }

  lemma MulNonNegReal(a: real, b: real)
    requires a >= 0.0 && b >= 0.0
    ensures a * b >= 0.0
  {
  }

  /** Dividing by a positive number keeps the side of a bound. */
  lemma DivBounds(x: real, d: real, c: real)
    requires d > 0.0
    ensures x > c * d ==> x / d > c
    ensures x < c * d ==> x / d < c
    ensures x >= c * d ==> x / d >= c
    ensures x <= c * d ==> x / d <= c
  {
    var q := x / d;
    assert q * d == x;
    if q <= c {
      MulNonNegReal(c - q, d);
    }
    if q >= c {
      MulNonNegReal(q - c, d);
    }
  }

  lemma MulAtLeast(d: int, n: int)
    requires d >= 1 && n > 0
    ensures d * n >= n
  {
    assert d * n == (d - 1) * n + n;
  }

  /** Euclidean division is unique: the remainder is determined by any decomposition. */
  lemma ModUnique(a: int, n: int, q: int, r: int)
    requires n > 0 && 0 <= r < n && a == q * n + r
    ensures a % n == r
  {
    var q0, r0 := a / n, a % n;
    assert a == q0 * n + r0;
    var d := q0 - q;
    assert d * n == q0 * n - q * n;
    assert d * n == r - r0;
    if d >= 1 {
      MulAtLeast(d, n);
    } else if d <= -1 {
      assert (-d) * n == -(d * n);
      MulAtLeast(-d, n);
    }
  }

  lemma ModAddMultiple(a: int, q: int, n: int)
    requires n > 0
    ensures (a + q * n) % n == a % n
  {
    ModUnique(a + q * n, n, a / n + q, a % n);
  }

  lemma SmallMod(a: int, n: int)
    requires n > 0 && 0 <= a < 2 * n
    ensures a % n == if a < n then a else a - n
  {
    if a < n {
      ModUnique(a, n, 0, a);
    } else {
      ModUnique(a, n, 1, a - n);
    }
  }
}
