/**
  Candles and the column arithmetic the scripts do on them: window minima
  and maxima, sums and means, and Python's negative slicing.
*/
module Candles {

  /** One kline row, oldest first once busca_velas has reversed the list. */
  datatype Candle = Candle(openTime: int, open: real, high: real, low: real, close: real, volume: real)

  /** What the exchange guarantees of a kline: the low and the high bound
      the open and the close. */
  predicate WellFormed(c: Candle) {
    c.low <= c.open <= c.high && c.low <= c.close <= c.high
  }

  predicate AllWellFormed(cs: seq<Candle>) {
    forall i :: 0 <= i < |cs| ==> WellFormed(cs[i])
  }

  function Min(s: seq<real>): (m: real)
    requires |s| > 0
    ensures m in s
    ensures forall i :: 0 <= i < |s| ==> m <= s[i]
    decreases |s|
  {
    if |s| == 1 then s[0]
    else
      var rest := Min(s[1..]);
      if s[0] <= rest then s[0] else rest
  }

  function Max(s: seq<real>): (m: real)
    requires |s| > 0
    ensures m in s
    ensures forall i :: 0 <= i < |s| ==> s[i] <= m
    decreases |s|
  {
    if |s| == 1 then s[0]
    else
      var rest := Max(s[1..]);
      if s[0] >= rest then s[0] else rest
  }

  function Sum(s: seq<real>): real
    decreases |s|
  {
    if s == [] then 0.0 else Sum(s[..|s| - 1]) + s[|s| - 1]
  }

  /** A sum of non-negative terms is non-negative. */
  lemma {:induction false} SumNonNegative(s: seq<real>)
    requires forall i :: 0 <= i < |s| ==> s[i] >= 0.0
    ensures Sum(s) >= 0.0
    decreases |s|
  {
    if s != [] {
      SumNonNegative(s[..|s| - 1]);
    }
  }

  function Mean(s: seq<real>): real
    requires |s| > 0
  {
    Sum(s) / |s| as real
  }

  /** A sum of n terms in [lo, hi] lies in [n * lo, n * hi]. */
  lemma {:induction false} SomaEntre(s: seq<real>, lo: real, hi: real)
    requires forall i :: 0 <= i < |s| ==> lo <= s[i] <= hi
    ensures |s| as real * lo <= Sum(s) <= |s| as real * hi
    decreases |s|
  {
    if s != [] {
      SomaEntre(s[..|s| - 1], lo, hi);
      var n := (|s| - 1) as real;
      assert |s| as real * lo == n * lo + lo;
      assert |s| as real * hi == n * hi + hi;
    }
  }

  /** A mean of values in [lo, hi] is in [lo, hi]. */
  lemma MediaEntre(s: seq<real>, lo: real, hi: real)
    requires |s| > 0
    requires forall x :: x in s ==> lo <= x <= hi
    ensures lo <= Mean(s) <= hi
  {
    assert forall i :: 0 <= i < |s| ==> s[i] in s;
    SomaEntre(s, lo, hi);
    QuocienteEntre(Sum(s), |s| as real, lo, hi);
  }

  /** Dividing a total in [n * lo, n * hi] by n > 0 lands in [lo, hi]. */
  lemma QuocienteEntre(total: real, n: real, lo: real, hi: real)
    requires n > 0.0 && n * lo <= total <= n * hi
    ensures lo <= total / n <= hi
  {
    var m := total / n;
    assert m * n == total;
    if m < lo {
      ProdutoMenor(m, lo, n);
    }
    if hi < m {
      ProdutoMenor(hi, m, n);
    }
  }

  /** Multiplying by a positive factor keeps a strict order. */
  lemma ProdutoMenor(a: real, b: real, n: real)
    requires a < b && n > 0.0
    ensures a * n < b * n
  {
    assert b * n - a * n == (b - a) * n;
  }

  /** s[-a:-b] in Python, for b <= a: the rows from the a-th last up to,
      and not including, the b-th last; shorter when s has fewer rows. */
  function NegSlice<T>(s: seq<T>, a: nat, b: nat): (r: seq<T>)
    requires b <= a
    ensures |s| >= a ==> |r| == a - b
    ensures |s| >= a ==> forall i :: 0 <= i < |r| ==> r[i] == s[|s| - a + i]
    ensures b < a && b < |s| ==> 0 < |r| && r[|r| - 1] == s[|s| - b - 1]
    ensures forall i :: 0 <= i < |r| ==> r[i] in s
  {
    var lo := if |s| >= a then |s| - a else 0;
    var hi := if |s| >= b then |s| - b else 0;
    s[lo..hi]
  }

  /** s[-a:] in Python. */
  function Tail<T>(s: seq<T>, a: nat): (r: seq<T>)
    ensures |r| == if |s| >= a then a else |s|
    ensures forall i :: 0 <= i < |r| ==> r[i] == s[|s| - |r| + i]
  {
    if |s| >= a then s[|s| - a..] else s
  }

  /** s[::-1] in Python. */
  function Reversed<T>(s: seq<T>): (r: seq<T>)
    ensures |r| == |s|
    ensures forall i :: 0 <= i < |s| ==> r[i] == s[|s| - 1 - i]
  {
    seq(|s|, i requires 0 <= i < |s| => s[|s| - 1 - i])
  }

  /** Reversing twice gives the list back. */
  lemma ReversedTwice<T>(s: seq<T>)
    ensures Reversed(Reversed(s)) == s
  {
    assert forall i :: 0 <= i < |s| ==> Reversed(Reversed(s))[i] == s[i];
  }

  function Lows(cs: seq<Candle>): (r: seq<real>)
    ensures |r| == |cs| && forall i :: 0 <= i < |cs| ==> r[i] == cs[i].low
  {
    seq(|cs|, i requires 0 <= i < |cs| => cs[i].low)
  }

  function Highs(cs: seq<Candle>): (r: seq<real>)
    ensures |r| == |cs| && forall i :: 0 <= i < |cs| ==> r[i] == cs[i].high
  {
    seq(|cs|, i requires 0 <= i < |cs| => cs[i].high)
  }

  function Closes(cs: seq<Candle>): (r: seq<real>)
    ensures |r| == |cs| && forall i :: 0 <= i < |cs| ==> r[i] == cs[i].close
  {
    seq(|cs|, i requires 0 <= i < |cs| => cs[i].close)
  }

  function Volumes(cs: seq<Candle>): (r: seq<real>)
    ensures |r| == |cs| && forall i :: 0 <= i < |cs| ==> r[i] == cs[i].volume
  {
    seq(|cs|, i requires 0 <= i < |cs| => cs[i].volume)
  }

  /** The lowest low of a window that contains a candle is at most that
      candle's low, hence at most its high: a stop placed there is never
      above an entry taken at that candle's high. */
  lemma WindowLowBelowMember(cs: seq<Candle>, k: nat)
    requires k < |cs| && WellFormed(cs[k])
    ensures Min(Lows(cs)) <= cs[k].low <= cs[k].high
  {
  }

  lemma WindowHighAboveMember(cs: seq<Candle>, k: nat)
    requires k < |cs| && WellFormed(cs[k])
    ensures Max(Highs(cs)) >= cs[k].high >= cs[k].low
  {
  }
}
