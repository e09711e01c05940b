/**
  The orderings the analysers take from sorted(), Series.nlargest and
  Series.nsmallest: a stable sort by a real key and its first k elements.
*/
module Ordenacao {
  /** s is in ascending order of key. */
  predicate OrdenadaPor<T>(s: seq<T>, key: T -> real) {
    forall i, j :: 0 <= i < j < |s| ==> key(s[i]) <= key(s[j])
  }

  /** Inserts x before the first element whose key is not below its own. */
  function Insere<T(==)>(x: T, s: seq<T>, key: T -> real): (r: seq<T>)
    ensures multiset(r) == multiset(s) + multiset{x}
    decreases |s|
  {
    if s == [] then [x]
    else if key(x) <= key(s[0]) then [x] + s
    else
      assert s == [s[0]] + s[1..];
      [s[0]] + Insere(x, s[1..], key)
  }

  lemma {:induction false} InsereOrdena<T>(x: T, s: seq<T>, key: T -> real)
    requires OrdenadaPor(s, key)
    ensures OrdenadaPor(Insere(x, s, key), key)
    decreases |s|
  {
    if s != [] && key(x) > key(s[0]) {
      var resto := Insere(x, s[1..], key);
      InsereOrdena(x, s[1..], key);
      CabecaAbaixo(x, s, key);
      var r := Insere(x, s, key);
      assert r == [s[0]] + resto;
      forall i, j | 0 <= i < j < |r|
        ensures key(r[i]) <= key(r[j])
      {
        if i == 0 {
          assert r[j] == resto[j - 1];
          assert resto[j - 1] in resto;
        } else {
          assert r[i] == resto[i - 1] && r[j] == resto[j - 1];
        }
      }
    }
  }

  /** Inserting an element with a larger key than the head of a sorted
      sequence into its tail leaves only keys at or above the head's. */
  lemma CabecaAbaixo<T>(x: T, s: seq<T>, key: T -> real)
    requires OrdenadaPor(s, key) && s != [] && key(x) > key(s[0])
    ensures forall y :: y in Insere(x, s[1..], key) ==> key(s[0]) <= key(y)
  {
    var resto := Insere(x, s[1..], key);
    forall y | y in resto
      ensures key(s[0]) <= key(y)
    {
      assert y in multiset(resto);
      if y != x {
        assert y in multiset(s[1..]);
        var j :| 0 <= j < |s[1..]| && s[1..][j] == y;
        assert s[j + 1] == y;
      }
    }
  }

  /** A stable insertion sort: the order of sorted(), and the order
      nlargest and nsmallest return their rows in. */
  function OrdenaPor<T(==)>(xs: seq<T>, key: T -> real): (r: seq<T>)
    ensures multiset(r) == multiset(xs)
    ensures |r| == |xs|
    decreases |xs|
  {
    if xs == [] then []
    else
      assert xs == [xs[0]] + xs[1..];
      Insere(xs[0], OrdenaPor(xs[1..], key), key)
  }

  /** The sort puts its input in ascending order of the key and keeps
      every element with its multiplicity. */
  lemma {:induction false} OrdenaPorOrdena<T>(xs: seq<T>, key: T -> real)
    ensures OrdenadaPor(OrdenaPor(xs, key), key)
    ensures multiset(OrdenaPor(xs, key)) == multiset(xs)
    decreases |xs|
  {
    if xs != [] {
      OrdenaPorOrdena(xs[1..], key);
      InsereOrdena(xs[0], OrdenaPor(xs[1..], key), key);
    }
  }

  /** The elements of s whose key is c, in the order s holds them. */
  function ComChave<T>(s: seq<T>, key: T -> real, c: real): seq<T>
    decreases |s|
  {
    if s == [] then []
    else (if key(s[0]) == c then [s[0]] else []) + ComChave(s[1..], key, c)
  }

  /** Inserting x puts it in front of every element that shares its key. */
  lemma {:induction false} InsereEstavel<T>(x: T, s: seq<T>, key: T -> real, c: real)
    ensures ComChave(Insere(x, s, key), key, c)
      == (if key(x) == c then [x] else []) + ComChave(s, key, c)
    decreases |s|
  {
    var fx := if key(x) == c then [x] else [];
    if s == [] {
      assert ComChave([x], key, c) == fx + ComChave([x][1..], key, c);
    } else if key(x) > key(s[0]) {
      var resto := Insere(x, s[1..], key);
      var r := [s[0]] + resto;
      assert r[0] == s[0] && r[1..] == resto;
      InsereEstavel(x, s[1..], key, c);
      calc {
        ComChave(r, key, c);
        (if key(s[0]) == c then [s[0]] else []) + ComChave(resto, key, c);
        (if key(s[0]) == c then [s[0]] else []) + (fx + ComChave(s[1..], key, c));
        { assert key(x) == c ==> key(s[0]) != c; }
        fx + ((if key(s[0]) == c then [s[0]] else []) + ComChave(s[1..], key, c));
      }
    } else {
      var r := [x] + s;
      assert r[0] == x && r[1..] == s;
    }
  }

  /** The sort is stable: the elements that share a key come out in the
      order they went in. */
  lemma {:induction false} OrdenaPorEstavel<T>(xs: seq<T>, key: T -> real, c: real)
    ensures ComChave(OrdenaPor(xs, key), key, c) == ComChave(xs, key, c)
    decreases |xs|
  {
    if xs != [] {
      OrdenaPorEstavel(xs[1..], key, c);
      InsereEstavel(xs[0], OrdenaPor(xs[1..], key), key, c);
    }
  }

  /** The first k elements in ascending order of key: sorted(...)[:k],
      nsmallest(k) and, with a negated key, nlargest(k). */
  function Primeiros<T(==)>(xs: seq<T>, key: T -> real, k: nat): seq<T> {
    var s := OrdenaPor(xs, key);
    s[..if k <= |s| then k else |s|]
  }

  /** The first k are min(k, n) elements of the input, in ascending order
      of key. */
  lemma PrimeirosOrdenados<T>(xs: seq<T>, key: T -> real, k: nat)
    ensures var r := Primeiros(xs, key, k);
      && |r| == (if k <= |xs| then k else |xs|)
      && multiset(r) <= multiset(xs)
      && OrdenadaPor(r, key)
  {
    var s := OrdenaPor(xs, key);
    OrdenaPorOrdena(xs, key);
    PrefixoContido(s, |Primeiros(xs, key, k)|);
    PrefixoOrdenado(s, key, |Primeiros(xs, key, k)|);
  }

  /** No element left out of the first k (k > 0) has a smaller key than
      the last one kept. */
  lemma PrimeirosMenores<T>(xs: seq<T>, key: T -> real, k: nat)
    requires k > 0
    ensures var r := Primeiros(xs, key, k);
      forall x :: x in xs && x !in r ==> |r| > 0 && key(r[|r| - 1]) <= key(x)
  {
    OrdenaPorOrdena(xs, key);
    forall x | x in xs && x !in Primeiros(xs, key, k)
      ensures |Primeiros(xs, key, k)| > 0
      ensures key(Primeiros(xs, key, k)[|Primeiros(xs, key, k)| - 1]) <= key(x)
    {
      ForaDosPrimeiros(xs, key, k, x);
    }
  }

  lemma PrefixoContido<T>(s: seq<T>, m: nat)
    requires m <= |s|
    ensures multiset(s[..m]) <= multiset(s)
  {
    assert s == s[..m] + s[m..];
  }

  lemma PrefixoOrdenado<T>(s: seq<T>, key: T -> real, m: nat)
    requires m <= |s| && OrdenadaPor(s, key)
    ensures OrdenadaPor(s[..m], key)
  {
    forall i, j | 0 <= i < j < m
      ensures key(s[..m][i]) <= key(s[..m][j])
    {
      assert s[..m][i] == s[i] && s[..m][j] == s[j];
    }
  }

  lemma ForaDosPrimeiros<T>(xs: seq<T>, key: T -> real, k: nat, x: T)
    requires k > 0 && x in xs && x !in Primeiros(xs, key, k)
    requires OrdenadaPor(OrdenaPor(xs, key), key)
    ensures |Primeiros(xs, key, k)| > 0
    ensures key(Primeiros(xs, key, k)[|Primeiros(xs, key, k)| - 1]) <= key(x)
  {
    var s := OrdenaPor(xs, key);
    var r := Primeiros(xs, key, k);
    assert x in multiset(xs);
    assert x in multiset(s);
    var j :| 0 <= j < |s| && s[j] == x;
    assert j >= |r| > 0;
    assert r[|r| - 1] == s[|r| - 1];
  }

  /** Every element kept is an element of the input. */
  lemma PrimeirosContidos<T>(xs: seq<T>, key: T -> real, k: nat)
    ensures forall x :: x in Primeiros(xs, key, k) ==> x in xs
  {
    PrimeirosOrdenados(xs, key, k);
    forall x | x in Primeiros(xs, key, k)
      ensures x in xs
    {
      assert x in multiset(Primeiros(xs, key, k));
    }
  }
}
