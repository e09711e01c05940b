/**
  quantidade_cripto_para_operar: how much of a coin a balance buys, rounded
  down to a whole number of minimum lots.
*/
module Utilidades {
  import opened Wrappers

  /** Python's int() on a float truncates toward zero. */
  function Trunc(x: real): (n: int)
    ensures 0.0 <= x ==> 0 <= n && n as real <= x < n as real + 1.0
    ensures x < 0.0 ==> n <= 0 && n as real - 1.0 < x <= n as real
  {
    if x >= 0.0 then x.Floor else -((-x).Floor)
  }

  /** The part of a ratio past its whole lots is less than one lot. */
  lemma FloorLot(k: real, x: real, m: real, q: real)
    requires 0.0 < m && 0.0 <= k <= x < k + 1.0 && q == x * m
    ensures 0.0 <= k * m <= q
    ensures q - k * m < m
  {
    var d := x - k;
    assert d * m == q - k * m;
    assert 0.0 <= d * m;
    assert d * m < m by {
      assert m - d * m == (1.0 - d) * m;
    }
    assert 0.0 <= k * m;
  }

  /** A ratio is below one exactly when the amount is below one lot. */
  lemma BelowOneLot(x: real, m: real, q: real)
    requires 0.0 < m && q == x * m
    ensures x < 1.0 <==> q < m
  {
    assert m - q == (1.0 - x) * m;
  }

  /** For q >= 0 and a positive lot m, the whole number of lots in q is the
      largest multiple of m not above q. */
  lemma WholeLots(q: real, m: real)
    requires 0.0 <= q && 0.0 < m
    ensures var k := Trunc(q / m) as real;
      && 0.0 <= k * m <= q
      && q - k * m < m
      && (k * m == 0.0 <==> q < m)
  {
    var n := Trunc(q / m);
    FloorLot(n as real, q / m, m, q);
    BelowOneLot(q / m, m, q);
    assert n == 0 <==> q / m < 1.0;
    assert n as real * m == 0.0 <==> n == 0;
  }

  /** quantidade_cripto_para_operar(saldo, minimo_para_operar, preco_atual).
      A zero price or a zero minimum raises ZeroDivisionError. The closing
      Decimal quantize to the exponent of the minimum leaves a multiple of
      the minimum unchanged, so the value is the multiple itself. Decimal
      arithmetic runs in a 28-digit context; the model treats it as exact. */
  function QuantidadeCriptoParaOperar(saldo: real, minimoParaOperar: real, precoAtual: real): (r: Result<real>)
    ensures r.Err? <==> precoAtual == 0.0 || minimoParaOperar == 0.0
  {
    if precoAtual == 0.0 || minimoParaOperar == 0.0 then Err("ZeroDivisionError")
    else Ok(Trunc(saldo / precoAtual / minimoParaOperar) as real * minimoParaOperar)
  }

  /** The quantity is always a whole number of minimum lots. */
  lemma QuantidadeEmLotes(saldo: real, minimoParaOperar: real, precoAtual: real)
    requires QuantidadeCriptoParaOperar(saldo, minimoParaOperar, precoAtual).Ok?
    ensures var q := QuantidadeCriptoParaOperar(saldo, minimoParaOperar, precoAtual).value;
      (q / minimoParaOperar).Floor as real == q / minimoParaOperar
  {
    var n := Trunc(saldo / precoAtual / minimoParaOperar);
    assert QuantidadeCriptoParaOperar(saldo, minimoParaOperar, precoAtual).value == n as real * minimoParaOperar;
    LotsAreWhole(n, minimoParaOperar);
  }

  /** For a non-negative balance and a positive price and lot, the quantity
      is the largest whole number of lots the balance buys: it never costs
      more than the balance, less than one lot is left over, and it is 0
      exactly when the balance buys less than one lot. */
  lemma QuantidadeLimites(saldo: real, minimoParaOperar: real, precoAtual: real)
    requires 0.0 <= saldo && 0.0 < precoAtual && 0.0 < minimoParaOperar
    ensures var q := QuantidadeCriptoParaOperar(saldo, minimoParaOperar, precoAtual).value;
      && 0.0 <= q <= saldo / precoAtual
      && saldo / precoAtual - q < minimoParaOperar
      && (q == 0.0 <==> saldo / precoAtual < minimoParaOperar)
  {
    WholeLots(saldo / precoAtual, minimoParaOperar);
  }

  lemma LotsAreWhole(n: int, m: real)
    requires m != 0.0
    ensures n as real * m / m == n as real
    ensures (n as real * m / m).Floor == n
  {
    assert n as real * m / m == n as real;
  }
}
