/**
  calcular_atr, as the scalping and scoring bots define it: the true range
  of each candle and its rolling mean.
*/
module Atr {
  import opened Wrappers
  import opened Candles
  import IndicadoresOsciladores

  function Abs(x: real): (r: real)
    ensures r >= 0.0 && (r == x || r == -x)
  {
    if x < 0.0 then -x else x
  }

  /** The tr column: the largest of high - low and the distances of the high
      and the low from the previous close. Row 0 has no previous close; the
      row maximum skips the missing values, leaving high - low. */
  function TrueRange(cs: seq<Candle>, i: nat): (tr: real)
    requires i < |cs|
    ensures tr >= cs[i].high - cs[i].low
    ensures i > 0 ==> tr >= Abs(cs[i].high - cs[i - 1].close) && tr >= Abs(cs[i].low - cs[i - 1].close)
    ensures i > 0 ==> tr == cs[i].high - cs[i].low || tr == Abs(cs[i].high - cs[i - 1].close)
                      || tr == Abs(cs[i].low - cs[i - 1].close)
  {
    var hl := cs[i].high - cs[i].low;
    if i == 0 then hl
    else
      var hc := Abs(cs[i].high - cs[i - 1].close);
      var lc := Abs(cs[i].low - cs[i - 1].close);
      if hl >= hc && hl >= lc then hl else if hc >= lc then hc else lc
  }

  function TrueRanges(cs: seq<Candle>): (r: seq<real>)
    ensures |r| == |cs| && forall i :: 0 <= i < |cs| ==> r[i] == TrueRange(cs, i)
  {
    seq(|cs|, i requires 0 <= i < |cs| => TrueRange(cs, i))
  }

  /** df['ATR'] at row i: rolling(window=periodo).mean() of tr, missing
      until periodo rows exist. */
  function AtrAt(cs: seq<Candle>, periodo: nat, i: nat): (r: Option<real>)
    requires 0 < periodo && i < |cs|
    ensures r.None? <==> i + 1 < periodo
  {
    IndicadoresOsciladores.RollingMean(TrueRanges(cs), periodo, i)
  }

  /** The ATR of the newest row, as df['ATR'].iloc[-1] reads it. */
  function AtrAtual(cs: seq<Candle>, periodo: nat): (r: Option<real>)
    requires 0 < periodo
    ensures r.Some? <==> periodo <= |cs|
  {
    if |cs| == 0 then None else AtrAt(cs, periodo, |cs| - 1)
  }

  /** On well-formed candles every true range, hence every ATR, is
      non-negative. */
  lemma AtrNonNegative(cs: seq<Candle>, periodo: nat, i: nat)
    requires 0 < periodo && i < |cs| && AllWellFormed(cs)
    ensures AtrAt(cs, periodo, i).Some? ==> AtrAt(cs, periodo, i).value >= 0.0
  {
    var trs := TrueRanges(cs);
    assert forall j :: 0 <= j < |trs| ==> trs[j] >= 0.0 by {
      forall j | 0 <= j < |trs|
        ensures trs[j] >= 0.0
      {
        assert WellFormed(cs[j]);
      }
    }
    IndicadoresOsciladores.RollingMeanNonNegative(trs, periodo, i);
  }
}
