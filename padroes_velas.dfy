/**
  Candle patterns: bullish and bearish engulfing as boolean columns, and
  the piercing-line placeholders that always return None.
*/
module PadroesVelas {
  import opened Wrappers
  import opened Candles

  /** The previous candle is red and the current one opens at or below its
      close and closes above its open. */
  predicate BullishEngulfing(prev: Candle, cur: Candle) {
    prev.close < prev.open && cur.close > prev.open && cur.open <= prev.close
  }

  /** The mirror image: previous candle green, current one opens at or above
      its close and closes below its open. */
  predicate BearishEngulfing(prev: Candle, cur: Candle) {
    prev.close > prev.open && cur.close < prev.open && cur.open >= prev.close
  }

  /** engolfo_alta(df): shift(1) leaves row 0 without a previous candle and
      every comparison with that missing value is False. */
  function EngolfoAlta(df: seq<Candle>): (r: seq<bool>)
    ensures |r| == |df|
    ensures |df| > 0 ==> !r[0]
    ensures forall i :: 0 < i < |df| ==> (r[i] <==> BullishEngulfing(df[i - 1], df[i]))
    ensures forall i :: 0 <= i < |df| && r[i] ==> df[i].close > df[i].open
  {
    seq(|df|, i requires 0 <= i < |df| => i > 0 && BullishEngulfing(df[i - 1], df[i]))
  }

  /** engolfo_baixa(df), false on row 0 for the same reason. */
  function EngolfoBaixa(df: seq<Candle>): (r: seq<bool>)
    ensures |r| == |df|
    ensures |df| > 0 ==> !r[0]
    ensures forall i :: 0 < i < |df| ==> (r[i] <==> BearishEngulfing(df[i - 1], df[i]))
    ensures forall i :: 0 <= i < |df| && r[i] ==> df[i].close < df[i].open
  {
    seq(|df|, i requires 0 <= i < |df| => i > 0 && BearishEngulfing(df[i - 1], df[i]))
  }

  /** The two patterns never fire on the same row: one needs a red previous
      candle, the other a green one. */
  lemma EngolfosExclusive(df: seq<Candle>, i: nat)
    requires i < |df|
    ensures !(EngolfoAlta(df)[i] && EngolfoBaixa(df)[i])
  {
  }

  /** A pattern at row i looks only at rows i - 1 and i. */
  lemma EngolfosLocal(df: seq<Candle>, eg: seq<Candle>, i: nat)
    requires 0 < i < |df| && i < |eg|
    requires df[i - 1] == eg[i - 1] && df[i] == eg[i]
    ensures EngolfoAlta(df)[i] == EngolfoAlta(eg)[i]
    ensures EngolfoBaixa(df)[i] == EngolfoBaixa(eg)[i]
  {
  }

  /** piercing_line_alta(df) has no body beyond returning None. */
  function PiercingLineAlta(df: seq<Candle>): (r: Option<seq<bool>>)
    ensures r.None?
  {
    None
  }

  /** piercing_line_baixa(df), likewise. */
  function PiercingLineBaixa(df: seq<Candle>): (r: Option<seq<bool>>)
    ensures r.None?
  {
    None
  }
}
