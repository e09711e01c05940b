/**
  calcula_rsi: the relative strength index over rolling means of the
  positive and negative parts of the close-to-close change.
*/
module IndicadoresOsciladores {
  import opened Wrappers
  import opened Candles

  /** The close-to-close change at row i. pandas leaves row 0 missing, and
      both where(delta > 0, 0) and where(delta < 0, 0) replace that missing
      value by 0, so row 0 counts as no change. */
  function Delta(xs: seq<real>, i: nat): real
    requires i < |xs|
  {
    if i == 0 then 0.0 else xs[i] - xs[i - 1]
  }

  function PositivePart(d: real): (g: real)
    ensures g >= 0.0
  {
    if d > 0.0 then d else 0.0
  }

  function NegativePart(d: real): (l: real)
    ensures l >= 0.0
  {
    if d < 0.0 then -d else 0.0
  }

  /** The two parts recombine into the change, and at most one is non-zero. */
  lemma PartsRecombine(d: real)
    ensures PositivePart(d) - NegativePart(d) == d
    ensures PositivePart(d) == 0.0 || NegativePart(d) == 0.0
  {
  }

  /** The gain column: delta.where(delta > 0, 0). */
  function Gains(xs: seq<real>): (r: seq<real>)
    ensures |r| == |xs|
    ensures forall i :: 0 <= i < |xs| ==> r[i] == PositivePart(Delta(xs, i)) && r[i] >= 0.0
  {
    seq(|xs|, i requires 0 <= i < |xs| => PositivePart(Delta(xs, i)))
  }

  /** The loss column: -delta.where(delta < 0, 0). */
  function Losses(xs: seq<real>): (r: seq<real>)
    ensures |r| == |xs|
    ensures forall i :: 0 <= i < |xs| ==> r[i] == NegativePart(Delta(xs, i)) && r[i] >= 0.0
  {
    seq(|xs|, i requires 0 <= i < |xs| => NegativePart(Delta(xs, i)))
  }

  /** rolling(window=w).mean() at row i: missing until the window is full. */
  function RollingMean(s: seq<real>, w: nat, i: nat): (r: Option<real>)
    requires 0 < w && i < |s|
    ensures r.None? <==> i + 1 < w
  {
    if i + 1 < w then None else Some(Sum(s[i + 1 - w..i + 1]) / w as real)
  }

  /** A rolling mean of a non-negative column is non-negative. */
  lemma RollingMeanNonNegative(s: seq<real>, w: nat, i: nat)
    requires 0 < w && i < |s|
    requires forall j :: 0 <= j < |s| ==> s[j] >= 0.0
    ensures RollingMean(s, w, i).Some? ==> RollingMean(s, w, i).value >= 0.0
  {
    if i + 1 >= w {
      SumNonNegative(s[i + 1 - w..i + 1]);
    }
  }

  /** 100 - 100 / (1 + gain / loss) on non-negative averages. A zero loss
      is not guarded: a positive gain then divides to infinity and the
      index is 100, and 0 / 0 is NaN, the missing value. Otherwise the
      index is the gain's share of gain plus loss, in percent. */
  function RsiFromAverages(gain: real, loss: real): (r: Option<real>)
    requires gain >= 0.0 && loss >= 0.0
    ensures r.None? <==> gain == 0.0 && loss == 0.0
    ensures loss == 0.0 && gain > 0.0 ==> r == Some(100.0)
    ensures loss > 0.0 ==> r == Some(100.0 * gain / (gain + loss))
    ensures r.Some? ==> 0.0 <= r.value <= 100.0
    ensures loss > 0.0 ==> r.value < 100.0
  {
    if loss == 0.0 then
      if gain == 0.0 then None else Some(100.0)
    else
      var rs := gain / loss;
      ShareOfTotal(gain, loss);
      Some(100.0 - 100.0 / (1.0 + rs))
  }

  lemma ShareOfTotal(gain: real, loss: real)
    requires gain >= 0.0 && loss > 0.0
    ensures 100.0 - 100.0 / (1.0 + gain / loss) == 100.0 * gain / (gain + loss)
    ensures 0.0 <= 100.0 * gain / (gain + loss) < 100.0
  {
    var rs := gain / loss;
    assert rs * loss == gain;
    assert (1.0 + rs) * loss == gain + loss;
    assert 100.0 / (1.0 + rs) == 100.0 * loss / (gain + loss);
    var t := gain + loss;
    var u := 100.0 * loss / t;
    var v := 100.0 * gain / t;
    assert u + v == (100.0 * loss + 100.0 * gain) / t;
    assert 100.0 * loss + 100.0 * gain == 100.0 * t;
    assert u + v == 100.0;
    assert 100.0 * gain < 100.0 * (gain + loss);
  }

  /** The index at row i of calcula_rsi(df, periodo). */
  function RsiAt(xs: seq<real>, periodo: nat, i: nat): (r: Option<real>)
    requires 0 < periodo && i < |xs|
    ensures i + 1 < periodo ==> r.None?
  {
    var gain := RollingMean(Gains(xs), periodo, i);
    var loss := RollingMean(Losses(xs), periodo, i);
    if gain.None? || loss.None? then None
    else
      RollingMeanNonNegative(Gains(xs), periodo, i);
      RollingMeanNonNegative(Losses(xs), periodo, i);
      RsiFromAverages(gain.value, loss.value)
  }

  /** calcula_rsi(df, periodo): one value per row, missing where pandas
      leaves NaN. */
  function CalculaRsi(fechamento: seq<real>, periodo: nat): (r: seq<Option<real>>)
    requires 0 < periodo
    ensures |r| == |fechamento|
    ensures forall i :: 0 <= i < |r| ==> r[i] == RsiAt(fechamento, periodo, i)
  {
    seq(|fechamento|, i requires 0 <= i < |fechamento| => RsiAt(fechamento, periodo, i))
  }

  /** Average gain and average loss are both non-negative, and when the
      average loss is positive the index lies in [0, 100). */
  lemma RsiBounds(xs: seq<real>, periodo: nat, i: nat)
    requires 0 < periodo && periodo <= i + 1 < |xs| + 1
    ensures RollingMean(Gains(xs), periodo, i).value >= 0.0
    ensures RollingMean(Losses(xs), periodo, i).value >= 0.0
    ensures RollingMean(Losses(xs), periodo, i).value > 0.0 ==>
      RsiAt(xs, periodo, i).Some? && 0.0 <= RsiAt(xs, periodo, i).value < 100.0
    ensures RollingMean(Losses(xs), periodo, i).value == 0.0 ==>
      RsiAt(xs, periodo, i) == (if RollingMean(Gains(xs), periodo, i).value == 0.0 then None else Some(100.0))
  {
    RollingMeanNonNegative(Gains(xs), periodo, i);
    RollingMeanNonNegative(Losses(xs), periodo, i);
  }

  /** The index is defined from row periodo - 1 on unless the whole window
      is flat (no gain and no loss). */
  lemma RsiDefinedOnceWindowFull(xs: seq<real>, periodo: nat, i: nat)
    requires 0 < periodo && periodo <= i + 1 && i < |xs|
    ensures RsiAt(xs, periodo, i).None? <==>
      RollingMean(Gains(xs), periodo, i).value == 0.0 && RollingMean(Losses(xs), periodo, i).value == 0.0
  {
    RollingMeanNonNegative(Gains(xs), periodo, i);
    RollingMeanNonNegative(Losses(xs), periodo, i);
  }

  /** No lookahead: the index at row i is fixed by the closes of rows
      i - periodo .. i (rows 0 .. i while the window still reaches row 0). */
  lemma {:induction false} RsiNoLookahead(xs: seq<real>, ys: seq<real>, periodo: nat, i: nat)
    requires 0 < periodo && i < |xs| && i < |ys|
    requires var lo := if i >= periodo then i - periodo else 0;
      xs[lo..i + 1] == ys[lo..i + 1]
    ensures RsiAt(xs, periodo, i) == RsiAt(ys, periodo, i)
  {
    if i + 1 >= periodo {
      var lo := if i >= periodo then i - periodo else 0;
      forall j | lo <= j <= i
        ensures xs[j] == ys[j]
      {
        assert xs[j] == xs[lo..i + 1][j - lo];
        assert ys[j] == ys[lo..i + 1][j - lo];
      }
      ColunasIguais(xs, ys, lo, i + 1 - periodo, i);
    }
  }

  /** Equal closes from row lo on give equal gains and losses from row a on,
      once a is past lo (each delta reads the row before). */
  lemma ColunasIguais(xs: seq<real>, ys: seq<real>, lo: nat, a: nat, i: nat)
    requires a <= i < |xs| && i < |ys| && lo <= a && (lo < a || lo == 0)
    requires forall j :: lo <= j <= i ==> xs[j] == ys[j]
    ensures Gains(xs)[a..i + 1] == Gains(ys)[a..i + 1]
    ensures Losses(xs)[a..i + 1] == Losses(ys)[a..i + 1]
  {
    forall j | a <= j <= i
      ensures Delta(xs, j) == Delta(ys, j)
    {
      if j > 0 {
        assert xs[j] == ys[j] && xs[j - 1] == ys[j - 1];
      }
    }
    assert forall j :: a <= j <= i ==> Gains(xs)[j] == Gains(ys)[j];
    assert forall j :: a <= j <= i ==> Losses(xs)[j] == Losses(ys)[j];
  }
}
