/**
  The demo-account quantitative strategy on XRPUSDT 15m: every missing
  indicator value is filled with a neutral value, a nine-criterion score
  on the 15m frame and the 1h confirmation frame picks the side, the stop
  distance is 2 * ATR clamped to [0.5%, 2%] of the entry, and the order
  size is at most 1% of the balance and never more than 20 USDT, rounded
  to the coin's decimals.
*/
module DemoStrategyMain {
  import opened Wrappers
  import opened Candles
  import opened EstadoTrade
  import opened FuncoesBybit
  import opened OperacaoAoVivo
  import Demo = DemoFuncoesBybit
  import ScoreQuantitativo
  import IndicadoresOsciladores
  import Atr
  import Utilidades

  const Cripto: string := "XRPUSDT"
  const RiscoRetorno: real := 2.5
  const Emas: seq<int> := [9, 21]
  const Alavancagem: real := 1.0
  const PeriodoRsi: nat := 14
  const PeriodoAdx: nat := 14
  const PeriodoAtr: nat := 14
  const PeriodoVwap: nat := 20
  const PeriodoWilliams: nat := 14
  const PeriodoMomentum: nat := 10
  const RsiSobrevendido: real := 30.0
  const RsiSobrecomprado: real := 70.0
  const AdxForte: real := 20.0
  const CciExtremo: real := 100.0
  const VolumeLimiar: real := 1.3
  const ScoreMinimoEntrada: nat := 5
  const ScoreMaximo: nat := 10
  const VelasMinimas: nat := 30
  const VelasMinimasConf: nat := 10
  const ValorMaximoTrade: real := 20.0

  // ---------------------------------------------------------------------
  // Sums

  /** A sum of terms in [0, hi) lies in [0, n * hi). */
  lemma {:induction false} SomaLimitada(s: seq<real>, hi: real)
    requires |s| > 0 && forall k :: 0 <= k < |s| ==> 0.0 <= s[k] < hi
    ensures 0.0 <= Sum(s) < |s| as real * hi
    decreases |s|
  {
    if |s| > 1 {
      SomaLimitada(s[..|s| - 1], hi);
    }
  }

  /** The sum of close * volume over the candles. */
  function SomaPrecoVolume(cs: seq<Candle>): real
    decreases |cs|
  {
    if cs == [] then 0.0 else SomaPrecoVolume(cs[..|cs| - 1]) + cs[|cs| - 1].close * cs[|cs| - 1].volume
  }

  /** One more term keeps the weighted sum within the bound. */
  lemma PassoPonderado(soma: real, total: real, x: real, w: real, m: real)
    requires 0.0 <= soma <= m * total && 0.0 <= x <= m && w >= 0.0
    ensures 0.0 <= soma + x * w <= m * (total + w)
  {
    ScaleLe(w, x, m);
    ScaleLe(w, 0.0, x);
  }

  /** Closes in [0, m] and volumes that are not negative keep the sum of
      close * volume within m times the volume total. */
  lemma {:induction false} PrecoVolumeLimitado(cs: seq<Candle>, m: real)
    requires forall k :: 0 <= k < |cs| ==> 0.0 <= cs[k].close <= m && cs[k].volume >= 0.0
    ensures 0.0 <= SomaPrecoVolume(cs) <= m * Sum(Volumes(cs))
    decreases |cs|
  {
    if |cs| > 0 {
      var n := |cs| - 1;
      PrecoVolumeLimitado(cs[..n], m);
      assert Volumes(cs)[..n] == Volumes(cs[..n]);
      PassoPonderado(SomaPrecoVolume(cs[..n]), Sum(Volumes(cs[..n])), cs[n].close, cs[n].volume, m);
    }
  }

  /** A part of a positive whole is a fraction in [0, 1). */
  lemma RazaoMenorQueUm(a: real, b: real)
    requires 0.0 <= a < b
    ensures 0.0 <= a / b < 1.0
  {
    var q := a / b;
    assert q * b == a;
    if q >= 1.0 {
      ScaleLe(b, 1.0, q);
    }
    if q < 0.0 {
      ScaleLe(b, q, 0.0);
    }
  }

  /** A quotient whose numerator is at most m times the positive
      denominator is at most m. */
  lemma QuocienteLimitado(a: real, b: real, m: real)
    requires 0.0 <= a <= m * b && b > 0.0
    ensures 0.0 <= a / b <= m
  {
    var q := a / b;
    assert q * b == a;
    if q > m {
      ScaleLe(b, m, q);
    }
    if q < 0.0 {
      ScaleLe(b, q, 0.0);
    }
  }

  // ---------------------------------------------------------------------
  // calcular_indicadores_quantitativos_demo, column by column

  /** The RSI column: rolling 14-row means of gain and loss, then
      100 - 100 / (1 + gain / (loss + 0.0001)), and 50 while the window is
      not full. The small addend makes it the plain RSI of a loss average
      that is never 0, so the value stays below 100. */
  function RsiDemoAt(closes: seq<real>, i: nat): (r: real)
    requires i < |closes|
    ensures 0.0 <= r < 100.0
    ensures i + 1 < PeriodoRsi ==> r == 50.0
  {
    var g := IndicadoresOsciladores.RollingMean(IndicadoresOsciladores.Gains(closes), PeriodoRsi, i);
    var l := IndicadoresOsciladores.RollingMean(IndicadoresOsciladores.Losses(closes), PeriodoRsi, i);
    if g.None? || l.None? then 50.0
    else
      IndicadoresOsciladores.RollingMeanNonNegative(IndicadoresOsciladores.Gains(closes), PeriodoRsi, i);
      IndicadoresOsciladores.RollingMeanNonNegative(IndicadoresOsciladores.Losses(closes), PeriodoRsi, i);
      IndicadoresOsciladores.RsiFromAverages(g.value, l.value + 0.0001).value
  }

  /** The ATR column after fillna(method='bfill'): the rolling mean of the
      true range, the warm-up rows taking the first full window's value.
      A frame shorter than one window has no value anywhere. */
  function AtrDemoAt(cs: seq<Candle>, i: nat): (r: Option<real>)
    requires i < |cs|
    ensures r.Some? <==> PeriodoAtr <= |cs|
    ensures PeriodoAtr <= i + 1 ==> r == Atr.AtrAt(cs, PeriodoAtr, i)
    ensures i + 1 < PeriodoAtr <= |cs| ==> r == Atr.AtrAt(cs, PeriodoAtr, PeriodoAtr - 1)
  {
    if PeriodoAtr <= i + 1 then Atr.AtrAt(cs, PeriodoAtr, i)
    else if PeriodoAtr <= |cs| then Atr.AtrAt(cs, PeriodoAtr, PeriodoAtr - 1)
    else None
  }

  /** plus_dm at row i: the rise of the high when it beats the change of
      the low and is positive. Row 0 has no change and gives 0. */
  function DmMais(cs: seq<Candle>, i: nat): (d: real)
    requires i < |cs|
    ensures d >= 0.0
  {
    if i == 0 then 0.0
    else
      var alta := cs[i].high - cs[i - 1].high;
      var baixa := cs[i].low - cs[i - 1].low;
      if alta > baixa && alta > 0.0 then alta else 0.0
  }

  /** minus_dm at row i, as written: the change of the low (low[i] -
      low[i-1]) when it beats the change of the high and is positive. */
  function DmMenos(cs: seq<Candle>, i: nat): (d: real)
    requires i < |cs|
    ensures d >= 0.0
    ensures d > 0.0 ==> DmMais(cs, i) == 0.0
  {
    if i == 0 then 0.0
    else
      var alta := cs[i].high - cs[i - 1].high;
      var baixa := cs[i].low - cs[i - 1].low;
      if baixa > alta && baixa > 0.0 then baixa else 0.0
  }

  function DmsMais(cs: seq<Candle>): (r: seq<real>)
    ensures |r| == |cs| && forall k :: 0 <= k < |r| ==> r[k] == DmMais(cs, k) && r[k] >= 0.0
  {
    seq(|cs|, k requires 0 <= k < |cs| => DmMais(cs, k))
  }

  function DmsMenos(cs: seq<Candle>): (r: seq<real>)
    ensures |r| == |cs| && forall k :: 0 <= k < |r| ==> r[k] == DmMenos(cs, k) && r[k] >= 0.0
  {
    seq(|cs|, k requires 0 <= k < |cs| => DmMenos(cs, k))
  }

  /** The dx column: |+DI - -DI| / (+DI + -DI + 0.001) * 100, where the DIs
      are 100 times the rolling 14-row means of the movements; missing
      while the window is not full. The addend keeps the division defined
      and the value below 100. */
  function DxAt(cs: seq<Candle>, j: nat): (r: Option<real>)
    requires j < |cs|
    ensures r.None? <==> j + 1 < PeriodoAdx
    ensures r.Some? ==> 0.0 <= r.value < 100.0
  {
    var p := IndicadoresOsciladores.RollingMean(DmsMais(cs), PeriodoAdx, j);
    var m := IndicadoresOsciladores.RollingMean(DmsMenos(cs), PeriodoAdx, j);
    if p.None? || m.None? then None
    else
      IndicadoresOsciladores.RollingMeanNonNegative(DmsMais(cs), PeriodoAdx, j);
      IndicadoresOsciladores.RollingMeanNonNegative(DmsMenos(cs), PeriodoAdx, j);
      var mais := p.value * 100.0;
      var menos := m.value * 100.0;
      var soma := mais + menos + 0.001;
      var dif := Atr.Abs(mais - menos);
      RazaoMenorQueUm(dif, soma);
      Some(dif / soma * 100.0)
  }

  /** The ADX column: the rolling 14-row mean of dx, which needs 14 defined
      dx values, so the first 26 rows have none and are filled with 20. */
  function AdxAt(cs: seq<Candle>, i: nat): (r: real)
    requires i < |cs|
    ensures 0.0 <= r < 100.0
    ensures i + 2 < 2 * PeriodoAdx ==> r == 20.0
  {
    if i + 2 < 2 * PeriodoAdx then 20.0
    else
      var dx := seq(PeriodoAdx, k requires 0 <= k < PeriodoAdx => DxAt(cs, i + 1 - PeriodoAdx + k).value);
      assert forall k :: 0 <= k < PeriodoAdx ==> 0.0 <= dx[k] < 100.0 by {
        forall k | 0 <= k < PeriodoAdx ensures 0.0 <= dx[k] < 100.0 {
          var d := DxAt(cs, i + 1 - PeriodoAdx + k);
          assert d.Some?;
        }
      }
      SomaLimitada(dx, 100.0);
      Mean(dx)
  }

  /** The rows of the window of w rows that ends at row i. */
  function Janela(cs: seq<Candle>, w: nat, i: nat): (j: seq<Candle>)
    requires 0 < w <= i + 1 && i < |cs|
    ensures |j| == w && j[w - 1] == cs[i]
  {
    cs[i + 1 - w..i + 1]
  }

  /** The VWAP column: the 20-row sum of close * volume over the 20-row
      volume sum plus 0.001, and the close itself while the window is not
      full. A volume sum of exactly -0.001 divides by zero: 0 / 0 is NaN
      and filled with the close, anything else is infinite (None). */
  function VwapAt(cs: seq<Candle>, i: nat): (r: Option<real>)
    requires i < |cs|
    ensures i + 1 < PeriodoVwap ==> r == Some(cs[i].close)
  {
    if i + 1 < PeriodoVwap then Some(cs[i].close)
    else
      var janela := Janela(cs, PeriodoVwap, i);
      var num := SomaPrecoVolume(janela);
      var den := Sum(Volumes(janela)) + 0.001;
      if den != 0.0 then Some(num / den)
      else if num == 0.0 then Some(cs[i].close)
      else None
  }

  /** Williams %R from the window's highest high, lowest low and the close:
      -100 * (hh - close) / (hh - ll + 0.0001). On a range that cancels
      the addend, 0 / 0 is filled with -50 and anything else is infinite
      (None). */
  function WilliamsDe(hh: real, ll: real, close: real): Option<real>
  {
    var faixa := hh - ll + 0.0001;
    if faixa != 0.0 then Some(-100.0 * ((hh - close) / faixa))
    else if hh - close == 0.0 then Some(-50.0)
    else None
  }

  /** A close between the lowest low and the highest high gives a defined
      Williams %R in (-100, 0]. */
  lemma WilliamsDeLimitado(hh: real, ll: real, close: real)
    requires ll <= close <= hh
    ensures WilliamsDe(hh, ll, close).Some? && -100.0 < WilliamsDe(hh, ll, close).value <= 0.0
  {
    RazaoMenorQueUm(hh - close, hh - ll + 0.0001);
  }

  /** The Williams %R column over 14 rows, -50 while the window is not
      full. */
  function WilliamsAt(cs: seq<Candle>, i: nat): (r: Option<real>)
    requires i < |cs|
    ensures i + 1 < PeriodoWilliams ==> r == Some(-50.0)
  {
    if i + 1 < PeriodoWilliams then Some(-50.0)
    else
      var janela := Janela(cs, PeriodoWilliams, i);
      WilliamsDe(Max(Highs(janela)), Min(Lows(janela)), cs[i].close)
  }

  /** The Momentum column: close / close 10 rows back * 100, and 100 for
      the first 10 rows. A zero close 10 rows back gives NaN (filled with
      100) over a zero close and an infinity (None) otherwise. */
  function MomentumAt(cs: seq<Candle>, i: nat): (r: Option<real>)
    requires i < |cs|
    ensures i < PeriodoMomentum ==> r == Some(100.0)
  {
    if i < PeriodoMomentum then Some(100.0)
    else
      var antes := cs[i - PeriodoMomentum].close;
      if antes != 0.0 then Some(cs[i].close / antes * 100.0)
      else if cs[i].close == 0.0 then Some(100.0)
      else None
  }

  /** The indicator values of one row that the strategy reads. The CCI is
      a per-cycle input (see Ultima). */
  datatype Indicadores = Indicadores(rsi: real, volumeEma20: real, atr: Option<real>, adx: real,
                                     vwap: Option<real>, williams: Option<real>, momentum: Option<real>)

  /** calcular_indicadores_quantitativos_demo(df) at row i. */
  function IndicadoresAt(cs: seq<Candle>, i: nat): (ind: Indicadores)
    requires i < |cs|
    ensures 0.0 <= ind.rsi < 100.0 && 0.0 <= ind.adx < 100.0
  {
    Indicadores(RsiDemoAt(Closes(cs), i), AdjustedEwmAt(Volumes(cs), Alpha(20), i), AtrDemoAt(cs, i),
                AdxAt(cs, i), VwapAt(cs, i), WilliamsAt(cs, i), MomentumAt(cs, i))
  }

  /** Adding 0.001 to a weight total that is not negative keeps the
      quotient within the bound. */
  lemma MediaComAcrescimo(num: real, total: real, m: real)
    requires 0.0 <= num <= m * total && total >= 0.0 && m >= 0.0
    ensures 0.0 <= num / (total + 0.001) <= m
  {
    ScaleLe(m, total, total + 0.001);
    QuocienteLimitado(num, total + 0.001, m);
  }

  /** With closes in [0, m] and volumes that are not negative over its
      window, the VWAP is defined and lies in [0, m]. */
  lemma VwapNaJanela(cs: seq<Candle>, i: nat, m: real)
    requires PeriodoVwap <= i + 1 && i < |cs|
    requires forall k :: 0 <= k < PeriodoVwap ==>
      var c := Janela(cs, PeriodoVwap, i)[k]; 0.0 <= c.close <= m && c.volume >= 0.0
    ensures VwapAt(cs, i).Some? && 0.0 <= VwapAt(cs, i).value <= m
  {
    var janela := Janela(cs, PeriodoVwap, i);
    PrecoVolumeLimitado(janela, m);
    SumNonNegative(Volumes(janela));
    assert m >= 0.0 by { assert 0.0 <= janela[0].close <= m; }
    MediaComAcrescimo(SomaPrecoVolume(janela), Sum(Volumes(janela)), m);
  }

  /** On well-formed candles with positive prices and volumes that are not
      negative, the VWAP is defined and lies between 0 and the highest
      close of its window. */
  lemma VwapDefinida(cs: seq<Candle>, i: nat)
    requires PeriodoVwap <= i + 1 && i < |cs| && AllWellFormed(cs)
    requires forall k :: 0 <= k < |cs| ==> cs[k].low > 0.0 && cs[k].volume >= 0.0
    ensures VwapAt(cs, i).Some?
    ensures 0.0 <= VwapAt(cs, i).value <= Max(Closes(Janela(cs, PeriodoVwap, i)))
  {
    var janela := Janela(cs, PeriodoVwap, i);
    var m := Max(Closes(janela));
    forall k | 0 <= k < PeriodoVwap
      ensures 0.0 <= janela[k].close <= m && janela[k].volume >= 0.0
    {
      assert janela[k] == cs[i + 1 - PeriodoVwap + k];
      assert WellFormed(cs[i + 1 - PeriodoVwap + k]);
      assert Closes(janela)[k] == janela[k].close;
    }
    VwapNaJanela(cs, i, m);
  }

  /** The newest candle of a well-formed window lies within the window's
      highest high and lowest low. */
  lemma FaixaDaJanela(janela: seq<Candle>)
    requires |janela| > 0 && AllWellFormed(janela)
    ensures Min(Lows(janela)) <= janela[|janela| - 1].close <= Max(Highs(janela))
  {
    var n := |janela| - 1;
    assert WellFormed(janela[n]);
    assert Highs(janela)[n] == janela[n].high;
    assert Lows(janela)[n] == janela[n].low;
  }

  /** On well-formed candles the close lies within the window's range, so
      Williams %R is defined and lies in (-100, 0]. */
  lemma WilliamsNaFaixa(cs: seq<Candle>, i: nat)
    requires PeriodoWilliams <= i + 1 && i < |cs| && AllWellFormed(cs)
    ensures WilliamsAt(cs, i).Some? && -100.0 < WilliamsAt(cs, i).value <= 0.0
  {
    var janela := Janela(cs, PeriodoWilliams, i);
    assert forall k :: 0 <= k < |janela| ==> janela[k] == cs[i + 1 - PeriodoWilliams + k];
    FaixaDaJanela(janela);
    WilliamsDeLimitado(Max(Highs(janela)), Min(Lows(janela)), cs[i].close);
  }

  /** For a positive close 10 rows back, the momentum is defined, and
      above (below) 100 exactly when the close rose (fell). */
  lemma MomentumSobe(cs: seq<Candle>, i: nat)
    requires PeriodoMomentum <= i < |cs| && cs[i - PeriodoMomentum].close > 0.0
    ensures MomentumAt(cs, i).Some?
    ensures MomentumAt(cs, i).value > 100.0 <==> cs[i].close > cs[i - PeriodoMomentum].close
    ensures MomentumAt(cs, i).value < 100.0 <==> cs[i].close < cs[i - PeriodoMomentum].close
  {
    var antes := cs[i - PeriodoMomentum].close;
    var q := cs[i].close / antes;
    assert q * antes == cs[i].close;
    if q > 1.0 {
      ScaleLe(antes, 1.0, q);
    }
    if q < 1.0 {
      ScaleLe(antes, q, 1.0);
    }
  }

  // ---------------------------------------------------------------------
  // sistema_score_quantitativo_demo

  /** What the score reads: the newest 15m row (candle, fast and slow EMA,
      indicators) and its CCI. The CCI divides by a rolling standard
      deviation, a square root, so it enters the model as the value of
      the newest row (None where pandas leaves NaN), filled with 0. */
  datatype Ultima = Ultima(candle: Candle, emaRapida: real, emaLenta: real, ind: Indicadores, cci: real)

  function UltimaDe(df: seq<Demo.Linha>, cci: Option<real>): (u: Ultima)
    requires |df| > 0
    ensures u.candle == df[|df| - 1].candle
    ensures u.cci == (if cci.Some? then cci.value else 0.0)
  {
    var n := |df| - 1;
    var cs := seq(|df|, k requires 0 <= k < |df| => df[k].candle);
    Ultima(df[n].candle, df[n].emaRapida, df[n].emaLenta, IndicadoresAt(cs, n), if cci.Some? then cci.value else 0.0)
  }

  /** The last row of the 1h frame: the kline list reversed, with the same
      adjusted EMAs as the main frame. */
  function EmasConfirmacao(listaApi: seq<Candle>): (e: ScoreQuantitativo.EmasConf)
    requires |listaApi| > 0
  {
    var closes := Closes(Reversed(listaApi));
    var n := |closes| - 1;
    ScoreQuantitativo.EmasConf(AdjustedEwmAt(closes, Alpha(Emas[0]), n), AdjustedEwmAt(closes, Alpha(Emas[1]), n),
                               AdjustedEwmAt(closes, Alpha(200), n))
  }

  predicate RsiNaBanda(u: Ultima) { RsiSobrevendido <= u.ind.rsi <= RsiSobrecomprado }
  predicate WilliamsFavoravel(u: Ultima) { u.ind.williams.Some? && -80.0 <= u.ind.williams.value <= -20.0 }
  predicate VolumeAlto(u: Ultima) { u.candle.volume > u.ind.volumeEma20 * VolumeLimiar }

  /** The buy criteria: the 1h trend (2 points), then one point each. An
      infinite VWAP or momentum (None) earns no point. */
  function ScoreCompra(u: Ultima, conf: ScoreQuantitativo.EmasConf): (s: nat)
    ensures s <= ScoreMaximo
  {
    ScoreQuantitativo.Pontos(ScoreQuantitativo.TendenciaAltaConf(conf), 2)
    + ScoreQuantitativo.Pontos(u.emaRapida > u.emaLenta && u.candle.close > u.emaLenta, 1)
    + ScoreQuantitativo.Pontos(RsiNaBanda(u), 1)
    + ScoreQuantitativo.Pontos(u.ind.adx >= AdxForte, 1)
    + ScoreQuantitativo.Pontos(VolumeAlto(u), 1)
    + ScoreQuantitativo.Pontos(u.ind.vwap.Some? && u.candle.close > u.ind.vwap.value, 1)
    + ScoreQuantitativo.Pontos(u.cci > -CciExtremo, 1)
    + ScoreQuantitativo.Pontos(WilliamsFavoravel(u), 1)
    + ScoreQuantitativo.Pontos(u.ind.momentum.Some? && u.ind.momentum.value > 100.0, 1)
  }

  /** The sell criteria mirror the buy ones; the RSI band, the ADX, the
      volume and the Williams band are the same for both sides. */
  function ScoreVenda(u: Ultima, conf: ScoreQuantitativo.EmasConf): (s: nat)
    ensures s <= ScoreMaximo
  {
    ScoreQuantitativo.Pontos(ScoreQuantitativo.TendenciaBaixaConf(conf), 2)
    + ScoreQuantitativo.Pontos(u.emaRapida < u.emaLenta && u.candle.close < u.emaLenta, 1)
    + ScoreQuantitativo.Pontos(RsiNaBanda(u), 1)
    + ScoreQuantitativo.Pontos(u.ind.adx >= AdxForte, 1)
    + ScoreQuantitativo.Pontos(VolumeAlto(u), 1)
    + ScoreQuantitativo.Pontos(u.ind.vwap.Some? && u.candle.close < u.ind.vwap.value, 1)
    + ScoreQuantitativo.Pontos(u.cci < CciExtremo, 1)
    + ScoreQuantitativo.Pontos(WilliamsFavoravel(u), 1)
    + ScoreQuantitativo.Pontos(u.ind.momentum.Some? && u.ind.momentum.value < 100.0, 1)
  }

  /** sistema_score_quantitativo_demo(df, df_conf, direcao): 0 with fewer
      than 30 main or 10 confirmation rows, otherwise at most 10. */
  function Score(df: seq<Demo.Linha>, conf: seq<Candle>, cci: Option<real>, compra: bool): (s: nat)
    ensures s <= ScoreMaximo
    ensures |df| < VelasMinimas || |conf| < VelasMinimasConf ==> s == 0
  {
    if |df| < VelasMinimas || |conf| < VelasMinimasConf then 0
    else if compra then ScoreCompra(UltimaDe(df, cci), EmasConfirmacao(conf))
    else ScoreVenda(UltimaDe(df, cci), EmasConfirmacao(conf))
  }

  /** Both sides use the same RSI band [30, 70]: moving the RSI into the
      band adds exactly one point to the buy score (MesmaBandaRsiVenda
      states the same of the sell score). */
  lemma MesmaBandaRsiCompra(u: Ultima, conf: ScoreQuantitativo.EmasConf, dentro: real, fora: real)
    requires RsiSobrevendido <= dentro <= RsiSobrecomprado
    requires fora < RsiSobrevendido || fora > RsiSobrecomprado
    ensures ScoreCompra(u.(ind := u.ind.(rsi := dentro)), conf) == ScoreCompra(u.(ind := u.ind.(rsi := fora)), conf) + 1
  {
  }

  lemma MesmaBandaRsiVenda(u: Ultima, conf: ScoreQuantitativo.EmasConf, dentro: real, fora: real)
    requires RsiSobrevendido <= dentro <= RsiSobrecomprado
    requires fora < RsiSobrevendido || fora > RsiSobrecomprado
    ensures ScoreVenda(u.(ind := u.ind.(rsi := dentro)), conf) == ScoreVenda(u.(ind := u.ind.(rsi := fora)), conf) + 1
  {
  }

  /** The 1h trend points go to one side at most. */
  lemma TendenciaUmLado(conf: ScoreQuantitativo.EmasConf)
    ensures !(ScoreQuantitativo.TendenciaAltaConf(conf) && ScoreQuantitativo.TendenciaBaixaConf(conf))
  {
  }

  /** The side the scores call for: Some(true) for a buy, Some(false) for a
      sell, None for neither. */
  function Decisao(sc: nat, sv: nat): (d: Option<bool>)
    ensures d == Some(true) <==> sc >= ScoreMinimoEntrada && sc > sv
    ensures d == Some(false) <==> sv >= ScoreMinimoEntrada && sv > sc
  {
    if sc >= ScoreMinimoEntrada && sc > sv then Some(true)
    else if sv >= ScoreMinimoEntrada && sv > sc then Some(false)
    else None
  }

  // ---------------------------------------------------------------------
  // calcular_stop_dinamico_demo and the order size

  /** Python's min(a, b) and max(a, b): the first argument unless the
      second is strictly smaller (larger). */
  function PyMin(a: real, b: real): (m: real)
    ensures m <= a && m <= b && (m == a || m == b)
  {
    if b < a then b else a
  }

  function PyMax(a: real, b: real): (m: real)
    ensures m >= a && m >= b && (m == a || m == b)
  {
    if b > a then b else a
  }

  /** calcular_stop_dinamico_demo: 2 * ATR clamped to [0.5%, 2%] of the
      entry. The floor wins over the ceiling, so a negative entry gets
      0.5% of it. */
  function StopDinamicoDemo(entrada: real, atr: real): (d: real)
    ensures d >= entrada * 0.005
    ensures entrada >= 0.0 ==> d <= entrada * 0.02
    ensures entrada * 0.005 <= atr * 2.0 <= entrada * 0.02 ==> d == atr * 2.0
    ensures atr * 2.0 < entrada * 0.005 ==> d == entrada * 0.005
    ensures entrada >= 0.0 && atr * 2.0 > entrada * 0.02 ==> d == entrada * 0.02
  {
    PyMax(entrada * 0.005, PyMin(atr * 2.0, entrada * 0.02))
  }

  /** The price check before an order: a buy needs a positive stop and a
      target above the entry, a sell a stop above the entry and a positive
      target. */
  predicate Valida(compra: bool, entrada: real, stop: real, alvo: real) {
    if compra then stop > 0.0 && alvo > entrada else stop > entrada && alvo > 0.0
  }

  function StopDe(compra: bool, entrada: real, d: real): real {
    if compra then entrada - d else entrada + d
  }

  function AlvoDe(compra: bool, entrada: real, d: real): real {
    if compra then entrada + d * RiscoRetorno else entrada - d * RiscoRetorno
  }

  /** Prices that pass the validity test come from a positive entry, so the size
      division is always defined there. */
  lemma ValidaExigeEntradaPositiva(compra: bool, entrada: real, atr: real)
    requires var d := StopDinamicoDemo(entrada, atr);
      Valida(compra, entrada, StopDe(compra, entrada, d), AlvoDe(compra, entrada, d))
    ensures entrada > 0.0
  {
  }

  /** 10^n. */
  function Pow10(n: nat): (p: real)
    ensures p >= 1.0
  {
    if n == 0 then 1.0 else 10.0 * Pow10(n - 1)
  }

  /** The number of 10^-casas steps round(x, casas) keeps: the nearest
      whole number to x * 10^casas, a tie going to the even one. */
  function Unidades(x: real, casas: nat): (k: int)
    ensures -0.5 <= k as real - x * Pow10(casas) <= 0.5
    ensures k as real - x * Pow10(casas) == 0.5 || k as real - x * Pow10(casas) == -0.5 ==> k % 2 == 0
  {
    var n := (x * Pow10(casas)).Floor;
    var f := x * Pow10(casas) - n as real;
    if f > 0.5 then n + 1 else if f < 0.5 then n else if n % 2 == 0 then n else n + 1
  }

  /** round(x, casas): a whole number of 10^-casas steps, within half a
      step of x. */
  function Arredonda(x: real, casas: nat): (r: real)
    ensures r * Pow10(casas) == Unidades(x, casas) as real
    ensures -0.5 <= (r - x) * Pow10(casas) <= 0.5
  {
    var p := Pow10(casas);
    var r := Unidades(x, casas) as real / p;
    assert r * p == Unidades(x, casas) as real;
    assert (r - x) * p == r * p - x * p;
    r
  }

  /** The decimals of the order size: 1 for an XRP pair, 3 otherwise. */
  function Casas(cripto: string): (c: nat)
    ensures c == 1 || c == 3
  {
    if Demo.Contem(cripto, "XRP") then 1 else 3
  }

  /** min(saldo * 0.01, 20): the trade's value in USDT. */
  function ValorTrade(saldo: real): (v: real)
    ensures v <= ValorMaximoTrade && v <= saldo * 0.01
  {
    PyMin(saldo * 0.01, ValorMaximoTrade)
  }

  /** The order size for a positive entry: the trade value over the entry,
      rounded to the pair's decimals. */
  function QtdAjustada(saldo: real, entrada: real): (q: real)
    requires entrada > 0.0
    ensures -0.5 <= (q - ValorTrade(saldo) / entrada) * Pow10(Casas(Cripto)) <= 0.5
  {
    Arredonda(ValorTrade(saldo) / entrada, Casas(Cripto))
  }

  /** XRPUSDT sizes are rounded to one decimal, so they are whole tenths
      within 0.05 of the trade value over the entry. */
  lemma TamanhoXrp(saldo: real, entrada: real)
    requires entrada > 0.0
    ensures var q := QtdAjustada(saldo, entrada);
      && q * 10.0 == Unidades(ValorTrade(saldo) / entrada, 1) as real
      && -0.05 <= q - ValorTrade(saldo) / entrada <= 0.05
  {
    assert Demo.Contem(Cripto, "XRP");
    assert Pow10(1) == 10.0;
  }

  // ---------------------------------------------------------------------
  // main_demo

  /** A request the loop sends besides the entry orders: the breakeven
      set_trading_stop (its new stop loss) and the partial take profit. */
  datatype Envio = MoveStop(stopLoss: real) | Parcial(ordem: Demo.OrdemLimite)

  /** The loop's variables: the trade state and prices, the closing candle,
      the requests sent, and contador_ciclos. */
  datatype Robo = Robo(bot: Bot, envios: seq<Envio>, contador: nat)

  /** What one pass observes: the two kline requests, the CCI of the newest
      row, the two position reads of the trade branch, the balance and
      lot requests, and whether the entry order returned a response. */
  datatype Ciclo = Ciclo(klines: Result<seq<Candle>>, klinesConf: Result<seq<Candle>>, cci: Option<real>,
                         leitura: Result<seq<Demo.Posicao>>, confirmacao: Result<seq<Demo.Posicao>>,
                         saldo: Result<real>, minimo: Result<real>, ordemOk: bool)

  /** The exit checks: target, then stop, then a position the exchange
      reports flat. A target or stop of 0 (the value of a missing field or
      of a failed read) never fires. */
  function Motivo(lado: Estado, vela: Candle, stop: real, alvo: real, fora: bool): (m: Option<Motivo>)
    requires lado != DeFora
    ensures m == Some(BateuAlvo) <==> alvo > 0.0 && (if lado == Comprado then vela.high >= alvo else vela.low <= alvo)
    ensures m == Some(BateuStop) <==> !(alvo > 0.0 && (if lado == Comprado then vela.high >= alvo else vela.low <= alvo))
                                      && stop > 0.0 && (if lado == Comprado then vela.low <= stop else vela.high >= stop)
    ensures m.None? ==> !fora
  {
    if lado == Comprado then
      if vela.high >= alvo && alvo > 0.0 then Some(BateuAlvo)
      else if vela.low <= stop && stop > 0.0 then Some(BateuStop)
      else if fora then Some(FechadoNaCorretora)
      else None
    else
      if vela.low <= alvo && alvo > 0.0 then Some(BateuAlvo)
      else if vela.high >= stop && stop > 0.0 then Some(BateuStop)
      else if fora then Some(FechadoNaCorretora)
      else None
  }

  /** Zero prices never close a trade: only the exchange reporting the
      position flat does. */
  lemma PrecosZeradosNaoSaem(lado: Estado, vela: Candle, fora: bool)
    requires lado != DeFora
    ensures Motivo(lado, vela, 0.0, 0.0, fora) == (if fora then Some(FechadoNaCorretora) else None)
  {
  }

  /** The COMPRADO or VENDIDO branch: the exchange's stop and target are
      read (they are local to the pass), the breakeven helper is called at
      0.5% past the entry, then the exits are checked. */
  function Acompanha(r: Robo, lado: Estado, vela: Candle, c: Ciclo): (s: Robo)
    requires lado != DeFora
    ensures s.bot.entrada == r.bot.entrada && s.bot.stop == r.bot.stop && s.bot.alvo == r.bot.alvo
    ensures s.bot.ordens == r.bot.ordens && s.contador == r.contador
    ensures s.bot.estado == r.bot.estado || s.bot.estado == Mapped(DeFora)
  {
    var leitura := Demo.TemTradeAberto(c.leitura);
    var e := r.bot.entrada;
    var pedido := if lado == Comprado then Demo.StopBreakevenCompra(e, e * 1.005, lado, vela.close)
                  else Demo.StopBreakevenVenda(e, e * 0.995, lado, vela.close);
    var envios := if pedido.Some? then r.envios + [MoveStop(pedido.value)] else r.envios;
    var fora := Demo.TemTradeAberto(c.confirmacao).estado == Mapped(DeFora);
    var m := Motivo(lado, vela, leitura.precoStop, leitura.precoAlvo, fora);
    Robo(if m.Some? then Fecha(r.bot, vela, m.value) else r.bot, envios, r.contador)
  }

  /** Opening at entrada: the prices are assigned before the validity test, so a
      refused entry still leaves them in the bot. The order goes out only
      for valid prices and a size of at least the minimum lot, and the
      state changes only when the order call returned a response, after
      which the partial take profit is requested. */
  function Abre(r: Robo, compra: bool, entrada: real, atr: real, saldo: real, minimo: real, ok: bool): (s: Robo)
    ensures s.bot.entrada == entrada
    ensures s.bot.stop == StopDe(compra, entrada, StopDinamicoDemo(entrada, atr))
    ensures s.bot.alvo == AlvoDe(compra, entrada, StopDinamicoDemo(entrada, atr))
    ensures s.bot.velaFechouTrade == r.bot.velaFechouTrade && s.bot.fechamentos == r.bot.fechamentos
    ensures s.contador == r.contador
    ensures s.bot.estado == r.bot.estado || s.bot.estado == Mapped(if compra then Comprado else Vendido)
  {
    var d := StopDinamicoDemo(entrada, atr);
    var stop := StopDe(compra, entrada, d);
    var alvo := AlvoDe(compra, entrada, d);
    var precos := r.(bot := r.bot.(entrada := entrada, stop := stop, alvo := alvo));
    if !Valida(compra, entrada, stop, alvo) then precos
    else
      ValidaExigeEntradaPositiva(compra, entrada, atr);
      var q := QtdAjustada(saldo, entrada);
      if q < minimo || !ok then precos
      else if compra then
        Robo(Entra(r.bot, Comprado, AbreCompra(Cripto, q, stop, alvo), entrada, stop, alvo, true),
             r.envios + [Parcial(Demo.ParcialCompra(Cripto, q, entrada))], r.contador)
      else
        Robo(Entra(r.bot, Vendido, AbreVenda(Cripto, q, stop, alvo), entrada, stop, alvo, true),
             r.envios + [Parcial(Demo.ParcialVenda(Cripto, q, entrada))], r.contador)
  }

  /** The DE_FORA branch: balance, lot and quantity first (the quantity
      raising ends the pass), then the two scores decide. */
  function Procura(r: Robo, df: seq<Demo.Linha>, conf: seq<Candle>, c: Ciclo): (s: Robo)
    requires |df| >= VelasMinimas
  {
    var cs := seq(|df|, k requires 0 <= k < |df| => df[k].candle);
    var preco := cs[|cs| - 1].close;
    var saldo := Demo.SaldoDaConta(c.saldo) * Alavancagem;
    var minimo := Demo.QuantidadeMinima(c.minimo, Cripto);
    if Utilidades.QuantidadeCriptoParaOperar(saldo, minimo, preco).Err? then r
    else
      var d := Decisao(Score(df, conf, c.cci, true), Score(df, conf, c.cci, false));
      if d.None? then r
      else Abre(r, d.value, preco, Atr.AtrAtual(cs, PeriodoAtr).value, saldo, minimo, c.ordemOk)
  }

  /** One pass of main_demo. The counter goes up first; a failed 1h
      request (or an empty 1h list), or a main frame of fewer than 30
      candles (the empty frame of a failed request included), ends it. */
  function Passo(r: Robo, c: Ciclo): (s: Robo)
    ensures s.contador == r.contador + 1
  {
    var r1 := r.(contador := r.contador + 1);
    var df := Demo.BuscaVelas(c.klines, Emas);
    if c.klinesConf.Err? || |c.klinesConf.value| == 0 || |df| < VelasMinimas then r1
    else
      var vela := df[|df| - 1].candle;
      if r1.bot.estado == Mapped(Comprado) then Acompanha(r1, Comprado, vela, c)
      else if r1.bot.estado == Mapped(Vendido) then Acompanha(r1, Vendido, vela, c)
      else if r1.bot.estado == Mapped(DeFora) && r1.bot.velaFechouTrade != Some(vela.openTime) then
        Procura(r1, df, c.klinesConf.value, c)
      else r1
  }

  function Executa(r: Robo, ciclos: seq<Ciclo>): (s: Robo)
    ensures s.contador == r.contador + |ciclos|
    decreases |ciclos|
  {
    if ciclos == [] then r else Passo(Executa(r, ciclos[..|ciclos| - 1]), ciclos[|ciclos| - 1])
  }

  /** The trade branch, step by step. */
  method AcompanhaPasso(r0: Robo, lado: Estado, vela: Candle, c: Ciclo) returns (r: Robo)
    requires lado != DeFora
    ensures r == Acompanha(r0, lado, vela, c)
  {
    r := r0;
    var leitura := Demo.TemTradeAberto(c.leitura);
    var e := r.bot.entrada;
    if lado == Comprado {
      var pedido := Demo.StopBreakevenCompra(e, e * 1.005, lado, vela.close);
      if pedido.Some? {
        r := r.(envios := r.envios + [MoveStop(pedido.value)]);
      }
      if vela.high >= leitura.precoAlvo && leitura.precoAlvo > 0.0 {
        r := r.(bot := Fecha(r.bot, vela, BateuAlvo));
      } else if vela.low <= leitura.precoStop && leitura.precoStop > 0.0 {
        r := r.(bot := Fecha(r.bot, vela, BateuStop));
      } else if Demo.TemTradeAberto(c.confirmacao).estado == Mapped(DeFora) {
        r := r.(bot := Fecha(r.bot, vela, FechadoNaCorretora));
      }
    } else {
      var pedido := Demo.StopBreakevenVenda(e, e * 0.995, lado, vela.close);
      if pedido.Some? {
        r := r.(envios := r.envios + [MoveStop(pedido.value)]);
      }
      if vela.low <= leitura.precoAlvo && leitura.precoAlvo > 0.0 {
        r := r.(bot := Fecha(r.bot, vela, BateuAlvo));
      } else if vela.high >= leitura.precoStop && leitura.precoStop > 0.0 {
        r := r.(bot := Fecha(r.bot, vela, BateuStop));
      } else if Demo.TemTradeAberto(c.confirmacao).estado == Mapped(DeFora) {
        r := r.(bot := Fecha(r.bot, vela, FechadoNaCorretora));
      }
    }
  }

  /** One pass of the loop, on the script's own variables. */
  method ExecutaPasso(r0: Robo, c: Ciclo) returns (r: Robo)
    ensures r == Passo(r0, c)
  {
    r := r0;
    r := r.(contador := r.contador + 1);
    var df := Demo.BuscaVelas(c.klines, Emas);
    if c.klinesConf.Err? || |c.klinesConf.value| == 0 || |df| < VelasMinimas {
      return;
    }
    var vela := df[|df| - 1].candle;
    if r.bot.estado == Mapped(Comprado) {
      r := AcompanhaPasso(r, Comprado, vela, c);
    } else if r.bot.estado == Mapped(Vendido) {
      r := AcompanhaPasso(r, Vendido, vela, c);
    } else if r.bot.estado == Mapped(DeFora) && r.bot.velaFechouTrade != Some(vela.openTime) {
      r := Procura(r, df, c.klinesConf.value, c);
    }
  }

  /** main_demo: the startup read (tem_trade_aberto never raises, so the
      first try answers), then the loop over the given passes. */
  method Executar(inicial: Result<seq<Demo.Posicao>>, ciclos: seq<Ciclo>) returns (robo: Robo)
    ensures robo == Executa(Robo(BotDe(Demo.TemTradeAberto(inicial)), [], 0), ciclos)
    ensures robo.contador == |ciclos|
  {
    var inicio := Robo(BotDe(Demo.TemTradeAberto(inicial)), [], 0);
    robo := inicio;
    var i := 0;
    while i < |ciclos|
      invariant 0 <= i <= |ciclos|
      invariant robo == Executa(inicio, ciclos[..i])
    {
      assert ciclos[..i + 1][..i] == ciclos[..i];
      robo := ExecutaPasso(robo, ciclos[i]);
      i := i + 1;
    }
    assert ciclos[..i] == ciclos;
  }

  // ---------------------------------------------------------------------
  // Properties

  /** A buy that goes through: the entry is positive, the stop lies 0.5% to
      2% below it, the target 2.5 risks above it, and exactly one buy
      order of at least the minimum lot was sent, followed by the partial
      take profit for half of it. */
  lemma CompraExecutada(r: Robo, entrada: real, atr: real, saldo: real, minimo: real, ok: bool)
    requires r.bot.estado == Mapped(DeFora)
    requires Abre(r, true, entrada, atr, saldo, minimo, ok).bot.estado == Mapped(Comprado)
    ensures var p := Abre(r, true, entrada, atr, saldo, minimo, ok);
      && entrada > 0.0 && ok
      && entrada * 0.005 <= entrada - p.bot.stop <= entrada * 0.02
      && p.bot.alvo - entrada == RiscoRetorno * (entrada - p.bot.stop)
      && |p.bot.ordens| == |r.bot.ordens| + 1
      && p.bot.ordens[|r.bot.ordens|] == AbreCompra(Cripto, QtdAjustada(saldo, entrada), p.bot.stop, p.bot.alvo)
      && QtdAjustada(saldo, entrada) >= minimo
      && p.envios == r.envios + [Parcial(Demo.ParcialCompra(Cripto, QtdAjustada(saldo, entrada), entrada))]
  {
    var d := StopDinamicoDemo(entrada, atr);
    assert Valida(true, entrada, StopDe(true, entrada, d), AlvoDe(true, entrada, d));
    ValidaExigeEntradaPositiva(true, entrada, atr);
  }

  /** A sell that goes through mirrors the buy. */
  lemma VendaExecutada(r: Robo, entrada: real, atr: real, saldo: real, minimo: real, ok: bool)
    requires r.bot.estado == Mapped(DeFora)
    requires Abre(r, false, entrada, atr, saldo, minimo, ok).bot.estado == Mapped(Vendido)
    ensures var p := Abre(r, false, entrada, atr, saldo, minimo, ok);
      && entrada > 0.0 && ok
      && entrada * 0.005 <= p.bot.stop - entrada <= entrada * 0.02
      && entrada - p.bot.alvo == RiscoRetorno * (p.bot.stop - entrada)
      && |p.bot.ordens| == |r.bot.ordens| + 1
      && p.bot.ordens[|r.bot.ordens|] == AbreVenda(Cripto, QtdAjustada(saldo, entrada), p.bot.stop, p.bot.alvo)
      && QtdAjustada(saldo, entrada) >= minimo
      && p.envios == r.envios + [Parcial(Demo.ParcialVenda(Cripto, QtdAjustada(saldo, entrada), entrada))]
  {
    var d := StopDinamicoDemo(entrada, atr);
    assert Valida(false, entrada, StopDe(false, entrada, d), AlvoDe(false, entrada, d));
    ValidaExigeEntradaPositiva(false, entrada, atr);
  }

  /** A size below the minimum lot, or an order call without a response,
      sends nothing and keeps the state, although the prices were already
      replaced. */
  lemma SemOrdemMantemEstado(r: Robo, compra: bool, entrada: real, atr: real, saldo: real, minimo: real)
    requires entrada > 0.0 && QtdAjustada(saldo, entrada) < minimo
    ensures var p := Abre(r, compra, entrada, atr, saldo, minimo, true);
      && p.bot.estado == r.bot.estado && p.bot.ordens == r.bot.ordens && p.envios == r.envios
      && p.bot.entrada == entrada
  {
  }

  /** When both position reads fail, the exchange's target and stop read
      as 0 and never fire, and the second read reports the position flat:
      the trade is left as closed on the exchange. */
  lemma LeiturasFalhasEncerram(r: Robo, lado: Estado, vela: Candle, c: Ciclo)
    requires lado != DeFora && c.leitura.Err? && c.confirmacao.Err?
    ensures Acompanha(r, lado, vela, c).bot.estado == Mapped(DeFora)
    ensures Acompanha(r, lado, vela, c).bot.fechamentos == r.bot.fechamentos + [Fechamento(vela.openTime, FechadoNaCorretora)]
  {
    PrecosZeradosNaoSaem(lado, vela, true);
  }

  /** In a long, the stop is moved to the entry once the close reaches
      entry * 1.005, and never before; a short mirrors it at 0.995. */
  lemma BreakevenNoMeioPorCento(r: Robo, lado: Estado, vela: Candle, c: Ciclo)
    requires lado != DeFora
    ensures var e := r.bot.entrada;
      var gatilho := if lado == Comprado then vela.close >= e * 1.005 else vela.close <= e * 0.995;
      Acompanha(r, lado, vela, c).envios == (if gatilho then r.envios + [MoveStop(e)] else r.envios)
  {
  }

  /** While in a trade the bot's prices and orders never change. */
  lemma EmTradePrecosFixos(r: Robo, c: Ciclo)
    requires r.bot.estado == Mapped(Comprado) || r.bot.estado == Mapped(Vendido)
    ensures var p := Passo(r, c).bot;
      p.entrada == r.bot.entrada && p.stop == r.bot.stop && p.alvo == r.bot.alvo && p.ordens == r.bot.ordens
  {
  }

  /** A confirmation frame of fewer than 10 candles scores 0 both ways, so
      a flat bot only counts the pass. */
  lemma ConfirmacaoCurtaNaoEntra(r: Robo, c: Ciclo)
    requires r.bot.estado == Mapped(DeFora)
    requires c.klinesConf.Ok? && |c.klinesConf.value| < VelasMinimasConf
    ensures Passo(r, c) == r.(contador := r.contador + 1)
  {
  }

  /** The candle that closed a trade does not open the next one. */
  lemma ReentradaBloqueada(r: Robo, c: Ciclo)
    requires r.bot.estado == Mapped(DeFora) && c.klines.Ok? && |c.klines.value| > 0
    requires r.bot.velaFechouTrade == Some(c.klines.value[0].openTime)
    ensures Passo(r, c) == r.(contador := r.contador + 1)
  {
    var df := Demo.BuscaVelas(c.klines, Emas);
    if |df| > 0 {
      assert df[|df| - 1].candle == c.klines.value[0];
    }
  }
}
