/**
  The technical score, the dynamic stop and the retried position read that
  live_trading_XRP.py and live_trading_XRP_ML.py share line for line
  (sistema_score_quantitativo, calcular_stop_dinamico and
  verificar_trade_aberto).

  The score reads the last row of the main frame and of the confirmation
  frame. The pandas indicator columns it reads besides the EMAs, volume and
  RSI (ADX, CCI, VWAP, Williams %R, Momentum) come in as values of that
  last row; an undefined (NaN) value is None, and every comparison with it
  is false.
*/
module ScoreQuantitativo {
  import opened Wrappers
  import opened Candles
  import opened EstadoTrade
  import opened FuncoesBybit
  import opened OperacaoAoVivo
  import IndicadoresOsciladores

  const EmaRapida: int := 9
  const EmaLenta: int := 21
  const RsiSobrevendido: real := 35.0
  const RsiSobrecomprado: real := 65.0
  const AdxForte: real := 25.0
  const CciExtremo: real := 100.0
  const VolumeLimiar: real := 1.5
  const ScoreMinimoEntrada: nat := 6
  const ScoreMaximo: nat := 10
  const TentativasLeitura: nat := 3
  const PeriodoRsi: nat := 14

  /** The indicator columns of the last main-frame row that the score reads
      and the model does not compute. */
  datatype Osciladores = Osciladores(adx: Option<real>, cci: Option<real>, vwap: Option<real>,
                                     williams: Option<real>, momentum: Option<real>)

  /** The last row of the main frame. */
  datatype Ultima = Ultima(candle: Candle, emaRapida: real, emaLenta: real, ema200: real,
                           rsi: Option<real>, volumeEma20: real, osc: Osciladores)

  /** The last row after calcular_indicadores_quantitativos: the frame's
      candle and EMAs, the RSI column recomputed as the 14-candle rolling
      mean RSI, and the given indicator values. */
  function UltimaDe(df: seq<Row>, osc: Osciladores): (u: Ultima)
    requires |df| > 0
    ensures u.candle == df[|df| - 1].candle && u.osc == osc
    ensures u.emaRapida == df[|df| - 1].emaRapida && u.emaLenta == df[|df| - 1].emaLenta
    ensures u.ema200 == df[|df| - 1].ema200 && u.volumeEma20 == df[|df| - 1].volumeEma20
    ensures u.rsi == IndicadoresOsciladores.RsiAt(Closes(Velas(df)), PeriodoRsi, |df| - 1)
  {
    var ultima := df[|df| - 1];
    Ultima(ultima.candle, ultima.emaRapida, ultima.emaLenta, ultima.ema200,
           IndicadoresOsciladores.RsiAt(Closes(Velas(df)), PeriodoRsi, |df| - 1), ultima.volumeEma20, osc)
  }

  /** The EMA columns of the last row of the confirmation frame. */
  datatype EmasConf = EmasConf(rapida: real, lenta: real, ema200: real)

  predicate AoMenos(o: Option<real>, b: real) { o.Some? && o.value >= b }
  predicate Entre(o: Option<real>, lo: real, hi: real) { o.Some? && lo <= o.value <= hi }

  /** The confirmation frame: the klines of the higher timeframe as the
      exchange lists them (newest first), reversed, with the fast, slow and
      200 EMAs of the closes. */
  function EmasConfirmacao(listaApi: seq<Candle>): (e: EmasConf)
    requires |listaApi| > 0
    ensures var closes := Closes(Reversed(listaApi));
      && e.rapida == EmaAt(closes, Alpha(EmaRapida), |listaApi| - 1)
      && e.lenta == EmaAt(closes, Alpha(EmaLenta), |listaApi| - 1)
      && e.ema200 == EmaAt(closes, Alpha(200), |listaApi| - 1)
  {
    var closes := Closes(Reversed(listaApi));
    EmasConf(EmaAt(closes, Alpha(EmaRapida), |closes| - 1), EmaAt(closes, Alpha(EmaLenta), |closes| - 1),
             EmaAt(closes, Alpha(200), |closes| - 1))
  }

  // ---------------------------------------------------------------------
  // The nine criteria of each direction

  predicate TendenciaAltaConf(conf: EmasConf) { conf.rapida > conf.lenta && conf.lenta > conf.ema200 }
  predicate TendenciaBaixaConf(conf: EmasConf) { conf.rapida < conf.lenta && conf.lenta < conf.ema200 }
  predicate EmasAlinhadasAlta(u: Ultima) { u.emaRapida > u.emaLenta && u.emaLenta > u.ema200 }
  predicate EmasAlinhadasBaixa(u: Ultima) { u.emaRapida < u.emaLenta && u.emaLenta < u.ema200 }
  predicate VolumeForte(u: Ultima) { u.candle.volume > u.volumeEma20 * VolumeLimiar }
  predicate WilliamsFavoravel(u: Ultima) { Entre(u.osc.williams, -80.0, -20.0) }

  function Pontos(c: bool, p: nat): (n: nat)
    ensures n == 0 || n == p
    ensures n == p <==> c || p == 0
  {
    if c then p else 0
  }

  /** The buy score: two points for the confirmation trend, one for each of
      the other eight criteria. */
  function ScoreCompra(u: Ultima, conf: EmasConf): (s: nat)
    ensures s <= ScoreMaximo
  {
    Pontos(TendenciaAltaConf(conf), 2)
    + Pontos(EmasAlinhadasAlta(u), 1)
    + Pontos(Entre(u.rsi, RsiSobrevendido, 70.0), 1)
    + Pontos(AoMenos(u.osc.adx, AdxForte), 1)
    + Pontos(VolumeForte(u), 1)
    + Pontos(u.osc.vwap.Some? && u.candle.close > u.osc.vwap.value, 1)
    + Pontos(Above(u.osc.cci, -CciExtremo), 1)
    + Pontos(WilliamsFavoravel(u), 1)
    + Pontos(Above(u.osc.momentum, 100.0), 1)
  }

  /** The sell score, mirrored; the RSI band is [30, 65] and the Williams
      band is the same as for buying. */
  function ScoreVenda(u: Ultima, conf: EmasConf): (s: nat)
    ensures s <= ScoreMaximo
  {
    Pontos(TendenciaBaixaConf(conf), 2)
    + Pontos(EmasAlinhadasBaixa(u), 1)
    + Pontos(Entre(u.rsi, 30.0, RsiSobrecomprado), 1)
    + Pontos(AoMenos(u.osc.adx, AdxForte), 1)
    + Pontos(VolumeForte(u), 1)
    + Pontos(u.osc.vwap.Some? && u.candle.close < u.osc.vwap.value, 1)
    + Pontos(Below(u.osc.cci, CciExtremo), 1)
    + Pontos(WilliamsFavoravel(u), 1)
    + Pontos(Below(u.osc.momentum, 100.0), 1)
  }

  /** A buy scores the full 10 exactly when all nine criteria hold; the
      confirmation trend alone is worth 2, and without it the score is at
      most 8. */
  lemma ScoreCompraMaximo(u: Ultima, conf: EmasConf)
    ensures ScoreCompra(u, conf) == ScoreMaximo <==>
      && TendenciaAltaConf(conf) && EmasAlinhadasAlta(u) && Entre(u.rsi, RsiSobrevendido, 70.0)
      && AoMenos(u.osc.adx, AdxForte) && VolumeForte(u)
      && u.osc.vwap.Some? && u.candle.close > u.osc.vwap.value
      && Above(u.osc.cci, -CciExtremo) && WilliamsFavoravel(u) && Above(u.osc.momentum, 100.0)
    ensures TendenciaAltaConf(conf) ==> ScoreCompra(u, conf) >= 2
    ensures !TendenciaAltaConf(conf) ==> ScoreCompra(u, conf) <= 8
  {
  }

  /** The same for a sell. */
  lemma ScoreVendaMaximo(u: Ultima, conf: EmasConf)
    ensures ScoreVenda(u, conf) == ScoreMaximo <==>
      && TendenciaBaixaConf(conf) && EmasAlinhadasBaixa(u) && Entre(u.rsi, 30.0, RsiSobrecomprado)
      && AoMenos(u.osc.adx, AdxForte) && VolumeForte(u)
      && u.osc.vwap.Some? && u.candle.close < u.osc.vwap.value
      && Below(u.osc.cci, CciExtremo) && WilliamsFavoravel(u) && Below(u.osc.momentum, 100.0)
    ensures TendenciaBaixaConf(conf) ==> ScoreVenda(u, conf) >= 2
    ensures !TendenciaBaixaConf(conf) ==> ScoreVenda(u, conf) <= 8
  {
  }

  /** sistema_score_quantitativo(df_principal, df_confirmacao, direcao):
      0 with fewer than 50 main rows or 20 confirmation candles, otherwise
      the score of the direction on the last rows of the two frames (conf
      holds the confirmation klines as listed, newest first). */
  function Score(df: seq<Row>, conf: seq<Candle>, osc: Osciladores, compra: bool): (s: nat)
    ensures |df| < 50 || |conf| < 20 ==> s == 0
    ensures s <= ScoreMaximo
    ensures |df| >= 50 && |conf| >= 20 ==>
      s == (if compra then ScoreCompra(UltimaDe(df, osc), EmasConfirmacao(conf))
            else ScoreVenda(UltimaDe(df, osc), EmasConfirmacao(conf)))
  {
    if |df| < 50 || |conf| < 20 then 0
    else if compra then ScoreCompra(UltimaDe(df, osc), EmasConfirmacao(conf))
    else ScoreVenda(UltimaDe(df, osc), EmasConfirmacao(conf))
  }

  /** The trend criteria of the two directions never hold together, nor do
      the two EMA alignments, so at most one direction gets those three
      points. */
  lemma TendenciasExclusivas(u: Ultima, conf: EmasConf)
    ensures !(TendenciaAltaConf(conf) && TendenciaBaixaConf(conf))
    ensures !(EmasAlinhadasAlta(u) && EmasAlinhadasBaixa(u))
  {
  }

  /** The RSI point of a buy is given exactly on [35, 70]: changing only
      the RSI moves the score by that point. */
  lemma BandaRsiCompra(u: Ultima, conf: EmasConf, x: real)
    ensures ScoreCompra(u.(rsi := Some(x)), conf)
      == ScoreCompra(u.(rsi := None), conf) + (if RsiSobrevendido <= x <= 70.0 then 1 else 0)
  {
  }

  /** The RSI point of a sell is given exactly on [30, 65]. */
  lemma BandaRsiVenda(u: Ultima, conf: EmasConf, x: real)
    ensures ScoreVenda(u.(rsi := Some(x)), conf)
      == ScoreVenda(u.(rsi := None), conf) + (if 30.0 <= x <= RsiSobrecomprado then 1 else 0)
  {
  }

  /** The volume point needs more than one and a half times the volume
      EMA, in either direction. */
  lemma PontoVolume(u: Ultima, conf: EmasConf, v: real)
    requires u.volumeEma20 > 0.0
    ensures var fraco := u.(candle := u.candle.(volume := u.volumeEma20 * 1.5));
      var forte := u.(candle := u.candle.(volume := v));
      && ScoreCompra(forte, conf) == ScoreCompra(fraco, conf) + (if v > u.volumeEma20 * 1.5 then 1 else 0)
      && ScoreVenda(forte, conf) == ScoreVenda(fraco, conf) + (if v > u.volumeEma20 * 1.5 then 1 else 0)
  {
  }

  /** With a full frame, a pass can enter in at most one direction. */
  lemma DecisaoExclusiva(sc: nat, sv: nat)
    ensures !((sc >= ScoreMinimoEntrada && sc > sv) && (sv >= ScoreMinimoEntrada && sv > sc))
  {
  }

  // ---------------------------------------------------------------------
  // calcular_stop_dinamico

  /** The stop distance: the least of 2.5 ATRs, the distance to the lowest
      low (highest high) of the last ten candles and a volatility stop of
      1.5 (when |Williams %R| > 80) or 1.2 times the ATR stop, floored at
      0.5% of the entry. */
  function StopDinamico(cs: seq<Candle>, compra: bool, entrada: real, atr: real, williams: Option<real>): (d: real)
    requires |cs| > 0
    ensures d >= entrada * 0.005
    ensures d <= atr * 2.5 || d == entrada * 0.005
    ensures compra ==> d <= entrada - Min(Tail(Lows(cs), 10)) || d == entrada * 0.005
    ensures !compra ==> d <= Max(Tail(Highs(cs), 10)) - entrada || d == entrada * 0.005
  {
    var stopAtr := atr * 2.5;
    var stopSr := if compra then entrada - Min(Tail(Lows(cs), 10)) else Max(Tail(Highs(cs), 10)) - entrada;
    var alta := williams.Some? && (williams.value > 80.0 || williams.value < -80.0);
    var stopVolatilidade := if alta then stopAtr * 1.5 else stopAtr * 1.2;
    var m1 := if stopSr < stopAtr then stopSr else stopAtr;
    var m := if stopVolatilidade < m1 then stopVolatilidade else m1;
    var minimo := entrada * 0.005;
    if minimo > m then minimo else m
  }

  /** With a non-negative ATR the volatility stop is never below the ATR
      stop, so it never decides: the distance is max(min(2.5 ATR, the
      support distance), 0.5% of the entry). */
  lemma VolatilidadeNuncaLimita(cs: seq<Candle>, compra: bool, entrada: real, atr: real, williams: Option<real>)
    requires |cs| > 0 && atr >= 0.0
    ensures var sr := if compra then entrada - Min(Tail(Lows(cs), 10)) else Max(Tail(Highs(cs), 10)) - entrada;
      var m := if sr < atr * 2.5 then sr else atr * 2.5;
      StopDinamico(cs, compra, entrada, atr, williams) == (if entrada * 0.005 > m then entrada * 0.005 else m)
  {
  }

  // ---------------------------------------------------------------------
  // verificar_trade_aberto

  /** Up to three reads; the first that returns is the answer, and when all
      three raise the position is taken as flat with zero prices. Reads past
      the end of t are reads that raise. */
  function VerificarTradeAberto(t: seq<Result<OpenTrade>>): (o: OpenTrade)
    ensures (forall k :: 0 <= k < |t| && k < TentativasLeitura ==> t[k].Err?) ==>
      o == OpenTrade(Mapped(DeFora), 0.0, 0.0, 0.0)
    ensures forall k :: 0 <= k < |t| && k < TentativasLeitura && t[k].Ok? && (forall j :: 0 <= j < k ==> t[j].Err?) ==>
      o == t[k].value
  {
    var k := PrimeiraOk(t);
    if k < |t| && k < TentativasLeitura then t[k].value else OpenTrade(Mapped(DeFora), 0.0, 0.0, 0.0)
  }

  /** An exchange that cannot be reached reads as a flat position whose
      target and stop are 0. */
  lemma CorretoraInacessivel(t: seq<Result<OpenTrade>>)
    requires forall k :: 0 <= k < |t| ==> t[k].Err?
    ensures VerificarTradeAberto(t).estado == Mapped(DeFora)
    ensures VerificarTradeAberto(t).precoStop == 0.0 && VerificarTradeAberto(t).precoAlvo == 0.0
  {
  }
}
