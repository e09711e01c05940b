/**
  The SOLUSDT one-minute bot of live_trading_ia.py: it follows the trend of
  the EMA 50 on the five-minute chart, enters on an EMA 9/21 alignment with a
  breakout, puts the stop 1.5 ATRs beyond the candle before the reference
  one and risks 2% of the balance per trade. While in a trade it only
  watches for the exchange to report the position gone.

  As written, every pass raises: the five-minute frame is requested from
  busca_velas with the single span [50], and busca_velas reads a second
  span. The frame it would build also lacks the EMA_50 and ATR columns the
  script reads. The script carries, commented out, the busca_velas it was
  written against (an EMA column per span and a 14-candle mean of
  high - low as ATR); the corrected model below uses that one.
*/
module LiveTradingIa {
  import opened Wrappers
  import opened Candles
  import opened FuncoesBybit
  import IndicadoresOsciladores

  const Cripto: string := "SOLUSDT"
  const RiscoPorTrade: real := 0.02
  const Alavancagem: real := 1.0
  const Emas: seq<int> := [9, 21, 50]
  const EmaTendencia: int := 50
  const MultiplicadorAtr: real := 1.5
  const RiscoRetorno: real := 2.0
  const PeriodoAtr: nat := 14

  /** The local estado_de_trade: None, 'LONG' or 'SHORT'. */
  datatype Posicao = Long | Short

  datatype Leitura = Leitura(estado: Option<Posicao>, entrada: real, stop: real, alvo: real)

  /** The script's own tem_trade_aberto: an empty list is no position,
      'Buy' and 'Sell' map to LONG and SHORT, any other side (the empty one
      included) to None, and an empty price to 0. */
  function TemTradeAberto(positions: seq<PositionRecord>): (r: Result<Leitura>)
    ensures positions == [] ==> r == Ok(Leitura(None, 0.0, 0.0, 0.0))
    ensures positions != [] ==>
      (r.Ok? <==> !positions[0].avgPrice.Malformed? && !positions[0].stopLoss.Malformed?
                  && !positions[0].takeProfit.Malformed?)
    ensures positions != [] && r.Ok? ==>
      && (r.value.estado == Some(Long) <==> positions[0].side == "Buy")
      && (r.value.estado == Some(Short) <==> positions[0].side == "Sell")
      && Ok(r.value.entrada) == ParsePrice(positions[0].avgPrice)
      && Ok(r.value.stop) == ParsePrice(positions[0].stopLoss)
      && Ok(r.value.alvo) == ParsePrice(positions[0].takeProfit)
  {
    if positions == [] then Ok(Leitura(None, 0.0, 0.0, 0.0))
    else
      var pos := positions[0];
      var entrada := ParsePrice(pos.avgPrice);
      var stop := ParsePrice(pos.stopLoss);
      var alvo := ParsePrice(pos.takeProfit);
      if entrada.Err? then Err(entrada.error)
      else if stop.Err? then Err(stop.error)
      else if alvo.Err? then Err(alvo.error)
      else
        var estado := if pos.side == "Buy" then Some(Long) else if pos.side == "Sell" then Some(Short) else None;
        Ok(Leitura(estado, entrada.value, stop.value, alvo.value))
  }

  /** A flat account reports the side '' and reads as no position, just as
      an empty list does. */
  lemma LadoVazioSemPosicao(pos: PositionRecord, rest: seq<PositionRecord>)
    requires pos.side == "" && !pos.avgPrice.Malformed? && !pos.stopLoss.Malformed? && !pos.takeProfit.Malformed?
    ensures TemTradeAberto([pos] + rest).Ok? && TemTradeAberto([pos] + rest).value.estado.None?
  {
  }

  // ---------------------------------------------------------------------
  // The frame the script was written against

  /** A row of the commented-out busca_velas: the candle, one EMA per span
      (adjust=False) and ATR as the 14-candle mean of high - low. */
  datatype Linha = Linha(candle: Candle, ema: seq<real>, atr: Option<real>)

  function Amplitudes(cs: seq<Candle>): (r: seq<real>)
    ensures |r| == |cs| && forall i :: 0 <= i < |cs| ==> r[i] == cs[i].high - cs[i].low
  {
    seq(|cs|, i requires 0 <= i < |cs| => cs[i].high - cs[i].low)
  }

  function Quadro(listaApi: seq<Candle>, spans: seq<int>): (df: seq<Linha>)
    requires forall k :: 0 <= k < |spans| ==> spans[k] >= 1
    ensures |df| == |listaApi|
    ensures forall i :: 0 <= i < |df| ==>
      && df[i].candle == listaApi[|listaApi| - 1 - i]
      && |df[i].ema| == |spans|
      && df[i].atr == IndicadoresOsciladores.RollingMean(Amplitudes(Reversed(listaApi)), PeriodoAtr, i)
    ensures forall i, k :: 0 <= i < |df| && 0 <= k < |spans| ==>
      df[i].ema[k] == EmaAt(Closes(Reversed(listaApi)), Alpha(spans[k]), i)
  {
    var cs := Reversed(listaApi);
    var closes := Closes(cs);
    var amplitudes := Amplitudes(cs);
    seq(|cs|, i requires 0 <= i < |cs| =>
      Linha(cs[i],
            seq(|spans|, k requires 0 <= k < |spans| => EmaAt(closes, Alpha(spans[k]), i)),
            IndicadoresOsciladores.RollingMean(amplitudes, PeriodoAtr, i)))
  }

  /** With well-formed candles the ATR is never negative. */
  lemma AtrNaoNegativo(listaApi: seq<Candle>, spans: seq<int>, i: nat)
    requires AllWellFormed(listaApi) && i < |listaApi|
    requires forall k :: 0 <= k < |spans| ==> spans[k] >= 1
    requires Quadro(listaApi, spans)[i].atr.Some?
    ensures Quadro(listaApi, spans)[i].atr.value >= 0.0
  {
    var cs := Reversed(listaApi);
    var a := Amplitudes(cs);
    forall k | 0 <= k < |a|
      ensures a[k] >= 0.0
    {
      assert cs[k] == listaApi[|listaApi| - 1 - k];
      assert WellFormed(listaApi[|listaApi| - 1 - k]);
    }
    IndicadoresOsciladores.RollingMeanNonNegative(a, PeriodoAtr, i);
  }

  // ---------------------------------------------------------------------
  // Position size

  /** Python's round(x) to an integer, half to even. */
  function ArredondaPar(x: real): (n: int)
    ensures -0.5 <= n as real - x <= 0.5
  {
    var f := x.Floor;
    var fracao := x - f as real;
    if fracao < 0.5 then f
    else if fracao > 0.5 then f + 1
    else if f % 2 == 0 then f
    else f + 1
  }

  /** round(x, 3): a whole number of thousandths within half a thousandth
      of x. */
  function Arredonda3(x: real): (y: real)
    ensures -0.0005 <= y - x <= 0.0005
    ensures y * 1000.0 == (y * 1000.0).Floor as real
  {
    ArredondaPar(x * 1000.0) as real / 1000.0
  }

  /** qty = max(round(risk / distance, 3), min_qty). */
  function Quantidade(risco: real, distancia: real, minimo: real): (q: real)
    requires distancia != 0.0
    ensures q >= minimo && q >= Arredonda3(risco / distancia)
    ensures q == minimo || q == Arredonda3(risco / distancia)
  {
    var q := Arredonda3(risco / distancia);
    if q > minimo then q else minimo
  }

  /** The 2% risk is a target, not a bound: when the rounded quantity is
      below the minimum the minimum is sent, and with a balance of 100, a
      distance of 1 and a minimum of 10 the trade risks 10, five times the
      2 the rule allows. */
  lemma RiscoPodeExceder()
    ensures Quantidade(100.0 * RiscoPorTrade, 1.0, 10.0) * 1.0 > 100.0 * RiscoPorTrade
  {
    assert Arredonda3(2.0) <= 2.0005;
  }

  /** When the minimum does not bind, the quantity sent is within half a
      thousandth of the quantity that risks exactly 2% of the balance. */
  lemma RiscoDentroDoArredondamento(saldo: real, distancia: real, minimo: real)
    requires distancia != 0.0 && Arredonda3(saldo * RiscoPorTrade / distancia) >= minimo
    ensures var q := Quantidade(saldo * RiscoPorTrade, distancia, minimo);
      -0.0005 <= q - saldo * RiscoPorTrade / distancia <= 0.0005
  {
  }

  // ---------------------------------------------------------------------
  // The bot

  /** abre_trade: one market order, with no check of the answer. */
  function AbreTrade(cripto: string, side: string, qty: real, stop: real, alvo: real): (o: Order)
    ensures o.category == "linear" && o.orderType == "Market" && o.symbol == cripto && o.side == side
    ensures o.qty == qty && o.stopLoss == stop && o.takeProfit == alvo
  {
    Order("linear", cripto, side, "Market", qty, stop, alvo)
  }

  /** The loop variables: the local trade state, the candle that closed
      the last trade, and the orders sent. */
  datatype Robo = Robo(estado: Option<Posicao>, velaFechouTrade: Option<int>, ordens: seq<Order>)

  /** What one pass observes; Err stands for a call that raised, and envio
      is whether place_order went through. */
  datatype Ciclo = Ciclo(klines: Result<seq<Candle>>, klinesMaior: Result<seq<Candle>>,
                         posicoes: Result<seq<PositionRecord>>, saldo: Result<real>,
                         minimo: Result<real>, envio: bool)

  /** The trend of the five-minute chart: UP iff its EMA 50 rose on the
      last candle; a tie counts as DOWN. */
  predicate TendenciaAlta(dfMaior: seq<Linha>)
    requires |dfMaior| >= 2 && |dfMaior[|dfMaior| - 1].ema| >= 1 && |dfMaior[|dfMaior| - 2].ema| >= 1
  {
    dfMaior[|dfMaior| - 1].ema[0] > dfMaior[|dfMaior| - 2].ema[0]
  }

  predicate AlinhamentoAlta(df: seq<Linha>)
    requires |df| >= 2 && |df[|df| - 2].ema| >= 2
  {
    var ref := df[|df| - 2];
    ref.candle.close > ref.ema[0] > ref.ema[1] && df[|df| - 1].candle.high > ref.candle.high
  }

  predicate AlinhamentoBaixa(df: seq<Linha>)
    requires |df| >= 2 && |df[|df| - 2].ema| >= 2
  {
    var ref := df[|df| - 2];
    ref.candle.close < ref.ema[0] < ref.ema[1] && df[|df| - 1].candle.low < ref.candle.low
  }

  /** Looking for a trade. The long stop sits 1.5 ATRs below the low of the
      candle before the reference one, the target twice the distance above
      the reference high; the short mirrors it. A frame of two candles
      raises at the third-last one; an undefined ATR or a zero distance
      gives prices or a quantity the order cannot carry. The model makes
      no entry on an undefined (NaN) ATR: it relies on the exchange
      rejecting an order whose stop or quantity is NaN. */
  function Procura(r: Robo, df: seq<Linha>, alta: bool, c: Ciclo): Robo
    requires |df| >= 2 && forall i :: 0 <= i < |df| ==> |df[i].ema| == |Emas|
  {
    if c.saldo.Err? || c.minimo.Err? then r
    else
      var risco := c.saldo.value * Alavancagem * RiscoPorTrade;
      var atr := df[|df| - 1].atr;
      var ref := df[|df| - 2].candle;
      if alta then
        if !AlinhamentoAlta(df) || |df| < 3 || atr.None? then r
        else
          var stop := df[|df| - 3].candle.low - atr.value * MultiplicadorAtr;
          var alvo := ref.high + RiscoRetorno * (ref.high - stop);
          if ref.high - stop == 0.0 || !c.envio then r
          else
            var qtd := Quantidade(risco, ref.high - stop, c.minimo.value);
            r.(estado := Some(Long), ordens := r.ordens + [AbreTrade(Cripto, "Buy", qtd, stop, alvo)])
      else
        if !AlinhamentoBaixa(df) || |df| < 3 || atr.None? then r
        else
          var stop := df[|df| - 3].candle.high + atr.value * MultiplicadorAtr;
          var alvo := ref.low - RiscoRetorno * (stop - ref.low);
          if stop - ref.low == 0.0 || !c.envio then r
          else
            var qtd := Quantidade(risco, stop - ref.low, c.minimo.value);
            r.(estado := Some(Short), ordens := r.ordens + [AbreTrade(Cripto, "Sell", qtd, stop, alvo)])
  }

  /** One pass of the corrected script. The trend is read before anything
      else, so a five-minute frame of one candle skips the pass even in a
      trade. In a trade the state clears only when the exchange reports no
      position, and that candle is stamped. */
  function Passo(r: Robo, c: Ciclo): Robo {
    if c.klines.Err? || c.klinesMaior.Err? then r
    else
      var df := Quadro(c.klines.value, Emas);
      var dfMaior := Quadro(c.klinesMaior.value, [EmaTendencia]);
      if |df| == 0 || |dfMaior| < 2 then r
      else
        var alta := TendenciaAlta(dfMaior);
        if r.estado.Some? then
          if c.posicoes.Err? then r
          else
            var leitura := TemTradeAberto(c.posicoes.value);
            if leitura.Err? || leitura.value.estado.Some? then r
            else r.(estado := None, velaFechouTrade := Some(df[|df| - 1].candle.openTime))
        else if r.velaFechouTrade == Some(df[|df| - 1].candle.openTime) || |df| < 2 then r
        else Procura(r, df, alta, c)
  }

  function Executa(r: Robo, ciclos: seq<Ciclo>): Robo
    decreases |ciclos|
  {
    if ciclos == [] then r else Passo(Executa(r, ciclos[..|ciclos| - 1]), ciclos[|ciclos| - 1])
  }

  /** One pass of the loop, on the script's own variables. */
  method ExecutaPasso(r0: Robo, c: Ciclo) returns (r: Robo)
    ensures r == Passo(r0, c)
  {
    r := r0;
    if c.klines.Err? || c.klinesMaior.Err? {
      return;
    }
    var df := Quadro(c.klines.value, Emas);
    var dfMaior := Quadro(c.klinesMaior.value, [EmaTendencia]);
    if |df| == 0 || |dfMaior| == 0 {
      return;
    }
    if |dfMaior| < 2 {
      return;
    }
    var alta := dfMaior[|dfMaior| - 1].ema[0] > dfMaior[|dfMaior| - 2].ema[0];
    if r.estado.Some? {
      if c.posicoes.Err? {
        return;
      }
      var leitura := TemTradeAberto(c.posicoes.value);
      if leitura.Ok? && leitura.value.estado.None? {
        r := r.(estado := None, velaFechouTrade := Some(df[|df| - 1].candle.openTime));
      }
    } else if r.velaFechouTrade != Some(df[|df| - 1].candle.openTime) && |df| >= 2 {
      r := Procura(r, df, alta, c);
    }
  }

  /** The script: the startup read (which is not retried, so a failure
      ends the program), then the loop over the given passes. */
  method Executar(inicio: Result<seq<PositionRecord>>, ciclos: seq<Ciclo>) returns (robo: Option<Robo>)
    ensures inicio.Err? || TemTradeAberto(inicio.value).Err? ==> robo.None?
    ensures inicio.Ok? && TemTradeAberto(inicio.value).Ok? ==>
      robo == Some(Executa(Robo(TemTradeAberto(inicio.value).value.estado, None, []), ciclos))
  {
    if inicio.Err? {
      return None;
    }
    var leitura := TemTradeAberto(inicio.value);
    if leitura.Err? {
      return None;
    }
    var r := Robo(leitura.value.estado, None, []);
    ghost var r0 := r;
    var i := 0;
    while i < |ciclos|
      invariant 0 <= i <= |ciclos|
      invariant r == Executa(r0, ciclos[..i])
    {
      assert ciclos[..i + 1][..i] == ciclos[..i];
      r := ExecutaPasso(r, ciclos[i]);
      i := i + 1;
    }
    assert ciclos[..i] == ciclos;
    return Some(r);
  }

  // ---------------------------------------------------------------------
  // Properties of the corrected script

  /** In a trade, the state clears exactly when the exchange reports no
      position (an empty list or a side other than Buy and Sell), and the
      newest candle is stamped. */
  lemma SaiSoSemPosicao(r: Robo, c: Ciclo)
    requires r.estado.Some? && c.klines.Ok? && c.klinesMaior.Ok?
    requires |c.klines.value| > 0 && |c.klinesMaior.value| >= 2 && c.posicoes.Ok?
    requires TemTradeAberto(c.posicoes.value).Ok?
    ensures var p := Passo(r, c);
      && (p.estado.None? <==> TemTradeAberto(c.posicoes.value).value.estado.None?)
      && (p.estado.None? ==> p.velaFechouTrade == Some(c.klines.value[0].openTime))
      && p.ordens == r.ordens
  {
    var df := Quadro(c.klines.value, Emas);
    assert df[|df| - 1].candle == c.klines.value[0];
  }

  /** A pass whose newest candle closed the last trade changes nothing
      while the bot is out. */
  lemma ReentradaBloqueada(r: Robo, c: Ciclo)
    requires r.estado.None? && c.klines.Ok? && |c.klines.value| > 0
    requires r.velaFechouTrade == Some(c.klines.value[0].openTime)
    ensures Passo(r, c) == r
  {
    var df := Quadro(c.klines.value, Emas);
    assert df[|df| - 1].candle == c.klines.value[0];
  }

  /** The long branch of Procura: the bullish alignment, a defined ATR,
      and an order of at least the minimum quantity with the stop 1.5 ATRs under the third-last low and the
      target twice the risk above the reference high. */
  lemma ProcuraLong(r: Robo, df: seq<Linha>, alta: bool, c: Ciclo)
    requires |df| >= 2 && forall i :: 0 <= i < |df| ==> |df[i].ema| == |Emas|
    requires r.estado.None? && Procura(r, df, alta, c).estado == Some(Long)
    ensures var p := Procura(r, df, alta, c);
      && alta && |df| >= 3 && AlinhamentoAlta(df) && df[|df| - 1].atr.Some?
      && |p.ordens| == |r.ordens| + 1 && p.ordens[..|r.ordens|] == r.ordens
      && var o := p.ordens[|r.ordens|];
         && o.side == "Buy" && c.minimo.Ok? && o.qty >= c.minimo.value
         && o.stopLoss == df[|df| - 3].candle.low - 1.5 * df[|df| - 1].atr.value
         && o.takeProfit - df[|df| - 2].candle.high == 2.0 * (df[|df| - 2].candle.high - o.stopLoss)
  {
  }

  /** The short branch of Procura, mirrored. */
  lemma ProcuraShort(r: Robo, df: seq<Linha>, alta: bool, c: Ciclo)
    requires |df| >= 2 && forall i :: 0 <= i < |df| ==> |df[i].ema| == |Emas|
    requires r.estado.None? && Procura(r, df, alta, c).estado == Some(Short)
    ensures var p := Procura(r, df, alta, c);
      && !alta && |df| >= 3 && AlinhamentoBaixa(df) && df[|df| - 1].atr.Some?
      && |p.ordens| == |r.ordens| + 1 && p.ordens[..|r.ordens|] == r.ordens
      && var o := p.ordens[|r.ordens|];
         && o.side == "Sell" && c.minimo.Ok? && o.qty >= c.minimo.value
         && o.stopLoss == df[|df| - 3].candle.high + 1.5 * df[|df| - 1].atr.value
         && df[|df| - 2].candle.low - o.takeProfit == 2.0 * (o.stopLoss - df[|df| - 2].candle.low)
  {
  }

  /** A pass that opens a long saw an up trend on the five-minute chart. */
  lemma LongNaAlta(r: Robo, c: Ciclo)
    requires r.estado.None? && Passo(r, c).estado == Some(Long)
    ensures c.klines.Ok? && c.klinesMaior.Ok?
    ensures var dfMaior := Quadro(c.klinesMaior.value, [EmaTendencia]);
      |dfMaior| >= 2 && TendenciaAlta(dfMaior)
    ensures Passo(r, c) == Procura(r, Quadro(c.klines.value, Emas), true, c)
  {
    var df := Quadro(c.klines.value, Emas);
    var dfMaior := Quadro(c.klinesMaior.value, [EmaTendencia]);
    ProcuraLong(r, df, TendenciaAlta(dfMaior), c);
  }

  /** A pass that opens a short saw a down (or flat) trend. */
  lemma ShortNaBaixa(r: Robo, c: Ciclo)
    requires r.estado.None? && Passo(r, c).estado == Some(Short)
    ensures c.klines.Ok? && c.klinesMaior.Ok?
    ensures var dfMaior := Quadro(c.klinesMaior.value, [EmaTendencia]);
      |dfMaior| >= 2 && !TendenciaAlta(dfMaior)
    ensures Passo(r, c) == Procura(r, Quadro(c.klines.value, Emas), false, c)
  {
    var df := Quadro(c.klines.value, Emas);
    var dfMaior := Quadro(c.klinesMaior.value, [EmaTendencia]);
    ProcuraShort(r, df, TendenciaAlta(dfMaior), c);
  }

  // ---------------------------------------------------------------------
  // The script as written

  /** A pass of the script as written. The five-minute frame is requested
      with the single span [50]; busca_velas reads a second span and raises
      IndexError, which the loop's handler swallows. (Had it returned, the
      lookup of EMA_50, which busca_velas never builds, would raise
      KeyError.) */
  function PassoComoEscrito(r: Robo, c: Ciclo): Robo {
    if c.klines.Err? || BuscaVelas(c.klines.value, Emas).Err? then r
    else if c.klinesMaior.Err? then r
    else if BuscaVelas(c.klinesMaior.value, [EmaTendencia]).Err? then r
    else assert false; r
  }

  function ExecutaComoEscrito(r: Robo, ciclos: seq<Ciclo>): Robo
    decreases |ciclos|
  {
    if ciclos == [] then r else PassoComoEscrito(ExecutaComoEscrito(r, ciclos[..|ciclos| - 1]), ciclos[|ciclos| - 1])
  }

  /** As written the bot never trades and never leaves a trade: whatever
      the market and the exchange answer, every pass leaves its variables
      as they were. */
  lemma {:induction false} ComoEscritoNuncaAge(r: Robo, ciclos: seq<Ciclo>)
    ensures ExecutaComoEscrito(r, ciclos) == r
    decreases |ciclos|
  {
    if ciclos != [] {
      ComoEscritoNuncaAge(r, ciclos[..|ciclos| - 1]);
    }
  }

  /** The corrected script does trade: from a flat start, one pass with an
      up trend, the bullish alignment and an order that goes out opens a
      long. */
  lemma CorrigidoOpera(r: Robo, c: Ciclo)
    requires r.estado.None? && c.klines.Ok? && c.klinesMaior.Ok?
    requires |c.klines.value| >= 3 && |c.klinesMaior.value| >= 2
    requires r.velaFechouTrade != Some(c.klines.value[0].openTime)
    requires TendenciaAlta(Quadro(c.klinesMaior.value, [EmaTendencia]))
    requires AlinhamentoAlta(Quadro(c.klines.value, Emas))
    requires var df := Quadro(c.klines.value, Emas);
      df[|df| - 1].atr.Some? && df[|df| - 2].candle.high - (df[|df| - 3].candle.low - df[|df| - 1].atr.value * 1.5) != 0.0
    requires c.saldo.Ok? && c.minimo.Ok? && c.envio
    ensures Passo(r, c).estado == Some(Long)
  {
    var df := Quadro(c.klines.value, Emas);
    assert df[|df| - 1].candle == c.klines.value[0];
  }
}
