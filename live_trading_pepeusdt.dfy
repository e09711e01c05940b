/**
  The 1000PEPEUSDT reversal bot: after a run of red (green) candles a
  five-criterion score and a set of hard filters decide a long (short) at
  the previous candle's high (low); the stop distance is 2.5 ATRs capped by
  the 17-candle extreme and floored at 0.5% of the entry, the target 2.5
  distances away. In a trade the breakeven helper is asked for at 0.5% past
  the entry, and the target, the stop and a flat position end the trade.
*/
module LiveTradingPepeusdt {
  import opened Wrappers
  import opened Candles
  import opened EstadoTrade
  import opened FuncoesBybit
  import opened OperacaoAoVivo
  import ScoreQuantitativo
  import IndicadoresOsciladores
  import Atr
  import Utilidades

  const Cripto: string := "1000PEPEUSDT"
  const QtdVelasStop: nat := 17
  const RiscoRetorno: real := 2.5
  const Emas: seq<int> := [9, 21]
  const Alavancagem: real := 2.0
  const PeriodoRsi: nat := 14
  const PeriodoAtr: nat := 14
  const RsiSobrevendido: real := 45.0
  const RsiSobrecomprado: real := 55.0
  const VolumeLimiar: real := 0.8
  const MinVelasConsecutivas: nat := 2
  const MaxVelasConsecutivas: nat := 15
  const ScoreMinimoEntrada: nat := 4
  const ScoreMaximo: nat := 10
  const VelasMinimas: nat := 50

  // ---------------------------------------------------------------------
  // contar_velas_consecutivas

  /** The number of candles at the end of cs that closed above (alta) or
      below (!alta) their open: all of the last n do, the one before them,
      if any, does not. A doji ends both runs. */
  function Seguidas(cs: seq<Candle>, alta: bool): (n: nat)
    ensures n <= |cs|
    ensures forall j :: |cs| - n <= j < |cs| ==> (if alta then cs[j].close > cs[j].open else cs[j].close < cs[j].open)
    ensures n < |cs| ==> !(if alta then cs[|cs| - n - 1].close > cs[|cs| - n - 1].open
                           else cs[|cs| - n - 1].close < cs[|cs| - n - 1].open)
    decreases |cs|
  {
    if cs == [] then 0
    else
      var u := cs[|cs| - 1];
      if (if alta then u.close > u.open else u.close < u.open) then 1 + Seguidas(cs[..|cs| - 1], alta) else 0
  }

  /** The (green, red) pair contar_velas_consecutivas returns: (0, 0) with
      fewer than 10 rows. */
  function Contagem(cs: seq<Candle>): (r: (nat, nat))
    ensures |cs| < 10 ==> r == (0, 0)
    ensures r.0 == 0 || r.1 == 0
    ensures r.0 <= |cs| && r.1 <= |cs|
  {
    if |cs| < 10 then (0, 0) else (Seguidas(cs, true), Seguidas(cs, false))
  }

  /** A run of k candles ending cs, preceded by a candle outside it (or by
      nothing), is the run Seguidas measures. */
  lemma SeguidasUnica(cs: seq<Candle>, alta: bool, k: nat)
    requires k <= |cs|
    requires forall j :: |cs| - k <= j < |cs| ==> (if alta then cs[j].close > cs[j].open else cs[j].close < cs[j].open)
    requires k < |cs| ==> !(if alta then cs[|cs| - k - 1].close > cs[|cs| - k - 1].open
                            else cs[|cs| - k - 1].close < cs[|cs| - k - 1].open)
    ensures Seguidas(cs, alta) == k
  {
  }

  /** The two counting loops, each from the last candle back until the
      first candle that breaks it. */
  method ContarVelasConsecutivas(cs: seq<Candle>) returns (verdes: nat, vermelhas: nat)
    ensures (verdes, vermelhas) == Contagem(cs)
  {
    if |cs| < 10 {
      return 0, 0;
    }
    verdes := 0;
    var i := |cs|;
    while i > 0
      invariant 0 <= i <= |cs| && verdes == |cs| - i
      invariant forall j :: i <= j < |cs| ==> cs[j].close > cs[j].open
      decreases i
    {
      if cs[i - 1].close > cs[i - 1].open {
        verdes := verdes + 1;
      } else {
        break;
      }
      i := i - 1;
    }
    SeguidasUnica(cs, true, verdes);
    vermelhas := 0;
    i := |cs|;
    while i > 0
      invariant 0 <= i <= |cs| && vermelhas == |cs| - i
      invariant forall j :: i <= j < |cs| ==> cs[j].close < cs[j].open
      decreases i
    {
      if cs[i - 1].close < cs[i - 1].open {
        vermelhas := vermelhas + 1;
      } else {
        break;
      }
      i := i - 1;
    }
    SeguidasUnica(cs, false, vermelhas);
  }

  /** Over ten candles or more, the green count is positive exactly when the
      last candle is green and the red count exactly when it is red; a
      final doji gives (0, 0). */
  lemma ContagemSignifica(cs: seq<Candle>)
    requires |cs| >= 10
    ensures var u := cs[|cs| - 1];
      && (Contagem(cs).0 > 0 <==> u.close > u.open)
      && (Contagem(cs).1 > 0 <==> u.close < u.open)
  {
  }

  // ---------------------------------------------------------------------
  // sistema_score_reversoes

  /** The volume points on volume / Volume_EMA_20 (a float division: a zero
      EMA gives +inf for a positive volume and NaN for a zero one). */
  function PontosVolume(v: real, e: real): (p: nat)
    ensures p <= 2
    ensures e > 0.0 ==> (p == 2 <==> v > VolumeLimiar * e) && (p == 1 <==> 0.5 * e < v <= VolumeLimiar * e)
    ensures e == 0.0 ==> (p == 2 <==> v > 0.0) && p != 1
  {
    if e == 0.0 then (if v > 0.0 then 2 else 0)
    else
      var ratio := v / e;
      RazaoAcima(v, e, VolumeLimiar);
      RazaoAcima(v, e, 0.5);
      if ratio > VolumeLimiar then 2 else if ratio > 0.5 then 1 else 0
  }

  /** Dividing by a positive amount keeps the comparison. */
  lemma RazaoAcima(v: real, e: real, k: real)
    requires e != 0.0
    ensures e > 0.0 ==> (v / e > k <==> v > k * e)
  {
    if e > 0.0 {
      assert v / e * e == v;
      if v / e > k {
        assert v / e * e > k * e;
      } else {
        assert v / e * e <= k * e;
      }
    }
  }

  /** The RSI column of calcular_indicadores_quantitativos (14-candle
      rolling means) at the candle before the last. */
  function RsiPenultima(df: seq<Row>): (r: Option<real>)
    requires |df| >= 2
  {
    IndicadoresOsciladores.RsiAt(Closes(Velas(df)), PeriodoRsi, |df| - 2)
  }

  /** sistema_score_reversoes: 0 with fewer than 50 main rows or 20
      confirmation candles; otherwise 3 for the RSI of the candle before the
      last in the reversal zone, up to 2 for volume, 2 for a break of the
      previous high (low), 2 for a run count in [2, 15], and 1 for the
      confirmation close on the side of its 200 EMA. listaConf is the
      confirmation klines as listed, newest first. */
  function ScoreReversao(df: seq<Row>, listaConf: seq<Candle>, velas: nat, compra: bool): (s: nat)
    ensures |df| < VelasMinimas || |listaConf| < 20 ==> s == 0
    ensures s <= ScoreMaximo
  {
    if |df| < VelasMinimas || |listaConf| < 20 then 0
    else
      var ultima := df[|df| - 1].candle;
      var penultima := df[|df| - 2].candle;
      var rsi := RsiPenultima(df);
      var conf := ScoreQuantitativo.EmasConfirmacao(listaConf);
      var fechConf := listaConf[0].close;
      var contagem := ScoreQuantitativo.Pontos(MinVelasConsecutivas <= velas <= MaxVelasConsecutivas, 2);
      var volume := PontosVolume(ultima.volume, df[|df| - 1].volumeEma20);
      if compra then
        ScoreQuantitativo.Pontos(Below(rsi, RsiSobrevendido), 3) + volume
          + ScoreQuantitativo.Pontos(ultima.high > penultima.high, 2) + contagem
          + ScoreQuantitativo.Pontos(fechConf > conf.ema200, 1)
      else
        ScoreQuantitativo.Pontos(Above(rsi, RsiSobrecomprado), 3) + volume
          + ScoreQuantitativo.Pontos(ultima.low < penultima.low, 2) + contagem
          + ScoreQuantitativo.Pontos(fechConf < conf.ema200, 1)
  }

  /** The buy filters: RSI of the candle before the last under 45, volume
      over its EMA, a break of the previous high, and two red candles. */
  predicate FiltrosCompra(df: seq<Row>, vermelhas: nat)
    requires |df| >= 2
  {
    Below(RsiPenultima(df), RsiSobrevendido) && df[|df| - 1].candle.volume > df[|df| - 1].volumeEma20
    && df[|df| - 1].candle.high > df[|df| - 2].candle.high && vermelhas >= MinVelasConsecutivas
  }

  /** The sell filters mirror them with RSI over 55, a break of the
      previous low and two green candles. */
  predicate FiltrosVenda(df: seq<Row>, verdes: nat)
    requires |df| >= 2
  {
    Above(RsiPenultima(df), RsiSobrecomprado) && df[|df| - 1].candle.volume > df[|df| - 1].volumeEma20
    && df[|df| - 1].candle.low < df[|df| - 2].candle.low && verdes >= MinVelasConsecutivas
  }

  /** The entry the pass takes: Some(true) for a long, Some(false) for a
      short. The buy score is fed the red count, the sell score the green
      count. */
  function Decisao(df: seq<Row>, listaConf: seq<Candle>): (d: Option<bool>)
    requires |df| >= VelasMinimas
    ensures var (verdes, vermelhas) := Contagem(Velas(df));
      var sc := ScoreReversao(df, listaConf, vermelhas, true);
      var sv := ScoreReversao(df, listaConf, verdes, false);
      && (d == Some(true) <==> sc >= ScoreMinimoEntrada && sc > sv && FiltrosCompra(df, vermelhas))
      && (d == Some(false) <==> !(sc >= ScoreMinimoEntrada && sc > sv && FiltrosCompra(df, vermelhas))
                                && sv >= ScoreMinimoEntrada && sv > sc && FiltrosVenda(df, verdes))
  {
    var (verdes, vermelhas) := Contagem(Velas(df));
    var sc := ScoreReversao(df, listaConf, vermelhas, true);
    var sv := ScoreReversao(df, listaConf, verdes, false);
    if sc >= ScoreMinimoEntrada && sc > sv && FiltrosCompra(df, vermelhas) then Some(true)
    else if sv >= ScoreMinimoEntrada && sv > sc && FiltrosVenda(df, verdes) then Some(false)
    else None
  }

  /** The buy filters already earn 3 + 2 + 2 points, and 2 more while the
      red run is at most 15 candles: the minimum score of 4 never binds
      once they hold (with a non-negative volume EMA). */
  lemma FiltrosGarantemScore(df: seq<Row>, listaConf: seq<Candle>, vermelhas: nat)
    requires |df| >= VelasMinimas && |listaConf| >= 20 && df[|df| - 1].volumeEma20 >= 0.0
    requires FiltrosCompra(df, vermelhas)
    ensures ScoreReversao(df, listaConf, vermelhas, true) >= 7
    ensures vermelhas <= MaxVelasConsecutivas ==> ScoreReversao(df, listaConf, vermelhas, true) >= 9
  {
    var u := df[|df| - 1];
    if u.volumeEma20 > 0.0 {
      assert u.candle.volume > VolumeLimiar * u.volumeEma20;
    }
  }

  /** After a green candle the red count is 0, so a long never gets the
      run-count points on it. */
  lemma CompraAposVelaVerde(df: seq<Row>, listaConf: seq<Candle>)
    requires |df| >= VelasMinimas && |listaConf| >= 20
    requires df[|df| - 1].candle.close > df[|df| - 1].candle.open
    ensures Contagem(Velas(df)).1 == 0
    ensures ScoreReversao(df, listaConf, Contagem(Velas(df)).1, true) <= ScoreMaximo - 2
  {
    ContagemSignifica(Velas(df));
  }

  // ---------------------------------------------------------------------
  // calcular_stop_dinamico

  /** The stop distance: the smaller of 2.5 ATRs and the distance to the
      lowest low (highest high) of the last 17 candles, floored at 0.5% of
      the entry. */
  function StopDinamico(cs: seq<Candle>, compra: bool, entrada: real, atr: real): (d: real)
    requires |cs| > 0
    ensures d >= entrada * 0.005
    ensures d == entrada * 0.005 || (d <= atr * 2.5 &&
      (if compra then d <= entrada - Min(Tail(Lows(cs), QtdVelasStop)) else d <= Max(Tail(Highs(cs), QtdVelasStop)) - entrada))
    ensures d == entrada * 0.005 || d == atr * 2.5 ||
      d == (if compra then entrada - Min(Tail(Lows(cs), QtdVelasStop)) else Max(Tail(Highs(cs), QtdVelasStop)) - entrada)
  {
    var stopAtr := atr * 2.5;
    var stopSr := if compra then entrada - Min(Tail(Lows(cs), QtdVelasStop)) else Max(Tail(Highs(cs), QtdVelasStop)) - entrada;
    var m := if stopSr < stopAtr then stopSr else stopAtr;
    var minimo := entrada * 0.005;
    if minimo > m then minimo else m
  }

  /** Unless the 0.5% floor decides, a long's stop is never below the
      lowest low of the last 17 candles. */
  lemma StopNaoAbaixoDoSuporte(cs: seq<Candle>, entrada: real, atr: real)
    requires |cs| > 0
    ensures var d := StopDinamico(cs, true, entrada, atr);
      d == entrada * 0.005 || entrada - d >= Min(Tail(Lows(cs), QtdVelasStop))
  {
  }

  // ---------------------------------------------------------------------
  // The loop

  /** What one pass observes: the 15m and 1h klines (Err when
      buscar_dados_multi_timeframe failed), the position reads, whether the
      breakeven helper returned, and the entry calls. */
  datatype Ciclo = Ciclo(klines: Result<seq<Candle>>, klinesConf: Result<seq<Candle>>,
                         leitura: seq<Result<OpenTrade>>, breakevenOk: bool, confirmacao: seq<Result<OpenTrade>>,
                         saldo: Result<real>, minimo: Result<real>, envio: bool, parcialOk: bool)

  datatype Robo = Robo(bot: Bot, pedidos: seq<Pedido>)

  /** The COMPRADO or VENDIDO branch: the breakeven helper at 0.5% past
      the entry (a call that raises ends the pass), then the exchange's
      target, its stop and a second read reporting the position flat. The
      prices read are local: the bot's own do not change. */
  function Acompanha(r: Robo, lado: Estado, vela: Candle, c: Ciclo): (s: Robo)
    requires lado != DeFora
    ensures s.bot.entrada == r.bot.entrada && s.bot.stop == r.bot.stop && s.bot.alvo == r.bot.alvo
    ensures s.bot.ordens == r.bot.ordens
    ensures !c.breakevenOk ==> s == r
    ensures s.bot.estado == r.bot.estado || s.bot.estado == Mapped(DeFora)
  {
    var leitura := ScoreQuantitativo.VerificarTradeAberto(c.leitura);
    var pedido := if lado == Comprado
                  then BreakevenCompra(r.bot.entrada, r.bot.entrada * 1.005, Mapped(Comprado), vela.close)
                  else BreakevenVenda(r.bot.entrada, r.bot.entrada * 0.995, Mapped(Vendido), vela.close);
    if !c.breakevenOk then r
    else
      var fora := ReportaFora(ScoreQuantitativo.VerificarTradeAberto(c.confirmacao));
      var m := if lado == Comprado then MotivoComprado(vela, leitura.precoStop, leitura.precoAlvo, fora)
               else MotivoVendido(vela, leitura.precoStop, leitura.precoAlvo, fora);
      Robo(if m.Some? then Fecha(r.bot, vela, m.value) else r.bot, r.pedidos + [pedido])
  }

  /** Opening at entrada with distance d: the stop d away, the target 2.5
      distances the other way, the partial-exit helper once the order went
      out. */
  function Posiciona(r: Robo, compra: bool, entrada: real, d: real, c: Ciclo, qtd: real): (s: Robo)
    ensures s.bot.entrada == entrada
    ensures s.bot.stop == (if compra then entrada - d else entrada + d)
    ensures s.bot.alvo == (if compra then entrada + d * RiscoRetorno else entrada - d * RiscoRetorno)
    ensures c.envio ==> s.bot.estado == Mapped(if compra then Comprado else Vendido)
    ensures c.envio ==> s.bot.ordens == r.bot.ordens + [if compra then AbreCompra(Cripto, qtd, s.bot.stop, s.bot.alvo)
                                                         else AbreVenda(Cripto, qtd, s.bot.stop, s.bot.alvo)]
    ensures !c.envio ==> s.bot.estado == r.bot.estado && s.bot.ordens == r.bot.ordens && s.pedidos == r.pedidos
  {
    if compra then
      var stop := entrada - d;
      var alvo := entrada + d * RiscoRetorno;
      var b := Entra(r.bot, Comprado, AbreCompra(Cripto, qtd, stop, alvo), entrada, stop, alvo, c.envio);
      Robo(b, if c.envio && c.parcialOk then r.pedidos + [ParcialCompra(qtd, entrada)] else r.pedidos)
    else
      var stop := entrada + d;
      var alvo := entrada - d * RiscoRetorno;
      var b := Entra(r.bot, Vendido, AbreVenda(Cripto, qtd, stop, alvo), entrada, stop, alvo, c.envio);
      Robo(b, if c.envio && c.parcialOk then r.pedidos + [ParcialVenda(qtd, entrada)] else r.pedidos)
  }

  /** The entry once the quantity and the decision are known: a long at
      the previous candle's high, a short at its low. */
  function Entrada(r: Robo, df: seq<Row>, c: Ciclo, qtd: Result<real>, d: Option<bool>): (s: Robo)
    requires |df| >= VelasMinimas
    ensures qtd.Err? || d.None? ==> s == r
  {
    var atr := Atr.AtrAtual(Velas(df), PeriodoAtr).value;
    if qtd.Err? || d.None? then r
    else
      var entrada := if d.value then df[|df| - 2].candle.high else df[|df| - 2].candle.low;
      Posiciona(r, d.value, entrada, StopDinamico(Velas(df), d.value, entrada, atr), c, qtd.value)
  }

  /** The DE_FORA branch: balance, minimum lot and quantity are read first
      (any of them raising ends the pass), then the scores and filters. */
  function Procura(r: Robo, df: seq<Row>, listaConf: seq<Candle>, c: Ciclo): (s: Robo)
    requires |df| >= VelasMinimas
  {
    if c.saldo.Err? || c.minimo.Err? then r
    else
      Entrada(r, df, c, Utilidades.QuantidadeCriptoParaOperar(c.saldo.value * Alavancagem, c.minimo.value,
                                                              df[|df| - 1].candle.close),
              Decisao(df, listaConf))
  }

  /** One pass; missing data or fewer than 50 candles skip it. */
  function Passo(r: Robo, c: Ciclo): Robo {
    if c.klines.Err? || c.klinesConf.Err? then r
    else
      var df := BuscaVelas(c.klines.value, Emas);
      if df.Err? || |df.value| < VelasMinimas then r
      else
        var vela := df.value[|df.value| - 1].candle;
        if r.bot.estado == Mapped(Comprado) then Acompanha(r, Comprado, vela, c)
        else if r.bot.estado == Mapped(Vendido) then Acompanha(r, Vendido, vela, c)
        else if r.bot.estado == Mapped(DeFora) && PodeProcurar(r.bot, df.value) then
          Procura(r, df.value, c.klinesConf.value, c)
        else r
  }

  function Executa(r: Robo, ciclos: seq<Ciclo>): Robo
    decreases |ciclos|
  {
    if ciclos == [] then r else Passo(Executa(r, ciclos[..|ciclos| - 1]), ciclos[|ciclos| - 1])
  }

  /** The trade branch, step by step. */
  method AcompanhaPasso(r0: Robo, lado: Estado, atual: Candle, c: Ciclo) returns (r: Robo)
    requires lado != DeFora
    ensures r == Acompanha(r0, lado, atual, c)
  {
    r := r0;
    var b := r.bot;
    var leitura := ScoreQuantitativo.VerificarTradeAberto(c.leitura);
    if !c.breakevenOk {
      return;
    }
    var fora := ScoreQuantitativo.VerificarTradeAberto(c.confirmacao).estado == Mapped(DeFora);
    if lado == Comprado {
      r := r.(pedidos := r.pedidos + [BreakevenCompra(b.entrada, b.entrada * 1.005, Mapped(Comprado), atual.close)]);
      if atual.high >= leitura.precoAlvo {
        b := Fecha(b, atual, BateuAlvo);
      } else if atual.low <= leitura.precoStop {
        b := Fecha(b, atual, BateuStop);
      } else if fora {
        b := Fecha(b, atual, FechadoNaCorretora);
      }
    } else {
      r := r.(pedidos := r.pedidos + [BreakevenVenda(b.entrada, b.entrada * 0.995, Mapped(Vendido), atual.close)]);
      if atual.low <= leitura.precoAlvo {
        b := Fecha(b, atual, BateuAlvo);
      } else if atual.high >= leitura.precoStop {
        b := Fecha(b, atual, BateuStop);
      } else if fora {
        b := Fecha(b, atual, FechadoNaCorretora);
      }
    }
    r := r.(bot := b);
  }

  /** One pass of the loop, on the script's own variables. */
  method ExecutaPasso(r0: Robo, c: Ciclo) returns (r: Robo)
    ensures r == Passo(r0, c)
  {
    r := r0;
    if c.klines.Err? || c.klinesConf.Err? {
      return;
    }
    var df := BuscaVelas(c.klines.value, Emas);
    if df.Err? || |df.value| < VelasMinimas {
      return;
    }
    var atual := df.value[|df.value| - 1].candle;
    if r.bot.estado == Mapped(Comprado) {
      r := AcompanhaPasso(r, Comprado, atual, c);
    } else if r.bot.estado == Mapped(Vendido) {
      r := AcompanhaPasso(r, Vendido, atual, c);
    } else if r.bot.estado == Mapped(DeFora) && r.bot.velaFechouTrade != Some(atual.openTime) {
      r := Procura(r, df.value, c.klinesConf.value, c);
    }
  }

  /** The script: the startup read, then the loop over the given passes. */
  method Executar(tentativas: seq<Result<OpenTrade>>, ciclos: seq<Ciclo>) returns (robo: Robo)
    ensures robo == Executa(Robo(BotDe(ScoreQuantitativo.VerificarTradeAberto(tentativas)), []), ciclos)
  {
    var inicio := Robo(BotDe(ScoreQuantitativo.VerificarTradeAberto(tentativas)), []);
    robo := inicio;
    var i := 0;
    while i < |ciclos|
      invariant 0 <= i <= |ciclos|
      invariant robo == Executa(inicio, ciclos[..i])
    {
      assert ciclos[..i + 1][..i] == ciclos[..i];
      robo := ExecutaPasso(robo, ciclos[i]);
      i := i + 1;
    }
    assert ciclos[..i] == ciclos;
  }

  // ---------------------------------------------------------------------
  // Properties

  /** A long whose order goes out: the bot is long from the previous
      candle's high e, the target 2.5 risks above, the stop at least 0.5%
      below, and one buy order of the quantity was sent. */
  lemma EntradaCompra(r: Robo, df: seq<Row>, c: Ciclo, qtd: real)
    requires |df| >= VelasMinimas && c.envio && df[|df| - 2].candle.high > 0.0
    ensures var p := Entrada(r, df, c, Ok(qtd), Some(true)).bot;
      var e := df[|df| - 2].candle.high;
      && p.estado == Mapped(Comprado) && p.entrada == e
      && p.alvo - e == RiscoRetorno * (e - p.stop)
      && e - p.stop >= e * 0.005 > 0.0
      && p.ordens == r.bot.ordens + [AbreCompra(Cripto, qtd, p.stop, p.alvo)]
  {
  }

  /** A short mirrors it from the previous candle's low. */
  lemma EntradaVenda(r: Robo, df: seq<Row>, c: Ciclo, qtd: real)
    requires |df| >= VelasMinimas && c.envio && df[|df| - 2].candle.low > 0.0
    ensures var p := Entrada(r, df, c, Ok(qtd), Some(false)).bot;
      var e := df[|df| - 2].candle.low;
      && p.estado == Mapped(Vendido) && p.entrada == e
      && e - p.alvo == RiscoRetorno * (p.stop - e)
      && p.stop - e >= e * 0.005 > 0.0
      && p.ordens == r.bot.ordens + [AbreVenda(Cripto, qtd, p.stop, p.alvo)]
  {
  }

  /** A bot in a trade runs the trade branch on the newest candle, the
      first kline the exchange lists. */
  lemma PassoEmTrade(r: Robo, c: Ciclo)
    requires c.klines.Ok? && c.klinesConf.Ok? && |c.klines.value| >= VelasMinimas
    requires r.bot.estado == Mapped(Comprado) || r.bot.estado == Mapped(Vendido)
    ensures Passo(r, c) == Acompanha(r, r.bot.estado.estado, c.klines.value[0], c)
  {
    var df := BuscaVelas(c.klines.value, Emas).value;
    assert df[|df| - 1].candle == c.klines.value[0];
  }

  /** The breakeven helper is asked for at entry * 1.005 in a long and
      entry * 0.995 in a short, with the last close. */
  lemma BreakevenPedido(r: Robo, lado: Estado, vela: Candle, c: Ciclo)
    requires lado != DeFora && c.breakevenOk
    ensures var e := r.bot.entrada;
      Acompanha(r, lado, vela, c).pedidos == r.pedidos + [if lado == Comprado
                                                          then BreakevenCompra(e, e * 1.005, Mapped(Comprado), vela.close)
                                                          else BreakevenVenda(e, e * 0.995, Mapped(Vendido), vela.close)]
  {
  }

  /** A candle reaching both the target and the stop of a long ends it as
      a win. */
  lemma AlvoPrimeiro(r: Robo, vela: Candle, c: Ciclo)
    requires c.breakevenOk
    requires var l := ScoreQuantitativo.VerificarTradeAberto(c.leitura);
      vela.high >= l.precoAlvo && vela.low <= l.precoStop
    ensures Acompanha(r, Comprado, vela, c).bot.fechamentos == r.bot.fechamentos + [Fechamento(vela.openTime, BateuAlvo)]
    ensures Acompanha(r, Comprado, vela, c).bot.velaFechouTrade == Some(vela.openTime)
  {
  }

  /** The candle that closed a trade does not open the next one. */
  lemma ReentradaBloqueada(r: Robo, c: Ciclo)
    requires r.bot.estado == Mapped(DeFora) && c.klines.Ok? && |c.klines.value| > 0
    requires r.bot.velaFechouTrade == Some(c.klines.value[0].openTime)
    ensures Passo(r, c) == r
  {
    var df := BuscaVelas(c.klines.value, Emas);
    if df.Ok? {
      assert df.value[|df.value| - 1].candle == c.klines.value[0];
    }
  }
}
