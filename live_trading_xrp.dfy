/**
  The XRPUSDT 15m quantitative bot: a nine-criterion score on the 15m frame
  and the 1h confirmation frame decides the entry, the stop distance is
  calcular_stop_dinamico's, the target 3.1 times that distance; in a trade
  the position is read again on every pass, the breakeven helper is asked
  for at 1% past the entry, and the target, the stop and a flat position
  end the trade.
*/
module LiveTradingXrp {
  import opened Wrappers
  import opened Candles
  import opened EstadoTrade
  import opened FuncoesBybit
  import opened OperacaoAoVivo
  import opened ScoreQuantitativo
  import Atr
  import Utilidades

  const Cripto: string := "XRPUSDT"
  const RiscoRetorno: real := 3.1
  const Emas: seq<int> := [9, 21]
  const Alavancagem: real := 2.0
  const PeriodoAtr: nat := 14
  const VelasMinimas: nat := 50

  /** What one pass observes: the 15m and 1h klines (Err when
      buscar_dados_multi_timeframe failed), the indicator values of the
      last 15m row, the reads verificar_trade_aberto makes (each up to
      three tries), whether the breakeven helper returned, and the entry
      calls. */
  datatype Ciclo = Ciclo(klines: Result<seq<Candle>>, klinesConf: Result<seq<Candle>>, osc: Osciladores,
                         leitura: seq<Result<OpenTrade>>, breakevenOk: bool, confirmacao: seq<Result<OpenTrade>>,
                         saldo: Result<real>, minimo: Result<real>, envio: bool, parcialOk: bool)

  datatype Robo = Robo(bot: Bot, pedidos: seq<Pedido>)

  /** The COMPRADO or VENDIDO branch. The stop and target read from the
      exchange are local to the pass: the bot's own prices do not change.
      The breakeven helper is called first (a call that raises ends the
      pass), then the target, the stop and a second read reporting the
      position flat are checked in that order. */
  function Acompanha(r: Robo, lado: Estado, vela: Candle, c: Ciclo): (s: Robo)
    requires lado != DeFora
    ensures s.bot.entrada == r.bot.entrada && s.bot.stop == r.bot.stop && s.bot.alvo == r.bot.alvo
    ensures s.bot.ordens == r.bot.ordens
    ensures !c.breakevenOk ==> s == r
    ensures c.breakevenOk ==> |s.pedidos| == |r.pedidos| + 1 && s.pedidos[..|r.pedidos|] == r.pedidos
    ensures s.bot.estado == r.bot.estado || s.bot.estado == Mapped(DeFora)
  {
    var leitura := VerificarTradeAberto(c.leitura);
    var pedido := if lado == Comprado
                  then BreakevenCompra(r.bot.entrada, r.bot.entrada * 1.01, Mapped(Comprado), vela.close)
                  else BreakevenVenda(r.bot.entrada, r.bot.entrada * 0.99, Mapped(Vendido), vela.close);
    if !c.breakevenOk then r
    else
      var fora := ReportaFora(VerificarTradeAberto(c.confirmacao));
      var m := if lado == Comprado then MotivoComprado(vela, leitura.precoStop, leitura.precoAlvo, fora)
               else MotivoVendido(vela, leitura.precoStop, leitura.precoAlvo, fora);
      Robo(if m.Some? then Fecha(r.bot, vela, m.value) else r.bot, r.pedidos + [pedido])
  }

  /** The entry the scores call for: Some(true) for a buy, Some(false) for
      a sell, None for none. */
  function Decisao(sc: nat, sv: nat): (d: Option<bool>)
    ensures d == Some(true) <==> sc >= ScoreMinimoEntrada && sc > sv
    ensures d == Some(false) <==> sv >= ScoreMinimoEntrada && sv > sc
  {
    if sc >= ScoreMinimoEntrada && sc > sv then Some(true)
    else if sv >= ScoreMinimoEntrada && sv > sc then Some(false)
    else None
  }

  /** Opening a trade at entrada with stop distance d: the stop d away,
      the target 3.1 distances the other way, and the partial-exit helper
      once the order went out. */
  function Posiciona(r: Robo, compra: bool, entrada: real, d: real, c: Ciclo, qtd: real): (s: Robo)
    ensures s.bot.entrada == entrada
    ensures s.bot.stop == (if compra then entrada - d else entrada + d)
    ensures s.bot.alvo == (if compra then entrada + d * RiscoRetorno else entrada - d * RiscoRetorno)
    ensures c.envio ==> s.bot.estado == Mapped(if compra then Comprado else Vendido)
    ensures c.envio ==> s.bot.ordens == r.bot.ordens + [if compra then AbreCompra(Cripto, qtd, s.bot.stop, s.bot.alvo)
                                                         else AbreVenda(Cripto, qtd, s.bot.stop, s.bot.alvo)]
    ensures !c.envio ==> s.bot.estado == r.bot.estado && s.bot.ordens == r.bot.ordens && s.pedidos == r.pedidos
    ensures s.bot.velaFechouTrade == r.bot.velaFechouTrade && s.bot.fechamentos == r.bot.fechamentos
  {
    if compra then
      var stop := entrada - d;
      var alvo := entrada + d * RiscoRetorno;
      var b := Entra(r.bot, Comprado, AbreCompra(Cripto, qtd, stop, alvo), entrada, stop, alvo, c.envio);
      Robo(b, if c.envio && c.parcialOk then r.pedidos + [ParcialCompra(qtd, entrada)] else r.pedidos)
    else
      var stop := entrada + d;
      var alvo := entrada - d * RiscoRetorno;
      var b := Entra(r.bot, Vendido, AbreVenda(Cripto, qtd, stop, alvo), entrada, stop, alvo, c.envio);
      Robo(b, if c.envio && c.parcialOk then r.pedidos + [ParcialVenda(qtd, entrada)] else r.pedidos)
  }

  /** The trade opens at the last close with calcular_stop_dinamico's
      distance. */
  function Abre(r: Robo, compra: bool, df: seq<Row>, atr: real, c: Ciclo, qtd: real): (s: Robo)
    requires |df| > 0
  {
    var entrada := df[|df| - 1].candle.close;
    Posiciona(r, compra, entrada, StopDinamico(Velas(df), compra, entrada, atr, c.osc.williams), c, qtd)
  }

  /** The DE_FORA branch: the balance, the minimum lot and the quantity are
      read first (any of them raising ends the pass), then both scores
      decide. */
  function Procura(r: Robo, df: seq<Row>, conf: seq<Candle>, c: Ciclo): (s: Robo)
    requires |df| >= VelasMinimas
  {
    if c.saldo.Err? || c.minimo.Err? then r
    else
      Entrada(r, df, c, Utilidades.QuantidadeCriptoParaOperar(c.saldo.value * Alavancagem, c.minimo.value,
                                                              df[|df| - 1].candle.close),
              Decisao(Score(df, conf, c.osc, true), Score(df, conf, c.osc, false)))
  }

  /** The entry once the quantity is known and the scores have decided,
      with the 14-candle ATR of the frame. */
  function Entrada(r: Robo, df: seq<Row>, c: Ciclo, qtd: Result<real>, d: Option<bool>): (s: Robo)
    requires |df| >= VelasMinimas
    ensures qtd.Err? || d.None? ==> s == r
  {
    var atr := Atr.AtrAtual(Velas(df), PeriodoAtr);
    if qtd.Err? || d.None? then r else Abre(r, d.value, df, atr.value, c, qtd.value)
  }

  /** One pass; missing data or fewer than 50 candles skip it. */
  function Passo(r: Robo, c: Ciclo): Robo {
    if c.klines.Err? || c.klinesConf.Err? then r
    else
      var df := BuscaVelas(c.klines.value, Emas);
      if df.Err? || |df.value| < VelasMinimas then r
      else
        var vela := df.value[|df.value| - 1].candle;
        if r.bot.estado == Mapped(Comprado) then Acompanha(r, Comprado, vela, c)
        else if r.bot.estado == Mapped(Vendido) then Acompanha(r, Vendido, vela, c)
        else if r.bot.estado == Mapped(DeFora) && PodeProcurar(r.bot, df.value) then
          Procura(r, df.value, c.klinesConf.value, c)
        else r
  }

  function Executa(r: Robo, ciclos: seq<Ciclo>): Robo
    decreases |ciclos|
  {
    if ciclos == [] then r else Passo(Executa(r, ciclos[..|ciclos| - 1]), ciclos[|ciclos| - 1])
  }

  /** One pass of the loop, on the script's own variables. */
  method ExecutaPasso(r0: Robo, c: Ciclo) returns (r: Robo)
    ensures r == Passo(r0, c)
  {
    r := r0;
    if c.klines.Err? || c.klinesConf.Err? {
      return;
    }
    var df := BuscaVelas(c.klines.value, Emas);
    if df.Err? || |df.value| < VelasMinimas {
      return;
    }
    var atual := df.value[|df.value| - 1].candle;
    if r.bot.estado == Mapped(Comprado) {
      r := AcompanhaPasso(r, Comprado, atual, c);
    } else if r.bot.estado == Mapped(Vendido) {
      r := AcompanhaPasso(r, Vendido, atual, c);
    } else if r.bot.estado == Mapped(DeFora) && r.bot.velaFechouTrade != Some(atual.openTime) {
      r := Procura(r, df.value, c.klinesConf.value, c);
    }
  }

  /** The trade branch, step by step. */
  method AcompanhaPasso(r0: Robo, lado: Estado, atual: Candle, c: Ciclo) returns (r: Robo)
    requires lado != DeFora
    ensures r == Acompanha(r0, lado, atual, c)
  {
    r := r0;
    var b := r.bot;
    var leitura := VerificarTradeAberto(c.leitura);
    if !c.breakevenOk {
      return;
    }
    var fora := VerificarTradeAberto(c.confirmacao).estado == Mapped(DeFora);
    if lado == Comprado {
      r := r.(pedidos := r.pedidos + [BreakevenCompra(b.entrada, b.entrada * 1.01, Mapped(Comprado), atual.close)]);
      if atual.high >= leitura.precoAlvo {
        b := Fecha(b, atual, BateuAlvo);
      } else if atual.low <= leitura.precoStop {
        b := Fecha(b, atual, BateuStop);
      } else if fora {
        b := Fecha(b, atual, FechadoNaCorretora);
      }
    } else {
      r := r.(pedidos := r.pedidos + [BreakevenVenda(b.entrada, b.entrada * 0.99, Mapped(Vendido), atual.close)]);
      if atual.low <= leitura.precoAlvo {
        b := Fecha(b, atual, BateuAlvo);
      } else if atual.high >= leitura.precoStop {
        b := Fecha(b, atual, BateuStop);
      } else if fora {
        b := Fecha(b, atual, FechadoNaCorretora);
      }
    }
    r := r.(bot := b);
  }

  /** The script: the startup read (which cannot fail: three failed tries
      read as flat), then the loop over the given passes. */
  method Executar(tentativas: seq<Result<OpenTrade>>, ciclos: seq<Ciclo>) returns (robo: Robo)
    ensures robo == Executa(Robo(BotDe(VerificarTradeAberto(tentativas)), []), ciclos)
  {
    var inicio := Robo(BotDe(VerificarTradeAberto(tentativas)), []);
    robo := inicio;
    var i := 0;
    while i < |ciclos|
      invariant 0 <= i <= |ciclos|
      invariant robo == Executa(inicio, ciclos[..i])
    {
      assert ciclos[..i + 1][..i] == ciclos[..i];
      robo := ExecutaPasso(robo, ciclos[i]);
      i := i + 1;
    }
    assert ciclos[..i] == ciclos;
  }

  // ---------------------------------------------------------------------
  // Properties

  /** A buy at a positive last close e whose order goes out: the bot is
      long from e, the target is 3.1 times the risk above e, the stop at
      least 0.5% below it, and exactly one buy order of the computed
      quantity was sent. */
  lemma EntradaCompra(r: Robo, df: seq<Row>, c: Ciclo, qtd: real)
    requires |df| >= VelasMinimas && c.envio && df[|df| - 1].candle.close > 0.0
    ensures var p := Entrada(r, df, c, Ok(qtd), Some(true)).bot;
      var e := df[|df| - 1].candle.close;
      && p.estado == Mapped(Comprado) && p.entrada == e
      && p.alvo - e == RiscoRetorno * (e - p.stop)
      && e - p.stop >= e * 0.005 > 0.0
      && p.ordens == r.bot.ordens + [AbreCompra(Cripto, qtd, p.stop, p.alvo)]
  {
    var atr := Atr.AtrAtual(Velas(df), PeriodoAtr).value;
    assert Entrada(r, df, c, Ok(qtd), Some(true)) == Abre(r, true, df, atr, c, qtd);
  }

  /** A sell mirrors the buy: the stop at least 0.5% above the last close,
      the target 3.1 risks below it. */
  lemma EntradaVenda(r: Robo, df: seq<Row>, c: Ciclo, qtd: real)
    requires |df| >= VelasMinimas && c.envio && df[|df| - 1].candle.close > 0.0
    ensures var p := Entrada(r, df, c, Ok(qtd), Some(false)).bot;
      var e := df[|df| - 1].candle.close;
      && p.estado == Mapped(Vendido) && p.entrada == e
      && e - p.alvo == RiscoRetorno * (p.stop - e)
      && p.stop - e >= e * 0.005 > 0.0
      && p.ordens == r.bot.ordens + [AbreVenda(Cripto, qtd, p.stop, p.alvo)]
  {
    var atr := Atr.AtrAtual(Velas(df), PeriodoAtr).value;
    assert Entrada(r, df, c, Ok(qtd), Some(false)) == Abre(r, false, df, atr, c, qtd);
  }

  /** A bot in a trade, with both frames read and 50 candles, runs the
      trade branch on the newest candle, which is the first kline the
      exchange lists. */
  lemma PassoEmTrade(r: Robo, c: Ciclo)
    requires c.klines.Ok? && c.klinesConf.Ok? && |c.klines.value| >= VelasMinimas
    requires r.bot.estado == Mapped(Comprado) || r.bot.estado == Mapped(Vendido)
    ensures Passo(r, c) == Acompanha(r, r.bot.estado.estado, c.klines.value[0], c)
  {
    var df := BuscaVelas(c.klines.value, Emas).value;
    assert df[|df| - 1].candle == c.klines.value[0];
  }

  /** Equal scores, or scores under 6, send no order. */
  lemma SemEntradaSemVencedor(r: Robo, c: Ciclo)
    requires c.klines.Ok? && c.klinesConf.Ok? && r.bot.estado == Mapped(DeFora)
    requires var df := BuscaVelas(c.klines.value, Emas).value;
      var conf := c.klinesConf.value;
      var sc := Score(df, conf, c.osc, true);
      var sv := Score(df, conf, c.osc, false);
      sc == sv || (sc < ScoreMinimoEntrada && sv < ScoreMinimoEntrada)
    ensures Passo(r, c) == r
  {
  }

  /** A confirmation frame of fewer than 20 candles scores 0 both ways, so
      the bot never enters on it. */
  lemma ConfirmacaoCurtaNaoEntra(r: Robo, c: Ciclo)
    requires c.klinesConf.Ok? && |c.klinesConf.value| < 20 && r.bot.estado == Mapped(DeFora)
    ensures Passo(r, c) == r
  {
  }

  /** While in a trade the bot's entry, stop and target never change: the
      exchange's prices are only read. */
  lemma EmTradePrecosFixos(r: Robo, c: Ciclo)
    requires r.bot.estado == Mapped(Comprado) || r.bot.estado == Mapped(Vendido)
    ensures var p := Passo(r, c).bot;
      p.entrada == r.bot.entrada && p.stop == r.bot.stop && p.alvo == r.bot.alvo && p.ordens == r.bot.ordens
  {
  }

  /** When the exchange cannot be reached, the three failed reads give a
      target of 0, which any candle with a non-negative high reaches: a
      long is then left as a win although the position was never read. */
  lemma CorretoraInacessivelEncerraCompra(r: Robo, vela: Candle, c: Ciclo)
    requires c.breakevenOk && vela.high >= 0.0
    requires forall k :: 0 <= k < |c.leitura| ==> c.leitura[k].Err?
    ensures Acompanha(r, Comprado, vela, c).bot.estado == Mapped(DeFora)
    ensures Acompanha(r, Comprado, vela, c).bot.fechamentos == r.bot.fechamentos + [Fechamento(vela.openTime, BateuAlvo)]
  {
    CorretoraInacessivel(c.leitura);
  }

  /** In a long the breakeven helper is asked for at entry * 1.01 with the
      last close, on every pass that reaches the trade branch; in a short
      at entry * 0.99. */
  lemma BreakevenPedido(r: Robo, lado: Estado, vela: Candle, c: Ciclo)
    requires lado != DeFora && c.breakevenOk
    ensures var e := r.bot.entrada;
      Acompanha(r, lado, vela, c).pedidos == r.pedidos + [if lado == Comprado
                                                          then BreakevenCompra(e, e * 1.01, Mapped(Comprado), vela.close)
                                                          else BreakevenVenda(e, e * 0.99, Mapped(Vendido), vela.close)]
  {
  }

  /** The candle that closed a trade does not open the next one. */
  lemma ReentradaBloqueada(r: Robo, c: Ciclo)
    requires r.bot.estado == Mapped(DeFora) && c.klines.Ok? && |c.klines.value| > 0
    requires r.bot.velaFechouTrade == Some(c.klines.value[0].openTime)
    ensures Passo(r, c) == r
  {
    var df := BuscaVelas(c.klines.value, Emas);
    if df.Ok? {
      assert df.value[|df.value| - 1].candle == c.klines.value[0];
    }
  }
}
