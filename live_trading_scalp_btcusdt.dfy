/**
  The BTCUSDT 60m scalper: an oversold (overbought) RSI on the reference
  candle inside an EMA alignment, a volume rise and a break of the
  reference candle; the stop is four ATRs(40) away, and each trade asks for
  a partial exit and a breakeven stop through helpers funcoes_bybit does
  not define.
*/
module LiveTradingScalpBtcusdt {
  import opened Wrappers
  import opened Candles
  import opened EstadoTrade
  import opened FuncoesBybit
  import opened OperacaoAoVivo
  import Atr
  import Utilidades

  const Cripto: string := "BTCUSDT"
  const QtdVelasStop: nat := 17
  const RiscoRetorno: real := 3.1
  const Emas: seq<int> := [9, 21]
  const Alavancagem: real := 2.0
  const PeriodoAtr: nat := 40

  /** What one pass observes; Err or false stands for a call that raised. */
  datatype Ciclo = Ciclo(klines: Result<seq<Candle>>, leitura: Result<OpenTrade>,
                         breakevenOk: bool, confirmacao: Result<OpenTrade>,
                         saldo: Result<real>, minimo: Result<real>, envio: bool, parcialOk: bool)

  /** The bot's variables and the helper calls it made. */
  datatype Robo = Robo(bot: Bot, pedidos: seq<Pedido>)

  predicate SinalCompra(df: seq<Row>)
    requires |df| >= 2
  {
    var ref := df[|df| - 2];
    && Below(ref.rsi, 30.0)
    && df[|df| - 1].candle.volume > df[|df| - 1].volumeEma20
    && df[|df| - 1].candle.high > ref.candle.high
    && ref.emaRapida > ref.emaLenta > ref.ema200
  }

  predicate SinalVenda(df: seq<Row>)
    requires |df| >= 2
  {
    var ref := df[|df| - 2];
    && Above(ref.rsi, 70.0)
    && df[|df| - 1].candle.volume > df[|df| - 1].volumeEma20
    && df[|df| - 1].candle.low < ref.candle.low
    && ref.emaRapida < ref.emaLenta < ref.ema200
  }

  /** The trade branches: the position is read, the breakeven helper is
      called with the entry moved by half a percent and the last close, and
      then the usual target, stop, flat-position checks run. */
  function Acompanha(r: Robo, lado: Estado, df: seq<Row>, c: Ciclo): Robo
    requires lado != DeFora && |df| > 0
  {
    if c.leitura.Err? then r
    else
      var b1 := r.bot.(stop := c.leitura.value.precoStop, alvo := c.leitura.value.precoAlvo);
      var atual := df[|df| - 1].candle;
      var pedido := if lado == Comprado
                    then BreakevenCompra(r.bot.entrada, r.bot.entrada * 1.005, Mapped(Comprado), atual.close)
                    else BreakevenVenda(r.bot.entrada, r.bot.entrada * 0.995, Mapped(Vendido), atual.close);
      if !c.breakevenOk then r.(bot := b1)
      else Robo(Sai(r.bot, lado, atual, c.leitura, c.confirmacao), r.pedidos + [pedido])
  }

  /** The DE_FORA branch. The stop is four ATRs from the entry; the filter
      "stop nearer than one ATR" can only reject a negative ATR. An
      undefined ATR (fewer than 40 candles) makes no entry here.
      The script assigns the entry and stop variables before the filter
      rejects an entry; nothing reads them before they are set again, so
      a rejected entry leaves the state unchanged here. */
  function Procura(r: Robo, df: seq<Row>, c: Ciclo): Robo
    requires |df| >= 2
  {
    if c.saldo.Err? || c.minimo.Err? then r
    else
      var qtd := Utilidades.QuantidadeCriptoParaOperar(c.saldo.value * Alavancagem, c.minimo.value,
                                                        df[|df| - 1].candle.close);
      var atr := Atr.AtrAtual(Velas(df), PeriodoAtr);
      if qtd.Err? || atr.None? then r
      else if SinalCompra(df) then
        var entrada := df[|df| - 2].candle.high;
        var stop := entrada - atr.value * 4.0;
        if entrada - stop < atr.value then r
        else
          var alvo := AlvoCompra(entrada, stop, RiscoRetorno);
          var b := Entra(r.bot, Comprado, AbreCompra(Cripto, qtd.value, stop, alvo), entrada, stop, alvo, c.envio);
          if c.envio && c.parcialOk then Robo(b, r.pedidos + [ParcialCompra(qtd.value, entrada)])
          else r.(bot := b)
      else if SinalVenda(df) then
        var entrada := df[|df| - 2].candle.low;
        var stop := entrada + atr.value * 4.0;
        if stop - entrada < atr.value then r
        else
          var alvo := AlvoVenda(entrada, stop, RiscoRetorno);
          var b := Entra(r.bot, Vendido, AbreVenda(Cripto, qtd.value, stop, alvo), entrada, stop, alvo, c.envio);
          if c.envio && c.parcialOk then Robo(b, r.pedidos + [ParcialVenda(qtd.value, entrada)])
          else r.(bot := b)
      else r
  }

  /** One pass; an empty frame or fewer than 19 candles skips it. */
  function Passo(r: Robo, c: Ciclo): Robo {
    if c.klines.Err? then r
    else
      var df := BuscaVelas(c.klines.value, Emas);
      if df.Err? || |df.value| < QtdVelasStop + 2 then r
      else if r.bot.estado == Mapped(Comprado) then Acompanha(r, Comprado, df.value, c)
      else if r.bot.estado == Mapped(Vendido) then Acompanha(r, Vendido, df.value, c)
      else if r.bot.estado == Mapped(DeFora) && PodeProcurar(r.bot, df.value) then Procura(r, df.value, c)
      else r
  }

  function Executa(r: Robo, ciclos: seq<Ciclo>): Robo
    decreases |ciclos|
  {
    if ciclos == [] then r else Passo(Executa(r, ciclos[..|ciclos| - 1]), ciclos[|ciclos| - 1])
  }

  /** One pass of the loop, on the script's own variables. */
  method ExecutaPasso(r0: Robo, c: Ciclo) returns (r: Robo)
    ensures r == Passo(r0, c)
  {
    r := r0;
    if c.klines.Err? {
      return;
    }
    var df := BuscaVelas(c.klines.value, Emas);
    if df.Err? || |df.value| < QtdVelasStop + 2 {
      return;
    }
    var atual := df.value[|df.value| - 1].candle;
    var b := r.bot;
    if b.estado == Mapped(Comprado) || b.estado == Mapped(Vendido) {
      var comprado := b.estado == Mapped(Comprado);
      if c.leitura.Err? {
        return;
      }
      var precoEntrada := b.entrada;
      b := b.(stop := c.leitura.value.precoStop, alvo := c.leitura.value.precoAlvo);
      if !c.breakevenOk {
        r := r.(bot := b);
        return;
      }
      if comprado {
        r := r.(pedidos := r.pedidos + [BreakevenCompra(precoEntrada, precoEntrada * 1.005, Mapped(Comprado), atual.close)]);
        if atual.high >= b.alvo {
          b := Fecha(b, atual, BateuAlvo);
        } else if atual.low <= b.stop {
          b := Fecha(b, atual, BateuStop);
        } else if c.confirmacao.Ok? && c.confirmacao.value.estado == Mapped(DeFora) {
          b := Fecha(b, atual, FechadoNaCorretora);
        }
      } else {
        r := r.(pedidos := r.pedidos + [BreakevenVenda(precoEntrada, precoEntrada * 0.995, Mapped(Vendido), atual.close)]);
        if atual.low <= b.alvo {
          b := Fecha(b, atual, BateuAlvo);
        } else if atual.high >= b.stop {
          b := Fecha(b, atual, BateuStop);
        } else if c.confirmacao.Ok? && c.confirmacao.value.estado == Mapped(DeFora) {
          b := Fecha(b, atual, FechadoNaCorretora);
        }
      }
      r := r.(bot := b);
    } else if b.estado == Mapped(DeFora) && b.velaFechouTrade != Some(atual.openTime) {
      r := Procura(r, df.value, c);
    }
  }

  /** The script: the startup reads, then the loop over the given passes. */
  method Executar(tentativas: seq<Result<OpenTrade>>, ciclos: seq<Ciclo>) returns (robo: Option<Robo>)
    ensures Inicio(tentativas).None? ==> robo.None?
    ensures Inicio(tentativas).Some? ==> robo == Some(Executa(Robo(Inicio(tentativas).value, []), ciclos))
  {
    var inicio := Inicializa(tentativas);
    if inicio.None? {
      return None;
    }
    var r := Robo(inicio.value, []);
    var i := 0;
    while i < |ciclos|
      invariant 0 <= i <= |ciclos|
      invariant r == Executa(Robo(inicio.value, []), ciclos[..i])
    {
      assert ciclos[..i + 1][..i] == ciclos[..i];
      r := ExecutaPasso(r, ciclos[i]);
      i := i + 1;
    }
    assert ciclos[..i] == ciclos;
    return Some(r);
  }

  /** The ATR filter only rejects a negative ATR: with a non-negative ATR a
      buy signal whose order goes out opens a long four ATRs above its stop
      and 12.4 ATRs below its target. */
  lemma FiltroSoComAtrNegativo(r: Robo, df: seq<Row>, c: Ciclo)
    requires |df| >= 2 && r.bot.estado == Mapped(DeFora) && c.envio
    requires c.saldo.Ok? && c.minimo.Ok? && c.minimo.value != 0.0 && df[|df| - 1].candle.close != 0.0
    requires SinalCompra(df)
    requires Atr.AtrAtual(Velas(df), PeriodoAtr).Some?
    ensures var atr := Atr.AtrAtual(Velas(df), PeriodoAtr).value;
      var p := Procura(r, df, c);
      (p.bot.estado == Mapped(Comprado) <==> atr >= 0.0)
      && (atr >= 0.0 ==>
            p.bot.entrada == df[|df| - 2].candle.high
            && p.bot.stop == p.bot.entrada - 4.0 * atr
            && p.bot.alvo == p.bot.entrada + 12.4 * atr)
  {
  }

  /** With the position read and the helper reachable, a trade branch
      appends exactly one breakeven request. */
  lemma AcompanhaPede(r: Robo, lado: Estado, df: seq<Row>, c: Ciclo)
    requires lado != DeFora && |df| > 0 && c.leitura.Ok? && c.breakevenOk
    ensures Acompanha(r, lado, df, c).pedidos == r.pedidos +
      [if lado == Comprado
       then BreakevenCompra(r.bot.entrada, r.bot.entrada * 1.005, Mapped(Comprado), df[|df| - 1].candle.close)
       else BreakevenVenda(r.bot.entrada, r.bot.entrada * 0.995, Mapped(Vendido), df[|df| - 1].candle.close)]
  {
  }

  /** In a long, the breakeven helper is asked for at entry * 1.005 with the
      last close, before the exit checks, on every pass that reads the
      position. */
  lemma BreakevenCompraPedido(r: Robo, c: Ciclo)
    requires r.bot.estado == Mapped(Comprado) && c.klines.Ok? && c.leitura.Ok? && c.breakevenOk
    requires BuscaVelas(c.klines.value, Emas).Ok? && |c.klines.value| >= QtdVelasStop + 2
    ensures Passo(r, c).pedidos ==
      r.pedidos + [BreakevenCompra(r.bot.entrada, r.bot.entrada * 1.005, Mapped(Comprado), c.klines.value[0].close)]
  {
    var df := BuscaVelas(c.klines.value, Emas).value;
    assert df[|df| - 1].candle == c.klines.value[0];
    assert Passo(r, c) == Acompanha(r, Comprado, df, c);
    AcompanhaPede(r, Comprado, df, c);
  }

  /** In a short, the breakeven price is entry * 0.995. */
  lemma BreakevenVendaPedido(r: Robo, c: Ciclo)
    requires r.bot.estado == Mapped(Vendido) && c.klines.Ok? && c.leitura.Ok? && c.breakevenOk
    requires BuscaVelas(c.klines.value, Emas).Ok? && |c.klines.value| >= QtdVelasStop + 2
    ensures Passo(r, c).pedidos ==
      r.pedidos + [BreakevenVenda(r.bot.entrada, r.bot.entrada * 0.995, Mapped(Vendido), c.klines.value[0].close)]
  {
    var df := BuscaVelas(c.klines.value, Emas).value;
    assert df[|df| - 1].candle == c.klines.value[0];
    assert Passo(r, c) == Acompanha(r, Vendido, df, c);
    AcompanhaPede(r, Vendido, df, c);
  }

  /** The buy and sell signals exclude each other. */
  lemma SinaisExclusivos(df: seq<Row>)
    requires |df| >= 2
    ensures !(SinalCompra(df) && SinalVenda(df))
  {
  }

  /** Fewer than 19 candles skip the pass. */
  lemma FrameCurto(r: Robo, c: Ciclo)
    requires c.klines.Ok? && |c.klines.value| < QtdVelasStop + 2
    ensures Passo(r, c) == r
  {
  }

  /** A partial exit is asked for only right after an order went out, with
      the order's quantity and the entry price. */
  lemma ParcialSoAposOrdem(r: Robo, c: Ciclo)
    requires r.bot.estado == Mapped(DeFora)
    ensures var p := Passo(r, c);
      && (|p.pedidos| > |r.pedidos| <==> |p.bot.ordens| > |r.bot.ordens| && c.parcialOk)
      && (|p.pedidos| > |r.pedidos| ==>
            p.pedidos[|r.pedidos|].qtdTotal == p.bot.ordens[|r.bot.ordens|].qty
            && p.pedidos[|r.pedidos|].entrada == p.bot.entrada)
  {
  }
}
