/**
  The XRPUSDT 60m bot of live_trading.py. Its entry conditions are swapped
  with respect to their comments: the branch that buys fires on a bearish
  alignment (close below the three EMAs, RSI above 30, a break of the
  previous low) and the branch that sells on the bullish one.
*/
module LiveTrading {
  import opened Wrappers
  import opened Candles
  import opened EstadoTrade
  import opened FuncoesBybit
  import opened OperacaoAoVivo
  import Utilidades

  const Cripto: string := "XRPUSDT"
  const QtdVelasStop: nat := 17
  const RiscoRetorno: real := 3.1
  const Emas: seq<int> := [9, 21, 200]
  const Alavancagem: real := 1.0

  /** What one pass observes; Err stands for a call that raised (a kline
      error with code 10006 waits and skips the pass, any other error is
      caught by the outer handler: both leave every variable as it was). */
  datatype Ciclo = Ciclo(klines: Result<seq<Candle>>, leitura: Result<OpenTrade>,
                         saldo: Result<real>, minimo: Result<real>, envio: bool)

  /** The condition of the branch that calls abre_compra. */
  predicate AlinhamentoBaixa(df: seq<Row>)
    requires |df| >= 2
  {
    var ref := df[|df| - 2];
    var atual := df[|df| - 1];
    && ref.candle.close < ref.emaRapida && ref.candle.close < ref.emaLenta && ref.candle.close < ref.ema200
    && Above(atual.rsi, 30.0)
    && atual.candle.volume > atual.volumeEma20
    && atual.candle.low < ref.candle.low
  }

  /** The condition of the branch that calls abre_venda. */
  predicate AlinhamentoAlta(df: seq<Row>)
    requires |df| >= 2
  {
    var ref := df[|df| - 2];
    var atual := df[|df| - 1];
    && ref.candle.close > ref.emaRapida && ref.candle.close > ref.emaLenta && ref.candle.close > ref.ema200
    && Below(atual.rsi, 70.0)
    && atual.candle.volume > atual.volumeEma20
    && atual.candle.high > ref.candle.high
  }

  function Procura(b: Bot, df: seq<Row>, c: Ciclo): Bot
    requires |df| >= 2
  {
    if !AlinhamentoBaixa(df) && !AlinhamentoAlta(df) then b
    else if c.saldo.Err? || c.minimo.Err? then b
    else
      var qtd := Utilidades.QuantidadeCriptoParaOperar(c.saldo.value * Alavancagem, c.minimo.value,
                                                        df[|df| - 1].candle.close);
      if qtd.Err? then b
      else if AlinhamentoBaixa(df) then
        var entrada := df[|df| - 2].candle.high;
        var stop := StopCompraJanela(df, QtdVelasStop);
        var alvo := AlvoCompra(entrada, stop, RiscoRetorno);
        Entra(b, Comprado, AbreCompra(Cripto, qtd.value, stop, alvo), entrada, stop, alvo, c.envio)
      else
        var entrada := df[|df| - 2].candle.low;
        var stop := StopVendaJanela(df, QtdVelasStop);
        var alvo := AlvoVenda(entrada, stop, RiscoRetorno);
        Entra(b, Vendido, AbreVenda(Cripto, qtd.value, stop, alvo), entrada, stop, alvo, c.envio)
  }

  /** One pass. A frame with fewer than qtd_velas_stop + 2 rows skips the
      pass. In a trade there is a single read of the position, and one
      combined test closes on the target, the stop or a flat position. */
  function Passo(b: Bot, c: Ciclo): Bot {
    if c.klines.Err? then b
    else
      var df := BuscaVelas(c.klines.value, Emas);
      if df.Err? || |df.value| < QtdVelasStop + 2 then b
      else
        var atual := df.value[|df.value| - 1].candle;
        if b.estado == Mapped(Comprado) then Sai(b, Comprado, atual, c.leitura, c.leitura)
        else if b.estado == Mapped(Vendido) then Sai(b, Vendido, atual, c.leitura, c.leitura)
        else if b.estado == Mapped(DeFora) && PodeProcurar(b, df.value) then Procura(b, df.value, c)
        else b
  }

  function Executa(b: Bot, ciclos: seq<Ciclo>): Bot
    decreases |ciclos|
  {
    if ciclos == [] then b else Passo(Executa(b, ciclos[..|ciclos| - 1]), ciclos[|ciclos| - 1])
  }

  /** One pass of the loop, on the script's own variables. */
  method ExecutaPasso(b0: Bot, c: Ciclo) returns (b: Bot)
    ensures b == Passo(b0, c)
  {
    b := b0;
    if c.klines.Err? {
      return;
    }
    var df := BuscaVelas(c.klines.value, Emas);
    if df.Err? || |df.value| < QtdVelasStop + 2 {
      return;
    }
    var atual := df.value[|df.value| - 1].candle;
    if b.estado == Mapped(Comprado) {
      b := SairDoTrade(b, Comprado, atual, c.leitura);
    } else if b.estado == Mapped(Vendido) {
      b := SairDoTrade(b, Vendido, atual, c.leitura);
    } else if b.estado == Mapped(DeFora) && b.velaFechouTrade != Some(atual.openTime) {
      b := Procura(b, df.value, c);
    }
  }

  /** The COMPRADO or VENDIDO branch of a pass: the stop and target read
      from the exchange replace the bot's, and one combined test closes on
      the target, the stop or a flat position. */
  method SairDoTrade(b0: Bot, lado: Estado, atual: Candle, leitura: Result<OpenTrade>) returns (b: Bot)
    requires lado != DeFora
    ensures b == Sai(b0, lado, atual, leitura, leitura)
  {
    b := b0;
    if leitura.Ok? {
      var estadoAtual := leitura.value.estado;
      b := b.(stop := leitura.value.precoStop, alvo := leitura.value.precoAlvo);
      if lado == Comprado {
        if atual.high >= b.alvo || atual.low <= b.stop || estadoAtual == Mapped(DeFora) {
          var m := MotivoComprado(atual, b.stop, b.alvo, true);
          b := Fecha(b, atual, m.value);
        }
      } else if atual.low <= b.alvo || atual.high >= b.stop || estadoAtual == Mapped(DeFora) {
        var m := MotivoVendido(atual, b.stop, b.alvo, true);
        b := Fecha(b, atual, m.value);
      }
    }
  }

  /** The script: the startup reads, then the loop over the given passes. */
  method Executar(tentativas: seq<Result<OpenTrade>>, ciclos: seq<Ciclo>) returns (bot: Option<Bot>)
    ensures Inicio(tentativas).None? ==> bot.None?
    ensures Inicio(tentativas).Some? ==> bot == Some(Executa(Inicio(tentativas).value, ciclos))
  {
    var inicio := Inicializa(tentativas);
    if inicio.None? {
      return None;
    }
    var b := inicio.value;
    var i := 0;
    while i < |ciclos|
      invariant 0 <= i <= |ciclos|
      invariant b == Executa(inicio.value, ciclos[..i])
    {
      assert ciclos[..i + 1][..i] == ciclos[..i];
      b := ExecutaPasso(b, ciclos[i]);
      i := i + 1;
    }
    assert ciclos[..i] == ciclos;
    return Some(b);
  }

  /** In a trade, the pass closes it exactly when the newest candle reaches
      the target or the stop read from the exchange, or the exchange reports
      no position; a close stamps the candle. */
  lemma FechaSeAlvoStopOuFora(b: Bot, c: Ciclo)
    requires b.estado == Mapped(Comprado) && c.klines.Ok? && c.leitura.Ok?
    requires BuscaVelas(c.klines.value, Emas).Ok? && |c.klines.value| >= QtdVelasStop + 2
    ensures var r := Passo(b, c);
      var atual := c.klines.value[0];
      (r.estado == Mapped(DeFora) <==>
        (atual.high >= c.leitura.value.precoAlvo || atual.low <= c.leitura.value.precoStop
         || c.leitura.value.estado == Mapped(DeFora)))
      && (r.estado == Mapped(DeFora) ==> r.velaFechouTrade == Some(atual.openTime))
  {
    var df := BuscaVelas(c.klines.value, Emas);
    assert df.value[|df.value| - 1].candle == c.klines.value[0];
  }

  /** The same for a short: the pass closes it exactly when the newest
      candle reaches down to the target or up to the stop, or the exchange
      reports no position. */
  lemma FechaVendidoSeAlvoStopOuFora(b: Bot, c: Ciclo)
    requires b.estado == Mapped(Vendido) && c.klines.Ok? && c.leitura.Ok?
    requires BuscaVelas(c.klines.value, Emas).Ok? && |c.klines.value| >= QtdVelasStop + 2
    ensures var r := Passo(b, c);
      var atual := c.klines.value[0];
      (r.estado == Mapped(DeFora) <==>
        (atual.low <= c.leitura.value.precoAlvo || atual.high >= c.leitura.value.precoStop
         || c.leitura.value.estado == Mapped(DeFora)))
      && (r.estado == Mapped(DeFora) ==> r.velaFechouTrade == Some(atual.openTime))
  {
    var df := BuscaVelas(c.klines.value, Emas);
    assert df.value[|df.value| - 1].candle == c.klines.value[0];
  }

  /** The buy branch fires only on the bearish alignment: the reference
      candle closed below all three EMAs and the current one broke its low. */
  lemma CompraNaBaixa(b: Bot, c: Ciclo)
    requires b.estado == Mapped(DeFora) && c.klines.Ok?
    requires Passo(b, c).estado == Mapped(Comprado)
    ensures var df := BuscaVelas(c.klines.value, Emas).value;
      var ref := df[|df| - 2];
      && ref.candle.close < ref.emaRapida && ref.candle.close < ref.emaLenta && ref.candle.close < ref.ema200
      && df[|df| - 1].candle.low < ref.candle.low
  {
  }

  /** The sell branch fires only on the bullish alignment. */
  lemma VendaNaAlta(b: Bot, c: Ciclo)
    requires b.estado == Mapped(DeFora) && c.klines.Ok?
    requires Passo(b, c).estado == Mapped(Vendido)
    ensures var df := BuscaVelas(c.klines.value, Emas).value;
      var ref := df[|df| - 2];
      && ref.candle.close > ref.emaRapida && ref.candle.close > ref.emaLenta && ref.candle.close > ref.ema200
      && df[|df| - 1].candle.high > ref.candle.high
  {
  }

  /** Entries are ordered: a long has stop <= entry <= target, a short
      target <= entry <= stop, and the target sits 3.1 distances away. */
  lemma EntradaOrdenada(b: Bot, c: Ciclo)
    requires c.klines.Ok? && b.estado == Mapped(DeFora)
    requires forall k :: 0 <= k < |c.klines.value| ==> WellFormed(c.klines.value[k])
    ensures var r := Passo(b, c);
      && (r.estado == Mapped(Comprado) ==>
            r.stop <= r.entrada <= r.alvo && r.alvo - r.entrada == RiscoRetorno * (r.entrada - r.stop))
      && (r.estado == Mapped(Vendido) ==>
            r.alvo <= r.entrada <= r.stop && r.entrada - r.alvo == RiscoRetorno * (r.stop - r.entrada))
  {
    var df := BuscaVelas(c.klines.value, Emas);
    var r := Passo(b, c);
    if r.estado != b.estado {
      var n := |df.value|;
      assert df.value[n - 2].candle == c.klines.value[|c.klines.value| - 1 - (n - 2)];
      assert WellFormed(df.value[n - 2].candle);
    }
  }

  /** Fewer than 19 rows skip the pass. */
  lemma FrameCurto(b: Bot, c: Ciclo)
    requires c.klines.Ok? && |c.klines.value| < QtdVelasStop + 2
    ensures Passo(b, c) == b
  {
  }

  /** A pass whose newest candle closed the last trade changes nothing
      while the bot is out. */
  lemma ReentradaBloqueada(b: Bot, c: Ciclo)
    requires b.estado == Mapped(DeFora) && c.klines.Ok? && |c.klines.value| > 0
    requires b.velaFechouTrade == Some(c.klines.value[0].openTime)
    ensures Passo(b, c) == b
  {
    var df := BuscaVelas(c.klines.value, Emas);
    assert df.value[|df.value| - 1].candle == c.klines.value[0];
  }
}
