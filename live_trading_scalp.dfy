/**
  The aggressive one-minute scalper on SOLUSDT: it buys an oversold RSI
  with rising volume and a break of the previous high, sells the mirror
  image, and sizes the stop at two ATRs.
*/
module LiveTradingScalp {
  import opened Wrappers
  import opened Candles
  import opened EstadoTrade
  import opened FuncoesBybit
  import opened OperacaoAoVivo
  import Atr
  import Utilidades

  const Cripto: string := "SOLUSDT"
  const RiscoRetorno: real := 5.0
  const Emas: seq<int> := [9, 21]
  const Alavancagem: real := 2.0
  const PeriodoAtr: nat := 14

  /** What one pass observes; Err stands for a call that raised. */
  datatype Ciclo = Ciclo(klines: Result<seq<Candle>>, leitura: Result<OpenTrade>,
                         confirmacao: Result<OpenTrade>, saldo: Result<real>,
                         minimo: Result<real>, envio: bool)

  predicate SinalCompra(df: seq<Row>)
    requires |df| >= 2
  {
    && Below(df[|df| - 2].rsi, 30.0)
    && df[|df| - 1].candle.volume > df[|df| - 1].volumeEma20
    && df[|df| - 1].candle.high > df[|df| - 2].candle.high
  }

  predicate SinalVenda(df: seq<Row>)
    requires |df| >= 2
  {
    && Above(df[|df| - 2].rsi, 70.0)
    && df[|df| - 1].candle.volume > df[|df| - 1].volumeEma20
    && df[|df| - 1].candle.low < df[|df| - 2].candle.low
  }

  /** The DE_FORA branch: the balance, the minimum and the quantity are
      fetched before any signal is looked at. The stop is two ATRs from the
      entry; an entry whose stop is nearer than one ATR is skipped.
      The script assigns the entry and stop variables before the filter
      rejects an entry; nothing reads them before they are set again, so
      a rejected entry leaves the state unchanged here. */
  function Procura(b: Bot, df: seq<Row>, atr: real, c: Ciclo): Bot
    requires |df| >= 2
  {
    if c.saldo.Err? || c.minimo.Err? then b
    else
      var qtd := Utilidades.QuantidadeCriptoParaOperar(c.saldo.value * Alavancagem, c.minimo.value,
                                                        df[|df| - 1].candle.close);
      if qtd.Err? then b
      else if SinalCompra(df) then
        var entrada := df[|df| - 2].candle.high;
        var stop := entrada - atr * 2.0;
        if entrada - stop < atr then b
        else
          var alvo := AlvoCompra(entrada, stop, RiscoRetorno);
          Entra(b, Comprado, AbreCompra(Cripto, qtd.value, stop, alvo), entrada, stop, alvo, c.envio)
      else if SinalVenda(df) then
        var entrada := df[|df| - 2].candle.low;
        var stop := entrada + atr * 2.0;
        if stop - entrada < atr then b
        else
          var alvo := AlvoVenda(entrada, stop, RiscoRetorno);
          Entra(b, Vendido, AbreVenda(Cripto, qtd.value, stop, alvo), entrada, stop, alvo, c.envio)
      else b
  }

  /** One pass: an empty frame, or a newest ATR that is 0 or undefined,
      skips the pass. */
  function Passo(b: Bot, c: Ciclo): Bot {
    if c.klines.Err? then b
    else
      var df := BuscaVelas(c.klines.value, Emas);
      if df.Err? || |df.value| == 0 then b
      else
        var atr := Atr.AtrAtual(Velas(df.value), PeriodoAtr);
        if atr.None? || atr.value == 0.0 then b
        else
          var atual := df.value[|df.value| - 1].candle;
          if b.estado == Mapped(Comprado) then Sai(b, Comprado, atual, c.leitura, c.confirmacao)
          else if b.estado == Mapped(Vendido) then Sai(b, Vendido, atual, c.leitura, c.confirmacao)
          else if b.estado == Mapped(DeFora) && PodeProcurar(b, df.value) then
            Procura(b, df.value, atr.value, c)
          else b
  }

  function Executa(b: Bot, ciclos: seq<Ciclo>): Bot
    decreases |ciclos|
  {
    if ciclos == [] then b else Passo(Executa(b, ciclos[..|ciclos| - 1]), ciclos[|ciclos| - 1])
  }

  /** One pass of the loop, on the script's own variables. */
  method ExecutaPasso(b0: Bot, c: Ciclo) returns (b: Bot)
    ensures b == Passo(b0, c)
  {
    b := b0;
    if c.klines.Err? {
      return;
    }
    var df := BuscaVelas(c.klines.value, Emas);
    if df.Err? || |df.value| == 0 {
      return;
    }
    var atr := Atr.AtrAtual(Velas(df.value), PeriodoAtr);
    if atr.None? || atr.value == 0.0 {
      return;
    }
    var atual := df.value[|df.value| - 1].candle;
    if b.estado == Mapped(Comprado) {
      if c.leitura.Ok? {
        b := b.(stop := c.leitura.value.precoStop, alvo := c.leitura.value.precoAlvo);
        if atual.high >= b.alvo {
          b := Fecha(b, atual, BateuAlvo);
        } else if atual.low <= b.stop {
          b := Fecha(b, atual, BateuStop);
        } else if c.confirmacao.Ok? && c.confirmacao.value.estado == Mapped(DeFora) {
          b := Fecha(b, atual, FechadoNaCorretora);
        }
      }
    } else if b.estado == Mapped(Vendido) {
      if c.leitura.Ok? {
        b := b.(stop := c.leitura.value.precoStop, alvo := c.leitura.value.precoAlvo);
        if atual.low <= b.alvo {
          b := Fecha(b, atual, BateuAlvo);
        } else if atual.high >= b.stop {
          b := Fecha(b, atual, BateuStop);
        } else if c.confirmacao.Ok? && c.confirmacao.value.estado == Mapped(DeFora) {
          b := Fecha(b, atual, FechadoNaCorretora);
        }
      }
    } else if b.estado == Mapped(DeFora) && b.velaFechouTrade != Some(atual.openTime) {
      b := Procura(b, df.value, atr.value, c);
    }
  }

  /** The script: the startup reads, then the loop over the given passes. */
  method Executar(tentativas: seq<Result<OpenTrade>>, ciclos: seq<Ciclo>) returns (bot: Option<Bot>)
    ensures Inicio(tentativas).None? ==> bot.None?
    ensures Inicio(tentativas).Some? ==> bot == Some(Executa(Inicio(tentativas).value, ciclos))
  {
    var inicio := Inicializa(tentativas);
    if inicio.None? {
      return None;
    }
    var b := inicio.value;
    var i := 0;
    while i < |ciclos|
      invariant 0 <= i <= |ciclos|
      invariant b == Executa(inicio.value, ciclos[..i])
    {
      assert ciclos[..i + 1][..i] == ciclos[..i];
      b := ExecutaPasso(b, ciclos[i]);
      i := i + 1;
    }
    assert ciclos[..i] == ciclos;
    return Some(b);
  }

  /** With fewer candles than the ATR period, or a zero ATR, nothing
      happens in the pass. */
  lemma AtrInvalidoPula(b: Bot, c: Ciclo)
    requires c.klines.Ok? && BuscaVelas(c.klines.value, Emas).Ok?
    requires var cs := Velas(BuscaVelas(c.klines.value, Emas).value);
      |cs| < PeriodoAtr || Atr.AtrAtual(cs, PeriodoAtr) == Some(0.0)
    ensures Passo(b, c) == b
  {
  }

  /** With a positive ATR the stop is exactly two ATRs away, so the
      "stop shorter than one ATR" filter never rejects a signal: a buy
      signal with an order that goes out always opens a long whose target is
      ten ATRs above the entry. */
  lemma FiltroAtrNuncaDispara(b: Bot, df: seq<Row>, atr: real, c: Ciclo)
    requires |df| >= 2 && atr > 0.0 && b.estado == Mapped(DeFora)
    requires c.saldo.Ok? && c.minimo.Ok? && c.minimo.value != 0.0 && df[|df| - 1].candle.close != 0.0
    requires SinalCompra(df) && c.envio
    ensures var r := Procura(b, df, atr, c);
      && r.estado == Mapped(Comprado)
      && r.entrada == df[|df| - 2].candle.high
      && r.stop == r.entrada - 2.0 * atr
      && r.alvo == r.entrada + 10.0 * atr
  {
  }

  /** The filter can only fire on a negative ATR, which well-formed
      candles never produce. */
  lemma FiltroSoComAtrNegativo(entrada: real, atr: real)
    ensures (entrada - (entrada - atr * 2.0) < atr) <==> atr < 0.0
    ensures ((entrada + atr * 2.0) - entrada < atr) <==> atr < 0.0
  {
  }

  /** A short opened by the bot has its stop two ATRs above the entry and
      its target ten ATRs below. */
  lemma VendaDezAtrs(b: Bot, df: seq<Row>, atr: real, c: Ciclo)
    requires |df| >= 2 && atr > 0.0 && b.estado == Mapped(DeFora)
    requires Procura(b, df, atr, c).estado == Mapped(Vendido)
    ensures var r := Procura(b, df, atr, c);
      r.stop == r.entrada + 2.0 * atr && r.alvo == r.entrada - 10.0 * atr
      && r.entrada == df[|df| - 2].candle.low
  {
  }

  /** A pass whose newest candle closed the last trade changes nothing
      while the bot is out. */
  lemma ReentradaBloqueada(b: Bot, c: Ciclo)
    requires b.estado == Mapped(DeFora) && c.klines.Ok? && |c.klines.value| > 0
    requires b.velaFechouTrade == Some(c.klines.value[0].openTime)
    ensures Passo(b, c) == b
  {
    var df := BuscaVelas(c.klines.value, Emas);
    assert df.value[|df.value| - 1].candle == c.klines.value[0];
  }
}
