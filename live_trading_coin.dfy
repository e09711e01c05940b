/**
  The trend-following breakout bot on LTCUSDT 15m: long when the reference
  candle closed above the fast, slow and 200 EMAs with RSI below 70, rising
  volume and a break of the reference high; short on the mirror image.
*/
module LiveTradingCoin {
  import opened Wrappers
  import opened Candles
  import opened EstadoTrade
  import opened FuncoesBybit
  import opened OperacaoAoVivo
  import Utilidades

  const Cripto: string := "LTCUSDT"
  const QtdVelasStop: nat := 17
  const RiscoRetorno: real := 2.5
  const Emas: seq<int> := [9, 21]
  const Alavancagem: real := 2.0

  /** What one pass observes; Err stands for a call that raised. */
  datatype Ciclo = Ciclo(klines: Result<seq<Candle>>, leitura: Result<OpenTrade>,
                         confirmacao: Result<OpenTrade>, saldo: Result<real>,
                         minimo: Result<real>, envio: bool)

  predicate GatilhoCompra(df: seq<Row>)
    requires |df| >= 2
  {
    var ref := df[|df| - 2];
    var atual := df[|df| - 1];
    && ref.candle.close > ref.emaRapida && ref.candle.close > ref.emaLenta && ref.candle.close > ref.ema200
    && Below(atual.rsi, 70.0)
    && atual.candle.volume > atual.volumeEma20
    && atual.candle.high > ref.candle.high
  }

  predicate GatilhoVenda(df: seq<Row>)
    requires |df| >= 2
  {
    var ref := df[|df| - 2];
    var atual := df[|df| - 1];
    && ref.candle.close < ref.emaRapida && ref.candle.close < ref.emaLenta && ref.candle.close < ref.ema200
    && Above(atual.rsi, 30.0)
    && atual.candle.volume > atual.volumeEma20
    && atual.candle.low < ref.candle.low
  }

  /** The DE_FORA branch once the gate is open: the buy condition first,
      the sell condition only when it fails. */
  function Procura(b: Bot, df: seq<Row>, c: Ciclo): Bot
    requires |df| > 0
  {
    if |df| < 2 then b
    else if !GatilhoCompra(df) && !GatilhoVenda(df) then b
    else if c.saldo.Err? || c.minimo.Err? then b
    else
      var qtd := Utilidades.QuantidadeCriptoParaOperar(c.saldo.value * Alavancagem, c.minimo.value,
                                                        df[|df| - 1].candle.close);
      if qtd.Err? then b
      else if GatilhoCompra(df) then
        var entrada := df[|df| - 2].candle.high;
        var stop := StopCompraJanela(df, QtdVelasStop);
        var alvo := AlvoCompra(entrada, stop, RiscoRetorno);
        Entra(b, Comprado, AbreCompra(Cripto, qtd.value, stop, alvo), entrada, stop, alvo, c.envio)
      else
        var entrada := df[|df| - 2].candle.low;
        var stop := StopVendaJanela(df, QtdVelasStop);
        var alvo := AlvoVenda(entrada, stop, RiscoRetorno);
        Entra(b, Vendido, AbreVenda(Cripto, qtd.value, stop, alvo), entrada, stop, alvo, c.envio)
  }

  /** One pass of the while True loop; an empty frame does nothing. */
  function Passo(b: Bot, c: Ciclo): Bot {
    if c.klines.Err? then b
    else
      var df := BuscaVelas(c.klines.value, Emas);
      if df.Err? || |df.value| == 0 then b
      else if b.estado == Mapped(Comprado) then
        Sai(b, Comprado, df.value[|df.value| - 1].candle, c.leitura, c.confirmacao)
      else if b.estado == Mapped(Vendido) then
        Sai(b, Vendido, df.value[|df.value| - 1].candle, c.leitura, c.confirmacao)
      else if b.estado == Mapped(DeFora) && PodeProcurar(b, df.value) then
        Procura(b, df.value, c)
      else b
  }

  function Executa(b: Bot, ciclos: seq<Ciclo>): Bot
    decreases |ciclos|
  {
    if ciclos == [] then b else Passo(Executa(b, ciclos[..|ciclos| - 1]), ciclos[|ciclos| - 1])
  }

  /** One pass of the loop, on the script's own variables. */
  method ExecutaPasso(b0: Bot, c: Ciclo) returns (b: Bot)
    ensures b == Passo(b0, c)
  {
    b := b0;
    if c.klines.Ok? {
      var df := BuscaVelas(c.klines.value, Emas);
      if df.Ok? && |df.value| > 0 {
        var atual := df.value[|df.value| - 1].candle;
        if b.estado == Mapped(Comprado) {
          if c.leitura.Ok? {
            b := b.(stop := c.leitura.value.precoStop, alvo := c.leitura.value.precoAlvo);
            if atual.high >= b.alvo {
              b := Fecha(b, atual, BateuAlvo);
            } else if atual.low <= b.stop {
              b := Fecha(b, atual, BateuStop);
            } else if c.confirmacao.Ok? && c.confirmacao.value.estado == Mapped(DeFora) {
              b := Fecha(b, atual, FechadoNaCorretora);
            }
          }
        } else if b.estado == Mapped(Vendido) {
          if c.leitura.Ok? {
            b := b.(stop := c.leitura.value.precoStop, alvo := c.leitura.value.precoAlvo);
            if atual.low <= b.alvo {
              b := Fecha(b, atual, BateuAlvo);
            } else if atual.high >= b.stop {
              b := Fecha(b, atual, BateuStop);
            } else if c.confirmacao.Ok? && c.confirmacao.value.estado == Mapped(DeFora) {
              b := Fecha(b, atual, FechadoNaCorretora);
            }
          }
        } else if b.estado == Mapped(DeFora) && b.velaFechouTrade != Some(atual.openTime) {
          b := Procura(b, df.value, c);
        }
      }
    }
  }

  /** The script: the startup reads, then the loop over the given passes. */
  method Executar(tentativas: seq<Result<OpenTrade>>, ciclos: seq<Ciclo>) returns (bot: Option<Bot>)
    ensures Inicio(tentativas).None? ==> bot.None?
    ensures Inicio(tentativas).Some? ==> bot == Some(Executa(Inicio(tentativas).value, ciclos))
  {
    var inicio := Inicializa(tentativas);
    if inicio.None? {
      return None;
    }
    var b := inicio.value;
    var i := 0;
    while i < |ciclos|
      invariant 0 <= i <= |ciclos|
      invariant b == Executa(inicio.value, ciclos[..i])
    {
      assert ciclos[..i + 1][..i] == ciclos[..i];
      b := ExecutaPasso(b, ciclos[i]);
      i := i + 1;
    }
    assert ciclos[..i] == ciclos;
    return Some(b);
  }

  /** Entries are ordered: a long has stop <= entry <= target, a short
      target <= entry <= stop, and the target sits 2.5 distances away. */
  lemma EntradaOrdenada(b: Bot, c: Ciclo)
    requires c.klines.Ok? && b.estado == Mapped(DeFora)
    requires forall k :: 0 <= k < |c.klines.value| ==> WellFormed(c.klines.value[k])
    ensures var r := Passo(b, c);
      && (r.estado == Mapped(Comprado) ==>
            r.stop <= r.entrada <= r.alvo && r.alvo - r.entrada == RiscoRetorno * (r.entrada - r.stop))
      && (r.estado == Mapped(Vendido) ==>
            r.alvo <= r.entrada <= r.stop && r.entrada - r.alvo == RiscoRetorno * (r.stop - r.entrada))
  {
    var df := BuscaVelas(c.klines.value, Emas);
    var r := Passo(b, c);
    if r.estado != b.estado {
      var n := |df.value|;
      assert df.value[n - 2].candle == c.klines.value[|c.klines.value| - 1 - (n - 2)];
      assert WellFormed(df.value[n - 2].candle);
    }
  }

  /** The buy and sell conditions exclude each other, so the order in which
      they are tried does not matter. */
  lemma GatilhosExclusivos(df: seq<Row>)
    requires |df| >= 2
    ensures !(GatilhoCompra(df) && GatilhoVenda(df))
  {
  }

  /** An empty kline list leaves every variable as it was. */
  lemma FrameVazio(b: Bot, c: Ciclo)
    requires c.klines == Ok([])
    ensures Passo(b, c) == b
  {
  }

  /** A pass whose newest candle is the one that closed the last trade
      changes nothing while the bot is out. */
  lemma ReentradaBloqueada(b: Bot, c: Ciclo)
    requires b.estado == Mapped(DeFora) && c.klines.Ok? && |c.klines.value| > 0
    requires b.velaFechouTrade == Some(c.klines.value[0].openTime)
    ensures Passo(b, c) == b
  {
    var df := BuscaVelas(c.klines.value, Emas);
    assert df.value[|df.value| - 1].candle == c.klines.value[0];
  }

  /** Out of a trade, the state changes exactly when an order went out, and
      the order's side is the side the state records. */
  lemma EntraSoComOrdem(b: Bot, c: Ciclo)
    requires b.estado == Mapped(DeFora)
    ensures var r := Passo(b, c);
      && (r.estado != b.estado <==> |r.ordens| == |b.ordens| + 1)
      && (r.estado == b.estado ==> r.ordens == b.ordens)
      && (r.estado != b.estado ==> MapSide(r.ordens[|b.ordens|].side) == r.estado)
  {
  }
}
