/**
  The long-only double-EMA breakout bot on SOLUSDT 60m: it buys when the
  reference candle closed above both EMAs and the current candle breaks
  its high, and it has no branch for a short position.
*/
module LiveTradingBackup {
  import opened Wrappers
  import opened Candles
  import opened EstadoTrade
  import opened FuncoesBybit
  import opened OperacaoAoVivo
  import Utilidades

  const Cripto: string := "SOLUSDT"
  const QtdVelasStop: nat := 17
  const RiscoRetorno: real := 2.5
  const Emas: seq<int> := [9, 21]
  const Alavancagem: real := 1.0

  /** What one pass of the loop observes from the exchange: the kline list,
      the two reads of the position the long branch may make, the balance,
      the minimum lot, and whether the order call returned. Err stands for
      a call that raised; the except clauses end the pass there. */
  datatype Ciclo = Ciclo(klines: Result<seq<Candle>>, leitura: Result<OpenTrade>,
                         confirmacao: Result<OpenTrade>, saldo: Result<real>,
                         minimo: Result<real>, envio: bool)

  /** Double EMA breakout: the reference candle (-2) closed above both EMAs
      and the current candle (-1) trades above its high. */
  predicate Gatilho(df: seq<Row>)
    requires |df| >= 2
  {
    var ref := df[|df| - 2];
    ref.candle.close > ref.emaRapida && ref.candle.close > ref.emaLenta
    && df[|df| - 1].candle.high > ref.candle.high
  }

  /** The DE_FORA branch once the gate is open. */
  function Procura(b: Bot, df: seq<Row>, c: Ciclo): Bot
    requires |df| > 0
  {
    if |df| < 2 || !Gatilho(df) then b
    else if c.saldo.Err? || c.minimo.Err? then b
    else
      var qtd := Utilidades.QuantidadeCriptoParaOperar(c.saldo.value * Alavancagem, c.minimo.value,
                                                        df[|df| - 1].candle.close);
      if qtd.Err? then b
      else
        var entrada := df[|df| - 2].candle.high;
        var stop := StopCompraJanela(df, QtdVelasStop);
        var alvo := AlvoCompra(entrada, stop, RiscoRetorno);
        Entra(b, Comprado, AbreCompra(Cripto, qtd.value, stop, alvo), entrada, stop, alvo, c.envio)
  }

  /** One pass of the while True loop. */
  function Passo(b: Bot, c: Ciclo): Bot {
    if c.klines.Err? then b
    else
      var df := BuscaVelas(c.klines.value, Emas);
      if df.Err? || |df.value| == 0 then b
      else if b.estado == Mapped(Comprado) then
        Sai(b, Comprado, df.value[|df.value| - 1].candle, c.leitura, c.confirmacao)
      else if b.estado == Mapped(DeFora) && PodeProcurar(b, df.value) then
        Procura(b, df.value, c)
      else b
  }

  function Executa(b: Bot, ciclos: seq<Ciclo>): Bot
    decreases |ciclos|
  {
    if ciclos == [] then b else Passo(Executa(b, ciclos[..|ciclos| - 1]), ciclos[|ciclos| - 1])
  }

  /** One pass of the loop, on the script's own variables. */
  method ExecutaPasso(b0: Bot, c: Ciclo) returns (b: Bot)
    ensures b == Passo(b0, c)
  {
    b := b0;
    if c.klines.Ok? {
      var df := BuscaVelas(c.klines.value, Emas);
      if df.Ok? && |df.value| > 0 {
        var atual := df.value[|df.value| - 1].candle;
        if b.estado == Mapped(Comprado) {
          if c.leitura.Ok? {
            b := b.(stop := c.leitura.value.precoStop, alvo := c.leitura.value.precoAlvo);
            if atual.high >= b.alvo {
              b := Fecha(b, atual, BateuAlvo);
            } else if atual.low <= b.stop {
              b := Fecha(b, atual, BateuStop);
            } else if c.confirmacao.Ok? && c.confirmacao.value.estado == Mapped(DeFora) {
              b := Fecha(b, atual, FechadoNaCorretora);
            }
          }
        } else if b.estado == Mapped(DeFora) && b.velaFechouTrade != Some(atual.openTime) {
          b := Procura(b, df.value, c);
        }
      }
    }
  }

  /** The script: the startup reads, then the loop over the given passes. */
  method Executar(tentativas: seq<Result<OpenTrade>>, ciclos: seq<Ciclo>) returns (bot: Option<Bot>)
    ensures Inicio(tentativas).None? ==> bot.None?
    ensures Inicio(tentativas).Some? ==> bot == Some(Executa(Inicio(tentativas).value, ciclos))
  {
    var inicio := Inicializa(tentativas);
    if inicio.None? {
      return None;
    }
    var b := inicio.value;
    var i := 0;
    while i < |ciclos|
      invariant 0 <= i <= |ciclos|
      invariant b == Executa(inicio.value, ciclos[..i])
    {
      assert ciclos[..i + 1][..i] == ciclos[..i];
      b := ExecutaPasso(b, ciclos[i]);
      i := i + 1;
    }
    assert ciclos[..i] == ciclos;
    return Some(b);
  }

  /** A long entered by this bot has its stop at or below the entry and its
      target at or above it: the stop window df[-17:-1] contains the
      reference candle. */
  lemma EntradaOrdenada(b: Bot, c: Ciclo)
    requires c.klines.Ok? && b.estado == Mapped(DeFora)
    requires forall k :: 0 <= k < |c.klines.value| ==> WellFormed(c.klines.value[k])
    ensures var r := Passo(b, c);
      r.estado == Mapped(Comprado) ==> r.stop <= r.entrada <= r.alvo
  {
    var df := BuscaVelas(c.klines.value, Emas);
    var r := Passo(b, c);
    if r.estado == Mapped(Comprado) {
      var n := |df.value|;
      assert df.value[n - 2].candle == c.klines.value[|c.klines.value| - 1 - (n - 2)];
      assert WellFormed(df.value[n - 2].candle);
    }
  }

  /** The bot never goes short: from any state other than VENDIDO it never
      reaches VENDIDO. */
  lemma {:induction false} NuncaVende(b: Bot, ciclos: seq<Ciclo>)
    requires b.estado != Mapped(Vendido)
    ensures Executa(b, ciclos).estado != Mapped(Vendido)
    decreases |ciclos|
  {
    if ciclos != [] {
      NuncaVende(b, ciclos[..|ciclos| - 1]);
    }
  }

  /** There is no VENDIDO branch: a short found at startup is never left,
      and nothing else changes either. */
  lemma {:induction false} VendidoParaSempre(b: Bot, ciclos: seq<Ciclo>)
    requires b.estado == Mapped(Vendido)
    ensures Executa(b, ciclos) == b
    decreases |ciclos|
  {
    if ciclos != [] {
      VendidoParaSempre(b, ciclos[..|ciclos| - 1]);
    }
  }

  /** A pass whose newest candle is the one that closed the last trade
      changes nothing while the bot is out. */
  lemma ReentradaBloqueada(b: Bot, c: Ciclo)
    requires b.estado == Mapped(DeFora) && c.klines.Ok? && |c.klines.value| > 0
    requires b.velaFechouTrade == Some(c.klines.value[0].openTime)
    ensures Passo(b, c) == b
  {
    var df := BuscaVelas(c.klines.value, Emas);
    assert df.value[|df.value| - 1].candle == c.klines.value[0];
  }

  /** The state moves from DE_FORA to COMPRADO exactly when an order went
      out, and each order is a market buy of the symbol. */
  lemma EntraSoComOrdem(b: Bot, c: Ciclo)
    requires b.estado == Mapped(DeFora)
    ensures var r := Passo(b, c);
      && (r.estado == Mapped(Comprado) <==> |r.ordens| == |b.ordens| + 1)
      && (r.estado != Mapped(Comprado) ==> r.estado == b.estado && r.ordens == b.ordens)
      && (|r.ordens| > |b.ordens| ==> r.ordens[|b.ordens|].side == "Buy" && r.ordens[|b.ordens|].symbol == Cripto)
  {
  }
}
