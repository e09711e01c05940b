/**
  The SOLUSDT one-minute scalper with trade management: once a trade is 5%
  in profit it reduces the position by half (once per trade) and moves the
  stop to the entry, and once price has covered half the way to the target
  it trails the stop 1.5 ATRs(40) behind the last close.
*/
module LiveTradingScalpSolanaTeste {
  import opened Wrappers
  import opened Candles
  import opened EstadoTrade
  import opened FuncoesBybit
  import opened OperacaoAoVivo
  import Atr
  import Utilidades
  import LiveTradingScalp

  const Cripto: string := "SOLUSDT"
  const QtdVelasStop: nat := 17
  const RiscoRetorno: real := 5.0
  const Emas: seq<int> := [9, 21]
  const Alavancagem: real := 2.0
  const PeriodoAtr: nat := 40

  /** What one pass observes; Err or false stands for a call that raised. */
  datatype Ciclo = Ciclo(klines: Result<seq<Candle>>, leitura: Result<OpenTrade>,
                         reducaoOk: bool, confirmacao: Result<OpenTrade>,
                         saldo: Result<real>, minimo: Result<real>, envio: bool)

  /** The bot's variables: the shared ones, meta_parcial_realizada,
      trailing_ativo, and the reduzir_posicao calls made. */
  datatype Robo = Robo(bot: Bot, metaParcial: bool, trailing: bool, pedidos: seq<Pedido>)

  function Inicial(b: Bot): Robo {
    Robo(b, false, false, [])
  }

  /** The trailing stop of a long: max(stop, close - 1.5 ATR). A missing ATR
      makes the candidate NaN, and Python's max keeps the stop. */
  function TrailingCompra(stop: real, atual: real, atr: Option<real>): (s: real)
    ensures s >= stop
    ensures s == stop || (atr.Some? && s == atual - atr.value * 1.5)
  {
    if atr.Some? && atual - atr.value * 1.5 > stop then atual - atr.value * 1.5 else stop
  }

  /** The trailing stop of a short: min(stop, close + 1.5 ATR). */
  function TrailingVenda(stop: real, atual: real, atr: Option<real>): (s: real)
    ensures s <= stop
    ensures s == stop || (atr.Some? && s == atual + atr.value * 1.5)
  {
    if atr.Some? && atual + atr.value * 1.5 < stop then atual + atr.value * 1.5 else stop
  }

  /** Profit in percent of the entry, long or short. */
  function Lucro(lado: Estado, entrada: real, atual: real): real
    requires entrada != 0.0
  {
    if lado == Comprado then (atual - entrada) / entrada * 100.0
    else (entrada - atual) / entrada * 100.0
  }

  /** Whether the profit has reached 5%. The close is a numpy float, so a
      zero entry does not raise: the quotient is +inf, -inf or NaN, and only
      +inf passes the test. */
  predicate AtingiuMeta(lado: Estado, entrada: real, atual: real) {
    if entrada == 0.0 then (if lado == Comprado then atual > 0.0 else atual < 0.0)
    else Lucro(lado, entrada, atual) >= 5.0
  }

  /** The half-way price between the entry and the target. */
  function Alvo50(entrada: real, alvo: real): (m: real)
    ensures entrada <= alvo ==> entrada <= m <= alvo
    ensures alvo <= entrada ==> alvo <= m <= entrada
  {
    entrada + (alvo - entrada) * 0.5
  }

  /** Leaving the trade resets both management flags. */
  function Encerra(r: Robo, vela: Candle, m: Motivo): (s: Robo)
    ensures s.bot == Fecha(r.bot, vela, m) && !s.metaParcial && !s.trailing && s.pedidos == r.pedidos
  {
    Robo(Fecha(r.bot, vela, m), false, false, r.pedidos)
  }

  /** The 5% partial exit: when it is due and not done yet, reduzir_posicao
      asks for half the position, the stop moves to the entry and the flag is
      set; None is the call raising, which ends the pass. */
  function Parcial(r: Robo, lado: Estado, atual: real, reducaoOk: bool): (p: Option<Robo>)
    ensures p.None? <==> !r.metaParcial && AtingiuMeta(lado, r.bot.entrada, atual) && !reducaoOk
    ensures p.Some? && !r.metaParcial && AtingiuMeta(lado, r.bot.entrada, atual) ==>
      && p.value.metaParcial && p.value.bot.stop == r.bot.entrada
      && p.value.pedidos == r.pedidos + [ReduzPosicao(0.5)]
    ensures p.Some? && (r.metaParcial || !AtingiuMeta(lado, r.bot.entrada, atual)) ==> p.value == r
  {
    if !r.metaParcial && AtingiuMeta(lado, r.bot.entrada, atual) then
      if reducaoOk then Some(Robo(r.bot.(stop := r.bot.entrada), true, r.trailing, r.pedidos + [ReduzPosicao(0.5)]))
      else None
    else Some(r)
  }

  /** The trailing stop: it switches on once the close has covered half the
      way to the target, stays on until the trade ends, and while on it
      moves the stop with the close. */
  function Trailing(r: Robo, lado: Estado, atual: real, atr: Option<real>): (s: Robo)
    ensures s.trailing <==>
      r.trailing || (if lado == Comprado then atual >= Alvo50(r.bot.entrada, r.bot.alvo)
                     else atual <= Alvo50(r.bot.entrada, r.bot.alvo))
    ensures lado == Comprado ==> s.bot.stop >= r.bot.stop
    ensures lado != Comprado ==> s.bot.stop <= r.bot.stop
    ensures s == r.(bot := r.bot.(stop := s.bot.stop), trailing := s.trailing)
  {
    var metade := Alvo50(r.bot.entrada, r.bot.alvo);
    var ativa := r.trailing || (if lado == Comprado then atual >= metade else atual <= metade);
    var stop := if !ativa then r.bot.stop
                else if lado == Comprado then TrailingCompra(r.bot.stop, atual, atr)
                else TrailingVenda(r.bot.stop, atual, atr);
    r.(bot := r.bot.(stop := stop), trailing := ativa)
  }

  /** The exit test on the newest candle: target, then stop, then a flat
      position reported by a second read. */
  function Saida(r: Robo, lado: Estado, vela: Candle, fora: bool): (s: Robo)
    ensures s.pedidos == r.pedidos
    ensures s != r ==>
      && s.bot.estado == Mapped(DeFora) && s.bot.velaFechouTrade == Some(vela.openTime)
      && !s.metaParcial && !s.trailing && |s.bot.fechamentos| == |r.bot.fechamentos| + 1
  {
    var m := if lado == Comprado then MotivoComprado(vela, r.bot.stop, r.bot.alvo, fora)
             else MotivoVendido(vela, r.bot.stop, r.bot.alvo, fora);
    if m.Some? then Encerra(r, vela, m.value) else r
  }

  /** The trade branches. The read overwrites entry, stop and target; then
      the partial exit, the trailing stop and the exit test follow. A second
      read that raises counts as no exit, the flags being already updated. */
  function Acompanha(r: Robo, lado: Estado, df: seq<Row>, c: Ciclo): Robo
    requires lado != DeFora && |df| > 0
  {
    if c.leitura.Err? then r
    else
      var t := c.leitura.value;
      var r1 := r.(bot := r.bot.(entrada := t.precoEntrada, stop := t.precoStop, alvo := t.precoAlvo));
      var atual := df[|df| - 1].candle;
      var r2 := Parcial(r1, lado, atual.close, c.reducaoOk);
      if r2.None? then r1
      else
        var r3 := Trailing(r2.value, lado, atual.close, Atr.AtrAtual(Velas(df), PeriodoAtr));
        Saida(r3, lado, atual, c.confirmacao.Ok? && ReportaFora(c.confirmacao.value))
  }

  /** The DE_FORA branch: the stop is four ATRs away and the entry is taken
      only when that distance is at least one ATR, which an undefined ATR
      never satisfies.
      The script assigns the entry and stop variables before the filter
      rejects an entry; nothing reads them before they are set again, so
      a rejected entry leaves the state unchanged here. */
  function Procura(r: Robo, df: seq<Row>, c: Ciclo): Robo
    requires |df| >= 2
  {
    if c.saldo.Err? || c.minimo.Err? then r
    else
      var qtd := Utilidades.QuantidadeCriptoParaOperar(c.saldo.value * Alavancagem, c.minimo.value,
                                                        df[|df| - 1].candle.close);
      var atr := Atr.AtrAtual(Velas(df), PeriodoAtr);
      if qtd.Err? then r
      else if LiveTradingScalp.SinalCompra(df) then
        var entrada := df[|df| - 2].candle.high;
        if atr.None? || !(entrada - (entrada - atr.value * 4.0) >= atr.value) then r
        else
          var stop := entrada - atr.value * 4.0;
          var alvo := AlvoCompra(entrada, stop, RiscoRetorno);
          r.(bot := Entra(r.bot, Comprado, AbreCompra(Cripto, qtd.value, stop, alvo), entrada, stop, alvo, c.envio))
      else if LiveTradingScalp.SinalVenda(df) then
        var entrada := df[|df| - 2].candle.low;
        if atr.None? || !((entrada + atr.value * 4.0) - entrada >= atr.value) then r
        else
          var stop := entrada + atr.value * 4.0;
          var alvo := AlvoVenda(entrada, stop, RiscoRetorno);
          r.(bot := Entra(r.bot, Vendido, AbreVenda(Cripto, qtd.value, stop, alvo), entrada, stop, alvo, c.envio))
      else r
  }

  /** One pass; an empty frame or fewer than 19 candles skips it. */
  function Passo(r: Robo, c: Ciclo): Robo {
    if c.klines.Err? then r
    else
      var df := BuscaVelas(c.klines.value, Emas);
      if df.Err? || |df.value| < QtdVelasStop + 2 then r
      else if r.bot.estado == Mapped(Comprado) then Acompanha(r, Comprado, df.value, c)
      else if r.bot.estado == Mapped(Vendido) then Acompanha(r, Vendido, df.value, c)
      else if r.bot.estado == Mapped(DeFora) && PodeProcurar(r.bot, df.value) then Procura(r, df.value, c)
      else r
  }

  function Executa(r: Robo, ciclos: seq<Ciclo>): Robo
    decreases |ciclos|
  {
    if ciclos == [] then r else Passo(Executa(r, ciclos[..|ciclos| - 1]), ciclos[|ciclos| - 1])
  }

  /** The trade branch of one pass on the script's own variables. */
  method AcompanhaPasso(r0: Robo, comprado: bool, df: seq<Row>, c: Ciclo) returns (r: Robo)
    requires |df| > 0
    ensures r == Acompanha(r0, if comprado then Comprado else Vendido, df, c)
  {
    r := r0;
    if c.leitura.Err? {
      return;
    }
    var lado := if comprado then Comprado else Vendido;
    r := r.(bot := r.bot.(entrada := c.leitura.value.precoEntrada, stop := c.leitura.value.precoStop,
                          alvo := c.leitura.value.precoAlvo));
    var atual := df[|df| - 1].candle;
    var ok := ParcialPasso(r, comprado, atual.close, c.reducaoOk);
    if ok.None? {
      return;
    }
    r := TrailingPasso(ok.value, comprado, atual.close, Atr.AtrAtual(Velas(df), PeriodoAtr));
    var alcancouAlvo := if comprado then atual.high >= r.bot.alvo else atual.low <= r.bot.alvo;
    var alcancouStop := if comprado then atual.low <= r.bot.stop else atual.high >= r.bot.stop;
    if alcancouAlvo {
      r := Robo(Fecha(r.bot, atual, BateuAlvo), false, false, r.pedidos);
    } else if alcancouStop {
      r := Robo(Fecha(r.bot, atual, BateuStop), false, false, r.pedidos);
    } else if c.confirmacao.Ok? && c.confirmacao.value.estado == Mapped(DeFora) {
      r := Robo(Fecha(r.bot, atual, FechadoNaCorretora), false, false, r.pedidos);
    }
  }

  /** The partial exit on the script's variables; None when
      reduzir_posicao raised. */
  method ParcialPasso(r0: Robo, comprado: bool, atual: real, reducaoOk: bool) returns (r: Option<Robo>)
    ensures r == Parcial(r0, if comprado then Comprado else Vendido, atual, reducaoOk)
  {
    var precoEntrada := r0.bot.entrada;
    var atingiu: bool;
    if precoEntrada == 0.0 {
      atingiu := if comprado then atual > 0.0 else atual < 0.0;
    } else {
      var lucroAtual := if comprado then (atual - precoEntrada) / precoEntrada * 100.0
                        else (precoEntrada - atual) / precoEntrada * 100.0;
      atingiu := lucroAtual >= 5.0;
    }
    r := Some(r0);
    if !r0.metaParcial && atingiu {
      if !reducaoOk {
        return None;
      }
      r := Some(Robo(r0.bot.(stop := precoEntrada), true, r0.trailing, r0.pedidos + [ReduzPosicao(0.5)]));
    }
  }

  /** The trailing stop on the script's variables. */
  method TrailingPasso(r0: Robo, comprado: bool, atual: real, atr: Option<real>) returns (r: Robo)
    ensures r == Trailing(r0, if comprado then Comprado else Vendido, atual, atr)
  {
    var precoStop := r0.bot.stop;
    var trailingAtivo := r0.trailing;
    var alvo50 := if comprado then r0.bot.entrada + (r0.bot.alvo - r0.bot.entrada) * 0.5
                  else r0.bot.entrada - (r0.bot.entrada - r0.bot.alvo) * 0.5;
    if comprado && atual >= alvo50 && !trailingAtivo {
      trailingAtivo := true;
    } else if !comprado && atual <= alvo50 && !trailingAtivo {
      trailingAtivo := true;
    }
    if trailingAtivo && atr.Some? {
      if comprado && atual - atr.value * 1.5 > precoStop {
        precoStop := atual - atr.value * 1.5;
      } else if !comprado && atual + atr.value * 1.5 < precoStop {
        precoStop := atual + atr.value * 1.5;
      }
    }
    r := r0.(bot := r0.bot.(stop := precoStop), trailing := trailingAtivo);
  }

  /** One pass of the loop. */
  method ExecutaPasso(r0: Robo, c: Ciclo) returns (r: Robo)
    ensures r == Passo(r0, c)
  {
    r := r0;
    if c.klines.Err? {
      return;
    }
    var df := BuscaVelas(c.klines.value, Emas);
    if df.Err? || |df.value| < QtdVelasStop + 2 {
      return;
    }
    var atual := df.value[|df.value| - 1].candle;
    if r.bot.estado == Mapped(Comprado) {
      r := AcompanhaPasso(r, true, df.value, c);
    } else if r.bot.estado == Mapped(Vendido) {
      r := AcompanhaPasso(r, false, df.value, c);
    } else if r.bot.estado == Mapped(DeFora) && r.bot.velaFechouTrade != Some(atual.openTime) {
      r := Procura(r, df.value, c);
    }
  }

  /** The script: the startup reads, then the loop over the given passes. */
  method Executar(tentativas: seq<Result<OpenTrade>>, ciclos: seq<Ciclo>) returns (robo: Option<Robo>)
    ensures Inicio(tentativas).None? ==> robo.None?
    ensures Inicio(tentativas).Some? ==> robo == Some(Executa(Inicial(Inicio(tentativas).value), ciclos))
  {
    var inicio := Inicializa(tentativas);
    if inicio.None? {
      return None;
    }
    var r := Inicial(inicio.value);
    var i := 0;
    while i < |ciclos|
      invariant 0 <= i <= |ciclos|
      invariant r == Executa(Inicial(inicio.value), ciclos[..i])
    {
      assert ciclos[..i + 1][..i] == ciclos[..i];
      r := ExecutaPasso(r, ciclos[i]);
      i := i + 1;
    }
    assert ciclos[..i] == ciclos;
    return Some(r);
  }

  /** The partial exit happens at most once per trade: there are never more
      reductions than exits, plus one for a trade whose partial is done. */
  predicate ParcialUmaVezPorTrade(r: Robo) {
    |r.pedidos| <= |r.bot.fechamentos| + (if r.metaParcial then 1 else 0)
  }

  lemma PassoParcialUmaVez(r: Robo, c: Ciclo)
    requires ParcialUmaVezPorTrade(r)
    ensures ParcialUmaVezPorTrade(Passo(r, c))
  {
  }

  lemma {:induction false} ExecutaParcialUmaVez(r: Robo, ciclos: seq<Ciclo>)
    requires ParcialUmaVezPorTrade(r)
    ensures ParcialUmaVezPorTrade(Executa(r, ciclos))
    decreases |ciclos|
  {
    if ciclos != [] {
      ExecutaParcialUmaVez(r, ciclos[..|ciclos| - 1]);
      PassoParcialUmaVez(Executa(r, ciclos[..|ciclos| - 1]), ciclos[|ciclos| - 1]);
    }
  }

  /** Every exit resets both management flags and stamps the candle. */
  lemma SaidaReiniciaFlags(r: Robo, c: Ciclo)
    requires r.bot.estado == Mapped(Comprado) || r.bot.estado == Mapped(Vendido)
    requires Passo(r, c).bot.estado == Mapped(DeFora)
    ensures var p := Passo(r, c);
      !p.metaParcial && !p.trailing && p.bot.velaFechouTrade.Some?
      && |p.bot.fechamentos| == |r.bot.fechamentos| + 1
  {
  }

  /** Within a pass, a long's trailing stop never moves down and a short's
      never moves up, relative to the stop the pass works with. */
  lemma TrailingSoAperta(stop: real, atual: real, atr: Option<real>)
    ensures TrailingCompra(stop, atual, atr) >= stop
    ensures TrailingVenda(stop, atual, atr) <= stop
    ensures atr.Some? ==> TrailingCompra(stop, atual, atr) >= atual - 1.5 * atr.value
    ensures atr.Some? ==> TrailingVenda(stop, atual, atr) <= atual + 1.5 * atr.value
  {
  }

  /** When a long is 5% up and its partial is not done yet, the pass asks
      for a 50% reduction and moves the stop to the entry (or above it,
      should the trailing stop already be higher). */
  lemma ParcialMoveStopParaEntrada(r: Robo, df: seq<Row>, c: Ciclo)
    requires |df| > 0 && c.leitura.Ok? && c.reducaoOk && !r.metaParcial && r.bot.estado == Mapped(Comprado)
    requires c.leitura.value.precoEntrada > 0.0
    requires df[|df| - 1].candle.close >= c.leitura.value.precoEntrada * 1.05
    ensures var p := Acompanha(r, Comprado, df, c);
      && p.pedidos == r.pedidos + [ReduzPosicao(0.5)]
      && (p.bot.estado == r.bot.estado ==> p.metaParcial && p.bot.stop >= c.leitura.value.precoEntrada)
  {
    var e := c.leitura.value.precoEntrada;
    var x := df[|df| - 1].candle.close;
    QuocienteAoMenos(x - e, e, 0.05);
  }

  lemma QuocienteAoMenos(a: real, e: real, k: real)
    requires e > 0.0 && a >= e * k
    ensures a / e >= k
  {
    assert a / e * e == a;
  }

  /** Entries keep the stop four ATRs away and the target twenty ATRs
      away; an entry needs a defined, non-negative ATR. */
  lemma EntradaVinteAtrs(r: Robo, df: seq<Row>, c: Ciclo)
    requires |df| >= 2 && r.bot.estado == Mapped(DeFora)
    requires Procura(r, df, c).bot.estado != r.bot.estado
    ensures var atr := Atr.AtrAtual(Velas(df), PeriodoAtr);
      var p := Procura(r, df, c).bot;
      && atr.Some? && atr.value >= 0.0
      && (p.estado == Mapped(Comprado) ==> p.stop == p.entrada - 4.0 * atr.value && p.alvo == p.entrada + 20.0 * atr.value)
      && (p.estado == Mapped(Vendido) ==> p.stop == p.entrada + 4.0 * atr.value && p.alvo == p.entrada - 20.0 * atr.value)
  {
  }
}
