/**
  The daily dollar-cost-averaging bot that sizes its order with Decimal
  arithmetic: quantity rounding, and the main loop that buys at most once
  per calendar day and sends at most one report per day.
*/
module DailySpotTry {
  import opened Wrappers
  import opened HistoricoCompras

  const ValorCompra: real := 10.0

  /** Decimal.to_integral() under the default context: round to the
      nearest integer, ties to the even one. */
  function RoundHalfEven(x: real): (n: int)
    ensures n as real - 0.5 <= x <= n as real + 0.5
    ensures (x == n as real - 0.5 || x == n as real + 0.5) ==> n % 2 == 0
  {
    var f := x.Floor;
    var d := x - f as real;
    if d < 0.5 then f
    else if d > 0.5 then f + 1
    else if f % 2 == 0 then f
    else f + 1
  }

  /** A count of lots within half a lot of a ratio is within half a lot of
      the amount, once multiplied back. */
  lemma HalfLot(k: real, x: real, m: real, a: real)
    requires 0.0 < m && k - 0.5 <= x <= k + 0.5 && a == x * m
    ensures a - m / 2.0 <= k * m <= a + m / 2.0
  {
    var d := x - k;
    assert d * m == a - k * m;
    assert d * m <= 0.5 * m by {
      assert 0.5 * m - d * m == (0.5 - d) * m;
    }
    assert -0.5 * m <= d * m by {
      assert d * m + 0.5 * m == (d + 0.5) * m;
    }
  }

  lemma RatioAtLeastOne(x: real, m: real, a: real)
    requires 0.0 < m <= a && a == x * m
    ensures 1.0 <= x
  {
    assert a - m == (x - 1.0) * m;
  }

  /** The larger of the quantity and the lot. */
  function Alvo(qtdBtc: real, minOrderQty: real): real {
    if qtdBtc >= minOrderQty then qtdBtc else minOrderQty
  }

  /** The number of whole lots ajustar_quantidade settles on: the target
      over the lot, rounded half to even. */
  function LotesAjustados(qtdBtc: real, minOrderQty: real): (k: int)
    requires minOrderQty != 0.0
    ensures var x := Alvo(qtdBtc, minOrderQty) / minOrderQty;
      k as real - 0.5 <= x <= k as real + 0.5
  {
    RoundHalfEven(Alvo(qtdBtc, minOrderQty) / minOrderQty)
  }

  /** ajustar_quantidade(qtd_btc, min_order_qty): a whole number of lots,
      at least one, within half a lot of the larger of the quantity and the
      lot. A zero lot makes the Decimal division raise. The closing
      ROUND_DOWN quantize to the lot's exponent leaves such a multiple
      unchanged. */
  function AjustarQuantidade(qtdBtc: real, minOrderQty: real): (r: Result<real>)
    ensures r.Err? <==> minOrderQty == 0.0
    ensures r.Ok? ==> r.value == LotesAjustados(qtdBtc, minOrderQty) as real * minOrderQty
    ensures r.Ok? && minOrderQty > 0.0 ==>
      && 1 <= LotesAjustados(qtdBtc, minOrderQty)
      && Alvo(qtdBtc, minOrderQty) - minOrderQty / 2.0 <= r.value <= Alvo(qtdBtc, minOrderQty) + minOrderQty / 2.0
  {
    if minOrderQty == 0.0 then Err("DivisionByZero")
    else
      if minOrderQty > 0.0 then
        AjusteBounds(Alvo(qtdBtc, minOrderQty), minOrderQty);
        Ok(LotesAjustados(qtdBtc, minOrderQty) as real * minOrderQty)
      else
        Ok(LotesAjustados(qtdBtc, minOrderQty) as real * minOrderQty)
  }

  /** The rounded count of lots of a target of at least one lot is at
      least one, and the quantity is within half a lot of the target. */
  lemma AjusteBounds(alvo: real, m: real)
    requires 0.0 < m <= alvo
    ensures 1 <= RoundHalfEven(alvo / m)
    ensures alvo - m / 2.0 <= RoundHalfEven(alvo / m) as real * m <= alvo + m / 2.0
  {
    var x := alvo / m;
    assert x * m == alvo;
    HalfLot(RoundHalfEven(x) as real, x, m, alvo);
    RatioAtLeastOne(x, m, alvo);
  }

  /** Rounding to nearest can buy more than asked: 1.5 lots round up to 2. */
  lemma AjustarQuantidadeRoundsUp()
    ensures AjustarQuantidade(0.0015, 0.001) == Ok(0.002)
  {
    assert RoundHalfEven(1.5) == 2;
  }

  /** and less than asked: 2.5 lots round to the even 2. */
  lemma AjustarQuantidadeRoundsDown()
    ensures AjustarQuantidade(0.0025, 0.001) == Ok(0.002)
  {
    assert RoundHalfEven(2.5) == 2;
  }

  // ---------------------------------------------------------------------
  // The main loop

  /** What the exchange reports for the executed order. */
  datatype Execucao = Execucao(qty: real, cumExecValue: real)

  /** How the order of a pass fares: place_order raises (nothing is sent),
      the order is sent but reading its details back raises, or the
      details are read. */
  datatype Envio = Recusada | SemLeitura | Executada(execucao: Execucao)

  /** What one pass of the loop observes: the clock in seconds, the mid
      price, the balance and the lot (None where the request raised or
      returned None), how the order fares, and the same for the report half
      of the pass. */
  datatype Ciclo = Ciclo(agora: int, preco: Option<real>, saldo: Option<real>, minQty: Option<real>,
                         envio: Envio, precoRelatorio: Option<real>,
                         saldoRelatorio: Option<real>, envioOk: bool)

  /** A market order placed: its day, the quantity sent and the quantity
      the sizing computed. */
  datatype OrdemSpot = OrdemSpot(dia: int, qtyEnviada: real, qtyCalculada: real)

  /** The figures of a report that was generated and mailed. */
  datatype Relatorio = Relatorio(dia: int, saldo: real, precoAtual: real, valorInvestido: real,
                                 precoMedio: real, lucroPrejuizo: real)

  /** The loop's state: the history, the day of the last report, and the
      orders and reports sent so far. */
  datatype Robo = Robo(historico: Historico, ultimaDataRelatorio: Option<int>,
                       ordens: seq<OrdemSpot>, relatorios: seq<Relatorio>)

  function Inicial(h: Historico): Robo {
    Robo(h, None, [], [])
  }

  /** The quantity the sizing computes (and the order then ignores): the
      adjusted quantity, recomputed from 110 % of the amount when it is
      worth less than the amount. */
  function QuantidadeCalculada(preco: real, minQty: real): (r: Result<real>)
    requires preco != 0.0
    ensures r.Err? <==> minQty == 0.0
  {
    var qtd := ValorCompra / preco;
    match AjustarQuantidade(qtd, minQty)
    case Err(e) => Err(e)
    case Ok(q) =>
      if q * preco < ValorCompra then AjustarQuantidade(qtd * 1.1, minQty) else Ok(q)
  }

  /** The price recorded for a purchase: the executed value over the
      executed quantity, or the quoted price when nothing was executed. */
  function PrecoReal(e: Execucao, preco: real): (p: real)
    ensures e.qty > 0.0 ==> p * e.qty == e.cumExecValue
    ensures e.qty <= 0.0 ==> p == preco
  {
    if e.qty > 0.0 then e.cumExecValue / e.qty else preco
  }

  /** The checks before place_order all pass: price and balance read, the
      balance covers the purchase, the price is non-zero (the division),
      the lot is read and the sizing does not raise. */
  predicate Dimensionada(c: Ciclo) {
    && c.preco.Some? && c.saldo.Some? && c.saldo.value >= ValorCompra
    && c.preco.value != 0.0 && c.minQty.Some?
    && QuantidadeCalculada(c.preco.value, c.minQty.value).Ok?
  }

  /** The buy half of a pass; the flag says whether the pass ends there
      (a continue), skipping the report half. */
  function TentaCompra(r: Robo, c: Ciclo, dia: int): (res: (Robo, bool))
    ensures res.0.relatorios == r.relatorios && res.0.ultimaDataRelatorio == r.ultimaDataRelatorio
    ensures Dimensionada(c) && !c.envio.Recusada? ==>
      res.0.ordens == r.ordens + [OrdemSpot(dia, 10.0, QuantidadeCalculada(c.preco.value, c.minQty.value).value)]
    ensures !(Dimensionada(c) && !c.envio.Recusada?) ==> res.0.ordens == r.ordens
    ensures !res.1 <==> Dimensionada(c) && c.envio.Executada?
    ensures res.1 ==> res.0.historico == r.historico
    ensures !res.1 ==>
      var e := c.envio.execucao;
      && res.0.historico.ultimaCompra == Some(dia)
      && res.0.historico.compras
         == r.historico.compras + [Compra(c.agora, e.qty, e.cumExecValue, PrecoReal(e, c.preco.value))]
  {
    if c.preco.None? || c.saldo.None? then (r, true)
    else if c.saldo.value < ValorCompra then (r, true)
    else if c.preco.value == 0.0 then (r, true)
    else if c.minQty.None? then (r, true)
    else
      var calculada := QuantidadeCalculada(c.preco.value, c.minQty.value);
      if calculada.Err? then (r, true)
      else if c.envio.Recusada? then (r, true)
      else
        var enviada := r.(ordens := r.ordens + [OrdemSpot(dia, 10.0, calculada.value)]);
        if c.envio.SemLeitura? then (enviada, true)
        else
          var e := c.envio.execucao;
          var compra := Compra(c.agora, e.qty, e.cumExecValue, PrecoReal(e, c.preco.value));
          (enviada.(historico := Historico(Some(dia), r.historico.compras + [compra])), false)
  }

  /** The report half: once a day, when price and balance can be read and
      the mail goes out. */
  function Reporta(r: Robo, c: Ciclo, dia: int): Robo {
    if c.precoRelatorio.None? || c.saldoRelatorio.None? then r
    else if (r.ultimaDataRelatorio.None? || r.ultimaDataRelatorio.value < dia) && c.envioOk then
      var compras := r.historico.compras;
      var rel := Relatorio(dia, c.saldoRelatorio.value, c.precoRelatorio.value, TotalUsdt(compras),
                           PrecoMedio(compras), LucroPrejuizo(compras, c.precoRelatorio.value));
      r.(relatorios := r.relatorios + [rel], ultimaDataRelatorio := Some(dia))
    else r
  }

  /** One pass of the while True loop. Past the daily gate neither an order
      nor a purchase is made. */
  function Passo(r: Robo, c: Ciclo): (r': Robo)
    ensures !DeveComprar(r.historico, Dia(c.agora)) ==> r'.historico == r.historico && r'.ordens == r.ordens
  {
    var dia := Dia(c.agora);
    if DeveComprar(r.historico, dia) then
      var (r', fim) := TentaCompra(r, c, dia);
      if fim then r' else Reporta(r', c, dia)
    else Reporta(r, c, dia)
  }

  function Executa(r: Robo, ciclos: seq<Ciclo>): Robo
    decreases |ciclos|
  {
    if ciclos == [] then r else Passo(Executa(r, ciclos[..|ciclos| - 1]), ciclos[|ciclos| - 1])
  }

  /** The buy half of a pass, as the loop body runs it. */
  method CompraDoDia(r: Robo, c: Ciclo, dia: int) returns (r': Robo, fim: bool)
    ensures (r', fim) == TentaCompra(r, c, dia)
  {
    r', fim := r, true;
    if c.preco.None? || c.saldo.None? || c.saldo.value < ValorCompra || c.preco.value == 0.0 || c.minQty.None? {
      return;
    }
    var precoBtc := c.preco.value;
    var calculada := QuantidadeCalculada(precoBtc, c.minQty.value);
    if calculada.Err? || c.envio.Recusada? {
      return;
    }
    var ordens := r.ordens + [OrdemSpot(dia, 10.0, calculada.value)];
    r' := r.(ordens := ordens);
    if c.envio.SemLeitura? {
      return;
    }
    var qtdBtcReal := c.envio.execucao.qty;
    var qtdUsdtReal := c.envio.execucao.cumExecValue;
    var precoBtcReal := PrecoReal(c.envio.execucao, precoBtc);
    var compras := r.historico.compras + [Compra(c.agora, qtdBtcReal, qtdUsdtReal, precoBtcReal)];
    r' := r'.(historico := Historico(Some(dia), compras));
    fim := false;
  }

  /** main() after the history request: None when the request failed (the
      bot stops), otherwise the state after the given passes. */
  method Executar(ordensApi: Option<seq<ApiOrder>>, ciclos: seq<Ciclo>) returns (robo: Option<Robo>)
    ensures ordensApi.None? ==> robo.None?
    ensures ordensApi.Some? ==> robo == Some(Executa(Inicial(HistoricoDe(ordensApi.value)), ciclos))
  {
    if ordensApi.None? {
      return None;
    }
    var historico := ObterHistoricoComprasApi(ordensApi.value);
    var r := Inicial(historico);
    var i := 0;
    while i < |ciclos|
      invariant 0 <= i <= |ciclos|
      invariant r == Executa(Inicial(historico), ciclos[..i])
    {
      var c := ciclos[i];
      assert ciclos[..i + 1][..i] == ciclos[..i];
      var dia := Dia(c.agora);
      var fim := false;
      if DeveComprar(r.historico, dia) {
        r, fim := CompraDoDia(r, c, dia);
      }
      if !fim {
        r := Reporta(r, c, dia);
      }
      i := i + 1;
    }
    assert ciclos[..|ciclos|] == ciclos;
    robo := Some(r);
  }

  // ---------------------------------------------------------------------
  // Properties of the loop

  /** A pass records at most one purchase, only when the gate is open, and
      a recorded purchase sets the last purchase day to today; orders
      carry the literal quantity 10. */
  lemma PassoGate(r: Robo, c: Ciclo)
    ensures var r' := Passo(r, c);
      && r.historico.compras <= r'.historico.compras
      && |r'.historico.compras| <= |r.historico.compras| + 1
      && (|r'.historico.compras| == |r.historico.compras| ==> r'.historico.ultimaCompra == r.historico.ultimaCompra)
      && (|r'.historico.compras| > |r.historico.compras| ==>
            && DeveComprar(r.historico, Dia(c.agora))
            && r'.historico.ultimaCompra == Some(Dia(c.agora))
            && Dia(r'.historico.compras[|r.historico.compras|].data) == Dia(c.agora))
      && r.ordens <= r'.ordens && |r'.ordens| <= |r.ordens| + 1
      && (forall k :: |r.ordens| <= k < |r'.ordens| ==> r'.ordens[k].qtyEnviada == 10.0)
      && r.relatorios <= r'.relatorios && |r'.relatorios| <= |r.relatorios| + 1
      && (|r'.relatorios| > |r.relatorios| ==>
            && (r.ultimaDataRelatorio.None? || r.ultimaDataRelatorio.value < Dia(c.agora))
            && r'.ultimaDataRelatorio == Some(Dia(c.agora))
            && r'.relatorios[|r.relatorios|].dia == Dia(c.agora))
      && (|r'.relatorios| == |r.relatorios| ==> r'.ultimaDataRelatorio == r.ultimaDataRelatorio)
  {
  }

  /** The same for the reports. */
  predicate UmRelatorioPorDia(s: Robo, r: Robo) {
    var m := |s.relatorios|;
    && s.relatorios <= r.relatorios
    && (forall i, j :: m <= i < j < |r.relatorios| ==> r.relatorios[i].dia < r.relatorios[j].dia)
    && (|r.relatorios| == m ==> r.ultimaDataRelatorio == s.ultimaDataRelatorio)
    && (|r.relatorios| > m ==> r.ultimaDataRelatorio == Some(r.relatorios[|r.relatorios| - 1].dia))
  }

  /** The earlier orders stay and every new one asks for 10. */
  predicate OrdensDeDez(s: Robo, r: Robo) {
    && s.ordens <= r.ordens
    && (forall k :: |s.ordens| <= k < |r.ordens| ==> r.ordens[k].qtyEnviada == 10.0)
  }

  /** At most one recorded purchase per calendar day over any run of
      passes. */
  lemma {:induction false} ExecutaUmaCompraPorDia(s: Robo, ciclos: seq<Ciclo>)
    ensures UmaCompraPorDia(s.historico, Executa(s, ciclos).historico)
    decreases |ciclos|
  {
    if ciclos != [] {
      var antes := Executa(s, ciclos[..|ciclos| - 1]);
      var c := ciclos[|ciclos| - 1];
      ExecutaUmaCompraPorDia(s, ciclos[..|ciclos| - 1]);
      PassoGate(antes, c);
      var h := Passo(antes, c).historico;
      if |h.compras| > |antes.historico.compras| {
        var novo := h.compras[|h.compras| - 1];
        assert h.compras == antes.historico.compras + [novo];
        RegistroKeepsUmaCompraPorDia(s.historico, antes.historico, novo);
      }
    }
  }

  /** At most one report per calendar day over any run of passes. */
  lemma {:induction false} ExecutaUmRelatorioPorDia(s: Robo, ciclos: seq<Ciclo>)
    ensures UmRelatorioPorDia(s, Executa(s, ciclos))
    decreases |ciclos|
  {
    if ciclos != [] {
      var antes := Executa(s, ciclos[..|ciclos| - 1]);
      var c := ciclos[|ciclos| - 1];
      ExecutaUmRelatorioPorDia(s, ciclos[..|ciclos| - 1]);
      PassoGate(antes, c);
      var rs := Passo(antes, c).relatorios;
      if |rs| > |antes.relatorios| {
        assert rs[..|rs| - 1] == antes.relatorios;
      }
    }
  }

  /** Every order a run sends asks for the literal quantity 10. */
  lemma {:induction false} ExecutaOrdensDeDez(s: Robo, ciclos: seq<Ciclo>)
    ensures OrdensDeDez(s, Executa(s, ciclos))
    decreases |ciclos|
  {
    if ciclos != [] {
      ExecutaOrdensDeDez(s, ciclos[..|ciclos| - 1]);
      PassoGate(Executa(s, ciclos[..|ciclos| - 1]), ciclos[|ciclos| - 1]);
    }
  }

  /** The gate guards the record, not the order: when the order goes out
      but reading it back fails, the pass ends before anything is recorded,
      and the next pass on the same day sends another order. */
  lemma OrdemRepetidaNoMesmoDia(r: Robo, c: Ciclo)
    requires DeveComprar(r.historico, Dia(c.agora))
    requires c.preco.Some? && c.preco.value > 0.0 && c.saldo.Some? && c.saldo.value >= ValorCompra
    requires c.minQty.Some? && c.minQty.value > 0.0 && c.envio.SemLeitura?
    ensures var r2 := Executa(r, [c, c]);
      && |r2.ordens| == |r.ordens| + 2
      && r2.ordens[|r.ordens|].dia == r2.ordens[|r.ordens| + 1].dia == Dia(c.agora)
      && r2.historico == r.historico
  {
    assert [c, c][..1] == [c];
    assert [c][..0] == [];
    var r1 := Passo(r, c);
    assert Executa(r, [c]) == r1;
    assert r1 == r.(ordens := r.ordens + [OrdemSpot(Dia(c.agora), 10.0, QuantidadeCalculada(c.preco.value, c.minQty.value).value)]);
    assert Executa(r, [c, c]) == Passo(r1, c);
  }

  /** When place_order itself raises nothing is sent: the pass ends with
      neither an order nor a purchase, and the gate stays open for the
      next pass. */
  lemma OrdemRecusadaNadaEnvia(r: Robo, c: Ciclo)
    requires DeveComprar(r.historico, Dia(c.agora)) && c.envio.Recusada?
    ensures Passo(r, c) == r
  {
  }
}
