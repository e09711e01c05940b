/**
  The daily dollar-cost-averaging bot that buys a fixed 10 USDT worth at the
  mid price once per calendar day and records the purchase itself.
*/
module DailySpotBuy {
  import opened Wrappers
  import opened HistoricoCompras

  const ValorCompra: real := 10.0

  /** What one pass of the loop observes: the clock in seconds, the mid
      price (None where the request failed), the balance (None where the
      request raised), and whether placing the order went through. */
  datatype Ciclo = Ciclo(agora: int, preco: Option<real>, saldo: Option<real>, ordemOk: bool)

  /** A market order placed: its day and the quantity asked for. */
  datatype OrdemSpot = OrdemSpot(dia: int, qtd: real)

  /** The loop's state: the history, the orders placed, and the reports
      mailed. */
  datatype Robo = Robo(historico: Historico, ordens: seq<OrdemSpot>, relatorios: nat)

  function Inicial(h: Historico): Robo {
    Robo(h, [], 0)
  }

  /** One pass of the while True loop. After a purchase is saved the report
      call passes the purchase list where three arguments are expected; the
      TypeError it raises lands in the except branch, which ends the pass,
      so no report is ever mailed. */
  function Passo(r: Robo, c: Ciclo): Robo {
    var dia := Dia(c.agora);
    if !DeveComprar(r.historico, dia) then r
    else if c.preco.None? || c.saldo.None? then r
    else if c.saldo.value < ValorCompra then r
    else if c.preco.value == 0.0 then r
    else if !c.ordemOk then r
    else
      var qtdBtc := ValorCompra / c.preco.value;
      var compra := Compra(c.agora, qtdBtc, ValorCompra, c.preco.value);
      r.(historico := Historico(Some(dia), r.historico.compras + [compra]),
         ordens := r.ordens + [OrdemSpot(dia, qtdBtc)])
  }

  function Executa(r: Robo, ciclos: seq<Ciclo>): Robo
    decreases |ciclos|
  {
    if ciclos == [] then r else Passo(Executa(r, ciclos[..|ciclos| - 1]), ciclos[|ciclos| - 1])
  }

  /** main() after the history request: None when the request failed (the
      bot stops), otherwise the state after the given passes. */
  method Executar(ordensApi: Option<seq<ApiOrder>>, ciclos: seq<Ciclo>) returns (robo: Option<Robo>)
    ensures ordensApi.None? ==> robo.None?
    ensures ordensApi.Some? ==> robo == Some(Executa(Inicial(HistoricoDe(ordensApi.value)), ciclos))
  {
    if ordensApi.None? {
      return None;
    }
    var historico := ObterHistoricoComprasApi(ordensApi.value);
    var compras := historico.compras;
    var ultimaCompra := historico.ultimaCompra;
    var ordens: seq<OrdemSpot> := [];
    var i := 0;
    while i < |ciclos|
      invariant 0 <= i <= |ciclos|
      invariant Robo(Historico(ultimaCompra, compras), ordens, 0) == Executa(Inicial(historico), ciclos[..i])
    {
      var c := ciclos[i];
      assert ciclos[..i + 1][..i] == ciclos[..i];
      var diaAtual := Dia(c.agora);
      if ultimaCompra.None? || ultimaCompra.value < diaAtual {
        if c.preco.Some? && c.saldo.Some? && c.saldo.value >= ValorCompra && c.preco.value != 0.0 {
          var precoBtc := c.preco.value;
          var qtdBtc := ValorCompra / precoBtc;
          if c.ordemOk {
            ordens := ordens + [OrdemSpot(diaAtual, qtdBtc)];
            compras := compras + [Compra(c.agora, qtdBtc, ValorCompra, precoBtc)];
            ultimaCompra := Some(diaAtual);
          }
        }
      }
      i := i + 1;
    }
    assert ciclos[..|ciclos|] == ciclos;
    robo := Some(Robo(Historico(ultimaCompra, compras), ordens, 0));
  }

  /** A pass records a purchase exactly when it places an order; the
      purchase is 10 USDT at the observed price, on today, through the
      gate. */
  lemma PassoRegistraOrdem(r: Robo, c: Ciclo)
    ensures var r' := Passo(r, c);
      && (r'.ordens == r.ordens <==> r'.historico == r.historico)
      && (r'.ordens == r.ordens || (
            && DeveComprar(r.historico, Dia(c.agora))
            && c.preco.Some? && c.preco.value != 0.0
            && r'.ordens == r.ordens + [OrdemSpot(Dia(c.agora), ValorCompra / c.preco.value)]
            && r'.historico == Historico(Some(Dia(c.agora)),
                 r.historico.compras + [Compra(c.agora, ValorCompra / c.preco.value, ValorCompra, c.preco.value)])))
  {
  }

  /** Over any run: at most one purchase per calendar day. */
  lemma {:induction false} ExecutaUmaCompraPorDia(s: Robo, ciclos: seq<Ciclo>)
    ensures UmaCompraPorDia(s.historico, Executa(s, ciclos).historico)
    decreases |ciclos|
  {
    if ciclos != [] {
      var antes := Executa(s, ciclos[..|ciclos| - 1]);
      var c := ciclos[|ciclos| - 1];
      ExecutaUmaCompraPorDia(s, ciclos[..|ciclos| - 1]);
      PassoRegistraOrdem(antes, c);
      var r := Passo(antes, c);
      if r.ordens != antes.ordens {
        RegistroKeepsUmaCompraPorDia(s.historico, antes.historico, r.historico.compras[|r.historico.compras| - 1]);
      }
    }
  }

  /** What a run adds to its starting state s: one order per new purchase,
      each new purchase worth 10 USDT with quantity times price equal to 10,
      and no report. */
  predicate ComprasDeDez(s: Robo, r: Robo) {
    && s.historico.compras <= r.historico.compras
    && |r.ordens| - |s.ordens| == |r.historico.compras| - |s.historico.compras|
    && (forall i :: |s.historico.compras| <= i < |r.historico.compras| ==>
          r.historico.compras[i].qtdUsdt == ValorCompra
          && r.historico.compras[i].qtdBtc * r.historico.compras[i].precoBtc == ValorCompra)
    && r.relatorios == s.relatorios
  }

  /** Over any run: one order per recorded purchase, each purchase worth 10
      USDT at its price, and no report mailed. */
  lemma {:induction false} ExecutaComprasDeDez(s: Robo, ciclos: seq<Ciclo>)
    ensures ComprasDeDez(s, Executa(s, ciclos))
    decreases |ciclos|
  {
    if ciclos != [] {
      var antes := Executa(s, ciclos[..|ciclos| - 1]);
      var c := ciclos[|ciclos| - 1];
      ExecutaComprasDeDez(s, ciclos[..|ciclos| - 1]);
      PassoRegistraOrdem(antes, c);
      var r := Passo(antes, c);
      if r.ordens != antes.ordens {
        var preco := c.preco.value;
        assert (ValorCompra / preco) * preco == ValorCompra;
        var n := |antes.historico.compras|;
        assert r.historico.compras[..n] == antes.historico.compras;
        forall i | |s.historico.compras| <= i < |r.historico.compras|
          ensures r.historico.compras[i].qtdUsdt == ValorCompra
          ensures r.historico.compras[i].qtdBtc * r.historico.compras[i].precoBtc == ValorCompra
        {
          if i < n {
            assert r.historico.compras[i] == antes.historico.compras[i];
          }
        }
      }
    }
  }
}
