/**
  The purchase history both daily dollar-cost-averaging bots keep: reading
  it from the exchange's order history, the average purchase price and the
  potential profit the report prints. The two bots carry identical copies
  of this code.
*/
module HistoricoCompras {
  import opened Wrappers
  import opened Candles

  /** One entry of the order-history response. */
  datatype ApiOrder = ApiOrder(orderStatus: string, createdTime: int, qty: real, cumExecValue: real)

  /** One purchase of the history; data is the purchase time in whole
      seconds. */
  datatype Compra = Compra(data: int, qtdBtc: real, qtdUsdt: real, precoBtc: real)

  /** ultima_compra is the day of the latest purchase; compras are in the
      reverse of the API's order (oldest first, as the API lists the newest
      first), and new purchases are appended. */
  datatype Historico = Historico(ultimaCompra: Option<int>, compras: seq<Compra>)

  /** The calendar day of a time in seconds. */
  function Dia(segundos: int): int {
    segundos / 86400
  }

  lemma DiaMonotone(a: int, b: int)
    requires a <= b
    ensures Dia(a) <= Dia(b)
  {
  }

  /** The purchase recorded for a filled order: the time in whole seconds,
      and the price as the value over the quantity, 0 when the quantity is
      not positive. */
  function CompraDe(o: ApiOrder): (c: Compra)
    ensures c.qtdBtc == o.qty && c.qtdUsdt == o.cumExecValue
    ensures o.qty > 0.0 ==> c.precoBtc * o.qty == o.cumExecValue
    ensures o.qty <= 0.0 ==> c.precoBtc == 0.0
  {
    Compra(o.createdTime / 1000, o.qty, o.cumExecValue,
           if o.qty > 0.0 then o.cumExecValue / o.qty else 0.0)
  }

  predicate Preenchida(o: ApiOrder) {
    o.orderStatus == "Filled"
  }

  /** The purchases of the filled orders, in the order the API lists them. */
  function Preenchidas(ordens: seq<ApiOrder>): seq<Compra>
    decreases |ordens|
  {
    if ordens == [] then []
    else
      var antes := Preenchidas(ordens[..|ordens| - 1]);
      var o := ordens[|ordens| - 1];
      if Preenchida(o) then antes + [CompraDe(o)] else antes
  }

  /** Exactly the filled orders become purchases. */
  lemma {:induction false} PreenchidasExactly(ordens: seq<ApiOrder>)
    ensures |Preenchidas(ordens)| <= |ordens|
    ensures forall c :: c in Preenchidas(ordens) <==> exists o :: o in ordens && Preenchida(o) && c == CompraDe(o)
    decreases |ordens|
  {
    if ordens != [] {
      var init := ordens[..|ordens| - 1];
      PreenchidasExactly(init);
      assert ordens == init + [ordens[|ordens| - 1]];
    }
  }

  /** The latest purchase time; a later one replaces the current only when
      strictly later. */
  function Mais(compras: seq<Compra>): (r: Option<int>)
    ensures r.None? <==> compras == []
    ensures r.Some? ==> forall c :: c in compras ==> c.data <= r.value
    ensures r.Some? ==> exists c :: c in compras && c.data == r.value
    decreases |compras|
  {
    if compras == [] then None
    else
      var antes := Mais(compras[..|compras| - 1]);
      var c := compras[|compras| - 1];
      assert compras == compras[..|compras| - 1] + [c];
      if antes.None? || c.data > antes.value then Some(c.data) else antes
  }

  /** What obter_historico_compras_api returns for a given order list. */
  function HistoricoDe(ordens: seq<ApiOrder>): Historico {
    var compras := Preenchidas(ordens);
    var mais := Mais(compras);
    Historico(if mais.None? then None else Some(Dia(mais.value)), Reversed(compras))
  }

  /** ultima_compra is the day of some purchase and no purchase is on a
      later day; it is missing exactly when no order was filled. */
  lemma UltimaCompraIsLatestDay(ordens: seq<ApiOrder>)
    ensures var h := HistoricoDe(ordens);
      && (h.ultimaCompra.None? <==> h.compras == [])
      && (h.ultimaCompra.Some? ==> forall c :: c in h.compras ==> Dia(c.data) <= h.ultimaCompra.value)
      && (h.ultimaCompra.Some? ==> exists c :: c in h.compras && Dia(c.data) == h.ultimaCompra.value)
  {
    var compras := Preenchidas(ordens);
    var h := HistoricoDe(ordens);
    assert forall c :: c in h.compras <==> c in compras by {
      forall c ensures c in h.compras <==> c in compras {
        if c in compras {
          var i :| 0 <= i < |compras| && compras[i] == c;
          assert h.compras[|compras| - 1 - i] == c;
        }
      }
    }
    if h.ultimaCompra.Some? {
      forall c | c in h.compras
        ensures Dia(c.data) <= h.ultimaCompra.value
      {
        DiaMonotone(c.data, Mais(compras).value);
      }
    }
  }

  lemma PreenchidasStep(ordens: seq<ApiOrder>, i: nat)
    requires i < |ordens|
    ensures Preenchidas(ordens[..i + 1]) ==
      if Preenchida(ordens[i]) then Preenchidas(ordens[..i]) + [CompraDe(ordens[i])] else Preenchidas(ordens[..i])
  {
    assert ordens[..i + 1][..i] == ordens[..i];
  }

  lemma MaisStep(compras: seq<Compra>, c: Compra)
    ensures Mais(compras + [c]) ==
      if Mais(compras).None? || c.data > Mais(compras).value then Some(c.data) else Mais(compras)
  {
    assert (compras + [c])[..|compras|] == compras;
  }

  /** obter_historico_compras_api after the request: walk the orders, keep
      the filled ones and the latest time, then reverse the list. */
  method ObterHistoricoComprasApi(ordens: seq<ApiOrder>) returns (h: Historico)
    ensures h == HistoricoDe(ordens)
  {
    var compras: seq<Compra> := [];
    var ultimaData: Option<int> := None;
    var i := 0;
    while i < |ordens|
      invariant 0 <= i <= |ordens|
      invariant compras == Preenchidas(ordens[..i])
      invariant ultimaData == Mais(compras)
    {
      var ordem := ordens[i];
      PreenchidasStep(ordens, i);
      if ordem.orderStatus == "Filled" {
        var compra := CompraDe(ordem);
        MaisStep(compras, compra);
        compras := compras + [compra];
        if ultimaData.None? || compra.data > ultimaData.value {
          ultimaData := Some(compra.data);
        }
      }
      i := i + 1;
    }
    assert ordens[..|ordens|] == ordens;
    var ultimaCompra := if ultimaData.Some? then Some(Dia(ultimaData.value)) else None;
    h := Historico(ultimaCompra, Reversed(compras));
  }

  function TotalBtc(compras: seq<Compra>): real
    decreases |compras|
  {
    if compras == [] then 0.0 else TotalBtc(compras[..|compras| - 1]) + compras[|compras| - 1].qtdBtc
  }

  function TotalUsdt(compras: seq<Compra>): real
    decreases |compras|
  {
    if compras == [] then 0.0 else TotalUsdt(compras[..|compras| - 1]) + compras[|compras| - 1].qtdUsdt
  }

  /** calcular_preco_medio: total USDT over total BTC, 0 when no BTC. */
  function PrecoMedio(compras: seq<Compra>): (r: real)
    ensures TotalBtc(compras) > 0.0 ==> r * TotalBtc(compras) == TotalUsdt(compras)
    ensures TotalBtc(compras) <= 0.0 ==> r == 0.0
  {
    if TotalBtc(compras) > 0.0 then TotalUsdt(compras) / TotalBtc(compras) else 0.0
  }

  /** When every purchase paid the same price p, the average price is p. */
  lemma {:induction false} PrecoUniforme(compras: seq<Compra>, p: real)
    requires forall i :: 0 <= i < |compras| ==> compras[i].qtdUsdt == p * compras[i].qtdBtc
    ensures TotalUsdt(compras) == p * TotalBtc(compras)
    ensures TotalBtc(compras) > 0.0 ==> PrecoMedio(compras) == p
    decreases |compras|
  {
    if compras != [] {
      var init := compras[..|compras| - 1];
      var c := compras[|compras| - 1];
      PrecoUniforme(init, p);
      assert p * TotalBtc(compras) == p * TotalBtc(init) + p * c.qtdBtc;
    }
  }

  /** The profit or loss the report prints: what the BTC bought is worth at
      the current price minus what was paid. */
  function LucroPrejuizo(compras: seq<Compra>, precoAtual: real): (r: real)
    ensures TotalBtc(compras) > 0.0 ==>
      r == TotalBtc(compras) * (precoAtual - PrecoMedio(compras))
  {
    TotalBtc(compras) * precoAtual - TotalUsdt(compras)
  }

  /** Sums are additive over appending one purchase. */
  lemma TotalsAppend(compras: seq<Compra>, c: Compra)
    ensures TotalBtc(compras + [c]) == TotalBtc(compras) + c.qtdBtc
    ensures TotalUsdt(compras + [c]) == TotalUsdt(compras) + c.qtdUsdt
  {
    assert (compras + [c])[..|compras|] == compras;
  }

  /** The buy gate: no purchase yet, or the last one before today. */
  predicate DeveComprar(h: Historico, dia: int) {
    h.ultimaCompra.None? || h.ultimaCompra.value < dia
  }

  /** What a run of passes keeps of the purchases of its starting state
      s: the earlier purchases stay, the new ones fall on strictly increasing
      days after the last purchase day of s, and the last one gives the
      current last purchase day. */
  predicate UmaCompraPorDia(s: Historico, h: Historico) {
    var n := |s.compras|;
    && s.compras <= h.compras
    && (forall i, j :: n <= i < j < |h.compras| ==> Dia(h.compras[i].data) < Dia(h.compras[j].data))
    && (forall i :: n <= i < |h.compras| ==> DeveComprar(s, Dia(h.compras[i].data)))
    && (|h.compras| == n ==> h.ultimaCompra == s.ultimaCompra)
    && (|h.compras| > n ==> h.ultimaCompra == Some(Dia(h.compras[|h.compras| - 1].data)))
  }

  /** Recording one purchase through the gate keeps UmaCompraPorDia. */
  lemma RegistroKeepsUmaCompraPorDia(s: Historico, h: Historico, c: Compra)
    requires UmaCompraPorDia(s, h) && DeveComprar(h, Dia(c.data))
    ensures UmaCompraPorDia(s, Historico(Some(Dia(c.data)), h.compras + [c]))
  {
    var cs := h.compras + [c];
    var n := |s.compras|;
    var last := |cs| - 1;
    assert cs[..last] == h.compras;
    forall i | n <= i < last
      ensures Dia(cs[i].data) < Dia(c.data)
    {
      assert cs[i] == h.compras[i];
      assert i == last - 1 || Dia(cs[i].data) < Dia(cs[last - 1].data);
    }
    assert s.compras <= cs by {
      assert cs[..n] == h.compras[..n];
    }
  }
}
