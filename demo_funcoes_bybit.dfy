/**
  The DemoBybitFunctions helpers the demo strategy calls in place of
  funcoes_bybit. Each exchange request is a parameter (Err when the call
  raises). Every helper catches its own exceptions and hands back a
  neutral value instead: an empty frame, a flat position, a zero balance,
  a fallback lot, no order, or False.
*/
module DemoFuncoesBybit {
  import opened Wrappers
  import opened Candles
  import opened EstadoTrade
  import opened FuncoesBybit

  // ---------------------------------------------------------------------
  // busca_velas

  /** One row of the demo frame: the candle and its three EMA columns. The
      RSI and Volume_EMA_20 columns busca_velas also builds are recomputed
      by the strategy before any use, so they are not kept. */
  datatype Linha = Linha(candle: Candle, emaRapida: real, emaLenta: real, ema200: real)

  /** busca_velas(cripto, tempo_grafico, emas) on the kline request's
      answer. The list comes newest first and the frame is oldest first.
      The EMAs are ewm(span).mean() with pandas' default adjust=True.
      `ema_rapida, ema_lenta = emas` raises unless emas has exactly two
      spans, and a span below 1 makes pandas raise; every failure,
      the request's included, is caught and gives the empty frame. */
  function BuscaVelas(resposta: Result<seq<Candle>>, emas: seq<int>): (df: seq<Linha>)
    ensures resposta.Err? || |emas| != 2 || emas[0] < 1 || emas[1] < 1 ==> df == []
    ensures resposta.Ok? && |emas| == 2 && emas[0] >= 1 && emas[1] >= 1 ==>
      && |df| == |resposta.value|
      && forall i :: 0 <= i < |df| ==>
        var closes := Closes(Reversed(resposta.value));
        && df[i].candle == resposta.value[|df| - 1 - i]
        && df[i].emaRapida == AdjustedEwmAt(closes, Alpha(emas[0]), i)
        && df[i].emaLenta == AdjustedEwmAt(closes, Alpha(emas[1]), i)
        && df[i].ema200 == AdjustedEwmAt(closes, Alpha(200), i)
  {
    if resposta.Err? || |emas| != 2 || emas[0] < 1 || emas[1] < 1 then []
    else
      var velas := Reversed(resposta.value);
      var closes := Closes(velas);
      seq(|velas|, i requires 0 <= i < |velas| =>
        Linha(velas[i], AdjustedEwmAt(closes, Alpha(emas[0]), i), AdjustedEwmAt(closes, Alpha(emas[1]), i),
              AdjustedEwmAt(closes, Alpha(200), i)))
  }

  /** Each EMA of the demo frame stays between the lowest and the highest
      close seen up to its row. */
  lemma BuscaVelasLimites(resposta: Result<seq<Candle>>, emas: seq<int>, i: nat)
    requires i < |BuscaVelas(resposta, emas)|
    ensures var df := BuscaVelas(resposta, emas);
      var vistos := Closes(Reversed(resposta.value))[..i + 1];
      && Min(vistos) <= df[i].emaRapida <= Max(vistos)
      && Min(vistos) <= df[i].emaLenta <= Max(vistos)
      && Min(vistos) <= df[i].ema200 <= Max(vistos)
  {
    var closes := Closes(Reversed(resposta.value));
    EwmEntreVistos(closes, Alpha(emas[0]), i);
    EwmEntreVistos(closes, Alpha(emas[1]), i);
    EwmEntreVistos(closes, Alpha(200), i);
  }

  /** One adjusted EWM value lies between the extremes of the closes up to
      its row. */
  lemma EwmEntreVistos(closes: seq<real>, alpha: real, i: nat)
    requires 0.0 < alpha <= 1.0 && i < |closes|
    ensures Min(closes[..i + 1]) <= AdjustedEwmAt(closes, alpha, i) <= Max(closes[..i + 1])
  {
    var vistos := closes[..i + 1];
    assert forall j :: 0 <= j <= i ==> closes[j] == vistos[j];
    AdjustedEwmWithinBounds(closes, alpha, i, Min(vistos), Max(vistos));
  }

  // ---------------------------------------------------------------------
  // tem_trade_aberto

  /** The fields of one position record the scan reads. */
  datatype Posicao = Posicao(size: PriceField, side: string, avgPrice: PriceField,
                             stopLoss: PriceField, takeProfit: PriceField)

  /** float() on a field: the empty string raises like malformed text. */
  function Numero(f: PriceField): (r: Result<real>)
    ensures r.Ok? <==> f.Numeric?
    ensures r.Ok? ==> r.value == f.value
  {
    if f.Numeric? then Ok(f.value) else Err("ValueError")
  }

  /** `float(x) if x else 0`: the empty string is 0, other text is parsed. */
  function NumeroOuZero(f: PriceField): (r: Result<real>)
    ensures r.Ok? <==> !f.Malformed?
    ensures f.Blank? ==> r == Ok(0.0)
  {
    ParsePrice(f)
  }

  /** What the scan reports for one record with a non-zero size: 'Buy' is
      COMPRADO and any other side VENDIDO, never an unmapped text. */
  function Aberta(p: Posicao): (r: Result<OpenTrade>)
    ensures r.Ok? <==> p.avgPrice.Numeric? && !p.stopLoss.Malformed? && !p.takeProfit.Malformed?
    ensures r.Ok? ==> r.value.estado == Mapped(if p.side == "Buy" then Comprado else Vendido)
    ensures r.Ok? ==> r.value.precoEntrada == p.avgPrice.value
  {
    var media := Numero(p.avgPrice);
    var stop := NumeroOuZero(p.stopLoss);
    var alvo := NumeroOuZero(p.takeProfit);
    if media.Err? || stop.Err? || alvo.Err? then Err("ValueError")
    else Ok(OpenTrade(Mapped(if p.side == "Buy" then Comprado else Vendido), media.value, stop.value, alvo.value))
  }

  /** The answer when nothing is open, and the one every caught exception
      gives. */
  const Fora: OpenTrade := OpenTrade(Mapped(DeFora), 0.0, 0.0, 0.0)

  /** The scan from record k on: Ok(None) when every remaining size parses
      to 0, Err when a float() call raises first. */
  function Varre(ps: seq<Posicao>, k: nat): (r: Result<Option<OpenTrade>>)
    requires k <= |ps|
    decreases |ps| - k
  {
    if k == |ps| then Ok(None)
    else
      var size := Numero(ps[k].size);
      if size.Err? then Err(size.error)
      else if size.value == 0.0 then Varre(ps, k + 1)
      else
        var t := Aberta(ps[k]);
        if t.Err? then Err(t.error) else Ok(Some(t.value))
  }

  /** tem_trade_aberto(cripto) on the answer of get_positions. */
  function TemTradeAberto(resposta: Result<seq<Posicao>>): (t: OpenTrade)
  {
    if resposta.Err? then Fora
    else
      var r := Varre(resposta.value, 0);
      if r.Err? || r.value.None? then Fora else r.value.value
  }

  /** The scan as the helper runs it: a loop over the records that returns
      at the first non-zero size. */
  method TemTradeAbertoLoop(resposta: Result<seq<Posicao>>) returns (t: OpenTrade)
    ensures t == TemTradeAberto(resposta)
  {
    if resposta.Err? {
      return Fora;
    }
    var ps := resposta.value;
    var k := 0;
    while k < |ps|
      invariant 0 <= k <= |ps|
      invariant Varre(ps, 0) == Varre(ps, k)
    {
      var size := Numero(ps[k].size);
      if size.Err? {
        return Fora;
      }
      if size.value != 0.0 {
        var aberta := Aberta(ps[k]);
        if aberta.Err? {
          return Fora;
        }
        return aberta.value;
      }
      k := k + 1;
    }
    return Fora;
  }

  /** The position reported is the first record with a non-zero size, read
      as COMPRADO exactly when its side is 'Buy'. */
  lemma {:induction false} VarrePrimeiraAberta(ps: seq<Posicao>, k: nat)
    requires k <= |ps| && Varre(ps, k).Ok? && Varre(ps, k).value.Some?
    ensures exists j :: (k <= j < |ps| && ps[j].size.Numeric? && ps[j].size.value != 0.0
                         && (forall m :: k <= m < j ==> ps[m].size.Numeric? && ps[m].size.value == 0.0)
                         && Ok(Varre(ps, k).value.value) == Aberta(ps[j]))
    decreases |ps| - k
  {
    if ps[k].size.Numeric? && ps[k].size.value == 0.0 {
      VarrePrimeiraAberta(ps, k + 1);
      var j :| k + 1 <= j < |ps| && ps[j].size.Numeric? && ps[j].size.value != 0.0
        && (forall m :: k + 1 <= m < j ==> ps[m].size.Numeric? && ps[m].size.value == 0.0)
        && Ok(Varre(ps, k + 1).value.value) == Aberta(ps[j]);
      assert forall m :: k <= m < j ==> ps[m].size.Numeric? && ps[m].size.value == 0.0;
    }
  }

  /** A record list whose sizes all parse to 0 reads as flat. */
  lemma {:induction false} SemTamanhoFora(ps: seq<Posicao>, k: nat)
    requires k <= |ps|
    requires forall m :: k <= m < |ps| ==> ps[m].size.Numeric? && ps[m].size.value == 0.0
    ensures Varre(ps, k) == Ok(None)
    decreases |ps| - k
  {
    if k < |ps| {
      SemTamanhoFora(ps, k + 1);
    }
  }

  /** The scan never reports an unmapped side, and it is COMPRADO exactly
      when the first open record says 'Buy'. */
  lemma LadoDaPrimeiraAberta(ps: seq<Posicao>)
    ensures TemTradeAberto(Ok(ps)).estado.Mapped?
    ensures TemTradeAberto(Ok(ps)).estado != Mapped(DeFora) ==>
      exists j :: 0 <= j < |ps| && ps[j].size.Numeric? && ps[j].size.value != 0.0
        && (forall m :: 0 <= m < j ==> ps[m].size.Numeric? && ps[m].size.value == 0.0)
        && (TemTradeAberto(Ok(ps)).estado == Mapped(Comprado) <==> ps[j].side == "Buy")
  {
    var r := Varre(ps, 0);
    if r.Ok? && r.value.Some? {
      VarrePrimeiraAberta(ps, 0);
    }
  }

  // ---------------------------------------------------------------------
  // saldo_da_conta / quantidade_minima_para_operar

  /** saldo_da_conta(): the wallet's total balance, 0 when the call fails. */
  function SaldoDaConta(resposta: Result<real>): (s: real)
    ensures resposta.Ok? ==> s == resposta.value
    ensures resposta.Err? ==> s == 0.0
  {
    if resposta.Ok? then resposta.value else 0.0
  }

  /** t occurs in s at position i, from its j-th character on. */
  predicate PrefixoEm(s: string, t: string, i: nat, j: nat)
    decreases |t| - j
  {
    j >= |t| || (i + j < |s| && s[i + j] == t[j] && PrefixoEm(s, t, i, j + 1))
  }

  /** t occurs in s at some position from i on. */
  predicate ContemDesde(s: string, t: string, i: nat)
    decreases |s| - i
  {
    i <= |s| && (PrefixoEm(s, t, i, 0) || ContemDesde(s, t, i + 1))
  }

  /** `t in s` on strings. */
  predicate Contem(s: string, t: string) {
    ContemDesde(s, t, 0)
  }

  /** The lot of the common coins when the instrument request fails. */
  function LoteReserva(cripto: string): (q: real)
    ensures q > 0.0
  {
    if Contem(cripto, "BTC") then 0.001
    else if Contem(cripto, "ETH") then 0.01
    else if Contem(cripto, "XRP") then 0.1
    else 1.0
  }

  /** quantidade_minima_para_operar(cripto): the exchange's minOrderQty, or
      the fallback lot when the request fails. */
  function QuantidadeMinima(resposta: Result<real>, cripto: string): (q: real)
    ensures resposta.Ok? ==> q == resposta.value
    ensures resposta.Err? ==> q == LoteReserva(cripto)
  {
    if resposta.Ok? then resposta.value else LoteReserva(cripto)
  }

  /** The fallback checks the names in the order BTC, ETH, XRP: a symbol
      naming two of them gets the first one's lot. */
  lemma LotesDeReserva()
    ensures LoteReserva("BTCUSDT") == 0.001
    ensures LoteReserva("ETHUSDT") == 0.01
    ensures LoteReserva("XRPUSDT") == 0.1
    ensures LoteReserva("ETHBTC") == 0.001
    ensures LoteReserva("SOLUSDT") == 1.0
  {
  }

  // ---------------------------------------------------------------------
  // abre_parcial_compra / abre_parcial_venda

  /** A reduce-only limit order, good till cancelled. */
  datatype OrdemLimite = OrdemLimite(symbol: string, side: string, qty: real, price: real, reduceOnly: bool)

  /** Half the position, sold at 1% above the entry of a long. */
  function ParcialCompra(cripto: string, qtdTotal: real, entrada: real): (o: OrdemLimite)
    ensures o.symbol == cripto && o.reduceOnly
    ensures MapSide(o.side) == Mapped(Vendido)
    ensures o.qty + o.qty == qtdTotal
    ensures o.price - entrada == entrada / 100.0
  {
    OrdemLimite(cripto, SideText(Vendido), qtdTotal * 0.5, entrada * 1.01, true)
  }

  /** Half the position, bought back at 1% below the entry of a short. */
  function ParcialVenda(cripto: string, qtdTotal: real, entrada: real): (o: OrdemLimite)
    ensures o.symbol == cripto && o.reduceOnly
    ensures MapSide(o.side) == Mapped(Comprado)
    ensures o.qty + o.qty == qtdTotal
    ensures entrada - o.price == entrada / 100.0
  {
    OrdemLimite(cripto, SideText(Comprado), qtdTotal * 0.5, entrada * 0.99, true)
  }

  /** The partial exit closes against the position it belongs to: for a
      positive entry a long's partial is a sell above the entry and a
      short's a buy below it, for the same half quantity. */
  lemma ParciaisEspelhadas(cripto: string, qtdTotal: real, entrada: real)
    requires entrada > 0.0
    ensures var c := ParcialCompra(cripto, qtdTotal, entrada);
      var v := ParcialVenda(cripto, qtdTotal, entrada);
      c.price > entrada > v.price && c.qty == v.qty && c.side != v.side
      && c.price - entrada == entrada - v.price
  {
  }

  // ---------------------------------------------------------------------
  // stop_breakeven_compra / stop_breakeven_venda

  /** The set_trading_stop call a breakeven helper makes, if any: the new
      stop loss, which is the entry. */
  function StopBreakevenCompra(entrada: real, parcial: real, estado: Estado, precoAtual: real): (pedido: Option<real>)
    ensures pedido.Some? <==> estado == Comprado && precoAtual >= parcial
    ensures pedido.Some? ==> pedido.value == entrada
  {
    if estado == Comprado && precoAtual >= parcial then Some(entrada) else None
  }

  function StopBreakevenVenda(entrada: real, parcial: real, estado: Estado, precoAtual: real): (pedido: Option<real>)
    ensures pedido.Some? <==> estado == Vendido && precoAtual <= parcial
    ensures pedido.Some? ==> pedido.value == entrada
  {
    if estado == Vendido && precoAtual <= parcial then Some(entrada) else None
  }

  /** The helper's return value: True only after a call whose retCode is 0
      (moved) or 34040 (already there); False without a call, on any
      other code, and when the call raises. */
  function BreakevenConfirmado(pedido: Option<real>, retCode: Result<int>): (ok: bool)
    ensures ok ==> pedido.Some?
    ensures ok <==> pedido.Some? && retCode.Ok? && (retCode.value == 0 || retCode.value == 34040)
  {
    match pedido
    case None => false
    case Some(_) => retCode.Ok? && (retCode.value == 0 || retCode.value == 34040)
  }

  /** A long's stop is only moved once the price has reached the partial
      level, and a short's once it has fallen to it; the two helpers never
      act on the same state. */
  lemma BreakevenSoNoLadoCerto(entrada: real, parcial: real, estado: Estado, precoAtual: real)
    ensures StopBreakevenCompra(entrada, parcial, estado, precoAtual).Some? ==>
      StopBreakevenVenda(entrada, parcial, estado, precoAtual).None?
    ensures estado == DeFora ==> (StopBreakevenCompra(entrada, parcial, estado, precoAtual).None?
                                  && StopBreakevenVenda(entrada, parcial, estado, precoAtual).None?)
  {
  }
}
