/**
  The exchange helpers every live script imports: what busca_velas does to
  the klines once they arrive (reversal, EMA columns, RSI), how
  tem_trade_aberto reads the first position record, and the single market
  order abre_compra / abre_venda place.
*/
module FuncoesBybit {
  import opened Wrappers
  import opened Candles
  import opened EstadoTrade
  import IndicadoresOsciladores

  // ---------------------------------------------------------------------
  // Exponential smoothing

  /** The smoothing factor pandas derives from span: 2 / (span + 1). */
  function Alpha(span: int): (a: real)
    requires span >= 1
    ensures 0.0 < a <= 1.0
  {
    2.0 / (span as real + 1.0)
  }

  lemma ScaleLe(c: real, a: real, b: real)
    requires 0.0 <= c && a <= b
    ensures c * a <= c * b
  {
    assert c * b - c * a == c * (b - a);
  }

  /** ewm(alpha, adjust=False).mean() at row i: seeded with the first value,
      then y[i] = (1 - alpha) * y[i-1] + alpha * x[i]. */
  function EmaAt(xs: seq<real>, alpha: real, i: nat): real
    requires i < |xs|
    decreases i
  {
    if i == 0 then xs[0] else (1.0 - alpha) * EmaAt(xs, alpha, i - 1) + alpha * xs[i]
  }

  /** Every smoothed value is a weighted average of the values so far, so it
      stays within any bounds they share. */
  lemma {:induction false} EmaWithinBounds(xs: seq<real>, alpha: real, i: nat, lo: real, hi: real)
    requires 0.0 < alpha <= 1.0 && i < |xs|
    requires forall j :: 0 <= j <= i ==> lo <= xs[j] <= hi
    ensures lo <= EmaAt(xs, alpha, i) <= hi
    decreases i
  {
    if i > 0 {
      EmaWithinBounds(xs, alpha, i - 1, lo, hi);
      var e := EmaAt(xs, alpha, i - 1);
      assert EmaAt(xs, alpha, i) == (1.0 - alpha) * e + alpha * xs[i];
      ConvexStep(alpha, e, xs[i], lo, hi);
    }
  }

  lemma AddLe(a: real, b: real, c: real, d: real)
    requires a <= b && c <= d
    ensures a + c <= b + d
  {
  }

  lemma ConvexStep(alpha: real, e: real, x: real, lo: real, hi: real)
    requires 0.0 < alpha <= 1.0 && lo <= e <= hi && lo <= x <= hi
    ensures lo <= (1.0 - alpha) * e + alpha * x <= hi
  {
    var c := 1.0 - alpha;
    ScaleLe(c, e, hi);
    ScaleLe(c, lo, e);
    ScaleLe(alpha, x, hi);
    ScaleLe(alpha, lo, x);
    assert c * hi + alpha * hi == (c + alpha) * hi == hi;
    assert c * lo + alpha * lo == (c + alpha) * lo == lo;
    AddLe(c * e, c * hi, alpha * x, alpha * hi);
    AddLe(c * lo, c * e, alpha * lo, alpha * x);
  }

  /** No lookahead: the smoothed value at row i depends on rows 0 .. i only. */
  lemma {:induction false} EmaNoLookahead(xs: seq<real>, ys: seq<real>, alpha: real, i: nat)
    requires i < |xs| && i < |ys| && xs[..i + 1] == ys[..i + 1]
    ensures EmaAt(xs, alpha, i) == EmaAt(ys, alpha, i)
    decreases i
  {
    assert xs[i] == xs[..i + 1][i] == ys[i];
    if i > 0 {
      assert xs[..i] == xs[..i + 1][..i];
      assert ys[..i] == ys[..i + 1][..i];
      EmaNoLookahead(xs, ys, alpha, i - 1);
    }
  }

  /** The EMA column ewm(span=span, adjust=False).mean(). */
  function EmaColumn(xs: seq<real>, span: int): (r: seq<real>)
    requires span >= 1
    ensures |r| == |xs|
    ensures forall i :: 0 <= i < |xs| ==> r[i] == EmaAt(xs, Alpha(span), i)
  {
    seq(|xs|, i requires 0 <= i < |xs| => EmaAt(xs, Alpha(span), i))
  }

  /** ewm(span).mean() with pandas' default adjust=True: the weights
      1, beta, beta^2, ... run from the newest row back, and the mean is the
      weighted sum over the sum of the weights. Both sums are kept
      recursively. */
  function EwmWeightedSum(xs: seq<real>, beta: real, i: nat): real
    requires i < |xs|
    decreases i
  {
    if i == 0 then xs[0] else xs[i] + beta * EwmWeightedSum(xs, beta, i - 1)
  }

  function EwmWeights(beta: real, i: nat): (d: real)
    requires 0.0 <= beta
    ensures d >= 1.0
    decreases i
  {
    if i == 0 then 1.0
    else
      var prev := EwmWeights(beta, i - 1);
      ScaleLe(beta, 0.0, prev);
      1.0 + beta * prev
  }

  function AdjustedEwmAt(xs: seq<real>, alpha: real, i: nat): real
    requires 0.0 < alpha <= 1.0 && i < |xs|
  {
    EwmWeightedSum(xs, 1.0 - alpha, i) / EwmWeights(1.0 - alpha, i)
  }

  lemma {:induction false} WeightedSumAtMost(xs: seq<real>, beta: real, i: nat, hi: real)
    requires 0.0 <= beta && i < |xs|
    requires forall j :: 0 <= j <= i ==> xs[j] <= hi
    ensures EwmWeightedSum(xs, beta, i) <= hi * EwmWeights(beta, i)
    decreases i
  {
    if i > 0 {
      WeightedSumAtMost(xs, beta, i - 1, hi);
      WeightedStepAtMost(beta, xs[i], EwmWeightedSum(xs, beta, i - 1), EwmWeights(beta, i - 1), hi);
    }
  }

  lemma {:induction false} WeightedSumAtLeast(xs: seq<real>, beta: real, i: nat, lo: real)
    requires 0.0 <= beta && i < |xs|
    requires forall j :: 0 <= j <= i ==> lo <= xs[j]
    ensures lo * EwmWeights(beta, i) <= EwmWeightedSum(xs, beta, i)
    decreases i
  {
    if i > 0 {
      WeightedSumAtLeast(xs, beta, i - 1, lo);
      WeightedStepAtLeast(beta, xs[i], EwmWeightedSum(xs, beta, i - 1), EwmWeights(beta, i - 1), lo);
    }
  }

  lemma WeightedStepAtMost(beta: real, x: real, s: real, w: real, hi: real)
    requires 0.0 <= beta && s <= hi * w && x <= hi
    ensures x + beta * s <= hi * (1.0 + beta * w)
  {
    ScaleLe(beta, s, hi * w);
    assert hi * (1.0 + beta * w) == hi + beta * (hi * w);
    AddLe(x, hi, beta * s, beta * (hi * w));
  }

  lemma WeightedStepAtLeast(beta: real, x: real, s: real, w: real, lo: real)
    requires 0.0 <= beta && lo * w <= s && lo <= x
    ensures lo * (1.0 + beta * w) <= x + beta * s
  {
    ScaleLe(beta, lo * w, s);
    assert lo * (1.0 + beta * w) == lo + beta * (lo * w);
    AddLe(lo, x, beta * (lo * w), beta * s);
  }

  /** The adjusted mean is a weighted average too: it stays within any
      bounds the values so far share. */
  lemma AdjustedEwmWithinBounds(xs: seq<real>, alpha: real, i: nat, lo: real, hi: real)
    requires 0.0 < alpha <= 1.0 && i < |xs|
    requires forall j :: 0 <= j <= i ==> lo <= xs[j] <= hi
    ensures lo <= AdjustedEwmAt(xs, alpha, i) <= hi
  {
    var beta := 1.0 - alpha;
    WeightedSumAtMost(xs, beta, i, hi);
    WeightedSumAtLeast(xs, beta, i, lo);
    var s := EwmWeightedSum(xs, beta, i);
    var w := EwmWeights(beta, i);
    assert (s / w) * w == s;
    if s / w < lo {
      ScaleLe(w, s / w, lo);
      assert w * (s / w) < w * lo;
    }
    if s / w > hi {
      ScaleLe(w, hi, s / w);
      assert w * hi < w * (s / w);
    }
  }

  /** An adjusted mean of a non-negative column is non-negative. */
  lemma AdjustedEwmNonNegative(xs: seq<real>, alpha: real, i: nat)
    requires 0.0 < alpha <= 1.0 && i < |xs|
    requires forall j :: 0 <= j < |xs| ==> xs[j] >= 0.0
    ensures AdjustedEwmAt(xs, alpha, i) >= 0.0
  {
    var hi := Max(xs[..i + 1]);
    assert forall j :: 0 <= j <= i ==> xs[j] == xs[..i + 1][j];
    AdjustedEwmWithinBounds(xs, alpha, i, 0.0, hi);
  }

  /** The RSI column of busca_velas: span-14 adjusted means of the gain and
      loss columns, then 100 - 100 / (1 + gain / loss). Row 0 has neither
      gain nor loss, so it is the missing value. */
  function RsiEwmAt(closes: seq<real>, i: nat): (r: Option<real>)
    requires i < |closes|
    ensures r.Some? ==> 0.0 <= r.value <= 100.0
    ensures i == 0 ==> r.None?
  {
    var gains := IndicadoresOsciladores.Gains(closes);
    var losses := IndicadoresOsciladores.Losses(closes);
    AdjustedEwmNonNegative(gains, Alpha(14), i);
    AdjustedEwmNonNegative(losses, Alpha(14), i);
    IndicadoresOsciladores.RsiFromAverages(AdjustedEwmAt(gains, Alpha(14), i), AdjustedEwmAt(losses, Alpha(14), i))
  }

  // ---------------------------------------------------------------------
  // busca_velas

  /** One row of the frame busca_velas returns. */
  datatype Row = Row(candle: Candle, emaRapida: real, emaLenta: real, ema200: real,
                     rsi: Option<real>, volumeEma20: real)

  /** busca_velas(cripto, tempo_grafico, emas) after the kline request:
      the API lists the newest candle first and the frame is oldest first.
      emas[0] and emas[1] are the fast and slow spans; fewer than two raise
      IndexError and a span below 1 makes pandas raise ValueError. */
  function BuscaVelas(listaApi: seq<Candle>, emas: seq<int>): (r: Result<seq<Row>>)
    ensures r.Err? <==> |emas| < 2 || emas[0] < 1 || emas[1] < 1
    ensures r.Ok? ==> |r.value| == |listaApi|
    ensures r.Ok? ==> forall i :: 0 <= i < |listaApi| ==> r.value[i].candle == listaApi[|listaApi| - 1 - i]
    ensures r.Ok? ==> forall i :: 0 <= i < |listaApi| ==>
      var closes := Closes(Reversed(listaApi));
      && r.value[i].emaRapida == EmaAt(closes, Alpha(emas[0]), i)
      && r.value[i].emaLenta == EmaAt(closes, Alpha(emas[1]), i)
      && r.value[i].ema200 == EmaAt(closes, Alpha(200), i)
      && r.value[i].rsi == RsiEwmAt(closes, i)
      && r.value[i].volumeEma20 == EmaAt(Volumes(Reversed(listaApi)), Alpha(20), i)
  {
    if |emas| < 2 then Err("IndexError")
    else if emas[0] < 1 || emas[1] < 1 then Err("ValueError")
    else
      var df := Reversed(listaApi);
      var closes := Closes(df);
      var rapida := EmaColumn(closes, emas[0]);
      var lenta := EmaColumn(closes, emas[1]);
      var longa := EmaColumn(closes, 200);
      var volume := EmaColumn(Volumes(df), 20);
      Ok(seq(|df|, i requires 0 <= i < |df| =>
        Row(df[i], rapida[i], lenta[i], longa[i], RsiEwmAt(closes, i), volume[i])))
  }

  /** Every EMA column stays between the lowest and the highest close seen
      so far, and the RSI column stays within [0, 100]. */
  lemma BuscaVelasBounds(listaApi: seq<Candle>, emas: seq<int>, i: nat)
    requires BuscaVelas(listaApi, emas).Ok? && i < |listaApi|
    ensures var row := BuscaVelas(listaApi, emas).value[i];
      var seen := Closes(Reversed(listaApi))[..i + 1];
      && Min(seen) <= row.emaRapida <= Max(seen)
      && Min(seen) <= row.emaLenta <= Max(seen)
      && Min(seen) <= row.ema200 <= Max(seen)
      && (row.rsi.Some? ==> 0.0 <= row.rsi.value <= 100.0)
  {
    var closes := Closes(Reversed(listaApi));
    var seen := closes[..i + 1];
    assert forall j :: 0 <= j <= i ==> closes[j] == seen[j];
    EmaWithinBounds(closes, Alpha(emas[0]), i, Min(seen), Max(seen));
    EmaWithinBounds(closes, Alpha(emas[1]), i, Min(seen), Max(seen));
    EmaWithinBounds(closes, Alpha(200), i, Min(seen), Max(seen));
  }

  // ---------------------------------------------------------------------
  // tem_trade_aberto

  /** A price field of the position record as the exchange sends it: the
      empty string, text float() accepts, or text it rejects. */
  datatype PriceField = Blank | Numeric(value: real) | Malformed

  /** The fields of result.list[0] that tem_trade_aberto reads. */
  datatype PositionRecord = PositionRecord(side: string, avgPrice: PriceField,
                                           stopLoss: PriceField, takeProfit: PriceField)

  /** The first value tem_trade_aberto returns: a trade state, or the side
      text itself when it is none of '', 'Buy' and 'Sell'. */
  datatype Side = Mapped(estado: Estado) | Unmapped(text: string)

  datatype OpenTrade = OpenTrade(estado: Side, precoEntrada: real, precoStop: real, precoAlvo: real)

  /** '' becomes 0; anything else goes through float(). */
  function ParsePrice(f: PriceField): (r: Result<real>)
    ensures f.Blank? ==> r == Ok(0.0)
    ensures f.Numeric? ==> r == Ok(f.value)
    ensures r.Err? <==> f.Malformed?
  {
    match f
    case Blank => Ok(0.0)
    case Numeric(v) => Ok(v)
    case Malformed => Err("ValueError")
  }

  function MapSide(side: string): (s: Side)
    ensures s == Mapped(DeFora) <==> side == ""
    ensures s == Mapped(Comprado) <==> side == "Buy"
    ensures s == Mapped(Vendido) <==> side == "Sell"
    ensures s.Unmapped? ==> s.text == side
  {
    if side == "" then Mapped(DeFora)
    else if side == "Buy" then Mapped(Comprado)
    else if side == "Sell" then Mapped(Vendido)
    else Unmapped(side)
  }

  /** The side text Bybit reports for a state. */
  function SideText(e: Estado): string {
    match e
    case DeFora => ""
    case Comprado => "Buy"
    case Vendido => "Sell"
  }

  /** Every state survives the round trip through its side text. */
  lemma SideRoundTrip(e: Estado)
    ensures MapSide(SideText(e)) == Mapped(e)
  {
  }

  /** tem_trade_aberto(cripto) on the position list the request returns.
      An empty list raises IndexError at [0]; a price text float() rejects
      raises ValueError. */
  function TemTradeAberto(positions: seq<PositionRecord>): (r: Result<OpenTrade>)
    ensures r.Ok? <==> (|positions| > 0 && !positions[0].avgPrice.Malformed?
      && !positions[0].stopLoss.Malformed? && !positions[0].takeProfit.Malformed?)
    ensures r.Ok? ==>
      && r.value.estado == MapSide(positions[0].side)
      && Ok(r.value.precoEntrada) == ParsePrice(positions[0].avgPrice)
      && Ok(r.value.precoStop) == ParsePrice(positions[0].stopLoss)
      && Ok(r.value.precoAlvo) == ParsePrice(positions[0].takeProfit)
  {
    if |positions| == 0 then Err("IndexError")
    else
      var dados := positions[0];
      var entrada := ParsePrice(dados.avgPrice);
      var stop := ParsePrice(dados.stopLoss);
      var alvo := ParsePrice(dados.takeProfit);
      if entrada.Err? then Err(entrada.error)
      else if stop.Err? then Err(stop.error)
      else if alvo.Err? then Err(alvo.error)
      else Ok(OpenTrade(MapSide(dados.side), entrada.value, stop.value, alvo.value))
  }

  /** Only the first record is inspected. */
  lemma TemTradeAbertoFirstOnly(positions: seq<PositionRecord>, rest: seq<PositionRecord>)
    requires |positions| > 0
    ensures TemTradeAberto(positions) == TemTradeAberto([positions[0]] + rest)
  {
  }

  /** A flat account reports blanks everywhere, which read back as DE_FORA
      with zero prices. */
  lemma FlatRecordReadsAsFlat(rest: seq<PositionRecord>)
    ensures TemTradeAberto([PositionRecord("", Blank, Blank, Blank)] + rest)
      == Ok(OpenTrade(Mapped(DeFora), 0.0, 0.0, 0.0))
  {
  }

  // ---------------------------------------------------------------------
  // abre_compra / abre_venda

  /** The one place_order call each helper makes. */
  datatype Order = Order(category: string, symbol: string, side: string, orderType: string,
                         qty: real, stopLoss: real, takeProfit: real)

  function AbreCompra(cripto: string, qtd: real, precoStop: real, precoAlvo: real): (o: Order)
    ensures o.category == "linear" && o.orderType == "Market" && o.symbol == cripto
    ensures o.qty == qtd && o.stopLoss == precoStop && o.takeProfit == precoAlvo
    ensures MapSide(o.side) == Mapped(Comprado)
  {
    Order("linear", cripto, SideText(Comprado), "Market", qtd, precoStop, precoAlvo)
  }

  function AbreVenda(cripto: string, qtd: real, precoStop: real, precoAlvo: real): (o: Order)
    ensures o.category == "linear" && o.orderType == "Market" && o.symbol == cripto
    ensures o.qty == qtd && o.stopLoss == precoStop && o.takeProfit == precoAlvo
    ensures MapSide(o.side) == Mapped(Vendido)
  {
    Order("linear", cripto, SideText(Vendido), "Market", qtd, precoStop, precoAlvo)
  }

  /** A buy and a sell with the same arguments differ in the side only. */
  lemma OrdersDifferInSideOnly(cripto: string, qtd: real, precoStop: real, precoAlvo: real)
    ensures AbreCompra(cripto, qtd, precoStop, precoAlvo).(side := "Sell")
      == AbreVenda(cripto, qtd, precoStop, precoAlvo)
  {
  }
}
