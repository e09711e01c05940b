/**
  backtesting_teste.py: an "aggressive" RSI replay over one-minute candles
  and the grid search that runs it once per parameter combination. Out of
  the market, and while fewer than ten trades were opened on the candle's
  date, a row buys when the previous RSI is below 30, the volume is above its
  EMA 20 and the high breaks the previous high (a short mirrors it with RSI
  above 70 and the low). The entry carries 0.05 % slippage, the stop sits two
  ATRs away and the target risco_retorno risks beyond the entry. Exits move
  the balance by a fixed position of 1 % of the initial balance, so nothing
  compounds.

  calcular_indicadores fills the missing values of 100 / (1 + rs) rather
  than of the index, so the index reads 0 where it should read 100 (see
  RsiComoEscritoNaSubida). The replay reads the column as written
  (RsiComoEscrito); Backtesting.ComputeRsi is the index evidently meant.
*/
module BacktestingTeste {
  import opened Wrappers
  import opened Candles
  import opened EstadoTrade
  import opened ResultsLedger
  import opened ReplayComum
  import FuncoesBybit
  import Atr
  import Osc = IndicadoresOsciladores
  import Backtesting

  const SaldoInicial: real := 1000.0
  const TaxaCorretora: real := 0.055
  const Alavancagem: real := 10.0
  const Slippage: real := 0.0005
  const MaxTradesDia: nat := 10
  /** saldo_inicial * 0.01: every exit is sized on this, whatever the balance. */
  const TamanhoPosicao: real := 10.0
  const PeriodoAtr: nat := 14
  const Setup: string := "otimizacao de parametros"

  function Cfg(): Config {
    Config(SaldoInicial, TaxaCorretora, Setup, 1.0)
  }

  /** The arguments of executar_backtest after the frame. */
  datatype Parametros = Parametros(
    emaRapida: int, emaLenta: int, riscoPorTrade: real, riscoRetorno: real,
    velasStop: int, rsiMin: real, rsiMax: real)

  /** ewm(span=...) raises ValueError for a span below 1. */
  predicate Validos(p: Parametros) {
    p.emaRapida >= 1 && p.emaLenta >= 1
  }

  /** The loop runs over range(max(200, qntd_velas_stop) + 1, len(df)). */
  function Inicio(p: Parametros): (n: nat)
    ensures n > 200
  {
    (if 200 >= p.velasStop then 200 else p.velasStop) + 1
  }

  // ---------------------------------------------------------------------
  // Indicators

  /** df['RSI'] as calcular_indicadores writes it: the fill of 100 lands on
      100 / (1 + rs), so the warm-up rows and the rows without losses read
      0; everywhere else it is the usual index. */
  function RsiComoEscrito(closes: seq<real>, i: nat): (r: real)
    requires i < |closes|
    ensures Backtesting.ComputeRsi(closes, i) == 100.0 ==> r == 0.0
    ensures Backtesting.ComputeRsi(closes, i) < 100.0 ==> r == Backtesting.ComputeRsi(closes, i)
  {
    if i + 1 < 14 then 100.0 - 100.0
    else
      var gain := Osc.RollingMean(Osc.Gains(closes), 14, i).value;
      var loss := Osc.RollingMean(Osc.Losses(closes), 14, i).value;
      Osc.RsiBounds(closes, 14, i);
      if loss == 0.0 then 100.0 - 100.0
      else 100.0 - 100.0 / (1.0 + gain / loss)
  }

  /** A sum of zeros is zero. */
  lemma {:induction false} SomaNula(s: seq<real>)
    requires forall k :: 0 <= k < |s| ==> s[k] == 0.0
    ensures Sum(s) == 0.0
    decreases |s|
  {
    if s != [] {
      SomaNula(s[..|s| - 1]);
    }
  }

  /** Fourteen rising closes: no losses in the window, so the index should
      read 100 (overbought), but the column as written reads 0 (oversold)
      and the buy test RSI < 30 passes. */
  lemma RsiComoEscritoNaSubida()
    ensures var closes := [1.0, 2.0, 3.0, 4.0, 5.0, 6.0, 7.0, 8.0, 9.0, 10.0, 11.0, 12.0, 13.0, 14.0];
            && RsiComoEscrito(closes, 13) == 0.0
            && Backtesting.ComputeRsi(closes, 13) == 100.0
  {
    var closes := [1.0, 2.0, 3.0, 4.0, 5.0, 6.0, 7.0, 8.0, 9.0, 10.0, 11.0, 12.0, 13.0, 14.0];
    var losses := Osc.Losses(closes);
    forall k | 0 <= k < 14
      ensures losses[k] == 0.0
    {
      assert k > 0 ==> closes[k] - closes[k - 1] == 1.0;
    }
    assert losses[0..14] == losses;
    SomaNula(losses);
  }

  /** The columns calcular_indicadores and calcular_atr add that the loop
      reads; the index is the corrected one. */
  datatype Colunas = Colunas(
    emaRapida: seq<real>, emaLenta: seq<real>, ema200: seq<real>,
    rsi: seq<real>, volumeEma20: seq<real>)

  function Indicadores(df: seq<Barra>, p: Parametros): (c: Colunas)
    requires Validos(p)
    ensures |c.emaRapida| == |c.emaLenta| == |c.ema200| == |c.rsi| == |c.volumeEma20| == |df|
    ensures forall i :: 0 <= i < |df| ==>
      && (Backtesting.ComputeRsi(Closes(Velas(df)), i) == 100.0 ==> c.rsi[i] == 0.0)
      && (Backtesting.ComputeRsi(Closes(Velas(df)), i) < 100.0 ==> c.rsi[i] == Backtesting.ComputeRsi(Closes(Velas(df)), i))
  {
    var fech := Closes(Velas(df));
    Colunas(
      FuncoesBybit.EmaColumn(fech, p.emaRapida),
      FuncoesBybit.EmaColumn(fech, p.emaLenta),
      FuncoesBybit.EmaColumn(fech, 200),
      seq(|df|, i requires 0 <= i < |df| => RsiComoEscrito(fech, i)),
      FuncoesBybit.EmaColumn(Volumes(Velas(df)), 20))
  }

  // ---------------------------------------------------------------------
  // contar_candles_consecutivos

  /** The rows ini .. fim - 1 of the window, marked by whether they close
      above (or below) the EMA. */
  function Marcas(fech: seq<real>, ema: seq<real>, ini: nat, fim: nat, acima: bool): (m: seq<bool>)
    requires ini <= fim <= |fech| && fim <= |ema|
    ensures |m| == fim - ini
    ensures forall k :: 0 <= k < |m| ==> m[k] == if acima then fech[ini + k] > ema[ini + k] else fech[ini + k] < ema[ini + k]
  {
    seq(fim - ini, k requires 0 <= k < fim - ini => if acima then fech[ini + k] > ema[ini + k] else fech[ini + k] < ema[ini + k])
  }

  /** marcas[::-1].cumprod().sum(): the marks that stay set from the last one
      back. */
  function CorridaFinal(bs: seq<bool>): (n: nat)
    ensures n <= |bs|
    ensures n > 0 ==> bs[|bs| - 1]
    decreases |bs|
  {
    if bs == [] || !bs[|bs| - 1] then 0 else 1 + CorridaFinal(bs[..|bs| - 1])
  }

  /** contar_candles_consecutivos(df, index, ema): the runs above and below
      the EMA that end at row index - 1, seen through the 30 rows before
      index. */
  function ContarJanela(fech: seq<real>, ema: seq<real>, index: nat): (r: (nat, nat))
    requires index <= |fech| && index <= |ema|
    ensures index < 1 ==> r == (0, 0)
    ensures r.0 <= 30 && r.1 <= 30
    ensures r.0 == 0 || r.1 == 0
  {
    if index < 1 then (0, 0)
    else
      var ini := if index >= 30 then index - 30 else 0;
      (CorridaFinal(Marcas(fech, ema, ini, index, true)), CorridaFinal(Marcas(fech, ema, ini, index, false)))
  }

  function Seguidas(fech: seq<real>, ema: seq<real>, j: nat, acima: bool): nat
    requires j <= |fech| && j <= |ema|
  {
    if acima then Backtesting.SeguidasAcima(fech, ema, j) else Backtesting.SeguidasAbaixo(fech, ema, j)
  }

  function Menor(a: nat, b: nat): nat {
    if a <= b then a else b
  }

  lemma {:induction false} CorridaDasMarcas(fech: seq<real>, ema: seq<real>, ini: nat, j: nat, acima: bool)
    requires ini <= j <= |fech| && j <= |ema|
    ensures CorridaFinal(Marcas(fech, ema, ini, j, acima)) == Menor(Seguidas(fech, ema, j, acima), j - ini)
    decreases j
  {
    if j > ini {
      var m := Marcas(fech, ema, ini, j, acima);
      assert m[..j - ini - 1] == Marcas(fech, ema, ini, j - 1, acima);
      CorridaDasMarcas(fech, ema, ini, j - 1, acima);
    }
  }

  /** Each count is the run that backtesting.py's callers need
      (SeguidasAcima, SeguidasAbaixo there), cut at the 30-row window. */
  lemma ContarJanelaSignifica(fech: seq<real>, ema: seq<real>, index: nat)
    requires index <= |fech| && index <= |ema|
    ensures var janela := if index >= 30 then 30 else index;
      && ContarJanela(fech, ema, index).0 == Menor(Backtesting.SeguidasAcima(fech, ema, index), janela)
      && ContarJanela(fech, ema, index).1 == Menor(Backtesting.SeguidasAbaixo(fech, ema, index), janela)
  {
    if index >= 1 {
      var ini := if index >= 30 then index - 30 else 0;
      CorridaDasMarcas(fech, ema, ini, index, true);
      CorridaDasMarcas(fech, ema, ini, index, false);
    }
  }

  // ---------------------------------------------------------------------
  // One row of the loop

  /** What row i looks at. The counts and the trend flags are computed and
      never used. */
  datatype Leitura = Leitura(
    vela: Candle, anterior: Candle, rsiAnterior: real, volumeEma20: real, atr: real,
    acima: nat, abaixo: nat, tendenciaAlta: bool, tendenciaBaixa: bool)

  function Ler(df: seq<Barra>, cols: Colunas, p: Parametros, i: nat): Leitura
    requires Validos(p) && cols == Indicadores(df, p)
    requires Inicio(p) <= i < |df|
  {
    var contagem := ContarJanela(Closes(Velas(df)), cols.emaRapida, i);
    Leitura(df[i].candle, df[i - 1].candle, cols.rsi[i - 1], cols.volumeEma20[i],
            Atr.AtrAt(Velas(df), PeriodoAtr, i - 1).value,
            contagem.0, contagem.1,
            cols.emaRapida[i - 1] > cols.emaLenta[i - 1] > cols.ema200[i - 1],
            cols.emaRapida[i - 1] < cols.emaLenta[i - 1] < cols.ema200[i - 1])
  }

  datatype Decisao = Decisao(pos: Posicao, saldo: real, chamada: Chamada)

  /** The exits and entries of a row, after the day counter and
      initialize_month; `hoje` is the trades opened on the row's date. */
  function Decide(l: Leitura, p: Posicao, saldo: real, hoje: nat, rr: real): (d: Decisao)
    requires Aberta(p) && l.anterior.low > 0.0 && l.anterior.high > 0.0
    ensures Aberta(d.pos)
    ensures d.chamada.Abertura? <==> p.estado == DeFora && d.pos.estado != DeFora
    ensures d.chamada.Ganho? || d.chamada.Perda? <==> p.estado != DeFora && d.pos.estado == DeFora
    ensures d.chamada.Abertura? ==> hoje < MaxTradesDia
  {
    var c := l.vela;
    var ant := l.anterior;
    match p.estado
    case Comprado =>
      if c.high >= p.alvo then
        var lucroPct := ((p.alvo - p.entrada) / p.entrada) * 100.0 * Alavancagem - TaxaCorretora * 2.0;
        var lucro := TamanhoPosicao * (lucroPct / 100.0);
        Decisao(p.(estado := DeFora), saldo + lucro, Ganho(lucro))
      else if c.low <= p.stop then
        var perdaPct := ((p.entrada - p.stop) / p.entrada) * 100.0 * Alavancagem + TaxaCorretora * 2.0;
        var perda := TamanhoPosicao * (perdaPct / 100.0);
        Decisao(p.(estado := DeFora), saldo - perda, Perda(perdaPct))
      else Decisao(p, saldo, Nenhuma)
    case Vendido =>
      if c.low <= p.alvo then
        var lucroPct := ((p.entrada - p.alvo) / p.entrada) * 100.0 * Alavancagem - TaxaCorretora * 2.0;
        var lucro := TamanhoPosicao * (lucroPct / 100.0);
        Decisao(p.(estado := DeFora), saldo + lucro, Ganho(lucro))
      else if c.high >= p.stop then
        var perdaPct := ((p.stop - p.entrada) / p.entrada) * 100.0 * Alavancagem + TaxaCorretora * 2.0;
        var perda := TamanhoPosicao * (perdaPct / 100.0);
        Decisao(p.(estado := DeFora), saldo - perda, Perda(perda))
      else Decisao(p, saldo, Nenhuma)
    case DeFora =>
      if hoje >= MaxTradesDia then Decisao(p, saldo, Nenhuma)
      else if l.rsiAnterior < 30.0 && c.volume > l.volumeEma20 && c.high > ant.high then
        var entrada := ant.high * (1.0 + Slippage);
        var stop := entrada - l.atr * 2.0;
        Decisao(Posicao(Comprado, entrada, stop, entrada + (entrada - stop) * rr), saldo, Abertura)
      else if l.rsiAnterior > 70.0 && c.volume > l.volumeEma20 && c.low < ant.low then
        var entrada := ant.low * (1.0 - Slippage);
        var stop := entrada + l.atr * 2.0;
        Decisao(Posicao(Vendido, entrada, stop, entrada - (stop - entrada) * rr), saldo, Abertura)
      else Decisao(p, saldo, Nenhuma)
  }

  /** The loop variables (position, saldo, current_day, trade_count_today)
      and the ledger between rows. */
  datatype Replay = Replay(pos: Posicao, saldo: real, livro: Ledger, dia: Option<int>, hoje: nat)

  function Inicial(): Replay {
    Replay(Fora, SaldoInicial, Initial(Cfg()), None, 0)
  }

  /** One pass of the loop body: the day counter resets on a new date, then
      initialize_month, the decision and its ledger call; an entry counts
      against the day. */
  function Linha(df: seq<Barra>, cols: Colunas, p: Parametros, i: nat, r: Replay): (s: Replay)
    requires Validos(p) && cols == Indicadores(df, p)
    requires Inicio(p) <= i < |df| && Positivos(df) && Aberta(r.pos)
    ensures Aberta(s.pos)
  {
    var key := (df[i].ano, df[i].mes);
    var hoje := if r.dia == Some(df[i].data) then r.hoje else 0;
    var d := Decide(Ler(df, cols, p, i), r.pos, r.saldo, hoje, p.riscoRetorno);
    Replay(d.pos, d.saldo, Registra(Cfg(), WithMonth(r.livro, key), key, d.chamada),
           Some(df[i].data), if d.chamada.Abertura? then hoje + 1 else hoje)
  }

  /** The state after the rows before k. */
  function Executa(df: seq<Barra>, p: Parametros, k: nat): (r: Replay)
    requires Validos(p) && k <= |df| && Positivos(df)
    ensures Aberta(r.pos)
    decreases k
  {
    if k <= Inicio(p) then Inicial()
    else Linha(df, Indicadores(df, p), p, Anterior(k), Executa(df, p, Anterior(k)))
  }

  function Proxima(i: nat): nat {
    i + 1
  }

  function Anterior(k: nat): nat
    requires k > 0
  {
    k - 1
  }

  lemma AnteriorDaProxima(i: nat)
    ensures Anterior(Proxima(i)) == i
  {
  }

  lemma ExecutaAvanca(df: seq<Barra>, p: Parametros, i: nat)
    requires Validos(p) && Inicio(p) <= i < |df| && Positivos(df)
    ensures Executa(df, p, Proxima(i)) == Linha(df, Indicadores(df, p), p, i, Executa(df, p, i))
  {
    AnteriorDaProxima(i);
  }

  /** Linha spelled out over the decision it makes. */
  lemma LinhaPorPartes(df: seq<Barra>, cols: Colunas, p: Parametros, i: nat, r: Replay, hoje: nat, d: Decisao)
    requires Validos(p) && cols == Indicadores(df, p)
    requires Inicio(p) <= i < |df| && Positivos(df) && Aberta(r.pos)
    requires hoje == if r.dia == Some(df[i].data) then r.hoje else 0
    requires d == Decide(Ler(df, cols, p, i), r.pos, r.saldo, hoje, p.riscoRetorno)
    ensures Linha(df, cols, p, i, r)
            == Replay(d.pos, d.saldo, Registra(Cfg(), WithMonth(r.livro, (df[i].ano, df[i].mes)), (df[i].ano, df[i].mes), d.chamada),
                      Some(df[i].data), if d.chamada.Abertura? then hoje + 1 else hoje)
  {
  }

  /** The body of the loop for row i. */
  method ExecutarLinha(df: seq<Barra>, cols: Colunas, p: Parametros, i: nat, resultados: ResultsManager, r: Replay)
    returns (pos: Posicao, saldo: real, dia: Option<int>, hoje: nat)
    requires Validos(p) && cols == Indicadores(df, p)
    requires Inicio(p) <= i < |df| && Positivos(df)
    requires resultados.Valid() && resultados.Cfg() == Cfg()
    requires r == Executa(df, p, i) && r.livro == resultados.State()
    modifies resultados
    ensures resultados.Valid()
    ensures Replay(pos, saldo, resultados.State(), dia, hoje) == Executa(df, p, Proxima(i))
  {
    ExecutaAvanca(df, p, i);
    dia, hoje := r.dia, r.hoje;
    if dia != Some(df[i].data) {
      dia, hoje := Some(df[i].data), 0;
    }
    resultados.InitializeMonth(df[i].ano, df[i].mes);
    var d := Decide(Ler(df, cols, p, i), r.pos, r.saldo, hoje, p.riscoRetorno);
    LinhaPorPartes(df, cols, p, i, r, hoje, d);
    pos, saldo := d.pos, d.saldo;
    Registrar(resultados, (df[i].ano, df[i].mes), d.chamada);
    if d.chamada.Abertura? {
      hoje := hoje + 1;
    }
  }

  /** executar_backtest: the loop over the frame; returns the ledger object
      and the final saldo. */
  method ExecutarBacktest(df: seq<Barra>, p: Parametros) returns (resultados: ResultsManager, saldo: real)
    requires Validos(p) && Positivos(df)
    ensures fresh(resultados) && resultados.Valid() && resultados.Cfg() == Cfg()
    ensures resultados.State() == Executa(df, p, |df|).livro
    ensures saldo == Executa(df, p, |df|).saldo
  {
    var cols := Indicadores(df, p);
    resultados := new ResultsManager(SaldoInicial, TaxaCorretora, Setup);
    var r := Inicial();
    if |df| <= Inicio(p) {
      saldo := r.saldo;
      return;
    }
    var i := Inicio(p);
    while i < |df|
      invariant Inicio(p) <= i <= |df|
      invariant resultados.Valid() && resultados.Cfg() == Cfg()
      invariant r == Executa(df, p, i) && r.livro == resultados.State()
    {
      var pos, s, dia, hoje := ExecutarLinha(df, cols, p, i, resultados, r);
      r := Replay(pos, s, resultados.State(), dia, hoje);
      i := Proxima(i);
    }
    assert i == |df|;
    saldo := r.saldo;
  }

  // ---------------------------------------------------------------------
  // What a row does

  /** Entries: a long at the previous high plus slippage with the stop two
      ATRs below and the target rr risks above; a short at the previous low
      minus slippage, mirrored. No entry once ten trades were opened on the
      day. */
  lemma DecideEntradas(l: Leitura, p: Posicao, saldo: real, hoje: nat, rr: real)
    requires Aberta(p) && l.anterior.low > 0.0 && l.anterior.high > 0.0
    requires p.estado == DeFora
    ensures var d := Decide(l, p, saldo, hoje, rr);
      && (hoje >= MaxTradesDia ==> d.chamada.Nenhuma?)
      && (d.pos.estado == Comprado <==>
            hoje < MaxTradesDia && l.rsiAnterior < 30.0 && l.vela.volume > l.volumeEma20 && l.vela.high > l.anterior.high)
      && (d.pos.estado == Comprado ==>
            && d.pos.entrada == l.anterior.high * 1.0005
            && d.pos.stop == d.pos.entrada - 2.0 * l.atr
            && d.pos.alvo == d.pos.entrada + 2.0 * l.atr * rr)
      && (d.pos.estado == Vendido ==>
            && hoje < MaxTradesDia && l.rsiAnterior > 70.0 && l.vela.volume > l.volumeEma20 && l.vela.low < l.anterior.low
            && d.pos.entrada == l.anterior.low * 0.9995
            && d.pos.stop == d.pos.entrada + 2.0 * l.atr
            && d.pos.alvo == d.pos.entrada - 2.0 * l.atr * rr)
      && d.saldo == saldo
  {
  }

  /** The target is examined before the stop, on both sides. */
  lemma DecideSaidas(l: Leitura, p: Posicao, saldo: real, hoje: nat, rr: real)
    requires Aberta(p) && l.anterior.low > 0.0 && l.anterior.high > 0.0
    ensures var d := Decide(l, p, saldo, hoje, rr);
      && (p.estado == Comprado ==> (d.chamada.Ganho? <==> l.vela.high >= p.alvo))
      && (p.estado == Comprado ==> (d.chamada.Perda? <==> l.vela.high < p.alvo && l.vela.low <= p.stop))
      && (p.estado == Vendido ==> (d.chamada.Ganho? <==> l.vela.low <= p.alvo))
      && (p.estado == Vendido ==> (d.chamada.Perda? <==> l.vela.low > p.alvo && l.vela.high >= p.stop))
  {
  }

  /** The balance moves by the fixed position times the percentage, so
      what an exit adds or takes does not depend on the balance. The ledger
      gets that amount on a gain and on a short's loss, but the percentage
      itself on a long's loss. */
  lemma DecideNaoCompoe(l: Leitura, p: Posicao, saldo: real, saldo2: real, hoje: nat, rr: real)
    requires Aberta(p) && l.anterior.low > 0.0 && l.anterior.high > 0.0
    ensures var d, d2 := Decide(l, p, saldo, hoje, rr), Decide(l, p, saldo2, hoje, rr);
      && d.saldo - saldo == d2.saldo - saldo2
      && d.chamada == d2.chamada && d.pos == d2.pos
      && (d.chamada.Ganho? ==> d.saldo == saldo + d.chamada.valor)
      && (d.chamada.Perda? && p.estado == Comprado ==> d.saldo == saldo - TamanhoPosicao * (d.chamada.valor / 100.0))
      && (d.chamada.Perda? && p.estado == Vendido ==> d.saldo == saldo - d.chamada.valor)
      && (!d.chamada.Ganho? && !d.chamada.Perda? ==> d.saldo == saldo)
  {
  }

  /** The trade-count of the day: the row's date becomes current_day, and
      the counter restarts on a new date and goes up by one on an entry. */
  lemma LinhaContaDia(df: seq<Barra>, cols: Colunas, p: Parametros, i: nat, r: Replay)
    requires Validos(p) && cols == Indicadores(df, p)
    requires Inicio(p) <= i < |df| && Positivos(df) && Aberta(r.pos)
    ensures var s := Linha(df, cols, p, i, r);
      var base := if r.dia == Some(df[i].data) then r.hoje else 0;
      var abriu := r.pos.estado == DeFora && s.pos.estado != DeFora;
      && s.dia == Some(df[i].data)
      && s.hoje == base + (if abriu then 1 else 0)
      && (abriu ==> base < MaxTradesDia)
  {
  }

  // ---------------------------------------------------------------------
  // What the replay guarantees

  /** Each row keeps the ledger's invariants, so update_on_loss never
      raises. */
  lemma {:induction false} ExecutaMantemInv(df: seq<Barra>, p: Parametros, k: nat)
    requires Validos(p) && k <= |df| && Positivos(df)
    ensures Inv(Cfg(), Executa(df, p, k).livro)
    decreases k
  {
    if k <= Inicio(p) {
      InitialSatisfiesInv(Cfg());
    } else {
      var j := Anterior(k);
      ExecutaMantemInv(df, p, j);
      var r := Executa(df, p, j);
      assert Executa(df, p, k) == Linha(df, Indicadores(df, p), p, j, r);
      var key := (df[j].ano, df[j].mes);
      WithMonthKeepsInv(Cfg(), r.livro, key);
      var hoje := if r.dia == Some(df[j].data) then r.hoje else 0;
      var d := Decide(Ler(df, Indicadores(df, p), p, j), r.pos, r.saldo, hoje, p.riscoRetorno);
      RegistraNuncaFalha(Cfg(), WithMonth(r.livro, key), key, d.chamada);
    }
  }

  /** The candles come in time order, as the exchange returns them once the
      pages are reversed. */
  predicate DatasOrdenadas(df: seq<Barra>) {
    forall a, b :: 0 <= a < b < |df| ==> df[a].data <= df[b].data
  }

  /** The trades opened at the rows before k whose date is `dia`. */
  ghost function EntradasNoDia(df: seq<Barra>, p: Parametros, k: nat, dia: int): (n: nat)
    requires Validos(p) && k <= |df| && Positivos(df)
    decreases k
  {
    if k <= Inicio(p) then 0
    else
      var j := Anterior(k);
      var abriu := Executa(df, p, j).pos.estado == DeFora && Executa(df, p, k).pos.estado != DeFora;
      EntradasNoDia(df, p, j, dia) + (if df[j].data == dia && abriu then 1 else 0)
  }

  lemma EntradasNoDiaAvanca(df: seq<Barra>, p: Parametros, j: nat, dia: int)
    requires Validos(p) && Inicio(p) <= j < |df| && Positivos(df)
    ensures EntradasNoDia(df, p, Proxima(j), dia)
            == EntradasNoDia(df, p, j, dia)
               + (if df[j].data == dia && Executa(df, p, j).pos.estado == DeFora && Executa(df, p, Proxima(j)).pos.estado != DeFora then 1 else 0)
  {
    AnteriorDaProxima(j);
  }

  lemma ProximaDaAnterior(k: nat)
    requires k > 0
    ensures Proxima(Anterior(k)) == k
  {
  }

  /** What the day counter means after k rows: it holds the entries of the
      last row's date, no date has more than ten, and no later date has
      any. */
  ghost predicate ContadorDiario(df: seq<Barra>, p: Parametros, k: nat)
    requires Validos(p) && k <= |df| && Positivos(df)
  {
    ContadorDeHoje(df, p, k) && DiasLimitados(df, p, k)
  }

  ghost predicate ContadorDeHoje(df: seq<Barra>, p: Parametros, k: nat)
    requires Validos(p) && k <= |df| && Positivos(df)
  {
    var r := Executa(df, p, k);
    && r.hoje <= MaxTradesDia
    && (k <= Inicio(p) ==> r.dia.None? && r.hoje == 0)
    && (k > Inicio(p) ==> r.dia == Some(df[Anterior(k)].data) && EntradasNoDia(df, p, k, df[Anterior(k)].data) == r.hoje)
  }

  ghost predicate DiasLimitados(df: seq<Barra>, p: Parametros, k: nat)
    requires Validos(p) && k <= |df| && Positivos(df)
  {
    && (forall d :: EntradasNoDia(df, p, k, d) <= MaxTradesDia)
    && (forall d :: (k <= Inicio(p) || d > df[Anterior(k)].data) ==> EntradasNoDia(df, p, k, d) == 0)
  }

  /** One row keeps the meaning of the day counter. */
  lemma PassoDiario(df: seq<Barra>, p: Parametros, j: nat)
    requires Validos(p) && Inicio(p) <= j < |df| && Positivos(df) && DatasOrdenadas(df)
    requires ContadorDiario(df, p, j)
    ensures ContadorDiario(df, p, Proxima(j))
  {
    var r := Executa(df, p, j);
    var s := Executa(df, p, Proxima(j));
    ExecutaAvanca(df, p, j);
    AnteriorDaProxima(j);
    LinhaContaDia(df, Indicadores(df, p), p, j, r);
    assert j > Inicio(p) ==> df[Anterior(j)].data <= df[j].data;
    var abriu := r.pos.estado == DeFora && s.pos.estado != DeFora;
    forall d
      ensures EntradasNoDia(df, p, Proxima(j), d) == EntradasNoDia(df, p, j, d) + (if df[j].data == d && abriu then 1 else 0)
    {
      EntradasNoDiaAvanca(df, p, j, d);
    }
    PassoContadorDeHoje(df, p, j, abriu);
    PassoDiasLimitados(df, p, j, abriu);
  }

  lemma PassoContadorDeHoje(df: seq<Barra>, p: Parametros, j: nat, abriu: bool)
    requires Validos(p) && Inicio(p) <= j < |df| && Positivos(df)
    requires ContadorDeHoje(df, p, j) && DiasLimitados(df, p, j)
    requires j > Inicio(p) ==> df[Anterior(j)].data <= df[j].data
    requires Anterior(Proxima(j)) == j
    requires var r, s := Executa(df, p, j), Executa(df, p, Proxima(j));
      var base := if r.dia == Some(df[j].data) then r.hoje else 0;
      && s.dia == Some(df[j].data)
      && s.hoje == base + (if abriu then 1 else 0)
      && (abriu ==> base < MaxTradesDia)
    requires forall d :: EntradasNoDia(df, p, Proxima(j), d) == EntradasNoDia(df, p, j, d) + (if df[j].data == d && abriu then 1 else 0)
    ensures ContadorDeHoje(df, p, Proxima(j))
  {
  }

  lemma PassoDiasLimitados(df: seq<Barra>, p: Parametros, j: nat, abriu: bool)
    requires Validos(p) && Inicio(p) <= j < |df| && Positivos(df)
    requires ContadorDeHoje(df, p, j) && DiasLimitados(df, p, j)
    requires j > Inicio(p) ==> df[Anterior(j)].data <= df[j].data
    requires Anterior(Proxima(j)) == j
    requires var r, s := Executa(df, p, j), Executa(df, p, Proxima(j));
      var base := if r.dia == Some(df[j].data) then r.hoje else 0;
      && s.hoje == base + (if abriu then 1 else 0)
      && (abriu ==> base < MaxTradesDia)
    requires forall d :: EntradasNoDia(df, p, Proxima(j), d) == EntradasNoDia(df, p, j, d) + (if df[j].data == d && abriu then 1 else 0)
    ensures DiasLimitados(df, p, Proxima(j))
  {
  }

  lemma {:induction false} ExecutaContaDia(df: seq<Barra>, p: Parametros, k: nat)
    requires Validos(p) && k <= |df| && Positivos(df) && DatasOrdenadas(df)
    ensures ContadorDiario(df, p, k)
    decreases k
  {
    if k > Inicio(p) {
      var j := Anterior(k);
      ExecutaContaDia(df, p, j);
      PassoDiario(df, p, j);
      ProximaDaAnterior(k);
    }
  }

  /** With the candles in time order, no calendar date gets more than ten
      entries. */
  lemma AteDezPorDia(df: seq<Barra>, p: Parametros, dia: int)
    requires Validos(p) && Positivos(df) && DatasOrdenadas(df)
    ensures EntradasNoDia(df, p, |df|, dia) <= MaxTradesDia
  {
    ExecutaContaDia(df, p, |df|);
  }

  /** The part of a reading the decision looks at. */
  function Usada(l: Leitura): Leitura {
    l.(acima := 0, abaixo := 0, tendenciaAlta := false, tendenciaBaixa := false)
  }

  /** The counts and the trend flags never reach the decision. */
  lemma DecideIgnoraContagens(l: Leitura, p: Posicao, saldo: real, hoje: nat, rr: real)
    requires Aberta(p) && l.anterior.low > 0.0 && l.anterior.high > 0.0
    ensures Decide(l, p, saldo, hoje, rr) == Decide(Usada(l), p, saldo, hoje, rr)
  {
  }

  /** Two parameter sets with the same start and risco_retorno make the
      same row. */
  lemma LinhaIgnoraParametros(df: seq<Barra>, p: Parametros, q: Parametros, i: nat, r: Replay)
    requires Validos(p) && Validos(q) && Positivos(df) && Aberta(r.pos)
    requires p.riscoRetorno == q.riscoRetorno && Inicio(p) == Inicio(q) && Inicio(p) <= i < |df|
    ensures Linha(df, Indicadores(df, p), p, i, r) == Linha(df, Indicadores(df, q), q, i, r)
  {
    var lp, lq := Ler(df, Indicadores(df, p), p, i), Ler(df, Indicadores(df, q), q, i);
    assert Usada(lp) == Usada(lq);
    var hoje := if r.dia == Some(df[i].data) then r.hoje else 0;
    DecideIgnoraContagens(lp, r.pos, r.saldo, hoje, p.riscoRetorno);
    DecideIgnoraContagens(lq, r.pos, r.saldo, hoje, p.riscoRetorno);
  }

  /** Only risco_retorno and the start row steer the replay: the two EMA
      spans, risco_por_trade, rsi_min and rsi_max change nothing. */
  lemma {:induction false} SoRiscoRetornoImporta(df: seq<Barra>, p: Parametros, q: Parametros, k: nat)
    requires Validos(p) && Validos(q) && k <= |df| && Positivos(df)
    requires p.riscoRetorno == q.riscoRetorno && Inicio(p) == Inicio(q)
    ensures Executa(df, p, k) == Executa(df, q, k)
    decreases k
  {
    if k > Inicio(p) {
      var j := Anterior(k);
      SoRiscoRetornoImporta(df, p, q, j);
      assert Executa(df, p, k) == Linha(df, Indicadores(df, p), p, j, Executa(df, p, j));
      assert Executa(df, q, k) == Linha(df, Indicadores(df, q), q, j, Executa(df, q, j));
      LinhaIgnoraParametros(df, p, q, j, Executa(df, p, j));
    }
  }

  // ---------------------------------------------------------------------
  // otimizar_estrategia

  /** The seven lists whose product the optimiser walks: EMA rápida, EMA
      lenta, risco por trade, risco retorno, velas stop, RSI min, RSI max. */
  const Grade: seq<seq<real>> := [
    [5.0, 8.0, 9.0, 13.0],
    [13.0, 21.0, 34.0],
    [0.01, 0.05, 0.1, 0.2],
    [2.0, 3.0, 5.0, 6.0],
    [10.0, 14.0, 17.0],
    [30.0, 35.0, 40.0],
    [60.0, 65.0, 70.0]]

  /** Each x of xs in front of each of the tuples, x by x. */
  function ComCada(xs: seq<real>, restos: seq<seq<real>>): (r: seq<seq<real>>)
    ensures forall c :: c in r <==> |c| > 0 && c[0] in xs && c[1..] in restos
    decreases |xs|
  {
    if xs == [] then []
    else
      var primeira := seq(|restos|, k requires 0 <= k < |restos| => [xs[0]] + restos[k]);
      assert forall k :: 0 <= k < |restos| ==> primeira[k][1..] == restos[k];
      assert forall c :: c in primeira <==> |c| > 0 && c[0] == xs[0] && c[1..] in restos by {
        forall c | |c| > 0 && c[0] == xs[0] && c[1..] in restos
          ensures c in primeira
        {
          var k :| 0 <= k < |restos| && restos[k] == c[1..];
          assert primeira[k] == c;
        }
      }
      primeira + ComCada(xs[1..], restos)
  }

  /** itertools.product: the first list varies slowest. */
  function Produto(listas: seq<seq<real>>): (r: seq<seq<real>>)
    decreases |listas|
  {
    if listas == [] then [[]] else ComCada(listas[0], Produto(listas[1..]))
  }

  /** The product holds exactly the tuples that take their k-th value from
      the k-th list. */
  lemma {:induction false} ProdutoSignifica(listas: seq<seq<real>>, c: seq<real>)
    ensures c in Produto(listas) <==> |c| == |listas| && forall k :: 0 <= k < |c| ==> c[k] in listas[k]
    decreases |listas|
  {
    if listas != [] && |c| > 0 {
      ProdutoSignifica(listas[1..], c[1..]);
      if |c| == |listas| && c[0] in listas[0] {
        assert forall k :: 1 <= k < |c| ==> c[k] == c[1..][k - 1];
      }
    }
  }

  /** The arguments the tuple unpacks into; the spans are whole numbers. */
  function ParaParametros(c: seq<real>): Parametros
    requires |c| == 7
  {
    Parametros(c[0].Floor, c[1].Floor, c[2], c[3], c[4].Floor, c[5], c[6])
  }

  /** What the loop keeps: the combinations it does not skip, whose run
      does not raise. */
  predicate Avaliada(c: seq<real>) {
    |c| == 7 && c[0] < c[1] && c[5] < c[6] && Validos(ParaParametros(c))
  }

  /** The list of results after the combinations cs, in order. */
  function Avaliacoes(df: seq<Barra>, cs: seq<seq<real>>): (r: seq<(seq<real>, real)>)
    requires Positivos(df)
    decreases |cs|
  {
    if cs == [] then []
    else
      var c := cs[|cs| - 1];
      var antes := Avaliacoes(df, cs[..|cs| - 1]);
      if Avaliada(c) then antes + [(c, Executa(df, ParaParametros(c), |df|).saldo)] else antes
  }

  /** A result is kept exactly for each combination that passes the filter,
      paired with the final saldo of its run. */
  lemma {:induction false} AvaliacoesSignificam(df: seq<Barra>, cs: seq<seq<real>>, x: (seq<real>, real))
    requires Positivos(df)
    ensures x in Avaliacoes(df, cs) <==> x.0 in cs && Avaliada(x.0) && x.1 == Executa(df, ParaParametros(x.0), |df|).saldo
    decreases |cs|
  {
    if cs != [] {
      var ini := cs[..|cs| - 1];
      AvaliacoesSignificam(df, ini, x);
      assert cs == ini + [cs[|cs| - 1]];
    }
  }

  /** Every tuple of the product has one value per list. */
  lemma {:induction false} ProdutoAridade(listas: seq<seq<real>>)
    ensures forall c :: c in Produto(listas) ==> |c| == |listas|
  {
    forall c | c in Produto(listas)
      ensures |c| == |listas|
    {
      ProdutoSignifica(listas, c);
    }
  }

  /** On the grid every EMA span is at least 5. */
  lemma GradeValida()
    ensures |Grade| == 7
    ensures forall x :: x in Grade[0] ==> x >= 5.0
    ensures forall x :: x in Grade[1] ==> x >= 5.0
  {
  }

  /** Each combination has the seven values the call unpacks. */
  predicate SeteValores(cs: seq<seq<real>>) {
    forall c :: c in cs ==> |c| == 7
  }

  lemma GradeSeteValores()
    ensures SeteValores(Produto(Grade))
  {
    ProdutoAridade(Grade);
  }

  /** On a grid whose spans are at least 1 (GradeValida) no run raises, so
      the optimiser keeps exactly the combinations with a fast EMA shorter
      than the slow one and rsi_min below rsi_max. */
  lemma GradeAvaliada(listas: seq<seq<real>>, c: seq<real>)
    requires |listas| == 7 && c in Produto(listas)
    requires forall x :: x in listas[0] ==> x >= 1.0
    requires forall x :: x in listas[1] ==> x >= 1.0
    ensures |c| == 7 && (Avaliada(c) <==> c[0] < c[1] && c[5] < c[6])
  {
    ProdutoSignifica(listas, c);
    assert c[0] in listas[0] && c[1] in listas[1];
  }

  /** The loop of otimizar_estrategia: one run per combination not
      skipped, its final saldo appended to the list. */
  method AvaliarCombinacoes(df: seq<Barra>, combinacoes: seq<seq<real>>) returns (resultados: seq<(seq<real>, real)>)
    requires Positivos(df)
    requires SeteValores(combinacoes)
    ensures resultados == Avaliacoes(df, combinacoes)
  {
    resultados := [];
    var i := 0;
    while i < |combinacoes|
      invariant i <= |combinacoes|
      invariant resultados == Avaliacoes(df, combinacoes[..i])
    {
      var c := combinacoes[i];
      AvaliacoesPasso(df, combinacoes, i);
      var novos := AvaliarCombinacao(df, c);
      resultados := resultados + novos;
      i := i + 1;
    }
    assert combinacoes[..i] == combinacoes;
  }

  /** One more combination appends its result, if it is kept. */
  lemma AvaliacoesPasso(df: seq<Barra>, cs: seq<seq<real>>, i: nat)
    requires Positivos(df) && i < |cs|
    ensures Avaliacoes(df, cs[..i + 1]) == Avaliacoes(df, cs[..i])
      + (if Avaliada(cs[i]) then [(cs[i], Executa(df, ParaParametros(cs[i]), |df|).saldo)] else [])
  {
    assert cs[..i + 1][..i] == cs[..i];
  }

  /** The body of that loop for one combination: nothing when it is
      skipped or its run raises, else the pair of it and the final saldo. */
  method AvaliarCombinacao(df: seq<Barra>, c: seq<real>) returns (novos: seq<(seq<real>, real)>)
    requires Positivos(df) && |c| == 7
    ensures novos == if Avaliada(c) then [(c, Executa(df, ParaParametros(c), |df|).saldo)] else []
  {
    novos := [];
    if !(c[0] >= c[1] || c[5] >= c[6]) {
      var p := ParaParametros(c);
      if Validos(p) {
        var _, final := ExecutarBacktest(df, p);
        novos := [(c, final)];
      }
    }
  }

  /** otimizar_estrategia up to the printing, over the product of the grid. */
  method OtimizarEstrategia(df: seq<Barra>) returns (resultados: seq<(seq<real>, real)>)
    requires Positivos(df)
    ensures resultados == Avaliacoes(df, Produto(Grade))
  {
    var combinacoes := Produto(Grade);
    GradeSeteValores();
    resultados := AvaliarCombinacoes(df, combinacoes);
  }
}
