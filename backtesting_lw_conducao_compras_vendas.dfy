/**
  backtesting_lw_conducao_compras_vendas.py: a replay over 15-minute
  candles that enters with the trend of the EMA 200 (the "condução") and
  leaves a trade early when a candle closes on the wrong side of it. Step i
  looks at the frame up to row i - 1 only (sub_df = df.iloc[:i]): the last
  row of that view is the candle just closed, the one before it the signal
  candle. Out of the market, a signal candle closing above the EMA 200 and
  above the EMAs 5 and 15 arms a long, which the last candle triggers by
  breaking its high; the stop is the lowest low of the last 25 rows and the
  target 4.5 risks above the entry. A short mirrors every test.
*/
module BacktestingLwConducao {
  import opened Wrappers
  import opened Candles
  import opened EstadoTrade
  import opened ResultsLedger
  import opened ReplayComum
  import FuncoesBybit
  import Backtesting

  const SaldoInicial: real := 1000.0
  const RiscoRetorno: real := 4.5
  const VelasStop: nat := 25
  const TaxaCorretora: real := 0.055
  const Alavancagem: real := 1.0
  const EmaConducao: int := 200
  const Setup: string := "EMAs [5, 15], condução 200, rrr 4.5, velas 25"
  /** The loop runs over range(pular_velas, len(df)). */
  const PularVelas: nat := 999

  function Cfg(): Config {
    Config(SaldoInicial, TaxaCorretora, Setup, Alavancagem)
  }

  /** The EMA 200 column the script adds to the frame. */
  function Ema200(df: seq<Carregada>): (c: seq<real>)
    ensures |c| == |df|
  {
    FuncoesBybit.EmaColumn(Closes(VelasCarregadas(df)), EmaConducao)
  }

  /** What step i reads from sub_df: the last row (iloc[-1], row i - 1) and
      the one before it (iloc[-2], row i - 2) with their EMA values, and the
      extremes of the last 25 rows. */
  datatype Leitura = Leitura(
    ultima: Candle, ema200Ultima: real,
    sinal: Candle, ema200Sinal: real, emaRapidaSinal: real, emaLentaSinal: real,
    minima: real, maxima: real)

  function Ler(df: seq<Carregada>, ema200: seq<real>, i: nat): (l: Leitura)
    requires ema200 == Ema200(df)
    requires PularVelas <= i < |df|
    ensures l.minima <= l.sinal.low && l.maxima >= l.sinal.high
    ensures l.minima <= l.ultima.low && l.maxima >= l.ultima.high
  {
    var janela := VelasCarregadas(df)[i - VelasStop..i];
    assert janela[VelasStop - 2] == df[i - 2].barra.candle;
    assert janela[VelasStop - 1] == df[i - 1].barra.candle;
    Leitura(df[i - 1].barra.candle, ema200[i - 1],
            df[i - 2].barra.candle, ema200[i - 2], df[i - 2].emaRapida, df[i - 2].emaLenta,
            Min(Lows(janela)), Max(Highs(janela)))
  }

  datatype Decisao = Decisao(pos: Posicao, chamada: Chamada)

  /** The exits and entries of a step, after initialize_month. */
  function Decide(l: Leitura, p: Posicao, pc: Percentuais): (d: Decisao)
    ensures d.chamada.Abertura? <==> p.estado == DeFora && d.pos.estado != DeFora
    ensures d.chamada.Ganho? || d.chamada.Perda? <==> p.estado != DeFora && d.pos.estado == DeFora
    ensures d.chamada.Nenhuma? ==> d.pos == p
  {
    var c := l.ultima;
    var s := l.sinal;
    match p.estado
    case Comprado =>
      if c.high >= p.alvo then Decisao(p.(estado := DeFora), Ganho(pc.lucroNaCompra(p.entrada, p.alvo)))
      else if c.low <= p.stop then Decisao(p.(estado := DeFora), Perda(pc.perdaNaCompra(p.entrada, p.stop)))
      else if c.close < l.ema200Ultima then
        if c.close > p.entrada then Decisao(p.(estado := DeFora), Ganho(pc.lucroNaCompra(p.entrada, c.close)))
        else if c.close < p.entrada then Decisao(p.(estado := DeFora), Perda(pc.perdaNaCompra(p.entrada, c.close)))
        else Decisao(p, Nenhuma)
      else Decisao(p, Nenhuma)
    case Vendido =>
      if c.low <= p.alvo then Decisao(p.(estado := DeFora), Ganho(pc.lucroNaVenda(p.entrada, p.alvo)))
      else if c.high >= p.stop then Decisao(p.(estado := DeFora), Perda(pc.perdaNaVenda(p.entrada, p.stop)))
      else if c.close > l.ema200Ultima then
        if c.close < p.entrada then Decisao(p.(estado := DeFora), Ganho(pc.lucroNaVenda(p.entrada, c.close)))
        else if c.close > p.entrada then Decisao(p.(estado := DeFora), Perda(pc.perdaNaVenda(p.entrada, c.close)))
        else Decisao(p, Nenhuma)
      else Decisao(p, Nenhuma)
    case DeFora =>
      if s.close > l.ema200Sinal then
        if s.close > l.emaRapidaSinal && s.close > l.emaLentaSinal && c.high > s.high then
          var entrada := s.high;
          Decisao(Posicao(Comprado, entrada, l.minima, (entrada - l.minima) * RiscoRetorno + entrada), Abertura)
        else Decisao(p, Nenhuma)
      else if s.close < l.ema200Sinal then
        if s.close < l.emaRapidaSinal && s.close < l.emaLentaSinal && c.low < s.low then
          var entrada := s.low;
          Decisao(Posicao(Vendido, entrada, l.maxima, entrada - (l.maxima - entrada) * RiscoRetorno), Abertura)
        else Decisao(p, Nenhuma)
      else Decisao(p, Nenhuma)
  }

  /** The position variables and the ledger between steps. */
  datatype Replay = Replay(pos: Posicao, livro: Ledger)

  function Inicial(): Replay {
    Replay(Fora, Initial(Cfg()))
  }

  /** One pass of the loop body: the month key comes from the last row of
      sub_df, then initialize_month, the decision and its ledger call. */
  function Linha(df: seq<Carregada>, ema200: seq<real>, pc: Percentuais, i: nat, r: Replay): Replay
    requires ema200 == Ema200(df)
    requires PularVelas <= i < |df|
  {
    var key := (df[i - 1].barra.ano, df[i - 1].barra.mes);
    var d := Decide(Ler(df, ema200, i), r.pos, pc);
    Replay(d.pos, Registra(Cfg(), WithMonth(r.livro, key), key, d.chamada))
  }

  /** The state after the steps before k. */
  function Executa(df: seq<Carregada>, pc: Percentuais, k: nat): Replay
    requires k <= |df|
    decreases k
  {
    if k <= PularVelas then Inicial()
    else Linha(df, Ema200(df), pc, Anterior(k), Executa(df, pc, Anterior(k)))
  }

  function Proxima(i: nat): nat {
    i + 1
  }

  function Anterior(k: nat): nat
    requires k > 0
  {
    k - 1
  }

  lemma AnteriorDaProxima(i: nat)
    ensures Anterior(Proxima(i)) == i
  {
  }

  lemma ExecutaAvanca(df: seq<Carregada>, pc: Percentuais, i: nat)
    requires PularVelas <= i < |df|
    ensures Executa(df, pc, Proxima(i)) == Linha(df, Ema200(df), pc, i, Executa(df, pc, i))
  {
    AnteriorDaProxima(i);
  }

  /** The body of the loop for step i, on the position variables and the
      ledger object. */
  method ExecutarLinha(df: seq<Carregada>, ema200: seq<real>, pc: Percentuais, i: nat, resultados: ResultsManager, pos: Posicao)
    returns (pos': Posicao)
    requires ema200 == Ema200(df)
    requires PularVelas <= i < |df|
    requires resultados.Valid() && resultados.Cfg() == Cfg()
    modifies resultados
    ensures resultados.Valid()
    ensures Replay(pos', resultados.State()) == Linha(df, ema200, pc, i, Replay(pos, old(resultados.State())))
  {
    var ano, mes := df[i - 1].barra.ano, df[i - 1].barra.mes;
    resultados.InitializeMonth(ano, mes);
    var d := Decide(Ler(df, ema200, i), pos, pc);
    pos' := d.pos;
    Registrar(resultados, (ano, mes), d.chamada);
  }

  /** The script from the EMA column on: the loop over the frame; returns
      the ledger object get_results summarises. */
  method ExecutarBacktest(df: seq<Carregada>, pc: Percentuais) returns (resultados: ResultsManager)
    ensures fresh(resultados) && resultados.Valid() && resultados.Cfg() == Cfg()
    ensures resultados.State() == Executa(df, pc, |df|).livro
  {
    var ema200 := Ema200(df);
    var pos := Fora;
    resultados := new ResultsManager(SaldoInicial, TaxaCorretora, Setup, Alavancagem);
    if |df| <= PularVelas {
      return;
    }
    var i := PularVelas;
    while i < |df|
      invariant PularVelas <= i <= |df|
      invariant resultados.Valid() && resultados.Cfg() == Cfg()
      invariant Replay(pos, resultados.State()) == Executa(df, pc, i)
    {
      ExecutaAvanca(df, pc, i);
      pos := ExecutarLinha(df, ema200, pc, i, resultados, pos);
      i := Proxima(i);
    }
    assert i == |df|;
  }

  // ---------------------------------------------------------------------
  // What a step does

  /** A long is closed at the target first, then at the stop, then, when
      the candle closes below the EMA 200, at the close: a gain above the
      entry, a loss below it, and no exit at all on the entry itself. */
  lemma DecideSaidasCompra(l: Leitura, p: Posicao, pc: Percentuais)
    requires p.estado == Comprado
    ensures var d, c := Decide(l, p, pc), l.ultima;
      && (c.high >= p.alvo ==> d.chamada == Ganho(pc.lucroNaCompra(p.entrada, p.alvo)))
      && (c.high < p.alvo && c.low <= p.stop ==> d.chamada == Perda(pc.perdaNaCompra(p.entrada, p.stop)))
      && ((c.high < p.alvo && c.low > p.stop && c.close < l.ema200Ultima && c.close > p.entrada)
            ==> d.chamada == Ganho(pc.lucroNaCompra(p.entrada, c.close)))
      && ((c.high < p.alvo && c.low > p.stop && c.close < l.ema200Ultima && c.close < p.entrada)
            ==> d.chamada == Perda(pc.perdaNaCompra(p.entrada, c.close)))
      && (d.pos.estado == Comprado <==>
            c.high < p.alvo && c.low > p.stop && (c.close >= l.ema200Ultima || c.close == p.entrada))
  {
  }

  /** The mirror image for a short, with the close above the EMA 200. */
  lemma DecideSaidasVenda(l: Leitura, p: Posicao, pc: Percentuais)
    requires p.estado == Vendido
    ensures var d, c := Decide(l, p, pc), l.ultima;
      && (c.low <= p.alvo ==> d.chamada == Ganho(pc.lucroNaVenda(p.entrada, p.alvo)))
      && (c.low > p.alvo && c.high >= p.stop ==> d.chamada == Perda(pc.perdaNaVenda(p.entrada, p.stop)))
      && ((c.low > p.alvo && c.high < p.stop && c.close > l.ema200Ultima && c.close < p.entrada)
            ==> d.chamada == Ganho(pc.lucroNaVenda(p.entrada, c.close)))
      && ((c.low > p.alvo && c.high < p.stop && c.close > l.ema200Ultima && c.close > p.entrada)
            ==> d.chamada == Perda(pc.perdaNaVenda(p.entrada, c.close)))
      && (d.pos.estado == Vendido <==>
            c.low > p.alvo && c.high < p.stop && (c.close <= l.ema200Ultima || c.close == p.entrada))
  {
  }

  /** A long is entered exactly when the signal candle closes above the
      EMA 200 and both EMAs and the last candle breaks its high; a short
      exactly when the signal candle closes below all three and the last
      candle breaks its low. */
  lemma DecideEntradas(l: Leitura, p: Posicao, pc: Percentuais)
    requires p.estado == DeFora
    ensures var d, c, s := Decide(l, p, pc), l.ultima, l.sinal;
      && (d.pos.estado == Comprado <==>
            s.close > l.ema200Sinal && s.close > l.emaRapidaSinal && s.close > l.emaLentaSinal && c.high > s.high)
      && (d.pos.estado == Vendido <==>
            s.close < l.ema200Sinal && s.close < l.emaRapidaSinal && s.close < l.emaLentaSinal && c.low < s.low)
  {
  }

  /** An entry sits at the signal candle's extreme, the stop at the extreme
      of the 25-row window (which holds the signal candle, so on a
      well-formed candle the stop is on the right side of the entry), and
      the target 4.5 risks beyond the entry. */
  lemma DecideArma(l: Leitura, p: Posicao, pc: Percentuais)
    requires p.estado == DeFora && WellFormed(l.sinal)
    requires l.minima <= l.sinal.low && l.maxima >= l.sinal.high
    ensures var d := Decide(l, p, pc);
      && Ordenada(d.pos)
      && (d.pos.estado == Comprado ==>
            d.pos.entrada == l.sinal.high && d.pos.stop == l.minima
            && d.pos.alvo - d.pos.entrada == (d.pos.entrada - d.pos.stop) * RiscoRetorno)
      && (d.pos.estado == Vendido ==>
            d.pos.entrada == l.sinal.low && d.pos.stop == l.maxima
            && d.pos.entrada - d.pos.alvo == (d.pos.stop - d.pos.entrada) * RiscoRetorno)
  {
  }

  // ---------------------------------------------------------------------
  // What the replay guarantees

  /** A step keeps every position ordered (stop, entry, target) when the
      signal candle is well formed. */
  lemma DecideOrdena(l: Leitura, p: Posicao, pc: Percentuais)
    requires Ordenada(p) && WellFormed(l.sinal)
    requires l.minima <= l.sinal.low && l.maxima >= l.sinal.high
    ensures Ordenada(Decide(l, p, pc).pos)
  {
    if p.estado == DeFora {
      DecideArma(l, p, pc);
    }
  }

  /** On well-formed candles every position the replay holds has its stop
      and its target on either side of the entry. */
  lemma {:induction false} ExecutaOrdenada(df: seq<Carregada>, pc: Percentuais, k: nat)
    requires k <= |df| && AllWellFormed(VelasCarregadas(df))
    ensures Ordenada(Executa(df, pc, k).pos)
    decreases k
  {
    if k > PularVelas {
      var j := Anterior(k);
      ExecutaOrdenada(df, pc, j);
      var r := Executa(df, pc, j);
      var l := Ler(df, Ema200(df), j);
      assert Executa(df, pc, k).pos == Decide(l, r.pos, pc).pos;
      assert WellFormed(VelasCarregadas(df)[j - 2]);
      DecideOrdena(l, r.pos, pc);
    }
  }

  /** Each step keeps the ledger's invariants, so update_on_loss never
      raises. */
  lemma LinhaMantemInv(df: seq<Carregada>, pc: Percentuais, i: nat, r: Replay)
    requires PularVelas <= i < |df|
    requires Inv(Cfg(), r.livro)
    ensures Inv(Cfg(), Linha(df, Ema200(df), pc, i, r).livro)
  {
    var key := (df[i - 1].barra.ano, df[i - 1].barra.mes);
    WithMonthKeepsInv(Cfg(), r.livro, key);
    RegistraNuncaFalha(Cfg(), WithMonth(r.livro, key), key, Decide(Ler(df, Ema200(df), i), r.pos, pc).chamada);
  }

  /** After any number of steps the ledger satisfies its invariants. */
  lemma {:induction false} ExecutaMantemInv(df: seq<Carregada>, pc: Percentuais, k: nat)
    requires k <= |df|
    ensures Inv(Cfg(), Executa(df, pc, k).livro)
    decreases k
  {
    if k <= PularVelas {
      InitialSatisfiesInv(Cfg());
    } else {
      var j := Anterior(k);
      ExecutaMantemInv(df, pc, j);
      assert Executa(df, pc, k) == Linha(df, Ema200(df), pc, j, Executa(df, pc, j));
      LinhaMantemInv(df, pc, j, Executa(df, pc, j));
    }
  }

  /** The steps before k that opened a trade. */
  function Entradas(df: seq<Carregada>, pc: Percentuais, k: nat): (n: nat)
    requires k <= |df|
    decreases k
  {
    if k <= PularVelas then 0
    else
      var antes := Executa(df, pc, Anterior(k));
      Entradas(df, pc, Anterior(k)) + (if antes.pos.estado == DeFora && Executa(df, pc, k).pos.estado != DeFora then 1 else 0)
  }

  /** A step adds one to the summary's trade count exactly when it enters. */
  lemma LinhaContaEntrada(df: seq<Carregada>, pc: Percentuais, i: nat, r: Replay)
    requires PularVelas <= i < |df|
    requires OrderMatches(r.livro) && r.livro.maxBalance > 0.0
    ensures OrderMatches(Linha(df, Ema200(df), pc, i, r).livro)
    ensures SumOver(Linha(df, Ema200(df), pc, i, r).livro.order, Linha(df, Ema200(df), pc, i, r).livro.results, OpenTrades)
            == SumOver(r.livro.order, r.livro.results, OpenTrades)
               + (if r.pos.estado == DeFora && Linha(df, Ema200(df), pc, i, r).pos.estado != DeFora then 1.0 else 0.0)
  {
    var key := (df[i - 1].barra.ano, df[i - 1].barra.mes);
    RegistraContaAberturas(Cfg(), r.livro, key, Decide(Ler(df, Ema200(df), i), r.pos, pc).chamada);
  }

  /** The ledger's open-trade counters add up to the number of entries. */
  lemma {:induction false} ExecutaContaAberturas(df: seq<Carregada>, pc: Percentuais, k: nat)
    requires k <= |df|
    ensures OrderMatches(Executa(df, pc, k).livro)
    ensures SumOver(Executa(df, pc, k).livro.order, Executa(df, pc, k).livro.results, OpenTrades) == Entradas(df, pc, k) as real
    decreases k
  {
    if k > PularVelas {
      ExecutaContaAberturas(df, pc, Anterior(k));
      PassoContaAbertura(df, pc, k);
    }
  }

  /** The inductive step of ExecutaContaAberturas. */
  lemma PassoContaAbertura(df: seq<Carregada>, pc: Percentuais, k: nat)
    requires PularVelas < k <= |df|
    requires OrderMatches(Executa(df, pc, Anterior(k)).livro)
    requires SumOver(Executa(df, pc, Anterior(k)).livro.order, Executa(df, pc, Anterior(k)).livro.results, OpenTrades)
             == Entradas(df, pc, Anterior(k)) as real
    ensures OrderMatches(Executa(df, pc, k).livro)
    ensures SumOver(Executa(df, pc, k).livro.order, Executa(df, pc, k).livro.results, OpenTrades) == Entradas(df, pc, k) as real
  {
    var j := Anterior(k);
    var r := Executa(df, pc, j);
    var r2 := Executa(df, pc, k);
    assert r2 == Linha(df, Ema200(df), pc, j, r);
    assert Entradas(df, pc, k) == Entradas(df, pc, j) + (if r.pos.estado == DeFora && r2.pos.estado != DeFora then 1 else 0);
    ExecutaMantemInv(df, pc, j);
    LinhaContaEntrada(df, pc, j, r);
  }

  /** The summary's trade count is the number of entries. */
  lemma ExecutaContaEntradas(df: seq<Carregada>, pc: Percentuais)
    ensures OrderMatches(Executa(df, pc, |df|).livro)
    ensures Summarize(Cfg(), Executa(df, pc, |df|).livro).trades == Entradas(df, pc, |df|) as real
  {
    ExecutaContaAberturas(df, pc, |df|);
  }

  // ---------------------------------------------------------------------
  // No lookahead

  lemma JanelaLocal(df: seq<Carregada>, df2: seq<Carregada>, i: nat)
    requires VelasStop <= i <= |df| && i <= |df2|
    requires forall t :: 0 <= t < i ==> df[t] == df2[t]
    ensures VelasCarregadas(df)[i - VelasStop..i] == VelasCarregadas(df2)[i - VelasStop..i]
  {
    var w, w2 := VelasCarregadas(df)[i - VelasStop..i], VelasCarregadas(df2)[i - VelasStop..i];
    forall t | 0 <= t < VelasStop
      ensures w[t] == w2[t]
    {
      assert w[t] == df[i - VelasStop + t].barra.candle;
    }
  }

  /** Step i reads the rows before i only. */
  lemma LerLocal(df: seq<Carregada>, df2: seq<Carregada>, i: nat)
    requires PularVelas <= i < |df| && i < |df2|
    requires forall t :: 0 <= t < i ==> df[t] == df2[t]
    ensures Ler(df, Ema200(df), i) == Ler(df2, Ema200(df2), i)
  {
    EmaLocal200(df, df2, i);
    JanelaLocal(df, df2, i);
  }

  /** The EMA 200 of rows i - 1 and i - 2 depends on the rows before i only. */
  lemma EmaLocal200(df: seq<Carregada>, df2: seq<Carregada>, i: nat)
    requires 2 <= i <= |df| && i <= |df2|
    requires forall t :: 0 <= t < i ==> df[t] == df2[t]
    ensures Ema200(df)[i - 1] == Ema200(df2)[i - 1] && Ema200(df)[i - 2] == Ema200(df2)[i - 2]
  {
    var xs, ys := Closes(VelasCarregadas(df)), Closes(VelasCarregadas(df2));
    forall t | 0 <= t < i
      ensures xs[t] == ys[t]
    {
      assert xs[t] == df[t].barra.candle.close && ys[t] == df2[t].barra.candle.close;
    }
    Backtesting.EmaLocal(xs, ys, EmaConducao, i - 1);
    Backtesting.EmaLocal(xs, ys, EmaConducao, i - 2);
  }

  /** The state after the steps before k is fixed by the rows before
      k - 1: the last row a step reads is the one before its index. */
  lemma {:induction false} ExecutaLocal(df: seq<Carregada>, df2: seq<Carregada>, pc: Percentuais, k: nat)
    requires 0 < k <= |df| && k <= |df2|
    requires forall t :: 0 <= t < k - 1 ==> df[t] == df2[t]
    ensures Executa(df, pc, k) == Executa(df2, pc, k)
    decreases k
  {
    if k > PularVelas {
      var j := Anterior(k);
      ExecutaLocal(df, df2, pc, j);
      assert Executa(df, pc, k) == Linha(df, Ema200(df), pc, j, Executa(df, pc, j));
      assert Executa(df2, pc, k) == Linha(df2, Ema200(df2), pc, j, Executa(df2, pc, j));
      LerLocal(df, df2, j);
    }
  }
}
