/**
  backtesting_lw_engolfo.py: a long-only replay over hourly candles. Step i
  looks at the frame up to row i - 1 only: the last row of that view is the
  candle just closed, the one before it the signal candle. Out of the
  market, a signal candle that is a bullish engulfing, or that closes above
  the EMAs 5 and 15, arms a long, which the last candle triggers by breaking
  its high; the stop is the lowest low of the last 50 rows and the target
  4.5 risks above the entry. A long is closed at its target or its stop.
*/
module BacktestingLwEngolfo {
  import opened Wrappers
  import opened Candles
  import opened EstadoTrade
  import opened ResultsLedger
  import opened ReplayComum
  import PadroesVelas

  const SaldoInicial: real := 1000.0
  const RiscoRetorno: real := 4.5
  const VelasStop: nat := 50
  const TaxaCorretora: real := 0.055
  const Alavancagem: real := 1.0
  const Setup: string := "Engolfos, rrr 4.5, velas 50"
  /** The loop runs over range(pular_velas, len(df)). */
  const PularVelas: nat := 999

  function Cfg(): Config {
    Config(SaldoInicial, TaxaCorretora, Setup, Alavancagem)
  }

  /** The engolfo_alta column the script adds to the frame. */
  function Engolfos(df: seq<Carregada>): (c: seq<bool>)
    ensures |c| == |df|
  {
    PadroesVelas.EngolfoAlta(VelasCarregadas(df))
  }

  /** What step i reads from sub_df: the last row (row i - 1), the signal
      row (row i - 2) with its pattern flag and EMA values, and the lowest
      low of the last 50 rows. */
  datatype Leitura = Leitura(
    ultima: Candle, sinal: Candle, engolfoSinal: bool,
    emaRapidaSinal: real, emaLentaSinal: real, minima: real)

  function Ler(df: seq<Carregada>, i: nat): (l: Leitura)
    requires PularVelas <= i < |df|
    ensures l.minima <= l.sinal.low && l.minima <= l.ultima.low
  {
    var janela := VelasCarregadas(df)[i - VelasStop..i];
    assert janela[VelasStop - 2] == df[i - 2].barra.candle;
    assert janela[VelasStop - 1] == df[i - 1].barra.candle;
    Leitura(df[i - 1].barra.candle, df[i - 2].barra.candle,
            PadroesVelas.BullishEngulfing(df[i - 3].barra.candle, df[i - 2].barra.candle),
            df[i - 2].emaRapida, df[i - 2].emaLenta, Min(Lows(janela)))
  }

  /** The flag Ler takes is the engolfo_alta column at the signal row. */
  lemma LerLeColuna(df: seq<Carregada>, engolfos: seq<bool>, i: nat)
    requires engolfos == Engolfos(df)
    requires PularVelas <= i < |df|
    ensures Ler(df, i).engolfoSinal == engolfos[i - 2]
  {
  }

  /** The reading of step i with the flag taken from the engolfo_alta
      column, as the loop does; it is the reading Ler makes. */
  function LerComColuna(df: seq<Carregada>, engolfos: seq<bool>, i: nat): (l: Leitura)
    requires engolfos == Engolfos(df)
    requires PularVelas <= i < |df|
    ensures l == Ler(df, i)
  {
    LerLeColuna(df, engolfos, i);
    Ler(df, i).(engolfoSinal := engolfos[i - 2])
  }

  /** The signal candle arms a long. */
  predicate Referencia(l: Leitura) {
    l.engolfoSinal || (l.sinal.close > l.emaRapidaSinal && l.sinal.close > l.emaLentaSinal)
  }

  datatype Decisao = Decisao(pos: Posicao, chamada: Chamada)

  /** The exits and the entry of a step, after initialize_month. A short
      is never opened, so the script's if/elif has no branch for one. */
  function Decide(l: Leitura, p: Posicao, pc: Percentuais): (d: Decisao)
    ensures d.chamada.Abertura? <==> p.estado == DeFora && d.pos.estado != DeFora
    ensures d.chamada.Ganho? || d.chamada.Perda? <==> p.estado == Comprado && d.pos.estado == DeFora
    ensures d.chamada.Nenhuma? ==> d.pos == p
  {
    var c := l.ultima;
    match p.estado
    case Comprado =>
      if c.high >= p.alvo then Decisao(p.(estado := DeFora), Ganho(pc.lucroNaCompra(p.entrada, p.alvo)))
      else if c.low <= p.stop then Decisao(p.(estado := DeFora), Perda(pc.perdaNaCompra(p.entrada, p.stop)))
      else Decisao(p, Nenhuma)
    case Vendido => Decisao(p, Nenhuma)
    case DeFora =>
      if Referencia(l) && c.high > l.sinal.high then
        var entrada := l.sinal.high;
        Decisao(Posicao(Comprado, entrada, l.minima, (entrada - l.minima) * RiscoRetorno + entrada), Abertura)
      else Decisao(p, Nenhuma)
  }

  /** The position variables and the ledger between steps. */
  datatype Replay = Replay(pos: Posicao, livro: Ledger)

  function Inicial(): Replay {
    Replay(Fora, Initial(Cfg()))
  }

  /** One pass of the loop body: the month key comes from the last row of
      sub_df, then initialize_month, the decision and its ledger call. */
  function Linha(df: seq<Carregada>, pc: Percentuais, i: nat, r: Replay): Replay
    requires PularVelas <= i < |df|
  {
    var key := (df[i - 1].barra.ano, df[i - 1].barra.mes);
    var d := Decide(Ler(df, i), r.pos, pc);
    Replay(d.pos, Registra(Cfg(), WithMonth(r.livro, key), key, d.chamada))
  }

  /** The state after the steps before k. */
  function Executa(df: seq<Carregada>, pc: Percentuais, k: nat): Replay
    requires k <= |df|
    decreases k
  {
    if k <= PularVelas then Inicial()
    else Linha(df, pc, Anterior(k), Executa(df, pc, Anterior(k)))
  }

  function Proxima(i: nat): nat {
    i + 1
  }

  function Anterior(k: nat): nat
    requires k > 0
  {
    k - 1
  }

  lemma AnteriorDaProxima(i: nat)
    ensures Anterior(Proxima(i)) == i
  {
  }

  lemma ExecutaAvanca(df: seq<Carregada>, pc: Percentuais, i: nat)
    requires PularVelas <= i < |df|
    ensures Executa(df, pc, Proxima(i)) == Linha(df, pc, i, Executa(df, pc, i))
  {
    AnteriorDaProxima(i);
  }

  /** The body of the loop for step i, on the position variables and the
      ledger object. */
  method ExecutarLinha(df: seq<Carregada>, engolfos: seq<bool>, pc: Percentuais, i: nat, resultados: ResultsManager, pos: Posicao)
    returns (pos': Posicao)
    requires engolfos == Engolfos(df)
    requires PularVelas <= i < |df|
    requires resultados.Valid() && resultados.Cfg() == Cfg()
    requires Replay(pos, resultados.State()) == Executa(df, pc, i)
    modifies resultados
    ensures resultados.Valid()
    ensures Replay(pos', resultados.State()) == Executa(df, pc, Proxima(i))
  {
    ExecutaAvanca(df, pc, i);
    var ano, mes := df[i - 1].barra.ano, df[i - 1].barra.mes;
    resultados.InitializeMonth(ano, mes);
    var l := LerComColuna(df, engolfos, i);
    var d := Decide(l, pos, pc);
    pos' := d.pos;
    Registrar(resultados, (ano, mes), d.chamada);
  }

  /** The script from the pattern columns on: the loop over the frame;
      returns the ledger object get_results summarises. */
  method ExecutarBacktest(df: seq<Carregada>, pc: Percentuais) returns (resultados: ResultsManager)
    ensures fresh(resultados) && resultados.Valid() && resultados.Cfg() == Cfg()
    ensures resultados.State() == Executa(df, pc, |df|).livro
  {
    var engolfos := Engolfos(df);
    var pos := Fora;
    resultados := new ResultsManager(SaldoInicial, TaxaCorretora, Setup, Alavancagem);
    if |df| <= PularVelas {
      return;
    }
    var i := PularVelas;
    while i < |df|
      invariant PularVelas <= i <= |df|
      invariant resultados.Valid() && resultados.Cfg() == Cfg()
      invariant Replay(pos, resultados.State()) == Executa(df, pc, i)
    {
      pos := ExecutarLinha(df, engolfos, pc, i, resultados, pos);
      i := Proxima(i);
    }
    assert i == |df|;
  }

  // ---------------------------------------------------------------------
  // What a step does

  /** A long is closed at the target before the stop is looked at, and
      stays open while the last candle touches neither. */
  lemma DecideSaidas(l: Leitura, p: Posicao, pc: Percentuais)
    requires p.estado == Comprado
    ensures var d, c := Decide(l, p, pc), l.ultima;
      && (c.high >= p.alvo ==> d.chamada == Ganho(pc.lucroNaCompra(p.entrada, p.alvo)))
      && ((c.high < p.alvo && c.low <= p.stop) ==> d.chamada == Perda(pc.perdaNaCompra(p.entrada, p.stop)))
      && (d.pos == p <==> c.high < p.alvo && c.low > p.stop)
  {
  }

  /** A long is entered exactly when the signal candle is a bullish
      engulfing of the row before it, or closes above both EMAs, and the
      last candle breaks its high; it is entered at that high, with the
      stop at the lowest low of the window (on a well-formed signal candle,
      at or below the entry) and the target 4.5 risks above the entry. */
  lemma DecideEntrada(l: Leitura, p: Posicao, pc: Percentuais)
    requires p.estado == DeFora
    ensures var d := Decide(l, p, pc);
      && (d.pos.estado == Comprado <==>
            (l.engolfoSinal || (l.sinal.close > l.emaRapidaSinal && l.sinal.close > l.emaLentaSinal))
            && l.ultima.high > l.sinal.high)
      && d.pos.estado != Vendido
      && (d.pos.estado == Comprado ==>
            d.pos.entrada == l.sinal.high && d.pos.stop == l.minima
            && d.pos.alvo - d.pos.entrada == (d.pos.entrada - d.pos.stop) * RiscoRetorno)
  {
  }

  /** An entry is ordered: stop, entry, target. */
  lemma DecideArma(l: Leitura, p: Posicao, pc: Percentuais)
    requires Ordenada(p) && WellFormed(l.sinal) && l.minima <= l.sinal.low
    ensures Ordenada(Decide(l, p, pc).pos)
  {
  }

  // ---------------------------------------------------------------------
  // What the replay guarantees

  /** The replay is long-only: it never holds a short. */
  lemma {:induction false} ExecutaSoCompra(df: seq<Carregada>, pc: Percentuais, k: nat)
    requires k <= |df|
    ensures Executa(df, pc, k).pos.estado != Vendido
    decreases k
  {
    if k > PularVelas {
      var j := Anterior(k);
      ExecutaSoCompra(df, pc, j);
      var r := Executa(df, pc, j);
      assert Executa(df, pc, k).pos == Decide(Ler(df, j), r.pos, pc).pos;
    }
  }

  /** On well-formed candles every position the replay holds has its stop
      at or below the entry and its target at or above. */
  lemma {:induction false} ExecutaOrdenada(df: seq<Carregada>, pc: Percentuais, k: nat)
    requires k <= |df| && AllWellFormed(VelasCarregadas(df))
    ensures Ordenada(Executa(df, pc, k).pos)
    decreases k
  {
    if k > PularVelas {
      var j := Anterior(k);
      ExecutaOrdenada(df, pc, j);
      var r := Executa(df, pc, j);
      var l := Ler(df, j);
      assert Executa(df, pc, k).pos == Decide(l, r.pos, pc).pos;
      assert WellFormed(VelasCarregadas(df)[j - 2]);
      DecideArma(l, r.pos, pc);
    }
  }

  /** Each step keeps the ledger's invariants, so update_on_loss never
      raises. */
  lemma LinhaMantemInv(df: seq<Carregada>, pc: Percentuais, i: nat, r: Replay)
    requires PularVelas <= i < |df|
    requires Inv(Cfg(), r.livro)
    ensures Inv(Cfg(), Linha(df, pc, i, r).livro)
  {
    var key := (df[i - 1].barra.ano, df[i - 1].barra.mes);
    WithMonthKeepsInv(Cfg(), r.livro, key);
    RegistraNuncaFalha(Cfg(), WithMonth(r.livro, key), key, Decide(Ler(df, i), r.pos, pc).chamada);
  }

  /** After any number of steps the ledger satisfies its invariants. */
  lemma {:induction false} ExecutaMantemInv(df: seq<Carregada>, pc: Percentuais, k: nat)
    requires k <= |df|
    ensures Inv(Cfg(), Executa(df, pc, k).livro)
    decreases k
  {
    if k <= PularVelas {
      InitialSatisfiesInv(Cfg());
    } else {
      var j := Anterior(k);
      ExecutaMantemInv(df, pc, j);
      assert Executa(df, pc, k) == Linha(df, pc, j, Executa(df, pc, j));
      LinhaMantemInv(df, pc, j, Executa(df, pc, j));
    }
  }

  /** The steps before k that opened a trade. */
  function Entradas(df: seq<Carregada>, pc: Percentuais, k: nat): (n: nat)
    requires k <= |df|
    decreases k
  {
    if k <= PularVelas then 0
    else
      var antes := Executa(df, pc, Anterior(k));
      Entradas(df, pc, Anterior(k)) + (if antes.pos.estado == DeFora && Executa(df, pc, k).pos.estado != DeFora then 1 else 0)
  }

  /** A step adds one to the summary's trade count exactly when it enters. */
  lemma LinhaContaEntrada(df: seq<Carregada>, pc: Percentuais, i: nat, r: Replay)
    requires PularVelas <= i < |df|
    requires OrderMatches(r.livro) && r.livro.maxBalance > 0.0
    ensures OrderMatches(Linha(df, pc, i, r).livro)
    ensures SumOver(Linha(df, pc, i, r).livro.order, Linha(df, pc, i, r).livro.results, OpenTrades)
            == SumOver(r.livro.order, r.livro.results, OpenTrades)
               + (if r.pos.estado == DeFora && Linha(df, pc, i, r).pos.estado != DeFora then 1.0 else 0.0)
  {
    var key := (df[i - 1].barra.ano, df[i - 1].barra.mes);
    RegistraContaAberturas(Cfg(), r.livro, key, Decide(Ler(df, i), r.pos, pc).chamada);
  }

  /** The ledger's open-trade counters add up to the number of entries. */
  lemma {:induction false} ExecutaContaAberturas(df: seq<Carregada>, pc: Percentuais, k: nat)
    requires k <= |df|
    ensures OrderMatches(Executa(df, pc, k).livro)
    ensures SumOver(Executa(df, pc, k).livro.order, Executa(df, pc, k).livro.results, OpenTrades) == Entradas(df, pc, k) as real
    decreases k
  {
    if k > PularVelas {
      ExecutaContaAberturas(df, pc, Anterior(k));
      PassoContaAbertura(df, pc, k);
    }
  }

  /** The inductive step of ExecutaContaAberturas. */
  lemma PassoContaAbertura(df: seq<Carregada>, pc: Percentuais, k: nat)
    requires PularVelas < k <= |df|
    requires OrderMatches(Executa(df, pc, Anterior(k)).livro)
    requires SumOver(Executa(df, pc, Anterior(k)).livro.order, Executa(df, pc, Anterior(k)).livro.results, OpenTrades)
             == Entradas(df, pc, Anterior(k)) as real
    ensures OrderMatches(Executa(df, pc, k).livro)
    ensures SumOver(Executa(df, pc, k).livro.order, Executa(df, pc, k).livro.results, OpenTrades) == Entradas(df, pc, k) as real
  {
    var j := Anterior(k);
    var r := Executa(df, pc, j);
    var r2 := Executa(df, pc, k);
    assert r2 == Linha(df, pc, j, r);
    assert Entradas(df, pc, k) == Entradas(df, pc, j) + (if r.pos.estado == DeFora && r2.pos.estado != DeFora then 1 else 0);
    ExecutaMantemInv(df, pc, j);
    LinhaContaEntrada(df, pc, j, r);
  }

  /** The summary's trade count is the number of entries. */
  lemma ExecutaContaEntradas(df: seq<Carregada>, pc: Percentuais)
    ensures OrderMatches(Executa(df, pc, |df|).livro)
    ensures Summarize(Cfg(), Executa(df, pc, |df|).livro).trades == Entradas(df, pc, |df|) as real
  {
    ExecutaContaAberturas(df, pc, |df|);
  }

  // ---------------------------------------------------------------------
  // No lookahead

  lemma JanelaLocal(df: seq<Carregada>, df2: seq<Carregada>, i: nat)
    requires VelasStop <= i <= |df| && i <= |df2|
    requires forall t :: 0 <= t < i ==> df[t] == df2[t]
    ensures VelasCarregadas(df)[i - VelasStop..i] == VelasCarregadas(df2)[i - VelasStop..i]
  {
    var w, w2 := VelasCarregadas(df)[i - VelasStop..i], VelasCarregadas(df2)[i - VelasStop..i];
    forall t | 0 <= t < VelasStop
      ensures w[t] == w2[t]
    {
      assert w[t] == df[i - VelasStop + t].barra.candle;
    }
  }

  /** Step i reads the rows before i only. */
  lemma LerLocal(df: seq<Carregada>, df2: seq<Carregada>, i: nat)
    requires PularVelas <= i < |df| && i < |df2|
    requires forall t :: 0 <= t < i ==> df[t] == df2[t]
    ensures Ler(df, i) == Ler(df2, i)
  {
    JanelaLocal(df, df2, i);
  }

  /** The state after the steps before k is fixed by the rows before
      k - 1. */
  lemma {:induction false} ExecutaLocal(df: seq<Carregada>, df2: seq<Carregada>, pc: Percentuais, k: nat)
    requires 0 < k <= |df| && k <= |df2|
    requires forall t :: 0 <= t < k - 1 ==> df[t] == df2[t]
    ensures Executa(df, pc, k) == Executa(df2, pc, k)
    decreases k
  {
    if k > PularVelas {
      var j := Anterior(k);
      ExecutaLocal(df, df2, pc, j);
      assert Executa(df, pc, k) == Linha(df, pc, j, Executa(df, pc, j));
      assert Executa(df2, pc, k) == Linha(df2, pc, j, Executa(df2, pc, j));
      LerLocal(df, df2, j);
    }
  }
}
