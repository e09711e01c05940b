/**
  backtesting.py: a replay of the "9.1" setup over hourly candles. Out of
  the market, a row opens a long when the closes have stayed above the EMA 9
  for at least nine candles, the previous close is above the EMAs 9, 21 and
  200, the RSI is below 70, the volume is above its EMA 20 and the high
  breaks the previous high (a short mirrors every test). The stop is the
  extreme of the last 17 candles and the target 5.1 times the risk away.
  In a trade, a row closes it at the target or, failing that, at the stop,
  compounds the balance and tells the ResultsManager.

  contar_candles_consecutivos does not count what its callers need (see
  ContagemComoEscritaDescreveOInicio). The replay reads the count as
  written (Varredura); ContarRecentes is the count evidently meant, and
  SeguidasAcimaSignifica states what it measures.
*/
module Backtesting {
  import opened Wrappers
  import opened Candles
  import opened EstadoTrade
  import opened ResultsLedger
  import opened ReplayComum
  import FuncoesBybit
  import Osc = IndicadoresOsciladores

  const SaldoInicial: real := 1000.0
  const RiscoRetorno: real := 5.1
  const VelasStop: nat := 17
  const TaxaCorretora: real := 0.055
  const Alavancagem: real := 2.0
  const VelasMinimasAcima: nat := 9
  const Setup: string := "trade estruturado de risco/retorno com duas emas e técnica 9.1 de Larry Williams"

  /** The loop runs over range(max(200, qntd_velas_stop) + 1, len(df)). */
  const Inicio: nat := (if 200 >= VelasStop then 200 else VelasStop) + 1

  /** ResultsManager(saldo, taxa_corretora, setup): the leverage keeps its
      default of 1, whatever alavancagem is. */
  function Cfg(): Config {
    Config(SaldoInicial, TaxaCorretora, Setup, 1.0)
  }

  // ---------------------------------------------------------------------
  // Indicators

  /** compute_rsi(close, 14) at row i. rs divides by the average loss with
      0 replaced by NaN, and fillna(100) is applied to the index, so the
      warm-up rows and the rows without losses read 100. */
  function ComputeRsi(closes: seq<real>, i: nat): (r: real)
    requires i < |closes|
    ensures 0.0 <= r <= 100.0
    ensures r == 100.0 <==>
      i + 1 < 14 || Osc.RollingMean(Osc.Losses(closes), 14, i).value == 0.0
    ensures r < 100.0 ==> Osc.RsiAt(closes, 14, i) == Some(r)
  {
    if i + 1 < 14 then 100.0
    else
      var gain := Osc.RollingMean(Osc.Gains(closes), 14, i).value;
      var loss := Osc.RollingMean(Osc.Losses(closes), 14, i).value;
      Osc.RsiBounds(closes, 14, i);
      if loss == 0.0 then 100.0
      else
        Osc.ShareOfTotal(gain, loss);
        100.0 - 100.0 / (1.0 + gain / loss)
  }

  /** The columns the script adds before the loop. */
  datatype Colunas = Colunas(ema9: seq<real>, ema21: seq<real>, ema200: seq<real>, rsi: seq<real>, volumeEma20: seq<real>)

  function Indicadores(df: seq<Barra>): (c: Colunas)
    ensures |c.ema9| == |c.ema21| == |c.ema200| == |c.rsi| == |c.volumeEma20| == |df|
  {
    var fech := Closes(Velas(df));
    Colunas(
      FuncoesBybit.EmaColumn(fech, 9),
      FuncoesBybit.EmaColumn(fech, 21),
      FuncoesBybit.EmaColumn(fech, 200),
      seq(|df|, i requires 0 <= i < |df| => ComputeRsi(fech, i)),
      FuncoesBybit.EmaColumn(Volumes(Velas(df)), 20))
  }

  // ---------------------------------------------------------------------
  // contar_candles_consecutivos

  /** The loop of contar_candles_consecutivos once rows j .. index - 1 are
      done, with the counters it has then: a row above the EMA adds to
      `acima` and clears `abaixo`, a row below does the opposite, and a row
      on the EMA ends the loop. */
  function Varredura(fech: seq<real>, ema: seq<real>, j: nat, acima: nat, abaixo: nat): (nat, nat)
    requires j <= |fech| && j <= |ema|
    decreases j
  {
    if j == 0 then (acima, abaixo)
    else if fech[j - 1] > ema[j - 1] then Varredura(fech, ema, j - 1, acima + 1, 0)
    else if fech[j - 1] < ema[j - 1] then Varredura(fech, ema, j - 1, 0, abaixo + 1)
    else (acima, abaixo)
  }

  /** contar_candles_consecutivos(df, index, ema), on the close column and
      the EMA column it reads. */
  method ContarCandlesConsecutivos(fech: seq<real>, ema: seq<real>, index: nat) returns (acima: nat, abaixo: nat)
    requires index <= |fech| && index <= |ema|
    ensures (acima, abaixo) == Varredura(fech, ema, index, 0, 0)
    ensures acima == 0 || abaixo == 0
    ensures acima + abaixo <= index
  {
    acima, abaixo := 0, 0;
    var i: nat := index;
    while i > 0
      invariant i <= index
      invariant Varredura(fech, ema, i, acima, abaixo) == Varredura(fech, ema, index, 0, 0)
      decreases i
    {
      if fech[i - 1] > ema[i - 1] {
        acima, abaixo := acima + 1, 0;
      } else if fech[i - 1] < ema[i - 1] {
        acima, abaixo := 0, abaixo + 1;
      } else {
        break;
      }
      i := i - 1;
    }
    VarreduraLimitada(fech, ema, index, 0, 0);
  }

  /** At most one counter is non-zero, and together they never exceed the
      rows scanned. */
  lemma {:induction false} VarreduraLimitada(fech: seq<real>, ema: seq<real>, j: nat, acima: nat, abaixo: nat)
    requires j <= |fech| && j <= |ema|
    requires acima == 0 || abaixo == 0
    ensures Varredura(fech, ema, j, acima, abaixo).0 == 0 || Varredura(fech, ema, j, acima, abaixo).1 == 0
    ensures Varredura(fech, ema, j, acima, abaixo).0 + Varredura(fech, ema, j, acima, abaixo).1 <= acima + abaixo + j
    decreases j
  {
    if j > 0 {
      if fech[j - 1] > ema[j - 1] {
        VarreduraLimitada(fech, ema, j - 1, acima + 1, 0);
      } else if fech[j - 1] < ema[j - 1] {
        VarreduraLimitada(fech, ema, j - 1, 0, abaixo + 1);
      }
    }
  }

  /** Consecutive rows closing above the EMA that end at row j - 1. */
  function SeguidasAcima(fech: seq<real>, ema: seq<real>, j: nat): (n: nat)
    requires j <= |fech| && j <= |ema|
    ensures n <= j
    ensures n > 0 ==> fech[j - 1] > ema[j - 1]
    decreases j
  {
    if j == 0 || !(fech[j - 1] > ema[j - 1]) then 0 else 1 + SeguidasAcima(fech, ema, j - 1)
  }

  /** Consecutive rows closing below the EMA that end at row j - 1. */
  function SeguidasAbaixo(fech: seq<real>, ema: seq<real>, j: nat): (n: nat)
    requires j <= |fech| && j <= |ema|
    ensures n <= j
    ensures n > 0 ==> fech[j - 1] < ema[j - 1]
    decreases j
  {
    if j == 0 || !(fech[j - 1] < ema[j - 1]) then 0 else 1 + SeguidasAbaixo(fech, ema, j - 1)
  }

  /** The count the entry tests need: the run above (below) the EMA that
      ends at the row before `index`. */
  function ContarRecentes(fech: seq<real>, ema: seq<real>, index: nat): (r: (nat, nat))
    requires index <= |fech| && index <= |ema|
    ensures r.0 == 0 || r.1 == 0
    ensures r.0 + r.1 <= index
  {
    (SeguidasAcima(fech, ema, index), SeguidasAbaixo(fech, ema, index))
  }

  /** The run above the EMA has at least n rows exactly when each of the n
      rows before j closed above it. */
  lemma {:induction false} SeguidasAcimaSignifica(fech: seq<real>, ema: seq<real>, j: nat, n: nat)
    requires j <= |fech| && j <= |ema|
    ensures SeguidasAcima(fech, ema, j) >= n <==> n <= j && forall k :: j - n <= k < j ==> fech[k] > ema[k]
    decreases j
  {
    if n > 0 && j > 0 && fech[j - 1] > ema[j - 1] {
      SeguidasAcimaSignifica(fech, ema, j - 1, n - 1);
    }
  }

  /** The mirror image for the run below the EMA. */
  lemma {:induction false} SeguidasAbaixoSignifica(fech: seq<real>, ema: seq<real>, j: nat, n: nat)
    requires j <= |fech| && j <= |ema|
    ensures SeguidasAbaixo(fech, ema, j) >= n <==> n <= j && forall k :: j - n <= k < j ==> fech[k] < ema[k]
    decreases j
  {
    if n > 0 && j > 0 && fech[j - 1] < ema[j - 1] {
      SeguidasAbaixoSignifica(fech, ema, j - 1, n - 1);
    }
  }

  /** The counts at `index` read only the rows before it. */
  lemma {:induction false} SeguidasLocais(fech: seq<real>, ema: seq<real>, fech2: seq<real>, ema2: seq<real>, j: nat)
    requires j <= |fech| && j <= |ema| && j <= |fech2| && j <= |ema2|
    requires forall k :: 0 <= k < j ==> fech[k] == fech2[k] && ema[k] == ema2[k]
    ensures ContarRecentes(fech, ema, j) == ContarRecentes(fech2, ema2, j)
    decreases j
  {
    if j > 0 {
      SeguidasLocais(fech, ema, fech2, ema2, j - 1);
    }
  }

  /** The scan as written reads only the rows before j. */
  lemma {:induction false} VarreduraLocal(fech: seq<real>, ema: seq<real>, fech2: seq<real>, ema2: seq<real>,
                                          j: nat, acima: nat, abaixo: nat)
    requires j <= |fech| && j <= |ema| && j <= |fech2| && j <= |ema2|
    requires forall k :: 0 <= k < j ==> fech[k] == fech2[k] && ema[k] == ema2[k]
    ensures Varredura(fech, ema, j, acima, abaixo) == Varredura(fech2, ema2, j, acima, abaixo)
    decreases j
  {
    if j > 0 {
      if fech[j - 1] > ema[j - 1] {
        VarreduraLocal(fech, ema, fech2, ema2, j - 1, acima + 1, 0);
      } else if fech[j - 1] < ema[j - 1] {
        VarreduraLocal(fech, ema, fech2, ema2, j - 1, 0, abaixo + 1);
      }
    }
  }

  /** contar_candles_consecutivos keeps scanning after the direction flips,
      so it reports the oldest run it reaches, not the newest. Here the
      last row closes above the EMA after a row below it, and the function
      still reports nine rows above (the run of rows 1-9; row 0 sits on the
      EMA, as the first row of any EMA column does). */
  lemma ContagemComoEscritaDescreveOInicio()
    ensures var fech := [1.0, 2.0, 2.0, 2.0, 2.0, 2.0, 2.0, 2.0, 2.0, 2.0, 0.0, 2.0];
            var ema := [1.0, 1.0, 1.0, 1.0, 1.0, 1.0, 1.0, 1.0, 1.0, 1.0, 1.0, 1.0];
            && Varredura(fech, ema, 12, 0, 0) == (9, 0)
            && ContarRecentes(fech, ema, 12) == (1, 0)
  {
    var fech := [1.0, 2.0, 2.0, 2.0, 2.0, 2.0, 2.0, 2.0, 2.0, 2.0, 0.0, 2.0];
    var ema := [1.0, 1.0, 1.0, 1.0, 1.0, 1.0, 1.0, 1.0, 1.0, 1.0, 1.0, 1.0];
    assert Varredura(fech, ema, 1, 9, 0) == (9, 0);
    assert Varredura(fech, ema, 5, 5, 0) == (9, 0);
    assert Varredura(fech, ema, 10, 0, 0) == (9, 0);
    assert Varredura(fech, ema, 12, 0, 0) == (9, 0);
    assert SeguidasAcima(fech, ema, 11) == 0;
  }

  // ---------------------------------------------------------------------
  // One row of the loop

  /** What row i looks at: its candle and the previous one, the indicator
      values the tests compare, the runs before it and the extremes of the
      17 candles before it. */
  datatype Leitura = Leitura(
    vela: Candle, anterior: Candle,
    ema9: real, ema21: real, ema200: real, rsi: real, volumeEma20: real,
    acima: nat, abaixo: nat, minima: real, maxima: real)

  function Ler(df: seq<Barra>, cols: Colunas, i: nat): (l: Leitura)
    requires cols == Indicadores(df)
    requires Inicio <= i < |df|
    ensures l.minima <= df[i - 1].candle.low && l.maxima >= df[i - 1].candle.high
    ensures l.acima == 0 || l.abaixo == 0
    ensures l.acima + l.abaixo <= i
  {
    var janela := Velas(df)[i - VelasStop..i];
    var contagem := Varredura(Closes(Velas(df)), cols.ema9, i, 0, 0);
    VarreduraLimitada(Closes(Velas(df)), cols.ema9, i, 0, 0);
    assert janela[VelasStop - 1] == df[i - 1].candle;
    Leitura(df[i].candle, df[i - 1].candle,
            cols.ema9[i - 1], cols.ema21[i - 1], cols.ema200[i - 1], cols.rsi[i], cols.volumeEma20[i],
            contagem.0, contagem.1, Min(Lows(janela)), Max(Highs(janela)))
  }

  datatype Decisao = Decisao(pos: Posicao, saldo: real, chamada: Chamada)

  /** The exits and entries of a row, after initialize_month. An exit leaves
      the prices as they were; only the state changes. */
  function Decide(l: Leitura, p: Posicao, saldo: real): (d: Decisao)
    requires Aberta(p) && l.anterior.low > 0.0 && l.anterior.high > 0.0
    ensures Aberta(d.pos)
    ensures d.chamada.Abertura? <==> p.estado == DeFora && d.pos.estado != DeFora
    ensures d.chamada.Ganho? || d.chamada.Perda? <==> p.estado != DeFora && d.pos.estado == DeFora
  {
    var c := l.vela;
    var ant := l.anterior;
    match p.estado
    case Comprado =>
      if c.high >= p.alvo then
        var pct := ((p.alvo - p.entrada) / p.entrada) * 100.0 * Alavancagem - TaxaCorretora * 2.0;
        Decisao(p.(estado := DeFora), saldo + saldo * (pct / 100.0), Ganho(pct))
      else if c.low <= p.stop then
        var pct := ((p.entrada - p.stop) / p.entrada) * 100.0 * Alavancagem + TaxaCorretora * 2.0;
        Decisao(p.(estado := DeFora), saldo - saldo * (pct / 100.0), Perda(pct))
      else Decisao(p, saldo, Nenhuma)
    case Vendido =>
      if c.low <= p.alvo then
        var pct := ((p.entrada - p.alvo) / p.entrada) * 100.0 * Alavancagem - TaxaCorretora * 2.0;
        Decisao(p.(estado := DeFora), saldo + saldo * (pct / 100.0), Ganho(pct))
      else if c.high >= p.stop then
        var pct := ((p.stop - p.entrada) / p.entrada) * 100.0 * Alavancagem + TaxaCorretora * 2.0;
        Decisao(p.(estado := DeFora), saldo - saldo * (pct / 100.0), Perda(pct))
      else Decisao(p, saldo, Nenhuma)
    case DeFora =>
      if && l.acima >= VelasMinimasAcima
         && ant.close > l.ema9 && ant.close > l.ema21 && ant.close > l.ema200
         && l.rsi < 70.0 && c.volume > l.volumeEma20 && c.high > ant.high
      then
        var entrada := ant.high;
        Decisao(Posicao(Comprado, entrada, l.minima, entrada + (entrada - l.minima) * RiscoRetorno), saldo, Abertura)
      else if && l.abaixo >= VelasMinimasAcima
              && ant.close < l.ema9 && ant.close < l.ema21 && ant.close < l.ema200
              && l.rsi > 30.0 && c.volume > l.volumeEma20 && c.low < ant.low
      then
        var entrada := ant.low;
        Decisao(Posicao(Vendido, entrada, l.maxima, entrada - (l.maxima - entrada) * RiscoRetorno), saldo, Abertura)
      else Decisao(p, saldo, Nenhuma)
  }

  /** What the loop variables and the ledger hold between rows. */
  datatype Replay = Replay(pos: Posicao, saldo: real, livro: Ledger)

  function Inicial(): Replay {
    Replay(Fora, SaldoInicial, Initial(Cfg()))
  }

  /** One pass of the loop body: initialize_month, then the decision and
      its ledger call. */
  function Linha(df: seq<Barra>, cols: Colunas, i: nat, r: Replay): (s: Replay)
    requires cols == Indicadores(df)
    requires Inicio <= i < |df| && Positivos(df) && Aberta(r.pos)
    ensures Aberta(s.pos)
  {
    var key := (df[i].ano, df[i].mes);
    var d := Decide(Ler(df, cols, i), r.pos, r.saldo);
    Replay(d.pos, d.saldo, Registra(Cfg(), WithMonth(r.livro, key), key, d.chamada))
  }

  /** The state after the rows before k. */
  function Executa(df: seq<Barra>, k: nat): (r: Replay)
    requires k <= |df| && Positivos(df)
    ensures Aberta(r.pos)
    decreases k
  {
    if k <= Inicio then Inicial()
    else Linha(df, Indicadores(df), Anterior(k), Executa(df, Anterior(k)))
  }

  /** The index of the row after i. */
  function Proxima(i: nat): nat {
    i + 1
  }

  /** The index of the row before k. */
  function Anterior(k: nat): nat
    requires k > 0
  {
    k - 1
  }

  lemma AnteriorDaProxima(i: nat)
    ensures Anterior(Proxima(i)) == i
  {
  }

  lemma ExecutaAvanca(df: seq<Barra>, i: nat)
    requires Inicio <= i < |df| && Positivos(df)
    ensures Executa(df, Proxima(i)) == Linha(df, Indicadores(df), i, Executa(df, i))
  {
    AnteriorDaProxima(i);
  }

  /** The body of the loop for row i, on the loop variables and the ledger
      object. */
  method ExecutarLinha(df: seq<Barra>, cols: Colunas, i: nat, resultados: ResultsManager, pos: Posicao, saldo: real)
    returns (pos': Posicao, saldo': real)
    requires cols == Indicadores(df)
    requires Inicio <= i < |df| && Positivos(df) && Aberta(pos)
    requires resultados.Valid() && resultados.Cfg() == Cfg()
    modifies resultados
    ensures resultados.Valid()
    ensures Replay(pos', saldo', resultados.State()) == Linha(df, cols, i, Replay(pos, saldo, old(resultados.State())))
  {
    resultados.InitializeMonth(df[i].ano, df[i].mes);
    var d := Decide(Ler(df, cols, i), pos, saldo);
    pos', saldo' := d.pos, d.saldo;
    Registrar(resultados, (df[i].ano, df[i].mes), d.chamada);
  }

  /** The loop of the script over the whole frame; returns the ledger object
      and the final saldo. */
  method ExecutarBacktest(df: seq<Barra>) returns (resultados: ResultsManager, saldo: real)
    requires Positivos(df)
    ensures fresh(resultados) && resultados.Valid() && resultados.Cfg() == Cfg()
    ensures resultados.State() == Executa(df, |df|).livro
    ensures saldo == Executa(df, |df|).saldo
  {
    var cols := Indicadores(df);
    var pos := Fora;
    saldo := SaldoInicial;
    resultados := new ResultsManager(SaldoInicial, TaxaCorretora, Setup);
    if |df| <= Inicio {
      return;
    }
    var i := Inicio;
    while i < |df|
      invariant Inicio <= i <= |df|
      invariant resultados.Valid() && resultados.Cfg() == Cfg()
      invariant Replay(pos, saldo, resultados.State()) == Executa(df, i)
    {
      ExecutaAvanca(df, i);
      pos, saldo := ExecutarLinha(df, cols, i, resultados, pos, saldo);
      i := Proxima(i);
    }
    assert i == |df|;
  }

  // ---------------------------------------------------------------------
  // What the replay guarantees

  /** The target sits RiscoRetorno risks beyond the entry, on the other
      side from the stop. */
  predicate Armada(p: Posicao) {
    && Ordenada(p)
    && (p.estado == Comprado ==> p.alvo - p.entrada == (p.entrada - p.stop) * RiscoRetorno)
    && (p.estado == Vendido ==> p.entrada - p.alvo == (p.stop - p.entrada) * RiscoRetorno)
  }

  /** An entry is placed at the previous candle's extreme with the stop
      beyond the window's extreme, so on well-formed candles every open
      position is armed; an exit keeps the prices. */
  lemma DecideArma(l: Leitura, p: Posicao, saldo: real)
    requires Aberta(p) && Armada(p) && l.anterior.low > 0.0 && l.anterior.high > 0.0
    requires l.minima <= l.anterior.low <= l.anterior.high <= l.maxima
    ensures Armada(Decide(l, p, saldo).pos)
  {
  }

  /** The target is examined before the stop, and the percentage an exit
      reports is never below minus the two fees on a target and at least
      the two fees on a stop. */
  lemma DecideSaidas(l: Leitura, p: Posicao, saldo: real)
    requires Aberta(p) && Ordenada(p) && l.anterior.low > 0.0 && l.anterior.high > 0.0
    ensures var d := Decide(l, p, saldo);
      && (d.chamada.Ganho? ==> d.chamada.valor >= -2.0 * TaxaCorretora)
      && (d.chamada.Perda? ==> d.chamada.valor >= 2.0 * TaxaCorretora)
      && (p.estado == Comprado ==> (d.chamada.Ganho? <==> l.vela.high >= p.alvo))
      && (p.estado == Comprado ==> (d.chamada.Perda? <==> l.vela.high < p.alvo && l.vela.low <= p.stop))
      && (p.estado == Vendido ==> (d.chamada.Ganho? <==> l.vela.low <= p.alvo))
      && (p.estado == Vendido ==> (d.chamada.Perda? <==> l.vela.low > p.alvo && l.vela.high >= p.stop))
  {
    match p.estado
    case Comprado =>
      if l.vela.high >= p.alvo {
        PercentualNaoNegativo(p.alvo - p.entrada, p.entrada);
      } else if l.vela.low <= p.stop {
        PercentualNaoNegativo(p.entrada - p.stop, p.entrada);
      }
    case Vendido =>
      if l.vela.low <= p.alvo {
        PercentualNaoNegativo(p.entrada - p.alvo, p.entrada);
      } else if l.vela.high >= p.stop {
        PercentualNaoNegativo(p.stop - p.entrada, p.entrada);
      }
    case DeFora =>
  }

  /** The balance compounds by the percentage the exit reports (a profit
      multiplies it by 1 + pct/100, a loss by 1 - pct/100) and is left alone
      by every other row. */
  lemma DecideCompoe(l: Leitura, p: Posicao, saldo: real)
    requires Aberta(p) && l.anterior.low > 0.0 && l.anterior.high > 0.0
    ensures var d := Decide(l, p, saldo);
      && (d.chamada.Ganho? ==> d.saldo == saldo * (1.0 + d.chamada.valor / 100.0))
      && (d.chamada.Perda? ==> d.saldo == saldo * (1.0 - d.chamada.valor / 100.0))
      && (!d.chamada.Ganho? && !d.chamada.Perda? ==> d.saldo == saldo)
  {
  }

  lemma PercentualNaoNegativo(diferenca: real, entrada: real)
    requires diferenca >= 0.0 && entrada > 0.0
    ensures (diferenca / entrada) * 100.0 * Alavancagem >= 0.0
  {
  }

  /** Each row keeps the ledger's invariants (so update_on_loss never
      raises) and never lowers the maximum drawdown. */
  lemma LinhaMantemInv(df: seq<Barra>, cols: Colunas, i: nat, r: Replay)
    requires cols == Indicadores(df)
    requires Inicio <= i < |df| && Positivos(df) && Aberta(r.pos)
    requires Inv(Cfg(), r.livro)
    ensures Inv(Cfg(), Linha(df, cols, i, r).livro)
    ensures Linha(df, cols, i, r).livro.maxDrawdown >= r.livro.maxDrawdown
  {
    var key := (df[i].ano, df[i].mes);
    WithMonthKeepsInv(Cfg(), r.livro, key);
    var d := Decide(Ler(df, cols, i), r.pos, r.saldo);
    RegistraNuncaFalha(Cfg(), WithMonth(r.livro, key), key, d.chamada);
  }

  /** A row adds one to the summary's trade count exactly when it takes the
      replay from out of the market into a trade. */
  lemma LinhaContaEntrada(df: seq<Barra>, cols: Colunas, i: nat, r: Replay)
    requires cols == Indicadores(df)
    requires Inicio <= i < |df| && Positivos(df) && Aberta(r.pos)
    requires OrderMatches(r.livro) && r.livro.maxBalance > 0.0
    ensures OrderMatches(Linha(df, cols, i, r).livro)
    ensures SumOver(Linha(df, cols, i, r).livro.order, Linha(df, cols, i, r).livro.results, OpenTrades)
            == SumOver(r.livro.order, r.livro.results, OpenTrades)
               + (if r.pos.estado == DeFora && Linha(df, cols, i, r).pos.estado != DeFora then 1.0 else 0.0)
  {
    var key := (df[i].ano, df[i].mes);
    var d := Decide(Ler(df, cols, i), r.pos, r.saldo);
    RegistraContaAberturas(Cfg(), r.livro, key, d.chamada);
  }

  /** After any number of rows the ledger satisfies its invariants. */
  lemma {:induction false} ExecutaMantemInv(df: seq<Barra>, k: nat)
    requires k <= |df| && Positivos(df)
    ensures Inv(Cfg(), Executa(df, k).livro)
    decreases k
  {
    if k <= Inicio {
      InitialSatisfiesInv(Cfg());
    } else {
      var j := Anterior(k);
      ExecutaMantemInv(df, j);
      assert Executa(df, k) == Linha(df, Indicadores(df), j, Executa(df, j));
      LinhaMantemInv(df, Indicadores(df), j, Executa(df, j));
    }
  }

  /** The rows before k at which a trade was opened. */
  function Entradas(df: seq<Barra>, k: nat): (n: nat)
    requires k <= |df| && Positivos(df)
    decreases k
  {
    if k <= Inicio then 0
    else
      var antes := Executa(df, Anterior(k));
      Entradas(df, Anterior(k)) + (if antes.pos.estado == DeFora && Executa(df, k).pos.estado != DeFora then 1 else 0)
  }

  /** The trade count of the summary is the number of entries. */
  lemma {:induction false} ExecutaContaEntradas(df: seq<Barra>, k: nat)
    requires k <= |df| && Positivos(df)
    ensures OrderMatches(Executa(df, k).livro)
    ensures Summarize(Cfg(), Executa(df, k).livro).trades == Entradas(df, k) as real
    decreases k
  {
    if k > Inicio {
      var j := Anterior(k);
      ExecutaContaEntradas(df, j);
      ExecutaMantemInv(df, j);
      assert Executa(df, k) == Linha(df, Indicadores(df), j, Executa(df, j));
      LinhaContaEntrada(df, Indicadores(df), j, Executa(df, j));
    }
  }

  /** On well-formed candles every position the replay holds is armed. */
  lemma {:induction false} ExecutaArmada(df: seq<Barra>, k: nat)
    requires k <= |df| && Positivos(df) && AllWellFormed(Velas(df))
    ensures Armada(Executa(df, k).pos)
    decreases k
  {
    if k > Inicio {
      var j := Anterior(k);
      ExecutaArmada(df, j);
      var r := Executa(df, j);
      var cols := Indicadores(df);
      assert Executa(df, k) == Linha(df, cols, j, r);
      var l := Ler(df, cols, j);
      assert WellFormed(Velas(df)[j - 1]);
      DecideArma(l, r.pos, r.saldo);
    }
  }

  // ---------------------------------------------------------------------
  // No lookahead

  /** The RSI at row i reads the closes up to row i only. */
  lemma ComputeRsiLocal(xs: seq<real>, ys: seq<real>, i: nat)
    requires i < |xs| && i < |ys|
    requires forall t :: 0 <= t <= i ==> xs[t] == ys[t]
    ensures ComputeRsi(xs, i) == ComputeRsi(ys, i)
  {
    if i + 1 >= 14 {
      var a := i + 1 - 14;
      forall j | a <= j <= i
        ensures Osc.Delta(xs, j) == Osc.Delta(ys, j)
      {
      }
      assert Osc.Gains(xs)[a..i + 1] == Osc.Gains(ys)[a..i + 1];
      assert Osc.Losses(xs)[a..i + 1] == Osc.Losses(ys)[a..i + 1];
    }
  }

  /** An EMA column at row i reads the rows up to i only. */
  lemma EmaLocal(xs: seq<real>, ys: seq<real>, span: int, i: nat)
    requires span >= 1 && i < |xs| && i < |ys|
    requires forall t :: 0 <= t <= i ==> xs[t] == ys[t]
    ensures FuncoesBybit.EmaColumn(xs, span)[i] == FuncoesBybit.EmaColumn(ys, span)[i]
  {
    assert xs[..i + 1] == ys[..i + 1];
    FuncoesBybit.EmaNoLookahead(xs, ys, FuncoesBybit.Alpha(span), i);
  }

  /** The indicator values row i reads come from rows 0 .. i. */
  lemma IndicadoresLocais(df: seq<Barra>, df2: seq<Barra>, i: nat)
    requires 0 < i < |df| && i < |df2|
    requires forall t :: 0 <= t <= i ==> df[t] == df2[t]
    ensures var c, c2 := Indicadores(df), Indicadores(df2);
      && c.ema21[i - 1] == c2.ema21[i - 1] && c.ema200[i - 1] == c2.ema200[i - 1]
      && c.rsi[i] == c2.rsi[i] && c.volumeEma20[i] == c2.volumeEma20[i]
      && forall k :: 0 <= k < i ==> c.ema9[k] == c2.ema9[k]
  {
    var xs, ys := Closes(Velas(df)), Closes(Velas(df2));
    var vs, ws := Volumes(Velas(df)), Volumes(Velas(df2));
    EmaLocal(xs, ys, 21, i - 1);
    EmaLocal(xs, ys, 200, i - 1);
    EmaLocal(vs, ws, 20, i);
    ComputeRsiLocal(xs, ys, i);
    forall k | 0 <= k < i
      ensures FuncoesBybit.EmaColumn(xs, 9)[k] == FuncoesBybit.EmaColumn(ys, 9)[k]
    {
      EmaLocal(xs, ys, 9, k);
    }
  }

  lemma JanelaLocal(df: seq<Barra>, df2: seq<Barra>, i: nat)
    requires VelasStop <= i < |df| && i < |df2|
    requires forall t :: 0 <= t <= i ==> df[t] == df2[t]
    ensures Velas(df)[i - VelasStop..i] == Velas(df2)[i - VelasStop..i]
  {
    var w, w2 := Velas(df)[i - VelasStop..i], Velas(df2)[i - VelasStop..i];
    forall t | 0 <= t < VelasStop
      ensures w[t] == w2[t]
    {
      assert w[t] == df[i - VelasStop + t].candle;
    }
  }

  /** Everything row i looks at comes from rows 0 .. i. */
  lemma LerLocal(df: seq<Barra>, df2: seq<Barra>, i: nat)
    requires Inicio <= i < |df| && i < |df2|
    requires forall t :: 0 <= t <= i ==> df[t] == df2[t]
    ensures Ler(df, Indicadores(df), i) == Ler(df2, Indicadores(df2), i)
  {
    var c, c2 := Indicadores(df), Indicadores(df2);
    IndicadoresLocais(df, df2, i);
    VarreduraLocal(Closes(Velas(df)), c.ema9, Closes(Velas(df2)), c2.ema9, i, 0, 0);
    JanelaLocal(df, df2, i);
  }

  /** The replay never looks ahead: its state after k rows is fixed by
      those k rows. */
  lemma {:induction false} ExecutaLocal(df: seq<Barra>, df2: seq<Barra>, k: nat)
    requires k <= |df| && k <= |df2| && Positivos(df) && Positivos(df2)
    requires forall t :: 0 <= t < k ==> df[t] == df2[t]
    ensures Executa(df, k) == Executa(df2, k)
    decreases k
  {
    if k > Inicio {
      var j := Anterior(k);
      ExecutaLocal(df, df2, j);
      assert Executa(df, k) == Linha(df, Indicadores(df), j, Executa(df, j));
      assert Executa(df2, k) == Linha(df2, Indicadores(df2), j, Executa(df2, j));
      LerLocal(df, df2, j);
    }
  }
}
