/**
  What the back-test replays share: the rows they read (a candle together
  with the calendar fields the scripts take from its open_time), the open
  position their loop variables describe, and the one ledger call a row can
  end with after initialize_month.
*/
module ReplayComum {
  import opened Wrappers
  import opened Candles
  import opened EstadoTrade
  import opened ResultsLedger

  /** One row of the frame. `data` is open_time.date() as a day number,
      `ano` and `mes` are open_time.year and open_time.month; the calendar
      conversion itself is done by pandas. */
  datatype Barra = Barra(candle: Candle, data: int, ano: int, mes: int)

  function Velas(df: seq<Barra>): (r: seq<Candle>)
    ensures |r| == |df| && forall i :: 0 <= i < |df| ==> r[i] == df[i].candle
  {
    seq(|df|, i requires 0 <= i < |df| => df[i].candle)
  }

  /** A row of the frame carregar_dados_historicos returns to the lw
      replays: the candle with its calendar fields and the two EMA columns
      that function adds (EMA_5 and EMA_15). That function is not part of
      this model, so the columns are given with the row. */
  datatype Carregada = Carregada(barra: Barra, emaRapida: real, emaLenta: real)

  function VelasCarregadas(df: seq<Carregada>): (r: seq<Candle>)
    ensures |r| == |df| && forall i :: 0 <= i < |df| ==> r[i] == df[i].barra.candle
  {
    seq(|df|, i requires 0 <= i < |df| => df[i].barra.candle)
  }

  /** calcula_percentual_lucro_na_compra, calcula_percentual_perda_na_compra
      and their short-side twins, each applied to (entry, exit price). The
      lw replays import them from utilidades, which does not define them in
      this repository, so they are parameters. */
  datatype Percentuais = Percentuais(
    lucroNaCompra: (real, real) -> real, perdaNaCompra: (real, real) -> real,
    lucroNaVenda: (real, real) -> real, perdaNaVenda: (real, real) -> real)

  /** Exchange prices are positive; the percentages divide by the entry price. */
  predicate Positivos(df: seq<Barra>) {
    forall i :: 0 <= i < |df| ==> df[i].candle.low > 0.0 && df[i].candle.high > 0.0
  }

  /** estado_de_trade, preco_entrada, preco_stop, preco_alvo. */
  datatype Posicao = Posicao(estado: Estado, entrada: real, stop: real, alvo: real)

  /** The values the scripts start from: out of the market, prices 0. */
  const Fora := Posicao(DeFora, 0.0, 0.0, 0.0)

  /** An open position has a positive entry price. */
  predicate Aberta(p: Posicao) {
    p.estado != DeFora ==> p.entrada > 0.0
  }

  /** A long has its stop at or below the entry and its target at or above;
      a short the other way round. */
  predicate Ordenada(p: Posicao) {
    && (p.estado == Comprado ==> p.stop <= p.entrada <= p.alvo)
    && (p.estado == Vendido ==> p.alvo <= p.entrada <= p.stop)
  }

  /** The ledger call a row makes after initialize_month, if any. */
  datatype Chamada = Nenhuma | Abertura | Ganho(valor: real) | Perda(valor: real)

  /** The ledger after the call. update_on_loss raises when the peak balance
      is zero; the state it leaves then is the one before the division
      (RegistraNuncaFalha shows the replays never get there). */
  function Registra(cfg: Config, l: Ledger, key: MonthKey, c: Chamada): Ledger {
    match c
    case Nenhuma => l
    case Abertura => OnTradeOpen(cfg, l, key)
    case Ganho(v) => OnGain(l, key, v)
    case Perda(v) =>
      var r := OnLoss(l, key, v);
      if r.Ok? then r.value else LossBeforeDrawdown(l, key, v)
  }

  /** With a positive initial balance the ledger invariants hold after every
      call, update_on_loss never raises, and the maximum drawdown never
      decreases. */
  lemma RegistraNuncaFalha(cfg: Config, l: Ledger, key: MonthKey, c: Chamada)
    requires Inv(cfg, l) && cfg.initialBalance > 0.0
    ensures c.Perda? ==> OnLoss(l, key, c.valor).Ok?
    ensures Inv(cfg, Registra(cfg, l, key, c))
    ensures Registra(cfg, l, key, c).maxDrawdown >= l.maxDrawdown
  {
    match c
    case Nenhuma =>
    case Abertura => OnTradeOpenKeepsInv(cfg, l, key);
    case Ganho(v) => OnGainKeepsInv(cfg, l, key, v);
    case Perda(v) => OnLossKeepsInv(cfg, l, key, v);
  }

  /** A row's calls (initialize_month, then the decision's call) add one to
      the summary's trade count exactly when the call is an opening. */
  lemma RegistraContaAberturas(cfg: Config, l: Ledger, key: MonthKey, c: Chamada)
    requires OrderMatches(l)
    requires c.Perda? ==> l.maxBalance > 0.0
    ensures OrderMatches(Registra(cfg, WithMonth(l, key), key, c))
    ensures SumOver(Registra(cfg, WithMonth(l, key), key, c).order, Registra(cfg, WithMonth(l, key), key, c).results, OpenTrades)
            == SumOver(l.order, l.results, OpenTrades) + (if c.Abertura? then 1.0 else 0.0)
  {
    var m := WithMonth(l, key);
    WithMonthSum(l, key, OpenTrades);
    match c
    case Nenhuma =>
    case Abertura => OnTradeOpenCounts(cfg, m, key, OpenTrades);
    case Ganho(v) => OnGainCounts(m, key, v, OpenTrades);
    case Perda(v) => OnLossCounts(m, key, v, OpenTrades);
  }

  /** Makes the decision's call on the ResultsManager object. */
  method Registrar(resultados: ResultsManager, key: MonthKey, c: Chamada)
    requires resultados.Valid()
    modifies resultados
    ensures resultados.Valid()
    ensures resultados.State() == Registra(resultados.Cfg(), old(resultados.State()), key, c)
  {
    match c
    case Nenhuma =>
    case Abertura =>
      resultados.UpdateOnTradeOpen(key.0, key.1);
    case Ganho(v) =>
      resultados.UpdateOnGain(key.0, key.1, v);
    case Perda(v) =>
      var raised := resultados.UpdateOnLoss(key.0, key.1, v);
  }
}
