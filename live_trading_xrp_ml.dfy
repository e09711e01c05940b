/**
  The XRPUSDT bot with the contextual and machine-learning scores on top of
  the quantitative one: the candle colour streaks of the last 15 candles
  give up to 3 contextual points, the model's forecast up to 3 more, and an
  entry needs 10 of the 16 points and more than the other side. The trade
  branch, the stop distance and the order are the XRPUSDT bot's.
*/
module LiveTradingXrpMl {
  import opened Wrappers
  import opened Candles
  import opened EstadoTrade
  import opened FuncoesBybit
  import opened OperacaoAoVivo
  import opened ScoreQuantitativo
  import Xrp = LiveTradingXrp
  import Utilidades
  import Atr

  const ScoreMinimoTotal: nat := 10
  const MinVelasSequencia: nat := 5
  const MaxVelasSequencia: nat := 7
  const ConfiancaMinimaMl: real := 40.0
  const ConfiancaAltaMl: real := 60.0
  const Lookback: nat := 15
  /** ml_retrain_hours = 4, in seconds. */
  const RetreinoSegundos: int := 14400

  // ---------------------------------------------------------------------
  // analisar_sequencia_velas

  /** is_green: a doji counts as red. */
  predicate VelaVerde(c: Candle) { c.close > c.open }

  function Corpo(c: Candle): (b: real)
    ensures b >= 0.0 && (b == c.close - c.open || b == c.open - c.close)
  {
    if c.close >= c.open then c.close - c.open else c.open - c.close
  }

  /** The length of the run of green (verde) or non-green (!verde) candles
      that ends cs: every one of the last n has that colour, and the one
      before them, if any, has not. */
  function Corrida(cs: seq<Candle>, verde: bool): (n: nat)
    ensures n <= |cs|
    ensures forall j :: |cs| - n <= j < |cs| ==> VelaVerde(cs[j]) == verde
    ensures n < |cs| ==> VelaVerde(cs[|cs| - n - 1]) != verde
    decreases |cs|
  {
    if cs == [] || VelaVerde(cs[|cs| - 1]) != verde then 0
    else 1 + Corrida(cs[..|cs| - 1], verde)
  }

  /** A run of k candles of one colour preceded by the other colour (or by
      nothing) is the run Corrida measures. */
  lemma CorridaUnica(cs: seq<Candle>, verde: bool, k: nat)
    requires k <= |cs|
    requires forall j :: |cs| - k <= j < |cs| ==> VelaVerde(cs[j]) == verde
    requires k < |cs| ==> VelaVerde(cs[|cs| - k - 1]) != verde
    ensures Corrida(cs, verde) == k
  {
  }

  /** The run is at least k long exactly when the last k candles all have
      that colour. */
  lemma CorridaAoMenos(cs: seq<Candle>, verde: bool, k: nat)
    requires k <= |cs|
    ensures Corrida(cs, verde) >= k <==> forall j :: |cs| - k <= j < |cs| ==> VelaVerde(cs[j]) == verde
  {
  }

  datatype Sequencia = SequenciaVerde | SequenciaVermelha

  /** The dictionary analisar_sequencia_velas returns. */
  datatype Analise = Analise(verdes: nat, vermelhas: nat, emSequenciaLonga: bool, tipo: Option<Sequencia>,
                             reversaoAlta: bool, reversaoBaixa: bool, exaustao: bool)

  const SemAnalise: Analise := Analise(0, 0, false, None, false, false, false)

  /** Many red candles, RSI under 40, and a green last candle with a larger
      body than the one before. */
  predicate ReversaoAlta(vermelhas: nat, rsi: Option<real>, ultima: Candle, penultima: Candle) {
    vermelhas >= MinVelasSequencia && Below(rsi, 40.0) && VelaVerde(ultima) && Corpo(ultima) > Corpo(penultima)
  }

  /** Many green candles, RSI over 60, and a red last candle with a larger
      body than the one before. */
  predicate ReversaoBaixa(verdes: nat, rsi: Option<real>, ultima: Candle, penultima: Candle) {
    verdes >= MinVelasSequencia && Above(rsi, 60.0) && ultima.close < ultima.open && Corpo(ultima) > Corpo(penultima)
  }

  /** analisar_sequencia_velas(df, lookback=15) as written: both runs are
      counted back from the last candle, and the reversal flags ask for a
      long run of the colour opposite to that very candle. */
  function AnaliseComoEscrita(cs: seq<Candle>, rsi: Option<real>): (a: Analise)
    ensures |cs| < Lookback ==> a == SemAnalise
    ensures a.verdes == 0 || a.vermelhas == 0
  {
    if |cs| < Lookback then SemAnalise
    else
      var w := Tail(cs, Lookback);
      var verdes := Corrida(w, true);
      var vermelhas := Corrida(w, false);
      var ultima := cs[|cs| - 1];
      var penultima := cs[|cs| - 2];
      Analise(verdes, vermelhas,
              verdes >= MinVelasSequencia || vermelhas >= MinVelasSequencia,
              if verdes >= MinVelasSequencia then Some(SequenciaVerde)
              else if vermelhas >= MinVelasSequencia then Some(SequenciaVermelha)
              else None,
              ReversaoAlta(vermelhas, rsi, ultima, penultima),
              ReversaoBaixa(verdes, rsi, ultima, penultima),
              verdes > MaxVelasSequencia || vermelhas > MaxVelasSequencia)
  }

  /** The analysis with the reversal flags as evidently meant: the long run
      is the one that ends just before the last candle. */
  function Analisar(cs: seq<Candle>, rsi: Option<real>): (a: Analise)
    ensures a.verdes == AnaliseComoEscrita(cs, rsi).verdes && a.vermelhas == AnaliseComoEscrita(cs, rsi).vermelhas
    ensures a.exaustao == AnaliseComoEscrita(cs, rsi).exaustao
  {
    var a0 := AnaliseComoEscrita(cs, rsi);
    if |cs| < Lookback then a0
    else
      var antes := Tail(cs, Lookback)[..Lookback - 1];
      a0.(reversaoAlta := ReversaoAlta(Corrida(antes, false), rsi, cs[|cs| - 1], cs[|cs| - 2]),
          reversaoBaixa := ReversaoBaixa(Corrida(antes, true), rsi, cs[|cs| - 1], cs[|cs| - 2]))
  }

  /** The loop of analisar_sequencia_velas, from the last candle back,
      stopping at the first change of colour. Neither reversal flag ever
      comes out true. */
  method AnalisarSequenciaVelas(cs: seq<Candle>, rsi: Option<real>) returns (a: Analise)
    ensures a == AnaliseComoEscrita(cs, rsi)
    ensures !a.reversaoAlta && !a.reversaoBaixa
  {
    if |cs| < Lookback {
      return SemAnalise;
    }
    var w := Tail(cs, Lookback);
    var verdes: nat := 0;
    var vermelhas: nat := 0;
    var i := |w|;
    while i > 0
      invariant 0 <= i <= |w|
      invariant verdes == 0 || vermelhas == 0
      invariant verdes + vermelhas == |w| - i
      invariant forall j :: i <= j < |w| ==> VelaVerde(w[j]) == (verdes > 0)
      decreases i
    {
      if VelaVerde(w[i - 1]) {
        if vermelhas > 0 {
          break;
        }
        verdes := verdes + 1;
      } else {
        if verdes > 0 {
          break;
        }
        vermelhas := vermelhas + 1;
      }
      i := i - 1;
    }
    if verdes > 0 {
      CorridaUnica(w, true, verdes);
      CorridaUnica(w, false, 0);
    } else {
      CorridaUnica(w, false, vermelhas);
      CorridaUnica(w, true, 0);
    }
    var ultima := cs[|cs| - 1];
    var penultima := cs[|cs| - 2];
    a := Analise(verdes, vermelhas,
                 verdes >= MinVelasSequencia || vermelhas >= MinVelasSequencia,
                 if verdes >= MinVelasSequencia then Some(SequenciaVerde)
                 else if vermelhas >= MinVelasSequencia then Some(SequenciaVermelha)
                 else None,
                 ReversaoAlta(vermelhas, rsi, ultima, penultima),
                 ReversaoBaixa(verdes, rsi, ultima, penultima),
                 verdes > MaxVelasSequencia || vermelhas > MaxVelasSequencia);
    ReversaoComoEscritaNunca(cs, rsi);
  }

  /** Over 15 candles or more exactly one run is counted, the one of the
      last candle's colour (a doji counts as red), and neither exceeds the
      15-candle window. */
  lemma ContagemExclusiva(cs: seq<Candle>, rsi: Option<real>)
    requires |cs| >= Lookback
    ensures var a := AnaliseComoEscrita(cs, rsi);
      && (a.verdes >= 1 <==> VelaVerde(cs[|cs| - 1]))
      && (a.vermelhas >= 1 <==> cs[|cs| - 1].close <= cs[|cs| - 1].open)
      && a.verdes <= Lookback && a.vermelhas <= Lookback
  {
    var w := Tail(cs, Lookback);
    assert w[|w| - 1] == cs[|cs| - 1];
  }

  /** As written, a red run counted from the last candle makes that candle
      red, so the "green last candle" test fails; a green run makes it
      green, so the "red last candle" test fails. */
  lemma {:induction false} ReversaoComoEscritaNunca(cs: seq<Candle>, rsi: Option<real>)
    ensures !AnaliseComoEscrita(cs, rsi).reversaoAlta && !AnaliseComoEscrita(cs, rsi).reversaoBaixa
  {
    if |cs| >= Lookback {
      var w := Tail(cs, Lookback);
      assert w[|w| - 1] == cs[|cs| - 1];
      if Corrida(w, false) > 0 {
        assert !VelaVerde(w[|w| - 1]);
      }
      if Corrida(w, true) > 0 {
        assert VelaVerde(w[|w| - 1]);
      }
    }
  }

  /** The corrected buy-side reversal fires exactly on five red candles
      followed by a green one with a larger body, under an RSI below 40. */
  lemma {:induction false} ReversaoAltaCorrigida(cs: seq<Candle>, rsi: Option<real>)
    requires |cs| >= Lookback
    ensures Analisar(cs, rsi).reversaoAlta <==>
      (forall j :: |cs| - 1 - MinVelasSequencia <= j < |cs| - 1 ==> !VelaVerde(cs[j]))
      && VelaVerde(cs[|cs| - 1]) && Below(rsi, 40.0) && Corpo(cs[|cs| - 1]) > Corpo(cs[|cs| - 2])
  {
    var antes := Tail(cs, Lookback)[..Lookback - 1];
    assert forall j :: 0 <= j < |antes| ==> antes[j] == cs[|cs| - Lookback + j];
    CorridaAoMenos(antes, false, MinVelasSequencia);
    assert (forall j :: |antes| - MinVelasSequencia <= j < |antes| ==> !VelaVerde(antes[j])) <==>
           (forall j :: |cs| - 1 - MinVelasSequencia <= j < |cs| - 1 ==> !VelaVerde(cs[j])) by {
      forall j | |cs| - 1 - MinVelasSequencia <= j < |cs| - 1
        ensures cs[j] == antes[j - (|cs| - Lookback)]
      {
      }
    }
  }

  /** The sell-side mirror: five green candles, then a red one with a
      larger body, under an RSI above 60. */
  lemma {:induction false} ReversaoBaixaCorrigida(cs: seq<Candle>, rsi: Option<real>)
    requires |cs| >= Lookback
    ensures Analisar(cs, rsi).reversaoBaixa <==>
      (forall j :: |cs| - 1 - MinVelasSequencia <= j < |cs| - 1 ==> VelaVerde(cs[j]))
      && cs[|cs| - 1].close < cs[|cs| - 1].open && Above(rsi, 60.0) && Corpo(cs[|cs| - 1]) > Corpo(cs[|cs| - 2])
  {
    var antes := Tail(cs, Lookback)[..Lookback - 1];
    assert forall j :: 0 <= j < |antes| ==> antes[j] == cs[|cs| - Lookback + j];
    CorridaAoMenos(antes, true, MinVelasSequencia);
    assert (forall j :: |antes| - MinVelasSequencia <= j < |antes| ==> VelaVerde(antes[j])) <==>
           (forall j :: |cs| - 1 - MinVelasSequencia <= j < |cs| - 1 ==> VelaVerde(cs[j])) by {
      forall j | |cs| - 1 - MinVelasSequencia <= j < |cs| - 1
        ensures cs[j] == antes[j - (|cs| - Lookback)]
      {
      }
    }
  }

  /** Exhaustion is a run of more than seven candles of one colour ending
      at the last one. */
  lemma {:induction false} ExaustaoSignifica(cs: seq<Candle>, rsi: Option<real>)
    requires |cs| >= Lookback
    ensures Analisar(cs, rsi).exaustao <==>
      (forall j :: |cs| - 1 - MaxVelasSequencia <= j < |cs| ==> VelaVerde(cs[j]))
      || (forall j :: |cs| - 1 - MaxVelasSequencia <= j < |cs| ==> !VelaVerde(cs[j]))
  {
    var w := Tail(cs, Lookback);
    assert Analisar(cs, rsi).exaustao == AnaliseComoEscrita(cs, rsi).exaustao
      == (Corrida(w, true) >= MaxVelasSequencia + 1 || Corrida(w, false) >= MaxVelasSequencia + 1);
    CorridaNaJanela(cs, true, MaxVelasSequencia + 1);
    CorridaNaJanela(cs, false, MaxVelasSequencia + 1);
  }

  /** A run of at least k candles of one colour in the window is a run of
      k candles of that colour at the end of the whole series. */
  lemma CorridaNaJanela(cs: seq<Candle>, verde: bool, k: nat)
    requires |cs| >= Lookback && k <= Lookback
    ensures Corrida(Tail(cs, Lookback), verde) >= k <==> forall j :: |cs| - k <= j < |cs| ==> VelaVerde(cs[j]) == verde
  {
    var d := |cs| - Lookback;
    var w := cs[d..];
    assert Tail(cs, Lookback) == w;
    CorridaAoMenos(w, verde, k);
    if forall j :: |cs| - k <= j < |cs| ==> VelaVerde(cs[j]) == verde {
      forall i | |w| - k <= i < |w|
        ensures VelaVerde(w[i]) == verde
      {
        assert w[i] == cs[d + i];
      }
    } else {
      var j :| |cs| - k <= j < |cs| && VelaVerde(cs[j]) != verde;
      assert w[j - d] == cs[j];
    }
  }

  // ---------------------------------------------------------------------
  // sistema_score_contextual and sistema_score_ml

  /** The contextual points: a reversal towards the side, no exhaustion on
      the side, and no long opposite run without a reversal. */
  function ScoreContextual(a: Analise, compra: bool): (s: nat)
    ensures s <= 3
  {
    if compra then
      Pontos(a.reversaoAlta, 1) + Pontos(a.verdes < MaxVelasSequencia, 1)
        + Pontos(!(a.vermelhas > MaxVelasSequencia && !a.reversaoAlta), 1)
    else
      Pontos(a.reversaoBaixa, 1) + Pontos(a.vermelhas < MaxVelasSequencia, 1)
        + Pontos(!(a.verdes > MaxVelasSequencia && !a.reversaoBaixa), 1)
  }

  /** As written the reversal point is never scored: the contextual score
      is at most 2, so the 16-point total cannot be reached. */
  lemma ContextualComoEscritoNoMaximoDois(cs: seq<Candle>, rsi: Option<real>, compra: bool)
    ensures ScoreContextual(AnaliseComoEscrita(cs, rsi), compra) <= 2
  {
    ReversaoComoEscritaNunca(cs, rsi);
  }

  /** One of the two runs is empty, so each side always scores at least
      one contextual point. */
  lemma ContextualAoMenosUm(cs: seq<Candle>, rsi: Option<real>, compra: bool)
    ensures ScoreContextual(AnaliseComoEscrita(cs, rsi), compra) >= 1
    ensures ScoreContextual(Analisar(cs, rsi), compra) >= 1
  {
  }

  /** A buy gets all three contextual points exactly when the corrected
      buy reversal fires without a run of seven or more green candles. */
  lemma ContextualCompraTres(a: Analise)
    ensures ScoreContextual(a, true) == 3 <==> a.reversaoAlta && a.verdes < MaxVelasSequencia
  {
  }

  /** The forecast obter_previsao_ml returns: the direction and the
      confidence in percent. */
  datatype Previsao = Previsao(direcao: string, confianca: real)

  /** The ML points: none without a forecast or against its direction,
      otherwise one plus one per confidence threshold (40% and 60%) met. */
  function ScoreMl(p: Option<Previsao>, compra: bool): (s: nat)
    ensures s <= 3
    ensures s == 0 <==> p.None? || p.value.direcao != (if compra then "UP" else "DOWN")
  {
    if p.Some? && p.value.direcao == (if compra then "UP" else "DOWN") then
      1 + Pontos(p.value.confianca >= ConfiancaMinimaMl, 1) + Pontos(p.value.confianca >= ConfiancaAltaMl, 1)
    else 0
  }

  /** A forecast points one way: at most one side gets ML points. */
  lemma MlUmLadoSo(p: Option<Previsao>)
    ensures ScoreMl(p, true) == 0 || ScoreMl(p, false) == 0
  {
  }

  /** More confidence never lowers the ML points; 3 needs 60%. */
  lemma MlConfiancaMonotona(d: string, c1: real, c2: real, compra: bool)
    requires c1 <= c2
    ensures ScoreMl(Some(Previsao(d, c1)), compra) <= ScoreMl(Some(Previsao(d, c2)), compra)
    ensures ScoreMl(Some(Previsao(d, c1)), compra) == 3 <==> d == (if compra then "UP" else "DOWN") && c1 >= ConfiancaAltaMl
  {
  }

  /** The total the entry compares: technical + contextual + ML. */
  function Total(df: seq<Row>, conf: seq<Candle>, osc: Osciladores, a: Analise, p: Option<Previsao>, compra: bool): (s: nat)
    ensures s <= ScoreMaximo + 6
  {
    Score(df, conf, osc, compra) + ScoreContextual(a, compra) + ScoreMl(p, compra)
  }

  /** The entry the totals call for: Some(true) for a buy, Some(false) for
      a sell, None for none. */
  function Decisao(sc: nat, sv: nat): (d: Option<bool>)
    ensures d == Some(true) <==> sc >= ScoreMinimoTotal && sc > sv
    ensures d == Some(false) <==> sv >= ScoreMinimoTotal && sv > sc
  {
    if sc >= ScoreMinimoTotal && sc > sv then Some(true)
    else if sv >= ScoreMinimoTotal && sv > sc then Some(false)
    else None
  }

  /** Without a forecast a side needs 7 technical points to reach 10. */
  lemma SemMlPrecisaSeteTecnicos(df: seq<Row>, conf: seq<Candle>, osc: Osciladores, a: Analise, compra: bool)
    requires Total(df, conf, osc, a, None, compra) >= ScoreMinimoTotal
    ensures Score(df, conf, osc, compra) >= 7
  {
  }

  // ---------------------------------------------------------------------
  // The loop

  /** The script's state: the XRPUSDT bot's variables, ml_treinado and the
      global ultimo_treinamento_ml (seconds). */
  datatype Robo = Robo(base: Xrp.Robo, mlTreinado: bool, ultimoTreino: Option<int>)

  /** One pass: what the XRPUSDT bot observes, the clock, whether a
      training would find a model, and the forecast (None when it raised). */
  datatype Ciclo = Ciclo(base: Xrp.Ciclo, agora: int, treinoOk: bool, previsao: Option<Previsao>)

  /** ml_treinado holds exactly when a training has succeeded. */
  predicate TreinoConsistente(r: Robo) {
    r.mlTreinado <==> r.ultimoTreino.Some?
  }

  /** The training call of each pass: forced while ml_treinado is false or
      no training time is recorded (its answer becomes ml_treinado),
      otherwise done only four hours after the last one (its answer is
      dropped). A success records the time. */
  function Treina(r: Robo, agora: int, ok: bool): (s: Robo)
    ensures s.base == r.base
  {
    if !r.mlTreinado || r.ultimoTreino.None? then
      r.(mlTreinado := ok, ultimoTreino := if ok then Some(agora) else r.ultimoTreino)
    else if agora - r.ultimoTreino.value < RetreinoSegundos then r
    else r.(ultimoTreino := if ok then Some(agora) else r.ultimoTreino)
  }

  /** Training keeps ml_treinado and the recorded time in step, never
      untrains, and retrains only four hours after the last success. */
  lemma TreinaMantem(r: Robo, agora: int, ok: bool)
    requires TreinoConsistente(r)
    ensures var s := Treina(r, agora, ok);
      && TreinoConsistente(s)
      && (r.mlTreinado ==> s.mlTreinado)
      && (s.ultimoTreino != r.ultimoTreino ==>
            s.ultimoTreino == Some(agora) && (r.ultimoTreino.None? || agora - r.ultimoTreino.value >= RetreinoSegundos))
  {
  }

  /** The forecast the scores see: obter_previsao_ml is only called once
      a model is trained. */
  function PrevisaoUsada(t: Robo, c: Ciclo): (p: Option<Previsao>)
    ensures p.Some? <==> t.mlTreinado && c.previsao.Some?
    ensures p.Some? ==> p == c.previsao
  {
    if t.mlTreinado then c.previsao else None
  }

  /** The DE_FORA branch: balance, minimum lot and quantity first, then
      the sequence analysis as written (so no reversal point is ever
      scored), the forecast if a model is trained, and the
      two totals. */
  function Procura(t: Robo, df: seq<Row>, conf: seq<Candle>, c: Ciclo): (s: Xrp.Robo)
    requires |df| >= Xrp.VelasMinimas
  {
    var b := c.base;
    if b.saldo.Err? || b.minimo.Err? then t.base
    else
      var a := AnaliseComoEscrita(Velas(df), UltimaDe(df, b.osc).rsi);
      var p := PrevisaoUsada(t, c);
      Xrp.Entrada(t.base, df, b,
                  Utilidades.QuantidadeCriptoParaOperar(b.saldo.value * Xrp.Alavancagem, b.minimo.value,
                                                        df[|df| - 1].candle.close),
                  Decisao(Total(df, conf, b.osc, a, p, true), Total(df, conf, b.osc, a, p, false)))
  }

  /** One pass: missing data or fewer than 50 candles skip it (and the
      training); otherwise the training call, then the trade branch of the
      XRPUSDT bot or the search for an entry. */
  function Passo(r: Robo, c: Ciclo): (s: Robo)
  {
    var b := c.base;
    if b.klines.Err? || b.klinesConf.Err? then r
    else
      var df := BuscaVelas(b.klines.value, Xrp.Emas);
      if df.Err? || |df.value| < Xrp.VelasMinimas then r
      else
        var t := Treina(r, c.agora, c.treinoOk);
        var vela := df.value[|df.value| - 1].candle;
        if t.base.bot.estado == Mapped(Comprado) then t.(base := Xrp.Acompanha(t.base, Comprado, vela, b))
        else if t.base.bot.estado == Mapped(Vendido) then t.(base := Xrp.Acompanha(t.base, Vendido, vela, b))
        else if t.base.bot.estado == Mapped(DeFora) && PodeProcurar(t.base.bot, df.value) then
          t.(base := Procura(t, df.value, b.klinesConf.value, c))
        else t
  }

  function Executa(r: Robo, ciclos: seq<Ciclo>): Robo
    decreases |ciclos|
  {
    if ciclos == [] then r else Passo(Executa(r, ciclos[..|ciclos| - 1]), ciclos[|ciclos| - 1])
  }

  /** One pass of the loop, on the script's own variables. */
  method ExecutaPasso(r0: Robo, c: Ciclo) returns (r: Robo)
    ensures r == Passo(r0, c)
  {
    r := r0;
    var b := c.base;
    if b.klines.Err? || b.klinesConf.Err? {
      return;
    }
    var df := BuscaVelas(b.klines.value, Xrp.Emas);
    if df.Err? || |df.value| < Xrp.VelasMinimas {
      return;
    }
    if !r.mlTreinado || r.ultimoTreino.None? {
      r := r.(mlTreinado := c.treinoOk);
      if c.treinoOk {
        r := r.(ultimoTreino := Some(c.agora));
      }
    } else if c.agora - r.ultimoTreino.value >= RetreinoSegundos && c.treinoOk {
      r := r.(ultimoTreino := Some(c.agora));
    }
    var atual := df.value[|df.value| - 1].candle;
    if r.base.bot.estado == Mapped(Comprado) {
      var base := Xrp.AcompanhaPasso(r.base, Comprado, atual, b);
      r := r.(base := base);
    } else if r.base.bot.estado == Mapped(Vendido) {
      var base := Xrp.AcompanhaPasso(r.base, Vendido, atual, b);
      r := r.(base := base);
    } else if r.base.bot.estado == Mapped(DeFora) && r.base.bot.velaFechouTrade != Some(atual.openTime) {
      r := r.(base := Procura(r, df.value, b.klinesConf.value, c));
    }
  }

  /** The script: the startup read, no model trained, then the loop over
      the given passes. */
  method Executar(tentativas: seq<Result<OpenTrade>>, ciclos: seq<Ciclo>) returns (robo: Robo)
    ensures robo == Executa(Robo(Xrp.Robo(BotDe(VerificarTradeAberto(tentativas)), []), false, None), ciclos)
  {
    var inicio := Robo(Xrp.Robo(BotDe(VerificarTradeAberto(tentativas)), []), false, None);
    robo := inicio;
    var i := 0;
    while i < |ciclos|
      invariant 0 <= i <= |ciclos|
      invariant robo == Executa(inicio, ciclos[..i])
    {
      assert ciclos[..i + 1][..i] == ciclos[..i];
      robo := ExecutaPasso(robo, ciclos[i]);
      i := i + 1;
    }
    assert ciclos[..i] == ciclos;
  }

  // ---------------------------------------------------------------------
  // Properties of the loop

  /** Every pass keeps ml_treinado and the training time in step. */
  lemma PassoMantemTreino(r: Robo, c: Ciclo)
    requires TreinoConsistente(r)
    ensures TreinoConsistente(Passo(r, c)) && (r.mlTreinado ==> Passo(r, c).mlTreinado)
  {
    TreinaMantem(r, c.agora, c.treinoOk);
  }

  /** So does any run from the start, where nothing is trained. */
  lemma {:induction false} ExecutaMantemTreino(r: Robo, ciclos: seq<Ciclo>)
    requires TreinoConsistente(r)
    ensures TreinoConsistente(Executa(r, ciclos))
    decreases |ciclos|
  {
    if ciclos != [] {
      ExecutaMantemTreino(r, ciclos[..|ciclos| - 1]);
      PassoMantemTreino(Executa(r, ciclos[..|ciclos| - 1]), ciclos[|ciclos| - 1]);
    }
  }

  /** A bot in a trade runs the XRPUSDT trade branch on the newest candle
      after the training call. */
  lemma PassoEmTrade(r: Robo, c: Ciclo)
    requires c.base.klines.Ok? && c.base.klinesConf.Ok? && |c.base.klines.value| >= Xrp.VelasMinimas
    requires r.base.bot.estado == Mapped(Comprado) || r.base.bot.estado == Mapped(Vendido)
    ensures Passo(r, c).base == Xrp.Acompanha(r.base, r.base.bot.estado.estado, c.base.klines.value[0], c.base)
  {
    var df := BuscaVelas(c.base.klines.value, Xrp.Emas).value;
    assert df[|df| - 1].candle == c.base.klines.value[0];
  }

  /** A long is opened only on a buy total of at least 10 that beats the
      sell total. */
  lemma CompraExigeTotal(t: Robo, df: seq<Row>, conf: seq<Candle>, c: Ciclo)
    requires |df| >= Xrp.VelasMinimas && t.base.bot.estado == Mapped(DeFora)
    requires Procura(t, df, conf, c).bot.estado == Mapped(Comprado)
    ensures c.base.saldo.Ok? && c.base.minimo.Ok?
    ensures var a := AnaliseComoEscrita(Velas(df), UltimaDe(df, c.base.osc).rsi);
      var p := PrevisaoUsada(t, c);
      var sc := Total(df, conf, c.base.osc, a, p, true);
      sc >= ScoreMinimoTotal && sc > Total(df, conf, c.base.osc, a, p, false)
  {
  }

  /** As written no reversal point is ever scored, so a long opened
      without a forecast needs 8 technical points, not the 7 the 16-point
      scale suggests. */
  lemma CompraSemMlPrecisaOitoTecnicos(t: Robo, df: seq<Row>, conf: seq<Candle>, c: Ciclo)
    requires |df| >= Xrp.VelasMinimas && t.base.bot.estado == Mapped(DeFora)
    requires Procura(t, df, conf, c).bot.estado == Mapped(Comprado)
    requires PrevisaoUsada(t, c) == None
    ensures Score(df, conf, c.base.osc, true) >= ScoreMinimoTotal - 2
  {
    CompraExigeTotal(t, df, conf, c);
    ContextualComoEscritoNoMaximoDois(Velas(df), UltimaDe(df, c.base.osc).rsi, true);
  }
}
