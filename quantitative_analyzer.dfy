/**
  quantitative_analyzer.py: the QuantitativeAnalyzer's scoring of one
  symbol (the technical flags, the ML and technical scores, the weighted
  overall score and the recommendation drawn from it), the history of
  analyses it keeps, and the ranking of several symbols. Loading candles,
  feature engineering, model training and the charts are inputs or are not
  part of this model.
*/
module AnaliseQuantitativa {
  import opened Wrappers
  import Candles
  import Atr
  import opened Ordenacao

  /** The rows the volume and ATR averages look back over. */
  const JanelaMedia: nat := 20
  /** A volume spike is a ratio above 1.5 times its average. */
  const FatorVolume: real := 1.5
  /** A HIGH volatility regime is an ATR ratio above 1.2 times its average. */
  const FatorVolatilidade: real := 1.2
  /** price_stats reads the close 24 rows back. */
  const Linhas24h: nat := 24
  /** The ranking print shows ranking[:10]. */
  const LinhasRanking: nat := 10

  /** model_performance: either key may be missing. */
  datatype Desempenho = Desempenho(r2: Option<real>, direcaoAcerto: Option<real>)

  /** What one analysis reads: the close column, the last values of the
      EMA_ columns in column order, the volume_ratio and atr_ratio feature
      columns when the features have them, the best model's performance
      and the predicted direction ('UP' or 'DOWN', or missing). */
  datatype Entradas = Entradas(
    closes: seq<real>, emas: seq<real>,
    volumeRatio: Option<seq<real>>, atrRatio: Option<seq<real>>,
    desempenho: Desempenho, direcao: Option<string>)

  datatype Tendencia = Tendencia(alta: bool, forca: real, acimaRapida: bool, acimaLenta: bool)
  datatype Volume = Volume(atual: real, media: real, pico: bool)
  datatype Volatilidade = Volatilidade(atual: real, media: real, alta: bool)

  /** The technical_analysis dictionary: each entry only when its inputs
      are there. */
  datatype Tecnica = Tecnica(tendencia: Option<Tendencia>, volume: Option<Volume>, volatilidade: Option<Volatilidade>)

  datatype Pontuacao = Pontuacao(ml: real, tecnica: real, geral: real)

  datatype Acao = StrongBuy | StrongSell | Buy | Sell | Hold
  datatype Confianca = High | Medium | Low
  datatype Recomendacao = Recomendacao(acao: Acao, confianca: Confianca, pontuacao: real)

  datatype Relatorio = Relatorio(tecnica: Tecnica, pontuacao: Pontuacao, recomendacao: Recomendacao)

  /** An entry of analysis_history (the timestamp is left out). */
  datatype Registro = Registro(simbolo: string, timeframe: string, relatorio: Relatorio)

  /** What analyze_symbol returns: the entry, or the error dictionary. */
  datatype Resultado = Analise(registro: Registro) | Erro(mensagem: string)

  /** Exchange closes are positive; the trend strength divides by the last. */
  predicate PrecosPositivos(closes: seq<real>) {
    forall i :: 0 <= i < |closes| ==> closes[i] > 0.0
  }

  /** The message of the IndexError iloc raises past the end of a column. */
  const ForaDoIndice: string := "single positional indexer is out-of-bounds"

  // ---------------------------------------------------------------------
  // _advanced_technical_analysis

  /** The trend entry from the first two EMA columns and the last close. */
  function Tendencia_(rapida: real, lenta: real, preco: real): (t: Tendencia)
    requires preco > 0.0
    ensures t.alta <==> rapida > lenta
    ensures t.forca >= 0.0
    ensures t.forca == 0.0 <==> rapida == lenta
    ensures t.acimaRapida <==> preco > rapida
    ensures t.acimaLenta <==> preco > lenta
  {
    var forca := Atr.Abs(rapida - lenta) / preco * 100.0;
    assert forca >= 0.0;
    Tendencia(rapida > lenta, forca, preco > rapida, preco > lenta)
  }

  /** The last value of a feature column and the mean of its last 20. */
  function UltimaEMedia(col: seq<real>): (r: (real, real))
    requires |col| > 0
    ensures r.0 == col[|col| - 1]
    ensures Candles.Min(Candles.Tail(col, JanelaMedia)) <= r.1 <= Candles.Max(Candles.Tail(col, JanelaMedia))
  {
    var janela := Candles.Tail(col, JanelaMedia);
    MediaEntreExtremos(janela);
    (col[|col| - 1], Candles.Mean(janela))
  }

  /** A mean lies between the smallest and the largest value. */
  lemma MediaEntreExtremos(s: seq<real>)
    requires |s| > 0
    ensures Candles.Min(s) <= Candles.Mean(s) <= Candles.Max(s)
  {
    Candles.MediaEntre(s, Candles.Min(s), Candles.Max(s));
  }

  /** _advanced_technical_analysis(df, df_features). A feature column that
      is there but empty makes iloc[-1] raise. */
  function AnaliseTecnica(e: Entradas): (r: Result<Tecnica>)
    requires |e.closes| > 0 && PrecosPositivos(e.closes)
    ensures r.Ok? <==> (e.volumeRatio.Some? ==> |e.volumeRatio.value| > 0) && (e.atrRatio.Some? ==> |e.atrRatio.value| > 0)
    ensures r.Ok? ==> (r.value.tendencia.Some? <==> |e.emas| >= 2)
    ensures r.Ok? ==> (r.value.volume.Some? <==> e.volumeRatio.Some?)
    ensures r.Ok? ==> (r.value.volatilidade.Some? <==> e.atrRatio.Some?)
  {
    var preco := e.closes[|e.closes| - 1];
    var tendencia := if |e.emas| >= 2 then Some(Tendencia_(e.emas[0], e.emas[1], preco)) else None;
    if e.volumeRatio.Some? && |e.volumeRatio.value| == 0 then Err(ForaDoIndice)
    else if e.atrRatio.Some? && |e.atrRatio.value| == 0 then Err(ForaDoIndice)
    else
      var volume :=
        if e.volumeRatio.None? then None
        else
          var v := UltimaEMedia(e.volumeRatio.value);
          Some(Volume(v.0, v.1, v.0 > v.1 * FatorVolume));
      var volatilidade :=
        if e.atrRatio.None? then None
        else
          var a := UltimaEMedia(e.atrRatio.value);
          Some(Volatilidade(a.0, a.1, a.0 > a.1 * FatorVolatilidade));
      Ok(Tecnica(tendencia, volume, volatilidade))
  }

  /** The three threshold flags: BULLISH iff the fast EMA is above the
      slow one, a volume spike iff the last ratio is above 1.5 times the
      average of the last 20, HIGH volatility iff the last ATR ratio is
      above 1.2 times its average. */
  lemma FlagsSignificam(e: Entradas)
    requires |e.closes| > 0 && PrecosPositivos(e.closes)
    requires AnaliseTecnica(e).Ok?
    ensures var t := AnaliseTecnica(e).value;
      && (t.tendencia.Some? ==> (t.tendencia.value.alta <==> e.emas[0] > e.emas[1]))
      && (t.volume.Some? ==> (t.volume.value.pico <==> t.volume.value.atual > t.volume.value.media * FatorVolume))
      && (t.volume.Some? ==> t.volume.value.atual == e.volumeRatio.value[|e.volumeRatio.value| - 1])
      && (t.volatilidade.Some? ==> (t.volatilidade.value.alta <==> t.volatilidade.value.atual > t.volatilidade.value.media * FatorVolatilidade))
      && (t.volatilidade.Some? ==> t.volatilidade.value.atual == e.atrRatio.value[|e.atrRatio.value| - 1])
  {
  }

  // ---------------------------------------------------------------------
  // _calculate_overall_score

  function Minimo(a: real, b: real): (r: real)
    ensures r <= a && r <= b && (r == a || r == b)
  {
    if a <= b then a else b
  }

  /** ml_score: r2 (0 when missing) clipped below at 0 and the direction
      accuracy (0.5 when missing), each weighted by 50, capped at 100. */
  function PontuacaoMl(d: Desempenho): (r: real)
    ensures r <= 100.0
    ensures (d.direcaoAcerto.None? || d.direcaoAcerto.value >= 0.0) ==> r >= 0.0
  {
    var r2 := if d.r2.Some? then d.r2.value else 0.0;
    var acerto := if d.direcaoAcerto.Some? then d.direcaoAcerto.value else 0.5;
    Minimo((if r2 > 0.0 then r2 else 0.0) * 50.0 + acerto * 50.0, 100.0)
  }

  /** With no performance figures the ML score is 25: a coin flip. */
  lemma PontuacaoMlSemDados()
    ensures PontuacaoMl(Desempenho(None, None)) == 25.0
  {
  }

  /** A negative r2 counts as 0, so only the accuracy scores; an r2 and an
      accuracy both in [0, 1] give their average times 100. */
  lemma PontuacaoMlEscala(r2: real, acerto: real)
    requires 0.0 <= acerto <= 1.0
    ensures r2 <= 0.0 ==> PontuacaoMl(Desempenho(Some(r2), Some(acerto))) == acerto * 50.0
    ensures 0.0 <= r2 <= 1.0 ==> PontuacaoMl(Desempenho(Some(r2), Some(acerto))) == (r2 + acerto) * 50.0
  {
  }

  /** technical_score: 50, plus twice the trend strength capped at 20 when
      there is a trend entry, plus 10 on a volume spike, capped at 100. */
  function PontuacaoTecnica(t: Tecnica): (r: real)
    ensures r <= 100.0
  {
    var tendencia := if t.tendencia.Some? then Minimo(t.tendencia.value.forca * 2.0, 20.0) else 0.0;
    var volume := if t.volume.Some? && t.volume.value.pico then 10.0 else 0.0;
    Minimo(50.0 + tendencia + volume, 100.0)
  }

  /** The technical score is at least 50 when the trend strength is not
      negative, never above 80, and is exactly 50 with no trend and no
      volume spike. */
  lemma PontuacaoTecnicaEntre(t: Tecnica)
    ensures (t.tendencia.None? || t.tendencia.value.forca >= 0.0) ==> PontuacaoTecnica(t) >= 50.0
    ensures PontuacaoTecnica(t) <= 80.0
    ensures (t.tendencia.None? && (t.volume.None? || !t.volume.value.pico)) ==> PontuacaoTecnica(t) == 50.0
  {
  }

  /** The scores dictionary: overall is 0.6 ML plus 0.4 technical. */
  function Pontua(d: Desempenho, t: Tecnica): (p: Pontuacao)
    ensures p.ml == PontuacaoMl(d) && p.tecnica == PontuacaoTecnica(t)
    ensures p.geral <= 92.0
    ensures Minimo(p.ml, p.tecnica) <= p.geral <= (if p.ml <= p.tecnica then p.tecnica else p.ml)
  {
    PontuacaoTecnicaEntre(t);
    Pontuacao(PontuacaoMl(d), PontuacaoTecnica(t), PontuacaoMl(d) * 0.6 + PontuacaoTecnica(t) * 0.4)
  }

  // ---------------------------------------------------------------------
  // _generate_recommendation

  function Recomenda(p: Pontuacao, direcao: Option<string>): (r: Recomendacao)
    ensures r.pontuacao == p.geral
  {
    var sobe := direcao == Some("UP");
    if p.geral >= 70.0 then Recomendacao(if sobe then StrongBuy else StrongSell, High, p.geral)
    else if p.geral >= 50.0 then Recomendacao(if sobe then Buy else Sell, Medium, p.geral)
    else Recomendacao(Hold, Low, p.geral)
  }

  /** The recommendation: HOLD with LOW confidence exactly below 50, a
      STRONG_ action with HIGH confidence exactly from 70, MEDIUM between;
      a buying action exactly when the score reaches 50 and the predicted
      direction is UP, so any other or a missing direction sells. */
  lemma RecomendaSignifica(p: Pontuacao, direcao: Option<string>)
    ensures var r := Recomenda(p, direcao);
      && (r.acao == Hold <==> p.geral < 50.0)
      && (r.confianca == Low <==> p.geral < 50.0)
      && (r.confianca == High <==> p.geral >= 70.0)
      && (r.confianca == Medium <==> 50.0 <= p.geral < 70.0)
      && (r.acao in {StrongBuy, StrongSell} <==> p.geral >= 70.0)
      && (r.acao in {StrongBuy, Buy} <==> p.geral >= 50.0 && direcao == Some("UP"))
      && (r.acao in {StrongSell, Sell} <==> p.geral >= 50.0 && direcao != Some("UP"))
  {
  }

  /** With the score capped at 92 no recommendation is ever STRONG_ without
      an ML score of at least 530/9 (about 58.9). */
  lemma ForteExigeMl(d: Desempenho, t: Tecnica, direcao: Option<string>)
    requires Recomenda(Pontua(d, t), direcao).confianca == High
    ensures PontuacaoMl(d) * 9.0 >= 530.0
  {
    PontuacaoTecnicaEntre(t);
  }

  // ---------------------------------------------------------------------
  // analyze_symbol and analyze_multiple_symbols

  /** The report for one symbol, or the error that ends the analysis: no
      candles, fewer than 24 rows (price_stats reads close.iloc[-24]) or an
      empty feature column. */
  function Relata(e: Entradas): (r: Result<Relatorio>)
    requires PrecosPositivos(e.closes)
    ensures r.Ok? ==> |e.closes| >= Linhas24h
    ensures r.Ok? ==> r.value.recomendacao == Recomenda(r.value.pontuacao, e.direcao)
    ensures r.Ok? ==> r.value.pontuacao == Pontua(e.desempenho, r.value.tecnica)
  {
    if |e.closes| < Linhas24h then Err(ForaDoIndice)
    else
      var t := AnaliseTecnica(e);
      if t.Err? then Err(t.error)
      else
        var p := Pontua(e.desempenho, t.value);
        Ok(Relatorio(t.value, p, Recomenda(p, e.direcao)))
  }

  /** What analyze_symbol returns. `dados` is what loading the candles,
      the feature engineering and the ML run give, or the exception one of
      them raised. */
  function Analisa(simbolo: string, timeframe: string, dados: Result<Entradas>): Resultado
    requires dados.Ok? ==> PrecosPositivos(dados.value.closes)
  {
    var rel := if dados.Err? then Err(dados.error) else Relata(dados.value);
    if rel.Err? then Erro("Erro na análise de " + simbolo + ": " + rel.error)
    else Analise(Registro(simbolo, timeframe, rel.value))
  }

  /** An analysis succeeds exactly when the inputs came and the report
      could be built, and then it records the symbol and that report; a
      failure names the symbol in its message. */
  lemma AnalisaSignifica(simbolo: string, timeframe: string, dados: Result<Entradas>)
    requires dados.Ok? ==> PrecosPositivos(dados.value.closes)
    ensures var r := Analisa(simbolo, timeframe, dados);
      && (r.Analise? <==> dados.Ok? && Relata(dados.value).Ok?)
      && (r.Analise? ==> r.registro == Registro(simbolo, timeframe, Relata(dados.value).value))
      && (r.Erro? ==> r.mensagem[..|"Erro na análise de " + simbolo|] == "Erro na análise de " + simbolo)
  {
  }

  predicate Validos(dados: seq<(string, Result<Entradas>)>) {
    forall i :: 0 <= i < |dados| ==> (dados[i].1.Ok? ==> PrecosPositivos(dados[i].1.value.closes))
  }

  /** The results the loop of analyze_multiple_symbols appends for the
      first k symbols, in order. */
  function AnalisaTodos(timeframe: string, dados: seq<(string, Result<Entradas>)>, k: nat): (rs: seq<Resultado>)
    requires Validos(dados) && k <= |dados|
    ensures |rs| == k
    decreases k
  {
    if k == 0 then []
    else AnalisaTodos(timeframe, dados, k - 1) + [Analisa(dados[k - 1].0, timeframe, dados[k - 1].1)]
  }

  /** The analyses without an error, in order: the ones kept in the
      history and ranked. */
  function SemErro(rs: seq<Resultado>): (r: seq<Resultado>)
    ensures forall x :: x in r <==> x in rs && x.Analise?
    ensures |r| <= |rs|
    decreases |rs|
  {
    if rs == [] then []
    else SemErro(rs[..|rs| - 1]) + (if rs[|rs| - 1].Analise? then [rs[|rs| - 1]] else [])
  }

  /** The ranking key negated, so that an ascending sort gives
      sorted(..., reverse=True). */
  function MenosGeral(r: Resultado): real {
    if r.Analise? then -r.registro.relatorio.pontuacao.geral else 0.0
  }

  function Geral(r: Resultado): real {
    if r.Analise? then r.registro.relatorio.pontuacao.geral else 0.0
  }

  /** The ranking of analyze_multiple_symbols. */
  function Ranking(rs: seq<Resultado>): (r: seq<Resultado>)
    ensures |r| <= |rs|
  {
    OrdenaPor(SemErro(rs), MenosGeral)
  }

  /** The ranking holds every analysis without an error, each as often as
      it occurs, no error, and goes by overall score from the highest down. */
  lemma RankingSignifica(rs: seq<Resultado>)
    ensures multiset(Ranking(rs)) == multiset(SemErro(rs))
    ensures forall x :: x in Ranking(rs) ==> x.Analise?
    ensures forall i, j :: 0 <= i < j < |Ranking(rs)| ==> Geral(Ranking(rs)[i]) >= Geral(Ranking(rs)[j])
  {
    OrdenaPorOrdena(SemErro(rs), MenosGeral);
    var r := Ranking(rs);
    forall x | x in r
      ensures x.Analise?
    {
      assert x in multiset(r);
    }
    forall i, j | 0 <= i < j < |r|
      ensures Geral(r[i]) >= Geral(r[j])
    {
      assert MenosGeral(r[i]) <= MenosGeral(r[j]);
      assert r[i] in r && r[j] in r;
    }
  }

  class QuantitativeAnalyzer {
    /** analysis_history: the successful analyses, oldest first. */
    var historico: seq<Registro>

    constructor()
      ensures historico == []
    {
      historico := [];
    }

    /** analyze_symbol: a successful analysis is appended to the history;
        an error leaves it as it was. */
    method AnalyzeSymbol(simbolo: string, timeframe: string, dados: Result<Entradas>) returns (r: Resultado)
      requires dados.Ok? ==> PrecosPositivos(dados.value.closes)
      modifies this
      ensures r == Analisa(simbolo, timeframe, dados)
      ensures historico == old(historico) + (if r.Analise? then [r.registro] else [])
    {
      r := Analisa(simbolo, timeframe, dados);
      if r.Analise? {
        historico := historico + [r.registro];
      }
    }

    /** The loop of analyze_multiple_symbols: every symbol in turn. */
    method AnalyzeEach(timeframe: string, dados: seq<(string, Result<Entradas>)>) returns (resultados: seq<Resultado>)
      requires Validos(dados)
      modifies this
      ensures resultados == AnalisaTodos(timeframe, dados, |dados|)
      ensures historico == old(historico) + Historico(resultados)
    {
      resultados := [];
      var i := 0;
      while i < |dados|
        invariant 0 <= i <= |dados|
        invariant resultados == AnalisaTodos(timeframe, dados, i)
        invariant historico == old(historico) + Historico(resultados)
      {
        var r := AnalyzeSymbol(dados[i].0, timeframe, dados[i].1);
        HistoricoAnexa(resultados, r);
        resultados := resultados + [r];
        i := i + 1;
      }
    }

    /** analyze_multiple_symbols: every symbol in turn; it returns every
        result, errors included, in symbol order. The ranking is only
        printed, ten lines at most: `impressos` is what those lines show. */
    method AnalyzeMultipleSymbols(timeframe: string, dados: seq<(string, Result<Entradas>)>)
      returns (resultados: seq<Resultado>, impressos: seq<Resultado>)
      requires Validos(dados)
      modifies this
      ensures resultados == AnalisaTodos(timeframe, dados, |dados|)
      ensures historico == old(historico) + Historico(resultados)
      ensures impressos <= Ranking(resultados)
      ensures |impressos| == if |Ranking(resultados)| < LinhasRanking then |Ranking(resultados)| else LinhasRanking
    {
      resultados := AnalyzeEach(timeframe, dados);
      var ranking := Ranking(resultados);
      impressos := if |ranking| < LinhasRanking then ranking else ranking[..LinhasRanking];
    }
  }

  /** The history entries of a list of analyses. */
  function Registros(rs: seq<Resultado>): (r: seq<Registro>)
    ensures |r| == |rs|
    ensures forall i :: 0 <= i < |rs| && rs[i].Analise? ==> r[i] == rs[i].registro
  {
    seq(|rs|, i requires 0 <= i < |rs| => if rs[i].Analise? then rs[i].registro else Registro("", "", Relatorio(Tecnica(None, None, None), Pontuacao(0.0, 0.0, 0.0), Recomendacao(Hold, Low, 0.0))))
  }

  /** The history entries a list of analyses adds. */
  function Historico(rs: seq<Resultado>): seq<Registro> {
    Registros(SemErro(rs))
  }

  lemma HistoricoAnexa(rs: seq<Resultado>, r: Resultado)
    ensures Historico(rs + [r]) == Historico(rs) + (if r.Analise? then [r.registro] else [])
  {
    SemErroAnexa(rs, r);
    RegistrosAnexa(SemErro(rs), r);
  }

  lemma SemErroAnexa(rs: seq<Resultado>, r: Resultado)
    ensures SemErro(rs + [r]) == SemErro(rs) + (if r.Analise? then [r] else [])
  {
    assert (rs + [r])[..|rs|] == rs;
  }

  lemma RegistrosAnexa(semErro: seq<Resultado>, r: Resultado)
    ensures Registros(semErro + (if r.Analise? then [r] else [])) == Registros(semErro) + (if r.Analise? then [r.registro] else [])
  {
  }
}
