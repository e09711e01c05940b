/**
  ml_predictor.py: the MLPredictor's bookkeeping around its regressors. The
  time-ordered 80/20 split of the samples, the choice of the models good
  enough for an ensemble, the models evaluate_models skips, the best model
  by r2, and the mapping of a predicted return to a price, a direction and
  a confidence, with the history of predictions. Fitting, cross-validation,
  the metrics and the regressors' outputs come from scikit-learn and are
  inputs here.
*/
module PreditorMl {
  import opened Wrappers
  import Atr

  /** The regressors _setup_models registers, in dictionary order. */
  const Modelos: seq<string> := ["random_forest", "gradient_boosting", "linear_regression", "ridge", "lasso", "svr"]

  /** The model predict_next_prices uses when none is named. */
  const ModeloPadrao: string := "random_forest"

  /** The predicted return at or beyond which the confidence is 100 %. */
  const TetoConfianca: real := 100.0

  // ---------------------------------------------------------------------
  // prepare_data

  /** int(len(X) * 0.8): the floor of 4n/5. */
  function IndiceDivisao(n: nat): (k: nat)
    ensures k <= n
    ensures 5 * k <= 4 * n < 5 * k + 5
  {
    (4 * n) / 5
  }

  /** The temporal split: the first 80 % of the rows to train on and the
      rest to test on. */
  function Divide<T>(xs: seq<T>): (r: (seq<T>, seq<T>))
    ensures |r.0| == IndiceDivisao(|xs|)
  {
    (xs[..IndiceDivisao(|xs|)], xs[IndiceDivisao(|xs|)..])
  }

  /** The two parts, in order, give the rows back: every training row comes
      before every test row and none is in both; the test part is never
      larger than a quarter of the training part plus one row. */
  lemma DivideParticiona<T>(xs: seq<T>)
    ensures Divide(xs).0 + Divide(xs).1 == xs
    ensures |Divide(xs).0| + |Divide(xs).1| == |xs|
    ensures forall i :: 0 <= i < |Divide(xs).0| ==> Divide(xs).0[i] == xs[i]
    ensures forall i :: 0 <= i < |Divide(xs).1| ==> Divide(xs).1[i] == xs[IndiceDivisao(|xs|) + i]
    ensures 4 * |Divide(xs).1| <= |Divide(xs).0| + 4
  {
    var k := IndiceDivisao(|xs|);
    assert xs[..k] + xs[k..] == xs;
  }

  // ---------------------------------------------------------------------
  // train_models results, evaluate_models, create_ensemble_model

  /** One training_results entry: the model and its mean CV r2, or the
      error that stopped its training ('model' is None then). */
  datatype Treino = Treinado(cvMedia: real) | Falhou(erro: string)

  /** How far train_models gets with one model: the scaler's fit_transform
      raises, the model's fit raises, a later step (cross-validation, the
      importances) raises, or every step succeeds with that mean CV r2. */
  datatype Etapa = FalhaEscala(erro: string) | FalhaAjuste(erro: string) | FalhaDepois(erro: string) | Completo(cvMedia: real)

  /** The training_results entry an attempt leaves. */
  function TreinoDe(e: Etapa): (t: Treino)
    ensures t.Treinado? <==> e.Completo?
    ensures t.Treinado? ==> t.cvMedia == e.cvMedia
  {
    match e
    case FalhaEscala(erro) => Falhou(erro)
    case FalhaAjuste(erro) => Falhou(erro)
    case FalhaDepois(erro) => Falhou(erro)
    case Completo(cv) => Treinado(cv)
  }

  /** Both the scaler and the model were fitted: the attempt got past
      model.fit. */
  predicate Ajusta(e: Etapa) {
    e.FalhaDepois? || e.Completo?
  }

  /** training_results for the models in order. */
  function Treina(modelos: seq<string>, etapas: seq<Etapa>): (r: seq<(string, Treino)>)
    requires |etapas| == |modelos|
    ensures |r| == |modelos|
    ensures forall i :: 0 <= i < |r| ==> r[i] == (modelos[i], TreinoDe(etapas[i]))
    decreases |modelos|
  {
    if modelos == [] then []
    else Treina(modelos[..|modelos| - 1], etapas[..|etapas| - 1]) + [(modelos[|modelos| - 1], TreinoDe(etapas[|etapas| - 1]))]
  }

  /** The models a training run leaves fitted. */
  function Ajustados(modelos: seq<string>, etapas: seq<Etapa>): (s: set<string>)
    requires |etapas| == |modelos|
    ensures forall m :: m in s <==> exists i :: 0 <= i < |modelos| && modelos[i] == m && Ajusta(etapas[i])
  {
    set i | 0 <= i < |modelos| && Ajusta(etapas[i]) :: modelos[i]
  }

  /** What mean_squared_error, r2_score and the directional accuracy give
      for a model on the test set, or the exception they raised. */
  datatype Medidas = Medidas(r2: real, acertoDirecao: real)

  /** One evaluation_results entry. */
  datatype Avaliacao = Avaliacao(r2: real, acertoDirecao: real, cv: real)

  /** The names with a trained model whose mean CV score is above 0, in
      order: good_models. */
  function Bons(treinos: seq<(string, Treino)>): (r: seq<string>)
    ensures |r| <= |treinos|
    decreases |treinos|
  {
    if treinos == [] then []
    else
      var (nome, t) := treinos[|treinos| - 1];
      Bons(treinos[..|treinos| - 1]) + (if t.Treinado? && t.cvMedia > 0.0 then [nome] else [])
  }

  /** A name is chosen exactly when some entry under it trained with a
      positive mean CV score. */
  lemma {:induction false} BonsSignifica(treinos: seq<(string, Treino)>)
    ensures forall nome :: nome in Bons(treinos) <==>
      exists i :: 0 <= i < |treinos| && treinos[i].0 == nome && treinos[i].1.Treinado? && treinos[i].1.cvMedia > 0.0
    decreases |treinos|
  {
    if treinos != [] {
      var n := |treinos| - 1;
      BonsSignifica(treinos[..n]);
      forall nome | nome in Bons(treinos)
        ensures exists i :: 0 <= i < |treinos| && treinos[i].0 == nome && treinos[i].1.Treinado? && treinos[i].1.cvMedia > 0.0
      {
        if nome in Bons(treinos[..n]) {
          var i :| 0 <= i < n && treinos[..n][i].0 == nome && treinos[..n][i].1.Treinado? && treinos[..n][i].1.cvMedia > 0.0;
          assert treinos[i] == treinos[..n][i];
        }
      }
      forall nome | exists i :: 0 <= i < |treinos| && treinos[i].0 == nome && treinos[i].1.Treinado? && treinos[i].1.cvMedia > 0.0
        ensures nome in Bons(treinos)
      {
        var i :| 0 <= i < |treinos| && treinos[i].0 == nome && treinos[i].1.Treinado? && treinos[i].1.cvMedia > 0.0;
        if i < n {
          assert treinos[..n][i] == treinos[i];
        }
      }
    }
  }

  /** create_ensemble_model: the names of the VotingRegressor's members, or
      None with fewer than two good models. */
  function Ensemble(treinos: seq<(string, Treino)>): (r: Option<seq<string>>)
    ensures r.None? <==> |Bons(treinos)| < 2
    ensures r.Some? ==> r.value == Bons(treinos)
  {
    var bons := Bons(treinos);
    if |bons| < 2 then None else Some(bons)
  }

  /** evaluate_models: the trained models whose test metrics could be
      computed, in order, each with its training CV score; a model whose
      training failed is skipped, and so is one whose metrics raised. */
  function Avalia(treinos: seq<(string, Treino)>, medidas: string -> Result<Medidas>): (r: seq<(string, Avaliacao)>)
    ensures |r| <= |treinos|
    decreases |treinos|
  {
    if treinos == [] then []
    else
      var (nome, t) := treinos[|treinos| - 1];
      var resto := Avalia(treinos[..|treinos| - 1], medidas);
      if t.Falhou? || medidas(nome).Err? then resto
      else resto + [(nome, Avaliacao(medidas(nome).value.r2, medidas(nome).value.acertoDirecao, t.cvMedia))]
  }

  /** Every evaluated model trained successfully and its metrics were
      computed; it carries those metrics and its own CV score. A model
      that failed to train is never evaluated. */
  lemma {:induction false} AvaliaSoTreinados(treinos: seq<(string, Treino)>, medidas: string -> Result<Medidas>)
    ensures forall e :: e in Avalia(treinos, medidas) ==>
      && medidas(e.0).Ok?
      && e.1.r2 == medidas(e.0).value.r2 && e.1.acertoDirecao == medidas(e.0).value.acertoDirecao
      && (e.0, Treinado(e.1.cv)) in treinos
    decreases |treinos|
  {
    if treinos != [] {
      var n := |treinos| - 1;
      AvaliaSoTreinados(treinos[..n], medidas);
      assert forall x :: x in treinos[..n] ==> x in treinos;
      var (nome, t) := treinos[n];
      if t.Treinado? {
        assert treinos[n] == (nome, Treinado(t.cvMedia));
      }
    }
  }

  /** A model that trained and whose metrics were computed is evaluated. */
  lemma {:induction false} AvaliaTodosTreinados(treinos: seq<(string, Treino)>, medidas: string -> Result<Medidas>, i: nat)
    requires i < |treinos| && treinos[i].1.Treinado? && medidas(treinos[i].0).Ok?
    ensures exists e :: e in Avalia(treinos, medidas) && e.0 == treinos[i].0
    decreases |treinos|
  {
    var n := |treinos| - 1;
    if i < n {
      assert treinos[..n][i] == treinos[i];
      AvaliaTodosTreinados(treinos[..n], medidas, i);
      var e :| e in Avalia(treinos[..n], medidas) && e.0 == treinos[i].0;
      assert e in Avalia(treinos, medidas);
    } else {
      var m := medidas(treinos[i].0).value;
      var e := (treinos[i].0, Avaliacao(m.r2, m.acertoDirecao, treinos[i].1.cvMedia));
      assert e == Avalia(treinos, medidas)[|Avalia(treinos, medidas)| - 1];
    }
  }

  // ---------------------------------------------------------------------
  // get_best_model

  /** max(evaluation_results, key=r2): the first entry with the largest r2,
      or None for no entries. */
  function Melhor(avaliacoes: seq<(string, Avaliacao)>): (r: Option<(string, Avaliacao)>)
    ensures r.None? <==> avaliacoes == []
    ensures r.Some? ==> r.value in avaliacoes
    decreases |avaliacoes|
  {
    if avaliacoes == [] then None
    else
      var n := |avaliacoes| - 1;
      var antes := Melhor(avaliacoes[..n]);
      if antes.None? || avaliacoes[n].1.r2 > antes.value.1.r2 then Some(avaliacoes[n])
      else antes
  }

  /** The best model has the largest r2 of all, and every entry before it
      has a strictly smaller one: ties go to the first. */
  lemma MelhorSignifica(avaliacoes: seq<(string, Avaliacao)>)
    requires avaliacoes != []
    ensures forall e :: e in avaliacoes ==> e.1.r2 <= Melhor(avaliacoes).value.1.r2
    ensures exists i :: (0 <= i < |avaliacoes| && avaliacoes[i] == Melhor(avaliacoes).value
      && forall j :: 0 <= j < i ==> avaliacoes[j].1.r2 < Melhor(avaliacoes).value.1.r2)
  {
    MelhorMaximo(avaliacoes);
    MelhorPrimeiro(avaliacoes);
  }

  /** No entry has a larger r2 than the best one. */
  lemma {:induction false} MelhorMaximo(avaliacoes: seq<(string, Avaliacao)>)
    requires avaliacoes != []
    ensures forall e :: e in avaliacoes ==> e.1.r2 <= Melhor(avaliacoes).value.1.r2
    decreases |avaliacoes|
  {
    var n := |avaliacoes| - 1;
    if n > 0 {
      MelhorMaximo(avaliacoes[..n]);
      assert forall e :: e in avaliacoes ==> e in avaliacoes[..n] || e == avaliacoes[n];
    }
  }

  /** The best entry sits after every entry whose r2 matches its own. */
  lemma MelhorPrimeiro(avaliacoes: seq<(string, Avaliacao)>)
    requires avaliacoes != []
    ensures exists i :: (0 <= i < |avaliacoes| && avaliacoes[i] == Melhor(avaliacoes).value
      && forall j :: 0 <= j < i ==> avaliacoes[j].1.r2 < Melhor(avaliacoes).value.1.r2)
  {
    var i := IndiceDoMelhor(avaliacoes);
  }

  /** The position of the best entry, found by the same recursion. */
  lemma {:induction false} IndiceDoMelhor(avaliacoes: seq<(string, Avaliacao)>) returns (i: nat)
    requires avaliacoes != []
    ensures i < |avaliacoes| && avaliacoes[i] == Melhor(avaliacoes).value
    ensures forall j :: 0 <= j < i ==> avaliacoes[j].1.r2 < Melhor(avaliacoes).value.1.r2
    decreases |avaliacoes|
  {
    var n := |avaliacoes| - 1;
    var m := Melhor(avaliacoes).value;
    if n == 0 {
      i := 0;
    } else {
      var k := IndiceDoMelhor(avaliacoes[..n]);
      var antes := Melhor(avaliacoes[..n]).value;
      if avaliacoes[n].1.r2 > antes.1.r2 {
        MelhorMaximo(avaliacoes[..n]);
        forall j | 0 <= j < n
          ensures avaliacoes[j].1.r2 < m.1.r2
        {
          assert avaliacoes[j] in avaliacoes[..n];
        }
        i := n;
      } else {
        forall j | 0 <= j < k
          ensures avaliacoes[j].1.r2 < m.1.r2
        {
          assert avaliacoes[j] == avaliacoes[..n][j];
        }
        i := k;
      }
    }
  }

  // ---------------------------------------------------------------------
  // predict_next_prices

  /** The prediction dictionary. */
  datatype Previsao = Previsao(
    precoAtual: real, retornoPrevisto: real, precoPrevisto: real,
    direcao: string, confianca: real, modelo: string)

  /** What predict_next_prices returns: the prediction, or the error
      dictionary for a last row without all its features. */
  datatype RespostaPrevisao = Prevista(previsao: Previsao) | SemFeatures(erro: string)

  /** The prediction for a return r at a price: price * (1 + r), UP for a
      positive r and DOWN otherwise, and |r| * 100 capped at 100. */
  function Converte(preco: real, retorno: real, modelo: string): (p: Previsao)
    ensures p.precoAtual == preco && p.retornoPrevisto == retorno && p.modelo == modelo
  {
    var confianca := Atr.Abs(retorno) * 100.0;
    Previsao(preco, retorno, preco * (1.0 + retorno),
      if retorno > 0.0 then "UP" else "DOWN",
      if confianca <= TetoConfianca then confianca else TetoConfianca,
      modelo)
  }

  /** The direction is UP exactly for a positive return; the confidence is
      in [0, 100], reaches 100 exactly from a 100 % move, and grows with
      the size of the move; at a positive price the predicted price is
      above the current one exactly for an UP prediction. */
  lemma ConverteSignifica(preco: real, retorno: real, modelo: string)
    ensures var p := Converte(preco, retorno, modelo);
      && (p.direcao == "UP" <==> retorno > 0.0)
      && (p.direcao == "DOWN" <==> retorno <= 0.0)
      && 0.0 <= p.confianca <= 100.0
      && (p.confianca == 100.0 <==> retorno >= 1.0 || retorno <= -1.0)
      && (preco > 0.0 ==> (p.precoPrevisto > preco <==> p.direcao == "UP"))
      && p.precoPrevisto - preco == preco * retorno
  {
    var p := Converte(preco, retorno, modelo);
    assert "UP" != "DOWN" by { assert "UP"[0] != "DOWN"[0]; }
    if preco > 0.0 {
      assert p.precoPrevisto - preco == preco * retorno;
      if retorno > 0.0 {
        assert preco * retorno > 0.0;
      } else {
        assert preco * retorno <= 0.0;
      }
    }
  }

  /** A larger move never gives a smaller confidence. */
  lemma ConfiancaCresce(preco: real, r1: real, r2: real, modelo: string)
    requires Atr.Abs(r1) <= Atr.Abs(r2)
    ensures Converte(preco, r1, modelo).confianca <= Converte(preco, r2, modelo).confianca
  {
  }

  /** predict_next_prices: an unknown model name raises ValueError; a last
      row with missing features gives the error dictionary; a model (or its
      scaler) never fitted makes transform or predict raise NotFittedError;
      otherwise the model's predicted return is converted at the last
      close. `retorno` is what the model predicts, None when the row had
      missing features. */
  function Preve(modelos: seq<string>, ajustados: set<string>, modelo: string, precoAtual: real, retorno: Option<real>): (r: Result<RespostaPrevisao>)
    ensures r.Err? <==> modelo !in modelos || (retorno.Some? && modelo !in ajustados)
    ensures r.Ok? ==> (r.value.SemFeatures? <==> retorno.None?)
    ensures r.Ok? && r.value.Prevista? ==> r.value.previsao == Converte(precoAtual, retorno.value, modelo)
  {
    if modelo !in modelos then Err("Modelo " + modelo + " não encontrado")
    else if retorno.None? then Ok(SemFeatures("Não foi possível extrair features dos dados"))
    else if modelo !in ajustados then Err("NotFittedError")
    else Ok(Prevista(Converte(precoAtual, retorno.value, modelo)))
  }

  class MLPredictor {
    /** The names of the models dictionary. */
    var modelos: seq<string>
    /** predictions_history. */
    var historico: seq<Previsao>
    /** The models whose scaler and regressor have been fitted. */
    var ajustados: set<string>

    constructor()
      ensures modelos == Modelos && historico == [] && ajustados == {}
    {
      modelos := Modelos;
      historico := [];
      ajustados := {};
    }

    /** train_models: one attempt per model, in order; a model fitted
        before stays fitted. */
    method TrainModels(etapas: seq<Etapa>) returns (resultados: seq<(string, Treino)>)
      requires |etapas| == |modelos|
      modifies this
      ensures modelos == old(modelos) && historico == old(historico)
      ensures resultados == Treina(modelos, etapas)
      ensures ajustados == old(ajustados) + Ajustados(modelos, etapas)
    {
      resultados := [];
      var i := 0;
      while i < |modelos|
        invariant 0 <= i <= |modelos|
        invariant modelos == old(modelos) && historico == old(historico)
        invariant resultados == Treina(modelos[..i], etapas[..i])
        invariant ajustados == old(ajustados) + Ajustados(modelos[..i], etapas[..i])
      {
        assert modelos[..i + 1][..i] == modelos[..i] && etapas[..i + 1][..i] == etapas[..i];
        if Ajusta(etapas[i]) {
          ajustados := ajustados + {modelos[i]};
        }
        resultados := resultados + [(modelos[i], TreinoDe(etapas[i]))];
        i := i + 1;
      }
      assert modelos[..i] == modelos && etapas[..i] == etapas;
    }

    /** predict_next_prices: a successful prediction is appended to the
        history, exactly once; an error of either kind leaves it as it
        was. */
    method PredictNextPrices(modelo: string, precoAtual: real, retorno: Option<real>) returns (r: Result<RespostaPrevisao>)
      modifies this
      ensures r == Preve(old(modelos), old(ajustados), modelo, precoAtual, retorno)
      ensures modelos == old(modelos) && ajustados == old(ajustados)
      ensures historico == old(historico) + (if r.Ok? && r.value.Prevista? then [r.value.previsao] else [])
    {
      r := Preve(modelos, ajustados, modelo, precoAtual, retorno);
      if r.Ok? && r.value.Prevista? {
        historico := historico + [r.value.previsao];
      }
    }
  }

  /** The default model is registered, so predict_next_prices never raises
      ValueError for it; before training it raises NotFittedError whenever
      the features are there, and after one training run it succeeds
      exactly when the default model's attempt got past model.fit. */
  lemma PadraoRegistrado(etapas: seq<Etapa>, precoAtual: real, retorno: Option<real>)
    requires |etapas| == |Modelos|
    ensures forall m :: m in Modelos ==> (Preve(Modelos, {}, m, precoAtual, retorno).Ok? <==> retorno.None?)
    ensures Preve(Modelos, Ajustados(Modelos, etapas), ModeloPadrao, precoAtual, retorno).Ok?
            <==> retorno.None? || Ajusta(etapas[0])
  {
    forall i | 1 <= i < |Modelos| ensures Modelos[i] != ModeloPadrao {
      assert |Modelos[i]| != |ModeloPadrao|;
    }
  }
}
