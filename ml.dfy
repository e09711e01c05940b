/**
  ML.py, the market dashboard's analysis: the ticker filter behind
  get_market_data, the three top-10 lists of get_top_movers, and the
  support and resistance levels of find_support_resistance with its
  group_levels helper. The exchange answer is an input; charts, the PDF,
  the e-mail and the schedule are not part of this model.
*/
module MercadoCripto {
  import opened Wrappers
  import Candles
  import Atr
  import opened Ordenacao

  /** top_count */
  const TopCount: nat := 10
  /** support_resistance_threshold: 2 % */
  const Tolerancia: real := 0.02
  /** The levels kept on each side of the price. */
  const NiveisMantidos: nat := 3

  // ---------------------------------------------------------------------
  // get_market_data

  /** One entry of the tickers list; a field that is missing or does not
      parse as a float is None. */
  datatype Ticker = Ticker(
    symbol: string, lastPrice: Option<real>, price24hPcnt: Option<real>,
    volume24h: Option<real>, turnover24h: Option<real>,
    highPrice24h: Option<real>, lowPrice24h: Option<real>)

  /** One market_data row. */
  datatype Mercado = Mercado(
    symbol: string, price: real, change24h: real, volume24h: real,
    volumeUsdt24h: real, high24h: real, low24h: real)

  predicate TerminaEmUsdt(s: string) {
    |s| >= 4 && s[|s| - 4..] == "USDT"
  }

  /** The row built from a ticker, or None when one of its fields raises
      (the loop catches ValueError, TypeError and KeyError and skips it). */
  function Converte(t: Ticker): (r: Option<Mercado>)
    ensures r.Some? <==> (t.lastPrice.Some? && t.price24hPcnt.Some? && t.volume24h.Some?
      && t.turnover24h.Some? && t.highPrice24h.Some? && t.lowPrice24h.Some?)
    ensures r.Some? ==> (r.value.symbol == t.symbol && r.value.volumeUsdt24h == t.turnover24h.value
      && r.value.change24h == 100.0 * t.price24hPcnt.value)
  {
    if t.lastPrice.None? || t.price24hPcnt.None? || t.volume24h.None?
       || t.turnover24h.None? || t.highPrice24h.None? || t.lowPrice24h.None? then None
    else Some(Mercado(t.symbol, t.lastPrice.value, t.price24hPcnt.value * 100.0, t.volume24h.value,
                      t.turnover24h.value, t.highPrice24h.value, t.lowPrice24h.value))
  }

  /** The rows the loop appends, in ticker order. */
  function Filtra(ts: seq<Ticker>): seq<Mercado>
    decreases |ts|
  {
    if ts == [] then []
    else
      var t := ts[|ts| - 1];
      Filtra(ts[..|ts| - 1]) + (if TerminaEmUsdt(t.symbol) && Converte(t).Some? then [Converte(t).value] else [])
  }

  /** get_market_data on the exchange's answer: an error answer gives the
      empty list. */
  method ColetarDadosMercado(resposta: Result<seq<Ticker>>) returns (dados: seq<Mercado>)
    ensures resposta.Err? ==> dados == []
    ensures resposta.Ok? ==> dados == Filtra(resposta.value)
  {
    if resposta.Err? {
      return [];
    }
    var ts := resposta.value;
    dados := [];
    var i := 0;
    while i < |ts|
      invariant 0 <= i <= |ts|
      invariant dados == Filtra(ts[..i])
    {
      assert ts[..i + 1][..i] == ts[..i];
      var t := ts[i];
      if TerminaEmUsdt(t.symbol) {
        var m := Converte(t);
        if m.Some? {
          dados := dados + [m.value];
        }
      }
      i := i + 1;
    }
    assert ts[..|ts|] == ts;
  }

  /** The market data holds exactly the USDT tickers whose fields all
      parse: every row comes from such a ticker, and every such ticker
      gives a row. */
  lemma {:induction false} FiltraSignifica(ts: seq<Ticker>)
    ensures |Filtra(ts)| <= |ts|
    ensures forall m :: m in Filtra(ts) ==> TerminaEmUsdt(m.symbol) && exists t :: t in ts && Converte(t) == Some(m)
    ensures forall t :: t in ts && TerminaEmUsdt(t.symbol) && Converte(t).Some? ==> Converte(t).value in Filtra(ts)
    decreases |ts|
  {
    if ts != [] {
      var antes := ts[..|ts| - 1];
      FiltraSignifica(antes);
      forall t | t in ts
        ensures t in antes || t == ts[|ts| - 1]
      {
        var j :| 0 <= j < |ts| && ts[j] == t;
        if j < |ts| - 1 {
          assert antes[j] == t;
        }
      }
      forall m | m in Filtra(ts)
        ensures TerminaEmUsdt(m.symbol) && exists t :: t in ts && Converte(t) == Some(m)
      {
        if m in Filtra(antes) {
          var t :| t in antes && Converte(t) == Some(m);
          assert t in ts;
        } else {
          assert Converte(ts[|ts| - 1]) == Some(m);
        }
      }
    }
  }

  // ---------------------------------------------------------------------
  // get_top_movers

  function VolumesUsdt(dados: seq<Mercado>): (vs: seq<real>)
    ensures |vs| == |dados| && forall i :: 0 <= i < |dados| ==> vs[i] == dados[i].volumeUsdt24h
  {
    seq(|dados|, i requires 0 <= i < |dados| => dados[i].volumeUsdt24h)
  }

  function Valor(x: real): real { x }
  function Oposto(x: real): real { -x }
  function Variacao(m: Mercado): real { m.change24h }
  function MenosVariacao(m: Mercado): real { -m.change24h }
  function MenosVolume(m: Mercado): real { -m.volumeUsdt24h }

  /** The whole part of 0.7 * (n - 1), the position of the quantile. */
  function Posicao70(n: nat): (lo: nat)
    requires n > 0
    ensures lo < n
  {
    7 * (n - 1) / 10
  }

  /** The fractional part of 0.7 * (n - 1). */
  function Fracao70(n: nat): (f: real)
    ensures 0.0 <= f < 1.0
  {
    (7 * (n - 1) % 10) as real / 10.0
  }

  /** Series.quantile(0.7) with pandas' linear interpolation: the position
      0.7 * (n - 1) in the sorted values, between its two neighbours. */
  function Quantil70(vs: seq<real>): real
    requires |vs| > 0
  {
    Interpola70(OrdenaPor(vs, Valor))
  }

  function Interpola70(s: seq<real>): real
    requires |s| > 0
  {
    var lo := Posicao70(|s|);
    if lo + 1 < |s| then Interpola(s[lo], s[lo + 1], Fracao70(|s|)) else s[lo]
  }

  /** lo + f * (hi - lo): for f in [0, 1] a point between lo and hi. */
  function Interpola(lo: real, hi: real, f: real): (r: real)
    ensures 0.0 <= f <= 1.0 && lo <= hi ==> lo <= r <= hi
  {
    var d := f * (hi - lo);
    FracaoEntre(f, hi - lo, d);
    lo + d
  }

  /** A fraction f of a non-negative span lies between 0 and the span. */
  lemma FracaoEntre(f: real, span: real, d: real)
    requires d == f * span
    ensures 0.0 <= f <= 1.0 && 0.0 <= span ==> 0.0 <= d <= span
  {
    if 0.0 <= f <= 1.0 && 0.0 <= span {
      assert f * span <= 1.0 * span;
    }
  }

  /** The quantile lies between the smallest and the largest value, so
      some value reaches it. */
  lemma Quantil70Entre(vs: seq<real>)
    requires |vs| > 0
    ensures exists i :: 0 <= i < |vs| && vs[i] >= Quantil70(vs)
    ensures exists i :: 0 <= i < |vs| && vs[i] <= Quantil70(vs)
  {
    var s := OrdenaPor(vs, Valor);
    OrdenaPorOrdena(vs, Valor);
    var lo := Posicao70(|vs|);
    Interpola70NaOrdem(s);
    assert s[|s| - 1] in multiset(vs) && s[lo] in multiset(vs);
    var a :| 0 <= a < |vs| && vs[a] == s[|s| - 1];
    var b :| 0 <= b < |vs| && vs[b] == s[lo];
  }

  /** In sorted values the interpolated quantile sits between the value at
      its position and the largest one. */
  lemma Interpola70NaOrdem(s: seq<real>)
    requires |s| > 0 && OrdenadaPor(s, Valor)
    ensures s[Posicao70(|s|)] <= Interpola70(s) <= s[|s| - 1]
  {
    var lo := Posicao70(|s|);
    assert Valor(s[lo]) <= Valor(s[|s| - 1]);
    if lo + 1 < |s| {
      assert Valor(s[lo]) <= Valor(s[lo + 1]) <= Valor(s[|s| - 1]);
    }
  }

  /** The rows whose USDT volume is at least the minimum. */
  function ComVolume(dados: seq<Mercado>, minimo: real): (r: seq<Mercado>)
    decreases |dados|
  {
    if dados == [] then []
    else
      var m := dados[|dados| - 1];
      ComVolume(dados[..|dados| - 1], minimo) + (if m.volumeUsdt24h >= minimo then [m] else [])
  }

  lemma {:induction false} ComVolumeSignifica(dados: seq<Mercado>, minimo: real)
    ensures forall m :: m in ComVolume(dados, minimo) <==> m in dados && m.volumeUsdt24h >= minimo
    decreases |dados|
  {
    if dados != [] {
      var antes := dados[..|dados| - 1];
      ComVolumeSignifica(antes, minimo);
      assert dados == antes + [dados[|dados| - 1]];
    }
  }

  datatype Movers = Movers(gainers: seq<Mercado>, losers: seq<Mercado>, volume: seq<Mercado>)

  /** get_top_movers: gainers and losers among the rows with a USDT volume
      at or above the 70 % quantile, the volume list among all rows. An
      empty list has no volume column (KeyError): None. */
  function TopMovers(dados: seq<Mercado>): (r: Option<Movers>)
    ensures r.None? <==> dados == []
  {
    if dados == [] then None
    else
      var filtrados := ComVolume(dados, Quantil70(VolumesUsdt(dados)));
      Some(Movers(
        Primeiros(filtrados, MenosVariacao, TopCount),
        Primeiros(filtrados, Variacao, TopCount),
        Primeiros(dados, MenosVolume, TopCount)))
  }

  /** The volume filter keeps at least one row, so with market data there
      is at least one gainer and one loser; every gainer and loser passed
      the filter, and each list has at most 10 rows, as many as there are
      when fewer. */
  lemma TopMoversFiltro(dados: seq<Mercado>)
    requires dados != []
    ensures var q, t := Quantil70(VolumesUsdt(dados)), TopMovers(dados).value;
      && 0 < |t.gainers| <= TopCount && 0 < |t.losers| <= TopCount
      && |t.volume| == (if |dados| <= TopCount then |dados| else TopCount)
      && (forall m :: m in t.gainers ==> m in dados && m.volumeUsdt24h >= q)
      && (forall m :: m in t.losers ==> m in dados && m.volumeUsdt24h >= q)
  {
    var vs := VolumesUsdt(dados);
    var q := Quantil70(vs);
    var filtrados := ComVolume(dados, q);
    Quantil70Entre(vs);
    var i :| 0 <= i < |vs| && vs[i] >= q;
    ComVolumeSignifica(dados, q);
    assert dados[i] in filtrados;
    PrimeirosOrdenados(filtrados, MenosVariacao, TopCount);
    PrimeirosOrdenados(filtrados, Variacao, TopCount);
    PrimeirosOrdenados(dados, MenosVolume, TopCount);
    var t := TopMovers(dados).value;
    forall m | m in t.gainers
      ensures m in filtrados
    {
      assert m in multiset(t.gainers);
    }
    forall m | m in t.losers
      ensures m in filtrados
    {
      assert m in multiset(t.losers);
    }
  }

  /** The gainers come in descending order of change, and no row that
      passed the volume filter and was left out rose more than the last
      gainer. */
  lemma TopGainersOrdem(dados: seq<Mercado>)
    requires dados != []
    ensures var q, t := Quantil70(VolumesUsdt(dados)), TopMovers(dados).value;
      && OrdenadaPor(t.gainers, MenosVariacao)
      && forall m :: m in dados && m.volumeUsdt24h >= q && m !in t.gainers ==>
           |t.gainers| > 0 && m.change24h <= t.gainers[|t.gainers| - 1].change24h
  {
    var q := Quantil70(VolumesUsdt(dados));
    var filtrados := ComVolume(dados, q);
    ComVolumeSignifica(dados, q);
    PrimeirosOrdenados(filtrados, MenosVariacao, TopCount);
    PrimeirosMenores(filtrados, MenosVariacao, TopCount);
  }

  /** The losers come in ascending order of change, and no row that passed
      the volume filter and was left out fell more than the last loser. */
  lemma TopLosersOrdem(dados: seq<Mercado>)
    requires dados != []
    ensures var q, t := Quantil70(VolumesUsdt(dados)), TopMovers(dados).value;
      && OrdenadaPor(t.losers, Variacao)
      && forall m :: m in dados && m.volumeUsdt24h >= q && m !in t.losers ==>
           |t.losers| > 0 && m.change24h >= t.losers[|t.losers| - 1].change24h
  {
    var q := Quantil70(VolumesUsdt(dados));
    var filtrados := ComVolume(dados, q);
    ComVolumeSignifica(dados, q);
    PrimeirosOrdenados(filtrados, Variacao, TopCount);
    PrimeirosMenores(filtrados, Variacao, TopCount);
  }

  /** The volume list comes in descending order of USDT volume over all
      rows, and no row left out traded more than its last row. */
  lemma TopVolumeOrdem(dados: seq<Mercado>)
    requires dados != []
    ensures var t := TopMovers(dados).value;
      && OrdenadaPor(t.volume, MenosVolume)
      && forall m :: m in dados && m !in t.volume ==>
           |t.volume| > 0 && m.volumeUsdt24h <= t.volume[|t.volume| - 1].volumeUsdt24h
  {
    PrimeirosOrdenados(dados, MenosVolume, TopCount);
    PrimeirosMenores(dados, MenosVolume, TopCount);
  }

  // ---------------------------------------------------------------------
  // find_support_resistance

  /** The value at i is strictly above (a peak, topo) or strictly below (a
      trough) the two values on each side of it. */
  predicate Extremo(xs: seq<real>, i: int, topo: bool)
    requires 2 <= i && i + 2 < |xs|
  {
    if topo then xs[i] > xs[i - 1] && xs[i] > xs[i - 2] && xs[i] > xs[i + 1] && xs[i] > xs[i + 2]
    else xs[i] < xs[i - 1] && xs[i] < xs[i - 2] && xs[i] < xs[i + 1] && xs[i] < xs[i + 2]
  }

  /** The levels the loop over range(2, k) appends, in index order. */
  function Extremos(xs: seq<real>, k: int, topo: bool): seq<real>
    requires k <= 2 || k + 2 <= |xs|
    decreases k
  {
    if k <= 2 then [] else Extremos(xs, k - 1, topo) + (if Extremo(xs, k - 1, topo) then [xs[k - 1]] else [])
  }

  /** One of the two loops of find_support_resistance over
      range(2, len(xs) - 2). */
  method EncontrarExtremos(xs: seq<real>, topo: bool) returns (niveis: seq<real>)
    ensures niveis == Extremos(xs, |xs| - 2, topo)
  {
    niveis := [];
    var i := 2;
    while i < |xs| - 2
      invariant i == 2 || 2 <= i <= |xs| - 2
      invariant niveis == Extremos(xs, i, topo)
    {
      if Extremo(xs, i, topo) {
        niveis := niveis + [xs[i]];
      }
      i := i + 1;
    }
  }

  /** A level is found exactly when it sits at an index of range(2, k)
      that is a peak (or a trough); there are at most k - 2 of them. */
  lemma {:induction false} ExtremosSignificam(xs: seq<real>, k: int, topo: bool)
    requires k <= 2 || k + 2 <= |xs|
    ensures forall x :: x in Extremos(xs, k, topo) <==> exists i :: 2 <= i < k && Extremo(xs, i, topo) && xs[i] == x
    ensures |Extremos(xs, k, topo)| <= (if k <= 2 then 0 else k - 2)
    decreases k
  {
    if k > 2 {
      ExtremosSignificam(xs, k - 1, topo);
    }
  }

  /** Two levels go together when the new one is within 2 % of the last
      level of the group. The division is numpy's: by a zero level it gives
      inf or nan, and both compare False. */
  predicate Proximo(nivel: real, ultimo: real) {
    ultimo != 0.0 && Atr.Abs(nivel - ultimo) / ultimo <= Tolerancia
  }

  /** grouped and current_group after the first k sorted levels. */
  datatype Agrupamento = Agrupamento(fechados: seq<seq<real>>, atual: seq<real>)

  function Agrupa(s: seq<real>, k: nat): (a: Agrupamento)
    requires 1 <= k <= |s|
    ensures |a.atual| > 0 && |a.fechados| < k
    ensures forall g :: g in a.fechados ==> |g| > 0
    decreases k
  {
    if k == 1 then Agrupamento([], [s[0]])
    else
      var a := Agrupa(s, k - 1);
      if Proximo(s[k - 1], a.atual[|a.atual| - 1]) then Agrupamento(a.fechados, a.atual + [s[k - 1]])
      else Agrupamento(a.fechados + [a.atual], [s[k - 1]])
  }

  /** The groups of a sorted list of levels: none for no levels. */
  function Grupos(s: seq<real>): (gs: seq<seq<real>>)
    ensures forall g :: g in gs ==> |g| > 0
    ensures |gs| <= |s| && (gs == [] <==> s == [])
  {
    if s == [] then [] else Agrupa(s, |s|).fechados + [Agrupa(s, |s|).atual]
  }

  /** np.mean of each group. */
  function Medias(gs: seq<seq<real>>): (ms: seq<real>)
    requires forall g :: g in gs ==> |g| > 0
    ensures |ms| == |gs|
  {
    seq(|gs|, i requires 0 <= i < |gs| => Candles.Mean(gs[i]))
  }

  /** group_levels(levels). */
  function AgrupaNiveis(levels: seq<real>): (r: seq<real>)
    ensures |r| <= |levels| && (r == [] <==> levels == [])
  {
    Medias(Grupos(OrdenaPor(levels, Valor)))
  }

  lemma MediasAnexa(gs: seq<seq<real>>, g: seq<real>)
    requires forall h :: h in gs ==> |h| > 0
    requires |g| > 0
    ensures Medias(gs + [g]) == Medias(gs) + [Candles.Mean(g)]
  {
    var a, b := Medias(gs + [g]), Medias(gs) + [Candles.Mean(g)];
    forall i | 0 <= i < |a|
      ensures a[i] == b[i]
    {
      if i < |gs| {
        assert (gs + [g])[i] == gs[i];
      }
    }
  }

  /** group_levels as the helper runs it: sort, then one pass that either
      extends the current group or closes it with its mean. */
  method AgruparNiveis(levels: seq<real>) returns (grouped: seq<real>)
    ensures grouped == AgrupaNiveis(levels)
  {
    if levels == [] {
      return [];
    }
    var s := OrdenaPor(levels, Valor);
    grouped := [];
    var atual := [s[0]];
    var i := 1;
    while i < |s|
      invariant 1 <= i <= |s|
      invariant atual == Agrupa(s, i).atual
      invariant grouped == Medias(Agrupa(s, i).fechados)
    {
      var a := Agrupa(s, i);
      if Proximo(s[i], atual[|atual| - 1]) {
        atual := atual + [s[i]];
      } else {
        MediasAnexa(a.fechados, atual);
        grouped := grouped + [Candles.Mean(atual)];
        atual := [s[i]];
      }
      i := i + 1;
    }
    MediasAnexa(Agrupa(s, |s|).fechados, atual);
    grouped := grouped + [Candles.Mean(atual)];
  }

  /** The groups laid end to end. */
  function Achata(gs: seq<seq<real>>): seq<real>
    decreases |gs|
  {
    if gs == [] then [] else Achata(gs[..|gs| - 1]) + gs[|gs| - 1]
  }

  /** Consecutive levels of a group are within 2 % of each other. */
  predicate Coeso(g: seq<real>) {
    forall i :: 0 < i < |g| ==> Proximo(g[i], g[i - 1])
  }

  /** Group b, which follows group a, starts more than 2 % away from the
      last level of a. */
  predicate Separa(a: seq<real>, b: seq<real>) {
    |a| > 0 && |b| > 0 && !Proximo(b[0], a[|a| - 1])
  }

  predicate Separados(gs: seq<seq<real>>) {
    forall j :: 0 < j < |gs| ==> Separa(gs[j - 1], gs[j])
  }

  lemma {:induction false} AgrupaAchata(s: seq<real>, k: nat)
    requires 1 <= k <= |s|
    ensures Achata(Agrupa(s, k).fechados) + Agrupa(s, k).atual == s[..k]
    decreases k
  {
    if k > 1 {
      AgrupaAchata(s, k - 1);
      var a := Agrupa(s, k - 1);
      assert s[..k] == s[..k - 1] + [s[k - 1]];
      if !Proximo(s[k - 1], a.atual[|a.atual| - 1]) {
        var f := a.fechados + [a.atual];
        assert f[..|f| - 1] == a.fechados;
      }
    }
  }

  lemma CoesoAnexa(g: seq<real>, x: real)
    requires |g| > 0 && Coeso(g) && Proximo(x, g[|g| - 1])
    ensures Coeso(g + [x])
  {
    var c := g + [x];
    forall i | 0 < i < |c|
      ensures Proximo(c[i], c[i - 1])
    {
      if i < |c| - 1 {
        assert c[i] == g[i] && c[i - 1] == g[i - 1];
      }
    }
  }

  lemma {:induction false} AgrupaCoeso(s: seq<real>, k: nat)
    requires 1 <= k <= |s|
    ensures forall g :: g in Agrupa(s, k).fechados ==> Coeso(g)
    ensures Coeso(Agrupa(s, k).atual)
    decreases k
  {
    if k > 1 {
      AgrupaCoeso(s, k - 1);
      var a := Agrupa(s, k - 1);
      if Proximo(s[k - 1], a.atual[|a.atual| - 1]) {
        CoesoAnexa(a.atual, s[k - 1]);
      }
    }
  }

  lemma SeparadosAnexa(gs: seq<seq<real>>, g: seq<real>)
    requires Separados(gs) && |gs| > 0 && Separa(gs[|gs| - 1], g)
    ensures Separados(gs + [g])
  {
    var h := gs + [g];
    forall j | 0 < j < |h|
      ensures Separa(h[j - 1], h[j])
    {
      if j < |h| - 1 {
        assert h[j] == gs[j] && h[j - 1] == gs[j - 1];
      }
    }
  }

  lemma SeparadosEstende(gs: seq<seq<real>>, g: seq<real>, x: real)
    requires Separados(gs + [g])
    ensures Separados(gs + [g + [x]])
  {
    var a, h := gs + [g], gs + [g + [x]];
    forall j | 0 < j < |h|
      ensures Separa(h[j - 1], h[j])
    {
      assert h[j - 1] == a[j - 1];
      assert Separa(a[j - 1], a[j]);
      assert h[j][0] == a[j][0];
    }
  }

  lemma {:induction false} AgrupaSepara(s: seq<real>, k: nat)
    requires 1 <= k <= |s|
    ensures Separados(Agrupa(s, k).fechados + [Agrupa(s, k).atual])
    decreases k
  {
    if k > 1 {
      AgrupaSepara(s, k - 1);
      var a := Agrupa(s, k - 1);
      if Proximo(s[k - 1], a.atual[|a.atual| - 1]) {
        SeparadosEstende(a.fechados, a.atual, s[k - 1]);
      } else {
        SeparadosAnexa(a.fechados + [a.atual], [s[k - 1]]);
      }
    }
  }

  /** group_levels partitions the sorted levels into runs: laid end to end
      the groups give the sorted levels back, consecutive levels within a
      group are within 2 % of each other, and each group starts more than
      2 % away from the end of the one before it. */
  lemma GruposParticionam(s: seq<real>)
    ensures Achata(Grupos(s)) == s
    ensures forall g :: g in Grupos(s) ==> Coeso(g)
    ensures Separados(Grupos(s))
  {
    if s != [] {
      AgrupaAchata(s, |s|);
      AgrupaCoeso(s, |s|);
      AgrupaSepara(s, |s|);
      var a := Agrupa(s, |s|);
      var gs := a.fechados + [a.atual];
      assert gs[..|gs| - 1] == a.fechados;
      assert s[..|s|] == s;
    }
  }

  lemma OrdenadaAnexa(xs: seq<real>, x: real)
    requires OrdenadaPor(xs, Valor)
    requires forall m :: m in xs ==> m <= x
    ensures OrdenadaPor(xs + [x], Valor)
  {
    var ys := xs + [x];
    forall i, j | 0 <= i < j < |ys|
      ensures Valor(ys[i]) <= Valor(ys[j])
    {
      if j < |xs| {
        assert ys[i] == xs[i] && ys[j] == xs[j];
      } else {
        assert ys[i] in xs;
      }
    }
  }

  lemma EntreAnexa(g: seq<real>, hi: real, x: real)
    requires |g| > 0 && hi <= x
    requires forall y :: y in g ==> g[0] <= y <= hi
    ensures forall y :: y in g + [x] ==> (g + [x])[0] <= y <= x
  {
    assert (g + [x])[0] == g[0];
    assert g[0] in g;
  }

  /** Over sorted levels, the means of the closed groups are ascending and
      not above the first level of the current group, whose levels lie
      between its first one and the last level read. */
  lemma {:induction false} AgrupaMediasCrescem(s: seq<real>, k: nat)
    requires 1 <= k <= |s| && OrdenadaPor(s, Valor)
    ensures OrdenadaPor(Medias(Agrupa(s, k).fechados), Valor)
    ensures forall m :: m in Medias(Agrupa(s, k).fechados) ==> m <= Agrupa(s, k).atual[0]
    ensures forall x :: x in Agrupa(s, k).atual ==> Agrupa(s, k).atual[0] <= x <= s[k - 1]
    decreases k
  {
    if k > 1 {
      AgrupaMediasCrescem(s, k - 1);
      var a := Agrupa(s, k - 1);
      assert Valor(s[k - 2]) <= Valor(s[k - 1]);
      if !Proximo(s[k - 1], a.atual[|a.atual| - 1]) {
        assert Agrupa(s, k) == Agrupamento(a.fechados + [a.atual], [s[k - 1]]);
        FechaGrupoCresce(a.fechados, a.atual, s[k - 2], s[k - 1]);
      } else {
        assert Agrupa(s, k) == Agrupamento(a.fechados, a.atual + [s[k - 1]]);
        EntreAnexa(a.atual, s[k - 2], s[k - 1]);
      }
    }
  }

  /** Closing a group whose levels lie between its first one and hi keeps
      the means ascending, all of them at most any later level x. */
  lemma FechaGrupoCresce(fechados: seq<seq<real>>, atual: seq<real>, hi: real, x: real)
    requires |atual| > 0 && (forall g :: g in fechados ==> |g| > 0)
    requires OrdenadaPor(Medias(fechados), Valor)
    requires forall m :: m in Medias(fechados) ==> m <= atual[0]
    requires forall y :: y in atual ==> atual[0] <= y <= hi
    requires hi <= x
    ensures OrdenadaPor(Medias(fechados + [atual]), Valor)
    ensures forall m :: m in Medias(fechados + [atual]) ==> m <= x
  {
    Candles.MediaEntre(atual, atual[0], hi);
    MediasAnexa(fechados, atual);
    OrdenadaAnexa(Medias(fechados), Candles.Mean(atual));
    assert atual[0] in atual;
  }

  /** group_levels returns its levels in ascending order. */
  lemma AgrupaNiveisOrdenada(levels: seq<real>)
    ensures OrdenadaPor(AgrupaNiveis(levels), Valor)
  {
    var s := OrdenaPor(levels, Valor);
    if s != [] {
      OrdenaPorOrdena(levels, Valor);
      AgrupaMediasCrescem(s, |s|);
      var a := Agrupa(s, |s|);
      Candles.MediaEntre(a.atual, a.atual[0], s[|s| - 1]);
      MediasAnexa(a.fechados, a.atual);
      OrdenadaAnexa(Medias(a.fechados), Candles.Mean(a.atual));
    }
  }

  /** [r for r in ns if r > preco] (acima) or [s for s in ns if s < preco]. */
  function Lado(ns: seq<real>, preco: real, acima: bool): (r: seq<real>)
    ensures forall x :: x in r <==> x in ns && (if acima then x > preco else x < preco)
    ensures |r| <= |ns|
    decreases |ns|
  {
    if ns == [] then []
    else
      var x := ns[|ns| - 1];
      Lado(ns[..|ns| - 1], preco, acima) + (if (if acima then x > preco else x < preco) then [x] else [])
  }

  /** The dictionary find_support_resistance returns. */
  datatype Niveis = Niveis(suporte: seq<real>, resistencia: seq<real>)

  /** The grouped peaks of the highs and the grouped troughs of the lows. */
  function Resistencias(df: seq<Candles.Candle>): seq<real> {
    AgrupaNiveis(Extremos(Candles.Highs(df), |df| - 2, true))
  }

  function Suportes(df: seq<Candles.Candle>): seq<real> {
    AgrupaNiveis(Extremos(Candles.Lows(df), |df| - 2, false))
  }

  /** sorted([r for r in ns if r > preco])[:3]. */
  function Acima(ns: seq<real>, preco: real): (r: seq<real>)
    ensures |r| <= NiveisMantidos
  {
    Primeiros(Lado(ns, preco, true), Valor, NiveisMantidos)
  }

  /** sorted([s for s in ns if s < preco], reverse=True)[:3]. */
  function Abaixo(ns: seq<real>, preco: real): (r: seq<real>)
    ensures |r| <= NiveisMantidos
  {
    Primeiros(Lado(ns, preco, false), Oposto, NiveisMantidos)
  }

  /** find_support_resistance(df): nothing for an empty frame; otherwise the
      three nearest grouped peaks above the last close, ascending, and the
      three nearest grouped troughs below it, descending. */
  function SuporteResistencia(df: seq<Candles.Candle>): (r: Niveis)
    ensures df == [] ==> r == Niveis([], [])
    ensures |r.suporte| <= NiveisMantidos && |r.resistencia| <= NiveisMantidos
  {
    if df == [] then Niveis([], [])
    else
      var preco := df[|df| - 1].close;
      Niveis(Abaixo(Suportes(df), preco), Acima(Resistencias(df), preco))
  }

  /** find_support_resistance as the analyser runs it: the two scans, the
      two groupings, the filters and the sorts. */
  method EncontrarSuporteResistencia(df: seq<Candles.Candle>) returns (niveis: Niveis)
    ensures niveis == SuporteResistencia(df)
  {
    if df == [] {
      return Niveis([], []);
    }
    var picos := EncontrarExtremos(Candles.Highs(df), true);
    var vales := EncontrarExtremos(Candles.Lows(df), false);
    var resistencias := AgruparNiveis(picos);
    var suportes := AgruparNiveis(vales);
    var preco := df[|df| - 1].close;
    niveis := Niveis(Abaixo(suportes, preco), Acima(resistencias, preco));
  }

  /** An empty frame has no levels. */
  lemma SemVelasSemNiveis()
    ensures SuporteResistencia([]) == Niveis([], [])
  {
  }

  /** The levels above a price that are kept are at most three, above it,
      and in ascending order; AcimaNaoPula adds that no level above it that
      was left out is nearer to it than the last one kept. */
  lemma AcimaMaisProximos(ns: seq<real>, preco: real)
    ensures |Acima(ns, preco)| <= NiveisMantidos
    ensures OrdenadaPor(Acima(ns, preco), Valor)
    ensures forall x :: x in Acima(ns, preco) ==> x in ns && x > preco
  {
    var l := Lado(ns, preco, true);
    PrimeirosOrdenados(l, Valor, NiveisMantidos);
    PrimeirosContidos(l, Valor, NiveisMantidos);
  }

  lemma AcimaNaoPula(ns: seq<real>, preco: real)
    ensures forall x :: x in ns && x > preco && x !in Acima(ns, preco) ==>
      |Acima(ns, preco)| > 0 && Acima(ns, preco)[|Acima(ns, preco)| - 1] <= x
  {
    PrimeirosMenores(Lado(ns, preco, true), Valor, NiveisMantidos);
  }

  /** The mirror image below a price, in descending order (and
      AbaixoNaoPula). */
  lemma AbaixoMaisProximos(ns: seq<real>, preco: real)
    ensures |Abaixo(ns, preco)| <= NiveisMantidos
    ensures OrdenadaPor(Abaixo(ns, preco), Oposto)
    ensures forall x :: x in Abaixo(ns, preco) ==> x in ns && x < preco
  {
    var l := Lado(ns, preco, false);
    PrimeirosOrdenados(l, Oposto, NiveisMantidos);
    PrimeirosContidos(l, Oposto, NiveisMantidos);
  }

  lemma AbaixoNaoPula(ns: seq<real>, preco: real)
    ensures forall x :: x in ns && x < preco && x !in Abaixo(ns, preco) ==>
      |Abaixo(ns, preco)| > 0 && x <= Abaixo(ns, preco)[|Abaixo(ns, preco)| - 1]
  {
    PrimeirosMenores(Lado(ns, preco, false), Oposto, NiveisMantidos);
  }

  /** The resistances are the nearest grouped peaks above the last close. */
  lemma ResistenciasAcima(df: seq<Candles.Candle>)
    requires df != []
    ensures SuporteResistencia(df).resistencia == Acima(Resistencias(df), df[|df| - 1].close)
    ensures |SuporteResistencia(df).resistencia| <= NiveisMantidos
    ensures OrdenadaPor(SuporteResistencia(df).resistencia, Valor)
    ensures forall x :: x in SuporteResistencia(df).resistencia ==> x in Resistencias(df) && x > df[|df| - 1].close
  {
    AcimaMaisProximos(Resistencias(df), df[|df| - 1].close);
  }

  /** The supports are the nearest grouped troughs below the last close. */
  lemma SuportesAbaixo(df: seq<Candles.Candle>)
    requires df != []
    ensures SuporteResistencia(df).suporte == Abaixo(Suportes(df), df[|df| - 1].close)
    ensures |SuporteResistencia(df).suporte| <= NiveisMantidos
    ensures OrdenadaPor(SuporteResistencia(df).suporte, Oposto)
    ensures forall x :: x in SuporteResistencia(df).suporte ==> x in Suportes(df) && x < df[|df| - 1].close
  {
    AbaixoMaisProximos(Suportes(df), df[|df| - 1].close);
  }
}
