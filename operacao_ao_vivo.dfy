/**
  What the live bots built on funcoes_bybit share: the startup read of the
  open position, the variables the while True loop carries from one pass
  to the next, the exit branches that watch the target and the stop, and
  the entry that sends an order and then changes state.
*/
module OperacaoAoVivo {
  import opened Wrappers
  import opened Candles
  import opened EstadoTrade
  import opened FuncoesBybit

  /** The startup loop calls tem_trade_aberto at most five times. */
  const MaxTentativas: nat := 5

  /** Why a trade was left: the target, the stop, or a position that the
      exchange already reports closed (closed by hand or by the exchange's
      own stop orders). */
  datatype Motivo = BateuAlvo | BateuStop | FechadoNaCorretora

  /** One exit: the opening time of the candle that closed the trade. */
  datatype Fechamento = Fechamento(vela: int, motivo: Motivo)

  /** A call to one of the helpers the bots import from funcoes_bybit that
      funcoes_bybit does not define (abre_parcial_compra/venda,
      stop_breakeven_compra/venda, reduzir_posicao): only the arguments
      are known, so the model records the call and nothing more. */
  datatype Pedido =
    | ParcialCompra(qtdTotal: real, entrada: real)
    | ParcialVenda(qtdTotal: real, entrada: real)
    | BreakevenCompra(entrada: real, parcial: real, estado: Side, precoAtual: real)
    | BreakevenVenda(entrada: real, parcial: real, estado: Side, precoAtual: real)
    | ReduzPosicao(fracao: real)

  /** The module-level variables of a live bot: estado_de_trade (the first
      value tem_trade_aberto returned, so possibly a side text no branch
      matches), preco_entrada, preco_stop, preco_alvo, vela_fechou_trade,
      and the orders sent and exits seen so far. */
  datatype Bot = Bot(estado: Side, entrada: real, stop: real, alvo: real,
                     velaFechouTrade: Option<int>, ordens: seq<Order>, fechamentos: seq<Fechamento>)

  function BotDe(t: OpenTrade): (b: Bot)
    ensures b.estado == t.estado && b.entrada == t.precoEntrada
    ensures b.stop == t.precoStop && b.alvo == t.precoAlvo
    ensures b.velaFechouTrade.None? && b.ordens == [] && b.fechamentos == []
  {
    Bot(t.estado, t.precoEntrada, t.precoStop, t.precoAlvo, None, [], [])
  }

  /** The index of the first read that returned, |t| when none did. */
  function PrimeiraOk(t: seq<Result<OpenTrade>>): (k: nat)
    ensures k <= |t|
    ensures forall j :: 0 <= j < k ==> t[j].Err?
    ensures k < |t| ==> t[k].Ok?
    decreases |t|
  {
    if t == [] || t[0].Ok? then 0 else 1 + PrimeiraOk(t[1..])
  }

  /** for tentativa in range(5): the first of the reads that returns starts
      the bot; when five reads raise the program exits (None). Reads past
      the end of t are reads that raise. */
  function Inicio(t: seq<Result<OpenTrade>>): (b: Option<Bot>)
    ensures b.None? <==> forall k :: 0 <= k < |t| && k < MaxTentativas ==> t[k].Err?
    ensures b.Some? ==> forall k :: 0 <= k < |t| && t[k].Ok? && (forall j :: 0 <= j < k ==> t[j].Err?) ==>
      k < MaxTentativas && b.value == BotDe(t[k].value)
  {
    var k := PrimeiraOk(t);
    if k < |t| && k < MaxTentativas then Some(BotDe(t[k].value)) else None
  }

  /** The startup loop itself. */
  method Inicializa(tentativas: seq<Result<OpenTrade>>) returns (bot: Option<Bot>)
    ensures bot == Inicio(tentativas)
  {
    var tentativa := 0;
    while tentativa < MaxTentativas
      invariant 0 <= tentativa <= MaxTentativas
      invariant forall j :: 0 <= j < tentativa && j < |tentativas| ==> tentativas[j].Err?
    {
      if tentativa < |tentativas| && tentativas[tentativa].Ok? {
        return Some(BotDe(tentativas[tentativa].value));
      }
      tentativa := tentativa + 1;
    }
    return None;
  }

  /** The candles of a frame. */
  function Velas(df: seq<Row>): (cs: seq<Candle>)
    ensures |cs| == |df| && forall i :: 0 <= i < |df| ==> cs[i] == df[i].candle
  {
    seq(|df|, i requires 0 <= i < |df| => df[i].candle)
  }

  /** The re-entry gate: the newest candle is not the one that closed the
      last trade. */
  predicate PodeProcurar(b: Bot, df: seq<Row>)
    requires |df| > 0
  {
    b.velaFechouTrade != Some(df[|df| - 1].candle.openTime)
  }

  /** Leaving a trade on candle vela. */
  function Fecha(b: Bot, vela: Candle, m: Motivo): (r: Bot)
    ensures r.estado == Mapped(DeFora) && r.velaFechouTrade == Some(vela.openTime)
    ensures r.fechamentos == b.fechamentos + [Fechamento(vela.openTime, m)]
    ensures r.entrada == b.entrada && r.stop == b.stop && r.alvo == b.alvo && r.ordens == b.ordens
  {
    b.(estado := Mapped(DeFora), velaFechouTrade := Some(vela.openTime),
       fechamentos := b.fechamentos + [Fechamento(vela.openTime, m)])
  }

  /** The exit checks of a long, in the order the bots make them. */
  function MotivoComprado(vela: Candle, stop: real, alvo: real, foraNaCorretora: bool): (m: Option<Motivo>)
    ensures m == Some(BateuAlvo) <==> vela.high >= alvo
    ensures m == Some(BateuStop) <==> vela.high < alvo && vela.low <= stop
    ensures m == Some(FechadoNaCorretora) <==> vela.high < alvo && vela.low > stop && foraNaCorretora
  {
    if vela.high >= alvo then Some(BateuAlvo)
    else if vela.low <= stop then Some(BateuStop)
    else if foraNaCorretora then Some(FechadoNaCorretora)
    else None
  }

  /** The exit checks of a short: the target is below, the stop above. */
  function MotivoVendido(vela: Candle, stop: real, alvo: real, foraNaCorretora: bool): (m: Option<Motivo>)
    ensures m == Some(BateuAlvo) <==> vela.low <= alvo
    ensures m == Some(BateuStop) <==> vela.low > alvo && vela.high >= stop
    ensures m == Some(FechadoNaCorretora) <==> vela.low > alvo && vela.high < stop && foraNaCorretora
  {
    if vela.low <= alvo then Some(BateuAlvo)
    else if vela.high >= stop then Some(BateuStop)
    else if foraNaCorretora then Some(FechadoNaCorretora)
    else None
  }

  /** Whether a read of the position says there is none. */
  predicate ReportaFora(t: OpenTrade) {
    t.estado == Mapped(DeFora)
  }

  /** The COMPRADO (lado Comprado) or VENDIDO branch: tem_trade_aberto is
      read and its stop and target overwrite the bot's; then the target,
      the stop, and only when neither was touched a second read of the
      position. A read that raises ends the pass where it happens. */
  function Sai(b: Bot, lado: Estado, vela: Candle, leitura: Result<OpenTrade>, confirmacao: Result<OpenTrade>): (r: Bot)
    requires lado != DeFora
    ensures leitura.Err? ==> r == b
    ensures leitura.Ok? ==> r.stop == leitura.value.precoStop && r.alvo == leitura.value.precoAlvo
    ensures r.entrada == b.entrada && r.ordens == b.ordens
    ensures leitura.Ok? ==>
      var stop := leitura.value.precoStop;
      var alvo := leitura.value.precoAlvo;
      var tocou := if lado == Comprado then MotivoComprado(vela, stop, alvo, false)
                   else MotivoVendido(vela, stop, alvo, false);
      if tocou.Some? then r == Fecha(b.(stop := stop, alvo := alvo), vela, tocou.value)
      else if confirmacao.Ok? && ReportaFora(confirmacao.value) then
        r == Fecha(b.(stop := stop, alvo := alvo), vela, FechadoNaCorretora)
      else r == b.(stop := stop, alvo := alvo)
  {
    if leitura.Err? then b
    else
      var b1 := b.(stop := leitura.value.precoStop, alvo := leitura.value.precoAlvo);
      var fora := confirmacao.Ok? && ReportaFora(confirmacao.value);
      var m := if lado == Comprado then MotivoComprado(vela, b1.stop, b1.alvo, fora)
               else MotivoVendido(vela, b1.stop, b1.alvo, fora);
      if m.Some? then Fecha(b1, vela, m.value) else b1
  }

  /** An exit branch only ever moves the bot to DE_FORA, and when it does,
      it stamps the closing candle and records exactly one exit. */
  lemma SaiFechaOuMantem(b: Bot, lado: Estado, vela: Candle, leitura: Result<OpenTrade>, confirmacao: Result<OpenTrade>)
    requires lado != DeFora && b.estado == Mapped(lado)
    ensures var r := Sai(b, lado, vela, leitura, confirmacao);
      (r.estado == b.estado && r.fechamentos == b.fechamentos && r.velaFechouTrade == b.velaFechouTrade)
      || (r.estado == Mapped(DeFora) && r.velaFechouTrade == Some(vela.openTime)
          && |r.fechamentos| == |b.fechamentos| + 1 && r.fechamentos[..|b.fechamentos|] == b.fechamentos)
  {
  }

  /** A candle that reaches both the target and the stop is read as a win:
      the target is always checked first. */
  lemma AlvoAntesDoStop(b: Bot, lado: Estado, vela: Candle, leitura: Result<OpenTrade>, confirmacao: Result<OpenTrade>)
    requires lado != DeFora && leitura.Ok?
    requires lado == Comprado ==> vela.high >= leitura.value.precoAlvo && vela.low <= leitura.value.precoStop
    requires lado == Vendido ==> vela.low <= leitura.value.precoAlvo && vela.high >= leitura.value.precoStop
    ensures Sai(b, lado, vela, leitura, confirmacao).fechamentos == b.fechamentos + [Fechamento(vela.openTime, BateuAlvo)]
  {
  }

  /** The entry: the prices are assigned first, then the order is sent, and
      only an order call that returns changes the state. */
  function Entra(b: Bot, lado: Estado, ordem: Order, entrada: real, stop: real, alvo: real, envio: bool): (r: Bot)
    ensures r.entrada == entrada && r.stop == stop && r.alvo == alvo
    ensures r.velaFechouTrade == b.velaFechouTrade && r.fechamentos == b.fechamentos
    ensures envio ==> r.estado == Mapped(lado) && r.ordens == b.ordens + [ordem]
    ensures !envio ==> r.estado == b.estado && r.ordens == b.ordens
  {
    var b1 := b.(entrada := entrada, stop := stop, alvo := alvo);
    if envio then b1.(estado := Mapped(lado), ordens := b.ordens + [ordem]) else b1
  }

  /** The long and short price levels of the "last N candles" bots:
      the stop is the extreme of df[-N:-1], the target risco_retorno
      times the distance beyond the entry. */
  function StopCompraJanela(df: seq<Row>, n: nat): (stop: real)
    requires 1 < n && 2 <= |df|
    ensures stop <= df[|df| - 2].candle.low
    ensures exists i :: |df| - n <= i < |df| - 1 && 0 <= i && stop == df[i].candle.low
  {
    JanelaAtingida(df, n);
    Min(Lows(Velas(NegSlice(df, n, 1))))
  }

  function StopVendaJanela(df: seq<Row>, n: nat): (stop: real)
    requires 1 < n && 2 <= |df|
    ensures stop >= df[|df| - 2].candle.high
    ensures exists i :: |df| - n <= i < |df| - 1 && 0 <= i && stop == df[i].candle.high
  {
    JanelaAtingida(df, n);
    Max(Highs(Velas(NegSlice(df, n, 1))))
  }

  /** The window df[-N:-1] ends with the candle before the newest, and its
      lowest low and highest high are lows and highs of candles in it. */
  lemma JanelaAtingida(df: seq<Row>, n: nat)
    requires 1 < n && 2 <= |df|
    ensures var janela := Velas(NegSlice(df, n, 1));
      && Min(Lows(janela)) <= df[|df| - 2].candle.low
      && Max(Highs(janela)) >= df[|df| - 2].candle.high
      && (exists i :: |df| - n <= i < |df| - 1 && 0 <= i && Min(Lows(janela)) == df[i].candle.low)
      && (exists i :: |df| - n <= i < |df| - 1 && 0 <= i && Max(Highs(janela)) == df[i].candle.high)
  {
    var lo := if |df| >= n then |df| - n else 0;
    var janela := Velas(NegSlice(df, n, 1));
    assert NegSlice(df, n, 1) == df[lo..|df| - 1];
    assert |janela| == |df| - 1 - lo;
    assert forall k :: 0 <= k < |janela| ==> janela[k] == df[lo + k].candle;
    var lows := Lows(janela);
    var highs := Highs(janela);
    assert lows[|janela| - 1] == df[|df| - 2].candle.low;
    assert highs[|janela| - 1] == df[|df| - 2].candle.high;
    var kl :| 0 <= kl < |lows| && lows[kl] == Min(lows);
    assert Min(lows) == df[lo + kl].candle.low;
    var kh :| 0 <= kh < |highs| && highs[kh] == Max(highs);
    assert Max(highs) == df[lo + kh].candle.high;
  }

  /** ((entrada - stop) * rr) + entrada, and its mirror for shorts. */
  function AlvoCompra(entrada: real, stop: real, rr: real): (alvo: real)
    ensures 0.0 <= rr && stop <= entrada ==> entrada <= alvo
    ensures alvo - entrada == rr * (entrada - stop)
  {
    ((entrada - stop) * rr) + entrada
  }

  function AlvoVenda(entrada: real, stop: real, rr: real): (alvo: real)
    ensures 0.0 <= rr && entrada <= stop ==> alvo <= entrada
    ensures entrada - alvo == rr * (stop - entrada)
  {
    entrada - ((stop - entrada) * rr)
  }
}
