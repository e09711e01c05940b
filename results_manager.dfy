/**
  The performance ledger of the back-tests (ResultsManager): a running
  balance, the peak balance, the trough since that peak, the largest
  drawdown seen so far, and lazily created (year, month) buckets.

  The pure functions below (WithMonth, OnTradeOpen, OnGain, OnLoss) say what
  each operation does to a Ledger value; the class ResultsManager updates its
  fields in place, as the Python object does, and is proved against them.
*/
module ResultsLedger {
  import opened Wrappers

  type MonthKey = (int, int)

  /** results[year][month] */
  datatype Bucket = Bucket(
    openTrades: nat,
    profitableTrades: nat,
    totalPercentageProfit: real,
    unprofitableTrades: nat,
    totalPercentageLoss: real,
    initialBalance: real,
    finalBalance: real,
    maxDrawdown: real)

  /** What the constructor stores and no method changes. */
  datatype Config = Config(initialBalance: real, brokerFee: real, setupName: string, leverage: real)

  /** Everything the methods change. `order` is the insertion order of the
      buckets (Python dictionaries keep it). */
  datatype Ledger = Ledger(
    results: map<MonthKey, Bucket>,
    order: seq<MonthKey>,
    currentBalance: real,
    maxBalance: real,
    minBalanceSinceMax: real,
    maxDrawdown: real)

  function Initial(cfg: Config): Ledger {
    Ledger(map[], [], cfg.initialBalance, cfg.initialBalance, cfg.initialBalance, 0.0)
  }

  function NewBucket(balance: real, drawdown: real): Bucket {
    Bucket(0, 0, 0.0, 0, 0.0, balance, balance, drawdown)
  }

  predicate OrderMatches(l: Ledger) {
    && (forall i :: 0 <= i < |l.order| ==> l.order[i] in l.results)
    && (forall k :: k in l.results ==> k in l.order)
    && (forall i, j :: 0 <= i < j < |l.order| ==> l.order[i] != l.order[j])
  }

  /** The invariants every operation keeps. */
  predicate Inv(cfg: Config, l: Ledger) {
    && l.minBalanceSinceMax <= l.maxBalance
    && cfg.initialBalance <= l.maxBalance
    && 0.0 <= l.maxDrawdown
    && OrderMatches(l)
    && (forall k :: k in l.results ==>
          && l.results[k].totalPercentageProfit == 0.0
          && l.results[k].totalPercentageLoss == 0.0
          && l.results[k].maxDrawdown <= l.maxDrawdown)
  }

  /** initialize_month: create the bucket only when it is absent. */
  function WithMonth(l: Ledger, key: MonthKey): (r: Ledger)
    ensures key in r.results
    ensures key in l.results ==> r == l
    ensures key !in l.results ==>
      && r.results == l.results[key := NewBucket(l.currentBalance, l.maxDrawdown)]
      && r.order == l.order + [key]
    ensures r.(results := l.results, order := l.order) == l
  {
    if key in l.results then l
    else l.(results := l.results[key := NewBucket(l.currentBalance, l.maxDrawdown)],
            order := l.order + [key])
  }

  /** The bucket an update works on: the existing one or a fresh one. */
  function BucketFor(l: Ledger, key: MonthKey): Bucket {
    WithMonth(l, key).results[key]
  }

  /** update_on_trade_open */
  function OnTradeOpen(cfg: Config, l: Ledger, key: MonthKey): (r: Ledger)
    ensures key in r.results && r.order == WithMonth(l, key).order
    ensures r.results == WithMonth(l, key).results[key := r.results[key]]
    ensures r.results[key].openTrades == BucketFor(l, key).openTrades + 1
    ensures r.results[key] == BucketFor(l, key).(openTrades := r.results[key].openTrades,
                                                 finalBalance := r.results[key].finalBalance)
    ensures r.results[key].finalBalance == (if cfg.brokerFee > 0.0 then r.currentBalance else BucketFor(l, key).finalBalance)
    ensures cfg.brokerFee > 0.0 ==> r.currentBalance == l.currentBalance * (1.0 - cfg.brokerFee * cfg.leverage / 100.0)
    ensures cfg.brokerFee <= 0.0 ==> r.currentBalance == l.currentBalance
    ensures r.maxBalance == l.maxBalance && r.minBalanceSinceMax == l.minBalanceSinceMax
    ensures r.maxDrawdown == l.maxDrawdown
  {
    var m := WithMonth(l, key);
    var b := m.results[key].(openTrades := m.results[key].openTrades + 1);
    if cfg.brokerFee > 0.0 then
      var balance := m.currentBalance - m.currentBalance * ((cfg.brokerFee * cfg.leverage) / 100.0);
      m.(results := m.results[key := b.(finalBalance := balance)], currentBalance := balance)
    else
      m.(results := m.results[key := b])
  }

  /** update_on_gain: additive, and a new peak resets the trough. */
  function OnGain(l: Ledger, key: MonthKey, lucroReal: real): (r: Ledger)
    ensures key in r.results && r.order == WithMonth(l, key).order
    ensures r.currentBalance == l.currentBalance + lucroReal
    ensures r.results == WithMonth(l, key).results[key := r.results[key]]
    ensures r.results[key] == BucketFor(l, key).(profitableTrades := BucketFor(l, key).profitableTrades + 1,
                                                 finalBalance := r.currentBalance)
    ensures r.currentBalance > l.maxBalance ==> r.maxBalance == r.currentBalance && r.minBalanceSinceMax == r.currentBalance
    ensures r.currentBalance <= l.maxBalance ==> r.maxBalance == l.maxBalance && r.minBalanceSinceMax == l.minBalanceSinceMax
    ensures r.maxBalance >= l.maxBalance
    ensures r.maxDrawdown == l.maxDrawdown
  {
    var m := WithMonth(l, key);
    var balance := m.currentBalance + lucroReal;
    var b := m.results[key].(profitableTrades := m.results[key].profitableTrades + 1, finalBalance := balance);
    var m2 := m.(results := m.results[key := b], currentBalance := balance);
    if balance > m2.maxBalance then m2.(maxBalance := balance, minBalanceSinceMax := balance) else m2
  }

  /** Lines that run before update_on_loss divides by the peak balance. */
  function LossBeforeDrawdown(l: Ledger, key: MonthKey, perdaReal: real): (r: Ledger)
    ensures key in r.results && r.order == WithMonth(l, key).order
    ensures r.currentBalance == l.currentBalance - perdaReal
    ensures r.results == WithMonth(l, key).results[key := r.results[key]]
    ensures r.results[key] == BucketFor(l, key).(unprofitableTrades := BucketFor(l, key).unprofitableTrades + 1,
                                                 finalBalance := r.currentBalance)
    ensures r.minBalanceSinceMax <= l.minBalanceSinceMax && r.minBalanceSinceMax <= r.currentBalance
    ensures r.minBalanceSinceMax == l.minBalanceSinceMax || r.minBalanceSinceMax == r.currentBalance
    ensures r.maxBalance == l.maxBalance && r.maxDrawdown == l.maxDrawdown
  {
    var m := WithMonth(l, key);
    var balance := m.currentBalance - perdaReal;
    var b := m.results[key].(unprofitableTrades := m.results[key].unprofitableTrades + 1, finalBalance := balance);
    var m2 := m.(results := m.results[key := b], currentBalance := balance);
    if balance < m2.minBalanceSinceMax then m2.(minBalanceSinceMax := balance) else m2
  }

  /** Drawdown from the peak, in percent. */
  function Drawdown(maxBalance: real, minBalance: real): (d: real)
    requires maxBalance != 0.0
    ensures maxBalance > 0.0 && minBalance <= maxBalance ==> d >= 0.0
    ensures maxBalance > 0.0 && minBalance >= 0.0 ==> d <= 100.0
    ensures d * maxBalance == (maxBalance - minBalance) * 100.0
  {
    ((maxBalance - minBalance) / maxBalance) * 100.0
  }

  /** update_on_loss; a zero peak balance raises ZeroDivisionError. */
  function OnLoss(l: Ledger, key: MonthKey, perdaReal: real): (r: Result<Ledger>)
    ensures r.Err? <==> l.maxBalance == 0.0
    ensures r.Ok? ==> r.value == RecordDrawdown(LossBeforeDrawdown(l, key, perdaReal), key)
  {
    var p := LossBeforeDrawdown(l, key, perdaReal);
    if p.maxBalance == 0.0 then Err("ZeroDivisionError") else Ok(RecordDrawdown(p, key))
  }

  /** The last lines of update_on_loss, once the division can be made. */
  function RecordDrawdown(p: Ledger, key: MonthKey): (r: Ledger)
    requires p.maxBalance != 0.0 && key in p.results
    ensures var d := Drawdown(p.maxBalance, p.minBalanceSinceMax);
      && r.maxDrawdown == (if d > p.maxDrawdown then d else p.maxDrawdown)
      && r.results == p.results[key := p.results[key].(maxDrawdown := r.maxDrawdown)]
      && r.(results := p.results, maxDrawdown := p.maxDrawdown) == p
  {
    var drawdown := Drawdown(p.maxBalance, p.minBalanceSinceMax);
    var bucketDrawdown := if p.maxDrawdown >= drawdown then p.maxDrawdown else drawdown;
    var q := p.(results := p.results[key := p.results[key].(maxDrawdown := bucketDrawdown)]);
    if drawdown > q.maxDrawdown then q.(maxDrawdown := drawdown) else q
  }

  lemma InitialSatisfiesInv(cfg: Config)
    ensures Inv(cfg, Initial(cfg))
  {
  }

  /** initialize_month twice is initialize_month once, and an existing
      bucket is left as it was. */
  lemma WithMonthIdempotent(l: Ledger, key: MonthKey)
    ensures WithMonth(WithMonth(l, key), key) == WithMonth(l, key)
    ensures key in l.results ==> WithMonth(l, key).results[key] == l.results[key]
  {
  }

  /** Each update starts with initialize_month, so applying it first changes nothing. */
  lemma UpdatesAbsorbWithMonth(cfg: Config, l: Ledger, key: MonthKey, amount: real)
    ensures OnTradeOpen(cfg, WithMonth(l, key), key) == OnTradeOpen(cfg, l, key)
    ensures OnGain(WithMonth(l, key), key, amount) == OnGain(l, key, amount)
    ensures LossBeforeDrawdown(WithMonth(l, key), key, amount) == LossBeforeDrawdown(l, key, amount)
    ensures OnLoss(WithMonth(l, key), key, amount) == OnLoss(l, key, amount)
  {
    var m := WithMonth(l, key);
    WithMonthIdempotent(l, key);
    assert WithMonth(m, key) == m;
    OpenAbsorbsWithMonth(cfg, l, key);
    assert OnGain(m, key, amount) == OnGain(l, key, amount);
    assert LossBeforeDrawdown(m, key, amount) == LossBeforeDrawdown(l, key, amount);
  }

  lemma OpenAbsorbsWithMonth(cfg: Config, l: Ledger, key: MonthKey)
    ensures OnTradeOpen(cfg, WithMonth(l, key), key) == OnTradeOpen(cfg, l, key)
  {
    if key !in l.results {
      var m := WithMonth(l, key);
      assert key in m.results;
      assert WithMonth(m, key) == m;
      var b := m.results[key].(openTrades := m.results[key].openTrades + 1);
      if cfg.brokerFee > 0.0 {
        var balance := m.currentBalance - m.currentBalance * ((cfg.brokerFee * cfg.leverage) / 100.0);
        var r, r2 := OnTradeOpen(cfg, l, key), OnTradeOpen(cfg, m, key);
        assert r.currentBalance == balance == r2.currentBalance;
        assert r.results == m.results[key := b.(finalBalance := balance)] == r2.results;
      } else {
        var r, r2 := OnTradeOpen(cfg, l, key), OnTradeOpen(cfg, m, key);
        assert r.results == m.results[key := b] == r2.results;
      }
    }
  }

  lemma WithMonthKeepsInv(cfg: Config, l: Ledger, key: MonthKey)
    requires Inv(cfg, l)
    ensures Inv(cfg, WithMonth(l, key))
  {
    var r := WithMonth(l, key);
    if key !in l.results {
      forall i, j | 0 <= i < j < |r.order| ensures r.order[i] != r.order[j] {
        if j == |l.order| {
          assert r.order[i] == l.order[i] && l.order[i] in l.results;
        }
      }
    }
  }

  /** Paying the fee on an open never moves the peak or the trough. */
  lemma OnTradeOpenKeepsInv(cfg: Config, l: Ledger, key: MonthKey)
    requires Inv(cfg, l)
    ensures Inv(cfg, OnTradeOpen(cfg, l, key))
  {
    WithMonthKeepsInv(cfg, l, key);
  }

  lemma OnGainKeepsInv(cfg: Config, l: Ledger, key: MonthKey, lucroReal: real)
    requires Inv(cfg, l)
    ensures Inv(cfg, OnGain(l, key, lucroReal))
  {
    WithMonthKeepsInv(cfg, l, key);
  }

  lemma LossBeforeDrawdownKeepsInv(cfg: Config, l: Ledger, key: MonthKey, perdaReal: real)
    requires Inv(cfg, l)
    ensures Inv(cfg, LossBeforeDrawdown(l, key, perdaReal))
  {
    WithMonthKeepsInv(cfg, l, key);
  }

  lemma OnLossKeepsInv(cfg: Config, l: Ledger, key: MonthKey, perdaReal: real)
    requires Inv(cfg, l)
    requires OnLoss(l, key, perdaReal).Ok?
    ensures Inv(cfg, OnLoss(l, key, perdaReal).value)
    ensures OnLoss(l, key, perdaReal).value.maxDrawdown >= l.maxDrawdown
  {
    WithMonthKeepsInv(cfg, l, key);
    LossBeforeDrawdownKeepsInv(cfg, l, key, perdaReal);
  }

  /** A call on the ledger, in the order a back-test makes them. */
  datatype Event =
    | Open(key: MonthKey)
    | Gain(key: MonthKey, lucroReal: real)
    | Loss(key: MonthKey, perdaReal: real)

  function Apply(cfg: Config, l: Ledger, e: Event): Result<Ledger> {
    match e
    case Open(key) => Ok(OnTradeOpen(cfg, l, key))
    case Gain(key, amount) => Ok(OnGain(l, key, amount))
    case Loss(key, amount) => OnLoss(l, key, amount)
  }

  /** A sequence of calls; the first exception ends it. */
  function Run(cfg: Config, l: Ledger, es: seq<Event>): Result<Ledger>
    decreases |es|
  {
    if es == [] then Ok(l)
    else
      var next := Apply(cfg, l, es[0]);
      if next.Err? then next else Run(cfg, next.value, es[1..])
  }

  /** Over any sequence of calls the invariants hold, and the peak balance
      and the maximum drawdown never decrease. */
  lemma {:induction false} RunKeepsInv(cfg: Config, l: Ledger, es: seq<Event>)
    requires Inv(cfg, l)
    ensures Run(cfg, l, es).Ok? ==>
      && Inv(cfg, Run(cfg, l, es).value)
      && Run(cfg, l, es).value.maxDrawdown >= l.maxDrawdown
      && Run(cfg, l, es).value.maxBalance >= l.maxBalance
    decreases |es|
  {
    if es != [] {
      var next := Apply(cfg, l, es[0]);
      match es[0] {
        case Open(key) => OnTradeOpenKeepsInv(cfg, l, key);
        case Gain(key, amount) => OnGainKeepsInv(cfg, l, key, amount);
        case Loss(key, amount) =>
          if next.Ok? { OnLossKeepsInv(cfg, l, key, amount); }
      }
      if next.Ok? {
        RunKeepsInv(cfg, next.value, es[1..]);
      }
    }
  }

  /** With a positive starting balance the peak stays positive, so
      update_on_loss never divides by zero. */
  lemma {:induction false} RunNeverRaises(cfg: Config, l: Ledger, es: seq<Event>)
    requires Inv(cfg, l) && cfg.initialBalance > 0.0
    ensures Run(cfg, l, es).Ok?
    decreases |es|
  {
    if es != [] {
      var next := Apply(cfg, l, es[0]);
      match es[0] {
        case Open(key) => OnTradeOpenKeepsInv(cfg, l, key);
        case Gain(key, amount) => OnGainKeepsInv(cfg, l, key, amount);
        case Loss(key, amount) => OnLossKeepsInv(cfg, l, key, amount);
      }
      RunNeverRaises(cfg, next.value, es[1..]);
    }
  }

  // ---------------------------------------------------------------------
  // The aggregates of get_results / save_summarized_results_to_xlsx.

  datatype Field = OpenTrades | ProfitableTrades | PercentageProfit | UnprofitableTrades | PercentageLoss

  function FieldOf(b: Bucket, f: Field): real {
    match f
    case OpenTrades => b.openTrades as real
    case ProfitableTrades => b.profitableTrades as real
    case PercentageProfit => b.totalPercentageProfit
    case UnprofitableTrades => b.unprofitableTrades as real
    case PercentageLoss => b.totalPercentageLoss
  }

  /** sum(results[year][month][f] for year ... for month ...) */
  function SumOver(order: seq<MonthKey>, results: map<MonthKey, Bucket>, f: Field): real
    requires forall i :: 0 <= i < |order| ==> order[i] in results
  {
    if order == [] then 0.0
    else SumOver(order[..|order| - 1], results, f) + FieldOf(results[order[|order| - 1]], f)
  }

  /** Division where ZeroDivisionError is caught and reported as 0. */
  function ZeroSafeDiv(num: real, den: real): (q: real)
    ensures den == 0.0 ==> q == 0.0
    ensures den != 0.0 ==> q * den == num
  {
    if den == 0.0 then 0.0 else num / den
  }

  /** final_result: the change of the balance in per cent, or None when the
      initial balance is 0 (ZeroDivisionError). */
  function FinalResult(initial: real, final: real): (r: Option<real>)
    ensures r.None? <==> initial == 0.0
    ensures r.Some? ==> (r.value / 100.0 + 1.0) * initial == final
  {
    if initial == 0.0 then None
    else
      var v := (final / initial - 1.0) * 100.0;
      assert v / 100.0 + 1.0 == final / initial;
      Some(v)
  }

  datatype Summary = Summary(
    trades: real,
    successRate: real,
    successfulTrades: real,
    averageProfit: real,
    failedTrades: real,
    averageLoss: real,
    maxDrawdown: real,
    finalResult: Option<real>,
    initialBalance: real,
    finalBalance: real)

  /** The row save_summarized_results_to_xlsx writes: every rate and average
      is 0 when its divisor is 0; the final result needs a non-zero initial
      balance (otherwise ZeroDivisionError, here None). */
  function Summarize(cfg: Config, l: Ledger): (s: Summary)
    requires OrderMatches(l)
    ensures s.trades == SumOver(l.order, l.results, OpenTrades)
    ensures s.successfulTrades == SumOver(l.order, l.results, ProfitableTrades)
    ensures s.failedTrades == SumOver(l.order, l.results, UnprofitableTrades)
    ensures s.trades == 0.0 ==> s.successRate == 0.0
    ensures s.trades != 0.0 ==> s.successRate * s.trades == s.successfulTrades * 100.0
    ensures s.successfulTrades == 0.0 ==> s.averageProfit == 0.0
    ensures s.successfulTrades != 0.0 ==>
              s.averageProfit * s.successfulTrades == SumOver(l.order, l.results, PercentageProfit)
    ensures s.failedTrades == 0.0 ==> s.averageLoss == 0.0
    ensures s.failedTrades != 0.0 ==>
              s.averageLoss * s.failedTrades == SumOver(l.order, l.results, PercentageLoss)
    ensures s.initialBalance == cfg.initialBalance
    ensures s.finalResult.None? <==> cfg.initialBalance == 0.0
    ensures s.finalResult.Some? ==> (s.finalResult.value / 100.0 + 1.0) * cfg.initialBalance == l.currentBalance
    ensures s.maxDrawdown == l.maxDrawdown && s.finalBalance == l.currentBalance
  {
    var total := SumOver(l.order, l.results, OpenTrades);
    var successful := SumOver(l.order, l.results, ProfitableTrades);
    var failed := SumOver(l.order, l.results, UnprofitableTrades);
    Summary(
      total,
      ZeroSafeDiv(successful, total) * 100.0,
      successful,
      ZeroSafeDiv(SumOver(l.order, l.results, PercentageProfit), successful),
      failed,
      ZeroSafeDiv(SumOver(l.order, l.results, PercentageLoss), failed),
      l.maxDrawdown,
      FinalResult(cfg.initialBalance, l.currentBalance),
      cfg.initialBalance,
      l.currentBalance)
  }

  lemma {:induction false} SumOverZero(order: seq<MonthKey>, results: map<MonthKey, Bucket>, f: Field)
    requires forall i :: 0 <= i < |order| ==> order[i] in results
    requires forall k :: k in results ==> FieldOf(results[k], f) == 0.0
    ensures SumOver(order, results, f) == 0.0
    decreases |order|
  {
    if order != [] {
      SumOverZero(order[..|order| - 1], results, f);
    }
  }

  /** Nothing ever adds to total_percentage_profit or total_percentage_loss,
      so the reported average gain and average loss are always 0. */
  lemma AveragesAlwaysZero(cfg: Config, l: Ledger)
    requires Inv(cfg, l)
    ensures Summarize(cfg, l).averageProfit == 0.0
    ensures Summarize(cfg, l).averageLoss == 0.0
  {
    SumOverZero(l.order, l.results, PercentageProfit);
    SumOverZero(l.order, l.results, PercentageLoss);
  }

  /** A sum over keys that do not include `key` ignores what `key` maps to. */
  lemma {:induction false} SumOverIgnores(order: seq<MonthKey>, results: map<MonthKey, Bucket>, key: MonthKey, b: Bucket, f: Field)
    requires forall i :: 0 <= i < |order| ==> order[i] in results && order[i] != key
    ensures SumOver(order, results[key := b], f) == SumOver(order, results, f)
    decreases |order|
  {
    if order != [] {
      SumOverIgnores(order[..|order| - 1], results, key, b, f);
    }
  }

  /** Replacing the bucket of a key listed once changes the sum by the
      difference of the two buckets. */
  lemma {:induction false} SumOverUpdate(order: seq<MonthKey>, results: map<MonthKey, Bucket>, key: MonthKey, b: Bucket, f: Field)
    requires forall i :: 0 <= i < |order| ==> order[i] in results
    requires forall i, j :: 0 <= i < j < |order| ==> order[i] != order[j]
    requires key in order
    ensures SumOver(order, results[key := b], f) == SumOver(order, results, f) + FieldOf(b, f) - FieldOf(results[key], f)
    decreases |order|
  {
    var n := |order| - 1;
    if order[n] == key {
      SumOverIgnores(order[..n], results, key, b, f);
    } else {
      assert key in order[..n] by {
        var i :| 0 <= i < |order| && order[i] == key;
        assert i < n && order[..n][i] == key;
      }
      SumOverUpdate(order[..n], results, key, b, f);
    }
  }

  lemma WithMonthSum(l: Ledger, key: MonthKey, f: Field)
    requires OrderMatches(l)
    ensures OrderMatches(WithMonth(l, key))
    ensures SumOver(WithMonth(l, key).order, WithMonth(l, key).results, f) == SumOver(l.order, l.results, f)
  {
    if key !in l.results {
      NewMonthOrder(l, key);
      NewMonthSum(l, key, f);
    }
  }

  /** Appending a new month keeps the order listing every bucket once. */
  lemma NewMonthOrder(l: Ledger, key: MonthKey)
    requires OrderMatches(l) && key !in l.results
    ensures OrderMatches(WithMonth(l, key))
  {
    var r := WithMonth(l, key);
    forall i, j | 0 <= i < j < |r.order| ensures r.order[i] != r.order[j] {
      if j == |l.order| {
        assert r.order[i] == l.order[i] && l.order[i] in l.results;
      }
    }
  }

  /** A new month starts with every summed field at 0. */
  lemma NewMonthSum(l: Ledger, key: MonthKey, f: Field)
    requires OrderMatches(l) && key !in l.results
    ensures var r := WithMonth(l, key);
      (forall i :: 0 <= i < |r.order| ==> r.order[i] in r.results)
      && SumOver(r.order, r.results, f) == SumOver(l.order, l.results, f)
  {
    var r := WithMonth(l, key);
    var b := NewBucket(l.currentBalance, l.maxDrawdown);
    forall i | 0 <= i < |l.order| ensures l.order[i] in l.results && l.order[i] != key { }
    SumOverIgnores(l.order, l.results, key, b, f);
    assert r.order[..|r.order| - 1] == l.order;
  }

  /** The counter of the summed fields that one call increments:
      open_trades for update_on_trade_open, profitable_trades for
      update_on_gain, unprofitable_trades for update_on_loss. */
  predicate Increments(e: Event, f: Field) {
    || (e.Open? && f == OpenTrades)
    || (e.Gain? && f == ProfitableTrades)
    || (e.Loss? && f == UnprofitableTrades)
  }

  /** How many calls of a run increment the field. */
  function Count(es: seq<Event>, f: Field): nat {
    if es == [] then 0 else (if Increments(es[0], f) then 1 else 0) + Count(es[1..], f)
  }

  lemma UpdatedBucketKeepsOrder(m: Ledger, r: Ledger, key: MonthKey, f: Field)
    requires OrderMatches(m) && key in m.results && key in r.results
    requires r.order == m.order && r.results == m.results[key := r.results[key]]
    ensures OrderMatches(r)
    ensures SumOver(r.order, r.results, f)
            == SumOver(m.order, m.results, f) + FieldOf(r.results[key], f) - FieldOf(m.results[key], f)
  {
    SumOverUpdate(m.order, m.results, key, r.results[key], f);
  }

  /** A bucket whose counter g is one higher, and whose other summed fields
      are unchanged, is one higher in g and equal in every other field. */
  lemma BumpedField(b: Bucket, b2: Bucket, g: Field, f: Field)
    requires g == OpenTrades || g == ProfitableTrades || g == UnprofitableTrades
    requires b2.openTrades == b.openTrades + (if g == OpenTrades then 1 else 0)
    requires b2.profitableTrades == b.profitableTrades + (if g == ProfitableTrades then 1 else 0)
    requires b2.unprofitableTrades == b.unprofitableTrades + (if g == UnprofitableTrades then 1 else 0)
    requires b2.totalPercentageProfit == b.totalPercentageProfit && b2.totalPercentageLoss == b.totalPercentageLoss
    ensures FieldOf(b2, f) == FieldOf(b, f) + (if f == g then 1.0 else 0.0)
  {
  }

  /** update_on_trade_open adds 1 to the summed open_trades and nothing to
      the other summed fields. */
  lemma OnTradeOpenCounts(cfg: Config, l: Ledger, key: MonthKey, f: Field)
    requires OrderMatches(l)
    ensures OrderMatches(OnTradeOpen(cfg, l, key))
    ensures SumOver(OnTradeOpen(cfg, l, key).order, OnTradeOpen(cfg, l, key).results, f)
            == SumOver(l.order, l.results, f) + (if f == OpenTrades then 1.0 else 0.0)
  {
    var m, r := WithMonth(l, key), OnTradeOpen(cfg, l, key);
    WithMonthSum(l, key, f);
    assert m.results[key] == BucketFor(l, key);
    BumpedField(m.results[key], r.results[key], OpenTrades, f);
    UpdatedBucketKeepsOrder(m, r, key, f);
  }

  /** update_on_gain adds 1 to the summed profitable_trades and nothing to
      the other summed fields. */
  lemma OnGainCounts(l: Ledger, key: MonthKey, amount: real, f: Field)
    requires OrderMatches(l)
    ensures OrderMatches(OnGain(l, key, amount))
    ensures SumOver(OnGain(l, key, amount).order, OnGain(l, key, amount).results, f)
            == SumOver(l.order, l.results, f) + (if f == ProfitableTrades then 1.0 else 0.0)
  {
    var m, r := WithMonth(l, key), OnGain(l, key, amount);
    WithMonthSum(l, key, f);
    assert m.results[key] == BucketFor(l, key);
    BumpedField(m.results[key], r.results[key], ProfitableTrades, f);
    UpdatedBucketKeepsOrder(m, r, key, f);
  }

  /** update_on_loss adds 1 to the summed unprofitable_trades and nothing to
      the other summed fields. */
  lemma OnLossCounts(l: Ledger, key: MonthKey, amount: real, f: Field)
    requires OrderMatches(l)
    requires OnLoss(l, key, amount).Ok?
    ensures OrderMatches(OnLoss(l, key, amount).value)
    ensures SumOver(OnLoss(l, key, amount).value.order, OnLoss(l, key, amount).value.results, f)
            == SumOver(l.order, l.results, f) + (if f == UnprofitableTrades then 1.0 else 0.0)
  {
    var m, p := WithMonth(l, key), LossBeforeDrawdown(l, key, amount);
    WithMonthSum(l, key, f);
    assert m.results[key] == BucketFor(l, key);
    BumpedField(m.results[key], p.results[key], UnprofitableTrades, f);
    UpdatedBucketKeepsOrder(m, p, key, f);
    RecordDrawdownCounts(p, key, f);
  }

  /** Recording the drawdown leaves every summed field alone. */
  lemma RecordDrawdownCounts(p: Ledger, key: MonthKey, f: Field)
    requires OrderMatches(p) && key in p.results && p.maxBalance != 0.0
    ensures OrderMatches(RecordDrawdown(p, key))
    ensures SumOver(RecordDrawdown(p, key).order, RecordDrawdown(p, key).results, f)
            == SumOver(p.order, p.results, f)
  {
    UpdatedBucketKeepsOrder(p, RecordDrawdown(p, key), key, f);
  }

  /** Over a run of calls, each summed field grows by exactly the number of
      calls that increment it. */
  lemma {:induction false} RunSumsCounters(cfg: Config, l: Ledger, es: seq<Event>, f: Field)
    requires OrderMatches(l)
    requires Run(cfg, l, es).Ok?
    ensures OrderMatches(Run(cfg, l, es).value)
    ensures SumOver(Run(cfg, l, es).value.order, Run(cfg, l, es).value.results, f)
            == SumOver(l.order, l.results, f) + Count(es, f) as real
    decreases |es|
  {
    if es != [] {
      var next := Apply(cfg, l, es[0]);
      ApplySumsCounters(cfg, l, es[0], f);
      RunSumsCounters(cfg, next.value, es[1..], f);
    }
  }

  /** One call adds 1 to a summed field exactly when it increments it. */
  lemma ApplySumsCounters(cfg: Config, l: Ledger, e: Event, f: Field)
    requires OrderMatches(l)
    requires Apply(cfg, l, e).Ok?
    ensures OrderMatches(Apply(cfg, l, e).value)
    ensures SumOver(Apply(cfg, l, e).value.order, Apply(cfg, l, e).value.results, f)
            == SumOver(l.order, l.results, f) + (if Increments(e, f) then 1.0 else 0.0)
  {
    match e {
      case Open(key) =>
        assert Apply(cfg, l, e) == Ok(OnTradeOpen(cfg, l, key));
        OnTradeOpenCounts(cfg, l, key, f);
      case Gain(key, amount) =>
        assert Apply(cfg, l, e) == Ok(OnGain(l, key, amount));
        OnGainCounts(l, key, amount, f);
      case Loss(key, amount) =>
        assert Apply(cfg, l, e) == OnLoss(l, key, amount);
        OnLossCounts(l, key, amount, f);
    }
  }

  /** The summary's "Trades", "Successful Trades" and "Failed Trades"
      figures grow by exactly the number of update_on_trade_open,
      update_on_gain and update_on_loss calls. */
  lemma RunCountsSummary(cfg: Config, l: Ledger, es: seq<Event>)
    requires OrderMatches(l)
    requires Run(cfg, l, es).Ok?
    ensures OrderMatches(Run(cfg, l, es).value)
    ensures Summarize(cfg, Run(cfg, l, es).value).trades == Summarize(cfg, l).trades + Count(es, OpenTrades) as real
    ensures Summarize(cfg, Run(cfg, l, es).value).successfulTrades
            == Summarize(cfg, l).successfulTrades + Count(es, ProfitableTrades) as real
    ensures Summarize(cfg, Run(cfg, l, es).value).failedTrades
            == Summarize(cfg, l).failedTrades + Count(es, UnprofitableTrades) as real
  {
    RunSumsCounters(cfg, l, es, OpenTrades);
    RunSumsCounters(cfg, l, es, ProfitableTrades);
    RunSumsCounters(cfg, l, es, UnprofitableTrades);
  }

  // ---------------------------------------------------------------------

  class ResultsManager {
    var results: map<MonthKey, Bucket>
    var order: seq<MonthKey>
    const brokerFee: real
    const leverage: real
    const setupName: string
    const initialBalance: real
    var currentBalance: real
    var maxBalance: real
    var minBalanceSinceMax: real
    var maxDrawdown: real

    function Cfg(): Config {
      Config(initialBalance, brokerFee, setupName, leverage)
    }

    function State(): Ledger
      reads this
    {
      Ledger(results, order, currentBalance, maxBalance, minBalanceSinceMax, maxDrawdown)
    }

    ghost predicate Valid()
      reads this
    {
      Inv(Cfg(), State())
    }

    constructor (initialBalance: real, brokerFee: real, setupName: string, leverage: real := 1.0)
      ensures Valid()
      ensures Cfg() == Config(initialBalance, brokerFee, setupName, leverage)
      ensures State() == Initial(Cfg())
    {
      results := map[];
      order := [];
      this.brokerFee := brokerFee;
      this.leverage := leverage;
      this.setupName := setupName;
      this.initialBalance := initialBalance;
      currentBalance := initialBalance;
      maxBalance := initialBalance;
      minBalanceSinceMax := initialBalance;
      maxDrawdown := 0.0;
    }

    method InitializeMonth(year: int, month: int)
      requires Valid()
      modifies this`results, this`order
      ensures Valid()
      ensures State() == WithMonth(old(State()), (year, month))
    {
      if (year, month) !in results {
        results := results[(year, month) := NewBucket(currentBalance, maxDrawdown)];
        order := order + [(year, month)];
      }
      WithMonthKeepsInv(Cfg(), old(State()), (year, month));
    }

    method UpdateOnTradeOpen(year: int, month: int)
      requires Valid()
      modifies this`results, this`order, this`currentBalance
      ensures Valid()
      ensures State() == OnTradeOpen(Cfg(), old(State()), (year, month))
    {
      InitializeMonth(year, month);
      var key := (year, month);
      CountOpen(key);
      UpdatesAbsorbWithMonth(Cfg(), old(State()), key, 0.0);
      OnTradeOpenKeepsInv(Cfg(), old(State()), key);
    }

    /** The lines of update_on_trade_open after initialize_month. */
    method CountOpen(key: MonthKey)
      requires key in results
      modifies this`results, this`currentBalance
      ensures State() == OnTradeOpen(Cfg(), old(State()), key)
    {
      ghost var l := State();
      assert WithMonth(l, key) == l;
      var bucket := results[key];
      bucket := bucket.(openTrades := bucket.openTrades + 1);
      if brokerFee > 0.0 {
        currentBalance := currentBalance - currentBalance * ((brokerFee * leverage) / 100.0);
        bucket := bucket.(finalBalance := currentBalance);
      }
      results := results[key := bucket];
      assert bucket == OnTradeOpen(Cfg(), l, key).results[key];
    }

    method UpdateOnGain(year: int, month: int, lucroReal: real)
      requires Valid()
      modifies this`results, this`order, this`currentBalance, this`maxBalance, this`minBalanceSinceMax
      ensures Valid()
      ensures State() == OnGain(old(State()), (year, month), lucroReal)
    {
      InitializeMonth(year, month);
      var key := (year, month);
      CountGain(key, lucroReal);
      UpdatesAbsorbWithMonth(Cfg(), old(State()), key, lucroReal);
      OnGainKeepsInv(Cfg(), old(State()), key, lucroReal);
    }

    /** The lines of update_on_gain after initialize_month. */
    method CountGain(key: MonthKey, lucroReal: real)
      requires key in results
      modifies this`results, this`currentBalance, this`maxBalance, this`minBalanceSinceMax
      ensures State() == OnGain(old(State()), key, lucroReal)
    {
      var bucket := results[key];
      bucket := bucket.(profitableTrades := bucket.profitableTrades + 1);
      currentBalance := currentBalance + lucroReal;
      bucket := bucket.(finalBalance := currentBalance);
      results := results[key := bucket];
      if currentBalance > maxBalance {
        maxBalance := currentBalance;
        minBalanceSinceMax := currentBalance;
      }
    }

    /** `raised` is the ZeroDivisionError of a zero peak balance; the
        counter, balance and trough updates before the division stay. */
    method UpdateOnLoss(year: int, month: int, perdaReal: real) returns (raised: bool)
      requires Valid()
      modifies this`results, this`order, this`currentBalance, this`minBalanceSinceMax, this`maxDrawdown
      ensures Valid()
      ensures raised <==> OnLoss(old(State()), (year, month), perdaReal).Err?
      ensures !raised ==> State() == OnLoss(old(State()), (year, month), perdaReal).value
      ensures raised ==> State() == LossBeforeDrawdown(old(State()), (year, month), perdaReal)
    {
      InitializeMonth(year, month);
      var key := (year, month);
      CountLoss(key, perdaReal);
      UpdatesAbsorbWithMonth(Cfg(), old(State()), key, perdaReal);
      LossBeforeDrawdownKeepsInv(Cfg(), old(State()), key, perdaReal);
      if maxBalance == 0.0 {
        raised := true;
        return;
      }
      raised := false;
      RecordLossDrawdown(key);
      OnLossKeepsInv(Cfg(), old(State()), key, perdaReal);
    }

    /** The lines of update_on_loss after initialize_month and before the
        division by the peak balance. */
    method CountLoss(key: MonthKey, perdaReal: real)
      requires key in results
      modifies this`results, this`currentBalance, this`minBalanceSinceMax
      ensures State() == LossBeforeDrawdown(old(State()), key, perdaReal)
    {
      var bucket := results[key];
      bucket := bucket.(unprofitableTrades := bucket.unprofitableTrades + 1);
      currentBalance := currentBalance - perdaReal;
      bucket := bucket.(finalBalance := currentBalance);
      results := results[key := bucket];
      if currentBalance < minBalanceSinceMax {
        minBalanceSinceMax := currentBalance;
      }
    }

    /** The drawdown lines of update_on_loss. */
    method RecordLossDrawdown(key: MonthKey)
      requires key in results && maxBalance != 0.0
      modifies this`results, this`maxDrawdown
      ensures State() == RecordDrawdown(old(State()), key)
    {
      var drawdown := ((maxBalance - minBalanceSinceMax) / maxBalance) * 100.0;
      results := results[key := results[key].(maxDrawdown := if maxDrawdown >= drawdown then maxDrawdown else drawdown)];
      if drawdown > maxDrawdown {
        maxDrawdown := drawdown;
      }
    }

    /** The figures save_summarized_results_to_xlsx writes. */
    method SummarizedResults() returns (s: Summary)
      requires Valid()
      ensures s == Summarize(Cfg(), State())
      ensures s.averageProfit == 0.0 && s.averageLoss == 0.0
    {
      s := Summarize(Cfg(), State());
      AveragesAlwaysZero(Cfg(), State());
    }
  }
}
