# nabilion trading bots and back-tests, modelled in Dafny

This project models the trading logic of a set of Bybit crypto-trading
scripts (the `backtesting/` directory of the nabilion repository). The
scripts are:

- **Live bots.** These are scalping and trend bots on XRPUSDT, BTCUSDT,
  SOLUSDT, PEPEUSDT and other coins. Each one polls candles, computes
  EMAs, RSI, ATR and candle patterns, and then opens, protects and closes
  one position at a time. Each bot is modelled as a pure step `Passo` over
  what one cycle observes from the exchange, plus the state the loop
  carries: the trade in progress, the stop, partial exits and the
  break-even flag. A `method` with a `while` loop folds the steps, and its
  invariant ties it to the step function.
- **Shared helpers.** `funcoes_bybit.py` turns the klines into a frame in
  `busca_velas` (the EMA columns, an RSI from exponentially weighted gains
  and losses, and the 20-period volume EMA), reads the open position and
  places market orders. `utilidades.py` sizes a quantity to the lot step,
  `indicadores_osciladores.py` computes the rolling-mean RSI
  (`calcula_rsi`) and `padroes_velas.py` holds the candle patterns. The
  module `ScoreQuantitativo` is the technical score, dynamic stop and
  retried position read that the two XRP bots share line for line.
- **Back-tests.** `backtesting.py`, `backtesting_teste.py` and the two
  Larry-Williams scripts replay a candle table row by row. Each replay is a
  loop over an array of rows, specified by a recursive function of the
  rows before it. Its trades are recorded by `ResultsManager`, modelled as
  a class whose `results` list and balance change in place.
- **Daily buyers.** The daily dollar-cost-averaging spot buyers buy at
  most once per calendar day. One of them rebuilds its purchase history
  from the exchange's order history.
- **Demo strategy.** This is the demo-account strategy together with its
  order helpers.
- **Analysis.** `ML.py` finds support/resistance levels and groups them.
  The quantitative analyzer scores and ranks symbols. The ML predictor
  covers the temporal train/test split, which models are trained, fitted
  and evaluated, the choice of the best model and of the ensemble members,
  and the prediction dictionary. These modules take the results of the
  statistical model fitting as inputs.
- **Candle cache.** The candle cache of `data_loader.py` is modelled as a
  class over a map from paths to file contents.

Exchange calls, the clock, sleeping, logging and charts are not modelled.
Their answers are parameters: each cycle's kline list, position list,
balance and order result, or `Err` when the call raised. Prices and
indicator values are `real`. A pandas value that is NaN is `None` in an
`Option`. Python's `round`, `int()` truncation and `Decimal` quantisation
are written out explicitly.

Where a script's comments or its written description disagree with its
code, the model follows the code:

- **`calcula_rsi`.** In `indicadores_osciladores.py`, its first defined
  value is at row `periodo - 1`, not `periodo`. The reason is that
  `delta.where` turns the leading NaN difference into 0.
- **`live_trading.py`.** The buy branch fires on the bearish alignment and
  the sell branch on the bullish one, the reverse of what their comments
  say.
- **Defects.** Three of the four defects listed under "Findings" are
  replayed as written by the loops that contain them: the back-test of
  `backtesting.py` reads the run count as written, the one of
  `backtesting_teste.py` the RSI column as written, and the XRP ML bot the
  candle-sequence analysis as written. The corrected definitions are
  separate members, each with the intended property proved about it. The
  fourth, in `live_trading_ia.py`, stops the script on every pass; its
  as-written pass is a separate member proved never to act, and the loop
  runs the corrected pass.

## Model

| member | source | states |
|---|---|---|
| Candles.Reversed | backtesting/funcoes_bybit.py:18 | the `[::-1]` that turns the exchange's newest-first kline list into oldest-first order: same length, element i is element n-1-i |
| Candles.ReversedTwice | backtesting/funcoes_bybit.py:18 | reversing the list twice gives it back, so no candle is lost or reordered |
| Candles.NegSlice | backtesting/live_trading_coin.py:116 | Python's `s[-a:-b]`: a-b rows ending just before the b-th last when there are at least a rows, and every row taken is a row of s |
| Candles.Tail | backtesting/live_trading_XRP_ML.py:154 | Python's `s[-a:]`: the last min(a, n) rows, each the matching row of s |
| Candles.WindowLowBelowMember | backtesting/live_trading_coin.py:116-118 | the lowest low of a window is at or below the low, hence the high, of any well-formed candle in it |
| Candles.WindowHighAboveMember | backtesting/live_trading_coin.py:138-140 | the highest high of a window is at or above the high, hence the low, of any well-formed candle in it |
| Candles.MediaEntre | backtesting/ML.py:188-191 | a mean of values that all lie in [lo, hi] lies in [lo, hi] |
| Utilidades.Trunc | backtesting/utilidades.py:5 | Python's `int()` on a float truncates toward zero: n <= x < n+1 for x >= 0 and n-1 < x <= n for x < 0 |
| Utilidades.QuantidadeCriptoParaOperar | backtesting/utilidades.py:3-7 | the call fails (ZeroDivisionError) exactly when the price or the minimum lot is 0 |
| Utilidades.QuantidadeEmLotes | backtesting/utilidades.py:5-7 | the quantity is a whole number of minimum lots |
| Utilidades.QuantidadeLimites | backtesting/utilidades.py:4-5 | for saldo >= 0, price > 0 and lot > 0 the quantity is in [0, saldo/price], less than one lot below saldo/price, and 0 exactly when saldo/price is below one lot |
| Utilidades.WholeLots | backtesting/utilidades.py:5 | the whole lots in q >= 0 make the largest multiple of the lot not above q, and that multiple is 0 exactly when q is below one lot |
| PadroesVelas.EngolfoAlta | backtesting/padroes_velas.py:3-8 | row 0 is False; row i > 0 is True iff the previous candle is red, close[i] > open[i-1] and open[i] <= close[i-1]; a True row has a green candle |
| PadroesVelas.EngolfoBaixa | backtesting/padroes_velas.py:10-15 | the mirror image: previous candle green, close[i] < open[i-1], open[i] >= close[i-1]; row 0 False; a True row has a red candle |
| PadroesVelas.EngolfosExclusive | backtesting/padroes_velas.py:5-12 | the two patterns are never True on the same row |
| PadroesVelas.EngolfosLocal | backtesting/padroes_velas.py:3-15 | a pattern at row i depends only on rows i-1 and i |
| PadroesVelas.PiercingLineAlta | backtesting/padroes_velas.py:17-18 | always None |
| PadroesVelas.PiercingLineBaixa | backtesting/padroes_velas.py:20-21 | always None |
| Atr.TrueRange | backtesting/live_trading_scalp.py:25-29 | the true range is one of high-low, abs(high-prev close), abs(low-prev close) and at least each of them; on row 0 the shifted columns are NaN and max skips them |
| Atr.TrueRanges | backtesting/live_trading_scalp.py:29 | the `tr` column holds the true range of every row |
| Atr.AtrAt | backtesting/live_trading_scalp.py:30 | the rolling mean of `tr` is missing exactly on the first periodo-1 rows |
| Atr.AtrAtual | backtesting/live_trading_scalp.py:30-61 | `df['ATR'].iloc[-1]` is defined exactly when the frame has at least periodo rows |
| Atr.AtrNonNegative | backtesting/live_trading_scalp.py:25-30 | on candles whose low and high bound the open and close, every defined ATR is >= 0 |
| IndicadoresOsciladores.PartsRecombine | backtesting/indicadores_osciladores.py:3-5 | the gain part minus the loss part is the change, and at most one of them is non-zero |
| IndicadoresOsciladores.Gains | backtesting/indicadores_osciladores.py:3-4 | `delta.where(delta > 0, 0)`: the positive part of each change, never negative, with row 0's missing diff counted as 0 |
| IndicadoresOsciladores.Losses | backtesting/indicadores_osciladores.py:3-5 | `-delta.where(delta < 0, 0)`: the negative part of each change, never negative |
| IndicadoresOsciladores.RollingMean | backtesting/indicadores_osciladores.py:4-5 | `rolling(window=w).mean()` is missing exactly until the window is full |
| IndicadoresOsciladores.RollingMeanNonNegative | backtesting/indicadores_osciladores.py:4-5 | a rolling mean of a non-negative column is non-negative |
| IndicadoresOsciladores.RsiFromAverages | backtesting/indicadores_osciladores.py:6-7 | 0/0 is NaN (missing); gain/0 gives 100; otherwise 100-100/(1+gain/loss) equals the gain's share of gain+loss, in [0, 100) |
| IndicadoresOsciladores.ShareOfTotal | backtesting/indicadores_osciladores.py:6-7 | for loss > 0, 100 - 100/(1 + gain/loss) == 100·gain/(gain+loss), which lies in [0, 100) |
| IndicadoresOsciladores.RsiAt | backtesting/indicadores_osciladores.py:2-7 | the value at row i is missing on the first periodo-1 rows |
| IndicadoresOsciladores.CalculaRsi | backtesting/indicadores_osciladores.py:2-7 | one value per row, each the RSI of that row |
| IndicadoresOsciladores.RsiBounds | backtesting/indicadores_osciladores.py:3-7 | both averages are >= 0; with a positive average loss the value is in [0, 100); with a zero average loss it is 100, or missing when the gain is 0 too |
| IndicadoresOsciladores.RsiDefinedOnceWindowFull | backtesting/indicadores_osciladores.py:3-7 | from row periodo-1 on the value is missing iff the window has neither gain nor loss |
| IndicadoresOsciladores.RsiNoLookahead | backtesting/indicadores_osciladores.py:3-5 | the value at row i depends only on the closes of rows i-periodo..i: two series that agree there give the same value |
| IndicadoresOsciladores.ColunasIguais | backtesting/indicadores_osciladores.py:3-5 | closes that agree from row lo on give gain and loss columns that agree from the next row on |
| Ordenacao.Insere | backtesting/ML.py:180 | inserting keeps every element with its multiplicity |
| Ordenacao.InsereOrdena | backtesting/ML.py:180 | inserting into a sorted sequence keeps it sorted |
| Ordenacao.OrdenaPor | backtesting/ML.py:180 | `sorted()` (stable): the result is a permutation of the input |
| Ordenacao.OrdenaPorOrdena | backtesting/ML.py:180 | the result is in ascending key order and is a permutation of the input |
| Ordenacao.InsereEstavel | backtesting/ML.py:180 | an inserted element goes in front of every element that shares its key, and the others keep their order |
| Ordenacao.OrdenaPorEstavel | backtesting/ML.py:180 | `sorted()` is stable: the elements that share a key come out in the order they went in |
| Ordenacao.PrimeirosOrdenados | backtesting/ML.py:109-111 | `nsmallest(k)`/`sorted()[:k]`: min(k, n) elements of the input, in ascending key order |
| Ordenacao.PrimeirosMenores | backtesting/ML.py:109-111 | no element left out of the first k has a smaller key than the last one kept |
| Ordenacao.PrimeirosContidos | backtesting/ML.py:109-111 | every element kept is an element of the input |
| ReplayComum.Velas | backtesting/backtesting.py:93 | the candles of a replayed frame, row for row |
| ReplayComum.VelasCarregadas | backtesting/backtesting_lw_engolfo.py:55-60 | the candles of a frame loaded with its EMA columns, row for row |
| ReplayComum.RegistraNuncaFalha | backtesting/results_manager.py:62-75 | in a replay the ledger call a row makes never hits the zero-peak division, keeps the ledger invariant and never lowers max_drawdown |
| ReplayComum.RegistraContaAberturas | backtesting/results_manager.py:29-50 | the calls a row makes add one to the summed open_trades exactly when the call is an opening |
| ReplayComum.Registrar | backtesting/results_manager.py:29-75 | the ResultsManager object ends in the state of the pure ledger update for that call |
| ResultsLedger.WithMonth | backtesting/results_manager.py:29-42 | initialize_month: the (year, month) bucket exists afterwards; an existing bucket leaves the ledger unchanged; otherwise a new bucket (zero counters, 0.0 sums, initial and final balance = current balance, max_drawdown = running max_drawdown) is appended and nothing else changes |
| ResultsLedger.OnTradeOpen | backtesting/results_manager.py:44-50 | update_on_trade_open: open_trades + 1; iff broker_fee > 0 the balance is multiplied by (1 - fee·leverage/100) and written as the bucket's final balance; peak, trough and drawdown untouched; every other bucket unchanged |
| ResultsLedger.OnGain | backtesting/results_manager.py:52-60 | update_on_gain: profitable_trades + 1, balance + lucro_real (additive), final balance written; a strictly higher balance becomes the peak and resets the trough, otherwise both stay; drawdown untouched |
| ResultsLedger.LossBeforeDrawdown | backtesting/results_manager.py:62-69 | the lines of update_on_loss before the division: unprofitable_trades + 1, balance - perda_real, final balance written, trough lowered to the balance only when the balance is below it |
| ResultsLedger.Drawdown | backtesting/results_manager.py:71 | (max - min)/max·100: d·max == (max - min)·100, d >= 0 when min <= max > 0, d <= 100 when min >= 0 |
| ResultsLedger.OnLoss | backtesting/results_manager.py:62-75 | update_on_loss raises ZeroDivisionError exactly when the peak balance is 0; otherwise it is the pre-division lines followed by the drawdown record |
| ResultsLedger.RecordDrawdown | backtesting/results_manager.py:71-75 | the bucket's max_drawdown and the running max_drawdown both become max(previous max_drawdown, drawdown); nothing else changes |
| ResultsLedger.InitialSatisfiesInv | backtesting/results_manager.py:15-27 | the constructor's state satisfies the ledger invariants |
| ResultsLedger.WithMonthIdempotent | backtesting/results_manager.py:29-42 | initialize_month twice equals once, and it leaves an existing bucket exactly as it was |
| ResultsLedger.UpdatesAbsorbWithMonth | backtesting/results_manager.py:45-63 | each update begins with initialize_month, so calling it beforehand changes nothing |
| ResultsLedger.WithMonthKeepsInv | backtesting/results_manager.py:29-42 | initialize_month keeps the invariants |
| ResultsLedger.OnTradeOpenKeepsInv | backtesting/results_manager.py:44-50 | update_on_trade_open keeps the invariants (the fee never moves the peak or the trough) |
| ResultsLedger.OnGainKeepsInv | backtesting/results_manager.py:52-60 | update_on_gain keeps the invariants (trough <= peak, peak >= initial balance, percentage sums 0) |
| ResultsLedger.LossBeforeDrawdownKeepsInv | backtesting/results_manager.py:62-69 | the pre-division lines of update_on_loss keep the invariants |
| ResultsLedger.OnLossKeepsInv | backtesting/results_manager.py:62-75 | update_on_loss keeps the invariants and never lowers max_drawdown |
| ResultsLedger.RunKeepsInv | backtesting/results_manager.py:27 | over any sequence of calls the invariants hold and neither the peak balance nor max_drawdown ever decreases (see also lines 29-75) |
| ResultsLedger.RunNeverRaises | backtesting/results_manager.py:25 | with a positive initial balance the peak stays positive, so no sequence of calls divides by zero (see also line 71) |
| ResultsLedger.ZeroSafeDiv | backtesting/results_manager.py:253-265 | a division whose ZeroDivisionError is caught and replaced by 0: 0 for a zero divisor, otherwise the quotient |
| ResultsLedger.Summarize | backtesting/results_manager.py:247-279 | the summary: Trades, Successful Trades and Failed Trades are the sums over all months of open_trades, profitable_trades and unprofitable_trades; the success rate is 0 for no trades and otherwise successes·100/trades; each average is 0 for a zero count and otherwise times the count gives the month sum of its percentage field; the final result is None exactly when the initial balance is 0 (ZeroDivisionError) and otherwise (final/initial - 1)·100; drawdown, initial and final balance are the ledger's |
| ResultsLedger.FinalResult | backtesting/results_manager.py:279 | the final result is the balance change in per cent: applied to the initial balance it gives the final one; with an initial balance of 0 the division raises (None) |
| ResultsLedger.SumOverZero | backtesting/results_manager.py:248 | a sum over months of a field that is 0 in every bucket is 0 |
| ResultsLedger.AveragesAlwaysZero | backtesting/results_manager.py:36 | nothing adds to total_percentage_profit or total_percentage_loss, so the reported average gain and average loss are always 0 (see also lines 38 and 258-278) |
| ResultsLedger.SumOverIgnores | backtesting/results_manager.py:248 | a sum over months that does not list a key ignores that key's bucket |
| ResultsLedger.SumOverUpdate | backtesting/results_manager.py:248 | replacing one listed month's bucket changes the sum by the difference of the two buckets' fields |
| ResultsLedger.WithMonthSum | backtesting/results_manager.py:29-42 | initialize_month leaves every summed field's total unchanged (see also line 248) |
| ResultsLedger.NewMonthOrder | backtesting/results_manager.py:30-33 | a new month is appended once to the insertion order, which still lists every bucket once |
| ResultsLedger.NewMonthSum | backtesting/results_manager.py:33-38 | a new month starts with every summed field at 0, so the totals are unchanged (see also line 248) |
| ResultsLedger.UpdatedBucketKeepsOrder | backtesting/results_manager.py:248 | rewriting one existing bucket keeps the insertion order matching the buckets, and moves each summed field by the difference between the new and the old bucket |
| ResultsLedger.OnTradeOpenCounts | backtesting/results_manager.py:44-46 | update_on_trade_open adds exactly 1 to the summed open_trades and nothing to any other summed field (see also line 248) |
| ResultsLedger.OnGainCounts | backtesting/results_manager.py:52-56 | update_on_gain adds exactly 1 to the summed profitable_trades and nothing to any other summed field (see also line 248) |
| ResultsLedger.OnLossCounts | backtesting/results_manager.py:62-75 | update_on_loss adds exactly 1 to the summed unprofitable_trades and nothing to any other summed field (see also line 248) |
| ResultsLedger.RecordDrawdownCounts | backtesting/results_manager.py:71-75 | recording the drawdown leaves every summed field unchanged (see also line 248) |
| ResultsLedger.RunSumsCounters | backtesting/results_manager.py:44-75 | over a run of calls each summed field grows by exactly the number of calls that increment it (see also line 248) |
| ResultsLedger.ApplySumsCounters | backtesting/results_manager.py:44-75 | one call adds 1 to a summed field exactly when it is the call that increments that counter (see also line 248) |
| ResultsLedger.RunCountsSummary | backtesting/results_manager.py:248-288 | the summary's Trades, Successful Trades and Failed Trades figures grow by exactly the number of update_on_trade_open, update_on_gain and update_on_loss calls |
| ResultsLedger.ResultsManager.constructor | backtesting/results_manager.py:5-27 | the object starts with no buckets and balance, peak and trough at the initial balance and drawdown 0.0 |
| ResultsLedger.ResultsManager.InitializeMonth | backtesting/results_manager.py:29-42 | the object's new state is WithMonth of the old one |
| ResultsLedger.ResultsManager.UpdateOnTradeOpen | backtesting/results_manager.py:44-50 | the object's new state is OnTradeOpen of the old one, and the invariants hold |
| ResultsLedger.ResultsManager.CountOpen | backtesting/results_manager.py:46-50 | the counter and fee lines of update_on_trade_open give OnTradeOpen's state |
| ResultsLedger.ResultsManager.UpdateOnGain | backtesting/results_manager.py:52-60 | the object's new state is OnGain of the old one, and the invariants hold |
| ResultsLedger.ResultsManager.CountGain | backtesting/results_manager.py:54-60 | the lines of update_on_gain after initialize_month give OnGain's state |
| ResultsLedger.ResultsManager.UpdateOnLoss | backtesting/results_manager.py:62-75 | raises exactly when OnLoss fails (zero peak), leaving the pre-division updates in place; otherwise the new state is OnLoss of the old one |
| ResultsLedger.ResultsManager.CountLoss | backtesting/results_manager.py:64-69 | the pre-division lines of update_on_loss give LossBeforeDrawdown's state |
| ResultsLedger.ResultsManager.RecordLossDrawdown | backtesting/results_manager.py:71-75 | the drawdown lines give RecordDrawdown's state |
| ResultsLedger.ResultsManager.SummarizedResults | backtesting/results_manager.py:247-298 | the figures written to the sheet are Summarize of the state, with both averages 0 |
| FuncoesBybit.Alpha | backtesting/funcoes_bybit.py:32-34 | pandas' smoothing factor 2/(span+1) lies in (0, 1] for every span >= 1 |
| FuncoesBybit.EmaWithinBounds | backtesting/funcoes_bybit.py:32-43 | `ewm(adjust=False)` is a running weighted average: each value lies within any bounds the values so far share |
| FuncoesBybit.EmaNoLookahead | backtesting/funcoes_bybit.py:32-43 | the smoothed value at row i depends on rows 0..i only |
| FuncoesBybit.EmaColumn | backtesting/funcoes_bybit.py:32-34 | the EMA column has one value per row, each the recursive smoothing seeded with the first value |
| FuncoesBybit.EwmWeights | backtesting/funcoes_bybit.py:38-39 | the normalising weight of the adjusted mean is at least 1 |
| FuncoesBybit.WeightedSumAtMost | backtesting/funcoes_bybit.py:38-39 | the weighted sum of values at most hi is at most hi times the weights |
| FuncoesBybit.WeightedSumAtLeast | backtesting/funcoes_bybit.py:38-39 | the weighted sum of values at least lo is at least lo times the weights |
| FuncoesBybit.AdjustedEwmWithinBounds | backtesting/funcoes_bybit.py:38-39 | `ewm(span=14)` (adjust=True) stays within any bounds the values so far share |
| FuncoesBybit.AdjustedEwmNonNegative | backtesting/funcoes_bybit.py:38-39 | the adjusted mean of a non-negative column is non-negative |
| FuncoesBybit.RsiEwmAt | backtesting/funcoes_bybit.py:37-41 | the RSI from exponentially weighted gain and loss is missing on row 0 and otherwise, when defined, within [0, 100] |
| FuncoesBybit.BuscaVelas | backtesting/funcoes_bybit.py:16-45 | fewer than two spans (IndexError) or a span below 1 (ValueError) fail; otherwise the frame is the API list reversed, with the fast, slow and 200 EMA of the closes, the EWM RSI and the 20-span volume EMA on every row |
| FuncoesBybit.BuscaVelasBounds | backtesting/funcoes_bybit.py:32-41 | every EMA column lies between the lowest and highest close seen so far, and the RSI within [0, 100] |
| FuncoesBybit.ParsePrice | backtesting/funcoes_bybit.py:51-67 | '' reads as 0, numeric text as its value, and text float() rejects raises |
| FuncoesBybit.MapSide | backtesting/funcoes_bybit.py:69-75 | '' gives DE_FORA, 'Buy' COMPRADO, 'Sell' VENDIDO (each iff), and any other text is returned unmapped |
| FuncoesBybit.SideRoundTrip | backtesting/funcoes_bybit.py:69-75 | every trade state read back from its side text is that state |
| FuncoesBybit.TemTradeAberto | backtesting/funcoes_bybit.py:47-77 | succeeds iff the list is non-empty and the first record's three prices parse; the state and the three prices are then the first record's, mapped and parsed |
| FuncoesBybit.TemTradeAbertoFirstOnly | backtesting/funcoes_bybit.py:49 | only the first position record is inspected |
| FuncoesBybit.FlatRecordReadsAsFlat | backtesting/funcoes_bybit.py:51-75 | a record of blanks reads as DE_FORA with zero prices |
| FuncoesBybit.AbreCompra | backtesting/funcoes_bybit.py:90-99 | one linear market order on the symbol with side Buy and the given quantity, stop and target |
| FuncoesBybit.AbreVenda | backtesting/funcoes_bybit.py:110-119 | one linear market order with side Sell and the given quantity, stop and target |
| FuncoesBybit.OrdersDifferInSideOnly | backtesting/funcoes_bybit.py:90-119 | a buy and a sell with the same arguments differ only in the side |
| OperacaoAoVivo.BotDe | backtesting/live_trading_scalp.py:41 | the bot starts from the state and the three prices tem_trade_aberto returned, with no closing candle, no orders and no exits |
| OperacaoAoVivo.PrimeiraOk | backtesting/live_trading_scalp.py:39-49 | the index of the first read that returned: every read before it raised |
| OperacaoAoVivo.Inicio | backtesting/live_trading_scalp.py:39-51 | the startup loop gives up (exit()) exactly when the first five reads all raise; otherwise the bot starts from the first read that returned, which is among the first five |
| OperacaoAoVivo.Inicializa | backtesting/live_trading_scalp.py:39-51 | the startup loop's result is Inicio of the reads |
| OperacaoAoVivo.Velas | backtesting/live_trading_scalp.py:55 | the candles of the frame, row for row |
| OperacaoAoVivo.Fecha | backtesting/live_trading_scalp.py:69-70 | an exit sets DE_FORA, stamps the candle in vela_fechou_trade, records one exit, and keeps the prices and orders |
| OperacaoAoVivo.MotivoComprado | backtesting/live_trading_scalp.py:68-79 | a long exits on the target iff high >= target, on the stop iff the target was not touched and low <= stop, and on an external close iff neither was touched and the exchange reports flat |
| OperacaoAoVivo.MotivoVendido | backtesting/live_trading_scalp.py:83-94 | the mirror for a short: low <= target first, then high >= stop, then an external close |
| OperacaoAoVivo.Sai | backtesting/live_trading_scalp.py:66-94 | a read that raises leaves the bot unchanged; otherwise the exchange's stop and target overwrite the bot's, then the target, the stop and only then a second flat read close the trade |
| OperacaoAoVivo.SaiFechaOuMantem | backtesting/live_trading_scalp.py:66-94 | an exit branch either keeps state, exits and stamp, or moves to DE_FORA with the closing candle stamped and exactly one exit appended |
| OperacaoAoVivo.AlvoAntesDoStop | backtesting/live_trading_scalp.py:68-75 | a candle reaching both the target and the stop is recorded as a target hit |
| OperacaoAoVivo.Entra | backtesting/live_trading_scalp.py:109-119 | the entry prices are assigned first; the state and the order list change only when the order call returns |
| OperacaoAoVivo.StopCompraJanela | backtesting/live_trading.py:109 | the stop `low[-n:-1].min()` is the low of a candle of that window and at most the low of candle -2 |
| OperacaoAoVivo.StopVendaJanela | backtesting/live_trading.py:129 | the stop `high[-n:-1].max()` is the high of a candle of that window and at least the high of candle -2 |
| OperacaoAoVivo.JanelaAtingida | backtesting/live_trading.py:109-129 | the window df[-n:-1] ends with candle -2; its lowest low and highest high are attained by candles in it |
| OperacaoAoVivo.AlvoCompra | backtesting/live_trading.py:110 | target - entry == rr·(entry - stop), so the target is at or above the entry when stop <= entry |
| OperacaoAoVivo.AlvoVenda | backtesting/live_trading.py:130 | entry - target == rr·(stop - entry), so the target is at or below the entry when entry <= stop |
| LiveTrading.ExecutaPasso | backtesting/live_trading.py:55-135 | one pass of the while loop on the script's variables gives Passo |
| LiveTrading.Procura | backtesting/live_trading.py:94-135 | the DE_FORA branch once the once-per-candle gate is open; it has no contract of its own: the entry lemmas of this module state when it opens which side, with which stop and target |
| LiveTrading.Passo | backtesting/live_trading.py:55-135 | one pass of the while loop; it has no contract of its own: ExecutaPasso is proved equal to it, and the lemmas of this module state its exits, entries and gate |
| LiveTrading.Executa | backtesting/live_trading.py:35-144 | the fold of Passo over the passes; it has no contract of its own: Executar is proved to end in it |
| LiveTrading.SairDoTrade | backtesting/live_trading.py:70-92 | the COMPRADO/VENDIDO branch (one read, then one combined target-or-stop-or-flat test) gives Sai with the same read as confirmation |
| LiveTrading.Executar | backtesting/live_trading.py:35-144 | the script gives up when the startup reads fail, and otherwise ends in the fold of Passo over the passes |
| LiveTrading.FechaSeAlvoStopOuFora | backtesting/live_trading.py:70-80 | a long closes exactly when the newest candle reaches the target or the stop, or the exchange reports flat; a close stamps that candle |
| LiveTrading.FechaVendidoSeAlvoStopOuFora | backtesting/live_trading.py:82-92 | a short closes exactly when the newest candle reaches down to the target or up to the stop, or the exchange reports flat; a close stamps the candle |
| LiveTrading.CompraNaBaixa | backtesting/live_trading.py:97-114 | the branch that opens a long fires only on the bearish alignment: candle -2 closed below all three EMAs and the newest candle broke its low |
| LiveTrading.VendaNaAlta | backtesting/live_trading.py:117-134 | the branch that opens a short fires only on the bullish alignment: candle -2 closed above all three EMAs and the newest candle broke its high |
| LiveTrading.EntradaOrdenada | backtesting/live_trading.py:108-130 | on well-formed candles a long opens with stop <= entry <= target and a short with target <= entry <= stop, the target 3.1 risk distances from the entry |
| LiveTrading.FrameCurto | backtesting/live_trading.py:65-68 | a frame with fewer than 19 rows leaves the bot unchanged |
| LiveTrading.ReentradaBloqueada | backtesting/live_trading.py:94 | out of the market, a pass whose newest candle closed the last trade changes nothing |
| LiveTradingBackup.ExecutaPasso | backtesting/live_trading_backup.py:57-115 | one pass of the while loop on the script's variables gives Passo |
| LiveTradingBackup.Procura | backtesting/live_trading_backup.py:88-107 | the DE_FORA branch once the once-per-candle gate is open; it has no contract of its own: the entry lemmas of this module state when it opens which side, with which stop and target |
| LiveTradingBackup.Passo | backtesting/live_trading_backup.py:57-115 | one pass of the while loop; it has no contract of its own: ExecutaPasso is proved equal to it, and the lemmas of this module state its exits, entries and gate |
| LiveTradingBackup.Executa | backtesting/live_trading_backup.py:35-117 | the fold of Passo over the passes; it has no contract of its own: Executar is proved to end in it |
| LiveTradingBackup.Executar | backtesting/live_trading_backup.py:35-117 | the script gives up when the startup reads fail, and otherwise ends in the fold of Passo over the passes |
| LiveTradingBackup.EntradaOrdenada | backtesting/live_trading_backup.py:100-102 | on well-formed candles a long opens with stop <= entry <= target |
| LiveTradingBackup.NuncaVende | backtesting/live_trading_backup.py:64-107 | long only: from any state other than VENDIDO the bot never reaches VENDIDO |
| LiveTradingBackup.VendidoParaSempre | backtesting/live_trading_backup.py:64-88 | there is no VENDIDO branch, so a short found at startup is never left and nothing else changes |
| LiveTradingBackup.ReentradaBloqueada | backtesting/live_trading_backup.py:88 | out of the market, a pass whose newest candle closed the last trade changes nothing |
| LiveTradingBackup.EntraSoComOrdem | backtesting/live_trading_backup.py:91-106 | DE_FORA becomes COMPRADO exactly when one order went out, and that order is a buy of the symbol |
| LiveTradingCoin.ExecutaPasso | backtesting/live_trading_coin.py:52-153 | one pass of the while loop on the script's variables gives Passo |
| LiveTradingCoin.Procura | backtesting/live_trading_coin.py:101-146 | the DE_FORA branch once the once-per-candle gate is open; it has no contract of its own: the entry lemmas of this module state when it opens which side, with which stop and target |
| LiveTradingCoin.Passo | backtesting/live_trading_coin.py:52-153 | one pass of the while loop; it has no contract of its own: ExecutaPasso is proved equal to it, and the lemmas of this module state its exits, entries and gate |
| LiveTradingCoin.Executa | backtesting/live_trading_coin.py:30-155 | the fold of Passo over the passes; it has no contract of its own: Executar is proved to end in it |
| LiveTradingCoin.Executar | backtesting/live_trading_coin.py:30-155 | the script gives up when the startup reads fail, and otherwise ends in the fold of Passo over the passes |
| LiveTradingCoin.EntradaOrdenada | backtesting/live_trading_coin.py:116-140 | on well-formed candles a long opens with stop <= entry <= target and a short with target <= entry <= stop, the target 2.5 risk distances from the entry |
| LiveTradingCoin.GatilhosExclusivos | backtesting/live_trading_coin.py:105-132 | the buy and sell conditions exclude each other, so the order they are tried in does not matter |
| LiveTradingCoin.FrameVazio | backtesting/live_trading_coin.py:54-55 | an empty frame leaves every variable as it was |
| LiveTradingCoin.ReentradaBloqueada | backtesting/live_trading_coin.py:101 | out of the market, a pass whose newest candle closed the last trade changes nothing |
| LiveTradingCoin.EntraSoComOrdem | backtesting/live_trading_coin.py:105-146 | out of the market the state changes exactly when one order went out, and the order's side is the state reached |
| LiveTradingScalp.ExecutaPasso | backtesting/live_trading_scalp.py:54-143 | one pass of the while loop on the script's variables gives Passo |
| LiveTradingScalp.Procura | backtesting/live_trading_scalp.py:96-136 | the DE_FORA branch once the once-per-candle gate is open; it has no contract of its own: the entry lemmas of this module state when it opens which side, with which stop and target |
| LiveTradingScalp.Passo | backtesting/live_trading_scalp.py:54-143 | one pass of the while loop; it has no contract of its own: ExecutaPasso is proved equal to it, and the lemmas of this module state its exits, entries and gate |
| LiveTradingScalp.Executa | backtesting/live_trading_scalp.py:39-145 | the fold of Passo over the passes; it has no contract of its own: Executar is proved to end in it |
| LiveTradingScalp.Executar | backtesting/live_trading_scalp.py:39-145 | the script gives up when the startup reads fail, and otherwise ends in the fold of Passo over the passes |
| LiveTradingScalp.AtrInvalidoPula | backtesting/live_trading_scalp.py:61-64 | an undefined (fewer candles than the period) or zero newest ATR leaves the bot unchanged |
| LiveTradingScalp.FiltroAtrNuncaDispara | backtesting/live_trading_scalp.py:109-119 | with a positive ATR a buy signal whose order goes out always opens a long at high[-2], stop two ATRs below, target ten ATRs above |
| LiveTradingScalp.FiltroSoComAtrNegativo | backtesting/live_trading_scalp.py:113-130 | the "stop shorter than one ATR" test holds only for a negative ATR, for both sides |
| LiveTradingScalp.VendaDezAtrs | backtesting/live_trading_scalp.py:127-136 | a short opens at low[-2] with its stop two ATRs above and its target ten ATRs below |
| LiveTradingScalp.ReentradaBloqueada | backtesting/live_trading_scalp.py:96 | out of the market, a pass whose newest candle closed the last trade changes nothing |
| LiveTradingScalpBtcusdt.ExecutaPasso | backtesting/live_trading_scalp_BTCUSDT.py:62-185 | one pass of the while loop on the script's variables gives Passo |
| LiveTradingScalpBtcusdt.Procura | backtesting/live_trading_scalp_BTCUSDT.py:128-177 | the DE_FORA branch once the once-per-candle gate is open; it has no contract of its own: the entry lemmas of this module state when it opens which side, with which stop and target |
| LiveTradingScalpBtcusdt.Passo | backtesting/live_trading_scalp_BTCUSDT.py:62-185 | one pass of the while loop; it has no contract of its own: ExecutaPasso is proved equal to it, and the lemmas of this module state its exits, entries and gate |
| LiveTradingScalpBtcusdt.Executa | backtesting/live_trading_scalp_BTCUSDT.py:42-187 | the fold of Passo over the passes; it has no contract of its own: Executar is proved to end in it |
| LiveTradingScalpBtcusdt.Executar | backtesting/live_trading_scalp_BTCUSDT.py:42-187 | the script gives up when the startup reads fail, and otherwise ends in the fold of Passo over the passes |
| LiveTradingScalpBtcusdt.FiltroSoComAtrNegativo | backtesting/live_trading_scalp_BTCUSDT.py:144-156 | with a defined ATR, a buy signal whose order goes out opens a long iff the ATR is >= 0, at high[-2] with the stop 4 ATRs below and the target 12.4 ATRs above |
| LiveTradingScalpBtcusdt.AcompanhaPede | backtesting/live_trading_scalp_BTCUSDT.py:80-110 | with the position read, a trade branch appends exactly one breakeven request, at entry·1.005 for a long and entry·0.995 for a short, with the last close |
| LiveTradingScalpBtcusdt.BreakevenCompraPedido | backtesting/live_trading_scalp_BTCUSDT.py:76-84 | in a long, the pass asks for breakeven at entry·1.005 with the last close |
| LiveTradingScalpBtcusdt.BreakevenVendaPedido | backtesting/live_trading_scalp_BTCUSDT.py:102-110 | in a short, the pass asks for breakeven at entry·0.995 with the last close |
| LiveTradingScalpBtcusdt.SinaisExclusivos | backtesting/live_trading_scalp_BTCUSDT.py:138-165 | the buy signal (EMA fast > slow > 200) and the sell signal (the reverse) exclude each other |
| LiveTradingScalpBtcusdt.FrameCurto | backtesting/live_trading_scalp_BTCUSDT.py:71-74 | fewer than 19 candles leave the bot unchanged |
| LiveTradingScalpBtcusdt.ParcialSoAposOrdem | backtesting/live_trading_scalp_BTCUSDT.py:152-177 | a partial exit is requested exactly when an entry order went out, with that order's quantity and the entry price |
| LiveTradingScalpSolanaTeste.TrailingCompra | backtesting/live_trading_scalp_SOLANA_TESTE.py:99-103 | the long trailing stop is max(stop, close - 1.5·ATR): never below the stop, and either the stop or the candidate (a NaN candidate keeps the stop) |
| LiveTradingScalpSolanaTeste.TrailingVenda | backtesting/live_trading_scalp_SOLANA_TESTE.py:147-151 | the short trailing stop is min(stop, close + 1.5·ATR): never above the stop, and either the stop or the candidate |
| LiveTradingScalpSolanaTeste.Alvo50 | backtesting/live_trading_scalp_SOLANA_TESTE.py:94 | the half-way price lies between the entry and the target (see also line 142) |
| LiveTradingScalpSolanaTeste.Encerra | backtesting/live_trading_scalp_SOLANA_TESTE.py:105-125 | an exit is the shared exit plus both flags reset, with no new reduction (see also lines 153-173) |
| LiveTradingScalpSolanaTeste.Parcial | backtesting/live_trading_scalp_SOLANA_TESTE.py:86-92 | when the partial is not yet taken and the gain is >= 5 %, one 50 % reduction is requested, the stop moves to the entry and the flag is set (a reduction that raises ends the pass); otherwise nothing changes (see also lines 134-140) |
| LiveTradingScalpSolanaTeste.Trailing | backtesting/live_trading_scalp_SOLANA_TESTE.py:94-103 | trailing turns on once the close reaches half-way to the target and stays on; the stop only rises for a long and only falls for a short; nothing else changes (see also lines 142-151) |
| LiveTradingScalpSolanaTeste.Saida | backtesting/live_trading_scalp_SOLANA_TESTE.py:105-125 | an exit goes to DE_FORA, stamps the candle, resets both flags and records one exit; requests are untouched (see also lines 153-173) |
| LiveTradingScalpSolanaTeste.AcompanhaPasso | backtesting/live_trading_scalp_SOLANA_TESTE.py:79-173 | the trade branch on the script's variables gives Acompanha |
| LiveTradingScalpSolanaTeste.ParcialPasso | backtesting/live_trading_scalp_SOLANA_TESTE.py:88-92 | the partial-exit lines on the script's variables give Parcial (see also lines 136-140) |
| LiveTradingScalpSolanaTeste.TrailingPasso | backtesting/live_trading_scalp_SOLANA_TESTE.py:94-103 | the trailing lines on the script's variables give Trailing (see also lines 142-151) |
| LiveTradingScalpSolanaTeste.ExecutaPasso | backtesting/live_trading_scalp_SOLANA_TESTE.py:65-219 | one pass of the while loop on the script's variables gives Passo |
| LiveTradingScalpSolanaTeste.Procura | backtesting/live_trading_scalp_SOLANA_TESTE.py:175-212 | the DE_FORA branch once the once-per-candle gate is open; it has no contract of its own: the entry lemmas of this module state when it opens which side, with which stop and target |
| LiveTradingScalpSolanaTeste.Passo | backtesting/live_trading_scalp_SOLANA_TESTE.py:65-219 | one pass of the while loop; it has no contract of its own: ExecutaPasso is proved equal to it, and the lemmas of this module state its exits, entries and gate |
| LiveTradingScalpSolanaTeste.Executa | backtesting/live_trading_scalp_SOLANA_TESTE.py:43-221 | the fold of Passo over the passes; it has no contract of its own: Executar is proved to end in it |
| LiveTradingScalpSolanaTeste.Executar | backtesting/live_trading_scalp_SOLANA_TESTE.py:43-221 | the script gives up when the startup reads fail, and otherwise ends in the fold of Passo over the passes, flags starting False |
| LiveTradingScalpSolanaTeste.PassoParcialUmaVez | backtesting/live_trading_scalp_SOLANA_TESTE.py:88-111 | one pass keeps "reductions <= exits, plus one while the partial flag is set" |
| LiveTradingScalpSolanaTeste.ExecutaParcialUmaVez | backtesting/live_trading_scalp_SOLANA_TESTE.py:61 | over any run the partial exit fires at most once per position (see also lines 88-92 and 110-111) |
| LiveTradingScalpSolanaTeste.SaidaReiniciaFlags | backtesting/live_trading_scalp_SOLANA_TESTE.py:105-125 | every exit (target, stop, external) resets both flags, stamps the candle and records one exit (see also lines 153-173) |
| LiveTradingScalpSolanaTeste.TrailingSoAperta | backtesting/live_trading_scalp_SOLANA_TESTE.py:100 | the long trailing stop never falls and is at least close - 1.5·ATR; the short one never rises and is at most close + 1.5·ATR (see also line 148) |
| LiveTradingScalpSolanaTeste.ParcialMoveStopParaEntrada | backtesting/live_trading_scalp_SOLANA_TESTE.py:83-92 | in a long whose close is 5 % above the entry the pass requests one 50 % reduction, and a trade still open has the flag set and its stop at or above the entry |
| LiveTradingScalpSolanaTeste.EntradaVinteAtrs | backtesting/live_trading_scalp_SOLANA_TESTE.py:182-212 | an entry needs a defined ATR >= 0, and has its stop 4 ATRs and its target 20 ATRs from the entry |
| LiveTradingIa.TemTradeAberto | backtesting/live_trading_ia.py:49-68 | an empty list is no position with zero prices; otherwise the read fails iff a price does not parse, 'Buy' gives LONG, 'Sell' SHORT, any other side None, and an empty price 0 |
| LiveTradingIa.LadoVazioSemPosicao | backtesting/live_trading_ia.py:62-66 | a record with side '' reads as no position, as an empty list does |
| LiveTradingIa.Amplitudes | backtesting/live_trading_ia.py:43 | the high - low of every candle |
| LiveTradingIa.Quadro | backtesting/live_trading_ia.py:28-46 | the frame of the commented-out busca_velas: the API list reversed, one adjust=False EMA per span, ATR as the 14-candle rolling mean of high - low |
| LiveTradingIa.AtrNaoNegativo | backtesting/live_trading_ia.py:43-44 | with well-formed candles that ATR is never negative |
| LiveTradingIa.ArredondaPar | backtesting/live_trading_ia.py:130 | Python's round() to an integer lies within half a unit of x |
| LiveTradingIa.Arredonda3 | backtesting/live_trading_ia.py:130-143 | round(x, 3) is a whole number of thousandths within half a thousandth of x |
| LiveTradingIa.Quantidade | backtesting/live_trading_ia.py:130-131 | the quantity is max(round(risk/distance, 3), min_qty): at least both, and equal to one of them |
| LiveTradingIa.RiscoPodeExceder | backtesting/live_trading_ia.py:127-131 | the 2 % risk is not a bound: balance 100, distance 1 and minimum 10 send 10, risking 10 |
| LiveTradingIa.RiscoDentroDoArredondamento | backtesting/live_trading_ia.py:127-131 | when the minimum does not bind, the quantity is within half a thousandth of the one risking exactly 2 % |
| LiveTradingIa.AbreTrade | backtesting/live_trading_ia.py:82-91 | one linear market order with the given side, quantity, stop and target |
| LiveTradingIa.ExecutaPasso | backtesting/live_trading_ia.py:98-151 | one pass of the corrected loop on the script's variables gives Passo |
| LiveTradingIa.Procura | backtesting/live_trading_ia.py:119-149 | the DE_FORA branch once the once-per-candle gate is open; it has no contract of its own: the entry lemmas of this module state when it opens which side, with which stop and target |
| LiveTradingIa.Passo | backtesting/live_trading_ia.py:98-151 | one pass of the corrected loop; it has no contract of its own: ExecutaPasso is proved equal to it, and the lemmas of this module state its exits, entries and gate |
| LiveTradingIa.Executa | backtesting/live_trading_ia.py:94-153 | the fold of Passo over the passes; it has no contract of its own: Executar is proved to end in it |
| LiveTradingIa.Executar | backtesting/live_trading_ia.py:94-153 | a startup read that raises ends the program (it is not retried); otherwise the result is the fold of Passo from the read state |
| LiveTradingIa.SaiSoSemPosicao | backtesting/live_trading_ia.py:110-116 | in a trade the state clears exactly when the exchange reports no position, stamping the newest candle, and no order is sent |
| LiveTradingIa.ReentradaBloqueada | backtesting/live_trading_ia.py:119 | out of the market, a pass whose newest candle closed the last trade changes nothing |
| LiveTradingIa.ProcuraLong | backtesting/live_trading_ia.py:124-135 | a long needs an up trend, close[-2] > EMA 9 > EMA 21 and a defined ATR; it sends one Buy of at least min_qty with stop low[-3] - 1.5·ATR and target high[-2] + 2·(high[-2] - stop) |
| LiveTradingIa.ProcuraShort | backtesting/live_trading_ia.py:137-148 | the mirror: a down trend, close[-2] < EMA 9 < EMA 21, one Sell with stop high[-3] + 1.5·ATR and target low[-2] - 2·(stop - low[-2]) |
| LiveTradingIa.LongNaAlta | backtesting/live_trading_ia.py:107-124 | a pass that opens a long saw the five-minute EMA 50 rise on its last candle |
| LiveTradingIa.ShortNaBaixa | backtesting/live_trading_ia.py:107-137 | a pass that opens a short saw the five-minute EMA 50 not rise (a tie counts as DOWN) |
| LiveTradingIa.ComoEscritoNuncaAge | backtesting/live_trading_ia.py:100 | as written busca_velas is called with the single span [50] and raises on every pass, so the bot never trades and never leaves a trade |
| LiveTradingIa.CorrigidoOpera | backtesting/live_trading_ia.py:119-135 | the corrected bot does trade: an up trend, the bullish alignment and an order that goes out open a long from a flat start |
| ScoreQuantitativo.UltimaDe | backtesting/live_trading_XRP.py:142-177 | the last main-frame row the score reads: its candle, its EMAs and volume EMA, and the RSI recomputed as the 14-candle rolling-mean RSI at that row |
| ScoreQuantitativo.EmasConfirmacao | backtesting/live_trading_XRP.py:118-132 | the confirmation frame is the API list reversed, and its last row holds the adjust=False EMAs 9, 21 and 200 of the closes |
| ScoreQuantitativo.Pontos | backtesting/live_trading_XRP.py:182-226 | a criterion gives all of its points when it holds and none otherwise |
| ScoreQuantitativo.ScoreCompra | backtesting/live_trading_XRP.py:180-226 | the buy score never exceeds the maximum of 10 |
| ScoreQuantitativo.ScoreVenda | backtesting/live_trading_XRP.py:228-274 | the sell score never exceeds the maximum of 10 |
| ScoreQuantitativo.ScoreCompraMaximo | backtesting/live_trading_XRP.py:180-226 | the buy score is 10 exactly when all nine criteria hold (NaN failing every one); the confirmation trend alone guarantees 2 points, and without it the score is at most 8 |
| ScoreQuantitativo.ScoreVendaMaximo | backtesting/live_trading_XRP.py:228-274 | the same for a sell, with the bands and comparisons mirrored |
| ScoreQuantitativo.Score | backtesting/live_trading_XRP.py:166-280 | fewer than 50 main or 20 confirmation candles score 0; otherwise the direction's score of the last rows, never above 10 |
| ScoreQuantitativo.TendenciasExclusivas | backtesting/live_trading_XRP.py:182-189 | the up and down trends of either frame never hold together (see also lines 230-237) |
| ScoreQuantitativo.BandaRsiCompra | backtesting/live_trading_XRP.py:194 | the buy RSI point is given exactly on [35, 70], and the RSI moves the score by that point only |
| ScoreQuantitativo.BandaRsiVenda | backtesting/live_trading_XRP.py:242 | the sell RSI point is given exactly on [30, 65] |
| ScoreQuantitativo.PontoVolume | backtesting/live_trading_XRP.py:204 | the volume point needs strictly more than 1.5 times the volume EMA, in both directions (see also line 252) |
| ScoreQuantitativo.DecisaoExclusiva | backtesting/live_trading_XRP.py:429-461 | the buy and sell entry conditions never hold together |
| ScoreQuantitativo.StopDinamico | backtesting/live_trading_XRP.py:282-309 | the stop distance is at least 0.5 % of the entry, and otherwise no more than 2.5 ATRs and no more than the distance to the ten-candle low (buy) or high (sell) |
| ScoreQuantitativo.VolatilidadeNuncaLimita | backtesting/live_trading_XRP.py:297-305 | with a non-negative ATR the Williams volatility stop never decides: the distance is max(min(2.5 ATR, support distance), 0.5 % of the entry) |
| ScoreQuantitativo.VerificarTradeAberto | backtesting/live_trading_XRP.py:316-326 | the first of three reads that returns is the answer; when all three raise the position is flat with zero prices |
| ScoreQuantitativo.CorretoraInacessivel | backtesting/live_trading_XRP.py:316-326 | an exchange that cannot be reached reads as flat, with stop and target 0 |
| LiveTradingXrp.Acompanha | backtesting/live_trading_XRP.py:355-407 | in a trade the entry, stop, target and orders never change; a failed breakeven request leaves everything as it was; otherwise one breakeven request is appended and the bot either stays in the trade or goes flat |
| LiveTradingXrp.Decisao | backtesting/live_trading_XRP.py:429-461 | a buy exactly when the buy score is at least 6 and beats the sell score, a sell in the mirror case, no entry otherwise |
| LiveTradingXrp.Posiciona | backtesting/live_trading_XRP.py:430-490 | the trade opens at the entry with stop entry ∓ d and target entry ± 3.1·d; the state and the order list change only when the order went out, and then by exactly that order |
| LiveTradingXrp.Entrada | backtesting/live_trading_XRP.py:412-493 | a failed quantity read or no decision leaves the bot unchanged |
| LiveTradingXrp.ExecutaPasso | backtesting/live_trading_XRP.py:336-504 | one pass of the while loop on the script's variables gives Passo |
| LiveTradingXrp.Procura | backtesting/live_trading_XRP.py:410-501 | the DE_FORA branch once the once-per-candle gate is open; it has no contract of its own: the entry lemmas of this module state when it opens which side, with which stop and target |
| LiveTradingXrp.Passo | backtesting/live_trading_XRP.py:336-504 | one pass of the while loop; it has no contract of its own: ExecutaPasso is proved equal to it, and the lemmas of this module state its exits, entries and gate |
| LiveTradingXrp.Executa | backtesting/live_trading_XRP.py:328-508 | the fold of Passo over the passes; it has no contract of its own: Executar is proved to end in it |
| LiveTradingXrp.AcompanhaPasso | backtesting/live_trading_XRP.py:355-407 | the trade branch on the script's variables gives Acompanha |
| LiveTradingXrp.Executar | backtesting/live_trading_XRP.py:328-508 | the script starts from the retried position read (never failing) and folds Passo over the passes |
| LiveTradingXrp.EntradaCompra | backtesting/live_trading_XRP.py:429-458 | a buy that goes out is long from the last close, its stop at least 0.5 % below, its target 3.1 risks above, with exactly one buy order sent |
| LiveTradingXrp.EntradaVenda | backtesting/live_trading_XRP.py:461-490 | the mirror for a sell |
| LiveTradingXrp.PassoEmTrade | backtesting/live_trading_XRP.py:355-386 | in a trade with full data the pass runs the trade branch on the newest candle, the first kline listed |
| LiveTradingXrp.SemEntradaSemVencedor | backtesting/live_trading_XRP.py:429 | equal scores, or both under 6, send nothing and change nothing (see also lines 461 and 492-500) |
| LiveTradingXrp.ConfirmacaoCurtaNaoEntra | backtesting/live_trading_XRP.py:171-172 | a confirmation frame under 20 candles never lets a flat bot enter (see also lines 429 and 461) |
| LiveTradingXrp.EmTradePrecosFixos | backtesting/live_trading_XRP.py:355-407 | while in a trade the bot's own entry, stop and target never change and no order is opened |
| LiveTradingXrp.CorretoraInacessivelEncerraCompra | backtesting/live_trading_XRP.py:316-326 | when every position read raises, the target reads as 0 and a long is closed as a target hit at once (see also lines 358 and 365-367) |
| LiveTradingXrp.BreakevenPedido | backtesting/live_trading_XRP.py:361-389 | each pass in a trade asks for breakeven at entry·1.01 (long) or entry·0.99 (short) with the last close |
| LiveTradingXrp.ReentradaBloqueada | backtesting/live_trading_XRP.py:410 | out of the market, the candle that closed the last trade opens nothing |
| LiveTradingXrpMl.Corpo | backtesting/live_trading_XRP_ML.py:187-195 | the body abs(close - open) is non-negative and equals one of the two differences |
| LiveTradingXrpMl.Corrida | backtesting/live_trading_XRP_ML.py:163-172 | the run counted back from the last candle: every candle in it has the colour asked for and the one before it, if any, does not |
| LiveTradingXrpMl.CorridaUnica | backtesting/live_trading_XRP_ML.py:163-172 | any run of one colour preceded by the other colour (or by nothing) is the run counted, so the count is unique |
| LiveTradingXrpMl.CorridaAoMenos | backtesting/live_trading_XRP_ML.py:163-172 | the run is at least k exactly when the last k candles all have that colour |
| LiveTradingXrpMl.CorridaNaJanela | backtesting/live_trading_XRP_ML.py:154-172 | for k up to the 15-candle window, a run of k in the window is the same as the last k candles of the whole series having that colour |
| LiveTradingXrpMl.AnaliseComoEscrita | backtesting/live_trading_XRP_ML.py:133-208 | fewer candles than the window give the empty analysis, and one of the two counts is always 0 |
| LiveTradingXrpMl.AnalisarSequenciaVelas | backtesting/live_trading_XRP_ML.py:133-208 | the counting loop with its breaks gives the analysis as written, and neither reversal flag is ever set |
| LiveTradingXrpMl.ContagemExclusiva | backtesting/live_trading_XRP_ML.py:157-172 | the green count is positive exactly when the last candle is green, the red count exactly when it is not (a doji counts as red), and neither exceeds 15 |
| LiveTradingXrpMl.ReversaoComoEscritaNunca | backtesting/live_trading_XRP_ML.py:182-196 | as written a buy reversal needs five red candles ending at a green one, and a sell reversal five green candles ending at a red one, so both are always false |
| LiveTradingXrpMl.Analisar | backtesting/live_trading_XRP_ML.py:133-208 | the corrected analysis keeps the written counts and exhaustion flag and changes only the reversal flags |
| LiveTradingXrpMl.ReversaoAltaCorrigida | backtesting/live_trading_XRP_ML.py:182-188 | the corrected buy reversal fires exactly on five red candles, then a green one with a larger body, under an RSI below 40 |
| LiveTradingXrpMl.ReversaoBaixaCorrigida | backtesting/live_trading_XRP_ML.py:190-196 | the corrected sell reversal fires exactly on five green candles, then a red one with a larger body, under an RSI above 60 |
| LiveTradingXrpMl.ExaustaoSignifica | backtesting/live_trading_XRP_ML.py:198-199 | exhaustion holds exactly when the last eight candles all have one colour |
| LiveTradingXrpMl.ScoreContextual | backtesting/live_trading_XRP_ML.py:259-308 | the contextual score is at most 3 |
| LiveTradingXrpMl.ContextualComoEscritoNoMaximoDois | backtesting/live_trading_XRP_ML.py:270-288 | with the analysis as written the reversal point is never given, so the contextual score never exceeds 2 |
| LiveTradingXrpMl.ContextualAoMenosUm | backtesting/live_trading_XRP_ML.py:275-303 | one of the two runs is empty, so each side always gets at least one contextual point, from the analysis as written and from the corrected one alike |
| LiveTradingXrpMl.ContextualCompraTres | backtesting/live_trading_XRP_ML.py:268-285 | a buy gets all three contextual points exactly when the buy reversal fires without seven or more green candles |
| LiveTradingXrpMl.ScoreMl | backtesting/live_trading_XRP_ML.py:310-366 | the ML score is at most 3, and it is 0 exactly when there is no forecast or it points the other way |
| LiveTradingXrpMl.MlUmLadoSo | backtesting/live_trading_XRP_ML.py:326-343 | a forecast gives ML points to at most one side |
| LiveTradingXrpMl.MlConfiancaMonotona | backtesting/live_trading_XRP_ML.py:326-358 | more confidence never lowers the ML score, and 3 points need the forecast's direction and at least 60 % |
| LiveTradingXrpMl.Total | backtesting/live_trading_XRP_ML.py:698-709 | the total, technical plus contextual plus ML, is at most 16 |
| LiveTradingXrpMl.Decisao | backtesting/live_trading_XRP_ML.py:726-761 | a buy exactly when the buy total is at least 10 and beats the sell total, a sell in the mirror case |
| LiveTradingXrpMl.SemMlPrecisaSeteTecnicos | backtesting/live_trading_XRP_ML.py:62 | without a forecast a side reaching 10 has at least 7 technical points (see also lines 698-700) |
| LiveTradingXrpMl.Treina | backtesting/live_trading_XRP_ML.py:212-248 | training never touches the trading state (see also lines 604-607) |
| LiveTradingXrpMl.TreinaMantem | backtesting/live_trading_XRP_ML.py:212-248 | ml_treinado and the recorded training time stay in step, a trained model stays trained, and the recorded time changes only to now, and only on the first success or four hours after the last one (see also lines 604-607) |
| LiveTradingXrpMl.PrevisaoUsada | backtesting/live_trading_XRP_ML.py:686 | the scores see a forecast exactly when a model is trained and the prediction returned one |
| LiveTradingXrpMl.ExecutaPasso | backtesting/live_trading_XRP_ML.py:586-801 | one pass of the while loop on the script's variables gives Passo, which scores the candle-sequence analysis as written |
| LiveTradingXrpMl.Procura | backtesting/live_trading_XRP_ML.py:661-797 | the DE_FORA branch once the once-per-candle gate is open; it has no contract of its own: the entry lemmas of this module state when it opens which side, with which stop and target |
| LiveTradingXrpMl.Passo | backtesting/live_trading_XRP_ML.py:586-801 | one pass of the while loop; it has no contract of its own: ExecutaPasso is proved equal to it, and the lemmas of this module state its exits, entries and gate |
| LiveTradingXrpMl.Executa | backtesting/live_trading_XRP_ML.py:578-803 | the fold of Passo over the passes; it has no contract of its own: Executar is proved to end in it |
| LiveTradingXrpMl.Executar | backtesting/live_trading_XRP_ML.py:578-803 | the script starts from the retried position read with no model trained and folds Passo over the passes, with the candle-sequence analysis as written |
| LiveTradingXrpMl.PassoMantemTreino | backtesting/live_trading_XRP_ML.py:604-607 | every pass keeps ml_treinado and the training time in step and never untrains |
| LiveTradingXrpMl.ExecutaMantemTreino | backtesting/live_trading_XRP_ML.py:583-607 | so does every run |
| LiveTradingXrpMl.PassoEmTrade | backtesting/live_trading_XRP_ML.py:610-659 | in a trade the pass runs the XRPUSDT trade branch on the newest candle, after the training call |
| LiveTradingXrpMl.CompraExigeTotal | backtesting/live_trading_XRP_ML.py:661-726 | a long is opened only after the balance and minimum reads succeed, on a buy total (technical, contextual from the analysis as written, and forecast points) of at least 10 that beats the sell total |
| LiveTradingXrpMl.CompraSemMlPrecisaOitoTecnicos | backtesting/live_trading_XRP_ML.py:660-726 | as written no reversal point is ever scored, so a long opened without a forecast needs at least eight technical points |
| LiveTradingPepeusdt.Seguidas | backtesting/live_trading_PEPEUSDT.py:97-110 | the run counted back from the last candle: every candle in it is green (red) and the one before it, if any, is not |
| LiveTradingPepeusdt.Contagem | backtesting/live_trading_PEPEUSDT.py:89-111 | fewer than 10 rows give (0, 0); one of the two counts is always 0 and neither exceeds the number of rows |
| LiveTradingPepeusdt.SeguidasUnica | backtesting/live_trading_PEPEUSDT.py:97-110 | any run of k green (red) candles ending the series, preceded by a candle that is not, is the run counted |
| LiveTradingPepeusdt.ContarVelasConsecutivas | backtesting/live_trading_PEPEUSDT.py:89-111 | the two counting loops with their breaks give Contagem |
| LiveTradingPepeusdt.ContagemSignifica | backtesting/live_trading_PEPEUSDT.py:97-110 | with 10 rows or more the green count is positive exactly when the last candle is green and the red count exactly when it is red; a final doji gives (0, 0) |
| LiveTradingPepeusdt.PontosVolume | backtesting/live_trading_PEPEUSDT.py:186-226 | with a positive volume EMA: 2 points above 0.8 times it, 1 point above half of it, none otherwise; with a zero EMA (an infinite ratio) 2 points for any positive volume and never 1 |
| LiveTradingPepeusdt.ScoreReversao | backtesting/live_trading_PEPEUSDT.py:164-246 | fewer than 50 main rows or 20 confirmation candles score 0, and the score never exceeds 10 |
| LiveTradingPepeusdt.Decisao | backtesting/live_trading_PEPEUSDT.py:385-389 | a long exactly when the buy score fed the red count reaches 4, beats the sell score and the four buy filters hold; a short exactly when no long and the mirror holds with the green count (see also lines 398-401, 408-413 and 447-452) |
| LiveTradingPepeusdt.FiltrosGarantemScore | backtesting/live_trading_PEPEUSDT.py:182-204 | the buy filters already earn 7 points, and 9 while the red run is at most 15, so the minimum score of 4 never binds once they hold (see also lines 408-413) |
| LiveTradingPepeusdt.CompraAposVelaVerde | backtesting/live_trading_PEPEUSDT.py:89-111 | after a green candle the red count is 0, so a long never earns the run-count points on it (see also line 201) |
| LiveTradingPepeusdt.StopDinamico | backtesting/live_trading_PEPEUSDT.py:248-269 | the stop distance is max(min(2.5 ATR, distance to the 17-candle low or high), 0.5 % of the entry): at least the floor, and otherwise within both bounds and equal to one of them |
| LiveTradingPepeusdt.StopNaoAbaixoDoSuporte | backtesting/live_trading_PEPEUSDT.py:255-263 | unless the 0.5 % floor decides, a long's stop is never below the lowest low of the last 17 candles |
| LiveTradingPepeusdt.Acompanha | backtesting/live_trading_PEPEUSDT.py:327-380 | in a trade the entry, stop, target and orders never change; a failed breakeven request leaves everything as it was; the bot either stays in the trade or goes flat |
| LiveTradingPepeusdt.Posiciona | backtesting/live_trading_PEPEUSDT.py:416-485 | the trade opens at the entry with stop entry ∓ d and target entry ± 2.5·d; the state and the orders change only when the order went out, and then by exactly that order |
| LiveTradingPepeusdt.Entrada | backtesting/live_trading_PEPEUSDT.py:390-485 | a failed quantity read or no decision leaves the bot unchanged |
| LiveTradingPepeusdt.AcompanhaPasso | backtesting/live_trading_PEPEUSDT.py:327-380 | the trade branch on the script's variables gives Acompanha |
| LiveTradingPepeusdt.ExecutaPasso | backtesting/live_trading_PEPEUSDT.py:300-500 | one pass of the while loop on the script's variables gives Passo |
| LiveTradingPepeusdt.Procura | backtesting/live_trading_PEPEUSDT.py:382-496 | the DE_FORA branch once the once-per-candle gate is open; it has no contract of its own: the entry lemmas of this module state when it opens which side, with which stop and target |
| LiveTradingPepeusdt.Passo | backtesting/live_trading_PEPEUSDT.py:300-500 | one pass of the while loop; it has no contract of its own: ExecutaPasso is proved equal to it, and the lemmas of this module state its exits, entries and gate |
| LiveTradingPepeusdt.Executa | backtesting/live_trading_PEPEUSDT.py:287-503 | the fold of Passo over the passes; it has no contract of its own: Executar is proved to end in it |
| LiveTradingPepeusdt.Executar | backtesting/live_trading_PEPEUSDT.py:287-503 | the script starts from the retried position read and folds Passo over the passes |
| LiveTradingPepeusdt.EntradaCompra | backtesting/live_trading_PEPEUSDT.py:408-445 | a long that goes out enters at the previous candle's high, its stop at least 0.5 % below, its target 2.5 risks above, with one buy order sent |
| LiveTradingPepeusdt.EntradaVenda | backtesting/live_trading_PEPEUSDT.py:447-485 | a short mirrors it from the previous candle's low |
| LiveTradingPepeusdt.PassoEmTrade | backtesting/live_trading_PEPEUSDT.py:327-358 | in a trade the pass runs the trade branch on the newest candle, the first kline listed |
| LiveTradingPepeusdt.BreakevenPedido | backtesting/live_trading_PEPEUSDT.py:333-362 | each pass in a trade asks for breakeven at entry·1.005 (long) or entry·0.995 (short) with the last close |
| LiveTradingPepeusdt.AlvoPrimeiro | backtesting/live_trading_PEPEUSDT.py:338-347 | a candle reaching both the target and the stop of a long closes it as a win on that candle |
| LiveTradingPepeusdt.ReentradaBloqueada | backtesting/live_trading_PEPEUSDT.py:382 | out of the market, the candle that closed the last trade opens nothing |
| DemoFuncoesBybit.BuscaVelas | backtesting/demo_funcoes_bybit.py:26-77 | a failed request, or an EMA pair that cannot be unpacked into two spans, gives the empty frame; otherwise one row per kline, oldest first, each with the adjusted EWM of spans 1 and 2 of the pair and of span 200 over the closes up to it |
| DemoFuncoesBybit.BuscaVelasLimites | backtesting/demo_funcoes_bybit.py:57-60 | every EMA of the frame lies between the lowest and the highest close up to its row |
| DemoFuncoesBybit.EwmEntreVistos | backtesting/demo_funcoes_bybit.py:58-60 | an adjusted EWM value lies between the extremes of the closes up to its row |
| DemoFuncoesBybit.Numero | backtesting/demo_funcoes_bybit.py:88-91 | float() succeeds exactly on numeric text and gives its value |
| DemoFuncoesBybit.NumeroOuZero | backtesting/demo_funcoes_bybit.py:92-93 | `float(x) if x else 0`: the empty field is 0, malformed text raises |
| DemoFuncoesBybit.Aberta | backtesting/demo_funcoes_bybit.py:90-100 | a record with a non-zero size reads exactly when its prices parse; 'Buy' is COMPRADO and any other side VENDIDO; the entry is avgPrice |
| DemoFuncoesBybit.TemTradeAbertoLoop | backtesting/demo_funcoes_bybit.py:79-106 | the loop that returns at the first non-zero size gives TemTradeAberto (a raising call reads as flat with zero prices) |
| DemoFuncoesBybit.VarrePrimeiraAberta | backtesting/demo_funcoes_bybit.py:87-100 | a position reported is the first record whose size is non-zero, every earlier one having size 0 |
| DemoFuncoesBybit.SemTamanhoFora | backtesting/demo_funcoes_bybit.py:87-102 | a list whose sizes are all 0 reads as flat |
| DemoFuncoesBybit.LadoDaPrimeiraAberta | backtesting/demo_funcoes_bybit.py:87-106 | the helper never reports an unmapped side, and a position it reports is COMPRADO exactly when the first open record says 'Buy' |
| DemoFuncoesBybit.SaldoDaConta | backtesting/demo_funcoes_bybit.py:108-116 | the wallet's total balance, or 0 when the call fails |
| DemoFuncoesBybit.LoteReserva | backtesting/demo_funcoes_bybit.py:131-139 | the fallback lot is always positive |
| DemoFuncoesBybit.QuantidadeMinima | backtesting/demo_funcoes_bybit.py:118-139 | the exchange's minOrderQty, or the fallback lot when the request fails |
| DemoFuncoesBybit.LotesDeReserva | backtesting/demo_funcoes_bybit.py:132-139 | BTC pairs 0.001, ETH 0.01, XRP 0.1, others 1.0, with BTC checked first (ETHBTC gets 0.001) |
| DemoFuncoesBybit.ParcialCompra | backtesting/demo_funcoes_bybit.py:181-199 | a reduce-only sell for half the position at 1 % above the entry |
| DemoFuncoesBybit.ParcialVenda | backtesting/demo_funcoes_bybit.py:205-223 | a reduce-only buy for half the position at 1 % below the entry |
| DemoFuncoesBybit.ParciaisEspelhadas | backtesting/demo_funcoes_bybit.py:181-223 | for a positive entry the two partials are mirror images: opposite sides, the same quantity, the same distance above and below the entry |
| DemoFuncoesBybit.StopBreakevenCompra | backtesting/demo_funcoes_bybit.py:229-238 | the stop is moved exactly when long and the price reached the partial level, and it moves to the entry |
| DemoFuncoesBybit.StopBreakevenVenda | backtesting/demo_funcoes_bybit.py:255-264 | the mirror for a short at or below the partial level |
| DemoFuncoesBybit.BreakevenConfirmado | backtesting/demo_funcoes_bybit.py:240-279 | the helper answers True exactly when a request was sent and came back with retCode 0 or 34040 |
| DemoFuncoesBybit.BreakevenSoNoLadoCerto | backtesting/demo_funcoes_bybit.py:232-258 | the two helpers never both act on one state, and neither acts when flat |
| DemoStrategyMain.RsiDemoAt | backtesting/demo_strategy_main.py:213-220 | the demo RSI is 50 while the 14-row window is not full, and always lies in [0, 100) |
| DemoStrategyMain.AtrDemoAt | backtesting/demo_strategy_main.py:82-95 | the ATR column is defined exactly when the frame holds a full window; rows before the first full window are back-filled with its value |
| DemoStrategyMain.DmMais | backtesting/demo_strategy_main.py:100-103 | plus_dm is never negative |
| DemoStrategyMain.DmMenos | backtesting/demo_strategy_main.py:100-104 | minus_dm, taken on low.diff() as written, is never negative, and a positive one means plus_dm is 0 on that row |
| DemoStrategyMain.DmsMais | backtesting/demo_strategy_main.py:103 | the plus_dm column, one non-negative value per row |
| DemoStrategyMain.DmsMenos | backtesting/demo_strategy_main.py:104 | the minus_dm column, one non-negative value per row |
| DemoStrategyMain.DxAt | backtesting/demo_strategy_main.py:107-110 | dx is undefined exactly on the first 13 rows, and lies in [0, 100) |
| DemoStrategyMain.AdxAt | backtesting/demo_strategy_main.py:111-112 | the ADX lies in [0, 100), and is the fill value 20 on the first 26 rows |
| DemoStrategyMain.Janela | backtesting/demo_strategy_main.py:137-151 | the rolling window of w rows ending at row i has w rows and ends at row i |
| DemoStrategyMain.VwapAt | backtesting/demo_strategy_main.py:134-141 | while the 20-row window is not full the VWAP is filled with the close |
| DemoStrategyMain.VwapNaJanela | backtesting/demo_strategy_main.py:137-139 | with closes in [0, m] and non-negative volumes over its window, the VWAP is defined and lies in [0, m] |
| DemoStrategyMain.VwapDefinida | backtesting/demo_strategy_main.py:137-139 | on well-formed candles with positive lows and non-negative volumes, the VWAP is defined, non-negative and at most the window's highest close |
| DemoStrategyMain.WilliamsDeLimitado | backtesting/demo_strategy_main.py:152-153 | a close between the window's extremes gives a defined Williams %R in (-100, 0] |
| DemoStrategyMain.WilliamsAt | backtesting/demo_strategy_main.py:147-155 | Williams %R is the fill value -50 while the 14-row window is not full |
| DemoStrategyMain.WilliamsNaFaixa | backtesting/demo_strategy_main.py:150-153 | on well-formed candles Williams %R is defined and lies in (-100, 0] |
| DemoStrategyMain.MomentumAt | backtesting/demo_strategy_main.py:161-166 | momentum is the fill value 100 on the first 10 rows |
| DemoStrategyMain.MomentumSobe | backtesting/demo_strategy_main.py:164 | with a positive close 10 rows back, momentum is defined, above 100 exactly when the close rose, below 100 exactly when it fell |
| DemoStrategyMain.IndicadoresAt | backtesting/demo_strategy_main.py:211-236 | the RSI and ADX the demo score reads lie in [0, 100) |
| DemoStrategyMain.UltimaDe | backtesting/demo_strategy_main.py:251 | the score reads the newest main-frame candle, and a CCI that pandas leaves NaN reads as 0 (see also line 127) |
| DemoStrategyMain.ScoreCompra | backtesting/demo_strategy_main.py:254-301 | the demo buy score never exceeds 10 |
| DemoStrategyMain.ScoreVenda | backtesting/demo_strategy_main.py:302-340 | the demo sell score never exceeds 10 |
| DemoStrategyMain.Score | backtesting/demo_strategy_main.py:242-346 | fewer than 30 main or 10 confirmation rows score 0; otherwise at most 10 |
| DemoStrategyMain.MesmaBandaRsiCompra | backtesting/demo_strategy_main.py:268 | the buy RSI point is given exactly inside [RSI oversold, RSI overbought], and the RSI moves the score by that point only |
| DemoStrategyMain.MesmaBandaRsiVenda | backtesting/demo_strategy_main.py:314 | the sell side uses the same RSI band as the buy side |
| DemoStrategyMain.TendenciaUmLado | backtesting/demo_strategy_main.py:256-258 | the one-hour trend points go to one side at most (see also lines 304-306) |
| DemoStrategyMain.Decisao | backtesting/demo_strategy_main.py:518 | a buy exactly when the buy score reaches 5 and beats the sell score, a sell in the mirror case (see also line 572) |
| DemoStrategyMain.PyMin | backtesting/demo_strategy_main.py:360 | Python's min of two numbers is at most both and equal to one |
| DemoStrategyMain.PyMax | backtesting/demo_strategy_main.py:360 | Python's max of two numbers is at least both and equal to one |
| DemoStrategyMain.StopDinamicoDemo | backtesting/demo_strategy_main.py:348-362 | the distance is 2 ATRs clamped to [0.5 %, 2 %] of the entry: at least 0.5 %, at most 2 % for a non-negative entry, and exactly 2 ATRs inside the band |
| DemoStrategyMain.ValidaExigeEntradaPositiva | backtesting/demo_strategy_main.py:524-527 | prices that pass the stop/target check come from a positive entry, so the size division is always defined (see also lines 578-581) |
| DemoStrategyMain.Pow10 | backtesting/demo_strategy_main.py:535-537 | a power of ten is at least 1 |
| DemoStrategyMain.Unidades | backtesting/demo_strategy_main.py:535-537 | round() keeps the nearest whole number of steps, a tie going to the even one |
| DemoStrategyMain.Arredonda | backtesting/demo_strategy_main.py:535-537 | round(x, n) is a whole number of 10^-n steps within half a step of x |
| DemoStrategyMain.Casas | backtesting/demo_strategy_main.py:534-537 | sizes keep 1 decimal for an XRP pair and 3 otherwise |
| DemoStrategyMain.ValorTrade | backtesting/demo_strategy_main.py:530 | a trade's value is at most 20 USDT and at most 1 % of the balance |
| DemoStrategyMain.QtdAjustada | backtesting/demo_strategy_main.py:530-537 | the order size is within half a rounding step of the trade value over the entry |
| DemoStrategyMain.TamanhoXrp | backtesting/demo_strategy_main.py:534-535 | XRPUSDT sizes are whole tenths within 0.05 of the trade value over the entry |
| DemoStrategyMain.Motivo | backtesting/demo_strategy_main.py:440-456 | a target hit needs a positive target, a stop hit a positive stop and no target hit, and no exit means the exchange did not report the position flat (see also lines 469-485) |
| DemoStrategyMain.PrecosZeradosNaoSaem | backtesting/demo_strategy_main.py:440-475 | zero prices never close a trade; only the exchange reporting it flat does |
| DemoStrategyMain.Acompanha | backtesting/demo_strategy_main.py:429-486 | in a trade the bot's own prices, its orders and the pass counter never change, and it either stays in the trade or goes flat |
| DemoStrategyMain.Abre | backtesting/demo_strategy_main.py:518-625 | an entry sets the entry price and the clamped stop and target, leaves the closing candle, exits and counter alone, and changes the state only to the side opened |
| DemoStrategyMain.Passo | backtesting/demo_strategy_main.py:402-652 | every pass, skipped or not, adds one to contador_ciclos |
| DemoStrategyMain.Executa | backtesting/demo_strategy_main.py:402-652 | a run of n passes counts n cycles |
| DemoStrategyMain.AcompanhaPasso | backtesting/demo_strategy_main.py:429-486 | the trade branch on the script's variables gives Acompanha |
| DemoStrategyMain.ExecutaPasso | backtesting/demo_strategy_main.py:402-652 | one pass of the while loop on the script's variables gives Passo |
| DemoStrategyMain.Procura | backtesting/demo_strategy_main.py:488-634 | the DE_FORA branch once the once-per-candle gate is open; it has no contract of its own: the entry lemmas of this module state when it opens which side, with which stop and target |
| DemoStrategyMain.Executar | backtesting/demo_strategy_main.py:380-652 | main_demo starts from the first position read and folds Passo over the passes, counting one cycle each |
| DemoStrategyMain.CompraExecutada | backtesting/demo_strategy_main.py:518-566 | a buy that opens needs a positive entry and an order that returned; its stop is 0.5 %-2 % below the entry, its target 2 risks above, one buy order of the rounded size (at least the minimum lot) is sent, then the partial take profit for half of it |
| DemoStrategyMain.VendaExecutada | backtesting/demo_strategy_main.py:572-620 | a sell mirrors the buy |
| DemoStrategyMain.SemOrdemMantemEstado | backtesting/demo_strategy_main.py:539-567 | a size under the minimum lot sends nothing and keeps the state, although the entry price variable is already replaced |
| DemoStrategyMain.LeiturasFalhasEncerram | backtesting/demo_strategy_main.py:368-377 | when both position reads fail, the zero prices close nothing and the trade is left as closed on the exchange (see also lines 436 and 452-456) |
| DemoStrategyMain.BreakevenNoMeioPorCento | backtesting/demo_strategy_main.py:436-466 | the stop is moved to the entry exactly when the close reaches entry·1.005 in a long (entry·0.995 in a short) |
| DemoStrategyMain.EmTradePrecosFixos | backtesting/demo_strategy_main.py:429-486 | while in a trade the bot's prices and orders never change |
| DemoStrategyMain.ConfirmacaoCurtaNaoEntra | backtesting/demo_strategy_main.py:247-248 | a confirmation frame under 10 candles only counts the pass (see also lines 518 and 572) |
| DemoStrategyMain.ReentradaBloqueada | backtesting/demo_strategy_main.py:488 | out of the market, the candle that closed the last trade only counts the pass |
| HistoricoCompras.DiaMonotone | backtesting/daily_spot_try.py:108 | a later time never falls on an earlier calendar day (see also lines 153-158) |
| HistoricoCompras.CompraDe | backtesting/daily_spot_try.py:94-103 | a purchase keeps the order's quantity and value; its price times the quantity is the value when the quantity is positive, and the price is 0 otherwise |
| HistoricoCompras.PreenchidasExactly | backtesting/daily_spot_try.py:92-103 | exactly the orders with status 'Filled' become purchases, never more than there are orders |
| HistoricoCompras.Mais | backtesting/daily_spot_try.py:105-106 | the latest purchase time: absent exactly when there is no purchase, at least every purchase's time, and the time of one of them |
| HistoricoCompras.UltimaCompraIsLatestDay | backtesting/daily_spot_try.py:86-113 | ultima_compra is missing exactly when no order was filled; otherwise it is the day of some purchase and no purchase falls on a later day |
| HistoricoCompras.PreenchidasStep | backtesting/daily_spot_try.py:92-103 | each order adds its purchase exactly when it is filled |
| HistoricoCompras.MaisStep | backtesting/daily_spot_try.py:105-106 | a purchase replaces the latest time only when strictly later |
| HistoricoCompras.ObterHistoricoComprasApi | backtesting/daily_spot_try.py:86-113 | the loop over the orders, then the reversal of the list, gives HistoricoDe |
| HistoricoCompras.PrecoMedio | backtesting/daily_spot_try.py:117-120 | the average price times the BTC bought is the USDT paid, and it is 0 when no BTC was bought |
| HistoricoCompras.PrecoUniforme | backtesting/daily_spot_try.py:117-120 | when every purchase paid the same price, that is the average price |
| HistoricoCompras.LucroPrejuizo | backtesting/daily_spot_try.py:127-131 | the profit or loss is the BTC held times the gap between the current and the average price |
| HistoricoCompras.TotalsAppend | backtesting/daily_spot_try.py:118-119 | the BTC and USDT totals grow by exactly one purchase's amounts |
| HistoricoCompras.DeveComprar | backtesting/daily_spot_try.py:153-158 | the daily gate: no purchase yet or the last one before today; it has no contract of its own: RegistroKeepsUmaCompraPorDia and the DailySpotTry and DailySpotBuy lemmas state what it admits |
| HistoricoCompras.RegistroKeepsUmaCompraPorDia | backtesting/daily_spot_try.py:158 | a purchase recorded through the daily gate keeps at most one purchase per calendar day (see also lines 214-215) |
| DailySpotTry.RoundHalfEven | backtesting/daily_spot_try.py:83 | Decimal.to_integral() gives the nearest integer, a tie going to the even one |
| DailySpotTry.HalfLot | backtesting/daily_spot_try.py:83 | a lot count within half of the ratio gives a quantity within half a lot of the amount |
| DailySpotTry.RatioAtLeastOne | backtesting/daily_spot_try.py:82-83 | a target of at least one lot is at least one lot's ratio |
| DailySpotTry.LotesAjustados | backtesting/daily_spot_try.py:82-83 | the lot count is within half a lot of the target over the lot |
| DailySpotTry.AjustarQuantidade | backtesting/daily_spot_try.py:79-84 | a zero lot raises; otherwise a whole number of lots, at least one for a positive lot, within half a lot of max(quantity, lot) |
| DailySpotTry.AjusteBounds | backtesting/daily_spot_try.py:82-83 | a target of at least one positive lot rounds to at least one lot, within half a lot of the target |
| DailySpotTry.AjustarQuantidadeRoundsUp | backtesting/daily_spot_try.py:83 | 1.5 lots round up to 2: the adjusted quantity can exceed what was asked |
| DailySpotTry.AjustarQuantidadeRoundsDown | backtesting/daily_spot_try.py:83 | 2.5 lots round to the even 2: the adjusted quantity can fall short |
| DailySpotTry.QuantidadeCalculada | backtesting/daily_spot_try.py:173-185 | the sizing fails exactly when the lot is 0 |
| DailySpotTry.PrecoReal | backtesting/daily_spot_try.py:204 | the recorded price times the executed quantity is the executed value when something was executed; otherwise it is the quoted price |
| DailySpotTry.TentaCompra | backtesting/daily_spot_try.py:158-227 | the buy half: an order (dated today, quantity 10, with the computed size) is sent exactly when every check passes and place_order does not raise; a purchase with the executed quantity, value and price is appended and today becomes the last purchase day exactly when its details are also read back, and only then does the pass go on to the report half; reports are untouched |
| DailySpotTry.Passo | backtesting/daily_spot_try.py:151-249 | one pass of the loop: when the daily gate is closed, no order is sent and no purchase is recorded |
| DailySpotTry.CompraDoDia | backtesting/daily_spot_try.py:158-227 | the buy half of the loop body gives TentaCompra |
| DailySpotTry.Executar | backtesting/daily_spot_try.py:138-249 | a failed history request stops the bot; otherwise the state after the passes, starting from the history read and no report |
| DailySpotTry.PassoGate | backtesting/daily_spot_try.py:151-249 | a pass adds at most one purchase, only through the daily gate, dated today and making today the last purchase day; it sends at most one order, of the literal quantity 10, and at most one report |
| DailySpotTry.ExecutaUmaCompraPorDia | backtesting/daily_spot_try.py:151-227 | over any run, at most one recorded purchase per calendar day |
| DailySpotTry.ExecutaUmRelatorioPorDia | backtesting/daily_spot_try.py:238-244 | over any run, at most one report per calendar day |
| DailySpotTry.ExecutaOrdensDeDez | backtesting/daily_spot_try.py:188-195 | every order a run sends asks for the literal quantity 10, whatever the sizing computed |
| DailySpotTry.OrdemRepetidaNoMesmoDia | backtesting/daily_spot_try.py:188-227 | when the order is placed but its details cannot be read back, nothing is recorded, and the next pass on the same day places a second order |
| DailySpotTry.OrdemRecusadaNadaEnvia | backtesting/daily_spot_try.py:189-195 | when place_order itself raises, the pass leaves the state exactly as it was: no order, no purchase, the gate still open (see also lines 224-227) |
| DailySpotBuy.Executar | backtesting/daily_spot_buy.py:130-209 | a failed history request stops the bot; otherwise the state after the passes, starting from the history read |
| DailySpotBuy.PassoRegistraOrdem | backtesting/daily_spot_buy.py:150-197 | a pass sends an order exactly when it records a purchase, and then only through the daily gate, for 10 USDT over the mid price, dated today |
| DailySpotBuy.ExecutaUmaCompraPorDia | backtesting/daily_spot_buy.py:150-197 | over any run, at most one recorded purchase per calendar day |
| DailySpotBuy.ExecutaComprasDeDez | backtesting/daily_spot_buy.py:164-186 | over any run, one order per recorded purchase, each worth 10 USDT at its price, and no report is ever mailed (the report call raises after the purchase is recorded) |
| Backtesting.ComputeRsi | backtesting/backtesting.py:43-49 | the RSI lies in [0, 100]; it reads 100 exactly in the warm-up rows and when the 14-row average loss is zero, and otherwise equals the RSI over 14-row simple rolling means of gains and losses |
| Backtesting.Indicadores | backtesting/backtesting.py:59-63 | every indicator column the script adds has one value per row of the frame |
| Backtesting.ContarCandlesConsecutivos | backtesting/backtesting.py:66-78 | the loop computes the backwards scan over rows index-1 .. 0; at most one counter is non-zero and their sum never exceeds index |
| Backtesting.Varredura | backtesting/backtesting.py:66-78 | the backwards scan as written; it has no contract of its own: ContarCandlesConsecutivos is proved to compute it, and VarreduraLimitada and VarreduraLocal state its bounds and that it reads only the rows before index |
| Backtesting.VarreduraLimitada | backtesting/backtesting.py:66-78 | the backwards scan keeps at most one counter non-zero and adds at most one per row scanned |
| Backtesting.SeguidasAcima | backtesting/backtesting.py:66-78 | the run above the EMA ending at row j-1 is at most j long, and a non-empty run means row j-1 closed above the EMA (see also line 129) |
| Backtesting.SeguidasAbaixo | backtesting/backtesting.py:66-78 | the mirror image for closes below the EMA (see also line 129) |
| Backtesting.ContarRecentes | backtesting/backtesting.py:66-78 | the count the entry tests evidently intend, the runs ending at the row before index: one of the two is zero and together they never exceed index (see also line 129) |
| Backtesting.SeguidasAcimaSignifica | backtesting/backtesting.py:66-78 | the run above is at least n rows long if and only if each of the n rows before j closed above the EMA (see also line 132) |
| Backtesting.SeguidasAbaixoSignifica | backtesting/backtesting.py:66-78 | the run below is at least n rows long if and only if each of the n rows before j closed below the EMA (see also line 149) |
| Backtesting.SeguidasLocais | backtesting/backtesting.py:66-78 | the counts at index depend only on the rows before index |
| Backtesting.VarreduraLocal | backtesting/backtesting.py:66-78 | the counts as written at index depend only on the closes and EMA values of the rows before index |
| Backtesting.ContagemComoEscritaDescreveOInicio | backtesting/backtesting.py:69-77 | on a concrete series whose last row closes above the EMA after a row below it, the function as written reports nine rows above while the newest run is one row |
| Backtesting.Ler | backtesting/backtesting.py:129-157 | what row i reads: the counts as `contar_candles_consecutivos` computes them, one of them zero and together at most i, and a stop window whose lowest low is at most the previous low and highest high at least the previous high |
| Backtesting.Decide | backtesting/backtesting.py:99-163 | the decision of one row keeps the position well formed; it opens a trade exactly when it leaves the out-of-market state, and reports a profit or a loss exactly when it closes one |
| Backtesting.DecideArma | backtesting/backtesting.py:138-158 | an entry puts the target 5.1 risks beyond the entry, on the other side from the stop; an exit keeps the prices |
| Backtesting.DecideSaidas | backtesting/backtesting.py:99-125 | the target is examined before the stop on both sides; a profit is never below minus the two fees and a loss is at least the two fees |
| Backtesting.DecideCompoe | backtesting/backtesting.py:104-124 | a profit multiplies the balance by 1 + pct/100, a loss by 1 - pct/100, and every other row leaves it unchanged |
| Backtesting.PercentualNaoNegativo | backtesting/backtesting.py:101-107 | a non-negative price distance over a positive entry gives a non-negative leveraged percentage |
| Backtesting.Linha | backtesting/backtesting.py:94-163 | one pass of the loop body keeps the position well formed |
| Backtesting.Executa | backtesting/backtesting.py:93-163 | the state after the rows before k holds a well-formed position |
| Backtesting.AnteriorDaProxima | backtesting/backtesting.py:93 | stepping to the next row and back returns the same row |
| Backtesting.ExecutaAvanca | backtesting/backtesting.py:93-163 | the state after row i is one loop body applied to the state before it |
| Backtesting.ExecutarLinha | backtesting/backtesting.py:94-163 | the loop body, run on the ledger object, leaves exactly the position, balance and ledger that one replayed row gives from the ones it started with |
| Backtesting.ExecutarBacktest | backtesting/backtesting.py:90-167 | the script's loop leaves a fresh ledger holding exactly the replayed ledger and the replayed final balance |
| Backtesting.LinhaMantemInv | backtesting/backtesting.py:94-163 | each row keeps the ledger's invariants, so update_on_loss never fails, and never lowers the maximum drawdown |
| Backtesting.LinhaContaEntrada | backtesting/backtesting.py:145-162 | a row adds one to the trade count exactly when it moves the replay into a trade |
| Backtesting.ExecutaMantemInv | backtesting/backtesting.py:93-163 | after any number of rows the ledger satisfies its invariants |
| Backtesting.ExecutaContaEntradas | backtesting/backtesting.py:93-167 | the summary's trade count equals the number of rows that opened a trade |
| Backtesting.ExecutaArmada | backtesting/backtesting.py:93-163 | on well-formed candles every position the replay holds has its target 5.1 risks from the entry |
| Backtesting.ComputeRsiLocal | backtesting/backtesting.py:43-49 | the RSI at row i depends only on the closes up to row i |
| Backtesting.EmaLocal | backtesting/backtesting.py:59-63 | an EMA column at row i depends only on rows 0 .. i |
| Backtesting.IndicadoresLocais | backtesting/backtesting.py:59-63 | every indicator value row i reads comes from rows 0 .. i |
| Backtesting.JanelaLocal | backtesting/backtesting.py:139-156 | the stop window of row i is fixed by the rows before i |
| Backtesting.LerLocal | backtesting/backtesting.py:129-158 | everything row i reads comes from rows 0 .. i |
| Backtesting.ExecutaLocal | backtesting/backtesting.py:93-163 | the replay never looks ahead: the state after k rows is fixed by those k rows |
| BacktestingTeste.Inicio | backtesting/backtesting_teste.py:99 | the loop always starts after row 200 |
| BacktestingTeste.RsiComoEscrito | backtesting/backtesting_teste.py:66-70 | the column as written reads 0 wherever the index proper reads 100 (warm-up rows, no losses) and agrees with it everywhere else |
| BacktestingTeste.SomaNula | backtesting/backtesting_teste.py:68 | a rolling window of zero losses sums to zero |
| BacktestingTeste.RsiComoEscritoNaSubida | backtesting/backtesting_teste.py:70 | on fourteen rising closes the index should read 100 but the column as written reads 0, which passes the RSI < 30 buy test (see also line 148) |
| BacktestingTeste.Indicadores | backtesting/backtesting_teste.py:62-90 | every column the loop reads has one value per row; the RSI column is the one the script computes, 0 where the index proper reads 100 |
| BacktestingTeste.Marcas | backtesting/backtesting_teste.py:78-80 | the marks of the window are, row by row, whether the close is above (below) the EMA |
| BacktestingTeste.CorridaFinal | backtesting/backtesting_teste.py:81-82 | the reversed cumulative product sums to at most the window length, and is non-zero only when the last mark is set |
| BacktestingTeste.ContarJanela | backtesting/backtesting_teste.py:74-83 | index below 1 gives (0, 0); each count is at most 30 and one of the two is zero |
| BacktestingTeste.CorridaDasMarcas | backtesting/backtesting_teste.py:77-82 | the cumulative-product count equals the run ending at the last row, cut at the window's length |
| BacktestingTeste.ContarJanelaSignifica | backtesting/backtesting_teste.py:74-83 | each count is the newest run above (below) the EMA, cut at 30 rows |
| BacktestingTeste.Decide | backtesting/backtesting_teste.py:117-170 | the row keeps the position well formed, opens a trade exactly when it leaves the out-of-market state, closes one exactly when it reports a result, and opens only while fewer than ten trades were opened that day |
| BacktestingTeste.DecideEntradas | backtesting/backtesting_teste.py:145-170 | with ten trades that day nothing happens; otherwise a long opens exactly under the RSI, volume and high tests, at the previous high plus slippage, with the stop two ATRs below and the target risco_retorno risks above; a short mirrors it |
| BacktestingTeste.DecideSaidas | backtesting/backtesting_teste.py:117-143 | the target is examined before the stop on both sides |
| BacktestingTeste.DecideNaoCompoe | backtesting/backtesting_teste.py:119-143 | the balance moves by the same amount whatever it was; a gain adds the reported profit, a long's loss subtracts the fixed position times the reported percentage, a short's loss the reported amount |
| BacktestingTeste.Linha | backtesting/backtesting_teste.py:100-170 | one pass of the loop body keeps the position well formed |
| BacktestingTeste.Executa | backtesting/backtesting_teste.py:99-170 | the state after the rows before k holds a well-formed position |
| BacktestingTeste.AnteriorDaProxima | backtesting/backtesting_teste.py:99 | stepping to the next row and back returns the same row |
| BacktestingTeste.ProximaDaAnterior | backtesting/backtesting_teste.py:99 | stepping back a row and forward again returns the same row |
| BacktestingTeste.ExecutaAvanca | backtesting/backtesting_teste.py:99-170 | the state after row i is one loop body applied to the state before it |
| BacktestingTeste.LinhaPorPartes | backtesting/backtesting_teste.py:100-170 | the loop body is the day-counter update followed by the row's decision and its ledger call |
| BacktestingTeste.ExecutarLinha | backtesting/backtesting_teste.py:100-170 | the loop body, run on the ledger object, takes the replay state before row i to the state after it |
| BacktestingTeste.ExecutarBacktest | backtesting/backtesting_teste.py:85-173 | executar_backtest leaves a fresh ledger holding exactly the replayed ledger and returns the replayed final balance |
| BacktestingTeste.LinhaContaDia | backtesting/backtesting_teste.py:100-105 | the row's date becomes current_day; the counter restarts on a new date and goes up by one exactly on an entry, which needs fewer than ten that day (see also lines 145, 157 and 170) |
| BacktestingTeste.ExecutaMantemInv | backtesting/backtesting_teste.py:99-170 | after any number of rows the ledger satisfies its invariants, so update_on_loss never raises |
| BacktestingTeste.EntradasNoDiaAvanca | backtesting/backtesting_teste.py:145-170 | the entries on a date grow by one exactly at a row of that date that opens a trade |
| BacktestingTeste.PassoDiario | backtesting/backtesting_teste.py:100-105 | with the candles in time order, one row keeps the day counter equal to the entries on the current date, with no date above ten (see also line 145) |
| BacktestingTeste.PassoContadorDeHoje | backtesting/backtesting_teste.py:100-105 | one row keeps the counter equal to the entries of the current date (see also lines 157 and 170) |
| BacktestingTeste.PassoDiasLimitados | backtesting/backtesting_teste.py:94 | one row keeps every date at ten entries or fewer and later dates at none (see also line 145) |
| BacktestingTeste.ExecutaContaDia | backtesting/backtesting_teste.py:99-170 | after any number of rows in time order the day counter means what it should |
| BacktestingTeste.AteDezPorDia | backtesting/backtesting_teste.py:94 | with the candles in time order no calendar date gets more than ten entries (see also line 145) |
| BacktestingTeste.DecideIgnoraContagens | backtesting/backtesting_teste.py:111-113 | the counts and the trend flags computed each row never reach the decision |
| BacktestingTeste.LinhaIgnoraParametros | backtesting/backtesting_teste.py:85 | two parameter sets with the same start row and risco_retorno make the same row (see also lines 111-170) |
| BacktestingTeste.SoRiscoRetornoImporta | backtesting/backtesting_teste.py:85-173 | the replay depends on risco_retorno and the start row only: the EMA spans, risco_por_trade, rsi_min and rsi_max change nothing |
| BacktestingTeste.ComCada | backtesting/backtesting_teste.py:179-187 | the combinations hold exactly each value of the list in front of each of the remaining tuples |
| BacktestingTeste.ProdutoSignifica | backtesting/backtesting_teste.py:179-187 | a tuple is in the product if and only if it has one value per list, each from its own list |
| BacktestingTeste.ProdutoAridade | backtesting/backtesting_teste.py:179-187 | every tuple of the product has one value per list |
| BacktestingTeste.GradeValida | backtesting/backtesting_teste.py:180-186 | the grid has seven lists and every EMA span in it is at least 5 |
| BacktestingTeste.GradeSeteValores | backtesting/backtesting_teste.py:179-193 | every combination carries the seven values the call unpacks |
| BacktestingTeste.GradeAvaliada | backtesting/backtesting_teste.py:190-196 | on a grid of positive spans a combination is kept exactly when the fast EMA is shorter than the slow one and rsi_min is below rsi_max |
| BacktestingTeste.AvaliacoesSignificam | backtesting/backtesting_teste.py:188-196 | a result is kept exactly for each combination that passes the filter, paired with the final balance of its run |
| BacktestingTeste.AvaliarCombinacoes | backtesting/backtesting_teste.py:188-196 | the loop over the combinations builds exactly the list of kept results in order |
| BacktestingTeste.AvaliarCombinacao | backtesting/backtesting_teste.py:190-194 | a skipped combination adds nothing; a kept one adds itself and the final balance of its run |
| BacktestingTeste.OtimizarEstrategia | backtesting/backtesting_teste.py:178-196 | the optimiser's result list is the kept results over the product of the grid |
| BacktestingLwConducao.Ema200 | backtesting/backtesting_lw_conducao_compras_vendas.py:37 | the EMA 200 column has one value per row |
| BacktestingLwConducao.Ler | backtesting/backtesting_lw_conducao_compras_vendas.py:58-61 | the 25-row window's lowest low is at most the low of both the signal candle and the last candle, and its highest high at least their highs (see also lines 135-150) |
| BacktestingLwConducao.Decide | backtesting/backtesting_lw_conducao_compras_vendas.py:65-152 | a step opens a trade exactly when it leaves the out-of-market state, reports a result exactly when it closes one, and otherwise leaves the position as it was |
| BacktestingLwConducao.DecideSaidasCompra | backtesting/backtesting_lw_conducao_compras_vendas.py:65-85 | a long exits at the target first, then at the stop, then at a close below the EMA 200 as a gain above the entry or a loss below it; it stays open exactly when none applies or the close equals the entry |
| BacktestingLwConducao.DecideSaidasVenda | backtesting/backtesting_lw_conducao_compras_vendas.py:99-119 | the mirror image for a short, with the close above the EMA 200 |
| BacktestingLwConducao.DecideEntradas | backtesting/backtesting_lw_conducao_compras_vendas.py:133-152 | a long opens exactly when the signal candle closes above the EMAs 200, 5 and 15 and the last candle breaks its high; a short exactly under the mirrored tests |
| BacktestingLwConducao.DecideArma | backtesting/backtesting_lw_conducao_compras_vendas.py:138-151 | an entry is at the signal candle's extreme, the stop at the window's extreme, and the target 4.5 risks beyond the entry, so the position is ordered |
| BacktestingLwConducao.DecideOrdena | backtesting/backtesting_lw_conducao_compras_vendas.py:65-152 | a step keeps the stop, the entry and the target in order |
| BacktestingLwConducao.ExecutaOrdenada | backtesting/backtesting_lw_conducao_compras_vendas.py:57-152 | on well-formed candles every position the replay holds is ordered |
| BacktestingLwConducao.AnteriorDaProxima | backtesting/backtesting_lw_conducao_compras_vendas.py:57 | stepping to the next row and back returns the same row |
| BacktestingLwConducao.ExecutaAvanca | backtesting/backtesting_lw_conducao_compras_vendas.py:57-152 | the state after step i is one loop body applied to the state before it |
| BacktestingLwConducao.ExecutarLinha | backtesting/backtesting_lw_conducao_compras_vendas.py:58-152 | the loop body, run on the ledger object, leaves exactly the position and ledger that one replayed step gives from the ones it started with |
| BacktestingLwConducao.Linha | backtesting/backtesting_lw_conducao_compras_vendas.py:58-152 | one pass of the loop body; it has no contract of its own: ExecutarLinha is proved equal to it, LinhaMantemInv states it keeps the position well formed and LinhaContaEntrada that it counts each entry |
| BacktestingLwConducao.Executa | backtesting/backtesting_lw_conducao_compras_vendas.py:57-152 | the replay after the rows before k; it has no contract of its own: ExecutarBacktest is proved to end in it, ExecutaMantemInv and ExecutaContaAberturas state what it keeps |
| BacktestingLwConducao.ExecutarBacktest | backtesting/backtesting_lw_conducao_compras_vendas.py:37-154 | the script's loop leaves a fresh ledger holding exactly the replayed ledger |
| BacktestingLwConducao.LinhaMantemInv | backtesting/backtesting_lw_conducao_compras_vendas.py:63-152 | each step keeps the ledger's invariants, so update_on_loss never raises |
| BacktestingLwConducao.ExecutaMantemInv | backtesting/backtesting_lw_conducao_compras_vendas.py:57-152 | after any number of steps the ledger satisfies its invariants |
| BacktestingLwConducao.LinhaContaEntrada | backtesting/backtesting_lw_conducao_compras_vendas.py:142-152 | a step adds one to the open-trade counters exactly when it enters |
| BacktestingLwConducao.PassoContaAbertura | backtesting/backtesting_lw_conducao_compras_vendas.py:57-152 | one step keeps the open-trade counters equal to the entries so far |
| BacktestingLwConducao.ExecutaContaAberturas | backtesting/backtesting_lw_conducao_compras_vendas.py:57-152 | the open-trade counters add up to the number of entries |
| BacktestingLwConducao.ExecutaContaEntradas | backtesting/backtesting_lw_conducao_compras_vendas.py:57-154 | the summary's trade count is the number of entries |
| BacktestingLwConducao.JanelaLocal | backtesting/backtesting_lw_conducao_compras_vendas.py:140-150 | the stop window of step i is fixed by the rows before i |
| BacktestingLwConducao.LerLocal | backtesting/backtesting_lw_conducao_compras_vendas.py:58 | step i reads the rows before i only |
| BacktestingLwConducao.EmaLocal200 | backtesting/backtesting_lw_conducao_compras_vendas.py:37 | the EMA 200 at rows i - 1 and i - 2 depends on the rows before i only (see also lines 77 and 135) |
| BacktestingLwConducao.ExecutaLocal | backtesting/backtesting_lw_conducao_compras_vendas.py:57-152 | the state after the steps before k is fixed by the rows before k - 1: the replay never looks ahead |
| BacktestingLwEngolfo.Engolfos | backtesting/backtesting_lw_engolfo.py:35 | the engolfo_alta column has one flag per row |
| BacktestingLwEngolfo.Ler | backtesting/backtesting_lw_engolfo.py:56-92 | the 50-row window's lowest low is at most the low of the signal candle and of the last candle |
| BacktestingLwEngolfo.LerLeColuna | backtesting/backtesting_lw_engolfo.py:35 | the flag a step reads is the engolfo_alta column at the signal row (see also line 78) |
| BacktestingLwEngolfo.LerComColuna | backtesting/backtesting_lw_engolfo.py:56-78 | reading the flag from the precomputed column gives the same reading |
| BacktestingLwEngolfo.Decide | backtesting/backtesting_lw_engolfo.py:63-97 | a step opens a trade exactly when it leaves the out-of-market state, reports a result exactly when it closes a long, and otherwise leaves the position as it was |
| BacktestingLwEngolfo.DecideSaidas | backtesting/backtesting_lw_engolfo.py:63-73 | a long exits at the target before the stop is looked at, and stays open exactly while the last candle touches neither |
| BacktestingLwEngolfo.DecideEntrada | backtesting/backtesting_lw_engolfo.py:76-97 | a long opens exactly when the signal candle is a bullish engulfing or closes above both EMAs and the last candle breaks its high, at that high with the stop at the window's low and the target 4.5 risks above; a short never opens |
| BacktestingLwEngolfo.DecideArma | backtesting/backtesting_lw_engolfo.py:86-94 | a step keeps the stop, the entry and the target in order |
| BacktestingLwEngolfo.ExecutaSoCompra | backtesting/backtesting_lw_engolfo.py:55-97 | the replay never holds a short |
| BacktestingLwEngolfo.ExecutaOrdenada | backtesting/backtesting_lw_engolfo.py:55-97 | on well-formed candles every position the replay holds is ordered |
| BacktestingLwEngolfo.AnteriorDaProxima | backtesting/backtesting_lw_engolfo.py:55 | stepping to the next row and back returns the same row |
| BacktestingLwEngolfo.ExecutaAvanca | backtesting/backtesting_lw_engolfo.py:55-97 | the state after step i is one loop body applied to the state before it |
| BacktestingLwEngolfo.ExecutarLinha | backtesting/backtesting_lw_engolfo.py:56-97 | the loop body, run on the ledger object, takes the replay state before step i to the state after it |
| BacktestingLwEngolfo.Linha | backtesting/backtesting_lw_engolfo.py:56-97 | one pass of the loop body; it has no contract of its own: ExecutarLinha is proved equal to it, LinhaMantemInv states it keeps the position well formed and LinhaContaEntrada that it counts each entry |
| BacktestingLwEngolfo.Executa | backtesting/backtesting_lw_engolfo.py:55-97 | the replay after the rows before k; it has no contract of its own: ExecutarBacktest is proved to end in it, and ExecutaSoCompra, ExecutaMantemInv and ExecutaContaAberturas state what it keeps |
| BacktestingLwEngolfo.ExecutarBacktest | backtesting/backtesting_lw_engolfo.py:35-99 | the script's loop leaves a fresh ledger holding exactly the replayed ledger |
| BacktestingLwEngolfo.LinhaMantemInv | backtesting/backtesting_lw_engolfo.py:61-97 | each step keeps the ledger's invariants, so update_on_loss never raises |
| BacktestingLwEngolfo.ExecutaMantemInv | backtesting/backtesting_lw_engolfo.py:55-97 | after any number of steps the ledger satisfies its invariants |
| BacktestingLwEngolfo.LinhaContaEntrada | backtesting/backtesting_lw_engolfo.py:97 | a step adds one to the open-trade counters exactly when it enters |
| BacktestingLwEngolfo.PassoContaAbertura | backtesting/backtesting_lw_engolfo.py:55-97 | one step keeps the open-trade counters equal to the entries so far |
| BacktestingLwEngolfo.ExecutaContaAberturas | backtesting/backtesting_lw_engolfo.py:55-97 | the open-trade counters add up to the number of entries |
| BacktestingLwEngolfo.ExecutaContaEntradas | backtesting/backtesting_lw_engolfo.py:55-99 | the summary's trade count is the number of entries |
| BacktestingLwEngolfo.JanelaLocal | backtesting/backtesting_lw_engolfo.py:92 | the stop window of step i is fixed by the rows before i |
| BacktestingLwEngolfo.LerLocal | backtesting/backtesting_lw_engolfo.py:56 | step i reads the rows before i only |
| BacktestingLwEngolfo.ExecutaLocal | backtesting/backtesting_lw_engolfo.py:55-97 | the state after the steps before k is fixed by the rows before k - 1: the replay never looks ahead |
| MercadoCripto.ColetarDadosMercado | backtesting/ML.py:71-99 | an error answer gives the empty list; otherwise the rows are the USDT tickers whose fields all parse, in ticker order |
| MercadoCripto.Converte | backtesting/ML.py:81-89 | a row is built exactly when all six numeric fields parse, and it keeps the symbol and the USDT turnover and gives the 24 h change in per cent |
| MercadoCripto.Filtra | backtesting/ML.py:78-92 | the rows the loop appends; it has no contract of its own: FiltraSignifica states which tickers give a row |
| MercadoCripto.FiltraSignifica | backtesting/ML.py:78-92 | every row comes from a USDT ticker that converts to it, every USDT ticker that converts gives a row, and there are never more rows than tickers |
| MercadoCripto.VolumesUsdt | backtesting/ML.py:106 | the volume column holds, row by row, each row's USDT volume |
| MercadoCripto.Posicao70 | backtesting/ML.py:106 | the quantile's position lies inside the list |
| MercadoCripto.Fracao70 | backtesting/ML.py:106 | the interpolation weight lies in [0, 1) |
| MercadoCripto.Interpola | backtesting/ML.py:106 | linear interpolation with a weight in [0, 1] lands between its two ends |
| MercadoCripto.Quantil70 | backtesting/ML.py:106 | quantile(0.7); it has no contract of its own: Quantil70Entre states that it lies between two of the volumes |
| MercadoCripto.Interpola70 | backtesting/ML.py:106 | the interpolation on sorted values; it has no contract of its own: Interpola70NaOrdem states where it lies |
| MercadoCripto.FracaoEntre | backtesting/ML.py:106 | a fraction in [0, 1] of a non-negative span lies between 0 and the span |
| MercadoCripto.Quantil70Entre | backtesting/ML.py:106-107 | some volume is at least the 70 % quantile and some is at most it, so the volume filter keeps at least one row |
| MercadoCripto.Interpola70NaOrdem | backtesting/ML.py:106 | in sorted volumes the quantile lies between the value at its position and the largest value |
| MercadoCripto.ComVolumeSignifica | backtesting/ML.py:107 | a row is kept exactly when it is in the data and its USDT volume reaches the minimum |
| MercadoCripto.ComVolume | backtesting/ML.py:107 | the volume filter; it has no contract of its own: ComVolumeSignifica states which rows it keeps |
| MercadoCripto.TopMovers | backtesting/ML.py:101-117 | the three lists exist exactly when there is market data (an empty frame has no volume column) |
| MercadoCripto.TopMoversFiltro | backtesting/ML.py:101-117 | with market data there are between 1 and 10 gainers and losers, all of them passing the volume filter, and min(n, 10) rows by volume |
| MercadoCripto.TopGainersOrdem | backtesting/ML.py:109 | the gainers come in descending order of change and no filtered row left out rose more than the last gainer |
| MercadoCripto.TopLosersOrdem | backtesting/ML.py:110 | the losers come in ascending order of change and no filtered row left out fell more than the last loser |
| MercadoCripto.TopVolumeOrdem | backtesting/ML.py:111 | the volume list comes in descending USDT volume over all rows and no row left out traded more than its last row |
| MercadoCripto.EncontrarExtremos | backtesting/ML.py:161-173 | each scan builds the list of strict local peaks (troughs) over two neighbours on each side, in index order |
| MercadoCripto.Extremos | backtesting/ML.py:161-173 | the levels the scan appends; it has no contract of its own: ExtremosSignificam states which they are |
| MercadoCripto.Proximo | backtesting/ML.py:185 | the 2 % test against the group's last level; it has no contract of its own: CoesoAnexa and SeparadosAnexa state what it gives the groups |
| MercadoCripto.ExtremosSignificam | backtesting/ML.py:163-173 | a level is found exactly when some index in range(2, len - 2) is a strict peak (trough) with that value; there are at most len - 4 of them |
| MercadoCripto.Agrupa | backtesting/ML.py:181-190 | the current group is never empty, every closed group is non-empty, and there are fewer closed groups than levels read |
| MercadoCripto.Grupos | backtesting/ML.py:176-192 | every group is non-empty, there are at most as many groups as levels, and none exactly when there are no levels |
| MercadoCripto.Medias | backtesting/ML.py:188-191 | there is one mean per group |
| MercadoCripto.AgrupaNiveis | backtesting/ML.py:176-192 | group_levels returns at most as many levels as it got, and none exactly when it got none |
| MercadoCripto.MediasAnexa | backtesting/ML.py:188-191 | closing one more group appends its mean |
| MercadoCripto.AgruparNiveis | backtesting/ML.py:176-192 | the sort and the grouping pass compute group_levels |
| MercadoCripto.AgrupaAchata | backtesting/ML.py:182-189 | the closed groups and the current one, laid end to end, are the sorted levels read so far |
| MercadoCripto.CoesoAnexa | backtesting/ML.py:185-186 | appending a level within 2 % of a group's last one keeps the group cohesive |
| MercadoCripto.AgrupaCoeso | backtesting/ML.py:184-189 | within every group consecutive levels are within 2 % of each other |
| MercadoCripto.SeparadosAnexa | backtesting/ML.py:187-189 | starting a group more than 2 % from the last one keeps the groups separated |
| MercadoCripto.SeparadosEstende | backtesting/ML.py:185-186 | extending the last group keeps the groups separated |
| MercadoCripto.AgrupaSepara | backtesting/ML.py:184-189 | each group starts more than 2 % away from the last level of the group before it |
| MercadoCripto.GruposParticionam | backtesting/ML.py:176-192 | the groups partition the sorted levels into runs within 2 % step by step, separated by gaps above 2 % |
| MercadoCripto.OrdenadaAnexa | backtesting/ML.py:188 | appending a value at least as large as every other keeps a list ascending |
| MercadoCripto.EntreAnexa | backtesting/ML.py:186 | appending a level at least the group's largest keeps every level between the group's first and the new one |
| MercadoCripto.AgrupaMediasCrescem | backtesting/ML.py:180-191 | on sorted levels the closed means ascend and each lies at or below the current group, whose levels lie between its first one and the last level read |
| MercadoCripto.FechaGrupoCresce | backtesting/ML.py:188 | closing a group keeps the means ascending and all of them at most any later level |
| MercadoCripto.AgrupaNiveisOrdenada | backtesting/ML.py:176-192 | group_levels returns its levels in ascending order |
| MercadoCripto.Lado | backtesting/ML.py:201-202 | the filtered list holds exactly the levels strictly above (below) the price |
| MercadoCripto.Acima | backtesting/ML.py:201 | at most three levels are kept above the price |
| MercadoCripto.Abaixo | backtesting/ML.py:202 | at most three levels are kept below the price |
| MercadoCripto.Resistencias | backtesting/ML.py:161-195 | the grouped peaks; it has no contract of its own: ResistenciasAcima states which of them are kept |
| MercadoCripto.Suportes | backtesting/ML.py:168-196 | the grouped troughs; it has no contract of its own: SuportesAbaixo states which of them are kept |
| MercadoCripto.SuporteResistencia | backtesting/ML.py:152-207 | an empty frame has no levels, and each side keeps at most three |
| MercadoCripto.EncontrarSuporteResistencia | backtesting/ML.py:152-207 | the scans, the groupings, the filters and the sorts compute find_support_resistance |
| MercadoCripto.SemVelasSemNiveis | backtesting/ML.py:154-155 | an empty frame has no support and no resistance |
| MercadoCripto.AcimaMaisProximos | backtesting/ML.py:201 | at most three levels above the price are kept, in ascending order |
| MercadoCripto.AcimaNaoPula | backtesting/ML.py:201 | no level above the price that was left out is nearer to it than the last one kept |
| MercadoCripto.AbaixoMaisProximos | backtesting/ML.py:202 | at most three levels below the price are kept, in descending order |
| MercadoCripto.AbaixoNaoPula | backtesting/ML.py:202 | no level below the price that was left out is nearer to it than the last one kept |
| MercadoCripto.ResistenciasAcima | backtesting/ML.py:195-205 | the resistances are at most three grouped peaks above the last close, nearest first |
| MercadoCripto.SuportesAbaixo | backtesting/ML.py:196-206 | the supports are at most three grouped troughs below the last close, nearest first |
| AnaliseQuantitativa.Tendencia_ | backtesting/quantitative_analyzer.py:165-179 | the trend is bullish exactly when the fast EMA is above the slow one; its strength is non-negative and zero exactly when the EMAs are equal; the two flags say whether the price is above each EMA |
| AnaliseQuantitativa.UltimaEMedia | backtesting/quantitative_analyzer.py:196-208 | the current value is the column's last one and the average lies between the smallest and the largest of its last 20 values |
| AnaliseQuantitativa.MediaEntreExtremos | backtesting/quantitative_analyzer.py:197-208 | a mean lies between the smallest and the largest value |
| AnaliseQuantitativa.AnaliseTecnica | backtesting/quantitative_analyzer.py:159-216 | the analysis fails exactly when a feature column is present but empty; otherwise the trend entry is there exactly with two EMA columns, the volume and volatility entries exactly with their feature columns |
| AnaliseQuantitativa.FlagsSignificam | backtesting/quantitative_analyzer.py:172 | the trend is bullish exactly when the fast EMA is above the slow one, a volume spike is a last ratio above 1.5 times its average and a HIGH regime a last ATR ratio above 1.2 times its average (see also lines 196-202 and 207-213) |
| AnaliseQuantitativa.Minimo | backtesting/quantitative_analyzer.py:230 | min returns one of its arguments, at most both |
| AnaliseQuantitativa.PontuacaoMl | backtesting/quantitative_analyzer.py:225-230 | the ML score never exceeds 100 and is non-negative unless the accuracy is negative |
| AnaliseQuantitativa.PontuacaoMlSemDados | backtesting/quantitative_analyzer.py:226-229 | with no performance figures the ML score is 25 |
| AnaliseQuantitativa.PontuacaoMlEscala | backtesting/quantitative_analyzer.py:229 | a negative r2 leaves only the accuracy times 50; an r2 and an accuracy in [0, 1] score their sum times 50 |
| AnaliseQuantitativa.PontuacaoTecnica | backtesting/quantitative_analyzer.py:233-246 | the technical score never exceeds 100 |
| AnaliseQuantitativa.PontuacaoTecnicaEntre | backtesting/quantitative_analyzer.py:233-246 | the technical score lies between 50 and 80, and is exactly 50 with no trend and no volume spike |
| AnaliseQuantitativa.Pontua | backtesting/quantitative_analyzer.py:218-252 | the scores hold the ML and technical scores, and the overall score lies between the two and never above 92 |
| AnaliseQuantitativa.Recomenda | backtesting/quantitative_analyzer.py:254-275 | the recommendation carries the overall score |
| AnaliseQuantitativa.RecomendaSignifica | backtesting/quantitative_analyzer.py:257-268 | HOLD and LOW exactly below 50, HIGH and a STRONG action exactly from 70, MEDIUM in between; a buy exactly from 50 with an UP prediction, a sell from 50 with any other or no prediction |
| AnaliseQuantitativa.ForteExigeMl | backtesting/quantitative_analyzer.py:249-262 | a HIGH-confidence recommendation needs an ML score of at least 530/9 |
| AnaliseQuantitativa.Relata | backtesting/quantitative_analyzer.py:90-141 | a report needs at least 24 closes; its scores are computed from the model performance and its technical analysis, and its recommendation from those scores and the predicted direction |
| AnaliseQuantitativa.AnalisaSignifica | backtesting/quantitative_analyzer.py:27-88 | analyze_symbol gives the entry exactly when the data loads and the report does not raise, and otherwise an error whose message starts with "Erro na análise de" and the symbol |
| AnaliseQuantitativa.Analisa | backtesting/quantitative_analyzer.py:27-88 | what analyze_symbol returns; its properties are stated by AnalisaSignifica |
| AnaliseQuantitativa.AnalisaTodos | backtesting/quantitative_analyzer.py:321-326 | the loop appends one result per symbol |
| AnaliseQuantitativa.SemErro | backtesting/quantitative_analyzer.py:329 | the valid results are exactly the results without an error, in order |
| AnaliseQuantitativa.RankingSignifica | backtesting/quantitative_analyzer.py:329-332 | the ranking is a permutation of the valid results, holds no error and goes by overall score from the highest down |
| AnaliseQuantitativa.Ranking | backtesting/quantitative_analyzer.py:329-332 | the ranking holds no more entries than there are results (RankingSignifica states its order and contents) |
| AnaliseQuantitativa.QuantitativeAnalyzer.constructor | backtesting/quantitative_analyzer.py:21-25 | the analysis history starts empty |
| AnaliseQuantitativa.QuantitativeAnalyzer.AnalyzeSymbol | backtesting/quantitative_analyzer.py:27-88 | returns the analysis of the symbol and appends it to the history exactly when it has no error |
| AnaliseQuantitativa.QuantitativeAnalyzer.AnalyzeEach | backtesting/quantitative_analyzer.py:321-326 | returns one result per symbol in order and appends to the history the entries of the successful ones |
| AnaliseQuantitativa.QuantitativeAnalyzer.AnalyzeMultipleSymbols | backtesting/quantitative_analyzer.py:316-344 | returns every per-symbol result in symbol order, failures included, and appends the successful analyses to the history; the lines it prints are the first ten (or all, when fewer) of the ranking |
| AnaliseQuantitativa.Registros | backtesting/quantitative_analyzer.py:70-78 | one history entry per result, each the entry of its analysis |
| AnaliseQuantitativa.Historico | backtesting/quantitative_analyzer.py:70-78 | the history entries a list of analyses adds; it has no contract of its own: HistoricoAnexa states that one more result adds its entry exactly when it is not an error |
| AnaliseQuantitativa.HistoricoAnexa | backtesting/quantitative_analyzer.py:78 | one more result adds its entry to the history exactly when it has no error (see also line 325) |
| AnaliseQuantitativa.SemErroAnexa | backtesting/quantitative_analyzer.py:329 | one more result joins the valid ones exactly when it has no error |
| AnaliseQuantitativa.RegistrosAnexa | backtesting/quantitative_analyzer.py:78 | the entries of the valid results grow with each valid result |
| PreditorMl.IndiceDivisao | backtesting/ml_predictor.py:76 | the split index is the floor of 4n/5, never above n |
| PreditorMl.Divide | backtesting/ml_predictor.py:76-80 | the training part holds exactly the split index's number of rows |
| PreditorMl.DivideParticiona | backtesting/ml_predictor.py:75-80 | the training rows followed by the test rows give back the data in order, and the test part is at most a quarter of the training part plus one row |
| PreditorMl.TreinoDe | backtesting/ml_predictor.py:94-125 | an attempt leaves a trained entry, with its mean CV score, exactly when every step succeeded; any exception leaves an error entry |
| PreditorMl.Treina | backtesting/ml_predictor.py:89-127 | training_results holds one entry per model, in the models' order, each the outcome of that model's attempt |
| PreditorMl.Ajustados | backtesting/ml_predictor.py:94-99 | a model ends up fitted exactly when its attempt got past model.fit |
| PreditorMl.MLPredictor.TrainModels | backtesting/ml_predictor.py:86-127 | train_models returns training_results for the models in order and adds every model whose attempt got past model.fit to the fitted ones, leaving the models and the prediction history alone |
| PreditorMl.Bons | backtesting/ml_predictor.py:178-180 | there are never more good models than training entries |
| PreditorMl.BonsSignifica | backtesting/ml_predictor.py:178-180 | a model is good exactly when it trained and its mean CV score is above 0 |
| PreditorMl.Ensemble | backtesting/ml_predictor.py:175-189 | no ensemble exactly when fewer than two models are good; otherwise the ensemble is made of the good models |
| PreditorMl.Avalia | backtesting/ml_predictor.py:129-173 | there are never more evaluations than training entries |
| PreditorMl.AvaliaSoTreinados | backtesting/ml_predictor.py:135-163 | every evaluation belongs to a model that trained with that CV score and whose metrics were computed, and carries those metrics |
| PreditorMl.AvaliaTodosTreinados | backtesting/ml_predictor.py:135-163 | every model that trained and whose metrics were computed is evaluated |
| PreditorMl.Melhor | backtesting/ml_predictor.py:191-199 | there is no best model exactly when there are no evaluations, and the best one is one of them |
| PreditorMl.MelhorSignifica | backtesting/ml_predictor.py:196-197 | the best model has the largest r2 of all and every entry before it a strictly smaller one, so ties go to the first |
| PreditorMl.MelhorMaximo | backtesting/ml_predictor.py:196-197 | no evaluation has a larger r2 than the best one |
| PreditorMl.MelhorPrimeiro | backtesting/ml_predictor.py:196-197 | every entry before the best one has a strictly smaller r2 |
| PreditorMl.IndiceDoMelhor | backtesting/ml_predictor.py:196-197 | the best entry sits at a position before which every r2 is strictly smaller |
| PreditorMl.ConverteSignifica | backtesting/ml_predictor.py:221-235 | the direction is UP exactly for a positive predicted return and DOWN otherwise; the confidence lies in [0, 100] and is 100 exactly for a move of at least 100 %; at a positive price the predicted price is above it exactly for UP, and moves by price times the return |
| PreditorMl.Converte | backtesting/ml_predictor.py:222-236 | the prediction keeps the current price, the return and the model name; ConverteSignifica states the direction, confidence and price |
| PreditorMl.ConfiancaCresce | backtesting/ml_predictor.py:226-233 | a larger predicted move never gives a smaller confidence |
| PreditorMl.Preve | backtesting/ml_predictor.py:201-239 | predict_next_prices raises exactly when the model is not registered (ValueError) or the features are there but the model was never fitted (NotFittedError); it gives the error dictionary exactly when the features are missing; otherwise the prediction is the conversion of the predicted return at the last close |
| PreditorMl.MLPredictor.constructor | backtesting/ml_predictor.py:26-61 | the six regressors are registered, none of them is fitted, and the prediction history starts empty |
| PreditorMl.MLPredictor.PredictNextPrices | backtesting/ml_predictor.py:201-239 | returns Preve for the registered and fitted models, leaves both alone, and appends the prediction to the history exactly when one is made |
| PreditorMl.PadraoRegistrado | backtesting/ml_predictor.py:26-61 | before any training every registered model, the default included, raises NotFittedError whenever the features are there; after one training run the default model succeeds exactly when its attempt got past model.fit (see also lines 201-218) |
| CarregadorDados.NomeArquivo | backtesting/data_loader.py:6 | the file name starts with the symbol and ends in .json |
| CarregadorDados.Junta | backtesting/data_loader.py:7 | os.path.join: an absolute second part replaces the first; otherwise the result starts with the folder and ends with the name, with one separator added when the folder does not end in one |
| CarregadorDados.CaminhoNaPasta | backtesting/data_loader.py:4-7 | the path ends with the file name and in .json, and starts with the folder unless the symbol itself starts with '/', when it is the bare file name |
| CarregadorDados.CaminhoVelas | backtesting/data_loader.py:4-7 | the path obter_caminho_velas returns; it has no contract of its own: CaminhoNaPasta states its shape |
| CarregadorDados.ObtemCaminho | backtesting/data_loader.py:4-7 | fails exactly on an empty folder name or a file of that name; otherwise the folder (without trailing separators) exists afterwards, no file changes, an existing folder leaves the disk as it was, and the path is the join of folder and file name |
| CarregadorDados.SalvaCarrega | backtesting/data_loader.py:9-17 | saving and then loading the same path gives the saved candles back, every other path loads as before, and no path becomes both a file and a folder |
| CarregadorDados.Carrega | backtesting/data_loader.py:9-13 | the candles come back exactly when a file exists at the path; nothing (None) exactly when nothing exists there; a folder fails |
| CarregadorDados.Salva | backtesting/data_loader.py:15-17 | saving fails exactly when the path is empty, is a folder or its parent folder does not exist; otherwise the folders stay and the files gain the path |
| CarregadorDados.CarregaSalvaFalham | backtesting/data_loader.py:9-17 | saving fails exactly on the empty path, on a folder or on a path whose folder does not exist (open raises); loading gives None exactly when nothing exists at the path and fails exactly on a folder |
| CarregadorDados.CaminhoSalvaCarrega | backtesting/data_loader.py:4-17 | for a file name without separators, the path obter_caminho_velas returns lies in the folder it has just created, so it can be saved to and loaded back, unless the path is itself a folder |
| CarregadorDados.DirnameNaPasta | backtesting/data_loader.py:7 | joining a folder and a name without separators gives a path whose dirname is the folder, without trailing separators (see also line 16) |
| CarregadorDados.Disco.constructor | backtesting/data_loader.py:1-2 | the disk starts in the given state |
| CarregadorDados.Disco.ObterCaminhoVelas | backtesting/data_loader.py:4-7 | returns the path and creates the folder when obter_caminho_velas succeeds, and fails leaving the disk unchanged otherwise |
| CarregadorDados.Disco.CarregarVelasJson | backtesting/data_loader.py:9-13 | returns what loading the path from the current disk gives |
| CarregadorDados.Disco.SalvarVelasJson | backtesting/data_loader.py:15-17 | writes the candles to the path, or fails on the empty path, on a folder or inside a missing folder leaving the disk unchanged |

## Left out

- Exchange I/O is not modelled. This covers `get_kline`, `get_positions`, `place_order`, `set_trading_stop`, the wallet balance, instrument info, the order book, the order history, `time.sleep` polling, startup retries and the self-restart of `main()`. Each answer is a per-cycle parameter of the bot's cycle sequence, with `Err` for a call that raised; the clock is a parameter too.
- Logging, `print`, charts, PDF reports, e-mail, `schedule`, Excel export (`save_summarized_results_to_xlsx`) and the web frontend are output only and are left out.
- Floating-point rounding is left out: arithmetic is on `real`. NaN is modelled as `None` and an infinite value as `None`. Where Python would compare an infinite value, the outcome of that comparison flips. DemoStrategyMain.MomentumAt gives None when the close 10 rows back is 0 and the current close is not, and the demo score then gives no buy momentum point, where Python's `inf > 100` gives one. DemoStrategyMain.VwapAt gives None only when the window's volumes sum to -0.001 (the denominator adds 0.001), and the score then gives no VWAP point, where Python's comparison with an infinite VWAP gives one of the two. Tie-breaking inside pandas `quantile` and `nlargest` is only as modelled.
- Several scripts import helpers that the repository does not define, so as written they raise ImportError when loaded:
  - `live_trading_PEPEUSDT.py`, `live_trading_XRP.py`, `live_trading_XRP_ML.py` and `live_trading_scalp_BTCUSDT.py` import `abre_parcial_compra`, `abre_parcial_venda`, `stop_breakeven_compra` and `stop_breakeven_venda` from `funcoes_bybit.py`;
  - `live_trading_scalp_SOLANA_TESTE.py` imports `reduzir_posicao` from `funcoes_bybit.py`;
  - the two Larry-Williams scripts import `carregar_dados_historicos` from `funcoes_bybit.py` and `calcula_percentual_*` from `utilidades.py` (`backtesting_lw_conducao_compras_vendas.py` also `ajusta_start_time`);
  - `daily_spot_buy.py` and `daily_spot_try.py` import `enviar_relatorio_por_email` from `utilidades.py`.
  The model describes what each script does once those names resolve: the missing helpers' answers are per-cycle parameters, and their effect on the exchange is not modelled.
- The Larry-Williams scripts leave out several things:
  - `calcula_percentual_*`, `carregar_dados_historicos` and `ajusta_start_time` are not defined in the repository, so the percentages are function parameters and the EMA 5/15 columns come with each row.
  - As written, `ResultsManager` is called with eight arguments, which would raise a TypeError. The model builds it from balance, fee, setup and leverage.
  - Their RSI column is never read, so it is not modelled.
- Backtesting.Decide: `tamanho_posicao` is only printed, so it is not modelled. When the stop equals the entry, the script divides by zero; that case is not modelled.
- BacktestingTeste.AvaliarCombinacoes: `round(final, 2)` is not modelled, so the unrounded balance is kept. Printing and sorting the top ten are left out, and so are `buscar_dados_historicos` and its paging.
- `daily_spot_buy.py` cannot be imported as written (see above). Beyond that, its daily report call passes one argument to the three-argument `gerar_relatorio_pdf`, which raises a TypeError, so the model of the script sends no report.
- Utilidades.QuantidadeCriptoParaOperar: the `Decimal.quantize` to the lot step is modelled as an exact multiple of the step.
- The demo strategy leaves out several things:
  - The balance report every ten cycles is logging only.
  - CCI (a rolling standard deviation, a square root) is a per-cycle input.
  - The `saldo_inicial` check is left out.
  - `round` on binary floats is modelled as exact decimal rounding, half to even.
- LiveTradingIa.CorrigidoOpera: the live `busca_velas` has no ATR column, so the corrected model uses the commented-out version. That version has one EMA per span, and its ATR is the 14-row mean of high minus low.
- ADX, CCI, VWAP, Williams %R and Momentum of the last row are per-cycle inputs of the XRP and XRP_ML bots. Only the rolling RSI and the EMAs are computed.
- Backtesting.ExecutarBacktest and BacktestingTeste.ExecutarBacktest require positive lows and highs (ReplayComum.Positivos). An entry price of 0 would raise ZeroDivisionError in the percentage computation of `backtesting.py` and `backtesting_teste.py`; exchange prices are positive, so that error path is not modelled. The two Larry-Williams replays take their percentages as parameters and need no such requirement.
- The PEPE bot computes an ADX column (`calcular_adx`) that nothing reads, and its `adx_forte` threshold is never used; both are left out.
- MercadoCripto: `get_historical_data` is left out; the candle table is an input.
- AnaliseQuantitativa:
  - The analyzer requires positive closes.
  - The support/resistance distances, the `price_stats` fields other than the 24-row minimum, the feature-correlation analysis and `_print_analysis_summary` are left out.
  - Skipping NaN rows is not modelled.
- PreditorMl:
  - Fitting, cross-validation, metrics and `predict` of the scikit-learn models are inputs; of the fit, only whether it happened is kept.
  - The scalers' values, `feature_importance` and `run_complete_analysis` are left out.
  - `int(n * 0.8)` is modelled as the floor of 4n/5.
- CarregadorDados: the JSON encoding is not modelled, so values are their `str()` text. `os.makedirs` creating the intermediate folders and the permission checks are not modelled. Paths are compared as written apart from a folder's trailing separators: `.`, `..` and doubled separators inside a path are not normalised.
- Threads and concurrency are not modelled; each bot is a single sequential loop.
- `feature_engineering.py`, `chart_predictor.py`, `main_ml_analysis.py`, `test_ml_system.py` and the frontend are not part of this model.

## Findings

| source | as written | input that shows it | evidently intended | confidence | as-written member | corrected member |
|---|---|---|---|---|---|---|
| backtesting/live_trading_ia.py:100 | `busca_velas` is called with the span list `[50]` and then reads `emas[1]`, which raises IndexError on every pass, so the bot never trades | any kline answer | one EMA column per span, including the second one the entry test reads | high, not executed | LiveTradingIa.ComoEscritoNuncaAge | LiveTradingIa.CorrigidoOpera |
| backtesting/live_trading_XRP_ML.py:182-196 | the reversal flags need a red run of at least five counted back from the last candle and a green last candle, which cannot both hold | any candle table | the run of five before the last candle, then a last candle of the other colour | high, not executed | LiveTradingXrpMl.ReversaoComoEscritaNunca | LiveTradingXrpMl.ReversaoAltaCorrigida |
| backtesting/backtesting.py:66-78 | `contar_candles_consecutivos` resets its counters when the direction flips and keeps scanning, so it reports the oldest run in the window | closes 1, 2 (nine times), 0, 2 against an EMA of 1 at index 12 give 9 rows above instead of 1 | count the run that ends at the previous row | high, not executed | Backtesting.ContagemComoEscritaDescreveOInicio | Backtesting.SeguidasAcimaSignifica |
| backtesting/backtesting_teste.py:66-70 | `fillna(100)` is applied to `100 / (1 + rs)`, so a window with no losses gives an RSI of 0 (oversold) | fourteen rising closes 1 to 14, at row 13 | an RSI of 100 when the window has no losses | high, not executed | BacktestingTeste.RsiComoEscritoNaSubida | Backtesting.ComputeRsi |
