# Trade bucket aggregator and large-trade classifiers

This project models the core of a Binance trade streamer. Each trade is
decoded from the feed, and its USD size (price × quantity) is added to a bucket
keyed by (display symbol, trade-time second, buyer-is-maker flag). Once a
second the whole table is drained. Each bucket's total is classified against a
threshold table, a line is printed for each bucket that meets it, and every
key is deleted. Two variants share this table and differ only in their
classifier:

- `recent_trades.py` alerts from $15,000, with tiers at $50,000, $100,000 and
  $500,000, all compared with `>=`.
- `huge_trades.py` alerts strictly above $500,000, blinks strictly above
  $3,000,000, and shows the amount in millions.

A third, older variant (`recent_trades_old.py`) has no buckets. It applies the
`recent_trades.py` tiers to each single trade, and it appends the CSV record
only for trades that pass the $15,000 filter.

Modules:

- `Trades` (trades.dfy): the bucket key, the alert record, the printed line,
  the star run, and a reference definition `Level` of a threshold table. `Level`
  counts the rows a total meets; on an ordered table that count is the highest
  tier met. Both bucket classifiers are proved to be this table read off.
- `Aggregation` (aggregation.dfy): the `TradeAggregator` class with its
  `buckets: map<Key, real>`. It has `AddTrade`, and `CheckAndPrintTrades`,
  which takes the classifier as a parameter. The first loop visits every key in
  an unspecified order (`:|`), leaves the table untouched, and collects every
  key into a deletion list. The second loop deletes the listed keys, and the
  model proves that each `del` finds its key.
- `RecentTrades`, `HugeTrades`: the two bucket classifiers, their lemmas, and
  the drain of each file stated in that file's thresholds.
- `RecentTradesOld` (recent_trades_old.py): the per-trade block as a pure
  function, and its equivalence with the bucket classifier of recent_trades.py.
- `Symbols`: the display symbol `symbol.upper().replace('USDT', '')`.
- `Scenarios`: client methods that drive the aggregator only through its
  contracts and get exact printed lines.

Amounts are `real`, so all sums and the division by 1,000,000 are exact. The
drain's output is a sequence of `Line` values in whatever order the loop
chose. Its contract is stated through multiset counts, so it claims nothing
about order. The source's TradeAggregator class is duplicated verbatim in
recent_trades.py:19-57 and huge_trades.py:19-45 (apart from the classification
lines). `Aggregation.TradeAggregator` models both copies, and each file's
classifier is passed to the drain.

The table has no lock. The code is single-threaded asyncio, and neither method
awaits in the middle of an update, so the model is sequential.
recent_trades_old.py writes the CSV record only inside the `>= 15000` branch.
huge_trades.py compares with a strict `>`, so `Threshold` has both forms
(`AtLeast`, `Above`).

## Model

| member | source | states |
|---|---|---|
| `Trades.Stars` | recent_trades.py:39 | `'*' * n` is a string of exactly n stars |
| `Trades.Level` | recent_trades.py:32-47 | the tier a total reaches in a threshold table never exceeds the number of tiers |
| `Trades.LevelIsHighestTier` | recent_trades.py:38-46 | on an ordered table, every tier below the level is met and none from it on, so the level is the highest tier met (the elif chain) |
| `Trades.LevelMonotone` | recent_trades.py:32-46 | the tier reached is non-decreasing in the total, for any table |
| `Aggregation.Added` | recent_trades.py:23-25 | after one trade, the key's bucket is its old total (0 if absent) plus the amount; the key set grows by that key only; every other bucket keeps its total |
| `Aggregation.AddedAllSums` | recent_trades.py:25 | n trades on one key with no drain in between leave that bucket at its old total plus a1+…+an; every other key keeps its presence and total |
| `Aggregation.PrintRepeated` | recent_trades.py:51-52 | the `range(repeat_count)` loop prints only the given line, exactly repeat-count times |
| `Aggregation.PrintBuckets` | recent_trades.py:28-54 | the iteration loop prints, for each bucket whose classification alerts, exactly repeat-count copies of that bucket's line and no line for any other bucket; nothing is printed when no bucket alerts; it appends every key once to the deletion list, whatever its total |
| `Aggregation.TradeAggregator.constructor` | recent_trades.py:20-21 | a new aggregator has an empty table |
| `Aggregation.TradeAggregator.AddTrade` | recent_trades.py:23-25 | the new table is the old one with the trade added to its key (create-if-absent); other keys are unchanged (the same code is at huge_trades.py:23-25) |
| `Aggregation.TradeAggregator.CheckAndPrintTrades` | recent_trades.py:27-57 | the table is empty afterwards; the printed lines are exactly the alerting buckets of the old table, each repeat-count times, with its classification; the deletion loop never deletes a missing key |
| `Symbols.Upper` | recent_trades.py:75 | `upper()` keeps the length and maps each ASCII letter to its capital |
| `Symbols.RemoveQuote` | recent_trades.py:75 | `replace('USDT', '')` never lengthens the text and leaves text without "USDT" unchanged |
| `Symbols.RemoveAroundQuote` | recent_trades.py:75 | an occurrence of "USDT" is removed wherever it stands, whatever precedes it, and the text on either side is processed on its own, so `replace` removes every occurrence the left-to-right scan meets |
| `Symbols.RemoveTrailingQuote` | recent_trades.py:75 | a trailing "USDT" is always removed, whatever precedes it (no occurrence straddles the boundary) |
| `Symbols.DisplayOfQuotedPair` | recent_trades_old.py:34 | a stream `base + "usdt"` whose upper-cased base has no "USDT" displays as the upper-cased base |
| `Symbols.TrackedDisplaySymbols` | recent_trades.py:10 | the six tracked streams display as BTC, ETH, SOL, BNB, DOGE, WIF |
| `Symbols.RemovalIsSinglePass` | recent_trades_old.py:34 | replace is one left-to-right pass: "uusdtsdt" displays as "USDT", so a display symbol can still contain "USDT" |
| `RecentTrades.AlertIffAtLeastMinimum` | recent_trades.py:32 | a bucket alerts iff its total is >= 15000; smaller buckets print nothing |
| `RecentTrades.SideAndColor` | recent_trades.py:33-44 | buyer-is-maker gives SELL on red and otherwise BUY on green; from 500000 these become magenta and blue |
| `RecentTrades.Emphasis` | recent_trades.py:35-47 | two stars from 500000, one from 100000, none below; bold iff >= 50000; no blink; repeat count 1; shows the bucket total |
| `RecentTrades.TiersAreOrdered` | recent_trades.py:32-45 | the four thresholds are increasing, so the tier is the highest one met |
| `RecentTrades.LevelOfTiers` | recent_trades.py:32-45 | the tier of a total is the number of the four `>=` thresholds it meets |
| `RecentTrades.MatchesTierTable` | recent_trades.py:32-47 | the tier is the highest of the four thresholds met (each one below it is met, none from it on); no alert iff tier 0; bold iff tier >= 2; stars = tier - 2 above tier 2 and none otherwise; top colours iff tier 4 |
| `RecentTrades.EmphasisMonotone` | recent_trades.py:35-46 | a larger total of the same side still alerts, with at least as many stars, and stays bold |
| `RecentTrades.CheckAndPrintTrades` | recent_trades.py:27-57 | the drain empties the table; it prints exactly one line for each bucket >= 15000, carrying its classification, and nothing for any other bucket |
| `HugeTrades.AlertIffAboveMinimum` | huge_trades.py:31 | a bucket alerts iff its total is strictly above 500000 |
| `HugeTrades.MinimumItselfSuppressed` | huge_trades.py:31 | a bucket of exactly 500000 prints nothing |
| `HugeTrades.Emphasis` | huge_trades.py:32-40 | every alert is bold with no stars and is printed once; BUY is on blue and SELL on magenta; blink iff the total is > 3000000; the shown amount × 1000000 is the total |
| `HugeTrades.TiersAreOrdered` | huge_trades.py:31-35 | the two strict thresholds are increasing |
| `HugeTrades.MatchesTierTable` | huge_trades.py:31-40 | the tier is the highest of the two thresholds met (each one below it is met, none from it on); no alert iff tier 0; blink iff tier 2 |
| `HugeTrades.EmphasisMonotone` | huge_trades.py:31-37 | a larger total of the same side still alerts and keeps blinking |
| `HugeTrades.CheckAndPrintTrades` | huge_trades.py:27-45 | the table is empty afterwards whether or not anything alerted; it prints exactly one line for each bucket > 500000, carrying its classification, and nothing for any other bucket; each line is classified from the bucket's stored total, so the rescaling to millions touches only the printed amount |
| `RecentTradesOld.Notional` | recent_trades_old.py:33-34 | a trade's USD size is price × quantity, and it is shown under the stream's display symbol |
| `RecentTradesOld.OutputAndLogGated` | recent_trades_old.py:36-60 | a trade prints iff its USD size is >= 15000, and its CSV record is written iff it prints |
| `RecentTradesOld.Colors` | recent_trades_old.py:37-48 | red for SELL and green for BUY; from 500000, magenta and blue |
| `RecentTradesOld.SameAsBucketClassifier` | recent_trades_old.py:36-56 | for every amount and side, the per-trade classifier and the recent_trades.py bucket classifier agree on whether to alert, and on side, stars, bold, repeat count and amount; `"on_" + color` is the bucket classifier's background |
| `RecentTradesOld.EmphasisMonotone` | recent_trades_old.py:39-51 | a larger trade of the same side still prints, with at least as many stars, and stays bold |
| `Scenarios.TwoTradesOneBucket` | recent_trades.py:23-57 | trades of 8000 and 9000 on one BUY bucket drain as one unstarred, non-bold green line of 17000; a second drain prints nothing |
| `Scenarios.TopTierBucket` | recent_trades.py:38-44 | a 600000 BUY bucket prints one bold two-star line on blue |
| `Scenarios.SidesAreSeparateBuckets` | recent_trades.py:24-32 | the two sides of one symbol and second are separate buckets; a 10000 SELL bucket is dropped while the 20000 BUY bucket beside it prints |
| `Scenarios.HugeBuckets` | huge_trades.py:23-40 | a bucket of exactly 500000 is suppressed; a 3500000 SELL bucket, built from two trades, prints one bold, blinking magenta line of 3.5 (millions) |

## Left out

- Websocket connections, `recv`, JSON decoding and the bare `except: sleep(5)` retry loops (recent_trades.py:61-81, huge_trades.py:49-69, recent_trades_old.py:19-63) are network I/O and error plumbing. The decoded fields are parameters of the model.
- asyncio scheduling (`gather`, `create_task`, `asyncio.run`) and the one-second ticker `print_aggregated_trades_every_second` (recent_trades.py:83-95) are scheduling and timing. The model is sequential, because neither method awaits in the middle of an update. No linearizability under real concurrency is claimed.
- CSV header creation and the append writes are file I/O. The record text depends on Python's float and datetime `str`. `RecentTradesOld.ProcessTrade` models only whether a record is written.
- `cprint`/termcolor rendering, the `,.0f`/`,.2f` number formatting and the `\033[5m` escape text are not modelled as text. An alert is a record of side, stars, background, bold, blink, repeat count and amount.
- The trade-time conversion (`datetime.fromtimestamp` in Asia/Tokyo, `strftime('%H:%M:%S')`) is a library call. The second label is an opaque string key.
- Amounts are exact reals, so IEEE float rounding of price × quantity, of the running sums and of the division by 1,000,000 is not modelled. With floats, a sum of fractional amounts can round to just below or just above a threshold that the exact sum meets or misses.
- Symbols.Upper: models `str.upper()` on ASCII letters only. Non-ASCII case mappings, including ones that change the length, are not modelled, because the tracked symbols are ASCII.
- The module-level `trade_aggregator` singleton and the module-level `symbols` list (recent_trades.py:10, and the same line in huge_trades.py and recent_trades_old.py), which `main` only reads, are wiring. `Symbols.TRACKED` records that list.
