# prediction-markets: a verified model of the trading core

This project models, in Dafny, the deterministic logic under the scraping,
socket and UI code of the prediction-markets repository, and proves what
that logic promises. There are five parts:

- **Consolidated index engine.** This is `BRTI.calc` and its helpers in
  `crypto/brti_aws_setup/brti_mimick_new.py`. `crypto/websockets/brti.py` is
  the same engine line for line, and one model stands for both. The line
  correspondence is:
  - `mid`/`crossing`: 96-97 and 65-67;
  - the Book construction: 119-122 and 89-92;
  - `_consol`: 141-149 and 112-120;
  - `_cap`: 151-157 and 122-128;
  - `_cum`: 159-164 and 130-134;
  - `_curve`: 166-167 and 136-137;
  - `calc`: 169-195 and 139-157.

  The modules are `IndexBook`, `IndexFilters`, `IndexConsolidation`,
  `IndexCap`, `IndexCurve`, `IndexCalc` and `IndexProperties`.
  - A venue's book is a pair of `(price, size)` lists over `real`.
  - The venue dict is a sequence of `(id, Book)` pairs in insertion order.
  - `calc` returns a value of `Outcome`:
    - `Index(value, venues)` for the index and its venues;
    - `Withheld` for `(None, [])`;
    - `Raised` for the IndexError a fresh one-sided book causes.
- **Coinbase level-2 book.** This is `OrderBookProcessor` in
  `crypto/orderbook.py`, a class whose `bids` and `asks` the methods update
  in place (module `L2OrderBook`).
- **Kalshi YES/NO books.** There are two handlers over price-to-quantity
  books.
  - The streaming loop of `crypto/testing_market_sockets/market_sockets.py`
    is module `KalshiStream`, class `MarketStream`.
  - The simulated `MarketMaker` of
    `crypto/testing_market_sockets/direct_market_sockets_test.py` is module
    `KalshiMarketMaker`, class `MarketMaker`, with the loop in `DirectStream`.
  - Both share messages, additive deltas and the per-channel sequence rule
    (module `KalshiFeed`).
  - The single-market sequence tracker of
    `crypto/testing_market_sockets/utils.py` is module `KalshiSeqTracker`.
- **Paper-trading fill accounting.** This is `handle_update` of
  `crypto/mm_range/mm_websockets/test_trading.py` and its older variant in
  `test_trading_with_sockets.py`. It is modelled as the class
  `SimTrader.SimTrader`, whose fields are the clients' module-level maps.
  The position arithmetic of one fill is in `SimFills`, and the handler's
  promises are in `SimTraderProps`.
  - The two files differ in three places:
    - the `trade_market` gate;
    - the `new_quotes` round;
    - which fill branch overwrites `spread`.
  - A `Variant` parameter selects between them.
- **Book normalisation and row flattening** (modules `KalshiBooks` and
  `DataRow`):
  - the two REST `get_orderbook` helpers;
  - the seconds to hours/minutes/seconds split;
  - the data collector's `get_orderbook` conversion;
  - `dataRow.make_data_row`.

Supporting modules:
- `Optional`: an Option type.
- `Dicts`: a Python dict as an insertion-ordered list of pairs, with `get`,
  assignment, `pop` and comprehension from pairs.
- `Sorting`: Python's `sorted`, as a stable insertion sort. It is proved to
  return an ordered permutation of its input in which tied elements keep
  their input order.

Where the code is imperative, the model is a class or a method with loops.
Each one is proved against a function that specifies it. The properties are
proved about those functions.

Three behaviours of the code are kept as written:
- `OrderBookProcessor` is always built from the first snapshot event, so
  it has no uninitialised state (crypto/orderbook.py lines 7-17).
- Its construction keeps zero-quantity levels; only `apply_update` drops
  them (lines 45-47).
- On a sequence gap the stream loops raise an exception to their reconnect
  loop (market_sockets.py lines 101-107, direct_market_sockets_test.py
  lines 206-212), and the single-market client closes its socket
  (testing_market_sockets/utils.py lines 349-353). Nothing resynchronises
  in place.

## Model

| member | source | states |
|---|---|---|
| IndexBook.MidInsideSpread | crypto/brti_aws_setup/brti_mimick_new.py:96-97 | a two-sided book is uncrossed exactly when its mid lies strictly between best bid and best ask |
| IndexBook.PositiveLevels | crypto/brti_aws_setup/brti_mimick_new.py:120-121 | the filtered levels are exactly the levels with positive size |
| IndexBook.PositiveLevelsAppend | crypto/brti_aws_setup/brti_mimick_new.py:120-121 | the filter works piecewise over a concatenation, so the exchange's order is kept |
| IndexBook.BuildBook | crypto/brti_aws_setup/brti_mimick_new.py:119-122 | a built book holds exactly the positive-size levels of each side, stamped with the feed's timestamp, or with now when that is missing or 0 |
| IndexBook.BuiltBookSizesPositive | crypto/brti_aws_setup/brti_mimick_new.py:119-122 | every level of a built book has a positive size |
| IndexFilters.FreshVenues | crypto/brti_aws_setup/brti_mimick_new.py:170 | a venue is kept iff its book is at most STALE_S seconds old and uncrossed; the result is a sub-list of the books |
| IndexFilters.FreshVenuesDistinct | crypto/brti_aws_setup/brti_mimick_new.py:170 | filtering keeps venue ids distinct |
| IndexFilters.MedianWithinValues | crypto/brti_aws_setup/brti_mimick_new.py:173 | the median lies between the smallest and largest mids, is one of them for an odd count, and is the mid itself for one venue |
| IndexFilters.InBandRange | crypto/brti_aws_setup/brti_mimick_new.py:174 | for a positive median, `abs(mid/med - 1) <= ERR_BAND` iff the mid is within 5% of the median |
| IndexFilters.InBandVenues | crypto/brti_aws_setup/brti_mimick_new.py:174 | a fresh venue is kept iff its mid is in the band around the median |
| IndexFilters.InBandVenuesDistinct | crypto/brti_aws_setup/brti_mimick_new.py:174 | the band filter keeps venue ids distinct |
| IndexConsolidation.AddLevelIsSet | crypto/brti_aws_setup/brti_mimick_new.py:145-146 | `m[p] += s` on a defaultdict is `m[p] = m.get(p, 0) + s` |
| IndexConsolidation.Consolidate | crypto/brti_aws_setup/brti_mimick_new.py:142-149 | the loops and sorts compute the consolidated bid and ask sides |
| IndexConsolidation.AddLevels | crypto/brti_aws_setup/brti_mimick_new.py:145-146 | adding a venue's levels to the dict of the earlier levels gives the dict of all of them |
| IndexConsolidation.MergeSnoc | crypto/brti_aws_setup/brti_mimick_new.py:145-146 | accumulating one more level is one defaultdict update |
| IndexConsolidation.MergeSums | crypto/brti_aws_setup/brti_mimick_new.py:143-146 | the accumulated dict holds each quoted price once, with the sum of its sizes |
| IndexConsolidation.MergeKeys | crypto/brti_aws_setup/brti_mimick_new.py:143-146 | the accumulated dict's keys are exactly the quoted prices, each once |
| IndexConsolidation.MergeSizes | crypto/brti_aws_setup/brti_mimick_new.py:143-146 | the accumulated size at each price is the sum of the sizes quoted there |
| IndexConsolidation.AllLevelsSize | crypto/brti_aws_setup/brti_mimick_new.py:144-146 | summing the concatenated levels equals summing venue by venue |
| IndexConsolidation.InsertStrict | crypto/brti_aws_setup/brti_mimick_new.py:147-148 | inserting a new price into a strictly ordered side keeps it strict and adds that price |
| IndexConsolidation.PrependStrict | crypto/brti_aws_setup/brti_mimick_new.py:147-148 | a new price ahead of a strict side's first can go first |
| IndexConsolidation.InsertKeys | crypto/brti_aws_setup/brti_mimick_new.py:147-148 | inserting a level adds its price to the prices |
| IndexConsolidation.SortStrict | crypto/brti_aws_setup/brti_mimick_new.py:147-148 | sorting a dict with unique prices gives a strictly ordered side with the same prices |
| IndexConsolidation.ConsolidatedProperties | crypto/brti_aws_setup/brti_mimick_new.py:141-149 | each side lists every price any venue quotes exactly once, bids strictly descending and asks strictly ascending, with the summed size, and is empty only when no venue quotes that side |
| IndexCap.SampleTrimsOne | crypto/brti_aws_setup/brti_mimick_new.py:153-155 | the sample holds at most 2*MAX_SAMPLE sizes, so k = max(1, int(.01 n)) is 1 |
| IndexCap.CapRaisesOnlyOnOneSize | crypto/brti_aws_setup/brti_mimick_new.py:154-156 | `_cap` raises IndexError iff the sample has exactly one size |
| IndexCap.Winsorised | crypto/brti_aws_setup/brti_mimick_new.py:156 | the two slice writes keep the sample's length |
| IndexCap.WinsorisedClamps | crypto/brti_aws_setup/brti_mimick_new.py:155-156 | on the sorted sample the writes clamp every value between the k-th smallest and the k-th largest, and the result stays sorted |
| IndexCap.Cap | crypto/brti_aws_setup/brti_mimick_new.py:152-157 | the imperative `_cap` (sort, in-place writes, mean plus five deviations) computes the cap; 0 for an empty sample |
| IndexCap.WinsoriseInPlace | crypto/brti_aws_setup/brti_mimick_new.py:156 | the in-place writes on the array leave the winsorised sample |
| IndexCap.WinsorisedPositive | crypto/brti_aws_setup/brti_mimick_new.py:156 | winsorising positive sizes leaves them positive |
| IndexCap.SortedPositive | crypto/brti_aws_setup/brti_mimick_new.py:155 | the sorted sample is in order and keeps positive sizes positive |
| IndexCap.CapValueAboveMean | crypto/brti_aws_setup/brti_mimick_new.py:157 | the cap is at least the winsorised mean, which is positive for positive sizes |
| IndexCap.CapPositive | crypto/brti_aws_setup/brti_mimick_new.py:152-157 | empty sample gives cap 0, one size raises, two or more positive sizes give a positive cap |
| IndexCap.Clip | crypto/brti_aws_setup/brti_mimick_new.py:179-180 | clipping keeps every price, the order and the length, and each size becomes min(size, cap) |
| IndexCurve.PrefixSums | crypto/brti_aws_setup/brti_mimick_new.py:161-163 | one running total per size |
| IndexCurve.Cumulate | crypto/brti_aws_setup/brti_mimick_new.py:160-164 | the `_cum` loop returns the running totals of the sizes and the prices unchanged |
| IndexCurve.PrefixSumsIncrease | crypto/brti_aws_setup/brti_mimick_new.py:161-163 | with positive sizes the cumulative volumes strictly increase and end at the total |
| IndexCurve.Bisect | crypto/brti_aws_setup/brti_mimick_new.py:167 | `bisect_left(a, x, lo, hi)` stays within [lo, hi] |
| IndexCurve.BisectLeft | crypto/brti_aws_setup/brti_mimick_new.py:167 | `bisect_left` returns an index within the list |
| IndexCurve.FirstAtLeast | crypto/brti_aws_setup/brti_mimick_new.py:167 | reference definition: every earlier value is below x, the value at the index is at least x |
| IndexCurve.BisectSplits | crypto/brti_aws_setup/brti_mimick_new.py:167 | the binary search keeps its invariant: values before the result are below x, values from it on are not |
| IndexCurve.BisectLeftMatchesScan | crypto/brti_aws_setup/brti_mimick_new.py:167 | on sorted volumes the binary search equals the first index whose volume reaches x |
| IndexCurve.ScanFindsSplit | crypto/brti_aws_setup/brti_mimick_new.py:167 | the scan stops at the split point of a partitioned list |
| IndexCurve.Curve | crypto/brti_aws_setup/brti_mimick_new.py:166-167 | one price per grid point, each one of the book's prices |
| IndexCurve.CurveReachesVolume | crypto/brti_aws_setup/brti_mimick_new.py:166-167 | each curve point is the price of the first level whose cumulative volume reaches the grid volume, clamped to the last level |
| IndexCurve.GridCoversVolume | crypto/brti_aws_setup/brti_mimick_new.py:185 | the grid runs SPACING_VOL, 2*SPACING_VOL, ... up to the first multiple at or beyond tot, strictly increasing |
| IndexCurve.MidCurve | crypto/brti_aws_setup/brti_mimick_new.py:186 | one mid per grid point |
| IndexCurve.LastMasked | crypto/brti_aws_setup/brti_mimick_new.py:187-189 | the last grid index whose spread is within DEV_MID, or none when no index passes |
| IndexCurve.DepthIsLargestMasked | crypto/brti_aws_setup/brti_mimick_new.py:188-189 | the depth is the largest grid volume whose spread passes, else SPACING_VOL |
| IndexCurve.DepthAtLeastSpacing | crypto/brti_aws_setup/brti_mimick_new.py:189 | the depth is never below SPACING_VOL |
| IndexCurve.Used | crypto/brti_aws_setup/brti_mimick_new.py:190-191 | only grid points up to the depth are used |
| IndexCurve.UsedKeepsPoints | crypto/brti_aws_setup/brti_mimick_new.py:190-191 | every grid point up to the depth is used with its own mid, and nothing else |
| IndexCurve.Weights | crypto/brti_aws_setup/brti_mimick_new.py:192-193 | one weight per used point |
| IndexCurve.Normalise | crypto/brti_aws_setup/brti_mimick_new.py:194 | normalising keeps one weight per point |
| IndexCurve.Mids2 | crypto/brti_aws_setup/brti_mimick_new.py:191 | one mid per used point |
| IndexCurve.SumScale | crypto/brti_aws_setup/brti_mimick_new.py:194 | dividing every weight by t divides their sum by t |
| IndexCurve.NormaliseSumsToOne | crypto/brti_aws_setup/brti_mimick_new.py:194 | normalised weights sum to one |
| IndexCurve.DotBounds | crypto/brti_aws_setup/brti_mimick_new.py:195 | a non-negatively weighted sum of values in [lo, hi] lies between lo and hi times the weights' sum |
| IndexCurve.WeightedMidWithinMids | crypto/brti_aws_setup/brti_mimick_new.py:192-195 | with a positive exp the index lies between the lowest and highest mid used |
| IndexCalc.OkVenues | crypto/brti_aws_setup/brti_mimick_new.py:170-174 | every venue passing both filters has a two-sided book |
| IndexCalc.Calc | crypto/brti_aws_setup/brti_mimick_new.py:169-195 | the staged computation returns what `calc` returns, including each `(None, [])` exit |
| IndexCalc.SelectFresh | crypto/brti_aws_setup/brti_mimick_new.py:170-171 | the `fresh` comprehension: faults iff a fresh book has an empty side, otherwise returns the fresh uncrossed venues |
| IndexCalc.FreshStep | crypto/brti_aws_setup/brti_mimick_new.py:170 | one more venue through the `fresh` comprehension |
| IndexCalc.FaultStep | crypto/brti_aws_setup/brti_mimick_new.py:170 | one more venue faults iff it is fresh and one-sided, and a fault in a prefix is a fault of the whole |
| IndexCalc.SelectInBand | crypto/brti_aws_setup/brti_mimick_new.py:174 | the `ok` comprehension returns the in-band venues |
| IndexCalc.IndexFrom | crypto/brti_aws_setup/brti_mimick_new.py:176-195 | the stages after the filters return the index of the accepted venues |
| IndexProperties.AllLevelsFrom | crypto/brti_aws_setup/brti_mimick_new.py:144-146 | every merged level comes from some venue's side |
| IndexProperties.AllLevelsCovers | crypto/brti_aws_setup/brti_mimick_new.py:144-146 | the merged levels contain every venue's levels |
| IndexProperties.OkVenuesFromBooks | crypto/brti_aws_setup/brti_mimick_new.py:170-175 | an accepted venue is one of the books, fresh and uncrossed, and in the band around the median |
| IndexProperties.ConsolidatedNonEmpty | crypto/brti_aws_setup/brti_mimick_new.py:176 | an accepted two-sided venue makes both consolidated sides non-empty |
| IndexProperties.ClippedNeverRaises | crypto/brti_aws_setup/brti_mimick_new.py:179-183 | non-empty clipped sides give non-empty cumulative curves, so `bv[-1]` and `av[-1]` exist |
| IndexProperties.CapDefinedOnAccepted | crypto/brti_aws_setup/brti_mimick_new.py:176-177 | `_cap` never raises on accepted venues |
| IndexProperties.IndexOfClipped | crypto/brti_aws_setup/brti_mimick_new.py:177-180 | with a non-zero cap the index is computed from the clipped sides |
| IndexProperties.IndexOfNeverRaises | crypto/brti_aws_setup/brti_mimick_new.py:176-195 | nothing after the filters raises |
| IndexProperties.OkVenuesInBooks | crypto/brti_aws_setup/brti_mimick_new.py:170-174 | every accepted venue is one of the books |
| IndexProperties.CalcRaisesOnlyOnOneSidedBook | crypto/brti_aws_setup/brti_mimick_new.py:169-195 | `calc` raises exactly when a fresh book has an empty side |
| IndexProperties.CalcReportsSortedVenues | crypto/brti_aws_setup/brti_mimick_new.py:195 | the reported venues are sorted and a permutation of the accepted venues' ids |
| IndexProperties.CalcVenues | crypto/brti_aws_setup/brti_mimick_new.py:195 | the reported venues are `sorted(ok.keys())` |
| IndexProperties.SizeAtPositive | crypto/brti_aws_setup/brti_mimick_new.py:145-146 | summed positive sizes are non-negative, and positive at quoted prices |
| IndexProperties.AllLevelsPositive | crypto/brti_aws_setup/brti_mimick_new.py:144-146 | merged levels of built books have positive sizes |
| IndexProperties.ConsolidatedPositive | crypto/brti_aws_setup/brti_mimick_new.py:141-149 | every consolidated size is positive |
| IndexProperties.CapNeverWithholds | crypto/brti_aws_setup/brti_mimick_new.py:177-178 | with positive sizes and a non-negative sqrt, the cap is positive, so `cap == 0` never withholds once a venue is accepted |
| IndexProperties.ConsolidatedPricesWithin | crypto/brti_aws_setup/brti_mimick_new.py:141-149 | consolidated prices are quoted prices, so they stay within the quoted range |
| IndexProperties.DepthWeightedWithin | crypto/brti_aws_setup/brti_mimick_new.py:185-195 | the depth-weighted mid lies within the range of the clipped books' prices |
| IndexProperties.IndexOfWithinPrices | crypto/brti_aws_setup/brti_mimick_new.py:176-195 | the index computed from accepted venues lies within the prices they quote |
| IndexProperties.ClippedIndexWithin | crypto/brti_aws_setup/brti_mimick_new.py:181-195 | the stages after clipping keep the index within the prices |
| IndexProperties.IndexWithinQuotedPrices | crypto/brti_aws_setup/brti_mimick_new.py:169-195 | when every quoted price is in [lo, hi], so is the index `calc` returns |
| Sorting.InsertBy | crypto/brti_aws_setup/brti_mimick_new.py:147-148 | inserting adds one element |
| Sorting.SortBy | crypto/brti_aws_setup/brti_mimick_new.py:147-148 | sorting keeps the length |
| Sorting.InsertByPermutes | crypto/brti_aws_setup/brti_mimick_new.py:147-148 | inserting adds exactly the element |
| Sorting.SortByPermutes | crypto/orderbook.py:49-51 | `sorted` returns a permutation of its input |
| Sorting.InsertBySorted | crypto/orderbook.py:49-51 | inserting into a sorted list keeps it sorted |
| Sorting.SortBySorted | crypto/orderbook.py:49-51 | `sorted` returns its input in order |
| Sorting.SortBySortedIsIdentity | crypto/orderbook.py:49-51 | sorting an ordered list changes nothing |
| Sorting.InsertByStable | crypto/orderbook.py:49-51 | an inserted element goes ahead of every element it ties with |
| Sorting.SortByStable | crypto/orderbook.py:49-51 | `sorted` is stable: for every key, the elements that tie with it come out in their input order (two price strings with the same float value keep their order) |
| Sorting.StringLtTotal | crypto/brti_aws_setup/brti_mimick_new.py:195 | Python's string order is asymmetric and total |
| Sorting.StringLtTransitive | crypto/brti_aws_setup/brti_mimick_new.py:195 | Python's string order is transitive |
| Sorting.StringLtIsStrictWeakOrder | crypto/brti_aws_setup/brti_mimick_new.py:195 | the venue ids are sorted by a strict weak order |
| Dicts.Get | crypto/testing_market_sockets/market_sockets.py:117 | `d.get(k)` finds a value iff k is a key, and that pair is stored |
| Dicts.SetSpec | crypto/testing_market_sockets/market_sockets.py:121 | after `d[k] = v`, k maps to v, other keys are unchanged, keys stay unique |
| Dicts.PopSpec | crypto/testing_market_sockets/market_sockets.py:119 | after `d.pop(k, None)`, k is gone and every other key is unchanged |
| Dicts.SetTwice | crypto/testing_market_sockets/market_sockets.py:121 | assigning a key twice leaves the dict the second assignment alone would, order included |
| Dicts.PopAfterSet | crypto/testing_market_sockets/market_sockets.py:119-121 | popping a key just assigned leaves the dict popping it alone would |
| Dicts.FromPairs | crypto/testing_market_sockets/market_sockets.py:110-111 | a dict comprehension has unique keys |
| Dicts.FromPairsSpec | crypto/testing_market_sockets/market_sockets.py:110-111 | a dict comprehension holds each key with the value of its last pair |
| Dicts.FromPairsAt | crypto/testing_market_sockets/market_sockets.py:110-111 | the comprehension's value at a key is the last pair's value |
| L2OrderBook.OrdersAreStrictWeak | crypto/orderbook.py:49-51 | sorting by numeric price, descending or ascending, is a strict weak order |
| L2OrderBook.OfSide | crypto/orderbook.py:12-16 | the levels whose side is exactly the given one |
| L2OrderBook.OfSideAppend | crypto/orderbook.py:12-16 | taking one side of a concatenation takes it run by run, so the snapshot's order is kept |
| L2OrderBook.Upsert | crypto/orderbook.py:31-43 | `_apply` on one side keeps the length or adds one level |
| L2OrderBook.FirstWithPx | crypto/orderbook.py:33-35 | a level with the raw price, or none exactly when no level has it |
| L2OrderBook.FirstWithPxIsFirst | crypto/orderbook.py:33-35 | the lookup returns the level at the first index holding the price, as the scan with `return` does |
| L2OrderBook.UpsertReplacesOrAppends | crypto/orderbook.py:31-43 | an existing raw price is replaced in place (length kept), a new one is appended; afterwards the update is that price's level and every other price reads as before |
| L2OrderBook.UpsertAt | crypto/orderbook.py:33-36 | the write goes to the first index with equal raw price |
| L2OrderBook.UpsertAppends | crypto/orderbook.py:37 | an unseen raw price is appended |
| L2OrderBook.ApplyAllAppend | crypto/orderbook.py:24-27 | updates apply in message order, run by run |
| L2OrderBook.Open | crypto/orderbook.py:45-47 | `_filter_closed` keeps exactly the levels with non-zero quantity |
| L2OrderBook.LastUpdateWins | crypto/orderbook.py:24-27 | for a repeated price the last update to that side wins; untouched prices read as before |
| L2OrderBook.UnknownSideUpdatesAsks | crypto/orderbook.py:38-43 | an update whose side is not 'bid' goes to the asks, although construction would drop it |
| L2OrderBook.UpdatedBookProperties | crypto/orderbook.py:19-29 | after an update no level has quantity 0, bids are non-increasing and asks non-decreasing in numeric price, and each side holds exactly the open levels |
| L2OrderBook.LastOpenUpdateIsQuoted | crypto/orderbook.py:24-29 | the last update to a price, if open, is in the updated book |
| L2OrderBook.OrderBookProcessor.constructor | crypto/orderbook.py:7-17 | the first event's 'bid' levels become the bids and 'offer' levels the asks, sorted; other sides and zero quantities are not filtered |
| L2OrderBook.OrderBookProcessor.ApplyLevel | crypto/orderbook.py:31-43 | `_apply` upserts into the bids for side 'bid', else into the asks, and leaves the other side |
| L2OrderBook.OrderBookProcessor.ApplyUpdate | crypto/orderbook.py:19-29 | a message off the 'l2_data' channel changes nothing; otherwise every update is applied in order, then closed levels are dropped and both sides sorted |
| L2OrderBook.OrderBookProcessor.ApplyLevels | crypto/orderbook.py:26-27 | the inner loop applies each update of an event in order |
| L2OrderBook.OrderBookProcessor.FilterClosed | crypto/orderbook.py:45-47 | both sides lose exactly their zero-quantity levels |
| L2OrderBook.OrderBookProcessor.Sort | crypto/orderbook.py:49-51 | bids sorted high to low, asks low to high, by numeric price |
| KalshiFeed.WithSide | crypto/testing_market_sockets/market_sockets.py:117-121 | replacing one side of a market's books leaves the other side |
| KalshiFeed.DeltaSpec | crypto/testing_market_sockets/market_sockets.py:117-121 | a delta sets qty = old (0 if absent) + delta, removes the level when qty <= 0, stores it otherwise; other prices unchanged |
| KalshiFeed.DeltasAdd | crypto/testing_market_sockets/market_sockets.py:117-121 | two deltas at one price leave the same book, levels in the same order, as their sum applied once, when the first leaves the level standing |
| KalshiFeed.InitialSeqsComplete | crypto/testing_market_sockets/market_sockets.py:34-38 | the initial table has a last seq of 0 for each of the three channels |
| KalshiFeed.GateKeepsOtherChannels | crypto/testing_market_sockets/market_sockets.py:102-107 | the gap check only records its own channel's seq |
| KalshiFeed.SequenceRule | crypto/testing_market_sockets/market_sockets.py:102-107 | with a ticker, a message passes iff the channel's last seq is 0 or its seq is last+1, and the seq is then recorded; otherwise a gap |
| KalshiFeed.AcceptsConsecutive | crypto/testing_market_sockets/market_sockets.py:101-107 | a run of positive seqs passes without a gap iff each follows its predecessor (the first is free on a fresh channel) |
| KalshiFeed.FlipLastValue | crypto/testing_market_sockets/direct_market_sockets_test.py:100 | after flipping, the last level at p is the last one at 100 - p |
| KalshiFeed.PairOrders | crypto/testing_market_sockets/direct_market_sockets_test.py:46-52 | the tuple orders `sorted` uses are strict weak orders |
| KalshiStream.Init | crypto/testing_market_sockets/market_sockets.py:29-38 | each listed market starts with empty books, trade and fill lists; the state is valid |
| KalshiStream.StepKeepsValid | crypto/testing_market_sockets/market_sockets.py:77-133 | every message keeps every table covering the same markets and books one entry per price |
| KalshiStream.DispatchKeepsValid | crypto/testing_market_sockets/market_sockets.py:109-133 | each handler keeps the state valid |
| KalshiStream.SkippedTypesChangeNothing | crypto/testing_market_sockets/market_sockets.py:84-97 | `subscribed` and unknown types change no state |
| KalshiStream.OnlyAddressedMarketChanges | crypto/testing_market_sockets/market_sockets.py:109-133 | a message changes only the books, trades and fills of the market it names, and never the set of markets |
| KalshiStream.DispatchOnlyAddressed | crypto/testing_market_sockets/market_sockets.py:109-133 | every handler leaves other markets alone |
| KalshiStream.SnapshotOnlyAddressed | crypto/testing_market_sockets/market_sockets.py:109-112 | a snapshot leaves other markets alone |
| KalshiStream.DeltaOnlyAddressed | crypto/testing_market_sockets/market_sockets.py:113-122 | a delta leaves other markets alone |
| KalshiStream.GapRule | crypto/testing_market_sockets/market_sockets.py:101-107 | a message with a ticker raises the gap exception iff last seq != 0 and seq != last+1, changing nothing; otherwise its seq is recorded |
| KalshiStream.SnapshotReplacesBooks | crypto/testing_market_sockets/market_sockets.py:109-111 | a handled snapshot makes each map the message's levels at raw prices, later duplicates winning |
| KalshiStream.DeltaUpdatesOneLevel | crypto/testing_market_sockets/market_sockets.py:113-121 | a handled delta applies the additive rule at its raw price; other prices and the other side are unchanged |
| KalshiStream.LogsAppend | crypto/testing_market_sockets/market_sockets.py:123-133 | past the gap check, trades and fills are appended to their market's list in arrival order |
| KalshiStream.MarketStream.constructor | crypto/testing_market_sockets/market_sockets.py:28-38 | the loop's locals start as the initial state |
| KalshiStream.MarketStream.OnMessage | crypto/testing_market_sockets/market_sockets.py:77-133 | one pass of the loop body updates the locals in place as the step function says |
| KalshiMarketMaker.InitMaker | crypto/testing_market_sockets/direct_market_sockets_test.py:22-32 | every ticker gets empty yes/no books, no quotes, empty log, position 0 and zero averages and PnL; total_trades is 0 |
| KalshiMarketMaker.FirstSizedFound | crypto/testing_market_sockets/direct_market_sockets_test.py:45-55 | the scan stops at a listed level of at least mm_size, or returns the default when there is none |
| KalshiMarketMaker.FirstSizedDescending | crypto/testing_market_sockets/direct_market_sockets_test.py:45-49 | on a high-to-low list no sized level is above the first sized one |
| KalshiMarketMaker.FirstSizedAscending | crypto/testing_market_sockets/direct_market_sockets_test.py:51-55 | on a low-to-high list no sized level is below the first sized one |
| KalshiMarketMaker.SortKeepsItems | crypto/testing_market_sockets/direct_market_sockets_test.py:46-52 | sorting the items keeps exactly the items |
| KalshiMarketMaker.MarketMakerBidIsBest | crypto/testing_market_sockets/direct_market_sockets_test.py:45-49 | mm_bid is the highest YES price with qty >= mm_size, 0 if none |
| KalshiMarketMaker.MarketMakerAskIsBest | crypto/testing_market_sockets/direct_market_sockets_test.py:51-55 | mm_ask is the lowest NO-book price with qty >= mm_size, 100 if none |
| KalshiMarketMaker.QuoteRule | crypto/testing_market_sockets/direct_market_sockets_test.py:62-78 | quotes become (mm_bid+1, mm_ask-1) iff mm_bid > 0, mm_ask < 100 and abs(mm_ask - mm_bid) >= mm_min_spread; otherwise both None |
| KalshiMarketMaker.RequoteKeepsValid | crypto/testing_market_sockets/direct_market_sockets_test.py:40-78 | requoting touches only that market's quote |
| KalshiMarketMaker.DeltaKeepsValid | crypto/testing_market_sockets/direct_market_sockets_test.py:80-96 | whatever price the handler addresses (the raw price as written, or 100 - p for a NO price), a delta keeps books, quotes and logs covering the same markets and each book one entry per price |
| KalshiMarketMaker.SnapshotKeepsValid | crypto/testing_market_sockets/direct_market_sockets_test.py:98-103 | a snapshot keeps the maker valid |
| KalshiMarketMaker.TradeKeepsValid | crypto/testing_market_sockets/direct_market_sockets_test.py:105-118 | a trade keeps the maker valid |
| KalshiMarketMaker.DeltaUpdatesOneLevel | crypto/testing_market_sockets/direct_market_sockets_test.py:80-96 | whatever price the handler addresses, a delta that returns changes that one level of one side by the additive rule and nothing else in the books; one that raises changes nothing |
| KalshiMarketMaker.DeltaRequotesItsMarket | crypto/testing_market_sockets/direct_market_sockets_test.py:95-96 | whatever price the handler addresses, a delta that returns requotes its market from the new books and leaves other markets alone |
| KalshiMarketMaker.DeltaStores | crypto/testing_market_sockets/direct_market_sockets_test.py:86-96 | whatever price the handler addresses, a delta that returns stores the updated side, then requotes |
| KalshiMarketMaker.AsWrittenNeverFlips | crypto/testing_market_sockets/direct_market_sockets_test.py:81-87 | as written, side 'NO' raises KeyError and every applied delta addresses its raw price |
| KalshiMarketMaker.NoDeltaMissesSnapshotLevel | crypto/testing_market_sockets/direct_market_sockets_test.py:83-100 | counterexample: after a snapshot of NO (30, 5), a 'no' delta of +1 at 30 leaves 5 at 70 and opens 1 at 30 as written; with the flip, 70 holds 6 |
| KalshiMarketMaker.NoDeltaFindsSnapshotLevel | crypto/testing_market_sockets/direct_market_sockets_test.py:83-100 | with the flip, a NO delta at p adjusts exactly the quantity the last snapshot recorded for NO price p |
| KalshiMarketMaker.RecordedAtFlippedPrice | crypto/testing_market_sockets/direct_market_sockets_test.py:100 | the snapshot's NO book keeps NO price p at 100 - p |
| KalshiMarketMaker.SnapshotStores | crypto/testing_market_sockets/direct_market_sockets_test.py:98-103 | a snapshot that returns stores both books, then requotes |
| KalshiMarketMaker.SnapshotReplacesBooks | crypto/testing_market_sockets/direct_market_sockets_test.py:98-103 | YES prices keep their last quantity, NO levels (p, q) are stored at 100 - p, the market is requoted, other markets unchanged |
| KalshiMarketMaker.SnapshotBooksLevels | crypto/testing_market_sockets/direct_market_sockets_test.py:99-100 | YES levels as they are, NO at 100 - p, later duplicates winning |
| KalshiMarketMaker.FlippedLevels | crypto/testing_market_sockets/direct_market_sockets_test.py:100 | the flipped NO book at p holds the last quantity for NO price 100 - p |
| KalshiMarketMaker.TradeOnlyTallies | crypto/testing_market_sockets/direct_market_sockets_test.py:105-139 | a trade is always logged, never changes books, quotes, positions, averages or PnL, and adds abs(min(count, mm_size)) to total_trades iff both quotes are set |
| KalshiMarketMaker.RequoteKeepsQuotesCurrent | crypto/testing_market_sockets/direct_market_sockets_test.py:62-78 | requoting a market makes its quote the one its books call for |
| KalshiMarketMaker.DeltaKeepsQuotesCurrent | crypto/testing_market_sockets/direct_market_sockets_test.py:95-96 | whatever price the handler addresses, after a delta every quote is the one its books call for |
| KalshiMarketMaker.SnapshotKeepsQuotesCurrent | crypto/testing_market_sockets/direct_market_sockets_test.py:102-103 | after a snapshot that returns every quote is current |
| KalshiMarketMaker.TradeKeepsQuotesCurrent | crypto/testing_market_sockets/direct_market_sockets_test.py:105-118 | a trade keeps every quote current |
| KalshiMarketMaker.InitQuotesCurrent | crypto/testing_market_sockets/direct_market_sockets_test.py:24-25 | empty books call for no quote, which is what a new maker holds |
| KalshiMarketMaker.MarketMaker.constructor | crypto/testing_market_sockets/direct_market_sockets_test.py:22-38 | the fields start as the initial maker |
| KalshiMarketMaker.MarketMaker.UpdateQuote | crypto/testing_market_sockets/direct_market_sockets_test.py:40-78 | the two scans with early break and the quote update requote the market in place |
| KalshiMarketMaker.MarketMaker.UpdateOrderbookDelta | crypto/testing_market_sockets/direct_market_sockets_test.py:80-96 | the delta handler as written updates the fields in place: only side 'NO' is flipped, so a 'no' delta adjusts its raw price and a 'NO' delta raises KeyError |
| KalshiMarketMaker.MarketMaker.UpdateOrderbookSnapshot | crypto/testing_market_sockets/direct_market_sockets_test.py:98-103 | the snapshot handler updates the fields in place |
| KalshiMarketMaker.MarketMaker.ProcessTrade | crypto/testing_market_sockets/direct_market_sockets_test.py:105-139 | the trade handler updates the fields in place |
| KalshiMarketMaker.DirectStepKeepsValid | crypto/testing_market_sockets/direct_market_sockets_test.py:182-224 | the loop, with the delta handler as written, keeps the maker valid and the seq table complete, and leaves the maker alone on `subscribed`, unknown types, fills and gaps |
| KalshiMarketMaker.DirectStream.constructor | crypto/testing_market_sockets/direct_market_sockets_test.py:159-164 | each channel's last seq starts at 0 |
| KalshiMarketMaker.DirectStream.OnMessage | crypto/testing_market_sockets/direct_market_sockets_test.py:182-224 | one message in place: the gap check, then the maker's handler for its type (the delta handler as written) |
| KalshiBooks.PriceKeysOrder | crypto/mm_range/mm_websockets/utils.py:105-106 | sorting by -price and by price are strict weak orders |
| KalshiBooks.Heavy | crypto/mm_range/mm_websockets/utils.py:113-114 | the filter keeps exactly the levels with quantity >= MM_THRESHOLD |
| KalshiBooks.MmGetOrderbook | crypto/mm_range/mm_websockets/utils.py:83-125 | the append loops, sorts, top-of-book defaults and market-maker detection compute the older helper's five values |
| KalshiBooks.SortedGetOrderbook | crypto/testing_market_sockets/utils.py:85-123 | the append loops and sorts compute the newer helper's `{"bids", "asks"}` result |
| KalshiBooks.SortLevels | crypto/mm_range/mm_websockets/utils.py:105-106 | sorted bids are non-increasing, sorted asks non-decreasing, each a permutation of its input |
| KalshiBooks.HeavyFirstIsHighest | crypto/mm_range/mm_websockets/utils.py:113-116 | on high-to-low bids, mm_bid is at least every heavy bid's price |
| KalshiBooks.HeavyFirstIsLowest | crypto/mm_range/mm_websockets/utils.py:114-117 | on low-to-high asks, mm_ask is at most every heavy ask's price |
| KalshiBooks.LevelsListed | crypto/mm_range/mm_websockets/utils.py:98-103 | the bids are exactly the YES levels as they are, the asks exactly the NO levels at 100 - p |
| KalshiBooks.SortedOrderbookLevels | crypto/testing_market_sockets/utils.py:92-119 | None iff no orderbook; otherwise YES levels as bids high to low and NO levels at 100 - p as asks low to high, none added or lost, a null side empty |
| KalshiBooks.HelpersAgree | crypto/mm_range/mm_websockets/utils.py:98-106 | with both sides present the two helpers produce the same sorted bids and asks |
| KalshiBooks.BidSide | crypto/mm_range/mm_websockets/utils.py:98-116 | bids sorted high to low; top_bid is the highest YES price (0 if none); mm_bid the highest YES price with qty >= MM_THRESHOLD (0 if none) |
| KalshiBooks.AskSide | crypto/mm_range/mm_websockets/utils.py:101-117 | asks are the NO levels at 100 - p, low to high; top_ask is the lowest (100 if none); mm_ask the lowest heavy one (100 if none) |
| KalshiBooks.MmOrderbookNone | crypto/mm_range/mm_websockets/utils.py:89-125 | five Nones iff the orderbook or one of its sides is absent; otherwise the values are the sorted sides, their first prices and first heavy prices |
| KalshiBooks.MarketMakerBehindTop | crypto/mm_range/mm_websockets/utils.py:109-117 | for prices in [0, 100], mm_bid <= top_bid and mm_ask >= top_ask |
| KalshiBooks.SplitSecondsIsUnique | crypto/mm_range/mm_websockets/utils.py:60-63 | hours*3600 + minutes*60 + seconds = total with minutes and seconds in [0, 60), the only such split, negative totals included |
| KalshiSeqTracker.SeqTracker.constructor | crypto/testing_market_sockets/utils.py:336 | last_seq starts at 0 |
| KalshiSeqTracker.SeqTracker.OnMessage | crypto/testing_market_sockets/utils.py:339-363 | the handler updates last_seq in place and reacts as the tracking rule says |
| KalshiSeqTracker.TrackRule | crypto/testing_market_sockets/utils.py:345-363 | a snapshot sets last_seq to its seq; a delta is taken iff seq == last_seq + 1, else the socket closes and last_seq stays; other types leave last_seq, and a `subscribed` frame without `msg` or `channel` raises KeyError |
| KalshiSeqTracker.CounterMoves | crypto/testing_market_sockets/utils.py:345-355 | the counter stays, moves up by one, or jumps to a snapshot's number |
| KalshiSeqTracker.ConsecutiveDeltasAdvance | crypto/testing_market_sockets/utils.py:349-355 | consecutively numbered deltas are all taken and the counter ends at the last |
| KalshiSeqTracker.UnbrokenDeltasAreConsecutive | crypto/testing_market_sockets/utils.py:349-355 | a run of deltas that never closes the socket is numbered consecutively, so no update was skipped |
| SimFills.BuyMovesPosition | crypto/mm_range/mm_websockets/test_trading.py:173-197 | a buy moves the position up by exactly the contracts filled |
| SimFills.SellMovesPosition | crypto/mm_range/mm_websockets/test_trading.py:219-243 | a sell moves the position down by exactly the contracts filled |
| SimFills.FillRealisesOnClose | crypto/mm_range/mm_websockets/test_trading.py:173-243 | PnL is realised only by closing the opposite position: (avg - bid) or (ask - avg) per contract closed |
| SimFills.FillKeepsFlatNoAvg | crypto/mm_range/mm_websockets/test_trading.py:186-196 | a flat position carries average 0 after any fill |
| SimFills.BuyAverages | crypto/mm_range/mm_websockets/test_trading.py:177-196 | extending a long blends the cost basis; covering part of a short keeps its entry; covering exactly resets to 0; flipping enters at the bid |
| SimFills.SellAverages | crypto/mm_range/mm_websockets/test_trading.py:223-242 | sells mirror buys on the short side |
| SimFills.SellMirrorsBuy | crypto/mm_range/mm_websockets/test_trading.py:219-243 | a sell is a buy of the mirrored position: same size and entry, negated position and PnL |
| SimFills.FillKeepsAvgInRange | crypto/mm_range/mm_websockets/test_trading.py:190-196 | while fill prices lie in [lo, hi] so does the average entry of any open position |
| SimFills.WeightedWithin | crypto/mm_range/mm_websockets/test_trading.py:192-194 | a weighted average of two values in [lo, hi] stays in [lo, hi] |
| SimFills.RoundTrip | crypto/mm_range/mm_websockets/test_trading.py:173-243 | buying n and selling n from flat ends flat with no entry price and (ask - bid)*n realised |
| SimTrader.NewTrades | crypto/mm_range/mm_websockets/test_trading.py:135 | the new trades are exactly the listed ones whose id is unseen |
| SimTrader.Trunc | crypto/mm_range/mm_websockets/test_trading.py:268 | `int(x)` truncates toward zero |
| SimTrader.TradesNext | crypto/mm_range/mm_websockets/test_trading.py:137 | the per-trade loop takes the trades one at a time in order |
| SimTrader.SimTrader.constructor | crypto/mm_range/mm_websockets/test_trading.py:19-40 | the module-level state starts empty and zero |
| SimTrader.SimTrader.FillBuy | crypto/mm_range/mm_websockets/test_trading.py:173-197 | the buy branch sets the position, average and realised PnL to the buy fill's |
| SimTrader.SimTrader.FillSell | crypto/mm_range/mm_websockets/test_trading.py:219-243 | the sell branch sets the position, average and realised PnL to the sell fill's |
| SimTrader.SimTrader.ApplyFill | crypto/mm_range/mm_websockets/test_trading.py:172-263 | a fill updates the position, then the tallies and the log |
| SimTrader.SimTrader.RecordFill | crypto/mm_range/mm_websockets/test_trading.py:199-216 | the tallies grow by the fill and its spread edge, and one log record is appended |
| SimTrader.SimTrader.HandleTrade | crypto/mm_range/mm_websockets/test_trading.py:137-265 | one pass of the per-trade loop, in place |
| SimTrader.SimTrader.HandleContract | crypto/mm_range/mm_websockets/test_trading.py:86-298 | one pass of the per-contract loop, in place |
| SimTrader.SimTrader.NoteContract | crypto/mm_range/mm_websockets/test_trading.py:99-103 | the strike and mid price are recorded |
| SimTrader.SimTrader.RegisterTrades | crypto/mm_range/mm_websockets/test_trading.py:129-135 | a first sighting registers the listed ids; the unseen trades are returned |
| SimTrader.SimTrader.HandleTrades | crypto/mm_range/mm_websockets/test_trading.py:137-265 | the per-trade loop, in place |
| SimTrader.SimTrader.ProposeQuote | crypto/mm_range/mm_websockets/test_trading.py:275-283 | the next quote is stored |
| SimTrader.SimTrader.TouchBooks | crypto/mm_range/mm_websockets/test_trading.py:293-298 | the defaultdict reads create the ticker's entries |
| SimTrader.SimTrader.HandleContracts | crypto/mm_range/mm_websockets/test_trading.py:86-298 | the per-contract loop, stopping at the first that raises |
| SimTrader.SimTrader.RollQuotes | crypto/mm_range/mm_websockets/test_trading.py:314-315 | this round's quotes become the ones to fill against, and new_quotes empties |
| SimTrader.SimTrader.HandleUpdate | crypto/mm_range/mm_websockets/test_trading.py:79-315 | `handle_update` updates the module-level state in place |
| SimTraderProps.TruncAboveTwo | crypto/mm_range/mm_websockets/test_trading.py:268 | `int(spread) <= 2` iff the spread is below 3 |
| SimTraderProps.QuoteRule | crypto/mm_range/mm_websockets/test_trading.py:267-273 | no quote when int(spread) <= 2; otherwise bid = mm_bid+1 iff below best_ask, ask = mm_ask-1 iff above best_bid |
| SimTraderProps.QuoteNotCrossed | crypto/mm_range/mm_websockets/test_trading.py:268-273 | quoting on the market maker's own spread never gives a crossed two-sided quote |
| SimTraderProps.FillRule | crypto/mm_range/mm_websockets/test_trading.py:137-263 | a record is appended iff the trade is visited, both last-round quotes exist, and a 'yes' taker prices above our ask (we sell) or another below our bid (we buy); size min(count, SIZING), tallies grow by it; the buy branch overwrites spread |
| SimTraderProps.MarksSeen | crypto/mm_range/mm_websockets/test_trading.py:137-143 | a visited trade is marked seen under its ticker, filled or not; gated trades stay unseen |
| SimTraderProps.GateClosedSkipsTrades | crypto/mm_range/mm_websockets/test_trading.py:137-139 | with `trade_market` off nothing changes |
| SimTraderProps.TouchKeepsBooks | crypto/mm_range/mm_websockets/test_trading.py:293-294 | reading a defaultdict entry changes nothing a reader sees |
| SimTraderProps.RecordFields | crypto/mm_range/mm_websockets/test_trading.py:172-216 | a fill's bookkeeping sets position, average and PnL, adds its size to total_trades, and appends its record |
| SimTraderProps.BookingKeepsLedger | crypto/mm_range/mm_websockets/test_trading.py:172-262 | booking a fill that moves the position by its size keeps positions, PnL and volume equal to the sums over the log |
| SimTraderProps.RecordKeepsLedger | crypto/mm_range/mm_websockets/test_trading.py:172-262 | one fill keeps the ledger |
| SimTraderProps.TradeStepKeepsLedger | crypto/mm_range/mm_websockets/test_trading.py:137-265 | one trade keeps the ledger |
| SimTraderProps.TradesKeepLedger | crypto/mm_range/mm_websockets/test_trading.py:137-265 | the per-trade loop keeps the ledger |
| SimTraderProps.NoteKeepsLedger | crypto/mm_range/mm_websockets/test_trading.py:99-103 | recording strike and mid leaves the books |
| SimTraderProps.RegisterKeepsLedger | crypto/mm_range/mm_websockets/test_trading.py:129-133 | registering trades leaves the books |
| SimTraderProps.ProposeKeepsLedger | crypto/mm_range/mm_websockets/test_trading.py:275-298 | storing quotes and reading entries leaves the books |
| SimTraderProps.ContractStepKeepsLedger | crypto/mm_range/mm_websockets/test_trading.py:86-298 | one contract keeps the ledger |
| SimTraderProps.ContractsKeepLedger | crypto/mm_range/mm_websockets/test_trading.py:86-298 | the per-contract loop keeps the ledger |
| SimTraderProps.UpdateKeepsLedger | crypto/mm_range/mm_websockets/test_trading.py:79-315 | after any update, raising or not, each position and realised PnL is the sum of its logged fills and total_trades the logged volume |
| SimTraderProps.StartLedger | crypto/mm_range/mm_websockets/test_trading.py:27-40 | the state at import has balanced books |
| SimTraderProps.NewTradesDistinct | crypto/mm_range/mm_websockets/test_trading.py:135 | filtering keeps trade ids distinct |
| SimTraderProps.TradeStepLogsOnce | crypto/mm_range/mm_websockets/test_trading.py:137-143 | one unseen trade keeps every fill logged once |
| SimTraderProps.TradesLogOnce | crypto/mm_range/mm_websockets/test_trading.py:137-143 | the per-trade loop over distinct unseen trades logs each fill once |
| SimTraderProps.RegisterLogsOnce | crypto/mm_range/mm_websockets/test_trading.py:129-135 | after registering, the trades left to visit are distinct and unseen |
| SimTraderProps.ContractStepLogsOnce | crypto/mm_range/mm_websockets/test_trading.py:129-143 | one contract keeps every fill logged once |
| SimTraderProps.ContractsLogOnce | crypto/mm_range/mm_websockets/test_trading.py:86-143 | the per-contract loop keeps every fill logged once |
| SimTraderProps.UpdateLogsOnce | crypto/mm_range/mm_websockets/test_trading.py:79-315 | no trade is ever filled twice: each logged (ticker, trade id) is distinct and already seen |
| SimTraderProps.FirstSightingFillsNothing | crypto/mm_range/mm_websockets/test_trading.py:129-133 | a first sighting registers its trades as seen and processes none of them |
| SimTraderProps.TradeStepKeepsQuotes | crypto/mm_range/mm_websockets/test_trading.py:137-265 | a trade never touches the quotes |
| SimTraderProps.TradesKeepQuotes | crypto/mm_range/mm_websockets/test_trading.py:137-265 | the per-trade loop never touches the quotes |
| SimTraderProps.ProposeQuotes | crypto/mm_range/mm_websockets/test_trading.py:275-283 | the quote for the ticker is stored in our_quotes and, in this file, in new_quotes; other tickers keep theirs |
| SimTraderProps.ContractStepQuotes | crypto/mm_range/mm_websockets/test_trading.py:86-283 | a contract that does not raise stores a quote for its ticker only |
| SimTraderProps.ContractsQuotes | crypto/mm_range/mm_websockets/test_trading.py:86-283 | the loop quotes every ticker it visits and keeps the others' quotes |
| SimTraderProps.BoundNeverRaises | crypto/mm_range/mm_websockets/test_trading.py:105-124 | once `time_left` is bound the loop cannot raise |
| SimTraderProps.SocketsNeverRaise | crypto/mm_range/mm_websockets/test_trading_with_sockets.py:43-219 | the older variant never reads `time_left`, so never raises |
| SimTraderProps.RaisesOnFirstOnly | crypto/mm_range/mm_websockets/test_trading.py:105-124 | an update raises UnboundLocalError iff its first contract lacks `time_left_sec` |
| SimTraderProps.RoundQuotes | crypto/mm_range/mm_websockets/test_trading.py:275-315 | after an update, the quotes to fill against are this round's (plus leftovers) in this file, and the older variant's in place |
| DataRow.CollectOrderbook | crypto/data_collector/utils.py:66-94 | the append loops compute the conversion: YES levels at p/divisor, NO at (100 - p)/divisor, listed order, nothing sorted; failures give (None, None) |
| DataRow.CollectedLevels | crypto/data_collector/utils.py:83-89 | one level per listed level in order with its quantity; in cents these are the other helpers' bids and asks before sorting |
| DataRow.FixedKeysCount | crypto/data_collector/utils.py:125-131 | the five fixed keys are distinct |
| DataRow.FixedRowEntries | crypto/data_collector/utils.py:125-131 | the dict literal holds exactly the five fixed keys with the constructor's values |
| DataRow.DataRowObj.constructor | crypto/data_collector/utils.py:115-122 | the fields are stored as given, with None and empty-list defaults |
| DataRow.DataRowObj.MakeDataRow | crypto/data_collector/utils.py:124-141 | the row holds the five fixed fields, `bid_{i+1}_price/quantity` and `ask_{i+1}_price/quantity` for each level, and exactly 5 + 2*bids + 2*asks keys |
| DataRow.AddLevels | crypto/data_collector/utils.py:133-139 | one enumerate loop adds exactly the side's keys, two per level, keeps every earlier entry and stores each level |
| DataRow.SideKeysCount | crypto/data_collector/utils.py:133-139 | n levels of a side contribute 2n distinct keys |
| DataRow.RowSize | crypto/data_collector/utils.py:124-141 | a row with n new levels has 2n more entries |
| DataRow.StoresNext | crypto/data_collector/utils.py:134-135 | writing level i's two keys stores one more level |
| DataRow.DecimalInjective | crypto/data_collector/utils.py:134 | different positions print differently |
| DataRow.FieldKeyInjective | crypto/data_collector/utils.py:134-139 | two level keys are equal iff side, position and field are equal |
| DataRow.FieldKeyNotFixed | crypto/data_collector/utils.py:125-139 | no level key clashes with a fixed key |
| DataRow.LevelKeysApart | crypto/data_collector/utils.py:134-135 | a level's price and quantity keys are new and different |
| DataRow.SidesApart | crypto/data_collector/utils.py:124-139 | the fixed, bid and ask keys never meet |
| DataRow.SideKeysAre | crypto/data_collector/utils.py:133-139 | a side's keys are exactly the price and quantity keys of positions below n |

## Left out

- Network, persistence and concurrency are not modelled. This covers:
  - ccxt and REST/WebSocket fetching, reconnect loops and asyncio tasks;
  - the subscription watchdog and PostgreSQL;
  - printing, `debug_print` and `emit`.

  Each decoded message or HTTP response is an input value.
- Floating point is not modelled. Prices and sizes are exact `real`s.
  - `np.sqrt` and `np.exp` are parameters (`IndexCalc.Numerics`), and the
    mean and standard deviation are exact over reals.
  - The engine's `now_ms()` is a parameter read once per `calc`, where the
    source reads it once per venue.
- IndexCap.Cap: does not compute float rounding; `k` is computed with integer
  division, which equals `int(.01 * n)` for the sample sizes that occur
  (n <= 100).
- IndexCurve.SpreadOk: a zero mid makes numpy divide to inf, -inf or nan.
  This is modelled by sign only; only -inf (a negative ask) passes.
- IndexFilters.InBand: a zero median makes numpy produce inf or nan. This is
  modelled as "nothing passes".
- The options maths (`binary_call_price`, implied volatility and the rest),
  Kalshi signing and order calls, and the UI and dashboards are not
  modelled. They are float closed forms, cryptographic or HTTP library calls,
  or presentation.
- `OrderBookProcessor.create_df` and `aggregate_levels` are not modelled.
  They are pandas binning and DataFrame assembly.
- `crypto/data_collector/collect_data.py` is not part of this model
  (thread pool, CSV and Playwright).
- The data row is a `map`, so the insertion order of the keys of
  `make_data_row`'s dict is not modelled. The two `enumerate` loops are one
  helper method (`DataRow.AddLevels`) called once per side.
- The unrealised and realised totals that `handle_update` prints
  (test_trading.py lines 293-298 and 306-311) only feed output. Only their
  defaultdict reads are modelled.
- The module-level `sio.connect` and the undefined `app` at
  test_trading_with_sockets.py lines 234-243 are not modelled. They are
  start-up code.
- The `:02` formatting of hours, minutes and seconds is not modelled. The
  `int()` of `total_seconds()` is not modelled either: the split takes an
  integer number of seconds as input.
- SimTraderProps.UpdateLogsOnce: assumes each contract's trade list has
  distinct ids. A list repeating an id within one update would fill it once
  per repetition.
- KalshiFeed.Body: a message field read with `msg["key"]` is modelled by a
  set of present keys. JSON types other than those read (strings, integers,
  level lists, null) are not modelled.
- KalshiSeqTracker.SeqTracker: a reconnect builds a fresh client whose
  counter is 0 again. The websocket library's `on_error` and `on_close`
  callbacks are not modelled.
- L2OrderBook: `float()` on a level's `px` and `qty` strings is the
  parameter `toReal`, a total function. The ValueError `float` raises on a
  malformed string (crypto/orderbook.py lines 46-47 and 50-51) is not
  modelled, nor is a `json.loads` error (lines 10 and 20).
- L2OrderBook.OrderBookProcessor.constructor: requires at least one event.
  On a snapshot with an empty `events` list, crypto/orderbook.py line 11
  raises IndexError; the model leaves that case to the caller.
- SimTrader.Contract: `mm_bid`, `mm_ask`, `spread`, `mid_price` and `trades`
  are always present in the model. In the source a missing one raises:
  - `trades.get` on None raises AttributeError (test_trading.py line 116,
    test_trading_with_sockets.py line 55);
  - `{spread:.2f}` on None raises TypeError (lines 127 and 59);
  - `mm_bid + 1` raises TypeError once `int(spread) > 2` (test_trading.py
    line 272).
- KalshiMarketMaker.MarketMaker.ProcessTrade: `process_trade` ends at line
  139 in the source, mid-branch. The model ends there too: a trade is logged
  and tallied, and positions, averages and PnL are never updated.

## Findings

| source | as written | input that shows it | evidently intended | confidence | as-written member | corrected member |
|---|---|---|---|---|---|---|
| crypto/testing_market_sockets/direct_market_sockets_test.py:83-84 | `update_orderbook_delta` flips the price to `100 - price` only for side `'NO'`. Kalshi sends and the books use `'no'`, so the flip never fires: a `'NO'` delta raises KeyError and a `'no'` delta updates the raw price. The snapshot handler (line 100) stores NO levels at `100 - p`. | a snapshot with NO level (30, 5), so 5 contracts sit at 70, then a `'no'` delta of +1 at price 30 | a NO delta adjusts the level the snapshot stored: the level at 70 becomes 6 | not executed | KalshiMarketMaker.NoDeltaMissesSnapshotLevel | KalshiMarketMaker.NoDeltaFindsSnapshotLevel |

The class `KalshiMarketMaker.MarketMaker` and the loop `DirectStepOf` keep
the delta handler as written (`DeltaOfAsWritten`); `AsWrittenNeverFlips`
states that it addresses the raw price. `DeltaOf` is the corrected handler,
which flips side `'no'`, and `NoDeltaFindsSnapshotLevel` is proved about it.
The delta lemmas (`DeltaKeepsValid`, `DeltaUpdatesOneLevel`,
`DeltaRequotesItsMarket`, `DeltaStores`, `DeltaKeepsQuotesCurrent`) are
stated for whatever price the handler addresses, so they hold for both.
