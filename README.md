# ORCL real-time stock analytics: trend signals and stream archiving

This project models the two parts of the stock-analytics pipeline that make
decisions, and proves properties of the models:

- **The trend analyzer** (`lambda/trend_analyzer/lambda_function.py`) runs on
  a timer. It queries the `stock-data` table for the last two hours of ORCL
  rows in ascending timestamp order. With fewer than five rows it sends a
  "pipeline test" heartbeat. Otherwise it computes the current price, SMA-5,
  SMA-20 and a 3-point price trend, and decides BUY, SELL or no signal with an
  ordered rule chain. Every invocation publishes exactly one notification:
  an alert, an update, the heartbeat, or an error report with status 500.
  Module `TrendAnalyzer` models it as pure functions. The query is a
  function over the table, and the published notification is part of the
  returned `Invocation`.
- **The stream processor** (`lambda/data_processor/lambda_function.py`)
  handles Kinesis batches. It processes each record in order. It decodes the
  JSON payload and archives the decoded object, serialised again with
  `json.dumps`, under
  `stock-data/<Y/m/d/H>/<ticker>_<sequence number>.json`. Then it upserts a
  normalised row keyed by (ticker, timestamp). Missing `close`, `high`, `low`
  and `open` take the value of `price`, and a missing `volume` becomes 0.
  Module `DataProcessor` models the two stores as the fields of class
  `Stores`. The handler is a loop method whose result and new state are tied
  to the pure specification `RunBatch`.
- Module `StockData` holds what both share: the stored `Row`, its key, the
  table as a map and the upsert.

Clock readings, the store backends' availability and the decoded payloads
are inputs: `now` for the analyzer, and per record an `Env` with the
formatted hour path and whether each write succeeds.

Consequences of the code that the proofs make explicit:

- The handler has no per-record error handling: the first record that fails
  ends the batch, and the records after it are never processed
  (`AbortedStopsAtFailure`, `AbortIsFinal`).
- The first rule of the signal chain needs only a rising trend and SMA-5
  above SMA-20: SMA-5 10.01 over SMA-20 10 with trend +0.1 is BUY
  (`SmallUptickAboveLongAverageIsBuy`).
- For fewer than 10 rows the SMA-20 fallback computes the same value as the
  main branch would (`Sma20FallbackAgrees`). With exactly five rows the two
  averages coincide, so only the significant-move rule can signal
  (`FivePointsOnlySignificantMoves`).

## Model

| member | source | states |
|---|---|---|
| `StockData.Upsert` | lambda/data_processor/lambda_function.py:30-41 | the written row is stored under its (ticker, timestamp) key; every other key keeps its presence and its row; rows stay under their own keys |
| `StockData.UpsertIdempotent` | lambda/data_processor/lambda_function.py:30-41 | upserting the same row twice gives the same table as upserting it once |
| `TrendAnalyzer.Query` | lambda/trend_analyzer/lambda_function.py:14-29 | the query returns exactly the table's ORCL rows with timestamp in [start, end]: each is a stored row, in range, strictly ascending by timestamp, and every such stored row is among them |
| `TrendAnalyzer.Last` | lambda/trend_analyzer/lambda_function.py:56-57 | Python's `prices[-k:]`: the whole sequence when n <= k, otherwise a suffix of length k that completes the sequence after its first n - k elements |
| `TrendAnalyzer.MeanWithin` | lambda/trend_analyzer/lambda_function.py:56-57 | a mean lies within any lower and upper bound of the values averaged |
| `TrendAnalyzer.Sma5IsBoundedMean` | lambda/trend_analyzer/lambda_function.py:56 | SMA-5 is the mean of the last min(5, n) prices and lies between their minimum and maximum, hence within the range of all prices |
| `TrendAnalyzer.Sma20IsBoundedMean` | lambda/trend_analyzer/lambda_function.py:57 | SMA-20 is the mean of the last min(20, n) prices when n >= 10 and of all n prices otherwise, and lies within the range of the prices it averages |
| `TrendAnalyzer.Sma20FallbackAgrees` | lambda/trend_analyzer/lambda_function.py:57 | for n < 10 the fallback's value equals what the main branch would compute |
| `TrendAnalyzer.FivePointAveragesCoincide` | lambda/trend_analyzer/lambda_function.py:56-57 | with exactly five prices SMA-5 equals SMA-20 |
| `TrendAnalyzer.Sma5Example` | lambda/trend_analyzer/lambda_function.py:56 | SMA-5 of [10, 11, 12, 13, 14] is 12, and of [10, 11, 12] it is 11 |
| `TrendAnalyzer.Sma20EightPointExample` | lambda/trend_analyzer/lambda_function.py:57 | with eight prices SMA-20 is the mean of all eight |
| `TrendAnalyzer.PriceTrend` | lambda/trend_analyzer/lambda_function.py:61-62 | the trend is defined exactly when there are at least three prices |
| `TrendAnalyzer.Decide` | lambda/trend_analyzer/lambda_function.py:60-68 | the rule chain gives BUY iff trend > 0 and (SMA-5 > SMA-20 or trend > 1.0), and SELL iff trend < 0 and (SMA-5 < SMA-20 or trend < -1.0); so BUY implies a rising trend, SELL a falling one, and a zero trend no signal |
| `TrendAnalyzer.SmallUptickAboveLongAverageIsBuy` | lambda/trend_analyzer/lambda_function.py:63-64 | SMA-5 10.01 over SMA-20 10 with trend 0.1 is BUY; 12 over 10 with trend 2 is BUY |
| `TrendAnalyzer.SignalOf` | lambda/trend_analyzer/lambda_function.py:60-68 | no signal is produced with fewer than three prices |
| `TrendAnalyzer.FivePointsOnlySignificantMoves` | lambda/trend_analyzer/lambda_function.py:56-68 | with five prices the signal is BUY iff the trend exceeds 1.0, SELL iff it is below -1.0, and none otherwise |
| `TrendAnalyzer.Evaluate` | lambda/trend_analyzer/lambda_function.py:32-69 | fewer than five rows give the heartbeat with the row count, whatever the prices; otherwise an alert or an update carrying the last row's price, SMA-5, SMA-20 and the row count, an alert exactly when the rule chain gives a signal; the computation never fails |
| `TrendAnalyzer.Handler` | lambda/trend_analyzer/lambda_function.py:17-122 | exactly one notification is published; a query error gives the error subject with its detail and status 500, every other path status 200; a short window gives the test subject and "test alert sent"; with five or more rows, a signal from the rule chain gives that signal's alert subject with the last row's price and the reply naming the signal, and no signal gives the update subject with that price and "update sent" |
| `TrendAnalyzer.ReportedPriceIsLatest` | lambda/trend_analyzer/lambda_function.py:26-53 | the last row returned is a stored ORCL row in the window whose timestamp is at least that of every such row, and any alert or update reports its price |
| `TrendAnalyzer.AlertFollowsTrend` | lambda/trend_analyzer/lambda_function.py:52-68 | an evaluation yields an alert only with at least five rows, BUY only when the last price exceeds the one two rows earlier, SELL only when it is below it |
| `TrendAnalyzer.SignalFollowsTrend` | lambda/trend_analyzer/lambda_function.py:61-91 | a BUY alert is sent only when the last price exceeds the one two rows earlier, a SELL alert only when it is below it, and neither with fewer than five rows |
| `DataProcessor.ArchiveKeyInjective` | lambda/data_processor/lambda_function.py:20-21 | for fixed-width hour paths and sequence numbers without `_`, equal archive keys imply equal hour, ticker and sequence number; distinct tickers or sequence numbers give distinct keys |
| `DataProcessor.Trunc` | lambda/data_processor/lambda_function.py:33 | `int()` of a float truncates toward zero |
| `DataProcessor.Normalise` | lambda/data_processor/lambda_function.py:31-40 | the row exists iff ticker, timestamp and price are present and convert and every present optional field converts; then ticker, timestamp and price are the payload's; close, high, low and open are their own values when present and the price when absent; volume is its own value or 0 |
| `DataProcessor.CloseDefaultsToPriceExample` | lambda/data_processor/lambda_function.py:31-40 | an ingestion payload without `close` is stored with close = price and a truncated timestamp |
| `DataProcessor.RecordStep` | lambda/data_processor/lambda_function.py:14-41 | a record succeeds iff it decodes, its row builds and both writes go through; then it performed exactly one archive write of the decoded payload under its key, followed by one upsert of its row; a failed record performed at most the archive write and never an upsert |
| `DataProcessor.FailedRecordArchivesIffReached` | lambda/data_processor/lambda_function.py:15-41 | a failed record leaves an archive object iff it decoded, had a usable ticker and the archive write went through |
| `DataProcessor.CompletedIffAllSucceed` | lambda/data_processor/lambda_function.py:14-43 | the batch returns status 200 iff every record succeeds |
| `DataProcessor.CompletedWritesInOrder` | lambda/data_processor/lambda_function.py:14-41 | a completed batch wrote 2n times: for record i, write 2i is its archive write and write 2i+1 its upsert |
| `DataProcessor.AbortedStopsAtFailure` | lambda/data_processor/lambda_function.py:14-41 | a batch aborted at record i succeeded on every earlier record, failed on record i with the reported failure, and performed only the earlier records' writes plus record i's partial writes |
| `DataProcessor.AbortIsFinal` | lambda/data_processor/lambda_function.py:14-41 | records after the failing one are never processed: appending records changes nothing |
| `DataProcessor.ApplyWritesWellKeyed` | lambda/data_processor/lambda_function.py:30-41 | whatever is written, every table row stays under its own (ticker, timestamp) key |
| `DataProcessor.LastWriteWins` | lambda/data_processor/lambda_function.py:23-41 | after a sequence of writes every table key and archive key holds the last value written to it, and unwritten keys keep their old contents |
| `DataProcessor.ReplayIdempotent` | lambda/data_processor/lambda_function.py:23-41 | replaying an identical write sequence leaves both stores unchanged |
| `DataProcessor.RedeliveryKeepsTable` | lambda/data_processor/lambda_function.py:15-41 | a record that succeeds again, at any hour and with any archive state, leaves the table as its first delivery left it |
| `DataProcessor.RecordTouchesOnlyItsKey` | lambda/data_processor/lambda_function.py:30-41 | a processed record stores its row under its (ticker, timestamp) key and leaves every other key's row as it was |
| `DataProcessor.Stores.PutObject` | lambda/data_processor/lambda_function.py:23-27 | a successful put stores the body under the key; the table is unchanged |
| `DataProcessor.Stores.PutItem` | lambda/data_processor/lambda_function.py:30-41 | a successful put upserts the row; the archive is unchanged |
| `DataProcessor.Stores.ProcessRecord` | lambda/data_processor/lambda_function.py:15-41 | one loop iteration reports the record's failure and leaves the stores as its writes make them |
| `DataProcessor.Stores.Handle` | lambda/data_processor/lambda_function.py:11-43 | the handler's result and the new stores are those of `RunBatch`: records in order, stopping at the first failure |

## Left out

- The market-data fetcher and the stream publisher (`data_ingestion.py`, `lambda/data_ingestion/lambda_function.py`): they only build a dict from a provider sample and send it on; the poller's endless loop and sleep are not modelled.
- The network calls themselves (`table.query`, `sns.publish`, `s3.put_object`, `table.put_item`): they are a map read, a returned notification and map updates, with each write's success given as an input.
- Handler: a failing `sns.publish` is not modelled. In the code a failed alert publish would divert into the error branch, and a failed error publish would end the invocation without a status.
- The clock: `now`, the hour path `%Y/%m/%d/%H` and the window bounds are inputs. Every `datetime.now()` call of one analyzer invocation is taken as the same instant `now`: the window [now - 7200, now] and the time each notification message reports.
- Redelivery in a later hour: the hour path comes from the clock, so such a redelivery writes a second archive object under a different key. Only the table is unchanged (`RedeliveryKeepsTable`).
- Floating point and `Decimal`: prices are exact reals. `float()` conversion, `str()` of floats and the `:.2f` formatting are not modelled. Notifications carry their values, not their text.
- Base64 and JSON decoding: a record carries its decoded object, or none when decoding fails.
- AsInt: `int()` of a JSON string is treated as a conversion error, because numeric string parsing is not modelled. Python would parse a numeric string.
- AsDecimal: `Decimal(str())` of a JSON string is treated as a conversion error, because numeric string parsing is not modelled. Python would accept a numeric string.
- TickerOf: a non-string `ticker` is rejected before the archive write. In the code, `str()` of it would name the archive object, and only the table write would then fail.
- Environment lookups (`SNS_TOPIC_ARN`, `RAW_DATA_BUCKET`) are constants and are not modelled. A missing topic variable would make the publish itself fail.
