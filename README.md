# EVM block profiler: classification and aggregation core

This project is a Dafny model of the engine in `block_profiler.py`. The
profiler walks a range of EVM blocks and classifies every transaction whose
receipt arrives into one of eight types. It then accumulates per-type
statistics, totals, a top-contract counter and a top-token counter. The
model covers three parts:

- **`classify_from_logs`** (module `LogClassifier`). The token-standard
  classification of a receipt's event logs is a pure function:
  - ERC-20 for `Transfer` with an amount;
  - ERC-721 for `Transfer` without one;
  - ERC-1155 for `TransferSingle`/`TransferBatch`;
  - mixed activity when more than one standard is present;
  - a plain contract call otherwise.

  The dominant token is the first most common emitting address, as
  `Counter.most_common(1)` picks it. Python's insertion-ordered `Counter` is
  modelled in module `Counters`.
- **The full decision and `profile_chunk`** (modules `TxClassifier`,
  `Aggregation`, `ChunkProfiler`, `ChunkProperties`).
  - The decision: contract creation when `to` is absent, then the logs,
    then the value and contract-code fallback.
  - `contract_cache` is an insert-if-absent class.
  - The chunk's accumulators are a class updated in place per transaction.
  - The block loop and the transaction loop are methods. Each has loop
    invariants and is proved against a specification function, covering
    the per-chunk transaction cap, skipped receipts and the 13-field CSV row.
- **`profile_range`** (modules `RangeProfiler`, `RangeProperties`). It
  checks the range and splits `[start, end]` into consecutive chunks of at
  most `chunk_size` blocks. It calls `profile_chunk` on each chunk and merges
  the chunk summaries into the overall summary.

The RPC endpoint is an input, `ChunkProfiler.Node`: a block for each number
and a `get_code` oracle for each address. A block lists its transactions in
the order their receipt fetches complete, and each transaction either has a
receipt or does not (the fetch raised). Wei and gas sums are unbounded
integers.

Three behaviours of the code are easy to misread, and the model follows the
code:
- The CSV header the code writes (block_profiler.py:292-297) has 13 columns,
  with `other_contract_call` before `mixed_token_activity` and a trailing
  `other_eoa_call`; each row has the same 13 fields (`ChunkProperties.RowFields`).
- The code passes the whole `tx_cap` to every chunk, so the cap holds per
  chunk (`ChunkProperties.ProgressCap`). It is not a remaining global budget:
  a range can count up to `chunks * max(tx_cap, 1)` transactions
  (`RangeProperties.RangeCap`).
- With a cap of 0 or less, a chunk still processes its first block. It stops
  after at most one counted transaction, or after that block if none counted.

## Model

| member | source | states |
|---|---|---|
| TxTypes.Column | block_profiler.py:166-169 | every type has exactly one type column of a CSV row, in `DEFAULT_TYPES` order |
| LogClassifier.SignaturesDistinct | block_profiler.py:51-53 | the three event signatures stay distinct after lower-casing, so one log matches at most one of them |
| LogClassifier.KindOf | block_profiler.py:77-94 | defines the kind of one log: none without topics, `Transfer` split on whether `data` carries an amount, ERC-1155 for either multi-token signature, none otherwise; its meaning is stated by `CountKindSpec`, `TransferSplitsOnData` and `EmptyTopicsIgnored` |
| LogClassifier.CountKindSpec | block_profiler.py:74-95 | a counter is non-zero iff some log is of its kind, and it is at most the number of logs |
| LogClassifier.TokenAddressesSpec | block_profiler.py:90-95 | the counted token addresses are non-empty, and there are none iff every token-signature log has an empty address |
| LogClassifier.Decide | block_profiler.py:97-105 | defines the decision on the three standard counters and the dominant token; `ClassifyFromLogsDecision` states its table case by case, as iffs |
| LogClassifier.ClassifyFromLogs | block_profiler.py:72-105 | defines `classify_from_logs` as the decision on the counters of the logs; its meaning is stated by `ClassifyFromLogsDecision` (the type) and `DominantToken` (the token) |
| LogClassifier.ClassifyFromLogsDecision | block_profiler.py:97-105 | one standard present (and no other) gives that standard, two or more give mixed activity, and no token-signature log at all gives `other_contract_call`; each as an iff |
| LogClassifier.DominantToken | block_profiler.py:90-105 | the token is None for a plain call; for a token type it is None iff no token log has an address; otherwise it is an address of maximal count, the first seen among tied ones |
| LogClassifier.CountKindAppend | block_profiler.py:76-95 | each counter of two log runs is the sum of their counters |
| LogClassifier.TokenAddressesAppend | block_profiler.py:90-95 | the token addresses of two log runs are theirs one after the other |
| LogClassifier.DropUnrelatedCount | block_profiler.py:78-95 | removing a log of no token signature leaves every counter unchanged |
| LogClassifier.DropUnrelatedAddresses | block_profiler.py:78-95 | removing a log of no token signature leaves the token addresses unchanged |
| LogClassifier.EmptyTopicsIgnored | block_profiler.py:77-79 | a log with no topics, inserted anywhere, does not change the classification |
| LogClassifier.TransferSplitsOnData | block_profiler.py:85-89 | a single `Transfer` log is ERC-20 iff its `data` is neither empty nor `"0x"`, and ERC-721 iff it is |
| LogClassifier.AllTransfersOneStandard | block_profiler.py:85-100 | logs that are all `Transfer` with an amount are ERC-20; all `Transfer` without one are ERC-721 |
| LogClassifier.TransferAndMultiTokenIsMixed | block_profiler.py:85-104 | a `Transfer` log together with an ERC-1155 log gives mixed token activity |
| TxClassifier.Classify | block_profiler.py:200-212 | defines the full decision of one transaction; `ClassifyDecisionTable` states it case by case, and `ClassifyWithCache` is proved to compute it |
| TxClassifier.ClassifyDecisionTable | block_profiler.py:200-212 | creation iff `to` is absent, with no token; a token type iff a token log is present, with the log classifier's answer; ETH transfer iff no token log and value > 0; EOA call iff no token log, no value, check on and no code; plain call otherwise; the fallback types carry no token |
| TxClassifier.ContractCache.constructor | block_profiler.py:170 | the cache starts empty with nothing queried |
| TxClassifier.ContractCache.IsContract | block_profiler.py:65-70 | the answer is the oracle's code test (non-empty, not `0x00`, a failed call counts as no code); an address already cached is not queried again, and a new one is queried once and cached |
| TxClassifier.ClassifyWithCache | block_profiler.py:200-212 | the cached decision equals the pure decision; the cache is touched only on the no-token, no-value, check-on path, and then gains at most the lower-cased `to` address |
| Counters.AddSpec | block_profiler.py:91 | `c[k] += n` changes only `k`'s count, and a new key goes last |
| Counters.TallyCounts | block_profiler.py:75-95 | each count of a tally is the number of occurrences, and its keys are exactly the elements met |
| Counters.TallyKeysPrefix | block_profiler.py:75-95 | the keys of a tally are in order of first appearance |
| Counters.FirstMaxSpec | block_profiler.py:96 | no key has a larger count than the first maximum, and every key before it has a smaller one |
| Counters.MostCommon | block_profiler.py:96 | defines `most_common(1)` as the first key of maximal count; its meaning is stated by `MostCommonSpec`, `TiedSeenFirst` and `MostCommonOfTally` |
| Counters.MostCommonSpec | block_profiler.py:96 | `most_common(1)` is None iff the counter is empty, and otherwise a key no count exceeds |
| Counters.TiedSeenFirst | block_profiler.py:96 | an element tied with the most common one has the most common one at or before it |
| Counters.MostCommonOfTally | block_profiler.py:96 | the most common element of a sequence is None iff it is empty; otherwise it occurs at least as often as any other and is the first seen among those occurring as often |
| Counters.MergeShape | block_profiler.py:353-356 | a partial merge is well formed, and its keys are those of either counter |
| Counters.MergeCountAt | block_profiler.py:353-356 | after merging the first `n` keys of `c`, each count is the old count plus `c`'s count if the key is among them |
| Counters.MergeSpec | block_profiler.py:353-356 | merging adds counts key by key, the keys are the union, and the accumulator's keys keep their places |
| Counters.MergeKeysGrow | block_profiler.py:353-356 | merging never reorders or drops the accumulator's keys |
| Counters.AddAll | block_profiler.py:353-356 | the loop `acc[addr] += c` over a counter's items computes the merge |
| Counters.MergeAddOne | block_profiler.py:353-356 | merging a counter with one more occurrence of `k` is merging, then counting `k` once more |
| Aggregation.AddressTallyCounts | block_profiler.py:223-226 | the top-contract and top-token counters count each lower-cased, non-empty address once per transaction that carries it, and list exactly those addresses |
| Aggregation.Only | block_profiler.py:214-218 | the transactions that land in a type's bucket: each is of that type, and every transaction of that type is among them |
| Aggregation.Tabulate | block_profiler.py:214-218 | defines the `tx_type_stats` table of a run of counted transactions; its meaning is stated by `TabulateIsPerTypeSums`, `TabulateTotals` and `MergeTabulate` |
| Aggregation.TabulateIsPerTypeSums | block_profiler.py:214-218 | each bucket is the count and the gas, gas-price and value sums of the transactions of its type; a type has a bucket iff one of them counted |
| Aggregation.TotalBump | block_profiler.py:214-221 | one counted transaction raises the summed counts by one and the summed values by its value |
| Aggregation.TabulateTotals | block_profiler.py:214-221 | the bucket counts add up to `total_tx` and the bucket values to `total_eth_wei` |
| Aggregation.OnlyAppend | block_profiler.py:214-218 | the transactions of a type in two runs are theirs one after the other |
| Aggregation.SumsAppend | block_profiler.py:216-218 | the gas, gas-price and value sums distribute over two runs |
| Aggregation.AddressCountAppend | block_profiler.py:223-226 | address counts distribute over two runs |
| Aggregation.ExpectedAppend | block_profiler.py:346-351 | adding the buckets of two runs of one type gives the bucket of both runs |
| Aggregation.MergeTabulate | block_profiler.py:346-351 | merging the tables of two runs gives the table of the runs one after the other |
| Aggregation.MergeTally | block_profiler.py:353-356 | merging the address counters of two runs gives the counter of the runs one after the other, key order included |
| Aggregation.Step | block_profiler.py:214-226 | defines one transaction's update of the chunk's accumulators; its meaning is stated by `StepAllMeaning` and `TotalBump`, and `ChunkAccumulator.Count` is proved to perform it |
| Aggregation.StepAllAppend | block_profiler.py:175-226 | counting one run and then another is counting both |
| Aggregation.StepAllMeaning | block_profiler.py:162-226 | the chunk's running totals are the per-type table, the count, the value sum and the two address tallies of what it counted |
| Aggregation.ChunkAccumulator.constructor | block_profiler.py:162-165 | the accumulators start empty and zero |
| Aggregation.ChunkAccumulator.Count | block_profiler.py:214-226 | counting a transaction updates the bucket, the totals and both counters as one `Step` |
| ChunkProfiler.BlockCounts | block_profiler.py:183-229 | defines the transactions of a block that count, in completion order; its meaning is stated by `BlockCap`, `FailedFetchSkipped` and `NoCapCountsReceipted`, and `CountBlock` is proved to compute it |
| ChunkProfiler.Progress | block_profiler.py:175-242 | defines the blocks the block loop processes after `k` passes; its meaning is stated by `ProgressCap`, `ProgressShape` and `ChunkBlocks`, and `ProcessBlocks` is proved to compute it |
| ChunkProfiler.BlockRow | block_profiler.py:231-239 | defines a block's CSV row; its meaning is stated by `RowFields` and `ColumnsAddUp`, and `BuildRow` is proved to compute it |
| ChunkProfiler.Summarize | block_profiler.py:252-272 | defines a chunk's summary of a run of counted transactions; its meaning is stated by `SummaryOfTotals` and `ChunkConsistent` |
| ChunkProfiler.Probes | block_profiler.py:204-210 | defines the addresses whose code is checked for a run of counted transactions; its meaning is stated by `ProbesMeaning` |
| ChunkProfiler.ProbedOf | block_profiler.py:204-210 | a counted transaction reaches the contract-code check iff it has a `to`, its logs classify as a plain contract call, it carries no value and the check is on |
| ChunkProfiler.ProbesMeaning | block_profiler.py:204-210 | an address is checked for a run iff it is the lower-cased `to` of one of its transactions that reaches the check |
| ChunkProfiler.ProbesAppend | block_profiler.py:204-210 | the addresses checked for two runs are the union of theirs |
| ChunkProfiler.BlockStoppedStays | block_profiler.py:228-229 | once the transaction loop has hit the cap, later entries of the block count nothing |
| ChunkProfiler.HaltedStays | block_profiler.py:241-242 | once the block loop has stopped on the cap, later blocks are not processed |
| ChunkProfiler.LoopExit | block_profiler.py:175-242 | leaving the block loop, on the cap or past `end`, leaves exactly the processed blocks `Progress` describes |
| ChunkProfiler.TypeColumnsSpec | block_profiler.py:233-234 | column `j` of a row is the block's count of the `j`-th default type |
| ChunkProfiler.TypeCountsSpec | block_profiler.py:220 | `block_counts[t]` is the number of counted transactions of type `t` in the block |
| ChunkProfiler.SummaryOfTotals | block_profiler.py:252-272 | the summary built from the running totals is the summary of the transactions counted |
| ChunkProfiler.CountTx | block_profiler.py:190-226 | a transaction with a receipt is classified with the cache and counted as one `Step`; the cache gains the lower-cased `to` exactly when the transaction reaches the code check, and the lookups made so far are kept |
| ChunkProfiler.CountEntry | block_profiler.py:190-226 | one pass over an entry whose receipt arrived, before the cap, extends the block's counted transactions by one and keeps the chunk totals, the block's type counts and gas sum, and the cache's addresses equal to those of the extended run; the lookups made so far are kept |
| ChunkProfiler.CountBlock | block_profiler.py:179-229 | the transaction loop counts exactly the block's run (receipts arrived, up to the cap), adds it to the totals, and returns its type counts and gas sum; the cache gains the addresses of the run's transactions that reach the code check, and the lookups made so far are kept |
| ChunkProfiler.BuildRow | block_profiler.py:231-239 | the row is number, timestamp, `len(txs)`, the eight type counts, the block's gas used (else the receipts' sum) and gas limit |
| ChunkProfiler.ProfileBlock | block_profiler.py:176-239 | one block is fetched and counted, its row is built, and the cache gains the addresses its counted transactions check; the lookups made so far are kept |
| ChunkProfiler.ProcessBlocks | block_profiler.py:175-242 | the block loop processes the blocks `Progress` describes, writes one row each, leaves the totals of what they counted, and leaves the cache valid, holding exactly the addresses their transactions check; the lookups made so far are kept |
| ChunkProfiler.ProfileChunk | block_profiler.py:157-273 | the chunk's summary and rows are those of the counted transactions of `ProfileRuns`; its contract-code lookups are exactly the lower-cased `to` addresses of the counted transactions that reach the check, and no address is looked up twice |
| ChunkProperties.BlockCap | block_profiler.py:228-229 | within a block, the count stops at the cap, or one past the earlier count if that already reached it |
| ChunkProperties.ProgressCap | block_profiler.py:228-242 | one chunk counts at most `max(tx_cap, 1)` transactions |
| ChunkProperties.ProgressShape | block_profiler.py:175-242 | after `k` passes at most `k` blocks are processed, and fewer only once the cap is reached |
| ChunkProperties.ChunkBlocks | block_profiler.py:175-242 | a chunk processes every block of its range unless the cap stopped it |
| ChunkProperties.RowsOfShape | block_profiler.py:231-239 | one row per processed block, in block order, each the row of that block's counted transactions |
| ChunkProperties.RowFields | block_profiler.py:232-238 | a row has the 13 fields of the header (lines 292-297), with the type counts in the header's column order |
| ChunkProperties.ColumnSumAppend | block_profiler.py:231-239 | a column's sum over two runs of rows is the sum of theirs |
| ChunkProperties.ColumnsAddUp | block_profiler.py:220-234 | summed over the rows, a type's column is the number of counted transactions of that type |
| ChunkProperties.ChunkConsistent | block_profiler.py:214-239 | the type counts add up to `total_tx`, the type values to `total_eth_wei`, and each type's count is its column's sum over the CSV rows |
| ChunkProperties.NoCapCountsReceipted | block_profiler.py:183-190 | without a cap, every transaction whose receipt arrived counts, and a failed fetch contributes nothing |
| ChunkProperties.FailedFetchSkipped | block_profiler.py:185-188 | whatever the cap, an entry whose receipt fetch failed is skipped: the block counts exactly what it would count without that entry |
| ChunkProperties.NoCapProcessesAll | block_profiler.py:175-242 | without a cap, every block of the chunk is processed, each counting all its receipted transactions |
| RangeProfiler.Chunks | block_profiler.py:330-359 | defines the chunk spans of `[cur, end]`; its meaning is stated by `ChunksEnds`, `ChunksWidths`, `ChunksConsecutive` and `ChunksCovered` |
| RangeProfiler.ChunksEnds | block_profiler.py:330-333 | no chunks iff the range is empty; otherwise the first starts at `start` and the last ends at `end` |
| RangeProfiler.ChunksWidths | block_profiler.py:333 | every chunk holds between 1 and `chunk_size` blocks, and every chunk but the last exactly `chunk_size` |
| RangeProfiler.ChunksConsecutive | block_profiler.py:333-359 | each chunk starts right after the previous one ends |
| RangeProfiler.ChunksCovered | block_profiler.py:331-358 | the progress updates add up to `end - start + 1` |
| RangeProfiler.AsWrittenNeverEnds | block_profiler.py:330-359 | with `chunk_size < 1` the cursor of the loop as written never passes `start`, so it never exceeds `end` |
| RangeProfiler.MergeStatsInto | block_profiler.py:346-351 | the loop over the chunk's buckets, in any order, computes the field-by-field merge |
| RangeProfiler.Absorb | block_profiler.py:342-356 | defines the merge of one chunk summary into the overall accumulators; its meaning is stated by `AbsorbCounts` and `RangeIsOnePass`, and `AbsorbChunk` is proved to compute it |
| RangeProfiler.AbsorbChunk | block_profiler.py:342-356 | one chunk summary is added into the overall totals, buckets and counters |
| RangeProfiler.ProfileRange | block_profiler.py:280-359 | `end < start` is an error; a chunk size below one is an error; otherwise the result is the merge of every chunk's summary in order, and the rows are every chunk's rows in order |
| RangeProperties.AbsorbCounts | block_profiler.py:342-356 | absorbing a chunk's summary into the totals of earlier transactions gives the totals of both |
| RangeProperties.RangeIsOnePass | block_profiler.py:326-359 | the merged accumulators after any chunks are those of one pass over everything the chunks counted, in order |
| RangeProperties.RangeReportIsSummary | block_profiler.py:326-359 | the overall summary of `[start, end]` is the summary of all transactions the chunks counted |
| RangeProperties.RangeColumns | block_profiler.py:334-341 | over all chunks' CSV rows, a type's column adds up to that type's count of counted transactions |
| RangeProperties.RangeConsistent | block_profiler.py:342-349 | the merged counts add up to the merged `total_tx`, the merged values to the merged ETH total, and each type's merged count to its column over all rows |
| RangeProperties.RangeCap | block_profiler.py:334-341 | the cap holds per chunk: `n` chunks count at most `n * max(tx_cap, 1)` transactions |
| RangeProperties.RangeReportCap | block_profiler.py:334-341 | the overall `total_tx` is at most the number of chunks times `max(tx_cap, 1)` |
| RangeProperties.NoCapFlatten | block_profiler.py:175-242 | without a cap, one chunk counts every receipted transaction of its blocks, block by block |
| RangeProperties.AllReceiptedSplit | block_profiler.py:175-242 | the receipted transactions of `a + b` blocks are those of the first `a`, then those of the next `b` |
| RangeProperties.RangeCountedCons | block_profiler.py:332-359 | the chunks count a chunk's transactions, then those of the chunks after it |
| RangeProperties.NoCapChunks | block_profiler.py:332-359 | without a cap, the chunks from the cursor count every receipted transaction from the cursor to `end` |
| RangeProperties.NoCapRangeReport | block_profiler.py:326-359 | without a cap, the overall summary is that of every receipted transaction in `[start, end]`, whatever the chunk size |
| RangeProperties.MergedIsChunkSum | block_profiler.py:346-349 | each type's merged count, gas, gas-price sum and value sum is the sum of that type's buckets over the chunks |

## Left out

- All web3 I/O becomes inputs: `get_block`, `get_transaction_receipt`, `get_code`, `is_connected` and `chain_id`. A block maps each number to its contents, a transaction carries an optional receipt, and `get_code` is an oracle that returns no code when the call raises.
- The thread pool and `as_completed`: a block lists its transactions in completion order, and the model processes that sequence. Which transactions count when the cap triggers mid-block depends on that order, which the model takes as given.
- Internal-value tracing (`trace_internal_value_erigon`, `trace_internal_value_geth`, `internal_total`) depends on non-standard RPC calls over untyped JSON and is not modelled.
- The unique sender and receiver sets are not modelled: they are plain set sizes per chunk, and the range summary reports them as `-1`.
- Decimal formatting is not modelled: `wei_to_eth`, the `avg_gas_price_gwei` quantisation, and the string conversions in the summary.
- RangeProfiler.Absorb: adds the exact wei sums of each chunk. The code goes through Decimal strings and back, so its merged gas-price and value sums can lose precision.
- RangeProfiler.MergeStatsInto: adds exact gas-price sums rather than `avg_gas_price_gwei * 1e9 * count`, for the same reason.
- RangeProfiler.AbsorbChunk: merges the chunks' full address counters. The code keeps only each chunk's top 20 (`most_common(20)`) before merging and the overall top 20 after, so its merged counts can be lower.
- The chunk and range summaries keep full address counters rather than the top-20 list.
- RangeProfiler.AbsorbChunk: also merges in a different key order. The code iterates each chunk's `most_common(20)` list, which is sorted by count with ties in insertion order, so the merged counter's key order, and with it which of several tied addresses comes first, can differ from a merge of full counters in insertion order.
- A `get_block` call that raises ends the whole run in the code; `ChunkProfiler.Node.getBlock` is total, so the model does not capture that abort.
- Writing the CSV and JSON files, `tqdm` (whose updates are `RangeProfiler.Covered`), `argparse`, the `chain_id` and `notes`/`limits` fields of the summary, and `main` are not modelled.
- Lower-casing is ASCII only, which is all that hexadecimal addresses and topics need.
- A `HexBytes` topic converted with `to_hex` is taken to arrive already as hexadecimal text.
- The three event signatures are constants written with the `0x` prefix, the form `.hex()` returns in web3 6 (hexbytes before 1.0). Since hexbytes 1.0, `.hex()` drops the prefix while `Web3.to_hex` keeps it on the topics, so no topic would match and every transaction with a `to` would fall through to the value and code fallback; the model does not capture that version dependence.
- `int(... or 0)` on a missing `gasUsed`, `gasPrice` or `value` is taken as already applied: these fields are naturals in the model.

## Findings

| source | as written | input that shows it | evidently intended | confidence | as-written member | corrected member |
|---|---|---|---|---|---|---|
| block_profiler.py:330-359 | `chunk_size` is never checked; with `chunk_size <= 0`, `chunk_end = min(cur + chunk_size - 1, end)` is below `cur`, so `cur` never advances and the loop never ends | `start = end = 0`, `chunk_size = 0`: `chunk_end = -1`, `cur` goes back to 0 on every pass | a non-positive chunk size is refused before the loop, as `end < start` is | not executed | RangeProfiler.AsWrittenNeverEnds | RangeProfiler.ProfileRange |
