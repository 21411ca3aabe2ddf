/** What `profile_chunk` promises about its output: the transaction cap, the
    shape and numbering of the CSV rows, the agreement of the rows with the
    per-type statistics, the consistency of the totals, and the treatment of
    failed receipt fetches. */
module ChunkProperties {
  import opened Wrappers
  import opened TxTypes
  import opened TxClassifier
  import opened Aggregation
  import opened ChunkProfiler

  function Max(a: int, b: int): int
  {
    if a >= b then a else b
  }

  /** Under a cap, a block's loop stops at the count that reaches it: after
      the block the chunk has counted at most the cap, or a single
      transaction more when the cap was already reached before it. */
  lemma {:induction false} BlockCap(txs: seq<TxEntry>, i: nat, before: nat, node: Node, opts: Options)
    requires i <= |txs| && opts.txCap.Some?
    ensures before + |BlockCounts(txs, i, before, node, opts)| <= Max(opts.txCap.value, before + 1)
  {
    if i > 0 {
      BlockCap(txs, i - 1, before, node, opts);
    }
  }

  /** However many blocks it processes, one chunk counts at most
      `max(tx_cap, 1)` transactions. */
  lemma {:induction false} ProgressCap(node: Node, start: int, k: nat, opts: Options)
    requires opts.txCap.Some?
    ensures |Flatten(Progress(node, start, k, opts))| <= CapLimit(opts.txCap.value)
  {
    if k > 0 {
      ProgressCap(node, start, k - 1, opts);
      var runs := Progress(node, start, k - 1, opts);
      if !Halted(runs, opts) {
        var r := NextRun(runs, node, start, opts);
        BlockCap(BlockAt(node, start + |runs|).txs, |BlockAt(node, start + |runs|).txs|, |Flatten(runs)|, node, opts);
        FlattenSnoc(runs, r);
      }
    }
  }

  /** The loop processes one block per step until the cap stops it: after
      `k` steps at most `k` blocks are processed, and fewer only when the cap
      was reached. */
  lemma {:induction false} ProgressShape(node: Node, start: int, k: nat, opts: Options)
    ensures |Progress(node, start, k, opts)| <= k
    ensures |Progress(node, start, k, opts)| < k ==> Halted(Progress(node, start, k, opts), opts)
  {
    if k > 0 {
      ProgressShape(node, start, k - 1, opts);
    }
  }

  /** `profile_chunk` processes every block of `[start, end]` unless the cap
      stops it, and then has counted at least the cap. */
  lemma ChunkBlocks(node: Node, start: int, end: int, opts: Options)
    ensures |ProfileRuns(node, start, end, opts)| <= BlockCount(start, end)
    ensures |ProfileRuns(node, start, end, opts)| < BlockCount(start, end) ==>
      opts.txCap.Some? && |Flatten(ProfileRuns(node, start, end, opts))| >= opts.txCap.value
  {
    ProgressShape(node, start, BlockCount(start, end), opts);
  }

  /** There is one row per processed block, in block order from `start`, and
      each is the row of its block's counted transactions. */
  lemma {:induction false} RowsOfShape(node: Node, start: int, runs: seq<seq<Counted>>, n: nat)
    requires n <= |runs|
    ensures |RowsOf(node, start, runs, n)| == n
    ensures forall i :: 0 <= i < n ==> RowsOf(node, start, runs, n)[i] == BlockRow(BlockAt(node, start + i), runs[i])
  {
    if n > 0 {
      RowsOfShape(node, start, runs, n - 1);
    }
  }

  /** A row has the header's thirteen fields: number, timestamp, the number
      of transactions in the block (counted or not), the count of each type
      in `DEFAULT_TYPES` order under that type's header name, the block's gas
      used (the receipts' sum when the block lacks the field) and its gas
      limit. */
  lemma RowFields(b: Block, counted: seq<Counted>)
    ensures var f := Fields(BlockRow(b, counted));
      |f| == |Header| == 13 &&
      Header[0] == "block_number" && f[0] == b.number &&
      Header[1] == "timestamp" && f[1] == b.timestamp &&
      Header[2] == "tx_count" && f[2] == |b.txs| &&
      (forall j :: 0 <= j < 8 ==> Header[3 + j] == Name(DefaultTypes[j]) && f[3 + j] == |Only(counted, DefaultTypes[j])|) &&
      Header[11] == "block_gas_used" && f[11] == (if b.gasUsed.Some? then b.gasUsed.value else SumGas(counted)) &&
      Header[12] == "block_gas_limit" && f[12] == b.gasLimit
  {
    TypeColumnsSpec(counted);
  }

  /** The sum of column `j` of the type counts over the first `n` rows. */
  function ColumnSum(rows: seq<CsvRow>, j: nat, n: nat := |rows|): nat
    requires n <= |rows|
  {
    if n == 0 then 0
    else ColumnSum(rows, j, n - 1) + if j < |rows[n - 1].typeCounts| then rows[n - 1].typeCounts[j] else 0
  }

  lemma {:induction false} ColumnSumPrefix(a: seq<CsvRow>, b: seq<CsvRow>, j: nat, n: nat)
    requires n <= |a|
    ensures ColumnSum(a + b, j, n) == ColumnSum(a, j, n)
  {
    if n > 0 {
      ColumnSumPrefix(a, b, j, n - 1);
    }
  }

  /** One more row adds its entry in the column. */
  lemma ColumnSumSnoc(rows: seq<CsvRow>, row: CsvRow, j: nat)
    requires j < |row.typeCounts|
    ensures ColumnSum(rows + [row], j) == ColumnSum(rows, j) + row.typeCounts[j]
  {
    ColumnSumPrefix(rows, [row], j, |rows|);
  }

  lemma {:induction false} ColumnSumAppendPrefix(a: seq<CsvRow>, b: seq<CsvRow>, j: nat, m: nat)
    requires m <= |b|
    ensures ColumnSum(a + b, j, |a| + m) == ColumnSum(a, j) + ColumnSum(b, j, m)
  {
    if m == 0 {
      ColumnSumPrefix(a, b, j, |a|);
    } else {
      ColumnSumAppendPrefix(a, b, j, m - 1);
      assert (a + b)[|a| + m - 1] == b[m - 1];
    }
  }

  /** The column sum of two runs of rows is the sum of theirs. */
  lemma ColumnSumAppend(a: seq<CsvRow>, b: seq<CsvRow>, j: nat)
    ensures ColumnSum(a + b, j) == ColumnSum(a, j) + ColumnSum(b, j)
  {
    ColumnSumAppendPrefix(a, b, j, |b|);
  }

  /** One more block adds its count of the type to the column sum. */
  lemma ColumnStep(node: Node, start: int, runs: seq<seq<Counted>>, t: TxType, n: nat)
    requires 0 < n <= |runs|
    ensures ColumnSum(RowsOf(node, start, runs, n), Column(t))
         == ColumnSum(RowsOf(node, start, runs, n - 1), Column(t)) + |Only(runs[n - 1], t)|
  {
    var row := BlockRow(BlockAt(node, start + n - 1), runs[n - 1]);
    TypeColumnsSpec(runs[n - 1]);
    ColumnSumSnoc(RowsOf(node, start, runs, n - 1), row, Column(t));
  }

  /** The per-block counts of a type, summed over the rows, are the number
      of counted transactions of that type. */
  lemma {:induction false} ColumnsAddUp(node: Node, start: int, runs: seq<seq<Counted>>, t: TxType, n: nat)
    requires n <= |runs|
    ensures ColumnSum(RowsOf(node, start, runs, n), Column(t)) == |Only(Flatten(runs, n), t)|
  {
    if n > 0 {
      ColumnsAddUp(node, start, runs, t, n - 1);
      ColumnStep(node, start, runs, t, n);
      OnlyAppend(Flatten(runs, n - 1), runs[n - 1], t);
    }
  }

  /** The chunk's summary is consistent: the per-type counts add up to
      `total_tx`, the per-type value sums to `total_eth_wei`, and each
      type's count is the sum of that type's column over the CSV rows. */
  lemma ChunkConsistent(node: Node, start: int, end: int, opts: Options)
    ensures var runs := ProfileRuns(node, start, end, opts);
      var s := Summarize(start, end, Flatten(runs));
      Total(s.stats, CountField) == s.totalTx &&
      Total(s.stats, ValueField) == s.totalEthWei &&
      forall t :: StatOf(s.stats, t).count == ColumnSum(RowsOf(node, start, runs), Column(t))
  {
    var runs := ProfileRuns(node, start, end, opts);
    TabulateTotals(Flatten(runs));
    forall t ensures StatOf(Tabulate(Flatten(runs)), t).count == ColumnSum(RowsOf(node, start, runs), Column(t)) {
      TabulateIsPerTypeSums(Flatten(runs), t);
      ColumnsAddUp(node, start, runs, t, |runs|);
    }
  }

  /** The records of the first `n` entries whose receipt arrived, in order. */
  function Receipted(txs: seq<TxEntry>, node: Node, opts: Options, n: nat := |txs|): seq<Counted>
    requires n <= |txs|
  {
    if n == 0 then []
    else Receipted(txs, node, opts, n - 1) + if txs[n - 1].receipt.Some? then [CountedOf(txs[n - 1], node, opts)] else []
  }

  /** Without a cap every transaction whose receipt arrived counts, and a
      failed fetch contributes nothing. */
  lemma {:induction false} NoCapCountsReceipted(txs: seq<TxEntry>, i: nat, before: nat, node: Node, opts: Options)
    requires i <= |txs| && opts.txCap.None?
    ensures BlockCounts(txs, i, before, node, opts) == Receipted(txs, node, opts, i)
  {
    if i > 0 {
      NoCapCountsReceipted(txs, i - 1, before, node, opts);
    }
  }

  /** Counting looks only at the entries it is asked to count. */
  lemma {:induction false} BlockCountsPrefix(x: seq<TxEntry>, y: seq<TxEntry>, n: nat, before: nat, node: Node, opts: Options)
    requires n <= |x| && n <= |y| && x[..n] == y[..n]
    ensures BlockCounts(x, n, before, node, opts) == BlockCounts(y, n, before, node, opts)
  {
    if n > 0 {
      assert x[..n - 1] == y[..n - 1];
      assert x[n - 1] == x[..n][n - 1] == y[n - 1];
      BlockCountsPrefix(x, y, n - 1, before, node, opts);
    }
  }

  /** Whatever the cap, an entry whose receipt fetch failed is skipped: the
      block's counted transactions, up to any later entry, are those of the
      block without it. */
  lemma {:induction false} FailedFetchSkipped(a: seq<TxEntry>, e: TxEntry, b: seq<TxEntry>, m: nat,
                                              before: nat, node: Node, opts: Options)
    requires e.receipt.None? && m <= |b|
    ensures BlockCounts(a + [e] + b, |a| + 1 + m, before, node, opts) == BlockCounts(a + b, |a| + m, before, node, opts)
  {
    var x, y := a + [e] + b, a + b;
    if m == 0 {
      assert x[..|a|] == a == y[..|a|];
      BlockCountsPrefix(x, y, |a|, before, node, opts);
      assert x[|a|] == e;
    } else {
      FailedFetchSkipped(a, e, b, m - 1, before, node, opts);
      assert x[|a| + m] == b[m - 1] == y[|a| + m - 1];
    }
  }

  /** Without a cap every block of the chunk is processed. */
  lemma {:induction false} NoCapProcessesAll(node: Node, start: int, k: nat, opts: Options)
    requires opts.txCap.None?
    ensures |Progress(node, start, k, opts)| == k
    ensures forall i :: 0 <= i < k ==>
      Progress(node, start, k, opts)[i] == Receipted(BlockAt(node, start + i).txs, node, opts)
  {
    if k > 0 {
      NoCapProcessesAll(node, start, k - 1, opts);
      var runs := Progress(node, start, k - 1, opts);
      NoCapCountsReceipted(BlockAt(node, start + k - 1).txs, |BlockAt(node, start + k - 1).txs|, |Flatten(runs)|, node, opts);
    }
  }
}
