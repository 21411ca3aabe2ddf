/** What `profile_range` promises about its overall summary: it is the
    summary a single pass would make of every transaction its chunks
    counted, it agrees with the CSV rows, the per-chunk cap bounds it, and
    without a cap the chunk size does not change it. */
module RangeProperties {
  import opened TxTypes
  import opened Aggregation
  import opened ChunkProfiler
  import opened ChunkProperties
  import opened RangeProfiler

  /** Adding one chunk's summary into the totals of the transactions
      counted so far gives the totals of those transactions followed by the
      chunk's: merged buckets, summed totals, and merged counters, key order
      included. */
  lemma AbsorbCounts(cs: seq<Counted>, first: int, last: int, ds: seq<Counted>)
    ensures Absorb(StepAll(NoTotals, cs), Summarize(first, last, ds)) == StepAll(NoTotals, cs + ds)
  {
    StepAllMeaning(cs);
    StepAllMeaning(cs + ds);
    MergeTabulate(cs, ds);
    SumsAppend(cs, ds);
    MergeTally(cs, ds, ToAddress);
    MergeTally(cs, ds, TokenAddress);
  }

  /** The merged accumulators after any sequence of chunks are those of one
      pass over the transactions the chunks counted, in chunk order. */
  lemma {:induction false} RangeIsOnePass(node: Node, opts: Options, spans: seq<Span>)
    ensures RangeFold(node, opts, spans) == StepAll(NoTotals, RangeCounted(node, opts, spans))
  {
    if spans != [] {
      var p := spans[..|spans| - 1];
      var s := spans[|spans| - 1];
      RangeIsOnePass(node, opts, p);
      AbsorbCounts(RangeCounted(node, opts, p), s.first, s.last, Flatten(ProfileRuns(node, s.first, s.last, opts)));
    }
  }

  /** The overall summary of `[start, end]` is the summary of one chunk
      spanning the range that counted exactly the transactions the chunks
      counted. */
  lemma RangeReportIsSummary(node: Node, start: int, end: int, opts: Options, size: int)
    requires size >= 1
    ensures RangeReport(node, start, end, opts, size)
         == Summarize(start, end, RangeCounted(node, opts, Chunks(start, end, size)))
  {
    var spans := Chunks(start, end, size);
    RangeIsOnePass(node, opts, spans);
    SummaryOfTotals(start, end, RangeCounted(node, opts, spans), RangeFold(node, opts, spans));
  }

  /** The type columns of the rows of a sequence of chunks add up, type by
      type, to the number of transactions of that type the chunks counted. */
  lemma {:induction false} RangeColumns(node: Node, opts: Options, spans: seq<Span>, t: TxType)
    ensures ColumnSum(RangeRows(node, opts, spans), Column(t)) == |Only(RangeCounted(node, opts, spans), t)|
  {
    if spans != [] {
      var p := spans[..|spans| - 1];
      var s := spans[|spans| - 1];
      var runs := ProfileRuns(node, s.first, s.last, opts);
      RangeColumns(node, opts, p, t);
      ColumnSumAppend(RangeRows(node, opts, p), RowsOf(node, s.first, runs), Column(t));
      ColumnsAddUp(node, s.first, runs, t, |runs|);
      OnlyAppend(RangeCounted(node, opts, p), Flatten(runs), t);
    }
  }

  /** The overall summary is consistent: the per-type counts add up to the
      total count, the per-type value sums to the total value, and each
      type's count is the sum of that type's column over every CSV row the
      range wrote. */
  lemma RangeConsistent(node: Node, start: int, end: int, opts: Options, size: int)
    requires size >= 1
    ensures var r := RangeReport(node, start, end, opts, size);
      Total(r.stats, CountField) == r.totalTx &&
      Total(r.stats, ValueField) == r.totalEthWei &&
      forall t :: StatOf(r.stats, t).count
                  == ColumnSum(RangeRows(node, opts, Chunks(start, end, size)), Column(t))
  {
    var spans := Chunks(start, end, size);
    var cs := RangeCounted(node, opts, spans);
    RangeReportIsSummary(node, start, end, opts, size);
    TabulateTotals(cs);
    forall t ensures StatOf(Tabulate(cs), t).count == ColumnSum(RangeRows(node, opts, spans), Column(t)) {
      TabulateIsPerTypeSums(cs, t);
      RangeColumns(node, opts, spans, t);
    }
  }

  /** The cap applies to each chunk on its own: a range of `n` chunks
      counts at most `n * max(tx_cap, 1)` transactions. */
  lemma {:induction false} RangeCap(node: Node, opts: Options, spans: seq<Span>)
    requires opts.txCap.Some?
    ensures |RangeCounted(node, opts, spans)| <= |spans| * CapLimit(opts.txCap.value)
  {
    if spans != [] {
      var p := spans[..|spans| - 1];
      var s := spans[|spans| - 1];
      var limit := CapLimit(opts.txCap.value);
      RangeCap(node, opts, p);
      ProgressCap(node, s.first, BlockCount(s.first, s.last), opts);
      assert |RangeCounted(node, opts, spans)|
          == |RangeCounted(node, opts, p)| + |Flatten(ProfileRuns(node, s.first, s.last, opts))|;
      assert |spans| * limit == |p| * limit + limit;
    }
  }

  /** With a chunk size of at least one, a capped range counts at most the
      number of chunks times `max(tx_cap, 1)`. */
  lemma RangeReportCap(node: Node, start: int, end: int, opts: Options, size: int)
    requires size >= 1 && opts.txCap.Some?
    ensures RangeReport(node, start, end, opts, size).totalTx
         <= |Chunks(start, end, size)| * CapLimit(opts.txCap.value)
  {
    RangeReportIsSummary(node, start, end, opts, size);
    RangeCap(node, opts, Chunks(start, end, size));
  }

  /** The transactions whose receipt arrived in the `k` blocks from
      `first`, block by block. */
  function AllReceipted(node: Node, opts: Options, first: int, k: nat): seq<Counted>
  {
    if k == 0 then []
    else AllReceipted(node, opts, first, k - 1) + Receipted(BlockAt(node, first + k - 1).txs, node, opts)
  }

  /** Without a cap one chunk counts every transaction whose receipt
      arrived, block by block. */
  lemma {:induction false} NoCapFlatten(node: Node, first: int, k: nat, opts: Options)
    requires opts.txCap.None?
    ensures Flatten(Progress(node, first, k, opts)) == AllReceipted(node, opts, first, k)
  {
    if k > 0 {
      var runs := Progress(node, first, k - 1, opts);
      var txs := BlockAt(node, first + k - 1).txs;
      NoCapFlatten(node, first, k - 1, opts);
      ProgressShape(node, first, k - 1, opts);
      assert |runs| == k - 1;
      NoCapCountsReceipted(txs, |txs|, |Flatten(runs)|, node, opts);
      FlattenSnoc(runs, NextRun(runs, node, first, opts));
    }
  }

  lemma {:induction false} AllReceiptedSplit(node: Node, opts: Options, first: int, a: nat, b: nat)
    ensures AllReceipted(node, opts, first, a + b)
         == AllReceipted(node, opts, first, a) + AllReceipted(node, opts, first + a, b)
  {
    if b > 0 {
      AllReceiptedSplit(node, opts, first, a, b - 1);
      var x := AllReceipted(node, opts, first, a);
      var y := AllReceipted(node, opts, first + a, b - 1);
      var z := Receipted(BlockAt(node, first + a + b - 1).txs, node, opts);
      assert x + y + z == x + (y + z);
    }
  }

  /** The transactions of a chunk followed by those of the chunks after
      it. */
  lemma {:induction false} RangeCountedCons(node: Node, opts: Options, s: Span, rest: seq<Span>)
    ensures RangeCounted(node, opts, [s] + rest)
         == Flatten(ProfileRuns(node, s.first, s.last, opts)) + RangeCounted(node, opts, rest)
  {
    var head := Flatten(ProfileRuns(node, s.first, s.last, opts));
    if rest == [] {
      assert ([s] + rest)[..0] == [];
    } else {
      var q := rest[..|rest| - 1];
      var x := rest[|rest| - 1];
      assert ([s] + rest)[..|rest|] == [s] + q;
      assert ([s] + rest)[|rest|] == x;
      RangeCountedCons(node, opts, s, q);
      var tail := Flatten(ProfileRuns(node, x.first, x.last, opts));
      assert head + RangeCounted(node, opts, q) + tail == head + (RangeCounted(node, opts, q) + tail);
    }
  }

  /** Without a cap the chunks from the cursor count every transaction
      whose receipt arrived in the blocks from the cursor to `end`. */
  lemma {:induction false} NoCapChunks(node: Node, opts: Options, cur: int, end: int, size: int)
    requires opts.txCap.None? && size >= 1
    ensures RangeCounted(node, opts, Chunks(cur, end, size)) == AllReceipted(node, opts, cur, BlockCount(cur, end))
    decreases end + 1 - cur
  {
    if cur <= end {
      var last := ChunkEnd(cur, end, size);
      ChunksUnfold(cur, end, size);
      RangeCountedCons(node, opts, Span(cur, last), Chunks(last + 1, end, size));
      NoCapFlatten(node, cur, BlockCount(cur, last), opts);
      NoCapChunks(node, opts, last + 1, end, size);
      AllReceiptedSplit(node, opts, cur, BlockCount(cur, last), BlockCount(last + 1, end));
      assert BlockCount(cur, end) == BlockCount(cur, last) + BlockCount(last + 1, end);
    } else {
      assert Chunks(cur, end, size) == [];
    }
  }

  /** Without a cap the overall summary is that of every transaction whose
      receipt arrived in `[start, end]`, whatever the chunk size. */
  lemma NoCapRangeReport(node: Node, start: int, end: int, opts: Options, size: int)
    requires opts.txCap.None? && size >= 1
    ensures RangeReport(node, start, end, opts, size)
         == Summarize(start, end, AllReceipted(node, opts, start, BlockCount(start, end)))
  {
    RangeReportIsSummary(node, start, end, opts, size);
    NoCapChunks(node, opts, start, end, size);
  }

  /** The sum over chunks of one type's chunk buckets. */
  function ChunkStatsSum(node: Node, opts: Options, spans: seq<Span>, t: TxType): TxStats
  {
    if spans == [] then TxStats(0, 0, 0, 0)
    else AddStats(ChunkStatsSum(node, opts, spans[..|spans| - 1], t),
                  StatOf(ChunkResult(node, opts, spans[|spans| - 1]).stats, t))
  }

  /** Absorbing a chunk adds its bucket of each type. */
  lemma AbsorbStats(acc: Totals, s: ChunkSummary, t: TxType)
    ensures StatOf(Absorb(acc, s).stats, t) == AddStats(StatOf(acc.stats, t), StatOf(s.stats, t))
  {
    MergeStatsSpec(acc.stats, s.stats);
  }

  /** Each type's merged bucket (count, gas, gas-price sum, value sum) is
      the sum of that type's buckets over the chunks. */
  lemma {:induction false} MergedIsChunkSum(node: Node, opts: Options, spans: seq<Span>, t: TxType)
    ensures StatOf(RangeFold(node, opts, spans).stats, t) == ChunkStatsSum(node, opts, spans, t)
  {
    if spans != [] {
      var p := spans[..|spans| - 1];
      var s := spans[|spans| - 1];
      MergedIsChunkSum(node, opts, p, t);
      AbsorbStats(RangeFold(node, opts, p), ChunkResult(node, opts, s), t);
    }
  }
}
