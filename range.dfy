/** `profile_range`: the check on the range, the split of `[start, end]`
    into consecutive chunks of at most `chunk_size` blocks, one
    `profile_chunk` call per chunk, and the merge of the chunk summaries
    into the overall summary. */
module RangeProfiler {
  import opened Wrappers
  import opened TxTypes
  import opened Aggregation
  import opened ChunkProfiler
  import ChunkProperties
  import Counters

  /** The two ways the range call fails: `end < start` raises, and a chunk
      size below one is refused (the loop as written never ends then). */
  datatype RangeError = EndBeforeStart | NonPositiveChunkSize

  /** The blocks `[first, last]` of one chunk. */
  datatype Span = Span(first: int, last: int)

  function Min(a: int, b: int): int
  {
    if a <= b then a else b
  }

  /** `chunk_end = min(cur + chunk_size - 1, end)`. */
  function ChunkEnd(cur: int, end: int, size: int): int
  {
    Min(cur + size - 1, end)
  }

  /** The chunks the loop visits from cursor `cur` on. */
  function Chunks(cur: int, end: int, size: int): seq<Span>
    requires size >= 1
    decreases end + 1 - cur
  {
    if cur > end then []
    else
      var last := ChunkEnd(cur, end, size);
      [Span(cur, last)] + Chunks(last + 1, end, size)
  }

  /** The number of blocks of a chunk, as the progress bar is advanced by. */
  function Width(s: Span): int
  {
    s.last - s.first + 1
  }

  /** The sum of the progress updates over `spans`. */
  function Covered(spans: seq<Span>): int
  {
    if spans == [] then 0 else Width(spans[0]) + Covered(spans[1..])
  }

  /** One pass of the loop: the chunk at the cursor is the head of the
      chunks from the cursor. */
  lemma ChunksUnfold(cur: int, end: int, size: int)
    requires size >= 1 && cur <= end
    ensures Chunks(cur, end, size)
         == [Span(cur, ChunkEnd(cur, end, size))] + Chunks(ChunkEnd(cur, end, size) + 1, end, size)
  {
  }

  /** The chunks visited so far followed by the chunks from the cursor are
      the chunks of the range, before and after one pass of the loop. */
  lemma ChunksStep(start: int, cur: int, end: int, size: int, done: seq<Span>)
    requires size >= 1 && cur <= end
    requires done + Chunks(cur, end, size) == Chunks(start, end, size)
    ensures done + [Span(cur, ChunkEnd(cur, end, size))] + Chunks(ChunkEnd(cur, end, size) + 1, end, size)
         == Chunks(start, end, size)
  {
    var s := Span(cur, ChunkEnd(cur, end, size));
    var rest := Chunks(ChunkEnd(cur, end, size) + 1, end, size);
    ChunksUnfold(cur, end, size);
    assert done + [s] + rest == done + ([s] + rest);
  }

  /** The chunks are empty exactly for an empty range; otherwise the first
      starts at the cursor and the last ends at `end`. */
  lemma {:induction false} ChunksEnds(cur: int, end: int, size: int)
    requires size >= 1
    ensures cur > end <==> Chunks(cur, end, size) == []
    ensures cur <= end ==>
      Chunks(cur, end, size)[0].first == cur && Chunks(cur, end, size)[|Chunks(cur, end, size)| - 1].last == end
    decreases end + 1 - cur
  {
    if cur <= end {
      ChunksUnfold(cur, end, size);
      ChunksEnds(ChunkEnd(cur, end, size) + 1, end, size);
    }
  }

  /** Every chunk holds between one and `size` blocks, and every one but
      the last exactly `size`. */
  lemma {:induction false} ChunksWidths(cur: int, end: int, size: int)
    requires size >= 1
    ensures forall i :: 0 <= i < |Chunks(cur, end, size)| ==> 1 <= Width(Chunks(cur, end, size)[i]) <= size
    ensures forall i :: 0 <= i < |Chunks(cur, end, size)| - 1 ==> Width(Chunks(cur, end, size)[i]) == size
    decreases end + 1 - cur
  {
    if cur <= end {
      var next := ChunkEnd(cur, end, size) + 1;
      ChunksUnfold(cur, end, size);
      ChunksWidths(next, end, size);
      ChunksEnds(next, end, size);
    }
  }

  /** Each chunk starts right after the one before. */
  lemma {:induction false} ChunksConsecutive(cur: int, end: int, size: int)
    requires size >= 1
    ensures forall i :: 0 <= i < |Chunks(cur, end, size)| - 1 ==>
      Chunks(cur, end, size)[i + 1].first == Chunks(cur, end, size)[i].last + 1
    decreases end + 1 - cur
  {
    if cur <= end {
      var next := ChunkEnd(cur, end, size) + 1;
      var c := Chunks(cur, end, size);
      var rest := Chunks(next, end, size);
      ChunksUnfold(cur, end, size);
      ChunksConsecutive(next, end, size);
      ChunksEnds(next, end, size);
      forall i | 0 <= i < |c| - 1
        ensures c[i + 1].first == c[i].last + 1
      {
        if i > 0 {
          assert c[i] == rest[i - 1] && c[i + 1] == rest[i];
        }
      }
    }
  }

  /** The progress updates add up to the number of blocks in the range. */
  lemma {:induction false} ChunksCovered(cur: int, end: int, size: int)
    requires size >= 1
    ensures Covered(Chunks(cur, end, size)) == BlockCount(cur, end)
    decreases end + 1 - cur
  {
    if cur <= end {
      var next := ChunkEnd(cur, end, size) + 1;
      ChunksUnfold(cur, end, size);
      assert Chunks(cur, end, size)[1..] == Chunks(next, end, size);
      ChunksCovered(next, end, size);
    }
  }

  /** The cursor after `k` passes of the range loop as written, which
      never checks the chunk size. */
  function AsWrittenCursor(start: int, end: int, size: int, k: nat): int
  {
    if k == 0 then start else ChunkEnd(AsWrittenCursor(start, end, size, k - 1), end, size) + 1
  }

  /** With a chunk size below one the cursor of the loop as written never
      moves past `start`, so on a non-empty range `cur <= end` holds after
      every pass and the loop never ends. */
  lemma {:induction false} AsWrittenNeverEnds(start: int, end: int, size: int, k: nat)
    requires start <= end && size < 1
    ensures AsWrittenCursor(start, end, size, k) <= start
    ensures AsWrittenCursor(start, end, size, k) <= end
  {
    if k > 0 {
      AsWrittenNeverEnds(start, end, size, k - 1);
    }
  }

  /** The summary `profile_chunk` returns for one chunk. */
  function ChunkResult(node: Node, opts: Options, s: Span): ChunkSummary
  {
    Summarize(s.first, s.last, Flatten(ProfileRuns(node, s.first, s.last, opts)))
  }

  /** The overall accumulators after adding one chunk summary: the per-type
      buckets, the two totals and the two counters, each added in. */
  function Absorb(t: Totals, s: ChunkSummary): Totals
  {
    Totals(MergeStats(t.stats, s.stats), t.totalTx + s.totalTx, t.totalEthWei + s.totalEthWei,
           Counters.Merge(t.topContracts, s.topContracts), Counters.Merge(t.topTokens, s.topTokens))
  }

  /** The overall accumulators after the chunks `spans`, in order. */
  function RangeFold(node: Node, opts: Options, spans: seq<Span>): Totals
  {
    if spans == [] then NoTotals
    else Absorb(RangeFold(node, opts, spans[..|spans| - 1]), ChunkResult(node, opts, spans[|spans| - 1]))
  }

  /** The CSV rows the chunks `spans` write, in order. */
  function RangeRows(node: Node, opts: Options, spans: seq<Span>): seq<CsvRow>
  {
    if spans == [] then []
    else
      var s := spans[|spans| - 1];
      RangeRows(node, opts, spans[..|spans| - 1]) + RowsOf(node, s.first, ProfileRuns(node, s.first, s.last, opts))
  }

  /** The transactions the chunks `spans` count, in order. */
  function RangeCounted(node: Node, opts: Options, spans: seq<Span>): seq<Counted>
  {
    if spans == [] then []
    else
      var s := spans[|spans| - 1];
      RangeCounted(node, opts, spans[..|spans| - 1]) + Flatten(ProfileRuns(node, s.first, s.last, opts))
  }

  /** One more chunk: its summary is absorbed, its rows and transactions
      appended. */
  lemma RangeSnoc(node: Node, opts: Options, spans: seq<Span>, s: Span)
    ensures RangeFold(node, opts, spans + [s]) == Absorb(RangeFold(node, opts, spans), ChunkResult(node, opts, s))
    ensures RangeRows(node, opts, spans + [s])
         == RangeRows(node, opts, spans) + RowsOf(node, s.first, ProfileRuns(node, s.first, s.last, opts))
    ensures RangeCounted(node, opts, spans + [s])
         == RangeCounted(node, opts, spans) + Flatten(ProfileRuns(node, s.first, s.last, opts))
  {
    assert (spans + [s])[..|spans|] == spans;
  }

  /** The overall summary `profile_range` returns for a valid call. */
  function RangeReport(node: Node, start: int, end: int, opts: Options, size: int): ChunkSummary
    requires size >= 1
  {
    var t := RangeFold(node, opts, Chunks(start, end, size));
    ChunkSummary(start, end, end - start + 1, t.totalTx, t.totalEthWei, t.stats, t.topContracts, t.topTokens)
  }

  /** `for k, v in chunk["tx_types"].items(): ...`: adds each of the
      chunk's buckets into the overall table, field by field. The chunk's
      types are visited in an arbitrary order, which the result does not
      depend on. */
  method MergeStatsInto(acc: StatsTable, chunk: StatsTable) returns (r: StatsTable)
    ensures r == MergeStats(acc, chunk)
  {
    r := acc;
    var rest := chunk.Keys;
    while rest != {}
      invariant rest <= chunk.Keys
      invariant forall t :: StatOf(r, t) == if t in chunk && t !in rest then AddStats(StatOf(acc, t), StatOf(chunk, t)) else StatOf(acc, t)
      invariant forall t :: t in r <==> t in acc || (t in chunk && t !in rest)
      decreases |rest|
    {
      var k :| k in rest;
      r := r[k := AddStats(StatOf(r, k), chunk[k])];
      rest := rest - {k};
    }
    MergeStatsSpec(acc, chunk);
    TablesEqual(r, MergeStats(acc, chunk));
  }

  /** One pass of the merge in the range loop: one chunk summary added into
      the overall accumulators. */
  method AbsorbChunk(t: Totals, s: ChunkSummary) returns (r: Totals)
    ensures r == Absorb(t, s)
  {
    var stats := MergeStatsInto(t.stats, s.stats);
    var contracts := Counters.AddAll(t.topContracts, s.topContracts);
    var tokens := Counters.AddAll(t.topTokens, s.topTokens);
    r := Totals(stats, t.totalTx + s.totalTx, t.totalEthWei + s.totalEthWei, contracts, tokens);
  }

  /** `profile_range` over `[start, end]` in chunks of `chunkSize` blocks:
      the error cases, and otherwise the overall summary and the CSV rows of
      every chunk in order. */
  method ProfileRange(node: Node, start: int, end: int, opts: Options, chunkSize: int)
    returns (r: Result<ChunkSummary, RangeError>, rows: seq<CsvRow>)
    ensures end < start ==> r == Err(EndBeforeStart) && rows == []
    ensures start <= end && chunkSize < 1 ==> r == Err(NonPositiveChunkSize) && rows == []
    ensures start <= end && chunkSize >= 1 ==>
      r == Ok(RangeReport(node, start, end, opts, chunkSize)) &&
      rows == RangeRows(node, opts, Chunks(start, end, chunkSize))
  {
    rows := [];
    if end < start {
      return Err(EndBeforeStart), rows;
    }
    if chunkSize < 1 {
      return Err(NonPositiveChunkSize), rows;
    }
    var acc := NoTotals;
    ghost var done: seq<Span> := [];
    var cur := start;
    while cur <= end
      invariant start <= cur <= end + 1
      invariant done + Chunks(cur, end, chunkSize) == Chunks(start, end, chunkSize)
      invariant acc == RangeFold(node, opts, done) && rows == RangeRows(node, opts, done)
      decreases end + 1 - cur
    {
      var chunkEnd := ChunkEnd(cur, end, chunkSize);
      ghost var s := Span(cur, chunkEnd);
      ChunksStep(start, cur, end, chunkSize, done);
      var summary, chunkRows, lookups := ProfileChunk(node, cur, chunkEnd, opts);
      acc := AbsorbChunk(acc, summary);
      rows := rows + chunkRows;
      RangeSnoc(node, opts, done, s);
      done := done + [s];
      cur := chunkEnd + 1;
    }
    ChunksEnds(cur, end, chunkSize);
    assert done == Chunks(start, end, chunkSize);
    r := Ok(ChunkSummary(start, end, end - start + 1, acc.totalTx, acc.totalEthWei, acc.stats,
                         acc.topContracts, acc.topTokens));
  }
}
