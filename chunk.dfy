/** `profile_chunk`: the block loop over `[start, end]`, the transaction loop
    of each block with its receipt, the classification and accumulation of
    every counted transaction, the transaction cap, and one CSV row per
    processed block. */
module ChunkProfiler {
  import opened Wrappers
  import opened TxTypes
  import opened LogClassifier
  import opened TxClassifier
  import opened Aggregation
  import Counters

  /** One transaction of a block and the outcome of its receipt fetch: no
      receipt when `get_transaction_receipt` raised. */
  datatype TxEntry = TxEntry(tx: Tx, receipt: Option<Receipt>)

  /** A block as `get_block(n, full_transactions=True)` returns it; `gasUsed`
      is absent when the block has no such field, a missing `gasLimit` is 0.
      The transactions are listed in the order their receipt fetches
      complete, which is the order the loop sees them in. */
  datatype Block = Block(number: int, timestamp: int, gasUsed: Option<nat>, gasLimit: nat, txs: seq<TxEntry>)

  /** The RPC endpoint as inputs: the block of each number, the code at each
      address. */
  datatype Node = Node(getBlock: int -> Block, getCode: CodeOracle)

  /** The block numbered `n`. */
  function BlockAt(node: Node, n: int): Block
  {
    node.getBlock(n)
  }

  /** `skip_contract_check` and `tx_cap`. */
  datatype Options = Options(skipContractCheck: bool, txCap: Option<int>)

  /** `tx_cap is not None and total_tx >= tx_cap`. */
  predicate CapReached(total: nat, cap: Option<int>)
  {
    cap.Some? && total >= cap.value
  }

  /** The largest number of transactions one call can count under a cap. */
  function CapLimit(cap: int): nat
  {
    if cap < 1 then 1 else cap
  }

  /** The record of a transaction whose receipt arrived. */
  function CountedOf(e: TxEntry, node: Node, opts: Options): Counted
    requires e.receipt.Some?
  {
    var r := e.receipt.value;
    var c := Classify(e.tx, r.logs, opts.skipContractCheck, node.getCode);
    Counted(c.txType, r.gasUsed, e.tx.gasPrice, e.tx.value, e.tx.to, c.token)
  }

  /** The chunk has counted `before` transactions before this block and `p`
      in it: the loop has stopped once a count reaches the cap. */
  predicate Stopped(before: nat, p: seq<Counted>, opts: Options)
  {
    |p| > 0 && CapReached(before + |p|, opts.txCap)
  }

  /** The transactions counted among the first `i` entries of a block,
      `before` having counted earlier in the chunk: entries without a
      receipt are skipped, and nothing counts after the count that reaches
      the cap. */
  function BlockCounts(txs: seq<TxEntry>, i: nat, before: nat, node: Node, opts: Options): seq<Counted>
    requires i <= |txs|
  {
    if i == 0 then []
    else
      var p := BlockCounts(txs, i - 1, before, node, opts);
      if Stopped(before, p, opts) || txs[i - 1].receipt.None? then p
      else p + [CountedOf(txs[i - 1], node, opts)]
  }

  /** The transactions of one block that count. */
  function BlockRun(txs: seq<TxEntry>, before: nat, node: Node, opts: Options): seq<Counted>
  {
    BlockCounts(txs, |txs|, before, node, opts)
  }

  /** Once the loop has stopped, later entries change nothing. */
  lemma {:induction false} BlockStoppedStays(txs: seq<TxEntry>, i: nat, j: nat, before: nat, node: Node, opts: Options)
    requires i <= j <= |txs| && Stopped(before, BlockCounts(txs, i, before, node, opts), opts)
    ensures BlockCounts(txs, j, before, node, opts) == BlockCounts(txs, i, before, node, opts)
    decreases j - i
  {
    if i < j {
      BlockStoppedStays(txs, i, j - 1, before, node, opts);
    }
  }

  /** The counted transactions of the first `n` processed blocks, in
      order. */
  function Flatten(runs: seq<seq<Counted>>, n: nat := |runs|): seq<Counted>
    requires n <= |runs|
  {
    if n == 0 then [] else Flatten(runs, n - 1) + runs[n - 1]
  }

  lemma {:induction false} FlattenPrefix(a: seq<seq<Counted>>, b: seq<seq<Counted>>, n: nat)
    requires n <= |a|
    ensures Flatten(a + b, n) == Flatten(a, n)
  {
    if n > 0 {
      FlattenPrefix(a, b, n - 1);
    }
  }

  lemma FlattenSnoc(runs: seq<seq<Counted>>, r: seq<Counted>)
    ensures Flatten(runs + [r]) == Flatten(runs) + r
  {
    FlattenPrefix(runs, [r], |runs|);
  }

  /** The block loop stops after the block at whose end the chunk's count
      reaches the cap (`if tx_cap is not None and total_tx >= tx_cap:
      break`). */
  predicate Halted(runs: seq<seq<Counted>>, opts: Options)
  {
    |runs| > 0 && CapReached(|Flatten(runs)|, opts.txCap)
  }

  /** The transactions counted in the next block, after the blocks of
      `runs`. */
  function NextRun(runs: seq<seq<Counted>>, node: Node, start: int, opts: Options): seq<Counted>
  {
    BlockRun(BlockAt(node, start + |runs|).txs, |Flatten(runs)|, node, opts)
  }

  /** The counted transactions of each block processed among the first `k`
      from `start`: fewer than `k` blocks when the cap stopped the loop. */
  function Progress(node: Node, start: int, k: nat, opts: Options): seq<seq<Counted>>
  {
    if k == 0 then []
    else
      var runs := Progress(node, start, k - 1, opts);
      if Halted(runs, opts) then runs else runs + [NextRun(runs, node, start, opts)]
  }

  /** Once the loop has stopped, later blocks change nothing. */
  lemma {:induction false} HaltedStays(node: Node, start: int, k: nat, l: nat, opts: Options)
    requires k <= l && Halted(Progress(node, start, k, opts), opts)
    ensures Progress(node, start, l, opts) == Progress(node, start, k, opts)
    decreases l - k
  {
    if k < l {
      HaltedStays(node, start, k, l - 1, opts);
    }
  }

  /** The number of blocks in `[start, end]`. */
  function BlockCount(start: int, end: int): nat
  {
    if end < start then 0 else end - start + 1
  }

  /** The loop ends when the cap stops it or when every block is
      processed; either way it has processed what `ProfileRuns` describes. */
  lemma LoopExit(node: Node, start: int, end: int, k: nat, opts: Options)
    requires k <= BlockCount(start, end)
    requires Halted(Progress(node, start, k, opts), opts) || k == BlockCount(start, end)
    ensures Progress(node, start, k, opts) == ProfileRuns(node, start, end, opts)
  {
    if k < BlockCount(start, end) {
      HaltedStays(node, start, k, BlockCount(start, end), opts);
    }
  }

  /** The counted transactions of each block `profile_chunk` processes on
      `[start, end]`. */
  function ProfileRuns(node: Node, start: int, end: int, opts: Options): seq<seq<Counted>>
  {
    Progress(node, start, BlockCount(start, end), opts)
  }

  /** One row of the per-block CSV. */
  datatype CsvRow = CsvRow(number: int, timestamp: int, txCount: nat, typeCounts: seq<nat>,
                           gasUsed: nat, gasLimit: nat)

  /** The row as `csv_writer.writerow` receives it. */
  function Fields(row: CsvRow): seq<int>
  {
    [row.number, row.timestamp, row.txCount] + row.typeCounts + [row.gasUsed, row.gasLimit]
  }

  /** The header `profile_range` writes before the rows. */
  const Header: seq<string> :=
    ["block_number", "timestamp", "tx_count",
     "eth_transfer", "contract_creation", "erc20_transfer", "erc721_transfer", "erc1155_transfer",
     "other_contract_call", "mixed_token_activity", "other_eoa_call",
     "block_gas_used", "block_gas_limit"]

  /** `block_counts.get(t, 0)`. */
  function CountIn(m: map<TxType, nat>, t: TxType): nat
  {
    if t in m then m[t] else 0
  }

  /** The first `n` type columns of the row of a block whose counted
      transactions are `counted`: the count of each type, in `DEFAULT_TYPES`
      order. */
  function TypeColumns(counted: seq<Counted>, n: nat := |DefaultTypes|): seq<nat>
    requires n <= |DefaultTypes|
  {
    if n == 0 then [] else TypeColumns(counted, n - 1) + [|Only(counted, DefaultTypes[n - 1])|]
  }

  /** Column `j` holds the number of counted transactions of the `j`-th
      default type. */
  lemma {:induction false} TypeColumnsSpec(counted: seq<Counted>, n: nat := |DefaultTypes|)
    requires n <= |DefaultTypes|
    ensures |TypeColumns(counted, n)| == n
    ensures forall j :: 0 <= j < n ==> TypeColumns(counted, n)[j] == |Only(counted, DefaultTypes[j])|
  {
    if n > 0 {
      TypeColumnsSpec(counted, n - 1);
    }
  }

  /** The row of a block whose counted transactions are `counted`: the
      block's own gas used when it has the field, else the receipts' sum. */
  function BlockRow(b: Block, counted: seq<Counted>): CsvRow
  {
    CsvRow(b.number, b.timestamp, |b.txs|, TypeColumns(counted),
           if b.gasUsed.Some? then b.gasUsed.value else SumGas(counted), b.gasLimit)
  }

  /** The rows of the first `n` processed blocks, one per run, numbered
      from `start`. */
  function RowsOf(node: Node, start: int, runs: seq<seq<Counted>>, n: nat := |runs|): seq<CsvRow>
    requires n <= |runs|
  {
    if n == 0 then []
    else RowsOf(node, start, runs, n - 1) + [BlockRow(BlockAt(node, start + n - 1), runs[n - 1])]
  }

  lemma {:induction false} RowsOfPrefix(node: Node, start: int, a: seq<seq<Counted>>, b: seq<seq<Counted>>, n: nat)
    requires n <= |a|
    ensures RowsOf(node, start, a + b, n) == RowsOf(node, start, a, n)
  {
    if n > 0 {
      RowsOfPrefix(node, start, a, b, n - 1);
    }
  }

  lemma RowsOfSnoc(node: Node, start: int, runs: seq<seq<Counted>>, r: seq<Counted>)
    ensures RowsOf(node, start, runs + [r]) == RowsOf(node, start, runs) + [BlockRow(BlockAt(node, start + |runs|), r)]
  {
    RowsOfPrefix(node, start, runs, [r], |runs|);
  }

  /** The summary `profile_chunk` returns, before formatting. */
  datatype ChunkSummary = ChunkSummary(
    startBlock: int, endBlock: int, blockCount: int,
    totalTx: nat, totalEthWei: nat, stats: StatsTable,
    topContracts: Counters.Counter, topTokens: Counters.Counter)

  function Summarize(start: int, end: int, cs: seq<Counted>): ChunkSummary
  {
    ChunkSummary(start, end, end - start + 1, |cs|, SumValue(cs), Tabulate(cs),
                 AddressTally(cs, ToAddress), AddressTally(cs, TokenAddress))
  }

  /** The summary built from the chunk's running totals is the summary of
      the transactions they counted. */
  lemma SummaryOfTotals(start: int, end: int, cs: seq<Counted>, t: Totals)
    requires t == StepAll(NoTotals, cs)
    ensures ChunkSummary(start, end, end - start + 1, t.totalTx, t.totalEthWei, t.stats, t.topContracts, t.topTokens)
         == Summarize(start, end, cs)
  {
    StepAllMeaning(cs);
  }

  /** The counted transaction went through the contract-code check: it was
      sent to an address, carried no token log and no value, and the check
      was on. */
  predicate Probed(c: Counted, skipContractCheck: bool)
  {
    !skipContractCheck && c.to.Some? && c.value == 0 && c.txType in {OtherContractCall, OtherEoaCall}
  }

  /** The address whose code the check on `c` looks up, if any. */
  function ProbeOf(c: Counted, skipContractCheck: bool): set<string>
  {
    if Probed(c, skipContractCheck) then {Lower(c.to.value)} else {}
  }

  /** The addresses whose code the first `n` of `cs` look up. */
  function Probes(cs: seq<Counted>, skipContractCheck: bool, n: nat := |cs|): set<string>
    requires n <= |cs|
  {
    if n == 0 then {} else Probes(cs, skipContractCheck, n - 1) + ProbeOf(cs[n - 1], skipContractCheck)
  }

  /** The keys of the contract cache after `cs` have been counted, starting
      from `keys0`: each address the check was asked about is added. */
  predicate KnownAfter(keys: set<string>, keys0: set<string>, cs: seq<Counted>, skipContractCheck: bool)
  {
    keys == keys0 + Probes(cs, skipContractCheck)
  }

  /** A counted transaction is probed exactly when its classification
      reaches the contract-code check. */
  lemma ProbedOf(e: TxEntry, node: Node, opts: Options)
    requires e.receipt.Some?
    ensures Probed(CountedOf(e, node, opts), opts.skipContractCheck)
        <==> NeedsCodeCheck(e.tx, e.receipt.value.logs, opts.skipContractCheck)
  {
    ClassifyFromLogsDecision(e.receipt.value.logs);
    ClassifyDecisionTable(e.tx, e.receipt.value.logs, opts.skipContractCheck, node.getCode);
  }

  lemma {:induction false} ProbesPrefix(a: seq<Counted>, b: seq<Counted>, skip: bool, n: nat)
    requires n <= |a|
    ensures Probes(a + b, skip, n) == Probes(a, skip, n)
  {
    if n > 0 {
      ProbesPrefix(a, b, skip, n - 1);
    }
  }

  lemma {:induction false} ProbesAppendPrefix(a: seq<Counted>, b: seq<Counted>, skip: bool, m: nat)
    requires m <= |b|
    ensures Probes(a + b, skip, |a| + m) == Probes(a, skip) + Probes(b, skip, m)
  {
    if m == 0 {
      ProbesPrefix(a, b, skip, |a|);
    } else {
      ProbesAppendPrefix(a, b, skip, m - 1);
      assert (a + b)[|a| + m - 1] == b[m - 1];
    }
  }

  lemma ProbesSnoc(cs: seq<Counted>, c: Counted, skip: bool)
    ensures Probes(cs + [c], skip) == Probes(cs, skip) + ProbeOf(c, skip)
  {
    ProbesPrefix(cs, [c], skip, |cs|);
    assert (cs + [c])[|cs|] == c;
  }

  /** The lookups of two runs are those of either. */
  lemma ProbesAppend(a: seq<Counted>, b: seq<Counted>, skip: bool)
    ensures Probes(a + b, skip) == Probes(a, skip) + Probes(b, skip)
  {
    ProbesAppendPrefix(a, b, skip, |b|);
  }

  /** The addresses looked up are exactly the lower-cased `to` addresses of
      the probed transactions. */
  lemma {:induction false} ProbesMeaning(cs: seq<Counted>, skip: bool, n: nat := |cs|)
    requires n <= |cs|
    ensures forall a :: a in Probes(cs, skip, n) <==>
      exists i :: 0 <= i < n && Probed(cs[i], skip) && Lower(cs[i].to.value) == a
  {
    if n > 0 {
      ProbesMeaning(cs, skip, n - 1);
    }
  }

  /** The body of the transaction loop for an entry whose receipt arrived:
      classify it and count it in the chunk's totals. */
  method CountTx(e: TxEntry, node: Node, opts: Options, acc: ChunkAccumulator, cache: ContractCache)
    returns (c: Counted)
    requires e.receipt.Some?
    requires cache.Valid() && cache.getCode == node.getCode
    modifies acc, cache
    ensures cache.Valid() && cache.getCode == node.getCode
    ensures old(cache.queried) <= cache.queried
    ensures cache.known.Keys == old(cache.known.Keys) + ProbeOf(c, opts.skipContractCheck)
    ensures c == CountedOf(e, node, opts)
    ensures acc.Snapshot() == Step(old(acc.Snapshot()), c)
    ensures acc.totalTx == old(acc.totalTx) + 1
  {
    var receipt := e.receipt.value;
    var r := ClassifyWithCache(e.tx, receipt.logs, opts.skipContractCheck, cache);
    c := Counted(r.txType, receipt.gasUsed, e.tx.gasPrice, e.tx.value, e.tx.to, r.token);
    ProbedOf(e, node, opts);
    acc.Count(c);
  }

  /** `block_counts`: the number of counted transactions of each type. */
  function TypeCounts(cs: seq<Counted>, n: nat := |cs|): map<TxType, nat>
    requires n <= |cs|
  {
    if n == 0 then map[]
    else
      var m := TypeCounts(cs, n - 1);
      var t := cs[n - 1].txType;
      m[t := CountIn(m, t) + 1]
  }

  lemma {:induction false} TypeCountsPrefix(a: seq<Counted>, b: seq<Counted>, n: nat)
    requires n <= |a|
    ensures TypeCounts(a + b, n) == TypeCounts(a, n)
  {
    if n > 0 {
      TypeCountsPrefix(a, b, n - 1);
    }
  }

  lemma TypeCountsSnoc(cs: seq<Counted>, c: Counted)
    ensures TypeCounts(cs + [c]) == TypeCounts(cs)[c.txType := CountIn(TypeCounts(cs), c.txType) + 1]
    ensures SumGas(cs + [c]) == SumGas(cs) + c.gasUsed
  {
    TypeCountsPrefix(cs, [c], |cs|);
    SumsSnoc(cs, c);
  }

  /** Each type's count is the number of counted transactions of that type. */
  lemma {:induction false} TypeCountsSpec(cs: seq<Counted>, n: nat := |cs|)
    requires n <= |cs|
    ensures forall t :: CountIn(TypeCounts(cs, n), t) == |Only(cs, t, n)|
  {
    if n > 0 {
      TypeCountsSpec(cs, n - 1);
    }
  }

  /** One pass of the transaction loop for an entry whose receipt arrived,
      before the cap: the transaction is counted in the chunk's totals and
      in the block's per-type counts and gas sum. */
  method CountEntry(txs: seq<TxEntry>, i: nat, node: Node, opts: Options, acc: ChunkAccumulator, cache: ContractCache,
                    blockCounts: map<TxType, nat>, blockGasUsed: nat, ghost before: nat, ghost initial: Totals,
                    ghost counted: seq<Counted>, ghost keys0: set<string>)
    returns (blockCounts': map<TxType, nat>, blockGasUsed': nat, ghost counted': seq<Counted>)
    requires i < |txs| && txs[i].receipt.Some?
    requires counted == BlockCounts(txs, i, before, node, opts) && !Stopped(before, counted, opts)
    requires cache.Valid() && cache.getCode == node.getCode
    requires acc.Snapshot() == StepAll(initial, counted) && acc.totalTx == before + |counted|
    requires blockCounts == TypeCounts(counted) && blockGasUsed == SumGas(counted)
    requires KnownAfter(cache.known.Keys, keys0, counted, opts.skipContractCheck)
    modifies acc, cache
    ensures cache.Valid() && cache.getCode == node.getCode
    ensures old(cache.queried) <= cache.queried
    ensures KnownAfter(cache.known.Keys, keys0, counted', opts.skipContractCheck)
    ensures counted' == BlockCounts(txs, i + 1, before, node, opts)
    ensures acc.Snapshot() == StepAll(initial, counted') && acc.totalTx == before + |counted'|
    ensures blockCounts' == TypeCounts(counted') && blockGasUsed' == SumGas(counted')
  {
    ghost var keys := cache.known.Keys;
    EntryStep(txs, i, before, node, opts, counted);
    var c := CountTx(txs[i], node, opts, acc, cache);
    counted' := counted + [c];
    blockCounts' := blockCounts[c.txType := CountIn(blockCounts, c.txType) + 1];
    blockGasUsed' := blockGasUsed + c.gasUsed;
    TallyStep(counted, c, blockCounts, blockGasUsed);
    StepAllSnoc(initial, counted, c);
    KeysStep(keys0, keys, counted, c, opts.skipContractCheck);
  }

  /** The block's per-type counts and gas sum after one more counted transaction. */
  lemma TallyStep(counted: seq<Counted>, c: Counted, blockCounts: map<TxType, nat>, blockGasUsed: nat)
    requires blockCounts == TypeCounts(counted) && blockGasUsed == SumGas(counted)
    ensures blockCounts[c.txType := CountIn(blockCounts, c.txType) + 1] == TypeCounts(counted + [c])
    ensures blockGasUsed + c.gasUsed == SumGas(counted + [c])
  {
    TypeCountsSnoc(counted, c);
  }

  /** The codes known after one more counted transaction. */
  lemma KeysStep(keys0: set<string>, keys: set<string>, counted: seq<Counted>, c: Counted, skipContractCheck: bool)
    requires KnownAfter(keys, keys0, counted, skipContractCheck)
    ensures KnownAfter(keys + ProbeOf(c, skipContractCheck), keys0, counted + [c], skipContractCheck)
  {
    ProbesSnoc(counted, c, skipContractCheck);
  }

  /** One more entry of a block whose receipt arrived, before the cap, is
      counted. */
  lemma EntryStep(txs: seq<TxEntry>, i: nat, before: nat, node: Node, opts: Options, counted: seq<Counted>)
    requires i < |txs| && txs[i].receipt.Some?
    requires counted == BlockCounts(txs, i, before, node, opts) && !Stopped(before, counted, opts)
    ensures BlockCounts(txs, i + 1, before, node, opts) == counted + [CountedOf(txs[i], node, opts)]
  {
  }

  /** Once the cap is reached, the block's run is what has been counted. */
  lemma CapStops(txs: seq<TxEntry>, i: nat, before: nat, node: Node, opts: Options, counted: seq<Counted>)
    requires 0 < i <= |txs| && counted == BlockCounts(txs, i, before, node, opts)
    requires |counted| > 0 && CapReached(before + |counted|, opts.txCap)
    ensures counted == BlockRun(txs, before, node, opts)
  {
    BlockStoppedStays(txs, i, |txs|, before, node, opts);
  }

  /** An entry whose receipt did not arrive is skipped. */
  lemma SkipStep(txs: seq<TxEntry>, i: nat, before: nat, node: Node, opts: Options, counted: seq<Counted>)
    requires i < |txs| && txs[i].receipt.None? && counted == BlockCounts(txs, i, before, node, opts)
    ensures BlockCounts(txs, i + 1, before, node, opts) == counted
  {
  }

  /** The transaction loop of one block: counts each transaction whose
      receipt arrived, keeps the block's per-type counts and gas sum, and
      stops once the cap is reached. */
  method CountBlock(txs: seq<TxEntry>, node: Node, opts: Options, acc: ChunkAccumulator, cache: ContractCache)
    returns (blockCounts: map<TxType, nat>, blockGasUsed: nat, ghost counted: seq<Counted>)
    requires cache.Valid() && cache.getCode == node.getCode
    modifies acc, cache
    ensures cache.Valid() && cache.getCode == node.getCode
    ensures old(cache.queried) <= cache.queried
    ensures KnownAfter(cache.known.Keys, old(cache.known.Keys), counted, opts.skipContractCheck)
    ensures counted == BlockRun(txs, old(acc.totalTx), node, opts)
    ensures acc.Snapshot() == StepAll(old(acc.Snapshot()), counted)
    ensures acc.totalTx == old(acc.totalTx) + |counted|
    ensures blockCounts == TypeCounts(counted) && blockGasUsed == SumGas(counted)
  {
    ghost var before := acc.totalTx;
    ghost var initial := acc.Snapshot();
    ghost var queried0, keys0 := cache.queried, cache.known.Keys;
    blockCounts, blockGasUsed, counted := map[], 0, [];
    var i := 0;
    while i < |txs|
      invariant 0 <= i <= |txs|
      invariant cache.Valid() && cache.getCode == node.getCode
      invariant counted == BlockCounts(txs, i, before, node, opts) && !Stopped(before, counted, opts)
      invariant acc.Snapshot() == StepAll(initial, counted) && acc.totalTx == before + |counted|
      invariant blockCounts == TypeCounts(counted) && blockGasUsed == SumGas(counted)
      invariant queried0 <= cache.queried
      invariant KnownAfter(cache.known.Keys, keys0, counted, opts.skipContractCheck)
    {
      if txs[i].receipt.Some? {
        blockCounts, blockGasUsed, counted :=
          CountEntry(txs, i, node, opts, acc, cache, blockCounts, blockGasUsed, before, initial, counted, keys0);
        if CapReached(acc.totalTx, opts.txCap) {
          CapStops(txs, i + 1, before, node, opts, counted);
          break;
        }
      } else {
        SkipStep(txs, i, before, node, opts, counted);
      }
      i := i + 1;
    }
    assert counted == BlockRun(txs, before, node, opts);
  }

  /** The CSV row of a block, from the block's per-type counts and receipt
      gas sum. */
  method BuildRow(block: Block, blockCounts: map<TxType, nat>, blockGasUsed: nat, ghost counted: seq<Counted>)
    returns (row: CsvRow)
    requires blockCounts == TypeCounts(counted) && blockGasUsed == SumGas(counted)
    ensures row == BlockRow(block, counted)
  {
    var typeCounts := [];
    for j := 0 to |DefaultTypes|
      invariant typeCounts == TypeColumns(counted, j)
    {
      TypeColumnStep(counted, blockCounts, j);
      typeCounts := typeCounts + [CountIn(blockCounts, DefaultTypes[j])];
    }
    var gasUsed := if block.gasUsed.Some? then block.gasUsed.value else blockGasUsed;
    row := CsvRow(block.number, block.timestamp, |block.txs|, typeCounts, gasUsed, block.gasLimit);
  }

  /** One pass of the column loop of `BuildRow`: the block's count of the
      `j`-th default type is that type's column. */
  lemma TypeColumnStep(counted: seq<Counted>, blockCounts: map<TxType, nat>, j: nat)
    requires blockCounts == TypeCounts(counted) && j < |DefaultTypes|
    ensures TypeColumns(counted, j + 1) == TypeColumns(counted, j) + [CountIn(blockCounts, DefaultTypes[j])]
  {
    TypeCountsSpec(counted);
  }

  /** One more pass of the block loop appends the next block's counted
      transactions and its row. */
  lemma Advance(node: Node, start: int, k: nat, opts: Options, runs: seq<seq<Counted>>, r: seq<Counted>,
                 rows: seq<CsvRow>, row: CsvRow)
    requires runs == Progress(node, start, k, opts) && !Halted(runs, opts)
    requires r == NextRun(runs, node, start, opts) && rows == RowsOf(node, start, runs)
    requires row == BlockRow(BlockAt(node, start + |runs|), r)
    ensures runs + [r] == Progress(node, start, k + 1, opts)
    ensures rows + [row] == RowsOf(node, start, runs + [r])
  {
    RowsOfSnoc(node, start, runs, r);
  }

  /** The body of the block loop: fetch block `start + |runs|`, count its
      transactions and build its CSV row. */
  method ProfileBlock(node: Node, start: int, bnum: int, opts: Options, acc: ChunkAccumulator,
                      cache: ContractCache, ghost runs: seq<seq<Counted>>, ghost keys0: set<string>)
    returns (row: CsvRow, ghost counted: seq<Counted>)
    requires cache.Valid() && cache.getCode == node.getCode
    requires bnum == start + |runs|
    requires acc.Snapshot() == StepAll(NoTotals, Flatten(runs)) && acc.totalTx == |Flatten(runs)|
    requires KnownAfter(cache.known.Keys, keys0, Flatten(runs), opts.skipContractCheck)
    modifies acc, cache
    ensures cache.Valid() && cache.getCode == node.getCode
    ensures old(cache.queried) <= cache.queried
    ensures KnownAfter(cache.known.Keys, keys0, Flatten(runs + [counted]), opts.skipContractCheck)
    ensures counted == NextRun(runs, node, start, opts)
    ensures row == BlockRow(BlockAt(node, start + |runs|), counted)
    ensures acc.Snapshot() == StepAll(NoTotals, Flatten(runs + [counted]))
    ensures acc.totalTx == |Flatten(runs + [counted])|
  {
    var block := BlockAt(node, bnum);
    ghost var next := NextRun(runs, node, start, opts);
    assert next == BlockRun(block.txs, acc.totalTx, node, opts);
    ghost var keys := cache.known.Keys;
    var blockCounts, blockGasUsed;
    blockCounts, blockGasUsed, counted := CountBlock(block.txs, node, opts, acc, cache);
    row := BuildRow(block, blockCounts, blockGasUsed, counted);
    FlattenSnoc(runs, counted);
    StepAllAppend(NoTotals, Flatten(runs), counted);
    KeysAppend(keys0, keys, runs, counted, opts.skipContractCheck);
  }

  /** The codes known after one more block's counted transactions. */
  lemma KeysAppend(keys0: set<string>, keys: set<string>, runs: seq<seq<Counted>>, counted: seq<Counted>,
                   skipContractCheck: bool)
    requires KnownAfter(keys, keys0, Flatten(runs), skipContractCheck)
    ensures KnownAfter(keys + Probes(counted, skipContractCheck), keys0, Flatten(runs + [counted]), skipContractCheck)
  {
    FlattenSnoc(runs, counted);
    ProbesAppend(Flatten(runs), counted, skipContractCheck);
  }

  /** The block loop of `profile_chunk` over `[start, end]`: processes
      blocks in order until the range or the cap runs out, writing one row
      per block processed. */
  method ProcessBlocks(node: Node, start: int, end: int, opts: Options, acc: ChunkAccumulator,
                       cache: ContractCache)
    returns (rows: seq<CsvRow>, ghost runs: seq<seq<Counted>>)
    requires cache.Valid() && cache.getCode == node.getCode
    requires acc.Snapshot() == NoTotals && acc.totalTx == 0
    modifies acc, cache
    ensures cache.Valid() && cache.getCode == node.getCode
    ensures old(cache.queried) <= cache.queried
    ensures KnownAfter(cache.known.Keys, old(cache.known.Keys), Flatten(runs), opts.skipContractCheck)
    ensures runs == ProfileRuns(node, start, end, opts)
    ensures rows == RowsOf(node, start, runs)
    ensures acc.Snapshot() == StepAll(NoTotals, Flatten(runs))
  {
    ghost var queried0, keys0 := cache.queried, cache.known.Keys;
    rows, runs := [], [];
    var bnum := start;
    var stop := false;
    ghost var k: nat := 0;
    while bnum <= end && !stop
      invariant cache.Valid() && cache.getCode == node.getCode
      invariant queried0 <= cache.queried
      invariant KnownAfter(cache.known.Keys, keys0, Flatten(runs), opts.skipContractCheck)
      invariant bnum == start + k && k <= BlockCount(start, end)
      invariant runs == Progress(node, start, k, opts) && stop == Halted(runs, opts)
      invariant !stop ==> |runs| == k
      invariant rows == RowsOf(node, start, runs)
      invariant acc.Snapshot() == StepAll(NoTotals, Flatten(runs)) && acc.totalTx == |Flatten(runs)|
      decreases end + 1 - bnum
    {
      var row, counted := ProfileBlock(node, start, bnum, opts, acc, cache, runs, keys0);
      Advance(node, start, k, opts, runs, counted, rows, row);
      rows := rows + [row];
      runs := runs + [counted];
      stop := CapReached(acc.totalTx, opts.txCap);
      bnum := bnum + 1;
      k := k + 1;
    }
    LoopExit(node, start, end, k, opts);
  }

  /** `profile_chunk` over `[start, end]`: the summary and the CSV rows it
      writes are those of the counted transactions `ProfileRuns` describes,
      and the contract-code lookups it makes (`lookups`, in order) are the
      lower-cased `to` addresses of the transactions that reach the check,
      each asked for once. */
  method ProfileChunk(node: Node, start: int, end: int, opts: Options)
    returns (summary: ChunkSummary, rows: seq<CsvRow>, ghost lookups: seq<string>)
    ensures summary == Summarize(start, end, Flatten(ProfileRuns(node, start, end, opts)))
    ensures rows == RowsOf(node, start, ProfileRuns(node, start, end, opts))
    ensures forall i, j :: 0 <= i < j < |lookups| ==> lookups[i] != lookups[j]
    ensures forall a :: a in lookups <==> a in Probes(Flatten(ProfileRuns(node, start, end, opts)), opts.skipContractCheck)
  {
    var acc := new ChunkAccumulator();
    var cache := new ContractCache(node.getCode);
    ghost var runs;
    rows, runs := ProcessBlocks(node, start, end, opts, acc, cache);
    summary := ChunkSummary(start, end, end - start + 1, acc.totalTx, acc.totalEthWei, acc.stats,
                            acc.topContracts, acc.topTokens);
    SummaryOfTotals(start, end, Flatten(runs), acc.Snapshot());
    lookups := cache.queried;
  }
}
