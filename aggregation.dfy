/** The per-type statistics `profile_chunk` accumulates: one `TxStats`
    bucket per transaction type, the totals, and the top-contract and
    top-token counters. */
module Aggregation {
  import opened Wrappers
  import opened TxTypes
  import opened LogClassifier
  import Counters

  /** `TxStats`: wei and gas sums are unbounded integers. */
  datatype TxStats = TxStats(count: nat, gasUsed: nat, gasPriceWeiSum: nat, ethValueWeiSum: nat)

  /** What one counted transaction contributes: its type, receipt gas,
      gas price, value, `to` address and attributed token. */
  datatype Counted = Counted(txType: TxType, gasUsed: nat, gasPrice: nat, value: nat,
                             to: Option<string>, token: Option<string>)

  /** `tx_type_stats`: a type is present once a transaction of it counted. */
  type StatsTable = map<TxType, TxStats>

  /** The bucket of `t`, with the `defaultdict` fallback. */
  function StatOf(m: StatsTable, t: TxType): TxStats
  {
    if t in m then m[t] else TxStats(0, 0, 0, 0)
  }

  /** The four `+=` lines on one bucket. */
  function Bump(s: TxStats, c: Counted): TxStats
  {
    TxStats(s.count + 1, s.gasUsed + c.gasUsed, s.gasPriceWeiSum + c.gasPrice, s.ethValueWeiSum + c.value)
  }

  /** `tx_type_stats[t]` after counting `c`: its bucket bumped. */
  function Record(m: StatsTable, c: Counted): StatsTable
  {
    m[c.txType := Bump(StatOf(m, c.txType), c)]
  }

  /** The table after counting the first `n` of `cs` in order. */
  function Tabulate(cs: seq<Counted>, n: nat := |cs|): StatsTable
    requires n <= |cs|
  {
    if n == 0 then map[]
    else
      var m := Tabulate(cs, n - 1);
      var c := cs[n - 1];
      Record(m, c)
  }

  /** The transactions of type `t` among the first `n` of `cs`, in order. */
  function Only(cs: seq<Counted>, t: TxType, n: nat := |cs|): (r: seq<Counted>)
    requires n <= |cs|
    ensures |r| <= n
    ensures forall i :: 0 <= i < |r| ==> r[i].txType == t
    ensures forall i :: 0 <= i < n && cs[i].txType == t ==> cs[i] in r
  {
    if n == 0 then []
    else Only(cs, t, n - 1) + if cs[n - 1].txType == t then [cs[n - 1]] else []
  }

  function SumGas(cs: seq<Counted>, n: nat := |cs|): nat
    requires n <= |cs|
  {
    if n == 0 then 0 else SumGas(cs, n - 1) + cs[n - 1].gasUsed
  }

  function SumPrice(cs: seq<Counted>, n: nat := |cs|): nat
    requires n <= |cs|
  {
    if n == 0 then 0 else SumPrice(cs, n - 1) + cs[n - 1].gasPrice
  }

  function SumValue(cs: seq<Counted>, n: nat := |cs|): nat
    requires n <= |cs|
  {
    if n == 0 then 0 else SumValue(cs, n - 1) + cs[n - 1].value
  }

  /** `if a: counter[a.lower()] += 1`. */
  function Note(c: Counters.Counter, a: Option<string>): Counters.Counter
  {
    if a.Some? && a.value != "" then Counters.Add(c, Lower(a.value), 1) else c
  }

  /** The two address counters: `top_contracts` counts `to` addresses,
      `top_tokens` counts attributed tokens. */
  datatype AddressField = ToAddress | TokenAddress

  function AddressOf(c: Counted, f: AddressField): Option<string>
  {
    if f == ToAddress then c.to else c.token
  }

  /** `a` is present and non-empty, and lower-cases to `k`. */
  predicate Keyed(a: Option<string>, k: string)
  {
    a.Some? && a.value != "" && Lower(a.value) == k
  }

  /** The counter of `f` after counting the first `n` of `cs`. */
  function AddressTally(cs: seq<Counted>, f: AddressField, n: nat := |cs|): Counters.Counter
    requires n <= |cs|
  {
    if n == 0 then Counters.Empty else Note(AddressTally(cs, f, n - 1), AddressOf(cs[n - 1], f))
  }

  /** The number of transactions among the first `n` of `cs` whose `f`
      address lower-cases to `k`. */
  function AddressCount(cs: seq<Counted>, f: AddressField, k: string, n: nat := |cs|): nat
    requires n <= |cs|
  {
    if n == 0 then 0 else AddressCount(cs, f, k, n - 1) + if Keyed(AddressOf(cs[n - 1], f), k) then 1 else 0
  }

  /** An address counter is well formed, counts each lower-cased address
      once per transaction that carries it, and lists exactly the addresses
      met. */
  lemma {:induction false} AddressTallyCounts(cs: seq<Counted>, f: AddressField, n: nat := |cs|)
    requires n <= |cs|
    ensures Counters.Valid(AddressTally(cs, f, n))
    ensures forall k :: Counters.Get(AddressTally(cs, f, n), k) == AddressCount(cs, f, k, n)
    ensures forall k :: k in AddressTally(cs, f, n).keys <==> AddressCount(cs, f, k, n) > 0
  {
    if n > 0 {
      AddressTallyCounts(cs, f, n - 1);
      var a := AddressOf(cs[n - 1], f);
      if a.Some? && a.value != "" {
        Counters.AddSpec(AddressTally(cs, f, n - 1), Lower(a.value), 1);
      }
    }
  }

  /** Each per-transaction fold only looks at the transactions it is asked
      to fold, so a longer sequence does not change it. */
  lemma {:induction false} FoldsPrefix(a: seq<Counted>, b: seq<Counted>, n: nat)
    requires n <= |a|
    ensures Tabulate(a + b, n) == Tabulate(a, n)
    ensures forall t :: Only(a + b, t, n) == Only(a, t, n)
    ensures SumGas(a + b, n) == SumGas(a, n)
    ensures SumPrice(a + b, n) == SumPrice(a, n)
    ensures SumValue(a + b, n) == SumValue(a, n)
    ensures forall f, k :: AddressCount(a + b, f, k, n) == AddressCount(a, f, k, n)
  {
    if n > 0 {
      FoldsPrefix(a, b, n - 1);
    }
  }

  lemma SumsSnoc(s: seq<Counted>, c: Counted)
    ensures SumGas(s + [c]) == SumGas(s) + c.gasUsed
    ensures SumPrice(s + [c]) == SumPrice(s) + c.gasPrice
    ensures SumValue(s + [c]) == SumValue(s) + c.value
  {
    FoldsPrefix(s, [c], |s|);
  }

  lemma OnlySnoc(s: seq<Counted>, c: Counted, t: TxType)
    ensures Only(s + [c], t) == Only(s, t) + if c.txType == t then [c] else []
  {
    FoldsPrefix(s, [c], |s|);
  }

  /** Bumping the bucket of `c`'s type leaves every other bucket alone. */
  lemma BucketStep(m: StatsTable, c: Counted, t: TxType)
    ensures StatOf(Record(m, c), t) ==
      if c.txType == t then Bump(StatOf(m, t), c) else StatOf(m, t)
  {
  }

  /** The bucket of `t` after counting `cs`, read off the transactions of
      type `t` alone. */
  function Expected(o: seq<Counted>): TxStats
  {
    TxStats(|o|, SumGas(o), SumPrice(o), SumValue(o))
  }

  /** Each bucket holds exactly the count and sums of the transactions of
      its type, and a type has a bucket exactly when one of them counted. */
  lemma {:induction false} TabulateIsPerTypeSums(cs: seq<Counted>, t: TxType, n: nat := |cs|)
    requires n <= |cs|
    ensures StatOf(Tabulate(cs, n), t) == Expected(Only(cs, t, n))
    ensures t in Tabulate(cs, n) <==> |Only(cs, t, n)| > 0
  {
    if n > 0 {
      var c := cs[n - 1];
      TabulateIsPerTypeSums(cs, t, n - 1);
      BucketStep(Tabulate(cs, n - 1), c, t);
      if c.txType == t {
        SumsSnoc(Only(cs, t, n - 1), c);
      } else {
        assert Only(cs, t, n) == Only(cs, t, n - 1);
      }
    }
  }

  /** The sum of `f` over the eight buckets. */
  function Total(m: StatsTable, f: TxStats -> nat): nat
  {
    f(StatOf(m, EthTransfer)) + f(StatOf(m, ContractCreation)) + f(StatOf(m, Erc20Transfer))
    + f(StatOf(m, Erc721Transfer)) + f(StatOf(m, Erc1155Transfer)) + f(StatOf(m, OtherContractCall))
    + f(StatOf(m, MixedTokenActivity)) + f(StatOf(m, OtherEoaCall))
  }

  function CountField(s: TxStats): nat { s.count }
  function ValueField(s: TxStats): nat { s.ethValueWeiSum }

  /** Bumping one bucket raises the total count by one and the total value
      by the transaction's value. */
  lemma TotalBump(m: StatsTable, c: Counted)
    ensures var m' := Record(m, c);
      Total(m', CountField) == Total(m, CountField) + 1 &&
      Total(m', ValueField) == Total(m, ValueField) + c.value
  {
    var m' := m[c.txType := Bump(StatOf(m, c.txType), c)];
    forall t | t != c.txType ensures StatOf(m', t) == StatOf(m, t) { }
    assert StatOf(m', c.txType) == Bump(StatOf(m, c.txType), c);
    match c.txType
    case EthTransfer =>
    case ContractCreation =>
    case Erc20Transfer =>
    case Erc721Transfer =>
    case Erc1155Transfer =>
    case OtherContractCall =>
    case MixedTokenActivity =>
    case OtherEoaCall =>
  }

  /** Every counted transaction lands in exactly one bucket: the counts add
      up to the number counted, and the value sums to the total value. */
  lemma {:induction false} TabulateTotals(cs: seq<Counted>, n: nat := |cs|)
    requires n <= |cs|
    ensures Total(Tabulate(cs, n), CountField) == n
    ensures Total(Tabulate(cs, n), ValueField) == SumValue(cs, n)
  {
    if n > 0 {
      TabulateTotals(cs, n - 1);
      TotalBump(Tabulate(cs, n - 1), cs[n - 1]);
    }
  }

  lemma {:induction false} OnlyAppendPrefix(a: seq<Counted>, b: seq<Counted>, t: TxType, m: nat)
    requires m <= |b|
    ensures Only(a + b, t, |a| + m) == Only(a, t) + Only(b, t, m)
  {
    if m == 0 {
      FoldsPrefix(a, b, |a|);
    } else {
      OnlyAppendPrefix(a, b, t, m - 1);
      assert (a + b)[|a| + m - 1] == b[m - 1];
    }
  }

  /** `Only` distributes over concatenation. */
  lemma OnlyAppend(a: seq<Counted>, b: seq<Counted>, t: TxType)
    ensures Only(a + b, t) == Only(a, t) + Only(b, t)
  {
    OnlyAppendPrefix(a, b, t, |b|);
  }

  lemma {:induction false} SumsAppendPrefix(a: seq<Counted>, b: seq<Counted>, m: nat)
    requires m <= |b|
    ensures SumGas(a + b, |a| + m) == SumGas(a) + SumGas(b, m)
    ensures SumPrice(a + b, |a| + m) == SumPrice(a) + SumPrice(b, m)
    ensures SumValue(a + b, |a| + m) == SumValue(a) + SumValue(b, m)
  {
    if m == 0 {
      FoldsPrefix(a, b, |a|);
    } else {
      SumsAppendPrefix(a, b, m - 1);
      assert (a + b)[|a| + m - 1] == b[m - 1];
    }
  }

  /** The three sums distribute over concatenation. */
  lemma SumsAppend(a: seq<Counted>, b: seq<Counted>)
    ensures SumGas(a + b) == SumGas(a) + SumGas(b)
    ensures SumPrice(a + b) == SumPrice(a) + SumPrice(b)
    ensures SumValue(a + b) == SumValue(a) + SumValue(b)
  {
    SumsAppendPrefix(a, b, |b|);
  }

  lemma {:induction false} AddressCountAppendPrefix(a: seq<Counted>, b: seq<Counted>, f: AddressField, k: string, m: nat)
    requires m <= |b|
    ensures AddressCount(a + b, f, k, |a| + m) == AddressCount(a, f, k) + AddressCount(b, f, k, m)
  {
    if m == 0 {
      FoldsPrefix(a, b, |a|);
    } else {
      AddressCountAppendPrefix(a, b, f, k, m - 1);
      assert (a + b)[|a| + m - 1] == b[m - 1];
    }
  }

  /** Address counts distribute over concatenation. */
  lemma AddressCountAppend(a: seq<Counted>, b: seq<Counted>, f: AddressField, k: string)
    ensures AddressCount(a + b, f, k) == AddressCount(a, f, k) + AddressCount(b, f, k)
  {
    AddressCountAppendPrefix(a, b, f, k, |b|);
  }

  /** Two buckets added field by field (`s.count += v["count"]`, ...). */
  function AddStats(s: TxStats, u: TxStats): TxStats
  {
    TxStats(s.count + u.count, s.gasUsed + u.gasUsed, s.gasPriceWeiSum + u.gasPriceWeiSum,
            s.ethValueWeiSum + u.ethValueWeiSum)
  }

  /** `b`'s buckets added into `a`'s, field by field. */
  function MergeStats(a: StatsTable, b: StatsTable): StatsTable
  {
    map t | t in a.Keys + b.Keys :: AddStats(StatOf(a, t), StatOf(b, t))
  }

  /** Merging adds the buckets type by type, a missing bucket counting as
      zero, and a type has a merged bucket when either table has one. */
  lemma MergeStatsSpec(a: StatsTable, b: StatsTable)
    ensures forall t :: StatOf(MergeStats(a, b), t) == AddStats(StatOf(a, t), StatOf(b, t))
    ensures forall t :: t in MergeStats(a, b) <==> t in a || t in b
  {
  }

  /** Two tables with the same types and the same bucket for each are
      the same table. */
  lemma TablesEqual(a: StatsTable, b: StatsTable)
    requires forall t :: t in a <==> t in b
    requires forall t :: StatOf(a, t) == StatOf(b, t)
    ensures a == b
  {
    assert forall t | t in a :: a[t] == StatOf(a, t) == StatOf(b, t) == b[t];
  }

  /** The bucket of two runs of one type is the sum of their buckets. */
  lemma ExpectedAppend(x: seq<Counted>, y: seq<Counted>)
    ensures AddStats(Expected(x), Expected(y)) == Expected(x + y)
  {
    SumsAppend(x, y);
  }

  /** The bucket of one type in the merged tables of two runs. */
  lemma MergeTabulateAt(a: seq<Counted>, b: seq<Counted>, t: TxType)
    ensures StatOf(MergeStats(Tabulate(a), Tabulate(b)), t) == StatOf(Tabulate(a + b), t)
    ensures t in MergeStats(Tabulate(a), Tabulate(b)) <==> t in Tabulate(a + b)
  {
    MergeStatsSpec(Tabulate(a), Tabulate(b));
    TabulateIsPerTypeSums(a, t);
    TabulateIsPerTypeSums(b, t);
    TabulateIsPerTypeSums(a + b, t);
    OnlyAppend(a, b, t);
    ExpectedAppend(Only(a, t), Only(b, t));
  }

  /** Merging the tables of two runs of transactions gives the table of
      the two runs one after the other. */
  lemma MergeTabulate(a: seq<Counted>, b: seq<Counted>)
    ensures MergeStats(Tabulate(a), Tabulate(b)) == Tabulate(a + b)
  {
    var m := MergeStats(Tabulate(a), Tabulate(b));
    var n := Tabulate(a + b);
    forall t ensures StatOf(m, t) == StatOf(n, t) && (t in m <==> t in n) {
      MergeTabulateAt(a, b, t);
    }
    assert forall t | t in m :: m[t] == StatOf(m, t) == StatOf(n, t) == n[t];
  }

  lemma {:induction false} AddressTallyPrefix(a: seq<Counted>, b: seq<Counted>, f: AddressField, n: nat)
    requires n <= |a|
    ensures AddressTally(a + b, f, n) == AddressTally(a, f, n)
  {
    if n > 0 {
      AddressTallyPrefix(a, b, f, n - 1);
      assert (a + b)[n - 1] == a[n - 1];
    }
  }

  lemma {:induction false} MergeTallyPrefix(a: seq<Counted>, b: seq<Counted>, f: AddressField, m: nat)
    requires m <= |b|
    ensures Counters.Merge(AddressTally(a, f), AddressTally(b, f, m)) == AddressTally(a + b, f, |a| + m)
  {
    if m == 0 {
      AddressTallyPrefix(a, b, f, |a|);
    } else {
      MergeTallyPrefix(a, b, f, m - 1);
      assert (a + b)[|a| + m - 1] == b[m - 1];
      var addr := AddressOf(b[m - 1], f);
      if addr.Some? && addr.value != "" {
        AddressTallyCounts(b, f, m - 1);
        Counters.MergeAddOne(AddressTally(a, f), AddressTally(b, f, m - 1), Lower(addr.value));
      }
    }
  }

  /** Adding the address counter of `b` into that of `a` gives the counter
      of `a + b`, key order included: the keys of `a` keep their places and
      the keys first met in `b` follow in the order they are met. */
  lemma MergeTally(a: seq<Counted>, b: seq<Counted>, f: AddressField)
    ensures Counters.Merge(AddressTally(a, f), AddressTally(b, f)) == AddressTally(a + b, f)
  {
    MergeTallyPrefix(a, b, f, |b|);
  }

  /** The running totals of one `profile_chunk` call. */
  datatype Totals = Totals(stats: StatsTable, totalTx: nat, totalEthWei: nat,
                           topContracts: Counters.Counter, topTokens: Counters.Counter)

  const NoTotals := Totals(map[], 0, 0, Counters.Empty, Counters.Empty)

  /** Counting one transaction: its bucket, the totals, and the counters of
      its non-empty `to` address and attributed token, lower-cased. */
  function Step(s: Totals, c: Counted): Totals
  {
    Totals(Record(s.stats, c),
           s.totalTx + 1,
           s.totalEthWei + c.value,
           Note(s.topContracts, c.to),
           Note(s.topTokens, c.token))
  }

  /** Counting the first `n` of `cs` in order. */
  function StepAll(s: Totals, cs: seq<Counted>, n: nat := |cs|): Totals
    requires n <= |cs|
  {
    if n == 0 then s else Step(StepAll(s, cs, n - 1), cs[n - 1])
  }

  lemma {:induction false} StepAllPrefix(s: Totals, a: seq<Counted>, b: seq<Counted>, n: nat)
    requires n <= |a|
    ensures StepAll(s, a + b, n) == StepAll(s, a, n)
  {
    if n > 0 {
      StepAllPrefix(s, a, b, n - 1);
    }
  }

  lemma StepAllSnoc(s: Totals, cs: seq<Counted>, c: Counted)
    ensures StepAll(s, cs + [c]) == Step(StepAll(s, cs), c)
  {
    StepAllPrefix(s, cs, [c], |cs|);
  }

  lemma {:induction false} StepAllAppendPrefix(s: Totals, a: seq<Counted>, b: seq<Counted>, m: nat)
    requires m <= |b|
    ensures StepAll(StepAll(s, a), b, m) == StepAll(s, a + b, |a| + m)
  {
    if m == 0 {
      StepAllPrefix(s, a, b, |a|);
    } else {
      StepAllAppendPrefix(s, a, b, m - 1);
      assert (a + b)[|a| + m - 1] == b[m - 1];
    }
  }

  /** Counting `a` then `b` is counting `a + b`. */
  lemma StepAllAppend(s: Totals, a: seq<Counted>, b: seq<Counted>)
    ensures StepAll(StepAll(s, a), b) == StepAll(s, a + b)
  {
    StepAllAppendPrefix(s, a, b, |b|);
  }

  lemma {:induction false} StepAllSums(cs: seq<Counted>, n: nat)
    requires n <= |cs|
    ensures StepAll(NoTotals, cs, n).stats == Tabulate(cs, n)
    ensures StepAll(NoTotals, cs, n).totalTx == n
    ensures StepAll(NoTotals, cs, n).totalEthWei == SumValue(cs, n)
  {
    if n > 0 {
      StepAllSums(cs, n - 1);
    }
  }

  lemma {:induction false} StepAllTallies(cs: seq<Counted>, n: nat)
    requires n <= |cs|
    ensures StepAll(NoTotals, cs, n).topContracts == AddressTally(cs, ToAddress, n)
    ensures StepAll(NoTotals, cs, n).topTokens == AddressTally(cs, TokenAddress, n)
  {
    if n > 0 {
      StepAllTallies(cs, n - 1);
    }
  }

  /** From nothing, the totals of `cs` are its per-type table, its length,
      its value sum, and the tallies of its `to` and token addresses. */
  lemma StepAllMeaning(cs: seq<Counted>)
    ensures StepAll(NoTotals, cs)
         == Totals(Tabulate(cs), |cs|, SumValue(cs), AddressTally(cs, ToAddress), AddressTally(cs, TokenAddress))
  {
    StepAllSums(cs, |cs|);
    StepAllTallies(cs, |cs|);
  }

  /** `profile_chunk`'s accumulators, updated in place per transaction. */
  class ChunkAccumulator {
    var stats: StatsTable
    var totalTx: nat
    var totalEthWei: nat
    var topContracts: Counters.Counter
    var topTokens: Counters.Counter

    function Snapshot(): Totals
      reads this
    {
      Totals(stats, totalTx, totalEthWei, topContracts, topTokens)
    }

    constructor ()
      ensures Snapshot() == NoTotals
    {
      stats := map[];
      totalTx, totalEthWei := 0, 0;
      topContracts, topTokens := Counters.Empty, Counters.Empty;
    }

    /** Counts one transaction. */
    method Count(c: Counted)
      modifies this
      ensures Snapshot() == Step(old(Snapshot()), c)
      ensures totalTx == old(totalTx) + 1
    {
      stats := stats[c.txType := Bump(StatOf(stats, c.txType), c)];
      totalTx := totalTx + 1;
      totalEthWei := totalEthWei + c.value;
      if c.to.Some? && c.to.value != "" {
        topContracts := Counters.Add(topContracts, Lower(c.to.value), 1);
      }
      if c.token.Some? && c.token.value != "" {
        topTokens := Counters.Add(topTokens, Lower(c.token.value), 1);
      }
    }
  }
}
