/** `classify_from_logs`: the token-standard classification of a receipt's
    event logs, and the token contract the logs touch most. */
module LogClassifier {
  import opened Wrappers
  import opened TxTypes
  import Counters

  /** An event log; a missing `address` or `data` field is the empty string. */
  datatype Log = Log(address: string, topics: seq<string>, data: string)

  /** The outcome of a classification: a type and the token or contract it
      is attributed to, if any. */
  datatype Classification = Classification(txType: TxType, token: Option<string>)

  /** ASCII lower-casing of one character, as `str.lower` does on hex text. */
  function LowerChar(ch: char): char
  {
    if 'A' <= ch <= 'Z' then (ch as int + 32) as char else ch
  }

  function Lower(s: string): string
  {
    seq(|s|, i requires 0 <= i < |s| => LowerChar(s[i]))
  }

  /** Keccak-256 of `Transfer(address,address,uint256)` (ERC-20 and ERC-721). */
  const SigTransfer: string := "0xddf252ad1be2c89b69c2b068fc378daa952ba7f163c4a11628f55a4df523b3ef"
  /** Keccak-256 of `TransferSingle(address,address,address,uint256,uint256)` (ERC-1155). */
  const SigTransferSingle: string := "0xc3d58168c5ae7397731d063d5bbf3d657854427343f4c083240f7aacaa2d0f62"
  /** Keccak-256 of `TransferBatch(address,address,address,uint256[],uint256[])` (ERC-1155). */
  const SigTransferBatch: string := "0x4a39dc06d4c0dbc64b70af90fd698a233a518aa5d07e595d983b8c0526c8f7fb"

  /** The three signatures stay apart after lower-casing. */
  lemma SignaturesDistinct()
    ensures Lower(SigTransfer) != Lower(SigTransferSingle)
    ensures Lower(SigTransfer) != Lower(SigTransferBatch)
    ensures Lower(SigTransferSingle) != Lower(SigTransferBatch)
  {
    assert Lower(SigTransfer)[65] == LowerChar(SigTransfer[65]) == 'f';
    assert Lower(SigTransferSingle)[65] == LowerChar(SigTransferSingle[65]) == '2';
    assert Lower(SigTransferBatch)[65] == LowerChar(SigTransferBatch[65]) == 'b';
  }

  /** What a single log contributes to the classification. */
  datatype LogKind =
    | AmountTransfer      // `Transfer` with an amount in `data`: ERC-20
    | NoAmountTransfer    // `Transfer` with empty `data`: ERC-721
    | MultiTokenTransfer  // `TransferSingle` or `TransferBatch`: ERC-1155
    | Unrelated           // no topics, or any other event

  /** `data` is truthy and not `"0x"`. */
  predicate HasAmount(data: string)
  {
    data != "" && data != "0x"
  }

  function KindOf(lg: Log): LogKind
  {
    if |lg.topics| == 0 then Unrelated
    else
      var t0 := Lower(lg.topics[0]);
      if t0 == Lower(SigTransfer) then
        if HasAmount(lg.data) then AmountTransfer else NoAmountTransfer
      else if t0 == Lower(SigTransferSingle) || t0 == Lower(SigTransferBatch) then
        MultiTokenTransfer
      else Unrelated
  }

  predicate HasKind(logs: seq<Log>, k: LogKind)
  {
    exists i :: 0 <= i < |logs| && KindOf(logs[i]) == k
  }

  /** The number of logs of kind `k` (one of the three counters). */
  function CountKind(logs: seq<Log>, k: LogKind): nat
  {
    if logs == [] then 0
    else CountKind(logs[..|logs| - 1], k) + if KindOf(logs[|logs| - 1]) == k then 1 else 0
  }

  /** A counter is non-zero exactly when some log has its kind, and it
      never exceeds the number of logs. */
  lemma {:induction false} CountKindSpec(logs: seq<Log>, k: LogKind)
    ensures CountKind(logs, k) > 0 <==> HasKind(logs, k)
    ensures CountKind(logs, k) <= |logs|
  {
    if logs != [] {
      var init := logs[..|logs| - 1];
      CountKindSpec(init, k);
      assert forall i :: 0 <= i < |init| ==> logs[i] == init[i];
      assert HasKind(init, k) ==> HasKind(logs, k);
    }
  }

  /** The lower-cased, non-empty addresses of the token-signature logs, in
      log order: the keys `tokens[addr] += 1` counts. */
  function TokenAddresses(logs: seq<Log>): seq<string>
  {
    if logs == [] then []
    else
      var last := logs[|logs| - 1];
      TokenAddresses(logs[..|logs| - 1]) +
        if KindOf(last) != Unrelated && Lower(last.address) != "" then [Lower(last.address)] else []
  }

  /** The addresses are non-empty, and there are none exactly when every
      token-signature log has an empty address. */
  lemma {:induction false} TokenAddressesSpec(logs: seq<Log>)
    ensures forall a :: a in TokenAddresses(logs) ==> a != ""
    ensures TokenAddresses(logs) == [] <==>
      forall i :: 0 <= i < |logs| && KindOf(logs[i]) != Unrelated ==> Lower(logs[i].address) == ""
  {
    if logs != [] {
      var init := logs[..|logs| - 1];
      TokenAddressesSpec(init);
      assert forall i :: 0 <= i < |init| ==> logs[i] == init[i];
    }
  }

  /** The most frequent token address (first seen among equals), if any. */
  function Dominant(logs: seq<Log>): Option<string>
  {
    Counters.MostCommon(Counters.Tally(TokenAddresses(logs)))
  }

  /** The decision on the three counters (at most one of them non-zero
      names a single standard; more name mixed activity). */
  function Decide(erc20: nat, erc721: nat, erc1155: nat, dominant: Option<string>): Classification
  {
    if erc20 > 0 && erc721 == 0 && erc1155 == 0 then Classification(Erc20Transfer, dominant)
    else if erc721 > 0 && erc20 == 0 && erc1155 == 0 then Classification(Erc721Transfer, dominant)
    else if erc1155 > 0 && erc20 == 0 && erc721 == 0 then Classification(Erc1155Transfer, dominant)
    else if erc20 > 0 || erc721 > 0 || erc1155 > 0 then Classification(MixedTokenActivity, dominant)
    else Classification(OtherContractCall, None)
  }

  function ClassifyFromLogs(logs: seq<Log>): Classification
  {
    Decide(CountKind(logs, AmountTransfer), CountKind(logs, NoAmountTransfer),
           CountKind(logs, MultiTokenTransfer), Dominant(logs))
  }

  /** No log carries one of the three token signatures. */
  predicate NoTokenLog(logs: seq<Log>)
  {
    forall i :: 0 <= i < |logs| ==> KindOf(logs[i]) == Unrelated
  }

  /** The decision table: exactly one token standard present gives that
      standard, two or more give mixed activity, none gives a plain call. */
  lemma ClassifyFromLogsDecision(logs: seq<Log>)
    ensures var r := ClassifyFromLogs(logs);
      var a, b, c := HasKind(logs, AmountTransfer), HasKind(logs, NoAmountTransfer), HasKind(logs, MultiTokenTransfer);
      (r.txType == Erc20Transfer <==> a && !b && !c) &&
      (r.txType == Erc721Transfer <==> b && !a && !c) &&
      (r.txType == Erc1155Transfer <==> c && !a && !b) &&
      (r.txType == MixedTokenActivity <==> (a && b) || (a && c) || (b && c)) &&
      (r.txType == OtherContractCall <==> NoTokenLog(logs))
  {
    CountKindSpec(logs, AmountTransfer);
    CountKindSpec(logs, NoAmountTransfer);
    CountKindSpec(logs, MultiTokenTransfer);
    var a, b, c := HasKind(logs, AmountTransfer), HasKind(logs, NoAmountTransfer), HasKind(logs, MultiTokenTransfer);
    assert NoTokenLog(logs) <==> !a && !b && !c by {
      if !NoTokenLog(logs) {
        var i :| 0 <= i < |logs| && KindOf(logs[i]) != Unrelated;
        assert KindOf(logs[i]) in {AmountTransfer, NoAmountTransfer, MultiTokenTransfer};
      }
    }
  }

  /** The token attributed to the logs: none for a plain call; for a token
      type, none exactly when no token-signature log has an address;
      otherwise an address with the largest number of token-signature logs,
      the first seen among equally frequent ones. */
  lemma DominantToken(logs: seq<Log>)
    ensures var r := ClassifyFromLogs(logs); var s := TokenAddresses(logs);
      (r.txType == OtherContractCall ==> r.token == None) &&
      (r.txType != OtherContractCall ==> (r.token.None? <==> s == [])) &&
      (r.token.Some? ==>
        r.token.value in s &&
        (forall k :: multiset(s)[k] <= multiset(s)[r.token.value]) &&
        (forall p :: 0 <= p < |s| && multiset(s)[s[p]] == multiset(s)[r.token.value] ==> r.token.value in s[..p + 1]))
  {
    var r := ClassifyFromLogs(logs);
    var s := TokenAddresses(logs);
    assert r.txType != OtherContractCall ==> r.token == Dominant(logs);
    Counters.MostCommonOfTally(s);
  }

  lemma {:induction false} CountKindAppend(a: seq<Log>, b: seq<Log>, k: LogKind)
    ensures CountKind(a + b, k) == CountKind(a, k) + CountKind(b, k)
  {
    if b == [] {
      assert a + b == a;
    } else {
      var init := b[..|b| - 1];
      assert (a + b)[..|a + b| - 1] == a + init;
      CountKindAppend(a, init, k);
    }
  }

  lemma {:induction false} TokenAddressesAppend(a: seq<Log>, b: seq<Log>)
    ensures TokenAddresses(a + b) == TokenAddresses(a) + TokenAddresses(b)
  {
    if b == [] {
      assert a + b == a;
    } else {
      var init := b[..|b| - 1];
      assert (a + b)[..|a + b| - 1] == a + init;
      TokenAddressesAppend(a, init);
    }
  }

  /** The classification depends on the logs only through the three
      counters and the token addresses. */
  lemma SameCountsSameClassification(x: seq<Log>, y: seq<Log>)
    requires CountKind(x, AmountTransfer) == CountKind(y, AmountTransfer)
    requires CountKind(x, NoAmountTransfer) == CountKind(y, NoAmountTransfer)
    requires CountKind(x, MultiTokenTransfer) == CountKind(y, MultiTokenTransfer)
    requires TokenAddresses(x) == TokenAddresses(y)
    ensures ClassifyFromLogs(x) == ClassifyFromLogs(y)
  {
    assert Dominant(x) == Dominant(y);
  }

  /** Removing one unrelated log leaves each token counter as it was. */
  lemma {:induction false} DropUnrelatedCount(before: seq<Log>, lg: Log, after: seq<Log>, k: LogKind)
    requires KindOf(lg) == Unrelated && k != Unrelated
    ensures CountKind(before + [lg] + after, k) == CountKind(before + after, k)
  {
    assert [lg][..0] == [];
    assert CountKind([lg], k) == 0;
    CountKindAppend(before + [lg], after, k);
    CountKindAppend(before, [lg], k);
    CountKindAppend(before, after, k);
  }

  /** Removing one unrelated log leaves the token addresses as they were. */
  lemma {:induction false} DropUnrelatedAddresses(before: seq<Log>, lg: Log, after: seq<Log>)
    requires KindOf(lg) == Unrelated
    ensures TokenAddresses(before + [lg] + after) == TokenAddresses(before + after)
  {
    assert [lg][..0] == [];
    assert TokenAddresses([lg]) == [];
    TokenAddressesAppend(before + [lg], after);
    TokenAddressesAppend(before, [lg]);
    TokenAddressesAppend(before, after);
  }

  /** A log with no topics changes nothing, wherever it stands. */
  lemma EmptyTopicsIgnored(before: seq<Log>, lg: Log, after: seq<Log>)
    requires lg.topics == []
    ensures ClassifyFromLogs(before + [lg] + after) == ClassifyFromLogs(before + after)
  {
    DropUnrelatedCount(before, lg, after, AmountTransfer);
    DropUnrelatedCount(before, lg, after, NoAmountTransfer);
    DropUnrelatedCount(before, lg, after, MultiTokenTransfer);
    DropUnrelatedAddresses(before, lg, after);
    SameCountsSameClassification(before + [lg] + after, before + after);
  }

  /** A `Transfer` log counts as ERC-20 exactly when its `data` is neither
      empty nor `"0x"`, and as ERC-721 otherwise. */
  lemma TransferSplitsOnData(lg: Log)
    requires |lg.topics| > 0 && Lower(lg.topics[0]) == Lower(SigTransfer)
    ensures ClassifyFromLogs([lg]).txType == Erc20Transfer <==> lg.data != "" && lg.data != "0x"
    ensures ClassifyFromLogs([lg]).txType == Erc721Transfer <==> !(lg.data != "" && lg.data != "0x")
  {
    ClassifyFromLogsDecision([lg]);
    assert KindOf([lg][0]) == KindOf(lg);
  }

  /** Logs that are all `Transfer` events with an amount classify as ERC-20;
      the same logs with empty `data` classify as ERC-721. */
  lemma AllTransfersOneStandard(logs: seq<Log>)
    requires logs != []
    requires forall i :: 0 <= i < |logs| ==> |logs[i].topics| > 0 && Lower(logs[i].topics[0]) == Lower(SigTransfer)
    ensures (forall i :: 0 <= i < |logs| ==> HasAmount(logs[i].data)) ==> ClassifyFromLogs(logs).txType == Erc20Transfer
    ensures (forall i :: 0 <= i < |logs| ==> !HasAmount(logs[i].data)) ==> ClassifyFromLogs(logs).txType == Erc721Transfer
  {
    ClassifyFromLogsDecision(logs);
    assert KindOf(logs[0]) in {AmountTransfer, NoAmountTransfer};
  }

  /** A `Transfer` log and an ERC-1155 log together make mixed activity. */
  lemma TransferAndMultiTokenIsMixed(logs: seq<Log>, i: nat, j: nat)
    requires i < |logs| && j < |logs|
    requires |logs[i].topics| > 0 && Lower(logs[i].topics[0]) == Lower(SigTransfer)
    requires |logs[j].topics| > 0 && Lower(logs[j].topics[0]) in {Lower(SigTransferSingle), Lower(SigTransferBatch)}
    ensures ClassifyFromLogs(logs).txType == MixedTokenActivity
  {
    SignaturesDistinct();
    ClassifyFromLogsDecision(logs);
    assert KindOf(logs[j]) == MultiTokenTransfer;
    assert KindOf(logs[i]) in {AmountTransfer, NoAmountTransfer};
  }
}
