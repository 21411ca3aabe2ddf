/** The full classification of one transaction inside `profile_chunk`:
    contract creation, then the logs, then the value and contract-code
    fallback, with the per-chunk memo of contract-code lookups. */
module TxClassifier {
  import opened Wrappers
  import opened TxTypes
  import opened LogClassifier

  /** The transaction fields the profiler reads; `to` is absent for a
      contract creation; a missing `value` or `gasPrice` is 0. */
  datatype Tx = Tx(to: Option<string>, value: nat, gasPrice: nat)

  /** A transaction receipt: gas used and event logs. */
  datatype Receipt = Receipt(gasUsed: nat, logs: seq<Log>)

  /** `get_code` on an address: the code bytes, or none when the call raised. */
  type CodeOracle = string -> Option<seq<bv8>>

  /** `is_contract`: the call succeeded and the code is neither empty nor the
      single byte 0x00. */
  predicate IsContractCode(code: Option<seq<bv8>>)
  {
    code.Some? && |code.value| > 0 && code.value != [0]
  }

  /** The transaction is sent to an address, carries no token log and no
      value, and the contract check is on: only then is the code consulted. */
  predicate NeedsCodeCheck(tx: Tx, logs: seq<Log>, skipContractCheck: bool)
  {
    tx.to.Some? && ClassifyFromLogs(logs).txType == OtherContractCall
    && tx.value == 0 && !skipContractCheck
  }

  /** The classification decision, with the contract check as an oracle on
      the lower-cased `to` address. */
  function Classify(tx: Tx, logs: seq<Log>, skipContractCheck: bool, getCode: CodeOracle): Classification
  {
    match tx.to
    case None => Classification(ContractCreation, None)
    case Some(to) =>
      var c := ClassifyFromLogs(logs);
      if c.txType != OtherContractCall then c
      else if tx.value > 0 then Classification(EthTransfer, c.token)
      else if skipContractCheck then c
      else if !IsContractCode(getCode(Lower(to))) then Classification(OtherEoaCall, c.token)
      else c
  }

  /** The whole decision table, in terms of the logs, the value and the
      code: a missing `to` is a creation whatever the logs and value; token
      logs decide next; then a value makes an ETH transfer; then, unless the
      check is skipped, an address without code makes an EOA call. */
  lemma ClassifyDecisionTable(tx: Tx, logs: seq<Log>, skipContractCheck: bool, getCode: CodeOracle)
    ensures var r := Classify(tx, logs, skipContractCheck, getCode);
      (r.txType == ContractCreation <==> tx.to.None?) &&
      (tx.to.None? ==> r.token.None?) &&
      ((r.txType in {Erc20Transfer, Erc721Transfer, Erc1155Transfer, MixedTokenActivity}) <==>
        tx.to.Some? && !NoTokenLog(logs)) &&
      (tx.to.Some? && !NoTokenLog(logs) ==> r == ClassifyFromLogs(logs)) &&
      (r.txType == EthTransfer <==> tx.to.Some? && NoTokenLog(logs) && tx.value > 0) &&
      (r.txType == OtherEoaCall <==>
        tx.to.Some? && NoTokenLog(logs) && tx.value == 0 && !skipContractCheck
        && !IsContractCode(getCode(Lower(tx.to.value)))) &&
      (r.txType == OtherContractCall <==>
        tx.to.Some? && NoTokenLog(logs) && tx.value == 0
        && (skipContractCheck || IsContractCode(getCode(Lower(tx.to.value))))) &&
      (r.txType in {EthTransfer, ContractCreation, OtherContractCall, OtherEoaCall} ==> r.token.None?)
  {
    ClassifyFromLogsDecision(logs);
    DominantToken(logs);
  }

  /** `contract_cache`: address to is-contract, filled on first use. */
  class ContractCache {
    const getCode: CodeOracle
    var known: map<string, bool>
    /** Every address handed to `get_code`, in order. */
    ghost var queried: seq<string>

    /** Cached answers are the oracle's, each address was asked once, and
        exactly the cached addresses were asked. */
    ghost predicate Valid()
      reads this
    {
      (forall a :: a in known ==> known[a] == IsContractCode(getCode(a)))
      && (forall i, j :: 0 <= i < j < |queried| ==> queried[i] != queried[j])
      && (forall a :: a in known <==> a in queried)
    }

    constructor (getCode: CodeOracle)
      ensures Valid() && this.getCode == getCode
      ensures known == map[] && queried == []
    {
      this.getCode := getCode;
      known := map[];
      queried := [];
    }

    /** Insert-if-absent lookup: the oracle is asked only for a new address. */
    method IsContract(addr: string) returns (b: bool)
      requires Valid()
      modifies this
      ensures Valid()
      ensures b == IsContractCode(getCode(addr))
      ensures known == old(known)[addr := b]
      ensures queried == if addr in old(known) then old(queried) else old(queried) + [addr]
    {
      if addr !in known {
        known := known[addr := IsContractCode(getCode(addr))];
        queried := queried + [addr];
      }
      b := known[addr];
    }
  }

  /** The decision as `profile_chunk` runs it, consulting the cache. It gives
      the same answer as `Classify`, and touches the cache only on the
      fallback path, adding at most the lower-cased `to` address. */
  method ClassifyWithCache(tx: Tx, logs: seq<Log>, skipContractCheck: bool, cache: ContractCache)
    returns (r: Classification)
    requires cache.Valid()
    modifies cache
    ensures cache.Valid()
    ensures r == Classify(tx, logs, skipContractCheck, cache.getCode)
    ensures NeedsCodeCheck(tx, logs, skipContractCheck) ==>
      var addr := Lower(tx.to.value);
      cache.known == old(cache.known)[addr := IsContractCode(cache.getCode(addr))] &&
      cache.queried == if addr in old(cache.known) then old(cache.queried) else old(cache.queried) + [addr]
    ensures !NeedsCodeCheck(tx, logs, skipContractCheck) ==>
      cache.known == old(cache.known) && cache.queried == old(cache.queried)
  {
    if tx.to.None? {
      r := Classification(ContractCreation, None);
    } else {
      r := ClassifyFromLogs(logs);
      if r.txType == OtherContractCall {
        if tx.value > 0 {
          r := Classification(EthTransfer, r.token);
        } else if !skipContractCheck {
          var isContract := cache.IsContract(Lower(tx.to.value));
          if !isContract {
            r := Classification(OtherEoaCall, r.token);
          }
        }
      }
    }
  }
}
