/** The closed taxonomy every counted transaction falls into, and the column
    order in which a per-block CSV row lists the counts of each type. */
module TxTypes {

  datatype TxType =
    | EthTransfer
    | ContractCreation
    | Erc20Transfer
    | Erc721Transfer
    | Erc1155Transfer
    | OtherContractCall
    | MixedTokenActivity
    | OtherEoaCall

  /** The type's name as it appears in the summary and the CSV header. */
  function Name(t: TxType): string
  {
    match t
    case EthTransfer => "eth_transfer"
    case ContractCreation => "contract_creation"
    case Erc20Transfer => "erc20_transfer"
    case Erc721Transfer => "erc721_transfer"
    case Erc1155Transfer => "erc1155_transfer"
    case OtherContractCall => "other_contract_call"
    case MixedTokenActivity => "mixed_token_activity"
    case OtherEoaCall => "other_eoa_call"
  }

  /** `DEFAULT_TYPES`: the order of the eight type columns of a CSV row. */
  const DefaultTypes: seq<TxType> :=
    [EthTransfer, ContractCreation, Erc20Transfer, Erc721Transfer,
     Erc1155Transfer, OtherContractCall, MixedTokenActivity, OtherEoaCall]

  /** The position of a type among the row's type columns: every type has
      exactly one column, so the classification is total and exclusive. */
  function Column(t: TxType): (i: nat)
    ensures i < |DefaultTypes| && DefaultTypes[i] == t
    ensures forall j :: 0 <= j < |DefaultTypes| && DefaultTypes[j] == t ==> j == i
  {
    match t
    case EthTransfer => 0
    case ContractCreation => 1
    case Erc20Transfer => 2
    case Erc721Transfer => 3
    case Erc1155Transfer => 4
    case OtherContractCall => 5
    case MixedTokenActivity => 6
    case OtherEoaCall => 7
  }
}
