/** The three transaction shapes the estimator accepts. */
module Transactions {
  import opened Amounts

  /** A 20-byte account address. */
  type H160 = s: seq<Byte> | |s| == 20 witness seq(20, i => 0)

  /** A 32-byte storage key. */
  type H256 = s: seq<Byte> | |s| == 32 witness seq(32, i => 0)

  /** A message call to an address, or the creation of a contract. */
  datatype TransactionAction = Call(to: H160) | Create

  /** An address the transaction declares it will touch, with the storage keys it will read there. */
  datatype AccessListItem = AccessListItem(address: H160, storageKeys: seq<H256>)

  type AccessList = seq<AccessListItem>

  /** A legacy transaction carries no access list. */
  datatype LegacyTransaction = LegacyTransaction(
    gasPrice: U256, gasLimit: U256, input: string, action: TransactionAction)

  datatype EIP2930Transaction = EIP2930Transaction(
    gasPrice: U256, gasLimit: U256, input: string, action: TransactionAction, accessList: AccessList)

  datatype EIP1559Transaction = EIP1559Transaction(
    maxPriorityFeePerGas: U256, maxFeePerGas: U256, gasLimit: U256,
    input: string, action: TransactionAction, accessList: AccessList)

  datatype Transaction =
    | Legacy(legacy: LegacyTransaction)
    | EIP2930(eip2930: EIP2930Transaction)
    | EIP1559(eip1559: EIP1559Transaction)
  {
    /** The declared gas limit, whatever the shape. */
    function GasLimit(): (limit: U256)
    {
      match this
      case Legacy(tx) => tx.gasLimit
      case EIP2930(tx) => tx.gasLimit
      case EIP1559(tx) => tx.gasLimit
    }
  }
}
