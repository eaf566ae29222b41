/** The errors an estimate can end with. */
module EstimatorErrors {
  import opened Amounts
  import GasUsedEstimator

  datatype Error =
    | InputEstimator(cause: GasUsedEstimator.Error)
    | MaxFeePerGasTooLow(current: U256, calculated: U256)
}

/** The entry point: routes a transaction to the estimator for its type. */
module Estimator {
  import opened Wrappers
  import opened Amounts
  import opened Transactions
  import opened EstimatorErrors
  import GasUsedEstimator
  import Legacy
  import Eip2930
  import Eip1559

  /**
   * Estimator::estimate: the fee in wei for a transaction, given the market
   * gas price held by the price collector. The gas limit must fit in 64 bits.
   */
  function Estimate(libs: GasUsedEstimator.Libraries, marketPrice: U256, tx: Transaction): (r: Result<U256, Error>)
    requires tx.GasLimit() <= U64_MAX
    ensures tx.Legacy? ==> r == Legacy.Estimate(libs, tx.legacy)
    ensures tx.EIP2930? ==> r == Eip2930.Estimate(libs, tx.eip2930)
    ensures tx.EIP1559? ==> r == Eip1559.Estimate(libs, marketPrice, tx.eip1559)
  {
    match tx
    case Legacy(t) => Legacy.Estimate(libs, t)
    case EIP2930(t) => Eip2930.Estimate(libs, t)
    case EIP1559(t) => Eip1559.Estimate(libs, marketPrice, t)
  }

  /** A meter failure makes the estimate fail, an InputEstimator error carries the meter's error unchanged, and a success means the meter succeeded. */
  lemma MeterOutcomePassesThrough(libs: GasUsedEstimator.Libraries, marketPrice: U256, tx: Transaction)
    requires tx.GasLimit() <= U64_MAX
    ensures var used := GasUsedEstimator.GasUsed(libs, tx.GasLimit(), tx);
      var r := Estimate(libs, marketPrice, tx);
      && (r.Success? ==> used.Success?)
      && (r.Failure? && r.error.InputEstimator? ==> r.error == InputEstimator(used.error))
      && (used.Failure? ==> r.Failure?)
  {
  }

  /** Only an EIP-1559 transaction can be rejected for its maximum fee. */
  lemma MaxFeeErrorOnlyForEip1559(libs: GasUsedEstimator.Libraries, marketPrice: U256, tx: Transaction)
    requires tx.GasLimit() <= U64_MAX
    ensures Estimate(libs, marketPrice, tx).Failure? && Estimate(libs, marketPrice, tx).error.MaxFeePerGasTooLow? ==> tx.EIP1559?
  {
  }

  /** Only the EIP-1559 path reads the market price: legacy and EIP-2930 estimates do not depend on it. */
  lemma OnlyEip1559ReadsMarketPrice(libs: GasUsedEstimator.Libraries, marketPrice: U256, marketPrice': U256, tx: Transaction)
    requires tx.GasLimit() <= U64_MAX && !tx.EIP1559?
    ensures Estimate(libs, marketPrice, tx) == Estimate(libs, marketPrice', tx)
  {
  }
}
