/**
 * EIP1559TransactionEstimator: the base-fee/priority-fee rule of EIP-1559.
 * The caller's maximum fee must cover the priority fee plus the market gas
 * price; the fee is that effective price times the gas used.
 */
module Eip1559 {
  import opened Wrappers
  import opened Amounts
  import opened Transactions
  import opened EstimatorErrors
  import GasUsedEstimator
  import opened Pricing

  /** The maximum fee per gas, scaled from gwei to wei. */
  function ScaledMaxFee(tx: EIP1559Transaction): (r: U256)
    ensures r == Clamp(tx.maxFeePerGas * GWEI)
  {
    SaturatingMul(tx.maxFeePerGas, GWEI)
  }

  /** The price paid per gas: the priority fee scaled to wei plus the market price, saturating. */
  function EffectivePrice(tx: EIP1559Transaction, marketPrice: U256): (r: U256)
    ensures r == Clamp(tx.maxPriorityFeePerGas * GWEI + marketPrice)
    ensures r >= marketPrice
  {
    SaturatingMulThenAdd(tx.maxPriorityFeePerGas, GWEI, marketPrice);
    SaturatingAdd(SaturatingMul(tx.maxPriorityFeePerGas, GWEI), marketPrice)
  }

  /**
   * Estimates the fee in wei given the market gas price; the gas limit must
   * fit in 64 bits. A maximum fee below the effective price is rejected before
   * any metering.
   */
  function Estimate(libs: GasUsedEstimator.Libraries, marketPrice: U256, tx: EIP1559Transaction): (r: Result<U256, Error>)
    requires tx.gasLimit <= U64_MAX
    ensures ScaledMaxFee(tx) < EffectivePrice(tx, marketPrice) <==>
      r == Failure(MaxFeePerGasTooLow(ScaledMaxFee(tx), EffectivePrice(tx, marketPrice)))
    ensures ScaledMaxFee(tx) >= EffectivePrice(tx, marketPrice) ==>
      var used := GasUsedEstimator.GasUsed(libs, tx.gasLimit, EIP1559(tx));
      && (r.Success? <==> used.Success?)
      && (r.Failure? ==> r.error == InputEstimator(used.error))
      && (r.Success? ==> r.value == ClampedProduct(EffectivePrice(tx, marketPrice), used.value))
  {
    var maxFeePerGas := ScaledMaxFee(tx);
    var gasPrice := EffectivePrice(tx, marketPrice);
    if maxFeePerGas < gasPrice then
      Failure(MaxFeePerGasTooLow(maxFeePerGas, gasPrice))
    else
      Charge(gasPrice, GasUsedEstimator.GasUsed(libs, tx.gasLimit, EIP1559(tx)))
  }

  /**
   * A rejected fee never reaches the meter: the result is the same whatever
   * the input, action, access list, gas limit and cost functions.
   */
  lemma RejectionSkipsMetering(libs: GasUsedEstimator.Libraries, libs': GasUsedEstimator.Libraries,
                               marketPrice: U256, tx: EIP1559Transaction, tx': EIP1559Transaction)
    requires tx.gasLimit <= U64_MAX && tx'.gasLimit <= U64_MAX
    requires tx.maxFeePerGas == tx'.maxFeePerGas && tx.maxPriorityFeePerGas == tx'.maxPriorityFeePerGas
    requires ScaledMaxFee(tx) < EffectivePrice(tx, marketPrice)
    ensures Estimate(libs, marketPrice, tx) == Estimate(libs', marketPrice, tx')
  {
  }

  /** The maximum fee only gates the estimate: once the check passes, it does not enter the fee. */
  lemma MaxFeeDoesNotEnterFee(libs: GasUsedEstimator.Libraries, marketPrice: U256, tx: EIP1559Transaction, maxFee: U256)
    requires tx.gasLimit <= U64_MAX
    requires ScaledMaxFee(tx) >= EffectivePrice(tx, marketPrice)
    requires ScaledMaxFee(tx.(maxFeePerGas := maxFee)) >= EffectivePrice(tx, marketPrice)
    ensures Estimate(libs, marketPrice, tx) == Estimate(libs, marketPrice, tx.(maxFeePerGas := maxFee))
  {
    GasUsedEstimator.Eip1559MeteredLikeEip2930(libs, tx.gasLimit, tx, 0);
    GasUsedEstimator.Eip1559MeteredLikeEip2930(libs, tx.gasLimit, tx.(maxFeePerGas := maxFee), 0);
  }

  /** A maximum fee of 100 gwei against a priority fee of 1 gwei and a market price of 150 gwei is rejected with both prices. */
  lemma InsufficientMaxFeeExample(libs: GasUsedEstimator.Libraries, tx: EIP1559Transaction)
    requires tx.gasLimit <= U64_MAX
    requires tx.maxFeePerGas == 100 && tx.maxPriorityFeePerGas == 1
    ensures Estimate(libs, 150 * GWEI, tx) == Failure(MaxFeePerGasTooLow(100 * GWEI, 151 * GWEI))
  {
  }

  /**
   * A maximum fee of 200 gwei with a priority fee of 2 gwei and a market price
   * of 10 gwei passes, and costs 12 gwei per gas of what an EIP-2930
   * transaction with the same bytecode and access list uses.
   */
  lemma SufficientMaxFeeExample(libs: GasUsedEstimator.Libraries, tx: EIP1559Transaction, gasPrice: U256)
    requires tx.gasLimit <= U64_MAX
    requires tx.maxFeePerGas == 200 && tx.maxPriorityFeePerGas == 2
    ensures var used := GasUsedEstimator.GasUsed(libs, tx.gasLimit,
                          EIP2930(EIP2930Transaction(gasPrice, tx.gasLimit, tx.input, tx.action, tx.accessList)));
      Estimate(libs, 10 * GWEI, tx) ==
        match used
        case Success(g) => Success(ClampedProduct(12 * GWEI, g))
        case Failure(e) => Failure(InputEstimator(e))
  {
    GasUsedEstimator.Eip1559MeteredLikeEip2930(libs, tx.gasLimit, tx, gasPrice);
  }
}
