/** LegacyTransactionEstimator: gas price scaled from gwei to wei, times the gas used. */
module Legacy {
  import opened Wrappers
  import opened Amounts
  import opened Transactions
  import opened EstimatorErrors
  import GasUsedEstimator
  import opened Pricing
  import Eip2930

  /** Estimates the fee in wei; the gas limit must fit in 64 bits. */
  function Estimate(libs: GasUsedEstimator.Libraries, tx: LegacyTransaction): (r: Result<U256, Error>)
    requires tx.gasLimit <= U64_MAX
    ensures var used := GasUsedEstimator.GasUsed(libs, tx.gasLimit, Legacy(tx));
      && (r.Success? <==> used.Success?)
      && (r.Failure? ==> r.error == InputEstimator(used.error))
      && (r.Success? ==> r.value == ClampedProduct(tx.gasPrice * GWEI, used.value))
  {
    var gasPrice := SaturatingMul(tx.gasPrice, GWEI);
    var used := GasUsedEstimator.GasUsed(libs, tx.gasLimit, Legacy(tx));
    assert used.Success? ==> SaturatingMul(gasPrice, used.value) == ClampedProduct(tx.gasPrice * GWEI, used.value) by {
      if used.Success? {
        SaturatingMulTwice(tx.gasPrice, GWEI, used.value);
        SaturatingMulIsClamp(gasPrice, used.value);
      }
    }
    Charge(gasPrice, used)
  }

  /** A legacy transaction costs what an EIP-2930 transaction with the same fields and an empty access list costs. */
  lemma LegacyFeeMatchesEip2930(libs: GasUsedEstimator.Libraries, tx: LegacyTransaction)
    requires tx.gasLimit <= U64_MAX
    ensures Estimate(libs, tx) ==
      Eip2930.Estimate(libs, EIP2930Transaction(tx.gasPrice, tx.gasLimit, tx.input, tx.action, []))
  {
    GasUsedEstimator.LegacyMeteredWithoutAccessList(libs, tx.gasLimit, tx);
  }
}
