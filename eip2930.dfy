/** EIP2930TransactionEstimator: gas price scaled from gwei to wei, times the gas used. */
module Eip2930 {
  import opened Wrappers
  import opened Amounts
  import opened Transactions
  import opened EstimatorErrors
  import GasUsedEstimator
  import opened Pricing

  /** Estimates the fee in wei, metering with the access list; the gas limit must fit in 64 bits. */
  function Estimate(libs: GasUsedEstimator.Libraries, tx: EIP2930Transaction): (r: Result<U256, Error>)
    requires tx.gasLimit <= U64_MAX
    ensures var used := GasUsedEstimator.GasUsed(libs, tx.gasLimit, EIP2930(tx));
      && (r.Success? <==> used.Success?)
      && (r.Failure? ==> r.error == InputEstimator(used.error))
      && (r.Success? ==> r.value == ClampedProduct(tx.gasPrice * GWEI, used.value))
  {
    var gasPrice := SaturatingMul(tx.gasPrice, GWEI);
    var used := GasUsedEstimator.GasUsed(libs, tx.gasLimit, EIP2930(tx));
    assert used.Success? ==> SaturatingMul(gasPrice, used.value) == ClampedProduct(tx.gasPrice * GWEI, used.value) by {
      if used.Success? {
        SaturatingMulTwice(tx.gasPrice, GWEI, used.value);
        SaturatingMulIsClamp(gasPrice, used.value);
      }
    }
    Charge(gasPrice, used)
  }

  /** A zero gas price gives a zero fee. */
  lemma ZeroPriceZeroFee(libs: GasUsedEstimator.Libraries, tx: EIP2930Transaction)
    requires tx.gasLimit <= U64_MAX && tx.gasPrice == 0
    ensures Estimate(libs, tx).Success? ==> Estimate(libs, tx).value == 0
  {
  }

  /** A higher gas price never lowers the fee. */
  lemma FeeMonotoneInPrice(libs: GasUsedEstimator.Libraries, tx: EIP2930Transaction, gasPrice: U256)
    requires tx.gasLimit <= U64_MAX && tx.gasPrice <= gasPrice
    ensures var tx' := tx.(gasPrice := gasPrice);
      Estimate(libs, tx).Success? ==> Estimate(libs, tx').Success? && Estimate(libs, tx).value <= Estimate(libs, tx').value
  {
    var tx' := tx.(gasPrice := gasPrice);
    if Estimate(libs, tx).Success? {
      var g := GasUsedEstimator.GasUsed(libs, tx.gasLimit, EIP2930(tx)).value;
      assert tx.gasPrice * GWEI * g <= gasPrice * GWEI * g by {
        assert tx.gasPrice * GWEI <= gasPrice * GWEI;
        MulMonotone(tx.gasPrice * GWEI, gasPrice * GWEI, g);
      }
    }
  }
}
