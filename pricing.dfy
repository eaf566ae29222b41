/**
 * The step the three per-type estimators share once the gas price is known:
 * the meter's error is converted into an estimator error by `?`, and the gas
 * used is multiplied by the price with saturation.
 */
module Pricing {
  import opened Wrappers
  import opened Amounts
  import opened EstimatorErrors
  import GasUsedEstimator

  /** Fails exactly when metering failed, carrying its error; otherwise the fee is the clamped product. */
  function Charge(gasPrice: U256, used: Result<U64, GasUsedEstimator.Error>): (r: Result<U256, Error>)
    ensures r.Success? <==> used.Success?
    ensures r.Failure? ==> r.error == InputEstimator(used.error)
    ensures r.Success? ==> r.value == ClampedProduct(gasPrice, used.value)
  {
    match used
    case Failure(e) => Failure(InputEstimator(e))
    case Success(gasUsed) =>
      SaturatingMulIsClamp(gasPrice, gasUsed);
      Success(SaturatingMul(gasPrice, gasUsed))
  }
}
