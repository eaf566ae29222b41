/** The process-wide gas constants of the fee estimator, fixed once and never changed. */
module FeeConstants {
  import opened Amounts

  /** Gas charged to every transaction before anything else. */
  const BASE_GAS_COUNT: U64 := 21_000

  /** Extra gas charged to a contract creation with a non-blank input. */
  const CONTRACT_CREATION_GAS: U64 := 32_000

  /** The two charges, alone and together, are 64-bit values, so converting them never fails. */
  lemma FixedChargesFitU64()
    ensures BASE_GAS_COUNT == 21_000 && CONTRACT_CREATION_GAS == 32_000
    ensures BASE_GAS_COUNT + CONTRACT_CREATION_GAS <= U64_MAX
  {
  }
}
