# Fee estimator model

This is a Dafny model of the fee-estimation engine of a gas-fee estimation service for
EVM transactions. Given a transaction, the engine returns the fee in wei. The transaction is
legacy, EIP-2930 (with an access list) or EIP-1559 (with a maximum fee and a
priority fee).

The model has three layers.

- **The gas-used meter** (`GasUsedEstimator`). It charges the transaction in a fixed order
  against a gasometer capped by the transaction's gas limit:
  - the base cost of 21000;
  - 32000 more for a contract creation whose input is not blank;
  - the hex decoding of the input;
  - the intrinsic cost of a call or a creation, including its access list;
  - for a non-empty input, the static cost of every disassembled opcode that has one.

  The first charge that would pass the limit aborts with `GasometerExit(OutOfGas)`.
  Undecodable hex aborts with `HexDecode`, and undecodable bytecode with `EvmDisassembler`.
  - `Meter` is the step-by-step method. It holds a `Gasometer` object whose `used` field
    grows, and the loop over the opcodes is `RecordOpcodeCosts`.
  - `Metered` is the same computation stated on totals. `Meter` is proved to return exactly
    `Metered`, and the lemmas about the charges are stated on `Metered`.
  - `RuntimeOpcode` is the translation from disassembler opcodes to the runtime opcodes
    that the static cost table is indexed by.
- **The per-type price formulas** (`Legacy`, `Eip2930`, `Eip1559`).
  - Legacy and EIP-2930: the gas price in gwei is scaled to wei and multiplied by the gas
    used, both with saturating 256-bit multiplication. This equals the exact product
    clamped to 2^256-1.
  - EIP-1559: the effective price is the priority fee scaled to wei plus the market gas price.
    A maximum fee below that price is rejected with both prices before anything is metered.
    Otherwise the fee is the effective price times the gas used.
- **The dispatcher** (`Estimator.Estimate`). It routes each transaction by its tag.

The foreign crates the meter calls are the parameter `Libraries`, made of total functions
taken as given:
- the call and create intrinsic cost functions and the static opcode cost table of
  evm_gasometer;
- the bytecode disassembler of evm_disassembler.

The market gas price, which the service obtains over the network, is a plain parameter of
the EIP-1559 estimate.

Points of the code that the model keeps exactly as written:

- The base cost, and the creation surcharge when it applies, are charged before the
  input is hex-decoded (src/fee_estimator/gas_used_estimator.rs:59-72). A limit below
  21000 therefore gives `OutOfGas` even for malformed hex.
- The creation surcharge is decided on the raw input string after trimming white space,
  before decoding (gas_used_estimator.rs:64-65). `SurchargeMatchesDecodedBytes` shows
  this is the same as "a creation with at least one decoded byte" whenever the input
  decodes.
- A limit failure is the gasometer's `OutOfGas` exit, which carries no amounts
  (gas_used_estimator.rs:59-61, 84-86, 94).
- The EIP-1559 check runs before metering: a maximum fee that is too low is reported
  even when metering would also fail (eip1559.rs:31-38).

## Model

| member | source | states |
|---|---|---|
| FeeConstants.FixedChargesFitU64 | src/fee_estimator/mod.rs:10-14 | The base charge is 21000 and the creation charge 32000. Their sum fits in 64 bits, so converting them to u64 cannot fail. |
| Amounts.SaturatingMul | src/fee_estimator/eip2930.rs:11-13 | A saturating 256-bit product never exceeds the exact product. It is either the exact product or the maximum value. |
| Amounts.ClampedProduct | src/fee_estimator/legacy.rs:15 | The clamped product never exceeds the exact product, and equals it when it fits in 256 bits. |
| Amounts.SaturatingMulNotBelowOperand | src/fee_estimator/eip2930.rs:11-15 | Multiplying by a gas amount of at least one never makes a saturated amount smaller. |
| Amounts.SaturatingMulMonotone | src/fee_estimator/eip2930.rs:11-15 | A larger price never gives a smaller saturated product. |
| Amounts.SaturatingAddNotBelowOperands | src/fee_estimator/eip1559.rs:26-29 | A saturated sum is never below either operand, so the effective price is never below the market price. |
| Amounts.SaturatingAdd | src/fee_estimator/eip1559.rs:26-29 | A saturating 256-bit sum is either the exact sum or the maximum value, and never exceeds the exact sum. |
| Amounts.SaturatingMulTwice | src/fee_estimator/legacy.rs:11-15 | Scaling a price and then multiplying by a gas amount, saturating at each step, gives the exact triple product clamped to 2^256-1. |
| Amounts.SaturatingMulThenAdd | src/fee_estimator/eip1559.rs:26-29 | Saturating multiply followed by saturating add is the exact a*b+c clamped to 2^256-1. |
| Hex.Decode | src/fee_estimator/gas_used_estimator.rs:72 | Decoding succeeds exactly on even-length strings made only of hex digits, and yields half as many bytes as characters. |
| Hex.DecodeAt | src/fee_estimator/gas_used_estimator.rs:72 | Byte k of a decoding is the value of characters 2k and 2k+1, high nibble first. |
| Hex.DecodeEncode | src/fee_estimator/gas_used_estimator.rs:72 | Decoding the lower-case encoding of any byte sequence gives the bytes back. |
| Hex.PrefixedIsRejected | src/fee_estimator/gas_used_estimator.rs:72 | An input starting with "0x" fails to decode. |
| Hex.DecodesToEmptyIffEmpty | src/fee_estimator/gas_used_estimator.rs:72 | A decoding is empty exactly when the input string is empty. |
| Text.TrimStartIsLongestSuffix | src/fee_estimator/gas_used_estimator.rs:65 | Trimming the start removes only white space and leaves a string that is empty or starts with a non-white-space character. |
| Text.TrimEndIsLongestPrefix | src/fee_estimator/gas_used_estimator.rs:65 | Trimming the end removes only white space and leaves a string that is empty or ends with a non-white-space character. |
| Text.Trim | src/fee_estimator/gas_used_estimator.rs:65 | str::trim as the composition of trimming the start and the end. It has no contract of its own: TrimStartIsLongestSuffix, TrimEndIsLongestPrefix and TrimIsEmptyIffBlank state what it removes. |
| Text.TrimIsEmptyIffBlank | src/fee_estimator/gas_used_estimator.rs:65 | The trimmed input is empty exactly when every character is white space. |
| EvmGasometer.Gasometer.constructor | src/fee_estimator/gas_used_estimator.rs:56 | A new gasometer has the given limit and nothing used. |
| EvmGasometer.Gasometer.TotalUsedGas | src/fee_estimator/gas_used_estimator.rs:99-101 | The reported total never exceeds the limit. |
| EvmGasometer.Gasometer.RecordCost | src/fee_estimator/gas_used_estimator.rs:59-61 | Records a cost when it fits under the limit. Otherwise it fails with OutOfGas and leaves the total unchanged. The total stays within the limit. |
| EvmGasometer.Gasometer.RecordTransaction | src/fee_estimator/gas_used_estimator.rs:84-86 | Records the intrinsic cost against the gas still available, with the same success and failure rule and the same invariant as RecordCost. |
| GasUsedEstimator.Pairs | src/fee_estimator/gas_used_estimator.rs:52-54 | The access list becomes (address, storage keys) pairs of the same length, entry by entry, in order. |
| GasUsedEstimator.InputOf | src/fee_estimator/gas_used_estimator.rs:35-39 | The input string of a transaction of any of the three types. It has no contract of its own: GasUsed meters it, and Eip1559MeteredLikeEip2930 states that only this field, the action and the access list reach the meter. |
| GasUsedEstimator.ActionOf | src/fee_estimator/gas_used_estimator.rs:40-44 | The action (a call to an address, or a creation) of a transaction of any of the three types. It has no contract of its own: GasUsed meters it, and Eip1559MeteredLikeEip2930 states that only this field, the input and the access list reach the meter. |
| GasUsedEstimator.MeterAccessList | src/fee_estimator/gas_used_estimator.rs:45-54 | A legacy transaction contributes no access list. EIP-2930 and EIP-1559 transactions contribute their own, as pairs. |
| GasUsedEstimator.RuntimeOpcode | src/fee_estimator/gas_used_estimator.rs:104-256 | The translation, total over the 149 disassembler opcodes with one arm per source arm. It has no contract of its own: RuntimeOpcodeKeepsCode and the three renaming lemmas below state what it maps each opcode to. |
| GasUsedEstimator.RuntimeOpcodeKeepsCode | src/fee_estimator/gas_used_estimator.rs:104-252 | Every disassembler opcode except the two blob opcodes maps to the runtime opcode with the same EVM byte, i.e. the same instruction. |
| GasUsedEstimator.BlobBaseFeeCostedAsBaseFee | src/fee_estimator/gas_used_estimator.rs:253 | BLOBBASEFEE is looked up in the cost table as BASEFEE. |
| GasUsedEstimator.BlobHashCostedAsInvalid | src/fee_estimator/gas_used_estimator.rs:254 | BLOBHASH is looked up in the cost table as INVALID. |
| GasUsedEstimator.SelfdestructIsSuicide | src/fee_estimator/gas_used_estimator.rs:252 | SELFDESTRUCT is looked up as the runtime's SUICIDE. |
| GasUsedEstimator.PaysCreationSurcharge | src/fee_estimator/gas_used_estimator.rs:63-66 | The surcharge test of the source: a creation whose trimmed input is not empty. It has no contract of its own: SurchargeOnlyForNonBlankCreate and SurchargeMatchesDecodedBytes state when it holds. |
| GasUsedEstimator.FixedCharges | src/fee_estimator/gas_used_estimator.rs:58-70 | The charges recorded before decoding: 21000, plus 32000 when the surcharge applies. It has no contract of its own: SurchargeOnlyForNonBlankCreate gives its two possible values and when each occurs. |
| GasUsedEstimator.IntrinsicCost | src/fee_estimator/gas_used_estimator.rs:75-83 | The intrinsic cost from the call cost function for a call, whatever its target, and from the create cost function for a creation. Both are given the decoded bytes and the access-list pairs. It has no contract of its own: MeteredSuccessTotal and ErrorsFollowChargeOrder state how it enters the total and the OutOfGas test. |
| GasUsedEstimator.OpCost | src/fee_estimator/gas_used_estimator.rs:92-95 | An opcode costs the static cost table's entry for its runtime opcode, or nothing when the table has none. |
| GasUsedEstimator.StaticTotalAppend | src/fee_estimator/gas_used_estimator.rs:91-96 | The static cost of two opcode sequences in a row is the sum of their costs. |
| GasUsedEstimator.StaticTotalPrefix | src/fee_estimator/gas_used_estimator.rs:91-96 | The running opcode total never decreases: a prefix costs at most the whole sequence. |
| GasUsedEstimator.UncostedOpcodeAddsNothing | src/fee_estimator/gas_used_estimator.rs:93-95 | An opcode with no static cost leaves the total unchanged wherever it sits. |
| GasUsedEstimator.Metered | src/fee_estimator/gas_used_estimator.rs:56-101 | A successful meter reading is at least the base cost and at most the gas limit. |
| GasUsedEstimator.GasUsed | src/fee_estimator/gas_used_estimator.rs:33-101 | The gas a transaction uses. A successful reading is at least the base cost and at most the gas limit. |
| GasUsedEstimator.SurchargeOnlyForNonBlankCreate | src/fee_estimator/gas_used_estimator.rs:63-70 | The fixed charges are 53000 for a creation whose input is not all white space, and 21000 otherwise. So a call, or a creation with a blank input, never pays the surcharge. |
| GasUsedEstimator.SurchargeMatchesDecodedBytes | src/fee_estimator/gas_used_estimator.rs:63-72 | For an input that decodes, the surcharge applies exactly to a creation with at least one byte of code. |
| GasUsedEstimator.EmptyInputPaysBaseAndIntrinsic | src/fee_estimator/gas_used_estimator.rs:88-97 | An empty input uses 21000 plus the intrinsic cost of no bytes, or runs out of gas. Nothing is disassembled. |
| GasUsedEstimator.MeteredSuccessTotal | src/fee_estimator/gas_used_estimator.rs:56-101 | A success means the input decoded and, if non-empty, disassembled. The gas used is then the base cost, plus any surcharge, plus the intrinsic cost, plus the static costs of all opcodes. |
| GasUsedEstimator.ErrorsFollowChargeOrder | src/fee_estimator/gas_used_estimator.rs:59-96 | An earlier failure always wins, in the order base charge, surcharge, hex decoding, intrinsic charge, disassembly. For example, a limit below 21000 gives OutOfGas even for malformed hex. |
| GasUsedEstimator.LimitOnlyDecidesOutOfGas | src/fee_estimator/gas_used_estimator.rs:56-101 | Once a transaction meters successfully, any other limit gives the same total or OutOfGas. No partial total is ever returned. |
| GasUsedEstimator.LegacyMeteredWithoutAccessList | src/fee_estimator/gas_used_estimator.rs:45-48 | A legacy transaction is metered with an empty access list. |
| GasUsedEstimator.AccessListPassedInOrder | src/fee_estimator/gas_used_estimator.rs:45-54 | EIP-2930 and EIP-1559 transactions are metered with their access list turned into pairs, entry by entry and in order. |
| GasUsedEstimator.Eip1559MeteredLikeEip2930 | src/fee_estimator/gas_used_estimator.rs:35-54 | The meter reads only input, action and access list: an EIP-1559 transaction uses the same gas as the EIP-2930 transaction with those fields. |
| GasUsedEstimator.RecordOpcodeCosts | src/fee_estimator/gas_used_estimator.rs:89-97 | The opcode loop passes exactly when the total static cost fits in the remaining gas, and then adds that total. The gas used never decreases and the gasometer stays within its limit throughout. |
| GasUsedEstimator.Meter | src/fee_estimator/gas_used_estimator.rs:56-101 | The step-by-step charges on a gasometer give exactly the result stated on totals, both the success value and the error. |
| GasUsedEstimator.Estimate | src/fee_estimator/gas_used_estimator.rs:33-102 | Estimating a transaction meters its input, action and access list against the gas limit. |
| Pricing.Charge | src/fee_estimator/eip2930.rs:14-15 | Fails exactly when metering failed, with the meter's error inside InputEstimator. Otherwise the fee is the price times the gas used, clamped to 2^256-1. |
| Legacy.Estimate | src/fee_estimator/legacy.rs:9-16 | Fails exactly when the meter fails, with its error wrapped as InputEstimator. On success the fee is gas price times 10^9 times gas used, clamped to 2^256-1. Requires a 64-bit gas limit. |
| Legacy.LegacyFeeMatchesEip2930 | src/fee_estimator/legacy.rs:9-16 | A legacy transaction costs what the EIP-2930 transaction with the same fields and an empty access list costs. |
| Eip2930.Estimate | src/fee_estimator/eip2930.rs:9-16 | Fails exactly when the meter, run with the access list, fails, with its error wrapped as InputEstimator. On success the fee is gas price times 10^9 times gas used, clamped. Requires a 64-bit gas limit. |
| Eip2930.ZeroPriceZeroFee | src/fee_estimator/eip2930.rs:11-15 | A zero gas price gives a zero fee on success. |
| Eip2930.FeeMonotoneInPrice | src/fee_estimator/eip2930.rs:11-15 | Raising the gas price never lowers the fee. |
| Eip1559.ScaledMaxFee | src/fee_estimator/eip1559.rs:22-24 | The scaled maximum fee is the maximum fee times 10^9, clamped. |
| Eip1559.EffectivePrice | src/fee_estimator/eip1559.rs:26-29 | The effective price is priority fee times 10^9 plus the market price, clamped. It is never below the market price. |
| Eip1559.Estimate | src/fee_estimator/eip1559.rs:21-42 | Fails with MaxFeePerGasTooLow(scaled max fee, effective price) exactly when the scaled maximum fee is below the effective price, so equality passes. Otherwise it fails exactly when the meter fails, wrapping its error, and the fee is the effective price times the gas used, clamped. Requires a 64-bit gas limit. |
| Eip1559.RejectionSkipsMetering | src/fee_estimator/eip1559.rs:31-38 | A rejected fee does not depend on the input, action, access list, gas limit or cost functions: the meter is never consulted. |
| Eip1559.MaxFeeDoesNotEnterFee | src/fee_estimator/eip1559.rs:38-41 | Once the check passes, changing the maximum fee does not change the result. |
| Eip1559.InsufficientMaxFeeExample | src/fee_estimator/eip1559.rs:31-36 | A 100 gwei maximum fee with a 1 gwei priority fee at a 150 gwei market price is rejected, carrying 100 and 151 gwei. |
| Eip1559.SufficientMaxFeeExample | src/fee_estimator/eip1559.rs:21-42 | A 200 gwei maximum fee with a 2 gwei priority fee at a 10 gwei market price passes and costs 12 gwei per gas used. |
| Estimator.Estimate | src/fee_estimator/estimator.rs:71-81 | Each transaction goes to the estimator for its own type, and only the EIP-1559 one receives the market price. |
| Estimator.MeterOutcomePassesThrough | src/fee_estimator/estimator.rs:12-18 | A meter failure makes the estimate fail, and an InputEstimator error carries the meter's error unchanged. A success implies the meter succeeded. (An EIP-1559 fee that is too low is reported as MaxFeePerGasTooLow even when metering would also fail.) |
| Estimator.MaxFeeErrorOnlyForEip1559 | src/fee_estimator/estimator.rs:71-81 | Only an EIP-1559 transaction can fail with MaxFeePerGasTooLow. |
| Estimator.OnlyEip1559ReadsMarketPrice | src/fee_estimator/estimator.rs:73-78 | Legacy and EIP-2930 estimates do not depend on the market gas price. |

## Left out

- Gas price collection over JSON-RPC, the HTTP server, command-line handling and logging are not part of this model. They are I/O. The market price is a parameter instead.
- `async`/`await` on the dispatcher and the EIP-1559 estimator is treated as ordinary function calls.
- The internals of evm_gasometer and evm_disassembler are not part of this model. The intrinsic cost functions, the London static cost table and the disassembler are the fields of `Libraries`. Nothing is assumed of them beyond their types. `Config::london()` is folded into those functions.
- `GasUsedEstimator::new`, `Estimator::new` and `EIP1559TransactionEstimator::new` only store their arguments. The gas limit and the market price are parameters of the functions that use them.
- EvmGasometer.Gasometer.RecordCost: the crate's gasometer keeps an error state after a failure. The model leaves the total unchanged instead. The estimator stops at the first failure, so the difference is never observed.
- EvmGasometer.Gasometer.RecordCost: costs and totals are unbounded naturals. The limit is a u64 and every recorded charge fits under it, so no 64-bit wrap-around is modelled.
- EvmGasometer.ExitError: only `OutOfGas` is modelled. It is the only exit the recorded charges can produce.
- GasUsedEstimator.Error: the hex crate's error detail (odd length, invalid character) and the disassembler's report text are dropped. Only the error variant is kept.
- `as_u64` on a gas limit of 2^64 or more panics in the code. The estimators instead require a limit that fits in 64 bits.
- Opcodes are identified by their EVM byte values. The runtime opcode is a byte, as in the runtime crate, and the disassembler's opcodes carry the same numbering.
- The text of the error messages and the serialisation attributes are not modelled.
