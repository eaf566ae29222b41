/**
 * The gas-used meter: walks one transaction through the fixed sequence of
 * charges (base cost, creation surcharge, hex decoding, intrinsic cost,
 * disassembly, static cost of each opcode) against a gasometer bounded by the
 * gas limit.
 */
module GasUsedEstimator {
  import opened Wrappers
  import opened Amounts
  import opened FeeConstants
  import Hex
  import opened Text
  import Disassembler
  import EvmRuntime
  import opened EvmGasometer
  import opened Transactions

  datatype Error =
    | GasometerExit(exit: ExitError)
    | EvmDisassembler
    | HexDecode

  /** An access-list entry as the cost functions take it. */
  type AccessPair = (H160, seq<H256>)

  /**
   * The functions of foreign crates the meter calls, taken as given:
   * evm_gasometer's intrinsic cost of a call and of a creation (under the
   * London configuration, already turned into gas), its static cost table,
   * and evm_disassembler's decoding of bytecode into opcodes.
   */
  datatype Libraries = Libraries(
    callTransactionCost: (seq<Byte>, seq<AccessPair>) -> U64,
    createTransactionCost: (seq<Byte>, seq<AccessPair>) -> U64,
    staticOpcodeCost: EvmRuntime.Opcode -> Option<U64>,
    disassembleBytes: seq<Byte> -> Option<seq<Disassembler.Opcode>>)

  function InputOf(tx: Transaction): (input: string)
  {
    match tx
    case Legacy(t) => t.input
    case EIP2930(t) => t.input
    case EIP1559(t) => t.input
  }

  function ActionOf(tx: Transaction): (action: TransactionAction)
  {
    match tx
    case Legacy(t) => t.action
    case EIP2930(t) => t.action
    case EIP1559(t) => t.action
  }

  function Pairs(accessList: AccessList): (pairs: seq<AccessPair>)
    ensures |pairs| == |accessList|
    ensures forall i :: 0 <= i < |pairs| ==>
      pairs[i] == (accessList[i].address, accessList[i].storageKeys)
  {
    seq(|accessList|, i requires 0 <= i < |accessList| => (accessList[i].address, accessList[i].storageKeys))
  }

  /** The access list handed to the cost function: none for a legacy transaction, else the declared one in order. */
  function MeterAccessList(tx: Transaction): (pairs: seq<AccessPair>)
    ensures tx.Legacy? ==> pairs == []
    ensures tx.EIP2930? ==> pairs == Pairs(tx.eip2930.accessList)
    ensures tx.EIP1559? ==> pairs == Pairs(tx.eip1559.accessList)
  {
    match tx
    case Legacy(_) => []
    case EIP2930(t) => Pairs(t.accessList)
    case EIP1559(t) => Pairs(t.accessList)
  }

  /**
   * The runtime opcode whose static cost is looked up for a disassembled
   * opcode: the same-named one, except for three renamings.
   */
  function RuntimeOpcode(op: Disassembler.Opcode): (r: EvmRuntime.Opcode)
  {
    match op
    case STOP => EvmRuntime.STOP
    case ADD => EvmRuntime.ADD
    case MUL => EvmRuntime.MUL
    case SUB => EvmRuntime.SUB
    case DIV => EvmRuntime.DIV
    case SDIV => EvmRuntime.SDIV
    case MOD => EvmRuntime.MOD
    case SMOD => EvmRuntime.SMOD
    case ADDMOD => EvmRuntime.ADDMOD
    case MULMOD => EvmRuntime.MULMOD
    case EXP => EvmRuntime.EXP
    case SIGNEXTEND => EvmRuntime.SIGNEXTEND
    case LT => EvmRuntime.LT
    case GT => EvmRuntime.GT
    case SLT => EvmRuntime.SLT
    case SGT => EvmRuntime.SGT
    case EQ => EvmRuntime.EQ
    case ISZERO => EvmRuntime.ISZERO
    case AND => EvmRuntime.AND
    case OR => EvmRuntime.OR
    case XOR => EvmRuntime.XOR
    case NOT => EvmRuntime.NOT
    case BYTE => EvmRuntime.BYTE
    case SHL => EvmRuntime.SHL
    case SHR => EvmRuntime.SHR
    case SAR => EvmRuntime.SAR
    case SHA3 => EvmRuntime.SHA3
    case ADDRESS => EvmRuntime.ADDRESS
    case BALANCE => EvmRuntime.BALANCE
    case ORIGIN => EvmRuntime.ORIGIN
    case CALLER => EvmRuntime.CALLER
    case CALLVALUE => EvmRuntime.CALLVALUE
    case CALLDATALOAD => EvmRuntime.CALLDATALOAD
    case CALLDATASIZE => EvmRuntime.CALLDATASIZE
    case CALLDATACOPY => EvmRuntime.CALLDATACOPY
    case CODESIZE => EvmRuntime.CODESIZE
    case CODECOPY => EvmRuntime.CODECOPY
    case GASPRICE => EvmRuntime.GASPRICE
    case EXTCODESIZE => EvmRuntime.EXTCODESIZE
    case EXTCODECOPY => EvmRuntime.EXTCODECOPY
    case RETURNDATASIZE => EvmRuntime.RETURNDATASIZE
    case RETURNDATACOPY => EvmRuntime.RETURNDATACOPY
    case EXTCODEHASH => EvmRuntime.EXTCODEHASH
    case BLOCKHASH => EvmRuntime.BLOCKHASH
    case COINBASE => EvmRuntime.COINBASE
    case TIMESTAMP => EvmRuntime.TIMESTAMP
    case NUMBER => EvmRuntime.NUMBER
    case DIFFICULTY => EvmRuntime.DIFFICULTY
    case GASLIMIT => EvmRuntime.GASLIMIT
    case CHAINID => EvmRuntime.CHAINID
    case SELFBALANCE => EvmRuntime.SELFBALANCE
    case BASEFEE => EvmRuntime.BASEFEE
    case POP => EvmRuntime.POP
    case MLOAD => EvmRuntime.MLOAD
    case MSTORE => EvmRuntime.MSTORE
    case MSTORE8 => EvmRuntime.MSTORE8
    case SLOAD => EvmRuntime.SLOAD
    case SSTORE => EvmRuntime.SSTORE
    case JUMP => EvmRuntime.JUMP
    case JUMPI => EvmRuntime.JUMPI
    case PC => EvmRuntime.PC
    case MSIZE => EvmRuntime.MSIZE
    case GAS => EvmRuntime.GAS
    case JUMPDEST => EvmRuntime.JUMPDEST
    case MCOPY => EvmRuntime.MCOPY
    case TLOAD => EvmRuntime.TLOAD
    case TSTORE => EvmRuntime.TSTORE
    case PUSH0 => EvmRuntime.PUSH0
    case PUSH1 => EvmRuntime.PUSH1
    case PUSH2 => EvmRuntime.PUSH2
    case PUSH3 => EvmRuntime.PUSH3
    case PUSH4 => EvmRuntime.PUSH4
    case PUSH5 => EvmRuntime.PUSH5
    case PUSH6 => EvmRuntime.PUSH6
    case PUSH7 => EvmRuntime.PUSH7
    case PUSH8 => EvmRuntime.PUSH8
    case PUSH9 => EvmRuntime.PUSH9
    case PUSH10 => EvmRuntime.PUSH10
    case PUSH11 => EvmRuntime.PUSH11
    case PUSH12 => EvmRuntime.PUSH12
    case PUSH13 => EvmRuntime.PUSH13
    case PUSH14 => EvmRuntime.PUSH14
    case PUSH15 => EvmRuntime.PUSH15
    case PUSH16 => EvmRuntime.PUSH16
    case PUSH17 => EvmRuntime.PUSH17
    case PUSH18 => EvmRuntime.PUSH18
    case PUSH19 => EvmRuntime.PUSH19
    case PUSH20 => EvmRuntime.PUSH20
    case PUSH21 => EvmRuntime.PUSH21
    case PUSH22 => EvmRuntime.PUSH22
    case PUSH23 => EvmRuntime.PUSH23
    case PUSH24 => EvmRuntime.PUSH24
    case PUSH25 => EvmRuntime.PUSH25
    case PUSH26 => EvmRuntime.PUSH26
    case PUSH27 => EvmRuntime.PUSH27
    case PUSH28 => EvmRuntime.PUSH28
    case PUSH29 => EvmRuntime.PUSH29
    case PUSH30 => EvmRuntime.PUSH30
    case PUSH31 => EvmRuntime.PUSH31
    case PUSH32 => EvmRuntime.PUSH32
    case DUP1 => EvmRuntime.DUP1
    case DUP2 => EvmRuntime.DUP2
    case DUP3 => EvmRuntime.DUP3
    case DUP4 => EvmRuntime.DUP4
    case DUP5 => EvmRuntime.DUP5
    case DUP6 => EvmRuntime.DUP6
    case DUP7 => EvmRuntime.DUP7
    case DUP8 => EvmRuntime.DUP8
    case DUP9 => EvmRuntime.DUP9
    case DUP10 => EvmRuntime.DUP10
    case DUP11 => EvmRuntime.DUP11
    case DUP12 => EvmRuntime.DUP12
    case DUP13 => EvmRuntime.DUP13
    case DUP14 => EvmRuntime.DUP14
    case DUP15 => EvmRuntime.DUP15
    case DUP16 => EvmRuntime.DUP16
    case SWAP1 => EvmRuntime.SWAP1
    case SWAP2 => EvmRuntime.SWAP2
    case SWAP3 => EvmRuntime.SWAP3
    case SWAP4 => EvmRuntime.SWAP4
    case SWAP5 => EvmRuntime.SWAP5
    case SWAP6 => EvmRuntime.SWAP6
    case SWAP7 => EvmRuntime.SWAP7
    case SWAP8 => EvmRuntime.SWAP8
    case SWAP9 => EvmRuntime.SWAP9
    case SWAP10 => EvmRuntime.SWAP10
    case SWAP11 => EvmRuntime.SWAP11
    case SWAP12 => EvmRuntime.SWAP12
    case SWAP13 => EvmRuntime.SWAP13
    case SWAP14 => EvmRuntime.SWAP14
    case SWAP15 => EvmRuntime.SWAP15
    case SWAP16 => EvmRuntime.SWAP16
    case LOG0 => EvmRuntime.LOG0
    case LOG1 => EvmRuntime.LOG1
    case LOG2 => EvmRuntime.LOG2
    case LOG3 => EvmRuntime.LOG3
    case LOG4 => EvmRuntime.LOG4
    case CREATE => EvmRuntime.CREATE
    case CALL => EvmRuntime.CALL
    case CALLCODE => EvmRuntime.CALLCODE
    case RETURN => EvmRuntime.RETURN
    case DELEGATECALL => EvmRuntime.DELEGATECALL
    case CREATE2 => EvmRuntime.CREATE2
    case STATICCALL => EvmRuntime.STATICCALL
    case REVERT => EvmRuntime.REVERT
    case INVALID => EvmRuntime.INVALID
    case SELFDESTRUCT => EvmRuntime.SUICIDE
    case BLOBBASEFEE => EvmRuntime.BASEFEE
    case BLOBHASH => EvmRuntime.INVALID
  }

  /**
   * Every disassembler opcode other than the two blob opcodes is looked up as
   * the runtime opcode with the same byte, that is, the same instruction.
   */
  lemma RuntimeOpcodeKeepsCode(op: Disassembler.Opcode)
    requires op != Disassembler.BLOBBASEFEE && op != Disassembler.BLOBHASH
    ensures RuntimeOpcode(op).code == op.Code()
  {
    if op.STOP? || op.ADD? || op.MUL? || op.SUB? || op.DIV? || op.SDIV? || op.MOD? || op.SMOD? || op.ADDMOD? || op.MULMOD? ||
         op.EXP? || op.SIGNEXTEND? || op.LT? || op.GT? || op.SLT? || op.SGT? || op.EQ? || op.ISZERO? || op.AND? || op.OR? || op.XOR? ||
         op.NOT? || op.BYTE? || op.SHL? || op.SHR? || op.SAR? || op.SHA3? {
      ArithmeticKeepsCode(op);
    } else if op.ADDRESS? || op.BALANCE? || op.ORIGIN? || op.CALLER? || op.CALLVALUE? || op.CALLDATALOAD? || op.CALLDATASIZE? ||
         op.CALLDATACOPY? || op.CODESIZE? || op.CODECOPY? || op.GASPRICE? || op.EXTCODESIZE? || op.EXTCODECOPY? ||
         op.RETURNDATASIZE? || op.RETURNDATACOPY? || op.EXTCODEHASH? || op.BLOCKHASH? || op.COINBASE? ||
         op.TIMESTAMP? || op.NUMBER? || op.DIFFICULTY? || op.GASLIMIT? || op.CHAINID? || op.SELFBALANCE? || op.BASEFEE? {
      EnvironmentKeepsCode(op);
    } else if op.POP? || op.MLOAD? || op.MSTORE? || op.MSTORE8? || op.SLOAD? || op.SSTORE? || op.JUMP? || op.JUMPI? || op.PC? ||
         op.MSIZE? || op.GAS? || op.JUMPDEST? || op.MCOPY? || op.TLOAD? || op.TSTORE? || op.PUSH0? {
      StackMemoryFlowKeepsCode(op);
    } else if op.PUSH1? || op.PUSH2? || op.PUSH3? || op.PUSH4? || op.PUSH5? || op.PUSH6? || op.PUSH7? || op.PUSH8? || op.PUSH9? ||
         op.PUSH10? || op.PUSH11? || op.PUSH12? || op.PUSH13? || op.PUSH14? || op.PUSH15? || op.PUSH16? || op.PUSH17? ||
         op.PUSH18? || op.PUSH19? || op.PUSH20? || op.PUSH21? || op.PUSH22? || op.PUSH23? || op.PUSH24? || op.PUSH25? ||
         op.PUSH26? || op.PUSH27? || op.PUSH28? || op.PUSH29? || op.PUSH30? || op.PUSH31? || op.PUSH32? {
      PushKeepsCode(op);
    } else if op.DUP1? || op.DUP2? || op.DUP3? || op.DUP4? || op.DUP5? || op.DUP6? || op.DUP7? || op.DUP8? || op.DUP9? || op.DUP10? ||
         op.DUP11? || op.DUP12? || op.DUP13? || op.DUP14? || op.DUP15? || op.DUP16? || op.SWAP1? || op.SWAP2? || op.SWAP3? ||
         op.SWAP4? || op.SWAP5? || op.SWAP6? || op.SWAP7? || op.SWAP8? || op.SWAP9? || op.SWAP10? || op.SWAP11? || op.SWAP12? ||
         op.SWAP13? || op.SWAP14? || op.SWAP15? || op.SWAP16? {
      DupSwapKeepsCode(op);
    } else {
      LogSystemKeepsCode(op);
    }
  }

  /** SELFDESTRUCT is looked up as the runtime's SUICIDE, the same instruction under its older name. */
  lemma SelfdestructIsSuicide(op: Disassembler.Opcode)
    requires op == Disassembler.SELFDESTRUCT
    ensures RuntimeOpcode(op) == EvmRuntime.SUICIDE
  {
  }

  /** BLOBBASEFEE is looked up as the runtime's BASEFEE. */
  lemma BlobBaseFeeCostedAsBaseFee(op: Disassembler.Opcode)
    requires op == Disassembler.BLOBBASEFEE
    ensures RuntimeOpcode(op) == EvmRuntime.BASEFEE
  {
  }

  /** BLOBHASH is looked up as the runtime's INVALID. */
  lemma BlobHashCostedAsInvalid(op: Disassembler.Opcode)
    requires op == Disassembler.BLOBHASH
    ensures RuntimeOpcode(op) == EvmRuntime.INVALID
  {
  }

  /** Arithmetic, comparison, bitwise and hashing opcodes keep their byte. */
  lemma ArithmeticKeepsCode(op: Disassembler.Opcode)
    requires
      op.STOP? || op.ADD? || op.MUL? || op.SUB? || op.DIV? || op.SDIV? || op.MOD? || op.SMOD? || op.ADDMOD? || op.MULMOD? ||
      op.EXP? || op.SIGNEXTEND? || op.LT? || op.GT? || op.SLT? || op.SGT? || op.EQ? || op.ISZERO? || op.AND? || op.OR? || op.XOR? ||
      op.NOT? || op.BYTE? || op.SHL? || op.SHR? || op.SAR? || op.SHA3?
    ensures RuntimeOpcode(op).code == op.Code()
  {
  }

  /** Environment and block-information opcodes keep their byte. */
  lemma EnvironmentKeepsCode(op: Disassembler.Opcode)
    requires
      op.ADDRESS? || op.BALANCE? || op.ORIGIN? || op.CALLER? || op.CALLVALUE? || op.CALLDATALOAD? || op.CALLDATASIZE? ||
      op.CALLDATACOPY? || op.CODESIZE? || op.CODECOPY? || op.GASPRICE? || op.EXTCODESIZE? || op.EXTCODECOPY? ||
      op.RETURNDATASIZE? || op.RETURNDATACOPY? || op.EXTCODEHASH? || op.BLOCKHASH? || op.COINBASE? ||
      op.TIMESTAMP? || op.NUMBER? || op.DIFFICULTY? || op.GASLIMIT? || op.CHAINID? || op.SELFBALANCE? || op.BASEFEE?
    ensures RuntimeOpcode(op).code == op.Code()
  {
  }

  /** Stack, memory, storage and control-flow opcodes keep their byte. */
  lemma StackMemoryFlowKeepsCode(op: Disassembler.Opcode)
    requires
      op.POP? || op.MLOAD? || op.MSTORE? || op.MSTORE8? || op.SLOAD? || op.SSTORE? || op.JUMP? || op.JUMPI? || op.PC? ||
      op.MSIZE? || op.GAS? || op.JUMPDEST? || op.MCOPY? || op.TLOAD? || op.TSTORE? || op.PUSH0?
    ensures RuntimeOpcode(op).code == op.Code()
  {
  }

  /** PUSH1 to PUSH32 keep their byte. */
  lemma PushKeepsCode(op: Disassembler.Opcode)
    requires
      op.PUSH1? || op.PUSH2? || op.PUSH3? || op.PUSH4? || op.PUSH5? || op.PUSH6? || op.PUSH7? || op.PUSH8? || op.PUSH9? ||
      op.PUSH10? || op.PUSH11? || op.PUSH12? || op.PUSH13? || op.PUSH14? || op.PUSH15? || op.PUSH16? || op.PUSH17? ||
      op.PUSH18? || op.PUSH19? || op.PUSH20? || op.PUSH21? || op.PUSH22? || op.PUSH23? || op.PUSH24? || op.PUSH25? ||
      op.PUSH26? || op.PUSH27? || op.PUSH28? || op.PUSH29? || op.PUSH30? || op.PUSH31? || op.PUSH32?
    ensures RuntimeOpcode(op).code == op.Code()
  {
  }

  /** DUP and SWAP opcodes keep their byte. */
  lemma DupSwapKeepsCode(op: Disassembler.Opcode)
    requires
      op.DUP1? || op.DUP2? || op.DUP3? || op.DUP4? || op.DUP5? || op.DUP6? || op.DUP7? || op.DUP8? || op.DUP9? || op.DUP10? ||
      op.DUP11? || op.DUP12? || op.DUP13? || op.DUP14? || op.DUP15? || op.DUP16? || op.SWAP1? || op.SWAP2? || op.SWAP3? ||
      op.SWAP4? || op.SWAP5? || op.SWAP6? || op.SWAP7? || op.SWAP8? || op.SWAP9? || op.SWAP10? || op.SWAP11? || op.SWAP12? ||
      op.SWAP13? || op.SWAP14? || op.SWAP15? || op.SWAP16?
    ensures RuntimeOpcode(op).code == op.Code()
  {
  }

  /** Logging and system opcodes keep their byte; SELFDESTRUCT is the runtime SUICIDE, byte 0xff. */
  lemma LogSystemKeepsCode(op: Disassembler.Opcode)
    requires
      op.LOG0? || op.LOG1? || op.LOG2? || op.LOG3? || op.LOG4? || op.CREATE? || op.CALL? || op.CALLCODE? || op.RETURN? ||
      op.DELEGATECALL? || op.CREATE2? || op.STATICCALL? || op.REVERT? || op.INVALID? || op.SELFDESTRUCT?
    ensures RuntimeOpcode(op).code == op.Code()
  {
  }


  /** The creation surcharge applies to a creation whose input is not blank. */
  predicate PaysCreationSurcharge(action: TransactionAction, input: string)
  {
    action.Create? && Trim(input) != ""
  }

  /** The fixed charges recorded before the input is decoded. */
  function FixedCharges(action: TransactionAction, input: string): (charges: nat)
  {
    BASE_GAS_COUNT + if PaysCreationSurcharge(action, input) then CONTRACT_CREATION_GAS else 0
  }

  /** call_transaction_cost or create_transaction_cost, chosen by the action. */
  function IntrinsicCost(libs: Libraries, action: TransactionAction, bytes: seq<Byte>, pairs: seq<AccessPair>): (cost: U64)
  {
    match action
    case Call(_) => libs.callTransactionCost(bytes, pairs)
    case Create => libs.createTransactionCost(bytes, pairs)
  }

  /** The static cost of one opcode, or nothing when the table has no entry. */
  function OpCost(libs: Libraries, op: Disassembler.Opcode): (cost: nat)
    ensures libs.staticOpcodeCost(RuntimeOpcode(op)).None? ==> cost == 0
    ensures libs.staticOpcodeCost(RuntimeOpcode(op)).Some? ==> cost == libs.staticOpcodeCost(RuntimeOpcode(op)).value
  {
    match libs.staticOpcodeCost(RuntimeOpcode(op))
    case Some(c) => c
    case None => 0
  }

  /** The sum of the static costs of a sequence of opcodes. */
  function StaticTotal(libs: Libraries, ops: seq<Disassembler.Opcode>): (total: nat)
  {
    if ops == [] then 0 else StaticTotal(libs, ops[..|ops| - 1]) + OpCost(libs, ops[|ops| - 1])
  }

  /** The static cost of a concatenation is the sum of the parts. */
  lemma {:induction false} StaticTotalAppend(libs: Libraries, a: seq<Disassembler.Opcode>, b: seq<Disassembler.Opcode>)
    ensures StaticTotal(libs, a + b) == StaticTotal(libs, a) + StaticTotal(libs, b)
    decreases |b|
  {
    if b == [] {
      assert a + b == a;
    } else {
      var b' := b[..|b| - 1];
      StaticTotalAppend(libs, a, b');
      assert (a + b)[..|a + b| - 1] == a + b';
    }
  }

  /** Appending opcodes never lowers the static cost: a prefix costs at most the whole. */
  lemma StaticTotalPrefix(libs: Libraries, ops: seq<Disassembler.Opcode>, n: nat)
    requires n <= |ops|
    ensures StaticTotal(libs, ops[..n]) <= StaticTotal(libs, ops)
  {
    StaticTotalAppend(libs, ops[..n], ops[n..]);
    assert ops[..n] + ops[n..] == ops;
  }

  /** An opcode the static cost table has no entry for adds nothing, wherever it appears. */
  lemma UncostedOpcodeAddsNothing(libs: Libraries, a: seq<Disassembler.Opcode>, op: Disassembler.Opcode, b: seq<Disassembler.Opcode>)
    requires libs.staticOpcodeCost(RuntimeOpcode(op)).None?
    ensures StaticTotal(libs, a + [op] + b) == StaticTotal(libs, a + b)
  {
    StaticTotalAppend(libs, a + [op], b);
    StaticTotalAppend(libs, a, b);
    assert (a + [op])[..|a + [op]| - 1] == a;
  }

  /**
   * What the meter computes, stated on totals: the charges in their source
   * order, each failing with OutOfGas when the running total would pass the
   * limit. Because every charge is non-negative, the per-opcode loop fails
   * exactly when the total of all static costs does not fit.
   */
  function Metered(libs: Libraries, gasLimit: U64, input: string, action: TransactionAction, pairs: seq<AccessPair>)
    : (r: Result<U64, Error>)
    ensures r.Success? ==> BASE_GAS_COUNT <= r.value <= gasLimit
  {
    var fixed := FixedCharges(action, input);
    if gasLimit < fixed then Failure(GasometerExit(OutOfGas))
    else match Hex.Decode(input)
      case None => Failure(HexDecode)
      case Some(bytes) =>
        var intrinsic := fixed + IntrinsicCost(libs, action, bytes, pairs);
        if gasLimit < intrinsic then Failure(GasometerExit(OutOfGas))
        else if input == [] then Success(intrinsic)
        else match libs.disassembleBytes(bytes)
          case None => Failure(EvmDisassembler)
          case Some(ops) =>
            var total := intrinsic + StaticTotal(libs, ops);
            if gasLimit < total then Failure(GasometerExit(OutOfGas)) else Success(total)
  }

  /** The gas a transaction uses: its input, action and access list metered against the limit. */
  function GasUsed(libs: Libraries, gasLimit: U64, tx: Transaction): (r: Result<U64, Error>)
    ensures r.Success? ==> BASE_GAS_COUNT <= r.value <= gasLimit
  {
    Metered(libs, gasLimit, InputOf(tx), ActionOf(tx), MeterAccessList(tx))
  }

  /** The surcharge is paid by a creation whose input is not all white space, and by nothing else. */
  lemma SurchargeOnlyForNonBlankCreate(action: TransactionAction, input: string)
    ensures FixedCharges(action, input) ==
      if action.Create? && !IsBlank(input) then BASE_GAS_COUNT + CONTRACT_CREATION_GAS else BASE_GAS_COUNT
  {
    TrimIsEmptyIffBlank(input);
  }

  /** Once the input has decoded, the surcharge applies exactly to a creation with at least one byte of code. */
  lemma SurchargeMatchesDecodedBytes(action: TransactionAction, input: string, bytes: seq<Byte>)
    requires Hex.Decode(input) == Some(bytes)
    ensures PaysCreationSurcharge(action, input) <==> action.Create? && bytes != []
  {
    TrimIsEmptyIffBlank(input);
    if input != [] {
      assert Hex.IsHexDigit(input[0]);
      assert !IsBlank(input);
    }
  }

  /** An empty input pays the base cost and the intrinsic cost of no bytes, and nothing more, whatever the action. */
  lemma EmptyInputPaysBaseAndIntrinsic(libs: Libraries, gasLimit: U64, action: TransactionAction, pairs: seq<AccessPair>)
    ensures var cost := BASE_GAS_COUNT + IntrinsicCost(libs, action, [], pairs);
      Metered(libs, gasLimit, "", action, pairs) ==
        if cost <= gasLimit then Success(cost) else Failure(GasometerExit(OutOfGas))
  {
    assert Trim("") == "";
  }

  /** On success the total is the base cost, the surcharge when it applies, the intrinsic cost and, for a non-empty input, every static cost. */
  lemma MeteredSuccessTotal(libs: Libraries, gasLimit: U64, input: string, action: TransactionAction, pairs: seq<AccessPair>)
    requires Metered(libs, gasLimit, input, action, pairs).Success?
    ensures Hex.Decode(input).Some?
    ensures input != [] ==> libs.disassembleBytes(Hex.Decode(input).value).Some?
    ensures Metered(libs, gasLimit, input, action, pairs).value ==
      FixedCharges(action, input) + IntrinsicCost(libs, action, Hex.Decode(input).value, pairs) +
      (if input == [] then 0 else StaticTotal(libs, libs.disassembleBytes(Hex.Decode(input).value).value))
  {
  }

  /**
   * Errors follow the order of the charges: base cost, creation surcharge, hex
   * decoding, intrinsic cost, disassembly. A later check cannot hide the
   * failure of an earlier one.
   */
  lemma ErrorsFollowChargeOrder(libs: Libraries, gasLimit: U64, input: string, action: TransactionAction, pairs: seq<AccessPair>)
    ensures gasLimit < BASE_GAS_COUNT ==>
      Metered(libs, gasLimit, input, action, pairs) == Failure(GasometerExit(OutOfGas))
    ensures PaysCreationSurcharge(action, input) && gasLimit < BASE_GAS_COUNT + CONTRACT_CREATION_GAS ==>
      Metered(libs, gasLimit, input, action, pairs) == Failure(GasometerExit(OutOfGas))
    ensures FixedCharges(action, input) <= gasLimit && Hex.Decode(input).None? ==>
      Metered(libs, gasLimit, input, action, pairs) == Failure(HexDecode)
    ensures (Hex.Decode(input).Some? &&
             gasLimit < FixedCharges(action, input) + IntrinsicCost(libs, action, Hex.Decode(input).value, pairs)) ==>
      Metered(libs, gasLimit, input, action, pairs) == Failure(GasometerExit(OutOfGas))
    ensures (Hex.Decode(input).Some? && input != [] &&
             FixedCharges(action, input) + IntrinsicCost(libs, action, Hex.Decode(input).value, pairs) <= gasLimit &&
             libs.disassembleBytes(Hex.Decode(input).value).None?) ==>
      Metered(libs, gasLimit, input, action, pairs) == Failure(EvmDisassembler)
  {
  }

  /** The limit decides only between a fixed total and running out of gas: a success at one limit fixes the result at every limit. */
  lemma LimitOnlyDecidesOutOfGas(libs: Libraries, gasLimit: U64, gasLimit': U64, input: string, action: TransactionAction, pairs: seq<AccessPair>)
    requires Metered(libs, gasLimit, input, action, pairs).Success?
    ensures var used := Metered(libs, gasLimit, input, action, pairs).value;
      Metered(libs, gasLimit', input, action, pairs) ==
        if used <= gasLimit' then Success(used) else Failure(GasometerExit(OutOfGas))
  {
    MeteredSuccessTotal(libs, gasLimit, input, action, pairs);
  }

  /** A legacy transaction is metered with an empty access list. */
  lemma LegacyMeteredWithoutAccessList(libs: Libraries, gasLimit: U64, tx: LegacyTransaction)
    ensures GasUsed(libs, gasLimit, Legacy(tx)) == Metered(libs, gasLimit, tx.input, tx.action, [])
  {
  }

  /** EIP-2930 and EIP-1559 transactions hand their access list to the meter as (address, keys) pairs, in order. */
  lemma AccessListPassedInOrder(libs: Libraries, gasLimit: U64, tx: Transaction)
    requires !tx.Legacy?
    ensures var accessList := if tx.EIP2930? then tx.eip2930.accessList else tx.eip1559.accessList;
      && |MeterAccessList(tx)| == |accessList|
      && (forall i :: 0 <= i < |accessList| ==>
            MeterAccessList(tx)[i] == (accessList[i].address, accessList[i].storageKeys))
      && GasUsed(libs, gasLimit, tx) == Metered(libs, gasLimit, InputOf(tx), ActionOf(tx), MeterAccessList(tx))
  {
  }

  /** An EIP-1559 transaction uses the same gas as an EIP-2930 transaction with the same input, action and access list. */
  lemma Eip1559MeteredLikeEip2930(libs: Libraries, gasLimit: U64, tx: EIP1559Transaction, gasPrice: U256)
    ensures GasUsed(libs, gasLimit, EIP1559(tx)) ==
      GasUsed(libs, gasLimit, EIP2930(EIP2930Transaction(gasPrice, tx.gasLimit, tx.input, tx.action, tx.accessList)))
  {
  }

  /** The loop over the disassembled opcodes: records each static cost in turn, stopping at the first that does not fit. */
  method RecordOpcodeCosts(libs: Libraries, gasometer: Gasometer, ops: seq<Disassembler.Opcode>)
    returns (outcome: Outcome<ExitError>)
    requires gasometer.Valid()
    modifies gasometer
    ensures gasometer.Valid()
    ensures outcome == if old(gasometer.used) + StaticTotal(libs, ops) <= gasometer.limit then Pass else Fail(OutOfGas)
    ensures outcome.Pass? ==> gasometer.used == old(gasometer.used) + StaticTotal(libs, ops)
    ensures old(gasometer.used) <= gasometer.used <= gasometer.limit
  {
    for i := 0 to |ops|
      invariant gasometer.Valid()
      invariant gasometer.used == old(gasometer.used) + StaticTotal(libs, ops[..i])
    {
      var opCode := RuntimeOpcode(ops[i]);
      var cost := libs.staticOpcodeCost(opCode);
      assert ops[..i + 1][..i] == ops[..i];
      if cost.Some? {
        outcome := gasometer.RecordCost(cost.value);
        if outcome.Fail? {
          StaticTotalPrefix(libs, ops, i + 1);
          return;
        }
      }
    }
    assert ops[..|ops|] == ops;
    outcome := Pass;
  }

  /** GasUsedEstimator::estimate: extracts what the meter needs from the transaction and meters it. */
  method Estimate(libs: Libraries, gasLimit: U64, tx: Transaction) returns (r: Result<U64, Error>)
    ensures r == GasUsed(libs, gasLimit, tx)
  {
    var input := InputOf(tx);
    var action := ActionOf(tx);
    var accessList := MeterAccessList(tx);
    r := Meter(libs, gasLimit, input, action, accessList);
  }

  /** The charges of GasUsedEstimator::estimate, one by one on a gasometer. */
  method Meter(libs: Libraries, gasLimit: U64, input: string, action: TransactionAction, accessList: seq<AccessPair>)
    returns (r: Result<U64, Error>)
    ensures r == Metered(libs, gasLimit, input, action, accessList)
  {
    var gasometer := new Gasometer(gasLimit);

    var outcome := gasometer.RecordCost(BASE_GAS_COUNT);
    if outcome.Fail? {
      return Failure(GasometerExit(outcome.error));
    }
    if action.Create? && Trim(input) != "" {
      outcome := gasometer.RecordCost(CONTRACT_CREATION_GAS);
      if outcome.Fail? {
        return Failure(GasometerExit(outcome.error));
      }
    }

    var decoded := Hex.Decode(input);
    if decoded.None? {
      return Failure(HexDecode);
    }
    var txInput := decoded.value;

    var txCost := IntrinsicCost(libs, action, txInput, accessList);
    outcome := gasometer.RecordTransaction(txCost);
    if outcome.Fail? {
      return Failure(GasometerExit(outcome.error));
    }

    if input != [] {
      var operations := libs.disassembleBytes(txInput);
      if operations.None? {
        return Failure(EvmDisassembler);
      }
      outcome := RecordOpcodeCosts(libs, gasometer, operations.value);
      if outcome.Fail? {
        return Failure(GasometerExit(outcome.error));
      }
    }
    r := Success(gasometer.TotalUsedGas());
  }
}
