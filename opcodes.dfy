/**
 * The instruction set as evm_disassembler names it: one constructor per
 * opcode, each tied to the byte that encodes it in EVM bytecode (the
 * numbering of the Ethereum Yellow Paper, with PUSH0 from EIP-3855, TLOAD and
 * TSTORE from EIP-1153, MCOPY from EIP-5656, BLOBHASH from EIP-4844 and
 * BLOBBASEFEE from EIP-7516).
 */
module Disassembler {
  import opened Amounts

  datatype Opcode =
    | STOP | ADD | MUL | SUB | DIV | SDIV | MOD | SMOD
    | ADDMOD | MULMOD | EXP | SIGNEXTEND | LT | GT | SLT | SGT
    | EQ | ISZERO | AND | OR | XOR | NOT | BYTE | SHL
    | SHR | SAR | SHA3 | ADDRESS | BALANCE | ORIGIN | CALLER | CALLVALUE
    | CALLDATALOAD | CALLDATASIZE | CALLDATACOPY | CODESIZE | CODECOPY | GASPRICE | EXTCODESIZE | EXTCODECOPY
    | RETURNDATASIZE | RETURNDATACOPY | EXTCODEHASH | BLOCKHASH | COINBASE | TIMESTAMP | NUMBER | DIFFICULTY
    | GASLIMIT | CHAINID | SELFBALANCE | BASEFEE | POP | MLOAD | MSTORE | MSTORE8
    | SLOAD | SSTORE | JUMP | JUMPI | PC | MSIZE | GAS | JUMPDEST
    | MCOPY | TLOAD | TSTORE | PUSH0 | PUSH1 | PUSH2 | PUSH3 | PUSH4
    | PUSH5 | PUSH6 | PUSH7 | PUSH8 | PUSH9 | PUSH10 | PUSH11 | PUSH12
    | PUSH13 | PUSH14 | PUSH15 | PUSH16 | PUSH17 | PUSH18 | PUSH19 | PUSH20
    | PUSH21 | PUSH22 | PUSH23 | PUSH24 | PUSH25 | PUSH26 | PUSH27 | PUSH28
    | PUSH29 | PUSH30 | PUSH31 | PUSH32 | DUP1 | DUP2 | DUP3 | DUP4
    | DUP5 | DUP6 | DUP7 | DUP8 | DUP9 | DUP10 | DUP11 | DUP12
    | DUP13 | DUP14 | DUP15 | DUP16 | SWAP1 | SWAP2 | SWAP3 | SWAP4
    | SWAP5 | SWAP6 | SWAP7 | SWAP8 | SWAP9 | SWAP10 | SWAP11 | SWAP12
    | SWAP13 | SWAP14 | SWAP15 | SWAP16 | LOG0 | LOG1 | LOG2 | LOG3
    | LOG4 | CREATE | CALL | CALLCODE | RETURN | DELEGATECALL | CREATE2 | STATICCALL
    | REVERT | INVALID | SELFDESTRUCT | BLOBBASEFEE | BLOBHASH
  {
    /** The byte that encodes this opcode. */
    function Code(): (b: Byte)
    {
      match this
      case STOP => 0x00
      case ADD => 0x01
      case MUL => 0x02
      case SUB => 0x03
      case DIV => 0x04
      case SDIV => 0x05
      case MOD => 0x06
      case SMOD => 0x07
      case ADDMOD => 0x08
      case MULMOD => 0x09
      case EXP => 0x0a
      case SIGNEXTEND => 0x0b
      case LT => 0x10
      case GT => 0x11
      case SLT => 0x12
      case SGT => 0x13
      case EQ => 0x14
      case ISZERO => 0x15
      case AND => 0x16
      case OR => 0x17
      case XOR => 0x18
      case NOT => 0x19
      case BYTE => 0x1a
      case SHL => 0x1b
      case SHR => 0x1c
      case SAR => 0x1d
      case SHA3 => 0x20
      case ADDRESS => 0x30
      case BALANCE => 0x31
      case ORIGIN => 0x32
      case CALLER => 0x33
      case CALLVALUE => 0x34
      case CALLDATALOAD => 0x35
      case CALLDATASIZE => 0x36
      case CALLDATACOPY => 0x37
      case CODESIZE => 0x38
      case CODECOPY => 0x39
      case GASPRICE => 0x3a
      case EXTCODESIZE => 0x3b
      case EXTCODECOPY => 0x3c
      case RETURNDATASIZE => 0x3d
      case RETURNDATACOPY => 0x3e
      case EXTCODEHASH => 0x3f
      case BLOCKHASH => 0x40
      case COINBASE => 0x41
      case TIMESTAMP => 0x42
      case NUMBER => 0x43
      case DIFFICULTY => 0x44
      case GASLIMIT => 0x45
      case CHAINID => 0x46
      case SELFBALANCE => 0x47
      case BASEFEE => 0x48
      case POP => 0x50
      case MLOAD => 0x51
      case MSTORE => 0x52
      case MSTORE8 => 0x53
      case SLOAD => 0x54
      case SSTORE => 0x55
      case JUMP => 0x56
      case JUMPI => 0x57
      case PC => 0x58
      case MSIZE => 0x59
      case GAS => 0x5a
      case JUMPDEST => 0x5b
      case MCOPY => 0x5e
      case TLOAD => 0x5c
      case TSTORE => 0x5d
      case PUSH0 => 0x5f
      case PUSH1 => 0x60
      case PUSH2 => 0x61
      case PUSH3 => 0x62
      case PUSH4 => 0x63
      case PUSH5 => 0x64
      case PUSH6 => 0x65
      case PUSH7 => 0x66
      case PUSH8 => 0x67
      case PUSH9 => 0x68
      case PUSH10 => 0x69
      case PUSH11 => 0x6a
      case PUSH12 => 0x6b
      case PUSH13 => 0x6c
      case PUSH14 => 0x6d
      case PUSH15 => 0x6e
      case PUSH16 => 0x6f
      case PUSH17 => 0x70
      case PUSH18 => 0x71
      case PUSH19 => 0x72
      case PUSH20 => 0x73
      case PUSH21 => 0x74
      case PUSH22 => 0x75
      case PUSH23 => 0x76
      case PUSH24 => 0x77
      case PUSH25 => 0x78
      case PUSH26 => 0x79
      case PUSH27 => 0x7a
      case PUSH28 => 0x7b
      case PUSH29 => 0x7c
      case PUSH30 => 0x7d
      case PUSH31 => 0x7e
      case PUSH32 => 0x7f
      case DUP1 => 0x80
      case DUP2 => 0x81
      case DUP3 => 0x82
      case DUP4 => 0x83
      case DUP5 => 0x84
      case DUP6 => 0x85
      case DUP7 => 0x86
      case DUP8 => 0x87
      case DUP9 => 0x88
      case DUP10 => 0x89
      case DUP11 => 0x8a
      case DUP12 => 0x8b
      case DUP13 => 0x8c
      case DUP14 => 0x8d
      case DUP15 => 0x8e
      case DUP16 => 0x8f
      case SWAP1 => 0x90
      case SWAP2 => 0x91
      case SWAP3 => 0x92
      case SWAP4 => 0x93
      case SWAP5 => 0x94
      case SWAP6 => 0x95
      case SWAP7 => 0x96
      case SWAP8 => 0x97
      case SWAP9 => 0x98
      case SWAP10 => 0x99
      case SWAP11 => 0x9a
      case SWAP12 => 0x9b
      case SWAP13 => 0x9c
      case SWAP14 => 0x9d
      case SWAP15 => 0x9e
      case SWAP16 => 0x9f
      case LOG0 => 0xa0
      case LOG1 => 0xa1
      case LOG2 => 0xa2
      case LOG3 => 0xa3
      case LOG4 => 0xa4
      case CREATE => 0xf0
      case CALL => 0xf1
      case CALLCODE => 0xf2
      case RETURN => 0xf3
      case DELEGATECALL => 0xf4
      case CREATE2 => 0xf5
      case STATICCALL => 0xfa
      case REVERT => 0xfd
      case INVALID => 0xfe
      case SELFDESTRUCT => 0xff
      case BLOBBASEFEE => 0x4a
      case BLOBHASH => 0x49
    }
  }
}

/**
 * evm_runtime's opcodes: a wrapper around the instruction byte, with one
 * named constant per instruction the runtime knows.
 */
module EvmRuntime {
  import opened Amounts

  datatype Opcode = Opcode(code: Byte)

  const STOP: Opcode := Opcode(0x00)
  const ADD: Opcode := Opcode(0x01)
  const MUL: Opcode := Opcode(0x02)
  const SUB: Opcode := Opcode(0x03)
  const DIV: Opcode := Opcode(0x04)
  const SDIV: Opcode := Opcode(0x05)
  const MOD: Opcode := Opcode(0x06)
  const SMOD: Opcode := Opcode(0x07)
  const ADDMOD: Opcode := Opcode(0x08)
  const MULMOD: Opcode := Opcode(0x09)
  const EXP: Opcode := Opcode(0x0a)
  const SIGNEXTEND: Opcode := Opcode(0x0b)
  const LT: Opcode := Opcode(0x10)
  const GT: Opcode := Opcode(0x11)
  const SLT: Opcode := Opcode(0x12)
  const SGT: Opcode := Opcode(0x13)
  const EQ: Opcode := Opcode(0x14)
  const ISZERO: Opcode := Opcode(0x15)
  const AND: Opcode := Opcode(0x16)
  const OR: Opcode := Opcode(0x17)
  const XOR: Opcode := Opcode(0x18)
  const NOT: Opcode := Opcode(0x19)
  const BYTE: Opcode := Opcode(0x1a)
  const SHL: Opcode := Opcode(0x1b)
  const SHR: Opcode := Opcode(0x1c)
  const SAR: Opcode := Opcode(0x1d)
  const SHA3: Opcode := Opcode(0x20)
  const ADDRESS: Opcode := Opcode(0x30)
  const BALANCE: Opcode := Opcode(0x31)
  const ORIGIN: Opcode := Opcode(0x32)
  const CALLER: Opcode := Opcode(0x33)
  const CALLVALUE: Opcode := Opcode(0x34)
  const CALLDATALOAD: Opcode := Opcode(0x35)
  const CALLDATASIZE: Opcode := Opcode(0x36)
  const CALLDATACOPY: Opcode := Opcode(0x37)
  const CODESIZE: Opcode := Opcode(0x38)
  const CODECOPY: Opcode := Opcode(0x39)
  const GASPRICE: Opcode := Opcode(0x3a)
  const EXTCODESIZE: Opcode := Opcode(0x3b)
  const EXTCODECOPY: Opcode := Opcode(0x3c)
  const RETURNDATASIZE: Opcode := Opcode(0x3d)
  const RETURNDATACOPY: Opcode := Opcode(0x3e)
  const EXTCODEHASH: Opcode := Opcode(0x3f)
  const BLOCKHASH: Opcode := Opcode(0x40)
  const COINBASE: Opcode := Opcode(0x41)
  const TIMESTAMP: Opcode := Opcode(0x42)
  const NUMBER: Opcode := Opcode(0x43)
  const DIFFICULTY: Opcode := Opcode(0x44)
  const GASLIMIT: Opcode := Opcode(0x45)
  const CHAINID: Opcode := Opcode(0x46)
  const SELFBALANCE: Opcode := Opcode(0x47)
  const BASEFEE: Opcode := Opcode(0x48)
  const POP: Opcode := Opcode(0x50)
  const MLOAD: Opcode := Opcode(0x51)
  const MSTORE: Opcode := Opcode(0x52)
  const MSTORE8: Opcode := Opcode(0x53)
  const SLOAD: Opcode := Opcode(0x54)
  const SSTORE: Opcode := Opcode(0x55)
  const JUMP: Opcode := Opcode(0x56)
  const JUMPI: Opcode := Opcode(0x57)
  const PC: Opcode := Opcode(0x58)
  const MSIZE: Opcode := Opcode(0x59)
  const GAS: Opcode := Opcode(0x5a)
  const JUMPDEST: Opcode := Opcode(0x5b)
  const TLOAD: Opcode := Opcode(0x5c)
  const TSTORE: Opcode := Opcode(0x5d)
  const MCOPY: Opcode := Opcode(0x5e)
  const PUSH0: Opcode := Opcode(0x5f)
  const PUSH1: Opcode := Opcode(0x60)
  const PUSH2: Opcode := Opcode(0x61)
  const PUSH3: Opcode := Opcode(0x62)
  const PUSH4: Opcode := Opcode(0x63)
  const PUSH5: Opcode := Opcode(0x64)
  const PUSH6: Opcode := Opcode(0x65)
  const PUSH7: Opcode := Opcode(0x66)
  const PUSH8: Opcode := Opcode(0x67)
  const PUSH9: Opcode := Opcode(0x68)
  const PUSH10: Opcode := Opcode(0x69)
  const PUSH11: Opcode := Opcode(0x6a)
  const PUSH12: Opcode := Opcode(0x6b)
  const PUSH13: Opcode := Opcode(0x6c)
  const PUSH14: Opcode := Opcode(0x6d)
  const PUSH15: Opcode := Opcode(0x6e)
  const PUSH16: Opcode := Opcode(0x6f)
  const PUSH17: Opcode := Opcode(0x70)
  const PUSH18: Opcode := Opcode(0x71)
  const PUSH19: Opcode := Opcode(0x72)
  const PUSH20: Opcode := Opcode(0x73)
  const PUSH21: Opcode := Opcode(0x74)
  const PUSH22: Opcode := Opcode(0x75)
  const PUSH23: Opcode := Opcode(0x76)
  const PUSH24: Opcode := Opcode(0x77)
  const PUSH25: Opcode := Opcode(0x78)
  const PUSH26: Opcode := Opcode(0x79)
  const PUSH27: Opcode := Opcode(0x7a)
  const PUSH28: Opcode := Opcode(0x7b)
  const PUSH29: Opcode := Opcode(0x7c)
  const PUSH30: Opcode := Opcode(0x7d)
  const PUSH31: Opcode := Opcode(0x7e)
  const PUSH32: Opcode := Opcode(0x7f)
  const DUP1: Opcode := Opcode(0x80)
  const DUP2: Opcode := Opcode(0x81)
  const DUP3: Opcode := Opcode(0x82)
  const DUP4: Opcode := Opcode(0x83)
  const DUP5: Opcode := Opcode(0x84)
  const DUP6: Opcode := Opcode(0x85)
  const DUP7: Opcode := Opcode(0x86)
  const DUP8: Opcode := Opcode(0x87)
  const DUP9: Opcode := Opcode(0x88)
  const DUP10: Opcode := Opcode(0x89)
  const DUP11: Opcode := Opcode(0x8a)
  const DUP12: Opcode := Opcode(0x8b)
  const DUP13: Opcode := Opcode(0x8c)
  const DUP14: Opcode := Opcode(0x8d)
  const DUP15: Opcode := Opcode(0x8e)
  const DUP16: Opcode := Opcode(0x8f)
  const SWAP1: Opcode := Opcode(0x90)
  const SWAP2: Opcode := Opcode(0x91)
  const SWAP3: Opcode := Opcode(0x92)
  const SWAP4: Opcode := Opcode(0x93)
  const SWAP5: Opcode := Opcode(0x94)
  const SWAP6: Opcode := Opcode(0x95)
  const SWAP7: Opcode := Opcode(0x96)
  const SWAP8: Opcode := Opcode(0x97)
  const SWAP9: Opcode := Opcode(0x98)
  const SWAP10: Opcode := Opcode(0x99)
  const SWAP11: Opcode := Opcode(0x9a)
  const SWAP12: Opcode := Opcode(0x9b)
  const SWAP13: Opcode := Opcode(0x9c)
  const SWAP14: Opcode := Opcode(0x9d)
  const SWAP15: Opcode := Opcode(0x9e)
  const SWAP16: Opcode := Opcode(0x9f)
  const LOG0: Opcode := Opcode(0xa0)
  const LOG1: Opcode := Opcode(0xa1)
  const LOG2: Opcode := Opcode(0xa2)
  const LOG3: Opcode := Opcode(0xa3)
  const LOG4: Opcode := Opcode(0xa4)
  const CREATE: Opcode := Opcode(0xf0)
  const CALL: Opcode := Opcode(0xf1)
  const CALLCODE: Opcode := Opcode(0xf2)
  const RETURN: Opcode := Opcode(0xf3)
  const DELEGATECALL: Opcode := Opcode(0xf4)
  const CREATE2: Opcode := Opcode(0xf5)
  const STATICCALL: Opcode := Opcode(0xfa)
  const REVERT: Opcode := Opcode(0xfd)
  const INVALID: Opcode := Opcode(0xfe)
  const SUICIDE: Opcode := Opcode(0xff)
}
