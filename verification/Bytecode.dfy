/** Opcodes (includes/opcode.h) and finished chunks. */
module Bytecode {
  import opened Values

  type Byte = b: int | 0 <= b < 256

  /** The first length of the arrays of a chunk. */
  const STACK_SIZE: nat := 64

  const OP_CONSTANT: Byte := 0
  const OP_CLOSURE: Byte := 1
  const OP_PRINT: Byte := 2
  const OP_POP: Byte := 14
  const OP_POPN: Byte := 15
  const OP_GET_OBJ: Byte := 30
  const OP_GLOBAL_DEF: Byte := 33
  const OP_GET_GLOBAL: Byte := 34
  const OP_SET_GLOBAL: Byte := 35
  const OP_SET_FUNC_VAR: Byte := 36
  const OP_GET_LOCAL: Byte := 38
  const OP_SET_LOCAL: Byte := 39
  const OP_SET_LOCAL_PARAM: Byte := 40
  const OP_NEG: Byte := 51
  const OP_INC: Byte := 52
  const OP_DEC: Byte := 53
  const OP_ADD: Byte := 54
  const OP_SUB: Byte := 55
  const OP_MUL: Byte := 56
  const OP_MOD: Byte := 57
  const OP_DIV: Byte := 58
  const OP_EQ: Byte := 63
  const OP_NE: Byte := 64
  const OP_LT: Byte := 65
  const OP_LE: Byte := 66
  const OP_GT: Byte := 67
  const OP_GE: Byte := 68
  const OP_JMPL: Byte := 71
  const OP_JMPF: Byte := 72
  const OP_JMP: Byte := 74
  const OP_LOOP: Byte := 75
  const OP_CALL: Byte := 76
  const OP_NOOP: Byte := 80
  const OP_RETURN: Byte := 81

  /** Code bytes, constants, and the table of absolute addresses that OP_JMPL indexes. */
  datatype Chunk = Chunk(code: seq<Byte>, consts: seq<Element>, cases: seq<nat>)

  function OpByte(op: BinOp): Byte {
    match op
    case Add => OP_ADD
    case Sub => OP_SUB
    case Mul => OP_MUL
    case Div => OP_DIV
    case Mod => OP_MOD
    case Eq => OP_EQ
    case Ne => OP_NE
    case Lt => OP_LT
    case Le => OP_LE
    case Gt => OP_GT
    case Ge => OP_GE
  }

  /** The operator an arithmetic opcode performs. */
  function ByteOp(b: Byte): (op: BinOp)
    requires OP_ADD <= b <= OP_DIV || OP_EQ <= b <= OP_GE
    ensures OpByte(op) == b
  {
    if b == OP_ADD then Add else if b == OP_SUB then Sub else if b == OP_MUL then Mul
    else if b == OP_MOD then Mod else if b == OP_DIV then Div else if b == OP_EQ then Eq
    else if b == OP_NE then Ne else if b == OP_LT then Lt else if b == OP_LE then Le
    else if b == OP_GT then Gt else Ge
  }

  lemma OpByteBack(op: BinOp)
    ensures IsBinary(OpByte(op)) && ByteOp(OpByte(op)) == op
  {
  }

  predicate IsBinary(b: Byte) {
    OP_ADD <= b <= OP_DIV || OP_EQ <= b <= OP_GE
  }

  function BumpByte(inc: bool): Byte {
    if inc then OP_INC else OP_DEC
  }

  /** Length of an instruction, operands included. */
  function Length(op: Byte): nat {
    if op == OP_CLOSURE || OP_JMPL <= op <= OP_LOOP then 3
    else if op == OP_CONSTANT || op == OP_POPN || OP_GET_OBJ <= op <= OP_SET_GLOBAL
      || OP_GET_LOCAL <= op <= OP_SET_LOCAL_PARAM || op == OP_CALL then 2
    else 1
  }

  /** The 16-bit operand at `p`, as the compiler writes it and debug.c reads it. */
  function Operand(ch: Chunk, p: nat): nat
    requires p + 1 < |ch.code|
  {
    ch.code[p] as int * 256 + ch.code[p + 1]
  }

  /** The operand as `run` reads it: `UPPER()` shifts left and then masks the low byte. */
  function VmOperand(ch: Chunk, p: nat): nat
    requires p + 1 < |ch.code|
  {
    (ch.code[p] as int * 256) % 256 + ch.code[p + 1] % 256
  }

  /** The two decodings agree exactly on operands below 256. */
  lemma DecodingsAgree(ch: Chunk, p: nat)
    requires p + 1 < |ch.code|
    ensures VmOperand(ch, p) == ch.code[p + 1]
    ensures VmOperand(ch, p) == Operand(ch, p) <==> Operand(ch, p) < 256
  {
    assert (ch.code[p] as int * 256) % 256 == 0;
  }
}
