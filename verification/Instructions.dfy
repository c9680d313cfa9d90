/** The opcodes of the modelled fragment, how the assembler writes them and how
    the VM reads them back. */
module Instructions {
  import opened Words

  datatype BinOp = Add | Sub | Mul | Div | Mod | Eq | Neq | Greater | GreaterEq | Less | LessEq

  datatype Instr =
    | PushI32(v: u32)
    | PushI64(w: u64)
    | PushTrue
    | PushFalse
    | PushNull
    | Pop
    | Dup
    | Binary(op: BinOp)
    | LogicalNot
    | NegateI64
    | Increment
    | Decrement
    | GetLocal(slot: u32)
    | SetLocal(slot: u32)
    | Jump(target: u32)
    | JumpIfFalse(target: u32)
    | JumpIfTrue(target: u32)
    | AllocDynamic(tag: u8)
    | SetVtable(classId: u32)
    | IncRef
    | DecRef
    | DecRefSlot(slot: u32, mask: u64)
    | Convert(conv: Conv)
    | Call
    | Return
    | Halt
    | AllocFrame(size: u32)
    | RegisterReturnCleanup(returnIp: u32, cleanup: u32)
    | JmpToOuterCleanup
    | ThrowException(cleanup: u32)
    | GetException
    | ClearException
    | InstanceOf(classId: u32)

  const OPCODE_COUNT: u8 := 108

  function BinOpcode(op: BinOp): u8 {
    match op
    case Add => 17
    case Sub => 19
    case Mul => 21
    case Div => 23
    case Mod => 25
    case Eq => 26
    case Neq => 28
    case Greater => 30
    case GreaterEq => 32
    case Less => 34
    case LessEq => 36
  }

  function ConvOpcode(c: Conv): u8 {
    match c
    case I8 => 61
    case I16 => 62
    case I32 => 63
    case Keep => 64
    case U8 => 65
    case U16 => 66
    case U32 => 67
  }

  function Opcode(i: Instr): u8 {
    match i
    case PushI32(_) => 2
    case PushI64(_) => 3
    case PushTrue => 11
    case PushFalse => 12
    case PushNull => 13
    case Pop => 14
    case Dup => 15
    case Binary(op) => BinOpcode(op)
    case LogicalNot => 38
    case Increment => 40
    case Decrement => 42
    case GetLocal(_) => 44
    case SetLocal(_) => 45
    case Jump(_) => 48
    case JumpIfFalse(_) => 49
    case JumpIfTrue(_) => 50
    case AllocDynamic(_) => 52
    case IncRef => 59
    case DecRef => 60
    case Convert(c) => ConvOpcode(c)
    case Call => 71
    case SetVtable(_) => 76
    case InstanceOf(_) => 78
    case Return => 79
    case Halt => 80
    case RegisterReturnCleanup(_, _) => 82
    case JmpToOuterCleanup => 83
    case ThrowException(_) => 84
    case GetException => 85
    case ClearException => 86
    case NegateI64 => 89
    case AllocFrame(_) => 91
    case DecRefSlot(_, _) => 98
  }

  function Operands(i: Instr): seq<u8> {
    match i
    case PushI32(v) => BigEndian32(v)
    case PushI64(w) => BigEndian64(w)
    case GetLocal(slot) => BigEndian32(slot)
    case SetLocal(slot) => BigEndian32(slot)
    case Jump(t) => BigEndian32(t)
    case JumpIfFalse(t) => BigEndian32(t)
    case JumpIfTrue(t) => BigEndian32(t)
    case AllocDynamic(tag) => [tag]
    case SetVtable(id) => BigEndian32(id)
    case DecRefSlot(slot, mask) => BigEndian32(slot) + BigEndian64(mask)
    case AllocFrame(n) => BigEndian32(n)
    case RegisterReturnCleanup(r, c) => BigEndian32(r) + BigEndian32(c)
    case ThrowException(c) => BigEndian32(c)
    case InstanceOf(id) => BigEndian32(id)
    case _ => []
  }

  function OperandWidth(i: Instr): nat {
    match i
    case PushI64(_) => 8
    case AllocDynamic(_) => 1
    case DecRefSlot(_, _) => 12
    case RegisterReturnCleanup(_, _) => 8
    case PushI32(_) => 4
    case GetLocal(_) => 4
    case SetLocal(_) => 4
    case Jump(_) => 4
    case JumpIfFalse(_) => 4
    case JumpIfTrue(_) => 4
    case SetVtable(_) => 4
    case AllocFrame(_) => 4
    case ThrowException(_) => 4
    case InstanceOf(_) => 4
    case _ => 0
  }

  function Width(i: Instr): nat {
    1 + OperandWidth(i)
  }

  /** The bytes the assembler appends for one instruction. */
  function Encode(i: Instr): (b: seq<u8>)
    ensures |b| == Width(i)
  {
    [Opcode(i)] + Operands(i)
  }

  /** code holds the bytes b at address p. */
  predicate Placed(code: seq<u8>, p: nat, b: seq<u8>) {
    p + |b| <= |code| && code[p..p + |b|] == b
  }

  // ------------------------------------------------------------------- decoder

  datatype Fetched =
    | Fetched(instr: Instr, next: nat)
    | EndOfCode          // past the end, or an opcode outside the dispatch table: the VM halts
    | Malformed          // an operand runs past the end of the code
    | Unmodelled(opcode: u8)

  function Take32(code: seq<u8>, pc: nat, make: u32 -> Instr): Fetched {
    if pc + 4 > |code| then Malformed else Fetched(make(Read32(code, pc)), pc + 4)
  }

  /** One dispatch of the VM: read the opcode, then its operands. */
  function Fetch(code: seq<u8>, pc: nat): Fetched {
    if pc >= |code| || code[pc] >= OPCODE_COUNT then EndOfCode else
    var p := pc + 1;
    match code[pc]
    case 2 => Take32(code, p, (v: u32) => PushI32(v))
    case 3 => if p + 8 > |code| then Malformed else Fetched(PushI64(Read64(code, p)), p + 8)
    case 11 => Fetched(PushTrue, p)
    case 12 => Fetched(PushFalse, p)
    case 13 => Fetched(PushNull, p)
    case 14 => Fetched(Pop, p)
    case 15 => Fetched(Dup, p)
    case 17 => Fetched(Binary(Add), p)
    case 19 => Fetched(Binary(Sub), p)
    case 21 => Fetched(Binary(Mul), p)
    case 23 => Fetched(Binary(Div), p)
    case 25 => Fetched(Binary(Mod), p)
    case 26 => Fetched(Binary(Eq), p)
    case 28 => Fetched(Binary(Neq), p)
    case 30 => Fetched(Binary(Greater), p)
    case 32 => Fetched(Binary(GreaterEq), p)
    case 34 => Fetched(Binary(Less), p)
    case 36 => Fetched(Binary(LessEq), p)
    case 38 => Fetched(LogicalNot, p)
    case 40 => Fetched(Increment, p)
    case 42 => Fetched(Decrement, p)
    case 44 => Take32(code, p, (v: u32) => GetLocal(v))
    case 45 => Take32(code, p, (v: u32) => SetLocal(v))
    case 48 => Take32(code, p, (v: u32) => Jump(v))
    case 49 => Take32(code, p, (v: u32) => JumpIfFalse(v))
    case 50 => Take32(code, p, (v: u32) => JumpIfTrue(v))
    case 52 => if p + 1 > |code| then Malformed else Fetched(AllocDynamic(code[p]), p + 1)
    case 59 => Fetched(IncRef, p)
    case 60 => Fetched(DecRef, p)
    case 61 => Fetched(Convert(I8), p)
    case 62 => Fetched(Convert(I16), p)
    case 63 => Fetched(Convert(I32), p)
    case 64 => Fetched(Convert(Keep), p)
    case 65 => Fetched(Convert(U8), p)
    case 66 => Fetched(Convert(U16), p)
    case 67 => Fetched(Convert(U32), p)
    case 71 => Fetched(Call, p)
    case 76 => Take32(code, p, (v: u32) => SetVtable(v))
    case 78 => Take32(code, p, (v: u32) => InstanceOf(v))
    case 79 => Fetched(Return, p)
    case 80 => Fetched(Halt, p)
    case 82 => if p + 8 > |code| then Malformed
               else Fetched(RegisterReturnCleanup(Read32(code, p), Read32(code, p + 4)), p + 8)
    case 83 => Fetched(JmpToOuterCleanup, p)
    case 84 => Take32(code, p, (v: u32) => ThrowException(v))
    case 85 => Fetched(GetException, p)
    case 86 => Fetched(ClearException, p)
    case 89 => Fetched(NegateI64, p)
    case 91 => Take32(code, p, (v: u32) => AllocFrame(v))
    case 98 => if p + 12 > |code| then Malformed
               else Fetched(DecRefSlot(Read32(code, p), Read64(code, p + 4)), p + 12)
    case op => Unmodelled(op)
  }

  lemma PlacedSplit(code: seq<u8>, p: nat, a: seq<u8>, b: seq<u8>)
    ensures Placed(code, p, a + b) <==> Placed(code, p, a) && Placed(code, p + |a|, b)
  {
    if p + |a| + |b| <= |code| {
      var whole := code[p..p + |a| + |b|];
      assert whole[..|a|] == code[p..p + |a|] && whole[|a|..] == code[p + |a|..p + |a| + |b|];
      assert (a + b)[..|a|] == a && (a + b)[|a|..] == b;
      assert whole == whole[..|a|] + whole[|a|..];
    }
  }

  /** The VM decodes exactly what the assembler encoded. */
  lemma FetchBack(code: seq<u8>, p: nat, i: Instr)
    requires Placed(code, p, Encode(i))
    ensures Fetch(code, p) == Fetched(i, p + Width(i))
  {
    PlacedSplit(code, p, [Opcode(i)], Operands(i));
    assert code[p] == code[p..p + 1][0] == Opcode(i);
    OperandsBack(code, p + 1, i);
  }

  lemma OperandsBack(code: seq<u8>, p: nat, i: Instr)
    requires Placed(code, p, Operands(i))
    ensures |Operands(i)| == OperandWidth(i)
    ensures i.PushI64? ==> Read64(code, p) == i.w
    ensures i.AllocDynamic? ==> code[p] == i.tag
    ensures i.DecRefSlot? ==> Read32(code, p) == i.slot && Read64(code, p + 4) == i.mask
    ensures i.RegisterReturnCleanup? ==> Read32(code, p) == i.returnIp && Read32(code, p + 4) == i.cleanup
    ensures i.PushI32? ==> Read32(code, p) == i.v
    ensures i.GetLocal? || i.SetLocal? ==> Read32(code, p) == i.slot
    ensures i.Jump? || i.JumpIfFalse? || i.JumpIfTrue? ==> Read32(code, p) == i.target
    ensures i.SetVtable? || i.InstanceOf? ==> Read32(code, p) == i.classId
    ensures i.AllocFrame? ==> Read32(code, p) == i.size
    ensures i.ThrowException? ==> Read32(code, p) == i.cleanup
  {
    hide Read32, Read64, BigEndian32, BigEndian64;
    match i
    case PushI64(w) => Read64Back(code, p, w);
    case DecRefSlot(slot, mask) =>
      PlacedSplit(code, p, BigEndian32(slot), BigEndian64(mask));
      Read32Back(code, p, slot);
      Read64Back(code, p + 4, mask);
    case RegisterReturnCleanup(r, c) =>
      PlacedSplit(code, p, BigEndian32(r), BigEndian32(c));
      Read32Back(code, p, r);
      Read32Back(code, p + 4, c);
    case AllocDynamic(tag) => assert code[p] == code[p..p + 1][0];
    case PushI32(v) => Read32Back(code, p, v);
    case GetLocal(v) => Read32Back(code, p, v);
    case SetLocal(v) => Read32Back(code, p, v);
    case Jump(v) => Read32Back(code, p, v);
    case JumpIfFalse(v) => Read32Back(code, p, v);
    case JumpIfTrue(v) => Read32Back(code, p, v);
    case SetVtable(v) => Read32Back(code, p, v);
    case InstanceOf(v) => Read32Back(code, p, v);
    case AllocFrame(v) => Read32Back(code, p, v);
    case ThrowException(v) => Read32Back(code, p, v);
    case _ =>
  }
}
