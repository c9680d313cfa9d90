/** The bytecode machine: one step per dispatch, over the flat code bytes.
    Heap operations are recorded in the trace; the allocator and the type test
    answer through the World. */
module VirtualMachine {
  import opened Options
  import opened Words
  import opened Instructions
  import opened Syntax
  import opened Semantics

  const MAX_CALL_DEPTH := 65536

  datatype Frame = Frame(returnIp: u32, fp: nat, argc: u32, env: u32)

  datatype Machine = Machine(
    pc: nat,
    stack: seq<u64>,
    frames: seq<Frame>,
    exc: u32,
    env: u32,                     // active closure environment
    cleanups: map<u32, u32>,      // return address -> cleanup segment of the calling block
    entered: bool,                // the entry method has been called
    trace: seq<Event>)

  /** How a run goes on or ends; an end tells what has happened to the heap. */
  datatype Res = Next(m: Machine) | Halted(code: int, trace: seq<Event>) | Fault(err: Error, trace: seq<Event>)

  // ------------------------------------------------------------------- helpers

  function Push(w: World, m: Machine, v: u64): Res {
    if |m.stack| >= w.capacity then Fault(StackOverflow, m.trace) else Next(m.(stack := m.stack + [v]))
  }

  function Top(m: Machine): u64
    requires m.stack != []
  {
    m.stack[|m.stack| - 1]
  }

  function Drop(m: Machine): Machine
    requires m.stack != []
  {
    m.(stack := m.stack[..|m.stack| - 1])
  }

  function Noted(m: Machine, e: Event): Machine {
    m.(trace := m.trace + [e])
  }

  function TopFrame(m: Machine): Frame
    requires m.frames != []
  {
    m.frames[|m.frames| - 1]
  }

  function Pow2(k: nat): (p: nat)
    ensures p > 0
  {
    if k == 0 then 1 else 2 * Pow2(k - 1)
  }

  /** The mask operand the assembler pairs with a slot. */
  function SlotMask(slot: u32): u64 {
    if slot < 64 then Pow2(slot) % M64 else 1
  }

  predicate MaskSelects(slot: u32, mask: u64) {
    if slot < 64 then mask / Pow2(slot) % 2 == 1 else mask % 2 == 1
  }

  /** The process's exit code: the result's low 32 bits, signed. */
  function ExitCode(v: u64): (code: int)
    ensures -2147483648 <= code < 2147483648 && (v - code) % 4294967296 == 0
  {
    Halves(v);
    if Low32(v) < 0x8000_0000 then Low32(v) else Low32(v) - M32
  }

  /** An exception that nothing catches is released before the run is given up. */
  function Abort(m: Machine): Res {
    Fault(Unhandled(m.exc), if m.exc == 0 then m.trace else m.trace + [Released(m.exc)])
  }

  // ------------------------------------------------------------- control opcodes

  function DoCall(m: Machine): Res {
    if |m.stack| < 2 then Fault(StackUnderflow, m.trace) else
    var argc, callable := Low32(Top(m)), Top(Drop(m));
    var m1 := Drop(Drop(m));
    var target := Low32(callable);
    if target == 0 then Fault(NullPointer, m.trace) else
    if argc > |m1.stack| then Fault(FrameOutOfBounds, m.trace) else
    if |m.frames| >= MAX_CALL_DEPTH then Fault(CallDepthExceeded, m.trace) else
    Next(m1.(frames := m1.frames + [Frame(m.pc % M32, |m1.stack| - argc, argc, m1.env)],
             env := callable / M32, pc := target, entered := m1.entered || |m1.frames| == 1))
  }

  function DoReturn(w: World, m: Machine): Res {
    if m.frames == [] then Fault(FrameOutOfBounds, m.trace) else
    var f := TopFrame(m);
    if f.fp > |m.stack| then Fault(FrameOutOfBounds, m.trace) else
    var v := if |m.stack| > f.fp then Top(m) else 0;
    if |m.frames| == 1 then Halted(ExitCode(v), m.trace) else
    Push(w, m.(frames := m.frames[..|m.frames| - 1], stack := m.stack[..f.fp], pc := f.returnIp, env := f.env), v)
  }

  function PopFrame(m: Machine): Machine
    requires m.frames != [] && TopFrame(m).fp <= |m.stack|
  {
    m.(frames := m.frames[..|m.frames| - 1], stack := m.stack[..TopFrame(m).fp], env := TopFrame(m).env)
  }

  /** JMP_TO_OUTER_CLEANUP: leave the frame and continue in the caller's cleanup. */
  function Unwind(m: Machine): Res {
    if m.frames == [] then Abort(m) else
    if TopFrame(m).fp > |m.stack| then Fault(FrameOutOfBounds, m.trace) else
    var ret := TopFrame(m).returnIp;
    var m1 := PopFrame(m);
    if m1.frames == [] then Abort(m) else
    if ret in m.cleanups then Next(m1.(pc := m.cleanups[ret])) else Fallback(m1)
  }

  /** The search when a call site registered no cleanup. */
  function Fallback(m: Machine): Res
    decreases |m.frames|
  {
    if m.frames == [] then Abort(m) else
    if TopFrame(m).returnIp in m.cleanups then Next(m.(pc := m.cleanups[TopFrame(m).returnIp])) else
    if TopFrame(m).fp > |m.stack| then Fault(FrameOutOfBounds, m.trace) else
    Fallback(PopFrame(m))
  }

  function DoHalt(m: Machine): Res {
    Halted(if m.entered && m.stack != [] then ExitCode(Top(m)) else 0, m.trace)
  }

  predicate IsUnary(i: Instr) {
    i.LogicalNot? || i.NegateI64? || i.Increment? || i.Decrement? || i.Convert? || i.InstanceOf?
  }

  /** The result of a one-operand instruction. */
  function Mapped(w: World, i: Instr, a: u64, trace: seq<Event>): u64
    requires IsUnary(i)
  {
    match i
    case LogicalNot => Truth(a == 0)
    case NegateI64 => Wrap(-(a as int))
    case Increment => Wrap(a as int + 1)
    case Decrement => Wrap(a as int - 1)
    case Convert(conv) => Narrow(conv, a)
    case InstanceOf(id) => Truth(IsInstance(w, trace, Low32(a), id))
  }

  /** What the one-operand instructions make of their operand: 1 or 0 for a test that
      holds or does not, the negative, successor or predecessor modulo 2^64, or the value
      of the target type that is a multiple of the type's size away. */
  ghost predicate Maps(w: World, i: Instr, a: u64, trace: seq<Event>, v: u64)
    requires IsUnary(i)
  {
    match i
    case LogicalNot => (v == 1 && a == 0) || (v == 0 && a != 0)
    case NegateI64 => (v + a) % M64 == 0
    case Increment => (v - (a + 1)) % M64 == 0
    case Decrement => (v - (a - 1)) % M64 == 0
    case Convert(conv) => InRange(conv, v) && exists m: nat :: m > 0 && Distance(conv, m) && (v - a) % m == 0
    case InstanceOf(id) =>
      var found := HasClass(w, trace, a % 4294967296, id);
      (v == 1 && found) || (v == 0 && !found)
  }

  lemma MappedMaps(w: World, i: Instr, a: u64, trace: seq<Event>)
    requires IsUnary(i)
    ensures Maps(w, i, a, trace, Mapped(w, i, a, trace))
  {
    hide IsInstance, HasClass;
    match i
    case LogicalNot =>
    case NegateI64 => WrapShift(-(a as int));
    case Increment => WrapShift(a + 1);
    case Decrement => WrapShift(a - 1);
    case Convert(conv) =>
      var m := Modulus(conv);
      assert Distance(conv, m);
      NarrowIntoRange(conv, a, m);
    case InstanceOf(id) => InstanceHasClass(w, trace, Low32(a), id);
  }

  function DoUnary(w: World, i: Instr, m: Machine): Res
    requires IsUnary(i)
  {
    if m.stack == [] then Fault(StackUnderflow, m.trace) else Push(w, Drop(m), Mapped(w, i, Top(m), m.trace))
  }

  function DoBinary(w: World, op: BinOp, m: Machine): Res {
    if |m.stack| < 2 then Fault(StackUnderflow, m.trace) else
    var b, a := Top(m), Top(Drop(m));
    if DividesByZero(op, b) then Fault(DivisionByZero, m.trace) else
    Push(w, Drop(Drop(m)), Apply(op, a, b))
  }

  /** One instruction, the program counter already past it. */
  function Do(w: World, i: Instr, m: Machine): Res {
    match i
    case PushI32(v) => Push(w, m, v)
    case PushI64(v) => Push(w, m, v)
    case PushTrue => Push(w, m, 1)
    case PushFalse => Push(w, m, 0)
    case PushNull => Push(w, m, 0)
    case Pop => if m.stack == [] then Fault(StackUnderflow, m.trace) else Next(Drop(m))
    case Dup => if m.stack == [] then Fault(StackUnderflow, m.trace) else Push(w, m, Top(m))
    case Binary(op) => DoBinary(w, op, m)
    case LogicalNot => DoUnary(w, i, m)
    case NegateI64 => DoUnary(w, i, m)
    case Increment => DoUnary(w, i, m)
    case Decrement => DoUnary(w, i, m)
    case Convert(_) => DoUnary(w, i, m)
    case InstanceOf(_) => DoUnary(w, i, m)
    case GetLocal(slot) =>
      if m.frames == [] || TopFrame(m).fp + slot >= |m.stack| then Fault(FrameOutOfBounds, m.trace) else
      Push(w, m, m.stack[TopFrame(m).fp + slot])
    case SetLocal(slot) =>
      if m.stack == [] then Fault(StackUnderflow, m.trace) else
      var m1 := Drop(m);
      if m.frames == [] || TopFrame(m).fp + slot >= |m1.stack| then Fault(FrameOutOfBounds, m.trace) else
      Next(m1.(stack := m1.stack[TopFrame(m).fp + slot := Top(m)]))
    case Jump(t) => Next(m.(pc := t))
    case JumpIfFalse(t) =>
      if m.stack == [] then Fault(StackUnderflow, m.trace) else
      Next(if Top(m) == 0 then Drop(m).(pc := t) else Drop(m))
    case JumpIfTrue(t) =>
      if m.stack == [] then Fault(StackUnderflow, m.trace) else
      Next(if Top(m) != 0 then Drop(m).(pc := t) else Drop(m))
    case AllocDynamic(tag) =>
      if m.stack == [] then Fault(StackUnderflow, m.trace) else
      if Signed(Top(m)) < 0 then Fault(NegativeSize, m.trace) else
      var size := Low32(Top(m));
      (match w.alloc(m.trace, size)
       case None => Fault(HeapOverflow, m.trace)
       case Some(addr) => Push(w, Noted(Drop(m), Allocated(size, tag, addr)), addr))
    case SetVtable(id) =>
      if m.stack == [] then Fault(StackUnderflow, m.trace) else Next(Noted(m, Stamped(Low32(Top(m)), id)))
    case IncRef =>
      if m.stack == [] then Fault(StackUnderflow, m.trace) else
      Push(w, Noted(Drop(m), Retained(Low32(Top(m)))), Low32(Top(m)))
    case DecRef =>
      if m.stack == [] then Fault(StackUnderflow, m.trace) else Next(Noted(Drop(m), Released(Low32(Top(m)))))
    case DecRefSlot(slot, mask) =>
      if MaskSelects(slot, mask) && m.frames != [] && TopFrame(m).fp + slot < |m.stack| &&
         m.stack[TopFrame(m).fp + slot] != 0
      then Next(Noted(m, Released(Low32(m.stack[TopFrame(m).fp + slot])))) else Next(m)
    case Call => DoCall(m)
    case Return => DoReturn(w, m)
    case Halt => DoHalt(m)
    case AllocFrame(n) =>
      if m.frames == [] then Fault(FrameOutOfBounds, m.trace) else
      var argc := TopFrame(m).argc;
      if n <= argc then Next(m) else
      if |m.stack| + (n - argc) > w.capacity then Fault(StackOverflow, m.trace) else
      Next(m.(stack := m.stack + Zeros(n - argc)))
    case RegisterReturnCleanup(ret, cleanup) => Next(m.(cleanups := m.cleanups[ret := cleanup]))
    case JmpToOuterCleanup => Unwind(m)
    case ThrowException(cleanup) =>
      if m.stack == [] then Fault(StackUnderflow, m.trace) else
      if Top(m) == 0 then Fault(NullPointer, m.trace) else
      var exc := Low32(Top(m));
      var m1 := Noted(Drop(m), Retained(exc)).(exc := exc);
      if cleanup != HOLE then Next(m1.(pc := cleanup)) else Unwind(m1)
    case GetException => Push(w, m, m.exc)
    case ClearException => Next(if m.exc == 0 then m else Noted(m, Released(m.exc)).(exc := 0))
  }

  function Step(w: World, code: seq<u8>, m: Machine): Res {
    match Fetch(code, m.pc)
    case EndOfCode => DoHalt(m)
    case Malformed => Fault(MalformedCode, m.trace)
    case Unmodelled(op) => Fault(UnmodelledOpcode(op), m.trace)
    case Fetched(i, next) => Do(w, i, m.(pc := next))
  }

  /** n dispatches of a machine, or fewer when it stops. */
  function Iterate(step: Machine -> Res, n: nat, m: Machine): Res {
    if n == 0 then Next(m) else
    match step(m)
    case Next(m1) => Iterate(step, n - 1, m1)
    case _ => step(m)
  }

  function Stepper(w: World, code: seq<u8>): Machine -> Res {
    m => Step(w, code, m)
  }

  function Run(w: World, code: seq<u8>, n: nat, m: Machine): Res {
    Iterate(Stepper(w, code), n, m)
  }

  /** The two bounded resources the source semantics does not meter. */
  predicate OutOfRoom(r: Res) {
    r.Fault? && (r.err == StackOverflow || r.err == CallDepthExceeded)
  }

  /** The machine gets from m to r, unless the stack or the call depth runs out
      first.  (The quantifier only keeps proofs from running the machine.) */
  ghost predicate Goes(w: World, code: seq<u8>, m: Machine, r: Res) {
    forall z: nat {:trigger RunIt(z)} :: RunIt(z) ==> Leads(Stepper(w, code), m, r)
  }

  ghost predicate RunIt(z: nat) {
    true
  }

  lemma GoesIsLeads(w: World, code: seq<u8>, m: Machine, r: Res)
    ensures Goes(w, code, m, r) <==> Leads(Stepper(w, code), m, r)
  {
    assert RunIt(0);
  }

  ghost predicate Leads(step: Machine -> Res, m: Machine, r: Res) {
    exists n: nat :: Arrives(step, n, m, r)
  }

  ghost predicate Arrives(step: Machine -> Res, n: nat, m: Machine, r: Res) {
    var x := Iterate(step, n, m);
    x == r || OutOfRoom(x)
  }

  lemma {:induction false} IterateAppend(step: Machine -> Res, a: nat, b: nat, m: Machine)
    ensures Iterate(step, a + b, m) ==
            match Iterate(step, a, m)
            case Next(m1) => Iterate(step, b, m1)
            case _ => Iterate(step, a, m)
  {
    if a > 0 && step(m).Next? {
      IterateAppend(step, a - 1, b, step(m).m);
    }
  }

  lemma LeadsOn(step: Machine -> Res, m: Machine, m1: Machine, r: Res)
    requires Leads(step, m, Next(m1)) && Leads(step, m1, r)
    ensures Leads(step, m, r)
  {
    var a: nat :| Arrives(step, a, m, Next(m1));
    var b: nat :| Arrives(step, b, m1, r);
    IterateAppend(step, a, b, m);
    if Iterate(step, a, m) == Next(m1) {
      assert Arrives(step, a + b, m, r);
    } else {
      assert Arrives(step, a, m, r);
    }
  }

  lemma LeadsStep(step: Machine -> Res, m: Machine, r: Res)
    requires step(m) == r || OutOfRoom(step(m))
    ensures Leads(step, m, r)
  {
    assert step(m).Next? ==> Iterate(step, 0, step(m).m) == step(m);
    assert Iterate(step, 1, m) == step(m);
    assert Arrives(step, 1, m, r);
  }

  lemma GoesNowhere(w: World, code: seq<u8>, m: Machine)
    ensures Goes(w, code, m, Next(m))
  {
    assert Arrives(Stepper(w, code), 0, m, Next(m));
    GoesIsLeads(w, code, m, Next(m));
  }

  lemma GoesStep(w: World, code: seq<u8>, m: Machine, r: Res)
    requires Step(w, code, m) == r || OutOfRoom(Step(w, code, m))
    ensures Goes(w, code, m, r)
  {
    LeadsStep(Stepper(w, code), m, r);
    GoesIsLeads(w, code, m, r);
  }

  lemma GoesOn(w: World, code: seq<u8>, m: Machine, m1: Machine, r: Res)
    requires Goes(w, code, m, Next(m1)) && Goes(w, code, m1, r)
    ensures Goes(w, code, m, r)
  {
    GoesIsLeads(w, code, m, Next(m1));
    GoesIsLeads(w, code, m1, r);
    LeadsOn(Stepper(w, code), m, m1, r);
    GoesIsLeads(w, code, m, r);
  }
}
