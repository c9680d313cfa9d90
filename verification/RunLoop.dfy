/** The interpreter's loop as it runs: one stack and one array of frames updated in
    place.  Each dispatch is the machine's Step. */
module RunLoop {
  import opened Options
  import opened Words
  import opened Instructions
  import opened Syntax
  import opened Semantics
  import opened VirtualMachine

  /** How a dispatch ends. */
  datatype Signal = Go | Exits(code: int) | Fails(err: Error)

  function Ending(s: Signal, m: Machine): Res {
    match s
    case Go => Next(m)
    case Exits(code) => Halted(code, m.trace)
    case Fails(err) => Fault(err, m.trace)
  }

  predicate IsStackOp(i: Instr) {
    i.PushI32? || i.PushI64? || i.PushTrue? || i.PushFalse? || i.PushNull? || i.Pop? || i.Dup? || i.Binary? || i.GetLocal? || i.SetLocal?
  }

  predicate IsHeapOp(i: Instr) {
    i.AllocDynamic? || i.SetVtable? || i.IncRef? || i.DecRef? || i.DecRefSlot? || i.GetException? || i.ClearException?
  }

  lemma UnaryDoes(w: World, i: Instr, m: Machine)
    requires IsUnary(i)
    ensures Do(w, i, m) == DoUnary(w, i, m)
  {
    hide DoUnary;
  }

  /** What running on an instruction budget comes to: the dispatch that reaches the
      budget is not executed any more, but the end of the code is still noticed. */
  function RunFor(w: World, code: seq<u8>, budget: nat, m: Machine): Res
    requires budget > 0
  {
    match Run(w, code, budget - 1, m)
    case Next(m1) => if m1.pc >= |code| then DoHalt(m1) else Next(m1)
    case _ => Run(w, code, budget - 1, m)
  }

  class Vm {
    const w: World
    const code: seq<u8>
    const stack: array<u64>
    const callStack: array<Frame>
    var sp: nat
    var callDepth: nat
    var programCounter: nat
    var activeException: u32
    var activeClosureEnv: u32
    var returnToCleanup: map<u32, u32>
    var entryMethodCalled: bool
    var trace: seq<Event>

    ghost predicate Valid()
      reads this
    {
      stack.Length == w.capacity && callStack.Length == MAX_CALL_DEPTH && sp <= stack.Length && callDepth <= callStack.Length
    }

    ghost function State(): Machine
      reads this, stack, callStack
      requires Valid()
    {
      Machine(programCounter, stack[..sp], callStack[..callDepth], activeException, activeClosureEnv, returnToCleanup, entryMethodCalled, trace)
    }

    /** An interpreter in a given state. */
    constructor (w: World, code: seq<u8>, m: Machine)
      requires |m.stack| <= w.capacity && |m.frames| <= MAX_CALL_DEPTH
      ensures Valid() && this.w == w && this.code == code && State() == m && fresh(stack) && fresh(callStack)
    {
      this.w, this.code := w, code;
      stack := new u64[w.capacity](i => if 0 <= i < |m.stack| then m.stack[i] else 0);
      callStack := new Frame[MAX_CALL_DEPTH](i => if 0 <= i < |m.frames| then m.frames[i] else Frame(0, 0, 0, 0));
      sp, callDepth, programCounter := |m.stack|, |m.frames|, m.pc;
      activeException, activeClosureEnv, returnToCleanup := m.exc, m.env, m.cleanups;
      entryMethodCalled, trace := m.entered, m.trace;
      new;
      assert stack[..sp] == m.stack && callStack[..callDepth] == m.frames;
    }

    // -------------------------------------------------------------------- the stack

    method PushValue(v: u64) returns (r: Signal)
      requires Valid()
      modifies this`sp, stack
      ensures Valid() && Ending(r, State()) == Push(w, old(State()), v)
    {
      if sp >= stack.Length { return Fails(StackOverflow); }
      stack[sp] := v;
      sp := sp + 1;
      assert stack[..sp] == old(stack[..sp]) + [v];
      r := Go;
    }

    method PopValue() returns (r: Signal, v: u64)
      requires Valid()
      modifies this`sp
      ensures Valid() && (old(sp) == 0 ==> r == Fails(StackUnderflow))
      ensures old(sp) > 0 ==> r == Go && old(State()).stack != [] && v == Top(old(State())) && State() == Drop(old(State()))
    {
      if sp == 0 { return Fails(StackUnderflow), 0; }
      sp := sp - 1;
      v := stack[sp];
      assert stack[..sp] == old(stack[..sp])[..sp];
      r := Go;
    }

    method Unary(i: Instr) returns (r: Signal)
      requires Valid() && IsUnary(i)
      modifies this`sp, stack
      ensures Valid() && Ending(r, State()) == DoUnary(w, i, old(State()))
      ensures old(sp) == 0 ==> r == Fails(StackUnderflow)
      ensures old(sp) > 0 ==> r == Go && sp == old(sp) && stack[..sp - 1] == old(stack[..sp - 1])
      ensures old(sp) > 0 ==> Maps(w, i, old(stack[sp - 1]), trace, stack[sp - 1])
    {
      hide Mapped, Maps;
      var a;
      r, a := PopValue();
      if r == Go {
        var v := Mapped(w, i, a, trace);
        MappedMaps(w, i, a, trace);
        ghost var rest := stack[..sp];
        r := PushValue(v);
        assert stack[..sp] == rest + [v];
        assert stack[sp - 1] == (rest + [v])[sp - 1] && stack[..sp - 1] == rest;
      }
    }

    method BinaryOp(op: BinOp) returns (r: Signal)
      requires Valid()
      modifies this`sp, stack
      ensures Valid() && Ending(r, State()) == DoBinary(w, op, old(State()))
      ensures old(sp) < 2 ==> r == Fails(StackUnderflow)
      ensures old(sp) >= 2 ==> (r == Fails(DivisionByZero) <==> (op.Div? || op.Mod?) && old(stack[sp - 1]) == 0)
      ensures old(sp) >= 2 && r != Fails(DivisionByZero) ==>
                r == Go && sp == old(sp) - 1 && stack[..sp - 1] == old(stack[..sp - 2])
      ensures old(sp) >= 2 && r != Fails(DivisionByZero) ==>
                Computes(op, old(stack[sp - 2]), old(stack[sp - 1]), stack[sp - 1])
    {
      hide Semantics.Apply, Computes;
      if sp < 2 { return Fails(StackUnderflow); }
      var a, b;
      r, b := PopValue();
      r, a := PopValue();
      if DividesByZero(op, b) { return Fails(DivisionByZero); }
      ApplyComputes(op, a, b);
      var v := Semantics.Apply(op, a, b);
      ghost var rest := stack[..sp];
      r := PushValue(v);
      assert stack[..sp] == rest + [v];
      assert stack[sp - 1] == (rest + [v])[sp - 1] && stack[..sp - 1] == rest;
    }

    // ---------------------------------------------------------------- locals and jumps

    method ReadLocal(slot: u32) returns (r: Signal)
      requires Valid()
      modifies this`sp, stack
      ensures Valid() && Ending(r, State()) == Do(w, GetLocal(slot), old(State()))
    {
      if callDepth == 0 || callStack[callDepth - 1].fp + slot >= sp { return Fails(FrameOutOfBounds); }
      r := PushValue(stack[callStack[callDepth - 1].fp + slot]);
    }

    method WriteLocal(slot: u32) returns (r: Signal)
      requires Valid()
      modifies this`sp, stack
      ensures Valid() && Ending(r, State()) == Do(w, SetLocal(slot), old(State()))
    {
      var v;
      r, v := PopValue();
      if r != Go { return; }
      if callDepth == 0 || callStack[callDepth - 1].fp + slot >= sp { return Fails(FrameOutOfBounds); }
      ghost var before := stack[..sp];
      var at := callStack[callDepth - 1].fp + slot;
      stack[at] := v;
      assert stack[..sp] == before[at := v];
    }

    method BranchOn(target: u32, taken: bool) returns (r: Signal)
      requires Valid()
      modifies this`sp, this`programCounter
      ensures Valid() && Ending(r, State()) == Do(w, if taken then JumpIfTrue(target) else JumpIfFalse(target), old(State()))
    {
      var v;
      r, v := PopValue();
      if r != Go { return; }
      if (v != 0) == taken { programCounter := target; }
    }

    // -------------------------------------------------------------- calls and returns

    method CallTop() returns (r: Signal)
      requires Valid()
      modifies this`sp, this`callDepth, this`activeClosureEnv, this`programCounter, this`entryMethodCalled, callStack
      ensures Valid() && Ending(r, State()) == DoCall(old(State()))
    {
      if sp < 2 { return Fails(StackUnderflow); }
      var count, callable;
      r, count := PopValue();
      r, callable := PopValue();
      var argc := Low32(count);
      var target := Low32(callable);
      if target == 0 { return Fails(NullPointer); }
      if argc > sp { return Fails(FrameOutOfBounds); }
      if callDepth == 1 { entryMethodCalled := true; }
      if callDepth >= callStack.Length { return Fails(CallDepthExceeded); }
      EnterFrame(Frame(programCounter % M32, sp - argc, argc, activeClosureEnv));
      activeClosureEnv := callable / M32;
      programCounter := target;
      r := Go;
    }

    method EnterFrame(f: Frame)
      requires Valid() && callDepth < callStack.Length
      modifies this`callDepth, callStack
      ensures Valid() && callDepth == old(callDepth) + 1 && callStack[..callDepth] == old(callStack[..callDepth]) + [f]
    {
      callStack[callDepth] := f;
      callDepth := callDepth + 1;
    }

    method ReturnTop() returns (r: Signal)
      requires Valid()
      modifies this`sp, this`callDepth, this`activeClosureEnv, this`programCounter, stack
      ensures Valid() && Ending(r, State()) == DoReturn(w, old(State()))
    {
      if callDepth == 0 { return Fails(FrameOutOfBounds); }
      var frame := callStack[callDepth - 1];
      if frame.fp > sp { return Fails(FrameOutOfBounds); }
      var v := if sp > frame.fp then stack[sp - 1] else 0;
      callDepth := callDepth - 1;
      sp := frame.fp;
      assert callStack[..callDepth] == old(callStack[..callDepth])[..callDepth];
      assert stack[..sp] == old(stack[..sp])[..sp];
      if callDepth == 0 { return Exits(ExitCode(v)); }
      programCounter := frame.returnIp;
      activeClosureEnv := frame.env;
      r := PushValue(v);
    }

    method LeaveFrame()
      requires Valid() && callDepth > 0 && callStack[callDepth - 1].fp <= sp
      modifies this`sp, this`callDepth, this`activeClosureEnv
      ensures Valid() && old(State()).frames != [] && TopFrame(old(State())).fp <= |old(State()).stack|
      ensures State() == PopFrame(old(State())) && callDepth == old(callDepth) - 1
    {
      var frame := callStack[callDepth - 1];
      callDepth := callDepth - 1;
      sp := frame.fp;
      activeClosureEnv := frame.env;
      assert callStack[..callDepth] == old(callStack[..callDepth])[..callDepth];
      assert stack[..sp] == old(stack[..sp])[..sp];
    }

    /** An exception that nothing catches is released. */
    method GiveUp() returns (r: Signal)
      requires Valid()
      modifies this`activeException, this`trace
      ensures Valid() && Ending(r, State()) == Abort(old(State()))
    {
      r := Fails(Unhandled(activeException));
      if activeException != 0 {
        trace := trace + [Released(activeException)];
        activeException := 0;
      }
    }

    /** JMP_TO_OUTER_CLEANUP: leave the frame for the caller's cleanup, or search on. */
    method UnwindOut() returns (r: Signal)
      requires Valid()
      modifies this`sp, this`callDepth, this`activeClosureEnv, this`programCounter, this`activeException, this`trace
      ensures Valid() && Ending(r, State()) == Unwind(old(State()))
    {
      if callDepth == 0 {
        r := GiveUp();
        return;
      }
      var frame := callStack[callDepth - 1];
      if frame.fp > sp { return Fails(FrameOutOfBounds); }
      LeaveFrame();
      if callDepth == 0 {
        r := GiveUp();
        return;
      }
      if frame.returnIp in returnToCleanup {
        programCounter := returnToCleanup[frame.returnIp];
        return Go;
      }
      r := SearchOut();
    }

    method SearchOut() returns (r: Signal)
      requires Valid()
      modifies this`sp, this`callDepth, this`activeClosureEnv, this`programCounter, this`activeException, this`trace
      ensures Valid() && Ending(r, State()) == Fallback(old(State()))
    {
      while callDepth > 0
        modifies this`sp, this`callDepth, this`activeClosureEnv, this`programCounter
        invariant Valid() && Fallback(State()) == Fallback(old(State()))
        decreases callDepth
      {
        var caller := callStack[callDepth - 1];
        if caller.returnIp in returnToCleanup {
          programCounter := returnToCleanup[caller.returnIp];
          return Go;
        }
        if caller.fp > sp { return Fails(FrameOutOfBounds); }
        LeaveFrame();
      }
      r := GiveUp();
    }

    /** Extend the frame with zeroed locals. */
    method GrowFrame(n: u32) returns (r: Signal)
      requires Valid()
      modifies this`sp, stack
      ensures Valid() && Ending(r, State()) == Do(w, AllocFrame(n), old(State()))
    {
      if callDepth == 0 { return Fails(FrameOutOfBounds); }
      var argc := callStack[callDepth - 1].argc;
      if n > argc {
        var diff := n - argc;
        if sp + diff > stack.Length { return Fails(StackOverflow); }
        var k := 0;
        while k < diff
          modifies stack
          invariant 0 <= k <= diff && stack[..sp + k] == old(stack[..sp]) + Zeros(k)
        {
          ghost var before := stack[..sp + k];
          stack[sp + k] := 0;
          assert stack[..sp + k + 1] == before + [0];
          assert Zeros(k + 1) == Zeros(k) + [0];
          k := k + 1;
        }
        sp := sp + diff;
      }
      r := Go;
    }

    // ------------------------------------------------------- references and exceptions

    method Allocate(tag: u8) returns (r: Signal)
      requires Valid()
      modifies this`sp, this`trace, stack
      ensures Valid() && Ending(r, State()) == Do(w, AllocDynamic(tag), old(State()))
    {
      var size;
      r, size := PopValue();
      if r != Go { return; }
      if Signed(size) < 0 { return Fails(NegativeSize); }
      var address := w.alloc(trace, Low32(size));
      if address.None? { return Fails(HeapOverflow); }
      trace := trace + [Allocated(Low32(size), tag, address.value)];
      r := PushValue(address.value);
    }

    method ReleaseSlot(slot: u32, mask: u64) returns (r: Signal)
      requires Valid()
      modifies this`trace
      ensures Valid() && Ending(r, State()) == Do(w, DecRefSlot(slot, mask), old(State()))
    {
      hide MaskSelects;
      if MaskSelects(slot, mask) && callDepth > 0 {
        var at := callStack[callDepth - 1].fp + slot;
        if at < sp && stack[at] != 0 { trace := trace + [Released(Low32(stack[at]))]; }
      }
      r := Go;
    }

    method ThrowTop(cleanup: u32) returns (r: Signal)
      requires Valid()
      modifies this`sp, this`callDepth, this`activeClosureEnv, this`programCounter, this`activeException, this`trace
      ensures Valid() && Ending(r, State()) == Do(w, ThrowException(cleanup), old(State()))
    {
      hide Unwind, Low32;
      var v;
      r, v := PopValue();
      if r != Go { return; }
      if v == 0 { return Fails(NullPointer); }
      Raise(Low32(v));
      if cleanup != HOLE {
        programCounter := cleanup;
      } else {
        r := UnwindOut();
      }
    }

    method Raise(exception: u32)
      requires Valid()
      modifies this`activeException, this`trace
      ensures Valid() && State() == Noted(old(State()), Retained(exception)).(exc := exception)
    {
      trace := trace + [Retained(exception)];
      activeException := exception;
    }

    method StampTop(id: u32) returns (r: Signal)
      requires Valid()
      modifies this`trace
      ensures Valid() && Ending(r, State()) == Do(w, SetVtable(id), old(State()))
    {
      if sp == 0 { return Fails(StackUnderflow); }
      trace := trace + [Stamped(Low32(stack[sp - 1]), id)];
      r := Go;
    }

    method RetainTop() returns (r: Signal)
      requires Valid()
      modifies this`sp, this`trace, stack
      ensures Valid() && Ending(r, State()) == Do(w, IncRef, old(State()))
    {
      var v;
      r, v := PopValue();
      if r != Go { return; }
      trace := trace + [Retained(Low32(v))];
      r := PushValue(Low32(v));
    }

    method ReleaseTop() returns (r: Signal)
      requires Valid()
      modifies this`sp, this`trace
      ensures Valid() && Ending(r, State()) == Do(w, DecRef, old(State()))
    {
      var v;
      r, v := PopValue();
      if r != Go { return; }
      trace := trace + [Released(Low32(v))];
    }

    method ForgetException() returns (r: Signal)
      requires Valid()
      modifies this`trace, this`activeException
      ensures Valid() && Ending(r, State()) == Do(w, ClearException, old(State()))
    {
      if activeException != 0 {
        trace := trace + [Released(activeException)];
        activeException := 0;
      }
      r := Go;
    }

    // ---------------------------------------------------------------------- dispatch

    method Execute(i: Instr) returns (r: Signal)
      requires Valid()
      modifies this, stack, callStack
      ensures Valid() && Ending(r, State()) == Do(w, i, old(State()))
    {
      hide Do, IsUnary, IsStackOp, IsHeapOp;
      if IsUnary(i) {
        UnaryDoes(w, i, State());
        r := Unary(i);
      } else if IsStackOp(i) {
        r := ExecuteStackOp(i);
      } else if IsHeapOp(i) {
        r := ExecuteHeapOp(i);
      } else {
        r := ExecuteControl(i);
      }
    }

    method ExecuteStackOp(i: Instr) returns (r: Signal)
      requires Valid() && IsStackOp(i)
      modifies this`sp, stack
      ensures Valid() && Ending(r, State()) == Do(w, i, old(State()))
    {
      hide DoBinary, Push;
      match i
      case PushI32(v) => r := PushValue(v);
      case PushI64(v) => r := PushValue(v);
      case PushTrue => r := PushValue(1);
      case PushFalse => r := PushValue(0);
      case PushNull => r := PushValue(0);
      case Pop => var v; r, v := PopValue();
      case Dup => if sp == 0 { r := Fails(StackUnderflow); } else { r := PushValue(stack[sp - 1]); }
      case Binary(op) => r := BinaryOp(op);
      case GetLocal(slot) => r := ReadLocal(slot);
      case SetLocal(slot) => r := WriteLocal(slot);
    }

    method ExecuteHeapOp(i: Instr) returns (r: Signal)
      requires Valid() && IsHeapOp(i)
      modifies this`sp, this`trace, this`activeException, stack
      ensures Valid() && Ending(r, State()) == Do(w, i, old(State()))
    {
      hide Push, MaskSelects, Signed;
      match i
      case AllocDynamic(tag) => r := Allocate(tag);
      case SetVtable(id) => r := StampTop(id);
      case IncRef => r := RetainTop();
      case DecRef => r := ReleaseTop();
      case DecRefSlot(slot, mask) => r := ReleaseSlot(slot, mask);
      case GetException => r := PushValue(activeException);
      case ClearException => r := ForgetException();
    }

    method ExecuteControl(i: Instr) returns (r: Signal)
      requires Valid() && !IsUnary(i) && !IsStackOp(i) && !IsHeapOp(i)
      modifies this, stack, callStack
      ensures Valid() && Ending(r, State()) == Do(w, i, old(State()))
    {
      hide DoCall, DoReturn, Unwind, Push;
      r := Go;
      match i
      case Jump(t) => programCounter := t;
      case JumpIfFalse(t) => r := BranchOn(t, false);
      case JumpIfTrue(t) => r := BranchOn(t, true);
      case RegisterReturnCleanup(ret, cleanup) => returnToCleanup := returnToCleanup[ret := cleanup];
      case Call => r := CallTop();
      case Return => r := ReturnTop();
      case Halt => r := HaltCode();
      case AllocFrame(n) => r := GrowFrame(n);
      case JmpToOuterCleanup => r := UnwindOut();
      case ThrowException(cleanup) => r := ThrowTop(cleanup);
    }

    method HaltCode() returns (r: Signal)
      requires Valid()
      ensures Ending(r, State()) == DoHalt(State())
    {
      r := Exits(if entryMethodCalled && sp > 0 then ExitCode(stack[sp - 1]) else 0);
    }

    method Dispatch() returns (r: Signal)
      requires Valid()
      modifies this, stack, callStack
      ensures Valid() && Ending(r, State()) == Step(w, code, old(State()))
    {
      hide Do, Fetch, DoHalt;
      match Fetch(code, programCounter)
      case EndOfCode => r := HaltCode();
      case Malformed => r := Fails(MalformedCode);
      case Unmodelled(op) => r := Fails(UnmodelledOpcode(op));
      case Fetched(i, next) =>
        programCounter := next;
        r := Execute(i);
    }

    /** Dispatch until the run ends or the instruction budget is used up. */
    method RunBytecode(budget: nat) returns (r: Signal)
      requires Valid() && budget > 0
      modifies this, stack, callStack
      ensures Valid() && Ending(r, State()) == RunFor(w, code, budget, old(State()))
    {
      hide Step, DoHalt, Run;
      var executed := 1;
      RunNothing(w, code, State());
      while executed < budget
        invariant 1 <= executed <= budget && Valid() && Run(w, code, budget - executed, State()) == Run(w, code, budget - 1, old(State()))
      {
        ghost var m := State();
        r := Dispatch();
        IterateOnce(w, code, budget - executed, m);
        if r != Go { return; }
        executed := executed + 1;
      }
      RunNothing(w, code, State());
      if programCounter >= |code| {
        r := HaltCode();
      } else {
        r := Go;
      }
    }
  }

  lemma RunNothing(w: World, code: seq<u8>, m: Machine)
    ensures Run(w, code, 0, m) == Next(m)
  {
  }

  lemma IterateOnce(w: World, code: seq<u8>, n: nat, m: Machine)
    requires n > 0
    ensures Run(w, code, n, m) == match Step(w, code, m)
                                  case Next(m1) => Run(w, code, n - 1, m1)
                                  case _ => Step(w, code, m)
  {
    hide Step;
  }
}
