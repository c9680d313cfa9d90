/** Big-step meaning of the source fragment, indexed by fuel.

    A run is described by its final locals, the exception it carries and the
    sequence of heap operations it performs (allocations, class stamps, count
    changes).  `left` lists the operands of abandoned expressions: when a call
    inside an expression raises, the values already computed for that
    expression stay on the VM's operand stack until the frame returns. */
module Semantics {
  import opened Options
  import opened Words
  import opened Instructions
  import opened Syntax

  datatype Event =
    | Allocated(size: u32, tag: u8, addr: u32)
    | Stamped(addr: u32, classId: u32)
    | Retained(addr: u32)
    | Released(addr: u32)

  const OBJECT_TAG: u8 := 1

  /** What the run takes from its surroundings: the allocator's answers (None is
      a heap overflow), the runtime type test, and the operand stack's size. */
  datatype World = World(
    alloc: (seq<Event>, u32) -> Option<u32>,
    matches: (u32, u32) -> bool,
    capacity: nat)

  datatype Error =
    | DivisionByZero
    | NullPointer
    | HeapOverflow
    | NegativeSize
    | Unhandled(exception: u32)
    | StackOverflow
    | CallDepthExceeded
    | StackUnderflow
    | FrameOutOfBounds
    | MalformedCode
    | UnmodelledOpcode(opcode: u8)

  datatype State = State(locals: seq<u64>, exc: u32, trace: seq<Event>)

  /** Escaping: a return that leaves the function at once, with no work on the way. */
  datatype Outcome = Normal | Breaking | Continuing | Returning(v: u64) | Escaping(v: u64) | Throwing

  datatype Value =
    | Val(v: u64, st: State)
    | Raised(st: State, left: seq<u64>)
    | Fail(err: Error, trace: seq<Event>)
    | NoValue      // out of fuel, or outside the modelled fragment

  datatype Values =
    | Vals(vs: seq<u64>, st: State)
    | ArgRaised(st: State, left: seq<u64>)
    | ArgFail(err: Error, trace: seq<Event>)
    | NoValues

  datatype Result =
    | Done(o: Outcome, st: State, left: seq<u64>)
    | Stop(err: Error, trace: seq<Event>)
    | NoResult     // out of fuel, or outside the modelled fragment

  // ------------------------------------------------------------ primitive steps

  function Truth(b: bool): u64 {
    if b then 1 else 0
  }

  predicate DividesByZero(op: BinOp, b: u64) {
    (op.Div? || op.Mod?) && b == 0
  }

  function Apply(op: BinOp, a: u64, b: u64): u64
    requires !DividesByZero(op, b)
  {
    match op
    case Add => Wrap(a as int + b as int)
    case Sub => Wrap(a as int - b as int)
    case Mul => Wrap(a as int * b as int)
    case Div => Div64(a, b)
    case Mod => Mod64(a, b)
    case Eq => Truth(a == b)
    case Neq => Truth(a != b)
    case Greater => Truth(Signed(a) > Signed(b))
    case GreaterEq => Truth(Signed(a) >= Signed(b))
    case Less => Truth(Signed(a) < Signed(b))
    case LessEq => Truth(Signed(a) <= Signed(b))
  }

  /** What the operators compute, in the numbers that the operands stand for: v is the
      sum, difference or product modulo 2^64, the quotient that C++ truncates, its
      remainder, or 1 or 0 for a comparison that holds or does not. */
  ghost predicate Computes(op: BinOp, a: u64, b: u64, v: u64) {
    match op
    case Add => (v - (a + b)) % M64 == 0
    case Sub => (v - (a - b)) % M64 == 0
    case Mul => (v - a * b) % M64 == 0
    case Div => exists q: int, r: int :: Truncates(Signed(a), Signed(b), q, r) && (v - q) % M64 == 0
    case Mod => exists q: int :: Truncates(Signed(a), Signed(b), q, Signed(v))
    case Eq => (v == 1 && a == b) || (v == 0 && a != b)
    case Neq => (v == 1 && a != b) || (v == 0 && a == b)
    case Greater => (v == 1 && Signed(a) > Signed(b)) || (v == 0 && Signed(a) <= Signed(b))
    case GreaterEq => (v == 1 && Signed(a) >= Signed(b)) || (v == 0 && Signed(a) < Signed(b))
    case Less => (v == 1 && Signed(a) < Signed(b)) || (v == 0 && Signed(a) >= Signed(b))
    case LessEq => (v == 1 && Signed(a) <= Signed(b)) || (v == 0 && Signed(a) > Signed(b))
  }

  lemma ApplyComputes(op: BinOp, a: u64, b: u64)
    requires !((op.Div? || op.Mod?) && b == 0)
    ensures !DividesByZero(op, b) && Computes(op, a, b, Apply(op, a, b))
  {
    match op
    case Add => WrapShift(a + b);
    case Sub => WrapShift(a - b);
    case Mul => WrapShift(a * b);
    case Div => Truncated(a, b);
    case Mod => Truncated(a, b);
    case _ =>
  }

  /** One word is meant. */
  lemma ComputesOnce(op: BinOp, a: u64, b: u64, v: u64, v': u64)
    requires Computes(op, a, b, v) && Computes(op, a, b, v')
    ensures v == v'
  {
    hide Truncates;
    match op
    case Add => OneWord(v, v', a + b);
    case Sub => OneWord(v, v', a - b);
    case Mul => OneWord(v, v', a * b);
    case Div =>
      var q: int, r: int :| Truncates(Signed(a), Signed(b), q, r) && (v - q) % M64 == 0;
      var q': int, r': int :| Truncates(Signed(a), Signed(b), q', r') && (v' - q') % M64 == 0;
      TruncatesOnce(Signed(a), Signed(b), q, r, q', r');
      OneWord(v, v', q);
    case Mod =>
      var q: int :| Truncates(Signed(a), Signed(b), q, Signed(v));
      var q': int :| Truncates(Signed(a), Signed(b), q', Signed(v'));
      TruncatesOnce(Signed(a), Signed(b), q, Signed(v), q', Signed(v'));
    case _ =>
  }

  function Log(st: State, e: Event): State {
    st.(trace := st.trace + [e])
  }

  function SetSlot(st: State, slot: u32, v: u64): State
    requires slot < |st.locals|
  {
    st.(locals := st.locals[slot := v])
  }

  /** The class id stored in a live object, if the block at addr is an object. */
  function ClassOf(trace: seq<Event>, addr: u32): Option<u32> {
    if trace == [] then None else
    var last := trace[|trace| - 1];
    match last
    case Stamped(a, id) => if a == addr then Some(id) else ClassOf(trace[..|trace| - 1], addr)
    case Allocated(_, tag, a) =>
      if a == addr then (if tag == OBJECT_TAG then Some(0) else None)
      else ClassOf(trace[..|trace| - 1], addr)
    case _ => ClassOf(trace[..|trace| - 1], addr)
  }

  predicate IsInstance(w: World, trace: seq<Event>, addr: u32, target: u32) {
    addr != 0 && ClassOf(trace, addr).Some? && w.matches(ClassOf(trace, addr).value, target)
  }

  /** e gives the block at addr its class, or takes it away. */
  predicate Classes(e: Event, addr: u32) {
    (e.Stamped? || e.Allocated?) && e.addr == addr
  }

  /** The last event about the block's class was this stamp, or the allocation of an
      object, which starts with class 0. */
  ghost predicate StampedLast(trace: seq<Event>, addr: u32, id: u32) {
    exists i :: 0 <= i < |trace| && Classes(trace[i], addr) &&
                (trace[i] == Stamped(addr, id) || (trace[i].Allocated? && trace[i].tag == 1 && id == 0)) &&
                forall j :: i < j < |trace| ==> !Classes(trace[j], addr)
  }

  lemma {:induction false} ClassIsLastStamp(trace: seq<Event>, addr: u32, id: u32)
    ensures ClassOf(trace, addr) == Some(id) <==> StampedLast(trace, addr, id)
  {
    if trace != [] {
      var n := |trace| - 1;
      var front := trace[..n];
      ClassIsLastStamp(front, addr, id);
      if !Classes(trace[n], addr) {
        if StampedLast(trace, addr, id) {
          var i :| 0 <= i < |trace| && Classes(trace[i], addr) &&
                   (trace[i] == Stamped(addr, id) || (trace[i].Allocated? && trace[i].tag == 1 && id == 0)) &&
                   forall j :: i < j < |trace| ==> !Classes(trace[j], addr);
          assert front[i] == trace[i];
        }
        if StampedLast(front, addr, id) {
          var i :| 0 <= i < |front| && Classes(front[i], addr) &&
                   (front[i] == Stamped(addr, id) || (front[i].Allocated? && front[i].tag == 1 && id == 0)) &&
                   forall j :: i < j < |front| ==> !Classes(front[j], addr);
          assert trace[i] == front[i];
        }
      } else {
        assert Classes(trace[n], addr);
      }
    }
  }

  /** The runtime type test: a non-null object whose class passes as the target class. */
  ghost predicate HasClass(w: World, trace: seq<Event>, addr: u32, target: u32) {
    addr != 0 && exists id: u32 :: StampedLast(trace, addr, id) && w.matches(id, target)
  }

  lemma InstanceHasClass(w: World, trace: seq<Event>, addr: u32, target: u32)
    ensures IsInstance(w, trace, addr, target) <==> HasClass(w, trace, addr, target)
  {
    var c := ClassOf(trace, addr);
    if c.Some? { ClassIsLastStamp(trace, addr, c.value); }
    forall id: u32 | StampedLast(trace, addr, id) ensures c == Some(id) {
      ClassIsLastStamp(trace, addr, id);
    }
  }

  /** Drop the reference held by a slot, if it holds one; the slot keeps its value. */
  function ReleaseSlot(st: State, slot: u32): State
    requires slot < |st.locals|
  {
    if st.locals[slot] == 0 then st else Log(st, Released(Low32(st.locals[slot])))
  }

  predicate InFrame(slots: seq<u32>, n: nat) {
    forall i :: 0 <= i < |slots| ==> slots[i] < n
  }

  function ReleaseAll(st: State, slots: seq<u32>): (r: State)
    requires InFrame(slots, |st.locals|)
    ensures r.locals == st.locals && r.exc == st.exc
    decreases |slots|
  {
    if slots == [] then st else
    ReleaseAll(ReleaseSlot(st, slots[0]), slots[1..])
  }

  /** The value after INC_REF, when the assembler emits one. */
  function RetainIf(retain: bool, v: u64): u64 {
    if retain then Low32(v) else v
  }

  function LogRetain(retain: bool, v: u64, st: State): State {
    if retain then Log(st, Retained(Low32(v))) else st
  }

  function Zeros(n: nat): (z: seq<u64>)
    ensures |z| == n
  {
    seq(n, _ => 0)
  }

  function Under(below: seq<u64>, r: Value): Value {
    if r.Raised? then r.(left := below + r.left) else r
  }

  function ArgsUnder(below: seq<u64>, r: Values): Values {
    if r.ArgRaised? then r.(left := below + r.left) else r
  }

  function After(left: seq<u64>, r: Result): Result {
    if r.Done? then r.(left := left + r.left) else r
  }

  predicate SameFrame(a: State, b: State) {
    |a.locals| == |b.locals|
  }

  // -------------------------------------------------------------- expressions

  function Eval(w: World, prog: Program, e: Expr, st: State, fuel: nat): (r: Value)
    ensures r.Val? ==> SameFrame(r.st, st)
    ensures r.Raised? ==> SameFrame(r.st, st)
    decreases fuel, e, 1
  {
    match e
    case IntLit(v) => Val(v, st)
    case BoolLit(b) => Val(Truth(b), st)
    case Null => Val(0, st)
    case Local(slot) => if slot < |st.locals| then Val(st.locals[slot], st) else NoValue
    case Arith(_, _, _) => EvalArith(w, prog, e, st, fuel)
    case And(_, _) => EvalShortCircuit(w, prog, e, st, fuel)
    case Or(_, _) => EvalShortCircuit(w, prog, e, st, fuel)
    case Not(x) =>
      var r := Eval(w, prog, x, st, fuel);
      if r.Val? then r.(v := Truth(r.v == 0)) else r
    case Negate(conv, x) =>
      var r := Eval(w, prog, x, st, fuel);
      if r.Val? then r.(v := Narrow(conv, Wrap(-(r.v as int)))) else r
    case Ternary(_, _, _, _) => EvalTernary(w, prog, e, st, fuel)
    case Assign(slot, conv, x) =>
      var r := Eval(w, prog, x, st, fuel);
      if !r.Val? then r else
      if slot >= |st.locals| then NoValue else
      Val(r.v, SetSlot(r.st, slot, Narrow(conv, r.v)))
    case AssignRef(slot, x) => EvalAssignRef(w, prog, e, st, fuel)
    case AssignOp(_, _, _, _) => EvalAssignOp(w, prog, e, st, fuel)
    case IncDec(slot, up, prefix) => EvalIncDec(slot, up, prefix, st)
    case Invoke(_, _) => EvalInvoke(w, prog, e, st, fuel)
    case New(_, _, _, _) => EvalNew(w, prog, e, st, fuel)
  }

  function EvalArith(w: World, prog: Program, e: Expr, st: State, fuel: nat): (r: Value)
    requires e.Arith?
    ensures r.Val? ==> SameFrame(r.st, st)
    ensures r.Raised? ==> SameFrame(r.st, st)
    decreases fuel, e, 0
  {
    var x := Eval(w, prog, e.left, st, fuel);
    if !x.Val? then x else
    var y := Under([x.v], Eval(w, prog, e.right, x.st, fuel));
    if !y.Val? then y else
    if DividesByZero(e.op, y.v) then Fail(DivisionByZero, y.st.trace) else Val(Apply(e.op, x.v, y.v), y.st)
  }

  function EvalShortCircuit(w: World, prog: Program, e: Expr, st: State, fuel: nat): (r: Value)
    requires e.And? || e.Or?
    ensures r.Val? ==> SameFrame(r.st, st)
    ensures r.Raised? ==> SameFrame(r.st, st)
    decreases fuel, e, 0
  {
    var x := Eval(w, prog, e.left, st, fuel);
    if !x.Val? || (x.v == 0) == e.And? then x else Eval(w, prog, e.right, x.st, fuel)
  }

  function EvalTernary(w: World, prog: Program, e: Expr, st: State, fuel: nat): (r: Value)
    requires e.Ternary?
    ensures r.Val? ==> SameFrame(r.st, st)
    ensures r.Raised? ==> SameFrame(r.st, st)
    decreases fuel, e, 0
  {
    var x := Eval(w, prog, e.cond, st, fuel);
    if !x.Val? then x else
    if x.v != 0 then Kept(e.isRef && RetainsFirst(e.yes, e.no), Eval(w, prog, e.yes, x.st, fuel))
    else Kept(e.isRef && RetainsFirst(e.no, e.yes), Eval(w, prog, e.no, x.st, fuel))
  }

  /** A value after the INC_REF that the assembler may emit for it. */
  function Kept(retain: bool, r: Value): Value {
    if r.Val? then Val(RetainIf(retain, r.v), LogRetain(retain, r.v, r.st)) else r
  }

  function EvalAssignRef(w: World, prog: Program, e: Expr, st: State, fuel: nat): (r: Value)
    requires e.AssignRef?
    ensures r.Val? ==> SameFrame(r.st, st)
    ensures r.Raised? ==> SameFrame(r.st, st)
    decreases fuel, e, 0
  {
    var r := Eval(w, prog, e.rhs, st, fuel);
    if !r.Val? then r else
    if e.slot >= |st.locals| then NoValue else
    var st1 := LogRetain(true, r.v, LogRetain(!ProducesRetained(e.rhs), r.v, r.st));
    Val(Low32(r.v), SetSlot(ReleaseSlot(st1, e.slot), e.slot, Low32(r.v)))
  }

  function EvalAssignOp(w: World, prog: Program, e: Expr, st: State, fuel: nat): (r: Value)
    requires e.AssignOp?
    ensures r.Val? ==> SameFrame(r.st, st)
    ensures r.Raised? ==> SameFrame(r.st, st)
    decreases fuel, e, 0
  {
    if e.slot >= |st.locals| then NoValue else
    var before := st.locals[e.slot];
    var r := Under([before], Eval(w, prog, e.rhs, st, fuel));
    if !r.Val? then r else
    if DividesByZero(e.op, r.v) then Fail(DivisionByZero, r.st.trace) else
    var v := Apply(e.op, before, r.v);
    Val(v, SetSlot(r.st, e.slot, Narrow(e.conv, v)))
  }

  function EvalIncDec(slot: u32, up: bool, prefix: bool, st: State): Value {
    if slot >= |st.locals| then NoValue else
    var before := st.locals[slot];
    var next := Wrap(if up then before as int + 1 else before as int - 1);
    Val(if prefix then next else before, SetSlot(st, slot, next))
  }

  function EvalInvoke(w: World, prog: Program, e: Expr, st: State, fuel: nat): (r: Value)
    requires e.Invoke?
    ensures r.Val? ==> SameFrame(r.st, st)
    ensures r.Raised? ==> SameFrame(r.st, st)
    decreases fuel, e, 0
  {
    match EvalArgs(w, prog, e.args, st, fuel)
    case Vals(vs, st1) => if fuel == 0 then NoValue else Call(w, prog, e.fn, vs, st1, fuel - 1)
    case ArgRaised(st1, left) => Raised(st1, left)
    case ArgFail(err, trace) => Fail(err, trace)
    case NoValues => NoValue
  }

  /** Allocation, class stamp, and the reference the constructor receives. */
  function Created(st: State, size: u32, obj: u32, classId: u32): State {
    Log(Log(Log(st, Allocated(size, OBJECT_TAG, obj)), Stamped(obj, classId)), Retained(obj))
  }

  function EvalNew(w: World, prog: Program, e: Expr, st: State, fuel: nat): (r: Value)
    requires e.New?
    ensures r.Val? ==> SameFrame(r.st, st)
    ensures r.Raised? ==> SameFrame(r.st, st)
    decreases fuel, e, 0
  {
    var got := w.alloc(st.trace, e.size);
    if got.None? then Fail(HeapOverflow, st.trace) else
    var obj := got.value;
    match ArgsUnder([obj, obj], EvalArgs(w, prog, e.args, Created(st, e.size, obj, e.classId), fuel))
    case Vals(vs, st2) =>
      if fuel == 0 then NoValue else
      var r := Under([obj], Call(w, prog, e.ctor, [obj] + vs, st2, fuel - 1));
      if r.Val? then r.(v := obj) else r
    case ArgRaised(st2, left) => Raised(st2, left)
    case ArgFail(err, trace) => Fail(err, trace)
    case NoValues => NoValue
  }

  function EvalArgs(w: World, prog: Program, args: Args, st: State, fuel: nat): (r: Values)
    ensures r.Vals? ==> SameFrame(r.st, st)
    ensures r.ArgRaised? ==> SameFrame(r.st, st)
    decreases fuel, args, 0
  {
    match args
    case NoArgs => Vals([], st)
    case Arg(e, isRef, rest) =>
      match Eval(w, prog, e, st, fuel)
      case Val(v, st1) =>
        var retain := isRef && !ProducesRetained(e);
        var v1, st2 := RetainIf(retain, v), LogRetain(retain, v, st1);
        var r := ArgsUnder([v1], EvalArgs(w, prog, rest, st2, fuel));
        if r.Vals? then r.(vs := [v1] + r.vs) else r
      case Raised(st1, left) => ArgRaised(st1, left)
      case Fail(err, trace) => ArgFail(err, trace)
      case NoValue => NoValues
  }

  /** The frame a call starts with: the arguments, then zeros. */
  function Entered(f: Function, vs: seq<u64>, st: State): State {
    State(vs + (if |vs| < f.frameSize then Zeros(f.frameSize - |vs|) else []), st.exc, st.trace)
  }

  /** Run a function in a fresh frame; the caller's locals are untouched. */
  function Call(w: World, prog: Program, fn: nat, vs: seq<u64>, st: State, fuel: nat): (r: Value)
    ensures r.Val? ==> r.st.locals == st.locals
    ensures r.Raised? ==> r.st.locals == st.locals && r.left == []
    decreases fuel
  {
    if fn >= |prog| || |vs| != prog[fn].params then NoValue else
    var f := prog[fn];
    match ExecBody(w, prog, f, Entered(f, vs, st), fuel)
    case Done(o, st1, _) =>
      if o.Escaping? then Val(o.v, st1.(locals := st.locals)) else
      if !InFrame(f.refs, |st1.locals|) then NoValue else
      var st2 := ReleaseAll(st1, f.refs).(locals := st.locals);
      (match o
       case Normal => Val(0, st2)
       case Returning(v) => Val(v, st2)
       case Throwing => Raised(st2, [])
       case _ => NoValue)
    case Stop(err, trace) => Fail(err, trace)
    case NoResult => NoValue
  }

  /** The narrowing that a return in a function's own body does.  A constructor's body
      is not linked to it, so returns there end with the body. */
  function BodyConv(f: Function): Conv {
    if f.linked then f.conv else Keep
  }

  function ExecBody(w: World, prog: Program, f: Function, st: State, fuel: nat): (r: Result)
    ensures r.Done? ==> SameFrame(r.st, st)
    decreases fuel, f.body, 2
  {
    var r := ExecBlock(w, prog, BodyConv(f), f.body, st, fuel);
    if f.linked then r else Cut(r)
  }

  // --------------------------------------------------------------- statements

  /** An expression statement's continuation value, or how it ended instead. */
  function Ended(r: Value): Result
    requires !r.Val?
  {
    match r
    case Raised(st, left) => Done(Throwing, st, left)
    case Fail(err, trace) => Stop(err, trace)
    case NoValue => NoResult
  }

  /** What is outside is not linked: a return goes no further. */
  function Cut(r: Result): Result {
    if r.Done? && r.o.Returning? then r.(o := Escaping(r.o.v)) else r
  }

  /** conv is the narrowing that a return finds on its way out. */
  function Exec(w: World, prog: Program, conv: Conv, s: Stmt, st: State, fuel: nat): (r: Result)
    ensures r.Done? ==> SameFrame(r.st, st)
    ensures r.Done? && (r.o.Returning? || r.o.Escaping?) ==> MayReturn(s)
    ensures r.Done? && r.o.Escaping? ==> MayEscape(s)
    decreases fuel, s, 2
  {
    match s
    case Skip => Done(Normal, st, [])
    case Block(body) => ExecBlock(w, prog, conv, body, st, fuel)
    case VarDecl(_, _, _, _) => ExecDecl(w, prog, conv, s, st, fuel)
    case ExprStmt(e, isRef) =>
      var x := Eval(w, prog, e, st, fuel);
      if !x.Val? then Ended(x) else
      Done(Normal, if isRef then Log(x.st, Released(Low32(x.v))) else x.st, [])
    case If(_, _) => ExecIf(w, prog, conv, s, st, fuel)
    case IfElse(_, _, _) => ExecIfElse(w, prog, conv, s, st, fuel)
    case While(c, b) => ExecLoop(w, prog, Some(c), None, b, st, fuel)
    case DoWhile(b, c) => ExecDo(w, prog, b, c, st, fuel)
    case For(_, _, _, _) => ExecFor(w, prog, conv, s, st, fuel)
    case Switch(_, _) => ExecSwitchStmt(w, prog, conv, s, st, fuel)
    case Break => Done(Breaking, st, [])
    case Continue => Done(Continuing, st, [])
    case Return(_, _) => ExecReturn(w, prog, conv, s, st, fuel)
    case Throw(_) => ExecThrow(w, prog, conv, s, st, fuel)
    case Try(_, _, _) => ExecTry(w, prog, conv, s, st, fuel)
  }

  function ExecDecl(w: World, prog: Program, conv: Conv, s: Stmt, st: State, fuel: nat): (r: Result)
    requires s.VarDecl?
    ensures r.Done? ==> SameFrame(r.st, st)
    ensures r.Done? && (r.o.Returning? || r.o.Escaping?) ==> MayReturn(s)
    ensures r.Done? && r.o.Escaping? ==> MayEscape(s)
    decreases fuel, s, 0
  {
    if s.init.None? then Done(Normal, st, []) else
    var x := Eval(w, prog, s.init.value, st, fuel);
    if !x.Val? then Ended(x) else
    if s.slot >= |st.locals| then NoResult else
    var retain := s.isRef && !ProducesRetained(s.init.value);
    var v := Narrow(s.conv, x.v);
    Done(Normal, SetSlot(LogRetain(retain, v, x.st), s.slot, RetainIf(retain, v)), [])
  }

  function ExecIf(w: World, prog: Program, conv: Conv, s: Stmt, st: State, fuel: nat): (r: Result)
    requires s.If?
    ensures r.Done? ==> SameFrame(r.st, st)
    ensures r.Done? && (r.o.Returning? || r.o.Escaping?) ==> MayReturn(s)
    ensures r.Done? && r.o.Escaping? ==> MayEscape(s)
    decreases fuel, s, 0
  {
    var x := Eval(w, prog, s.cond, st, fuel);
    if !x.Val? then Ended(x) else
    if x.v == 0 then Done(Normal, x.st, []) else Exec(w, prog, conv, s.thn, x.st, fuel)
  }

  function ExecIfElse(w: World, prog: Program, conv: Conv, s: Stmt, st: State, fuel: nat): (r: Result)
    requires s.IfElse?
    ensures r.Done? ==> SameFrame(r.st, st)
    ensures r.Done? && (r.o.Returning? || r.o.Escaping?) ==> MayReturn(s)
    ensures r.Done? && r.o.Escaping? ==> MayEscape(s)
    decreases fuel, s, 0
  {
    var x := Eval(w, prog, s.cond, st, fuel);
    if !x.Val? then Ended(x) else
    if x.v != 0 then Exec(w, prog, conv, s.thn, x.st, fuel) else Exec(w, prog, conv, s.els, x.st, fuel)
  }

  function ExecFor(w: World, prog: Program, conv: Conv, s: Stmt, st: State, fuel: nat): (r: Result)
    requires s.For?
    ensures r.Done? ==> SameFrame(r.st, st)
    ensures r.Done? && (r.o.Returning? || r.o.Escaping?) ==> MayReturn(s)
    ensures r.Done? && r.o.Escaping? ==> MayEscape(s)
    decreases fuel, s, 0
  {
    var r := Exec(w, prog, conv, s.start, st, fuel);
    if !r.Done? || r.o != Normal then r else
    After(r.left, ExecLoop(w, prog, s.guard, s.iter, s.loop, r.st, fuel))
  }

  function ExecSwitchStmt(w: World, prog: Program, conv: Conv, s: Stmt, st: State, fuel: nat): (r: Result)
    requires s.Switch?
    ensures r.Done? ==> SameFrame(r.st, st)
    ensures r.Done? && (r.o.Returning? || r.o.Escaping?) ==> MayReturn(s)
    ensures r.Done? && r.o.Escaping? ==> MayEscape(s)
    decreases fuel, s, 0
  {
    var x := Eval(w, prog, s.subject, st, fuel);
    if !x.Val? then Ended(x) else
    Popped(After([x.v], Cut(ExecSwitch(w, prog, x.v, s.cases, x.st, fuel))))
  }

  /** The end of a switch: normal completion and break both meet the final POP,
      which takes the topmost value. */
  function Popped(r: Result): Result {
    if r.Done? && (r.o == Normal || r.o == Breaking) && r.left != []
    then Done(Normal, r.st, r.left[..|r.left| - 1]) else r
  }

  function ExecReturn(w: World, prog: Program, conv: Conv, s: Stmt, st: State, fuel: nat): (r: Result)
    requires s.Return?
    ensures r.Done? ==> SameFrame(r.st, st)
    ensures r.Done? && (r.o.Returning? || r.o.Escaping?) ==> MayReturn(s)
    ensures r.Done? && r.o.Escaping? ==> MayEscape(s)
    decreases fuel, s, 0
  {
    if s.result.None? then Done(Returning(0), st, []) else
    var x := Eval(w, prog, s.result.value, st, fuel);
    if !x.Val? then Ended(x) else
    var retain := s.isRef && !ProducesRetained(s.result.value);
    var v := Narrow(conv, x.v);
    Done(Returning(RetainIf(retain, v)), LogRetain(retain, v, x.st), [])
  }

  function ExecThrow(w: World, prog: Program, conv: Conv, s: Stmt, st: State, fuel: nat): (r: Result)
    requires s.Throw?
    ensures r.Done? ==> SameFrame(r.st, st)
    ensures r.Done? && (r.o.Returning? || r.o.Escaping?) ==> MayReturn(s)
    ensures r.Done? && r.o.Escaping? ==> MayEscape(s)
    decreases fuel, s, 0
  {
    var x := Eval(w, prog, s.e, st, fuel);
    if !x.Val? then Ended(x) else
    if x.v == 0 then Stop(NullPointer, x.st.trace) else
    Done(Throwing, Log(x.st, Retained(Low32(x.v))).(exc := Low32(x.v)), [])
  }

  function ExecTry(w: World, prog: Program, conv: Conv, s: Stmt, st: State, fuel: nat): (r: Result)
    requires s.Try?
    ensures r.Done? ==> SameFrame(r.st, st)
    ensures r.Done? && (r.o.Returning? || r.o.Escaping?) ==> MayReturn(s)
    ensures r.Done? && r.o.Escaping? ==> MayEscape(s)
    decreases fuel, s, 1
  {
    var r := Guarded(w, prog, conv, s, st, fuel);
    if s.fin.None? || !r.Done? || !RunsFinally(r.o) then r else
    Finish(r, ExecBlock(w, prog, conv, s.fin.value, r.st, fuel))
  }

  /** The guarded block and, when it throws, the clauses. */
  function Guarded(w: World, prog: Program, conv: Conv, s: Stmt, st: State, fuel: nat): (r: Result)
    requires s.Try?
    ensures r.Done? ==> SameFrame(r.st, st)
    ensures r.Done? && (r.o.Returning? || r.o.Escaping?) ==> MayReturn(s)
    ensures r.Done? && r.o.Escaping? ==> MayEscape(s)
    decreases fuel, s, 0
  {
    var r := ExecBlock(w, prog, conv, s.body, st, fuel);
    if r.Done? && r.o == Throwing then After(r.left, ExecClauses(w, prog, conv, s.clauses, r.st, fuel)) else r
  }

  /** A leap, like an escape, passes the finally block by. */
  predicate RunsFinally(o: Outcome) {
    o.Normal? || o.Returning? || o.Throwing?
  }

  /** How a try ends once its finally block has run with result f after outcome r. */
  function Finish(r: Result, f: Result): Result
    requires r.Done?
  {
    match r.o
    case Normal => After(r.left, f)
    case Throwing => if f.Done? && f.o == Normal then Done(Throwing, f.st, r.left + f.left) else After(r.left, f)
    case Returning(v) =>
      // the pending result sits below whatever the finally block left behind
      var pile := r.left + [v];
      if !f.Done? then f else
      (match f.o
       case Normal =>
         var all := pile + f.left;
         Done(Returning(all[|all| - 1]), f.st, all[..|all| - 1])
       case Returning(_) => After(pile, f)
       case Escaping(_) => After(pile, f)
       case _ => NoResult)
    case _ => NoResult
  }

  function ExecSeq(w: World, prog: Program, conv: Conv, ss: Stmts, st: State, fuel: nat): (r: Result)
    ensures r.Done? ==> SameFrame(r.st, st)
    ensures r.Done? && (r.o.Returning? || r.o.Escaping?) ==> MayReturnSeq(ss)
    ensures r.Done? && r.o.Escaping? ==> MayEscapeSeq(ss)
    decreases fuel, ss, 0
  {
    match ss
    case Nil => Done(Normal, st, [])
    case Cons(s, rest) =>
      var r := Exec(w, prog, conv, s, st, fuel);
      if !r.Done? || r.o != Normal then r else
      After(r.left, ExecSeq(w, prog, conv, rest, r.st, fuel))
  }

  /** However a block is left, but by an escape, it releases its own reference
      declarations. */
  function ExecBlock(w: World, prog: Program, conv: Conv, body: Stmts, st: State, fuel: nat): (r: Result)
    ensures r.Done? ==> SameFrame(r.st, st)
    ensures r.Done? && (r.o.Returning? || r.o.Escaping?) ==> MayReturnSeq(body)
    ensures r.Done? && r.o.Escaping? ==> MayEscapeSeq(body)
    decreases fuel, body, 1
  {
    var r := ExecSeq(w, prog, conv, body, st, fuel);
    if !r.Done? || r.o.Escaping? then r else
    if !InFrame(RefSlots(body), |st.locals|) then NoResult else
    r.(st := ReleaseAll(r.st, RefSlots(body)))
  }

  function ExecLoop(w: World, prog: Program, guard: Option<Expr>, iter: Option<Expr>, b: Stmt,
                    st: State, fuel: nat): (r: Result)
    ensures r.Done? ==> SameFrame(r.st, st)
    ensures r.Done? && (r.o.Returning? || r.o.Escaping?) ==> MayReturn(b)
    decreases fuel, b, 2
  {
    if fuel == 0 then NoResult else
    var x := if guard.Some? then Eval(w, prog, guard.value, st, fuel - 1) else Val(1, st);
    if !x.Val? then Ended(x) else
    if x.v == 0 then Done(Normal, x.st, []) else ExecRound(w, prog, guard, iter, b, x.st, fuel)
  }

  /** One round of the body; break leaves the loop, continue goes on with the iteration step. */
  function ExecRound(w: World, prog: Program, guard: Option<Expr>, iter: Option<Expr>, b: Stmt,
                     st: State, fuel: nat): (r: Result)
    requires fuel > 0
    ensures r.Done? ==> SameFrame(r.st, st)
    ensures r.Done? && (r.o.Returning? || r.o.Escaping?) ==> MayReturn(b)
    decreases fuel, b, 1
  {
    var r := Cut(Exec(w, prog, Keep, b, st, fuel - 1));
    if !r.Done? || r.o.Escaping? || r.o.Throwing? then r else
    if r.o == Breaking then r.(o := Normal) else
    After(r.left, ExecBack(w, prog, guard, iter, b, r.st, fuel))
  }

  function ExecBack(w: World, prog: Program, guard: Option<Expr>, iter: Option<Expr>, b: Stmt,
                    st: State, fuel: nat): (r: Result)
    requires fuel > 0
    ensures r.Done? ==> SameFrame(r.st, st)
    ensures r.Done? && (r.o.Returning? || r.o.Escaping?) ==> MayReturn(b)
    decreases fuel, b, 0
  {
    var y := if iter.Some? then Eval(w, prog, iter.value, st, fuel - 1) else Val(0, st);
    if !y.Val? then Ended(y) else ExecLoop(w, prog, guard, iter, b, y.st, fuel - 1)
  }

  function ExecDo(w: World, prog: Program, b: Stmt, c: Expr, st: State, fuel: nat): (r: Result)
    ensures r.Done? ==> SameFrame(r.st, st)
    ensures r.Done? && (r.o.Returning? || r.o.Escaping?) ==> MayReturn(b)
    decreases fuel, b, 2
  {
    if fuel == 0 then NoResult else
    var r := Cut(Exec(w, prog, Keep, b, st, fuel - 1));
    if !r.Done? || r.o.Escaping? || r.o.Throwing? then r else
    if r.o == Breaking then r.(o := Normal) else
    After(r.left, Until(w, prog, b, c, r.st, fuel))
  }

  /** The test at the bottom, and the rounds it asks for. */
  function Until(w: World, prog: Program, b: Stmt, c: Expr, st: State, fuel: nat): (r: Result)
    requires fuel > 0
    ensures r.Done? ==> SameFrame(r.st, st)
    ensures r.Done? && (r.o.Returning? || r.o.Escaping?) ==> MayReturn(b)
    decreases fuel, b, 0
  {
    var x := Eval(w, prog, c, st, fuel - 1);
    if !x.Val? then Ended(x) else
    if x.v == 0 then Done(Normal, x.st, []) else ExecDo(w, prog, b, c, x.st, fuel - 1)
  }

  /** Compare the subject with each label in turn, then run from the first match on. */
  function ExecSwitch(w: World, prog: Program, v: u64, cases: Cases, st: State, fuel: nat): (r: Result)
    ensures r.Done? ==> SameFrame(r.st, st)
    ensures r.Done? && (r.o.Returning? || r.o.Escaping?) ==> MayReturnCases(cases)
    decreases fuel, cases, 1
  {
    match cases
    case NoCase => Done(Normal, st, [])
    case Default(_) => ExecCases(w, prog, cases, st, fuel)
    case Case(value, _, rest) =>
      var x := Under([v], Eval(w, prog, value, st, fuel));
      if !x.Val? then Ended(x) else
      if x.v == v then ExecCases(w, prog, cases, x.st, fuel)
      else ExecSwitch(w, prog, v, rest, x.st, fuel)
  }

  /** Case bodies fall through. */
  function ExecCases(w: World, prog: Program, cases: Cases, st: State, fuel: nat): (r: Result)
    ensures r.Done? ==> SameFrame(r.st, st)
    ensures r.Done? && (r.o.Returning? || r.o.Escaping?) ==> MayReturnCases(cases)
    decreases fuel, cases, 0
  {
    match cases
    case NoCase => Done(Normal, st, [])
    case Default(body) => ExecSeq(w, prog, Keep, body, st, fuel)
    case Case(_, body, rest) =>
      var r := ExecSeq(w, prog, Keep, body, st, fuel);
      if !r.Done? || r.o != Normal then r else
      After(r.left, ExecCases(w, prog, rest, r.st, fuel))
  }

  /** The first clause whose class matches the exception takes it over; its
      variable is released when the body completes normally. */
  function ExecClauses(w: World, prog: Program, conv: Conv, clauses: Clauses, st: State, fuel: nat): (r: Result)
    ensures r.Done? ==> SameFrame(r.st, st)
    ensures r.Done? && (r.o.Returning? || r.o.Escaping?) ==> MayReturnClauses(clauses)
    ensures r.Done? && r.o.Escaping? ==> MayEscapeClauses(clauses)
    decreases fuel, clauses, 0
  {
    match clauses
    case NoClause => Done(Throwing, st, [])
    case Clause(classId, slot, body, rest) =>
      if !IsInstance(w, st.trace, st.exc, classId) then ExecClauses(w, prog, conv, rest, st, fuel) else
      if slot >= |st.locals| then NoResult else
      var r := ExecBlock(w, prog, conv, body, Caught(st, slot), fuel);
      if r.Done? && r.o == Normal then r.(st := Log(r.st, Released(Low32(r.st.locals[slot])))) else r
  }

  /** Move the active exception into a clause's variable. */
  function Caught(st: State, slot: u32): State
    requires slot < |st.locals|
  {
    Log(SetSlot(st, slot, st.exc), Released(st.exc)).(exc := 0)
  }

  lemma DoIs(w: World, prog: Program, b: Stmt, e: Expr, st: State, fuel: nat)
    ensures fuel == 0 ==> ExecDo(w, prog, b, e, st, fuel) == NoResult
    ensures fuel > 0 ==>
              var r := Cut(Exec(w, prog, Keep, b, st, fuel - 1));
              ExecDo(w, prog, b, e, st, fuel) ==
                if r.Done? && (r.o == Normal || r.o == Continuing) then After(r.left, Until(w, prog, b, e, r.st, fuel))
                else if r.Done? && r.o == Breaking then r.(o := Normal) else r
  {
    hide Exec, Until;
  }

  lemma UntilIs(w: World, prog: Program, b: Stmt, e: Expr, st: State, fuel: nat)
    requires fuel > 0
    ensures var x := Eval(w, prog, e, st, fuel - 1);
            Until(w, prog, b, e, st, fuel) ==
              if !x.Val? then Ended(x) else if x.v == 0 then Done(Normal, x.st, []) else ExecDo(w, prog, b, e, x.st, fuel - 1)
  {
    hide Eval, ExecDo;
  }
}
