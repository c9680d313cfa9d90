/** The reference counts that a program's runs change, read off the trace: what is counted
    up is counted down again, and never further.  Holds for programs without try and throw
    in which a block's reference declarations come before anything that may leave it; each
    condition is needed. */
module Balance {
  import opened Options
  import opened Words
  import opened Instructions
  import opened Syntax
  import opened Semantics
  import Escapes

  // ------------------------------------------------------------------------- counting

  /** What an event adds to the count of the block at a. */
  function Delta(e: Event, a: u32): int {
    match e
    case Allocated(_, _, addr) => if addr == a then 1 else 0
    case Stamped(_, _) => 0
    case Retained(addr) => if addr == a then 1 else 0
    case Released(addr) => if addr == a then -1 else 0
  }

  function Net(trace: seq<Event>, a: u32): int {
    if trace == [] then 0 else Net(trace[..|trace| - 1], a) + Delta(trace[|trace| - 1], a)
  }

  lemma NetMore(trace: seq<Event>, e: Event, a: u32)
    ensures Net(trace + [e], a) == Net(trace, a) + Delta(e, a)
  {
    assert (trace + [e])[..|trace|] == trace;
  }

  /** 1 for a word that refers to the block at a. */
  function Refers(v: u64, a: u32): nat {
    if Low32(v) == a then 1 else 0
  }

  function HolderSet(locals: seq<u64>, live: set<u32>, a: u32): set<u32> {
    set s | s in live && s < |locals| && Low32(locals[s]) == a
  }

  /** How many of these slots refer to the block. */
  function Held(locals: seq<u64>, live: set<u32>, a: u32): nat {
    |HolderSet(locals, live, a)|
  }

  function HeldAt(locals: seq<u64>, slot: u32, a: u32): nat {
    if slot < |locals| then Refers(locals[slot], a) else 0
  }

  lemma HeldNone(locals: seq<u64>, a: u32)
    ensures Held(locals, {}, a) == 0
  {
    assert HolderSet(locals, {}, a) == {};
  }

  lemma HeldMore(locals: seq<u64>, live: set<u32>, slot: u32, a: u32)
    requires slot !in live
    ensures Held(locals, live + {slot}, a) == Held(locals, live, a) + HeldAt(locals, slot, a)
  {
    var s, t := HolderSet(locals, live, a), HolderSet(locals, live + {slot}, a);
    if HeldAt(locals, slot, a) == 1 { assert t == s + {slot}; } else { assert t == s; }
  }

  lemma HeldSame(locals: seq<u64>, other: seq<u64>, live: set<u32>, a: u32)
    requires forall s: u32 :: s in live ==> HeldAt(locals, s, a) == HeldAt(other, s, a)
    ensures Held(locals, live, a) == Held(other, live, a)
  {
    forall s | s in live
      ensures s in HolderSet(locals, live, a) <==> s in HolderSet(other, live, a)
    {
      assert HeldAt(locals, s, a) == HeldAt(other, s, a);
    }
    assert HolderSet(locals, live, a) == HolderSet(other, live, a);
  }

  lemma HeldElsewhere(locals: seq<u64>, live: set<u32>, slot: u32, v: u64, a: u32)
    requires slot < |locals| && slot !in live
    ensures Held(locals[slot := v], live, a) == Held(locals, live, a)
  {
    HeldSame(locals[slot := v], locals, live, a);
  }

  lemma HeldSet(locals: seq<u64>, live: set<u32>, slot: u32, v: u64, a: u32)
    requires slot < |locals| && slot in live
    ensures Held(locals[slot := v], live, a) == Held(locals, live, a) - HeldAt(locals, slot, a) + Refers(v, a)
    ensures Held(locals, live, a) >= HeldAt(locals, slot, a)
  {
    var rest := live - {slot};
    assert live == rest + {slot};
    HeldMore(locals, rest, slot, a);
    HeldMore(locals[slot := v], rest, slot, a);
    HeldElsewhere(locals, rest, slot, v, a);
  }

  /** Between t and t1 the count does not fall below the bound. */
  ghost predicate NoDip(t: seq<Event>, t1: seq<Event>, bound: int, a: u32) {
    t <= t1 && forall n :: |t| <= n <= |t1| ==> Net(t1[..n], a) >= bound
  }

  lemma DipNone(t: seq<Event>, bound: int, a: u32)
    requires Net(t, a) >= bound
    ensures NoDip(t, t, bound, a)
  {
    assert t[..|t|] == t;
  }

  lemma DipOne(t: seq<Event>, e: Event, bound: int, a: u32)
    requires Net(t, a) >= bound && Net(t, a) + Delta(e, a) >= bound
    ensures NoDip(t, t + [e], bound, a)
  {
    NetMore(t, e, a);
    assert (t + [e])[..|t|] == t && (t + [e])[..|t| + 1] == t + [e];
  }

  lemma DipOn(t: seq<Event>, t1: seq<Event>, t2: seq<Event>, bound: int, bound1: int, a: u32)
    requires NoDip(t, t1, bound, a) && NoDip(t1, t2, bound1, a) && bound1 >= bound
    ensures NoDip(t, t2, bound, a)
  {
    forall n | |t| <= n <= |t2| ensures Net(t2[..n], a) >= bound {
      if n <= |t1| { assert t2[..n] == t1[..n]; }
    }
  }

  // ------------------------------------------------------------ what a step comes to

  /** From st, whose slots `live` hold references, to st1, whose slots `live1` do: the count
      has changed by what the slots have come to hold and `owned` references besides, and on
      the way it was never below what would be left without the slots' references. */
  ghost predicate Moves(st: State, live: set<u32>, st1: State, live1: set<u32>, owned: int, a: u32) {
    Net(st1.trace, a) - Held(st1.locals, live1, a) == Net(st.trace, a) - Held(st.locals, live, a) + owned &&
    NoDip(st.trace, st1.trace, Net(st.trace, a) - Held(st.locals, live, a), a)
  }

  lemma StaysPut(st: State, live: set<u32>, a: u32)
    ensures Moves(st, live, st, live, 0, a)
  {
    DipNone(st.trace, Net(st.trace, a) - Held(st.locals, live, a), a);
  }

  lemma MovesOn(st: State, live: set<u32>, st1: State, live1: set<u32>, owned1: int, st2: State, live2: set<u32>, owned2: int, a: u32)
    requires Moves(st, live, st1, live1, owned1, a) && Moves(st1, live1, st2, live2, owned2, a) && owned1 >= 0
    ensures Moves(st, live, st2, live2, owned1 + owned2, a)
  {
    hide NoDip, Net, Held;
    DipOn(st.trace, st1.trace, st2.trace, Net(st.trace, a) - Held(st.locals, live, a), Net(st1.trace, a) - Held(st1.locals, live1, a), a);
  }

  /** INC_REF, or nothing. */
  lemma Retains(retain: bool, v: u64, st: State, live: set<u32>, a: u32)
    ensures Moves(st, live, LogRetain(retain, v, st), live, if retain then Refers(v, a) else 0, a)
  {
    var e := Retained(Low32(v));
    StaysPut(st, live, a);
    NetMore(st.trace, e, a);
    DipOne(st.trace, e, Net(st.trace, a) - Held(st.locals, live, a), a);
  }

  /** A reference owned besides the slots' is given up. */
  lemma ReleasesOwned(st: State, live: set<u32>, st1: State, addr: u32, a: u32)
    requires Moves(st, live, st1, live, if addr == a then 1 else 0, a)
    ensures Moves(st, live, Log(st1, Released(addr)), live, 0, a)
  {
    hide Held;
    var e := Released(addr);
    var bound := Net(st.trace, a) - Held(st.locals, live, a);
    NetMore(st1.trace, e, a);
    DipOne(st1.trace, e, bound, a);
    DipOn(st.trace, st1.trace, st1.trace + [e], bound, bound, a);
  }

  /** A slot that is not counted changes. */
  lemma SetsOther(st: State, live: set<u32>, slot: u32, v: u64, a: u32)
    requires slot < |st.locals| && slot !in live
    ensures Moves(st, live, SetSlot(st, slot, v), live, 0, a)
  {
    HeldElsewhere(st.locals, live, slot, v, a);
    StaysPut(st, live, a);
  }

  /** A declared slot takes an owned reference over. */
  lemma Declares(st: State, live: set<u32>, slot: u32, v: u64, a: u32)
    requires slot < |st.locals| && slot !in live
    ensures Moves(st, live, SetSlot(st, slot, v), live + {slot}, -(Refers(v, a) as int), a)
  {
    HeldMore(st.locals[slot := v], live, slot, a);
    HeldElsewhere(st.locals, live, slot, v, a);
    StaysPut(st, live, a);
  }

  /** A live slot drops its reference and takes an owned one over. */
  lemma Replaces(st: State, live: set<u32>, slot: u32, v: u32, a: u32)
    requires slot < |st.locals| && slot in live && a != 0
    ensures Moves(st, live, SetSlot(ReleaseSlot(st, slot), slot, v), live, -(Refers(v, a) as int), a)
  {
    hide Held;
    var st1 := ReleaseSlot(st, slot);
    var bound := Net(st.trace, a) - Held(st.locals, live, a);
    HeldSet(st.locals, live, slot, v, a);
    StaysPut(st, live, a);
    if st.locals[slot] != 0 {
      var e := Released(Low32(st.locals[slot]));
      NetMore(st.trace, e, a);
      DipOne(st.trace, e, bound, a);
    }
  }

  // -------------------------------------------------------------------- reference typing

  function RefSet(f: Function): set<u32> {
    set s | s in f.refs
  }

  function LiveAfter(s: Stmt, live: set<u32>): set<u32> {
    if s.VarDecl? && s.isRef then live + {s.slot} else live
  }

  function Owns(body: Stmts): set<u32> {
    match body
    case Nil => {}
    case Cons(s, rest) => LiveAfter(s, {}) + Owns(rest)
  }

  /** The expression is used as a reference (ref) or as a plain value; `gives` says which
      functions return references, `live` are the slots that hold counted ones. */
  predicate TypedExpr(prog: Program, gives: seq<bool>, live: set<u32>, e: Expr, ref: bool)
    requires |gives| == |prog|
  {
    match e
    case IntLit(_) => !ref
    case BoolLit(_) => !ref
    case Null => true
    case Local(_) => true
    case Arith(_, l, r) => !ref && TypedExpr(prog, gives, live, l, false) && TypedExpr(prog, gives, live, r, false)
    case And(l, r) => !ref && TypedExpr(prog, gives, live, l, false) && TypedExpr(prog, gives, live, r, false)
    case Or(l, r) => !ref && TypedExpr(prog, gives, live, l, false) && TypedExpr(prog, gives, live, r, false)
    case Not(x) => !ref && TypedExpr(prog, gives, live, x, false)
    case Negate(_, x) => !ref && TypedExpr(prog, gives, live, x, false)
    case Ternary(c, y, n, isRef) =>
      isRef == ref && TypedExpr(prog, gives, live, c, false) && TypedExpr(prog, gives, live, y, ref) && TypedExpr(prog, gives, live, n, ref)
    case Assign(slot, _, x) => !ref && slot !in live && TypedExpr(prog, gives, live, x, false)
    case AssignRef(slot, x) => ref && slot in live && TypedExpr(prog, gives, live, x, true)
    case AssignOp(_, slot, _, x) => !ref && slot !in live && TypedExpr(prog, gives, live, x, false)
    case IncDec(slot, _, _) => !ref && slot !in live
    case Invoke(fn, args) => fn < |prog| && gives[fn] == ref && TypedArgs(prog, gives, live, args, RefSet(prog[fn]), 0)
    case New(_, _, ctor, args) =>
      ref && ctor < |prog| && !gives[ctor] && 0 in RefSet(prog[ctor]) && TypedArgs(prog, gives, live, args, RefSet(prog[ctor]), 1)
  }

  /** Arguments are references exactly where the parameters are. */
  predicate TypedArgs(prog: Program, gives: seq<bool>, live: set<u32>, args: Args, refs: set<u32>, i: nat)
    requires |gives| == |prog|
  {
    match args
    case NoArgs => true
    case Arg(e, isRef, rest) =>
      i < M32 && (isRef <==> i in refs) && TypedExpr(prog, gives, live, e, isRef) && TypedArgs(prog, gives, live, rest, refs, i + 1)
  }

  /** A break, a continue or a return may leave the statement. */
  predicate MayLeave(s: Stmt) {
    match s
    case Block(body) => MayLeaveSeq(body)
    case If(_, t) => MayLeave(t)
    case IfElse(_, t, f) => MayLeave(t) || MayLeave(f)
    case For(start, _, _, _) => MayLeave(start)
    case Switch(_, cases) => MayLeaveCases(cases)
    case Break => true
    case Continue => true
    case Return(_, _) => true
    case _ => false
  }

  predicate MayLeaveSeq(ss: Stmts) {
    match ss
    case Nil => false
    case Cons(s, rest) => MayLeave(s) || MayLeaveSeq(rest)
  }

  predicate MayLeaveCases(cases: Cases) {
    match cases
    case NoCase => false
    case Default(body) => MayLeaveSeq(body)
    case Case(_, body, rest) => MayLeaveSeq(body) || MayLeaveCases(rest)
  }

  /** gives: the function returns a reference. */
  predicate TypedStmt(prog: Program, gives: seq<bool>, live: set<u32>, s: Stmt, ret: bool)
    requires |gives| == |prog|
    decreases s, 0
  {
    match s
    case Skip => true
    case Block(body) => TypedSeq(prog, gives, live, body, ret)
    case VarDecl(slot, isRef, conv, init) =>
      slot !in live && (isRef ==> conv.Keep? && init.Some?) && (init.Some? ==> TypedExpr(prog, gives, live, init.value, isRef))
    case ExprStmt(e, isRef) => TypedExpr(prog, gives, live, e, isRef) && (isRef ==> ProducesRetained(e))
    case If(c, t) => TypedExpr(prog, gives, live, c, false) && TypedInner(prog, gives, live, t, ret)
    case IfElse(c, t, f) =>
      TypedExpr(prog, gives, live, c, false) && TypedInner(prog, gives, live, t, ret) && TypedInner(prog, gives, live, f, ret)
    case While(c, b) => TypedExpr(prog, gives, live, c, false) && TypedInner(prog, gives, live, b, ret) && !MayReturn(b)
    case DoWhile(b, c) => TypedExpr(prog, gives, live, c, false) && TypedInner(prog, gives, live, b, ret) && !MayReturn(b)
    case For(start, guard, iter, b) =>
      TypedInner(prog, gives, live, start, ret) && (guard.Some? ==> TypedExpr(prog, gives, live, guard.value, false)) &&
      (iter.Some? ==> TypedExpr(prog, gives, live, iter.value, false)) && TypedInner(prog, gives, live, b, ret) && !MayReturn(b)
    case Switch(subject, cases) =>
      TypedExpr(prog, gives, live, subject, false) && TypedCases(prog, gives, live, cases, ret) && !MayReturnCases(cases)
    case Break => true
    case Continue => true
    case Return(result, isRef) => result.Some? ==> isRef == ret && TypedExpr(prog, gives, live, result.value, ret)
    case Throw(_) => false
    case Try(_, _, _) => false
  }

  /** A statement that is no block's own declares no reference. */
  predicate TypedInner(prog: Program, gives: seq<bool>, live: set<u32>, s: Stmt, ret: bool)
    requires |gives| == |prog|
    decreases s, 1
  {
    TypedStmt(prog, gives, live, s, ret) && !(s.VarDecl? && s.isRef)
  }

  /** Behind a statement that may leave the block no reference is declared. */
  predicate TypedSeq(prog: Program, gives: seq<bool>, live: set<u32>, ss: Stmts, ret: bool)
    requires |gives| == |prog|
    decreases ss, 0
  {
    match ss
    case Nil => true
    case Cons(s, rest) =>
      TypedStmt(prog, gives, live, s, ret) && (MayLeave(s) ==> RefSlots(rest) == []) && TypedSeq(prog, gives, LiveAfter(s, live), rest, ret)
  }

  predicate TypedCases(prog: Program, gives: seq<bool>, live: set<u32>, cases: Cases, ret: bool)
    requires |gives| == |prog|
    decreases cases, 0
  {
    match cases
    case NoCase => true
    case Default(body) => TypedSeq(prog, gives, live, body, ret) && RefSlots(body) == []
    case Case(value, body, rest) =>
      TypedExpr(prog, gives, live, value, false) && TypedSeq(prog, gives, live, body, ret) && RefSlots(body) == [] &&
      TypedCases(prog, gives, live, rest, ret)
  }

  predicate TypedFunction(prog: Program, gives: seq<bool>, f: Function, ret: bool)
    requires |gives| == |prog|
  {
    (forall i :: 0 <= i < |f.refs| ==> f.refs[i] < f.params) && (forall i, j :: 0 <= i < j < |f.refs| ==> f.refs[i] != f.refs[j]) &&
    (ret ==> f.conv.Keep?) && (f.linked || !MayReturnSeq(f.body)) && TypedSeq(prog, gives, RefSet(f), f.body, ret)
  }

  predicate TypedProgram(prog: Program, gives: seq<bool>) {
    |gives| == |prog| && forall i :: 0 <= i < |prog| ==> TypedFunction(prog, gives, prog[i], gives[i])
  }

  // ------------------------------------------------------------------------ expressions

  /** The value is left with a count of its own, if the assembler counts on that. */
  function OwnedBy(v: u64, owned: bool, a: u32): nat {
    if owned then Refers(v, a) else 0
  }

  ghost predicate Fair(r: Value, st: State, live: set<u32>, owned: bool, a: u32) {
    match r
    case Val(v, st1) => Moves(st, live, st1, live, OwnedBy(v, owned, a), a)
    case Raised(_, _) => false
    case Fail(_, trace) => NoDip(st.trace, trace, Net(st.trace, a) - Held(st.locals, live, a), a)
    case NoValue => true
  }

  /** Behind a step that has come to st1. */
  lemma FairOn(st: State, live: set<u32>, st1: State, r: Value, owned: bool, a: u32)
    requires Moves(st, live, st1, live, 0, a) && Fair(r, st1, live, owned, a)
    ensures Fair(r, st, live, owned, a)
  {
    hide NoDip, Net, Held, Moves;
    match r
    case Val(v, st2) => MovesOn(st, live, st1, live, 0, st2, live, OwnedBy(v, owned, a), a);
    case Fail(_, trace) => FailsOn(st, live, st1, 0, trace, a);
    case NoValue =>
  }

  lemma FailsOn(st: State, live: set<u32>, st1: State, owned: nat, trace: seq<Event>, a: u32)
    requires Moves(st, live, st1, live, owned, a)
    requires NoDip(st1.trace, trace, Net(st1.trace, a) - Held(st1.locals, live, a), a)
    ensures NoDip(st.trace, trace, Net(st.trace, a) - Held(st.locals, live, a), a)
  {
    hide NoDip, Net, Held;
    DipOn(st.trace, st1.trace, trace, Net(st.trace, a) - Held(st.locals, live, a), Net(st1.trace, a) - Held(st1.locals, live, a), a);
  }

  /** A failure before which nothing more has happened. */
  lemma FailsHere(st: State, live: set<u32>, st1: State, owned: int, a: u32)
    requires Moves(st, live, st1, live, owned, a)
    ensures NoDip(st.trace, st1.trace, Net(st.trace, a) - Held(st.locals, live, a), a)
  {
  }

  /** How an operand that is no reference ends, and the evaluation with it. */
  lemma PlainOperand(r: Value, st: State, live: set<u32>, e: Expr, a: u32)
    requires Fair(r, st, live, false, a)
    ensures r.Val? ==> Moves(st, live, r.st, live, 0, a)
    ensures !r.Val? ==> Fair(r, st, live, true, a)
  {
  }

  lemma {:induction false} ExprBalances(w: World, prog: Program, gives: seq<bool>, live: set<u32>, e: Expr, ref: bool, st: State, fuel: nat, a: u32)
    requires TypedProgram(prog, gives) && TypedExpr(prog, gives, live, e, ref) && a != 0
    ensures Fair(Eval(w, prog, e, st, fuel), st, live, ref && ProducesRetained(e), a)
    decreases fuel, e, 1
  {
    hide Moves, NoDip, Net, Held, TypedProgram, Narrow, Wrap, Semantics.Apply;
    StaysPut(st, live, a);
    match e
    case IntLit(_) =>
    case BoolLit(_) =>
    case Null =>
    case Local(_) =>
    case Arith(_, _, _) => ArithBalances(w, prog, gives, live, e, st, fuel, a);
    case And(_, _) => ShortCircuitBalances(w, prog, gives, live, e, st, fuel, a);
    case Or(_, _) => ShortCircuitBalances(w, prog, gives, live, e, st, fuel, a);
    case Not(x) => ExprBalances(w, prog, gives, live, x, false, st, fuel, a);
    case Negate(_, x) => ExprBalances(w, prog, gives, live, x, false, st, fuel, a);
    case Ternary(_, _, _, _) => TernaryBalances(w, prog, gives, live, e, ref, st, fuel, a);
    case Assign(slot, conv, x) =>
      ExprBalances(w, prog, gives, live, x, false, st, fuel, a);
      var r := Eval(w, prog, x, st, fuel);
      if r.Val? && slot < |st.locals| {
        SetsOther(r.st, live, slot, Narrow(conv, r.v), a);
        MovesOn(st, live, r.st, live, 0, SetSlot(r.st, slot, Narrow(conv, r.v)), live, 0, a);
      }
    case AssignRef(_, _) => AssignRefBalances(w, prog, gives, live, e, st, fuel, a);
    case AssignOp(_, _, _, _) => AssignOpBalances(w, prog, gives, live, e, st, fuel, a);
    case IncDec(slot, up, _) =>
      if slot < |st.locals| {
        SetsOther(st, live, slot, Wrap(if up then st.locals[slot] as int + 1 else st.locals[slot] as int - 1), a);
      }
    case Invoke(_, _) => InvokeBalances(w, prog, gives, live, e, ref, st, fuel, a);
    case New(_, _, _, _) => NewBalances(w, prog, gives, live, e, st, fuel, a);
  }

  lemma {:induction false} ArithBalances(w: World, prog: Program, gives: seq<bool>, live: set<u32>, e: Expr, st: State, fuel: nat, a: u32)
    requires TypedProgram(prog, gives) && e.Arith? && TypedExpr(prog, gives, live, e, false) && a != 0
    ensures Fair(EvalArith(w, prog, e, st, fuel), st, live, false, a)
    decreases fuel, e, 0
  {
    hide Moves, NoDip, Net, Held, TypedProgram, Semantics.Apply, Eval;
    ExprBalances(w, prog, gives, live, e.left, false, st, fuel, a);
    var x := Eval(w, prog, e.left, st, fuel);
    if x.Val? {
      ExprBalances(w, prog, gives, live, e.right, false, x.st, fuel, a);
      var y := Eval(w, prog, e.right, x.st, fuel);
      FairOn(st, live, x.st, y, false, a);
      if y.Val? { FailsHere(st, live, y.st, 0, a); }
    }
  }

  lemma {:induction false} ShortCircuitBalances(w: World, prog: Program, gives: seq<bool>, live: set<u32>, e: Expr, st: State, fuel: nat, a: u32)
    requires TypedProgram(prog, gives) && (e.And? || e.Or?) && TypedExpr(prog, gives, live, e, false) && a != 0
    ensures Fair(EvalShortCircuit(w, prog, e, st, fuel), st, live, false, a)
    decreases fuel, e, 0
  {
    hide Moves, NoDip, Net, Held, TypedProgram, Eval;
    ExprBalances(w, prog, gives, live, e.left, false, st, fuel, a);
    var x := Eval(w, prog, e.left, st, fuel);
    if x.Val? {
      ExprBalances(w, prog, gives, live, e.right, false, x.st, fuel, a);
      FairOn(st, live, x.st, Eval(w, prog, e.right, x.st, fuel), false, a);
    }
  }

  lemma {:induction false} TernaryBalances(w: World, prog: Program, gives: seq<bool>, live: set<u32>, e: Expr, ref: bool, st: State, fuel: nat, a: u32)
    requires TypedProgram(prog, gives) && e.Ternary? && TypedExpr(prog, gives, live, e, ref) && a != 0
    ensures Fair(EvalTernary(w, prog, e, st, fuel), st, live, ref && ProducesRetained(e), a)
    decreases fuel, e, 0
  {
    hide Moves, NoDip, Net, Held, TypedProgram, Eval;
    ExprBalances(w, prog, gives, live, e.cond, false, st, fuel, a);
    var x := Eval(w, prog, e.cond, st, fuel);
    if x.Val? {
      var arm, other := if x.v != 0 then e.yes else e.no, if x.v != 0 then e.no else e.yes;
      ExprBalances(w, prog, gives, live, arm, ref, x.st, fuel, a);
      var r := Eval(w, prog, arm, x.st, fuel);
      FairOn(st, live, x.st, r, ref && ProducesRetained(arm), a);
      KeptBalances(st, live, r, ref, arm, other, a);
    }
  }

  /** The arm that is not counted yet is counted when the other one is. */
  lemma KeptBalances(st: State, live: set<u32>, r: Value, ref: bool, arm: Expr, other: Expr, a: u32)
    requires Fair(r, st, live, ref && ProducesRetained(arm), a)
    ensures Fair(Kept(ref && RetainsFirst(arm, other), r), st, live, ref && (ProducesRetained(arm) || ProducesRetained(other)), a)
  {
    hide Moves, NoDip, Net, Held, ProducesRetained;
    if r.Val? {
      var retain := ref && RetainsFirst(arm, other);
      Retains(retain, r.v, r.st, live, a);
      MovesOn(st, live, r.st, live, OwnedBy(r.v, ref && ProducesRetained(arm), a), LogRetain(retain, r.v, r.st), live, if retain then Refers(r.v, a) else 0, a);
    }
  }

  lemma {:induction false} AssignRefBalances(w: World, prog: Program, gives: seq<bool>, live: set<u32>, e: Expr, st: State, fuel: nat, a: u32)
    requires TypedProgram(prog, gives) && e.AssignRef? && TypedExpr(prog, gives, live, e, true) && a != 0
    ensures Fair(EvalAssignRef(w, prog, e, st, fuel), st, live, true, a)
    decreases fuel, e, 0
  {
    hide Moves, NoDip, Net, Held, TypedProgram, Eval, ProducesRetained;
    ExprBalances(w, prog, gives, live, e.rhs, true, st, fuel, a);
    var r := Eval(w, prog, e.rhs, st, fuel);
    if r.Val? && e.slot < |st.locals| {
      var borrowed := !ProducesRetained(e.rhs);
      var once := LogRetain(borrowed, r.v, r.st);
      var twice := LogRetain(true, r.v, once);
      var n := Refers(r.v, a);
      Retains(borrowed, r.v, r.st, live, a);
      MovesOn(st, live, r.st, live, OwnedBy(r.v, !borrowed, a), once, live, if borrowed then n else 0, a);
      Retains(true, r.v, once, live, a);
      MovesOn(st, live, once, live, n, twice, live, n, a);
      Replaces(twice, live, e.slot, Low32(r.v), a);
      MovesOn(st, live, twice, live, n + n, SetSlot(ReleaseSlot(twice, e.slot), e.slot, Low32(r.v)), live, -(n as int), a);
    }
  }

  lemma {:induction false} AssignOpBalances(w: World, prog: Program, gives: seq<bool>, live: set<u32>, e: Expr, st: State, fuel: nat, a: u32)
    requires TypedProgram(prog, gives) && e.AssignOp? && TypedExpr(prog, gives, live, e, false) && a != 0
    ensures Fair(EvalAssignOp(w, prog, e, st, fuel), st, live, false, a)
    decreases fuel, e, 0
  {
    hide Moves, NoDip, Net, Held, TypedProgram, Eval, Semantics.Apply, Narrow, SetSlot;
    if e.slot < |st.locals| {
      ExprBalances(w, prog, gives, live, e.rhs, false, st, fuel, a);
      var r := Eval(w, prog, e.rhs, st, fuel);
      if r.Val? {
        FailsHere(st, live, r.st, 0, a);
        if !DividesByZero(e.op, r.v) {
          var v := Narrow(e.conv, Semantics.Apply(e.op, st.locals[e.slot], r.v));
          SetsOther(r.st, live, e.slot, v, a);
          MovesOn(st, live, r.st, live, 0, SetSlot(r.st, e.slot, v), live, 0, a);
        }
      }
    }
  }

  // -------------------------------------------------------------------- calls and objects

  /** How many of the arguments are counted references to the block. */
  function ArgsOwned(args: Args, vs: seq<u64>, a: u32): nat {
    match args
    case NoArgs => 0
    case Arg(_, isRef, rest) => if vs == [] then 0 else OwnedBy(vs[0], isRef, a) + ArgsOwned(rest, vs[1..], a)
  }

  ghost predicate FairArgs(r: Values, st: State, live: set<u32>, args: Args, a: u32) {
    match r
    case Vals(vs, st1) => |vs| == ArgCount(args) && Moves(st, live, st1, live, ArgsOwned(args, vs, a), a)
    case ArgRaised(_, _) => false
    case ArgFail(_, trace) => NoDip(st.trace, trace, Net(st.trace, a) - Held(st.locals, live, a), a)
    case NoValues => true
  }

  lemma {:induction false} ArgsBalance(w: World, prog: Program, gives: seq<bool>, live: set<u32>, args: Args, refs: set<u32>, i: nat, st: State, fuel: nat, a: u32)
    requires TypedProgram(prog, gives) && TypedArgs(prog, gives, live, args, refs, i) && a != 0
    ensures FairArgs(EvalArgs(w, prog, args, st, fuel), st, live, args, a)
    decreases fuel, args, 0
  {
    hide Moves, NoDip, Net, Held, TypedProgram, Eval, ProducesRetained, TypedExpr;
    match args
    case NoArgs => StaysPut(st, live, a);
    case Arg(e, isRef, rest) =>
      ExprBalances(w, prog, gives, live, e, isRef, st, fuel, a);
      var x := Eval(w, prog, e, st, fuel);
      if x.Val? {
        var retain := isRef && !ProducesRetained(e);
        var v, st2 := RetainIf(retain, x.v), LogRetain(retain, x.v, x.st);
        var n := OwnedBy(x.v, isRef, a);
        Retains(retain, x.v, x.st, live, a);
        MovesOn(st, live, x.st, live, OwnedBy(x.v, isRef && ProducesRetained(e), a), st2, live, if retain then Refers(x.v, a) else 0, a);
        ArgsBalance(w, prog, gives, live, rest, refs, i + 1, st2, fuel, a);
        var r := EvalArgs(w, prog, rest, st2, fuel);
        match r
        case Vals(vs, st3) =>
          MovesOn(st, live, st2, live, n, st3, live, ArgsOwned(rest, vs, a), a);
          assert ([v] + vs)[1..] == vs;
        case ArgFail(_, trace) => FailsOn(st, live, st2, n, trace, a);
        case NoValues =>
      }
  }

  /** The counted references among the arguments are those in the reference parameters. */
  lemma {:induction false} ArgsHeld(prog: Program, gives: seq<bool>, live: set<u32>, args: Args, refs: set<u32>, pre: seq<u64>, vs: seq<u64>, a: u32)
    requires |gives| == |prog| && TypedArgs(prog, gives, live, args, refs, |pre|) && |vs| == ArgCount(args)
    ensures Held(pre + vs, refs, a) == Held(pre, refs, a) + ArgsOwned(args, vs, a)
    decreases args
  {
    hide TypedExpr;
    if args.Arg? {
      ArgsHeld(prog, gives, live, args.rest, refs, pre + [vs[0]], vs[1..], a);
      assert pre + [vs[0]] + vs[1..] == pre + vs;
      HeldAppend(pre, vs[0], refs, a);
    } else {
      assert pre + vs == pre;
    }
  }

  lemma HeldAppend(pre: seq<u64>, v: u64, refs: set<u32>, a: u32)
    requires |pre| < M32
    ensures Held(pre + [v], refs, a) == Held(pre, refs, a) + OwnedBy(v, |pre| in refs, a)
  {
    var slot: u32 := |pre|;
    var others := refs - {slot};
    HeldSame(pre + [v], pre, others, a);
    if slot in refs {
      assert refs == others + {slot};
      HeldMore(pre, others, slot, a);
      HeldMore(pre + [v], others, slot, a);
    } else {
      assert refs == others;
    }
  }

  /** A call: the references passed are given up, the result is owned. */
  ghost predicate FairCall(r: Value, st: State, passed: int, owned: bool, a: u32) {
    match r
    case Val(v, st1) =>
      st1.locals == st.locals && Net(st1.trace, a) == Net(st.trace, a) - passed + OwnedBy(v, owned, a) &&
      NoDip(st.trace, st1.trace, Net(st.trace, a) - passed, a)
    case Raised(_, _) => false
    case Fail(_, trace) => NoDip(st.trace, trace, Net(st.trace, a) - passed, a)
    case NoValue => true
  }

  lemma Called(st: State, live: set<u32>, st1: State, r: Value, passed: nat, kept: nat, owned: bool, a: u32)
    requires Moves(st, live, st1, live, passed + kept, a) && FairCall(r, st1, passed, owned, a)
    ensures r.Val? ==> Moves(st, live, r.st, live, kept + OwnedBy(r.v, owned, a), a)
    ensures r.Fail? ==> NoDip(st.trace, r.trace, Net(st.trace, a) - Held(st.locals, live, a), a)
    ensures !r.Raised?
  {
    hide NoDip, Net, Held;
    var bound, bound1 := Net(st.trace, a) - Held(st.locals, live, a), Net(st1.trace, a) - passed;
    match r
    case Val(_, st2) => DipOn(st.trace, st1.trace, st2.trace, bound, bound1, a);
    case Fail(_, trace) => DipOn(st.trace, st1.trace, trace, bound, bound1, a);
    case NoValue =>
  }

  lemma {:induction false} InvokeBalances(w: World, prog: Program, gives: seq<bool>, live: set<u32>, e: Expr, ref: bool, st: State, fuel: nat, a: u32)
    requires TypedProgram(prog, gives) && e.Invoke? && TypedExpr(prog, gives, live, e, ref) && a != 0
    ensures Fair(EvalInvoke(w, prog, e, st, fuel), st, live, ref, a)
    decreases fuel, e, 0
  {
    hide Moves, NoDip, Net, Held, TypedFunction, Semantics.Call, FairCall;
    var refs := RefSet(prog[e.fn]);
    ArgsBalance(w, prog, gives, live, e.args, refs, 0, st, fuel, a);
    var x := EvalArgs(w, prog, e.args, st, fuel);
    if x.Vals? && fuel > 0 {
      CallBalances(w, prog, gives, e.fn, x.vs, x.st, fuel - 1, a);
      ArgsHeld(prog, gives, live, e.args, refs, [], x.vs, a);
      assert [] + x.vs == x.vs && Held([], refs, a) == 0 by { HeldEmpty(refs, a); }
      Called(st, live, x.st, Semantics.Call(w, prog, e.fn, x.vs, x.st, fuel - 1), Held(x.vs, refs, a), 0, gives[e.fn], a);
    }
  }

  lemma HeldEmpty(refs: set<u32>, a: u32)
    ensures Held([], refs, a) == 0
  {
    assert HolderSet([], refs, a) == {};
  }

  lemma {:induction false} NewBalances(w: World, prog: Program, gives: seq<bool>, live: set<u32>, e: Expr, st: State, fuel: nat, a: u32)
    requires TypedProgram(prog, gives) && e.New? && TypedExpr(prog, gives, live, e, true) && a != 0
    ensures Fair(EvalNew(w, prog, e, st, fuel), st, live, true, a)
    decreases fuel, e, 0
  {
    hide Moves, NoDip, Net, Held, TypedFunction, Semantics.Call, FairCall, Created;
    var got := w.alloc(st.trace, e.size);
    StaysPut(st, live, a);
    FailsHere(st, live, st, 0, a);
    if got.Some? {
      var obj := got.value;
      var refs := RefSet(prog[e.ctor]);
      var st1 := Created(st, e.size, obj, e.classId);
      CreatedBalances(st, live, e.size, obj, e.classId, a);
      ArgsBalance(w, prog, gives, live, e.args, refs, 1, st1, fuel, a);
      var x := EvalArgs(w, prog, e.args, st1, fuel);
      var n := Refers(obj, a);
      match x
      case Vals(vs, st2) =>
        var passed := ArgsOwned(e.args, vs, a);
        MovesOn(st, live, st1, live, n + n, st2, live, passed, a);
        if fuel > 0 {
          CallBalances(w, prog, gives, e.ctor, [obj] + vs, st2, fuel - 1, a);
          ArgsHeld(prog, gives, live, e.args, refs, [obj], vs, a);
          HeldEmpty(refs, a);
          HeldAppend([], obj, refs, a);
          assert [] + [obj as u64] == [obj as u64];
          Called(st, live, st2, Semantics.Call(w, prog, e.ctor, [obj] + vs, st2, fuel - 1), Held([obj] + vs, refs, a), n, false, a);
        }
      case ArgFail(_, trace) => FailsOn(st, live, st1, n + n, trace, a);
      case NoValues =>
    }
  }

  /** A new object is counted for its value and for the constructor's parameter. */
  lemma CreatedBalances(st: State, live: set<u32>, size: u32, obj: u32, classId: u32, a: u32)
    ensures Moves(st, live, Created(st, size, obj, classId), live, Refers(obj, a) + Refers(obj, a), a)
  {
    hide Held;
    var bound := Net(st.trace, a) - Held(st.locals, live, a);
    var t1 := st.trace + [Allocated(size, OBJECT_TAG, obj)];
    var t2 := t1 + [Stamped(obj, classId)];
    NetMore(st.trace, Allocated(size, OBJECT_TAG, obj), a);
    NetMore(t1, Stamped(obj, classId), a);
    NetMore(t2, Retained(obj), a);
    DipOne(st.trace, Allocated(size, OBJECT_TAG, obj), bound, a);
    DipOne(t1, Stamped(obj, classId), bound, a);
    DipOne(t2, Retained(obj), bound, a);
    DipOn(st.trace, t1, t2, bound, bound, a);
    DipOn(st.trace, t2, t2 + [Retained(obj)], bound, bound, a);
  }

  // ----------------------------------------------------------------- releasing slots

  function CountHeld(slots: seq<u32>, locals: seq<u64>, a: u32): nat {
    if slots == [] then 0 else HeldAt(locals, slots[0], a) + CountHeld(slots[1..], locals, a)
  }

  lemma {:induction false} CountAppend(x: seq<u32>, y: seq<u32>, locals: seq<u64>, a: u32)
    ensures CountHeld(x + y, locals, a) == CountHeld(x, locals, a) + CountHeld(y, locals, a)
  {
    if x == [] {
      assert x + y == y;
    } else {
      CountAppend(x[1..], y, locals, a);
      assert (x + y)[1..] == x[1..] + y;
    }
  }

  lemma {:induction false} ReleasesSlots(st: State, slots: seq<u32>, a: u32)
    requires InFrame(slots, |st.locals|) && a != 0
    ensures Net(ReleaseAll(st, slots).trace, a) == Net(st.trace, a) - CountHeld(slots, st.locals, a)
    ensures NoDip(st.trace, ReleaseAll(st, slots).trace, Net(st.trace, a) - CountHeld(slots, st.locals, a), a)
    decreases |slots|
  {
    hide NoDip, Net;
    var bound := Net(st.trace, a) - CountHeld(slots, st.locals, a);
    DipNone(st.trace, Net(st.trace, a), a);
    if slots != [] {
      var v, st1 := st.locals[slots[0]], ReleaseSlot(st, slots[0]);
      ReleasesSlots(st1, slots[1..], a);
      if v != 0 {
        NetMore(st.trace, Released(Low32(v)), a);
        DipOne(st.trace, Released(Low32(v)), bound, a);
        DipOn(st.trace, st1.trace, ReleaseAll(st, slots).trace, bound, bound, a);
      }
    }
  }

  lemma {:induction false} OwnsNone(body: Stmts)
    requires RefSlots(body) == []
    ensures Owns(body) == {}
  {
    if body.Cons? { OwnsNone(body.tail); }
  }

  /** A block's own slots, as the set that they hold references in and as the list that is released. */
  lemma {:induction false} OwnsHeld(prog: Program, gives: seq<bool>, live: set<u32>, body: Stmts, ret: bool, locals: seq<u64>, a: u32)
    requires |gives| == |prog| && TypedSeq(prog, gives, live, body, ret)
    ensures Held(locals, live + Owns(body), a) == Held(locals, live, a) + CountHeld(RefSlots(body), locals, a)
    decreases body
  {
    hide Held, TypedStmt, CountHeld;
    match body
    case Nil =>
      assert live + {} == live;
      CountNone(locals, a);
    case Cons(s, rest) =>
      var next := LiveAfter(s, live);
      OwnsHeld(prog, gives, next, rest, ret, locals, a);
      assert live + Owns(body) == next + Owns(rest);
      if s.VarDecl? && s.isRef {
        DeclaredApart(prog, gives, live, s, ret);
        HeldMore(locals, live, s.slot, a);
        CountAppend(RefSlots(rest), [s.slot], locals, a);
        CountOne(s.slot, locals, a);
      } else {
        assert RefSlots(body) == RefSlots(rest);
      }
  }

  lemma DeclaredApart(prog: Program, gives: seq<bool>, live: set<u32>, s: Stmt, ret: bool)
    requires |gives| == |prog| && s.VarDecl? && TypedStmt(prog, gives, live, s, ret)
    ensures s.slot !in live
  {
  }

  lemma CountNone(locals: seq<u64>, a: u32)
    ensures CountHeld([], locals, a) == 0
  {
  }

  lemma CountOne(slot: u32, locals: seq<u64>, a: u32)
    ensures CountHeld([slot], locals, a) == HeldAt(locals, slot, a)
  {
    assert [slot][1..] == [];
  }

  lemma {:induction false} RefsHeld(refs: seq<u32>, live: set<u32>, locals: seq<u64>, a: u32)
    requires (forall i, j :: 0 <= i < j < |refs| ==> refs[i] != refs[j]) && forall s :: s in live <==> s in refs
    ensures Held(locals, live, a) == CountHeld(refs, locals, a)
    decreases |refs|
  {
    hide Held;
    if refs == [] {
      assert live == {};
      HeldNone(locals, a);
    } else {
      var rest := live - {refs[0]};
      assert forall s :: s in refs[1..] ==> s in refs;
      assert refs == [refs[0]] + refs[1..];
      RefsHeld(refs[1..], rest, locals, a);
      assert live == rest + {refs[0]};
      HeldMore(locals, rest, refs[0], a);
    }
  }

  // ------------------------------------------------------------------------- statements

  ghost predicate Settles(r: Result, st: State, live: set<u32>, live1: set<u32>, ret: bool, a: u32) {
    match r
    case Done(o, st1, _) => !o.Escaping? && !o.Throwing? && Moves(st, live, st1, live1, if o.Returning? then OwnedBy(o.v, ret, a) else 0, a)
    case Stop(_, trace) => NoDip(st.trace, trace, Net(st.trace, a) - Held(st.locals, live, a), a)
    case NoResult => true
  }

  predicate Leaves(r: Result) {
    r.Done? && r.o != Normal
  }

  lemma SettlesOn(st: State, live: set<u32>, st1: State, live1: set<u32>, r: Result, live2: set<u32>, ret: bool, a: u32)
    requires Moves(st, live, st1, live1, 0, a) && Settles(r, st1, live1, live2, ret, a)
    ensures Settles(r, st, live, live2, ret, a)
  {
    hide NoDip, Net, Held, Moves;
    match r
    case Done(o, st2, _) => MovesOn(st, live, st1, live1, 0, st2, live2, if o.Returning? then OwnedBy(o.v, ret, a) else 0, a);
    case Stop(_, trace) => StopsOn(st, live, st1, live1, trace, a);
    case NoResult =>
  }

  lemma StopsOn(st: State, live: set<u32>, st1: State, live1: set<u32>, trace: seq<Event>, a: u32)
    requires Moves(st, live, st1, live1, 0, a) && NoDip(st1.trace, trace, Net(st1.trace, a) - Held(st1.locals, live1, a), a)
    ensures NoDip(st.trace, trace, Net(st.trace, a) - Held(st.locals, live, a), a)
  {
    hide NoDip, Net, Held;
    DipOn(st.trace, st1.trace, trace, Net(st.trace, a) - Held(st.locals, live, a), Net(st1.trace, a) - Held(st1.locals, live1, a), a);
  }

  lemma EndedSettles(x: Value, st: State, live: set<u32>, owned: bool, live1: set<u32>, ret: bool, a: u32)
    requires Fair(x, st, live, owned, a) && !x.Val?
    ensures Settles(Ended(x), st, live, live1, ret, a) && !Leaves(Ended(x))
  {
  }

  lemma {:induction false} StmtBalances(w: World, prog: Program, gives: seq<bool>, live: set<u32>, conv: Conv, s: Stmt, ret: bool, st: State, fuel: nat, a: u32)
    requires TypedProgram(prog, gives) && TypedStmt(prog, gives, live, s, ret) && a != 0 && (ret ==> conv.Keep?)
    ensures Settles(Exec(w, prog, conv, s, st, fuel), st, live, LiveAfter(s, live), ret, a)
    ensures Leaves(Exec(w, prog, conv, s, st, fuel)) ==> MayLeave(s)
    decreases fuel, s, 2
  {
    hide Moves, NoDip, Net, Held, TypedFunction, Eval, ExecBlock, ExecLoop, ExecDo, ExecSwitch;
    StaysPut(st, live, a);
    match s
    case Skip =>
    case Break =>
    case Continue =>
    case Block(body) => BlockBalances(w, prog, gives, live, conv, body, ret, st, fuel, a);
    case VarDecl(_, _, _, _) => DeclBalances(w, prog, gives, live, conv, s, ret, st, fuel, a);
    case ExprStmt(e, isRef) =>
      ExprBalances(w, prog, gives, live, e, isRef, st, fuel, a);
      var x := Eval(w, prog, e, st, fuel);
      if !x.Val? { EndedSettles(x, st, live, isRef && ProducesRetained(e), live, ret, a); }
      else if isRef { ReleasesOwned(st, live, x.st, Low32(x.v), a); }
    case If(_, _) => IfBalances(w, prog, gives, live, conv, s, ret, st, fuel, a);
    case IfElse(_, _, _) => IfElseBalances(w, prog, gives, live, conv, s, ret, st, fuel, a);
    case While(c, b) => LoopBalances(w, prog, gives, live, Some(c), None, b, ret, st, fuel, a);
    case DoWhile(b, c) => DoBalances(w, prog, gives, live, b, c, ret, st, fuel, a);
    case For(_, _, _, _) => ForBalances(w, prog, gives, live, conv, s, ret, st, fuel, a);
    case Switch(_, _) => SwitchBalances(w, prog, gives, live, conv, s, ret, st, fuel, a);
    case Return(_, _) => ReturnBalances(w, prog, gives, live, conv, s, ret, st, fuel, a);
  }

  lemma {:induction false} DeclBalances(w: World, prog: Program, gives: seq<bool>, live: set<u32>, conv: Conv, s: Stmt, ret: bool, st: State, fuel: nat, a: u32)
    requires TypedProgram(prog, gives) && s.VarDecl? && TypedStmt(prog, gives, live, s, ret) && a != 0
    ensures Settles(ExecDecl(w, prog, conv, s, st, fuel), st, live, LiveAfter(s, live), ret, a)
    ensures !Leaves(ExecDecl(w, prog, conv, s, st, fuel))
    decreases fuel, s, 0
  {
    hide Moves, NoDip, Net, Held, TypedFunction, Eval, Narrow, ProducesRetained;
    StaysPut(st, live, a);
    if s.init.Some? {
      var e := s.init.value;
      var owned := s.isRef && ProducesRetained(e);
      ExprBalances(w, prog, gives, live, e, s.isRef, st, fuel, a);
      var x := Eval(w, prog, e, st, fuel);
      if !x.Val? {
        EndedSettles(x, st, live, owned, LiveAfter(s, live), ret, a);
      } else if s.slot < |st.locals| {
        DeclaredValue(s, live, x.v, ProducesRetained(e), st, x.st, a);
      }
    }
  }

  /** What a declaration makes of its initialiser's value. */
  lemma DeclaredValue(s: Stmt, live: set<u32>, v: u64, retained: bool, st: State, st1: State, a: u32)
    requires s.VarDecl? && s.slot !in live && s.slot < |st1.locals| && (s.isRef ==> s.conv.Keep?)
    requires Moves(st, live, st1, live, OwnedBy(v, s.isRef && retained, a), a)
    ensures var n := Narrow(s.conv, v);
            Moves(st, live, SetSlot(LogRetain(s.isRef && !retained, n, st1), s.slot, RetainIf(s.isRef && !retained, n)), LiveAfter(s, live), 0, a)
  {
    hide Moves, NoDip, Net, Held, Narrow;
    var retain, n := s.isRef && !retained, Narrow(s.conv, v);
    var st2 := LogRetain(retain, n, st1);
    if s.isRef {
      KeepsValue(v);
      Retains(retain, v, st1, live, a);
      MovesOn(st, live, st1, live, OwnedBy(v, retained, a), st2, live, if retain then Refers(v, a) else 0, a);
      Declares(st2, live, s.slot, RetainIf(retain, v), a);
      MovesOn(st, live, st2, live, Refers(v, a), SetSlot(st2, s.slot, RetainIf(retain, v)), live + {s.slot}, -(Refers(v, a) as int), a);
    } else {
      SetsOther(st1, live, s.slot, n, a);
      MovesOn(st, live, st1, live, 0, SetSlot(st1, s.slot, n), live, 0, a);
    }
  }

  lemma KeepsValue(v: u64)
    ensures Narrow(Keep, v) == v
  {
  }

  lemma {:induction false} IfBalances(w: World, prog: Program, gives: seq<bool>, live: set<u32>, conv: Conv, s: Stmt, ret: bool, st: State, fuel: nat, a: u32)
    requires TypedProgram(prog, gives) && s.If? && TypedStmt(prog, gives, live, s, ret) && a != 0 && (ret ==> conv.Keep?)
    ensures Settles(ExecIf(w, prog, conv, s, st, fuel), st, live, live, ret, a)
    ensures Leaves(ExecIf(w, prog, conv, s, st, fuel)) ==> MayLeave(s)
    decreases fuel, s, 0
  {
    hide Moves, NoDip, Net, Held, TypedFunction, Eval, Exec;
    ExprBalances(w, prog, gives, live, s.cond, false, st, fuel, a);
    var x := Eval(w, prog, s.cond, st, fuel);
    if !x.Val? {
      EndedSettles(x, st, live, false, live, ret, a);
    } else if x.v != 0 {
      StmtBalances(w, prog, gives, live, conv, s.thn, ret, x.st, fuel, a);
      SettlesOn(st, live, x.st, live, Exec(w, prog, conv, s.thn, x.st, fuel), live, ret, a);
    }
  }

  lemma {:induction false} IfElseBalances(w: World, prog: Program, gives: seq<bool>, live: set<u32>, conv: Conv, s: Stmt, ret: bool, st: State, fuel: nat, a: u32)
    requires TypedProgram(prog, gives) && s.IfElse? && TypedStmt(prog, gives, live, s, ret) && a != 0 && (ret ==> conv.Keep?)
    ensures Settles(ExecIfElse(w, prog, conv, s, st, fuel), st, live, live, ret, a)
    ensures Leaves(ExecIfElse(w, prog, conv, s, st, fuel)) ==> MayLeave(s)
    decreases fuel, s, 0
  {
    hide Moves, NoDip, Net, Held, TypedFunction, Eval, Exec;
    ExprBalances(w, prog, gives, live, s.cond, false, st, fuel, a);
    var x := Eval(w, prog, s.cond, st, fuel);
    if !x.Val? {
      EndedSettles(x, st, live, false, live, ret, a);
    } else {
      var arm := if x.v != 0 then s.thn else s.els;
      StmtBalances(w, prog, gives, live, conv, arm, ret, x.st, fuel, a);
      SettlesOn(st, live, x.st, live, Exec(w, prog, conv, arm, x.st, fuel), live, ret, a);
    }
  }

  lemma {:induction false} ForBalances(w: World, prog: Program, gives: seq<bool>, live: set<u32>, conv: Conv, s: Stmt, ret: bool, st: State, fuel: nat, a: u32)
    requires TypedProgram(prog, gives) && s.For? && TypedStmt(prog, gives, live, s, ret) && a != 0 && (ret ==> conv.Keep?)
    ensures Settles(ExecFor(w, prog, conv, s, st, fuel), st, live, live, ret, a)
    ensures Leaves(ExecFor(w, prog, conv, s, st, fuel)) ==> MayLeave(s)
    decreases fuel, s, 0
  {
    hide Moves, NoDip, Net, Held, TypedFunction, Eval, Exec, ExecLoop;
    StmtBalances(w, prog, gives, live, conv, s.start, ret, st, fuel, a);
    var r := Exec(w, prog, conv, s.start, st, fuel);
    if r.Done? && r.o == Normal {
      LoopBalances(w, prog, gives, live, s.guard, s.iter, s.loop, ret, r.st, fuel, a);
      SettlesOn(st, live, r.st, live, ExecLoop(w, prog, s.guard, s.iter, s.loop, r.st, fuel), live, ret, a);
    }
  }

  lemma {:induction false} SwitchBalances(w: World, prog: Program, gives: seq<bool>, live: set<u32>, conv: Conv, s: Stmt, ret: bool, st: State, fuel: nat, a: u32)
    requires TypedProgram(prog, gives) && s.Switch? && TypedStmt(prog, gives, live, s, ret) && a != 0
    ensures Settles(ExecSwitchStmt(w, prog, conv, s, st, fuel), st, live, live, ret, a)
    ensures Leaves(ExecSwitchStmt(w, prog, conv, s, st, fuel)) ==> MayLeave(s)
    decreases fuel, s, 0
  {
    hide Moves, NoDip, Net, Held, TypedFunction, Eval, ExecSwitch;
    ExprBalances(w, prog, gives, live, s.subject, false, st, fuel, a);
    var x := Eval(w, prog, s.subject, st, fuel);
    if !x.Val? {
      EndedSettles(x, st, live, false, live, ret, a);
    } else {
      DispatchBalances(w, prog, gives, live, x.v, s.cases, ret, x.st, fuel, a);
      SettlesOn(st, live, x.st, live, ExecSwitch(w, prog, x.v, s.cases, x.st, fuel), live, ret, a);
    }
  }

  lemma {:induction false} ReturnBalances(w: World, prog: Program, gives: seq<bool>, live: set<u32>, conv: Conv, s: Stmt, ret: bool, st: State, fuel: nat, a: u32)
    requires TypedProgram(prog, gives) && s.Return? && TypedStmt(prog, gives, live, s, ret) && a != 0 && (ret ==> conv.Keep?)
    ensures Settles(ExecReturn(w, prog, conv, s, st, fuel), st, live, live, ret, a)
    decreases fuel, s, 0
  {
    hide Moves, NoDip, Net, Held, TypedFunction, Eval, Narrow, ProducesRetained;
    StaysPut(st, live, a);
    if s.result.Some? {
      var e := s.result.value;
      ExprBalances(w, prog, gives, live, e, ret, st, fuel, a);
      var x := Eval(w, prog, e, st, fuel);
      if !x.Val? {
        EndedSettles(x, st, live, ret && ProducesRetained(e), live, ret, a);
      } else {
        var retain := ret && !ProducesRetained(e);
        KeepsValue(x.v);
        Retains(retain, x.v, x.st, live, a);
        MovesOn(st, live, x.st, live, OwnedBy(x.v, ret && ProducesRetained(e), a), LogRetain(retain, x.v, x.st), live, if retain then Refers(x.v, a) else 0, a);
      }
    }
  }

  lemma {:induction false} SeqBalances(w: World, prog: Program, gives: seq<bool>, live: set<u32>, conv: Conv, ss: Stmts, ret: bool, st: State, fuel: nat, a: u32)
    requires TypedProgram(prog, gives) && TypedSeq(prog, gives, live, ss, ret) && a != 0 && (ret ==> conv.Keep?)
    ensures Settles(ExecSeq(w, prog, conv, ss, st, fuel), st, live, live + Owns(ss), ret, a)
    ensures Leaves(ExecSeq(w, prog, conv, ss, st, fuel)) ==> MayLeaveSeq(ss)
    decreases fuel, ss, 0
  {
    hide Moves, NoDip, Net, Held, TypedFunction, TypedStmt, Exec, RefSlots;
    match ss
    case Nil =>
      assert live + {} == live;
      StaysPut(st, live, a);
    case Cons(s, rest) =>
      var next := LiveAfter(s, live);
      assert live + Owns(ss) == next + Owns(rest);
      StmtBalances(w, prog, gives, live, conv, s, ret, st, fuel, a);
      var r := Exec(w, prog, conv, s, st, fuel);
      if r.Done? && r.o == Normal {
        SeqBalances(w, prog, gives, next, conv, rest, ret, r.st, fuel, a);
        SettlesOn(st, live, r.st, next, ExecSeq(w, prog, conv, rest, r.st, fuel), next + Owns(rest), ret, a);
      } else if r.Done? {
        OwnsNone(rest);
        assert next + Owns(rest) == next;
      }
  }

  lemma {:induction false} BlockBalances(w: World, prog: Program, gives: seq<bool>, live: set<u32>, conv: Conv, body: Stmts, ret: bool, st: State, fuel: nat, a: u32)
    requires TypedProgram(prog, gives) && TypedSeq(prog, gives, live, body, ret) && a != 0 && (ret ==> conv.Keep?)
    ensures Settles(ExecBlock(w, prog, conv, body, st, fuel), st, live, live, ret, a)
    ensures Leaves(ExecBlock(w, prog, conv, body, st, fuel)) ==> MayLeaveSeq(body)
    decreases fuel, body, 1
  {
    hide Moves, NoDip, Net, Held, TypedFunction, TypedStmt, ExecSeq, RefSlots, ReleaseAll;
    SeqBalances(w, prog, gives, live, conv, body, ret, st, fuel, a);
    var r := ExecSeq(w, prog, conv, body, st, fuel);
    if r.Done? && InFrame(RefSlots(body), |st.locals|) {
      BlockEnds(prog, gives, live, body, ret, r.st, a);
      MovesOn(st, live, r.st, live + Owns(body), if r.o.Returning? then OwnedBy(r.o.v, ret, a) else 0, ReleaseAll(r.st, RefSlots(body)), live, 0, a);
    }
  }

  /** The block's own slots are released. */
  lemma BlockEnds(prog: Program, gives: seq<bool>, live: set<u32>, body: Stmts, ret: bool, st: State, a: u32)
    requires |gives| == |prog| && TypedSeq(prog, gives, live, body, ret) && a != 0 && InFrame(RefSlots(body), |st.locals|)
    ensures Moves(st, live + Owns(body), ReleaseAll(st, RefSlots(body)), live, 0, a)
  {
    hide Net, Held, RefSlots, ReleaseAll, TypedSeq;
    var st1 := ReleaseAll(st, RefSlots(body));
    OwnsHeld(prog, gives, live, body, ret, st.locals, a);
    ReleasesSlots(st, RefSlots(body), a);
  }

  lemma {:induction false} LoopBalances(w: World, prog: Program, gives: seq<bool>, live: set<u32>, guard: Option<Expr>, iter: Option<Expr>, b: Stmt, ret: bool, st: State, fuel: nat, a: u32)
    requires TypedProgram(prog, gives) && TypedInner(prog, gives, live, b, ret) && !MayReturn(b) && a != 0
    requires (guard.Some? ==> TypedExpr(prog, gives, live, guard.value, false)) && (iter.Some? ==> TypedExpr(prog, gives, live, iter.value, false))
    ensures Settles(ExecLoop(w, prog, guard, iter, b, st, fuel), st, live, live, ret, a) && !Leaves(ExecLoop(w, prog, guard, iter, b, st, fuel))
    decreases fuel, b, 2
  {
    hide Moves, NoDip, Net, Held, TypedFunction, TypedStmt, Eval, ExecRound;
    StaysPut(st, live, a);
    if fuel > 0 {
      if guard.Some? { ExprBalances(w, prog, gives, live, guard.value, false, st, fuel - 1, a); }
      var x := if guard.Some? then Eval(w, prog, guard.value, st, fuel - 1) else Val(1, st);
      if !x.Val? {
        EndedSettles(x, st, live, false, live, ret, a);
      } else if x.v != 0 {
        RoundBalances(w, prog, gives, live, guard, iter, b, ret, x.st, fuel, a);
        SettlesOn(st, live, x.st, live, ExecRound(w, prog, guard, iter, b, x.st, fuel), live, ret, a);
      }
    }
  }

  lemma {:induction false} RoundBalances(w: World, prog: Program, gives: seq<bool>, live: set<u32>, guard: Option<Expr>, iter: Option<Expr>, b: Stmt, ret: bool, st: State, fuel: nat, a: u32)
    requires TypedProgram(prog, gives) && TypedInner(prog, gives, live, b, ret) && !MayReturn(b) && a != 0 && fuel > 0
    requires (guard.Some? ==> TypedExpr(prog, gives, live, guard.value, false)) && (iter.Some? ==> TypedExpr(prog, gives, live, iter.value, false))
    ensures Settles(ExecRound(w, prog, guard, iter, b, st, fuel), st, live, live, ret, a) && !Leaves(ExecRound(w, prog, guard, iter, b, st, fuel))
    decreases fuel, b, 1
  {
    hide Moves, NoDip, Net, Held, TypedFunction, TypedStmt, Exec, ExecBack;
    StmtBalances(w, prog, gives, live, Keep, b, ret, st, fuel - 1, a);
    var r := Exec(w, prog, Keep, b, st, fuel - 1);
    if r.Done? && r.o != Breaking {
      BackBalances(w, prog, gives, live, guard, iter, b, ret, r.st, fuel, a);
      SettlesOn(st, live, r.st, live, ExecBack(w, prog, guard, iter, b, r.st, fuel), live, ret, a);
    }
  }

  lemma {:induction false} BackBalances(w: World, prog: Program, gives: seq<bool>, live: set<u32>, guard: Option<Expr>, iter: Option<Expr>, b: Stmt, ret: bool, st: State, fuel: nat, a: u32)
    requires TypedProgram(prog, gives) && TypedInner(prog, gives, live, b, ret) && !MayReturn(b) && a != 0 && fuel > 0
    requires (guard.Some? ==> TypedExpr(prog, gives, live, guard.value, false)) && (iter.Some? ==> TypedExpr(prog, gives, live, iter.value, false))
    ensures Settles(ExecBack(w, prog, guard, iter, b, st, fuel), st, live, live, ret, a) && !Leaves(ExecBack(w, prog, guard, iter, b, st, fuel))
    decreases fuel, b, 0
  {
    hide Moves, NoDip, Net, Held, TypedFunction, TypedStmt, Eval, ExecLoop;
    StaysPut(st, live, a);
    if iter.Some? { ExprBalances(w, prog, gives, live, iter.value, false, st, fuel - 1, a); }
    var y := if iter.Some? then Eval(w, prog, iter.value, st, fuel - 1) else Val(0, st);
    if !y.Val? {
      EndedSettles(y, st, live, false, live, ret, a);
    } else {
      LoopBalances(w, prog, gives, live, guard, iter, b, ret, y.st, fuel - 1, a);
      SettlesOn(st, live, y.st, live, ExecLoop(w, prog, guard, iter, b, y.st, fuel - 1), live, ret, a);
    }
  }

  lemma {:induction false} DoBalances(w: World, prog: Program, gives: seq<bool>, live: set<u32>, b: Stmt, c: Expr, ret: bool, st: State, fuel: nat, a: u32)
    requires TypedProgram(prog, gives) && TypedInner(prog, gives, live, b, ret) && !MayReturn(b) && TypedExpr(prog, gives, live, c, false) && a != 0
    ensures Settles(ExecDo(w, prog, b, c, st, fuel), st, live, live, ret, a) && !Leaves(ExecDo(w, prog, b, c, st, fuel))
    decreases fuel, b, 2
  {
    hide Moves, NoDip, Net, Held, TypedFunction, TypedStmt, Exec, Until;
    if fuel > 0 {
      StmtBalances(w, prog, gives, live, Keep, b, ret, st, fuel - 1, a);
      var r := Exec(w, prog, Keep, b, st, fuel - 1);
      if r.Done? && r.o != Breaking {
        UntilBalances(w, prog, gives, live, b, c, ret, r.st, fuel, a);
        SettlesOn(st, live, r.st, live, Until(w, prog, b, c, r.st, fuel), live, ret, a);
      }
    }
  }

  lemma {:induction false} UntilBalances(w: World, prog: Program, gives: seq<bool>, live: set<u32>, b: Stmt, c: Expr, ret: bool, st: State, fuel: nat, a: u32)
    requires TypedProgram(prog, gives) && TypedInner(prog, gives, live, b, ret) && !MayReturn(b) && TypedExpr(prog, gives, live, c, false) && a != 0 && fuel > 0
    ensures Settles(Until(w, prog, b, c, st, fuel), st, live, live, ret, a) && !Leaves(Until(w, prog, b, c, st, fuel))
    decreases fuel, b, 0
  {
    hide Moves, NoDip, Net, Held, TypedFunction, TypedStmt, Eval, ExecDo;
    ExprBalances(w, prog, gives, live, c, false, st, fuel - 1, a);
    var x := Eval(w, prog, c, st, fuel - 1);
    if !x.Val? {
      EndedSettles(x, st, live, false, live, ret, a);
    } else if x.v != 0 {
      DoBalances(w, prog, gives, live, b, c, ret, x.st, fuel - 1, a);
      SettlesOn(st, live, x.st, live, ExecDo(w, prog, b, c, x.st, fuel - 1), live, ret, a);
    }
  }

  lemma {:induction false} DispatchBalances(w: World, prog: Program, gives: seq<bool>, live: set<u32>, v: u64, cases: Cases, ret: bool, st: State, fuel: nat, a: u32)
    requires TypedProgram(prog, gives) && TypedCases(prog, gives, live, cases, ret) && !MayReturnCases(cases) && a != 0
    ensures Settles(ExecSwitch(w, prog, v, cases, st, fuel), st, live, live, ret, a)
    ensures Leaves(ExecSwitch(w, prog, v, cases, st, fuel)) ==> MayLeaveCases(cases)
    decreases fuel, cases, 1
  {
    hide Moves, NoDip, Net, Held, TypedFunction, TypedSeq, Eval, ExecCases;
    StaysPut(st, live, a);
    match cases
    case NoCase =>
    case Default(_) => CasesBalance(w, prog, gives, live, cases, ret, st, fuel, a);
    case Case(value, _, rest) =>
      ExprBalances(w, prog, gives, live, value, false, st, fuel, a);
      var x := Eval(w, prog, value, st, fuel);
      if !x.Val? {
        EndedSettles(x, st, live, false, live, ret, a);
      } else if x.v == v {
        CasesBalance(w, prog, gives, live, cases, ret, x.st, fuel, a);
        SettlesOn(st, live, x.st, live, ExecCases(w, prog, cases, x.st, fuel), live, ret, a);
      } else {
        DispatchBalances(w, prog, gives, live, v, rest, ret, x.st, fuel, a);
        SettlesOn(st, live, x.st, live, ExecSwitch(w, prog, v, rest, x.st, fuel), live, ret, a);
      }
  }

  lemma {:induction false} CasesBalance(w: World, prog: Program, gives: seq<bool>, live: set<u32>, cases: Cases, ret: bool, st: State, fuel: nat, a: u32)
    requires TypedProgram(prog, gives) && TypedCases(prog, gives, live, cases, ret) && !MayReturnCases(cases) && a != 0
    ensures Settles(ExecCases(w, prog, cases, st, fuel), st, live, live, ret, a)
    ensures Leaves(ExecCases(w, prog, cases, st, fuel)) ==> MayLeaveCases(cases)
    decreases fuel, cases, 0
  {
    hide Moves, NoDip, Net, Held, TypedFunction, TypedSeq, RefSlots, ExecSeq;
    StaysPut(st, live, a);
    match cases
    case NoCase =>
    case Default(body) =>
      OwnsNone(body);
      assert live + {} == live;
      SeqBalances(w, prog, gives, live, Keep, body, ret, st, fuel, a);
    case Case(_, body, rest) =>
      OwnsNone(body);
      assert live + {} == live;
      SeqBalances(w, prog, gives, live, Keep, body, ret, st, fuel, a);
      var r := ExecSeq(w, prog, Keep, body, st, fuel);
      if r.Done? && r.o == Normal {
        CasesBalance(w, prog, gives, live, rest, ret, r.st, fuel, a);
        SettlesOn(st, live, r.st, live, ExecCases(w, prog, rest, r.st, fuel), live, ret, a);
      }
  }

  // ------------------------------------------------------------------------------- calls

  /** Over a call that ends, the count of every block changes by the result it returns
      less the references passed to it; and it is never below what is left without those. */
  lemma {:induction false} CallBalances(w: World, prog: Program, gives: seq<bool>, fn: nat, vs: seq<u64>, st: State, fuel: nat, a: u32)
    requires TypedProgram(prog, gives) && fn < |prog| && a != 0
    ensures FairCall(Semantics.Call(w, prog, fn, vs, st, fuel), st, Held(vs, RefSet(prog[fn]), a), gives[fn], a)
    decreases fuel
  {
    hide Moves, NoDip, Net, Held, ExecBlock, ReleaseAll, TypedSeq, Settles, Entered;
    if |vs| == prog[fn].params as int {
      var f := prog[fn];
      var st0 := Entered(f, vs, st);
      assert TypedFunction(prog, gives, f, gives[fn]);
      BlockBalances(w, prog, gives, RefSet(f), BodyConv(f), f.body, gives[fn], st0, fuel, a);
      ParametersHeld(prog, gives, f, gives[fn], vs, st, a);
      var r := ExecBlock(w, prog, BodyConv(f), f.body, st0, fuel);
      NotEscaping(r, st0, RefSet(f), gives[fn], a);
      assert ExecBody(w, prog, f, st0, fuel) == r;
      if r.Done? && InFrame(f.refs, |r.st.locals|) {
        CallEnds(f, st0, r.st, if r.o.Returning? then OwnedBy(r.o.v, gives[fn], a) else 0, a);
      } else if r.Stop? {
        StoppedIn(r, st0, RefSet(f), gives[fn], a);
      }
    }
  }

  lemma NotEscaping(r: Result, st: State, live: set<u32>, ret: bool, a: u32)
    requires Settles(r, st, live, live, ret, a)
    ensures r.Done? ==> !r.o.Escaping? && !r.o.Throwing? && Moves(st, live, r.st, live, if r.o.Returning? then OwnedBy(r.o.v, ret, a) else 0, a)
  {
    hide Moves;
  }

  lemma StoppedIn(r: Result, st: State, live: set<u32>, ret: bool, a: u32)
    requires Settles(r, st, live, live, ret, a) && r.Stop?
    ensures NoDip(st.trace, r.trace, Net(st.trace, a) - Held(st.locals, live, a), a)
  {
    hide Moves, NoDip, Net, Held;
  }

  lemma ParametersHeld(prog: Program, gives: seq<bool>, f: Function, ret: bool, vs: seq<u64>, st: State, a: u32)
    requires |gives| == |prog| && TypedFunction(prog, gives, f, ret) && |vs| == f.params as int
    ensures Held(Entered(f, vs, st).locals, RefSet(f), a) == Held(vs, RefSet(f), a) && Entered(f, vs, st).trace == st.trace
  {
    hide TypedSeq;
    HeldSame(Entered(f, vs, st).locals, vs, RefSet(f), a);
  }

  /** At its end a function releases its parameters. */
  lemma CallEnds(f: Function, st: State, st1: State, owned: nat, a: u32)
    requires (forall i, j :: 0 <= i < j < |f.refs| ==> f.refs[i] != f.refs[j]) && InFrame(f.refs, |st1.locals|) && a != 0
    requires Moves(st, RefSet(f), st1, RefSet(f), owned, a)
    ensures Net(ReleaseAll(st1, f.refs).trace, a) == Net(st.trace, a) - Held(st.locals, RefSet(f), a) + owned
    ensures NoDip(st.trace, ReleaseAll(st1, f.refs).trace, Net(st.trace, a) - Held(st.locals, RefSet(f), a), a)
  {
    hide NoDip, Net, Held, ReleaseAll;
    RefsHeld(f.refs, RefSet(f), st1.locals, a);
    ReleasesSlots(st1, f.refs, a);
    var bound := Net(st.trace, a) - Held(st.locals, RefSet(f), a);
    DipOn(st.trace, st1.trace, ReleaseAll(st1, f.refs).trace, bound, bound + owned, a);
  }

  // --------------------------------------------------------- the conditions are needed

  /** while (true) { if (done) break; Object o = p; done = true; } with done, p and o in the
      slots 0 to 2. */
  const BREAK_FIRST := While(BoolLit(true), Block(BREAK_BODY))
  const BREAK_BODY := Cons(If(Local(0), Break), BREAK_REST)
  const BREAK_REST := Cons(VarDecl(2, true, Keep, Some(Local(1))), Cons(ExprStmt(Assign(0, Keep, IntLit(1)), false), Nil))

  /** A block that is left before a reference declaration releases what the slot held in the
      round before: p is counted up once and down twice. */
  lemma StaleSlotReleasedAgain(w: World, prog: Program, conv: Conv, p: u32, st: State)
    requires st.locals == [0, p as u64, 0] && p != 0
    ensures var r := Exec(w, prog, conv, BREAK_FIRST, st, 3);
            r.Done? && r.o == Normal && r.st.locals[1] == p as u64 && Net(r.st.trace, p) == Net(st.trace, p) - 1
  {
    hide Net, ExecBlock, ExecLoop, Eval;
    var st1 := State([1, p as u64, p as u64], st.exc, st.trace + [Retained(p)] + [Released(p)]);
    var st2 := st1.(trace := st1.trace + [Released(p)]);
    FirstRound(w, prog, p, st);
    SecondRound(w, prog, p, st1);
    TwoRounds(w, prog, st, st1, st2);
    NetMore(st.trace, Retained(p), p);
    NetMore(st.trace + [Retained(p)], Released(p), p);
    NetMore(st1.trace, Released(p), p);
    Escapes.WhileIsLoop(w, prog, conv, BoolLit(true), Block(BREAK_BODY), st, 3);
  }

  /** `Object o = p;` with p borrowed. */
  lemma DeclaresBorrowed(w: World, prog: Program, conv: Conv, from: u32, to: u32, p: u32, st: State, fuel: nat)
    requires from < |st.locals| && to < |st.locals| && st.locals[from] == p as u64
    ensures Exec(w, prog, conv, VarDecl(to, true, Keep, Some(Local(from))), st, fuel) ==
              Done(Normal, State(st.locals[to := p as u64], st.exc, st.trace + [Retained(p)]), [])
  {
    hide Narrow;
    var d := VarDecl(to, true, Keep, Some(Local(from)));
    KeepsValue(p as u64);
    assert Eval(w, prog, Local(from), st, fuel) == Val(p as u64, st);
    assert Exec(w, prog, conv, d, st, fuel) == ExecDecl(w, prog, conv, d, st, fuel);
  }

  lemma FirstRound(w: World, prog: Program, p: u32, st: State)
    requires st.locals == [0, p as u64, 0] && p != 0
    ensures ExecBlock(w, prog, Keep, BREAK_BODY, st, 2) ==
              Done(Normal, State([1, p as u64, p as u64], st.exc, st.trace + [Retained(p)] + [Released(p)]), [])
  {
    var set1 := BREAK_REST.tail.head;
    var st1 := State([0, p as u64, p as u64], st.exc, st.trace + [Retained(p)]);
    var st2 := st1.(locals := [1, p as u64, p as u64]);
    assert Exec(w, prog, Keep, BREAK_BODY.head, st, 2) == Done(Normal, st, []);
    DeclaresBorrowed(w, prog, Keep, 1, 2, p, st, 2);
    KeepsValue(1);
    assert Eval(w, prog, IntLit(1), st1, 2) == Val(1, st1);
    assert Eval(w, prog, set1.e, st1, 2) == Val(1, st2);
    assert Exec(w, prog, Keep, set1, st1, 2) == Done(Normal, st2, []);
    assert ExecSeq(w, prog, Keep, BREAK_REST.tail, st1, 2) == Done(Normal, st2, []);
    assert ExecSeq(w, prog, Keep, BREAK_REST, st, 2) == Done(Normal, st2, []);
    assert ExecSeq(w, prog, Keep, BREAK_BODY, st, 2) == Done(Normal, st2, []);
    BreakSlots(st2, p);
  }

  lemma BreakSlots(st: State, p: u32)
    requires |st.locals| == 3 && st.locals[2] == p as u64 && p != 0
    ensures RefSlots(BREAK_BODY) == [2] && InFrame([2], |st.locals|) && ReleaseAll(st, [2]) == Log(st, Released(p))
  {
    assert RefSlots(Nil) == [] && RefSlots(BREAK_REST.tail) == [] && RefSlots(BREAK_REST) == [2];
    assert RefSlots(BREAK_BODY) == [2] + [];
    assert ReleaseAll(Log(st, Released(p)), []) == Log(st, Released(p));
    assert [2][1..] == [];
  }

  lemma SecondRound(w: World, prog: Program, p: u32, st: State)
    requires st.locals == [1, p as u64, p as u64] && p != 0
    ensures ExecBlock(w, prog, Keep, BREAK_BODY, st, 1) == Done(Breaking, Log(st, Released(p)), [])
  {
    assert Exec(w, prog, Keep, Break, st, 1) == Done(Breaking, st, []);
    assert Exec(w, prog, Keep, BREAK_BODY.head, st, 1) == Done(Breaking, st, []);
    assert ExecSeq(w, prog, Keep, BREAK_BODY, st, 1) == Done(Breaking, st, []);
    BreakSlots(st, p);
  }

  lemma TwoRounds(w: World, prog: Program, st: State, st1: State, st2: State)
    requires ExecBlock(w, prog, Keep, BREAK_BODY, st, 2) == Done(Normal, st1, [])
    requires ExecBlock(w, prog, Keep, BREAK_BODY, st1, 1) == Done(Breaking, st2, [])
    ensures ExecLoop(w, prog, Some(BoolLit(true)), None, Block(BREAK_BODY), st, 3) == Done(Normal, st2, [])
  {
    hide ExecBlock;
    var b := Block(BREAK_BODY);
    assert Eval(w, prog, BoolLit(true), st, 2) == Val(1, st) && Eval(w, prog, BoolLit(true), st1, 1) == Val(1, st1);
    assert Exec(w, prog, Keep, b, st, 2) == Done(Normal, st1, []) && Exec(w, prog, Keep, b, st1, 1) == Done(Breaking, st2, []);
    hide Exec;
    assert ExecRound(w, prog, Some(BoolLit(true)), None, b, st1, 2) == Done(Normal, st2, []);
    assert ExecLoop(w, prog, Some(BoolLit(true)), None, b, st1, 2) == Done(Normal, st2, []);
    assert ExecBack(w, prog, Some(BoolLit(true)), None, b, st1, 3) == Done(Normal, st2, []);
    assert ExecRound(w, prog, Some(BoolLit(true)), None, b, st, 3) == Done(Normal, st2, []);
  }

  /** A declaration without initialiser leaves the slot as it is, and the block releases it. */
  lemma UnsetSlotReleased(w: World, prog: Program, conv: Conv, p: u32, st: State, fuel: nat)
    requires st.locals == [p as u64] && p != 0
    ensures var r := ExecBlock(w, prog, conv, Cons(VarDecl(0, true, Keep, None), Nil), st, fuel);
            r == Done(Normal, Log(st, Released(p)), []) && Net(r.st.trace, p) == Net(st.trace, p) - 1
  {
    hide Net;
    var d := VarDecl(0, true, Keep, None);
    assert ExecDecl(w, prog, conv, d, st, fuel) == Done(Normal, st, []);
    assert Exec(w, prog, conv, d, st, fuel) == Done(Normal, st, []);
    assert ExecSeq(w, prog, conv, Cons(d, Nil), st, fuel) == Done(Normal, st, []);
    assert RefSlots(Cons(d, Nil)) == [] + [0] == [0];
    assert ReleaseAll(Log(st, Released(p)), []) == Log(st, Released(p)) && [0][1..] == [];
    NetMore(st.trace, Released(p), p);
  }

  /** The expression statement `p;` releases a reference that p's slot goes on holding. */
  lemma StatementReleasesBorrowed(w: World, prog: Program, conv: Conv, p: u32, st: State, fuel: nat)
    requires st.locals == [p as u64]
    ensures var r := Exec(w, prog, conv, ExprStmt(Local(0), true), st, fuel);
            r.Done? && r.o == Normal && r.st.locals == st.locals && Net(r.st.trace, p) == Net(st.trace, p) - 1
  {
    hide Net;
    assert Eval(w, prog, Local(0), st, fuel) == Val(p as u64, st);
    NetMore(st.trace, Released(p), p);
  }

  /** A reference declared directly in a case is never released. */
  lemma CaseKeepsReference(w: World, prog: Program, conv: Conv, p: u32, st: State, fuel: nat)
    requires st.locals == [p as u64, 0] && p != 0
    ensures var r := Exec(w, prog, conv, Switch(IntLit(0), Default(Cons(VarDecl(1, true, Keep, Some(Local(0))), Nil))), st, fuel);
            r.Done? && r.o == Normal && Net(r.st.trace, p) == Net(st.trace, p) + 1
  {
    var d := VarDecl(1, true, Keep, Some(Local(0)));
    var cases := Default(Cons(d, Nil));
    var st1 := State([p as u64, p as u64], st.exc, st.trace + [Retained(p)]);
    hide Net, ExecDecl, ExecSwitch;
    DeclaresBorrowed(w, prog, Keep, 0, 1, p, st, fuel);
    CaseRuns(w, prog, d, st, st1, fuel);
    assert Eval(w, prog, IntLit(0), st, fuel) == Val(0, st);
    assert ExecSwitchStmt(w, prog, conv, Switch(IntLit(0), cases), st, fuel) == Done(Normal, st1, []);
    NetMore(st.trace, Retained(p), p);
  }

  lemma CaseRuns(w: World, prog: Program, d: Stmt, st: State, st1: State, fuel: nat)
    requires Exec(w, prog, Keep, d, st, fuel) == Done(Normal, st1, [])
    ensures ExecSwitch(w, prog, 0, Default(Cons(d, Nil)), st, fuel) == Done(Normal, st1, [])
  {
    hide Exec, Eval;
    var cases := Default(Cons(d, Nil));
    assert ExecSeq(w, prog, Keep, Nil, st1, fuel) == Done(Normal, st1, []);
    assert ExecSeq(w, prog, Keep, Cons(d, Nil), st, fuel) == Done(Normal, st1, []);
    assert ExecCases(w, prog, cases, st, fuel) == Done(Normal, st1, []);
  }

  /** Throwing what a local holds and catching it gives up a reference that the local goes on
      holding. */
  lemma ThrowGivesUpBorrowed(w: World, prog: Program, conv: Conv, p: u32, classId: u32, st: State, fuel: nat)
    requires st.locals == [p as u64, 0] && p != 0 && IsInstance(w, st.trace + [Retained(p)], p, classId)
    ensures var r := Exec(w, prog, conv, Try(Cons(Throw(Local(0)), Nil), Clause(classId, 1, Nil, NoClause), None), st, fuel);
            r.Done? && r.o == Normal && r.st.locals[0] == p as u64 && Net(r.st.trace, p) == Net(st.trace, p) - 1
  {
    hide IsInstance, Net, ExecBlock, ExecSeq;
    var t, clauses := Throw(Local(0)), Clause(classId, 1, Nil, NoClause);
    var s := Try(Cons(t, Nil), clauses, None);
    var thrown := State(st.locals, p, st.trace + [Retained(p)]);
    var caught := Caught(thrown, 1);
    ThrowsLocal(w, prog, conv, p, st, fuel);
    NothingReleased(w, prog, conv, t, st, thrown, caught, fuel);
    assert ExecClauses(w, prog, conv, clauses, thrown, fuel) == Done(Normal, Log(caught, Released(p)), []);
    assert Guarded(w, prog, conv, s, st, fuel) == Done(Normal, Log(caught, Released(p)), []);
    assert Exec(w, prog, conv, s, st, fuel) == ExecTry(w, prog, conv, s, st, fuel);
    NetMore(st.trace, Retained(p), p);
    NetMore(thrown.trace, Released(p), p);
    NetMore(caught.trace, Released(p), p);
  }

  lemma ThrowsLocal(w: World, prog: Program, conv: Conv, p: u32, st: State, fuel: nat)
    requires |st.locals| > 0 && st.locals[0] == p as u64 && p != 0
    ensures ExecSeq(w, prog, conv, Cons(Throw(Local(0)), Nil), st, fuel) == Done(Throwing, State(st.locals, p, st.trace + [Retained(p)]), [])
  {
    var t := Throw(Local(0));
    assert Eval(w, prog, Local(0), st, fuel) == Val(p as u64, st);
    assert Exec(w, prog, conv, t, st, fuel) == ExecThrow(w, prog, conv, t, st, fuel);
  }

  lemma NothingReleased(w: World, prog: Program, conv: Conv, t: Stmt, st: State, st1: State, st2: State, fuel: nat)
    requires t.Throw? && ExecSeq(w, prog, conv, Cons(t, Nil), st, fuel) == Done(Throwing, st1, [])
    ensures ExecBlock(w, prog, conv, Cons(t, Nil), st, fuel) == Done(Throwing, st1, [])
    ensures ExecBlock(w, prog, conv, Nil, st2, fuel) == Done(Normal, st2, [])
  {
    assert RefSlots(Cons(t, Nil)) == [] + [] == [];
    assert ReleaseAll(st1, []) == st1 && ReleaseAll(st2, []) == st2;
    assert ExecSeq(w, prog, conv, Nil, st2, fuel) == Done(Normal, st2, []);
  }
}
