/** The machine running emitted code follows the source semantics: expressions,
    statements, calls, exceptions and finally blocks. */
module Simulation {
  import opened Options
  import opened Words
  import opened Instructions
  import opened Syntax
  import opened Semantics
  import opened VirtualMachine
  import opened CodeLayout
  import opened Stepping

  // ------------------------------------------------------------------ invariants

  /** Every registered return address maps to the cleanup its call site names. */
  ghost predicate Registered(k: Image, cm: map<u32, u32>) {
    forall r :: r in cm ==> SiteOf(k, r, cm[r])
  }

  ghost predicate SiteOf(k: Image, r: u32, cleanup: u32) {
    r >= 10 && InstrAt(k.at, r - 10, RegisterReturnCleanup(r, cleanup))
  }

  ghost predicate Grown(k: Image, cm: map<u32, u32>, cm1: map<u32, u32>) {
    Registered(k, cm1) && cm.Keys <= cm1.Keys
  }

  /** The standing facts while a function runs. */
  ghost predicate Ready(k: Image, env: Env, c: Activation, cm: map<u32, u32>) {
    Linked(k) && InFunction(c) && env.fns == k.fns && env.cleanup != HOLE && Registered(k, cm)
  }

  /** A machine about to evaluate e at p. */
  ghost predicate AtExpr(k: Image, e: Expr, env: Env, c: Activation, p: nat, cm: map<u32, u32>) {
    Ready(k, env, c, cm) && ExprAt(k.at, p, e, env) && p + SizeExpr(e) <= |k.code|
  }

  ghost predicate AtArgs(k: Image, args: Args, env: Env, c: Activation, p: nat, cm: map<u32, u32>) {
    Ready(k, env, c, cm) && ArgsAt(k.at, p, args, env) && p + SizeArgs(args) <= |k.code|
  }

  /** From m, an expression's result r shows as: its value on top of temps at
      `end`; or, raised, the enclosing cleanup entered over the operands left
      behind; or the fault. */
  ghost predicate Yields(k: Image, m: Machine, c: Activation, cleanup: u32, end: nat, temps: seq<u64>,
                         cm1: map<u32, u32>, r: Value)
  {
    match r
    case Val(v, st1) => Gets(k, m, Next(Mk(c, end, st1, temps + [v], cm1)))
    case Raised(st1, left) => Gets(k, m, Next(Mk(c, cleanup, st1, temps + left, cm1)))
    case Fail(err, trace) => Gets(k, m, Fault(err, trace))
    case NoValue => true
  }

  ghost predicate YieldsAll(k: Image, m: Machine, c: Activation, cleanup: u32, end: nat, temps: seq<u64>,
                            cm1: map<u32, u32>, r: Values)
  {
    match r
    case Vals(vs, st1) => Gets(k, m, Next(Mk(c, end, st1, temps + vs, cm1)))
    case ArgRaised(st1, left) => Gets(k, m, Next(Mk(c, cleanup, st1, temps + left, cm1)))
    case ArgFail(err, trace) => Gets(k, m, Fault(err, trace))
    case NoValues => true
  }

  lemma AddrIs(k: Image, x: nat)
    requires Linked(k) && x <= |k.code|
    ensures Addr(x) == x && Addr(x) != HOLE
  {
    hide FunctionLinked, WfProgram, Lists;
  }

  /** Evaluating after reaching m1 with operands pending. */
  lemma Resume(k: Image, m: Machine, m1: Machine, c: Activation, cleanup: u32, end: nat,
               temps: seq<u64>, below: seq<u64>, cm1: map<u32, u32>, r: Value)
    requires Gets(k, m, Next(m1)) && Yields(k, m1, c, cleanup, end, temps + below, cm1, r)
    ensures !r.Val? ==> Yields(k, m, c, cleanup, end, temps, cm1, Under(below, r))
    ensures r.Val? ==> Gets(k, m, Next(Mk(c, end, r.st, temps + below + [r.v], cm1)))
  {
    hide Mk, Goes;
    match r
    case Val(v, st1) => Then(k, m, m1, Next(Mk(c, end, st1, temps + below + [v], cm1)));
    case Raised(st1, left) =>
      assert temps + below + left == temps + (below + left);
      Then(k, m, m1, Next(Mk(c, cleanup, st1, temps + (below + left), cm1)));
    case Fail(err, trace) => Then(k, m, m1, Fault(err, trace));
    case NoValue =>
  }

  /** Evaluating as the last thing: the whole inherits the result. */
  lemma Finally(k: Image, m: Machine, m1: Machine, c: Activation, cleanup: u32, end: nat,
                temps: seq<u64>, cm1: map<u32, u32>, r: Value)
    requires Gets(k, m, Next(m1)) && Yields(k, m1, c, cleanup, end, temps, cm1, r)
    ensures Yields(k, m, c, cleanup, end, temps, cm1, r)
  {
    hide Mk, Goes;
    match r
    case Val(v, st1) => Then(k, m, m1, Next(Mk(c, end, st1, temps + [v], cm1)));
    case Raised(st1, left) => Then(k, m, m1, Next(Mk(c, cleanup, st1, temps + left, cm1)));
    case Fail(err, trace) => Then(k, m, m1, Fault(err, trace));
    case NoValue =>
  }

  // ----------------------------------------------------------------- expressions

  lemma SimExpr(k: Image, e: Expr, env: Env, c: Activation, p: nat, st: State, temps: seq<u64>, cm: map<u32, u32>, fuel: nat)
    returns (cm1: map<u32, u32>)
    requires AtExpr(k, e, env, c, p, cm)
    ensures Grown(k, cm, cm1)
    ensures Yields(k, Mk(c, p, st, temps, cm), c, env.cleanup, p + SizeExpr(e), temps, cm1, Eval(k.w, k.prog, e, st, fuel))
    decreases fuel, e, 1
  {
    hide Mk, Goes, Linked, Yields, CallAt, EvalArith, EvalShortCircuit, EvalTernary, EvalAssignRef, EvalAssignOp, EvalIncDec, EvalInvoke, EvalNew,
         ArithAt, ShortCircuitAt, TernaryAt, AssignRefAt, AssignOpAt, IncDecAt, NewAt, ArgsAt, SizeArgs, Registered;
    cm1 := cm;
    match e
    case IntLit(v) => SimLeaf(k, e, env, c, p, st, temps, cm, fuel);
    case BoolLit(_) => SimLeaf(k, e, env, c, p, st, temps, cm, fuel);
    case Null => SimLeaf(k, e, env, c, p, st, temps, cm, fuel);
    case Local(_) => SimLeaf(k, e, env, c, p, st, temps, cm, fuel);
    case Arith(_, _, _) => cm1 := SimArith(k, e, env, c, p, st, temps, cm, fuel);
    case And(_, _) => cm1 := SimShortCircuit(k, e, env, c, p, st, temps, cm, fuel);
    case Or(_, _) => cm1 := SimShortCircuit(k, e, env, c, p, st, temps, cm, fuel);
    case Not(_) => cm1 := SimNot(k, e, env, c, p, st, temps, cm, fuel);
    case Negate(_, _) => cm1 := SimNegate(k, e, env, c, p, st, temps, cm, fuel);
    case Ternary(_, _, _, _) => cm1 := SimTernary(k, e, env, c, p, st, temps, cm, fuel);
    case Assign(_, _, _) => cm1 := SimAssign(k, e, env, c, p, st, temps, cm, fuel);
    case AssignRef(_, _) => cm1 := SimAssignRef(k, e, env, c, p, st, temps, cm, fuel);
    case AssignOp(_, _, _, _) => cm1 := SimAssignOp(k, e, env, c, p, st, temps, cm, fuel);
    case IncDec(_, _, _) => SimIncDec(k, e, env, c, p, st, temps, cm, fuel);
    case Invoke(_, _) => cm1 := SimInvoke(k, e, env, c, p, st, temps, cm, fuel);
    case New(_, _, _, _) => cm1 := SimNew(k, e, env, c, p, st, temps, cm, fuel);
  }

  lemma SimLeaf(k: Image, e: Expr, env: Env, c: Activation, p: nat, st: State, temps: seq<u64>, cm: map<u32, u32>, fuel: nat)
    requires AtExpr(k, e, env, c, p, cm) && (e.IntLit? || e.BoolLit? || e.Null? || e.Local?)
    ensures Yields(k, Mk(c, p, st, temps, cm), c, env.cleanup, p + SizeExpr(e), temps, cm, Eval(k.w, k.prog, e, st, fuel))
  {
    hide Mk, Goes, Linked, CallAt, EvalArith, EvalShortCircuit, EvalTernary, EvalAssignRef, EvalAssignOp, EvalIncDec, EvalInvoke, EvalNew;
    var r := Eval(k.w, k.prog, e, st, fuel);
    if r.Val? {
      DoPush(k, k.at[p], r.v, c, p, st, temps, cm);
    }
  }

  lemma SimArith(k: Image, e: Expr, env: Env, c: Activation, p: nat, st: State, temps: seq<u64>, cm: map<u32, u32>, fuel: nat)
    returns (cm1: map<u32, u32>)
    requires Ready(k, env, c, cm) && e.Arith? && ArithAt(k.at, p, e, env) && p + SizeExpr(e.left) + SizeExpr(e.right) + 1 <= |k.code|
    ensures Grown(k, cm, cm1)
    ensures Yields(k, Mk(c, p, st, temps, cm), c, env.cleanup, p + SizeExpr(e.left) + SizeExpr(e.right) + 1, temps, cm1, EvalArith(k.w, k.prog, e, st, fuel))
    decreases fuel, e, 0
  {
    hide Registered, Mk, Goes, Linked, CallAt, EvalShortCircuit, EvalTernary, EvalAssignRef, EvalAssignOp, EvalIncDec, EvalInvoke, EvalNew, Apply,
         Eval, ExprAt, SizeExpr;
    var m := Mk(c, p, st, temps, cm);
    var q := p + SizeExpr(e.left);
    cm1 := SimExpr(k, e.left, env, c, p, st, temps, cm, fuel);
    var x := Eval(k.w, k.prog, e.left, st, fuel);
    if x.Val? {
      var m1 := Mk(c, q, x.st, temps + [x.v], cm1);
      cm1 := SimExpr(k, e.right, env, c, q, x.st, temps + [x.v], cm1, fuel);
      var y := Eval(k.w, k.prog, e.right, x.st, fuel);
      var q1 := q + SizeExpr(e.right);
      Resume(k, m, m1, c, env.cleanup, q1, temps, [x.v], cm1, y);
      if y.Val? {
        DoApply(k, e.op, x.v, y.v, c, q1, y.st, temps, cm1);
        Then(k, m, Mk(c, q1, y.st, temps + [x.v] + [y.v], cm1),
             if DividesByZero(e.op, y.v) then Fault(DivisionByZero, y.st.trace)
             else Next(Mk(c, q1 + 1, y.st, temps + [Apply(e.op, x.v, y.v)], cm1)));
      }
    }
  }

  lemma SimShortCircuit(k: Image, e: Expr, env: Env, c: Activation, p: nat, st: State, temps: seq<u64>, cm: map<u32, u32>, fuel: nat)
    returns (cm1: map<u32, u32>)
    requires Ready(k, env, c, cm) && (e.And? || e.Or?) && ShortCircuitAt(k.at, p, e, env) && p + SizeExpr(e.left) + 7 + SizeExpr(e.right) <= |k.code|
    ensures Grown(k, cm, cm1)
    ensures Yields(k, Mk(c, p, st, temps, cm), c, env.cleanup, p + SizeExpr(e.left) + 7 + SizeExpr(e.right), temps, cm1, EvalShortCircuit(k.w, k.prog, e, st, fuel))
    decreases fuel, e, 0
  {
    hide Registered, Mk, Goes, Linked, CallAt, EvalArith, EvalTernary, EvalAssignRef, EvalAssignOp, EvalIncDec, EvalInvoke, EvalNew, Eval, ExprAt,
         SizeExpr, Addr;
    var m := Mk(c, p, st, temps, cm);
    var q := p + SizeExpr(e.left);
    cm1 := SimExpr(k, e.left, env, c, p, st, temps, cm, fuel);
    var x := Eval(k.w, k.prog, e.left, st, fuel);
    if x.Val? {
      var end := q + 7 + SizeExpr(e.right);
      AddrIs(k, end);
      var taken := if (x.v == 0) == e.And? then end else q + 6;
      DoDup(k, c, q, x.st, temps, x.v, cm1);
      DoBranch(k, e.And?, Addr(end), x.v, c, q + 1, x.st, temps + [x.v], cm1);
      Then(k, m, Mk(c, q, x.st, temps + [x.v], cm1), Next(Mk(c, q + 1, x.st, temps + [x.v] + [x.v], cm1)));
      Then(k, m, Mk(c, q + 1, x.st, temps + [x.v] + [x.v], cm1), Next(Mk(c, taken, x.st, temps + [x.v], cm1)));
      if taken != end {
        DoDrop(k, c, q + 6, x.st, temps, x.v, cm1);
        Then(k, m, Mk(c, q + 6, x.st, temps + [x.v], cm1), Next(Mk(c, q + 7, x.st, temps, cm1)));
        var m1 := Mk(c, q + 7, x.st, temps, cm1);
        cm1 := SimExpr(k, e.right, env, c, q + 7, x.st, temps, cm1, fuel);
        Finally(k, m, m1, c, env.cleanup, end, temps, cm1, Eval(k.w, k.prog, e.right, x.st, fuel));
      }
    }
  }

  lemma SimNot(k: Image, e: Expr, env: Env, c: Activation, p: nat, st: State, temps: seq<u64>, cm: map<u32, u32>, fuel: nat)
    returns (cm1: map<u32, u32>)
    requires AtExpr(k, e, env, c, p, cm) && e.Not?
    ensures Grown(k, cm, cm1)
    ensures Yields(k, Mk(c, p, st, temps, cm), c, env.cleanup, p + SizeExpr(e), temps, cm1, Eval(k.w, k.prog, e, st, fuel))
    decreases fuel, e, 0
  {
    hide Mk, Goes, Linked, CallAt, EvalArith, EvalShortCircuit, EvalTernary, EvalAssignRef, EvalAssignOp, EvalIncDec, EvalInvoke, EvalNew;
    var m := Mk(c, p, st, temps, cm);
    var q := p + SizeExpr(e.operand);
    cm1 := SimExpr(k, e.operand, env, c, p, st, temps, cm, fuel);
    var x := Eval(k.w, k.prog, e.operand, st, fuel);
    if x.Val? {
      DoMap(k, LogicalNot, x.v, Truth(x.v == 0), c, q, x.st, temps, cm1);
      Then(k, m, Mk(c, q, x.st, temps + [x.v], cm1), Next(Mk(c, q + 1, x.st, temps + [Truth(x.v == 0)], cm1)));
    }
  }

  lemma SimNegate(k: Image, e: Expr, env: Env, c: Activation, p: nat, st: State, temps: seq<u64>, cm: map<u32, u32>, fuel: nat)
    returns (cm1: map<u32, u32>)
    requires AtExpr(k, e, env, c, p, cm) && e.Negate?
    ensures Grown(k, cm, cm1)
    ensures Yields(k, Mk(c, p, st, temps, cm), c, env.cleanup, p + SizeExpr(e), temps, cm1, Eval(k.w, k.prog, e, st, fuel))
    decreases fuel, e, 0
  {
    hide Mk, Goes, Linked, CallAt, EvalArith, EvalShortCircuit, EvalTernary, EvalAssignRef, EvalAssignOp, EvalIncDec, EvalInvoke, EvalNew, Narrow,
         Wrap;
    var m := Mk(c, p, st, temps, cm);
    var q := p + SizeExpr(e.operand);
    cm1 := SimExpr(k, e.operand, env, c, p, st, temps, cm, fuel);
    var x := Eval(k.w, k.prog, e.operand, st, fuel);
    if x.Val? {
      var v := Wrap(-(x.v as int));
      DoMap(k, NegateI64, x.v, v, c, q, x.st, temps, cm1);
      Then(k, m, Mk(c, q, x.st, temps + [x.v], cm1), Next(Mk(c, q + 1, x.st, temps + [v], cm1)));
      DoConv(k, e.conv, v, c, q + 1, x.st, temps, cm1);
      Then(k, m, Mk(c, q + 1, x.st, temps + [v], cm1),
           Next(Mk(c, q + 1 + ConvSize(e.conv), x.st, temps + [Narrow(e.conv, v)], cm1)));
    }
  }

  /** A branch and the INC_REF that may follow it. */
  lemma SimKept(k: Image, e: Expr, retain: bool, env: Env, c: Activation, p: nat, st: State, temps: seq<u64>, cm: map<u32, u32>, fuel: nat)
    returns (cm1: map<u32, u32>)
    requires AtExpr(k, e, env, c, p, cm) && IncRefAt(k.at, p + SizeExpr(e), retain)
    ensures Grown(k, cm, cm1)
    ensures Yields(k, Mk(c, p, st, temps, cm), c, env.cleanup, p + SizeExpr(e) + FlagSize(retain), temps, cm1,
                   Kept(retain, Eval(k.w, k.prog, e, st, fuel)))
    decreases fuel, e, 2
  {
    hide Mk, Goes, Linked, Eval, ExprAt;
    cm1 := SimExpr(k, e, env, c, p, st, temps, cm, fuel);
    var x := Eval(k.w, k.prog, e, st, fuel);
    if x.Val? {
      var q := p + SizeExpr(e);
      DoRetainIf(k, retain, x.v, c, q, x.st, temps, cm1);
      Then(k, Mk(c, p, st, temps, cm), Mk(c, q, x.st, temps + [x.v], cm1),
           Next(Mk(c, q + FlagSize(retain), LogRetain(retain, x.v, x.st), temps + [RetainIf(retain, x.v)], cm1)));
    }
  }

  lemma SimTernary(k: Image, e: Expr, env: Env, c: Activation, p: nat, st: State, temps: seq<u64>, cm: map<u32, u32>, fuel: nat)
    returns (cm1: map<u32, u32>)
    requires Ready(k, env, c, cm) && e.Ternary? && TernaryAt(k.at, p, e, env) && p + SizeTernary(e) <= |k.code|
    ensures Grown(k, cm, cm1)
    ensures Yields(k, Mk(c, p, st, temps, cm), c, env.cleanup, p + SizeTernary(e), temps, cm1, EvalTernary(k.w, k.prog, e, st, fuel))
    decreases fuel, e, 0
  {
    hide Registered, Addr, FlagSize, Mk, Goes, Linked, Eval, ExprAt, Kept, SizeExpr, ProducesRetained, TernaryAt, SizeTernary, RetainsFirst, IncRefAt;
    TernaryParts(k.at, p, e, env);
    var m := Mk(c, p, st, temps, cm);
    var q := p + SizeExpr(e.cond);
    cm1 := SimExpr(k, e.cond, env, c, p, st, temps, cm, fuel);
    var x := Eval(k.w, k.prog, e.cond, st, fuel);
    if x.Val? {
      var keepYes, keepNo := e.isRef && RetainsFirst(e.yes, e.no), e.isRef && RetainsFirst(e.no, e.yes);
      var q2 := q + 5 + SizeExpr(e.yes) + FlagSize(keepYes);
      var end := p + SizeTernary(e);
      AddrIs(k, q2 + 5);
      AddrIs(k, end);
      var start := if x.v == 0 then q2 + 5 else q + 5;
      var m1 := Mk(c, start, x.st, temps, cm1);
      DoBranch(k, true, Addr(q2 + 5), x.v, c, q, x.st, temps, cm1);
      Then(k, m, Mk(c, q, x.st, temps + [x.v], cm1), Next(m1));
      if x.v != 0 {
        cm1 := SimYes(k, m, e.yes, keepYes, env, c, start, end, x.st, temps, cm1, fuel);
      } else {
        cm1 := SimKept(k, e.no, keepNo, env, c, start, x.st, temps, cm1, fuel);
        Finally(k, m, m1, c, env.cleanup, end, temps, cm1, Kept(keepNo, Eval(k.w, k.prog, e.no, x.st, fuel)));
      }
    }
  }

  lemma TernaryParts(at: Listing, p: nat, e: Expr, env: Env)
    requires e.Ternary? && TernaryAt(at, p, e, env)
    ensures var keepYes, keepNo := e.isRef && RetainsFirst(e.yes, e.no), e.isRef && RetainsFirst(e.no, e.yes);
            var q := p + SizeExpr(e.cond);
            var q2 := q + 5 + SizeExpr(e.yes) + FlagSize(keepYes);
            var end := p + SizeTernary(e);
            end == q2 + 5 + SizeExpr(e.no) + FlagSize(keepNo) &&
            ExprAt(at, p, e.cond, env) && InstrAt(at, q, JumpIfFalse(Addr(q2 + 5))) &&
            ExprAt(at, q + 5, e.yes, env) && IncRefAt(at, q + 5 + SizeExpr(e.yes), keepYes) && InstrAt(at, q2, Jump(Addr(end))) &&
            ExprAt(at, q2 + 5, e.no, env) && IncRefAt(at, q2 + 5 + SizeExpr(e.no), keepNo)
  {
    hide ExprAt, SizeExpr, RetainsFirst, IncRefAt, FlagSize, Addr;
  }

  /** The first arm of a conditional, and the jump over the second. */
  lemma SimYes(k: Image, m: Machine, e: Expr, retain: bool, env: Env, c: Activation, p: nat, end: nat, st: State, temps: seq<u64>, cm: map<u32, u32>, fuel: nat)
    returns (cm1: map<u32, u32>)
    requires Ready(k, env, c, cm) && Gets(k, m, Next(Mk(c, p, st, temps, cm)))
    requires ExprAt(k.at, p, e, env) && IncRefAt(k.at, p + SizeExpr(e), retain) && p + SizeExpr(e) + FlagSize(retain) <= end <= |k.code|
    requires InstrAt(k.at, p + SizeExpr(e) + FlagSize(retain), Jump(Addr(end)))
    ensures Grown(k, cm, cm1)
    ensures Yields(k, m, c, env.cleanup, end, temps, cm1, Kept(retain, Eval(k.w, k.prog, e, st, fuel)))
    decreases fuel, e, 3
  {
    hide Registered, Addr, FlagSize, Mk, Goes, Linked, Eval, ExprAt, Kept, SizeExpr, ProducesRetained;
    var q := p + SizeExpr(e) + FlagSize(retain);
    var r := Kept(retain, Eval(k.w, k.prog, e, st, fuel));
    cm1 := SimKept(k, e, retain, env, c, p, st, temps, cm, fuel);
    Finally(k, m, Mk(c, p, st, temps, cm), c, env.cleanup, q, temps, cm1, r);
    AddrIs(k, end);
    if r.Val? {
      DoJump(k, Addr(end), c, q, r.st, temps + [r.v], cm1);
      Then(k, m, Mk(c, q, r.st, temps + [r.v], cm1), Next(Mk(c, end, r.st, temps + [r.v], cm1)));
    }
  }

  lemma SimAssign(k: Image, e: Expr, env: Env, c: Activation, p: nat, st: State, temps: seq<u64>, cm: map<u32, u32>, fuel: nat)
    returns (cm1: map<u32, u32>)
    requires AtExpr(k, e, env, c, p, cm) && e.Assign?
    ensures Grown(k, cm, cm1)
    ensures Yields(k, Mk(c, p, st, temps, cm), c, env.cleanup, p + SizeExpr(e), temps, cm1, Eval(k.w, k.prog, e, st, fuel))
    decreases fuel, e, 0
  {
    hide Mk, Goes, Linked, CallAt, EvalArith, EvalShortCircuit, EvalTernary, EvalAssignRef, EvalAssignOp, EvalIncDec, EvalInvoke, EvalNew, Narrow;
    var m := Mk(c, p, st, temps, cm);
    var q := p + SizeExpr(e.rhs);
    cm1 := SimExpr(k, e.rhs, env, c, p, st, temps, cm, fuel);
    var x := Eval(k.w, k.prog, e.rhs, st, fuel);
    if x.Val? && e.slot < |st.locals| {
      DoDup(k, c, q, x.st, temps, x.v, cm1);
      Then(k, m, Mk(c, q, x.st, temps + [x.v], cm1), Next(Mk(c, q + 1, x.st, temps + [x.v] + [x.v], cm1)));
      Store(k, m, e.slot, e.conv, x.v, c, q + 1, x.st, temps + [x.v], cm1);
    }
  }

  /** Narrow the top value and store it in a slot. */
  lemma Store(k: Image, m: Machine, slot: u32, conv: Conv, v: u64, c: Activation, q: nat, st: State, temps: seq<u64>, cm: map<u32, u32>)
    requires Linked(k) && InFunction(c) && slot < |st.locals|
    requires ConvAt(k.at, q, conv) && InstrAt(k.at, q + ConvSize(conv), SetLocal(slot))
    requires Gets(k, m, Next(Mk(c, q, st, temps + [v], cm)))
    ensures Gets(k, m, Next(Mk(c, q + ConvSize(conv) + 5, SetSlot(st, slot, Narrow(conv, v)), temps, cm)))
  {
    hide Linked, Mk, Goes, Narrow;
    var q1 := q + ConvSize(conv);
    DoConv(k, conv, v, c, q, st, temps, cm);
    Then(k, m, Mk(c, q, st, temps + [v], cm), Next(Mk(c, q1, st, temps + [Narrow(conv, v)], cm)));
    DoSetLocal(k, slot, Narrow(conv, v), c, q1, st, temps, cm);
    Then(k, m, Mk(c, q1, st, temps + [Narrow(conv, v)], cm),
         Next(Mk(c, q1 + 5, SetSlot(st, slot, Narrow(conv, v)), temps, cm)));
  }

  lemma SimAssignRef(k: Image, e: Expr, env: Env, c: Activation, p: nat, st: State, temps: seq<u64>, cm: map<u32, u32>, fuel: nat)
    returns (cm1: map<u32, u32>)
    requires Ready(k, env, c, cm) && e.AssignRef? && AssignRefAt(k.at, p, e, env) && p + SizeExpr(e) <= |k.code|
    ensures Grown(k, cm, cm1)
    ensures Yields(k, Mk(c, p, st, temps, cm), c, env.cleanup, p + SizeExpr(e), temps, cm1, EvalAssignRef(k.w, k.prog, e, st, fuel))
    decreases fuel, e, 0
  {
    hide Registered, Mk, Goes, Linked, CallAt, EvalArith, EvalShortCircuit, EvalTernary, EvalAssignOp, EvalIncDec, EvalInvoke, EvalNew, SlotMask,
         Eval, ExprAt;
    var m := Mk(c, p, st, temps, cm);
    var q := p + SizeExpr(e.rhs);
    cm1 := SimExpr(k, e.rhs, env, c, p, st, temps, cm, fuel);
    var x := Eval(k.w, k.prog, e.rhs, st, fuel);
    if x.Val? && e.slot < |st.locals| {
      StoreRef(k, m, e.slot, !ProducesRetained(e.rhs), x.v, c, q, x.st, temps, cm1);
    }
  }

  /** Retain the top value, release the slot's old one, store. */
  lemma StoreRef(k: Image, m: Machine, slot: u32, retain: bool, v: u64, c: Activation, q: nat, st: State, temps: seq<u64>, cm: map<u32, u32>)
    requires Linked(k) && InFunction(c) && slot < |st.locals|
    requires StoreRefAt(k.at, q, slot, retain)
    requires Gets(k, m, Next(Mk(c, q, st, temps + [v], cm)))
    ensures var st1 := LogRetain(true, v, LogRetain(retain, v, st));
            Gets(k, m, Next(Mk(c, q + FlagSize(retain) + 7 + RELEASE_SIZE,
                               SetSlot(ReleaseSlot(st1, slot), slot, Low32(v)), temps + [Low32(v)], cm)))
  {
    hide Linked, Mk, Goes, SlotMask;
    var q1 := q + FlagSize(retain);
    var v1, st0 := RetainIf(retain, v), LogRetain(retain, v, st);
    var st1 := LogRetain(true, v, st0);
    assert Low32(v1) == Low32(v);
    DoRetainIf(k, retain, v, c, q, st, temps, cm);
    Then(k, m, Mk(c, q, st, temps + [v], cm), Next(Mk(c, q1, st0, temps + [v1], cm)));
    DoIncRef(k, v1, c, q1, st0, temps, cm);
    Then(k, m, Mk(c, q1, st0, temps + [v1], cm), Next(Mk(c, q1 + 1, st1, temps + [Low32(v)], cm)));
    DoDup(k, c, q1 + 1, st1, temps, Low32(v), cm);
    var both := temps + [Low32(v) as u64] + [Low32(v) as u64];
    Then(k, m, Mk(c, q1 + 1, st1, temps + [Low32(v)], cm), Next(Mk(c, q1 + 2, st1, both, cm)));
    StoreReleased(k, m, slot, Low32(v), c, q1 + 2, st1, temps + [Low32(v)], cm);
  }

  lemma StoreReleased(k: Image, m: Machine, slot: u32, v: u64, c: Activation, q: nat, st: State, temps: seq<u64>, cm: map<u32, u32>)
    requires Linked(k) && InFunction(c) && slot < |st.locals|
    requires InstrAt(k.at, q, DecRefSlot(slot, SlotMask(slot))) && InstrAt(k.at, q + RELEASE_SIZE, SetLocal(slot))
    requires Gets(k, m, Next(Mk(c, q, st, temps + [v], cm)))
    ensures Gets(k, m, Next(Mk(c, q + RELEASE_SIZE + 5, SetSlot(ReleaseSlot(st, slot), slot, v), temps, cm)))
  {
    hide Linked, Mk, Goes, SlotMask;
    var st1 := ReleaseSlot(st, slot);
    DoReleaseSlot(k, slot, c, q, st, temps + [v], cm);
    Then(k, m, Mk(c, q, st, temps + [v], cm), Next(Mk(c, q + RELEASE_SIZE, st1, temps + [v], cm)));
    DoSetLocal(k, slot, v, c, q + RELEASE_SIZE, st1, temps, cm);
    Then(k, m, Mk(c, q + RELEASE_SIZE, st1, temps + [v], cm),
         Next(Mk(c, q + RELEASE_SIZE + 5, SetSlot(st1, slot, v), temps, cm)));
  }

  lemma SimAssignOp(k: Image, e: Expr, env: Env, c: Activation, p: nat, st: State, temps: seq<u64>, cm: map<u32, u32>, fuel: nat)
    returns (cm1: map<u32, u32>)
    requires Ready(k, env, c, cm) && e.AssignOp? && AssignOpAt(k.at, p, e, env) && p + 5 + SizeExpr(e.rhs) + 7 + ConvSize(e.conv) <= |k.code|
    ensures Grown(k, cm, cm1)
    ensures Yields(k, Mk(c, p, st, temps, cm), c, env.cleanup, p + 5 + SizeExpr(e.rhs) + 7 + ConvSize(e.conv), temps, cm1, EvalAssignOp(k.w, k.prog, e, st, fuel))
    decreases fuel, e, 0
  {
    hide Registered, Mk, Goes, Linked, CallAt, EvalArith, EvalShortCircuit, EvalTernary, EvalAssignRef, EvalIncDec, EvalInvoke, EvalNew, Narrow,
         Apply, Eval, ExprAt, SizeExpr;
    cm1 := cm;
    if e.slot < |st.locals| {
      var m := Mk(c, p, st, temps, cm);
      var before := st.locals[e.slot];
      DoPush(k, GetLocal(e.slot), before, c, p, st, temps, cm);
      var m1 := Mk(c, p + 5, st, temps + [before], cm);
      cm1 := SimExpr(k, e.rhs, env, c, p + 5, st, temps + [before], cm, fuel);
      var x := Eval(k.w, k.prog, e.rhs, st, fuel);
      var q := p + 5 + SizeExpr(e.rhs);
      Resume(k, m, m1, c, env.cleanup, q, temps, [before], cm1, x);
      if x.Val? {
        ApplyStore(k, m, e.op, e.slot, e.conv, before, x.v, c, q, x.st, temps, cm1);
      }
    }
  }

  /** Combine the two top values, keep a copy, store the narrowed result. */
  lemma ApplyStore(k: Image, m: Machine, op: BinOp, slot: u32, conv: Conv, a: u64, b: u64, c: Activation, q: nat, st: State, temps: seq<u64>, cm: map<u32, u32>)
    requires Linked(k) && InFunction(c) && slot < |st.locals|
    requires InstrAt(k.at, q, Binary(op)) && InstrAt(k.at, q + 1, Dup) && ConvAt(k.at, q + 2, conv) &&
             InstrAt(k.at, q + 2 + ConvSize(conv), SetLocal(slot))
    requires Gets(k, m, Next(Mk(c, q, st, temps + [a] + [b], cm)))
    ensures DividesByZero(op, b) ==> Gets(k, m, Fault(DivisionByZero, st.trace))
    ensures !DividesByZero(op, b) ==>
            Gets(k, m, Next(Mk(c, q + 2 + ConvSize(conv) + 5, SetSlot(st, slot, Narrow(conv, Apply(op, a, b))), temps + [Apply(op, a, b)], cm)))
  {
    hide Mk, Goes, Linked, Narrow, Apply;
    DoApply(k, op, a, b, c, q, st, temps, cm);
    var m1 := Mk(c, q, st, temps + [a] + [b], cm);
    if DividesByZero(op, b) {
      Then(k, m, m1, Fault(DivisionByZero, st.trace));
    } else {
      var v := Apply(op, a, b);
      Then(k, m, m1, Next(Mk(c, q + 1, st, temps + [v], cm)));
      DoDup(k, c, q + 1, st, temps, v, cm);
      Then(k, m, Mk(c, q + 1, st, temps + [v], cm), Next(Mk(c, q + 2, st, temps + [v] + [v], cm)));
      Store(k, m, slot, conv, v, c, q + 2, st, temps + [v], cm);
    }
  }

  lemma SimIncDec(k: Image, e: Expr, env: Env, c: Activation, p: nat, st: State, temps: seq<u64>, cm: map<u32, u32>, fuel: nat)
    requires Ready(k, env, c, cm) && e.IncDec? && IncDecAt(k.at, p, e.slot, e.up, e.prefix)
    ensures Yields(k, Mk(c, p, st, temps, cm), c, env.cleanup, p + 12, temps, cm, EvalIncDec(e.slot, e.up, e.prefix, st))
  {
    hide Registered, Mk, Goes, Linked, CallAt, EvalArith, EvalShortCircuit, EvalTernary, EvalAssignRef, EvalAssignOp, EvalInvoke, EvalNew, Wrap,
         SizeExpr, Low32;
    if e.slot < |st.locals| {
      var m := Mk(c, p, st, temps, cm);
      var before := st.locals[e.slot];
      var next := Wrap(if e.up then before as int + 1 else before as int - 1);
      var change := if e.up then Increment else Decrement;
      DoPush(k, GetLocal(e.slot), before, c, p, st, temps, cm);
      if e.prefix {
        DoMap(k, change, before, next, c, p + 5, st, temps, cm);
        Then(k, m, Mk(c, p + 5, st, temps + [before], cm), Next(Mk(c, p + 6, st, temps + [next], cm)));
        DoDup(k, c, p + 6, st, temps, next, cm);
        Then(k, m, Mk(c, p + 6, st, temps + [next], cm), Next(Mk(c, p + 7, st, temps + [next] + [next], cm)));
        DoSetLocal(k, e.slot, next, c, p + 7, st, temps + [next], cm);
        Then(k, m, Mk(c, p + 7, st, temps + [next] + [next], cm), Next(Mk(c, p + 12, SetSlot(st, e.slot, next), temps + [next], cm)));
      } else {
        DoDup(k, c, p + 5, st, temps, before, cm);
        Then(k, m, Mk(c, p + 5, st, temps + [before], cm), Next(Mk(c, p + 6, st, temps + [before] + [before], cm)));
        DoMap(k, change, before, next, c, p + 6, st, temps + [before], cm);
        Then(k, m, Mk(c, p + 6, st, temps + [before] + [before], cm), Next(Mk(c, p + 7, st, temps + [before] + [next], cm)));
        DoSetLocal(k, e.slot, next, c, p + 7, st, temps + [before], cm);
        Then(k, m, Mk(c, p + 7, st, temps + [before] + [next], cm), Next(Mk(c, p + 12, SetSlot(st, e.slot, next), temps + [before], cm)));
      }
    }
  }

  lemma SimArgs(k: Image, args: Args, env: Env, c: Activation, p: nat, st: State, temps: seq<u64>, cm: map<u32, u32>, fuel: nat)
    returns (cm1: map<u32, u32>)
    requires AtArgs(k, args, env, c, p, cm)
    ensures Grown(k, cm, cm1)
    ensures YieldsAll(k, Mk(c, p, st, temps, cm), c, env.cleanup, p + SizeArgs(args), temps, cm1, EvalArgs(k.w, k.prog, args, st, fuel))
    decreases fuel, args, 1
  {
    hide Mk, Goes, Linked, Eval, ExprAt, SizeExpr;
    cm1 := cm;
    var m := Mk(c, p, st, temps, cm);
    match args
    case NoArgs =>
      assert temps + [] == temps;
      Stay(k, m);
    case Arg(e, isRef, rest) =>
      var retain := isRef && !ProducesRetained(e);
      var q := p + SizeExpr(e);
      cm1 := SimExpr(k, e, env, c, p, st, temps, cm, fuel);
      var x := Eval(k.w, k.prog, e, st, fuel);
      if x.Val? {
        var v, st1 := RetainIf(retain, x.v), LogRetain(retain, x.v, x.st);
        DoRetainIf(k, retain, x.v, c, q, x.st, temps, cm1);
        var m1 := Mk(c, q + FlagSize(retain), st1, temps + [v], cm1);
        Then(k, m, Mk(c, q, x.st, temps + [x.v], cm1), Next(m1));
        cm1 := SimArgs(k, rest, env, c, q + FlagSize(retain), st1, temps + [v], cm1, fuel);
        ResumeArgs(k, m, m1, c, env.cleanup, p + SizeArgs(args), temps, v, cm1, EvalArgs(k.w, k.prog, rest, st1, fuel));
      }
  }

  lemma ResumeArgs(k: Image, m: Machine, m1: Machine, c: Activation, cleanup: u32, end: nat,
                   temps: seq<u64>, v: u64, cm1: map<u32, u32>, r: Values)
    requires Gets(k, m, Next(m1)) && YieldsAll(k, m1, c, cleanup, end, temps + [v], cm1, r)
    ensures var x := ArgsUnder([v], r);
            YieldsAll(k, m, c, cleanup, end, temps, cm1, if x.Vals? then x.(vs := [v] + x.vs) else x)
  {
    hide Mk, Goes;
    match r
    case Vals(vs, st1) =>
      assert temps + [v] + vs == temps + ([v] + vs);
      Then(k, m, m1, Next(Mk(c, end, st1, temps + ([v] + vs), cm1)));
    case ArgRaised(st1, left) =>
      assert temps + [v] + left == temps + ([v] + left);
      Then(k, m, m1, Next(Mk(c, cleanup, st1, temps + ([v] + left), cm1)));
    case ArgFail(err, trace) => Then(k, m, m1, Fault(err, trace));
    case NoValues =>
  }

  lemma SimInvoke(k: Image, e: Expr, env: Env, c: Activation, p: nat, st: State, temps: seq<u64>, cm: map<u32, u32>, fuel: nat)
    returns (cm1: map<u32, u32>)
    requires Ready(k, env, c, cm) && e.Invoke? && p + SizeArgs(e.args) + CALL_SIZE <= |k.code|
    requires ArgsAt(k.at, p, e.args, env) && CallAt(k.at, p + SizeArgs(e.args), e.fn, ArgCount(e.args), env)
    ensures Grown(k, cm, cm1)
    ensures Yields(k, Mk(c, p, st, temps, cm), c, env.cleanup, p + SizeArgs(e.args) + CALL_SIZE, temps, cm1, EvalInvoke(k.w, k.prog, e, st, fuel))
    decreases fuel, e, 0
  {
    hide Registered, Mk, Goes, Linked, EvalArgs, Semantics.Call, CallAt, ArgsAt, SizeArgs, SizeExpr, ExprAt, ArgCount;
    var m := Mk(c, p, st, temps, cm);
    var q := p + SizeArgs(e.args);
    cm1 := SimArgs(k, e.args, env, c, p, st, temps, cm, fuel);
    var a := EvalArgs(k.w, k.prog, e.args, st, fuel);
    if a.Vals? && fuel > 0 {
      ArgsCounted(k.w, k.prog, e.args, st, fuel);
      var m1 := Mk(c, q, a.st, temps + a.vs, cm1);
      cm1 := SimCall(k, e.fn, env, c, q, a.st, temps, a.vs, cm1, fuel - 1);
      Finally(k, m, m1, c, env.cleanup, p + SizeArgs(e.args) + CALL_SIZE, temps, cm1, Semantics.Call(k.w, k.prog, e.fn, a.vs, a.st, fuel - 1));
    }
  }

  lemma {:induction false} ArgsCounted(w: World, prog: Program, args: Args, st: State, fuel: nat)
    ensures EvalArgs(w, prog, args, st, fuel).Vals? ==> |EvalArgs(w, prog, args, st, fuel).vs| == ArgCount(args)
  {
    hide Eval;
    if args.Arg? {
      var x := Eval(w, prog, args.e, st, fuel);
      if x.Val? {
        ArgsCounted(w, prog, args.rest, LogRetain(args.isRef && !ProducesRetained(args.e), x.v, x.st), fuel);
      }
    }
  }

  lemma SimNew(k: Image, e: Expr, env: Env, c: Activation, p: nat, st: State, temps: seq<u64>, cm: map<u32, u32>, fuel: nat)
    returns (cm1: map<u32, u32>)
    requires Ready(k, env, c, cm) && e.New? && NewAt(k.at, p, e, env) && p + SizeExpr(e) <= |k.code|
    ensures Grown(k, cm, cm1)
    ensures Yields(k, Mk(c, p, st, temps, cm), c, env.cleanup, p + SizeExpr(e), temps, cm1, EvalNew(k.w, k.prog, e, st, fuel))
    decreases fuel, e, 0
  {
    hide Registered, Mk, Goes, Linked, EvalArgs, Semantics.Call, CallAt, ArgsAt, Created;
    cm1 := cm;
    var m := Mk(c, p, st, temps, cm);
    SimCreate(k, e, env, c, p, st, temps, cm);
    var got := k.w.alloc(st.trace, e.size);
    if got.Some? {
      var obj: u64 := got.value;
      var st1 := Created(st, e.size, got.value, e.classId);
      var m1 := Mk(c, p + 14, st1, temps + [obj] + [obj], cm);
      cm1 := SimArgs(k, e.args, env, c, p + 14, st1, temps + [obj] + [obj], cm, fuel);
      var a := EvalArgs(k.w, k.prog, e.args, st1, fuel);
      var q := p + 14 + SizeArgs(e.args);
      ResumeNew(k, m, m1, c, env.cleanup, q, temps, obj, cm1, a);
      if a.Vals? && fuel > 0 {
        ArgsCounted(k.w, k.prog, e.args, st1, fuel);
        var m2 := Mk(c, q, a.st, temps + [obj] + ([obj] + a.vs), cm1);
        cm1 := SimCall(k, e.ctor, env, c, q, a.st, temps + [obj], [obj] + a.vs, cm1, fuel - 1);
        var r := Semantics.Call(k.w, k.prog, e.ctor, [obj] + a.vs, a.st, fuel - 1);
        Resume(k, m, m2, c, env.cleanup, q + CALL_SIZE, temps, [obj], cm1, r);
        if r.Val? {
          DoDrop(k, c, q + CALL_SIZE, r.st, temps + [obj], r.v, cm1);
          Then(k, m, Mk(c, q + CALL_SIZE, r.st, temps + [obj] + [r.v], cm1),
               Next(Mk(c, q + CALL_SIZE + 1, r.st, temps + [obj], cm1)));
        }
      }
    }
  }

  /** Allocate, stamp the class, and take the constructor's reference. */
  lemma SimCreate(k: Image, e: Expr, env: Env, c: Activation, p: nat, st: State, temps: seq<u64>, cm: map<u32, u32>)
    requires Ready(k, env, c, cm) && e.New? && NewAt(k.at, p, e, env)
    ensures var got := k.w.alloc(st.trace, e.size);
            Gets(k, Mk(c, p, st, temps, cm),
                 if got.None? then Fault(HeapOverflow, st.trace)
                 else Next(Mk(c, p + 14, Created(st, e.size, got.value, e.classId),
                              temps + [got.value as u64] + [got.value as u64], cm)))
  {
    hide Registered, Mk, Goes, Linked, CallAt, ArgsAt, Low32;
    var m := Mk(c, p, st, temps, cm);
    var got := k.w.alloc(st.trace, e.size);
    DoPush(k, PushI32(e.size), e.size, c, p, st, temps, cm);
    DoAlloc(k, e.size, c, p + 5, st, temps, cm);
    Then(k, m, Mk(c, p + 5, st, temps + [e.size as u64], cm), AllocResult(k.w, e.size, c, p + 7, st, temps, cm));
    if got.Some? {
      var obj := got.value;
      var v: u64 := obj;
      SmallWord(obj);
      var s1 := Log(st, Allocated(e.size, OBJECT_TAG, obj));
      var s2 := Log(s1, Stamped(obj, e.classId));
      DoStamp(k, e.classId, obj, c, p + 7, s1, temps, cm);
      Then(k, m, Mk(c, p + 7, s1, temps + [v], cm), Next(Mk(c, p + 12, s2, temps + [v], cm)));
      DoDup(k, c, p + 12, s2, temps, v, cm);
      Then(k, m, Mk(c, p + 12, s2, temps + [v], cm), Next(Mk(c, p + 13, s2, temps + [v] + [v], cm)));
      DoIncRef(k, v, c, p + 13, s2, temps + [v], cm);
      Then(k, m, Mk(c, p + 13, s2, temps + [v] + [v], cm),
           Next(Mk(c, p + 14, Created(st, e.size, obj, e.classId), temps + [v] + [v], cm)));
    }
  }

  lemma ResumeNew(k: Image, m: Machine, m1: Machine, c: Activation, cleanup: u32, end: nat,
                  temps: seq<u64>, obj: u64, cm1: map<u32, u32>, r: Values)
    requires Gets(k, m, Next(m1)) && YieldsAll(k, m1, c, cleanup, end, temps + [obj] + [obj], cm1, r)
    ensures match r
            case Vals(vs, st1) => Gets(k, m, Next(Mk(c, end, st1, temps + [obj] + ([obj] + vs), cm1)))
            case ArgRaised(st1, left) => Gets(k, m, Next(Mk(c, cleanup, st1, temps + ([obj, obj] + left), cm1)))
            case ArgFail(err, trace) => Gets(k, m, Fault(err, trace))
            case NoValues => true
  {
    hide Mk, Goes;
    match r
    case Vals(vs, st1) =>
      assert temps + [obj] + [obj] + vs == temps + [obj] + ([obj] + vs);
      Then(k, m, m1, Next(Mk(c, end, st1, temps + [obj] + ([obj] + vs), cm1)));
    case ArgRaised(st1, left) =>
      assert temps + [obj] + [obj] + left == temps + ([obj, obj] + left);
      Then(k, m, m1, Next(Mk(c, cleanup, st1, temps + ([obj, obj] + left), cm1)));
    case ArgFail(err, trace) => Then(k, m, m1, Fault(err, trace));
    case NoValues =>
  }

  // ------------------------------------------------------------------- statements

  /** Where a run has got to: the registrations so far; for a pending break,
      continue or return, the address of the code still to run for it, and the
      cleanup that inlined finally blocks there would use. */
  datatype Landing = Landing(cm: map<u32, u32>, pc: nat, cleanup: u32)

  /** From m, a statement's result r shows as: past the statement; at the
      exception segment `catcher`; at a leap or a return climb still to be made;
      or as the fault. */
  ghost predicate Lands(k: Image, m: Machine, c: Activation, env: Env, catcher: nat, end: nat, temps: seq<u64>,
                        x: Landing, r: Result)
  {
    match r
    case Done(Normal, st1, left) => Gets(k, m, Next(Mk(c, end, st1, temps + left, x.cm)))
    case Done(Throwing, st1, left) => Gets(k, m, Next(Mk(c, catcher, st1, temps + left, x.cm)))
    case Done(Breaking, st1, left) => LeapAt(k.at, x.pc, env.brk) && Gets(k, m, Next(Mk(c, x.pc, st1, temps + left, x.cm)))
    case Done(Continuing, st1, left) => LeapAt(k.at, x.pc, env.cont) && Gets(k, m, Next(Mk(c, x.pc, st1, temps + left, x.cm)))
    case Done(Returning(v), st1, left) => Climbs(k, env.chain, x) && Gets(k, m, Next(Mk(c, x.pc, st1, temps + left + [v], x.cm)))
    case Done(Escaping(v), st1, left) => Climbs(k, Detached, x) && Gets(k, m, Next(Mk(c, x.pc, st1, temps + left + [v], x.cm)))
    case Stop(err, trace) => Gets(k, m, Fault(err, trace))
    case NoResult => true
  }

  ghost predicate Climbs(k: Image, chain: Chain, x: Landing) {
    ChainAt(k.at, x.pc, chain, x.cleanup, k.fns) && x.pc + SizeChain(chain) <= |k.code| && x.cleanup != HOLE
  }

  /** The narrowing is the one that a return finds on its way out. */
  predicate Agrees(env: Env, conv: Conv) {
    ReturnConv(env.chain) == conv
  }

  /** Running on after reaching m1 with `below` left behind. */
  lemma Onward(k: Image, m: Machine, m1: Machine, c: Activation, env: Env, catcher: nat, end: nat,
               temps: seq<u64>, below: seq<u64>, x: Landing, r: Result)
    requires Gets(k, m, Next(m1)) && Lands(k, m1, c, env, catcher, end, temps + below, x, r)
    ensures Lands(k, m, c, env, catcher, end, temps, x, After(below, r))
  {
    hide Mk, Goes, LeapAt, Climbs;
    match r
    case Done(o, st1, left) =>
      assert temps + below + left == temps + (below + left);
      match o {
        case Normal => Then(k, m, m1, Next(Mk(c, end, st1, temps + (below + left), x.cm)));
        case Throwing => Then(k, m, m1, Next(Mk(c, catcher, st1, temps + (below + left), x.cm)));
        case Breaking => Then(k, m, m1, Next(Mk(c, x.pc, st1, temps + (below + left), x.cm)));
        case Continuing => Then(k, m, m1, Next(Mk(c, x.pc, st1, temps + (below + left), x.cm)));
        case Returning(v) => Then(k, m, m1, Next(Mk(c, x.pc, st1, temps + (below + left) + [v], x.cm)));
        case Escaping(v) => Then(k, m, m1, Next(Mk(c, x.pc, st1, temps + (below + left) + [v], x.cm)));
      }
    case Stop(err, trace) => Then(k, m, m1, Fault(err, trace));
    case NoResult =>
  }

  /** The common case: nothing left behind so far. */
  lemma OnwardClean(k: Image, m: Machine, m1: Machine, c: Activation, env: Env, catcher: nat, end: nat,
                    temps: seq<u64>, x: Landing, r: Result)
    requires Gets(k, m, Next(m1)) && Lands(k, m1, c, env, catcher, end, temps, x, r)
    ensures Lands(k, m, c, env, catcher, end, temps, x, r)
  {
    hide Mk, Goes, LeapAt, Climbs, Lands;
    assert temps + [] == temps;
    Onward(k, m, m1, c, env, catcher, end, temps, [], x, r);
    assert r.Done? ==> [] + r.left == r.left;
    assert After([], r) == r;
  }

  /** An expression that did not produce a value ends its statement. */
  lemma EndedLands(k: Image, m: Machine, c: Activation, env: Env, end: nat, end1: nat, temps: seq<u64>, cm1: map<u32, u32>, r: Value)
    requires !r.Val? && Yields(k, m, c, env.cleanup, end, temps, cm1, r)
    ensures Lands(k, m, c, env, env.cleanup, end1, temps, Landing(cm1, 0, 0), Ended(r))
  {
    hide Mk, Goes, LeapAt, Climbs;
  }

  /** The standing facts for running a statement placed at p. */
  ghost predicate Placeable(k: Image, s: Stmt, env: Env, conv: Conv, p: nat) {
    StmtAt(k.at, p, s, env) && p + SizeStmt(s, ShapeOf(env)) <= |k.code| && Agrees(env, conv)
  }

  lemma SimStmt(k: Image, s: Stmt, env: Env, conv: Conv, c: Activation, p: nat, st: State, temps: seq<u64>, cm: map<u32, u32>, fuel: nat)
    returns (x: Landing)
    requires Ready(k, env, c, cm) && Placeable(k, s, env, conv, p)
    ensures Grown(k, cm, x.cm)
    ensures Lands(k, Mk(c, p, st, temps, cm), c, env, env.cleanup, p + SizeStmt(s, ShapeOf(env)), temps, x,
                  Exec(k.w, k.prog, conv, s, st, fuel))
    decreases fuel, s, 2
  {
    hide Mk, Goes, Linked, Lands, ExprAt, SizeExpr, IfAt, IfElseAt, LoopAt, DoAt, SwitchAt, BlockAt, TryAt, ExecTry, Registered, SizeBlock,
         SizeFinally, SizeClauses, IsSimple;
    if s.Try? {
      x := SimTry(k, s, env, conv, c, p, st, temps, cm, fuel);
    } else if s.If? || s.IfElse? {
      x := SimBranches(k, s, env, conv, c, p, st, temps, cm, fuel);
    } else if IsSimple(s) {
      x := SimSimple(k, s, env, conv, c, p, st, temps, cm, fuel);
    } else {
      x := SimCompound(k, s, env, conv, c, p, st, temps, cm, fuel);
    }
  }

  predicate IsSimple(s: Stmt) {
    s.Skip? || s.VarDecl? || s.ExprStmt? || s.Break? || s.Continue? || s.Return? || s.Throw?
  }

  lemma SimSimple(k: Image, s: Stmt, env: Env, conv: Conv, c: Activation, p: nat, st: State, temps: seq<u64>, cm: map<u32, u32>, fuel: nat)
    returns (x: Landing)
    requires IsSimple(s) && Ready(k, env, c, cm) && Placeable(k, s, env, conv, p)
    ensures Grown(k, cm, x.cm)
    ensures Lands(k, Mk(c, p, st, temps, cm), c, env, env.cleanup, p + SizeStmt(s, ShapeOf(env)), temps, x,
                  Exec(k.w, k.prog, conv, s, st, fuel))
    decreases fuel, s, 1
  {
    hide Mk, Goes, Linked, Lands, ExprAt, SizeExpr, BlockAt, SizeBlock, DeclAt, SizeDecl, IfAt, IfElseAt, LoopAt, DoAt, SwitchAt, TryAt, ChainAt,
         SizeChain, ResultAt, LeapAt, ExecBlock, ExecDecl, ExecIf, ExecIfElse, ExecLoop, ExecDo, ExecFor, ExecSwitchStmt, ExecReturn, ExecThrow,
         ExecTry, Eval, Registered;
    match s
    case Skip => x := SimSkip(k, env, c, p, st, temps, cm);
    case VarDecl(_, _, _, _) => x := SimDecl(k, s, env, conv, c, p, p + SizeDecl(s), st, temps, cm, fuel);
    case ExprStmt(_, _) => x := SimExprStmt(k, s, env, conv, c, p, st, temps, cm, fuel);
    case Break => x := SimLeap(k, env, true, c, p, p + SizeStmt(s, ShapeOf(env)), st, temps, cm);
    case Continue => x := SimLeap(k, env, false, c, p, p + SizeStmt(s, ShapeOf(env)), st, temps, cm);
    case Return(_, _) => x := SimReturn(k, s, env, conv, c, p, p + SizeStmt(s, ShapeOf(env)), st, temps, cm, fuel);
    case Throw(_) => x := SimThrow(k, s, env, conv, c, p, st, temps, cm, fuel);
  }

  lemma SimBranches(k: Image, s: Stmt, env: Env, conv: Conv, c: Activation, p: nat, st: State, temps: seq<u64>, cm: map<u32, u32>, fuel: nat)
    returns (x: Landing)
    requires (s.If? || s.IfElse?) && Ready(k, env, c, cm) && Placeable(k, s, env, conv, p)
    ensures Grown(k, cm, x.cm)
    ensures Lands(k, Mk(c, p, st, temps, cm), c, env, env.cleanup, p + SizeStmt(s, ShapeOf(env)), temps, x,
                  Exec(k.w, k.prog, conv, s, st, fuel))
    decreases fuel, s, 1
  {
    hide Mk, Goes, Linked, Lands, ExprAt, SizeExpr, IfAt, IfElseAt, ExecIf, ExecIfElse, Eval, Registered;
    match s
    case If(_, _) =>
      assert SizeStmt(s, ShapeOf(env)) == SizeIf(s, ShapeOf(env)) == SizeExpr(s.cond) + 5 + SizeStmt(s.thn, ShapeOf(env));
      x := SimIf(k, s, env, conv, c, p, st, temps, cm, fuel);
    case IfElse(_, _, _) => x := SimIfElse(k, s, env, conv, c, p, st, temps, cm, fuel);
  }

  lemma SimCompound(k: Image, s: Stmt, env: Env, conv: Conv, c: Activation, p: nat, st: State, temps: seq<u64>, cm: map<u32, u32>, fuel: nat)
    returns (x: Landing)
    requires !IsSimple(s) && !s.Try? && !s.If? && !s.IfElse? && Ready(k, env, c, cm) && Placeable(k, s, env, conv, p)
    ensures Grown(k, cm, x.cm)
    ensures Lands(k, Mk(c, p, st, temps, cm), c, env, env.cleanup, p + SizeStmt(s, ShapeOf(env)), temps, x,
                  Exec(k.w, k.prog, conv, s, st, fuel))
    decreases fuel, s, 1
  {
    hide Mk, Goes, Linked, Lands, ExprAt, SizeExpr, BlockAt, SizeBlock, DeclAt, SizeDecl, IfAt, IfElseAt, LoopAt, DoAt, SwitchAt, TryAt, ChainAt,
         SizeChain, ResultAt, LeapAt, ExecBlock, ExecDecl, ExecIf, ExecIfElse, ExecLoop, ExecDo, ExecFor, ExecSwitchStmt, ExecReturn, ExecThrow,
         ExecTry, Eval, Registered;
    match s
    case Block(body) => x := SimBlock(k, body, env, env.cleanup, conv, c, p, st, temps, cm, fuel);
    case While(_, _) => x := SimWhile(k, s, env, conv, c, p, st, temps, cm, fuel);
    case DoWhile(b, e) => x := SimDo(k, b, e, env, c, p, st, temps, cm, fuel);
    case For(_, _, _, _) => x := SimFor(k, s, env, conv, c, p, st, temps, cm, fuel);
    case Switch(_, _) => x := SimSwitchStmt(k, s, env, conv, c, p, st, temps, cm, fuel);
  }

  lemma SimSkip(k: Image, env: Env, c: Activation, p: nat, st: State, temps: seq<u64>, cm: map<u32, u32>)
    returns (x: Landing)
    requires Ready(k, env, c, cm)
    ensures Grown(k, cm, x.cm)
    ensures Lands(k, Mk(c, p, st, temps, cm), c, env, env.cleanup, p, temps, x, Done(Normal, st, []))
  {
    hide Registered, Mk, Goes, Linked, Lands;
    x := Landing(cm, 0, 0);
    Stay(k, Mk(c, p, st, temps, cm));
    LandsNormally(k, Mk(c, p, st, temps, cm), c, env, env.cleanup, p, st, temps, cm);
  }

  lemma SimLeap(k: Image, env: Env, breaks: bool, c: Activation, p: nat, end: nat, st: State, temps: seq<u64>, cm: map<u32, u32>)
    returns (x: Landing)
    requires Ready(k, env, c, cm) && LeapAt(k.at, p, if breaks then env.brk else env.cont)
    ensures Grown(k, cm, x.cm)
    ensures Lands(k, Mk(c, p, st, temps, cm), c, env, env.cleanup, end, temps, x, Done(if breaks then Breaking else Continuing, st, []))
  {
    hide Registered, Mk, Goes, Linked, LeapAt;
    x := Landing(cm, p, 0);
    assert temps + [] == temps;
    Stay(k, Mk(c, p, st, temps, cm));
  }

  lemma SimDecl(k: Image, s: Stmt, env: Env, conv: Conv, c: Activation, p: nat, end: nat, st: State, temps: seq<u64>, cm: map<u32, u32>, fuel: nat)
    returns (x: Landing)
    requires Ready(k, env, c, cm) && s.VarDecl? && DeclAt(k.at, p, s, env) && end == p + SizeDecl(s) <= |k.code|
    ensures Grown(k, cm, x.cm)
    ensures Lands(k, Mk(c, p, st, temps, cm), c, env, env.cleanup, end, temps, x,
                  ExecDecl(k.w, k.prog, conv, s, st, fuel))
    decreases fuel, s, 0
  {
    hide Registered, Mk, Goes, Linked, Eval, ExprAt, Narrow, Lands, SizeExpr;
    var m := Mk(c, p, st, temps, cm);
    if s.init.None? {
      x := Landing(cm, 0, 0);
      Stay(k, m);
      LandsNormally(k, m, c, env, env.cleanup, end, st, temps, cm);
    } else {
      var e := s.init.value;
      var retain := s.isRef && !ProducesRetained(e);
      var cm1 := SimResult(k, e, s.conv, retain, end, env, c, p, st, temps, cm, fuel);
      x := Landing(cm1, 0, 0);
      var r := Eval(k.w, k.prog, e, st, fuel);
      if r.Val? && s.slot < |st.locals| {
        var v := Narrow(s.conv, r.v);
        var st1, v1 := LogRetain(retain, v, r.st), RetainIf(retain, v);
        DoSetLocal(k, s.slot, v1, c, end - 5, st1, temps, cm1);
        Then(k, m, Mk(c, end - 5, st1, temps + [v1], cm1), Next(Mk(c, end, SetSlot(st1, s.slot, v1), temps, cm1)));
        LandsNormally(k, m, c, env, env.cleanup, end, SetSlot(st1, s.slot, v1), temps, cm1);
      } else if r.Val? {
        NoLanding(k, m, c, env, env.cleanup, end, temps, x);
      }
    }
  }

  /** An expression, narrowed and retained as its context asks. */
  lemma SimResult(k: Image, e: Expr, conv: Conv, retain: bool, end: nat, env: Env, c: Activation, p: nat, st: State, temps: seq<u64>, cm: map<u32, u32>, fuel: nat)
    returns (cm1: map<u32, u32>)
    requires AtExpr(k, e, env, c, p, cm)
    requires ConvAt(k.at, p + SizeExpr(e), conv) && IncRefAt(k.at, p + SizeExpr(e) + ConvSize(conv), retain)
    ensures Grown(k, cm, cm1)
    ensures var r := Eval(k.w, k.prog, e, st, fuel);
            if r.Val?
            then var v := Narrow(conv, r.v);
                 Gets(k, Mk(c, p, st, temps, cm), Next(Mk(c, p + SizeExpr(e) + ConvSize(conv) + FlagSize(retain),
                                                          LogRetain(retain, v, r.st), temps + [RetainIf(retain, v)], cm1)))
            else Lands(k, Mk(c, p, st, temps, cm), c, env, env.cleanup, end, temps, Landing(cm1, 0, 0), Ended(r))
    decreases fuel, e, 2
  {
    hide Mk, Goes, Linked, Eval, ExprAt, Narrow, Lands, SizeExpr;
    var m := Mk(c, p, st, temps, cm);
    var q := p + SizeExpr(e);
    cm1 := SimExpr(k, e, env, c, p, st, temps, cm, fuel);
    var r := Eval(k.w, k.prog, e, st, fuel);
    if r.Val? {
      KeptValue(k, m, conv, retain, r.v, c, q, r.st, temps, cm1);
    } else {
      EndedLands(k, m, c, env, q, end, temps, cm1, r);
    }
  }

  /** Narrow the top value, then retain it if asked. */
  lemma KeptValue(k: Image, m: Machine, conv: Conv, retain: bool, v: u64, c: Activation, q: nat, st: State, temps: seq<u64>, cm: map<u32, u32>)
    requires Linked(k) && ConvAt(k.at, q, conv) && IncRefAt(k.at, q + ConvSize(conv), retain)
    requires Gets(k, m, Next(Mk(c, q, st, temps + [v], cm)))
    ensures var v1 := Narrow(conv, v);
            Gets(k, m, Next(Mk(c, q + ConvSize(conv) + FlagSize(retain), LogRetain(retain, v1, st), temps + [RetainIf(retain, v1)], cm)))
  {
    hide Mk, Goes, Linked, Narrow;
    var v1 := Narrow(conv, v);
    var q1 := q + ConvSize(conv);
    DoConv(k, conv, v, c, q, st, temps, cm);
    Then(k, m, Mk(c, q, st, temps + [v], cm), Next(Mk(c, q1, st, temps + [v1], cm)));
    DoRetainIf(k, retain, v1, c, q1, st, temps, cm);
    Then(k, m, Mk(c, q1, st, temps + [v1], cm),
         Next(Mk(c, q1 + FlagSize(retain), LogRetain(retain, v1, st), temps + [RetainIf(retain, v1)], cm)));
  }

  lemma SimExprStmt(k: Image, s: Stmt, env: Env, conv: Conv, c: Activation, p: nat, st: State, temps: seq<u64>, cm: map<u32, u32>, fuel: nat)
    returns (x: Landing)
    requires Ready(k, env, c, cm) && Placeable(k, s, env, conv, p) && s.ExprStmt?
    ensures Grown(k, cm, x.cm)
    ensures Lands(k, Mk(c, p, st, temps, cm), c, env, env.cleanup, p + SizeStmt(s, ShapeOf(env)), temps, x,
                  Exec(k.w, k.prog, conv, s, st, fuel))
    decreases fuel, s, 0
  {
    hide Registered, Mk, Goes, Linked, Eval, ExprAt, LeapAt, Climbs;
    var m := Mk(c, p, st, temps, cm);
    var q := p + SizeExpr(s.e);
    var cm1 := SimExpr(k, s.e, env, c, p, st, temps, cm, fuel);
    x := Landing(cm1, 0, 0);
    var r := Eval(k.w, k.prog, s.e, st, fuel);
    if !r.Val? {
      EndedLands(k, m, c, env, q, q + 1, temps, cm1, r);
    } else {
      assert temps + [] == temps;
      if s.isRef {
        DoDecRef(k, r.v, c, q, r.st, temps, cm1);
        Then(k, m, Mk(c, q, r.st, temps + [r.v], cm1), Next(Mk(c, q + 1, Log(r.st, Released(Low32(r.v))), temps, cm1)));
      } else {
        DoDrop(k, c, q, r.st, temps, r.v, cm1);
        Then(k, m, Mk(c, q, r.st, temps + [r.v], cm1), Next(Mk(c, q + 1, r.st, temps, cm1)));
      }
    }
  }

  /** Test a condition and go to the branch that it selects. */
  lemma Tested(k: Image, m: Machine, no: nat, v: u64, c: Activation, q: nat, st: State, temps: seq<u64>, cm: map<u32, u32>)
    requires Linked(k) && no <= |k.code| && InstrAt(k.at, q, JumpIfFalse(Addr(no)))
    requires Gets(k, m, Next(Mk(c, q, st, temps + [v], cm)))
    ensures Gets(k, m, Next(Mk(c, if v == 0 then no else q + 5, st, temps, cm)))
  {
    hide Mk, Goes, Linked;
    AddrIs(k, no);
    DoBranch(k, true, Addr(no), v, c, q, st, temps, cm);
    Then(k, m, Mk(c, q, st, temps + [v], cm), Next(Mk(c, if v == 0 then no else q + 5, st, temps, cm)));
  }

  lemma SimIf(k: Image, s: Stmt, env: Env, conv: Conv, c: Activation, p: nat, st: State, temps: seq<u64>, cm: map<u32, u32>, fuel: nat)
    returns (x: Landing)
    requires Ready(k, env, c, cm) && s.If? && IfAt(k.at, p, s, env) && p + SizeExpr(s.cond) + 5 + SizeStmt(s.thn, ShapeOf(env)) <= |k.code|
    requires Agrees(env, conv)
    ensures Grown(k, cm, x.cm)
    ensures Lands(k, Mk(c, p, st, temps, cm), c, env, env.cleanup, p + SizeExpr(s.cond) + 5 + SizeStmt(s.thn, ShapeOf(env)), temps, x,
                  ExecIf(k.w, k.prog, conv, s, st, fuel))
    decreases fuel, s, 0
  {
    hide Registered, Addr, Mk, Goes, Linked, Eval, ExprAt, SizeExpr, StmtAt, SizeStmt, Lands, Exec, Agrees, IfAt;
    IfParts(k.at, p, s, env);
    var m := Mk(c, p, st, temps, cm);
    var q := p + SizeExpr(s.cond) + 5;
    var end := q + SizeStmt(s.thn, ShapeOf(env));
    var cm1 := SimGuard(k, Some(s.cond), end, env, c, p, st, temps, cm, fuel);
    x := Landing(cm1, 0, 0);
    var r := Eval(k.w, k.prog, s.cond, st, fuel);
    if !r.Val? {
    } else if r.v == 0 {
      LandsNormally(k, m, c, env, env.cleanup, end, r.st, temps, cm1);
    } else {
      x := SimArm(k, m, s.thn, env, conv, c, q, r.st, temps, cm1, fuel);
    }
  }

  lemma IfParts(at: Listing, p: nat, s: Stmt, env: Env)
    requires s.If? && IfAt(at, p, s, env)
    ensures var q := p + SizeExpr(s.cond);
            ExprAt(at, p, s.cond, env) && InstrAt(at, q, JumpIfFalse(Addr(q + 5 + SizeStmt(s.thn, ShapeOf(env))))) && StmtAt(at, q + 5, s.thn, env)
  {
    hide ExprAt, StmtAt, SizeStmt, SizeExpr;
  }

  lemma LandsNormally(k: Image, m: Machine, c: Activation, env: Env, catcher: nat, end: nat, st: State, temps: seq<u64>, cm: map<u32, u32>)
    requires Gets(k, m, Next(Mk(c, end, st, temps, cm)))
    ensures Lands(k, m, c, env, catcher, end, temps, Landing(cm, 0, 0), Done(Normal, st, []))
  {
    hide Mk, Goes;
    assert temps + [] == temps;
  }

  lemma SimIfElse(k: Image, s: Stmt, env: Env, conv: Conv, c: Activation, p: nat, st: State, temps: seq<u64>, cm: map<u32, u32>, fuel: nat)
    returns (x: Landing)
    requires Ready(k, env, c, cm) && s.IfElse? && IfElseAt(k.at, p, s, env) && p + SizeIfElse(s, ShapeOf(env)) <= |k.code|
    requires Agrees(env, conv)
    ensures Grown(k, cm, x.cm)
    ensures Lands(k, Mk(c, p, st, temps, cm), c, env, env.cleanup, p + SizeIfElse(s, ShapeOf(env)), temps, x,
                  ExecIfElse(k.w, k.prog, conv, s, st, fuel))
    decreases fuel, s, 0
  {
    hide Registered, Addr, Mk, Goes, Linked, Eval, ExprAt, SizeExpr, StmtAt, SizeStmt, Lands, Exec, Agrees;
    var m := Mk(c, p, st, temps, cm);
    var q := p + SizeExpr(s.cond) + 5;
    var skip := q + SizeStmt(s.thn, ShapeOf(env));
    var end := skip + 5 + SizeStmt(s.els, ShapeOf(env));
    var cm1 := SimGuard(k, Some(s.cond), skip + 5, env, c, p, st, temps, cm, fuel);
    x := Landing(cm1, 0, 0);
    var r := Eval(k.w, k.prog, s.cond, st, fuel);
    if !r.Val? {
      EndedAnywhere(k, m, c, env, skip + 5, end, temps, cm1, r);
    } else if r.v == 0 {
      x := SimArm(k, m, s.els, env, conv, c, skip + 5, r.st, temps, cm1, fuel);
    } else {
      x := SimArm(k, m, s.thn, env, conv, c, q, r.st, temps, cm1, fuel);
      JumpsEnd(k, m, c, env, env.cleanup, skip, end, temps, x, Exec(k.w, k.prog, conv, s.thn, r.st, fuel));
    }
  }

  /** Where a statement would have ended does not matter when it ended early. */
  lemma EndedAnywhere(k: Image, m: Machine, c: Activation, env: Env, end: nat, end1: nat, temps: seq<u64>, cm1: map<u32, u32>, r: Value)
    requires !r.Val? && Lands(k, m, c, env, env.cleanup, end, temps, Landing(cm1, 0, 0), Ended(r))
    ensures Lands(k, m, c, env, env.cleanup, end1, temps, Landing(cm1, 0, 0), Ended(r))
  {
    hide Mk, Goes, LeapAt, Climbs;
  }

  /** Continue into a sub-statement at q. */
  lemma SimArm(k: Image, m: Machine, s: Stmt, env: Env, conv: Conv, c: Activation, q: nat, st: State, temps: seq<u64>, cm: map<u32, u32>, fuel: nat)
    returns (x: Landing)
    requires Ready(k, env, c, cm) && Placeable(k, s, env, conv, q) && Gets(k, m, Next(Mk(c, q, st, temps, cm)))
    ensures Grown(k, cm, x.cm)
    ensures Lands(k, m, c, env, env.cleanup, q + SizeStmt(s, ShapeOf(env)), temps, x, Exec(k.w, k.prog, conv, s, st, fuel))
    decreases fuel, s, 3
  {
    hide Registered, Mk, Goes, Linked, Placeable, Exec, Lands, SizeStmt;
    x := SimStmt(k, s, env, conv, c, q, st, temps, cm, fuel);
    OnwardClean(k, m, Mk(c, q, st, temps, cm), c, env, env.cleanup, q + SizeStmt(s, ShapeOf(env)), temps, x,
                Exec(k.w, k.prog, conv, s, st, fuel));
  }

  /** Normal completion at `from` continues with a jump to `end`. */
  lemma JumpsEnd(k: Image, m: Machine, c: Activation, env: Env, catcher: nat, from: nat, end: nat, temps: seq<u64>, x: Landing, r: Result)
    requires Linked(k) && end <= |k.code| && InstrAt(k.at, from, Jump(Addr(end)))
    requires Lands(k, m, c, env, catcher, from, temps, x, r)
    ensures Lands(k, m, c, env, catcher, end, temps, x, r)
  {
    hide Mk, Goes, Linked, LeapAt, Climbs;
    if r.Done? && r.o == Normal {
      AddrIs(k, end);
      DoJump(k, Addr(end), c, from, r.st, temps + r.left, x.cm);
      Then(k, m, Mk(c, from, r.st, temps + r.left, x.cm), Next(Mk(c, end, r.st, temps + r.left, x.cm)));
    }
  }

  lemma SimReturn(k: Image, s: Stmt, env: Env, conv: Conv, c: Activation, p: nat, end: nat, st: State, temps: seq<u64>, cm: map<u32, u32>, fuel: nat)
    returns (x: Landing)
    requires Ready(k, env, c, cm) && s.Return? && ResultAt(k.at, p, s.result, s.isRef, env) && ReturnConv(env.chain) == conv
    requires ChainAt(k.at, p + SizeResult(s.result, s.isRef, conv), env.chain, env.cleanup, env.fns) &&
             p + SizeResult(s.result, s.isRef, conv) + SizeChain(env.chain) <= |k.code|
    ensures Grown(k, cm, x.cm)
    ensures Lands(k, Mk(c, p, st, temps, cm), c, env, env.cleanup, end, temps, x,
                  ExecReturn(k.w, k.prog, conv, s, st, fuel))
    decreases fuel, s, 0
  {
    hide Registered, FlagSize, Mk, Goes, Linked, Eval, ExprAt, Narrow, ChainAt, SizeChain, LeapAt, SizeExpr, ReturnConv, ProducesRetained;
    var m := Mk(c, p, st, temps, cm);
    var q := p + SizeResult(s.result, s.isRef, conv);
    x := Landing(cm, q, env.cleanup);
    assert temps + [] == temps;
    if s.result.None? {
      DoPush(k, PushNull, 0, c, p, st, temps, cm);
    } else {
      var retain := s.isRef && !ProducesRetained(s.result.value);
      var cm1 := SimResult(k, s.result.value, conv, retain, end, env, c, p, st, temps, cm, fuel);
      x := if Eval(k.w, k.prog, s.result.value, st, fuel).Val? then Landing(cm1, q, env.cleanup) else Landing(cm1, 0, 0);
    }
  }

  lemma SimThrow(k: Image, s: Stmt, env: Env, conv: Conv, c: Activation, p: nat, st: State, temps: seq<u64>, cm: map<u32, u32>, fuel: nat)
    returns (x: Landing)
    requires Ready(k, env, c, cm) && Placeable(k, s, env, conv, p) && s.Throw?
    ensures Grown(k, cm, x.cm)
    ensures Lands(k, Mk(c, p, st, temps, cm), c, env, env.cleanup, p + SizeStmt(s, ShapeOf(env)), temps, x,
                  ExecThrow(k.w, k.prog, conv, s, st, fuel))
    decreases fuel, s, 0
  {
    hide Registered, Mk, Goes, Linked, Eval, ExprAt, LeapAt, Climbs, Low32;
    var m := Mk(c, p, st, temps, cm);
    var q := p + SizeExpr(s.e);
    var cm1 := SimExpr(k, s.e, env, c, p, st, temps, cm, fuel);
    x := Landing(cm1, 0, 0);
    var r := Eval(k.w, k.prog, s.e, st, fuel);
    if !r.Val? {
      EndedLands(k, m, c, env, q, p + SizeStmt(s, ShapeOf(env)), temps, cm1, r);
    } else {
      assert temps + [] == temps;
      var st1 := Thrown(r.st, r.v);
      DoThrow(k, env.cleanup, r.v, c, q, r.st, temps, cm1);
      Then(k, m, Mk(c, q, r.st, temps + [r.v], cm1),
           if r.v == 0 then Fault(NullPointer, r.st.trace) else Next(Mk(c, env.cleanup, st1, temps, cm1)));
    }
  }

  // ------------------------------------------------------------------------ loops

  /** A loop body's result, as the loop sees it: break goes to `end`, continue to
      `next`; a return finds no way further. */
  lemma LoopExits(k: Image, m: Machine, c: Activation, env: Env, end: nat, next: nat, after: nat, temps: seq<u64>, x: Landing, r: Result)
    returns (y: Landing)
    requires Linked(k) && end <= |k.code| && next <= |k.code|
    requires Lands(k, m, c, LoopEnv(env, Addr(end), Addr(next)), env.cleanup, after, temps, x, r)
    ensures y.cm == x.cm
    ensures r.Done? && r.o == Breaking ==> Gets(k, m, Next(Mk(c, end, r.st, temps + r.left, y.cm)))
    ensures r.Done? && r.o == Continuing ==> Gets(k, m, Next(Mk(c, next, r.st, temps + r.left, y.cm)))
    ensures !r.Done? || r.o.Returning? || r.o.Escaping? || r.o.Throwing? ==> Lands(k, m, c, env, env.cleanup, end, temps, y, Cut(r))
  {
    hide Mk, Goes, Linked, StmtAt;
    y := x;
    AddrIs(k, end);
    AddrIs(k, next);
    if r.Done? {
      var pile := temps + r.left;
      match r.o {
        case Breaking =>
          DoJump(k, Addr(end), c, x.pc, r.st, pile, x.cm);
          Then(k, m, Mk(c, x.pc, r.st, pile, x.cm), Next(Mk(c, end, r.st, pile, x.cm)));
        case Continuing =>
          DoJump(k, Addr(next), c, x.pc, r.st, pile, x.cm);
          Then(k, m, Mk(c, x.pc, r.st, pile, x.cm), Next(Mk(c, next, r.st, pile, x.cm)));
        case _ =>
      }
    }
  }

  /** A loop tested at its top: `while` continues at the top, `for` at the iteration step. */
  lemma SimLoop(k: Image, g: Option<Expr>, i: Option<Expr>, b: Stmt, next: nat, env: Env, c: Activation, top: nat, st: State, temps: seq<u64>, cm: map<u32, u32>, fuel: nat)
    returns (y: Landing)
    requires Ready(k, env, c, cm) && LoopAt(k.at, top, g, i, b, env, Addr(next))
    requires LoopEnd(top, g, i, b) <= |k.code|
    requires LoopNext(top, g, i, b, next)
    ensures Grown(k, cm, y.cm)
    ensures Lands(k, Mk(c, top, st, temps, cm), c, env, env.cleanup, LoopEnd(top, g, i, b), temps, y,
                  ExecLoop(k.w, k.prog, g, i, b, st, fuel))
    decreases fuel, b, 2
  {
    hide Registered, Addr, Mk, Goes, Linked, Eval, ExprAt, StmtAt, SizeStmt, LoopAt, LoopEnd, SizeExpr, ExecRound, Lands, Agrees, LoopNext;
    LoopParts(k.at, top, g, i, b, env, Addr(next));
    var m := Mk(c, top, st, temps, cm);
    var end := LoopEnd(top, g, i, b);
    y := Landing(cm, 0, 0);
    if fuel == 0 {
      NoLanding(k, m, c, env, env.cleanup, end, temps, y);
    } else {
      var x := if g.Some? then Eval(k.w, k.prog, g.value, st, fuel - 1) else Val(1, st);
      var cm1 := SimGuard(k, g, end, env, c, top, st, temps, cm, fuel - 1);
      y := Landing(cm1, 0, 0);
      if x.Val? && x.v == 0 {
        LandsNormally(k, m, c, env, env.cleanup, end, x.st, temps, cm1);
      } else if x.Val? {
        y := SimRound(k, m, g, i, b, next, env, c, top, x.st, temps, cm1, fuel);
      }
    }
  }

  /** The body, then, unless it left the loop, the way back and the remaining rounds. */
  lemma SimRound(k: Image, m: Machine, g: Option<Expr>, i: Option<Expr>, b: Stmt, next: nat, env: Env, c: Activation, top: nat, st: State, temps: seq<u64>, cm: map<u32, u32>, fuel: nat)
    returns (y: Landing)
    requires fuel > 0 && Ready(k, env, c, cm) && LoopAt(k.at, top, g, i, b, env, Addr(next)) && LoopNext(top, g, i, b, next)
    requires LoopEnd(top, g, i, b) <= |k.code|
    requires Gets(k, m, Next(Mk(c, top + SizeOpt(g, 5), st, temps, cm)))
    ensures Grown(k, cm, y.cm)
    ensures Lands(k, m, c, env, env.cleanup, LoopEnd(top, g, i, b), temps, y, ExecRound(k.w, k.prog, g, i, b, st, fuel))
    decreases fuel, b, 1
  {
    hide Registered, Addr, Mk, Goes, Linked, Eval, StmtAt, SizeStmt, Exec, LeapAt, Climbs, LoopAt, LoopEnd, Agrees, ExecBack, Lands, LoopNext,
         ExprAt, SizeExpr, ReturnConv;
    NextInside(top, g, i, b, next);
    LoopParts(k.at, top, g, i, b, env, Addr(next));
    var r := Cut(Exec(k.w, k.prog, Keep, b, st, fuel - 1));
    y := SimLoopBody(k, m, b, LoopEnd(top, g, i, b), next, env, c, top + SizeOpt(g, 5), st, temps, cm, fuel - 1);
    if r.Done? && (r.o == Normal || r.o == Continuing) {
      y := SimLoopBack(k, m, g, i, b, r.o == Continuing, next, env, c, top, r.st, temps, r.left, y.cm, fuel);
    }
  }

  /** `while` continues at its top, `for` at its iteration step. */
  predicate LoopNext(top: nat, g: Option<Expr>, i: Option<Expr>, b: Stmt, next: nat) {
    next == top + SizeOpt(g, 5) + SizeStmt(b, LOOP_SHAPE) || (i.None? && next == top)
  }

  lemma NextInside(top: nat, g: Option<Expr>, i: Option<Expr>, b: Stmt, next: nat)
    requires LoopNext(top, g, i, b, next)
    ensures next <= LoopEnd(top, g, i, b)
    ensures next == top + SizeOpt(g, 5) + SizeStmt(b, LOOP_SHAPE) || (i.None? && next == top)
  {
    hide SizeStmt, SizeExpr;
  }

  /** The pieces of a loop's layout. */
  lemma LoopParts(at: Listing, top: nat, g: Option<Expr>, i: Option<Expr>, b: Stmt, env: Env, next: u32)
    requires LoopAt(at, top, g, i, b, env, next)
    ensures var q := top + SizeOpt(g, 5);
            var after := q + SizeStmt(b, LOOP_SHAPE);
            var end := LoopEnd(top, g, i, b);
            (g.Some? ==> ExprAt(at, top, g.value, env) && InstrAt(at, top + SizeExpr(g.value), JumpIfFalse(Addr(end))) &&
                         top + SizeExpr(g.value) <= end) &&
            StmtAt(at, q, b, LoopEnv(env, Addr(end), next)) &&
            (i.Some? ==> ExprAt(at, after, i.value, env) && InstrAt(at, after + SizeExpr(i.value), Pop) &&
                         after + SizeExpr(i.value) <= end) &&
            InstrAt(at, after + SizeOpt(i, 1), Jump(Addr(top))) && q + SizeStmt(b, LOOP_SHAPE) <= end && top <= end
  {
    hide StmtAt, ExprAt, SizeStmt, SizeExpr;
  }

  function LoopEnd(top: nat, g: Option<Expr>, i: Option<Expr>, b: Stmt): nat {
    top + SizeOpt(g, 5) + SizeStmt(b, LOOP_SHAPE) + SizeOpt(i, 1) + 5
  }

  /** The guard: on into the body, out of the loop, or ended. */
  lemma SimGuard(k: Image, g: Option<Expr>, end: nat, env: Env, c: Activation, top: nat, st: State, temps: seq<u64>, cm: map<u32, u32>, fuel: nat)
    returns (cm1: map<u32, u32>)
    requires Ready(k, env, c, cm) && end <= |k.code|
    requires g.Some? ==> ExprAt(k.at, top, g.value, env) && InstrAt(k.at, top + SizeExpr(g.value), JumpIfFalse(Addr(end))) &&
                         top + SizeExpr(g.value) <= |k.code|
    ensures Grown(k, cm, cm1)
    ensures var x := if g.Some? then Eval(k.w, k.prog, g.value, st, fuel) else Val(1, st);
            if x.Val?
            then Gets(k, Mk(c, top, st, temps, cm), Next(Mk(c, if x.v == 0 then end else top + SizeOpt(g, 5), x.st, temps, cm1)))
            else Lands(k, Mk(c, top, st, temps, cm), c, env, env.cleanup, end, temps, Landing(cm1, 0, 0), Ended(x))
    decreases fuel, if g.Some? then g.value else Null, 2
  {
    hide Registered, Mk, Goes, Linked, Eval, ExprAt, Lands;
    cm1 := cm;
    var m := Mk(c, top, st, temps, cm);
    if g.None? {
      Stay(k, m);
    } else {
      var q := top + SizeExpr(g.value);
      cm1 := SimExpr(k, g.value, env, c, top, st, temps, cm, fuel);
      var x := Eval(k.w, k.prog, g.value, st, fuel);
      if x.Val? {
        Tested(k, m, end, x.v, c, q, x.st, temps, cm1);
      } else {
        EndedLands(k, m, c, env, q, end, temps, cm1, x);
      }
    }
  }

  /** One run of the body, from the machine at the loop's start. */
  lemma SimLoopBody(k: Image, m: Machine, b: Stmt, end: nat, next: nat, env: Env, c: Activation, q: nat, st: State, temps: seq<u64>, cm: map<u32, u32>, fuel: nat)
    returns (y: Landing)
    requires Ready(k, env, c, cm) && end <= |k.code| && next <= |k.code| && q + SizeStmt(b, LOOP_SHAPE) <= |k.code|
    requires StmtAt(k.at, q, b, LoopEnv(env, Addr(end), Addr(next)))
    requires Gets(k, m, Next(Mk(c, q, st, temps, cm)))
    ensures Grown(k, cm, y.cm)
    ensures var r := Cut(Exec(k.w, k.prog, Keep, b, st, fuel));
            if r.Done? && r.o == Normal
            then Gets(k, m, Next(Mk(c, q + SizeStmt(b, LOOP_SHAPE), r.st, temps + r.left, y.cm)))
            else if r.Done? && r.o == Continuing
            then Gets(k, m, Next(Mk(c, next, r.st, temps + r.left, y.cm)))
            else Lands(k, m, c, env, env.cleanup, end, temps, y, if r.Done? && r.o == Breaking then r.(o := Normal) else r)
    decreases fuel, b, 4
  {
    hide Registered, Addr, Mk, Goes, Linked, StmtAt, SizeStmt, Exec, LeapAt, Climbs;
    var inner := LoopEnv(env, Addr(end), Addr(next));
    assert ShapeOf(inner) == LOOP_SHAPE;
    y := SimArm(k, m, b, inner, Keep, c, q, st, temps, cm, fuel);
    y := LoopExits(k, m, c, env, end, next, q + SizeStmt(b, LOOP_SHAPE), temps, y, Exec(k.w, k.prog, Keep, b, st, fuel));
  }

  /** The iteration step, the jump back, and the remaining rounds. */
  lemma SimLoopBack(k: Image, m: Machine, g: Option<Expr>, i: Option<Expr>, b: Stmt, continued: bool, next: nat, env: Env, c: Activation, top: nat, st: State, temps: seq<u64>, left: seq<u64>, cm: map<u32, u32>, fuel: nat)
    returns (y: Landing)
    requires fuel > 0 && Ready(k, env, c, cm) && LoopAt(k.at, top, g, i, b, env, Addr(next))
    requires LoopEnd(top, g, i, b) <= |k.code|
    requires LoopNext(top, g, i, b, next)
    requires Gets(k, m, Next(Mk(c, if continued then next else top + SizeOpt(g, 5) + SizeStmt(b, LOOP_SHAPE), st, temps + left, cm)))
    ensures Grown(k, cm, y.cm)
    ensures Lands(k, m, c, env, env.cleanup, LoopEnd(top, g, i, b), temps, y, After(left, ExecBack(k.w, k.prog, g, i, b, st, fuel)))
    decreases fuel, b, 0
  {
    hide Registered, Addr, Mk, Goes, Linked, Eval, StmtAt, ExprAt, SizeStmt, Lands, ExecLoop, LoopAt, LoopEnd, SizeExpr, Agrees, LoopNext;
    NextInside(top, g, i, b, next);
    LoopParts(k.at, top, g, i, b, env, Addr(next));
    var pile := temps + left;
    var after := top + SizeOpt(g, 5) + SizeStmt(b, LOOP_SHAPE);
    if i.None? {
      if !continued || next != top { JumpsBack(k, m, top, c, after, st, pile, cm); }
      y := SimAgain(k, m, g, i, b, next, env, c, top, st, temps, left, cm, fuel);
    } else {
      var end := LoopEnd(top, g, i, b);
      var m1 := Mk(c, after, st, pile, cm);
      var z := Eval(k.w, k.prog, i.value, st, fuel - 1);
      var cm1 := SimIter(k, i.value, end, env, c, top, after, st, pile, cm, fuel - 1);
      if z.Val? {
        Then(k, m, m1, Next(Mk(c, top, z.st, pile, cm1)));
        y := SimAgain(k, m, g, i, b, next, env, c, top, z.st, temps, left, cm1, fuel);
      } else {
        y := Landing(cm1, 0, 0);
        Onward(k, m, m1, c, env, env.cleanup, end, temps, left, y, Ended(z));
      }
    }
  }

  lemma SimAgain(k: Image, m: Machine, g: Option<Expr>, i: Option<Expr>, b: Stmt, next: nat, env: Env, c: Activation, top: nat, st: State, temps: seq<u64>, left: seq<u64>, cm: map<u32, u32>, fuel: nat)
    returns (y: Landing)
    requires fuel > 0 && Ready(k, env, c, cm) && LoopAt(k.at, top, g, i, b, env, Addr(next))
    requires LoopEnd(top, g, i, b) <= |k.code| && LoopNext(top, g, i, b, next)
    requires Gets(k, m, Next(Mk(c, top, st, temps + left, cm)))
    ensures Grown(k, cm, y.cm)
    ensures Lands(k, m, c, env, env.cleanup, LoopEnd(top, g, i, b), temps, y,
                  After(left, ExecLoop(k.w, k.prog, g, i, b, st, fuel - 1)))
    decreases fuel - 1, b, 3
  {
    hide Registered, Mk, Goes, Linked, Lands, ExecLoop, LoopAt, LoopEnd, Agrees, LoopNext;
    y := SimLoop(k, g, i, b, next, env, c, top, st, temps + left, cm, fuel - 1);
    Onward(k, m, Mk(c, top, st, temps + left, cm), c, env, env.cleanup, LoopEnd(top, g, i, b), temps, left, y,
           ExecLoop(k.w, k.prog, g, i, b, st, fuel - 1));
  }

  /** The iteration expression, discarded, and the jump back to the top. */
  lemma SimIter(k: Image, e: Expr, end: nat, env: Env, c: Activation, top: nat, after: nat, st: State, temps: seq<u64>, cm: map<u32, u32>, fuel: nat)
    returns (cm1: map<u32, u32>)
    requires AtExpr(k, e, env, c, after, cm) && top <= |k.code|
    requires InstrAt(k.at, after + SizeExpr(e), Pop) && InstrAt(k.at, after + SizeExpr(e) + 1, Jump(Addr(top)))
    ensures Grown(k, cm, cm1)
    ensures var z := Eval(k.w, k.prog, e, st, fuel);
            if z.Val? then Gets(k, Mk(c, after, st, temps, cm), Next(Mk(c, top, z.st, temps, cm1)))
            else Lands(k, Mk(c, after, st, temps, cm), c, env, env.cleanup, end, temps, Landing(cm1, 0, 0), Ended(z))
    decreases fuel, e, 2
  {
    hide Mk, Goes, Linked, Eval, ExprAt, SizeExpr, Lands;
    var m := Mk(c, after, st, temps, cm);
    var q := after + SizeExpr(e);
    cm1 := SimExpr(k, e, env, c, after, st, temps, cm, fuel);
    var z := Eval(k.w, k.prog, e, st, fuel);
    if z.Val? {
      DoDrop(k, c, q, z.st, temps, z.v, cm1);
      Then(k, m, Mk(c, q, z.st, temps + [z.v], cm1), Next(Mk(c, q + 1, z.st, temps, cm1)));
      JumpsBack(k, m, top, c, q + 1, z.st, temps, cm1);
    } else {
      EndedLands(k, m, c, env, q, end, temps, cm1, z);
    }
  }

  lemma JumpsBack(k: Image, m: Machine, top: nat, c: Activation, q: nat, st: State, temps: seq<u64>, cm: map<u32, u32>)
    requires Linked(k) && top <= |k.code| && InstrAt(k.at, q, Jump(Addr(top))) && Gets(k, m, Next(Mk(c, q, st, temps, cm)))
    ensures Gets(k, m, Next(Mk(c, top, st, temps, cm)))
  {
    hide Mk, Goes, Linked;
    AddrIs(k, top);
    DoJump(k, Addr(top), c, q, st, temps, cm);
    Then(k, m, Mk(c, q, st, temps, cm), Next(Mk(c, top, st, temps, cm)));
  }

  lemma SimWhile(k: Image, s: Stmt, env: Env, conv: Conv, c: Activation, p: nat, st: State, temps: seq<u64>, cm: map<u32, u32>, fuel: nat)
    returns (x: Landing)
    requires Ready(k, env, c, cm) && Placeable(k, s, env, conv, p) && s.While?
    ensures Grown(k, cm, x.cm)
    ensures Lands(k, Mk(c, p, st, temps, cm), c, env, env.cleanup, p + SizeStmt(s, ShapeOf(env)), temps, x,
                  Exec(k.w, k.prog, conv, s, st, fuel))
    decreases fuel, s, 0
  {
    hide Registered, Mk, Goes, Linked, ExprAt, Lands, ExecLoop, LoopAt;
    x := SimLoop(k, Some(s.cond), None, s.loop, p, env, c, p, st, temps, cm, fuel);
  }

  lemma SimFor(k: Image, s: Stmt, env: Env, conv: Conv, c: Activation, p: nat, st: State, temps: seq<u64>, cm: map<u32, u32>, fuel: nat)
    returns (x: Landing)
    requires Ready(k, env, c, cm) && s.For? && Placeable(k, s.start, env, conv, p)
    requires var top := p + SizeStmt(s.start, ShapeOf(env));
             LoopAt(k.at, top, s.guard, s.iter, s.loop, env, Addr(top + SizeOpt(s.guard, 5) + SizeStmt(s.loop, LOOP_SHAPE))) &&
             LoopEnd(top, s.guard, s.iter, s.loop) <= |k.code|
    ensures Grown(k, cm, x.cm)
    ensures Lands(k, Mk(c, p, st, temps, cm), c, env, env.cleanup,
                  LoopEnd(p + SizeStmt(s.start, ShapeOf(env)), s.guard, s.iter, s.loop), temps, x,
                  ExecFor(k.w, k.prog, conv, s, st, fuel))
    decreases fuel, s, 0
  {
    hide Registered, Addr, Mk, Goes, Linked, ExecLoop, LoopAt, Exec, StmtAt, SizeStmt, Placeable, LoopEnd, Agrees, LeapAt, Climbs;
    var m := Mk(c, p, st, temps, cm);
    var r := Exec(k.w, k.prog, conv, s.start, st, fuel);
    x := SimStmt(k, s.start, env, conv, c, p, st, temps, cm, fuel);
    if r.Done? && r.o == Normal {
      var top := p + SizeStmt(s.start, ShapeOf(env));
      var next := top + SizeOpt(s.guard, 5) + SizeStmt(s.loop, LOOP_SHAPE);
      x := SimAgain(k, m, s.guard, s.iter, s.loop, next, env, c, top, r.st, temps, r.left, x.cm, fuel + 1);
    }
  }

  /** A loop tested at its bottom. */
  lemma SimDo(k: Image, b: Stmt, e: Expr, env: Env, c: Activation, p: nat, st: State, temps: seq<u64>, cm: map<u32, u32>, fuel: nat)
    returns (y: Landing)
    requires Ready(k, env, c, cm) && DoAt(k.at, p, b, e, env) && p + SizeStmt(b, LOOP_SHAPE) + SizeExpr(e) + 5 <= |k.code|
    ensures Grown(k, cm, y.cm)
    ensures Lands(k, Mk(c, p, st, temps, cm), c, env, env.cleanup, p + SizeStmt(b, LOOP_SHAPE) + SizeExpr(e) + 5, temps, y,
                  ExecDo(k.w, k.prog, b, e, st, fuel))
    decreases fuel, b, 5
  {
    hide Registered, Addr, Mk, Goes, Linked, Eval, Exec, ExprAt, StmtAt, SizeStmt, SizeExpr, Lands, Agrees, DoAt, ExecDo, Until, Cut, InFunction;
    DoParts(k.at, p, b, e, env);
    DoIs(k.w, k.prog, b, e, st, fuel);
    var m := Mk(c, p, st, temps, cm);
    var q := p + SizeStmt(b, LOOP_SHAPE);
    var end := q + SizeExpr(e) + 5;
    y := Landing(cm, 0, 0);
    if fuel == 0 {
      NoLanding(k, m, c, env, env.cleanup, end, temps, y);
    } else {
      Stay(k, m);
      y := SimLoopBody(k, m, b, end, q, env, c, p, st, temps, cm, fuel - 1);
      var r := Cut(Exec(k.w, k.prog, Keep, b, st, fuel - 1));
      if r.Done? && (r.o == Normal || r.o == Continuing) {
        y := SimBottom(k, m, b, e, env, c, p, r.st, temps, r.left, y.cm, fuel);
      }
    }
  }

  /** On to the test, from a machine that has run the body. */
  lemma SimBottom(k: Image, m: Machine, b: Stmt, e: Expr, env: Env, c: Activation, p: nat, st: State, temps: seq<u64>, left: seq<u64>, cm: map<u32, u32>, fuel: nat)
    returns (y: Landing)
    requires fuel > 0 && Ready(k, env, c, cm) && DoAt(k.at, p, b, e, env) && p + SizeStmt(b, LOOP_SHAPE) + SizeExpr(e) + 5 <= |k.code|
    requires Gets(k, m, Next(Mk(c, p + SizeStmt(b, LOOP_SHAPE), st, temps + left, cm)))
    ensures Grown(k, cm, y.cm)
    ensures Lands(k, m, c, env, env.cleanup, p + SizeStmt(b, LOOP_SHAPE) + SizeExpr(e) + 5, temps, y,
                  After(left, Until(k.w, k.prog, b, e, st, fuel)))
    decreases fuel, b, 4
  {
    hide Registered, Mk, Goes, Linked, SizeStmt, SizeExpr, Lands, DoAt, Until, InFunction;
    var q := p + SizeStmt(b, LOOP_SHAPE);
    y := SimUntil(k, b, e, env, c, p, st, temps + left, cm, fuel);
    Onward(k, m, Mk(c, q, st, temps + left, cm), c, env, env.cleanup, q + SizeExpr(e) + 5, temps, left, y, Until(k.w, k.prog, b, e, st, fuel));
  }

  lemma DoParts(at: Listing, p: nat, b: Stmt, e: Expr, env: Env)
    requires DoAt(at, p, b, e, env)
    ensures var q := p + SizeStmt(b, LOOP_SHAPE);
            StmtAt(at, p, b, LoopEnv(env, Addr(q + SizeExpr(e) + 5), Addr(q))) &&
            ExprAt(at, q, e, env) && InstrAt(at, q + SizeExpr(e), JumpIfTrue(Addr(p)))
  {
    hide StmtAt, ExprAt, SizeStmt, SizeExpr;
  }

  lemma BranchesBack(k: Image, m: Machine, top: nat, v: u64, c: Activation, q: nat, st: State, temps: seq<u64>, cm: map<u32, u32>)
    requires Linked(k) && top <= |k.code| && InstrAt(k.at, q, JumpIfTrue(Addr(top)))
    requires Gets(k, m, Next(Mk(c, q, st, temps + [v], cm)))
    ensures Gets(k, m, Next(Mk(c, if v == 0 then q + 5 else top, st, temps, cm)))
  {
    hide Mk, Goes, Linked;
    AddrIs(k, top);
    DoBranch(k, false, Addr(top), v, c, q, st, temps, cm);
    Then(k, m, Mk(c, q, st, temps + [v], cm), Next(Mk(c, if v == 0 then q + 5 else top, st, temps, cm)));
  }

  /** The test at the bottom: back to the top, out of the loop, or ended. */
  lemma SimTest(k: Image, e: Expr, top: nat, end: nat, env: Env, c: Activation, q: nat, st: State, temps: seq<u64>, cm: map<u32, u32>, fuel: nat)
    returns (cm1: map<u32, u32>)
    requires AtExpr(k, e, env, c, q, cm) && end == q + SizeExpr(e) + 5 && top <= |k.code|
    requires InstrAt(k.at, q + SizeExpr(e), JumpIfTrue(Addr(top)))
    ensures Grown(k, cm, cm1)
    ensures var x := Eval(k.w, k.prog, e, st, fuel);
            if x.Val?
            then Gets(k, Mk(c, q, st, temps, cm), Next(Mk(c, if x.v == 0 then end else top, x.st, temps, cm1)))
            else Lands(k, Mk(c, q, st, temps, cm), c, env, env.cleanup, end, temps, Landing(cm1, 0, 0), Ended(x))
    decreases fuel, e, 2
  {
    hide Addr, Mk, Goes, Linked, Eval, ExprAt, SizeExpr, Lands, Registered;
    var back := q + SizeExpr(e);
    var m := Mk(c, q, st, temps, cm);
    cm1 := SimExpr(k, e, env, c, q, st, temps, cm, fuel);
    var x := Eval(k.w, k.prog, e, st, fuel);
    if x.Val? {
      BranchesBack(k, m, top, x.v, c, back, x.st, temps, cm1);
    } else {
      EndedLands(k, m, c, env, back, end, temps, cm1, x);
    }
  }

  /** The test at the bottom and the rounds after it. */
  lemma SimUntil(k: Image, b: Stmt, e: Expr, env: Env, c: Activation, p: nat, st: State, temps: seq<u64>, cm: map<u32, u32>, fuel: nat)
    returns (y: Landing)
    requires fuel > 0 && Ready(k, env, c, cm) && DoAt(k.at, p, b, e, env) && p + SizeStmt(b, LOOP_SHAPE) + SizeExpr(e) + 5 <= |k.code|
    ensures Grown(k, cm, y.cm)
    ensures Lands(k, Mk(c, p + SizeStmt(b, LOOP_SHAPE), st, temps, cm), c, env, env.cleanup,
                  p + SizeStmt(b, LOOP_SHAPE) + SizeExpr(e) + 5, temps, y, Until(k.w, k.prog, b, e, st, fuel))
    decreases fuel, b, 3
  {
    hide Addr, Mk, Goes, Linked, Eval, ExecDo, ExprAt, StmtAt, SizeStmt, SizeExpr, Lands, Agrees, DoAt, Registered, InFunction, Until;
    DoParts(k.at, p, b, e, env);
    UntilIs(k.w, k.prog, b, e, st, fuel);
    var q := p + SizeStmt(b, LOOP_SHAPE);
    var end := q + SizeExpr(e) + 5;
    var m := Mk(c, q, st, temps, cm);
    var cm1 := SimTest(k, e, p, end, env, c, q, st, temps, cm, fuel - 1);
    y := Landing(cm1, 0, 0);
    var x := Eval(k.w, k.prog, e, st, fuel - 1);
    if x.Val? && x.v == 0 {
      LandsNormally(k, m, c, env, env.cleanup, end, x.st, temps, cm1);
    } else if x.Val? {
      y := SimDo(k, b, e, env, c, p, x.st, temps, cm1, fuel - 1);
      var m1 := Mk(c, p, x.st, temps, cm1);
      OnwardClean(k, m, m1, c, env, env.cleanup, end, temps, y, ExecDo(k.w, k.prog, b, e, x.st, fuel - 1));
    }
  }

  // --------------------------------------------------------------- blocks and lists

  lemma SimSeq(k: Image, ss: Stmts, env: Env, conv: Conv, c: Activation, p: nat, st: State, temps: seq<u64>, cm: map<u32, u32>, fuel: nat)
    returns (x: Landing)
    requires Ready(k, env, c, cm) && SeqAt(k.at, p, ss, env) && p + SizeSeq(ss, ShapeOf(env)) <= |k.code|
    requires Agrees(env, conv)
    ensures Grown(k, cm, x.cm)
    ensures Lands(k, Mk(c, p, st, temps, cm), c, env, env.cleanup, p + SizeSeq(ss, ShapeOf(env)), temps, x,
                  ExecSeq(k.w, k.prog, conv, ss, st, fuel))
    decreases fuel, ss, 1
  {
    hide Registered, Mk, Goes, Linked, StmtAt, SizeStmt, Exec, LeapAt, Climbs;
    var m := Mk(c, p, st, temps, cm);
    match ss
    case Nil =>
      x := Landing(cm, 0, 0);
      assert temps + [] == temps;
      Stay(k, m);
    case Cons(s, rest) =>
      x := SimStmt(k, s, env, conv, c, p, st, temps, cm, fuel);
      var r := Exec(k.w, k.prog, conv, s, st, fuel);
      if r.Done? && r.o == Normal {
        var q := p + SizeStmt(s, ShapeOf(env));
        var m1 := Mk(c, q, r.st, temps + r.left, x.cm);
        x := SimSeq(k, rest, env, conv, c, q, r.st, temps + r.left, x.cm, fuel);
        Onward(k, m, m1, c, env, env.cleanup, p + SizeSeq(ss, ShapeOf(env)), temps, r.left, x,
               ExecSeq(k.w, k.prog, conv, rest, r.st, fuel));
      }
  }

  lemma {:induction false} ReleasesSplit(at: Listing, p: nat, a: seq<u32>, b: seq<u32>)
    ensures ReleasesAt(at, p, a + b) <==> ReleasesAt(at, p, a) && ReleasesAt(at, p + SizeReleases(a), b)
    decreases |a|
  {
    hide SlotMask;
    if a == [] {
      assert a + b == b;
    } else {
      assert (a + b)[1..] == a[1..] + b;
      ReleasesSplit(at, p + RELEASE_SIZE, a[1..], b);
    }
  }

  /** Leaving a block: whatever the way out, its own slots are released first. */
  lemma LeavesBlock(k: Image, m: Machine, slots: seq<u32>, c: Activation, env: Env, inner: Env, q: nat, catch: nat, end: nat, exit: nat,
                    temps: seq<u64>, x: Landing, r: Result)
    returns (y: Landing)
    requires Linked(k) && InFunction(c) && inner == InnerEnv(env, slots, Addr(catch)) && env.fns == k.fns
    requires ReleasesAt(k.at, q, slots) && InstrAt(k.at, q + SizeReleases(slots), Jump(Addr(end))) && end <= |k.code|
    requires ReleasesAt(k.at, catch, slots) && GoesTo(k, catch + SizeReleases(slots), exit)
    requires Lands(k, m, c, inner, catch, q, temps, x, r) && (r.Done? && !r.o.Escaping? ==> InFrame(slots, |r.st.locals|))
    ensures y.cm == x.cm
    ensures Lands(k, m, c, env, exit, end, temps, y, if r.Done? && !r.o.Escaping? then r.(st := ReleaseAll(r.st, slots)) else r)
  {
    hide Mk, Goes, Linked, ReleasesAt, ReleaseAll, BlockAt;
    y := x;
    if r.Done? && !r.o.Escaping? {
      var st1 := ReleaseAll(r.st, slots);
      var w := SizeReleases(slots);
      var pile := temps + r.left;
      AddrIs(k, end);
      match r.o {
        case Normal =>
          DoReleases(k, slots, c, q, r.st, pile, x.cm);
          Then(k, m, Mk(c, q, r.st, pile, x.cm), Next(Mk(c, q + w, st1, pile, x.cm)));
          DoJump(k, Addr(end), c, q + w, st1, pile, x.cm);
          Then(k, m, Mk(c, q + w, st1, pile, x.cm), Next(Mk(c, end, st1, pile, x.cm)));
        case Throwing =>
          DoReleases(k, slots, c, catch, r.st, pile, x.cm);
          Then(k, m, Mk(c, catch, r.st, pile, x.cm), Next(Mk(c, catch + w, st1, pile, x.cm)));
          Follows(k, m, catch + w, exit, c, st1, pile, x.cm);
        case Returning(v) =>
          y := x.(pc := x.pc + w);
          DoReleases(k, slots, c, x.pc, r.st, pile + [v], x.cm);
          Then(k, m, Mk(c, x.pc, r.st, pile + [v], x.cm), Next(Mk(c, x.pc + w, st1, pile + [v], x.cm)));
        case Breaking =>
          y := x.(pc := x.pc + w);
          LeapsOut(k, m, slots, env.brk, c, r.st, pile, x);
        case Continuing =>
          y := x.(pc := x.pc + w);
          LeapsOut(k, m, slots, env.cont, c, r.st, pile, x);
      }
    }
  }

  /** Control passes from p to q, by falling through or by a jump. */
  ghost predicate GoesTo(k: Image, p: nat, q: nat) {
    p == q || (q < HOLE && InstrAt(k.at, p, Jump(q)))
  }

  lemma Follows(k: Image, m: Machine, p: nat, q: nat, c: Activation, st: State, temps: seq<u64>, cm: map<u32, u32>)
    requires Linked(k) && GoesTo(k, p, q) && Gets(k, m, Next(Mk(c, p, st, temps, cm)))
    ensures Gets(k, m, Next(Mk(c, q, st, temps, cm)))
  {
    hide Mk, Goes, Linked;
    if p != q {
      DoJump(k, q, c, p, st, temps, cm);
      Then(k, m, Mk(c, p, st, temps, cm), Next(Mk(c, q, st, temps, cm)));
    }
  }

  lemma LeapsOut(k: Image, m: Machine, slots: seq<u32>, leap: Leap, c: Activation, st: State, pile: seq<u64>, x: Landing)
    requires Linked(k) && InFunction(c) && LeapAt(k.at, x.pc, Through(slots, leap)) && InFrame(slots, |st.locals|)
    requires Gets(k, m, Next(Mk(c, x.pc, st, pile, x.cm)))
    ensures LeapAt(k.at, x.pc + SizeReleases(slots), leap)
    ensures Gets(k, m, Next(Mk(c, x.pc + SizeReleases(slots), ReleaseAll(st, slots), pile, x.cm)))
  {
    hide Mk, Goes, Linked, ReleasesAt, ReleaseAll;
    var q := x.pc + SizeReleases(slots);
    ReleasesSplit(k.at, x.pc, slots, leap.slots);
    DoReleases(k, slots, c, x.pc, st, pile, x.cm);
    Then(k, m, Mk(c, x.pc, st, pile, x.cm), Next(Mk(c, q, ReleaseAll(st, slots), pile, x.cm)));
  }

  lemma SimBlock(k: Image, body: Stmts, env: Env, exit: u32, conv: Conv, c: Activation, p: nat, st: State, temps: seq<u64>, cm: map<u32, u32>, fuel: nat)
    returns (y: Landing)
    requires Ready(k, env, c, cm) && BlockAt(k.at, p, body, env, exit) && p + SizeBlock(body, ShapeOf(env)) <= |k.code|
    requires exit != HOLE
    requires Agrees(env, conv)
    ensures Grown(k, cm, y.cm)
    ensures Lands(k, Mk(c, p, st, temps, cm), c, env, exit, p + SizeBlock(body, ShapeOf(env)), temps, y,
                  ExecBlock(k.w, k.prog, conv, body, st, fuel))
    decreases fuel, body, 2
  {
    hide Registered, Addr, Mk, Goes, Linked, SeqAt, SizeSeq, ExecSeq, ReleasesAt, ReleaseAll, Lands;
    var m := Mk(c, p, st, temps, cm);
    var slots := RefSlots(body);
    var q := p + SizeSeq(body, InnerShape(ShapeOf(env), slots));
    var catch := q + SizeReleases(slots) + 5;
    var end := catch + SizeReleases(slots) + 5;
    var inner := InnerEnv(env, slots, Addr(catch));
    assert ShapeOf(inner) == InnerShape(ShapeOf(env), slots);
    AddrIs(k, catch);
    y := SimSeq(k, body, inner, conv, c, p, st, temps, cm, fuel);
    var r := ExecSeq(k.w, k.prog, conv, body, st, fuel);
    if r.Done? && !r.o.Escaping? && !InFrame(slots, |st.locals|) {
      NoLanding(k, m, c, env, exit, end, temps, y);
    } else {
      y := LeavesBlock(k, m, slots, c, env, inner, q, catch, end, exit, temps, y, r);
    }
  }

  lemma NoLanding(k: Image, m: Machine, c: Activation, env: Env, catcher: nat, end: nat, temps: seq<u64>, x: Landing)
    ensures Lands(k, m, c, env, catcher, end, temps, x, NoResult)
  {
  }

  // ----------------------------------------------------------------------- switches

  lemma SimCases(k: Image, cases: Cases, env: Env, c: Activation, p: nat, st: State, temps: seq<u64>, cm: map<u32, u32>, fuel: nat)
    returns (x: Landing)
    requires Ready(k, env, c, cm) && CasesAt(k.at, p, cases, env) && p + SizeCases(cases) <= |k.code| && ShapeOf(env) == SWITCH_SHAPE
    ensures Grown(k, cm, x.cm)
    ensures Lands(k, Mk(c, p, st, temps, cm), c, env, env.cleanup, p + SizeCases(cases), temps, x,
                  ExecCases(k.w, k.prog, cases, st, fuel))
    decreases fuel, cases, 1
  {
    hide Registered, Mk, Goes, Linked, SeqAt, SizeSeq, ExecSeq, Lands;
    var m := Mk(c, p, st, temps, cm);
    match cases
    case NoCase =>
      x := Landing(cm, 0, 0);
      Stay(k, m);
      LandsNormally(k, m, c, env, env.cleanup, p, st, temps, cm);
    case Default(body) =>
      x := SimSeq(k, body, env, Keep, c, p, st, temps, cm, fuel);
    case Case(_, body, rest) =>
      x := SimSeq(k, body, env, Keep, c, p, st, temps, cm, fuel);
      var r := ExecSeq(k.w, k.prog, Keep, body, st, fuel);
      var end := p + SizeCases(cases);
      if r.Done? && r.o == Normal {
        var q := p + SizeSeq(body, SWITCH_SHAPE);
        LandedNormally(k, m, c, env, env.cleanup, q, temps, x, r);
        var m1 := Mk(c, q, r.st, temps + r.left, x.cm);
        x := SimCases(k, rest, env, c, q, r.st, temps + r.left, x.cm, fuel);
        Onward(k, m, m1, c, env, env.cleanup, end, temps, r.left, x, ExecCases(k.w, k.prog, rest, r.st, fuel));
      } else {
        LandsEarly(k, m, c, env, env.cleanup, p + SizeSeq(body, SWITCH_SHAPE), end, temps, x, r);
      }
  }

  lemma LandedNormally(k: Image, m: Machine, c: Activation, env: Env, catcher: nat, end: nat, temps: seq<u64>, x: Landing, r: Result)
    requires Lands(k, m, c, env, catcher, end, temps, x, r) && r.Done? && r.o == Normal
    ensures Gets(k, m, Next(Mk(c, end, r.st, temps + r.left, x.cm)))
  {
  }

  /** Where a statement would have ended does not matter when it left another way. */
  lemma LandsEarly(k: Image, m: Machine, c: Activation, env: Env, catcher: nat, end: nat, end1: nat, temps: seq<u64>, x: Landing, r: Result)
    requires Lands(k, m, c, env, catcher, end, temps, x, r) && !(r.Done? && r.o == Normal)
    ensures Lands(k, m, c, env, catcher, end1, temps, x, r)
  {
    hide Mk, Goes, LeapAt, Climbs;
  }

  /** The comparison ladder, then the bodies from the first match on. */
  lemma SimSwitch(k: Image, cases: Cases, v: u64, body: nat, end: nat, env: Env, c: Activation, p: nat, st: State, temps: seq<u64>, cm: map<u32, u32>, fuel: nat)
    returns (x: Landing)
    requires Ready(k, env, c, cm) && DispatchAt(k.at, p, cases, body, env) && p + SizeDispatch(cases) <= |k.code|
    requires CasesAt(k.at, body, cases, SwitchEnv(env, Addr(end))) && body + SizeCases(cases) == end <= |k.code|
    ensures Grown(k, cm, x.cm)
    ensures Lands(k, Mk(c, p, st, temps + [v], cm), c, SwitchEnv(env, Addr(end)), env.cleanup, end, temps + [v], x,
                  ExecSwitch(k.w, k.prog, v, cases, st, fuel))
    decreases fuel, cases, 3
  {
    hide Registered, Addr, Mk, Goes, Linked, CasesAt, SizeCases, ExecCases, Eval, ExprAt, SizeExpr, Lands, Agrees, SizeSeq;
    var inner := SwitchEnv(env, Addr(end));
    var pile := temps + [v];
    var m := Mk(c, p, st, pile, cm);
    if cases.Case? {
      var q := p + 1 + SizeExpr(cases.value);
      var hit, cm1 := SimLabel(k, cases.value, v, body, end, env, c, p, st, temps, cm, fuel);
      x := Landing(cm1, 0, 0);
      var e := Eval(k.w, k.prog, cases.value, st, fuel);
      if e.Val? && e.v == v {
        x := SimCases(k, cases, inner, c, body, e.st, pile, cm1, fuel);
        OnwardClean(k, m, Mk(c, body, e.st, pile, cm1), c, inner, env.cleanup, end, pile, x, ExecCases(k.w, k.prog, cases, e.st, fuel));
      } else if e.Val? {
        NextCase(k.at, cases, body, end, inner);
        x := SimSwitch(k, cases.rest, v, body + SizeSeq(cases.body, SWITCH_SHAPE), end, env, c, q + 6, e.st, temps, cm1, fuel);
        OnwardClean(k, m, Mk(c, q + 6, e.st, pile, cm1), c, inner, env.cleanup, end, pile, x,
                    ExecSwitch(k.w, k.prog, v, cases.rest, e.st, fuel));
      }
    } else {
      x := SimLastCase(k, cases, v, body, end, env, c, p, st, temps, cm, fuel);
    }
  }

  /** Behind the comparisons: the default, or the end. */
  lemma SimLastCase(k: Image, cases: Cases, v: u64, body: nat, end: nat, env: Env, c: Activation, p: nat, st: State, temps: seq<u64>, cm: map<u32, u32>, fuel: nat)
    returns (x: Landing)
    requires !cases.Case? && Ready(k, env, c, cm) && DispatchAt(k.at, p, cases, body, env) && p + SizeDispatch(cases) <= |k.code|
    requires CasesAt(k.at, body, cases, SwitchEnv(env, Addr(end))) && body + SizeCases(cases) == end <= |k.code|
    ensures Grown(k, cm, x.cm)
    ensures Lands(k, Mk(c, p, st, temps + [v], cm), c, SwitchEnv(env, Addr(end)), env.cleanup, end, temps + [v], x,
                  ExecSwitch(k.w, k.prog, v, cases, st, fuel))
    decreases fuel, cases, 2
  {
    hide Registered, Addr, Mk, Goes, Linked, CasesAt, SizeCases, ExecCases, Eval, Lands, Agrees, SizeSeq;
    var inner := SwitchEnv(env, Addr(end));
    var pile := temps + [v];
    AddrIs(k, body);
    DoJump(k, Addr(body), c, p, st, pile, cm);
    x := SimCases(k, cases, inner, c, body, st, pile, cm, fuel);
    OnwardClean(k, Mk(c, p, st, pile, cm), Mk(c, body, st, pile, cm), c, inner, env.cleanup, end, pile, x, ExecCases(k.w, k.prog, cases, st, fuel));
    NoCaseIsSkip(k.w, k.prog, v, cases, st, fuel);
  }

  lemma NoCaseIsSkip(w: World, prog: Program, v: u64, cases: Cases, st: State, fuel: nat)
    requires !cases.Case?
    ensures ExecSwitch(w, prog, v, cases, st, fuel) == ExecCases(w, prog, cases, st, fuel)
  {
  }

  lemma NextCase(at: Listing, cases: Cases, body: nat, end: nat, env: Env)
    requires cases.Case? && CasesAt(at, body, cases, env) && body + SizeCases(cases) == end
    ensures var next := body + SizeSeq(cases.body, SWITCH_SHAPE);
            CasesAt(at, next, cases.rest, env) && next + SizeCases(cases.rest) == end
  {
    hide SeqAt, SizeSeq;
  }

  /** One rung: copy the subject, evaluate the label, compare, branch. */
  lemma SimLabel(k: Image, e: Expr, v: u64, body: nat, end: nat, env: Env, c: Activation, p: nat, st: State, temps: seq<u64>, cm: map<u32, u32>, fuel: nat)
    returns (hit: bool, cm1: map<u32, u32>)
    requires Ready(k, env, c, cm) && body <= |k.code| && p + 1 + SizeExpr(e) <= |k.code|
    requires InstrAt(k.at, p, Dup) && ExprAt(k.at, p + 1, e, env) && InstrAt(k.at, p + 1 + SizeExpr(e), Binary(Eq)) &&
             InstrAt(k.at, p + 2 + SizeExpr(e), JumpIfTrue(Addr(body)))
    ensures Grown(k, cm, cm1)
    ensures var x := Eval(k.w, k.prog, e, st, fuel);
            var m := Mk(c, p, st, temps + [v], cm);
            if x.Val?
            then Gets(k, m, Next(Mk(c, if x.v == v then body else p + 7 + SizeExpr(e), x.st, temps + [v], cm1)))
            else Lands(k, m, c, SwitchEnv(env, Addr(end)), env.cleanup, end, temps + [v], Landing(cm1, 0, 0), Ended(Under([v], x)))
    decreases fuel, e, 2
  {
    hide Registered, Addr, Mk, Goes, Linked, Eval, ExprAt, SizeExpr, Lands;
    var pile := temps + [v];
    var m, m1 := Mk(c, p, st, pile, cm), Mk(c, p + 1, st, pile + [v], cm);
    var q := p + 1 + SizeExpr(e);
    DoDup(k, c, p, st, temps, v, cm);
    cm1 := SimExpr(k, e, env, c, p + 1, st, pile + [v], cm, fuel);
    var x := Eval(k.w, k.prog, e, st, fuel);
    Resume(k, m, m1, c, env.cleanup, q, pile, [v], cm1, x);
    hit := x.Val? && x.v == v;
    if x.Val? {
      AddrIs(k, body);
      DoApply(k, Eq, v, x.v, c, q, x.st, pile, cm1);
      Then(k, m, Mk(c, q, x.st, pile + [v] + [x.v], cm1), Next(Mk(c, q + 1, x.st, pile + [Truth(v == x.v)], cm1)));
      DoBranch(k, false, Addr(body), Truth(v == x.v), c, q + 1, x.st, pile, cm1);
      Then(k, m, Mk(c, q + 1, x.st, pile + [Truth(v == x.v)], cm1), Next(Mk(c, if hit then body else q + 6, x.st, pile, cm1)));
    } else {
      EndedLands(k, m, c, SwitchEnv(env, Addr(end)), q, end, pile, cm1, Under([v], x));
    }
  }

  lemma SimSwitchStmt(k: Image, s: Stmt, env: Env, conv: Conv, c: Activation, p: nat, st: State, temps: seq<u64>, cm: map<u32, u32>, fuel: nat)
    returns (x: Landing)
    requires Ready(k, env, c, cm) && s.Switch? && SwitchAt(k.at, p, s.subject, s.cases, env)
    requires p + SizeExpr(s.subject) + SizeDispatch(s.cases) + SizeCases(s.cases) + 1 <= |k.code|
    requires Agrees(env, conv)
    ensures Grown(k, cm, x.cm)
    ensures Lands(k, Mk(c, p, st, temps, cm), c, env, env.cleanup,
                  p + SizeExpr(s.subject) + SizeDispatch(s.cases) + SizeCases(s.cases) + 1, temps, x,
                  ExecSwitchStmt(k.w, k.prog, conv, s, st, fuel))
    decreases fuel, s, 0
  {
    hide Registered, Addr, Mk, Goes, Linked, DispatchAt, CasesAt, SizeDispatch, SizeCases, ExecSwitch, Eval, ExprAt, SizeExpr, Lands;
    var m := Mk(c, p, st, temps, cm);
    var q := p + SizeExpr(s.subject);
    var bodies := q + SizeDispatch(s.cases);
    var end := bodies + SizeCases(s.cases);
    var inner := SwitchEnv(env, Addr(end));
    var cm1 := SimExpr(k, s.subject, env, c, p, st, temps, cm, fuel);
    x := Landing(cm1, 0, 0);
    var e := Eval(k.w, k.prog, s.subject, st, fuel);
    if !e.Val? {
      EndedLands(k, m, c, env, q, end + 1, temps, cm1, e);
    } else {
      x := SimSwitch(k, s.cases, e.v, bodies, end, env, c, q, e.st, temps, cm1, fuel);
      var r := ExecSwitch(k.w, k.prog, e.v, s.cases, e.st, fuel);
      Onward(k, m, Mk(c, q, e.st, temps + [e.v], cm1), c, inner, env.cleanup, end, temps, [e.v], x, r);
      x := LeavesSwitch(k, m, c, env, end, temps, x, After([e.v], r), After([e.v], Cut(r)));
    }
  }

  /** Normal completion and break meet at the final POP. */
  lemma LeavesSwitch(k: Image, m: Machine, c: Activation, env: Env, end: nat, temps: seq<u64>, x: Landing, r0: Result, r: Result)
    returns (y: Landing)
    requires Linked(k) && end <= |k.code| && InstrAt(k.at, end, Pop)
    requires Lands(k, m, c, SwitchEnv(env, Addr(end)), env.cleanup, end, temps, x, r0) && r == Cut(r0)
    requires r.Done? ==> r.left != []
    ensures y.cm == x.cm
    ensures Lands(k, m, c, env, env.cleanup, end + 1, temps, y, Popped(r))
  {
    hide Mk, Goes, Linked, StmtAt;
    y := x;
    if r.Done? {
      if r.o == Breaking {
        AddrIs(k, end);
        DoJump(k, Addr(end), c, x.pc, r.st, temps + r.left, x.cm);
        Then(k, m, Mk(c, x.pc, r.st, temps + r.left, x.cm), Next(Mk(c, end, r.st, temps + r.left, x.cm)));
      }
      if r.o == Breaking || r.o == Normal {
        var rest, v := r.left[..|r.left| - 1], r.left[|r.left| - 1];
        assert temps + r.left == temps + rest + [v];
        DoDrop(k, c, end, r.st, temps + rest, v, x.cm);
        Then(k, m, Mk(c, end, r.st, temps + rest + [v], x.cm), Next(Mk(c, end + 1, r.st, temps + rest, x.cm)));
      }
    }
  }

  // --------------------------------------------------------------- try statements

  /** Clauses in order; when none matches, control reaches the clause list's end
      and goes on to where an exception in a clause would go. */
  lemma SimClauses(k: Image, clauses: Clauses, end: nat, env: Env, conv: Conv, c: Activation, p: nat, st: State, temps: seq<u64>, cm: map<u32, u32>, fuel: nat)
    returns (x: Landing)
    requires Ready(k, env, c, cm) && ClausesAt(k.at, p, clauses, env, Addr(end)) && end <= |k.code|
    requires p + SizeClauses(clauses, ShapeOf(env)) <= |k.code| && GoesTo(k, p + SizeClauses(clauses, ShapeOf(env)), env.cleanup)
    requires Agrees(env, conv)
    ensures Grown(k, cm, x.cm)
    ensures Lands(k, Mk(c, p, st, temps, cm), c, env, env.cleanup, end, temps, x, ExecClauses(k.w, k.prog, conv, clauses, st, fuel))
    decreases fuel, clauses, 3
  {
    hide Registered, Addr, Mk, Goes, Linked, BlockAt, SizeBlock, ExecBlock, Lands, IsInstance, Agrees, Caught, ClausesAt, SizeClauses, ClauseAt;
    var m := Mk(c, p, st, temps, cm);
    x := Landing(cm, 0, 0);
    if clauses.NoClause? {
      assert SizeClauses(clauses, ShapeOf(env)) == 0 by { NoClauseSize(ShapeOf(env)); }
      Stay(k, m);
      Follows(k, m, p, env.cleanup, c, st, temps, cm);
      LandsThrowing(k, m, c, env, env.cleanup, end, temps, st, cm);
    } else {
      var done := p + 18 + SizeBlock(clauses.body, ShapeOf(env));
      ClauseParts(k.at, p, clauses, env, end);
      SimMatch(k, clauses, done, end, env, c, p, st, temps, cm);
      if !IsInstance(k.w, st.trace, st.exc, clauses.classId) {

        x := SimClauses(k, clauses.rest, end, env, conv, c, done + 11, st, temps, cm, fuel);
        OnwardClean(k, m, Mk(c, done + 11, st, temps, cm), c, env, env.cleanup, end, temps, x,
                    ExecClauses(k.w, k.prog, conv, clauses.rest, st, fuel));
      } else if clauses.slot < |st.locals| {

        InstanceIsSet(k.w, st, clauses.classId);
        x := SimCaught(k, m, clauses.body, clauses.classId, clauses.slot, end, env, conv, c, p, st, temps, cm, fuel);
      } else {
        NoLanding(k, m, c, env, env.cleanup, end, temps, x);
      }
    }
  }

  lemma NoClauseSize(sh: Shape)
    ensures SizeClauses(NoClause, sh) == 0
  {
  }

  lemma ClauseParts(at: Listing, p: nat, clauses: Clauses, env: Env, end: nat)
    requires clauses.Clause? && ClausesAt(at, p, clauses, env, Addr(end))
    ensures var done := p + 18 + SizeBlock(clauses.body, ShapeOf(env));
            ClauseAt(at, p, done, clauses.classId, clauses.slot, clauses.body, env, Addr(end)) &&
            ClausesAt(at, done + 11, clauses.rest, env, Addr(end)) &&
            p + SizeClauses(clauses, ShapeOf(env)) == done + 11 + SizeClauses(clauses.rest, ShapeOf(env))
  {
    hide BlockAt, SizeBlock;
  }

  lemma InstanceIsSet(w: World, st: State, classId: u32)
    requires IsInstance(w, st.trace, st.exc, classId)
    ensures st.exc != 0
  {
  }

  lemma LandsThrowing(k: Image, m: Machine, c: Activation, env: Env, catcher: nat, end: nat, temps: seq<u64>, st: State, cm: map<u32, u32>)
    requires Gets(k, m, Next(Mk(c, catcher, st, temps, cm)))
    ensures Lands(k, m, c, env, catcher, end, temps, Landing(cm, 0, 0), Done(Throwing, st, []))
  {
    hide Mk, Goes;
    assert temps + [] == temps;
  }

  /** The type test of one clause. */
  lemma SimMatch(k: Image, clauses: Clauses, done: nat, end: nat, env: Env, c: Activation, p: nat, st: State, temps: seq<u64>, cm: map<u32, u32>)
    requires Linked(k) && InFunction(c) && done + 11 <= |k.code| && clauses.Clause?
    requires ClauseAt(k.at, p, done, clauses.classId, clauses.slot, clauses.body, env, Addr(end))
    ensures Gets(k, Mk(c, p, st, temps, cm),
                 Next(Mk(c, if IsInstance(k.w, st.trace, st.exc, clauses.classId) then p + 11 else done + 11, st, temps, cm)))
  {
    hide Mk, Goes, Linked, IsInstance, Low32, BlockAt;
    var m := Mk(c, p, st, temps, cm);
    var found := IsInstance(k.w, st.trace, st.exc, clauses.classId);
    SmallWord(st.exc);
    DoPush(k, GetException, st.exc, c, p, st, temps, cm);
    DoMap(k, InstanceOf(clauses.classId), st.exc, Truth(found), c, p + 1, st, temps, cm);
    Then(k, m, Mk(c, p + 1, st, temps + [st.exc as u64], cm), Next(Mk(c, p + 6, st, temps + [Truth(found)], cm)));
    Tested(k, m, done + 11, Truth(found), c, p + 6, st, temps, cm);
  }

  /** A matching clause: take the exception over, run the body, release the variable. */
  lemma SimCaught(k: Image, m: Machine, body: Stmts, classId: u32, slot: u32, end: nat, env: Env, conv: Conv, c: Activation, p: nat, st: State, temps: seq<u64>, cm: map<u32, u32>, fuel: nat)
    returns (x: Landing)
    requires Ready(k, env, c, cm) && end <= |k.code| && slot < |st.locals| && st.exc != 0
    requires var done := p + 18 + SizeBlock(body, ShapeOf(env));
             ClauseAt(k.at, p, done, classId, slot, body, env, Addr(end)) && done <= |k.code|
    requires Agrees(env, conv)
    requires Gets(k, m, Next(Mk(c, p + 11, st, temps, cm)))
    ensures Grown(k, cm, x.cm)
    ensures var r := ExecBlock(k.w, k.prog, conv, body, Caught(st, slot), fuel);
            Lands(k, m, c, env, env.cleanup, end, temps, x,
                  if r.Done? && r.o == Normal then r.(st := Log(r.st, Released(Low32(r.st.locals[slot])))) else r)
    decreases fuel, body, 3
  {
    hide Registered, Addr, Mk, Goes, Linked, BlockAt, SizeBlock, ExecBlock, Lands, Agrees, Low32, Caught;
    var st2 := Caught(st, slot);
    var done := p + 18 + SizeBlock(body, ShapeOf(env));
    CaughtFrame(st, slot);
    TakesOver(k, m, slot, c, p + 11, st, temps, cm);
    x := SimBlock(k, body, env, env.cleanup, conv, c, p + 18, st2, temps, cm, fuel);
    var r := ExecBlock(k.w, k.prog, conv, body, st2, fuel);
    OnwardClean(k, m, Mk(c, p + 18, st2, temps, cm), c, env, env.cleanup, done, temps, x, r);
    if r.Done? && r.o == Normal {
      LandedNormally(k, m, c, env, env.cleanup, done, temps, x, r);
      ReleasesVariable(k, m, slot, end, env, c, done, r.st, temps, r.left, x);
    } else {
      LandsEarly(k, m, c, env, env.cleanup, done, end, temps, x, r);
    }
  }

  lemma CaughtFrame(st: State, slot: u32)
    requires slot < |st.locals|
    ensures |Caught(st, slot).locals| == |st.locals|
  {
  }

  /** GET_EXCEPTION, SET_LOCAL, CLEAR_EXCEPTION. */
  lemma TakesOver(k: Image, m: Machine, slot: u32, c: Activation, q: nat, st: State, temps: seq<u64>, cm: map<u32, u32>)
    requires Linked(k) && InFunction(c) && slot < |st.locals| && st.exc != 0
    requires InstrAt(k.at, q, GetException) && InstrAt(k.at, q + 1, SetLocal(slot)) && InstrAt(k.at, q + 6, ClearException)
    requires Gets(k, m, Next(Mk(c, q, st, temps, cm)))
    ensures Gets(k, m, Next(Mk(c, q + 7, Caught(st, slot), temps, cm)))
  {
    hide Mk, Goes, Linked;
    var st1 := SetSlot(st, slot, st.exc);
    DoPush(k, GetException, st.exc, c, q, st, temps, cm);
    Then(k, m, Mk(c, q, st, temps, cm), Next(Mk(c, q + 1, st, temps + [st.exc as u64], cm)));
    DoSetLocal(k, slot, st.exc, c, q + 1, st, temps, cm);
    Then(k, m, Mk(c, q + 1, st, temps + [st.exc as u64], cm), Next(Mk(c, q + 6, st1, temps, cm)));
    DoClear(k, c, q + 6, st1, temps, cm);
    Then(k, m, Mk(c, q + 6, st1, temps, cm), Next(Mk(c, q + 7, Caught(st, slot), temps, cm)));
  }

  lemma ReleasesVariable(k: Image, m: Machine, slot: u32, end: nat, env: Env, c: Activation, q: nat, st: State, temps: seq<u64>, left: seq<u64>, x: Landing)
    requires Linked(k) && InFunction(c) && slot < |st.locals| && end <= |k.code|
    requires InstrAt(k.at, q, GetLocal(slot)) && InstrAt(k.at, q + 5, DecRef) && InstrAt(k.at, q + 6, Jump(Addr(end)))
    requires Gets(k, m, Next(Mk(c, q, st, temps + left, x.cm)))
    ensures Lands(k, m, c, env, env.cleanup, end, temps, x, Done(Normal, Log(st, Released(Low32(st.locals[slot]))), left))
  {
    hide Mk, Goes, Linked, Low32;
    var v, pile := st.locals[slot], temps + left;
    var st1 := Log(st, Released(Low32(v)));
    DoPush(k, GetLocal(slot), v, c, q, st, pile, x.cm);
    Then(k, m, Mk(c, q, st, pile, x.cm), Next(Mk(c, q + 5, st, pile + [v], x.cm)));
    DoDecRef(k, v, c, q + 5, st, pile, x.cm);
    Then(k, m, Mk(c, q + 5, st, pile + [v], x.cm), Next(Mk(c, q + 6, st1, pile, x.cm)));
    AddrIs(k, end);
    DoJump(k, Addr(end), c, q + 6, st1, pile, x.cm);
    Then(k, m, Mk(c, q + 6, st1, pile, x.cm), Next(Mk(c, end, st1, pile, x.cm)));
  }

  /** The parts of a try statement. */
  datatype TryParts = TryParts(inner: Env, skip: nat, unhandled: nat, out: nat)

  function PartsOf(p: nat, s: Stmt, env: Env): TryParts
    requires s.Try?
  {
    var inner := TryEnv(env, s.fin);
    var skip := p + SizeBlock(s.body, ShapeOf(inner));
    var unhandled := skip + 5 + SizeClauses(s.clauses, ShapeOf(inner));
    TryParts(inner, skip, unhandled, unhandled + SizeFinally(s.fin, env.chain))
  }

  lemma SimTry(k: Image, s: Stmt, env: Env, conv: Conv, c: Activation, p: nat, st: State, temps: seq<u64>, cm: map<u32, u32>, fuel: nat)
    returns (x: Landing)
    requires Ready(k, env, c, cm) && s.Try? && TryAt(k.at, p, s.body, s.clauses, s.fin, env)
    requires PartsOf(p, s, env).out + 5 + SizeFinally(s.fin, env.chain) <= |k.code|
    requires Agrees(env, conv)
    ensures Grown(k, cm, x.cm)
    ensures Lands(k, Mk(c, p, st, temps, cm), c, env, env.cleanup, PartsOf(p, s, env).out + 5 + SizeFinally(s.fin, env.chain), temps, x,
                  ExecTry(k.w, k.prog, conv, s, st, fuel))
    decreases fuel, s, 1
  {
    hide Registered, Mk, Goes, Linked, BlockAt, SizeBlock, ExecBlock, Lands, ClausesAt, SizeClauses, ExecClauses, Finish, Guarded;
    var m := Mk(c, p, st, temps, cm);
    var t := PartsOf(p, s, env);
    x := SimGuarded(k, s, env, conv, c, p, st, temps, cm, fuel);
    var r := Guarded(k.w, k.prog, conv, s, st, fuel);
    if s.fin.Some? && (!r.Done? || !RunsFinally(r.o)) {
      StillLeaving(k, m, c, t.inner, env, ClauseEnv(t.inner, s.fin, Addr(t.unhandled)).cleanup, t.out + 5, t.out + 5 + SizeFinally(s.fin, env.chain), temps, x, r);
    } else if s.fin.Some? {
      AddrIs(k, t.unhandled);
      x := SimFinish(k, m, s.fin.value, env, conv, c, t.unhandled, temps, x, r, fuel);
    }
  }

  lemma SameExits(k: Image, m: Machine, c: Activation, env: Env, env1: Env, catcher: nat, catcher1: nat, end: nat, temps: seq<u64>, x: Landing, r: Result)
    requires Lands(k, m, c, env, catcher, end, temps, x, r)
    requires env1.brk == env.brk && env1.cont == env.cont && env1.chain == env.chain
    requires catcher1 == catcher || !(r.Done? && r.o == Throwing)
    ensures Lands(k, m, c, env1, catcher1, end, temps, x, r)
  {
    hide Mk, Goes, LeapAt, Climbs;
  }

  /** The guarded block and the clauses: what they leave goes past both copies of
      the finally block, or into the one for exceptions. */
  lemma SimGuarded(k: Image, s: Stmt, env: Env, conv: Conv, c: Activation, p: nat, st: State, temps: seq<u64>, cm: map<u32, u32>, fuel: nat)
    returns (x: Landing)
    requires Ready(k, env, c, cm) && s.Try? && TryAt(k.at, p, s.body, s.clauses, s.fin, env)
    requires PartsOf(p, s, env).out + 5 <= |k.code|
    requires Agrees(env, conv)
    ensures Grown(k, cm, x.cm)
    ensures var t := PartsOf(p, s, env);
            Lands(k, Mk(c, p, st, temps, cm), c, t.inner, ClauseEnv(t.inner, s.fin, Addr(t.unhandled)).cleanup, t.out + 5, temps, x,
                  Guarded(k.w, k.prog, conv, s, st, fuel))
    decreases fuel, s, 0
  {
    hide Addr, Mk, Goes, Linked, BlockAt, SizeBlock, ExecBlock, Lands, ClausesAt, SizeClauses, ExecClauses, FinallyAt, ReturnConv, RefSlots,
         Registered;
    var m := Mk(c, p, st, temps, cm);
    var t := PartsOf(p, s, env);
    var outer := ClauseEnv(t.inner, s.fin, Addr(t.unhandled));
    assert ShapeOf(outer) == ShapeOf(t.inner);
    AddrIs(k, t.skip + 5);
    AddrIs(k, t.unhandled);
    TryAgrees(s, env, conv);
    x := SimBlock(k, s.body, t.inner, Addr(t.skip + 5), conv, c, p, st, temps, cm, fuel);
    var r := ExecBlock(k.w, k.prog, conv, s.body, st, fuel);
    if r.Done? && r.o == Throwing {
      LandedThrowing(k, m, c, t.inner, t.skip + 5, t.skip, temps, x, r);
      var m1 := Mk(c, t.skip + 5, r.st, temps + r.left, x.cm);
      x := SimClauses(k, s.clauses, t.out + 5, outer, conv, c, t.skip + 5, r.st, temps + r.left, x.cm, fuel);
      var r1 := ExecClauses(k.w, k.prog, conv, s.clauses, r.st, fuel);
      Onward(k, m, m1, c, outer, outer.cleanup, t.out + 5, temps, r.left, x, r1);
      SameExits(k, m, c, outer, t.inner, outer.cleanup, outer.cleanup, t.out + 5, temps, x, After(r.left, r1));
    } else {
      JumpsEnd(k, m, c, t.inner, t.skip + 5, t.skip, t.out + 5, temps, x, r);
      SameExits(k, m, c, t.inner, t.inner, t.skip + 5, outer.cleanup, t.out + 5, temps, x, r);
    }
  }

  lemma TryAgrees(s: Stmt, env: Env, conv: Conv)
    requires s.Try? && Agrees(env, conv)
    ensures Agrees(TryEnv(env, s.fin), conv)
  {
  }

  lemma LandedThrowing(k: Image, m: Machine, c: Activation, env: Env, catcher: nat, end: nat, temps: seq<u64>, x: Landing, r: Result)
    requires Lands(k, m, c, env, catcher, end, temps, x, r) && r.Done? && r.o == Throwing
    ensures Gets(k, m, Next(Mk(c, catcher, r.st, temps + r.left, x.cm)))
  {
  }

  lemma LandedReturning(k: Image, m: Machine, c: Activation, env: Env, catcher: nat, end: nat, temps: seq<u64>, x: Landing, r: Result)
    requires Lands(k, m, c, env, catcher, end, temps, x, r) && r.Done? && r.o.Returning?
    ensures Climbs(k, env.chain, x) && Gets(k, m, Next(Mk(c, x.pc, r.st, temps + r.left + [r.o.v], x.cm)))
  {
  }

  /** Running the finally block that one of the ways out of a try has reached. */
  lemma SimFinally(k: Image, m: Machine, body: Stmts, env: Env, exit: u32, conv: Conv, c: Activation, p: nat, st: State, temps: seq<u64>, below: seq<u64>, cm: map<u32, u32>, fuel: nat)
    returns (y: Landing)
    requires Ready(k, env, c, cm) && BlockAt(k.at, p, body, env, exit) && p + SizeBlock(body, ShapeOf(env)) <= |k.code|
    requires exit != HOLE && env.brk.NoLeap? && env.cont.NoLeap?
    requires Agrees(env, conv)
    requires Gets(k, m, Next(Mk(c, p, st, temps + below, cm)))
    ensures Grown(k, cm, y.cm)
    ensures Lands(k, m, c, env, exit, p + SizeBlock(body, ShapeOf(env)), temps, y, After(below, ExecBlock(k.w, k.prog, conv, body, st, fuel)))
    decreases fuel, body, 3
  {
    hide Registered, Mk, Goes, Linked, BlockAt, SizeBlock, ExecBlock, Lands, Agrees;
    y := SimBlock(k, body, env, exit, conv, c, p, st, temps + below, cm, fuel);
    Onward(k, m, Mk(c, p, st, temps + below, cm), c, env, exit, p + SizeBlock(body, ShapeOf(env)), temps, below, y,
           ExecBlock(k.w, k.prog, conv, body, st, fuel));
  }

  /** A finally block admits no break or continue, so leaving it under its own
      context or under the enclosing one is the same. */
  lemma LeavesFinally(k: Image, m: Machine, c: Activation, env: Env, catcher: nat, end: nat, temps: seq<u64>, x: Landing, r: Result)
    requires Lands(k, m, c, FinallyEnv(env, env.chain), catcher, end, temps, x, r)
    ensures Lands(k, m, c, env, catcher, end, temps, x, r)
  {
    hide Mk, Goes, Climbs, ReleasesAt;
  }

  lemma SimFinish(k: Image, m: Machine, fin: Stmts, env: Env, conv: Conv, c: Activation, unhandled: nat, temps: seq<u64>, x: Landing, r: Result, fuel: nat)
    returns (y: Landing)
    requires Ready(k, env, c, x.cm) && r.Done? && RunsFinally(r.o) && unhandled != HOLE
    requires var size := SizeBlock(fin, FinallyShape(env.chain));
             var out := unhandled + size;
             BlockAt(k.at, unhandled, fin, FinallyEnv(env, env.chain), env.cleanup) && InstrAt(k.at, out, Jump(env.cleanup)) &&
             BlockAt(k.at, out + 5, fin, FinallyEnv(env, env.chain), env.cleanup) && out + 5 + size <= |k.code|
    requires Agrees(env, conv)
    requires Lands(k, m, c, TryEnv(env, Some(fin)), unhandled,
                   unhandled + SizeBlock(fin, FinallyShape(env.chain)) + 5, temps, x, r)
    ensures Grown(k, x.cm, y.cm)
    ensures Lands(k, m, c, env, env.cleanup, unhandled + SizeBlock(fin, FinallyShape(env.chain)) + 5 + SizeBlock(fin, FinallyShape(env.chain)),
                  temps, y, Finish(r, ExecBlock(k.w, k.prog, conv, fin, r.st, fuel)))
    decreases fuel, fin, 5
  {
    hide Registered, Mk, Goes, Linked, BlockAt, SizeBlock, ExecBlock, Lands;
    var inner, lost := FinallyEnv(env, env.chain), TryEnv(env, Some(fin));
    var size := SizeBlock(fin, FinallyShape(env.chain));
    var out := unhandled + size;
    var end := out + 5 + size;
    var f := ExecBlock(k.w, k.prog, conv, fin, r.st, fuel);
    y := x;
    match r.o
    case Normal =>
      LandedNormally(k, m, c, lost, unhandled, out + 5, temps, x, r);
      y := SimFinally(k, m, fin, inner, env.cleanup, conv, c, out + 5, r.st, temps, r.left, x.cm, fuel);
      LeavesFinally(k, m, c, env, env.cleanup, end, temps, y, After(r.left, f));
    case Throwing =>
      LandedThrowing(k, m, c, lost, unhandled, out + 5, temps, x, r);
      y := SimFinally(k, m, fin, inner, env.cleanup, conv, c, unhandled, r.st, temps, r.left, x.cm, fuel);
      LeavesFinally(k, m, c, env, env.cleanup, out, temps, y, After(r.left, f));
      Rethrows(k, m, c, env, out, end, temps, y, After(r.left, f));
    case Returning(v) =>
      LandedReturning(k, m, c, lost, unhandled, out + 5, temps, x, r);
      y := SimReturned(k, m, fin, env, conv, c, r.st, temps, r.left, v, x, end, fuel);
    case _ =>
      assert false;
  }

  /** After the finally block of an escaping exception comes the jump outwards. */
  lemma Rethrows(k: Image, m: Machine, c: Activation, env: Env, out: nat, end: nat, temps: seq<u64>, x: Landing, f: Result)
    requires Linked(k) && InstrAt(k.at, out, Jump(env.cleanup)) && Lands(k, m, c, env, env.cleanup, out, temps, x, f)
    ensures Lands(k, m, c, env, env.cleanup, end, temps, x, if f.Done? && f.o == Normal then f.(o := Throwing) else f)
  {
    hide Mk, Goes, Linked, LeapAt, Climbs;
    if f.Done? && f.o == Normal {
      DoJump(k, env.cleanup, c, out, f.st, temps + f.left, x.cm);
      Then(k, m, Mk(c, out, f.st, temps + f.left, x.cm), Next(Mk(c, env.cleanup, f.st, temps + f.left, x.cm)));
    }
  }

  /** A return runs the finally block with its result pending on the stack, then
      climbs on with whatever is on top. */
  lemma SimReturned(k: Image, m: Machine, fin: Stmts, env: Env, conv: Conv, c: Activation, st: State, temps: seq<u64>, left: seq<u64>, v: u64, x: Landing, end: nat, fuel: nat)
    returns (y: Landing)
    requires Ready(k, env, c, x.cm) && Agrees(env, conv)
    requires Climbs(k, InTry(fin, env.chain), x) && Gets(k, m, Next(Mk(c, x.pc, st, temps + left + [v], x.cm)))
    ensures Grown(k, x.cm, y.cm)
    ensures Lands(k, m, c, env, env.cleanup, end, temps, y,
                  Finish(Done(Returning(v), st, left), ExecBlock(k.w, k.prog, conv, fin, st, fuel)))
    decreases fuel, fin, 4
  {
    hide Registered, Mk, Goes, Linked, BlockAt, SizeBlock, ExecBlock, Lands;
    var inner := Env(NoLeap, NoLeap, x.cleanup, env.chain, env.fns);
    var q := x.pc + SizeBlock(fin, FinallyShape(env.chain));
    var f := ExecBlock(k.w, k.prog, conv, fin, st, fuel);
    assert temps + left + [v] == temps + (left + [v]);
    assert ShapeOf(inner) == FinallyShape(env.chain);
    y := SimFinally(k, m, fin, inner, x.cleanup, conv, c, x.pc, st, temps, left + [v], x.cm, fuel);
    if f.Done? && f.o == Normal {
      LandedNormally(k, m, c, inner, x.cleanup, q, temps, y, After(left + [v], f));
      y := Landing(y.cm, q, x.cleanup);
      TopReturns(k, m, c, env, end, f.st, temps, left + [v] + f.left, y);
    } else if f.Done? && !f.o.Returning? && !f.o.Escaping? {
      NoLanding(k, m, c, env, env.cleanup, end, temps, y);
    } else {
      StillLeaving(k, m, c, inner, env, x.cleanup, q, end, temps, y, After(left + [v], f));
    }
  }

  lemma TopReturns(k: Image, m: Machine, c: Activation, env: Env, end: nat, st: State, temps: seq<u64>, all: seq<u64>, y: Landing)
    requires all != [] && Climbs(k, env.chain, y) && Gets(k, m, Next(Mk(c, y.pc, st, temps + all, y.cm)))
    ensures Lands(k, m, c, env, env.cleanup, end, temps, y, Done(Returning(all[|all| - 1]), st, all[..|all| - 1]))
  {
    hide Mk, Goes, Climbs;
    assert temps + all == temps + all[..|all| - 1] + [all[|all| - 1]];
  }

  lemma StillLeaving(k: Image, m: Machine, c: Activation, env: Env, env1: Env, catcher: nat, end: nat, end1: nat, temps: seq<u64>, x: Landing, r: Result)
    requires Lands(k, m, c, env, catcher, end, temps, x, r)
    requires r.Done? ==> !r.o.Normal? && !r.o.Throwing? && (r.o.Returning? ==> env1.chain == env.chain)
    requires r.Done? && (r.o.Breaking? || r.o.Continuing?) ==> env1.brk == env.brk && env1.cont == env.cont
    ensures Lands(k, m, c, env1, env1.cleanup, end1, temps, x, r)
  {
    hide Mk, Goes, Climbs;
  }

  // ------------------------------------------------------------------------- calls

  /** From the two constants to the return value, or to the enclosing cleanup. */
  lemma SimCall(k: Image, fn: nat, env: Env, c: Activation, p: nat, st: State, temps: seq<u64>, vs: seq<u64>, cm: map<u32, u32>, fuel: nat)
    returns (cm1: map<u32, u32>)
    requires Ready(k, env, c, cm) && CallAt(k.at, p, fn, |vs|, env) && p + CALL_SIZE <= |k.code|
    ensures Grown(k, cm, cm1)
    ensures Yields(k, Mk(c, p, st, temps + vs, cm), c, env.cleanup, p + CALL_SIZE, temps, cm1,
                   Semantics.Call(k.w, k.prog, fn, vs, st, fuel))
    decreases fuel
  {
    hide Mk, Goes, FunctionLinked, Lists, Semantics.Call, Callee, WfFunction, Registered;
    cm1 := cm;
    if fn < |k.prog| && |vs| == k.prog[fn].params as int {
      assert FunctionLinked(k, fn) && WfFunction(k.prog[fn]);
      cm1 := SimEntered(k, fn, env, c, p, st, temps, vs, cm, fuel);
    } else {
      NoCall(k.w, k.prog, fn, vs, st, fuel);
    }
  }

  lemma NoCall(w: World, prog: Program, fn: nat, vs: seq<u64>, st: State, fuel: nat)
    requires fn >= |prog| || |vs| != prog[fn].params as int
    ensures Semantics.Call(w, prog, fn, vs, st, fuel).NoValue?
  {
    hide ExecBlock;
  }

  lemma SimEntered(k: Image, fn: nat, env: Env, c: Activation, p: nat, st: State, temps: seq<u64>, vs: seq<u64>, cm: map<u32, u32>, fuel: nat)
    returns (cm1: map<u32, u32>)
    requires Ready(k, env, c, cm) && CallAt(k.at, p, fn, |vs|, env) && p + CALL_SIZE <= |k.code|
    requires fn < |k.prog| && fn < |k.fns| && |vs| == k.prog[fn].params as int
    requires FunctionLinked(k, fn) && WfFunction(k.prog[fn])
    ensures Grown(k, cm, cm1)
    ensures Yields(k, Mk(c, p, st, temps + vs, cm), c, env.cleanup, p + CALL_SIZE, temps, cm1,
                   Semantics.Call(k.w, k.prog, fn, vs, st, fuel))
    decreases fuel, k.prog[fn], 1
  {
    hide Mk, Goes, Linked, Callee, WfFunction, Registered, FunctionAt, Semantics.Call, Lands, SizeFunction;
    var f := k.prog[fn];
    var m := Mk(c, p, st, temps + vs, cm);
    var ret := p + CALL_SIZE;
    AddrIs(k, ret);
    var cm0 := cm[ret := env.cleanup];
    RegistersSite(k, cm, p, env.cleanup);
    var d := Callee(c, st, temps, ret, |vs|);
    Enters(k, fn);
    Calls(k, f, k.fns[fn], fn, env, c, p, st, temps, vs, cm);
    var at: nat := k.fns[fn];
    var m1 := Mk(d, at + 5, Entered(f, vs, st), [], cm0);
    var y := SimBody(k, fn, d, Entered(f, vs, st), cm0, fuel);
    cm1 := y.cm;
    Returns(k, m, m1, fn, env, c, p, st, temps, vs, y, fuel);
  }

  lemma Enters(k: Image, fn: nat)
    requires fn < |k.prog| && fn < |k.fns| && FunctionLinked(k, fn)
    ensures k.fns[fn] != 0 && InstrAt(k.at, k.fns[fn], AllocFrame(k.prog[fn].frameSize))
  {
    hide BodyAt, ReleasesAt, SizeFunction;
  }

  lemma RegistersSite(k: Image, cm: map<u32, u32>, p: nat, cleanup: u32)
    requires Linked(k) && p + CALL_SIZE <= |k.code| && InstrAt(k.at, p + 10, RegisterReturnCleanup(Addr(p + CALL_SIZE), cleanup))
    requires Registered(k, cm)
    ensures Registered(k, cm[Addr(p + CALL_SIZE) := cleanup])
  {
    hide Linked;
    AddrIs(k, p + CALL_SIZE);
  }

  /** The calling sequence, up to the first instruction of the body. */
  lemma Calls(k: Image, f: Function, t: u32, fn: nat, env: Env, c: Activation, p: nat, st: State, temps: seq<u64>, vs: seq<u64>, cm: map<u32, u32>)
    requires Ready(k, env, c, cm) && CallAt(k.at, p, fn, |vs|, env) && p + CALL_SIZE <= |k.code|
    requires fn < |k.fns| && t == k.fns[fn] && t != 0 && |vs| < M32 && InstrAt(k.at, t, AllocFrame(f.frameSize))
    ensures p + CALL_SIZE < HOLE && InFunction(Callee(c, st, temps, p + CALL_SIZE, |vs|))
    ensures var d := Callee(c, st, temps, p + CALL_SIZE, |vs|);
            Gets(k, Mk(c, p, st, temps + vs, cm), Next(Mk(d, t + 5, Entered(f, vs, st), [], cm[p + CALL_SIZE := env.cleanup])))
  {
    hide Mk, Goes, Linked, Entered, Registered;
    var ret, argc, at: nat := p + CALL_SIZE, |vs|, t;
    AddrIs(k, ret);
    var m := Mk(c, p, st, temps + vs, cm);
    var cm0 := cm[ret := env.cleanup];
    var d := Callee(c, st, temps, ret, argc);
    var two := temps + vs + [t as u64] + [argc as u64];
    Sets(k, fn, env, c, p, st, temps, vs, cm);
    DoCallInstr(k, t, vs, argc, c, p + 19, st, temps, cm0);
    Then(k, m, Mk(c, p + 19, st, two, cm0), Next(Mk(d, at, State(vs, st.exc, st.trace), [], cm0)));
    DoEnter(k, f, vs, st, d, at, cm0);
    Then(k, m, Mk(d, at, State(vs, st.exc, st.trace), [], cm0), Next(Mk(d, at + 5, Entered(f, vs, st), [], cm0)));
  }

  /** The target, the argument count and the cleanup registration. */
  lemma Sets(k: Image, fn: nat, env: Env, c: Activation, p: nat, st: State, temps: seq<u64>, vs: seq<u64>, cm: map<u32, u32>)
    requires Ready(k, env, c, cm) && CallAt(k.at, p, fn, |vs|, env) && p + CALL_SIZE <= |k.code|
    requires fn < |k.fns| && |vs| < M32
    ensures p + CALL_SIZE < HOLE
    ensures Gets(k, Mk(c, p, st, temps + vs, cm),
                 Next(Mk(c, p + 19, st, temps + vs + [k.fns[fn] as u64] + [|vs| as u64], cm[p + CALL_SIZE := env.cleanup])))
  {
    hide Mk, Goes, Linked, Registered;
    var t, ret, argc := k.fns[fn], p + CALL_SIZE, |vs|;
    AddrIs(k, ret);
    var m := Mk(c, p, st, temps + vs, cm);
    var two := temps + vs + [t as u64] + [argc as u64];
    DoPush(k, PushI32(t), t, c, p, st, temps + vs, cm);
    DoPush(k, PushI32(Addr(argc)), argc, c, p + 5, st, temps + vs + [t as u64], cm);
    Then(k, m, Mk(c, p + 5, st, temps + vs + [t as u64], cm), Next(Mk(c, p + 10, st, two, cm)));
    DoRegister(k, ret, env.cleanup, c, p + 10, st, two, cm);
    Then(k, m, Mk(c, p + 10, st, two, cm), Next(Mk(c, p + 19, st, two, cm[ret := env.cleanup])));
  }

  /** Where the parts of a function's code lie. */
  datatype FunctionParts = FunctionParts(skip: nat, params: nat, end: nat)

  function FunctionPartsOf(p: nat, f: Function): FunctionParts {
    var w := SizeReleases(RefSlots(f.body));
    var skip := p + 5 + SizeSeq(f.body, BodyShape(f)) + w;
    FunctionParts(skip, skip + 5 + w, skip + 5 + w + SizeReleases(f.refs) + 1)
  }

  function OuterEnv(f: Function, cleanup: u32, fns: seq<u32>): Env {
    Env(NoLeap, NoLeap, cleanup, BodyChain(f), fns)
  }

  /** The body block, within the frame that the call opened. */
  lemma SimBody(k: Image, fn: nat, d: Activation, st: State, cm: map<u32, u32>, fuel: nat)
    returns (y: Landing)
    requires Linked(k) && InFunction(d) && Registered(k, cm)
    requires fn < |k.prog| && fn < |k.fns| && FunctionLinked(k, fn) && WfFunction(k.prog[fn])
    ensures Grown(k, cm, y.cm)
    ensures var f, t := k.prog[fn], k.fns[fn];
            var parts := FunctionPartsOf(t, f);
            Lands(k, Mk(d, t + 5, st, [], cm), d, OuterEnv(f, Addr(parts.skip + 5), k.fns), parts.params, parts.end, [], y,
                  ExecBlock(k.w, k.prog, BodyConv(f), f.body, st, fuel))
    decreases fuel, k.prog[fn], 0
  {
    hide Mk, Goes, Linked, Registered, SeqAt, SizeSeq, ExecSeq, ReleasesAt, ReleaseAll, Lands, RefSlots;
    var f, t := k.prog[fn], k.fns[fn];
    var parts := FunctionPartsOf(t, f);
    var slots := RefSlots(f.body);
    var m := Mk(d, t + 5, st, [], cm);
    var q := t + 5 + SizeSeq(f.body, BodyShape(f));
    var outer := OuterEnv(f, Addr(parts.skip + 5), k.fns);
    var inner := BodyEnv(f, Addr(parts.skip + 5), k.fns);
    AddrIs(k, parts.skip + 5);
    BodyAgrees(f, inner.cleanup, k.fns);
    y := SimSeq(k, f.body, inner, BodyConv(f), d, t + 5, st, [], cm, fuel);
    var r := ExecSeq(k.w, k.prog, BodyConv(f), f.body, st, fuel);
    if r.Done? && !r.o.Escaping? && !InFrame(slots, |st.locals|) {
      NoLanding(k, m, d, outer, parts.params, parts.end, [], y);
    } else {
      y := LeavesBlock(k, m, slots, d, outer, inner, q, parts.skip + 5, parts.end, parts.params, [], y, r);
    }
  }

  lemma BodyAgrees(f: Function, cleanup: u32, fns: seq<u32>)
    ensures Agrees(BodyEnv(f, cleanup, fns), BodyConv(f)) && ShapeOf(BodyEnv(f, cleanup, fns)) == BodyShape(f)
  {
    assert ReturnConv(BodyChain(f)) == BodyConv(f);
  }

  /** The code at the three ends of a function. */
  lemma EndParts(k: Image, fn: nat)
    requires fn < |k.prog| && fn < |k.fns| && FunctionLinked(k, fn) && WfFunction(k.prog[fn])
    ensures var refs, parts := k.prog[fn].refs, FunctionPartsOf(k.fns[fn], k.prog[fn]);
            InstrAt(k.at, parts.end, PushNull) && ReleasesAt(k.at, parts.end + 1, refs) &&
            InstrAt(k.at, parts.end + 1 + SizeReleases(refs), Instr.Return) &&
            ReleasesAt(k.at, parts.params, refs) && InstrAt(k.at, parts.params + SizeReleases(refs), JmpToOuterCleanup)
  {
    hide ReleasesAt, SeqAt, SizeSeq, LeapsInSeq;
  }

  /** The three ways out of a body: past its end, through a return's climb, or by
      an exception, which enters the cleanup registered for this call site. */
  lemma Returns(k: Image, m: Machine, m1: Machine, fn: nat, env: Env, c: Activation, p: nat, st: State, temps: seq<u64>, vs: seq<u64>, y: Landing, fuel: nat)
    requires Ready(k, env, c, y.cm) && CallAt(k.at, p, fn, |vs|, env) && p + CALL_SIZE < HOLE
    requires fn < |k.prog| && fn < |k.fns| && |vs| == k.prog[fn].params as int && FunctionLinked(k, fn) && WfFunction(k.prog[fn])
    requires Gets(k, m, Next(m1)) && Addr(p + CALL_SIZE) in y.cm && InFunction(Callee(c, st, temps, p + CALL_SIZE, |vs|))
    requires var f, t := k.prog[fn], k.fns[fn];
             var parts := FunctionPartsOf(t, f);
             Lands(k, m1, Callee(c, st, temps, p + CALL_SIZE, |vs|), OuterEnv(f, Addr(parts.skip + 5), k.fns), parts.params, parts.end, [], y,
                   ExecBlock(k.w, k.prog, BodyConv(f), f.body, Entered(f, vs, st), fuel))
    ensures Yields(k, m, c, env.cleanup, p + CALL_SIZE, temps, y.cm, Semantics.Call(k.w, k.prog, fn, vs, st, fuel))
  {
    hide Mk, Goes, Linked, Registered, SeqAt, SizeSeq, ExecBlock, ReleasesAt, ReleaseAll, Entered, Callee, Lands, Climbs, SlotMask, BodyShape,
         SizeFunction, RefSlots, LeapsInSeq, FunctionAt, FunctionLinked, SizeReleases, FunctionPartsOf;
    EndParts(k, fn);
    var f, t := k.prog[fn], k.fns[fn];
    var parts := FunctionPartsOf(t, f);
    var d := Callee(c, st, temps, p + CALL_SIZE, |vs|);
    var outer := OuterEnv(f, Addr(parts.skip + 5), k.fns);
    var r := ExecBlock(k.w, k.prog, BodyConv(f), f.body, Entered(f, vs, st), fuel);
    OnwardClean(k, m, m1, d, outer, parts.params, parts.end, [], y, r);
    match r
    case Done(o, st1, left) =>
      if o.Escaping? || (o.Returning? && !f.linked) {
        AtReturn(k, m, f, d, parts.skip + 5, parts.params, parts.end, y, r);
        Cuts(k, m, c, st, temps, p + CALL_SIZE, |vs|, st1, left, o.v, y);
      } else if InFrame(f.refs, |st1.locals|) {
        match o {
          case Normal =>
            LandedNormally(k, m, d, outer, parts.params, parts.end, [], y, r);
            FallsOff(k, m, f.refs, c, st, temps, p + CALL_SIZE, |vs|, parts.end, st1, left, y.cm);
          case Returning(v) =>
            LandedReturning(k, m, d, outer, parts.params, parts.end, [], y, r);
            ChainEnds(k, f, y);
            ClimbsOut(k, m, f, c, st, temps, p + CALL_SIZE, |vs|, st1, left, v, y);
          case Throwing =>
            LandedThrowing(k, m, d, outer, parts.params, parts.end, [], y, r);
            UnwindsOut(k, m, f.refs, env.cleanup, c, st, temps, p + CALL_SIZE, |vs|, parts.params, st1, left, y.cm);
          case _ =>
        }
      }
    case Stop(err, trace) => Faults(k, m, d, outer, parts.params, parts.end, [], y, err, trace);
    case NoResult =>
  }

  lemma Faults(k: Image, m: Machine, c: Activation, env: Env, catcher: nat, end: nat, temps: seq<u64>, x: Landing, err: Error, trace: seq<Event>)
    requires Lands(k, m, c, env, catcher, end, temps, x, Stop(err, trace))
    ensures Gets(k, m, Fault(err, trace))
  {
  }

  /** The implicit return. */
  lemma FallsOff(k: Image, m: Machine, refs: seq<u32>, c: Activation, st: State, temps: seq<u64>, ret: u32, argc: u32, end: nat, st1: State, left: seq<u64>, cm: map<u32, u32>)
    requires Linked(k) && InFunction(c) && InFunction(Callee(c, st, temps, ret, argc)) && InFrame(refs, |st1.locals|)
    requires InstrAt(k.at, end, PushNull) && ReleasesAt(k.at, end + 1, refs) && InstrAt(k.at, end + 1 + SizeReleases(refs), Instr.Return)
    requires Gets(k, m, Next(Mk(Callee(c, st, temps, ret, argc), end, st1, [] + left, cm)))
    ensures Gets(k, m, Next(Mk(c, ret, ReleaseAll(st1, refs).(locals := st.locals), temps + [0], cm)))
  {
    hide Mk, Goes, Linked, ReleasesAt, ReleaseAll, Callee;
    var d := Callee(c, st, temps, ret, argc);
    var q := end + 1 + SizeReleases(refs);
    var st2 := ReleaseAll(st1, refs);
    assert [] + left == left;
    DoPush(k, PushNull, 0, d, end, st1, left, cm);
    Then(k, m, Mk(d, end, st1, left, cm), Next(Mk(d, end + 1, st1, left + [0], cm)));
    DoReleases(k, refs, d, end + 1, st1, left + [0], cm);
    Then(k, m, Mk(d, end + 1, st1, left + [0], cm), Next(Mk(d, q, st2, left + [0], cm)));
    DoReturnInstr(k, 0, c, st, temps, ret, argc, q, st2, left, cm);
    Then(k, m, Mk(d, q, st2, left + [0], cm), Next(Mk(c, ret, st2.(locals := st.locals), temps + [0], cm)));
  }

  /** An escape stands before its RETURN, and so does any return in an unlinked body. */
  lemma AtReturn(k: Image, m: Machine, f: Function, d: Activation, cleanup: nat, catcher: nat, end: nat, y: Landing, r: Result)
    requires Lands(k, m, d, OuterEnv(f, Addr(cleanup), k.fns), catcher, end, [], y, r) && r.Done?
    requires r.o.Escaping? || (r.o.Returning? && !f.linked)
    ensures InstrAt(k.at, y.pc, Instr.Return) && Gets(k, m, Next(Mk(d, y.pc, r.st, [] + r.left + [r.o.v], y.cm)))
  {
    hide Mk, Goes;
  }

  lemma Cuts(k: Image, m: Machine, c: Activation, st: State, temps: seq<u64>, ret: u32, argc: u32, st1: State, left: seq<u64>, v: u64, y: Landing)
    requires Linked(k) && InFunction(c) && InFunction(Callee(c, st, temps, ret, argc)) && InstrAt(k.at, y.pc, Instr.Return)
    requires Gets(k, m, Next(Mk(Callee(c, st, temps, ret, argc), y.pc, st1, [] + left + [v], y.cm)))
    ensures Gets(k, m, Next(Mk(c, ret, st1.(locals := st.locals), temps + [v], y.cm)))
  {
    hide Mk, Goes, Linked, Callee;
    var d := Callee(c, st, temps, ret, argc);
    assert [] + left + [v] == left + [v];
    DoReturnInstr(k, v, c, st, temps, ret, argc, y.pc, st1, left, y.cm);
    Then(k, m, Mk(d, y.pc, st1, left + [v], y.cm), Next(Mk(c, ret, st1.(locals := st.locals), temps + [v], y.cm)));
  }

  lemma ChainEnds(k: Image, f: Function, y: Landing)
    requires Climbs(k, BodyChain(f), y) && f.linked
    ensures ReleasesAt(k.at, y.pc, f.refs) && InstrAt(k.at, y.pc + SizeReleases(f.refs), Instr.Return)
  {
  }

  /** The end of a return's climb: the parameters, then RETURN. */
  lemma ClimbsOut(k: Image, m: Machine, f: Function, c: Activation, st: State, temps: seq<u64>, ret: u32, argc: u32, st1: State, left: seq<u64>, v: u64, y: Landing)
    requires Linked(k) && InFunction(c) && InFunction(Callee(c, st, temps, ret, argc)) && InFrame(f.refs, |st1.locals|)
    requires ReleasesAt(k.at, y.pc, f.refs) && InstrAt(k.at, y.pc + SizeReleases(f.refs), Instr.Return)
    requires Gets(k, m, Next(Mk(Callee(c, st, temps, ret, argc), y.pc, st1, [] + left + [v], y.cm)))
    ensures Gets(k, m, Next(Mk(c, ret, ReleaseAll(st1, f.refs).(locals := st.locals), temps + [v], y.cm)))
  {
    hide Mk, Goes, Linked, Callee, ReleasesAt, ReleaseAll;
    var d := Callee(c, st, temps, ret, argc);
    var q := y.pc + SizeReleases(f.refs);
    var st2 := ReleaseAll(st1, f.refs);
    assert [] + left + [v] == left + [v];
    DoReleases(k, f.refs, d, y.pc, st1, left + [v], y.cm);
    Then(k, m, Mk(d, y.pc, st1, left + [v], y.cm), Next(Mk(d, q, st2, left + [v], y.cm)));
    DoReturnInstr(k, v, c, st, temps, ret, argc, q, st2, left, y.cm);
    Then(k, m, Mk(d, q, st2, left + [v], y.cm), Next(Mk(c, ret, st2.(locals := st.locals), temps + [v], y.cm)));
  }

  /** An exception leaves the frame and enters the cleanup that this call site registered. */
  lemma UnwindsOut(k: Image, m: Machine, refs: seq<u32>, cleanup: u32, c: Activation, st: State, temps: seq<u64>, ret: u32, argc: u32, params: nat, st1: State, left: seq<u64>, cm: map<u32, u32>)
    requires Linked(k) && InFunction(c) && InFunction(Callee(c, st, temps, ret, argc)) && InFrame(refs, |st1.locals|)
    requires ReleasesAt(k.at, params, refs) && InstrAt(k.at, params + SizeReleases(refs), JmpToOuterCleanup)
    requires Registered(k, cm) && ret in cm && SiteOf(k, ret, cleanup)
    requires Gets(k, m, Next(Mk(Callee(c, st, temps, ret, argc), params, st1, [] + left, cm)))
    ensures Gets(k, m, Next(Mk(c, cleanup, ReleaseAll(st1, refs).(locals := st.locals), temps + [], cm)))
  {
    hide Mk, Goes, Linked, ReleasesAt, ReleaseAll, Callee;
    var d := Callee(c, st, temps, ret, argc);
    var q := params + SizeReleases(refs);
    var st2 := ReleaseAll(st1, refs);
    assert [] + left == left && temps + [] == temps;
    assert SiteOf(k, ret, cm[ret]);
    DoReleases(k, refs, d, params, st1, left, cm);
    Then(k, m, Mk(d, params, st1, left, cm), Next(Mk(d, q, st2, left, cm)));
    DoLeave(k, c, st, temps, ret, argc, q, st2, left, cm);
    Then(k, m, Mk(d, q, st2, left, cm), Next(Mk(c, cleanup, st2.(locals := st.locals), temps, cm)));
  }
}
