/** A finally block runs exactly once on every way out, counted in the events that
    the run leaves behind. */
module Once {
  import opened Options
  import opened Words
  import opened Instructions
  import opened Syntax
  import opened Semantics

  /** How many objects of class m have been created. */
  function Made(trace: seq<Event>, m: u32): nat {
    if trace == [] then 0 else
    Made(trace[..|trace| - 1], m) + (if trace[|trace| - 1].Stamped? && trace[|trace| - 1].classId == m then 1 else 0)
  }

  // ------------------------------------------------ code that creates no object of one class

  /** A class, and functions set apart, which may create its objects. */
  datatype Mark = Mark(classId: u32, apart: set<nat>)

  /** The expression creates no object of the class and calls no function set apart. */
  predicate NoneIn(m: Mark, e: Expr) {
    match e
    case Arith(_, x, y) => NoneIn(m, x) && NoneIn(m, y)
    case And(x, y) => NoneIn(m, x) && NoneIn(m, y)
    case Or(x, y) => NoneIn(m, x) && NoneIn(m, y)
    case Not(x) => NoneIn(m, x)
    case Negate(_, x) => NoneIn(m, x)
    case Ternary(c, x, y, _) => NoneIn(m, c) && NoneIn(m, x) && NoneIn(m, y)
    case Assign(_, _, x) => NoneIn(m, x)
    case AssignRef(_, x) => NoneIn(m, x)
    case AssignOp(_, _, _, x) => NoneIn(m, x)
    case Invoke(fn, args) => fn !in m.apart && NoneInArgs(m, args)
    case New(id, _, ctor, args) => id != m.classId && ctor !in m.apart && NoneInArgs(m, args)
    case _ => true
  }

  predicate NoneInArgs(m: Mark, args: Args) {
    match args
    case NoArgs => true
    case Arg(e, _, rest) => NoneIn(m, e) && NoneInArgs(m, rest)
  }

  predicate NoneInOption(m: Mark, e: Option<Expr>) {
    e.Some? ==> NoneIn(m, e.value)
  }

  predicate NoneInStmt(m: Mark, s: Stmt)
    decreases s, 0
  {
    match s
    case Block(body) => NoneInSeq(m, body)
    case VarDecl(_, _, _, init) => NoneInOption(m, init)
    case ExprStmt(e, _) => NoneIn(m, e)
    case If(c, t) => NoneIn(m, c) && NoneInStmt(m, t)
    case IfElse(c, t, f) => NoneIn(m, c) && NoneInStmt(m, t) && NoneInStmt(m, f)
    case While(c, b) => NoneIn(m, c) && NoneInStmt(m, b)
    case DoWhile(b, c) => NoneInStmt(m, b) && NoneIn(m, c)
    case For(a, g, i, b) => NoneInStmt(m, a) && NoneInOption(m, g) && NoneInOption(m, i) && NoneInStmt(m, b)
    case Switch(e, cases) => NoneIn(m, e) && NoneInCases(m, cases)
    case Return(e, _) => NoneInOption(m, e)
    case Throw(e) => NoneIn(m, e)
    case Try(body, clauses, fin) => NoneInSeq(m, body) && NoneInClauses(m, clauses) && (fin.Some? ==> NoneInSeq(m, fin.value))
    case _ => true
  }

  predicate NoneInSeq(m: Mark, ss: Stmts)
    decreases ss, 0
  {
    match ss
    case Nil => true
    case Cons(s, rest) => NoneInStmt(m, s) && NoneInSeq(m, rest)
  }

  predicate NoneInCases(m: Mark, cases: Cases)
    decreases cases, 0
  {
    match cases
    case NoCase => true
    case Default(body) => NoneInSeq(m, body)
    case Case(value, body, rest) => NoneIn(m, value) && NoneInSeq(m, body) && NoneInCases(m, rest)
  }

  predicate NoneInClauses(m: Mark, clauses: Clauses)
    decreases clauses, 0
  {
    match clauses
    case NoClause => true
    case Clause(_, _, body, rest) => NoneInSeq(m, body) && NoneInClauses(m, rest)
  }

  predicate NoneInProgram(m: Mark, prog: Program) {
    forall i :: 0 <= i < |prog| && i !in m.apart ==> NoneInSeq(m, prog[i].body)
  }

  // ------------------------------------------------------------------- creates none in a run

  predicate Same(m: Mark, a: State, b: State) {
    Made(b.trace, m.classId) == Made(a.trace, m.classId)
  }

  predicate ValueSame(m: Mark, st: State, r: Value) {
    r.Val? || r.Raised? ==> Same(m, st, r.st)
  }

  predicate ValuesSame(m: Mark, st: State, r: Values) {
    r.Vals? || r.ArgRaised? ==> Same(m, st, r.st)
  }

  predicate ResultSame(m: Mark, st: State, r: Result) {
    r.Done? ==> Same(m, st, r.st)
  }

  lemma LogSame(m: Mark, st: State, e: Event)
    ensures Made(Log(st, e).trace, m.classId) == Made(st.trace, m.classId) + (if e.Stamped? && e.classId == m.classId then 1 else 0)
  {
    assert (st.trace + [e])[..|st.trace|] == st.trace;
  }

  lemma RetainSame(m: Mark, retain: bool, v: u64, st: State)
    ensures Same(m, st, LogRetain(retain, v, st))
  {
    LogSame(m, st, Retained(Low32(v)));
  }

  lemma {:induction false} ReleaseSame(m: Mark, st: State, slots: seq<u32>)
    requires InFrame(slots, |st.locals|)
    ensures Same(m, st, ReleaseAll(st, slots))
    decreases |slots|
  {
    if slots != [] {
      LogSame(m, st, Released(Low32(st.locals[slots[0]])));
      ReleaseSame(m, ReleaseSlot(st, slots[0]), slots[1..]);
    }
  }

  lemma CreatedMakes(m: Mark, st: State, size: u32, obj: u32, classId: u32)
    ensures Made(Created(st, size, obj, classId).trace, m.classId) == Made(st.trace, m.classId) + (if classId == m.classId then 1 else 0)
  {
    var st1 := Log(st, Allocated(size, OBJECT_TAG, obj));
    LogSame(m, st, Allocated(size, OBJECT_TAG, obj));
    LogSame(m, st1, Stamped(obj, classId));
    LogSame(m, Log(st1, Stamped(obj, classId)), Retained(obj));
  }

  lemma {:induction false} EvalSame(m: Mark, w: World, prog: Program, e: Expr, st: State, fuel: nat)
    requires NoneInProgram(m, prog) && NoneIn(m, e)
    ensures ValueSame(m, st, Eval(w, prog, e, st, fuel))
    decreases fuel, e, 1
  {
    hide EvalArith, EvalShortCircuit, EvalTernary, EvalAssignRef, EvalAssignOp, EvalInvoke, EvalNew, Made, NoneInProgram;
    match e
    case Arith(_, _, _) => ArithSame(m, w, prog, e, st, fuel);
    case And(_, _) => ShortCircuitSame(m, w, prog, e, st, fuel);
    case Or(_, _) => ShortCircuitSame(m, w, prog, e, st, fuel);
    case Not(x) => EvalSame(m, w, prog, x, st, fuel);
    case Negate(_, x) => EvalSame(m, w, prog, x, st, fuel);
    case Ternary(_, _, _, _) => TernarySame(m, w, prog, e, st, fuel);
    case Assign(_, _, x) => EvalSame(m, w, prog, x, st, fuel);
    case AssignRef(_, _) => AssignRefSame(m, w, prog, e, st, fuel);
    case AssignOp(_, _, _, _) => AssignOpSame(m, w, prog, e, st, fuel);
    case Invoke(_, _) => InvokeSame(m, w, prog, e, st, fuel);
    case New(_, _, _, _) => NewMakes(m, w, prog, e, st, fuel);
    case _ =>
  }

  lemma ArithSame(m: Mark, w: World, prog: Program, e: Expr, st: State, fuel: nat)
    requires e.Arith? && NoneInProgram(m, prog) && NoneIn(m, e)
    ensures ValueSame(m, st, EvalArith(w, prog, e, st, fuel))
    decreases fuel, e, 0
  {
    hide Eval, Made, NoneInProgram;
    EvalSame(m, w, prog, e.left, st, fuel);
    var x := Eval(w, prog, e.left, st, fuel);
    if x.Val? { EvalSame(m, w, prog, e.right, x.st, fuel); }
  }

  lemma ShortCircuitSame(m: Mark, w: World, prog: Program, e: Expr, st: State, fuel: nat)
    requires (e.And? || e.Or?) && NoneInProgram(m, prog) && NoneIn(m, e)
    ensures ValueSame(m, st, EvalShortCircuit(w, prog, e, st, fuel))
    decreases fuel, e, 0
  {
    hide Eval, Made, NoneInProgram;
    EvalSame(m, w, prog, e.left, st, fuel);
    var x := Eval(w, prog, e.left, st, fuel);
    if x.Val? { EvalSame(m, w, prog, e.right, x.st, fuel); }
  }

  lemma TernarySame(m: Mark, w: World, prog: Program, e: Expr, st: State, fuel: nat)
    requires e.Ternary? && NoneInProgram(m, prog) && NoneIn(m, e)
    ensures ValueSame(m, st, EvalTernary(w, prog, e, st, fuel))
    decreases fuel, e, 0
  {
    hide Eval, Made, NoneInProgram;
    EvalSame(m, w, prog, e.cond, st, fuel);
    var x := Eval(w, prog, e.cond, st, fuel);
    if x.Val? {
      ArmSame(m, w, prog, e.yes, e.isRef && RetainsFirst(e.yes, e.no), x.st, fuel);
      ArmSame(m, w, prog, e.no, e.isRef && RetainsFirst(e.no, e.yes), x.st, fuel);
    }
  }

  lemma ArmSame(m: Mark, w: World, prog: Program, e: Expr, retain: bool, st: State, fuel: nat)
    requires NoneInProgram(m, prog) && NoneIn(m, e)
    ensures ValueSame(m, st, Semantics.Kept(retain, Eval(w, prog, e, st, fuel)))
    decreases fuel, e, 2
  {
    hide Eval, Made, NoneInProgram;
    EvalSame(m, w, prog, e, st, fuel);
    var r := Eval(w, prog, e, st, fuel);
    if r.Val? { RetainSame(m, retain, r.v, r.st); }
  }

  lemma AssignRefSame(m: Mark, w: World, prog: Program, e: Expr, st: State, fuel: nat)
    requires e.AssignRef? && NoneInProgram(m, prog) && NoneIn(m, e)
    ensures ValueSame(m, st, EvalAssignRef(w, prog, e, st, fuel))
    decreases fuel, e, 0
  {
    hide Eval, Made, NoneInProgram;
    EvalSame(m, w, prog, e.rhs, st, fuel);
    var r := Eval(w, prog, e.rhs, st, fuel);
    if r.Val? && e.slot < |st.locals| {
      var kept := LogRetain(!ProducesRetained(e.rhs), r.v, r.st);
      RetainSame(m, !ProducesRetained(e.rhs), r.v, r.st);
      RetainSame(m, true, r.v, kept);
      LogSame(m, LogRetain(true, r.v, kept), Released(Low32(st.locals[e.slot])));
      LogSame(m, LogRetain(true, r.v, kept), Released(Low32(r.st.locals[e.slot])));
    }
  }

  lemma AssignOpSame(m: Mark, w: World, prog: Program, e: Expr, st: State, fuel: nat)
    requires e.AssignOp? && NoneInProgram(m, prog) && NoneIn(m, e)
    ensures ValueSame(m, st, EvalAssignOp(w, prog, e, st, fuel))
    decreases fuel, e, 0
  {
    hide Eval, Made, NoneInProgram;
    EvalSame(m, w, prog, e.rhs, st, fuel);
  }

  lemma InvokeSame(m: Mark, w: World, prog: Program, e: Expr, st: State, fuel: nat)
    requires e.Invoke? && NoneInProgram(m, prog) && NoneIn(m, e)
    ensures ValueSame(m, st, EvalInvoke(w, prog, e, st, fuel))
    decreases fuel, e, 0
  {
    hide EvalArgs, Semantics.Call, Made, NoneInProgram;
    ArgsSame(m, w, prog, e.args, st, fuel);
    var r := EvalArgs(w, prog, e.args, st, fuel);
    if r.Vals? && fuel > 0 { CallSame(m, w, prog, e.fn, r.vs, r.st, fuel - 1); }
  }

  /** One object, whatever the constructor does. */
  lemma NewMakes(m: Mark, w: World, prog: Program, e: Expr, st: State, fuel: nat)
    requires e.New? && NoneInProgram(m, prog) && NoneInArgs(m, e.args) && e.ctor !in m.apart
    ensures var r := EvalNew(w, prog, e, st, fuel);
            r.Val? || r.Raised? ==> Made(r.st.trace, m.classId) == Made(st.trace, m.classId) + (if e.classId == m.classId then 1 else 0)
    decreases fuel, e, 0
  {
    hide EvalArgs, Semantics.Call, Made, NoneInProgram;
    var got := w.alloc(st.trace, e.size);
    if got.Some? {
      var st1 := Created(st, e.size, got.value, e.classId);
      CreatedMakes(m, st, e.size, got.value, e.classId);
      ArgsSame(m, w, prog, e.args, st1, fuel);
      var r := EvalArgs(w, prog, e.args, st1, fuel);
      if r.Vals? && fuel > 0 { CallSame(m, w, prog, e.ctor, [got.value] + r.vs, r.st, fuel - 1); }
    }
  }

  lemma {:induction false} ArgsSame(m: Mark, w: World, prog: Program, args: Args, st: State, fuel: nat)
    requires NoneInProgram(m, prog) && NoneInArgs(m, args)
    ensures ValuesSame(m, st, EvalArgs(w, prog, args, st, fuel))
    decreases fuel, args, 0
  {
    hide Eval, Made, NoneInProgram;
    if args.Arg? {
      EvalSame(m, w, prog, args.e, st, fuel);
      var x := Eval(w, prog, args.e, st, fuel);
      if x.Val? {
        var retain := args.isRef && !ProducesRetained(args.e);
        RetainSame(m, retain, x.v, x.st);
        ArgsSame(m, w, prog, args.rest, LogRetain(retain, x.v, x.st), fuel);
      }
    }
  }

  lemma CallSame(m: Mark, w: World, prog: Program, fn: nat, vs: seq<u64>, st: State, fuel: nat)
    requires NoneInProgram(m, prog) && fn !in m.apart
    ensures ValueSame(m, st, Semantics.Call(w, prog, fn, vs, st, fuel))
    decreases fuel
  {
    hide ExecBlock, Made, ReleaseAll;
    if fn < |prog| && |vs| == prog[fn].params {
      var f := prog[fn];
      BlockSame(m, w, prog, BodyConv(f), f.body, Entered(f, vs, st), fuel);
      var r := ExecBlock(w, prog, BodyConv(f), f.body, Entered(f, vs, st), fuel);
      if r.Done? && InFrame(f.refs, |r.st.locals|) { ReleaseSame(m, r.st, f.refs); }
    }
  }

  lemma {:induction false} StmtSame(m: Mark, w: World, prog: Program, conv: Conv, s: Stmt, st: State, fuel: nat)
    requires NoneInProgram(m, prog) && NoneInStmt(m, s)
    ensures ResultSame(m, st, Exec(w, prog, conv, s, st, fuel))
    decreases fuel, s, 2
  {
    hide ExecDecl, ExecIf, ExecIfElse, ExecLoop, ExecDo, ExecFor, ExecSwitchStmt, ExecReturn, ExecThrow, ExecTry, ExecBlock, Eval;
    hide Made, NoneInProgram, NoneInSeq, NoneIn, NoneInCases, NoneInClauses;
    match s
    case Block(body) => BlockSame(m, w, prog, conv, body, st, fuel);
    case ExprStmt(e, _) => ExprStmtSame(m, w, prog, conv, s, st, fuel);
    case If(_, _) => IfSame(m, w, prog, conv, s, st, fuel);
    case IfElse(_, _, _) => IfElseSame(m, w, prog, conv, s, st, fuel);
    case While(c, b) => LoopSame(m, w, prog, Some(c), None, b, st, fuel);
    case DoWhile(b, c) => DoSame(m, w, prog, b, c, st, fuel);
    case For(_, _, _, _) => ForSame(m, w, prog, conv, s, st, fuel);
    case Switch(_, _) => SwitchStmtSame(m, w, prog, conv, s, st, fuel);
    case VarDecl(_, _, _, _) => DeclSame(m, w, prog, conv, s, st, fuel);
    case Return(_, _) => ReturnSame(m, w, prog, conv, s, st, fuel);
    case Throw(_) => ThrowSame(m, w, prog, conv, s, st, fuel);
    case Try(_, _, _) => TrySame(m, w, prog, conv, s, st, fuel);
    case _ =>
  }

  lemma ExprStmtSame(m: Mark, w: World, prog: Program, conv: Conv, s: Stmt, st: State, fuel: nat)
    requires s.ExprStmt? && NoneInProgram(m, prog) && NoneInStmt(m, s)
    ensures ResultSame(m, st, Exec(w, prog, conv, s, st, fuel))
    decreases fuel, s, 0
  {
    hide Eval, Made, NoneInProgram;
    EvalSame(m, w, prog, s.e, st, fuel);
    var x := Eval(w, prog, s.e, st, fuel);
    if x.Val? { LogSame(m, x.st, Released(Low32(x.v))); }
  }

  lemma DeclSame(m: Mark, w: World, prog: Program, conv: Conv, s: Stmt, st: State, fuel: nat)
    requires s.VarDecl? && NoneInProgram(m, prog) && NoneInStmt(m, s)
    ensures ResultSame(m, st, ExecDecl(w, prog, conv, s, st, fuel))
    decreases fuel, s, 0
  {
    hide Eval, Made, NoneInProgram;
    if s.init.Some? {
      EvalSame(m, w, prog, s.init.value, st, fuel);
      var x := Eval(w, prog, s.init.value, st, fuel);
      if x.Val? { RetainSame(m, s.isRef && !ProducesRetained(s.init.value), Narrow(s.conv, x.v), x.st); }
    }
  }

  lemma ReturnSame(m: Mark, w: World, prog: Program, conv: Conv, s: Stmt, st: State, fuel: nat)
    requires s.Return? && NoneInProgram(m, prog) && NoneInStmt(m, s)
    ensures ResultSame(m, st, ExecReturn(w, prog, conv, s, st, fuel))
    decreases fuel, s, 0
  {
    hide Eval, Made, NoneInProgram;
    if s.result.Some? {
      EvalSame(m, w, prog, s.result.value, st, fuel);
      var x := Eval(w, prog, s.result.value, st, fuel);
      if x.Val? { RetainSame(m, s.isRef && !ProducesRetained(s.result.value), Narrow(conv, x.v), x.st); }
    }
  }

  lemma ThrowSame(m: Mark, w: World, prog: Program, conv: Conv, s: Stmt, st: State, fuel: nat)
    requires s.Throw? && NoneInProgram(m, prog) && NoneInStmt(m, s)
    ensures ResultSame(m, st, ExecThrow(w, prog, conv, s, st, fuel))
    decreases fuel, s, 0
  {
    hide Eval, Made, NoneInProgram;
    EvalSame(m, w, prog, s.e, st, fuel);
    var x := Eval(w, prog, s.e, st, fuel);
    if x.Val? { LogSame(m, x.st, Retained(Low32(x.v))); }
  }

  lemma IfSame(m: Mark, w: World, prog: Program, conv: Conv, s: Stmt, st: State, fuel: nat)
    requires s.If? && NoneInProgram(m, prog) && NoneInStmt(m, s)
    ensures ResultSame(m, st, ExecIf(w, prog, conv, s, st, fuel))
    decreases fuel, s, 0
  {
    hide Eval, Exec, Made, NoneInProgram;
    EvalSame(m, w, prog, s.cond, st, fuel);
    var x := Eval(w, prog, s.cond, st, fuel);
    if x.Val? { StmtSame(m, w, prog, conv, s.thn, x.st, fuel); }
  }

  lemma IfElseSame(m: Mark, w: World, prog: Program, conv: Conv, s: Stmt, st: State, fuel: nat)
    requires s.IfElse? && NoneInProgram(m, prog) && NoneInStmt(m, s)
    ensures ResultSame(m, st, ExecIfElse(w, prog, conv, s, st, fuel))
    decreases fuel, s, 0
  {
    hide Eval, Exec, Made, NoneInProgram;
    EvalSame(m, w, prog, s.cond, st, fuel);
    var x := Eval(w, prog, s.cond, st, fuel);
    if x.Val? {
      StmtSame(m, w, prog, conv, s.thn, x.st, fuel);
      StmtSame(m, w, prog, conv, s.els, x.st, fuel);
    }
  }

  lemma ForSame(m: Mark, w: World, prog: Program, conv: Conv, s: Stmt, st: State, fuel: nat)
    requires s.For? && NoneInProgram(m, prog) && NoneInStmt(m, s)
    ensures ResultSame(m, st, ExecFor(w, prog, conv, s, st, fuel))
    decreases fuel, s, 0
  {
    hide Exec, ExecLoop, Made, NoneInProgram;
    StmtSame(m, w, prog, conv, s.start, st, fuel);
    var r := Exec(w, prog, conv, s.start, st, fuel);
    if r.Done? { LoopSame(m, w, prog, s.guard, s.iter, s.loop, r.st, fuel); }
  }

  lemma {:induction false} LoopSame(m: Mark, w: World, prog: Program, g: Option<Expr>, i: Option<Expr>, b: Stmt, st: State, fuel: nat)
    requires NoneInProgram(m, prog) && NoneInOption(m, g) && NoneInOption(m, i) && NoneInStmt(m, b)
    ensures ResultSame(m, st, ExecLoop(w, prog, g, i, b, st, fuel))
    decreases fuel, b, 4
  {
    hide Eval, ExecRound, Made, NoneInProgram, NoneInStmt, NoneIn;
    if fuel > 0 {
      if g.Some? { EvalSame(m, w, prog, g.value, st, fuel - 1); }
      var x := if g.Some? then Eval(w, prog, g.value, st, fuel - 1) else Val(1, st);
      if x.Val? { RoundSame(m, w, prog, g, i, b, x.st, fuel); }
    }
  }

  lemma {:induction false} RoundSame(m: Mark, w: World, prog: Program, g: Option<Expr>, i: Option<Expr>, b: Stmt, st: State, fuel: nat)
    requires fuel > 0 && NoneInProgram(m, prog) && NoneInOption(m, g) && NoneInOption(m, i) && NoneInStmt(m, b)
    ensures ResultSame(m, st, ExecRound(w, prog, g, i, b, st, fuel))
    decreases fuel, b, 3
  {
    hide Exec, ExecBack, Made, NoneInProgram, NoneInStmt, NoneInOption;
    StmtSame(m, w, prog, Keep, b, st, fuel - 1);
    var r := Exec(w, prog, Keep, b, st, fuel - 1);
    if r.Done? { BackSame(m, w, prog, g, i, b, r.st, fuel); }
  }

  lemma {:induction false} BackSame(m: Mark, w: World, prog: Program, g: Option<Expr>, i: Option<Expr>, b: Stmt, st: State, fuel: nat)
    requires fuel > 0 && NoneInProgram(m, prog) && NoneInOption(m, g) && NoneInOption(m, i) && NoneInStmt(m, b)
    ensures ResultSame(m, st, ExecBack(w, prog, g, i, b, st, fuel))
    decreases fuel, b, 2
  {
    hide Eval, ExecLoop, Made, NoneInProgram, NoneInStmt, NoneIn;
    if i.Some? { EvalSame(m, w, prog, i.value, st, fuel - 1); }
    var y := if i.Some? then Eval(w, prog, i.value, st, fuel - 1) else Val(0, st);
    if y.Val? { LoopSame(m, w, prog, g, i, b, y.st, fuel - 1); }
  }

  lemma {:induction false} DoSame(m: Mark, w: World, prog: Program, b: Stmt, c: Expr, st: State, fuel: nat)
    requires NoneInProgram(m, prog) && NoneInStmt(m, b) && NoneIn(m, c)
    ensures ResultSame(m, st, ExecDo(w, prog, b, c, st, fuel))
    decreases fuel, b, 2
  {
    hide Exec, Until, Made, NoneInProgram, NoneInStmt, NoneIn;
    if fuel > 0 {
      StmtSame(m, w, prog, Keep, b, st, fuel - 1);
      var r := Exec(w, prog, Keep, b, st, fuel - 1);
      if r.Done? { UntilSame(m, w, prog, b, c, r.st, fuel); }
    }
  }

  lemma {:induction false} UntilSame(m: Mark, w: World, prog: Program, b: Stmt, c: Expr, st: State, fuel: nat)
    requires fuel > 0 && NoneInProgram(m, prog) && NoneInStmt(m, b) && NoneIn(m, c)
    ensures ResultSame(m, st, Until(w, prog, b, c, st, fuel))
    decreases fuel, b, 1
  {
    hide Eval, ExecDo, Made, NoneInProgram, NoneInStmt, NoneIn;
    EvalSame(m, w, prog, c, st, fuel - 1);
    var x := Eval(w, prog, c, st, fuel - 1);
    if x.Val? { DoSame(m, w, prog, b, c, x.st, fuel - 1); }
  }

  lemma SwitchStmtSame(m: Mark, w: World, prog: Program, conv: Conv, s: Stmt, st: State, fuel: nat)
    requires s.Switch? && NoneInProgram(m, prog) && NoneInStmt(m, s)
    ensures ResultSame(m, st, ExecSwitchStmt(w, prog, conv, s, st, fuel))
    decreases fuel, s, 0
  {
    hide Eval, ExecSwitch, Made, NoneInProgram, NoneIn;
    EvalSame(m, w, prog, s.subject, st, fuel);
    var x := Eval(w, prog, s.subject, st, fuel);
    if x.Val? { SwitchSame(m, w, prog, x.v, s.cases, x.st, fuel); }
  }

  lemma {:induction false} SwitchSame(m: Mark, w: World, prog: Program, v: u64, cases: Cases, st: State, fuel: nat)
    requires NoneInProgram(m, prog) && NoneInCases(m, cases)
    ensures ResultSame(m, st, ExecSwitch(w, prog, v, cases, st, fuel))
    decreases fuel, cases, 1
  {
    hide Eval, ExecCases, Made, NoneInProgram, NoneInSeq, NoneIn;
    if cases.Case? {
      EvalSame(m, w, prog, cases.value, st, fuel);
      var x := Under([v], Eval(w, prog, cases.value, st, fuel));
      if x.Val? {
        CasesSame(m, w, prog, cases, x.st, fuel);
        SwitchSame(m, w, prog, v, cases.rest, x.st, fuel);
      }
    } else {
      CasesSame(m, w, prog, cases, st, fuel);
    }
  }

  lemma {:induction false} CasesSame(m: Mark, w: World, prog: Program, cases: Cases, st: State, fuel: nat)
    requires NoneInProgram(m, prog) && NoneInCases(m, cases)
    ensures ResultSame(m, st, ExecCases(w, prog, cases, st, fuel))
    decreases fuel, cases, 0
  {
    hide ExecSeq, Made, NoneInProgram, NoneInSeq, NoneIn;
    match cases
    case NoCase =>
    case Default(body) => SeqSame(m, w, prog, Keep, body, st, fuel);
    case Case(_, body, rest) =>
      SeqSame(m, w, prog, Keep, body, st, fuel);
      var r := ExecSeq(w, prog, Keep, body, st, fuel);
      if r.Done? { CasesSame(m, w, prog, rest, r.st, fuel); }
  }

  lemma {:induction false} SeqSame(m: Mark, w: World, prog: Program, conv: Conv, ss: Stmts, st: State, fuel: nat)
    requires NoneInProgram(m, prog) && NoneInSeq(m, ss)
    ensures ResultSame(m, st, ExecSeq(w, prog, conv, ss, st, fuel))
    decreases fuel, ss, 0
  {
    hide Exec, Made, NoneInProgram, NoneInStmt;
    if ss.Cons? {
      StmtSame(m, w, prog, conv, ss.head, st, fuel);
      var r := Exec(w, prog, conv, ss.head, st, fuel);
      if r.Done? { SeqSame(m, w, prog, conv, ss.tail, r.st, fuel); }
    }
  }

  lemma BlockSame(m: Mark, w: World, prog: Program, conv: Conv, body: Stmts, st: State, fuel: nat)
    requires NoneInProgram(m, prog) && NoneInSeq(m, body)
    ensures ResultSame(m, st, ExecBlock(w, prog, conv, body, st, fuel))
    decreases fuel, body, 1
  {
    hide ExecSeq, Made, NoneInProgram, NoneInSeq, ReleaseAll;
    SeqSame(m, w, prog, conv, body, st, fuel);
    var r := ExecSeq(w, prog, conv, body, st, fuel);
    if r.Done? && InFrame(RefSlots(body), |r.st.locals|) { ReleaseSame(m, r.st, RefSlots(body)); }
  }

  lemma {:induction false} ClausesSame(m: Mark, w: World, prog: Program, conv: Conv, clauses: Clauses, st: State, fuel: nat)
    requires NoneInProgram(m, prog) && NoneInClauses(m, clauses)
    ensures ResultSame(m, st, ExecClauses(w, prog, conv, clauses, st, fuel))
    decreases fuel, clauses, 0
  {
    hide ExecBlock, IsInstance, Made, NoneInProgram, NoneInSeq;
    if clauses.Clause? {
      ClausesSame(m, w, prog, conv, clauses.rest, st, fuel);
      if clauses.slot < |st.locals| {
        var start := Caught(st, clauses.slot);
        LogSame(m, SetSlot(st, clauses.slot, st.exc), Released(st.exc));
        BlockSame(m, w, prog, conv, clauses.body, start, fuel);
        var r := ExecBlock(w, prog, conv, clauses.body, start, fuel);
        if r.Done? { LogSame(m, r.st, Released(Low32(r.st.locals[clauses.slot]))); }
      }
    }
  }

  lemma GuardedSame(m: Mark, w: World, prog: Program, conv: Conv, s: Stmt, st: State, fuel: nat)
    requires s.Try? && NoneInProgram(m, prog) && NoneInSeq(m, s.body) && NoneInClauses(m, s.clauses)
    ensures ResultSame(m, st, Guarded(w, prog, conv, s, st, fuel))
    decreases fuel, s, 0
  {
    hide ExecBlock, ExecClauses, Made, NoneInProgram, NoneInSeq, NoneInClauses;
    BlockSame(m, w, prog, conv, s.body, st, fuel);
    var r := ExecBlock(w, prog, conv, s.body, st, fuel);
    if r.Done? { ClausesSame(m, w, prog, conv, s.clauses, r.st, fuel); }
  }

  lemma TrySame(m: Mark, w: World, prog: Program, conv: Conv, s: Stmt, st: State, fuel: nat)
    requires s.Try? && NoneInProgram(m, prog) && NoneInStmt(m, s)
    ensures ResultSame(m, st, ExecTry(w, prog, conv, s, st, fuel))
    decreases fuel, s, 1
  {
    hide ExecBlock, Guarded, Made, NoneInProgram, NoneInSeq, NoneInClauses;
    GuardedSame(m, w, prog, conv, s, st, fuel);
    var r := Guarded(w, prog, conv, s, st, fuel);
    if r.Done? && s.fin.Some? { BlockSame(m, w, prog, conv, s.fin.value, r.st, fuel); }
  }

  // ----------------------------------------------------------------------- exactly once

  /** The statement creates one object of the class. */
  predicate Marks(m: Mark, s: Stmt) {
    s.ExprStmt? && s.e.New? && s.e.classId == m.classId && s.e.ctor !in m.apart && NoneInArgs(m, s.e.args)
  }

  /** A try whose finally block begins by creating an object of a class that nothing
      else in it creates. */
  predicate MarkedTry(m: Mark, s: Stmt) {
    s.Try? && NoneInSeq(m, s.body) && NoneInClauses(m, s.clauses) &&
    s.fin.Some? && s.fin.value.Cons? && Marks(m, s.fin.value.head) && NoneInSeq(m, s.fin.value.tail)
  }

  /** However such a try ends, by completing, returning or throwing, one object of the
      class has been created: the block has run, and not twice.  Only a break or continue
      out of the try, or a return inside a loop or a switch, passes it by. */
  lemma FinallyRunsOnce(m: Mark, w: World, prog: Program, conv: Conv, s: Stmt, st: State, fuel: nat)
    requires NoneInProgram(m, prog) && MarkedTry(m, s)
    ensures var r, g := Exec(w, prog, conv, s, st, fuel), Guarded(w, prog, conv, s, st, fuel);
            r.Done? ==> Made(r.st.trace, m.classId) == Made(st.trace, m.classId) + (if g.Done? && !RunsFinally(g.o) then 0 else 1)
    ensures var r := Exec(w, prog, conv, s, st, fuel);
            !MayEscapeSeq(s.body) && !MayEscapeClauses(s.clauses) && r.Done? && !Leaps(r.o) ==> Made(r.st.trace, m.classId) == Made(st.trace, m.classId) + 1
  {
    hide ExecBlock, Guarded, Made, NoneInProgram, NoneInSeq, NoneInClauses, Marks;
    GuardedSame(m, w, prog, conv, s, st, fuel);
    EscapesFrom(w, prog, conv, s, st, fuel);
    var r := Guarded(w, prog, conv, s, st, fuel);
    if r.Done? && RunsFinally(r.o) { MarkedBlock(m, w, prog, conv, s.fin.value, r.st, fuel); }
  }

  predicate Leaps(o: Outcome) {
    o.Breaking? || o.Continuing?
  }

  /** Only loops and switches with returns in them let a run escape. */
  lemma EscapesFrom(w: World, prog: Program, conv: Conv, s: Stmt, st: State, fuel: nat)
    requires s.Try?
    ensures var g := Guarded(w, prog, conv, s, st, fuel);
            g.Done? && g.o.Escaping? ==> MayEscapeSeq(s.body) || MayEscapeClauses(s.clauses)
  {
    hide ExecBlock, ExecClauses;
  }

  lemma MarkedBlock(m: Mark, w: World, prog: Program, conv: Conv, ss: Stmts, st: State, fuel: nat)
    requires NoneInProgram(m, prog) && ss.Cons? && NoneInSeq(m, ss.tail) && Marks(m, ss.head)
    ensures var r := ExecBlock(w, prog, conv, ss, st, fuel);
            r.Done? ==> Made(r.st.trace, m.classId) == Made(st.trace, m.classId) + 1
  {
    hide Eval, EvalNew, Made, NoneInProgram, NoneInSeq, NoneInArgs, ReleaseAll;
    NewMakes(m, w, prog, ss.head.e, st, fuel);
    NewIsEval(w, prog, ss.head.e, st, fuel);
    var x := Eval(w, prog, ss.head.e, st, fuel);
    if x.Val? { LogSame(m, x.st, Released(Low32(x.v))); }
    var r := Exec(w, prog, conv, ss.head, st, fuel);
    if r.Done? { SeqSame(m, w, prog, conv, ss.tail, r.st, fuel); }
    var q := ExecSeq(w, prog, conv, ss, st, fuel);
    if q.Done? && InFrame(RefSlots(ss), |q.st.locals|) { ReleaseSame(m, q.st, RefSlots(ss)); }
  }

  /** The same of a call of a function whose body is such a try, with more statements
      behind it, when nothing else creates objects of the class or calls it again, and no return in
      the try stands in a loop or a switch. */
  lemma CallRunsOnce(classId: u32, w: World, prog: Program, fn: nat, vs: seq<u64>, st: State, fuel: nat)
    requires OnceAround(classId, prog, fn) && |vs| == prog[fn].params as int
    ensures var r := Semantics.Call(w, prog, fn, vs, st, fuel);
            r.Val? || r.Raised? ==> Made(r.st.trace, classId) == Made(st.trace, classId) + 1
  {
    hide ExecBlock, Made, ReleaseAll, MarkedTry, NoneInProgram, NoneInSeq;
    var m := Mark(classId, {fn});
    var f := prog[fn];
    BodyRunsOnce(m, w, prog, BodyConv(f), f.body, Entered(f, vs, st), fuel);
    var b := ExecBlock(w, prog, BodyConv(f), f.body, Entered(f, vs, st), fuel);
    if b.Done? && InFrame(f.refs, |b.st.locals|) { ReleaseSame(m, b.st, f.refs); }
  }

  lemma BodyRunsOnce(m: Mark, w: World, prog: Program, conv: Conv, body: Stmts, st: State, fuel: nat)
    requires NoneInProgram(m, prog) && body.Cons? && MarkedTry(m, body.head) && NoneInSeq(m, body.tail)
    requires !MayEscapeSeq(body.head.body) && !MayEscapeClauses(body.head.clauses)
    ensures var r := ExecBlock(w, prog, conv, body, st, fuel);
            r.Done? && !Leaps(r.o) ==> Made(r.st.trace, m.classId) == Made(st.trace, m.classId) + 1
  {
    hide Exec, Made, ReleaseAll, MarkedTry, NoneInProgram, NoneInSeq;
    FinallyRunsOnce(m, w, prog, conv, body.head, st, fuel);
    var r := Exec(w, prog, conv, body.head, st, fuel);
    if r.Done? { SeqSame(m, w, prog, conv, body.tail, r.st, fuel); }
    var q := ExecSeq(w, prog, conv, body, st, fuel);
    if q.Done? && InFrame(RefSlots(body), |q.st.locals|) { ReleaseSame(m, q.st, RefSlots(body)); }
  }

  predicate OnceAround(classId: u32, prog: Program, fn: nat) {
    fn < |prog| && prog[fn].body.Cons? && NoneInProgram(Mark(classId, {fn}), prog) &&
    MarkedTry(Mark(classId, {fn}), prog[fn].body.head) && NoneInSeq(Mark(classId, {fn}), prog[fn].body.tail) &&
    !MayEscapeSeq(prog[fn].body.head.body) && !MayEscapeClauses(prog[fn].body.head.clauses)
  }

  lemma NewIsEval(w: World, prog: Program, e: Expr, st: State, fuel: nat)
    requires e.New?
    ensures Eval(w, prog, e, st, fuel) == EvalNew(w, prog, e, st, fuel)
  {
  }
}
