/** Abandoned operands.  When a call raises in the middle of an expression, what the
    expression had pushed stays on the operand stack until the frame returns; caught
    inside a finally block, it ends up on top of a pending result.  Here: a condition
    on the source under which nothing is left, and what is left otherwise. */
module Residue {
  import opened Options
  import opened Words
  import opened Instructions
  import opened Syntax
  import opened Semantics

  /** What is asked of a piece of code that raises: nothing, to leave no operand, or
      not to raise at all. */
  datatype Care = Careless | Clean | Silent

  /** Only in the last place to be evaluated may an expression raise: not right of an
      operator, not in a later argument, not in a constructor or its arguments, not in
      a compound assignment.  Calls that cannot raise may stand anywhere; d bounds how
      deep they are looked into. */
  predicate ExprCareful(prog: Program, d: nat, e: Expr, care: Care)
    decreases d, e
  {
    care == Careless ||
    match e
    case Arith(_, x, y) => ExprCareful(prog, d, x, care) && ExprCareful(prog, d, y, Silent)
    case And(x, y) => ExprCareful(prog, d, x, care) && ExprCareful(prog, d, y, care)
    case Or(x, y) => ExprCareful(prog, d, x, care) && ExprCareful(prog, d, y, care)
    case Not(x) => ExprCareful(prog, d, x, care)
    case Negate(_, x) => ExprCareful(prog, d, x, care)
    case Ternary(c, x, y, _) => ExprCareful(prog, d, c, care) && ExprCareful(prog, d, x, care) && ExprCareful(prog, d, y, care)
    case Assign(_, _, x) => ExprCareful(prog, d, x, care)
    case AssignRef(_, x) => ExprCareful(prog, d, x, care)
    case AssignOp(_, _, _, x) => ExprCareful(prog, d, x, Silent)
    case Invoke(fn, args) =>
      ArgsCareful(prog, d, args, care) &&
      (care == Silent ==> d > 0 && fn < |prog| && SeqCareful(prog, d - 1, prog[fn].body, Silent, false, false))
    case New(_, _, ctor, args) =>
      ArgsCareful(prog, d, args, Silent) && d > 0 && ctor < |prog| && SeqCareful(prog, d - 1, prog[ctor].body, Silent, false, false)
    case _ => true
  }

  predicate ArgsCareful(prog: Program, d: nat, args: Args, care: Care)
    decreases d, args
  {
    match args
    case NoArgs => true
    case Arg(e, _, rest) => ExprCareful(prog, d, e, care) && ArgsCareful(prog, d, rest, Silent)
  }

  predicate OptionCareful(prog: Program, d: nat, e: Option<Expr>, care: Care)
    decreases d, e, 1
  {
    e.Some? ==> ExprCareful(prog, d, e.value, care)
  }

  /** An exception that a clause takes over must have left nothing.  brk, cont: whether
      a break or continue may leave the statement.  Under the subject of a switch
      nothing may raise, nor may a continue leave it. */
  predicate Careful(prog: Program, d: nat, s: Stmt, care: Care, brk: bool, cont: bool)
    decreases d, s, 1
  {
    match s
    case Skip => true
    case Block(body) => SeqCareful(prog, d, body, care, brk, cont)
    case VarDecl(_, _, _, init) => OptionCareful(prog, d, init, care)
    case ExprStmt(e, _) => ExprCareful(prog, d, e, care)
    case If(c, t) => ExprCareful(prog, d, c, care) && Careful(prog, d, t, care, brk, cont)
    case IfElse(c, t, f) =>
      ExprCareful(prog, d, c, care) && Careful(prog, d, t, care, brk, cont) && Careful(prog, d, f, care, brk, cont)
    case While(c, b) => ExprCareful(prog, d, c, care) && Careful(prog, d, b, care, true, true)
    case DoWhile(b, c) => ExprCareful(prog, d, c, care) && Careful(prog, d, b, care, true, true)
    case For(a, g, i, b) =>
      Careful(prog, d, a, care, brk, cont) && OptionCareful(prog, d, g, care) && OptionCareful(prog, d, i, care) &&
      Careful(prog, d, b, care, true, true)
    case Switch(e, cases) =>
      ExprCareful(prog, d, e, care) && CasesCareful(prog, d, cases, if care == Careless then Careless else Silent)
    case Break => brk
    case Continue => cont
    case Return(e, _) => OptionCareful(prog, d, e, care)
    case Throw(e) => ExprCareful(prog, d, e, care) && care != Silent
    case Try(body, clauses, fin) =>
      SeqCareful(prog, d, body, if clauses.Clause? && care == Careless then Clean else GuardCare(prog, d, s, care), brk, cont) &&
      ClausesCareful(prog, d, clauses, GuardCare(prog, d, s, care), brk, cont) &&
      (fin.Some? ==> SeqCareful(prog, d, fin.value, care, brk, cont))
  }

  /** An exception also ends when the finally block breaks or continues out of the try. */
  function GuardCare(prog: Program, d: nat, s: Stmt, care: Care): Care
    requires s.Try?
    decreases d, s, 0
  {
    if care == Careless && s.fin.Some? && !SeqCareful(prog, d, s.fin.value, Careless, false, false) then Clean else care
  }

  predicate SeqCareful(prog: Program, d: nat, ss: Stmts, care: Care, brk: bool, cont: bool)
    decreases d, ss, 0
  {
    match ss
    case Nil => true
    case Cons(s, rest) => Careful(prog, d, s, care, brk, cont) && SeqCareful(prog, d, rest, care, brk, cont)
  }

  predicate CasesCareful(prog: Program, d: nat, cases: Cases, care: Care)
    decreases d, cases, 0
  {
    match cases
    case NoCase => true
    case Default(body) => SeqCareful(prog, d, body, care, true, false)
    case Case(value, body, rest) =>
      ExprCareful(prog, d, value, care) && SeqCareful(prog, d, body, care, true, false) && CasesCareful(prog, d, rest, care)
  }

  predicate ClausesCareful(prog: Program, d: nat, clauses: Clauses, care: Care, brk: bool, cont: bool)
    decreases d, clauses, 0
  {
    match clauses
    case NoClause => true
    case Clause(_, _, body, rest) => SeqCareful(prog, d, body, care, brk, cont) && ClausesCareful(prog, d, rest, care, brk, cont)
  }

  // ------------------------------------------------------------------------- expressions

  /** An evaluation meets what was asked of it. */
  predicate Meets(r: Value, care: Care) {
    r.Raised? ==> care != Silent && (care == Clean ==> r.left == [])
  }

  predicate ArgsMeet(r: Values, care: Care) {
    r.ArgRaised? ==> care != Silent && (care == Clean ==> r.left == [])
  }

  lemma {:induction false} EvalMeets(w: World, prog: Program, d: nat, e: Expr, care: Care, st: State, fuel: nat)
    requires ExprCareful(prog, d, e, care)
    ensures Meets(Eval(w, prog, e, st, fuel), care)
    decreases fuel, e, 1
  {
    hide EvalArith, EvalShortCircuit, EvalTernary, EvalAssignRef, EvalAssignOp, EvalInvoke, EvalNew, EvalIncDec, SeqCareful, ArgsCareful;
    if care != Careless {
      match e
      case Arith(_, _, _) => ArithMeets(w, prog, d, e, care, st, fuel);
      case And(_, _) => ShortCircuitMeets(w, prog, d, e, care, st, fuel);
      case Or(_, _) => ShortCircuitMeets(w, prog, d, e, care, st, fuel);
      case Not(x) => EvalMeets(w, prog, d, x, care, st, fuel);
      case Negate(_, x) => EvalMeets(w, prog, d, x, care, st, fuel);
      case Ternary(_, _, _, _) => TernaryMeets(w, prog, d, e, care, st, fuel);
      case Assign(_, _, x) => EvalMeets(w, prog, d, x, care, st, fuel);
      case AssignRef(_, _) => AssignRefMeets(w, prog, d, e, care, st, fuel);
      case AssignOp(_, _, _, _) => AssignOpMeets(w, prog, d, e, care, st, fuel);
      case IncDec(slot, up, prefix) => assert !EvalIncDec(slot, up, prefix, st).Raised? by { NeverRaises(slot, up, prefix, st); }
      case Invoke(_, _) => InvokeMeets(w, prog, d, e, care, st, fuel);
      case New(_, _, _, _) => NewMeets(w, prog, d, e, care, st, fuel);
      case _ =>
    }
  }

  lemma NeverRaises(slot: u32, up: bool, prefix: bool, st: State)
    ensures !EvalIncDec(slot, up, prefix, st).Raised?
  {
  }

  lemma ArithMeets(w: World, prog: Program, d: nat, e: Expr, care: Care, st: State, fuel: nat)
    requires e.Arith? && care != Careless && ExprCareful(prog, d, e, care)
    ensures Meets(EvalArith(w, prog, e, st, fuel), care)
    decreases fuel, e, 0
  {
    hide Eval, SeqCareful, ArgsCareful;
    EvalMeets(w, prog, d, e.left, care, st, fuel);
    var x := Eval(w, prog, e.left, st, fuel);
    if x.Val? { EvalMeets(w, prog, d, e.right, Silent, x.st, fuel); }
  }

  lemma ShortCircuitMeets(w: World, prog: Program, d: nat, e: Expr, care: Care, st: State, fuel: nat)
    requires (e.And? || e.Or?) && care != Careless && ExprCareful(prog, d, e, care)
    ensures Meets(EvalShortCircuit(w, prog, e, st, fuel), care)
    decreases fuel, e, 0
  {
    hide Eval, SeqCareful, ArgsCareful;
    EvalMeets(w, prog, d, e.left, care, st, fuel);
    var x := Eval(w, prog, e.left, st, fuel);
    if x.Val? { EvalMeets(w, prog, d, e.right, care, x.st, fuel); }
  }

  lemma TernaryMeets(w: World, prog: Program, d: nat, e: Expr, care: Care, st: State, fuel: nat)
    requires e.Ternary? && care != Careless && ExprCareful(prog, d, e, care)
    ensures Meets(EvalTernary(w, prog, e, st, fuel), care)
    decreases fuel, e, 0
  {
    hide Eval, SeqCareful, ArgsCareful;
    EvalMeets(w, prog, d, e.cond, care, st, fuel);
    var x := Eval(w, prog, e.cond, st, fuel);
    if x.Val? {
      EvalMeets(w, prog, d, e.yes, care, x.st, fuel);
      EvalMeets(w, prog, d, e.no, care, x.st, fuel);
    }
  }

  lemma AssignRefMeets(w: World, prog: Program, d: nat, e: Expr, care: Care, st: State, fuel: nat)
    requires e.AssignRef? && care != Careless && ExprCareful(prog, d, e, care)
    ensures Meets(EvalAssignRef(w, prog, e, st, fuel), care)
    decreases fuel, e, 0
  {
    hide Eval, SeqCareful, ArgsCareful;
    EvalMeets(w, prog, d, e.rhs, care, st, fuel);
  }

  lemma AssignOpMeets(w: World, prog: Program, d: nat, e: Expr, care: Care, st: State, fuel: nat)
    requires e.AssignOp? && care != Careless && ExprCareful(prog, d, e, care)
    ensures Meets(EvalAssignOp(w, prog, e, st, fuel), care)
    decreases fuel, e, 0
  {
    hide Eval, SeqCareful, ArgsCareful;
    EvalMeets(w, prog, d, e.rhs, Silent, st, fuel);
  }

  lemma InvokeMeets(w: World, prog: Program, d: nat, e: Expr, care: Care, st: State, fuel: nat)
    requires e.Invoke? && care != Careless && ExprCareful(prog, d, e, care)
    ensures Meets(EvalInvoke(w, prog, e, st, fuel), care)
    decreases fuel, e, 0
  {
    hide Semantics.Call, EvalArgs, SeqCareful, ArgsCareful;
    ArgsMeets(w, prog, d, e.args, care, st, fuel);
    var r := EvalArgs(w, prog, e.args, st, fuel);
    if r.Vals? && fuel > 0 && care == Silent { CallSilent(w, prog, d - 1, e.fn, r.vs, r.st, fuel - 1); }
  }

  lemma NewMeets(w: World, prog: Program, d: nat, e: Expr, care: Care, st: State, fuel: nat)
    requires e.New? && care != Careless && ExprCareful(prog, d, e, care)
    ensures Meets(EvalNew(w, prog, e, st, fuel), care)
    decreases fuel, e, 0
  {
    hide Semantics.Call, EvalArgs, SeqCareful, ArgsCareful;
    var got := w.alloc(st.trace, e.size);
    if got.Some? {
      var st1 := Created(st, e.size, got.value, e.classId);
      ArgsMeets(w, prog, d, e.args, Silent, st1, fuel);
      var r := EvalArgs(w, prog, e.args, st1, fuel);
      if r.Vals? && fuel > 0 { CallSilent(w, prog, d - 1, e.ctor, [got.value] + r.vs, r.st, fuel - 1); }
    }
  }

  lemma {:induction false} ArgsMeets(w: World, prog: Program, d: nat, args: Args, care: Care, st: State, fuel: nat)
    requires ArgsCareful(prog, d, args, care)
    ensures ArgsMeet(EvalArgs(w, prog, args, st, fuel), care)
    decreases fuel, args, 0
  {
    hide Eval, ExprCareful;
    if args.Arg? {
      EvalMeets(w, prog, d, args.e, care, st, fuel);
      var x := Eval(w, prog, args.e, st, fuel);
      if x.Val? {
        var retain := args.isRef && !ProducesRetained(args.e);
        ArgsMeets(w, prog, d, args.rest, Silent, LogRetain(retain, x.v, x.st), fuel);
      }
    }
  }

  lemma CallSilent(w: World, prog: Program, d: nat, fn: nat, vs: seq<u64>, st: State, fuel: nat)
    requires fn < |prog| && SeqCareful(prog, d, prog[fn].body, Silent, false, false)
    ensures !Semantics.Call(w, prog, fn, vs, st, fuel).Raised?
    decreases fuel
  {
    hide ExecBlock, SeqCareful, ReleaseAll, InFrame;
    if |vs| == prog[fn].params {
      BlockTidy(w, prog, d, BodyConv(prog[fn]), prog[fn].body, Silent, false, false, Entered(prog[fn], vs, st), fuel);
    }
  }

  // -------------------------------------------------------------------------- statements

  /** An execution meets what was asked of it; completing, breaking and continuing it
      never leaves an operand. */
  predicate Tidy(r: Result, care: Care, brk: bool, cont: bool) {
    r.Done? ==>
      match r.o
      case Normal => r.left == []
      case Breaking => r.left == [] && brk
      case Continuing => r.left == [] && cont
      case Throwing => care != Silent && (care == Clean ==> r.left == [])
      case Returning(_) => true
      case Escaping(_) => true
  }

  lemma EndedTidy(r: Value, care: Care, brk: bool, cont: bool)
    requires !r.Val? && Meets(r, care)
    ensures Tidy(Ended(r), care, brk, cont)
  {
  }

  lemma {:induction false} StmtTidy(w: World, prog: Program, d: nat, conv: Conv, s: Stmt, care: Care, brk: bool, cont: bool, st: State, fuel: nat)
    requires Careful(prog, d, s, care, brk, cont)
    ensures Tidy(Exec(w, prog, conv, s, st, fuel), care, brk, cont)
    decreases fuel, s, 2
  {
    hide ExecDecl, ExecIf, ExecIfElse, ExecLoop, ExecDo, ExecFor, ExecSwitchStmt, ExecReturn, ExecThrow, ExecTry, ExecBlock, Eval;
    hide SeqCareful, ExprCareful, CasesCareful, ClausesCareful, OptionCareful, GuardCare, ReleaseAll, InFrame;
    match s
    case Block(body) => BlockTidy(w, prog, d, conv, body, care, brk, cont, st, fuel);
    case If(_, _) => IfTidy(w, prog, d, conv, s, care, brk, cont, st, fuel);
    case IfElse(_, _, _) => IfElseTidy(w, prog, d, conv, s, care, brk, cont, st, fuel);
    case While(c, b) => WhileTidy(w, prog, d, c, b, care, st, fuel);
    case DoWhile(b, c) => DoTidy(w, prog, d, b, c, care, st, fuel);
    case For(_, _, _, _) => ForTidy(w, prog, d, conv, s, care, brk, cont, st, fuel);
    case Switch(_, _) => SwitchStmtTidy(w, prog, d, conv, s, care, brk, cont, st, fuel);
    case Try(_, _, _) => TryTidy(w, prog, d, conv, s, care, brk, cont, st, fuel);
    case Skip =>
    case Break =>
    case Continue =>
    case _ => PlainTidy(w, prog, d, conv, s, care, brk, cont, st, fuel);
  }

  /** Expression statements, declarations, returns and throws. */
  lemma PlainTidy(w: World, prog: Program, d: nat, conv: Conv, s: Stmt, care: Care, brk: bool, cont: bool, st: State, fuel: nat)
    requires (s.ExprStmt? || s.VarDecl? || s.Return? || s.Throw?) && Careful(prog, d, s, care, brk, cont)
    ensures Tidy(Exec(w, prog, conv, s, st, fuel), care, brk, cont)
    decreases fuel, s, 1
  {
    hide ExecDecl, ExecReturn, ExecThrow, ExprCareful, Eval;
    match s
    case ExprStmt(e, _) => EvalMeets(w, prog, d, e, care, st, fuel);
    case VarDecl(_, _, _, init) => DeclTidy(w, prog, d, conv, s, care, brk, cont, st, fuel);
    case Return(e, _) => ReturnTidy(w, prog, d, conv, s, care, brk, cont, st, fuel);
    case Throw(e) => ThrowTidy(w, prog, d, conv, s, care, brk, cont, st, fuel);
  }

  lemma DeclTidy(w: World, prog: Program, d: nat, conv: Conv, s: Stmt, care: Care, brk: bool, cont: bool, st: State, fuel: nat)
    requires s.VarDecl? && OptionCareful(prog, d, s.init, care)
    ensures Tidy(ExecDecl(w, prog, conv, s, st, fuel), care, brk, cont)
    decreases fuel, s, 0
  {
    hide Eval, ExprCareful;
    if s.init.Some? { EvalMeets(w, prog, d, s.init.value, care, st, fuel); }
  }

  lemma ReturnTidy(w: World, prog: Program, d: nat, conv: Conv, s: Stmt, care: Care, brk: bool, cont: bool, st: State, fuel: nat)
    requires s.Return? && OptionCareful(prog, d, s.result, care)
    ensures Tidy(ExecReturn(w, prog, conv, s, st, fuel), care, brk, cont)
    decreases fuel, s, 0
  {
    hide Eval, ExprCareful;
    if s.result.Some? { EvalMeets(w, prog, d, s.result.value, care, st, fuel); }
  }

  lemma ThrowTidy(w: World, prog: Program, d: nat, conv: Conv, s: Stmt, care: Care, brk: bool, cont: bool, st: State, fuel: nat)
    requires s.Throw? && ExprCareful(prog, d, s.e, care) && care != Silent
    ensures Tidy(ExecThrow(w, prog, conv, s, st, fuel), care, brk, cont)
    decreases fuel, s, 0
  {
    hide Eval, ExprCareful;
    EvalMeets(w, prog, d, s.e, care, st, fuel);
  }

  lemma IfTidy(w: World, prog: Program, d: nat, conv: Conv, s: Stmt, care: Care, brk: bool, cont: bool, st: State, fuel: nat)
    requires s.If? && Careful(prog, d, s, care, brk, cont)
    ensures Tidy(ExecIf(w, prog, conv, s, st, fuel), care, brk, cont)
    decreases fuel, s, 0
  {
    hide Eval, Exec, ExprCareful;
    EvalMeets(w, prog, d, s.cond, care, st, fuel);
    var x := Eval(w, prog, s.cond, st, fuel);
    if x.Val? { StmtTidy(w, prog, d, conv, s.thn, care, brk, cont, x.st, fuel); }
  }

  lemma IfElseTidy(w: World, prog: Program, d: nat, conv: Conv, s: Stmt, care: Care, brk: bool, cont: bool, st: State, fuel: nat)
    requires s.IfElse? && Careful(prog, d, s, care, brk, cont)
    ensures Tidy(ExecIfElse(w, prog, conv, s, st, fuel), care, brk, cont)
    decreases fuel, s, 0
  {
    hide Eval, Exec, ExprCareful;
    EvalMeets(w, prog, d, s.cond, care, st, fuel);
    var x := Eval(w, prog, s.cond, st, fuel);
    if x.Val? {
      StmtTidy(w, prog, d, conv, s.thn, care, brk, cont, x.st, fuel);
      StmtTidy(w, prog, d, conv, s.els, care, brk, cont, x.st, fuel);
    }
  }

  lemma ForTidy(w: World, prog: Program, d: nat, conv: Conv, s: Stmt, care: Care, brk: bool, cont: bool, st: State, fuel: nat)
    requires s.For? && Careful(prog, d, s, care, brk, cont)
    ensures Tidy(ExecFor(w, prog, conv, s, st, fuel), care, brk, cont)
    decreases fuel, s, 0
  {
    hide Exec, ExecLoop, OptionCareful;
    StmtTidy(w, prog, d, conv, s.start, care, brk, cont, st, fuel);
    var r := Exec(w, prog, conv, s.start, st, fuel);
    if r.Done? { LoopTidy(w, prog, d, s.guard, s.iter, s.loop, care, r.st, fuel); }
  }

  lemma WhileTidy(w: World, prog: Program, d: nat, c: Expr, b: Stmt, care: Care, st: State, fuel: nat)
    requires ExprCareful(prog, d, c, care) && Careful(prog, d, b, care, true, true)
    ensures Tidy(ExecLoop(w, prog, Some(c), None, b, st, fuel), care, false, false)
    decreases fuel, b, 5
  {
    hide ExecLoop, Careful, ExprCareful;
    LoopTidy(w, prog, d, Some(c), None, b, care, st, fuel);
  }

  lemma {:induction false} LoopTidy(w: World, prog: Program, d: nat, g: Option<Expr>, i: Option<Expr>, b: Stmt, care: Care, st: State, fuel: nat)
    requires OptionCareful(prog, d, g, care) && OptionCareful(prog, d, i, care) && Careful(prog, d, b, care, true, true)
    ensures Tidy(ExecLoop(w, prog, g, i, b, st, fuel), care, false, false)
    decreases fuel, b, 4
  {
    hide Eval, ExecRound, Careful, ExprCareful;
    if fuel > 0 {
      if g.Some? { EvalMeets(w, prog, d, g.value, care, st, fuel - 1); }
      var x := if g.Some? then Eval(w, prog, g.value, st, fuel - 1) else Val(1, st);
      if x.Val? { RoundTidy(w, prog, d, g, i, b, care, x.st, fuel); }
    }
  }

  lemma {:induction false} RoundTidy(w: World, prog: Program, d: nat, g: Option<Expr>, i: Option<Expr>, b: Stmt, care: Care, st: State, fuel: nat)
    requires fuel > 0 && OptionCareful(prog, d, g, care) && OptionCareful(prog, d, i, care) && Careful(prog, d, b, care, true, true)
    ensures Tidy(ExecRound(w, prog, g, i, b, st, fuel), care, false, false)
    decreases fuel, b, 3
  {
    hide Exec, ExecBack, Careful, OptionCareful;
    StmtTidy(w, prog, d, Keep, b, care, true, true, st, fuel - 1);
    var r := Exec(w, prog, Keep, b, st, fuel - 1);
    if r.Done? { BackTidy(w, prog, d, g, i, b, care, r.st, fuel); }
  }

  lemma {:induction false} BackTidy(w: World, prog: Program, d: nat, g: Option<Expr>, i: Option<Expr>, b: Stmt, care: Care, st: State, fuel: nat)
    requires fuel > 0 && OptionCareful(prog, d, g, care) && OptionCareful(prog, d, i, care) && Careful(prog, d, b, care, true, true)
    ensures Tidy(ExecBack(w, prog, g, i, b, st, fuel), care, false, false)
    decreases fuel, b, 2
  {
    hide Eval, ExecLoop, Careful, ExprCareful;
    if i.Some? { EvalMeets(w, prog, d, i.value, care, st, fuel - 1); }
    var y := if i.Some? then Eval(w, prog, i.value, st, fuel - 1) else Val(0, st);
    if y.Val? { LoopTidy(w, prog, d, g, i, b, care, y.st, fuel - 1); }
  }

  lemma {:induction false} DoTidy(w: World, prog: Program, d: nat, b: Stmt, c: Expr, care: Care, st: State, fuel: nat)
    requires ExprCareful(prog, d, c, care) && Careful(prog, d, b, care, true, true)
    ensures Tidy(ExecDo(w, prog, b, c, st, fuel), care, false, false)
    decreases fuel, b, 2
  {
    hide Exec, Until, Careful, ExprCareful;
    if fuel > 0 {
      StmtTidy(w, prog, d, Keep, b, care, true, true, st, fuel - 1);
      var r := Exec(w, prog, Keep, b, st, fuel - 1);
      if r.Done? { UntilTidy(w, prog, d, b, c, care, r.st, fuel); }
    }
  }

  lemma {:induction false} UntilTidy(w: World, prog: Program, d: nat, b: Stmt, c: Expr, care: Care, st: State, fuel: nat)
    requires fuel > 0 && ExprCareful(prog, d, c, care) && Careful(prog, d, b, care, true, true)
    ensures Tidy(Until(w, prog, b, c, st, fuel), care, false, false)
    decreases fuel, b, 1
  {
    hide Eval, ExecDo, Careful, ExprCareful;
    EvalMeets(w, prog, d, c, care, st, fuel - 1);
    var x := Eval(w, prog, c, st, fuel - 1);
    if x.Val? { DoTidy(w, prog, d, b, c, care, x.st, fuel - 1); }
  }

  lemma SwitchStmtTidy(w: World, prog: Program, d: nat, conv: Conv, s: Stmt, care: Care, brk: bool, cont: bool, st: State, fuel: nat)
    requires s.Switch? && Careful(prog, d, s, care, brk, cont)
    ensures Tidy(ExecSwitchStmt(w, prog, conv, s, st, fuel), care, brk, cont)
    decreases fuel, s, 0
  {
    hide Eval, ExecSwitch, CasesCareful, ExprCareful;
    EvalMeets(w, prog, d, s.subject, care, st, fuel);
    var x := Eval(w, prog, s.subject, st, fuel);
    if x.Val? { SwitchTidy(w, prog, d, x.v, s.cases, if care == Careless then Careless else Silent, x.st, fuel); }
  }

  lemma {:induction false} SwitchTidy(w: World, prog: Program, d: nat, v: u64, cases: Cases, care: Care, st: State, fuel: nat)
    requires CasesCareful(prog, d, cases, care) && care != Clean
    ensures Tidy(ExecSwitch(w, prog, v, cases, st, fuel), care, true, false)
    decreases fuel, cases, 1
  {
    hide Eval, ExecCases, SeqCareful, ExprCareful;
    if cases.Case? {
      EvalMeets(w, prog, d, cases.value, care, st, fuel);
      var x := Under([v], Eval(w, prog, cases.value, st, fuel));
      if x.Val? {
        CasesTidy(w, prog, d, cases, care, x.st, fuel);
        SwitchTidy(w, prog, d, v, cases.rest, care, x.st, fuel);
      }
    } else {
      CasesTidy(w, prog, d, cases, care, st, fuel);
    }
  }

  lemma {:induction false} CasesTidy(w: World, prog: Program, d: nat, cases: Cases, care: Care, st: State, fuel: nat)
    requires CasesCareful(prog, d, cases, care)
    ensures Tidy(ExecCases(w, prog, cases, st, fuel), care, true, false)
    decreases fuel, cases, 0
  {
    hide ExecSeq, SeqCareful, ExprCareful;
    match cases
    case NoCase =>
    case Default(body) => SeqTidy(w, prog, d, Keep, body, care, true, false, st, fuel);
    case Case(_, body, rest) =>
      SeqTidy(w, prog, d, Keep, body, care, true, false, st, fuel);
      var r := ExecSeq(w, prog, Keep, body, st, fuel);
      if r.Done? { CasesTidy(w, prog, d, rest, care, r.st, fuel); }
  }

  lemma {:induction false} SeqTidy(w: World, prog: Program, d: nat, conv: Conv, ss: Stmts, care: Care, brk: bool, cont: bool, st: State, fuel: nat)
    requires SeqCareful(prog, d, ss, care, brk, cont)
    ensures Tidy(ExecSeq(w, prog, conv, ss, st, fuel), care, brk, cont)
    decreases fuel, ss, 0
  {
    hide Exec, Careful;
    if ss.Cons? {
      StmtTidy(w, prog, d, conv, ss.head, care, brk, cont, st, fuel);
      var r := Exec(w, prog, conv, ss.head, st, fuel);
      if r.Done? { SeqTidy(w, prog, d, conv, ss.tail, care, brk, cont, r.st, fuel); }
    }
  }

  lemma BlockTidy(w: World, prog: Program, d: nat, conv: Conv, body: Stmts, care: Care, brk: bool, cont: bool, st: State, fuel: nat)
    requires SeqCareful(prog, d, body, care, brk, cont)
    ensures Tidy(ExecBlock(w, prog, conv, body, st, fuel), care, brk, cont)
    decreases fuel, body, 1
  {
    hide ExecSeq, SeqCareful, ReleaseAll, InFrame;
    SeqTidy(w, prog, d, conv, body, care, brk, cont, st, fuel);
  }

  lemma {:induction false} ClausesTidy(w: World, prog: Program, d: nat, conv: Conv, clauses: Clauses, care: Care, brk: bool, cont: bool, st: State, fuel: nat)
    requires ClausesCareful(prog, d, clauses, care, brk, cont) && care != Silent
    ensures Tidy(ExecClauses(w, prog, conv, clauses, st, fuel), care, brk, cont)
    decreases fuel, clauses, 0
  {
    hide ExecBlock, SeqCareful, IsInstance;
    if clauses.Clause? {
      ClausesTidy(w, prog, d, conv, clauses.rest, care, brk, cont, st, fuel);
      if clauses.slot < |st.locals| {
        BlockTidy(w, prog, d, conv, clauses.body, care, brk, cont, Caught(st, clauses.slot), fuel);
      }
    }
  }

  lemma GuardedTidy(w: World, prog: Program, d: nat, conv: Conv, s: Stmt, care: Care, brk: bool, cont: bool, st: State, fuel: nat)
    requires s.Try? && Careful(prog, d, s, care, brk, cont)
    ensures Tidy(Guarded(w, prog, conv, s, st, fuel), GuardCare(prog, d, s, care), brk, cont)
    decreases fuel, s, 0
  {
    hide ExecBlock, SeqCareful, ClausesCareful;
    var g := GuardCare(prog, d, s, care);
    BlockTidy(w, prog, d, conv, s.body, if s.clauses.Clause? && care == Careless then Clean else g, brk, cont, st, fuel);
    var r := ExecBlock(w, prog, conv, s.body, st, fuel);
    if r.Done? && r.o == Throwing && s.clauses.Clause? && g != Silent { ClausesTidy(w, prog, d, conv, s.clauses, g, brk, cont, r.st, fuel); }
  }

  lemma TryTidy(w: World, prog: Program, d: nat, conv: Conv, s: Stmt, care: Care, brk: bool, cont: bool, st: State, fuel: nat)
    requires s.Try? && Careful(prog, d, s, care, brk, cont)
    ensures Tidy(ExecTry(w, prog, conv, s, st, fuel), care, brk, cont)
    decreases fuel, s, 1
  {
    hide ExecBlock, Guarded, SeqCareful, ClausesCareful, Finish;
    GuardedTidy(w, prog, d, conv, s, care, brk, cont, st, fuel);
    var r := Guarded(w, prog, conv, s, st, fuel);
    if s.fin.Some? && r.Done? && RunsFinally(r.o) {
      var f := ExecBlock(w, prog, conv, s.fin.value, r.st, fuel);
      var calm := SeqCareful(prog, d, s.fin.value, Careless, false, false);
      BlockTidy(w, prog, d, conv, s.fin.value, care, brk, cont, r.st, fuel);
      if calm { BlockTidy(w, prog, d, conv, s.fin.value, Careless, false, false, r.st, fuel); }
      FinishTidy(r, f, GuardCare(prog, d, s, care), care, calm, brk, cont);
    }
  }

  /** calm: no break or continue leaves the finally block. */
  lemma FinishTidy(r: Result, f: Result, guard: Care, care: Care, calm: bool, brk: bool, cont: bool)
    requires r.Done? && RunsFinally(r.o) && Tidy(r, guard, brk, cont) && Tidy(f, care, brk, cont) && (calm ==> Tidy(f, Careless, false, false))
    requires guard == if care == Careless && !calm then Clean else care
    ensures Tidy(Finish(r, f), care, brk, cont)
  {
  }
}
