/** Which functions a piece of code calls: those below a limit. */
module Calls {
  import opened Options
  import opened Syntax
  import opened CodeLayout

  predicate ExprBelow(n: nat, e: Expr) {
    match e
    case Arith(_, x, y) => ExprBelow(n, x) && ExprBelow(n, y)
    case And(x, y) => ExprBelow(n, x) && ExprBelow(n, y)
    case Or(x, y) => ExprBelow(n, x) && ExprBelow(n, y)
    case Not(x) => ExprBelow(n, x)
    case Negate(_, x) => ExprBelow(n, x)
    case Ternary(c, x, y, _) => ExprBelow(n, c) && ExprBelow(n, x) && ExprBelow(n, y)
    case Assign(_, _, x) => ExprBelow(n, x)
    case AssignRef(_, x) => ExprBelow(n, x)
    case AssignOp(_, _, _, x) => ExprBelow(n, x)
    case Invoke(fn, args) => fn < n && ArgsBelow(n, args)
    case New(_, _, ctor, args) => ctor < n && ArgsBelow(n, args)
    case _ => true
  }

  predicate ArgsBelow(n: nat, args: Args) {
    match args
    case NoArgs => true
    case Arg(e, _, rest) => ExprBelow(n, e) && ArgsBelow(n, rest)
  }

  predicate OptBelow(n: nat, e: Option<Expr>) {
    e.Some? ==> ExprBelow(n, e.value)
  }

  predicate StmtBelow(n: nat, s: Stmt)
    decreases s, 0
  {
    match s
    case Block(body) => SeqBelow(n, body)
    case VarDecl(_, _, _, init) => OptBelow(n, init)
    case ExprStmt(e, _) => ExprBelow(n, e)
    case If(c, t) => ExprBelow(n, c) && StmtBelow(n, t)
    case IfElse(c, t, f) => ExprBelow(n, c) && StmtBelow(n, t) && StmtBelow(n, f)
    case While(c, b) => ExprBelow(n, c) && StmtBelow(n, b)
    case DoWhile(b, c) => StmtBelow(n, b) && ExprBelow(n, c)
    case For(a, g, i, b) => StmtBelow(n, a) && OptBelow(n, g) && OptBelow(n, i) && StmtBelow(n, b)
    case Switch(e, cases) => ExprBelow(n, e) && CasesBelow(n, cases)
    case Return(e, _) => OptBelow(n, e)
    case Throw(e) => ExprBelow(n, e)
    case Try(body, clauses, fin) => SeqBelow(n, body) && ClausesBelow(n, clauses) && FinallyBelow(n, fin)
    case _ => true
  }

  predicate FinallyBelow(n: nat, fin: Option<Stmts>)
    decreases fin, 1
  {
    fin.Some? ==> SeqBelow(n, fin.value)
  }

  predicate SeqBelow(n: nat, ss: Stmts)
    decreases ss, 0
  {
    match ss
    case Nil => true
    case Cons(s, rest) => StmtBelow(n, s) && SeqBelow(n, rest)
  }

  predicate CasesBelow(n: nat, cases: Cases)
    decreases cases, 0
  {
    match cases
    case NoCase => true
    case Default(body) => SeqBelow(n, body)
    case Case(value, body, rest) => ExprBelow(n, value) && SeqBelow(n, body) && CasesBelow(n, rest)
  }

  predicate ClausesBelow(n: nat, clauses: Clauses)
    decreases clauses, 0
  {
    match clauses
    case NoClause => true
    case Clause(_, _, body, rest) => SeqBelow(n, body) && ClausesBelow(n, rest)
  }

  predicate ChainBelow(n: nat, c: Chain) {
    match c
    case InBlock(_, outer) => ChainBelow(n, outer)
    case InTry(fin, outer) => SeqBelow(n, fin) && ChainBelow(n, outer)
    case _ => true
  }

  predicate ProgramBelow(n: nat, prog: Program) {
    forall i :: 0 <= i < |prog| ==> SeqBelow(n, prog[i].body)
  }

  // ------------------------------------------------------ below a limit, if there is one

  predicate Known(limit: Option<nat>, fn: nat) {
    limit.Some? ==> fn < limit.value
  }

  predicate CallsIn(limit: Option<nat>, e: Expr) {
    limit.Some? ==> ExprBelow(limit.value, e)
  }

  predicate ArgsCallIn(limit: Option<nat>, args: Args) {
    limit.Some? ==> ArgsBelow(limit.value, args)
  }

  predicate OptCallsIn(limit: Option<nat>, e: Option<Expr>) {
    limit.Some? ==> OptBelow(limit.value, e)
  }

  predicate StmtCallsIn(limit: Option<nat>, s: Stmt) {
    limit.Some? ==> StmtBelow(limit.value, s)
  }

  predicate FinallyCallsIn(limit: Option<nat>, fin: Option<Stmts>) {
    limit.Some? ==> FinallyBelow(limit.value, fin)
  }

  predicate SeqCallsIn(limit: Option<nat>, ss: Stmts) {
    limit.Some? ==> SeqBelow(limit.value, ss)
  }

  predicate CasesCallIn(limit: Option<nat>, cases: Cases) {
    limit.Some? ==> CasesBelow(limit.value, cases)
  }

  predicate ClausesCallIn(limit: Option<nat>, clauses: Clauses) {
    limit.Some? ==> ClausesBelow(limit.value, clauses)
  }

  predicate ChainCallsIn(limit: Option<nat>, c: Chain) {
    limit.Some? ==> ChainBelow(limit.value, c)
  }

  lemma WhileWithin(limit: Option<nat>, s: Stmt)
    requires StmtCallsIn(limit, s) && s.While?
    ensures OptCallsIn(limit, Some(s.cond)) && StmtCallsIn(limit, s.loop)
  {
    hide ExprBelow;
  }

  lemma TryWithin(limit: Option<nat>, s: Stmt)
    requires StmtCallsIn(limit, s) && s.Try?
    ensures SeqCallsIn(limit, s.body) && ClausesCallIn(limit, s.clauses) && FinallyCallsIn(limit, s.fin)
  {
    hide SeqBelow, ClausesBelow;
  }
}
