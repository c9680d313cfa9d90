/** The bound syntax tree of the modelled source fragment: what the assembler
    sees after name resolution.  Locals are frame slots, functions are indices,
    classes are vtable ids, and each node carries the type facts the assembler
    consults (narrowing width, reference or not). */
module Syntax {
  import opened Options
  import opened Words
  import opened Instructions

  datatype Expr =
    | IntLit(value: u64)
    | BoolLit(truth: bool)
    | Null
    | Local(slot: u32)
    | Arith(op: BinOp, left: Expr, right: Expr)
    | And(left: Expr, right: Expr)
    | Or(left: Expr, right: Expr)
    | Not(operand: Expr)
    | Negate(conv: Conv, operand: Expr)
    | Ternary(cond: Expr, yes: Expr, no: Expr, isRef: bool)
    | Assign(slot: u32, conv: Conv, rhs: Expr)
    | AssignRef(slot: u32, rhs: Expr)
    | AssignOp(op: BinOp, slot: u32, conv: Conv, rhs: Expr)
    | IncDec(slot: u32, up: bool, prefix: bool)
    | Invoke(fn: nat, args: Args)
    | New(classId: u32, size: u32, ctor: nat, args: Args)

  datatype Args = NoArgs | Arg(e: Expr, isRef: bool, rest: Args)

  datatype Stmt =
    | Skip
    | Block(body: Stmts)
    | VarDecl(slot: u32, isRef: bool, conv: Conv, init: Option<Expr>)
    | ExprStmt(e: Expr, isRef: bool)
    | If(cond: Expr, thn: Stmt)
    | IfElse(cond: Expr, thn: Stmt, els: Stmt)
    | While(cond: Expr, loop: Stmt)
    | DoWhile(loop: Stmt, cond: Expr)
    | For(start: Stmt, guard: Option<Expr>, iter: Option<Expr>, loop: Stmt)
    | Switch(subject: Expr, cases: Cases)
    | Break
    | Continue
    | Return(result: Option<Expr>, isRef: bool)
    | Throw(e: Expr)
    | Try(body: Stmts, clauses: Clauses, fin: Option<Stmts>)

  datatype Stmts = Nil | Cons(head: Stmt, tail: Stmts)

  /** A default case, when there is one, comes last. */
  datatype Cases =
    | NoCase
    | Default(body: Stmts)
    | Case(value: Expr, body: Stmts, rest: Cases)

  datatype Clauses = NoClause | Clause(classId: u32, slot: u32, body: Stmts, rest: Clauses)

  /** refs: the reference-typed parameter slots in release order; linked: the
      body block has a parent link to the function (methods do, constructors
      do not). */
  datatype Function = Function(params: u32, frameSize: u32, refs: seq<u32>, conv: Conv, linked: bool, body: Stmts)

  type Program = seq<Function>

  /** Expressions that leave a value whose reference is already counted. */
  predicate ProducesRetained(e: Expr) {
    match e
    case New(_, _, _, _) => true
    case Invoke(_, _) => true
    case Assign(_, _, _) => true
    case AssignRef(_, _) => true
    case AssignOp(_, _, _, _) => true
    case Ternary(_, yes, no, _) => ProducesRetained(yes) || ProducesRetained(no)
    case _ => false
  }

  /** Of two branches of a reference-typed conditional, the first must be
      retained because only the second already is. */
  predicate RetainsFirst(first: Expr, second: Expr) {
    !ProducesRetained(first) && ProducesRetained(second)
  }

  /** The slots a block releases: its own reference declarations, last first. */
  function RefSlots(body: Stmts): seq<u32> {
    match body
    case Nil => []
    case Cons(s, rest) => RefSlots(rest) + (if s.VarDecl? && s.isRef then [s.slot] else [])
  }

  function ArgCount(args: Args): nat {
    match args
    case NoArgs => 0
    case Arg(_, _, rest) => 1 + ArgCount(rest)
  }

  predicate MayReturn(s: Stmt) {
    match s
    case Return(_, _) => true
    case Block(body) => MayReturnSeq(body)
    case If(_, t) => MayReturn(t)
    case IfElse(_, t, f) => MayReturn(t) || MayReturn(f)
    case While(_, b) => MayReturn(b)
    case DoWhile(b, _) => MayReturn(b)
    case For(a, _, _, b) => MayReturn(a) || MayReturn(b)
    case Switch(_, cases) => MayReturnCases(cases)
    case Try(body, clauses, fin) =>
      MayReturnSeq(body) || MayReturnClauses(clauses) || (fin.Some? && MayReturnSeq(fin.value))
    case _ => false
  }

  predicate MayReturnSeq(ss: Stmts) {
    match ss
    case Nil => false
    case Cons(s, rest) => MayReturn(s) || MayReturnSeq(rest)
  }

  predicate MayReturnCases(cases: Cases) {
    match cases
    case NoCase => false
    case Default(body) => MayReturnSeq(body)
    case Case(_, body, rest) => MayReturnSeq(body) || MayReturnCases(rest)
  }

  predicate MayReturnClauses(clauses: Clauses) {
    match clauses
    case NoClause => false
    case Clause(_, _, body, rest) => MayReturnSeq(body) || MayReturnClauses(rest)
  }

  /** There is a return in a loop body or a case, which has no way back to its function. */
  predicate MayEscape(s: Stmt) {
    match s
    case Block(body) => MayEscapeSeq(body)
    case If(_, t) => MayEscape(t)
    case IfElse(_, t, f) => MayEscape(t) || MayEscape(f)
    case While(_, b) => MayReturn(b)
    case DoWhile(b, _) => MayReturn(b)
    case For(a, _, _, b) => MayEscape(a) || MayReturn(b)
    case Switch(_, cases) => MayReturnCases(cases)
    case Try(body, clauses, fin) =>
      MayEscapeSeq(body) || MayEscapeClauses(clauses) || (fin.Some? && MayEscapeSeq(fin.value))
    case _ => false
  }

  predicate MayEscapeSeq(ss: Stmts) {
    match ss
    case Nil => false
    case Cons(s, rest) => MayEscape(s) || MayEscapeSeq(rest)
  }

  predicate MayEscapeClauses(clauses: Clauses) {
    match clauses
    case NoClause => false
    case Clause(_, _, body, rest) => MayEscapeSeq(body) || MayEscapeClauses(rest)
  }
}
