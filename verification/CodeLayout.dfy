/** The code a one-pass emitter would write for each construct if it knew every
    label in advance: sizes first (no operand's width depends on its value),
    then what stands at each address. */
module CodeLayout {
  import opened Options
  import opened Words
  import opened Instructions
  import opened Syntax
  import opened VirtualMachine

  // ------------------------------------------------------------ emission contexts

  /** Where a break or continue goes, and the slots it releases on the way. */
  datatype Leap = NoLeap | Leap(slots: seq<u32>, target: u32)

  /** The parent links a return statement climbs: blocks to clean, finally
      blocks to inline, and the function's own cleanup, unless a missing link
      (a loop body, a case, a constructor body) ends the climb early. */
  datatype Chain =
    | Detached
    | FunctionEnd(refs: seq<u32>, conv: Conv)
    | InBlock(slots: seq<u32>, outer: Chain)
    | InTry(fin: Stmts, outer: Chain)

  datatype Env = Env(brk: Leap, cont: Leap, cleanup: u32, chain: Chain, fns: seq<u32>)

  function Addr(p: nat): u32 {
    p % M32
  }

  function Through(slots: seq<u32>, l: Leap): Leap {
    if l.NoLeap? then l else l.(slots := slots + l.slots)
  }

  function InnerEnv(env: Env, slots: seq<u32>, cleanup: u32): Env {
    Env(Through(slots, env.brk), Through(slots, env.cont), cleanup, InBlock(slots, env.chain), env.fns)
  }

  function LoopEnv(env: Env, brk: u32, cont: u32): Env {
    Env(Leap([], brk), Leap([], cont), env.cleanup, Detached, env.fns)
  }

  function SwitchEnv(env: Env, brk: u32): Env {
    Env(Leap([], brk), NoLeap, env.cleanup, Detached, env.fns)
  }

  /** Finally blocks are emitted where no break or continue may leave them. */
  function FinallyEnv(env: Env, chain: Chain): Env {
    env.(brk := NoLeap, cont := NoLeap, chain := chain)
  }

  function TryEnv(env: Env, fin: Option<Stmts>): Env {
    if fin.None? then env else env.(chain := InTry(fin.value, env.chain))
  }

  /** What of an Env decides how many bytes are emitted. */
  datatype Shape = Shape(brk: Option<nat>, cont: Option<nat>, chain: Chain)

  function LeapShape(l: Leap): Option<nat> {
    if l.NoLeap? then None else Some(|l.slots|)
  }

  function ShapeOf(env: Env): Shape {
    Shape(LeapShape(env.brk), LeapShape(env.cont), env.chain)
  }

  function Longer(n: nat, l: Option<nat>): Option<nat> {
    if l.None? then None else Some(n + l.value)
  }

  function InnerShape(sh: Shape, slots: seq<u32>): Shape {
    Shape(Longer(|slots|, sh.brk), Longer(|slots|, sh.cont), InBlock(slots, sh.chain))
  }

  const LOOP_SHAPE := Shape(Some(0), Some(0), Detached)
  const SWITCH_SHAPE := Shape(Some(0), None, Detached)

  function FinallyShape(chain: Chain): Shape {
    Shape(None, None, chain)
  }

  function TryShape(sh: Shape, fin: Option<Stmts>): Shape {
    if fin.None? then sh else sh.(chain := InTry(fin.value, sh.chain))
  }

  /** With a finally block, a throw inside a clause first goes through it. */
  function ClauseEnv(inner: Env, fin: Option<Stmts>, unhandled: u32): Env {
    if fin.Some? then inner.(cleanup := unhandled) else inner
  }

  function ReturnConv(c: Chain): Conv {
    match c
    case Detached => Keep
    case FunctionEnd(_, conv) => conv
    case InBlock(_, o) => ReturnConv(o)
    case InTry(_, o) => ReturnConv(o)
  }

  // ------------------------------------------------------------- modelled scope

  /** Break and continue stay inside a loop or switch, and inside a finally block. */
  predicate LeapsIn(s: Stmt, brk: bool, cont: bool)
    decreases s, 0
  {
    match s
    case Block(body) => LeapsInSeq(body, brk, cont)
    case If(_, t) => LeapsIn(t, brk, cont)
    case IfElse(_, t, f) => LeapsIn(t, brk, cont) && LeapsIn(f, brk, cont)
    case While(_, b) => LeapsIn(b, true, true)
    case DoWhile(b, _) => LeapsIn(b, true, true)
    case For(a, _, _, b) => (a.Skip? || a.VarDecl? || a.ExprStmt?) && LeapsIn(b, true, true)
    case Switch(_, cases) => LeapsInCases(cases)
    case Break => brk
    case Continue => cont
    case Try(body, clauses, fin) =>
      LeapsInSeq(body, brk, cont) && LeapsInClauses(clauses, brk, cont) && LeapsInFinally(fin)
    case _ => true
  }

  predicate LeapsInFinally(fin: Option<Stmts>)
    decreases fin, 1
  {
    fin.Some? ==> LeapsInSeq(fin.value, false, false)
  }

  predicate LeapsInSeq(ss: Stmts, brk: bool, cont: bool)
    decreases ss, 0
  {
    match ss
    case Nil => true
    case Cons(s, rest) => LeapsIn(s, brk, cont) && LeapsInSeq(rest, brk, cont)
  }

  predicate LeapsInCases(cases: Cases)
    decreases cases, 0
  {
    match cases
    case NoCase => true
    case Default(body) => LeapsInSeq(body, true, false)
    case Case(_, body, rest) => LeapsInSeq(body, true, false) && LeapsInCases(rest)
  }

  predicate LeapsInClauses(clauses: Clauses, brk: bool, cont: bool)
    decreases clauses, 0
  {
    match clauses
    case NoClause => true
    case Clause(_, _, body, rest) => LeapsInSeq(body, brk, cont) && LeapsInClauses(rest, brk, cont)
  }

  /** The finally blocks that a return inlines let no leap out either. */
  predicate LeapsInChain(c: Chain) {
    match c
    case InBlock(_, o) => LeapsInChain(o)
    case InTry(fin, o) => LeapsInSeq(fin, false, false) && LeapsInChain(o)
    case _ => true
  }

  predicate LeapsFit(s: Stmt, env: Env) {
    LeapsIn(s, env.brk.Leap?, env.cont.Leap?) && LeapsInChain(env.chain)
  }

  predicate SeqLeapsFit(ss: Stmts, env: Env) {
    LeapsInSeq(ss, env.brk.Leap?, env.cont.Leap?) && LeapsInChain(env.chain)
  }

  predicate WfFunction(f: Function) {
    f.params <= f.frameSize && LeapsInSeq(f.body, false, false)
  }

  predicate WfProgram(prog: Program) {
    forall i :: 0 <= i < |prog| ==> WfFunction(prog[i])
  }

  // -------------------------------------------------------------------- weights

  function Weight(s: Stmt): (n: nat)
    ensures n >= 1
  {
    match s
    case Block(body) => 1 + BlockWeight(body)
    case If(_, t) => 1 + Weight(t)
    case IfElse(_, t, f) => 1 + Weight(t) + Weight(f)
    case While(_, b) => 2 + Weight(b)
    case DoWhile(b, _) => 2 + Weight(b)
    case For(a, _, _, b) => 2 + Weight(a) + Weight(b)
    case Switch(_, cases) => 2 + CasesWeight(cases)
    case Try(body, clauses, fin) =>
      2 + BlockWeight(body) + ClausesWeight(clauses) + (if fin.Some? then BlockWeight(fin.value) else 0)
    case _ => 1
  }

  function TryWeight(body: Stmts, clauses: Clauses, fin: Option<Stmts>): nat {
    1 + BlockWeight(body) + ClausesWeight(clauses) + (if fin.Some? then BlockWeight(fin.value) else 0)
  }

  function BlockWeight(body: Stmts): nat
    decreases body, 1
  {
    2 + SeqWeight(body)
  }

  function SeqWeight(ss: Stmts): nat
    decreases ss, 0
  {
    match ss
    case Nil => 1
    case Cons(s, rest) => 1 + Weight(s) + SeqWeight(rest)
  }

  function CasesWeight(cases: Cases): nat {
    match cases
    case NoCase => 1
    case Default(body) => 1 + SeqWeight(body)
    case Case(_, body, rest) => 1 + SeqWeight(body) + CasesWeight(rest)
  }

  function ClausesWeight(clauses: Clauses): (n: nat)
    ensures n >= 1
  {
    match clauses
    case NoClause => 1
    case Clause(_, _, body, rest) => 1 + BlockWeight(body) + ClausesWeight(rest)
  }

  function ChainWeight(c: Chain): nat {
    match c
    case InBlock(_, o) => 1 + ChainWeight(o)
    case InTry(fin, o) => 1 + BlockWeight(fin) + ChainWeight(o)
    case _ => 0
  }

  // ---------------------------------------------------------------------- sizes

  const CALL_SIZE := 20   // two constants, the cleanup registration, the call
  const JUMP_SIZE := 5
  const RELEASE_SIZE := 13

  /** emit_conv_for_type: nothing for 64-bit integers. */
  function ConvSize(c: Conv): nat {
    if c == Keep then 0 else 1
  }

  function FlagSize(b: bool): nat {
    if b then 1 else 0
  }

  function SizeExpr(e: Expr): nat
    decreases e, 1
  {
    match e
    case IntLit(_) => 9
    case BoolLit(_) => 1
    case Null => 1
    case Local(_) => 5
    case Arith(_, l, r) => SizeExpr(l) + SizeExpr(r) + 1
    case And(l, r) => SizeExpr(l) + 7 + SizeExpr(r)
    case Or(l, r) => SizeExpr(l) + 7 + SizeExpr(r)
    case Not(x) => SizeExpr(x) + 1
    case Negate(conv, x) => SizeExpr(x) + 1 + ConvSize(conv)
    case Ternary(_, _, _, _) => SizeTernary(e)
    case Assign(_, conv, x) => SizeExpr(x) + 1 + ConvSize(conv) + 5
    case AssignRef(_, x) => SizeExpr(x) + FlagSize(!ProducesRetained(x)) + 2 + RELEASE_SIZE + 5
    case AssignOp(_, _, conv, x) => 5 + SizeExpr(x) + 2 + ConvSize(conv) + 5
    case IncDec(_, _, _) => 12
    case Invoke(_, args) => SizeArgs(args) + CALL_SIZE
    case New(_, _, _, args) => 14 + SizeArgs(args) + CALL_SIZE + 1
  }

  function SizeTernary(e: Expr): nat
    requires e.Ternary?
    decreases e, 0
  {
    SizeExpr(e.cond) + 5 + SizeExpr(e.yes) + FlagSize(e.isRef && RetainsFirst(e.yes, e.no)) + 5 +
    SizeExpr(e.no) + FlagSize(e.isRef && RetainsFirst(e.no, e.yes))
  }

  function SizeArgs(args: Args): nat {
    match args
    case NoArgs => 0
    case Arg(e, isRef, rest) => SizeExpr(e) + FlagSize(isRef && !ProducesRetained(e)) + SizeArgs(rest)
  }

  function SizeOpt(e: Option<Expr>, extra: nat): nat {
    if e.Some? then SizeExpr(e.value) + extra else 0
  }

  function SizeReleases(slots: seq<u32>): nat {
    RELEASE_SIZE * |slots|
  }

  function SizeLeap(l: Option<nat>): nat {
    (if l.None? then 0 else RELEASE_SIZE * l.value) + JUMP_SIZE
  }

  function SizeStmt(s: Stmt, sh: Shape): nat
    decreases Weight(s) + ChainWeight(sh.chain)
  {
    match s
    case Skip => 0
    case Block(body) => SizeBlock(body, sh)
    case VarDecl(_, _, _, _) => SizeDecl(s)
    case ExprStmt(e, _) => SizeExpr(e) + 1
    case If(_, _) => SizeIf(s, sh)
    case IfElse(_, _, _) => SizeIfElse(s, sh)
    case While(cond, b) => SizeExpr(cond) + 5 + SizeStmt(b, LOOP_SHAPE) + 5
    case DoWhile(b, cond) => SizeStmt(b, LOOP_SHAPE) + SizeExpr(cond) + 5
    case For(a, g, i, b) => SizeStmt(a, sh) + SizeOpt(g, 5) + SizeStmt(b, LOOP_SHAPE) + SizeOpt(i, 1) + 5
    case Switch(e, cases) => SizeExpr(e) + SizeDispatch(cases) + SizeCases(cases) + 1
    case Break => SizeLeap(sh.brk)
    case Continue => SizeLeap(sh.cont)
    case Return(e, isRef) => SizeResult(e, isRef, ReturnConv(sh.chain)) + SizeChain(sh.chain)
    case Throw(e) => SizeExpr(e) + 5
    case Try(body, clauses, fin) =>
      SizeBlock(body, TryShape(sh, fin)) + 5 + SizeClauses(clauses, TryShape(sh, fin)) +
      SizeFinally(fin, sh.chain) + 5 + SizeFinally(fin, sh.chain)
  }

  function SizeDecl(s: Stmt): nat
    requires s.VarDecl?
  {
    if s.init.None? then 0
    else SizeExpr(s.init.value) + ConvSize(s.conv) + FlagSize(s.isRef && !ProducesRetained(s.init.value)) + 5
  }

  function SizeIf(s: Stmt, sh: Shape): nat
    requires s.If?
    decreases Weight(s) + ChainWeight(sh.chain), 0
  {
    SizeExpr(s.cond) + 5 + SizeStmt(s.thn, sh)
  }

  function SizeIfElse(s: Stmt, sh: Shape): nat
    requires s.IfElse?
    decreases Weight(s) + ChainWeight(sh.chain), 0
  {
    SizeExpr(s.cond) + 5 + SizeStmt(s.thn, sh) + 5 + SizeStmt(s.els, sh)
  }

  function SizeResult(e: Option<Expr>, isRef: bool, conv: Conv): nat {
    if e.None? then 1
    else SizeExpr(e.value) + ConvSize(conv) + FlagSize(isRef && !ProducesRetained(e.value))
  }

  function SizeFinally(fin: Option<Stmts>, c: Chain): nat
    decreases (if fin.Some? then BlockWeight(fin.value) else 0) + ChainWeight(c) + 1
  {
    if fin.None? then 0 else SizeBlock(fin.value, FinallyShape(c))
  }

  /** Body, cleanup, jump over the exception segment; that segment: cleanup, jump out. */
  function SizeBlock(body: Stmts, sh: Shape): nat
    decreases BlockWeight(body) + ChainWeight(sh.chain)
  {
    SizeSeq(body, InnerShape(sh, RefSlots(body))) +
    SizeReleases(RefSlots(body)) + 5 + SizeReleases(RefSlots(body)) + 5
  }

  function SizeSeq(ss: Stmts, sh: Shape): nat
    decreases SeqWeight(ss) + ChainWeight(sh.chain)
  {
    match ss
    case Nil => 0
    case Cons(s, rest) => SizeStmt(s, sh) + SizeSeq(rest, sh)
  }

  /** The comparison ladder of a switch, ending in the jump to the default or past the end. */
  function SizeDispatch(cases: Cases): nat {
    match cases
    case NoCase => 5
    case Default(_) => 5
    case Case(value, _, rest) => 1 + SizeExpr(value) + 6 + SizeDispatch(rest)
  }

  function SizeCases(cases: Cases): nat
    decreases CasesWeight(cases)
  {
    match cases
    case NoCase => 0
    case Default(body) => SizeSeq(body, SWITCH_SHAPE)
    case Case(_, body, rest) => SizeSeq(body, SWITCH_SHAPE) + SizeCases(rest)
  }

  function SizeClauses(clauses: Clauses, sh: Shape): nat
    decreases ClausesWeight(clauses) + ChainWeight(sh.chain)
  {
    match clauses
    case NoClause => 0
    case Clause(_, _, body, rest) => SizeClause(body, sh) + SizeClauses(rest, sh)
  }

  function SizeClause(body: Stmts, sh: Shape): nat
    decreases BlockWeight(body) + ChainWeight(sh.chain) + 1
  {
    18 + SizeBlock(body, sh) + 11
  }

  /** What follows the result of a return: cleanups and finally blocks up the chain. */
  function SizeChain(c: Chain): nat
    decreases ChainWeight(c)
  {
    match c
    case Detached => 1
    case FunctionEnd(refs, _) => SizeReleases(refs) + 1
    case InBlock(slots, o) => SizeReleases(slots) + SizeChain(o)
    case InTry(fin, o) => SizeBlock(fin, FinallyShape(o)) + SizeChain(o)
  }

  function BodyChain(f: Function): Chain {
    if f.linked then FunctionEnd(f.refs, f.conv) else Detached
  }

  function BodyShape(f: Function): Shape {
    InnerShape(Shape(None, None, BodyChain(f)), RefSlots(f.body))
  }

  /** The body block, whose exception segment also releases the parameters and
      leaves the frame. */
  function SizeBody(f: Function): nat {
    var r := SizeReleases(RefSlots(f.body));
    SizeSeq(f.body, BodyShape(f)) + r + 5 + r + SizeReleases(f.refs) + 1
  }

  /** Frame allocation, the body block, the implicit return. */
  function SizeFunction(f: Function): nat {
    5 + SizeBody(f) + 1 + SizeReleases(f.refs) + 1
  }

  // -------------------------------------------------------------------- layouts

  /** The instructions of a buffer, keyed by the address of their first byte. */
  type Listing = map<nat, Instr>

  predicate InstrAt(at: Listing, p: nat, i: Instr) {
    p in at && at[p] == i
  }

  /** The buffer holds every listed instruction.  (Looking at an address is what
      brings its bytes into a proof.) */
  ghost predicate Lists(code: seq<u8>, at: Listing) {
    forall p: nat {:trigger LookAt(p)} :: LookAt(p) && p in at ==> Placed(code, p, Encode(at[p]))
  }

  ghost predicate LookAt(p: nat) {
    true
  }

  predicate ConvAt(at: Listing, p: nat, c: Conv) {
    c == Keep || InstrAt(at, p, Convert(c))
  }

  predicate IncRefAt(at: Listing, p: nat, emitted: bool) {
    emitted ==> InstrAt(at, p, IncRef)
  }

  predicate ReleasesAt(at: Listing, p: nat, slots: seq<u32>)
    decreases |slots|
  {
    slots == [] ||
    (InstrAt(at, p, DecRefSlot(slots[0], SlotMask(slots[0]))) && ReleasesAt(at, p + RELEASE_SIZE, slots[1..]))
  }

  /** The address the linker writes for a call of fn; a function that is nowhere
      compiled leaves its hole open (and the linker fails). */
  function EntryOf(fns: seq<u32>, fn: nat): u32 {
    if fn < |fns| then fns[fn] else HOLE
  }

  /** The two constants, the registration of the enclosing cleanup, and the call. */
  predicate CallAt(at: Listing, p: nat, fn: nat, argc: nat, env: Env) {
    InstrAt(at, p, PushI32(EntryOf(env.fns, fn))) &&
    InstrAt(at, p + 5, PushI32(Addr(argc))) &&
    InstrAt(at, p + 10, RegisterReturnCleanup(Addr(p + CALL_SIZE), env.cleanup)) &&
    InstrAt(at, p + 19, Call)
  }

  predicate ExprAt(at: Listing, p: nat, e: Expr, env: Env)
    decreases e, 1
  {
    match e
    case IntLit(v) => InstrAt(at, p, PushI64(v))
    case BoolLit(b) => InstrAt(at, p, if b then PushTrue else PushFalse)
    case Null => InstrAt(at, p, PushNull)
    case Local(slot) => InstrAt(at, p, GetLocal(slot))
    case Arith(_, _, _) => ArithAt(at, p, e, env)
    case And(_, _) => ShortCircuitAt(at, p, e, env)
    case Or(_, _) => ShortCircuitAt(at, p, e, env)
    case Not(x) => ExprAt(at, p, x, env) && InstrAt(at, p + SizeExpr(x), LogicalNot)
    case Negate(conv, x) =>
      ExprAt(at, p, x, env) && InstrAt(at, p + SizeExpr(x), NegateI64) && ConvAt(at, p + SizeExpr(x) + 1, conv)
    case Ternary(_, _, _, _) => TernaryAt(at, p, e, env)
    case Assign(slot, conv, x) =>
      var q := p + SizeExpr(x);
      ExprAt(at, p, x, env) && InstrAt(at, q, Dup) && ConvAt(at, q + 1, conv) &&
      InstrAt(at, q + 1 + ConvSize(conv), SetLocal(slot))
    case AssignRef(_, _) => AssignRefAt(at, p, e, env)
    case AssignOp(_, _, _, _) => AssignOpAt(at, p, e, env)
    case IncDec(slot, up, prefix) => IncDecAt(at, p, slot, up, prefix)
    case Invoke(fn, args) =>
      ArgsAt(at, p, args, env) && CallAt(at, p + SizeArgs(args), fn, ArgCount(args), env)
    case New(_, _, _, _) => NewAt(at, p, e, env)
  }

  predicate ArithAt(at: Listing, p: nat, e: Expr, env: Env)
    requires e.Arith?
    decreases e, 0
  {
    var q := p + SizeExpr(e.left);
    ExprAt(at, p, e.left, env) && ExprAt(at, q, e.right, env) && InstrAt(at, q + SizeExpr(e.right), Binary(e.op))
  }

  predicate ShortCircuitAt(at: Listing, p: nat, e: Expr, env: Env)
    requires e.And? || e.Or?
    decreases e, 0
  {
    var q := p + SizeExpr(e.left);
    var end := Addr(q + 7 + SizeExpr(e.right));
    ExprAt(at, p, e.left, env) && InstrAt(at, q, Dup) &&
    InstrAt(at, q + 1, if e.And? then JumpIfFalse(end) else JumpIfTrue(end)) &&
    InstrAt(at, q + 6, Pop) && ExprAt(at, q + 7, e.right, env)
  }

  predicate TernaryAt(at: Listing, p: nat, e: Expr, env: Env)
    requires e.Ternary?
    decreases e, 0
  {
    var keepYes, keepNo := e.isRef && RetainsFirst(e.yes, e.no), e.isRef && RetainsFirst(e.no, e.yes);
    var q := p + SizeExpr(e.cond);
    var q1 := q + 5 + SizeExpr(e.yes);
    var q2 := q1 + FlagSize(keepYes);
    var q3 := q2 + 5 + SizeExpr(e.no);
    ExprAt(at, p, e.cond, env) && InstrAt(at, q, JumpIfFalse(Addr(q2 + 5))) &&
    ExprAt(at, q + 5, e.yes, env) && IncRefAt(at, q1, keepYes) &&
    InstrAt(at, q2, Jump(Addr(q3 + FlagSize(keepNo)))) &&
    ExprAt(at, q2 + 5, e.no, env) && IncRefAt(at, q3, keepNo)
  }

  predicate AssignRefAt(at: Listing, p: nat, e: Expr, env: Env)
    requires e.AssignRef?
    decreases e, 0
  {
    var q := p + SizeExpr(e.rhs);
    ExprAt(at, p, e.rhs, env) && StoreRefAt(at, q, e.slot, !ProducesRetained(e.rhs))
  }

  predicate StoreRefAt(at: Listing, q: nat, slot: u32, retain: bool) {
    var q1 := q + FlagSize(retain);
    IncRefAt(at, q, retain) && InstrAt(at, q1, IncRef) &&
    InstrAt(at, q1 + 1, Dup) && InstrAt(at, q1 + 2, DecRefSlot(slot, SlotMask(slot))) &&
    InstrAt(at, q1 + 2 + RELEASE_SIZE, SetLocal(slot))
  }

  predicate AssignOpAt(at: Listing, p: nat, e: Expr, env: Env)
    requires e.AssignOp?
    decreases e, 0
  {
    var q := p + 5 + SizeExpr(e.rhs);
    InstrAt(at, p, GetLocal(e.slot)) && ExprAt(at, p + 5, e.rhs, env) && InstrAt(at, q, Binary(e.op)) &&
    InstrAt(at, q + 1, Dup) && ConvAt(at, q + 2, e.conv) &&
    InstrAt(at, q + 2 + ConvSize(e.conv), SetLocal(e.slot))
  }

  predicate IncDecAt(at: Listing, p: nat, slot: u32, up: bool, prefix: bool) {
    var change := if up then Increment else Decrement;
    InstrAt(at, p, GetLocal(slot)) &&
    InstrAt(at, p + 5, if prefix then change else Dup) &&
    InstrAt(at, p + 6, if prefix then Dup else change) &&
    InstrAt(at, p + 7, SetLocal(slot))
  }

  predicate NewAt(at: Listing, p: nat, e: Expr, env: Env)
    requires e.New?
    decreases e, 0
  {
    var q := p + 14 + SizeArgs(e.args);
    InstrAt(at, p, PushI32(e.size)) && InstrAt(at, p + 5, AllocDynamic(1)) &&
    InstrAt(at, p + 7, SetVtable(e.classId)) &&
    InstrAt(at, p + 12, Dup) && InstrAt(at, p + 13, IncRef) &&
    ArgsAt(at, p + 14, e.args, env) && CallAt(at, q, e.ctor, ArgCount(e.args) + 1, env) &&
    InstrAt(at, q + CALL_SIZE, Pop)
  }

  predicate ArgsAt(at: Listing, p: nat, args: Args, env: Env)
    decreases args
  {
    match args
    case NoArgs => true
    case Arg(e, isRef, rest) =>
      var q := p + SizeExpr(e);
      var retain := isRef && !ProducesRetained(e);
      ExprAt(at, p, e, env) && IncRefAt(at, q, retain) && ArgsAt(at, q + FlagSize(retain), rest, env)
  }

  predicate LeapAt(at: Listing, p: nat, leap: Leap) {
    leap.Leap? && ReleasesAt(at, p, leap.slots) && InstrAt(at, p + SizeReleases(leap.slots), Jump(leap.target))
  }

  predicate StmtAt(at: Listing, p: nat, s: Stmt, env: Env)
    decreases Weight(s) + ChainWeight(env.chain)
  {
    match s
    case Skip => true
    case Block(body) => BlockAt(at, p, body, env, env.cleanup)
    case VarDecl(_, _, _, _) => DeclAt(at, p, s, env)
    case ExprStmt(e, isRef) =>
      ExprAt(at, p, e, env) && InstrAt(at, p + SizeExpr(e), if isRef then DecRef else Pop)
    case If(_, _) => IfAt(at, p, s, env)
    case IfElse(_, _, _) => IfElseAt(at, p, s, env)
    case While(cond, b) => LoopAt(at, p, Some(cond), None, b, env, Addr(p))
    case DoWhile(b, cond) => DoAt(at, p, b, cond, env)
    case For(a, g, i, b) =>
      var top := p + SizeStmt(a, ShapeOf(env));
      StmtAt(at, p, a, env) &&
      LoopAt(at, top, g, i, b, env, Addr(top + SizeOpt(g, 5) + SizeStmt(b, LOOP_SHAPE)))
    case Switch(e, cases) => SwitchAt(at, p, e, cases, env)
    case Break => LeapAt(at, p, env.brk)
    case Continue => LeapAt(at, p, env.cont)
    case Return(e, isRef) =>
      ResultAt(at, p, e, isRef, env) &&
      ChainAt(at, p + SizeResult(e, isRef, ReturnConv(env.chain)), env.chain, env.cleanup, env.fns)
    case Throw(e) => ExprAt(at, p, e, env) && InstrAt(at, p + SizeExpr(e), ThrowException(env.cleanup))
    case Try(body, clauses, fin) => TryAt(at, p, body, clauses, fin, env)
  }

  predicate DeclAt(at: Listing, p: nat, s: Stmt, env: Env)
    requires s.VarDecl?
  {
    s.init.None? ||
    var retain := s.isRef && !ProducesRetained(s.init.value);
    var q := p + SizeExpr(s.init.value);
    ExprAt(at, p, s.init.value, env) && ConvAt(at, q, s.conv) && IncRefAt(at, q + ConvSize(s.conv), retain) &&
    InstrAt(at, q + ConvSize(s.conv) + FlagSize(retain), SetLocal(s.slot))
  }

  predicate IfAt(at: Listing, p: nat, s: Stmt, env: Env)
    requires s.If?
    decreases Weight(s) + ChainWeight(env.chain), 0
  {
    var q := p + SizeExpr(s.cond);
    ExprAt(at, p, s.cond, env) && InstrAt(at, q, JumpIfFalse(Addr(q + 5 + SizeStmt(s.thn, ShapeOf(env))))) &&
    StmtAt(at, q + 5, s.thn, env)
  }

  predicate IfElseAt(at: Listing, p: nat, s: Stmt, env: Env)
    requires s.IfElse?
    decreases Weight(s) + ChainWeight(env.chain), 0
  {
    var q := p + SizeExpr(s.cond);
    var skip := q + 5 + SizeStmt(s.thn, ShapeOf(env));
    ExprAt(at, p, s.cond, env) && InstrAt(at, q, JumpIfFalse(Addr(skip + 5))) &&
    StmtAt(at, q + 5, s.thn, env) && InstrAt(at, skip, Jump(Addr(skip + 5 + SizeStmt(s.els, ShapeOf(env))))) &&
    StmtAt(at, skip + 5, s.els, env)
  }

  /** A loop tested at its top; `next` is where continue goes. */
  predicate LoopAt(at: Listing, top: nat, g: Option<Expr>, i: Option<Expr>, b: Stmt, env: Env, next: u32)
    decreases Weight(b) + 1
  {
    var q := top + SizeOpt(g, 5);
    var after := q + SizeStmt(b, LOOP_SHAPE);
    var back := after + SizeOpt(i, 1);
    (g.Some? ==> ExprAt(at, top, g.value, env) && InstrAt(at, top + SizeExpr(g.value), JumpIfFalse(Addr(back + 5)))) &&
    StmtAt(at, q, b, LoopEnv(env, Addr(back + 5), next)) &&
    (i.Some? ==> ExprAt(at, after, i.value, env) && InstrAt(at, after + SizeExpr(i.value), Pop)) &&
    InstrAt(at, back, Jump(Addr(top)))
  }

  /** A loop tested at its bottom; continue goes to the test. */
  predicate DoAt(at: Listing, p: nat, b: Stmt, cond: Expr, env: Env)
    decreases Weight(b) + 1
  {
    var q := p + SizeStmt(b, LOOP_SHAPE);
    var back := q + SizeExpr(cond);
    StmtAt(at, p, b, LoopEnv(env, Addr(back + 5), Addr(q))) &&
    ExprAt(at, q, cond, env) && InstrAt(at, back, JumpIfTrue(Addr(p)))
  }

  /** The subject, the comparison ladder, the bodies, and the POP of the subject. */
  predicate SwitchAt(at: Listing, p: nat, e: Expr, cases: Cases, env: Env)
    decreases CasesWeight(cases) + 1
  {
    var q := p + SizeExpr(e);
    var bodies := q + SizeDispatch(cases);
    var end := bodies + SizeCases(cases);
    ExprAt(at, p, e, env) && DispatchAt(at, q, cases, bodies, env) &&
    CasesAt(at, bodies, cases, SwitchEnv(env, Addr(end))) && InstrAt(at, end, Pop)
  }

  predicate TryAt(at: Listing, p: nat, body: Stmts, clauses: Clauses, fin: Option<Stmts>, env: Env)
    decreases TryWeight(body, clauses, fin) + ChainWeight(env.chain)
  {
    var inner := TryEnv(env, fin);
    var skip := p + SizeBlock(body, ShapeOf(inner));
    var unhandled := skip + 5 + SizeClauses(clauses, ShapeOf(inner));
    var out := unhandled + SizeFinally(fin, env.chain);
    BlockAt(at, p, body, inner, Addr(skip + 5)) && InstrAt(at, skip, Jump(Addr(out + 5))) &&
    ClausesAt(at, skip + 5, clauses, ClauseEnv(inner, fin, Addr(unhandled)), Addr(out + 5)) &&
    FinallyAt(at, unhandled, fin, env) && InstrAt(at, out, Jump(env.cleanup)) &&
    FinallyAt(at, out + 5, fin, env)
  }

  predicate ResultAt(at: Listing, p: nat, e: Option<Expr>, isRef: bool, env: Env) {
    if e.None? then InstrAt(at, p, PushNull) else
    var q := p + SizeExpr(e.value);
    var conv := ReturnConv(env.chain);
    ExprAt(at, p, e.value, env) && ConvAt(at, q, conv) &&
    IncRefAt(at, q + ConvSize(conv), isRef && !ProducesRetained(e.value))
  }

  predicate FinallyAt(at: Listing, p: nat, fin: Option<Stmts>, env: Env)
    decreases (if fin.Some? then BlockWeight(fin.value) else 0) + ChainWeight(env.chain) + 1
  {
    fin.None? || BlockAt(at, p, fin.value, FinallyEnv(env, env.chain), env.cleanup)
  }

  /** exit: where the block's exception segment goes next. */
  predicate BlockAt(at: Listing, p: nat, body: Stmts, env: Env, exit: u32)
    decreases BlockWeight(body) + ChainWeight(env.chain)
  {
    var slots := RefSlots(body);
    var q := p + SizeSeq(body, InnerShape(ShapeOf(env), slots));
    var skip := q + SizeReleases(slots);
    var out := skip + 5 + SizeReleases(slots);
    SeqAt(at, p, body, InnerEnv(env, slots, Addr(skip + 5))) &&
    ReleasesAt(at, q, slots) && InstrAt(at, skip, Jump(Addr(out + 5))) &&
    ReleasesAt(at, skip + 5, slots) && InstrAt(at, out, Jump(exit))
  }

  predicate SeqAt(at: Listing, p: nat, ss: Stmts, env: Env)
    decreases SeqWeight(ss) + ChainWeight(env.chain)
  {
    match ss
    case Nil => true
    case Cons(s, rest) => StmtAt(at, p, s, env) && SeqAt(at, p + SizeStmt(s, ShapeOf(env)), rest, env)
  }

  /** body: where the bodies of these cases start. */
  predicate DispatchAt(at: Listing, p: nat, cases: Cases, body: nat, env: Env)
    decreases cases
  {
    match cases
    case NoCase => InstrAt(at, p, Jump(Addr(body)))
    case Default(_) => InstrAt(at, p, Jump(Addr(body)))
    case Case(value, ss, rest) =>
      var q := p + 1 + SizeExpr(value);
      InstrAt(at, p, Dup) && ExprAt(at, p + 1, value, env) && InstrAt(at, q, Binary(Eq)) &&
      InstrAt(at, q + 1, JumpIfTrue(Addr(body))) &&
      DispatchAt(at, q + 6, rest, body + SizeSeq(ss, SWITCH_SHAPE), env)
  }

  predicate CasesAt(at: Listing, p: nat, cases: Cases, env: Env)
    decreases CasesWeight(cases) + ChainWeight(env.chain)
  {
    match cases
    case NoCase => true
    case Default(body) => SeqAt(at, p, body, env)
    case Case(_, body, rest) => SeqAt(at, p, body, env) && CasesAt(at, p + SizeSeq(body, SWITCH_SHAPE), rest, env)
  }

  predicate ClausesAt(at: Listing, p: nat, clauses: Clauses, env: Env, end: u32)
    decreases ClausesWeight(clauses) + ChainWeight(env.chain)
  {
    match clauses
    case NoClause => true
    case Clause(classId, slot, body, rest) =>
      var done := p + 18 + SizeBlock(body, ShapeOf(env));
      ClauseAt(at, p, done, classId, slot, body, env, end) &&
      ClausesAt(at, done + 11, rest, env, end)
  }

  /** One clause: the type test, taking the exception over, the body, the release. */
  predicate ClauseAt(at: Listing, p: nat, done: nat, classId: u32, slot: u32, body: Stmts, env: Env, end: u32)
    decreases BlockWeight(body) + ChainWeight(env.chain) + 1
  {
    InstrAt(at, p, GetException) && InstrAt(at, p + 1, InstanceOf(classId)) &&
    InstrAt(at, p + 6, JumpIfFalse(Addr(done + 11))) &&
    InstrAt(at, p + 11, GetException) && InstrAt(at, p + 12, SetLocal(slot)) && InstrAt(at, p + 17, ClearException) &&
    BlockAt(at, p + 18, body, env, env.cleanup) &&
    InstrAt(at, done, GetLocal(slot)) && InstrAt(at, done + 5, DecRef) && InstrAt(at, done + 6, Jump(end))
  }

  /** Finally blocks inlined at a return are emitted inside the innermost block,
      so an exception raised in one goes to that block's cleanup. */
  predicate ChainAt(at: Listing, p: nat, c: Chain, cleanup: u32, fns: seq<u32>)
    decreases ChainWeight(c)
  {
    match c
    case Detached => InstrAt(at, p, Instr.Return)
    case FunctionEnd(refs, _) => ReleasesAt(at, p, refs) && InstrAt(at, p + SizeReleases(refs), Instr.Return)
    case InBlock(slots, o) => ReleasesAt(at, p, slots) && ChainAt(at, p + SizeReleases(slots), o, cleanup, fns)
    case InTry(fin, o) =>
      BlockAt(at, p, fin, Env(NoLeap, NoLeap, cleanup, o, fns), cleanup) &&
      ChainAt(at, p + SizeBlock(fin, FinallyShape(o)), o, cleanup, fns)
  }

  function BodyEnv(f: Function, cleanup: u32, fns: seq<u32>): Env {
    InnerEnv(Env(NoLeap, NoLeap, cleanup, BodyChain(f), fns), RefSlots(f.body), cleanup)
  }

  predicate BodyAt(at: Listing, p: nat, f: Function, fns: seq<u32>) {
    var slots := RefSlots(f.body);
    var q := p + SizeSeq(f.body, BodyShape(f));
    var skip := q + SizeReleases(slots);
    var params := skip + 5 + SizeReleases(slots);
    var leave := params + SizeReleases(f.refs);
    SeqAt(at, p, f.body, BodyEnv(f, Addr(skip + 5), fns)) &&
    ReleasesAt(at, q, slots) && InstrAt(at, skip, Jump(Addr(leave + 1))) &&
    ReleasesAt(at, skip + 5, slots) && ReleasesAt(at, params, f.refs) &&
    InstrAt(at, leave, JmpToOuterCleanup)
  }

  predicate FunctionAt(at: Listing, p: nat, f: Function, fns: seq<u32>) {
    var end := p + 5 + SizeBody(f);
    InstrAt(at, p, AllocFrame(f.frameSize)) && BodyAt(at, p + 5, f, fns) &&
    InstrAt(at, end, PushNull) && ReleasesAt(at, end + 1, f.refs) &&
    InstrAt(at, end + 1 + SizeReleases(f.refs), Instr.Return)
  }
}
