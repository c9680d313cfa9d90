/** The emitter that knows every label in advance: the instructions for each
    construct placed at p, every operand final.  What it emits is what the
    layout predicates describe. */
module OnePass {
  import opened Options
  import opened Words
  import opened Instructions
  import opened Syntax
  import opened VirtualMachine
  import opened CodeLayout

  type Code = seq<Instr>

  function ConvCode(c: Conv): Code {
    if c == Keep then [] else [Convert(c)]
  }

  function IncRefCode(emitted: bool): Code {
    if emitted then [IncRef] else []
  }

  function ReleasesCode(slots: seq<u32>): Code {
    if slots == [] then [] else [DecRefSlot(slots[0], SlotMask(slots[0]))] + ReleasesCode(slots[1..])
  }

  function CallCode(p: nat, fn: nat, argc: nat, env: Env): Code {
    [PushI32(EntryOf(env.fns, fn)), PushI32(Addr(argc)), RegisterReturnCleanup(Addr(p + CALL_SIZE), env.cleanup), Instr.Call]
  }

  function ExprCode(p: nat, e: Expr, env: Env): Code
    decreases e, 1
  {
    match e
    case IntLit(v) => [PushI64(v)]
    case BoolLit(b) => [if b then PushTrue else PushFalse]
    case Null => [PushNull]
    case Local(slot) => [GetLocal(slot)]
    case Arith(op, l, r) => ExprCode(p, l, env) + ExprCode(p + SizeExpr(l), r, env) + [Binary(op)]
    case And(_, _) => ShortCircuitCode(p, e, env)
    case Or(_, _) => ShortCircuitCode(p, e, env)
    case Not(x) => ExprCode(p, x, env) + [LogicalNot]
    case Negate(conv, x) => ExprCode(p, x, env) + [NegateI64] + ConvCode(conv)
    case Ternary(_, _, _, _) => TernaryCode(p, e, env)
    case Assign(slot, conv, x) => ExprCode(p, x, env) + [Dup] + ConvCode(conv) + [SetLocal(slot)]
    case AssignRef(slot, x) => ExprCode(p, x, env) + StoreRefCode(slot, !ProducesRetained(x))
    case AssignOp(op, slot, conv, x) =>
      [GetLocal(slot)] + ExprCode(p + 5, x, env) + ApplyStoreCode(op, slot, conv)
    case IncDec(slot, up, prefix) => IncDecCode(slot, up, prefix)
    case Invoke(fn, args) => ArgsCode(p, args, env) + CallCode(p + SizeArgs(args), fn, ArgCount(args), env)
    case New(id, size, ctor, args) =>
      NewHead(id, size) + ArgsCode(p + 14, args, env) + CallCode(p + 14 + SizeArgs(args), ctor, ArgCount(args) + 1, env) + [Pop]
  }

  function ApplyStoreCode(op: BinOp, slot: u32, conv: Conv): Code {
    [Binary(op), Dup] + ConvCode(conv) + [SetLocal(slot)]
  }

  function NewHead(id: u32, size: u32): Code {
    [PushI32(size), AllocDynamic(1), SetVtable(id), Dup, IncRef]
  }

  function StoreRefCode(slot: u32, retain: bool): Code {
    IncRefCode(retain) + [IncRef, Dup, DecRefSlot(slot, SlotMask(slot)), SetLocal(slot)]
  }

  function IncDecCode(slot: u32, up: bool, prefix: bool): Code {
    var change := if up then Increment else Decrement;
    [GetLocal(slot), if prefix then change else Dup, if prefix then Dup else change, SetLocal(slot)]
  }

  function ShortCircuitCode(p: nat, e: Expr, env: Env): Code
    requires e.And? || e.Or?
    decreases e, 0
  {
    var q := p + SizeExpr(e.left) + 7;
    var end := Addr(q + SizeExpr(e.right));
    ExprCode(p, e.left, env) + [Dup, if e.And? then JumpIfFalse(end) else JumpIfTrue(end), Pop] + ExprCode(q, e.right, env)
  }

  function TernaryCode(p: nat, e: Expr, env: Env): Code
    requires e.Ternary?
    decreases e, 0
  {
    var keepYes, keepNo := e.isRef && RetainsFirst(e.yes, e.no), e.isRef && RetainsFirst(e.no, e.yes);
    var q := p + SizeExpr(e.cond) + 5;
    var q2 := q + SizeExpr(e.yes) + FlagSize(keepYes) + 5;
    ExprCode(p, e.cond, env) + [JumpIfFalse(Addr(q2))] + KeptCode(q, e.yes, keepYes, env) +
    [Jump(Addr(q2 + SizeExpr(e.no) + FlagSize(keepNo)))] + KeptCode(q2, e.no, keepNo, env)
  }

  /** A branch and the INC_REF that may follow it. */
  function KeptCode(p: nat, e: Expr, retain: bool, env: Env): Code
    decreases e, 2
  {
    ExprCode(p, e, env) + IncRefCode(retain)
  }

  function ArgsCode(p: nat, args: Args, env: Env): Code
    decreases args, 0
  {
    match args
    case NoArgs => []
    case Arg(e, isRef, rest) =>
      var retain := isRef && !ProducesRetained(e);
      KeptCode(p, e, retain, env) + ArgsCode(p + SizeExpr(e) + FlagSize(retain), rest, env)
  }

  lemma ArgsParts(p: nat, args: Args, env: Env)
    ensures args.NoArgs? ==> ArgsCode(p, args, env) == [] && SizeArgs(args) == 0
    ensures args.Arg? ==>
              var retain := args.isRef && !ProducesRetained(args.e);
              ArgsCode(p, args, env) == KeptCode(p, args.e, retain, env) + ArgsCode(p + SizeExpr(args.e) + FlagSize(retain), args.rest, env) &&
              SizeArgs(args) == SizeExpr(args.e) + FlagSize(retain) + SizeArgs(args.rest)
  {
  }

  // ------------------------------------------------------------------- statements

  function LeapCode(leap: Leap): Code {
    if leap.NoLeap? then [] else ReleasesCode(leap.slots) + [Jump(leap.target)]
  }

  function StmtCode(p: nat, s: Stmt, env: Env): Code
    decreases Weight(s) + ChainWeight(env.chain), 1
  {
    match s
    case Skip => []
    case Block(body) => BlockCode(p, body, env, env.cleanup)
    case VarDecl(_, _, _, _) => DeclCode(p, s, env)
    case ExprStmt(e, isRef) => ExprCode(p, e, env) + [if isRef then DecRef else Pop]
    case If(_, _) => IfCode(p, s, env)
    case IfElse(_, _, _) => IfElseCode(p, s, env)
    case While(cond, b) => LoopCode(p, Some(cond), None, b, env, Addr(p))
    case DoWhile(b, cond) => DoCode(p, b, cond, env)
    case For(a, g, i, b) =>
      var top := p + SizeStmt(a, ShapeOf(env));
      StmtCode(p, a, env) + LoopCode(top, g, i, b, env, Addr(top + SizeOpt(g, 5) + SizeStmt(b, LOOP_SHAPE)))
    case Switch(e, cases) => SwitchCode(p, e, cases, env)
    case Break => LeapCode(env.brk)
    case Continue => LeapCode(env.cont)
    case Return(e, isRef) =>
      ResultCode(p, e, isRef, env) + ChainCode(p + SizeResult(e, isRef, ReturnConv(env.chain)), env.chain, env.cleanup, env.fns)
    case Throw(e) => ExprCode(p, e, env) + [ThrowException(env.cleanup)]
    case Try(_, _, _) => TryCode(p, s.body, s.clauses, s.fin, env)
  }

  function DeclCode(p: nat, s: Stmt, env: Env): Code
    requires s.VarDecl?
  {
    if s.init.None? then [] else
    ExprCode(p, s.init.value, env) + ConvCode(s.conv) + IncRefCode(s.isRef && !ProducesRetained(s.init.value)) + [SetLocal(s.slot)]
  }

  function IfCode(p: nat, s: Stmt, env: Env): Code
    requires s.If?
    decreases Weight(s) + ChainWeight(env.chain), 0
  {
    var q := p + SizeExpr(s.cond) + 5;
    ExprCode(p, s.cond, env) + [JumpIfFalse(Addr(q + SizeStmt(s.thn, ShapeOf(env))))] + StmtCode(q, s.thn, env)
  }

  function IfElseCode(p: nat, s: Stmt, env: Env): Code
    requires s.IfElse?
    decreases Weight(s) + ChainWeight(env.chain), 0
  {
    var q := p + SizeExpr(s.cond) + 5;
    var other := q + SizeStmt(s.thn, ShapeOf(env)) + 5;
    ExprCode(p, s.cond, env) + [JumpIfFalse(Addr(other))] + StmtCode(q, s.thn, env) +
    [Jump(Addr(other + SizeStmt(s.els, ShapeOf(env))))] + StmtCode(other, s.els, env)
  }

  function GuardCode(top: nat, g: Option<Expr>, end: u32, env: Env): Code {
    if g.None? then [] else ExprCode(top, g.value, env) + [JumpIfFalse(end)]
  }

  function IterCode(p: nat, i: Option<Expr>, env: Env): Code {
    if i.None? then [] else ExprCode(p, i.value, env) + [Pop]
  }

  function LoopCode(top: nat, g: Option<Expr>, i: Option<Expr>, b: Stmt, env: Env, next: u32): Code
    decreases Weight(b) + 1, 0
  {
    var q := top + SizeOpt(g, 5);
    var after := q + SizeStmt(b, LOOP_SHAPE);
    var end := Addr(after + SizeOpt(i, 1) + 5);
    GuardCode(top, g, end, env) + StmtCode(q, b, LoopEnv(env, end, next)) + IterCode(after, i, env) + [Jump(Addr(top))]
  }

  function DoCode(p: nat, b: Stmt, cond: Expr, env: Env): Code
    decreases Weight(b) + 1, 0
  {
    var q := p + SizeStmt(b, LOOP_SHAPE);
    StmtCode(p, b, LoopEnv(env, Addr(q + SizeExpr(cond) + 5), Addr(q))) + ExprCode(q, cond, env) + [JumpIfTrue(Addr(p))]
  }

  function SwitchCode(p: nat, e: Expr, cases: Cases, env: Env): Code
    decreases CasesWeight(cases) + 1, 0
  {
    var q := p + SizeExpr(e);
    var bodies := q + SizeDispatch(cases);
    ExprCode(p, e, env) + DispatchCode(q, cases, bodies, env) +
    CasesCode(bodies, cases, SwitchEnv(env, Addr(bodies + SizeCases(cases)))) + [Pop]
  }

  function DispatchCode(p: nat, cases: Cases, body: nat, env: Env): Code
    decreases cases
  {
    match cases
    case NoCase => [Jump(Addr(body))]
    case Default(_) => [Jump(Addr(body))]
    case Case(value, ss, rest) =>
      [Dup] + ExprCode(p + 1, value, env) + [Binary(Eq), JumpIfTrue(Addr(body))] +
      DispatchCode(p + 1 + SizeExpr(value) + 6, rest, body + SizeSeq(ss, SWITCH_SHAPE), env)
  }

  function CasesCode(p: nat, cases: Cases, env: Env): Code
    decreases CasesWeight(cases) + ChainWeight(env.chain), 0
  {
    match cases
    case NoCase => []
    case Default(body) => SeqCode(p, body, env)
    case Case(_, body, rest) => SeqCode(p, body, env) + CasesCode(p + SizeSeq(body, SWITCH_SHAPE), rest, env)
  }

  function SeqCode(p: nat, ss: Stmts, env: Env): Code
    decreases SeqWeight(ss) + ChainWeight(env.chain), 0
  {
    match ss
    case Nil => []
    case Cons(s, rest) => StmtCode(p, s, env) + SeqCode(p + SizeStmt(s, ShapeOf(env)), rest, env)
  }

  /** A block up to the way out of its exception segment. */
  function BlockHead(p: nat, body: Stmts, env: Env, end: u32): Code
    decreases BlockWeight(body) + ChainWeight(env.chain), 0
  {
    var slots := RefSlots(body);
    var skip := p + SizeSeq(body, InnerShape(ShapeOf(env), slots)) + SizeReleases(slots);
    SeqCode(p, body, InnerEnv(env, slots, Addr(skip + 5))) + ReleasesCode(slots) + [Jump(end)] + ReleasesCode(slots)
  }

  function BlockCode(p: nat, body: Stmts, env: Env, exit: u32): Code
    decreases BlockWeight(body) + ChainWeight(env.chain), 1
  {
    BlockHead(p, body, env, Addr(p + SizeBlock(body, ShapeOf(env)))) + [Jump(exit)]
  }

  function ResultCode(p: nat, e: Option<Expr>, isRef: bool, env: Env): Code {
    if e.None? then [PushNull] else
    ExprCode(p, e.value, env) + ConvCode(ReturnConv(env.chain)) + IncRefCode(isRef && !ProducesRetained(e.value))
  }

  function ChainCode(p: nat, c: Chain, cleanup: u32, fns: seq<u32>): Code
    decreases ChainWeight(c), 1
  {
    match c
    case Detached => [Instr.Return]
    case FunctionEnd(refs, _) => ReleasesCode(refs) + [Instr.Return]
    case InBlock(slots, o) => ReleasesCode(slots) + ChainCode(p + SizeReleases(slots), o, cleanup, fns)
    case InTry(fin, o) =>
      BlockCode(p, fin, Env(NoLeap, NoLeap, cleanup, o, fns), cleanup) +
      ChainCode(p + SizeBlock(fin, FinallyShape(o)), o, cleanup, fns)
  }

  function FinallyCode(p: nat, fin: Option<Stmts>, env: Env): Code
    decreases (if fin.Some? then BlockWeight(fin.value) else 0) + ChainWeight(env.chain) + 1, 0
  {
    if fin.None? then [] else BlockCode(p, fin.value, FinallyEnv(env, env.chain), env.cleanup)
  }

  function TryCode(p: nat, body: Stmts, clauses: Clauses, fin: Option<Stmts>, env: Env): Code
    decreases TryWeight(body, clauses, fin) + ChainWeight(env.chain), 0
  {
    var inner := TryEnv(env, fin);
    var skip := p + SizeBlock(body, ShapeOf(inner));
    var unhandled := skip + 5 + SizeClauses(clauses, ShapeOf(inner));
    var out := unhandled + SizeFinally(fin, env.chain);
    BlockCode(p, body, inner, Addr(skip + 5)) + [Jump(Addr(out + 5))] +
    ClausesCode(skip + 5, clauses, ClauseEnv(inner, fin, Addr(unhandled)), Addr(out + 5)) +
    FinallyCode(unhandled, fin, env) + [Jump(env.cleanup)] + FinallyCode(out + 5, fin, env)
  }

  function ClausesCode(p: nat, clauses: Clauses, env: Env, end: u32): Code
    decreases ClausesWeight(clauses) + ChainWeight(env.chain), 0
  {
    match clauses
    case NoClause => []
    case Clause(id, slot, body, rest) =>
      var done := p + 18 + SizeBlock(body, ShapeOf(env));
      ClauseCode(p, done, id, slot, body, env, end) + ClausesCode(done + 11, rest, env, end)
  }

  function ClauseCode(p: nat, done: nat, id: u32, slot: u32, body: Stmts, env: Env, end: u32): Code
    decreases BlockWeight(body) + ChainWeight(env.chain) + 1, 0
  {
    TestCode(id, Addr(done + 11)) + TakeCode(slot) + BlockCode(p + 18, body, env, env.cleanup) + DropCode(slot, end)
  }

  function TestCode(id: u32, no: u32): Code {
    [GetException, InstanceOf(id), JumpIfFalse(no)]
  }

  function TakeCode(slot: u32): Code {
    [GetException, SetLocal(slot), ClearException]
  }

  function DropCode(slot: u32, end: u32): Code {
    [GetLocal(slot), DecRef, Jump(end)]
  }

  /** A function's body block: its exception segment also releases the parameters,
      and leaves the frame. */
  function BodyCode(p: nat, f: Function, fns: seq<u32>): Code {
    var slots := RefSlots(f.body);
    var catch := Addr(p + SizeSeq(f.body, BodyShape(f)) + SizeReleases(slots) + 5);
    BlockHead(p, f.body, Env(NoLeap, NoLeap, catch, BodyChain(f), fns), Addr(p + SizeBody(f))) +
    ReleasesCode(f.refs) + [JmpToOuterCleanup]
  }

  function FunctionCode(p: nat, f: Function, fns: seq<u32>): Code {
    [AllocFrame(f.frameSize)] + BodyCode(p + 5, f, fns) + [PushNull] + ReleasesCode(f.refs) + [Instr.Return]
  }

  const BOOT_SIZE := 12

  /** The end of the boot sequence: the call of the entry function, and HALT. */
  function BootCode(entry: nat, argc: u32, fns: seq<u32>): Code {
    [PushI32(EntryOf(fns, entry)), PushI32(argc), Instr.Call, Halt]
  }

  /** Where the n-th function starts. */
  function StartOf(prog: Program, n: nat): nat
    requires n <= |prog|
  {
    if n == 0 then BOOT_SIZE else StartOf(prog, n - 1) + SizeFunction(prog[n - 1])
  }

  function EntryPoints(prog: Program): (fns: seq<u32>)
    ensures |fns| == |prog|
  {
    seq(|prog|, (i: nat) requires i < |prog| => Addr(StartOf(prog, i)))
  }

  /** The first n functions. */
  function FunctionsCode(prog: Program, n: nat, fns: seq<u32>): Code
    requires n <= |prog|
  {
    if n == 0 then [] else FunctionsCode(prog, n - 1, fns) + FunctionCode(StartOf(prog, n - 1), prog[n - 1], fns)
  }

  function ProgramText(prog: Program, entry: nat, argc: u32): Code {
    BootCode(entry, argc, EntryPoints(prog)) + FunctionsCode(prog, |prog|, EntryPoints(prog))
  }

  lemma {:induction false} StartsGrow(prog: Program, m: nat, n: nat)
    requires m <= n <= |prog|
    ensures StartOf(prog, m) <= StartOf(prog, n)
    decreases n
  {
    hide SizeFunction;
    if m < n { StartsGrow(prog, m, n - 1); }
  }

  // ----------------------------------------------------------- bytes and placement

  function TotalWidth(text: Code): nat {
    if text == [] then 0 else Width(text[0]) + TotalWidth(text[1..])
  }

  /** The listing shows these instructions end to end from p on. */
  predicate Lays(at: Listing, p: nat, text: Code)
    decreases |text|
  {
    text == [] || (InstrAt(at, p, text[0]) && Lays(at, p + Width(text[0]), text[1..]))
  }

  lemma {:induction false} LaysSplit(at: Listing, p: nat, a: Code, b: Code)
    ensures TotalWidth(a + b) == TotalWidth(a) + TotalWidth(b)
    ensures Lays(at, p, a + b) ==> Lays(at, p, a) && Lays(at, p + TotalWidth(a), b)
    decreases |a|
  {
    hide Width, InstrAt;
    if a == [] {
      assert a + b == b;
    } else {
      assert (a + b)[1..] == a[1..] + b;
      LaysSplit(at, p + Width(a[0]), a[1..], b);
    }
  }

  lemma {:induction false} ReleasesLaid(at: Listing, p: nat, slots: seq<u32>)
    ensures TotalWidth(ReleasesCode(slots)) == SizeReleases(slots)
    ensures Lays(at, p, ReleasesCode(slots)) ==> ReleasesAt(at, p, slots)
    decreases |slots|
  {
    hide SlotMask;
    if slots != [] {
      assert ReleasesCode(slots)[1..] == ReleasesCode(slots[1..]);
      ReleasesLaid(at, p + RELEASE_SIZE, slots[1..]);
    }
  }

  lemma LaysNone(at: Listing, p: nat)
    ensures TotalWidth([]) == 0 && Lays(at, p, [])
  {
  }

  lemma LaysOne(at: Listing, p: nat, a: Instr)
    ensures TotalWidth([a]) == Width(a)
    ensures Lays(at, p, [a]) ==> InstrAt(at, p, a)
  {
    hide Width;
    assert [a][1..] == [];
  }

  lemma LaysTwo(at: Listing, p: nat, a: Instr, b: Instr)
    ensures TotalWidth([a, b]) == Width(a) + Width(b)
    ensures Lays(at, p, [a, b]) ==> InstrAt(at, p, a) && InstrAt(at, p + Width(a), b)
  {
    hide Width;
    assert [a, b] == [a] + [b];
    LaysSplit(at, p, [a], [b]);
    LaysOne(at, p, a);
    LaysOne(at, p + Width(a), b);
  }

  lemma LaysThree(at: Listing, p: nat, a: Instr, b: Instr, c: Instr)
    ensures TotalWidth([a, b, c]) == Width(a) + Width(b) + Width(c)
    ensures Lays(at, p, [a, b, c]) ==>
            InstrAt(at, p, a) && InstrAt(at, p + Width(a), b) && InstrAt(at, p + Width(a) + Width(b), c)
  {
    hide Width;
    assert [a, b, c] == [a] + [b, c];
    LaysSplit(at, p, [a], [b, c]);
    LaysOne(at, p, a);
    LaysTwo(at, p + Width(a), b, c);
  }

  lemma LaysFour(at: Listing, p: nat, a: Instr, b: Instr, c: Instr, d: Instr)
    ensures TotalWidth([a, b, c, d]) == Width(a) + Width(b) + Width(c) + Width(d)
    ensures Lays(at, p, [a, b, c, d]) ==>
            InstrAt(at, p, a) && InstrAt(at, p + Width(a), b) && InstrAt(at, p + Width(a) + Width(b), c) &&
            InstrAt(at, p + Width(a) + Width(b) + Width(c), d)
  {
    hide Width;
    assert [a, b, c, d] == [a] + [b, c, d];
    LaysSplit(at, p, [a], [b, c, d]);
    LaysOne(at, p, a);
    LaysThree(at, p + Width(a), b, c, d);
  }

  lemma ConvLaid(at: Listing, p: nat, c: Conv)
    ensures TotalWidth(ConvCode(c)) == ConvSize(c)
    ensures Lays(at, p, ConvCode(c)) ==> ConvAt(at, p, c)
  {
    if c != Keep { LaysOne(at, p, Convert(c)); }
  }

  lemma IncRefLaid(at: Listing, p: nat, emitted: bool)
    ensures TotalWidth(IncRefCode(emitted)) == FlagSize(emitted)
    ensures Lays(at, p, IncRefCode(emitted)) ==> IncRefAt(at, p, emitted)
  {
    if emitted { LaysOne(at, p, IncRef); }
  }

  lemma CallLaid(at: Listing, p: nat, fn: nat, argc: nat, env: Env)
    ensures TotalWidth(CallCode(p, fn, argc, env)) == CALL_SIZE
    ensures Lays(at, p, CallCode(p, fn, argc, env)) ==> CallAt(at, p, fn, argc, env)
  {
    hide EntryOf, Addr;
    LaysFour(at, p, PushI32(EntryOf(env.fns, fn)), PushI32(Addr(argc)),
             RegisterReturnCleanup(Addr(p + CALL_SIZE), env.cleanup), Instr.Call);
  }

  // ----------------------------------------------------------- expressions in place

  /** What the one-pass emitter writes for an expression is that expression's layout. */
  lemma ExprLaid(at: Listing, p: nat, e: Expr, env: Env)
    ensures TotalWidth(ExprCode(p, e, env)) == SizeExpr(e)
    ensures Lays(at, p, ExprCode(p, e, env)) ==> ExprAt(at, p, e, env)
    decreases e, 2
  {
    hide Lays, TotalWidth, ExprCode, ExprAt, SizeExpr;
    if e.IntLit? || e.BoolLit? || e.Null? || e.Local? || e.IncDec? {
      LeafLaid(at, p, e, env);
    } else if e.Assign? || e.AssignRef? || e.AssignOp? || e.Invoke? || e.New? {
      EffectLaid(at, p, e, env);
    } else {
      OperatorLaid(at, p, e, env);
    }
  }

  lemma LeafLaid(at: Listing, p: nat, e: Expr, env: Env)
    requires e.IntLit? || e.BoolLit? || e.Null? || e.Local? || e.IncDec?
    ensures TotalWidth(ExprCode(p, e, env)) == SizeExpr(e)
    ensures Lays(at, p, ExprCode(p, e, env)) ==> ExprAt(at, p, e, env)
  {
    hide Lays, TotalWidth, IncDecAt, IncDecCode;
    match e
    case IntLit(v) => LaysOne(at, p, PushI64(v));
    case BoolLit(b) => LaysOne(at, p, if b then PushTrue else PushFalse);
    case Null => LaysOne(at, p, PushNull);
    case Local(slot) => LaysOne(at, p, GetLocal(slot));
    case IncDec(slot, up, prefix) => IncDecLaid(at, p, slot, up, prefix);
  }

  lemma OperatorLaid(at: Listing, p: nat, e: Expr, env: Env)
    requires e.Arith? || e.And? || e.Or? || e.Not? || e.Negate? || e.Ternary?
    ensures TotalWidth(ExprCode(p, e, env)) == SizeExpr(e)
    ensures Lays(at, p, ExprCode(p, e, env)) ==> ExprAt(at, p, e, env)
    decreases e, 1
  {
    hide Lays, TotalWidth, ArithAt, ShortCircuitAt, TernaryAt, ShortCircuitCode, TernaryCode, ConvCode, ConvAt;
    match e
    case Arith(_, _, _) => ArithLaid(at, p, e, env);
    case And(_, _) => ShortCircuitLaid(at, p, e, env);
    case Or(_, _) => ShortCircuitLaid(at, p, e, env);
    case Not(_) => NotLaid(at, p, e, env);
    case Negate(_, _) => NegateLaid(at, p, e, env);
    case Ternary(_, _, _, _) => TernaryLaid(at, p, e, env);
  }

  lemma NotLaid(at: Listing, p: nat, e: Expr, env: Env)
    requires e.Not?
    ensures TotalWidth(ExprCode(p, e.operand, env) + [LogicalNot]) == SizeExpr(e.operand) + 1
    ensures Lays(at, p, ExprCode(p, e.operand, env) + [LogicalNot]) ==> ExprAt(at, p, e.operand, env) && InstrAt(at, p + SizeExpr(e.operand), LogicalNot)
    decreases e, 0
  {
    hide Lays, TotalWidth, ExprAt, ExprCode, SizeExpr, InstrAt;
    ExprLaid(at, p, e.operand, env);
    LaysSplit(at, p, ExprCode(p, e.operand, env), [LogicalNot]);
    LaysOne(at, p + SizeExpr(e.operand), LogicalNot);
  }

  lemma EffectLaid(at: Listing, p: nat, e: Expr, env: Env)
    requires e.Assign? || e.AssignRef? || e.AssignOp? || e.Invoke? || e.New?
    ensures TotalWidth(ExprCode(p, e, env)) == SizeExpr(e)
    ensures Lays(at, p, ExprCode(p, e, env)) ==> ExprAt(at, p, e, env)
    decreases e, 1
  {
    hide Lays, TotalWidth, AssignRefAt, AssignOpAt, NewAt, ArgsAt, CallAt, ArgsCode, CallCode, StoreRefCode, ConvCode, SizeArgs, ConvAt;
    match e
    case Assign(_, _, _) => AssignLaid(at, p, e, env);
    case AssignRef(_, _) => AssignRefLaid(at, p, e, env);
    case AssignOp(_, _, _, _) => AssignOpLaid(at, p, e, env);
    case Invoke(fn, args) =>
      ArgsLaid(at, p, args, env);
      LaysSplit(at, p, ArgsCode(p, args, env), CallCode(p + SizeArgs(args), fn, ArgCount(args), env));
      CallLaid(at, p + SizeArgs(args), fn, ArgCount(args), env);
    case New(_, _, _, _) => NewLaid(at, p, e, env);
  }

  lemma ArithLaid(at: Listing, p: nat, e: Expr, env: Env)
    requires e.Arith?
    ensures var text := ExprCode(p, e.left, env) + ExprCode(p + SizeExpr(e.left), e.right, env) + [Binary(e.op)];
            TotalWidth(text) == SizeExpr(e.left) + SizeExpr(e.right) + 1 && (Lays(at, p, text) ==> ArithAt(at, p, e, env))
    decreases e, 0
  {
    hide Lays, TotalWidth, ExprAt, ExprCode, SizeExpr;
    var q := p + SizeExpr(e.left);
    var last := q + SizeExpr(e.right);
    var l, r := ExprCode(p, e.left, env), ExprCode(q, e.right, env);
    ExprLaid(at, p, e.left, env);
    ExprLaid(at, q, e.right, env);
    LaysSplit(at, p, l + r, [Binary(e.op)]);
    LaysSplit(at, p, l, r);
    LaysOne(at, last, Binary(e.op));
  }

  lemma NegateLaid(at: Listing, p: nat, e: Expr, env: Env)
    requires e.Negate?
    ensures TotalWidth(ExprCode(p, e, env)) == SizeExpr(e)
    ensures Lays(at, p, ExprCode(p, e, env)) ==> ExprAt(at, p, e, env)
    decreases e, 0
  {
    hide Lays, TotalWidth, ConvCode, ConvAt;
    var q, x := p + SizeExpr(e.operand), ExprCode(p, e.operand, env);
    ExprLaid(at, p, e.operand, env);
    LaysSplit(at, p, x + [NegateI64], ConvCode(e.conv));
    LaysSplit(at, p, x, [NegateI64]);
    LaysOne(at, q, NegateI64);
    ConvLaid(at, q + 1, e.conv);
  }

  lemma AssignLaid(at: Listing, p: nat, e: Expr, env: Env)
    requires e.Assign?
    ensures TotalWidth(ExprCode(p, e, env)) == SizeExpr(e)
    ensures Lays(at, p, ExprCode(p, e, env)) ==> ExprAt(at, p, e, env)
    decreases e, 0
  {
    hide Lays, TotalWidth, ConvCode, ConvAt;
    var q, x := p + SizeExpr(e.rhs), ExprCode(p, e.rhs, env);
    ExprLaid(at, p, e.rhs, env);
    LaysSplit(at, p, x + [Dup] + ConvCode(e.conv), [SetLocal(e.slot)]);
    LaysSplit(at, p, x + [Dup], ConvCode(e.conv));
    LaysSplit(at, p, x, [Dup]);
    LaysOne(at, q, Dup);
    ConvLaid(at, q + 1, e.conv);
    LaysOne(at, q + 1 + ConvSize(e.conv), SetLocal(e.slot));
  }

  lemma ShortCircuitSize(e: Expr)
    requires e.And? || e.Or?
    ensures SizeExpr(e) == SizeExpr(e.left) + 7 + SizeExpr(e.right)
  {
  }

  lemma ShortCircuitLaid(at: Listing, p: nat, e: Expr, env: Env)
    requires e.And? || e.Or?
    ensures TotalWidth(ShortCircuitCode(p, e, env)) == SizeExpr(e)
    ensures Lays(at, p, ShortCircuitCode(p, e, env)) ==> ShortCircuitAt(at, p, e, env)
    decreases e, 0
  {
    hide Lays, TotalWidth, ExprAt, ExprCode, Addr, SizeExpr, InstrAt;
    assert SizeExpr(e) == SizeExpr(e.left) + 7 + SizeExpr(e.right) by { ShortCircuitSize(e); }
    var q := p + SizeExpr(e.left);
    var end := Addr(q + 7 + SizeExpr(e.right));
    var jump := if e.And? then JumpIfFalse(end) else JumpIfTrue(end);
    var l, r := ExprCode(p, e.left, env), ExprCode(q + 7, e.right, env);
    ExprLaid(at, p, e.left, env);
    ExprLaid(at, q + 7, e.right, env);
    LaysThree(at, q, Dup, jump, Pop);
    LaysSplit(at, p, l + [Dup, jump, Pop], r);
    LaysSplit(at, p, l, [Dup, jump, Pop]);
  }

  lemma TernaryLaid(at: Listing, p: nat, e: Expr, env: Env)
    requires e.Ternary?
    ensures TotalWidth(TernaryCode(p, e, env)) == SizeExpr(e.cond) + 5 + SizeExpr(e.yes) + FlagSize(e.isRef && RetainsFirst(e.yes, e.no)) + 5 +
            SizeExpr(e.no) + FlagSize(e.isRef && RetainsFirst(e.no, e.yes))
    ensures Lays(at, p, TernaryCode(p, e, env)) ==> TernaryAt(at, p, e, env)
    decreases e, 0
  {
    hide Lays, TotalWidth, ExprAt, ExprCode, KeptCode, IncRefAt, Addr, RetainsFirst, SizeExpr;
    var keepYes, keepNo := e.isRef && RetainsFirst(e.yes, e.no), e.isRef && RetainsFirst(e.no, e.yes);
    var q := p + SizeExpr(e.cond);
    var start := q + 5;
    var q2 := start + SizeExpr(e.yes) + FlagSize(keepYes);
    var other := q2 + 5;
    var toNo, toEnd := JumpIfFalse(Addr(other)), Jump(Addr(other + SizeExpr(e.no) + FlagSize(keepNo)));
    var c, y, n := ExprCode(p, e.cond, env), KeptCode(start, e.yes, keepYes, env), KeptCode(other, e.no, keepNo, env);
    ExprLaid(at, p, e.cond, env);
    KeptLaid(at, start, e.yes, keepYes, env);
    KeptLaid(at, other, e.no, keepNo, env);
    LaysOne(at, q, toNo);
    LaysOne(at, q2, toEnd);
    LaysSplit(at, p, c + [toNo] + y + [toEnd], n);
    LaysSplit(at, p, c + [toNo] + y, [toEnd]);
    LaysSplit(at, p, c + [toNo], y);
    LaysSplit(at, p, c, [toNo]);
  }

  lemma AssignRefLaid(at: Listing, p: nat, e: Expr, env: Env)
    requires e.AssignRef?
    ensures TotalWidth(ExprCode(p, e, env)) == SizeExpr(e)
    ensures Lays(at, p, ExprCode(p, e, env)) ==> AssignRefAt(at, p, e, env)
    decreases e, 0
  {
    hide Lays, TotalWidth, ExprAt, StoreRefCode, StoreRefAt;
    ExprLaid(at, p, e.rhs, env);
    LaysSplit(at, p, ExprCode(p, e.rhs, env), StoreRefCode(e.slot, !ProducesRetained(e.rhs)));
    StoreRefLaid(at, p + SizeExpr(e.rhs), e.slot, !ProducesRetained(e.rhs));
  }

  lemma StoreRefLaid(at: Listing, q: nat, slot: u32, retain: bool)
    ensures TotalWidth(StoreRefCode(slot, retain)) == FlagSize(retain) + 2 + RELEASE_SIZE + 5
    ensures Lays(at, q, StoreRefCode(slot, retain)) ==> StoreRefAt(at, q, slot, retain)
  {
    hide Lays, TotalWidth, SlotMask, IncRefCode, IncRefAt;
    var release := DecRefSlot(slot, SlotMask(slot));
    IncRefLaid(at, q, retain);
    LaysSplit(at, q, IncRefCode(retain), [IncRef, Dup, release, SetLocal(slot)]);
    LaysFour(at, q + FlagSize(retain), IncRef, Dup, release, SetLocal(slot));
  }

  lemma AssignOpLaid(at: Listing, p: nat, e: Expr, env: Env)
    requires e.AssignOp?
    ensures TotalWidth(ExprCode(p, e, env)) == SizeExpr(e)
    ensures Lays(at, p, ExprCode(p, e, env)) ==> AssignOpAt(at, p, e, env)
    decreases e, 0
  {
    hide Lays, TotalWidth, ExprAt, ApplyStoreCode, ExprCode, SizeExpr;
    AssignOpParts(p, e, env);
    var start := p + 5;
    var q, x := start + SizeExpr(e.rhs), ExprCode(start, e.rhs, env);
    ExprLaid(at, start, e.rhs, env);
    LaysOne(at, p, GetLocal(e.slot));
    ApplyStoreLaid(at, q, e.op, e.slot, e.conv);
    LaysSplit(at, p, [GetLocal(e.slot)] + x, ApplyStoreCode(e.op, e.slot, e.conv));
    LaysSplit(at, p, [GetLocal(e.slot)], x);
  }

  lemma AssignOpParts(p: nat, e: Expr, env: Env)
    requires e.AssignOp?
    ensures ExprCode(p, e, env) == [GetLocal(e.slot)] + ExprCode(p + 5, e.rhs, env) + ApplyStoreCode(e.op, e.slot, e.conv)
    ensures SizeExpr(e) == 5 + SizeExpr(e.rhs) + 2 + ConvSize(e.conv) + 5
  {
  }

  lemma ApplyStoreLaid(at: Listing, q: nat, op: BinOp, slot: u32, conv: Conv)
    ensures TotalWidth(ApplyStoreCode(op, slot, conv)) == 7 + ConvSize(conv)
    ensures Lays(at, q, ApplyStoreCode(op, slot, conv)) ==>
            InstrAt(at, q, Binary(op)) && InstrAt(at, q + 1, Dup) && ConvAt(at, q + 2, conv) &&
            InstrAt(at, q + 2 + ConvSize(conv), SetLocal(slot))
  {
    hide Lays, TotalWidth, ConvCode, ConvAt;
    LaysTwo(at, q, Binary(op), Dup);
    ConvLaid(at, q + 2, conv);
    LaysOne(at, q + 2 + ConvSize(conv), SetLocal(slot));
    LaysSplit(at, q, [Binary(op), Dup] + ConvCode(conv), [SetLocal(slot)]);
    LaysSplit(at, q, [Binary(op), Dup], ConvCode(conv));
  }

  lemma KeptLaid(at: Listing, p: nat, e: Expr, retain: bool, env: Env)
    ensures TotalWidth(KeptCode(p, e, retain, env)) == SizeExpr(e) + FlagSize(retain)
    ensures Lays(at, p, KeptCode(p, e, retain, env)) ==> ExprAt(at, p, e, env) && IncRefAt(at, p + SizeExpr(e), retain)
    decreases e, 3
  {
    hide Lays, TotalWidth, ExprAt, ExprCode, IncRefCode, IncRefAt, SizeExpr;
    ExprLaid(at, p, e, env);
    IncRefLaid(at, p + SizeExpr(e), retain);
    LaysSplit(at, p, ExprCode(p, e, env), IncRefCode(retain));
  }

  lemma IncDecLaid(at: Listing, p: nat, slot: u32, up: bool, prefix: bool)
    ensures TotalWidth(IncDecCode(slot, up, prefix)) == 12
    ensures Lays(at, p, IncDecCode(slot, up, prefix)) ==> IncDecAt(at, p, slot, up, prefix)
  {
    hide Lays, TotalWidth;
    var change := if up then Increment else Decrement;
    LaysFour(at, p, GetLocal(slot), if prefix then change else Dup, if prefix then Dup else change, SetLocal(slot));
  }

  lemma ArgsLaid(at: Listing, p: nat, args: Args, env: Env)
    ensures TotalWidth(ArgsCode(p, args, env)) == SizeArgs(args)
    ensures Lays(at, p, ArgsCode(p, args, env)) ==> ArgsAt(at, p, args, env)
    decreases args, 3
  {
    hide Lays, TotalWidth, ExprAt, KeptCode, SizeExpr, IncRefAt;
    if args.NoArgs? {
      LaysNone(at, p);
    } else {
      var retain := args.isRef && !ProducesRetained(args.e);
      var q := p + SizeExpr(args.e) + FlagSize(retain);
      KeptLaid(at, p, args.e, retain, env);
      ArgsLaid(at, q, args.rest, env);
      LaysSplit(at, p, KeptCode(p, args.e, retain, env), ArgsCode(q, args.rest, env));
    }
  }

  lemma NewLaid(at: Listing, p: nat, e: Expr, env: Env)
    requires e.New?
    ensures TotalWidth(ExprCode(p, e, env)) == SizeExpr(e)
    ensures Lays(at, p, ExprCode(p, e, env)) ==> NewAt(at, p, e, env)
    decreases e, 0
  {
    hide Lays, TotalWidth, ArgsAt, ArgsCode, CallAt, CallCode, NewHead;
    var q := p + 14 + SizeArgs(e.args);
    var h, a, c := NewHead(e.classId, e.size), ArgsCode(p + 14, e.args, env), CallCode(q, e.ctor, ArgCount(e.args) + 1, env);
    NewHeadLaid(at, p, e.classId, e.size);
    ArgsLaid(at, p + 14, e.args, env);
    CallLaid(at, q, e.ctor, ArgCount(e.args) + 1, env);
    LaysOne(at, q + CALL_SIZE, Pop);
    LaysSplit(at, p, h + a + c, [Pop]);
    LaysSplit(at, p, h + a, c);
    LaysSplit(at, p, h, a);
  }

  lemma NewHeadLaid(at: Listing, p: nat, id: u32, size: u32)
    ensures TotalWidth(NewHead(id, size)) == 14
    ensures Lays(at, p, NewHead(id, size)) ==>
            InstrAt(at, p, PushI32(size)) && InstrAt(at, p + 5, AllocDynamic(1)) && InstrAt(at, p + 7, SetVtable(id)) &&
            InstrAt(at, p + 12, Dup) && InstrAt(at, p + 13, IncRef)
  {
    hide Lays, TotalWidth;
    assert NewHead(id, size) == [PushI32(size), AllocDynamic(1), SetVtable(id)] + [Dup, IncRef];
    LaysSplit(at, p, [PushI32(size), AllocDynamic(1), SetVtable(id)], [Dup, IncRef]);
    LaysThree(at, p, PushI32(size), AllocDynamic(1), SetVtable(id));
    LaysTwo(at, p + 12, Dup, IncRef);
  }

  // ------------------------------------------------------------ statements in place

  lemma LeapLaid(at: Listing, p: nat, leap: Leap)
    requires leap.Leap?
    ensures TotalWidth(LeapCode(leap)) == SizeLeap(LeapShape(leap))
    ensures Lays(at, p, LeapCode(leap)) ==> LeapAt(at, p, leap)
  {
    hide Lays, TotalWidth, ReleasesCode, ReleasesAt;
    ReleasesLaid(at, p, leap.slots);
    LaysSplit(at, p, ReleasesCode(leap.slots), [Jump(leap.target)]);
    LaysOne(at, p + SizeReleases(leap.slots), Jump(leap.target));
  }

  lemma ResultLaid(at: Listing, p: nat, e: Option<Expr>, isRef: bool, env: Env)
    ensures TotalWidth(ResultCode(p, e, isRef, env)) == SizeResult(e, isRef, ReturnConv(env.chain))
    ensures Lays(at, p, ResultCode(p, e, isRef, env)) ==> ResultAt(at, p, e, isRef, env)
  {
    hide Lays, TotalWidth, ExprAt, ExprCode, SizeExpr, ConvCode, ConvAt, IncRefCode, IncRefAt;
    if e.None? {
      LaysOne(at, p, PushNull);
    } else {
      Kept2Laid(at, p, e.value, ReturnConv(env.chain), isRef && !ProducesRetained(e.value), env);
    }
  }

  /** An expression, its narrowing and its INC_REF. */
  lemma Kept2Laid(at: Listing, p: nat, e: Expr, conv: Conv, retain: bool, env: Env)
    ensures var text := ExprCode(p, e, env) + ConvCode(conv) + IncRefCode(retain);
            TotalWidth(text) == SizeExpr(e) + ConvSize(conv) + FlagSize(retain) &&
            (Lays(at, p, text) ==> ExprAt(at, p, e, env) && ConvAt(at, p + SizeExpr(e), conv) &&
                                   IncRefAt(at, p + SizeExpr(e) + ConvSize(conv), retain))
  {
    hide Lays, TotalWidth, ExprAt, ExprCode, SizeExpr, ConvCode, ConvAt, IncRefCode, IncRefAt;
    ExprLaid(at, p, e, env);
    ConvLaid(at, p + SizeExpr(e), conv);
    IncRefLaid(at, p + SizeExpr(e) + ConvSize(conv), retain);
    LaysSplit(at, p, ExprCode(p, e, env) + ConvCode(conv), IncRefCode(retain));
    LaysSplit(at, p, ExprCode(p, e, env), ConvCode(conv));
  }

  lemma DeclLaid(at: Listing, p: nat, s: Stmt, env: Env)
    requires s.VarDecl?
    ensures TotalWidth(DeclCode(p, s, env)) == SizeDecl(s)
    ensures Lays(at, p, DeclCode(p, s, env)) ==> DeclAt(at, p, s, env)
  {
    hide Lays, ExprAt, ExprCode, SizeExpr, ConvCode, ConvAt, IncRefCode, IncRefAt;
    if s.init.Some? {
      var e, retain := s.init.value, s.isRef && !ProducesRetained(s.init.value);
      Kept2Laid(at, p, e, s.conv, retain, env);
      LaysSplit(at, p, ExprCode(p, e, env) + ConvCode(s.conv) + IncRefCode(retain), [SetLocal(s.slot)]);
      LaysOne(at, p + SizeExpr(e) + ConvSize(s.conv) + FlagSize(retain), SetLocal(s.slot));
    }
  }

  /** An expression and the instruction that consumes it. */
  lemma ThenLaid(at: Listing, p: nat, e: Expr, i: Instr, env: Env)
    ensures TotalWidth(ExprCode(p, e, env) + [i]) == SizeExpr(e) + Width(i)
    ensures Lays(at, p, ExprCode(p, e, env) + [i]) ==> ExprAt(at, p, e, env) && InstrAt(at, p + SizeExpr(e), i)
  {
    hide Lays, TotalWidth, ExprAt, ExprCode, SizeExpr, Width;
    ExprLaid(at, p, e, env);
    LaysSplit(at, p, ExprCode(p, e, env), [i]);
    LaysOne(at, p + SizeExpr(e), i);
  }

  /** What the one-pass emitter writes for a statement is that statement's layout. */
  lemma StmtLaid(at: Listing, p: nat, s: Stmt, env: Env)
    requires LeapsFit(s, env)
    ensures TotalWidth(StmtCode(p, s, env)) == SizeStmt(s, ShapeOf(env))
    ensures Lays(at, p, StmtCode(p, s, env)) ==> StmtAt(at, p, s, env)
    decreases Weight(s) + ChainWeight(env.chain), 2
  {
    hide Lays, TotalWidth, ReturnConv, SizeResult, ExprAt, ExprCode, SizeExpr, BlockAt, SizeBlock, BlockCode, DeclAt, DeclCode, SizeDecl, IfAt, IfCode, IfElseAt, IfElseCode,
         LoopAt, LoopCode, DoAt, DoCode, SwitchAt, SwitchCode, TryAt, TryCode, ChainAt, ChainCode, SizeChain, ResultAt, ResultCode, LeapAt, LeapCode;
    match s
    case Skip => LaysNone(at, p);
    case Block(body) => BlockLaid(at, p, body, env, env.cleanup);
    case VarDecl(_, _, _, _) => DeclLaid(at, p, s, env);
    case ExprStmt(e, isRef) => ThenLaid(at, p, e, if isRef then DecRef else Pop, env);
    case If(_, _) => IfLaid(at, p, s, env);
    case IfElse(_, _, _) => IfElseLaid(at, p, s, env);
    case While(cond, b) => LoopLaid(at, p, Some(cond), None, b, env, Addr(p));
    case DoWhile(b, cond) => DoLaid(at, p, b, cond, env);
    case For(_, _, _, _) => ForLaid(at, p, s, env);
    case Switch(e, cases) => SwitchLaid(at, p, e, cases, env);
    case Break => LeapLaid(at, p, env.brk);
    case Continue => LeapLaid(at, p, env.cont);
    case Return(e, isRef) => ReturnLaid(at, p, s, env);
    case Throw(e) => ThenLaid(at, p, e, ThrowException(env.cleanup), env);
    case Try(_, _, _) => TryLaid(at, p, s, env);
  }

  lemma ReturnLaid(at: Listing, p: nat, s: Stmt, env: Env)
    requires s.Return? && LeapsInChain(env.chain)
    ensures TotalWidth(StmtCode(p, s, env)) == SizeStmt(s, ShapeOf(env))
    ensures Lays(at, p, StmtCode(p, s, env)) ==> StmtAt(at, p, s, env)
    decreases Weight(s) + ChainWeight(env.chain), 1
  {
    hide Lays, TotalWidth, ChainAt, ChainCode, SizeChain, ResultAt, ResultCode, SizeResult, ReturnConv;
    var q := p + SizeResult(s.result, s.isRef, ReturnConv(env.chain));
    ResultLaid(at, p, s.result, s.isRef, env);
    ChainLaid(at, q, env.chain, env.cleanup, env.fns);
    LaysSplit(at, p, ResultCode(p, s.result, s.isRef, env), ChainCode(q, env.chain, env.cleanup, env.fns));
  }

  lemma IfLaid(at: Listing, p: nat, s: Stmt, env: Env)
    requires s.If? && LeapsFit(s, env)
    ensures TotalWidth(IfCode(p, s, env)) == SizeIf(s, ShapeOf(env))
    ensures Lays(at, p, IfCode(p, s, env)) ==> IfAt(at, p, s, env)
    decreases Weight(s) + ChainWeight(env.chain), 1
  {
    hide Lays, TotalWidth, ExprAt, ExprCode, SizeExpr, StmtAt, StmtCode, SizeStmt, Addr;
    var q := p + SizeExpr(s.cond) + 5;
    var jump := JumpIfFalse(Addr(q + SizeStmt(s.thn, ShapeOf(env))));
    ThenLaid(at, p, s.cond, jump, env);
    StmtLaid(at, q, s.thn, env);
    LaysSplit(at, p, ExprCode(p, s.cond, env) + [jump], StmtCode(q, s.thn, env));
  }

  lemma IfElseLaid(at: Listing, p: nat, s: Stmt, env: Env)
    requires s.IfElse? && LeapsFit(s, env)
    ensures TotalWidth(IfElseCode(p, s, env)) == SizeIfElse(s, ShapeOf(env))
    ensures Lays(at, p, IfElseCode(p, s, env)) ==> IfElseAt(at, p, s, env)
    decreases Weight(s) + ChainWeight(env.chain), 1
  {
    hide Lays, TotalWidth, ExprAt, ExprCode, SizeExpr, StmtAt, StmtCode, SizeStmt, Addr;
    var q := p + SizeExpr(s.cond) + 5;
    var other := q + SizeStmt(s.thn, ShapeOf(env)) + 5;
    var toElse, toEnd := JumpIfFalse(Addr(other)), Jump(Addr(other + SizeStmt(s.els, ShapeOf(env))));
    var c, t, e := ExprCode(p, s.cond, env) + [toElse], StmtCode(q, s.thn, env), StmtCode(other, s.els, env);
    ThenLaid(at, p, s.cond, toElse, env);
    StmtLaid(at, q, s.thn, env);
    StmtLaid(at, other, s.els, env);
    LaysOne(at, other - 5, toEnd);
    LaysSplit(at, p, c + t + [toEnd], e);
    LaysSplit(at, p, c + t, [toEnd]);
    LaysSplit(at, p, c, t);
  }

  lemma GuardLaid(at: Listing, top: nat, g: Option<Expr>, end: u32, env: Env)
    ensures TotalWidth(GuardCode(top, g, end, env)) == SizeOpt(g, 5)
    ensures Lays(at, top, GuardCode(top, g, end, env)) && g.Some? ==>
            ExprAt(at, top, g.value, env) && InstrAt(at, top + SizeExpr(g.value), JumpIfFalse(end))
  {
    hide ExprAt, ExprCode, SizeExpr, Lays;
    if g.Some? { ThenLaid(at, top, g.value, JumpIfFalse(end), env); }
  }

  lemma IterLaid(at: Listing, p: nat, i: Option<Expr>, env: Env)
    ensures TotalWidth(IterCode(p, i, env)) == SizeOpt(i, 1)
    ensures Lays(at, p, IterCode(p, i, env)) && i.Some? ==> ExprAt(at, p, i.value, env) && InstrAt(at, p + SizeExpr(i.value), Pop)
  {
    hide ExprAt, ExprCode, SizeExpr, Lays;
    if i.Some? { ThenLaid(at, p, i.value, Pop, env); }
  }

  /** The pieces of a loop make the loop. */
  lemma LoopParts(at: Listing, top: nat, q: nat, after: nat, back: nat, g: Option<Expr>, i: Option<Expr>, b: Stmt, env: Env, next: u32)
    requires q == top + SizeOpt(g, 5) && after == q + SizeStmt(b, LOOP_SHAPE) && back == after + SizeOpt(i, 1)
    ensures (g.Some? ==> ExprAt(at, top, g.value, env) && InstrAt(at, top + SizeExpr(g.value), JumpIfFalse(Addr(back + 5)))) &&
            StmtAt(at, q, b, LoopEnv(env, Addr(back + 5), next)) &&
            (i.Some? ==> ExprAt(at, after, i.value, env) && InstrAt(at, after + SizeExpr(i.value), Pop)) &&
            InstrAt(at, back, Jump(Addr(top))) ==>
            LoopAt(at, top, g, i, b, env, next)
  {
    hide ExprAt, SizeExpr, StmtAt, SizeStmt, Addr;
  }

  lemma LoopLaid(at: Listing, top: nat, g: Option<Expr>, i: Option<Expr>, b: Stmt, env: Env, next: u32)
    requires LeapsIn(b, true, true)
    ensures TotalWidth(LoopCode(top, g, i, b, env, next)) == SizeOpt(g, 5) + SizeStmt(b, LOOP_SHAPE) + SizeOpt(i, 1) + 5
    ensures Lays(at, top, LoopCode(top, g, i, b, env, next)) ==> LoopAt(at, top, g, i, b, env, next)
    decreases Weight(b) + 1, 1
  {
    hide Lays, TotalWidth, ExprAt, ExprCode, SizeExpr, StmtAt, StmtCode, SizeStmt, Addr, GuardCode, IterCode, LeapsIn, Weight, SizeOpt, LoopAt;
    var q := top + SizeOpt(g, 5);
    var after := q + SizeStmt(b, LOOP_SHAPE);
    var back := after + SizeOpt(i, 1);
    var end, jump := Addr(back + 5), Jump(Addr(top));
    var inner := LoopEnv(env, end, next);
    GuardLaid(at, top, g, end, env);
    StmtLaid(at, q, b, inner);
    IterLaid(at, after, i, env);
    LaysOne(at, back, jump);
    var a, c, d := GuardCode(top, g, end, env), StmtCode(q, b, inner), IterCode(after, i, env);
    LaysSplit(at, top, a + c + d, [jump]);
    LaysSplit(at, top, a + c, d);
    LaysSplit(at, top, a, c);
    LoopParts(at, top, q, after, back, g, i, b, env, next);
  }

  lemma ForLaid(at: Listing, p: nat, s: Stmt, env: Env)
    requires s.For? && LeapsFit(s, env)
    ensures TotalWidth(StmtCode(p, s, env)) == SizeStmt(s, ShapeOf(env))
    ensures Lays(at, p, StmtCode(p, s, env)) ==> StmtAt(at, p, s, env)
    decreases Weight(s) + ChainWeight(env.chain), 1
  {
    hide Lays, TotalWidth, LoopAt, LoopCode, SizeOpt, Addr;
    var top := p + SizeStmt(s.start, ShapeOf(env));
    var next := Addr(top + SizeOpt(s.guard, 5) + SizeStmt(s.loop, LOOP_SHAPE));
    StmtLaid(at, p, s.start, env);
    LoopLaid(at, top, s.guard, s.iter, s.loop, env, next);
    LaysSplit(at, p, StmtCode(p, s.start, env), LoopCode(top, s.guard, s.iter, s.loop, env, next));
  }

  lemma DoLaid(at: Listing, p: nat, b: Stmt, cond: Expr, env: Env)
    requires LeapsIn(b, true, true)
    ensures TotalWidth(DoCode(p, b, cond, env)) == SizeStmt(b, LOOP_SHAPE) + SizeExpr(cond) + 5
    ensures Lays(at, p, DoCode(p, b, cond, env)) ==> DoAt(at, p, b, cond, env)
    decreases Weight(b) + 1, 1
  {
    hide Lays, TotalWidth, ExprAt, ExprCode, SizeExpr, StmtAt, StmtCode, SizeStmt, Addr, LeapsIn, Weight;
    var q := p + SizeStmt(b, LOOP_SHAPE);
    var back := q + SizeExpr(cond);
    var inner := LoopEnv(env, Addr(back + 5), Addr(q));
    StmtLaid(at, p, b, inner);
    ExprLaid(at, q, cond, env);
    LaysOne(at, back, JumpIfTrue(Addr(p)));
    LaysSplit(at, p, StmtCode(p, b, inner) + ExprCode(q, cond, env), [JumpIfTrue(Addr(p))]);
    LaysSplit(at, p, StmtCode(p, b, inner), ExprCode(q, cond, env));
  }

  lemma SwitchLaid(at: Listing, p: nat, e: Expr, cases: Cases, env: Env)
    requires LeapsInCases(cases)
    ensures TotalWidth(SwitchCode(p, e, cases, env)) == SizeExpr(e) + SizeDispatch(cases) + SizeCases(cases) + 1
    ensures Lays(at, p, SwitchCode(p, e, cases, env)) ==> SwitchAt(at, p, e, cases, env)
    decreases CasesWeight(cases) + 1, 1
  {
    hide Lays, TotalWidth, ExprAt, ExprCode, SizeExpr, DispatchAt, DispatchCode, SizeDispatch, CasesAt, CasesCode, SizeCases, Addr, CasesWeight;
    var q := p + SizeExpr(e);
    var bodies := q + SizeDispatch(cases);
    var end := bodies + SizeCases(cases);
    var inner := SwitchEnv(env, Addr(end));
    ExprLaid(at, p, e, env);
    DispatchLaid(at, q, cases, bodies, env);
    CasesLaid(at, bodies, cases, inner);
    LaysOne(at, end, Pop);
    var a, b, c := ExprCode(p, e, env), DispatchCode(q, cases, bodies, env), CasesCode(bodies, cases, inner);
    LaysSplit(at, p, a + b + c, [Pop]);
    LaysSplit(at, p, a + b, c);
    LaysSplit(at, p, a, b);
  }

  lemma {:induction false} DispatchLaid(at: Listing, p: nat, cases: Cases, body: nat, env: Env)
    ensures TotalWidth(DispatchCode(p, cases, body, env)) == SizeDispatch(cases)
    ensures Lays(at, p, DispatchCode(p, cases, body, env)) ==> DispatchAt(at, p, cases, body, env)
    decreases cases
  {
    hide Lays, TotalWidth, ExprAt, ExprCode, SizeExpr, SizeSeq, Addr, InstrAt;
    match cases
    case NoCase => LaysOne(at, p, Jump(Addr(body)));
    case Default(_) => LaysOne(at, p, Jump(Addr(body)));
    case Case(value, ss, rest) =>
      var q := p + 1 + SizeExpr(value);
      var next := body + SizeSeq(ss, SWITCH_SHAPE);
      LabelLaid(at, p, value, Addr(body), env);
      DispatchLaid(at, q + 6, rest, next, env);
      LaysSplit(at, p, [Dup] + ExprCode(p + 1, value, env) + [Binary(Eq), JumpIfTrue(Addr(body))], DispatchCode(q + 6, rest, next, env));
  }

  lemma LabelLaid(at: Listing, p: nat, e: Expr, body: u32, env: Env)
    ensures var text := [Dup] + ExprCode(p + 1, e, env) + [Binary(Eq), JumpIfTrue(body)];
            TotalWidth(text) == SizeExpr(e) + 7 &&
            (Lays(at, p, text) ==>
             InstrAt(at, p, Dup) && ExprAt(at, p + 1, e, env) && InstrAt(at, p + 1 + SizeExpr(e), Binary(Eq)) &&
             InstrAt(at, p + 2 + SizeExpr(e), JumpIfTrue(body)))
  {
    hide Lays, TotalWidth, ExprAt, ExprCode, SizeExpr, InstrAt;
    var q := p + 1 + SizeExpr(e);
    var a, b := ExprCode(p + 1, e, env), [Binary(Eq), JumpIfTrue(body)];
    LaysOne(at, p, Dup);
    ExprLaid(at, p + 1, e, env);
    LaysTwo(at, q, Binary(Eq), JumpIfTrue(body));
    LaysSplit(at, p, [Dup] + a, b);
    LaysSplit(at, p, [Dup], a);
  }

  lemma CasesLaid(at: Listing, p: nat, cases: Cases, env: Env)
    requires LeapsInCases(cases) && ShapeOf(env) == SWITCH_SHAPE
    ensures TotalWidth(CasesCode(p, cases, env)) == SizeCases(cases)
    ensures Lays(at, p, CasesCode(p, cases, env)) ==> CasesAt(at, p, cases, env)
    decreases CasesWeight(cases) + ChainWeight(env.chain), 1
  {
    hide Lays, SeqAt, SeqCode, SizeSeq, LeapsInSeq, Width;
    match cases
    case NoCase =>
    case Default(body) => SeqLaid(at, p, body, env);
    case Case(_, body, rest) =>
      var q := p + SizeSeq(body, SWITCH_SHAPE);
      SeqLaid(at, p, body, env);
      CasesLaid(at, q, rest, env);
      LaysSplit(at, p, SeqCode(p, body, env), CasesCode(q, rest, env));
  }

  lemma SeqLaid(at: Listing, p: nat, ss: Stmts, env: Env)
    requires SeqLeapsFit(ss, env)
    ensures TotalWidth(SeqCode(p, ss, env)) == SizeSeq(ss, ShapeOf(env))
    ensures Lays(at, p, SeqCode(p, ss, env)) ==> SeqAt(at, p, ss, env)
    decreases SeqWeight(ss) + ChainWeight(env.chain), 1
  {
    hide StmtAt, StmtCode, SizeStmt;
    if ss.Cons? {
      var q := p + SizeStmt(ss.head, ShapeOf(env));
      StmtLaid(at, p, ss.head, env);
      SeqLaid(at, q, ss.tail, env);
      LaysSplit(at, p, StmtCode(p, ss.head, env), SeqCode(q, ss.tail, env));
    }
  }

  /** The common part of blocks and function bodies. */
  lemma HeadLaid(at: Listing, p: nat, body: Stmts, env: Env, end: u32)
    requires SeqLeapsFit(body, env)
    ensures var slots := RefSlots(body);
            var q := p + SizeSeq(body, InnerShape(ShapeOf(env), slots));
            var w := SizeReleases(slots);
            TotalWidth(BlockHead(p, body, env, end)) == q - p + w + 5 + w &&
            (Lays(at, p, BlockHead(p, body, env, end)) ==>
              SeqAt(at, p, body, InnerEnv(env, slots, Addr(q + w + 5))) && ReleasesAt(at, q, slots) &&
              InstrAt(at, q + w, Jump(end)) && ReleasesAt(at, q + w + 5, slots))
    decreases BlockWeight(body) + ChainWeight(env.chain), 1
  {
    hide Lays, TotalWidth, SeqAt, SeqCode, SizeSeq, ReleasesAt, ReleasesCode, RefSlots;
    var slots := RefSlots(body);
    var q := p + SizeSeq(body, InnerShape(ShapeOf(env), slots));
    var skip := q + SizeReleases(slots);
    var inner := InnerEnv(env, slots, Addr(skip + 5));
    assert ShapeOf(inner) == InnerShape(ShapeOf(env), slots);
    SeqLaid(at, p, body, inner);
    ReleasesLaid(at, q, slots);
    LaysOne(at, skip, Jump(end));
    ReleasesLaid(at, skip + 5, slots);
    var a, r := SeqCode(p, body, inner), ReleasesCode(slots);
    LaysSplit(at, p, a + r + [Jump(end)], r);
    LaysSplit(at, p, a + r, [Jump(end)]);
    LaysSplit(at, p, a, r);
  }

  lemma BlockLaid(at: Listing, p: nat, body: Stmts, env: Env, exit: u32)
    requires SeqLeapsFit(body, env)
    ensures TotalWidth(BlockCode(p, body, env, exit)) == SizeBlock(body, ShapeOf(env))
    ensures Lays(at, p, BlockCode(p, body, env, exit)) ==> BlockAt(at, p, body, env, exit)
    decreases BlockWeight(body) + ChainWeight(env.chain), 2
  {
    hide Lays, TotalWidth, SeqAt, SizeSeq, ReleasesAt, BlockHead, RefSlots;
    var end := Addr(p + SizeBlock(body, ShapeOf(env)));
    HeadLaid(at, p, body, env, end);
    LaysSplit(at, p, BlockHead(p, body, env, end), [Jump(exit)]);
    LaysOne(at, p + SizeBlock(body, ShapeOf(env)) - 5, Jump(exit));
  }

  lemma ChainLaid(at: Listing, p: nat, c: Chain, cleanup: u32, fns: seq<u32>)
    requires LeapsInChain(c)
    ensures TotalWidth(ChainCode(p, c, cleanup, fns)) == SizeChain(c)
    ensures Lays(at, p, ChainCode(p, c, cleanup, fns)) ==> ChainAt(at, p, c, cleanup, fns)
    decreases ChainWeight(c), 1
  {
    hide Addr, SlotMask, LeapsInSeq, Lays, TotalWidth, BlockAt, SizeBlock, BlockCode, ReleasesAt, ReleasesCode;
    match c
    case Detached => LaysOne(at, p, Instr.Return);
    case FunctionEnd(refs, _) =>
      ReleasesLaid(at, p, refs);
      LaysSplit(at, p, ReleasesCode(refs), [Instr.Return]);
      LaysOne(at, p + SizeReleases(refs), Instr.Return);
    case InBlock(slots, o) =>
      var q := p + SizeReleases(slots);
      ReleasesLaid(at, p, slots);
      ChainLaid(at, q, o, cleanup, fns);
      LaysSplit(at, p, ReleasesCode(slots), ChainCode(q, o, cleanup, fns));
    case InTry(fin, o) =>
      var inner := Env(NoLeap, NoLeap, cleanup, o, fns);
      var q := p + SizeBlock(fin, FinallyShape(o));
      BlockLaid(at, p, fin, inner, cleanup);
      ChainLaid(at, q, o, cleanup, fns);
      LaysSplit(at, p, BlockCode(p, fin, inner, cleanup), ChainCode(q, o, cleanup, fns));
  }

  lemma FinallyLaid(at: Listing, p: nat, fin: Option<Stmts>, env: Env)
    requires LeapsInFinally(fin) && LeapsInChain(env.chain)
    ensures TotalWidth(FinallyCode(p, fin, env)) == SizeFinally(fin, env.chain)
    ensures Lays(at, p, FinallyCode(p, fin, env)) ==> FinallyAt(at, p, fin, env)
    decreases (if fin.Some? then BlockWeight(fin.value) else 0) + ChainWeight(env.chain) + 1, 1
  {
    hide Lays, BlockAt, SizeBlock, BlockCode;
    if fin.Some? { BlockLaid(at, p, fin.value, FinallyEnv(env, env.chain), env.cleanup); }
  }

  lemma TryLaid(at: Listing, p: nat, s: Stmt, env: Env)
    requires s.Try? && LeapsFit(s, env)
    ensures TotalWidth(TryCode(p, s.body, s.clauses, s.fin, env)) == SizeStmt(s, ShapeOf(env))
    ensures Lays(at, p, TryCode(p, s.body, s.clauses, s.fin, env)) ==> TryAt(at, p, s.body, s.clauses, s.fin, env)
    decreases Weight(s) + ChainWeight(env.chain), 1
  {
    hide LeapsInChain, LeapsIn, Lays, TotalWidth, BlockAt, SizeBlock, BlockCode, ClausesAt, ClausesCode, SizeClauses, FinallyAt, FinallyCode, SizeFinally, Addr, LeapsInSeq,
         LeapsInClauses, LeapsInFinally, SeqLeapsFit;
    var inner := TryEnv(env, s.fin);
    var skip := p + SizeBlock(s.body, ShapeOf(inner));
    var unhandled := skip + 5 + SizeClauses(s.clauses, ShapeOf(inner));
    var out := unhandled + SizeFinally(s.fin, env.chain);
    var outer := ClauseEnv(inner, s.fin, Addr(unhandled));
    TryLeaps(s, env, Addr(unhandled));
    FinallyLaid(at, unhandled, s.fin, env);
    LaysOne(at, out, Jump(env.cleanup));
    FinallyLaid(at, out + 5, s.fin, env);
    GuardedLaid(at, p, s, inner, outer, skip, out);
    var g, d := GuardedCode(p, s, inner, outer, skip, out), FinallyCode(unhandled, s.fin, env);
    LaysSplit(at, p, g + d + [Jump(env.cleanup)], FinallyCode(out + 5, s.fin, env));
    LaysSplit(at, p, g + d, [Jump(env.cleanup)]);
    LaysSplit(at, p, g, d);
  }

  lemma TryLeaps(s: Stmt, env: Env, unhandled: u32)
    requires s.Try? && LeapsFit(s, env)
    ensures var inner := TryEnv(env, s.fin);
            SeqLeapsFit(s.body, inner) && LeapsInClauses(s.clauses, inner.brk.Leap?, inner.cont.Leap?) && LeapsInFinally(s.fin) &&
            ShapeOf(inner) == TryShape(ShapeOf(env), s.fin) && ShapeOf(ClauseEnv(inner, s.fin, unhandled)) == ShapeOf(inner)
  {
    var inner := TryEnv(env, s.fin);
    assert LeapsIn(s, env.brk.Leap?, env.cont.Leap?) && LeapsInFinally(s.fin);
    if s.fin.None? {
      assert inner == env && LeapsInSeq(s.body, env.brk.Leap?, env.cont.Leap?);
    } else {
      assert LeapsInSeq(s.fin.value, false, false);
    }
  }

  /** The guarded block, the jump past the clauses, and the clauses. */
  function GuardedCode(p: nat, s: Stmt, inner: Env, outer: Env, skip: nat, out: nat): Code
    requires s.Try?
  {
    BlockCode(p, s.body, inner, Addr(skip + 5)) + [Jump(Addr(out + 5))] + ClausesCode(skip + 5, s.clauses, outer, Addr(out + 5))
  }

  lemma GuardedLaid(at: Listing, p: nat, s: Stmt, inner: Env, outer: Env, skip: nat, out: nat)
    requires s.Try? && SeqLeapsFit(s.body, inner) && LeapsInClauses(s.clauses, inner.brk.Leap?, inner.cont.Leap?)
    requires ShapeOf(outer) == ShapeOf(inner) && skip == p + SizeBlock(s.body, ShapeOf(inner))
    ensures TotalWidth(GuardedCode(p, s, inner, outer, skip, out)) == skip + 5 + SizeClauses(s.clauses, ShapeOf(inner)) - p
    ensures Lays(at, p, GuardedCode(p, s, inner, outer, skip, out)) ==>
            BlockAt(at, p, s.body, inner, Addr(skip + 5)) && InstrAt(at, skip, Jump(Addr(out + 5))) &&
            ClausesAt(at, skip + 5, s.clauses, outer, Addr(out + 5))
    decreases BlockWeight(s.body) + ClausesWeight(s.clauses) + ChainWeight(inner.chain), 3
  {
    hide Lays, TotalWidth, BlockAt, SizeBlock, BlockCode, ClausesAt, ClausesCode, SizeClauses, Addr, LeapsInClauses, LeapsInSeq, LeapsInChain;
    BlockLaid(at, p, s.body, inner, Addr(skip + 5));
    LaysOne(at, skip, Jump(Addr(out + 5)));
    ClausesLaid(at, skip + 5, s.clauses, outer, Addr(out + 5));
    var a, c := BlockCode(p, s.body, inner, Addr(skip + 5)), ClausesCode(skip + 5, s.clauses, outer, Addr(out + 5));
    LaysSplit(at, p, a + [Jump(Addr(out + 5))], c);
    LaysSplit(at, p, a, [Jump(Addr(out + 5))]);
  }

  lemma ClausesLaid(at: Listing, p: nat, clauses: Clauses, env: Env, end: u32)
    requires LeapsInClauses(clauses, env.brk.Leap?, env.cont.Leap?) && LeapsInChain(env.chain)
    ensures TotalWidth(ClausesCode(p, clauses, env, end)) == SizeClauses(clauses, ShapeOf(env))
    ensures Lays(at, p, ClausesCode(p, clauses, env, end)) ==> ClausesAt(at, p, clauses, env, end)
    decreases ClausesWeight(clauses) + ChainWeight(env.chain), 1
  {
    hide ClauseAt, ClauseCode, SizeBlock, LeapsInSeq, LeapsInChain;
    if clauses.Clause? {
      var done := p + 18 + SizeBlock(clauses.body, ShapeOf(env));
      ClauseLaid(at, p, done, clauses.classId, clauses.slot, clauses.body, env, end);
      ClausesLaid(at, done + 11, clauses.rest, env, end);
      LaysSplit(at, p, ClauseCode(p, done, clauses.classId, clauses.slot, clauses.body, env, end),
                ClausesCode(done + 11, clauses.rest, env, end));
    }
  }

  lemma TestLaid(at: Listing, p: nat, id: u32, no: u32)
    ensures TotalWidth(TestCode(id, no)) == 11
    ensures Lays(at, p, TestCode(id, no)) ==>
            InstrAt(at, p, GetException) && InstrAt(at, p + 1, InstanceOf(id)) && InstrAt(at, p + 6, JumpIfFalse(no))
  {
    hide Lays, TotalWidth;
    LaysThree(at, p, GetException, InstanceOf(id), JumpIfFalse(no));
  }

  lemma TakeLaid(at: Listing, p: nat, slot: u32)
    ensures TotalWidth(TakeCode(slot)) == 7
    ensures Lays(at, p, TakeCode(slot)) ==>
            InstrAt(at, p, GetException) && InstrAt(at, p + 1, SetLocal(slot)) && InstrAt(at, p + 6, ClearException)
  {
    hide Lays, TotalWidth;
    LaysThree(at, p, GetException, SetLocal(slot), ClearException);
  }

  lemma DropLaid(at: Listing, p: nat, slot: u32, end: u32)
    ensures TotalWidth(DropCode(slot, end)) == 11
    ensures Lays(at, p, DropCode(slot, end)) ==>
            InstrAt(at, p, GetLocal(slot)) && InstrAt(at, p + 5, DecRef) && InstrAt(at, p + 6, Jump(end))
  {
    hide Lays, TotalWidth;
    LaysThree(at, p, GetLocal(slot), DecRef, Jump(end));
  }

  lemma EntryLaid(at: Listing, p: nat, id: u32, slot: u32, no: u32)
    ensures TotalWidth(TestCode(id, no) + TakeCode(slot)) == 18
    ensures Lays(at, p, TestCode(id, no) + TakeCode(slot)) ==>
            InstrAt(at, p, GetException) && InstrAt(at, p + 1, InstanceOf(id)) && InstrAt(at, p + 6, JumpIfFalse(no)) &&
            InstrAt(at, p + 11, GetException) && InstrAt(at, p + 12, SetLocal(slot)) && InstrAt(at, p + 17, ClearException)
  {
    hide Lays, TotalWidth, TestCode, TakeCode, InstrAt;
    TestLaid(at, p, id, no);
    TakeLaid(at, p + 11, slot);
    LaysSplit(at, p, TestCode(id, no), TakeCode(slot));
  }

  lemma ClauseLaid(at: Listing, p: nat, done: nat, id: u32, slot: u32, body: Stmts, env: Env, end: u32)
    requires SeqLeapsFit(body, env) && done == p + 18 + SizeBlock(body, ShapeOf(env))
    ensures TotalWidth(ClauseCode(p, done, id, slot, body, env, end)) == done + 11 - p
    ensures Lays(at, p, ClauseCode(p, done, id, slot, body, env, end)) ==> ClauseAt(at, p, done, id, slot, body, env, end)
    decreases BlockWeight(body) + ChainWeight(env.chain) + 1, 1
  {
    hide Lays, TotalWidth, BlockAt, BlockCode, SizeBlock, SeqLeapsFit, Addr, BlockWeight, ChainWeight, TestCode, TakeCode, DropCode, Width, ShapeOf, InstrAt;
    var no := Addr(done + 11);
    var a, c, d := TestCode(id, no) + TakeCode(slot), BlockCode(p + 18, body, env, env.cleanup), DropCode(slot, end);
    EntryLaid(at, p, id, slot, no);
    BlockLaid(at, p + 18, body, env, env.cleanup);
    DropLaid(at, done, slot, end);
    LaysSplit(at, p, a + c, d);
    LaysSplit(at, p, a, c);
  }

  lemma BodyLaid(at: Listing, p: nat, f: Function, fns: seq<u32>)
    requires LeapsInSeq(f.body, false, false)
    ensures TotalWidth(BodyCode(p, f, fns)) == SizeBody(f)
    ensures Lays(at, p, BodyCode(p, f, fns)) ==> BodyAt(at, p, f, fns)
  {
    hide Lays, TotalWidth, SeqAt, SizeSeq, ReleasesAt, ReleasesCode, RefSlots, BlockHead, LeapsInSeq, SeqWeight, SlotMask;
    var slots := RefSlots(f.body);
    var skip := p + SizeSeq(f.body, BodyShape(f)) + SizeReleases(slots);
    var params := skip + 5 + SizeReleases(slots);
    var leave := params + SizeReleases(f.refs);
    var env := Env(NoLeap, NoLeap, Addr(skip + 5), BodyChain(f), fns);
    var end := Addr(leave + 1);
    var h, r := BlockHead(p, f.body, env, end), ReleasesCode(f.refs);
    HeadLaid(at, p, f.body, env, end);
    ReleasesLaid(at, params, f.refs);
    LaysOne(at, leave, JmpToOuterCleanup);
    LaysSplit(at, p, h + r, [JmpToOuterCleanup]);
    LaysSplit(at, p, h, r);
  }

  lemma FunctionLaid(at: Listing, p: nat, f: Function, fns: seq<u32>)
    requires LeapsInSeq(f.body, false, false)
    ensures TotalWidth(FunctionCode(p, f, fns)) == SizeFunction(f)
    ensures Lays(at, p, FunctionCode(p, f, fns)) ==> FunctionAt(at, p, f, fns)
  {
    hide Lays, TotalWidth, BodyAt, BodyCode, SizeBody, ReleasesAt, ReleasesCode, LeapsInSeq;
    var start := p + 5;
    var end := start + SizeBody(f);
    var after := end + 1;
    var last := after + SizeReleases(f.refs);
    var a, b, r := [AllocFrame(f.frameSize)], BodyCode(start, f, fns), ReleasesCode(f.refs);
    LaysOne(at, p, AllocFrame(f.frameSize));
    BodyLaid(at, start, f, fns);
    LaysOne(at, end, PushNull);
    ReleasesLaid(at, after, f.refs);
    LaysOne(at, last, Instr.Return);
    LaysSplit(at, p, a + b + [PushNull] + r, [Instr.Return]);
    LaysSplit(at, p, a + b + [PushNull], r);
    LaysSplit(at, p, a + b, [PushNull]);
    LaysSplit(at, p, a, b);
  }

  // -------------------------------------------------------------- programs in place

  predicate BootAt(at: Listing, p: nat, entry: nat, argc: u32, fns: seq<u32>) {
    InstrAt(at, p, PushI32(EntryOf(fns, entry))) && InstrAt(at, p + 5, PushI32(argc)) &&
    InstrAt(at, p + 10, Instr.Call) && InstrAt(at, p + 11, Halt)
  }

  lemma {:induction false} FunctionsLaid(at: Listing, prog: Program, n: nat, fns: seq<u32>)
    requires n <= |prog| && forall i :: 0 <= i < |prog| ==> LeapsInSeq(prog[i].body, false, false)
    ensures BOOT_SIZE + TotalWidth(FunctionsCode(prog, n, fns)) == StartOf(prog, n)
    ensures Lays(at, BOOT_SIZE, FunctionsCode(prog, n, fns)) ==>
            forall i :: 0 <= i < n ==> FunctionAt(at, StartOf(prog, i), prog[i], fns)
    decreases n
  {
    hide Lays, TotalWidth, FunctionAt, FunctionCode, SizeFunction, LeapsInSeq;
    if n == 0 {
      LaysNone(at, BOOT_SIZE);
    } else {
      var p := StartOf(prog, n - 1);
      FunctionsLaid(at, prog, n - 1, fns);
      FunctionLaid(at, p, prog[n - 1], fns);
      LaysSplit(at, BOOT_SIZE, FunctionsCode(prog, n - 1, fns), FunctionCode(p, prog[n - 1], fns));
    }
  }

  /** The one-pass emitter's program is laid out as every construct's layout asks. */
  lemma ProgramLaid(at: Listing, prog: Program, entry: nat, argc: u32)
    requires forall i :: 0 <= i < |prog| ==> LeapsInSeq(prog[i].body, false, false)
    ensures TotalWidth(ProgramText(prog, entry, argc)) == StartOf(prog, |prog|)
    ensures Lays(at, 0, ProgramText(prog, entry, argc)) ==>
            BootAt(at, 0, entry, argc, EntryPoints(prog)) &&
            forall i :: 0 <= i < |prog| ==> FunctionAt(at, StartOf(prog, i), prog[i], EntryPoints(prog))
  {
    hide Lays, TotalWidth, FunctionAt, FunctionCode, SizeFunction, LeapsInSeq, FunctionsCode, EntryOf;
    var fns := EntryPoints(prog);
    FunctionsLaid(at, prog, |prog|, fns);
    LaysFour(at, 0, PushI32(EntryOf(fns, entry)), PushI32(argc), Instr.Call, Halt);
    LaysSplit(at, 0, BootCode(entry, argc, fns), FunctionsCode(prog, |prog|, fns));
  }
}
