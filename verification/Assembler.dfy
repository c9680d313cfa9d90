/** The code generator: one pass over the syntax tree that appends bytes, leaves
    holes for the addresses it does not know yet, and fills them from stacks of
    patch lists.  Beside the bytes it keeps a plan of what the one-pass emitter
    would have written; at the end the two are the same. */
module Assembler {
  import opened Options
  import opened Words
  import opened Instructions
  import opened Syntax
  import opened VirtualMachine
  import opened Calls
  import opened CodeLayout
  import opened OnePass
  import opened Patching

  /** What a statement's parent links tell: the slots between it and the
      enclosing loop or switch, and the chain a return climbs. */
  datatype Scope = Scope(brk: Option<seq<u32>>, cont: Option<seq<u32>>, chain: Chain)

  datatype Link = Link(index: nat, fn: nat)

  function Outward(slots: seq<u32>, more: Option<seq<u32>>): Option<seq<u32>> {
    if more.None? then None else Some(slots + more.value)
  }

  function InnerScope(scope: Scope, slots: seq<u32>): Scope {
    Scope(Outward(slots, scope.brk), Outward(slots, scope.cont), InBlock(slots, scope.chain))
  }

  const LOOP_SCOPE := Scope(Some([]), Some([]), Detached)
  const SWITCH_SCOPE := Scope(Some([]), None, Detached)

  function FinallyScope(chain: Chain): Scope {
    Scope(None, None, chain)
  }

  function TryScope(scope: Scope, fin: Option<Stmts>): Scope {
    if fin.None? then scope else scope.(chain := InTry(fin.value, scope.chain))
  }

  function Last<T>(s: seq<T>): T
    requires s != []
  {
    s[|s| - 1]
  }

  function Front<T>(s: seq<T>): seq<T>
    requires s != []
  {
    s[..|s| - 1]
  }

  /** Append to the topmost patch list. */
  function Noting(lists: seq<seq<nat>>, h: nat): seq<seq<nat>>
    requires lists != []
  {
    lists[|lists| - 1 := Last(lists) + [h]]
  }

  predicate IsLeaf(e: Expr) {
    e.IntLit? || e.BoolLit? || e.Null? || e.Local? || e.IncDec?
  }

  predicate IsSimple(s: Stmt) {
    s.Skip? || s.VarDecl? || s.ExprStmt? || s.Break? || s.Continue? || s.Return? || s.Throw?
  }

  predicate IsStore(e: Expr) {
    e.Assign? || e.AssignOp? || e.AssignRef?
  }

  // ------------------------------------------------------ the patch lists' invariant

  predicate InLists(lists: seq<seq<nat>>, h: int) {
    exists i :: 0 <= i < |lists| && exists j :: 0 <= j < |lists[i]| && lists[i][j] == h
  }

  predicate InLinks(links: seq<Link>, h: int) {
    exists i :: 0 <= i < |links| && links[i].index == h
  }

  /** Every hole of a list is meant to hold the list's target, except a parked one
      at the very end. */
  ghost predicate Tracked(lists: seq<seq<nat>>, targets: seq<u32>, truth: seq<u8>, parked: bool) {
    |lists| == |targets| &&
    forall i, j :: 0 <= i < |lists| && 0 <= j < |lists[i]| && !(parked && AtVeryEnd(lists, i, j)) ==>
      Reads(truth, lists[i][j], targets[i])
  }

  predicate AtVeryEnd(lists: seq<seq<nat>>, i: int, j: int)
    requires 0 <= i < |lists|
  {
    i == |lists| - 1 && j == |lists[i]| - 1
  }

  ghost predicate LinksTracked(links: seq<Link>, truth: seq<u8>, fns: seq<u32>) {
    forall i :: 0 <= i < |links| ==> Reads(truth, links[i].index, EntryOf(fns, links[i].fn))
  }

  predicate LinksIn(links: seq<Link>, limit: Option<nat>) {
    forall i :: 0 <= i < |links| ==> Known(limit, links[i].fn)
  }

  /** Every pending hole is remembered somewhere, and every list knows its holes. */
  ghost predicate ListsOk(breaks: seq<seq<nat>>, continues: seq<seq<nat>>, cleanups: seq<seq<nat>>, links: seq<Link>,
                          pl: Plan, fns: seq<u32>)
  {
    Tracked(breaks, pl.brk, pl.truth, false) && Tracked(continues, pl.cont, pl.truth, false) &&
    Tracked(cleanups, pl.clean, pl.truth, pl.parked) && LinksTracked(links, pl.truth, fns) &&
    forall h :: h in pl.pending ==>
      h in pl.open || InLists(breaks, h) || InLists(continues, h) || InLists(cleanups, h) || InLinks(links, h)
  }

  /** What a visit gives back as it found it. */
  ghost predicate Kept(a: Plan, b: Plan) {
    b.brk == a.brk && b.cont == a.cont && b.clean == a.clean && b.open == a.open && b.parked == a.parked
  }

  /** New holes that the running visit has to remember. */
  ghost predicate Opened(a: Plan, b: Plan, holes: set<int>) {
    b.brk == a.brk && b.cont == a.cont && b.clean == a.clean && b.parked == a.parked &&
    b.open == a.open + holes && holes !! a.open
  }

  class Assembler {
    var code: seq<u8>
    var breaks: seq<seq<nat>>
    var continues: seq<seq<nat>>
    var cleanups: seq<seq<nat>>
    var links: seq<Link>
    var functionIps: map<nat, u32>
    ghost const fns: seq<u32>          // where each function is going to start
    ghost const limit: Option<nat>     // functions above which are not called
    ghost var plan: Plan

    ghost predicate Valid()
      reads this
    {
      Sound(code, plan) && ListsOk(breaks, continues, cleanups, links, plan, fns) && Consistent(plan) && |code| == |plan.truth| &&
      |breaks| == |plan.brk| && |continues| == |plan.cont| && |cleanups| == |plan.clean| && LinksIn(links, limit)
    }

    constructor (ghost fns: seq<u32>, ghost limit: Option<nat>)
      ensures Valid() && this.fns == fns && this.limit == limit && code == [] && plan == EMPTY_PLAN && functionIps == map[]
      ensures breaks == [] && continues == [] && cleanups == [] && links == []
    {
      this.fns, this.limit := fns, limit;
      code, breaks, continues, cleanups, links, functionIps := [], [], [], [], [], map[];
      plan := EMPTY_PLAN;
    }

    // ------------------------------------------------------------------ emission

    /** emit_byte and the emit_int calls of one instruction; a target that it names
        must be behind, or be this very instruction. */
    method Emit(i: Instr)
      requires Valid() && forall t :: t in Targets(i) ==> t as nat in plan.at || t == |code|
      modifies `code, `plan
      ensures Valid() && Kept(old(plan), plan) && !plan.atLabel
      ensures |code| == old(|code|) + Width(i) && plan.text == old(plan.text) + [i]
    {
      hide Sound, ListsOk, Encode, LabelsOk, Consistent, Targets, Emitted;
      var b := Encode(i);
      BehindOk(plan, i);
      EmitSound(code, plan, i, {}, b);
      EmitKeeps(code + b, breaks, continues, cleanups, links, plan, i, {}, fns);
      code := code + b;
      plan := Emitted(plan, i, {});
    }

    /** An instruction whose one operand is not known yet. */
    method EmitHole(op: u8, ghost i: Instr, ghost t: u32) returns (h: nat)
      requires Valid() && op == Opcode(i) && Operands(i) == BigEndian32(t)
      requires i == Jump(t) || i == JumpIfFalse(t) || i == JumpIfTrue(t) || i == ThrowException(t) || i == PushI32(t)
      modifies `code, `plan
      ensures Valid() && Opened(old(plan), plan, {h}) && Reads(plan.truth, h, t)
      ensures h == old(|code|) + 1 && |code| == old(|code|) + 5 && plan.text == old(plan.text) + [i]
    {
      hide Sound, ListsOk, Encode, Operands, Opcode, Consistent, Emitted, BigEndian32, Reads;
      h := |code| + 1;
      HoleSound(code, plan, op, i, t);
      var b := [op] + BigEndian32(HOLE);
      EmitKeeps(code + b, breaks, continues, cleanups, links, plan, i, {h as int}, fns);
      code := code + b;
      plan := Emitted(plan, i, {h as int});
    }

    method EmitJump(ghost t: u32) returns (h: nat)
      requires Valid()
      modifies `code, `plan
      ensures Valid() && Opened(old(plan), plan, {h}) && Reads(plan.truth, h, t)
      ensures h == old(|code|) + 1 && |code| == old(|code|) + 5 && plan.text == old(plan.text) + [Jump(t)]
    {
      hide Sound, ListsOk, Consistent, Reads, BigEndian32;
      h := EmitHole(48, Jump(t), t);
    }

    /** JUMP_IF_FALSE or JUMP_IF_TRUE. */
    method EmitBranch(onZero: bool, ghost t: u32) returns (h: nat)
      requires Valid()
      modifies `code, `plan
      ensures Valid() && Opened(old(plan), plan, {h}) && Reads(plan.truth, h, t)
      ensures h == old(|code|) + 1 && |code| == old(|code|) + 5
      ensures plan.text == old(plan.text) + [if onZero then JumpIfFalse(t) else JumpIfTrue(t)]
    {
      hide Sound, ListsOk, Consistent, Reads, BigEndian32;
      h := EmitHole(if onZero then 49 else 50, if onZero then JumpIfFalse(t) else JumpIfTrue(t), t);
    }

    /** REGISTER_RETURN_CLEANUP: the return address is filled in after the call, the
        cleanup by the enclosing block. */
    method EmitRegister(ghost ret: u32, ghost cleanup: u32) returns (h: nat)
      requires Valid()
      modifies `code, `plan
      ensures Valid() && Opened(old(plan), plan, {h, h + 4}) && Reads(plan.truth, h, ret) && Reads(plan.truth, h + 4, cleanup)
      ensures |code| == old(|code|) + 9 && plan.text == old(plan.text) + [RegisterReturnCleanup(ret, cleanup)]
    {
      hide Sound, ListsOk, Encode, Operands, Opcode, Consistent, Emitted, BigEndian32, Reads;
      h := |code| + 1;
      ghost var i := RegisterReturnCleanup(ret, cleanup);
      ghost var holes: set<int> := {h, h + 4};
      var b: seq<u8> := [82] + BigEndian32(0) + BigEndian32(HOLE);
      RegisterSound(code, plan, ret, cleanup);
      EmitKeeps(code + b, breaks, continues, cleanups, links, plan, i, holes, fns);
      code := code + b;
      plan := Emitted(plan, i, holes);
    }

    /** Fill a hole that a visit remembers or a list holds. */
    method Patch(h: nat, t: u32)
      requires Valid() && Reads(plan.truth, h, t) && (t as nat in plan.at || t == |code|)
      modifies `code, `plan
      ensures Valid() && |code| == old(|code|) && plan == Filled(old(plan), h, t)
    {
      hide Sound, ListsOk, Reads;
      PatchSound(code, plan, h, t);
      ListsFilled(breaks, continues, cleanups, links, plan, h, t, fns);
      code := Patched(code, h, t);
      plan := Filled(plan, h, t);
    }

    /** Fill a hole that the running visit remembers. */
    method Resolve(h: nat, t: u32)
      requires Valid() && Reads(plan.truth, h, t) && (t as nat in plan.at || t == |code|)
      modifies `code, `plan
      ensures Valid() && |code| == old(|code|)
      ensures plan.text == old(plan.text) && plan.truth == old(plan.truth) && plan.at == old(plan.at)
      ensures Kept(old(plan).(open := old(plan).open - {h}), plan)
    {
      hide Sound, ListsOk, Reads, Consistent;
      Patch(h, t);
      ghost var pl1 := plan.(open := plan.open - {h});
      ForgetFilled(code, breaks, continues, cleanups, links, plan, pl1, h, fns);
      plan := pl1;
    }

    method PatchAll(holes: seq<nat>, t: u32)
      requires Valid() && (t as nat in plan.at || t == |code|)
      requires forall i :: 0 <= i < |holes| ==> Reads(plan.truth, holes[i], t)
      modifies `code, `plan
      ensures Valid() && |code| == old(|code|)
      ensures plan == old(plan).(pending := plan.pending, atLabel := plan.atLabel) && plan.pending <= old(plan.pending)
      ensures forall i :: 0 <= i < |holes| ==> holes[i] !in plan.pending
    {
      hide Sound, ListsOk, Consistent;
      ghost var before := plan;
      for k := 0 to |holes|
        invariant Valid() && |code| == old(|code|)
        invariant plan == before.(pending := plan.pending, atLabel := plan.atLabel) && plan.pending <= before.pending
        invariant forall i :: 0 <= i < k ==> holes[i] !in plan.pending
      {
        Patch(holes[k], t);
      }
    }

    method OpenBreaks(ghost t: u32)
      requires Valid()
      modifies `breaks, `plan
      ensures Valid() && breaks == old(breaks) + [[]] && plan == old(plan).(brk := old(plan.brk) + [t])
    {
      hide Sound, Reads;
      ghost var pl1 := plan.(brk := plan.brk + [t]);
      SoundAnyLists(code, plan, pl1);
      KeepInLists(breaks, breaks + [[]]) by { assert forall i :: 0 <= i < |breaks| ==> (breaks + [[]])[i] == breaks[i]; }
      breaks := breaks + [[]];
      plan := pl1;
    }

    /** Hand a hole over to the topmost list. */
    method NoteBreak(h: nat)
      requires Valid() && breaks != []
      requires plan.brk != [] && Reads(plan.truth, h, Last(plan.brk))
      modifies `breaks, `plan
      ensures Valid() && breaks == Noting(old(breaks), h)
      ensures plan == old(plan).(open := old(plan.open) - {h})
    {
      hide Sound, Reads;
      ghost var pl1 := plan.(open := plan.open - {h});
      SoundAnyLists(code, plan, pl1);
      NotedInLists(breaks, h);
      TrackedNoting(breaks, plan.brk, plan.truth, false, h);
      breaks := Noting(breaks, h);
      plan := pl1;
    }

    /** Fill the topmost list's holes and drop the list. */
    method CloseBreaks(t: u32)
      requires Valid() && breaks != [] && plan.brk != [] && Last(plan.brk) == t && (t as nat in plan.at || t == |code|)
      modifies `code, `breaks, `plan
      ensures Valid() && |code| == old(|code|) && breaks == Front(old(breaks))
      ensures plan == old(plan).(brk := Front(old(plan.brk)), pending := plan.pending, atLabel := plan.atLabel)
    {
      hide Sound, Reads;
      TrackedLast(breaks, plan.brk, plan.truth, t);
      PatchAll(Last(breaks), t);
      ghost var pl1 := plan.(brk := Front(plan.brk));
      SoundAnyLists(code, plan, pl1);
      FrontInLists(breaks);
      breaks := Front(breaks);
      plan := pl1;
    }

    method OpenContinues(ghost t: u32)
      requires Valid()
      modifies `continues, `plan
      ensures Valid() && continues == old(continues) + [[]] && plan == old(plan).(cont := old(plan.cont) + [t])
    {
      hide Sound, Reads;
      ghost var pl1 := plan.(cont := plan.cont + [t]);
      SoundAnyLists(code, plan, pl1);
      KeepInLists(continues, continues + [[]]) by { assert forall i :: 0 <= i < |continues| ==> (continues + [[]])[i] == continues[i]; }
      continues := continues + [[]];
      plan := pl1;
    }

    /** Hand a hole over to the topmost list. */
    method NoteContinue(h: nat)
      requires Valid() && continues != []
      requires plan.cont != [] && Reads(plan.truth, h, Last(plan.cont))
      modifies `continues, `plan
      ensures Valid() && continues == Noting(old(continues), h)
      ensures plan == old(plan).(open := old(plan.open) - {h})
    {
      hide Sound, Reads;
      ghost var pl1 := plan.(open := plan.open - {h});
      SoundAnyLists(code, plan, pl1);
      NotedInLists(continues, h);
      TrackedNoting(continues, plan.cont, plan.truth, false, h);
      continues := Noting(continues, h);
      plan := pl1;
    }

    /** Fill the topmost list's holes and drop the list. */
    method CloseContinues(t: u32)
      requires Valid() && continues != [] && plan.cont != [] && Last(plan.cont) == t && (t as nat in plan.at || t == |code|)
      modifies `code, `continues, `plan
      ensures Valid() && |code| == old(|code|) && continues == Front(old(continues))
      ensures plan == old(plan).(cont := Front(old(plan.cont)), pending := plan.pending, atLabel := plan.atLabel)
    {
      hide Sound, Reads;
      TrackedLast(continues, plan.cont, plan.truth, t);
      PatchAll(Last(continues), t);
      ghost var pl1 := plan.(cont := Front(plan.cont));
      SoundAnyLists(code, plan, pl1);
      FrontInLists(continues);
      continues := Front(continues);
      plan := pl1;
    }

    method OpenCleanups(ghost t: u32)
      requires Valid() && !plan.parked
      modifies `cleanups, `plan
      ensures Valid() && cleanups == old(cleanups) + [[]] && plan == old(plan).(clean := old(plan.clean) + [t])
    {
      hide Sound, Reads;
      ghost var pl1 := plan.(clean := plan.clean + [t]);
      SoundAnyLists(code, plan, pl1);
      KeepInLists(cleanups, cleanups + [[]]) by { assert forall i :: 0 <= i < |cleanups| ==> (cleanups + [[]])[i] == cleanups[i]; }
      cleanups := cleanups + [[]];
      plan := pl1;
    }

    /** Hand a hole over to the topmost list. */
    method NoteCleanup(h: nat, ghost parked: bool)
      requires Valid() && cleanups != [] && !plan.parked
      requires !parked ==> plan.clean != [] && Reads(plan.truth, h, Last(plan.clean))
      modifies `cleanups, `plan
      ensures Valid() && cleanups == Noting(old(cleanups), h)
      ensures plan == old(plan).(open := old(plan.open) - {h}, parked := parked)
    {
      hide Sound, Reads;
      ghost var pl1 := plan.(open := plan.open - {h}, parked := parked);
      SoundAnyLists(code, plan, pl1);
      NotedInLists(cleanups, h);
      TrackedNoting(cleanups, plan.clean, plan.truth, parked, h);
      cleanups := Noting(cleanups, h);
      plan := pl1;
    }

    /** Fill the topmost list's holes and drop the list. */
    method CloseCleanups(t: u32)
      requires Valid() && cleanups != [] && plan.clean != [] && Last(plan.clean) == t && (t as nat in plan.at || t == |code|) && !plan.parked
      modifies `code, `cleanups, `plan
      ensures Valid() && |code| == old(|code|) && cleanups == Front(old(cleanups))
      ensures plan == old(plan).(clean := Front(old(plan.clean)), pending := plan.pending, atLabel := plan.atLabel)
    {
      hide Sound, Reads;
      TrackedLast(cleanups, plan.clean, plan.truth, t);
      PatchAll(Last(cleanups), t);
      ghost var pl1 := plan.(clean := Front(plan.clean));
      SoundAnyLists(code, plan, pl1);
      FrontInLists(cleanups);
      cleanups := Front(cleanups);
      plan := pl1;
    }

    /** Leave a call target to the linker. */
    method NoteLink(h: nat, fn: nat)
      requires Known(limit, fn)
      requires Valid() && Reads(plan.truth, h, EntryOf(fns, fn))
      modifies `links, `plan
      ensures Valid() && plan == old(plan).(open := old(plan.open) - {h})
    {
      hide Sound, Reads;
      ghost var pl1 := plan.(open := plan.open - {h});
      SoundAnyLists(code, plan, pl1);
      NotedLink(links, h, fn);
      links := links + [Link(h, fn)];
      plan := pl1;
    }

    // --------------------------------------------------------------- expressions

    /** Ready to compile code whose exceptions go to env's cleanup. */
    ghost predicate Ready(env: Env)
      reads this
    {
      Valid() && !plan.parked && plan.clean != [] && env.cleanup == Last(plan.clean) && env.fns == fns && ChainCallsIn(limit, env.chain)
    }

    /** emit_conv_for_type. */
    method EmitConv(c: Conv)
      requires Valid()
      modifies `code, `plan
      ensures Valid() && Kept(old(plan), plan)
      ensures |code| == old(|code|) + ConvSize(c) && plan.text == old(plan.text) + ConvCode(c)
    {
      hide Sound, ListsOk, Consistent;
      if c != Keep { Emit(Convert(c)); }
    }

    method EmitIncRef(emitted: bool)
      requires Valid()
      modifies `code, `plan
      ensures Valid() && Kept(old(plan), plan)
      ensures |code| == old(|code|) + FlagSize(emitted) && plan.text == old(plan.text) + IncRefCode(emitted)
    {
      hide Sound, ListsOk, Consistent;
      if emitted { Emit(IncRef); }
    }

    method CompileExpr(e: Expr, ghost env: Env)
      requires CallsIn(limit, e)
      requires Ready(env) && |code| + SizeExpr(e) < HOLE
      modifies `code, `cleanups, `links, `plan
      ensures Ready(env) && Kept(old(plan), plan)
      ensures |code| == old(|code|) + SizeExpr(e) && plan.text == old(plan.text) + ExprCode(old(|code|), e, env)
      decreases e, 2
    {
      hide Sound, ListsOk, Consistent, ExprCode, SizeExpr;
      if IsLeaf(e) {
        CompileLeaf(e, env);
      } else if IsStore(e) {
        CompileStore(e, env);
      } else if e.Invoke? || e.New? {
        CompileCreation(e, env);
      } else {
        CompileOperator(e, env);
      }
    }

    method CompileLeaf(e: Expr, ghost env: Env)
      requires Ready(env) && |code| + SizeExpr(e) < HOLE && IsLeaf(e)
      modifies `code, `cleanups, `links, `plan
      ensures Ready(env) && Kept(old(plan), plan)
      ensures |code| == old(|code|) + SizeExpr(e) && plan.text == old(plan.text) + ExprCode(old(|code|), e, env)
      decreases e, 1
    {
      hide Sound, ListsOk, Consistent, Targets, ShortCircuitCode, TernaryCode, ApplyStoreCode, StoreRefCode, IncDecCode, NewHead, ArgsCode,
           CallCode, SizeArgs, ConvCode;
      match e
      case IntLit(v) => EmitLeaf(PushI64(v));
      case BoolLit(b) => EmitLeaf(if b then PushTrue else PushFalse);
      case Null => EmitLeaf(PushNull);
      case Local(slot) => EmitLeaf(GetLocal(slot));
      case IncDec(slot, up, prefix) => EmitIncDec(slot, up, prefix);
    }

    method CompileOperator(e: Expr, ghost env: Env)
      requires CallsIn(limit, e)
      requires Ready(env) && |code| + SizeExpr(e) < HOLE && !IsLeaf(e) && !IsStore(e) && !e.Invoke? && !e.New?
      modifies `code, `cleanups, `links, `plan
      ensures Ready(env) && Kept(old(plan), plan)
      ensures |code| == old(|code|) + SizeExpr(e) && plan.text == old(plan.text) + ExprCode(old(|code|), e, env)
      decreases e, 1
    {
      hide Sound, ListsOk, Consistent, Targets, ShortCircuitCode, TernaryCode, ApplyStoreCode, StoreRefCode, IncDecCode, NewHead, ArgsCode,
           CallCode, SizeArgs, ConvCode;
      match e
      case Arith(_, _, _) => CompileArith(e, env);
      case And(_, _) => CompileShortCircuit(e, env);
      case Or(_, _) => CompileShortCircuit(e, env);
      case Not(x) =>
        CompileExpr(x, env);
        EmitLeaf(LogicalNot);
      case Negate(_, _) => CompileNegate(e, env);
      case Ternary(_, _, _, _) => CompileTernary(e, env);
    }

    method CompileStore(e: Expr, ghost env: Env)
      requires CallsIn(limit, e)
      requires Ready(env) && |code| + SizeExpr(e) < HOLE && IsStore(e)
      modifies `code, `cleanups, `links, `plan
      ensures Ready(env) && Kept(old(plan), plan)
      ensures |code| == old(|code|) + SizeExpr(e) && plan.text == old(plan.text) + ExprCode(old(|code|), e, env)
      decreases e, 1
    {
      hide Sound, ListsOk, Consistent, Targets, ShortCircuitCode, TernaryCode, ApplyStoreCode, StoreRefCode, IncDecCode, NewHead, ArgsCode,
           CallCode, SizeArgs, ConvCode;
      match e
      case Assign(_, _, _) => CompileAssign(e, env);
      case AssignOp(_, _, _, _) => CompileAssignOp(e, env);
      case AssignRef(slot, x) =>
        CompileExpr(x, env);
        EmitStoreRef(slot, !ProducesRetained(x));
    }

    method CompileCreation(e: Expr, ghost env: Env)
      requires CallsIn(limit, e)
      requires Ready(env) && |code| + SizeExpr(e) < HOLE && (e.Invoke? || e.New?)
      modifies `code, `cleanups, `links, `plan
      ensures Ready(env) && Kept(old(plan), plan)
      ensures |code| == old(|code|) + SizeExpr(e) && plan.text == old(plan.text) + ExprCode(old(|code|), e, env)
      decreases e, 1
    {
      hide Sound, ListsOk, Consistent, Targets, ShortCircuitCode, TernaryCode, ApplyStoreCode, StoreRefCode, IncDecCode, NewHead, ArgsCode,
           CallCode, SizeArgs, ConvCode;
      match e
      case Invoke(fn, args) =>
        CompileArgs(args, env);
        EmitCall(fn, ArgCount(args), env);
      case New(_, _, _, _) => CompileNew(e, env);
    }

    /** An instruction that names no target. */
    method EmitLeaf(i: Instr)
      requires Valid() && (i.PushI64? || i.PushTrue? || i.PushFalse? || i.PushNull? || i.GetLocal? || i.LogicalNot?)
      modifies `code, `plan
      ensures Valid() && Kept(old(plan), plan) && plan.text == old(plan.text) + [i]
      ensures |code| == old(|code|) + (if i.PushI64? then 9 else if i.GetLocal? then 5 else 1)
    {
      hide Sound, ListsOk, Consistent;
      Emit(i);
    }

    method CompileArith(e: Expr, ghost env: Env)
      requires CallsIn(limit, e)
      requires Ready(env) && e.Arith? && |code| + SizeExpr(e.left) + SizeExpr(e.right) + 1 < HOLE
      modifies `code, `cleanups, `links, `plan
      ensures Ready(env) && Kept(old(plan), plan) && |code| == old(|code|) + SizeExpr(e.left) + SizeExpr(e.right) + 1
      ensures plan.text == old(plan.text) + (ExprCode(old(|code|), e.left, env) + ExprCode(old(|code|) + SizeExpr(e.left), e.right, env) + [Binary(e.op)])
      decreases e, 0
    {
      hide Sound, ListsOk, Consistent, SizeExpr, ExprCode, ApplyStoreCode, StoreRefCode, NewHead, ArgsCode, CallCode, SizeArgs, ConvCode;
      CompileExpr(e.left, env);
      CompileExpr(e.right, env);
      Emit(Binary(e.op));
    }

    method CompileNegate(e: Expr, ghost env: Env)
      requires CallsIn(limit, e)
      requires Ready(env) && e.Negate? && |code| + SizeExpr(e.operand) + 1 + ConvSize(e.conv) < HOLE
      modifies `code, `cleanups, `links, `plan
      ensures Ready(env) && Kept(old(plan), plan) && |code| == old(|code|) + SizeExpr(e.operand) + 1 + ConvSize(e.conv)
      ensures plan.text == old(plan.text) + (ExprCode(old(|code|), e.operand, env) + [NegateI64] + ConvCode(e.conv))
      decreases e, 0
    {
      hide Sound, ListsOk, Consistent, SizeExpr, ExprCode, ApplyStoreCode, StoreRefCode, NewHead, ArgsCode, CallCode, SizeArgs, ConvCode;
      CompileExpr(e.operand, env);
      Emit(NegateI64);
      EmitConv(e.conv);
    }

    method CompileAssign(e: Expr, ghost env: Env)
      requires CallsIn(limit, e)
      requires Ready(env) && e.Assign? && |code| + SizeExpr(e.rhs) + 1 + ConvSize(e.conv) + 5 < HOLE
      modifies `code, `cleanups, `links, `plan
      ensures Ready(env) && Kept(old(plan), plan) && |code| == old(|code|) + SizeExpr(e.rhs) + 1 + ConvSize(e.conv) + 5
      ensures plan.text == old(plan.text) + (ExprCode(old(|code|), e.rhs, env) + [Dup] + ConvCode(e.conv) + [SetLocal(e.slot)])
      decreases e, 0
    {
      hide Sound, ListsOk, Consistent, SizeExpr, ExprCode, ApplyStoreCode, StoreRefCode, NewHead, ArgsCode, CallCode, SizeArgs, ConvCode;
      CompileExpr(e.rhs, env);
      Emit(Dup);
      EmitConv(e.conv);
      Emit(SetLocal(e.slot));
    }

    method CompileAssignOp(e: Expr, ghost env: Env)
      requires CallsIn(limit, e)
      requires Ready(env) && e.AssignOp? && |code| + 5 + SizeExpr(e.rhs) + 7 + ConvSize(e.conv) < HOLE
      modifies `code, `cleanups, `links, `plan
      ensures Ready(env) && Kept(old(plan), plan) && |code| == old(|code|) + 5 + SizeExpr(e.rhs) + 7 + ConvSize(e.conv)
      ensures plan.text == old(plan.text) + ([GetLocal(e.slot)] + ExprCode(old(|code|) + 5, e.rhs, env) + ApplyStoreCode(e.op, e.slot, e.conv))
      decreases e, 0
    {
      hide Sound, ListsOk, Consistent, SizeExpr, ExprCode, ApplyStoreCode, StoreRefCode, NewHead, ArgsCode, CallCode, SizeArgs, ConvCode;
      Emit(GetLocal(e.slot));
      CompileExpr(e.rhs, env);
      EmitApplyStore(e.op, e.slot, e.conv);
    }

    method CompileNew(e: Expr, ghost env: Env)
      requires CallsIn(limit, e)
      requires Ready(env) && e.New? && |code| + 14 + SizeArgs(e.args) + CALL_SIZE + 1 < HOLE
      modifies `code, `cleanups, `links, `plan
      ensures Ready(env) && Kept(old(plan), plan) && |code| == old(|code|) + 14 + SizeArgs(e.args) + CALL_SIZE + 1
      ensures plan.text == old(plan.text) + (NewHead(e.classId, e.size) + ArgsCode(old(|code|) + 14, e.args, env) + CallCode(old(|code|) + 14 + SizeArgs(e.args), e.ctor, ArgCount(e.args) + 1, env) + [Pop])
      decreases e, 0
    {
      hide Sound, ListsOk, Consistent, SizeExpr, ExprCode, ApplyStoreCode, StoreRefCode, NewHead, ArgsCode, CallCode, SizeArgs, ConvCode;
      EmitNewHead(e.classId, e.size);
      CompileArgs(e.args, env);
      EmitCall(e.ctor, ArgCount(e.args) + 1, env);
      Emit(Pop);
    }

    method EmitStoreRef(slot: u32, retain: bool)
      requires Valid()
      modifies `code, `plan
      ensures Valid() && Kept(old(plan), plan)
      ensures |code| == old(|code|) + FlagSize(retain) + 7 + RELEASE_SIZE && plan.text == old(plan.text) + StoreRefCode(slot, retain)
    {
      hide Sound, ListsOk, Consistent, SlotMask;
      EmitIncRef(retain);
      Emit(IncRef);
      Emit(Dup);
      Emit(DecRefSlot(slot, SlotMask(slot)));
      Emit(SetLocal(slot));
    }

    method EmitApplyStore(op: BinOp, slot: u32, conv: Conv)
      requires Valid()
      modifies `code, `plan
      ensures Valid() && Kept(old(plan), plan)
      ensures |code| == old(|code|) + 7 + ConvSize(conv) && plan.text == old(plan.text) + ApplyStoreCode(op, slot, conv)
    {
      hide Sound, ListsOk, Consistent, ConvCode;
      Emit(Binary(op));
      Emit(Dup);
      EmitConv(conv);
      Emit(SetLocal(slot));
    }

    method CompileKept(e: Expr, retain: bool, ghost env: Env)
      requires CallsIn(limit, e)
      requires Ready(env) && |code| + SizeExpr(e) + FlagSize(retain) < HOLE
      modifies `code, `cleanups, `links, `plan
      ensures Ready(env) && Kept(old(plan), plan)
      ensures |code| == old(|code|) + SizeExpr(e) + FlagSize(retain) && plan.text == old(plan.text) + KeptCode(old(|code|), e, retain, env)
      decreases e, 3
    {
      hide Sound, ListsOk, Consistent, ExprCode, SizeExpr, IncRefCode;
      CompileExpr(e, env);
      EmitIncRef(retain);
    }

    method EmitIncDec(slot: u32, up: bool, prefix: bool)
      requires Valid()
      modifies `code, `plan
      ensures Valid() && Kept(old(plan), plan)
      ensures |code| == old(|code|) + 12 && plan.text == old(plan.text) + IncDecCode(slot, up, prefix)
    {
      hide Sound, ListsOk, Consistent;
      var change := if up then Increment else Decrement;
      Emit(GetLocal(slot));
      if prefix {
        Emit(change);
        Emit(Dup);
      } else {
        Emit(Dup);
        Emit(change);
      }
      Emit(SetLocal(slot));
    }

    method EmitNewHead(id: u32, size: u32)
      requires Valid()
      modifies `code, `plan
      ensures Valid() && Kept(old(plan), plan)
      ensures |code| == old(|code|) + 14 && plan.text == old(plan.text) + NewHead(id, size)
    {
      hide Sound, ListsOk, Consistent;
      Emit(PushI32(size));
      Emit(AllocDynamic(1));
      Emit(SetVtable(id));
      Emit(Dup);
      Emit(IncRef);
    }

    method CompileShortCircuit(e: Expr, ghost env: Env)
      requires CallsIn(limit, e)
      requires Ready(env) && (e.And? || e.Or?) && |code| + SizeExpr(e.left) + 7 + SizeExpr(e.right) < HOLE
      modifies `code, `cleanups, `links, `plan
      ensures Ready(env) && Kept(old(plan), plan)
      ensures |code| == old(|code|) + SizeExpr(e.left) + 7 + SizeExpr(e.right) && plan.text == old(plan.text) + ShortCircuitCode(old(|code|), e, env)
      decreases e, 0
    {
      hide Sound, ListsOk, Consistent, ExprCode, SizeExpr, Addr, Reads;
      ghost var end := Addr(|code| + SizeExpr(e.left) + 7 + SizeExpr(e.right));
      CompileExpr(e.left, env);
      Emit(Dup);
      var jump := EmitBranch(e.And?, end);
      ghost var a, q := plan, |code| + 1;
      Emit(Pop);
      CompileExpr(e.right, env);
      ReadsLater(a, plan, [Pop] + ExprCode(q, e.right, env), jump, end);
      AddrFits(|code|);
      Resolve(jump, |code|);
    }

    method CompileTernary(e: Expr, ghost env: Env)
      requires CallsIn(limit, e)
      requires Ready(env) && e.Ternary? && |code| + SizeTernary(e) < HOLE
      modifies `code, `cleanups, `links, `plan
      ensures Ready(env) && Kept(old(plan), plan)
      ensures |code| == old(|code|) + SizeTernary(e) && plan.text == old(plan.text) + TernaryCode(old(|code|), e, env)
      decreases e, 0
    {
      hide Sound, ListsOk, Consistent, ExprCode, KeptCode, TernaryCode, Reads, SizeExpr, RetainsFirst, Addr, ExprBelow;
      CallsInTernary(limit, e);
      var keepYes, keepNo := e.isRef && RetainsFirst(e.yes, e.no), e.isRef && RetainsFirst(e.no, e.yes);
      ghost var other := Addr(|code| + SizeExpr(e.cond) + 5 + SizeExpr(e.yes) + FlagSize(keepYes) + 5);
      ghost var end := Addr(|code| + SizeTernary(e));
      CompileExpr(e.cond, env);
      var toNo := EmitBranch(true, other);
      ghost var a, q := plan, |code|;
      CompileKept(e.yes, keepYes, env);
      var toEnd := EmitJump(end);
      ReadsLater(a, plan, KeptCode(q, e.yes, keepYes, env) + [Jump(end)], toNo, other);
      AddrFits(|code|);
      Resolve(toNo, |code|);
      ghost var b, q2 := plan, |code|;
      CompileKept(e.no, keepNo, env);
      ReadsLater(b, plan, KeptCode(q2, e.no, keepNo, env), toEnd, end);
      AddrFits(|code|);
      Resolve(toEnd, |code|);
      TernaryText(old(plan).text, old(|code|), e, env);
    }

    method CompileArgs(args: Args, ghost env: Env)
      requires ArgsCallIn(limit, args)
      requires Ready(env) && |code| + SizeArgs(args) < HOLE
      modifies `code, `cleanups, `links, `plan
      ensures Ready(env) && Kept(old(plan), plan)
      ensures |code| == old(|code|) + SizeArgs(args) && plan.text == old(plan.text) + ArgsCode(old(|code|), args, env)
      decreases args, 3
    {
      hide Sound, ListsOk, Consistent, KeptCode, SizeExpr, ArgsCode, SizeArgs;
      ArgsParts(|code|, args, env);
      if args.Arg? {
        CompileKept(args.e, args.isRef && !ProducesRetained(args.e), env);
        CompileArgs(args.rest, env);
      }
    }

    /** A static call: the target is the linker's, the cleanup the enclosing block's. */
    method EmitCall(fn: nat, argc: nat, ghost env: Env)
      requires Known(limit, fn)
      requires Ready(env) && |code| + CALL_SIZE < HOLE
      modifies `code, `cleanups, `links, `plan
      ensures Ready(env) && Kept(old(plan), plan)
      ensures |code| == old(|code|) + CALL_SIZE && plan.text == old(plan.text) + CallCode(old(|code|), fn, argc, env)
    {
      hide Sound, ListsOk, Consistent, Reads, EntryOf;
      ghost var ret := Addr(|code| + CALL_SIZE);
      var target := EmitHole(2, PushI32(EntryOf(fns, fn)), EntryOf(fns, fn));
      NoteLink(target, fn);
      Emit(PushI32(Addr(argc)));
      var h := EmitRegister(ret, env.cleanup);
      NoteCleanup(h + 4, false);
      ghost var a := plan;
      Emit(Instr.Call);
      ReadsLater(a, plan, [Instr.Call], h, ret);
      Resolve(h, |code|);
    }
    // ---------------------------------------------------------------- statements

    /** The scope is what env says, and the topmost lists lead where env does. */
    ghost predicate ScopeFits(scope: Scope, env: Env)
      reads this
    {
      scope.chain == env.chain && LeapFits(scope.brk, env.brk, plan.brk) && LeapFits(scope.cont, env.cont, plan.cont)
    }

    method EmitReleases(slots: seq<u32>)
      requires Valid()
      modifies `code, `plan
      ensures Valid() && Kept(old(plan), plan)
      ensures |code| == old(|code|) + SizeReleases(slots) && plan.text == old(plan.text) + ReleasesCode(slots)
      decreases |slots|
    {
      hide Sound, ListsOk, Consistent, SlotMask;
      if slots != [] {
        Emit(DecRefSlot(slots[0], SlotMask(slots[0])));
        EmitReleases(slots[1..]);
      }
    }

    method CompileStmt(s: Stmt, scope: Scope, ghost env: Env)
      requires StmtCallsIn(limit, s)
      requires Ready(env) && ScopeFits(scope, env) && LeapsFit(s, env) && |code| + SizeStmt(s, ShapeOf(env)) < HOLE
      modifies `code, `breaks, `continues, `cleanups, `links, `plan
      ensures Ready(env) && Kept(old(plan), plan)
      ensures |code| == old(|code|) + SizeStmt(s, ShapeOf(env)) && plan.text == old(plan.text) + StmtCode(old(|code|), s, env)
      decreases Weight(s) + ChainWeight(scope.chain), 4
    {
      hide Sound, ListsOk, Consistent, StmtCode, SizeStmt, LeapFits, LeapsFit, StmtBelow;
      if IsSimple(s) {
        CompileSimple(s, scope, env);
      } else {
        CompileCompound(s, scope, env);
      }
    }

    method CompileSimple(s: Stmt, scope: Scope, ghost env: Env)
      requires StmtCallsIn(limit, s) && IsSimple(s)
      requires Ready(env) && ScopeFits(scope, env) && LeapsFit(s, env) && |code| + SizeStmt(s, ShapeOf(env)) < HOLE
      modifies `code, `breaks, `continues, `cleanups, `links, `plan
      ensures Ready(env) && Kept(old(plan), plan)
      ensures |code| == old(|code|) + SizeStmt(s, ShapeOf(env)) && plan.text == old(plan.text) + StmtCode(old(|code|), s, env)
      decreases Weight(s) + ChainWeight(scope.chain), 3
    {
      hide Sound, ListsOk, Consistent, ExprCode, SizeExpr, DeclCode, SizeDecl, ChainCode, SizeChain, ResultCode, SizeResult, LeapCode, ReturnConv,
           LeapFits;
      match s
      case Skip =>
      case VarDecl(_, _, _, _) => CompileDecl(s, env);
      case ExprStmt(_, _) => CompileExprStmt(s, env);
      case Break => CompileBreak(scope, env);
      case Continue => CompileContinue(scope, env);
      case Return(_, _) => CompileReturn(s, scope, env);
      case Throw(_) => CompileThrow(s, env);
    }

    method CompileCompound(s: Stmt, scope: Scope, ghost env: Env)
      requires StmtCallsIn(limit, s) && !IsSimple(s)
      requires Ready(env) && ScopeFits(scope, env) && LeapsFit(s, env) && |code| + SizeStmt(s, ShapeOf(env)) < HOLE
      modifies `code, `breaks, `continues, `cleanups, `links, `plan
      ensures Ready(env) && Kept(old(plan), plan)
      ensures |code| == old(|code|) + SizeStmt(s, ShapeOf(env)) && plan.text == old(plan.text) + StmtCode(old(|code|), s, env)
      decreases Weight(s) + ChainWeight(scope.chain), 3
    {
      hide Sound, ListsOk, Consistent, ExprCode, SizeExpr, BlockCode, SizeBlock, IfCode, IfElseCode, SizeIf, SizeIfElse, LoopCode, DoCode, SwitchCode,
           TryCode, LeapFits;
      match s
      case Block(body) => CompileBlock(body, scope, env, env.cleanup, false);
      case If(_, _) => CompileIf(s, scope, env);
      case IfElse(_, _, _) => CompileIfElse(s, scope, env);
      case While(_, _) => CompileWhile(s, scope, env);
      case DoWhile(_, _) => CompileDo(s, scope, env);
      case For(_, _, _, _) => CompileFor(s, scope, env);
      case Switch(_, _) => CompileSwitch(s, scope, env);
      case Try(_, _, _) => CompileTry(s, scope, env);
    }

    method CompileDecl(s: Stmt, ghost env: Env)
      requires StmtCallsIn(limit, s)
      requires Ready(env) && s.VarDecl? && |code| + SizeDecl(s) < HOLE
      modifies `code, `cleanups, `links, `plan
      ensures Ready(env) && Kept(old(plan), plan)
      ensures |code| == old(|code|) + SizeDecl(s) && plan.text == old(plan.text) + DeclCode(old(|code|), s, env)
    {
      hide Sound, ListsOk, Consistent, ExprCode, SizeExpr, ConvCode, IncRefCode;
      if s.init.Some? {
        CompileExpr(s.init.value, env);
        EmitConv(s.conv);
        EmitIncRef(s.isRef && !ProducesRetained(s.init.value));
        Emit(SetLocal(s.slot));
      }
    }

    method CompileExprStmt(s: Stmt, ghost env: Env)
      requires StmtCallsIn(limit, s)
      requires Ready(env) && s.ExprStmt? && |code| + SizeExpr(s.e) + 1 < HOLE
      modifies `code, `cleanups, `links, `plan
      ensures Ready(env) && Kept(old(plan), plan)
      ensures |code| == old(|code|) + SizeExpr(s.e) + 1
      ensures plan.text == old(plan.text) + (ExprCode(old(|code|), s.e, env) + [if s.isRef then DecRef else Pop])
    {
      hide Sound, ListsOk, Consistent, ExprCode, SizeExpr;
      CompileExpr(s.e, env);
      Emit(if s.isRef then DecRef else Pop);
    }

    method CompileIf(s: Stmt, scope: Scope, ghost env: Env)
      requires StmtCallsIn(limit, s)
      requires Ready(env) && ScopeFits(scope, env) && s.If? && LeapsFit(s.thn, env) && |code| + SizeIf(s, ShapeOf(env)) < HOLE
      modifies `code, `breaks, `continues, `cleanups, `links, `plan
      ensures Ready(env) && Kept(old(plan), plan)
      ensures |code| == old(|code|) + SizeIf(s, ShapeOf(env)) && plan.text == old(plan.text) + IfCode(old(|code|), s, env)
      decreases Weight(s) + ChainWeight(scope.chain), 2
    {
      hide Sound, ListsOk, Consistent, ExprCode, StmtCode, SizeExpr, SizeStmt, Reads, LeapFits, LeapsFit, Addr;
      ghost var end := Addr(|code| + SizeIf(s, ShapeOf(env)));
      CompileExpr(s.cond, env);
      var toEnd := EmitBranch(true, end);
      ghost var a, q := plan, |code|;
      CompileStmt(s.thn, scope, env);
      ReadsLater(a, plan, StmtCode(q, s.thn, env), toEnd, end);
      AddrFits(|code|);
      Resolve(toEnd, |code|);
    }

    method CompileIfElse(s: Stmt, scope: Scope, ghost env: Env)
      requires StmtCallsIn(limit, s)
      requires Ready(env) && ScopeFits(scope, env) && s.IfElse? && LeapsFit(s.thn, env) && LeapsFit(s.els, env)
      requires |code| + SizeIfElse(s, ShapeOf(env)) < HOLE
      modifies `code, `breaks, `continues, `cleanups, `links, `plan
      ensures Ready(env) && Kept(old(plan), plan)
      ensures |code| == old(|code|) + SizeIfElse(s, ShapeOf(env)) && plan.text == old(plan.text) + IfElseCode(old(|code|), s, env)
      decreases Weight(s) + ChainWeight(scope.chain), 2
    {
      hide Sound, ListsOk, Consistent, ExprCode, StmtCode, SizeExpr, SizeStmt, Reads, LeapFits, LeapsFit, Addr;
      ghost var other := Addr(|code| + SizeExpr(s.cond) + 5 + SizeStmt(s.thn, ShapeOf(env)) + 5);
      ghost var end := Addr(|code| + SizeIfElse(s, ShapeOf(env)));
      CompileExpr(s.cond, env);
      var toElse := EmitBranch(true, other);
      ghost var a, q := plan, |code|;
      CompileStmt(s.thn, scope, env);
      var toEnd := EmitJump(end);
      ReadsLater(a, plan, StmtCode(q, s.thn, env) + [Jump(end)], toElse, other);
      AddrFits(|code|);
      Resolve(toElse, |code|);
      ghost var b, q2 := plan, |code|;
      CompileStmt(s.els, scope, env);
      ReadsLater(b, plan, StmtCode(q2, s.els, env), toEnd, end);
      AddrFits(|code|);
      Resolve(toEnd, |code|);
    }

    /** The guard of a loop; without one, nothing. */
    method CompileGuard(g: Option<Expr>, ghost end: u32, ghost env: Env) returns (toEnd: nat)
      requires OptCallsIn(limit, g)
      requires Ready(env) && |code| + SizeOpt(g, 5) < HOLE
      modifies `code, `cleanups, `links, `plan
      ensures Ready(env) && |code| == old(|code|) + SizeOpt(g, 5) && plan.text == old(plan.text) + GuardCode(old(|code|), g, end, env)
      ensures if g.Some? then Opened(old(plan), plan, {toEnd}) && Reads(plan.truth, toEnd, end) else Kept(old(plan), plan)
    {
      hide Sound, ListsOk, Consistent, ExprCode, SizeExpr, Reads;
      toEnd := 0;
      if g.Some? {
        CompileExpr(g.value, env);
        toEnd := EmitBranch(true, end);
      }
    }

    method CompileIter(i: Option<Expr>, ghost env: Env)
      requires OptCallsIn(limit, i)
      requires Ready(env) && |code| + SizeOpt(i, 1) < HOLE
      modifies `code, `cleanups, `links, `plan
      ensures Ready(env) && Kept(old(plan), plan)
      ensures |code| == old(|code|) + SizeOpt(i, 1) && plan.text == old(plan.text) + IterCode(old(|code|), i, env)
    {
      hide Sound, ListsOk, Consistent, ExprCode, SizeExpr;
      if i.Some? {
        CompileExpr(i.value, env);
        Emit(Pop);
      }
    }

    method CompileWhile(s: Stmt, scope: Scope, ghost env: Env)
      requires StmtCallsIn(limit, s)
      requires Ready(env) && s.While? && LeapsIn(s.loop, true, true) && |code| + SizeExpr(s.cond) + 5 + SizeStmt(s.loop, LOOP_SHAPE) + 5 < HOLE
      modifies `code, `breaks, `continues, `cleanups, `links, `plan
      ensures Ready(env) && Kept(old(plan), plan)
      ensures |code| == old(|code|) + SizeExpr(s.cond) + 5 + SizeStmt(s.loop, LOOP_SHAPE) + 5
      ensures plan.text == old(plan.text) + LoopCode(old(|code|), Some(s.cond), None, s.loop, env, Addr(old(|code|)))
      decreases Weight(s) + ChainWeight(scope.chain), 2
    {
      hide Sound, ListsOk, Consistent, ExprCode, StmtCode, LoopCode, SizeExpr, SizeStmt, Reads, LeapsIn, Addr, GuardCode, IterCode, LeapFits,
           StmtCallsIn, OptCallsIn;
      var top := |code|;
      WhileWithin(limit, s);
      ghost var size := SizeExpr(s.cond) + 5 + SizeStmt(s.loop, LOOP_SHAPE) + 5;
      ghost var end, start := Addr(top + size), plan;
      AddrFits(top);
      OpenBreaks(end);
      OpenContinues(Addr(top));
      ghost var pushed := plan;
      var toEnd := CompileGuard(Some(s.cond), end, env);
      ghost var a, q := plan, |code|;
      CompileLoopBody(s.loop, end, Addr(top), env);
      StartsLater(pushed, plan, GuardCode(top, Some(s.cond), end, env) + StmtCode(q, s.loop, LoopEnv(env, end, Addr(top))));
      CloseContinues(top);
      Emit(Jump(top));
      ReadsLater(a, plan, StmtCode(q, s.loop, LoopEnv(env, end, Addr(top))) + [Jump(top)], toEnd, end);
      AddrFits(|code|);
      Resolve(toEnd, |code|);
      CloseBreaks(|code|);
      NoIter(|code| - 5, env);
      LoopText(start.text, top, Some(s.cond), None, s.loop, env, Addr(top));
    }

    /** A loop's body, between the lists that its break and continue statements fill. */
    method CompileLoopBody(b: Stmt, ghost end: u32, ghost next: u32, ghost env: Env)
      requires StmtCallsIn(limit, b)
      requires Ready(env) && LeapsIn(b, true, true) && |code| + SizeStmt(b, LOOP_SHAPE) < HOLE
      requires plan.brk != [] && Last(plan.brk) == end && plan.cont != [] && Last(plan.cont) == next
      modifies `code, `breaks, `continues, `cleanups, `links, `plan
      ensures Ready(env) && Kept(old(plan), plan)
      ensures |code| == old(|code|) + SizeStmt(b, LOOP_SHAPE)
      ensures plan.text == old(plan.text) + StmtCode(old(|code|), b, LoopEnv(env, end, next))
      decreases Weight(b), 5
    {
      hide Sound, ListsOk, Consistent, StmtCode, SizeStmt, LeapsIn;
      CompileStmt(b, LOOP_SCOPE, LoopEnv(env, end, next));
    }

    method CompileDo(s: Stmt, scope: Scope, ghost env: Env)
      requires StmtCallsIn(limit, s)
      requires Ready(env) && s.DoWhile? && LeapsIn(s.loop, true, true) && |code| + SizeStmt(s.loop, LOOP_SHAPE) + SizeExpr(s.cond) + 5 < HOLE
      modifies `code, `breaks, `continues, `cleanups, `links, `plan
      ensures Ready(env) && Kept(old(plan), plan)
      ensures |code| == old(|code|) + SizeStmt(s.loop, LOOP_SHAPE) + SizeExpr(s.cond) + 5
      ensures plan.text == old(plan.text) + DoCode(old(|code|), s.loop, s.cond, env)
      decreases Weight(s) + ChainWeight(scope.chain), 2
    {
      hide Sound, ListsOk, Consistent, ExprCode, StmtCode, SizeExpr, SizeStmt, LeapsIn, Addr, LeapFits;
      var top := |code|;
      ghost var next := Addr(top + SizeStmt(s.loop, LOOP_SHAPE));
      ghost var end := Addr(top + SizeStmt(s.loop, LOOP_SHAPE) + SizeExpr(s.cond) + 5);
      AddrFits(top);
      OpenBreaks(end);
      OpenContinues(next);
      ghost var pushed := plan;
      CompileLoopBody(s.loop, end, next, env);
      AddrFits(|code|);
      CloseContinues(|code|);
      ghost var q := |code|;
      CompileExpr(s.cond, env);
      StartsLater(pushed, plan, StmtCode(top, s.loop, LoopEnv(env, end, next)) + ExprCode(q, s.cond, env));
      Emit(JumpIfTrue(top));
      AddrFits(|code|);
      CloseBreaks(|code|);
    }

    method CompileFor(s: Stmt, scope: Scope, ghost env: Env)
      requires StmtCallsIn(limit, s)
      requires Ready(env) && s.For? && (s.start.Skip? || s.start.VarDecl? || s.start.ExprStmt?) && LeapsIn(s.loop, true, true)
      requires |code| + SizeStmt(s.start, ShapeOf(env)) + SizeOpt(s.guard, 5) + SizeStmt(s.loop, LOOP_SHAPE) + SizeOpt(s.iter, 1) + 5 < HOLE
      modifies `code, `breaks, `continues, `cleanups, `links, `plan
      ensures Ready(env) && Kept(old(plan), plan)
      ensures |code| == old(|code|) + SizeStmt(s.start, ShapeOf(env)) + SizeOpt(s.guard, 5) + SizeStmt(s.loop, LOOP_SHAPE) + SizeOpt(s.iter, 1) + 5
      ensures var top := old(|code|) + SizeStmt(s.start, ShapeOf(env));
              plan.text == old(plan.text) + (StmtCode(old(|code|), s.start, env) +
                LoopCode(top, s.guard, s.iter, s.loop, env, Addr(top + SizeOpt(s.guard, 5) + SizeStmt(s.loop, LOOP_SHAPE))))
      decreases Weight(s) + ChainWeight(scope.chain), 2
    {
      hide Sound, ListsOk, Consistent, LoopCode, SizeOpt, StmtCode, SizeStmt, LeapsIn, Addr;
      ghost var p := |code|;
      ghost var top := p + SizeStmt(s.start, ShapeOf(env));
      ghost var next := Addr(top + SizeOpt(s.guard, 5) + SizeStmt(s.loop, LOOP_SHAPE));
      ghost var end := Addr(top + SizeOpt(s.guard, 5) + SizeStmt(s.loop, LOOP_SHAPE) + SizeOpt(s.iter, 1) + 5);
      OpenBreaks(end);
      OpenContinues(next);
      CompileStart(s.start, env);
      CompileRounds(s.guard, s.iter, s.loop, end, next, env);
    }

    /** The initialisation of a for loop. */
    method CompileStart(s: Stmt, ghost env: Env)
      requires StmtCallsIn(limit, s)
      requires Ready(env) && (s.Skip? || s.VarDecl? || s.ExprStmt?) && |code| + SizeStmt(s, ShapeOf(env)) < HOLE
      modifies `code, `cleanups, `links, `plan
      ensures Ready(env) && Kept(old(plan), plan)
      ensures |code| == old(|code|) + SizeStmt(s, ShapeOf(env)) && plan.text == old(plan.text) + StmtCode(old(|code|), s, env)
    {
      hide Sound, ListsOk, Consistent, ExprCode, SizeExpr, DeclCode, SizeDecl;
      match s
      case VarDecl(_, _, _, _) => CompileDecl(s, env);
      case ExprStmt(_, _) => CompileExprStmt(s, env);
      case Skip =>
    }

    /** The repeated part of a for loop; it fills and drops the loop's lists. */
    method CompileRounds(g: Option<Expr>, i: Option<Expr>, b: Stmt, ghost end: u32, ghost next: u32, ghost env: Env)
      requires OptCallsIn(limit, g) && OptCallsIn(limit, i) && StmtCallsIn(limit, b)
      requires Ready(env) && LeapsIn(b, true, true) && |code| + SizeOpt(g, 5) + SizeStmt(b, LOOP_SHAPE) + SizeOpt(i, 1) + 5 < HOLE
      requires plan.brk != [] && Last(plan.brk) == end && plan.cont != [] && Last(plan.cont) == next
      requires next == Addr(|code| + SizeOpt(g, 5) + SizeStmt(b, LOOP_SHAPE))
      requires end == Addr(|code| + SizeOpt(g, 5) + SizeStmt(b, LOOP_SHAPE) + SizeOpt(i, 1) + 5)
      modifies `code, `breaks, `continues, `cleanups, `links, `plan
      ensures Ready(env) && |code| == old(|code|) + SizeOpt(g, 5) + SizeStmt(b, LOOP_SHAPE) + SizeOpt(i, 1) + 5
      ensures Kept(old(plan).(brk := Front(old(plan).brk), cont := Front(old(plan).cont)), plan)
      ensures plan.text == old(plan.text) + LoopCode(old(|code|), g, i, b, env, next)
      decreases Weight(b) + 1, 2
    {
      hide Sound, ListsOk, Consistent, StmtCode, LoopCode, SizeExpr, SizeStmt, SizeOpt, Reads, LeapsIn, Addr, GuardCode, IterCode, LeapFits,
           ExprBelow, StmtBelow, OptBelow;
      var top := |code|;
      ghost var start := plan;
      ghost var q := top + SizeOpt(g, 5);
      ghost var after := q + SizeStmt(b, LOOP_SHAPE);
      AddrFits(top);
      var toEnd := CompileGuard(g, end, env);
      ghost var a := plan;
      CompileOnce(i, b, end, next, env);
      ghost var once := StmtCode(q, b, LoopEnv(env, end, next)) + IterCode(after, i, env);
      StartsLater(start, plan, GuardCode(top, g, end, env) + once);
      Emit(Jump(top));
      AddrFits(|code|);
      if g.Some? {
        ReadsLater(a, plan, once + [Jump(top)], toEnd, end);
        Resolve(toEnd, |code|);
      }
      CloseBreaks(|code|);
      LoopText(start.text, top, g, i, b, env, next);
    }

    /** One round of a for loop: the body, and the step that continue goes to. */
    method CompileOnce(i: Option<Expr>, b: Stmt, ghost end: u32, ghost next: u32, ghost env: Env)
      requires OptCallsIn(limit, i) && StmtCallsIn(limit, b)
      requires Ready(env) && LeapsIn(b, true, true) && |code| + SizeStmt(b, LOOP_SHAPE) + SizeOpt(i, 1) < HOLE
      requires plan.brk != [] && Last(plan.brk) == end && plan.cont != [] && Last(plan.cont) == next
      requires next == Addr(|code| + SizeStmt(b, LOOP_SHAPE))
      modifies `code, `breaks, `continues, `cleanups, `links, `plan
      ensures Ready(env) && Kept(old(plan).(cont := Front(old(plan).cont)), plan)
      ensures |code| == old(|code|) + SizeStmt(b, LOOP_SHAPE) + SizeOpt(i, 1)
      ensures plan.text == old(plan.text) + (StmtCode(old(|code|), b, LoopEnv(env, end, next)) + IterCode(old(|code|) + SizeStmt(b, LOOP_SHAPE), i, env))
      decreases Weight(b) + 1, 1
    {
      hide Sound, ListsOk, Consistent, StmtCode, SizeStmt, SizeOpt, LeapsIn, Addr, IterCode, LeapFits;
      CompileLoopBody(b, end, next, env);
      AddrFits(|code|);
      CloseContinues(|code|);
      CompileIter(i, env);
    }

    method CompileBreak(scope: Scope, ghost env: Env)
      requires Ready(env) && ScopeFits(scope, env) && env.brk.Leap?
      modifies `code, `breaks, `plan
      ensures Ready(env) && Kept(old(plan), plan)
      ensures |code| == old(|code|) + SizeLeap(LeapShape(env.brk)) && plan.text == old(plan.text) + LeapCode(env.brk)
    {
      hide Sound, ListsOk, Consistent, ReleasesCode, Reads;
      EmitReleases(scope.brk.value);
      var h := EmitJump(env.brk.target);
      NoteBreak(h);
    }

    method CompileContinue(scope: Scope, ghost env: Env)
      requires Ready(env) && ScopeFits(scope, env) && env.cont.Leap?
      modifies `code, `continues, `plan
      ensures Ready(env) && Kept(old(plan), plan)
      ensures |code| == old(|code|) + SizeLeap(LeapShape(env.cont)) && plan.text == old(plan.text) + LeapCode(env.cont)
    {
      hide Sound, ListsOk, Consistent, ReleasesCode, Reads;
      EmitReleases(scope.cont.value);
      var h := EmitJump(env.cont.target);
      NoteContinue(h);
    }

    method CompileThrow(s: Stmt, ghost env: Env)
      requires StmtCallsIn(limit, s)
      requires Ready(env) && s.Throw? && |code| + SizeExpr(s.e) + 5 < HOLE
      modifies `code, `cleanups, `links, `plan
      ensures Ready(env) && Kept(old(plan), plan)
      ensures |code| == old(|code|) + SizeExpr(s.e) + 5
      ensures plan.text == old(plan.text) + (ExprCode(old(|code|), s.e, env) + [ThrowException(env.cleanup)])
    {
      hide Sound, ListsOk, Consistent, ExprCode, SizeExpr, Reads, BigEndian32;
      CompileExpr(s.e, env);
      var h := EmitHole(84, ThrowException(env.cleanup), env.cleanup);
      NoteCleanup(h, false);
    }

    // -------------------------------------------------------------------- returns

    method CompileReturn(s: Stmt, scope: Scope, ghost env: Env)
      requires StmtCallsIn(limit, s)
      requires Ready(env) && scope.chain == env.chain && LeapsInChain(scope.chain) && s.Return?
      requires |code| + SizeResult(s.result, s.isRef, ReturnConv(env.chain)) + SizeChain(env.chain) < HOLE
      modifies `code, `breaks, `continues, `cleanups, `links, `plan
      ensures Ready(env) && Kept(old(plan), plan)
      ensures |code| == old(|code|) + SizeResult(s.result, s.isRef, ReturnConv(env.chain)) + SizeChain(env.chain)
      ensures var q := old(|code|) + SizeResult(s.result, s.isRef, ReturnConv(env.chain));
              plan.text == old(plan.text) + (ResultCode(old(|code|), s.result, s.isRef, env) + ChainCode(q, env.chain, env.cleanup, env.fns))
      decreases Weight(s) + ChainWeight(scope.chain), 2
    {
      hide Sound, ListsOk, Consistent, ResultCode, ChainCode, SizeResult, SizeChain, ReturnConv, LeapsInChain;
      CompileResult(s.result, s.isRef, scope.chain, env);
      CompileChain(scope.chain, env);
    }

    method CompileResult(e: Option<Expr>, isRef: bool, chain: Chain, ghost env: Env)
      requires OptCallsIn(limit, e)
      requires Ready(env) && chain == env.chain && |code| + SizeResult(e, isRef, ReturnConv(chain)) < HOLE
      modifies `code, `cleanups, `links, `plan
      ensures Ready(env) && Kept(old(plan), plan)
      ensures |code| == old(|code|) + SizeResult(e, isRef, ReturnConv(chain)) && plan.text == old(plan.text) + ResultCode(old(|code|), e, isRef, env)
    {
      hide Sound, ListsOk, Consistent, ExprCode, SizeExpr, ReturnConv, ConvCode, IncRefCode;
      if e.None? {
        Emit(PushNull);
      } else {
        CompileExpr(e.value, env);
        EmitConv(ReturnConv(chain));
        EmitIncRef(isRef && !ProducesRetained(e.value));
      }
    }

    /** Climb the parent links: clean each block, inline each finally block, clean
        the function, return. */
    method CompileChain(c: Chain, ghost env: Env)
      requires ChainCallsIn(limit, c)
      requires Ready(env) && LeapsInChain(c) && |code| + SizeChain(c) < HOLE
      modifies `code, `breaks, `continues, `cleanups, `links, `plan
      ensures Ready(env) && Kept(old(plan), plan)
      ensures |code| == old(|code|) + SizeChain(c) && plan.text == old(plan.text) + ChainCode(old(|code|), c, env.cleanup, env.fns)
      decreases ChainWeight(c), 4
    {
      hide Sound, ListsOk, Consistent, BlockCode, SizeBlock, ReleasesCode, LeapsInSeq, SeqBelow;
      match c
      case Detached => Emit(Instr.Return);
      case FunctionEnd(refs, _) =>
        EmitReleases(refs);
        Emit(Instr.Return);
      case InBlock(slots, o) =>
        EmitReleases(slots);
        CompileChain(o, env);
      case InTry(fin, o) =>
        InlineFinally(fin, o, env);
        CompileChain(o, env);
    }

    /** A finally block on the way of a return. */
    method InlineFinally(fin: Stmts, o: Chain, ghost env: Env)
      requires SeqCallsIn(limit, fin) && ChainCallsIn(limit, o)
      requires Ready(env) && LeapsInSeq(fin, false, false) && LeapsInChain(o)
      requires |code| + SizeBlock(fin, ShapeOf(Env(NoLeap, NoLeap, env.cleanup, o, env.fns))) < HOLE
      modifies `code, `breaks, `continues, `cleanups, `links, `plan
      ensures Ready(env) && Kept(old(plan), plan)
      ensures var inner := Env(NoLeap, NoLeap, env.cleanup, o, env.fns);
              |code| == old(|code|) + SizeBlock(fin, ShapeOf(inner)) && plan.text == old(plan.text) + BlockCode(old(|code|), fin, inner, env.cleanup)
      decreases BlockWeight(fin) + ChainWeight(o), 4
    {
      hide Sound, ListsOk, Consistent, BlockCode, SizeBlock, LeapsInSeq, LeapsInChain, SeqBelow;
      CompileBlock(fin, FinallyScope(o), Env(NoLeap, NoLeap, env.cleanup, o, env.fns), env.cleanup, false);
    }

    // --------------------------------------------------------------------- blocks

    method CompileSeq(ss: Stmts, scope: Scope, ghost env: Env)
      requires SeqCallsIn(limit, ss)
      requires Ready(env) && ScopeFits(scope, env) && SeqLeapsFit(ss, env) && |code| + SizeSeq(ss, ShapeOf(env)) < HOLE
      modifies `code, `breaks, `continues, `cleanups, `links, `plan
      ensures Ready(env) && Kept(old(plan), plan)
      ensures |code| == old(|code|) + SizeSeq(ss, ShapeOf(env)) && plan.text == old(plan.text) + SeqCode(old(|code|), ss, env)
      decreases SeqWeight(ss) + ChainWeight(scope.chain), 3
    {
      hide Sound, ListsOk, Consistent, StmtCode, SizeStmt, LeapsIn, LeapFits, LeapsInChain;
      if ss.Cons? {
        CompileStmt(ss.head, scope, env);
        CompileSeq(ss.tail, scope, env);
      }
    }

    /** A block up to the way out of its exception segment: the body, the cleanup,
        the jump past the segment; the segment's cleanup. */
    method CompileHead(body: Stmts, scope: Scope, ghost env: Env, ghost end: u32) returns (skip: nat)
      requires SeqCallsIn(limit, body) && ChainCallsIn(limit, env.chain)
      requires Valid() && !plan.parked && env.fns == fns && ScopeFits(scope, env) && SeqLeapsFit(body, env)
      requires |code| + SizeHead(body, ShapeOf(env)) < HOLE
      modifies `code, `breaks, `continues, `cleanups, `links, `plan
      ensures Valid() && Opened(old(plan), plan, {skip}) && Reads(plan.truth, skip, end)
      ensures |code| == old(|code|) + SizeHead(body, ShapeOf(env)) && plan.text == old(plan.text) + BlockHead(old(|code|), body, env, end)
      decreases BlockWeight(body) + ChainWeight(scope.chain), 1
    {
      hide Sound, ListsOk, Consistent, SeqCode, SizeSeq, ReleasesCode, Reads, RefSlots, LeapsInSeq, LeapsInChain, Addr, SeqBelow, BlockHead;
      var slots := RefSlots(body);
      ghost var catch := Addr(|code| + SizeSeq(body, InnerShape(ShapeOf(env), slots)) + SizeReleases(slots) + 5);
      ghost var inner := InnerEnv(env, slots, catch);
      InnerFits(scope, env, slots, catch, plan.brk, plan.cont, body);
      OpenCleanups(catch);
      CompileSeq(body, InnerScope(scope, slots), inner);
      EmitReleases(slots);
      skip := EmitJump(end);
      AddrFits(|code|);
      CloseCleanups(|code|);
      ghost var a := plan;
      EmitReleases(slots);
      ReadsLater(a, plan, ReleasesCode(slots), skip, end);
      HeadText(old(plan).text, old(|code|), body, env, end);
    }

    /** A block; its exception segment goes on to `exit`, through the enclosing
        block's patch list, where a try block's exit waits for its try statement. */
    method CompileBlock(body: Stmts, scope: Scope, ghost env: Env, ghost exit: u32, tryBody: bool)
      requires SeqCallsIn(limit, body)
      requires Ready(env) && ScopeFits(scope, env) && SeqLeapsFit(body, env) && |code| + SizeBlock(body, ShapeOf(env)) < HOLE
      requires !tryBody ==> exit == env.cleanup
      modifies `code, `breaks, `continues, `cleanups, `links, `plan
      ensures Valid() && Kept(old(plan), plan.(parked := false))
      ensures |code| == old(|code|) + SizeBlock(body, ShapeOf(env)) && plan.text == old(plan.text) + BlockCode(old(|code|), body, env, exit)
      ensures if tryBody then Parked(cleanups, plan, exit) else !plan.parked
      decreases BlockWeight(body) + ChainWeight(scope.chain), 2
    {
      hide Sound, ListsOk, Consistent, SizeSeq, Reads, RefSlots, BlockHead, LeapFits, SeqLeapsFit, Addr;
      ghost var end := Addr(|code| + SizeBlock(body, ShapeOf(env)));
      var skip := CompileHead(body, scope, env, end);
      ghost var a := plan;
      var h := EmitJump(exit);
      ReadsLater(a, plan, [Jump(exit)], skip, end);
      NoteCleanup(h, tryBody);
      AddrFits(|code|);
      Resolve(skip, |code|);
    }

    // ------------------------------------------------------------------- switches

    method CompileSwitch(s: Stmt, scope: Scope, ghost env: Env)
      requires StmtCallsIn(limit, s)
      requires Ready(env) && s.Switch? && LeapsInCases(s.cases)
      requires |code| + SizeExpr(s.subject) + SizeDispatch(s.cases) + SizeCases(s.cases) + 1 < HOLE
      modifies `code, `breaks, `continues, `cleanups, `links, `plan
      ensures Ready(env) && Kept(old(plan), plan)
      ensures |code| == old(|code|) + SizeExpr(s.subject) + SizeDispatch(s.cases) + SizeCases(s.cases) + 1
      ensures plan.text == old(plan.text) + SwitchCode(old(|code|), s.subject, s.cases, env)
      decreases Weight(s) + ChainWeight(scope.chain), 2
    {
      hide Sound, ListsOk, Consistent, ExprCode, SizeExpr, DispatchCode, SizeDispatch, CasesCode, SizeCases, LeapsInCases, Addr, Ladder, Reads;
      ghost var bodies := |code| + SizeExpr(s.subject) + SizeDispatch(s.cases);
      ghost var end := Addr(bodies + SizeCases(s.cases));
      CompileExpr(s.subject, env);
      OpenBreaks(end);
      var jumps := CompileDispatch(s.cases, bodies, env);
      CompileCases(s.cases, jumps, SwitchEnv(env, end));
      var last := |code|;
      AddrFits(last);
      ghost var a := plan;
      Emit(Pop);
      StartsLater(a, plan, [Pop]);
      CloseBreaks(last);
    }

    /** The comparison ladder; the result lists the holes for the bodies' addresses. */
    method CompileDispatch(cases: Cases, ghost body: nat, ghost env: Env) returns (jumps: seq<nat>)
      requires CasesCallIn(limit, cases)
      requires Ready(env) && |code| + SizeDispatch(cases) < HOLE
      modifies `code, `cleanups, `links, `plan
      ensures Ready(env) && Opened(old(plan), plan, Members(jumps)) && Ladder(plan.truth, cases, jumps, body)
      ensures |code| == old(|code|) + SizeDispatch(cases) && plan.text == old(plan.text) + DispatchCode(old(|code|), cases, body, env)
      decreases cases
    {
      hide Sound, ListsOk, Consistent, ExprCode, SizeExpr, SizeSeq, Reads, Addr, ExprBelow, SeqBelow, Members;
      if cases.Case? {
        var h := CompileLabel(cases.value, Addr(body), env);
        ghost var a, q, next := plan, |code|, body + SizeSeq(cases.body, SWITCH_SHAPE);
        var rest := CompileDispatch(cases.rest, next, env);
        ReadsLater(a, plan, DispatchCode(q, cases.rest, next, env), h, Addr(body));
        jumps := [h] + rest;
        MembersCons(h, rest);
        assert jumps[1..] == rest;
        DispatchText(old(plan).text, old(|code|), cases, body, env);
      } else {
        var h := EmitJump(Addr(body));
        jumps := [h];
        MembersOne(h);
      }
    }

    /** One comparison with the subject, which stays on the stack. */
    method CompileLabel(e: Expr, ghost body: u32, ghost env: Env) returns (h: nat)
      requires CallsIn(limit, e)
      requires Ready(env) && |code| + 1 + SizeExpr(e) + 6 < HOLE
      modifies `code, `cleanups, `links, `plan
      ensures Ready(env) && Opened(old(plan), plan, {h}) && Reads(plan.truth, h, body) && |code| == old(|code|) + 1 + SizeExpr(e) + 6
      ensures plan.text == old(plan.text) + ([Dup] + ExprCode(old(|code|) + 1, e, env) + [Binary(Eq), JumpIfTrue(body)])
    {
      hide Sound, ListsOk, Consistent, ExprCode, SizeExpr, Reads, ExprBelow;
      Emit(Dup);
      CompileExpr(e, env);
      Emit(Binary(Eq));
      h := EmitBranch(false, body);
    }

    /** The bodies, each at the address that its rung of the ladder is filled with. */
    method CompileCases(cases: Cases, jumps: seq<nat>, ghost env: Env)
      requires CasesCallIn(limit, cases)
      requires Ready(env) && ScopeFits(SWITCH_SCOPE, env) && LeapsInCases(cases) && |code| + SizeCases(cases) < HOLE
      requires ShapeOf(env) == SWITCH_SHAPE && env.brk.Leap? && env.cont.NoLeap?
      requires Ladder(plan.truth, cases, jumps, |code|)
      modifies `code, `breaks, `continues, `cleanups, `links, `plan
      ensures Ready(env) && Kept(old(plan).(open := old(plan).open - Members(jumps)), plan)
      ensures |code| == old(|code|) + SizeCases(cases) && plan.text == old(plan.text) + CasesCode(old(|code|), cases, env)
      decreases CasesWeight(cases), 4
    {
      hide Sound, ListsOk, Consistent, SeqCode, SizeSeq, Reads, Addr, LeapFits, LeapsInSeq, Members, Ladder, SeqBelow, ExprBelow;
      LadderFirst(plan.truth, cases, jumps, |code|);
      AddrFits(|code|);
      match cases
      case NoCase =>
        Resolve(jumps[0], |code|);
        MembersOne(jumps[0]);
      case Default(body) =>
        Resolve(jumps[0], |code|);
        MembersOne(jumps[0]);
        CompileSeq(body, SWITCH_SCOPE, env);
      case Case(_, body, rest) =>
        ghost var a, q := plan, |code|;
        Resolve(jumps[0], |code|);
        CompileSeq(body, SWITCH_SCOPE, env);
        LadderLater(a, plan, SeqCode(q, body, env), rest, jumps[1..], q + SizeSeq(body, SWITCH_SHAPE));
        MembersCons(jumps[0], jumps[1..]);
        CompileCases(rest, jumps[1..], env);
    }

    // ------------------------------------------------------------- try statements

    method CompileTry(s: Stmt, scope: Scope, ghost env: Env)
      requires StmtCallsIn(limit, s)
      requires Ready(env) && ScopeFits(scope, env) && s.Try? && LeapsFit(s, env) && |code| + SizeStmt(s, ShapeOf(env)) < HOLE
      modifies `code, `breaks, `continues, `cleanups, `links, `plan
      ensures Ready(env) && Kept(old(plan), plan)
      ensures |code| == old(|code|) + SizeStmt(s, ShapeOf(env)) && plan.text == old(plan.text) + StmtCode(old(|code|), s, env)
      decreases Weight(s) + ChainWeight(scope.chain), 2
    {
      hide Sound, ListsOk, Consistent, BlockCode, SizeBlock, ClausesCode, SizeClauses, FinallyCode, SizeFinally, Reads, Addr, LeapsFit, LeapFits,
           SeqLeapsFit, StmtCode, SizeStmt, GuardedCode, TryEnv, ClauseEnv, AllRead, Members;
      ghost var inner := TryEnv(env, s.fin);
      ghost var skip := |code| + SizeBlock(s.body, ShapeOf(inner));
      ghost var unhandled := skip + 5 + SizeClauses(s.clauses, ShapeOf(inner));
      ghost var out := unhandled + SizeFinally(s.fin, env.chain);
      ghost var p, outer := |code|, ClauseEnv(inner, s.fin, Addr(unhandled));
      TryLeaps(s, env, Addr(unhandled));
      TryChainLeaps(s, env);
      TryText(p, s, env, inner, outer, skip, unhandled, out);
      var toEnd, ends := CompileGuarded(s, scope, inner, outer, skip, out, env);
      CompileEpilogue(s.fin, scope.chain, toEnd, ends, env);
    }

    /** Both copies of the finally block: for an exception, going on outwards, and
        for everything else, where the guarded block and the clauses go. */
    method CompileEpilogue(fin: Option<Stmts>, chain: Chain, toEnd: nat, ends: seq<nat>, ghost env: Env)
      requires FinallyCallsIn(limit, fin) && ChainCallsIn(limit, chain)
      requires Ready(env) && chain == env.chain && LeapsInFinally(fin) && LeapsInChain(chain)
      requires |code| + SizeFinally(fin, chain) + 5 + SizeFinally(fin, chain) < HOLE
      requires var t := Addr(|code| + SizeFinally(fin, chain) + 5); Reads(plan.truth, toEnd, t) && AllRead(plan.truth, ends, t)
      modifies `code, `breaks, `continues, `cleanups, `links, `plan
      ensures Ready(env) && Kept(old(plan).(open := old(plan).open - {toEnd} - Members(ends)), plan)
      ensures |code| == old(|code|) + SizeFinally(fin, chain) + 5 + SizeFinally(fin, chain)
      ensures var p := old(|code|);
              plan.text == old(plan.text) + (FinallyCode(p, fin, env) + [Jump(env.cleanup)] + FinallyCode(p + SizeFinally(fin, chain) + 5, fin, env))
      decreases (if fin.Some? then BlockWeight(fin.value) else 0) + ChainWeight(chain), 4
    {
      hide Sound, ListsOk, Consistent, FinallyCode, SizeFinally, Reads, Addr, AllRead, LeapsInFinally, LeapsInChain, Members;
      ghost var p, a, t := |code|, plan, Addr(|code| + SizeFinally(fin, chain) + 5);
      CompileFinally(fin, chain, env);
      var h := EmitJump(env.cleanup);
      NoteCleanup(h, false);
      ReadsLater(a, plan, FinallyCode(p, fin, env) + [Jump(env.cleanup)], toEnd, t);
      AllLater(a, plan, FinallyCode(p, fin, env) + [Jump(env.cleanup)], ends, t);
      AddrFits(|code|);
      Resolve(toEnd, |code|);
      ResolveAll(ends, |code|);
      CompileFinally(fin, chain, env);
    }

    /** The guarded block and the clauses; the result lists the jumps to the end. */
    method CompileGuarded(s: Stmt, scope: Scope, ghost inner: Env, ghost outer: Env, ghost skip: nat, ghost out: nat, ghost env: Env)
      returns (toEnd: nat, ends: seq<nat>)
      requires StmtCallsIn(limit, s)
      requires Ready(env) && ScopeFits(scope, env) && s.Try? && inner == TryEnv(env, s.fin)
      requires SeqLeapsFit(s.body, inner) && LeapsInClauses(s.clauses, inner.brk.Leap?, inner.cont.Leap?) && ShapeOf(outer) == ShapeOf(inner)
      requires skip == |code| + SizeBlock(s.body, ShapeOf(inner)) && skip + 5 + SizeClauses(s.clauses, ShapeOf(inner)) < HOLE
      requires outer == ClauseEnv(inner, s.fin, Addr(skip + 5 + SizeClauses(s.clauses, ShapeOf(inner))))
      modifies `code, `breaks, `continues, `cleanups, `links, `plan
      ensures Ready(env) && Opened(old(plan), plan, {toEnd} + Members(ends))
      ensures Reads(plan.truth, toEnd, Addr(out + 5)) && AllRead(plan.truth, ends, Addr(out + 5))
      ensures |code| == skip + 5 + SizeClauses(s.clauses, ShapeOf(inner))
      ensures plan.text == old(plan.text) + GuardedCode(old(|code|), s, inner, outer, skip, out)
      decreases Weight(s) + ChainWeight(scope.chain), 1
    {
      hide Sound, ListsOk, Consistent, BlockCode, SizeBlock, ClausesCode, SizeClauses, Reads, Addr, LeapsInSeq, LeapsInClauses, LeapsInChain;
      TryWithin(limit, s);
      toEnd := CompileTryBody(s.body, TryScope(scope, s.fin), inner, skip, out);
      ghost var a := plan;
      if s.fin.Some? { OpenCleanups(outer.cleanup); }
      ends := CompileClauses(s.clauses, TryScope(scope, s.fin), outer, Addr(out + 5));
      if s.fin.Some? {
        AddrFits(|code|);
        CloseCleanups(|code|);
      }
      ReadsLater(a, plan, ClausesCode(skip + 5, s.clauses, outer, Addr(out + 5)), toEnd, Addr(out + 5));
    }

    /** The guarded block, whose exceptions go to the clauses behind it, and the jump
        over the clauses. */
    method CompileTryBody(body: Stmts, scope: Scope, ghost env: Env, ghost skip: nat, ghost out: nat) returns (toEnd: nat)
      requires SeqCallsIn(limit, body)
      requires Ready(env) && ScopeFits(scope, env) && SeqLeapsFit(body, env)
      requires skip == |code| + SizeBlock(body, ShapeOf(env)) && skip + 5 < HOLE
      modifies `code, `breaks, `continues, `cleanups, `links, `plan
      ensures Ready(env) && Opened(old(plan), plan, {toEnd}) && Reads(plan.truth, toEnd, Addr(out + 5))
      ensures |code| == skip + 5
      ensures plan.text == old(plan.text) + (BlockCode(old(|code|), body, env, Addr(skip + 5)) + [Jump(Addr(out + 5))])
      decreases BlockWeight(body) + ChainWeight(scope.chain), 3
    {
      hide Sound, ListsOk, Consistent, BlockCode, SizeBlock, Reads, SeqLeapsFit, LeapFits, Addr;
      CompileBlock(body, scope, env, Addr(skip + 5), true);
      ghost var a, h := plan, Last(Last(cleanups));
      toEnd := EmitJump(Addr(out + 5));
      ReadsLater(a, plan, [Jump(Addr(out + 5))], h, Addr(skip + 5));
      AddrFits(|code|);
      UnparkExit(Addr(skip + 5));
    }

    /** Take a try block's exit back from the enclosing list and lead it here. */
    method UnparkExit(ghost exit: u32)
      requires Valid() && Parked(cleanups, plan, exit) && exit == |code|
      modifies `code, `cleanups, `plan
      ensures Valid() && Kept(old(plan).(parked := false), plan) && |code| == old(|code|)
      ensures plan.text == old(plan.text) && plan.truth == old(plan.truth)
    {
      hide Sound, Reads, Consistent;
      var h := Last(Last(cleanups));
      Patch(h, |code|);
      ghost var pl1 := plan.(parked := false);
      Unparked(code, breaks, continues, cleanups, links, plan, pl1, h, fns);
      cleanups := cleanups[|cleanups| - 1 := Front(Last(cleanups))];
      plan := pl1;
    }

    /** Clauses in order; a failed type test goes to the next clause, the last one's
        to what follows the clauses. */
    method CompileClauses(clauses: Clauses, scope: Scope, ghost env: Env, ghost end: u32) returns (ends: seq<nat>)
      requires ClausesCallIn(limit, clauses)
      requires Ready(env) && ScopeFits(scope, env) && LeapsInClauses(clauses, env.brk.Leap?, env.cont.Leap?) && LeapsInChain(env.chain)
      requires |code| + SizeClauses(clauses, ShapeOf(env)) < HOLE
      modifies `code, `breaks, `continues, `cleanups, `links, `plan
      ensures Ready(env) && Opened(old(plan), plan, Members(ends)) && AllRead(plan.truth, ends, end)
      ensures |code| == old(|code|) + SizeClauses(clauses, ShapeOf(env)) && plan.text == old(plan.text) + ClausesCode(old(|code|), clauses, env, end)
      decreases ClausesWeight(clauses) + ChainWeight(scope.chain), 4
    {
      hide Sound, ListsOk, Consistent, ClauseCode, SizeBlock, Reads, Addr, LeapFits, LeapsInSeq, LeapsInChain, SizeClause;
      ends := [];
      if clauses.Clause? {
        ghost var done := |code| + 18 + SizeBlock(clauses.body, ShapeOf(env));
        ClauseSize(clauses.body, ShapeOf(env));
        var h := CompileClause(clauses.classId, clauses.slot, clauses.body, scope, env, done, end);
        ghost var a := plan;
        var rest := CompileClauses(clauses.rest, scope, env, end);
        ReadsLater(a, plan, ClausesCode(done + 11, clauses.rest, env, end), h, end);
        ends := [h] + rest;
        MembersCons(h, rest);
      }
    }

    method CompileClause(id: u32, slot: u32, body: Stmts, scope: Scope, ghost env: Env, ghost done: nat, ghost end: u32) returns (toEnd: nat)
      requires SeqCallsIn(limit, body)
      requires Ready(env) && ScopeFits(scope, env) && SeqLeapsFit(body, env)
      requires done == |code| + 18 + SizeBlock(body, ShapeOf(env)) && done + 11 < HOLE
      modifies `code, `breaks, `continues, `cleanups, `links, `plan
      ensures Ready(env) && Opened(old(plan), plan, {toEnd}) && Reads(plan.truth, toEnd, end)
      ensures |code| == done + 11 && plan.text == old(plan.text) + ClauseCode(old(|code|), done, id, slot, body, env, end)
      decreases BlockWeight(body) + ChainWeight(scope.chain), 3
    {
      hide Sound, ListsOk, Consistent, BlockCode, SizeBlock, Reads, Addr, SeqLeapsFit, LeapFits, TestCode, TakeCode, DropCode;
      ghost var no := Addr(done + 11);
      var toNext := EmitTest(id, no);
      ghost var a, start := plan, |code| + 7;
      EmitTake(slot);
      CompileBlock(body, scope, env, env.cleanup, false);
      toEnd := EmitDrop(slot, end);
      ReadsLater(a, plan, TakeCode(slot) + BlockCode(start, body, env, env.cleanup) + DropCode(slot, end), toNext, no);
      AddrFits(|code|);
      Resolve(toNext, |code|);
    }

    method EmitTest(id: u32, ghost no: u32) returns (toNext: nat)
      requires Valid()
      modifies `code, `plan
      ensures Valid() && Opened(old(plan), plan, {toNext}) && Reads(plan.truth, toNext, no)
      ensures |code| == old(|code|) + 11 && plan.text == old(plan.text) + TestCode(id, no)
    {
      hide Sound, ListsOk, Consistent, Reads;
      Emit(GetException);
      Emit(InstanceOf(id));
      toNext := EmitBranch(true, no);
    }

    method EmitTake(slot: u32)
      requires Valid()
      modifies `code, `plan
      ensures Valid() && Kept(old(plan), plan) && |code| == old(|code|) + 7 && plan.text == old(plan.text) + TakeCode(slot)
    {
      hide Sound, ListsOk, Consistent;
      Emit(GetException);
      Emit(SetLocal(slot));
      Emit(ClearException);
    }

    method EmitDrop(slot: u32, ghost end: u32) returns (toEnd: nat)
      requires Valid()
      modifies `code, `plan
      ensures Valid() && Opened(old(plan), plan, {toEnd}) && Reads(plan.truth, toEnd, end)
      ensures |code| == old(|code|) + 11 && plan.text == old(plan.text) + DropCode(slot, end)
    {
      hide Sound, ListsOk, Consistent, Reads;
      Emit(GetLocal(slot));
      Emit(DecRef);
      toEnd := EmitJump(end);
    }

    method CompileFinally(fin: Option<Stmts>, chain: Chain, ghost env: Env)
      requires FinallyCallsIn(limit, fin) && ChainCallsIn(limit, chain)
      requires Ready(env) && chain == env.chain && LeapsInFinally(fin) && LeapsInChain(chain) && |code| + SizeFinally(fin, chain) < HOLE
      modifies `code, `breaks, `continues, `cleanups, `links, `plan
      ensures Ready(env) && Kept(old(plan), plan)
      ensures |code| == old(|code|) + SizeFinally(fin, chain) && plan.text == old(plan.text) + FinallyCode(old(|code|), fin, env)
      decreases (if fin.Some? then BlockWeight(fin.value) else 0) + ChainWeight(chain), 3
    {
      hide Sound, ListsOk, Consistent, BlockCode, SizeBlock, LeapsInSeq, LeapsInChain;
      if fin.Some? {
        CompileBlock(fin.value, FinallyScope(chain), FinallyEnv(env, env.chain), env.cleanup, false);
      }
    }

    /** Fill holes that the running visit remembers, all with the current address. */
    method ResolveAll(holes: seq<nat>, t: u32)
      requires Valid() && AllRead(plan.truth, holes, t) && (t as nat in plan.at || t == |code|)
      modifies `code, `plan
      ensures Valid() && |code| == old(|code|)
      ensures plan.text == old(plan.text) && plan.truth == old(plan.truth) && plan.at == old(plan.at)
      ensures Kept(old(plan).(open := old(plan).open - Members(holes)), plan)
    {
      hide Sound, ListsOk, Reads, Consistent;
      PatchAll(holes, t);
      ghost var pl1 := plan.(open := plan.open - Members(holes));
      ForgetAll(code, breaks, continues, cleanups, links, plan, pl1, Members(holes), fns);
      plan := pl1;
    }

    // -------------------------------------------------------- functions and linking

    /** Where the compiled functions start. */
    ghost predicate IpsOk()
      reads this
    {
      forall fn :: fn in functionIps ==> fn < |fns| && functionIps[fn] == fns[fn] as nat
    }

    ghost predicate AtTopLevel()
      reads this
    {
      Valid() && breaks == [] && continues == [] && cleanups == [] && plan.open == {} && !plan.parked && IpsOk()
    }

    /** The call of the entry function that ends the boot sequence. */
    method CompileBoot(entry: nat, argc: u32)
      requires Known(limit, entry)
      requires AtTopLevel() && |code| + BOOT_SIZE < HOLE && functionIps == map[]
      modifies `code, `links, `plan
      ensures AtTopLevel() && !plan.atLabel && |code| == old(|code|) + BOOT_SIZE && plan.text == old(plan.text) + BootCode(entry, argc, fns)
    {
      hide Sound, ListsOk, Consistent, Reads, EntryOf;
      var target := EmitHole(2, PushI32(EntryOf(fns, entry)), EntryOf(fns, entry));
      NoteLink(target, entry);
      Emit(PushI32(argc));
      Emit(Instr.Call);
      Emit(Halt);
    }

    /** compile_function. */
    method CompileFunction(i: nat, f: Function)
      requires SeqCallsIn(limit, f.body)
      requires AtTopLevel() && LeapsInSeq(f.body, false, false) && |code| + SizeFunction(f) < HOLE
      requires i < |fns| && fns[i] == |code|
      modifies `code, `breaks, `continues, `cleanups, `links, `functionIps, `plan
      ensures AtTopLevel() && !plan.atLabel && functionIps == old(functionIps)[i := old(|code|)]
      ensures |code| == old(|code|) + SizeFunction(f) && plan.text == old(plan.text) + FunctionCode(old(|code|), f, fns)
    {
      hide Sound, ListsOk, Consistent, BodyCode, ReleasesCode, LeapsInSeq, SizeBody, FunctionCode, BodyShape, BodyChain, SeqBelow;
      functionIps := functionIps[i := |code|];
      CompileFrame(f);
      EmitNullReturn(f.refs);
      FunctionText(old(plan).text, old(|code|), f, fns);
    }

    method CompileFrame(f: Function)
      requires SeqCallsIn(limit, f.body)
      requires AtTopLevel() && LeapsInSeq(f.body, false, false) && |code| + 5 + SizeBody(f) < HOLE
      modifies `code, `breaks, `continues, `cleanups, `links, `plan
      ensures AtTopLevel() && |code| == old(|code|) + 5 + SizeBody(f)
      ensures plan.text == old(plan.text) + ([AllocFrame(f.frameSize)] + BodyCode(old(|code|) + 5, f, fns))
    {
      hide Sound, ListsOk, Consistent, BodyCode, LeapsInSeq, SizeBody, BodyShape, BodyChain, SeqBelow;
      Emit(AllocFrame(f.frameSize));
      CompileBody(f);
    }

    /** The implicit return at the end of a function. */
    method EmitNullReturn(refs: seq<u32>)
      requires AtTopLevel()
      modifies `code, `plan
      ensures AtTopLevel() && !plan.atLabel && |code| == old(|code|) + 2 + SizeReleases(refs)
      ensures plan.text == old(plan.text) + ([PushNull] + ReleasesCode(refs) + [Instr.Return])
    {
      hide Sound, ListsOk, Consistent, ReleasesCode;
      Emit(PushNull);
      EmitReleases(refs);
      Emit(Instr.Return);
    }

    /** The body block of a function: its exception segment also releases the
        parameters, and leaves the frame. */
    method CompileBody(f: Function)
      requires SeqCallsIn(limit, f.body)
      requires AtTopLevel() && LeapsInSeq(f.body, false, false) && |code| + SizeBody(f) < HOLE
      modifies `code, `breaks, `continues, `cleanups, `links, `plan
      ensures AtTopLevel() && |code| == old(|code|) + SizeBody(f) && plan.text == old(plan.text) + BodyCode(old(|code|), f, fns)
    {
      hide Sound, ListsOk, Consistent, BlockHead, ReleasesCode, Reads, LeapsInSeq, Addr, RefSlots, SizeSeq;
      ghost var slots := RefSlots(f.body);
      ghost var catch := Addr(|code| + SizeSeq(f.body, BodyShape(f)) + SizeReleases(slots) + 5);
      ghost var end := Addr(|code| + SizeBody(f));
      var skip := CompileHead(f.body, FinallyScope(BodyChain(f)), Env(NoLeap, NoLeap, catch, BodyChain(f), fns), end);
      ghost var a := plan;
      EmitReleases(f.refs);
      Emit(JmpToOuterCleanup);
      ReadsLater(a, plan, ReleasesCode(f.refs) + [JmpToOuterCleanup], skip, end);
      AddrFits(|code|);
      Resolve(skip, |code|);
    }

    /** apply_linker_patches: fill every call target; fails on a function that was
        not compiled. */
    method ApplyLinkerPatches() returns (ok: bool)
      requires AtTopLevel() && !plan.atLabel && forall fn :: fn in functionIps ==> functionIps[fn] in plan.at
      modifies `code, `plan
      ensures ok <==> forall k :: 0 <= k < |links| ==> links[k].fn in functionIps
      ensures ok ==> AtTopLevel() && !plan.atLabel && plan.pending == {} && plan.text == old(plan.text) && plan.at == old(plan.at)
    {
      hide Sound, Consistent, Reads;
      ok := true;
      ghost var before := plan;
      for k := 0 to |links|
        invariant AtTopLevel() && plan == before.(pending := plan.pending) && !before.atLabel && plan.pending <= before.pending
        invariant forall m :: 0 <= m < k ==> links[m].fn in functionIps && links[m].index !in plan.pending
      {
        if links[k].fn !in functionIps { return false; }
        BelowTheEnd(code, plan);
        Patch(links[k].index, functionIps[links[k].fn]);
      }
      NothingPending(links, plan, fns);
    }
  }

  /** Every call in the program, and that of the entry, names one of its functions. */
  predicate Closed(prog: Program, entry: nat) {
    entry < |prog| && ProgramBelow(|prog|, prog)
  }

  /** The code generator's run over a whole program: a fresh buffer holding exactly
      the one-pass emitter's bytes, or the linker's refusal of a call to a function that
      the program does not have. */
  method Assemble(prog: Program, entry: nat, argc: u32) returns (asm: Assembler, ok: bool)
    requires StartOf(prog, |prog|) < HOLE && forall i :: 0 <= i < |prog| ==> LeapsInSeq(prog[i].body, false, false)
    ensures fresh(asm) && (Closed(prog, entry) ==> ok)
    ensures ok ==> asm.code == BytesOf(ProgramText(prog, entry, argc))
    ensures ok ==> Placement(asm.code, asm.plan.at, ProgramText(prog, entry, argc))
  {
    hide Sound, ListsOk, Consistent, LeapsInSeq, FunctionCode, BootCode, SizeFunction, Addr, Placement, BytesOf, FunctionsCode, StartOf;
    ghost var limit := if Closed(prog, entry) then Some(|prog|) else None;
    asm := new Assembler(EntryPoints(prog), limit);
    asm.CompileBoot(entry, argc);
    FirstFunction(prog, asm.fns);
    var i := 0;
    while i < |prog|
      invariant 0 <= i <= |prog| && asm.AtTopLevel() && asm.fns == EntryPoints(prog) && asm.limit == limit && fresh(asm)
      invariant |asm.code| == StartOf(prog, i) && !asm.plan.atLabel
      invariant asm.plan.text == BootCode(entry, argc, asm.fns) + FunctionsCode(prog, i, asm.fns)
      invariant forall fn: nat :: fn in asm.functionIps <==> fn < i
    {
      StartsGrow(prog, i + 1, |prog|);
      NextFunction(prog, i, asm.fns);
      AddrFits(StartOf(prog, i));
      BodyWithin(prog, entry, limit, i);
      asm.CompileFunction(i, prog[i]);
      i := i + 1;
    }
    StartsListed(asm.plan, prog, entry, argc);
    ok := asm.ApplyLinkerPatches();
    if ok { Finished(asm.code, asm.plan); }
  }

  // ------------------------------------------------------------------ supporting lemmas

  lemma BodyWithin(prog: Program, entry: nat, limit: Option<nat>, i: nat)
    requires limit == (if Closed(prog, entry) then Some(|prog|) else None) && i < |prog|
    ensures SeqCallsIn(limit, prog[i].body)
  {
    hide SeqBelow;
  }

  lemma AddrFits(p: nat)
    ensures p < HOLE ==> Addr(p) == p
  {
  }

  lemma HoleSound(code: seq<u8>, pl: Plan, op: u8, i: Instr, t: u32)
    requires Sound(code, pl) && op == Opcode(i) && Operands(i) == BigEndian32(t)
    requires i == Jump(t) || i == JumpIfFalse(t) || i == JumpIfTrue(t) || i == ThrowException(t) || i == PushI32(t)
    ensures var h := |code| + 1;
            var pl1 := Emitted(pl, i, {h});
            h !in pl.open && Reads(pl1.truth, h, t) && Sound(code + ([op] + BigEndian32(HOLE)), pl1)
  {
    hide Sound, Opcode, Operands, BigEndian32;
    var h := |code| + 1;
    SoundLength(code, pl);
    FreshHole(code, pl, h);
    var b := [op] + BigEndian32(HOLE);
    assert forall j :: 0 <= j < 5 ==> InHole({h}, |code| + j) || b[j] == Encode(i)[j];
    assert Encode(i)[1..5] == BigEndian32(t);
    assert (pl.truth + Encode(i))[h..h + 4] == Encode(i)[1..5];
    EmitSound(code, pl, i, {h}, b);
  }

  lemma RegisterSound(code: seq<u8>, pl: Plan, ret: u32, cleanup: u32)
    requires Sound(code, pl)
    ensures var h := |code| + 1;
            var pl1 := Emitted(pl, RegisterReturnCleanup(ret, cleanup), {h, h + 4});
            h !in pl.open && h + 4 !in pl.open && Reads(pl1.truth, h, ret) && Reads(pl1.truth, h + 4, cleanup) &&
            Sound(code + ([82] + BigEndian32(0) + BigEndian32(HOLE)), pl1)
  {
    hide Sound, BigEndian32;
    var h := |code| + 1;
    var i := RegisterReturnCleanup(ret, cleanup);
    SoundLength(code, pl);
    FreshHole(code, pl, h);
    FreshHole(code, pl, h + 4);
    var b: seq<u8> := [82] + BigEndian32(0) + BigEndian32(HOLE);
    assert forall j :: 0 <= j < 9 ==> InHole({h, h + 4}, |code| + j) || b[j] == Encode(i)[j];
    assert Encode(i)[1..5] == BigEndian32(ret) && Encode(i)[5..9] == BigEndian32(cleanup);
    assert (pl.truth + Encode(i))[h..h + 4] == Encode(i)[1..5];
    assert (pl.truth + Encode(i))[h + 4..h + 8] == Encode(i)[5..9];
    EmitSound(code, pl, i, {h, h + 4}, b);
  }

  /** What an emission with fresh holes keeps. */
  lemma EmitKeeps(code1: seq<u8>, breaks: seq<seq<nat>>, continues: seq<seq<nat>>, cleanups: seq<seq<nat>>, links: seq<Link>,
                  pl: Plan, i: Instr, holes: set<int>, fns: seq<u32>)
    requires ListsOk(breaks, continues, cleanups, links, pl, fns) && Sound(code1, Emitted(pl, i, holes)) && holes !! pl.open
    ensures var pl1 := Emitted(pl, i, holes);
            ListsOk(breaks, continues, cleanups, links, pl1, fns) && Consistent(pl1) && |code1| == |pl1.truth|
    ensures var pl1 := Emitted(pl, i, holes);
            Opened(pl, pl1, holes) && pl1.text == pl.text + [i] && |pl1.truth| == |pl.truth| + Width(i) && !pl1.atLabel
    ensures holes == {} ==> Kept(pl, Emitted(pl, i, holes))
  {
    hide Encode, Width, InLists, InLinks, Reads, Consistent, Tiles, Labelled, HolesInside;
    var more := Encode(i);
    TrackedOn(breaks, pl.brk, pl.truth, more, false);
    TrackedOn(continues, pl.cont, pl.truth, more, false);
    TrackedOn(cleanups, pl.clean, pl.truth, more, pl.parked);
    forall k | 0 <= k < |links| ensures Reads(pl.truth + more, links[k].index, EntryOf(fns, links[k].fn)) {
      ReadsOn(pl.truth, links[k].index, EntryOf(fns, links[k].fn), more);
    }
  }

  lemma TrackedOn(lists: seq<seq<nat>>, targets: seq<u32>, truth: seq<u8>, more: seq<u8>, parked: bool)
    requires Tracked(lists, targets, truth, parked)
    ensures Tracked(lists, targets, truth + more, parked)
  {
    hide Reads;
    forall i, j | 0 <= i < |lists| && 0 <= j < |lists[i]| && !(parked && AtVeryEnd(lists, i, j))
      ensures Reads(truth + more, lists[i][j], targets[i])
    {
      ReadsOn(truth, lists[i][j], targets[i], more);
    }
  }

  lemma ListsFilled(breaks: seq<seq<nat>>, continues: seq<seq<nat>>, cleanups: seq<seq<nat>>, links: seq<Link>,
                    pl: Plan, h: nat, t: u32, fns: seq<u32>)
    requires ListsOk(breaks, continues, cleanups, links, pl, fns)
    ensures ListsOk(breaks, continues, cleanups, links, Filled(pl, h, t), fns)
  {
    hide InLists, InLinks, Reads;
  }

  lemma SoundLength(code: seq<u8>, pl: Plan)
    requires Sound(code, pl)
    ensures |code| == |pl.truth|
  {
  }

  lemma FreshHole(code: seq<u8>, pl: Plan, h: nat)
    requires Sound(code, pl) && h >= |code|
    ensures h !in pl.open
  {
  }

  /** The buffer does not depend on the lists. */
  lemma SoundAnyLists(code: seq<u8>, pl: Plan, pl1: Plan)
    requires Sound(code, pl) && pl1.open <= pl.open
    requires pl1.text == pl.text && pl1.truth == pl.truth && pl1.at == pl.at && pl1.pending == pl.pending && pl1.atLabel == pl.atLabel
    ensures Sound(code, pl1)
  {
    hide Placed, Encode, TotalWidth, Lays, BytesOf;
    forall p | p in pl1.at ensures LabelsOk(pl1, p, pl1.at[p]) {
      assert LabelsOk(pl, p, pl.at[p]);
    }
  }

  /** A filled hole need not be remembered. */
  lemma ForgetFilled(code: seq<u8>, breaks: seq<seq<nat>>, continues: seq<seq<nat>>, cleanups: seq<seq<nat>>, links: seq<Link>,
                     pl: Plan, pl1: Plan, h: int, fns: seq<u32>)
    requires Sound(code, pl) && ListsOk(breaks, continues, cleanups, links, pl, fns) && Consistent(pl)
    requires h !in pl.pending && pl1 == pl.(open := pl.open - {h})
    ensures Sound(code, pl1) && ListsOk(breaks, continues, cleanups, links, pl1, fns) && Consistent(pl1)
  {
    hide Reads;
    SoundAnyLists(code, pl, pl1);
  }

  lemma KeepInLists(a: seq<seq<nat>>, b: seq<seq<nat>>)
    requires |a| <= |b| && forall i :: 0 <= i < |a| ==> b[i] == a[i]
    ensures forall h :: InLists(a, h) ==> InLists(b, h)
  {
  }

  lemma NotedInLists(lists: seq<seq<nat>>, h: nat)
    requires lists != []
    ensures InLists(Noting(lists, h), h)
    ensures forall x :: InLists(lists, x) ==> InLists(Noting(lists, h), x)
  {
    var b := Noting(lists, h);
    assert b[|b| - 1][|Last(lists)|] == h;
    forall x | InLists(lists, x) ensures InLists(b, x) {
      var i :| 0 <= i < |lists| && exists j :: 0 <= j < |lists[i]| && lists[i][j] == x;
      var j :| 0 <= j < |lists[i]| && lists[i][j] == x;
      assert b[i][j] == x;
    }
  }

  lemma NotedLink(links: seq<Link>, h: nat, fn: nat)
    ensures InLinks(links + [Link(h, fn)], h)
    ensures forall x :: InLinks(links, x) ==> InLinks(links + [Link(h, fn)], x)
  {
    var b := links + [Link(h, fn)];
    assert b[|links|].index == h;
    forall x | InLinks(links, x) ensures InLinks(b, x) {
      var i :| 0 <= i < |links| && links[i].index == x;
      assert b[i].index == x;
    }
  }

  lemma TrackedNoting(lists: seq<seq<nat>>, targets: seq<u32>, truth: seq<u8>, parked: bool, h: nat)
    requires Tracked(lists, targets, truth, false) && lists != []
    requires parked || Reads(truth, h, Last(targets))
    ensures Tracked(Noting(lists, h), targets, truth, parked)
  {
    hide Reads;
    var b := Noting(lists, h);
    forall i, j | 0 <= i < |b| && 0 <= j < |b[i]| && !(parked && AtVeryEnd(b, i, j)) ensures Reads(truth, b[i][j], targets[i]) {
      if i < |lists| - 1 || j < |lists[i]| { assert b[i][j] == lists[i][j]; }
    }
  }

  lemma TrackedLast(lists: seq<seq<nat>>, targets: seq<u32>, truth: seq<u8>, t: u32)
    requires Tracked(lists, targets, truth, false) && lists != [] && Last(targets) == t
    ensures forall j :: 0 <= j < |Last(lists)| ==> Reads(truth, Last(lists)[j], t)
  {
    hide Reads;
    forall j | 0 <= j < |Last(lists)| ensures Reads(truth, Last(lists)[j], t) {
      assert Reads(truth, lists[|lists| - 1][j], targets[|lists| - 1]);
    }
  }

  lemma FrontInLists(lists: seq<seq<nat>>)
    requires lists != []
    ensures forall h :: InLists(lists, h) ==> InLists(Front(lists), h) || exists j :: 0 <= j < |Last(lists)| && Last(lists)[j] == h
  {
    forall h | InLists(lists, h) ensures InLists(Front(lists), h) || exists j :: 0 <= j < |Last(lists)| && Last(lists)[j] == h {
      var i :| 0 <= i < |lists| && exists j :: 0 <= j < |lists[i]| && lists[i][j] == h;
      var j :| 0 <= j < |lists[i]| && lists[i][j] == h;
      if i < |lists| - 1 {
        assert Front(lists)[i][j] == h;
      } else {
        assert Last(lists)[j] == h;
      }
    }
  }

  /** Targets behind, and the instruction's own address, are starts of instructions. */
  lemma BehindOk(pl: Plan, i: Instr)
    requires forall t :: t in Targets(i) ==> t as nat in pl.at || t == |pl.truth|
    ensures LabelsOk(Emitted(pl, i, {}), |pl.truth|, i)
  {
    hide Encode;
    var pl1 := Emitted(pl, i, {});
    forall t | t in Targets(i) ensures t as nat in pl1.at {}
    match i
    case Jump(t) => assert t in Targets(i);
    case JumpIfFalse(t) => assert t in Targets(i);
    case JumpIfTrue(t) => assert t in Targets(i);
    case ThrowException(t) => assert t in Targets(i);
    case RegisterReturnCleanup(r, c) => assert r in Targets(i) && c in Targets(i);
    case _ =>
  }

  predicate LeapFits(slots: Option<seq<u32>>, leap: Leap, targets: seq<u32>) {
    (slots.Some? <==> leap.Leap?) &&
    (slots.Some? ==> leap.slots == slots.value && targets != [] && leap.target == Last(targets))
  }

  /** The size of a block without the last jump of its exception segment. */
  function SizeHead(body: Stmts, sh: Shape): nat {
    SizeSeq(body, InnerShape(sh, RefSlots(body))) + SizeReleases(RefSlots(body)) + 5 + SizeReleases(RefSlots(body))
  }

  lemma InnerFits(scope: Scope, env: Env, slots: seq<u32>, catch: u32, brk: seq<u32>, cont: seq<u32>, body: Stmts)
    requires scope.chain == env.chain && LeapFits(scope.brk, env.brk, brk) && LeapFits(scope.cont, env.cont, cont) && SeqLeapsFit(body, env)
    ensures var inner, s := InnerEnv(env, slots, catch), InnerScope(scope, slots);
            s.chain == inner.chain && LeapFits(s.brk, inner.brk, brk) && LeapFits(s.cont, inner.cont, cont) && SeqLeapsFit(body, inner) &&
            ShapeOf(inner) == InnerShape(ShapeOf(env), slots)
  {
    hide LeapsInSeq;
  }

  lemma ClauseSize(body: Stmts, sh: Shape)
    ensures SizeClause(body, sh) == 18 + SizeBlock(body, sh) + 11
  {
  }

  /** The two halves of a try statement's code. */
  lemma TryText(p: nat, s: Stmt, env: Env, inner: Env, outer: Env, skip: nat, unhandled: nat, out: nat)
    requires s.Try? && inner == TryEnv(env, s.fin) && outer == ClauseEnv(inner, s.fin, Addr(unhandled))
    requires skip == p + SizeBlock(s.body, ShapeOf(inner)) && unhandled == skip + 5 + SizeClauses(s.clauses, ShapeOf(inner))
    requires out == unhandled + SizeFinally(s.fin, env.chain)
    ensures StmtCode(p, s, env) ==
            GuardedCode(p, s, inner, outer, skip, out) +
            (FinallyCode(unhandled, s.fin, env) + [Jump(env.cleanup)] + FinallyCode(out + 5, s.fin, env))
    ensures SizeStmt(s, ShapeOf(env)) == out + 5 + SizeFinally(s.fin, env.chain) - p
  {
    hide BlockCode, SizeBlock, ClausesCode, SizeClauses, FinallyCode, SizeFinally, Addr;
    assert ShapeOf(inner) == TryShape(ShapeOf(env), s.fin);
  }

  lemma DispatchText(t: Code, p: nat, cases: Cases, body: nat, env: Env)
    requires cases.Case?
    ensures t + ([Dup] + ExprCode(p + 1, cases.value, env) + [Binary(Eq), JumpIfTrue(Addr(body))]) +
            DispatchCode(p + 1 + SizeExpr(cases.value) + 6, cases.rest, body + SizeSeq(cases.body, SWITCH_SHAPE), env) ==
            t + DispatchCode(p, cases, body, env)
  {
    hide ExprCode, SizeExpr, SizeSeq, Addr;
  }

  lemma HeadText(t: Code, p: nat, body: Stmts, env: Env, end: u32)
    ensures var slots := RefSlots(body);
            var skip := p + SizeSeq(body, InnerShape(ShapeOf(env), slots)) + SizeReleases(slots);
            t + SeqCode(p, body, InnerEnv(env, slots, Addr(skip + 5))) + ReleasesCode(slots) + [Jump(end)] + ReleasesCode(slots) ==
            t + BlockHead(p, body, env, end)
  {
    hide SeqCode, ReleasesCode, RefSlots, SizeSeq, SizeReleases, Addr;
  }

  lemma CallsInTernary(limit: Option<nat>, e: Expr)
    requires e.Ternary? && CallsIn(limit, e)
    ensures CallsIn(limit, e.cond) && CallsIn(limit, e.yes) && CallsIn(limit, e.no)
  {
  }

  lemma TernaryText(t: Code, p: nat, e: Expr, env: Env)
    requires e.Ternary?
    ensures var keepYes, keepNo := e.isRef && RetainsFirst(e.yes, e.no), e.isRef && RetainsFirst(e.no, e.yes);
            var q := p + SizeExpr(e.cond) + 5;
            var q2 := q + SizeExpr(e.yes) + FlagSize(keepYes) + 5;
            t + ExprCode(p, e.cond, env) + [JumpIfFalse(Addr(q2))] + KeptCode(q, e.yes, keepYes, env) +
            [Jump(Addr(q2 + SizeExpr(e.no) + FlagSize(keepNo)))] + KeptCode(q2, e.no, keepNo, env) == t + TernaryCode(p, e, env)
  {
    hide ExprCode, KeptCode, SizeExpr, RetainsFirst, Addr;
  }

  lemma LoopText(t: Code, top: nat, g: Option<Expr>, i: Option<Expr>, b: Stmt, env: Env, next: u32)
    ensures var q := top + SizeOpt(g, 5);
            var after := q + SizeStmt(b, LOOP_SHAPE);
            var end := Addr(after + SizeOpt(i, 1) + 5);
            t + GuardCode(top, g, end, env) + (StmtCode(q, b, LoopEnv(env, end, next)) + IterCode(after, i, env)) + [Jump(Addr(top))] ==
            t + LoopCode(top, g, i, b, env, next)
  {
    hide StmtCode, GuardCode, IterCode, SizeOpt, SizeStmt, Addr;
  }

  lemma FunctionText(t: Code, p: nat, f: Function, fns: seq<u32>)
    ensures t + ([AllocFrame(f.frameSize)] + BodyCode(p + 5, f, fns)) + ([PushNull] + ReleasesCode(f.refs) + [Instr.Return]) ==
            t + FunctionCode(p, f, fns)
  {
    hide BodyCode, ReleasesCode;
  }

  lemma TryChainLeaps(s: Stmt, env: Env)
    requires s.Try? && LeapsFit(s, env)
    ensures LeapsInChain(env.chain)
  {
  }

  /** The exit of a try block is the last entry of the enclosing cleanup list. */
  ghost predicate Parked(cleanups: seq<seq<nat>>, pl: Plan, exit: u32) {
    cleanups != [] && Last(cleanups) != [] && pl.parked && Reads(pl.truth, Last(Last(cleanups)), exit)
  }

  lemma Unparked(code: seq<u8>, breaks: seq<seq<nat>>, continues: seq<seq<nat>>, cleanups: seq<seq<nat>>, links: seq<Link>,
                 pl: Plan, pl1: Plan, h: nat, fns: seq<u32>)
    requires Sound(code, pl) && ListsOk(breaks, continues, cleanups, links, pl, fns) && Consistent(pl)
    requires cleanups != [] && Last(cleanups) != [] && h == Last(Last(cleanups)) && h !in pl.pending
    requires pl1 == pl.(parked := false)
    ensures var fewer := cleanups[|cleanups| - 1 := Front(Last(cleanups))];
            Sound(code, pl1) && ListsOk(breaks, continues, fewer, links, pl1, fns) && Consistent(pl1)
  {
    hide Reads, InLists, InLinks, Consistent;
    SoundAnyLists(code, pl, pl1);
    assert Consistent(pl1) by { SameText(pl, pl1); }
    var fewer := cleanups[|cleanups| - 1 := Front(Last(cleanups))];
    forall i, j | 0 <= i < |fewer| && 0 <= j < |fewer[i]| ensures Reads(pl.truth, fewer[i][j], pl.clean[i]) {
      assert fewer[i][j] == cleanups[i][j] && !AtVeryEnd(cleanups, i, j);
    }
    forall x | InLists(cleanups, x) && x != h ensures InLists(fewer, x) { StillInLists(cleanups, x); }
  }

  lemma SameText(pl: Plan, pl1: Plan)
    requires Consistent(pl) && pl1.text == pl.text && pl1.truth == pl.truth && pl1.at == pl.at
    ensures Consistent(pl1)
  {
  }

  lemma StillInLists(lists: seq<seq<nat>>, x: int)
    requires lists != [] && Last(lists) != [] && InLists(lists, x) && x != Last(Last(lists))
    ensures InLists(lists[|lists| - 1 := Front(Last(lists))], x)
  {
    var fewer := lists[|lists| - 1 := Front(Last(lists))];
    var i :| 0 <= i < |lists| && exists j :: 0 <= j < |lists[i]| && lists[i][j] == x;
    var j :| 0 <= j < |lists[i]| && lists[i][j] == x;
    assert fewer[i][j] == x;
  }

  function Members(holes: seq<nat>): set<int> {
    set k | 0 <= k < |holes| :: holes[k] as int
  }

  lemma MembersOne(h: nat)
    ensures Members([h]) == {h as int}
  {
    assert [h][0] as int in Members([h]);
  }

  lemma MembersCons(h: nat, rest: seq<nat>)
    ensures Members([h] + rest) == {h as int} + Members(rest)
  {
    var all := [h] + rest;
    forall x | x in {h as int} + Members(rest) ensures x in Members(all) {
      if x == h {
        assert all[0] as int in Members(all);
      } else {
        var k :| 0 <= k < |rest| && rest[k] == x;
        assert all[k + 1] as int in Members(all);
      }
    }
    forall x | x in Members(all) ensures x in {h as int} + Members(rest) {
      var k :| 0 <= k < |all| && all[k] == x;
      if k > 0 { assert rest[k - 1] as int in Members(rest); }
    }
  }

  predicate AllRead(truth: seq<u8>, holes: seq<nat>, t: u32) {
    forall k :: 0 <= k < |holes| ==> Reads(truth, holes[k], t)
  }

  lemma AllLater(a: Plan, b: Plan, more: Code, holes: seq<nat>, t: u32)
    requires Consistent(a) && Consistent(b) && b.text == a.text + more && AllRead(a.truth, holes, t)
    ensures AllRead(b.truth, holes, t)
  {
    hide Consistent, Reads;
    forall k | 0 <= k < |holes| ensures Reads(b.truth, holes[k], t) { ReadsLater(a, b, more, holes[k], t); }
  }

  lemma ForgetAll(code: seq<u8>, breaks: seq<seq<nat>>, continues: seq<seq<nat>>, cleanups: seq<seq<nat>>, links: seq<Link>,
                  pl: Plan, pl1: Plan, holes: set<int>, fns: seq<u32>)
    requires Sound(code, pl) && ListsOk(breaks, continues, cleanups, links, pl, fns) && Consistent(pl)
    requires holes !! pl.pending && pl1 == pl.(open := pl.open - holes)
    ensures Sound(code, pl1) && ListsOk(breaks, continues, cleanups, links, pl1, fns) && Consistent(pl1)
  {
    hide Reads;
    SoundAnyLists(code, pl, pl1);
  }

  /** The holes of a switch's comparison ladder, and the bodies they are for. */
  predicate Ladder(truth: seq<u8>, cases: Cases, jumps: seq<nat>, body: nat)
    decreases cases
  {
    match cases
    case NoCase => |jumps| == 1 && Reads(truth, jumps[0], Addr(body))
    case Default(_) => |jumps| == 1 && Reads(truth, jumps[0], Addr(body))
    case Case(_, ss, rest) =>
      jumps != [] && Reads(truth, jumps[0], Addr(body)) && Ladder(truth, rest, jumps[1..], body + SizeSeq(ss, SWITCH_SHAPE))
  }

  /** The first rung of a ladder, and the rest. */
  lemma LadderFirst(truth: seq<u8>, cases: Cases, jumps: seq<nat>, body: nat)
    requires Ladder(truth, cases, jumps, body)
    ensures jumps != [] && Reads(truth, jumps[0], Addr(body)) && jumps == [jumps[0]] + jumps[1..]
    ensures if cases.Case? then Ladder(truth, cases.rest, jumps[1..], body + SizeSeq(cases.body, SWITCH_SHAPE)) else jumps == [jumps[0]]
  {
    hide Reads, Addr, SizeSeq;
  }

  lemma {:induction false} LadderLater(a: Plan, b: Plan, more: Code, cases: Cases, jumps: seq<nat>, body: nat)
    requires Consistent(a) && Consistent(b) && b.text == a.text + more && Ladder(a.truth, cases, jumps, body)
    ensures Ladder(b.truth, cases, jumps, body)
    decreases cases
  {
    hide Consistent, Reads, Addr, SizeSeq;
    ReadsLater(a, b, more, jumps[0], Addr(body));
    if cases.Case? { LadderLater(a, b, more, cases.rest, jumps[1..], body + SizeSeq(cases.body, SWITCH_SHAPE)); }
  }

  lemma NoIter(p: nat, env: Env)
    ensures IterCode(p, None, env) == [] && SizeOpt(None, 1) == 0
  {
  }

  /** What the finished buffer is: every instruction of the text in place, end to
      end, decoding back to itself, and every target the start of one. */
  ghost predicate Placement(code: seq<u8>, at: Listing, text: Code) {
    Lays(at, 0, text) && Lists(code, at) && Tiles(at, |code|) &&
    forall p, t: u32 :: p in at && t in Targets(at[p]) ==> t as nat in at
  }

  lemma Finished(code: seq<u8>, pl: Plan)
    requires Sound(code, pl) && Consistent(pl) && pl.pending == {} && !pl.atLabel
    ensures code == BytesOf(pl.text) && Placement(code, pl.at, pl.text)
  {
    hide Lays, Lists, Tiles, Labelled, TotalWidth;
    Complete(code, pl);
  }

  lemma FirstFunction(prog: Program, fns: seq<u32>)
    ensures StartOf(prog, 0) == BOOT_SIZE && FunctionsCode(prog, 0, fns) == []
  {
  }

  lemma NextFunction(prog: Program, i: nat, fns: seq<u32>)
    requires i < |prog|
    ensures StartOf(prog, i + 1) == StartOf(prog, i) + SizeFunction(prog[i])
    ensures FunctionsCode(prog, i + 1, fns) == FunctionsCode(prog, i, fns) + FunctionCode(StartOf(prog, i), prog[i], fns)
  {
    hide SizeFunction, FunctionCode;
  }

  lemma StartsListed(pl: Plan, prog: Program, entry: nat, argc: u32)
    requires Consistent(pl) && pl.text == ProgramText(prog, entry, argc) && StartOf(prog, |prog|) < HOLE
    requires forall i :: 0 <= i < |prog| ==> LeapsInSeq(prog[i].body, false, false)
    ensures forall i :: 0 <= i < |prog| ==> StartOf(prog, i) in pl.at && EntryPoints(prog)[i] as nat == StartOf(prog, i)
  {
    hide Lists, ProgramText, FunctionAt, LeapsInSeq, Lays, TotalWidth, BytesOf, SizeFunction, BootAt;
    ProgramLaid(pl.at, prog, entry, argc);
    forall i | 0 <= i < |prog| ensures StartOf(prog, i) in pl.at && EntryPoints(prog)[i] as nat == StartOf(prog, i) {
      StartListed(pl.at, prog, i);
    }
  }

  lemma StartListed(at: Listing, prog: Program, i: nat)
    requires i < |prog| && StartOf(prog, |prog|) < HOLE && FunctionAt(at, StartOf(prog, i), prog[i], EntryPoints(prog))
    ensures StartOf(prog, i) in at && EntryPoints(prog)[i] as nat == StartOf(prog, i)
  {
    hide FunctionAt, SizeFunction, StartOf;
    StartsGrow(prog, i, |prog|);
    FunctionStarts(at, StartOf(prog, i), prog[i], EntryPoints(prog));
    AddrFits(StartOf(prog, i));
  }

  lemma FunctionStarts(at: Listing, p: nat, f: Function, fns: seq<u32>)
    requires FunctionAt(at, p, f, fns)
    ensures p in at
  {
    hide SeqAt, ReleasesAt, SizeSeq;
  }

  lemma BelowTheEnd(code: seq<u8>, pl: Plan)
    requires Sound(code, pl)
    ensures forall p :: p in pl.at ==> p < |pl.truth|
  {
    BelowEnd(pl.at, |pl.truth|);
  }

  lemma NothingPending(links: seq<Link>, pl: Plan, fns: seq<u32>)
    requires ListsOk([], [], [], links, pl, fns) && pl.open == {}
    requires forall m :: 0 <= m < |links| ==> links[m].index !in pl.pending
    ensures pl.pending == {}
  {
    hide Reads;
    forall h ensures h !in pl.pending { assert h in pl.pending ==> InLinks(links, h); }
  }
}
