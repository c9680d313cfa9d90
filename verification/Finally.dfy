/** What the semantics, and so the compiled code, guarantees of try statements: the
    first matching clause handles, and a finally block that completes keeps how the
    try ends, unless an exception caught inside it has left an operand behind. */
module Finally {
  import opened Options
  import opened Words
  import opened Instructions
  import opened Syntax
  import opened Semantics
  import opened Residue

  // ------------------------------------------------------------------- handlers

  function ClauseCount(clauses: Clauses): nat {
    match clauses
    case NoClause => 0
    case Clause(_, _, _, rest) => 1 + ClauseCount(rest)
  }

  function NthClause(clauses: Clauses, n: nat): Clauses
    requires n < ClauseCount(clauses)
    ensures NthClause(clauses, n).Clause?
  {
    if n == 0 then clauses else NthClause(clauses.rest, n - 1)
  }

  predicate Handles(w: World, st: State, clauses: Clauses, n: nat)
    requires n < ClauseCount(clauses)
  {
    IsInstance(w, st.trace, st.exc, NthClause(clauses, n).classId)
  }

  /** The first clause whose class matches takes the exception: its variable holds
      it, no exception is active any more, and the clauses before it leave no mark. */
  lemma {:induction false} FirstMatchHandles(w: World, prog: Program, conv: Conv, clauses: Clauses, n: nat, st: State, fuel: nat)
    requires n < ClauseCount(clauses) && Handles(w, st, clauses, n)
    requires forall i: nat :: i < n ==> !Handles(w, st, clauses, i)
    requires NthClause(clauses, n).slot < |st.locals|
    ensures var c := NthClause(clauses, n);
            var start := Caught(st, c.slot);
            var r := ExecBlock(w, prog, conv, c.body, start, fuel);
            start.exc == 0 && start.locals[c.slot] == st.exc &&
            ExecClauses(w, prog, conv, clauses, st, fuel) ==
              if r.Done? && r.o == Normal then r.(st := Log(r.st, Released(Low32(r.st.locals[c.slot])))) else r
    decreases n
  {
    hide ExecBlock, IsInstance;
    if n > 0 {
      assert !Handles(w, st, clauses, 0);
      forall i: nat | i < n - 1 ensures !Handles(w, st, clauses.rest, i) {
        assert !Handles(w, st, clauses, i + 1);
      }
      FirstMatchHandles(w, prog, conv, clauses.rest, n - 1, st, fuel);
    }
  }

  /** When no clause matches, the exception goes on, nothing touched. */
  lemma {:induction false} NoMatchPassesOn(w: World, prog: Program, conv: Conv, clauses: Clauses, st: State, fuel: nat)
    requires forall i: nat :: i < ClauseCount(clauses) ==> !Handles(w, st, clauses, i)
    ensures ExecClauses(w, prog, conv, clauses, st, fuel) == Done(Throwing, st, [])
  {
    hide ExecBlock, IsInstance;
    if clauses.Clause? {
      assert !Handles(w, st, clauses, 0);
      forall i: nat | i < ClauseCount(clauses.rest) ensures !Handles(w, st, clauses.rest, i) {
        assert !Handles(w, st, clauses, i + 1);
      }
      NoMatchPassesOn(w, prog, conv, clauses.rest, st, fuel);
    }
  }

  // ------------------------------------------------------------------ the way out

  /** A finally block that completes keeps normal completion and exceptions as they
      are; a pending result becomes whatever the block left topmost. */
  lemma FinishKeeps(r: Result, f: Result)
    requires r.Done? && f.Done? && f.o == Normal && RunsFinally(r.o)
    ensures Finish(r, f).Done?
    ensures !r.o.Returning? ==> Finish(r, f).o == r.o
    ensures r.o.Returning? ==>
            (Finish(r, f).o == r.o <==> f.left == [] || f.left[|f.left| - 1] == r.o.v)
  {
  }

  /** A finally block in whose nested tries nothing raises while an operand is pending,
      when it completes, changes nothing about how its try statement ends: not
      completion, not the exception, not the result of a return. */
  lemma CarefulFinallyKeepsOutcome(w: World, prog: Program, d: nat, conv: Conv, s: Stmt, st: State, fuel: nat)
    requires s.Try? && s.fin.Some? && SeqCareful(prog, d, s.fin.value, Careless, true, true)
    requires var r := Guarded(w, prog, conv, s, st, fuel);
             r.Done? &&
             var f := ExecBlock(w, prog, conv, s.fin.value, r.st, fuel);
             f.Done? && f.o == Normal
    ensures var x := ExecTry(w, prog, conv, s, st, fuel);
            x.Done? && x.o == Guarded(w, prog, conv, s, st, fuel).o
  {
    hide Guarded, ExecBlock, SeqCareful;
    var r := Guarded(w, prog, conv, s, st, fuel);
    BlockTidy(w, prog, d, conv, s.fin.value, Careless, true, true, r.st, fuel);
    if RunsFinally(r.o) { FinishKeeps(r, ExecBlock(w, prog, conv, s.fin.value, r.st, fuel)); }
  }

  // ------------------------------------------------------------ what is left otherwise

  /** What raises is not the last part of e to be evaluated: the right side of an
      operator or of a compound assignment, a later argument, a constructor or its
      arguments. */
  predicate RaisesLate(w: World, prog: Program, e: Expr, st: State, fuel: nat) {
    match e
    case Arith(_, x, y) =>
      var a := Eval(w, prog, x, st, fuel);
      a.Val? && Eval(w, prog, y, a.st, fuel).Raised?
    case AssignOp(_, slot, _, x) => slot < |st.locals| && Eval(w, prog, x, st, fuel).Raised?
    case Invoke(_, args) =>
      args.Arg? && Eval(w, prog, args.e, st, fuel).Val? && EvalArgs(w, prog, args, st, fuel).ArgRaised?
    case New(_, _, _, _) => EvalNew(w, prog, e, st, fuel).Raised?
    case _ => false
  }

  /** Each of these leaves an operand. */
  lemma LateRaiseLeaves(w: World, prog: Program, e: Expr, st: State, fuel: nat)
    requires RaisesLate(w, prog, e, st, fuel)
    ensures var r := Eval(w, prog, e, st, fuel); r.Raised? && r.left != []
  {
    hide Semantics.Call;
    match e
    case Arith(_, _, _) =>
    case AssignOp(_, _, _, _) =>
    case Invoke(_, _) =>
    case New(_, _, _, _) =>
  }

  /** As does whatever raises inside a switch. */
  lemma SwitchLeaves(w: World, prog: Program, conv: Conv, s: Stmt, st: State, fuel: nat)
    requires s.Switch?
    requires var x := Eval(w, prog, s.subject, st, fuel);
             x.Val? && var r := ExecSwitch(w, prog, x.v, s.cases, x.st, fuel); r.Done? && r.o == Throwing
    ensures var r := Exec(w, prog, conv, s, st, fuel); r.Done? && r.o == Throwing && r.left != []
  {
    hide Eval, ExecSwitch;
  }

  /** try { bad } catch (C e) { } */
  function Swallow(bad: Stmts, classId: u32, slot: u32): Stmts {
    Cons(Try(bad, Clause(classId, slot, Nil, NoClause), None), Nil)
  }

  /** try { return v; } finally { fin } */
  function ReturnThrough(v: u64, fin: Stmts): Stmt {
    Try(Cons(Stmt.Return(Some(IntLit(v)), false), Nil), NoClause, Some(fin))
  }

  /** Caught in a finally block, an exception that left operands replaces the pending
      result by the topmost of them: the result is kept exactly when nothing was left,
      or by coincidence. */
  lemma LeftoverReplacesResult(w: World, prog: Program, v: u64, bad: Stmts, classId: u32, slot: u32, st: State, fuel: nat)
    requires var r := ExecBlock(w, prog, Conv.Keep, bad, st, fuel);
             r.Done? && r.o == Throwing && slot < |st.locals| && IsInstance(w, r.st.trace, r.st.exc, classId)
    ensures var left := ExecBlock(w, prog, Conv.Keep, bad, st, fuel).left;
            var x := Exec(w, prog, Conv.Keep, ReturnThrough(v, Swallow(bad, classId, slot)), st, fuel);
            x.Done? && x.o == Returning(if left == [] then v else left[|left| - 1])
  {
    hide IsInstance, ExecSeq, Guarded;
    var fin := Swallow(bad, classId, slot);
    var s := ReturnThrough(v, fin);
    GuardedReturns(w, prog, v, fin, st, fuel);
    SwallowLeaves(w, prog, bad, classId, slot, st, fuel);
    assert RefSlots(fin) == [];
    var f := ExecBlock(w, prog, Conv.Keep, fin, st, fuel);
    assert f.Done? && f.o == Normal && f.left == ExecBlock(w, prog, Conv.Keep, bad, st, fuel).left;
    assert Exec(w, prog, Conv.Keep, s, st, fuel) == Finish(Done(Returning(v), st, []), f);
  }

  lemma GuardedReturns(w: World, prog: Program, v: u64, fin: Stmts, st: State, fuel: nat)
    ensures Guarded(w, prog, Conv.Keep, ReturnThrough(v, fin), st, fuel) == Done(Returning(v), st, [])
  {
    var body := ReturnThrough(v, fin).body;
    assert RefSlots(body) == [];
    assert Eval(w, prog, IntLit(v), st, fuel) == Val(v, st);
    assert Exec(w, prog, Conv.Keep, body.head, st, fuel) == Done(Returning(v), st, []);
    assert ExecSeq(w, prog, Conv.Keep, body, st, fuel) == Done(Returning(v), st, []);
  }

  lemma SwallowLeaves(w: World, prog: Program, bad: Stmts, classId: u32, slot: u32, st: State, fuel: nat)
    requires var r := ExecBlock(w, prog, Conv.Keep, bad, st, fuel);
             r.Done? && r.o == Throwing && slot < |st.locals| && IsInstance(w, r.st.trace, r.st.exc, classId)
    ensures var x := ExecSeq(w, prog, Conv.Keep, Swallow(bad, classId, slot), st, fuel);
            x.Done? && x.o == Normal && x.left == ExecBlock(w, prog, Conv.Keep, bad, st, fuel).left
  {
    hide IsInstance;
    var r := ExecBlock(w, prog, Conv.Keep, bad, st, fuel);
    hide ExecBlock;
    var t := Swallow(bad, classId, slot).head;
    NothingCaught(w, prog, classId, slot, r.st, fuel);
    assert ExecTry(w, prog, Conv.Keep, t, st, fuel) == Guarded(w, prog, Conv.Keep, t, st, fuel);
    var x := Exec(w, prog, Conv.Keep, t, st, fuel);
    assert x.Done? && x.o == Normal && x.left == r.left;
    assert ExecSeq(w, prog, Conv.Keep, Nil, x.st, fuel) == Done(Normal, x.st, []);
  }

  /** An empty clause takes the exception over. */
  lemma NothingCaught(w: World, prog: Program, classId: u32, slot: u32, st: State, fuel: nat)
    requires slot < |st.locals| && IsInstance(w, st.trace, st.exc, classId)
    ensures var r := ExecClauses(w, prog, Conv.Keep, Clause(classId, slot, Nil, NoClause), st, fuel);
            r.Done? && r.o == Normal && r.left == []
  {
    hide IsInstance;
    var start := Caught(st, slot);
    assert RefSlots(Nil) == [];
    assert ExecSeq(w, prog, Conv.Keep, Nil, start, fuel) == Done(Normal, start, []);
    assert ExecBlock(w, prog, Conv.Keep, Nil, start, fuel) == Done(Normal, start, []);
  }

  // ------------------------------------------------------------ each position can fail

  /** void thrower(E p) { throw p; } */
  const THROWER := Function(1, 1, [0], Conv.Keep, true, Cons(Throw(Local(0)), Nil))

  /** thrower(p), for the exception p in slot 0 */
  const THROWS := Invoke(0, Arg(Local(0), true, NoArgs))

  /** A statement that raises in each of the places where an operand is pending. */
  function Bad(i: nat): Stmt
    requires i < 6
  {
    match i
    case 0 => ExprStmt(Arith(Add, IntLit(5), THROWS), false)                            // 5 + thrower(p)
    case 1 => ExprStmt(Invoke(0, Arg(IntLit(5), false, Arg(THROWS, false, NoArgs))), false) // f(5, thrower(p))
    case 2 => ExprStmt(AssignOp(Add, 1, Conv.Keep, THROWS), false)                      // x += thrower(p)
    case 3 => ExprStmt(New(7, 16, 0, Arg(THROWS, false, NoArgs)), true)                 // new E(thrower(p))
    case 4 => ExprStmt(New(7, 16, 0, NoArgs), true)                                     // new E(), which throws
    case 5 => Switch(IntLit(5), Default(Cons(Throw(Local(0)), Nil)))                    // switch (5) { default: throw p; }
  }

  /** Slot 0 holds an exception object of class 7 at address 1. */
  const START := State([1, 0], 0, [Allocated(16, OBJECT_TAG, 1), Stamped(1, 7)])

  /** No place can be left out of the condition: each has a finally block for which
      the method does not return its 10. */
  lemma EachPositionFails(w: World, i: nat)
    requires i < 6 && w.matches(7, 7) && (forall t, n :: w.alloc(t, n) == Some(24))
    ensures var s := ReturnThrough(10, Swallow(Cons(Bad(i), Nil), 7, 1));
            var r := Exec(w, [THROWER], Conv.Keep, s, START, 1);
            r.Done? && r.o.Returning? && r.o.v != 10 && forall d: nat :: !SeqCareful([THROWER], d, s.fin.value, Careless, true, true)
  {
    hide Eval, Exec, IsInstance;
    BadLeaves(w, i);
    var body := Cons(Bad(i), Nil);
    var r := Exec(w, [THROWER], Conv.Keep, Bad(i), START, 1);
    assert RefSlots(body) == [] && RefSlots(Nil) == [];
    assert ExecSeq(w, [THROWER], Conv.Keep, body, START, 1) == r;
    LeftoverReplacesResult(w, [THROWER], 10, body, 7, 1, START, 1);
    forall d: nat ensures !SeqCareful([THROWER], d, Swallow(body, 7, 1), Careless, true, true) { BadIsCareless(i, d); }
  }

  /** The condition excludes each of them. */
  lemma BadIsCareless(i: nat, d: nat)
    requires i < 6
    ensures !SeqCareful([THROWER], d, Swallow(Cons(Bad(i), Nil), 7, 1), Careless, true, true)
  {
    hide SeqCareful, Careful, Bad;
    BadNotClean(i, d);
    if SeqCareful([THROWER], d, Swallow(Cons(Bad(i), Nil), 7, 1), Careless, true, true) {
      SwallowAsks(Bad(i), d);
    }
  }

  lemma SwallowAsks(bad: Stmt, d: nat)
    requires SeqCareful([THROWER], d, Swallow(Cons(bad, Nil), 7, 1), Careless, true, true)
    ensures Careful([THROWER], d, bad, Clean, true, true)
  {
    assert Careful([THROWER], d, Swallow(Cons(bad, Nil), 7, 1).head, Careless, true, true);
    assert SeqCareful([THROWER], d, Cons(bad, Nil), Clean, true, true);
  }

  lemma BadNotClean(i: nat, d: nat)
    requires i < 6
    ensures !Careful([THROWER], d, Bad(i), Clean, true, true)
  {
    hide SeqCareful;
    ThrowerNotSilent(d);
    match i
    case 1 =>
      assert !ArgsCareful([THROWER], d, Arg(THROWS, false, NoArgs), Silent);
      assert !ArgsCareful([THROWER], d, Arg(IntLit(5), false, Arg(THROWS, false, NoArgs)), Clean);
    case 5 => ThrowNotSilent(d);
    case _ =>
  }

  lemma ThrowNotSilent(d: nat)
    ensures !SeqCareful([THROWER], d, Cons(Throw(Local(0)), Nil), Silent, true, false)
  {
    assert !Careful([THROWER], d, Throw(Local(0)), Silent, true, false);
  }

  lemma ThrowerNotSilent(d: nat)
    ensures d > 0 ==> !SeqCareful([THROWER], d - 1, THROWER.body, Silent, false, false)
    ensures !ExprCareful([THROWER], d, THROWS, Silent)
  {
    if d > 0 { assert !Careful([THROWER], d - 1, THROWER.body.head, Silent, false, false); }
  }

  lemma BadLeaves(w: World, i: nat)
    requires i < 6 && w.matches(7, 7) && (forall t, n :: w.alloc(t, n) == Some(24))
    ensures var r := Exec(w, [THROWER], Conv.Keep, Bad(i), START, 1);
            r.Done? && r.o == Throwing && IsInstance(w, r.st.trace, r.st.exc, 7) && r.left != [] && r.left[|r.left| - 1] != 10
  {
    match i
    case 0 => SumLeaves(w);
    case 1 => ArgumentLeaves(w);
    case 2 => AssignmentLeaves(w);
    case 3 => ConstructionLeaves(w);
    case 4 => ConstructorLeaves(w);
    case 5 => SubjectLeaves(w);
  }

  /** After thrower(p): p retained as an argument and as the exception, and released
      with the frame. */
  function Thrown(st: State, p: u32): State {
    st.(exc := p, trace := st.trace + [Retained(p)] + [Released(p)])
  }

  lemma ThrowerThrows(w: World, p: u32, st: State)
    requires p != 0
    ensures Semantics.Call(w, [THROWER], 0, [p as u64], st, 0) == Raised(Thrown(st, p), [])
  {
    var inside := State([p as u64], st.exc, st.trace);
    assert Entered(THROWER, [p as u64], st) == inside;
    assert Eval(w, [THROWER], Local(0), inside, 0) == Val(p as u64, inside);
    var after := inside.(exc := p, trace := st.trace + [Retained(p)]);
    assert Low32(p as u64) == p;
    assert Exec(w, [THROWER], Conv.Keep, Throw(Local(0)), inside, 0) == Done(Throwing, after, []);
    assert ExecSeq(w, [THROWER], Conv.Keep, THROWER.body, inside, 0) == Done(Throwing, after, []);
    assert RefSlots(THROWER.body) == [];
    assert ExecBlock(w, [THROWER], Conv.Keep, THROWER.body, inside, 0) == Done(Throwing, after, []);
    assert THROWER.refs[1..] == [];
    assert ReleaseAll(ReleaseSlot(after, 0), []) == ReleaseSlot(after, 0);
    assert ReleaseAll(after, [0]) == ReleaseSlot(after, 0);
  }

  lemma CallThrows(w: World, st: State)
    requires |st.locals| > 0 && st.locals[0] == 1
    ensures Eval(w, [THROWER], THROWS, st, 1) == Raised(Thrown(Log(st, Retained(1)), 1), [])
  {
    hide Semantics.Call;
    var st1 := Log(st, Retained(1));
    ThrowerThrows(w, 1, st1);
    assert Eval(w, [THROWER], Local(0), st, 1) == Val(1, st);
    assert EvalArgs(w, [THROWER], NoArgs, st1, 1) == Vals([], st1);
    assert EvalArgs(w, [THROWER], THROWS.args, st, 1) == Vals([1], st1);
  }

  lemma ClassStays(trace: seq<Event>, e: Event, p: u32)
    requires e.Retained? || e.Released? || (e.Stamped? && e.addr != p) || (e.Allocated? && e.addr != p)
    ensures ClassOf(trace + [e], p) == ClassOf(trace, p)
  {
    assert (trace + [e])[..|trace|] == trace;
  }

  lemma StartInstance(w: World, st: State)
    requires w.matches(7, 7) && ClassOf(st.trace, 1) == Some(7)
    ensures var t := Thrown(Log(st, Retained(1)), 1); IsInstance(w, t.trace, t.exc, 7)
  {
    ClassStays(st.trace, Retained(1), 1);
    ClassStays(st.trace + [Retained(1)], Retained(1), 1);
    ClassStays(st.trace + [Retained(1)] + [Retained(1)], Released(1), 1);
  }

  lemma StartClass()
    ensures ClassOf(START.trace, 1) == Some(7)
  {
  }

  lemma SumLeaves(w: World)
    requires w.matches(7, 7)
    ensures var r := Exec(w, [THROWER], Conv.Keep, Bad(0), START, 1);
            r.Done? && r.o == Throwing && IsInstance(w, r.st.trace, r.st.exc, 7) && r.left == [5]
  {
    hide IsInstance, EvalInvoke;
    CallThrows(w, START);
    StartClass();
    StartInstance(w, START);
    assert Eval(w, [THROWER], IntLit(5), START, 1) == Val(5, START);
  }

  lemma ArgumentLeaves(w: World)
    requires w.matches(7, 7)
    ensures var r := Exec(w, [THROWER], Conv.Keep, Bad(1), START, 1);
            r.Done? && r.o == Throwing && IsInstance(w, r.st.trace, r.st.exc, 7) && r.left == [5]
  {
    hide IsInstance;
    CallThrows(w, START);
    StartClass();
    StartInstance(w, START);
    var t := Eval(w, [THROWER], THROWS, START, 1);
    var later := Arg(THROWS, false, NoArgs);
    assert EvalArgs(w, [THROWER], later, START, 1) == ArgRaised(t.st, []);
    assert Eval(w, [THROWER], IntLit(5), START, 1) == Val(5, START);
    assert EvalArgs(w, [THROWER], Arg(IntLit(5), false, later), START, 1) == ArgRaised(t.st, [5]);
  }

  lemma AssignmentLeaves(w: World)
    requires w.matches(7, 7)
    ensures var r := Exec(w, [THROWER], Conv.Keep, Bad(2), START, 1);
            r.Done? && r.o == Throwing && IsInstance(w, r.st.trace, r.st.exc, 7) && r.left == [0]
  {
    hide IsInstance, EvalInvoke;
    CallThrows(w, START);
    StartClass();
    StartInstance(w, START);
  }

  lemma ConstructionLeaves(w: World)
    requires w.matches(7, 7) && (forall t, n :: w.alloc(t, n) == Some(24))
    ensures var r := Exec(w, [THROWER], Conv.Keep, Bad(3), START, 1);
            r.Done? && r.o == Throwing && IsInstance(w, r.st.trace, r.st.exc, 7) && r.left == [24, 24]
  {
    hide IsInstance, EvalInvoke;
    var st := Created(START, 16, 24, 7);
    CallThrows(w, st);
    StartClass();
    ClassStays(START.trace, Allocated(16, OBJECT_TAG, 24), 1);
    ClassStays(START.trace + [Allocated(16, OBJECT_TAG, 24)], Stamped(24, 7), 1);
    ClassStays(START.trace + [Allocated(16, OBJECT_TAG, 24)] + [Stamped(24, 7)], Retained(24), 1);
    StartInstance(w, st);
    var t := Eval(w, [THROWER], THROWS, st, 1);
    assert EvalArgs(w, [THROWER], Arg(THROWS, false, NoArgs), st, 1) == ArgRaised(t.st, []);
  }

  lemma ConstructorLeaves(w: World)
    requires w.matches(7, 7) && (forall t, n :: w.alloc(t, n) == Some(24))
    ensures var r := Exec(w, [THROWER], Conv.Keep, Bad(4), START, 1);
            r.Done? && r.o == Throwing && IsInstance(w, r.st.trace, r.st.exc, 7) && r.left == [24]
  {
    hide Semantics.Call, IsInstance;
    var st := Created(START, 16, 24, 7);
    ThrowerThrows(w, 24, st);
    NewObjectInstance(w, st);
    assert EvalArgs(w, [THROWER], NoArgs, st, 1) == Vals([], st);
    assert [24 as u64] + [] == [24];
  }

  lemma NewObjectInstance(w: World, st: State)
    requires w.matches(7, 7) && st == Created(START, 16, 24, 7)
    ensures var t := Thrown(st, 24); IsInstance(w, t.trace, t.exc, 7)
  {
    var before := START.trace + [Allocated(16, OBJECT_TAG, 24)];
    assert (before + [Stamped(24, 7)])[..|before|] == before;
    ClassStays(before + [Stamped(24, 7)], Retained(24), 24);
    ClassStays(st.trace, Retained(24), 24);
    ClassStays(st.trace + [Retained(24)], Released(24), 24);
  }

  lemma SubjectLeaves(w: World)
    requires w.matches(7, 7)
    ensures var r := Exec(w, [THROWER], Conv.Keep, Bad(5), START, 1);
            r.Done? && r.o == Throwing && IsInstance(w, r.st.trace, r.st.exc, 7) && r.left == [5]
  {
    var t := Log(START, Retained(1)).(exc := 1);
    StartClass();
    ClassStays(START.trace, Retained(1), 1);
    var body := Cons(Throw(Local(0)), Nil);
    assert Eval(w, [THROWER], Local(0), START, 1) == Val(1, START);
    assert Exec(w, [THROWER], Conv.Keep, body.head, START, 1) == Done(Throwing, t, []);
    assert ExecSeq(w, [THROWER], Conv.Keep, body, START, 1) == Done(Throwing, t, []);
    assert ExecCases(w, [THROWER], Default(body), START, 1) == Done(Throwing, t, []);
    assert ExecSwitch(w, [THROWER], 5, Default(body), START, 1) == Done(Throwing, t, []);
    assert Eval(w, [THROWER], IntLit(5), START, 1) == Val(5, START);
  }
}
