/** The binder's "not all control paths return a value" check, against the
    semantics: when it is satisfied, no run falls off the end of the body. */
module ReturnPaths {
  import opened Options
  import opened Words
  import opened Instructions
  import opened Syntax
  import opened Semantics

  predicate ReturnsOnAllPaths(s: Stmt)
    decreases s, 0
  {
    match s
    case Return(_, _) => true
    case Throw(_) => true
    case Block(body) => SomeReturns(body)
    case IfElse(_, t, f) => ReturnsOnAllPaths(t) && ReturnsOnAllPaths(f)
    case Try(body, clauses, fin) => FinallyReturns(fin) || (SomeReturns(body) && AllClausesReturn(clauses))
    case Switch(_, cases) => HasDefault(cases) && AllCasesReturn(cases)
    case _ => false
  }

  predicate FinallyReturns(fin: Option<Stmts>)
    decreases fin, 1
  {
    fin.Some? && SomeReturns(fin.value)
  }

  /** A block returns when one of its statements does. */
  predicate SomeReturns(ss: Stmts)
    decreases ss, 0
  {
    match ss
    case Nil => false
    case Cons(s, rest) => ReturnsOnAllPaths(s) || SomeReturns(rest)
  }

  predicate HasDefault(cases: Cases) {
    match cases
    case NoCase => false
    case Default(_) => true
    case Case(_, _, rest) => HasDefault(rest)
  }

  predicate AllCasesReturn(cases: Cases)
    decreases cases, 0
  {
    match cases
    case NoCase => true
    case Default(body) => SomeReturns(body)
    case Case(_, body, rest) => SomeReturns(body) && AllCasesReturn(rest)
  }

  predicate AllClausesReturn(clauses: Clauses)
    decreases clauses, 0
  {
    match clauses
    case NoClause => true
    case Clause(_, _, body, rest) => SomeReturns(body) && AllClausesReturn(rest)
  }

  // --------------------------------------------------------------- where breaks go

  /** No break leaves the statement. */
  predicate KeepsBreaks(s: Stmt)
    decreases s, 0
  {
    match s
    case Break => false
    case Block(body) => SeqKeepsBreaks(body)
    case If(_, t) => KeepsBreaks(t)
    case IfElse(_, t, f) => KeepsBreaks(t) && KeepsBreaks(f)
    case For(a, _, _, _) => KeepsBreaks(a)
    case Try(body, clauses, fin) => SeqKeepsBreaks(body) && ClausesKeepBreaks(clauses) && FinallyKeepsBreaks(fin)
    case _ => true
  }

  predicate FinallyKeepsBreaks(fin: Option<Stmts>)
    decreases fin, 1
  {
    fin.Some? ==> SeqKeepsBreaks(fin.value)
  }

  predicate SeqKeepsBreaks(ss: Stmts)
    decreases ss, 0
  {
    match ss
    case Nil => true
    case Cons(s, rest) => KeepsBreaks(s) && SeqKeepsBreaks(rest)
  }

  predicate CasesKeepBreaks(cases: Cases)
    decreases cases, 0
  {
    match cases
    case NoCase => true
    case Default(body) => SeqKeepsBreaks(body)
    case Case(_, body, rest) => SeqKeepsBreaks(body) && CasesKeepBreaks(rest)
  }

  predicate ClausesKeepBreaks(clauses: Clauses)
    decreases clauses, 0
  {
    match clauses
    case NoClause => true
    case Clause(_, _, body, rest) => SeqKeepsBreaks(body) && ClausesKeepBreaks(rest)
  }

  /** The check with one more condition: a switch counts only when no break leaves it. */
  predicate SurelyReturns(s: Stmt)
    decreases s, 0
  {
    match s
    case Return(_, _) => true
    case Throw(_) => true
    case Block(body) => SomeSurelyReturns(body)
    case IfElse(_, t, f) => SurelyReturns(t) && SurelyReturns(f)
    case Try(body, clauses, fin) => FinallySurelyReturns(fin) || (SomeSurelyReturns(body) && AllClausesSurelyReturn(clauses))
    case Switch(_, cases) => HasDefault(cases) && AllCasesSurelyReturn(cases) && CasesKeepBreaks(cases)
    case _ => false
  }

  predicate FinallySurelyReturns(fin: Option<Stmts>)
    decreases fin, 1
  {
    fin.Some? && SomeSurelyReturns(fin.value)
  }

  predicate SomeSurelyReturns(ss: Stmts)
    decreases ss, 0
  {
    match ss
    case Nil => false
    case Cons(s, rest) => SurelyReturns(s) || SomeSurelyReturns(rest)
  }

  predicate AllCasesSurelyReturn(cases: Cases)
    decreases cases, 0
  {
    match cases
    case NoCase => true
    case Default(body) => SomeSurelyReturns(body)
    case Case(_, body, rest) => SomeSurelyReturns(body) && AllCasesSurelyReturn(rest)
  }

  predicate AllClausesSurelyReturn(clauses: Clauses)
    decreases clauses, 0
  {
    match clauses
    case NoClause => true
    case Clause(_, _, body, rest) => SomeSurelyReturns(body) && AllClausesSurelyReturn(rest)
  }

  /** No break leaves a switch of s that the check accepts. */
  predicate AcceptedKeepBreaks(s: Stmt)
    decreases s, 0
  {
    match s
    case Block(body) => SeqAcceptedKeepBreaks(body)
    case IfElse(_, t, f) => AcceptedKeepBreaks(t) && AcceptedKeepBreaks(f)
    case Switch(_, cases) =>
      HasDefault(cases) && AllCasesReturn(cases) ==> CasesKeepBreaks(cases) && CasesAcceptedKeepBreaks(cases)
    case Try(body, clauses, fin) =>
      SeqAcceptedKeepBreaks(body) && ClausesAcceptedKeepBreaks(clauses) && FinallyAcceptedKeepsBreaks(fin)
    case _ => true
  }

  predicate FinallyAcceptedKeepsBreaks(fin: Option<Stmts>)
    decreases fin, 1
  {
    fin.Some? ==> SeqAcceptedKeepBreaks(fin.value)
  }

  predicate SeqAcceptedKeepBreaks(ss: Stmts)
    decreases ss, 0
  {
    match ss
    case Nil => true
    case Cons(s, rest) => AcceptedKeepBreaks(s) && SeqAcceptedKeepBreaks(rest)
  }

  predicate CasesAcceptedKeepBreaks(cases: Cases)
    decreases cases, 0
  {
    match cases
    case NoCase => true
    case Default(body) => SeqAcceptedKeepBreaks(body)
    case Case(_, body, rest) => SeqAcceptedKeepBreaks(body) && CasesAcceptedKeepBreaks(rest)
  }

  predicate ClausesAcceptedKeepBreaks(clauses: Clauses)
    decreases clauses, 0
  {
    match clauses
    case NoClause => true
    case Clause(_, _, body, rest) => SeqAcceptedKeepBreaks(body) && ClausesAcceptedKeepBreaks(rest)
  }

  /** What the check accepts returns for sure, unless a break leaves a switch that it
      has accepted; what returns for sure is accepted. */
  lemma {:induction false} AcceptedSurely(s: Stmt)
    ensures ReturnsOnAllPaths(s) && AcceptedKeepBreaks(s) ==> SurelyReturns(s)
    ensures SurelyReturns(s) ==> ReturnsOnAllPaths(s)
    decreases s, 0
  {
    match s
    case Block(body) => SomeAcceptedSurely(body);
    case IfElse(_, t, f) =>
      AcceptedSurely(t);
      AcceptedSurely(f);
    case Try(body, clauses, fin) =>
      SomeAcceptedSurely(body);
      ClausesAcceptedSurely(clauses);
      FinallyAcceptedSurely(fin);
    case Switch(_, cases) => CasesAcceptedSurely(cases);
    case _ =>
  }

  lemma FinallyAcceptedSurely(fin: Option<Stmts>)
    ensures FinallyReturns(fin) && FinallyAcceptedKeepsBreaks(fin) ==> FinallySurelyReturns(fin)
    ensures FinallySurelyReturns(fin) ==> FinallyReturns(fin)
    decreases fin, 1
  {
    if fin.Some? { SomeAcceptedSurely(fin.value); }
  }

  lemma {:induction false} SomeAcceptedSurely(ss: Stmts)
    ensures SomeReturns(ss) && SeqAcceptedKeepBreaks(ss) ==> SomeSurelyReturns(ss)
    ensures SomeSurelyReturns(ss) ==> SomeReturns(ss)
    decreases ss, 0
  {
    if ss.Cons? {
      AcceptedSurely(ss.head);
      SomeAcceptedSurely(ss.tail);
    }
  }

  lemma {:induction false} CasesAcceptedSurely(cases: Cases)
    ensures AllCasesReturn(cases) && CasesAcceptedKeepBreaks(cases) ==> AllCasesSurelyReturn(cases)
    ensures AllCasesSurelyReturn(cases) ==> AllCasesReturn(cases)
    decreases cases, 0
  {
    if !cases.NoCase? { SomeAcceptedSurely(cases.body); }
    if cases.Case? { CasesAcceptedSurely(cases.rest); }
  }

  lemma {:induction false} ClausesAcceptedSurely(clauses: Clauses)
    ensures AllClausesReturn(clauses) && ClausesAcceptedKeepBreaks(clauses) ==> AllClausesSurelyReturn(clauses)
    ensures AllClausesSurelyReturn(clauses) ==> AllClausesReturn(clauses)
    decreases clauses, 0
  {
    if clauses.Clause? {
      SomeAcceptedSurely(clauses.body);
      ClausesAcceptedSurely(clauses.rest);
    }
  }

  predicate Breaks(r: Result) {
    r.Done? && r.o == Breaking
  }

  predicate FallsThrough(r: Result) {
    r.Done? && r.o == Normal
  }

  lemma {:induction false} LoopsKeepBreaks(w: World, prog: Program, g: Option<Expr>, i: Option<Expr>, b: Stmt, st: State, fuel: nat)
    ensures !Breaks(ExecLoop(w, prog, g, i, b, st, fuel))
    decreases fuel, 2
  {
    hide Eval, ExecRound;
    if fuel > 0 {
      var x := if g.Some? then Eval(w, prog, g.value, st, fuel - 1) else Val(1, st);
      if x.Val? { RoundKeepsBreaks(w, prog, g, i, b, x.st, fuel); }
    }
  }

  lemma {:induction false} RoundKeepsBreaks(w: World, prog: Program, g: Option<Expr>, i: Option<Expr>, b: Stmt, st: State, fuel: nat)
    requires fuel > 0
    ensures !Breaks(ExecRound(w, prog, g, i, b, st, fuel))
    decreases fuel, 1
  {
    hide Exec, ExecBack, Cut;
    var r := Cut(Exec(w, prog, Keep, b, st, fuel - 1));
    if r.Done? { BackKeepsBreaks(w, prog, g, i, b, r.st, fuel); }
  }

  lemma {:induction false} BackKeepsBreaks(w: World, prog: Program, g: Option<Expr>, i: Option<Expr>, b: Stmt, st: State, fuel: nat)
    requires fuel > 0
    ensures !Breaks(ExecBack(w, prog, g, i, b, st, fuel))
    decreases fuel, 0
  {
    hide Eval, Exec, InFrame, ExecLoop;
    var y := if i.Some? then Eval(w, prog, i.value, st, fuel - 1) else Val(0, st);
    if y.Val? { LoopsKeepBreaks(w, prog, g, i, b, y.st, fuel - 1); }
  }

  lemma {:induction false} DosKeepBreaks(w: World, prog: Program, b: Stmt, c: Expr, st: State, fuel: nat)
    ensures !Breaks(ExecDo(w, prog, b, c, st, fuel))
    decreases fuel, 1
  {
    hide Exec, Until, Cut, ExecDo;
    DoIs(w, prog, b, c, st, fuel);
    if fuel > 0 {
      var r := Cut(Exec(w, prog, Keep, b, st, fuel - 1));
      if r.Done? { UntilKeepsBreaks(w, prog, b, c, r.st, fuel); }
    }
  }

  lemma {:induction false} UntilKeepsBreaks(w: World, prog: Program, b: Stmt, c: Expr, st: State, fuel: nat)
    requires fuel > 0
    ensures !Breaks(Until(w, prog, b, c, st, fuel))
    decreases fuel, 0
  {
    hide Eval, ExecDo, Until;
    UntilIs(w, prog, b, c, st, fuel);
    var x := Eval(w, prog, c, st, fuel - 1);
    if x.Val? { DosKeepBreaks(w, prog, b, c, x.st, fuel - 1); }
  }

  lemma {:induction false} StaysInside(w: World, prog: Program, conv: Conv, s: Stmt, st: State, fuel: nat)
    requires KeepsBreaks(s)
    ensures !Breaks(Exec(w, prog, conv, s, st, fuel))
    decreases s, 2
  {
    hide Eval, InFrame, ExecSeq, ReleaseAll, ExecLoop, ExecDo, ExecSwitchStmt, ExecTry, ExecFor, ExecIf, ExecIfElse;
    match s
    case Block(body) => SeqStaysInside(w, prog, conv, body, st, fuel);
    case If(_, _) => IfStaysInside(w, prog, conv, s, st, fuel);
    case IfElse(_, _, _) => IfStaysInside(w, prog, conv, s, st, fuel);
    case While(c, b) => LoopsKeepBreaks(w, prog, Some(c), None, b, st, fuel);
    case DoWhile(b, c) => DosKeepBreaks(w, prog, b, c, st, fuel);
    case For(_, _, _, _) => ForStaysInside(w, prog, conv, s, st, fuel);
    case Try(body, clauses, fin) => TryStaysInside(w, prog, conv, s, st, fuel);
    case Switch(e, cases) => SwitchStaysInside(w, prog, conv, s, st, fuel);
    case _ =>
  }

  lemma IfStaysInside(w: World, prog: Program, conv: Conv, s: Stmt, st: State, fuel: nat)
    requires (s.If? || s.IfElse?) && KeepsBreaks(s)
    ensures !Breaks(Exec(w, prog, conv, s, st, fuel))
    decreases s, 0
  {
    hide Eval;
    var x := Eval(w, prog, s.cond, st, fuel);
    if x.Val? {
      StaysInside(w, prog, conv, s.thn, x.st, fuel);
      if s.IfElse? { StaysInside(w, prog, conv, s.els, x.st, fuel); }
    }
  }

  lemma ForStaysInside(w: World, prog: Program, conv: Conv, s: Stmt, st: State, fuel: nat)
    requires s.For? && KeepsBreaks(s)
    ensures !Breaks(ExecFor(w, prog, conv, s, st, fuel))
    decreases s, 0
  {
    hide Exec, ExecLoop;
    StaysInside(w, prog, conv, s.start, st, fuel);
    var r := Exec(w, prog, conv, s.start, st, fuel);
    if FallsThrough(r) { LoopsKeepBreaks(w, prog, s.guard, s.iter, s.loop, r.st, fuel); }
  }

  /** The final POP turns a break into normal completion. */
  lemma SwitchStaysInside(w: World, prog: Program, conv: Conv, s: Stmt, st: State, fuel: nat)
    requires s.Switch?
    ensures !Breaks(ExecSwitchStmt(w, prog, conv, s, st, fuel))
  {
    hide Eval, ExecSwitch;
  }

  lemma TryStaysInside(w: World, prog: Program, conv: Conv, s: Stmt, st: State, fuel: nat)
    requires s.Try? && KeepsBreaks(s)
    ensures !Breaks(ExecTry(w, prog, conv, s, st, fuel))
    decreases s, 1
  {
    hide ExecBlock, Guarded;
    GuardedStaysInside(w, prog, conv, s, st, fuel);
    var r := Guarded(w, prog, conv, s, st, fuel);
    if r.Done? && s.fin.Some? { BlockStaysInside(w, prog, conv, s.fin.value, r.st, fuel); }
  }

  lemma GuardedStaysInside(w: World, prog: Program, conv: Conv, s: Stmt, st: State, fuel: nat)
    requires s.Try? && KeepsBreaks(s)
    ensures !Breaks(Guarded(w, prog, conv, s, st, fuel))
    decreases s, 0
  {
    hide ExecBlock, ExecClauses;
    BlockStaysInside(w, prog, conv, s.body, st, fuel);
    var r := ExecBlock(w, prog, conv, s.body, st, fuel);
    if r.Done? && r.o == Throwing { ClausesStayInside(w, prog, conv, s.clauses, r.st, fuel); }
  }

  lemma BlockStaysInside(w: World, prog: Program, conv: Conv, body: Stmts, st: State, fuel: nat)
    requires SeqKeepsBreaks(body)
    ensures !Breaks(ExecBlock(w, prog, conv, body, st, fuel))
    decreases body, 1
  {
    hide ExecSeq, ReleaseAll, InFrame;
    SeqStaysInside(w, prog, conv, body, st, fuel);
  }

  lemma {:induction false} SeqStaysInside(w: World, prog: Program, conv: Conv, ss: Stmts, st: State, fuel: nat)
    requires SeqKeepsBreaks(ss)
    ensures !Breaks(ExecSeq(w, prog, conv, ss, st, fuel))
    decreases ss, 0
  {
    hide Exec;
    if ss.Cons? {
      StaysInside(w, prog, conv, ss.head, st, fuel);
      var r := Exec(w, prog, conv, ss.head, st, fuel);
      if FallsThrough(r) { SeqStaysInside(w, prog, conv, ss.tail, r.st, fuel); }
    }
  }

  lemma {:induction false} ClausesStayInside(w: World, prog: Program, conv: Conv, clauses: Clauses, st: State, fuel: nat)
    requires ClausesKeepBreaks(clauses)
    ensures !Breaks(ExecClauses(w, prog, conv, clauses, st, fuel))
    decreases clauses, 0
  {
    hide ExecSeq, IsInstance, InFrame, ReleaseAll;
    if clauses.Clause? {
      ClausesStayInside(w, prog, conv, clauses.rest, st, fuel);
      if clauses.slot < |st.locals| { SeqStaysInside(w, prog, conv, clauses.body, Caught(st, clauses.slot), fuel); }
    }
  }

  lemma {:induction false} CasesStayInside(w: World, prog: Program, cases: Cases, st: State, fuel: nat)
    requires CasesKeepBreaks(cases)
    ensures !Breaks(ExecCases(w, prog, cases, st, fuel))
    decreases cases, 0
  {
    hide ExecSeq;
    match cases
    case NoCase =>
    case Default(body) => SeqStaysInside(w, prog, Keep, body, st, fuel);
    case Case(_, body, rest) =>
      SeqStaysInside(w, prog, Keep, body, st, fuel);
      var r := ExecSeq(w, prog, Keep, body, st, fuel);
      if FallsThrough(r) { CasesStayInside(w, prog, rest, r.st, fuel); }
  }

  // ---------------------------------------------------------------- the soundness

  /** A statement that the check accepts, and rightly, never completes normally, whatever
      it calls, throws or catches. */
  lemma {:induction false} NeverFallsThrough(w: World, prog: Program, conv: Conv, s: Stmt, st: State, fuel: nat)
    requires SurelyReturns(s)
    ensures !FallsThrough(Exec(w, prog, conv, s, st, fuel))
    decreases s, 2
  {
    hide Eval, InFrame, ExecSeq, ReleaseAll, ExecLoop, ExecDo, ExecSwitch, ExecClauses;
    match s
    case Block(body) => SeqNeverFallsThrough(w, prog, conv, body, st, fuel);
    case IfElse(c, t, f) =>
      var x := Eval(w, prog, c, st, fuel);
      if x.Val? {
        NeverFallsThrough(w, prog, conv, t, x.st, fuel);
        NeverFallsThrough(w, prog, conv, f, x.st, fuel);
      }
    case Try(_, _, _) => TryNeverFallsThrough(w, prog, conv, s, st, fuel);
    case Switch(e, cases) =>
      var x := Eval(w, prog, e, st, fuel);
      if x.Val? { SwitchNeverFallsThrough(w, prog, x.v, cases, x.st, fuel); }
    case _ =>
  }

  lemma TryNeverFallsThrough(w: World, prog: Program, conv: Conv, s: Stmt, st: State, fuel: nat)
    requires s.Try? && SurelyReturns(s)
    ensures !FallsThrough(ExecTry(w, prog, conv, s, st, fuel))
    decreases s, 0
  {
    hide Eval, InFrame, ExecSeq, ReleaseAll, ExecClauses;
    var r := ExecBlock(w, prog, conv, s.body, st, fuel);
    var r1 := Guarded(w, prog, conv, s, st, fuel);
    if FinallySurelyReturns(s.fin) {
      if r1.Done? { SeqNeverFallsThrough(w, prog, conv, s.fin.value, r1.st, fuel); }
    } else {
      SeqNeverFallsThrough(w, prog, conv, s.body, st, fuel);
      if r.Done? && r.o == Throwing { ClausesNeverFallThrough(w, prog, conv, s.clauses, r.st, fuel); }
    }
  }

  lemma {:induction false} SeqNeverFallsThrough(w: World, prog: Program, conv: Conv, ss: Stmts, st: State, fuel: nat)
    requires SomeSurelyReturns(ss)
    ensures !FallsThrough(ExecSeq(w, prog, conv, ss, st, fuel))
    decreases ss, 0
  {
    hide Exec;
    if ss.Cons? {
      var r := Exec(w, prog, conv, ss.head, st, fuel);
      if SurelyReturns(ss.head) {
        NeverFallsThrough(w, prog, conv, ss.head, st, fuel);
      } else if FallsThrough(r) {
        SeqNeverFallsThrough(w, prog, conv, ss.tail, r.st, fuel);
      }
    }
  }

  lemma {:induction false} ClausesNeverFallThrough(w: World, prog: Program, conv: Conv, clauses: Clauses, st: State, fuel: nat)
    requires AllClausesSurelyReturn(clauses)
    ensures !FallsThrough(ExecClauses(w, prog, conv, clauses, st, fuel))
    decreases clauses, 0
  {
    hide ExecSeq, IsInstance, InFrame, ReleaseAll;
    if clauses.Clause? {
      ClausesNeverFallThrough(w, prog, conv, clauses.rest, st, fuel);
      if clauses.slot < |st.locals| { SeqNeverFallsThrough(w, prog, conv, clauses.body, Caught(st, clauses.slot), fuel); }
    }
  }

  lemma {:induction false} CasesNeverFallThrough(w: World, prog: Program, cases: Cases, st: State, fuel: nat)
    requires !cases.NoCase? && AllCasesSurelyReturn(cases)
    ensures !FallsThrough(ExecCases(w, prog, cases, st, fuel))
    decreases cases, 0
  {
    hide ExecSeq;
    SeqNeverFallsThrough(w, prog, Keep, cases.body, st, fuel);
  }

  /** With a default, some body is entered; no body is left but by breaking, returning,
      throwing or an outer leap. */
  lemma {:induction false} SwitchNeverFallsThrough(w: World, prog: Program, v: u64, cases: Cases, st: State, fuel: nat)
    requires HasDefault(cases) && AllCasesSurelyReturn(cases)
    ensures var r := ExecSwitch(w, prog, v, cases, st, fuel);
            !FallsThrough(r) && (CasesKeepBreaks(cases) ==> !Breaks(r))
    decreases cases, 1
  {
    hide Eval, ExecCases;
    if cases.Case? {
      var x := Under([v], Eval(w, prog, cases.value, st, fuel));
      if x.Val? {
        CasesNeverFallThrough(w, prog, cases, x.st, fuel);
        if CasesKeepBreaks(cases) { CasesStayInside(w, prog, cases, x.st, fuel); }
        SwitchNeverFallsThrough(w, prog, v, cases.rest, x.st, fuel);
      }
    } else {
      CasesNeverFallThrough(w, prog, cases, st, fuel);
      if CasesKeepBreaks(cases) { CasesStayInside(w, prog, cases, st, fuel); }
    }
  }

  /** An accepted switch falls through exactly when its run ends at a break of its own. */
  lemma FallsThroughAtItsBreaks(w: World, prog: Program, conv: Conv, s: Stmt, st: State, fuel: nat)
    requires s.Switch? && HasDefault(s.cases) && AllCasesSurelyReturn(s.cases)
    requires Eval(w, prog, s.subject, st, fuel).Val?
    ensures var x := Eval(w, prog, s.subject, st, fuel);
            FallsThrough(Exec(w, prog, conv, s, st, fuel)) <==> Breaks(ExecSwitch(w, prog, x.v, s.cases, x.st, fuel))
  {
    hide Eval, ExecSwitch;
    var x := Eval(w, prog, s.subject, st, fuel);
    SwitchNeverFallsThrough(w, prog, x.v, s.cases, x.st, fuel);
  }

  /** An accepted method body ends by returning or throwing, never at its end: the
      implicit null result is never the method's. */
  lemma AcceptedBodyReturns(w: World, prog: Program, fn: nat, vs: seq<u64>, st: State, fuel: nat)
    requires fn < |prog| && SomeReturns(prog[fn].body)
    requires SeqAcceptedKeepBreaks(prog[fn].body) || SomeSurelyReturns(prog[fn].body)
    ensures !FallsThrough(ExecBlock(w, prog, BodyConv(prog[fn]), prog[fn].body, Entered(prog[fn], vs, st), fuel))
  {
    hide ExecSeq, InFrame, ReleaseAll, Entered;
    SomeAcceptedSurely(prog[fn].body);
    SeqNeverFallsThrough(w, prog, BodyConv(prog[fn]), prog[fn].body, Entered(prog[fn], vs, st), fuel);
  }

  /** With a break in a switch the check is unsound: `switch (0) { default: break;
      return 1; }` is accepted and falls through. */
  lemma BreakDefeatsTheCheck(w: World, prog: Program, conv: Conv, st: State, fuel: nat)
    ensures var s := Switch(IntLit(0), Default(Cons(Break, Cons(Stmt.Return(Some(IntLit(1)), false), Nil))));
            ReturnsOnAllPaths(s) && !AcceptedKeepBreaks(s) && FallsThrough(Exec(w, prog, conv, s, st, fuel))
  {
    var body := Cons(Break, Cons(Stmt.Return(Some(IntLit(1)), false), Nil));
    var s := Switch(IntLit(0), Default(body));
    assert SomeReturns(body) && !SeqKeepsBreaks(body);
    assert Exec(w, prog, Keep, Break, st, fuel) == Done(Breaking, st, []);
    assert ExecSeq(w, prog, Keep, body, st, fuel) == Done(Breaking, st, []);
    assert ExecCases(w, prog, Default(body), st, fuel) == Done(Breaking, st, []);
    assert ExecSwitch(w, prog, 0, Default(body), st, fuel) == Done(Breaking, st, []);
    assert Eval(w, prog, IntLit(0), st, fuel) == Val(0, st);
  }
}
