/** Whole programs: the boot sequence calls the entry function, and the machine
    ends as the source program does. */
module Programs {
  import opened Options
  import opened Words
  import opened Instructions
  import opened Syntax
  import opened Semantics
  import opened VirtualMachine
  import opened CodeLayout
  import opened OnePass
  import opened Stepping
  import opened Simulation

  /** The bottom frame of a run. */
  const BOTTOM := Frame(0, 0, 0, 0)

  /** A machine about to boot, the entry's arguments already on its stack. */
  function Booting(p: nat, vs: seq<u64>, exc: u32, trace: seq<Event>): Machine {
    Machine(p, vs, [BOTTOM], exc, 0, map[], false, trace)
  }

  function Base(): Activation {
    Activation([], [BOTTOM], 0, true)
  }

  /** How the machine ends, and after which heap events, when the entry function's
      result is r. */
  function Exit(r: Value): Option<Res> {
    match r
    case Val(v, st) => Some(Halted(ExitCode(v), st.trace))
    case Raised(st, _) => Some(Uncaught(st))
    case Fail(err, trace) => Some(Fault(err, trace))
    case NoValue => None
  }

  function Uncaught(st: State): Res {
    Fault(Unhandled(st.exc), if st.exc == 0 then st.trace else st.trace + [Released(st.exc)])
  }

  /** The main result: when the entry function's source run ends, so does the
      machine, with the value it returned, the exception that escaped it, or its
      error, after the same heap events, unless the stack or the call depth runs out
      first. */
  lemma ProgramRuns(k: Image, p: nat, entry: nat, vs: seq<u64>, exc: u32, trace: seq<Event>, fuel: nat)
    requires Linked(k) && entry < |k.prog| && |vs| == k.prog[entry].params as int
    requires BootAt(k.at, p, entry, |vs|, k.fns) && p + 1 !in k.at && p + BOOT_SIZE < HOLE
    ensures var r := Semantics.Call(k.w, k.prog, entry, vs, State([], exc, trace), fuel);
            Exit(r).Some? ==> Gets(k, Booting(p, vs, exc, trace), Exit(r).value)
  {
    hide Goes, FunctionLinked, Lists, ExecBlock, Entered, Callee, WfFunction, Lands, BootAt, ReleasesAt, ReleaseAll;
    var f, t: nat := k.prog[entry], k.fns[entry];
    var m := Booting(p, vs, exc, trace);
    var st := State([], exc, trace);
    var d := Callee(Base(), st, [], p + 11, |vs|);
    var outer := OuterEnv(f, Addr(FunctionPartsOf(t, f).skip + 5), k.fns);
    var parts := FunctionPartsOf(t, f);
    assert FunctionLinked(k, entry) && WfFunction(f);
    Boots(k, p, entry, vs, exc, trace);
    var y := SimBody(k, entry, d, Entered(f, vs, st), map[], fuel);
    var r := ExecBlock(k.w, k.prog, BodyConv(f), f.body, Entered(f, vs, st), fuel);
    OnwardClean(k, m, Mk(d, t + 5, Entered(f, vs, st), [], map[]), d, outer, parts.params, parts.end, [], y, r);
    Exits(k, m, p, entry, vs, st, y, r, fuel);
  }

  /** The boot sequence enters the entry function. */
  lemma Boots(k: Image, p: nat, entry: nat, vs: seq<u64>, exc: u32, trace: seq<Event>)
    requires Linked(k) && entry < |k.prog| && entry < |k.fns| && |vs| == k.prog[entry].params as int && FunctionLinked(k, entry)
    requires BootAt(k.at, p, entry, |vs|, k.fns) && p + BOOT_SIZE < HOLE
    ensures var f, st := k.prog[entry], State([], exc, trace);
            var d := Callee(Base(), st, [], p + 11, |vs|);
            InFunction(d) && |d.frames| == 2 &&
            Gets(k, Booting(p, vs, exc, trace), Next(Mk(d, k.fns[entry] + 5, Entered(f, vs, st), [], map[])))
  {
    hide Goes, Linked, SeqAt, SizeSeq, ReleasesAt, Entered, Lists, SizeFunction;
    var f, t, argc := k.prog[entry], k.fns[entry], |vs|;
    var st := State([], exc, trace);
    var c := Activation([], [BOTTOM], 0, false);
    var d := Callee(Base(), st, [], p + 11, argc);
    var m := Booting(p, vs, exc, trace);
    var at: nat := t;
    BootPush(k, t, c, p, st, vs);
    BootPush(k, argc, c, p + 5, st, vs + [t as u64]);
    assert m == Mk(c, p, st, vs, map[]);
    var two := vs + [t as u64] + [argc as u64];
    Then(k, m, Mk(c, p + 5, st, vs + [t as u64], map[]), Next(Mk(c, p + 10, st, two, map[])));
    BootCall(k, t, argc, c, p, st, vs);
    Then(k, m, Mk(c, p + 10, st, two, map[]), Next(Mk(d, t, State(vs, exc, trace), [], map[])));
    DoEnter(k, f, vs, st, d, t, map[]);
    Then(k, m, Mk(d, t, State(vs, exc, trace), [], map[]), Next(Mk(d, at + 5, Entered(f, vs, st), [], map[])));
  }

  lemma BootPush(k: Image, v: u32, c: Activation, p: nat, st: State, vs: seq<u64>)
    requires Linked(k) && InstrAt(k.at, p, PushI32(v))
    ensures Gets(k, Mk(c, p, st, vs, map[]), Next(Mk(c, p + 5, st, vs + [v as u64], map[])))
  {
    hide Linked, Goes, Does, Mk;
    BootPushIs(k.w, v, c, p + 5, st, vs);
    Dispatch(k, PushI32(v), c, p, st, vs, map[], Next(Mk(c, p + 5, st, vs + [v as u64], map[])));
  }

  lemma BootPushIs(w: World, v: u32, c: Activation, p: nat, st: State, vs: seq<u64>)
    ensures Does(w, PushI32(v), Mk(c, p, st, vs, map[]), Next(Mk(c, p, st, vs + [v as u64], map[])))
  {
    PushIs(w, c, p, st, vs, v, map[]);
  }

  lemma BootCall(k: Image, t: u32, argc: u32, c: Activation, p: nat, st: State, vs: seq<u64>)
    requires Linked(k) && InstrAt(k.at, p + 10, Instr.Call) && t != 0 && argc as int == |vs| && p + 11 < M32
    requires c == Activation([], [BOTTOM], 0, false) && st.locals == []
    ensures Gets(k, Mk(c, p + 10, st, vs + [t as u64] + [argc as u64], map[]),
                 Next(Mk(Callee(Base(), st, [], p + 11, argc), t, State(vs, st.exc, st.trace), [], map[])))
  {
    hide Linked, Goes, Does, DoCall;
    var m := Mk(c, p + 11, st, vs + [t as u64] + [argc as u64], map[]);
    assert m.stack == vs + [t as u64] + [argc as u64];
    var m1 := Mk(Callee(Base(), st, [], p + 11, argc), t, State(vs, st.exc, st.trace), [], map[]);
    assert m1.stack == vs && m1.frames == [BOTTOM] + [Frame(p + 11, 0, argc, 0)];
    CallEnters(m, t, argc, vs);
    assert m1 == m.(frames := m.frames + [Frame(m.pc % M32, 0, argc, m.env)], stack := vs, env := 0, pc := t, entered := true);
    assert Does(k.w, Instr.Call, m, Next(m1)) by { CallDoes(k.w, m, m1); }
    Dispatch(k, Instr.Call, c, p + 10, st, vs + [t as u64] + [argc as u64], map[], Next(m1));
  }

  /** CALL of a plain function. */
  lemma CallEnters(m: Machine, t: u32, argc: u32, vs: seq<u64>)
    requires m.stack == vs + [t as u64] + [argc as u64] && argc as int == |vs| && t != 0 && |m.frames| == 1
    ensures DoCall(m) == Next(m.(frames := m.frames + [Frame(m.pc % M32, 0, argc, m.env)], stack := vs, env := 0, pc := t, entered := true))
  {
    SmallWord(t);
    SmallWord(argc);
    assert Drop(m).stack == vs + [t as u64];
    assert Drop(Drop(m)).stack == vs;
  }

  lemma CallDoes(w: World, m: Machine, m1: Machine)
    requires DoCall(m) == Next(m1)
    ensures Does(w, Instr.Call, m, Next(m1))
  {
    hide DoCall;
  }

  lemma BootParts(k: Image, p: nat, entry: nat, argc: u32)
    requires BootAt(k.at, p, entry, argc, k.fns)
    ensures InstrAt(k.at, p + 11, Halt)
  {
  }

  /** How the entry function's end becomes the program's. */
  lemma Exits(k: Image, m: Machine, p: nat, entry: nat, vs: seq<u64>, st: State, y: Landing, r: Result, fuel: nat)
    requires Linked(k) && entry < |k.prog| && entry < |k.fns| && |vs| == k.prog[entry].params as int
    requires FunctionLinked(k, entry) && WfFunction(k.prog[entry]) && st.locals == []
    requires BootAt(k.at, p, entry, |vs|, k.fns) && p + 1 !in k.at && p + BOOT_SIZE < HOLE
    requires InFunction(Callee(Base(), st, [], p + 11, |vs|)) && Registered(k, y.cm)
    requires var f, t := k.prog[entry], k.fns[entry];
             r == ExecBlock(k.w, k.prog, BodyConv(f), f.body, Entered(f, vs, st), fuel) &&
             Lands(k, m, Callee(Base(), st, [], p + 11, |vs|), OuterEnv(f, Addr(FunctionPartsOf(t, f).skip + 5), k.fns),
                   FunctionPartsOf(t, f).params, FunctionPartsOf(t, f).end, [], y, r)
    ensures var x := Exit(Semantics.Call(k.w, k.prog, entry, vs, st, fuel));
            x.Some? ==> Gets(k, m, x.value)
  {
    hide Goes, Linked, SeqAt, SizeSeq, ExecBlock, ReleasesAt, ReleaseAll, Entered, Callee, Lands, Climbs, Registered, Mk,
         SlotMask, BodyShape, SizeFunction, RefSlots, LeapsInSeq, FunctionAt, FunctionLinked, BootAt, SizeReleases, FunctionPartsOf;
    BootParts(k, p, entry, |vs|);
    EndParts(k, entry);
    var f, t := k.prog[entry], k.fns[entry];
    var parts := FunctionPartsOf(t, f);
    var d := Callee(Base(), st, [], p + 11, |vs|);
    var outer := OuterEnv(f, Addr(parts.skip + 5), k.fns);
    match r
    case Done(o, st1, left) =>
      if o.Escaping? || (o.Returning? && !f.linked) {
        AtReturn(k, m, f, d, parts.skip + 5, parts.params, parts.end, y, r);
        Cuts(k, m, Base(), st, [], p + 11, |vs|, st1, left, o.v, y);
        Halts(k, m, p + 11, o.v, st1.(locals := st.locals), y.cm);
      } else if InFrame(f.refs, |st1.locals|) {
        match o {
          case Normal =>
            LandedNormally(k, m, d, outer, parts.params, parts.end, [], y, r);
            FallsOff(k, m, f.refs, Base(), st, [], p + 11, |vs|, parts.end, st1, left, y.cm);
            Halts(k, m, p + 11, 0, ReleaseAll(st1, f.refs).(locals := st.locals), y.cm);
          case Returning(v) =>
            LandedReturning(k, m, d, outer, parts.params, parts.end, [], y, r);
            ChainEnds(k, f, y);
            ClimbsOut(k, m, f, Base(), st, [], p + 11, |vs|, st1, left, v, y);
            Halts(k, m, p + 11, v, ReleaseAll(st1, f.refs).(locals := st.locals), y.cm);
          case Throwing =>
            LandedThrowing(k, m, d, outer, parts.params, parts.end, [], y, r);
            Aborts(k, m, f.refs, st, p, |vs|, parts.params, st1, left, y.cm);
          case _ =>
        }
      }
    case Stop(err, tr) => Faults(k, m, d, outer, parts.params, parts.end, [], y, err, tr);
    case NoResult =>
  }

  /** HALT after the entry function has returned. */
  lemma Halts(k: Image, m: Machine, p: nat, v: u64, st: State, cm: map<u32, u32>)
    requires Linked(k) && InstrAt(k.at, p, Halt) && Gets(k, m, Next(Mk(Base(), p, st, [] + [v], cm)))
    ensures Gets(k, m, Halted(ExitCode(v), st.trace))
  {
    hide Linked, Goes, Mk;
    TempTop(Base(), p + 1, st, [], v, cm);
    BaseEntered(p + 1, st, [] + [v], cm);
    Dispatch(k, Halt, Base(), p, st, [] + [v], cm, Halted(ExitCode(v), st.trace));
    Then(k, m, Mk(Base(), p, st, [] + [v], cm), Halted(ExitCode(v), st.trace));
  }

  lemma BaseEntered(p: nat, st: State, temps: seq<u64>, cm: map<u32, u32>)
    ensures Mk(Base(), p, st, temps, cm).entered && Mk(Base(), p, st, temps, cm).trace == st.trace
  {
  }

  /** An exception that leaves the entry function finds no registered cleanup at
      the boot call, nor above it. */
  lemma Aborts(k: Image, m: Machine, refs: seq<u32>, st: State, p: nat, argc: u32, params: nat, st1: State, left: seq<u64>, cm: map<u32, u32>)
    requires Linked(k) && p + BOOT_SIZE < HOLE && InFunction(Callee(Base(), st, [], p + 11, argc)) && InFrame(refs, |st1.locals|)
    requires ReleasesAt(k.at, params, refs) && InstrAt(k.at, params + SizeReleases(refs), JmpToOuterCleanup)
    requires Registered(k, cm) && p + 1 !in k.at && st.locals == []
    requires Gets(k, m, Next(Mk(Callee(Base(), st, [], p + 11, argc), params, st1, [] + left, cm)))
    ensures Gets(k, m, Uncaught(ReleaseAll(st1, refs)))
  {
    hide Mk, Goes, Linked, ReleasesAt, ReleaseAll, Callee;
    var d := Callee(Base(), st, [], p + 11, argc);
    var q := params + SizeReleases(refs);
    var st2 := ReleaseAll(st1, refs);
    assert [] + left == left;
    DoReleases(k, refs, d, params, st1, left, cm);
    Then(k, m, Mk(d, params, st1, left, cm), Next(Mk(d, q, st2, left, cm)));
    LeavesBottom(k, st, p, argc, q, st2, left, cm);
    Then(k, m, Mk(d, q, st2, left, cm), Uncaught(st2));
  }

  lemma LeavesBottom(k: Image, st: State, p: nat, argc: u32, q: nat, st2: State, left: seq<u64>, cm: map<u32, u32>)
    requires Linked(k) && p + 11 < M32 && InstrAt(k.at, q, JmpToOuterCleanup) && Registered(k, cm) && p + 1 !in k.at && st.locals == []
    ensures Gets(k, Mk(Callee(Base(), st, [], p + 11, argc), q, st2, left, cm), Uncaught(st2))
  {
    hide Mk, Goes, Linked, Callee, Does;
    assert 0 !in cm && (p + 11) as u32 !in cm by { NotRegistered(k, cm, p); }
    BottomUnwinds(k.w, st, p, argc, q + 1, st2, left, cm);
    Dispatch(k, JmpToOuterCleanup, Callee(Base(), st, [], p + 11, argc), q, st2, left, cm, Uncaught(st2));
  }

  lemma NotRegistered(k: Image, cm: map<u32, u32>, p: nat)
    requires Registered(k, cm) && p + 1 !in k.at && p + 11 < M32
    ensures 0 !in cm && (p + 11) as u32 !in cm
  {
    SiteKnown(k, cm, 0);
    SiteKnown(k, cm, p + 11);
  }

  lemma SiteKnown(k: Image, cm: map<u32, u32>, r: u32)
    requires Registered(k, cm)
    ensures r in cm ==> r >= 10 && r - 10 in k.at
  {
    assert r in cm ==> SiteOf(k, r, cm[r]);
  }

  lemma BottomUnwinds(w: World, st: State, p: nat, argc: u32, q: nat, st1: State, left: seq<u64>, cm: map<u32, u32>)
    requires st.locals == [] && p + 11 < M32 && 0 !in cm && (p + 11) as u32 !in cm
    ensures Does(w, JmpToOuterCleanup, Mk(Callee(Base(), st, [], p + 11, argc), q, st1, left, cm), Uncaught(st1))
  {
    var m := Mk(Callee(Base(), st, [], p + 11, argc), q, st1, left, cm);
    assert m.frames == [BOTTOM] + [Frame(p + 11, 0, argc, 0)];
    var m1 := PopFrame(m);
    assert m1.frames == [BOTTOM] && m1.stack == [];
    assert PopFrame(m1).frames == [];
    assert Fallback(PopFrame(m1)) == Uncaught(st1);
    assert Fallback(m1) == Uncaught(st1);
    UnwindDoes(w, m, Uncaught(st1));
  }

  lemma UnwindDoes(w: World, m: Machine, r: Res)
    requires Unwind(m) == r
    ensures Does(w, JmpToOuterCleanup, m, r)
  {
    hide Unwind;
  }

  /** A run has one end: whatever number of dispatches it takes, once the machine
      has stopped it has stopped as the source program says. */
  lemma OneEnd(w: World, code: seq<u8>, m: Machine, n: nat, r: Res)
    requires Goes(w, code, m, r) && !r.Next? && !Run(w, code, n, m).Next?
    ensures Run(w, code, n, m) == r || OutOfRoom(Run(w, code, n, m))
  {
    hide Step, Goes, Iterate;
    GoesIsLeads(w, code, m, r);
    var step := Stepper(w, code);
    var b: nat :| Arrives(step, b, m, r);
    if b <= n {
      IterateAppend(step, b, n - b, m);
    } else {
      IterateAppend(step, n, b - n, m);
    }
  }
}
