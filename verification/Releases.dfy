/** Which references a block, a call and their compiled code release, read off the
    declarations and the slots' contents. */
module Releases {
  import opened Options
  import opened Words
  import opened Instructions
  import opened Syntax
  import opened Semantics
  import opened VirtualMachine
  import opened CodeLayout
  import opened Stepping
  import opened Simulation

  function Listed(body: Stmts): seq<Stmt> {
    match body
    case Nil => []
    case Cons(s, rest) => [s] + Listed(rest)
  }

  predicate DeclaresRef(s: Stmt) {
    s.VarDecl? && s.isRef
  }

  /** slots are those of the reference declarations in the list, the last one first. */
  ghost predicate LastFirst(list: seq<Stmt>, slots: seq<u32>) {
    exists at: seq<nat> :: DeclaredAt(list, slots, at)
  }

  ghost predicate DeclaredAt(list: seq<Stmt>, slots: seq<u32>, at: seq<nat>) {
    |at| == |slots| && (forall j, k :: 0 <= j < k < |at| ==> at[k] < at[j]) &&
    (forall k :: 0 <= k < |at| ==> at[k] < |list| && DeclaresRef(list[at[k]]) && list[at[k]].slot == slots[k]) &&
    forall i :: 0 <= i < |list| && DeclaresRef(list[i]) ==> i in at
  }

  /** One release for each of the slots that is not null, in their order, and no other event. */
  ghost predicate OneForEach(slots: seq<u32>, locals: seq<u64>, events: seq<Event>) {
    exists at: seq<nat> :: ReleasedAt(slots, locals, events, at)
  }

  ghost predicate ReleasedAt(slots: seq<u32>, locals: seq<u64>, events: seq<Event>, at: seq<nat>) {
    |at| == |events| && (forall j, k :: 0 <= j < k < |at| ==> at[j] < at[k]) &&
    (forall k :: 0 <= k < |at| ==> at[k] < |slots| && NotNull(slots[at[k]], locals) &&
                                   events[k] == Released(locals[slots[at[k]]] % 4294967296)) &&
    forall i :: 0 <= i < |slots| && NotNull(slots[i], locals) ==> i in at
  }

  predicate NotNull(slot: u32, locals: seq<u64>) {
    slot < |locals| && locals[slot] != 0
  }

  function Shifted(at: seq<nat>): (r: seq<nat>)
    ensures |r| == |at| && forall k :: 0 <= k < |at| ==> r[k] == at[k] + 1
  {
    seq(|at|, k requires 0 <= k < |at| => at[k] + 1)
  }

  lemma InShifted(at: seq<nat>, i: nat)
    requires i in at
    ensures i + 1 in Shifted(at)
  {
    var k :| 0 <= k < |at| && at[k] == i;
    assert Shifted(at)[k] == i + 1;
  }

  /** One more slot in front, which is null. */
  lemma NullBefore(slot: u32, slots: seq<u32>, locals: seq<u64>, events: seq<Event>, at: seq<nat>)
    requires ReleasedAt(slots, locals, events, at) && !NotNull(slot, locals)
    ensures ReleasedAt([slot] + slots, locals, events, Shifted(at))
  {
    var all, now := [slot] + slots, Shifted(at);
    forall k | 0 <= k < |now| ensures now[k] < |all| && all[now[k]] == slots[at[k]] {
      assert at[k] < |slots|;
    }
    forall i | 0 <= i < |all| && NotNull(all[i], locals) ensures i in now {
      assert i > 0 && slots[i - 1] == all[i];
      InShifted(at, i - 1);
    }
  }

  /** One more, which holds a reference. */
  lemma HeldBefore(slot: u32, slots: seq<u32>, locals: seq<u64>, events: seq<Event>, at: seq<nat>)
    requires ReleasedAt(slots, locals, events, at) && NotNull(slot, locals)
    ensures ReleasedAt([slot] + slots, locals, [Released(Low32(locals[slot]))] + events, [0] + Shifted(at))
  {
    var all, done, now := [slot] + slots, [Released(Low32(locals[slot]))] + events, [0] + Shifted(at);
    forall j, k | 0 <= j < k < |now| ensures now[j] < now[k] {
      assert now[k] == at[k - 1] + 1;
      assert j > 0 ==> now[j] == at[j - 1] + 1;
    }
    forall k | 0 <= k < |now|
      ensures now[k] < |all| && NotNull(all[now[k]], locals) && done[k] == Released(locals[all[now[k]]] % 4294967296)
    {
      if k > 0 {
        assert now[k] == at[k - 1] + 1 && at[k - 1] < |slots|;
        assert all[now[k]] == slots[at[k - 1]] && done[k] == events[k - 1];
      }
    }
    forall i | 0 <= i < |all| && NotNull(all[i], locals) ensures i in now {
      if i > 0 {
        assert slots[i - 1] == all[i];
        InShifted(at, i - 1);
      } else {
        assert now[0] == 0;
      }
    }
  }

  lemma {:induction false} ReleasesEach(st: State, slots: seq<u32>) returns (events: seq<Event>)
    requires InFrame(slots, |st.locals|)
    ensures ReleaseAll(st, slots) == st.(trace := st.trace + events) && OneForEach(slots, st.locals, events)
    decreases |slots|
  {
    hide ReleasedAt;
    if slots == [] {
      events := [];
      NoneReleased(st.locals);
      assert st.trace + [] == st.trace;
    } else {
      var slot, behind := slots[0], slots[1..];
      assert slots == [slot] + behind;
      var st1 := ReleaseSlot(st, slot);
      events := ReleasesEach(st1, behind);
      var at: seq<nat> :| ReleasedAt(behind, st.locals, events, at);
      if st.locals[slot] == 0 {
        NullBefore(slot, behind, st.locals, events, at);
      } else {
        HeldBefore(slot, behind, st.locals, events, at);
        assert st.trace + ([Released(Low32(st.locals[slot]))] + events) == st1.trace + events;
        events := [Released(Low32(st.locals[slot]))] + events;
      }
    }
  }

  lemma NoneReleased(locals: seq<u64>)
    ensures ReleasedAt([], locals, [], [])
  {
  }

  /** One more statement in front, which is no reference declaration. */
  lemma OtherBefore(s: Stmt, list: seq<Stmt>, slots: seq<u32>, at: seq<nat>)
    requires DeclaredAt(list, slots, at) && !DeclaresRef(s)
    ensures DeclaredAt([s] + list, slots, Shifted(at))
  {
    var all, now := [s] + list, Shifted(at);
    forall k | 0 <= k < |now| ensures now[k] < |all| && all[now[k]] == list[at[k]] {
      assert at[k] < |list|;
    }
    forall i | 0 <= i < |all| && DeclaresRef(all[i]) ensures i in now {
      assert i > 0 && list[i - 1] == all[i];
      InShifted(at, i - 1);
    }
  }

  /** One more, which is one. */
  lemma DeclarationBefore(s: Stmt, list: seq<Stmt>, slots: seq<u32>, at: seq<nat>)
    requires DeclaredAt(list, slots, at) && DeclaresRef(s)
    ensures DeclaredAt([s] + list, slots + [s.slot], Shifted(at) + [0])
  {
    var all, now, declared := [s] + list, Shifted(at) + [0], slots + [s.slot];
    forall j, k | 0 <= j < k < |now| ensures now[k] < now[j] {
      assert now[j] == at[j] + 1;
      assert k < |at| ==> now[k] == at[k] + 1;
    }
    forall k | 0 <= k < |now| ensures now[k] < |all| && DeclaresRef(all[now[k]]) && all[now[k]].slot == declared[k] {
      if k < |at| {
        assert now[k] == at[k] + 1 && at[k] < |list|;
        assert all[now[k]] == list[at[k]] && declared[k] == slots[k];
      }
    }
    forall i | 0 <= i < |all| && DeclaresRef(all[i]) ensures i in now {
      if i > 0 {
        assert list[i - 1] == all[i];
        InShifted(at, i - 1);
      } else {
        assert now[|at|] == 0;
      }
    }
  }

  lemma {:induction false} SlotsLastFirst(body: Stmts)
    ensures LastFirst(Listed(body), RefSlots(body))
  {
    hide DeclaredAt;
    match body
    case Nil => NoneDeclared();
    case Cons(s, rest) =>
      SlotsLastFirst(rest);
      var at: seq<nat> :| DeclaredAt(Listed(rest), RefSlots(rest), at);
      if DeclaresRef(s) {
        DeclarationBefore(s, Listed(rest), RefSlots(rest), at);
      } else {
        OtherBefore(s, Listed(rest), RefSlots(rest), at);
        assert RefSlots(body) == RefSlots(rest);
      }
  }

  lemma NoneDeclared()
    ensures DeclaredAt([], [], [])
  {
  }

  /** events are the releases that a block makes when it is left with these locals. */
  ghost predicate BlockReleases(body: Stmts, locals: seq<u64>, events: seq<Event>) {
    exists slots: seq<u32> :: LastFirst(Listed(body), slots) && OneForEach(slots, locals, events)
  }

  /** However a block is left, but by an escape, it ends as its statements do, and what it
      does behind them is to release its own reference declarations. */
  lemma BlockReleasesItsOwn(w: World, prog: Program, conv: Conv, body: Stmts, st: State, fuel: nat) returns (events: seq<Event>)
    requires ExecBlock(w, prog, conv, body, st, fuel).Done?
    ensures ExecSeq(w, prog, conv, body, st, fuel).Done?
    ensures var r, q := ExecBlock(w, prog, conv, body, st, fuel), ExecSeq(w, prog, conv, body, st, fuel);
            r.o == q.o && r.left == q.left && r.st == q.st.(trace := q.st.trace + events) &&
            if r.o.Escaping? then events == [] else BlockReleases(body, q.st.locals, events)
  {
    hide ExecSeq, RefSlots;
    var q := ExecSeq(w, prog, conv, body, st, fuel);
    events := [];
    assert q.Done? ==> q.st.trace + [] == q.st.trace;
    if !q.o.Escaping? {
      events := ReleasesEach(q.st, RefSlots(body));
      SlotsLastFirst(body);
    }
  }

  /** The compiled block has done the same when control leaves it: for a return, a break or a
      continue, when the way out has come to what encloses the block. */
  lemma CompiledBlockReleases(k: Image, body: Stmts, env: Env, exit: u32, conv: Conv, c: Activation, p: nat, st: State,
                              temps: seq<u64>, cm: map<u32, u32>, fuel: nat)
    returns (events: seq<Event>, m: Machine)
    requires Ready(k, env, c, cm) && BlockAt(k.at, p, body, env, exit) && p + SizeBlock(body, ShapeOf(env)) <= |k.code|
    requires exit != HOLE && Agrees(env, conv)
    requires ExecBlock(k.w, k.prog, conv, body, st, fuel).Done? && !ExecBlock(k.w, k.prog, conv, body, st, fuel).o.Escaping?
    ensures var q := ExecSeq(k.w, k.prog, conv, body, st, fuel);
            q.Done? && BlockReleases(body, q.st.locals, events) && m.trace == q.st.trace + events &&
            Gets(k, Mk(c, p, st, temps, cm), Next(m))
  {
    hide ExecBlock, ExecSeq, BlockAt, SizeBlock, ShapeOf, Ready, Agrees, BlockReleases, Linked, Goes, LeapAt, Climbs;
    events := BlockReleasesItsOwn(k.w, k.prog, conv, body, st, fuel);
    var y := SimBlock(k, body, env, exit, conv, c, p, st, temps, cm, fuel);
    var r := ExecBlock(k.w, k.prog, conv, body, st, fuel);
    m := match r.o
      case Normal => Mk(c, p + SizeBlock(body, ShapeOf(env)), r.st, temps + r.left, y.cm)
      case Throwing => Mk(c, exit, r.st, temps + r.left, y.cm)
      case Returning(v) => Mk(c, y.pc, r.st, temps + r.left + [v], y.cm)
      case _ => Mk(c, y.pc, r.st, temps + r.left, y.cm);
  }

  /** A call whose body does not end by an escape releases the references among its
      parameters behind what the body did, in the order listed. */
  lemma CallReleasesParameters(w: World, prog: Program, fn: nat, vs: seq<u64>, st: State, fuel: nat) returns (events: seq<Event>)
    requires fn < |prog| && |vs| == prog[fn].params as int
    requires ExecBody(w, prog, prog[fn], Entered(prog[fn], vs, st), fuel).Done?
    requires !ExecBody(w, prog, prog[fn], Entered(prog[fn], vs, st), fuel).o.Escaping?
    requires InFrame(prog[fn].refs, |Entered(prog[fn], vs, st).locals|)
    ensures var q, r := ExecBody(w, prog, prog[fn], Entered(prog[fn], vs, st), fuel), Semantics.Call(w, prog, fn, vs, st, fuel);
            OneForEach(prog[fn].refs, q.st.locals, events) &&
            (r.Val? ==> r.st == State(st.locals, q.st.exc, q.st.trace + events)) &&
            (r.Raised? ==> r.st == State(st.locals, q.st.exc, q.st.trace + events))
  {
    hide ExecBody, Entered, OneForEach;
    var q := ExecBody(w, prog, prog[fn], Entered(prog[fn], vs, st), fuel);
    events := ReleasesEach(q.st, prog[fn].refs);
  }
}
