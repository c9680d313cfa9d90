/** Weak fields: WEAK_SET_PROPERTY registers a slot under the block it refers to, and
    freeing a block zeroes the slots registered under it. */
module WeakSlots {

  /** Memory words by slot address, the registry, and each live block's weak slots. */
  datatype State = State(word: map<nat, nat>, registry: map<nat, set<nat>>, weak: map<nat, set<nat>>)

  datatype Op =
    | Set(holder: nat, slot: nat, target: nat)
    | Write(slot: nat, value: nat)
    | New(block: nat, payload: set<nat>, fields: set<nat>)
    | Free(block: nat)

  function Unregister(registry: map<nat, set<nat>>, target: nat, slot: nat): map<nat, set<nat>> {
    if target == 0 || target !in registry then registry
    else if registry[target] - {slot} == {} then registry - {target}
    else registry[target := registry[target] - {slot}]
  }

  function Register(registry: map<nat, set<nat>>, target: nat, slot: nat): map<nat, set<nat>> {
    if target == 0 then registry
    else registry[target := (if target in registry then registry[target] else {}) + {slot}]
  }

  function Zeroed(word: map<nat, nat>, slots: set<nat>): map<nat, nat> {
    map a | a in word :: if a in slots then 0 else word[a]
  }

  function Freed(s: State, block: nat): State {
    State(if block in s.registry then Zeroed(s.word, s.registry[block]) else s.word, s.registry - {block}, s.weak - {block})
  }

  function Apply(s: State, op: Op): State {
    match op
    case Set(_, slot, target) =>
      if slot !in s.word then s
      else s.(word := s.word[slot := target], registry := Register(Unregister(s.registry, s.word[slot], slot), target, slot))
    case Write(slot, value) => s.(word := s.word[slot := value])
    case New(block, payload, fields) => s.(word := Zeroed(s.word, payload), weak := s.weak[block := fields])
    case Free(block) => Freed(s, block)
  }

  /** A slot that is a weak field of a live block. */
  predicate IsWeak(s: State, slot: nat) {
    exists b :: b in s.weak && slot in s.weak[b]
  }

  /** What a program may do: weak fields are assigned live blocks or null, by the weak
      opcode only; new blocks take unused space. */
  ghost predicate Allowed(s: State, op: Op) {
    match op
    case Set(holder, slot, target) =>
      holder in s.weak && slot in s.weak[holder] && (target == 0 || target in s.weak)
    case Write(slot, _) => slot in s.word && !IsWeak(s, slot)
    case New(block, payload, fields) =>
      block != 0 && block !in s.weak && fields <= payload <= s.word.Keys && forall slot :: slot in payload ==> !IsWeak(s, slot)
    case Free(block) => block in s.weak
  }

  /** Registered under what it refers to, which is live. */
  predicate SlotOk(s: State, slot: nat) {
    slot in s.word &&
    (s.word[slot] != 0 ==> s.word[slot] in s.weak && s.word[slot] in s.registry && slot in s.registry[s.word[slot]])
  }

  predicate Ok(s: State) {
    0 !in s.weak && (forall b, slot :: b in s.weak && slot in s.weak[b] ==> SlotOk(s, slot)) &&
    forall v :: v in s.registry ==> s.registry[v] <= s.word.Keys
  }

  lemma StepOk(s: State, op: Op)
    requires Ok(s) && Allowed(s, op)
    ensures Ok(Apply(s, op))
  {
    hide Ok, Apply;
    match op
    case Set(holder, slot, target) => SetOk(s, holder, slot, target);
    case Write(slot, value) => WriteOk(s, slot, value);
    case New(block, payload, fields) => NewOk(s, block, payload, fields);
    case Free(block) => FreeOk(s, block);
  }

  lemma SetOk(s: State, holder: nat, slot: nat, target: nat)
    requires Ok(s) && Allowed(s, Set(holder, slot, target))
    ensures Ok(Apply(s, Set(holder, slot, target)))
  {
    assert SlotOk(s, slot);
    var s1 := Apply(s, Set(holder, slot, target));
    forall b, x | b in s1.weak && x in s1.weak[b] ensures SlotOk(s1, x) {
      assert SlotOk(s, x);
      assert x != slot && s.word[x] != 0 ==> x in s.registry[s.word[x]] - {slot};
    }
  }

  lemma WriteOk(s: State, slot: nat, value: nat)
    requires Ok(s) && Allowed(s, Write(slot, value))
    ensures Ok(Apply(s, Write(slot, value)))
  {
    var s1 := Apply(s, Write(slot, value));
    forall b, x | b in s1.weak && x in s1.weak[b] ensures SlotOk(s1, x) {
      assert SlotOk(s, x) && IsWeak(s, x);
    }
  }

  lemma NewOk(s: State, block: nat, payload: set<nat>, fields: set<nat>)
    requires Ok(s) && Allowed(s, New(block, payload, fields))
    ensures Ok(Apply(s, New(block, payload, fields)))
  {
    var s1 := Apply(s, New(block, payload, fields));
    forall b, x | b in s1.weak && x in s1.weak[b] ensures SlotOk(s1, x) {
      if b != block { assert SlotOk(s, x) && IsWeak(s, x); }
    }
  }

  lemma FreeOk(s: State, block: nat)
    requires Ok(s) && block in s.weak
    ensures Ok(Apply(s, Free(block)))
  {
    var s1 := Freed(s, block);
    forall b, x | b in s1.weak && x in s1.weak[b] ensures SlotOk(s1, x) {
      assert b in s.weak && x in s.weak[b];
      assert SlotOk(s, x);
    }
  }

  // ------------------------------------------------------------------ the memory

  class Memory {
    var words: map<nat, nat>
    var weakReferences: map<nat, set<nat>>
    ghost var weak: map<nat, set<nat>>

    ghost function Contents(): State
      reads this
    {
      State(words, weakReferences, weak)
    }

    /** False for a null holder or a slot outside the heap: the source throws. */
    method WeakSetProperty(holder: nat, offset: nat, target: nat) returns (ok: bool)
      modifies this
      ensures ok <==> holder != 0 && holder + offset in old(words)
      ensures Contents() == if ok then Apply(old(Contents()), Set(holder, holder + offset, target)) else old(Contents())
    {
      var slot := holder + offset;
      if holder == 0 || slot !in words { return false; }
      var before := words[slot];
      if before != 0 && before in weakReferences {
        weakReferences := weakReferences[before := weakReferences[before] - {slot}];
        if weakReferences[before] == {} { weakReferences := weakReferences - {before}; }
      }
      words := words[slot := target];
      if target != 0 {
        if target !in weakReferences { weakReferences := weakReferences[target := {}]; }
        weakReferences := weakReferences[target := weakReferences[target] + {slot}];
      }
      ok := true;
    }

    method Deallocate(block: nat)
      requires forall v :: v in weakReferences ==> weakReferences[v] <= words.Keys
      modifies this
      ensures Contents() == Apply(old(Contents()), Free(block))
    {
      if block in weakReferences {
        var slots := weakReferences[block];
        var rest := slots;
        while rest != {}
          invariant weakReferences == old(weakReferences) && weak == old(weak)
          invariant rest <= slots && words == Zeroed(old(words), slots - rest)
        {
          var slot :| slot in rest;
          words := words[slot := 0];
          rest := rest - {slot};
        }
        assert slots - rest == slots;
        weakReferences := weakReferences - {block};
      }
      weak := weak - {block};
    }
  }

  // ------------------------------------------------------------------------- runs

  function Run(s: State, ops: seq<Op>): State
    decreases |ops|
  {
    if ops == [] then s else Run(Apply(s, ops[0]), ops[1..])
  }

  ghost predicate AllAllowed(s: State, ops: seq<Op>)
    decreases |ops|
  {
    ops == [] || (Allowed(s, ops[0]) && AllAllowed(Apply(s, ops[0]), ops[1..]))
  }

  /** Over every run no weak field of a live block refers to a freed one. */
  lemma {:induction false} NeverDangles(s: State, ops: seq<Op>, holder: nat, slot: nat)
    requires Ok(s) && AllAllowed(s, ops)
    requires holder in Run(s, ops).weak && slot in Run(s, ops).weak[holder]
    ensures Ok(Run(s, ops)) && slot in Run(s, ops).word
    ensures Run(s, ops).word[slot] == 0 || Run(s, ops).word[slot] in Run(s, ops).weak
    decreases |ops|
  {
    hide Ok, Apply, Allowed;
    if ops == [] {
      WeakSlotIsOk(s, holder, slot);
    } else {
      StepOk(s, ops[0]);
      NeverDangles(Apply(s, ops[0]), ops[1..], holder, slot);
    }
  }

  lemma WeakSlotIsOk(s: State, holder: nat, slot: nat)
    requires Ok(s) && holder in s.weak && slot in s.weak[holder]
    ensures SlotOk(s, slot)
  {
  }

  /** Freeing a block nulls every weak field that refers to it. */
  lemma FreeNulls(s: State, block: nat, holder: nat, slot: nat)
    requires Ok(s) && block in s.weak && holder in s.weak && holder != block && slot in s.weak[holder]
    ensures slot in s.word && slot in Freed(s, block).word
    ensures s.word[slot] == block ==> Freed(s, block).word[slot] == 0
  {
    assert SlotOk(s, slot);
  }

  /** Freeing leaves all other words alone exactly when no other slot is still
      registered under the block. */
  lemma FreeLeavesTheRest(s: State, block: nat)
    requires Ok(s) && block in s.weak
    ensures (forall a :: a in s.word && s.word[a] != block ==> Freed(s, block).word[a] == s.word[a])
            <==> block !in s.registry || forall a :: a in s.registry[block] && a in s.word ==> s.word[a] == block || s.word[a] == 0
  {
    if block in s.registry {
      forall a | a in s.registry[block] && a in s.word ensures Freed(s, block).word[a] == 0 {
      }
    }
  }

  /** Every registered slot is a live block's weak field that refers to what it is
      registered under. */
  predicate Current(s: State) {
    0 !in s.registry && forall v, slot :: v in s.registry && slot in s.registry[v] ==> CurrentAt(s, v, slot)
  }

  predicate CurrentAt(s: State, v: nat, slot: nat) {
    slot in s.word && s.word[slot] == v && IsWeak(s, slot)
  }

  /** A block is freed only when its weak fields are null or refer to itself. */
  predicate ClearsFirst(s: State, op: Op) {
    op.Free? && op.block in s.weak ==> forall slot :: slot in s.weak[op.block] && slot in s.word ==> s.word[slot] == 0 || s.word[slot] == op.block
  }

  ghost predicate AllClearFirst(s: State, ops: seq<Op>)
    decreases |ops|
  {
    ops == [] || (ClearsFirst(s, ops[0]) && AllClearFirst(Apply(s, ops[0]), ops[1..]))
  }

  lemma StaysCurrent(s: State, op: Op)
    requires Ok(s) && Current(s) && Allowed(s, op) && ClearsFirst(s, op)
    ensures Current(Apply(s, op))
  {
    hide Ok;
    var s1 := Apply(s, op);
    forall v, slot | v in s1.registry && slot in s1.registry[v] ensures CurrentAt(s1, v, slot) {
      if op.Set? {
        SetCurrent(s, op, v, slot);
      } else {
        assert CurrentAt(s, v, slot);
        StillWeak(s, op, slot);
      }
    }
  }

  lemma StillWeak(s: State, op: Op, slot: nat)
    requires IsWeak(s, slot) && Allowed(s, op) && ClearsFirst(s, op) && slot in s.word
    requires op.Free? ==> s.word[slot] != 0 && s.word[slot] != op.block
    ensures IsWeak(Apply(s, op), slot)
  {
    var b :| b in s.weak && slot in s.weak[b];
    assert b in Apply(s, op).weak && slot in Apply(s, op).weak[b];
  }

  lemma SetCurrent(s: State, op: Op, v: nat, slot: nat)
    requires Current(s) && op.Set? && Allowed(s, op)
    requires v in Apply(s, op).registry && slot in Apply(s, op).registry[v]
    ensures CurrentAt(Apply(s, op), v, slot)
  {
    var s1 := Apply(s, op);
    if op.slot in s.word {
      var middle := Unregister(s.registry, s.word[op.slot], op.slot);
      assert !(v == op.target && slot == op.slot) ==> v in middle && slot in middle[v];
      assert v in middle && slot in middle[v] ==> v in s.registry && slot in s.registry[v] && CurrentAt(s, v, slot);
      assert v in middle && slot == op.slot && slot in middle[v] ==> s.word[slot] == v;
    }
    assert v in s.registry && slot in s.registry[v] ==> CurrentAt(s, v, slot);
    assert op.holder in s.weak && op.slot in s.weak[op.holder];
    assert IsWeak(s, op.slot);
    if op.slot in s.word { StillWeak(s, op, op.slot); }
    if IsWeak(s, slot) && slot in s.word { StillWeak(s, op, slot); }
  }

  /** Over every run that clears weak fields before it frees their holders, freeing any
      block touches no word but those that refer to it. */
  lemma {:induction false} TidyRunsFreeCleanly(s: State, ops: seq<Op>, block: nat, a: nat)
    requires Ok(s) && Current(s) && AllAllowed(s, ops) && AllClearFirst(s, ops)
    requires a in Run(s, ops).word && Run(s, ops).word[a] != block
    ensures a in Freed(Run(s, ops), block).word && Freed(Run(s, ops), block).word[a] == Run(s, ops).word[a]
    decreases |ops|
  {
    hide Ok, Apply, Allowed, Freed, Current, ClearsFirst;
    if ops == [] {
      CurrentFreesCleanly(s, block, a);
    } else {
      StepOk(s, ops[0]);
      StaysCurrent(s, ops[0]);
      TidyRunsFreeCleanly(Apply(s, ops[0]), ops[1..], block, a);
    }
  }

  lemma CurrentFreesCleanly(s: State, block: nat, a: nat)
    requires Current(s) && a in s.word && s.word[a] != block
    ensures a in Freed(s, block).word && Freed(s, block).word[a] == s.word[a]
  {
    assert block in s.registry && a in s.registry[block] ==> CurrentAt(s, block, a);
  }

  /** Otherwise it may: a registration outlives its holder, and the space may be reused. */
  lemma StaleRegistration()
    ensures exists s: State, ops: seq<Op> ::
              AllAllowed(s, ops) && Ok(s) && 16 in Run(s, ops).word && Run(s, ops).word[16] == 7 && !IsWeak(Run(s, ops), 16) &&
              Allowed(Run(s, ops), Free(64)) && Run(s, ops).registry == map[64 := {16}] && Apply(Run(s, ops), Free(64)).word == map[16 := 0, 64 := 0]
  {
    var s := State(map[16 := 0, 64 := 0], map[], map[16 := {16}, 64 := {}]);
    var ops := [Set(16, 16, 64), Free(16), New(16, {16}, {}), Write(16, 7)];
    StaleRun();
    StaleEnd();
    assert Ok(s);
  }

  lemma StaleEnd()
    ensures var end := State(map[16 := 7, 64 := 0], map[64 := {16}], map[64 := {}, 16 := {}]);
            Allowed(end, Free(64)) && Apply(end, Free(64)).word == map[16 := 0, 64 := 0] && !IsWeak(end, 16)
  {
  }

  lemma StaleRun()
    ensures var s := State(map[16 := 0, 64 := 0], map[], map[16 := {16}, 64 := {}]);
            var ops := [Set(16, 16, 64), Free(16), New(16, {16}, {}), Write(16, 7)];
            AllAllowed(s, ops) && Run(s, ops) == State(map[16 := 7, 64 := 0], map[64 := {16}], map[64 := {}, 16 := {}])
  {
    hide Apply, Allowed;
    var s0 := State(map[16 := 0, 64 := 0], map[], map[16 := {16}, 64 := {}]);
    var s1 := State(map[16 := 64, 64 := 0], map[64 := {16}], map[16 := {16}, 64 := {}]);
    var s2 := State(map[16 := 64, 64 := 0], map[64 := {16}], map[64 := {}]);
    var s3 := State(map[16 := 0, 64 := 0], map[64 := {16}], map[64 := {}, 16 := {}]);
    FirstStep(s0, s1);
    SecondStep(s1, s2);
    ThirdStep(s2, s3);
    FourthStep(s3);
    TakeStep(s3, Write(16, 7), []);
    TakeStep(s2, New(16, {16}, {}), [Write(16, 7)]);
    TakeStep(s1, Free(16), [New(16, {16}, {}), Write(16, 7)]);
    TakeStep(s0, Set(16, 16, 64), [Free(16), New(16, {16}, {}), Write(16, 7)]);
  }

  lemma FirstStep(s: State, s1: State)
    requires s == State(map[16 := 0, 64 := 0], map[], map[16 := {16}, 64 := {}])
    requires s1 == State(map[16 := 64, 64 := 0], map[64 := {16}], map[16 := {16}, 64 := {}])
    ensures Allowed(s, Set(16, 16, 64)) && Apply(s, Set(16, 16, 64)) == s1
  {
    assert {} + {16} == {16};
  }

  lemma SecondStep(s: State, s1: State)
    requires s == State(map[16 := 64, 64 := 0], map[64 := {16}], map[16 := {16}, 64 := {}])
    requires s1 == State(map[16 := 64, 64 := 0], map[64 := {16}], map[64 := {}])
    ensures Allowed(s, Free(16)) && Apply(s, Free(16)) == s1
  {
  }

  lemma ThirdStep(s: State, s1: State)
    requires s == State(map[16 := 64, 64 := 0], map[64 := {16}], map[64 := {}])
    requires s1 == State(map[16 := 0, 64 := 0], map[64 := {16}], map[64 := {}, 16 := {}])
    ensures Allowed(s, New(16, {16}, {})) && Apply(s, New(16, {16}, {})) == s1
  {
  }

  lemma FourthStep(s: State)
    requires s == State(map[16 := 0, 64 := 0], map[64 := {16}], map[64 := {}, 16 := {}])
    ensures Allowed(s, Write(16, 7))
    ensures Apply(s, Write(16, 7)) == State(map[16 := 7, 64 := 0], map[64 := {16}], map[64 := {}, 16 := {}])
  {
  }

  lemma TakeStep(s: State, op: Op, more: seq<Op>)
    ensures Run(s, [op] + more) == Run(Apply(s, op), more)
    ensures AllAllowed(s, [op] + more) <==> Allowed(s, op) && AllAllowed(Apply(s, op), more)
  {
    assert ([op] + more)[1..] == more;
  }
}
