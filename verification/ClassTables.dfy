/** Virtual tables and interface tables: how the binder fills them and what the VM
    finds in them. */
module ClassTables {
  import opened Options
  import opened Hierarchy

  datatype Error =
    | Circular(c: Id)
    | NotImplemented(c: Id, signature: Signature)
    | LeftAbstract(c: Id, m: Method)
    | IncompatibleResult(m: Method)

  type Table = seq<Method>

  datatype Tables = Tables(vtables: map<Id, Table>, itables: map<Id, map<Id, seq<int>>>)

  /** Interface methods are abstract whether marked so or not. */
  predicate IsAbstract(h: Classes, m: Method) {
    m.markedAbstract || (m.owner in h && h[m.owner].isInterface)
  }

  /** Every slot of the one table keeps its signature in the other. */
  predicate KeepsSlots(a: Table, b: Table) {
    |a| <= |b| && forall k :: 0 <= k < |a| ==> b[k].signature == a[k].signature
  }

  predicate HasSignature(t: Table, s: Signature) {
    exists k :: 0 <= k < |t| && t[k].signature == s
  }

  predicate Covers(t: Table, ms: seq<Method>) {
    forall j :: 0 <= j < |ms| ==> HasSignature(t, ms[j].signature)
  }

  /** The table as it was, followed by methods whose signatures it did not have. */
  predicate Extends(table: Table, t: Table, other: Table) {
    |table| <= |t| && t[..|table|] == table &&
    forall k :: |table| <= k < |t| ==> t[k] in other && !HasSignature(t[..k], t[k].signature)
  }

  // ----------------------------------------------------------- the nearest method

  function FirstConcrete(h: Classes, ms: seq<Method>, s: Signature): Option<Method> {
    if ms == [] then None
    else if ms[0].signature == s && !IsAbstract(h, ms[0]) then Some(ms[0])
    else FirstConcrete(h, ms[1..], s)
  }

  /** The concrete method for a signature declared nearest on the base chain. */
  ghost function Nearest(h: Classes, rank: map<Id, nat>, c: Id, s: Signature): Option<Method>
    requires Proper(h, rank) && c in h
    decreases rank[c]
  {
    var own := FirstConcrete(h, h[c].methods, s);
    if own.Some? || h[c].base.None? then own
    else (BaseFacts(h, rank, c); Nearest(h, rank, h[c].base.value, s))
  }

  lemma {:induction false} FirstConcreteFacts(h: Classes, ms: seq<Method>, s: Signature)
    ensures FirstConcrete(h, ms, s).Some? ==>
              FirstConcrete(h, ms, s).value in ms && FirstConcrete(h, ms, s).value.signature == s && !IsAbstract(h, FirstConcrete(h, ms, s).value)
    ensures FirstConcrete(h, ms, s).None? ==> forall m :: m in ms && m.signature == s ==> IsAbstract(h, m)
  {
    if ms != [] {
      FirstConcreteFacts(h, ms[1..], s);
      assert ms == [ms[0]] + ms[1..];
    }
  }

  /** It is concrete, has the signature, and no class in between declares another. */
  lemma {:induction false} NearestFacts(h: Classes, rank: map<Id, nat>, c: Id, s: Signature)
    requires Proper(h, rank) && c in h && Nearest(h, rank, c, s).Some?
    ensures var m := Nearest(h, rank, c, s).value;
            m.signature == s && !IsAbstract(h, m) && m.owner in h && m in h[m.owner].methods && Below(h, rank, c, m.owner) &&
            forall x, n :: OnChain(h, rank, c, x) && x != m.owner && OnChain(h, rank, x, m.owner) && n in h[x].methods && n.signature == s ==> IsAbstract(h, n)
    decreases rank[c]
  {
    hide WellFormed, Acyclic, Below;
    var m := Nearest(h, rank, c, s).value;
    FirstConcreteFacts(h, h[c].methods, s);
    BelowSelf(h, rank, c);
    if FirstConcrete(h, h[c].methods, s).Some? {
      OwnerOf(h, c, m);
      forall x | OnChain(h, rank, c, x) && OnChain(h, rank, x, c) ensures x == c { ChainRanks(h, rank, c, x); ChainRanks(h, rank, x, c); }
    } else {
      BaseFacts(h, rank, c);
      var b := h[c].base.value;
      NearestFacts(h, rank, b, s);
      BelowParent(h, rank, c, b, m.owner);
    }
  }

  lemma OwnerOf(h: Classes, c: Id, m: Method)
    requires WellFormed(h) && c in h && m in h[c].methods
    ensures m.owner == c
  {
    assert WellFormedClass(h, c);
  }

  /** All of an interface's methods are abstract, of a class's those marked so. */
  lemma AbstractWhere(h: Classes, c: Id, m: Method)
    requires WellFormed(h) && c in h && m in h[c].methods
    ensures IsAbstract(h, m) <==> m.markedAbstract || h[c].isInterface
  {
    OwnerOf(h, c, m);
  }

  /** x is c or one of the classes it extends. */
  ghost predicate OnChain(h: Classes, rank: map<Id, nat>, c: Id, x: Id)
    requires Proper(h, rank)
    decreases if c in rank then rank[c] else 0
  {
    c in h && (c == x || (h[c].base.Some? && (BaseFacts(h, rank, c); OnChain(h, rank, h[c].base.value, x))))
  }

  lemma {:induction false} ChainRanks(h: Classes, rank: map<Id, nat>, c: Id, x: Id)
    requires Proper(h, rank) && OnChain(h, rank, c, x)
    ensures c in h && x in h && (x == c || rank[x] < rank[c])
    decreases if c in rank then rank[c] else 0
  {
    if c != x {
      BaseFacts(h, rank, c);
      ChainRanks(h, rank, h[c].base.value, x);
    }
  }

  // --------------------------------------------------------------- what is reported

  /** The binder reports c for something it lacks. */
  predicate Blames(e: Error, c: Id) {
    (e.NotImplemented? || e.LeftAbstract?) && e.c == c
  }

  predicate Clean(errors: seq<Error>, c: Id) {
    forall e :: e in errors ==> !Blames(e, c)
  }

  predicate IsConcrete(h: Classes, c: Id) {
    c in h && !h[c].isInterface && !h[c].isAbstract
  }

  /** What a report says is so: the class is concrete and lacks that method. */
  ghost predicate Real(h: Classes, rank: map<Id, nat>, t: Tables, e: Error)
    requires Proper(h, rank)
  {
    match e
    case NotImplemented(c, s) => IsConcrete(h, c) && Nearest(h, rank, c, s).None? && Asked(h, rank, t, c, s)
    case LeftAbstract(c, m) => IsConcrete(h, c) && c in t.vtables && m in t.vtables[c] && IsAbstract(h, m)
    case _ => true
  }

  /** An interface of c has a method of the signature. */
  ghost predicate Asked(h: Classes, rank: map<Id, nat>, t: Tables, c: Id, s: Signature)
    requires Proper(h, rank) && c in h
  {
    exists i :: IsInterfaceOf(h, rank, c, i) && i in t.vtables && HasSignature(t.vtables[i], s)
  }

  ghost predicate AllReal(h: Classes, rank: map<Id, nat>, t: Tables, errors: seq<Error>)
    requires Proper(h, rank)
  {
    forall e :: e in errors ==> Real(h, rank, t, e)
  }

  // ---------------------------------------------------------------- what is built

  /** Each slot number of an interface's method leads to the nearest implementation;
      -1 stands for none. */
  ghost predicate Dispatches(h: Classes, rank: map<Id, nat>, c: Id, t: Table, slots: seq<int>, methods: Table)
    requires Proper(h, rank) && c in h
  {
    |slots| == |methods| && forall j :: 0 <= j < |slots| ==> LeadsTo(h, rank, c, t, slots[j], methods[j].signature)
  }

  ghost predicate LeadsTo(h: Classes, rank: map<Id, nat>, c: Id, t: Table, slot: int, s: Signature)
    requires Proper(h, rank) && c in h
  {
    if slot == -1 then Nearest(h, rank, c, s).None? else 0 <= slot < |t| && Nearest(h, rank, c, s) == Some(t[slot])
  }

  ghost predicate IsInterfaceOf(h: Classes, rank: map<Id, nat>, c: Id, i: Id)
    requires Proper(h, rank) && c in h
  {
    i in h && h[i].isInterface && Below(h, rank, c, i)
  }

  /** Own overrides are where calls through their signature look. */
  ghost predicate OverridesPlaced(h: Classes, c: Id, t: Table)
    requires c in h
  {
    forall m :: m in h[c].methods && m.isOverride && !IsAbstract(h, m) ==> PlacedFirst(t, m)
  }

  /** A class's own method that gets a slot of its own. */
  predicate TakesSlot(m: Method) {
    !m.isOverride && (m.isVirtual || m.markedAbstract)
  }

  /** n is c's override of the method that is first to have its signature in slot k, or, when
      none of c's overrides is, the inherited method. */
  ghost predicate OverriddenAt(h: Classes, c: Id, start: Table, k: nat, n: Method)
    requires c in h && k < |start|
  {
    (n in h[c].methods && n.isOverride && IsFirst(start, n.signature, k)) ||
    (n == start[k] && forall m :: m in h[c].methods && m.isOverride ==> !IsFirst(start, m.signature, k))
  }

  /** The inherited table with c's overrides in place, followed by c's new methods in the
      order of their declaration. */
  ghost predicate OwnPlaced(h: Classes, c: Id, start: Table, t: Table)
    requires c in h
  {
    |start| <= |t| && (forall k :: 0 <= k < |start| ==> OverriddenAt(h, c, start, k, t[k])) &&
    (forall k :: |start| <= k < |t| ==> t[k] in h[c].methods && TakesSlot(t[k])) &&
    (forall j, k :: |start| <= j < k < |t| ==> t[j].index < t[k].index) &&
    forall m :: m in h[c].methods && TakesSlot(m) ==> HasFrom(t, |start|, m)
  }

  predicate HasFrom(t: Table, from: nat, m: Method) {
    exists k :: from <= k < |t| && t[k] == m
  }

  /** An interface of c, itself for an interface, declares a method of the signature. */
  ghost predicate Needs(h: Classes, rank: map<Id, nat>, c: Id, s: Signature)
    requires Proper(h, rank) && c in h
  {
    exists i, m :: IsInterfaceOf(h, rank, c, i) && m in h[i].methods && m.signature == s
  }

  /** n is the nearest implementation of a method that an interface of c needs. */
  ghost predicate IsPromotion(h: Classes, rank: map<Id, nat>, c: Id, n: Method)
    requires Proper(h, rank) && c in h
  {
    Needs(h, rank, c, n.signature) && Nearest(h, rank, c, n.signature) == Some(n)
  }

  /** Some slots have come to hold the implementations that interfaces need, and others were
      added for those that had none. */
  ghost predicate Promoted(h: Classes, rank: map<Id, nat>, c: Id, t: Table, t1: Table)
    requires Proper(h, rank) && c in h
  {
    |t| <= |t1| &&
    (forall k :: 0 <= k < |t| ==> t1[k] == t[k] || (t1[k].signature == t[k].signature && IsPromotion(h, rank, c, t1[k]))) &&
    forall k :: |t| <= k < |t1| ==> IsPromotion(h, rank, c, t1[k]) && !HasSignature(t1[..k], t1[k].signature)
  }

  /** c's table over the one that it starts from. */
  ghost predicate Composed(h: Classes, rank: map<Id, nat>, c: Id, start: Table, t: Table)
    requires Proper(h, rank) && c in h
  {
    exists placed: Table :: OwnPlaced(h, c, start, placed) && Promoted(h, rank, c, placed, t)
  }

  /** By the declarations, calls through a signature have a slot in c: for a new method of c,
      for one of a class it extends, or for an implementation that an interface needs. */
  ghost predicate Slotted(h: Classes, rank: map<Id, nat>, c: Id, s: Signature)
    requires Proper(h, rank) && c in h
    decreases rank[c]
  {
    (exists m :: m in h[c].methods && TakesSlot(m) && m.signature == s) ||
    (h[c].base.Some? && (BaseFacts(h, rank, c); Slotted(h, rank, h[c].base.value, s))) ||
    (Needs(h, rank, c, s) && Nearest(h, rank, c, s).Some?)
  }

  /** An override of the class has nothing to override in the classes that it extends. */
  ghost predicate Orphan(h: Classes, rank: map<Id, nat>, c: Id)
    requires Proper(h, rank)
  {
    c in h && !h[c].isInterface && exists m :: m in h[c].methods && m.isOverride && Unfounded(h, rank, c, m.signature)
  }

  ghost predicate Unfounded(h: Classes, rank: map<Id, nat>, c: Id, s: Signature)
    requires Proper(h, rank) && c in h
  {
    h[c].base.None? || (BaseFacts(h, rank, c); !Slotted(h, rank, h[c].base.value, s))
  }

  ghost predicate OrphanAbove(h: Classes, rank: map<Id, nat>, c: Id)
    requires Proper(h, rank)
  {
    exists d :: OnChain(h, rank, c, d) && Orphan(h, rank, d)
  }

  /** The table that c starts from. */
  function Inherited(h: Classes, t: Tables, c: Id): Table
    requires c in h
  {
    if h[c].base.Some? && h[c].base.value in t.vtables then t.vtables[h[c].base.value] else []
  }

  /** Every override has something to override. */
  ghost predicate OverridesFound(h: Classes, c: Id, start: Table)
    requires c in h
  {
    forall m :: m in h[c].methods && m.isOverride ==> HasSignature(start, m.signature)
  }

  predicate PlacedFirst(t: Table, m: Method) {
    exists k :: 0 <= k < |t| && IsFirst(t, m.signature, k) && t[k] == m
  }

  predicate IsFirst(t: Table, s: Signature, k: int) {
    0 <= k < |t| && t[k].signature == s && forall j :: 0 <= j < k ==> t[j].signature != s
  }

  /** The tables of c, given those of the classes and interfaces above it. */
  ghost predicate Built(h: Classes, rank: map<Id, nat>, t: Tables, errors: seq<Error>, c: Id)
    requires Proper(h, rank)
  {
    c in h && c in t.vtables &&
    (h[c].base.Some? ==> h[c].base.value in t.vtables && KeepsSlots(t.vtables[h[c].base.value], t.vtables[c])) &&
    (if h[c].isInterface then BuiltInterface(h, rank, t, c) else BuiltClass(h, rank, t, errors, c))
  }

  ghost predicate BuiltInterface(h: Classes, rank: map<Id, nat>, t: Tables, c: Id)
    requires Proper(h, rank) && c in h && c in t.vtables
  {
    Covers(t.vtables[c], h[c].methods) && (forall s :: HasSignature(t.vtables[c], s) ==> Needs(h, rank, c, s)) &&
    forall d :: d in h[c].interfaces ==> d in t.vtables && Covers(t.vtables[c], t.vtables[d])
  }

  ghost predicate BuiltClass(h: Classes, rank: map<Id, nat>, t: Tables, errors: seq<Error>, c: Id)
    requires Proper(h, rank) && c in h && c in t.vtables
  {
    c in t.itables && OverridesPlaced(h, c, t.vtables[c]) && OverridesFound(h, c, Inherited(h, t, c)) &&
    Composed(h, rank, c, Inherited(h, t, c), t.vtables[c]) &&
    (forall i :: i in t.itables[c] <==> IsInterfaceOf(h, rank, c, i)) &&
    (forall i :: i in t.itables[c] ==>
       i in t.vtables && Dispatches(h, rank, c, t.vtables[c], t.itables[c][i], t.vtables[i]) &&
       (Clean(errors, c) && !h[c].isAbstract ==> -1 !in t.itables[c][i])) &&
    (Clean(errors, c) && !h[c].isAbstract ==> forall m :: m in t.vtables[c] ==> !IsAbstract(h, m))
  }

  // ------------------------------------------------------------------- the VM's calls

  /** CALL_VIRTUAL; None when the VM throws. */
  function CallVirtual(t: Tables, c: Id, index: nat): Option<Method> {
    if c in t.vtables && index < |t.vtables[c]| then Some(t.vtables[c][index]) else None
  }

  /** CALL_INTERFACE. */
  function CallInterface(t: Tables, c: Id, i: Id, index: nat): Option<Method> {
    if c !in t.itables || i !in t.itables[c] || index >= |t.itables[c][i]| then None
    else
      var slot := t.itables[c][i][index];
      if slot < 0 then None else CallVirtual(t, c, slot)
  }

  /** An interface call on an object of a concrete class for which nothing is
      reported reaches the nearest implementation of the method. */
  lemma InterfaceCallReachesNearest(h: Classes, rank: map<Id, nat>, t: Tables, errors: seq<Error>, c: Id, i: Id, index: nat)
    requires Proper(h, rank) && Built(h, rank, t, errors, c) && IsConcrete(h, c) && Clean(errors, c) && IsInterfaceOf(h, rank, c, i)
    requires i in t.vtables && index < |t.vtables[i]|
    ensures CallInterface(t, c, i, index).Some?
    ensures CallInterface(t, c, i, index) == Nearest(h, rank, c, t.vtables[i][index].signature)
    ensures !IsAbstract(h, CallInterface(t, c, i, index).value)
  {
    hide WellFormed, Acyclic, Below, Nearest, IsInterfaceOf, Clean;
    assert i in t.itables[c];
    var slots := t.itables[c][i];
    assert slots[index] in slots;
    assert LeadsTo(h, rank, c, t.vtables[c], slots[index], t.vtables[i][index].signature);
    NearestFacts(h, rank, c, t.vtables[i][index].signature);
  }

  /** Every method of its interfaces is implemented and no slot is left abstract. */
  ghost predicate Complete(h: Classes, rank: map<Id, nat>, t: Tables, c: Id)
    requires Proper(h, rank) && c in h
  {
    c in t.vtables && (forall s :: Asked(h, rank, t, c, s) ==> Nearest(h, rank, c, s).Some?) &&
    forall m :: m in t.vtables[c] ==> !IsAbstract(h, m)
  }

  /** A concrete class is reported exactly when it lacks something. */
  lemma ReportedExactly(h: Classes, rank: map<Id, nat>, t: Tables, errors: seq<Error>, c: Id)
    requires Proper(h, rank) && Built(h, rank, t, errors, c) && IsConcrete(h, c) && AllReal(h, rank, t, errors)
    ensures Clean(errors, c) <==> Complete(h, rank, t, c)
  {
    hide WellFormed, Acyclic, Below, Nearest, IsInterfaceOf;
    if Clean(errors, c) {
      forall s | Asked(h, rank, t, c, s) ensures Nearest(h, rank, c, s).Some? {
        var i :| IsInterfaceOf(h, rank, c, i) && i in t.vtables && HasSignature(t.vtables[i], s);
        var index :| 0 <= index < |t.vtables[i]| && t.vtables[i][index].signature == s;
        InterfaceCallReachesNearest(h, rank, t, errors, c, i, index);
      }
    }
  }

  /** A call through a slot of an ancestor's table finds a method of that signature. */
  lemma {:induction false} VirtualCallKeepsSignature(h: Classes, rank: map<Id, nat>, t: Tables, errors: seq<Error>, c: Id, a: Id, index: nat)
    requires Proper(h, rank) && OnChain(h, rank, c, a) && a in t.vtables && index < |t.vtables[a]|
    requires forall x :: OnChain(h, rank, c, x) ==> Built(h, rank, t, errors, x)
    ensures CallVirtual(t, c, index).Some?
    ensures CallVirtual(t, c, index).value.signature == t.vtables[a][index].signature
    decreases if c in rank then rank[c] else 0
  {
    hide WellFormed, Acyclic, BuiltClass, BuiltInterface;
    assert OnChain(h, rank, c, c);
    if c != a {
      BaseFacts(h, rank, c);
      var b := h[c].base.value;
      assert forall x :: OnChain(h, rank, b, x) ==> OnChain(h, rank, c, x);
      VirtualCallKeepsSignature(h, rank, t, errors, b, a, index);
      assert Built(h, rank, t, errors, c);
    }
  }

  // ------------------------------------------------------- the slots by the declarations

  /** Where something above the class needs a signature, the class does. */
  lemma NeedsOn(h: Classes, rank: map<Id, nat>, c: Id, d: Id, s: Signature)
    requires Proper(h, rank) && c in h && d in h && Below(h, rank, c, d) && Needs(h, rank, d, s)
    ensures Needs(h, rank, c, s)
  {
    hide WellFormed, Acyclic, Below;
    var i, m :| IsInterfaceOf(h, rank, d, i) && m in h[i].methods && m.signature == s;
    BelowTransitive(h, rank, c, d, i);
  }

  /** Each new virtual or abstract method has its own slot behind the inherited ones, unless
      an interface has put the nearest implementation of its signature there. */
  lemma NewMethodHasSlot(h: Classes, rank: map<Id, nat>, t: Tables, errors: seq<Error>, c: Id, m: Method)
    requires Proper(h, rank) && Built(h, rank, t, errors, c) && !h[c].isInterface && m in h[c].methods
    requires !m.isOverride && (m.isVirtual || m.markedAbstract)
    ensures exists k :: |Inherited(h, t, c)| <= k < |t.vtables[c]| &&
              (t.vtables[c][k] == m || (t.vtables[c][k].signature == m.signature && IsPromotion(h, rank, c, t.vtables[c][k])))
  {
    hide WellFormed, Acyclic, IsPromotion, IsInterfaceOf, Dispatches, OverridesPlaced, OverridesFound, OverriddenAt;
    var start, table := Inherited(h, t, c), t.vtables[c];
    var placed: Table :| OwnPlaced(h, c, start, placed) && Promoted(h, rank, c, placed, table);
    assert HasFrom(placed, |start|, m);
    var k :| |start| <= k < |placed| && placed[k] == m;
    assert table[k] == placed[k] || (table[k].signature == m.signature && IsPromotion(h, rank, c, table[k]));
  }

  /** An inherited slot holds the class's override, the inherited method, or the nearest
      implementation where an interface needs one. */
  lemma InheritedSlotHolds(h: Classes, rank: map<Id, nat>, t: Tables, errors: seq<Error>, c: Id, k: nat)
    requires Proper(h, rank) && Built(h, rank, t, errors, c) && !h[c].isInterface && k < |Inherited(h, t, c)|
    ensures k < |t.vtables[c]|
    ensures OverriddenAt(h, c, Inherited(h, t, c), k, t.vtables[c][k]) || IsPromotion(h, rank, c, t.vtables[c][k])
    ensures t.vtables[c][k].signature == Inherited(h, t, c)[k].signature
  {
    hide WellFormed, Acyclic, IsPromotion, IsInterfaceOf, Dispatches, OverridesPlaced, OverridesFound;
    var start, table := Inherited(h, t, c), t.vtables[c];
    var placed: Table :| OwnPlaced(h, c, start, placed) && Promoted(h, rank, c, placed, table);
    assert OverriddenAt(h, c, start, k, placed[k]);
    assert table[k] == placed[k] || (table[k].signature == placed[k].signature && IsPromotion(h, rank, c, table[k]));
  }

  /** An interface's table has exactly the signatures that it and those it extends declare. */
  lemma {:induction false} InterfaceSignatures(h: Classes, rank: map<Id, nat>, t: Tables, errors: seq<Error>, i: Id, s: Signature)
    requires Proper(h, rank) && i in t.vtables && h.Keys >= t.vtables.Keys && h[i].isInterface
    requires forall x :: x in t.vtables ==> Built(h, rank, t, errors, x)
    ensures HasSignature(t.vtables[i], s) <==> Needs(h, rank, i, s)
    decreases rank[i]
  {
    hide WellFormed, Acyclic, BuiltClass, Needs, HasSignature;
    assert Built(h, rank, t, errors, i);
    if Needs(h, rank, i, s) {
      var d := NeededHere(h, rank, i, s);
      if d != i {
        assert d in t.vtables;
        InterfaceSignatures(h, rank, t, errors, d, s);
        SignatureCovered(t.vtables[d], t.vtables[i], s, h[i].base == Some(d));
      } else {
        DeclaredCovered(h, i, t.vtables[i], s);
      }
    }
  }

  /** The parent through which an interface needs a signature, or the interface itself. */
  lemma NeededHere(h: Classes, rank: map<Id, nat>, i: Id, s: Signature) returns (d: Id)
    requires Proper(h, rank) && i in h && h[i].isInterface && Needs(h, rank, i, s)
    ensures d in h && h[d].isInterface
    ensures if d == i then exists m :: m in h[i].methods && m.signature == s
            else rank[d] < rank[i] && Needs(h, rank, d, s) && (h[i].base == Some(d) || d in h[i].interfaces)
  {
    hide WellFormed;
    var j, m :| IsInterfaceOf(h, rank, i, j) && m in h[j].methods && m.signature == s;
    d := i;
    if j != i {
      d :| IsParent(h, i, d) && Below(h, rank, d, j);
      ParentOfInterface(h, rank, i, d);
      assert IsInterfaceOf(h, rank, d, j);
    }
  }

  lemma ParentOfInterface(h: Classes, rank: map<Id, nat>, i: Id, d: Id)
    requires Proper(h, rank) && i in h && h[i].isInterface && IsParent(h, i, d)
    ensures d in h && h[d].isInterface && rank[d] < rank[i]
  {
    assert WellFormedClass(h, i);
  }

  lemma SignatureCovered(a: Table, b: Table, s: Signature, kept: bool)
    requires HasSignature(a, s) && if kept then KeepsSlots(a, b) else Covers(b, a)
    ensures HasSignature(b, s)
  {
    var k :| 0 <= k < |a| && a[k].signature == s;
    if kept { assert b[k].signature == s; } else { assert HasSignature(b, a[k].signature); }
  }

  lemma DeclaredCovered(h: Classes, i: Id, t: Table, s: Signature)
    requires i in h && Covers(t, h[i].methods) && exists m :: m in h[i].methods && m.signature == s
    ensures HasSignature(t, s)
  {
    var m :| m in h[i].methods && m.signature == s;
    var j :| 0 <= j < |h[i].methods| && h[i].methods[j] == m;
  }

  /** A class's table has exactly the signatures that the declarations give a slot. */
  lemma {:induction false} SlotsByDeclaration(h: Classes, rank: map<Id, nat>, t: Tables, errors: seq<Error>, c: Id, s: Signature)
    requires Proper(h, rank) && c in t.vtables && h.Keys >= t.vtables.Keys && !h[c].isInterface
    requires forall x :: x in t.vtables ==> Built(h, rank, t, errors, x)
    ensures HasSignature(t.vtables[c], s) <==> Slotted(h, rank, c, s)
    decreases rank[c]
  {
    hide WellFormed, Acyclic, Needs, HasSignature, Built, OwnPlaced, Promoted;
    var start := Inherited(h, t, c);
    BuiltParts(h, rank, t, errors, c);
    if h[c].base.Some? {
      BaseFacts(h, rank, c);
      SlotsByDeclaration(h, rank, t, errors, h[c].base.value, s);
    } else {
      assert !HasSignature(start, s) by { EmptyHasNone(s); }
    }
    var placed: Table :| OwnPlaced(h, c, start, placed) && Promoted(h, rank, c, placed, t.vtables[c]);
    PlacedSignatures(h, c, start, placed, s);
    PromotedSignatures(h, rank, c, placed, t.vtables[c], s);
    if Needs(h, rank, c, s) && Nearest(h, rank, c, s).Some? { NeededHasSlot(h, rank, t, errors, c, s); }
  }

  lemma EmptyHasNone(s: Signature)
    ensures !HasSignature([], s)
  {
  }

  lemma BuiltParts(h: Classes, rank: map<Id, nat>, t: Tables, errors: seq<Error>, c: Id)
    requires Proper(h, rank) && Built(h, rank, t, errors, c) && !h[c].isInterface
    ensures (h[c].base.Some? ==> h[c].base.value in t.vtables) && Composed(h, rank, c, Inherited(h, t, c), t.vtables[c])
  {
    hide WellFormed, Acyclic, IsInterfaceOf, Dispatches, OverridesPlaced, OverridesFound, Composed, KeepsSlots;
  }

  lemma PlacedSignatures(h: Classes, c: Id, start: Table, t: Table, s: Signature)
    requires c in h && OwnPlaced(h, c, start, t)
    ensures HasSignature(t, s) <==> HasSignature(start, s) || exists m :: m in h[c].methods && TakesSlot(m) && m.signature == s
  {
    if HasSignature(start, s) {
      var k :| 0 <= k < |start| && start[k].signature == s;
      assert OverriddenAt(h, c, start, k, t[k]);
    }
    if m :| m in h[c].methods && TakesSlot(m) && m.signature == s { assert HasFrom(t, |start|, m); }
    if HasSignature(t, s) {
      var k :| 0 <= k < |t| && t[k].signature == s;
      if k < |start| { assert OverriddenAt(h, c, start, k, t[k]); }
    }
  }

  lemma PromotedSignatures(h: Classes, rank: map<Id, nat>, c: Id, t: Table, t1: Table, s: Signature)
    requires Proper(h, rank) && c in h && Promoted(h, rank, c, t, t1)
    ensures HasSignature(t, s) ==> HasSignature(t1, s)
    ensures HasSignature(t1, s) ==> HasSignature(t, s) || (Needs(h, rank, c, s) && Nearest(h, rank, c, s).Some?)
  {
    hide WellFormed, Acyclic, Needs, Nearest;
    if HasSignature(t, s) {
      var k :| 0 <= k < |t| && t[k].signature == s;
      assert t1[k].signature == s;
    }
    if HasSignature(t1, s) {
      var k :| 0 <= k < |t1| && t1[k].signature == s;
      if k < |t| { assert t[k].signature == s; } else { assert IsPromotion(h, rank, c, t1[k]); }
    }
  }

  /** What an interface needs and is implemented has a slot. */
  lemma NeededHasSlot(h: Classes, rank: map<Id, nat>, t: Tables, errors: seq<Error>, c: Id, s: Signature)
    requires Proper(h, rank) && c in t.vtables && h.Keys >= t.vtables.Keys && !h[c].isInterface && forall x :: x in t.vtables ==> Built(h, rank, t, errors, x)
    requires Needs(h, rank, c, s) && Nearest(h, rank, c, s).Some?
    ensures HasSignature(t.vtables[c], s)
  {
    hide WellFormed, Acyclic, Below, Nearest, Composed, OverridesPlaced, OverridesFound, KeepsSlots;
    var i, m :| IsInterfaceOf(h, rank, c, i) && m in h[i].methods && m.signature == s;
    assert Built(h, rank, t, errors, c) && i in t.itables[c] && i in t.vtables;
    assert Built(h, rank, t, errors, i);
    DeclaredCovered(h, i, t.vtables[i], s);
    var index :| 0 <= index < |t.vtables[i]| && t.vtables[i][index].signature == s;
    var slot := t.itables[c][i][index];
    assert LeadsTo(h, rank, c, t.vtables[c], slot, t.vtables[i][index].signature);
    NearestFacts(h, rank, c, s);
  }
}
