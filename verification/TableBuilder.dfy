/** The binder's table builder: memoised recursion over bases and interfaces, with
    detection of circular inheritance. */
module TableBuilder {
  import opened Options
  import opened Hierarchy
  import opened ClassTables

  class Binder {
    const h: Classes
    ghost const rank: map<Id, nat>
    var vtables: map<Id, Table>
    var itables: map<Id, map<Id, seq<int>>>
    var calculated: set<Id>
    var inProgress: set<Id>
    var errors: seq<Error>

    ghost function Snapshot(): Tables
      reads this`vtables, this`itables
    {
      Tables(vtables, itables)
    }

    /** Every finished class has its tables, and every report is true. */
    ghost predicate Valid()
      reads this
    {
      Proper(h, rank) && calculated == vtables.Keys <= h.Keys && itables.Keys <= calculated && calculated !! inProgress &&
      AllReal(h, rank, Snapshot(), errors) && forall c :: c in calculated ==> Built(h, rank, Snapshot(), errors, c)
    }

    /** Only descendants of c are being worked on. */
    ghost predicate AboveAll(c: Id)
      reads this`inProgress
    {
      inProgress <= rank.Keys && c in rank && forall x :: x in inProgress ==> rank[x] > rank[c]
    }

    constructor (h: Classes, ghost rank: map<Id, nat>)
      requires Proper(h, rank)
      ensures Valid() && this.h == h && this.rank == rank && inProgress == {} && errors == []
    {
      this.h, this.rank := h, rank;
      vtables, itables, calculated, inProgress, errors := map[], map[], {}, {}, [];
    }

    // ------------------------------------------------------------------- interfaces

    /** Append the methods whose signatures are not there yet. */
    static method Merge(table: Table, other: Table) returns (t: Table)
      ensures KeepsSlots(table, t) && Covers(t, other) && Extends(table, t, other)
    {
      t := table;
      var j := 0;
      while j < |other|
        invariant j <= |other| && KeepsSlots(table, t) && Covers(t, other[..j]) && Extends(table, t, other)
      {
        var k := FindSignature(t, other[j].signature);
        ghost var before := t;
        if k == |t| {
          t := t + [other[j]];
          OneMissing(table, before, other, j);
        }
        assert t[k].signature == other[j].signature;
        StillCovers(before, t, other[..j]);
        assert other[..j + 1] == other[..j] + [other[j]];
        j := j + 1;
      }
      assert other[..j] == other;
    }

    /** The first slot with the signature, or the table's length. */
    static method FindSignature(t: Table, s: Signature) returns (k: nat)
      ensures k <= |t| && (if k < |t| then IsFirst(t, s, k) else !HasSignature(t, s))
    {
      k := 0;
      while k < |t| && t[k].signature != s
        invariant k <= |t| && forall j :: 0 <= j < k ==> t[j].signature != s
      {
        k := k + 1;
      }
    }

    /** Put interface methods into their slots, or behind the others. */
    static method PutAbstract(table: Table, methods: seq<Method>) returns (t: Table)
      ensures KeepsSlots(table, t) && Covers(t, methods)
      ensures forall k :: 0 <= k < |t| ==> t[k] in methods || (k < |table| && t[k] == table[k])
    {
      t := table;
      var j := 0;
      while j < |methods|
        invariant j <= |methods| && KeepsSlots(table, t) && Covers(t, methods[..j])
        invariant forall k :: 0 <= k < |t| ==> t[k] in methods || (k < |table| && t[k] == table[k])
      {
        var k := FindSignature(t, methods[j].signature);
        ghost var before := t;
        t := if k < |t| then t[k := methods[j]] else t + [methods[j]];
        OneMoreCovered(before, t, methods, j, k);
        j := j + 1;
      }
      assert methods[..j] == methods;
    }

    method CalculateInterface(i: Id)
      requires Valid() && i in h && h[i].isInterface && (i in calculated || i in inProgress || AboveAll(i))
      modifies this
      ensures Valid() && inProgress == old(inProgress) && Grown(old(Snapshot()), Snapshot())
      ensures i !in inProgress ==> i in calculated && errors == old(errors)
      ensures i in inProgress ==> errors == old(errors) + [Circular(i)]
      decreases rank[i], 2
    {
      hide WellFormed, Acyclic, Built, AllReal, KeepsSlots, Covers;
      if i in calculated { return; }
      if i in inProgress {
        ReportReal(h, rank, Snapshot(), errors, Circular(i));
        errors := errors + [Circular(i)];
        StillBuiltAll(h, rank, Snapshot(), calculated, old(errors), errors);
        return;
      }
      BuildInterface(i);
    }

    method BuildInterface(i: Id)
      requires Valid() && i in h && h[i].isInterface && i !in calculated && AboveAll(i)
      modifies this
      ensures Valid() && inProgress == old(inProgress) && Grown(old(Snapshot()), Snapshot()) && i in calculated && errors == old(errors)
      decreases rank[i], 1
    {
      hide WellFormed, Acyclic, Built, AllReal, KeepsSlots, Covers, AllCovered, AllNeeded;
      inProgress := inProgress + {i};
      var table: Table := [];
      NoneNeeded(h, rank, i);
      if h[i].base.Some? {
        BaseFacts(h, rank, i);
        CalculateInterface(h[i].base.value);
        table := vtables[h[i].base.value];
        ParentNeeded(h, rank, Snapshot(), errors, i, h[i].base.value);
      }
      table := ExtendInterface(i, table);
      FinishInterface(i, table);
    }

    /** The methods of the interfaces that i extends, then its own, over its base's. */
    method ExtendInterface(i: Id, start: Table) returns (table: Table)
      requires Valid() && i in h && h[i].isInterface && i !in calculated && i in inProgress
      requires inProgress <= rank.Keys && forall x :: x in inProgress ==> rank[x] >= rank[i]
      requires h[i].base.Some? ==> h[i].base.value in vtables && start == vtables[h[i].base.value]
      requires AllNeeded(h, rank, i, start)
      modifies this
      ensures Valid() && inProgress == old(inProgress) && Grown(old(Snapshot()), Snapshot()) && errors == old(errors)
      ensures KeepsSlots(start, table) && AllNeeded(h, rank, i, table)
      ensures Covers(table, h[i].methods) && AllCovered(table, h[i].interfaces, |h[i].interfaces|, vtables)
      decreases rank[i], 0, 1
    {
      hide WellFormed, Acyclic, Built, AllReal, KeepsSlots, Covers, AllCovered, AllNeeded;
      var merged := MergeInterfaces(i, start);
      table := PutAbstract(merged, h[i].methods);
      OwnNeeded(h, rank, i, merged, table);
      KeepsOn(start, merged, table);
      AllStillCovered(merged, table, h[i].interfaces, |h[i].interfaces|, vtables);
    }

    method FinishInterface(i: Id, table: Table)
      requires Valid() && i in h && h[i].isInterface && i in inProgress && i !in calculated
      requires h[i].base.Some? ==> h[i].base.value in vtables && KeepsSlots(vtables[h[i].base.value], table)
      requires Covers(table, h[i].methods) && AllCovered(table, h[i].interfaces, |h[i].interfaces|, vtables) && AllNeeded(h, rank, i, table)
      modifies this
      ensures Valid() && inProgress == old(inProgress) - {i} && Grown(old(Snapshot()), Snapshot()) && i in calculated && errors == old(errors)
    {
      hide WellFormed, Acyclic, Built, AllReal, KeepsSlots, Covers, AllNeeded;
      InterfaceBuilt(h, rank, Snapshot(), calculated, errors, i, table);
      StillReal(h, rank, Snapshot(), Tables(vtables[i := table], itables), errors);
      inProgress := inProgress - {i};
      vtables := vtables[i := table];
      calculated := calculated + {i};
    }

    /** Add the methods of the interfaces that i extends, but for its base's. */
    method MergeInterfaces(i: Id, start: Table) returns (table: Table)
      requires Valid() && i in h && h[i].isInterface && i !in calculated && i in inProgress
      requires inProgress <= rank.Keys && forall x :: x in inProgress ==> rank[x] >= rank[i]
      requires h[i].base.Some? ==> h[i].base.value in vtables && start == vtables[h[i].base.value]
      requires AllNeeded(h, rank, i, start)
      modifies this
      ensures Valid() && inProgress == old(inProgress) && Grown(old(Snapshot()), Snapshot()) && errors == old(errors)
      ensures KeepsSlots(start, table) && AllCovered(table, h[i].interfaces, |h[i].interfaces|, vtables) && AllNeeded(h, rank, i, table)
      decreases rank[i], 0, 0
    {
      hide WellFormed, Acyclic, Built, AllReal, KeepsSlots, Covers, AllNeeded, Extends;
      table := start;
      KeepsSelf(start);
      var k := 0;
      while k < |h[i].interfaces|
        invariant k <= |h[i].interfaces| && Valid() && inProgress == old(inProgress) && errors == old(errors)
        invariant Grown(old(Snapshot()), Snapshot()) && KeepsSlots(start, table) && AllCovered(table, h[i].interfaces, k, vtables)
        invariant AllNeeded(h, rank, i, table)
      {
        InterfaceFacts(h, rank, i, k);
        var other := h[i].interfaces[k];
        ghost var before := table;
        if h[i].base != Some(other) {
          CalculateInterface(other);
          table := Merge(table, vtables[other]);
          ParentNeeded(h, rank, Snapshot(), errors, i, other);
          MergedNeeded(h, rank, i, before, table, vtables[other]);
          KeepsOn(start, before, table);
          AllStillCovered(before, table, h[i].interfaces, k, vtables);
        } else {
          KeptIsCovered(start, table);
        }
        k := k + 1;
      }
    }

    // ---------------------------------------------------------------------- classes

    /** Overrides go into the slot of the method they override, other virtual methods
        behind the rest; false stands for the exception thrown when there is no slot. */
    method PlaceOwn(c: Id, start: Table) returns (ok: bool, table: Table)
      requires Proper(h, rank) && c in h && AllReal(h, rank, Snapshot(), errors)
      modifies this`errors
      ensures old(errors) <= errors && AllReal(h, rank, Snapshot(), errors)
      ensures ok ==> KeepsSlots(start, table) && OverridesPlaced(h, c, table) && OwnPlaced(h, c, start, table)
      ensures ok <==> OverridesFound(h, c, start)
    {
      hide WellFormed, Acyclic, AllReal, OwnSoFar, KeepsSlots, OverridesPlaced, OwnPlaced, OverridesFound;
      table := start;
      var own := h[c].methods;
      NothingPlaced(h, c, start);
      var j := 0;
      while j < |own|
        invariant j <= |own| && old(errors) <= errors && AllReal(h, rank, Snapshot(), errors) && OwnSoFar(h, c, start, table, j)
      {
        var m := own[j];
        ghost var before := table;
        if m.isOverride {
          var k := FindSignature(table, m.signature);
          if k == |table| {
            NothingToOverride(h, c, start, table, j);
            return false, table;
          }
          if table[k].result != m.result {
            ReportReal(h, rank, Snapshot(), errors, IncompatibleResult(m));
            errors := errors + [IncompatibleResult(m)];
          }
          table := table[k := m];
          OneOverride(h, c, start, before, k, j);
        } else if m.isVirtual || m.markedAbstract {
          table := table + [m];
          OneNew(h, c, start, before, j);
        } else {
          NoSlot(h, c, start, table, j);
        }
        j := j + 1;
      }
      AllOwnPlaced(h, c, start, table);
      ok := true;
    }

    /** The interfaces reachable from c, each after those it extends. */
    static method Collect(h: Classes, ghost rank: map<Id, nat>, c: Id, visited: set<Id>, result: seq<Id>)
      returns (after: set<Id>, all: seq<Id>)
      requires Proper(h, rank) && c in h
      ensures c in after && visited <= after && result <= all
      ensures forall i :: i in all ==> i in result || (i != c && IsInterfaceOf(h, rank, c, i))
      ensures forall x :: x in after ==> x in visited || ParentsIn(h, x, after, all)
      decreases rank[c]
    {
      hide WellFormed, Acyclic, Below;
      if c in visited { return visited, result; }
      after, all := visited + {c}, result;
      var k := 0;
      while k < |h[c].interfaces|
        invariant k <= |h[c].interfaces| && visited + {c} <= after && result <= all
        invariant forall i :: i in all ==> i in result || (i != c && IsInterfaceOf(h, rank, c, i))
        invariant forall x :: x in after ==> x in visited || x == c || ParentsIn(h, x, after, all)
        invariant forall j :: 0 <= j < k ==> h[c].interfaces[j] in after && h[c].interfaces[j] in all
      {
        InterfaceFacts(h, rank, c, k);
        var i := h[c].interfaces[k];
        CollectedAreBelow(h, rank, c, i);
        after, all := Collect(h, rank, i, after, all);
        all := all + [i];
        k := k + 1;
      }
      if h[c].base.Some? {
        BaseFacts(h, rank, c);
        var b := h[c].base.value;
        CollectedAreBelow(h, rank, c, b);
        after, all := Collect(h, rank, b, after, all);
        if h[c].isInterface { all := all + [b]; }
      }
      OwnParentsIn(h, rank, c, after, all);
    }

    method CollectAllInterfaces(c: Id) returns (all: seq<Id>)
      requires Proper(h, rank) && c in h && !h[c].isInterface
      ensures forall i :: i in all <==> IsInterfaceOf(h, rank, c, i)
    {
      hide WellFormed, Acyclic, Below;
      var visited;
      visited, all := Collect(h, rank, c, {}, []);
      forall i | IsInterfaceOf(h, rank, c, i) ensures i in all { ReachedAll(h, rank, visited, all, c, i); }
    }

    /** The search along the base chain for a concrete method of the signature. */
    method FindImplementation(c: Id, s: Signature) returns (r: Option<Method>)
      requires Proper(h, rank) && c in h
      ensures r == Nearest(h, rank, c, s)
    {
      hide WellFormed, Acyclic;
      var curr := c;
      while true
        invariant curr in h && Nearest(h, rank, c, s) == Nearest(h, rank, curr, s)
        decreases rank[curr]
      {
        var ms, k := h[curr].methods, 0;
        while k < |ms| && !(ms[k].signature == s && !IsAbstract(h, ms[k]))
          invariant k <= |ms| && FirstConcrete(h, ms, s) == FirstConcrete(h, ms[k..], s)
        {
          k := k + 1;
        }
        if k < |ms| { return Some(ms[k]); }
        if h[curr].base.None? { return None; }
        BaseFacts(h, rank, curr);
        curr := h[curr].base.value;
      }
    }

    /** The slot of an implementation: where it is already, else where its signature
        is, else a new one. */
    method PlaceImplementation(c: Id, table: Table, m: Method) returns (t: Table, slot: nat)
      requires Proper(h, rank) && c in h && Nearest(h, rank, c, m.signature) == Some(m) && OverridesPlaced(h, c, table)
      requires Needs(h, rank, c, m.signature)
      ensures KeepsSlots(table, t) && OverridesPlaced(h, c, t) && KeepsPromises(h, rank, c, table, t) && Promoted(h, rank, c, table, t)
      ensures LeadsTo(h, rank, c, t, slot, m.signature)
    {
      hide WellFormed, Acyclic, Nearest, OverridesPlaced, Needs, Promoted;
      t, slot := table, 0;
      PromotedSelf(h, rank, c, table);
      while slot < |t| && t[slot] != m
        invariant slot <= |t| && forall j :: 0 <= j < slot ==> t[j] != m
      {
        slot := slot + 1;
      }
      if slot < |t| { return; }
      slot := FindSignature(t, m.signature);
      if slot < |t| {
        t := t[slot := m];
        ReplacedKeepsPromises(h, rank, c, table, slot, m);
        PromotedHere(h, rank, c, table, slot, m);
      } else {
        t := t + [m];
        AppendedKeepsPromises(h, rank, c, table, m);
        PromotedBehind(h, rank, c, table, m);
      }
    }

    /** The slot numbers for one interface's methods. */
    method FillSlots(c: Id, ghost i: Id, start: Table, methods: Table) returns (table: Table, slots: seq<int>)
      requires Proper(h, rank) && c in h && OverridesPlaced(h, c, start)
      requires !h[c].isInterface && IsInterfaceOf(h, rank, c, i) && i in vtables && vtables[i] == methods && AllReal(h, rank, Snapshot(), errors)
      requires AllNeeded(h, rank, c, methods)
      modifies this`errors
      ensures AllReal(h, rank, Snapshot(), errors)
      ensures old(errors) <= errors && KeepsSlots(start, table) && OverridesPlaced(h, c, table) && KeepsPromises(h, rank, c, start, table)
      ensures Promoted(h, rank, c, start, table)
      ensures Dispatches(h, rank, c, table, slots, methods) && (Clean(errors, c) && !h[c].isAbstract ==> -1 !in slots)
    {
      hide WellFormed, Acyclic, Nearest, OverridesPlaced, OverridesFound, KeepsSlots, LeadsTo, AllReal, IsInterfaceOf, Clean, Needs, Promoted;
      table, slots := start, [];
      PromotedSelf(h, rank, c, start);
      KeepsSelf(start);
      var j := 0;
      while j < |methods|
        invariant j <= |methods| && old(errors) <= errors && KeepsSlots(start, table) && OverridesPlaced(h, c, table)
        invariant KeepsPromises(h, rank, c, start, table) && AllReal(h, rank, Snapshot(), errors) && Promoted(h, rank, c, start, table)
        invariant Dispatches(h, rank, c, table, slots, methods[..j]) && (Clean(errors, c) && !h[c].isAbstract ==> -1 !in slots)
      {
        var s := methods[j].signature;
        var implementation := FindImplementation(c, s);
        ghost var before := table;
        var slot: int := -1;
        if implementation.None? {
          if !h[c].isAbstract {
            MissingIsReal(h, rank, Snapshot(), errors, c, i, j);
            OneReport(errors, NotImplemented(c, s), c);
            errors := errors + [NotImplemented(c, s)];
          }
          NoImplementation(h, rank, c, table, s);
        } else {
          ImplementationFacts(h, rank, c, s);
          table, slot := PlaceImplementation(c, table, implementation.value);
          KeepsOn(start, before, table);
          PromotedOn(h, rank, c, start, before, table);
        }
        slots := slots + [slot];
        j := j + 1;
      }
      assert methods[..j] == methods;
    }

    /** The interface table of a class, over its base's. */
    method FillTables(c: Id, start: Table, inherited: map<Id, seq<int>>) returns (table: Table, itable: map<Id, seq<int>>)
      requires Valid() && c in h && !h[c].isInterface && c in inProgress && OverridesPlaced(h, c, start)
      requires inProgress <= rank.Keys && forall x :: x in inProgress ==> rank[x] >= rank[c]
      requires forall i :: i in inherited ==> IsInterfaceOf(h, rank, c, i)
      modifies this
      ensures Valid() && inProgress == old(inProgress) && Grown(old(Snapshot()), Snapshot()) && old(errors) <= errors
      ensures KeepsSlots(start, table) && OverridesPlaced(h, c, table) && Promoted(h, rank, c, start, table)
      ensures forall i :: i in itable <==> IsInterfaceOf(h, rank, c, i)
      ensures forall i :: i in itable ==> EntryOk(h, rank, c, table, itable, vtables, errors, i)
    {
      hide WellFormed, Acyclic, Built, AllReal, KeepsSlots, OverridesPlaced, IsInterfaceOf, EntryOk, Grown, Promoted;
      PromotedSelf(h, rank, c, start);
      var all := CollectAllInterfaces(c);
      table, itable := start, inherited;
      KeepsSelf(start);
      GrownSelf(Snapshot());
      var k := 0;
      while k < |all|
        invariant k <= |all| && Valid() && inProgress == old(inProgress) && Grown(old(Snapshot()), Snapshot()) && old(errors) <= errors
        invariant KeepsSlots(start, table) && OverridesPlaced(h, c, table) && Promoted(h, rank, c, start, table)
        invariant forall i :: i in itable <==> i in inherited || i in all[..k]
        invariant forall i :: i in all[..k] ==> EntryOk(h, rank, c, table, itable, vtables, errors, i)
      {
        assert all[k] in all && all[..k + 1] == all[..k] + [all[k]];
        InterfaceRanks(h, rank, c, all[k]);
        table, itable := FillOne(c, all[k], table, itable, start, all[..k], old(Snapshot()));
        k := k + 1;
      }
      assert all[..k] == all;
    }

    method FillOne(c: Id, i: Id, table0: Table, itable0: map<Id, seq<int>>, ghost start: Table, ghost done: seq<Id>, ghost t0: Tables)
      returns (table: Table, itable: map<Id, seq<int>>)
      requires Valid() && c in h && c in inProgress && OverridesPlaced(h, c, table0) && KeepsSlots(start, table0) && Grown(t0, Snapshot())
      requires Promoted(h, rank, c, start, table0)
      requires inProgress <= rank.Keys && (forall x :: x in inProgress ==> rank[x] >= rank[c])
      requires !h[c].isInterface && i in h && h[i].isInterface && rank[i] < rank[c] && IsInterfaceOf(h, rank, c, i)
      requires forall x :: x in done ==> EntryOk(h, rank, c, table0, itable0, vtables, errors, x)
      modifies this
      ensures Valid() && inProgress == old(inProgress) && Grown(t0, Snapshot()) && old(errors) <= errors
      ensures KeepsSlots(start, table) && OverridesPlaced(h, c, table) && itable.Keys == itable0.Keys + {i} && Promoted(h, rank, c, start, table)
      ensures forall x :: x in done + [i] ==> EntryOk(h, rank, c, table, itable, vtables, errors, x)
    {
      hide WellFormed, Acyclic, Built, AllReal, KeepsSlots, OverridesPlaced, IsInterfaceOf, Grown, EntryOk, Dispatches, KeepsPromises, LeadsTo, Promoted, AllNeeded;
      ghost var before, reported := Snapshot(), errors;
      CalculateInterface(i);
      GrownTransitive(t0, before, Snapshot());
      var slots;
      InterfaceNeeded(h, rank, Snapshot(), errors, c, i);
      table, slots := FillSlots(c, i, table0, vtables[i]);
      PromotedOn(h, rank, c, start, table0, table);
      StillBuiltAll(h, rank, Snapshot(), calculated, reported, errors);
      KeepsOn(start, table0, table);
      itable := itable0[i := slots];
      NewEntry(h, rank, c, table, itable, vtables, errors, i);
      forall x | x in done && x != i ensures EntryOk(h, rank, c, table, itable, vtables, errors, x) {
        EntryStays(h, rank, c, table0, table, itable0, itable, before, Snapshot(), reported, errors, x);
      }
    }

    /** False when the source throws: an override with nothing to override. */
    method CalculateClass(c: Id) returns (ok: bool)
      requires Valid() && c in h && (c in calculated || c in inProgress || AboveAll(c))
      modifies this
      ensures ok ==> Valid() && inProgress == old(inProgress) && Grown(old(Snapshot()), Snapshot()) && old(errors) <= errors
      ensures ok && c !in inProgress ==> c in calculated
      ensures !ok ==> OrphanAbove(h, rank, c)
      ensures c in old(inProgress) ==> ok && errors == old(errors) + [Circular(c)]
      decreases rank[c], 1
    {
      hide WellFormed, Acyclic, Built, AllReal, Grown;
      if h[c].isInterface {
        CalculateInterface(c);
        return true;
      }
      GrownSelf(Snapshot());
      if c in calculated { return true; }
      if c in inProgress {
        ReportReal(h, rank, Snapshot(), errors, Circular(c));
        errors := errors + [Circular(c)];
        StillBuiltAll(h, rank, Snapshot(), calculated, old(errors), errors);
        return true;
      }
      ok := BuildClass(c);
    }

    method BuildClass(c: Id) returns (ok: bool)
      requires Valid() && c in h && !h[c].isInterface && c !in calculated && AboveAll(c)
      modifies this
      ensures ok ==> Valid() && inProgress == old(inProgress) && Grown(old(Snapshot()), Snapshot()) && old(errors) <= errors && c in calculated
      ensures !ok ==> OrphanAbove(h, rank, c)
      decreases rank[c], 0
    {
      hide WellFormed, Acyclic, Built, AllReal, KeepsSlots, OverridesPlaced, OverridesFound, OrphanAbove, OnChain, Inherited, IsInterfaceOf, EntryOk, Grown,
           OwnPlaced, Promoted, Composed;
      inProgress := inProgress + {c};
      GrownSelf(Snapshot());
      var table: Table, itable: map<Id, seq<int>> := [], map[];
      if h[c].base.Some? {
        BaseFacts(h, rank, c);
        ok := CalculateClass(h[c].base.value);
        if !ok {
          OrphanBelow(h, rank, c);
          return;
        }
        InheritedTable(h, rank, Snapshot(), errors, c);
        table, itable := vtables[h[c].base.value], itables[h[c].base.value];
      }
      ghost var start, t1, reported := table, Snapshot(), errors;
      ok, table := PlaceOwn(c, table);
      if !ok {
        OrphanHere(h, rank, Snapshot(), reported, c, start);
        return;
      }
      StillBuiltAll(h, rank, Snapshot(), calculated, reported, errors);
      ghost var placed := table;
      table, itable := FillTables(c, table, itable);
      KeepsOn(start, placed, table);
      GrownTransitive(old(Snapshot()), t1, Snapshot());
      ghost var t2 := Snapshot();
      StartIsBase(h, c, start, t1, t2);
      SameStart(h, c, start, t1, t2);
      OnTop(h, rank, c, start, placed, table);
      FinishClass(c, table, itable);
      GrownTransitive(old(Snapshot()), t2, Snapshot());
      ok := true;
    }

    method FinishClass(c: Id, table: Table, itable: map<Id, seq<int>>)
      requires Valid() && c in h && !h[c].isInterface && c in inProgress && c !in calculated
      requires h[c].base.Some? ==> h[c].base.value in vtables && KeepsSlots(vtables[h[c].base.value], table)
      requires OverridesPlaced(h, c, table) && forall i :: i in itable <==> IsInterfaceOf(h, rank, c, i)
      requires forall i :: i in itable ==> EntryOk(h, rank, c, table, itable, vtables, errors, i)
      requires OverridesFound(h, c, Inherited(h, Snapshot(), c)) && Composed(h, rank, c, Inherited(h, Snapshot(), c), table)
      modifies this
      ensures Valid() && inProgress == old(inProgress) - {c} && Grown(old(Snapshot()), Snapshot()) && old(errors) <= errors && c in calculated
    {
      hide WellFormed, Acyclic, Built, AllReal, KeepsSlots, OverridesPlaced, OverridesFound, Inherited, IsInterfaceOf, EntryOk, Composed;
      inProgress := inProgress - {c};
      vtables := vtables[c := table];
      itables := itables[c := itable];
      calculated := calculated + {c};
      StillReal(h, rank, old(Snapshot()), Snapshot(), errors);
      if !h[c].isAbstract { ReportAbstract(c, table); }
      ClassBuilt(h, rank, old(Snapshot()), Snapshot(), old(calculated), old(errors), errors, c, table, itable);
    }

    /** A concrete class may leave no slot abstract. */
    method ReportAbstract(c: Id, table: Table)
      requires Proper(h, rank) && IsConcrete(h, c) && c in vtables && vtables[c] == table && AllReal(h, rank, Snapshot(), errors)
      modifies this`errors
      ensures AllReal(h, rank, Snapshot(), errors)
      ensures old(errors) <= errors && (Clean(errors, c) ==> forall m :: m in table ==> !IsAbstract(h, m))
    {
      hide WellFormed, Acyclic, AllReal, Clean;
      var k := 0;
      while k < |table|
        invariant k <= |table| && old(errors) <= errors && AllReal(h, rank, Snapshot(), errors)
        invariant Clean(errors, c) ==> forall m :: m in table[..k] ==> !IsAbstract(h, m)
      {
        if IsAbstract(h, table[k]) {
          ReportReal(h, rank, Snapshot(), errors, LeftAbstract(c, table[k]));
          OneReport(errors, LeftAbstract(c, table[k]), c);
          errors := errors + [LeftAbstract(c, table[k])];
        }
        k := k + 1;
      }
      assert table[..k] == table;
    }

    /** Every class of the program, in the order the binder meets them. */
    method CalculateAll(order: seq<Id>) returns (ok: bool)
      requires Valid() && inProgress == {} && forall c :: c in order ==> c in h
      modifies this
      ensures ok ==> Valid() && inProgress == {} && forall c :: c in order ==> Built(h, rank, Snapshot(), errors, c)
      ensures ok <==> forall c :: c in order ==> !OrphanAbove(h, rank, c)
      ensures ok ==> forall c :: c in order && IsConcrete(h, c) ==> (Clean(errors, c) <==> Complete(h, rank, Snapshot(), c))
    {
      hide WellFormed, Acyclic, Built, Grown, AllReal, Clean, Complete, OrphanAbove, OnChain;
      var k := 0;
      while k < |order|
        invariant k <= |order| && Valid() && inProgress == {} && forall c :: c in order[..k] ==> c in calculated
      {
        assert order[k] in order && order[..k + 1] == order[..k] + [order[k]];
        ghost var before := Snapshot();
        ok := CalculateClass(order[k]);
        if !ok {
          assert order[k] in order && OrphanAbove(h, rank, order[k]);
          return;
        }
        GrownKeys(before, Snapshot());
        k := k + 1;
      }
      assert order[..k] == order;
      forall c | c in order ensures !OrphanAbove(h, rank, c) { NoOrphanAbove(h, rank, Snapshot(), errors, c); }
      forall c | c in order && IsConcrete(h, c) ensures Clean(errors, c) <==> Complete(h, rank, Snapshot(), c) {
        ReportedExactly(h, rank, Snapshot(), errors, c);
      }
      ok := true;
    }
  }

  ghost predicate AllCovered(table: Table, interfaces: seq<Id>, n: nat, vtables: map<Id, Table>)
    requires n <= |interfaces|
  {
    forall j :: 0 <= j < n ==> interfaces[j] in vtables && Covers(table, vtables[interfaces[j]])
  }

  lemma AllStillCovered(a: Table, b: Table, interfaces: seq<Id>, n: nat, vtables: map<Id, Table>)
    requires n <= |interfaces| && AllCovered(a, interfaces, n, vtables) && KeepsSlots(a, b)
    ensures AllCovered(b, interfaces, n, vtables)
  {
    hide KeepsSlots, Covers;
    forall j | 0 <= j < n ensures Covers(b, vtables[interfaces[j]]) {
      StillCovers(a, b, vtables[interfaces[j]]);
    }
  }

  /** Tables are added, never changed. */
  ghost predicate Grown(t: Tables, t1: Tables) {
    (forall c :: c in t.vtables ==> c in t1.vtables && t1.vtables[c] == t.vtables[c]) &&
    (forall c :: c in t.itables ==> c in t1.itables && t1.itables[c] == t.itables[c])
  }

  lemma KeepsSelf(t: Table)
    ensures KeepsSlots(t, t)
  {
  }

  lemma KeepsOn(a: Table, b: Table, c: Table)
    requires KeepsSlots(a, b) && KeepsSlots(b, c)
    ensures KeepsSlots(a, c)
  {
  }

  lemma OneMissing(table: Table, t: Table, other: Table, j: nat)
    requires Extends(table, t, other) && j < |other| && !HasSignature(t, other[j].signature)
    ensures Extends(table, t + [other[j]], other)
  {
    hide HasSignature;
    var t1 := t + [other[j]];
    assert t1[..|table|] == t[..|table|];
    forall k | |table| <= k < |t1| ensures t1[k] in other && !HasSignature(t1[..k], t1[k].signature) {
      assert t1[..k] == t[..k];
      assert t[..|t|] == t;
    }
  }

  lemma OneMoreCovered(a: Table, b: Table, ms: seq<Method>, j: nat, k: nat)
    requires j < |ms| && k <= |a| && b == (if k < |a| then a[k := ms[j]] else a + [ms[j]]) && Covers(a, ms[..j])
    requires k < |a| ==> a[k].signature == ms[j].signature
    ensures KeepsSlots(a, b) && Covers(b, ms[..j + 1])
  {
    StillCovers(a, b, ms[..j]);
    assert b[k].signature == ms[j].signature;
    assert ms[..j + 1] == ms[..j] + [ms[j]];
  }

  lemma StillCovers(a: Table, b: Table, ms: seq<Method>)
    requires KeepsSlots(a, b) && Covers(a, ms)
    ensures Covers(b, ms)
  {
    forall j | 0 <= j < |ms| ensures HasSignature(b, ms[j].signature) {
      assert HasSignature(a, ms[j].signature);
      var k :| 0 <= k < |a| && a[k].signature == ms[j].signature;
      assert b[k].signature == ms[j].signature;
    }
  }

  lemma KeptIsCovered(a: Table, b: Table)
    requires KeepsSlots(a, b)
    ensures Covers(b, a)
  {
    forall j | 0 <= j < |a| ensures HasSignature(b, a[j].signature) {
      assert b[j].signature == a[j].signature;
    }
  }

  /** More errors take nothing away from what was built. */
  lemma StillBuiltAll(h: Classes, rank: map<Id, nat>, t: Tables, calculated: set<Id>, errors: seq<Error>, errors1: seq<Error>)
    requires Proper(h, rank) && errors <= errors1 && forall c :: c in calculated ==> Built(h, rank, t, errors, c)
    ensures forall c :: c in calculated ==> Built(h, rank, t, errors1, c)
  {
    forall c | c in calculated ensures Built(h, rank, t, errors1, c) { LessClean(h, rank, t, errors, errors1, c); }
  }

  lemma LessClean(h: Classes, rank: map<Id, nat>, t: Tables, errors: seq<Error>, errors1: seq<Error>, c: Id)
    requires Proper(h, rank) && Built(h, rank, t, errors, c) && errors <= errors1
    ensures Built(h, rank, t, errors1, c)
  {
    hide WellFormed, Acyclic, Dispatches, OverridesPlaced, OverridesFound, BuiltInterface, KeepsSlots, IsInterfaceOf, Composed;
  }

  /** What was built stays built when tables are added. */
  lemma StillBuilt(h: Classes, rank: map<Id, nat>, t: Tables, t1: Tables, errors: seq<Error>, c: Id)
    requires Proper(h, rank) && Built(h, rank, t, errors, c) && Grown(t, t1)
    ensures Built(h, rank, t1, errors, c)
  {
    hide WellFormed, Acyclic, Dispatches, OverridesPlaced, OverridesFound, Covers, KeepsSlots, IsInterfaceOf, Composed, Needs;
  }

  lemma OneReport(errors: seq<Error>, e: Error, c: Id)
    ensures Clean(errors + [e], c) <==> Clean(errors, c) && !Blames(e, c)
  {
    assert e in errors + [e];
    assert forall x :: x in errors + [e] <==> x in errors || x == e;
  }

  lemma ReportReal(h: Classes, rank: map<Id, nat>, t: Tables, errors: seq<Error>, e: Error)
    requires Proper(h, rank) && AllReal(h, rank, t, errors) && Real(h, rank, t, e)
    ensures AllReal(h, rank, t, errors + [e])
  {
    hide Real;
  }

  lemma MissingIsReal(h: Classes, rank: map<Id, nat>, t: Tables, errors: seq<Error>, c: Id, i: Id, j: nat)
    requires Proper(h, rank) && AllReal(h, rank, t, errors) && IsConcrete(h, c) && IsInterfaceOf(h, rank, c, i) && i in t.vtables && j < |t.vtables[i]|
    requires Nearest(h, rank, c, t.vtables[i][j].signature).None?
    ensures AllReal(h, rank, t, errors + [NotImplemented(c, t.vtables[i][j].signature)])
  {
    hide WellFormed, Acyclic, Nearest, IsInterfaceOf, AllReal;
    var s := t.vtables[i][j].signature;
    assert HasSignature(t.vtables[i], s);
    assert Asked(h, rank, t, c, s);
    ReportReal(h, rank, t, errors, NotImplemented(c, s));
  }

  /** Reports stay true when tables are added. */
  lemma StillReal(h: Classes, rank: map<Id, nat>, t: Tables, t1: Tables, errors: seq<Error>)
    requires Proper(h, rank) && AllReal(h, rank, t, errors) && Grown(t, t1)
    ensures AllReal(h, rank, t1, errors)
  {
    hide WellFormed, Acyclic, Nearest, IsInterfaceOf;
    forall e | e in errors ensures Real(h, rank, t1, e) {
      assert Real(h, rank, t, e);
      if e.NotImplemented? {
        var i :| IsInterfaceOf(h, rank, e.c, i) && i in t.vtables && HasSignature(t.vtables[i], e.signature);
        assert i in t1.vtables && HasSignature(t1.vtables[i], e.signature);
      }
    }
  }

  lemma InterfaceBuilt(h: Classes, rank: map<Id, nat>, t: Tables, calculated: set<Id>, errors: seq<Error>, i: Id, table: Table)
    requires Proper(h, rank) && (forall c :: c in calculated ==> Built(h, rank, t, errors, c)) && i !in t.vtables && i in h && h[i].isInterface
    requires h[i].base.Some? ==> h[i].base.value in t.vtables && KeepsSlots(t.vtables[h[i].base.value], table)
    requires Covers(table, h[i].methods) && AllNeeded(h, rank, i, table)
    requires forall j :: 0 <= j < |h[i].interfaces| ==> h[i].interfaces[j] in t.vtables && Covers(table, t.vtables[h[i].interfaces[j]])
    ensures forall c :: c in calculated + {i} ==> Built(h, rank, t.(vtables := t.vtables[i := table]), errors, c)
  {
    hide WellFormed, Acyclic, Dispatches, OverridesPlaced, OverridesFound, Covers, KeepsSlots, IsInterfaceOf, BuiltClass, Needs;
    var t1 := t.(vtables := t.vtables[i := table]);
    forall c | c in calculated ensures Built(h, rank, t1, errors, c) {
      StillBuilt(h, rank, t, t1, errors, c);
    }
    assert BuiltInterface(h, rank, t1, i);
  }

  // ------------------------------------------------------------------ supporting facts

  lemma DistinctSignatures(h: Classes, c: Id, k: nat)
    requires WellFormed(h) && c in h && k < |h[c].methods|
    ensures forall j :: 0 <= j < k ==> h[c].methods[j].signature != h[c].methods[k].signature
  {
    assert WellFormedClass(h, c);
  }

  lemma ReplacedKeepsFirst(t: Table, k: nat, n: Method, m: Method)
    requires k < |t| && t[k].signature == n.signature && n.signature != m.signature && PlacedFirst(t, m)
    ensures PlacedFirst(t[k := n], m)
  {
    var i :| 0 <= i < |t| && IsFirst(t, m.signature, i) && t[i] == m;
    assert IsFirst(t[k := n], m.signature, i);
  }

  lemma AppendedKeepsFirst(t: Table, n: Method, m: Method)
    requires PlacedFirst(t, m)
    ensures PlacedFirst(t + [n], m)
  {
    var i :| 0 <= i < |t| && IsFirst(t, m.signature, i) && t[i] == m;
    assert IsFirst(t + [n], m.signature, i);
  }

  ghost predicate ParentsIn(h: Classes, x: Id, visited: set<Id>, all: seq<Id>) {
    x in h && forall d :: IsParent(h, x, d) ==> d in visited && d in h && (h[d].isInterface ==> d in all)
  }

  lemma CollectedAreBelow(h: Classes, rank: map<Id, nat>, c: Id, d: Id)
    requires Proper(h, rank) && c in h && d in h && IsParent(h, c, d) && rank[d] < rank[c]
    ensures h[d].isInterface ==> d != c && IsInterfaceOf(h, rank, c, d)
    ensures forall i :: IsInterfaceOf(h, rank, d, i) ==> i != c && IsInterfaceOf(h, rank, c, i)
  {
    hide WellFormed, Acyclic, Below;
    BelowSelf(h, rank, d);
    BelowParent(h, rank, c, d, d);
    forall i | IsInterfaceOf(h, rank, d, i) ensures i != c && IsInterfaceOf(h, rank, c, i) {
      BelowParent(h, rank, c, d, i);
      BelowRanks(h, rank, d, i);
    }
  }

  lemma {:induction false} BelowRanks(h: Classes, rank: map<Id, nat>, c: Id, t: Id)
    requires Proper(h, rank) && c in h && Below(h, rank, c, t)
    ensures t in h && (t == c || rank[t] < rank[c])
    decreases rank[c]
  {
    if c != t {
      var d :| IsParent(h, c, d) && Below(h, rank, d, t);
      BelowRanks(h, rank, d, t);
    }
  }

  lemma OwnParentsIn(h: Classes, rank: map<Id, nat>, c: Id, visited: set<Id>, all: seq<Id>)
    requires Proper(h, rank) && c in h
    requires forall j :: 0 <= j < |h[c].interfaces| ==> h[c].interfaces[j] in visited && h[c].interfaces[j] in all
    requires h[c].base.Some? ==> h[c].base.value in visited && (h[c].isInterface ==> h[c].base.value in all)
    ensures ParentsIn(h, c, visited, all)
  {
    assert WellFormedClass(h, c);
  }

  lemma {:induction false} ReachedAll(h: Classes, rank: map<Id, nat>, visited: set<Id>, all: seq<Id>, c: Id, i: Id)
    requires Proper(h, rank) && c in h && c in visited && i in h && h[i].isInterface && Below(h, rank, c, i)
    requires forall x :: x in visited ==> ParentsIn(h, x, visited, all)
    ensures i == c || i in all
    decreases rank[c]
  {
    if c != i {
      var d :| IsParent(h, c, d) && Below(h, rank, d, i);
      assert ParentsIn(h, c, visited, all);
      ReachedAll(h, rank, visited, all, d, i);
    }
  }

  /** Slots that lead to the nearest implementation still do. */
  ghost predicate KeepsPromises(h: Classes, rank: map<Id, nat>, c: Id, t: Table, t1: Table)
    requires Proper(h, rank) && c in h
  {
    forall slot, s :: LeadsTo(h, rank, c, t, slot, s) ==> LeadsTo(h, rank, c, t1, slot, s)
  }

  lemma ReplacedKeepsPromises(h: Classes, rank: map<Id, nat>, c: Id, t: Table, k: nat, m: Method)
    requires Proper(h, rank) && c in h && Nearest(h, rank, c, m.signature) == Some(m) && OverridesPlaced(h, c, t)
    requires k < |t| && IsFirst(t, m.signature, k) && m !in t
    ensures KeepsSlots(t, t[k := m]) && OverridesPlaced(h, c, t[k := m]) && KeepsPromises(h, rank, c, t, t[k := m])
  {
    hide WellFormed, Acyclic, Nearest, Below;
    forall slot, s | LeadsTo(h, rank, c, t, slot, s) ensures LeadsTo(h, rank, c, t[k := m], slot, s) {
      if Nearest(h, rank, c, s).Some? { NearestFacts(h, rank, c, s); }
      assert 0 <= slot < |t| ==> t[slot] in t;
    }
    forall n | n in h[c].methods && n.isOverride && !IsAbstract(h, n) ensures PlacedFirst(t[k := m], n) {
      assert PlacedFirst(t, n);
      OwnIsNearest(h, rank, c, n);
      ReplacedKeepsFirst(t, k, m, n);
    }
  }

  /** A class's own concrete method is the nearest of its signature. */
  lemma OwnIsNearest(h: Classes, rank: map<Id, nat>, c: Id, n: Method)
    requires Proper(h, rank) && c in h && n in h[c].methods && !IsAbstract(h, n)
    ensures Nearest(h, rank, c, n.signature) == Some(n)
  {
    hide Acyclic, Below;
    FirstConcreteFacts(h, h[c].methods, n.signature);
    assert WellFormedClass(h, c);
  }

  lemma AppendedKeepsPromises(h: Classes, rank: map<Id, nat>, c: Id, t: Table, m: Method)
    requires Proper(h, rank) && c in h && Nearest(h, rank, c, m.signature) == Some(m) && OverridesPlaced(h, c, t)
    ensures KeepsSlots(t, t + [m]) && OverridesPlaced(h, c, t + [m]) && KeepsPromises(h, rank, c, t, t + [m])
    ensures LeadsTo(h, rank, c, t + [m], |t|, m.signature)
  {
    hide WellFormed, Acyclic, Nearest, Below;
    forall n | n in h[c].methods && n.isOverride && !IsAbstract(h, n) ensures PlacedFirst(t + [m], n) {
      AppendedKeepsFirst(t, m, n);
    }
  }

  lemma NoImplementation(h: Classes, rank: map<Id, nat>, c: Id, t: Table, s: Signature)
    requires Proper(h, rank) && c in h && Nearest(h, rank, c, s).None?
    ensures LeadsTo(h, rank, c, t, -1, s)
  {
  }

  lemma ImplementationFacts(h: Classes, rank: map<Id, nat>, c: Id, s: Signature)
    requires Proper(h, rank) && c in h && Nearest(h, rank, c, s).Some?
    ensures Nearest(h, rank, c, s).value.signature == s
  {
    hide WellFormed, Acyclic, Nearest, Below;
    NearestFacts(h, rank, c, s);
  }

  lemma GrownKeys(t: Tables, t1: Tables)
    requires Grown(t, t1)
    ensures t.vtables.Keys <= t1.vtables.Keys
  {
  }

  lemma GrownSelf(t: Tables)
    ensures Grown(t, t)
  {
  }

  lemma GrownTransitive(t: Tables, t1: Tables, t2: Tables)
    requires Grown(t, t1) && Grown(t1, t2)
    ensures Grown(t, t2)
  {
  }

  lemma InterfaceRanks(h: Classes, rank: map<Id, nat>, c: Id, i: Id)
    requires Proper(h, rank) && c in h && !h[c].isInterface && IsInterfaceOf(h, rank, c, i)
    ensures i in h && h[i].isInterface && rank[i] < rank[c]
  {
    hide WellFormed, Acyclic, Below;
    BelowRanks(h, rank, c, i);
  }

  /** One interface's entry in the table being filled. */
  ghost predicate EntryOk(h: Classes, rank: map<Id, nat>, c: Id, table: Table, itable: map<Id, seq<int>>, vtables: map<Id, Table>, errors: seq<Error>, i: Id)
    requires Proper(h, rank) && c in h
  {
    i in itable && i in vtables && Dispatches(h, rank, c, table, itable[i], vtables[i]) && (Clean(errors, c) && !h[c].isAbstract ==> -1 !in itable[i])
  }

  lemma NewEntry(h: Classes, rank: map<Id, nat>, c: Id, table: Table, itable: map<Id, seq<int>>, vtables: map<Id, Table>, errors: seq<Error>, i: Id)
    requires Proper(h, rank) && c in h && i in itable && i in vtables && Dispatches(h, rank, c, table, itable[i], vtables[i])
    requires Clean(errors, c) && !h[c].isAbstract ==> -1 !in itable[i]
    ensures EntryOk(h, rank, c, table, itable, vtables, errors, i)
  {
  }

  lemma EntryStays(h: Classes, rank: map<Id, nat>, c: Id, t: Table, t1: Table, itable: map<Id, seq<int>>, itable1: map<Id, seq<int>>,
                   all: Tables, all1: Tables, errors: seq<Error>, errors1: seq<Error>, i: Id)
    requires Proper(h, rank) && c in h && EntryOk(h, rank, c, t, itable, all.vtables, errors, i) && KeepsPromises(h, rank, c, t, t1)
    requires (i in itable ==> i in itable1 && itable1[i] == itable[i]) && Grown(all, all1) && errors <= errors1
    ensures EntryOk(h, rank, c, t1, itable1, all1.vtables, errors1, i)
  {
    hide WellFormed, Acyclic, LeadsTo;
  }

  lemma InheritedTable(h: Classes, rank: map<Id, nat>, t: Tables, errors: seq<Error>, c: Id)
    requires Proper(h, rank) && c in h && !h[c].isInterface && h[c].base.Some? && Built(h, rank, t, errors, h[c].base.value)
    ensures h[c].base.value in t.itables && forall i :: i in t.itables[h[c].base.value] ==> IsInterfaceOf(h, rank, c, i)
  {
    hide WellFormed, Acyclic, Below, Dispatches, OverridesPlaced, OverridesFound, KeepsSlots, BuiltInterface, Composed;
    BaseFacts(h, rank, c);
    CollectedAreBelow(h, rank, c, h[c].base.value);
  }

  lemma SameStart(h: Classes, c: Id, start: Table, t: Tables, t1: Tables)
    requires c in h && Grown(t, t1)
    requires if h[c].base.Some? then h[c].base.value in t.vtables && start == t.vtables[h[c].base.value] else start == []
    ensures Inherited(h, t1, c) == start
  {
  }

  lemma OrphanHere(h: Classes, rank: map<Id, nat>, t: Tables, errors: seq<Error>, c: Id, start: Table)
    requires Proper(h, rank) && c in h && !h[c].isInterface && !OverridesFound(h, c, start)
    requires if h[c].base.Some? then h[c].base.value in t.vtables && start == t.vtables[h[c].base.value] else start == []
    requires t.vtables.Keys <= h.Keys && forall x :: x in t.vtables ==> Built(h, rank, t, errors, x)
    ensures OrphanAbove(h, rank, c)
  {
    hide WellFormed, Acyclic, Built, Slotted;
    var m :| m in h[c].methods && m.isOverride && !HasSignature(start, m.signature);
    if h[c].base.Some? {
      BaseFacts(h, rank, c);
      SlotsByDeclaration(h, rank, t, errors, h[c].base.value, m.signature);
    }
    assert Unfounded(h, rank, c, m.signature);
    assert OnChain(h, rank, c, c) && Orphan(h, rank, c);
  }

  /** In finished tables nothing is orphaned. */
  lemma {:induction false} NoOrphanAbove(h: Classes, rank: map<Id, nat>, t: Tables, errors: seq<Error>, c: Id)
    requires Proper(h, rank) && c in t.vtables && t.vtables.Keys <= h.Keys && forall x :: x in t.vtables ==> Built(h, rank, t, errors, x)
    ensures !OrphanAbove(h, rank, c)
    decreases if c in rank then rank[c] else 0
  {
    hide WellFormed, Acyclic, Orphan, BuiltClass, BuiltInterface, KeepsSlots;
    assert Built(h, rank, t, errors, c);
    NotOrphan(h, rank, t, errors, c);
    if h[c].base.Some? {
      BaseFacts(h, rank, c);
      NoOrphanAbove(h, rank, t, errors, h[c].base.value);
    }
  }

  lemma NotOrphan(h: Classes, rank: map<Id, nat>, t: Tables, errors: seq<Error>, c: Id)
    requires Proper(h, rank) && c in t.vtables && t.vtables.Keys <= h.Keys && forall x :: x in t.vtables ==> Built(h, rank, t, errors, x)
    ensures !Orphan(h, rank, c)
  {
    hide WellFormed, Acyclic, OverridesPlaced, Dispatches, KeepsSlots, BuiltInterface, IsInterfaceOf, Composed, Slotted;
    assert Built(h, rank, t, errors, c);
    if !h[c].isInterface {
      forall m | m in h[c].methods && m.isOverride ensures !Unfounded(h, rank, c, m.signature) {
        assert HasSignature(Inherited(h, t, c), m.signature);
        if h[c].base.Some? {
          BaseFacts(h, rank, c);
          SlotsByDeclaration(h, rank, t, errors, h[c].base.value, m.signature);
        }
      }
    }
  }

  lemma OrphanBelow(h: Classes, rank: map<Id, nat>, c: Id)
    requires Proper(h, rank) && c in h && h[c].base.Some? && OrphanAbove(h, rank, h[c].base.value)
    ensures OrphanAbove(h, rank, c)
  {
    hide Orphan;
    var d :| OnChain(h, rank, h[c].base.value, d) && Orphan(h, rank, d);
    assert OnChain(h, rank, c, d);
  }

  lemma StartIsBase(h: Classes, c: Id, start: Table, t: Tables, t1: Tables)
    requires c in h && Grown(t, t1) && (h[c].base.Some? ==> h[c].base.value in t.vtables && start == t.vtables[h[c].base.value])
    ensures h[c].base.Some? ==> h[c].base.value in t1.vtables && start == t1.vtables[h[c].base.value]
  {
  }

  lemma ClassBuilt(h: Classes, rank: map<Id, nat>, t: Tables, t1: Tables, calculated: set<Id>, errors: seq<Error>, errors1: seq<Error>, c: Id, table: Table, itable: map<Id, seq<int>>)
    requires Proper(h, rank) && (forall d :: d in calculated ==> Built(h, rank, t, errors, d)) && errors <= errors1 && c !in t.vtables
    requires c in h && !h[c].isInterface && t1 == Tables(t.vtables[c := table], t.itables[c := itable]) && c !in calculated && calculated == t.vtables.Keys
    requires h[c].base.Some? ==> h[c].base.value in t.vtables && KeepsSlots(t.vtables[h[c].base.value], table)
    requires OverridesPlaced(h, c, table) && OverridesFound(h, c, Inherited(h, t, c)) && h[c].base != Some(c)
    requires Composed(h, rank, c, Inherited(h, t, c), table)
    requires forall i :: i in itable <==> IsInterfaceOf(h, rank, c, i)
    requires forall i :: i in itable ==> EntryOk(h, rank, c, table, itable, t.vtables, errors, i)
    requires Clean(errors1, c) && !h[c].isAbstract ==> forall m :: m in table ==> !IsAbstract(h, m)
    ensures forall d :: d in calculated + {c} ==> Built(h, rank, t1, errors1, d)
  {
    hide WellFormed, Acyclic, Dispatches, OverridesPlaced, OverridesFound, KeepsSlots, IsInterfaceOf, Composed;
    forall d | d in calculated ensures Built(h, rank, t1, errors1, d) {
      AddedClass(h, rank, t, t1, errors, d, c, table, itable);
      LessClean(h, rank, t1, errors, errors1, d);
    }
    assert BuiltClass(h, rank, t1, errors1, c) by { NewClass(h, rank, t, t1, errors, errors1, c, table, itable); }
  }

  lemma NewClass(h: Classes, rank: map<Id, nat>, t: Tables, t1: Tables, errors: seq<Error>, errors1: seq<Error>, c: Id, table: Table, itable: map<Id, seq<int>>)
    requires Proper(h, rank) && errors <= errors1 && c in h && t1 == Tables(t.vtables[c := table], t.itables[c := itable]) && c !in t.vtables
    requires OverridesPlaced(h, c, table) && OverridesFound(h, c, Inherited(h, t, c)) && h[c].base != Some(c)
    requires Composed(h, rank, c, Inherited(h, t, c), table)
    requires forall i :: i in itable <==> IsInterfaceOf(h, rank, c, i)
    requires forall i :: i in itable ==> EntryOk(h, rank, c, table, itable, t.vtables, errors, i)
    requires Clean(errors1, c) && !h[c].isAbstract ==> forall m :: m in table ==> !IsAbstract(h, m)
    ensures BuiltClass(h, rank, t1, errors1, c)
  {
    hide WellFormed, Acyclic, Dispatches, OverridesPlaced, IsInterfaceOf, Composed;
  }

  lemma AddedClass(h: Classes, rank: map<Id, nat>, t: Tables, t1: Tables, errors: seq<Error>, d: Id, c: Id, table: Table, itable: map<Id, seq<int>>)
    requires Proper(h, rank) && Built(h, rank, t, errors, d) && d != c && c !in t.vtables
    requires t1 == Tables(t.vtables[c := table], t.itables[c := itable])
    ensures Built(h, rank, t1, errors, d)
  {
    hide WellFormed, Acyclic, Dispatches, OverridesPlaced, OverridesFound, KeepsSlots, IsInterfaceOf, Covers, Composed, Needs;
  }

  // -------------------------------------------------------- which signatures get slots

  /** All in the table is declared by an interface above c. */
  ghost predicate AllNeeded(h: Classes, rank: map<Id, nat>, c: Id, t: Table)
    requires Proper(h, rank) && c in h
  {
    forall k :: 0 <= k < |t| ==> Needs(h, rank, c, t[k].signature)
  }

  lemma NoneNeeded(h: Classes, rank: map<Id, nat>, c: Id)
    requires Proper(h, rank) && c in h
    ensures AllNeeded(h, rank, c, [])
  {
  }

  lemma ParentNeeded(h: Classes, rank: map<Id, nat>, t: Tables, errors: seq<Error>, i: Id, d: Id)
    requires Proper(h, rank) && i in h && IsParent(h, i, d) && Built(h, rank, t, errors, d) && h[d].isInterface
    ensures AllNeeded(h, rank, i, t.vtables[d])
  {
    hide WellFormed, Acyclic, Needs, KeepsSlots, Covers, BuiltClass;
    BelowSelf(h, rank, d);
    BelowParent(h, rank, i, d, d);
    InterfaceNeeded(h, rank, t, errors, i, d);
  }

  lemma InterfaceNeeded(h: Classes, rank: map<Id, nat>, t: Tables, errors: seq<Error>, c: Id, i: Id)
    requires Proper(h, rank) && c in h && Built(h, rank, t, errors, i) && h[i].isInterface && IsInterfaceOf(h, rank, c, i)
    ensures AllNeeded(h, rank, c, t.vtables[i])
  {
    hide WellFormed, Acyclic, Needs, KeepsSlots, Covers, BuiltClass, Below;
    forall k | 0 <= k < |t.vtables[i]| ensures Needs(h, rank, c, t.vtables[i][k].signature) {
      assert HasSignature(t.vtables[i], t.vtables[i][k].signature);
      NeedsOn(h, rank, c, i, t.vtables[i][k].signature);
    }
  }

  lemma MergedNeeded(h: Classes, rank: map<Id, nat>, c: Id, table: Table, t: Table, other: Table)
    requires Proper(h, rank) && c in h && AllNeeded(h, rank, c, table) && AllNeeded(h, rank, c, other) && Extends(table, t, other)
    ensures AllNeeded(h, rank, c, t)
  {
    hide WellFormed, Acyclic, Needs, HasSignature;
    forall k | 0 <= k < |t| ensures Needs(h, rank, c, t[k].signature) {
      if k < |table| { assert t[k] == t[..|table|][k] == table[k]; } else { assert t[k] in other; }
    }
  }

  lemma OwnNeeded(h: Classes, rank: map<Id, nat>, i: Id, table: Table, t: Table)
    requires Proper(h, rank) && i in h && h[i].isInterface && AllNeeded(h, rank, i, table)
    requires forall k :: 0 <= k < |t| ==> t[k] in h[i].methods || (k < |table| && t[k] == table[k])
    ensures AllNeeded(h, rank, i, t)
  {
    hide WellFormed, Acyclic, Below;
    BelowSelf(h, rank, i);
    forall k | 0 <= k < |t| ensures Needs(h, rank, i, t[k].signature) {
      if t[k] in h[i].methods { assert IsInterfaceOf(h, rank, i, i); }
    }
  }

  // ------------------------------------------------------------- where own methods go

  /** The table with the first n own methods in place. */
  ghost predicate OwnSoFar(h: Classes, c: Id, start: Table, t: Table, n: nat)
    requires c in h
  {
    n <= |h[c].methods| && KeepsSlots(start, t) && OverriddenBy(start, t, h[c].methods, n) && NewPlaced(start, t, h[c].methods, n) &&
    OverridesOk(start, t, h[c].methods, h, n)
  }

  /** The first n own overrides have found a slot. */
  ghost predicate OverridesOk(start: Table, t: Table, own: seq<Method>, h: Classes, n: nat)
    requires n <= |own|
  {
    forall i :: 0 <= i < n && own[i].isOverride ==>
      HasSignature(start, own[i].signature) && (!IsAbstract(h, own[i]) ==> PlacedFirst(t, own[i]))
  }

  /** The inherited slots. */
  ghost predicate OverriddenBy(start: Table, t: Table, own: seq<Method>, n: nat)
    requires n <= |own|
  {
    |start| <= |t| && forall k :: 0 <= k < |start| ==>
      (t[k] in own[..n] && t[k].isOverride && IsFirst(start, t[k].signature, k)) ||
      (t[k] == start[k] && forall m :: m in own[..n] && m.isOverride ==> !IsFirst(start, m.signature, k))
  }

  /** The new slots, in the order of their methods. */
  ghost predicate NewPlaced(start: Table, t: Table, own: seq<Method>, n: nat)
    requires n <= |own|
  {
    |start| <= |t| && (forall k :: |start| <= k < |t| ==> t[k] in own[..n] && TakesSlot(t[k])) &&
    (forall j, k :: |start| <= j < k < |t| ==> t[j].index < t[k].index) &&
    forall m :: m in own[..n] && TakesSlot(m) ==> HasFrom(t, |start|, m)
  }

  lemma NothingPlaced(h: Classes, c: Id, start: Table)
    requires c in h
    ensures OwnSoFar(h, c, start, start, 0)
  {
  }

  lemma NothingToOverride(h: Classes, c: Id, start: Table, t: Table, n: nat)
    requires c in h && OwnSoFar(h, c, start, t, n) && n < |h[c].methods| && h[c].methods[n].isOverride && !HasSignature(t, h[c].methods[n].signature)
    ensures !OverridesFound(h, c, start)
  {
    hide OverriddenBy, NewPlaced, OverridesOk;
    var m := h[c].methods[n];
    forall k | 0 <= k < |start| ensures start[k].signature != m.signature { assert t[k].signature != m.signature; }
  }

  lemma OneOverride(h: Classes, c: Id, start: Table, t: Table, k: nat, n: nat)
    requires WellFormed(h) && c in h && OwnSoFar(h, c, start, t, n) && n < |h[c].methods| && h[c].methods[n].isOverride
    requires k < |t| && IsFirst(t, h[c].methods[n].signature, k)
    ensures OwnSoFar(h, c, start, t[k := h[c].methods[n]], n + 1)
  {
    hide WellFormed, OverriddenBy, NewPlaced, OverridesOk;
    FoundInStart(h, c, n, start, t, k);
    SlotOverridden(h, c, start, t, k, n);
    NewStays(h, c, start, t, k, n);
    OverridesStay(h, c, start, t, k, n);
  }

  /** The slot of an override is an inherited one. */
  lemma FoundInStart(h: Classes, c: Id, n: nat, start: Table, t: Table, k: nat)
    requires WellFormed(h) && c in h && n < |h[c].methods| && KeepsSlots(start, t) && k < |t| && IsFirst(t, h[c].methods[n].signature, k)
    requires NewPlaced(start, t, h[c].methods, n)
    ensures k < |start| && IsFirst(start, h[c].methods[n].signature, k)
  {
    hide WellFormed;
    DistinctSignatures(h, c, n);
    var m := h[c].methods[n];
    forall i | |start| <= i < |t| ensures t[i].signature != m.signature {
      assert t[i] in h[c].methods[..n];
      var j :| 0 <= j < n && h[c].methods[..n][j] == t[i];
    }
    forall j | 0 <= j < k && j < |start| ensures start[j].signature != m.signature { assert t[j].signature == start[j].signature; }
  }

  lemma SlotOverridden(h: Classes, c: Id, start: Table, t: Table, k: nat, n: nat)
    requires WellFormed(h) && c in h && n < |h[c].methods| && h[c].methods[n].isOverride && k < |start| <= |t|
    requires OverriddenBy(start, t, h[c].methods, n) && IsFirst(start, h[c].methods[n].signature, k)
    ensures OverriddenBy(start, t[k := h[c].methods[n]], h[c].methods, n + 1)
  {
    hide WellFormed;
    var own, m := h[c].methods, h[c].methods[n];
    assert own[..n + 1] == own[..n] + [m];
    DistinctSignatures(h, c, n);
  }

  lemma NewStays(h: Classes, c: Id, start: Table, t: Table, k: nat, n: nat)
    requires c in h && n < |h[c].methods| && h[c].methods[n].isOverride && k < |start| && NewPlaced(start, t, h[c].methods, n)
    ensures NewPlaced(start, t[k := h[c].methods[n]], h[c].methods, n + 1)
  {
    var own, m := h[c].methods, h[c].methods[n];
    var t1 := t[k := m];
    assert own[..n + 1] == own[..n] + [m];
    forall x | x in own[..n + 1] && TakesSlot(x) ensures HasFrom(t1, |start|, x) {
      assert HasFrom(t, |start|, x);
      var i :| |start| <= i < |t| && t[i] == x;
      assert t1[i] == x;
    }
  }

  lemma OverridesStay(h: Classes, c: Id, start: Table, t: Table, k: nat, n: nat)
    requires WellFormed(h) && c in h && n < |h[c].methods| && h[c].methods[n].isOverride && k < |start| <= |t| && OverridesOk(start, t, h[c].methods, h, n)
    requires IsFirst(t, h[c].methods[n].signature, k) && IsFirst(start, h[c].methods[n].signature, k)
    ensures OverridesOk(start, t[k := h[c].methods[n]], h[c].methods, h, n + 1)
  {
    hide WellFormed;
    var own, m := h[c].methods, h[c].methods[n];
    var t1 := t[k := m];
    DistinctSignatures(h, c, n);
    assert IsFirst(t1, m.signature, k) && t1[k] == m;
    forall i | 0 <= i < n && PlacedFirst(t, own[i]) ensures PlacedFirst(t1, own[i]) { ReplacedKeepsFirst(t, k, m, own[i]); }
  }

  lemma OneNew(h: Classes, c: Id, start: Table, t: Table, n: nat)
    requires WellFormed(h) && c in h && OwnSoFar(h, c, start, t, n) && n < |h[c].methods| && TakesSlot(h[c].methods[n])
    ensures OwnSoFar(h, c, start, t + [h[c].methods[n]], n + 1)
  {
    hide WellFormed, NewPlaced, PlacedFirst;
    var own, m := h[c].methods, h[c].methods[n];
    assert own[..n + 1] == own[..n] + [m];
    NewAppended(h, c, start, t, n);
    forall i | 0 <= i < n && PlacedFirst(t, own[i]) ensures PlacedFirst(t + [m], own[i]) { AppendedKeepsFirst(t, m, own[i]); }
  }

  lemma NewAppended(h: Classes, c: Id, start: Table, t: Table, n: nat)
    requires WellFormed(h) && c in h && n < |h[c].methods| && TakesSlot(h[c].methods[n]) && NewPlaced(start, t, h[c].methods, n)
    ensures NewPlaced(start, t + [h[c].methods[n]], h[c].methods, n + 1)
  {
    var own, m := h[c].methods, h[c].methods[n];
    var t1 := t + [m];
    assert own[..n + 1] == own[..n] + [m];
    assert WellFormedClass(h, c);
    hide WellFormed;
    forall k | |start| <= k < |t| ensures t[k].index < m.index {
      var i :| 0 <= i < n && own[..n][i] == t[k];
      assert own[i].index == i;
    }
    forall x | x in own[..n + 1] && TakesSlot(x) ensures HasFrom(t1, |start|, x) {
      if x == m { assert t1[|t|] == m; } else { OneStillThere(t, m, |start|, x); }
    }
  }

  lemma OneStillThere(t: Table, m: Method, from: nat, x: Method)
    requires HasFrom(t, from, x)
    ensures HasFrom(t + [m], from, x)
  {
    var i :| from <= i < |t| && t[i] == x;
    assert (t + [m])[i] == x;
  }

  lemma NoSlot(h: Classes, c: Id, start: Table, t: Table, n: nat)
    requires c in h && OwnSoFar(h, c, start, t, n) && n < |h[c].methods| && !h[c].methods[n].isOverride && !TakesSlot(h[c].methods[n])
    ensures OwnSoFar(h, c, start, t, n + 1)
  {
    var own := h[c].methods;
    assert own[..n + 1] == own[..n] + [own[n]];
  }

  lemma AllOwnPlaced(h: Classes, c: Id, start: Table, t: Table)
    requires c in h && OwnSoFar(h, c, start, t, |h[c].methods|)
    ensures KeepsSlots(start, t) && OwnPlaced(h, c, start, t) && OverridesPlaced(h, c, t) && OverridesFound(h, c, start)
  {
    hide HasSignature, PlacedFirst, HasFrom;
    var own := h[c].methods;
    assert own[..|own|] == own;
    forall m | m in own && m.isOverride ensures HasSignature(start, m.signature) && (!IsAbstract(h, m) ==> PlacedFirst(t, m)) {
      var i :| 0 <= i < |own| && own[i] == m;
    }
  }

  // -------------------------------------------------------------- interface promotions

  lemma PromotedSelf(h: Classes, rank: map<Id, nat>, c: Id, t: Table)
    requires Proper(h, rank) && c in h
    ensures Promoted(h, rank, c, t, t)
  {
  }

  lemma PromotedHere(h: Classes, rank: map<Id, nat>, c: Id, t: Table, k: nat, m: Method)
    requires Proper(h, rank) && c in h && IsPromotion(h, rank, c, m) && k < |t| && t[k].signature == m.signature
    ensures Promoted(h, rank, c, t, t[k := m])
  {
    hide IsPromotion;
  }

  lemma PromotedBehind(h: Classes, rank: map<Id, nat>, c: Id, t: Table, m: Method)
    requires Proper(h, rank) && c in h && IsPromotion(h, rank, c, m) && !HasSignature(t, m.signature)
    ensures Promoted(h, rank, c, t, t + [m])
  {
    hide IsPromotion;
    assert (t + [m])[..|t|] == t;
  }

  lemma PromotedOn(h: Classes, rank: map<Id, nat>, c: Id, t: Table, t1: Table, t2: Table)
    requires Proper(h, rank) && c in h && Promoted(h, rank, c, t, t1) && Promoted(h, rank, c, t1, t2)
    ensures Promoted(h, rank, c, t, t2)
  {
    hide IsPromotion;
    forall k | |t| <= k < |t2| ensures IsPromotion(h, rank, c, t2[k]) && !HasSignature(t2[..k], t2[k].signature) {
      if k < |t1| { SameSignatures(t1, t2, k, t1[k].signature); }
    }
  }

  lemma SameSignatures(t: Table, t1: Table, k: nat, s: Signature)
    requires k <= |t| <= |t1| && (forall i :: 0 <= i < |t| ==> t1[i].signature == t[i].signature) && !HasSignature(t[..k], s)
    ensures !HasSignature(t1[..k], s)
  {
    forall i | 0 <= i < k ensures t1[..k][i].signature != s { assert t[..k][i].signature != s; }
  }

  lemma OnTop(h: Classes, rank: map<Id, nat>, c: Id, start: Table, placed: Table, t: Table)
    requires Proper(h, rank) && c in h && OwnPlaced(h, c, start, placed) && Promoted(h, rank, c, placed, t)
    ensures Composed(h, rank, c, start, t)
  {
  }
}
