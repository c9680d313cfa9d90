/** The two indexes of the free blocks: by address, and sorted by size with equal
    sizes in order of insertion. */
module FreeIndex {

  datatype Entry = Entry(payload: nat, header: nat)

  predicate Sorted(s: seq<Entry>) {
    forall i, j :: 0 <= i < j < |s| ==> s[i].payload <= s[j].payload
  }

  /** Both indexes hold the same blocks. */
  predicate Agrees(m: map<nat, nat>, s: seq<Entry>) {
    Sorted(s) &&
    (forall i :: 0 <= i < |s| ==> s[i].header in m && m[s[i].header] == s[i].payload) &&
    (forall i, j :: 0 <= i < j < |s| ==> s[i].header != s[j].header) &&
    (forall a :: a in m ==> Entry(m[a], a) in s)
  }

  predicate Ascending(s: seq<nat>) {
    forall i, j :: 0 <= i < j < |s| ==> s[i] < s[j]
  }

  function Inserted(s: seq<Entry>, i: nat, e: Entry): seq<Entry>
    requires i <= |s|
  {
    s[..i] + [e] + s[i..]
  }

  function Removed(s: seq<Entry>, i: nat): seq<Entry>
    requires i < |s|
  {
    s[..i] + s[i + 1..]
  }

  lemma InsertedAgrees(m: map<nat, nat>, s: seq<Entry>, i: nat, e: Entry)
    requires Agrees(m, s) && e.header !in m && i <= |s|
    requires forall k :: 0 <= k < i ==> s[k].payload <= e.payload
    requires forall k :: i <= k < |s| ==> s[k].payload >= e.payload
    ensures Agrees(m[e.header := e.payload], Inserted(s, i, e))
  {
    var s1, m1 := Inserted(s, i, e), m[e.header := e.payload];
    forall a | a in m1 ensures Entry(m1[a], a) in s1 {
      if a == e.header {
        assert s1[i] == e;
      } else {
        var k :| 0 <= k < |s| && s[k] == Entry(m[a], a);
        assert s1[if k < i then k else k + 1] == s[k];
      }
    }
  }

  lemma AgreesAt(m: map<nat, nat>, s: seq<Entry>, i: nat)
    requires Agrees(m, s) && i < |s|
    ensures s[i].header in m && m[s[i].header] == s[i].payload
  {
  }

  lemma RemovedAgrees(m: map<nat, nat>, s: seq<Entry>, i: nat)
    requires Agrees(m, s) && i < |s|
    ensures Agrees(m - {s[i].header}, Removed(s, i))
  {
    hide Agrees;
    var s1, m1 := Removed(s, i), m - {s[i].header};
    forall j, k | 0 <= j < k < |s1| ensures s1[j].payload <= s1[k].payload && s1[j].header != s1[k].header {
      AgreesPair(m, s, if j < i then j else j + 1, if k < i then k else k + 1);
    }
    forall k | 0 <= k < |s1| ensures s1[k].header in m1 && m1[s1[k].header] == s1[k].payload {
      var k0 := if k < i then k else k + 1;
      AgreesAt(m, s, k0);
      AgreesPair(m, s, if k0 < i then k0 else i, if k0 < i then i else k0);
    }
    forall a | a in m1 ensures Entry(m1[a], a) in s1 {
      var k := AgreesIndex(m, s, a);
      assert s1[if k < i then k else k - 1] == s[k];
    }
    AgreesBy(m1, s1);
  }

  lemma AgreesPair(m: map<nat, nat>, s: seq<Entry>, j: nat, k: nat)
    requires Agrees(m, s) && j < k < |s|
    ensures s[j].payload <= s[k].payload && s[j].header != s[k].header
  {
  }

  lemma AgreesIndex(m: map<nat, nat>, s: seq<Entry>, a: nat) returns (k: nat)
    requires Agrees(m, s) && a in m
    ensures k < |s| && s[k] == Entry(m[a], a)
  {
    assert Entry(m[a], a) in s;
    k :| k < |s| && s[k] == Entry(m[a], a);
  }

  lemma AgreesBy(m: map<nat, nat>, s: seq<Entry>)
    requires forall j, k :: 0 <= j < k < |s| ==> s[j].payload <= s[k].payload && s[j].header != s[k].header
    requires forall k :: 0 <= k < |s| ==> s[k].header in m && m[s[k].header] == s[k].payload
    requires forall a :: a in m ==> Entry(m[a], a) in s
    ensures Agrees(m, s)
  {
  }

  /** The smallest member of a set. */
  lemma {:induction false} Least(s: set<nat>) returns (least: nat)
    requires s != {}
    ensures least in s && forall b :: b in s ==> least <= b
  {
    var a :| a in s;
    var below := set x | x in s && x < a;
    assert forall b :: b in s && b < a ==> b in below;
    if below == {} {
      least := a;
    } else {
      assert a !in below && below < s;
      least := Least(below);
    }
  }

  lemma {:induction false} Greatest(s: set<nat>) returns (greatest: nat)
    requires s != {}
    ensures greatest in s && forall b :: b in s ==> b <= greatest
  {
    var a :| a in s;
    var above := set x | x in s && x > a;
    assert forall b :: b in s && b > a ==> b in above;
    if above == {} {
      greatest := a;
    } else {
      assert a !in above && above < s;
      greatest := Greatest(above);
    }
  }
}
