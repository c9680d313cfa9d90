/** What the dependency walk has followed so far, and the order that results. */
module DependencyGraph {

  type Path = string

  type Edges = map<Path, seq<Path>>

  predicate Follows(e: Edges, a: Path, b: Path) {
    a in e && b in e[a]
  }

  predicate IsRoute(e: Edges, p: seq<Path>) {
    p != [] && forall i :: 0 < i < |p| ==> Follows(e, p[i - 1], p[i])
  }

  ghost predicate Reaches(e: Edges, a: Path, b: Path) {
    exists p :: IsRoute(e, p) && p[0] == a && p[|p| - 1] == b
  }

  /** More edges. */
  ghost predicate Extends(e: Edges, e1: Edges) {
    forall a, b :: Follows(e, a, b) ==> Follows(e1, a, b)
  }

  /** b occurs, and before a. */
  predicate Before(s: seq<Path>, b: Path, a: Path) {
    exists i, j :: 0 <= i < j < |s| && s[i] == b && s[j] == a
  }

  predicate Distinct<T(==)>(s: seq<T>) {
    forall i, j :: 0 <= i < j < |s| ==> s[i] != s[j]
  }

  lemma ReachesSelf(e: Edges, a: Path)
    ensures Reaches(e, a, a)
  {
    assert IsRoute(e, [a]);
  }

  lemma StillReaches(e: Edges, e1: Edges, a: Path, b: Path)
    requires Extends(e, e1) && Reaches(e, a, b)
    ensures Reaches(e1, a, b)
  {
    var p :| IsRoute(e, p) && p[0] == a && p[|p| - 1] == b;
    assert IsRoute(e1, p);
  }

  lemma OneMore(e: Edges, a: Path, b: Path, c: Path)
    requires Reaches(e, a, b) && Follows(e, b, c)
    ensures Reaches(e, a, c)
  {
    var p :| IsRoute(e, p) && p[0] == a && p[|p| - 1] == b;
    assert IsRoute(e, p + [c]) by {
      forall i | 0 < i < |p + [c]| ensures Follows(e, (p + [c])[i - 1], (p + [c])[i]) {
        if i < |p| { assert Follows(e, p[i - 1], p[i]); }
      }
    }
  }

  /** The walk: manifests finished, in order, and those being walked, from the root
      to the current one. */
  datatype Walk = Walk(edges: Edges, done: seq<Path>, stack: seq<Path>)

  predicate Seen(w: Walk, x: Path) {
    x in w.done || x in w.stack
  }

  /** Everything seen is reachable; what a finished manifest depends on has been seen,
      and comes earlier unless there is a cycle. */
  ghost predicate Consistent(w: Walk) {
    w.stack != [] && IsRoute(w.edges, w.stack) && Distinct(w.done) && Distinct(w.stack) &&
    (forall x :: x in w.done ==> x !in w.stack && x in w.edges) && (forall x :: x in w.stack ==> x in w.edges) &&
    (forall x :: Seen(w, x) ==> Reaches(w.edges, w.stack[0], x)) &&
    (forall x, y :: x in w.done && Follows(w.edges, x, y) ==> InOrder(w, x, y)) &&
    (forall x, y :: x in w.stack && Follows(w.edges, x, y) ==> Seen(w, y))
  }

  ghost predicate InOrder(w: Walk, x: Path, y: Path) {
    Seen(w, y) && (Before(w.done, y, x) || Reaches(w.edges, y, x))
  }

  function Top(w: Walk): Path
    requires w.stack != []
  {
    w.stack[|w.stack| - 1]
  }

  /** Follow an edge from the current manifest to one already seen. */
  function Noted(w: Walk, y: Path): Walk
    requires w.stack != [] && Top(w) in w.edges
  {
    w.(edges := w.edges[Top(w) := w.edges[Top(w)] + [y]])
  }

  /** Follow an edge to a new manifest and start walking it. */
  function Entered(w: Walk, y: Path): Walk
    requires w.stack != [] && Top(w) in w.edges
  {
    Walk(w.edges[Top(w) := w.edges[Top(w)] + [y]][y := []], w.done, w.stack + [y])
  }

  /** Finish the current manifest. */
  function Left(w: Walk): Walk
    requires w.stack != []
  {
    Walk(w.edges, w.done + [Top(w)], w.stack[..|w.stack| - 1])
  }

  lemma Grows(w: Walk, y: Path)
    requires Consistent(w)
    ensures Top(w) in w.edges && Extends(w.edges, Noted(w, y).edges)
    ensures !Seen(w, y) ==> Extends(w.edges, Entered(w, y).edges) || y in w.edges
  {
    assert Top(w) in w.stack;
  }

  lemma NotedOk(w: Walk, y: Path)
    requires Consistent(w) && Seen(w, y)
    ensures Top(w) in w.edges && Consistent(Noted(w, y))
  {
    Grows(w, y);
    var w1 := Noted(w, y);
    forall x | Seen(w1, x) ensures Reaches(w1.edges, w1.stack[0], x) {
      assert Seen(w, x);
      StillReaches(w.edges, w1.edges, w.stack[0], x);
    }
    forall x, z | x in w1.done && Follows(w1.edges, x, z) ensures InOrder(w1, x, z) {
      OrderStays(w, w1, x, z);
    }
    forall x, z | x in w1.stack && Follows(w1.edges, x, z) ensures Seen(w1, z) {
      assert z == y || Follows(w.edges, x, z);
    }
    assert IsRoute(w1.edges, w1.stack) by {
      forall i | 0 < i < |w.stack| ensures Follows(w1.edges, w.stack[i - 1], w.stack[i]) { assert Follows(w.edges, w.stack[i - 1], w.stack[i]); }
    }
  }

  lemma OrderStays(w: Walk, w1: Walk, x: Path, z: Path)
    requires InOrder(w, x, z) && Extends(w.edges, w1.edges) && w.done <= w1.done && (forall y :: Seen(w, y) ==> Seen(w1, y))
    ensures InOrder(w1, x, z)
  {
    if Reaches(w.edges, z, x) { StillReaches(w.edges, w1.edges, z, x); }
  }

  lemma EnteredOk(w: Walk, y: Path)
    requires Consistent(w) && !Seen(w, y) && y !in w.edges
    ensures w.stack != [] && Top(w) in w.edges && Consistent(Entered(w, y))
  {
    Grows(w, y);
    var w1 := Entered(w, y);
    assert Follows(w1.edges, Top(w), y);
    forall x | Seen(w1, x) ensures Reaches(w1.edges, w1.stack[0], x) {
      assert Seen(w, Top(w)) && (x != y ==> Seen(w, x));
      StillReaches(w.edges, w1.edges, w.stack[0], if x == y then Top(w) else x);
      if x == y { OneMore(w1.edges, w.stack[0], Top(w), y); }
    }
    forall x, z | x in w1.done && Follows(w1.edges, x, z) ensures InOrder(w1, x, z) {
      OrderStays(w, w1, x, z);
    }
    forall x, z | x in w1.stack && Follows(w1.edges, x, z) ensures Seen(w1, z) {
      assert z == y || (x in w.stack && Follows(w.edges, x, z));
    }
    assert IsRoute(w1.edges, w1.stack) by {
      forall i | 0 < i < |w1.stack| ensures Follows(w1.edges, w1.stack[i - 1], w1.stack[i]) {
        if i < |w.stack| { assert Follows(w.edges, w.stack[i - 1], w.stack[i]); }
      }
    }
  }

  /** Everything on the stack reaches its top. */
  lemma StackReaches(w: Walk, k: nat)
    requires IsRoute(w.edges, w.stack) && k < |w.stack|
    ensures Reaches(w.edges, w.stack[k], Top(w))
  {
    var p := w.stack[k..];
    assert IsRoute(w.edges, p) by {
      forall i | 0 < i < |p| ensures Follows(w.edges, p[i - 1], p[i]) { assert Follows(w.edges, w.stack[k + i - 1], w.stack[k + i]); }
    }
  }

  lemma LeftOk(w: Walk)
    requires Consistent(w) && |w.stack| > 1
    ensures Consistent(Left(w))
  {
    var w1 := Left(w);
    var top := Top(w);
    assert top in w.stack;
    forall x | Seen(w1, x) ensures Reaches(w1.edges, w1.stack[0], x) { assert Seen(w, x); }
    forall x, z | x in w1.done && Follows(w1.edges, x, z) ensures InOrder(w1, x, z) {
      if x == top {
        TopInOrder(w, z);
      } else {
        StillSeen(w, z);
        OrderStays(w, w1, x, z);
      }
    }
    forall x, z | x in w1.stack && Follows(w1.edges, x, z) ensures Seen(w1, z) { StillSeen(w, z); }
  }

  lemma StillSeen(w: Walk, z: Path)
    requires w.stack != []
    ensures Seen(w, z) <==> Seen(Left(w), z)
  {
    assert w.stack == w.stack[..|w.stack| - 1] + [Top(w)];
  }

  lemma TopInOrder(w: Walk, z: Path)
    requires Consistent(w) && Follows(w.edges, Top(w), z)
    ensures InOrder(Left(w), Top(w), z)
  {
    StillSeen(w, z);
    assert Seen(w, z);
    if z in w.done {
      var i :| 0 <= i < |w.done| && w.done[i] == z;
      assert (w.done + [Top(w)])[i] == z && (w.done + [Top(w)])[|w.done|] == Top(w);
    } else {
      var k :| 0 <= k < |w.stack| && w.stack[k] == z;
      StackReaches(w, k);
    }
  }

  // ------------------------------------------------------------------------- the result

  ghost predicate Acyclic(e: Edges) {
    forall x, y :: Follows(e, x, y) ==> !Reaches(e, y, x)
  }

  /** When the walk is back at the root, it has finished exactly what the root reaches,
      each once; without cycles dependencies come first. */
  lemma WalkFinished(w: Walk, root: Path)
    requires Consistent(w) && w.stack == [root]
    ensures Distinct(w.done + [root])
    ensures forall x :: x in w.done + [root] <==> Reaches(w.edges, root, x)
    ensures Acyclic(w.edges) ==> forall x, y :: Follows(w.edges, x, y) && x in w.done + [root] ==> Before(w.done + [root], y, x)
  {
    var all := w.done + [root];
    DoneAndRoot(w, root);
    forall x | x in all ensures Reaches(w.edges, root, x) { assert Seen(w, x); }
    forall x | Reaches(w.edges, root, x) ensures x in all {
      var p :| IsRoute(w.edges, p) && p[0] == root && p[|p| - 1] == x;
      RouteSeen(w, p, |p| - 1);
    }
    forall x, y | Acyclic(w.edges) && Follows(w.edges, x, y) && x in all ensures Before(all, y, x) {
      if x == root {
        ReachesSelf(w.edges, root);
        LastIsAfter(w, root, x, y);
      } else {
        assert InOrder(w, x, y);
      }
    }
  }

  lemma DoneAndRoot(w: Walk, root: Path)
    requires Consistent(w) && w.stack == [root]
    ensures Distinct(w.done + [root])
  {
    var all := w.done + [root];
    assert root in w.stack && root !in w.done;
    forall i, j | 0 <= i < j < |all| ensures all[i] != all[j] {
      if j == |w.done| { assert w.done[i] in w.done; }
    }
  }

  lemma LastIsAfter(w: Walk, root: Path, x: Path, y: Path)
    requires Consistent(w) && w.stack == [root] && x == root && Follows(w.edges, x, y) && !Reaches(w.edges, y, x)
    ensures Before(w.done + [root], y, x)
  {
    ReachesSelf(w.edges, root);
    assert Seen(w, y);
    var i :| 0 <= i < |w.done| && w.done[i] == y;
    assert (w.done + [root])[i] == y && (w.done + [root])[|w.done|] == x;
  }

  lemma {:induction false} RouteSeen(w: Walk, p: seq<Path>, k: nat)
    requires Consistent(w) && IsRoute(w.edges, p) && Seen(w, p[0]) && k < |p|
    ensures Seen(w, p[k])
    decreases k
  {
    if k > 0 {
      RouteSeen(w, p, k - 1);
      assert Follows(w.edges, p[k - 1], p[k]);
      if p[k - 1] in w.done { assert InOrder(w, p[k - 1], p[k]); }
    }
  }
}
