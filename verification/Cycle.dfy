/** Cycle detection over a wait relation: `findCycle` and `reconstructCycle`.

The source sorts names and successors first. Sorting only picks which cycle is
reported, so the search below takes both lists in whatever order they come and the
results hold for every order. */
module Cycles {
  import opened Options
  import opened Sets
  import opened Names

  type Waits = map<Name, seq<Name>>

  /** `u` waits for `v`, both inside the given names. */
  predicate Edge(names: set<Name>, waits: Waits, u: Name, v: Name) {
    u in names && v in names && u in waits && v in waits[u]
  }

  ghost predicate Walk(names: set<Name>, waits: Waits, p: seq<Name>) {
    forall i :: 0 <= i < |p| - 1 ==> Edge(names, waits, p[i], p[i + 1])
  }

  ghost predicate ClosedWalk(names: set<Name>, waits: Waits, p: seq<Name>) {
    |p| >= 2 && p[0] == p[|p| - 1] && Walk(names, waits, p)
  }

  ghost predicate Acyclic(names: set<Name>, waits: Waits) {
    forall p :: !ClosedWalk(names, waits, p)
  }

  /** Every wait of a listed name comes earlier in the list. */
  ghost predicate Downward(names: set<Name>, waits: Waits, order: seq<Name>) {
    && NoDuplicates(order)
    && forall i, v :: 0 <= i < |order| && Edge(names, waits, order[i], v) ==> v in order[..i]
  }

  /** A linear extension of the wait relation: the witness of acyclicity. */
  ghost predicate Linear(names: set<Name>, waits: Waits, order: seq<Name>) {
    Downward(names, waits, order) && Elements(order) == names
  }

  ghost function Position(order: seq<Name>, x: Name): (i: nat)
    requires x in order
    ensures i < |order| && order[i] == x
  {
    var i: nat :| i < |order| && order[i] == x; i
  }

  /** Along a walk the position falls by at least one at every step. */
  lemma {:induction false} WalkDescends(names: set<Name>, waits: Waits, order: seq<Name>, p: seq<Name>, n: nat)
    requires Linear(names, waits, order) && Walk(names, waits, p)
    requires n < |p| && (forall i :: 0 <= i < |p| ==> p[i] in names)
    ensures forall i :: 0 <= i < |p| ==> p[i] in order
    ensures Position(order, p[n]) <= Position(order, p[0]) - n
  {
    forall i | 0 <= i < |p| ensures p[i] in order {
      assert p[i] in Elements(order);
    }
    if n > 0 {
      WalkDescends(names, waits, order, p, n - 1);
      var k := Position(order, p[n - 1]);
      assert Edge(names, waits, p[n - 1], p[n - 1 + 1]);
      assert p[n] in order[..k];
      var j :| 0 <= j < k && order[j] == p[n];
      assert Position(order, p[n]) == j;
    }
  }

  lemma {:induction false} LinearIsAcyclic(names: set<Name>, waits: Waits, order: seq<Name>)
    requires Linear(names, waits, order)
    ensures Acyclic(names, waits)
  {
    forall p ensures !ClosedWalk(names, waits, p) {
      if ClosedWalk(names, waits, p) {
        forall i | 0 <= i < |p| ensures p[i] in names {
          if i < |p| - 1 {
            assert Edge(names, waits, p[i], p[i + 1]);
          } else {
            assert Edge(names, waits, p[0], p[0 + 1]);
          }
        }
        WalkDescends(names, waits, order, p, |p| - 1);
      }
    }
  }

  datatype Color = Gray | Black // absent from the map: white

  /** The search state: `path` is the gray stack, `done` the black nodes in finishing order. */
  ghost predicate Searching(names: set<Name>, waits: Waits, color: map<Name, Color>, parent: map<Name, Name>,
                            path: seq<Name>, done: seq<Name>)
  {
    && color.Keys <= names
    && (forall x :: x in path <==> x in color && color[x] == Gray)
    && (forall x :: x in done <==> x in color && color[x] == Black)
    && Stack(names, waits, parent, path)
    && Downward(names, waits, done)
  }

  /** Consecutive stack entries are wait edges recorded in `parent`. */
  ghost predicate Stack(names: set<Name>, waits: Waits, parent: map<Name, Name>, path: seq<Name>) {
    && NoDuplicates(path)
    && Walk(names, waits, path)
    && forall i :: 0 < i < |path| ==> path[i] in parent && parent[path[i]] == path[i - 1]
  }

  /** `reconstructCycle`: both fallback results are unreachable, so the path is the
      stack segment from `v` up to `u`, closed by `v`. */
  method ReconstructCycle(parent: map<Name, Name>, u: Name, v: Name, ghost names: set<Name>, ghost waits: Waits,
                          ghost path: seq<Name>, ghost at: nat)
    returns (cycle: seq<Name>)
    requires NONAME !in names && Stack(names, waits, parent, path)
    requires forall x :: x in path ==> x in names
    requires at < |path| && path[at] == v && path[|path| - 1] == u
    ensures cycle == path[at..] + [v]
  {
    if u == v {
      assert at == |path| - 1;
      return [v, v];
    }
    var stack: seq<Name> := [];
    var x := u;
    ghost var k := |path| - 1;
    while x != v
      invariant at <= k < |path| && x == path[k]
      invariant |stack| == |path| - 1 - k
      invariant forall i :: 0 <= i < |stack| ==> stack[i] == path[|path| - 1 - i]
      decreases k
    {
      assert x in path;
      if x == NONAME {
        assert false;
        return [v, u, v];
      }
      stack := stack + [x];
      StackFits(names, waits, parent, path, at, stack);
      if |stack| > |parent| + 1 {
        assert false;
        return [v, u, v];
      }
      x := if x in parent then parent[x] else NONAME;
      k := k - 1;
    }
    cycle := [v];
    for i := |stack| downto 0
      invariant cycle == path[at..|path| - i]
    {
      cycle := cycle + [stack[i]];
    }
    cycle := cycle + [v];
  }

  lemma {:induction false} StackFits(names: set<Name>, waits: Waits, parent: map<Name, Name>, path: seq<Name>, at: nat, stack: seq<Name>)
    requires Stack(names, waits, parent, path) && at < |path|
    requires |stack| <= |path| - 1 - at
    requires forall i :: 0 <= i < |stack| ==> stack[i] == path[|path| - 1 - i]
    ensures |stack| <= |parent|
  {
    DistinctFit(stack, parent.Keys);
  }

  lemma {:induction false} CloseWalk(names: set<Name>, waits: Waits, parent: map<Name, Name>, path: seq<Name>, at: nat)
    requires Stack(names, waits, parent, path) && at < |path|
    requires Edge(names, waits, path[|path| - 1], path[at])
    ensures ClosedWalk(names, waits, path[at..] + [path[at]])
  {
    var p := path[at..] + [path[at]];
    forall i | 0 <= i < |p| - 1 ensures Edge(names, waits, p[i], p[i + 1]) {
      if i < |p| - 2 {
        assert p[i] == path[at + i] && p[i + 1] == path[at + i + 1];
      }
    }
  }

  /** The body of the depth-first search: color, scan the successors, finish. */
  method Visit(u: Name, names: set<Name>, waits: Waits, color0: map<Name, Color>, parent0: map<Name, Name>,
               ghost path: seq<Name>, ghost done0: seq<Name>)
    returns (cycle: Option<seq<Name>>, color: map<Name, Color>, parent: map<Name, Name>, ghost done: seq<Name>)
    requires NONAME !in names && u in names && u !in color0
    requires Searching(names, waits, color0, parent0, path, done0)
    requires Stack(names, waits, parent0, path + [u])
    ensures cycle.Some? ==> ClosedWalk(names, waits, cycle.value)
    ensures cycle.None? ==> Searching(names, waits, color, parent, path, done)
    ensures cycle.None? ==> done0 <= done && u in done && color0.Keys <= color.Keys
    decreases |names - color0.Keys|, 0
  {
    EnterNode(names, waits, color0, parent0, path, done0, u);
    var succ := if u in waits then waits[u] else [];
    WhiteShrinks(names, color0.Keys, color0.Keys + {u}, u);
    cycle, color, parent, done := VisitAll(u, succ, names, waits, color0[u := Gray], parent0, path + [u], done0);
    if cycle.None? {
      LeaveNode(names, waits, color, parent, path, done, u, succ);
      color := color[u := Black];
      done := done + [u];
    }
  }

  method VisitAll(u: Name, succ: seq<Name>, names: set<Name>, waits: Waits, color0: map<Name, Color>,
                  parent0: map<Name, Name>, ghost path: seq<Name>, ghost done0: seq<Name>)
    returns (cycle: Option<seq<Name>>, color: map<Name, Color>, parent: map<Name, Name>, ghost done: seq<Name>)
    requires NONAME !in names && u in names && path != [] && path[|path| - 1] == u
    requires succ == if u in waits then waits[u] else []
    requires Searching(names, waits, color0, parent0, path, done0)
    ensures cycle.Some? ==> ClosedWalk(names, waits, cycle.value)
    ensures cycle.None? ==> Searching(names, waits, color, parent, path, done)
    ensures cycle.None? ==> done0 <= done && color0.Keys <= color.Keys && AllDone(names, succ, done)
    decreases |names - color0.Keys|, 1
  {
    color, parent, done := color0, parent0, done0;
    for k := 0 to |succ|
      invariant Searching(names, waits, color, parent, path, done)
      invariant done0 <= done && color0.Keys <= color.Keys
      invariant AllDone(names, succ[..k], done)
    {
      var v := succ[k];
      AllDoneStep(names, succ, k, done);
      if v !in names { continue; }
      if v in color && color[v] == Gray {
        cycle := CloseCycle(u, v, names, waits, parent, path);
        return;
      } else if v !in color {
        DescendTo(names, waits, color, parent, path, done, u, v);
        SubsetSize(names - color.Keys, names - color0.Keys);
        ghost var before := done;
        cycle, color, parent, done := Visit(v, names, waits, color, parent[v := u], path, done);
        if cycle.Some? { return; }
        AllDoneMono(names, succ[..k], before, done);
        AllDoneStep(names, succ, k, done);
      }
    }
    assert succ[..|succ|] == succ;
    cycle := None;
  }

  method CloseCycle(u: Name, v: Name, names: set<Name>, waits: Waits, parent: map<Name, Name>, ghost path: seq<Name>)
    returns (cycle: Option<seq<Name>>)
    requires NONAME !in names && Edge(names, waits, u, v) && Stack(names, waits, parent, path)
    requires (forall x :: x in path ==> x in names) && v in path && path[|path| - 1] == u
    ensures cycle.Some? && ClosedWalk(names, waits, cycle.value)
  {
    ghost var at := Position(path, v);
    var found := ReconstructCycle(parent, u, v, names, waits, path, at);
    CloseWalk(names, waits, parent, path, at);
    cycle := Some(found);
  }

  ghost predicate AllDone(names: set<Name>, succ: seq<Name>, done: seq<Name>) {
    forall v :: v in succ && v in names ==> v in done
  }

  lemma {:induction false} AllDoneStep(names: set<Name>, succ: seq<Name>, k: nat, done: seq<Name>)
    requires k < |succ| && AllDone(names, succ[..k], done)
    ensures succ[k] !in names || succ[k] in done ==> AllDone(names, succ[..k + 1], done)
  {
    assert succ[..k + 1] == succ[..k] + [succ[k]];
  }

  lemma {:induction false} AllDoneMono(names: set<Name>, succ: seq<Name>, before: seq<Name>, done: seq<Name>)
    requires AllDone(names, succ, before) && before <= done
    ensures AllDone(names, succ, done)
  {
    forall v | v in succ && v in names ensures v in done {
      assert v in before;
    }
  }

  lemma {:induction false} EnterNode(names: set<Name>, waits: Waits, color: map<Name, Color>, parent: map<Name, Name>,
                  path: seq<Name>, done: seq<Name>, u: Name)
    requires Searching(names, waits, color, parent, path, done)
    requires u in names && u !in color && Stack(names, waits, parent, path + [u])
    ensures Searching(names, waits, color[u := Gray], parent, path + [u], done)
  {}

  lemma {:induction false} DescendTo(names: set<Name>, waits: Waits, color: map<Name, Color>, parent: map<Name, Name>,
                  path: seq<Name>, done: seq<Name>, u: Name, v: Name)
    requires Searching(names, waits, color, parent, path, done)
    requires path != [] && path[|path| - 1] == u && v !in color && Edge(names, waits, u, v)
    ensures Searching(names, waits, color, parent[v := u], path, done)
    ensures Stack(names, waits, parent[v := u], path + [v])
  {
    assert v !in path;
    assert forall i :: 0 <= i < |path| ==> path[i] != v;
    var more := path + [v];
    forall i | 0 <= i < |more| - 1 ensures Edge(names, waits, more[i], more[i + 1]) {
      if i < |path| - 1 {
        assert more[i] == path[i] && more[i + 1] == path[i + 1];
      }
    }
  }

  lemma {:induction false} LeaveNode(names: set<Name>, waits: Waits, color: map<Name, Color>, parent: map<Name, Name>,
                  path: seq<Name>, done: seq<Name>, u: Name, succ: seq<Name>)
    requires Searching(names, waits, color, parent, path + [u], done)
    requires succ == (if u in waits then waits[u] else []) && AllDone(names, succ, done)
    ensures Searching(names, waits, color[u := Black], parent, path, done + [u])
  {
    var full := path + [u];
    assert u in full && full[|path|] == u;
    assert u !in done;
    assert forall i :: 0 <= i < |path| ==> full[i] == path[i];
    assert u !in path;
    assert Walk(names, waits, path) by {
      forall i | 0 <= i < |path| - 1 ensures Edge(names, waits, path[i], path[i + 1]) {
        assert full[i] == path[i] && full[i + 1] == path[i + 1];
      }
    }
    FinishNode(names, waits, done, u, succ);
  }

  lemma {:induction false} WhiteShrinks(names: set<Name>, old_: set<Name>, new_: set<Name>, u: Name)
    requires u in names && u !in old_ && old_ + {u} <= new_
    ensures |names - new_| < |names - old_|
  {
    assert names - new_ <= (names - old_) - {u};
    SubsetSize(names - new_, (names - old_) - {u});
  }

  lemma {:induction false} FinishNode(names: set<Name>, waits: Waits, done: seq<Name>, u: Name, succ: seq<Name>)
    requires Downward(names, waits, done) && u !in done
    requires succ == if u in waits then waits[u] else []
    requires AllDone(names, succ, done)
    ensures Downward(names, waits, done + [u])
  {
    var more := done + [u];
    forall i, v | 0 <= i < |more| && Edge(names, waits, more[i], v) ensures v in more[..i] {
      if i < |done| {
        assert more[i] == done[i] && more[..i] == done[..i];
      } else {
        assert more[..i] == done;
      }
    }
  }

  /** `findCycle`: nil exactly when the relation restricted to `names` has no closed
      walk; otherwise the reported path is such a walk. The ghost result is a linear
      extension, which the executors use to show that no run gets stuck. */
  method FindCycle(names: seq<Name>, waits: Waits) returns (cycle: Option<seq<Name>>, ghost order: seq<Name>)
    requires NONAME !in names
    ensures cycle.None? <==> Acyclic(Elements(names), waits)
    ensures cycle.Some? ==> ClosedWalk(Elements(names), waits, cycle.value)
    ensures cycle.None? ==> Linear(Elements(names), waits, order)
  {
    var within := Elements(names);
    var color: map<Name, Color> := map[];
    var parent: map<Name, Name> := map[];
    order := [];
    for k := 0 to |names|
      invariant Searching(within, waits, color, parent, [], order)
      invariant forall i :: 0 <= i < k ==> names[i] in order
    {
      if names[k] !in color {
        ghost var before := order;
        cycle, color, parent, order := Visit(names[k], within, waits, color, parent, [], order);
        if cycle.Some? { return; }
        assert forall i :: 0 <= i < k ==> names[i] in before;
      }
    }
    cycle := None;
    assert Elements(order) == within;
    LinearIsAcyclic(within, waits, order);
  }
}
