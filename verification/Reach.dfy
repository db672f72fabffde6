/** Reachability along dependency edges, and the depth-first walk that computes it. */
module Reachability {
  import opened Sets
  import opened Names
  import opened Cycles

  type Edges = map<Name, set<Name>>

  ghost predicate Path(e: Edges, p: seq<Name>) {
    && |p| > 0
    && (forall i :: 0 <= i < |p| ==> p[i] in e)
    && (forall i :: 0 <= i < |p| - 1 ==> p[i + 1] in e[p[i]])
  }

  ghost predicate Reach(e: Edges, roots: set<Name>, x: Name) {
    exists p :: Path(e, p) && p[0] in roots && p[|p| - 1] == x
  }

  /** Everything reachable from the roots that are nodes at all. */
  ghost function Closure(e: Edges, roots: set<Name>): set<Name> {
    set x | x in e && Reach(e, roots, x)
  }

  ghost predicate Closed(e: Edges, s: set<Name>) {
    forall x :: x in s ==> x in e && (e[x] * e.Keys) <= s
  }

  lemma {:induction false} RootReached(e: Edges, roots: set<Name>, x: Name)
    requires x in roots && x in e
    ensures Reach(e, roots, x)
  {
    assert Path(e, [x]);
  }

  lemma {:induction false} StepReached(e: Edges, roots: set<Name>, x: Name, y: Name)
    requires Reach(e, roots, x) && x in e && y in e && y in e[x]
    ensures Reach(e, roots, y)
  {
    var p :| Path(e, p) && p[0] in roots && p[|p| - 1] == x;
    var q := p + [y];
    forall i | 0 <= i < |q| - 1 ensures q[i + 1] in e[q[i]] {
      if i < |p| - 1 {
        assert q[i] == p[i] && q[i + 1] == p[i + 1];
      }
    }
    assert Path(e, q) && q[0] in roots && q[|q| - 1] == y;
  }

  lemma {:induction false} PathStaysIn(e: Edges, s: set<Name>, p: seq<Name>, i: nat)
    requires Path(e, p) && Closed(e, s) && p[0] in s && i < |p|
    ensures p[i] in s
  {
    if i > 0 {
      PathStaysIn(e, s, p, i - 1);
      assert p[i - 1 + 1] in e[p[i - 1]];
    }
  }

  /** The closure is the least set that holds the roots and is closed. */
  lemma {:induction false} ClosureIsLeast(e: Edges, roots: set<Name>)
    ensures Closed(e, Closure(e, roots)) && roots * e.Keys <= Closure(e, roots)
    ensures forall s :: Closed(e, s) && roots * e.Keys <= s ==> Closure(e, roots) <= s
  {
    forall x, y | x in Closure(e, roots) && y in e && y in e[x] ensures y in Closure(e, roots) {
      StepReached(e, roots, x, y);
    }
    forall x | x in roots * e.Keys ensures x in Closure(e, roots) {
      RootReached(e, roots, x);
    }
    forall s | Closed(e, s) && roots * e.Keys <= s ensures Closure(e, roots) <= s {
      forall x | x in Closure(e, roots) ensures x in s {
        var p :| Path(e, p) && p[0] in roots && p[|p| - 1] == x;
        PathStaysIn(e, s, p, |p| - 1);
      }
    }
  }

  lemma {:induction false} ClosureUnique(e: Edges, roots: set<Name>, s: set<Name>)
    requires Closed(e, s) && roots * e.Keys <= s && forall x :: x in s ==> Reach(e, roots, x)
    ensures s == Closure(e, roots)
  {
    ClosureIsLeast(e, roots);
  }

  /** Nodes outside `open` have all their successors in `seen`. */
  ghost predicate Explored(e: Edges, seen: set<Name>, open: set<Name>) {
    && seen <= e.Keys
    && forall x :: x in seen && x !in open ==> (e[x] * e.Keys) <= seen
  }

  /** `walk`: marks a node and everything it leads to. `open` are the nodes whose successors
      are still being visited further up the call stack. */
  method Walk(e: Edges, seen0: set<Name>, x: Name, ghost roots: set<Name>, ghost open: set<Name>) returns (seen: set<Name>)
    requires Explored(e, seen0, open) && (forall y :: y in seen0 ==> Reach(e, roots, y))
    requires x in e ==> Reach(e, roots, x)
    ensures Explored(e, seen, open) && (forall y :: y in seen ==> Reach(e, roots, y))
    ensures seen0 <= seen && (x in e ==> x in seen)
    decreases |e.Keys - seen0|
  {
    hide Reach;
    if x in seen0 || x !in e { return seen0; }
    seen := seen0 + {x};
    WhiteShrinks(e.Keys, seen0, seen, x);
    var left := e[x];
    while left != {}
      invariant left <= e[x]
      invariant Explored(e, seen, open + {x}) && (forall y :: y in seen ==> Reach(e, roots, y))
      invariant seen0 + {x} <= seen && (e[x] - left) * e.Keys <= seen
      decreases left
    {
      var y :| y in left;
      left := left - {y};
      if y in e { StepReached(e, roots, x, y); }
      SubsetSize(e.Keys - seen, e.Keys - seen0 - {x});
      seen := Walk(e, seen, y, roots, open + {x});
    }
  }

  method WalkAll(e: Edges, starts: set<Name>, seen0: set<Name>, ghost roots: set<Name>) returns (seen: set<Name>)
    requires Explored(e, seen0, {}) && (forall y :: y in seen0 ==> Reach(e, roots, y))
    requires forall x :: x in starts && x in e ==> Reach(e, roots, x)
    ensures Explored(e, seen, {}) && (forall y :: y in seen ==> Reach(e, roots, y))
    ensures seen0 <= seen && starts * e.Keys <= seen
  {
    hide Reach, Explored;
    seen := seen0;
    var left := starts;
    while left != {}
      invariant left <= starts
      invariant Explored(e, seen, {}) && (forall y :: y in seen ==> Reach(e, roots, y))
      invariant seen0 <= seen && (starts - left) * e.Keys <= seen
      decreases left
    {
      var x :| x in left;
      left := left - {x};
      seen := Walk(e, seen, x, roots, {});
    }
  }
}
