/** Planning: `PlanStart`, `PlanStop` and `PlanShutdown`. */
module Plans {
  import opened Sets
  import opened Options
  import opened Names
  import opened Cycles
  import opened Graphs
  import opened Transactions
  import opened Reachability

  /* ---- The edges each plan follows ---- */

  /** Requires=, BindsTo= and Wants= pull their targets into a start. */
  function PullEdges(g: Graph): Edges {
    map n | n in g :: Elements(g[n].requirements) + Elements(g[n].bindsTo) + Elements(g[n].wants)
  }

  /** Stop reaches the loaded units that require, bind to or are part of a member. */
  function RequirerEdges(g: Graph): Edges {
    map n | n in g :: set m | m in g && (n in g[m].requirements || n in g[m].bindsTo || n in g[m].partOf)
  }

  /** Shutdown reaches the loaded units ordered after a root. */
  function LaterEdges(g: Graph): Edges {
    map n | n in g :: set m | m in g && n in g[m].waitsFor
  }

  /* ---- Start membership: the recursive `add` ---- */

  /** A unit that must be loaded and is not: a root, or a hard requirement of a member. */
  ghost predicate MissingFrom(g: Graph, roots: set<Name>, u: Name, owner: Name) {
    && u !in g
    && if owner == NONAME then u in roots else owner in Closure(PullEdges(g), roots) && StartRequires(g[owner], u)
  }

  ghost predicate SomethingMissing(g: Graph, kind: JobKind, roots: set<Name>) {
    exists u, owner :: MissingFrom(g, roots, u, owner) && (owner == NONAME || kind == JobStart)
  }

  /** Hard requirements of these members are loaded. */
  ghost predicate HardLoaded(g: Graph, members: set<Name>) {
    forall n, u :: n in members && n in g && StartRequires(g[n], u) ==> u in g
  }

  /** Why `add` was called for a name: it is a root, or a member lists it. */
  ghost predicate Justified(g: Graph, roots: set<Name>, name: Name, owner: Name, required: bool) {
    && (name in g ==> Reach(PullEdges(g), roots, name))
    && (required ==> if owner == NONAME then name in roots
                     else owner in Closure(PullEdges(g), roots) && StartRequires(g[owner], name))
  }

  /** The growing job set. */
  ghost predicate Collecting(g: Graph, kind: JobKind, roots: set<Name>, jobs: set<Name>, open: set<Name>) {
    && Explored(PullEdges(g), jobs, open)
    && (forall x :: x in jobs ==> Reach(PullEdges(g), roots, x))
    && (kind == JobStart ==> HardLoaded(g, jobs - open))
  }

  /** The error `add` reports names a unit that is really missing. */
  ghost predicate Reported(g: Graph, kind: JobKind, roots: set<Name>, err: PlanError) {
    err.MissingUnit? && MissingFrom(g, roots, err.unit_, err.requiredBy) && (err.requiredBy == NONAME || kind == JobStart)
  }

  /** `add`. Roots are checked for emptiness first and stored names are never empty, so the
      empty-name branch of the source cannot be taken. */
  method Add(g: Graph, kind: JobKind, jobs0: set<Name>, name: Name, owner: Name, required: bool,
             ghost roots: set<Name>, ghost open: set<Name>)
    returns (err: Option<PlanError>, jobs: set<Name>)
    requires WellFormed(g) && Collecting(g, kind, roots, jobs0, open)
    requires name != NONAME && Justified(g, roots, name, owner, required)
    ensures err.None? ==> Collecting(g, kind, roots, jobs, open) && jobs0 <= jobs && (name in g ==> name in jobs)
    ensures err.None? && required && (kind == JobStart || owner == NONAME) ==> name in g
    ensures err.Some? ==> Reported(g, kind, roots, err.value)
    decreases |g.Keys - jobs0|, 0
  {
    hide WellFormed, Collecting, Justified, Reported, CanonicalNode;
    if name in jobs0 {
      MembersLoaded(g, kind, roots, jobs0, open);
      return None, jobs0;
    }
    if name !in g {
      if required && (kind == JobStart || owner == NONAME) {
        MissingJustified(g, kind, roots, name, owner);
        return Some(MissingUnit(name, owner)), jobs0;
      }
      return None, jobs0;
    }
    jobs := jobs0 + {name};
    OpenMember(g, kind, roots, jobs0, open, name, owner, required);
    WhiteShrinks(g.Keys, jobs0, jobs, name);
    ghost var more := open + {name};
    err, jobs := AddAll(g, kind, jobs, g[name].requirements, name, true, roots, more);
    if err.Some? { return; }
    SubsetSize(g.Keys - jobs, g.Keys - (jobs0 + {name}));
    err, jobs := AddAll(g, kind, jobs, g[name].bindsTo, name, true, roots, more);
    if err.Some? { return; }
    SubsetSize(g.Keys - jobs, g.Keys - (jobs0 + {name}));
    err, jobs := AddAll(g, kind, jobs, g[name].wants, name, false, roots, more);
    if err.Some? { return; }
    CloseMember(g, kind, roots, jobs, open, name);
  }

  /** One of the three dependency loops inside `add`. */
  method AddAll(g: Graph, kind: JobKind, jobs0: set<Name>, deps: seq<Name>, owner: Name, required: bool,
                ghost roots: set<Name>, ghost open: set<Name>)
    returns (err: Option<PlanError>, jobs: set<Name>)
    requires WellFormed(g) && Collecting(g, kind, roots, jobs0, open) && owner in jobs0 && owner in g && owner != NONAME
    requires deps == if required then deps else g[owner].wants
    requires required ==> deps == g[owner].requirements || deps == g[owner].bindsTo
    ensures err.None? ==> Collecting(g, kind, roots, jobs, open) && jobs0 <= jobs && Elements(deps) * g.Keys <= jobs
    ensures err.None? && required && kind == JobStart ==> Elements(deps) <= g.Keys
    ensures err.Some? ==> Reported(g, kind, roots, err.value)
    decreases |g.Keys - jobs0|, 1
  {
    hide WellFormed, Collecting, Justified, Reported, Normalize;
    jobs := jobs0;
    for i := 0 to |deps|
      invariant Collecting(g, kind, roots, jobs, open) && jobs0 <= jobs
      invariant Elements(deps[..i]) * g.Keys <= jobs
      invariant required && kind == JobStart ==> Elements(deps[..i]) <= g.Keys
    {
      var dep := Normalize(deps[i]);
      DependencyJustified(g, kind, roots, jobs, open, owner, required, deps, i);
      assert deps[..i + 1] == deps[..i] + [dep];
      SubsetSize(g.Keys - jobs, g.Keys - jobs0);
      err, jobs := Add(g, kind, jobs, dep, owner, required, roots, open);
      if err.Some? { return; }
      assert Elements(deps[..i + 1]) == Elements(deps[..i]) + {dep};
    }
    assert deps[..|deps|] == deps;
    err := None;
  }

  lemma {:induction false} MembersLoaded(g: Graph, kind: JobKind, roots: set<Name>, jobs: set<Name>, open: set<Name>)
    requires Collecting(g, kind, roots, jobs, open)
    ensures jobs <= g.Keys
  {}

  lemma {:induction false} MissingJustified(g: Graph, kind: JobKind, roots: set<Name>, name: Name, owner: Name)
    requires name !in g && Justified(g, roots, name, owner, true) && (kind == JobStart || owner == NONAME)
    ensures Reported(g, kind, roots, MissingUnit(name, owner))
  {}

  lemma {:induction false} OpenMember(g: Graph, kind: JobKind, roots: set<Name>, jobs: set<Name>, open: set<Name>, name: Name, owner: Name,
                   required: bool)
    requires WellFormed(g) && Collecting(g, kind, roots, jobs, open) && name in g && Justified(g, roots, name, owner, required)
    ensures Collecting(g, kind, roots, jobs + {name}, open + {name}) && name != NONAME
  {
    hide CanonicalNode, Reach;
    KeyIsCanonical(g, name);
  }

  lemma {:induction false} CloseMember(g: Graph, kind: JobKind, roots: set<Name>, jobs: set<Name>, open: set<Name>, name: Name)
    requires Collecting(g, kind, roots, jobs, open + {name}) && name in g
    requires (Elements(g[name].requirements) + Elements(g[name].bindsTo) + Elements(g[name].wants)) * g.Keys <= jobs
    requires kind == JobStart ==> Elements(g[name].requirements) + Elements(g[name].bindsTo) <= g.Keys
    ensures Collecting(g, kind, roots, jobs, open)
  {
    hide Reach;
    var e := PullEdges(g);
    forall x | x in jobs && x !in open ensures (e[x] * e.Keys) <= jobs {}
    if kind == JobStart {
      forall n, u | n in jobs - open && n in g && StartRequires(g[n], u) ensures u in g {
        if n == name {
          assert u in Elements(g[name].requirements) + Elements(g[name].bindsTo);
        }
      }
    }
  }

  lemma {:induction false} DependencyJustified(g: Graph, kind: JobKind, roots: set<Name>, jobs: set<Name>, open: set<Name>, owner: Name,
                            required: bool, deps: seq<Name>, i: nat)
    requires WellFormed(g) && Collecting(g, kind, roots, jobs, open) && owner in jobs && owner in g && i < |deps|
    requires deps == if required then deps else g[owner].wants
    requires required ==> deps == g[owner].requirements || deps == g[owner].bindsTo
    ensures Normalize(deps[i]) == deps[i] && deps[i] != NONAME && Justified(g, roots, deps[i], owner, required)
  {
    assert CanonicalNode(g[owner]);
    CanonicalElement(deps, deps[i]);
    assert deps[i] in PullEdges(g)[owner];
    if deps[i] in g {
      StepReached(PullEdges(g), roots, owner, deps[i]);
    }
    KeyIsCanonical(g, owner);
  }

  /* ---- Ordering among the jobs ---- */

  /** Start follows the ordering, shutdown reverses it, and a stop also lets dependents go
      before the units they require. */
  datatype Ordering = Forward | Backward | Teardown

  /** `n` must wait for `d`. */
  predicate MustWait(g: Graph, o: Ordering, n: Name, d: Name) {
    && n in g && d in g
    && match o
       case Forward => d in g[n].waitsFor
       case Backward => n in g[d].waitsFor
       case Teardown => n in g[d].waitsFor || StopRequires(g[d], n)
  }

  predicate Lists(w: Waits, n: Name, d: Name) {
    n in w && d in w[n]
  }

  ghost predicate Realizes(g: Graph, o: Ordering, jobs: set<Name>, waits: Waits) {
    && waits.Keys <= jobs
    && (forall n :: n in waits ==> NoDuplicates(waits[n]))
    && forall n, d :: Lists(waits, n, d) <==> (n in jobs && d in jobs && MustWait(g, o, n, d))
  }

  /** A closed walk among the members whose steps are the constraints of this ordering. */
  ghost predicate Deadlock(g: Graph, o: Ordering, members: set<Name>, p: seq<Name>) {
    && |p| >= 2 && p[0] == p[|p| - 1]
    && forall i :: 0 <= i < |p| - 1 ==> Holds(g, o, members, p[i], p[i + 1])
  }

  /** Member `n` has to wait for member `d`. */
  ghost predicate Holds(g: Graph, o: Ordering, members: set<Name>, n: Name, d: Name) {
    n in members && d in members && MustWait(g, o, n, d)
  }

  /** The loops of `reverseWaits` and `reverseRequirementWaits`: each member is appended to
      the row of every planned name it lists, then duplicates are removed. */
  method Invert(g: Graph, jobs: set<Name>, rows: map<Name, seq<Name>>) returns (out: Waits)
    requires WellFormed(g) && jobs <= g.Keys && rows.Keys == g.Keys
    ensures out.Keys <= jobs && (forall p :: p in out ==> NoDuplicates(out[p]))
    ensures forall p, x :: Lists(out, p, x) <==> (p in jobs && x in jobs && p in rows[x])
  {
    hide WellFormed;
    out := map[];
    var left := jobs;
    while left != {}
      invariant left <= jobs && out.Keys <= jobs
      invariant forall p, x :: Lists(out, p, x) <==> (p in jobs && x in jobs - left && p in rows[x])
      decreases left
    {
      var name :| name in left;
      out := AppendTo(jobs, rows, out, left, name);
      left := left - {name};
    }
    out := Dedupe(g, out);
  }

  method AppendTo(jobs: set<Name>, rows: map<Name, seq<Name>>, out0: Waits, ghost left: set<Name>, name: Name)
    returns (out: Waits)
    requires jobs <= rows.Keys && name in left && left <= jobs && out0.Keys <= jobs
    requires forall p, x :: Lists(out0, p, x) <==> (p in jobs && x in jobs - left && p in rows[x])
    ensures out.Keys <= jobs
    ensures forall p, x :: Lists(out, p, x) <==> (p in jobs && x in jobs - (left - {name}) && p in rows[x])
  {
    out := out0;
    var row := rows[name];
    for k := 0 to |row|
      invariant out.Keys <= jobs
      invariant forall p, x :: Lists(out, p, x) <==>
          (p in jobs && ((x in jobs - left && p in rows[x]) || (x == name && p in row[..k])))
    {
      assert row[..k + 1] == row[..k] + [row[k]];
      if row[k] !in jobs { continue; }
      var so := if row[k] in out then out[row[k]] else [];
      out := out[row[k] := so + [name]];
    }
    assert row[..|row|] == row;
  }

  /** `uniqueStable` on every row. */
  method Dedupe(g: Graph, rows: Waits) returns (out: Waits)
    requires WellFormed(g) && forall p, x :: Lists(rows, p, x) ==> x in g
    ensures out.Keys == rows.Keys
    ensures forall p :: p in out ==> NoDuplicates(out[p]) && forall x :: x in out[p] <==> x in rows[p]
  {
    hide WellFormed, CanonicalList, NoDuplicates;
    ghost var ks := KeyList(g);
    out := map[];
    var left := rows.Keys;
    while left != {}
      invariant left <= rows.Keys && out.Keys == rows.Keys - left
      invariant forall p :: p in out ==> NoDuplicates(out[p]) && forall x :: x in out[p] <==> x in rows[p]
      decreases left
    {
      var p :| p in left;
      assert forall x :: x in rows[p] ==> Lists(rows, p, x);
      assert forall x :: x in rows[p] ==> x in Elements(ks);
      var row := FilterAgain(ks, rows[p]);
      out := out[p := row];
      left := left - {p};
    }
  }

  /** `mergeWaits`. */
  method Merge(g: Graph, a: Waits, b: Waits) returns (out: Waits)
    requires WellFormed(g)
    requires forall p, x :: Lists(a, p, x) ==> x in g
    requires forall p, x :: Lists(b, p, x) ==> x in g
    ensures out.Keys == a.Keys + b.Keys
    ensures forall p :: p in out ==> NoDuplicates(out[p])
    ensures forall p, x :: Lists(out, p, x) <==> Lists(a, p, x) || Lists(b, p, x)
  {
    hide WellFormed;
    var joined := map p | p in a.Keys + b.Keys :: (if p in a then a[p] else []) + (if p in b then b[p] else []);
    assert forall p, x :: Lists(joined, p, x) <==> Lists(a, p, x) || Lists(b, p, x);
    out := Dedupe(g, joined);
    assert forall p, x :: Lists(out, p, x) <==> Lists(joined, p, x);
  }

  ghost function KeyList(g: Graph): (ks: seq<Name>)
    requires WellFormed(g)
    ensures CanonicalList(ks) && Elements(ks) == g.Keys
  {
    var ks :| CanonicalList(ks) && Elements(ks) == g.Keys; ks
  }

  lemma {:induction false} DepNamesAgree(g: Graph)
    requires WellFormed(g)
    ensures forall n, x :: n in g ==> (x in StopDepNames(g[n]) <==> StopRequires(g[n], x))
  {
    hide CanonicalNode, StopDepNames, StopRequires, CanonicalKeys, OrderedAfter, NoDuplicates;
    forall n | n in g ensures forall x :: x in StopDepNames(g[n]) <==> StopRequires(g[n], x) {
      RequireNamesAgree(g[n]);
    }
  }

  method ForwardWaits(g: Graph, jobs: set<Name>) returns (waits: Waits)
    requires WellFormed(g) && jobs <= g.Keys
    ensures Realizes(g, Forward, jobs, waits)
  {
    hide WellFormed, CanonicalList, NoDuplicates;
    ghost var ks := KeyList(g);
    waits := map[];
    var left := jobs;
    while left != {}
      invariant left <= jobs && waits.Keys == jobs - left
      invariant forall n :: n in waits ==> NoDuplicates(waits[n]) && forall d :: d in waits[n] <==> d in jobs && d in g[n].waitsFor
      decreases left
    {
      var n :| n in left;
      var kept := KeepLoaded(g[n].waitsFor, jobs);
      assert forall x :: x in kept ==> x in Elements(ks);
      var row := FilterAgain(ks, kept);
      waits := waits[n := row];
      left := left - {n};
    }
  }

  method BackwardWaits(g: Graph, jobs: set<Name>) returns (waits: Waits)
    requires WellFormed(g) && jobs <= g.Keys
    ensures Realizes(g, Backward, jobs, waits)
  {
    hide WellFormed;
    waits := Invert(g, jobs, OrderWaits(g));
  }

  method TeardownWaits(g: Graph, jobs: set<Name>) returns (waits: Waits)
    requires WellFormed(g) && jobs <= g.Keys
    ensures Realizes(g, Teardown, jobs, waits)
  {
    hide WellFormed, StopDepNames, NoDuplicates, StopRequires;
    DepNamesAgree(g);
    var ordered := Invert(g, jobs, OrderWaits(g));
    var required := Invert(g, jobs, map n | n in g :: StopDepNames(g[n]));
    waits := Merge(g, ordered, required);
  }

  /* ---- The plans ---- */

  /** The normalized root names. */
  ghost function RootSet(names: seq<Name>): set<Name> {
    Elements(NormalizeAll(names))
  }

  /** Where membership starts from: a shutdown also takes everything ordered after a root. */
  ghost function Starts(g: Graph, kind: JobKind, roots: set<Name>): set<Name> {
    if kind == JobStart then roots else Closure(LaterEdges(g), roots)
  }

  /** Start plans contain the pull closure of the roots, shutdown plans that of everything
      ordered after a root. */
  ghost predicate Planned(tx: Transaction, g: Graph, kind: JobKind, roots: set<Name>) {
    && tx.g == g && tx.kind == kind
    && Elements(tx.roots) == roots && NoDuplicates(tx.roots)
    && tx.jobs == Closure(PullEdges(g), Starts(g, kind, roots))
    && Realizes(g, if kind == JobStart then Forward else Backward, tx.jobs, tx.waits)
  }

  /** Root loop of `plan`: normalize, reject empty names, skip repeats, `add` the rest. */
  method AddRoots(g: Graph, kind: JobKind, names: seq<Name>) returns (err: Option<PlanError>, roots: seq<Name>, jobs: set<Name>)
    requires WellFormed(g)
    ensures err.None? ==> NONAME !in RootSet(names) && RootSet(names) <= g.Keys
    ensures err.None? ==> Elements(roots) == RootSet(names) && NoDuplicates(roots)
    ensures err.None? ==> Collecting(g, kind, RootSet(names), jobs, {}) && RootSet(names) <= jobs
    ensures err.Some? ==> (err.value == EmptyUnitName && NONAME in RootSet(names))
                          || Reported(g, kind, RootSet(names), err.value)
  {
    hide WellFormed, Collecting, Reported, Justified, Normalize, NormalizeAll, NoDuplicates;
    ghost var all := RootSet(names);
    NormalizeAllAt(names);
    roots, jobs := [], {};
    EmptyCollection(g, kind, all);
    NoRoots(names);
    for i := 0 to |names|
      invariant Elements(roots) == Elements(NormalizeAll(names)[..i]) && NoDuplicates(roots)
      invariant Elements(roots) <= g.Keys && Elements(roots) <= jobs && NONAME !in Elements(roots)
      invariant Collecting(g, kind, all, jobs, {})
    {
      hide Elements;
      var name := Normalize(names[i]);
      NextRoot(names, i);
      ElementsMeans(roots, name);
      if name == NONAME { return Some(EmptyUnitName), roots, jobs; }
      if name in roots { continue; }
      RootJustified(g, all, name);
      err, jobs := Add(g, kind, jobs, name, NONAME, true, all, {});
      if err.Some? { return; }
      OneMore(roots, name);
      roots := roots + [name];
    }
    assert NormalizeAll(names)[..|names|] == NormalizeAll(names);
    err := None;
  }

  lemma {:induction false} NoRoots(names: seq<Name>)
    ensures Elements<Name>([]) == {} && NoDuplicates<Name>([]) && Elements(NormalizeAll(names)[..0]) == {}
  {}

  lemma {:induction false} NextRoot(names: seq<Name>, i: nat)
    requires i < |names|
    ensures |NormalizeAll(names)| == |names|
    ensures Elements(NormalizeAll(names)[..i + 1]) == Elements(NormalizeAll(names)[..i]) + {Normalize(names[i])}
    ensures Normalize(names[i]) in RootSet(names)
  {
    hide Normalize;
    NormalizeAllAt(names);
    assert NormalizeAll(names)[..i + 1] == NormalizeAll(names)[..i] + [Normalize(names[i])];
  }

  lemma {:induction false} EmptyCollection(g: Graph, kind: JobKind, roots: set<Name>)
    ensures Collecting(g, kind, roots, {}, {})
  {}

  lemma {:induction false} RootJustified(g: Graph, roots: set<Name>, name: Name)
    requires name in roots
    ensures Justified(g, roots, name, NONAME, true)
  {
    if name in g { RootReached(PullEdges(g), roots, name); }
  }

  /** `afterSuccessors`. */
  method Successors(g: Graph, name: Name) returns (out: set<Name>)
    ensures out == set m | m in g && name in g[m].waitsFor
  {
    out := {};
    var left := g.Keys;
    while left != {}
      invariant left <= g.Keys && out == set m | m in g && m !in left && name in g[m].waitsFor
      decreases left
    {
      var other :| other in left;
      left := left - {other};
      if name in g[other].waitsFor { out := out + {other}; }
    }
  }

  /** `reverseRequirersOf`. */
  method Requirers(g: Graph, name: Name) returns (out: set<Name>)
    ensures out == set m | m in g && (name in g[m].requirements || name in g[m].bindsTo || name in g[m].partOf)
  {
    out := {};
    var left := g.Keys;
    while left != {}
      invariant left <= g.Keys
      invariant out == set m | m in g && m !in left && (name in g[m].requirements || name in g[m].bindsTo || name in g[m].partOf)
      decreases left
    {
      var other :| other in left;
      left := left - {other};
      var n := g[other];
      if name in n.requirements || name in n.bindsTo || name in n.partOf { out := out + {other}; }
    }
  }

  /** The edges of a closure walk, for all names at once. */
  method AllEdges(g: Graph, requirers: bool) returns (e: Edges)
    ensures e == if requirers then RequirerEdges(g) else LaterEdges(g)
  {
    e := map[];
    var left := g.Keys;
    while left != {}
      invariant left <= g.Keys && e.Keys == g.Keys - left
      invariant forall n :: n in e ==> e[n] == if requirers then RequirerEdges(g)[n] else LaterEdges(g)[n]
      decreases left
    {
      var n :| n in left;
      left := left - {n};
      var row: set<Name>;
      if requirers { row := Requirers(g, n); } else { row := Successors(g, n); }
      e := e[n := row];
    }
  }

  /** `afterClosure`: everything ordered after a root, transitively. */
  method AfterClosure(g: Graph, roots: set<Name>) returns (later: set<Name>)
    requires roots <= g.Keys
    ensures roots + later == Closure(LaterEdges(g), roots)
  {
    var e := AllEdges(g, false);
    later := {};
    var left := roots;
    while left != {}
      invariant left <= roots
      invariant Explored(e, later, {}) && (forall y :: y in later ==> Reach(e, roots, y))
      invariant forall r :: r in roots - left ==> e[r] * e.Keys <= later
      decreases left
    {
      var r :| r in left;
      left := left - {r};
      forall y | y in e[r] && y in e ensures Reach(e, roots, y) {
        RootReached(e, roots, r);
        StepReached(e, roots, r, y);
      }
      later := WalkAll(e, e[r], later, roots);
    }
    forall x | x in roots + later ensures Reach(e, roots, x) {
      if x in roots { RootReached(e, roots, x); }
    }
    ClosureUnique(e, roots, roots + later);
  }

  /** Adding the later units of a shutdown; none is required, so none can be missing. */
  method AddLater(g: Graph, jobs0: set<Name>, later: set<Name>, ghost roots: set<Name>) returns (jobs: set<Name>)
    requires WellFormed(g) && Collecting(g, JobStop, roots, jobs0, {}) && later <= roots <= g.Keys
    ensures Collecting(g, JobStop, roots, jobs, {}) && jobs0 + later <= jobs
  {
    hide WellFormed, Collecting, Justified;
    jobs := jobs0;
    var left := later;
    while left != {}
      invariant left <= later && jobs0 + (later - left) <= jobs && Collecting(g, JobStop, roots, jobs, {})
      decreases left
    {
      var x :| x in left;
      left := left - {x};
      LaterJustified(g, roots, x);
      var err;
      err, jobs := Add(g, JobStop, jobs, x, NONAME, false, roots, {});
      if err.Some? {
        assert false;
        return jobs0;
      }
    }
  }

  lemma {:induction false} LaterJustified(g: Graph, roots: set<Name>, x: Name)
    requires WellFormed(g) && x in roots && x in g
    ensures x != NONAME && Justified(g, roots, x, NONAME, false)
  {
    KeyIsCanonical(g, x);
    RootReached(PullEdges(g), roots, x);
  }

  lemma {:induction false} CollectingWidens(g: Graph, kind: JobKind, roots: set<Name>, more: set<Name>, jobs: set<Name>)
    requires Collecting(g, kind, roots, jobs, {}) && roots <= more
    ensures Collecting(g, kind, more, jobs, {})
  {
    forall x | x in jobs ensures Reach(PullEdges(g), more, x) {
      var p :| Path(PullEdges(g), p) && p[0] in roots && p[|p| - 1] == x;
      assert Path(PullEdges(g), p) && p[0] in more && p[|p| - 1] == x;
    }
  }

  lemma {:induction false} CollectionIsClosure(g: Graph, kind: JobKind, roots: set<Name>, jobs: set<Name>)
    requires Collecting(g, kind, roots, jobs, {}) && roots * g.Keys <= jobs
    ensures jobs == Closure(PullEdges(g), roots) && jobs <= g.Keys
  {
    ClosureUnique(PullEdges(g), roots, jobs);
  }

  lemma {:induction false} CompletePlanMissesNothing(g: Graph, kind: JobKind, roots: set<Name>, jobs: set<Name>)
    requires WellFormed(g) && Collecting(g, kind, roots, jobs, {}) && roots <= g.Keys && roots <= jobs
    ensures !SomethingMissing(g, kind, roots)
  {
    hide WellFormed;
    CollectionIsClosure(g, kind, roots, jobs);
  }

  /* ---- What a request is about ---- */

  datatype Request = ToStart | ToStop | ToShutdown

  function OrderOf(q: Request): Ordering {
    match q case ToStart => Forward case ToStop => Teardown case ToShutdown => Backward
  }

  /** The members of a stop: every loaded unit with a Requires=, BindsTo= or PartOf= path to
      a root. */
  ghost function StopMembers(g: Graph, roots: set<Name>): set<Name> {
    Closure(RequirerEdges(g), roots)
  }

  ghost function Members(g: Graph, q: Request, roots: set<Name>): set<Name> {
    match q
    case ToStart => Closure(PullEdges(g), roots)
    case ToStop => StopMembers(g, roots)
    case ToShutdown => Closure(PullEdges(g), Closure(LaterEdges(g), roots))
  }

  ghost predicate Missing(g: Graph, q: Request, roots: set<Name>) {
    SomethingMissing(g, KindOf(q), roots)
  }

  /** There are names, none of them empty, nothing needed is missing, and the members do not wait
      for each other in a circle. */
  ghost predicate Plannable(g: Graph, q: Request, names: seq<Name>) {
    && names != [] && NONAME !in RootSet(names) && !Missing(g, q, RootSet(names))
    && forall p :: !Deadlock(g, OrderOf(q), Members(g, q, RootSet(names)), p)
  }

  /** What a refusal means. */
  ghost predicate Refused(g: Graph, q: Request, names: seq<Name>, e: PlanError) {
    match e
    case NoUnits => names == []
    case EmptyUnitName => NONAME in RootSet(names)
    case MissingUnit(_, _) => Reported(g, KindOf(q), RootSet(names), e)
    case EmptyTransaction => false
    case OrderCycle(p) =>
      && NONAME !in RootSet(names) && !Missing(g, q, RootSet(names))
      && Deadlock(g, OrderOf(q), Members(g, q, RootSet(names)), p)
  }

  function KindOf(q: Request): JobKind {
    if q == ToStart then JobStart else JobStop
  }

  /** A request refused for its names. */
  lemma {:induction false} RefusedEarly(g: Graph, q: Request, names: seq<Name>, e: PlanError)
    requires (e == NoUnits && names == []) || (e == EmptyUnitName && NONAME in RootSet(names)) || Reported(g, KindOf(q), RootSet(names), e)
    ensures Refused(g, q, names, e) && !Plannable(g, q, names)
  {}

  /** A request with good names is decided by the waits among its members. */
  lemma {:induction false} DecidedByWaits(g: Graph, q: Request, names: seq<Name>, jobs: set<Name>, waits: Waits)
    requires names != [] && NONAME !in RootSet(names) && !Missing(g, q, RootSet(names))
    requires jobs == Members(g, q, RootSet(names)) && Realizes(g, OrderOf(q), jobs, waits)
    ensures Acyclic(jobs, waits) <==> Plannable(g, q, names)
    ensures forall p :: ClosedWalk(jobs, waits, p) ==> Refused(g, q, names, OrderCycle(p))
  {
    hide Missing, Members, Realizes, ClosedWalk, Deadlock;
    DeadlockIsCycle(g, OrderOf(q), jobs, waits);
  }

  /** `plan`, behind `PlanStart` and `PlanShutdown`. */
  method Plan(g: Graph, kind: JobKind, names: seq<Name>) returns (r: Result<Transaction, PlanError>)
    requires WellFormed(g)
    ensures names == [] <==> r == Failure(NoUnits)
    ensures names != [] && NONAME !in RootSet(names) ==>
        (r.Failure? && r.error.MissingUnit? <==> SomethingMissing(g, kind, RootSet(names)))
    ensures r.Failure? && r.error.MissingUnit? ==> Reported(g, kind, RootSet(names), r.error)
    ensures r.Failure? && r.error.EmptyUnitName? ==> NONAME in RootSet(names)
    ensures r.Failure? ==> r.error != EmptyTransaction
    ensures r.Success? ==> NONAME !in RootSet(names) && Planned(r.value, g, kind, RootSet(names))
    ensures r.Success? ==> Runnable(r.value)
    ensures Acyclic(g.Keys, OrderWaits(g)) ==> !(r.Failure? && r.error.OrderCycle?)
    ensures var q := if kind == JobStart then ToStart else ToShutdown;
      (r.Success? <==> Plannable(g, q, names)) && (r.Failure? ==> Refused(g, q, names, r.error))
  {
    hide WellFormed, Collecting, Realizes, Acyclic, Closure, Reported, SomethingMissing, ClosedWalk, Plannable, Refused;
    ghost var q := if kind == JobStart then ToStart else ToShutdown;
    if names == [] {
      RefusedEarly(g, q, names, NoUnits);
      return Failure(NoUnits);
    }
    ghost var all := RootSet(names);
    var err, roots, jobs := AddRoots(g, kind, names);
    RootsNonEmpty(names);
    if err.Some? {
      ReportedIsMissing(g, kind, all, err.value);
      RefusedEarly(g, q, names, err.value);
      return Failure(err.value);
    }
    CompletePlanMissesNothing(g, kind, all, jobs);
    ghost var from := Starts(g, kind, all);
    if kind == JobStop {
      var later := AfterClosure(g, Elements(roots));
      ClosureLoaded(LaterEdges(g), all);
      CollectingWidens(g, kind, all, from, jobs);
      jobs := AddLater(g, jobs, later, from);
    }
    CollectionIsClosure(g, kind, from, jobs);
    var waits;
    if kind == JobStop {
      waits := BackwardWaits(g, jobs);
    } else {
      waits := ForwardWaits(g, jobs);
    }
    r := Validated(g, kind, if kind == JobStart then Forward else Backward, roots, jobs, waits);
    DecidedByWaits(g, q, names, jobs, waits);
  }

  lemma {:induction false} RootsNonEmpty(names: seq<Name>)
    requires names != []
    ensures RootSet(names) != {}
  {
    NormalizeAllAt(names);
    assert NormalizeAll(names)[0] in RootSet(names);
  }

  lemma {:induction false} ReportedIsMissing(g: Graph, kind: JobKind, roots: set<Name>, err: PlanError)
    ensures Reported(g, kind, roots, err) ==> err.MissingUnit? && SomethingMissing(g, kind, roots)
  {}

  lemma {:induction false} ClosureLoaded(e: Edges, roots: set<Name>)
    ensures Closure(e, roots) <= e.Keys && roots * e.Keys <= Closure(e, roots)
  {
    ClosureIsLeast(e, roots);
  }

  /** Build the transaction and validate it. */
  method Validated(g: Graph, kind: JobKind, ghost o: Ordering, roots: seq<Name>, jobs: set<Name>, waits: Waits)
    returns (r: Result<Transaction, PlanError>)
    requires WellFormed(g) && jobs <= g.Keys && jobs != {} && Realizes(g, o, jobs, waits)
    ensures r.Success? <==> Acyclic(jobs, waits)
    ensures r.Success? ==> r.value == Transaction(g, kind, roots, jobs, waits) && Runnable(r.value)
    ensures r.Failure? ==> r.error.OrderCycle? && ClosedWalk(jobs, waits, r.error.path)
    ensures o != Teardown && Acyclic(g.Keys, OrderWaits(g)) ==> r.Success?
  {
    hide WellFormed, Acyclic, ClosedWalk;
    var tx := Transaction(g, kind, roots, jobs, waits);
    RealizedIsPlanned(tx, o);
    var err, order := Validate(tx);
    if o != Teardown && Acyclic(g.Keys, OrderWaits(g)) {
      SuborderAcyclic(g, o, jobs, waits);
    }
    r := if err.Some? then Failure(err.value) else Success(tx);
  }

  lemma {:induction false} RealizedIsPlanned(tx: Transaction, o: Ordering)
    requires WellFormed(tx.g) && tx.jobs <= tx.g.Keys && Realizes(tx.g, o, tx.jobs, tx.waits)
    ensures WellPlanned(tx)
  {
    hide WellFormed, MustWait;
    forall n, d | n in tx.waits && d in tx.waits[n] ensures d in tx.jobs {
      assert Lists(tx.waits, n, d);
    }
  }

  /** Start plans use a subrelation of the ordering and shutdown plans its converse, so an
      acyclic ordering can never make either report a cycle. */
  lemma {:induction false} SuborderAcyclic(g: Graph, o: Ordering, jobs: set<Name>, waits: Waits)
    requires o != Teardown && Realizes(g, o, jobs, waits) && jobs <= g.Keys && Acyclic(g.Keys, OrderWaits(g))
    ensures Acyclic(jobs, waits)
  {
    forall p ensures !ClosedWalk(jobs, waits, p) {
      if ClosedWalk(jobs, waits, p) {
        var q := OrderingWalk(g, o, jobs, waits, p);
      }
    }
  }

  /** A cycle of waits is, in one direction or the other, a cycle of the ordering. */
  lemma {:induction false} OrderingWalk(g: Graph, o: Ordering, jobs: set<Name>, waits: Waits, p: seq<Name>) returns (q: seq<Name>)
    requires o != Teardown && Realizes(g, o, jobs, waits) && jobs <= g.Keys && ClosedWalk(jobs, waits, p)
    ensures ClosedWalk(g.Keys, OrderWaits(g), q)
  {
    q := if o == Forward then p else Reversed(p);
    forall i | 0 <= i < |q| - 1 ensures Edge(g.Keys, OrderWaits(g), q[i], q[i + 1]) {
      var k := if o == Forward then i else |p| - 2 - i;
      assert Edge(jobs, waits, p[k], p[k + 1]);
      assert Lists(waits, p[k], p[k + 1]);
    }
  }

  function Reversed(p: seq<Name>): (q: seq<Name>)
    ensures |q| == |p| && forall i :: 0 <= i < |p| ==> q[i] == p[|p| - 1 - i]
  {
    seq(|p|, i requires 0 <= i < |p| => p[|p| - 1 - i])
  }

  method PlanStart(g: Graph, names: seq<Name>) returns (r: Result<Transaction, PlanError>)
    requires WellFormed(g)
    ensures names != [] && NONAME !in RootSet(names) ==>
        (r.Failure? && r.error.MissingUnit? <==> SomethingMissing(g, JobStart, RootSet(names)))
    ensures r.Success? ==> Planned(r.value, g, JobStart, RootSet(names)) && Runnable(r.value)
    ensures Acyclic(g.Keys, OrderWaits(g)) ==> !(r.Failure? && r.error.OrderCycle?)
    ensures Acyclic(g.Keys, OrderWaits(g)) ==>
        (r.Success? <==> names != [] && NONAME !in RootSet(names) && !SomethingMissing(g, JobStart, RootSet(names)))
    ensures r.Success? <==> Plannable(g, ToStart, names)
    ensures r.Failure? ==> Refused(g, ToStart, names, r.error)
  {
    hide Acyclic, Planned, Runnable, SomethingMissing, Plannable, Refused;
    r := Plan(g, JobStart, names);
  }

  method PlanShutdown(g: Graph, names: seq<Name>) returns (r: Result<Transaction, PlanError>)
    requires WellFormed(g)
    ensures names != [] && NONAME !in RootSet(names) ==>
        (r.Failure? && r.error.MissingUnit? <==> !(RootSet(names) <= g.Keys))
    ensures r.Success? ==> Planned(r.value, g, JobStop, RootSet(names)) && Runnable(r.value)
    ensures Acyclic(g.Keys, OrderWaits(g)) ==> !(r.Failure? && r.error.OrderCycle?)
    ensures Acyclic(g.Keys, OrderWaits(g)) ==>
        (r.Success? <==> names != [] && NONAME !in RootSet(names) && RootSet(names) <= g.Keys)
    ensures r.Success? <==> Plannable(g, ToShutdown, names)
    ensures r.Failure? ==> Refused(g, ToShutdown, names, r.error)
  {
    hide Acyclic, Planned, Runnable, SomethingMissing, Plannable, Refused;
    r := Plan(g, JobStop, names);
    RootsMissing(g, RootSet(names));
  }

  lemma {:induction false} RootIsReported(g: Graph, roots: set<Name>, e: PlanError)
    requires e.MissingUnit? && e.unit_ in roots && e.unit_ !in g && e.requiredBy == NONAME
    ensures Reported(g, JobStop, roots, e)
  {}

  lemma {:induction false} RootsMissing(g: Graph, roots: set<Name>)
    ensures SomethingMissing(g, JobStop, roots) <==> !(roots <= g.Keys)
  {
    if !(roots <= g.Keys) {
      var u :| u in roots && u !in g;
      assert MissingFrom(g, roots, u, NONAME);
    }
  }

  /* ---- Stop plans ---- */

  method StopRoots(g: Graph, names: seq<Name>) returns (err: Option<PlanError>, roots: seq<Name>)
    ensures err.None? ==> NONAME !in RootSet(names) && RootSet(names) <= g.Keys
    ensures err.None? ==> Elements(roots) == RootSet(names) && NoDuplicates(roots)
    ensures err.Some? && err.value != EmptyUnitName ==>
        err.value.MissingUnit? && err.value.unit_ in RootSet(names) && err.value.unit_ !in g && err.value.requiredBy == NONAME
    ensures err == Some(EmptyUnitName) ==> NONAME in RootSet(names)
  {
    hide Normalize, NormalizeAll, NoDuplicates;
    NormalizeAllAt(names);
    roots := [];
    NoRoots(names);
    for i := 0 to |names|
      invariant Elements(roots) == Elements(NormalizeAll(names)[..i]) && NoDuplicates(roots)
      invariant Elements(roots) <= g.Keys && NONAME !in Elements(roots)
    {
      hide Elements;
      var name := Normalize(names[i]);
      NextRoot(names, i);
      ElementsMeans(roots, name);
      if name == NONAME { return Some(EmptyUnitName), roots; }
      if name in roots { continue; }
      OneMore(roots, name);
      roots := roots + [name];
      if name !in g { return Some(MissingUnit(name, NONAME)), roots; }
    }
    assert NormalizeAll(names)[..|names|] == NormalizeAll(names);
    err := None;
  }

  /** `PlanStop`. Unlike the other plans it can be refused on an acyclic ordering: exactly
      when requirement and reversed ordering constraints among the members form a closed
      walk. */
  method PlanStop(g: Graph, names: seq<Name>) returns (r: Result<Transaction, PlanError>)
    requires WellFormed(g)
    ensures names == [] <==> r == Failure(NoUnits)
    ensures names != [] && NONAME !in RootSet(names) ==>
        (r.Failure? && r.error.MissingUnit? <==> !(RootSet(names) <= g.Keys))
    ensures names != [] && NONAME !in RootSet(names) && RootSet(names) <= g.Keys ==>
        (r.Failure? <==> exists p :: Deadlock(g, Teardown, StopMembers(g, RootSet(names)), p))
    ensures r.Failure? && r.error.OrderCycle? ==> Deadlock(g, Teardown, StopMembers(g, RootSet(names)), r.error.path)
    ensures r.Success? ==> r.value.g == g && r.value.kind == JobStop && r.value.jobs == StopMembers(g, RootSet(names))
    ensures r.Success? ==> Elements(r.value.roots) == RootSet(names) && NoDuplicates(r.value.roots)
    ensures r.Success? ==> Runnable(r.value) && Realizes(g, Teardown, r.value.jobs, r.value.waits)
    ensures r.Success? <==> Plannable(g, ToStop, names)
    ensures r.Failure? ==> Refused(g, ToStop, names, r.error)
  {
    hide WellFormed, Realizes, Closure, Deadlock, ClosedWalk, Explored, NoDuplicates, SomethingMissing, Reported, Plannable, Refused, Acyclic;
    if names == [] {
      RefusedEarly(g, ToStop, names, NoUnits);
      return Failure(NoUnits);
    }
    ghost var all := RootSet(names);
    var err, roots := StopRoots(g, names);
    RootsNonEmpty(names);
    RootsMissing(g, all);
    if err.Some? {
      if err.value.MissingUnit? { RootIsReported(g, all, err.value); }
      RefusedEarly(g, ToStop, names, err.value);
      return Failure(err.value);
    }
    var jobs := RequirementClosure(g, Elements(roots));
    ClosureLoaded(RequirerEdges(g), all);
    var waits := TeardownWaits(g, jobs);
    r := Validated(g, JobStop, Teardown, roots, jobs, waits);
    DeadlockIsCycle(g, Teardown, jobs, waits);
    DecidedByWaits(g, ToStop, names, jobs, waits);
  }

  /** `reverseRequirementClosure`. */
  method RequirementClosure(g: Graph, roots: set<Name>) returns (seen: set<Name>)
    ensures seen == StopMembers(g, roots)
  {
    var e := AllEdges(g, true);
    forall x | x in roots && x in e { RootReached(e, roots, x); }
    seen := WalkAll(e, roots, {}, roots);
    ClosureUnique(e, roots, seen);
  }

  lemma {:induction false} DeadlockIsCycle(g: Graph, o: Ordering, jobs: set<Name>, waits: Waits)
    requires Realizes(g, o, jobs, waits)
    ensures forall p :: ClosedWalk(jobs, waits, p) <==> Deadlock(g, o, jobs, p)
    ensures !Acyclic(jobs, waits) <==> exists p :: Deadlock(g, o, jobs, p)
  {
    forall p ensures ClosedWalk(jobs, waits, p) <==> Deadlock(g, o, jobs, p) {
      if Deadlock(g, o, jobs, p) {
        forall i | 0 <= i < |p| - 1 ensures Edge(jobs, waits, p[i], p[i + 1]) {
          assert Holds(g, o, jobs, p[i], p[i + 1]) && Lists(waits, p[i], p[i + 1]);
        }
      }
      if ClosedWalk(jobs, waits, p) {
        forall i | 0 <= i < |p| - 1 ensures Holds(g, o, jobs, p[i], p[i + 1]) {
          assert Edge(jobs, waits, p[i], p[i + 1]);
          assert Lists(waits, p[i], p[i + 1]);
        }
      }
    }
    if !Acyclic(jobs, waits) {
      var p :| ClosedWalk(jobs, waits, p);
      assert Deadlock(g, o, jobs, p);
    }
    if exists p :: Deadlock(g, o, jobs, p) {
      var p :| Deadlock(g, o, jobs, p);
      assert ClosedWalk(jobs, waits, p);
    }
  }

  /** The failing family: a member that requires a root the root itself is ordered after. */
  lemma {:induction false} OpposedStopIsRefused(g: Graph, a: Name, b: Name)
    requires a in g && b in g && StopRequires(g[a], b) && a in g[b].waitsFor
    ensures Deadlock(g, Teardown, StopMembers(g, {b}), [a, b, a])
  {
    var e := RequirerEdges(g);
    RootReached(e, {b}, b);
    StepReached(e, {b}, b, a);
    assert Holds(g, Teardown, StopMembers(g, {b}), a, b) && Holds(g, Teardown, StopMembers(g, {b}), b, a);
  }

  const UNIT_A := Name("a.service")
  const UNIT_B := Name("b.service")

  /** `a` requires `b`, and `b` starts after `a`. */
  const OPPOSED: Graph := map[
    UNIT_A := Node([UNIT_B], [], [], [], [], [], []),
    UNIT_B := Node([], [], [], [], [UNIT_A], [], [UNIT_A])]

  /** A well-formed graph with an acyclic ordering on which stopping `b` is refused. */
  lemma {:induction false} StopRefusedOnAcyclicOrdering()
    ensures WellFormed(OPPOSED) && Acyclic(OPPOSED.Keys, OrderWaits(OPPOSED))
    ensures Deadlock(OPPOSED, Teardown, StopMembers(OPPOSED, {UNIT_B}), [UNIT_A, UNIT_B, UNIT_A])
  {
    hide WellFormed, Acyclic, Deadlock, Closure, CanonicalList, Normalize;
    SampleNames();
    SampleWellFormed();
    var order := [UNIT_A, UNIT_B];
    assert order[..1] == [UNIT_A] && Elements(order) == OPPOSED.Keys;
    assert forall v :: !Edge(OPPOSED.Keys, OrderWaits(OPPOSED), UNIT_A, v);
    LinearIsAcyclic(OPPOSED.Keys, OrderWaits(OPPOSED), order);
    OpposedStopIsRefused(OPPOSED, UNIT_A, UNIT_B);
  }

  lemma {:induction false} SampleNames()
    ensures UNIT_A != UNIT_B && UNIT_A != NONAME && UNIT_B != NONAME
    ensures Normalize(UNIT_A) == UNIT_A && Normalize(UNIT_B) == UNIT_B
  {
    assert UNIT_A.text[0] != UNIT_B.text[0] && |UNIT_A.text| == 9 && |UNIT_B.text| == 9;
    SampleNormal("a.service");
    SampleNormal("b.service");
  }

  lemma {:induction false} SampleNormal(s: string)
    requires s == "a.service" || s == "b.service"
    ensures Normalize(Name(s)) == Name(s)
  {
    NormalFixed(s);
    assert EndsWith(s, KIND_SUFFIXES[0]);
  }

  lemma {:induction false} SampleWellFormed()
    ensures WellFormed(OPPOSED)
  {
    hide CanonicalList, Normalize;
    SampleNames();
    CanonicalIntro([]);
    CanonicalIntro([UNIT_A]);
    CanonicalIntro([UNIT_B]);
    CanonicalIntro([UNIT_A, UNIT_B]);
    assert CanonicalKeys(OPPOSED) by { assert Elements([UNIT_A, UNIT_B]) == OPPOSED.Keys; }
  }
}
