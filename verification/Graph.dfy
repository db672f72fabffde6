/** The static dependency graph: `Build`, the requirement predicates and `OrderingCycle`. */
module Graphs {
  import opened Options
  import opened Names
  import opened Cycles

  datatype Result<+T, +E> = Success(value: T) | Failure(error: E)

  /** A parsed unit file, as far as the graph is concerned. */
  datatype Unit = Unit(name: Name, requirements: seq<Name>, wants: seq<Name>, bindsTo: seq<Name>,
                       partOf: seq<Name>, after: seq<Name>, before: seq<Name>)

  datatype Node = Node(requirements: seq<Name>, wants: seq<Name>, bindsTo: seq<Name>, partOf: seq<Name>,
                       after: seq<Name>, before: seq<Name>, waitsFor: seq<Name>)

  type Graph = map<Name, Node>

  datatype BuildError = EmptyName(index: nat) | DuplicateUnit(name: Name)

  /** Hard start dependency: Requires= or BindsTo=. */
  predicate StartRequires(n: Node, name: Name) {
    name in n.requirements || name in n.bindsTo
  }

  /** Stop propagates backwards along Requires=, BindsTo= and PartOf=. */
  predicate StopRequires(n: Node, name: Name) {
    name in n.requirements || name in n.bindsTo || name in n.partOf
  }

  function StartRequireNames(n: Node): seq<Name> {
    UniqueStable(n.requirements + n.bindsTo)
  }

  function StopDepNames(n: Node): seq<Name> {
    UniqueStable(n.requirements + n.bindsTo + n.partOf)
  }

  /** `n` starts after the loaded unit `dep`: declared on either side. */
  predicate OrderedAfter(g: Graph, n: Name, dep: Name) {
    n in g && dep in g && (dep in g[n].after || n in g[dep].before)
  }

  predicate CanonicalNode(n: Node) {
    && CanonicalList(n.requirements) && CanonicalList(n.wants) && CanonicalList(n.bindsTo)
    && CanonicalList(n.partOf) && CanonicalList(n.after) && CanonicalList(n.before)
  }

  ghost predicate CanonicalKeys(g: Graph) {
    exists ks :: CanonicalList(ks) && Elements(ks) == g.Keys
  }

  lemma {:induction false} KeyIsCanonical(g: Graph, n: Name)
    requires CanonicalKeys(g) && n in g
    ensures Normalize(n) == n && n != NONAME
  {
    var ks :| CanonicalList(ks) && Elements(ks) == g.Keys;
    assert n in Elements(ks);
    CanonicalElement(ks, n);
  }

  lemma {:induction false} KeysAreNamed(g: Graph, names: seq<Name>)
    requires CanonicalKeys(g) && Elements(names) <= g.Keys
    ensures NONAME !in names
  {
    forall i | 0 <= i < |names| ensures names[i] != NONAME {
      assert names[i] in Elements(names);
      KeyIsCanonical(g, names[i]);
    }
  }

  /** What `Build` establishes and every planner relies on. */
  ghost predicate WellFormed(g: Graph) {
    && CanonicalKeys(g)
    && (forall n :: n in g ==> CanonicalNode(g[n]) && NoDuplicates(g[n].waitsFor))
    && (forall n, dep :: n in g ==> (dep in g[n].waitsFor <==> OrderedAfter(g, n, dep)))
  }

  function OrderWaits(g: Graph): Waits {
    map n | n in g :: g[n].waitsFor
  }

  /** The two name lists agree with the two predicates on a well-formed graph. */
  lemma {:induction false} RequireNamesAgree(n: Node)
    requires CanonicalNode(n)
    ensures forall x :: x in StartRequireNames(n) <==> StartRequires(n, x)
    ensures forall x :: x in StopDepNames(n) <==> StopRequires(n, x)
    ensures forall x :: StartRequires(n, x) <==> x in n.requirements || x in n.bindsTo
    ensures forall x :: StopRequires(n, x) <==> x in n.requirements || x in n.bindsTo || x in n.partOf
  {
    ConcatCanonical(n.requirements, n.bindsTo);
    ConcatCanonical(n.requirements + n.bindsTo, n.partOf);
    FirstOccurrencesSound(n.requirements + n.bindsTo);
    FirstOccurrencesSound(n.requirements + n.bindsTo + n.partOf);
  }

  lemma {:induction false} ConcatCanonical(a: seq<Name>, b: seq<Name>)
    requires CanonicalList(a) && CanonicalList(b)
    ensures CanonicalList(a + b)
  {
    NormalizeAllAt(a);
    NormalizeAllAt(b);
    CanonicalIntro(a + b);
  }

  /** A unit's declarations as the graph stores them, before ordering edges exist. */
  function Declared(u: Unit): Node {
    Node(UniqueStable(u.requirements), UniqueStable(u.wants), UniqueStable(u.bindsTo),
         UniqueStable(u.partOf), UniqueStable(u.after), UniqueStable(u.before), [])
  }

  lemma {:induction false} DeclaredIsCanonical(u: Unit)
    ensures CanonicalNode(Declared(u))
  {
    UniqueStableCanonical(u.requirements);
    UniqueStableCanonical(u.wants);
    UniqueStableCanonical(u.bindsTo);
    UniqueStableCanonical(u.partOf);
    UniqueStableCanonical(u.after);
    UniqueStableCanonical(u.before);
  }

  method DeclareNode(u: Unit) returns (n: Node)
    ensures n == Declared(u)
  {
    var r := FilterUnique(u.requirements);
    var w := FilterUnique(u.wants);
    var b := FilterUnique(u.bindsTo);
    var p := FilterUnique(u.partOf);
    var a := FilterUnique(u.after);
    var f := FilterUnique(u.before);
    n := Node(r, w, b, p, a, f, []);
  }

  function UnitNames(units: seq<Unit>): (names: seq<Name>)
    ensures |names| == |units|
  {
    seq(|units|, i requires 0 <= i < |units| => Normalize(units[i].name))
  }

  method DeclareAll(units: seq<Unit>) returns (nodes: seq<Node>)
    ensures |nodes| == |units| && forall i :: 0 <= i < |units| ==> nodes[i] == Declared(units[i])
  {
    nodes := [];
    for i := 0 to |units|
      invariant |nodes| == i && forall j :: 0 <= j < i ==> nodes[j] == Declared(units[j])
    {
      var node := DeclareNode(units[i]);
      nodes := nodes + [node];
    }
  }

  /** One node per unit name; the first empty or repeated name is reported. */
  method LoadNodes(names: seq<Name>, nodes: seq<Node>) returns (r: Result<Graph, BuildError>)
    requires |names| == |nodes|
    ensures r.Success? <==> NoDuplicates(names) && forall i :: 0 <= i < |names| ==> names[i] != NONAME
    ensures r.Success? ==> r.value.Keys == Elements(names)
    ensures r.Success? ==> forall i :: 0 <= i < |names| ==> r.value[names[i]] == nodes[i]
    ensures r.Failure? ==> exists i :: FirstBad(names, i, r.error)
  {
    hide Loaded;
    var g: Graph := map[];
    assert Loaded(names, nodes, g, 0) by { NothingLoaded(names, nodes); }
    for i := 0 to |names|
      invariant Loaded(names, nodes, g, i)
    {
      if names[i] == NONAME {
        assert FirstBad(names, i, EmptyName(i)) by { LoadedIsGood(names, nodes, g, i); }
        return Failure(EmptyName(i));
      }
      if names[i] in g {
        LoadedIsGood(names, nodes, g, i);
        assert FirstBad(names, i, DuplicateUnit(names[i]));
        RepeatedName(names, nodes, g, i);
        return Failure(DuplicateUnit(names[i]));
      }
      LoadNext(names, nodes, g, i);
      g := g[names[i] := nodes[i]];
    }
    AllLoaded(names, nodes, g);
    r := Success(g);
  }

  /** The first `i` nodes are stored, under distinct names. */
  ghost predicate Loaded(names: seq<Name>, nodes: seq<Node>, g: Graph, i: nat)
    requires i <= |names| == |nodes|
  {
    && NoDuplicates(names[..i]) && g.Keys == Elements(names[..i])
    && forall j :: 0 <= j < i ==> names[j] != NONAME && names[j] in g && g[names[j]] == nodes[j]
  }

  /** The first name that is empty or repeated, and the error it gives. */
  ghost predicate FirstBad(names: seq<Name>, i: int, e: BuildError) {
    && 0 <= i < |names| && NoDuplicates(names[..i]) && (forall j :: 0 <= j < i ==> names[j] != NONAME)
    && if names[i] == NONAME then e == EmptyName(i) else names[i] in names[..i] && e == DuplicateUnit(names[i])
  }

  lemma {:induction false} LoadedIsGood(names: seq<Name>, nodes: seq<Node>, g: Graph, i: nat)
    requires i <= |names| == |nodes| && Loaded(names, nodes, g, i)
    ensures NoDuplicates(names[..i]) && forall j :: 0 <= j < i ==> names[j] != NONAME
    ensures forall n :: n in g <==> n in names[..i]
  {
    assert forall n :: n in Elements(names[..i]) <==> n in names[..i];
  }

  lemma {:induction false} NothingLoaded(names: seq<Name>, nodes: seq<Node>)
    requires |names| == |nodes|
    ensures Loaded(names, nodes, map[], 0)
  {
    assert Elements(names[..0]) == {};
  }

  lemma {:induction false} LoadNext(names: seq<Name>, nodes: seq<Node>, g: Graph, i: nat)
    requires i < |names| == |nodes| && Loaded(names, nodes, g, i) && names[i] != NONAME && names[i] !in g
    ensures Loaded(names, nodes, g[names[i] := nodes[i]], i + 1)
  {
    hide NoDuplicates, Elements;
    OneMore(names[..i], names[i]);
    assert names[..i + 1] == names[..i] + [names[i]];
    assert g[names[i] := nodes[i]].Keys == g.Keys + {names[i]};
  }

  lemma {:induction false} AllLoaded(names: seq<Name>, nodes: seq<Node>, g: Graph)
    requires |names| == |nodes| && Loaded(names, nodes, g, |names|)
    ensures NoDuplicates(names) && g.Keys == Elements(names)
    ensures forall i :: 0 <= i < |names| ==> names[i] != NONAME && names[i] in g && g[names[i]] == nodes[i]
  {
    assert names[..|names|] == names;
  }

  lemma {:induction false} RepeatedName(names: seq<Name>, nodes: seq<Node>, g: Graph, i: nat)
    requires i < |names| == |nodes| && Loaded(names, nodes, g, i) && names[i] in g
    ensures !NoDuplicates(names)
  {
    var j :| 0 <= j < i && names[..i][j] == names[i];
    assert names[j] == names[i];
  }

  /** A row of loaded After= predecessors. */
  ghost predicate AfterRow(g: Graph, n: Name, row: seq<Name>)
    requires n in g
  {
    NoDuplicates(row) && forall dep :: dep in row <==> dep in g && dep in g[n].after
  }

  /** First ordering pass: After= entries that are loaded. */
  method AfterEdges(g: Graph) returns (waits: Waits)
    requires forall n :: n in g ==> CanonicalList(g[n].after)
    ensures waits.Keys == g.Keys && forall n :: n in g ==> AfterRow(g, n, waits[n])
  {
    waits := map[];
    var left := g.Keys;
    while left != {}
      invariant left <= g.Keys && waits.Keys == g.Keys - left
      invariant forall n :: n in waits ==> AfterRow(g, n, waits[n])
      decreases left
    {
      var n :| n in left;
      var kept := KeepLoaded(g[n].after, g.Keys);
      var row := FilterAgain(g[n].after, kept);
      left := left - {n};
      waits := waits[n := row];
    }
  }

  /** The entries of a list that belong to a set, in order. */
  method KeepLoaded(from: seq<Name>, within: set<Name>) returns (kept: seq<Name>)
    ensures forall x :: x in kept <==> x in from && x in within
  {
    kept := [];
    for k := 0 to |from|
      invariant forall x :: x in kept <==> x in from[..k] && x in within
    {
      assert from[..k + 1] == from[..k] + [from[k]];
      if from[k] in within {
        kept := kept + [from[k]];
      }
    }
    assert from[..|from|] == from;
  }

  /** `uniqueStable` over a selection of an already canonical list. */
  method FilterAgain(ghost canonical: seq<Name>, picked: seq<Name>) returns (out: seq<Name>)
    requires CanonicalList(canonical) && forall x :: x in picked ==> x in canonical
    ensures NoDuplicates(out)
    ensures forall x :: x in out <==> x in picked
  {
    out := FilterUnique(picked);
    forall i | 0 <= i < |picked| ensures Normalize(picked[i]) == picked[i] && picked[i] != NONAME {
      CanonicalElement(canonical, picked[i]);
    }
    CanonicalIntro(picked);
    FirstOccurrencesSound(picked);
  }

  /** Progress of the second pass: Before= of every name in `finished`, and the first
      `k` Before= entries of `cur`, have become edges. */
  ghost predicate BeforeRow(g: Graph, n: Name, row: seq<Name>, finished: set<Name>, cur: Name, k: nat)
    requires n in g && cur in g && k <= |g[cur].before|
  {
    && NoDuplicates(row)
    && forall dep :: dep in row <==>
        dep in g && (dep in g[n].after || (n in g[dep].before && dep in finished)
                     || (dep == cur && n in g[cur].before[..k]))
  }

  method BeforeEdges(g: Graph, waits0: Waits) returns (waits: Waits)
    requires waits0.Keys == g.Keys && forall n :: n in g ==> AfterRow(g, n, waits0[n])
    ensures waits.Keys == g.Keys && forall n :: n in g ==> NoDuplicates(waits[n])
    ensures forall n, dep :: n in g ==> (dep in waits[n] <==> OrderedAfter(g, n, dep))
  {
    waits := waits0;
    var left := g.Keys;
    while left != {}
      invariant left <= g.Keys && waits.Keys == g.Keys
      invariant forall n :: n in g ==> BeforeRow(g, n, waits[n], g.Keys - left, n, 0)
      decreases left
    {
      var cur :| cur in left;
      waits := BeforeEdgesOf(g, waits, g.Keys - left, cur);
      left := left - {cur};
    }
    forall n, dep | n in g ensures dep in waits[n] <==> OrderedAfter(g, n, dep) {
      assert BeforeRow(g, n, waits[n], g.Keys, n, 0);
    }
  }

  method BeforeEdgesOf(g: Graph, waits0: Waits, ghost finished: set<Name>, cur: Name) returns (waits: Waits)
    requires waits0.Keys == g.Keys && cur in g && finished <= g.Keys
    requires forall n :: n in g ==> BeforeRow(g, n, waits0[n], finished, n, 0)
    ensures waits.Keys == g.Keys
    ensures forall n :: n in g ==> BeforeRow(g, n, waits[n], finished + {cur}, n, 0)
  {
    waits := waits0;
    var before := g[cur].before;
    forall n | n in g { BeforeRowTurns(g, n, waits0[n], finished, cur); }
    hide BeforeRow;
    for k := 0 to |before|
      invariant waits.Keys == g.Keys
      invariant forall n :: n in g ==> BeforeRow(g, n, waits[n], finished, cur, k)
    {
      var later := before[k];
      forall n | n in g { BeforeRowStep(g, n, waits[n], finished, cur, k); }
      if later !in g { continue; }
      if cur !in waits[later] {
        waits := waits[later := waits[later] + [cur]];
      }
    }
    forall n | n in g { BeforeRowTurns(g, n, waits[n], finished, cur); }
  }

  /** A name is finished once all its entries are; a name without entries done does not show. */
  lemma {:induction false} BeforeRowTurns(g: Graph, n: Name, row: seq<Name>, finished: set<Name>, cur: Name)
    requires n in g && cur in g
    ensures BeforeRow(g, n, row, finished, n, 0) <==> BeforeRow(g, n, row, finished, cur, 0)
    ensures BeforeRow(g, n, row, finished, cur, |g[cur].before|) <==> BeforeRow(g, n, row, finished + {cur}, n, 0)
  {
    var before := g[cur].before;
    assert before[..|before|] == before;
  }

  lemma {:induction false} BeforeRowStep(g: Graph, n: Name, row: seq<Name>, finished: set<Name>, cur: Name, k: nat)
    requires n in g && cur in g && k < |g[cur].before| && BeforeRow(g, n, row, finished, cur, k)
    ensures n != g[cur].before[k] || cur in row ==> BeforeRow(g, n, row, finished, cur, k + 1)
    ensures n == g[cur].before[k] && cur !in row ==> BeforeRow(g, n, row + [cur], finished, cur, k + 1)
  {
    var before := g[cur].before;
    assert before[..k + 1] == before[..k] + [before[k]];
  }

  /** `Build` succeeds exactly when the normalized names are non-empty and distinct; the
      graph then holds one well-formed node per unit with that unit's declarations. */
  method Build(units: seq<Unit>) returns (r: Result<Graph, BuildError>)
    ensures r.Success? <==> NoDuplicates(UnitNames(units)) && forall i :: 0 <= i < |units| ==> UnitNames(units)[i] != NONAME
    ensures r.Success? ==> WellFormed(r.value)
    ensures r.Success? ==> r.value.Keys == Elements(UnitNames(units))
    ensures r.Success? ==> forall i :: 0 <= i < |units| ==>
        r.value[UnitNames(units)[i]].(waitsFor := []) == Declared(units[i])
    ensures r.Failure? ==> exists i :: FirstBad(UnitNames(units), i, r.error)
  {
    var declared := DeclareAll(units);
    r := LoadNodes(UnitNames(units), declared);
    if r.Failure? { return; }
    var nodes := r.value;
    NodesAreCanonical(units, nodes);
    var waits := AfterEdges(nodes);
    waits := BeforeEdges(nodes, waits);
    AssembledIsWellFormed(nodes, waits, UnitNames(units));
    r := Success(Assemble(nodes, waits));
  }

  lemma {:induction false} NodesAreCanonical(units: seq<Unit>, nodes: Graph)
    requires nodes.Keys == Elements(UnitNames(units))
    requires forall i :: 0 <= i < |units| ==> UnitNames(units)[i] != NONAME
    requires forall i :: 0 <= i < |units| ==> nodes[UnitNames(units)[i]] == Declared(units[i])
    ensures CanonicalList(UnitNames(units))
    ensures forall n :: n in nodes ==> CanonicalNode(nodes[n])
  {
    var names := UnitNames(units);
    forall i | 0 <= i < |names| ensures Normalize(names[i]) == names[i] {
      NormalizeIdempotent(units[i].name);
    }
    CanonicalIntro(names);
    forall n | n in nodes ensures CanonicalNode(nodes[n]) {
      assert n in Elements(names);
      var i :| 0 <= i < |names| && names[i] == n;
      DeclaredIsCanonical(units[i]);
    }
  }

  function Assemble(nodes: Graph, waits: Waits): Graph
    requires waits.Keys == nodes.Keys
  {
    map n | n in nodes :: nodes[n].(waitsFor := waits[n])
  }

  lemma {:induction false} AssembledIsWellFormed(nodes: Graph, waits: Waits, keys: seq<Name>)
    requires CanonicalList(keys) && nodes.Keys == Elements(keys) && waits.Keys == nodes.Keys
    requires forall n :: n in nodes ==> CanonicalNode(nodes[n]) && NoDuplicates(waits[n])
    requires forall n, dep :: n in nodes ==> (dep in waits[n] <==> OrderedAfter(nodes, n, dep))
    ensures WellFormed(Assemble(nodes, waits))
  {
    var g := Assemble(nodes, waits);
    assert CanonicalKeys(g) by { assert Elements(keys) == g.Keys; }
    forall n | n in g ensures CanonicalNode(g[n]) && NoDuplicates(g[n].waitsFor) {
      assert CanonicalNode(nodes[n]);
    }
    forall n, dep | n in g ensures dep in g[n].waitsFor <==> OrderedAfter(g, n, dep) {
      assert dep in waits[n] <==> OrderedAfter(nodes, n, dep);
    }
  }

  /** `OrderingCycle`: nil exactly when After=/Before= over all loaded units is acyclic. */
  method OrderingCycle(g: Graph) returns (cycle: Option<seq<Name>>)
    requires WellFormed(g)
    ensures cycle.None? <==> Acyclic(g.Keys, OrderWaits(g))
    ensures cycle.Some? ==> ClosedWalk(g.Keys, OrderWaits(g), cycle.value)
  {
    var names := SomeOrder(g.Keys);
    KeysAreNamed(g, names);
    ghost var order: seq<Name>;
    cycle, order := FindCycle(names, OrderWaits(g));
  }
}
