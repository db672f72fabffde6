/** The per-name operation gates of the manager: `unitOps` with its reference-counted entries.

A gate is a channel of capacity one. A caller's way through `lockContext` and `tryLock` is cut
at the points where other callers can run: pinning the entry, taking the slot, giving it back,
and dropping the pin. Callers are told apart by a number; which of them moves next, and whether
a wait is cancelled, is arbitrary. */
module UnitGates {
  import opened Sets

  type Caller = nat
  type GateId = nat

  /** Where a caller is: waiting with the entry pinned, holding the slot, or on its way out
      with the slot given back and the pin still on. */
  datatype Phase = Outside | Waiting(name: string, gate: GateId) | Holding(name: string, gate: GateId)
    | Leaving(name: string, gate: GateId)

  /** An entry: the slot, the reference count, and who those references are. */
  datatype Gate = Gate(full: bool, refs: int, users: set<Caller>)

  /** Every entry ever created keeps its place in `gates`; `entries` is the map by name. */
  datatype Gates = Gates(entries: map<string, GateId>, gates: seq<Gate>, callers: map<Caller, Phase>)

  function PhaseOf(s: Gates, c: Caller): Phase {
    if c in s.callers then s.callers[c] else Outside
  }

  predicate Uses(p: Phase, g: GateId) {
    !p.Outside? && p.gate == g
  }

  /* ---- The invariant ---- */

  /** Each caller inside uses the entry that is in the map under its name now. */
  ghost predicate OneGatePerName(s: Gates) {
    && (forall c :: !PhaseOf(s, c).Outside? ==>
          PhaseOf(s, c).name in s.entries && s.entries[PhaseOf(s, c).name] == PhaseOf(s, c).gate)
    && (forall n, m :: n in s.entries && m in s.entries && s.entries[n] == s.entries[m] ==> n == m)
  }

  /** References are the callers inside, and an entry is in the map only while it has some. */
  ghost predicate Counted(s: Gates) {
    && (forall n :: n in s.entries ==> s.entries[n] < |s.gates| && s.gates[s.entries[n]].refs > 0)
    && (forall g :: 0 <= g < |s.gates| ==> GateCounted(s, g))
  }

  ghost predicate GateCounted(s: Gates, g: GateId)
    requires g < |s.gates|
  {
    && s.gates[g].refs == |s.gates[g].users|
    && forall c :: c in s.gates[g].users <==> Uses(PhaseOf(s, c), g)
  }

  /** A slot is taken exactly while one caller holds it. */
  ghost predicate Exclusive(s: Gates) {
    && (forall c, d :: PhaseOf(s, c).Holding? && PhaseOf(s, d).Holding? && PhaseOf(s, c).gate == PhaseOf(s, d).gate ==> c == d)
    && (forall c :: PhaseOf(s, c).Holding? ==> PhaseOf(s, c).gate < |s.gates| && s.gates[PhaseOf(s, c).gate].full)
    && (forall g :: 0 <= g < |s.gates| && s.gates[g].full ==> exists c :: PhaseOf(s, c).Holding? && PhaseOf(s, c).gate == g)
  }

  ghost predicate Valid(s: Gates) {
    OneGatePerName(s) && Counted(s) && Exclusive(s)
  }

  /* ---- What it means ---- */

  /** At most one caller holds a name, although entries come and go. */
  lemma {:induction false} MutualExclusion(s: Gates, c: Caller, d: Caller)
    requires Valid(s) && PhaseOf(s, c).Holding? && PhaseOf(s, d).Holding? && PhaseOf(s, c).name == PhaseOf(s, d).name
    ensures c == d
  {}

  /** An entry is in the map exactly while some caller holds or waits for its name, and its
      count is the number of those callers. */
  lemma {:induction false} EntryWhileUsed(s: Gates, n: string)
    requires Valid(s)
    ensures n in s.entries <==> exists c :: !PhaseOf(s, c).Outside? && PhaseOf(s, c).name == n
    ensures n in s.entries ==> s.entries[n] < |s.gates| && s.gates[s.entries[n]].refs == |s.gates[s.entries[n]].users|
    ensures n in s.entries ==>
      forall c :: c in s.gates[s.entries[n]].users <==> !PhaseOf(s, c).Outside? && PhaseOf(s, c).name == n
  {
    if n in s.entries {
      var g := s.entries[n];
      assert GateCounted(s, g);
      assert s.gates[g].users != {};
      var c :| c in s.gates[g].users;
      assert Uses(PhaseOf(s, c), g);
    }
  }

  /* ---- The steps ---- */

  /** `retain`. */
  function Pin(s: Gates, c: Caller, n: string): Gates {
    if n in s.entries && s.entries[n] < |s.gates| then
      var g := s.entries[n];
      var u := s.gates[g];
      s.(gates := s.gates[g := u.(refs := u.refs + 1, users := u.users + {c})], callers := s.callers[c := Waiting(n, g)])
    else
      s.(entries := s.entries[n := |s.gates|], gates := s.gates + [Gate(false, 1, {c})],
         callers := s.callers[c := Waiting(n, |s.gates|)])
  }

  /** Sending into the channel, when there is room. */
  function Enter(s: Gates, c: Caller): Gates
    requires PhaseOf(s, c).Waiting? && PhaseOf(s, c).gate < |s.gates|
  {
    var p := PhaseOf(s, c);
    s.(gates := s.gates[p.gate := s.gates[p.gate].(full := true)], callers := s.callers[c := Holding(p.name, p.gate)])
  }

  /** Receiving from the channel. */
  function Drain(s: Gates, c: Caller): Gates
    requires PhaseOf(s, c).Holding? && PhaseOf(s, c).gate < |s.gates|
  {
    var p := PhaseOf(s, c);
    s.(gates := s.gates[p.gate := s.gates[p.gate].(full := false)], callers := s.callers[c := Leaving(p.name, p.gate)])
  }

  /** `release`. */
  function Unpin(s: Gates, c: Caller): Gates
    requires !PhaseOf(s, c).Outside? && PhaseOf(s, c).gate < |s.gates|
  {
    var p := PhaseOf(s, c);
    var u := s.gates[p.gate].(refs := s.gates[p.gate].refs - 1, users := s.gates[p.gate].users - {c});
    s.(gates := s.gates[p.gate := u], callers := s.callers - {c},
       entries := if u.refs == 0 then s.entries - {p.name} else s.entries)
  }

  lemma {:induction false} PinKeeps(s: Gates, c: Caller, n: string)
    requires Valid(s) && PhaseOf(s, c).Outside?
    ensures Valid(Pin(s, c, n))
  {
    var t := Pin(s, c, n);
    assert forall d :: d != c ==> PhaseOf(t, d) == PhaseOf(s, d);
    PinCounted(s, c, n);
    PinExclusive(s, c, n);
  }

  lemma {:induction false} PinCounted(s: Gates, c: Caller, n: string)
    requires OneGatePerName(s) && Counted(s) && PhaseOf(s, c).Outside?
    ensures Counted(Pin(s, c, n))
  {
    var t := Pin(s, c, n);
    assert forall d :: d != c ==> PhaseOf(t, d) == PhaseOf(s, d);
    forall g | 0 <= g < |t.gates| ensures GateCounted(t, g) {
      if g < |s.gates| { assert GateCounted(s, g); }
    }
  }

  lemma {:induction false} PinExclusive(s: Gates, c: Caller, n: string)
    requires Exclusive(s) && PhaseOf(s, c).Outside?
    ensures Exclusive(Pin(s, c, n))
  {
    var t := Pin(s, c, n);
    assert forall d :: d != c ==> PhaseOf(t, d) == PhaseOf(s, d);
    forall g | 0 <= g < |t.gates| && t.gates[g].full
      ensures exists d :: PhaseOf(t, d).Holding? && PhaseOf(t, d).gate == g
    {
      var d :| PhaseOf(s, d).Holding? && PhaseOf(s, d).gate == g;
      assert PhaseOf(t, d).Holding?;
    }
  }

  lemma {:induction false} EnterKeeps(s: Gates, c: Caller)
    requires Valid(s) && PhaseOf(s, c).Waiting? && PhaseOf(s, c).gate < |s.gates| && !s.gates[PhaseOf(s, c).gate].full
    ensures Valid(Enter(s, c))
  {
    var t := Enter(s, c);
    var p := PhaseOf(s, c);
    assert forall d :: d != c ==> PhaseOf(t, d) == PhaseOf(s, d);
    forall g | 0 <= g < |t.gates| ensures GateCounted(t, g) {
      assert GateCounted(s, g);
    }
    forall g | 0 <= g < |t.gates| && t.gates[g].full
      ensures exists d :: PhaseOf(t, d).Holding? && PhaseOf(t, d).gate == g
    {
      if g == p.gate {
        assert PhaseOf(t, c).Holding?;
      } else {
        var d :| PhaseOf(s, d).Holding? && PhaseOf(s, d).gate == g;
        assert PhaseOf(t, d).Holding?;
      }
    }
  }

  lemma {:induction false} DrainKeeps(s: Gates, c: Caller)
    requires Valid(s) && PhaseOf(s, c).Holding? && PhaseOf(s, c).gate < |s.gates|
    ensures Valid(Drain(s, c))
  {
    var t := Drain(s, c);
    var p := PhaseOf(s, c);
    assert forall d :: d != c ==> PhaseOf(t, d) == PhaseOf(s, d);
    forall g | 0 <= g < |t.gates| ensures GateCounted(t, g) {
      assert GateCounted(s, g);
    }
    forall g | 0 <= g < |t.gates| && t.gates[g].full
      ensures exists d :: PhaseOf(t, d).Holding? && PhaseOf(t, d).gate == g
    {
      var d :| PhaseOf(s, d).Holding? && PhaseOf(s, d).gate == g;
      assert PhaseOf(t, d).Holding?;
    }
  }

  lemma {:induction false} UnpinKeeps(s: Gates, c: Caller)
    requires Valid(s) && (PhaseOf(s, c).Waiting? || PhaseOf(s, c).Leaving?) && PhaseOf(s, c).gate < |s.gates|
    ensures Valid(Unpin(s, c))
  {
    hide OneGatePerName, Counted, Exclusive;
    UnpinNames(s, c);
    UnpinCounted(s, c);
    UnpinExclusive(s, c);
  }

  /** With the last reference gone, nobody else can be using the entry that is removed. */
  lemma {:induction false} UnpinNames(s: Gates, c: Caller)
    requires OneGatePerName(s) && Counted(s) && !PhaseOf(s, c).Outside? && PhaseOf(s, c).gate < |s.gates|
    ensures OneGatePerName(Unpin(s, c))
  {
    var t := Unpin(s, c);
    var p := PhaseOf(s, c);
    var users := s.gates[p.gate].users;
    assert GateCounted(s, p.gate) && c in users;
    forall d | !PhaseOf(t, d).Outside?
      ensures PhaseOf(t, d).name in t.entries && t.entries[PhaseOf(t, d).name] == PhaseOf(t, d).gate
    {
      assert d != c && PhaseOf(t, d) == PhaseOf(s, d);
      if PhaseOf(s, d).name == p.name {
        assert Uses(PhaseOf(s, d), p.gate);
        assert {c, d} <= users;
        SubsetSize({c, d}, users);
        assert |{c, d}| == 2;
      }
    }
  }

  lemma {:induction false} UnpinCounted(s: Gates, c: Caller)
    requires OneGatePerName(s) && Counted(s) && !PhaseOf(s, c).Outside? && PhaseOf(s, c).gate < |s.gates|
    ensures Counted(Unpin(s, c))
  {
    var t := Unpin(s, c);
    var p := PhaseOf(s, c);
    assert forall d :: d != c ==> PhaseOf(t, d) == PhaseOf(s, d);
    assert PhaseOf(t, c).Outside?;
    assert GateCounted(s, p.gate) && c in s.gates[p.gate].users;
    forall g | 0 <= g < |t.gates| ensures GateCounted(t, g) {
      assert GateCounted(s, g);
    }
  }

  lemma {:induction false} UnpinExclusive(s: Gates, c: Caller)
    requires Exclusive(s) && !PhaseOf(s, c).Outside? && !PhaseOf(s, c).Holding? && PhaseOf(s, c).gate < |s.gates|
    ensures Exclusive(Unpin(s, c))
  {
    var t := Unpin(s, c);
    assert forall d :: d != c ==> PhaseOf(t, d) == PhaseOf(s, d);
    assert PhaseOf(t, c).Outside?;
    forall g | 0 <= g < |t.gates| && t.gates[g].full
      ensures exists d :: PhaseOf(t, d).Holding? && PhaseOf(t, d).gate == g
    {
      var d :| PhaseOf(s, d).Holding? && PhaseOf(s, d).gate == g;
      assert PhaseOf(t, d).Holding?;
    }
  }

  lemma {:induction false} GateExists(s: Gates, c: Caller)
    requires Valid(s) && !PhaseOf(s, c).Outside?
    ensures PhaseOf(s, c).gate < |s.gates|
  {}

  /* ---- The gates ---- */

  class UnitOps {
    var s: Gates

    constructor ()
      ensures Valid(s) && s.entries == map[] && forall c :: PhaseOf(s, c).Outside?
    {
      s := Gates(map[], [], map[]);
    }

    /** `retain`: the caller starts to wait with the entry pinned. */
    method Retain(c: Caller, name: string)
      requires Valid(s) && PhaseOf(s, c).Outside?
      modifies this
      ensures Valid(s) && PhaseOf(s, c).Waiting? && PhaseOf(s, c).name == name
      ensures forall d :: d != c ==> PhaseOf(s, d) == PhaseOf(old(s), d)
    {
      PinKeeps(s, c, name);
      hide Valid;
      s := Pin(s, c, name);
    }

    /** The caller tries to take the slot: `tryLock` gives up when it fails, a lock goes on
        waiting. It succeeds exactly when nobody holds the name. */
    method TakeSlot(c: Caller) returns (taken: bool)
      requires Valid(s) && PhaseOf(s, c).Waiting?
      modifies this
      ensures Valid(s) && (taken ==> PhaseOf(s, c) == Holding(PhaseOf(old(s), c).name, PhaseOf(old(s), c).gate))
      ensures taken <==> forall d :: PhaseOf(old(s), d).Holding? ==> PhaseOf(old(s), d).name != PhaseOf(old(s), c).name
      ensures !taken ==> s == old(s)
      ensures forall d :: d != c ==> PhaseOf(s, d) == PhaseOf(old(s), d)
    {
      SlotMeans(s, c);
      hide Valid;
      if s.gates[PhaseOf(s, c).gate].full { return false; }
      EnterKeeps(s, c);
      s := Enter(s, c);
      return true;
    }

    /** The holder gives the slot back. */
    method GiveSlot(c: Caller)
      requires Valid(s) && PhaseOf(s, c).Holding?
      modifies this
      ensures Valid(s) && PhaseOf(s, c).Leaving? && PhaseOf(s, c).name == PhaseOf(old(s), c).name
      ensures forall d :: d != c ==> PhaseOf(s, d) == PhaseOf(old(s), d)
    {
      GateExists(s, c);
      DrainKeeps(s, c);
      hide Valid;
      s := Drain(s, c);
    }

    /** `release`, after unlocking or for an abandoned wait. */
    method Release(c: Caller)
      requires Valid(s) && (PhaseOf(s, c).Waiting? || PhaseOf(s, c).Leaving?)
      modifies this
      ensures Valid(s) && PhaseOf(s, c).Outside?
      ensures forall d :: d != c ==> PhaseOf(s, d) == PhaseOf(old(s), d)
    {
      GateExists(s, c);
      UnpinKeeps(s, c);
      hide Valid;
      s := Unpin(s, c);
    }

    /** Every interleaving: any caller takes any step its place allows. */
    method Run()
      requires Valid(s)
      modifies this
      ensures Valid(s)
    {
      hide Valid;
      var n: nat := *;
      while n > 0
        invariant Valid(s)
        decreases n
      {
        n := n - 1;
        var c: Caller, name: string, abandon: bool := *, *, *;
        match PhaseOf(s, c)
        case Outside => Retain(c, name);
        case Waiting(_, _) => if abandon { Release(c); } else { var _ := TakeSlot(c); }
        case Holding(_, _) => GiveSlot(c);
        case Leaving(_, _) => Release(c);
      }
    }
  }

  /** The slot a waiting caller sees is taken exactly while somebody holds its name. */
  lemma {:induction false} SlotMeans(s: Gates, c: Caller)
    requires Valid(s) && PhaseOf(s, c).Waiting?
    ensures PhaseOf(s, c).gate < |s.gates|
    ensures s.gates[PhaseOf(s, c).gate].full <==> exists d :: PhaseOf(s, d).Holding? && PhaseOf(s, d).name == PhaseOf(s, c).name
  {
    var g := PhaseOf(s, c).gate;
    if s.gates[g].full {
      var d :| PhaseOf(s, d).Holding? && PhaseOf(s, d).gate == g;
      assert PhaseOf(s, d).name == PhaseOf(s, c).name;
    }
  }
}
