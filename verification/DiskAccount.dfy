/** The retention accounts of the journal: `reserveDisk`, `releaseDisk`, `observeDisk`,
`forgetDiskLocked`, `rotatedDisk` and the pruning of historical units.

A file is named by its unit and generation; distinct pairs have distinct file names. The
outcome of every native removal is arbitrary. */
module DiskAccounts {
  import opened Options
  import opened Sets

  const MAX_ATTEMPTS: nat := 8192

  /** Generation zero is the current file. */
  datatype Key = Key(unit: string, generation: nat)

  datatype DiskFile = DiskFile(size: int, modified: int)

  datatype Account = Account(files: map<Key, DiskFile>, bytes: int)

  /* ---- Totals ---- */

  ghost function Total(files: map<Key, DiskFile>): int
    decreases files.Keys
  {
    if files.Keys == {} then 0 else
    var k :| k in files.Keys;
    files[k].size + Total(files - {k})
  }

  lemma {:induction false} TotalWithout(files: map<Key, DiskFile>, k: Key)
    requires k in files
    ensures Total(files) == files[k].size + Total(files - {k})
    decreases files.Keys
  {
    var j :| j in files.Keys && Total(files) == files[j].size + Total(files - {j});
    if j != k {
      TotalWithout(files - {j}, k);
      TotalWithout(files - {k}, j);
      assert files - {j} - {k} == files - {k} - {j};
    }
  }

  /** The recorded total is the sum of the entries. */
  ghost predicate Balanced(a: Account) {
    a.bytes == Total(a.files)
  }

  function Size(a: Account, k: Key): int {
    if k in a.files then a.files[k].size else 0
  }

  function Put(a: Account, k: Key, f: DiskFile): Account {
    Account(a.files[k := f], a.bytes - Size(a, k) + f.size)
  }

  /** `forgetDiskLocked`. */
  function Forget(a: Account, k: Key): Account {
    Account(a.files - {k}, a.bytes - Size(a, k))
  }

  lemma {:induction false} ForgetBalanced(a: Account, k: Key)
    requires Balanced(a)
    ensures Balanced(Forget(a, k))
  {
    if k in a.files { TotalWithout(a.files, k); } else { assert a.files - {k} == a.files; }
  }

  lemma {:induction false} PutBalanced(a: Account, k: Key, f: DiskFile)
    requires Balanced(a)
    ensures Balanced(Put(a, k, f))
  {
    var files := a.files[k := f];
    TotalWithout(files, k);
    assert files - {k} == a.files - {k};
    if k in a.files { TotalWithout(a.files, k); } else { assert a.files - {k} == a.files; }
  }

  /** `rotatedDisk`: the entry follows its file to the next generation; the oldest, and one
      whose file was missing, are dropped. */
  function Rotated(a: Account, unit: string, step: nat, keep: nat, moved: bool): Account {
    var from, to := Key(unit, step), Key(unit, step + 1);
    var b := Forget(a, from);
    if step == keep || !moved then b
    else if from in a.files then Put(Forget(b, to), to, a.files[from])
    else Forget(b, to)
  }

  lemma {:induction false} RotatedBalanced(a: Account, unit: string, step: nat, keep: nat, moved: bool)
    requires Balanced(a)
    ensures Balanced(Rotated(a, unit, step, keep, moved))
  {
    hide Balanced;
    var from, to := Key(unit, step), Key(unit, step + 1);
    var b := Forget(a, from);
    ForgetBalanced(a, from);
    ForgetBalanced(b, to);
    if from in a.files { PutBalanced(Forget(b, to), to, a.files[from]); }
  }

  /* ---- Pruning ---- */

  /** Units whose files may go: not the writer's own and nothing that is open. */
  predicate Historical(a: Account, open: set<string>, exclude: string, unit: string) {
    unit != exclude && unit !in open && exists k :: k in a.files && k.unit == unit
  }

  /** The last change to any file of the unit. */
  ghost predicate LastChanged(a: Account, unit: string, when: int) {
    && (exists k :: k in a.files && k.unit == unit && a.files[k].modified == when)
    && (forall k :: k in a.files && k.unit == unit ==> a.files[k].modified <= when)
  }

  /** No other unit that may go was last changed earlier, or at the same time with a smaller name. */
  ghost predicate LeftLongest(a: Account, open: set<string>, exclude: string, unit: string) {
    forall t, w, s :: (LastChanged(a, unit, t) && Historical(a, open, exclude, w) && LastChanged(a, w, s) && w != unit) ==>
      t < s || (t == s && Precedes(unit, w))
  }

  /** When each unit that may go was last changed. */
  method Candidates(a: Account, open: set<string>, exclude: string) returns (recent: map<string, int>)
    ensures forall u :: u in recent <==> Historical(a, open, exclude, u)
    ensures forall u :: u in recent ==> LastChanged(a, u, recent[u])
  {
    recent := map[];
    var left := a.files.Keys;
    while left != {}
      invariant left <= a.files.Keys
      invariant forall u :: u in recent ==> u != exclude && u !in open
      invariant forall u :: u in recent ==> exists k :: k in a.files && k.unit == u && a.files[k].modified == recent[u]
      invariant forall k :: k in a.files && k !in left && k.unit != exclude && k.unit !in open ==>
        k.unit in recent && a.files[k].modified <= recent[k.unit]
      decreases left
    {
      var k :| k in left;
      left := left - {k};
      if k.unit != exclude && k.unit !in open && (k.unit !in recent || a.files[k].modified > recent[k.unit]) {
        recent := recent[k.unit := a.files[k].modified];
      }
    }
  }

  /** Byte order of names. */
  predicate Precedes(a: string, b: string) {
    b != "" && (a == "" || a[0] < b[0] || (a[0] == b[0] && Precedes(a[1..], b[1..])))
  }

  lemma {:induction false} PrecedesIsTotal(a: string, b: string)
    ensures !(Precedes(a, b) && Precedes(b, a))
    ensures a != b ==> Precedes(a, b) || Precedes(b, a)
  {
    if a != "" && b != "" && a[0] == b[0] {
      PrecedesIsTotal(a[1..], b[1..]);
      assert a == [a[0]] + a[1..] && b == [b[0]] + b[1..];
    }
  }

  /** The names agree up to `i`, where the first one ends or has the smaller byte. */
  lemma {:induction false} PrecedesMeans(a: string, b: string, i: nat)
    requires i <= |a| && i < |b| && a[..i] == b[..i] && (i == |a| || a[i] < b[i])
    ensures Precedes(a, b)
  {
    if i > 0 {
      assert a[0] == a[..i][0] == b[..i][0] == b[0];
      assert a[1..][..i - 1] == a[..i][1..] && b[1..][..i - 1] == b[..i][1..];
      PrecedesMeans(a[1..], b[1..], i - 1);
    }
  }

  lemma {:induction false} PrecedesChains(a: string, b: string, c: string)
    requires Precedes(a, b) && Precedes(b, c)
    ensures Precedes(a, c)
  {
    if a != "" && a[0] == b[0] && b[0] == c[0] { PrecedesChains(a[1..], b[1..], c[1..]); }
  }

  /** `u` goes before `w`: changed earlier, or at the same time with the smaller name. */
  predicate GoesFirst(recent: map<string, int>, u: string, w: string)
    requires u in recent && w in recent
  {
    recent[u] < recent[w] || (recent[u] == recent[w] && Precedes(u, w))
  }

  lemma {:induction false} GoesFirstChains(recent: map<string, int>, u: string, v: string, w: string)
    requires u in recent && v in recent && w in recent && GoesFirst(recent, u, v) && GoesFirst(recent, v, w)
    ensures GoesFirst(recent, u, w)
  {
    if recent[u] == recent[v] && recent[v] == recent[w] { PrecedesChains(u, v, w); }
  }

  /** The one unit that goes before all others. */
  method Oldest(recent: map<string, int>) returns (unit: Option<string>)
    ensures unit.None? <==> recent == map[]
    ensures unit.Some? ==> unit.value in recent
    ensures unit.Some? ==> forall u :: u in recent && u != unit.value ==> GoesFirst(recent, unit.value, u)
  {
    hide GoesFirst;
    unit := None;
    var left := recent.Keys;
    while left != {}
      invariant left <= recent.Keys
      invariant unit.Some? ==> unit.value in recent && unit.value !in left
      invariant unit.None? ==> left == recent.Keys
      invariant forall u :: u in recent && u !in left && unit.Some? && u != unit.value ==> GoesFirst(recent, unit.value, u)
      decreases left
    {
      var u :| u in left;
      left := left - {u};
      if unit.None? {
        unit := Some(u);
      } else {
        FirstOfTwo(recent, u, unit.value);
        if GoesFirst(recent, u, unit.value) {
          forall w | w in recent && w !in left && w != u ensures GoesFirst(recent, u, w) {
            if w != unit.value { GoesFirstChains(recent, u, unit.value, w); }
          }
          unit := Some(u);
        }
      }
    }
  }

  lemma {:induction false} FirstOfTwo(recent: map<string, int>, u: string, w: string)
    requires u in recent && w in recent && u != w
    ensures GoesFirst(recent, u, w) || GoesFirst(recent, w, u)
  {
    PrecedesIsTotal(u, w);
  }

  /** From `a` to `b`, files of one unit were removed. */
  ghost predicate Pruned(a: Account, b: Account, unit: string) {
    && b.files.Keys <= a.files.Keys
    && (forall k :: k in a.files && k.unit != unit ==> k in b.files)
    && (forall k :: k in b.files ==> b.files[k] == a.files[k])
  }

  /** How a reservation ended. The attempts run out only with more files than the index holds. */
  datatype Refusal = Reserved | BadSize | NoCurrentFile | NothingToPrune | PruningBusy | RemovalFailed | AttemptsUsedUp

  /** How one pruning ended. */
  datatype Pruning = Cleared(unit: string) | Stuck(unit: string) | NothingOld | Busy

  lemma {:induction false} OldestLeftLongest(a: Account, open: set<string>, exclude: string, recent: map<string, int>, unit: string)
    requires forall u :: u in recent <==> Historical(a, open, exclude, u)
    requires forall u :: u in recent ==> LastChanged(a, u, recent[u])
    requires unit in recent && forall u :: u in recent && u != unit ==> GoesFirst(recent, unit, u)
    ensures LeftLongest(a, open, exclude, unit)
  {
    hide Historical, Precedes;
    forall t, w, s | LastChanged(a, unit, t) && Historical(a, open, exclude, w) && LastChanged(a, w, s) && w != unit
      ensures t < s || (t == s && Precedes(unit, w))
    {
      assert w in recent && GoesFirst(recent, unit, w);
      ChangedOnce(a, unit, t, recent[unit]);
      ChangedOnce(a, w, s, recent[w]);
    }
  }

  lemma {:induction false} ChangedOnce(a: Account, unit: string, s: int, t: int)
    requires LastChanged(a, unit, s) && LastChanged(a, unit, t)
    ensures s == t
  {}

  lemma {:induction false} PrunedShrinks(a: Account, b: Account, open: set<string>, exclude: string, unit: string)
    requires Pruned(a, b, unit) && Historical(a, open, exclude, unit) && forall k :: k in b.files ==> k.unit != unit
    ensures |b.files| < |a.files|
  {
    var k :| k in a.files && k.unit == unit;
    SubsetSize(b.files.Keys, a.files.Keys - {k});
    assert |a.files| == |a.files.Keys| && |b.files| == |b.files.Keys|;
  }

  class Retention {
    const maxBytes: int
    const maxFiles: nat
    var disk: Account
    var open: set<string>

    constructor (maxBytes: int, maxFiles: nat)
      ensures Balanced(disk) && disk.files == map[] && open == {}
    {
      this.maxBytes, this.maxFiles, disk, open := maxBytes, maxFiles, Account(map[], 0), {};
    }

    /** `pruneHistoricalDisk`: the files of the unit left alone longest are removed, until a
        removal fails, as it does for the files in `stuck`. `busy` tells whether another pruning
        is under way. */
    method PruneHistorical(exclude: string, busy: bool, stuck: set<Key>) returns (end: Pruning)
      requires Balanced(disk)
      modifies this`disk
      ensures Balanced(disk)
      ensures end == Busy <==> busy
      ensures end == NothingOld <==> !busy && forall u :: !Historical(old(disk), open, exclude, u)
      ensures end in {Busy, NothingOld} ==> disk == old(disk)
      ensures end.Cleared? || end.Stuck? ==> Historical(old(disk), open, exclude, end.unit) && Pruned(old(disk), disk, end.unit)
      ensures end.Cleared? || end.Stuck? ==> LeftLongest(old(disk), open, exclude, end.unit)
      ensures end.Cleared? ==> forall k :: k in disk.files ==> k.unit != end.unit
      ensures end.Stuck? ==> exists k :: k in disk.files && k.unit == end.unit && k in stuck
      ensures forall k :: k in old(disk.files) && k in stuck ==> k in disk.files
    {
      hide Balanced, Pruned;
      if busy { return Busy; }
      var recent := Candidates(disk, open, exclude);
      var oldest := Oldest(recent);
      if oldest.None? { return NothingOld; }
      var victim := oldest.value;
      assert victim in recent && Historical(disk, open, exclude, victim);
      assert LeftLongest(disk, open, exclude, victim) by { OldestLeftLongest(disk, open, exclude, recent, victim); }
      hide LeftLongest, GoesFirst, Precedes, LastChanged, Historical;
      end := RemoveFiles(victim, stuck);
      assert Historical(old(disk), open, exclude, victim);
    }

    /** The files of one unit are removed until one cannot be. */
    method RemoveFiles(victim: string, stuck: set<Key>) returns (end: Pruning)
      requires Balanced(disk)
      modifies this`disk
      ensures Balanced(disk) && Pruned(old(disk), disk, victim)
      ensures end == Cleared(victim) || end == Stuck(victim)
      ensures end.Cleared? ==> forall k :: k in disk.files ==> k.unit != victim
      ensures end.Stuck? ==> exists k :: k in disk.files && k.unit == victim && k in stuck
      ensures forall k :: k in old(disk.files) && k in stuck ==> k in disk.files
    {
      hide Balanced;
      var names := set k | k in disk.files && k.unit == victim;
      while names != {}
        invariant Balanced(disk) && Pruned(old(disk), disk, victim)
        invariant forall k :: k in disk.files && k.unit == victim ==> k in names
        invariant forall k :: k in old(disk.files) && (k in stuck || k in names) ==> k in disk.files
        invariant names <= old(disk.files.Keys) && forall k :: k in names ==> k.unit == victim
        decreases names
      {
        var k :| k in names;
        names := names - {k};
        if k in stuck { return Stuck(victim); }
        ForgetBalanced(disk, k);
        disk := Forget(disk, k);
      }
      return Cleared(victim);
    }

    /** `reserveDisk`: bytes are charged to the unit's current file, if need be after pruning;
        otherwise `why` tells what stood in the way. The first `idle` prunings find no other one
        under way; files in `stuck` cannot be removed. */
    method ReserveDisk(unit: string, bytes: int, opening: bool, now: int, idle: nat, stuck: set<Key>) returns (why: Refusal)
      requires Balanced(disk)
      modifies this`disk
      ensures Balanced(disk)
      ensures why == Reserved ==> disk.bytes <= maxBytes
      ensures why == Reserved ==>
        Key(unit, 0) in disk.files && disk.files[Key(unit, 0)] == DiskFile(Size(old(disk), Key(unit, 0)) + bytes, now)
      ensures why == Reserved && Key(unit, 0) !in old(disk.files) ==> opening && |disk.files| <= maxFiles
      ensures why == Reserved ==> Spared(old(disk), Forget(disk, Key(unit, 0)), open + {unit}, Key(unit, 0))
      ensures why != Reserved ==>
        Spared(old(disk), disk, open + {unit}, Key(unit, 0)) && Size(disk, Key(unit, 0)) == Size(old(disk), Key(unit, 0))
      ensures why == BadSize <==> bytes < 0 || bytes > maxBytes
      ensures why == NoCurrentFile <==> !(bytes < 0 || bytes > maxBytes) && Key(unit, 0) !in old(disk.files) && !opening
      ensures why in {BadSize, NoCurrentFile} ==> disk == old(disk)
      ensures why == NothingToPrune ==>
        && (disk.bytes > maxBytes - bytes || (Key(unit, 0) !in disk.files && |disk.files| >= maxFiles))
        && forall u :: !Historical(disk, open, unit, u)
      ensures why in {RemovalFailed, PruningBusy} ==> !HasRoom(old(disk), unit, bytes)
      ensures why == PruningBusy ==> idle <= |old(disk.files)|
      ensures idle == 0 ==> why in {BadSize, NoCurrentFile, PruningBusy} || HasRoom(old(disk), unit, bytes)
      ensures why == RemovalFailed ==> exists k :: k in disk.files && k in stuck
      ensures forall k :: k in old(disk.files) && k in stuck ==> k in disk.files
      ensures why == AttemptsUsedUp ==> |old(disk.files)| > MAX_ATTEMPTS
      ensures
        why !in {BadSize, NoCurrentFile} && old(disk.bytes) + bytes <= maxBytes && (Key(unit, 0) in old(disk.files) || |old(disk.files)| < maxFiles)
        ==> why == Reserved
    {
      hide Balanced, Spared, Pruned, LeftLongest, Historical;
      var key := Key(unit, 0);
      SparedSelf(disk, open + {unit}, key);
      if bytes < 0 || bytes > maxBytes { return BadSize; }
      for attempts := 0 to MAX_ATTEMPTS + 1
        invariant Balanced(disk) && Spared(old(disk), disk, open + {unit}, key)
        invariant key in disk.files <==> key in old(disk.files)
        invariant Size(disk, key) == Size(old(disk), key)
        invariant |disk.files| + attempts <= |old(disk.files)|
        invariant attempts == 0 ==> disk == old(disk)
        invariant forall k :: k in old(disk.files) && k in stuck ==> k in disk.files
        invariant attempts <= idle
        invariant attempts > 0 ==> !HasRoom(old(disk), unit, bytes) && (key in disk.files || opening)
      {
        if key !in disk.files && !opening { return NoCurrentFile; }
        if disk.bytes <= maxBytes - bytes && (key in disk.files || |disk.files| < maxFiles) {
          var f := DiskFile(Size(disk, key) + bytes, now);
          PutBalanced(disk, key, f);
          Grows(disk.files, key, f);
          SparedOwn(old(disk), disk, open + {unit}, key, f);
          disk := Put(disk, key, f);
          return Reserved;
        }
        ghost var before := disk;
        var end := PruneHistorical(unit, attempts >= idle, stuck);
        if end == Busy { return PruningBusy; }
        if end == NothingOld { return NothingToPrune; }
        SparedMore(old(disk), before, disk, open, unit, end.unit);
        if end.Stuck? { return RemovalFailed; }
        PrunedShrinks(before, disk, open, unit, end.unit);
      }
      return AttemptsUsedUp;
    }

    ghost predicate HasRoom(a: Account, unit: string, bytes: int) {
      a.bytes <= maxBytes - bytes && (Key(unit, 0) in a.files || |a.files| < maxFiles)
    }

    /** `releaseDisk`. */
    method ReleaseDisk(unit: string, bytes: int)
      requires Balanced(disk)
      modifies this`disk
      ensures Balanced(disk) && disk.bytes == old(disk.bytes) - bytes
      ensures Size(disk, Key(unit, 0)) == Size(old(disk), Key(unit, 0)) - bytes
      ensures disk.files - {Key(unit, 0)} == old(disk.files) - {Key(unit, 0)}
    {
      hide Balanced;
      var k := Key(unit, 0);
      var f := DiskFile(Size(disk, k) - bytes, if k in disk.files then disk.files[k].modified else 0);
      PutBalanced(disk, k, f);
      disk := Put(disk, k, f);
    }

    /** `observeDisk`: the size found on opening replaces what was reserved. */
    method ObserveDisk(unit: string, size: int, now: int)
      requires Balanced(disk)
      modifies this`disk
      ensures Balanced(disk) && Key(unit, 0) in disk.files && disk.files[Key(unit, 0)] == DiskFile(size, now)
      ensures disk.files - {Key(unit, 0)} == old(disk.files) - {Key(unit, 0)}
    {
      hide Balanced;
      PutBalanced(disk, Key(unit, 0), DiskFile(size, now));
      disk := Put(disk, Key(unit, 0), DiskFile(size, now));
    }

    /** `rotatedDisk`. */
    method RotatedDisk(unit: string, step: nat, keep: nat, moved: bool)
      requires Balanced(disk)
      modifies this`disk
      ensures Balanced(disk) && disk == Rotated(old(disk), unit, step, keep, moved)
    {
      hide Balanced;
      RotatedBalanced(disk, unit, step, keep, moved);
      disk := Rotated(disk, unit, step, keep, moved);
    }

    /** Whatever the other units do meanwhile: open, close, reserve, prune, release, observe and
        rotate, in any order. */
    method OtherUnits(unit: string, steps: nat)
      requires Balanced(disk) && unit in open
      modifies this
      ensures Balanced(disk) && unit in open && SameUnit(old(disk), disk, unit)
    {
      hide Balanced, SameUnit, Spared, Rotated;
      SameUnitSelf(disk, unit);
      for i := 0 to steps
        invariant Balanced(disk) && unit in open && SameUnit(old(disk), disk, unit)
      {
        var w: string := *;
        if w != unit {
          var opens: bool := *;
          open := if opens then open + {w} else open - {w};
          label L:
          Elsewhere(unit, w);
          SameUnitChains(old(disk), old@L(disk), disk, unit);
        }
      }
    }

    /** One operation of the unit `w` on the accounts. */
    method Elsewhere(ghost unit: string, w: string)
      requires Balanced(disk) && unit in open && w != unit
      modifies this`disk
      ensures Balanced(disk) && SameUnit(old(disk), disk, unit)
    {
      hide Balanced, SameUnit, Spared, Rotated;
      SameUnitSelf(disk, unit);
      var bytes: int, now: int, opening: bool, step: nat, keep: nat, stuck: set<Key> := *, *, *, *, *, *;
      if
      case true =>
        var why := ReserveDisk(w, bytes, opening, now, step, stuck);
        ReservedElsewhere(old(disk), disk, open, w, unit, why == Reserved);
      case true =>
        ReleaseDisk(w, bytes);
        OwnEntryElsewhere(old(disk), disk, w, unit);
      case true =>
        ObserveDisk(w, bytes, now);
        OwnEntryElsewhere(old(disk), disk, w, unit);
      case true =>
        RotatedDisk(w, step, keep, opening);
        RotatedElsewhere(old(disk), w, step, keep, opening, unit);
    }
  }

  /* ---- What one unit's operations leave to another ---- */

  predicate SameAt(b: Account, c: Account, k: Key) {
    (k in c.files <==> k in b.files) && (k in c.files ==> c.files[k] == b.files[k])
  }

  /** The entries of the unit are the same. */
  ghost predicate SameUnit(b: Account, c: Account, unit: string) {
    forall k: Key :: k.unit == unit ==> SameAt(b, c, k)
  }

  lemma {:induction false} SameUnitSelf(a: Account, unit: string)
    ensures SameUnit(a, a, unit)
  {}

  lemma {:induction false} SameUnitChains(a: Account, b: Account, c: Account, unit: string)
    requires SameUnit(a, b, unit) && SameUnit(b, c, unit)
    ensures SameUnit(a, c, unit)
  {
    forall k: Key | k.unit == unit ensures SameAt(a, c, k) {
      assert SameAt(a, b, k) && SameAt(b, c, k);
    }
  }

  /** A reservation of `w`, with its pruning, spares every unit that is open. */
  lemma {:induction false} ReservedElsewhere(b: Account, c: Account, open: set<string>, w: string, unit: string, ok: bool)
    requires unit in open && w != unit
    requires if ok then Spared(b, Forget(c, Key(w, 0)), open + {w}, Key(w, 0)) else Spared(b, c, open + {w}, Key(w, 0))
    ensures SameUnit(b, c, unit)
  {
    var d := if ok then Forget(c, Key(w, 0)) else c;
    forall k: Key | k.unit == unit ensures SameAt(b, c, k) {
      assert k in c.files <==> k in d.files;
    }
  }

  lemma {:induction false} OwnEntryElsewhere(b: Account, c: Account, w: string, unit: string)
    requires w != unit && c.files - {Key(w, 0)} == b.files - {Key(w, 0)}
    ensures SameUnit(b, c, unit)
  {
    forall k: Key | k.unit == unit ensures SameAt(b, c, k) {
      assert k in c.files - {Key(w, 0)} <==> k in c.files;
      assert k in b.files - {Key(w, 0)} <==> k in b.files;
      if k in c.files { assert (c.files - {Key(w, 0)})[k] == (b.files - {Key(w, 0)})[k]; }
    }
  }

  lemma {:induction false} RotatedElsewhere(a: Account, w: string, step: nat, keep: nat, moved: bool, unit: string)
    requires w != unit
    ensures SameUnit(a, Rotated(a, w, step, keep, moved), unit)
  {}

  /** From `a` to `b` only files of units outside `safe` are gone; `own` is left aside. */
  ghost predicate Spared(a: Account, b: Account, safe: set<string>, own: Key) {
    && (forall k :: k in b.files && k != own ==> k in a.files && b.files[k] == a.files[k])
    && (forall k :: k in a.files && k != own && k !in b.files ==> k.unit !in safe)
    && (own in b.files ==> own in a.files && b.files[own] == a.files[own])
  }

  lemma {:induction false} Grows(files: map<Key, DiskFile>, k: Key, f: DiskFile)
    ensures |files[k := f]| == if k in files then |files| else |files| + 1
  {
    assert files[k := f].Keys == files.Keys + {k};
    assert |files[k := f]| == |files[k := f].Keys| && |files| == |files.Keys|;
    if k in files { assert files.Keys + {k} == files.Keys; }
  }

  lemma {:induction false} SparedSelf(a: Account, safe: set<string>, own: Key)
    ensures Spared(a, a, safe, own)
  {}

  lemma {:induction false} SparedOwn(a: Account, b: Account, safe: set<string>, own: Key, f: DiskFile)
    requires Spared(a, b, safe, own) && (own in b.files <==> own in a.files)
    ensures Spared(a, Forget(Put(b, own, f), own), safe, own)
    ensures Size(b, own) == Size(a, own)
  {}

  lemma {:induction false} SparedMore(a: Account, b: Account, c: Account, open: set<string>, unit: string, victim: string)
    requires Spared(a, b, open + {unit}, Key(unit, 0)) && Pruned(b, c, victim) && Historical(b, open, unit, victim)
    requires Key(unit, 0) in b.files <==> Key(unit, 0) in a.files
    ensures Spared(a, c, open + {unit}, Key(unit, 0)) && Size(c, Key(unit, 0)) == Size(a, Key(unit, 0))
    ensures Key(unit, 0) in c.files <==> Key(unit, 0) in a.files
  {}
}
