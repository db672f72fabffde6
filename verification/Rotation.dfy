/** The resumable rotation of a unit's journal: `rotateLocked` with its accounts.

The files of one unit are numbered by generation, zero the current one. Every native step may
fail any number of times; a failed step has no effect and a later call goes on from it. */
module Rotations {
  import opened Options
  import opened DiskAccounts
  import CS = CursorScans

  type File = CS.File

  /** The unit's files, by generation. */
  type Files = map<nat, File>

  /** The files after the steps from `keep` down to `step + 1`, given those at the start. After
      the last step, generation zero is the new file in the making. */
  ghost predicate Shifted(before: Files, now: Files, step: int, keep: nat) {
    forall i: nat :: i <= keep && (step == -1 ==> i > 0) ==> SameFile(now, i, Source(i, step), before)
  }

  /** Where the file that is now generation `i` was at the start: below the step nothing has
      moved yet, above it everything has moved once, and between them there is a gap. */
  function Source(i: nat, step: int): Option<nat> {
    if i <= step then Some(i) else if i == step + 1 || i == 0 then None else Some(i - 1)
  }

  predicate SameFile(now: Files, i: nat, source: Option<nat>, before: Files) {
    if source.None? then i !in now
    else (i in now <==> source.value in before) && (i in now ==> now[i] == before[source.value])
  }

  /** The unit's accounts after those steps: entries follow their files, and an entry whose file
      was missing when its step came is gone. */
  ghost predicate Charged(before: Account, files: Files, now: Account, unit: string, step: int, keep: nat) {
    forall i: nat :: i <= keep && (step == -1 ==> i > 0) ==> SameEntry(now, i, Source(i, step), before, files, unit, step)
  }

  predicate SameEntry(now: Account, i: nat, source: Option<nat>, before: Account, files: Files, unit: string, step: int) {
    if source.None? then Key(unit, i) !in now.files
    else if i > step && source.value !in files then Key(unit, i) !in now.files
    else
      && (Key(unit, i) in now.files <==> Key(unit, source.value) in before.files)
      && (Key(unit, i) in now.files ==> now.files[Key(unit, i)] == before.files[Key(unit, source.value)])
  }

  /** A native step that took effect. */
  function Moved(now: Files, step: nat, keep: nat): Files {
    if step == keep then now - {step}
    else if step in now then (now - {step})[step + 1 := now[step]]
    else now
  }

  lemma {:induction false} ShiftedStep(before: Files, now: Files, step: nat, keep: nat)
    requires Shifted(before, now, step, keep) && step <= keep
    ensures Shifted(before, Moved(now, step, keep), step - 1, keep)
  {
    var next, s := Moved(now, step, keep), step - 1;
    forall i: nat | i <= keep ensures SameFile(next, i, Source(i, s), before) {
      assert SameFile(now, i, Source(i, step), before);
      if i > 0 { assert SameFile(now, i - 1, Source(i - 1, step), before); }
    }
  }

  lemma {:induction false} ChargedStep(before: Account, files: Files, now: Account, gens: Files, unit: string, step: nat, keep: nat)
    requires Charged(before, files, now, unit, step, keep) && Shifted(files, gens, step, keep) && step <= keep
    ensures Charged(before, files, Rotated(now, unit, step, keep, step in gens), unit, step - 1, keep)
  {
    var next, s := Rotated(now, unit, step, keep, step in gens), step - 1;
    assert SameFile(gens, step, Source(step, step), files);
    forall i: nat | i <= keep ensures SameEntry(next, i, Source(i, s), before, files, unit, s) {
      assert SameEntry(now, i, Source(i, step), before, files, unit, step);
      if i > 0 { assert SameEntry(now, i - 1, Source(i - 1, step), before, files, unit, step); }
    }
  }

  /** A completed rotation moves every generation up by one, exactly once, and loses only the
      oldest. */
  ghost predicate RotatedOnce(before: Files, now: Files, keep: nat) {
    forall i: nat :: i < keep ==> OneUp(before, now, i)
  }

  predicate OneUp(before: Files, now: Files, i: nat) {
    (i + 1 in now <==> i in before) && (i in before ==> now[i + 1] == before[i])
  }

  /** The accounts of a completed rotation: the entry of every file that was there moved up
      with it, and entries of missing files are gone. */
  ghost predicate ChargedOnce(before: Account, files: Files, now: Account, unit: string, keep: nat) {
    forall i: nat :: i < keep ==> EntryUp(before, files, now, unit, i)
  }

  predicate EntryUp(before: Account, files: Files, now: Account, unit: string, i: nat) {
    if i !in files then Key(unit, i + 1) !in now.files
    else
      && (Key(unit, i + 1) in now.files <==> Key(unit, i) in before.files)
      && (Key(unit, i) in before.files ==> now.files[Key(unit, i + 1)] == before.files[Key(unit, i)])
  }

  lemma {:induction false} CompleteMeans(before: Files, now: Files, a: Account, b: Account, unit: string, keep: nat)
    requires Shifted(before, now, -1, keep) && Charged(a, before, b, unit, -1, keep)
    ensures RotatedOnce(before, now, keep) && ChargedOnce(a, before, b, unit, keep)
  {
    forall i: nat | i < keep ensures OneUp(before, now, i) && EntryUp(a, before, b, unit, i) {
      assert SameFile(now, i + 1, Source(i + 1, -1), before);
      assert SameEntry(b, i + 1, Source(i + 1, -1), a, before, unit, -1);
    }
  }

  lemma {:induction false} StartsShifted(gens: Files, a: Account, unit: string, keep: nat)
    ensures Shifted(gens, gens, keep, keep) && Charged(a, gens, a, unit, keep, keep)
  {}

  /** Once everything has moved, the current file and its entry may change. */
  lemma {:induction false} NewFile(before: Files, gens: Files, keep: nat, f: File)
    requires Shifted(before, gens, -1, keep)
    ensures Shifted(before, gens[0 := f], -1, keep)
  {
    forall i: nat | 0 < i <= keep ensures SameFile(gens[0 := f], i, Source(i, -1), before) {
      assert SameFile(gens, i, Source(i, -1), before);
    }
  }

  ghost predicate SameArchives(b: Account, c: Account, unit: string) {
    forall k: Key :: k.unit == unit && k.generation > 0 ==> SameAt(b, c, k)
  }

  lemma {:induction false} NewEntry(a: Account, files: Files, b: Account, c: Account, unit: string, keep: nat)
    requires Charged(a, files, b, unit, -1, keep) && SameArchives(b, c, unit)
    ensures Charged(a, files, c, unit, -1, keep)
  {
    forall i: nat | 0 < i <= keep ensures SameEntry(c, i, Source(i, -1), a, files, unit, -1) {
      assert SameEntry(b, i, Source(i, -1), a, files, unit, -1);
      assert SameAt(b, c, Key(unit, i));
    }
  }

  /** A reservation leaves the unit's archives alone. */
  lemma {:induction false} ReserveSpares(b: Account, c: Account, open: set<string>, unit: string, ok: bool)
    requires if ok then Spared(b, Forget(c, Key(unit, 0)), open + {unit}, Key(unit, 0)) else Spared(b, c, open + {unit}, Key(unit, 0))
    ensures SameArchives(b, c, unit)
  {
    var d := if ok then Forget(c, Key(unit, 0)) else c;
    forall k: Key | k.unit == unit && k.generation > 0 ensures SameAt(b, c, k) {
      assert k in c.files <==> k in d.files;
    }
  }

  lemma {:induction false} OwnEntryOnly(b: Account, c: Account, unit: string)
    requires c.files - {Key(unit, 0)} == b.files - {Key(unit, 0)}
    ensures SameArchives(b, c, unit)
  {
    forall k: Key | k.unit == unit && k.generation > 0 ensures SameAt(b, c, k) {
      assert k in c.files - {Key(unit, 0)} <==> k in c.files;
      assert k in b.files - {Key(unit, 0)} <==> k in b.files;
      if k in c.files { assert (c.files - {Key(unit, 0)})[k] == (b.files - {Key(unit, 0)})[k]; }
    }
  }

  /** What other units do to the accounts does not show in a rotation. */
  lemma {:induction false} ChargedMeanwhile(a: Account, files: Files, b: Account, c: Account, unit: string, step: int, keep: nat)
    requires Charged(a, files, b, unit, step, keep) && SameUnit(b, c, unit)
    ensures Charged(a, files, c, unit, step, keep)
  {
    forall i: nat | i <= keep && (step == -1 ==> i > 0) ensures SameEntry(c, i, Source(i, step), a, files, unit, step) {
      assert SameEntry(b, i, Source(i, step), a, files, unit, step);
      assert SameAt(b, c, Key(unit, i));
    }
  }

  lemma {:induction false} ChargedSince(a: Account, b: Account, files: Files, c: Account, unit: string, keep: nat)
    requires SameUnit(a, b, unit) && ChargedOnce(b, files, c, unit, keep)
    ensures ChargedOnce(a, files, c, unit, keep)
  {
    forall i: nat | i < keep ensures EntryUp(a, files, c, unit, i) {
      assert EntryUp(b, files, c, unit, i) && SameAt(a, b, Key(unit, i));
    }
  }

  /** How the native operations of one call end: closing the current file, the steps that fail,
      creating the new file and checking its end. */
  datatype Native = Native(closed: bool, failing: set<int>, created: bool, repaired: bool)

  ghost predicate AllWell(native: Native) {
    native.closed && native.failing == {} && native.created && native.repaired
  }

  ghost predicate Unhindered(native: Native, from: int) {
    forall i :: 0 <= i <= from ==> i !in native.failing
  }

  /** The steps from `from` on were done down to the first that fails, or all. */
  ghost predicate StopsAt(native: Native, from: int, step: int) {
    && -1 <= step <= from && (forall i :: step < i <= from ==> i !in native.failing)
    && (step >= 0 ==> step in native.failing)
  }

  ghost predicate Completes(native: Native, why: Option<Refusal>) {
    why == Some(Reserved) && native.created && native.repaired
  }

  class UnitFile {
    const unit: string
    const keep: nat
    const retention: Retention
    var gens: Files
    var rotating: bool
    var step: int
    ghost var before: Files
    ghost var charged: Account

    constructor (unit: string, keep: nat, retention: Retention, gens: Files)
      requires keep > 0 && Balanced(retention.disk) && unit in retention.open
      ensures Valid() && !rotating && this.gens == gens && this.retention == retention
    {
      this.unit, this.keep, this.retention, this.gens := unit, keep, retention, gens;
      rotating, step := false, -1;
    }

    /** The files and the accounts are at the step the rotation has reached. */
    ghost predicate Valid()
      reads this, retention
    {
      && keep > 0 && Balanced(retention.disk) && unit in retention.open
      && (rotating ==>
            && -1 <= step <= keep
            && Shifted(before, gens, step, keep)
            && Charged(charged, before, retention.disk, unit, step, keep)
            && (step == -1 && 0 in gens ==> gens[0] == []))
    }

    /** The other units go on with their files and accounts. */
    method Meanwhile()
      requires Valid()
      modifies retention
      ensures Valid() && SameUnit(old(retention.disk), retention.disk, unit)
    {
      hide Shifted, Charged, Balanced, SameUnit;
      var steps: nat := *;
      retention.OtherUnits(unit, steps);
      if rotating { ChargedMeanwhile(charged, before, old(retention.disk), retention.disk, unit, step, keep); }
    }

    /** `rotateLocked`: starts a rotation or resumes the failed step of one. */
    method Rotate(now: int, native: Native) returns (ok: bool, why: Option<Refusal>)
      requires Valid()
      modifies this, retention
      ensures Valid() && before == (if old(rotating) then old(before) else if rotating || ok then old(gens) else old(before))
      ensures !old(rotating) && (rotating || ok) ==> charged == old(retention.disk)
      ensures !old(rotating) && !rotating && !ok ==> gens == old(gens) && retention.disk == old(retention.disk)
      ensures old(rotating) ==> charged == old(charged)
      ensures rotating <==> !ok && (old(rotating) || native.closed)
      ensures ok <==> why == Some(Reserved) && native.created && native.repaired
      ensures why.Some? <==> (old(rotating) || native.closed) && Unhindered(native, if old(rotating) then old(step) else keep)
      ensures rotating ==> StopsAt(native, if old(rotating) then old(step) else keep, step)
      ensures ok ==> !rotating && 0 in gens && gens[0] == [] && RotatedOnce(before, gens, keep)
      ensures ok ==> ChargedOnce(charged, before, retention.disk, unit, keep)
      ensures ok ==> Key(unit, 0) in retention.disk.files && retention.disk.files[Key(unit, 0)] == DiskFile(0, now)
    {
      hide Shifted, Charged, Balanced;
      if !rotating {
        if !native.closed { return false, None; }
        StartsShifted(gens, retention.disk, unit, keep);
        rotating, step, before, charged := true, keep, gens, retention.disk;
      }
      ok := Shift(native);
      if !ok { return false, None; }
      CompleteMeans(before, gens, charged, retention.disk, unit, keep);
      var end := Open(now, native.created, native.repaired);
      why := Some(end);
      CompleteMeans(before, gens, charged, retention.disk, unit, keep);
      ok := end == Reserved && native.created && native.repaired;
      if ok { rotating := false; }
    }

    /** However often steps fail and are tried again, and whatever the other units do in between,
        the files move up exactly once; and only a failing operation or a refused reservation in
        every attempt keeps the rotation from completing. */
    method RotateWithRetries(now: int, natives: seq<Native>) returns (ok: bool, whys: seq<Option<Refusal>>)
      requires Valid() && !rotating
      modifies this, retention
      ensures Valid() && (ok ==> !rotating && 0 in gens && gens[0] == [])
      ensures ok ==> RotatedOnce(old(gens), gens, keep)
      ensures ok ==> ChargedOnce(old(retention.disk), old(gens), retention.disk, unit, keep)
      ensures |whys| <= |natives| && (ok <==> whys != [] && Completes(natives[|whys| - 1], whys[|whys| - 1]))
      ensures !ok ==> |whys| == |natives|
      ensures forall i :: 0 <= i < |whys| - 1 ==> !Completes(natives[i], whys[i])
      ensures forall i :: 0 <= i < |whys| && AllWell(natives[i]) ==> whys[i].Some?
    {
      hide RotatedOnce, ChargedOnce, Shifted, Charged, Balanced, SameUnit;
      SameUnitSelf(retention.disk, unit);
      whys := [];
      for i := 0 to |natives|
        invariant Valid() && |whys| == i
        invariant rotating ==> before == old(gens) && SameUnit(old(retention.disk), charged, unit)
        invariant !rotating ==> gens == old(gens) && SameUnit(old(retention.disk), retention.disk, unit)
        invariant forall k :: 0 <= k < i ==> !Completes(natives[k], whys[k])
        invariant forall k :: 0 <= k < i && AllWell(natives[k]) ==> whys[k].Some?
      {
        ghost var was := retention.disk;
        Meanwhile();
        if !rotating { SameUnitChains(old(retention.disk), was, retention.disk, unit); }
        var why;
        ok, why := Rotate(now + i, natives[i]);
        whys := whys + [why];
        if ok {
          ChargedSince(old(retention.disk), charged, old(gens), retention.disk, unit, keep);
          return;
        }
      }
      ok := false;
    }

    /** The steps from the one reached down to the last; each native operation succeeds, finds
        nothing to move, or fails without effect. */
    method Shift(native: Native) returns (ok: bool)
      requires Valid() && rotating
      modifies this`gens, this`step, retention
      ensures Valid() && StopsAt(native, old(step), step)
      ensures ok <==> Unhindered(native, old(step))
    {
      hide Shifted, Charged, Balanced;
      while step >= 0
        invariant Valid() && step <= old(step)
        invariant forall i :: step < i <= old(step) ==> i !in native.failing
        decreases step
      {
        Meanwhile();
        if step in native.failing { return false; }
        var moved := step in gens;
        ShiftedStep(before, gens, step, keep);
        ChargedStep(charged, before, retention.disk, gens, unit, step, keep);
        gens := Moved(gens, step, keep);
        retention.RotatedDisk(unit, step, keep, moved);
        step := step - 1;
      }
      return true;
    }

    /** `openLocked` after the last step: a new current file with its reservation. A file that
        could not be created gives the reservation back; one that could not be repaired keeps it. */
    method Open(now: int, created: bool, repaired: bool) returns (why: Refusal)
      requires Valid() && rotating && step == -1
      modifies this`gens, retention
      ensures Valid() && why != NoCurrentFile && (why == BadSize <==> retention.maxBytes < 1)
      ensures gens == if why == Reserved && created then old(gens)[0 := []] else old(gens)
      ensures why == Reserved && created && repaired ==>
        Key(unit, 0) in retention.disk.files && retention.disk.files[Key(unit, 0)] == DiskFile(0, now)
      ensures !(why == Reserved && created && repaired) ==>
        Size(retention.disk, Key(unit, 0)) == Size(old(retention.disk), Key(unit, 0)) + if why == Reserved && created then 1 else 0
    {
      hide Shifted, Charged, Balanced, Spared, SameArchives;
      ghost var b := retention.disk;
      var idle: nat, stuck: set<Key> := *, *;
      why := retention.ReserveDisk(unit, 1, true, now, idle, stuck);
      ReserveSpares(b, retention.disk, retention.open, unit, why == Reserved);
      NewEntry(charged, before, b, retention.disk, unit, keep);
      if why != Reserved { return; }
      b := retention.disk;
      Meanwhile();
      assert SameAt(b, retention.disk, Key(unit, 0));
      b := retention.disk;
      if !created {
        retention.ReleaseDisk(unit, 1);
        OwnEntryOnly(b, retention.disk, unit);
        NewEntry(charged, before, b, retention.disk, unit, keep);
        return;
      }
      NewFile(before, gens, keep, []);
      gens := gens[0 := []];
      if !repaired { return; }
      retention.ObserveDisk(unit, 0, now);
      OwnEntryOnly(b, retention.disk, unit);
      NewEntry(charged, before, b, retention.disk, unit, keep);
    }
  }

  /* ---- What a reader sees of a rotation ---- */

  function Content(gens: Files, i: nat): File {
    if i in gens then gens[i] else []
  }

  /** The store a cursor scan reads: archives from the oldest on, then the current file. */
  function StoreOf(gens: Files, keep: nat): CS.Store {
    CS.Store(seq(keep, j requires 0 <= j < keep => Content(gens, keep - j)), Content(gens, 0))
  }

  /** A completed rotation regroups the journal and loses the oldest generation, which is what
      cursors are proved to survive. */
  lemma {:induction false} RotationIsRegrouping(before: Files, now: Files, keep: nat)
    requires keep > 0 && RotatedOnce(before, now, keep) && 0 in now && now[0] == []
    ensures StoreOf(now, keep).archives == StoreOf(before, keep).archives[1..] + [StoreOf(before, keep).current]
    ensures StoreOf(now, keep).current == []
  {
    var was := StoreOf(before, keep);
    var a, b := StoreOf(now, keep).archives, was.archives[1..] + [was.current];
    forall j | 0 <= j < keep ensures a[j] == b[j] {
      var i: nat := keep - j - 1;
      assert OneUp(before, now, i);
      assert a[j] == Content(now, i + 1);
      assert b[j] == Content(before, i) by {
        if j < keep - 1 { assert b[j] == was.archives[j + 1]; }
      }
    }
  }
}
