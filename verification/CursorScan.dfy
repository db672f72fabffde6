/** Reading the journal page by page: `scan`, its archive skipping and its cursors.

An entry's `digest` stands for the hash of its content and `size` for its encoded length;
both are arbitrary, so equal entries and colliding hashes are covered. A timestamp of zero
is a record without one. A missing file is an empty one. */
module CursorScans {
  import opened Options
  import Names

  datatype Entry = Entry(unit: string, ts: nat, digest: nat, size: nat, text: string)

  datatype Line = Blank | Undecodable | Record(entry: Entry)

  type File = seq<Line>

  /** The journal files of a unit: archives from the oldest generation on, then the current file. */
  datatype Store = Store(archives: seq<File>, current: File)

  datatype Id = Id(ts: nat, digest: nat)

  /** A position in the journal: after the `n`-th entry with this id. */
  datatype Cursor = Cursor(id: Id, n: int)

  /** A query, apart from its cursor. A budget of zero is unlimited; `since` zero is no bound. */
  datatype Query = Query(unit: string, since: nat, budget: nat)

  /** An entry on its way through the scan. */
  datatype Item = Item(entry: Entry, archived: bool)

  datatype Outcome = Running | Full | Oversized

  datatype Scan = Scan(out: seq<Entry>, used: nat, next: Option<Cursor>, past: bool, seen: map<Id, nat>, outcome: Outcome)

  function IdOf(e: Entry): Id {
    Id(e.ts, e.digest)
  }

  function CursorTime(c: Option<Cursor>): nat {
    if c.Some? then c.value.id.ts else 0
  }

  function Get(m: map<Id, nat>, id: Id): nat {
    if id in m then m[id] else 0
  }

  /* ---- One record ---- */

  predicate Wanted(q: Query, e: Entry) {
    e.unit == q.unit && e.ts >= q.since
  }

  /** Stamped before the cursor; an unstamped record or cursor never is. */
  ghost predicate Earlier(ts: nat, cursorTime: nat) {
    ts != 0 && ts < cursorTime
  }

  /** Whether the cursor is behind us once this record, of which `seen` copies were met, is read. */
  ghost function Passed(c: Cursor, item: Item, seen: nat): (past: bool) {
    if IdOf(item.entry) == c.id then seen >= c.n
    else item.archived && item.entry.ts != 0 && item.entry.ts > c.id.ts
  }

  /** The cursor's own record is not repeated. */
  ghost predicate Included(c: Cursor, item: Item, seen: nat) {
    Passed(c, item, seen) && !(IdOf(item.entry) == c.id && seen <= c.n)
  }

  ghost function Read(q: Query, c: Option<Cursor>, s: Scan, item: Item): Scan {
    var e := item.entry;
    if s.outcome != Running || (!s.past && Earlier(e.ts, CursorTime(c))) then s else
    var n := Get(s.seen, IdOf(e)) + 1;
    var s1 := s.(seen := s.seen[IdOf(e) := n]);
    if !s.past && c.Some? && !Included(c.value, item, n) then s1.(past := Passed(c.value, item, n))
    else Emit(q, s1.(past := true), e, n)
  }

  ghost function Emit(q: Query, s: Scan, e: Entry, n: nat): Scan {
    if q.budget > 0 && s.used + e.size + 1 > q.budget
    then s.(outcome := if s.out == [] then Oversized else Full)
    else s.(used := s.used + e.size + 1, out := s.out + [e], next := Some(Cursor(IdOf(e), n)))
  }

  ghost function ReadAll(q: Query, c: Option<Cursor>, s: Scan, items: seq<Item>): Scan {
    if items == [] then s else Read(q, c, ReadAll(q, c, s, items[..|items| - 1]), items[|items| - 1])
  }

  function Begin(c: Option<Cursor>): Scan {
    Scan([], 0, c, c.None?, map[], Running)
  }

  /* ---- What a store shows ---- */

  /** The wanted records of a file. */
  ghost function Shown(q: Query, f: File, archived: bool): seq<Item> {
    if f == [] then [] else
    var l := f[|f| - 1];
    Shown(q, f[..|f| - 1], archived) + if l.Record? && Wanted(q, l.entry) then [Item(l.entry, archived)] else []
  }

  ghost function ShownArchives(q: Query, archives: seq<File>): seq<Item> {
    if archives == [] then [] else
    ShownArchives(q, archives[..|archives| - 1]) + Shown(q, archives[|archives| - 1], true)
  }

  /** Everything the query can return, in file order. */
  ghost function Journal(q: Query, st: Store): seq<Item> {
    ShownArchives(q, st.archives) + Shown(q, st.current, false)
  }

  /** The stamp of the last line that is not blank, zero when that line is no record. */
  ghost function LastStamp(f: File): nat {
    if f == [] then 0 else
    match f[|f| - 1]
    case Blank => LastStamp(f[..|f| - 1])
    case Undecodable => 0
    case Record(e) => e.ts
  }

  ghost predicate Skips(f: File, cursorTime: nat) {
    cursorTime != 0 && LastStamp(f) != 0 && LastStamp(f) < cursorTime
  }

  /** The same, without the archives the scan does not open. */
  ghost function OpenedArchives(q: Query, archives: seq<File>, cursorTime: nat): seq<Item> {
    if archives == [] then [] else
    var f := archives[|archives| - 1];
    OpenedArchives(q, archives[..|archives| - 1], cursorTime) + if Skips(f, cursorTime) then [] else Shown(q, f, true)
  }

  ghost function Opened(q: Query, st: Store, cursorTime: nat): seq<Item> {
    OpenedArchives(q, st.archives, cursorTime) + Shown(q, st.current, false)
  }

  /** What one call of the scan computes. */
  ghost function Page(q: Query, c: Option<Cursor>, st: Store): Scan {
    ReadAll(q, c, Begin(c), Opened(q, st, CursorTime(c)))
  }

  /* ---- The scan ---- */

  method PeekLastTimestamp(f: File) returns (ts: nat)
    ensures ts == LastStamp(f)
  {
    var n: nat := |f|;
    assert f[..n] == f;
    while n > 0 && f[n - 1].Blank?
      invariant n <= |f|
      invariant LastStamp(f) == LastStamp(f[..n])
    {
      n := n - 1;
      assert f[..n + 1][..n] == f[..n];
    }
    if n == 0 || f[n - 1].Undecodable? { return 0; }
    return f[n - 1].entry.ts;
  }

  /** The loop body of the scan, for a wanted record. */
  method ReadEntry(q: Query, c: Option<Cursor>, s: Scan, e: Entry, archived: bool) returns (r: Scan)
    requires s.outcome == Running && (c.None? ==> s.past)
    ensures r == Read(q, c, s, Item(e, archived))
  {
    var past := s.past;
    var cursorTime := CursorTime(c);
    if !past && cursorTime != 0 && e.ts != 0 && e.ts < cursorTime { return s; }
    var id := IdOf(e);
    var seen: map<Id, nat> := s.seen[id := Get(s.seen, id) + 1];
    if !past {
      if id == c.value.id {
        if seen[id] <= c.value.n {
          return s.(seen := seen, past := seen[id] == c.value.n);
        }
        past := true;
      } else if archived && e.ts != 0 && e.ts > cursorTime {
        past := true;
      } else {
        return s.(seen := seen);
      }
    }
    if q.budget > 0 && s.used + e.size + 1 > q.budget {
      return s.(seen := seen, past := past, outcome := if s.out == [] then Oversized else Full);
    }
    return s.(seen := seen, past := past, used := s.used + e.size + 1, out := s.out + [e],
              next := Some(Cursor(id, seen[id])));
  }

  method ScanFile(q: Query, c: Option<Cursor>, f: File, archived: bool, before: Scan) returns (s: Scan)
    requires before.outcome == Running && (c.None? ==> before.past)
    ensures s == ReadAll(q, c, before, Shown(q, f, archived))
    ensures c.None? ==> s.past
  {
    hide Read, Shown;
    assert Shown(q, f[..0], archived) == [] by { ShownNone(q, f[..0], archived); }
    s := before;
    for i := 0 to |f|
      invariant s == ReadAll(q, c, before, Shown(q, f[..i], archived))
      invariant s.outcome == Running && (c.None? ==> s.past)
    {
      ShownNext(q, f, archived, i);
      if f[i].Record? && Wanted(q, f[i].entry) {
        ReadNext(q, c, before, Shown(q, f[..i], archived), Item(f[i].entry, archived));
        PastStays(q, c, s, Item(f[i].entry, archived));
        s := ReadEntry(q, c, s, f[i].entry, archived);
        if s.outcome != Running {
          Stopped(q, c, before, f, archived, i + 1);
          return;
        }
      }
    }
    assert f[..|f|] == f;
  }

  lemma {:induction false} ShownNone(q: Query, f: File, archived: bool)
    ensures f == [] ==> Shown(q, f, archived) == []
  {}

  lemma {:induction false} ShownNext(q: Query, f: File, archived: bool, i: nat)
    requires i < |f|
    ensures Shown(q, f[..i + 1], archived) == if f[i].Record? && Wanted(q, f[i].entry)
      then Shown(q, f[..i], archived) + [Item(f[i].entry, archived)] else Shown(q, f[..i], archived)
  {
    assert f[..i + 1][..i] == f[..i];
  }

  lemma {:induction false} OpenedNext(q: Query, archives: seq<File>, i: nat, t: nat)
    requires i < |archives|
    ensures OpenedArchives(q, archives[..i + 1], t) == if Skips(archives[i], t)
      then OpenedArchives(q, archives[..i], t) else OpenedArchives(q, archives[..i], t) + Shown(q, archives[i], true)
  {
    assert archives[..i + 1][..i] == archives[..i];
  }

  lemma {:induction false} PastStays(q: Query, c: Option<Cursor>, s: Scan, item: Item)
    ensures s.past ==> Read(q, c, s, item).past
  {}

  /** `scan`: archives from the oldest on, unless skipped, then the current file. The page
      is `s.out`, the cursor to continue from is `s.next`; `Full` is "more", `Oversized` the
      budget error. */
  method ScanStore(q: Query, c: Option<Cursor>, st: Store) returns (s: Scan)
    ensures s == Page(q, c, st)
  {
    hide Read, Shown, LastStamp;
    var cursorTime := CursorTime(c);
    var archives := st.archives;
    s := Begin(c);
    for i := 0 to |archives|
      invariant s == ReadAll(q, c, Begin(c), OpenedArchives(q, archives[..i], cursorTime))
      invariant s.outcome == Running && (c.None? ==> s.past)
    {
      OpenedNext(q, archives, i, cursorTime);
      var last := PeekLastTimestamp(archives[i]);
      if cursorTime == 0 || last == 0 || last >= cursorTime {
        ReadConcat(q, c, Begin(c), OpenedArchives(q, archives[..i], cursorTime), Shown(q, archives[i], true));
        s := ScanFile(q, c, archives[i], true, s);
        if s.outcome != Running {
          StoppedArchives(q, c, st, i + 1);
          return;
        }
      }
    }
    assert archives[..|archives|] == archives;
    ReadConcat(q, c, Begin(c), OpenedArchives(q, archives, cursorTime), Shown(q, st.current, false));
    s := ScanFile(q, c, st.current, false, s);
  }

  lemma {:induction false} ReadConcat(q: Query, c: Option<Cursor>, s: Scan, a: seq<Item>, b: seq<Item>)
    ensures ReadAll(q, c, s, a + b) == ReadAll(q, c, ReadAll(q, c, s, a), b)
    ensures ReadAll(q, c, s, a).outcome != Running ==> ReadAll(q, c, s, a + b) == ReadAll(q, c, s, a)
  {
    hide Emit, Included, Passed;
    if b == [] {
      assert a + b == a;
    } else {
      ReadConcat(q, c, s, a, b[..|b| - 1]);
      assert (a + b)[..|a + b| - 1] == a + b[..|b| - 1];
    }
  }

  lemma {:induction false} StoppedArchives(q: Query, c: Option<Cursor>, st: Store, i: nat)
    requires i <= |st.archives|
    requires ReadAll(q, c, Begin(c), OpenedArchives(q, st.archives[..i], CursorTime(c))).outcome != Running
    ensures ReadAll(q, c, Begin(c), Opened(q, st, CursorTime(c))) ==
            ReadAll(q, c, Begin(c), OpenedArchives(q, st.archives[..i], CursorTime(c)))
  {
    hide OpenedArchives, Shown, ReadAll, Begin;
    var t := CursorTime(c);
    var rest := OpenedSplit(q, st.archives, i, t);
    var a := OpenedArchives(q, st.archives[..i], t);
    ReadConcat(q, c, Begin(c), a, rest + Shown(q, st.current, false));
    assert Opened(q, st, t) == a + (rest + Shown(q, st.current, false));
  }

  lemma {:induction false} OpenedSplit(q: Query, archives: seq<File>, i: nat, t: nat) returns (rest: seq<Item>)
    requires i <= |archives|
    ensures OpenedArchives(q, archives, t) == OpenedArchives(q, archives[..i], t) + rest
    decreases |archives|
  {
    if i == |archives| {
      assert archives[..i] == archives;
      rest := [];
    } else {
      var init := archives[..|archives| - 1];
      var before := OpenedSplit(q, init, i, t);
      assert init[..i] == archives[..i];
      var f := archives[|archives| - 1];
      rest := before + if Skips(f, t) then [] else Shown(q, f, true);
    }
  }

  lemma {:induction false} ReadNext(q: Query, c: Option<Cursor>, s: Scan, items: seq<Item>, item: Item)
    ensures ReadAll(q, c, s, items + [item]) == Read(q, c, ReadAll(q, c, s, items), item)
  {
    assert (items + [item])[..|items|] == items;
  }

  /** Nothing after a full page is read. */
  lemma {:induction false} Stopped(q: Query, c: Option<Cursor>, s: Scan, f: File, archived: bool, i: nat)
    requires i <= |f| && ReadAll(q, c, s, Shown(q, f[..i], archived)).outcome != Running
    ensures ReadAll(q, c, s, Shown(q, f, archived)) == ReadAll(q, c, s, Shown(q, f[..i], archived))
    decreases |f|
  {
    if i == |f| {
      assert f[..i] == f;
    } else {
      var init := f[..|f| - 1];
      assert init[..i] == f[..i];
      Stopped(q, c, s, init, archived, i);
      var l := f[|f| - 1];
      if l.Record? && Wanted(q, l.entry) {
        ReadNext(q, c, s, Shown(q, init, archived), Item(l.entry, archived));
      } else {
        assert Shown(q, f, archived) == Shown(q, init, archived);
      }
    }
  }

  /* ---- Archive skipping does not change the result ---- */

  /** Archived records carry stamps that nothing after them precedes. */
  ghost predicate ArchivesInOrder(items: seq<Item>) {
    forall i, j :: 0 <= i < j < |items| && items[i].archived ==> items[i].entry.ts != 0 && items[i].entry.ts <= items[j].entry.ts
  }

  /** No wanted record of a file is stamped after its last line. */
  ghost predicate EndsLast(q: Query, f: File) {
    LastStamp(f) != 0 ==>
      forall i :: 0 <= i < |Shown(q, f, true)| ==> 0 < Shown(q, f, true)[i].entry.ts <= LastStamp(f)
  }

  ghost predicate InOrder(q: Query, st: Store) {
    && ArchivesInOrder(Journal(q, st))
    && forall i :: 0 <= i < |st.archives| ==> EndsLast(q, st.archives[i])
  }

  ghost predicate AllEarlier(items: seq<Item>, t: nat) {
    forall i :: 0 <= i < |items| ==> Earlier(items[i].entry.ts, t)
  }

  lemma {:induction false} EarlierUnread(q: Query, c: Option<Cursor>, items: seq<Item>)
    requires c.Some? && AllEarlier(items, CursorTime(c))
    ensures ReadAll(q, c, Begin(c), items) == Begin(c)
  {
    if items != [] {
      EarlierUnread(q, c, items[..|items| - 1]);
    }
  }

  lemma {:induction false} OrderedFront(a: seq<Item>, b: seq<Item>)
    requires ArchivesInOrder(a + b)
    ensures ArchivesInOrder(a)
    ensures b != [] ==> forall i :: 0 <= i < |a| && a[i].archived ==> 0 < a[i].entry.ts <= b[0].entry.ts
  {
    var ab := a + b;
    assert forall i :: 0 <= i < |a| ==> ab[i] == a[i];
    assert b != [] ==> ab[|a|] == b[0];
  }

  /** Archives: opening all of them or only those not skipped is the same. */
  lemma {:induction false} SkippedArchives(q: Query, c: Option<Cursor>, archives: seq<File>)
    requires ArchivesInOrder(ShownArchives(q, archives))
    requires forall i :: 0 <= i < |archives| ==> EndsLast(q, archives[i])
    ensures ReadAll(q, c, Begin(c), OpenedArchives(q, archives, CursorTime(c))) ==
            ReadAll(q, c, Begin(c), ShownArchives(q, archives))
  {
    hide EndsLast, ArchivesInOrder, Shown, ReadAll, LastStamp;
    if archives != [] {
      var t := CursorTime(c);
      var init, f := archives[..|archives| - 1], archives[|archives| - 1];
      var a, b := ShownArchives(q, init), Shown(q, f, true);
      OrderedFront(a, b);
      SkippedArchives(q, c, init);
      ReadConcat(q, c, Begin(c), a, b);
      ReadConcat(q, c, Begin(c), OpenedArchives(q, init, t), b);
      if Skips(f, t) {
        assert OpenedArchives(q, archives, t) == OpenedArchives(q, init, t);
        AllArchived(q, init);
        SkippedFile(q, c, a, f);
      }
    }
  }

  /** A skipped archive holds nothing the scan would have noticed. */
  lemma {:induction false} SkippedFile(q: Query, c: Option<Cursor>, a: seq<Item>, f: File)
    requires Skips(f, CursorTime(c)) && EndsLast(q, f) && ArchivesInOrder(a + Shown(q, f, true))
    requires forall i :: 0 <= i < |a| ==> a[i].archived
    ensures ReadAll(q, c, Begin(c), a + Shown(q, f, true)) == ReadAll(q, c, Begin(c), a)
  {
    hide ReadAll;
    var b := Shown(q, f, true);
    if b == [] {
      assert a + b == a;
    } else {
      OrderedFront(a, b);
      EarlierUnread(q, c, a);
      EarlierUnread(q, c, a + b);
    }
  }

  lemma {:induction false} AllArchived(q: Query, archives: seq<File>)
    ensures forall i :: 0 <= i < |ShownArchives(q, archives)| ==> ShownArchives(q, archives)[i].archived
  {
    if archives != [] {
      AllArchived(q, archives[..|archives| - 1]);
      Archived(q, archives[|archives| - 1], true);
    }
  }

  lemma {:induction false} Archived(q: Query, f: File, archived: bool)
    ensures forall i :: 0 <= i < |Shown(q, f, archived)| ==> Shown(q, f, archived)[i].archived == archived
  {
    if f != [] {
      Archived(q, f[..|f| - 1], archived);
    }
  }

  lemma {:induction false} SkippingIsSound(q: Query, c: Option<Cursor>, st: Store)
    requires InOrder(q, st)
    ensures ReadAll(q, c, Begin(c), Opened(q, st, CursorTime(c))) == ReadAll(q, c, Begin(c), Journal(q, st))
  {
    var a, b := ShownArchives(q, st.archives), Shown(q, st.current, false);
    OrderedFront(a, b);
    SkippedArchives(q, c, st.archives);
    ReadConcat(q, c, Begin(c), a, b);
    ReadConcat(q, c, Begin(c), OpenedArchives(q, st.archives, CursorTime(c)), b);
  }

  /* ---- Positions ---- */

  ghost function Entries(items: seq<Item>): (r: seq<Entry>)
    ensures |r| == |items| && forall i :: 0 <= i < |r| ==> r[i] == items[i].entry
  {
    if items == [] then [] else Entries(items[..|items| - 1]) + [items[|items| - 1].entry]
  }

  ghost function Count(s: seq<Entry>, id: Id): nat {
    if s == [] then 0 else Count(s[..|s| - 1], id) + if IdOf(s[|s| - 1]) == id then 1 else 0
  }

  /** The cursor that stands after the first `k` entries. */
  ghost function At(s: seq<Entry>, k: nat): Option<Cursor>
    requires k <= |s|
  {
    if k == 0 then None else Some(Cursor(IdOf(s[k - 1]), Count(s[..k], IdOf(s[k - 1]))))
  }

  ghost function Cost(s: seq<Entry>): nat {
    if s == [] then 0 else Cost(s[..|s| - 1]) + s[|s| - 1].size + 1
  }

  ghost predicate Fits(q: Query, s: seq<Entry>) {
    q.budget == 0 || Cost(s) <= q.budget
  }

  lemma {:induction false} CountNext(s: seq<Entry>, k: nat, id: Id)
    requires k < |s|
    ensures Count(s[..k + 1], id) == Count(s[..k], id) + if IdOf(s[k]) == id then 1 else 0
  {
    assert s[..k + 1][..k] == s[..k];
  }

  lemma {:induction false} CountGrows(s: seq<Entry>, i: nat, j: nat, id: Id)
    requires i <= j <= |s|
    ensures Count(s[..i], id) <= Count(s[..j], id)
    ensures i < j && IdOf(s[j - 1]) == id ==> Count(s[..i], id) < Count(s[..j], id)
    decreases j
  {
    if i < j {
      CountGrows(s, i, j - 1, id);
      CountNext(s, j - 1, id);
    }
  }

  /* ---- Looking for the cursor ---- */

  /** The scan has read `j` entries and not reached its cursor. */
  ghost predicate Searching(v: seq<Entry>, c: Option<Cursor>, j: nat, s: Scan)
    requires j <= |v|
  {
    && s.out == [] && s.used == 0 && s.next == c && !s.past && s.outcome == Running
    && forall id :: Get(s.seen, id) == if Earlier(id.ts, CursorTime(c)) then 0 else Count(v[..j], id)
  }

  /** The scan has read `j` entries and returned those from `k` on. */
  ghost predicate Paging(v: seq<Entry>, c: Option<Cursor>, k: nat, j: nat, s: Scan)
    requires k <= j <= |v|
  {
    && s.past && s.outcome == Running && s.out == v[k..j] && s.used == Cost(v[k..j])
    && (forall id :: Get(s.seen, id) == Known(v, c, k, j, id))
    && s.next == if j == k then c else Some(Cursor(IdOf(v[j - 1]), Known(v, c, k, j, IdOf(v[j - 1]))))
  }

  /** Occurrences the scan counts: those it passed over as earlier are not among them. */
  ghost function Known(v: seq<Entry>, c: Option<Cursor>, k: nat, j: nat, id: Id): int
    requires k <= j <= |v|
  {
    Count(v[..j], id) - if Earlier(id.ts, CursorTime(c)) then Count(v[..k], id) else 0
  }

  /** The record at `i` lies beyond the cursor: as many records with the cursor's id as it counts
      came before, or it is an archived one stamped later. A cursor that counts none stands just
      before the first record with its id. */
  ghost predicate Beyond(c: Cursor, items: seq<Item>, i: nat)
    requires i < |items|
  {
    || (items[i].archived && items[i].entry.ts > c.id.ts)
    || if c.n > 0 then Count(Entries(items)[..i], c.id) >= c.n else IdOf(items[i].entry) == c.id
  }

  /** The first record beyond the cursor, or the end. */
  ghost predicate Resumes(c: Option<Cursor>, items: seq<Item>, j: nat) {
    if c.None? then j == 0 else
    && j <= |items|
    && (forall i :: 0 <= i < j ==> !Beyond(c.value, items, i))
    && (j < |items| ==> Beyond(c.value, items, j))
  }

  /** The scan stands before entry `i`, and has reached the cursor if that many were counted. */
  ghost predicate Looked(v: seq<Entry>, c: Cursor, i: nat, s: Scan)
    requires i <= |v|
  {
    if c.n > 0 && Count(v[..i], c.id) >= c.n then Paging(v, Some(c), i, i, s) else Searching(v, Some(c), i, s)
  }

  lemma {:induction false} SearchStep(q: Query, items: seq<Item>, v: seq<Entry>, c: Cursor, i: nat, s: Scan)
    requires v == Entries(items) && i < |v| && !Beyond(c, items, i) && Looked(v, c, i, s)
    ensures Looked(v, c, i + 1, Read(q, Some(c), s, items[i]))
  {
    var e := items[i].entry;
    var r := Read(q, Some(c), s, items[i]);
    forall id ensures Count(v[..i + 1], id) == Count(v[..i], id) + if IdOf(e) == id then 1 else 0 {
      CountNext(v, i, id);
    }
    hide Count, Entries;
    assert v[i + 1..i + 1] == [];
    if Earlier(e.ts, c.id.ts) {
      assert r == s;
    } else {
      assert forall id :: Get(r.seen, id) == Get(s.seen, id) + if id == IdOf(e) then 1 else 0;
    }
  }

  lemma {:induction false} ReadNone(q: Query, c: Option<Cursor>, s: Scan)
    ensures ReadAll(q, c, s, []) == s
  {}

  /** Up to where it resumes the scan only looks for the cursor. */
  lemma {:induction false} Searched(q: Query, items: seq<Item>, c: Cursor, j: nat, i: nat)
    requires Resumes(Some(c), items, j) && i <= j <= |items|
    ensures Looked(Entries(items), c, i, ReadAll(q, Some(c), Begin(Some(c)), items[..i]))
    decreases i
  {
    hide Read, ReadAll, Entries;
    var v := Entries(items);
    if i == 0 {
      assert items[..0] == [] && v[..0] == [];
      ReadNone(q, Some(c), Begin(Some(c)));
    } else {
      Searched(q, items, c, j, i - 1);
      hide Looked, Beyond, Begin;
      assert items[..i] == items[..i - 1] + [items[i - 1]];
      ReadNext(q, Some(c), Begin(Some(c)), items[..i - 1], items[i - 1]);
      SearchStep(q, items, v, c, i - 1, ReadAll(q, Some(c), Begin(Some(c)), items[..i - 1]));
    }
  }

  /** Reading on from there is as from a scan that has reached its cursor. */
  lemma {:induction false} Turned(q: Query, items: seq<Item>, c: Option<Cursor>, j: nat, s: Scan) returns (t: Scan)
    requires Resumes(c, items, j) && j < |items| && s == ReadAll(q, c, Begin(c), items[..j])
    ensures Paging(Entries(items), c, j, j, t) && Read(q, c, t, items[j]) == Read(q, c, s, items[j])
  {
    hide ReadAll, Entries;
    var v := Entries(items);
    assert v[j..j] == [];
    if c.None? {
      assert items[..0] == [] && v[..0] == [];
      ReadNone(q, c, Begin(c));
      t := s;
    } else {
      Searched(q, items, c.value, j, j);
      hide Count;
      t := s.(past := true);
    }
  }

  /** From there on the scan returns what it reads. */
  lemma {:induction false} Reading(q: Query, items: seq<Item>, c: Option<Cursor>, j: nat, l: nat) returns (s: Scan)
    requires Resumes(c, items, j) && j <= l < |items| && Fits(q, Entries(items)[j..l])
    ensures Paging(Entries(items), c, j, l, s)
    ensures ReadAll(q, c, Begin(c), items[..l + 1]) == Read(q, c, s, items[l])
    decreases l
  {
    hide Read, ReadAll, Resumes, Paging, Begin, Entries;
    var v := Entries(items);
    assert items[..l + 1] == items[..l] + [items[l]];
    ReadNext(q, c, Begin(c), items[..l], items[l]);
    if l == j {
      s := Turned(q, items, c, j, ReadAll(q, c, Begin(c), items[..j]));
    } else {
      FitsShorter(q, v, j, l);
      var t := Reading(q, items, c, j, l - 1);
      PagingStep(q, items, c, j, l - 1, t);
      s := Read(q, c, t, items[l - 1]);
    }
  }

  lemma {:induction false} PagingStep(q: Query, items: seq<Item>, c: Option<Cursor>, k: nat, j: nat, s: Scan)
    requires k <= j < |items| && Paging(Entries(items), c, k, j, s)
    ensures Fits(q, Entries(items)[k..j + 1]) ==> Paging(Entries(items), c, k, j + 1, Read(q, c, s, items[j]))
    ensures !Fits(q, Entries(items)[k..j + 1]) ==>
      && Read(q, c, s, items[j]).out == s.out && Read(q, c, s, items[j]).next == s.next
      && Read(q, c, s, items[j]).outcome == if j == k then Oversized else Full
  {
    var v := Entries(items);
    var e := items[j].entry;
    var r := Read(q, c, s, items[j]);
    CostNext(v, k, j);
    KnownNext(v, c, k, j);
    hide Cost, Count, Entries, Known;
    if Fits(q, v[k..j + 1]) {
      forall id ensures Get(r.seen, id) == Known(v, c, k, j + 1, id) {
        assert Get(s.seen, id) == Known(v, c, k, j, id);
      }
    }
  }

  lemma {:induction false} CostNext(v: seq<Entry>, k: nat, j: nat)
    requires k <= j < |v|
    ensures v[k..j + 1] == v[k..j] + [v[j]] && Cost(v[k..j + 1]) == Cost(v[k..j]) + v[j].size + 1
  {
    assert v[k..j + 1] == v[k..j] + [v[j]];
    assert v[k..j + 1][..|v[k..j + 1]| - 1] == v[k..j];
  }

  lemma {:induction false} KnownNext(v: seq<Entry>, c: Option<Cursor>, k: nat, j: nat)
    requires k <= j < |v|
    ensures forall id :: Known(v, c, k, j + 1, id) == Known(v, c, k, j, id) + if IdOf(v[j]) == id then 1 else 0
  {
    forall id ensures Known(v, c, k, j + 1, id) == Known(v, c, k, j, id) + if IdOf(v[j]) == id then 1 else 0 {
      CountNext(v, j, id);
    }
  }

  lemma {:induction false} FitsShorter(q: Query, v: seq<Entry>, k: nat, j: nat)
    requires k < j <= |v| && Fits(q, v[k..j])
    ensures Fits(q, v[k..j - 1])
  {
    assert v[k..j][..|v[k..j]| - 1] == v[k..j - 1];
  }

  /* ---- One page ---- */

  /** A page from `k` to `l` is as long as the budget allows. */
  ghost predicate PageEnds(q: Query, v: seq<Entry>, k: nat, l: nat)
    requires k <= l <= |v|
  {
    Fits(q, v[k..l]) && (l < |v| ==> !Fits(q, v[k..l + 1]))
  }

  /** The cursor of a page that resumed at `j` and ends at `l`. */
  ghost function CursorSince(v: seq<Entry>, c: Option<Cursor>, j: nat, l: nat): Option<Cursor>
    requires j <= l <= |v|
  {
    if l == j then c else Some(Cursor(IdOf(v[l - 1]), Known(v, c, j, l, IdOf(v[l - 1]))))
  }

  /** The scan of the first `l` records, when those since `j` fit. */
  lemma {:induction false} Located(q: Query, items: seq<Item>, c: Option<Cursor>, j: nat, l: nat)
    requires Resumes(c, items, j) && j <= l <= |items| && Fits(q, Entries(items)[j..l])
    ensures var s := ReadAll(q, c, Begin(c), items[..l]);
      s.out == Entries(items)[j..l] && s.next == CursorSince(Entries(items), c, j, l) && s.outcome == Running
  {
    hide Read, ReadAll, Entries, Known, Cost, Resumes;
    var v := Entries(items);
    if j < l {
      FitsShorter(q, v, j, l);
      var s := Reading(q, items, c, j, l - 1);
      PagingStep(q, items, c, j, l - 1, s);
    } else if c.None? {
      assert j == 0 by { NoneFirst(items, j); }
      assert items[..0] == [] && v[j..j] == [];
      ReadNone(q, c, Begin(c));
    } else {
      assert v[j..j] == [];
      Searched(q, items, c.value, j, j);
    }
  }

  lemma {:induction false} NoneFirst(items: seq<Item>, j: nat)
    ensures Resumes(None, items, j) <==> j == 0
  {}

  /** Every read, whatever its cursor and the records: it goes on with the first record beyond the
      cursor, as far as the budget allows; without one it returns nothing and keeps the cursor. */
  lemma {:induction false} PageFrom(q: Query, items: seq<Item>, c: Option<Cursor>, j: nat) returns (l: nat)
    requires Resumes(c, items, j) && j <= |items|
    ensures j <= l <= |items| && PageEnds(q, Entries(items), j, l)
    ensures var s := ReadAll(q, c, Begin(c), items);
      && s.out == Entries(items)[j..l] && s.next == CursorSince(Entries(items), c, j, l)
      && s.outcome == if l == |items| then Running else if l == j then Oversized else Full
  {
    var v := Entries(items);
    l := j;
    assert v[j..j] == [];
    while l < |v| && Fits(q, v[j..l + 1])
      invariant j <= l <= |v| && Fits(q, v[j..l])
    {
      l := l + 1;
    }
    hide Resumes;
    PageStops(q, items, c, j, l);
  }

  lemma {:induction false} PageStops(q: Query, items: seq<Item>, c: Option<Cursor>, j: nat, l: nat)
    requires Resumes(c, items, j) && j <= l <= |items| && PageEnds(q, Entries(items), j, l)
    ensures var s := ReadAll(q, c, Begin(c), items);
      && s.out == Entries(items)[j..l] && s.next == CursorSince(Entries(items), c, j, l)
      && s.outcome == if l == |items| then Running else if l == j then Oversized else Full
  {
    hide Read, ReadAll, Begin, Resumes, Entries, Known, Cost;
    if l < |items| {
      var s := Reading(q, items, c, j, l);
      PagingStep(q, items, c, j, l, s);
      ReadConcat(q, c, Begin(c), items[..l + 1], items[l + 1..]);
      assert items == items[..l + 1] + items[l + 1..];
    } else {
      Located(q, items, c, j, l);
      assert items[..l] == items;
    }
  }

  /** There is one such record, or none, for every cursor. */
  lemma {:induction false} ResumesOnce(c: Option<Cursor>, items: seq<Item>) returns (j: nat)
    ensures j <= |items| && forall i :: Resumes(c, items, i) <==> i == j
  {
    hide Beyond;
    j := 0;
    while c.Some? && j < |items| && !Beyond(c.value, items, j)
      invariant j <= |items| && (c.None? ==> j == 0)
      invariant c.Some? ==> forall i :: 0 <= i < j ==> !Beyond(c.value, items, i)
    {
      j := j + 1;
    }
  }

  /** The cursor of a position resumes at that position when archived stamps are in order. */
  lemma {:induction false} PositionResumes(items: seq<Item>, k: nat)
    requires k <= |items| && ArchivesInOrder(items)
    ensures Resumes(At(Entries(items), k), items, k)
  {
    hide Count;
    var v := Entries(items);
    if k > 0 {
      var id := IdOf(v[k - 1]);
      forall i | 0 <= i < k ensures Count(v[..i], id) < Count(v[..k], id) {
        CountGrows(v, i, k, id);
      }
      CountGrows(v, 0, k, id);
    }
  }

  /** The cursor a scan from position `k` returns after entry `l - 1`. */
  ghost function CursorAfter(v: seq<Entry>, k: nat, l: nat): Option<Cursor>
    requires k <= l <= |v|
  {
    CursorSince(v, At(v, k), k, l)
  }

  /* ---- When a returned cursor is the position it stands for ---- */

  /** Entries with one id have no later-stamped entry between them. Stamps in order and ids
      without repetition each imply this. */
  ghost predicate Unseparated(v: seq<Entry>) {
    forall i, m, j :: 0 <= i < m < j < |v| && IdOf(v[i]) == IdOf(v[j]) ==> !Earlier(v[i].ts, v[m].ts)
  }

  ghost predicate CursorsAgree(v: seq<Entry>) {
    forall k, l :: 0 <= k <= l <= |v| ==> CursorAfter(v, k, l) == At(v, l)
  }

  lemma {:induction false} CountPositive(v: seq<Entry>, k: nat, id: Id) returns (i: nat)
    requires k <= |v| && Count(v[..k], id) > 0
    ensures i < k && IdOf(v[i]) == id
  {
    CountNext(v, k - 1, id);
    if IdOf(v[k - 1]) == id { i := k - 1; } else { i := CountPositive(v, k - 1, id); }
  }

  lemma {:induction false} AgreeExactlyWhen(v: seq<Entry>)
    ensures CursorsAgree(v) <==> Unseparated(v)
  {
    hide Count;
    if Unseparated(v) {
      forall k, l | 0 <= k <= l <= |v| ensures CursorAfter(v, k, l) == At(v, l) {
        UnseparatedCursor(v, k, l);
      }
    }
    forall i, m, j | 0 <= i < m < j < |v| && IdOf(v[i]) == IdOf(v[j]) && Earlier(v[i].ts, v[m].ts)
      ensures CursorAfter(v, m + 1, j + 1) != At(v, j + 1)
    {
      CountGrows(v, 0, i + 1, IdOf(v[j]));
      CountGrows(v, i + 1, m + 1, IdOf(v[j]));
    }
  }

  lemma {:induction false} UnseparatedCursor(v: seq<Entry>, k: nat, l: nat)
    requires Unseparated(v) && k <= l <= |v|
    ensures CursorAfter(v, k, l) == At(v, l)
  {
    hide Count;
    if 0 < k < l && Count(v[..k], IdOf(v[l - 1])) > 0 {
      var i := CountPositive(v, k, IdOf(v[l - 1]));
      assert !Earlier(v[i].ts, v[k - 1].ts) by {
        if i < k - 1 { assert IdOf(v[i]) == IdOf(v[l - 1]); }
      }
    }
  }

  /** A read that starts at position `k` and ends at position `l` returns the cursor of `l`. */
  ghost predicate Returns(q: Query, items: seq<Item>, k: nat, l: nat)
    requires k <= l <= |items|
  {
    ReadAll(q, At(Entries(items), k), Begin(At(Entries(items), k)), items[..l]).next == At(Entries(items), l)
  }

  /** Every cursor of every read is the position it stands for exactly when no repeated entry
      is separated from its first occurrence by a later-stamped one. */
  lemma {:induction false} CursorsExactlyWhen(q: Query, items: seq<Item>)
    requires ArchivesInOrder(items) && q.budget == 0
    ensures (forall k, l :: 0 <= k <= l <= |items| ==> Returns(q, items, k, l)) <==> Unseparated(Entries(items))
  {
    var v := Entries(items);
    AgreeExactlyWhen(v);
    forall k, l | 0 <= k <= l <= |items| ensures Returns(q, items, k, l) <==> CursorAfter(v, k, l) == At(v, l) {
      PositionResumes(items, k);
      Located(q, items, At(v, k), k, l);
    }
    hide Returns, Unseparated, At, CursorAfter, ArchivesInOrder;
  }

  /** Otherwise a read can end with the cursor of an earlier position. */
  lemma {:induction false} SeparatedRepeats(v: seq<Entry>, i: nat, m: nat, j: nat) returns (p: nat)
    requires i < m < j < |v| && IdOf(v[i]) == IdOf(v[j]) && Earlier(v[i].ts, v[m].ts)
    ensures 0 < p <= j && CursorAfter(v, m + 1, j + 1) == At(v, p)
  {
    hide Count;
    var id := IdOf(v[j]);
    CountGrows(v, 0, i + 1, id);
    CountGrows(v, i + 1, m + 1, id);
    CountGrows(v, m + 1, j + 1, id);
    var n := Count(v[..j + 1], id) - Count(v[..m + 1], id);
    assert 0 < n < Count(v[..j + 1], id) by { CountNone(v, id); }
    p := Nth(v, j + 1, id, n);
  }

  /** Then the read after it returns again what lies between: here up to the entry `v[j]` that
      the read before ended with. */
  lemma {:induction false} ReadAgain(q: Query, items: seq<Item>, i: nat, m: nat, j: nat) returns (p: nat)
    requires ArchivesInOrder(items) && q.budget == 0 && i < m < j < |items|
    requires IdOf(items[i].entry) == IdOf(items[j].entry) && Earlier(items[i].entry.ts, items[m].entry.ts)
    ensures var v := Entries(items);
      var first := ReadAll(q, At(v, m + 1), Begin(At(v, m + 1)), items[..j + 1]);
      var c := first.next;
      first.out == v[m + 1..j + 1] && p <= j && ReadAll(q, c, Begin(c), items).out == v[p..] && v[j] in v[p..]
  {
    hide ArchivesInOrder, ReadAll, Count, Begin;
    var v := Entries(items);
    p := SeparatedRepeats(v, i, m, j);
    PositionResumes(items, m + 1);
    Located(q, items, At(v, m + 1), m + 1, j + 1);
    PositionResumes(items, p);
    var l := PageFrom(q, items, At(v, p), p);
    assert l == |v| && v[p..l] == v[p..];
    assert v[p..][j - p] == v[j];
  }

  /** Such a store: two equal records around a later-stamped one in the current file, read in
      pages of two. The third page repeats the second entry and the third. */
  const FIRST: Entry := Entry("u", 5, 1, 3, "")
  const SECOND: Entry := Entry("u", 6, 2, 3, "")
  const SEPARATED: Store := Store([], [Record(FIRST), Record(SECOND), Record(FIRST)])
  const BY_TWO: Query := Query("u", 0, 8)

  lemma {:induction false} ThirdPageRepeats()
    ensures var one := Page(BY_TWO, None, SEPARATED);
      var two := Page(BY_TWO, one.next, SEPARATED);
      var three := Page(BY_TWO, two.next, SEPARATED);
      one.out == [FIRST, SECOND] && two.out == [FIRST] && three.out == [SECOND, FIRST]
  {
    hide Page;
    FirstPage();
    SecondPage();
    ThirdPage();
  }

  lemma {:induction false} FirstPage()
    ensures var p := Page(BY_TWO, None, SEPARATED); p.out == [FIRST, SECOND] && p.next == Some(Cursor(Id(6, 2), 1))
  {
    SeparatedPage(None);
    hide Page;
  }

  lemma {:induction false} SecondPage()
    ensures var p := Page(BY_TWO, Some(Cursor(Id(6, 2), 1)), SEPARATED); p.out == [FIRST] && p.next == Some(Cursor(Id(5, 1), 1))
  {
    SeparatedPage(Some(Cursor(Id(6, 2), 1)));
    hide Page;
  }

  lemma {:induction false} ThirdPage()
    ensures Page(BY_TWO, Some(Cursor(Id(5, 1), 1)), SEPARATED).out == [SECOND, FIRST]
  {
    SeparatedPage(Some(Cursor(Id(5, 1), 1)));
    hide Page;
  }

  lemma {:induction false} SeparatedPage(c: Option<Cursor>)
    ensures var a, b := Item(FIRST, false), Item(SECOND, false);
      Page(BY_TWO, c, SEPARATED) ==
        Read(BY_TWO, c, Read(BY_TWO, c, Read(BY_TWO, c, Begin(c), a), b), a)
  {
    hide Read;
    var a, b := Item(FIRST, false), Item(SECOND, false);
    var f := SEPARATED.current;
    assert f[..3] == f && f[..0] == [];
    ShownNone(BY_TWO, f[..0], false);
    ShownNext(BY_TWO, f, false, 0);
    ShownNext(BY_TWO, f, false, 1);
    ShownNext(BY_TWO, f, false, 2);
    assert Opened(BY_TWO, SEPARATED, CursorTime(c)) == [a] + [b] + [a];
    ReadNext(BY_TWO, c, Begin(c), [a] + [b], a);
    ReadNext(BY_TWO, c, Begin(c), [a], b);
    ReadNext(BY_TWO, c, Begin(c), [], a);
    assert [] + [a] == [a];
  }

  lemma {:induction false} CountNone(v: seq<Entry>, id: Id)
    ensures Count(v[..0], id) == 0
  {}

  /** The position after the `n`-th occurrence. */
  lemma {:induction false} Nth(v: seq<Entry>, k: nat, id: Id, n: nat) returns (p: nat)
    requires k <= |v| && 0 < n <= Count(v[..k], id)
    ensures 0 < p <= k && IdOf(v[p - 1]) == id && Count(v[..p], id) == n
    ensures n < Count(v[..k], id) ==> p < k
    decreases k
  {
    CountNext(v, k - 1, id);
    if n == Count(v[..k], id) && IdOf(v[k - 1]) == id { p := k; } else { p := Nth(v, k - 1, id, n); }
  }

  /* ---- Stamps in order ---- */

  ghost predicate Stamped(v: seq<Entry>) {
    && (forall i :: 0 <= i < |v| ==> v[i].ts != 0)
    && (forall i, j :: 0 <= i < j < |v| ==> v[i].ts <= v[j].ts)
  }

  lemma {:induction false} StampedUnseparated(v: seq<Entry>)
    requires Stamped(v)
    ensures Unseparated(v)
  {}

  /** Every record of a file, wanted or not. */
  ghost function Records(f: File): seq<Entry> {
    if f == [] then [] else Records(f[..|f| - 1]) + if f[|f| - 1].Record? then [f[|f| - 1].entry] else []
  }

  ghost function ArchiveRecords(archives: seq<File>): seq<Entry> {
    if archives == [] then [] else ArchiveRecords(archives[..|archives| - 1]) + Records(archives[|archives| - 1])
  }

  ghost function StoreRecords(st: Store): seq<Entry> {
    ArchiveRecords(st.archives) + Records(st.current)
  }

  ghost function Select(q: Query, s: seq<Entry>): seq<Entry> {
    if s == [] then [] else
    Select(q, s[..|s| - 1]) + if Wanted(q, s[|s| - 1]) then [s[|s| - 1]] else []
  }

  lemma {:induction false} SelectConcat(q: Query, a: seq<Entry>, b: seq<Entry>)
    ensures Select(q, a + b) == Select(q, a) + Select(q, b)
  {
    if b == [] {
      assert a + b == a;
    } else {
      SelectConcat(q, a, b[..|b| - 1]);
      assert (a + b)[..|a + b| - 1] == a + b[..|b| - 1];
    }
  }

  lemma {:induction false} ShownSelects(q: Query, f: File, archived: bool)
    ensures Entries(Shown(q, f, archived)) == Select(q, Records(f))
  {
    if f != [] {
      var init, l := f[..|f| - 1], f[|f| - 1];
      ShownSelects(q, init, archived);
      if l.Record? {
        assert (Records(init) + [l.entry])[..|Records(init)|] == Records(init);
      } else {
        assert Records(f) == Records(init) && Shown(q, f, archived) == Shown(q, init, archived);
      }
    }
  }

  lemma {:induction false} ArchivesSelect(q: Query, archives: seq<File>)
    ensures Entries(ShownArchives(q, archives)) == Select(q, ArchiveRecords(archives))
  {
    if archives != [] {
      var init, f := archives[..|archives| - 1], archives[|archives| - 1];
      ArchivesSelect(q, init);
      ShownSelects(q, f, true);
      SelectConcat(q, ArchiveRecords(init), Records(f));
    }
  }

  /** The journal of a query is the selection of what the files hold, whatever the grouping. */
  lemma {:induction false} JournalSelects(q: Query, st: Store)
    ensures Entries(Journal(q, st)) == Select(q, StoreRecords(st))
  {
    hide Select, Shown, ShownArchives, Records, ArchiveRecords;
    ArchivesSelect(q, st.archives);
    ShownSelects(q, st.current, false);
    SelectConcat(q, ArchiveRecords(st.archives), Records(st.current));
  }

  /** Of the records it holds, the store shows those of the unit since the bound. */
  lemma {:induction false} JournalHolds(q: Query, st: Store, e: Entry)
    ensures e in Entries(Journal(q, st)) <==>
      && e.unit == q.unit && e.ts >= q.since
      && (Record(e) in st.current || exists f :: f in st.archives && Record(e) in f)
  {
    JournalSelects(q, st);
    hide Journal, Entries;
    SelectHolds(q, StoreRecords(st), e);
    RecordsHold(st.current, e);
    ArchivesHold(st.archives, e);
    hide Select, Records, ArchiveRecords;
  }

  lemma {:induction false} SelectHolds(q: Query, s: seq<Entry>, e: Entry)
    ensures e in Select(q, s) <==> e in s && e.unit == q.unit && e.ts >= q.since
  {
    if s != [] {
      SelectHolds(q, s[..|s| - 1], e);
      assert s == s[..|s| - 1] + [s[|s| - 1]];
    }
  }

  lemma {:induction false} RecordsHold(f: File, e: Entry)
    ensures e in Records(f) <==> Record(e) in f
  {
    if f != [] {
      RecordsHold(f[..|f| - 1], e);
      assert f == f[..|f| - 1] + [f[|f| - 1]];
    }
  }

  lemma {:induction false} ArchivesHold(archives: seq<File>, e: Entry)
    ensures e in ArchiveRecords(archives) <==> exists f :: f in archives && Record(e) in f
  {
    if archives != [] {
      var init, last := archives[..|archives| - 1], archives[|archives| - 1];
      ArchivesHold(init, e);
      RecordsHold(last, e);
      assert archives == init + [last];
    }
  }

  lemma {:induction false} SelectStamped(q: Query, s: seq<Entry>)
    requires Stamped(s)
    ensures Stamped(Select(q, s)) && forall i :: 0 <= i < |Select(q, s)| ==> Select(q, s)[i] in s
  {
    if s != [] {
      SelectStamped(q, s[..|s| - 1]);
    }
  }

  lemma {:induction false} LastStampIsLast(f: File)
    requires Stamped(Records(f)) && LastStamp(f) != 0
    ensures forall i :: 0 <= i < |Records(f)| ==> Records(f)[i].ts <= LastStamp(f)
  {
    if f != [] && f[|f| - 1].Blank? {
      assert Records(f) == Records(f[..|f| - 1]);
      LastStampIsLast(f[..|f| - 1]);
    } else {
      var r := Records(f);
      assert f != [] && r[|r| - 1].ts == LastStamp(f);
    }
  }

  lemma {:induction false} StampedParts(archives: seq<File>, i: nat)
    requires Stamped(ArchiveRecords(archives)) && i < |archives|
    ensures Stamped(Records(archives[i]))
  {
    var init, f := archives[..|archives| - 1], archives[|archives| - 1];
    var a, b := ArchiveRecords(init), Records(f);
    StampedHalves(a, b);
    if i < |init| { StampedParts(init, i); }
  }

  lemma {:induction false} StampedHalves(a: seq<Entry>, b: seq<Entry>)
    requires Stamped(a + b)
    ensures Stamped(a) && Stamped(b)
  {
    var ab := a + b;
    assert forall i :: 0 <= i < |a| ==> ab[i] == a[i];
    assert forall i :: 0 <= i < |b| ==> ab[|a| + i] == b[i];
  }

  /** Non-zero stamps in file order are all the scan needs, for every query and grouping. */
  lemma {:induction false} StampedInOrder(q: Query, st: Store)
    requires Stamped(StoreRecords(st))
    ensures InOrder(q, st) && Stamped(Entries(Journal(q, st)))
  {
    JournalSelects(q, st);
    SelectStamped(q, StoreRecords(st));
    var items := Journal(q, st);
    assert ArchivesInOrder(items) by {
      var v := Entries(items);
      assert forall i :: 0 <= i < |items| ==> items[i].entry == v[i];
    }
    StampedHalves(ArchiveRecords(st.archives), Records(st.current));
    forall i | 0 <= i < |st.archives| ensures EndsLast(q, st.archives[i]) {
      StampedParts(st.archives, i);
      FileEndsLast(q, st.archives[i]);
    }
  }

  lemma {:induction false} FileEndsLast(q: Query, f: File)
    requires Stamped(Records(f))
    ensures EndsLast(q, f)
  {
    hide Select, Records, Shown, LastStamp, Entries;
    if LastStamp(f) != 0 {
      LastStampIsLast(f);
      ShownSelects(q, f, true);
      SelectStamped(q, Records(f));
      var items, v := Shown(q, f, true), Select(q, Records(f));
      forall i | 0 <= i < |items| ensures 0 < items[i].entry.ts <= LastStamp(f) {
        assert v[i] == items[i].entry && v[i] in Records(f);
      }
    }
  }

  /* ---- Following cursors while the store changes ---- */

  /** The store shows the journal `h` without its first `d` entries and up to some later point. */
  ghost predicate Shows(q: Query, st: Store, h: seq<Entry>, d: nat) {
    && d + |Journal(q, st)| <= |h|
    && Entries(Journal(q, st)) == h[d..d + |Journal(q, st)|]
  }

  /** What is gone is stamped strictly before the entry the cursor stands on. */
  ghost predicate StillThere(h: seq<Entry>, d: nat, k: nat) {
    && d <= k <= |h|
    && (k == 0 || forall i :: 0 <= i < d ==> h[i].ts < h[k - 1].ts)
  }

  lemma {:induction false} CountFrom(h: seq<Entry>, d: nat, k: nat, id: Id)
    requires d <= k <= |h|
    requires forall i :: 0 <= i < d ==> h[i].ts < id.ts
    ensures Count(h[..k], id) == Count(h[d..k], id)
    decreases k
  {
    if d < k {
      CountFrom(h, d, k - 1, id);
      CountNext(h, k - 1, id);
      assert h[d..k][..|h[d..k]| - 1] == h[d..k - 1];
    } else {
      CountAbsent(h[..k], id);
      CountAbsent(h[k..k], id);
    }
  }

  lemma {:induction false} CountAbsent(s: seq<Entry>, id: Id)
    requires forall i :: 0 <= i < |s| ==> s[i].ts < id.ts
    ensures Count(s, id) == 0
  {
    if s != [] { CountAbsent(s[..|s| - 1], id); }
  }

  /** A cursor outlives the eviction of strictly older entries. */
  lemma {:induction false} CursorSurvives(h: seq<Entry>, d: nat, n: nat, k: nat)
    requires StillThere(h, d, k) && k <= n <= |h| && (k == 0 || d < k)
    ensures At(h[d..n], k - d) == At(h, k)
  {
    if k > 0 {
      CountFrom(h, d, k, IdOf(h[k - 1]));
      assert h[d..n][..k - d] == h[d..k];
    }
  }

  /** One page, from position `k` of the whole journal, off a store that may have lost older
      entries and gained newer ones: the next entries in order, as many as fit, with the
      cursor that stands after them. */
  lemma {:induction false} NextPage(q: Query, st: Store, h: seq<Entry>, d: nat, k: nat) returns (l: nat)
    requires Stamped(h) && Stamped(StoreRecords(st)) && Shows(q, st, h, d)
    requires StillThere(h, d, k) && k <= d + |Journal(q, st)|
    ensures k <= l <= d + |Journal(q, st)| <= |h| && Fits(q, h[k..l])
    ensures l < d + |Journal(q, st)| ==> !Fits(q, h[k..l + 1])
    ensures Page(q, At(h, k), st).out == h[k..l] && Page(q, At(h, k), st).next == At(h, l)
    ensures Page(q, At(h, k), st).outcome ==
            if l == d + |Journal(q, st)| then Running else if l == k then Oversized else Full
  {
    hide Page, Count, Fits, At, ReadAll, StoreRecords, Stamped, Unseparated, InOrder, Entries;
    var v := Entries(Journal(q, st));
    var n := d + |v|;
    StillBefore(h, d, k);
    CursorSurvives(h, d, n, k);
    StampedInOrder(q, st);
    StampedUnseparated(v);
    var m := PageAt(q, st, v, k - d);
    l := d + m;
    Window(h, d, n, v, k, l);
    StillLater(h, d, k, l);
    StillBefore(h, d, l);
    CursorSurvives(h, d, n, l);
  }

  lemma {:induction false} Window(h: seq<Entry>, d: nat, n: nat, v: seq<Entry>, k: nat, l: nat)
    requires d <= n <= |h| && v == h[d..n] && d <= k <= l <= n
    ensures v[k - d..l - d] == h[k..l]
    ensures l < n ==> v[k - d..l - d + 1] == h[k..l + 1]
  {
    forall i | k <= i < n ensures v[i - d] == h[i] {}
    assert v[k - d..l - d] == h[k..l];
  }

  /** One page off a store, from a position in what the store shows. */
  lemma {:induction false} PageAt(q: Query, st: Store, v: seq<Entry>, k: nat) returns (l: nat)
    requires InOrder(q, st) && v == Entries(Journal(q, st)) && Unseparated(v) && k <= |v|
    ensures k <= l <= |v| && Fits(q, v[k..l]) && (l < |v| ==> !Fits(q, v[k..l + 1]))
    ensures Page(q, At(v, k), st).out == v[k..l] && Page(q, At(v, k), st).next == At(v, l)
    ensures Page(q, At(v, k), st).outcome == if l == |v| then Running else if l == k then Oversized else Full
  {
    hide Page, Count, Fits, At, ReadAll, Unseparated, ArchivesInOrder, CursorSince, Begin;
    PageIs(q, At(v, k), st);
    PositionResumes(Journal(q, st), k);
    l := PageFrom(q, Journal(q, st), At(v, k), k);
    UnseparatedCursor(v, k, l);
  }

  lemma {:induction false} StillBefore(h: seq<Entry>, d: nat, k: nat)
    requires StillThere(h, d, k)
    ensures k == 0 || d < k
  {
    var last := if k > 0 then h[k - 1].ts else 0;
  }

  lemma {:induction false} StillLater(h: seq<Entry>, d: nat, k: nat, l: nat)
    requires StillThere(h, d, k) && Stamped(h) && k <= l <= |h|
    ensures StillThere(h, d, l)
  {}

  lemma {:induction false} PageIs(q: Query, c: Option<Cursor>, st: Store)
    requires InOrder(q, st)
    ensures Page(q, c, st) == ReadAll(q, c, Begin(c), Journal(q, st))
  {
    SkippingIsSound(q, c, st);
  }

  /** What a reader has after asking each store in turn with the cursor it got last; `whole`
      says that the last page reached the end of what its store showed. */
  datatype Reader = Reader(got: seq<Entry>, cursor: Option<Cursor>, whole: bool)

  ghost function Follow(q: Query, r: Reader, stores: seq<Store>): Reader
    decreases |stores|
  {
    if stores == [] then r else
    var s := Page(q, r.cursor, stores[0]);
    Follow(q, Reader(r.got + s.out, s.next, s.outcome == Running), stores[1..])
  }

  /** At each page the store shows the one journal `h`, having lost (`gone`) only entries
      stamped strictly before the reader's cursor at that time. */
  ghost predicate Tracks(q: Query, stores: seq<Store>, gone: seq<nat>, h: seq<Entry>, k: nat)
    decreases |stores|
  {
    |stores| == |gone| &&
    (stores == [] ||
      (var s := Page(q, if k <= |h| then At(h, k) else None, stores[0]);
       && Stamped(StoreRecords(stores[0])) && Shows(q, stores[0], h, gone[0])
       && StillThere(h, gone[0], k) && k <= gone[0] + |Journal(q, stores[0])|
       && Tracks(q, stores[1..], gone[1..], h, k + |s.out|)))
  }

  /** Following cursors returns the journal from the start on, each entry once and in order,
      across appends, rotations and evictions; when the last page was whole, nothing the last
      store showed is missing. */
  lemma {:induction false} FollowCursors(q: Query, stores: seq<Store>, gone: seq<nat>, h: seq<Entry>, r: Reader) returns (l: nat)
    requires Stamped(h) && |r.got| <= |h| && r.got == h[..|r.got|] && r.cursor == At(h, |r.got|)
    requires Tracks(q, stores, gone, h, |r.got|)
    ensures |r.got| <= l <= |h|
    ensures Follow(q, r, stores).got == h[..l] && Follow(q, r, stores).cursor == At(h, l)
    ensures stores != [] && Follow(q, r, stores).whole ==> l == gone[|stores| - 1] + |Journal(q, stores[|stores| - 1])|
    decreases |stores|
  {
    hide Page, At, Shows, StillThere, Stamped, StoreRecords, Journal, Fits;
    var k := |r.got|;
    l := k;
    if stores != [] {
      var m := NextPage(q, stores[0], h, gone[0], k);
      var s := Page(q, r.cursor, stores[0]);
      assert h[..k] + h[k..m] == h[..m];
      assert Tracks(q, stores[1..], gone[1..], h, k + |s.out|);
      l := FollowCursors(q, stores[1..], gone[1..], h, Reader(r.got + s.out, s.next, s.outcome == Running));
    }
  }

  /* ---- Following cursors to the end ---- */

  /** The first page after `k` entries brings more unless nothing is left. */
  lemma {:induction false} PageProgresses(q: Query, st: Store, v: seq<Entry>, k: nat) returns (l: nat)
    requires Stamped(StoreRecords(st)) && v == Entries(Journal(q, st)) && k <= |v|
    requires forall i :: 0 <= i < |v| ==> Fits(q, [v[i]])
    ensures k <= l <= |v| && (l == k ==> k == |v|)
    ensures Page(q, At(v, k), st).out == v[k..l] && Page(q, At(v, k), st).next == At(v, l)
    ensures Page(q, At(v, k), st).outcome == if l == |v| then Running else Full
  {
    hide Page, At, Fits, StoreRecords, Journal, Entries;
    StampedInOrder(q, st);
    StampedUnseparated(v);
    if k < |v| { assert v[k..k + 1] == [v[k]]; }
    l := PageAt(q, st, v, k);
  }

  /** With one page per missing entry and one more, a reader gets the rest and a whole page. */
  lemma {:induction false} FollowRest(q: Query, st: Store, v: seq<Entry>, r: Reader, pages: nat)
    requires Stamped(StoreRecords(st)) && v == Entries(Journal(q, st))
    requires forall i :: 0 <= i < |v| ==> Fits(q, [v[i]])
    requires |r.got| <= |v| && r.got == v[..|r.got|] && r.cursor == At(v, |r.got|)
    requires pages > |v| - |r.got|
    ensures Follow(q, r, seq(pages, _ => st)) == Reader(v, At(v, |v|), true)
    decreases pages
  {
    hide Page, At, Stamped, StoreRecords, Journal, Entries;
    var k := |r.got|;
    var stores := seq(pages, _ => st);
    var l := PageProgresses(q, st, v, k);
    var s := Page(q, r.cursor, st);
    var next := Reader(r.got + s.out, s.next, s.outcome == Running);
    assert v[..k] + v[k..l] == v[..l];
    assert stores[1..] == seq(pages - 1, _ => st);
    if pages == 1 {
      assert v[..|v|] == v;
    } else {
      FollowRest(q, st, v, next, pages - 1);
    }
  }

  /** The same across appends, rotations and evictions: with one more store than entries are
      missing, each showing the journal to its end, the reader gets all of it and a whole page. */
  lemma {:induction false} FollowToEnd(q: Query, stores: seq<Store>, gone: seq<nat>, h: seq<Entry>, r: Reader)
    requires Stamped(h) && |r.got| <= |h| && r.got == h[..|r.got|] && r.cursor == At(h, |r.got|)
    requires Tracks(q, stores, gone, h, |r.got|)
    requires forall i :: 0 <= i < |stores| ==> gone[i] + |Journal(q, stores[i])| == |h|
    requires forall i :: 0 <= i < |h| ==> Fits(q, [h[i]])
    requires |stores| > |h| - |r.got|
    ensures Follow(q, r, stores) == Reader(h, At(h, |h|), true)
    decreases |stores|
  {
    hide Page, At, Shows, StillThere, Stamped, StoreRecords, Journal, Fits;
    var k := |r.got|;
    if k < |h| { assert h[k..k + 1] == [h[k]]; }
    var m := NextPage(q, stores[0], h, gone[0], k);
    var s := Page(q, r.cursor, stores[0]);
    var next := Reader(r.got + s.out, s.next, s.outcome == Running);
    assert h[..k] + h[k..m] == h[..m];
    if |stores| == 1 {
      assert h[..|h|] == h;
    } else {
      forall i | 0 <= i < |stores| - 1 ensures gone[1..][i] + |Journal(q, stores[1..][i])| == |h| {
        assert stores[1..][i] == stores[i + 1] && gone[1..][i] == gone[i + 1];
      }
      FollowToEnd(q, stores[1..], gone[1..], h, next);
    }
  }

  /** Following cursors page by page, as long as every entry fits a page on its own, ends with a
      whole page and has returned exactly what one query without a budget returns. */
  lemma {:induction false} PagingIsOneQuery(q: Query, st: Store, pages: nat)
    requires Stamped(StoreRecords(st)) && pages > |Journal(q, st)|
    requires forall i :: 0 <= i < |Journal(q, st)| ==> Fits(q, [Journal(q, st)[i].entry])
    ensures var r := Follow(q, Reader([], None, false), seq(pages, _ => st));
      r.whole && r.got == Page(q.(budget := 0), None, st).out == Entries(Journal(q, st))
  {
    hide Page, Stamped, StoreRecords, Journal, Follow;
    var v := Entries(Journal(q, st));
    assert v[..0] == [] && At(v, 0) == None;
    FollowRest(q, st, v, Reader([], None, false), pages);
    var whole := q.(budget := 0);
    SameJournal(q, whole, st);
    StampedInOrder(whole, st);
    StampedUnseparated(v);
    var l := PageAt(whole, st, v, 0);
    assert v[0..|v|] == v;
  }

  /** A budget does not change what a query is about. */
  lemma {:induction false} SameJournal(q: Query, w: Query, st: Store)
    requires q.unit == w.unit && q.since == w.since
    ensures Entries(Journal(q, st)) == Entries(Journal(w, st))
  {
    hide Journal, StoreRecords;
    JournalSelects(q, st);
    JournalSelects(w, st);
    SameSelection(q, w, StoreRecords(st));
  }

  lemma {:induction false} SameSelection(q: Query, w: Query, s: seq<Entry>)
    requires q.unit == w.unit && q.since == w.since
    ensures Select(q, s) == Select(w, s)
  {
    if s != [] { SameSelection(q, w, s[..|s| - 1]); }
  }

  /* ---- A cursor whose entry is gone ---- */

  /** One page off a store in order, with a cursor that is no longer among the records: the cursor
      returned is again a position in the store. */
  lemma {:induction false} LostPage(q: Query, st: Store, c: Cursor, j: nat) returns (l: nat)
    requires Stamped(StoreRecords(st)) && Resumes(Some(c), Journal(q, st), j) && j <= |Journal(q, st)|
    requires j < |Journal(q, st)| ==> Journal(q, st)[j].entry.ts >= c.id.ts
    ensures var v := Entries(Journal(q, st)); var s := Page(q, Some(c), st);
      && j <= l <= |v| && PageEnds(q, v, j, l) && s.out == v[j..l] && s.next == (if l == j then Some(c) else At(v, l))
      && s.outcome == if l == |v| then Running else if l == j then Oversized else Full
  {
    hide Page, ReadAll, Begin, Resumes, PageEnds, StoreRecords, Stamped, Journal, Entries, Count;
    var v := Entries(Journal(q, st));
    StampedInOrder(q, st);
    PageIs(q, Some(c), st);
    l := PageFrom(q, Journal(q, st), Some(c), j);
    if j < l {
      LaterStays(v, j, l - 1);
      assert !Earlier(v[l - 1].ts, c.id.ts) by { assert v[j] == Journal(q, st)[j].entry; }
    }
  }

  lemma {:induction false} LaterStays(v: seq<Entry>, i: nat, j: nat)
    requires Stamped(v) && i <= j < |v|
    ensures v[i].ts <= v[j].ts
  {}

  /** In the whole journal: the reader stood after `k` entries and the first `d` are gone, its own
      last one or earlier copies of it among them. It goes on at `j`, and misses only what lies
      between. */
  lemma {:induction false} NextPageAfterLoss(q: Query, st: Store, h: seq<Entry>, d: nat, k: nat, j: nat) returns (l: nat)
    requires Stamped(h) && Stamped(StoreRecords(st)) && Shows(q, st, h, d) && 0 < k <= j && d <= j < d + |Journal(q, st)|
    requires Resumes(At(h, k), Journal(q, st), j - d) && Fits(q, [h[j]]) && forall i :: 0 <= i < d ==> h[i].ts < h[j].ts
    ensures j < l <= d + |Journal(q, st)| <= |h| && Fits(q, h[j..l])
    ensures l < d + |Journal(q, st)| ==> !Fits(q, h[j..l + 1])
    ensures Page(q, At(h, k), st).out == h[j..l] && Page(q, At(h, k), st).next == At(h, l)
    ensures Page(q, At(h, k), st).outcome == if l == d + |Journal(q, st)| then Running else Full
  {
    hide Page, Count, Fits, Resumes, StoreRecords, Stamped, Entries, Journal;
    var v := Entries(Journal(q, st));
    var n := d + |v|;
    LaterStays(h, k - 1, j);
    var m := LostPage(q, st, At(h, k).value, j - d);
    l := d + m;
    Window(h, d, n, v, j, l);
    assert h[j..j + 1] == [h[j]];
    LaterStays(h, j, l - 1);
    CursorSurvives(h, d, n, l);
  }

  /** What a reader already has does not matter for what it gets. */
  lemma {:induction false} FollowGot(q: Query, r: Reader, stores: seq<Store>)
    ensures Follow(q, r, stores).got == r.got + Follow(q, r.(got := []), stores).got
    ensures Follow(q, r, stores).cursor == Follow(q, r.(got := []), stores).cursor
    ensures Follow(q, r, stores).whole == Follow(q, r.(got := []), stores).whole
    decreases |stores|
  {
    hide Page;
    if stores != [] {
      var s := Page(q, r.cursor, stores[0]);
      var next := Reader(r.got + s.out, s.next, s.outcome == Running);
      FollowGot(q, next, stores[1..]);
      FollowGot(q, next.(got := s.out), stores[1..]);
      assert [] + s.out == s.out && next.(got := []) == next.(got := s.out).(got := []);
    }
  }

  /** `FollowCursors`, whatever the reader has got so far. */
  lemma {:induction false} FollowFrom(q: Query, stores: seq<Store>, gone: seq<nat>, h: seq<Entry>, got: seq<Entry>, m: nat, whole: bool)
    returns (l: nat)
    requires Stamped(h) && m <= |h| && Tracks(q, stores, gone, h, m)
    ensures var r := Follow(q, Reader(got, At(h, m), whole), stores);
      && m <= l <= |h| && r.got == got + h[m..l] && r.cursor == At(h, l)
      && (stores != [] && r.whole ==> l == gone[|stores| - 1] + |Journal(q, stores[|stores| - 1])|)
      && (stores == [] ==> l == m && r.whole == whole)
  {
    hide Page, At, Tracks, Stamped, StoreRecords, Journal, Fits;
    var r := Reader(h[..m], At(h, m), whole);
    l := FollowCursors(q, stores, gone, h, r);
    FollowGot(q, r, stores);
    FollowGot(q, Reader(got, At(h, m), whole), stores);
    var rest := Follow(q, r.(got := []), stores).got;
    assert h[..m] + rest == h[..l];
    assert rest == h[m..l];
    if stores == [] { assert rest == []; }
  }

  /** Following cursors across the loss of the reader's own entry: the lost part apart, the rest of
      the journal is returned, each entry once and in order. */
  lemma {:induction false} FollowAfterLoss(q: Query, stores: seq<Store>, gone: seq<nat>, h: seq<Entry>, r: Reader, k: nat, j: nat)
    returns (l: nat)
    requires stores != [] && |gone| == |stores| && Stamped(h) && 0 < k <= j < |h| && gone[0] <= j < gone[0] + |Journal(q, stores[0])|
    requires Stamped(StoreRecords(stores[0])) && Shows(q, stores[0], h, gone[0]) && r.cursor == At(h, k)
    requires Resumes(At(h, k), Journal(q, stores[0]), j - gone[0])
    requires Fits(q, [h[j]]) && forall i :: 0 <= i < gone[0] ==> h[i].ts < h[j].ts
    requires Tracks(q, stores[1..], gone[1..], h, j + |Page(q, At(h, k), stores[0]).out|)
    ensures j < l <= |h| && Follow(q, r, stores).got == r.got + h[j..l] && Follow(q, r, stores).cursor == At(h, l)
    ensures Follow(q, r, stores).whole ==> l == gone[|stores| - 1] + |Journal(q, stores[|stores| - 1])|
  {
    hide Page, At, Shows, Tracks, Stamped, StoreRecords, Journal, Fits, Resumes;
    var m := NextPageAfterLoss(q, stores[0], h, gone[0], k, j);
    var s := Page(q, r.cursor, stores[0]);
    l := FollowFrom(q, stores[1..], gone[1..], h, r.got + s.out, m, s.outcome == Running);
    assert h[j..m] + h[m..l] == h[j..l];
    Names.Regrouped(r.got, h[j..m], h[m..l]);
    if |stores| > 1 {
      assert gone[1..][|stores| - 2] == gone[|stores| - 1] && stores[1..][|stores| - 2] == stores[|stores| - 1];
    }
  }

  /** A completed rotation loses the oldest generation and regroups the rest. */
  lemma {:induction false} RotationRegroups(q: Query, st: Store, st': Store)
    requires st.archives != [] && st'.archives == st.archives[1..] + [st.current] && st'.current == []
    ensures Entries(Journal(q, st)) == Select(q, Records(st.archives[0])) + Entries(Journal(q, st'))
  {
    hide Select, ArchiveRecords, Records, Journal, Entries;
    JournalSelects(q, st);
    JournalSelects(q, st');
    RotatedRecords(st, st');
    SelectConcat(q, Records(st.archives[0]), StoreRecords(st'));
  }

  lemma {:induction false} RotatedRecords(st: Store, st': Store)
    requires st.archives != [] && st'.archives == st.archives[1..] + [st.current] && st'.current == []
    ensures StoreRecords(st) == Records(st.archives[0]) + StoreRecords(st')
  {
    ArchivesFront(st.archives);
    ArchivesBack(st.archives[1..], st.current);
    assert Records(st'.current) == [];
    hide Records, ArchiveRecords;
    var a, b, c := Records(st.archives[0]), ArchiveRecords(st.archives[1..]), Records(st.current);
    assert (a + b) + c == a + ((b + c) + []);
  }

  lemma {:induction false} ArchivesBack(archives: seq<File>, f: File)
    ensures ArchiveRecords(archives + [f]) == ArchiveRecords(archives) + Records(f)
  {
    assert (archives + [f])[..|archives|] == archives;
  }

  lemma {:induction false} ArchivesFront(archives: seq<File>)
    requires archives != []
    ensures ArchiveRecords(archives) == Records(archives[0]) + ArchiveRecords(archives[1..])
  {
    var init := archives[..|archives| - 1];
    if init == [] {
      assert archives[1..] == [];
    } else {
      ArchivesFront(init);
      assert archives[1..][..|archives| - 2] == init[1..];
    }
  }
}
