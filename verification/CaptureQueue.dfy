/** The bounded capture queue of the journal: `enqueue`, `makeCaptureRoomLocked`,
`nextCapture` and the release and drop accounting around `writeCaptures`.

A group is one capture invocation. The writer goroutine owns at most one popped record at
a time. Which of several equally large queues is evicted depends on map order, so the
model leaves that choice open. */
module CaptureQueues {
  import opened Options
  import Names

  const CAPTURE_QUEUE_RECORDS: int := 16384
  const INVOCATION_QUEUE_RECORDS: int := 12288
  const CAPTURE_QUEUE_BYTES: int := 0x100_0000
  const INVOCATION_QUEUE_BYTES: int := 0x40_0000
  const MAX_QUEUED_GROUPS: int := 2048

  type Group = nat

  /** A captured record: `id` is its position in enqueue order, `size` its message bytes. */
  datatype Work = Work(id: nat, group: Group, size: nat)

  /** One group's queue with its byte counter. */
  datatype Pending = Pending(items: seq<Work>, bytes: int)

  /** The queue state. The last three fields are the history of a run: every record offered,
      written, and counted as dropped. */
  datatype Queue = Queue(
    queues: map<Group, Pending>, order: seq<Group>,
    queuedBytes: int, queuedRecords: int,
    groupBytes: map<Group, int>, groupRecords: map<Group, int>,
    closed: bool, inflight: Option<Work>,
    droppedRecords: int, droppedBytes: int,
    offered: seq<Work>, written: seq<Work>, dropped: seq<Work>)

  function Get(m: map<Group, int>, g: Group): int {
    if g in m then m[g] else 0
  }

  function Bytes(items: seq<Work>): nat {
    if items == [] then 0 else Bytes(items[..|items| - 1]) + items[|items| - 1].size
  }

  function Items(q: Queue, g: Group): seq<Work> {
    if g in q.queues then q.queues[g].items else []
  }

  function Flying(q: Queue): seq<Work> {
    match q.inflight case None => [] case Some(w) => [w]
  }

  function FlyingIn(q: Queue, g: Group): seq<Work> {
    if q.inflight.Some? && q.inflight.value.group == g then [q.inflight.value] else []
  }

  /** All pending records, one queue after the other in turn order. */
  function Backlog(queues: map<Group, Pending>, order: seq<Group>): seq<Work> {
    if order == [] then [] else
    var g := order[|order| - 1];
    Backlog(queues, order[..|order| - 1]) + (if g in queues then queues[g].items else [])
  }

  /* ---- The invariant ---- */

  /** The turn list holds exactly the groups with a non-empty queue, and each queue's byte
      counter is the size of its own records. */
  ghost predicate Listed(q: Queue) {
    && Names.NoDuplicates(q.order)
    && (forall g :: g in q.queues <==> g in q.order)
    && (forall g :: g in q.queues ==> QueueOk(g, q.queues[g]))
  }

  ghost predicate QueueOk(g: Group, p: Pending) {
    p.items != [] && p.bytes == Bytes(p.items) && forall i :: 0 <= i < |p.items| ==> p.items[i].group == g
  }

  /** Global and per-group counters are pending plus in-flight totals. */
  ghost predicate Accounted(q: Queue) {
    && Totalled(q)
    && (forall g :: GroupAccounted(q, g))
    && q.droppedRecords == |q.dropped| && q.droppedBytes == Bytes(q.dropped)
  }

  ghost predicate Totalled(q: Queue) {
    && q.queuedBytes == Bytes(Backlog(q.queues, q.order)) + Bytes(Flying(q))
    && q.queuedRecords == |Backlog(q.queues, q.order)| + |Flying(q)|
  }

  ghost predicate GroupAccounted(q: Queue, g: Group) {
    && Get(q.groupBytes, g) == Bytes(Items(q, g)) + Bytes(FlyingIn(q, g))
    && Get(q.groupRecords, g) == |Items(q, g)| + |FlyingIn(q, g)|
  }

  ghost predicate Limited(q: Queue) {
    && q.queuedBytes <= CAPTURE_QUEUE_BYTES && q.queuedRecords <= CAPTURE_QUEUE_RECORDS
    && (forall g :: Get(q.groupBytes, g) <= INVOCATION_QUEUE_BYTES)
    && (forall g :: Get(q.groupRecords, g) <= INVOCATION_QUEUE_RECORDS)
    && |q.order| <= MAX_QUEUED_GROUPS
  }

  /** Every offered record is in exactly one place. */
  ghost predicate Conserved(q: Queue) {
    multiset(q.offered) ==
      multiset(Backlog(q.queues, q.order)) + multiset(Flying(q)) + multiset(q.written) + multiset(q.dropped)
  }

  /** A group's records that were not lost: those written, then the one the writer owns,
      then those pending. */
  function Through(q: Queue, g: Group): seq<Work> {
    Of(q.written, g) + FlyingIn(q, g) + Items(q, g)
  }

  function Of(s: seq<Work>, g: Group): seq<Work> {
    if s == [] then [] else
    var w := s[|s| - 1];
    Of(s[..|s| - 1], g) + if w.group == g then [w] else []
  }

  /** Ids are positions in the offer order. */
  ghost predicate Increasing(s: seq<Work>, bound: nat) {
    && (forall i, j :: 0 <= i < j < |s| ==> s[i].id < s[j].id)
    && (forall i :: 0 <= i < |s| ==> s[i].id < bound)
  }

  /** Within a group, records are written in the order they were offered. */
  ghost predicate InOrder(q: Queue) {
    && (forall i :: 0 <= i < |q.offered| ==> q.offered[i].id == i)
    && (forall g :: Increasing(Through(q, g), |q.offered|))
  }

  ghost predicate Valid(q: Queue) {
    Listed(q) && Accounted(q) && Limited(q) && Conserved(q) && InOrder(q)
  }

  /* ---- Sequences ---- */

  lemma {:induction false} BytesConcat(a: seq<Work>, b: seq<Work>)
    ensures Bytes(a + b) == Bytes(a) + Bytes(b)
  {
    if b == [] {
      assert a + b == a;
    } else {
      BytesConcat(a, b[..|b| - 1]);
      assert (a + b)[..|a + b| - 1] == a + b[..|b| - 1];
    }
  }

  lemma {:induction false} BytesThree(a: seq<Work>, x: seq<Work>, b: seq<Work>)
    ensures Bytes(a + x + b) == Bytes(a) + Bytes(x) + Bytes(b)
  {
    BytesConcat(a + x, b);
    BytesConcat(a, x);
  }

  lemma {:induction false} BytesNone()
    ensures Bytes([]) == 0
  {}

  lemma {:induction false} BytesOne(w: Work)
    ensures Bytes([w]) == w.size
  {
    assert [w][..0] == [];
  }

  /** Changing one queue changes the backlog only at that queue's place. */
  lemma {:induction false} BacklogUpdate(queues: map<Group, Pending>, order: seq<Group>, g: Group, p: Pending)
    returns (a: seq<Work>, b: seq<Work>)
    requires Names.NoDuplicates(order) && g in order && g in queues
    ensures Backlog(queues, order) == a + queues[g].items + b
    ensures Backlog(queues[g := p], order) == a + p.items + b
  {
    var last := order[|order| - 1];
    var init := order[..|order| - 1];
    if last == g {
      assert g !in init;
      BacklogElsewhere(queues, init, g, p);
      a, b := Backlog(queues, init), [];
    } else {
      assert order == init + [last];
      a, b := BacklogUpdate(queues, init, g, p);
      var tail := if last in queues then queues[last].items else [];
      assert a + queues[g].items + (b + tail) == (a + queues[g].items + b) + tail;
      assert a + p.items + (b + tail) == (a + p.items + b) + tail;
      b := b + tail;
    }
  }

  lemma {:induction false} BacklogElsewhere(queues: map<Group, Pending>, order: seq<Group>, g: Group, p: Pending)
    requires g !in order
    ensures Backlog(queues[g := p], order) == Backlog(queues, order) == Backlog(queues - {g}, order)
  {
    if order != [] {
      BacklogElsewhere(queues, order[..|order| - 1], g, p);
      assert order[|order| - 1] in order;
    }
  }

  /** The backlog starts with the queue whose turn it is. */
  lemma {:induction false} BacklogFront(queues: map<Group, Pending>, order: seq<Group>)
    requires order != []
    ensures Backlog(queues, order) ==
        (if order[0] in queues then queues[order[0]].items else []) + Backlog(queues, order[1..])
  {
    var last := order[|order| - 1];
    var c := if last in queues then queues[last].items else [];
    assert Backlog(queues, order) == Backlog(queues, order[..|order| - 1]) + c;
    if |order| == 1 {
      assert order[..0] == [] && order[1..] == [];
    } else {
      var init, rest := order[..|order| - 1], order[1..];
      BacklogFront(queues, init);
      assert rest[..|rest| - 1] == init[1..] && rest[|rest| - 1] == last;
      assert Backlog(queues, rest) == Backlog(queues, init[1..]) + c;
      hide Backlog;
      Names.Regrouped(if order[0] in queues then queues[order[0]].items else [], Backlog(queues, init[1..]), c);
    }
  }

  /* ---- The steps, as state changes ---- */

  /** `dropCaptureLocked`. */
  function CountDrop(q: Queue, w: Work): Queue {
    q.(droppedRecords := q.droppedRecords + 1, droppedBytes := q.droppedBytes + w.size, dropped := q.dropped + [w])
  }

  /** `releaseCaptureLocked`. */
  function Release(q: Queue, w: Work): Queue {
    q.(queuedBytes := q.queuedBytes - w.size, queuedRecords := q.queuedRecords - 1,
       groupBytes := q.groupBytes[w.group := Get(q.groupBytes, w.group) - w.size],
       groupRecords := q.groupRecords[w.group := Get(q.groupRecords, w.group) - 1])
  }

  /** The newest pending record of a victim is dropped. */
  function Evict(q: Queue, g: Group): Queue
    requires g in q.queues && q.queues[g].items != []
  {
    var p := q.queues[g];
    var w := p.items[|p.items| - 1];
    Release(CountDrop(q.(queues := q.queues[g := Pending(p.items[..|p.items| - 1], p.bytes - w.size)]), w), w)
  }

  /** A record that is offered and refused. */
  function Refuse(q: Queue, w: Work): Queue {
    CountDrop(q.(offered := q.offered + [w]), w)
  }

  /** A record that is offered and queued. */
  function Accept(q: Queue, w: Work): Queue {
    var g := w.group;
    var p := if g in q.queues then q.queues[g] else Pending([], 0);
    q.(offered := q.offered + [w],
       order := if g in q.queues then q.order else q.order + [g],
       queues := q.queues[g := Pending(p.items + [w], p.bytes + w.size)],
       queuedBytes := q.queuedBytes + w.size, queuedRecords := q.queuedRecords + 1,
       groupBytes := q.groupBytes[g := Get(q.groupBytes, g) + w.size],
       groupRecords := q.groupRecords[g := Get(q.groupRecords, g) + 1])
  }

  /** The front queue hands its oldest record to the writer and goes to the back of the turn
      list, or leaves it when empty. */
  function Pop(q: Queue): Queue
    requires q.order != [] && q.order[0] in q.queues && q.queues[q.order[0]].items != []
  {
    var g := q.order[0];
    var p := q.queues[g];
    var w := p.items[0];
    if |p.items| == 1
    then q.(queues := q.queues - {g}, order := q.order[1..], inflight := Some(w))
    else q.(queues := q.queues[g := Pending(p.items[1..], p.bytes - w.size)], order := q.order[1..] + [g], inflight := Some(w))
  }

  /** The writer reports the outcome of the record it owns. */
  function Finish(q: Queue, failed: bool): Queue
    requires q.inflight.Some?
  {
    var w := q.inflight.value;
    var r := q.(inflight := None);
    Release(if failed then CountDrop(r, w) else r.(written := r.written + [w]), w)
  }

  /* ---- Eviction keeps the invariant ---- */

  lemma {:induction false} EvictKeeps(q: Queue, g: Group)
    requires Valid(q) && g in q.queues && |q.queues[g].items| > 1
    ensures Valid(Evict(q, g))
  {
    hide Listed, Accounted, Limited, Conserved, InOrder, Evict, QueueOk;
    EvictListed(q, g);
    EvictAccounted(q, g);
    EvictLimited(q, g);
    EvictConserved(q, g);
    EvictInOrder(q, g);
  }

  lemma {:induction false} BytesInit(items: seq<Work>)
    requires items != []
    ensures Bytes(items) == Bytes(items[..|items| - 1]) + items[|items| - 1].size
  {}

  lemma {:induction false} EvictListed(q: Queue, g: Group)
    requires Listed(q) && g in q.queues && |q.queues[g].items| > 1
    ensures Listed(Evict(q, g))
  {
    var r := Evict(q, g);
    forall h | h in r.queues ensures QueueOk(h, r.queues[h]) {
      assert QueueOk(h, q.queues[h]);
    }
  }

  lemma {:induction false} EvictAccounted(q: Queue, g: Group)
    requires Listed(q) && Accounted(q) && g in q.queues && |q.queues[g].items| > 1
    ensures Accounted(Evict(q, g))
  {
    hide Listed, Totalled, GroupAccounted, Bytes;
    var items := q.queues[g].items;
    var w := items[|items| - 1];
    BytesConcat(q.dropped, [w]);
    BytesOne(w);
    EvictTotalled(q, g);
    forall h ensures GroupAccounted(Evict(q, g), h) {
      EvictGroup(q, g, h);
    }
  }

  lemma {:induction false} EvictTotalled(q: Queue, g: Group)
    requires Listed(q) && Totalled(q) && g in q.queues && |q.queues[g].items| > 1
    ensures Totalled(Evict(q, g))
  {
    hide Backlog, Bytes;
    var r := Evict(q, g);
    var items := q.queues[g].items;
    var init := items[..|items| - 1];
    var a, b := BacklogUpdate(q.queues, q.order, g, r.queues[g]);
    hide Listed;
    BytesThree(a, items, b);
    BytesThree(a, init, b);
    BytesInit(items);
    assert Flying(r) == Flying(q);
  }

  lemma {:induction false} EvictGroup(q: Queue, g: Group, h: Group)
    requires Listed(q) && GroupAccounted(q, h) && g in q.queues && |q.queues[g].items| > 1
    ensures GroupAccounted(Evict(q, g), h)
  {
    var r := Evict(q, g);
    assert QueueOk(g, q.queues[g]);
    hide Listed, QueueOk, Bytes;
    BytesInit(q.queues[g].items);
    assert FlyingIn(r, h) == FlyingIn(q, h);
  }

  lemma {:induction false} EvictLimited(q: Queue, g: Group)
    requires Limited(q) && Listed(q) && g in q.queues && |q.queues[g].items| > 1
    ensures Limited(Evict(q, g))
  {
    var r := Evict(q, g);
    assert QueueOk(g, q.queues[g]);
    forall h ensures Get(r.groupBytes, h) <= Get(q.groupBytes, h) && Get(r.groupRecords, h) <= Get(q.groupRecords, h) {}
  }

  lemma {:induction false} EvictConserved(q: Queue, g: Group)
    requires Listed(q) && Conserved(q) && g in q.queues && |q.queues[g].items| > 1
    ensures Conserved(Evict(q, g))
  {
    var r := Evict(q, g);
    var items := q.queues[g].items;
    var init, w := items[..|items| - 1], items[|items| - 1];
    var a, b := BacklogUpdate(q.queues, q.order, g, r.queues[g]);
    hide Listed, Backlog;
    LoseLast(a, items, b);
    assert Flying(r) == Flying(q);
  }

  lemma {:induction false} LoseLast(a: seq<Work>, items: seq<Work>, b: seq<Work>)
    requires items != []
    ensures multiset(a + items + b) == multiset(a + items[..|items| - 1] + b) + multiset{items[|items| - 1]}
  {
    assert items == items[..|items| - 1] + [items[|items| - 1]];
  }

  lemma {:induction false} EvictInOrder(q: Queue, g: Group)
    requires InOrder(q) && g in q.queues && |q.queues[g].items| > 1
    ensures InOrder(Evict(q, g))
  {
    hide Of;
    var r := Evict(q, g);
    forall h ensures Increasing(Through(r, h), |r.offered|) {
      assert Increasing(Through(q, h), |q.offered|);
      assert FlyingIn(r, h) == FlyingIn(q, h);
      assert Items(r, h) <= Items(q, h);
      assert Through(q, h) == Through(r, h) + Items(q, h)[|Items(r, h)|..];
      hide Through;
      Front(Through(r, h), Items(q, h)[|Items(r, h)|..], |q.offered|);
    }
  }

  lemma {:induction false} Front(a: seq<Work>, b: seq<Work>, bound: nat)
    requires Increasing(a + b, bound)
    ensures Increasing(a, bound)
  {
    assert forall i :: 0 <= i < |a| ==> a[i] == (a + b)[i];
  }

  /* ---- Refusing a record ---- */

  lemma {:induction false} RefuseKeeps(q: Queue, w: Work)
    requires Valid(q) && w.id == |q.offered|
    ensures Valid(Refuse(q, w))
  {
    hide Accounted, Conserved, InOrder, QueueOk;
    RefuseAccounted(q, w);
    RefuseConserved(q, w);
    RefuseInOrder(q, w);
  }

  lemma {:induction false} RefuseAccounted(q: Queue, w: Work)
    requires Accounted(q)
    ensures Accounted(Refuse(q, w))
  {
    hide Backlog, Bytes;
    var r := Refuse(q, w);
    BytesConcat(q.dropped, [w]);
    BytesOne(w);
    assert Flying(r) == Flying(q);
    forall h ensures GroupAccounted(r, h) {
      assert GroupAccounted(q, h);
      assert Items(r, h) == Items(q, h) && FlyingIn(r, h) == FlyingIn(q, h);
    }
  }

  lemma {:induction false} RefuseConserved(q: Queue, w: Work)
    requires Conserved(q)
    ensures Conserved(Refuse(q, w))
  {
    hide Backlog;
    assert Flying(Refuse(q, w)) == Flying(q);
  }

  lemma {:induction false} RefuseInOrder(q: Queue, w: Work)
    requires InOrder(q) && w.id == |q.offered|
    ensures InOrder(Refuse(q, w))
  {
    hide Of;
    var r := Refuse(q, w);
    forall h ensures Increasing(Through(r, h), |r.offered|) {
      assert Increasing(Through(q, h), |q.offered|);
      assert Through(r, h) == Through(q, h);
    }
  }

  /* ---- Accepting a record ---- */

  /** The record is of the group's own, fits every limit and follows everything offered. */
  ghost predicate Fits(q: Queue, w: Work) {
    && w.id == |q.offered|
    && q.queuedBytes + w.size <= CAPTURE_QUEUE_BYTES && q.queuedRecords < CAPTURE_QUEUE_RECORDS
    && Get(q.groupBytes, w.group) + w.size <= INVOCATION_QUEUE_BYTES
    && Get(q.groupRecords, w.group) < INVOCATION_QUEUE_RECORDS
    && (w.group in q.queues || |q.order| < MAX_QUEUED_GROUPS)
  }

  lemma {:induction false} AcceptKeeps(q: Queue, w: Work)
    requires Valid(q) && Fits(q, w)
    ensures Valid(Accept(q, w))
  {
    hide Listed, Accounted, Limited, Conserved, InOrder, QueueOk, Accept, Fits;
    AcceptLimited(q, w);
    assert w.id == |q.offered| by { OfferedNext(q, w); }
    AcceptListed(q, w);
    AcceptAccounted(q, w);
    AcceptConserved(q, w);
    AcceptInOrder(q, w);
  }

  lemma {:induction false} OfferedNext(q: Queue, w: Work)
    requires Fits(q, w)
    ensures w.id == |q.offered|
  {}

  lemma {:induction false} AcceptLimited(q: Queue, w: Work)
    requires Limited(q) && Fits(q, w)
    ensures Limited(Accept(q, w))
  {
    var r := Accept(q, w);
    forall h ensures Get(r.groupBytes, h) == Get(q.groupBytes, h) + (if h == w.group then w.size else 0)
                  && Get(r.groupRecords, h) == Get(q.groupRecords, h) + (if h == w.group then 1 else 0) {}
  }

  lemma {:induction false} AcceptListed(q: Queue, w: Work)
    requires Listed(q)
    ensures Listed(Accept(q, w))
  {
    hide QueueOk, Bytes;
    var r := Accept(q, w);
    forall h | h in r.queues ensures QueueOk(h, r.queues[h]) {
      if h == w.group {
        PendingGrows(w, if h in q.queues then q.queues[h] else Pending([], 0));
      } else {
        assert QueueOk(h, q.queues[h]);
      }
    }
  }

  lemma {:induction false} PendingGrows(w: Work, p: Pending)
    requires p == Pending([], 0) || QueueOk(w.group, p)
    ensures QueueOk(w.group, Pending(p.items + [w], p.bytes + w.size))
  {
    BytesConcat(p.items, [w]);
    BytesOne(w);
  }

  /** The backlog gains the record and nothing else. */
  lemma {:induction false} AcceptBacklog(q: Queue, w: Work) returns (a: seq<Work>, b: seq<Work>)
    requires Listed(q)
    ensures Backlog(q.queues, q.order) == a + b
    ensures Backlog(Accept(q, w).queues, Accept(q, w).order) == a + [w] + b
  {
    var r := Accept(q, w);
    var g := w.group;
    if g in q.queues {
      var items := q.queues[g].items;
      var c: seq<Work>;
      c, b := BacklogUpdate(q.queues, q.order, g, r.queues[g]);
      a := c + items;
      assert c + (items + [w]) + b == c + items + [w] + b;
    } else {
      BacklogElsewhere(q.queues, q.order, g, r.queues[g]);
      assert r.order[..|r.order| - 1] == q.order;
      a, b := Backlog(q.queues, q.order), [];
      assert [] + [w] == [w];
    }
  }

  lemma {:induction false} AcceptAccounted(q: Queue, w: Work)
    requires Listed(q) && Accounted(q)
    ensures Accounted(Accept(q, w))
  {
    hide Listed, Totalled, GroupAccounted;
    AcceptTotalled(q, w);
    forall h ensures GroupAccounted(Accept(q, w), h) {
      AcceptGroup(q, w, h);
    }
  }

  lemma {:induction false} AcceptTotalled(q: Queue, w: Work)
    requires Listed(q) && Totalled(q)
    ensures Totalled(Accept(q, w))
  {
    hide Listed, Backlog, Bytes;
    var a, b := AcceptBacklog(q, w);
    BytesConcat(a, b);
    BytesThree(a, [w], b);
    BytesOne(w);
    assert Flying(Accept(q, w)) == Flying(q);
  }

  lemma {:induction false} AcceptGroup(q: Queue, w: Work, h: Group)
    requires GroupAccounted(q, h)
    ensures GroupAccounted(Accept(q, w), h)
  {
    hide Bytes;
    var r := Accept(q, w);
    BytesConcat(Items(q, w.group), [w]);
    BytesOne(w);
    assert FlyingIn(r, h) == FlyingIn(q, h);
    assert Items(r, h) == Items(q, h) + if h == w.group then [w] else [];
  }

  lemma {:induction false} AcceptConserved(q: Queue, w: Work)
    requires Listed(q) && Conserved(q)
    ensures Conserved(Accept(q, w))
  {
    hide Listed, Backlog;
    var r := Accept(q, w);
    var a, b := AcceptBacklog(q, w);
    assert multiset(a + [w] + b) == multiset(a) + multiset{w} + multiset(b);
    assert multiset(a + b) == multiset(a) + multiset(b);
    assert Flying(r) == Flying(q);
  }

  lemma {:induction false} AcceptInOrder(q: Queue, w: Work)
    requires InOrder(q) && w.id == |q.offered|
    ensures InOrder(Accept(q, w))
  {
    hide Of;
    var r := Accept(q, w);
    forall h ensures Increasing(Through(r, h), |r.offered|) {
      assert Increasing(Through(q, h), |q.offered|);
      assert Through(r, h) == Through(q, h) + if h == w.group then [w] else [];
    }
  }

  /* ---- Handing a record to the writer ---- */

  lemma {:induction false} PopKeeps(q: Queue)
    requires Valid(q) && q.inflight == None && q.order != []
    ensures q.order[0] in q.queues && q.queues[q.order[0]].items != []
    ensures Valid(Pop(q))
  {
    hide Listed, Accounted, Limited, Conserved, InOrder, QueueOk, Pop;
    FrontListed(q);
    PopListed(q);
    PopLimited(q);
    PopAccounted(q);
    PopConserved(q);
    PopInOrder(q);
  }

  lemma {:induction false} FrontListed(q: Queue)
    requires Listed(q) && q.order != []
    ensures q.order[0] in q.queues && q.queues[q.order[0]].items != []
    ensures QueueOk(q.order[0], q.queues[q.order[0]])
  {
    assert q.order[0] in q.order;
  }

  lemma {:induction false} PopLimited(q: Queue)
    requires Limited(q) && q.order != [] && q.order[0] in q.queues && q.queues[q.order[0]].items != []
    ensures Limited(Pop(q))
  {
    assert Pop(q).groupBytes == q.groupBytes && Pop(q).groupRecords == q.groupRecords;
  }

  lemma {:induction false} BytesHead(items: seq<Work>)
    requires items != []
    ensures Bytes(items) == items[0].size + Bytes(items[1..])
  {
    BytesOne(items[0]);
    BytesConcat([items[0]], items[1..]);
    assert items == [items[0]] + items[1..];
  }

  lemma {:induction false} PopListed(q: Queue)
    requires Listed(q) && q.order != [] && q.order[0] in q.queues && q.queues[q.order[0]].items != []
    ensures Listed(Pop(q))
  {
    hide Bytes;
    var r := Pop(q);
    var g := q.order[0];
    BytesHead(q.queues[g].items);
    Rotated(q.order);
    assert QueueOk(g, q.queues[g]);
    if |q.queues[g].items| > 1 { assert QueueOk(g, r.queues[g]); }
    hide QueueOk, Names.NoDuplicates;
  }

  lemma {:induction false} Rotated(order: seq<Group>)
    requires Names.NoDuplicates(order) && order != []
    ensures Names.NoDuplicates(order[1..]) && Names.NoDuplicates(order[1..] + [order[0]])
    ensures forall h :: h in order[1..] <==> h in order && h != order[0]
  {
    assert order == [order[0]] + order[1..];
  }

  /** The backlog loses its first record and nothing else. */
  lemma {:induction false} PopBacklog(q: Queue) returns (b: seq<Work>)
    requires Listed(q) && q.order != [] && q.order[0] in q.queues && q.queues[q.order[0]].items != []
    ensures Backlog(q.queues, q.order) == [q.queues[q.order[0]].items[0]] + q.queues[q.order[0]].items[1..] + b
    ensures Backlog(Pop(q).queues, Pop(q).order) == b + q.queues[q.order[0]].items[1..]
  {
    hide Backlog;
    var p := q.queues[q.order[0]];
    assert [p.items[0]] + p.items[1..] == p.items;
    Rotated(q.order);
    hide Listed, Names.NoDuplicates;
    b := RotateBacklog(q.queues, q.order, Pending(p.items[1..], p.bytes - p.items[0].size));
    assert |p.items| == 1 ==> b + p.items[1..] == b;
  }

  lemma {:induction false} RotateBacklog(queues: map<Group, Pending>, order: seq<Group>, p: Pending) returns (b: seq<Work>)
    requires order != [] && order[0] in queues && order[0] !in order[1..]
    ensures Backlog(queues, order) == queues[order[0]].items + b
    ensures Backlog(queues - {order[0]}, order[1..]) == b
    ensures Backlog(queues[order[0] := p], order[1..] + [order[0]]) == b + p.items
  {
    BacklogFront(queues, order);
    b := Backlog(queues, order[1..]);
    BacklogElsewhere(queues, order[1..], order[0], p);
    BacklogBack(queues[order[0] := p], order[1..], order[0]);
  }

  lemma {:induction false} BacklogBack(queues: map<Group, Pending>, order: seq<Group>, g: Group)
    requires g in queues
    ensures Backlog(queues, order + [g]) == Backlog(queues, order) + queues[g].items
  {
    assert (order + [g])[..|order|] == order;
  }

  lemma {:induction false} PopAccounted(q: Queue)
    requires Listed(q) && Accounted(q) && q.inflight == None
    requires q.order != [] && q.order[0] in q.queues && q.queues[q.order[0]].items != []
    ensures Accounted(Pop(q))
  {
    hide Listed, Totalled, GroupAccounted, Bytes;
    PopTotalled(q);
    forall h ensures GroupAccounted(Pop(q), h) {
      PopGroup(q, h);
    }
  }

  lemma {:induction false} PopTotalled(q: Queue)
    requires Listed(q) && Totalled(q) && q.inflight == None
    requires q.order != [] && q.order[0] in q.queues && q.queues[q.order[0]].items != []
    ensures Totalled(Pop(q))
  {
    hide Listed, Backlog, Bytes;
    var items := q.queues[q.order[0]].items;
    var b := PopBacklog(q);
    BytesThree([items[0]], items[1..], b);
    BytesConcat(b, items[1..]);
    BytesNone();
    assert Flying(q) == [] && Flying(Pop(q)) == [items[0]];
  }

  lemma {:induction false} PopGroup(q: Queue, h: Group)
    requires Listed(q) && GroupAccounted(q, h) && q.inflight == None
    requires q.order != [] && q.order[0] in q.queues && q.queues[q.order[0]].items != []
    ensures GroupAccounted(Pop(q), h)
  {
    hide Bytes, Listed;
    FrontListed(q);
    var r := Pop(q);
    var g := q.order[0];
    var items := q.queues[g].items;
    BytesHead(items);
    BytesNone();
    BytesOne(items[0]);
    assert FlyingIn(q, h) == [] && FlyingIn(r, h) == if h == g then [items[0]] else [];
    assert Items(r, h) == if h == g then items[1..] else Items(q, h);
  }

  lemma {:induction false} PopConserved(q: Queue)
    requires Listed(q) && Conserved(q) && q.inflight == None
    requires q.order != [] && q.order[0] in q.queues && q.queues[q.order[0]].items != []
    ensures Conserved(Pop(q))
  {
    hide Listed, Backlog;
    var r := Pop(q);
    var items := q.queues[q.order[0]].items;
    var b := PopBacklog(q);
    assert multiset([items[0]] + items[1..] + b) == multiset{items[0]} + multiset(items[1..]) + multiset(b);
    assert multiset(b + items[1..]) == multiset(b) + multiset(items[1..]);
    assert Flying(q) == [] && Flying(r) == [items[0]];
  }

  lemma {:induction false} PopInOrder(q: Queue)
    requires InOrder(q) && Listed(q) && q.inflight == None
    requires q.order != [] && q.order[0] in q.queues && q.queues[q.order[0]].items != []
    ensures InOrder(Pop(q))
  {
    hide Through, Listed, Increasing, Pop;
    forall h ensures Increasing(Through(Pop(q), h), |q.offered|) {
      PopThrough(q, h);
    }
    PopThrough(q, q.order[0]);
  }

  /** The record in flight was at the front of its queue. */
  lemma {:induction false} PopThrough(q: Queue, h: Group)
    requires Listed(q) && q.inflight == None
    requires q.order != [] && q.order[0] in q.queues && q.queues[q.order[0]].items != []
    ensures Through(Pop(q), h) == Through(q, h) && Pop(q).offered == q.offered
  {
    PopFront(q, h);
    var before, flying, items := Of(q.written, h), FlyingIn(Pop(q), h), Items(Pop(q), h);
    assert Of(Pop(q).written, h) == before;
    Names.Regrouped(before, flying, items);
    assert before + [] == before && FlyingIn(q, h) == [];
    hide Pop, FlyingIn, Items, Of;
  }

  lemma {:induction false} PopFront(q: Queue, h: Group)
    requires Listed(q)
    requires q.order != [] && q.order[0] in q.queues && q.queues[q.order[0]].items != []
    ensures FlyingIn(Pop(q), h) + Items(Pop(q), h) == Items(q, h)
  {
    FrontListed(q);
    hide Listed;
    var items := q.queues[q.order[0]].items;
    if h == q.order[0] {
      assert items == [items[0]] + items[1..];
      if |items| == 1 { assert items[1..] == []; }
    }
  }

  /* ---- The writer's outcome ---- */

  lemma {:induction false} FinishKeeps(q: Queue, failed: bool)
    requires Valid(q) && q.inflight.Some?
    ensures Valid(Finish(q, failed))
  {
    hide Listed, Accounted, Limited, Conserved, InOrder, QueueOk, Finish;
    FinishListed(q, failed);
    FinishAccounted(q, failed);
    FinishConserved(q, failed);
    FinishInOrder(q, failed);
  }

  lemma {:induction false} FinishListed(q: Queue, failed: bool)
    requires Listed(q) && Limited(q) && q.inflight.Some?
    ensures Listed(Finish(q, failed)) && Limited(Finish(q, failed))
  {
    var r := Finish(q, failed);
    forall h ensures Get(r.groupBytes, h) <= Get(q.groupBytes, h) && Get(r.groupRecords, h) <= Get(q.groupRecords, h) {}
  }

  lemma {:induction false} FinishAccounted(q: Queue, failed: bool)
    requires Accounted(q) && q.inflight.Some?
    ensures Accounted(Finish(q, failed))
  {
    hide Backlog, Bytes, GroupAccounted;
    var r := Finish(q, failed);
    var w := q.inflight.value;
    assert Flying(q) == [w] && Flying(r) == [];
    BytesOne(w);
    BytesConcat(q.dropped, [w]);
    BytesNone();
    forall h ensures GroupAccounted(r, h) {
      FinishGroup(q, failed, h);
    }
  }

  lemma {:induction false} FinishGroup(q: Queue, failed: bool, h: Group)
    requires GroupAccounted(q, h) && q.inflight.Some?
    ensures GroupAccounted(Finish(q, failed), h)
  {
    hide Bytes;
    var r := Finish(q, failed);
    var w := q.inflight.value;
    BytesOne(w);
    BytesNone();
    assert FlyingIn(r, h) == [] && FlyingIn(q, h) == if h == w.group then [w] else [];
    assert Items(r, h) == Items(q, h);
  }

  lemma {:induction false} FinishConserved(q: Queue, failed: bool)
    requires Conserved(q) && q.inflight.Some?
    ensures Conserved(Finish(q, failed))
  {
    hide Backlog;
    var r := Finish(q, failed);
    assert Flying(q) == [q.inflight.value] && Flying(r) == [];
  }

  lemma {:induction false} FinishInOrder(q: Queue, failed: bool)
    requires InOrder(q) && q.inflight.Some?
    ensures InOrder(Finish(q, failed))
  {
    hide Of, Increasing;
    var r := Finish(q, failed);
    forall h ensures Increasing(Through(r, h), |r.offered|) {
      assert Increasing(Through(q, h), |q.offered|);
      var a, x, c := Of(q.written, h), FlyingIn(q, h), Items(q, h);
      assert FlyingIn(r, h) == [] && Items(r, h) == c;
      if failed {
        Shorten(a, x, c, |q.offered|);
        assert a + [] + c == a + c;
      } else {
        OfAppend(q.written, q.inflight.value, h);
        assert (a + x) + [] + c == a + x + c;
      }
    }
  }

  lemma {:induction false} OfAppend(s: seq<Work>, w: Work, g: Group)
    ensures Of(s + [w], g) == Of(s, g) + if w.group == g then [w] else []
  {
    assert (s + [w])[..|s|] == s;
  }

  lemma {:induction false} Shorten(a: seq<Work>, x: seq<Work>, c: seq<Work>, bound: nat)
    requires Increasing(a + x + c, bound)
    ensures Increasing(a + c, bound)
  {
    var s, t := a + x + c, a + c;
    assert forall i :: 0 <= i < |t| ==> t[i] == s[if i < |a| then i else i + |x|];
  }

  /* ---- Choosing whom to displace ---- */

  /** A queue that may lose its newest record to a record of `size` bytes from `group`. */
  ghost predicate Eligible(q: Queue, g: Group, group: Group, size: nat, bytePressure: bool) {
    && g in q.queues && g != group && |q.queues[g].items| > 1
    && (if bytePressure then q.queues[g].bytes > Get(q.groupBytes, group) + size
        else |q.queues[g].items| > Get(q.groupRecords, group) + 1)
  }

  ghost function Weight(p: Pending, bytePressure: bool): int {
    if bytePressure then p.bytes else |p.items|
  }

  ghost predicate Pressed(q: Queue, size: nat) {
    q.queuedBytes + size > CAPTURE_QUEUE_BYTES || q.queuedRecords >= CAPTURE_QUEUE_RECORDS
  }

  ghost predicate BytePressed(q: Queue, size: nat) {
    q.queuedBytes + size > CAPTURE_QUEUE_BYTES
  }

  method PickVictim(q: Queue, group: Group, size: nat) returns (victim: Option<Group>)
    ensures victim.Some? ==>
      && Eligible(q, victim.value, group, size, BytePressed(q, size))
      && forall g :: Eligible(q, g, group, size, BytePressed(q, size)) ==>
           Weight(q.queues[g], BytePressed(q, size)) <= Weight(q.queues[victim.value], BytePressed(q, size))
    ensures victim.None? ==> forall g :: !Eligible(q, g, group, size, BytePressed(q, size))
    ensures victim.Some? ==> var v := victim.value;
      && v in q.queues && v != group && |q.queues[v].items| > 1
      && if q.queuedBytes + size > CAPTURE_QUEUE_BYTES
         then q.queues[v].bytes > Get(q.groupBytes, group) + size
              && forall g :: g in q.queues && g != group && |q.queues[g].items| > 1 ==> q.queues[g].bytes <= q.queues[v].bytes
         else |q.queues[v].items| > Get(q.groupRecords, group) + 1
              && forall g :: g in q.queues && g != group ==> |q.queues[g].items| <= |q.queues[v].items|
    ensures victim.None? ==> forall g :: g in q.queues && g != group && |q.queues[g].items| > 1 ==>
      if q.queuedBytes + size > CAPTURE_QUEUE_BYTES then q.queues[g].bytes <= Get(q.groupBytes, group) + size
      else |q.queues[g].items| <= Get(q.groupRecords, group) + 1
  {
    var bytePressure := q.queuedBytes + size > CAPTURE_QUEUE_BYTES;
    victim := None;
    var left := q.queues.Keys;
    while left != {}
      invariant left <= q.queues.Keys
      invariant victim.Some? ==> Eligible(q, victim.value, group, size, bytePressure)
      invariant forall g :: g in q.queues && g !in left && Eligible(q, g, group, size, bytePressure) ==>
        victim.Some? && Weight(q.queues[g], bytePressure) <= Weight(q.queues[victim.value], bytePressure)
      decreases left
    {
      var g :| g in left;
      left := left - {g};
      var p := q.queues[g];
      if g == group || |p.items| <= 1 { continue; }
      if bytePressure {
        if p.bytes <= Get(q.groupBytes, group) + size { continue; }
        if victim.None? || p.bytes > q.queues[victim.value].bytes { victim := Some(g); }
      } else {
        if |p.items| <= Get(q.groupRecords, group) + 1 { continue; }
        if victim.None? || |p.items| > |q.queues[victim.value].items| { victim := Some(g); }
      }
    }
  }

  /* ---- What making room may do ---- */

  /** From `q` to `r`, room was made for a record of `group`: only newest pending records of
      larger queues were dropped, no queue was emptied, and the turns did not change. */
  ghost predicate Trimmed(q: Queue, r: Queue, group: Group, size: nat) {
    && r.order == q.order && r.queues.Keys == q.queues.Keys
    && r.offered == q.offered && r.written == q.written && r.inflight == q.inflight && r.closed == q.closed
    && q.dropped <= r.dropped
    && r.queuedBytes <= q.queuedBytes && r.queuedRecords <= q.queuedRecords
    && Get(r.groupBytes, group) == Get(q.groupBytes, group) && Get(r.groupRecords, group) == Get(q.groupRecords, group)
    && (forall g :: g in q.queues ==> Displaced(q.queues[g], r.queues[g], g == group, Get(q.groupBytes, group) + size,
                                                Get(q.groupRecords, group) + 1))
  }

  /** What is left of a queue: a prefix, never empty; something was taken only from a queue
      that outweighs the requester in bytes or in records. */
  ghost predicate Displaced(p: Pending, r: Pending, own: bool, bytes: int, records: int) {
    && r.items <= p.items && r.bytes <= p.bytes && (p.items != [] ==> r.items != [])
    && (r != p ==> !own && (p.bytes > bytes || |p.items| > records))
  }

  lemma {:induction false} EvictTrims(q: Queue, r: Queue, g: Group, group: Group, size: nat)
    requires Trimmed(q, r, group, size) && Listed(r)
    requires Eligible(r, g, group, size, BytePressed(r, size))
    ensures Trimmed(q, Evict(r, g), group, size)
  {
    hide Displaced, Evict, Listed;
    EvictParts(r, g);
    var t := Evict(r, g);
    var bytes, records := Get(q.groupBytes, group) + size, Get(q.groupRecords, group) + 1;
    forall h | h in q.queues ensures Displaced(q.queues[h], t.queues[h], h == group, bytes, records) {
      EvictDisplaces(q, r, g, group, h, bytes, records);
    }
  }

  lemma {:induction false} EvictParts(q: Queue, g: Group)
    requires Listed(q) && g in q.queues && |q.queues[g].items| > 1
    ensures Evict(q, g).order == q.order && Evict(q, g).queues.Keys == q.queues.Keys
    ensures Evict(q, g).offered == q.offered && Evict(q, g).written == q.written
    ensures Evict(q, g).inflight == q.inflight && Evict(q, g).closed == q.closed
    ensures q.dropped <= Evict(q, g).dropped
    ensures Evict(q, g).queuedBytes <= q.queuedBytes && Evict(q, g).queuedRecords <= q.queuedRecords
    ensures forall h :: h != g ==> Get(Evict(q, g).groupBytes, h) == Get(q.groupBytes, h)
    ensures forall h :: h != g ==> Get(Evict(q, g).groupRecords, h) == Get(q.groupRecords, h)
  {
    assert QueueOk(g, q.queues[g]);
    hide Listed, QueueOk;
  }

  lemma {:induction false} EvictDisplaces(q: Queue, r: Queue, g: Group, group: Group, h: Group, bytes: int, records: int)
    requires h in q.queues && h in r.queues && Displaced(q.queues[h], r.queues[h], h == group, bytes, records)
    requires g in r.queues && g != group && |r.queues[g].items| > 1 && (r.queues[g].bytes > bytes || |r.queues[g].items| > records)
    ensures Displaced(q.queues[h], Evict(r, g).queues[h], h == group, bytes, records)
  {
    hide Displaced;
    if h == g { DisplaceOne(q.queues[g], r.queues[g], bytes, records); }
  }

  /** A queue that outweighs the requester loses its newest record. */
  lemma {:induction false} DisplaceOne(p: Pending, r: Pending, bytes: int, records: int)
    requires Displaced(p, r, false, bytes, records) && |r.items| > 1 && (r.bytes > bytes || |r.items| > records)
    ensures Displaced(p, Pending(r.items[..|r.items| - 1], r.bytes - r.items[|r.items| - 1].size), false, bytes, records)
  {}

  /** As many queues as turns. */
  lemma {:induction false} QueueCount(q: map<Group, Pending>, order: seq<Group>)
    requires Names.NoDuplicates(order) && forall g :: g in q <==> g in order
    ensures |q| == |order|
  {
    if order != [] {
      var g := order[|order| - 1];
      var init := order[..|order| - 1];
      assert order == init + [g];
      assert g !in init;
      QueueCount(q - {g}, init);
      assert q.Keys == (q - {g}).Keys + {g};
      assert |q| == |q.Keys| && |q - {g}| == |(q - {g}).Keys|;
    } else {
      assert q.Keys == {};
    }
  }

  /** What `enqueue` refuses before it tries to make room. */
  ghost predicate RefusedOutright(q: Queue, group: Group, size: nat) {
    || q.closed || size > CAPTURE_QUEUE_BYTES
    || Get(q.groupBytes, group) + size > INVOCATION_QUEUE_BYTES
    || Get(q.groupRecords, group) >= INVOCATION_QUEUE_RECORDS
    || (group !in q.queues && |q.queues| >= MAX_QUEUED_GROUPS)
  }

  lemma {:induction false} RoomFits(q: Queue, r: Queue, w: Work)
    requires Listed(r) && Trimmed(q, r, w.group, w.size)
    requires !RefusedOutright(q, w.group, w.size) && !Pressed(r, w.size) && w.id == |r.offered|
    ensures Fits(r, w)
  {
    QueueCount(r.queues, r.order);
    assert |q.queues| == |q.queues.Keys| && |r.queues| == |r.queues.Keys|;
  }

  /* ---- The queue ---- */

  lemma {:induction false} EmptyValid(q: Queue)
    requires q.queues == map[] && q.order == [] && q.queuedBytes == 0 && q.queuedRecords == 0
    requires q.groupBytes == map[] && q.groupRecords == map[] && q.inflight == None
    requires q.droppedRecords == 0 && q.droppedBytes == 0 && q.offered == [] && q.written == [] && q.dropped == []
    ensures Valid(q)
  {
    assert Flying(q) == [] && Backlog(q.queues, q.order) == [] && Bytes([]) == 0;
    assert Listed(q) && Totalled(q) && Conserved(q);
    hide Listed, Totalled, Conserved, Bytes, Backlog;
    forall g ensures GroupAccounted(q, g) {}
    assert Accounted(q) && Limited(q);
    hide Accounted, Limited;
    forall g ensures Increasing(Through(q, g), 0) {}
  }

  class CaptureQueue {
    var s: Queue

    constructor ()
      ensures Valid(s) && s.offered == [] && s.order == [] && !s.closed && s.inflight == None
    {
      s := Queue(map[], [], 0, 0, map[], map[], false, None, 0, 0, [], [], []);
      new;
      hide Valid;
      EmptyValid(s);
    }

    /** `makeCaptureRoomLocked`. */
    method MakeRoom(group: Group, size: nat) returns (ok: bool)
      requires Valid(s)
      modifies this
      ensures Valid(s) && Trimmed(old(s), s, group, size)
      ensures ok == !Pressed(s, size)
      ensures ok <==> s.queuedBytes + size <= CAPTURE_QUEUE_BYTES && s.queuedRecords < CAPTURE_QUEUE_RECORDS
      ensures !ok ==> forall g :: !Eligible(s, g, group, size, BytePressed(s, size))
      ensures !Pressed(old(s), size) ==> s == old(s)
    {
      hide Valid, Listed, Accounted, Limited, Conserved, InOrder, Trimmed, Eligible, Evict;
      TrimmedSelf(s, group, size);
      while s.queuedBytes + size > CAPTURE_QUEUE_BYTES || s.queuedRecords >= CAPTURE_QUEUE_RECORDS
        invariant Valid(s) && Trimmed(old(s), s, group, size)
        invariant !Pressed(old(s), size) ==> s == old(s)
        decreases s.queuedRecords
      {
        var victim := PickVictim(s, group, size);
        if victim.None? { return false; }
        EvictSteps(old(s), s, victim.value, group, size);
        s := Evict(s, victim.value);
      }
      return true;
    }

    /** `enqueue`. */
    method Enqueue(group: Group, size: nat) returns (accepted: bool)
      requires Valid(s)
      modifies this
      ensures Valid(s)
      ensures s.offered == old(s.offered) + [Work(|old(s.offered)|, group, size)]
      ensures old(s.order) <= s.order && s.inflight == old(s.inflight) && s.written == old(s.written)
      ensures forall g :: g != group ==> Items(s, g) <= Items(old(s), g)
      ensures Items(s, group) == Items(old(s), group) + if accepted then [Work(|old(s.offered)|, group, size)] else []
      ensures !accepted ==> s.dropped != [] && s.dropped[|s.dropped| - 1] == s.offered[|s.offered| - 1]
      ensures RefusedOutright(old(s), group, size) ==> !accepted
      ensures !RefusedOutright(old(s), group, size) ==>
        accepted || (Pressed(s, size) && forall g :: !Eligible(s, g, group, size, BytePressed(s, size)))
      ensures && !old(s.closed) && size <= CAPTURE_QUEUE_BYTES && Get(old(s.groupBytes), group) + size <= INVOCATION_QUEUE_BYTES
              && Get(old(s.groupRecords), group) < INVOCATION_QUEUE_RECORDS
              && (group in old(s.queues) || |old(s.queues)| < MAX_QUEUED_GROUPS)
              && old(s.queuedBytes) + size <= CAPTURE_QUEUE_BYTES && old(s.queuedRecords) < CAPTURE_QUEUE_RECORDS
        ==> accepted && s.dropped == old(s.dropped)
    {
      hide Valid, Listed, Accounted, Limited, Conserved, InOrder, Trimmed, Eligible, Evict, Refuse, Accept, Fits;
      var w := Work(|s.offered|, group, size);
      ghost var before := s;
      if s.closed || size > CAPTURE_QUEUE_BYTES || Get(s.groupBytes, group) + size > INVOCATION_QUEUE_BYTES
         || Get(s.groupRecords, group) >= INVOCATION_QUEUE_RECORDS || (group !in s.queues && |s.queues| >= MAX_QUEUED_GROUPS) {
        RefuseKeeps(s, w);
        TrimmedSelf(s, group, size);
        Refused(before, s, w);
        s := Refuse(s, w);
        return false;
      }
      var room := MakeRoom(group, size);
      assert s.offered == before.offered by { TrimmedMeans(before, s, group, size); }
      if !room {
        RefuseKeeps(s, w);
        Refused(before, s, w);
        s := Refuse(s, w);
        return false;
      }
      ValidListed(s);
      RoomFits(before, s, w);
      AcceptKeeps(s, w);
      Accepted(before, s, w);
      s := Accept(s, w);
      return true;
    }

    /** `nextCapture`, called by the one writer: the front group hands over its oldest record
        and goes to the back. */
    method Next() returns (work: Option<Work>)
      requires Valid(s) && s.inflight == None
      modifies this
      ensures Valid(s)
      ensures work.None? <==> old(s.order) == []
      ensures work.None? ==> s == old(s)
      ensures work.Some? ==>
        && work == s.inflight && work.value.group == old(s.order)[0] && Served(old(s.order), s.order)
        && Items(old(s), old(s.order)[0]) == [work.value] + Items(s, old(s.order)[0])
        && (forall g :: g != old(s.order)[0] ==> Items(s, g) == Items(old(s), g))
        && s.written == old(s.written) && s.dropped == old(s.dropped) && s.offered == old(s.offered)
    {
      if s.order == [] { return None; }
      hide Valid, Pop;
      PopKeeps(s);
      Popped(s);
      s := Pop(s);
      work := s.inflight;
    }

    /** The accounting of `writeCaptures` after the write of the record it owns. */
    method Complete(failed: bool)
      requires Valid(s) && s.inflight.Some?
      modifies this
      ensures Valid(s) && s.inflight == None && s.order == old(s.order) && s.queues == old(s.queues)
      ensures s.offered == old(s.offered)
      ensures failed ==> s.dropped == old(s.dropped) + [old(s.inflight).value] && s.written == old(s.written)
      ensures !failed ==> s.written == old(s.written) + [old(s.inflight).value] && s.dropped == old(s.dropped)
    {
      FinishKeeps(s, failed);
      hide Valid, Listed, Accounted, Limited, Conserved, InOrder, QueueOk;
      s := Finish(s, failed);
    }

    /** After closing, nothing more is accepted; what is pending can still be drained. */
    method Close()
      requires Valid(s)
      modifies this
      ensures Valid(s) && s == old(s).(closed := true)
    {
      CloseKeeps(s);
      s := s.(closed := true);
    }

    /** Every run, with any records offered, any evictions they cause and any outcomes of writes:
        a group at place `p` of the turn list is served by exactly the pop after the first `p`.
        `pops` are the records handed to the writer, in order. */
    method Run() returns (pops: seq<Work>)
      requires Valid(s)
      modifies this
      ensures Valid(s) && MovedUp(old(s.order), s.order, |pops|)
      ensures forall p :: 0 <= p < |pops| && p < |old(s.order)| ==> pops[p].group == old(s.order)[p]
    {
      hide Valid, Served, MovedUp, Eligible, RefusedOutright, Pressed, Items;
      ghost var first := s.order;
      pops := [];
      MovedNone(first);
      var n: nat := *;
      while n > 0
        invariant Valid(s) && MovedUp(first, s.order, |pops|)
        invariant forall p :: 0 <= p < |pops| && p < |first| ==> pops[p].group == first[p]
        decreases n
      {
        n := n - 1;
        ghost var now := s.order;
        var choice: nat, group: Group, size: nat, failed: bool := *, *, *, *;
        if choice == 0 {
          var _ := Enqueue(group, size);
          MovesUp(first, now, s.order, |pops|);
        } else if choice == 1 && s.inflight == None {
          var work := Next();
          if work.Some? {
            MovesUp(first, now, s.order, |pops|);
            pops := pops + [work.value];
          }
        } else if choice == 2 && s.inflight.Some? {
          Complete(failed);
        } else if choice == 3 {
          Close();
        }
      }
    }
  }

  lemma {:induction false} Popped(q: Queue)
    requires q.order != [] && q.order[0] in q.queues && q.queues[q.order[0]].items != []
    ensures Pop(q).inflight == Some(q.queues[q.order[0]].items[0]) && Served(q.order, Pop(q).order)
    ensures Items(q, q.order[0]) == [q.queues[q.order[0]].items[0]] + Items(Pop(q), q.order[0])
    ensures forall g :: g != q.order[0] ==> Items(Pop(q), g) == Items(q, g)
    ensures Pop(q).written == q.written && Pop(q).dropped == q.dropped && Pop(q).offered == q.offered
  {
    var items := q.queues[q.order[0]].items;
    assert items == [items[0]] + items[1..];
  }

  lemma {:induction false} CloseKeeps(q: Queue)
    requires Valid(q)
    ensures Valid(q.(closed := true))
  {
    var r := q.(closed := true);
    hide Backlog, Bytes, Of, Increasing, QueueOk;
    assert Flying(r) == Flying(q);
    forall h ensures GroupAccounted(r, h) {
      assert GroupAccounted(q, h) && Items(r, h) == Items(q, h) && FlyingIn(r, h) == FlyingIn(q, h);
    }
    forall h ensures Increasing(Through(r, h), |r.offered|) {
      assert Increasing(Through(q, h), |q.offered|) && Through(r, h) == Through(q, h);
    }
  }

  lemma {:induction false} TrimmedSelf(q: Queue, group: Group, size: nat)
    ensures Trimmed(q, q, group, size)
  {}

  lemma {:induction false} TrimmedMeans(q: Queue, r: Queue, group: Group, size: nat)
    requires Trimmed(q, r, group, size)
    ensures r.offered == q.offered && r.order == q.order && r.inflight == q.inflight && r.written == q.written
    ensures Items(r, group) == Items(q, group) && forall g :: Items(r, g) <= Items(q, g)
  {
    forall g ensures Items(r, g) <= Items(q, g) && (g == group ==> Items(r, g) == Items(q, g)) {
      if g in q.queues {
        assert Displaced(q.queues[g], r.queues[g], g == group, Get(q.groupBytes, group) + size, Get(q.groupRecords, group) + 1);
      } else {
        assert g !in r.queues.Keys;
      }
    }
  }

  lemma {:induction false} ValidListed(q: Queue)
    requires Valid(q)
    ensures Listed(q)
  {}

  lemma {:induction false} EvictSteps(q: Queue, r: Queue, g: Group, group: Group, size: nat)
    requires Valid(r) && Trimmed(q, r, group, size) && Pressed(r, size)
    requires Eligible(r, g, group, size, BytePressed(r, size))
    ensures g in r.queues && r.queues[g].items != []
    ensures Valid(Evict(r, g)) && Trimmed(q, Evict(r, g), group, size)
    ensures r.queuedRecords > 0 && Evict(r, g).queuedRecords == r.queuedRecords - 1
    ensures !Pressed(q, size) ==> q.queuedRecords < r.queuedRecords || q.queuedBytes < r.queuedBytes
  {
    ValidListed(r);
    EvictTrims(q, r, g, group, size);
    assert r.queuedRecords > 0 by {
      var a, b := BacklogUpdate(r.queues, r.order, g, r.queues[g]);
    }
    hide Listed, Accounted, Limited, Conserved, InOrder, Trimmed;
    EvictKeeps(r, g);
  }

  lemma {:induction false} Refused(q: Queue, r: Queue, w: Work)
    requires Trimmed(q, r, w.group, w.size)
    ensures Refuse(r, w).offered == q.offered + [w] && Refuse(r, w).order == q.order
    ensures Refuse(r, w).inflight == q.inflight && Refuse(r, w).written == q.written
    ensures Items(Refuse(r, w), w.group) == Items(q, w.group)
    ensures forall g :: Items(Refuse(r, w), g) <= Items(q, g)
    ensures Refuse(r, w).dropped == r.dropped + [w]
    ensures Pressed(Refuse(r, w), w.size) == Pressed(r, w.size) && BytePressed(Refuse(r, w), w.size) == BytePressed(r, w.size)
    ensures forall g, p :: Eligible(Refuse(r, w), g, w.group, w.size, p) == Eligible(r, g, w.group, w.size, p)
  {
    hide Trimmed;
    TrimmedMeans(q, r, w.group, w.size);
    assert forall g :: Items(Refuse(r, w), g) == Items(r, g);
  }

  lemma {:induction false} Accepted(q: Queue, r: Queue, w: Work)
    requires Trimmed(q, r, w.group, w.size)
    ensures Accept(r, w).offered == q.offered + [w] && q.order <= Accept(r, w).order
    ensures Accept(r, w).inflight == q.inflight && Accept(r, w).written == q.written && Accept(r, w).dropped == r.dropped
    ensures Items(Accept(r, w), w.group) == Items(q, w.group) + [w]
    ensures forall g :: g != w.group ==> Items(Accept(r, w), g) <= Items(q, g)
  {
    hide Trimmed;
    TrimmedMeans(q, r, w.group, w.size);
    assert forall g :: g != w.group ==> Items(Accept(r, w), g) == Items(r, g);
  }

  /* ---- Turns are fair ---- */

  /** One call of `nextCapture` on the turn list. */
  ghost predicate Served(o: seq<Group>, o': seq<Group>) {
    o != [] && (o' == o[1..] || o' == o[1..] + [o[0]])
  }

  /** After `n` pops, every group of the first turn list that was not served yet has moved up by
      `n` places. */
  ghost predicate MovedUp(first: seq<Group>, now: seq<Group>, n: nat) {
    forall p :: n <= p < |first| ==> Stands(now, p - n, first[p])
  }

  predicate Stands(order: seq<Group>, place: int, g: Group) {
    0 <= place < |order| && order[place] == g
  }

  lemma {:induction false} MovesUp(first: seq<Group>, now: seq<Group>, next: seq<Group>, n: nat)
    requires MovedUp(first, now, n)
    ensures now <= next ==> MovedUp(first, next, n)
    ensures Served(now, next) ==> MovedUp(first, next, n + 1) && (n < |first| ==> now[0] == first[n])
  {
    if n < |first| { assert Stands(now, n - n, first[n]); }
    if now <= next {
      forall p | n <= p < |first| ensures Stands(next, p - n, first[p]) { assert Stands(now, p - n, first[p]); }
    }
    if Served(now, next) {
      forall p | n + 1 <= p < |first| ensures Stands(next, p - (n + 1), first[p]) { assert Stands(now, p - n, first[p]); }
    }
  }

  lemma {:induction false} MovedNone(first: seq<Group>)
    ensures MovedUp(first, first, 0)
  {}
}
