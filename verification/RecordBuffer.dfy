/** The journal write buffer (`recordBuffer`): bytes survive short and failing writes.

The writer's answer to each Write call is a parameter: it may take any number of bytes,
claim an impossible number, or fail after taking some. */
module RecordBuffers {

  newtype byte = x: int | 0 <= x < 256

  type Bytes = seq<byte>

  const JOURNAL_BUFFER_SIZE: nat := 4096

  datatype BufferedRecord = BufferedRecord(remaining: nat, messageBytes: nat)

  /** What `Write` returned: bytes taken, and whether it reported an error. */
  datatype WriteAnswer = WriteAnswer(n: int, failed: bool)

  /** A record accepted by `append`. */
  datatype Accepted = Accepted(raw: Bytes, messageBytes: nat)

  function Concat(records: seq<Accepted>): Bytes {
    if records == [] then [] else Concat(records[..|records| - 1]) + records[|records| - 1].raw
  }

  function Sum(records: seq<BufferedRecord>): nat {
    if records == [] then 0 else records[0].remaining + Sum(records[1..])
  }

  /** The remainders of records of which nothing is written. */
  function Whole(records: seq<Accepted>): (w: seq<BufferedRecord>)
    ensures |w| == |records|
    ensures forall i :: 0 <= i < |w| ==> w[i] == BufferedRecord(|records[i].raw|, records[i].messageBytes)
  {
    seq(|records|, i requires 0 <= i < |records| => BufferedRecord(|records[i].raw|, records[i].messageBytes))
  }

  /** `pending` lists the last accepted records `tail`: all whole except that the first may
      be part-written. Only an empty record is kept with nothing left to write. */
  ghost predicate Describes(pending: seq<BufferedRecord>, tail: seq<Accepted>) {
    && |pending| == |tail|
    && (pending != [] ==>
          && pending[0].messageBytes == tail[0].messageBytes && pending[0].remaining <= |tail[0].raw|
          && (pending[0].remaining == 0 ==> tail[0].raw == [])
          && pending[1..] == Whole(tail[1..]))
  }

  /** The remainders after `n` bytes were taken: whole records first, then a part of the
      next one. */
  function Consume(pending: seq<BufferedRecord>, n: nat): seq<BufferedRecord> {
    if n == 0 || pending == [] then pending
    else if n < pending[0].remaining then [pending[0].(remaining := pending[0].remaining - n)] + pending[1..]
    else Consume(pending[1..], n - pending[0].remaining)
  }

  lemma {:induction false} WholeDescribes(tail: seq<Accepted>)
    ensures Describes(Whole(tail), tail)
  {
    if tail != [] {
      assert Whole(tail)[1..] == Whole(tail[1..]);
    }
  }

  lemma {:induction false} ConsumeDescribes(pending: seq<BufferedRecord>, tail: seq<Accepted>, n: nat)
    requires Describes(pending, tail) && n <= Sum(pending)
    ensures var rest := Consume(pending, n);
      |rest| <= |pending| && Sum(rest) == Sum(pending) - n && Describes(rest, tail[|tail| - |rest|..])
  {
    hide Describes, Whole;
    PendingLength(pending, tail);
    if n == 0 || pending == [] {
      assert tail[|tail| - |pending|..] == tail;
    } else if n < pending[0].remaining {
      PartDescribes(pending, tail, n);
      assert tail[|tail| - |pending|..] == tail;
    } else {
      PopDescribes(pending, tail);
      var rest := Consume(pending[1..], n - pending[0].remaining);
      ConsumeDescribes(pending[1..], tail[1..], n - pending[0].remaining);
      assert tail[1..][|tail[1..]| - |rest|..] == tail[|tail| - |rest|..];
    }
  }

  lemma {:induction false} PartDescribes(pending: seq<BufferedRecord>, tail: seq<Accepted>, n: nat)
    requires Describes(pending, tail) && pending != [] && 0 < n < pending[0].remaining
    ensures var rest := [pending[0].(remaining := pending[0].remaining - n)] + pending[1..];
      Describes(rest, tail) && Sum(rest) == Sum(pending) - n
  {
    var rest := [pending[0].(remaining := pending[0].remaining - n)] + pending[1..];
    assert rest[1..] == pending[1..];
  }

  lemma {:induction false} PopDescribes(pending: seq<BufferedRecord>, tail: seq<Accepted>)
    requires Describes(pending, tail) && pending != []
    ensures tail != [] && Describes(pending[1..], tail[1..])
  {
    WholeDescribes(tail[1..]);
  }

  lemma {:induction false} PendingLength(pending: seq<BufferedRecord>, tail: seq<Accepted>)
    requires Describes(pending, tail)
    ensures |pending| == |tail|
  {}

  /** If all pending bytes belong to the last record, they still do after a write. */
  lemma {:induction false} ConsumeKeepsLast(pending: seq<BufferedRecord>, n: nat)
    requires n <= Sum(pending) && pending != [] && pending[|pending| - 1].remaining == Sum(pending)
    ensures var rest := Consume(pending, n);
      Sum(rest) == Sum(pending) - n && (rest == [] || rest[|rest| - 1].remaining == Sum(rest))
  {
    if n == 0 {
    } else if |pending| == 1 {
      assert pending[1..] == [];
    } else {
      SumOfSplit(pending[..1], pending[1..]);
      SumSingle(pending[1..], |pending| - 2);
      assert pending == pending[..1] + pending[1..];
      ConsumeKeepsLast(pending[1..], n);
    }
  }

  lemma {:induction false} SumOfSplit(a: seq<BufferedRecord>, b: seq<BufferedRecord>)
    ensures Sum(a + b) == Sum(a) + Sum(b)
  {
    if a == [] {
      assert a + b == b;
    } else {
      SumOfSplit(a[1..], b);
      assert (a + b)[1..] == a[1..] + b;
    }
  }

  lemma {:induction false} SumSingle(s: seq<BufferedRecord>, i: nat)
    requires i < |s|
    ensures s[i].remaining <= Sum(s)
  {
    if i > 0 { SumSingle(s[1..], i - 1); }
  }

  /* ---- Counting what would be lost ---- */

  /** How many accepted records are not completely within the first `w` bytes. */
  function Unwritten(accepted: seq<Accepted>, w: nat): nat {
    if accepted == [] then 0
    else Unwritten(accepted[..|accepted| - 1], w) + (if |Concat(accepted)| > w then 1 else 0)
  }

  lemma {:induction false} UnwrittenNone(accepted: seq<Accepted>, w: nat)
    requires |Concat(accepted)| <= w
    ensures Unwritten(accepted, w) == 0
  {
    if accepted != [] { UnwrittenNone(accepted[..|accepted| - 1], w); }
  }

  lemma {:induction false} UnwrittenFrom(accepted: seq<Accepted>, k: nat, w: nat)
    requires k <= |accepted| && |Concat(accepted[..k])| <= w
    ensures Unwritten(accepted, w) <= |accepted| - k
    ensures k < |accepted| && |Concat(accepted[..k + 1])| > w ==> Unwritten(accepted, w) == |accepted| - k
    ensures k < |accepted| && |Concat(accepted[..k + 1])| <= w ==> Unwritten(accepted, w) < |accepted| - k
  {
    hide Sum, Whole, Concat;
    if k == |accepted| {
      assert accepted[..k] == accepted;
      UnwrittenNone(accepted, w);
    } else {
      var last := |accepted| - 1;
      assert accepted[..last][..k] == accepted[..k];
      UnwrittenFrom(accepted[..last], k, w);
      if k < last {
        assert accepted[..last][..k + 1] == accepted[..k + 1];
        ConcatGrows(accepted, k + 1);
      } else {
        assert accepted[..k + 1] == accepted;
      }
    }
  }

  lemma {:induction false} ConcatGrows(accepted: seq<Accepted>, k: nat)
    requires k <= |accepted|
    ensures |Concat(accepted[..k])| + Sum(Whole(accepted[k..])) == |Concat(accepted)|
    decreases |accepted| - k
  {
    if k == |accepted| {
      assert accepted[..k] == accepted;
    } else {
      ConcatGrows(accepted, k + 1);
      assert accepted[..k + 1][..k] == accepted[..k];
      assert Whole(accepted[k..])[1..] == Whole(accepted[k + 1..]);
    }
  }

  /** The pending list has one entry per unwritten record exactly when it does not start
      with an empty record, which has nothing to write yet is still listed. */
  lemma {:induction false} PendingIsUnwritten(pending: seq<BufferedRecord>, accepted: seq<Accepted>, written: nat)
    requires |pending| <= |accepted| && Describes(pending, accepted[|accepted| - |pending|..])
    requires written + Sum(pending) == |Concat(accepted)|
    ensures |pending| == Unwritten(accepted, written) <==>
        pending == [] || accepted[|accepted| - |pending|].raw != []
  {
    var k := |accepted| - |pending|;
    if pending == [] {
      assert accepted[..k] == accepted;
      UnwrittenNone(accepted, written);
    } else {
      ConcatGrows(accepted, k + 1);
      assert accepted[k..][1..] == accepted[k + 1..];
      assert accepted[..k + 1][..k] == accepted[..k];
      UnwrittenFrom(accepted, k, written);
    }
  }

  /** Bytes taken by the writer followed by the buffer are exactly the accepted records; the
      remainders describe and add up to the buffer; the buffer is small, or all of it belongs
      to one record. */
  ghost predicate Sound(data: Bytes, records: seq<BufferedRecord>, accepted: seq<Accepted>, written: Bytes) {
    && written + data == Concat(accepted)
    && Sum(records) == |data|
    && |records| <= |accepted| && Describes(records, accepted[|accepted| - |records|..])
    && Bounded(data, records)
  }

  /** The journal ends every record with a newline, so it appends no empty one; then the pending
      records are exactly those not fully written. */
  lemma {:induction false} PendingIsExact(pending: seq<BufferedRecord>, accepted: seq<Accepted>, written: nat)
    requires |pending| <= |accepted| && Describes(pending, accepted[|accepted| - |pending|..])
    requires written + Sum(pending) == |Concat(accepted)|
    requires forall i :: 0 <= i < |accepted| ==> accepted[i].raw != []
    ensures |pending| == Unwritten(accepted, written)
  {
    PendingIsUnwritten(pending, accepted, written);
  }

  /** The buffer alone would take an empty record, and count it as pending although nothing of
      it is unwritten. */
  lemma {:induction false} EmptyRecordIsMiscounted(m: nat)
    ensures Sound([], [BufferedRecord(0, m)], [Accepted([], m)], [])
    ensures Unwritten([Accepted([], m)], 0) == 0 < |[BufferedRecord(0, m)]|
  {
    var accepted, pending := [Accepted([], m)], [BufferedRecord(0, m)];
    assert accepted[..0] == [] && accepted[1..] == [] && pending[1..] == [] && accepted[0..] == accepted;
    assert Sum([]) == 0 && Concat([]) == [];
    assert Whole([]) == [];
  }

  lemma {:induction false} FlushKeeps(data: Bytes, records: seq<BufferedRecord>, accepted: seq<Accepted>, written: Bytes, n: nat)
    requires Sound(data, records, accepted, written) && n <= |data|
    ensures Sound(data[n..], Consume(records, n), accepted, written + data[..n])
  {
    hide Describes, Concat, Bounded;
    ConsumeDescribes(records, accepted[|accepted| - |records|..], n);
    BoundedShrinks(data, records, n);
    TailOfTail(accepted, |records|, |Consume(records, n)|);
    assert written + data[..n] + data[n..] == written + data;
  }

  lemma {:induction false} AppendKeeps(data: Bytes, records: seq<BufferedRecord>, accepted: seq<Accepted>, written: Bytes, a: Accepted)
    requires Sound(data, records, accepted, written)
    requires data == [] || |data| + |a.raw| <= JOURNAL_BUFFER_SIZE
    ensures Sound(data + a.raw, records + [BufferedRecord(|a.raw|, a.messageBytes)], accepted + [a], written)
  {
    hide Describes;
    AppendDescribes(records, accepted, a);
    assert (accepted + [a])[..|accepted|] == accepted;
  }

  class RecordBuffer {
    var data: Bytes
    var records: seq<BufferedRecord>
    ghost var accepted: seq<Accepted>
    ghost var written: Bytes

    ghost predicate Valid()
      reads this
    {
      Sound(data, records, accepted, written)
    }

    constructor ()
      ensures Valid() && accepted == [] && written == [] && data == []
    {
      data, records, accepted, written := [], [], [], [];
    }

    /** `Flush`. */
    method Flush(answer: WriteAnswer) returns (ok: bool)
      requires Valid()
      modifies this
      ensures Valid() && accepted == old(accepted)
      ensures var taken := if 0 <= answer.n <= |old(data)| then answer.n else 0;
        written == old(written) + old(data)[..taken] && data == old(data)[taken..]
      ensures ok <==> old(data) == [] || (answer.n == |old(data)| && !answer.failed)
    {
      hide Sound;
      if |data| == 0 { return true; }
      var n := answer.n;
      if n < 0 || n > |data| { return false; }
      ok := !answer.failed && n == |data|;
      FlushKeeps(data, records, accepted, written, n);
      records := Shift(records, n);
      written := written + data[..n];
      data := data[n..];
    }

    /** `append`: the record is accepted unless a flush was needed first and failed. */
    method Append(raw: Bytes, messageBytes: nat, answer: WriteAnswer) returns (ok: bool)
      requires Valid()
      modifies this
      ensures Valid()
      ensures accepted == old(accepted) + if ok then [Accepted(raw, messageBytes)] else []
      ensures old(written) <= written
      ensures !ok <==> old(data) != [] && |old(data)| + |raw| > JOURNAL_BUFFER_SIZE
                       && !(answer.n == |old(data)| && !answer.failed)
    {
      hide Sound;
      ok := true;
      if |data| > 0 && |data| + |raw| > JOURNAL_BUFFER_SIZE {
        ok := Flush(answer);
        if !ok { return; }
      }
      AppendKeeps(data, records, accepted, written, Accepted(raw, messageBytes));
      data := data + raw;
      records := records + [BufferedRecord(|raw|, messageBytes)];
      accepted := accepted + [Accepted(raw, messageBytes)];
    }

    /** `pendingLoss`: exact for records that are not empty, which are all the journal appends. */
    method PendingLoss() returns (count: nat, messageBytes: nat)
      requires Valid()
      ensures count == |records| <= |accepted| && messageBytes == MessageSum(accepted[|accepted| - count..])
      ensures count == Unwritten(accepted, |written|) <==> count == 0 || accepted[|accepted| - count].raw != []
      ensures (forall i :: 0 <= i < |accepted| ==> accepted[i].raw != []) ==> count == Unwritten(accepted, |written|)
    {
      hide Describes, Unwritten;
      PendingIsUnwritten(records, accepted, |written|);
      ghost var tail := accepted[|accepted| - |records|..];
      count, messageBytes := 0, 0;
      for i := 0 to |records|
        invariant count == i && messageBytes == MessageSum(tail[..i])
      {
        MessageAt(records, tail, i);
        assert tail[..i + 1][..i] == tail[..i];
        count, messageBytes := count + 1, messageBytes + records[i].messageBytes;
      }
      assert tail[..|records|] == tail;
    }
  }

  /** The loop of `Flush` that takes written bytes off the front records. */
  method Shift(records0: seq<BufferedRecord>, n: nat) returns (records: seq<BufferedRecord>)
    ensures records == Consume(records0, n)
  {
    records := records0;
    var left := n;
    while left > 0 && |records| > 0
      invariant left >= 0 && Consume(records0, n) == Consume(records, left)
      decreases left, |records|
    {
      if left < records[0].remaining {
        records := [records[0].(remaining := records[0].remaining - left)] + records[1..];
        return;
      }
      left := left - records[0].remaining;
      records := records[1..];
    }
  }

  function MessageSum(records: seq<Accepted>): nat {
    if records == [] then 0 else MessageSum(records[..|records| - 1]) + records[|records| - 1].messageBytes
  }

  lemma {:induction false} MessageAt(pending: seq<BufferedRecord>, tail: seq<Accepted>, i: nat)
    requires Describes(pending, tail) && i < |pending|
    ensures pending[i].messageBytes == tail[i].messageBytes
  {
    if i > 0 {
      assert pending[i] == pending[1..][i - 1];
    }
  }

  ghost predicate Bounded(data: Bytes, records: seq<BufferedRecord>) {
    |data| <= JOURNAL_BUFFER_SIZE || (records != [] && records[|records| - 1].remaining == |data|)
  }

  lemma {:induction false} BoundedShrinks(data: Bytes, records: seq<BufferedRecord>, n: nat)
    requires Bounded(data, records) && Sum(records) == |data| && n <= |data|
    ensures Bounded(data[n..], Consume(records, n))
  {
    if |data| > JOURNAL_BUFFER_SIZE {
      ConsumeKeepsLast(records, n);
    }
  }

  lemma {:induction false} TailOfTail(accepted: seq<Accepted>, m: nat, k: nat)
    requires k <= m <= |accepted|
    ensures accepted[|accepted| - m..][m - k..] == accepted[|accepted| - k..]
  {}

  lemma {:induction false} AppendDescribes(pending: seq<BufferedRecord>, accepted: seq<Accepted>, a: Accepted)
    requires |pending| <= |accepted| && Describes(pending, accepted[|accepted| - |pending|..])
    ensures var more := pending + [BufferedRecord(|a.raw|, a.messageBytes)];
      && Describes(more, (accepted + [a])[|accepted| + 1 - |more|..])
      && Sum(more) == Sum(pending) + |a.raw|
  {
    var r := BufferedRecord(|a.raw|, a.messageBytes);
    var tail := accepted[|accepted| - |pending|..];
    assert (accepted + [a])[|accepted| + 1 - |pending + [r]|..] == tail + [a];
    SumOfSplit(pending, [r]);
    if pending == [] {
      assert (pending + [r])[1..] == Whole((tail + [a])[1..]);
    } else {
      assert (pending + [r])[1..] == pending[1..] + [r];
      assert (tail + [a])[1..] == tail[1..] + [a];
      assert Whole(tail[1..] + [a]) == Whole(tail[1..]) + [r];
    }
  }
}
