/** The start limiter and the restart delay: `StartLimitHit`, `RecordStart` and
`cappedRestartDelay`.

Times are integers on a clock that does not go backwards; interval and burst stay fixed. */
module StartLimits {

  /* ---- Windows ---- */

  /** The starts not before the cutoff, in order. */
  function Since(starts: seq<int>, cutoff: int): seq<int> {
    if starts == [] then [] else
    var t := starts[|starts| - 1];
    Since(starts[..|starts| - 1], cutoff) + if t >= cutoff then [t] else []
  }

  /** `StartLimitDisabled`. */
  predicate Disabled(interval: int, burst: int) {
    burst <= 0 || interval <= 0
  }

  /** Each start not before the cutoff is kept as often as it was there, and no other. */
  lemma {:induction false} SinceKeeps(starts: seq<int>, cutoff: int, t: int)
    ensures multiset(Since(starts, cutoff))[t] == if t >= cutoff then multiset(starts)[t] else 0
  {
    if starts != [] {
      var init, last := starts[..|starts| - 1], starts[|starts| - 1];
      SinceKeeps(init, cutoff, t);
      assert starts == init + [last];
    }
  }

  /** `countStartsInWindow`. */
  method CountStartsInWindow(starts: seq<int>, now: int, interval: int) returns (n: nat)
    ensures n == |Since(starts, now - interval)|
  {
    n := 0;
    for i := 0 to |starts|
      invariant n == |Since(starts[..i], now - interval)|
    {
      assert starts[..i + 1][..i] == starts[..i];
      if starts[i] >= now - interval { n := n + 1; }
    }
    assert starts[..|starts|] == starts;
  }

  /** `RecordStart`: the slice is compacted in place and the new start appended. */
  method RecordStart(starts: array<int>, now: int, interval: int, burst: int) returns (kept: seq<int>)
    modifies starts
    ensures kept == if burst <= 0 || interval <= 0 then [] else Since(old(starts[..]), now - interval) + [now]
  {
    if Disabled(interval, burst) { return []; }
    var n := 0;
    ghost var was := starts[..];
    for i := 0 to starts.Length
      invariant n <= i
      invariant forall k :: i <= k < starts.Length ==> starts[k] == was[k]
      invariant starts[..n] == Since(was[..i], now - interval)
    {
      assert was[..i + 1][..i] == was[..i];
      if starts[i] >= now - interval {
        starts[n] := starts[i];
        n := n + 1;
      }
    }
    assert was[..starts.Length] == was;
    return starts[..n] + [now];
  }

  /* ---- Pruning loses nothing a later query could see ---- */

  lemma {:induction false} SinceConcat(a: seq<int>, b: seq<int>, c: int)
    ensures Since(a + b, c) == Since(a, c) + Since(b, c)
  {
    if b == [] {
      assert a + b == a;
    } else {
      SinceConcat(a, b[..|b| - 1], c);
      assert (a + b)[..|a + b| - 1] == a + b[..|b| - 1];
    }
  }

  lemma {:induction false} SinceTwice(a: seq<int>, c: int, d: int)
    requires c <= d
    ensures Since(Since(a, c), d) == Since(a, d)
  {
    if a != [] {
      var init, t := a[..|a| - 1], a[|a| - 1];
      SinceTwice(init, c, d);
      SinceConcat(Since(init, c), if t >= c then [t] else [], d);
      SinceOne(t, d);
    }
  }

  lemma {:induction false} SinceOne(t: int, c: int)
    ensures Since([t], c) == if t >= c then [t] else []
  {
    assert [t][..0] == [];
  }

  /** The kept list answers every query from `from` on as the whole history does. */
  ghost predicate Answers(kept: seq<int>, history: seq<int>, from: int) {
    forall c :: c >= from ==> Since(kept, c) == Since(history, c)
  }

  lemma {:induction false} RecordAnswers(kept: seq<int>, history: seq<int>, from: int, now: int, interval: int)
    requires Answers(kept, history, from) && now - interval >= from
    ensures Answers(Since(kept, now - interval) + [now], history + [now], now - interval)
  {
    forall c | c >= now - interval
      ensures Since(Since(kept, now - interval) + [now], c) == Since(history + [now], c)
    {
      SinceConcat(Since(kept, now - interval), [now], c);
      SinceTwice(kept, now - interval, c);
      SinceConcat(history, [now], c);
    }
  }

  /* ---- No window holds more than the burst ---- */

  /** How many starts fall inside the closed window of this length that ends at `x`. */
  ghost function InWindow(h: seq<int>, x: int, interval: int): nat {
    if h == [] then 0 else
    InWindow(h[..|h| - 1], x, interval) + if x - interval <= h[|h| - 1] <= x then 1 else 0
  }

  ghost predicate Bounded(h: seq<int>, interval: int, burst: int) {
    forall x :: InWindow(h, x, interval) <= burst
  }

  lemma {:induction false} WindowWithinSince(h: seq<int>, x: int, c: int, interval: int)
    requires c <= x - interval
    ensures InWindow(h, x, interval) <= |Since(h, c)|
  {
    if h != [] {
      WindowWithinSince(h[..|h| - 1], x, c, interval);
    }
  }

  /** A start that is recorded after a check that found room leaves every window bounded. */
  lemma {:induction false} RecordBounded(h: seq<int>, checked: int, now: int, interval: int, burst: int)
    requires Bounded(h, interval, burst) && |Since(h, checked - interval)| < burst && checked <= now
    ensures Bounded(h + [now], interval, burst)
  {
    forall x ensures InWindow(h + [now], x, interval) <= burst {
      assert (h + [now])[..|h|] == h;
      if x >= now { WindowWithinSince(h, x, checked - interval, interval); }
    }
  }

  /* ---- The limiter of one unit ---- */

  /** `history` holds all recorded starts since the last explicit launch. */
  class StartLimiter {
    const interval: int
    const burst: int
    var starts: seq<int>
    var history: seq<int>
    var clock: int
    var room: bool

    ghost predicate Valid()
      reads this
    {
      !Disabled(interval, burst) ==>
        && Answers(starts, history, clock - interval)
        && Bounded(history, interval, burst)
        && (room ==> |Since(history, clock - interval)| < burst)
    }

    constructor (interval: int, burst: int, now: int)
      ensures Valid() && starts == [] && history == [] && !room && clock == now
    {
      this.interval, this.burst, starts, history, clock, room := interval, burst, [], [], now, false;
    }

    /** An explicit launch forgets the starts before it. */
    method Explicit(now: int)
      requires Valid() && clock <= now
      modifies this
      ensures Valid() && history == [] && room && clock == now
    {
      clock, starts, history, room := now, [], [], true;
    }

    /** A trigger or a recovery is checked against the limit: the pruned list gives the answer
        of the whole history. */
    method Check(now: int) returns (hit: bool)
      requires Valid() && clock <= now
      modifies this
      ensures Valid() && room == !hit
      ensures hit <==> burst > 0 && interval > 0 && |Since(history, now - interval)| >= burst
      ensures history == old(history) && starts == old(starts) && clock == now
    {
      hit := false;
      if !Disabled(interval, burst) {
        var n := CountStartsInWindow(starts, now, interval);
        hit := n >= burst;
      }
      clock, room := now, !hit;
    }

    /** The launch that was let through records its start. */
    method Record(now: int)
      requires Valid() && clock <= now && room
      modifies this
      ensures Valid() && history == old(history) + [now] && !room && clock == now
    {
      hide Since, Answers, Bounded;
      if !Disabled(interval, burst) {
        RecordAnswers(starts, history, clock - interval, now, interval);
        RecordBounded(history, clock, now, interval, burst);
      }
      var a := new int[|starts|](i requires 0 <= i < |starts| reads this => starts[i]);
      assert a[..] == starts;
      var kept := RecordStart(a, now, interval, burst);
      starts, history, clock, room := kept, history + [now], now, false;
    }
  }

  /* ---- The restart delay ---- */

  newtype int64 = x: int | -0x8000_0000_0000_0000 <= x < 0x8000_0000_0000_0000

  newtype uint32 = x: int | 0 <= x < 0x1_0000_0000

  function Pow2(n: nat): nat {
    if n == 0 then 1 else 2 * Pow2(n - 1)
  }

  /** `cappedRestartDelay`: exponential up to the cap; in 64-bit arithmetic nothing overflows. */
  method CappedRestartDelay(base: int64, cap: int64, attempt: uint32) returns (delay: int64)
    ensures base <= 0 || cap <= 0 ==> delay == base
    ensures base > 0 && cap > 0 ==>
      delay as int == if base as int * Pow2(attempt as nat) < cap as int then base as int * Pow2(attempt as nat) else cap as int
  {
    if base <= 0 || cap <= 0 { return base; }
    var b, n := base, attempt;
    while n > 0 && b < cap
      invariant b > 0
      invariant b as int * Pow2(n as nat) == base as int * Pow2(attempt as nat)
      decreases n
    {
      if b > cap / 2 {
        Doubles(b as int, n as nat);
        return cap;
      }
      Unfold(b as int, n as nat);
      b := b * 2;
      n := n - 1;
    }
    if n > 0 { Doubles(b as int, n as nat); }
    return if b < cap then b else cap;
  }

  lemma {:induction false} Unfold(b: int, n: nat)
    requires n > 0
    ensures b * Pow2(n) == (b * 2) * Pow2(n - 1)
  {}

  lemma {:induction false} Doubles(b: int, n: nat)
    requires b > 0 && n > 0
    ensures b * Pow2(n) >= 2 * b
  {
    if n > 1 {
      Doubles(b, n - 1);
      assert b * Pow2(n) == 2 * (b * Pow2(n - 1));
    }
  }
}
