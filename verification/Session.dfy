/** Interactive sessions of the user host: logon requests, enumerations, token lookups and
logoffs, as `acceptUserSessions`, `acceptSessionRequest`, `acceptSessionIdentity` and
`recordLogoff` decide them.

Every handler is one step under the host's lock. A lookup carries the request number it was
issued with, an enumeration the counter it was sampled at; both may be delivered at any later
time, in any order. Request numbers do not wrap around. */
module Sessions {
  import opened Sets
  import opened Names

  const MAX_SESSIONS: nat := 4096

  type Session = nat
  type Sid = string

  /** `userSessionOrigin`: what a token lookup carries. */
  datatype Origin = Origin(session: Session, request: nat, revision: nat)

  /** The last three fields are history: the lookups issued so far, the counter right after each
      session's last logoff, and the request that put each mapped session there. */
  datatype Host = Host(
    closed: bool, next: nat, revision: nat,
    requests: map<Session, nat>, sessions: map<Session, Sid>, observations: set<Session>,
    issued: set<Origin>, loggedOff: map<Session, nat>, source: map<Session, nat>)

  /** `currentLocked`: a missing request reads as zero. */
  predicate Current(h: Host, o: Origin) {
    (if o.session in h.requests then h.requests[o.session] else 0) == o.request && h.revision == o.revision
  }

  /* ---- The invariant ---- */

  /** Whatever is pending or mapped for a session was requested after its last logoff. */
  ghost predicate Fresh(h: Host) {
    && (forall s :: s in h.loggedOff ==> h.loggedOff[s] <= h.next)
    && (forall s :: s in h.requests ==> 0 < h.requests[s] <= h.next)
    && (forall s :: s in h.requests && s in h.loggedOff ==> h.loggedOff[s] < h.requests[s])
    && (forall s :: s in h.sessions ==> s in h.source)
    && (forall s :: s in h.sessions && s in h.loggedOff ==> h.loggedOff[s] < h.source[s])
    && (forall o :: o in h.issued ==> 0 < o.request <= h.next)
  }

  ghost predicate Bounded(h: Host) {
    |h.requests| <= MAX_SESSIONS && |h.sessions| <= MAX_SESSIONS && |h.observations| <= MAX_SESSIONS
  }

  ghost predicate Valid(h: Host) {
    Fresh(h) && Bounded(h)
  }

  /** What any stretch of a run does: counters and logoff marks only grow. */
  ghost predicate Later(a: Host, b: Host) {
    && a.next <= b.next && a.issued <= b.issued
    && (forall s :: s in a.loggedOff ==> s in b.loggedOff && a.loggedOff[s] <= b.loggedOff[s])
  }

  /* ---- What it means ---- */

  /** A lookup issued before a logoff of its session is not current at any time after it. */
  lemma {:induction false} LookupStaysDead(a: Host, b: Host, s: Session, o: Origin)
    requires Valid(a) && o in a.issued && o.session == s
    requires Valid(b) && Later(LogoffOf(a, s), b)
    ensures !Current(b, o)
  {
    assert s in LogoffOf(a, s).loggedOff && LogoffOf(a, s).loggedOff[s] == a.next + 1;
  }

  /** An enumeration sampled before a logoff is refused at any time after it. */
  lemma {:induction false} SampleStaysDead(a: Host, b: Host, s: Session, epoch: nat)
    requires epoch <= a.next && Valid(b) && Later(LogoffOf(a, s), b)
    ensures b.next != epoch
  {}

  /** After a logoff, a session that is mapped again was requested after it. */
  lemma {:induction false} BackOnlyByNewRequest(a: Host, b: Host, s: Session)
    requires Valid(b) && Later(LogoffOf(a, s), b) && s in b.sessions
    ensures s in b.source && b.source[s] > a.next + 1
  {
    assert s in LogoffOf(a, s).loggedOff && LogoffOf(a, s).loggedOff[s] == a.next + 1;
  }

  /* ---- The steps ---- */

  function LogoffOf(h: Host, s: Session): Host {
    h.(next := h.next + 1, requests := h.requests - {s}, sessions := h.sessions - {s},
       observations := h.observations - {s}, loggedOff := h.loggedOff[s := h.next + 1])
  }

  lemma {:induction false} SmallerMap<V>(m: map<Session, V>, s: Session)
    ensures |m - {s}| <= |m|
  {
    assert |m - {s}| == |(m - {s}).Keys| && |m| == |m.Keys|;
    assert (m - {s}).Keys == m.Keys - {s};
  }

  lemma {:induction false} GrownMap<V>(m: map<Session, V>, s: Session, v: V)
    ensures |m[s := v]| <= |m| + 1 && (s in m ==> |m[s := v]| == |m|)
  {
    assert |m[s := v]| == |m[s := v].Keys| && |m| == |m.Keys|;
    assert m[s := v].Keys == m.Keys + {s};
    if s in m { assert m.Keys + {s} == m.Keys; }
  }

  lemma {:induction false} LogoffKeeps(h: Host, s: Session)
    requires Valid(h)
    ensures Valid(LogoffOf(h, s)) && Later(h, LogoffOf(h, s))
  {
    SmallerMap(h.requests, s);
    SmallerMap(h.sessions, s);
    SubsetSize(h.observations - {s}, h.observations);
    assert Bounded(LogoffOf(h, s));
    hide Bounded;
    LogoffFresh(h, s, LogoffOf(h, s));
  }

  lemma {:induction false} LogoffFresh(h: Host, s: Session, r: Host)
    requires Fresh(h) && r == LogoffOf(h, s)
    ensures Fresh(r) && Later(h, r)
  {
    assert forall t :: t in r.requests ==> t in h.requests && t != s && r.requests[t] == h.requests[t];
    assert forall t :: t in r.sessions ==> t in h.sessions && t != s;
    assert forall t :: t != s ==> (t in r.loggedOff <==> t in h.loggedOff);
    assert forall t :: t != s && t in h.loggedOff ==> r.loggedOff[t] == h.loggedOff[t];
  }

  /** A request is dropped or replaced by a fresh one. */
  function RequestOf(h: Host, s: Session, kept: bool): Host {
    if kept then h.(next := h.next + 1, requests := h.requests[s := h.next + 1], observations := h.observations + {s})
    else h.(next := h.next + 1, requests := h.requests - {s})
  }

  lemma {:induction false} RequestFresh(h: Host, s: Session, kept: bool, r: Host)
    requires Fresh(h) && r == RequestOf(h, s, kept)
    ensures Fresh(r) && Later(h, r)
  {
    assert forall t :: t in r.requests && t != s ==> t in h.requests && r.requests[t] == h.requests[t];
  }

  ghost predicate Room(h: Host, s: Session) {
    && (s in h.observations || |h.observations| < MAX_SESSIONS)
    && (s in h.sessions || |h.sessions| < MAX_SESSIONS)
    && (s in h.requests || |h.requests| < MAX_SESSIONS)
  }

  lemma {:induction false} RequestKeeps(h: Host, s: Session, kept: bool)
    requires Valid(h) && Room(h, s)
    ensures Valid(RequestOf(h, s, kept)) && Later(h, RequestOf(h, s, kept))
  {
    hide Fresh, Later;
    SmallerMap(h.requests, s);
    GrownMap(h.requests, s, h.next + 1);
    if s in h.observations { assert h.observations + {s} == h.observations; }
    assert Bounded(RequestOf(h, s, kept));
    hide Bounded;
    RequestFresh(h, s, kept, RequestOf(h, s, kept));
  }

  lemma {:induction false} LaterSelf(h: Host)
    ensures Later(h, h)
  {}

  /** The requests an enumeration reserves: one fresh number for each session in it. */
  ghost predicate Reserves(requests: map<Session, nat>, ids: seq<Session>, from: nat, to: nat) {
    && (forall s :: s in requests <==> s in ids)
    && (forall s :: s in requests ==> from < requests[s] <= to)
    && (forall s, t :: s in requests && t in requests && requests[s] == requests[t] ==> s == t)
  }

  method ReserveRequests(ids: seq<Session>, from: nat) returns (requests: map<Session, nat>, next: nat)
    ensures Reserves(requests, ids, from, next) && next == from + |requests| && |requests| <= |ids|
  {
    hide Reserves;
    requests, next := map[], from;
    assert Reserves(requests, ids[..0], from, next) by { ReserveNone(ids, from); }
    for i := 0 to |ids|
      invariant Reserves(requests, ids[..i], from, next) && next == from + |requests| && |requests| <= i
    {
      ReserveNext(requests, ids, i, from, next);
      if ids[i] !in requests {
        next := next + 1;
        GrownMap(requests, ids[i], next);
        requests := requests[ids[i] := next];
      }
    }
    assert ids[..|ids|] == ids;
  }

  lemma {:induction false} ReserveNone(ids: seq<Session>, from: nat)
    ensures Reserves(map[], ids[..0], from, from)
  {}

  lemma {:induction false} ReserveNext(requests: map<Session, nat>, ids: seq<Session>, i: nat, from: nat, next: nat)
    requires i < |ids| && from <= next && Reserves(requests, ids[..i], from, next)
    ensures ids[i] in requests ==> Reserves(requests, ids[..i + 1], from, next)
    ensures ids[i] !in requests ==> Reserves(requests[ids[i] := next + 1], ids[..i + 1], from, next + 1)
  {
    assert ids[..i + 1] == ids[..i] + [ids[i]];
  }

  lemma {:induction false} Enumerated(h: Host, r: Host, ids: seq<Session>)
    requires Fresh(h) && Reserves(r.requests, ids, h.next + 1, r.next) && h.next + 1 <= r.next
    requires r == h.(next := r.next, requests := r.requests, sessions := r.sessions, observations := r.observations)
    requires r.sessions.Keys <= h.sessions.Keys
    ensures Fresh(r) && Later(h, r)
  {}

  /** The sessions that are kept. */
  function Cut(sessions: map<Session, Sid>, kept: set<Session>): map<Session, Sid> {
    map s | s in sessions && s in kept :: sessions[s]
  }

  lemma {:induction false} CutFits(sessions: map<Session, Sid>, kept: set<Session>)
    ensures Cut(sessions, kept).Keys <= sessions.Keys && |Cut(sessions, kept)| <= |kept|
  {
    var m := Cut(sessions, kept);
    SubsetSize(m.Keys, kept);
    assert |m| == |m.Keys|;
  }

  lemma {:induction false} ReservedKeys(requests: map<Session, nat>, ids: seq<Session>, from: nat, to: nat)
    requires Reserves(requests, ids, from, to)
    ensures requests.Keys == Elements(ids) && |requests| == |requests.Keys|
    ensures from > 0 ==> Reserves(requests, ids, from - 1, to)
  {}

  /** A request concerns its own session only. */
  lemma {:induction false} RequestRest(h: Host, s: Session, accepted: bool)
    ensures RequestOf(h, s, accepted).requests - {s} == h.requests - {s}
  {}

  class UserHost {
    var h: Host

    constructor ()
      ensures Valid(h) && h.sessions == map[] && h.issued == {} && !h.closed
    {
      h := Host(false, 0, 0, map[], map[], {}, {}, map[], map[]);
    }

    /** `acceptUserSessions`: an enumeration counts only if nothing happened since it was sampled. */
    method AcceptUserSessions(ids: seq<Session>, epoch: nat, revision: nat) returns (accepted: bool)
      requires Valid(h)
      modifies this
      ensures Valid(h) && Later(old(h), h)
      ensures accepted <==> |ids| <= MAX_SESSIONS && !old(h.closed) && old(h.next) == epoch && old(h.revision) == revision
      ensures !accepted ==> h == old(h)
      ensures accepted ==> Reserves(h.requests, ids, old(h.next), h.next) && h.next == old(h.next) + 1 + |h.requests|
      ensures h == old(h).(next := h.next, requests := h.requests, sessions := h.sessions, observations := h.observations)
      ensures accepted ==> h.observations == Elements(ids) && h.sessions == Cut(old(h.sessions), Elements(ids))
    {
      hide Fresh, Later, Reserves, Cut, Elements;
      LaterSelf(h);
      if |ids| > MAX_SESSIONS || h.closed || h.next != epoch || h.revision != revision { return false; }
      var requests, next := ReserveRequests(ids, h.next + 1);
      ReservedKeys(requests, ids, h.next + 1, next);
      var kept, seen := Cut(h.sessions, requests.Keys), requests.Keys;
      CutFits(h.sessions, seen);
      Enumerated(h, h.(next := next, requests := requests, sessions := kept, observations := seen), ids);
      h := h.(next := next, requests := requests, sessions := kept, observations := seen);
      return true;
    }

    /** `acceptSessionRequest`: a logon; `busy` is a refusal of the native work it needs. */
    method AcceptSessionRequest(s: Session, busy: bool) returns (request: nat)
      requires Valid(h)
      modifies this
      ensures Valid(h) && Later(old(h), h) && h.sessions == old(h.sessions)
      ensures request > 0 <==> !old(h.closed) && Room(old(h), s) && !busy
      ensures request > 0 <==>
        && !old(h.closed) && !busy && (s in old(h.observations) || |old(h.observations)| < 4096)
        && (s in old(h.sessions) || |old(h.sessions)| < 4096) && (s in old(h.requests) || |old(h.requests)| < 4096)
      ensures request > 0 ==> request == h.next == old(h.next) + 1 && s in h.requests && h.requests[s] == request
      ensures request == 0 ==> s !in h.requests || h.requests == old(h.requests)
      ensures h.requests - {s} == old(h.requests) - {s}
      ensures old(h.closed) || !Room(old(h), s) ==> h == old(h)
      ensures !old(h.closed) && Room(old(h), s) && busy ==> s !in h.requests && h.next == old(h.next) + 1
      ensures request == 0 ==> h.observations == old(h.observations)
      ensures request > 0 ==> h.observations == old(h.observations) + {s}
      ensures h == old(h).(next := h.next, requests := h.requests, observations := h.observations)
    {
      RequestRest(h, s, !busy);
      var full := (s !in h.observations && |h.observations| >= MAX_SESSIONS)
        || (s !in h.sessions && |h.sessions| >= MAX_SESSIONS) || (s !in h.requests && |h.requests| >= MAX_SESSIONS);
      assert full <==> !Room(h, s);
      hide Valid, Later, Room;
      LaterSelf(h);
      if h.closed || full { return 0; }
      RequestKeeps(h, s, !busy);
      h := RequestOf(h, s, !busy);
      return if busy then 0 else h.next;
    }

    /** A lookup captures the current request of a session and the admission revision. */
    method IssueLookup(s: Session) returns (o: Origin)
      requires Valid(h) && s in h.requests
      modifies this
      ensures Valid(h) && Later(old(h), h) && o in h.issued && Current(h, o) && o.session == s
      ensures h == old(h).(issued := h.issued)
    {
      o := Origin(s, h.requests[s], h.revision);
      hide Bounded;
      h := h.(issued := h.issued + {o});
    }

    /** `acceptSessionIdentity`: the lookup maps its session if it is still current. */
    method AcceptSessionIdentity(o: Origin, sid: Sid) returns (accepted: bool)
      requires Valid(h) && o in h.issued
      modifies this
      ensures Valid(h) && Later(old(h), h)
      ensures accepted ==> o.session in old(h.requests) && old(h.requests)[o.session] == o.request && old(h.revision) == o.revision
      ensures accepted <==> Current(old(h), o) && !old(h.closed) && (o.session in old(h.sessions) || |old(h.sessions)| < MAX_SESSIONS)
      ensures h == if accepted then old(h).(sessions := old(h.sessions)[o.session := sid], source := old(h.source)[o.session := o.request])
                   else old(h)
    {
      if h.closed || !Current(h, o) { return false; }
      if o.session !in h.sessions && |h.sessions| >= MAX_SESSIONS { return false; }
      GrownMap(h.sessions, o.session, sid);
      h := h.(sessions := h.sessions[o.session := sid], source := h.source[o.session := o.request]);
      return true;
    }

    /** `finishSessionRequest`. */
    method FinishSessionRequest(s: Session, request: nat)
      requires Valid(h)
      modifies this
      ensures Valid(h) && Later(old(h), h)
      ensures h == if s in old(h.requests) && old(h.requests)[s] == request then old(h).(requests := old(h.requests) - {s}) else old(h)
    {
      if s in h.requests && h.requests[s] == request {
        SmallerMap(h.requests, s);
        h := h.(requests := h.requests - {s});
      }
    }

    /** `recordLogoff`. */
    method RecordLogoff(s: Session)
      requires Valid(h)
      modifies this
      ensures Valid(h) && Later(old(h), h)
      ensures h.next == old(h.next) + 1 && h.requests == old(h.requests) - {s} && h.sessions == old(h.sessions) - {s}
      ensures h.observations == old(h.observations) - {s} && h.loggedOff == old(h.loggedOff)[s := h.next]
      ensures h == old(h).(next := h.next, requests := h.requests, sessions := h.sessions, observations := h.observations,
                           loggedOff := h.loggedOff)
    {
      hide Valid, Later;
      LogoffKeeps(h, s);
      h := LogoffOf(h, s);
    }

    /** `acceptAdmissionPolicy`, when the policy changes. */
    method AcceptAdmissionPolicy()
      requires Valid(h)
      modifies this
      ensures Valid(h) && Later(old(h), h)
      ensures h == if old(h.closed) then old(h) else old(h).(revision := old(h.revision) + 1)
    {
      if !h.closed { h := h.(revision := h.revision + 1); }
    }

    /** `acceptAdmissionRevocation`: sessions mapped to a revoked user are dropped. */
    method AcceptAdmissionRevocation(sid: Sid)
      requires Valid(h)
      modifies this
      ensures Valid(h) && Later(old(h), h) && h == old(h).(sessions := h.sessions)
      ensures h.sessions == map s | s in old(h.sessions) && old(h.sessions)[s] != sid :: old(h.sessions)[s]
    {
      var kept := map s | s in h.sessions && h.sessions[s] != sid :: h.sessions[s];
      SubsetSize(kept.Keys, h.sessions.Keys);
      assert |kept| == |kept.Keys| && |h.sessions| == |h.sessions.Keys|;
      h := h.(sessions := kept);
    }

    method Close()
      requires Valid(h)
      modifies this
      ensures Valid(h) && Later(old(h), h) && h == old(h).(closed := true)
    {
      h := h.(closed := true);
    }

    /** Every run: any handlers, in any order, with lookups and samples delivered late. */
    method Run()
      requires Valid(h)
      modifies this
      ensures Valid(h) && Later(old(h), h)
    {
      hide Valid, Room, Current;
      var n: nat := *;
      while n > 0
        invariant Valid(h) && Later(old(h), h)
        decreases n
      {
        n := n - 1;
        var choice: nat, s: Session, a: nat, b: nat, sid: Sid, o: Origin, x: bool, ids: seq<Session> := *, *, *, *, *, *, *, *;
        match choice
        case 0 => var _ := AcceptUserSessions(ids, a, b);
        case 1 => var _ := AcceptSessionRequest(s, x);
        case 2 => if s in h.requests { var _ := IssueLookup(s); }
        case 3 => if o in h.issued { var _ := AcceptSessionIdentity(o, sid); }
        case 4 => FinishSessionRequest(s, a);
        case 5 => RecordLogoff(s);
        case 6 => AcceptAdmissionPolicy();
        case 7 => AcceptAdmissionRevocation(sid);
        case _ => Close();
      }
    }
  }
}
