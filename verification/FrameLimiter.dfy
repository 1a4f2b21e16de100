/** The in-memory sliding-window limiter of inbound WebSocket frames. */
module FrameLimiter {

  /** Drop the leading timestamps before the cutoff. */
  function Prune(q: seq<int>, cutoff: int): seq<int> {
    if q != [] && q[0] < cutoff then Prune(q[1..], cutoff) else q
  }

  /** One call on one socket's queue: the new queue and the verdict. */
  function Decide(q: seq<int>, now: int, max: int, windowMs: nat): (seq<int>, bool) {
    var p := Prune(q, now - windowMs);
    if |p| >= max then (p, false) else (p + [now], true)
  }

  // ---------------------------------------------------------------- all sockets

  datatype Event<Socket> = Frame(socket: Socket, now: int) | Clear(socket: Socket)

  function Next<S>(hits: map<S, seq<int>>, e: Event<S>, max: int, windowMs: nat): map<S, seq<int>> {
    match e
    case Frame(s, now) => hits[s := Decide(if s in hits then hits[s] else [], now, max, windowMs).0]
    case Clear(s) => hits - {s}
  }

  function Hits<S>(es: seq<Event<S>>, max: int, windowMs: nat): map<S, seq<int>> {
    if es == [] then map[] else Next(Hits(es[..|es| - 1], max, windowMs), es[|es| - 1], max, windowMs)
  }

  /** The frame times of one socket since it was last cleared. */
  function Times<S(==)>(es: seq<Event<S>>, s: S): seq<int> {
    if es == [] then [] else
      var before, e := Times(es[..|es| - 1], s), es[|es| - 1];
      if e.socket != s then before else if e.Frame? then before + [e.now] else []
  }

  /** The queue and every admission after these frame times. */
  function Queue(ts: seq<int>, max: int, windowMs: nat): seq<int> {
    if ts == [] then [] else Decide(Queue(ts[..|ts| - 1], max, windowMs), ts[|ts| - 1], max, windowMs).0
  }

  function Admitted(ts: seq<int>, max: int, windowMs: nat): seq<int> {
    if ts == [] then [] else
      var q, now := Queue(ts[..|ts| - 1], max, windowMs), ts[|ts| - 1];
      Admitted(ts[..|ts| - 1], max, windowMs) + if Decide(q, now, max, windowMs).1 then [now] else []
  }

  /** Sockets do not affect each other: each sees its own queue since its last clear. */
  lemma {:induction false} SocketsAreIndependent<S>(es: seq<Event<S>>, max: int, windowMs: nat, s: S)
    ensures var hits := Hits(es, max, windowMs);
      (if s in hits then hits[s] else []) == Queue(Times(es, s), max, windowMs)
  {
    if es != [] {
      SocketsAreIndependent(es[..|es| - 1], max, windowMs, s);
      var before, e := Times(es[..|es| - 1], s), es[|es| - 1];
      if e.socket == s && e.Frame? {
        assert (before + [e.now])[..|before|] == before;
      }
    }
  }

  predicate Sorted(s: seq<int>) {
    forall i, j :: 0 <= i < j < |s| ==> s[i] <= s[j]
  }

  /** How many entries lie in the closed interval from `lo` to `hi`. */
  function CountIn(s: seq<int>, lo: int, hi: int): nat {
    if s == [] then 0 else (if lo <= s[0] <= hi then 1 else 0) + CountIn(s[1..], lo, hi)
  }

  lemma {:induction false} CountPush(s: seq<int>, x: int, lo: int, hi: int)
    ensures CountIn(s + [x], lo, hi) == CountIn(s, lo, hi) + if lo <= x <= hi then 1 else 0
  {
    if s == [] {
      assert (s + [x])[1..] == [];
    } else {
      CountPush(s[1..], x, lo, hi);
      assert (s + [x])[1..] == s[1..] + [x];
    }
  }

  /** Entries up to `hi'` of an interval that ends later are in the earlier-ending one too. */
  lemma {:induction false} CountWider(s: seq<int>, lo: int, hi: int, lo': int, hi': int)
    requires lo' <= lo && forall i :: 0 <= i < |s| ==> s[i] <= hi'
    ensures CountIn(s, lo, hi) <= CountIn(s, lo', hi')
  {
    if s != [] {
      CountWider(s[1..], lo, hi, lo', hi');
    }
  }

  lemma {:induction false} PruneTwice(q: seq<int>, cutoff: int, later: int)
    requires cutoff <= later
    ensures Prune(Prune(q, cutoff), later) == Prune(q, later)
  {
    if q != [] && q[0] < cutoff {
      PruneTwice(q[1..], cutoff, later);
    }
  }

  lemma {:induction false} PrunePush(q: seq<int>, x: int, cutoff: int)
    requires cutoff <= x
    ensures Prune(q + [x], cutoff) == Prune(q, cutoff) + [x]
  {
    if q != [] && q[0] < cutoff {
      PrunePush(q[1..], x, cutoff);
      assert (q + [x])[1..] == q[1..] + [x];
    }
  }

  /** What pruning a sorted history leaves is what lies in the window. */
  lemma {:induction false} PruneCounts(a: seq<int>, lo: int, hi: int)
    requires Sorted(a) && forall i :: 0 <= i < |a| ==> a[i] <= hi
    ensures |Prune(a, lo)| == CountIn(a, lo, hi)
  {
    if a != [] {
      PruneCounts(a[1..], lo, hi);
      if a[0] >= lo {
        assert a[1..] == [] || a[1..][0] == a[1];
        assert Prune(a[1..], lo) == a[1..];
      }
    }
  }

  /** The kept queue is the whole history pruned at the latest cutoff. */
  lemma {:induction false} QueueIsPrunedHistory(ts: seq<int>, max: int, windowMs: nat)
    requires Sorted(ts)
    ensures ts != [] ==>
      Queue(ts, max, windowMs) == Prune(Admitted(ts, max, windowMs), ts[|ts| - 1] - windowMs)
    ensures ts == [] ==> Queue(ts, max, windowMs) == Admitted(ts, max, windowMs)
  {
    if ts != [] {
      var before, now := ts[..|ts| - 1], ts[|ts| - 1];
      QueueIsPrunedHistory(before, max, windowMs);
      var a := Admitted(before, max, windowMs);
      if before != [] {
        PruneTwice(a, before[|before| - 1] - windowMs, now - windowMs);
      }
      PrunePush(a, now, now - windowMs);
      assert a + [] == a;
    }
  }

  lemma {:induction false} AdmittedSorted(ts: seq<int>, max: int, windowMs: nat)
    requires Sorted(ts)
    ensures Sorted(Admitted(ts, max, windowMs))
    ensures forall i :: 0 <= i < |Admitted(ts, max, windowMs)| ==>
      ts != [] && Admitted(ts, max, windowMs)[i] <= ts[|ts| - 1]
  {
    if ts != [] {
      AdmittedSorted(ts[..|ts| - 1], max, windowMs);
    }
  }

  /** The verdict on the next frame looks at the whole history although old entries were
      dropped: it is admitted exactly when fewer than `max` admissions lie in the window. */
  lemma AdmitsIff(ts: seq<int>, max: int, windowMs: nat, now: int)
    requires Sorted(ts) && (ts != [] ==> ts[|ts| - 1] <= now)
    ensures Decide(Queue(ts, max, windowMs), now, max, windowMs).1
       <==> CountIn(Admitted(ts, max, windowMs), now - windowMs, now) < max
  {
    var a := Admitted(ts, max, windowMs);
    QueueIsPrunedHistory(ts, max, windowMs);
    AdmittedSorted(ts, max, windowMs);
    if ts != [] {
      PruneTwice(a, ts[|ts| - 1] - windowMs, now - windowMs);
    }
    PruneCounts(a, now - windowMs, now);
  }

  lemma PushKeepsBound(a: seq<int>, now: int, max: nat, windowMs: nat, start: int)
    requires forall i :: 0 <= i < |a| ==> a[i] <= now
    requires CountIn(a, now - windowMs, now) < max && CountIn(a, start, start + windowMs) <= max
    ensures CountIn(a + [now], start, start + windowMs) <= max
  {
    CountPush(a, now, start, start + windowMs);
    if now <= start + windowMs {
      CountWider(a, start, start + windowMs, now - windowMs, now);
    }
  }

  /** Over a non-decreasing clock no closed interval of one window length ever holds more than
      `max` admissions. */
  lemma {:induction false} NeverMoreThanMax(ts: seq<int>, max: nat, windowMs: nat, start: int)
    requires Sorted(ts)
    ensures CountIn(Admitted(ts, max, windowMs), start, start + windowMs) <= max
  {
    if ts != [] {
      var before, now := ts[..|ts| - 1], ts[|ts| - 1];
      NeverMoreThanMax(before, max, windowMs, start);
      AdmitsIff(before, max, windowMs, now);
      AdmittedSorted(before, max, windowMs);
      var a := Admitted(before, max, windowMs);
      if CountIn(a, now - windowMs, now) < max {
        PushKeepsBound(a, now, max, windowMs, start);
        assert Admitted(ts, max, windowMs) == a + [now];
      } else {
        assert Admitted(ts, max, windowMs) == a + [] == a;
      }
    }
  }

  /** The bound for every socket, over any run of frames and clears with a non-decreasing clock. */
  lemma EverySocketBounded<S>(es: seq<Event<S>>, s: S, max: nat, windowMs: nat, start: int, now: int)
    requires Sorted(Times(es, s)) && (Times(es, s) != [] ==> Times(es, s)[|Times(es, s)| - 1] <= now)
    ensures var hits := Hits(es, max, windowMs);
      && (Decide(if s in hits then hits[s] else [], now, max, windowMs).1
          <==> CountIn(Admitted(Times(es, s), max, windowMs), now - windowMs, now) < max)
    ensures CountIn(Admitted(Times(es, s), max, windowMs), start, start + windowMs) <= max
  {
    SocketsAreIndependent(es, max, windowMs, s);
    AdmitsIff(Times(es, s), max, windowMs, now);
    NeverMoreThanMax(Times(es, s), max, windowMs, start);
  }

  // ---------------------------------------------------------------- the limiter

  /** A frame after the frames `ts` is admitted as its queue says; with a non-decreasing clock,
      exactly when fewer than `max` admissions of the whole history lie in the window. */
  predicate IsVerdict(ts: seq<int>, now: int, max: int, windowMs: nat, ok: bool) {
    && ok == Decide(Queue(ts, max, windowMs), now, max, windowMs).1
    && (Sorted(ts + [now]) ==> (ok <==> CountIn(Admitted(ts, max, windowMs), now - windowMs, now) < max))
  }

  lemma VerdictOf<S>(es: seq<Event<S>>, s: S, now: int, max: int, windowMs: nat)
    ensures var hits := Hits(es, max, windowMs);
      IsVerdict(Times(es, s), now, max, windowMs, Decide(if s in hits then hits[s] else [], now, max, windowMs).1)
  {
    var ts := Times(es, s);
    var all := ts + [now];
    assert forall i :: 0 <= i < |ts| ==> all[i] == ts[i];
    assert all[|ts|] == now;
    SocketsAreIndependent(es, max, windowMs, s);
    if Sorted(all) {
      AdmitsIff(ts, max, windowMs, now);
    }
  }

  class WsFrameRateLimiter<Socket(==)> {
    const maxPerSec: int
    const windowMs: nat
    var hits: map<Socket, seq<int>>
    ghost var history: seq<Event<Socket>>

    /** The queues are those of the calls made so far. */
    ghost predicate Valid()
      reads this
    {
      hits == Hits(history, maxPerSec, windowMs)
    }

    constructor (maxPerSec: int, windowMs: nat)
      ensures this.maxPerSec == maxPerSec && this.windowMs == windowMs && history == [] && Valid()
    {
      this.maxPerSec, this.windowMs, hits, history := maxPerSec, windowMs, map[], [];
    }

    /** The verdict is about the socket's whole admission history since its last clear. */
    method Allow(socket: Socket, now: int) returns (ok: bool)
      requires Valid()
      modifies this
      ensures Valid() && history == old(history) + [Frame(socket, now)]
      ensures IsVerdict(Times(old(history), socket), now, maxPerSec, windowMs, ok)
    {
      var arr := if socket in hits then hits[socket] else [];
      var cutoff := now - windowMs;
      while |arr| > 0 && arr[0] < cutoff
        invariant Prune(arr, cutoff) == Prune(if socket in old(hits) then old(hits)[socket] else [], cutoff)
        decreases |arr|
      {
        arr := arr[1..];
      }
      ok := |arr| < maxPerSec;
      hits := hits[socket := if ok then arr + [now] else arr];
      VerdictOf(history, socket, now, maxPerSec, windowMs);
      HitsPush(history, Frame(socket, now), maxPerSec, windowMs);
      history := history + [Frame(socket, now)];
    }

    /** The socket's history starts over; every other socket keeps its own. */
    method Clear(socket: Socket)
      requires Valid()
      modifies this
      ensures Valid() && history == old(history) + [Event.Clear(socket)]
      ensures forall s :: Times(history, s) == if s == socket then [] else Times(old(history), s)
    {
      hits := hits - {socket};
      HitsPush(history, Event.Clear(socket), maxPerSec, windowMs);
      assert (history + [Event.Clear(socket)])[..|history|] == history;
      history := history + [Event.Clear(socket)];
    }
  }

  lemma HitsPush<S>(es: seq<Event<S>>, e: Event<S>, max: int, windowMs: nat)
    ensures Hits(es + [e], max, windowMs) == Next(Hits(es, max, windowMs), e, max, windowMs)
  {
    assert (es + [e])[..|es|] == es;
  }
}
