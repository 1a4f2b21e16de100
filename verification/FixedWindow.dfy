/** The Redis rate limiter: INCR and EXPIRE NX on one key per caller. */
module FixedWindow {
  import opened Base

  /** A Redis counter with the time its key expires, once a TTL is set. */
  datatype Counter = Counter(count: nat, expiresAt: Option<int>)

  /** A key reads as missing from its expiry time on. */
  function Live(c: Option<Counter>, now: int): Option<Counter> {
    if c.Some? && c.value.expiresAt.Some? && now >= c.value.expiresAt.value then None else c
  }

  function Incr(c: Option<Counter>, now: int): Counter {
    match Live(c, now)
    case None => Counter(1, None)
    case Some(x) => x.(count := x.count + 1)
  }

  /** EXPIRE ... NX: only a key that exists and has no TTL gets one. */
  function ExpireNx(c: Option<Counter>, now: int, windowMs: nat): Option<Counter> {
    match Live(c, now)
    case None => None
    case Some(x) => Some(if x.expiresAt.None? then x.(expiresAt := Some(now + windowMs)) else x)
  }

  /** The TTL is given in whole seconds, rounded up. */
  function WindowSec(windowMs: nat): nat {
    (windowMs + 999) / 1000
  }

  // ---------------------------------------------------------------- runs on one key

  /** The two commands of a request travel in one pipeline but are not atomic: commands of
      other requests may come between them, and an EXPIRE may be lost. */
  datatype Command = IncrAt(now: int) | ExpireAt(now: int)

  /** A hit: when, in which life of the key, and the count it was answered. */
  datatype Hit = Hit(now: int, life: nat, count: nat)

  /** `life` numbers the lives of the key; `born` is when the current one began. */
  datatype Run = Run(counter: Option<Counter>, life: nat, born: int, hits: seq<Hit>)

  function Step(r: Run, c: Command, windowMs: nat): Run {
    match c
    case IncrAt(now) =>
      var x := Incr(r.counter, now);
      if Live(r.counter, now).None? then
        Run(Some(x), r.life + 1, now, r.hits + [Hit(now, r.life + 1, x.count)])
      else
        r.(counter := Some(x), hits := r.hits + [Hit(now, r.life, x.count)])
    case ExpireAt(now) =>
      if Live(r.counter, now).None? then r else r.(counter := ExpireNx(r.counter, now, windowMs))
  }

  function Exec(cs: seq<Command>, windowMs: nat): Run {
    if cs == [] then Run(None, 0, 0, []) else Step(Exec(cs[..|cs| - 1], windowMs), cs[|cs| - 1], windowMs)
  }

  predicate Chronological(cs: seq<Command>) {
    forall i, j :: 0 <= i < j < |cs| ==> cs[i].now <= cs[j].now
  }

  predicate CounterOk(r: Run, clock: int, windowMs: nat) {
    match r.counter
    case None => r.hits == []
    case Some(c) =>
      && r.born <= clock && c.count >= 1
      && (c.expiresAt.Some? ==> c.expiresAt.value >= r.born + windowMs)
      && (forall i :: 0 <= i < |r.hits| && r.hits[i].life == r.life ==> r.hits[i].count <= c.count)
      && (forall i :: 0 <= i < |r.hits| && c.expiresAt.Some? ==> r.hits[i].now < c.expiresAt.value)
  }

  predicate HitsOk(r: Run, clock: int, windowMs: nat) {
    && (forall i :: 0 <= i < |r.hits| ==>
          && r.hits[i].now <= clock && r.hits[i].life <= r.life && r.hits[i].count >= 1
          && (r.hits[i].life < r.life ==> r.hits[i].now < r.born)
          && (r.hits[i].life == r.life ==> r.born <= r.hits[i].now)
          && (r.hits[i].life == r.life && r.hits[i].count == 1 ==> r.hits[i].now == r.born)
          && (r.hits[i].life < r.life && r.hits[i].count == 1 ==> r.born >= r.hits[i].now + windowMs)
          && (r.hits[i].life + 1 < r.life ==> r.born > r.hits[i].now + windowMs))
    && (forall i, j :: 0 <= i < j < |r.hits| ==>
          && (r.hits[i].life, r.hits[i].count) != (r.hits[j].life, r.hits[j].count)
          && r.hits[i].life <= r.hits[j].life
          // first hits of a life are a window before the next life; two lives apart, more than a window
          && (r.hits[i].life < r.hits[j].life && r.hits[i].count == 1 ==> r.hits[j].now >= r.hits[i].now + windowMs)
          && (r.hits[i].life + 1 < r.hits[j].life ==> r.hits[j].now > r.hits[i].now + windowMs))
  }

  lemma StepKeepsCounter(r: Run, c: Command, clock: int, windowMs: nat)
    requires windowMs > 0 && clock <= c.now
    requires CounterOk(r, clock, windowMs) && HitsOk(r, clock, windowMs)
    ensures CounterOk(Step(r, c, windowMs), c.now, windowMs)
  {
  }

  /** A hit that finds no live key opens the next life. */
  lemma BirthKeepsHits(r: Run, now: int, clock: int, windowMs: nat)
    requires windowMs > 0 && clock <= now && Live(r.counter, now).None?
    requires CounterOk(r, clock, windowMs) && HitsOk(r, clock, windowMs)
    ensures HitsOk(Step(r, IncrAt(now), windowMs), now, windowMs)
  {
    if r.counter.Some? {
      assert now >= r.counter.value.expiresAt.value >= r.born + windowMs;
    }
  }

  lemma HitKeepsHits(r: Run, now: int, clock: int, windowMs: nat)
    requires windowMs > 0 && clock <= now && Live(r.counter, now).Some?
    requires CounterOk(r, clock, windowMs) && HitsOk(r, clock, windowMs)
    ensures HitsOk(Step(r, IncrAt(now), windowMs), now, windowMs)
  {
    assert r.born <= now;
  }

  lemma StepOk(r: Run, c: Command, clock: int, windowMs: nat)
    requires windowMs > 0 && clock <= c.now
    requires CounterOk(r, clock, windowMs) && HitsOk(r, clock, windowMs)
    ensures CounterOk(Step(r, c, windowMs), c.now, windowMs) && HitsOk(Step(r, c, windowMs), c.now, windowMs)
  {
    StepKeepsCounter(r, c, clock, windowMs);
    if c.IncrAt? {
      if Live(r.counter, c.now).None? { BirthKeepsHits(r, c.now, clock, windowMs); }
      else { HitKeepsHits(r, c.now, clock, windowMs); }
    }
  }

  lemma {:induction false} RunOk(cs: seq<Command>, clock: int, windowMs: nat)
    requires windowMs > 0 && Chronological(cs) && forall i :: 0 <= i < |cs| ==> cs[i].now <= clock
    ensures CounterOk(Exec(cs, windowMs), clock, windowMs) && HitsOk(Exec(cs, windowMs), clock, windowMs)
  {
    if cs != [] {
      var c := cs[|cs| - 1];
      RunOk(cs[..|cs| - 1], c.now, windowMs);
      StepOk(Exec(cs[..|cs| - 1], windowMs), c, c.now, windowMs);
    }
  }

  // ---------------------------------------------------------------- bounds over every run

  predicate Distinct(hits: seq<Hit>) {
    forall i, j :: 0 <= i < j < |hits| ==> (hits[i].life, hits[i].count) != (hits[j].life, hits[j].count)
  }

  function Pairs(hits: seq<Hit>, s: set<nat>): set<(nat, nat)>
    requires forall i :: i in s ==> i < |hits|
  {
    set i | i in s :: (hits[i].life, hits[i].count)
  }

  lemma {:induction false} PairsSize(hits: seq<Hit>, s: set<nat>)
    requires Distinct(hits) && forall i :: i in s ==> i < |hits|
    ensures |Pairs(hits, s)| == |s|
  {
    if s != {} {
      var k :| k in s;
      PairsSize(hits, s - {k});
      var p := (hits[k].life, hits[k].count);
      forall i | i in s - {k} ensures (hits[i].life, hits[i].count) != p {
        assert i < k || k < i;
      }
      assert s == (s - {k}) + {k};
      assert Pairs(hits, s) == Pairs(hits, s - {k}) + {p};
    }
  }

  /** The answers `lo` to `hi` within one life. */
  function Answers(life: nat, lo: nat, hi: nat): (s: set<(nat, nat)>)
    requires 0 < lo <= hi + 1
    ensures |s| == hi + 1 - lo
    ensures forall l: nat, n: nat :: (l, n) in s <==> l == life && lo <= n <= hi
  {
    if lo == hi + 1 then {} else Answers(life, lo, hi - 1) + {(life, hi)}
  }

  /** Hits admitted in the half-open interval. */
  function Admitted(hits: seq<Hit>, max: nat, from: int, to: int): set<nat> {
    set i: nat | i < |hits| && from <= hits[i].now < to && hits[i].count <= max
  }

  function AdmittedInLife(hits: seq<Hit>, max: nat, life: nat): set<nat> {
    set i: nat | i < |hits| && hits[i].life == life && hits[i].count <= max
  }

  /** One life of the key admits at most `max` hits. */
  lemma OneLifeBound(cs: seq<Command>, windowMs: nat, max: nat, life: nat)
    requires windowMs > 0 && Chronological(cs)
    ensures |AdmittedInLife(Exec(cs, windowMs).hits, max, life)| <= max
  {
    RunOk(cs, if cs == [] then 0 else cs[|cs| - 1].now, windowMs);
    var hits := Exec(cs, windowMs).hits;
    var s := AdmittedInLife(hits, max, life);
    PairsSize(hits, s);
    SubsetSize(Pairs(hits, s), Answers(life, 1, max));
  }

  /** An interval of one window length that meets two lives holds no first hit of the earlier
      one, and no third life. */
  lemma MeetsTwoLives(r: Run, clock: int, windowMs: nat, max: nat, start: int, k: nat, j: nat, i: nat)
    requires HitsOk(r, clock, windowMs) && max > 0
    requires {i, j, k} <= Admitted(r.hits, max, start, start + windowMs) && k <= i && k <= j
    requires r.hits[j].life != r.hits[k].life
    ensures var life := r.hits[k].life;
      (r.hits[i].life, r.hits[i].count) in Answers(life, 2, max) + Answers(life + 1, 1, max)
  {
    var life := r.hits[k].life;
    assert i in Admitted(r.hits, max, start, start + windowMs) && j in Admitted(r.hits, max, start, start + windowMs);
    assert k in Admitted(r.hits, max, start, start + windowMs);
    assert life <= r.hits[i].life <= life + 1;
    assert r.hits[i].life == life ==> i < j;
  }

  /** In every run, any half-open interval of one window length admits at most 2 * max - 1 hits:
      it meets at most two lives, and it cannot hold the first hit of the earlier one. */
  lemma SlidingBound(cs: seq<Command>, windowMs: nat, max: nat, start: int)
    requires windowMs > 0 && max > 0 && Chronological(cs)
    ensures |Admitted(Exec(cs, windowMs).hits, max, start, start + windowMs)| <= 2 * max - 1
  {
    var clock := if cs == [] then 0 else cs[|cs| - 1].now;
    RunOk(cs, clock, windowMs);
    var r := Exec(cs, windowMs);
    var s := Admitted(r.hits, max, start, start + windowMs);
    PairsSize(r.hits, s);
    if s != {} {
      var k := Least(s);
      var life := r.hits[k].life;
      if j :| j in s && r.hits[j].life != life {
        forall i | i in s
          ensures (r.hits[i].life, r.hits[i].count) in Answers(life, 2, max) + Answers(life + 1, 1, max)
        {
          MeetsTwoLives(r, clock, windowMs, max, start, k, j, i);
        }
        SubsetSize(Pairs(r.hits, s), Answers(life, 2, max) + Answers(life + 1, 1, max));
      } else {
        SubsetSize(Pairs(r.hits, s), Answers(life, 1, max));
      }
    }
  }

  lemma {:induction false} Least(s: set<nat>) returns (m: nat)
    requires s != {}
    ensures m in s && forall i :: i in s ==> m <= i
  {
    var x :| x in s;
    m := x;
    if s - {x} != {} {
      var y := Least(s - {x});
      m := if x < y then x else y;
    }
    forall i | i in s ensures m <= i {
      assert i == x || i in s - {x};
    }
  }

  function Repeat(c: Command, n: nat): seq<Command> {
    seq(n, _ => c)
  }

  lemma ExecPush(cs: seq<Command>, c: Command, windowMs: nat)
    ensures Exec(cs + [c], windowMs) == Step(Exec(cs, windowMs), c, windowMs)
  {
    assert (cs + [c])[..|cs|] == cs;
  }

  /** `more` is `hits` followed by `n` hits at one time and life, answered one after the other. */
  predicate Answered(hits: seq<Hit>, more: seq<Hit>, n: nat, t: int, life: nat, count: nat) {
    && |more| == |hits| + n && hits == more[..|hits|]
    && forall j :: |hits| <= j < |more| ==> more[j] == Hit(t, life, count + 1 + j - |hits|)
  }

  function HitTimes(r: Run, t: int, n: nat, windowMs: nat): Run {
    if n == 0 then r else Step(HitTimes(r, t, n - 1, windowMs), IncrAt(t), windowMs)
  }

  lemma {:induction false} ExecRepeat(cs: seq<Command>, windowMs: nat, t: int, n: nat)
    ensures Exec(cs + Repeat(IncrAt(t), n), windowMs) == HitTimes(Exec(cs, windowMs), t, n, windowMs)
  {
    if n == 0 {
      assert cs + Repeat(IncrAt(t), 0) == cs;
    } else {
      ExecRepeat(cs, windowMs, t, n - 1);
      ExecPush(cs + Repeat(IncrAt(t), n - 1), IncrAt(t), windowMs);
      assert cs + Repeat(IncrAt(t), n) == cs + Repeat(IncrAt(t), n - 1) + [IncrAt(t)];
    }
  }

  lemma {:induction false} RepeatedHits(r: Run, windowMs: nat, t: int, n: nat)
    requires Live(r.counter, t).Some?
    ensures var r', c := HitTimes(r, t, n, windowMs), r.counter.value;
      && r' == r.(counter := Some(c.(count := c.count + n)), hits := r'.hits)
      && Answered(r.hits, r'.hits, n, t, r.life, c.count)
  {
    if n > 0 {
      RepeatedHits(r, windowMs, t, n - 1);
      var r1 := HitTimes(r, t, n - 1, windowMs);
      assert Step(r1, IncrAt(t), windowMs).hits == r1.hits + [Hit(t, r.life, r.counter.value.count + n)];
    }
  }

  /** One early hit, `max - 1` just before the key expires and `max` when it has. */
  function Burst(max: nat, windowMs: nat): seq<Command>
    requires max > 0
  {
    [IncrAt(0), ExpireAt(0)] + Repeat(IncrAt(windowMs - 1), max - 1) + [IncrAt(windowMs)]
    + Repeat(IncrAt(windowMs), max - 1)
  }

  /** The first life: one hit, the TTL, and the hits just before it runs out. */
  lemma FirstLife(max: nat, windowMs: nat)
    requires max > 0 && windowMs >= 2
    ensures var r := Exec([IncrAt(0), ExpireAt(0)] + Repeat(IncrAt(windowMs - 1), max - 1), windowMs);
      && r == Run(Some(Counter(max, Some(windowMs))), 1, 0, r.hits)
      && Answered([Hit(0, 1, 1)], r.hits, max - 1, windowMs - 1, 1, 1)
  {
    var first, both := [IncrAt(0)], [IncrAt(0), ExpireAt(0)];
    ExecPush([], IncrAt(0), windowMs);
    ExecPush(first, ExpireAt(0), windowMs);
    assert [] + [IncrAt(0)] == first && first + [ExpireAt(0)] == both;
    var r := Run(Some(Counter(1, Some(windowMs))), 1, 0, [Hit(0, 1, 1)]);
    assert Exec(both, windowMs) == r;
    ExecRepeat(both, windowMs, windowMs - 1, max - 1);
    RepeatedHits(r, windowMs, windowMs - 1, max - 1);
  }

  /** The second life begins when the key has expired. */
  lemma SecondLife(r: Run, max: nat, windowMs: nat)
    requires max > 0 && r.counter == Some(Counter(max, Some(windowMs))) && r.life == 1
    ensures var r' := HitTimes(Step(r, IncrAt(windowMs), windowMs), windowMs, max - 1, windowMs);
      Answered(r.hits, r'.hits, max, windowMs, 2, 0)
  {
    var r1 := Step(r, IncrAt(windowMs), windowMs);
    assert r1 == Run(Some(Counter(1, None)), 2, windowMs, r.hits + [Hit(windowMs, 2, 1)]);
    RepeatedHits(r1, windowMs, windowMs, max - 1);
    var more := HitTimes(r1, windowMs, max - 1, windowMs).hits;
    assert more[..|r.hits|] == more[..|r1.hits|][..|r.hits|];
    assert more[|r.hits|] == more[..|r1.hits|][|r.hits|];
  }

  lemma BurstHits(max: nat, windowMs: nat)
    requires max > 0 && windowMs >= 2
    ensures var first := Exec([IncrAt(0), ExpireAt(0)] + Repeat(IncrAt(windowMs - 1), max - 1), windowMs).hits;
      && Answered([Hit(0, 1, 1)], first, max - 1, windowMs - 1, 1, 1)
      && Answered(first, Exec(Burst(max, windowMs), windowMs).hits, max, windowMs, 2, 0)
  {
    FirstLife(max, windowMs);
    var full := [IncrAt(0), ExpireAt(0)] + Repeat(IncrAt(windowMs - 1), max - 1);
    SecondLife(Exec(full, windowMs), max, windowMs);
    ExecPush(full, IncrAt(windowMs), windowMs);
    ExecRepeat(full + [IncrAt(windowMs)], windowMs, windowMs, max - 1);
  }

  lemma BurstIsChronological(max: nat, windowMs: nat)
    requires max > 0 && windowMs >= 1
    ensures Chronological(Burst(max, windowMs))
  {
    var cs := Burst(max, windowMs);
    assert forall i :: 0 <= i < |cs| ==> cs[i].now == if i < 2 then 0 else if i <= max then windowMs - 1 else windowMs;
  }

  /** The bound is reached, whatever the limit and the window. */
  lemma SlidingBoundIsTight(max: nat, windowMs: nat)
    requires max > 0 && windowMs >= 2
    ensures Chronological(Burst(max, windowMs))
    ensures |Admitted(Exec(Burst(max, windowMs), windowMs).hits, max, 1, 1 + windowMs)| == 2 * max - 1
  {
    BurstIsChronological(max, windowMs);
    BurstHits(max, windowMs);
    var hits := Exec(Burst(max, windowMs), windowMs).hits;
    var s := Admitted(hits, max, 1, 1 + windowMs);
    forall i | 0 <= i < 2 * max ensures i in s <==> i != 0 {
      assert i < max ==> hits[i] == hits[..max][i];
    }
    assert s == UpTo(2 * max) - {0};
  }

  function UpTo(n: nat): (s: set<nat>)
    ensures |s| == n && forall k: nat :: k in s <==> k < n
  {
    if n == 0 then {} else UpTo(n - 1) + {n - 1}
  }

  /** Once the TTL is set nothing moves it: hits, admitted or rejected, never extend a window. */
  lemma {:induction false} HitsNeverExtend(r: Run, cs: seq<Command>, windowMs: nat, end: int)
    requires r.counter.Some? && r.counter.value.expiresAt == Some(end)
    requires forall i :: 0 <= i < |cs| ==> cs[i].now < end
    ensures var r' := ExecFrom(r, cs, windowMs);
      r'.counter.Some? && r'.counter.value.expiresAt == Some(end) && r'.life == r.life
  {
    if cs != [] {
      HitsNeverExtend(r, cs[..|cs| - 1], windowMs, end);
    }
  }

  function ExecFrom(r: Run, cs: seq<Command>, windowMs: nat): Run {
    if cs == [] then r else Step(ExecFrom(r, cs[..|cs| - 1], windowMs), cs[|cs| - 1], windowMs)
  }

  /** The configured window in milliseconds never exceeds the TTL actually set. */
  lemma TtlCoversWindow(windowMs: nat)
    ensures windowMs <= 1000 * WindowSec(windowMs) < windowMs + 1000
  {
  }

  // ---------------------------------------------------------------- the middleware

  datatype Verdict = Unauthorized | RateLimited(retryAfter: nat) | Pass

  lemma RequestRun(cs: seq<Command>, now: int, ttl: nat)
    ensures var r, r' := Exec(cs, ttl), Exec(cs + Request(now), ttl);
      var c := Incr(r.counter, now);
      && r'.counter == ExpireNx(Some(c), now, ttl) && r'.counter.Some?
      && r'.hits == r.hits + [Hit(now, r'.life, c.count)]
      && r' == Step(Step(r, IncrAt(now), ttl), ExpireAt(now), ttl)
  {
    ExecPush(cs, IncrAt(now), ttl);
    ExecPush(cs + [IncrAt(now)], ExpireAt(now), ttl);
    assert cs + [IncrAt(now)] + [ExpireAt(now)] == cs + Request(now);
  }

  /** The commands of one request. */
  function Request(now: int): seq<Command> {
    [IncrAt(now), ExpireAt(now)]
  }

  /** The commands of requests at these times, each uninterrupted. */
  function Requests(times: seq<int>): seq<Command> {
    if times == [] then [] else Requests(times[..|times| - 1]) + Request(times[|times| - 1])
  }

  predicate Sorted(times: seq<int>) {
    forall i, j :: 0 <= i < j < |times| ==> times[i] <= times[j]
  }

  lemma {:induction false} RequestsChronological(times: seq<int>)
    requires Sorted(times)
    ensures Chronological(Requests(times))
    ensures forall i :: 0 <= i < |Requests(times)| ==> Requests(times)[i].now <= times[|times| - 1]
  {
    if times != [] {
      var before, now := times[..|times| - 1], times[|times| - 1];
      RequestsChronological(before);
      assert Requests(times) == Requests(before) + Request(now);
    }
  }

  predicate BoundedFrom(hits: seq<Hit>, max: nat, length: nat, start: int) {
    |Admitted(hits, max, start, start + length)| <= 2 * max - 1
  }

  /** In no half-open interval of this length are more than 2 * max - 1 of these hits admitted. */
  ghost predicate Bounded(hits: seq<Hit>, max: nat, length: nat) {
    forall start: int :: BoundedFrom(hits, max, length, start)
  }

  lemma BoundedRun(cs: seq<Command>, max: nat, ttl: nat, length: nat)
    requires Chronological(cs) && max > 0 && ttl > 0 && length <= ttl
    ensures Bounded(Exec(cs, ttl).hits, max, length)
  {
    var hits := Exec(cs, ttl).hits;
    forall start: int ensures BoundedFrom(hits, max, length, start) {
      SlidingBound(cs, ttl, max, start);
      SubsetSize(Admitted(hits, max, start, start + length), Admitted(hits, max, start, start + ttl));
    }
  }

  /** The earlier hits of the same life. */
  function Earlier(hits: seq<Hit>, k: nat): set<nat>
    requires k < |hits|
  {
    set j: nat | j < k && hits[j].life == hits[k].life
  }

  /** A life begins no sooner than a window after the previous one began, and less than a window
      and a second after it began a life is over. */
  predicate LivesLast(hits: seq<Hit>, windowMs: nat) {
    forall i, j :: 0 <= i < j < |hits| ==>
      && (hits[i].life == hits[j].life ==> hits[j].now < hits[i].now + windowMs + 1000)
      && (hits[i].life < hits[j].life && Earlier(hits, i) == {} ==> hits[j].now >= hits[i].now + windowMs)
  }

  /** Every hit is answered with its number within its life. */
  predicate Numbered(hits: seq<Hit>) {
    forall k :: 0 <= k < |hits| ==> hits[k].count == |Earlier(hits, k)| + 1
  }

  /** After uninterrupted requests the key expires one TTL after its life began, and the counter
      is the number of hits of that life. */
  predicate CounterIs(r: Run, ttl: nat) {
    && (r.counter.None? ==> r.hits == [])
    && (r.counter.Some? ==>
          r.counter.value == Counter(|InLife(r.hits, r.life)|, Some(r.born + ttl)))
    && (forall i :: 0 <= i < |r.hits| ==> r.hits[i].life <= r.life)
  }

  /** Hits of one life lie within one TTL of each other. */
  predicate Spans(r: Run, ttl: nat) {
    && (forall i :: 0 <= i < |r.hits| && r.hits[i].life == r.life ==> r.born <= r.hits[i].now)
    && (forall i, j :: 0 <= i < j < |r.hits| && r.hits[i].life == r.hits[j].life ==>
          r.hits[j].now < r.hits[i].now + ttl)
  }

  predicate RequestsOk(r: Run, ttl: nat) {
    CounterIs(r, ttl) && Numbered(r.hits) && Spans(r, ttl)
  }

  function InLife(hits: seq<Hit>, life: nat): set<nat> {
    set j: nat | j < |hits| && hits[j].life == life
  }

  lemma PushHit(hits: seq<Hit>, h: Hit)
    ensures var all := hits + [h];
      && Earlier(all, |hits|) == InLife(hits, h.life)
      && InLife(all, h.life) == InLife(hits, h.life) + {|hits|}
      && (forall k: nat :: k < |hits| ==> Earlier(all, k) == Earlier(hits, k))
  {
  }

  /** What one request makes of a run. */
  lemma AfterRequest(r: Run, now: int, ttl: nat) returns (h: Hit, r': Run)
    requires CounterIs(r, ttl) && ttl > 0
    ensures r' == Step(Step(r, IncrAt(now), ttl), ExpireAt(now), ttl) && r'.hits == r.hits + [h]
    ensures h == Hit(now, r'.life, |InLife(r.hits, r'.life)| + 1)
    ensures r'.counter == Some(Counter(h.count, Some(r'.born + ttl)))
    ensures if r.counter.Some? && now < r.born + ttl then r'.life == r.life && r'.born == r.born
            else r'.life == r.life + 1 && r'.born == now
  {
    var r1 := Step(r, IncrAt(now), ttl);
    r' := Step(r1, ExpireAt(now), ttl);
    h := Hit(now, r'.life, Incr(r.counter, now).count);
    if Live(r.counter, now).None? {
      assert InLife(r.hits, r.life + 1) == {};
      assert r1.counter == Some(Counter(1, None));
    }
  }

  lemma PushKeepsNumbers(hits: seq<Hit>, h: Hit)
    requires Numbered(hits) && h.count == |InLife(hits, h.life)| + 1
    ensures Numbered(hits + [h]) && |InLife(hits + [h], h.life)| == h.count
  {
    PushHit(hits, h);
    var all := hits + [h];
    forall k | 0 <= k < |all| ensures all[k].count == |Earlier(all, k)| + 1 {
      assert k < |hits| ==> all[k] == hits[k] && Earlier(all, k) == Earlier(hits, k);
    }
  }

  lemma RequestOk(r: Run, now: int, ttl: nat)
    requires RequestsOk(r, ttl) && ttl > 0 && (r.counter.Some? ==> r.born <= now)
    ensures var r' := Step(Step(r, IncrAt(now), ttl), ExpireAt(now), ttl);
      RequestsOk(r', ttl) && r'.counter.Some? && r'.born <= now
  {
    var h, r' := AfterRequest(r, now, ttl);
    CounterOneMore(r, r', h, ttl);
    PushKeepsNumbers(r.hits, h);
    SpansOneMore(r, r', h, ttl);
  }

  lemma CounterOneMore(r: Run, r': Run, h: Hit, ttl: nat)
    requires r'.hits == r.hits + [h] && r.life <= r'.life == h.life
    requires forall i :: 0 <= i < |r.hits| ==> r.hits[i].life <= r.life
    requires r'.counter == Some(Counter(h.count, Some(r'.born + ttl))) && h.count == |InLife(r.hits, h.life)| + 1
    ensures CounterIs(r', ttl)
  {
    PushHit(r.hits, h);
  }

  lemma SpansOneMore(r: Run, r': Run, h: Hit, ttl: nat)
    requires Spans(r, ttl) && r'.hits == r.hits + [h] && h.life == r'.life && ttl > 0
    requires forall i :: 0 <= i < |r.hits| ==> r.hits[i].life <= r.life
    requires (r'.life == r.life && r'.born == r.born && r.born <= h.now < r.born + ttl)
      || (r'.life == r.life + 1 && r'.born == h.now)
    ensures Spans(r', ttl)
  {
  }

  lemma {:induction false} RequestRunsOk(times: seq<int>, ttl: nat)
    requires Sorted(times) && ttl > 0
    ensures var r := Exec(Requests(times), ttl);
      RequestsOk(r, ttl) && (r.counter.Some? ==> times != [] && r.born <= times[|times| - 1])
  {
    if times != [] {
      var before, now := times[..|times| - 1], times[|times| - 1];
      RequestRunsOk(before, ttl);
      RequestRun(Requests(before), now, ttl);
      RequestOk(Exec(Requests(before), ttl), now, ttl);
    }
  }

  /** What a limiter of `max` requests per `windowMs` answers to requests at these times: each hit
      gets its number within its life, lives last about a window, and any half-open interval of
      the configured window admits at most 2 * max - 1. */
  lemma RequestBounds(times: seq<int>, max: nat, windowMs: nat)
    requires Sorted(times) && windowMs > 0
    ensures var hits := Exec(Requests(times), 1000 * WindowSec(windowMs)).hits;
      && Numbered(hits) && LivesLast(hits, windowMs)
      && (max > 0 ==> Bounded(hits, max, windowMs))
  {
    var ttl := 1000 * WindowSec(windowMs);
    TtlCoversWindow(windowMs);
    RequestsChronological(times);
    RequestRunsOk(times, ttl);
    var clock := if times == [] then 0 else times[|times| - 1];
    RunOk(Requests(times), clock, ttl);
    if max > 0 {
      BoundedRun(Requests(times), max, ttl, windowMs);
    }
    var r := Exec(Requests(times), ttl);
    forall i, j | 0 <= i < j < |r.hits| && r.hits[i].life < r.hits[j].life && Earlier(r.hits, i) == {}
      ensures r.hits[j].now >= r.hits[i].now + windowMs
    {
      assert r.hits[i].count == 1;
    }
  }

  ghost predicate Limited(hits: seq<Hit>, max: nat, windowMs: nat) {
    LivesLast(hits, windowMs) && (max > 0 ==> Bounded(hits, max, windowMs))
  }

  /** The hits of one caller's requests at these times. */
  function HitsOf(times: seq<int>, windowMs: nat): seq<Hit> {
    Exec(Requests(times), 1000 * WindowSec(windowMs)).hits
  }

  /** `v` is the answer to a request at `now` after requests at `times`: the request is one more
      hit, and is refused exactly when `max` hits of the same life went before. Over a
      non-decreasing clock that bounds the requests admitted within the configured window, and a
      life, with its refusals, is over less than a second after the window. */
  ghost predicate IsAnswer(times: seq<int>, now: int, max: nat, windowMs: nat, v: Verdict) {
    var hits := HitsOf(times + [now], windowMs);
    && |hits| == |times| + 1 && hits[..|times|] == HitsOf(times, windowMs) && hits[|times|].now == now
    && v == (if hits[|times|].count > max then RateLimited((windowMs + 999) / 1000) else Pass)
    && (Sorted(times + [now]) && windowMs > 0 ==>
          (v != Pass <==> |Earlier(hits, |times|)| >= max) && Limited(hits, max, windowMs))
  }

  lemma {:induction false} OneHitEach(times: seq<int>, windowMs: nat)
    ensures |HitsOf(times, windowMs)| == |times|
  {
    if times != [] {
      OneHitEach(times[..|times| - 1], windowMs);
      RequestRun(Requests(times[..|times| - 1]), times[|times| - 1], 1000 * WindowSec(windowMs));
    }
  }

  lemma AnswerOf(times: seq<int>, now: int, max: nat, windowMs: nat)
    ensures var ttl := 1000 * WindowSec(windowMs);
      var c := Incr(Exec(Requests(times), ttl).counter, now);
      && Exec(Requests(times + [now]), ttl).counter == ExpireNx(Some(c), now, ttl)
      && ExpireNx(Some(c), now, ttl).Some?
      && IsAnswer(times, now, max, windowMs, if c.count > max then RateLimited(WindowSec(windowMs)) else Pass)
  {
    var all := times + [now];
    assert all[..|times|] == times;
    OneHitEach(times, windowMs);
    RequestRun(Requests(times), now, 1000 * WindowSec(windowMs));
    if Sorted(all) && windowMs > 0 {
      RequestBounds(all, max, windowMs);
    }
  }

  class RateLimit {
    const max: nat
    const windowMs: nat
    var keys: map<string, Counter>
    ghost var history: map<string, seq<int>>

    /** The stored counters are those of the requests made so far. */
    ghost predicate Valid()
      reads this
    {
      forall key: string :: At(key) == CounterOf(key)
    }

    constructor (max: nat, windowMs: nat)
      ensures this.max == max && this.windowMs == windowMs && history == map[] && Valid()
    {
      this.max, this.windowMs, keys, history := max, windowMs, map[], map[];
    }

    function At(key: string): Option<Counter>
      reads this
    {
      if key in keys then Some(keys[key]) else None
    }

    /** The times of the caller's requests. */
    ghost function Times(key: string): seq<int>
      reads this
    {
      if key in history then history[key] else []
    }

    ghost function CounterOf(key: string): Option<Counter>
      reads this
    {
      Exec(Requests(Times(key)), 1000 * WindowSec(windowMs)).counter
    }

    method PreHandler(userId: string, now: int) returns (v: Verdict)
      requires Valid()
      modifies this
      ensures Valid()
      ensures userId == "" ==> v == Unauthorized && keys == old(keys) && history == old(history)
      ensures userId != "" ==>
        && history == old(history)[userId := old(Times(userId)) + [now]]
        && IsAnswer(old(Times(userId)), now, max, windowMs, v)
    {
      if userId == "" {
        return Unauthorized;
      }
      var windowSec := WindowSec(windowMs);
      var c := Incr(if userId in keys then Some(keys[userId]) else None, now);
      var x := ExpireNx(Some(c), now, 1000 * windowSec);
      assert At(userId) == CounterOf(userId);
      AnswerOf(Times(userId), now, max, windowMs);
      keys := if x.Some? then keys[userId := x.value] else keys - {userId};
      history := history[userId := Times(userId) + [now]];
      forall key: string ensures At(key) == CounterOf(key) {
        assert key != userId ==> old(At(key)) == old(CounterOf(key));
      }
      v := if c.count > max then RateLimited(windowSec) else Pass;
    }
  }
}
