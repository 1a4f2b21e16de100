/** The worker code of one queue: planner job, batch completion and sweep, each run without
    interruption, and the protocol steps its Redis and queue commands are. */
module BroadcastWorker {
  import opened Base
  import opened BroadcastIds
  import opened BroadcastProtocol
  import opened BroadcastSafety
  import opened BroadcastRecovery

  const BATCH_SIZE := 200

  // ---------------------------------------------------------------- batching

  function Slices(users: seq<User>): Batches {
    if |users| == 0 then []
    else if |users| <= BATCH_SIZE then [users]
    else [users[..BATCH_SIZE]] + Slices(users[BATCH_SIZE..])
  }

  /** Slicing loses, repeats and reorders nobody; every batch is full but the last, which is
      not empty; so a plan has the fewest batches possible. */
  lemma {:induction false} SlicesPartition(users: seq<User>)
    ensures Recipients(Slices(users)) == users
    ensures forall i :: 0 <= i < |Slices(users)| ==> 0 < |Slices(users)[i]| <= 200
    ensures forall i :: 0 <= i < |Slices(users)| - 1 ==> |Slices(users)[i]| == 200
    ensures |Slices(users)| == (|users| + 199) / 200
    decreases |users|
  {
    if |users| == 0 {
    } else if |users| <= BATCH_SIZE {
      assert Recipients([users]) == users + Recipients([]);
    } else {
      SlicesPartition(users[BATCH_SIZE..]);
      var rest := Slices(users[BATCH_SIZE..]);
      assert Slices(users)[1..] == rest;
      assert users == users[..BATCH_SIZE] + users[BATCH_SIZE..];
    }
  }

  method SliceBatches(users: seq<User>) returns (batches: Batches)
    ensures batches == Slices(users)
  {
    batches := [];
    var i := 0;
    while i < |users|
      invariant 0 <= i
      invariant batches + Slices(if i <= |users| then users[i..] else []) == Slices(users)
      decreases |users| - i
    {
      var end := if i + BATCH_SIZE < |users| then i + BATCH_SIZE else |users|;
      ghost var rest := users[i..];
      batches := batches + [users[i..end]];
      if i + BATCH_SIZE <= |users| {
        assert rest[..BATCH_SIZE] == users[i..end] && rest[BATCH_SIZE..] == users[i + BATCH_SIZE..];
      } else {
        assert rest == users[i..end];
      }
      i := i + BATCH_SIZE;
    }
  }

  // ---------------------------------------------------------------- queue effects

  function IdFor(kind: Kind, d: Payload): JobId {
    JobId(BatchJobId(kind, d.campaign.text, d.index))
  }

  predicate Names(kind: Kind, work: set<Payload>, id: JobId) {
    exists d :: d in work && id == IdFor(kind, d)
  }

  /** Every payload of `work` has a job, and a job that is new is one of these, waiting. */
  predicate JobsAdded(kind: Kind, q: map<JobId, Job>, q': map<JobId, Job>, work: set<Payload>) {
    && (forall d :: d in work ==> IdFor(kind, d) in q')
    && (forall id :: id in q' && id !in q ==>
          exists d :: d in work && id == IdFor(kind, d) && q'[id] == Job(d, Waiting))
  }

  /** Jobs are added where missing; existing jobs are left alone. */
  predicate Enqueued(kind: Kind, q: map<JobId, Job>, q': map<JobId, Job>, work: set<Payload>) {
    && JobsAdded(kind, q, q', work)
    && (forall id :: id in q ==> id in q' && q'[id] == q[id])
  }

  function Retried(job: Job): Job {
    if job.status == Failed then job.(status := Waiting) else job
  }

  /** Jobs are added where missing; of the existing ones, exactly the failed ones that `work`
      names are set waiting again. */
  predicate Revived(kind: Kind, q: map<JobId, Job>, q': map<JobId, Job>, work: set<Payload>) {
    && JobsAdded(kind, q, q', work)
    && (forall id :: id in q ==> id in q' && q'[id] == if Names(kind, work, id) then Retried(q[id]) else q[id])
  }

  lemma EnqueueOne(kind: Kind, q: map<JobId, Job>, q': map<JobId, Job>, work: set<Payload>, d: Payload)
    requires Enqueued(kind, q, q', work)
    ensures Enqueued(kind, q, AddJob(q', IdFor(kind, d), d), work + {d})
  {
    var q'' := AddJob(q', IdFor(kind, d), d);
    forall id | id in q'' && id !in q
      ensures exists d' :: d' in work + {d} && id == IdFor(kind, d') && q''[id] == Job(d', Waiting)
    {
      if id in q' {
        var d' :| d' in work && id == IdFor(kind, d') && q'[id] == Job(d', Waiting);
        assert d' in work + {d};
      } else {
        assert d in work + {d};
      }
    }
  }

  lemma ReviveOne(kind: Kind, q: map<JobId, Job>, q': map<JobId, Job>, work: set<Payload>, d: Payload)
    requires Revived(kind, q, q', work)
    ensures Revived(kind, q, Revive(q', IdFor(kind, d), d), work + {d})
  {
    assert forall id :: Names(kind, {d}, id) <==> id == IdFor(kind, d);
    RevivedTwice(kind, q, q', Revive(q', IdFor(kind, d), d), work, {d});
  }

  lemma RevivedTwice(kind: Kind, q: map<JobId, Job>, q1: map<JobId, Job>, q2: map<JobId, Job>,
                     a: set<Payload>, b: set<Payload>)
    requires Revived(kind, q, q1, a) && Revived(kind, q1, q2, b)
    ensures Revived(kind, q, q2, a + b)
  {
    forall id ensures Names(kind, a + b, id) <==> Names(kind, a, id) || Names(kind, b, id) {
    }
    forall id | id in q2 && id !in q
      ensures exists d :: d in a + b && id == IdFor(kind, d) && q2[id] == Job(d, Waiting)
    {
      if id in q1 {
        var d :| d in a && id == IdFor(kind, d) && q1[id] == Job(d, Waiting);
        assert d in a + b;
      } else {
        var d :| d in b && id == IdFor(kind, d) && q2[id] == Job(d, Waiting);
        assert d in a + b;
      }
    }
  }

  // ---------------------------------------------------------------- commands are protocol steps

  /** After these steps only the queue, now `q`, and what is in hand have changed. */
  predicate OnlyQueue(w: World, es: seq<Event>, q: map<JobId, Job>) {
    Valid(w, es) && SameButQueue(w, Exec(w, es)) && Exec(w, es).queue == q
  }

  /** Moreover a planner or replay still has these batches in hand. */
  predicate ToEnqueue(w: World, es: seq<Event>, q: map<JobId, Job>, left: set<Payload>) {
    OnlyQueue(w, es, q) && forall d :: d in left ==> d in Exec(w, es).planned
  }

  /** Moreover a sweep still has these batches to visit. */
  predicate ToVisit(w: World, es: seq<Event>, q: map<JobId, Job>, left: set<Payload>) {
    OnlyQueue(w, es, q) && forall d :: d in left ==> d in Exec(w, es).visiting
  }

  /** Adding a job for a batch in hand is an enqueue of the protocol. */
  lemma AddIsStep(w: World, es: seq<Event>, q: map<JobId, Job>, left: set<Payload>, d: Payload)
    returns (es': seq<Event>)
    requires ToEnqueue(w, es, q, left) && d in left
    ensures ToEnqueue(w, es', AddJob(q, IdFor(w.kind, d), d), left - {d})
  {
    ThenOne(w, es, Enqueue(d));
    es' := es + [Enqueue(d)];
  }

  /** The sweep's get, retry or add for a batch it has read is one step of the protocol. */
  lemma ReviveIsStep(w: World, es: seq<Event>, q: map<JobId, Job>, left: set<Payload>, d: Payload)
    returns (es': seq<Event>)
    requires ToVisit(w, es, q, left) && d in left
    ensures ToVisit(w, es', Revive(q, IdFor(w.kind, d), d), left - {d})
  {
    ThenOne(w, es, SweepVisits(d));
    es' := es + [SweepVisits(d)];
  }

  lemma ReadIsStep(w: World, c: Campaign, now: int)
    requires c in w.active && Stale(w.state, c, now)
    ensures ToVisit(w, [SweepReads(c, now)], w.queue, Work(c, Pending(w, c)))
  {
    OneStep(w, SweepReads(c, now));
  }

  /** Reading no state and dropping the campaign. */
  lemma DropIsSteps(w: World, c: Campaign)
    requires Plans(w, c) != [] && StateOf(w, c).createdAt.None?
    ensures var es := [SweepSeesNoState(c), SweepDrops(c)];
      Valid(w, es) && Exec(w, es) == w.(gone := w.gone + {c}, pending := w.pending - {c}, active := w.active - {c})
  {
    var w1 := Apply(w, SweepSeesNoState(c));
    OneStep(w1, SweepDrops(c));
    OneThen(w, SweepSeesNoState(c), [SweepDrops(c)]);
    assert [SweepSeesNoState(c)] + [SweepDrops(c)] == [SweepSeesNoState(c), SweepDrops(c)];
  }

  lemma ClaimIsStep(w: World, r: nat)
    requires Enabled(w, Claim(r))
    ensures var w', d := Apply(w, Claim(r)), w.runs[r].data;
      && (RedisOf(w'), w'.runs[r].phase.remaining) == ClaimTx(RedisOf(w), d.campaign, d.index, w.runs[r].result)
      && w'.runs[r].phase.Claimed? && w'.runs[r].data == d && w'.queue == w.queue && w'.kind == w.kind
      && HistoryOf(w', d.campaign).audits == HistoryOf(w, d.campaign).audits
  {
  }

  /** After a zero claim: the audit and the cleanup. */
  lemma CloseIsSteps(w: World, r: nat)
    requires Enabled(w, LogAudit(r))
    ensures var es, c := [LogAudit(r), Cleanup(r)], w.runs[r].data.campaign;
      && Valid(w, es)
      && var w' := Exec(w, es);
         && RedisOf(w') == CleanupTx(RedisOf(w), c) && w'.queue == w.queue && w'.kind == w.kind
         && HistoryOf(w', c).audits == HistoryOf(w, c).audits + [Audit(StateOf(w, c).total, StateOf(w, c).sent)]
  {
    var w1 := Apply(w, LogAudit(r));
    OneStep(w1, Cleanup(r));
    OneThen(w, LogAudit(r), [Cleanup(r)]);
    assert [LogAudit(r)] + [Cleanup(r)] == [LogAudit(r), Cleanup(r)];
  }

  /** The claim, and on 0 the audit and the cleanup: what is left in Redis, and the audit logged. */
  lemma FinishIsSteps(w: World, r: nat) returns (es: seq<Event>)
    requires Enabled(w, Claim(r))
    ensures Valid(w, es)
    ensures var w', d := Exec(w, es), w.runs[r].data;
      var (claimed, left) := ClaimTx(RedisOf(w), d.campaign, d.index, w.runs[r].result);
      && w'.queue == w.queue && w'.kind == w.kind
      && RedisOf(w') == (if left == 0 then CleanupTx(claimed, d.campaign) else claimed)
      && HistoryOf(w', d.campaign).audits == HistoryOf(w, d.campaign).audits + Logged(claimed, d.campaign, left)
  {
    ClaimIsStep(w, r);
    var w1 := Apply(w, Claim(r));
    var tail: seq<Event> := [];
    if w1.runs[r].phase == Claimed(0) {
      CloseIsSteps(w1, r);
      tail := [LogAudit(r), Cleanup(r)];
    }
    OneThen(w, Claim(r), tail);
    es := [Claim(r)] + tail;
  }

  /** The audit an execution logs after its claim. */
  function Logged(claimed: Redis, c: Campaign, left: int): seq<Audit> {
    var h := if c in claimed.state then claimed.state[c] else NO_HASH;
    if left == 0 then [Audit(h.total, h.sent)] else []
  }

  lemma PlanIsStep(w: World, c: Campaign, users: seq<User>, now: int)
    requires users != []
    ensures Slices(users) != [] && Enabled(w, Plan(c, Slices(users), now))
    ensures var w' := Apply(w, Plan(c, Slices(users), now));
      && RedisOf(w') == PlanTx(RedisOf(w), c, Slices(users), now) && w'.queue == w.queue && w'.kind == w.kind
      && (forall d :: d in Work(c, PendingOf(Slices(users))) ==> d in w'.planned)
  {
    SlicesPartition(users);
  }

  // ---------------------------------------------------------------- the code

  /** Each method takes the state of the protocol it starts in and returns the steps it takes;
      what it leaves in Redis and in the queue is what those steps leave. */
  class Worker {
    const kind: Kind
    var state: map<Campaign, Hash>
    var pending: map<Campaign, map<nat, seq<User>>>
    var active: set<Campaign>
    var queue: map<JobId, Job>
    var audits: seq<(Campaign, Audit)>

    constructor (kind: Kind)
      ensures this.kind == kind && audits == [] && Shows(Init(kind))
    {
      this.kind := kind;
      state, pending, active, queue, audits := map[], map[], {}, map[], [];
    }

    function Store(): Redis
      reads this
    {
      Redis(state, pending, active)
    }

    /** Redis and the queue are in this state of the protocol. */
    predicate Shows(w: World)
      reads this
    {
      w.kind == kind && RedisOf(w) == Store() && w.queue == queue
    }

    function Fields(c: Campaign): map<nat, seq<User>>
      reads this
    {
      if c in pending then pending[c] else map[]
    }

    /** The enqueue loop of the planner and of its replay. */
    method EnqueueAll(c: Campaign, batches: map<nat, seq<User>>, ghost w: World) returns (ghost es: seq<Event>)
      requires Shows(w) && forall d :: d in Work(c, batches) ==> d in w.planned
      modifies this`queue
      ensures Enqueued(kind, old(queue), queue, Work(c, batches))
      ensures OnlyQueue(w, es, queue)
    {
      var work := Work(c, batches);
      var left := work;
      es := [];
      assert ToEnqueue(w, es, queue, left) && work - left == {};
      while left != {}
        invariant left <= work
        invariant Enqueued(kind, old(queue), queue, work - left)
        invariant ToEnqueue(w, es, queue, left)
        decreases left
      {
        var d :| d in left;
        EnqueueOne(kind, old(queue), queue, work - left, d);
        es := AddIsStep(w, es, queue, left, d);
        queue := AddJob(queue, IdFor(kind, d), d);
        assert work - left + {d} == work - (left - {d});
        left := left - {d};
      }
      assert work - left == work;
    }

    /** Planner job: replay an existing plan, log an empty broadcast, or plan and enqueue. */
    method PlanOrReplay(c: Campaign, users: seq<User>, now: int, ghost w: World) returns (ghost es: seq<Event>)
      requires Shows(w)
      modifies this
      ensures Valid(w, es) && Shows(Exec(w, es))
      ensures old(c in state) ==>
        && Store() == old(Store()) && audits == old(audits)
        && Enqueued(kind, old(queue), queue, Work(c, old(Fields(c))))
      ensures old(c !in state) && users == [] ==>
        Store() == old(Store()) && queue == old(queue) && audits == old(audits) + [(c, Audit(0, 0))]
      ensures old(c !in state) && users != [] ==>
        && Store() == PlanTx(old(Store()), c, Slices(users), now) && audits == old(audits)
        && Enqueued(kind, old(queue), queue, Work(c, PendingOf(Slices(users))))
    {
      if c in state {
        var fields := Fields(c);
        ghost var read := ReplayReads(c);
        es := EnqueueAll(c, fields, Apply(w, read));
        OneThen(w, read, es);
        es := [read] + es;
        return;
      }
      var batches := SliceBatches(users);
      SlicesPartition(users);
      if |batches| == 0 {
        audits := audits + [(c, Audit(0, 0))];
        es := [];
        return;
      }
      var fields := PendingOf(batches);
      state := state[c := Hash(|users|, |batches|, 0, Some(now))];
      pending := pending[c := Fields(c) + fields];
      active := active + {c};
      PlanIsStep(w, c, users, now);
      ghost var plan := Plan(c, batches, now);
      es := EnqueueAll(c, fields, Apply(w, plan));
      OneThen(w, plan, es);
      es := [plan] + es;
    }

    method ClaimBatch(c: Campaign, index: nat, sent: nat) returns (remaining: int)
      modifies this`state, this`pending
      ensures (Store(), remaining) == ClaimTx(old(Store()), c, index, sent)
    {
      if c in pending && index in pending[c] {
        pending := pending[c := pending[c] - {index}];
        var h := if c in state then state[c] else NO_HASH;
        state := state[c := h.(sent := h.sent + sent, remaining := h.remaining - 1)];
        remaining := state[c].remaining;
      } else {
        remaining := -1;
      }
    }

    /** What a batch job does after its sends, as execution `r`: claim, and on 0 audit the totals
        and clean up. */
    method FinishBatchJob(c: Campaign, index: nat, sent: nat, ghost w: World, ghost r: nat)
      returns (remaining: int, ghost es: seq<Event>)
      requires Shows(w) && Enabled(w, Claim(r))
      requires w.runs[r].data.campaign == c && w.runs[r].data.index == index && w.runs[r].result == sent
      modifies this
      ensures Valid(w, es) && Shows(Exec(w, es))
      ensures var (claimed, left) := ClaimTx(old(Store()), c, index, sent);
        && remaining == left
        && (left == 0 ==> c !in state && c !in pending && c !in active)
        && audits == old(audits) + (if left == 0 then [(c, Logged(claimed, c, left)[0])] else [])
        && HistoryOf(Exec(w, es), c).audits == HistoryOf(w, c).audits + Logged(claimed, c, left)
    {
      es := FinishIsSteps(w, r);
      remaining := ClaimBatch(c, index, sent);
      if remaining == 0 {
        var h := if c in state then state[c] else NO_HASH;
        audits := audits + [(c, Audit(h.total, h.sent))];
        state, pending, active := state - {c}, pending - {c}, active - {c};
      }
    }

    method SweepCampaign(c: Campaign, now: int, ghost w: World) returns (ghost es: seq<Event>)
      requires Shows(w) && c in active && Stale(state, c, now)
      modifies this`queue
      ensures Revived(kind, old(queue), queue, Work(c, Fields(c)))
      ensures OnlyQueue(w, es, queue)
    {
      var work := Work(c, Fields(c));
      var left := work;
      es := [SweepReads(c, now)];
      ReadIsStep(w, c, now);
      assert work - left == {};
      while left != {}
        invariant left <= work
        invariant Revived(kind, old(queue), queue, work - left)
        invariant ToVisit(w, es, queue, left)
        decreases left
      {
        var d :| d in left;
        ReviveOne(kind, old(queue), queue, work - left, d);
        es := ReviveIsStep(w, es, queue, left, d);
        queue := Revive(queue, IdFor(kind, d), d);
        assert work - left + {d} == work - (left - {d});
        left := left - {d};
      }
      assert work - left == work;
    }

    /** One campaign of the active set. */
    method SweepOne(c: Campaign, now: int, ghost w: World) returns (ghost es: seq<Event>)
      requires Shows(w) && c in active && Plans(w, c) != []
      modifies this`queue, this`pending, this`active
      ensures Valid(w, es) && Shows(Exec(w, es)) && Exec(w, es).history == w.history
      ensures pending == if Known(state, c) then old(pending) else old(pending) - {c}
      ensures active == if Known(state, c) then old(active) else old(active) - {c}
      ensures Revived(kind, old(queue), queue, WorkIfStale(state, old(pending), c, now))
    {
      if c !in state || state[c].createdAt.None? {
        DropIsSteps(w, c);
        pending, active := pending - {c}, active - {c};
        es := [SweepSeesNoState(c), SweepDrops(c)];
      } else if now - state[c].createdAt.value >= STALE_MS {
        es := SweepCampaign(c, now, w);
      } else {
        es := [];
      }
    }

    /** The sweep: campaigns without state are forgotten, and every pending batch of a stale
        campaign gets a job that is not failed; no other job is added or changed. That active
        campaigns have been planned is part of `Sourced`. */
    method Sweep(now: int, ghost w: World) returns (ghost es: seq<Event>)
      requires Shows(w) && forall c :: c in active ==> Findable(w, c)
      modifies this`queue, this`pending, this`active
      ensures Valid(w, es) && Shows(Exec(w, es))
      ensures Forgotten(state, old(active), old(pending), {}, active, pending)
      ensures Revived(kind, old(queue), queue, AllWork(old(pending), StaleOf(state, old(active), now)))
    {
      var todo := active;
      es := [];
      ghost var v, before := w, Shelf(active, pending, queue);
      assert AllWork(pending, StaleOf(state, active - todo, now)) == {};
      while todo != {}
        invariant todo <= old(active)
        invariant Swept(kind, state, before, Shelf(active, pending, queue), todo, now)
        invariant Reached(w, es, v) && Shows(v)
        decreases todo
      {
        var c :| c in todo;
        ghost var here := Shelf(active, pending, queue);
        assert Plans(v, c) == Plans(w, c);
        ghost var step := SweepOne(c, now, v);
        ReachedThen(w, es, v, step);
        es, v := es + step, Exec(v, step);
        SweptOne(kind, state, before, here, queue, todo, c, now);
        todo := todo - {c};
      }
      assert old(active) - {} == old(active);
    }
  }

  /** These steps lead from `w` to `v` and plan nothing. */
  predicate Reached(w: World, es: seq<Event>, v: World) {
    Valid(w, es) && Exec(w, es) == v && v.history == w.history
  }

  lemma ReachedThen(w: World, es: seq<Event>, v: World, step: seq<Event>)
    requires Reached(w, es, v) && Valid(v, step) && Exec(v, step).history == v.history
    ensures Reached(w, es + step, Exec(v, step))
  {
    ExecAppend(w, es, step);
  }

  // ---------------------------------------------------------------- what a sweep leaves

  predicate Known(state: map<Campaign, Hash>, c: Campaign) {
    c in state && state[c].createdAt.Some?
  }

  function StaleOf(state: map<Campaign, Hash>, campaigns: set<Campaign>, now: int): set<Campaign> {
    set c | c in campaigns && Stale(state, c, now)
  }

  /** All pending batches of these campaigns. */
  function AllWork(pending: map<Campaign, map<nat, seq<User>>>, campaigns: set<Campaign>): set<Payload> {
    set c, i | c in campaigns && c in pending && i in pending[c] :: Payload(c, i, pending[c][i])
  }

  function WorkIfStale(state: map<Campaign, Hash>, pending: map<Campaign, map<nat, seq<User>>>,
                       c: Campaign, now: int): set<Payload> {
    if Stale(state, c, now) then Work(c, if c in pending then pending[c] else map[]) else {}
  }

  lemma StaleOne(state: map<Campaign, Hash>, active: set<Campaign>, pending: map<Campaign, map<nat, seq<User>>>,
                 todo: set<Campaign>, c: Campaign, now: int)
    requires c in todo && todo <= active
    ensures AllWork(pending, StaleOf(state, active - (todo - {c}), now)) ==
      AllWork(pending, StaleOf(state, active - todo, now)) + WorkIfStale(state, pending, c, now)
  {
    assert active - (todo - {c}) == (active - todo) + {c};
  }

  /** Of the active campaigns not in `todo`, exactly those without state have been dropped, with
      their pending hash; nothing else has changed. */
  ghost predicate Forgotten(state: map<Campaign, Hash>, active: set<Campaign>,
                            pending: map<Campaign, map<nat, seq<User>>>, todo: set<Campaign>,
                            active': set<Campaign>, pending': map<Campaign, map<nat, seq<User>>>) {
    && (forall c :: c in active' <==> c in active && (c in todo || Known(state, c)))
    && (forall c :: c in pending' <==> c in pending && (c in active' || c !in active))
    && (forall c :: c in pending' ==> pending'[c] == pending[c])
  }

  lemma ForgetOne(state: map<Campaign, Hash>, active: set<Campaign>, pending: map<Campaign, map<nat, seq<User>>>,
                  todo: set<Campaign>, c: Campaign, a: set<Campaign>, p: map<Campaign, map<nat, seq<User>>>)
    requires Forgotten(state, active, pending, todo, a, p) && c in todo && todo <= active
    ensures Forgotten(state, active, pending, todo - {c},
                      if Known(state, c) then a else a - {c}, if Known(state, c) then p else p - {c})
    ensures c in p <==> c in pending
    ensures c in p ==> p[c] == pending[c]
  {
  }

  /** What a sweep changes. */
  datatype Shelf = Shelf(active: set<Campaign>, pending: map<Campaign, map<nat, seq<User>>>, queue: map<JobId, Job>)

  /** The sweep's work from `a` to `b`, but for the campaigns in `todo`. */
  ghost predicate Swept(kind: Kind, state: map<Campaign, Hash>, a: Shelf, b: Shelf, todo: set<Campaign>, now: int) {
    && Forgotten(state, a.active, a.pending, todo, b.active, b.pending)
    && Revived(kind, a.queue, b.queue, AllWork(a.pending, StaleOf(state, a.active - todo, now)))
  }

  lemma SweptOne(kind: Kind, state: map<Campaign, Hash>, a: Shelf, b: Shelf, q: map<JobId, Job>,
                 todo: set<Campaign>, c: Campaign, now: int)
    requires Swept(kind, state, a, b, todo, now) && c in todo && todo <= a.active
    requires Revived(kind, b.queue, q, WorkIfStale(state, b.pending, c, now))
    ensures var known := Known(state, c);
      var b' := Shelf(if known then b.active else b.active - {c}, if known then b.pending else b.pending - {c}, q);
      Swept(kind, state, a, b', todo - {c}, now)
  {
    ForgetOne(state, a.active, a.pending, todo, c, b.active, b.pending);
    StaleOne(state, a.active, a.pending, todo, c, now);
    RevivedTwice(kind, a.queue, b.queue, q, AllWork(a.pending, StaleOf(state, a.active - todo, now)),
                 WorkIfStale(state, a.pending, c, now));
  }

  /** What the sweep is for: in every reachable state, for a campaign planned once under unshared
      job ids, a sweep ten minutes or more after the plan leaves each pending batch with a job that
      is waiting or active and carries the batch's recipients. */
  lemma SweepRecovers(kind: Kind, es: seq<Event>, k: nat, now: int, q: map<JobId, Job>, c: Campaign, i: nat)
    requires Valid(Init(kind), es) && k < |es| && es[k].Plan? && es[k].campaign == c && now >= es[k].now + 600_000
    requires var w := Exec(Init(kind), es);
      && PlannedOnce(w, c) && NoClash(w, c) && i in Pending(w, c)
      && Revived(w.kind, w.queue, q, AllWork(w.pending, StaleOf(w.state, w.active, now)))
    ensures var w := Exec(Init(kind), es);
      && i < |BatchesOf(w, c)| && IdOf(w, c, i) in q && Runnable(q[IdOf(w, c, i)])
      && q[IdOf(w, c, i)].data == Payload(c, i, BatchesOf(w, c)[i])
  {
    InitOk(kind);
    ExecNeverBlocks(Init(kind), es);
    var w := Exec(Init(kind), es);
    assert CampaignOk(w, c);
    PendingIsFound(w, c);
    CreatedWhenPlanned(Init(kind), es, c, k);
    RevivedIsLive(w, now, q, c, i);
  }

  /** And a sweep less than ten minutes after the plan adds and changes no job of the campaign. */
  lemma SweepSparesYoung(kind: Kind, es: seq<Event>, k: nat, now: int, q: map<JobId, Job>, c: Campaign, i: nat)
    requires Valid(Init(kind), es) && k < |es| && es[k].Plan? && es[k].campaign == c && now < es[k].now + 600_000
    requires var w := Exec(Init(kind), es);
      && PlannedOnce(w, c) && NoClash(w, c)
      && Revived(w.kind, w.queue, q, AllWork(w.pending, StaleOf(w.state, w.active, now)))
    ensures var w, id := Exec(Init(kind), es), IdOf(Exec(Init(kind), es), c, i);
      (id in q <==> id in w.queue) && (id in q ==> q[id] == w.queue[id])
  {
    InitOk(kind);
    ExecKeepsInv(Init(kind), es);
    var w := Exec(Init(kind), es);
    if c in w.state {
      CreatedWhenPlanned(Init(kind), es, c, k);
    }
    NotStaleIsSpared(w, now, q, c, i);
  }

  lemma NotStaleIsSpared(w: World, now: int, q: map<JobId, Job>, c: Campaign, i: nat)
    requires Inv(w) && NoClash(w, c) && !Stale(w.state, c, now)
    requires Revived(w.kind, w.queue, q, AllWork(w.pending, StaleOf(w.state, w.active, now)))
    ensures var id := IdOf(w, c, i);
      (id in q <==> id in w.queue) && (id in q ==> q[id] == w.queue[id])
  {
    var id, work := IdOf(w, c, i), AllWork(w.pending, StaleOf(w.state, w.active, now));
    forall d | d in work ensures IdFor(w.kind, d) != id {
      assert CampaignOk(w, d.campaign) && d.campaign != c;
      if IdFor(w.kind, d) == id {
        IdOwner(w, c, i, d.campaign, d.index);
        assert false;
      }
    }
  }

  lemma RevivedIsLive(w: World, now: int, q: map<JobId, Job>, c: Campaign, i: nat)
    requires RecoveryInv(w) && PlannedOnce(w, c) && NoClash(w, c) && i in Pending(w, c) && Stale(w.state, c, now)
    requires Revived(w.kind, w.queue, q, AllWork(w.pending, StaleOf(w.state, w.active, now)))
    ensures i < |BatchesOf(w, c)| && IdOf(w, c, i) in q && Runnable(q[IdOf(w, c, i)])
    ensures q[IdOf(w, c, i)].data == Payload(c, i, BatchesOf(w, c)[i])
  {
    assert CampaignOk(w, c) && NeverBlocked(w, c);
    assert !Blocked(w, c, i);
    PendingIsFound(w, c);
    var d, id := Payload(c, i, Pending(w, c)[i]), IdOf(w, c, i);
    var work := AllWork(w.pending, StaleOf(w.state, w.active, now));
    assert d in work && id == IdFor(w.kind, d);
    if id in w.queue {
      assert JobOk(w, id) && Names(w.kind, work, id);
      IdOwner(w, c, i, w.queue[id].data.campaign, w.queue[id].data.index);
    } else {
      var d' :| d' in work && id == IdFor(w.kind, d') && q[id] == Job(d', Waiting);
      assert Plans(w, d'.campaign) != [] by { assert CampaignOk(w, d'.campaign); }
      IdOwner(w, c, i, d'.campaign, d'.index);
    }
  }
}
