/** The broadcast fan-out protocol as a state machine.

    A planner writes a campaign's outbox (state hash, pending hash, membership of the
    active set) in one MULTI and enqueues one job per batch. Any number of executions of
    any batch job may be in flight at once; each sends to its recipients and then claims
    its batch with an atomic script. A sweep takes the campaigns of the active set and revives
    the pending batches of the stale ones whose job is gone or failed.

    Every event below is one atomic step, so a sequence of enabled events is one
    interleaving of planners, replays, executions, crashes and sweeps over all campaigns. */
module BroadcastProtocol {
  import opened Base
  import opened BroadcastIds

  /** Opaque ids; the text matters only for job ids. */
  datatype User = User(text: string)
  datatype Campaign = Campaign(text: string)
  datatype JobId = JobId(text: string)
  type Batches = seq<seq<User>>

  /** The campaign's state hash. A missing hash reads as `NO_HASH`. */
  datatype Hash = Hash(total: nat, remaining: int, sent: int, createdAt: Option<int>)
  const NO_HASH := Hash(0, 0, 0, None)

  datatype Payload = Payload(campaign: Campaign, index: nat, users: seq<User>)
  /** An active job is locked by one execution; a stalled one is handed to another, and then the
      first can no longer complete it. */
  datatype JobStatus = Waiting | Active(holder: nat) | Failed | Completed
  datatype Job = Job(data: Payload, status: JobStatus)

  /** Where an execution of a batch job stands. `Doomed`: some send threw, so the pool
      promise is rejected and the claim is never reached, but the other pool workers
      still send. */
  datatype Phase = Sending | Doomed | Claimed(remaining: int) | Audited | Finished

  /** One execution. `done`: recipient positions whose send has returned; `result`: the
      number that will be reported to the claim; `credited`: the recipients whose message
      this execution created and counted. */
  datatype Run = Run(jobId: JobId, data: Payload, phase: Phase,
                     done: set<nat>, result: nat, credited: set<User>)

  datatype Audit = Audit(recipientCount: nat, sent: int)

  /** What happened to a campaign so far (never read by the code): its planning
      transactions, its successful claims, the executions whose claim returned 0, the
      completion audits, the cleanups and the recipients folded into `sent`. */
  datatype History = History(plans: seq<Batches>, claims: nat, closers: seq<nat>,
                             audits: seq<Audit>, cleanups: nat, counted: set<User>)
  const NO_HISTORY := History([], 0, [], [], 0, {})

  datatype World = World(
    kind: Kind,
    state: map<Campaign, Hash>,
    pending: map<Campaign, map<nat, seq<User>>>,
    active: set<Campaign>,
    queue: map<JobId, Job>,
    runs: map<nat, Run>,
    inbox: set<(Campaign, User)>,     // (campaign, recipient) with a message; the client message id is unique
    served: set<(Campaign, User)>,    // has its message, or its account no longer exists (push: was attempted)
    planned: multiset<Payload>,       // batches a planner or replay has in hand, to be enqueued
    visiting: multiset<Payload>,      // pending batches a sweep has read, to be visited
    gone: set<Campaign>,              // a sweep has read these as having no state
    history: map<Campaign, History>)

  function Init(kind: Kind): World {
    World(kind, map[], map[], {}, map[], map[], {}, {}, multiset{}, multiset{}, {}, map[])
  }

  function StateOf(w: World, c: Campaign): Hash {
    if c in w.state then w.state[c] else NO_HASH
  }

  function Pending(w: World, c: Campaign): map<nat, seq<User>> {
    if c in w.pending then w.pending[c] else map[]
  }

  function HistoryOf(w: World, c: Campaign): History {
    if c in w.history then w.history[c] else NO_HISTORY
  }

  function Plans(w: World, c: Campaign): seq<Batches> {
    HistoryOf(w, c).plans
  }

  /** The job id of a batch. */
  function IdOf(w: World, c: Campaign, index: nat): JobId {
    JobId(BatchJobId(w.kind, c.text, index))
  }

  function Recipients(batches: Batches): seq<User> {
    if batches == [] then [] else batches[0] + Recipients(batches[1..])
  }

  // ---------------------------------------------------------------- Redis operations

  datatype Redis = Redis(state: map<Campaign, Hash>, pending: map<Campaign, map<nat, seq<User>>>,
                         active: set<Campaign>)

  function PendingOf(batches: Batches): map<nat, seq<User>> {
    map i: nat | i < |batches| :: batches[i]
  }

  /** The planning MULTI: both HSETs merge into whatever the key holds. */
  function PlanTx(r: Redis, c: Campaign, batches: Batches, now: int): Redis {
    var before := if c in r.pending then r.pending[c] else map[];
    Redis(r.state[c := Hash(|Recipients(batches)|, |batches|, 0, Some(now))],
          r.pending[c := before + PendingOf(batches)],
          r.active + {c})
  }

  /** CLAIM_BATCH_LUA: HDEL of the pending field decides; HINCRBY creates a missing hash. */
  function ClaimTx(r: Redis, c: Campaign, index: nat, sent: nat): (Redis, int) {
    if c in r.pending && index in r.pending[c] then
      var h := if c in r.state then r.state[c] else NO_HASH;
      var h' := h.(sent := h.sent + sent, remaining := h.remaining - 1);
      (r.(pending := r.pending[c := r.pending[c] - {index}], state := r.state[c := h']), h'.remaining)
    else
      (r, -1)
  }

  function CleanupTx(r: Redis, c: Campaign): Redis {
    Redis(r.state - {c}, r.pending - {c}, r.active - {c})
  }

  /** The sweep's reaction to a campaign without state. */
  function DropTx(r: Redis, c: Campaign): Redis {
    r.(pending := r.pending - {c}, active := r.active - {c})
  }

  function RedisOf(w: World): Redis {
    Redis(w.state, w.pending, w.active)
  }

  function WithRedis(w: World, r: Redis): World {
    w.(state := r.state, pending := r.pending, active := r.active)
  }

  // ---------------------------------------------------------------- queue operations

  /** A campaign younger than this is left to its own jobs. */
  const STALE_MS := 10 * 60_000

  predicate Stale(state: map<Campaign, Hash>, c: Campaign, now: int) {
    c in state && state[c].createdAt.Some? && now - state[c].createdAt.value >= STALE_MS
  }

  /** The batches of a pending hash as job payloads. */
  function Work(c: Campaign, batches: map<nat, seq<User>>): set<Payload> {
    set i | i in batches :: Payload(c, i, batches[i])
  }

  /** `Queue.add` with a custom id: ignored when the id is present, whatever its status. */
  function AddJob(queue: map<JobId, Job>, id: JobId, data: Payload): map<JobId, Job> {
    if id in queue then queue else queue[id := Job(data, Waiting)]
  }

  function SetStatus(queue: map<JobId, Job>, id: JobId, from: JobStatus, to: JobStatus): map<JobId, Job> {
    if id in queue && queue[id].status == from then queue[id := queue[id].(status := to)] else queue
  }

  /** `getJob`, then `retry` a failed job or add a missing one. */
  function Revive(queue: map<JobId, Job>, id: JobId, data: Payload): map<JobId, Job> {
    if id in queue then SetStatus(queue, id, Failed, Waiting) else AddJob(queue, id, data)
  }

  // ---------------------------------------------------------------- events

  /** How one recipient's send ends. `CreatedThenThrew`: the message row was committed but
      a later side effect failed. `NoUser`: the account is gone and the send is skipped. */
  datatype Outcome = Created | Duplicate | NoUser | CreatedThenThrew | Threw

  datatype Event =
    | Plan(campaign: Campaign, batches: Batches, now: int)
    | ReplayReads(campaign: Campaign)                  // a planner job that finds the campaign planned
    | Enqueue(batch: Payload)                          // by a planner or replay
    | StopsEnqueuing(batch: Payload)                   // it died
    | Start(id: JobId, run: nat)                       // also a stalled job handed out again
    | Send(run: nat, position: nat, outcome: Outcome)
    | Multicast(run: nat, successCount: nat)
    | Claim(run: nat)
    | LogAudit(run: nat)
    | Cleanup(run: nat)
    | Complete(run: nat)
    | Crash(run: nat)                                   // process death, or completion refused for a lost lock
    | FailJob(id: JobId, exhausted: bool)
    | LoseJob(id: JobId)                               // evicted, removed, or lost with Redis data
    | SweepSeesNoState(campaign: Campaign)             // of a campaign that was active when the sweep began
    | SweepDrops(campaign: Campaign)
    | SweepReads(campaign: Campaign, now: int)         // an active campaign that is stale
    | SweepVisits(batch: Payload)
    | SweepSkips(batch: Payload)                       // it died, or its retry was refused

  /** The processor returns after its cleanup, or after a claim that did not answer 0. */
  predicate ReadyToComplete(phase: Phase) {
    phase == Finished || (phase.Claimed? && phase != Claimed(0))
  }

  predicate Runnable(job: Job) {
    job.status.Waiting? || job.status.Active?
  }

  /** The execution has the lock of its job. */
  predicate Holds(w: World, r: nat)
    requires r in w.runs
  {
    w.runs[r].jobId in w.queue && w.queue[w.runs[r].jobId].status == Active(r)
  }

  predicate Enabled(w: World, e: Event) {
    match e
    case Plan(c, batches, now) => batches != [] && forall i :: 0 <= i < |batches| ==> batches[i] != []
    case ReplayReads(c) => c in w.state
    case Enqueue(d) => d in w.planned
    case StopsEnqueuing(d) => d in w.planned
    case Start(id, r) => id in w.queue && Runnable(w.queue[id]) && r !in w.runs
    case Send(r, k, o) =>
      && w.kind == Inbox && r in w.runs && w.runs[r].phase in {Sending, Doomed}
      && k < |w.runs[r].data.users| && k !in w.runs[r].done
      && var key := (w.runs[r].data.campaign, w.runs[r].data.users[k]);
         && (o.Created? || o.CreatedThenThrew? ==> key !in w.inbox)
         && (o.Duplicate? ==> key in w.inbox)
    case Multicast(r, n) =>
      && w.kind == Push && r in w.runs && w.runs[r].phase == Sending && w.runs[r].done == {}
      && n <= |w.runs[r].data.users|
    case Claim(r) =>
      r in w.runs && w.runs[r].phase == Sending && w.runs[r].done == Positions(w.runs[r].data.users)
    case LogAudit(r) => r in w.runs && w.runs[r].phase == Claimed(0)
    case Cleanup(r) => r in w.runs && w.runs[r].phase == Audited
    case Complete(r) => r in w.runs && Holds(w, r) && ReadyToComplete(w.runs[r].phase)
    case Crash(r) => r in w.runs
    case FailJob(id, exhausted) => id in w.queue && w.queue[id].status.Active?
    case LoseJob(id) => id in w.queue
    case SweepSeesNoState(c) => Plans(w, c) != [] && StateOf(w, c).createdAt.None?
    case SweepDrops(c) => c in w.gone
    case SweepReads(c, now) => c in w.active && Stale(w.state, c, now)
    case SweepVisits(d) => d in w.visiting
    case SweepSkips(d) => d in w.visiting
  }

  function Positions(users: seq<User>): (ps: set<nat>)
    ensures forall k: nat :: k in ps <==> k < |users|
    ensures |ps| == |users|
  {
    if users == [] then {} else Positions(users[..|users| - 1]) + {|users| - 1}
  }

  function Apply(w: World, e: Event): World
    requires Enabled(w, e)
  {
    match e
    case Plan(c, batches, now) => ApplyPlan(w, c, batches, now)
    case ReplayReads(c) => w.(planned := w.planned + multiset(Work(c, Pending(w, c))))
    case Enqueue(d) =>
      w.(queue := AddJob(w.queue, IdOf(w, d.campaign, d.index), d), planned := w.planned - multiset{d})
    case StopsEnqueuing(d) => w.(planned := w.planned - multiset{d})
    case Start(id, r) =>
      w.(queue := w.queue[id := w.queue[id].(status := Active(r))],
         runs := w.runs[r := Run(id, w.queue[id].data, Sending, {}, 0, {})])
    case Send(r, k, o) => ApplySend(w, r, k, o)
    case Multicast(r, n) =>
      var x := w.runs[r];
      w.(runs := w.runs[r := x.(done := Positions(x.data.users), result := n)],
         served := w.served + set u | u in x.data.users :: (x.data.campaign, u))
    case Claim(r) => ApplyClaim(w, r)
    case LogAudit(r) =>
      var x := w.runs[r];
      var c := x.data.campaign;
      var h := HistoryOf(w, c);
      var entry := Audit(StateOf(w, c).total, StateOf(w, c).sent);
      w.(runs := w.runs[r := x.(phase := Audited)],
         history := w.history[c := h.(audits := h.audits + [entry])])
    case Cleanup(r) =>
      var x := w.runs[r];
      var c := x.data.campaign;
      var h := HistoryOf(w, c);
      WithRedis(w, CleanupTx(RedisOf(w), c))
      .(runs := w.runs[r := x.(phase := Finished)],
        history := w.history[c := h.(cleanups := h.cleanups + 1)])
    case Complete(r) =>
      var id := w.runs[r].jobId;
      w.(runs := w.runs - {r}, queue := w.queue[id := w.queue[id].(status := Completed)])
    case Crash(r) => w.(runs := w.runs - {r})
    case FailJob(id, exhausted) =>
      w.(queue := w.queue[id := w.queue[id].(status := if exhausted then Failed else Waiting)])
    case LoseJob(id) => w.(queue := w.queue - {id})
    case SweepSeesNoState(c) => w.(gone := w.gone + {c})
    case SweepDrops(c) => WithRedis(w, DropTx(RedisOf(w), c))
    case SweepReads(c, now) => w.(visiting := w.visiting + multiset(Work(c, Pending(w, c))))
    case SweepVisits(d) =>
      w.(queue := Revive(w.queue, IdOf(w, d.campaign, d.index), d), visiting := w.visiting - multiset{d})
    case SweepSkips(d) => w.(visiting := w.visiting - multiset{d})
  }

  function ApplyPlan(w: World, c: Campaign, batches: Batches, now: int): World {
    var h := HistoryOf(w, c);
    WithRedis(w, PlanTx(RedisOf(w), c, batches, now))
    .(history := w.history[c := h.(plans := h.plans + [batches])],
      planned := w.planned + multiset(Work(c, PendingOf(batches))))
  }

  function ApplySend(w: World, r: nat, k: nat, o: Outcome): World
    requires Enabled(w, Send(r, k, o))
  {
    var x := w.runs[r];
    var u := x.data.users[k];
    var key := (x.data.campaign, u);
    match o
    case Created =>
      w.(runs := w.runs[r := x.(done := x.done + {k}, result := x.result + 1, credited := x.credited + {u})],
         inbox := w.inbox + {key}, served := w.served + {key})
    case Duplicate => w.(runs := w.runs[r := x.(done := x.done + {k})])
    case NoUser => w.(runs := w.runs[r := x.(done := x.done + {k})], served := w.served + {key})
    case CreatedThenThrew =>
      w.(runs := w.runs[r := x.(phase := Doomed)], inbox := w.inbox + {key}, served := w.served + {key})
    case Threw => w.(runs := w.runs[r := x.(phase := Doomed)])
  }

  function ApplyClaim(w: World, r: nat): World
    requires r in w.runs
  {
    var x := w.runs[r];
    var c := x.data.campaign;
    var (redis, remaining) := ClaimTx(RedisOf(w), c, x.data.index, x.result);
    var won := x.data.index in Pending(w, c);
    var h := HistoryOf(w, c);
    var h1 := if won then h.(claims := h.claims + 1, counted := h.counted + x.credited) else h;
    var h2 := if remaining == 0 then h1.(closers := h1.closers + [r]) else h1;
    WithRedis(w, redis)
    .(runs := w.runs[r := x.(phase := Claimed(remaining))], history := w.history[c := h2])
  }

  // ---------------------------------------------------------------- runs of the machine

  predicate Valid(w: World, es: seq<Event>)
    decreases |es|
  {
    es == [] || (Enabled(w, es[0]) && Valid(Apply(w, es[0]), es[1..]))
  }

  function Exec(w: World, es: seq<Event>): World
    requires Valid(w, es)
    decreases |es|
  {
    if es == [] then w else Exec(Apply(w, es[0]), es[1..])
  }

  lemma {:induction false} ExecAppend(w: World, es: seq<Event>, fs: seq<Event>)
    requires Valid(w, es) && Valid(Exec(w, es), fs)
    ensures Valid(w, es + fs) && Exec(w, es + fs) == Exec(Exec(w, es), fs)
    decreases |es|
  {
    if es == [] {
      assert es + fs == fs;
    } else {
      var all := es + fs;
      assert all[0] == es[0] && all[1..] == es[1..] + fs;
      ExecAppend(Apply(w, all[0]), es[1..], fs);
    }
  }

  /** A run is its last event after the rest. */
  lemma {:induction false} ExecSnoc(w: World, es: seq<Event>)
    requires Valid(w, es) && es != []
    ensures var before, e := es[..|es| - 1], es[|es| - 1];
      Valid(w, before) && Enabled(Exec(w, before), e) && Exec(w, es) == Apply(Exec(w, before), e)
    decreases |es|
  {
    var before, rest := es[..|es| - 1], es[1..];
    if rest == [] {
      assert before == [] && Exec(Apply(w, es[0]), rest) == Apply(w, es[0]);
    } else {
      ExecSnoc(Apply(w, es[0]), rest);
      assert before[0] == es[0] && before[1..] == rest[..|rest| - 1];
    }
  }
}
