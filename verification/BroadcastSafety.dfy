/** What every interleaving of the broadcast protocol keeps.

    The guarantees are per plan: they are stated for campaigns whose planning transaction
    has run once, whatever happens to the other campaigns. */
module BroadcastSafety {
  import opened Base
  import opened BroadcastIds
  import opened BroadcastProtocol

  predicate PlannedOnce(w: World, c: Campaign) {
    |Plans(w, c)| == 1
  }

  function BatchesOf(w: World, c: Campaign): Batches
    requires PlannedOnce(w, c)
  {
    Plans(w, c)[0]
  }

  /** Recipients in the first `n` batches that are still pending. */
  function PendingSize(b: Batches, p: map<nat, seq<User>>, n: nat): nat
    requires n <= |b|
  {
    if n == 0 then 0 else PendingSize(b, p, n - 1) + if n - 1 in p then |b[n - 1]| else 0
  }

  predicate AllServed(w: World, c: Campaign, users: seq<User>) {
    forall u :: u in users ==> (c, u) in w.served
  }

  // ---------------------------------------------------------------- the invariant

  predicate Untouched(w: World, c: Campaign) {
    && c !in w.state && c !in w.pending && c !in w.active && c !in w.gone
    && HistoryOf(w, c) == NO_HISTORY
  }

  /** The counters of a campaign's outbox agree with each other and with its history. */
  predicate OutboxOk(w: World, c: Campaign)
    requires PlannedOnce(w, c)
  {
    var b, p, h := BatchesOf(w, c), Pending(w, c), HistoryOf(w, c);
    && (forall i :: i in p ==> i < |b| && p[i] == b[i])
    && h.claims + |p| == |b|
    && (c in w.state ==>
          && w.state[c].createdAt.Some? && c in w.active
          && w.state[c].total == |Recipients(b)|
          && w.state[c].remaining == |p|
          && 0 <= w.state[c].sent
          && w.state[c].sent + PendingSize(b, p, |b|) <= w.state[c].total)
    && (c in w.state <==> h.cleanups == 0)
    && (|h.closers| == if p == map[] then 1 else 0)
    && h.cleanups <= |h.audits| <= |h.closers|
    && (c in w.gone ==> c !in w.state)
    && (forall a :: a in h.audits ==> a.recipientCount == |Recipients(b)| && 0 <= a.sent <= a.recipientCount)
  }

  /** Every planned recipient is served or in a batch that is still pending. */
  predicate DeliveryOk(w: World, c: Campaign)
    requires PlannedOnce(w, c)
  {
    var b, p := BatchesOf(w, c), Pending(w, c);
    forall i :: 0 <= i < |b| ==> i in p || AllServed(w, c, b[i])
  }

  predicate CampaignOk(w: World, c: Campaign) {
    && (Plans(w, c) == [] ==> Untouched(w, c))
    && (PlannedOnce(w, c) ==> OutboxOk(w, c) && DeliveryOk(w, c))
  }

  predicate PayloadOk(w: World, d: Payload) {
    && Plans(w, d.campaign) != []
    && (PlannedOnce(w, d.campaign) ==>
          d.index < |BatchesOf(w, d.campaign)| && d.users == BatchesOf(w, d.campaign)[d.index])
  }

  /** An execution works on its own batch, and what it has done is served. */
  predicate RunLocal(w: World, r: nat)
    requires r in w.runs
  {
    var x := w.runs[r];
    && PayloadOk(w, x.data)
    && x.jobId == IdOf(w, x.data.campaign, x.data.index)
    && x.done <= Positions(x.data.users)
    && (forall k :: k in x.done ==> (x.data.campaign, x.data.users[k]) in w.served)
    && x.result <= |x.done|
  }

  /** Past its claim the batch is no longer pending; the execution that got 0 is the only
      one, and its audit and cleanup are still to come. */
  predicate RunPhase(w: World, r: nat)
    requires r in w.runs
  {
    var x := w.runs[r];
    var c := x.data.campaign;
    PlannedOnce(w, c) ==>
      && (x.phase.Claimed? || x.phase.Audited? || x.phase.Finished? ==> x.data.index !in Pending(w, c))
      && (x.phase == Claimed(0) || x.phase.Audited? ==>
            HistoryOf(w, c).closers == [r] && HistoryOf(w, c).cleanups == 0)
      && (x.phase == Claimed(0) ==> HistoryOf(w, c).audits == [])
      && (x.phase.Audited? ==> HistoryOf(w, c).audits != [])
  }

  predicate RunOk(w: World, r: nat)
    requires r in w.runs
  {
    RunLocal(w, r) && RunPhase(w, r)
  }

  predicate JobOk(w: World, id: JobId)
    requires id in w.queue
  {
    var d := w.queue[id].data;
    PayloadOk(w, d) && id == IdOf(w, d.campaign, d.index)
  }

  ghost predicate Inv(w: World) {
    && (forall c: Campaign :: CampaignOk(w, c))
    && (forall r :: r in w.runs ==> RunOk(w, r))
    && (forall id :: id in w.queue ==> JobOk(w, id))
    && (forall d :: d in w.planned || d in w.visiting ==> PayloadOk(w, d))
    && w.inbox <= w.served
  }

  // ---------------------------------------------------------------- counting lemmas

  lemma {:induction false} RecipientsSnoc(b: Batches, users: seq<User>)
    ensures Recipients(b + [users]) == Recipients(b) + users
  {
    if b == [] {
      assert Recipients([users]) == users + Recipients([]);
    } else {
      RecipientsSnoc(b[1..], users);
      assert (b + [users])[1..] == b[1..] + [users];
    }
  }

  lemma {:induction false} AllPending(b: Batches, n: nat)
    requires n <= |b|
    ensures PendingSize(b, PendingOf(b), n) == |Recipients(b[..n])|
  {
    if n > 0 {
      AllPending(b, n - 1);
      assert b[..n] == b[..n - 1] + [b[n - 1]];
      RecipientsSnoc(b[..n - 1], b[n - 1]);
    }
  }

  lemma {:induction false} ClaimedOne(b: Batches, p: map<nat, seq<User>>, i: nat, n: nat)
    requires i < |b| && n <= |b| && i in p
    ensures PendingSize(b, p, n) == PendingSize(b, p - {i}, n) + if i < n then |b[i]| else 0
  {
    if n > 0 {
      ClaimedOne(b, p, i, n - 1);
    }
  }

  lemma {:induction false} PendingOfSize(b: Batches)
    ensures |PendingOf(b)| == |b|
    decreases |b|
  {
    if b != [] {
      var b0 := b[..|b| - 1];
      PendingOfSize(b0);
      assert PendingOf(b) == PendingOf(b0)[|b| - 1 := b[|b| - 1]];
    }
  }

  lemma FullOutbox(b: Batches)
    requires b != []
    ensures |PendingOf(b)| == |b| && PendingOf(b) != map[]
    ensures PendingSize(b, PendingOf(b), |b|) == |Recipients(b)|
  {
    PendingOfSize(b);
    AllPending(b, |b|);
    assert b[..|b|] == b;
    assert 0 in PendingOf(b);
  }

  // ---------------------------------------------------------------- one step

  lemma InitOk(kind: Kind)
    ensures Inv(Init(kind))
  {
  }

  lemma SendFrame(w: World, r: nat, k: nat, o: Outcome)
    requires Enabled(w, Send(r, k, o))
    ensures var w' := ApplySend(w, r, k, o);
      && w' == w.(runs := w'.runs, inbox := w'.inbox, served := w'.served)
      && w.served <= w'.served && w.inbox <= w'.inbox && (w.inbox <= w.served ==> w'.inbox <= w'.served)
      && r in w'.runs && w'.runs[r].phase in {Sending, Doomed}
      && w'.runs == w.runs[r := w'.runs[r]]
      && w'.runs[r].data == w.runs[r].data && w'.runs[r].jobId == w.runs[r].jobId
  {
  }

  /** Plans only accumulate, and only the planning transaction adds one. */
  lemma PlansGrow(w: World, e: Event, c: Campaign)
    requires Enabled(w, e)
    ensures Plans(Apply(w, e), c) ==
            if e.Plan? && e.campaign == c then Plans(w, c) + [e.batches] else Plans(w, c)
  {
    if e.Send? {
      SendFrame(w, e.run, e.position, e.outcome);
    }
  }

  lemma FreshOutboxOk(w: World, c: Campaign, b: Batches, now: int)
    requires b != [] && HistoryOf(w, c) == NO_HISTORY.(plans := [b]) && Pending(w, c) == PendingOf(b)
    requires c in w.state && w.state[c] == Hash(|Recipients(b)|, |b|, 0, Some(now)) && c in w.active && c !in w.gone
    ensures PlannedOnce(w, c) && BatchesOf(w, c) == b && OutboxOk(w, c)
  {
    FullOutbox(b);
  }

  lemma PlanKeepsOutbox(w: World, c: Campaign, batches: Batches, now: int)
    requires Untouched(w, c) && batches != []
    ensures var w' := ApplyPlan(w, c, batches, now);
      PlannedOnce(w', c) && BatchesOf(w', c) == batches && Pending(w', c) == PendingOf(batches) && OutboxOk(w', c)
  {
    var w' := ApplyPlan(w, c, batches, now);
    assert HistoryOf(w', c) == NO_HISTORY.(plans := [batches]);
    assert Pending(w', c) == PendingOf(batches);
    FreshOutboxOk(w', c, batches, now);
  }

  lemma PlanStep(w: World, c: Campaign, batches: Batches, now: int)
    requires CampaignOk(w, c) && batches != []
    ensures CampaignOk(ApplyPlan(w, c, batches, now), c)
  {
    var w' := ApplyPlan(w, c, batches, now);
    assert Plans(w', c) == Plans(w, c) + [batches];
    if PlannedOnce(w', c) {
      PlanKeepsOutbox(w, c, batches, now);
    }
  }

  lemma ClaimKeepsOutbox(w: World, r: nat)
    requires Enabled(w, Claim(r)) && RunOk(w, r) && CampaignOk(w, w.runs[r].data.campaign)
    requires PlannedOnce(w, w.runs[r].data.campaign)
    ensures var w', c := ApplyClaim(w, r), w.runs[r].data.campaign;
      PlannedOnce(w', c) && OutboxOk(w', c)
  {
    var w' := ApplyClaim(w, r);
    var x := w.runs[r];
    var c, i := x.data.campaign, x.data.index;
    var b, p, p' := BatchesOf(w, c), Pending(w, c), Pending(w', c);
    assert BatchesOf(w', c) == b;
    if i in p {
      assert p' == p - {i};
      assert |p'| == |p| - 1 by { assert p'.Keys == p.Keys - {i}; }
      ClaimedOne(b, p, i, |b|);
      assert x.result <= |x.data.users|;
    } else {
      assert p' == p;
    }
  }

  /** An execution that reaches its claim has served its whole batch. */
  lemma ReadyToClaim(w: World, r: nat)
    requires Enabled(w, Claim(r)) && RunOk(w, r)
    ensures AllServed(w, w.runs[r].data.campaign, w.runs[r].data.users)
  {
    var x := w.runs[r];
    forall u | u in x.data.users ensures (x.data.campaign, u) in w.served {
      var k: nat :| k < |x.data.users| && x.data.users[k] == u;
      assert k in x.done;
    }
  }

  lemma ClaimKeepsDelivery(w: World, r: nat)
    requires Enabled(w, Claim(r)) && RunOk(w, r)
    requires PlannedOnce(w, w.runs[r].data.campaign) && DeliveryOk(w, w.runs[r].data.campaign)
    ensures var w', c := ApplyClaim(w, r), w.runs[r].data.campaign;
      PlannedOnce(w', c) && DeliveryOk(w', c)
  {
    ReadyToClaim(w, r);
    var w', x := ApplyClaim(w, r), w.runs[r];
    var c := x.data.campaign;
    var b, p, p' := BatchesOf(w, c), Pending(w, c), Pending(w', c);
    assert BatchesOf(w', c) == b && w'.served == w.served;
    assert p' == p - {x.data.index};
    forall j | 0 <= j < |b| ensures j in p' || AllServed(w', c, b[j]) {
      assert j in p || AllServed(w, c, b[j]);
    }
  }

  /** A campaign's view of the world is unchanged, except that more recipients may be served. */
  predicate SameCampaign(w: World, w': World, c: Campaign) {
    && StateOf(w, c) == StateOf(w', c) && (c in w.state <==> c in w'.state)
    && Pending(w, c) == Pending(w', c) && (c in w'.pending ==> c in w.pending)
    && (c in w'.active <==> c in w.active)
    && (c in w'.gone ==> c in w.gone)
    && HistoryOf(w, c) == HistoryOf(w', c)
    && w.served <= w'.served
  }

  lemma SameCampaignOk(w: World, w': World, c: Campaign)
    requires CampaignOk(w, c) && SameCampaign(w, w', c)
    ensures CampaignOk(w', c)
  {
    if PlannedOnce(w, c) {
      var b, p := BatchesOf(w, c), Pending(w, c);
      forall i | 0 <= i < |b| ensures i in p || AllServed(w', c, b[i]) {
        assert i in p || AllServed(w, c, b[i]);
      }
    }
  }

  lemma CloseStep(w: World, e: Event)
    requires e.LogAudit? || e.Cleanup?
    requires Enabled(w, e) && RunOk(w, e.run) && CampaignOk(w, w.runs[e.run].data.campaign)
    ensures CampaignOk(Apply(w, e), w.runs[e.run].data.campaign)
  {
    var w', c := Apply(w, e), w.runs[e.run].data.campaign;
    assert Plans(w', c) == Plans(w, c);
    if PlannedOnce(w, c) {
      var b, p := BatchesOf(w, c), Pending(w, c);
      assert PendingSize(b, p, |b|) >= 0;
      assert Pending(w', c) == p == map[];
      forall i | 0 <= i < |b| ensures AllServed(w', c, b[i]) {
        assert i in p || AllServed(w, c, b[i]);
      }
    }
  }

  lemma SweepStep(w: World, e: Event)
    requires e.SweepSeesNoState? || e.SweepDrops?
    requires Enabled(w, e) && CampaignOk(w, e.campaign)
    ensures CampaignOk(Apply(w, e), e.campaign)
  {
    var w', c := Apply(w, e), e.campaign;
    assert Plans(w', c) == Plans(w, c);
    if PlannedOnce(w, c) {
      var b, p := BatchesOf(w, c), Pending(w, c);
      assert e.SweepDrops? ==> p == map[];
      assert Pending(w', c) == p;
      forall i | 0 <= i < |b| ensures i in p || AllServed(w', c, b[i]) {
        assert i in p || AllServed(w, c, b[i]);
      }
    }
  }

  /** The campaign whose Redis keys or history an event writes, if any. */
  function Target(w: World, e: Event): Option<Campaign>
    requires Enabled(w, e)
  {
    match e
    case Plan(c, _, _) => Some(c)
    case Claim(r) => Some(w.runs[r].data.campaign)
    case LogAudit(r) => Some(w.runs[r].data.campaign)
    case Cleanup(r) => Some(w.runs[r].data.campaign)
    case SweepSeesNoState(c) => Some(c)
    case SweepDrops(c) => Some(c)
    case _ => None
  }

  /** Events without a target leave Redis and every history alone. */
  lemma NoTargetFrame(w: World, e: Event)
    requires Enabled(w, e) && Target(w, e) == None
    ensures var w' := Apply(w, e);
      && RedisOf(w') == RedisOf(w) && w'.gone == w.gone && w'.history == w.history && w.served <= w'.served
  {
    if e.Send? {
      SendFrame(w, e.run, e.position, e.outcome);
    }
  }

  lemma ClosingFrame(w: World, e: Event, c: Campaign)
    requires Enabled(w, e) && Target(w, e).Some? && Target(w, e) != Some(c)
    requires e.LogAudit? || e.Cleanup? || e.SweepSeesNoState? || e.SweepDrops?
    ensures SameCampaign(w, Apply(w, e), c)
  {
  }

  lemma StepFrame(w: World, e: Event, c: Campaign)
    requires Enabled(w, e) && Target(w, e) != Some(c)
    ensures SameCampaign(w, Apply(w, e), c)
  {
    if Target(w, e) == None {
      NoTargetFrame(w, e);
      var w' := Apply(w, e);
      assert w'.state == w.state && w'.pending == w.pending && w'.active == w.active;
    } else if e.Plan? || e.Claim? {
      assert e.Claim? ==> Apply(w, e) == ApplyClaim(w, e.run);
    } else {
      ClosingFrame(w, e, c);
    }
  }

  lemma StepKeepsCampaign(w: World, e: Event, c: Campaign)
    requires CampaignOk(w, c) && Enabled(w, e)
    requires forall r :: r in w.runs ==> RunOk(w, r)
    ensures CampaignOk(Apply(w, e), c)
  {
    if Target(w, e) != Some(c) {
      StepFrame(w, e, c);
      SameCampaignOk(w, Apply(w, e), c);
    } else {
      match e
      case Plan(_, batches, now) => PlanStep(w, c, batches, now);
      case Claim(r) =>
        assert RunOk(w, r);
        PlansGrow(w, e, c);
        if PlannedOnce(w, c) {
          ClaimKeepsOutbox(w, r);
          ClaimKeepsDelivery(w, r);
        }
      case LogAudit(r) => assert RunOk(w, r); CloseStep(w, e);
      case Cleanup(r) => assert RunOk(w, r); CloseStep(w, e);
      case SweepSeesNoState(_) => SweepStep(w, e);
      case SweepDrops(_) => SweepStep(w, e);
    }
  }

  lemma StepKeepsPayload(w: World, e: Event, d: Payload)
    requires Enabled(w, e) && PayloadOk(w, d)
    ensures PayloadOk(Apply(w, e), d)
  {
    PlansGrow(w, e, d.campaign);
  }

  /** Only planning a campaign puts fields into its pending hash. */
  lemma PendingOnlyShrinks(w: World, e: Event, c: Campaign)
    requires Enabled(w, e) && !(e.Plan? && e.campaign == c)
    ensures forall i :: i in Pending(Apply(w, e), c) ==>
      i in Pending(w, c) && Pending(Apply(w, e), c)[i] == Pending(w, c)[i]
  {
    if Target(w, e) != Some(c) {
      StepFrame(w, e, c);
    }
  }

  lemma PendingShrinks(w: World, e: Event, c: Campaign)
    requires Enabled(w, e) && Plans(w, c) != [] && PlannedOnce(Apply(w, e), c)
    ensures PlannedOnce(w, c) && Pending(Apply(w, e), c).Keys <= Pending(w, c).Keys
  {
    PlansGrow(w, e, c);
    PendingOnlyShrinks(w, e, c);
  }

  /** Once a claim of a campaign has returned 0, only the execution that got it moves the
      campaign on. */
  lemma CloserIsAlone(w: World, e: Event, r: nat)
    requires Enabled(w, e) && r in w.runs && RunOk(w, r)
    requires forall r' :: r' in w.runs ==> RunOk(w, r')
    requires CampaignOk(w, w.runs[r].data.campaign) && PlannedOnce(Apply(w, e), w.runs[r].data.campaign)
    requires w.runs[r].phase == Claimed(0) || w.runs[r].phase.Audited?
    requires !((e.LogAudit? || e.Cleanup?) && e.run == r)
    ensures HistoryOf(Apply(w, e), w.runs[r].data.campaign) == HistoryOf(w, w.runs[r].data.campaign)
  {
    var c := w.runs[r].data.campaign;
    PlansGrow(w, e, c);
    if Target(w, e) != Some(c) {
      StepFrame(w, e, c);
    } else if e.LogAudit? || e.Cleanup? {
      assert false;
    } else if e.Claim? {
      assert Pending(w, c) == map[];
    }
  }

  lemma OtherRunPhase(w: World, e: Event, r: nat)
    requires Enabled(w, e) && r in w.runs && r in Apply(w, e).runs
    requires forall r' :: r' in w.runs ==> RunOk(w, r')
    requires CampaignOk(w, w.runs[r].data.campaign)
    requires Apply(w, e).runs[r] == w.runs[r]
    requires !((e.LogAudit? || e.Cleanup?) && e.run == r)
    ensures RunPhase(Apply(w, e), r)
  {
    var x := w.runs[r];
    var c := x.data.campaign;
    assert RunOk(w, r);
    if PlannedOnce(Apply(w, e), c) {
      PendingShrinks(w, e, c);
      if x.phase == Claimed(0) || x.phase.Audited? {
        CloserIsAlone(w, e, r);
      }
    }
  }

  lemma OtherRunLocal(w: World, e: Event, r: nat)
    requires Enabled(w, e) && r in w.runs && r in Apply(w, e).runs
    requires RunLocal(w, r) && Apply(w, e).runs[r] == w.runs[r]
    ensures RunLocal(Apply(w, e), r)
  {
    StepKeepsPayload(w, e, w.runs[r].data);
    ServedGrows(w, e);
  }

  lemma ServedGrows(w: World, e: Event)
    requires Enabled(w, e)
    ensures w.served <= Apply(w, e).served && Apply(w, e).kind == w.kind
  {
    if e.Send? {
      SendFrame(w, e.run, e.position, e.outcome);
    }
  }

  lemma OwnSend(w: World, r: nat, k: nat, o: Outcome)
    requires Enabled(w, Send(r, k, o)) && RunOk(w, r) && w.inbox <= w.served
    ensures RunOk(ApplySend(w, r, k, o), r)
  {
    var w', x, x' := ApplySend(w, r, k, o), w.runs[r], ApplySend(w, r, k, o).runs[r];
    assert w'.history == w.history && w'.pending == w.pending;
    assert x'.data == x.data && x'.jobId == x.jobId;
    if k in x'.done {
      assert x'.done == x.done + {k};
    }
  }

  lemma OwnMulticast(w: World, r: nat, n: nat)
    requires Enabled(w, Multicast(r, n)) && RunOk(w, r)
    ensures RunOk(Apply(w, Multicast(r, n)), r)
  {
  }

  lemma OwnClaim(w: World, r: nat)
    requires Enabled(w, Claim(r)) && RunOk(w, r) && CampaignOk(w, w.runs[r].data.campaign)
    ensures RunOk(ApplyClaim(w, r), r)
  {
    var w', x := ApplyClaim(w, r), w.runs[r];
    var c := x.data.campaign;
    assert Plans(w', c) == Plans(w, c) && w'.served == w.served;
    if PlannedOnce(w, c) {
      ClaimKeepsOutbox(w, r);
    }
  }

  lemma OwnClose(w: World, e: Event)
    requires e.LogAudit? || e.Cleanup?
    requires Enabled(w, e) && RunOk(w, e.run)
    ensures RunOk(Apply(w, e), e.run)
  {
  }

  /** The execution an event starts or advances, if any. */
  function Subject(e: Event): Option<nat> {
    match e
    case Start(_, r) => Some(r)
    case Send(r, _, _) => Some(r)
    case Multicast(r, _) => Some(r)
    case Claim(r) => Some(r)
    case LogAudit(r) => Some(r)
    case Cleanup(r) => Some(r)
    case _ => None
  }

  lemma RunFrame(w: World, e: Event, r: nat)
    requires Enabled(w, e) && r in Apply(w, e).runs && Subject(e) != Some(r)
    ensures r in w.runs && Apply(w, e).runs[r] == w.runs[r]
  {
    if e.Complete? || e.Crash? {
      assert Apply(w, e).runs == w.runs - {e.run};
    } else if e.Send? {
      SendFrame(w, e.run, e.position, e.outcome);
    }
  }

  lemma SubjectRun(w: World, e: Event, r: nat)
    requires Enabled(w, e) && Subject(e) == Some(r) && w.inbox <= w.served
    requires r in w.runs ==> RunOk(w, r) && CampaignOk(w, w.runs[r].data.campaign)
    requires e.Start? ==> JobOk(w, e.id)
    ensures r in Apply(w, e).runs && RunOk(Apply(w, e), r)
  {
    match e
    case Start(id, _) => StartedRun(w, id, r);
    case Send(_, k, o) => OwnSend(w, r, k, o);
    case Multicast(_, n) => OwnMulticast(w, r, n);
    case Claim(_) => OwnClaim(w, r);
    case LogAudit(_) => OwnClose(w, e);
    case Cleanup(_) => OwnClose(w, e);
  }

  lemma StartedRun(w: World, id: JobId, r: nat)
    requires Enabled(w, Start(id, r)) && JobOk(w, id)
    ensures RunOk(Apply(w, Start(id, r)), r)
  {
  }

  lemma StepKeepsRun(w: World, e: Event, r: nat)
    requires Inv(w) && Enabled(w, e) && r in Apply(w, e).runs
    ensures RunOk(Apply(w, e), r)
  {
    if Subject(e) == Some(r) {
      SubjectRun(w, e, r);
    } else {
      RunFrame(w, e, r);
      OtherRunLocal(w, e, r);
      OtherRunPhase(w, e, r);
    }
  }

  /** The events that touch the queue. */
  predicate Queueing(e: Event) {
    e.Enqueue? || e.Start? || e.Complete? || e.FailJob? || e.LoseJob? || e.SweepVisits?
  }

  lemma QueueFrame(w: World, e: Event)
    requires Enabled(w, e) && !Queueing(e)
    ensures Apply(w, e).queue == w.queue
  {
    if e.Send? {
      SendFrame(w, e.run, e.position, e.outcome);
    } else if e.Claim? {
      assert Apply(w, e) == ApplyClaim(w, e.run);
    }
  }

  /** Jobs keep their payload; a new job is a batch somebody had in hand. */
  lemma JobKeepsData(w: World, e: Event, id: JobId)
    requires Enabled(w, e) && id in Apply(w, e).queue
    ensures id in w.queue ==> Apply(w, e).queue[id].data == w.queue[id].data
    ensures id !in w.queue ==>
      && (e.Enqueue? || e.SweepVisits?) && (e.batch in w.planned || e.batch in w.visiting)
      && id == IdOf(w, e.batch.campaign, e.batch.index) && Apply(w, e).queue[id] == Job(e.batch, Waiting)
  {
    if !Queueing(e) {
      QueueFrame(w, e);
    }
  }

  lemma StepKeepsJob(w: World, e: Event, id: JobId)
    requires Enabled(w, e) && id in Apply(w, e).queue
    requires id in w.queue ==> JobOk(w, id)
    requires forall d :: d in w.planned || d in w.visiting ==> PayloadOk(w, d)
    ensures JobOk(Apply(w, e), id)
  {
    JobKeepsData(w, e, id);
    ServedGrows(w, e);
    StepKeepsPayload(w, e, Apply(w, e).queue[id].data);
  }

  /** What a planner, replay or sweep takes in hand: batches being planned, or still pending. */
  lemma TakenInHand(w: World, e: Event, d: Payload)
    requires Enabled(w, e) && (d in Apply(w, e).planned || d in Apply(w, e).visiting)
    ensures || d in w.planned || d in w.visiting
            || (e.Plan? && d in Work(e.campaign, PendingOf(e.batches)))
            || ((e.ReplayReads? || e.SweepReads?) && d in Work(e.campaign, Pending(w, e.campaign)))
  {
    if e.Send? {
      SendFrame(w, e.run, e.position, e.outcome);
    }
  }

  lemma StepKeepsHands(w: World, e: Event, d: Payload)
    requires Enabled(w, e) && (d in Apply(w, e).planned || d in Apply(w, e).visiting)
    requires CampaignOk(w, d.campaign)
    requires d in w.planned || d in w.visiting ==> PayloadOk(w, d)
    ensures PayloadOk(Apply(w, e), d)
  {
    TakenInHand(w, e, d);
    PlansGrow(w, e, d.campaign);
  }

  lemma StepKeepsInv(w: World, e: Event)
    requires Inv(w) && Enabled(w, e)
    ensures Inv(Apply(w, e))
  {
    forall c: Campaign ensures CampaignOk(Apply(w, e), c) {
      StepKeepsCampaign(w, e, c);
    }
    forall r | r in Apply(w, e).runs ensures RunOk(Apply(w, e), r) {
      StepKeepsRun(w, e, r);
    }
    forall id | id in Apply(w, e).queue ensures JobOk(Apply(w, e), id) {
      StepKeepsJob(w, e, id);
    }
    forall d | d in Apply(w, e).planned || d in Apply(w, e).visiting ensures PayloadOk(Apply(w, e), d) {
      assert CampaignOk(w, d.campaign);
      StepKeepsHands(w, e, d);
    }
    InboxServed(w, e);
  }

  lemma InboxServed(w: World, e: Event)
    requires Enabled(w, e) && w.inbox <= w.served
    ensures Apply(w, e).inbox <= Apply(w, e).served
  {
    if e.Send? {
      SendFrame(w, e.run, e.position, e.outcome);
    }
  }

  // ---------------------------------------------------------------- every run

  lemma {:induction false} ExecKeepsInv(w: World, es: seq<Event>)
    requires Inv(w) && Valid(w, es)
    ensures Inv(Exec(w, es))
    decreases |es|
  {
    if es != [] {
      StepKeepsInv(w, es[0]);
      ExecKeepsInv(Apply(w, es[0]), es[1..]);
    }
  }

  lemma {:induction false} RecipientsMember(b: Batches, u: User)
    ensures u in Recipients(b) <==> exists i :: 0 <= i < |b| && u in b[i]
  {
    if b != [] {
      RecipientsMember(b[1..], u);
      if i :| 0 <= i < |b| && u in b[i] && i > 0 {
        assert b[1..][i - 1] == b[i];
      }
      if i :| 0 <= i < |b[1..]| && u in b[1..][i] {
        assert b[i + 1] == b[1..][i];
      }
    }
  }

  /** In every interleaving each planned recipient is served or in a batch still pending. */
  lemma ServedOrPending(kind: Kind, es: seq<Event>, c: Campaign, u: User)
    requires Valid(Init(kind), es)
    requires PlannedOnce(Exec(Init(kind), es), c)
    requires u in Recipients(BatchesOf(Exec(Init(kind), es), c))
    ensures var w := Exec(Init(kind), es);
      (c, u) in w.served || exists i :: i in Pending(w, c) && u in Pending(w, c)[i]
  {
    InitOk(kind);
    ExecKeepsInv(Init(kind), es);
    var w := Exec(Init(kind), es);
    assert CampaignOk(w, c);
    var b := BatchesOf(w, c);
    RecipientsMember(b, u);
    var i :| 0 <= i < |b| && u in b[i];
    assert i in Pending(w, c) || AllServed(w, c, b[i]);
  }

  lemma NothingPending(w: World, c: Campaign)
    requires CampaignOk(w, c) && PlannedOnce(w, c) && Pending(w, c) == map[]
    ensures AllServed(w, c, Recipients(BatchesOf(w, c)))
  {
    var b := BatchesOf(w, c);
    forall u | u in Recipients(b) ensures (c, u) in w.served {
      RecipientsMember(b, u);
      var i :| 0 <= i < |b| && u in b[i];
      assert AllServed(w, c, b[i]);
    }
  }

  /** When a claim returns 0 every recipient of the plan has been served. */
  lemma ZeroMeansAllServed(kind: Kind, es: seq<Event>, r: nat)
    requires Valid(Init(kind), es) && Enabled(Exec(Init(kind), es), Claim(r))
    requires var w := Exec(Init(kind), es);
      && PlannedOnce(w, w.runs[r].data.campaign)
      && Apply(w, Claim(r)).runs[r].phase == Claimed(0)
    ensures var w := Exec(Init(kind), es);
      AllServed(w, w.runs[r].data.campaign, Recipients(BatchesOf(w, w.runs[r].data.campaign)))
  {
    InitOk(kind);
    ExecKeepsInv(Init(kind), es);
    var w := Exec(Init(kind), es);
    var c := w.runs[r].data.campaign;
    StepKeepsInv(w, Claim(r));
    var w' := Apply(w, Claim(r));
    PlansGrow(w, Claim(r), c);
    assert CampaignOk(w', c) && RunOk(w', r) && w'.served == w.served;
    NothingPending(w', c);
  }

  /** The counters of a plan in every reachable state: `remaining` is the number of pending
      batches, successful claims and pending batches add up to the plan, `sent` and the
      pending recipients stay within `total`; at most one claim ever returned 0, so at most
      one completion audit was logged and at most one cleanup ran. */
  lemma CountersAgree(kind: Kind, es: seq<Event>, c: Campaign)
    requires Valid(Init(kind), es) && PlannedOnce(Exec(Init(kind), es), c)
    ensures var w := Exec(Init(kind), es);
      var b, p, h := BatchesOf(w, c), Pending(w, c), HistoryOf(w, c);
      && (c in w.state ==>
            && w.state[c].remaining == |p|
            && w.state[c].total == |Recipients(b)|
            && w.state[c].sent + PendingSize(b, p, |b|) <= w.state[c].total)
      && (c !in w.state ==> p == map[])
      && h.claims + |p| == |b|
      && |h.closers| <= 1 && |h.audits| <= 1 && h.cleanups <= 1
      && (h.closers != [] <==> p == map[])
      && (forall a :: a in h.audits ==> a.recipientCount == |Recipients(b)| && a.sent <= a.recipientCount)
  {
    InitOk(kind);
    ExecKeepsInv(Init(kind), es);
    assert CampaignOk(Exec(Init(kind), es), c);
  }

  /** Claiming a batch a second time returns -1 and changes nothing. */
  lemma SecondClaimIsRefused(r: Redis, c: Campaign, i: nat, n: nat, m: nat)
    ensures var once := ClaimTx(r, c, i, n).0;
      ClaimTx(once, c, i, m) == (once, -1)
  {
  }

  // ---------------------------------------------------------------- where batches come from

  predicate InPlan(b: Batches, d: Payload) {
    d.index < |b| && b[d.index] == d.users
  }

  predicate FromPlan(w: World, d: Payload) {
    exists p: nat :: p < |Plans(w, d.campaign)| && InPlan(Plans(w, d.campaign)[p], d)
  }

  /** However often a campaign is planned: what is queued, in hand, executed or pending is a batch
      of one of its plans; a campaign in the active set has been planned; a pending hash has its
      state hash and its membership of the active set; an execution that holds its job carries
      the job's payload. */
  ghost predicate Sourced(w: World) {
    && (forall id :: id in w.queue ==> FromPlan(w, w.queue[id].data))
    && (forall r :: r in w.runs ==> FromPlan(w, w.runs[r].data) && (Holds(w, r) ==> RunsItsJob(w, r)))
    && (forall d :: d in w.planned || d in w.visiting ==> FromPlan(w, d))
    && (forall c: Campaign, i: nat :: i in Pending(w, c) ==> FromPlan(w, Payload(c, i, Pending(w, c)[i])))
    && (forall c: Campaign :: Findable(w, c))
  }

  predicate RunsItsJob(w: World, r: nat)
    requires r in w.runs
  {
    w.runs[r].jobId in w.queue && w.runs[r].data == w.queue[w.runs[r].jobId].data
  }

  predicate Findable(w: World, c: Campaign) {
    && (c in w.active ==> Plans(w, c) != [])
    && (c in w.pending ==> c in w.active && c in w.state && w.state[c].createdAt.Some?)
  }

  lemma FromPlanGrows(w: World, e: Event, d: Payload)
    requires Enabled(w, e) && FromPlan(w, d)
    ensures FromPlan(Apply(w, e), d)
  {
    PlansGrow(w, e, d.campaign);
    var p: nat :| p < |Plans(w, d.campaign)| && InPlan(Plans(w, d.campaign)[p], d);
    assert InPlan(Plans(Apply(w, e), d.campaign)[p], d);
  }

  lemma RunKeepsData(w: World, e: Event, r: nat)
    requires Enabled(w, e) && r in Apply(w, e).runs
    ensures r in w.runs ==>
      Apply(w, e).runs[r].data == w.runs[r].data && Apply(w, e).runs[r].jobId == w.runs[r].jobId
    ensures r !in w.runs ==> e.Start? && e.run == r && Apply(w, e).runs[r].data == w.queue[e.id].data
  {
    if Subject(e) != Some(r) {
      RunFrame(w, e, r);
    } else if e.Send? {
      SendFrame(w, r, e.position, e.outcome);
    }
  }

  lemma StepSourcesJob(w: World, e: Event, id: JobId)
    requires Sourced(w) && Enabled(w, e) && id in Apply(w, e).queue
    ensures FromPlan(Apply(w, e), Apply(w, e).queue[id].data)
  {
    JobKeepsData(w, e, id);
    FromPlanGrows(w, e, Apply(w, e).queue[id].data);
  }

  /** A job gets a holder only when an execution of it starts. */
  lemma HolderStarts(w: World, e: Event, r: nat)
    requires Enabled(w, e) && r in Apply(w, e).runs && Holds(Apply(w, e), r)
    ensures e == Start(Apply(w, e).runs[r].jobId, r)
      || (r in w.runs && Holds(w, r) && Apply(w, e).runs[r].jobId == w.runs[r].jobId)
  {
    RunKeepsData(w, e, r);
    if !Queueing(e) {
      QueueFrame(w, e);
    }
  }

  lemma StepSourcesRun(w: World, e: Event, r: nat)
    requires Sourced(w) && Enabled(w, e) && r in Apply(w, e).runs
    ensures FromPlan(Apply(w, e), Apply(w, e).runs[r].data)
    ensures Holds(Apply(w, e), r) ==> RunsItsJob(Apply(w, e), r)
  {
    RunKeepsData(w, e, r);
    FromPlanGrows(w, e, Apply(w, e).runs[r].data);
    if Holds(Apply(w, e), r) {
      HolderStarts(w, e, r);
      JobKeepsData(w, e, Apply(w, e).runs[r].jobId);
    }
  }

  lemma StepSourcesHands(w: World, e: Event, d: Payload)
    requires Sourced(w) && Enabled(w, e) && (d in Apply(w, e).planned || d in Apply(w, e).visiting)
    ensures FromPlan(Apply(w, e), d)
  {
    TakenInHand(w, e, d);
    if e.Plan? && d in Work(e.campaign, PendingOf(e.batches)) {
      PlansGrow(w, e, d.campaign);
      assert InPlan(Plans(Apply(w, e), d.campaign)[|Plans(w, d.campaign)|], d);
    } else {
      FromPlanGrows(w, e, d);
    }
  }

  lemma StepFindable(w: World, e: Event, c: Campaign)
    requires Enabled(w, e) && Findable(w, c)
    ensures Findable(Apply(w, e), c)
  {
    PlansGrow(w, e, c);
    if Target(w, e) != Some(c) {
      StepFrame(w, e, c);
    }
  }

  lemma StepSourcesPending(w: World, e: Event, c: Campaign, i: nat)
    requires Sourced(w) && Enabled(w, e) && i in Pending(Apply(w, e), c)
    ensures FromPlan(Apply(w, e), Payload(c, i, Pending(Apply(w, e), c)[i]))
  {
    var w' := Apply(w, e);
    var d := Payload(c, i, Pending(w', c)[i]);
    if e.Plan? && e.campaign == c && i < |e.batches| {
      PlansGrow(w, e, c);
      assert InPlan(Plans(w', c)[|Plans(w, c)|], d);
    } else {
      if !(e.Plan? && e.campaign == c) {
        PendingOnlyShrinks(w, e, c);
      }
      assert i in Pending(w, c) && Pending(w, c)[i] == d.users;
      FromPlanGrows(w, e, d);
    }
  }

  lemma StepSourced(w: World, e: Event)
    requires Sourced(w) && Enabled(w, e)
    ensures Sourced(Apply(w, e))
  {
    var w' := Apply(w, e);
    forall id | id in w'.queue ensures FromPlan(w', w'.queue[id].data) {
      StepSourcesJob(w, e, id);
    }
    forall r | r in w'.runs ensures FromPlan(w', w'.runs[r].data) && (Holds(w', r) ==> RunsItsJob(w', r)) {
      StepSourcesRun(w, e, r);
    }
    forall d | d in w'.planned || d in w'.visiting ensures FromPlan(w', d) {
      StepSourcesHands(w, e, d);
    }
    forall c: Campaign, i: nat | i in Pending(w', c) ensures FromPlan(w', Payload(c, i, Pending(w', c)[i])) {
      StepSourcesPending(w, e, c, i);
    }
    forall c: Campaign ensures Findable(w', c) {
      assert Findable(w, c);
      StepFindable(w, e, c);
    }
  }

  lemma {:induction false} ExecSourced(w: World, es: seq<Event>)
    requires Sourced(w) && Valid(w, es)
    ensures Sourced(Exec(w, es))
    decreases |es|
  {
    if es != [] {
      var w' := Apply(w, es[0]);
      StepSourced(w, es[0]);
      ExecSourced(w', es[1..]);
    }
  }

  lemma {:induction false} ExecPlansGrow(w: World, es: seq<Event>, c: Campaign)
    requires Valid(w, es)
    ensures Plans(w, c) <= Plans(Exec(w, es), c)
    decreases |es|
  {
    if es != [] {
      PlansGrow(w, es[0], c);
      ExecPlansGrow(Apply(w, es[0]), es[1..], c);
    }
  }

  // ---------------------------------------------------------------- when a campaign was planned

  lemma StepKeepsCreation(w: World, e: Event, c: Campaign)
    requires CampaignOk(w, c) && Enabled(w, e) && PlannedOnce(w, c) && Plans(Apply(w, e), c) == Plans(w, c)
    requires c in Apply(w, e).state
    ensures c in w.state && Apply(w, e).state[c].createdAt == w.state[c].createdAt
  {
    PlansGrow(w, e, c);
    if Target(w, e) != Some(c) {
      StepFrame(w, e, c);
    }
  }

  lemma {:induction false} ExecKeepsCreation(w: World, es: seq<Event>, c: Campaign)
    requires Inv(w) && Valid(w, es) && PlannedOnce(w, c) && Plans(Exec(w, es), c) == Plans(w, c)
    requires c in Exec(w, es).state
    ensures c in w.state && Exec(w, es).state[c].createdAt == w.state[c].createdAt
    decreases |es|
  {
    if es != [] {
      var w' := Apply(w, es[0]);
      PlansGrow(w, es[0], c);
      ExecPlansGrow(w', es[1..], c);
      StepKeepsInv(w, es[0]);
      ExecKeepsCreation(w', es[1..], c);
      assert CampaignOk(w, c);
      StepKeepsCreation(w, es[0], c);
    }
  }

  /** The creation time of a campaign planned once is the time of its plan. */
  lemma {:induction false} CreatedWhenPlanned(w: World, es: seq<Event>, c: Campaign, k: nat)
    requires Inv(w) && Valid(w, es) && k < |es| && es[k].Plan? && es[k].campaign == c
    requires PlannedOnce(Exec(w, es), c) && c in Exec(w, es).state
    ensures Exec(w, es).state[c].createdAt == Some(es[k].now)
    decreases |es|
  {
    var w' := Apply(w, es[0]);
    StepKeepsInv(w, es[0]);
    if k == 0 {
      PlansGrow(w, es[0], c);
      ExecPlansGrow(w', es[1..], c);
      ExecKeepsCreation(w', es[1..], c);
    } else {
      CreatedWhenPlanned(w', es[1..], c, k - 1);
    }
  }
}
