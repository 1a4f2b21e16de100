/** The sweep can always bring a campaign to completion, and when it cannot. */
module BroadcastRecovery {
  import opened BroadcastIds
  import opened BroadcastProtocol
  import opened BroadcastSafety

  /** No other planned campaign shares this campaign's batch job ids. */
  ghost predicate NoClash(w: World, c: Campaign) {
    forall c': Campaign :: c' != c && Plans(w, c') != [] ==> StripColons(c'.text) != StripColons(c.text)
  }

  /** A pending batch whose job id is taken by a completed job: the queue ignores every
      re-enqueue and the sweep skips it. */
  predicate Blocked(w: World, c: Campaign, i: nat) {
    var id := IdOf(w, c, i);
    i in Pending(w, c) && id in w.queue && w.queue[id].status == Completed
  }

  ghost predicate NeverBlocked(w: World, c: Campaign) {
    PlannedOnce(w, c) && NoClash(w, c) ==> forall i :: i in Pending(w, c) ==> !Blocked(w, c, i)
  }

  ghost predicate RecoveryInv(w: World) {
    Inv(w) && forall c: Campaign :: NeverBlocked(w, c)
  }

  /** Without clashes a job id belongs to one batch of one planned campaign. */
  lemma IdOwner(w: World, c: Campaign, i: nat, c': Campaign, i': nat)
    requires NoClash(w, c) && Plans(w, c') != [] && IdOf(w, c, i) == IdOf(w, c', i')
    ensures c == c' && i == i'
  {
    BatchJobIdClash(w.kind, c.text, i, c'.text, i');
  }

  lemma NoClashBefore(w: World, e: Event, c: Campaign)
    requires Enabled(w, e) && NoClash(Apply(w, e), c)
    ensures NoClash(w, c)
  {
    forall c': Campaign | c' != c && Plans(w, c') != []
      ensures StripColons(c'.text) != StripColons(c.text)
    {
      PlansGrow(w, e, c');
      assert Plans(Apply(w, e), c') != [];
    }
  }

  /** Only the completion of an execution completes a job. */
  lemma CompletedBy(w: World, e: Event, id: JobId)
    requires Enabled(w, e) && id in Apply(w, e).queue && Apply(w, e).queue[id].status == Completed
    ensures id in w.queue
    ensures w.queue[id].status == Completed || (e.Complete? && w.runs[e.run].jobId == id)
  {
    if !Queueing(e) {
      QueueFrame(w, e);
    }
  }

  lemma StepNeverBlocks(w: World, e: Event, c: Campaign, i: nat)
    requires Inv(w) && NeverBlocked(w, c) && Enabled(w, e)
    requires PlannedOnce(Apply(w, e), c) && NoClash(Apply(w, e), c) && i in Pending(Apply(w, e), c)
    ensures !Blocked(Apply(w, e), c, i)
  {
    var w' := Apply(w, e);
    var id := IdOf(w, c, i);
    ServedGrows(w, e);
    PlansGrow(w, e, c);
    NoClashBefore(w, e, c);
    if Blocked(w', c, i) {
      CompletedBy(w, e, id);
      if Plans(w, c) == [] {
        assert JobOk(w, id);
        var d := w.queue[id].data;
        IdOwner(w, c, i, d.campaign, d.index);
      } else {
        PendingShrinks(w, e, c);
        assert !Blocked(w, c, i);
        assert RunOk(w, e.run);
        var d := w.runs[e.run].data;
        IdOwner(w, c, i, d.campaign, d.index);
      }
    }
  }

  lemma {:induction false} ExecNeverBlocks(w: World, es: seq<Event>)
    requires RecoveryInv(w) && Valid(w, es)
    ensures RecoveryInv(Exec(w, es))
    decreases |es|
  {
    if es != [] {
      var w' := Apply(w, es[0]);
      StepKeepsInv(w, es[0]);
      forall c: Campaign ensures NeverBlocked(w', c) {
        assert NeverBlocked(w, c);
        if PlannedOnce(w', c) && NoClash(w', c) {
          forall i | i in Pending(w', c) ensures !Blocked(w', c, i) {
            StepNeverBlocks(w, es[0], c, i);
          }
        }
      }
      ExecNeverBlocks(w', es[1..]);
    }
  }

  /** In every reachable state a completed job's batch is not pending. */
  lemma CompletedIsNeverPending(kind: Kind, es: seq<Event>, c: Campaign, i: nat)
    requires Valid(Init(kind), es)
    requires var w := Exec(Init(kind), es);
      && PlannedOnce(w, c) && NoClash(w, c)
      && IdOf(w, c, i) in w.queue && w.queue[IdOf(w, c, i)].status == Completed
    ensures i !in Pending(Exec(Init(kind), es), c)
  {
    InitOk(kind);
    ExecNeverBlocks(Init(kind), es);
    var w := Exec(Init(kind), es);
    assert NeverBlocked(w, c);
    assert i in Pending(w, c) ==> !Blocked(w, c, i);
  }

  // ---------------------------------------------------------------- the sweep

  /** The sweep finds the campaign in the active set, with a state hash. */
  predicate SweepFinds(w: World, c: Campaign) {
    c in w.active && c in w.state && w.state[c].createdAt.Some?
  }

  /** What a sweep does, once the campaign is stale, about one of its pending batches. */
  function SweepVisit(w: World, c: Campaign, i: nat): seq<Event>
    requires SweepFinds(w, c) && i in Pending(w, c)
  {
    [SweepReads(c, w.state[c].createdAt.value + STALE_MS), SweepVisits(Payload(c, i, Pending(w, c)[i]))]
  }

  /** Every campaign with something pending is found. */
  lemma PendingIsFound(w: World, c: Campaign)
    requires CampaignOk(w, c) && PlannedOnce(w, c) && Pending(w, c) != map[]
    ensures SweepFinds(w, c)
  {
  }

  lemma SweepVisitSteps(w: World, c: Campaign, i: nat)
    requires SweepFinds(w, c) && i in Pending(w, c)
    ensures Valid(w, SweepVisit(w, c, i)) && Unaided(SweepVisit(w, c, i))
    ensures var w', d := Exec(w, SweepVisit(w, c, i)), Payload(c, i, Pending(w, c)[i]);
      w' == w.(queue := Revive(w.queue, IdOf(w, c, i), d), visiting := w'.visiting)
  {
    var es := SweepVisit(w, c, i);
    var w1 := Apply(w, es[0]);
    assert Enabled(w1, es[1]);
    OneStep(w1, es[1]);
    OneThen(w, es[0], [es[1]]);
    assert es == [es[0]] + [es[1]];
  }

  /** The steps of sweeps and of batch executions; not those of planners or replays. */
  predicate IsUnaided(e: Event) {
    || e.SweepReads? || e.SweepVisits?
    || e.Start? || e.Send? || e.Multicast? || e.Claim? || e.LogAudit? || e.Cleanup?
  }

  predicate Unaided(es: seq<Event>) {
    forall e :: e in es ==> IsUnaided(e)
  }

  predicate LiveJob(w: World, c: Campaign, i: nat)
    requires PlannedOnce(w, c) && i < |BatchesOf(w, c)|
  {
    var id := IdOf(w, c, i);
    && id in w.queue && Runnable(w.queue[id])
    && w.queue[id].data == Payload(c, i, BatchesOf(w, c)[i])
  }

  /** A visit leaves the batch with a live job that carries the batch's recipients. */
  lemma SweepRevives(w: World, c: Campaign, i: nat)
    requires RecoveryInv(w) && PlannedOnce(w, c) && NoClash(w, c) && i in Pending(w, c)
    ensures i < |BatchesOf(w, c)| && SweepFinds(w, c)
    ensures Valid(w, SweepVisit(w, c, i)) && Unaided(SweepVisit(w, c, i))
    ensures var w' := Exec(w, SweepVisit(w, c, i));
      && w' == w.(queue := w'.queue, visiting := w'.visiting)
      && Plans(w', c) == Plans(w, c) && LiveJob(w', c, i)
  {
    assert CampaignOk(w, c) && NeverBlocked(w, c);
    assert !Blocked(w, c, i);
    PendingIsFound(w, c);
    SweepVisitSteps(w, c, i);
    var id := IdOf(w, c, i);
    if id in w.queue {
      assert JobOk(w, id);
      IdOwner(w, c, i, w.queue[id].data.campaign, w.queue[id].data.index);
    }
  }

  // ---------------------------------------------------------------- completion stays reachable

  lemma ThenOne(w: World, es: seq<Event>, e: Event)
    requires Valid(w, es) && Enabled(Exec(w, es), e)
    ensures Valid(w, es + [e]) && Exec(w, es + [e]) == Apply(Exec(w, es), e)
  {
    var v := Exec(w, es);
    assert [e][1..] == [];
    assert Valid(Apply(v, e), []) && Exec(Apply(v, e), []) == Apply(v, e);
    ExecAppend(w, es, [e]);
  }

  /** `w'` differs from `w` only in jobs and in what is in hand. */
  predicate SameButQueue(w: World, w': World) {
    w' == w.(queue := w'.queue, planned := w'.planned, visiting := w'.visiting)
  }

  /** `w'` differs from `w` only in deliveries, jobs and executions. */
  predicate SameOutboxes(w: World, w': World) {
    w' == w.(queue := w'.queue, runs := w'.runs, inbox := w'.inbox, served := w'.served, visiting := w'.visiting)
  }

  /** `w'` differs from `w` only in deliveries and executions. */
  predicate SameJobs(w: World, w': World) {
    w' == w.(runs := w'.runs, inbox := w'.inbox, served := w'.served)
  }

  lemma OneThen(w: World, e: Event, es: seq<Event>)
    requires Enabled(w, e) && Valid(Apply(w, e), es)
    ensures Valid(w, [e] + es) && Exec(w, [e] + es) == Exec(Apply(w, e), es)
  {
    assert ([e] + es)[1..] == es;
  }

  lemma OneStep(w: World, e: Event)
    requires Enabled(w, e)
    ensures Valid(w, [e]) && Exec(w, [e]) == Apply(w, e)
  {
    OneThen(w, e, []);
    assert [e] + [] == [e];
  }

  function NextSend(w: World, r: nat, k: nat): Event
    requires r in w.runs && k < |w.runs[r].data.users|
  {
    var d := w.runs[r].data;
    Send(r, k, if (d.campaign, d.users[k]) in w.inbox then Duplicate else Created)
  }

  lemma SendNext(w: World, r: nat, k: nat)
    requires w.kind == Inbox && r in w.runs && w.runs[r].phase.Sending?
    requires k < |w.runs[r].data.users| && w.runs[r].done == Positions(w.runs[r].data.users[..k])
    ensures Enabled(w, NextSend(w, r, k))
    ensures var w' := Apply(w, NextSend(w, r, k));
      && SameJobs(w, w') && r in w'.runs && w'.runs[r].phase.Sending?
      && w'.runs[r].data == w.runs[r].data && w'.runs[r].jobId == w.runs[r].jobId
      && w'.runs[r].done == Positions(w.runs[r].data.users[..k + 1])
  {
    var x := w.runs[r];
    var users := x.data.users;
    assert users[..k + 1][..k] == users[..k];
    var o := NextSend(w, r, k).outcome;
    assert Enabled(w, Send(r, k, o));
    SendFrame(w, r, k, o);
    var y := ApplySend(w, r, k, o).runs[r];
    assert y.phase == x.phase && y.done == x.done + {k};
  }

  /** An execution at position `k`, nothing sent beyond it, can serve the rest of its batch. */
  lemma {:induction false} SendRest(w: World, r: nat, k: nat) returns (es: seq<Event>)
    requires w.kind == Inbox && r in w.runs && w.runs[r].phase.Sending?
    requires k <= |w.runs[r].data.users| && w.runs[r].done == Positions(w.runs[r].data.users[..k])
    ensures Valid(w, es) && Unaided(es)
    ensures var w' := Exec(w, es);
      && SameJobs(w, w') && r in w'.runs
      && w'.runs[r].data == w.runs[r].data && w'.runs[r].jobId == w.runs[r].jobId && Enabled(w', Claim(r))
    decreases |w.runs[r].data.users| - k
  {
    if k == |w.runs[r].data.users| {
      es := [];
      assert w.runs[r].data.users[..k] == w.runs[r].data.users;
    } else {
      SendNext(w, r, k);
      var e := NextSend(w, r, k);
      var rest := SendRest(Apply(w, e), r, k + 1);
      OneThen(w, e, rest);
      es := [e] + rest;
    }
  }

  lemma ServeBatch(w: World, r: nat) returns (es: seq<Event>)
    requires r in w.runs && w.runs[r].phase.Sending? && w.runs[r].done == {}
    ensures Valid(w, es) && Unaided(es)
    ensures var w' := Exec(w, es);
      && SameJobs(w, w') && r in w'.runs
      && w'.runs[r].data == w.runs[r].data && w'.runs[r].jobId == w.runs[r].jobId && Enabled(w', Claim(r))
  {
    if w.kind.Inbox? {
      assert w.runs[r].data.users[..0] == [];
      es := SendRest(w, r, 0);
    } else {
      ThenOne(w, [], Multicast(r, 0));
      es := [] + [Multicast(r, 0)];
    }
  }

  lemma FreshRun(ids: set<nat>) returns (r: nat)
    ensures r !in ids
  {
    r := 0;
    var rest := ids;
    while rest != {}
      invariant forall i :: i in ids && i !in rest ==> i < r
      decreases rest
    {
      var i :| i in rest;
      r := if i < r then r else i + 1;
      rest := rest - {i};
    }
  }

  /** A pending batch can be brought to an execution that is ready to claim it. */
  lemma ReachClaim(w: World, c: Campaign, i: nat) returns (es: seq<Event>, r: nat)
    requires RecoveryInv(w) && PlannedOnce(w, c) && NoClash(w, c) && i in Pending(w, c)
    ensures Valid(w, es) && Unaided(es)
    ensures var w' := Exec(w, es);
      && SameOutboxes(w, w') && Enabled(w', Claim(r))
      && w'.runs[r].data.campaign == c && w'.runs[r].data.index == i
      && Holds(w', r)
  {
    SweepRevives(w, c, i);
    var visit := SweepVisit(w, c, i);
    var w1 := Exec(w, visit);
    r := FreshRun(w1.runs.Keys);
    var start := Start(IdOf(w1, c, i), r);
    ThenOne(w, visit, start);
    var w2 := Apply(w1, start);
    var sends := ServeBatch(w2, r);
    ExecAppend(w, visit + [start], sends);
    es := visit + [start] + sends;
  }

  /** A claim that finds its batch pending removes it and reports what is left. */
  lemma ClaimWins(w: World, c: Campaign, r: nat)
    requires Inv(w) && Enabled(w, Claim(r)) && w.runs[r].data.campaign == c
    requires PlannedOnce(w, c) && w.runs[r].data.index in Pending(w, c)
    ensures var w' := ApplyClaim(w, r);
      && Pending(w', c) == Pending(w, c) - {w.runs[r].data.index}
      && w'.runs[r].phase == Claimed(|Pending(w', c)|)
      && (Pending(w', c) == map[] ==> HistoryOf(w', c).audits == [])
      && w'.runs[r].data == w.runs[r].data
  {
    StepKeepsInv(w, Claim(r));
    var w' := ApplyClaim(w, r);
    assert CampaignOk(w, c) && CampaignOk(w', c) && RunOk(w', r);
    assert Plans(w', c) == Plans(w, c);
    assert w'.runs[r].phase == Claimed(w'.state[c].remaining);
  }

  lemma ClaimFrame(w: World, r: nat)
    requires Enabled(w, Claim(r))
    ensures var w' := Apply(w, Claim(r));
      && w'.kind == w.kind && w'.queue == w.queue
      && r in w'.runs && w'.runs[r] == w.runs[r].(phase := w'.runs[r].phase) && w'.runs[r].phase.Claimed?
      && (forall c: Campaign :: Plans(w', c) == Plans(w, c))
      && (forall c: Campaign :: c != w.runs[r].data.campaign ==> Pending(w', c) == Pending(w, c))
  {
    forall c: Campaign ensures Plans(Apply(w, Claim(r)), c) == Plans(w, c) {
      PlansGrow(w, Claim(r), c);
    }
  }

  /** The batch is no longer pending; if it was the last, the campaign is audited and cleaned up. */
  ghost predicate BatchDone(w: World, w': World, c: Campaign, i: nat) {
    && Pending(w', c) == Pending(w, c) - {i}
    && (Pending(w', c) == map[] ==> c !in w'.state && |HistoryOf(w', c).audits| == 1)
    && (forall c': Campaign :: Plans(w', c') == Plans(w, c'))
  }

  /** The winning claim as a run of one step. */
  lemma WinningClaim(w: World, c: Campaign, r: nat) returns (w': World)
    requires Inv(w) && Enabled(w, Claim(r)) && w.runs[r].data.campaign == c
    requires PlannedOnce(w, c) && w.runs[r].data.index in Pending(w, c)
    ensures Valid(w, [Claim(r)]) && Exec(w, [Claim(r)]) == w' && Unaided([Claim(r)])
    ensures Pending(w', c) == Pending(w, c) - {w.runs[r].data.index}
    ensures r in w'.runs && w'.runs[r].phase == Claimed(|Pending(w', c)|) && w'.runs[r].data.campaign == c
    ensures Pending(w', c) == map[] ==> HistoryOf(w', c).audits == []
    ensures forall c': Campaign :: Plans(w', c') == Plans(w, c')
  {
    ClaimWins(w, c, r);
    ClaimFrame(w, r);
    OneStep(w, Claim(r));
    w' := Apply(w, Claim(r));
  }

  lemma CloseIfLast(w: World, c: Campaign, r: nat) returns (es: seq<Event>)
    requires r in w.runs && w.runs[r].phase == Claimed(|Pending(w, c)|) && w.runs[r].data.campaign == c
    requires Pending(w, c) == map[] ==> HistoryOf(w, c).audits == []
    ensures Valid(w, es) && Unaided(es) && Pending(Exec(w, es), c) == Pending(w, c)
    ensures Pending(w, c) == map[] ==> c !in Exec(w, es).state && |HistoryOf(Exec(w, es), c).audits| == 1
    ensures forall c': Campaign :: Plans(Exec(w, es), c') == Plans(w, c')
  {
    es := [];
    if Pending(w, c) == map[] {
      es := Close(w, r);
    }
  }

  /** A claim that wins, followed by the audit and the cleanup when it was the last one. */
  lemma ClaimAndClose(w: World, c: Campaign, r: nat) returns (es: seq<Event>)
    requires Inv(w) && Enabled(w, Claim(r)) && w.runs[r].data.campaign == c
    requires PlannedOnce(w, c) && w.runs[r].data.index in Pending(w, c)
    ensures Valid(w, es) && Unaided(es)
    ensures BatchDone(w, Exec(w, es), c, w.runs[r].data.index)
  {
    var w1 := WinningClaim(w, c, r);
    var tail := CloseIfLast(w1, c, r);
    ExecAppend(w, [Claim(r)], tail);
    es := [Claim(r)] + tail;
  }

  lemma Close(w: World, r: nat) returns (es: seq<Event>)
    requires Enabled(w, LogAudit(r))
    ensures Valid(w, es) && Unaided(es)
    ensures var c, w' := w.runs[r].data.campaign, Exec(w, es);
      && c !in w'.state && Pending(w', c) == map[]
      && |HistoryOf(w', c).audits| == |HistoryOf(w, c).audits| + 1
      && (forall c': Campaign :: Plans(w', c') == Plans(w, c'))
      && (forall c': Campaign :: c' != c ==> Pending(w', c') == Pending(w, c'))
    ensures var w' := Exec(w, es);
      w'.queue == w.queue && w'.kind == w.kind && w'.runs == w.runs[r := w.runs[r].(phase := Finished)]
  {
    var w1 := Apply(w, LogAudit(r));
    var w2 := Apply(w1, Cleanup(r));
    assert w2.runs == w.runs[r := w.runs[r].(phase := Finished)];
    OneThen(w1, Cleanup(r), []);
    OneThen(w, LogAudit(r), [Cleanup(r)]);
    es := [LogAudit(r)] + [Cleanup(r)];
  }

  lemma ReachClaimSafely(w: World, c: Campaign, i: nat) returns (es: seq<Event>, r: nat, w': World)
    requires RecoveryInv(w) && PlannedOnce(w, c) && NoClash(w, c) && i in Pending(w, c)
    ensures Valid(w, es) && Unaided(es) && Exec(w, es) == w'
    ensures Inv(w') && Enabled(w', Claim(r)) && w'.runs[r].data.campaign == c && w'.runs[r].data.index == i
    ensures w'.history == w.history && Pending(w', c) == Pending(w, c)
  {
    es, r := ReachClaim(w, c, i);
    ExecKeepsInv(w, es);
    w' := Exec(w, es);
  }

  /** One more pending batch can be claimed; if it was the last, the campaign can be audited
      and cleaned up as well. */
  lemma FinishBatch(w: World, c: Campaign, i: nat) returns (es: seq<Event>)
    requires RecoveryInv(w) && PlannedOnce(w, c) && NoClash(w, c) && i in Pending(w, c)
    ensures Valid(w, es) && Unaided(es)
    ensures BatchDone(w, Exec(w, es), c, i)
  {
    var reach, r, w1 := ReachClaimSafely(w, c, i);
    assert forall c': Campaign :: Plans(w1, c') == Plans(w, c');
    var tail := ClaimAndClose(w1, c, r);
    ExecAppend(w, reach, tail);
    es := reach + tail;
  }

  /** From every reachable state of a campaign planned once under unshared job ids there is
      a continuation, of sweeps and executions alone, after which every recipient is served and
      nothing is pending; unless nothing was pending already, it also logs the one completion
      audit and cleans up. */
  lemma {:induction false} CanAlwaysComplete(w: World, c: Campaign) returns (es: seq<Event>)
    requires RecoveryInv(w) && PlannedOnce(w, c) && NoClash(w, c)
    ensures Valid(w, es) && Unaided(es)
    ensures var w' := Exec(w, es);
      && PlannedOnce(w', c) && BatchesOf(w', c) == BatchesOf(w, c) && Pending(w', c) == map[]
      && AllServed(w', c, Recipients(BatchesOf(w, c)))
      && (Pending(w, c) != map[] ==> c !in w'.state && |HistoryOf(w', c).audits| == 1)
    ensures Pending(w, c) == map[] ==> es == []
    decreases |Pending(w, c)|
  {
    if Pending(w, c) == map[] {
      es := [];
      NothingPending(w, c);
    } else {
      var i :| i in Pending(w, c);
      var one := FinishBatch(w, c, i);
      var v := Exec(w, one);
      ExecNeverBlocks(w, one);
      assert Plans(v, c) == Plans(w, c);
      assert NoClash(v, c);
      assert |Pending(v, c)| < |Pending(w, c)| by {
        assert Pending(v, c).Keys == Pending(w, c).Keys - {i};
      }
      var rest := CanAlwaysComplete(v, c);
      ExecAppend(w, one, rest);
      es := one + rest;
    }
  }

  /** So in every reachable state sweeps and executions alone can still serve everybody. */
  lemma ReachableCanComplete(kind: Kind, es: seq<Event>, c: Campaign) returns (fs: seq<Event>)
    requires Valid(Init(kind), es)
    requires PlannedOnce(Exec(Init(kind), es), c) && NoClash(Exec(Init(kind), es), c)
    ensures Valid(Init(kind), es + fs) && Unaided(fs)
    ensures var w, w' := Exec(Init(kind), es), Exec(Init(kind), es + fs);
      AllServed(w', c, Recipients(BatchesOf(w, c))) && Pending(w', c) == map[]
  {
    InitOk(kind);
    ExecNeverBlocks(Init(kind), es);
    fs := CanAlwaysComplete(Exec(Init(kind), es), c);
    ExecAppend(Init(kind), es, fs);
  }

  /** A small first plan, for the witnesses. */
  lemma FirstPlan(c: Campaign, u: User)
    ensures Enabled(Init(Inbox), Plan(c, [[u]], 0))
    ensures var w := Apply(Init(Inbox), Plan(c, [[u]], 0));
      RecoveryInv(w) && PlannedOnce(w, c) && NoClash(w, c) && Pending(w, c).Keys == {0}
  {
    var plan := Plan(c, [[u]], 0);
    InitOk(Inbox);
    OneStep(Init(Inbox), plan);
    ExecNeverBlocks(Init(Inbox), [plan]);
    assert PendingOf([[u]]) == map[0 := [u]];
  }
}
