/** When planning a campaign can leave a batch that nothing ever sends: its job id is taken by a
    completed job, so the queue ignores every enqueue and the sweep skips it, and no execution
    of it is left. */
module BroadcastStranding {
  import opened Base
  import opened BroadcastIds
  import opened BroadcastProtocol
  import opened BroadcastSafety
  import opened BroadcastRecovery

  /** An execution of the batch that may still send. */
  predicate IsOpen(x: Run, c: Campaign, i: nat) {
    x.data.campaign == c && x.data.index == i && (x.phase.Sending? || x.phase.Doomed?)
  }

  predicate HasCompletedJob(w: World, c: Campaign, i: nat) {
    IdOf(w, c, i) in w.queue && w.queue[IdOf(w, c, i)].status == Completed
  }

  /** The batch's job is completed and no execution of it may still send. */
  predicate Forsaken(w: World, c: Campaign, i: nat) {
    HasCompletedJob(w, c, i) && forall r :: r in w.runs ==> !IsOpen(w.runs[r], c, i)
  }

  /** And yet the batch is pending. */
  predicate Stranded(w: World, c: Campaign, i: nat) {
    i in Pending(w, c) && Forsaken(w, c, i)
  }

  // ---------------------------------------------------------------- it is for good

  lemma CompletedStays(w: World, e: Event, c: Campaign, i: nat)
    requires Enabled(w, e) && HasCompletedJob(w, c, i) && e != LoseJob(IdOf(w, c, i))
    ensures HasCompletedJob(Apply(w, e), c, i)
  {
    ServedGrows(w, e);
    if !Queueing(e) {
      QueueFrame(w, e);
    }
  }

  /** An execution becomes open only by starting. */
  lemma OpenBefore(w: World, e: Event, r: nat, c: Campaign, i: nat)
    requires Enabled(w, e) && r in Apply(w, e).runs && IsOpen(Apply(w, e).runs[r], c, i)
    ensures (r in w.runs && IsOpen(w.runs[r], c, i)) || (e.Start? && w.queue[e.id].data == Apply(w, e).runs[r].data)
  {
    RunKeepsData(w, e, r);
    if Subject(e) != Some(r) {
      RunFrame(w, e, r);
    }
  }

  lemma StepForsaken(w: World, e: Event, c: Campaign, i: nat)
    requires Inv(w) && Enabled(w, e) && Forsaken(w, c, i) && e != LoseJob(IdOf(w, c, i))
    ensures Forsaken(Apply(w, e), c, i)
  {
    CompletedStays(w, e, c, i);
    assert e.Start? ==> JobOk(w, e.id);
    forall r | r in Apply(w, e).runs ensures !IsOpen(Apply(w, e).runs[r], c, i) {
      if IsOpen(Apply(w, e).runs[r], c, i) {
        OpenBefore(w, e, r, c, i);
        assert false;
      }
    }
  }

  /** The only batches with this recipient are numbered `i`. */
  ghost predicate OnlyIn(w: World, c: Campaign, i: nat, u: User) {
    forall d: Payload :: FromPlan(w, d) && d.campaign == c && u in d.users ==> d.index == i
  }

  /** Only an open execution of a batch with the recipient serves anybody. */
  lemma ServedBy(w: World, e: Event, c: Campaign, u: User)
    requires Enabled(w, e) && (c, u) in Apply(w, e).served && (c, u) !in w.served
    ensures (e.Send? || e.Multicast?) && e.run in w.runs
    ensures var d := w.runs[e.run].data;
      d.campaign == c && u in d.users && IsOpen(w.runs[e.run], c, d.index)
  {
    if e.Send? {
      assert Apply(w, e) == ApplySend(w, e.run, e.position, e.outcome);
    }
  }

  lemma StepUnserved(w: World, e: Event, c: Campaign, i: nat, u: User)
    requires Sourced(w) && Enabled(w, e) && Forsaken(w, c, i) && OnlyIn(w, c, i, u) && (c, u) !in w.served
    ensures (c, u) !in Apply(w, e).served
  {
    if (c, u) in Apply(w, e).served {
      ServedBy(w, e, c, u);
      assert false;
    }
  }

  /** As long as the completed job is not lost, no continuation, with further plans or without,
      sends the batch: no execution of it ever opens, and a recipient who is in no other batch
      and has not been served is never served. */
  lemma {:induction false} ForsakenForever(w: World, es: seq<Event>, c: Campaign, i: nat, u: User)
    requires Inv(w) && Sourced(w) && Valid(w, es) && LoseJob(IdOf(w, c, i)) !in es && Forsaken(w, c, i)
    ensures Forsaken(Exec(w, es), c, i)
    ensures OnlyIn(Exec(w, es), c, i, u) && (c, u) !in w.served ==> (c, u) !in Exec(w, es).served
    decreases |es|
  {
    if es != [] {
      var w' := Apply(w, es[0]);
      StepForsaken(w, es[0], c, i);
      ServedGrows(w, es[0]);
      StepKeepsInv(w, es[0]);
      StepSourced(w, es[0]);
      if OnlyIn(Exec(w, es), c, i, u) && (c, u) !in w.served {
        OnlyInBefore(w, es, c, i, u);
        StepUnserved(w, es[0], c, i, u);
      }
      ForsakenForever(w', es[1..], c, i, u);
    }
  }

  lemma OnlyInBefore(w: World, es: seq<Event>, c: Campaign, i: nat, u: User)
    requires Valid(w, es) && OnlyIn(Exec(w, es), c, i, u)
    ensures OnlyIn(w, c, i, u)
  {
    ExecPlansGrow(w, es, c);
    var v := Exec(w, es);
    forall d: Payload | FromPlan(w, d) && d.campaign == c && u in d.users ensures d.index == i {
      var p: nat :| p < |Plans(w, c)| && InPlan(Plans(w, c)[p], d);
      assert InPlan(Plans(v, c)[p], d);
      assert FromPlan(v, d);
    }
  }

  lemma StaysPending(w: World, e: Event, c: Campaign, i: nat)
    requires CampaignOk(w, c) && Enabled(w, e) && Stranded(w, c, i) && (e.Cleanup? ==> RunOk(w, e.run))
    requires PlannedOnce(w, c) && Plans(Apply(w, e), c) == Plans(w, c)
    ensures i in Pending(Apply(w, e), c)
  {
    PlansGrow(w, e, c);
    if Target(w, e) != Some(c) {
      StepFrame(w, e, c);
    } else if e.Claim? {
      assert !IsOpen(w.runs[e.run], c, i);
    } else if e.Cleanup? {
      assert false;
    }
  }

  lemma StepStranded(w: World, e: Event, c: Campaign, i: nat)
    requires Inv(w) && Enabled(w, e) && Stranded(w, c, i) && e != LoseJob(IdOf(w, c, i))
    requires PlannedOnce(w, c) && Plans(Apply(w, e), c) == Plans(w, c)
    ensures Stranded(Apply(w, e), c, i)
  {
    assert CampaignOk(w, c) && (e.Cleanup? ==> RunOk(w, e.run));
    StepForsaken(w, e, c, i);
    StaysPending(w, e, c, i);
  }

  /** For a campaign planned once the batch stays pending as well, whatever planner, executions
      and sweeps do. */
  lemma {:induction false} StrandedForever(w: World, es: seq<Event>, c: Campaign, i: nat)
    requires Inv(w) && Valid(w, es) && LoseJob(IdOf(w, c, i)) !in es && Stranded(w, c, i)
    requires PlannedOnce(w, c) && Plans(Exec(w, es), c) == Plans(w, c)
    ensures Stranded(Exec(w, es), c, i)
    decreases |es|
  {
    if es != [] {
      var w' := Apply(w, es[0]);
      PlansGrow(w, es[0], c);
      ExecPlansGrow(w', es[1..], c);
      StepStranded(w, es[0], c, i);
      ServedGrows(w, es[0]);
      StepKeepsInv(w, es[0]);
      StrandedForever(w', es[1..], c, i);
    }
  }

  // ---------------------------------------------------------------- when it can happen

  /** The two campaigns have the same batch job ids. */
  predicate Shares(c: Campaign, c': Campaign) {
    StripColons(c.text) == StripColons(c'.text)
  }

  /** The batch has a job, or can still get one without another plan: somebody has it in hand, or
      it is pending. */
  predicate Around(w: World, d: Payload) {
    || (IdOf(w, d.campaign, d.index) in w.queue && w.queue[IdOf(w, d.campaign, d.index)].data == d)
    || d in w.planned || d in w.visiting
    || d in Work(d.campaign, Pending(w, d.campaign))
  }

  /** A batch of another campaign under the same job id is around. */
  ghost predicate HasRival(w: World, c: Campaign, i: nat) {
    exists d: Payload :: IsRival(d, c, i) && Around(w, d)
  }

  predicate IsRival(d: Payload, c: Campaign, i: nat) {
    d.campaign != c && Shares(c, d.campaign) && d.index == i
  }

  /** The execution that holds the batch's job is past its claim but has not completed. */
  predicate HasLateCompletion(w: World, c: Campaign, i: nat) {
    exists r :: r in w.runs && IsLate(w, c, i, r)
  }

  predicate IsLate(w: World, c: Campaign, i: nat, r: nat)
    requires r in w.runs
  {
    w.runs[r].jobId == IdOf(w, c, i) && Holds(w, r) && ReadyToComplete(w.runs[r].phase)
  }

  /** What a planner would have to rule out before its transaction. */
  ghost predicate AtRisk(w: World, c: Campaign, i: nat) {
    HasCompletedJob(w, c, i) || HasLateCompletion(w, c, i) || HasRival(w, c, i)
  }

  /** Between the two states neither the campaign nor one sharing its job ids was planned. */
  ghost predicate NoNewPlan(w: World, w': World, c: Campaign) {
    forall c': Campaign :: Shares(c, c') ==> Plans(w', c') == Plans(w, c')
  }

  ghost predicate CanBeStranded(w: World, c: Campaign, i: nat) {
    exists es :: Valid(w, es) && NoNewPlan(w, Exec(w, es), c) && Stranded(Exec(w, es), c, i)
  }

  // ---------------------------------------------------------------- not at risk, never stranded

  /** Without a plan nothing comes around that was not. */
  lemma AroundBefore(w: World, e: Event, d: Payload)
    requires Enabled(w, e) && Around(Apply(w, e), d) && Plans(Apply(w, e), d.campaign) == Plans(w, d.campaign)
    ensures Around(w, d)
  {
    var w' := Apply(w, e);
    ServedGrows(w, e);
    PlansGrow(w, e, d.campaign);
    if d in w'.planned || d in w'.visiting {
      TakenInHand(w, e, d);
    } else if d in Work(d.campaign, Pending(w', d.campaign)) {
      PendingOnlyShrinks(w, e, d.campaign);
    } else {
      JobKeepsData(w, e, IdOf(w, d.campaign, d.index));
    }
  }

  lemma NoNewRivals(w: World, e: Event, c: Campaign, i: nat)
    requires Enabled(w, e) && NoNewPlan(w, Apply(w, e), c)
    ensures HasRival(Apply(w, e), c, i) ==> HasRival(w, c, i)
  {
    if HasRival(Apply(w, e), c, i) {
      var d: Payload :| IsRival(d, c, i) && Around(Apply(w, e), d);
      AroundBefore(w, e, d);
    }
  }

  /** Without a rival the job under the batch's id is the batch's, and so is the execution that
      holds it. */
  lemma OwnHolder(w: World, c: Campaign, i: nat, r: nat)
    requires Inv(w) && Sourced(w) && r in w.runs && w.runs[r].jobId == IdOf(w, c, i) && Holds(w, r)
    ensures w.runs[r].data.index == i && (w.runs[r].data.campaign == c || HasRival(w, c, i))
  {
    var d := w.runs[r].data;
    assert RunsItsJob(w, r) && JobOk(w, w.runs[r].jobId);
    BatchJobIdClash(w.kind, c.text, i, d.campaign.text, d.index);
    assert Around(w, d);
    assert d.campaign == c || IsRival(d, c, i);
  }

  /** While the batch is pending its job is not completed and not about to be. */
  ghost predicate OnCourse(w: World, c: Campaign, i: nat) {
    && !HasRival(w, c, i)
    && (i in Pending(w, c) ==> !HasCompletedJob(w, c, i) && !HasLateCompletion(w, c, i))
  }

  /** The only executions that become ready to complete are those that claim or clean up. */
  lemma BecomesReady(w: World, e: Event, r: nat)
    requires Enabled(w, e) && r in Apply(w, e).runs
    ensures ReadyToComplete(Apply(w, e).runs[r].phase) ==>
      r in w.runs && (ReadyToComplete(w.runs[r].phase) || e == Claim(r) || e == Cleanup(r))
  {
    if Subject(e) != Some(r) {
      RunFrame(w, e, r);
    } else if e.Send? {
      SendFrame(w, r, e.position, e.outcome);
    }
  }

  /** Claim and cleanup both take the batch of their execution out of the pending hash. */
  lemma RemovesPending(w: World, e: Event, r: nat)
    requires Enabled(w, e) && (e == Claim(r) || e == Cleanup(r))
    ensures w.runs[r].data.index !in Pending(Apply(w, e), w.runs[r].data.campaign)
  {
  }

  /** A late completion was one before, or its batch is claimed or cleaned up by this step. */
  lemma LateBefore(w: World, e: Event, c: Campaign, i: nat, r: nat)
    requires Inv(w) && Sourced(w) && !HasRival(w, c, i) && Enabled(w, e)
    requires r in Apply(w, e).runs && IsLate(Apply(w, e), c, i, r)
    ensures HasLateCompletion(w, c, i) || i !in Pending(Apply(w, e), c)
  {
    ServedGrows(w, e);
    BecomesReady(w, e, r);
    HolderStarts(w, e, r);
    RunKeepsData(w, e, r);
    OwnHolder(w, c, i, r);
    if ReadyToComplete(w.runs[r].phase) {
      assert IsLate(w, c, i, r);
    } else {
      RemovesPending(w, e, r);
    }
  }

  lemma StepOnCourse(w: World, e: Event, c: Campaign, i: nat)
    requires Inv(w) && Sourced(w) && OnCourse(w, c, i) && Enabled(w, e) && NoNewPlan(w, Apply(w, e), c)
    ensures OnCourse(Apply(w, e), c, i)
  {
    var w', id := Apply(w, e), IdOf(w, c, i);
    NoNewRivals(w, e, c, i);
    ServedGrows(w, e);
    PlansGrow(w, e, c);
    if i in Pending(w', c) {
      assert Plans(w', c) == Plans(w, c);
      PendingOnlyShrinks(w, e, c);
      if HasCompletedJob(w', c, i) {
        CompletedBy(w, e, id);
        assert IsLate(w, c, i, e.run);
        assert false;
      }
      forall r | r in w'.runs ensures !IsLate(w', c, i, r) {
        if IsLate(w', c, i, r) {
          LateBefore(w, e, c, i, r);
          assert false;
        }
      }
    }
  }

  lemma {:induction false} ExecOnCourse(w: World, es: seq<Event>, c: Campaign, i: nat)
    requires Inv(w) && Sourced(w) && OnCourse(w, c, i) && Valid(w, es) && NoNewPlan(w, Exec(w, es), c)
    ensures OnCourse(Exec(w, es), c, i)
    decreases |es|
  {
    if es != [] {
      var w' := Apply(w, es[0]);
      forall c': Campaign | Shares(c, c') ensures Plans(w', c') == Plans(w, c') == Plans(Exec(w, es), c') {
        PlansGrow(w, es[0], c');
        ExecPlansGrow(w', es[1..], c');
      }
      StepOnCourse(w, es[0], c, i);
      StepKeepsInv(w, es[0]);
      StepSourced(w, es[0]);
      ExecOnCourse(w', es[1..], c, i);
    }
  }

  // ---------------------------------------------------------------- at risk, stranded by some run

  function OpenRuns(w: World, c: Campaign, i: nat): set<nat> {
    set r | r in w.runs && IsOpen(w.runs[r], c, i)
  }

  /** All open executions of a batch may die. */
  lemma {:induction false} CrashOpenRuns(w: World, c: Campaign, i: nat) returns (es: seq<Event>)
    ensures Valid(w, es)
    ensures var w' := Exec(w, es);
      w' == w.(runs := w'.runs) && forall r :: r in w'.runs ==> !IsOpen(w'.runs[r], c, i)
    decreases OpenRuns(w, c, i)
  {
    es := [];
    if r :| r in OpenRuns(w, c, i) {
      var w1 := Apply(w, Crash(r));
      assert OpenRuns(w1, c, i) == OpenRuns(w, c, i) - {r};
      var rest := CrashOpenRuns(w1, c, i);
      OneThen(w, Crash(r), rest);
      es := [Crash(r)] + rest;
    } else {
      assert forall r :: r in w.runs && IsOpen(w.runs[r], c, i) ==> r in OpenRuns(w, c, i);
    }
  }

  /** A pending batch whose job gets completed by somebody else can be stranded. */
  lemma CompletionStrands(w: World, es: seq<Event>, c: Campaign, i: nat)
    requires Valid(w, es) && NoNewPlan(w, Exec(w, es), c)
    requires i in Pending(Exec(w, es), c) && HasCompletedJob(Exec(w, es), c, i)
    ensures CanBeStranded(w, c, i)
  {
    var w1 := Exec(w, es);
    var crash := CrashOpenRuns(w1, c, i);
    var w2 := Exec(w1, crash);
    ExecAppend(w, es, crash);
    assert Stranded(w2, c, i);
    assert NoNewPlan(w, w2, c);
    assert Exec(w, es + crash) == w2;
  }

  /** The late execution completes the job before the new plan's batch has been sent. */
  lemma LateCompletionStrands(w: World, c: Campaign, i: nat, r: nat)
    requires i in Pending(w, c) && r in w.runs && IsLate(w, c, i, r)
    ensures CanBeStranded(w, c, i)
  {
    OneStep(w, Complete(r));
    var w1 := Apply(w, Complete(r));
    assert w1 == w.(queue := w1.queue, runs := w1.runs);
    CompletionStrands(w, [Complete(r)], c, i);
  }

  /** An execution past its claim can be completed; other campaigns' outboxes stay. */
  lemma FinishRun(w: World, r: nat) returns (es: seq<Event>)
    requires r in w.runs && w.runs[r].phase.Claimed? && Holds(w, r)
    ensures Valid(w, es)
    ensures var w', id := Exec(w, es), w.runs[r].jobId;
      && w'.kind == w.kind && id in w'.queue && w'.queue[id].status == Completed
      && (forall c: Campaign :: Plans(w', c) == Plans(w, c))
      && (forall c: Campaign :: c != w.runs[r].data.campaign ==> Pending(w', c) == Pending(w, c))
  {
    var close: seq<Event> := [];
    if w.runs[r].phase == Claimed(0) {
      close := Close(w, r);
    }
    var w1 := Exec(w, close);
    ThenOne(w, close, Complete(r));
    es := close + [Complete(r)];
    var w2 := Apply(w1, Complete(r));
    assert Exec(w, es) == w2 && w2 == w1.(queue := w2.queue, runs := w2.runs);
  }

  predicate HasJob(w: World, d: Payload) {
    var id := IdOf(w, d.campaign, d.index);
    id in w.queue && w.queue[id].data == d && Runnable(w.queue[id])
  }

  /** A batch in hand can be enqueued, if need be after the loss of the job under its id. */
  lemma HandEnqueues(w: World, d: Payload) returns (es: seq<Event>)
    requires d in w.planned || d in w.visiting
    ensures Valid(w, es) && SameButQueue(w, Exec(w, es)) && HasJob(Exec(w, es), d)
  {
    var id := IdOf(w, d.campaign, d.index);
    var lose: seq<Event> := if id in w.queue then [LoseJob(id)] else [];
    if id in w.queue {
      OneStep(w, LoseJob(id));
    }
    var w1 := Exec(w, lose);
    var add := if d in w.planned then Enqueue(d) else SweepVisits(d);
    ThenOne(w, lose, add);
    es := lose + [add];
  }

  /** A failed job is retried when the batch that is pending under its id is swept. */
  lemma SweepRetries(w: World, c: Campaign, i: nat) returns (es: seq<Event>)
    requires SweepFinds(w, c) && i in Pending(w, c)
    requires IdOf(w, c, i) in w.queue && w.queue[IdOf(w, c, i)].status != Completed
    ensures Valid(w, es)
    ensures var w', id := Exec(w, es), IdOf(w, c, i);
      SameButQueue(w, w') && id in w'.queue && w'.queue[id].data == w.queue[id].data && Runnable(w'.queue[id])
  {
    es := SweepVisit(w, c, i);
    SweepVisitSteps(w, c, i);
  }

  /** Whatever way a rival batch is around, it can get a job. */
  lemma RivalGetsJob(w: World, c: Campaign, i: nat, d: Payload) returns (es: seq<Event>)
    requires SweepFinds(w, c) && i in Pending(w, c) && !HasCompletedJob(w, c, i)
    requires IdOf(w, d.campaign, d.index) == IdOf(w, c, i) && Around(w, d) && Findable(w, d.campaign)
    ensures Valid(w, es) && SameButQueue(w, Exec(w, es)) && HasJob(Exec(w, es), d)
  {
    if d in w.planned || d in w.visiting {
      es := HandEnqueues(w, d);
    } else if d in Work(d.campaign, Pending(w, d.campaign)) {
      var read := ReplayReads(d.campaign);
      var w1 := Apply(w, read);
      var rest := HandEnqueues(w1, d);
      OneThen(w, read, rest);
      es := [read] + rest;
    } else {
      es := SweepRetries(w, c, i);
    }
  }

  /** The job is started and its batch sent and claimed. */
  lemma JobIsClaimed(w: World, d: Payload) returns (es: seq<Event>, r: nat)
    requires HasJob(w, d)
    ensures Valid(w, es)
    ensures var w' := Exec(w, es);
      && w'.kind == w.kind && r in w'.runs && w'.runs[r].phase.Claimed? && Holds(w', r)
      && w'.runs[r].data == d && w'.runs[r].jobId == IdOf(w, d.campaign, d.index)
      && (forall c: Campaign :: Plans(w', c) == Plans(w, c))
      && (forall c: Campaign :: c != d.campaign ==> Pending(w', c) == Pending(w, c))
  {
    var id := IdOf(w, d.campaign, d.index);
    r := FreshRun(w.runs.Keys);
    var w1 := Apply(w, Start(id, r));
    var sends := ServeBatch(w1, r);
    var w2 := Exec(w1, sends);
    ClaimFrame(w2, r);
    ThenOne(w1, sends, Claim(r));
    OneThen(w, Start(id, r), sends + [Claim(r)]);
    es := [Start(id, r)] + (sends + [Claim(r)]);
    assert w2.history == w1.history == w.history && w2.pending == w1.pending == w.pending;
  }

  /** A rival batch takes the job id, is sent, claimed and completed, which strands the batch. */
  lemma RivalStrands(w: World, c: Campaign, i: nat, d: Payload)
    requires SweepFinds(w, c) && i in Pending(w, c) && !HasCompletedJob(w, c, i)
    requires IsRival(d, c, i) && Around(w, d) && Findable(w, d.campaign)
    ensures CanBeStranded(w, c, i)
  {
    BatchJobIdClash(w.kind, c.text, i, d.campaign.text, i);
    var begin := RivalGetsJob(w, c, i, d);
    var w1 := Exec(w, begin);
    var claim, r := JobIsClaimed(w1, d);
    var w2 := Exec(w1, claim);
    assert Pending(w2, c) == Pending(w1, c) == Pending(w, c);
    var finish := FinishRun(w2, r);
    ExecAppend(w1, claim, finish);
    ExecAppend(w, begin, claim + finish);
    CompletionStrands(w, begin + (claim + finish), c, i);
  }

  // ---------------------------------------------------------------- the exact condition

  lemma PlanFrame(w: World, c: Campaign, batches: Batches, now: int)
    requires Enabled(w, Plan(c, batches, now))
    ensures var v := Apply(w, Plan(c, batches, now));
      && v.kind == w.kind && v.queue == w.queue && v.runs == w.runs && v.visiting == w.visiting
      && v.planned == w.planned + multiset(Work(c, PendingOf(batches)))
      && (forall c': Campaign :: c' != c ==> Pending(v, c') == Pending(w, c'))
      && SweepFinds(v, c) && Pending(v, c) == Pending(w, c) + PendingOf(batches)
  {
  }

  /** Planning a campaign changes nothing about the three risks of its batches. */
  lemma PlanKeepsRisk(w: World, c: Campaign, batches: Batches, now: int, i: nat)
    requires Enabled(w, Plan(c, batches, now))
    ensures var v := Apply(w, Plan(c, batches, now));
      && (HasCompletedJob(v, c, i) <==> HasCompletedJob(w, c, i))
      && (HasLateCompletion(v, c, i) <==> HasLateCompletion(w, c, i))
      && (HasRival(v, c, i) <==> HasRival(w, c, i))
  {
    PlanFrame(w, c, batches, now);
    var v := Apply(w, Plan(c, batches, now));
    forall r | r in w.runs ensures IsLate(v, c, i, r) <==> IsLate(w, c, i, r) {
    }
    forall d: Payload | IsRival(d, c, i) ensures Around(v, d) <==> Around(w, d) {
    }
  }

  /** In every state a pending batch can be stranded if and only if it is at risk. */
  lemma CanBeStrandedIff(w: World, c: Campaign, i: nat)
    requires Inv(w) && Sourced(w) && SweepFinds(w, c) && i in Pending(w, c)
    ensures CanBeStranded(w, c, i) <==> AtRisk(w, c, i)
  {
    if AtRisk(w, c, i) {
      AtRiskStrands(w, c, i);
    } else {
      forall es | Valid(w, es) && NoNewPlan(w, Exec(w, es), c) ensures !Stranded(Exec(w, es), c, i) {
        ExecOnCourse(w, es, c, i);
      }
    }
  }

  /** Whatever happened before: after planning a campaign, some continuation without another
      plan under its job ids strands batch `i` if and only if, before planning, the job id is
      held by a completed job, or by a job whose execution is past its claim, or a batch `i` of
      a campaign that differs only in colons has a job, is pending or is about to be enqueued. */
  lemma PlanningStrandsIff(kind: Kind, es: seq<Event>, c: Campaign, batches: Batches, now: int, i: nat)
    requires Valid(Init(kind), es) && Enabled(Exec(Init(kind), es), Plan(c, batches, now)) && i < |batches|
    ensures var w := Exec(Init(kind), es);
      CanBeStranded(Apply(w, Plan(c, batches, now)), c, i) <==> AtRisk(w, c, i)
  {
    ReachableOk(kind, es);
    PlanningRisk(Exec(Init(kind), es), c, batches, now, i);
  }

  lemma ReachableOk(kind: Kind, es: seq<Event>)
    requires Valid(Init(kind), es)
    ensures Inv(Exec(Init(kind), es)) && Sourced(Exec(Init(kind), es))
  {
    InitOk(kind);
    ExecKeepsInv(Init(kind), es);
    ExecSourced(Init(kind), es);
  }

  lemma PlanningRisk(w: World, c: Campaign, batches: Batches, now: int, i: nat)
    requires Inv(w) && Sourced(w) && Enabled(w, Plan(c, batches, now)) && i < |batches|
    ensures CanBeStranded(Apply(w, Plan(c, batches, now)), c, i) <==> AtRisk(w, c, i)
  {
    var plan := Plan(c, batches, now);
    StepKeepsInv(w, plan);
    StepSourced(w, plan);
    PlanFrame(w, c, batches, now);
    assert i in PendingOf(batches);
    PlanKeepsRisk(w, c, batches, now, i);
    CanBeStrandedIff(Apply(w, plan), c, i);
  }

  lemma AtRiskStrands(w: World, c: Campaign, i: nat)
    requires Sourced(w) && SweepFinds(w, c) && i in Pending(w, c) && AtRisk(w, c, i)
    ensures CanBeStranded(w, c, i)
  {
    if HasCompletedJob(w, c, i) {
      assert Valid(w, []) && Exec(w, []) == w;
      CompletionStrands(w, [], c, i);
    } else if HasLateCompletion(w, c, i) {
      var r :| r in w.runs && IsLate(w, c, i, r);
      LateCompletionStrands(w, c, i, r);
    } else {
      var d: Payload :| IsRival(d, c, i) && Around(w, d);
      assert Findable(w, d.campaign);
      RivalStrands(w, c, i, d);
    }
  }

  lemma AroundIsPlanned(w: World, d: Payload)
    requires Sourced(w)
    ensures Around(w, d) ==> FromPlan(w, d)
  {
  }

  lemma NoJobYet(w: World, c: Campaign, i: nat)
    requires Inv(w) && Plans(w, c) == [] && NoClash(w, c)
    ensures IdOf(w, c, i) !in w.queue
  {
    if IdOf(w, c, i) in w.queue {
      var d := w.queue[IdOf(w, c, i)].data;
      assert JobOk(w, IdOf(w, c, i));
      IdOwner(w, c, i, d.campaign, d.index);
    }
  }

  lemma NoRivalYet(w: World, c: Campaign, i: nat)
    requires Sourced(w) && NoClash(w, c)
    ensures !HasRival(w, c, i)
  {
    forall d: Payload | IsRival(d, c, i) ensures !Around(w, d) {
      assert Plans(w, d.campaign) == [];
      AroundIsPlanned(w, d);
    }
  }

  /** The first plan of a campaign that shares its job ids with no planned one is never at risk. */
  lemma FirstPlanIsSafe(kind: Kind, es: seq<Event>, c: Campaign, i: nat)
    requires Valid(Init(kind), es) && Plans(Exec(Init(kind), es), c) == [] && NoClash(Exec(Init(kind), es), c)
    ensures !AtRisk(Exec(Init(kind), es), c, i)
  {
    ReachableOk(kind, es);
    NoJobYet(Exec(Init(kind), es), c, i);
    NoRivalYet(Exec(Init(kind), es), c, i);
  }

  // ---------------------------------------------------------------- the three risks are real

  /** The last claim, the audit and the cleanup. */
  lemma CloseLast(w: World, c: Campaign, r: nat) returns (es: seq<Event>)
    requires Inv(w) && Enabled(w, Claim(r)) && w.runs[r].data.campaign == c && Holds(w, r)
    requires PlannedOnce(w, c) && Pending(w, c).Keys == {w.runs[r].data.index}
    ensures Valid(w, es)
    ensures var w' := Exec(w, es);
      && c !in w'.state && w'.kind == w.kind && w'.queue == w.queue
      && r in w'.runs && w'.runs[r] == w.runs[r].(phase := Finished)
  {
    ClaimWins(w, c, r);
    ClaimFrame(w, r);
    var w1 := Apply(w, Claim(r));
    assert Pending(w1, c) == map[];
    var close := Close(w1, r);
    OneThen(w, Claim(r), close);
    es := [Claim(r)] + close;
  }

  /** A one-recipient campaign runs to its cleanup, so that the planner finds no state. Planning
      it again is at risk while its execution has not completed, and after it has. */
  lemma ReplanCanStrand(c: Campaign, u: User) returns (es: seq<Event>, r: nat)
    ensures Valid(Init(Inbox), es)
    ensures var w := Exec(Init(Inbox), es);
      && c !in w.state && HasLateCompletion(w, c, 0) && !HasCompletedJob(w, c, 0)
      && Enabled(w, Complete(r)) && c !in Apply(w, Complete(r)).state && HasCompletedJob(Apply(w, Complete(r)), c, 0)
  {
    var w0 := Init(Inbox);
    FirstPlan(c, u);
    var w1 := Apply(w0, Plan(c, [[u]], 0));
    var reach, run := ReachClaim(w1, c, 0);
    r := run;
    ExecKeepsInv(w1, reach);
    var w2 := Exec(w1, reach);
    assert RunOk(w2, r);
    var close := CloseLast(w2, c, r);
    ExecAppend(w1, reach, close);
    OneThen(w0, Plan(c, [[u]], 0), reach + close);
    es := [Plan(c, [[u]], 0)] + (reach + close);
    var w := Exec(w0, es);
    assert IsLate(w, c, 0, r);
  }

  /** A campaign whose id differs only in colons puts a first plan at risk. */
  lemma ClashCanStrand(c: Campaign, c': Campaign, u: User)
    requires c' != c && Shares(c, c')
    ensures Valid(Init(Inbox), [Plan(c', [[u]], 0)])
    ensures var w := Exec(Init(Inbox), [Plan(c', [[u]], 0)]);
      Plans(w, c) == [] && AtRisk(w, c, 0)
  {
    OneStep(Init(Inbox), Plan(c', [[u]], 0));
    var w, d := Exec(Init(Inbox), [Plan(c', [[u]], 0)]), Payload(c', 0, [u]);
    assert 0 in PendingOf([[u]]);
    assert d in Work(c', Pending(w, c'));
    assert IsRival(d, c, 0) && Around(w, d);
  }
}
