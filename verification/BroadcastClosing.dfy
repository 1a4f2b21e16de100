/** When a campaign is closed: its completion audit is logged and its Redis keys are deleted.

    Nobody but the execution whose claim answered 0 does this. If that execution dies first,
    every recipient has been served but the broadcast is never reported as complete. */
module BroadcastClosing {
  import opened Base
  import opened BroadcastIds
  import opened BroadcastProtocol
  import opened BroadcastSafety
  import opened BroadcastRecovery

  predicate Closed(w: World, c: Campaign) {
    c !in w.state && HistoryOf(w, c).audits != []
  }

  predicate Closes(w: World, c: Campaign, r: nat)
    requires r in w.runs
  {
    w.runs[r].data.campaign == c && (w.runs[r].phase == Claimed(0) || w.runs[r].phase.Audited?)
  }

  /** Some execution of the campaign still has the audit or the cleanup before it. */
  predicate HasCloser(w: World, c: Campaign) {
    exists r :: r in w.runs && Closes(w, c, r)
  }

  /** Some continuation without another plan of the campaign closes it. */
  ghost predicate CanClose(w: World, c: Campaign) {
    exists es :: Valid(w, es) && Plans(Exec(w, es), c) == Plans(w, c) && Closed(Exec(w, es), c)
  }

  /** Sweeps and executions alone can close it. */
  ghost predicate ClosesUnaided(w: World, c: Campaign) {
    exists es :: Valid(w, es) && Unaided(es) && Plans(Exec(w, es), c) == Plans(w, c) && Closed(Exec(w, es), c)
  }

  // ---------------------------------------------------------------- never closed

  /** Everything has been claimed, the keys are there, and nobody is left to close. */
  predicate Abandoned(w: World, c: Campaign) {
    PlannedOnce(w, c) && c in w.state && Pending(w, c) == map[] && !HasCloser(w, c)
  }

  /** Nothing is pending, so a claim of the campaign is refused. */
  lemma ClaimIsNoCloser(w: World, c: Campaign, r: nat)
    requires Enabled(w, Claim(r)) && Pending(w, c) == map[]
    ensures !Closes(ApplyClaim(w, r), c, r)
  {
  }

  lemma NoNewCloser(w: World, e: Event, c: Campaign, r: nat)
    requires Enabled(w, e) && Abandoned(w, c) && r in Apply(w, e).runs
    ensures !Closes(Apply(w, e), c, r)
  {
    if Subject(e) != Some(r) {
      RunFrame(w, e, r);
      assert !Closes(w, c, r);
    } else {
      match e
      case Send(_, k, o) => SendFrame(w, r, k, o);
      case Claim(_) => ClaimIsNoCloser(w, c, r);
      case LogAudit(_) => assert !Closes(w, c, r);
      case Cleanup(_) => assert !Closes(w, c, r);
      case Start(_, _) =>
      case Multicast(_, _) =>
    }
  }

  lemma AbandonedOutbox(w: World, e: Event, c: Campaign)
    requires CampaignOk(w, c) && Enabled(w, e) && Abandoned(w, c) && Plans(Apply(w, e), c) == Plans(w, c)
    ensures var w' := Apply(w, e);
      c in w'.state && Pending(w', c) == map[] && HistoryOf(w', c).audits == HistoryOf(w, c).audits
  {
    PlansGrow(w, e, c);
    if Target(w, e) != Some(c) {
      StepFrame(w, e, c);
    } else if e.LogAudit? || e.Cleanup? {
      assert Closes(w, c, e.run);
      assert false;
    }
  }

  lemma AbandonedStays(w: World, e: Event, c: Campaign)
    requires Inv(w) && Enabled(w, e) && Abandoned(w, c) && Plans(Apply(w, e), c) == Plans(w, c)
    ensures Abandoned(Apply(w, e), c) && HistoryOf(Apply(w, e), c).audits == HistoryOf(w, c).audits
  {
    assert CampaignOk(w, c);
    AbandonedOutbox(w, e, c);
    forall r | r in Apply(w, e).runs ensures !Closes(Apply(w, e), c, r) {
      NoNewCloser(w, e, c, r);
    }
  }

  /** An abandoned campaign stays so in every continuation: the sweep has nothing to revive. */
  lemma {:induction false} AbandonedForever(w: World, es: seq<Event>, c: Campaign)
    requires Inv(w) && Valid(w, es) && Abandoned(w, c) && Plans(Exec(w, es), c) == Plans(w, c)
    ensures Abandoned(Exec(w, es), c) && HistoryOf(Exec(w, es), c).audits == HistoryOf(w, c).audits
    decreases |es|
  {
    if es != [] {
      var w' := Apply(w, es[0]);
      PlansGrow(w, es[0], c);
      ExecPlansGrow(w', es[1..], c);
      AbandonedStays(w, es[0], c);
      StepKeepsInv(w, es[0]);
      AbandonedForever(w', es[1..], c);
    }
  }

  // ---------------------------------------------------------------- the exact condition

  lemma CloserCloses(w: World, c: Campaign, r: nat)
    requires Inv(w) && PlannedOnce(w, c) && r in w.runs && Closes(w, c, r)
    ensures ClosesUnaided(w, c)
  {
    assert RunOk(w, r);
    if w.runs[r].phase.Audited? {
      CleanupCloses(w, c, r);
    } else {
      var es := Close(w, r);
      assert Closed(Exec(w, es), c);
    }
  }

  lemma CleanupCloses(w: World, c: Campaign, r: nat)
    requires Enabled(w, Cleanup(r)) && w.runs[r].data.campaign == c && HistoryOf(w, c).audits != []
    ensures ClosesUnaided(w, c)
  {
    OneStep(w, Cleanup(r));
    assert Unaided([Cleanup(r)]) && Closed(Exec(w, [Cleanup(r)]), c);
  }

  predicate Closable(w: World, c: Campaign) {
    c !in w.state || Pending(w, c) != map[] || HasCloser(w, c)
  }

  lemma PendingCloses(w: World, c: Campaign)
    requires RecoveryInv(w) && PlannedOnce(w, c) && NoClash(w, c) && Pending(w, c) != map[]
    ensures ClosesUnaided(w, c)
  {
    var es := CanAlwaysComplete(w, c);
    assert Closed(Exec(w, es), c);
  }

  lemma ClosableCloses(w: World, c: Campaign)
    requires RecoveryInv(w) && PlannedOnce(w, c) && NoClash(w, c) && Closable(w, c)
    ensures ClosesUnaided(w, c)
  {
    assert CampaignOk(w, c);
    if c !in w.state {
      assert Valid(w, []) && Unaided([]) && Exec(w, []) == w && Closed(w, c);
    } else if Pending(w, c) != map[] {
      PendingCloses(w, c);
    } else {
      var r :| r in w.runs && Closes(w, c, r);
      CloserCloses(w, c, r);
    }
  }

  lemma ClosesOnlyIfClosable(w: World, c: Campaign)
    requires Inv(w) && PlannedOnce(w, c) && CanClose(w, c)
    ensures Closable(w, c)
  {
    var es :| Valid(w, es) && Plans(Exec(w, es), c) == Plans(w, c) && Closed(Exec(w, es), c);
    if !Closable(w, c) {
      AbandonedForever(w, es, c);
    }
  }

  predicate AtZeroClaim(w: World, c: Campaign) {
    exists r :: r in w.runs && w.runs[r].data.campaign == c && w.runs[r].phase == Claimed(0)
  }

  lemma UnauditedCloser(w: World, c: Campaign)
    requires Inv(w) && PlannedOnce(w, c)
    ensures HistoryOf(w, c).audits == [] ==> c in w.state && (HasCloser(w, c) <==> AtZeroClaim(w, c))
  {
    assert CampaignOk(w, c);
    forall r | r in w.runs && Closes(w, c, r) && HistoryOf(w, c).audits == []
      ensures w.runs[r].phase == Claimed(0)
    {
      assert RunOk(w, r);
    }
    if AtZeroClaim(w, c) {
      var r :| r in w.runs && w.runs[r].data.campaign == c && w.runs[r].phase == Claimed(0);
      assert Closes(w, c, r);
    }
  }

  /** In every reachable state of a campaign planned once under unshared job ids, some
      continuation closes it if and only if it is closed, something is still pending, or an
      execution of it is between its zero claim and the cleanup; and then sweeps and executions
      alone can. Before the audit that leaves: something is pending, or an execution is at its
      zero claim. */
  lemma ClosesIff(kind: Kind, es: seq<Event>, c: Campaign)
    requires Valid(Init(kind), es)
    requires PlannedOnce(Exec(Init(kind), es), c) && NoClash(Exec(Init(kind), es), c)
    ensures var w := Exec(Init(kind), es);
      && (CanClose(w, c) <==> c !in w.state || Pending(w, c) != map[] || HasCloser(w, c))
      && (CanClose(w, c) <==> ClosesUnaided(w, c))
      && (HistoryOf(w, c).audits == [] ==>
            (CanClose(w, c) <==> Pending(w, c) != map[] || AtZeroClaim(w, c)))
  {
    InitOk(kind);
    ExecNeverBlocks(Init(kind), es);
    var w := Exec(Init(kind), es);
    if Closable(w, c) {
      ClosableCloses(w, c);
    } else if CanClose(w, c) {
      ClosesOnlyIfClosable(w, c);
    }
    UnauditedCloser(w, c);
  }

  // ---------------------------------------------------------------- the failure is reachable

  /** The death of an execution at its zero claim abandons the campaign. */
  lemma CrashAbandons(w: World, c: Campaign, r: nat)
    requires Inv(w) && PlannedOnce(w, c) && c in w.state && Pending(w, c) == map[]
    requires r in w.runs && w.runs[r].data.campaign == c && w.runs[r].phase == Claimed(0)
    ensures Enabled(w, Crash(r))
    ensures var w' := Apply(w, Crash(r));
      Inv(w') && Abandoned(w', c) && w' == w.(runs := w.runs - {r}) && HistoryOf(w', c).audits == []
  {
    StepKeepsInv(w, Crash(r));
    assert RunOk(w, r);
    var w' := Apply(w, Crash(r));
    forall r' | r' in w'.runs ensures !Closes(w', c, r') {
      assert RunOk(w, r');
    }
  }

  lemma LastClaim(w: World, c: Campaign, r: nat)
    requires Inv(w) && Enabled(w, Claim(r)) && w.runs[r].data.campaign == c
    requires PlannedOnce(w, c) && Pending(w, c).Keys == {w.runs[r].data.index}
    ensures var w' := Apply(w, Claim(r));
      && Pending(w', c) == map[] && (forall c': Campaign :: Plans(w', c') == Plans(w, c'))
      && r in w'.runs && w'.runs[r].data.campaign == c && w'.runs[r].phase == Claimed(0)
  {
    ClaimWins(w, c, r);
    ClaimFrame(w, r);
    assert Pending(Apply(w, Claim(r)), c) == map[];
  }

  lemma ReachZeroClaim(c: Campaign, u: User) returns (es: seq<Event>, r: nat)
    ensures Valid(Init(Inbox), es)
    ensures var w := Exec(Init(Inbox), es);
      && Plans(w, c) == [[[u]]] && NoClash(w, c) && Pending(w, c) == map[]
      && r in w.runs && w.runs[r].data.campaign == c && w.runs[r].phase == Claimed(0)
  {
    var w0, plan := Init(Inbox), Plan(c, [[u]], 0);
    FirstPlan(c, u);
    var w1 := Apply(w0, plan);
    var reach, run := ReachClaim(w1, c, 0);
    r := run;
    ExecKeepsInv(w1, reach);
    var w2 := Exec(w1, reach);
    LastClaim(w2, c, r);
    ThenOne(w1, reach, Claim(r));
    OneThen(w0, plan, reach + [Claim(r)]);
    es := [plan] + (reach + [Claim(r)]);
    assert Exec(w0, es) == Apply(w2, Claim(r));
  }

  lemma ReachAbandoned(c: Campaign, u: User) returns (es: seq<Event>)
    ensures Valid(Init(Inbox), es)
    ensures var w := Exec(Init(Inbox), es);
      Inv(w) && Plans(w, c) == [[[u]]] && NoClash(w, c) && Abandoned(w, c) && HistoryOf(w, c).audits == []
  {
    var begin, r := ReachZeroClaim(c, u);
    var w := Exec(Init(Inbox), begin);
    InitOk(Inbox);
    ExecKeepsInv(Init(Inbox), begin);
    assert RunOk(w, r) && CampaignOk(w, c);
    CrashAbandons(w, c, r);
    ThenOne(Init(Inbox), begin, Crash(r));
    es := begin + [Crash(r)];
  }

  /** The execution whose claim answered 0 dies before its audit: everybody has been served, but
      no continuation without another plan logs the audit or deletes the keys. */
  lemma DeadCloserLosesAudit(c: Campaign, u: User) returns (es: seq<Event>)
    ensures Valid(Init(Inbox), es)
    ensures var w := Exec(Init(Inbox), es);
      && PlannedOnce(w, c) && NoClash(w, c) && AllServed(w, c, [u]) && HistoryOf(w, c).audits == []
      && (forall fs :: Valid(w, fs) && Plans(Exec(w, fs), c) == Plans(w, c) ==>
            c in Exec(w, fs).state && HistoryOf(Exec(w, fs), c).audits == [])
  {
    es := ReachAbandoned(c, u);
    var w := Exec(Init(Inbox), es);
    NothingPending(w, c);
    assert Recipients([[u]]) == [u] + Recipients([]);
    forall fs | Valid(w, fs) && Plans(Exec(w, fs), c) == Plans(w, c)
      ensures c in Exec(w, fs).state && HistoryOf(Exec(w, fs), c).audits == []
    {
      AbandonedForever(w, fs, c);
    }
  }
}
