/** The counters of a broadcast, read off the events of the run: what each execution reports, what
    the winning claims add up to, and when that is the number of messages created. */
module BroadcastTally {
  import opened Base
  import opened BroadcastIds
  import opened BroadcastProtocol
  import opened BroadcastSafety
  import opened BroadcastCounting

  // ---------------------------------------------------------------- what an execution reports

  /** The messages an execution has created since it started and had confirmed; for a push batch,
      the success count of its multicast. */
  function Reported(es: seq<Event>, r: nat): nat {
    if es == [] then 0 else
      var before := Reported(es[..|es| - 1], r);
      match es[|es| - 1]
      case Start(_, r') => if r' == r then 0 else before
      case Send(r', _, o) => if r' == r && o == Created then before + 1 else before
      case Multicast(r', n) => if r' == r then n else before
      case _ => before
  }

  lemma SendBooks(w: World, r: nat, k: nat, o: Outcome)
    requires Enabled(w, Send(r, k, o))
    ensures var x, x' := w.runs[r], ApplySend(w, r, k, o).runs[r];
      && x'.result == x.result + (if o == Created then 1 else 0)
      && x'.credited == x.credited + (if o == Created then {x.data.users[k]} else {})
  {
  }

  /** The effect of one event on what an execution will report. */
  lemma StepReports(w: World, e: Event, r: nat)
    requires Enabled(w, e) && r in Apply(w, e).runs
    ensures var n := Apply(w, e).runs[r].result;
      match e
      case Start(_, r') => if r' == r then n == 0 else r in w.runs && n == w.runs[r].result
      case Send(r', _, o) => r in w.runs && n == w.runs[r].result + if r' == r && o == Created then 1 else 0
      case Multicast(r', m) => r in w.runs && n == if r' == r then m else w.runs[r].result
      case _ => r in w.runs && n == w.runs[r].result
  {
    if Subject(e) != Some(r) {
      RunFrame(w, e, r);
    } else if e.Send? {
      SendBooks(w, r, e.position, e.outcome);
    }
  }

  /** In every run the number an execution will hand to its claim is the one its events give. */
  lemma {:induction false} ResultIsReported(kind: Kind, es: seq<Event>, r: nat)
    requires Valid(Init(kind), es) && r in Exec(Init(kind), es).runs
    ensures Exec(Init(kind), es).runs[r].result == Reported(es, r)
    decreases |es|
  {
    if es != [] {
      ExecSnoc(Init(kind), es);
      var before, e := es[..|es| - 1], es[|es| - 1];
      var w := Exec(Init(kind), before);
      StepReports(w, e, r);
      if r in w.runs {
        ResultIsReported(kind, before, r);
      }
    }
  }

  // ---------------------------------------------------------------- what the winning claims add up to

  /** The event is a claim of the campaign that finds its batch pending. */
  predicate Wins(w: World, e: Event, c: Campaign) {
    && e.Claim? && e.run in w.runs
    && w.runs[e.run].data.campaign == c && w.runs[e.run].data.index in Pending(w, c)
  }

  /** The sum of the reports of the campaign's winning claims. */
  function Won(kind: Kind, es: seq<Event>, c: Campaign): nat
    requires Valid(Init(kind), es)
    decreases |es|
  {
    if es == [] then 0 else
      ExecSnoc(Init(kind), es);
      var before, e := es[..|es| - 1], es[|es| - 1];
      Won(kind, before, c) + if Wins(Exec(Init(kind), before), e, c) then Reported(before, e.run) else 0
  }

  /** `sent`, while there is a state hash, and every audit are this number. */
  predicate SentIs(w: World, c: Campaign, n: nat) {
    && (Plans(w, c) == [] ==> n == 0)
    && (PlannedOnce(w, c) ==>
          && (c in w.state ==> w.state[c].sent == n)
          && (forall a :: a in HistoryOf(w, c).audits ==> a.sent == n))
  }

  lemma ClaimAddsUp(w: World, r: nat, c: Campaign, n: nat)
    requires Enabled(w, Claim(r)) && CampaignOk(w, c) && w.runs[r].data.campaign == c && SentIs(w, c, n)
    ensures SentIs(ApplyClaim(w, r), c, n + if Wins(w, Claim(r), c) then w.runs[r].result else 0)
  {
    ClaimBooks(w, r);
    assert Plans(ApplyClaim(w, r), c) == Plans(w, c);
  }

  lemma StepAddsUp(w: World, e: Event, c: Campaign, n: nat)
    requires Inv(w) && Enabled(w, e) && SentIs(w, c, n)
    ensures SentIs(Apply(w, e), c, n + if Wins(w, e, c) then w.runs[e.run].result else 0)
  {
    assert CampaignOk(w, c);
    PlansGrow(w, e, c);
    if Target(w, e) != Some(c) {
      StepFrame(w, e, c);
    } else if e.Claim? {
      ClaimAddsUp(w, e.run, c, n);
    } else if e.LogAudit? {
      assert RunOk(w, e.run);
    }
  }

  /** For a campaign planned once `sent`, and the completion audit, are the sum of what the
      executions that won a claim had reported: of all messages they created, for an inbox
      broadcast. */
  lemma {:induction false} SentIsWon(kind: Kind, es: seq<Event>, c: Campaign)
    requires Valid(Init(kind), es)
    ensures SentIs(Exec(Init(kind), es), c, Won(kind, es, c))
    decreases |es|
  {
    if es != [] {
      ExecSnoc(Init(kind), es);
      var before, e := es[..|es| - 1], es[|es| - 1];
      var w := Exec(Init(kind), before);
      SentIsWon(kind, before, c);
      InitOk(kind);
      ExecKeepsInv(Init(kind), before);
      StepAddsUp(w, e, c, Won(kind, before, c));
      if e.Claim? {
        ResultIsReported(kind, before, e.run);
      }
    }
  }

  // ---------------------------------------------------------------- who is counted

  function Recipient(w: World, r: nat, k: nat): set<User> {
    if r in w.runs && k < |w.runs[r].data.users| then {w.runs[r].data.users[k]} else {}
  }

  /** The recipients whose message an execution has created and had confirmed since it started. */
  function CreatedBy(kind: Kind, es: seq<Event>, r: nat): set<User>
    requires Valid(Init(kind), es)
    decreases |es|
  {
    if es == [] then {} else
      ExecSnoc(Init(kind), es);
      var before, e := es[..|es| - 1], es[|es| - 1];
      if e.Start? && e.run == r then {}
      else CreatedBy(kind, before, r)
           + if e.Send? && e.run == r && e.outcome == Created
             then Recipient(Exec(Init(kind), before), r, e.position) else {}
  }

  /** The recipients with a message created by an execution that then won its claim. */
  function Settled(kind: Kind, es: seq<Event>, c: Campaign): set<User>
    requires Valid(Init(kind), es)
    decreases |es|
  {
    if es == [] then {} else
      ExecSnoc(Init(kind), es);
      var before, e := es[..|es| - 1], es[|es| - 1];
      Settled(kind, before, c)
      + if Wins(Exec(Init(kind), before), e, c) then CreatedBy(kind, before, e.run) else {}
  }

  /** All recipients for whom some execution of the campaign created a message, confirmed or not. */
  function Written(kind: Kind, es: seq<Event>, c: Campaign): set<User>
    requires Valid(Init(kind), es)
    decreases |es|
  {
    if es == [] then {} else
      ExecSnoc(Init(kind), es);
      var before, e := es[..|es| - 1], es[|es| - 1];
      var w := Exec(Init(kind), before);
      Written(kind, before, c)
      + if e.Send? && e.outcome in {Created, CreatedThenThrew} && e.run in w.runs && w.runs[e.run].data.campaign == c
        then Recipient(w, e.run, e.position) else {}
  }

  lemma StepCredits(w: World, e: Event, r: nat)
    requires Enabled(w, e) && r in Apply(w, e).runs
    ensures var credited := Apply(w, e).runs[r].credited;
      if e.Start? && e.run == r then credited == {}
      else r in w.runs && credited == w.runs[r].credited
             + if e.Send? && e.run == r && e.outcome == Created then Recipient(w, r, e.position) else {}
  {
    if Subject(e) != Some(r) {
      RunFrame(w, e, r);
    } else if e.Send? {
      SendBooks(w, r, e.position, e.outcome);
    }
  }

  lemma {:induction false} CreditIsCreated(kind: Kind, es: seq<Event>, r: nat)
    requires Valid(Init(kind), es) && r in Exec(Init(kind), es).runs
    ensures Exec(Init(kind), es).runs[r].credited == CreatedBy(kind, es, r)
    decreases |es|
  {
    if es != [] {
      ExecSnoc(Init(kind), es);
      var before, e := es[..|es| - 1], es[|es| - 1];
      var w := Exec(Init(kind), before);
      StepCredits(w, e, r);
      if r in w.runs {
        CreditIsCreated(kind, before, r);
      }
    }
  }

  lemma StepCounts(w: World, e: Event, c: Campaign)
    requires Enabled(w, e)
    ensures HistoryOf(Apply(w, e), c).counted ==
      HistoryOf(w, c).counted + if Wins(w, e, c) then w.runs[e.run].credited else {}
  {
    CountedFrame(w, e, c);
    if e.Claim? {
      ClaimBooks(w, e.run);
    }
  }

  lemma {:induction false} CountedIsSettled(kind: Kind, es: seq<Event>, c: Campaign)
    requires Valid(Init(kind), es)
    ensures HistoryOf(Exec(Init(kind), es), c).counted == Settled(kind, es, c)
    decreases |es|
  {
    if es != [] {
      ExecSnoc(Init(kind), es);
      var before, e := es[..|es| - 1], es[|es| - 1];
      CountedIsSettled(kind, before, c);
      StepCounts(Exec(Init(kind), before), e, c);
      if e.Claim? {
        CreditIsCreated(kind, before, e.run);
      }
    }
  }

  lemma StepWrites(w: World, e: Event, c: Campaign)
    requires Enabled(w, e)
    ensures Messages(Apply(w, e), c) == Messages(w, c)
      + if e.Send? && e.outcome in {Created, CreatedThenThrew} && e.run in w.runs && w.runs[e.run].data.campaign == c
        then Recipient(w, e.run, e.position) else {}
  {
    if e.Send? {
      SendWrites(w, e.run, e.position, e.outcome, c);
    }
  }

  lemma SendWrites(w: World, r: nat, k: nat, o: Outcome, c: Campaign)
    requires Enabled(w, Send(r, k, o))
    ensures Messages(ApplySend(w, r, k, o), c) == Messages(w, c)
      + if o in {Created, CreatedThenThrew} && w.runs[r].data.campaign == c then {w.runs[r].data.users[k]} else {}
  {
    var w', key := ApplySend(w, r, k, o), (w.runs[r].data.campaign, w.runs[r].data.users[k]);
    assert w'.inbox == w.inbox + if o in {Created, CreatedThenThrew} then {key} else {};
    forall u ensures u in Messages(w', c) <==> (c, u) in w'.inbox {
      assert (c, u) in w'.inbox ==> (c, u).1 == u;
    }
    forall u ensures u in Messages(w, c) <==> (c, u) in w.inbox {
      assert (c, u) in w.inbox ==> (c, u).1 == u;
    }
  }

  lemma {:induction false} MessagesAreWritten(kind: Kind, es: seq<Event>, c: Campaign)
    requires Valid(Init(kind), es)
    ensures Messages(Exec(Init(kind), es), c) == Written(kind, es, c)
    decreases |es|
  {
    if es != [] {
      ExecSnoc(Init(kind), es);
      MessagesAreWritten(kind, es[..|es| - 1], c);
      StepWrites(Exec(Init(kind), es[..|es| - 1]), es[|es| - 1], c);
    }
  }

  /** For an inbox campaign planned once, `sent` is the number of recipients with a message created
      by an execution that then won its claim. So it is the number of messages created if and only
      if every message was created by such an execution. */
  lemma SentIsEveryMessageIff(es: seq<Event>, c: Campaign)
    requires Valid(Init(Inbox), es)
    requires PlannedOnce(Exec(Init(Inbox), es), c) && c in Exec(Init(Inbox), es).state
    ensures var sent := Exec(Init(Inbox), es).state[c].sent;
      && sent == Won(Inbox, es, c) == |Settled(Inbox, es, c)|
      && Settled(Inbox, es, c) <= Written(Inbox, es, c)
      && (sent == |Written(Inbox, es, c)| <==> Written(Inbox, es, c) <= Settled(Inbox, es, c))
  {
    SentIsWon(Inbox, es, c);
    SentNeverOverstates(es, c);
    CountedIsSettled(Inbox, es, c);
    MessagesAreWritten(Inbox, es, c);
    var settled, written := Settled(Inbox, es, c), Written(Inbox, es, c);
    if |settled| == |written| && !(written <= settled) {
      var u :| u in written && u !in settled;
      SubsetSize(settled, written - {u});
      assert false;
    }
    if written <= settled {
      assert written == settled;
    }
  }
}
