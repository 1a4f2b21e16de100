/** The `sent` counter of an inbox broadcast never overstates deliveries, although a batch
    may run any number of times, concurrently, and may create messages it never reports. */
module BroadcastCounting {
  import opened Base
  import opened BroadcastIds
  import opened BroadcastProtocol
  import opened BroadcastSafety

  function Messages(w: World, c: Campaign): set<User> {
    set key | key in w.inbox && key.0 == c :: key.1
  }

  predicate Open(x: Run) {
    x.phase.Sending? || x.phase.Doomed?
  }

  /** What an execution will report are messages it created itself; nobody counted them yet. */
  predicate CreditOk(w: World, r: nat)
    requires r in w.runs
  {
    var x := w.runs[r];
    && (forall u :: u in x.credited ==> (x.data.campaign, u) in w.inbox)
    && |x.credited| == x.result
    && (Open(x) ==> x.credited !! HistoryOf(w, x.data.campaign).counted)
  }

  predicate Apart(w: World, r: nat, r': nat)
    requires r in w.runs && r' in w.runs
  {
    var x, x' := w.runs[r], w.runs[r'];
    r != r' && Open(x) && Open(x') && x.data.campaign == x'.data.campaign ==> x.credited !! x'.credited
  }

  predicate CountOk(w: World, c: Campaign) {
    var h := HistoryOf(w, c);
    && (forall u :: u in h.counted ==> (c, u) in w.inbox)
    && (PlannedOnce(w, c) && c in w.state ==> w.state[c].sent == |h.counted|)
    && (PlannedOnce(w, c) ==> forall a :: a in h.audits ==> a.sent == |h.counted|)
  }

  ghost predicate CreditInv(w: World) {
    && w.kind == Inbox
    && (forall r :: r in w.runs ==> CreditOk(w, r))
    && (forall r, r' :: r in w.runs && r' in w.runs ==> Apart(w, r, r'))
    && (forall c: Campaign :: CountOk(w, c))
  }

  /** Only a claim changes which recipients are counted. */
  lemma CountedFrame(w: World, e: Event, c: Campaign)
    requires Enabled(w, e)
    ensures HistoryOf(w, c).counted <= HistoryOf(Apply(w, e), c).counted
    ensures !(e.Claim? && w.runs[e.run].data.campaign == c) ==>
      HistoryOf(Apply(w, e), c).counted == HistoryOf(w, c).counted
    ensures w.inbox <= Apply(w, e).inbox && Apply(w, e).kind == w.kind
  {
    InboxGrows(w, e);
    if e.Send? {
      SendFrame(w, e.run, e.position, e.outcome);
    }
  }

  lemma InboxGrows(w: World, e: Event)
    requires Enabled(w, e)
    ensures w.inbox <= Apply(w, e).inbox && Apply(w, e).kind == w.kind
  {
    if e.Send? {
      SendFrame(w, e.run, e.position, e.outcome);
    }
  }

  lemma OtherCredit(w: World, e: Event, r: nat)
    requires Enabled(w, e) && r in w.runs && CreditOk(w, r)
    requires r in Apply(w, e).runs && Apply(w, e).runs[r] == w.runs[r]
    requires e.Claim? ==> e.run in w.runs && Apart(w, r, e.run)
    requires Subject(e) != Some(r)
    ensures CreditOk(Apply(w, e), r)
  {
    CountedFrame(w, e, w.runs[r].data.campaign);
  }

  lemma SendCredit(w: World, r: nat, k: nat, o: Outcome)
    requires Enabled(w, Send(r, k, o)) && CreditOk(w, r) && CountOk(w, w.runs[r].data.campaign)
    ensures CreditOk(ApplySend(w, r, k, o), r)
  {
    var w', x := ApplySend(w, r, k, o), w.runs[r];
    var u := x.data.users[k];
    assert w'.history == w.history && w.inbox <= w'.inbox;
    if o.Created? {
      assert u !in x.credited && u !in HistoryOf(w, x.data.campaign).counted;
      assert w'.runs[r].credited == x.credited + {u};
    } else {
      assert w'.runs[r].credited == x.credited;
    }
  }

  lemma OwnCredit(w: World, e: Event, r: nat)
    requires Enabled(w, e) && w.kind == Inbox && Subject(e) == Some(r)
    requires r in w.runs ==> CreditOk(w, r)
    requires r in w.runs ==> CountOk(w, w.runs[r].data.campaign)
    ensures r in Apply(w, e).runs && CreditOk(Apply(w, e), r)
  {
    if e.Send? {
      SendCredit(w, r, e.position, e.outcome);
    } else {
      var w' := Apply(w, e);
      assert w'.inbox == w.inbox;
      if e.Start? {
        assert w'.runs[r].credited == {} && w'.runs[r].result == 0;
      } else {
        assert w'.runs[r].credited == w.runs[r].credited && !Open(w'.runs[r]);
      }
    }
  }

  /** An execution is credited only with messages that did not exist before. */
  lemma CreditIsFresh(w: World, e: Event, r: nat)
    requires Enabled(w, e) && Subject(e) == Some(r)
    ensures r in Apply(w, e).runs
    ensures var x' := Apply(w, e).runs[r];
      if r in w.runs then
        && x'.data == w.runs[r].data && (Open(x') ==> Open(w.runs[r]))
        && (forall u :: u in x'.credited ==> u in w.runs[r].credited || (x'.data.campaign, u) !in w.inbox)
      else
        x'.credited == {}
  {
    if e.Send? {
      SendFrame(w, r, e.position, e.outcome);
      var x, x' := w.runs[r], ApplySend(w, r, e.position, e.outcome).runs[r];
      assert x'.credited <= x.credited + {x.data.users[e.position]};
    } else if !e.Start? {
      assert Apply(w, e).runs[r].credited == w.runs[r].credited;
    }
  }

  lemma StepKeepsApart(w: World, e: Event, r: nat, r': nat)
    requires Enabled(w, e) && r in Apply(w, e).runs && r' in Apply(w, e).runs
    requires Subject(e) != Some(r')
    requires r in w.runs && r' in w.runs ==> Apart(w, r, r') && CreditOk(w, r')
    ensures Apart(Apply(w, e), r, r') && Apart(Apply(w, e), r', r)
  {
    RunFrame(w, e, r');
    if Subject(e) == Some(r) {
      CreditIsFresh(w, e, r);
    } else {
      RunFrame(w, e, r);
    }
  }

  /** What a claim does to the books of its campaign. */
  lemma ClaimBooks(w: World, r: nat)
    requires Enabled(w, Claim(r))
    ensures var w', x := ApplyClaim(w, r), w.runs[r];
      var c := x.data.campaign;
      var h, h', won := HistoryOf(w, c), HistoryOf(w', c), x.data.index in Pending(w, c);
      && w'.inbox == w.inbox && h'.plans == h.plans && h'.audits == h.audits
      && h'.counted == (if won then h.counted + x.credited else h.counted)
      && (won ==> c in w'.state && w'.state[c].sent == StateOf(w, c).sent + x.result)
      && (!won ==> w'.state == w.state)
  {
  }

  lemma ClaimKeepsCount(w: World, r: nat)
    requires Enabled(w, Claim(r)) && CreditOk(w, r) && RunOk(w, r)
    requires CountOk(w, w.runs[r].data.campaign) && CampaignOk(w, w.runs[r].data.campaign)
    ensures CountOk(ApplyClaim(w, r), w.runs[r].data.campaign)
  {
    var x := w.runs[r];
    var c := x.data.campaign;
    var h := HistoryOf(w, c);
    ClaimBooks(w, r);
    if x.data.index in Pending(w, c) {
      assert |h.counted + x.credited| == |h.counted| + |x.credited|;
      assert PlannedOnce(w, c) ==> c in w.state && h.audits == [];
    }
  }

  lemma StepKeepsCount(w: World, e: Event, c: Campaign)
    requires CountOk(w, c) && CampaignOk(w, c) && Enabled(w, e)
    requires e.Claim? ==> CreditOk(w, e.run) && RunOk(w, e.run)
    requires e.LogAudit? ==> RunOk(w, e.run)
    ensures CountOk(Apply(w, e), c)
  {
    if e.Claim? && w.runs[e.run].data.campaign == c {
      ClaimKeepsCount(w, e.run);
    } else {
      CountedFrame(w, e, c);
      PlansGrow(w, e, c);
      if Target(w, e) != Some(c) {
        StepFrame(w, e, c);
      }
    }
  }

  lemma StepKeepsCredit(w: World, e: Event)
    requires Inv(w) && CreditInv(w) && Enabled(w, e)
    ensures CreditInv(Apply(w, e))
  {
    var w' := Apply(w, e);
    forall r | r in w'.runs ensures CreditOk(w', r) {
      if Subject(e) == Some(r) {
        OwnCredit(w, e, r);
      } else {
        RunFrame(w, e, r);
        OtherCredit(w, e, r);
      }
    }
    forall r, r' | r in w'.runs && r' in w'.runs ensures Apart(w', r, r') {
      if Subject(e) != Some(r') {
        StepKeepsApart(w, e, r, r');
      } else if Subject(e) != Some(r) {
        StepKeepsApart(w, e, r', r);
      }
    }
    forall c: Campaign ensures CountOk(w', c) {
      assert CountOk(w, c) && CampaignOk(w, c);
      StepKeepsCount(w, e, c);
    }
    CountedFrame(w, e, Campaign(""));
  }

  lemma {:induction false} ExecKeepsCredit(w: World, es: seq<Event>)
    requires Inv(w) && CreditInv(w) && Valid(w, es)
    ensures CreditInv(Exec(w, es))
    decreases |es|
  {
    if es != [] {
      StepKeepsInv(w, es[0]);
      StepKeepsCredit(w, es[0]);
      ExecKeepsCredit(Apply(w, es[0]), es[1..]);
    }
  }

  /** `sent` is the number of distinct recipients counted, each of whom has a message; so it
      never exceeds the number of messages the campaign created. The completion audit
      reports that same number. */
  lemma SentNeverOverstates(es: seq<Event>, c: Campaign)
    requires Valid(Init(Inbox), es) && PlannedOnce(Exec(Init(Inbox), es), c)
    ensures var w := Exec(Init(Inbox), es);
      && HistoryOf(w, c).counted <= Messages(w, c)
      && (c in w.state ==> w.state[c].sent == |HistoryOf(w, c).counted| <= |Messages(w, c)|)
      && (forall a :: a in HistoryOf(w, c).audits ==> a.sent == |HistoryOf(w, c).counted| <= |Messages(w, c)|)
  {
    InitOk(Inbox);
    ExecKeepsCredit(Init(Inbox), es);
    var w := Exec(Init(Inbox), es);
    assert CountOk(w, c);
    var counted, messages := HistoryOf(w, c).counted, Messages(w, c);
    forall u | u in counted ensures u in messages {
      assert (c, u) in w.inbox;
    }
    SubsetSize(counted, messages);
  }
}
