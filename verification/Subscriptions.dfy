/** Room membership and the reference-counted Redis subscription, over every interleaving
    of sockets.

    A join puts the socket in the room at once, but its subscribe call bumps the channel's
    count only after an await; a leave decrements the count synchronously. With a started
    subscriber the await is one microtask, which a frame or the close of the same socket does
    not enter; that is `Serialised`, and the witnesses without it show why it is needed. */
module Subscriptions {
  import opened Base
  import opened Channels

  datatype Socket = Socket(id: string)

  datatype Command = Subscribe(channel: Channel) | Unsubscribe(channel: Channel)

  /** Per channel: the sockets in the room, the subscribe calls still behind their await, the
      reference count (0 when absent), and how often a decrement found nothing to decrement. */
  datatype Interest = Interest(members: set<Socket>, inflight: multiset<Socket>, refs: nat, clamped: nat)
  const IDLE := Interest({}, multiset{}, 0, 0)

  datatype State = State(rooms: map<Channel, Interest>, issued: seq<Command>)

  function Of(st: State, ch: Channel): Interest {
    if ch in st.rooms then st.rooms[ch] else IDLE
  }

  datatype Event =
    | JoinRoom(channel: Channel, socket: Socket)
    | BumpCount(channel: Channel, socket: Socket)
    | LeaveRoom(channel: Channel, socket: Socket)

  predicate Enabled(st: State, e: Event) {
    e.BumpCount? ==> e.socket in Of(st, e.channel).inflight
  }

  function Bump(st: State, ch: Channel): (nat, seq<Command>) {
    var n := Of(st, ch).refs + 1;
    (n, if n == 1 then [Subscribe(ch)] else [])
  }

  function Drop(st: State, ch: Channel): (nat, seq<Command>) {
    var n := Of(st, ch).refs - 1;
    if n <= 0 then (0, [Unsubscribe(ch)]) else (n, [])
  }

  function Apply(st: State, e: Event): State
    requires Enabled(st, e)
  {
    var ch, s, x := e.channel, e.socket, Of(st, e.channel);
    match e
    case JoinRoom(_, _) =>
      if s in x.members then st else
        st.(rooms := st.rooms[ch := x.(members := x.members + {s}, inflight := x.inflight + multiset{s})])
    case BumpCount(_, _) =>
      var (n, commands) := Bump(st, ch);
      State(st.rooms[ch := x.(inflight := x.inflight - multiset{s}, refs := n)], st.issued + commands)
    case LeaveRoom(_, _) =>
      if s !in x.members then st else
        var (n, commands) := Drop(st, ch);
        var clamped := if x.refs == 0 then x.clamped + 1 else x.clamped;
        State(st.rooms[ch := x.(members := x.members - {s}, refs := n, clamped := clamped)], st.issued + commands)
  }

  predicate Valid(st: State, es: seq<Event>)
    decreases |es|
  {
    es == [] || (Enabled(st, es[0]) && Valid(Apply(st, es[0]), es[1..]))
  }

  function Exec(st: State, es: seq<Event>): State
    requires Valid(st, es)
    decreases |es|
  {
    if es == [] then st else Exec(Apply(st, es[0]), es[1..])
  }

  const START := State(map[], [])

  function Obey(subscribed: set<Channel>, c: Command): set<Channel> {
    match c
    case Subscribe(ch) => subscribed + {ch}
    case Unsubscribe(ch) => subscribed - {ch}
  }

  /** The channels a fresh connection ends up subscribed to after these commands. */
  function Replay(commands: seq<Command>): set<Channel> {
    if commands == [] then {} else
      Obey(Replay(commands[..|commands| - 1]), commands[|commands| - 1])
  }

  lemma ReplayAppend(commands: seq<Command>, c: Command)
    ensures Replay(commands + [c]) == Obey(Replay(commands), c)
  {
    assert (commands + [c])[..|commands|] == commands;
  }

  // ---------------------------------------------------------------- every interleaving

  predicate Balanced(x: Interest) {
    x.refs + |x.inflight| == |x.members| + x.clamped
  }

  ghost predicate Tracked(st: State) {
    && (forall ch: Channel :: Balanced(Of(st, ch)))
    && (forall ch: Channel :: ch in Replay(st.issued) <==> Of(st, ch).refs > 0)
  }

  lemma StepBalanced(st: State, e: Event, ch: Channel)
    requires Enabled(st, e) && Balanced(Of(st, ch))
    ensures Balanced(Of(Apply(st, e), ch))
  {
    if ch != e.channel {
      assert Of(Apply(st, e), ch) == Of(st, ch);
    }
  }

  /** The command a step issues, if any. */
  function Issues(st: State, e: Event): seq<Command> {
    var x := Of(st, e.channel);
    match e
    case JoinRoom(_, _) => []
    case BumpCount(ch, _) => Bump(st, ch).1
    case LeaveRoom(ch, s) => if s in x.members then Drop(st, ch).1 else []
  }

  lemma StepIssues(st: State, e: Event)
    requires Enabled(st, e)
    ensures Apply(st, e).issued == st.issued + Issues(st, e)
  {
  }

  lemma ReplayIssues(issued: seq<Command>, more: seq<Command>)
    requires |more| <= 1
    ensures Replay(issued + more) == if more == [] then Replay(issued) else Obey(Replay(issued), more[0])
  {
    if more == [] {
      assert issued + more == issued;
    } else {
      assert more == [more[0]];
      ReplayAppend(issued, more[0]);
    }
  }

  /** One step keeps the subscribed channels those with a positive count. */
  lemma StepObeys(st: State, e: Event, ch: Channel, subscribed: set<Channel>)
    requires Enabled(st, e) && (ch in subscribed <==> Of(st, ch).refs > 0)
    ensures var subscribed' := if Issues(st, e) == [] then subscribed else Obey(subscribed, Issues(st, e)[0]);
      ch in subscribed' <==> Of(Apply(st, e), ch).refs > 0
  {
    if ch != e.channel {
      assert Of(Apply(st, e), ch) == Of(st, ch);
    }
  }

  lemma StepReplayed(st: State, e: Event, ch: Channel)
    requires Enabled(st, e) && (ch in Replay(st.issued) <==> Of(st, ch).refs > 0)
    ensures ch in Replay(Apply(st, e).issued) <==> Of(Apply(st, e), ch).refs > 0
  {
    StepIssues(st, e);
    ReplayIssues(st.issued, Issues(st, e));
    StepObeys(st, e, ch, Replay(st.issued));
  }

  lemma StepTracked(st: State, e: Event)
    requires Tracked(st) && Enabled(st, e)
    ensures Tracked(Apply(st, e))
  {
    forall ch: Channel
      ensures Balanced(Of(Apply(st, e), ch))
      ensures ch in Replay(Apply(st, e).issued) <==> Of(Apply(st, e), ch).refs > 0
    {
      assert Balanced(Of(st, ch));
      StepBalanced(st, e, ch);
      StepReplayed(st, e, ch);
    }
  }

  lemma {:induction false} ExecTracked(st: State, es: seq<Event>)
    requires Tracked(st) && Valid(st, es)
    ensures Tracked(Exec(st, es))
    decreases |es|
  {
    if es != [] {
      StepTracked(st, es[0]);
      ExecTracked(Apply(st, es[0]), es[1..]);
    }
  }

  /** In every interleaving, even one where a leave overtakes the bump of its own join: the
      commands issued leave exactly the channels with a positive count subscribed, and the
      count plus the pending bumps exceeds the room size by the number of clamped decrements.
      So count and room agree if and only if the clamp never fired on that channel. */
  lemma CountAgreesIffNeverClamped(es: seq<Event>, ch: Channel)
    requires Valid(START, es)
    ensures var st := Exec(START, es);
      var x := Of(st, ch);
      && (ch in Replay(st.issued) <==> x.refs > 0)
      && x.refs + |x.inflight| == |x.members| + x.clamped
      && (x.refs + |x.inflight| == |x.members| <==> x.clamped == 0)
  {
    ExecTracked(START, es);
    assert Balanced(Of(Exec(START, es), ch));
  }

  /** A leave fires the clamp exactly when the socket is in the room and no bump of the channel
      has gone through: a condition on the state before the leave. */
  lemma LeaveClampsIff(st: State, ch: Channel, s: Socket)
    ensures Of(Apply(st, LeaveRoom(ch, s)), ch).clamped > Of(st, ch).clamped
       <==> s in Of(st, ch).members && Of(st, ch).refs == 0
  {
  }

  // ---------------------------------------------------------------- serialised sockets

  /** A socket's own leave does not overtake the bump of its own join. */
  predicate Serialised(st: State, e: Event) {
    e.LeaveRoom? ==> e.socket !in Of(st, e.channel).inflight
  }

  predicate SerialRun(st: State, es: seq<Event>)
    requires Valid(st, es)
    decreases |es|
  {
    es == [] || (Serialised(st, es[0]) && SerialRun(Apply(st, es[0]), es[1..]))
  }

  /** Each pending bump belongs to a member, and no decrement was ever clamped. */
  ghost predicate OrderlyAt(x: Interest) {
    x.clamped == 0 && forall s :: x.inflight[s] <= if s in x.members then 1 else 0
  }

  ghost predicate Orderly(st: State) {
    forall ch: Channel :: OrderlyAt(Of(st, ch))
  }

  lemma {:induction false} InflightBelowMembers(inflight: multiset<Socket>, members: set<Socket>)
    requires forall s :: inflight[s] <= if s in members then 1 else 0
    ensures |inflight| <= |members|
    decreases |inflight|
  {
    if |inflight| > 0 {
      var s :| s in inflight;
      assert s in members;
      InflightBelowMembers(inflight - multiset{s}, members - {s});
    }
  }

  lemma StepOrderlyAt(st: State, e: Event)
    requires Balanced(Of(st, e.channel)) && OrderlyAt(Of(st, e.channel)) && Enabled(st, e) && Serialised(st, e)
    ensures OrderlyAt(Of(Apply(st, e), e.channel))
  {
    var x := Of(st, e.channel);
    if e.LeaveRoom? && e.socket in x.members {
      InflightBelowMembers(x.inflight, x.members - {e.socket});
    }
  }

  lemma StepOrderly(st: State, e: Event)
    requires Tracked(st) && Orderly(st) && Enabled(st, e) && Serialised(st, e)
    ensures Orderly(Apply(st, e))
  {
    forall ch: Channel ensures OrderlyAt(Of(Apply(st, e), ch)) {
      assert OrderlyAt(Of(st, ch)) && Balanced(Of(st, ch));
      if ch == e.channel {
        StepOrderlyAt(st, e);
      } else {
        assert Of(Apply(st, e), ch) == Of(st, ch);
      }
    }
  }

  lemma {:induction false} ExecOrderly(st: State, es: seq<Event>)
    requires Tracked(st) && Orderly(st) && Valid(st, es) && SerialRun(st, es)
    ensures Orderly(Exec(st, es))
    decreases |es|
  {
    if es != [] {
      StepOrderly(st, es[0]);
      StepTracked(st, es[0]);
      ExecOrderly(Apply(st, es[0]), es[1..]);
    }
  }

  /** With serialised sockets the clamp never fires, count plus pending bumps is the number of
      sockets in the room, and once no bump is pending the connection is subscribed to a
      channel exactly when its room has a member. */
  lemma SerialisedCountsAgree(es: seq<Event>, ch: Channel)
    requires Valid(START, es) && SerialRun(START, es)
    ensures var st := Exec(START, es);
      var x := Of(st, ch);
      && x.clamped == 0
      && x.refs + |x.inflight| == |x.members|
      && (x.inflight == multiset{} ==> (ch in Replay(st.issued) <==> x.members != {}))
  {
    ExecTracked(START, es);
    ExecOrderly(START, es);
    assert Balanced(Of(Exec(START, es), ch)) && OrderlyAt(Of(Exec(START, es), ch));
  }

  /** Why it is needed: a count could leak, the room empty and the channel still subscribed. */
  lemma OvertakingLeaks(ch: Channel, s: Socket)
    ensures var es := [JoinRoom(ch, s), LeaveRoom(ch, s), BumpCount(ch, s)];
      && Valid(START, es)
      && Of(Exec(START, es), ch) == Interest({}, multiset{}, 1, 1)
  {
    var es := [JoinRoom(ch, s), LeaveRoom(ch, s), BumpCount(ch, s)];
    var s1 := Apply(START, es[0]);
    assert Of(s1, ch) == Interest({s}, multiset{s}, 0, 0);
    var s2 := Apply(s1, es[1]);
    assert Of(s2, ch) == Interest({}, multiset{s}, 0, 1);
    var s3 := Apply(s2, es[2]);
    assert es[1..][1..] == [es[2]] && es[1..][1..][1..] == [];
    assert Valid(s3, []) && Exec(s3, []) == s3;
    assert Valid(s2, [es[2]]) && Exec(s2, [es[2]]) == s3;
    assert Valid(s1, es[1..]) && Exec(s1, es[1..]) == s3;
    assert Valid(START, es) && Exec(START, es) == s3;
  }

  // ---------------------------------------------------------------- who is heard

  /** The members whose own bump has gone through. */
  function Settled(x: Interest): set<Socket> {
    set s | s in x.members && s !in x.inflight
  }

  /** The pending bumps that belong to no present membership: their join was overtaken by a
      leave. */
  function Overtaken(x: Interest): multiset<Socket> {
    x.inflight - multiset(x.members)
  }

  lemma InflightSplits(x: Interest)
    ensures |x.inflight| == |Overtaken(x)| + |x.members| - |Settled(x)|
  {
    assert x.inflight * multiset(x.members) == multiset(x.members - Settled(x));
    assert Settled(x) <= x.members;
  }

  /** In every interleaving the count is that of the settled members, short of the overtaken
      bumps and above by the clamped decrements; so settled members are on a subscribed channel
      exactly when they and the clamped decrements outnumber the overtaken bumps. */
  lemma SettledIsHeardIff(es: seq<Event>, ch: Channel)
    requires Valid(START, es)
    ensures var st := Exec(START, es);
      var x := Of(st, ch);
      && x.refs + |Overtaken(x)| == |Settled(x)| + x.clamped
      && (ch in Replay(st.issued) <==> |Overtaken(x)| < |Settled(x)| + x.clamped)
  {
    CountAgreesIffNeverClamped(es, ch);
    InflightSplits(Of(Exec(START, es), ch));
  }

  /** With serialised sockets no bump is overtaken: at every moment a channel is subscribed
      exactly when it has a settled member. */
  lemma SerialisedIsHeard(es: seq<Event>, ch: Channel)
    requires Valid(START, es) && SerialRun(START, es)
    ensures var st := Exec(START, es);
      var x := Of(st, ch);
      && Overtaken(x) == multiset{} && x.refs == |Settled(x)|
      && (ch in Replay(st.issued) <==> Settled(x) != {})
  {
    SettledIsHeardIff(es, ch);
    ExecTracked(START, es);
    ExecOrderly(START, es);
    var x := Of(Exec(START, es), ch);
    assert OrderlyAt(x);
    forall s ensures Overtaken(x)[s] == 0 {
    }
  }

  /** Every settled member of the channel is on a subscribed channel. */
  predicate Heard(st: State, ch: Channel) {
    Settled(Of(st, ch)) != {} ==> Of(st, ch).refs > 0
  }

  /** A member leaves at count 1 although the bump of another one has gone through. */
  predicate Deafens(st: State, e: Event, ch: Channel) {
    var x := Of(st, ch);
    && e.LeaveRoom? && e.channel == ch && e.socket in x.members && x.refs == 1
    && Settled(x) - {e.socket} != {}
  }

  lemma StepHeard(st: State, e: Event, ch: Channel)
    requires Enabled(st, e) && Heard(st, ch)
    ensures Heard(Apply(st, e), ch) <==> !Deafens(st, e, ch)
  {
    var x, x' := Of(st, ch), Of(Apply(st, e), ch);
    if ch != e.channel {
      assert x' == x;
    } else if e.LeaveRoom? && e.socket in x.members {
      assert Settled(x') == Settled(x) - {e.socket};
    } else if e.JoinRoom? {
      assert Settled(x') == Settled(x);
    }
  }

  predicate AlwaysHeard(st: State, es: seq<Event>, ch: Channel)
    requires Valid(st, es)
    decreases |es|
  {
    Heard(st, ch) && (es == [] || AlwaysHeard(Apply(st, es[0]), es[1..], ch))
  }

  predicate NeverDeafens(st: State, es: seq<Event>, ch: Channel)
    requires Valid(st, es)
    decreases |es|
  {
    es == [] || (!Deafens(st, es[0], ch) && NeverDeafens(Apply(st, es[0]), es[1..], ch))
  }

  /** Settled members are heard throughout a run if and only if no leave of it deafens. */
  lemma {:induction false} AlwaysHeardIff(st: State, es: seq<Event>, ch: Channel)
    requires Valid(st, es) && Heard(st, ch)
    ensures AlwaysHeard(st, es, ch) <==> NeverDeafens(st, es, ch)
    decreases |es|
  {
    if es != [] {
      StepHeard(st, es[0], ch);
      if !Deafens(st, es[0], ch) {
        AlwaysHeardIff(Apply(st, es[0]), es[1..], ch);
      }
    }
  }

  /** Without serialised sockets: `t` has settled, `s` joins and leaves within the await of its own
      subscribe, and the channel of `t` is unsubscribed although no decrement was clamped. */
  lemma OvertakingDeafens(ch: Channel, s: Socket, t: Socket)
    requires s != t
    ensures var es := [JoinRoom(ch, t), BumpCount(ch, t), JoinRoom(ch, s), LeaveRoom(ch, s)];
      && Valid(START, es)
      && Of(Exec(START, es), ch) == Interest({t}, multiset{s}, 0, 0)
      && Settled(Of(Exec(START, es), ch)) == {t}
  {
    var es := [JoinRoom(ch, t), BumpCount(ch, t), JoinRoom(ch, s), LeaveRoom(ch, s)];
    var s1 := Apply(START, es[0]);
    assert Of(s1, ch) == Interest({t}, multiset{t}, 0, 0);
    var s2 := Apply(s1, es[1]);
    assert Of(s2, ch) == Interest({t}, multiset{}, 1, 0);
    var s3 := Apply(s2, es[2]);
    assert Of(s3, ch) == Interest({t, s}, multiset{s}, 1, 0);
    var s4 := Apply(s3, es[3]);
    assert Of(s4, ch) == Interest({t}, multiset{s}, 0, 0);
    assert es[1..][1..] == es[2..] && es[2..][1..] == [es[3]] && [es[3]][1..] == [];
    assert Valid(s4, []) && Exec(s4, []) == s4;
    assert Valid(s3, [es[3]]) && Exec(s3, [es[3]]) == s4;
    assert Valid(s2, es[2..]) && Exec(s2, es[2..]) == s4;
    assert Valid(s1, es[1..]) && Exec(s1, es[1..]) == s4;
  }

  // ---------------------------------------------------------------- the room limit

  /** JOIN checks the number of joined conversations first and joins after database awaits.
      `joined`: conversations per socket; `checked`: sockets between check and join. */
  datatype Limits = Limits(joined: map<Socket, set<string>>, checked: set<Socket>)

  datatype LimitEvent =
    | Check(socket: Socket)
    | Reject(socket: Socket)                        // not a member of the conversation
    | Commit(socket: Socket, conversation: string)
    | Leave(socket: Socket, conversation: string)
    | Drain(socket: Socket)

  function JoinedBy(l: Limits, s: Socket): set<string> {
    if s in l.joined then l.joined[s] else {}
  }

  /** Frames of one socket are handled one after the other. */
  predicate LimitEnabled(l: Limits, e: LimitEvent) {
    match e
    case Check(s) => s !in l.checked
    case Reject(s) => s in l.checked
    case Commit(s, _) => s in l.checked
    case Leave(s, _) => s !in l.checked
    case Drain(s) => true
  }

  function LimitApply(l: Limits, max: nat, e: LimitEvent): Limits {
    match e
    case Check(s) => if |JoinedBy(l, s)| >= max then l else l.(checked := l.checked + {s})
    case Reject(s) => l.(checked := l.checked - {s})
    case Commit(s, c) => Limits(l.joined[s := JoinedBy(l, s) + {c}], l.checked - {s})
    case Leave(s, c) => l.(joined := l.joined[s := JoinedBy(l, s) - {c}])
    case Drain(s) => l.(joined := l.joined - {s})
  }

  function LimitExec(l: Limits, max: nat, es: seq<LimitEvent>): Limits {
    if es == [] then l else LimitApply(LimitExec(l, max, es[..|es| - 1]), max, es[|es| - 1])
  }

  predicate LimitRun(l: Limits, max: nat, es: seq<LimitEvent>) {
    es == [] || (LimitRun(l, max, es[..|es| - 1])
                 && LimitEnabled(LimitExec(l, max, es[..|es| - 1]), es[|es| - 1]))
  }

  /** No run of serialised JOINs takes a socket above the configured number of rooms. */
  lemma {:induction false} RoomLimitHolds(max: nat, es: seq<LimitEvent>, s: Socket)
    requires LimitRun(Limits(map[], {}), max, es)
    ensures var l := LimitExec(Limits(map[], {}), max, es);
      |JoinedBy(l, s)| <= max && (s in l.checked ==> |JoinedBy(l, s)| < max)
  {
    if es != [] {
      RoomLimitHolds(max, es[..|es| - 1], s);
      var l := LimitExec(Limits(map[], {}), max, es[..|es| - 1]);
      var e := es[|es| - 1];
      if e.Leave? {
        SubsetSize(JoinedBy(l, s) - {e.conversation}, JoinedBy(l, s));
      }
    }
  }

  /** Below the limit a JOIN passes its check and its commit joins the conversation; at the limit
      no commit follows it. */
  lemma JoinBelowLimit(max: nat, l: Limits, s: Socket, c: string)
    requires s !in l.checked
    ensures LimitEnabled(l, Check(s))
    ensures LimitEnabled(LimitApply(l, max, Check(s)), Commit(s, c)) <==> |JoinedBy(l, s)| < max
    ensures |JoinedBy(l, s)| < max ==>
      var l' := LimitApply(LimitApply(l, max, Check(s)), max, Commit(s, c));
      JoinedBy(l', s) == JoinedBy(l, s) + {c} && s !in l'.checked
  {
  }

  /** The last event about the socket and the conversation was its commit. */
  predicate InRoom(es: seq<LimitEvent>, s: Socket, c: string) {
    es != [] &&
    match es[|es| - 1]
    case Commit(s', c') => (s' == s && c' == c) || InRoom(es[..|es| - 1], s, c)
    case Leave(s', c') => !(s' == s && c' == c) && InRoom(es[..|es| - 1], s, c)
    case Drain(s') => s' != s && InRoom(es[..|es| - 1], s, c)
    case _ => InRoom(es[..|es| - 1], s, c)
  }

  /** After any run a socket is in exactly the conversations it last committed to. */
  lemma {:induction false} RoomsFromEvents(max: nat, es: seq<LimitEvent>, s: Socket, c: string)
    ensures c in JoinedBy(LimitExec(Limits(map[], {}), max, es), s) <==> InRoom(es, s, c)
  {
    if es != [] {
      RoomsFromEvents(max, es[..|es| - 1], s, c);
    }
  }
}
