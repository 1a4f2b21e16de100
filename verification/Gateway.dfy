/** The gateway's handlers as code over the room index and the subscriber: each one performs
    the corresponding steps of the subscription machine. */
module Gateway {
  import opened Base
  import opened Channels
  import opened Subscriptions
  import Rooms

  type RoomIndex = Rooms.Index<Channel, Socket, string>

  function CountOf(refCounts: map<Channel, nat>, ch: Channel): nat {
    if ch in refCounts then refCounts[ch] else 0
  }

  /** The index holds exactly the machine's members. */
  ghost predicate SameMembers(x: RoomIndex, st: State) {
    forall ch: Channel, s: Socket :: Rooms.At(x, ch, s).Some? <==> s in Of(st, ch).members
  }

  /** The stored counts are the machine's, absent standing for 0. */
  ghost predicate SameCounts(refCounts: map<Channel, nat>, st: State) {
    && (forall ch :: ch in refCounts ==> refCounts[ch] > 0)
    && (forall ch: Channel :: CountOf(refCounts, ch) == Of(st, ch).refs)
  }

  lemma OtherChannel(st: State, e: Event, ch: Channel)
    requires Enabled(st, e) && ch != e.channel
    ensures Of(Apply(st, e), ch) == Of(st, ch)
  {
  }

  lemma JoinKeepsMembers(x: RoomIndex, st: State, ch: Channel, s: Socket, entry: string)
    requires Rooms.Valid(x) && SameMembers(x, st)
    ensures SameMembers(Rooms.Joined(x, ch, s, entry), Apply(st, JoinRoom(ch, s)))
  {
    Rooms.JoinedOk(x, ch, s, entry);
    var st' := Apply(st, JoinRoom(ch, s));
    forall r: Channel, t: Socket
      ensures Rooms.At(Rooms.Joined(x, ch, s, entry), r, t).Some? <==> t in Of(st', r).members
    {
      assert Rooms.At(x, r, t).Some? <==> t in Of(st, r).members;
      if r != ch { OtherChannel(st, JoinRoom(ch, s), r); }
    }
  }

  lemma LeaveKeepsMembers(x: RoomIndex, st: State, ch: Channel, s: Socket)
    requires Rooms.Valid(x) && SameMembers(x, st)
    ensures SameMembers(Rooms.Left(x, ch, s), Apply(st, LeaveRoom(ch, s)))
  {
    Rooms.LeftOk(x, ch, s);
    var st' := Apply(st, LeaveRoom(ch, s));
    forall r: Channel, t: Socket
      ensures Rooms.At(Rooms.Left(x, ch, s), r, t).Some? <==> t in Of(st', r).members
    {
      assert Rooms.At(x, r, t).Some? <==> t in Of(st, r).members;
      if r != ch { OtherChannel(st, LeaveRoom(ch, s), r); }
    }
  }

  lemma DropKeepsCounts(refCounts: map<Channel, nat>, refCounts': map<Channel, nat>, st: State, ch: Channel, s: Socket)
    requires SameCounts(refCounts, st) && s in Of(st, ch).members
    requires refCounts' == if CountOf(refCounts, ch) <= 1 then refCounts - {ch}
                           else refCounts[ch := CountOf(refCounts, ch) - 1]
    ensures SameCounts(refCounts', Apply(st, LeaveRoom(ch, s)))
    ensures Apply(st, LeaveRoom(ch, s)).issued ==
      st.issued + if CountOf(refCounts, ch) <= 1 then [Unsubscribe(ch)] else []
  {
    forall r: Channel ensures CountOf(refCounts', r) == Of(Apply(st, LeaveRoom(ch, s)), r).refs {
      assert CountOf(refCounts, r) == Of(st, r).refs;
      if r != ch { OtherChannel(st, LeaveRoom(ch, s), r); }
    }
  }

  class Subscriber {
    var refCounts: map<Channel, nat>
    var issued: seq<Command>

    constructor ()
      ensures refCounts == map[] && issued == []
    {
      refCounts, issued := map[], [];
    }

    ghost predicate Represents(st: State)
      reads this
    {
      issued == st.issued && SameCounts(refCounts, st)
    }

    /** The part of `subscribe` after its await. */
    method Bump(ch: Channel)
      modifies this
      ensures refCounts == old(refCounts)[ch := old(CountOf(refCounts, ch)) + 1]
      ensures issued == old(issued) + if old(CountOf(refCounts, ch)) == 0 then [Subscribe(ch)] else []
    {
      var n := (if ch in refCounts then refCounts[ch] else 0) + 1;
      refCounts := refCounts[ch := n];
      if n == 1 {
        issued := issued + [Subscribe(ch)];
      }
    }

    method Drop(ch: Channel)
      modifies this
      ensures refCounts == if old(CountOf(refCounts, ch)) <= 1 then old(refCounts) - {ch}
                           else old(refCounts)[ch := old(CountOf(refCounts, ch)) - 1]
      ensures issued == old(issued) + if old(CountOf(refCounts, ch)) <= 1 then [Unsubscribe(ch)] else []
    {
      var prev: int := if ch in refCounts then refCounts[ch] else 0;
      var n := prev - 1;
      if n <= 0 {
        refCounts := refCounts - {ch};
        issued := issued + [Unsubscribe(ch)];
      } else {
        refCounts := refCounts[ch := n];
      }
    }
  }

  class Hub {
    const rooms: Rooms.TwoWayRooms<Channel, Socket, string>
    const subscriber: Subscriber
    ghost var st: State

    /** Index, counts and issued commands are those of the machine's state. */
    ghost predicate Valid()
      reads this, rooms, subscriber
    {
      && Rooms.Valid(rooms.View())
      && SameMembers(rooms.View(), st)
      && subscriber.Represents(st)
    }

    constructor ()
      ensures Valid() && st == START && fresh(rooms) && fresh(subscriber)
    {
      rooms := new Rooms.TwoWayRooms();
      subscriber := new Subscriber();
      st := START;
    }

    /** Join; tells the caller whether to call subscribe. */
    method Join(ch: Channel, s: Socket, userId: string) returns (bump: bool)
      requires Valid()
      modifies this, rooms
      ensures Valid() && st == Apply(old(st), JoinRoom(ch, s))
      ensures bump <==> s !in old(Of(st, ch).members)
    {
      JoinKeepsMembers(rooms.View(), st, ch, s, userId);
      bump := rooms.Join(ch, s, userId);
      forall r: Channel ensures Of(Apply(st, JoinRoom(ch, s)), r).refs == Of(st, r).refs {
        if r != ch { OtherChannel(st, JoinRoom(ch, s), r); }
      }
      st := Apply(st, JoinRoom(ch, s));
    }

    /** The subscribe call resumes after its await. */
    method ResumeSubscribe(ch: Channel, ghost s: Socket)
      requires Valid() && s in Of(st, ch).inflight
      modifies this, subscriber
      ensures Valid() && st == Apply(old(st), BumpCount(ch, s))
    {
      subscriber.Bump(ch);
      forall r: Channel | r != ch ensures Of(Apply(st, BumpCount(ch, s)), r) == Of(st, r) {
        OtherChannel(st, BumpCount(ch, s), r);
      }
      st := Apply(st, BumpCount(ch, s));
    }

    method Leave(ch: Channel, s: Socket)
      requires Valid()
      modifies this, rooms, subscriber
      ensures Valid() && st == Apply(old(st), LeaveRoom(ch, s))
    {
      LeaveKeepsMembers(rooms.View(), st, ch, s);
      assert Rooms.At(rooms.View(), ch, s).Some? <==> s in Of(st, ch).members;
      ghost var counts := subscriber.refCounts;
      var present := rooms.Leave(ch, s);
      if present {
        subscriber.Drop(ch);
        DropKeepsCounts(counts, subscriber.refCounts, st, ch, s);
      }
      st := Apply(st, LeaveRoom(ch, s));
    }

    /** Closing a socket leaves every room it is in, once each, in one synchronous pass. */
    method Drain(s: Socket) returns (ghost es: seq<Event>)
      requires Valid()
      modifies this, rooms, subscriber
      ensures Valid()
      ensures Subscriptions.Valid(old(st), es) && st == Exec(old(st), es)
      ensures forall ch: Channel :: Of(st, ch).members == Of(old(st), ch).members - {s}
      ensures forall e :: e in es ==> e.LeaveRoom? && e.socket == s
    {
      ghost var before, index := st, rooms.View();
      var left := rooms.LeaveAllForSocket(s);
      ghost var after := rooms.View();
      es := [];
      var i := 0;
      while i < |left|
        invariant 0 <= i <= |left|
        invariant rooms.View() == after && subscriber.Represents(st)
        invariant Subscriptions.Valid(before, es) && st == Exec(before, es)
        invariant forall e :: e in es ==> e.LeaveRoom? && e.socket == s
        invariant LeftRooms(before, st, s, left[..i])
      {
        var ch := left[i];
        assert Rooms.At(index, ch, s).Some? <==> s in Of(before, ch).members;
        ghost var counts := subscriber.refCounts;
        LeaveNext(before, st, s, left, i);
        subscriber.Drop(ch);
        DropKeepsCounts(counts, subscriber.refCounts, st, ch, s);
        ThenOne(before, es, LeaveRoom(ch, s));
        st := Apply(st, LeaveRoom(ch, s));
        es := es + [LeaveRoom(ch, s)];
        i := i + 1;
      }
      assert left[..i] == left;
      Drained(index, after, before, st, s, left);
    }
  }

  /** Exactly the rooms listed have lost the socket. */
  ghost predicate LeftRooms(before: State, st: State, s: Socket, left: seq<Channel>) {
    forall ch: Channel ::
      Of(st, ch).members == if ch in left then Of(before, ch).members - {s} else Of(before, ch).members
  }

  lemma LeaveNext(before: State, st: State, s: Socket, left: seq<Channel>, i: nat)
    requires i < |left| && LeftRooms(before, st, s, left[..i])
    requires forall j, k :: 0 <= j < k < |left| ==> left[j] != left[k]
    requires s in Of(before, left[i]).members
    ensures s in Of(st, left[i]).members
    ensures LeftRooms(before, Apply(st, LeaveRoom(left[i], s)), s, left[..i + 1])
  {
    var e := LeaveRoom(left[i], s);
    assert left[i] !in left[..i] && left[..i + 1] == left[..i] + [left[i]];
    assert Of(st, left[i]).members == Of(before, left[i]).members;
    forall ch: Channel
      ensures Of(Apply(st, e), ch).members ==
        if ch in left[..i + 1] then Of(before, ch).members - {s} else Of(before, ch).members
    {
      if ch != left[i] { OtherChannel(st, e, ch); }
    }
  }

  lemma Drained(x: RoomIndex, y: RoomIndex, before: State, st: State, s: Socket, left: seq<Channel>)
    requires SameMembers(x, before) && LeftRooms(before, st, s, left)
    requires forall ch: Channel :: ch in left <==> Rooms.At(x, ch, s).Some?
    requires forall ch: Channel, t: Socket ::
      Rooms.At(y, ch, t) == if t == s then None else Rooms.At(x, ch, t)
    ensures SameMembers(y, st)
    ensures forall ch: Channel :: Of(st, ch).members == Of(before, ch).members - {s}
  {
    forall ch: Channel ensures Of(st, ch).members == Of(before, ch).members - {s} {
      assert Rooms.At(x, ch, s).Some? <==> s in Of(before, ch).members;
    }
    forall ch: Channel, t: Socket ensures Rooms.At(y, ch, t).Some? <==> t in Of(st, ch).members {
      assert Rooms.At(x, ch, t).Some? <==> t in Of(before, ch).members;
    }
  }

  lemma {:induction false} ThenOne(st: State, es: seq<Event>, e: Event)
    requires Subscriptions.Valid(st, es) && Enabled(Exec(st, es), e)
    ensures Subscriptions.Valid(st, es + [e]) && Exec(st, es + [e]) == Apply(Exec(st, es), e)
    decreases |es|
  {
    if es == [] {
      var st' := Apply(st, e);
      assert es + [e] == [e] && [e][1..] == [];
      assert Subscriptions.Valid(st', []) && Exec(st', []) == st';
    } else {
      ThenOne(Apply(st, es[0]), es[1..], e);
      assert (es + [e])[1..] == es[1..] + [e];
    }
  }
}
