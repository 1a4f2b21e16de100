/** The two-way room index kept per instance: which sockets are in a room, and which rooms
    a socket has joined. The conversation, presence, guardian, inbox and support-ticket room
    classes all have this shape. */
module Rooms {
  import opened Base

  datatype Index<Room, Socket, Entry> =
    Index(roomToSockets: map<Room, map<Socket, Entry>>, socketToRooms: map<Socket, set<Room>>)

  /** The abstract value of an index: the entry stored for a membership, if there is one. */
  function At<R, S, E>(x: Index<R, S, E>, room: R, socket: S): Option<E> {
    if room in x.roomToSockets && socket in x.roomToSockets[room]
    then Some(x.roomToSockets[room][socket]) else None
  }

  predicate Listed<R, S, E>(x: Index<R, S, E>, room: R, socket: S) {
    socket in x.socketToRooms && room in x.socketToRooms[socket]
  }

  /** The two indexes are exact inverses and hold no empty container. */
  ghost predicate Valid<R(!new), S(!new), E>(x: Index<R, S, E>) {
    && (forall r: R, s: S :: At(x, r, s).Some? <==> Listed(x, r, s))
    && (forall r :: r in x.roomToSockets ==> x.roomToSockets[r] != map[])
    && (forall s :: s in x.socketToRooms ==> x.socketToRooms[s] != {})
  }

  function Joined<R, S, E>(x: Index<R, S, E>, room: R, socket: S, entry: E): Index<R, S, E> {
    var inner := if room in x.roomToSockets then x.roomToSockets[room] else map[];
    var rooms := if socket in x.socketToRooms then x.socketToRooms[socket] else {};
    Index(x.roomToSockets[room := inner[socket := entry]], x.socketToRooms[socket := rooms + {room}])
  }

  /** Forward half of a leave: drop the socket, and the room once it is empty. */
  function Dropped<R, S, E>(m: map<R, map<S, E>>, room: R, socket: S): map<R, map<S, E>>
    requires room in m
  {
    var inner := m[room] - {socket};
    if inner == map[] then m - {room} else m[room := inner]
  }

  function Left<R, S, E>(x: Index<R, S, E>, room: R, socket: S): Index<R, S, E> {
    if At(x, room, socket).None? then x else
      var rooms := (if socket in x.socketToRooms then x.socketToRooms[socket] else {}) - {room};
      Index(Dropped(x.roomToSockets, room, socket),
            if rooms == {} then x.socketToRooms - {socket} else x.socketToRooms[socket := rooms])
  }

  lemma DroppedAt<R(!new), S(!new), E>(x: Index<R, S, E>, room: R, socket: S)
    requires room in x.roomToSockets
    ensures var y := x.(roomToSockets := Dropped(x.roomToSockets, room, socket));
      forall r: R, s: S :: At(y, r, s) == if s == socket && r == room then None else At(x, r, s)
  {
    var inner := x.roomToSockets[room] - {socket};
    var y := x.(roomToSockets := Dropped(x.roomToSockets, room, socket));
    forall r: R, s: S
      ensures At(y, r, s) == if s == socket && r == room then None else At(x, r, s)
    {
      assert s in x.roomToSockets[room] && s != socket ==> s in inner;
    }
  }

  /** A join sets exactly one membership, in both directions. */
  lemma JoinedOk<R(!new), S(!new), E>(x: Index<R, S, E>, room: R, socket: S, entry: E)
    requires Valid(x)
    ensures Valid(Joined(x, room, socket, entry))
    ensures forall r: R, s: S ::
      At(Joined(x, room, socket, entry), r, s) == if r == room && s == socket then Some(entry) else At(x, r, s)
  {
    var y := Joined(x, room, socket, entry);
    forall r: R, s: S
      ensures At(y, r, s) == if r == room && s == socket then Some(entry) else At(x, r, s)
      ensures At(y, r, s).Some? <==> Listed(y, r, s)
    {
      assert At(x, r, s).Some? <==> Listed(x, r, s);
    }
    assert socket in y.roomToSockets[room] && room in y.socketToRooms[socket];
  }

  /** A leave removes exactly one membership, in both directions. */
  lemma LeftOk<R(!new), S(!new), E>(x: Index<R, S, E>, room: R, socket: S)
    requires Valid(x)
    ensures Valid(Left(x, room, socket))
    ensures forall r: R, s: S ::
      At(Left(x, room, socket), r, s) == if r == room && s == socket then None else At(x, r, s)
  {
    var y := Left(x, room, socket);
    assert At(x, room, socket).Some? <==> Listed(x, room, socket);
    if At(x, room, socket).Some? {
      DroppedAt(x, room, socket);
      assert forall r: R, s: S :: At(y, r, s) == At(x.(roomToSockets := y.roomToSockets), r, s);
    }
    forall r: R, s: S
      ensures At(y, r, s) == if r == room && s == socket then None else At(x, r, s)
      ensures At(y, r, s).Some? <==> Listed(y, r, s)
    {
      assert At(x, r, s).Some? <==> Listed(x, r, s);
      assert s == socket && r != room && Listed(x, r, s) ==> r in x.socketToRooms[socket] - {room};
    }
  }

  class TwoWayRooms<Room(==, !new), Socket(==, !new), Entry> {
    var roomToSockets: map<Room, map<Socket, Entry>>
    var socketToRooms: map<Socket, set<Room>>

    ghost function View(): Index<Room, Socket, Entry>
      reads this
    {
      Index(roomToSockets, socketToRooms)
    }

    ghost function RoomsOf(s: Socket): set<Room>
      reads this
    {
      set r | r in roomToSockets && At(View(), r, s).Some?
    }

    constructor ()
      ensures Valid(View()) && View() == Index(map[], map[])
    {
      roomToSockets, socketToRooms := map[], map[];
    }

    /** Returns whether the socket was not yet in the room. */
    method Join(room: Room, socket: Socket, entry: Entry) returns (first: bool)
      requires Valid(View())
      modifies this
      ensures Valid(View())
      ensures first == old(At(View(), room, socket)).None?
      ensures View() == Joined(old(View()), room, socket, entry)
    {
      JoinedOk(View(), room, socket, entry);
      var inner := if room in roomToSockets then roomToSockets[room] else map[];
      first := socket !in inner;
      roomToSockets := roomToSockets[room := inner[socket := entry]];
      var rooms := if socket in socketToRooms then socketToRooms[socket] else {};
      socketToRooms := socketToRooms[socket := rooms + {room}];
    }

    /** Returns whether the socket was in the room. */
    method Leave(room: Room, socket: Socket) returns (present: bool)
      requires Valid(View())
      modifies this
      ensures Valid(View())
      ensures present == old(At(View(), room, socket)).Some?
      ensures View() == Left(old(View()), room, socket)
    {
      LeftOk(View(), room, socket);
      if room !in roomToSockets || socket !in roomToSockets[room] {
        return false;
      }
      assert At(View(), room, socket).Some? <==> Listed(View(), room, socket);
      var inner := roomToSockets[room] - {socket};
      roomToSockets := if |inner| == 0 then roomToSockets - {room} else roomToSockets[room := inner];
      if socket in socketToRooms {
        var rooms := socketToRooms[socket] - {room};
        socketToRooms := if |rooms| == 0 then socketToRooms - {socket} else socketToRooms[socket := rooms];
      }
      present := true;
    }

    /** Empties the socket's rooms: each is reported once, nobody else's membership changes. */
    method LeaveAllForSocket(socket: Socket) returns (emptied: seq<Room>)
      requires Valid(View())
      modifies this
      ensures Valid(View())
      ensures forall i, j :: 0 <= i < j < |emptied| ==> emptied[i] != emptied[j]
      ensures forall r :: r in emptied <==> old(At(View(), r, socket)).Some?
      ensures forall r: Room, s: Socket ::
        At(View(), r, s) == if s == socket then None else old(At(View(), r, s))
    {
      ghost var before := View();
      if socket !in socketToRooms {
        assert forall r: Room :: !Listed(before, r, socket);
        return [];
      }
      var rooms := socketToRooms[socket];
      var todo := rooms;
      emptied := [];
      while todo != {}
        invariant todo <= rooms
        invariant forall i, j :: 0 <= i < j < |emptied| ==> emptied[i] != emptied[j]
        invariant forall r :: r in emptied <==> r in rooms && r !in todo
        invariant forall r :: r in roomToSockets ==> roomToSockets[r] != map[]
        invariant forall r: Room, s: Socket ::
          At(View(), r, s) == if s == socket && r in emptied then None else At(before, r, s)
        invariant socketToRooms == before.socketToRooms
        decreases todo
      {
        var room :| room in todo;
        assert Listed(before, room, socket);
        assert At(View(), room, socket) == At(before, room, socket);
        if room in roomToSockets && socket in roomToSockets[room] {
          var inner := roomToSockets[room] - {socket};
          emptied := emptied + [room];
          DroppedAt(View(), room, socket);
          roomToSockets := if |inner| == 0 then roomToSockets - {room} else roomToSockets[room := inner];
        }
        todo := todo - {room};
      }
      socketToRooms := socketToRooms - {socket};
      Emptied(before, View(), socket, emptied);
    }

    lemma Emptied(x: Index<Room, Socket, Entry>, y: Index<Room, Socket, Entry>, socket: Socket, emptied: seq<Room>)
      requires Valid(x)
      requires forall r: Room :: r in emptied <==> Listed(x, r, socket)
      requires forall r :: r in y.roomToSockets ==> y.roomToSockets[r] != map[]
      requires forall r: Room, s: Socket ::
        At(y, r, s) == if s == socket && r in emptied then None else At(x, r, s)
      requires y.socketToRooms == x.socketToRooms - {socket}
      ensures Valid(y)
      ensures forall r: Room, s: Socket :: At(y, r, s) == if s == socket then None else At(x, r, s)
    {
      forall r: Room, s: Socket
        ensures At(y, r, s) == if s == socket then None else At(x, r, s)
        ensures At(y, r, s).Some? <==> Listed(y, r, s)
      {
        assert At(x, r, s).Some? <==> Listed(x, r, s);
      }
    }

    method HasRoom(room: Room) returns (found: bool)
      requires Valid(View())
      ensures found <==> exists s: Socket :: At(View(), room, s).Some?
    {
      found := room in roomToSockets && |roomToSockets[room]| > 0;
      if found {
        var s :| s in roomToSockets[room];
        assert At(View(), room, s).Some?;
      }
    }

    /** The count read off the reverse index is the number of rooms that hold the socket. */
    method JoinedCount(socket: Socket) returns (n: nat)
      requires Valid(View())
      ensures n == |RoomsOf(socket)|
    {
      n := if socket in socketToRooms then |socketToRooms[socket]| else 0;
      assert RoomsOf(socket) == if socket in socketToRooms then socketToRooms[socket] else {} by {
        forall r: Room ensures r in RoomsOf(socket) <==> Listed(View(), r, socket) {
          assert At(View(), r, socket).Some? <==> Listed(View(), r, socket);
        }
      }
    }
  }
}
