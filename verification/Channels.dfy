/** Redis channel names of the realtime rooms and the routing of incoming channels. */
module Channels {
  import opened Base
  datatype RoomKind = Conversation | UserInbox | Presence | Guardian | SupportTicket

  /** A room: the channel it is fed from is `Name` of it. */
  datatype Channel = Channel(kind: RoomKind, id: string)

  /** The key builders, used to publish and to subscribe. */
  function Name(c: Channel): string {
    match c.kind
    case Conversation => "msg:conv:" + c.id
    case UserInbox => "msg:user:" + c.id
    case Presence => "presence:user:" + c.id
    case Guardian => "guardian:user:" + c.id
    case SupportTicket => "msg:support_ticket:" + c.id
  }

  /** The subscriber's own constants, which must match the key builders. */
  function Prefix(kind: RoomKind): string {
    match kind
    case Conversation => "msg:conv:"
    case UserInbox => "msg:user:"
    case Presence => "presence:user:"
    case Guardian => "guardian:user:"
    case SupportTicket => "msg:support_ticket:"
  }

  lemma PrefixesMatch(c: Channel)
    ensures Name(c) == Prefix(c.kind) + c.id
  {
  }

  /** One channel parser: the part after the prefix, unless it is missing or empty. */
  function Parse(kind: RoomKind, name: string): Option<string> {
    var p := Prefix(kind);
    if |name| > |p| && name[..|p|] == p then Some(name[|p|..]) else None
  }

  /** The message handler tries the parsers in this order and stops at the first match. */
  function Route(name: string): Option<Channel> {
    if Parse(Conversation, name).Some? then Some(Channel(Conversation, Parse(Conversation, name).value))
    else if Parse(UserInbox, name).Some? then Some(Channel(UserInbox, Parse(UserInbox, name).value))
    else if Parse(Presence, name).Some? then Some(Channel(Presence, Parse(Presence, name).value))
    else if Parse(Guardian, name).Some? then Some(Channel(Guardian, Parse(Guardian, name).value))
    else if Parse(SupportTicket, name).Some? then Some(Channel(SupportTicket, Parse(SupportTicket, name).value))
    else None
  }

  /** No prefix is a prefix of another, so at most one parser accepts a name. */
  lemma ParserIsUnique(k: RoomKind, k': RoomKind, name: string)
    requires |name| >= |Prefix(k)| && name[..|Prefix(k)|] == Prefix(k)
    requires |name| >= |Prefix(k')| && name[..|Prefix(k')|] == Prefix(k')
    ensures k == k'
  {
    assert name[0] == Prefix(k)[0] && name[4] == Prefix(k)[4];
    assert name[0] == Prefix(k')[0] && name[4] == Prefix(k')[4];
  }

  /** A name routes to a room exactly when it is that room's channel and the id is not empty;
      so the parsers' order does not matter. */
  lemma RouteInvertsName(name: string, c: Channel)
    ensures Route(name) == Some(c) <==> name == Name(c) && c.id != ""
  {
    PrefixesMatch(c);
    if Route(name) == Some(c) {
      assert name == Prefix(c.kind) + name[|Prefix(c.kind)|..];
    }
    if name == Name(c) && c.id != "" {
      var p := Prefix(c.kind);
      assert name[..|p|] == p && name[|p|..] == c.id;
      assert Parse(c.kind, name) == Some(c.id);
      forall k: RoomKind | Parse(k, name).Some? ensures k == c.kind {
        ParserIsUnique(k, c.kind, name);
      }
    }
  }

  /** Distinct rooms have distinct channels. */
  lemma NameIsInjective(c: Channel, c': Channel)
    requires Name(c) == Name(c')
    ensures c == c'
  {
    PrefixesMatch(c);
    PrefixesMatch(c');
    var name, p, p' := Name(c), Prefix(c.kind), Prefix(c'.kind);
    assert name[..|p|] == p && name[..|p'|] == p';
    ParserIsUnique(c.kind, c'.kind, name);
    assert name[|p|..] == c.id && name[|p'|..] == c'.id;
  }
}
