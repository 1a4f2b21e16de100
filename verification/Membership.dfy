/** Agency membership of hosts: the current row per host, the history of past memberships,
    and which agency a credit at a given time counts for. */
module Membership {
  import opened Base

  datatype Account = Account(id: string)

  datatype Current = Current(agency: Account, joinedAt: int)
  datatype Past = Past(agency: Account, host: Account, joinedAt: int, exitedAt: int)

  /** `hosts` is keyed by the host, which is the table's primary key. */
  datatype Tables = Tables(hosts: map<Account, Current>, history: seq<Past>)

  datatype Event =
    | Join(agency: Account, host: Account, now: int)
    | Exit(agency: Account, host: Account, now: int)

  /** A second insert for the same host violates the primary key and is rolled back; an exit
      from an agency the host is not in does nothing. */
  function Apply(tb: Tables, e: Event): Tables {
    match e
    case Join(a, h, now) =>
      if h in tb.hosts then tb else tb.(hosts := tb.hosts[h := Current(a, now)])
    case Exit(a, h, now) =>
      if h in tb.hosts && tb.hosts[h].agency == a then
        Tables(tb.hosts - {h}, tb.history + [Past(a, h, tb.hosts[h].joinedAt, now)])
      else tb
  }

  function Exec(es: seq<Event>): Tables {
    if es == [] then Tables(map[], []) else Apply(Exec(es[..|es| - 1]), es[|es| - 1])
  }

  predicate Chronological(es: seq<Event>) {
    forall i, j :: 0 <= i < j < |es| ==> es[i].now <= es[j].now
  }

  // ---------------------------------------------------------------- the repository code

  class Repository {
    var hosts: map<Account, Current>
    var history: seq<Past>

    ghost function Rows(): Tables
      reads this
    {
      Tables(hosts, history)
    }

    constructor ()
      ensures Rows() == Exec([])
    {
      hosts, history := map[], [];
    }

    /** False on a primary-key violation. */
    method InsertHost(agency: Account, host: Account, now: int) returns (ok: bool)
      modifies this
      ensures ok <==> host !in old(hosts)
      ensures Rows() == Apply(old(Rows()), Join(agency, host, now))
    {
      ok := host !in hosts;
      if ok {
        hosts := hosts[host := Current(agency, now)];
      }
    }

    /** History row with the removed row's join time, then the removal, in one transaction. */
    method FinalizeExit(agency: Account, host: Account, now: int) returns (left: bool)
      modifies this
      ensures left <==> host in old(hosts) && old(hosts)[host].agency == agency
      ensures Rows() == Apply(old(Rows()), Exit(agency, host, now))
    {
      if host !in hosts || hosts[host].agency != agency {
        return false;
      }
      history := history + [Past(agency, host, hosts[host].joinedAt, now)];
      hosts := hosts - {host};
      left := true;
    }
  }

  // ---------------------------------------------------------------- attribution

  predicate InCurrent(tb: Tables, a: Account, h: Account, t: int) {
    h in tb.hosts && tb.hosts[h].agency == a && tb.hosts[h].joinedAt <= t
  }

  predicate Covers(p: Past, h: Account, t: int) {
    p.host == h && p.joinedAt <= t < p.exitedAt
  }

  predicate InPast(tb: Tables, a: Account, h: Account, t: int) {
    exists i :: 0 <= i < |tb.history| && tb.history[i].agency == a && Covers(tb.history[i], h, t)
  }

  predicate MemberAt(tb: Tables, a: Account, h: Account, t: int) {
    InCurrent(tb, a, h, t) || InPast(tb, a, h, t)
  }

  /** The membership clause of the window query: a current row, a past row, or the owner's own
      credit while no other agency held it. */
  predicate Counts(tb: Tables, a: Account, h: Account, t: int) {
    || InCurrent(tb, a, h, t)
    || InPast(tb, a, h, t)
    || (h == a
        && !(h in tb.hosts && tb.hosts[h].agency != a && tb.hosts[h].joinedAt <= t)
        && !(exists i :: 0 <= i < |tb.history| && tb.history[i].agency != a && Covers(tb.history[i], h, t)))
  }

  /** Membership intervals of a host follow one another. */
  predicate Disjoint(tb: Tables, clock: int) {
    && (forall i :: 0 <= i < |tb.history| ==> tb.history[i].exitedAt <= clock)
    && (forall i, j :: 0 <= i < j < |tb.history| && tb.history[i].host == tb.history[j].host ==>
          tb.history[i].exitedAt <= tb.history[j].joinedAt)
    && (forall h :: h in tb.hosts ==> tb.hosts[h].joinedAt <= clock)
    && (forall i :: 0 <= i < |tb.history| && tb.history[i].host in tb.hosts ==>
          tb.history[i].exitedAt <= tb.hosts[tb.history[i].host].joinedAt)
  }

  lemma StepDisjoint(tb: Tables, clock: int, e: Event)
    requires Disjoint(tb, clock) && clock <= e.now
    ensures Disjoint(Apply(tb, e), e.now)
  {
  }

  lemma {:induction false} RunsDisjoint(es: seq<Event>, clock: int)
    requires Chronological(es) && (forall i :: 0 <= i < |es| ==> es[i].now <= clock)
    ensures Disjoint(Exec(es), clock)
  {
    if es != [] {
      var e := es[|es| - 1];
      RunsDisjoint(es[..|es| - 1], e.now);
      StepDisjoint(Exec(es[..|es| - 1]), e.now, e);
    }
  }

  /** At any time a host belongs to at most one agency. */
  lemma OneAgencyAtATime(tb: Tables, clock: int, a: Account, b: Account, h: Account, t: int)
    requires Disjoint(tb, clock) && MemberAt(tb, a, h, t) && MemberAt(tb, b, h, t)
    ensures a == b
  {
    if InPast(tb, a, h, t) && InPast(tb, b, h, t) {
      var i :| 0 <= i < |tb.history| && tb.history[i].agency == a && Covers(tb.history[i], h, t);
      var j :| 0 <= j < |tb.history| && tb.history[j].agency == b && Covers(tb.history[j], h, t);
      assert i == j;
    }
  }

  /** The agency a host's credit belongs to: the agency it was a member of, else itself. */
  ghost function OwnerAt(tb: Tables, h: Account, t: int): Account {
    if a :| MemberAt(tb, a, h, t) then a else h
  }

  /** The query's three-way clause selects exactly one account per credit. */
  lemma CountsForOwnerOnly(tb: Tables, clock: int, a: Account, h: Account, t: int)
    requires Disjoint(tb, clock)
    ensures Counts(tb, a, h, t) <==> a == OwnerAt(tb, h, t)
  {
    if m :| MemberAt(tb, m, h, t) {
      OneAgencyAtATime(tb, clock, m, OwnerAt(tb, h, t), h, t);
      if MemberAt(tb, a, h, t) {
        OneAgencyAtATime(tb, clock, m, a, h, t);
      }
      if InPast(tb, m, h, t) {
        var i :| 0 <= i < |tb.history| && tb.history[i].agency == m && Covers(tb.history[i], h, t);
      }
    } else {
      forall i | 0 <= i < |tb.history| ensures !Covers(tb.history[i], h, t) {
        assert !MemberAt(tb, tb.history[i].agency, h, t);
      }
      if h in tb.hosts {
        assert !MemberAt(tb, tb.hosts[h].agency, h, t);
      }
    }
  }

  /** In every chronological run of joins and exits, each credit counts for exactly one
      account, the host's agency or else the host itself; so for at most one agency. */
  lemma CreditCountsOnce(es: seq<Event>, h: Account, t: int)
    requires Chronological(es)
    ensures exists a :: Counts(Exec(es), a, h, t) && forall b :: Counts(Exec(es), b, h, t) ==> b == a
  {
    var clock := if es == [] then 0 else es[|es| - 1].now;
    RunsDisjoint(es, clock);
    var a := OwnerAt(Exec(es), h, t);
    CountsForOwnerOnly(Exec(es), clock, a, h, t);
    forall b | Counts(Exec(es), b, h, t) ensures b == a {
      CountsForOwnerOnly(Exec(es), clock, b, h, t);
    }
  }

  // ---------------------------------------------------------------- from the joins and exits alone

  /** The agency a host is in after these events: a join counts when the host is in none, an exit
      when it is in that one. */
  function AgencyOf(es: seq<Event>, h: Account): Option<Account> {
    if es == [] then None else
      var before, e := AgencyOf(es[..|es| - 1], h), es[|es| - 1];
      if e.host != h then before
      else if e.Join? then if before.None? then Some(e.agency) else before
      else if before == Some(e.agency) then None else before
  }

  predicate IsExit(e: Event, a: Account, h: Account) {
    e.Exit? && e.agency == a && e.host == h
  }

  /** Event `i` makes the host a member by time `t`. */
  predicate JoinsBy(es: seq<Event>, i: nat, a: Account, h: Account, t: int)
    requires i < |es|
  {
    es[i].Join? && es[i].agency == a && es[i].host == h && es[i].now <= t && AgencyOf(es[..i], h) == None
  }

  predicate NoExitBy(es: seq<Event>, i: nat, a: Account, h: Account, t: int) {
    forall j :: i < j < |es| && IsExit(es[j], a, h) ==> es[j].now > t
  }

  /** The host joined the agency by time `t`, being in none, and did not leave it again by then. */
  predicate BelongedAt(es: seq<Event>, a: Account, h: Account, t: int) {
    exists i: nat :: i < |es| && JoinsBy(es, i, a, h, t) && NoExitBy(es, i, a, h, t)
  }

  lemma {:induction false} CurrentIsAgencyOf(es: seq<Event>, h: Account)
    ensures var hosts := Exec(es).hosts;
      AgencyOf(es, h) == if h in hosts then Some(hosts[h].agency) else None
  {
    if es != [] {
      CurrentIsAgencyOf(es[..|es| - 1], h);
    }
  }

  /** What the last event adds to, or takes from, the memberships read off the run. */
  lemma BelongedPush(es: seq<Event>, e: Event, a: Account, h: Account, t: int)
    ensures BelongedAt(es + [e], a, h, t) <==>
      || (BelongedAt(es, a, h, t) && !(IsExit(e, a, h) && e.now <= t))
      || (e == Join(a, h, e.now) && e.now <= t && AgencyOf(es, h) == None)
  {
    var all := es + [e];
    assert all[..|es|] == es;
    forall i: nat | i < |es|
      ensures JoinsBy(all, i, a, h, t) <==> JoinsBy(es, i, a, h, t)
      ensures NoExitBy(all, i, a, h, t) <==> NoExitBy(es, i, a, h, t) && !(IsExit(e, a, h) && e.now <= t)
    {
      assert all[..i] == es[..i];
      assert all[|es|] == e && forall j :: i < j < |es| ==> all[j] == es[j];
    }
    assert NoExitBy(all, |es|, a, h, t);
    if BelongedAt(es, a, h, t) && !(IsExit(e, a, h) && e.now <= t) {
      var i: nat :| i < |es| && JoinsBy(es, i, a, h, t) && NoExitBy(es, i, a, h, t);
      assert JoinsBy(all, i, a, h, t) && NoExitBy(all, i, a, h, t);
    }
    if e == Join(a, h, e.now) && e.now <= t && AgencyOf(es, h) == None {
      assert JoinsBy(all, |es|, a, h, t);
    }
  }

  lemma PastPush(tb: Tables, p: Past, a: Account, h: Account, t: int)
    ensures InPast(tb.(history := tb.history + [p]), a, h, t) <==>
      InPast(tb, a, h, t) || (p.agency == a && Covers(p, h, t))
  {
    var all := tb.history + [p];
    if InPast(tb, a, h, t) {
      var i :| 0 <= i < |tb.history| && tb.history[i].agency == a && Covers(tb.history[i], h, t);
      assert all[i] == tb.history[i];
    }
    if p.agency == a && Covers(p, h, t) {
      assert all[|tb.history|] == p;
    }
  }

  /** What the last event does to the memberships of the tables. */
  lemma MemberPush(tb: Tables, clock: int, e: Event, a: Account, h: Account, t: int)
    requires Disjoint(tb, clock) && clock <= e.now
    ensures MemberAt(Apply(tb, e), a, h, t) <==>
      || (MemberAt(tb, a, h, t) && !(IsExit(e, a, h) && e.now <= t))
      || (e == Join(a, h, e.now) && e.now <= t && h !in tb.hosts)
  {
    if e.Exit? && e.host in tb.hosts && tb.hosts[e.host].agency == e.agency {
      PastPush(tb, Past(e.agency, e.host, tb.hosts[e.host].joinedAt, e.now), a, h, t);
    }
    assert InPast(tb, a, h, t) ==> t < e.now;
  }

  /** The tables say exactly what the joins and exits of the run say. */
  lemma {:induction false} MembersFromEvents(es: seq<Event>, a: Account, h: Account, t: int)
    requires Chronological(es)
    ensures MemberAt(Exec(es), a, h, t) <==> BelongedAt(es, a, h, t)
  {
    if es != [] {
      var before, e := es[..|es| - 1], es[|es| - 1];
      assert es == before + [e];
      MembersFromEvents(before, a, h, t);
      RunsDisjoint(before, e.now);
      CurrentIsAgencyOf(before, h);
      MemberPush(Exec(before), e.now, e, a, h, t);
      BelongedPush(before, e, a, h, t);
    }
  }

  /** A credit counts for the agency its host belonged to at its time, and for the host itself if
      it belonged to none; read off the run, without the tables. */
  lemma CountsFromEvents(es: seq<Event>, a: Account, h: Account, t: int)
    requires Chronological(es)
    ensures Counts(Exec(es), a, h, t) <==>
      BelongedAt(es, a, h, t) || (a == h && forall b: Account :: !BelongedAt(es, b, h, t))
    ensures Counts(Exec(es), a, h, t) <==> a == OwnerAt(Exec(es), h, t)
  {
    var clock, tb := if es == [] then 0 else es[|es| - 1].now, Exec(es);
    RunsDisjoint(es, clock);
    CountsForOwnerOnly(tb, clock, a, h, t);
    forall b: Account ensures MemberAt(tb, b, h, t) <==> BelongedAt(es, b, h, t) {
      MembersFromEvents(es, b, h, t);
    }
    if MemberAt(tb, a, h, t) {
      OneAgencyAtATime(tb, clock, a, OwnerAt(tb, h, t), h, t);
    }
  }
}
