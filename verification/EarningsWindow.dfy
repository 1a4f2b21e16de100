/** The windowed host-earnings query of an agency. */
module EarningsWindow {
  import opened Membership

  datatype Direction = Credit | Debit
  datatype TxType = GiftReceive | LivestreamGift | VideoCall | AgentCommission | OtherTx
  datatype Currency = Point | Coin
  datatype Status = Active | Suspended | Deleted | OtherStatus

  datatype Wallet = Wallet(user: Account, currency: Currency)
  datatype Entry = Entry(id: nat, wallet: nat, direction: Direction, txType: TxType, createdAt: int, amount: nat)

  datatype Db = Db(members: Tables, wallets: map<nat, Wallet>, users: map<Account, Status>,
                   processed: set<nat>, ledger: seq<Entry>)

  /** The joins and filters of the query other than attribution. */
  predicate Eligible(db: Db, e: Entry, from: int, toExclusive: int) {
    && e.wallet in db.wallets && db.wallets[e.wallet].currency == Point
    && db.wallets[e.wallet].user in db.users
    && db.users[db.wallets[e.wallet].user] !in {Suspended, Deleted}
    && e.id in db.processed
    && e.direction == Credit && (e.txType == GiftReceive || e.txType == LivestreamGift || e.txType == VideoCall)
    && from <= e.createdAt < toExclusive
  }

  predicate CountsFor(db: Db, a: Account, e: Entry, from: int, toExclusive: int) {
    Eligible(db, e, from, toExclusive) && Counts(db.members, a, db.wallets[e.wallet].user, e.createdAt)
  }

  /** The candidate hosts the query starts from (a UNION, so without duplicates). */
  function HostIds(db: Db, a: Account, from: int, toExclusive: int): set<Account> {
    {a}
    + (set h | h in db.members.hosts && db.members.hosts[h].agency == a)
    + (set i | 0 <= i < |db.members.history| && db.members.history[i].agency == a
               && db.members.history[i].joinedAt < toExclusive && db.members.history[i].exitedAt > from
       :: db.members.history[i].host)
  }

  function SumIf(es: seq<Entry>, p: Entry -> bool): nat {
    if es == [] then 0 else SumIf(es[..|es| - 1], p) + if p(es[|es| - 1]) then es[|es| - 1].amount else 0
  }

  /** The query: join the candidates, in any order, with their wallets' entries. */
  function WindowSum(db: Db, a: Account, from: int, toExclusive: int, hosts: seq<Account>): nat {
    if hosts == [] then 0 else
      var h := hosts[0];
      SumIf(db.ledger, e => CountsFor(db, a, e, from, toExclusive) && db.wallets[e.wallet].user == h)
      + WindowSum(db, a, from, toExclusive, hosts[1..])
  }

  /** `hosts` lists the candidate set once each. */
  ghost predicate Enumerates(hosts: seq<Account>, s: set<Account>) {
    && (forall i, j :: 0 <= i < j < |hosts| ==> hosts[i] != hosts[j])
    && (forall h :: h in hosts <==> h in s)
  }

  // ---------------------------------------------------------------- sums

  lemma {:induction false} SumIfSame(es: seq<Entry>, p: Entry -> bool, q: Entry -> bool)
    requires forall e: Entry :: p(e) <==> q(e)
    ensures SumIf(es, p) == SumIf(es, q)
  {
    if es != [] {
      SumIfSame(es[..|es| - 1], p, q);
    }
  }

  lemma {:induction false} SumIfSplit(es: seq<Entry>, p: Entry -> bool, q: Entry -> bool, r: Entry -> bool)
    requires forall e: Entry :: p(e) <==> q(e) || r(e)
    requires forall e: Entry :: !(q(e) && r(e))
    ensures SumIf(es, p) == SumIf(es, q) + SumIf(es, r)
  {
    if es != [] {
      SumIfSplit(es[..|es| - 1], p, q, r);
    }
  }

  lemma {:induction false} SumIfNone(es: seq<Entry>, p: Entry -> bool)
    requires forall e: Entry :: !p(e)
    ensures SumIf(es, p) == 0
  {
    if es != [] {
      SumIfNone(es[..|es| - 1], p);
    }
  }

  lemma {:induction false} SumIfLess(es: seq<Entry>, p: Entry -> bool, q: Entry -> bool)
    requires forall e: Entry :: p(e) ==> q(e)
    ensures SumIf(es, p) <= SumIf(es, q)
  {
    if es != [] {
      SumIfLess(es[..|es| - 1], p, q);
    }
  }

  // ---------------------------------------------------------------- the candidate prefilter

  /** A counted credit's host is a candidate: the prefilter drops nothing. */
  lemma CountedHostIsCandidate(db: Db, a: Account, e: Entry, from: int, toExclusive: int)
    requires CountsFor(db, a, e, from, toExclusive)
    ensures db.wallets[e.wallet].user in HostIds(db, a, from, toExclusive)
  {
    var h := db.wallets[e.wallet].user;
    if InPast(db.members, a, h, e.createdAt) {
      var i :| 0 <= i < |db.members.history| && db.members.history[i].agency == a
               && Covers(db.members.history[i], h, e.createdAt);
    }
  }

  lemma {:induction false} JoinIsFilter(db: Db, a: Account, from: int, toExclusive: int, hosts: seq<Account>)
    requires forall i, j :: 0 <= i < j < |hosts| ==> hosts[i] != hosts[j]
    ensures WindowSum(db, a, from, toExclusive, hosts) ==
      SumIf(db.ledger, e => CountsFor(db, a, e, from, toExclusive) && db.wallets[e.wallet].user in hosts)
  {
    if hosts == [] {
      SumIfNone(db.ledger, e => CountsFor(db, a, e, from, toExclusive) && db.wallets[e.wallet].user in hosts);
    } else {
      JoinIsFilter(db, a, from, toExclusive, hosts[1..]);
      SumIfSplit(db.ledger,
        e => CountsFor(db, a, e, from, toExclusive) && db.wallets[e.wallet].user in hosts,
        e => CountsFor(db, a, e, from, toExclusive) && db.wallets[e.wallet].user == hosts[0],
        e => CountsFor(db, a, e, from, toExclusive) && db.wallets[e.wallet].user in hosts[1..]);
    }
  }

  /** Reference: every ledger entry that is eligible and counts for the agency. */
  function Attributed(db: Db, a: Account, from: int, toExclusive: int): nat {
    SumIf(db.ledger, e => CountsFor(db, a, e, from, toExclusive))
  }

  /** The prefiltered join computes the reference sum, in whatever order candidates come. */
  lemma WindowSumIsAttributed(db: Db, a: Account, from: int, toExclusive: int, hosts: seq<Account>)
    requires Enumerates(hosts, HostIds(db, a, from, toExclusive))
    ensures WindowSum(db, a, from, toExclusive, hosts) == Attributed(db, a, from, toExclusive)
  {
    JoinIsFilter(db, a, from, toExclusive, hosts);
    forall e: Entry | CountsFor(db, a, e, from, toExclusive) ensures db.wallets[e.wallet].user in hosts {
      CountedHostIsCandidate(db, a, e, from, toExclusive);
    }
    SumIfSame(db.ledger,
      e => CountsFor(db, a, e, from, toExclusive) && db.wallets[e.wallet].user in hosts,
      e => CountsFor(db, a, e, from, toExclusive));
  }

  /** Adjacent windows add up, although each has its own candidate set. */
  lemma WindowsAddUp(db: Db, a: Account, from: int, mid: int, to: int,
                     whole: seq<Account>, left: seq<Account>, right: seq<Account>)
    requires from <= mid <= to
    requires Enumerates(whole, HostIds(db, a, from, to))
    requires Enumerates(left, HostIds(db, a, from, mid)) && Enumerates(right, HostIds(db, a, mid, to))
    ensures WindowSum(db, a, from, to, whole) ==
      WindowSum(db, a, from, mid, left) + WindowSum(db, a, mid, to, right)
  {
    WindowSumIsAttributed(db, a, from, to, whole);
    WindowSumIsAttributed(db, a, from, mid, left);
    WindowSumIsAttributed(db, a, mid, to, right);
    SumIfSplit(db.ledger,
      e => CountsFor(db, a, e, from, to), e => CountsFor(db, a, e, from, mid), e => CountsFor(db, a, e, mid, to));
  }

  // ---------------------------------------------------------------- conservation

  function TotalOver(db: Db, agencies: seq<Account>, from: int, toExclusive: int): nat {
    if agencies == [] then 0
    else Attributed(db, agencies[0], from, toExclusive) + TotalOver(db, agencies[1..], from, toExclusive)
  }

  ghost predicate OwnedBy(db: Db, e: Entry, from: int, toExclusive: int, agencies: seq<Account>) {
    Eligible(db, e, from, toExclusive)
    && OwnerAt(db.members, db.wallets[e.wallet].user, e.createdAt) in agencies
  }

  /** Window totals over any list of distinct agencies are exactly the eligible credits owned by
      one of them; so together they never exceed what was credited. */
  lemma {:induction false} TotalsPartitionCredits(db: Db, es: seq<Event>, agencies: seq<Account>,
                                                   from: int, toExclusive: int)
    requires Chronological(es) && db.members == Exec(es)
    requires forall i, j :: 0 <= i < j < |agencies| ==> agencies[i] != agencies[j]
    ensures TotalOver(db, agencies, from, toExclusive) ==
      SumIf(db.ledger, e => OwnedBy(db, e, from, toExclusive, agencies))
    ensures TotalOver(db, agencies, from, toExclusive) <= SumIf(db.ledger, e => Eligible(db, e, from, toExclusive))
  {
    if agencies == [] {
      SumIfNone(db.ledger, e => OwnedBy(db, e, from, toExclusive, agencies));
    } else {
      var a, rest := agencies[0], agencies[1..];
      TotalsPartitionCredits(db, es, rest, from, toExclusive);
      var clock := if es == [] then 0 else es[|es| - 1].now;
      RunsDisjoint(es, clock);
      forall e: Entry | Eligible(db, e, from, toExclusive)
        ensures CountsFor(db, a, e, from, toExclusive)
           <==> a == OwnerAt(db.members, db.wallets[e.wallet].user, e.createdAt)
      {
        CountsForOwnerOnly(db.members, clock, a, db.wallets[e.wallet].user, e.createdAt);
      }
      SumIfSplit(db.ledger,
        e => OwnedBy(db, e, from, toExclusive, agencies),
        e => CountsFor(db, a, e, from, toExclusive),
        e => OwnedBy(db, e, from, toExclusive, rest));
    }
    SumIfLess(db.ledger,
      e => OwnedBy(db, e, from, toExclusive, agencies), e => Eligible(db, e, from, toExclusive));
  }

  // ---------------------------------------------------------------- what one entry adds

  /** The wallet is a point wallet of a user who is neither suspended nor deleted. */
  predicate PaysHost(db: Db, wallet: nat, h: Account) {
    && wallet in db.wallets && db.wallets[wallet] == Wallet(h, Point)
    && h in db.users && db.users[h] != Suspended && db.users[h] != Deleted
  }

  /** One more ledger entry adds its amount to an agency's window if it is a processed gift, live
      gift or call credit inside the window, to a host in good standing whose joins and exits put
      it in that agency at that time (or in none, if the agency is the host itself); any other
      entry adds nothing. */
  lemma EntryAdds(db: Db, es: seq<Event>, a: Account, h: Account, e: Entry, from: int, toExclusive: int)
    requires Chronological(es) && db.members == Exec(es)
    requires e.wallet in db.wallets ==> db.wallets[e.wallet].user == h
    ensures Attributed(db.(ledger := db.ledger + [e]), a, from, toExclusive) ==
      Attributed(db, a, from, toExclusive)
      + if && PaysHost(db, e.wallet, h) && e.id in db.processed
           && e.direction == Credit && e.txType in {GiftReceive, LivestreamGift, VideoCall}
           && from <= e.createdAt && e.createdAt < toExclusive
           && (BelongedAt(es, a, h, e.createdAt)
               || (a == h && forall b: Account :: !BelongedAt(es, b, h, e.createdAt)))
        then e.amount else 0
  {
    var db' := db.(ledger := db.ledger + [e]);
    CountsFromEvents(es, a, h, e.createdAt);
    assert db'.ledger[..|db.ledger|] == db.ledger;
    SumIfSame(db.ledger, x => CountsFor(db', a, x, from, toExclusive), x => CountsFor(db, a, x, from, toExclusive));
  }

  lemma {:induction false} SumIfWithout(es: seq<Entry>, p: Entry -> bool, q: Entry -> bool, k: nat)
    requires k < |es| && p(es[k])
    requires forall i, j :: 0 <= i < j < |es| ==> es[i].id != es[j].id
    requires forall e: Entry :: q(e) <==> p(e) && e.id != es[k].id
    ensures SumIf(es, p) == SumIf(es, q) + es[k].amount
  {
    var before := es[..|es| - 1];
    if k < |es| - 1 {
      SumIfWithout(before, p, q, k);
    } else {
      SumIfSameOn(before, p, q);
    }
  }

  lemma {:induction false} SumIfSameOn(es: seq<Entry>, p: Entry -> bool, q: Entry -> bool)
    requires forall i :: 0 <= i < |es| ==> (p(es[i]) <==> q(es[i]))
    ensures SumIf(es, p) == SumIf(es, q)
  {
    if es != [] {
      SumIfSameOn(es[..|es| - 1], p, q);
    }
  }

  /** A counted entry that loses its processed mark lowers the sum by its amount. */
  lemma UnprocessedLowersSum(db: Db, a: Account, k: nat, from: int, toExclusive: int)
    requires forall i, j :: 0 <= i < j < |db.ledger| ==> db.ledger[i].id != db.ledger[j].id
    requires k < |db.ledger| && CountsFor(db, a, db.ledger[k], from, toExclusive)
    ensures Attributed(db, a, from, toExclusive) ==
      Attributed(db.(processed := db.processed - {db.ledger[k].id}), a, from, toExclusive) + db.ledger[k].amount
  {
    var db' := db.(processed := db.processed - {db.ledger[k].id});
    SumIfWithout(db.ledger, e => CountsFor(db, a, e, from, toExclusive),
                 e => CountsFor(db', a, e, from, toExclusive), k);
  }
}
