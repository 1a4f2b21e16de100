/** The daily earnings table: an upsert that clamps every total at zero. */
module DailyEarnings {
  import opened Base
  import opened Membership

  datatype Key = Key(agency: Account, host: Account, day: int)
  datatype Row = Row(earnings: int, commission: int, active: bool, lastCreditAt: int)
  datatype Upsert = Upsert(key: Key, earnings: int, commission: int, now: int)

  function Greatest(a: int, b: int): int {
    if a >= b then a else b
  }

  class Table {
    var rows: map<Key, Row>

    constructor ()
      ensures rows == map[]
    {
      rows := map[];
    }

    /** INSERT ... ON CONFLICT DO UPDATE. */
    method UpsertDailyEarning(u: Upsert)
      modifies this
      ensures rows == Applied(old(rows), u)
    {
      if u.key !in rows {
        rows := rows[u.key := Row(Greatest(0, u.earnings), Greatest(0, u.commission), true, u.now)];
      } else {
        var r := rows[u.key];
        rows := rows[u.key := r.(earnings := Greatest(0, r.earnings + u.earnings),
                                 commission := Greatest(0, r.commission + u.commission),
                                 active := true, lastCreditAt := u.now)];
      }
    }
  }

  /** Both paths at once: a missing row counts as zero. */
  function Applied(rows: map<Key, Row>, u: Upsert): map<Key, Row> {
    var r := if u.key in rows then rows[u.key] else Row(0, 0, true, u.now);
    rows[u.key := Row(Greatest(0, r.earnings + u.earnings), Greatest(0, r.commission + u.commission), true, u.now)]
  }

  function After(us: seq<Upsert>): map<Key, Row> {
    if us == [] then map[] else Applied(After(us[..|us| - 1]), us[|us| - 1])
  }

  /** The earnings and commission deltas of one key, in order. */
  function Deltas(us: seq<Upsert>, k: Key): seq<(int, int)> {
    if us == [] then [] else
      Deltas(us[..|us| - 1], k)
      + if us[|us| - 1].key == k then [(us[|us| - 1].earnings, us[|us| - 1].commission)] else []
  }

  /** When the key was last written. */
  function LastAt(us: seq<Upsert>, k: Key): Option<int> {
    if us == [] then None
    else if us[|us| - 1].key == k then Some(us[|us| - 1].now)
    else LastAt(us[..|us| - 1], k)
  }

  function Sum(ds: seq<int>): int {
    if ds == [] then 0 else ds[0] + Sum(ds[1..])
  }

  function Firsts(ps: seq<(int, int)>): seq<int> {
    seq(|ps|, i requires 0 <= i < |ps| => ps[i].0)
  }

  function Seconds(ps: seq<(int, int)>): seq<int> {
    seq(|ps|, i requires 0 <= i < |ps| => ps[i].1)
  }

  /** The total is the largest of the suffix sums, the empty suffix included. */
  ghost predicate IsMaxSuffixSum(m: int, ds: seq<int>) {
    && (forall i :: 0 <= i <= |ds| ==> Sum(ds[i..]) <= m)
    && (exists i :: 0 <= i <= |ds| && Sum(ds[i..]) == m)
  }

  lemma {:induction false} SumAppend(a: seq<int>, b: seq<int>)
    ensures Sum(a + b) == Sum(a) + Sum(b)
  {
    if a == [] {
      assert a + b == b;
    } else {
      SumAppend(a[1..], b);
      assert (a + b)[1..] == a[1..] + b;
    }
  }

  lemma MaxSuffixStep(m: int, ds: seq<int>, d: int)
    requires IsMaxSuffixSum(m, ds)
    ensures IsMaxSuffixSum(Greatest(0, m + d), ds + [d])
  {
    var es := ds + [d];
    forall i | 0 <= i <= |es| ensures Sum(es[i..]) <= Greatest(0, m + d) {
      if i <= |ds| {
        assert es[i..] == ds[i..] + [d];
        SumAppend(ds[i..], [d]);
      } else {
        assert es[i..] == [];
      }
    }
    var i :| 0 <= i <= |ds| && Sum(ds[i..]) == m;
    if m + d >= 0 {
      assert es[i..] == ds[i..] + [d];
      SumAppend(ds[i..], [d]);
      assert Sum(es[i..]) == m + d;
    } else {
      assert es[|es|..] == [];
      assert Sum(es[|es|..]) == 0;
    }
  }

  /** Both totals of a row are the maximum suffix sums of the deltas. */
  ghost predicate Summarises(r: Row, ds: seq<(int, int)>) {
    IsMaxSuffixSum(r.earnings, Firsts(ds)) && IsMaxSuffixSum(r.commission, Seconds(ds))
  }

  lemma RowStep(r: Row, ds: seq<(int, int)>, u: Upsert)
    requires Summarises(r, ds)
    ensures Summarises(Row(Greatest(0, r.earnings + u.earnings), Greatest(0, r.commission + u.commission), true, u.now),
                       ds + [(u.earnings, u.commission)])
  {
    MaxSuffixStep(r.earnings, Firsts(ds), u.earnings);
    MaxSuffixStep(r.commission, Seconds(ds), u.commission);
    assert Firsts(ds + [(u.earnings, u.commission)]) == Firsts(ds) + [u.earnings];
    assert Seconds(ds + [(u.earnings, u.commission)]) == Seconds(ds) + [u.commission];
  }

  lemma FreshRow(now: int)
    ensures Summarises(Row(0, 0, true, now), [])
  {
    EmptySuffix(Firsts([]));
    EmptySuffix(Seconds([]));
  }

  /** After any upserts, in any order over any keys, a key has a row exactly when it was
      written, both stored totals are the maximum suffix sums of that key's deltas, the row is
      active, and its last credit is that key's last upsert. */
  lemma {:induction false} StoredTotals(us: seq<Upsert>, k: Key)
    ensures k in After(us) <==> Deltas(us, k) != []
    ensures k in After(us) ==> Summarises(After(us)[k], Deltas(us, k))
    ensures k in After(us) ==> After(us)[k].active && LastAt(us, k) == Some(After(us)[k].lastCreditAt)
  {
    if us != [] {
      var before, u := us[..|us| - 1], us[|us| - 1];
      StoredTotals(before, k);
      if u.key == k {
        FreshRow(u.now);
        RowStep(if k in After(before) then After(before)[k] else Row(0, 0, true, u.now), Deltas(before, k), u);
      } else {
        assert Deltas(us, k) == Deltas(before, k);
      }
    }
  }

  lemma EmptySuffix(ds: seq<int>)
    requires ds == []
    ensures IsMaxSuffixSum(0, ds)
  {
    assert Sum(ds[0..]) == 0;
  }

  /** Hence a stored total is never negative, never below the plain sum of its deltas, and
      equal to it exactly when no prefix of the deltas sums below zero. */
  lemma ClampExactIff(m: int, ds: seq<int>)
    requires IsMaxSuffixSum(m, ds)
    ensures 0 <= m && Sum(ds) <= m
    ensures m == Sum(ds) <==> forall i :: 0 <= i <= |ds| ==> Sum(ds[..i]) >= 0
  {
    assert ds[|ds|..] == [] && ds[0..] == ds;
    forall i | 0 <= i <= |ds| ensures Sum(ds[..i]) + Sum(ds[i..]) == Sum(ds) {
      SumAppend(ds[..i], ds[i..]);
      assert ds[..i] + ds[i..] == ds;
    }
    var k :| 0 <= k <= |ds| && Sum(ds[k..]) == m;
    assert Sum(ds[..k]) + Sum(ds[k..]) == Sum(ds);
  }
}
