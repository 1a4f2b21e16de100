/** The nightly recompute loop: a cursor over all agency ids, while agencies come and go. */
module AgencyCursor {

  /** Ids are 128-bit; the initial cursor is the zero id, which no agency has. */
  const MAX_ID: nat := 0xFFFF_FFFF_FFFF_FFFF_FFFF_FFFF_FFFF_FFFF

  predicate IsNext(ids: set<nat>, cursor: nat, m: nat) {
    m in ids && m > cursor && forall x :: x in ids && x > cursor ==> m <= x
  }

  /** WHERE id > cursor ORDER BY id LIMIT n. */
  ghost function ListIds(ids: set<nat>, cursor: nat, limit: nat): seq<nat>
    decreases limit
  {
    if limit > 0 && exists m :: IsNext(ids, cursor, m) then
      var m :| IsNext(ids, cursor, m);
      [m] + ListIds(ids, m, limit - 1)
    else []
  }

  predicate Increasing(s: seq<nat>) {
    forall i, j :: 0 <= i < j < |s| ==> s[i] < s[j]
  }

  lemma {:induction false} NextExists(ids: set<nat>, cursor: nat, x: nat)
    requires x in ids && x > cursor
    ensures exists m :: IsNext(ids, cursor, m)
    decreases x
  {
    if y :| y in ids && y > cursor && y < x {
      NextExists(ids, cursor, y);
    } else {
      assert IsNext(ids, cursor, x);
    }
  }

  /** Increasing, beyond the cursor, and it skips nothing up to its last id; a short page skips
      nothing at all. */
  predicate IsListing(ids: set<nat>, cursor: nat, limit: nat, page: seq<nat>) {
    && |page| <= limit && Increasing(page)
    && (forall x :: x in page ==> x in ids && x > cursor)
    && (forall x :: x in ids && x > cursor && Reached(page, limit, x) ==> x in page)
  }

  predicate Reached(page: seq<nat>, limit: nat, x: nat) {
    |page| < limit || (page != [] && x <= page[|page| - 1])
  }

  lemma ListingCons(ids: set<nat>, cursor: nat, limit: nat, m: nat, tail: seq<nat>)
    requires limit > 0 && IsNext(ids, cursor, m) && IsListing(ids, m, limit - 1, tail)
    ensures IsListing(ids, cursor, limit, [m] + tail)
  {
    var page := [m] + tail;
    forall i, j | 0 <= i < j < |page| ensures page[i] < page[j] {
      assert page[j] == tail[j - 1] && tail[j - 1] in tail;
      assert i > 0 ==> page[i] == tail[i - 1];
    }
    forall x | x in page ensures x in ids && x > cursor {
      assert x == m || x in tail;
    }
    forall x | x in ids && x > cursor && Reached(page, limit, x) ensures x in page {
      if x != m {
        assert x > m && page[|page| - 1] == if tail == [] then m else tail[|tail| - 1];
        assert Reached(tail, limit - 1, x);
        assert x in tail;
      }
    }
  }

  lemma {:induction false} ListIdsOk(ids: set<nat>, cursor: nat, limit: nat)
    ensures IsListing(ids, cursor, limit, ListIds(ids, cursor, limit))
    decreases limit
  {
    if limit > 0 && exists m :: IsNext(ids, cursor, m) {
      var page := ListIds(ids, cursor, limit);
      var m := page[0];
      ListIdsOk(ids, m, limit - 1);
      assert IsNext(ids, cursor, m) && page == [m] + ListIds(ids, m, limit - 1);
      ListingCons(ids, cursor, limit, m, ListIds(ids, m, limit - 1));
    } else if limit > 0 {
      forall x | x in ids ensures x <= cursor {
        if x > cursor { NextExists(ids, cursor, x); }
      }
    }
  }

  function Flatten(batches: seq<seq<nat>>): seq<nat> {
    if batches == [] then [] else Flatten(batches[..|batches| - 1]) + batches[|batches| - 1]
  }

  lemma FlattenPush(batches: seq<seq<nat>>, b: seq<nat>)
    ensures Flatten(batches + [b]) == Flatten(batches) + b
  {
    assert (batches + [b])[..|batches|] == batches;
  }

  /** The id the next row has, found by a scan. */
  method FindNext(ids: set<nat>, cursor: nat) returns (found: bool, m: nat)
    ensures found <==> exists k :: IsNext(ids, cursor, k)
    ensures found ==> IsNext(ids, cursor, m)
  {
    found, m := false, 0;
    var rest := ids;
    while rest != {}
      invariant rest <= ids
      invariant found ==> m in ids && m > cursor
      invariant forall x :: x in ids && x !in rest && x > cursor ==> found && m <= x
      decreases rest
    {
      var x :| x in rest;
      if x > cursor && (!found || x < m) {
        found, m := true, x;
      }
      rest := rest - {x};
    }
    assert found ==> IsNext(ids, cursor, m);
  }

  lemma NextIsUnique(ids: set<nat>, cursor: nat, m: nat, k: nat)
    requires IsNext(ids, cursor, m) && IsNext(ids, cursor, k)
    ensures m == k
  {
  }

  /** The repository call, as a method so that the loop can run. */
  method Fetch(ids: set<nat>, cursor: nat, limit: nat) returns (page: seq<nat>)
    ensures page == ListIds(ids, cursor, limit)
    decreases limit
  {
    if limit == 0 {
      return [];
    }
    var found, m := FindNext(ids, cursor);
    if !found {
      return [];
    }
    var tail := Fetch(ids, m, limit - 1);
    page := [m] + tail;
    ghost var k := ListIds(ids, cursor, limit)[0];
    NextIsUnique(ids, cursor, m, k);
  }

  lemma PushBatch(done: seq<nat>, cursor: nat, batch: seq<nat>)
    requires Increasing(done) && (forall x :: x in done ==> x <= cursor)
    requires Increasing(batch) && (forall x :: x in batch ==> cursor < x) && batch != []
    ensures Increasing(done + batch)
    ensures forall x :: x in done + batch ==> x <= batch[|batch| - 1]
  {
    assert batch[|batch| - 1] in batch;
    forall i, j | 0 <= i < j < |done + batch| ensures (done + batch)[i] < (done + batch)[j] {
      assert i < |done| ==> (done + batch)[i] in done;
      assert j >= |done| ==> (done + batch)[j] in batch;
    }
  }

  /** What the loop has enqueued when its cursor stands at `cursor`: no id twice, only ids some
      query saw, and every id up to the cursor that is present throughout. */
  ghost predicate EnqueuedUpTo(batches: seq<seq<nat>>, cursor: nat, snapshot: nat -> set<nat>, limit: nat) {
    && (forall i :: 0 <= i < |batches| ==> 0 < |batches[i]| <= limit)
    && (forall i :: 0 <= i < |batches| ==> forall x :: x in batches[i] ==> x in snapshot(i))
    && Increasing(Flatten(batches))
    && (forall x :: x in Flatten(batches) ==> x <= cursor)
    && (forall x: nat :: 0 < x <= cursor && Throughout(snapshot, x) ==> x in Flatten(batches))
  }

  ghost predicate Throughout(snapshot: nat -> set<nat>, x: nat) {
    forall n: nat :: x in snapshot(n)
  }

  /** A page extends what has been enqueued up to its last id. */
  lemma PageExtends(batches: seq<seq<nat>>, cursor: nat, snapshot: nat -> set<nat>, limit: nat, page: seq<nat>)
    requires EnqueuedUpTo(batches, cursor, snapshot, limit) && page != []
    requires IsListing(snapshot(|batches|), cursor, limit, page)
    ensures EnqueuedUpTo(batches + [page], page[|page| - 1], snapshot, limit) && page[|page| - 1] > cursor
  {
    FlattenPush(batches, page);
    PushBatch(Flatten(batches), cursor, page);
    var all, last := batches + [page], page[|page| - 1];
    assert last in page;
    forall x: nat | 0 < x <= last && Throughout(snapshot, x) ensures x in Flatten(all) {
      assert x in snapshot(|batches|) && Reached(page, limit, x);
    }
    forall i | 0 <= i < |all| ensures 0 < |all[i]| <= limit && forall x :: x in all[i] ==> x in snapshot(i) {
      assert i < |batches| ==> all[i] == batches[i];
    }
  }

  /** A short page leaves nothing out. */
  lemma ShortPageEnds(batches: seq<seq<nat>>, cursor: nat, snapshot: nat -> set<nat>, limit: nat, page: seq<nat>)
    requires EnqueuedUpTo(batches, cursor, snapshot, limit) && |page| < limit
    requires IsListing(snapshot(|batches|), cursor, limit, page)
    ensures forall x: nat :: x > 0 && Throughout(snapshot, x) ==> x in Flatten(batches) || x in page
  {
    forall x: nat | x > 0 && Throughout(snapshot, x) ensures x in Flatten(batches) || x in page {
      assert x in snapshot(|batches|) && Reached(page, limit, x);
    }
  }

  lemma Advance(batches: seq<seq<nat>>, cursor: nat, snapshot: nat -> set<nat>, limit: nat)
    requires EnqueuedUpTo(batches, cursor, snapshot, limit)
    ensures var page := ListIds(snapshot(|batches|), cursor, limit);
      && (page != [] ==> EnqueuedUpTo(batches + [page], page[|page| - 1], snapshot, limit) && page[|page| - 1] > cursor)
      && (|page| < limit ==> forall x: nat ::
            x > 0 && Throughout(snapshot, x) ==> x in Flatten(batches) || x in page)
  {
    var page := ListIds(snapshot(|batches|), cursor, limit);
    ListIdsOk(snapshot(|batches|), cursor, limit);
    if page != [] {
      PageExtends(batches, cursor, snapshot, limit, page);
    }
    if |page| < limit {
      ShortPageEnds(batches, cursor, snapshot, limit, page);
    }
  }

  /** The master job. `snapshot(n)` is the table as the n-th query sees it. Whatever is inserted
      or deleted between queries, the loop ends; no id is enqueued twice; an id is enqueued only
      if the query of its batch saw it; and every id present throughout is enqueued. */
  method HandleMaster(enabled: bool, force: bool, snapshot: nat -> set<nat>, limit: nat)
    returns (batches: seq<seq<nat>>)
    requires limit > 0
    requires forall n: nat :: forall x :: x in snapshot(n) ==> x <= MAX_ID
    ensures !enabled && !force ==> batches == []
    ensures forall i :: 0 <= i < |batches| ==> 0 < |batches[i]| <= limit
    ensures Increasing(Flatten(batches))
    ensures forall i :: 0 <= i < |batches| ==> forall x :: x in batches[i] ==> x in snapshot(i)
    ensures enabled || force ==> forall x: nat :: x > 0 && Throughout(snapshot, x) ==> x in Flatten(batches)
  {
    batches := [];
    if !enabled && !force {
      return;
    }
    var cursor := 0;
    while true
      invariant cursor <= MAX_ID
      invariant EnqueuedUpTo(batches, cursor, snapshot, limit)
      decreases MAX_ID - cursor
    {
      var batch := Fetch(snapshot(|batches|), cursor, limit);
      Advance(batches, cursor, snapshot, limit);
      if |batch| == 0 {
        break;
      }
      FlattenPush(batches, batch);
      ListIdsOk(snapshot(|batches|), cursor, limit);
      cursor := batch[|batch| - 1];
      assert cursor in batch;
      batches := batches + [batch];
      if |batch| < limit {
        break;
      }
    }
  }
}
