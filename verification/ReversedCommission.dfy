/** Skipping reversed commission: the SQL subquery against the in-memory loop. */
module ReversedCommission {
  import opened Base
  import opened Membership

  const COMMISSION := "agency-commission:"
  const REVERSE := "agency-commission-reverse:"

  /** A commission credit. `hostEntryId` is the metadata field, absent or null as `None`. */
  datatype Entry = Entry(amount: nat, counterparty: Option<Account>,
                         idempotencyKey: Option<string>, hostEntryId: Option<string>)

  function Suffix(key: Option<string>): Option<string> {
    if key.Some? && COMMISSION <= key.value then Some(key.value[|COMMISSION|..]) else None
  }

  /** COALESCE(NULLIF(metadata, ''), key suffix): an empty metadata value falls through. */
  function SqlHostId(e: Entry): Option<string> {
    if e.hostEntryId.Some? && e.hostEntryId.value != "" then e.hostEntryId else Suffix(e.idempotencyKey)
  }

  /** NULL concatenates to NULL, which matches no key. */
  predicate SqlReversed(e: Entry, keys: set<string>) {
    SqlHostId(e).Some? && REVERSE + SqlHostId(e).value in keys
  }

  /** `metadata ?? suffix`: only null falls through; an empty id is then treated as no id. */
  function JsReverseKey(e: Entry): Option<string> {
    var id := if e.hostEntryId.Some? then e.hostEntryId else Suffix(e.idempotencyKey);
    if id.Some? && id.value != "" then Some(REVERSE + id.value) else None
  }

  predicate JsReversed(e: Entry, keys: set<string>) {
    JsReverseKey(e).Some? && JsReverseKey(e).value in keys
  }

  /** Where the two differ: an empty metadata id over a key whose reversal exists, or no
      metadata and an empty key suffix whose reversal exists. */
  predicate Diverges(e: Entry, keys: set<string>) {
    && (e.hostEntryId == Some("") || (e.hostEntryId == None && e.idempotencyKey == Some(COMMISSION)))
    && Suffix(e.idempotencyKey).Some?
    && REVERSE + Suffix(e.idempotencyKey).value in keys
  }

  /** The loop and the subquery agree on an entry if and only if it does not diverge; where
      they differ, only the subquery treats it as reversed. */
  lemma AgreeUnlessDivergent(e: Entry, keys: set<string>)
    ensures JsReversed(e, keys) ==> SqlReversed(e, keys)
    ensures SqlReversed(e, keys) && !JsReversed(e, keys) <==> Diverges(e, keys)
  {
    if e.idempotencyKey.Some? && COMMISSION <= e.idempotencyKey.value {
      var key := e.idempotencyKey.value;
      assert key == COMMISSION + key[|COMMISSION|..];
      assert key[|COMMISSION|..] == "" <==> key == COMMISSION;
    }
  }

  /** For a non-empty host entry id, in the metadata or else behind the commission key, both forms
      skip the entry exactly when the reverse key of that id exists. */
  lemma ReversedById(e: Entry, id: string, keys: set<string>)
    requires id != ""
    requires e.hostEntryId == Some(id)
      || (e.hostEntryId == None && e.idempotencyKey == Some("agency-commission:" + id))
    ensures SqlReversed(e, keys) <==> "agency-commission-reverse:" + id in keys
    ensures JsReversed(e, keys) <==> "agency-commission-reverse:" + id in keys
  {
    var key := "agency-commission:" + id;
    assert key[|COMMISSION|..] == id;
  }

  /** An entry with no id in either place is never skipped. */
  lemma NoIdIsNeverReversed(e: Entry, keys: set<string>)
    requires e.hostEntryId == None
    requires e.idempotencyKey.Some? ==> !("agency-commission:" <= e.idempotencyKey.value)
    ensures !SqlReversed(e, keys) && !JsReversed(e, keys)
  {
  }

  // ---------------------------------------------------------------- per-host sums

  predicate For(e: Entry, h: Account) {
    e.counterparty == Some(h)
  }

  function SqlSum(es: seq<Entry>, keys: set<string>, h: Account): nat {
    if es == [] then 0 else
      SqlSum(es[..|es| - 1], keys, h)
      + if For(es[|es| - 1], h) && !SqlReversed(es[|es| - 1], keys) then es[|es| - 1].amount else 0
  }

  function JsSum(es: seq<Entry>, keys: set<string>, h: Account): nat {
    if es == [] then 0 else
      JsSum(es[..|es| - 1], keys, h)
      + if For(es[|es| - 1], h) && !JsReversed(es[|es| - 1], keys) then es[|es| - 1].amount else 0
  }

  function DivergentSum(es: seq<Entry>, keys: set<string>, h: Account): nat {
    if es == [] then 0 else
      DivergentSum(es[..|es| - 1], keys, h)
      + if For(es[|es| - 1], h) && Diverges(es[|es| - 1], keys) then es[|es| - 1].amount else 0
  }

  predicate Unreversed(es: seq<Entry>, keys: set<string>, h: Account) {
    exists i :: 0 <= i < |es| && For(es[i], h) && !JsReversed(es[i], keys)
  }

  /** The loop: collect the reverse keys that exist, then add up the entries without one. */
  method AggregateCommission(entries: seq<Entry>, keys: set<string>) returns (totals: map<Account, nat>)
    ensures forall h: Account :: h in totals <==> Unreversed(entries, keys, h)
    ensures forall h :: h in totals ==> totals[h] == JsSum(entries, keys, h)
  {
    var wanted: set<string> := {};
    for i := 0 to |entries|
      invariant forall k :: k in wanted <==> exists j :: 0 <= j < i && JsReverseKey(entries[j]) == Some(k)
    {
      if JsReverseKey(entries[i]).Some? {
        wanted := wanted + {JsReverseKey(entries[i]).value};
      }
    }
    var reverseKeys := keys * wanted;
    totals := map[];
    for i := 0 to |entries|
      invariant forall h: Account :: h in totals <==> Unreversed(entries[..i], keys, h)
      invariant forall h: Account :: JsSum(entries[..i], keys, h) == if h in totals then totals[h] else 0
    {
      var e := entries[i];
      assert entries[..i + 1] == entries[..i] + [e];
      assert JsReversed(e, keys) <==> JsReverseKey(e).Some? && JsReverseKey(e).value in reverseKeys;
      ghost var before := totals;
      if e.counterparty.Some? && !(JsReverseKey(e).Some? && JsReverseKey(e).value in reverseKeys) {
        var h := e.counterparty.value;
        totals := totals[h := (if h in totals then totals[h] else 0) + e.amount];
      }
      forall h: Account
        ensures h in totals <==> Unreversed(entries[..i + 1], keys, h)
        ensures JsSum(entries[..i + 1], keys, h) == if h in totals then totals[h] else 0
      {
        SumOneMore(entries, i, keys, h);
      }
    }
    assert entries[..|entries|] == entries;
  }

  lemma SumOneMore(es: seq<Entry>, i: nat, keys: set<string>, h: Account)
    requires i < |es|
    ensures JsSum(es[..i + 1], keys, h) ==
      JsSum(es[..i], keys, h) + if For(es[i], h) && !JsReversed(es[i], keys) then es[i].amount else 0
    ensures Unreversed(es[..i + 1], keys, h) <==>
      Unreversed(es[..i], keys, h) || (For(es[i], h) && !JsReversed(es[i], keys))
  {
    var a, b := es[..i], es[..i + 1];
    assert b[..i] == a && b[i] == es[i];
    if Unreversed(a, keys, h) {
      var j :| 0 <= j < |a| && For(a[j], h) && !JsReversed(a[j], keys);
      assert b[j] == a[j];
    }
    if For(es[i], h) && !JsReversed(es[i], keys) {
      assert For(b[i], h);
    }
    if Unreversed(b, keys, h) {
      var j :| 0 <= j < |b| && For(b[j], h) && !JsReversed(b[j], keys);
      assert j < i ==> a[j] == b[j];
    }
  }

  /** Per host the loop reports the subquery's sum plus the divergent entries. */
  lemma {:induction false} SumsDiffer(es: seq<Entry>, keys: set<string>, h: Account)
    ensures JsSum(es, keys, h) == SqlSum(es, keys, h) + DivergentSum(es, keys, h)
  {
    if es != [] {
      SumsDiffer(es[..|es| - 1], keys, h);
      AgreeUnlessDivergent(es[|es| - 1], keys);
    }
  }

  /** With positive amounts the two reports of a host are equal if and only if none of its
      entries diverges. */
  lemma {:induction false} SumsEqualIff(es: seq<Entry>, keys: set<string>, h: Account)
    requires forall i :: 0 <= i < |es| ==> es[i].amount > 0
    ensures JsSum(es, keys, h) == SqlSum(es, keys, h)
       <==> forall i :: 0 <= i < |es| && For(es[i], h) ==> !Diverges(es[i], keys)
  {
    SumsDiffer(es, keys, h);
    DivergentZero(es, keys, h);
  }

  lemma {:induction false} DivergentZero(es: seq<Entry>, keys: set<string>, h: Account)
    requires forall i :: 0 <= i < |es| ==> es[i].amount > 0
    ensures DivergentSum(es, keys, h) == 0
       <==> forall i :: 0 <= i < |es| && For(es[i], h) ==> !Diverges(es[i], keys)
  {
    if es != [] {
      var before := es[..|es| - 1];
      DivergentZero(before, keys, h);
      assert forall i :: 0 <= i < |before| ==> es[i] == before[i];
    }
  }

  /** Such an entry: empty metadata id over a reversed key. */
  lemma EmptyMetadataDiverges()
    ensures var e := Entry(5, Some(Account("h")), Some(COMMISSION + "42"), Some(""));
      SqlReversed(e, {REVERSE + "42"}) && !JsReversed(e, {REVERSE + "42"})
  {
    var key := COMMISSION + "42";
    assert key[|COMMISSION|..] == "42";
  }
}
