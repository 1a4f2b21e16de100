/** Deterministic BullMQ job ids of broadcast batches.

    A batch job id is a fixed prefix, the campaign id with every colon turned into
    a hyphen, a hyphen and the batch index in decimal. The queue ignores an `add`
    whose id is already present, so two batches that share an id share a job. */
module BroadcastIds {

  datatype Kind = Inbox | Push

  function JobPrefix(kind: Kind): string {
    match kind
    case Inbox => "notify-batch-"
    case Push => "push-notify-batch-"
  }

  function StripColons(s: string): string {
    seq(|s|, i requires 0 <= i < |s| => if s[i] == ':' then '-' else s[i])
  }

  function Digit(d: nat): char
    requires d < 10
  {
    '0' + d as char
  }

  function Decimal(n: nat): string {
    if n < 10 then [Digit(n)] else Decimal(n / 10) + [Digit(n % 10)]
  }

  function BatchJobId(kind: Kind, campaign: string, index: nat): string {
    JobPrefix(kind) + StripColons(campaign) + "-" + Decimal(index)
  }

  /** The numeric value of a decimal string; the inverse of `Decimal`. */
  function DecimalValue(s: string): int {
    if s == [] then 0 else 10 * DecimalValue(s[..|s| - 1]) + (s[|s| - 1] as int - '0' as int)
  }

  lemma {:induction false} DecimalRoundTrip(n: nat)
    ensures DecimalValue(Decimal(n)) == n
    ensures '-' !in Decimal(n)
  {
    if n < 10 {
      assert DecimalValue([Digit(n)]) == 10 * DecimalValue([]) + n;
    } else {
      DecimalRoundTrip(n / 10);
      var s := Decimal(n);
      assert s[..|s| - 1] == Decimal(n / 10);
    }
  }

  /** A string splits in at most one way at its last hyphen. */
  lemma LastHyphenIsUnique(a: string, d: string, a': string, d': string)
    requires '-' !in d && '-' !in d'
    requires a + "-" + d == a' + "-" + d'
    ensures a == a' && d == d'
  {
    var s, s' := a + "-" + d, a' + "-" + d';
    assert s[|a|] == '-' && s'[|a'|] == '-';
    assert |a| == |a'|;
    assert s[..|a|] == a && s'[..|a'|] == a';
    assert s[|a| + 1..] == d && s'[|a'| + 1..] == d';
  }

  /** Two batches of one queue share a job id exactly when their index is the same and
      their campaign ids differ at most in colons against hyphens. */
  lemma BatchJobIdClash(kind: Kind, c: string, i: nat, c': string, i': nat)
    ensures BatchJobId(kind, c, i) == BatchJobId(kind, c', i')
       <==> StripColons(c) == StripColons(c') && i == i'
  {
    if BatchJobId(kind, c, i) == BatchJobId(kind, c', i') {
      DecimalRoundTrip(i);
      DecimalRoundTrip(i');
      var p := JobPrefix(kind);
      LastHyphenIsUnique(p + StripColons(c), Decimal(i), p + StripColons(c'), Decimal(i'));
      assert (p + StripColons(c))[|p|..] == StripColons(c);
      assert (p + StripColons(c'))[|p|..] == StripColons(c');
    }
  }

  /** Minted campaign ids carry no colon; for those the job id determines the batch. */
  lemma ColonFreeIdsNeverClash(kind: Kind, c: string, i: nat, c': string, i': nat)
    requires ':' !in c && ':' !in c'
    requires BatchJobId(kind, c, i) == BatchJobId(kind, c', i')
    ensures c == c' && i == i'
  {
    BatchJobIdClash(kind, c, i, c', i');
    assert StripColons(c) == c && StripColons(c') == c';
  }

  lemma {:induction false} DecimalHasNoColon(n: nat)
    ensures ':' !in Decimal(n)
  {
    if n >= 10 {
      DecimalHasNoColon(n / 10);
    }
  }

  /** The queue refuses colons in custom ids: no batch job id has one, whatever the campaign id. */
  lemma JobIdHasNoColon(kind: Kind, c: string, i: nat)
    ensures ':' !in BatchJobId(kind, c, i)
  {
    DecimalHasNoColon(i);
  }

  /** Inbox and push batches never share a job id. */
  lemma KindsNeverClash(c: string, i: nat, c': string, i': nat)
    ensures BatchJobId(Inbox, c, i) != BatchJobId(Push, c', i')
  {
    assert BatchJobId(Inbox, c, i)[0] == 'n' && BatchJobId(Push, c', i')[0] == 'p';
  }

  /** With colons they may: these two campaigns share every batch job id. */
  lemma ColonsMayClash(kind: Kind, i: nat)
    ensures BatchJobId(kind, "sale:eu", i) == BatchJobId(kind, "sale-eu", i)
  {
    assert StripColons("sale:eu") == StripColons("sale-eu");
  }
}
