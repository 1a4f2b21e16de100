/** Host revenue shares in basis points: the floored host credit and the rounded-up caller debit. */
module RevenueShare {
  const FULL := 10_000

  /** Gift, subscription and guardian credit. */
  function HostPoints(coinCost: int, shareBp: nat): nat {
    if coinCost <= 0 then 0 else coinCost * shareBp / FULL
  }

  /** Coins a caller pays per minute so that the host receives its price. */
  function CallerDebit(pricePerMin: int, shareBp: nat): nat
    requires shareBp > 0
  {
    if pricePerMin <= 0 then 0 else (pricePerMin * FULL + shareBp - 1) / shareBp
  }

  lemma CeilIs(x: nat, d: nat)
    requires d > 0
    ensures var q := (x + d - 1) / d; x <= q * d < x + d
  {
    var y := x + d - 1;
    assert y == (y / d) * d + y % d;
  }

  lemma MulLess(a: nat, b: nat, m: nat)
    requires a <= b
    ensures a * m <= b * m
  {
  }

  /** The debit is the least number of coins whose host share reaches the price. */
  lemma DebitIsLeast(price: int, shareBp: nat, coins: int)
    requires shareBp > 0 && price > 0
    ensures HostPoints(coins, shareBp) >= price <==> coins >= CallerDebit(price, shareBp)
  {
    var d := CallerDebit(price, shareBp);
    CeilIs(price * FULL, shareBp);
    if coins >= d {
      MulLess(d, coins, shareBp);
      assert coins * shareBp >= price * FULL;
    } else if coins > 0 {
      MulLess(coins + 1, d, shareBp);
      assert (coins + 1) * shareBp == coins * shareBp + shareBp;
      assert coins * shareBp < price * FULL;
    }
  }

  /** For every share up to 100% the host receives exactly its price from that debit. */
  lemma DebitIsExact(price: int, shareBp: nat)
    requires 0 < shareBp <= FULL && price > 0
    ensures HostPoints(CallerDebit(price, shareBp), shareBp) == price
  {
    CeilIs(price * FULL, shareBp);
    var x := CallerDebit(price, shareBp) * shareBp;
    assert price * FULL <= x < price * FULL + FULL;
  }

  /** Shares are in basis points: at 10000 the host receives what the sender or caller pays, and
      non-positive amounts pay nothing. */
  lemma FullShare(amount: int)
    ensures HostPoints(amount, 10_000) == CallerDebit(amount, 10_000) == if amount > 0 then amount else 0
  {
  }

  /** The bound on the share is needed: above 100% some price is always missed. So the debit
      is exact for every price if and only if the share is at most 100%. */
  lemma ExactIffAtMostFull(shareBp: nat)
    requires shareBp > 0
    ensures shareBp <= FULL
       <==> forall price: int :: price > 0 ==> HostPoints(CallerDebit(price, shareBp), shareBp) == price
  {
    if shareBp <= FULL {
      forall price: int | price > 0 ensures HostPoints(CallerDebit(price, shareBp), shareBp) == price {
        DebitIsExact(price, shareBp);
      }
    } else {
      var price := shareBp - 1;
      var d := CallerDebit(price, shareBp);
      CeilIs(price * FULL, shareBp);
      if d <= FULL - 1 {
        MulLess(d, FULL - 1, shareBp);
        assert d * shareBp < price * FULL;
      } else {
        MulLess(FULL, d, shareBp);
        assert HostPoints(d, shareBp) >= shareBp;
      }
      assert HostPoints(d, shareBp) != price;
    }
  }

  function Total(gifts: seq<nat>): nat {
    if gifts == [] then 0 else gifts[0] + Total(gifts[1..])
  }

  function Credited(gifts: seq<nat>, shareBp: nat): nat {
    if gifts == [] then 0 else HostPoints(gifts[0], shareBp) + Credited(gifts[1..], shareBp)
  }

  lemma FloorsAdd(a: nat, b: nat, shareBp: nat)
    ensures HostPoints(a, shareBp) + HostPoints(b, shareBp) <= HostPoints(a + b, shareBp)
         <= HostPoints(a, shareBp) + HostPoints(b, shareBp) + 1
  {
    assert (a + b) * shareBp == a * shareBp + b * shareBp;
  }

  /** Paying a total as n separate gifts never credits more, and loses at most n - 1 points. */
  lemma {:induction false} SplittingLoses(gifts: seq<nat>, shareBp: nat)
    requires gifts != []
    ensures Credited(gifts, shareBp) <= HostPoints(Total(gifts), shareBp) <= Credited(gifts, shareBp) + |gifts| - 1
  {
    if |gifts| == 1 {
      assert Total(gifts[1..]) == 0 && Credited(gifts[1..], shareBp) == 0;
    } else {
      SplittingLoses(gifts[1..], shareBp);
      FloorsAdd(gifts[0], Total(gifts[1..]), shareBp);
    }
  }
}
