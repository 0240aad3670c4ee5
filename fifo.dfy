// FIFO lot matching: a sell consumes the oldest open buy lots first, a
// partly consumed lot going back to the front of the queue.

module Fifo {

  /** An open buy lot: tokens still held, the pre-tax amount they stand for
      (`cost`) and the price paid. */
  datatype Lot = Lot(amount: real, cost: real, price: real)

  /** The outcome of matching one sell: the queue left over, the token amount
      matched, and the matched cost basis (the sum of `match_cost * price`). */
  datatype Match = Match(rest: seq<Lot>, matched: real, basis: real)

  /** Every lot holds a positive amount: each is a divisor when matched. */
  predicate AllPositive(q: seq<Lot>)
  {
    forall i :: 0 <= i < |q| ==> q[i].amount > 0.0
  }

  /** `sum(b["amount"] for b in buy_queue)`: the tokens still held. */
  function Total(q: seq<Lot>): real
  {
    if q == [] then 0.0 else q[0].amount + Total(q[1..])
  }

  /** The cost basis of the lots: the sum of `cost * price`. */
  function Basis(q: seq<Lot>): real
  {
    if q == [] then 0.0 else q[0].cost * q[0].price + Basis(q[1..])
  }

  /** The part of a lot's cost carried by `m` of its tokens (`match_cost`). */
  function CostShare(lot: Lot, m: real): real
    requires lot.amount > 0.0
  {
    lot.cost * (m / lot.amount)
  }

  /** What is left of `lot` once `m` of its tokens are matched: the rest of its
      amount, the matching part of its cost, the same price. */
  function Remainder(lot: Lot, m: real): Lot
    requires lot.amount > 0.0
  {
    Lot(lot.amount - m, CostShare(lot, lot.amount - m), lot.price)
  }

  function Min(a: real, b: real): real
  {
    if a <= b then a else b
  }

  /** `proceeds * (matched / from_wallet)`: the sell's proceeds in proportion to
      the amount matched; nothing is matched when `from_wallet` is not positive. */
  function Share(proceeds: real, matched: real, fromWallet: real): real
  {
    if fromWallet > 0.0 then proceeds * (matched / fromWallet) else 0.0
  }

  /** A sell matched in full earns all of its proceeds. */
  lemma ShareWhole(proceeds: real, fromWallet: real)
    requires fromWallet > 0.0
    ensures Share(proceeds, fromWallet, fromWallet) == proceeds
  {
    assert fromWallet / fromWallet == 1.0;
  }

  /** What a sell adds to the realized PnL: its proceeds share minus the basis
      of the lots it consumed. */
  function SellGain(proceeds: real, fromWallet: real, m: Match): real
  {
    Share(proceeds, m.matched, fromWallet) - m.basis
  }

  /** Matches `toMatch` tokens against the queue, oldest lot first. A lot larger
      than what is left to match is split, its remainder (with the matching
      part of its cost) staying at the front. */
  function Consume(q: seq<Lot>, toMatch: real): (m: Match)
    requires AllPositive(q)
    ensures AllPositive(m.rest)
    decreases |q|
  {
    if toMatch <= 0.0 || q == [] then Match(q, 0.0, 0.0)
    else if toMatch < q[0].amount then
      Match([Remainder(q[0], toMatch)] + q[1..], toMatch, CostShare(q[0], toMatch) * q[0].price)
    else
      var m := Consume(q[1..], toMatch - q[0].amount);
      Match(m.rest, q[0].amount + m.matched, CostShare(q[0], q[0].amount) * q[0].price + m.basis)
  }

  lemma {:induction false} TotalNonnegative(q: seq<Lot>)
    requires AllPositive(q)
    ensures Total(q) >= 0.0
    ensures q != [] ==> Total(q) >= q[0].amount
  {
    if q != [] {
      TotalNonnegative(q[1..]);
    }
  }

  lemma {:induction false} TotalAppend(q: seq<Lot>, lot: Lot)
    ensures Total(q + [lot]) == Total(q) + lot.amount
  {
    if q != [] {
      TotalAppend(q[1..], lot);
      assert (q + [lot])[1..] == q[1..] + [lot];
    }
  }

  lemma {:induction false} BasisAppend(q: seq<Lot>, lot: Lot)
    ensures Basis(q + [lot]) == Basis(q) + lot.cost * lot.price
  {
    if q != [] {
      BasisAppend(q[1..], lot);
      assert (q + [lot])[1..] == q[1..] + [lot];
    }
  }

  /** A sell matches exactly the smaller of what it asks for and what is held,
      so the queue never holds a negative amount. */
  lemma {:induction false} ConsumeAmount(q: seq<Lot>, toMatch: real)
    requires AllPositive(q)
    ensures Consume(q, toMatch).matched == (if toMatch <= 0.0 then 0.0 else Min(toMatch, Total(q)))
    ensures Total(Consume(q, toMatch).rest) == Total(q) - Consume(q, toMatch).matched
    ensures Total(Consume(q, toMatch).rest) >= 0.0
    decreases |q|
  {
    TotalNonnegative(q);
    if toMatch > 0.0 && q != [] {
      TotalNonnegative(q[1..]);
      if toMatch >= q[0].amount {
        ConsumeAmount(q[1..], toMatch - q[0].amount);
      }
    }
  }

  /** Splitting a lot's amount in two splits its cost the same way. */
  lemma CostSplit(lot: Lot, x: real, y: real)
    requires lot.amount > 0.0 && x + y == lot.amount
    ensures CostShare(lot, x) * lot.price + CostShare(lot, y) * lot.price == lot.cost * lot.price
  {
    var a := lot.amount;
    assert x / a + y / a == 1.0;
    calc {
      CostShare(lot, x) + CostShare(lot, y);
      lot.cost * (x / a) + lot.cost * (y / a);
      lot.cost * (x / a + y / a);
      lot.cost;
    }
  }

  /** All of a lot's tokens carry all of its cost. */
  lemma CostWhole(lot: Lot)
    requires lot.amount > 0.0
    ensures CostShare(lot, lot.amount) == lot.cost
  {
    assert lot.amount / lot.amount == 1.0;
  }

  /** Splitting the front lot moves the matched part of its basis out of the
      queue and keeps the rest. */
  lemma RemainderBasis(lot: Lot, tail: seq<Lot>, m: real)
    requires lot.amount > 0.0
    ensures Basis([Remainder(lot, m)] + tail) + CostShare(lot, m) * lot.price == Basis([lot] + tail)
  {
    assert ([Remainder(lot, m)] + tail)[1..] == tail;
    assert ([lot] + tail)[1..] == tail;
    CostSplit(lot, lot.amount - m, m);
  }

  /** A sell that takes the whole front lot moves all of its basis. */
  lemma ConsumeWhole(q: seq<Lot>, toMatch: real)
    requires AllPositive(q) && q != [] && toMatch >= q[0].amount
    ensures var m := Consume(q[1..], toMatch - q[0].amount);
      Consume(q, toMatch) == Match(m.rest, q[0].amount + m.matched, q[0].cost * q[0].price + m.basis)
  {
    CostWhole(q[0]);
  }

  /** Matching moves cost basis from the queue to the sell and creates none. */
  lemma {:induction false} ConsumeBasis(q: seq<Lot>, toMatch: real)
    requires AllPositive(q)
    ensures Basis(q) == Basis(Consume(q, toMatch).rest) + Consume(q, toMatch).basis
    decreases |q|
  {
    if toMatch > 0.0 && q != [] {
      var lot := q[0];
      if toMatch < lot.amount {
        RemainderBasis(lot, q[1..], toMatch);
        assert q == [lot] + q[1..];
      } else {
        ConsumeBasis(q[1..], toMatch - lot.amount);
        ConsumeWhole(q, toMatch);
      }
    }
  }

  /** Oldest lots go first: what is left is a suffix of the queue, except that
      its first lot may be the remainder of a split lot, at that lot's price. */
  lemma {:induction false} ConsumeOrder(q: seq<Lot>, toMatch: real)
    requires AllPositive(q)
    ensures |Consume(q, toMatch).rest| <= |q|
    ensures var rest, k := Consume(q, toMatch).rest, |q| - |Consume(q, toMatch).rest|;
      rest != [] ==> rest[1..] == q[k + 1..] && rest[0].price == q[k].price && rest[0].amount <= q[k].amount
    decreases |q|
  {
    if toMatch > 0.0 && q != [] && toMatch >= q[0].amount {
      ConsumeOrder(q[1..], toMatch - q[0].amount);
      var rest := Consume(q, toMatch).rest;
      var k := |q| - |rest|;
      if rest != [] {
        assert q[1..][k - 1..] == q[k..];
        assert q[1..][k - 1 + 1..] == q[k + 1..];
      }
    }
  }

  /** The first lot left, `q[k]` or its remainder, is `q[k]` less what the
      sell took from it: all it matched beyond the lots before `q[k]`. */
  lemma {:induction false} ConsumeFront(q: seq<Lot>, toMatch: real)
    requires AllPositive(q)
    ensures |Consume(q, toMatch).rest| <= |q|
    ensures var m, k := Consume(q, toMatch), |q| - |Consume(q, toMatch).rest|;
      m.rest != [] ==> m.rest[0] == Remainder(q[k], m.matched - Total(q[..k]))
    decreases |q|
  {
    if toMatch > 0.0 && q != [] && toMatch >= q[0].amount {
      ConsumeFront(q[1..], toMatch - q[0].amount);
      var m := Consume(q, toMatch);
      var k := |q| - |m.rest|;
      if m.rest != [] {
        assert q[1..][k - 1] == q[k];
        assert q[..k][1..] == q[1..][..k - 1];
      }
    } else if q != [] {
      CostWhole(q[0]);
    }
  }

  /** Proceeds shares of successive matches add up. */
  lemma ShareStep(proceeds: real, x: real, y: real, fromWallet: real)
    ensures Share(proceeds, x, fromWallet) + Share(proceeds, y, fromWallet) == Share(proceeds, x + y, fromWallet)
  {
    if fromWallet > 0.0 {
      assert x / fromWallet + y / fromWallet == (x + y) / fromWallet;
      calc {
        proceeds * (x / fromWallet) + proceeds * (y / fromWallet);
        proceeds * (x / fromWallet + y / fromWallet);
      }
    }
  }

  /** The state of the matching loop of one sell: `matched` tokens and
      `basis` cost basis are matched so far, `toMatch` remain, and matching
      them against `q` completes the match of the whole sell. */
  ghost predicate MatchState(queue: seq<Lot>, fromWallet: real, proceeds: real, q: seq<Lot>,
                             toMatch: real, matched: real, basis: real, gain: real)
    requires AllPositive(queue)
  {
    && AllPositive(q)
    && toMatch == fromWallet - matched
    && (toMatch > 0.0 ==> fromWallet > 0.0)
    && Consume(queue, fromWallet)
       == Match(Consume(q, toMatch).rest, matched + Consume(q, toMatch).matched, basis + Consume(q, toMatch).basis)
    && gain == Share(proceeds, matched, fromWallet) - basis
  }

  /** The oldest lot is larger than what is left to match: it is split, and
      nothing is left to match. */
  lemma PartialStep(queue: seq<Lot>, fromWallet: real, proceeds: real, q: seq<Lot>,
                    toMatch: real, matched: real, basis: real, gain: real,
                    q': seq<Lot>, matched': real, basis': real, gain': real)
    requires AllPositive(queue)
    requires MatchState(queue, fromWallet, proceeds, q, toMatch, matched, basis, gain)
    requires q != [] && 0.0 < toMatch < q[0].amount
    requires q' == [Remainder(q[0], toMatch)] + q[1..]
    requires matched' == matched + toMatch
    requires basis' == basis + CostShare(q[0], toMatch) * q[0].price
    requires gain' == gain + Share(proceeds, toMatch, fromWallet) - CostShare(q[0], toMatch) * q[0].price
    ensures MatchState(queue, fromWallet, proceeds, q', 0.0, matched', basis', gain')
  {
    assert Consume(q, toMatch) == Match(q', toMatch, CostShare(q[0], toMatch) * q[0].price);
    assert Consume(q', 0.0) == Match(q', 0.0, 0.0);
    ShareStep(proceeds, matched, toMatch, fromWallet);
  }

  /** The oldest lot is matched in full and leaves the queue. */
  lemma FullStep(queue: seq<Lot>, fromWallet: real, proceeds: real, q: seq<Lot>,
                 toMatch: real, matched: real, basis: real, gain: real,
                 toMatch': real, matched': real, basis': real, gain': real)
    requires AllPositive(queue)
    requires MatchState(queue, fromWallet, proceeds, q, toMatch, matched, basis, gain)
    requires q != [] && toMatch >= q[0].amount
    requires toMatch' == toMatch - q[0].amount
    requires matched' == matched + q[0].amount
    requires basis' == basis + CostShare(q[0], q[0].amount) * q[0].price
    requires gain' == gain + Share(proceeds, q[0].amount, fromWallet) - CostShare(q[0], q[0].amount) * q[0].price
    ensures MatchState(queue, fromWallet, proceeds, q[1..], toMatch', matched', basis', gain')
  {
    var buy := q[0];
    var r := Consume(q[1..], toMatch');
    assert Consume(q, toMatch) == Match(r.rest, buy.amount + r.matched, CostShare(buy, buy.amount) * buy.price + r.basis);
    ShareStep(proceeds, matched, buy.amount, fromWallet);
  }

  /** The matching loop of one sell (`to_match`, `buy_queue.popleft`,
      `appendleft` of the leftover), accumulating its realized PnL. */
  method MatchSell(queue: seq<Lot>, amount: real, fromWallet: real, price: real) returns (q: seq<Lot>, gain: real)
    requires AllPositive(queue)
    ensures q == Consume(queue, fromWallet).rest
    ensures gain == SellGain(amount * price, fromWallet, Consume(queue, fromWallet))
  {
    q := queue;
    gain := 0.0;
    var toMatch := fromWallet;
    var proceeds := amount * price;
    ghost var matched := 0.0;
    ghost var basis := 0.0;
    while toMatch > 0.0 && q != []
      invariant MatchState(queue, fromWallet, proceeds, q, toMatch, matched, basis, gain)
      decreases |q|, if toMatch > 0.0 then 1 else 0
    {
      ghost var q0, t0, m0, b0, g0 := q, toMatch, matched, basis, gain;
      var buy := q[0];
      q := q[1..];
      var matchAmount := Min(toMatch, buy.amount);
      var matchCost := CostShare(buy, matchAmount);
      gain := gain + Share(proceeds, matchAmount, fromWallet) - matchCost * buy.price;
      toMatch := toMatch - matchAmount;
      matched := matched + matchAmount;
      basis := basis + matchCost * buy.price;
      var leftover := buy.amount - matchAmount;
      if leftover > 0.0 {
        q := [Remainder(buy, matchAmount)] + q;
        PartialStep(queue, fromWallet, proceeds, q0, t0, m0, b0, g0, q, matched, basis, gain);
      } else {
        FullStep(queue, fromWallet, proceeds, q0, t0, m0, b0, g0, toMatch, matched, basis, gain);
      }
    }
  }

  /** Selling 120 tokens out of lots of 100 and 50 takes the whole first lot
      and 20 of the second; 30 tokens stay, carrying 30 of the second lot's
      cost, and the matched basis is 100 * 1 + 20 * 2. */
  lemma ConsumeExample()
    ensures Consume([Lot(100.0, 100.0, 1.0), Lot(50.0, 50.0, 2.0)], 120.0)
         == Match([Lot(30.0, 30.0, 2.0)], 120.0, 140.0)
  {
    var a, b := Lot(100.0, 100.0, 1.0), Lot(50.0, 50.0, 2.0);
    ConsumeWhole([a, b], 120.0);
    assert [a, b][1..] == [b];
    SplitExample();
  }

  lemma SplitExample()
    ensures Consume([Lot(50.0, 50.0, 2.0)], 20.0) == Match([Lot(30.0, 30.0, 2.0)], 20.0, 40.0)
  {
    var b := Lot(50.0, 50.0, 2.0);
    assert CostShare(b, 30.0) == 30.0;
    assert CostShare(b, 20.0) == 20.0;
  }

  /** A sell larger than the holdings matches only what is held and empties
      the queue: the inventory never goes negative. */
  lemma OversellExample()
    ensures Consume([Lot(100.0, 100.0, 1.0)], 500.0).matched == 100.0
    ensures Consume([Lot(100.0, 100.0, 1.0)], 500.0).rest == []
  {
    ConsumeAmount([Lot(100.0, 100.0, 1.0)], 500.0);
  }
}
