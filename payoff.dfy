/** The per-leg and per-position P&L at expiry (`calculate_payoff`) and its extremes over the price grid. */
module PayoffEngine {

  /** The leg's `type` string: "call", "put", or anything else. */
  datatype OptionType = Call | Put | Unrecognised

  /** The leg's `action` string: "buy", and `Sell` for every other value. */
  datatype Action = Buy | Sell

  /** One option contract of a strategy; the unused `expiration` and `volatility` fields are not kept. */
  datatype Leg = Leg(kind: OptionType, action: Action, strike: real, premium: real, quantity: int)

  /** Contract lot size. */
  const LotSize: real := 100.0

  /** In-the-money amount at `price`; every type other than a call is valued as a put. */
  function Intrinsic(kind: OptionType, strike: real, price: real): (v: real)
    ensures v >= 0.0
    ensures kind == Call ==> (v > 0.0 <==> price > strike) && (v > 0.0 ==> v == price - strike)
    ensures kind != Call ==> (v > 0.0 <==> price < strike) && (v > 0.0 ==> v == strike - price)
  {
    if kind == Call then
      (if price - strike > 0.0 then price - strike else 0.0)
    else
      (if strike - price > 0.0 then strike - price else 0.0)
  }

  /** One leg's contribution to the total at `price`. */
  function LegPnl(price: real, leg: Leg): real
  {
    var intrinsic := Intrinsic(leg.kind, leg.strike, price);
    if leg.action == Buy then
      (intrinsic - leg.premium) * leg.quantity as real * LotSize
    else
      (leg.premium - intrinsic) * leg.quantity as real * LotSize
  }

  /**
   * A leg of no contracts contributes nothing; for a non-negative quantity a bought leg loses at most the premium
   * paid and a sold leg gains at most the premium received.
   */
  lemma LegPnlBounds(price: real, leg: Leg)
    ensures leg.quantity == 0 ==> LegPnl(price, leg) == 0.0
    ensures leg.quantity >= 0 && leg.action == Buy ==> LegPnl(price, leg) >= -leg.premium * leg.quantity as real * LotSize
    ensures leg.quantity >= 0 && leg.action == Sell ==> LegPnl(price, leg) <= leg.premium * leg.quantity as real * LotSize
  {
    var intrinsic := Intrinsic(leg.kind, leg.strike, price);
    if leg.quantity >= 0 {
      ProductNonNegative(intrinsic, leg.quantity);
      assert (intrinsic - leg.premium) * leg.quantity as real * LotSize
          == intrinsic * leg.quantity as real * LotSize - leg.premium * leg.quantity as real * LotSize;
      assert (leg.premium - intrinsic) * leg.quantity as real * LotSize
          == leg.premium * leg.quantity as real * LotSize - intrinsic * leg.quantity as real * LotSize;
    }
  }

  /** The position's P&L at `price`: the sum of its legs' contributions, in leg order. */
  function Payoff(price: real, legs: seq<Leg>): real
  {
    if |legs| == 0 then 0.0
    else Payoff(price, legs[..|legs| - 1]) + LegPnl(price, legs[|legs| - 1])
  }

  /** The loop's per-leg term, computed from the branch on the type and the branch on the action, is `LegPnl`. */
  lemma LegTerm(price: real, leg: Leg, intrinsic: real, term: real)
    requires intrinsic == (if leg.kind == Call then (if price - leg.strike > 0.0 then price - leg.strike else 0.0)
                           else (if leg.strike - price > 0.0 then leg.strike - price else 0.0))
    requires term == if leg.action == Buy then (intrinsic - leg.premium) * leg.quantity as real * 100.0
                     else (leg.premium - intrinsic) * leg.quantity as real * 100.0
    ensures term == LegPnl(price, leg)
  {
    assert intrinsic == Intrinsic(leg.kind, leg.strike, price);
  }

  /** `calculate_payoff`: accumulates `total` over the legs. */
  method CalculatePayoff(price: real, legs: seq<Leg>) returns (total: real)
    ensures total == Payoff(price, legs)
  {
    total := 0.0;
    var i := 0;
    while i < |legs|
      invariant 0 <= i <= |legs|
      invariant total == Payoff(price, legs[..i])
    {
      var opt := legs[i];
      var intrinsic: real;
      if opt.kind == Call {
        intrinsic := if price - opt.strike > 0.0 then price - opt.strike else 0.0;
      } else {
        intrinsic := if opt.strike - price > 0.0 then opt.strike - price else 0.0;
      }
      var term: real;
      if opt.action == Buy {
        term := (intrinsic - opt.premium) * opt.quantity as real * 100.0;
      } else {
        term := (opt.premium - intrinsic) * opt.quantity as real * 100.0;
      }
      LegTerm(price, opt, intrinsic, term);
      total := total + term;
      assert legs[..i + 1][..i] == legs[..i] && legs[..i + 1][i] == opt;
      i := i + 1;
    }
    assert legs[..|legs|] == legs;
  }

  /** Payoff is additive: an empty position is worth 0 and concatenating positions adds their P&L. */
  lemma {:induction false} PayoffConcat(price: real, a: seq<Leg>, b: seq<Leg>)
    ensures Payoff(price, []) == 0.0
    ensures Payoff(price, a + b) == Payoff(price, a) + Payoff(price, b)
  {
    if |b| == 0 {
      assert a + b == a;
    } else {
      var b' := b[..|b| - 1];
      assert (a + b)[..|a + b| - 1] == a + b';
      assert (a + b)[|a + b| - 1] == b[|b| - 1];
      PayoffConcat(price, a, b');
    }
  }

  function Opposite(a: Action): Action
  {
    if a == Buy then Sell else Buy
  }

  /** The same legs with every buy turned into a sell and every sell into a buy. */
  function Flipped(legs: seq<Leg>): (r: seq<Leg>)
    ensures |r| == |legs|
  {
    seq(|legs|, i requires 0 <= i < |legs| => legs[i].(action := Opposite(legs[i].action)))
  }

  /** A buy leg and the otherwise identical sell leg contribute exact negatives. */
  lemma FlippedLeg(price: real, leg: Leg)
    ensures LegPnl(price, leg.(action := Opposite(leg.action))) == -LegPnl(price, leg)
  {
    var intrinsic := Intrinsic(leg.kind, leg.strike, price);
    var scale := leg.quantity as real * LotSize;
    assert (intrinsic - leg.premium) * leg.quantity as real * LotSize == (intrinsic - leg.premium) * scale;
    assert (leg.premium - intrinsic) * leg.quantity as real * LotSize == (leg.premium - intrinsic) * scale;
    assert (leg.premium - intrinsic) * scale == -((intrinsic - leg.premium) * scale);
  }

  /** A flipped position mirrors the P&L at every price. */
  lemma {:induction false} FlippedPayoff(price: real, legs: seq<Leg>)
    ensures Payoff(price, Flipped(legs)) == -Payoff(price, legs)
  {
    if |legs| > 0 {
      var init := legs[..|legs| - 1];
      var last := legs[|legs| - 1];
      var flipped := Flipped(legs);
      assert flipped[..|legs| - 1] == Flipped(init);
      assert flipped[|legs| - 1] == last.(action := Opposite(last.action));
      FlippedPayoff(price, init);
      FlippedLeg(price, last);
    }
  }

  predicate AllBuy(legs: seq<Leg>)
  {
    forall i :: 0 <= i < |legs| ==> legs[i].action == Buy && legs[i].quantity >= 0
  }

  predicate AllSell(legs: seq<Leg>)
  {
    forall i :: 0 <= i < |legs| ==> legs[i].action == Sell && legs[i].quantity >= 0
  }

  /** Premium times quantity times lot size, summed over the legs. */
  function PremiumTotal(legs: seq<Leg>): real
  {
    if |legs| == 0 then 0.0
    else PremiumTotal(legs[..|legs| - 1]) + legs[|legs| - 1].premium * legs[|legs| - 1].quantity as real * LotSize
  }

  lemma ProductNonNegative(x: real, q: int)
    requires x >= 0.0 && q >= 0
    ensures x * q as real * LotSize >= 0.0
  {
  }

  /** Long options never lose more than the premium paid; short options never gain more than the premium received. */
  lemma {:induction false} PremiumBounds(price: real, legs: seq<Leg>)
    ensures AllBuy(legs) ==> Payoff(price, legs) >= -PremiumTotal(legs)
    ensures AllSell(legs) ==> Payoff(price, legs) <= PremiumTotal(legs)
  {
    if |legs| > 0 {
      var init := legs[..|legs| - 1];
      var last := legs[|legs| - 1];
      assert AllBuy(legs) ==> AllBuy(init);
      assert AllSell(legs) ==> AllSell(init);
      PremiumBounds(price, init);
      LegPnlBounds(price, last);
    }
  }

  /** The payoff at an integer grid price, as `range` yields them. */
  function GridPayoff(legs: seq<Leg>, p: int): real
  {
    Payoff(p as real, legs)
  }

  /** `max(calculate_payoff(p, options) for p in range(lo, hi))`; Python raises on an empty range. */
  function MaxOnGrid(legs: seq<Leg>, lo: int, hi: int): (m: real)
    requires lo < hi
    decreases hi - lo
    ensures forall p: int :: lo <= p < hi ==> GridPayoff(legs, p) <= m
    ensures exists p: int :: lo <= p < hi && GridPayoff(legs, p) == m
  {
    if lo + 1 == hi then GridPayoff(legs, lo)
    else
      var rest := MaxOnGrid(legs, lo + 1, hi);
      var here := GridPayoff(legs, lo);
      if here >= rest then here else rest
  }

  /** `min(calculate_payoff(p, options) for p in range(lo, hi))`; Python raises on an empty range. */
  function MinOnGrid(legs: seq<Leg>, lo: int, hi: int): (m: real)
    requires lo < hi
    decreases hi - lo
    ensures forall p: int :: lo <= p < hi ==> m <= GridPayoff(legs, p)
    ensures exists p: int :: lo <= p < hi && GridPayoff(legs, p) == m
  {
    if lo + 1 == hi then GridPayoff(legs, lo)
    else
      var rest := MinOnGrid(legs, lo + 1, hi);
      var here := GridPayoff(legs, lo);
      if here <= rest then here else rest
  }

  /** A single long call bought for premium `p` breaks even at strike plus premium and loses the whole premium at or below the strike. */
  lemma LongCallProfile(strike: real, premium: real, price: real)
    requires premium >= 0.0
    ensures Payoff(strike + premium, [Leg(Call, Buy, strike, premium, 1)]) == 0.0
    ensures price <= strike ==> Payoff(price, [Leg(Call, Buy, strike, premium, 1)]) == -premium * LotSize
  {
    assert [Leg(Call, Buy, strike, premium, 1)][..0] == [];
  }
}
