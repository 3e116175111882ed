/** The per-leg loop of `get_roll_suggestions`: move tested legs to a strike beyond the current price. */
module Roll {
  import opened Wrappers
  import opened Numeric
  import opened PayoffEngine

  /** One suggestion: the leg as it stands, the strike to roll to, and `(new - old) * 0.1`. */
  datatype RollSuggestion = RollSuggestion(original: Leg, suggestedStrike: int, estimatedCreditDebit: real)

  /** A suggestion to move `leg` to `newStrike`, emitted only when the strike changes. */
  function SuggestStrike(leg: Leg, newStrike: int): Option<RollSuggestion>
  {
    if newStrike as real != leg.strike then
      Some(RollSuggestion(leg, newStrike, (newStrike as real - leg.strike) * 0.1))
    else None
  }

  /** A call the price has moved above, or a put the price has moved below. */
  predicate Tested(currentPrice: real, leg: Leg)
  {
    (leg.kind == Call && currentPrice > leg.strike) || (leg.kind == Put && currentPrice < leg.strike)
  }

  /**
   * A call below the price rolls to the multiple of 5 nearest the price plus 5, a put above the price
   * to that multiple minus 5; the new strike is then always on the far side of the old one.
   */
  function RollFor(currentPrice: real, leg: Leg): (s: Option<RollSuggestion>)
    ensures s.Some? <==> Tested(currentPrice, leg)
    ensures s.Some? ==>
      && s.value.original == leg
      && s.value.suggestedStrike % 5 == 0
      && s.value.estimatedCreditDebit == (s.value.suggestedStrike as real - leg.strike) * 0.1
    ensures s.Some? && leg.kind == Call ==>
      && s.value.suggestedStrike == NearestFive(currentPrice) + 5
      && s.value.suggestedStrike as real > leg.strike
      && s.value.estimatedCreditDebit > 0.0
    ensures s.Some? && leg.kind == Put ==>
      && s.value.suggestedStrike == NearestFive(currentPrice) - 5
      && s.value.suggestedStrike as real < leg.strike
      && s.value.estimatedCreditDebit < 0.0
  {
    if leg.kind == Call && currentPrice > leg.strike then SuggestStrike(leg, NearestFive(currentPrice) + 5)
    else if leg.kind == Put && currentPrice < leg.strike then SuggestStrike(leg, NearestFive(currentPrice) - 5)
    else None
  }

  /** The suggestions for the legs, in leg order. */
  function Suggestions(currentPrice: real, legs: seq<Leg>): (r: seq<RollSuggestion>)
    ensures |r| <= |legs|
    ensures forall i :: 0 <= i < |r| ==> r[i].original in legs && RollFor(currentPrice, r[i].original) == Some(r[i])
  {
    if |legs| == 0 then []
    else
      var init := Suggestions(currentPrice, legs[..|legs| - 1]);
      match RollFor(currentPrice, legs[|legs| - 1])
      case Some(s) => init + [s]
      case None => init
  }

  /** The loop of lines 494-507, appending to `suggestions`. */
  method RollSuggestions(currentPrice: real, options: seq<Leg>) returns (suggestions: seq<RollSuggestion>)
    ensures suggestions == Suggestions(currentPrice, options)
  {
    suggestions := [];
    var i := 0;
    while i < |options|
      invariant 0 <= i <= |options|
      invariant suggestions == Suggestions(currentPrice, options[..i])
    {
      var opt := options[i];
      var newStrike: real := opt.strike;
      if opt.kind == Call && currentPrice > opt.strike {
        newStrike := (NearestFive(currentPrice) + 5) as real;
      } else if opt.kind == Put && currentPrice < opt.strike {
        newStrike := (NearestFive(currentPrice) - 5) as real;
      }
      if newStrike != opt.strike {
        suggestions := suggestions + [RollSuggestion(opt, newStrike.Floor, (newStrike - opt.strike) * 0.1)];
      }
      assert options[..i + 1][..i] == options[..i];
      i := i + 1;
    }
    assert options[..|options|] == options;
  }

  /** Suggestions for a split position are those of the first part followed by those of the second. */
  lemma {:induction false} SuggestionsConcat(currentPrice: real, a: seq<Leg>, b: seq<Leg>)
    ensures Suggestions(currentPrice, a + b) == Suggestions(currentPrice, a) + Suggestions(currentPrice, b)
  {
    if |b| == 0 {
      assert a + b == a;
    } else {
      var b' := b[..|b| - 1];
      assert (a + b)[..|a + b| - 1] == a + b';
      assert (a + b)[|a + b| - 1] == b[|b| - 1];
      SuggestionsConcat(currentPrice, a, b');
    }
  }

  /** How many legs are tested: calls below the price and puts above it. */
  function TestedCount(currentPrice: real, legs: seq<Leg>): nat
  {
    if |legs| == 0 then 0
    else TestedCount(currentPrice, legs[..|legs| - 1]) + (if Tested(currentPrice, legs[|legs| - 1]) then 1 else 0)
  }

  /** Exactly one suggestion per tested leg; untested legs (and legs of any other type) add none. */
  lemma {:induction false} SuggestionCount(currentPrice: real, legs: seq<Leg>)
    ensures |Suggestions(currentPrice, legs)| == TestedCount(currentPrice, legs)
  {
    if |legs| > 0 {
      SuggestionCount(currentPrice, legs[..|legs| - 1]);
    }
  }
}
