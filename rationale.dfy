/** `generateFactors`: the list of human-readable reasons attached to a prediction, one
    check per indicator family in a fixed order, with a neutral fallback for an empty list. */
module Rationale {
  import opened Indicators

  /** The reasons the engine can give. */
  datatype Factor =
    | Overbought | Oversold
    | AboveAverages | BelowAverages
    | PositiveMomentum | NegativeMomentum
    | NearResistance | NearSupport
    | NeutralFallback

  /** The text the engine shows for each reason. */
  function Message(f: Factor): string
  {
    match f
    case Overbought => "Overbought conditions (RSI > 70)"
    case Oversold => "Oversold conditions (RSI < 30)"
    case AboveAverages => "Price above key moving averages"
    case BelowAverages => "Price below key moving averages"
    case PositiveMomentum => "Positive momentum (MACD)"
    case NegativeMomentum => "Negative momentum (MACD)"
    case NearResistance => "Price near resistance (Upper Bollinger)"
    case NearSupport => "Price near support (Lower Bollinger)"
    case NeutralFallback => "Technical analysis neutral"
  }

  /** The length of each text, spelled out so that comparing two texts starts from their lengths. */
  function TextLength(f: Factor): (n: nat)
    ensures n == |Message(f)|
  {
    match f
    case Overbought => 32
    case Oversold => 30
    case AboveAverages => 31
    case BelowAverages => 31
    case PositiveMomentum => 24
    case NegativeMomentum => 24
    case NearResistance => 39
    case NearSupport => 36
    case NeutralFallback => 26
  }

  /** Different reasons have different texts, so the shown list determines the reasons. */
  lemma MessageInjective(f: Factor, g: Factor)
    ensures Message(f) == Message(g) <==> f == g
  {
    var n, m := TextLength(f), TextLength(g);
    // Texts of equal length differ in their first or their seventh character.
    if f != g && n == m {
      assert Message(f)[0] != Message(g)[0] || Message(f)[6] != Message(g)[6];
    }
  }

  /** The check a reason comes from, numbered in the order the checks run:
      RSI, moving averages, MACD, Bollinger bands, then the fallback. */
  function Group(f: Factor): nat
  {
    match f
    case Overbought | Oversold => 0
    case AboveAverages | BelowAverages => 1
    case PositiveMomentum | NegativeMomentum => 2
    case NearResistance | NearSupport => 3
    case NeutralFallback => 4
  }

  /** RSI check: above 70 is overbought, else below 30 is oversold. */
  function RsiFactor(rsi: real): seq<Factor>
  {
    if rsi > 70.0 then [Overbought] else if rsi < 30.0 then [Oversold] else []
  }

  /** Moving-average check: strictly above both averages, else strictly below both. */
  function AverageFactor(sma20: real, sma50: real, price: real): seq<Factor>
  {
    if price > sma20 && price > sma50 then [AboveAverages]
    else if price < sma20 && price < sma50 then [BelowAverages]
    else []
  }

  /** MACD check: it always yields exactly one reason; zero counts as negative momentum. */
  function MomentumFactor(macd: real): seq<Factor>
  {
    if macd > 0.0 then [PositiveMomentum] else [NegativeMomentum]
  }

  /** Bollinger check: above the upper band, else below the lower band. */
  function BandFactor(bands: Bands, price: real): seq<Factor>
  {
    if price > bands.upper then [NearResistance]
    else if price < bands.lower then [NearSupport]
    else []
  }

  /** The reasons pushed by the four checks, in order. */
  function Checks(t: Technicals, price: real): seq<Factor>
  {
    RsiFactor(t.rsi) + AverageFactor(t.sma20, t.sma50, price) + MomentumFactor(t.macd) + BandFactor(t.bollinger, price)
  }

  /** `generateFactors` on reasons: the checks' reasons, or the neutral fallback when there are none. */
  function Factors(t: Technicals, price: real): (fs: seq<Factor>)
    ensures 1 <= |fs| <= 4
  {
    var raw := Checks(t, price);
    if |raw| > 0 then raw else [NeutralFallback]
  }

  /** The MACD check always contributes, so the neutral fallback is never shown. */
  lemma FallbackUnreachable(t: Technicals, price: real)
    ensures Factors(t, price) == Checks(t, price)
    ensures NeutralFallback !in Factors(t, price)
  {
    assert Checks(t, price)[|RsiFactor(t.rsi) + AverageFactor(t.sma20, t.sma50, price)|] in MomentumFactor(t.macd);
  }

  /** Overbought exactly when the RSI is above 70, oversold exactly when it is below 30. */
  lemma RsiReasons(t: Technicals, price: real)
    ensures Overbought in Factors(t, price) <==> t.rsi > 70.0
    ensures Oversold in Factors(t, price) <==> t.rsi < 30.0
  {
    FallbackUnreachable(t, price);
  }

  /** Above the averages exactly when the price is strictly above both, below exactly when strictly below both. */
  lemma AverageReasons(t: Technicals, price: real)
    ensures AboveAverages in Factors(t, price) <==> price > t.sma20 && price > t.sma50
    ensures BelowAverages in Factors(t, price) <==> price < t.sma20 && price < t.sma50
  {
    FallbackUnreachable(t, price);
  }

  /** Positive momentum exactly when MACD is positive, negative momentum otherwise. */
  lemma MomentumReasons(t: Technicals, price: real)
    ensures PositiveMomentum in Factors(t, price) <==> t.macd > 0.0
    ensures NegativeMomentum in Factors(t, price) <==> t.macd <= 0.0
  {
    FallbackUnreachable(t, price);
  }

  /** Near resistance exactly when the price is above the upper band; near support exactly
      when it is below the lower band and not above the upper one. */
  lemma BandReasons(t: Technicals, price: real)
    ensures NearResistance in Factors(t, price) <==> price > t.bollinger.upper
    ensures NearSupport in Factors(t, price) <==> price <= t.bollinger.upper && price < t.bollinger.lower
  {
    FallbackUnreachable(t, price);
  }

  /** The texts of a list of reasons. */
  function Messages(fs: seq<Factor>): (ms: seq<string>)
    ensures |ms| == |fs|
    ensures forall i :: 0 <= i < |fs| ==> ms[i] == Message(fs[i])
  {
    seq(|fs|, i requires 0 <= i < |fs| => Message(fs[i]))
  }

  /** The shown texts determine the reasons: `Messages` loses nothing. */
  lemma MessagesInjective(fs: seq<Factor>, gs: seq<Factor>)
    requires Messages(fs) == Messages(gs)
    ensures fs == gs
  {
    forall i | 0 <= i < |fs|
      ensures fs[i] == gs[i]
    {
      MessageInjective(fs[i], gs[i]);
    }
  }

  /** The reasons come in the order of their checks, at most one per check, and the
      fallback never appears because the MACD check always contributes. */
  lemma FactorsOrdered(t: Technicals, price: real)
    ensures var fs := Factors(t, price);
      forall i, j :: 0 <= i < j < |fs| ==> Group(fs[i]) < Group(fs[j]) < 4
  {
    var a, b := RsiFactor(t.rsi), AverageFactor(t.sma20, t.sma50, price);
    var c, d := MomentumFactor(t.macd), BandFactor(t.bollinger, price);
    assert forall x :: x in a ==> Group(x) == 0;
    assert forall x :: x in b ==> Group(x) == 1;
    assert forall x :: x in c ==> Group(x) == 2;
    assert forall x :: x in d ==> Group(x) == 3;
    var fs := Factors(t, price);
    assert fs == a + b + c + d;
  }

  /** The imperative `generateFactors`: each check pushes its reason onto the list in turn,
      and an empty list is replaced by the neutral reason. */
  method GenerateFactors(t: Technicals, price: real) returns (factors: seq<Factor>)
    ensures factors == Factors(t, price)
  {
    factors := [];
    if t.rsi > 70.0 {
      factors := factors + [Overbought];
    } else if t.rsi < 30.0 {
      factors := factors + [Oversold];
    }
    assert factors == RsiFactor(t.rsi);
    if price > t.sma20 && price > t.sma50 {
      factors := factors + [AboveAverages];
    } else if price < t.sma20 && price < t.sma50 {
      factors := factors + [BelowAverages];
    }
    assert factors == RsiFactor(t.rsi) + AverageFactor(t.sma20, t.sma50, price);
    if t.macd > 0.0 {
      factors := factors + [PositiveMomentum];
    } else {
      factors := factors + [NegativeMomentum];
    }
    assert factors == RsiFactor(t.rsi) + AverageFactor(t.sma20, t.sma50, price) + MomentumFactor(t.macd);
    if price > t.bollinger.upper {
      factors := factors + [NearResistance];
    } else if price < t.bollinger.lower {
      factors := factors + [NearSupport];
    }
    assert factors == Checks(t, price);
    if |factors| == 0 {
      factors := [NeutralFallback];
    }
  }
}
