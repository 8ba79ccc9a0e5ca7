/** The three-way banding of a 0-100 score that every results dashboard uses: at least 80 is
    the green tier, at least 60 the yellow tier, anything lower the red tier. Each results
    component repeats its own copy of the threshold chain; this module states the tiers once
    so that every copy can be proved to agree with them. */
module Tiers {

  datatype Tier = Green | Yellow | Red

  const HighThreshold: real := 80.0
  const MidThreshold: real := 60.0

  function TierOf(score: real): (t: Tier)
    ensures t == Green <==> score >= HighThreshold
    ensures t == Yellow <==> MidThreshold <= score < HighThreshold
    ensures t == Red <==> score < MidThreshold
  {
    if score >= HighThreshold then Green else if score >= MidThreshold then Yellow else Red
  }

  /** 2 for green, 1 for yellow, 0 for red. */
  function Rank(t: Tier): nat {
    match t
    case Green => 2
    case Yellow => 1
    case Red => 0
  }

  /** A higher score never lands in a lower tier. */
  lemma TierMonotone(a: real, b: real)
    requires a <= b
    ensures Rank(TierOf(a)) <= Rank(TierOf(b))
  {
  }

  /** The value a `score >= 80 ? strong : score >= 60 ? fair : weak` chain picks for a tier. */
  function Choose<T>(t: Tier, strong: T, fair: T, weak: T): T {
    match t
    case Green => strong
    case Yellow => fair
    case Red => weak
  }

  /** The Tailwind text colour class of a tier. */
  function TextClass(t: Tier): string {
    match t
    case Green => "text-green-600 dark:text-green-400"
    case Yellow => "text-yellow-600 dark:text-yellow-400"
    case Red => "text-red-600 dark:text-red-400"
  }

  /** The Tailwind background class of a tier. */
  function BgClass(t: Tier): string {
    match t
    case Green => "bg-green-100 dark:bg-green-900/20"
    case Yellow => "bg-yellow-100 dark:bg-yellow-900/20"
    case Red => "bg-red-100 dark:bg-red-900/20"
  }

  /** Distinct tiers have distinct text colours, so a colour names its tier. */
  lemma TextClassInjective(t: Tier, u: Tier)
    requires TextClass(t) == TextClass(u)
    ensures t == u
  {
    assert |TextClass(t)| == |TextClass(u)|;
  }

  /** Distinct tiers have distinct backgrounds. */
  lemma BgClassInjective(t: Tier, u: Tier)
    requires BgClass(t) == BgClass(u)
    ensures t == u
  {
    assert |BgClass(t)| == |BgClass(u)|;
  }
}
