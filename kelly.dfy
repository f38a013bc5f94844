/**
  Position sizing by a fractional Kelly criterion: the class AdaptiveKelly of
  Trading_Bot.py. A risk-profile name selects a multiplier from a fixed table
  (falling back to 0.5 for an unknown name); `calculate` returns the Kelly
  fraction for the given odds, scaled by that multiplier and floored at 1%.

  The source computes with IEEE doubles; this model computes over `real`.
 */
module Kelly {

  /** The table RISK_PROFILES: profile name to Kelly multiplier. */
  const RiskProfiles: map<string, real> :=
    map["conservative" := 0.25, "moderate" := 0.5, "aggressive" := 1.0]

  /** The multiplier `dict.get` falls back to for a name not in the table. */
  const FallbackMultiplier: real := 0.5

  /** The profile the constructor uses when it is given none. */
  const DefaultProfile: string := "moderate"

  /** The minimum exposure `calculate` recommends, whatever the edge. */
  const Floor: real := 0.01

  /** A Kelly multiplier that every profile satisfies: positive, at most full Kelly. */
  type Multiplier = m: real | 0.0 < m <= 1.0 witness 0.5

  /** An AdaptiveKelly object: the multiplier fixed at construction. */
  datatype AdaptiveKelly = AdaptiveKelly(multiplier: Multiplier)

  /** What `calculate` produces: a fraction, or the ZeroDivisionError Python raises. */
  datatype Sizing = Sized(fraction: real) | DivisionByZero

  /** `RISK_PROFILES.get(profile, 0.5)`: every outcome is an admissible multiplier. */
  function ProfileMultiplier(profile: string): (m: real)
    ensures 0.0 < m <= 1.0
  {
    if profile in RiskProfiles then RiskProfiles[profile] else FallbackMultiplier
  }

  /** The constructor `AdaptiveKelly(profile)`: the multiplier is a table entry or the fallback. */
  function FromProfile(profile: string): (k: AdaptiveKelly)
    ensures k.multiplier in RiskProfiles.Values + {FallbackMultiplier}
  {
    AdaptiveKelly(ProfileMultiplier(profile))
  }

  /** The unscaled Kelly fraction `(p * (b + 1) - 1) / b` for win probability p and payoff ratio b. */
  function RawKelly(p: real, b: real): (raw: real)
    requires b != 0.0
    ensures raw * b == p * (b + 1.0) - 1.0
  {
    (p * (b + 1.0) - 1.0) / b
  }

  /** `max(0.01, raw_kelly * self.multiplier)`, with division by a zero ratio as an error. */
  function Calculate(k: AdaptiveKelly, p: real, b: real): (r: Sizing)
    ensures r.DivisionByZero? <==> b == 0.0
    ensures r.Sized? ==> r.fraction >= Floor
  {
    if b == 0.0 then DivisionByZero
    else
      var scaled := RawKelly(p, b) * k.multiplier;
      // Python's max returns its first argument unless the second is strictly larger.
      Sized(if scaled > Floor then scaled else Floor)
  }

  /** The larger of two reals, as a reference for the clamp. */
  function Max(x: real, y: real): (r: real)
    ensures r >= x && r >= y && (r == x || r == y)
  {
    if x >= y then x else y
  }

  // ---------------------------------------------------------------------------
  // The profile table
  // ---------------------------------------------------------------------------

  /** The table lookup agrees with a spelled-out case analysis of the three names and the fallback. */
  lemma ProfileLookup(profile: string)
    ensures FromProfile(profile).multiplier ==
      if profile == "conservative" then 0.25
      else if profile == "moderate" then 0.5
      else if profile == "aggressive" then 1.0
      else 0.5
  {
    if profile == "conservative" {
    } else if profile == "moderate" {
    } else if profile == "aggressive" {
    } else {
      assert profile !in RiskProfiles;
    }
  }

  /** Constructing without a profile name gives the moderate multiplier 0.5. */
  lemma DefaultIsModerate()
    ensures FromProfile(DefaultProfile).multiplier == 0.5
  {
    ProfileLookup(DefaultProfile);
  }

  /** The profiles are ordered by risk: conservative < moderate < aggressive. */
  lemma ProfilesOrdered()
    ensures FromProfile("conservative").multiplier < FromProfile("moderate").multiplier
    ensures FromProfile("moderate").multiplier < FromProfile("aggressive").multiplier
  {
    ProfileLookup("conservative");
    ProfileLookup("moderate");
    ProfileLookup("aggressive");
  }

  // ---------------------------------------------------------------------------
  // The sizing formula
  // ---------------------------------------------------------------------------

  /**
    For a non-zero ratio the result is the larger of the floor and the scaled
    Kelly fraction: exactly `raw * m` when that reaches the floor, exactly the
    floor otherwise.
   */
  lemma CalculateIsClampedKelly(k: AdaptiveKelly, p: real, b: real)
    requires b != 0.0
    ensures Calculate(k, p, b) == Sized(Max(Floor, RawKelly(p, b) * k.multiplier))
    ensures RawKelly(p, b) * k.multiplier >= Floor ==>
      Calculate(k, p, b) == Sized(RawKelly(p, b) * k.multiplier)
    ensures RawKelly(p, b) * k.multiplier < Floor ==> Calculate(k, p, b) == Sized(Floor)
  {
  }

  /** A positive ratio has a positive edge exactly when p * (b + 1) exceeds 1. */
  lemma EdgeSign(p: real, b: real)
    requires b > 0.0
    ensures RawKelly(p, b) > 0.0 <==> p * (b + 1.0) > 1.0
    ensures RawKelly(p, b) <= 0.0 <==> p * (b + 1.0) <= 1.0
  {
    var raw := RawKelly(p, b);
    if raw > 0.0 {
      MulPositive(raw, b);
    } else {
      MulNonPositive(raw, b);
    }
  }

  /** With a positive ratio and no edge, every profile recommends exactly the floor. */
  lemma NoEdgeGivesFloor(k: AdaptiveKelly, p: real, b: real)
    requires b > 0.0
    requires p * (b + 1.0) <= 1.0
    ensures Calculate(k, p, b) == Sized(Floor)
  {
    EdgeSign(p, b);
    MulNonPositive(RawKelly(p, b), k.multiplier);
  }

  /** p = 0.6, b = 2 with the moderate profile: raw fraction 0.4, result 0.2. */
  lemma WorkedExampleModerate()
    ensures RawKelly(0.6, 2.0) == 0.4
    ensures Calculate(FromProfile("moderate"), 0.6, 2.0) == Sized(0.2)
  {
    ProfileLookup("moderate");
  }

  /** A losing edge, p = 0.1 and b = 1 (raw fraction -0.8), gives the floor for every profile name. */
  lemma LosingEdgeGivesFloor(profile: string)
    ensures RawKelly(0.1, 1.0) == -0.8
    ensures Calculate(FromProfile(profile), 0.1, 1.0) == Sized(Floor)
  {
    NoEdgeGivesFloor(FromProfile(profile), 0.1, 1.0);
  }

  /** A zero payoff ratio is the division by zero Python raises, for every profile and probability. */
  lemma ZeroRatioFails(k: AdaptiveKelly, p: real)
    ensures Calculate(k, p, 0.0) == DivisionByZero
  {
  }

  /** For a fixed positive ratio, the recommendation never decreases as the win probability grows. */
  lemma MonotoneInProbability(k: AdaptiveKelly, p1: real, p2: real, b: real)
    requires b > 0.0
    requires p1 <= p2
    ensures Calculate(k, p1, b).fraction <= Calculate(k, p2, b).fraction
  {
    MulMonotone(p1, p2, b + 1.0);
    var raw1, raw2 := RawKelly(p1, b), RawKelly(p2, b);
    DivMonotone(p1 * (b + 1.0) - 1.0, p2 * (b + 1.0) - 1.0, b);
    MulMonotone(raw1, raw2, k.multiplier);
    CalculateIsClampedKelly(k, p1, b);
    CalculateIsClampedKelly(k, p2, b);
  }

  /** For fixed odds, a larger multiplier never recommends less: profiles with more risk size at least as large. */
  lemma MonotoneInMultiplier(k1: AdaptiveKelly, k2: AdaptiveKelly, p: real, b: real)
    requires b != 0.0
    requires k1.multiplier <= k2.multiplier
    ensures Calculate(k1, p, b).fraction <= Calculate(k2, p, b).fraction
  {
    var raw := RawKelly(p, b);
    if raw >= 0.0 {
      MulMonotone(k1.multiplier, k2.multiplier, raw);
    } else {
      MulNonPositive(raw, k1.multiplier);
      MulNonPositive(raw, k2.multiplier);
    }
  }

  /** The three named profiles size in risk order for any odds. */
  lemma ProfilesSizeInOrder(p: real, b: real)
    requires b != 0.0
    ensures Calculate(FromProfile("conservative"), p, b).fraction
         <= Calculate(FromProfile("moderate"), p, b).fraction
         <= Calculate(FromProfile("aggressive"), p, b).fraction
  {
    ProfilesOrdered();
    MonotoneInMultiplier(FromProfile("conservative"), FromProfile("moderate"), p, b);
    MonotoneInMultiplier(FromProfile("moderate"), FromProfile("aggressive"), p, b);
  }

  /** Because every multiplier is at most 1, scaling never recommends more than the floor or the unscaled fraction. */
  lemma NeverExceedsUnscaled(k: AdaptiveKelly, p: real, b: real)
    requires b != 0.0
    ensures Calculate(k, p, b).fraction <= Max(Floor, RawKelly(p, b))
  {
    var raw := RawKelly(p, b);
    var m: real := k.multiplier;
    assert 0.0 < m <= 1.0;
    if raw >= 0.0 {
      MulMonotone(m, 1.0, raw);
      assert m * raw <= raw;
      assert raw * m <= raw;
      assert raw * m <= Max(Floor, raw);
    } else {
      MulNonPositive(raw, m);
      assert raw * m <= Max(Floor, raw);
    }
    CalculateIsClampedKelly(k, p, b);
    assert Calculate(k, p, b) == Sized(Max(Floor, raw * m));
  }

  /** The aggressive profile is full Kelly: the floor or the unscaled fraction, whichever is larger. */
  lemma AggressiveIsFullKelly(p: real, b: real)
    requires b != 0.0
    ensures Calculate(FromProfile("aggressive"), p, b) == Sized(Max(Floor, RawKelly(p, b)))
  {
    ProfileLookup("aggressive");
  }

  // ---------------------------------------------------------------------------
  // Arithmetic helpers
  // ---------------------------------------------------------------------------

  lemma MulMonotone(x: real, y: real, c: real)
    requires x <= y && c >= 0.0
    ensures x * c <= y * c
  {
    assert y * c - x * c == (y - x) * c;
  }

  lemma MulPositive(x: real, c: real)
    requires x > 0.0 && c > 0.0
    ensures x * c > 0.0
  {
  }

  lemma MulNonPositive(x: real, c: real)
    requires x <= 0.0 && c > 0.0
    ensures x * c <= 0.0
  {
    MulMonotone(x, 0.0, c);
  }

  lemma DivMonotone(x: real, y: real, c: real)
    requires x <= y && c > 0.0
    ensures x / c <= y / c
  {
    MulMonotone(x, y, 1.0 / c);
    assert x / c == x * (1.0 / c);
    assert y / c == y * (1.0 / c);
  }
}
