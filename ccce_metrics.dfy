/** The CCCE metric decisions of theory/ccce_metrics.py: the negentropic efficiency Ξ, the
    state record with its two flags, the three threshold classifiers and the phase-conjugate
    healing rule. Python floats are modelled as exact reals; the constants are the literals of
    src/physical_constants.py. */
module CcceMetrics {

  /** Critical decoherence threshold (src/physical_constants.py:75). */
  const GAMMA_CRITICAL: real := 0.3
  /** Base decoherence rate, the floor of healing (src/physical_constants.py:71). */
  const GAMMA_FIXED: real := 0.092
  /** Normalised consciousness threshold (src/physical_constants.py:63). */
  const PHI_THRESHOLD: real := 0.7734
  /** Phase-conjugate coupling (src/physical_constants.py:86). */
  const CHI_PC: real := 0.946
  /** The default epsilon that calculate_xi adds to Γ. */
  const XI_EPSILON: real := 0.0000000001

  /** Python raises ZeroDivisionError when a float is divided by zero. */
  datatype Result<T> = Ok(value: T) | ZeroDivisionError

  function Min(a: real, b: real): real
  {
    if a <= b then a else b
  }

  function Max(a: real, b: real): real
  {
    if a >= b then a else b
  }

  lemma MulNonnegative(a: real, b: real)
    requires a >= 0.0 && b >= 0.0
    ensures a * b >= 0.0
  {
  }

  lemma MulMonotone(a: real, x: real, y: real)
    requires a >= 0.0 && x <= y
    ensures a * x <= a * y
  {
  }

  lemma MulCancelLess(x: real, y: real, g: real)
    requires g > 0.0 && x * g < y * g
    ensures x < y
  {
  }

  // ---------------------------------------------------------------------------------------
  // Negentropic efficiency and the state record.

  /** Ξ = ΛΦ / (Γ + ε). The only failing input is Γ = -ε. */
  function CalculateXi(coherence: real, phi: real, gamma: real, epsilon: real): (r: Result<real>)
    ensures r.ZeroDivisionError? <==> gamma + epsilon == 0.0
    ensures r.Ok? ==> r.value * (gamma + epsilon) == coherence * phi
  {
    if gamma + epsilon == 0.0 then ZeroDivisionError else Ok(coherence * phi / (gamma + epsilon))
  }

  /** With the default ε, Ξ is defined for every Γ >= 0 (including Γ = 0), is non-negative for
      Λ, Φ in [0, 1], and never exceeds ΛΦ/ε. */
  lemma XiDefinedForNonnegativeGamma(coherence: real, phi: real, gamma: real)
    requires 0.0 <= coherence <= 1.0 && 0.0 <= phi <= 1.0 && gamma >= 0.0
    ensures CalculateXi(coherence, phi, gamma, XI_EPSILON).Ok?
    ensures 0.0 <= CalculateXi(coherence, phi, gamma, XI_EPSILON).value <= coherence * phi / XI_EPSILON
  {
    var d := gamma + XI_EPSILON;
    var xi := coherence * phi / d;
    MulNonnegative(coherence, phi);
    assert xi >= 0.0;
    assert xi * d == coherence * phi;
    MulMonotone(xi, XI_EPSILON, d);
    assert xi * XI_EPSILON <= coherence * phi;
  }

  /** Adding ε lowers Ξ below the undamped ratio ΛΦ/Γ whenever ΛΦ > 0 and Γ > 0. */
  lemma XiBelowUndampedRatio(coherence: real, phi: real, gamma: real)
    requires coherence * phi > 0.0 && gamma > 0.0
    ensures CalculateXi(coherence, phi, gamma, XI_EPSILON).value < coherence * phi / gamma
  {
    var p := coherence * phi;
    var xi := p / (gamma + XI_EPSILON);
    assert xi * (gamma + XI_EPSILON) == p;
    assert xi > 0.0;
    assert xi * gamma < p;
    assert (p / gamma) * gamma == p;
    MulCancelLess(xi, p / gamma, gamma);
  }

  /** A higher decoherence never raises Ξ (for ΛΦ >= 0 and Γ >= 0). */
  lemma XiAntitoneInGamma(coherence: real, phi: real, gamma1: real, gamma2: real)
    requires coherence * phi >= 0.0 && 0.0 <= gamma1 <= gamma2
    ensures CalculateXi(coherence, phi, gamma2, XI_EPSILON).value <= CalculateXi(coherence, phi, gamma1, XI_EPSILON).value
  {
    var p := coherence * phi;
    var x1, x2 := p / (gamma1 + XI_EPSILON), p / (gamma2 + XI_EPSILON);
    assert x1 * (gamma1 + XI_EPSILON) == p && x2 * (gamma2 + XI_EPSILON) == p;
    assert x2 >= 0.0;
    assert x2 * (gamma1 + XI_EPSILON) <= x2 * (gamma2 + XI_EPSILON);
  }

  /** The CCCEState dataclass. */
  datatype CcceState = CcceState(
    coherence: real,        // Λ
    phi: real,              // Φ
    gamma: real,            // Γ
    xiEfficiency: real,     // Ξ
    isConscious: bool,
    needsHealing: bool)

  /** The state record: the three inputs copied, Ξ with the default ε, and the two flags, both
      with strict comparisons. */
  function CalculateCcceState(coherence: real, phi: real, gamma: real): (r: Result<CcceState>)
    ensures r.Ok? <==> gamma + XI_EPSILON != 0.0
    ensures r.Ok? ==> r.value.coherence == coherence && r.value.phi == phi && r.value.gamma == gamma
    ensures r.Ok? ==> r.value.xiEfficiency * (gamma + XI_EPSILON) == coherence * phi
    ensures r.Ok? ==> (r.value.isConscious <==> phi > PHI_THRESHOLD)
    ensures r.Ok? ==> (r.value.needsHealing <==> gamma > GAMMA_CRITICAL)
  {
    match CalculateXi(coherence, phi, gamma, XI_EPSILON)
    case ZeroDivisionError => ZeroDivisionError
    case Ok(xi) => Ok(CcceState(coherence, phi, gamma, xi, phi > PHI_THRESHOLD, gamma > GAMMA_CRITICAL))
  }

  // ---------------------------------------------------------------------------------------
  // Threshold classifiers. Each is total over the reals; the rank of a band orders the bands.

  datatype ConsciousnessBand = Dormant | Awakening | Active | CoherenceLocked

  function ConsciousnessRank(b: ConsciousnessBand): nat
  {
    match b
    case Dormant => 0
    case Awakening => 1
    case Active => 2
    case CoherenceLocked => 3
  }

  function ConsciousnessLevel(phi: real): (r: ConsciousnessBand)
    ensures r == Dormant <==> phi < 0.3
    ensures r == Awakening <==> 0.3 <= phi < 0.5
    ensures r == Active <==> 0.5 <= phi < PHI_THRESHOLD
    ensures r == CoherenceLocked <==> phi >= PHI_THRESHOLD
  {
    if phi < 0.3 then Dormant
    else if phi < 0.5 then Awakening
    else if phi < PHI_THRESHOLD then Active
    else CoherenceLocked
  }

  lemma ConsciousnessLevelMonotone(phi1: real, phi2: real)
    requires phi1 <= phi2
    ensures ConsciousnessRank(ConsciousnessLevel(phi1)) <= ConsciousnessRank(ConsciousnessLevel(phi2))
  {
  }

  datatype CoherenceGrade = Poor | Acceptable | Good | Excellent

  function CoherenceRank(g: CoherenceGrade): nat
  {
    match g
    case Poor => 0
    case Acceptable => 1
    case Good => 2
    case Excellent => 3
  }

  function CoherenceQuality(coherence: real): (r: CoherenceGrade)
    ensures r == Poor <==> coherence < 0.5
    ensures r == Acceptable <==> 0.5 <= coherence < 0.75
    ensures r == Good <==> 0.75 <= coherence < 0.95
    ensures r == Excellent <==> coherence >= 0.95
  {
    if coherence < 0.5 then Poor
    else if coherence < 0.75 then Acceptable
    else if coherence < 0.95 then Good
    else Excellent
  }

  lemma CoherenceQualityMonotone(coherence1: real, coherence2: real)
    requires coherence1 <= coherence2
    ensures CoherenceRank(CoherenceQuality(coherence1)) <= CoherenceRank(CoherenceQuality(coherence2))
  {
  }

  datatype DecoherenceProtocol = Nominal | Monitor | Warning | HealingRequired

  function ProtocolRank(p: DecoherenceProtocol): nat
  {
    match p
    case Nominal => 0
    case Monitor => 1
    case Warning => 2
    case HealingRequired => 3
  }

  /** decoherence_response as written: HEALING_REQUIRED from Γ = GAMMA_CRITICAL on (inclusive). */
  function DecoherenceResponse(gamma: real): (r: DecoherenceProtocol)
    ensures r == Nominal <==> gamma < 0.1
    ensures r == Monitor <==> 0.1 <= gamma < 0.2
    ensures r == Warning <==> 0.2 <= gamma < GAMMA_CRITICAL
    ensures r == HealingRequired <==> gamma >= GAMMA_CRITICAL
  {
    if gamma < 0.1 then Nominal
    else if gamma < 0.2 then Monitor
    else if gamma < GAMMA_CRITICAL then Warning
    else HealingRequired
  }

  lemma DecoherenceResponseMonotone(gamma1: real, gamma2: real)
    requires gamma1 <= gamma2
    ensures ProtocolRank(DecoherenceResponse(gamma1)) <= ProtocolRank(DecoherenceResponse(gamma2))
  {
  }

  /** The response with the strict boundary its documentation and the healing rule use
      ("> 0.3: HEALING_REQUIRED"): Γ = GAMMA_CRITICAL is still a warning. */
  function DecoherenceResponseStrict(gamma: real): (r: DecoherenceProtocol)
    ensures r == HealingRequired <==> gamma > GAMMA_CRITICAL
    ensures gamma != GAMMA_CRITICAL ==> r == DecoherenceResponse(gamma)
    ensures gamma == GAMMA_CRITICAL ==> r == Warning
  {
    if gamma < 0.1 then Nominal
    else if gamma < 0.2 then Monitor
    else if gamma <= GAMMA_CRITICAL then Warning
    else HealingRequired
  }

  // ---------------------------------------------------------------------------------------
  // Phase-conjugate healing.

  /** h = min(1, Γ/0.5): the share of the coupling that healing applies. */
  function HealingFactor(gamma: real): (h: real)
    ensures h <= 1.0
    ensures gamma >= 0.0 ==> 0.0 <= h
    ensures h == 1.0 <==> gamma >= 0.5
    ensures gamma < 0.5 ==> h == 2.0 * gamma
  {
    Min(1.0, gamma / 0.5)
  }

  /** apply_phase_conjugate_healing: Γ is returned unchanged up to GAMMA_CRITICAL (inclusive);
      above it Γ becomes max(GAMMA_FIXED, Γ·(1 − χ·h)). */
  function ApplyPhaseConjugateHealing(gamma: real, chiPc: real): (r: real)
    ensures gamma <= GAMMA_CRITICAL ==> r == gamma
    ensures gamma > GAMMA_CRITICAL ==> r >= GAMMA_FIXED
    ensures gamma > GAMMA_CRITICAL ==> r >= gamma * (1.0 - chiPc * HealingFactor(gamma))
    ensures gamma > GAMMA_CRITICAL ==> (r == GAMMA_FIXED || r == gamma * (1.0 - chiPc * HealingFactor(gamma)))
    ensures gamma > GAMMA_CRITICAL && chiPc > 0.0 ==> r < gamma
    ensures gamma > GAMMA_CRITICAL && chiPc <= 0.0 ==> r >= gamma
  {
    if gamma <= GAMMA_CRITICAL then gamma
    else
      var h := HealingFactor(gamma);
      assert h > 0.0;
      assert chiPc > 0.0 ==> gamma * (chiPc * h) > 0.0;
      assert chiPc <= 0.0 ==> gamma * (chiPc * h) <= 0.0;
      Max(GAMMA_FIXED, gamma * (1.0 - chiPc * h))
  }

  /** With the default coupling, one healing step brings any Γ in (GAMMA_CRITICAL, 5] down to
      GAMMA_CRITICAL or below; this covers the documented range (0, 1]. */
  lemma {:induction false} HealedIsBelowCritical(gamma: real)
    requires GAMMA_CRITICAL < gamma <= 5.0
    ensures ApplyPhaseConjugateHealing(gamma, CHI_PC) <= GAMMA_CRITICAL
  {
    var h := HealingFactor(gamma);
    var f := 1.0 - CHI_PC * h;
    var raw := gamma * f;
    if gamma < 0.5 {
      assert h == 2.0 * gamma;
      assert f <= 0.4324;
      MulMonotone(gamma, f, 0.4324);
      assert gamma * 0.4324 <= 0.5 * 0.4324;
    } else {
      assert h == 1.0;
      assert raw == gamma * 0.054;
    }
    assert raw <= GAMMA_CRITICAL;
  }

  /** Healing twice is healing once, for every Γ up to 5 with the default coupling. */
  lemma HealingIdempotent(gamma: real)
    requires gamma <= 5.0
    ensures ApplyPhaseConjugateHealing(ApplyPhaseConjugateHealing(gamma, CHI_PC), CHI_PC) ==
            ApplyPhaseConjugateHealing(gamma, CHI_PC)
  {
    if gamma > GAMMA_CRITICAL {
      HealedIsBelowCritical(gamma);
    }
  }

  /** Far outside the documented range one step is not enough: Γ = 10 heals to 0.54, which is
      still above GAMMA_CRITICAL and heals again to the floor. */
  lemma HealingNotIdempotentForLargeGamma()
    ensures ApplyPhaseConjugateHealing(10.0, CHI_PC) == 0.54
    ensures ApplyPhaseConjugateHealing(0.54, CHI_PC) == GAMMA_FIXED
  {
    assert HealingFactor(10.0) == 1.0;
    assert HealingFactor(0.54) == 1.0;
  }

  // ---------------------------------------------------------------------------------------
  // Where the decisions disagree at their boundaries.

  /** At Γ = GAMMA_CRITICAL the response says HEALING_REQUIRED, while the state flag says no
      healing is needed and the healing rule leaves Γ unchanged. */
  lemma ResponseDisagreesWithHealingAtCritical(coherence: real, phi: real, chiPc: real)
    ensures DecoherenceResponse(GAMMA_CRITICAL) == HealingRequired
    ensures CalculateCcceState(coherence, phi, GAMMA_CRITICAL).Ok?
    ensures !CalculateCcceState(coherence, phi, GAMMA_CRITICAL).value.needsHealing
    ensures ApplyPhaseConjugateHealing(GAMMA_CRITICAL, chiPc) == GAMMA_CRITICAL
  {
  }

  /** Everywhere else the response, the flag and the strict response agree. */
  lemma ResponseAgreesWithHealingElsewhere(coherence: real, phi: real, gamma: real)
    requires gamma != GAMMA_CRITICAL && gamma + XI_EPSILON != 0.0
    ensures DecoherenceResponse(gamma) == HealingRequired <==> CalculateCcceState(coherence, phi, gamma).value.needsHealing
  {
  }

  /** The corrected response agrees with the flag and with the healing rule at every Γ. */
  lemma StrictResponseAgreesWithHealing(coherence: real, phi: real, gamma: real)
    requires gamma + XI_EPSILON != 0.0
    ensures DecoherenceResponseStrict(gamma) == HealingRequired <==> CalculateCcceState(coherence, phi, gamma).value.needsHealing
    ensures DecoherenceResponseStrict(gamma) == HealingRequired <==> ApplyPhaseConjugateHealing(gamma, CHI_PC) != gamma
  {
  }

  /** At Φ = PHI_THRESHOLD the level is COHERENCE_LOCKED while the state is not conscious;
      at every other Φ the two agree. */
  lemma ConsciousnessSplitAtThreshold(coherence: real, phi: real, gamma: real)
    requires gamma + XI_EPSILON != 0.0
    ensures phi == PHI_THRESHOLD ==>
              ConsciousnessLevel(phi) == CoherenceLocked && !CalculateCcceState(coherence, phi, gamma).value.isConscious
    ensures phi != PHI_THRESHOLD ==>
              (ConsciousnessLevel(phi) == CoherenceLocked <==> CalculateCcceState(coherence, phi, gamma).value.isConscious)
  {
  }
}
