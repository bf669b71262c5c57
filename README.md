# CCCE metrics, phase conjugation and the wormhole circuits, in Dafny

This project models three parts of the DNA-Lang theory code and proves properties about them.

- **The CCCE metric decisions** (`theory/ccce_metrics.py`). These are:
  - the negentropic efficiency Ξ = ΛΦ/(Γ+ε);
  - the `CCCEState` record with its `is_conscious` and `needs_healing` flags;
  - the three threshold classifiers (consciousness level, coherence quality, decoherence response);
  - the phase-conjugate healing rule, with its `GAMMA_FIXED` floor.
- **The phase-conjugation module** (`theory/phase_conjugation.py`). This covers:
  - the healing-efficiency rule of `PhaseConjugateOperator`;
  - the five-stage description of the traversable wormhole (`_define_stages`);
  - the `WormholeCircuit` OpenQASM 2.0 emitter, stage by stage and as a whole program.
- **The maximum-advantage experiment** (`experiments/max_qubit_advantage.py`). This covers:
  - the classical-simulation and quantum-execution cost estimates, and the advantage factor they give;
  - the per-backend circuit design;
  - the five-layer wormhole program emitter.

Modelling choices:

- **Numbers.** Python floats are exact `real`s and Python ints are unbounded `int`s. `range(k)` runs `Span(k)` times, which is zero for k ≤ 0. Integer `//` on the non-negative sizes used here is Dafny's `/`. `int()` of a float truncates toward zero (`Truncate`).
- **QASM lines.** Each emitted line is a value of the `Qasm.Line` datatype, not text. Rotation angles are symbolic:
  - `AngleTag` tags the lock angle and the phase-conjugate angle. `LockRad`/`PcRad` are the radian constants of `phase_conjugation.py`; `LockRounded`/`PcRounded` are the literals 0.9047 and 2.2368 of `max_qubit_advantage.py`.
  - An `rz` line records a sign and the integer k of its angle 0.1·k.
- **Loops.** Every emitter loop is a Dafny `method` with a `while` loop. It is proved equal to a recursive specification function in `Qasm` (`TfdPairs`, `RyRun`, `ScrambleLayers`, `ReverseLayers`). The properties are proved about those functions:
  - the exact line at each position;
  - every qubit index inside `q[n]`;
  - gate counts;
  - the reverse-scrambling stage is the inverse circuit of the scrambling stage;
  - stage order, header and measurement.
- **Shared layer loops.** The two inner loops of one scrambling layer, and of one undone layer, appear in both emitters. Each is one shared method, `Qasm.ScrambleLayerLines` and `Qasm.ReverseLayerLines`.
- **`WormholeCircuit`** is a class. Its fields are constants, because `__init__` sets them once and nothing changes them.
- **`full_qasm` joins whole stage strings.** It joins with `"\n"` strings that were themselves joined stage by stage. A stage with no gate therefore becomes one empty line, which `PhaseConjugation.Embed` models. `qasm_max_advantage_circuit` appends gate lines directly, so it has no such line.

## Model

| member | source | states |
|---|---|---|
| CcceMetrics.CalculateXi | theory/ccce_metrics.py:40-63 | Fails exactly when Γ+ε = 0; otherwise Ξ·(Γ+ε) = ΛΦ |
| CcceMetrics.XiDefinedForNonnegativeGamma | theory/ccce_metrics.py:40-63 | With the default ε, Ξ is defined for every Γ ≥ 0; when also Λ, Φ ∈ [0,1], it lies in [0, ΛΦ/ε] |
| CcceMetrics.XiBelowUndampedRatio | theory/ccce_metrics.py:63 | Adding ε keeps Ξ strictly below ΛΦ/Γ |
| CcceMetrics.XiAntitoneInGamma | theory/ccce_metrics.py:63 | A larger Γ never raises Ξ |
| CcceMetrics.CalculateCcceState | theory/ccce_metrics.py:66-93 | Copies Λ, Φ, Γ; Ξ is the efficiency of the three; is_conscious ⇔ Φ > PHI_THRESHOLD; needs_healing ⇔ Γ > GAMMA_CRITICAL |
| CcceMetrics.ConsciousnessLevel | theory/ccce_metrics.py:96-113 | Each band holds exactly on its half-open interval; COHERENCE_LOCKED ⇔ Φ ≥ PHI_THRESHOLD |
| CcceMetrics.ConsciousnessLevelMonotone | theory/ccce_metrics.py:106-113 | A larger Φ never gives a lower band |
| CcceMetrics.CoherenceQuality | theory/ccce_metrics.py:116-133 | The four grades partition the reals at 0.5, 0.75 and 0.95 |
| CcceMetrics.CoherenceQualityMonotone | theory/ccce_metrics.py:126-133 | A larger Λ never gives a lower grade |
| CcceMetrics.DecoherenceResponse | theory/ccce_metrics.py:136-153 | The four protocols partition the reals at 0.1, 0.2 and 0.3; HEALING_REQUIRED ⇔ Γ ≥ GAMMA_CRITICAL |
| CcceMetrics.DecoherenceResponseMonotone | theory/ccce_metrics.py:146-153 | A larger Γ never gives a lower protocol |
| CcceMetrics.DecoherenceResponseStrict | theory/ccce_metrics.py:140-144 | The documented bands: HEALING_REQUIRED ⇔ Γ > GAMMA_CRITICAL; Γ = GAMMA_CRITICAL is WARNING; same as the code at every other Γ |
| CcceMetrics.HealingFactor | theory/ccce_metrics.py:179 | h = min(1, Γ/0.5): at most 1, non-negative for Γ ≥ 0, equal to 1 ⇔ Γ ≥ 0.5, and 2Γ below 0.5 |
| CcceMetrics.ApplyPhaseConjugateHealing | theory/ccce_metrics.py:156-182 | Γ unchanged up to GAMMA_CRITICAL; above it, the result is max(GAMMA_FIXED, Γ·(1−χh)): at least both, and equal to one of them; it is below Γ for χ > 0 and at least Γ for χ ≤ 0 |
| CcceMetrics.HealedIsBelowCritical | theory/ccce_metrics.py:158-182 | With χ = 0.946, one step takes any Γ in (0.3, 5] to at most GAMMA_CRITICAL |
| CcceMetrics.HealingIdempotent | theory/ccce_metrics.py:176-182 | Healing twice equals healing once for Γ ≤ 5 |
| CcceMetrics.HealingNotIdempotentForLargeGamma | theory/ccce_metrics.py:176-182 | At Γ = 10 one step gives 0.54 and a second step gives the floor 0.092 |
| CcceMetrics.ResponseDisagreesWithHealingAtCritical | theory/ccce_metrics.py:84 | At Γ = 0.3 the response is HEALING_REQUIRED while needs_healing is false and healing leaves Γ unchanged |
| CcceMetrics.ResponseAgreesWithHealingElsewhere | theory/ccce_metrics.py:84 | At every other Γ, HEALING_REQUIRED ⇔ needs_healing |
| CcceMetrics.StrictResponseAgreesWithHealing | theory/ccce_metrics.py:176-177 | The strict response agrees with needs_healing and with "healing changes Γ" at every Γ |
| CcceMetrics.ConsciousnessSplitAtThreshold | theory/ccce_metrics.py:83 | At Φ = PHI_THRESHOLD the level is COHERENCE_LOCKED but the state is not conscious; at every other Φ the two agree |
| PhaseConjugation.DefineStages | theory/phase_conjugation.py:162-195 | Five stages in order with their gate lists (["RZ","CX"]×3, ["CX†","RZ†"]×3, …) and angles |
| PhaseConjugation.StagesArePaired | theory/phase_conjugation.py:27-29 | Stage 5's list is the adjoints of stage 3's list, reversed; lock angle + trigger angle = 180 |
| PhaseConjugation.ReversedRepeat | theory/phase_conjugation.py:180 | Reversing k copies of a block gives k copies of the reversed block |
| PhaseConjugation.DaggerAllRepeat | theory/phase_conjugation.py:192 | The adjoints of k copies of a block are k copies of the block's adjoints |
| PhaseConjugation.TfdStageFollowsLabels | theory/phase_conjugation.py:168 | Emitted line j of stage 1 is a gate of the kind named by label j mod 3 |
| PhaseConjugation.PhaseConjugateOperator.HealingEfficiency | theory/phase_conjugation.py:118-135 | Γ_after = Γ·(1 − χh) for every Γ; for Γ > 0 the efficiency is χ·h, so Γ_after = Γ·(1 − efficiency); for Γ ≤ 0 the efficiency is 0 |
| PhaseConjugation.HealingEfficiencyBounds | theory/phase_conjugation.py:131-135 | For Γ > 0 and χ ≥ 0: efficiency ∈ [0, χ], Γ_after ≤ Γ, and efficiency = χ ⇔ Γ ≥ 0.5 (when χ > 0) |
| PhaseConjugation.NewPhaseConjugateOperator | theory/phase_conjugation.py:52-60 | The coupling is always CHI_PC |
| PhaseConjugation.HealingRulesAgreeAboveCritical | theory/phase_conjugation.py:131-132 | Above GAMMA_CRITICAL, the metric's healing (theory/ccce_metrics.py:176-182) equals max(GAMMA_FIXED, the operator's Γ_after) |
| PhaseConjugation.HealingRulesDisagreeBelowCritical | theory/phase_conjugation.py:131-132 | For 0 < Γ ≤ 0.3 the operator lowers Γ while the metric's healing leaves it unchanged |
| PhaseConjugation.OperatorHasNoFloor | theory/phase_conjugation.py:131-135 | At Γ = 1 the operator gives (0.054, 0.946): below GAMMA_FIXED |
| PhaseConjugation.Embed | theory/phase_conjugation.py:256-269 | A non-empty stage is kept; an empty one becomes a single blank line |
| PhaseConjugation.WormholeCircuit.constructor | theory/phase_conjugation.py:150-160 | Stores the register size it is given; the throat, the stage table and the operator follow from it as constants |
| PhaseConjugation.WormholeCircuit.QasmStage1Tfd | theory/phase_conjugation.py:220-233 | Emits the bridge pairs h, ry(θ_lock), cx q[i], q[i + n//2] for each throat qubit |
| PhaseConjugation.WormholeCircuit.QasmStage4PhaseConjugate | theory/phase_conjugation.py:235-245 | Emits n//2 ry(θ_PC) lines on qubits (n//2)//2 + i |
| PhaseConjugation.WormholeCircuit.ScramblingLayer | theory/phase_conjugation.py:277-285 | Emits three layers of rz(0.1·(i+layer)) on every qubit, then the cx ladder |
| PhaseConjugation.WormholeCircuit.ReverseScramblingLayer | theory/phase_conjugation.py:287-295 | Emits layers 2, 1, 0, each the cx ladder walked down, then the negated rz from the top qubit down |
| PhaseConjugation.WormholeCircuit.FullQasm | theory/phase_conjugation.py:247-275 | Emits the header, the five titled stages in order, and the measurement |
| PhaseConjugation.WormholeProgramFrame | theory/phase_conjugation.py:249-253 | The program starts with the four header lines and ends with `measure q -> c;` |
| PhaseConjugation.WormholeGateSequence | theory/phase_conjugation.py:247-275 | Read gate by gate, the program is stages 1 to 5 in order |
| PhaseConjugation.ReverseScramblingInvertsScrambling | theory/phase_conjugation.py:277-295 | Stage 5 is the inverse circuit of stage 3, and stage 3 the inverse of stage 5 |
| PhaseConjugation.ScramblingStageLength | theory/phase_conjugation.py:280-284 | For n ≥ 1 the scrambling stage has 3·(2n−1) lines |
| PhaseConjugation.StagesWithin | theory/phase_conjugation.py:226-294 | For n ≥ 1 every gate of the five stages names qubits below n |
| PhaseConjugation.WormholeWithinRegister | theory/phase_conjugation.py:247-275 | Every qubit the program names is inside `q[n]` ⇔ n ≥ 1 |
| PhaseConjugation.WormholeCountByStage | theory/phase_conjugation.py:247-275 | Each gate count of the program is the sum of the five stage counts |
| PhaseConjugation.ScramblingCounts | theory/phase_conjugation.py:277-295 | Stages 3 and 5 each hold three layers' worth of every gate kind |
| PhaseConjugation.BoundaryStageCounts | theory/phase_conjugation.py:226-245 | Stage 1 has n//2 each of h, ry, cx; stage 2 one h and one ry; stage 4 n//2 ry |
| PhaseConjugation.WormholeGateCounts | theory/phase_conjugation.py:247-295 | For n ≥ 1: h = n//2+1, ry = n//2+1+n//2, rz = 6n, cx = n//2 + 6(n−1) |
| Qasm.TfdPairsClosedForm | theory/phase_conjugation.py:226-231 | The pair stage has 3k lines; line j is h, ry or cx of pair j//3 by j mod 3 |
| Qasm.TfdPairsWithin | experiments/max_qubit_advantage.py:215-218 | With throat n//2, every pair stays inside `q[n]` |
| Qasm.TfdPairsPartners | experiments/max_qubit_advantage.py:218 | Every cx target is its control plus n//2, and below n |
| Qasm.RyRunClosedForm | experiments/max_qubit_advantage.py:235-236 | A run of k ry lines; line j is on qubit lo + j |
| Qasm.ScrambleLayerLines | experiments/max_qubit_advantage.py:228-231 | One layer: n rz lines then the n−1 ladder cx lines |
| Qasm.ReverseLayerLines | experiments/max_qubit_advantage.py:241-244 | One undone layer: the ladder from the top down, then the negated rz from the top down |
| Qasm.ScrambleLayersLength | theory/phase_conjugation.py:280-284 | `layers` layers of Span(n) + Span(n−1) lines each |
| Qasm.ScrambleLayersWithin | theory/phase_conjugation.py:281-284 | Every scrambling gate names qubits below n |
| Qasm.InverseInvolution | theory/phase_conjugation.py:287-295 | Inverting a circuit twice gives it back |
| Qasm.InverseConcat | theory/phase_conjugation.py:287-295 | The inverse of a + b is the inverse of b followed by the inverse of a |
| Qasm.RzDownInvertsRzUp | theory/phase_conjugation.py:293-294 | The downward negated rz run is the inverse of the upward rz run |
| Qasm.CxDownInvertsCxUp | theory/phase_conjugation.py:291-292 | The downward cx ladder is the inverse of the upward ladder |
| Qasm.ReverseLayersInvertScramble | experiments/max_qubit_advantage.py:227-244 | Undoing the layers from the last one down gives exactly the inverse circuit |
| Qasm.CountInverse | theory/phase_conjugation.py:287-295 | An inverse circuit has the same gate counts |
| Qasm.CountScramble | experiments/max_qubit_advantage.py:227-231 | `layers` layers hold `layers` times one layer's count of each kind |
| Qasm.CountTfdPairs | experiments/max_qubit_advantage.py:215-218 | k pairs hold k h, k ry, k cx and no rz |
| Qasm.CountRyRun | experiments/max_qubit_advantage.py:235-236 | A run of k ry lines holds k ry and nothing else |
| Qasm.GatesConcat | theory/phase_conjugation.py:275 | Joining programs joins their gate sequences |
| Qasm.WithinGates | theory/phase_conjugation.py:275 | A program names only qubits in `q[n]` ⇔ its gates do |
| Qasm.CountGates | theory/phase_conjugation.py:275 | Comments, blanks and declarations add no gate |
| Qasm.StagedGates | experiments/max_qubit_advantage.py:202-250 | The gates of a titled five-stage program are the stages' gates in order |
| Qasm.StagedFrame | experiments/max_qubit_advantage.py:202-250 | A titled five-stage program starts with its preamble and ends with the measurement |
| Qasm.StagedCount | experiments/max_qubit_advantage.py:202-250 | Its gate counts are the sums of the stage counts |
| MaxQubitAdvantage.Pow2Succ | experiments/max_qubit_advantage.py:51 | 2^(n+1) = 2·2^n, for negative n as well |
| MaxQubitAdvantage.CalculateClassicalResources | experiments/max_qubit_advantage.py:42-73 | hilbert = 2^n (`Pow2`, with 2^(n+1) = 2·2^n) and > 0; memory·1024⁴ = 16·hilbert; flops = 10·hilbert·depth·n; time·10¹⁸ = flops; years·(365.25·24·3600) = time |
| MaxQubitAdvantage.MemoryAt36Qubits | experiments/max_qubit_advantage.py:51-55 | 36 qubits need exactly one TiB |
| MaxQubitAdvantage.MemoryDoublesPerQubit | experiments/max_qubit_advantage.py:51-55 | Each extra qubit doubles the memory |
| MaxQubitAdvantage.ClassicalTimeMoreThanDoubles | experiments/max_qubit_advantage.py:59-65 | For n, depth ≥ 1, one more qubit more than doubles the simulation time |
| MaxQubitAdvantage.CalculateQuantumResources | experiments/max_qubit_advantage.py:76-93 | circuit time = 100 + 2n; (total − 60)·10⁶ = shots·(circuit + 10); total ≥ 60 for shots ≥ 0 and n ≥ −55; total > 0 ⇔ shots·(110+2n) > −6·10⁷ |
| MaxQubitAdvantage.QuantumTimeAtMostDoubles | experiments/max_qubit_advantage.py:81-91 | One more qubit at most doubles the execution time |
| MaxQubitAdvantage.EstimateAdvantage | experiments/max_qubit_advantage.py:96-116 | Copies the cost fields; infinite ⇔ quantum time ≤ 0; otherwise factor·quantum time = classical time |
| MaxQubitAdvantage.AdvantageFiniteForRealShots | experiments/max_qubit_advantage.py:104-107 | For shots ≥ 0 and n ≥ −55 the factor is finite, ≥ 0 for n, depth ≥ 0, and > 0 for n, depth ≥ 1 |
| MaxQubitAdvantage.AdvantageInfiniteExample | experiments/max_qubit_advantage.py:106-107 | The infinite branch is reachable, e.g. with n = −100 and a million shots |
| MaxQubitAdvantage.AdvantageGrowsWithQubits | experiments/max_qubit_advantage.py:96-107 | One more qubit strictly raises the advantage |
| MaxQubitAdvantage.Truncate | experiments/max_qubit_advantage.py:164 | `int()` of a float: the integer toward zero within distance 1 |
| MaxQubitAdvantage.Lookup | experiments/max_qubit_advantage.py:159 | A listed name selects its processor; any other name selects `ibm_fez` |
| MaxQubitAdvantage.OptimalDepth | experiments/max_qubit_advantage.py:164-165 | The depth is min(int(1/(n·err·0.1)), 500): never above 500, and equal to the truncation whenever that is at most 500 |
| MaxQubitAdvantage.DepthAtLeastOne | experiments/max_qubit_advantage.py:164-165 | n·err ≤ 10 gives a depth of at least one |
| MaxQubitAdvantage.OptimalDepths | experiments/max_qubit_advantage.py:18-23 | torino 15, fez 16, marrakesh 16, quebec 9 |
| MaxQubitAdvantage.DesignMaxAdvantageCircuit | experiments/max_qubit_advantage.py:155-195 | Keeps the name passed in; uses the looked-up size; depth in [1, 500]; the gate estimates h = n, ry = 2n + n//2, rz = 5n, cx = n//2 + 10(n−1); a finite positive advantage |
| MaxQubitAdvantage.TargetExponent | experiments/max_qubit_advantage.py:209 | For n ≥ 0, int(0.3n) is the largest e with 10e ≤ 3n |
| MaxQubitAdvantage.EmitBellPairs | experiments/max_qubit_advantage.py:214-218 | Emits the bridge pairs on q[i], q[i + throat] |
| MaxQubitAdvantage.EmitScrambling | experiments/max_qubit_advantage.py:225-231 | Emits five layers of rz(0.1·(layer+1)) and the ladder |
| MaxQubitAdvantage.EmitTrigger | experiments/max_qubit_advantage.py:233-236 | Emits throat//4 ry(θ_PC) lines, on consecutive qubits starting at throat//2 |
| MaxQubitAdvantage.EmitReverseScrambling | experiments/max_qubit_advantage.py:238-244 | Emits layers 4 down to 0, each undone |
| MaxQubitAdvantage.QasmMaxAdvantageCircuit | experiments/max_qubit_advantage.py:198-250 | Emits the preamble, the five titled stages and the measurement |
| MaxQubitAdvantage.MaxAdvantageFrame | experiments/max_qubit_advantage.py:202-212 | Header first, then the title and target-exponent comments; measurement last |
| MaxQubitAdvantage.MaxAdvantageGateSequence | experiments/max_qubit_advantage.py:198-250 | Read gate by gate, the program is stages 1 to 5 in order |
| MaxQubitAdvantage.Stage5InvertsStage3 | experiments/max_qubit_advantage.py:227-244 | Stage 5 is the inverse circuit of stage 3 and vice versa |
| MaxQubitAdvantage.TriggerPlacement | experiments/max_qubit_advantage.py:235-236 | throat//4 lines, line j on qubit throat//2 + j, all inside the throat [0, n//2) |
| MaxQubitAdvantage.StagesWithin | experiments/max_qubit_advantage.py:214-244 | For n ≥ 1 every gate of the five stages names qubits below n |
| MaxQubitAdvantage.MaxAdvantageWithinRegister | experiments/max_qubit_advantage.py:198-250 | Every qubit the program names is inside `q[n]` ⇔ n ≥ 1 |
| MaxQubitAdvantage.MaxCountByStage | experiments/max_qubit_advantage.py:198-250 | Each gate count is the sum of the five stage counts |
| MaxQubitAdvantage.ScramblingCounts | experiments/max_qubit_advantage.py:227-244 | Stages 3 and 5 each hold five layers' worth of every kind |
| MaxQubitAdvantage.BoundaryStageCounts | experiments/max_qubit_advantage.py:214-236 | Stage 1 has n//2 each of h, ry, cx; stage 2 one h and one ry; stage 4 throat//4 ry |
| MaxQubitAdvantage.MaxAdvantageGateCounts | experiments/max_qubit_advantage.py:198-250 | For n ≥ 1: h = n//2+1, ry = n//2+1+n//2//4, rz = 10n, cx = n//2 + 10(n−1) |
| MaxQubitAdvantage.EstimateAgainstProgram | experiments/max_qubit_advantage.py:183-188 | For every backend, the cx estimate equals the emitted count; the rz estimate is half the emitted count; the h and ry estimates exceed what is emitted |

## Left out

- `PhaseConjugateOperator.rotation_matrix`, `apply` and `_apply_to_qubit`: numpy complex matrices, Kronecker products, cos and sin.
- `calculate_phi_from_entropy` and the tau modulation: transcendental float functions.
- `organism_health_report`, `build_circuit_description`, `time_reversal_explanation`, `generate_advantage_table` and the `__main__` blocks: printing and text formatting.
- `theory/electrogravitic_coupling.py`: float physics formulas and numpy tensors, outside this model.
- `src/physical_constants.py` is not part of this model. The four constants used (0.3, 0.092, 0.7734, 0.946) are copied as literals.
- Float rounding and overflow are not modelled: every float is an exact real. This covers the `OverflowError` that `2 ** n` raises for very large n when divided as a float, and the rounding of `memory_tb`, the times and `n * 0.3`.
- Decimal rendering of angles in QASM text. Angles are tags and integer tenths, not formatted floats.
- The trailing `// Phase conjugate trigger` and `// E → E⁻¹` comments on trigger lines are not modelled. Each trigger line is modelled by its gate alone.
- `PhaseConjugateOperator.theta_pc` is kept only as a tag, because nothing modelled uses its value.
- The `'structure'` strings of the design are a `CircuitStructure` record of their numbers and the angle tag, not text.
- CcceMetrics.HealedIsBelowCritical: proved for Γ up to 5, which covers the documented range (0, 1]. `HealingNotIdempotentForLargeGamma` shows that it fails at Γ = 10.
- MaxQubitAdvantage.OptimalDepth: requires n·err ≠ 0. The source raises `ZeroDivisionError` there, and no listed backend reaches it.

## Findings

| source | as written | input that shows it | evidently intended | confidence | as-written member | corrected member |
|---|---|---|---|---|---|---|
| theory/ccce_metrics.py:150-153 | `decoherence_response` reports HEALING_REQUIRED from Γ ≥ GAMMA_CRITICAL, although its documentation says "> 0.3" and both `needs_healing` (line 84) and `apply_phase_conjugate_healing` (line 176) treat Γ = 0.3 as needing no healing | Γ = 0.3: the response is HEALING_REQUIRED, `needs_healing` is false, and healing returns 0.3 unchanged | HEALING_REQUIRED only for Γ > GAMMA_CRITICAL, in agreement with the flag and the healing rule | not executed | CcceMetrics.ResponseDisagreesWithHealingAtCritical | CcceMetrics.StrictResponseAgreesWithHealing |
