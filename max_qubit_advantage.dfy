// Maximum qubit advantage: the resource estimates for classical simulation and quantum
// execution, the advantage they imply, the per-backend circuit design, and the OpenQASM 2.0
// emitter of the five-layer wormhole circuit.

module MaxQubitAdvantage {
  import opened Qasm

  // ---------------------------------------------------------------------------------------
  // Backends.

  datatype Processor = Processor(qubits: int, kind: string, cxError: real)

  const IBM_PROCESSORS: map<string, Processor> := map[
    "ibm_torino" := Processor(133, "Heron", 0.005),
    "ibm_fez" := Processor(156, "Heron r2", 0.004),
    "ibm_marrakesh" := Processor(156, "Heron r2", 0.004),
    "ibm_quebec" := Processor(127, "Eagle r3", 0.008)
  ]

  /** Seconds in a Julian year, 365.25 · 24 · 3600. */
  const SECONDS_PER_YEAR: real := 31557600.0
  /** One tebibyte, 1024^4 bytes. */
  const TEBIBYTE: real := 1099511627776.0
  const EXAFLOP: real := 1000000000000000000.0

  // ---------------------------------------------------------------------------------------
  // Powers of two. A negative exponent gives the reciprocal, as `2 ** n` does for n < 0.

  function Pow2Nat(k: nat): (r: real)
    ensures r >= 1.0
  {
    if k == 0 then 1.0 else 2.0 * Pow2Nat(k - 1)
  }

  function Pow2(n: int): (r: real)
    ensures r > 0.0
  {
    if n >= 0 then Pow2Nat(n) else 1.0 / Pow2Nat(-n)
  }

  /** Raising the exponent by one doubles the power, on both sides of zero. */
  lemma Pow2Succ(n: int)
    ensures Pow2(n + 1) == 2.0 * Pow2(n)
  {
    if n < -1 {
      var d := Pow2Nat(-n - 1);
      assert Pow2Nat(-n) == 2.0 * d;
      assert 1.0 / d == 2.0 * (1.0 / (2.0 * d));
    }
  }

  lemma {:induction false} Pow2NatShift(a: nat, k: nat)
    ensures Pow2Nat(a + k) == Pow2Nat(a) * Pow2Nat(k)
    decreases k
  {
    if k > 0 {
      Pow2NatShift(a, k - 1);
    }
  }

  // ---------------------------------------------------------------------------------------
  // Real-number helpers.

  lemma MulPositive(a: real, b: real)
    requires a > 0.0 && b > 0.0
    ensures a * b > 0.0
  {
  }

  lemma MulStrict(a: real, x: real, y: real)
    requires a > 0.0 && x < y
    ensures a * x < a * y
  {
  }

  /** Dividing by a positive number keeps a strict order. */
  lemma DivStrict(x: real, y: real, q: real)
    requires q > 0.0 && x < y
    ensures x / q < y / q
  {
  }

  /** A positive number divided by a larger positive number gives a smaller quotient. */
  lemma DivAntitone(a: real, q1: real, q2: real)
    requires a > 0.0 && 0.0 < q1 <= q2
    ensures a / q2 <= a / q1
  {
  }

  /** A ratio grows when its numerator more than doubles while its positive denominator at
      most doubles. */
  lemma RatioGrows(c0: real, c1: real, q0: real, q1: real)
    requires 0.0 < 2.0 * c0 < c1 && 0.0 < q0 && 0.0 < q1 <= 2.0 * q0
    ensures c0 / q0 < c1 / q1
  {
    DivAntitone(c1, q1, 2.0 * q0);
    DivStrict(2.0 * c0, c1, 2.0 * q0);
    assert 2.0 * c0 / (2.0 * q0) == c0 / q0;
  }

  // ---------------------------------------------------------------------------------------
  // Classical simulation cost.

  datatype ClassicalResources = ClassicalResources(
    hilbertDim: real,
    memoryTb: real,
    flops: real,
    classicalTimeSeconds: real,
    classicalTimeYears: real)

  /** A state vector of 2^n complex amplitudes at 16 bytes each, ten floating-point
      operations per amplitude for each of `depth · n` gates, on an exaflop machine. */
  function CalculateClassicalResources(nQubits: int, circuitDepth: int): (r: ClassicalResources)
    ensures r.hilbertDim == Pow2(nQubits)
    ensures r.hilbertDim > 0.0 && r.memoryTb > 0.0
    ensures r.memoryTb * TEBIBYTE == 16.0 * r.hilbertDim
    ensures r.flops == 10.0 * r.hilbertDim * (circuitDepth * nQubits) as real
    ensures r.classicalTimeSeconds * EXAFLOP == r.flops
    ensures r.classicalTimeYears * SECONDS_PER_YEAR == r.classicalTimeSeconds
  {
    var hilbertDim := Pow2(nQubits);
    var memoryBytes := hilbertDim * 16.0;
    var memoryTb := memoryBytes / TEBIBYTE;
    var gatesPerLayer := nQubits;
    var totalGates := circuitDepth * gatesPerLayer;
    var flops := hilbertDim * totalGates as real * 10.0;
    var classicalTimeSeconds := flops / EXAFLOP;
    ClassicalResources(hilbertDim, memoryTb, flops, classicalTimeSeconds,
                       classicalTimeSeconds / SECONDS_PER_YEAR)
  }

  /** The state vector fills one TiB at 36 qubits ... */
  lemma MemoryAt36Qubits(circuitDepth: int)
    ensures CalculateClassicalResources(36, circuitDepth).memoryTb == 1.0
  {
    Pow2At36();
    var r := CalculateClassicalResources(36, circuitDepth);
    assert r.memoryTb * TEBIBYTE == 16.0 * 68719476736.0;
  }

  lemma Pow2At36()
    ensures Pow2(36) == 68719476736.0
  {
    assert Pow2Nat(2) == 4.0;
    Pow2NatShift(2, 2);
    Pow2NatShift(4, 4);
    Pow2NatShift(8, 8);
    Pow2NatShift(16, 16);
    Pow2NatShift(32, 4);
  }

  /** ... and doubles with every further qubit (halves with every qubit fewer). */
  lemma MemoryDoublesPerQubit(nQubits: int, circuitDepth: int)
    ensures CalculateClassicalResources(nQubits + 1, circuitDepth).memoryTb
            == 2.0 * CalculateClassicalResources(nQubits, circuitDepth).memoryTb
  {
    Pow2Succ(nQubits);
  }

  // ---------------------------------------------------------------------------------------
  // Quantum execution cost.

  datatype QuantumResources = QuantumResources(circuitTimeUs: int, totalTimeSeconds: real, shots: int)

  /** Each shot runs the circuit (100 µs plus 2 µs per qubit) and 10 µs of measurement; a
      fixed minute of queueing and compilation is added. */
  function CalculateQuantumResources(nQubits: int, shots: int): (r: QuantumResources)
    ensures r.circuitTimeUs == 100 + 2 * nQubits && r.shots == shots
    ensures (r.totalTimeSeconds - 60.0) * 1000000.0 == (shots * (r.circuitTimeUs + 10)) as real
    ensures shots >= 0 && nQubits >= -55 ==> r.totalTimeSeconds >= 60.0
    ensures r.totalTimeSeconds > 0.0 <==> shots * (110 + 2 * nQubits) > -60000000
  {
    var circuitTimeUs := 100 + nQubits * 2;
    var shotTimeUs := circuitTimeUs + 10;
    var totalTimeUs := shots * shotTimeUs;
    var totalTimeSeconds := totalTimeUs as real / 1000000.0;
    var overheadSeconds := 60.0;
    QuantumResources(circuitTimeUs, totalTimeSeconds + overheadSeconds, shots)
  }

  // ---------------------------------------------------------------------------------------
  // The advantage estimate.

  /** A ratio of times, or infinity when the quantum time is not positive. */
  datatype Advantage = Finite(factor: real) | Infinite

  datatype AdvantageEstimate = AdvantageEstimate(
    nQubits: int,
    hilbertSpaceDim: real,
    classicalMemoryTb: real,
    classicalFlopsRequired: real,
    quantumTimeSeconds: real,
    advantageFactor: Advantage)

  const DEFAULT_DEPTH: int := 100
  const DEFAULT_SHOTS: int := 8192

  /** Classical simulation time over quantum execution time. */
  function EstimateAdvantage(nQubits: int, circuitDepth: int, shots: int): (r: AdvantageEstimate)
    ensures var c := CalculateClassicalResources(nQubits, circuitDepth);
            r.nQubits == nQubits && r.hilbertSpaceDim == c.hilbertDim
            && r.classicalMemoryTb == c.memoryTb && r.classicalFlopsRequired == c.flops
    ensures r.quantumTimeSeconds == CalculateQuantumResources(nQubits, shots).totalTimeSeconds
    ensures r.advantageFactor.Infinite? <==> r.quantumTimeSeconds <= 0.0
    ensures r.advantageFactor.Finite? ==>
              r.advantageFactor.factor * r.quantumTimeSeconds
              == CalculateClassicalResources(nQubits, circuitDepth).classicalTimeSeconds
  {
    var classical := CalculateClassicalResources(nQubits, circuitDepth);
    var quantum := CalculateQuantumResources(nQubits, shots);
    var advantage :=
      if quantum.totalTimeSeconds > 0.0 then Finite(classical.classicalTimeSeconds / quantum.totalTimeSeconds)
      else Infinite;
    AdvantageEstimate(nQubits, classical.hilbertDim, classical.memoryTb, classical.flops,
                      quantum.totalTimeSeconds, advantage)
  }

  /** For a register of at least -55 qubits and a non-negative shot count the estimate is a
      finite ratio, non-negative when the depth and the register are. */
  lemma AdvantageFiniteForRealShots(nQubits: int, circuitDepth: int, shots: int)
    requires nQubits >= -55 && shots >= 0
    ensures EstimateAdvantage(nQubits, circuitDepth, shots).advantageFactor.Finite?
    ensures nQubits >= 0 && circuitDepth >= 0 ==>
              EstimateAdvantage(nQubits, circuitDepth, shots).advantageFactor.factor >= 0.0
    ensures nQubits >= 1 && circuitDepth >= 1 ==>
              EstimateAdvantage(nQubits, circuitDepth, shots).advantageFactor.factor > 0.0
  {
    var c := CalculateClassicalResources(nQubits, circuitDepth);
    var q := CalculateQuantumResources(nQubits, shots);
    if nQubits >= 0 && circuitDepth >= 0 {
      assert (circuitDepth * nQubits) as real >= 0.0;
      assert c.flops >= 0.0;
      if nQubits >= 1 && circuitDepth >= 1 {
        assert circuitDepth * nQubits >= 1;
        MulPositive(10.0 * c.hilbertDim, (circuitDepth * nQubits) as real);
        assert c.classicalTimeSeconds > 0.0;
        DivStrict(0.0, c.classicalTimeSeconds, q.totalTimeSeconds);
      } else {
        assert c.classicalTimeSeconds >= 0.0;
        if c.classicalTimeSeconds > 0.0 {
          DivStrict(0.0, c.classicalTimeSeconds, q.totalTimeSeconds);
        }
      }
    }
  }

  /** The infinite branch is reachable: a register of -100 qubits run for a million shots has
      a negative quantum time. */
  lemma AdvantageInfiniteExample()
    ensures EstimateAdvantage(-100, DEFAULT_DEPTH, 1000000).advantageFactor.Infinite?
  {
  }

  /** With one more qubit the simulation time more than doubles. */
  lemma ClassicalTimeMoreThanDoubles(nQubits: int, circuitDepth: int)
    requires nQubits >= 1 && circuitDepth >= 1
    ensures 0.0 < 2.0 * CalculateClassicalResources(nQubits, circuitDepth).classicalTimeSeconds
                < CalculateClassicalResources(nQubits + 1, circuitDepth).classicalTimeSeconds
  {
    var p := Pow2(nQubits);
    var d := circuitDepth as real;
    var n := nQubits as real;
    Pow2Succ(nQubits);
    MulPositive(p, d);
    MulStrict(p * d, n, n + 1.0);
    MulPositive(p * d, n);
    assert (circuitDepth * nQubits) as real == d * n;
    assert (circuitDepth * (nQubits + 1)) as real == d * (n + 1.0);
  }

  /** With one more qubit the execution time grows by 2 µs per shot, so it at most doubles. */
  lemma QuantumTimeAtMostDoubles(nQubits: int, shots: int)
    requires nQubits >= 1 && shots >= 0
    ensures var q0 := CalculateQuantumResources(nQubits, shots).totalTimeSeconds;
            var q1 := CalculateQuantumResources(nQubits + 1, shots).totalTimeSeconds;
            0.0 < q0 && 0.0 < q1 <= 2.0 * q0
  {
    assert shots * (110 + 2 * (nQubits + 1)) == shots * (110 + 2 * nQubits) + 2 * shots;
    assert shots * (110 + 2 * nQubits) >= 112 * shots;
  }

  /** One more qubit (at least one qubit, one layer, any non-negative shot count) raises the
      advantage. */
  lemma AdvantageGrowsWithQubits(nQubits: int, circuitDepth: int, shots: int)
    requires nQubits >= 1 && circuitDepth >= 1 && shots >= 0
    ensures EstimateAdvantage(nQubits, circuitDepth, shots).advantageFactor.Finite?
    ensures EstimateAdvantage(nQubits + 1, circuitDepth, shots).advantageFactor.Finite?
    ensures EstimateAdvantage(nQubits, circuitDepth, shots).advantageFactor.factor
            < EstimateAdvantage(nQubits + 1, circuitDepth, shots).advantageFactor.factor
  {
    AdvantageFiniteForRealShots(nQubits, circuitDepth, shots);
    AdvantageFiniteForRealShots(nQubits + 1, circuitDepth, shots);
    ClassicalTimeMoreThanDoubles(nQubits, circuitDepth);
    QuantumTimeAtMostDoubles(nQubits, shots);
    RatioGrows(CalculateClassicalResources(nQubits, circuitDepth).classicalTimeSeconds,
               CalculateClassicalResources(nQubits + 1, circuitDepth).classicalTimeSeconds,
               CalculateQuantumResources(nQubits, shots).totalTimeSeconds,
               CalculateQuantumResources(nQubits + 1, shots).totalTimeSeconds);
  }

  // ---------------------------------------------------------------------------------------
  // Circuit design for a backend.

  /** Truncation toward zero, as `int()` does to a float. */
  function Truncate(x: real): (r: int)
    ensures x >= 0.0 ==> r as real <= x < r as real + 1.0
    ensures x < 0.0 ==> r as real - 1.0 < x <= r as real
  {
    if x >= 0.0 then x.Floor else -((-x).Floor)
  }

  datatype CircuitStructure = CircuitStructure(
    tfdBellPairs: int,
    scrambleLayers: int,
    conjugateAngle: AngleTag,
    unscrambleLayers: int)

  datatype GateEstimate = GateEstimate(h: int, ry: int, rz: int, cx: int)

  datatype CircuitSpec = CircuitSpec(
    backend: string,
    nQubits: int,
    optimalDepth: int,
    throatQubits: int,
    structure: CircuitStructure,
    estimatedGates: GateEstimate,
    advantageEstimate: Advantage)

  const SCRAMBLING_LAYERS: int := 5
  const DEPTH_CAP: int := 500

  /** The processor a name selects; unknown names fall back to `ibm_fez`. */
  function Lookup(backendName: string): (p: Processor)
    ensures backendName in IBM_PROCESSORS ==> p == IBM_PROCESSORS[backendName]
    ensures backendName !in IBM_PROCESSORS ==> p == IBM_PROCESSORS["ibm_fez"]
    ensures p in IBM_PROCESSORS.Values
  {
    if backendName in IBM_PROCESSORS then IBM_PROCESSORS[backendName] else IBM_PROCESSORS["ibm_fez"]
  }

  /** Depth ≈ 1 / (n · cx error · 0.1), truncated and capped at 500. */
  function OptimalDepth(p: Processor): (d: int)
    requires p.qubits as real * p.cxError != 0.0
    ensures d <= DEPTH_CAP
    ensures d < DEPTH_CAP ==> d == Truncate(1.0 / (p.qubits as real * p.cxError * 0.1))
    ensures Truncate(1.0 / (p.qubits as real * p.cxError * 0.1)) <= DEPTH_CAP ==>
              d == Truncate(1.0 / (p.qubits as real * p.cxError * 0.1))
  {
    var depth := Truncate(1.0 / (p.qubits as real * p.cxError * 0.1));
    if depth <= DEPTH_CAP then depth else DEPTH_CAP
  }

  /** Every listed backend has at least 127 qubits and a positive cx error no larger than
      one over its qubit count times ten. */
  lemma TableHasPositiveErrors()
    ensures forall p :: p in IBM_PROCESSORS.Values ==>
              p.qubits >= 127 && p.cxError > 0.0 && p.qubits as real * p.cxError <= 10.0
  {
    forall p | p in IBM_PROCESSORS.Values
      ensures p.qubits >= 127 && p.cxError > 0.0 && p.qubits as real * p.cxError <= 10.0
    {
      var name :| name in IBM_PROCESSORS && IBM_PROCESSORS[name] == p;
    }
  }

  /** A backend whose error rate keeps n · cx error at most 10 gets at least one layer. */
  lemma DepthAtLeastOne(p: Processor)
    requires p.qubits >= 1 && p.cxError > 0.0 && p.qubits as real * p.cxError <= 10.0
    ensures 1 <= OptimalDepth(p)
  {
    var x := p.qubits as real * p.cxError;
    MulPositive(p.qubits as real, p.cxError);
    assert 0.0 < x * 0.1 <= 1.0;
    DivAntitone(1.0, x * 0.1, 1.0);
  }

  function DesignMaxAdvantageCircuit(backendName: string): (r: CircuitSpec)
    ensures r.backend == backendName && r.nQubits == Lookup(backendName).qubits
    ensures r.throatQubits == r.nQubits / 2 && r.optimalDepth == OptimalDepth(Lookup(backendName))
    ensures r.estimatedGates == GateEstimate(r.nQubits, 2 * r.nQubits + r.throatQubits,
                                             SCRAMBLING_LAYERS * r.nQubits,
                                             r.throatQubits + SCRAMBLING_LAYERS * (r.nQubits - 1) * 2)
    ensures r.structure == CircuitStructure(r.throatQubits, SCRAMBLING_LAYERS, PcRounded, SCRAMBLING_LAYERS)
    ensures 1 <= r.optimalDepth <= DEPTH_CAP
    ensures r.advantageEstimate == EstimateAdvantage(r.nQubits, r.optimalDepth, DEFAULT_SHOTS).advantageFactor
    ensures r.advantageEstimate.Finite? && r.advantageEstimate.factor > 0.0
  {
    var backend := Lookup(backendName);
    TableHasPositiveErrors();
    var nQubits := backend.qubits;
    DepthAtLeastOne(backend);
    AdvantageFiniteForRealShots(nQubits, OptimalDepth(backend), DEFAULT_SHOTS);
    var optimalDepth := OptimalDepth(backend);
    var throatQubits := nQubits / 2;
    var estimatedGates := GateEstimate(
      nQubits,
      2 * nQubits + throatQubits,
      SCRAMBLING_LAYERS * nQubits,
      throatQubits + SCRAMBLING_LAYERS * (nQubits - 1) * 2);
    var est := EstimateAdvantage(nQubits, optimalDepth, DEFAULT_SHOTS);
    var spec := CircuitSpec(backendName, nQubits, optimalDepth, throatQubits,
                            CircuitStructure(throatQubits, SCRAMBLING_LAYERS, PcRounded, SCRAMBLING_LAYERS),
                            estimatedGates, est.advantageFactor);
    spec
  }

  /** The depths the rule of thumb gives for the four backends; none reaches the cap. */
  lemma OptimalDepths()
    ensures OptimalDepth(IBM_PROCESSORS["ibm_torino"]) == 15
    ensures OptimalDepth(IBM_PROCESSORS["ibm_fez"]) == 16
    ensures OptimalDepth(IBM_PROCESSORS["ibm_marrakesh"]) == 16
    ensures OptimalDepth(IBM_PROCESSORS["ibm_quebec"]) == 9
  {
    assert 1.0 / (133.0 * 0.005 * 0.1) == 2000.0 / 133.0;
    assert 1.0 / (156.0 * 0.004 * 0.1) == 2500.0 / 156.0;
    assert 1.0 / (127.0 * 0.008 * 0.1) == 1250.0 / 127.0;
  }

  // ---------------------------------------------------------------------------------------
  // The emitted program.

  const MAX_TITLE_1: string := "// Stage 1: Create ER bridge (TFD state)"
  const MAX_TITLE_2: string := "// Stage 2: Message injection"
  const MAX_TITLE_3: string := "// Stage 3: Scrambling (5 layers)"
  const MAX_TITLE_4: string := "// Stage 4: PHASE CONJUGATE TRIGGER (Time Reversal)"
  const MAX_TITLE_5: string := "// Stage 5: Reverse scrambling"

  /** The advertised advantage exponent, ⌊0.3 · n⌋ truncated toward zero. */
  function TargetExponent(nQubits: int): (e: int)
    ensures nQubits >= 0 ==> 0 <= 10 * e <= 3 * nQubits < 10 * e + 10
  {
    Truncate(nQubits as real * 0.3)
  }

  function MaxPreamble(nQubits: int): seq<Line>
  {
    Header(nQubits) + [Blank, TitleComment(nQubits), TargetComment(TargetExponent(nQubits))]
  }

  function TfdStage(n: int): seq<Line>
  {
    TfdPairs(LockRounded, n / 2, n / 2)
  }

  function InjectionStage(): seq<Line>
  {
    [H(0), Ry(LockRounded, 0)]
  }

  /** Five layers; every rotation of layer `l` has angle 0.1 · (l + 1). */
  function ScramblingStage(n: int): seq<Line>
  {
    ScrambleLayers(PerLayer, n, SCRAMBLING_LAYERS)
  }

  /** The trigger on qubits n/2/2 up to, not including, n/2/2 + n/2/4. */
  function TriggerStage(n: int): seq<Line>
  {
    RyRun(PcRounded, n / 2 / 2, n / 2 / 4)
  }

  function ReverseStage(n: int): seq<Line>
  {
    ReverseLayers(PerLayer, n, SCRAMBLING_LAYERS, 0)
  }

  function MaxAdvantageProgram(n: int): seq<Line>
  {
    Staged(MaxPreamble(n), MAX_TITLE_1, TfdStage(n), MAX_TITLE_2, InjectionStage(),
           MAX_TITLE_3, ScramblingStage(n), MAX_TITLE_4, TriggerStage(n), MAX_TITLE_5, ReverseStage(n))
  }

  /** A Bell pair on qubits `i` and `i + throat` for each `i` below `throat`. */
  method EmitBellPairs(throat: int) returns (stage: seq<Line>)
    ensures stage == TfdPairs(LockRounded, throat, throat)
  {
    stage := [];
    var i := 0;
    while i < throat
      invariant 0 <= i <= Span(throat)
      invariant stage == TfdPairs(LockRounded, throat, i)
    {
      stage := stage + [H(i), Ry(LockRounded, i), Cx(i, i + throat)];
      i := i + 1;
    }
  }

  /** Five layers, each a rotation on every qubit followed by a ladder of `cx` gates. */
  method EmitScrambling(nQubits: int) returns (stage: seq<Line>)
    ensures stage == ScramblingStage(nQubits)
  {
    stage := [];
    var layer := 0;
    while layer < 5
      invariant 0 <= layer <= 5
      invariant stage == ScrambleLayers(PerLayer, nQubits, layer)
    {
      var block := ScrambleLayerLines(PerLayer, nQubits, layer);
      stage := stage + block;
      layer := layer + 1;
    }
  }

  /** The trigger on qubits `throat / 2` up to, not including, `throat / 2 + throat / 4`. */
  method EmitTrigger(throat: int) returns (stage: seq<Line>)
    ensures stage == RyRun(PcRounded, throat / 2, throat / 4)
  {
    stage := [];
    var lo := throat / 2;
    var i := lo;
    while i < lo + throat / 4
      invariant lo <= i <= lo + Span(throat / 4)
      invariant stage == RyRun(PcRounded, lo, i - lo)
    {
      stage := stage + [Ry(PcRounded, i)];
      i := i + 1;
    }
    assert RyRun(PcRounded, lo, i - lo) == RyRun(PcRounded, lo, throat / 4);
  }

  /** The five layers undone, the last layer first, each ladder walked downwards and each
      rotation negated. */
  method EmitReverseScrambling(nQubits: int) returns (stage: seq<Line>)
    ensures stage == ReverseStage(nQubits)
  {
    stage := [];
    var layer := 4;
    while layer >= 0
      invariant -1 <= layer <= 4
      invariant stage == ReverseLayers(PerLayer, nQubits, 5, layer + 1)
      decreases layer + 1
    {
      var block := ReverseLayerLines(PerLayer, nQubits, layer);
      stage := stage + block;
      layer := layer - 1;
    }
  }

  /** The whole program: declarations, title and target comments, the five stages, and the
      measurement. */
  method QasmMaxAdvantageCircuit(nQubits: int) returns (qasm: seq<Line>)
    ensures qasm == MaxAdvantageProgram(nQubits)
  {
    var throat := nQubits / 2;
    qasm := Header(nQubits) + [Blank, TitleComment(nQubits), TargetComment(Truncate(nQubits as real * 0.3))];
    var stage1 := EmitBellPairs(throat);
    qasm := qasm + Section(MAX_TITLE_1, stage1);
    qasm := qasm + Section(MAX_TITLE_2, [H(0), Ry(LockRounded, 0)]);
    var stage3 := EmitScrambling(nQubits);
    qasm := qasm + Section(MAX_TITLE_3, stage3);
    var stage4 := EmitTrigger(throat);
    qasm := qasm + Section(MAX_TITLE_4, stage4);
    var stage5 := EmitReverseScrambling(nQubits);
    qasm := qasm + Section(MAX_TITLE_5, stage5);
    qasm := qasm + Section("// Measurement", [MeasureAll]);
  }

  // ---------------------------------------------------------------------------------------
  // Properties of the emitted program.

  /** The program opens with the register declarations, the title naming the register size
      and the target exponent, and ends with the measurement. */
  lemma MaxAdvantageFrame(n: int)
    ensures var p := MaxAdvantageProgram(n);
            p[..4] == Header(n) && p[5] == TitleComment(n) && p[6] == TargetComment(TargetExponent(n))
            && p[|p| - 1] == MeasureAll
  {
    PreambleShape(n);
    StagedFrame(MaxPreamble(n), MAX_TITLE_1, TfdStage(n), MAX_TITLE_2, InjectionStage(),
                MAX_TITLE_3, ScramblingStage(n), MAX_TITLE_4, TriggerStage(n), MAX_TITLE_5, ReverseStage(n));
    PrefixOfSeven(MaxAdvantageProgram(n), MaxPreamble(n));
  }

  lemma PreambleShape(n: int)
    ensures var pre := MaxPreamble(n);
            |pre| == 7 && pre[..4] == Header(n) && pre[5] == TitleComment(n)
            && pre[6] == TargetComment(TargetExponent(n))
  {
  }

  lemma PrefixOfSeven(p: seq<Line>, pre: seq<Line>)
    requires |pre| == 7 && |p| > 7 && p[..7] == pre
    ensures p[..4] == pre[..4] && p[5] == pre[5] && p[6] == pre[6]
  {
    assert p[..4] == p[..7][..4];
  }

  lemma PreambleGates(n: int)
    ensures Gates(MaxPreamble(n)) == []
  {
    NoGates(MaxPreamble(n));
  }

  /** Read gate by gate, the program is the five stages in order. */
  lemma MaxAdvantageGateSequence(n: int)
    ensures Gates(MaxAdvantageProgram(n))
            == TfdStage(n) + InjectionStage() + ScramblingStage(n) + TriggerStage(n) + ReverseStage(n)
  {
    PreambleGates(n);
    StagedGates(MaxPreamble(n), MAX_TITLE_1, TfdStage(n), MAX_TITLE_2, InjectionStage(),
                MAX_TITLE_3, ScramblingStage(n), MAX_TITLE_4, TriggerStage(n), MAX_TITLE_5, ReverseStage(n));
    StagesAreGates(n);
  }

  lemma StagesAreGates(n: int)
    ensures Gates(TfdStage(n)) == TfdStage(n) && Gates(InjectionStage()) == InjectionStage()
    ensures Gates(ScramblingStage(n)) == ScramblingStage(n) && Gates(TriggerStage(n)) == TriggerStage(n)
    ensures Gates(ReverseStage(n)) == ReverseStage(n)
  {
    TfdPairsAllGates(LockRounded, n / 2, n / 2);
    GatesOfAllGates(TfdStage(n));
    GatesOfAllGates(InjectionStage());
    InvertibleAllGates(ScramblingStage(n));
    GatesOfAllGates(ScramblingStage(n));
    RyRunAllGates(PcRounded, n / 2 / 2, n / 2 / 4);
    GatesOfAllGates(TriggerStage(n));
    Stage5InvertsStage3(n);
    InvertibleAllGates(ReverseStage(n));
    GatesOfAllGates(ReverseStage(n));
  }

  /** Stage 5 undoes stage 3: the scrambling gates reversed, each replaced by its adjoint. */
  lemma Stage5InvertsStage3(n: int)
    ensures ReverseStage(n) == Inverse(ScramblingStage(n))
    ensures Inverse(ReverseStage(n)) == ScramblingStage(n)
  {
    ReverseLayersInvertScramble(PerLayer, n, SCRAMBLING_LAYERS);
    InverseInvolution(ScramblingStage(n));
  }

  /** The trigger is a run of `n/2/4` rotations on consecutive qubits from `n/2/2`, all of
      them inside the throat half `[0, n/2)` of the register. */
  lemma TriggerPlacement(n: int)
    ensures |TriggerStage(n)| == Span(n / 2 / 4)
    ensures forall j :: 0 <= j < |TriggerStage(n)| ==> TriggerStage(n)[j] == Ry(PcRounded, n / 2 / 2 + j)
    ensures forall j :: 0 <= j < |TriggerStage(n)| ==> 0 <= TriggerStage(n)[j].qubit < n / 2
  {
    RyRunClosedForm(PcRounded, n / 2 / 2, n / 2 / 4);
  }

  /** For a non-empty register every stage stays inside it. */
  lemma StagesWithin(n: int)
    requires n >= 1
    ensures AllWithin(TfdStage(n) + InjectionStage() + ScramblingStage(n) + TriggerStage(n) + ReverseStage(n), n)
  {
    var s1, s2, s3, s4, s5 := TfdStage(n), InjectionStage(), ScramblingStage(n), TriggerStage(n), ReverseStage(n);
    TfdPairsWithin(LockRounded, n);
    assert AllWithin(s2, n) by {
      assert LineWithin(s2[0], n) && LineWithin(s2[1], n);
    }
    assert n / 2 / 2 + n / 2 / 4 <= n;
    RyRunWithin(PcRounded, n / 2 / 2, n / 2 / 4, n);
    ScrambleLayersWithin(PerLayer, n, SCRAMBLING_LAYERS);
    assert AllWithin(s5, n) by {
      Stage5InvertsStage3(n);
      InverseWithin(s3, n);
    }
    AllWithinFive(s1, s2, s3, s4, s5, n);
  }

  /** Every qubit the program names lies in its register exactly when the register is not
      empty (the message is always injected on qubit 0). */
  lemma MaxAdvantageWithinRegister(n: int)
    ensures AllWithin(MaxAdvantageProgram(n), n) <==> n >= 1
  {
    WithinGates(MaxAdvantageProgram(n), n);
    MaxAdvantageGateSequence(n);
    if n >= 1 {
      StagesWithin(n);
    } else {
      var g := TfdStage(n) + InjectionStage() + ScramblingStage(n) + TriggerStage(n) + ReverseStage(n);
      assert TfdStage(n) == [];
      assert g[0] == H(0);
      assert !LineWithin(g[0], n);
    }
  }

  lemma MaxCountByStage(n: int, k: GateKind)
    ensures Count(MaxAdvantageProgram(n), k)
            == Count(TfdStage(n), k) + Count(InjectionStage(), k) + Count(ScramblingStage(n), k)
               + Count(TriggerStage(n), k) + Count(ReverseStage(n), k)
  {
    PreambleGates(n);
    StagedCount(MaxPreamble(n), MAX_TITLE_1, TfdStage(n), MAX_TITLE_2, InjectionStage(),
                MAX_TITLE_3, ScramblingStage(n), MAX_TITLE_4, TriggerStage(n), MAX_TITLE_5, ReverseStage(n), k);
  }

  /** Both scrambling stages hold five layers' worth of each gate kind. */
  lemma ScramblingCounts(n: int, k: GateKind)
    ensures Count(ScramblingStage(n), k) == Count(ReverseStage(n), k) == 5 * LayerCount(n, k)
  {
    CountScramble(PerLayer, n, SCRAMBLING_LAYERS, k);
    Stage5InvertsStage3(n);
    CountInverse(ScramblingStage(n), k);
  }

  lemma InjectionCounts()
    ensures Count(InjectionStage(), HGate) == 1 && Count(InjectionStage(), RyGate) == 1
    ensures Count(InjectionStage(), RzGate) == 0 && Count(InjectionStage(), CxGate) == 0
  {
    assert InjectionStage()[..1] == [H(0)];
  }

  /** The gates of kind k in the bridge, the injected message and the trigger. */
  lemma BoundaryStageCounts(n: int, k: GateKind)
    requires n >= 1
    ensures Count(TfdStage(n), k) == if k == RzGate then 0 else n / 2
    ensures Count(InjectionStage(), k) == if k == HGate || k == RyGate then 1 else 0
    ensures Count(TriggerStage(n), k) == if k == RyGate then n / 2 / 4 else 0
  {
    CountTfdPairs(LockRounded, n / 2, n / 2, k);
    CountRyRun(PcRounded, n / 2 / 2, n / 2 / 4, k);
    InjectionCounts();
  }

  /** Each gate count of the program in closed form: bridge pairs, the injected message,
      both scrambling stages and the trigger. */
  lemma MaxCountByKind(n: int, k: GateKind)
    requires n >= 1
    ensures Count(MaxAdvantageProgram(n), k)
            == (if k == RzGate then 0 else n / 2) + (if k == HGate || k == RyGate then 1 else 0)
               + 10 * LayerCount(n, k) + (if k == RyGate then n / 2 / 4 else 0)
  {
    MaxCountByStage(n, k);
    ScramblingCounts(n, k);
    BoundaryStageCounts(n, k);
  }

  /** Gate counts of the program for a non-empty register: five layers each way give 10·n
      rotations and 10·(n-1) ladder gates. */
  lemma MaxAdvantageGateCounts(n: int)
    requires n >= 1
    ensures Count(MaxAdvantageProgram(n), HGate) == n / 2 + 1
    ensures Count(MaxAdvantageProgram(n), RyGate) == n / 2 + 1 + n / 2 / 4
    ensures Count(MaxAdvantageProgram(n), RzGate) == 10 * n
    ensures Count(MaxAdvantageProgram(n), CxGate) == n / 2 + 10 * (n - 1)
  {
    MaxCountByKind(n, HGate);
    MaxCountByKind(n, RyGate);
    MaxCountByKind(n, RzGate);
    MaxCountByKind(n, CxGate);
  }

  /** For every backend the design's cx estimate is exact, its rz estimate counts only the
      forward layers (half of the emitted rotations), and its h and ry estimates exceed what
      the program emits. */
  lemma EstimateAgainstProgram(backendName: string)
    ensures var r := DesignMaxAdvantageCircuit(backendName);
            var p := MaxAdvantageProgram(r.nQubits);
            r.estimatedGates.cx == Count(p, CxGate)
            && 2 * r.estimatedGates.rz == Count(p, RzGate)
            && r.estimatedGates.h > Count(p, HGate)
            && r.estimatedGates.ry > Count(p, RyGate)
  {
    var r := DesignMaxAdvantageCircuit(backendName);
    TableHasPositiveErrors();
    assert r.nQubits >= 127;
    MaxAdvantageGateCounts(r.nQubits);
  }
}
