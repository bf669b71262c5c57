// Phase conjugation: the healing-efficiency rule of the phase-conjugate operator and the
// five-stage traversable-wormhole circuit with its OpenQASM 2.0 emitter.

module PhaseConjugation {
  import opened Qasm
  import CcceMetrics

  /** The lock angle in degrees; the phase-conjugate angle is its supplement. */
  const THETA_LOCK_DEG: real := 51.843
  const THETA_PC_DEG: real := 180.0 - THETA_LOCK_DEG

  datatype Option<T> = None | Some(value: T)

  // ---------------------------------------------------------------------------------------
  // The pipeline description.

  /** A gate name as the stage table prints it; `RyLabel` carries its angle in degrees. */
  datatype GateLabel = HLabel | RyLabel(degrees: real) | RzLabel | CxLabel | RzDaggerLabel | CxDaggerLabel

  datatype WormholeStage = WormholeStage(
    name: string,
    description: string,
    gates: seq<GateLabel>,
    angle: Option<real>)

  /** `s` written `k` times in a row (the list repetition `s * k`). */
  function Repeat(s: seq<GateLabel>, k: nat): seq<GateLabel>
  {
    if k == 0 then [] else s + Repeat(s, k - 1)
  }

  function Reversed(s: seq<GateLabel>): seq<GateLabel>
  {
    if s == [] then [] else Reversed(s[1..]) + [s[0]]
  }

  function Dagger(g: GateLabel): GateLabel
  {
    match g
    case RzLabel => RzDaggerLabel
    case CxLabel => CxDaggerLabel
    case RzDaggerLabel => RzLabel
    case CxDaggerLabel => CxLabel
    case _ => g
  }

  function DaggerAll(s: seq<GateLabel>): seq<GateLabel>
  {
    if s == [] then [] else [Dagger(s[0])] + DaggerAll(s[1..])
  }

  /** The five stages in order: the lock angle for the bridge and the injection, three
      layers of rotations and ladders, the trigger at the supplementary angle, and the three
      layers undone. */
  function DefineStages(): (r: seq<WormholeStage>)
    ensures |r| == 5
    ensures r[0].gates == [HLabel, RyLabel(THETA_LOCK_DEG), CxLabel]
    ensures r[1].gates == r[0].gates[..2]
    ensures r[2].gates == Repeat([RzLabel, CxLabel], 3)
    ensures r[3].gates == [RyLabel(THETA_PC_DEG)]
    ensures r[4].gates == Repeat([CxDaggerLabel, RzDaggerLabel], 3)
    ensures r[0].angle == r[1].angle == Some(THETA_LOCK_DEG) && r[3].angle == Some(THETA_PC_DEG)
    ensures r[2].angle.None? && r[4].angle.None?
  {
    [ WormholeStage("TFD_STATE", "Create Einstein-Rosen bridge via thermofield double",
                    [HLabel, RyLabel(THETA_LOCK_DEG), CxLabel], Some(THETA_LOCK_DEG)),
      WormholeStage("MESSAGE_INJECTION", "Alice injects message into wormhole",
                    [HLabel, RyLabel(THETA_LOCK_DEG)], Some(THETA_LOCK_DEG)),
      WormholeStage("SCRAMBLING", "Black hole thermalization (information mixing)",
                    Repeat([RzLabel, CxLabel], 3), None),
      WormholeStage("PHASE_CONJUGATE_TRIGGER", "Time reversal at throat (E → E⁻¹)",
                    [RyLabel(THETA_PC_DEG)], Some(THETA_PC_DEG)),
      WormholeStage("REVERSE_SCRAMBLING", "Bob receives message (inverse scrambling)",
                    Repeat([CxDaggerLabel, RzDaggerLabel], 3), None) ]
  }

  /** The reverse-scrambling stage lists the adjoints of the scrambling stage's gates in
      reverse order, and the trigger and lock angles sum to 180 degrees. */
  lemma StagesArePaired()
    ensures DefineStages()[4].gates == DaggerAll(Reversed(DefineStages()[2].gates))
    ensures DefineStages()[0].angle.value + DefineStages()[3].angle.value == 180.0
  {
    var layer := [RzLabel, CxLabel];
    assert Reversed(layer) == [CxLabel, RzLabel] by {
      assert Reversed(layer[1..]) == [CxLabel];
    }
    assert DaggerAll([CxLabel, RzLabel]) == [CxDaggerLabel, RzDaggerLabel] by {
      assert DaggerAll([CxLabel, RzLabel][1..]) == [RzDaggerLabel];
    }
    ReversedRepeat(layer, 3);
    DaggerAllRepeat([CxLabel, RzLabel], 3);
  }

  lemma {:induction false} ReversedConcat(a: seq<GateLabel>, b: seq<GateLabel>)
    ensures Reversed(a + b) == Reversed(b) + Reversed(a)
    decreases |a|
  {
    if a == [] {
      assert a + b == b;
    } else {
      assert (a + b)[1..] == a[1..] + b;
      ReversedConcat(a[1..], b);
    }
  }

  lemma {:induction false} RepeatSnoc(s: seq<GateLabel>, k: nat)
    ensures Repeat(s, k) + s == s + Repeat(s, k)
  {
    if k > 0 {
      RepeatSnoc(s, k - 1);
    }
  }

  /** Reversing a repeated block repeats the reversed block. */
  lemma {:induction false} ReversedRepeat(s: seq<GateLabel>, k: nat)
    ensures Reversed(Repeat(s, k)) == Repeat(Reversed(s), k)
  {
    if k > 0 {
      ReversedConcat(s, Repeat(s, k - 1));
      ReversedRepeat(s, k - 1);
      RepeatSnoc(Reversed(s), k - 1);
    }
  }

  lemma {:induction false} DaggerAllConcat(a: seq<GateLabel>, b: seq<GateLabel>)
    ensures DaggerAll(a + b) == DaggerAll(a) + DaggerAll(b)
    decreases |a|
  {
    if a == [] {
      assert a + b == b;
    } else {
      assert (a + b)[1..] == a[1..] + b;
      DaggerAllConcat(a[1..], b);
    }
  }

  /** Taking adjoints of a repeated block repeats the adjoint block. */
  lemma {:induction false} DaggerAllRepeat(s: seq<GateLabel>, k: nat)
    ensures DaggerAll(Repeat(s, k)) == Repeat(DaggerAll(s), k)
  {
    if k > 0 {
      DaggerAllConcat(s, Repeat(s, k - 1));
      DaggerAllRepeat(s, k - 1);
    }
  }

  /** The kind of gate a label names (adjoints are gates of the same kind). */
  function LabelKind(g: GateLabel): GateKind
  {
    match g
    case HLabel => HGate
    case RyLabel(_) => RyGate
    case RzLabel => RzGate
    case RzDaggerLabel => RzGate
    case CxLabel => CxGate
    case CxDaggerLabel => CxGate
  }

  /** The emitted TFD stage follows its label list: line `j` is a gate of the kind named by
      label `j % 3` of the first stage. */
  lemma TfdStageFollowsLabels(n: int)
    ensures var s := TfdPairs(LockRad, n / 2, n / 2);
            forall j :: 0 <= j < |s| ==> IsKind(s[j], LabelKind(DefineStages()[0].gates[j % 3]))
  {
    var s := TfdPairs(LockRad, n / 2, n / 2);
    var labels := DefineStages()[0].gates;
    TfdPairsClosedForm(LockRad, n / 2, n / 2);
    assert labels == [HLabel, RyLabel(THETA_LOCK_DEG), CxLabel];
    forall j | 0 <= j < |s| ensures IsKind(s[j], LabelKind(labels[j % 3])) {
      var l := s[j];
      assert l == TfdLine(LockRad, n / 2, j);
      if j % 3 == 0 {
        assert l.H? && labels[j % 3] == HLabel;
      } else if j % 3 == 1 {
        assert l.Ry? && labels[j % 3].RyLabel?;
      } else {
        assert l.Cx? && labels[j % 3] == CxLabel;
      }
    }
  }

  // ---------------------------------------------------------------------------------------
  // The phase-conjugate operator.

  /** The rotation angle is kept as a symbolic tag; the strength is always `CHI_PC`. */
  datatype PhaseConjugateOperator = PhaseConjugateOperator(thetaPc: AngleTag, chiPc: real)
  {
    /** Returns `(gammaAfter, efficiency)`: the rate after one healing step scaled by
        `1 - chiPc * h`, and the fraction of the rate removed (zero for a rate that is not
        positive). */
    function HealingEfficiency(gammaBefore: real): (r: (real, real))
      ensures gammaBefore > 0.0 ==> r.1 == chiPc * CcceMetrics.HealingFactor(gammaBefore)
      ensures r.0 == gammaBefore * (1.0 - chiPc * CcceMetrics.HealingFactor(gammaBefore))
      ensures gammaBefore > 0.0 ==> r.0 == gammaBefore * (1.0 - r.1)
      ensures gammaBefore <= 0.0 ==> r.1 == 0.0
    {
      var h := CcceMetrics.HealingFactor(gammaBefore);
      var gammaAfter := gammaBefore * (1.0 - chiPc * h);
      var efficiency :=
        if gammaBefore > 0.0 then
          RemovedShare(gammaBefore, chiPc * h);
          1.0 - gammaAfter / gammaBefore
        else 0.0;
      (gammaAfter, efficiency)
    }
  }

  /** Scaling a positive rate by `1 - e` removes the share `e` of it. */
  lemma RemovedShare(gamma: real, e: real)
    requires gamma > 0.0
    ensures 1.0 - gamma * (1.0 - e) / gamma == e
  {
    var y := 1.0 - e;
    var q := gamma * y / gamma;
    assert q * gamma == gamma * y;
    assert (q - y) * gamma == 0.0;
    ZeroProduct(q - y, gamma);
    assert q == gamma * (1.0 - e) / gamma;
  }

  lemma ZeroProduct(x: real, g: real)
    requires g != 0.0 && x * g == 0.0
    ensures x == 0.0
  {
  }

  /** For a positive rate and a non-negative coupling, the efficiency lies between zero and
      the coupling, reaches the coupling from a rate of 0.5 on, and healing never raises the
      rate. */
  lemma HealingEfficiencyBounds(op: PhaseConjugateOperator, gamma: real)
    requires gamma > 0.0 && op.chiPc >= 0.0
    ensures 0.0 <= op.HealingEfficiency(gamma).1 <= op.chiPc
    ensures op.HealingEfficiency(gamma).0 <= gamma
    ensures op.chiPc > 0.0 ==> (gamma >= 0.5 <==> op.HealingEfficiency(gamma).1 == op.chiPc)
  {
    var h := CcceMetrics.HealingFactor(gamma);
    var r := op.HealingEfficiency(gamma);
    assert r.1 == op.chiPc * h && r.0 == gamma * (1.0 - r.1);
    CcceMetrics.MulNonnegative(op.chiPc, h);
    CcceMetrics.MulMonotone(op.chiPc, h, 1.0);
    assert 0.0 <= r.1 <= op.chiPc;
    CcceMetrics.MulMonotone(gamma, 1.0 - r.1, 1.0);
    if op.chiPc > 0.0 && r.1 == op.chiPc {
      assert (h - 1.0) * op.chiPc == 0.0;
      ZeroProduct(h - 1.0, op.chiPc);
    }
  }

  function NewPhaseConjugateOperator(thetaPc: AngleTag): (r: PhaseConjugateOperator)
    ensures r.thetaPc == thetaPc && r.chiPc == CcceMetrics.CHI_PC
  {
    PhaseConjugateOperator(thetaPc, CcceMetrics.CHI_PC)
  }

  /** Above the critical rate the metric's healing rule is the operator's rule with the
      fixed-point floor applied. */
  lemma HealingRulesAgreeAboveCritical(gamma: real)
    requires gamma > CcceMetrics.GAMMA_CRITICAL
    ensures CcceMetrics.ApplyPhaseConjugateHealing(gamma, CcceMetrics.CHI_PC)
            == CcceMetrics.Max(CcceMetrics.GAMMA_FIXED,
                               NewPhaseConjugateOperator(PcRad).HealingEfficiency(gamma).0)
  {
  }

  /** At or below the critical rate the two rules differ: the metric leaves a positive rate
      unchanged while the operator still lowers it. */
  lemma HealingRulesDisagreeBelowCritical(gamma: real)
    requires 0.0 < gamma <= CcceMetrics.GAMMA_CRITICAL
    ensures NewPhaseConjugateOperator(PcRad).HealingEfficiency(gamma).0
            < CcceMetrics.ApplyPhaseConjugateHealing(gamma, CcceMetrics.CHI_PC) == gamma
  {
    var h := CcceMetrics.HealingFactor(gamma);
    assert h == 2.0 * gamma;
    var f := 1.0 - CcceMetrics.CHI_PC * h;
    assert f < 1.0;
    CcceMetrics.MulCancelLess(f, 1.0, gamma);
  }

  /** The operator has no floor: at a rate of 1 it reaches 0.054, below the metric's fixed
      point 0.092. */
  lemma OperatorHasNoFloor()
    ensures NewPhaseConjugateOperator(PcRad).HealingEfficiency(1.0) == (0.054, 0.946)
    ensures NewPhaseConjugateOperator(PcRad).HealingEfficiency(1.0).0 < CcceMetrics.GAMMA_FIXED
  {
    assert CcceMetrics.HealingFactor(1.0) == 1.0;
  }

  // ---------------------------------------------------------------------------------------
  // The emitted program.

  /** A stage emitted as one joined string becomes a single empty line when it has no gate. */
  function Embed(stage: seq<Line>): (r: seq<Line>)
    ensures stage != [] ==> r == stage
    ensures stage == [] ==> r == [Blank]
  {
    if stage == [] then [Blank] else stage
  }

  lemma EmbedGates(stage: seq<Line>)
    requires AllGates(stage)
    ensures Gates(Embed(stage)) == stage
  {
    GatesOfAllGates(stage);
    if stage == [] {
      assert Gates([Blank]) == Gates([]) + [];
    }
  }

  function TfdStage(n: int): seq<Line>
  {
    TfdPairs(LockRad, n / 2, n / 2)
  }

  function InjectionStage(): seq<Line>
  {
    [H(0), Ry(LockRad, 0)]
  }

  function ScramblingStage(n: int): seq<Line>
  {
    ScrambleLayers(PerQubit, n, 3)
  }

  function TriggerStage(n: int): seq<Line>
  {
    RyRun(PcRad, n / 2 / 2, n / 2)
  }

  function ReverseStage(n: int): seq<Line>
  {
    ReverseLayers(PerQubit, n, 3, 0)
  }

  const TITLE_1: string := "// Stage 1: TFD State (ER Bridge)"
  const TITLE_2: string := "// Stage 2: Message Injection (Alice)"
  const TITLE_3: string := "// Stage 3: Scrambling"
  const TITLE_4: string := "// Stage 4: PHASE CONJUGATE TRIGGER (Time Reversal)"
  const TITLE_5: string := "// Stage 5: Reverse Scrambling"

  /** The whole program for an `n`-qubit register, line by line. */
  function WormholeProgram(n: int): seq<Line>
  {
    Staged(Header(n), TITLE_1, Embed(TfdStage(n)), TITLE_2, InjectionStage(),
           TITLE_3, Embed(ScramblingStage(n)), TITLE_4, Embed(TriggerStage(n)),
           TITLE_5, Embed(ReverseStage(n)))
  }

  class WormholeCircuit {
    const nQubits: int
    const throatQubits: int := nQubits / 2
    const stages: seq<WormholeStage> := DefineStages()
    const phaseConjugate: PhaseConjugateOperator := NewPhaseConjugateOperator(PcRad)

    constructor (nQubits: int)
      ensures this.nQubits == nQubits
    {
      this.nQubits := nQubits;
    }

    /** Bell pair `i` on qubits `i` and `i + throatQubits`, for each throat qubit. */
    method QasmStage1Tfd() returns (qasm: seq<Line>)
      ensures qasm == TfdStage(nQubits)
    {
      qasm := [];
      var i := 0;
      while i < throatQubits
        invariant 0 <= i <= Span(throatQubits)
        invariant qasm == TfdPairs(LockRad, throatQubits, i)
      {
        var alice, bob := i, i + throatQubits;
        qasm := qasm + [H(alice), Ry(LockRad, alice), Cx(alice, bob)];
        i := i + 1;
      }
    }

    /** The phase-conjugate rotation on `throatQubits` qubits starting at `throatQubits / 2`. */
    method QasmStage4PhaseConjugate() returns (qasm: seq<Line>)
      ensures qasm == TriggerStage(nQubits)
    {
      qasm := [];
      var i := 0;
      while i < throatQubits
        invariant 0 <= i <= Span(throatQubits)
        invariant qasm == RyRun(PcRad, throatQubits / 2, i)
      {
        var throat := i + throatQubits / 2;
        qasm := qasm + [Ry(PcRad, throat)];
        i := i + 1;
      }
    }

    /** Three layers, each a rotation on every qubit followed by a ladder of `cx` gates. */
    method ScramblingLayer() returns (qasm: seq<Line>)
      ensures qasm == ScramblingStage(nQubits)
    {
      qasm := [];
      var layer := 0;
      while layer < 3
        invariant 0 <= layer <= 3
        invariant qasm == ScrambleLayers(PerQubit, nQubits, layer)
      {
        var block := ScrambleLayerLines(PerQubit, nQubits, layer);
        qasm := qasm + block;
        layer := layer + 1;
      }
    }

    /** The layers undone from the last to the first, each ladder walked downwards and each
        rotation negated. */
    method ReverseScramblingLayer() returns (qasm: seq<Line>)
      ensures qasm == ReverseStage(nQubits)
    {
      qasm := [];
      var layer := 2;
      while layer >= 0
        invariant -1 <= layer <= 2
        invariant qasm == ReverseLayers(PerQubit, nQubits, 3, layer + 1)
        decreases layer + 1
      {
        var block := ReverseLayerLines(PerQubit, nQubits, layer);
        qasm := qasm + block;
        layer := layer - 1;
      }
    }

    /** The complete program: header, the five stages in order, and the measurement. */
    method FullQasm() returns (qasm: seq<Line>)
      ensures qasm == WormholeProgram(nQubits)
    {
      var stage1 := QasmStage1Tfd();
      var stage3 := ScramblingLayer();
      var stage4 := QasmStage4PhaseConjugate();
      var stage5 := ReverseScramblingLayer();
      qasm := Staged(Header(nQubits), TITLE_1, Embed(stage1), TITLE_2, [H(0), Ry(LockRad, 0)],
                     TITLE_3, Embed(stage3), TITLE_4, Embed(stage4), TITLE_5, Embed(stage5));
    }
  }

  // ---------------------------------------------------------------------------------------
  // Properties of the emitted program.

  /** The program opens with the register declarations and ends with the measurement. */
  lemma WormholeProgramFrame(n: int)
    ensures WormholeProgram(n)[..4] == Header(n)
    ensures WormholeProgram(n)[|WormholeProgram(n)| - 1] == MeasureAll
  {
    StagedFrame(Header(n), TITLE_1, Embed(TfdStage(n)), TITLE_2, InjectionStage(),
                TITLE_3, Embed(ScramblingStage(n)), TITLE_4, Embed(TriggerStage(n)),
                TITLE_5, Embed(ReverseStage(n)));
  }

  /** The five stages hold nothing but gates. */
  lemma StagesAreGates(n: int)
    ensures AllGates(TfdStage(n)) && AllGates(InjectionStage()) && AllGates(ScramblingStage(n))
    ensures AllGates(TriggerStage(n)) && AllGates(ReverseStage(n))
  {
    TfdPairsAllGates(LockRad, n / 2, n / 2);
    RyRunAllGates(PcRad, n / 2 / 2, n / 2);
    InvertibleAllGates(ScramblingStage(n));
    ReverseLayersInvertScramble(PerQubit, n, 3);
    InvertibleAllGates(ReverseStage(n));
  }

  /** Read gate by gate, the program is the five stages in pipeline order. */
  lemma WormholeGateSequence(n: int)
    ensures Gates(WormholeProgram(n))
            == TfdStage(n) + InjectionStage() + ScramblingStage(n) + TriggerStage(n) + ReverseStage(n)
  {
    HeaderGates(n);
    StagedGates(Header(n), TITLE_1, Embed(TfdStage(n)), TITLE_2, InjectionStage(),
                TITLE_3, Embed(ScramblingStage(n)), TITLE_4, Embed(TriggerStage(n)),
                TITLE_5, Embed(ReverseStage(n)));
    StagesAreGates(n);
    EmbedGates(TfdStage(n));
    GatesOfAllGates(InjectionStage());
    EmbedGates(ScramblingStage(n));
    EmbedGates(TriggerStage(n));
    EmbedGates(ReverseStage(n));
  }

  /** Stage 5 undoes stage 3: it is the scrambling stage's gates, reversed, each replaced by
      its adjoint. */
  lemma ReverseScramblingInvertsScrambling(n: int)
    ensures ReverseStage(n) == Inverse(ScramblingStage(n))
    ensures Inverse(ReverseStage(n)) == ScramblingStage(n)
  {
    ReverseLayersInvertScramble(PerQubit, n, 3);
    InverseInvolution(ScramblingStage(n));
  }

  /** Three layers of n rotations and n-1 ladder gates: 3·(2n-1) lines. */
  lemma ScramblingStageLength(n: int)
    requires n >= 1
    ensures |ScramblingStage(n)| == 3 * (2 * n - 1)
  {
    ScrambleLayersLength(PerQubit, n, 3);
    assert Span(n) + Span(n - 1) == 2 * n - 1;
  }

  /** For a non-empty register every stage stays inside it. */
  lemma StagesWithin(n: int)
    requires n >= 1
    ensures AllWithin(TfdStage(n) + InjectionStage() + ScramblingStage(n) + TriggerStage(n) + ReverseStage(n), n)
  {
    var s1, s2, s3, s4, s5 := TfdStage(n), InjectionStage(), ScramblingStage(n), TriggerStage(n), ReverseStage(n);
    TfdPairsWithin(LockRad, n);
    assert AllWithin(s2, n) by {
      assert LineWithin(s2[0], n) && LineWithin(s2[1], n);
    }
    assert n / 2 / 2 + n / 2 <= n;
    RyRunWithin(PcRad, n / 2 / 2, n / 2, n);
    ScrambleLayersWithin(PerQubit, n, 3);
    assert AllWithin(s5, n) by {
      ReverseScramblingInvertsScrambling(n);
      InverseWithin(s3, n);
    }
    AllWithinFive(s1, s2, s3, s4, s5, n);
  }

  /** Every qubit the program names lies in its register exactly when the register is not
      empty (the message is always injected on qubit 0). */
  lemma WormholeWithinRegister(n: int)
    ensures AllWithin(WormholeProgram(n), n) <==> n >= 1
  {
    WithinGates(WormholeProgram(n), n);
    WormholeGateSequence(n);
    if n >= 1 {
      StagesWithin(n);
    } else {
      var g := TfdStage(n) + InjectionStage() + ScramblingStage(n) + TriggerStage(n) + ReverseStage(n);
      assert TfdStage(n) == [];
      assert g[0] == H(0);
      assert !LineWithin(g[0], n);
    }
  }

  lemma CountEmbed(stage: seq<Line>, k: GateKind)
    ensures Count(Embed(stage), k) == Count(stage, k)
  {
  }

  /** Each gate count of the program is the sum over its five stages. */
  lemma WormholeCountByStage(n: int, k: GateKind)
    ensures Count(WormholeProgram(n), k)
            == Count(TfdStage(n), k) + Count(InjectionStage(), k) + Count(ScramblingStage(n), k)
               + Count(TriggerStage(n), k) + Count(ReverseStage(n), k)
  {
    HeaderGates(n);
    StagedCount(Header(n), TITLE_1, Embed(TfdStage(n)), TITLE_2, InjectionStage(),
                TITLE_3, Embed(ScramblingStage(n)), TITLE_4, Embed(TriggerStage(n)),
                TITLE_5, Embed(ReverseStage(n)), k);
    CountEmbed(TfdStage(n), k);
    CountEmbed(ScramblingStage(n), k);
    CountEmbed(TriggerStage(n), k);
    CountEmbed(ReverseStage(n), k);
  }

  /** Both scrambling stages hold three layers' worth of each gate kind. */
  lemma ScramblingCounts(n: int, k: GateKind)
    ensures Count(ScramblingStage(n), k) == Count(ReverseStage(n), k) == 3 * LayerCount(n, k)
  {
    CountScramble(PerQubit, n, 3, k);
    ReverseScramblingInvertsScrambling(n);
    CountInverse(ScramblingStage(n), k);
  }

  lemma InjectionCounts()
    ensures Count(InjectionStage(), HGate) == 1 && Count(InjectionStage(), RyGate) == 1
    ensures Count(InjectionStage(), RzGate) == 0 && Count(InjectionStage(), CxGate) == 0
  {
    assert InjectionStage()[..1] == [H(0)];
  }

  /** The gates of kind k in the bridge, the injected message and the trigger. */
  lemma BoundaryStageCounts(n: int, k: GateKind)
    requires n >= 1
    ensures Count(TfdStage(n), k) == if k == RzGate then 0 else n / 2
    ensures Count(InjectionStage(), k) == if k == HGate || k == RyGate then 1 else 0
    ensures Count(TriggerStage(n), k) == if k == RyGate then n / 2 else 0
  {
    CountTfdPairs(LockRad, n / 2, n / 2, k);
    CountRyRun(PcRad, n / 2 / 2, n / 2, k);
    InjectionCounts();
  }

  /** Each gate count of the program in closed form: bridge pairs, the injected message,
      both scrambling stages and the trigger. */
  lemma WormholeCountByKind(n: int, k: GateKind)
    requires n >= 1
    ensures Count(WormholeProgram(n), k)
            == (if k == RzGate then 0 else n / 2) + (if k == HGate || k == RyGate then 1 else 0)
               + 6 * LayerCount(n, k) + (if k == RyGate then n / 2 else 0)
  {
    WormholeCountByStage(n, k);
    ScramblingCounts(n, k);
    BoundaryStageCounts(n, k);
  }

  /** Gate counts of the whole program for a non-empty register of `n` qubits with
      `n / 2` throat qubits: the extra h and ry are the injected message, and the scrambling
      and its reversal contribute three layers each. */
  lemma WormholeGateCounts(n: int)
    requires n >= 1
    ensures Count(WormholeProgram(n), HGate) == n / 2 + 1
    ensures Count(WormholeProgram(n), RyGate) == n / 2 + 1 + n / 2
    ensures Count(WormholeProgram(n), RzGate) == 6 * n
    ensures Count(WormholeProgram(n), CxGate) == n / 2 + 6 * (n - 1)
  {
    WormholeCountByKind(n, HGate);
    WormholeCountByKind(n, RyGate);
    WormholeCountByKind(n, RzGate);
    WormholeCountByKind(n, CxGate);
  }
}
