/** The OpenQASM 2.0 programs that the wormhole circuit builders emit, one datatype value per
    emitted line. Rotation angles are kept symbolic: the two fixed angles are tags, and every
    `rz` angle of the scrambling stages is a signed multiple of 0.1 (`Rz(negated, tenths, q)`
    stands for `rz(±0.1·tenths) q[q];`).

    The builders in phase_conjugation.py and max_qubit_advantage.py share their loop shapes;
    each shape is a recursive function here that appends one loop iteration at the end, so a
    `while` loop can be proved against it step by step. Each shape also has a closed form
    (the line at position j) and the scrambling shapes have their inverse proved. */
module Qasm {

  /** The fixed rotation angles. phase_conjugation.py computes them from pi; max_qubit_advantage.py
      writes rounded literals, so the two files' angles are distinct tags. */
  datatype AngleTag =
    | LockRad      // math.radians(51.843)
    | PcRad        // pi - math.radians(51.843)
    | LockRounded  // the literal 0.9047
    | PcRounded    // the literal 2.2368

  /** One line of an emitted program. */
  datatype Line =
    | OpenQasm                                  // OPENQASM 2.0;
    | IncludeQelib                              // include "qelib1.inc";
    | QReg(size: int)                           // qreg q[size];
    | CReg(size: int)                           // creg c[size];
    | Blank                                     // the empty line
    | Comment(text: string)                     // text, a whole comment line starting with //
    | TitleComment(qubits: int)                 // // MAXIMUM ADVANTAGE CIRCUIT: qubits QUBITS
    | TargetComment(exponent: int)              // // Target advantage: 10^exponent×
    | H(qubit: int)                             // h q[qubit];
    | Ry(angle: AngleTag, qubit: int)           // ry(angle) q[qubit];
    | Rz(negated: bool, tenths: int, qubit: int)  // rz(±0.1·tenths) q[qubit];
    | Cx(control: int, target: int)             // cx q[control], q[target];
    | MeasureAll                                // measure q -> c;

  /** The four declaration lines every emitted program starts with. */
  function Header(n: int): seq<Line>
  {
    [OpenQasm, IncludeQelib, QReg(n), CReg(n)]
  }

  /** The number of iterations of Python's `range(k)`. */
  function Span(k: int): nat
  {
    if k < 0 then 0 else k
  }

  /** Every qubit a gate line names is an index into `qreg q[n]`. */
  predicate LineWithin(l: Line, n: int)
  {
    match l
    case H(q) => 0 <= q < n
    case Ry(_, q) => 0 <= q < n
    case Rz(_, _, q) => 0 <= q < n
    case Cx(c, t) => 0 <= c < n && 0 <= t < n
    case _ => true
  }

  predicate AllWithin(s: seq<Line>, n: int)
  {
    forall i :: 0 <= i < |s| ==> LineWithin(s[i], n)
  }

  lemma AllWithinConcat(a: seq<Line>, b: seq<Line>, n: int)
    ensures AllWithin(a + b, n) <==> AllWithin(a, n) && AllWithin(b, n)
  {
    if AllWithin(a, n) && AllWithin(b, n) {
      forall i | 0 <= i < |a + b| ensures LineWithin((a + b)[i], n) {
        if i >= |a| {
          assert (a + b)[i] == b[i - |a|];
        }
      }
    }
    if AllWithin(a + b, n) {
      forall i | 0 <= i < |a| ensures LineWithin(a[i], n) {
        assert (a + b)[i] == a[i];
      }
      forall i | 0 <= i < |b| ensures LineWithin(b[i], n) {
        assert (a + b)[|a| + i] == b[i];
      }
    }
  }

  /** Five stages that each stay inside the register stay inside it when run in order. */
  lemma AllWithinFive(s1: seq<Line>, s2: seq<Line>, s3: seq<Line>, s4: seq<Line>, s5: seq<Line>, n: int)
    requires AllWithin(s1, n) && AllWithin(s2, n) && AllWithin(s3, n) && AllWithin(s4, n) && AllWithin(s5, n)
    ensures AllWithin(s1 + s2 + s3 + s4 + s5, n)
  {
    AllWithinConcat(s1, s2, n);
    AllWithinConcat(s1 + s2, s3, n);
    AllWithinConcat(s1 + s2 + s3, s4, n);
    AllWithinConcat(s1 + s2 + s3 + s4, s5, n);
  }

  // ---------------------------------------------------------------------------------------
  // Thermofield-double pairs: for i in range(k): h q[i]; ry(angle) q[i]; cx q[i], q[i+throat];

  /** The line at position j of the pair stage, written directly. */
  function TfdLine(angle: AngleTag, throat: int, j: int): Line
  {
    var i := j / 3;
    if j % 3 == 0 then H(i) else if j % 3 == 1 then Ry(angle, i) else Cx(i, i + throat)
  }

  function TfdPairs(angle: AngleTag, throat: int, k: int): seq<Line>
    decreases k
  {
    if k <= 0 then []
    else TfdPairs(angle, throat, k - 1) + [H(k - 1), Ry(angle, k - 1), Cx(k - 1, k - 1 + throat)]
  }

  lemma {:induction false} TfdPairsClosedForm(angle: AngleTag, throat: int, k: int)
    ensures |TfdPairs(angle, throat, k)| == 3 * Span(k)
    ensures forall j :: 0 <= j < |TfdPairs(angle, throat, k)| ==>
              TfdPairs(angle, throat, k)[j] == TfdLine(angle, throat, j)
    decreases k
  {
    if k > 0 {
      TfdPairsClosedForm(angle, throat, k - 1);
      var prev := TfdPairs(angle, throat, k - 1);
      var s := TfdPairs(angle, throat, k);
      forall j | 0 <= j < |s| ensures s[j] == TfdLine(angle, throat, j) {
        if j < |prev| {
          assert s[j] == prev[j];
        } else {
          assert j / 3 == k - 1 && j % 3 == j - 3 * (k - 1);
        }
      }
    }
  }

  /** With the throat at half of n, every pair stays inside the register ... */
  lemma TfdPairsWithin(angle: AngleTag, n: int)
    ensures AllWithin(TfdPairs(angle, n / 2, n / 2), n)
  {
    TfdPairsClosedForm(angle, n / 2, n / 2);
    var s := TfdPairs(angle, n / 2, n / 2);
    forall j | 0 <= j < |s| ensures LineWithin(s[j], n) {
      assert 0 <= j / 3 < n / 2;
    }
  }

  /** ... and every cx target is the partner i + throat of its control i. */
  lemma TfdPairsPartners(angle: AngleTag, n: int)
    ensures forall j :: 0 <= j < |TfdPairs(angle, n / 2, n / 2)| && TfdPairs(angle, n / 2, n / 2)[j].Cx? ==>
              TfdPairs(angle, n / 2, n / 2)[j].target == TfdPairs(angle, n / 2, n / 2)[j].control + n / 2 < n
  {
    TfdPairsClosedForm(angle, n / 2, n / 2);
    var s := TfdPairs(angle, n / 2, n / 2);
    forall j | 0 <= j < |s| && s[j].Cx? ensures s[j].target == s[j].control + n / 2 < n {
      assert 0 <= j / 3 < n / 2;
    }
  }

  // ---------------------------------------------------------------------------------------
  // A run of fixed-angle ry gates: for i in range(lo, lo + k): ry(angle) q[i];

  function RyRun(angle: AngleTag, lo: int, k: int): seq<Line>
    decreases k
  {
    if k <= 0 then [] else RyRun(angle, lo, k - 1) + [Ry(angle, lo + k - 1)]
  }

  lemma {:induction false} RyRunClosedForm(angle: AngleTag, lo: int, k: int)
    ensures |RyRun(angle, lo, k)| == Span(k)
    ensures forall j :: 0 <= j < |RyRun(angle, lo, k)| ==> RyRun(angle, lo, k)[j] == Ry(angle, lo + j)
    decreases k
  {
    if k > 0 {
      RyRunClosedForm(angle, lo, k - 1);
    }
  }

  /** The run touches exactly the qubits lo .. lo+k-1, so it stays inside q[n] when lo + k <= n. */
  lemma RyRunWithin(angle: AngleTag, lo: int, k: int, n: int)
    requires 0 <= lo && lo + k <= n
    ensures AllWithin(RyRun(angle, lo, k), n)
  {
    RyRunClosedForm(angle, lo, k);
  }

  // ---------------------------------------------------------------------------------------
  // Scrambling layers and their reversal.

  /** How a layer's rz angle depends on the layer and the qubit: 0.1·(i + layer) in
      phase_conjugation.py, 0.1·(layer + 1) in max_qubit_advantage.py. */
  datatype RzSchedule = PerQubit | PerLayer

  function Tenths(schedule: RzSchedule, layer: int, i: int): int
  {
    match schedule
    case PerQubit => i + layer
    case PerLayer => layer + 1
  }

  /** for i in range(k): rz(+0.1·Tenths) q[i]; */
  function RzUp(schedule: RzSchedule, layer: int, k: int): (r: seq<Line>)
    ensures AllInvertible(r)
    decreases k
  {
    if k <= 0 then [] else RzUp(schedule, layer, k - 1) + [Rz(false, Tenths(schedule, layer, k - 1), k - 1)]
  }

  /** for i in range(k): cx q[i], q[i+1]; */
  function CxUp(k: int): (r: seq<Line>)
    ensures AllInvertible(r)
    decreases k
  {
    if k <= 0 then [] else CxUp(k - 1) + [Cx(k - 1, k)]
  }

  /** for i from top-1 down to lo: rz(-0.1·Tenths) q[i]; */
  function RzDown(schedule: RzSchedule, layer: int, top: int, lo: int): seq<Line>
    decreases top - lo
  {
    if lo >= top then [] else RzDown(schedule, layer, top, lo + 1) + [Rz(true, Tenths(schedule, layer, lo), lo)]
  }

  /** for i from top-1 down to lo: cx q[i], q[i+1]; */
  function CxDown(top: int, lo: int): seq<Line>
    decreases top - lo
  {
    if lo >= top then [] else CxDown(top, lo + 1) + [Cx(lo, lo + 1)]
  }

  /** Scrambling layers 0 .. layers-1 over q[0..n): each is n rz gates then n-1 adjacent cx gates. */
  function ScrambleLayers(schedule: RzSchedule, n: int, layers: int): (r: seq<Line>)
    ensures AllInvertible(r)
    decreases layers
  {
    if layers <= 0 then []
    else ScrambleLayers(schedule, n, layers - 1) + RzUp(schedule, layers - 1, n) + CxUp(n - 1)
  }

  /** Reverse-scrambling layers top-1 down to lo: each is the n-1 cx gates from the highest pair
      down, then the n negated rz gates from the highest qubit down. */
  function ReverseLayers(schedule: RzSchedule, n: int, top: int, lo: int): seq<Line>
    decreases top - lo
  {
    if lo >= top then []
    else ReverseLayers(schedule, n, top, lo + 1) + CxDown(n - 1, 0) + RzDown(schedule, lo, n, 0)
  }

  /** One scrambling layer as the loops write it: rz on q[0] .. q[n-1], then cx q[i], q[i+1]
      for i from 0 to n-2. */
  method ScrambleLayerLines(schedule: RzSchedule, n: int, layer: int) returns (block: seq<Line>)
    ensures block == RzUp(schedule, layer, n) + CxUp(n - 1)
  {
    block := [];
    var i := 0;
    while i < n
      invariant 0 <= i <= Span(n)
      invariant block == RzUp(schedule, layer, i)
    {
      block := block + [Rz(false, Tenths(schedule, layer, i), i)];
      i := i + 1;
    }
    assert RzUp(schedule, layer, i) == RzUp(schedule, layer, n);
    i := 0;
    while i < n - 1
      invariant 0 <= i <= Span(n - 1)
      invariant block == RzUp(schedule, layer, n) + CxUp(i)
    {
      block := block + [Cx(i, i + 1)];
      i := i + 1;
    }
    assert CxUp(i) == CxUp(n - 1);
  }

  /** One layer undone as the loops write it: cx q[i], q[i+1] for i from n-2 down to 0, then
      the negated rz on q[n-1] down to q[0]. */
  method ReverseLayerLines(schedule: RzSchedule, n: int, layer: int) returns (block: seq<Line>)
    ensures block == CxDown(n - 1, 0) + RzDown(schedule, layer, n, 0)
  {
    block := [];
    var i := n - 2;
    while i >= 0
      invariant i <= n - 2 && (i >= -1 || i == n - 2)
      invariant block == CxDown(n - 1, i + 1)
      decreases i + 1
    {
      block := block + [Cx(i, i + 1)];
      i := i - 1;
    }
    assert CxDown(n - 1, i + 1) == CxDown(n - 1, 0);
    i := n - 1;
    while i >= 0
      invariant i <= n - 1 && (i >= -1 || i == n - 1)
      invariant block == CxDown(n - 1, 0) + RzDown(schedule, layer, n, i + 1)
      decreases i + 1
    {
      block := block + [Rz(true, Tenths(schedule, layer, i), i)];
      i := i - 1;
    }
    assert RzDown(schedule, layer, n, i + 1) == RzDown(schedule, layer, n, 0);
  }

  lemma {:induction false} RzUpClosedForm(schedule: RzSchedule, layer: int, k: int)
    ensures |RzUp(schedule, layer, k)| == Span(k)
    ensures forall j :: 0 <= j < |RzUp(schedule, layer, k)| ==>
              RzUp(schedule, layer, k)[j] == Rz(false, Tenths(schedule, layer, j), j)
    decreases k
  {
    if k > 0 {
      RzUpClosedForm(schedule, layer, k - 1);
    }
  }

  lemma {:induction false} CxUpClosedForm(k: int)
    ensures |CxUp(k)| == Span(k)
    ensures forall j :: 0 <= j < |CxUp(k)| ==> CxUp(k)[j] == Cx(j, j + 1)
    decreases k
  {
    if k > 0 {
      CxUpClosedForm(k - 1);
    }
  }

  lemma {:induction false} RzDownClosedForm(schedule: RzSchedule, layer: int, top: int, lo: int)
    ensures |RzDown(schedule, layer, top, lo)| == Span(top - lo)
    ensures forall j :: 0 <= j < |RzDown(schedule, layer, top, lo)| ==>
              RzDown(schedule, layer, top, lo)[j] == Rz(true, Tenths(schedule, layer, top - 1 - j), top - 1 - j)
    decreases top - lo
  {
    if lo < top {
      RzDownClosedForm(schedule, layer, top, lo + 1);
    }
  }

  lemma {:induction false} CxDownClosedForm(top: int, lo: int)
    ensures |CxDown(top, lo)| == Span(top - lo)
    ensures forall j :: 0 <= j < |CxDown(top, lo)| ==> CxDown(top, lo)[j] == Cx(top - 1 - j, top - j)
    decreases top - lo
  {
    if lo < top {
      CxDownClosedForm(top, lo + 1);
    }
  }

  /** One scrambling layer has n rz lines and n-1 cx lines (2n-1 lines when n >= 1). */
  lemma {:induction false} ScrambleLayersLength(schedule: RzSchedule, n: int, layers: int)
    ensures |ScrambleLayers(schedule, n, layers)| == Span(layers) * (Span(n) + Span(n - 1))
    decreases layers
  {
    if layers > 0 {
      var width := Span(n) + Span(n - 1);
      ScrambleLayersLength(schedule, n, layers - 1);
      RzUpClosedForm(schedule, layers - 1, n);
      CxUpClosedForm(n - 1);
      MulSucc(Span(layers - 1), width);
    }
  }

  lemma {:induction false} ScrambleLayersWithin(schedule: RzSchedule, n: int, layers: int)
    ensures AllWithin(ScrambleLayers(schedule, n, layers), n)
    decreases layers
  {
    if layers > 0 {
      ScrambleLayersWithin(schedule, n, layers - 1);
      RzUpClosedForm(schedule, layers - 1, n);
      CxUpClosedForm(n - 1);
      AllWithinConcat(ScrambleLayers(schedule, n, layers - 1), RzUp(schedule, layers - 1, n), n);
      AllWithinConcat(ScrambleLayers(schedule, n, layers - 1) + RzUp(schedule, layers - 1, n), CxUp(n - 1), n);
    }
  }

  // ---------------------------------------------------------------------------------------
  // Inverse circuits.

  /** The gates whose inverse the model can write: h and cx are their own inverses, and the
      inverse of rz(θ) is rz(-θ). */
  predicate Invertible(l: Line)
  {
    l.H? || l.Rz? || l.Cx?
  }

  predicate AllInvertible(s: seq<Line>)
  {
    forall i :: 0 <= i < |s| ==> Invertible(s[i])
  }

  function Adjoint(l: Line): (r: Line)
    requires Invertible(l)
    ensures Invertible(r)
  {
    if l.Rz? then Rz(!l.negated, l.tenths, l.qubit) else l
  }

  /** The inverse circuit: the gates in reverse order, each replaced by its adjoint. */
  function Inverse(s: seq<Line>): (r: seq<Line>)
    requires AllInvertible(s)
    ensures |r| == |s| && AllInvertible(r)
  {
    if s == [] then [] else Inverse(s[1..]) + [Adjoint(s[0])]
  }

  lemma {:induction false} InverseAt(s: seq<Line>, j: int)
    requires AllInvertible(s) && 0 <= j < |s|
    ensures Inverse(s)[j] == Adjoint(s[|s| - 1 - j])
    decreases |s|
  {
    if j < |s| - 1 {
      InverseAt(s[1..], j);
    }
  }

  /** The inverse names the same qubits as the circuit, so it stays inside the same register. */
  lemma InverseWithin(s: seq<Line>, n: int)
    requires AllInvertible(s) && AllWithin(s, n)
    ensures AllWithin(Inverse(s), n)
  {
    forall j | 0 <= j < |s| ensures LineWithin(Inverse(s)[j], n) {
      InverseAt(s, j);
    }
  }

  lemma {:induction false} InverseConcat(a: seq<Line>, b: seq<Line>)
    requires AllInvertible(a) && AllInvertible(b)
    ensures AllInvertible(a + b)
    ensures Inverse(a + b) == Inverse(b) + Inverse(a)
    decreases |a|
  {
    assert AllInvertible(a + b) by {
      forall i | 0 <= i < |a + b| ensures Invertible((a + b)[i]) {
        if i >= |a| { assert (a + b)[i] == b[i - |a|]; }
      }
    }
    if a == [] {
      assert a + b == b;
    } else {
      assert (a + b)[1..] == a[1..] + b;
      InverseConcat(a[1..], b);
    }
  }

  /** Undoing an inverse gives back the original circuit. */
  lemma InverseInvolution(s: seq<Line>)
    requires AllInvertible(s)
    ensures AllInvertible(Inverse(s)) && Inverse(Inverse(s)) == s
  {
    var r := Inverse(s);
    forall j | 0 <= j < |s| ensures Inverse(r)[j] == s[j] {
      InverseAt(r, j);
      InverseAt(s, |s| - 1 - j);
    }
  }

  lemma RzDownInvertsRzUp(schedule: RzSchedule, layer: int, n: int)
    ensures Inverse(RzUp(schedule, layer, n)) == RzDown(schedule, layer, n, 0)
  {
    var up := RzUp(schedule, layer, n);
    RzUpClosedForm(schedule, layer, n);
    RzDownClosedForm(schedule, layer, n, 0);
    forall j | 0 <= j < |up| ensures Inverse(up)[j] == RzDown(schedule, layer, n, 0)[j] {
      InverseAt(up, j);
    }
  }

  lemma CxDownInvertsCxUp(k: int)
    ensures Inverse(CxUp(k)) == CxDown(k, 0)
  {
    var up := CxUp(k);
    CxUpClosedForm(k);
    CxDownClosedForm(k, 0);
    forall j | 0 <= j < |up| ensures Inverse(up)[j] == CxDown(k, 0)[j] {
      InverseAt(up, j);
    }
  }

  /** The reverse layers, emitted from the top layer down, start with the top layer. */
  lemma {:induction false} ReverseLayersPeelTop(schedule: RzSchedule, n: int, top: int, lo: int)
    requires lo < top
    ensures ReverseLayers(schedule, n, top, lo) ==
              CxDown(n - 1, 0) + RzDown(schedule, top - 1, n, 0) + ReverseLayers(schedule, n, top - 1, lo)
    decreases top - lo
  {
    if lo < top - 1 {
      ReverseLayersPeelTop(schedule, n, top, lo + 1);
    }
  }

  /** The reverse-scrambling stage is exactly the inverse circuit of the scrambling stage. */
  lemma {:induction false} ReverseLayersInvertScramble(schedule: RzSchedule, n: int, layers: int)
    requires layers >= 0
    ensures ReverseLayers(schedule, n, layers, 0) == Inverse(ScrambleLayers(schedule, n, layers))
    decreases layers
  {
    if layers > 0 {
      var prev := ScrambleLayers(schedule, n, layers - 1);
      var rz := RzUp(schedule, layers - 1, n);
      var cx := CxUp(n - 1);
      ReverseLayersInvertScramble(schedule, n, layers - 1);
      InverseConcat(prev + rz, cx);
      InverseConcat(prev, rz);
      RzDownInvertsRzUp(schedule, layers - 1, n);
      CxDownInvertsCxUp(n - 1);
      ReverseLayersPeelTop(schedule, n, layers, 0);
    }
  }

  // ---------------------------------------------------------------------------------------
  // Gate counts.

  datatype GateKind = HGate | RyGate | RzGate | CxGate

  predicate IsKind(l: Line, k: GateKind)
  {
    match k
    case HGate => l.H?
    case RyGate => l.Ry?
    case RzGate => l.Rz?
    case CxGate => l.Cx?
  }

  /** The number of gate lines of the given kind. */
  function Count(s: seq<Line>, k: GateKind): (c: nat)
    ensures c <= |s|
  {
    if s == [] then 0 else Count(s[..|s| - 1], k) + (if IsKind(s[|s| - 1], k) then 1 else 0)
  }

  lemma {:induction false} CountConcat(a: seq<Line>, b: seq<Line>, k: GateKind)
    ensures Count(a + b, k) == Count(a, k) + Count(b, k)
    decreases |b|
  {
    if b != [] {
      assert (a + b)[..|a + b| - 1] == a + b[..|b| - 1];
      CountConcat(a, b[..|b| - 1], k);
    } else {
      assert a + b == a;
    }
  }

  lemma CountSnoc(s: seq<Line>, x: Line, k: GateKind)
    ensures Count(s + [x], k) == Count(s, k) + (if IsKind(x, k) then 1 else 0)
  {
    assert (s + [x])[..|s + [x]| - 1] == s;
  }

  lemma CountBridgePair(angle: AngleTag, a: int, b: int, g: GateKind)
    ensures Count([H(a), Ry(angle, a), Cx(a, b)], g) == if g == RzGate then 0 else 1
  {
    assert [] + [H(a)] == [H(a)];
    CountSnoc([], H(a), g);
    CountSnoc([H(a)], Ry(angle, a), g);
    assert [H(a)] + [Ry(angle, a)] == [H(a), Ry(angle, a)];
    CountSnoc([H(a), Ry(angle, a)], Cx(a, b), g);
    assert [H(a), Ry(angle, a)] + [Cx(a, b)] == [H(a), Ry(angle, a), Cx(a, b)];
  }

  /** Each bridge pair adds one h, one ry and one cx. */
  lemma {:induction false} CountTfdPairs(angle: AngleTag, throat: int, k: int, g: GateKind)
    ensures Count(TfdPairs(angle, throat, k), g) == if g == RzGate then 0 else Span(k)
    decreases k
  {
    if k > 0 {
      var prev := TfdPairs(angle, throat, k - 1);
      CountTfdPairs(angle, throat, k - 1, g);
      CountConcat(prev, [H(k - 1), Ry(angle, k - 1), Cx(k - 1, k - 1 + throat)], g);
      CountBridgePair(angle, k - 1, k - 1 + throat, g);
    }
  }

  lemma {:induction false} CountRyRun(angle: AngleTag, lo: int, k: int, g: GateKind)
    ensures Count(RyRun(angle, lo, k), g) == if g == RyGate then Span(k) else 0
    decreases k
  {
    if k > 0 {
      CountRyRun(angle, lo, k - 1, g);
      CountSnoc(RyRun(angle, lo, k - 1), Ry(angle, lo + k - 1), g);
    }
  }

  lemma {:induction false} CountRzUp(schedule: RzSchedule, layer: int, k: int, g: GateKind)
    ensures Count(RzUp(schedule, layer, k), g) == if g == RzGate then Span(k) else 0
    decreases k
  {
    if k > 0 {
      CountRzUp(schedule, layer, k - 1, g);
      CountSnoc(RzUp(schedule, layer, k - 1), Rz(false, Tenths(schedule, layer, k - 1), k - 1), g);
    }
  }

  lemma {:induction false} CountCxUp(k: int, g: GateKind)
    ensures Count(CxUp(k), g) == if g == CxGate then Span(k) else 0
    decreases k
  {
    if k > 0 {
      CountCxUp(k - 1, g);
      CountSnoc(CxUp(k - 1), Cx(k - 1, k), g);
    }
  }

  lemma AddOneMore(x: int, k: int, c: int)
    requires k > 0 && x == Span(k - 1) * c
    ensures x + c == Span(k) * c
  {
    assert Span(k) == Span(k - 1) + 1;
  }

  lemma MulSucc(l: int, c: int)
    ensures (l + 1) * c == l * c + c
  {
  }

  /** The gates of kind g in one scrambling layer over n qubits. */
  function LayerCount(n: int, g: GateKind): nat
  {
    if g == RzGate then Span(n) else if g == CxGate then Span(n - 1) else 0
  }

  lemma CountLayer(schedule: RzSchedule, layer: int, n: int, g: GateKind)
    ensures Count(RzUp(schedule, layer, n) + CxUp(n - 1), g) == LayerCount(n, g)
  {
    CountRzUp(schedule, layer, n, g);
    CountCxUp(n - 1, g);
    CountConcat(RzUp(schedule, layer, n), CxUp(n - 1), g);
  }

  /** Each scrambling layer adds one layer's worth of gates of every kind. */
  lemma CountScrambleStep(schedule: RzSchedule, n: int, layers: int, g: GateKind)
    requires layers > 0
    ensures Count(ScrambleLayers(schedule, n, layers), g)
            == Count(ScrambleLayers(schedule, n, layers - 1), g) + LayerCount(n, g)
  {
    var prev := ScrambleLayers(schedule, n, layers - 1);
    var rz := RzUp(schedule, layers - 1, n);
    var cx := CxUp(n - 1);
    CountConcat(prev + rz, cx, g);
    CountConcat(prev, rz, g);
    CountConcat(rz, cx, g);
    CountLayer(schedule, layers - 1, n, g);
  }

  lemma {:induction false} CountScramble(schedule: RzSchedule, n: int, layers: int, g: GateKind)
    ensures Count(ScrambleLayers(schedule, n, layers), g) == Span(layers) * LayerCount(n, g)
    decreases layers
  {
    if layers > 0 {
      CountScramble(schedule, n, layers - 1, g);
      CountScrambleStep(schedule, n, layers, g);
      AddOneMore(Count(ScrambleLayers(schedule, n, layers - 1), g), layers, LayerCount(n, g));
    }
  }

  /** Counting is blind to order and to the sign of rz angles, so an inverse circuit has the
      same gate counts as the circuit it inverts. */
  lemma {:induction false} CountInverse(s: seq<Line>, k: GateKind)
    requires AllInvertible(s)
    ensures Count(Inverse(s), k) == Count(s, k)
    decreases |s|
  {
    if s != [] {
      CountInverse(s[1..], k);
      CountConcat(Inverse(s[1..]), [Adjoint(s[0])], k);
      CountConcat([s[0]], s[1..], k);
      assert [s[0]] + s[1..] == s;
      assert [Adjoint(s[0])][..0] == [];
      assert [s[0]][..0] == [];
    }
  }
  // ---------------------------------------------------------------------------------------
  // The gate lines of a program, in order, without declarations, comments, blank lines and
  // the final measurement.

  predicate IsGate(l: Line)
  {
    l.H? || l.Ry? || l.Rz? || l.Cx?
  }

  predicate AllGates(s: seq<Line>)
  {
    forall i :: 0 <= i < |s| ==> IsGate(s[i])
  }

  function Gates(s: seq<Line>): (r: seq<Line>)
    ensures |r| <= |s| && AllGates(r)
  {
    if s == [] then []
    else Gates(s[..|s| - 1]) + (if IsGate(s[|s| - 1]) then [s[|s| - 1]] else [])
  }

  lemma {:induction false} GatesConcat(a: seq<Line>, b: seq<Line>)
    ensures Gates(a + b) == Gates(a) + Gates(b)
    decreases |b|
  {
    if b == [] {
      assert a + b == a;
    } else {
      assert (a + b)[..|a + b| - 1] == a + b[..|b| - 1];
      GatesConcat(a, b[..|b| - 1]);
    }
  }

  /** A sequence made only of gate lines is its own gate sequence. */
  lemma {:induction false} GatesOfAllGates(s: seq<Line>)
    requires AllGates(s)
    ensures Gates(s) == s
    decreases |s|
  {
    if s != [] {
      GatesOfAllGates(s[..|s| - 1]);
      assert s[..|s| - 1] + [s[|s| - 1]] == s;
    }
  }

  /** Dropping the non-gate lines changes no gate count. */
  lemma {:induction false} CountGates(s: seq<Line>, k: GateKind)
    ensures Count(Gates(s), k) == Count(s, k)
    decreases |s|
  {
    if s != [] {
      var init, last := s[..|s| - 1], s[|s| - 1];
      CountGates(init, k);
      if IsGate(last) {
        CountSnoc(Gates(init), last, k);
      } else {
        assert Gates(s) == Gates(init);
        assert !IsKind(last, k);
      }
    }
  }

  /** The non-gate lines name no qubit, so only the gate lines decide whether a program stays
      inside its register. */
  lemma {:induction false} WithinGates(s: seq<Line>, n: int)
    ensures AllWithin(s, n) <==> AllWithin(Gates(s), n)
    decreases |s|
  {
    if s != [] {
      var init, last := s[..|s| - 1], s[|s| - 1];
      WithinGates(init, n);
      assert s == init + [last];
      AllWithinConcat(init, [last], n);
      if IsGate(last) {
        AllWithinConcat(Gates(init), [last], n);
      } else {
        assert Gates(s) == Gates(init);
      }
    }
  }

  lemma TfdPairsAllGates(angle: AngleTag, throat: int, k: int)
    ensures AllGates(TfdPairs(angle, throat, k))
  {
    TfdPairsClosedForm(angle, throat, k);
  }

  lemma RyRunAllGates(angle: AngleTag, lo: int, k: int)
    ensures AllGates(RyRun(angle, lo, k))
  {
    RyRunClosedForm(angle, lo, k);
  }

  lemma InvertibleAllGates(s: seq<Line>)
    requires AllInvertible(s)
    ensures AllGates(s)
  {
  }
  // ---------------------------------------------------------------------------------------
  // Programs made of five titled stages between a preamble and the final measurement.

  /** A blank line, a comment naming the stage, then the stage's lines. */
  function Section(title: string, body: seq<Line>): seq<Line>
  {
    [Blank, Comment(title)] + body
  }

  function Staged(preamble: seq<Line>,
                  t1: string, s1: seq<Line>, t2: string, s2: seq<Line>, t3: string, s3: seq<Line>,
                  t4: string, s4: seq<Line>, t5: string, s5: seq<Line>): seq<Line>
  {
    preamble + Section(t1, s1) + Section(t2, s2) + Section(t3, s3) + Section(t4, s4) + Section(t5, s5)
    + Section("// Measurement", [MeasureAll])
  }

  /** A run of lines without a gate has an empty gate sequence. */
  lemma {:induction false} NoGates(s: seq<Line>)
    requires forall i :: 0 <= i < |s| ==> !IsGate(s[i])
    ensures Gates(s) == []
    decreases |s|
  {
    if s != [] {
      NoGates(s[..|s| - 1]);
    }
  }

  lemma SectionGates(title: string, body: seq<Line>)
    ensures Gates(Section(title, body)) == Gates(body)
  {
    NoGates([Blank, Comment(title)]);
    GatesConcat([Blank, Comment(title)], body);
  }

  lemma HeaderGates(n: int)
    ensures Gates(Header(n)) == []
  {
    NoGates(Header(n));
  }

  /** Read gate by gate, a staged program is its five stages in order: the preamble, the
      titles and the measurement contribute no gate. */
  lemma StagedGates(preamble: seq<Line>,
                    t1: string, s1: seq<Line>, t2: string, s2: seq<Line>, t3: string, s3: seq<Line>,
                    t4: string, s4: seq<Line>, t5: string, s5: seq<Line>)
    requires Gates(preamble) == []
    ensures Gates(Staged(preamble, t1, s1, t2, s2, t3, s3, t4, s4, t5, s5))
            == Gates(s1) + Gates(s2) + Gates(s3) + Gates(s4) + Gates(s5)
  {
    var p1, p2, p3, p4, p5 := Section(t1, s1), Section(t2, s2), Section(t3, s3), Section(t4, s4), Section(t5, s5);
    var m := Section("// Measurement", [MeasureAll]);
    var g1, g2, g3, g4, g5 := Gates(s1), Gates(s2), Gates(s3), Gates(s4), Gates(s5);
    SectionGates(t1, s1);
    SectionGates(t2, s2);
    SectionGates(t3, s3);
    SectionGates(t4, s4);
    SectionGates(t5, s5);
    SectionGates("// Measurement", [MeasureAll]);
    NoGates([MeasureAll]);
    GatesConcat(preamble, p1);
    assert Gates(preamble + p1) == g1;
    GatesConcat(preamble + p1, p2);
    assert Gates(preamble + p1 + p2) == g1 + g2;
    GatesConcat(preamble + p1 + p2, p3);
    assert Gates(preamble + p1 + p2 + p3) == g1 + g2 + g3;
    GatesConcat(preamble + p1 + p2 + p3, p4);
    assert Gates(preamble + p1 + p2 + p3 + p4) == g1 + g2 + g3 + g4;
    GatesConcat(preamble + p1 + p2 + p3 + p4, p5);
    assert Gates(preamble + p1 + p2 + p3 + p4 + p5) == g1 + g2 + g3 + g4 + g5;
    GatesConcat(preamble + p1 + p2 + p3 + p4 + p5, m);
  }

  /** A staged program starts with its preamble and ends with the measurement. */
  lemma StagedFrame(preamble: seq<Line>,
                    t1: string, s1: seq<Line>, t2: string, s2: seq<Line>, t3: string, s3: seq<Line>,
                    t4: string, s4: seq<Line>, t5: string, s5: seq<Line>)
    ensures var p := Staged(preamble, t1, s1, t2, s2, t3, s3, t4, s4, t5, s5);
            |p| > |preamble| && p[..|preamble|] == preamble && p[|p| - 1] == MeasureAll
  {
  }

  /** A gate-free preamble names no qubit, so a staged program stays inside the register
      exactly when the gates of its five stages do. */
  lemma StagedWithin(preamble: seq<Line>,
                     t1: string, s1: seq<Line>, t2: string, s2: seq<Line>, t3: string, s3: seq<Line>,
                     t4: string, s4: seq<Line>, t5: string, s5: seq<Line>, n: int)
    requires Gates(preamble) == []
    ensures AllWithin(Staged(preamble, t1, s1, t2, s2, t3, s3, t4, s4, t5, s5), n)
            <==> AllWithin(Gates(s1) + Gates(s2) + Gates(s3) + Gates(s4) + Gates(s5), n)
  {
    StagedGates(preamble, t1, s1, t2, s2, t3, s3, t4, s4, t5, s5);
    WithinGates(Staged(preamble, t1, s1, t2, s2, t3, s3, t4, s4, t5, s5), n);
  }

  /** Gate counts of a staged program add up over its stages. */
  lemma StagedCount(preamble: seq<Line>,
                    t1: string, s1: seq<Line>, t2: string, s2: seq<Line>, t3: string, s3: seq<Line>,
                    t4: string, s4: seq<Line>, t5: string, s5: seq<Line>, k: GateKind)
    requires Gates(preamble) == []
    ensures Count(Staged(preamble, t1, s1, t2, s2, t3, s3, t4, s4, t5, s5), k)
            == Count(s1, k) + Count(s2, k) + Count(s3, k) + Count(s4, k) + Count(s5, k)
  {
    var p := Staged(preamble, t1, s1, t2, s2, t3, s3, t4, s4, t5, s5);
    StagedGates(preamble, t1, s1, t2, s2, t3, s3, t4, s4, t5, s5);
    CountGates(p, k);
    CountGates(s1, k);
    CountGates(s2, k);
    CountGates(s3, k);
    CountGates(s4, k);
    CountGates(s5, k);
    CountConcat(Gates(s1), Gates(s2), k);
    CountConcat(Gates(s1) + Gates(s2), Gates(s3), k);
    CountConcat(Gates(s1) + Gates(s2) + Gates(s3), Gates(s4), k);
    CountConcat(Gates(s1) + Gates(s2) + Gates(s3) + Gates(s4), Gates(s5), k);
  }
}
