/**
  Second-order IIR ("biquad") filters: coefficient records and their
  generators, the delay-register state, the four update topologies and the
  filter object that pairs one coefficient record with one state.

  Coefficient naming follows Pirkle, "Designing Audio Effect Plugins in C++"
  (2019): a0..a2 are numerator (feed-forward) terms, b1 and b2 denominator
  (feedback) terms, so H(z) = (a0 + a1 z^-1 + a2 z^-2) / (1 + b1 z^-1 + b2 z^-2).
 */
module Biquad {
  import opened Numeric

  datatype Coefficients = Coefficients(a0: real, a1: real, a2: real, b1: real, b2: real)
  {
    /** Copy with a0 replaced; putting the old a0 back gives the original record. */
    function A0(v: real): (r: Coefficients)
      ensures r.a0 == v && r.(a0 := a0) == this
    {
      Coefficients(v, a1, a2, b1, b2)
    }

    function A1(v: real): (r: Coefficients)
      ensures r.a1 == v && r.(a1 := a1) == this
    {
      Coefficients(a0, v, a2, b1, b2)
    }

    function A2(v: real): (r: Coefficients)
      ensures r.a2 == v && r.(a2 := a2) == this
    {
      Coefficients(a0, a1, v, b1, b2)
    }

    function B1(v: real): (r: Coefficients)
      ensures r.b1 == v && r.(b1 := b1) == this
    {
      Coefficients(a0, a1, a2, v, b2)
    }

    function B2(v: real): (r: Coefficients)
      ensures r.b2 == v && r.(b2 := b2) == this
    {
      Coefficients(a0, a1, a2, b1, v)
    }

    /** Numerator of H(z) at z = 1 (DC) and at z = -1 (Nyquist). */
    function NumeratorAtDc(): real { a0 + a1 + a2 }
    function NumeratorAtNyquist(): real { a0 - a1 + a2 }
    /** Denominator of H(z) at z = 1 and at z = -1. */
    function DenominatorAtDc(): real { 1.0 + b1 + b2 }
    function DenominatorAtNyquist(): real { 1.0 - b1 + b2 }
  }

  /** The default-constructed record. */
  const ZeroCoefficients := Coefficients(0.0, 0.0, 0.0, 0.0, 0.0)

  /** Normalised angular frequency 2*pi*f/fs. */
  function Theta(m: Libm, sampleRate: real, frequency: real): real {
    Div(2.0 * m.pi * frequency, sampleRate)
  }

  /** The `gamma` shared by the one-pole low- and high-pass generators. */
  function OnePoleGamma(m: Libm, sampleRate: real, frequency: real): real {
    var theta := Theta(m, sampleRate, frequency);
    Div(m.cos(theta), 1.0 + m.sin(theta))
  }

  /** One-pole low-pass: a single zero at Nyquist and unit gain at DC. */
  function LPF1(m: Libm, sampleRate: real, frequency: real): (c: Coefficients)
    ensures c.a0 == c.a1 && c.a2 == 0.0 && c.b2 == 0.0
    ensures c.NumeratorAtDc() == c.DenominatorAtDc()
    ensures c.NumeratorAtNyquist() == 0.0
  {
    var gamma := OnePoleGamma(m, sampleRate, frequency);
    Coefficients((1.0 - gamma) / 2.0, (1.0 - gamma) / 2.0, 0.0, -gamma, 0.0)
  }

  /** One-pole high-pass: a single zero at DC and unit gain at Nyquist. */
  function HPF1(m: Libm, sampleRate: real, frequency: real): (c: Coefficients)
    ensures c.a1 == -c.a0 && c.a2 == 0.0 && c.b2 == 0.0
    ensures c.NumeratorAtDc() == 0.0
    ensures c.NumeratorAtNyquist() == c.DenominatorAtNyquist()
  {
    var gamma := OnePoleGamma(m, sampleRate, frequency);
    Coefficients((1.0 + gamma) / 2.0, (1.0 + gamma) / -2.0, 0.0, -gamma, 0.0)
  }

  /** The `beta` and `gamma` shared by the two-pole low- and high-pass generators. */
  function TwoPoleBeta(m: Libm, sampleRate: real, frequency: real, resonance: real): real {
    var theta := Theta(m, sampleRate, frequency);
    var d := Div(1.0, resonance);
    Div(0.5 * (1.0 - d / 2.0 * m.sin(theta)), 1.0 + d / 2.0 * m.sin(theta))
  }

  function TwoPoleGamma(m: Libm, sampleRate: real, frequency: real, resonance: real): real {
    (0.5 + TwoPoleBeta(m, sampleRate, frequency, resonance)) * m.cos(Theta(m, sampleRate, frequency))
  }

  /** Two-pole low-pass: numerator (1, 2, 1)*alpha, a double zero at Nyquist, unit gain at DC. */
  function LPF2(m: Libm, sampleRate: real, frequency: real, resonance: real): (c: Coefficients)
    ensures c.a1 == 2.0 * c.a0 && c.a2 == c.a0
    ensures c.NumeratorAtDc() == c.DenominatorAtDc()
    ensures c.NumeratorAtNyquist() == 0.0
  {
    var beta := TwoPoleBeta(m, sampleRate, frequency, resonance);
    var gamma := TwoPoleGamma(m, sampleRate, frequency, resonance);
    var alpha := (0.5 + beta - gamma) / 2.0;
    Coefficients(alpha, 2.0 * alpha, alpha, -2.0 * gamma, 2.0 * beta)
  }

  /** Two-pole high-pass: numerator (1, -2, 1)*a0, a double zero at DC, unit gain at Nyquist. */
  function HPF2(m: Libm, sampleRate: real, frequency: real, resonance: real): (c: Coefficients)
    ensures c.a2 == c.a0 && c.a1 == -2.0 * c.a0
    ensures c.NumeratorAtDc() == 0.0
    ensures c.NumeratorAtNyquist() == c.DenominatorAtNyquist()
  {
    var beta := TwoPoleBeta(m, sampleRate, frequency, resonance);
    var gamma := TwoPoleGamma(m, sampleRate, frequency, resonance);
    Coefficients((0.5 + beta + gamma) / 2.0, -1.0 * (0.5 + beta + gamma), (0.5 + beta + gamma) / 2.0,
                 -2.0 * gamma, 2.0 * beta)
  }

  /** The all-pass pole/zero value (tan(w) - 1) / (tan(w) + 1). */
  function AllPassAlpha(m: Libm, argTan: real): real {
    var tangent := m.tan(argTan);
    Div(tangent - 1.0, tangent + 1.0)
  }

  /**
    One-pole all-pass: H(z) = (alpha + z^-1) / (1 + alpha z^-1), so the
    numerator is the denominator reversed, and the gain at DC and at Nyquist is 1.
   */
  function APF1(m: Libm, sampleRate: real, frequency: real): (c: Coefficients)
    ensures c.a0 == c.b1 && c.a1 == 1.0 && c.a2 == 0.0 && c.b2 == 0.0
    ensures c.a0 == AllPassAlpha(m, Div(m.pi * frequency, sampleRate))
    ensures c.NumeratorAtDc() == c.DenominatorAtDc()
    ensures c.NumeratorAtNyquist() == -c.DenominatorAtNyquist()
  {
    var alpha := AllPassAlpha(m, Div(m.pi * frequency, sampleRate));
    Coefficients(alpha, 1.0, 0.0, alpha, 0.0)
  }

  /** The upper bound 0.95*pi/2 on the tangent argument of the two-pole all-pass. */
  function TanLimit(m: Libm): real { 0.95 * m.pi / 2.0 }

  /** The tangent argument pi*(f/Q)/fs of the two-pole all-pass, clamped to TanLimit. */
  function APF2TanArgument(m: Libm, sampleRate: real, frequency: real, resonance: real): (r: real)
    ensures r <= TanLimit(m)
    ensures r == Div(m.pi * Div(frequency, resonance), sampleRate) || r == TanLimit(m)
    ensures Div(m.pi * Div(frequency, resonance), sampleRate) < TanLimit(m) ==>
              r == Div(m.pi * Div(frequency, resonance), sampleRate)
  {
    var bandwidth := Div(frequency, resonance);
    var argTan := Div(m.pi * bandwidth, sampleRate);
    if argTan >= TanLimit(m) then TanLimit(m) else argTan
  }

  /**
    Two-pole all-pass: H(z) = (-alpha + c z^-1 + z^-2) / (1 + c z^-1 - alpha z^-2),
    numerator the denominator reversed.
   */
  function APF2(m: Libm, sampleRate: real, frequency: real, resonance: real): (c: Coefficients)
    ensures c.a0 == c.b2 && c.a1 == c.b1 && c.a2 == 1.0
    ensures c.a0 == -AllPassAlpha(m, APF2TanArgument(m, sampleRate, frequency, resonance))
    ensures c.NumeratorAtDc() == c.DenominatorAtDc()
    ensures c.NumeratorAtNyquist() == c.DenominatorAtNyquist()
  {
    var alpha := AllPassAlpha(m, APF2TanArgument(m, sampleRate, frequency, resonance));
    var beta := -m.cos(Theta(m, sampleRate, frequency));
    Coefficients(-alpha, beta * (1.0 - alpha), 1.0, beta * (1.0 - alpha), -alpha)
  }

  /** Delay registers: the last two inputs (x) and outputs (y), or the topology's own use of them. */
  datatype State = State(xz1: real, xz2: real, yz1: real, yz2: real)

  /** The default-constructed (and reset) state. */
  const ZeroState := State(0.0, 0.0, 0.0, 0.0)

  /** An output too small for a normal float becomes exactly 0; any other value is kept. */
  function ForceMinToZero(value: real): (r: real)
    ensures r == 0.0 || r == value
    ensures r != 0.0 ==> Abs(r) >= FltMin
    ensures Abs(value) >= FltMin ==> r == value
  {
    if (value > 0.0 && value < FltMin) || (value < 0.0 && value > -FltMin) then 0.0 else value
  }

  /** The four update structures a filter can use. */
  datatype Topology = Direct | Canonical | DirectTranspose | CanonicalTranspose

  /** One sample of output and the state after producing it. */
  datatype Stepped = Stepped(output: real, state: State)

  /**
    The value a topology exposes for the phase shifter's feedback path: the
    history-only part of the Direct form's output, the first register of the
    transposed canonical form, and nothing for the other two.
   */
  function StorageComponent(t: Topology, s: State, c: Coefficients): real {
    match t
    case Direct => c.a1 * s.xz1 + c.a2 * s.xz2 - c.b1 * s.yz1 - c.b2 * s.yz2
    case Canonical => 0.0
    case DirectTranspose => 0.0
    case CanonicalTranspose => s.xz1
  }

  /**
    Direct form: the registers shift (the input enters x_z1, the output y_z1),
    the output is a0*input plus the storage component, and zero coefficients
    give zero output whatever the history.
   */
  function DirectStep(input: real, s: State, c: Coefficients): (r: Stepped)
    ensures r.state == State(input, s.xz1, r.output, s.yz1)
    ensures r.output == ForceMinToZero(c.a0 * input + StorageComponent(Direct, s, c))
    ensures c == ZeroCoefficients ==> r.output == 0.0
  {
    var sum := c.a0 * input + c.a1 * s.xz1 + c.a2 * s.xz2 - c.b1 * s.yz1 - c.b2 * s.yz2;
    assert sum == c.a0 * input + StorageComponent(Direct, s, c);
    var output := ForceMinToZero(sum);
    Stepped(output, State(input, s.xz1, output, s.yz1))
  }

  /** Canonical form: only x_z1 and x_z2 move (x_z2 takes the old x_z1); y_z1, y_z2 are untouched. */
  function CanonicalStep(input: real, s: State, c: Coefficients): (r: Stepped)
    ensures r.state.xz2 == s.xz1
    ensures r.state.yz1 == s.yz1 && r.state.yz2 == s.yz2
    ensures c == ZeroCoefficients ==> r.output == 0.0
  {
    var theta := input - c.b1 * s.xz1 - c.b2 * s.xz2;
    var output := ForceMinToZero(c.a0 * theta + c.a1 * s.xz1 + c.a2 * s.xz2);
    Stepped(output, s.(xz1 := theta, xz2 := s.xz1))
  }

  /** Transposed direct form: all four registers are recomputed from the intermediate value. */
  function DirectTransposeStep(input: real, s: State, c: Coefficients): (r: Stepped)
    ensures c == ZeroCoefficients ==> r.output == ForceMinToZero(s.xz1) && r.state.xz1 == s.xz2 && r.state.xz2 == 0.0
  {
    var theta := input + s.yz1;
    var output := ForceMinToZero(c.a0 * theta + s.xz1);
    Stepped(output, State(s.xz2 + c.a1 * theta, c.a2 * theta, s.yz2 - c.b1 * theta, -c.b2 * theta))
  }

  /**
    Transposed canonical form: the output is a0*input plus the storage
    component x_z1; only x_z1 and x_z2 move, y_z1 and y_z2 are untouched.
   */
  function CanonicalTransposeStep(input: real, s: State, c: Coefficients): (r: Stepped)
    ensures r.output == ForceMinToZero(c.a0 * input + StorageComponent(CanonicalTranspose, s, c))
    ensures r.state.yz1 == s.yz1 && r.state.yz2 == s.yz2
    ensures c == ZeroCoefficients ==> r.state.xz1 == s.xz2 && r.state.xz2 == 0.0
  {
    var output := ForceMinToZero(c.a0 * input + s.xz1);
    Stepped(output, s.(xz1 := c.a1 * input - c.b1 * output + s.xz2, xz2 := c.a2 * input - c.b2 * output))
  }

  /**
    One sample through topology t: the Direct and transposed canonical forms
    output the flushed a0*input plus their storage component, and zero
    coefficients keep a silent state silent (output 0, still silent).
   */
  function Step(t: Topology, input: real, s: State, c: Coefficients): (r: Stepped)
    ensures t == Direct || t == CanonicalTranspose ==> r.output == ForceMinToZero(c.a0 * input + StorageComponent(t, s, c))
    ensures c == ZeroCoefficients && SilentUnderZero(t, s) ==> r.output == 0.0 && SilentUnderZero(t, r.state)
  {
    match t
    case Direct => DirectStep(input, s, c)
    case Canonical => CanonicalStep(input, s, c)
    case DirectTranspose => DirectTransposeStep(input, s, c)
    case CanonicalTranspose => CanonicalTransposeStep(input, s, c)
  }

  /** Outputs of a filter fed `inputs` one sample at a time, starting from state `s`. */
  function Run(t: Topology, c: Coefficients, s: State, inputs: seq<real>): (ys: seq<real>)
    ensures |ys| == |inputs|
    decreases |inputs|
  {
    if inputs == [] then []
    else
      var r := Step(t, inputs[0], s, c);
      [r.output] + Run(t, c, r.state, inputs[1..])
  }

  /** States from which zero coefficients can only ever produce zeros. */
  ghost predicate SilentUnderZero(t: Topology, s: State) {
    t == Direct || t == Canonical || (s.xz1 == 0.0 && s.xz2 == 0.0)
  }

  /**
    A filter with all-zero coefficients outputs 0 for every input: from any
    history for the Direct and Canonical forms, and from the default (or
    reset) state for the transposed forms.
   */
  lemma {:induction false} ZeroCoefficientsAreSilent(t: Topology, s: State, inputs: seq<real>)
    requires SilentUnderZero(t, s)
    ensures forall k :: 0 <= k < |inputs| ==> Run(t, ZeroCoefficients, s, inputs)[k] == 0.0
    decreases |inputs|
  {
    if inputs != [] {
      var r := Step(t, inputs[0], s, ZeroCoefficients);
      ZeroCoefficientsAreSilent(t, r.state, inputs[1..]);
    }
  }

  /**
    A filter object: one coefficient record and one state, updated by the
    fixed topology chosen when the filter is built.
   */
  class Filter {
    const topology: Topology
    var coefficients: Coefficients
    var state: State

    constructor (topology: Topology, coefficients: Coefficients)
      ensures this.topology == topology && this.coefficients == coefficients && state == ZeroState
    {
      this.topology := topology;
      this.coefficients := coefficients;
      state := ZeroState;
    }

    /** The default filter: zero coefficients and zero state. */
    constructor Default(topology: Topology)
      ensures this.topology == topology && coefficients == ZeroCoefficients && state == ZeroState
    {
      this.topology := topology;
      coefficients := ZeroCoefficients;
      state := ZeroState;
    }

    /** Replaces the coefficients; the state is kept. */
    method SetCoefficients(c: Coefficients)
      modifies this`coefficients
      ensures coefficients == c && state == old(state)
    {
      coefficients := c;
    }

    /** Zeroes the state; the coefficients are kept. */
    method Reset()
      modifies this`state
      ensures state == ZeroState && coefficients == old(coefficients)
    {
      state := ZeroState;
    }

    /** Filters one sample: the output and new state are the topology's step; the coefficients are kept. */
    method Transform(input: real) returns (output: real)
      modifies this`state
      ensures output == Step(topology, input, old(state), coefficients).output
      ensures state == Step(topology, input, old(state), coefficients).state
      ensures coefficients == old(coefficients)
    {
      var r := Step(topology, input, state, coefficients);
      output := r.output;
      state := r.state;
    }

    /** The a0 coefficient, used by the phase shifter as the filter's gain. */
    function GainValue(): (g: real)
      reads this`coefficients
      ensures g == coefficients.a0
    {
      coefficients.a0
    }

    /**
      The filter's storage component: for the Direct and transposed canonical
      forms, the part of the next output that does not depend on the next
      input; 0 for the other two forms.
     */
    function Storage(): (r: real)
      reads this`coefficients, this`state
      ensures topology == Direct || topology == CanonicalTranspose ==>
                forall x :: Step(topology, x, state, coefficients).output == ForceMinToZero(coefficients.a0 * x + r)
      ensures topology == Canonical || topology == DirectTranspose ==> r == 0.0
    {
      StorageComponent(topology, state, coefficients)
    }
  }
}
