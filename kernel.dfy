/**
  The phaser kernel: a parameter table (rate, depth, intensity, dry and wet
  mix, odd-channel quadrature), one phase shifter per channel, and an LFO
  whose readings modulate the shifters. It renders through the event
  processor: the processor schedules the calls, the kernel carries them out.

  The kernel keeps its shifters by value, as a vector of shifters does: each
  is its fixed configuration and its state, and a frame steps it with
  ProcessSpec, the function `PhaseShifter.Process` is proved to compute.

  The LFO's implementation is not part of this model. Its state is the type
  parameter S of the kernel, and an `Lfo<S>` value gives its readings and
  steps as functions.
 */
module Kernel {
  import opened Numeric
  import opened Biquad
  import opened PhaseShifter
  import opened EventProcessor

  /** The values the kernel keeps for its parameters; percentages are stored as fractions. */
  datatype Parameters = Parameters(rate: real, depth: real, intensity: real, dryMix: real, wetMix: real, odd90: bool)

  /** The LFO's behaviour: its in-phase and quadrature readings, one step, and a change of frequency. */
  datatype Lfo<!S> = Lfo(value: S -> real, quadPhaseValue: S -> real, increment: S -> S, setFrequency: (S, real) -> S)

  /** The shifters are built with this update rate. */
  const SamplesPerFilterUpdate: int := 20

  /** The numeric status for success (noErr). */
  const NoErr: int := 0

  /**
    What reading a parameter returns: the rate as stored, the percentages
    scaled back by 100, odd90 as 1 or 0, and 0 for an unknown address.
   */
  function GetParameter(p: Parameters, address: ParameterAddress): real {
    match address
    case Rate => p.rate
    case Depth => p.depth * 100.0
    case Intensity => p.intensity * 100.0
    case DryMix => p.dryMix * 100.0
    case WetMix => p.wetMix * 100.0
    case Odd90 => if p.odd90 then 1.0 else 0.0
    case Unrecognized(_) => 0.0
  }

  /**
    The parameter values after setting `address` to `value`. Reading the
    address back gives the value (1 or 0 for odd90, 0 for an unknown
    address); every other address reads as before.
   */
  function SetParameter(p: Parameters, address: ParameterAddress, value: real): (r: Parameters)
    ensures GetParameter(r, address) == match address
                                         case Odd90 => (if value > 0.0 then 1.0 else 0.0)
                                         case Unrecognized(_) => 0.0
                                         case _ => value
    ensures forall b :: b != address ==> GetParameter(r, b) == GetParameter(p, b)
    ensures address.Unrecognized? ==> r == p
  {
    match address
    case Rate => p.(rate := value)
    case Depth => p.(depth := value / 100.0)
    case Intensity => p.(intensity := value / 100.0)
    case DryMix => p.(dryMix := value / 100.0)
    case WetMix => p.(wetMix := value / 100.0)
    case Odd90 => p.(odd90 := value > 0.0)
    case Unrecognized(_) => p
  }

  /** Setting a parameter to the value it reads as leaves every parameter as it was. */
  lemma SetCurrentValue(p: Parameters, address: ParameterAddress)
    ensures SetParameter(p, address, GetParameter(p, address)) == p
  {
    match address
    case Depth => assert p.depth * 100.0 / 100.0 == p.depth;
    case Intensity => assert p.intensity * 100.0 / 100.0 == p.intensity;
    case DryMix => assert p.dryMix * 100.0 / 100.0 == p.dryMix;
    case WetMix => assert p.wetMix * 100.0 / 100.0 == p.wetMix;
    case _ =>
  }

  /** Parameter values are determined by what the six addresses read as. */
  lemma ReadsDetermine(p: Parameters, q: Parameters)
    requires forall a :: GetParameter(p, a) == GetParameter(q, a)
    ensures p == q
  {
    assert GetParameter(p, Rate) == GetParameter(q, Rate);
    assert GetParameter(p, Depth) == GetParameter(q, Depth);
    assert GetParameter(p, Intensity) == GetParameter(q, Intensity);
    assert GetParameter(p, DryMix) == GetParameter(q, DryMix);
    assert GetParameter(p, WetMix) == GetParameter(q, WetMix);
    assert GetParameter(p, Odd90) == GetParameter(q, Odd90);
  }

  /** The parameter values after the parameter events of a trace, applied in order. */
  function ApplyParameters(p: Parameters, trace: seq<Action>): Parameters
    decreases |trace|
  {
    if trace == [] then p
    else
      var last := trace[|trace| - 1];
      var before := ApplyParameters(p, trace[..|trace| - 1]);
      if last.ApplyParameter? then SetParameter(before, last.parameter.address, last.parameter.value) else before
  }

  /** The LFO state after k steps from s. */
  function LfoAfter<S>(lfo: Lfo<S>, s: S, k: nat): S {
    if k == 0 then s else lfo.increment(LfoAfter(lfo, s, k - 1))
  }

  /** One more LFO step. */
  lemma LfoAfterNext<S>(lfo: Lfo<S>, s: S, k: nat)
    ensures LfoAfter(lfo, s, k + 1) == lfo.increment(LfoAfter(lfo, s, k))
  {
  }

  /** Stepping the LFO k and then m times is stepping it k + m times. */
  lemma {:induction false} LfoAfterAdd<S>(lfo: Lfo<S>, s: S, k: nat, m: nat)
    ensures LfoAfter(lfo, LfoAfter(lfo, s, k), m) == LfoAfter(lfo, s, k + m)
    decreases m
  {
    if m > 0 {
      LfoAfterAdd(lfo, s, k, m - 1);
    }
  }

  /** Whether a channel is modulated by the LFO's quadrature reading: odd90 is set and the channel is odd. */
  predicate QuadPhase(odd90: bool, channel: nat) {
    odd90 && channel % 2 == 1
  }

  /** The LFO's quadrature reading when `quad`, else its in-phase reading. */
  function LfoReading<S>(lfo: Lfo<S>, s: S, quad: bool): real {
    if quad then lfo.quadPhaseValue(s) else lfo.value(s)
  }

  /** The modulation a frame feeds its shifter: the LFO reading scaled by the depth; depth 0 holds the sweep at 0. */
  function Modulation<S>(lfo: Lfo<S>, s: S, quad: bool, depth: real): (m: real)
    ensures depth == 0.0 ==> m == 0.0
  {
    LfoReading(lfo, s, quad) * depth
  }

  /** The modulation values of n frames of a channel: the LFO readings scaled by the depth. */
  function Modulations<S>(lfo: Lfo<S>, s: S, quad: bool, depth: real, n: nat): (m: seq<real>)
    ensures |m| == n
    ensures forall k :: 0 <= k < n ==> m[k] == Modulation(lfo, LfoAfter(lfo, s, k), quad, depth)
  {
    if n == 0 then [] else Modulations(lfo, s, quad, depth, n - 1) + [Modulation(lfo, LfoAfter(lfo, s, n - 1), quad, depth)]
  }

  /** One output sample: dry times the input plus wet times the shifted sample. */
  function MixSample(p: Parameters, input: real, shifted: real): real {
    p.dryMix * input + p.wetMix * shifted
  }

  /** The mix of n output frames, frame by frame. */
  function Mix(p: Parameters, inputs: seq<real>, shifted: seq<real>): (out: seq<real>)
    requires |inputs| == |shifted|
    ensures |out| == |inputs|
    ensures forall k :: 0 <= k < |out| ==> out[k] == MixSample(p, inputs[k], shifted[k])
    decreases |inputs|
  {
    if inputs == [] then []
    else
      var k := |inputs| - 1;
      Mix(p, inputs[..k], shifted[..k]) + [MixSample(p, inputs[k], shifted[k])]
  }

  /** Whether a sample pointer reaches n samples of its buffer. */
  predicate Spans(p: SamplePointer, n: nat) {
    p.buffer != null && p.offset + n <= p.buffer.Length
  }

  /**
    The per-channel pointers handed to the kernel: each reaches n samples,
    a channel rendered in place reads and writes the same samples, and no
    channel's output buffer is another channel's input or output.
   */
  predicate Channels(ins: seq<SamplePointer>, outs: seq<SamplePointer>, n: nat) {
    && |ins| == |outs|
    && (forall c :: 0 <= c < |ins| ==> Spans(ins[c], n) && Spans(outs[c], n))
    && (forall c :: 0 <= c < |ins| && ins[c].buffer == outs[c].buffer ==> ins[c].offset == outs[c].offset)
    && (forall c, d :: 0 <= c < |ins| && 0 <= d < |ins| && c != d ==>
          outs[c].buffer != outs[d].buffer && outs[c].buffer != ins[d].buffer)
  }

  /** The n samples a pointer reaches. */
  function Window(p: SamplePointer, n: nat): (w: seq<real>)
    reads p.buffer
    requires Spans(p, n)
    ensures |w| == n
  {
    p.buffer[p.offset..p.offset + n]
  }

  /**
    One channel of a render of |inputs| frames, frame by frame: frame k feeds
    the shifter the depth-scaled LFO reading after k steps from s and the
    k-th input, and outputs the mix of that input with the shifter's output.
    Gives the output samples and the shifter afterwards.
   */
  function ChannelSpec<S>(cfg: Config, v: ShifterState, p: Parameters, lfo: Lfo<S>, s: S, quad: bool,
                          inputs: seq<real>): (r: (seq<real>, ShifterState))
    requires Shaped(cfg, v)
    ensures |r.0| == |inputs| && Shaped(cfg, r.1)
    decreases |inputs|
  {
    if inputs == [] then ([], v)
    else
      var k := |inputs| - 1;
      var prefix := ChannelSpec(cfg, v, p, lfo, s, quad, inputs[..k]);
      var step := ProcessSpec(cfg, prefix.1, Modulation(lfo, LfoAfter(lfo, s, k), quad, p.depth), inputs[k]);
      (prefix.0 + [MixSample(p, inputs[k], step.output)], step.shifter)
  }

  /**
    The first k frames of a channel with the given inputs, indexed rather
    than sliced: the form a frame-by-frame loop keeps.
   */
  ghost function ChannelFrames<S>(cfg: Config, v: ShifterState, p: Parameters, lfo: Lfo<S>, s: S, quad: bool,
                                  inputs: seq<real>, k: nat): (r: (seq<real>, ShifterState))
    requires Shaped(cfg, v) && k <= |inputs|
    ensures |r.0| == k && Shaped(cfg, r.1)
  {
    if k == 0 then ([], v)
    else
      var prefix := ChannelFrames(cfg, v, p, lfo, s, quad, inputs, k - 1);
      var step := ProcessSpec(cfg, prefix.1, Modulation(lfo, LfoAfter(lfo, s, k - 1), quad, p.depth), inputs[k - 1]);
      (prefix.0 + [MixSample(p, inputs[k - 1], step.output)], step.shifter)
  }

  /** No frames of a channel leave its shifter as it was and output nothing. */
  lemma ChannelFramesZero<S>(cfg: Config, v: ShifterState, p: Parameters, lfo: Lfo<S>, s: S, quad: bool,
                             inputs: seq<real>)
    requires Shaped(cfg, v)
    ensures ChannelFrames(cfg, v, p, lfo, s, quad, inputs, 0) == ([], v)
  {
  }

  /**
    Frame k of a channel extends its first k frames by one mixed output and
    one shifter step.
   */
  lemma ChannelFramesNext<S>(cfg: Config, v: ShifterState, p: Parameters, lfo: Lfo<S>, s: S, quad: bool,
                             inputs: seq<real>, k: nat, ys: seq<real>, w: ShifterState, output: real, w': ShifterState)
    requires Shaped(cfg, v) && k < |inputs|
    requires ChannelFrames(cfg, v, p, lfo, s, quad, inputs, k) == (ys, w)
    requires var step := ProcessSpec(cfg, w, Modulation(lfo, LfoAfter(lfo, s, k), quad, p.depth), inputs[k]);
             w' == step.shifter && output == MixSample(p, inputs[k], step.output)
    ensures ChannelFrames(cfg, v, p, lfo, s, quad, inputs, k + 1) == (ys + [output], w')
  {
  }

  /** The first k frames of a channel are ChannelSpec on the first k inputs. */
  lemma {:induction false} ChannelFramesIsSpec<S>(cfg: Config, v: ShifterState, p: Parameters, lfo: Lfo<S>, s: S,
                                                  quad: bool, inputs: seq<real>, k: nat)
    requires Shaped(cfg, v) && k <= |inputs|
    ensures ChannelFrames(cfg, v, p, lfo, s, quad, inputs, k) == ChannelSpec(cfg, v, p, lfo, s, quad, inputs[..k])
    decreases k
  {
    hide ProcessSpec; hide Modulation; hide MixSample;
    if k > 0 {
      ChannelFramesIsSpec(cfg, v, p, lfo, s, quad, inputs, k - 1);
      assert inputs[..k][..k - 1] == inputs[..k - 1];
    }
  }

  /**
    A channel is the shifter's run (RunSpec) on the LFO's modulation values
    and the inputs, mixed sample by sample with the inputs.
   */
  lemma {:induction false} ChannelIsRun<S>(cfg: Config, v: ShifterState, p: Parameters, lfo: Lfo<S>, s: S, quad: bool,
                                           inputs: seq<real>)
    requires Shaped(cfg, v)
    ensures var run := RunSpec(cfg, v, Modulations(lfo, s, quad, p.depth, |inputs|), inputs);
            ChannelSpec(cfg, v, p, lfo, s, quad, inputs) == (Mix(p, inputs, run.0), run.1)
    decreases |inputs|
  {
    if inputs != [] {
      var k := |inputs| - 1;
      var ms := Modulations(lfo, s, quad, p.depth, |inputs|);
      assert ms[..k] == Modulations(lfo, s, quad, p.depth, k);
      ChannelIsRun(cfg, v, p, lfo, s, quad, inputs[..k]);
      var run := RunSpec(cfg, v, ms, inputs);
      var prefix := RunSpec(cfg, v, ms[..k], inputs[..k]);
      assert run.0[..k] == prefix.0;
    }
  }

  /** A phase shifter by value: its fixed configuration and its state. */
  datatype Shifter = Shifter(cfg: Config, state: ShifterState)

  /** A shifter after `setIntensity`: only the intensity of its state changes. */
  function WithIntensity(s: Shifter, intensity: real): Shifter {
    s.(state := s.state.(intensity := intensity))
  }

  /**
    The shifter `initialize` builds for each channel: the ideal bands, the
    sample rate, the given intensity and an update every 20 samples, in the
    state the PhaseShifter constructor leaves.
   */
  function BuiltShifter(sampleRate: real, intensity: real, libm: Libm, bipolarModulation: Modulator): (s: Shifter)
    ensures s.cfg == Config(Ideal, sampleRate, SamplesPerFilterUpdate, libm, bipolarModulation)
    ensures s.state == InitialState(s.cfg, intensity)
    ensures Shaped(s.cfg, s.state) && |s.state.states| == 6 && s.state.intensity == intensity
    ensures s.state.sampleCounter == 0 && s.state.coefficients == Refreshed(s.cfg, 0.0)
  {
    var cfg := Config(Ideal, sampleRate, SamplesPerFilterUpdate, libm, bipolarModulation);
    Shifter(cfg, InitialState(cfg, intensity))
  }

  /**
    Whether a channel went from shifter `before` to shifter `after` writing
    `out`, as ChannelSpec gives for the inputs xs: the configuration is kept.
   */
  ghost predicate ChannelRendered<S>(before: Shifter, after: Shifter, p: Parameters, lfoOps: Lfo<S>, s: S, quad: bool,
                                     xs: seq<real>, out: seq<real>)
  {
    && Shaped(before.cfg, before.state) && after.cfg == before.cfg
    && ChannelSpec(before.cfg, before.state, p, lfoOps, s, quad, xs) == (out, after.state)
  }

  /**
    The frames of one channel, in order: each reads its input sample, takes
    the LFO reading (the quadrature one when `quad`) and steps the LFO, runs
    the shifter on the depth-scaled reading and the sample, and writes the
    dry/wet mix. The outputs and the shifter afterwards are ChannelSpec's for
    the inputs as they were; the LFO has taken n steps; nothing outside the
    output window changes. A channel rendered in place reads each sample
    before overwriting it.
   */
  method RenderChannel<S>(cfg: Config, v: ShifterState, lfoOps: Lfo<S>, lfo: S, quad: bool, p: Parameters,
                          inp: SamplePointer, outp: SamplePointer, n: nat)
    returns (next: S, v': ShifterState)
    requires Shaped(cfg, v) && Spans(inp, n) && Spans(outp, n)
    requires inp.buffer == outp.buffer ==> inp.offset == outp.offset
    modifies outp.buffer
    ensures next == LfoAfter(lfoOps, lfo, n)
    ensures ChannelSpec(cfg, v, p, lfoOps, lfo, quad, old(Window(inp, n))) == (Window(outp, n), v')
    ensures forall k :: 0 <= k < outp.buffer.Length && !(outp.offset <= k < outp.offset + n) ==>
              outp.buffer[k] == old(outp.buffer[k])
  {
    hide ProcessSpec;
    hide ChannelSpec;
    hide MixSample;
    hide Modulation;
    ghost var xs := Window(inp, n);
    ChannelFramesZero(cfg, v, p, lfoOps, lfo, quad, xs);
    hide ChannelFrames;
    ghost var ys: seq<real> := [];
    next := lfo;
    v' := v;
    for frame := 0 to n
      invariant next == LfoAfter(lfoOps, lfo, frame) && |ys| == frame
      invariant ChannelFrames(cfg, v, p, lfoOps, lfo, quad, xs, frame) == (ys, v')
      invariant forall k :: 0 <= k < frame ==> outp.buffer[outp.offset + k] == ys[k]
      invariant forall k :: frame <= k < n ==> inp.buffer[inp.offset + k] == xs[k]
      invariant forall k :: 0 <= k < outp.buffer.Length && !(outp.offset <= k < outp.offset + n) ==>
                  outp.buffer[k] == old(outp.buffer[k])
    {
      next, v', ys := RenderFrame(cfg, v, lfoOps, lfo, quad, p, inp, outp, n, xs, frame, next, v', ys);
    }
    ChannelFramesIsSpec(cfg, v, p, lfoOps, lfo, quad, xs, n);
    assert xs[..n] == xs;
    assert Window(outp, n) == ys;
  }

  /**
    Frame `frame` of a channel whose first frames wrote ys and left the
    shifter w and the LFO at `next`: reads input sample `frame` (not yet
    overwritten), feeds the shifter the depth-scaled LFO reading and the
    sample, writes the dry/wet mix to output sample `frame` and steps the
    LFO. Afterwards one more frame of ChannelFrames holds, and no other
    sample has changed.
   */
  method RenderFrame<S>(cfg: Config, v: ShifterState, lfoOps: Lfo<S>, lfo: S, quad: bool, p: Parameters,
                        inp: SamplePointer, outp: SamplePointer, n: nat, ghost xs: seq<real>, frame: nat,
                        next: S, w: ShifterState, ghost ys: seq<real>)
    returns (next': S, w': ShifterState, ghost ys': seq<real>)
    requires Shaped(cfg, v) && Spans(inp, n) && Spans(outp, n) && frame < n && |xs| == n
    requires inp.buffer == outp.buffer ==> inp.offset == outp.offset
    requires next == LfoAfter(lfoOps, lfo, frame) && |ys| == frame
    requires ChannelFrames(cfg, v, p, lfoOps, lfo, quad, xs, frame) == (ys, w)
    requires forall k :: 0 <= k < frame ==> outp.buffer[outp.offset + k] == ys[k]
    requires forall k :: frame <= k < n ==> inp.buffer[inp.offset + k] == xs[k]
    modifies outp.buffer
    ensures next' == LfoAfter(lfoOps, lfo, frame + 1) && |ys'| == frame + 1
    ensures ChannelFrames(cfg, v, p, lfoOps, lfo, quad, xs, frame + 1) == (ys', w')
    ensures forall k :: 0 <= k < frame + 1 ==> outp.buffer[outp.offset + k] == ys'[k]
    ensures forall k :: frame + 1 <= k < n ==> inp.buffer[inp.offset + k] == xs[k]
    ensures forall k :: 0 <= k < outp.buffer.Length && k != outp.offset + frame ==> outp.buffer[k] == old(outp.buffer[k])
  {
    hide ProcessSpec;
    hide MixSample;
    hide Modulation;
    hide ChannelFrames;
    var input := inp.buffer[inp.offset + frame];
    var r := ProcessSpec(cfg, w, Modulation(lfoOps, next, quad, p.depth), input);
    var output := MixSample(p, input, r.output);
    outp.buffer[outp.offset + frame] := output;
    next' := lfoOps.increment(next);
    w' := r.shifter;
    ys' := ys + [output];
    LfoAfterNext(lfoOps, lfo, frame);
    ChannelFramesNext(cfg, v, p, lfoOps, lfo, quad, xs, frame, ys, w, output, w');
  }

  /** The sample buffers of a buffer list. */
  ghost function Arrays(data: seq<array?<real>>): set<array<real>>
  {
    set c | 0 <= c < |data| && data[c] != null :: data[c] as array<real>
  }

  /** Samples lo .. lo + n - 1 of each buffer. */
  ghost function Windows(data: seq<array?<real>>, lo: nat, n: nat): (w: seq<seq<real>>)
    reads Arrays(data)
    requires forall c :: 0 <= c < |data| ==> data[c] != null && lo + n <= data[c].Length
    ensures |w| == |data| && forall c :: 0 <= c < |data| ==> w[c] == data[c][lo..lo + n]
  {
    seq(|data|, c requires 0 <= c < |data| && data[c] != null && lo + n <= data[c].Length
                  reads if 0 <= c < |data| then {data[c]} else {} =>
                  data[c][lo..lo + n])
  }

  /** The kernel's state as a value: its parameter values, its LFO state and its shifters. */
  /** Buffers that agree with xs on samples lo .. lo + n - 1 have xs's slices as their windows. */
  lemma WindowsOfAgreeing(data: seq<array?<real>>, xs: seq<seq<real>>, lo: nat, n: nat)
    requires |xs| == |data|
    requires forall c :: 0 <= c < |data| ==> data[c] != null && lo + n <= data[c].Length && lo + n <= |xs[c]|
    requires forall c, j :: 0 <= c < |xs| && lo <= j < lo + n ==> data[c][j] == xs[c][j]
    ensures Windows(data, lo, n) == Slices(xs, lo, n)
  {
    forall c | 0 <= c < |xs|
      ensures data[c][lo..lo + n] == xs[c][lo..lo + n]
    {
      assert forall j :: lo <= j < lo + n ==> data[c][j] == xs[c][j];
    }
  }

  datatype KernelValue<S> = KernelValue(params: Parameters, lfo: S, shifters: seq<Shifter>)

  /** Every shifter has one coefficient record and one filter state per band. */
  predicate ShiftersShaped(shifters: seq<Shifter>) {
    forall c :: 0 <= c < |shifters| ==> Shaped(shifters[c].cfg, shifters[c].state)
  }

  /**
    What a parameter event does to the kernel: the parameters become
    SetParameter's, a rate that differs from the current one retunes the
    LFO, and an intensity fraction that differs is given to every shifter.
   */
  function ParameterEffect<S>(lfoOps: Lfo<S>, k: KernelValue<S>, address: ParameterAddress, value: real)
    : (k': KernelValue<S>)
    ensures k'.params == SetParameter(k.params, address, value)
    ensures |k'.shifters| == |k.shifters| && (ShiftersShaped(k.shifters) ==> ShiftersShaped(k'.shifters))
  {
    var lfo := if address == Rate && value != k.params.rate then lfoOps.setFrequency(k.lfo, value) else k.lfo;
    var shifters :=
      if address == Intensity && value / 100.0 != k.params.intensity
      then seq(|k.shifters|, c requires 0 <= c < |k.shifters| => WithIntensity(k.shifters[c], value / 100.0))
      else k.shifters;
    KernelValue(SetParameter(k.params, address, value), lfo, shifters)
  }

  /** A parameter event carrying the value its parameter reads as changes nothing. */
  lemma ParameterEffectCurrent<S>(lfoOps: Lfo<S>, k: KernelValue<S>, address: ParameterAddress)
    ensures ParameterEffect(lfoOps, k, address, GetParameter(k.params, address)) == k
  {
    SetCurrentValue(k.params, address);
    if address == Intensity {
      assert k.params.intensity * 100.0 / 100.0 == k.params.intensity;
    }
  }

  /**
    What rendering one segment of `frames` frames does to the kernel, given
    each channel's input samples: channel c runs ChannelSpec from its
    shifter and the LFO state the segment starts with, on the quadrature
    reading when odd90 is set and c is odd; the LFO ends `frames` steps on
    (as it was, with no channels); further shifters and the parameters are
    kept. Gives the kernel afterwards and each channel's output samples.
   */
  function SegmentEffect<S>(lfoOps: Lfo<S>, k: KernelValue<S>, windows: seq<seq<real>>, frames: nat)
    : (r: (KernelValue<S>, seq<seq<real>>))
    requires |windows| <= |k.shifters| && ShiftersShaped(k.shifters)
    requires forall c :: 0 <= c < |windows| ==> |windows[c]| == frames
    ensures r.0.params == k.params && |r.0.shifters| == |k.shifters| && ShiftersShaped(r.0.shifters)
    ensures |r.1| == |windows| && forall c :: 0 <= c < |windows| ==> |r.1[c]| == frames
  {
    var p := k.params;
    var rendered := seq(|windows|, c requires 0 <= c < |windows| =>
                          ChannelSpec(k.shifters[c].cfg, k.shifters[c].state, p, lfoOps, k.lfo, QuadPhase(p.odd90, c), windows[c]));
    var shifters := seq(|k.shifters|, c requires 0 <= c < |k.shifters| =>
                          if c < |windows| then k.shifters[c].(state := rendered[c].1) else k.shifters[c]);
    var lfo := if |windows| == 0 then k.lfo else LfoAfter(lfoOps, k.lfo, frames);
    (KernelValue(p, lfo, shifters), seq(|windows|, c requires 0 <= c < |windows| => rendered[c].0))
  }

  /**
    A render in which every channel c < |windows| went from before[c] to
    after[c] writing outs[c], as ChannelRendered says, with later shifters
    kept and the LFO at lfo', is SegmentEffect.
   */
  lemma SegmentOf<S>(lfoOps: Lfo<S>, p: Parameters, s: S, lfo': S, before: seq<Shifter>, after: seq<Shifter>,
                     windows: seq<seq<real>>, outs: seq<seq<real>>, frames: nat)
    requires ShiftersShaped(before) && |windows| <= |before| == |after| && |outs| == |windows|
    requires forall c :: 0 <= c < |windows| ==> |windows[c]| == frames
    requires forall c :: 0 <= c < |windows| ==>
               ChannelRendered(before[c], after[c], p, lfoOps, s, QuadPhase(p.odd90, c), windows[c], outs[c])
    requires forall c :: |windows| <= c < |before| ==> after[c] == before[c]
    requires lfo' == if |windows| == 0 then s else LfoAfter(lfoOps, s, frames)
    ensures SegmentEffect(lfoOps, KernelValue(p, s, before), windows, frames) == (KernelValue(p, lfo', after), outs)
  {
    var r := SegmentEffect(lfoOps, KernelValue(p, s, before), windows, frames);
    assert r.0.shifters == after;
    assert r.1 == outs;
  }

  /** The frames an action renders: its frame count for RenderFrames, none otherwise. */
  function ActionFrames(a: Action): nat {
    if a.RenderFrames? then a.frameCount else 0
  }

  /** The frames of a nonempty trace are those before its last action and those of the last action. */
  lemma FramesSnoc(trace: seq<Action>)
    requires trace != []
    ensures Frames(trace) == Frames(trace[..|trace| - 1]) + ActionFrames(trace[|trace| - 1])
  {
    var m := |trace| - 1;
    assert trace == trace[..m] + [trace[m]];
    FramesAppend(trace[..m], [trace[m]]);
    assert [trace[m]][1..] == [];
  }

  /**
    What one call of a render trace does to the kernel, given each
    channel's input samples for the frames it renders: RenderFrames passes
    the inputs through when bypassed and is SegmentEffect otherwise, a
    parameter event is ParameterEffect, and a MIDI event changes nothing.
    Gives the kernel afterwards and each channel's output samples.
   */
  function ActionEffect<S>(lfoOps: Lfo<S>, k: KernelValue<S>, bypassed: bool, a: Action, windows: seq<seq<real>>)
    : (r: (KernelValue<S>, seq<seq<real>>))
    requires |windows| <= |k.shifters| && ShiftersShaped(k.shifters)
    requires forall c :: 0 <= c < |windows| ==> |windows[c]| == ActionFrames(a)
    ensures |r.0.shifters| == |k.shifters| && ShiftersShaped(r.0.shifters)
    ensures |r.1| == |windows| && forall c :: 0 <= c < |windows| ==> |r.1[c]| == ActionFrames(a)
    ensures bypassed || !a.RenderFrames? ==> r.1 == windows
  {
    match a
    case RenderFrames(frames, _) =>
      assert ActionFrames(a) == frames;
      if bypassed then (k, windows) else SegmentEffect(lfoOps, k, windows, frames)
    case ApplyParameter(_, event) => (ParameterEffect(lfoOps, k, event.address, event.value), windows)
    case ApplyMidi(_, _) => (k, windows)
  }

  /** One call further into a trace that covers the block's frames contiguously. */
  lemma TraceStep(trace: seq<Action>, i: nat, done: nat, frameCount: nat)
    requires i < |trace| && Contiguous(trace[i..], done) && done + Frames(trace[i..]) == frameCount
    requires done == Frames(trace[..i])
    ensures trace[i].RenderFrames? ==> trace[i].offset == done
    ensures var done' := done + ActionFrames(trace[i]);
            && Contiguous(trace[i + 1..], done') && done' + Frames(trace[i + 1..]) == frameCount
            && done' == Frames(trace[..i + 1])
  {
    assert trace[i..][0] == trace[i] && trace[i..][1..] == trace[i + 1..];
    assert trace[..i + 1][..i] == trace[..i] && trace[..i + 1][i] == trace[i];
    FramesSnoc(trace[..i + 1]);
  }

  /** The first n samples of each channel. */
  function Prefixes(xs: seq<seq<real>>, n: nat): (r: seq<seq<real>>)
    requires forall c :: 0 <= c < |xs| ==> n <= |xs[c]|
    ensures |r| == |xs| && forall c :: 0 <= c < |xs| ==> r[c] == xs[c][..n]
  {
    seq(|xs|, c requires 0 <= c < |xs| => xs[c][..n])
  }

  /** Samples lo .. lo + n - 1 of each channel. */
  function Slices(xs: seq<seq<real>>, lo: nat, n: nat): (r: seq<seq<real>>)
    requires forall c :: 0 <= c < |xs| ==> lo + n <= |xs[c]|
    ensures |r| == |xs| && forall c :: 0 <= c < |xs| ==> r[c] == xs[c][lo..lo + n]
  {
    seq(|xs|, c requires 0 <= c < |xs| => xs[c][lo..lo + n])
  }

  /** Each channel's samples followed by its samples in ys. */
  function Appended(xs: seq<seq<real>>, ys: seq<seq<real>>): (r: seq<seq<real>>)
    requires |xs| == |ys|
    ensures |r| == |xs| && forall c :: 0 <= c < |xs| ==> r[c] == xs[c] + ys[c]
  {
    seq(|xs|, c requires 0 <= c < |xs| => xs[c] + ys[c])
  }

  /**
    A render block's trace carried out on the kernel, given each channel's
    input samples for the block, which the trace's RenderFrames calls
    consume in order. Gives the kernel afterwards and each channel's output
    samples for the block; its parameters are those the trace's parameter
    events, applied in order, leave.
   */
  function BlockRun<S>(lfoOps: Lfo<S>, k: KernelValue<S>, bypassed: bool, trace: seq<Action>, inputs: seq<seq<real>>)
    : (r: (KernelValue<S>, seq<seq<real>>))
    requires |inputs| <= |k.shifters| && ShiftersShaped(k.shifters)
    requires forall c :: 0 <= c < |inputs| ==> |inputs[c]| == Frames(trace)
    ensures |r.0.shifters| == |k.shifters| && ShiftersShaped(r.0.shifters)
    ensures |r.1| == |inputs| && forall c :: 0 <= c < |inputs| ==> |r.1[c]| == Frames(trace)
    ensures r.0.params == ApplyParameters(k.params, trace)
    decreases |trace|
  {
    if trace == [] then (k, inputs)
    else
      var m := |trace| - 1;
      FramesSnoc(trace);
      var done := Frames(trace[..m]);
      var before := BlockRun(lfoOps, k, bypassed, trace[..m], Prefixes(inputs, done));
      var step := ActionEffect(lfoOps, before.0, bypassed, trace[m], Slices(inputs, done, ActionFrames(trace[m])));
      (step.0, Appended(before.1, step.1))
  }

  /** An empty trace changes nothing and outputs nothing. */
  lemma BlockRunNone<S>(lfoOps: Lfo<S>, k: KernelValue<S>, bypassed: bool, inputs: seq<seq<real>>)
    requires |inputs| <= |k.shifters| && ShiftersShaped(k.shifters)
    requires forall c :: 0 <= c < |inputs| ==> |inputs[c]| == 0
    ensures BlockRun(lfoOps, k, bypassed, [], inputs) == (k, inputs)
  {
  }

  /** Bypassed, a block's output samples are its input samples. */
  lemma {:induction false} BlockRunBypassed<S>(lfoOps: Lfo<S>, k: KernelValue<S>, trace: seq<Action>, inputs: seq<seq<real>>)
    requires |inputs| <= |k.shifters| && ShiftersShaped(k.shifters)
    requires forall c :: 0 <= c < |inputs| ==> |inputs[c]| == Frames(trace)
    ensures BlockRun(lfoOps, k, true, trace, inputs).1 == inputs
    decreases |trace|
  {
    hide ActionEffect;
    hide SegmentEffect;
    hide ParameterEffect;
    if trace != [] {
      var m := |trace| - 1;
      FramesSnoc(trace);
      var done := Frames(trace[..m]);
      var n := ActionFrames(trace[m]);
      var before := BlockRun(lfoOps, k, true, trace[..m], Prefixes(inputs, done));
      var step := ActionEffect(lfoOps, before.0, true, trace[m], Slices(inputs, done, n));
      assert BlockRun(lfoOps, k, true, trace, inputs).1 == Appended(before.1, step.1);
      BlockRunBypassed(lfoOps, k, trace[..m], Prefixes(inputs, done));
      forall c | 0 <= c < |inputs|
        ensures inputs[c][..done] + inputs[c][done..done + n] == inputs[c]
      {
        assert inputs[c] == inputs[c][..done] + inputs[c][done..];
      }
    }
  }

  /**
    The run of a trace one call longer: the run of the shorter trace on
    the first samples, then the last call on the samples after them.
   */
  lemma BlockRunSnoc<S>(lfoOps: Lfo<S>, k: KernelValue<S>, bypassed: bool, trace: seq<Action>, i: nat, xs: seq<seq<real>>,
                   done: nat)
    requires |xs| <= |k.shifters| && ShiftersShaped(k.shifters) && i < |trace| && done == Frames(trace[..i])
    requires Frames(trace[..i + 1]) == done + ActionFrames(trace[i])
    requires forall c :: 0 <= c < |xs| ==> done + ActionFrames(trace[i]) <= |xs[c]|
    ensures var before := BlockRun(lfoOps, k, bypassed, trace[..i], Prefixes(xs, done));
            var step := ActionEffect(lfoOps, before.0, bypassed, trace[i], Slices(xs, done, ActionFrames(trace[i])));
            BlockRun(lfoOps, k, bypassed, trace[..i + 1], Prefixes(xs, done + ActionFrames(trace[i]))) ==
              (step.0, Appended(before.1, step.1))
  {
    var n := ActionFrames(trace[i]);
    var t := trace[..i + 1];
    assert t[..i] == trace[..i] && t[i] == trace[i];
    FramesSnoc(t);
    var ys := Prefixes(xs, done + n);
    forall c | 0 <= c < |xs|
      ensures ys[c][..done] == xs[c][..done] && ys[c][done..done + n] == xs[c][done..done + n]
    {
      assert ys[c] == xs[c][..done + n];
    }
    assert Prefixes(ys, done) == Prefixes(xs, done);
    assert Slices(ys, done, n) == Slices(xs, done, n);
  }

  /**
    The kernel. The processor it renders through is a component rather than
    a base class; there is one shifter per channel.
   */
  class PhaserKernel<S> {
    const lfoOps: Lfo<S>
    const libm: Libm
    const bipolarModulation: Modulator
    const processor: KernelEventProcessor
    var rate: real
    var depth: real
    var intensity: real
    var dryMix: real
    var wetMix: real
    var odd90: bool
    var lfo: S
    var shifters: seq<Shifter>

    function Params(): Parameters
      reads this
    {
      Parameters(rate, depth, intensity, dryMix, wetMix, odd90)
    }

    /** Every shifter has one coefficient record and one filter state per band. */
    ghost predicate Valid()
      reads this`shifters
    {
      ShiftersShaped(shifters)
    }

    /** The parameter values, the LFO state and the shifters. */
    function Value(): KernelValue<S>
      reads this
    {
      KernelValue(Params(), lfo, shifters)
    }

    /**
      A kernel with the given LFO state and parameter values, no shifters
      yet, and an idle processor.
     */
    constructor (lfoOps: Lfo<S>, lfo: S, libm: Libm, bipolarModulation: Modulator, p: Parameters)
      ensures Valid() && Params() == p && this.lfo == lfo && shifters == []
      ensures this.lfoOps == lfoOps && this.libm == libm && this.bipolarModulation == bipolarModulation
      ensures fresh(processor) && !processor.bypassed && processor.inputs == null && processor.outputs == null
    {
      this.lfoOps := lfoOps;
      this.libm := libm;
      this.bipolarModulation := bipolarModulation;
      processor := new KernelEventProcessor();
      rate := p.rate;
      depth := p.depth;
      intensity := p.intensity;
      dryMix := p.dryMix;
      wetMix := p.wetMix;
      odd90 := p.odd90;
      this.lfo := lfo;
      shifters := [];
    }

    /**
      Sets a parameter. The values become SetParameter's; a new rate also
      retunes the LFO and a new intensity is pushed to every shifter. Setting
      a value already held does neither.
     */
    method SetParameterValue(address: ParameterAddress, value: real)
      requires Valid()
      modifies this`rate, this`depth, this`intensity, this`dryMix, this`wetMix, this`odd90, this`lfo, this`shifters
      ensures Valid() && Params() == SetParameter(old(Params()), address, value)
      ensures lfo == if address == Rate && value != old(rate) then lfoOps.setFrequency(old(lfo), value) else old(lfo)
      ensures address == Intensity && value / 100.0 != old(intensity) ==>
                |shifters| == |old(shifters)| &&
                forall c :: 0 <= c < |shifters| ==> shifters[c] == WithIntensity(old(shifters[c]), value / 100.0)
      ensures !(address == Intensity && value / 100.0 != old(intensity)) ==> shifters == old(shifters)
      ensures value == GetParameter(old(Params()), address) ==>
                Params() == old(Params()) && lfo == old(lfo) && shifters == old(shifters)
      ensures Value() == ParameterEffect(lfoOps, old(Value()), address, value)
    {
      SetCurrentValue(Params(), address);
      match address
      case Rate =>
        if value == rate {
          return;
        }
        rate := value;
        lfo := lfoOps.setFrequency(lfo, rate);
      case Depth =>
        var fraction := value / 100.0;
        if fraction == depth {
          return;
        }
        depth := fraction;
      case Intensity =>
        SetIntensityPercent(value);
      case DryMix =>
        var fraction := value / 100.0;
        if fraction == dryMix {
          return;
        }
        dryMix := fraction;
      case WetMix =>
        var fraction := value / 100.0;
        if fraction == wetMix {
          return;
        }
        wetMix := fraction;
      case Odd90 =>
        odd90 := value > 0.0;
      case Unrecognized(_) =>
    }

    /** The intensity branch: a new value is stored as a fraction and pushed to every shifter. */
    method SetIntensityPercent(value: real)
      requires Valid()
      modifies this`intensity, this`shifters
      ensures Valid() && intensity == value / 100.0
      ensures value / 100.0 != old(intensity) ==>
                |shifters| == |old(shifters)| &&
                forall c :: 0 <= c < |shifters| ==> shifters[c] == WithIntensity(old(shifters[c]), value / 100.0)
      ensures value / 100.0 == old(intensity) ==> shifters == old(shifters)
    {
      var fraction := value / 100.0;
      if fraction == intensity {
        return;
      }
      intensity := fraction;
      IntensityChanged();
    }

    /** A parameter event sets its parameter. */
    method DoParameterEvent(event: ParameterEvent)
      requires Valid()
      modifies this`rate, this`depth, this`intensity, this`dryMix, this`wetMix, this`odd90, this`lfo, this`shifters
      ensures Valid() && Value() == ParameterEffect(lfoOps, old(Value()), event.address, event.value)
    {
      SetParameterValue(event.address, event.value);
    }

    /** Gives every shifter the kernel's intensity; nothing else of theirs changes. */
    method IntensityChanged()
      requires Valid()
      modifies this`shifters
      ensures Valid() && |shifters| == |old(shifters)|
      ensures forall c :: 0 <= c < |shifters| ==> shifters[c] == WithIntensity(old(shifters[c]), intensity)
    {
      for channel := 0 to |shifters|
        invariant Valid() && |shifters| == |old(shifters)|
        invariant forall c :: 0 <= c < channel ==> shifters[c] == WithIntensity(old(shifters[c]), intensity)
        invariant forall c :: channel <= c < |shifters| ==> shifters[c] == old(shifters[c])
      {
        shifters := shifters[channel := WithIntensity(shifters[channel], intensity)];
      }
    }

    /** Replaces the shifters by channelCount new ones, each as `initialize` builds it. */
    method Initialize(channelCount: nat, sampleRate: real)
      modifies this`shifters
      ensures Valid() && |shifters| == channelCount
      ensures forall c :: 0 <= c < channelCount ==> shifters[c] == BuiltShifter(sampleRate, intensity, libm, bipolarModulation)
    {
      shifters := [];
      for channel := 0 to channelCount
        invariant |shifters| == channel
        invariant forall c :: 0 <= c < channel ==> shifters[c] == BuiltShifter(sampleRate, intensity, libm, bipolarModulation)
      {
        shifters := shifters + [BuiltShifter(sampleRate, intensity, libm, bipolarModulation)];
      }
    }

    /** The output buffers of the channels. */
    static ghost function Buffers(outs: seq<SamplePointer>): set<array<real>>
    {
      set c | 0 <= c < |outs| && outs[c].buffer != null :: outs[c].buffer as array<real>
    }

    /**
      Renders frameCount frames of channels 0 .. |ins| - 1. Every channel
      starts from the LFO state the render started with; channel c is
      ChannelRendered from its shifter and input window as they were, read
      through the quadrature LFO value when odd90 is set and c is odd. The LFO
      ends as it is after frameCount steps (as it was, with no channels);
      shifters of further channels and the samples outside the windows are
      kept.
     */
    method DoRendering(ins: seq<SamplePointer>, outs: seq<SamplePointer>, frameCount: nat)
      requires Valid() && Channels(ins, outs, frameCount) && |ins| <= |shifters|
      modifies this`lfo, this`shifters, Buffers(outs)
      ensures Valid() && |shifters| == |old(shifters)|
      ensures lfo == if |ins| == 0 then old(lfo) else LfoAfter(lfoOps, old(lfo), frameCount)
      ensures forall c :: 0 <= c < |ins| ==>
                ChannelRendered(old(shifters[c]), shifters[c], Params(), lfoOps, old(lfo), QuadPhase(odd90, c),
                                old(Window(ins[c], frameCount)), Window(outs[c], frameCount))
      ensures forall c :: |ins| <= c < |shifters| ==> shifters[c] == old(shifters[c])
      ensures forall c, k :: 0 <= c < |outs| && 0 <= k < outs[c].buffer.Length &&
                               !(outs[c].offset <= k < outs[c].offset + frameCount) ==>
                outs[c].buffer[k] == old(outs[c].buffer[k])
    {
      hide ChannelRendered;
      hide ChannelSpec;
      hide ProcessSpec;
      var saved := lfo;
      for channel := 0 to |ins|
        invariant Valid() && |shifters| == |old(shifters)|
        invariant lfo == if channel == 0 then saved else LfoAfter(lfoOps, saved, frameCount)
        invariant forall c :: 0 <= c < channel ==>
                    ChannelRendered(old(shifters[c]), shifters[c], Params(), lfoOps, saved, QuadPhase(odd90, c),
                                    old(Window(ins[c], frameCount)), Window(outs[c], frameCount))
        invariant forall c :: channel <= c < |shifters| ==> shifters[c] == old(shifters[c])
        invariant forall c :: channel <= c < |ins| ==> Window(ins[c], frameCount) == old(Window(ins[c], frameCount))
        invariant forall c, k :: 0 <= c < |outs| && 0 <= k < outs[c].buffer.Length &&
                                   !(outs[c].offset <= k < outs[c].offset + frameCount) ==>
                    outs[c].buffer[k] == old(outs[c].buffer[k])
      {
        RenderChannelAt(ins, outs, frameCount, channel, saved);
      }
    }

    /**
      One channel of a render: the LFO goes back to the saved state unless
      this is the first channel, and the channel's shifter renders its frames
      through it.
     */
    method RenderChannelAt(ins: seq<SamplePointer>, outs: seq<SamplePointer>, frameCount: nat, channel: nat, saved: S)
      requires Valid() && Channels(ins, outs, frameCount) && channel < |ins| <= |shifters|
      requires channel == 0 ==> lfo == saved
      modifies this`lfo, this`shifters, outs[channel].buffer
      ensures Valid() && |shifters| == |old(shifters)|
      ensures lfo == LfoAfter(lfoOps, saved, frameCount)
      ensures ChannelRendered(old(shifters[channel]), shifters[channel], Params(), lfoOps, saved, QuadPhase(odd90, channel),
                              old(Window(ins[channel], frameCount)), Window(outs[channel], frameCount))
      ensures forall c :: 0 <= c < |shifters| && c != channel ==> shifters[c] == old(shifters[c])
      ensures forall c :: 0 <= c < |ins| && c != channel ==>
                Window(ins[c], frameCount) == old(Window(ins[c], frameCount)) &&
                Window(outs[c], frameCount) == old(Window(outs[c], frameCount))
      ensures forall c, k :: 0 <= c < |outs| && 0 <= k < outs[c].buffer.Length &&
                               !(outs[c].offset <= k < outs[c].offset + frameCount) ==>
                outs[c].buffer[k] == old(outs[c].buffer[k])
    {
      hide ChannelSpec;
      hide ProcessSpec;
      if channel > 0 {
        lfo := saved;
      }
      var shifter := shifters[channel];
      var next, v := RenderChannel(shifter.cfg, shifter.state, lfoOps, lfo, QuadPhase(odd90, channel), Params(),
                                   ins[channel], outs[channel], frameCount);
      lfo := next;
      shifters := shifters[channel := shifter.(state := v)];
    }

    /**
      One call of a render trace, `at` frames into the block. What it does
      to the kernel, and the output samples of the frames it renders, are
      ActionEffect's for the input samples of those frames as they were; no
      other sample of the channels' buffers changes.
     */
    method Perform(a: Action, ghost at: nat)
      requires Valid() && processor.Attached() && processor.Separated()
      requires |processor.inputs.data| <= |shifters| && processor.Holds(at, ActionFrames(a))
      requires a.RenderFrames? ==> a.offset == at
      modifies this`rate, this`depth, this`intensity, this`dryMix, this`wetMix, this`odd90, this`lfo, this`shifters
      modifies processor`ins, processor`outs, processor.outputs, processor.OutputBuffers()
      ensures Valid() && |shifters| == |old(shifters)| && processor.Attached()
      ensures processor.inputs == old(processor.inputs) && processor.outputs == old(processor.outputs)
      ensures processor.inputs.data == old(processor.inputs.data) && processor.outputs.data == old(processor.outputs.data)
      ensures var e := ActionEffect(lfoOps, old(Value()), processor.bypassed, a,
                                    old(Windows(processor.inputs.data, at, ActionFrames(a))));
              && Value() == e.0
              && forall c :: 0 <= c < |processor.inputs.data| ==>
                   processor.outputs.data[c][at..at + ActionFrames(a)] == e.1[c]
      ensures forall c, j :: 0 <= c < |processor.inputs.data| && 0 <= j < processor.outputs.data[c].Length &&
                               !(at <= j < at + ActionFrames(a)) ==>
                processor.outputs.data[c][j] == old(processor.outputs.data[c][j])
      ensures forall c, j :: 0 <= c < |processor.inputs.data| && 0 <= j < processor.inputs.data[c].Length &&
                               !(at <= j < at + ActionFrames(a)) ==>
                processor.inputs.data[c][j] == old(processor.inputs.data[c][j])
    {
      hide ChannelSpec;
      hide ProcessSpec;
      hide SegmentEffect;
      hide ParameterEffect;
      match a
      case RenderFrames(frameCount, offset) =>
        RenderAction(frameCount, offset);
      case ApplyParameter(_, parameter) =>
        DoParameterEvent(parameter);
      case ApplyMidi(_, _) =>
    }

    /**
      A RenderFrames call for the frames from `at`: bypassed, it keeps the
      kernel and its outputs are the inputs; otherwise the kernel and the
      outputs are SegmentEffect's for the inputs as they were. No other
      sample of the channels' buffers changes.
     */
    method RenderAction(frameCount: nat, at: nat)
      requires Valid() && processor.Attached() && processor.Separated()
      requires |processor.inputs.data| <= |shifters| && processor.Holds(at, frameCount)
      modifies this`lfo, this`shifters, processor`ins, processor`outs, processor.outputs, processor.OutputBuffers()
      ensures Valid() && |shifters| == |old(shifters)| && processor.Attached()
      ensures processor.inputs == old(processor.inputs) && processor.outputs == old(processor.outputs)
      ensures processor.inputs.data == old(processor.inputs.data) && processor.outputs.data == old(processor.outputs.data)
      ensures processor.bypassed ==>
                && Value() == old(Value())
                && forall c :: 0 <= c < |processor.inputs.data| ==>
                     processor.outputs.data[c][at..at + frameCount] == old(processor.inputs.data[c][at..at + frameCount])
      ensures !processor.bypassed ==>
                var e := SegmentEffect(lfoOps, old(Value()), old(Windows(processor.inputs.data, at, frameCount)), frameCount);
                && Value() == e.0
                && forall c :: 0 <= c < |processor.inputs.data| ==> processor.outputs.data[c][at..at + frameCount] == e.1[c]
      ensures forall c, j :: 0 <= c < |processor.inputs.data| && 0 <= j < processor.outputs.data[c].Length &&
                               !(at <= j < at + frameCount) ==>
                processor.outputs.data[c][j] == old(processor.outputs.data[c][j])
      ensures forall c, j :: 0 <= c < |processor.inputs.data| && 0 <= j < processor.inputs.data[c].Length &&
                               !(at <= j < at + frameCount) ==>
                processor.inputs.data[c][j] == old(processor.inputs.data[c][j])
    {
      hide ChannelSpec;
      hide ProcessSpec;
      hide ChannelRendered;
      hide SegmentEffect;
      ghost var windows := Windows(processor.inputs.data, at, frameCount);
      ghost var before := shifters;
      ghost var s := lfo;
      var render := processor.RenderFrames(frameCount, at);
      if render {
        assert Windows(processor.inputs.data, at, frameCount) == windows;
        RenderPointed(frameCount, at);
      }
    }

    /**
      Renders the frames from `at` through the sample pointers RenderFrames
      set: the kernel and the outputs become SegmentEffect's for the input
      samples, and no other sample of the channels' buffers changes.
     */
    method RenderPointed(frameCount: nat, at: nat)
      requires Valid() && processor.Attached() && processor.Separated()
      requires |processor.inputs.data| <= |shifters| && processor.Holds(at, frameCount)
      requires forall c :: 0 <= c < |processor.ins| ==>
                 && processor.ins[c] == SamplePointer(processor.inputs.data[c], at)
                 && processor.outs[c] == SamplePointer(processor.outputs.data[c], at)
      modifies this`lfo, this`shifters, processor.OutputBuffers()
      ensures Valid() && |shifters| == |old(shifters)|
      ensures var e := SegmentEffect(lfoOps, old(Value()), old(Windows(processor.inputs.data, at, frameCount)), frameCount);
              && Value() == e.0
              && forall c :: 0 <= c < |processor.outs| ==> Window(processor.outs[c], frameCount) == e.1[c]
      ensures forall c, k :: 0 <= c < |processor.outs| && 0 <= k < processor.outs[c].buffer.Length &&
                               !(at <= k < at + frameCount) ==>
                processor.outs[c].buffer[k] == old(processor.outs[c].buffer[k])
    {
      hide ChannelSpec;
      hide ProcessSpec;
      hide ChannelRendered;
      hide SegmentEffect;
      ghost var windows := Windows(processor.inputs.data, at, frameCount);
      ghost var before := shifters;
      ghost var s := lfo;
      ghost var ins := processor.ins;
      ghost var outs := processor.outs;
      assert forall c :: 0 <= c < |ins| ==> Window(ins[c], frameCount) == windows[c];
      DoRendering(processor.ins, processor.outs, frameCount);
      ghost var written := seq(|outs|, c requires 0 <= c < |outs| && Spans(outs[c], frameCount)
                                         reads if 0 <= c < |outs| then {outs[c].buffer} else {} =>
                                         Window(outs[c], frameCount));
      SegmentOf(lfoOps, Params(), s, lfo, before, shifters, windows, written, frameCount);
    }

    /**
      Carries out the calls of a render block's trace in order: the frames
      of its RenderFrames actions, which cover frameCount frames from offset
      0, and its parameter and MIDI events. The kernel and the output samples
      of the block end as BlockRun gives for the block's input samples as
      they were; the parameters end as the trace's parameter events, applied
      in order, leave them.
     */
    method Execute(trace: seq<Action>, frameCount: nat)
      requires Valid() && processor.Attached() && processor.Separated()
      requires |processor.inputs.data| <= |shifters| && processor.Holds(0, frameCount)
      requires Contiguous(trace, 0) && Frames(trace) == frameCount
      modifies this`rate, this`depth, this`intensity, this`dryMix, this`wetMix, this`odd90, this`lfo, this`shifters
      modifies processor`ins, processor`outs, processor.outputs, processor.OutputBuffers()
      ensures Valid() && |shifters| == |old(shifters)| && processor.Attached()
      ensures processor.inputs == old(processor.inputs) && processor.outputs == old(processor.outputs)
      ensures processor.inputs.data == old(processor.inputs.data) && processor.outputs.data == old(processor.outputs.data)
      ensures var r := BlockRun(lfoOps, old(Value()), processor.bypassed, trace, old(Windows(processor.inputs.data, 0, frameCount)));
              && Value() == r.0
              && forall c :: 0 <= c < |processor.inputs.data| ==> processor.outputs.data[c][..frameCount] == r.1[c]
      ensures processor.bypassed ==> forall c :: 0 <= c < |processor.inputs.data| ==>
                processor.outputs.data[c][..frameCount] == old(processor.inputs.data[c][..frameCount])
      ensures Params() == ApplyParameters(old(Params()), trace)
    {
      hide BlockRun;
      hide ActionEffect;
      ghost var start := Value();
      ghost var xs := Windows(processor.inputs.data, 0, frameCount);
      ghost var done: nat := 0;
      BlockRunNone(lfoOps, start, processor.bypassed, Prefixes(xs, 0));
      assert trace[..0] == [];
      for i := 0 to |trace|
        invariant Executed(trace, i, frameCount, start, xs, done)
        invariant |shifters| == |old(shifters)|
        invariant processor.inputs == old(processor.inputs) && processor.outputs == old(processor.outputs)
        invariant processor.inputs.data == old(processor.inputs.data) && processor.outputs.data == old(processor.outputs.data)
      {
        ExecuteStep(trace, i, frameCount, start, xs, done);
        done := done + ActionFrames(trace[i]);
      }
      ExecutedWhole(trace, frameCount, start, xs);
    }

    /** Executed over the whole trace: the kernel and the block's outputs are BlockRun's. */
    lemma ExecutedWhole(trace: seq<Action>, frameCount: nat, start: KernelValue<S>, xs: seq<seq<real>>)
      requires Executed(trace, |trace|, frameCount, start, xs, frameCount) && Frames(trace) == frameCount
      ensures var r := BlockRun(lfoOps, start, processor.bypassed, trace, xs);
              && Value() == r.0
              && forall c :: 0 <= c < |xs| ==> processor.outputs.data[c][..frameCount] == r.1[c]
      ensures processor.bypassed ==> forall c :: 0 <= c < |xs| ==> processor.outputs.data[c][..frameCount] == xs[c]
    {
      hide ActionEffect;
      assert trace[..|trace|] == trace;
      forall c | 0 <= c < |xs|
        ensures xs[c][..frameCount] == xs[c]
      {
      }
      assert Prefixes(xs, frameCount) == xs;
      ghost var r := BlockRun(lfoOps, start, processor.bypassed, trace, xs);
      forall c | 0 <= c < |xs|
        ensures processor.outputs.data[c][..frameCount] == r.1[c]
      {
        assert forall j :: 0 <= j < frameCount ==> processor.outputs.data[c][..frameCount][j] == r.1[c][j];
      }
      if processor.bypassed {
        BlockRunBypassed(lfoOps, start, trace, xs);
      }
    }

    /**
      Where Execute stands after the first i calls of trace, `done` frames
      into the block: the input samples from `done` on are still xs's, and
      the kernel and the output samples before `done` are BlockRun's for
      those calls from `start`, over the first `done` frames of xs.
     */
    ghost predicate Executed(trace: seq<Action>, i: nat, frameCount: nat, start: KernelValue<S>,
                             xs: seq<seq<real>>, done: nat)
      reads this, processor, processor.inputs, processor.outputs
      reads if processor.inputs != null then Arrays(processor.inputs.data) else {}
      reads if processor.outputs != null then Arrays(processor.outputs.data) else {}
    {
      && Valid() && processor.Attached() && processor.Separated() && processor.Holds(0, frameCount)
      && |processor.inputs.data| <= |shifters| == |start.shifters| && ShiftersShaped(start.shifters)
      && |xs| == |processor.inputs.data| && (forall c :: 0 <= c < |xs| ==> |xs[c]| == frameCount)
      && i <= |trace| && Contiguous(trace[i..], done) && done + Frames(trace[i..]) == frameCount
      && done == Frames(trace[..i])
      && (forall c, j :: 0 <= c < |xs| && done <= j < frameCount ==> processor.inputs.data[c][j] == xs[c][j])
      && var r := BlockRun(lfoOps, start, processor.bypassed, trace[..i], Prefixes(xs, done));
         && Value() == r.0
         && forall c, j :: 0 <= c < |xs| && 0 <= j < done ==> processor.outputs.data[c][j] == r.1[c][j]
    }

    /** One turn of Execute: call i of the trace takes Executed from i calls to i + 1. */
    method ExecuteStep(trace: seq<Action>, i: nat, frameCount: nat, ghost start: KernelValue<S>,
                       ghost xs: seq<seq<real>>, ghost done: nat)
      requires i < |trace| && Executed(trace, i, frameCount, start, xs, done)
      modifies this`rate, this`depth, this`intensity, this`dryMix, this`wetMix, this`odd90, this`lfo, this`shifters
      modifies processor`ins, processor`outs, processor.outputs, processor.OutputBuffers()
      ensures Executed(trace, i + 1, frameCount, start, xs, done + ActionFrames(trace[i]))
      ensures |shifters| == |old(shifters)|
      ensures processor.inputs == old(processor.inputs) && processor.outputs == old(processor.outputs)
      ensures processor.inputs.data == old(processor.inputs.data) && processor.outputs.data == old(processor.outputs.data)
    {
      hide BlockRun;
      hide ActionEffect;
      TraceStep(trace, i, done, frameCount);
      WindowsOfAgreeing(processor.inputs.data, xs, done, ActionFrames(trace[i]));
      Perform(trace[i], done);
      Performed(trace, i, frameCount, start, xs, done);
    }

    /** What Perform does to call i, with the input window it read, takes Executed from i calls to i + 1. */
    twostate lemma Performed(new trace: seq<Action>, new i: nat, new frameCount: nat, start: KernelValue<S>,
                             new xs: seq<seq<real>>, new done: nat)
      requires i < |trace| && old(Executed(trace, i, frameCount, start, xs, done))
      requires trace[i].RenderFrames? ==> trace[i].offset == done
      requires var done' := done + ActionFrames(trace[i]);
               && Contiguous(trace[i + 1..], done') && done' + Frames(trace[i + 1..]) == frameCount
               && done' == Frames(trace[..i + 1])
      requires old(Windows(processor.inputs.data, done, ActionFrames(trace[i]))) == Slices(xs, done, ActionFrames(trace[i]))
      requires processor.bypassed == old(processor.bypassed)
      requires Valid() && |shifters| == |old(shifters)| && processor.Attached()
      requires processor.inputs == old(processor.inputs) && processor.outputs == old(processor.outputs)
      requires processor.inputs.data == old(processor.inputs.data) && processor.outputs.data == old(processor.outputs.data)
      requires var e := ActionEffect(lfoOps, old(Value()), processor.bypassed, trace[i],
                                     old(Windows(processor.inputs.data, done, ActionFrames(trace[i]))));
               && Value() == e.0
               && forall c :: 0 <= c < |processor.inputs.data| ==>
                    processor.outputs.data[c][done..done + ActionFrames(trace[i])] == e.1[c]
      requires forall c, j :: 0 <= c < |processor.inputs.data| && 0 <= j < processor.outputs.data[c].Length &&
                                !(done <= j < done + ActionFrames(trace[i])) ==>
                 processor.outputs.data[c][j] == old(processor.outputs.data[c][j])
      requires forall c, j :: 0 <= c < |processor.inputs.data| && 0 <= j < processor.inputs.data[c].Length &&
                                !(done <= j < done + ActionFrames(trace[i])) ==>
                 processor.inputs.data[c][j] == old(processor.inputs.data[c][j])
      ensures Executed(trace, i + 1, frameCount, start, xs, done + ActionFrames(trace[i]))
    {
      hide BlockRun;
      hide ActionEffect;
      hide Contiguous;
      hide Frames;
      BlockRunSnoc(lfoOps, start, processor.bypassed, trace, i, xs, done);
    }

    /**
      What the host's buffers must be for a render: input and output lists
      of the same channel count, every input buffer present and holding the
      block, and either a first output buffer left null (the unit renders in
      place, into the input buffers, which are then distinct) or every output
      buffer present, holding the block, and used by no other channel as
      input or output.
     */
    static ghost predicate HostBuffers(input: BufferList, output: BufferList, frameCount: nat)
      reads input, output
    {
      && input != output
      && |input.data| == |output.data| == |output.byteSizes| && |output.data| > 0
      && (forall c :: 0 <= c < |input.data| ==> input.data[c] != null && frameCount <= input.data[c].Length)
      && (output.data[0] == null ==>
            forall c, d :: 0 <= c < |input.data| && 0 <= d < |input.data| && c != d ==> input.data[c] != input.data[d])
      && (output.data[0] != null ==>
            && (forall c :: 0 <= c < |output.data| ==> output.data[c] != null && frameCount <= output.data[c].Length)
            && (forall c, d :: 0 <= c < |input.data| && 0 <= d < |input.data| && c != d ==>
                  output.data[c] != output.data[d] && output.data[c] != input.data[d]))
    }

    /**
      One render call. A failed pull of the input returns its status with
      nothing changed. Otherwise a null first output buffer makes the render
      in place (the output list takes over the input buffers), the buffers are
      attached, the block is scheduled and its calls carried out, the buffers
      are detached again and the status is noErr. The parameters end as the
      block's parameter events, in order, leave them.
     */
    method ProcessAndRender(pullStatus: int, input: BufferList, output: BufferList, start: int, frameCount: nat,
                            events: seq<RenderEvent>)
      returns (status: int, trace: seq<Action>)
      requires Valid() && processor.inputs == null && processor.outputs == null
      requires HostBuffers(input, output, frameCount) && |input.data| <= |shifters|
      requires WithinBlock(events, 0, start + frameCount)
      modifies this`rate, this`depth, this`intensity, this`dryMix, this`wetMix, this`odd90, this`lfo, this`shifters
      modifies processor, output, Arrays(input.data), Arrays(output.data)
      ensures pullStatus != NoErr ==>
                && status == pullStatus && trace == [] && unchanged(this, processor, output) && Params() == old(Params())
                && unchanged(Arrays(input.data)) && unchanged(Arrays(output.data))
      ensures processor.bypassed == old(processor.bypassed)
      ensures pullStatus == NoErr ==> status == NoErr && processor.inputs == null && processor.outputs == null
      ensures pullStatus == NoErr && old(output.data[0]) == null ==> output.data == old(input.data)
      ensures pullStatus == NoErr && old(output.data[0]) != null ==> output.data == old(output.data)
      ensures pullStatus == NoErr ==> Frames(trace) == frameCount && Contiguous(trace, 0)
      ensures pullStatus == NoErr && frameCount > 0 ==> Schedule(trace, 0) == Applied(events, 0, |events|, start)
      ensures pullStatus == NoErr ==>
                var r := BlockRun(lfoOps, old(Value()), processor.bypassed, trace, old(Windows(input.data, 0, frameCount)));
                && Value() == r.0
                && forall c :: 0 <= c < |input.data| ==> output.data[c][..frameCount] == r.1[c]
      ensures pullStatus == NoErr && processor.bypassed ==>
                forall c :: 0 <= c < |input.data| ==> output.data[c][..frameCount] == old(input.data[c][..frameCount])
      ensures Valid() && |shifters| == |old(shifters)| && Params() == ApplyParameters(old(Params()), trace)
    {
      hide BlockRun;
      hide ChannelSpec;
      hide ProcessSpec;
      if pullStatus != NoErr {
        return pullStatus, [];
      }
      if output.data[0] == null {
        UseInputBuffers(output, input);
        assert output.data == input.data;
      }
      trace := RenderInto(input, output, start, frameCount, events);
      processor.ClearBuffers();
      status := NoErr;
    }

    /**
      The render call once the output list holds the buffers to render
      into: the buffers are attached, the block is scheduled and its calls
      carried out, and the kernel and the output samples end as BlockRun
      gives for the block's input samples as they were.
     */
    method RenderInto(input: BufferList, output: BufferList, start: int, frameCount: nat, events: seq<RenderEvent>)
      returns (trace: seq<Action>)
      requires Valid() && processor.inputs == null && processor.outputs == null
      requires |input.data| == |output.data| == |output.byteSizes| && |input.data| <= |shifters|
      requires forall c :: 0 <= c < |input.data| ==>
                 && input.data[c] != null && frameCount <= input.data[c].Length
                 && output.data[c] != null && frameCount <= output.data[c].Length
      requires forall c, d :: 0 <= c < |input.data| && 0 <= d < |input.data| && c != d ==>
                 output.data[c] != output.data[d] && output.data[c] != input.data[d]
      requires WithinBlock(events, 0, start + frameCount)
      modifies this`rate, this`depth, this`intensity, this`dryMix, this`wetMix, this`odd90, this`lfo, this`shifters
      modifies processor`inputs, processor`outputs, processor`ins, processor`outs, output, Arrays(output.data)
      ensures processor.inputs == input && processor.outputs == output && output.data == old(output.data)
      ensures Frames(trace) == frameCount && Contiguous(trace, 0)
      ensures frameCount > 0 ==> Schedule(trace, 0) == Applied(events, 0, |events|, start)
      ensures var r := BlockRun(lfoOps, old(Value()), processor.bypassed, trace, old(Windows(input.data, 0, frameCount)));
              && Value() == r.0
              && forall c :: 0 <= c < |input.data| ==> output.data[c][..frameCount] == r.1[c]
      ensures processor.bypassed ==>
                forall c :: 0 <= c < |input.data| ==> output.data[c][..frameCount] == old(input.data[c][..frameCount])
      ensures Valid() && |shifters| == |old(shifters)| && Params() == ApplyParameters(old(Params()), trace)
    {
      hide BlockRun;
      hide ChannelSpec;
      hide ProcessSpec;
      ghost var xs := Windows(input.data, 0, frameCount);
      processor.SetBuffers(input, output);
      assert Windows(input.data, 0, frameCount) == xs;
      trace := Render(start, frameCount, events);
      label B:
      Execute(trace, frameCount);
      assert old@B(Windows(processor.inputs.data, 0, frameCount)) == xs;
    }
  }
}
