/**
  The phaser's core: a chain of one-pole all-pass filters, one per frequency
  band, with a feedback path weighted by cumulative products of the filters'
  gains (the phaser of Pirkle, "Designing Audio Effect Plugins in C++", 2019).
  Filter coefficients are refreshed from the modulation value at most once
  every `samplesPerFilterUpdate` samples.
 */
module PhaseShifter {
  import opened Numeric
  import opened Biquad

  /** A band's modulation range in Hz. */
  datatype Band = Band(frequencyMin: real, frequencyMax: real)

  /** The six bands used by the kernel. */
  const Ideal: seq<Band> := [
    Band(16.0, 1600.0), Band(33.0, 3300.0), Band(48.0, 4800.0),
    Band(98.0, 9800.0), Band(160.0, 16000.0), Band(260.0, 20480.0)
  ]

  /** The band split of the National Semiconductor reference design. */
  const NationalSemiconductor: seq<Band> := [
    Band(32.0, 1500.0), Band(68.0, 3400.0), Band(96.0, 4800.0),
    Band(212.0, 10000.0), Band(320.0, 16000.0), Band(636.0, 20480.0)
  ]

  /**
    DSP::bipolarModulation(modulation, minimum, maximum), which maps a
    modulation value into a band's range. Its definition is not modelled.
   */
  type Modulator = (real, real, real) -> real

  /** The fixed parts of a shifter. */
  datatype Config = Config(bands: seq<Band>, sampleRate: real, samplesPerFilterUpdate: int,
                           libm: Libm, bipolarModulation: Modulator)

  /** The parts of a shifter that `process` changes, and its intensity. */
  datatype ShifterState = ShifterState(intensity: real, sampleCounter: int, coefficients: seq<Coefficients>,
                                       states: seq<State>, gammas: seq<real>)

  /** One output sample and the shifter afterwards. */
  datatype Processed = Processed(output: real, shifter: ShifterState)

  /**
    A shifter's state as the constructor leaves it: the given intensity,
    counter 0, every band's coefficients for modulation 0, zero filter
    states, and all gammas 1.
   */
  function InitialState(cfg: Config, intensity: real): (v: ShifterState)
    ensures Shaped(cfg, v) && v.intensity == intensity && v.sampleCounter == 0
    ensures v.coefficients == Refreshed(cfg, 0.0)
    ensures forall i :: 0 <= i < |v.states| ==> v.states[i] == ZeroState
    ensures |v.gammas| == |cfg.bands| + 1 && forall i :: 0 <= i < |v.gammas| ==> v.gammas[i] == 1.0
  {
    ShifterState(intensity, 0, Refreshed(cfg, 0.0), seq(|cfg.bands|, _ => ZeroState), seq(|cfg.bands| + 1, _ => 1.0))
  }

  /** The shape every APF1 record has: a0 == b1, a1 == 1, a2 == b2 == 0. */
  predicate Apf1Shaped(c: Coefficients) {
    c.a0 == c.b1 && c.a1 == 1.0 && c.a2 == 0.0 && c.b2 == 0.0
  }

  /** Well-formed shifter state: one coefficient record and one state per band. */
  predicate Shaped(cfg: Config, v: ShifterState) {
    |v.coefficients| == |cfg.bands| && |v.states| == |cfg.bands|
  }

  /**
    Band i's coefficients for a modulation value: APF1 at the band's modulated
    frequency, so of APF1 shape and all-pass (gain magnitude 1 at DC and at Nyquist).
   */
  function BandCoefficients(cfg: Config, modulation: real, i: nat): (c: Coefficients)
    requires i < |cfg.bands|
    ensures Apf1Shaped(c)
    ensures c.NumeratorAtDc() == c.DenominatorAtDc() && c.NumeratorAtNyquist() == -c.DenominatorAtNyquist()
  {
    var band := cfg.bands[i];
    APF1(cfg.libm, cfg.sampleRate, cfg.bipolarModulation(modulation, band.frequencyMin, band.frequencyMax))
  }

  /** Every band's refreshed coefficients, in band order; all of APF1 shape. */
  function Refreshed(cfg: Config, modulation: real): (cs: seq<Coefficients>)
    ensures |cs| == |cfg.bands|
    ensures forall i :: 0 <= i < |cs| ==> Apf1Shaped(cs[i])
  {
    seq(|cfg.bands|, i requires 0 <= i < |cfg.bands| => BandCoefficients(cfg, modulation, i))
  }

  /** Product of the gains from index lo to the end (1 for none). */
  function ProductFrom(gains: seq<real>, lo: nat): real
    decreases |gains| - lo
  {
    if lo >= |gains| then 1.0 else gains[lo] * ProductFrom(gains, lo + 1)
  }

  /** The gain (a0) of every filter. */
  function Gains(cs: seq<Coefficients>): (g: seq<real>)
    ensures |g| == |cs|
    ensures forall i :: 0 <= i < |cs| ==> g[i] == cs[i].a0
  {
    seq(|cs|, i requires 0 <= i < |cs| => cs[i].a0)
  }

  /**
    Gamma i is the product of the gains of the last i filters: gamma 0 is 1
    and the last gamma is the product of all gains.
   */
  function Gammas(gains: seq<real>): (g: seq<real>)
    ensures |g| == |gains| + 1
    ensures g[0] == 1.0 && g[|gains|] == ProductFrom(gains, 0)
  {
    seq(|gains| + 1, i requires 0 <= i <= |gains| => ProductFrom(gains, |gains| - i))
  }

  /** Each step of the gamma loop multiplies the previous gamma by one more gain, from the output end. */
  lemma GammasStep(gains: seq<real>, i: nat)
    requires 1 <= i <= |gains|
    ensures Gammas(gains)[i] == gains[|gains| - i] * Gammas(gains)[i - 1]
  {
  }

  /** The first k gammas of `gammas` are those of `gains`. */
  ghost predicate GammasUpTo(gammas: seq<real>, gains: seq<real>, k: nat)
    decreases k
  {
    && |gammas| == |gains| + 1
    && (k > 0 ==> GammasUpTo(gammas, gains, k - 1) && (k - 1 <= |gains| ==> gammas[k - 1] == Gammas(gains)[k - 1]))
  }

  lemma {:induction false} GammasUpToAt(gammas: seq<real>, gains: seq<real>, k: nat, j: nat)
    requires GammasUpTo(gammas, gains, k) && j < k && j <= |gains|
    ensures gammas[j] == Gammas(gains)[j]
    decreases k
  {
    if j < k - 1 {
      GammasUpToAt(gammas, gains, k - 1, j);
    }
  }

  /** Writing gamma k as gain k (from the output end) times gamma k - 1 extends the agreement by one. */
  lemma {:induction false} GammasExtend(gammas: seq<real>, gains: seq<real>, k: nat, gain: real)
    requires GammasUpTo(gammas, gains, k) && 1 <= k <= |gains| && gain == gains[|gains| - k]
    ensures GammasUpTo(gammas[k := gain * gammas[k - 1]], gains, k + 1)
  {
    var next := gammas[k := gain * gammas[k - 1]];
    GammasStep(gains, k);
    GammasUpToAt(gammas, gains, k, k - 1);
    GammasUpdate(gammas, gains, k, next);
  }

  /** Changing an entry at or after k keeps the agreement on the first k. */
  lemma {:induction false} GammasUpdate(gammas: seq<real>, gains: seq<real>, k: nat, next: seq<real>)
    requires GammasUpTo(gammas, gains, k) && |next| == |gammas|
    requires forall j :: 0 <= j < k && j < |gammas| ==> next[j] == gammas[j]
    ensures GammasUpTo(next, gains, k)
    decreases k
  {
    if k > 0 {
      GammasUpdate(gammas, gains, k - 1, next);
    }
  }

  lemma GammasComplete(gammas: seq<real>, gains: seq<real>)
    requires GammasUpTo(gammas, gains, |gains| + 1)
    ensures gammas == Gammas(gains)
  {
    forall j | 0 <= j <= |gains|
      ensures gammas[j] == Gammas(gains)[j]
    {
      GammasUpToAt(gammas, gains, |gains| + 1, j);
    }
  }

  /** The feedback storage of each filter (for the transposed canonical form, its first register). */
  function Storages(cs: seq<Coefficients>, ss: seq<State>): (st: seq<real>)
    requires |cs| == |ss|
    ensures |st| == |ss|
    ensures forall i :: 0 <= i < |ss| ==> st[i] == ss[i].xz1
  {
    seq(|ss|, i requires 0 <= i < |ss| => StorageComponent(CanonicalTranspose, ss[i], cs[i]))
  }

  /**
    Sum over the first k filters i of gamma[n-i-1] * storage[i]: filter i is
    weighted by the gains after it. Cleared storage gives no feedback.
   */
  function WeightedSum(gammas: seq<real>, storage: seq<real>, k: nat): (sum: real)
    requires k <= |storage| < |gammas|
    ensures (forall i :: 0 <= i < k ==> storage[i] == 0.0) ==> sum == 0.0
  {
    if k == 0 then 0.0
    else WeightedSum(gammas, storage, k - 1) + gammas[|storage| - k] * storage[k - 1]
  }

  /** The value entering the chain: (input + intensity*feedback) / (1 + intensity*total gain). */
  function ChainInput(intensity: real, input: real, weightedSum: real, totalGain: real): (x: real)
    ensures intensity == 0.0 ==> x == input
  {
    Div(input + intensity * weightedSum, 1.0 + intensity * totalGain)
  }

  /** The signal after the first k filters of the chain, each fed the previous one's output. */
  function ChainValue(cs: seq<Coefficients>, ss: seq<State>, x: real, k: nat): real
    requires k <= |cs| == |ss|
  {
    if k == 0 then x
    else CanonicalTransposeStep(ChainValue(cs, ss, x, k - 1), ss[k - 1], cs[k - 1]).output
  }

  /** The states of the first k filters after the chain has advanced each once, on the value reaching it. */
  function ChainStates(cs: seq<Coefficients>, ss: seq<State>, x: real, k: nat): (r: seq<State>)
    requires k <= |cs| == |ss|
    ensures |r| == k
  {
    if k == 0 then []
    else ChainStates(cs, ss, x, k - 1) + [CanonicalTransposeStep(ChainValue(cs, ss, x, k - 1), ss[k - 1], cs[k - 1]).state]
  }

  /** Filter j's new state is one transposed-canonical step of its old state on the value reaching it. */
  lemma {:induction false} ChainStatesAt(cs: seq<Coefficients>, ss: seq<State>, x: real, k: nat, j: nat)
    requires j < k <= |cs| == |ss|
    ensures ChainStates(cs, ss, x, k)[j] == CanonicalTransposeStep(ChainValue(cs, ss, x, j), ss[j], cs[j]).state
    decreases k
  {
    if j < k - 1 {
      ChainStatesAt(cs, ss, x, k - 1, j);
    }
  }

  /** Whether a call that finds the counter at `counter` refreshes the coefficients. */
  predicate RefreshDue(cfg: Config, counter: int) {
    counter >= cfg.samplesPerFilterUpdate
  }

  /** The counter after one call. */
  function NextCounter(cfg: Config, counter: int): (c: int)
    ensures 0 <= counter <= MaxInt(cfg.samplesPerFilterUpdate, 1) ==> 1 <= c <= MaxInt(cfg.samplesPerFilterUpdate, 1)
  {
    if RefreshDue(cfg, counter) then 1 else counter + 1
  }

  /**
    One call of `process`. Coefficients are refreshed exactly when the counter
    has reached the update rate; gammas, the weighted feedback sum and the
    chain input are computed on every call from the (possibly refreshed)
    coefficients and the current states; then every filter is advanced once,
    in band order. Intensity 0 leaves just the serial all-pass chain.
   */
  function ProcessSpec(cfg: Config, v: ShifterState, modulation: real, input: real): (r: Processed)
    requires Shaped(cfg, v)
    ensures Shaped(cfg, r.shifter)
  {
    var n := |cfg.bands|;
    var cs := CoefficientsInUse(cfg, v, modulation);
    var x := FeedbackInput(v, cs, input);
    Processed(ChainValue(cs, v.states, x, n),
              ShifterState(v.intensity, NextCounter(cfg, v.sampleCounter), cs, ChainStates(cs, v.states, x, n),
                           Gammas(Gains(cs))))
  }

  /**
    What one call of `process` keeps and changes: the intensity is kept; the
    coefficients are refreshed exactly when due; the gammas are those of the
    coefficients in use; the counter steps as NextCounter says and stays in
    range; APF1 shape is kept; and
    with intensity 0 the output is the plain serial chain.
   */
  lemma ProcessFacts(cfg: Config, v: ShifterState, modulation: real, input: real)
    requires Shaped(cfg, v)
    ensures var r := ProcessSpec(cfg, v, modulation, input);
            && r.shifter.intensity == v.intensity
            && r.shifter.coefficients == (if RefreshDue(cfg, v.sampleCounter) then Refreshed(cfg, modulation) else v.coefficients)
            && r.shifter.gammas == Gammas(Gains(r.shifter.coefficients))
            && r.shifter.sampleCounter == NextCounter(cfg, v.sampleCounter)
            && (0 <= v.sampleCounter <= MaxInt(cfg.samplesPerFilterUpdate, 1) ==>
                  1 <= r.shifter.sampleCounter <= MaxInt(cfg.samplesPerFilterUpdate, 1))
            && ((forall i :: 0 <= i < |v.coefficients| ==> Apf1Shaped(v.coefficients[i])) ==>
                  (forall i :: 0 <= i < |r.shifter.coefficients| ==> Apf1Shaped(r.shifter.coefficients[i])))
            && (v.intensity == 0.0 ==> r.output == ChainValue(r.shifter.coefficients, v.states, input, |cfg.bands|))
  {
  }

  /** The coefficients a call filters with: refreshed from the modulation when due, else the current ones. */
  function CoefficientsInUse(cfg: Config, v: ShifterState, modulation: real): (cs: seq<Coefficients>)
    requires Shaped(cfg, v)
    ensures |cs| == |cfg.bands|
  {
    if RefreshDue(cfg, v.sampleCounter) then Refreshed(cfg, modulation) else v.coefficients
  }

  /**
    The chain input of a call filtering with `cs`: the input plus weighted
    feedback, normalised. Intensity 0 passes the input through; with every
    x_z1 register cleared (a fresh or reset shifter) the feedback sum is 0
    and the input is only normalised by the product of all gains.
   */
  function FeedbackInput(v: ShifterState, cs: seq<Coefficients>, input: real): (x: real)
    requires |cs| == |v.states|
    ensures v.intensity == 0.0 ==> x == input
    ensures (forall i :: 0 <= i < |v.states| ==> v.states[i].xz1 == 0.0) ==>
              x == ChainInput(v.intensity, input, 0.0, ProductFrom(Gains(cs), 0))
  {
    var gammas := Gammas(Gains(cs));
    var storage := Storages(cs, v.states);
    assert (forall i :: 0 <= i < |v.states| ==> v.states[i].xz1 == 0.0) ==>
             forall i :: 0 <= i < |storage| ==> storage[i] == 0.0;
    assert gammas[|cs|] == ProductFrom(Gains(cs), 0);
    ChainInput(v.intensity, input, WeightedSum(gammas, storage, |cs|), gammas[|cs|])
  }

  /** Outputs of successive `process` calls on paired modulation and input values, and the shifter after them. */
  function RunSpec(cfg: Config, v: ShifterState, modulations: seq<real>, inputs: seq<real>): (r: (seq<real>, ShifterState))
    requires Shaped(cfg, v) && |modulations| == |inputs|
    ensures |r.0| == |inputs| && Shaped(cfg, r.1)
    decreases |inputs|
  {
    if inputs == [] then ([], v)
    else
      var k := |inputs| - 1;
      var prefix := RunSpec(cfg, v, modulations[..k], inputs[..k]);
      var last := ProcessSpec(cfg, prefix.1, modulations[k], inputs[k]);
      (prefix.0 + [last.output], last.shifter)
  }

  /** The counter after k calls of a fresh or reset shifter. */
  function CounterAfter(cfg: Config, k: nat): int {
    if k == 0 then 0 else NextCounter(cfg, CounterAfter(cfg, k - 1))
  }

  /** Whether call number k (from 1) of a fresh or reset shifter refreshes the coefficients. */
  predicate RefreshOnCall(cfg: Config, k: nat)
    requires k >= 1
  {
    RefreshDue(cfg, CounterAfter(cfg, k - 1))
  }

  /** With update rate N >= 1, after k >= 1 calls the counter is ((k - 1) mod N) + 1. */
  lemma {:induction false} CounterAfterValue(cfg: Config, k: nat)
    requires cfg.samplesPerFilterUpdate >= 1 && k >= 1
    ensures CounterAfter(cfg, k) == (k - 1) % cfg.samplesPerFilterUpdate + 1
  {
    if k > 1 {
      CounterAfterValue(cfg, k - 1);
      ModNext(k - 2, cfg.samplesPerFilterUpdate);
    }
  }

  /** Counting up by one modulo n: the remainder steps by one and wraps from n - 1 to 0. */
  lemma ModNext(a: int, n: int)
    requires a >= 0 && n >= 1
    ensures 0 <= a % n < n
    ensures (a + 1) % n == if a % n == n - 1 then 0 else a % n + 1
  {
    var q, r := a / n, a % n;
    assert a == q * n + r && 0 <= r < n;
    if r == n - 1 {
      assert a + 1 == (q + 1) * n;
      ModOfDecomposition(a + 1, q + 1, 0, n);
    } else {
      ModOfDecomposition(a + 1, q, r + 1, n);
    }
  }

  /** A remainder is at most the non-negative number divided, and equal to it below n. */
  lemma ModBounds(a: int, n: int)
    requires a >= 0 && n >= 1
    ensures 0 <= a % n <= a
    ensures a < n ==> a % n == a
  {
    var q, r := a / n, a % n;
    assert a == q * n + r && 0 <= r < n;
    if q >= 1 {
      MulAtLeast(q, n);
    }
    if a < n {
      ModOfDecomposition(a, 0, a, n);
    }
  }

  /** If a == q*n + r with 0 <= r < n then a % n == r. */
  lemma ModOfDecomposition(a: int, q: int, r: int, n: int)
    requires n >= 1 && 0 <= r < n && a == q * n + r
    ensures a % n == r
  {
    var q', r' := a / n, a % n;
    assert a == q' * n + r' && 0 <= r' < n;
    var d := q - q';
    assert d * n == q * n - q' * n;
    assert d * n == r' - r;
    if d >= 1 {
      MulAtLeast(d, n);
    } else if d <= -1 {
      MulAtLeast(-d, n);
    }
  }

  lemma {:induction false} MulAtLeast(d: int, n: int)
    requires d >= 1 && n >= 1
    ensures d * n >= n
    decreases d
  {
    if d > 1 {
      MulAtLeast(d - 1, n);
      assert d * n == (d - 1) * n + n;
    }
  }

  /**
    A fresh or reset shifter with update rate N >= 1 refreshes its
    coefficients on call N + 1 and then on every N-th call after it, and on
    no other call.
   */
  lemma RefreshSchedule(cfg: Config, k: nat)
    requires cfg.samplesPerFilterUpdate >= 1 && k >= 1
    ensures RefreshOnCall(cfg, k) <==> k > cfg.samplesPerFilterUpdate && (k - 1) % cfg.samplesPerFilterUpdate == 0
  {
    var n := cfg.samplesPerFilterUpdate;
    if k == 1 {
      assert CounterAfter(cfg, 0) == 0;
    } else {
      CounterAfterValue(cfg, k - 1);
      ModNext(k - 2, n);
      ModBounds(k - 2, n);
      ModBounds(k - 1, n);
    }
  }

  /** k calls of `process` on a fresh or reset shifter leave its counter at CounterAfter(cfg, k). */
  lemma {:induction false} RunSpecCounter(cfg: Config, v: ShifterState, modulations: seq<real>, inputs: seq<real>)
    requires Shaped(cfg, v) && |modulations| == |inputs| && v.sampleCounter == 0
    ensures RunSpec(cfg, v, modulations, inputs).1.sampleCounter == CounterAfter(cfg, |inputs|)
    decreases |inputs|
  {
    if inputs != [] {
      var k := |inputs| - 1;
      RunSpecCounter(cfg, v, modulations[..k], inputs[..k]);
      var prefix := RunSpec(cfg, v, modulations[..k], inputs[..k]);
      ProcessFacts(cfg, prefix.1, modulations[k], inputs[k]);
    }
  }

  function CoefficientsOf(fs: seq<Filter>): (cs: seq<Coefficients>)
    reads fs
    ensures |cs| == |fs| && forall i :: 0 <= i < |fs| ==> cs[i] == fs[i].coefficients
  {
    seq(|fs|, i requires 0 <= i < |fs| reads fs => fs[i].coefficients)
  }

  function StatesOf(fs: seq<Filter>): (ss: seq<State>)
    reads fs
    ensures |ss| == |fs| && forall i :: 0 <= i < |fs| ==> ss[i] == fs[i].state
  {
    seq(|fs|, i requires 0 <= i < |fs| reads fs => fs[i].state)
  }

  ghost predicate Reached(cs: seq<Coefficients>, ss: seq<State>, x: real, k: nat, value: real)
    requires k <= |cs| == |ss|
  {
    value == ChainValue(cs, ss, x, k)
  }

  lemma StatesAre(fs: seq<Filter>, ss: seq<State>)
    requires |fs| == |ss| && forall j :: 0 <= j < |fs| ==> fs[j].state == ss[j]
    ensures StatesOf(fs) == ss
  {
  }

  lemma CoefficientsAre(fs: seq<Filter>, cs: seq<Coefficients>)
    requires |fs| == |cs| && forall j :: 0 <= j < |fs| ==> fs[j].coefficients == cs[j]
    ensures CoefficientsOf(fs) == cs
  {
  }

  /** n fresh transposed canonical filters with zero state, each recorded at its index. */
  method NewFilters(n: nat) returns (fs: seq<Filter>, ghost indices: map<Filter, nat>)
    ensures |fs| == n
    ensures forall i :: 0 <= i < n ==> fs[i] in indices && indices[fs[i]] == i
    ensures forall i :: 0 <= i < n ==> fresh(fs[i]) && fs[i].topology == CanonicalTranspose
    ensures forall i :: 0 <= i < n ==> fs[i].state == ZeroState
  {
    fs := [];
    indices := map[];
    while |fs| < n
      invariant |fs| <= n
      invariant forall i :: 0 <= i < |fs| ==> fs[i] in indices && indices[fs[i]] == i
      invariant forall i :: 0 <= i < |fs| ==> fresh(fs[i]) && fs[i].topology == CanonicalTranspose
      invariant forall i :: 0 <= i < |fs| ==> fs[i].state == ZeroState
    {
      var f := new Filter.Default(CanonicalTranspose);
      indices := indices[f := |fs|];
      fs := fs + [f];
    }
  }

  /**
    A phase shifter: one all-pass filter object per band, in band order.
    The filters are owned by the shifter and never shared.
   */
  class PhaseShifter {
    const bands: seq<Band>
    const sampleRate: real
    const samplesPerFilterUpdate: int
    const libm: Libm
    const bipolarModulation: Modulator
    const filters: seq<Filter>
    /** The band index of each filter; it makes the filters pairwise distinct. */
    ghost const position: map<Filter, nat>
    var intensity: real
    var sampleCounter: int
    var gammas: seq<real>

    /** One transposed canonical filter per band, each at its own band index. */
    ghost predicate Chain() {
      && |filters| == |bands|
      && forall i :: 0 <= i < |filters| ==>
           filters[i] in position && position[filters[i]] == i && filters[i].topology == CanonicalTranspose
    }

    ghost predicate Valid()
      reads this
    {
      && Chain()
      && |gammas| == |bands| + 1 && gammas[0] == 1.0
      && 0 <= sampleCounter <= MaxInt(samplesPerFilterUpdate, 1)
    }

    /** The shifter and its filters: everything `process` may change. */
    ghost function Footprint(): set<object> {
      {this as object} + set f: Filter | f in filters :: f as object
    }

    function Cfg(): Config {
      Config(bands, sampleRate, samplesPerFilterUpdate, libm, bipolarModulation)
    }

    ghost function Value(): ShifterState
      reads this, filters
    {
      ShifterState(intensity, sampleCounter, CoefficientsOf(filters), StatesOf(filters), gammas)
    }

    /**
      One filter per band with zero state, coefficients for modulation 0,
      all gammas 1 and the counter at 0.
     */
    constructor (bands: seq<Band>, sampleRate: real, intensity: real, samplesPerFilterUpdate: int,
                 libm: Libm, bipolarModulation: Modulator)
      ensures Valid() && fresh(Footprint())
      ensures this.bands == bands && this.sampleRate == sampleRate && this.intensity == intensity
      ensures this.samplesPerFilterUpdate == samplesPerFilterUpdate
      ensures this.libm == libm && this.bipolarModulation == bipolarModulation
      ensures |filters| == |bands| && |gammas| == |bands| + 1 && gammas[0] == 1.0
      ensures forall i :: 0 <= i < |gammas| ==> gammas[i] == 1.0
      ensures sampleCounter == 0
      ensures CoefficientsOf(filters) == Refreshed(Cfg(), 0.0)
      ensures forall i :: 0 <= i < |filters| ==> filters[i].state == ZeroState
      ensures Value() == InitialState(Cfg(), intensity)
    {
      var fs, indices := NewFilters(|bands|);
      this.bands := bands;
      this.sampleRate := sampleRate;
      this.intensity := intensity;
      this.samplesPerFilterUpdate := samplesPerFilterUpdate;
      this.libm := libm;
      this.bipolarModulation := bipolarModulation;
      filters := fs;
      position := indices;
      sampleCounter := 0;
      gammas := seq(|bands| + 1, _ => 1.0);
      new;
      UpdateCoefficients(0.0);
      assert StatesOf(filters) == InitialState(Cfg(), intensity).states;
    }

    /** Stores the feedback intensity; nothing else changes. */
    method SetIntensity(intensity: real)
      modifies this`intensity
      ensures this.intensity == intensity
    {
      this.intensity := intensity;
    }

    /** Counter to 0 and every filter's state to zero; coefficients, gammas and intensity are kept. */
    method Reset()
      requires Valid()
      modifies this`sampleCounter, filters
      ensures Valid()
      ensures sampleCounter == 0
      ensures forall i :: 0 <= i < |filters| ==> filters[i].state == ZeroState
      ensures CoefficientsOf(filters) == old(CoefficientsOf(filters))
    {
      sampleCounter := 0;
      for index := 0 to |filters|
        invariant Valid() && sampleCounter == 0
        invariant forall j :: 0 <= j < index ==> filters[j].state == ZeroState
        invariant forall j :: 0 <= j < |filters| ==> filters[j].coefficients == old(filters[j].coefficients)
      {
        filters[index].Reset();
      }
    }

    /**
      Processes one sample: refreshes the coefficients when due, updates the
      gammas, forms the feedback-adjusted input and runs it through the
      chain. The result and the new state are those of ProcessSpec.
     */
    method Process(modulation: real, input: real, ghost v0: ShifterState) returns (output: real)
      requires Valid() && v0 == Value()
      modifies this, filters
      ensures Valid()
      ensures Processed(output, Value()) == ProcessSpec(Cfg(), v0, modulation, input)
    {
      ghost var spec := ProcessSpec(Cfg(), v0, modulation, input);
      ghost var cs := CoefficientsInUse(Cfg(), v0, modulation);
      Tick(modulation, v0);
      output := FeedbackAdjusted(input, v0, cs);
      output := RunChain(output, cs, v0.states);
      assert output == spec.output;
      assert CoefficientsOf(filters) == spec.shifter.coefficients;
      assert StatesOf(filters) == spec.shifter.states;
      assert gammas == spec.shifter.gammas;
      assert sampleCounter == spec.shifter.sampleCounter && intensity == spec.shifter.intensity;
    }

    /** Advances the sample counter, refreshing the coefficients when due; filter states are kept. */
    method Tick(modulation: real, ghost v0: ShifterState)
      requires Valid() && v0 == Value()
      modifies this`sampleCounter, filters
      ensures Valid()
      ensures sampleCounter == NextCounter(Cfg(), v0.sampleCounter)
      ensures CoefficientsOf(filters) == CoefficientsInUse(Cfg(), v0, modulation)
      ensures StatesOf(filters) == v0.states
    {
      if sampleCounter >= samplesPerFilterUpdate {
        UpdateCoefficients(modulation);
        sampleCounter := 1;
      } else {
        sampleCounter := sampleCounter + 1;
      }
    }

    /** Updates the gammas for the coefficients in use and returns the chain input for `input`. */
    method FeedbackAdjusted(input: real, ghost v0: ShifterState, ghost cs: seq<Coefficients>) returns (x: real)
      requires Valid() && intensity == v0.intensity
      requires CoefficientsOf(filters) == cs && StatesOf(filters) == v0.states
      modifies this`gammas
      ensures Valid()
      ensures gammas == Gammas(Gains(cs))
      ensures x == FeedbackInput(v0, cs, input)
    {
      UpdateGammas();
      var weightedSum := FeedbackSum();
      x := ChainInput(intensity, input, weightedSum, gammas[|filters|]);
    }

    /** Gamma i becomes the product of the gains of the last i filters; gamma 0 is not written. */
    method UpdateGammas()
      requires Valid()
      modifies this`gammas
      ensures Valid()
      ensures gammas == Gammas(Gains(CoefficientsOf(filters)))
    {
      ghost var gains := Gains(CoefficientsOf(filters));
      var n := |filters|;
      var index := 1;
      while index <= n
        invariant 1 <= index <= n + 1
        invariant |gammas| == n + 1 && gammas[0] == 1.0
        invariant GammasUpTo(gammas, gains, index)
      {
        UpdateGamma(index, gains);
        index := index + 1;
      }
      GammasComplete(gammas, gains);
    }

    /** Gamma `index` becomes the gain of filter n - index times gamma index - 1. */
    method UpdateGamma(index: nat, ghost gains: seq<real>)
      requires Chain() && 1 <= index <= |filters| && gains == Gains(CoefficientsOf(filters))
      requires |gammas| == |filters| + 1 && GammasUpTo(gammas, gains, index)
      modifies this`gammas
      ensures |gammas| == |filters| + 1 && gammas[0] == old(gammas[0])
      ensures GammasUpTo(gammas, gains, index + 1)
    {
      var current := gammas;
      var gain := filters[|filters| - index].GainValue();
      GammasExtend(current, gains, index, gain);
      gammas := current[index := gain * current[index - 1]];
    }

    /** The feedback: each filter's storage weighted by the gamma of the filters after it. */
    method FeedbackSum() returns (weightedSum: real)
      requires Valid()
      ensures weightedSum == WeightedSum(gammas, Storages(CoefficientsOf(filters), StatesOf(filters)), |filters|)
    {
      ghost var storage := Storages(CoefficientsOf(filters), StatesOf(filters));
      var n := |filters|;
      weightedSum := 0.0;
      for index := 0 to n
        invariant weightedSum == WeightedSum(gammas, storage, index)
      {
        weightedSum := weightedSum + gammas[n - index - 1] * filters[index].Storage();
      }
    }

    /** Runs a value through the filters in band order, each fed the previous one's output. */
    method RunChain(x: real, ghost cs: seq<Coefficients>, ghost ss: seq<State>) returns (output: real)
      requires Chain() && cs == CoefficientsOf(filters) && ss == StatesOf(filters)
      modifies filters
      ensures output == ChainValue(cs, ss, x, |filters|)
      ensures StatesOf(filters) == ChainStates(cs, ss, x, |filters|)
      ensures CoefficientsOf(filters) == cs
    {
      hide CanonicalTransposeStep;
      var n := |filters|;
      ghost var target := ChainStates(cs, ss, x, n);
      output := x;
      for index := 0 to n
        invariant Reached(cs, ss, x, index, output)
        invariant forall j :: 0 <= j < n ==> filters[j].coefficients == cs[j]
        invariant forall j {:trigger target[j]} :: 0 <= j < index ==> filters[j].state == target[j]
        invariant forall j :: index <= j < n ==> filters[j].state == ss[j]
      {
        output := RunFilter(index, output, cs, ss, x, target);
      }
      StatesAre(filters, target);
      CoefficientsAre(filters, cs);
    }

    /** Advances filter `index` of the chain on the value reaching it. */
    method RunFilter(index: nat, input: real, ghost cs: seq<Coefficients>, ghost ss: seq<State>, ghost x: real,
                     ghost target: seq<State>)
      returns (output: real)
      requires Chain() && index < |filters| == |cs| == |ss| && target == ChainStates(cs, ss, x, |filters|)
      requires filters[index].coefficients == cs[index] && filters[index].state == ss[index]
      requires Reached(cs, ss, x, index, input)
      modifies filters[index]
      ensures Reached(cs, ss, x, index + 1, output)
      ensures filters[index].state == target[index]
      ensures filters[index].coefficients == cs[index]
      ensures forall j :: 0 <= j < |filters| && j != index ==> filters[j].state == old(filters[j].state)
      ensures forall j :: 0 <= j < |filters| && j != index ==> filters[j].coefficients == old(filters[j].coefficients)
    {
      var f := filters[index];
      assert f.topology == CanonicalTranspose;
      ChainStatesAt(cs, ss, x, |filters|, index);
      output := f.Transform(input);
    }

    /** Gives filter i the APF1 coefficients of band i for this modulation; states are kept. */
    method UpdateCoefficients(modulation: real)
      requires Valid()
      modifies filters
      ensures CoefficientsOf(filters) == Refreshed(Cfg(), modulation)
      ensures StatesOf(filters) == old(StatesOf(filters))
    {
      ghost var target := Refreshed(Cfg(), modulation);
      ghost var states := StatesOf(filters);
      for index := 0 to |filters|
        invariant forall j {:trigger target[j]} :: 0 <= j < index ==> filters[j].coefficients == target[j]
        invariant forall j :: 0 <= j < |filters| ==> filters[j].state == states[j]
      {
        SetBand(index, modulation, target);
      }
      CoefficientsAre(filters, target);
      StatesAre(filters, states);
    }

    /** Gives filter `index` the APF1 coefficients of its band at the modulated frequency. */
    method SetBand(index: nat, modulation: real, ghost target: seq<Coefficients>)
      requires Chain() && index < |filters| && target == Refreshed(Cfg(), modulation)
      modifies filters[index]
      ensures filters[index].coefficients == target[index]
      ensures filters[index].state == old(filters[index].state)
      ensures forall j :: 0 <= j < |filters| && j != index ==> filters[j].state == old(filters[j].state)
      ensures forall j :: 0 <= j < |filters| && j != index ==> filters[j].coefficients == old(filters[j].coefficients)
    {
      var band := bands[index];
      var frequency := bipolarModulation(modulation, band.frequencyMin, band.frequencyMax);
      filters[index].SetCoefficients(APF1(libm, sampleRate, frequency));
    }
  }
}
