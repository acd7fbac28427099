# SimplyPhaser: a verified model of the phaser kernel

SimplyPhaser is an audio unit: a six-stage phaser whose all-pass filters are
swept by a low-frequency oscillator (LFO). This project models its C++ DSP
core in Dafny and proves properties of the model. The core has four parts,
one Dafny module each, plus a small shared `Numeric` module.

- `Biquad` (biquad.dfy, from `Shared/Kernel/Biquad.h`). It covers:
  - the five-field coefficient record, its single-field updaters and its generators (LPF1, HPF1, LPF2, HPF2, APF1, APF2);
  - the four-register filter state;
  - `forceMinToZero`;
  - the four update topologies and their storage components;
  - the `Filter` class. Its `setCoefficients`, `reset` and `transform` each change one of its two fields.
- `PhaseShifter` (phase_shifter.dfy, from `Shared/Kernel/PhaseShifter.h`). This is the cascade of one-pole all-pass filters. It is a class over a sequence of filter objects, with:
  - the throttled coefficient-refresh counter;
  - the cumulative-product `gammas` vector;
  - the weighted feedback sum;
  - the serial chain.

  Each imperative method is proved against a value-level function. `Process` computes `ProcessSpec`.
- `EventProcessor` (event_processor.dfy, from `Shared/Kernel/KernelEventProcessor.h`). This is the render protocol: a block is split at the event times, and the events whose time has come are applied between segments.
  - `Render` returns the trace of calls that the loop makes into the kernel (`RenderFrames`, parameter events, MIDI events).
  - The processor class holds the bypass flag, the attached buffer lists and the per-channel sample pointers.
  - In bypass, `RenderFrames` is a memcpy per channel.
- `Kernel` (kernel.dfy, from `Shared/Kernel/SimplyPhaserKernel.h`). This is the phaser kernel. It holds:
  - the parameter table, with percentages stored as fractions;
  - one phase shifter per channel;
  - the LFO, which is saved before a render and restored for every channel after the first. `doRendering` advances the LFO once per frame within each channel, so every channel sees the same LFO sequence and the LFO ends `frameCount` steps on;
  - the dry/wet mix;
  - `processAndRender`, which ties the kernel to the processor.

  Parameter events take effect immediately: a `ParameterRamp` event is applied like a plain set. `initialize` builds every shifter with the `ideal` bands (16 Hz to 20480 Hz, `PhaseShifter.h` lines 32-39) and an update rate of 20.

  A filter with all-zero coefficients outputs 0 from any history in the Direct and Canonical forms; in the two transposed forms it does so only from cleared x registers (`ZeroCoefficientsAreSilent`).

  The kernel executes the processor's trace. The schedule depends only on the event times and the frame count, so executing the trace after recording it gives the same calls in the same order as interleaving them.

## Model

| member | source | states |
|---|---|---|
| Biquad.Coefficients.A0 | Shared/Kernel/Biquad.h:24 | the copy has a0 replaced; putting the old a0 back gives the original record (only a0 changes) |
| Biquad.Coefficients.A1 | Shared/Kernel/Biquad.h:25 | only a1 changes |
| Biquad.Coefficients.A2 | Shared/Kernel/Biquad.h:26 | only a2 changes |
| Biquad.Coefficients.B1 | Shared/Kernel/Biquad.h:27 | only b1 changes |
| Biquad.Coefficients.B2 | Shared/Kernel/Biquad.h:28 | only b2 changes |
| Biquad.LPF1 | Shared/Kernel/Biquad.h:37-41 | shape a0 = a1, a2 = b2 = 0; numerator equals denominator at DC (unit gain); zero at Nyquist |
| Biquad.HPF1 | Shared/Kernel/Biquad.h:44-48 | shape a1 = -a0, a2 = b2 = 0; zero at DC; unit gain at Nyquist |
| Biquad.LPF2 | Shared/Kernel/Biquad.h:51-58 | shape a1 = 2·a0, a2 = a0; unit gain at DC; double zero at Nyquist |
| Biquad.HPF2 | Shared/Kernel/Biquad.h:61-68 | shape a2 = a0, a1 = -2·a0; zero at DC; unit gain at Nyquist |
| Biquad.APF1 | Shared/Kernel/Biquad.h:71-75 | shape (alpha, 1, 0, alpha, 0), with alpha = (tan - 1)/(tan + 1) at pi·f/fs; all-pass: the gain magnitude is 1 at DC and at Nyquist |
| Biquad.APF2TanArgument | Shared/Kernel/Biquad.h:79-81 | the tangent argument is at most 0.95·pi/2, is pi·(f/Q)/fs below that bound, and is clamped to the bound otherwise |
| Biquad.APF2 | Shared/Kernel/Biquad.h:78-86 | the numerator is the denominator reversed (a0 = b2, a1 = b1, a2 = 1), with the clamped argument; unit gain at DC and at Nyquist |
| Biquad.ForceMinToZero | Shared/Kernel/Biquad.h:109-112 | the result is 0 or the argument unchanged; a nonzero result has magnitude at least FLT_MIN; an argument of magnitude at least FLT_MIN is kept |
| Biquad.DirectStep | Shared/Kernel/Biquad.h:118-132 | the registers shift (x_z2 gets the old x_z1, x_z1 the input, y_z2 the old y_z1, y_z1 the output); the output is the flushed a0·input plus the storage component; zero coefficients give output 0 whatever the history |
| Biquad.CanonicalStep | Shared/Kernel/Biquad.h:138-147 | x_z2 gets the old x_z1; y_z1 and y_z2 are untouched; zero coefficients give output 0 |
| Biquad.DirectTransposeStep | Shared/Kernel/Biquad.h:153-164 | with zero coefficients the output is the flushed old x_z1, x_z1 gets the old x_z2, and x_z2 gets 0 |
| Biquad.CanonicalTransposeStep | Shared/Kernel/Biquad.h:170-177 | the output is the flushed a0·input plus the storage component x_z1; y_z1 and y_z2 are untouched; with zero coefficients x_z1 gets the old x_z2 and x_z2 gets 0 |
| Biquad.ZeroCoefficientsAreSilent | Shared/Kernel/Biquad.h:118-177 | all-zero coefficients output 0 for every input sequence: from any history for Direct and Canonical, and from cleared x registers for the transposed forms |
| Biquad.Step | Shared/Kernel/Biquad.h:115-178 | the Direct and transposed canonical forms output the flushed a0·input plus their storage component (`storageComponent`, lines 129-132 and 177); zero coefficients keep a silent state silent and output 0 |
| Biquad.Filter.constructor | Shared/Kernel/Biquad.h:195 | the given coefficients, with zero state |
| Biquad.Filter.Default | Shared/Kernel/Biquad.h:197 | zero coefficients and zero state |
| Biquad.Filter.SetCoefficients | Shared/Kernel/Biquad.h:202-207 | the coefficients are replaced and the state is kept |
| Biquad.Filter.Reset | Shared/Kernel/Biquad.h:212 | the state is zeroed and the coefficients are kept |
| Biquad.Filter.Transform | Shared/Kernel/Biquad.h:217 | the output and the new state are the topology's step; the coefficients are kept |
| Biquad.Filter.GainValue | Shared/Kernel/Biquad.h:222 | the gain is the a0 coefficient |
| Biquad.Filter.Storage | Shared/Kernel/Biquad.h:227 | for the Direct and transposed canonical forms, the next output is the flushed a0·x plus this value for every input x; the Canonical and transposed direct forms give 0 |
| PhaseShifter.InitialState | Shared/Kernel/PhaseShifter.h:50-55 | the constructed state has one coefficient record and one filter state per band, counter 0, every band's APF1 coefficients for modulation 0, zero filter states, and bands + 1 gammas that are all 1 |
| PhaseShifter.Refreshed | Shared/Kernel/PhaseShifter.h:100-107 | one record per band, each of APF1 shape |
| PhaseShifter.BandCoefficients | Shared/Kernel/PhaseShifter.h:103-105 | band i's record has APF1 shape and is all-pass: unit gain magnitude at DC and at Nyquist |
| PhaseShifter.Gammas | Shared/Kernel/PhaseShifter.h:79-81 | bands + 1 entries; gamma 0 is 1; the last gamma is the product of all gains |
| PhaseShifter.GammasStep | Shared/Kernel/PhaseShifter.h:80 | gamma i is the gain of filter n - i times gamma i - 1, the loop's recurrence |
| PhaseShifter.GammasExtend | Shared/Kernel/PhaseShifter.h:79-81 | one turn of the gamma loop extends the agreement with Gammas by one entry |
| PhaseShifter.GammasComplete | Shared/Kernel/PhaseShifter.h:79-81 | after the loop, the vector equals Gammas of the gains |
| PhaseShifter.Storages | Shared/Kernel/PhaseShifter.h:86 | each filter's storage component is its x_z1 register |
| PhaseShifter.ChainInput | Shared/Kernel/PhaseShifter.h:90 | with intensity 0 the chain input is the raw input |
| PhaseShifter.WeightedSum | Shared/Kernel/PhaseShifter.h:84-87 | with every storage value 0 (a fresh or reset shifter) the weighted feedback sum is 0 |
| PhaseShifter.FeedbackInput | Shared/Kernel/PhaseShifter.h:78-90 | intensity 0 passes the input through; with every x_z1 register cleared the feedback sum is 0 and the input is only normalised by the product of all gains |
| PhaseShifter.ChainStatesAt | Shared/Kernel/PhaseShifter.h:91-93 | filter j's new state is one transposed-canonical step of its old state, on the output of filters 0 .. j - 1 |
| PhaseShifter.NextCounter | Shared/Kernel/PhaseShifter.h:73-76 | a counter in [0, max(N, 1)] stays in [1, max(N, 1)] after a call |
| PhaseShifter.ProcessSpec | Shared/Kernel/PhaseShifter.h:68-96 | one call keeps the shape: one record and one state per band |
| PhaseShifter.ProcessFacts | Shared/Kernel/PhaseShifter.h:68-96 | intensity is kept; coefficients are refreshed exactly when the counter has reached N; the new gammas are those of the coefficients in use; the counter steps as NextCounter says and stays in range; APF1 shape is kept; with intensity 0 the output is the plain serial cascade |
| PhaseShifter.CoefficientsInUse | Shared/Kernel/PhaseShifter.h:73-76 | one record per band |
| PhaseShifter.RunSpec | Shared/Kernel/PhaseShifter.h:68-96 | successive calls give one output per input and keep the shape |
| PhaseShifter.CounterAfterValue | Shared/Kernel/PhaseShifter.h:73-76 | with N >= 1, after k >= 1 calls of a fresh or reset shifter the counter is ((k - 1) mod N) + 1 |
| PhaseShifter.RefreshSchedule | Shared/Kernel/PhaseShifter.h:73-76 | with N >= 1, call k of a fresh or reset shifter refreshes exactly when k > N and (k - 1) mod N = 0: first on call N + 1, then every N calls |
| PhaseShifter.RunSpecCounter | Shared/Kernel/PhaseShifter.h:73-76 | k calls of a fresh or reset shifter leave its counter at CounterAfter(k) |
| PhaseShifter.NewFilters | Shared/Kernel/PhaseShifter.h:52 | n fresh, pairwise distinct transposed canonical filters with zero state |
| PhaseShifter.PhaseShifter.constructor | Shared/Kernel/PhaseShifter.h:50-55 | one filter per band; bands + 1 gammas, all 1; counter 0; every band's APF1 coefficients for modulation 0; zero states; the whole state is InitialState |
| PhaseShifter.PhaseShifter.SetIntensity | Shared/Kernel/PhaseShifter.h:57-59 | only the intensity changes |
| PhaseShifter.PhaseShifter.Reset | Shared/Kernel/PhaseShifter.h:61-66 | the counter becomes 0 and every filter state becomes zero; the coefficients are kept |
| PhaseShifter.PhaseShifter.Process | Shared/Kernel/PhaseShifter.h:68-96 | the output and the new shifter state are ProcessSpec's |
| PhaseShifter.PhaseShifter.Tick | Shared/Kernel/PhaseShifter.h:73-76 | the counter steps (to 1 after a refresh); the coefficients are refreshed when due; filter states are kept |
| PhaseShifter.PhaseShifter.FeedbackAdjusted | Shared/Kernel/PhaseShifter.h:78-90 | the gammas become those of the coefficients in use; the result is the feedback-adjusted chain input |
| PhaseShifter.PhaseShifter.UpdateGammas | Shared/Kernel/PhaseShifter.h:79-81 | gamma i becomes the product of the gains of the last i filters; gamma 0 stays 1 |
| PhaseShifter.PhaseShifter.UpdateGamma | Shared/Kernel/PhaseShifter.h:80 | one loop turn; gamma 0 is not written |
| PhaseShifter.PhaseShifter.FeedbackSum | Shared/Kernel/PhaseShifter.h:84-87 | the sum over filters i of gamma[n - i - 1] times the storage of filter i |
| PhaseShifter.PhaseShifter.RunChain | Shared/Kernel/PhaseShifter.h:91-93 | every filter advances once, in band order, each fed the previous one's output; the coefficients are kept |
| PhaseShifter.PhaseShifter.RunFilter | Shared/Kernel/PhaseShifter.h:92 | filter i advances on the value reaching it; no other filter changes |
| PhaseShifter.PhaseShifter.UpdateCoefficients | Shared/Kernel/PhaseShifter.h:100-107 | filter i gets the APF1 record of band i at its modulated frequency; the states are kept |
| PhaseShifter.PhaseShifter.SetBand | Shared/Kernel/PhaseShifter.h:103-105 | only filter i's coefficients change |
| EventProcessor.Dispatch | Shared/Kernel/KernelEventProcessor.h:148-160 | parameter and ramp events give one parameter call, MIDI events one MIDI call, any other kind none; no call exactly for other kinds |
| EventProcessor.DispatchRange | Shared/Kernel/KernelEventProcessor.h:147-162 | at most one call per event of the range |
| EventProcessor.EventsUntil | Shared/Kernel/KernelEventProcessor.h:147 | every event skipped is due by now; the one returned is the end of the list or later than now; a due event at the cursor is consumed |
| EventProcessor.SegmentLength | Shared/Kernel/KernelEventProcessor.h:112 | the segment reaches the event time; it is 0 or ends exactly at the event time |
| EventProcessor.RenderEventsUntil | Shared/Kernel/KernelEventProcessor.h:145-164 | returns the first event later than now and makes the calls of every earlier event, in list order |
| EventProcessor.Render | Shared/Kernel/KernelEventProcessor.h:96-122 | the segments render exactly frameCount frames, contiguously from offset 0, none empty; in a nonempty block every event's call is made once, in list order, after the frames Applied names; an empty block makes no calls |
| EventProcessor.Advance | Shared/Kernel/KernelEventProcessor.h:103-121 | one loop turn keeps the loop invariant and consumes at least one event; the segment fits in the frames left |
| EventProcessor.Turn | Shared/Kernel/KernelEventProcessor.h:112-120 | under the host's promise the segment fits, an event is consumed, and the clock then reads the latest event time applied |
| EventProcessor.FinalSegment | Shared/Kernel/KernelEventProcessor.h:106-108 | with no events left, the last segment completes the block |
| EventProcessor.FramesAppend | Shared/Kernel/KernelEventProcessor.h:114-115 | frames of a concatenated trace add up |
| EventProcessor.Clock | Shared/Kernel/KernelEventProcessor.h:99 | the clock never reads earlier than the block's start |
| EventProcessor.BatchClock | Shared/Kernel/KernelEventProcessor.h:116-120 | after a batch of due events the clock reads the time the segment moved it to |
| EventProcessor.SortedLatestTime | Shared/Kernel/KernelEventProcessor.h:112-120 | in a time-sorted list the latest time up to event i is event i's own, so the event is applied after max(0, t - start) frames |
| EventProcessor.DispatchRangeSchedule | Shared/Kernel/KernelEventProcessor.h:145-164 | a batch's calls all come after the same number of frames, the count Applied names |
| EventProcessor.AppliedSplit | Shared/Kernel/KernelEventProcessor.h:147-162 | the schedule of a range splits at any point |
| EventProcessor.ByteSize | Shared/Kernel/KernelEventProcessor.h:190 | the byte size is a 32-bit unsigned value, and equals 4·(processed + frames) when that fits |
| EventProcessor.CopyInto | Shared/Kernel/KernelEventProcessor.h:176-178 | samples lo .. lo + n - 1 come from the source and all others are kept |
| EventProcessor.UseInputBuffers | Shared/Kernel/KernelEventProcessor.h:76-82 | every output buffer becomes the corresponding input buffer |
| EventProcessor.BypassCopy | Shared/Kernel/KernelEventProcessor.h:168-181 | samples lo .. lo + n - 1 are the input's when input and output are distinct buffers; every other sample, and every sample of an in-place channel, is the output's as it was |
| EventProcessor.KernelEventProcessor.constructor | Shared/Kernel/KernelEventProcessor.h:200-209 | not bypassed, with no buffers attached |
| EventProcessor.KernelEventProcessor.SetBypass | Shared/Kernel/KernelEventProcessor.h:36 | the bypass flag is set |
| EventProcessor.KernelEventProcessor.SetBuffers | Shared/Kernel/KernelEventProcessor.h:124-135 | attaching the lists already attached changes nothing; otherwise there is one input and one output pointer per input channel, each at sample 0 of its buffer |
| EventProcessor.KernelEventProcessor.ClearBuffers | Shared/Kernel/KernelEventProcessor.h:137-143 | detached, with no pointers |
| EventProcessor.KernelEventProcessor.RenderFrames | Shared/Kernel/KernelEventProcessor.h:166-194 | bypassed: the frames of every channel with distinct buffers are copied, aliased channels are untouched, and no render is requested; otherwise: no samples change, every pointer moves to sample `processed`, the channels' byte sizes cover the frames so far, and a render is requested |
| EventProcessor.KernelEventProcessor.CopyChannels | Shared/Kernel/KernelEventProcessor.h:168-181 | each channel's output is BypassCopy of its input |
| EventProcessor.KernelEventProcessor.PointAt | Shared/Kernel/KernelEventProcessor.h:187-191 | pointers at sample `processed`; byte sizes updated for the input channels only |
| EventProcessor.KernelEventProcessor.CopySamples | Shared/Kernel/KernelEventProcessor.h:176-178 | the memcpy of one channel; no other buffer changes |
| Kernel.SetParameter | Shared/Kernel/SimplyPhaserKernel.h:33-72 | reading the address back gives the value set (depth, intensity and the mixes over the /100 then ·100 scaling); odd90 reads 1 if the value is > 0, else 0; an unknown address changes nothing; every other address reads as before |
| Kernel.SetCurrentValue | Shared/Kernel/SimplyPhaserKernel.h:37-65 | setting a parameter to the value it reads as (getParameterValue) leaves all parameters as they were |
| Kernel.ReadsDetermine | Shared/Kernel/SimplyPhaserKernel.h:74-84 | parameter values that read the same at every address are equal |
| Kernel.LfoAfterAdd | Shared/Kernel/SimplyPhaserKernel.h:105-108 | k LFO steps followed by m steps are k + m steps |
| Kernel.Modulations | Shared/Kernel/SimplyPhaserKernel.h:105-109 | frame k is modulated by the LFO reading after k steps (the quadrature reading when the channel uses it), times the depth |
| Kernel.Modulation | Shared/Kernel/SimplyPhaserKernel.h:107-109 | the modulation is the LFO reading scaled by the depth; depth 0 gives 0 |
| Kernel.Mix | Shared/Kernel/SimplyPhaserKernel.h:110 | output frame k is dryMix·input k + wetMix·shifted k |
| Kernel.ChannelSpec | Shared/Kernel/SimplyPhaserKernel.h:105-111 | one output frame per input frame; the shifter keeps its shape |
| Kernel.ChannelFramesIsSpec | Shared/Kernel/SimplyPhaserKernel.h:105-111 | the first k frames of the loop are ChannelSpec of the first k inputs |
| Kernel.ChannelIsRun | Shared/Kernel/SimplyPhaserKernel.h:105-111 | a rendered channel is the input mixed with the shifter's run over the LFO modulations and the inputs, and the shifter ends where that run ends |
| Kernel.BuiltShifter | Shared/Kernel/SimplyPhaserKernel.h:92 | the ideal bands, the sample rate, the kernel's intensity and update rate 20, in the state the PhaseShifter constructor leaves: six bands, counter 0, coefficients for modulation 0 |
| Kernel.RenderChannel | Shared/Kernel/SimplyPhaserKernel.h:101-111 | the channel's output window and new shifter state are ChannelSpec of the inputs as they were; the LFO has taken n steps; nothing outside the window changes |
| Kernel.RenderFrame | Shared/Kernel/SimplyPhaserKernel.h:106-110 | one frame: the input sample is read before its output is written, the shifter steps on the depth-scaled LFO reading and that sample, the output is the dry/wet mix, the LFO takes one step, and no other sample changes; the loop's first frames are extended by exactly this frame |
| Kernel.PhaserKernel.constructor | Shared/Kernel/SimplyPhaserKernel.h:20-21 | the given parameters and LFO state, no shifters, an idle processor |
| Kernel.PhaserKernel.SetParameterValue | Shared/Kernel/SimplyPhaserKernel.h:33-72 | the parameters become SetParameter's; the LFO gets a new frequency exactly when the rate changes; a changed intensity is pushed to every shifter, and otherwise the shifters are kept; setting the value a parameter reads as changes nothing |
| Kernel.PhaserKernel.SetIntensityPercent | Shared/Kernel/SimplyPhaserKernel.h:48-54 | the fraction is stored; when it differs, every shifter gets it |
| Kernel.PhaserKernel.DoParameterEvent | Shared/Kernel/SimplyPhaserKernel.h:96 | a parameter event sets its parameter: the kernel becomes ParameterEffect's |
| Kernel.PhaserKernel.IntensityChanged | Shared/Kernel/SimplyPhaserKernel.h:115-119 | every shifter gets the kernel's intensity, and nothing else of theirs changes |
| Kernel.PhaserKernel.Initialize | Shared/Kernel/SimplyPhaserKernel.h:89-94 | exactly channelCount shifters, each BuiltShifter (ideal bands, current intensity, update rate 20) |
| Kernel.PhaserKernel.DoRendering | Shared/Kernel/SimplyPhaserKernel.h:98-113 | every channel starts from the LFO state saved at the start; channel c uses the quadrature reading exactly when odd90 is set and c is odd, and holds ChannelSpec's output and shifter; the LFO ends frameCount steps on (unchanged with no channels); other shifters and samples are kept |
| Kernel.PhaserKernel.RenderChannelAt | Shared/Kernel/SimplyPhaserKernel.h:100-111 | a channel after the first first restores the saved LFO state; then the channel is rendered and its shifter stored back |
| Kernel.PhaserKernel.Perform | Shared/Kernel/KernelEventProcessor.h:148-194 | one call of the trace, `at` frames into the block: the kernel and the output samples of the frames it renders are ActionEffect's for the input samples as they were (bypassed: a copy of the inputs, kernel kept; otherwise SegmentEffect; a parameter event is ParameterEffect; a MIDI event changes nothing); no other sample changes |
| Kernel.PhaserKernel.Execute | Shared/Kernel/KernelEventProcessor.h:96-122 | executing a render trace leaves the kernel and each channel's first frameCount output samples as BlockRun says for the inputs as they were; bypassed, the outputs are copies of the inputs; the parameters end as the trace's parameter events, applied in order, make them |
| Kernel.Windows | Shared/Kernel/KernelEventProcessor.h:187-191 | channel c's window is samples lo .. lo + n - 1 of its buffer |
| Kernel.WindowsOfAgreeing | Shared/Kernel/KernelEventProcessor.h:166-194 | buffers that agree with the recorded inputs on a span have the inputs' slices as their windows |
| Kernel.ParameterEffect | Shared/Kernel/SimplyPhaserKernel.h:33-72 | the parameters become SetParameter's; the number and shape of the shifters are kept |
| Kernel.ParameterEffectCurrent | Shared/Kernel/SimplyPhaserKernel.h:37-65 | a parameter event carrying the value its parameter reads as leaves the kernel as it was |
| Kernel.SegmentEffect | Shared/Kernel/SimplyPhaserKernel.h:98-113 | one segment keeps the parameters and the shifters' number and shape, and gives every channel as many output samples as it has inputs |
| Kernel.SegmentOf | Shared/Kernel/SimplyPhaserKernel.h:98-113 | channels rendered as ChannelSpec says, with later shifters kept and the LFO frames steps on (still with no channels), are SegmentEffect |
| Kernel.FramesSnoc | Shared/Kernel/KernelEventProcessor.h:114-115 | a trace's frames are those before its last call plus those of the last call |
| Kernel.ActionEffect | Shared/Kernel/KernelEventProcessor.h:148-181 | bypassed and non-render calls output their inputs unchanged; the shifters keep their number and shape; one output per input frame |
| Kernel.TraceStep | Shared/Kernel/KernelEventProcessor.h:103-121 | in a contiguous trace call i renders from the frames before it, and the rest stays contiguous after it |
| Kernel.BlockRun | Shared/Kernel/KernelEventProcessor.h:96-122 | the parameters end as the trace's parameter events, applied in order, leave them; the shifters keep their number and shape; one output per input frame per channel |
| Kernel.BlockRunNone | Shared/Kernel/KernelEventProcessor.h:103 | an empty trace changes nothing and outputs its (empty) inputs |
| Kernel.BlockRunBypassed | Shared/Kernel/KernelEventProcessor.h:168-181 | a bypassed block outputs exactly its inputs on every channel |
| Kernel.BlockRunSnoc | Shared/Kernel/KernelEventProcessor.h:103-121 | the run of one more call extends the run of the calls before it by that call's effect on its own frames |
| Kernel.PhaserKernel.RenderAction | Shared/Kernel/KernelEventProcessor.h:166-194 | bypassed: the rendered frames are copies of the inputs and the kernel is kept; otherwise kernel and outputs are SegmentEffect's; no other sample changes |
| Kernel.PhaserKernel.RenderPointed | Shared/Kernel/KernelEventProcessor.h:187-193 | with the pointers at the segment, the kernel and output windows are SegmentEffect's for the inputs as they were; no other sample changes |
| Kernel.PhaserKernel.ExecuteStep | Shared/Kernel/KernelEventProcessor.h:103-121 | one call of the trace keeps the loop state: the frames done so far hold BlockRun's outputs and the kernel is BlockRun's value |
| Kernel.PhaserKernel.Performed | Shared/Kernel/KernelEventProcessor.h:103-121 | what Perform leaves, after the loop state at call i, is the loop state at call i + 1 |
| Kernel.PhaserKernel.ExecutedWhole | Shared/Kernel/KernelEventProcessor.h:96-122 | the loop state at the end of the trace is BlockRun of the whole trace; bypassed, the outputs are the inputs |
| Kernel.PhaserKernel.RenderInto | Shared/Kernel/KernelEventProcessor.h:84-86 | with the buffers attached, the trace is scheduled and carried out: frameCount frames in contiguous segments, every event once and in order, the kernel and the outputs BlockRun's |
| Kernel.PhaserKernel.ProcessAndRender | Shared/Kernel/KernelEventProcessor.h:64-89 | a failed pull returns its status with no calls and no object or sample changed; the bypass flag is kept; otherwise, in place when the first output buffer is missing (output buffers become the input buffers); exactly frameCount frames are rendered in contiguous segments with every event applied once, in order; the kernel and the output samples are BlockRun's for the inputs as they were (copies of the inputs when bypassed); the processor is left detached; noErr |

## Left out

- IEEE floating point. Samples and parameters are mathematical reals. `AUValue` is a 32-bit float in the source, so its float/double comparisons and rounding (for example `value / 100.0 == depth_` and the round trip of a percentage) are not modelled.
- Numeric.Div: a zero divisor gives 0, since reals have no infinity or NaN.
- `cos`, `sin`, `tan` and `M_PI` are passed in as an uninterpreted `Libm` value, and so is `DSP::bipolarModulation`. No accuracy claims about coefficient values are made.
- The LFO is not part of this model. It is an abstract state type with `value`, `quadPhaseValue`, `increment` and `setFrequency` given as functions. `saveState`/`restoreState` are a copy of that state.
- The kernel holds its shifters as values (configuration and state, stepped by `ProcessSpec`) and does not call the `PhaseShifter` class. `PhaseShifter.Process` is proved to compute `ProcessSpec`. What the model then does not capture is object identity of the shifters inside the kernel's vector.
- `InputBuffer.h` is not part of this model. The pull of input samples is folded into the `pullStatus` argument of `ProcessAndRender`. The input buffer list it fills is a parameter.
- `os_log` calls: logging only.
- `startProcessing`/`stopProcessing` only allocate and release the input buffer; `initialize` is modelled as `Initialize`.
- `Kernel.hpp`, `FilterDSPKernel.h` and the framework and bridge headers are not part of this model. They are a composition over headers not shown (ramping parameters), a stale variant and umbrella headers.
- Ramping: a `ParameterRamp` event is applied like a plain parameter event, as the source does; its ramp duration is carried but unused.
- Threading and real-time constraints.
- EventProcessor.Render: the block's start time is an `int`. The source converts `timestamp->mSampleTime` (a double) to `AUEventSampleTime` (64-bit) with truncation (`KernelEventProcessor.h` line 99); that conversion is not modelled.
- PhaseShifter.PhaseShifter.constructor: the update rate is always passed. The source's default of 10 for `samplesPerFilterUpdate` (`PhaseShifter.h` line 50) is not modelled, since the kernel always passes 20.
- Kernel.PhaserKernel.constructor: takes the initial parameter values `p`. The source constructor leaves `rate_` through `odd90_` uninitialised (`SimplyPhaserKernel.h` lines 20-21 and 123-128) until the host sets them; reading them before that is not modelled.
- The `zip` helper of `PhaseShifter.h` is unused and not modelled.
- `Biquad.h`'s second `setCoefficients` overload (an rvalue reference) is the same operation as the first.
- EventProcessor.Render: requires the host's promise that every event time is at most `timestamp + frameCount`. The source does not check it, and its unsigned `framesRemaining` would wrap.
- Kernel.PhaserKernel.DoRendering: requires a shifter for every channel (`|ins| <= |shifters|`). The source indexes `phaseShifter_[channel]` unchecked.
- Kernel.PhaserKernel.ProcessAndRender: requires input and output lists with the same number of buffers, non-null input buffers long enough for the block, and distinct buffers per channel. The source indexes and copies them unchecked.
