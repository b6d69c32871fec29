# Wavetable synth core of the plugin kernel

This project models the synth engine of `PluginKernel/plugincore.cpp`, a
software instrument with two wavetable oscillators, two LFOs, AM/FM routing,
a gain-control filter and a bilinear one-pole lowpass. The model covers five
pieces:

- **Table fill in `initialize`.** The sine table; the naive sawtooth,
  triangle and square tables, written as exact piecewise-linear values; and
  the three band-limited tables, built as harmonic sums while their running
  maxima are tracked and then divided by those maxima.
- **`cook_frequency_osc` and `linear_interpolation`.**
- **`do_oscillate` and `do_LFO`.** The phase accumulators that read a table
  at a fractional position and advance the read position.
- **The `postUpdatePluginParameter` dispatch.** Which control recomputes
  which increment or coefficient.
- **The synth branch of `processAudioFrame`.** The silence rule, the FM
  recompute, AM routing, the volume mix, the gain-filter recurrence and the
  lowpass recurrence, with the result copied to the second channel when the
  output is stereo.

The project has four modules:

- **`WaveTables`** (`wavetables.dfy`): the sample formulas, the harmonic
  sums, the running peak and normalisation.
- **`Phase`** (`phase.dfy`): the frequency cooker, the interpolator, the
  table read at a fractional position, the phase advance and the FM rule.
- **`Filters`** (`filters.dfy`): the AM routing, the mix, the gain filter and
  the lowpass, each as one step and as a run over a sequence of inputs.
- **`PluginKernel`** (`plugincore.dfy`): the class `PluginCore`. Its fields
  are the state of the plugin's `.cpp`: seven 1024-entry arrays, the control
  variables, four read positions and four increments, and the filter
  coefficients and delays. Its methods update that state in place, in the
  source's order, except that `Initialize` cooks the increments first,
  before the filter state and the tables, where the code cooks them last. Neither part reads what
  the other writes, so the order has no effect on the result.

Arithmetic is over `real`. The C library's `sin` and `tan` are parameters of
the methods that call them (`sine`, `tangent`). `pow(-1, g)` and
`pow(2n+1, 2)` have whole-number exponents and are written out exactly.
`(int)` applied to a non-negative read position is `Floor`.

**What the code does where a reader might expect otherwise:**

- **Stream reset.** `reset` (`PluginKernel/plugincore.cpp:307-315`) stores
  the sample rate and the bit depth and recomputes nothing. The bit depth is
  not modelled, so `PluginCore.Reset` changes only `sampleRate`.
- **Lowpass tangent argument.** The cutoff hook computes K as
  `tan(2*pi*fc/fs)` (`PluginKernel/plugincore.cpp:837`), and the model passes
  that same argument, `TwoPi * cutoffControl / sampleRate`, to the tangent.
- **Read-position wrap.** `do_oscillate` and `do_LFO` wrap a read position
  only when it passes 1024 (`PluginKernel/plugincore.cpp:1194-1197` and
  `1260-1263`). The class advances its positions the same way, with
  `Phase.Advance`, so a position can sit at exactly 1024. A read there would
  fall one entry past the end of a table. The frame methods therefore
  require every position they read to be below 1024, and
  `PluginCore.FrameLeavesTableLength` shows one frame that leaves a sounding
  oscillator at 1024.

## Model

| member | source | states |
|---|---|---|
| WaveTables.SawSample | PluginKernel/plugincore.cpp:377 | the naive sawtooth is i/512 below 512 and (i-511)/512 - 1 from 512 on, so it lies strictly inside (-1, 1) |
| WaveTables.TriangleSample | PluginKernel/plugincore.cpp:380-385 | the naive triangle lies in [-1, 1], is 1 exactly at 256 and -1 exactly at 768, and is 0 at 0 and 512 |
| WaveTables.SquareSample | PluginKernel/plugincore.cpp:388-391 | the naive square is 0 exactly at entry 1, positive exactly at 0 and 2..511, negative exactly from 512 on, and otherwise ±1 |
| WaveTables.Peak | PluginKernel/plugincore.cpp:419-436 | the maximum tracked as the table is filled is an entry of the table and no entry exceeds it |
| WaveTables.NormalizedPeakIsOne | PluginKernel/plugincore.cpp:419-446 | with a positive maximum, no normalised entry exceeds 1 and some entry is exactly 1 |
| WaveTables.NormalizedSign | PluginKernel/plugincore.cpp:440-446 | dividing by a positive maximum keeps the sign of every entry |
| WaveTables.PeakPositive | PluginKernel/plugincore.cpp:419-436 | a table with a positive entry has a positive tracked maximum |
| WaveTables.BandTablesOddSymmetric | PluginKernel/plugincore.cpp:398-417 | with a sine that is odd and repeats every whole turn, each band-limited sum is 0 at entry 0 and its entry 1024 - k is minus its entry k |
| WaveTables.NormalizedOddAboveMinusOne | PluginKernel/plugincore.cpp:419-446 | an odd-symmetric table divided by its positive maximum lies entirely in [-1, 1] |
| Phase.CookFrequencyInverse | PluginKernel/plugincore.cpp:1086-1092 | the increment times the sample rate over 1024 gives back the frequency |
| Phase.CookFrequencyIncreasing | PluginKernel/plugincore.cpp:1086-1092 | for a positive sample rate the increment is positive and strictly increasing on positive frequencies |
| Phase.CookFrequencyBelowTableLength | PluginKernel/plugincore.cpp:1086-1092 | the increment is below 1024 if and only if the frequency is below the sample rate, at most 1024 if and only if the frequency is at most the sample rate, and non-negative if and only if the frequency is |
| Phase.LinearInterpolation | PluginKernel/plugincore.cpp:1095-1102 | the result is y1 at x1 and y2 at x2, and it lies on the straight line through the two points |
| Phase.UnitInterpolation | PluginKernel/plugincore.cpp:1095-1102 | between control points 0 and 1 the result is y1 + frac (y2 - y1), and it lies between y1 and y2 for frac in [0, 1] |
| Phase.NextIndex | PluginKernel/plugincore.cpp:1133-1135 | for an index in [0, 1023] the next index is index + 1 wrapped modulo 1024, inside [0, 1023] |
| Phase.TableSample | PluginKernel/plugincore.cpp:1125-1143 | the integer part of a position in [0, 1024) indexes the table; at a whole position the read is that entry, otherwise it lies between that entry and the next |
| Phase.TableSampleBounded | PluginKernel/plugincore.cpp:1125-1143 | a table whose entries lie in [lo, hi] reads as a value in [lo, hi] at every position |
| Phase.Advance | PluginKernel/plugincore.cpp:1189-1197 | the as-written advance adds the increment and subtracts 1024 at most once; from [0, 1024] it stays in [0, 1024], with 1024 included |
| Phase.AdvanceLandsOnTableLength | PluginKernel/plugincore.cpp:1194-1195 | a position and an increment below 1024 whose sum is exactly 1024 leave the as-written read position at 1024, whose integer part is one past the last entry |
| Phase.AdvanceOutOfTable | PluginKernel/plugincore.cpp:1260-1261 | some position and increment in [0, 1024) lead the as-written advance out of the table |
| Phase.AdvanceAgreesBelowTableLength | PluginKernel/plugincore.cpp:1194-1197 | the as-written and corrected advances agree if and only if the sum is not exactly 1024; at 1024 the first stays at 1024 and the second wraps to 0 |
| Phase.AdvanceWrapped | PluginKernel/plugincore.cpp:1189-1197 | the corrected advance keeps every position in [0, 1024) and differs from the sum by 0 or 1024 |
| Phase.AdvanceWrappedIsMod | PluginKernel/plugincore.cpp:1189-1197 | one corrected advance is the sum reduced modulo 1024 |
| Phase.AdvanceWrappedTimes | PluginKernel/plugincore.cpp:1189-1197 | any number of corrected advances stays in [0, 1024) |
| Phase.AdvanceWrappedTimesIsMod | PluginKernel/plugincore.cpp:1189-1197 | after n corrected advances the position is the start plus n increments, reduced modulo 1024 |
| Phase.FmFrequency | PluginKernel/plugincore.cpp:569 | an LFO sample in [-1, 1] moves the frequency by at most 20 Hz, and an LFO sample of 0 leaves it unchanged |
| Phase.FmIncrementInRange | PluginKernel/plugincore.cpp:565-575 | a base frequency in the control range 25..4200 Hz under an LFO sample in [-1, 1] is at least 5 Hz, and its increment lies in (0, 1024) |
| Filters.AmRouteProperties | PluginKernel/plugincore.cpp:580-597 | without AM the oscillator sample passes unchanged; with AM an LFO sample of 0 silences it, a negative one flips a positive sample's sign, and one in [-1, 1] never amplifies it |
| Filters.MixBound | PluginKernel/plugincore.cpp:599 | with volumes at least 0 and samples in [-1, 1] the mix stays within half the summed volumes; with the second volume at 0 it is half the first oscillator at its volume |
| Filters.GainFilterRun | PluginKernel/plugincore.cpp:603-614 | over a run of inputs every output is a0 times its input plus alfa times the previous input (the delay on the first), never a previous output |
| Filters.GainFilterIdentity | PluginKernel/plugincore.cpp:603-614 | with a0 = 1 and alfa = 0 the gain filter passes every input unchanged |
| Filters.BilinearLowpass | PluginKernel/plugincore.cpp:837-840 | b0 = b1 and b0 + b1 - a1 = 1; for K > 0, a1 lies in (-1, 1) and b0 lies in (0, 1) |
| Filters.LowpassUnityDcGain | PluginKernel/plugincore.cpp:837-840 | for K > 0 the DC gain (b0 + b1) / (1 + a1) is exactly 1 |
| Filters.LowpassRun | PluginKernel/plugincore.cpp:616-627 | over a run of inputs the first output is b0 x + b1 x1 - a1 y1 from the starting delays, and every later output is b0 times its input plus b1 times the previous input minus a1 times the previous output |
| Filters.LowpassHoldsDc | PluginKernel/plugincore.cpp:616-627 | with coefficients of unity DC gain, delays at d and every input at d, every output is d |
| PluginKernel.PluginCore.OscTable | PluginKernel/plugincore.cpp:1140-1161 | the table an oscillator reads is one of the seven, and the sine type always reads the sine table |
| PluginKernel.PluginCore.constructor | PluginKernel/plugincore.cpp:72-186 | seven fresh, distinct 1024-entry tables; every control at its registered default; the given sample rate and starting read positions; increments and filter state unconstrained |
| PluginKernel.PluginCore.Reset | PluginKernel/plugincore.cpp:307-315 | a stream reset stores the new sample rate and changes nothing else |
| PluginKernel.PluginCore.AddSawHarmonics | PluginKernel/plugincore.cpp:398-403 | the six sawtooth harmonics are added into entry i of the band-limited sawtooth, and no other entry changes |
| PluginKernel.PluginCore.AddTriangleHarmonics | PluginKernel/plugincore.cpp:405-410 | the triangle harmonics 1, 3, 5 and 7 are added into entry i of the band-limited triangle, and no other entry changes |
| PluginKernel.PluginCore.AddSquareHarmonics | PluginKernel/plugincore.cpp:412-417 | the square harmonics 1, 3 and 5 are added into entry i of the band-limited square, and no other entry changes |
| PluginKernel.PluginCore.FillNaiveEntry | PluginKernel/plugincore.cpp:374-391 | writing entry i of the sine and naive tables extends the filled prefix by one |
| PluginKernel.PluginCore.FillBandEntry | PluginKernel/plugincore.cpp:393-417 | clearing entry i of the band-limited tables and adding its harmonics extends the filled prefix by one |
| PluginKernel.PluginCore.TrackPeak | PluginKernel/plugincore.cpp:419-436 | taking entry 0 as it is, and later entries only when strictly greater, keeps the maximum equal to the peak of the entries so far |
| PluginKernel.PluginCore.TrackPeaks | PluginKernel/plugincore.cpp:419-436 | the three tracked maxima cover one more entry of their tables |
| PluginKernel.PluginCore.FillTables | PluginKernel/plugincore.cpp:370-437 | after the first loop every table entry holds its sample, and the three tracked maxima are the peaks of the whole band-limited sums |
| PluginKernel.PluginCore.NormalizeTables | PluginKernel/plugincore.cpp:439-446 | the second loop leaves each band-limited table as its previous contents divided by its maximum |
| PluginKernel.PluginCore.BuildTables | PluginKernel/plugincore.cpp:370-446 | both loops leave the sine and naive tables filled, the sine table inside [-1, 1], each band-limited table equal to its harmonic sum divided by that sum's peak, and every band-limited table at most 1 everywhere and exactly 1 somewhere |
| PluginKernel.PluginCore.SineTableBounded | PluginKernel/plugincore.cpp:374 | with a sine inside [-1, 1] the filled sine table lies inside [-1, 1] |
| PluginKernel.PluginCore.NormalizedTableBounds | PluginKernel/plugincore.cpp:439-446 | a table holding a normalised sum is at most 1 everywhere and exactly 1 somewhere |
| PluginKernel.PluginCore.BandTablesWithinUnit | PluginKernel/plugincore.cpp:394-446 | with a sine that is odd and repeats every whole turn, every normalised band-limited entry lies in [-1, 1] |
| PluginKernel.PluginCore.CookFrequencyOsc | PluginKernel/plugincore.cpp:1086-1092 | the increment is 1024 times the frequency over the current sample rate, and lies in [0, 1024) for a frequency in [0, sample rate) |
| PluginKernel.PluginCore.CookIncrements | PluginKernel/plugincore.cpp:451-460 | the four increments are cooked from the four current frequencies |
| PluginKernel.PluginCore.InitializeControls | PluginKernel/plugincore.cpp:328-338 | the gain filter starts with alfa 1 and a0 equal to the gain control, the lowpass cutoff is the cutoff control, every delay is 0, and the increments are cooked |
| PluginKernel.PluginCore.Initialize | PluginKernel/plugincore.cpp:323-463 | one-time initialisation leaves the filter state as InitializeControls does, the sine and naive tables filled, each band-limited table equal to its harmonic sum divided by its peak (at most 1, with a 1), the four increments cooked, and the object invariant kept |
| PluginKernel.PluginCore.DoLfo | PluginKernel/plugincore.cpp:1204-1268 | each LFO is the sine table read at its previous position, or 0 when not gated on (LFO 2 is gated by oscillator 2's switch); both samples lie in [-1, 1]; both positions advance by their increments with the code's wrap, which keeps a sum of exactly 1024; a position read must be below 1024 |
| PluginKernel.PluginCore.DoOscillate | PluginKernel/plugincore.cpp:1104-1202 | each oscillator is the table chosen by its type and mode, read at its previous position, or 0 when switched off or of no known type; both positions advance by their increments with the code's wrap, which keeps a sum of exactly 1024; a position read must be below 1024 |
| PluginKernel.PluginCore.PostUpdatePluginParameter | PluginKernel/plugincore.cpp:757-844 | IDs 12, 18, 22 and 28 always recook their increment, and 10, 17, 20 and 27 only when their start switch is on; 41 copies the gain into a0; 51 recomputes the lowpass from K = tan(2 pi fc / fs); every other increment and coefficient keeps its value, and any other ID changes nothing |
| PluginKernel.PluginCore.RenderSources | PluginKernel/plugincore.cpp:562-578 | the LFOs are read and advanced; an oscillator whose LFO is on and in FM mode has its increment recooked from its frequency plus 20 times the LFO sample; the oscillators are read at their previous positions and advanced by the new increments; every advance keeps a sum of exactly 1024, as the code does |
| PluginKernel.PluginCore.RenderFrame | PluginKernel/plugincore.cpp:555-627 | as RenderSources, and then: AM applies only when the LFO is on and in AM mode; the mix is vol1/2 s1 + vol2/2 s2; the gain filter's delay takes the mix; the lowpass's input delay takes the gain filter's output and its output delay the lowpass output, which is the frame's result |
| PluginKernel.PluginCore.ProcessAudioFrame | PluginKernel/plugincore.cpp:543-635 | with both oscillators off, channel 0 (and channel 1 when stereo) is 0 and no state changes; otherwise the state advances by one rendered frame, with the code's wrap, and channel 0 (and channel 1 when stereo) holds the lowpass output; no other frame entry changes; a sounding frame requires the positions it reads to be below 1024 |
| PluginKernel.PluginCore.FrameLeavesTableLength | PluginKernel/plugincore.cpp:1189-1197 | from a state whose reads all lie inside the tables, one frame of oscillator 1 at increment 24 from position 1000 leaves its position at 1024, and the next frame's read is outside the tables |

## Findings

| source | as written | input that shows it | evidently intended | confidence | as-written member | corrected member |
|---|---|---|---|---|---|---|
| PluginKernel/plugincore.cpp:1194-1197, 1260-1263 | the read position wraps only when the sum is strictly greater than 1024, so a sum of exactly 1024 is kept; the next call truncates it to index 1024 and reads one past the end of a 1024-entry table | position 1000 with increment 24 | wrap when the sum reaches 1024 (`>=`), which keeps every position in [0, 1024), the sum modulo 1024 | not executed | Phase.AdvanceLandsOnTableLength | Phase.AdvanceWrappedIsMod |

The class keeps the code's wrap, `Phase.Advance`, and
`PluginCore.FrameLeavesTableLength` reaches the out-of-table state through
one `ProcessAudioFrame`. `Phase.AdvanceWrapped` is the intended wrap, with its
modulo properties proved. As `Phase.AdvanceAgreesBelowTableLength` states, the
two differ only when the sum is exactly 1024.

## Left out

- Plugin SDK glue is not part of this model: I/O combinations, parameter registration other than the default values, GUI attributes, presets, descriptors, MIDI, `processMessage`, `guiParameterChanged` and `setVectorJoystickParameters`. These are framework adapters with no synth logic.
- Framework calls (`fireMidiEvents`, `doSampleAccurateParameterUpdates`, `getSampleRate`, `getPluginType`) are not modelled. The sample rate is a field set by the constructor and by `Reset`, and the plugin is taken to be the synth type, so the FX pass-through branch is left out.
- `plugincore.h` is not part of this model: its declarations belong to a different filter plugin. Its stale no-argument `reset()`, which `initialize` calls at `PluginKernel/plugincore.cpp:450`, clears a `read_index` member the synth never reads. The starting read positions are parameters of the constructor instead.
- `sin`, `tan` and `pow` are not evaluated: `sin` and `tan` are parameters, and `pow` with whole exponents is written out exactly.
- IEEE 754 rounding, infinities and NaN are not modelled: arithmetic is over `real`.
- PluginKernel.PluginCore.Initialize: requires each band-limited harmonic sum to have a positive sample. Otherwise the code divides by a maximum of 0 or below; for the true sine every sum is positive somewhere.
- PluginKernel.PluginCore.PostUpdatePluginParameter: for ID 51, requires `tangent(2 pi fc / fs)` to differ from -1. The code would divide by zero there, and that infinity is not a real.
- PluginKernel.PluginCore.constructor: the sample rate must exceed 4220 Hz, the top of the oscillator range plus the FM depth. Below that an increment could reach 1024 and a single advance could skip past the whole table. Every sample rate a host uses meets this.
- PluginKernel.PluginCore.Reset: the new sample rate must also exceed 4220 Hz, for the same reason, while the code's `reset` accepts any rate.
- PluginKernel.PluginCore.constructor: the increments, the gain-filter and lowpass coefficients, and the delays are left unconstrained. The source leaves the increments and the gain-filter coefficients and delays uninitialised until `initialize`, and the lowpass coefficients until the cutoff hook (ID 51, `PluginKernel/plugincore.cpp:834-840`) first runs.
- PluginKernel.PluginCore.Reset: the bit depth that the code's `reset` also stores (`PluginKernel/plugincore.cpp:311`) and the call to the framework's own `reset` are not modelled; nothing in the synth path reads them.
- PluginKernel.PluginCore.ProcessAudioFrame: a sounding frame requires every read position it reads to be below 1024. At exactly 1024, which the code's wrap can leave, the code reads one entry past the end of a table; that read has no defined value, so the model gives it none.
- PluginKernel.PluginCore.BandTablesWithinUnit: the lower bound -1 on the band-limited tables is proved only for a sine that is odd and repeats every whole turn. It rests on the odd symmetry of each harmonic sum, since the code divides by the maximum and not by the largest magnitude. `Initialize` itself promises only the upper bound and the contents.
- The envelope generator and the feed-forward and feedback filters are not part of this model: nothing in the synth path uses them.
- Host threading and parameter smoothing are not modelled: the model runs one call at a time.
