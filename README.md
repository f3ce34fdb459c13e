# Keithley 26xx memristor testers — a Dafny model

This project models the measurement core of three memristor testers that
drive a Keithley 26xx source-measure unit:

- **STDP** (spike-timing-dependent plasticity, `stdp_tester.py`):
  - builds a pre- and a post-synaptic voltage sequence from repeated blocks;
  - plays the two sequences on channels A and B, index by index;
  - groups the read samples, computes delta_g between consecutive groups and
    delta_t between spike onsets;
  - chooses a file name for the (delta_t, delta_g) pairs.
- **SRDP / LTM** (spike-rate-dependent plasticity and long-term memory,
  `srdp_tester.py`):
  - runs read/write pulse trains separated by a space time, with labelled rows;
  - keeps the read rows and computes their conductance;
  - parses the LTM space list, with its fallback to `[1.0]`.
- **Sine** (`sin_tester.py`):
  - samples a sine wave and applies it point by point;
  - extracts the currents near a target voltage;
  - fits a line to each half of a current series and classifies the memristor
    type (M0–M4) by the signs of the two slopes.

The instrument is an oracle, `Port = nat -> Reading`: `port(k)` is the
current, measured voltage and time of the k-th measurement of a run. Every
run also returns the log of commands it sends, `seq<Command>`:

- set output on/off;
- set level;
- sleep;
- measure.

`Instrument.Replay` folds a log into what it does:

- the outputs left enabled;
- whether every measurement is taken on an enabled output;
- the number of measurements;
- the total sleep time.

`np.sin`, `np.polyfit`, `r2_score` and `float()` are parameters of the
functions that use them.

Modules:

| file | module | contents |
|---|---|---|
| common.dfy | `Common` | Option, `[x]*n`, `s*n`, boolean masks, grouping into complete blocks, mean, `np.isclose`, `int()` |
| text.dfy | `Text` | `f"{n}"`, `str.strip()`, `str.split()` |
| instrument.dfy | `Instrument` | channels, commands, the measurement oracle, log replay |
| samples.dfy | `Samples` | time-stamped rows and the time-zero normalisation shared by all runs |
| stdp.dfy | `Stdp` | STDP sequences, run, analysis, CSV naming |
| srdp.dfy | `Srdp` | SRDP/LTM runs, labels, read filter, the `SrdpTester` class, the LTM space list |
| sine.dfy | `Sine` | sine points, sine run, peak currents, linear fit guard, type classification |

The pre/post length claim depends on `active_num`:

- for `active_num >= 0`, each interval adds the same number of samples to both sequences;
- for a negative `active_num`, Python's `[x] * n` clips each count at zero independently, so a pre block can be longer or shorter than a post block;
- `Stdp.EqualLengthIff` gives the exact condition, and `Stdp.GenerateVoltageSequences` promises equal lengths only for `active_num >= 0`.

## Model

| member | source | states |
|---|---|---|
| Common.Trunc | stdp_tester.py:83 | `int(t)` truncates toward zero: abs(r) <= abs(t) < abs(r) + 1, and a non-zero result has the sign of t |
| Common.Repeat | stdp_tester.py:80-94 | `[x] * n` holds max(n, 0) elements, every one equal to x |
| Common.RepeatSeqLength | sin_tester.py:34-35 | `s * n` has len(s) * max(n, 0) elements |
| Common.RepeatSeqAt | sin_tester.py:34-35 | element k of `s * n` is s[k mod len(s)] |
| Common.TimesIsProduct | stdp_tester.py:125-131 | n waits of x seconds add up to n * x |
| Common.Filter | srdp_tester.py:147-148 | a boolean mask keeps at most all elements, and only elements that satisfy it |
| Common.FilterComplete | srdp_tester.py:147-148 | a boolean mask keeps every element that satisfies it |
| Common.FilterAppend | srdp_tester.py:147-148 | masking a concatenation masks each part: kept rows stay in order |
| Common.IsClose | stdp_tester.py:170 | `np.isclose(a, b, atol)` holds exactly when a lies within atol + 1e-5·abs(b) of b, the tolerance depending on the reference b only; a value is close to itself |
| Common.MeanBounds | stdp_tester.py:180 | the mean of a non-empty block lies between any bounds of its values |
| Common.CountIsProduct | stdp_tester.py:78-94 | n blocks of w samples add up to n · w samples |
| Common.Blocks | stdp_tester.py:174-177 | every group has exactly k elements |
| Common.BlocksCount | stdp_tester.py:174-177 | there are floor(n / k) complete groups of n elements |
| Common.BlocksAt | stdp_tester.py:174-177 | group j is elements j*k .. j*k + k - 1, so groups are consecutive and the trailing partial group is dropped |
| Common.CompleteBlocks | stdp_tester.py:174-177 | the stepping loop that keeps full slices yields exactly the complete groups |
| Text.Decimal | srdp_tester.py:88 | `f"{n}"` is a non-empty string of digits whose decimal value is n, with no leading 0, and "0" for n = 0 |
| Text.DecimalInjective | srdp_tester.py:88 | different numbers render differently |
| Text.PiecesAroundSep | srdp_tester.py:88 | "{pre}{x}-{y}" splits at known positions into pre, x, the separator and y |
| Text.SepUnique | srdp_tester.py:88 | between two digit runs a non-digit separator can sit at one position only |
| Text.PrefixedDigitsSplit | srdp_tester.py:88 | "{pre}{digits}-{digits}" determines both digit runs |
| Text.PrefixedPairInjective | srdp_tester.py:88 | "{pre}{a}-{b}" determines both a and b |
| Text.StripStart | srdp_tester.py:199 | `lstrip()` leaves a suffix, removes only whitespace and leaves no leading whitespace |
| Text.StripEnd | srdp_tester.py:199 | `rstrip()` leaves a prefix, removes only whitespace and leaves no trailing whitespace |
| Text.StripIsTrim | srdp_tester.py:196 | `strip()` leaves a slice s[i..j] with only whitespace before i and from j on |
| Text.StripEnds | srdp_tester.py:196 | a stripped string neither starts nor ends with whitespace |
| Text.StripEmptyIff | srdp_tester.py:196-197 | a stripped string is empty exactly when the input is all whitespace |
| Text.Split | srdp_tester.py:199 | `split(',')` returns at least one piece |
| Text.SplitPiecesFree | srdp_tester.py:199 | no piece contains the separator |
| Text.JoinSplit | srdp_tester.py:199 | joining the pieces with the separator gives back the string |
| Text.SplitEndsEmpty | srdp_tester.py:199 | a string ending in the separator has an empty last piece |
| Instrument.Replay | stdp_tester.py:111-141 | a log with no output switching leaves the enabled outputs as they were |
| Instrument.ReplayAppend | srdp_tester.py:80-107 | replaying a concatenated log replays the first part, then the second from the outputs the first left |
| Instrument.PulseEffect | srdp_tester.py:84-86 | set level, wait, measure on an enabled output: one safe measurement, the settle time slept, outputs unchanged |
| Instrument.ToggleEffect | srdp_tester.py:90-92 | output off, wait, on: the output ends enabled and the off time is slept |
| Samples.Normalized | stdp_tester.py:143-147 | same length and row contents, first time 0, every time shifted by the first time, empty data left empty |
| Samples.Normalize | srdp_tester.py:109-112 | the in-place shift loop computes the normalised rows |
| Samples.NormalizeIdempotent | stdp_tester.py:143-146 | normalising twice is normalising once |
| Samples.NormalizeKeepsOrder | sin_tester.py:63-66 | times read in non-decreasing order stay ordered and become non-negative |
| Stdp.PreBlock | stdp_tester.py:80-86 | one interval's pre block has 2·read_num + spike_num + max(active_num + spike_num, 0) + max(active_num, 0) + stop_num + max(int(t), 0) samples |
| Stdp.PostBlock | stdp_tester.py:89-94 | one interval's post block has read_num + 2·spike_num + max(active_num, 0) + max(active_num + read_num, 0) + stop_num + max(int(t), 0) samples |
| Stdp.PreSeq | stdp_tester.py:78-86 | the pre sequence has len(time_num) pre-block widths plus Σ max(int(t), 0) samples |
| Stdp.PostSeq | stdp_tester.py:78-94 | the post sequence has len(time_num) post-block widths plus Σ max(int(t), 0) samples |
| Stdp.BlockLengths | stdp_tester.py:78-94 | a pre block is longer than a post block by Skew; for active_num >= 0 both have 2·read_num + 2·spike_num + 2·active_num + int(t) + stop_num samples |
| Stdp.SkewZero | stdp_tester.py:82-93 | blocks have equal length when active_num >= 0 or read_num = spike_num |
| Stdp.SeqSkew | stdp_tester.py:78-94 | over all intervals the pre sequence is len(time_num) · Skew longer |
| Stdp.SeqLengths | stdp_tester.py:78-94 | for active_num >= 0 both sequences have len(time_num)·(2R + 2S + 2A + P) + Σ int(t) samples |
| Stdp.EqualLengthIff | stdp_tester.py:78-94 | the sequences have equal length exactly when time_num is empty or Skew = 0 |
| Stdp.PreSeqAppend | stdp_tester.py:78-86 | the pre sequence over two lists of intervals is the concatenation of the two |
| Stdp.PostSeqAppend | stdp_tester.py:88-94 | the post sequence over two lists of intervals is the concatenation of the two |
| Stdp.BlockPlacement | stdp_tester.py:78-94 | interval k's block sits right after the blocks of the earlier intervals: blocks appear in time_num order |
| Stdp.BlockShape | stdp_tester.py:80-94 | a pre block opens with read_num × V_read then spike_num × V_spike; a post block opens with read_num + spike_num rests; both end with stop_num × V_stop |
| Stdp.DefaultSequenceLength | stdp_tester.py:23-39 | the default settings give 106 samples per channel |
| Stdp.GenerateVoltageSequences | stdp_tester.py:75-96 | the extend loop builds the block-by-block sequences; they have equal length for active_num >= 0 |
| Stdp.RunStdpTest | stdp_tester.py:107-147 | channel A plays pre iff pre_before_post; exactly min(len A, len B) rows; row i holds (A[i], B[i]) and currents of measurements 2i and 2i+1; the log is both outputs on, one step per row, both off; first time 0 |
| Stdp.StepEffect | stdp_tester.py:128-133 | one step measures twice on enabled outputs and sleeps off_time |
| Stdp.StepsEffect | stdp_tester.py:125-138 | n steps take 2n measurements and sleep n × off_time |
| Stdp.StdpLogEffect | stdp_tester.py:111-141 | the run measures only while both outputs are on, two measurements per row, and ends with both outputs off |
| Stdp.RelativeChange | stdp_tester.py:206-211 | delta_g is NaN (None) exactly when abs(i1) < 1e-20, otherwise i2 = i1·(1 + delta_g) |
| Stdp.ReadRows | stdp_tester.py:170-172 | the read rows are rows of the data, in order, and a row is one exactly when its pre voltage is close to V_read (atol 0.01) |
| Stdp.PreSpikeRows | stdp_tester.py:184-188 | the pre spike rows are rows of the data, in order, and a row is one exactly when its pre voltage is close to V_spike |
| Stdp.PostSpikeRows | stdp_tester.py:185-189 | the post spike rows are rows of the data, in order, and a row is one exactly when its post voltage is close to V_spike |
| Stdp.BlockMeans | stdp_tester.py:173-181 | floor(n / k) block means; mean g is taken over rows g·k .. g·k + k − 1 |
| Stdp.BlockMeansInRange | stdp_tester.py:178-181 | every block mean lies within any bounds of the rows' currents |
| Stdp.ReadCurrents | stdp_tester.py:170-181 | floor(n / read_num) read currents; current g is the mean of read rows g·read_num .. g·read_num + read_num − 1 |
| Stdp.ReadCurrentsInRange | stdp_tester.py:178-181 | every read current lies within any bounds of the read rows' currents |
| Stdp.Onsets | stdp_tester.py:191-201 | one spike onset per complete block of spike_num rows; onset j is the time of row j·spike_num |
| Stdp.GroupCurrents | stdp_tester.py:178-181 | one mean current per group, in order |
| Stdp.BlockOnsets | stdp_tester.py:194-195 | the first time of each block, in order |
| Stdp.DeltaG | stdp_tester.py:204-212 | one entry per consecutive pair of currents, each the guarded relative change |
| Stdp.DeltaT | stdp_tester.py:215-221 | min(len pre, len post) entries, post − pre, negated when not pre_before_post |
| Stdp.ProcessMeasurementData | stdp_tester.py:149-227 | no result (pandas raises) exactly when the data is empty; otherwise delta_t and delta_g both have length n_min = min(len delta_g, len delta_t), and hold the guarded relative changes of the read currents and the signed onset differences |
| Stdp.CandidatesDistinct | stdp_tester.py:230-235 | no candidate file name is tried twice |
| Stdp.DeltaCsvName | stdp_tester.py:229-237 | the chosen name is not an existing one, and it is the first candidate (`_delta.csv`, `_delta_1.csv`, …) that is not |
| Srdp.LabelText | srdp_tester.py:88 | a label's text is its prefix, then the space index in decimal, '-', and the pulse index in decimal |
| Srdp.PrefixByFirst | srdp_tester.py:88-128 | "read_", "write_" and "ltm_write_" differ in their first character |
| Srdp.LabelTextInjective | srdp_tester.py:88-128 | different labels have different texts |
| Srdp.SlotLabels | srdp_tester.py:80-99 | pulse p of space index s gives rows read_{s+1}-{p+1} and write_{s+1}-{p+1} (ltm_write_{s+1}-{p+1} in LTM) |
| Srdp.SlotRange | srdp_tester.py:80-82 | slot s·n + p of m·n slots lies at a space index below m |
| Srdp.SrdpLabelRange | srdp_tester.py:80-99 | every SRDP label names an existing space value and pulse; even rows are reads and odd rows writes |
| Srdp.SrdpLabelUnique | srdp_tester.py:80-99 | different SRDP rows carry different labels |
| Srdp.LtmLabelRange | srdp_tester.py:121-128 | every LTM label names an existing space value and pulse |
| Srdp.LtmLabelUnique | srdp_tester.py:121-128 | different LTM rows carry different labels |
| Srdp.LabelTextsDistinct | srdp_tester.py:88-128 | no label text repeats within a run |
| Srdp.SrdpPrefixExtend | srdp_tester.py:80-99 | appending the next rows of a run keeps a run prefix |
| Srdp.LtmPrefixExtend | srdp_tester.py:121-128 | appending the next rows of an LTM run keeps a run prefix |
| Srdp.SrdpPrefixFull | srdp_tester.py:80-99 | a run prefix of full length is the whole SRDP run |
| Srdp.LtmPrefixFull | srdp_tester.py:121-128 | a run prefix of full length is the whole LTM run |
| Srdp.SrdpBodyEffect | srdp_tester.py:84-99 | read, toggle, write: two safe measurements, output left on |
| Srdp.SrdpGapEffect | srdp_tester.py:101-105 | the gap toggles the output and sleeps off_time + space |
| Srdp.LtmBodyEffect | srdp_tester.py:124-132 | write then toggle: one safe measurement, output left on |
| Srdp.TrainEffect | srdp_tester.py:82-105 | k pulses take k × (per-pulse) measurements and sleep the bodies plus one gap per pulse that is not the last |
| Srdp.GapsStep | srdp_tester.py:101 | the k-th pulse adds a gap exactly when k < pulse_num |
| Srdp.TrainEndsWithBody | srdp_tester.py:101-107 | no toggle and no space sleep follow the last pulse of a space value |
| Srdp.SpaceTrainEffect | srdp_tester.py:82-135 | one space value's train: measurement count and total sleep |
| Srdp.SweepEffect | srdp_tester.py:80-135 | the trains over all space values: measurement count and total sleep |
| Srdp.RunLogEffect | srdp_tester.py:73-137 | both runs measure only while the output is on, once per row, and leave the output off |
| Srdp.ReadSamples | srdp_tester.py:147-148 | the read rows are rows of the data, and a row of the data is kept exactly when its voltage is close to V_read |
| Srdp.Conductance | srdp_tester.py:149 | conductance exists exactly when V_read ≠ 0, and conductance · V_read = current |
| Srdp.ReadFilterExact | srdp_tester.py:147-156 | the kept rows are exactly those with abs(v − V_read) <= 0.01 + 1e-5·abs(V_read), in order; the four columns have equal length and conductance · V_read = current |
| Srdp.ParseAll | srdp_tester.py:199 | a successful parse has one value per piece |
| Srdp.ParseAllValues | srdp_tester.py:199 | a successful parse holds float(piece.strip()) of every piece, in order |
| Srdp.ParseAllFails | srdp_tester.py:199-201 | parsing fails exactly when some piece does not parse |
| Srdp.LtmSpaceValues | srdp_tester.py:196-203 | the space list is never empty |
| Srdp.LtmSpaceFallback | srdp_tester.py:196-203 | a blank answer or an unparsable piece gives [1.0]; otherwise the list is the parsed pieces, in order |
| Srdp.TrailingCommaFallsBack | srdp_tester.py:196-203 | an answer ending in a comma falls back to [1.0], since float("") fails |
| Srdp.SrdpPulses | srdp_tester.py:82-105 | the inner loop emits 2·pulse_num rows with the run's row numbers and labels, and the train's commands |
| Srdp.LtmPulses | srdp_tester.py:123-135 | the inner loop emits ltm_pulse_count rows with the run's row numbers and labels, and the train's commands |
| Srdp.SrdpTester.constructor | srdp_tester.py:21-45 | the default settings and empty result columns |
| Srdp.SrdpTester.RunSrdpTest | srdp_tester.py:75-113 | exactly 2·pulse_num·len(space_array) rows, read then write, labels in space-outer, pulse-inner order, first time 0, and the run's command log |
| Srdp.SrdpTester.RunLtmTest | srdp_tester.py:115-143 | exactly ltm_pulse_count·len(space_values) rows labelled ltm_write_{idx+1}-{p+1}, first time 0, and the run's command log |
| Srdp.SrdpTester.ProcessMeasurementData | srdp_tester.py:145-156 | no result and no change (pandas raises) exactly when the data is empty; otherwise the four result fields are the time, voltage, current and conductance columns of the read rows; settings unchanged |
| Sine.SinePoints | sin_tester.py:30-37 | 2·points_per_half·cycles + 1 points, the last one 0 |
| Sine.SinePointsPositive | sin_tester.py:32-34 | the first pph·cycles points repeat amplitude·sin(iπ/pph) for i in [0, pph) |
| Sine.SinePointsNegative | sin_tester.py:33-35 | the next pph·cycles points repeat amplitude·sin(iπ/pph) for i in [pph, 2pph) |
| Sine.RunSineTest | sin_tester.py:39-67 | exactly one row per voltage point, in order, from the matching measurement; first time 0; output on, one pulse and off-time wait per point, output off |
| Sine.PointEffect | sin_tester.py:54-59 | one point: one safe measurement, pw + off_time slept |
| Sine.PointsEffect | sin_tester.py:53-59 | the points take one measurement each and sleep pw + off_time each |
| Sine.SineLogEffect | sin_tester.py:46-61 | the run measures only while the output is on and leaves it off |
| Sine.ExtractPeakCurrents | sin_tester.py:69-71 | at most one current per row, and none exactly when no row is strictly within tol of the target |
| Sine.PeakRowsExact | sin_tester.py:71 | a row is kept exactly when abs(v − v_target) < tol (strictly) |
| Sine.PeakCurrentsAppend | sin_tester.py:71 | extracting from a concatenation extracts from each part: order is kept |
| Sine.PeakCurrentsSingle | sin_tester.py:71 | a single row gives [its current] when strictly within tol, [] otherwise |
| Sine.FitLinear | sin_tester.py:73-79 | (0, 0, 0) for fewer than two points; otherwise polyfit's line and the r² of its predictions |
| Sine.Classify | sin_tester.py:90-98 | M1–M4 by the signs of the two slopes, each in both directions; M0 exactly when a slope is 0 |
| Sine.OneTo | sin_tester.py:84-85 | `range(1, n+1)` has n elements, element k being k + 1 |
| Sine.HalvesFit | sin_tester.py:83-89 | each fit gets as many x values as currents, and both fits have at least two points exactly when there are at least four currents |
| Sine.DetermineMType | sin_tester.py:81-98 | M0 for fewer than four currents; otherwise the classification of the slopes polyfit gives for the two halves against 1..len |

## Left out

- Instrument traffic: TSP command strings, `reset_device`, `default_setup`, current limits, NPLC and range settings. Measurements are the `Port` oracle, and the log keeps only output switching, levels, sleeps and measurements.
- `measure_iv` and the `print(smua.measure.i())` queries are a single oracle reading per measurement. The float parsing of the query replies is not modelled.
- Wall-clock time. `time.time()` is the oracle's `time` field; nothing assumes it increases except `Samples.NormalizeKeepsOrder`, which takes it as a hypothesis.
- Sleep durations are added up in the log's `slept` total; real time passing is not modelled.
- Negative sleep durations. `time.sleep` raises `ValueError` on a negative duration, and no run uses try/finally, so the source stops mid-run with the output still on. The model logs the negative `Sleep` and carries on to the end. The following members are weaker than the source for a negative space value, pulse width, off time or settle time:
- Srdp.RunLogEffect: proves the output ends off even when a sleep is negative, where the source raises with the output on.
- Stdp.StdpLogEffect: proves both outputs end off for a negative off_time, where the source raises at the first step.
- Sine.SineLogEffect: proves the output ends off for a negative pw or off_time, where the source raises at the first point.
- Srdp.SrdpTester.RunSrdpTest: returns all rows and an output-off log for a negative duration, where the source raises at the first negative sleep.
- Srdp.SrdpTester.RunLtmTest: returns all rows and an output-off log for a negative space value (an LTM answer of "-1"), where the source raises after the first pulse.
- Srdp.SrdpPulses: logs a negative sleep and keeps going, where the source raises.
- Srdp.LtmPulses: logs a negative sleep and keeps going, where the source raises.
- Stdp.RunStdpTest: logs a negative off_time sleep for every row and ends with the outputs off, where the source raises at the first step.
- Sine.RunSineTest: logs negative sleeps and ends with the output off, where the source raises at the first point.
- Interactive prompts in `setup_test_parameters` and `run_test`. The LTM space-list rule is modelled, with `float()` as a parameter `parse`.
- Plotting, CSV writing, folder creation and the base-class helpers of `core.MemristorTester`. `core.py` is not part of this model.
- The save name rule models `os.path.exists` as membership in a finite set of existing names.
- `np.sin`, `np.polyfit` and `r2_score` are parameters. Floating-point rounding, NaN and infinity are not modelled: values are exact reals.
- Python's NaN for delta_g is `None`. For V_read = 0 the source divides by zero and there is no finite conductance; the model gives `None`.
- `Stdp.StdpConfig` types read_num, spike_num and stop_num as `nat`. A negative count in Python gives an empty `[x] * n` and is not modelled.
- `Stdp.ProcessMeasurementData` requires read_num > 0 and spike_num > 0. In Python a zero step makes `range` raise.
- Both `process_measurement_data` methods return `None` for empty data, where `pd.DataFrame` raises on the empty array; the exception itself is not modelled.
- `Sine.SineSample` stores only the measured voltage and current. `run_sine_test` stores absolute `time.time()`, which the normalisation makes relative, as in the model.
- `Sine.DetermineMType` returns an `MType` value in place of the strings "M0"–"M4".
- The inner pulse loops of `run_srdp_test` and `run_ltm_test` are separate methods (`Srdp.SrdpPulses`, `Srdp.LtmPulses`) called once per space value. The order of rows and commands is the same as in the nested loops.
- The STDP tester's settings are a value (`Stdp.StdpConfig`), not a class. The STDP core does not update its fields.
