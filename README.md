# lightlab instrument drivers and experiment bookkeeping, in Dafny

This project models four parts of the lightlab laboratory-automation package:

- **The Keithley 2400 source-meter driver** (`Keithley_2400_SM`). It clips a requested current to [1e-6 A, 1 A] on the signed value (so zero and negative requests become 1e-6 A). It writes a range (the least power of ten at or above the value) before each source value. With the output on it ramps between setpoints in `floor(|Δ|/step)` equal `numpy.linspace` steps. Mode changes are fixed, ordered write sequences. Measurements pick one comma-separated field of the instrument's reply and flag the compliance limit.
- **The HP 8116A function generator** (`HP_8116A_FG`). It writes a frequency as a mantissa in (1, 1000] and one of the units MZ, HZ, KHZ, MHZ, and reads it back as a frequency. It writes a waveform token as its index. It clips the amplitude to [0.01 V, 10 V]. Its hardware read-back and output switch always raise `BuggyHardware`.
- **The Agilent N5183A signal generator** (`Agilent_N5183A_VG`). It holds the amplitude to [−20, 15] dBm and caps the frequency at 40 GHz. Setting a frequency moves it to CW mode. It has setter-getters for the output and the sweep mode, and a sweep setup that does not start the sweep.
- **`Experiment` registration** (`experiments.py`). It keeps lists of instruments, their (instrument, host, bench) requirements, duplicate-free connections and validation checks. Validation is the conjunction of the checks. The lab can be set once, and the validity result is cached.

## Structure

- `Config` models the `setConfigParam`/`getConfigParam` cache that every driver writes and reads.
  - `ConfigStore` holds a map from SCPI key to value and the ordered log of every write. Its invariant `Valid()` says the map is the initial snapshot with the log applied.
  - Each driver method proves two things: its exact log suffix (`config.log == old(config.log) + W`) and the resulting map.
  - Lemmas about `Apply` then state what a key holds afterwards.
- `Ramp` models `np.linspace(a, b, 1 + n)[1:]` with `n = int(np.floor(|a − b| / step))`, on exact reals.
- `Numbers` defines the range `10 ** ceil(log10 |x|)` as the least integer power of ten at or above |x| (`Decade`, `DecadeRange`).
- `Lists` covers `list.index`, negative Python indices and `str.split`.
- `Results` has the `Result`/`Option` wrappers and the Python exceptions the code raises.
- `Keithley`, `HP8116A`, `N5183A` and `Experiments` hold one class per driver or experiment. The methods update fields and the store in place, with loops where the source loops. The pure parts are functions with lemmas.

Numbers are `real`, so clamps, ramps and unit conversions are exact.

Values the drivers format as text ("<x> V", "<f> <unit>") are kept as a structured `Quantity(mantissa, unit)`. Their read-back `float(s.split(' ')[0])` becomes taking the mantissa.

Where the Keithley code and its documentation differ, the model follows the code. (The HP 8116A driver methods instead follow the corrected definitions listed under "## Findings"; the code as written is modelled beside them.)
- **Ramp step size.** A ramp moves the source by at least `step` and less than `2·step` per point, not by at most `step` (`Keithley.PlanStepBounded`).
- **`setVoltage`.** It ramps from `_latestVoltageVal` with `voltStep`, but sources every point through `_configCurrent` (Keithley_2400_SM.py lines 107 and 111). So it writes `SOURCE:CURR` and never changes `_latestVoltageVal`.
- **`setPort`.** An unknown port is silently ignored.
- **The current clip.** It applies to the signed value.
- **Measurement warnings.** The printed compliance warning is a `compliance` flag on the reading.

## Model

| member | source | states |
|---|---|---|
| Keithley.ConfigCurrentRanged | lightlab/equipment/lab_instruments/visa_drivers/Keithley_2400_SM.py:76-83 | `_configCurrent(x)` clips the signed x to c in [1e-6, 1] (below 1e-6 gives 1e-6, above 1 gives 1); it always writes two things, the range then `SOURCE:CURR` = c; the range is 10^Decade(c), lies in [c, 10c) and is below every power of ten at or above c |
| Keithley.ConfigVoltageRanged | lightlab/equipment/lab_instruments/visa_drivers/Keithley_2400_SM.py:86-91 | `_configVoltage(0)` writes only `SOURCE:VOLT` = 0; for v ≠ 0 it writes the range (the least power of ten at or above abs(v)), then v unclamped |
| Keithley.ConfigCurrentPair | lightlab/equipment/lab_instruments/visa_drivers/Keithley_2400_SM.py:78-82 | the zero guard on the range never fails after the clip, so `_configCurrent` is exactly [range, value] |
| Keithley.ConfigCurrentAllShape | lightlab/equipment/lab_instruments/visa_drivers/Keithley_2400_SM.py:101-102 | a loop of `_configCurrent` over n values writes 2n entries, the range and clipped value of the i-th value at 2i and 2i+1 |
| Keithley.RampWritesOnlyCurrent | lightlab/equipment/lab_instruments/visa_drivers/Keithley_2400_SM.py:99-111 | a ramp never writes `SOURCE:VOLT`, its range or `OUTP:STATE`, and every current it writes lies in [1e-6, 1] |
| Keithley.ConfigCurrentOutcome | lightlab/equipment/lab_instruments/visa_drivers/Keithley_2400_SM.py:76-83 | after `_configCurrent(x)` the store holds the clipped current, and the output, function, sense, limits and voltage keys are unchanged |
| Keithley.PlanReachesTarget | lightlab/equipment/lab_instruments/visa_drivers/Keithley_2400_SM.py:96-111 | with the output off or the step None, one `_configCurrent(target)`; otherwise floor(abs(target − start)/step) points ending at the target, so the last sourced current is the clipped target, and an empty ramp (change below one step) leaves `_latestCurrentVal` unchanged |
| Keithley.PlanStepBounded | lightlab/equipment/lab_instruments/visa_drivers/Keithley_2400_SM.py:100-101 | every ramp step, including the first from the start value, has the same size, in [step, 2·step) |
| Keithley.Measure | lightlab/equipment/lab_instruments/visa_drivers/Keithley_2400_SM.py:139-157 | a reading exists iff the field exists, parses and the limit is numeric; its value is the parsed field; compliance iff value ≥ limit; a missing field is an IndexError |
| Keithley.MeasureFields | lightlab/equipment/lab_instruments/visa_drivers/Keithley_2400_SM.py:139-157 | the voltage is the first and the current the second comma-separated field, whatever follows |
| Keithley.MeasureMissingField | lightlab/equipment/lab_instruments/visa_drivers/Keithley_2400_SM.py:151 | a reply without a comma makes `measCurrent` raise IndexError |
| Keithley.MeasureExample | lightlab/equipment/lab_instruments/visa_drivers/Keithley_2400_SM.py:139-157 | the reply "1.5,0.02" gives 1.5 V below a 4 V limit and 0.02 A flagged at a 0.01 A limit |
| Keithley.Unwrap | lightlab/equipment/lab_instruments/visa_drivers/Keithley_2400_SM.py:113-123 | a per-channel value yields its '&' entry (KeyError without one); any other value is returned as it is |
| Keithley.SourceModeOutcome | lightlab/equipment/lab_instruments/visa_drivers/Keithley_2400_SM.py:51-62 | `__setSourceMode` sets `SOURCE:FUNC` and the sensed function to the chosen pair and leaves output, limits and source values alone |
| Keithley.SourceModeKeys | lightlab/equipment/lab_instruments/visa_drivers/Keithley_2400_SM.py:57-62 | none of the six mode keys is the output, a limit or a source value key |
| Keithley.DisableOutcome | lightlab/equipment/lab_instruments/visa_drivers/Keithley_2400_SM.py:162-168 | `enable(False)` ends with `OUTP:STATE` = 0 whatever the ramp wrote |
| Keithley.CurrentModeOutcome | lightlab/equipment/lab_instruments/visa_drivers/Keithley_2400_SM.py:70-74 | after `setCurrentMode(p)`: output off (and reads as off), function CURR, sensing VOLT, voltage limit p, current 1e-6 (the clipped 0) |
| Keithley.VoltageModeOutcome | lightlab/equipment/lab_instruments/visa_drivers/Keithley_2400_SM.py:64-68 | after `setVoltageMode(p)`: output off (and reads as off), function VOLT, sensing CURR, current limit p, voltage 0 |
| Keithley.SetPortIdempotent | lightlab/equipment/lab_instruments/visa_drivers/Keithley_2400_SM.py:45-49 | selecting a port twice leaves the store as selecting it once |
| Keithley.Keithley2400.constructor | lightlab/equipment/lab_instruments/visa_drivers/Keithley_2400_SM.py:24-40 | writes the voltage limit then the current limit (defaults 4 V, 0.2 A), latest values 0, steps as given (defaults 1e-3, 0.1) |
| Keithley.Keithley2400.NoRamp | lightlab/equipment/lab_instruments/visa_drivers/Keithley_2400_SM.py:173-179 | the same initial writes with both steps None |
| Keithley.Keithley2400.SetProtectionVoltage | lightlab/equipment/lab_instruments/visa_drivers/Keithley_2400_SM.py:125-126 | one write of `VOLT:PROT` |
| Keithley.Keithley2400.SetProtectionCurrent | lightlab/equipment/lab_instruments/visa_drivers/Keithley_2400_SM.py:128-129 | one write of `CURR:PROT` |
| Keithley.Keithley2400.SetPort | lightlab/equipment/lab_instruments/visa_drivers/Keithley_2400_SM.py:45-49 | 'Front' writes FRON, 'Rear' writes REAR, any other port writes nothing |
| Keithley.Keithley2400.SetSourceMode | lightlab/equipment/lab_instruments/visa_drivers/Keithley_2400_SM.py:51-62 | exactly the six mode writes, in order |
| Keithley.Keithley2400.ConfigCurrent | lightlab/equipment/lab_instruments/visa_drivers/Keithley_2400_SM.py:76-84 | log grows by the range and the clipped value; `_latestCurrentVal` is the clipped value; `getCurrent()` then returns it; voltage and steps unchanged |
| Keithley.Keithley2400.ConfigVoltage | lightlab/equipment/lab_instruments/visa_drivers/Keithley_2400_SM.py:86-92 | log grows by the (conditional) range and v; `_latestVoltageVal` = v; `getVoltage()` then returns v; current unchanged |
| Keithley.Keithley2400.ConfigCurrentEach | lightlab/equipment/lab_instruments/visa_drivers/Keithley_2400_SM.py:101-102 | the loop appends each value's writes in order; `_latestCurrentVal` is the last clipped value, or unchanged for no values |
| Keithley.Keithley2400.SetCurrent | lightlab/equipment/lab_instruments/visa_drivers/Keithley_2400_SM.py:94-102 | runs the plan from `_latestCurrentVal` with `currStep`: the ramp's exception with nothing written, or every planned value sourced in order; the ramp starts from a numpy float once any current has been sourced (`currentSourced`), which decides the exception a zero step raises |
| Keithley.Keithley2400.SetVoltage | lightlab/equipment/lab_instruments/visa_drivers/Keithley_2400_SM.py:104-111 | as written: plan from `_latestVoltageVal` with `voltStep`, each value through `_configCurrent`; `_latestVoltageVal` never changes |
| Keithley.Keithley2400.RampToZero | lightlab/equipment/lab_instruments/visa_drivers/Keithley_2400_SM.py:162-166 | `setCurrent(0)` when `SOURCE:FUNC` is CURR, else `setVoltage(0)` |
| Keithley.Keithley2400.Disable | lightlab/equipment/lab_instruments/visa_drivers/Keithley_2400_SM.py:162-170 | ramp to zero, then `OUTP:STATE` = 0 as the last write; returns false |
| Keithley.Keithley2400.Enable | lightlab/equipment/lab_instruments/visa_drivers/Keithley_2400_SM.py:159-170 | no argument: no write, result is whether the state reads as 'ON', 1 or '1'; True: one write of 1, result true; False: as `Disable` |
| Keithley.Keithley2400.SetCurrentMode | lightlab/equipment/lab_instruments/visa_drivers/Keithley_2400_SM.py:70-74 | disable, source mode CURR, voltage limit, `_configCurrent(0)`, in that order; `_latestCurrentVal` ends at 1e-6 |
| Keithley.Keithley2400.SetVoltageMode | lightlab/equipment/lab_instruments/visa_drivers/Keithley_2400_SM.py:64-68 | disable, source mode VOLT, current limit, `_configVoltage(0)`, in that order; `_latestVoltageVal` ends at 0 |
| Ramp.RampPoints | lightlab/equipment/lab_instruments/visa_drivers/Keithley_2400_SM.py:100-101 | a positive step gives floor(abs(Δ)/step) points; a zero step from a plain Python number is a ZeroDivisionError, and from the numpy float `_configCurrent` stores it is an OverflowError (ValueError when start equals the target, the nan case); a negative step gives no points or an error |
| Ramp.RampReachesTarget | lightlab/equipment/lab_instruments/visa_drivers/Keithley_2400_SM.py:100-101 | with a positive step the ramp exists and a non-empty ramp ends exactly at the target |
| Ramp.RampBelowStep | lightlab/equipment/lab_instruments/visa_drivers/Keithley_2400_SM.py:100-101 | a change smaller than the step gives an empty ramp |
| Ramp.RampSpacingBounds | lightlab/equipment/lab_instruments/visa_drivers/Keithley_2400_SM.py:100-101 | the spacing abs(Δ)/n is in [step, 2·step) |
| Ramp.LinspaceMonotone | lightlab/equipment/lab_instruments/visa_drivers/Keithley_2400_SM.py:101 | the ramp is strictly increasing towards a larger target and strictly decreasing towards a smaller one |
| Ramp.LinspaceBetween | lightlab/equipment/lab_instruments/visa_drivers/Keithley_2400_SM.py:101 | every ramp point lies between the start and the target |
| Ramp.LinspaceEndsAtStop | lightlab/equipment/lab_instruments/visa_drivers/Keithley_2400_SM.py:101 | the last linspace point is the target |
| Numbers.DecadeRangeIsLeast | lightlab/equipment/lab_instruments/visa_drivers/Keithley_2400_SM.py:80 | the range for x ≠ 0 is at least abs(x), below 10·abs(x), and at most every integer power of ten at or above abs(x) |
| Numbers.DecadeUnique | lightlab/equipment/lab_instruments/visa_drivers/Keithley_2400_SM.py:80 | the decade e with 10^(e−1) < x ≤ 10^e is unique |
| Numbers.Clamp | lightlab/equipment/lab_instruments/visa_drivers/Keithley_2400_SM.py:78 | `np.clip`: result in [lo, hi], x itself when inside, the violated bound otherwise |
| Lists.Split | lightlab/equipment/lab_instruments/visa_drivers/Keithley_2400_SM.py:141 | `str.split` always yields at least one piece |
| Lists.JoinSplit | lightlab/equipment/lab_instruments/visa_drivers/Keithley_2400_SM.py:141 | joining the pieces with the separator gives the reply back |
| Lists.SplitPiecesHaveNoSeparator | lightlab/equipment/lab_instruments/visa_drivers/Keithley_2400_SM.py:141 | no piece contains the separator |
| Lists.IndexOf | lightlab/equipment/lab_instruments/HP_8116A_FG.py:74 | `list.index`: the first position holding x, none exactly when x is absent |
| Lists.PyIndex | lightlab/equipment/lab_instruments/HP_8116A_FG.py:56 | Python indexing: defined exactly on [−len, len), negative indices count from the end, IndexError otherwise |
| Config.ConfigStore.Set | lightlab/equipment/lab_instruments/HP_8116A_FG.py:59-61 | `setConfigParam` updates one key and appends one write to the log, keeping the store explained by the log |
| Config.ConfigStore.Get | lightlab/equipment/lab_instruments/HP_8116A_FG.py:61 | the cached value of a key, none when it was never written or reported |
| Config.ApplyLastWrite | lightlab/equipment/lab_instruments/Agilent_N5183A_VG.py:62-65 | after a sequence of writes a key holds the value of its last write |
| Config.ApplyUntouched | lightlab/equipment/lab_instruments/Agilent_N5183A_VG.py:95-99 | a key no write mentions keeps its value and presence |
| Config.ApplyAppend | lightlab/equipment/lab_instruments/visa_drivers/Keithley_2400_SM.py:70-74 | writing a then b is writing b on the result of a |
| HP8116A.Multiplier | lightlab/equipment/lab_instruments/HP_8116A_FG.py:50-51 | `toMultiplier(k)` = 10^(3(k−1)), always positive |
| HP8116A.SciOrderBounds | lightlab/equipment/lab_instruments/HP_8116A_FG.py:54 | the order k of f satisfies 10^(3k−3) < f ≤ 10^(3k) |
| HP8116A.SciOrderUnique | lightlab/equipment/lab_instruments/HP_8116A_FG.py:54 | that k is the only one with this property |
| HP8116A.MantissaBounds | lightlab/equipment/lab_instruments/HP_8116A_FG.py:54-58 | the mantissa f / toMultiplier(k) lies in (1, 1000] |
| HP8116A.SciSetting | lightlab/equipment/lab_instruments/HP_8116A_FG.py:53-59 | intended FRQ setting: a mantissa in (1, 1000] and a known unit; zero is an OverflowError, a negative f a ValueError, a positive f out of range an IndexError |
| HP8116A.SciSettingDomain | lightlab/equipment/lab_instruments/HP_8116A_FG.py:54-56 | the intended setting is accepted iff 1e-3 < f ≤ 1e9 |
| HP8116A.FrequencyRoundTrip | lightlab/equipment/lab_instruments/HP_8116A_FG.py:53-66 | setting f and reading it back gives f, for every accepted f |
| HP8116A.FrequencyShapeReads | lightlab/equipment/lab_instruments/HP_8116A_FG.py:61-66 | every FRQ value of the driver reads back a frequency in (1e-3, 1e9] |
| HP8116A.ReadUnit | lightlab/equipment/lab_instruments/HP_8116A_FG.py:61-65 | the mantissa m with the unit of index i reads back as m · 10^(3(i−1)) |
| HP8116A.UnitIndex | lightlab/equipment/lab_instruments/HP_8116A_FG.py:65 | `sciUnits.index` finds each unit at its own place |
| HP8116A.SciSettingAgrees | lightlab/equipment/lab_instruments/HP_8116A_FG.py:53-59 | wherever the intended setting is defined, the code as written agrees with it |
| HP8116A.SciSettingAsWrittenWrongUnit | lightlab/equipment/lab_instruments/HP_8116A_FG.py:54-65 | as written, every f in (1e-15, 1e-3] is accepted, though the intended setting rejects it, and it reads back 10^12 · f |
| HP8116A.SciSettingAsWrittenExample | lightlab/equipment/lab_instruments/HP_8116A_FG.py:54-59 | as written, `frequency(1e-4)` writes "100.0 MHZ", which reads back 1e8 |
| HP8116A.Trunc | lightlab/equipment/lab_instruments/HP_8116A_FG.py:78 | Python's `int` on a number truncates towards zero |
| HP8116A.WaveformRoundTrip | lightlab/equipment/lab_instruments/HP_8116A_FG.py:71-78 | writing a token's index and reading it back gives the token |
| HP8116A.WaveShapeReads | lightlab/equipment/lab_instruments/HP_8116A_FG.py:78 | every W value of the driver reads back one of the five tokens |
| HP8116A.ClampAmplitude | lightlab/equipment/lab_instruments/HP_8116A_FG.py:98-100 | intended clip: given iff an amplitude is given, then in [0.01, 10], unchanged when already inside |
| HP8116A.AmplOffsAsWrittenRejectsGet | lightlab/equipment/lab_instruments/HP_8116A_FG.py:92-100 | as written, a missing amplitude (None, or None in the pair) raises TypeError before any write; with an amplitude given, as-written and intended agree |
| HP8116A.AmplOffsGetOnly | lightlab/equipment/lab_instruments/HP_8116A_FG.py:92-114 | intended: `amplAndOffs()` and `amplAndOffs((None, None))` write nothing and return the cached amplitude and offset, or the first read's error |
| HP8116A.AmplOffsSetBoth | lightlab/equipment/lab_instruments/HP_8116A_FG.py:97-114 | setting both writes the clipped amplitude then the offset, and returns exactly those two values |
| HP8116A.AmplOffsClamped | lightlab/equipment/lab_instruments/HP_8116A_FG.py:98-103 | any amplitude returned lies in [0.01, 10] |
| HP8116A.FunctionGenerator.constructor | lightlab/equipment/lab_instruments/HP_8116A_FG.py:25-27 | an empty cache and an empty log |
| HP8116A.FunctionGenerator.Read | lightlab/equipment/lab_instruments/HP_8116A_FG.py:36-38 | a read succeeds exactly for a cached key; any other read raises BuggyHardware |
| HP8116A.FunctionGenerator.Enable | lightlab/equipment/lab_instruments/HP_8116A_FG.py:44-45 | always raises BuggyHardware |
| HP8116A.FunctionGenerator.Frequency | lightlab/equipment/lab_instruments/HP_8116A_FG.py:47-66 | intended (see "## Findings", first row): a rejected frequency raises with nothing written; an accepted f writes one FRQ entry and returns f; no argument writes nothing; any result is in (1e-3, 1e9] |
| HP8116A.FunctionGenerator.Waveform | lightlab/equipment/lab_instruments/HP_8116A_FG.py:68-78 | an unknown token raises ValueError with nothing written; a token writes its index and is returned; no argument writes nothing; any result is a token |
| HP8116A.FunctionGenerator.AmplAndOffs | lightlab/equipment/lab_instruments/HP_8116A_FG.py:80-114 | intended (see "## Findings", second row): a scalar raises ValueError before any write; otherwise the writes and result of the intended outcome; any amplitude returned is in [0.01, 10] |
| HP8116A.FunctionGenerator.WriteAndReadBack | lightlab/equipment/lab_instruments/HP_8116A_FG.py:100-114 | write the amplitude if given, read it, then the offset half |
| HP8116A.FunctionGenerator.WriteOffsetAndReadBack | lightlab/equipment/lab_instruments/HP_8116A_FG.py:107-114 | write the offset if given, read it back beside the amplitude |
| HP8116A.FunctionGenerator.Duty | lightlab/equipment/lab_instruments/HP_8116A_FG.py:116-121 | a given duty writes "<d> %" and returns it; no argument returns the cached value or BuggyHardware |
| N5183A.AmplitudeSetting | lightlab/equipment/lab_instruments/Agilent_N5183A_VG.py:33-39 | the written amplitude is in [−20, 15] dBm, a itself inside, 15 above, −20 below |
| N5183A.FrequencySetting | lightlab/equipment/lab_instruments/Agilent_N5183A_VG.py:55-58 | the written frequency is min(f, 40e9), with no lower bound |
| N5183A.SettingsIdempotent | lightlab/equipment/lab_instruments/Agilent_N5183A_VG.py:33-39 | clamping a clamped value changes nothing |
| N5183A.ReadAmplitude | lightlab/equipment/lab_instruments/Agilent_N5183A_VG.py:41-42 | the numeric part of "<a> dBm" is a |
| N5183A.FrequencyLeavesSweep | lightlab/equipment/lab_instruments/Agilent_N5183A_VG.py:59-65 | after `frequency(f)` FREQ:CW holds the capped f and the mode is not LIST |
| N5183A.SweepSetupLeavesMode | lightlab/equipment/lab_instruments/Agilent_N5183A_VG.py:84-99 | `sweepSetup` sets the start, stop, points and dwell keys and leaves FREQ:MODE as it was |
| N5183A.Generator.constructor | lightlab/equipment/lab_instruments/Agilent_N5183A_VG.py:20-22 | the instrument's settings and an empty log |
| N5183A.Generator.Amplitude | lightlab/equipment/lab_instruments/Agilent_N5183A_VG.py:24-42 | a given amplitude writes the held value and returns it; no argument writes nothing and returns the cached value |
| N5183A.Generator.Frequency | lightlab/equipment/lab_instruments/Agilent_N5183A_VG.py:44-65 | a given f writes FREQ:CW = min(f, 40e9) then FREQ:MODE = CW, and the generator no longer sweeps; no argument writes nothing |
| N5183A.Generator.Enable | lightlab/equipment/lab_instruments/Agilent_N5183A_VG.py:67-79 | a given b writes ON or OFF and returns b; no argument writes nothing and returns whether the state is True, 'ON', 1 or '1' |
| N5183A.Generator.SweepSetup | lightlab/equipment/lab_instruments/Agilent_N5183A_VG.py:81-99 | exactly LIST:TYPE, FREQ:STAR, FREQ:STOP, SWE:POIN, SWE:DWEL, in that order; whether it sweeps is unchanged |
| N5183A.Generator.SweepEnable | lightlab/equipment/lab_instruments/Agilent_N5183A_VG.py:101-112 | a given b writes LIST or CW and returns b; no argument writes nothing |
| Experiments.AllChecksMeaning | lightlab/laboratory/experiments.py:178-183 | validation raises iff some check raises, and is true iff every check is true (so true with no checks) |
| Experiments.AllChecksErrorSticks | lightlab/laboratory/experiments.py:180-182 | once a prefix of the checks raises, the whole validation raises the same |
| Experiments.InstrumentChecksMeaning | lightlab/laboratory/experiments.py:120-153 | an instrument adds 1 + [host given] + [bench given] checks, and they pass iff each given host or bench is the lab's own and holds the instrument |
| Experiments.ConnectionChecks | lightlab/laboratory/experiments.py:171-176 | one check per connection argument, in order |
| Experiments.ConnectionChecksMeaning | lightlab/laboratory/experiments.py:171-176 | the connection checks pass iff every connection is among the lab's connections at registration |
| Experiments.RequirementsOf | lightlab/laboratory/experiments.py:155-159 | one (instrument, host, bench) entry per instrument, in order |
| Experiments.AppendNewMeaning | lightlab/laboratory/experiments.py:165-169 | the old connections stay in place, the result holds exactly the old and the added ones, and a duplicate-free list stays duplicate-free |
| Experiments.AppendNewPresent | lightlab/laboratory/experiments.py:166-169 | connections already present are not appended again |
| Experiments.AppendNewIdempotent | lightlab/laboratory/experiments.py:164-169 | registering the same connections twice leaves the list as registering them once |
| Experiments.Describe | lightlab/laboratory/experiments.py:195-198 | "Experiment " followed by the name when given, else by the class name |
| Experiments.DescribeInjective | lightlab/laboratory/experiments.py:195-197 | two named experiments print alike iff their names agree |
| Experiments.Experiment.constructor | lightlab/laboratory/experiments.py:68-77 | for a subclass whose `startup` returns normally and leaves the lists alone: instruments and devices as given or empty, the other lists empty, nothing cached, no lab of its own |
| Experiments.Experiment.Lab | lightlab/laboratory/experiments.py:45-47 | the experiment's own lab once set, else the global lab |
| Experiments.Experiment.SetLab | lightlab/laboratory/experiments.py:49-52 | the setter takes effect only while no lab is set; nothing else changes |
| Experiments.Experiment.RegisterInstrument | lightlab/laboratory/experiments.py:116-155 | no host and no bench: ValueError and no list changes; otherwise the instrument and its requirement appended once, and its checks appended in order |
| Experiments.Experiment.RegisterInstruments | lightlab/laboratory/experiments.py:157-159 | each instrument registered in turn; with neither host nor bench the first one raises and nothing changes |
| Experiments.Experiment.RegisterConnections | lightlab/laboratory/experiments.py:164-176 | connections never gain a duplicate and keep the new ones in order; one check per argument, duplicate or not |
| Experiments.Experiment.RegisterConnection | lightlab/laboratory/experiments.py:161-162 | `registerConnections` with one connection |
| Experiments.Experiment.Validate | lightlab/laboratory/experiments.py:178-183 | the loop's result is the conjunction of all checks, or the first exception raised |
| Experiments.Experiment.IsValid | lightlab/laboratory/experiments.py:54-66 | without reset, a cached value is returned and `validate` is not called; with reset, or with nothing cached, it recomputes and caches the result |

## Left out

- The VISA transport (`write`, `query`, `*RST` at start-up, `D0` on the HP) is left out as I/O. The reply to `MEASURE:VOLT?`/`MEASURE:CURR?` is a parameter of `Measure`.
- The internals of `Configurable` (headers, dirty tracking, batching) are not part of this model. The cache is an abstract map with a write log. `getConfigParam(key, forceHardware=True)` reads the same map.
- A Keithley or Agilent key the instrument never reported reads as None (`Nothing`). The map starts from the instrument's settings, so no hardware query is modelled.
- `time.sleep` delays are left out because they are timing only. This includes the `time_delay` arguments of `_configCurrent`/`_configVoltage` and the HP's 0.2 s after each hardware write.
- Printed and logged warnings (compliance, over-range amplitude or frequency, duplicate connection, failed check) are left out as output only. The Keithley compliance warning becomes the `compliance` flag.
- The printed mW power estimate of `measVoltage`/`measCurrent` is left out as output only.
- Floating point is left out. Numbers are exact reals, and `np.log10`/`np.ceil` are the exact least power of ten. Rounding in `f / toMultiplier(k)`, `linspace` and the text round trip through `float(...)` is not modelled.
- Text formatting is left out: values are structured `Quantity(number, unit)` rather than "<x> <unit>" strings.
- Keithley.Measure: `float` on a field is a parameter `parse`, since Python's number syntax is not modelled.
- Keithley.Keithley2400.MeasVoltage and Keithley.Keithley2400.MeasCurrent only forward to `Measure` with the stored limits, so their properties are those of `Measure`.
- The `VisaIOError` fallbacks in `amplAndOffs`, which return None for a read that fails, are left out as I/O error handling. A failed read propagates its error instead.
- `instrID` and `startup` on the HP are left out; they are logging and I/O.
- `autoDisable` is declared but marked not implemented in the code.
- Experiments.Experiment.constructor: the base-class `startup` raises NotImplementedError and `__init__` calls it, so a bare `Experiment` cannot be built; the constructor models a subclass whose `startup` returns normally and does not touch the lists.
- Experiments.Experiment.RegisterInstrument: `__init__` keeps the caller's `instruments` list itself, not a copy, so registering an instrument also appends to that list; the model holds the lists as `seq` values and does not capture this aliasing.
- `asReal`, `global_hardware_warmup`, `hardware_warmup`/`hardware_cooldown`, `lock`/`unlock`, `_enforceConnections` and `display` are left out. They are context management, virtualisation, no-ops, printing, or calls into lab code that is not part of this model.
- `MasterExperiment` is left out: it has no behaviour.
- The global `labstate.lab` is a parameter `globalLab`. Hosts and benches are names with sets of instruments, and connections are device-to-port maps. `instrument in host` is set membership.
- The lab is not updated between a check's registration and its evaluation, except that the connection check keeps the lab's connections from registration time, as its default argument does in the code.
- `lightlab/equipment/lab_instruments/__init__.py` (reflective driver import) is plumbing. `BuggyHardware` appears as an error value.
- Keithley `_latestCurrentVal` and `_latestVoltageVal` are per-instance fields from the constructor on. The source's class attributes of the same name are shadowed on the first assignment, with the same observable values.

## Findings

| source | as written | input that shows it | evidently intended | confidence | as-written member | corrected member |
|---|---|---|---|---|---|---|
| lightlab/equipment/lab_instruments/HP_8116A_FG.py:54-56 | `sciUnits[sciOrder]` with a negative order picks a unit from the end of the list | `frequency(1e-4)`: the order is −1, so it writes "100.0 MHZ" and reads back 1e8; every f in (1e-15, 1e-3] reads back 10^12 times too large | an order without its own unit raises IndexError, so only (1e-3, 1e9] is accepted and always reads back unchanged | not executed | HP8116A.SciSettingAsWritten, HP8116A.SciSettingAsWrittenWrongUnit, HP8116A.SciSettingAsWrittenExample | HP8116A.SciSetting, HP8116A.SciSettingDomain, HP8116A.FrequencyRoundTrip, HP8116A.FunctionGenerator.Frequency |
| lightlab/equipment/lab_instruments/HP_8116A_FG.py:92-100 | `np.clip` runs on the amplitude before the `is not None` test, and numpy cannot compare None with a number | `amplAndOffs()` or `amplAndOffs((None, 0.5))` raises TypeError before any write | the documented contract: a None amplitude is not set and is read back | not executed | HP8116A.AmplOffsOutcomeAsWritten, HP8116A.AmplOffsAsWrittenRejectsGet | HP8116A.AmplOffsOutcome, HP8116A.AmplOffsGetOnly, HP8116A.FunctionGenerator.AmplAndOffs |
