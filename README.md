# Moku arbitrary-waveform LUT synthesis, in Dafny

This project models the two pieces of logic in the Moku arbitrary-waveform
proof of concept.

- **Lookup-table (LUT) synthesis** (`waveforms.py`, module `Waveforms`):
  - a uniform time axis over one repetition period;
  - normalisation of samples into [-1, 1], with a strategy chosen by name;
  - a Gaussian envelope;
  - two waveform builders: the Gaussian tau-pi/2-tau-pi/2 ("Ramsey") pulse
    pair and the two-level square wave. Each returns a time axis, a LUT, a
    repetition frequency and the segment boundaries.
- **Typed reads of environment variables** (`config_uitl.py`, module
  `ConfigUtil`): string defaulting and stripping, boolean spellings with an
  error path, and the default branch of the integer and float reads.

The Python string operations the two files use live in module `Text`:
`str.strip()` with Python's whitespace set, and `str.lower()`. Module
`Results` holds `Option` and `Result`.

How the model relates to the Python code:

- Samples are exact `real`s, so the `np.isfinite` checks always pass.
- Every `raise` becomes a `Failure` carrying the reason.
- `np.exp` is a parameter whose values are known to be positive.
- The environment is a `map<string, string>` argument.
- The pulse pair's zero buffer with two in-place `+=` accumulations is an
  imperative method over an `array<real>`. It is proved equal to the
  functional definition that the rest of the model reasons about.

Four results of the model:

- For the default Ramsey parameters the period is exactly 10 us, so the
  repetition rate is exactly 100 kHz (`DefaultRamseyRate`).
- The Ramsey builder has no positivity check of its own on its durations.
  A zero period fails at `1.0 / T_rep` (`DivisionByZero`), and a negative
  one fails in `make_time_axis`.
- A zero `sigma` (from `sigma_frac == 0` or `t_pi2 == 0`) makes numpy
  produce zeros and possibly NaN. The peak check refuses both, so the model reports the peak
  failure.
- An environment value made only of whitespace is not treated as unset.
  `get_env_str` returns `""` for it, and `get_env_bool` refuses it.

## Model

| member | source | states |
|---|---|---|
| Waveforms.MakeTimeAxis | waveforms.py:11-19 | fails with the sample-count error exactly when N <= 0; otherwise fails with the period error exactly when T <= 0; otherwise succeeds with exactly N samples |
| Waveforms.AxisSample | waveforms.py:19 | for a positive period every sample is at least 0; the half-open axis stays below T, the closed one below T except at its last sample, which is exactly T |
| Waveforms.HalfOpenAxis | waveforms.py:19 | the endpoint=False axis starts at 0; sample i is i*T/N; consecutive samples are T/N apart; the axis is strictly increasing; every sample lies in [0, T) |
| Waveforms.ClosedAxis | waveforms.py:19 | with endpoint=True and N > 1 the axis runs from 0 up to and including T, strictly increasing |
| Waveforms.HalfOpenSample | waveforms.py:19 | sample i of the half-open axis is i*T/N, lies below T, and the next sample is one step T/N further |
| Waveforms.AxisSampleLess | waveforms.py:19 | a sample with a smaller index is strictly smaller, on either kind of axis |
| Waveforms.ParseStrategy | waveforms.py:35-45 | the lower-cased, stripped name selects peak normalisation exactly when it is "peak", the pass-through exactly when it is "none", "off" or "false", and nothing otherwise |
| Waveforms.ParseStrategyOfKey | waveforms.py:35-45 | a lower-case name with no surrounding whitespace selects "peak", one of the pass-through names "none"/"off"/"false", or nothing |
| Waveforms.PeakKeyword | waveforms.py:37 | the literal "peak" that both builders pass selects peak normalisation |
| Waveforms.PassThroughKeywords | waveforms.py:42 | each of "none", "off" and "false" selects the pass-through |
| Waveforms.ParseStrategyIgnoresCase | waveforms.py:35 | lower-casing the strategy name never changes the strategy it selects |
| Waveforms.ParseStrategyIgnoresPadding | waveforms.py:35 | whitespace around the strategy name never changes the strategy it selects |
| Waveforms.PeakOf | waveforms.py:38 | the peak bounds the magnitude of every sample and is attained by some sample; an empty waveform has peak 0 |
| Waveforms.Clip | waveforms.py:48 | the clipped value lies in [-1, 1]; it equals the input exactly when the input is already in [-1, 1]; a value above 1 becomes 1 and one below -1 becomes -1 |
| Waveforms.ClipAll | waveforms.py:47-48 | clipping keeps the length, lands in [-1, 1], and changes nothing exactly when every sample is already in range; sample by sample, an in-range value is kept, one above 1 becomes 1 and one below -1 becomes -1 |
| Waveforms.Scale | waveforms.py:41 | dividing by a non-zero peak keeps the length, and multiplying each value back by the peak restores its sample |
| Waveforms.Normalize | waveforms.py:37-48 | once the strategy is known, normalisation fails (with the peak error) exactly when the strategy is peak and every sample is 0, including an empty input; success keeps the length; with clipping the result is in [-1, 1] |
| Waveforms.WaveformToLut | waveforms.py:22-49 | an unrecognised strategy name fails with that name; a recognised one normalises the samples with its strategy |
| Waveforms.ScaledByPeak | waveforms.py:38-41 | for a waveform that is not all zeros, the peak is positive; dividing by it lands every value in [-1, 1] with its sample's sign; some value has magnitude exactly 1 |
| Waveforms.PeakLut | waveforms.py:37-48 | peak normalisation of a waveform that is not all zeros returns wave/peak, with or without clipping |
| Waveforms.PeakNormalization | waveforms.py:37-48 | under any name selecting "peak", a waveform that is not all zeros succeeds with the same length; every output is wave[i]/peak, lies in [-1, 1] and keeps its sign; some output has magnitude 1; clipping makes no difference |
| Waveforms.PassThroughLut | waveforms.py:42-48 | under a pass-through name the output is the input unchanged without clipping, and the clipped input with clipping |
| Waveforms.GaussianAt | waveforms.py:70 | the Gaussian value at one instant has the sign of amp, and is zero when amp is zero |
| Waveforms.GaussianPulse | waveforms.py:52-70 | one value per instant, each with the sign of amp (zero when amp is zero) |
| Waveforms.GaussianPulseSymmetric | waveforms.py:70 | two instants equally far before and after the centre get the same value |
| Waveforms.DefaultRamseyParamsValid | waveforms.py:73-78 | the record's default durations are positive, the gap is 49 pulse lengths, and the period is 10 us |
| Waveforms.RamseyPeriod | waveforms.py:110 | the period is positive for positive durations, zero exactly when tau = -t_pi2, and half of it is tau + t_pi2 |
| Waveforms.RamseyBoundaries | waveforms.py:115-120 | four boundaries; t1 = tau and the free-evolution gap t3 - t2 also lasts tau; both pulse segments last t_pi2; for positive durations 0 < t1 < t2 < t3 < t4; t4 is the period 2*tau + 2*t_pi2 |
| Waveforms.RamseyCentres | waveforms.py:125-126 | each pulse centre is the midpoint of its pulse segment [t1, t2] or [t3, t4], so for positive durations it lies strictly inside it; the two centres are half a period apart |
| Waveforms.Zeros | waveforms.py:124 | the zero buffer has one entry per instant, each 0 |
| Waveforms.AddWaves | waveforms.py:125-126 | the element-wise sum has the operands' length |
| Waveforms.PulsePair | waveforms.py:122-126 | the summed pulses have one value per instant, each with the sign of amp |
| Waveforms.PulsePairLut | waveforms.py:122-128 | the normalised pulse pair has one value per instant, all in [-1, 1]; its only failure is the peak error; on success sigma is non-zero and the LUT is the raw pulse pair divided by its peak, which is positive |
| Waveforms.PulsePairLutOutcome | waveforms.py:122-128 | on a non-empty axis the normalised pulse pair exists exactly when sigma and amp are both non-zero; its largest magnitude is then 1 and every value has the sign of amp |
| Waveforms.PulseWidth | waveforms.py:122 | sigma is zero exactly when sigma_frac or t_pi2 is zero, and positive when both are positive |
| Waveforms.GaussianRamseyLut | waveforms.py:91-130 | a zero period fails at 1/T_rep; a bad N and then a negative period fail in make_time_axis; on success the axis and LUT have N entries, f_rep = 1/T_rep, the boundaries are t1..t4, and the LUT lies in [-1, 1] |
| Waveforms.GaussianRamseyLutShape | waveforms.py:110-128 | on success sample i of the axis is i*T_rep/N, sigma is non-zero, and the LUT is the raw pulse pair on that axis divided by its peak, which is positive |
| Waveforms.RamseyOutcome | waveforms.py:107-130 | for positive durations and N the builder succeeds exactly when sigma_frac and amp are non-zero; otherwise it fails on the peak; on success the LUT has largest magnitude 1 and every value has the sign of amp |
| Waveforms.DefaultRamseyRate | waveforms.py:77-120 | with the record's defaults and the builder's own keyword defaults N=2048, sigma_frac=0.25, amp=1 the builder succeeds; f_rep is exactly 100000 Hz; the boundaries are 4.9, 5.0, 9.9 and 10 us; every LUT value is in (0, 1]; some value is 1 |
| Waveforms.AccumulatePulse | waveforms.py:125-126 | `wave += pulse` leaves the element-wise sum of the old buffer and the pulse in the buffer |
| Waveforms.SumPulses | waveforms.py:124-126 | a fresh zero buffer accumulating both pulses in place ends up holding the pulse pair |
| Waveforms.BuildGaussianRamseyLut | waveforms.py:107-130 | the step-by-step builder, with the in-place buffer and the call with "peak", returns exactly the functional builder's result |
| Waveforms.DefaultSquareParamsValid | waveforms.py:81-88 | the record's defaults pass both checks of the square builder (rate > 0, duty in [0, 1]); the levels are symmetric about 0; the edge is at 0.5 ms |
| Waveforms.SquareEdge | waveforms.py:155-158 | the edge duty*T_rep equals duty/f_rep, and for a duty in [0, 1] it lies within one period |
| Waveforms.SquareWave | waveforms.py:159 | one level per instant |
| Waveforms.BuildSquareLut | waveforms.py:133-162 | f_rep <= 0 fails first; then a duty outside [0, 1]; then N <= 0; on success the axis and LUT have N entries, f_rep is returned unchanged, the one boundary is duty/f_rep and lies within [0, 1/f_rep], and the LUT lies in [-1, 1] |
| Waveforms.SquareLevels | waveforms.py:159 | the index form of the step has N entries |
| Waveforms.SquareSampleBeforeEdge | waveforms.py:155-159 | sample i lies strictly before the edge duty*T exactly when i < duty*N |
| Waveforms.SampleBeforeFraction | waveforms.py:158-159 | on the half-open axis over T, sample i comes before duty*T exactly when i < duty*N |
| Waveforms.SquareWaveIsStep | waveforms.py:155-159 | the raw square wave on the time axis is high for the samples i < duty*N and low for the rest |
| Waveforms.SquareLut | waveforms.py:155-162 | for valid parameters the builder succeeds or fails exactly as normalising the index-form step does, and returns that LUT |
| Waveforms.SquareDutyEdges | waveforms.py:152-160 | duty 0 gives all low and duty 1 all high; with "peak" the builder fails on the peak exactly when that level is 0, and otherwise every LUT value is the level's sign |
| Waveforms.ConstantLut | waveforms.py:37-48 | peak normalisation of a non-empty constant waveform fails exactly when the constant is 0, and otherwise yields its sign everywhere |
| Waveforms.ConstantPeak | waveforms.py:38 | the peak of a non-empty constant waveform is the constant's magnitude |
| Waveforms.UnitLevelsLut | waveforms.py:37-48 | a waveform of +1 and -1 samples is left unchanged by peak normalisation with clipping |
| Waveforms.HalfDutyLevels | waveforms.py:159 | with duty 0.5, levels +1/-1 and an even N, the first N/2 samples are +1 and the rest -1 |
| Waveforms.HalfDutySquare | waveforms.py:133-162 | under any name selecting "peak", a half-duty +1/-1 square wave over an even N succeeds; its boundary is half the period; its LUT is +1 for the first half and -1 for the second |
| Waveforms.DefaultSquare | waveforms.py:133-162 | with the record's defaults (1 kHz, duty 0.5, levels +1/-1) and the builder's own keyword defaults N=2048 and normalize="peak", the builder succeeds; f_rep is 1000 Hz; the edge is at 0.5 ms; the first 1024 LUT values are +1 and the other 1024 are -1 |
| Waveforms.DefaultSquareWith | waveforms.py:133-162 | the same defaults and N=2048 under any name selecting "peak" give the same result as DefaultSquare |
| Text.TrimStart | config_uitl.py:25 | the result is a suffix of the input whose removed prefix is all whitespace, and it does not start with whitespace |
| Text.TrimEnd | config_uitl.py:25 | the result is a prefix of the input whose removed suffix is all whitespace, and it does not end with whitespace |
| Text.Strip | config_uitl.py:25 | the stripped string neither starts nor ends with whitespace |
| Text.StripIsSlice | config_uitl.py:25 | the stripped string is a slice of the input with only whitespace removed on either side |
| Text.StripPadded | config_uitl.py:25 | adding whitespace on either side does not change the stripped string |
| Text.StripEmptyIff | config_uitl.py:25 | a string strips to "" exactly when it is all whitespace |
| Text.Lower | config_uitl.py:57 | lower-casing keeps the length |
| Text.LowerIdempotent | config_uitl.py:57 | lower-casing twice is lower-casing once |
| Text.StripLowerCommute | waveforms.py:35 | lower-then-strip (waveforms.py) and strip-then-lower (config_uitl.py) give the same string |
| ConfigUtil.GetEnvStr | config_uitl.py:16-25 | an unset or empty variable gives the default; otherwise the raw value, or with strip a value with no whitespace at either end |
| ConfigUtil.GetEnvStrTrims | config_uitl.py:25 | a stripped read is the stored value with only whitespace cut from its two ends |
| ConfigUtil.GetEnvStrBlank | config_uitl.py:22-25 | a value made only of whitespace reads as "", not as the default |
| ConfigUtil.GetEnvStrIgnoresPadding | config_uitl.py:25 | whitespace around a non-empty value does not change a stripped read |
| ConfigUtil.GetEnvInt | config_uitl.py:28-34 | an unset or empty variable gives the default; otherwise the result is the parse of the stripped value with the given base, or an error carrying that value |
| ConfigUtil.GetEnvFloat | config_uitl.py:37-43 | an unset or empty variable gives the default; otherwise the result is the parse of the stripped value, or an error carrying that value |
| ConfigUtil.NumbersIgnorePadding | config_uitl.py:31-43 | whatever the number grammar, whitespace around a non-empty value changes neither numeric read |
| ConfigUtil.GetEnvBool | config_uitl.py:46-65 | an unset or empty variable gives the default |
| ConfigUtil.TokensDisjoint | config_uitl.py:12-13 | no spelling is both a true and a false spelling |
| ConfigUtil.GetEnvBoolSet | config_uitl.py:53-65 | a set variable reads as true exactly when its stripped, lower-cased value is a true spelling; as false exactly when it is a false spelling; otherwise it is refused with an error naming the variable and the stripped value |
| ConfigUtil.GetEnvBoolBlank | config_uitl.py:53-65 | a value made only of whitespace is refused, with the stripped value "" |
| ConfigUtil.GetEnvBoolIgnoresCase | config_uitl.py:57 | lower-casing the stored value changes neither whether it is accepted nor, when it is, the value read |
| ConfigUtil.GetEnvBoolIgnoresPadding | config_uitl.py:53-57 | whitespace around a non-empty value does not change the outcome |
| ConfigUtil.TrueSpellings | config_uitl.py:57-59 | each of "1", "true", "t", "yes", "y", "on" stored as written reads as true |
| ConfigUtil.FalseSpellings | config_uitl.py:60-61 | each of "0", "false", "f", "no", "n", "off" stored as written reads as false |

## Left out

- Floating point: IEEE-754 rounding, `np.linspace` rounding, and NaN/infinity are not modelled. Samples are exact reals, so the `np.isfinite` checks at waveforms.py:17, 39, 149 and 152 always pass.
- `np.exp` numerics: the exponential is a parameter that is only known to be positive. Peak locations and pulse overlap values are not modelled.
- Waveforms.GaussianAt: in floating point `np.exp` underflows to exactly 0.0 below about -745, that is, beyond about 38.6 sigma from the centre. The strict sign of the value holds for exact reals only; in the Python program such a value is 0.0.
- Waveforms.GaussianPulse: in floating point `np.exp` underflows to exactly 0.0 below about -745, that is, beyond about 38.6 sigma from the centre. The strict sign of every value holds for exact reals only; in the Python program those samples are 0.0.
- Waveforms.PulsePair: the strict sign of every summed sample holds for exact reals only; samples more than about 38.6 sigma from both centres are 0.0 in floating point.
- Waveforms.PulsePairLutOutcome: success whenever sigma and amp are non-zero, and the strict sign of every value, hold for exact reals only. With float underflow a very narrow pulse (for example `sigma_frac = 1e-4`, where no sample lies within 38.6 sigma of a centre) is all zeros and the Python code fails on its peak.
- Waveforms.RamseyOutcome: the same underflow gap as PulsePairLutOutcome. The claimed success for every non-zero `sigma_frac` and the strict signs are exact-real results; the Python builder refuses a pulse too narrow for any sample to survive underflow.
- Waveforms.DefaultRamseyRate: "every LUT value lies in (0, 1]" is an exact-real result. In floating point about 1 440 of the 2 048 default samples underflow to exactly 0.0, so the program's LUT lies in [0, 1]. The period, rate, boundaries and the maximum of 1 are unaffected.
- Waveforms.PulsePairLut: a zero `sigma` is reported as the peak failure without modelling the zeros and NaN that numpy produces. With exact reals the division by zero cannot be evaluated.
- Keyword defaults: every model member takes all its arguments explicitly; a Python caller that omits one gets the default instead. The defaults are `endpoint=False` for `make_time_axis`; `normalize="peak"` and `clip=True` for `waveform_to_lut`; `amp=1.0` for `gaussian_pulse`; `N=2048`, `sigma_frac=0.25` and `amp=1.0` for `build_gaussian_ramsey_lut`; `N=2048` and `normalize="peak"` for `build_square_lut`; `default=None` and `strip=True` for `get_env_str`; `base=10` for `get_env_int`; `default=False` for `get_env_bool`. `get_env_int`, `get_env_float` and `get_env_bool` call `get_env_str` with its `strip=True` default, and the model passes `true` there. `DefaultRamseyRate` and `DefaultSquare` are stated at the builders' defaults.
- Python's conversions `int(N)`, `float(...)`, `bool(...)` and `str(normalize)` are identities here. Arguments already have the intended types.
- ConfigUtil.GetEnvInt and ConfigUtil.GetEnvFloat: `int(raw, base)` and `float(raw)` are foreign parsers with their own grammar, so they are function parameters. Only the default branch and the routing of the stripped value to the parser are modelled. The error carries only the stripped value, as the `ValueError` of `int()` and `float()` does; its message text is not modelled.
- `os.getenv`: the environment is passed in as a map, and reading it has no side effects.
- Text.Lower: only the lower-case mappings that can reach the ASCII spellings compared against are modelled, namely A-Z and the Kelvin sign U+212A. Every other character is left unchanged. Python's full Unicode `str.lower()` (for example U+0130, which lowers to two code points) is not modelled; no such character can produce one of the ASCII spellings.
- ConfigUtil.GetEnvBool: the error carries the variable name and the stripped value. The text of the message is not modelled, including its sorted list of accepted spellings.
- Waveforms.BuildGaussianRamseyLut: aliasing between numpy arrays is not modelled; the buffer is a fresh array. At a zero `sigma` the method returns the peak failure before it builds the buffer; the Python code builds the zero/NaN waveform and fails on its peak (see the PulsePairLut line).
- moku_awg.py (network connection and ownership handshake), digital_test.py (device I/O with sleeps) and plotting.py (matplotlib) are not part of this model.
- test_waveform.py is not part of this model. That includes `main` (dotenv loading, the device push, printing) and `_build_selected_waveform`, which only dispatches on a waveform name and raises for an unknown one.
