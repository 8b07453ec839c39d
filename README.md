# SensitivityAnalyser samplers in Dafny

SensitivityAnalyser prepares sensitivity analyses of simulation models. A lab holds a
parameter space: a map from parameter names to value lists or ranges. It turns that space
into an ordered list of samples, each one a map from every parameter name to one value.
This project models those samplers, in every historical copy the repository keeps:

- **One-factor-at-a-time "scatter" sampler**, two copies.
  - The baseline holds every parameter at the middle value of its range.
  - One sample is emitted per non-baseline value of each parameter, with all the others at
    baseline.
  - The full baseline comes last.
- **Latin hypercube sampler**, three copies.
  - Parameters with one value are certain.
  - Uncertain ranges must share one stratification count.
  - Each range is shuffled once, and sample `i` takes the `i`-th shuffled value of each range.
- **eFAST sample generator**, two copies.
  - Each uncertain parameter in turn is the parameter of interest.
  - It is driven at the main frequency while the others run at complementary frequencies.
  - The curve values in [0, 1] are then mapped onto each parameter's range.
- **Aggregation notebook.** It averages the repetitions of a sample into one row. It keeps
  duplicate-free lists of parameter names and result keys, and tells varying parameters from
  fixed ones.
- **Parameter sets**, two copies. They hold certain and uncertain parameters and build the
  Latin hypercube stratification table with `numpy.linspace`.

Python exceptions are the `Err` values of a `Result` type (`common.dfy`). Python dictionaries
are the `Dict` type: distinct keys in iteration order plus a map. Numbers are exact reals.

Randomness and foreign numerics are inputs to the model:

- the shuffles of `numpy.random.choice(..., replace=False)` are index permutations;
- the random eFAST phase shift is a `phase` function;
- the search curve `0.5 + asin(sin(ω·s + φ))/π` is a `curve` function;
- scipy's `ppf` transforms and `numpy.exp` form a `scipy` function.

Each lab is a Dafny class whose methods update its fields. Where the source loops, the model
has a method with a loop, proved equal to a specification function. What the source promises
is proved about that function.

Files:

| file | module | source |
|---|---|---|
| `common.dfy` | `Common` | values, errors, dictionaries, `linspace`, shuffles |
| `scatter.dfy` | `ScatterSampler` | `epycsense/correlation/scatterlab.py` |
| `scatter_run.dfy` | `ScatterRun` | `sensitivity/run/correlation/scatterlab.py` |
| `lhs.dfy` | `LhsSampler` | `epycsense/lhs/lhslab.py` |
| `lhs_run.dfy` | `LhsRun` | `sensitivity/run/lhs/lhslab.py` |
| `lhs_equal.dfy` | `LhsEqual` | `sensitivity/lhslab.py` |
| `efast.dfy` | `Efast` | `epycsense/efast/efastlab.py` |
| `efast_run.dfy` | `EfastRun` | `sensitivity/run/efast/efastlab.py` |
| `aggregation.dfy` | `Aggregation` | `epycsense/aggregated/aggregationnotebook.py` |
| `parameterset.dfy` | `ParameterSetData` | `sensitivity/data/parameterset.py` |
| `parameterset_run.dfy` | `ParameterSetRun` | `sensitivity/run/parameters/parameterset.py` |

Two pairs of copies are line-for-line the same algorithm:

- `sensitivity/run/correlation/scatterlab.py` and `epycsense/correlation/scatterlab.py`;
- `sensitivity/run/lhs/lhslab.py` and `epycsense/lhs/lhslab.py`.

For each pair, the run-package class delegates to the epyc implementation, and its contract
ties it to the same specification function.

## Model

| member | source | states |
|---|---|---|
| Common.Store | epycsense/lhs/lhslab.py:69 | Python item assignment on a dict: the entry is set; an existing key keeps its place in the key order, and a new key goes last |
| Common.Linspace | sensitivity/data/parameterset.py:24 | `numpy.linspace(lo, hi, n)` has exactly n points, the k-th being lo + k·(hi−lo)/(n−1) |
| Common.LinspaceEnds | sensitivity/data/parameterset.py:24 | with two or more points, the first is lo and the last is hi |
| Common.LinspaceBounded | sensitivity/data/parameterset.py:24 | for lo ≤ hi every point lies in [lo, hi] and the points never decrease |
| Common.Shuffled | epycsense/lhs/lhslab.py:34 | the draw of `choice(range, len(range), replace=False)`: position i holds the range element that permutation index i names |
| Common.ShuffledIsPermutation | epycsense/lhs/lhslab.py:34 | a shuffle by a permutation of the indices has the same multiset of values as the range |
| Common.ShuffledDropMultiset | epycsense/lhs/lhslab.py:34 | taking the last drawn value out of the range leaves a range one shorter and a permutation for it, and the shuffle's multiset is the shorter shuffle's plus that value |
| Common.Stretch | sensitivity/run/efast/efastlab.py:142 | a curve value in [0, 1] stretched onto an ordered [lo, hi] stays inside it, with 0 landing on lo and 1 on hi |
| ScatterSampler.Middle | epycsense/correlation/scatterlab.py:15-19 | the baseline of a range, `range[len/2]` by integer division (for one value, that value), is a member of the range |
| ScatterSampler.Baseline | epycsense/correlation/scatterlab.py:14-19 | the baseline has exactly the parameter names as keys, and each baseline value comes from that parameter's own range |
| ScatterSampler.MiddleOf | epycsense/correlation/scatterlab.py:15-19 | a non-empty range yields its middle value; an empty range raises IndexError |
| ScatterSampler.BaselineLoop | epycsense/correlation/scatterlab.py:14-19 | the first loop succeeds exactly when every range is non-empty, and then yields the baseline; otherwise IndexError |
| ScatterSampler.BaselineByKeys | epycsense/correlation/scatterlab.py:14-19 | a sample holding every parameter at the middle of its range is the baseline |
| ScatterSampler.VariantLoop | epycsense/correlation/scatterlab.py:23-30 | the inner loop appends, in range order, one copy of the baseline per value that differs from the baseline value |
| ScatterSampler.ScatterSpec | epycsense/correlation/scatterlab.py:4-36 | the sampler fails (IndexError) exactly when some range is empty; otherwise the output is non-empty and its last sample is the baseline |
| ScatterSampler.ScatterSamples | epycsense/correlation/scatterlab.py:10-36 | the baseline loop and the nested variant loops with the final append return exactly the specified output |
| ScatterSampler.VariantsAreGroup | epycsense/correlation/scatterlab.py:23-30 | one parameter's group is the baseline with that parameter set, in range order, to each range value different from its baseline value |
| ScatterSampler.WithoutMembers | epycsense/correlation/scatterlab.py:25 | the values kept for a group are exactly the range values different from the baseline value |
| ScatterSampler.WithoutLength | epycsense/correlation/scatterlab.py:25 | a group has as many samples as the range has entries not equal to the baseline value, duplicates counted |
| ScatterSampler.AllVariantsCount | epycsense/correlation/scatterlab.py:22-30 | all groups together hold the sum over parameters of the non-baseline entries |
| ScatterSampler.ScatterCount | epycsense/correlation/scatterlab.py:22-33 | the output has one sample per non-baseline range entry, plus one |
| ScatterSampler.TotalOtherDistinct | epycsense/correlation/scatterlab.py:22-30 | for ranges of distinct values, the non-baseline entries number Σ(len − 1) |
| ScatterSampler.DistinctOccursOnce | epycsense/correlation/scatterlab.py:25 | in a range of distinct values, the baseline value occurs exactly once |
| ScatterSampler.ScatterCountDistinct | epycsense/correlation/scatterlab.py:22-33 | for ranges of distinct values, the output has Σ(len − 1) + 1 samples |
| ScatterSampler.AllVariantsShape | epycsense/correlation/scatterlab.py:22-30 | every variant differs from the baseline in exactly one parameter, set to a non-baseline value of its own range |
| ScatterSampler.ScatterShape | epycsense/correlation/scatterlab.py:22-33 | every sample but the last is such a one-parameter variant, and the last is the baseline |
| ScatterSampler.AllVariantsContains | epycsense/correlation/scatterlab.py:22-30 | each non-baseline value of each parameter, with all others at baseline, is among the variants |
| ScatterSampler.ScatterCovers | epycsense/correlation/scatterlab.py:22-33 | every (parameter, range value) combination with all others at baseline appears in the output |
| ScatterSampler.ScatterGrouped | epycsense/correlation/scatterlab.py:22-30 | the groups follow the parameter iteration order: the group of the i-th parameter starts where the earlier groups end |
| ScatterSampler.PrefixOfAllVariants | epycsense/correlation/scatterlab.py:22-30 | the variants of the first i parameters are a prefix of all variants |
| ScatterSampler.CertainHasNoVariants | epycsense/correlation/scatterlab.py:18-19 | a certain (single-value) parameter contributes no variant sample |
| ScatterSampler.ScatterLab.constructor | epycsense/correlation/scatterlab.py:40-41 | the lab holds the given parameter space |
| ScatterSampler.ScatterLab.ParameterSpace | epycsense/correlation/scatterlab.py:43-52 | no parameters give no samples; otherwise the samples are the scatter sample |
| ScatterRun.ScatterLab.constructor | sensitivity/run/correlation/scatterlab.py:29-30 | the lab holds the given parameter space |
| ScatterRun.ScatterLab.ScatterSamples | sensitivity/run/correlation/scatterlab.py:43-75 | `_scatter_samples` returns the same scatter sample as the epyc function |
| ScatterRun.ScatterLab.ParameterSpace | sensitivity/run/correlation/scatterlab.py:32-41 | no parameters give no samples; otherwise the scatter sample |
| ScatterRun.Nums | sensitivity/run/correlation/scatterlab.py:13-15 | a list of numbers becomes a range of numeric values, element by element |
| ScatterRun.Example | sensitivity/run/correlation/scatterlab.py:13-15 | the documented space (ALPHA 1..5, BETA 7..15, GAMMA 22) is a well-formed dictionary |
| ScatterRun.ExampleBaseline | sensitivity/run/correlation/scatterlab.py:22 | its baseline is ALPHA 3, BETA 11, GAMMA 22 |
| ScatterRun.FiveVariants | sensitivity/run/correlation/scatterlab.py:61-69 | a five-value range whose middle value occurs once yields four variants, the middle skipped |
| ScatterRun.ExampleAlpha | sensitivity/run/correlation/scatterlab.py:18-19 | the ALPHA group is ALPHA 1, 2, 4, 5 with BETA 11 and GAMMA 22 |
| ScatterRun.ExampleBeta | sensitivity/run/correlation/scatterlab.py:20-21 | the BETA group is BETA 7, 9, 13, 15 with ALPHA 3 and GAMMA 22 |
| ScatterRun.ExampleSamples | sensitivity/run/correlation/scatterlab.py:12-22 | the documented space yields exactly the nine documented samples, in the documented order |
| LhsSampler.Classify | epycsense/lhs/lhslab.py:16-27 | ranges longer than one are uncertain and share the stratification count; single values are certain with `range[0]`; an empty range fails (IndexError); a second uncertain length fails the assertion; the count is 0 exactly when nothing is uncertain |
| LhsSampler.ClassifyParameter | epycsense/lhs/lhslab.py:17-27 | one pass of the classification loop is the classification step for that parameter |
| LhsSampler.ClassifyParameters | epycsense/lhs/lhslab.py:11-27 | the classification loop computes exactly the specified classification |
| LhsSampler.ShuffleRanges | epycsense/lhs/lhslab.py:33-34 | each uncertain range is replaced by its shuffle |
| LhsSampler.UncertainValues | epycsense/lhs/lhslab.py:37-39 | a row starts with the i-th shuffled value of every uncertain parameter |
| LhsSampler.SetCertain | epycsense/lhs/lhslab.py:41-42 | each certain value is written into the row, overriding what was there |
| LhsSampler.Overlaid | epycsense/lhs/lhslab.py:41-42 | after writing the listed certain values, a row holds its old keys plus those names, each listed name with its certain value and every other key unchanged |
| LhsSampler.BuildRow | epycsense/lhs/lhslab.py:37-42 | one row is the uncertain values overlaid with the certain ones |
| LhsSampler.Rows | epycsense/lhs/lhslab.py:36-44 | there is one row per stratification, row i built from index i |
| LhsSampler.BuildRows | epycsense/lhs/lhslab.py:36-44 | the row loop produces exactly those rows |
| LhsSampler.LhsSamples | epycsense/lhs/lhslab.py:5-46 | `lhs_samples` returns the specified sample for the given shuffles |
| LhsSampler.ClassifyErrorStays | epycsense/lhs/lhslab.py:16-27 | once the classification loop raises, later parameters do not change the error |
| LhsSampler.ClassifyFails | epycsense/lhs/lhslab.py:16-27 | the classification fails exactly when some range is empty or two uncertain ranges differ in length |
| LhsSampler.LhsCount | epycsense/lhs/lhslab.py:13-44 | the sample count equals every uncertain range's length, and the output is empty when nothing is uncertain |
| LhsSampler.LhsFails | epycsense/lhs/lhslab.py:19-23 | the sampler fails exactly when some range is empty or two uncertain ranges differ in length |
| LhsSampler.LhsSampleKeys | epycsense/lhs/lhslab.py:37-42 | every sample has exactly the parameter names as keys and carries every certain parameter's single value |
| LhsSampler.LhsColumnIsPermutation | epycsense/lhs/lhslab.py:34-39 | an uncertain parameter's column across the samples is its shuffled range, a permutation of it |
| LhsSampler.LhsColumnShuffled | epycsense/lhs/lhslab.py:34-39 | an uncertain parameter is in every sample, and its column reads its range in the drawn order |
| LhsSampler.RowsColumn | epycsense/lhs/lhslab.py:36-39 | every row holds each uncertain parameter, and down the rows it reads that parameter's shuffled values |
| LhsSampler.LhsStrataUsedOnce | epycsense/lhs/lhslab.py:34-39 | a range of distinct values has each of its values used in exactly one sample |
| LhsSampler.UniformStrata | epycsense/lhs/lhslab.py:69 | `linspace(range[0], range[1], n)` fails for a range of fewer than two entries or a negative count, and otherwise gives the n evenly spaced numbers |
| LhsSampler.LatinHypercubeLab.constructor | epycsense/lhs/lhslab.py:52-53 | the lab holds the given parameter space |
| LhsSampler.LatinHypercubeLab.ParameterSpace | epycsense/lhs/lhslab.py:55-64 | no parameters give no samples; otherwise the Latin hypercube sample |
| LhsSampler.LatinHypercubeLab.SetParameterStratifications | epycsense/lhs/lhslab.py:66-72 | with no distribution or `'uniform'`, the parameter is set to the linspace values; another distribution raises NotImplementedError and changes nothing |
| LhsRun.LatinHypercubeLab.constructor | sensitivity/run/lhs/lhslab.py:10-11 | the lab holds the given parameter space |
| LhsRun.LatinHypercubeLab.LatinHypercubeSampleMatrix | sensitivity/run/lhs/lhslab.py:24-66 | `_latin_hypercube_sample_matrix` returns the same sample as the epyc function |
| LhsRun.LatinHypercubeLab.ParameterSpace | sensitivity/run/lhs/lhslab.py:13-22 | no parameters give no samples; otherwise the Latin hypercube sample |
| LhsEqual.EqualSpec | sensitivity/lhslab.py:23-50 | the only failure is the equal-length assertion |
| LhsEqual.CheckLengths | sensitivity/lhslab.py:33-36 | the `all(...)` loop answers whether every range has the first parameter's length |
| LhsEqual.EqualFails | sensitivity/lhslab.py:33-36 | the sampler fails exactly when two parameters, certain ones included, have ranges of different lengths |
| LhsEqual.EqualSamples | sensitivity/lhslab.py:40-47 | the sample count is every range's length; each sample's keys are all parameter names; each column is its shuffled range, a permutation of it |
| LhsEqual.LatinHypercubeLab.constructor | sensitivity/lhslab.py:9-10 | the lab holds the given parameter space |
| LhsEqual.LatinHypercubeLab.LatinHypercubeSampleMatrix | sensitivity/lhslab.py:23-50 | the shuffle loop and the row loop return the specified sample |
| LhsEqual.LatinHypercubeLab.ParameterSpace | sensitivity/lhslab.py:12-21 | no parameters give no samples; otherwise the sample matrix |
| Efast.UncertainNames | epycsense/efast/efastlab.py:32-35 | the uncertain parameters are exactly those whose range is longer than one, listed without repeats |
| Efast.CertainValues | epycsense/efast/efastlab.py:33 | the certain parameters are exactly those with a one-value range, each with that value |
| Efast.BaseFrequency | epycsense/efast/efastlab.py:38 | `omega[0]` is the floor of (N−1)/(2M) |
| Efast.MaxComplementary | epycsense/efast/efastlab.py:41 | the complementary ceiling is the floor of omega[0]/(2M) |
| Efast.CeilingAtLeastOne | epycsense/efast/efastlab.py:28-49 | under the N > 4M² guard the ceiling is at least 1, so the `%` at line 49 cannot divide by zero |
| Efast.Complementary | epycsense/efast/efastlab.py:44-49 | k−1 complementary frequencies: `(i mod ceiling)+1` when the ceiling is below k−1, otherwise the floors of an even spacing from 1 to the ceiling |
| Efast.ComplementaryBounds | epycsense/efast/efastlab.py:44-49 | every complementary frequency lies in [1, ceiling], and in the even-spacing case they never decrease |
| Efast.Omega | epycsense/efast/efastlab.py:37-49 | the frequency vector has k entries: the base frequency first, then the complementary frequencies |
| Efast.PoiFrequencies | epycsense/efast/efastlab.py:59-65 | for parameter of interest p, entry p holds omega[0] and the other entries hold omega[1:] in index order, p skipped |
| Efast.EfastBlockFrequencies | epycsense/efast/efastlab.py:59-65 | in the block of p, parameter p runs at the base frequency and every other parameter at a frequency in [1, ceiling] |
| Efast.FillBlock | epycsense/efast/efastlab.py:67-79 | the rows p·N … p·N+N−1 of X receive the curve at each parameter's frequency, and every other cell is unchanged |
| Efast.FillX | epycsense/efast/efastlab.py:55-79 | after the loop, every block of X is filled for its parameter of interest |
| Efast.PoiPass | epycsense/efast/efastlab.py:59-79 | one pass of the parameter-of-interest loop fills block poi and leaves the earlier blocks filled |
| Efast.FilledRow | epycsense/efast/efastlab.py:68-79 | in a filled X, row b·N + r holds point r of the curve for parameter of interest b |
| Efast.RowOfFilled | epycsense/efast/efastlab.py:68-79 | every row j of a filled X is the curve row XRow j |
| Efast.Transform | epycsense/efast/efastlab.py:89-106 | the distribution dispatch: a short range is an IndexError, a name other than triang/unif/norm/lognorm a ValueError, and `'unif'` maps u to u·(max−min)+min |
| Efast.TransformFailsAlike | epycsense/efast/efastlab.py:89-106 | whether a column's transform fails, and how, does not depend on the curve value |
| Efast.UniformInRange | epycsense/efast/efastlab.py:95-96 | for u in [0, 1] the uniform transform lands in [min, max] |
| Efast.ColumnError | epycsense/efast/efastlab.py:89-106 | a column can only fail with IndexError, ValueError or TypeError |
| Efast.TransformFailsByColumn | epycsense/efast/efastlab.py:89-106 | a transform fails exactly when its column's range is bad, with that column's error |
| Efast.XRow | epycsense/efast/efastlab.py:85-92 | row j of X holds, for each parameter, the curve at the frequency of block j/N and offset j mod N |
| Efast.Samples | epycsense/efast/efastlab.py:84-110 | the converted rows, one sample per row of X |
| Efast.ConvertRowLoop | epycsense/efast/efastlab.py:86-107 | the inner loop copies the certain values and sets each uncertain parameter to its transformed value |
| Efast.ConvertSamples | epycsense/efast/efastlab.py:84-110 | the outer loop returns the specified samples for a filled X |
| Efast.ReadRow | epycsense/efast/efastlab.py:92 | reading row j of a filled X gives its curve row |
| Efast.SampleStep | epycsense/efast/efastlab.py:85-108 | one iteration converts row j and extends the samples so far, or fails as the loop does |
| Efast.RowOf | epycsense/efast/efastlab.py:92 | reading row j of X gives its cells in column order |
| Efast.ConvertRowFailureStays | epycsense/efast/efastlab.py:87-106 | once a column raises, the rest of the row does not change the error |
| Efast.SamplesFailureStays | epycsense/efast/efastlab.py:85-108 | once a row raises, later rows do not change the error |
| Efast.ConvertRowFails | epycsense/efast/efastlab.py:87-106 | a row fails exactly when some uncertain column's range is bad, with the first such column's error |
| Efast.ConvertRowContents | epycsense/efast/efastlab.py:86-107 | a converted row has exactly the certain and uncertain names as keys, certain values copied and each uncertain one transformed |
| Efast.SamplesMeaning | epycsense/efast/efastlab.py:84-110 | the conversion fails exactly when X is non-empty and some column is bad; otherwise every sample is its converted row of X |
| Efast.SamplesFailure | epycsense/efast/efastlab.py:84-110 | the loop fails after j rows exactly when j ≥ 1 and some column is bad, and then with the first bad column's error |
| Efast.SamplesContents | epycsense/efast/efastlab.py:84-110 | when the loop succeeds after j rows, each row i < j converts and sample i is that converted row |
| Efast.UncertainNamesFacts | epycsense/efast/efastlab.py:32 | the uncertain names are distinct names of the space with ranges longer than one |
| Efast.EfastSpec | epycsense/efast/efastlab.py:12-110 | N ≤ 4M² raises ValueError; M = 0 past the guard divides by zero; no uncertain parameter fails at `omega[0]` (IndexError) |
| Efast.EfastFailsOrCounts | epycsense/efast/efastlab.py:84-110 | past those checks the generator fails exactly when some uncertain column is bad; otherwise it returns N·k samples |
| Efast.RowContents | epycsense/efast/efastlab.py:84-110 | sample j is the converted row j of X: the certain values plus each uncertain value transformed from the curve |
| Efast.EfastSampleContents | epycsense/efast/efastlab.py:55-110 | every sample of a successful run is that row, built from the frequency vector of its block |
| Efast.FirstBadColumnKinds | epycsense/efast/efastlab.py:89-106 | the first bad column's error is IndexError, ValueError or TypeError |
| Efast.EfastSampleMatrix | epycsense/efast/efastlab.py:12-110 | `efast_sample_matrix` returns the specified result |
| Efast.LabParameterSpace | epycsense/efast/efastlab.py:125-133 | no parameters give no samples; a non-positive sample number fails the assertion; otherwise the generator runs, whatever the interference |
| Efast.ZeroInterferenceDividesByZero | epycsense/efast/efastlab.py:132 | with N = 1, M = 0 and one `unif` parameter the lab passes its assertion and divides by zero at line 38 |
| Efast.CheckedNeverDividesByZero | epycsense/efast/efastlab.py:132 | checking M > 0 as well rules out the division by zero, and for M > 0 the result is the lab's own |
| Efast.EFASTLab.constructor | epycsense/efast/efastlab.py:114-117 | sample number and interference start at 0 |
| Efast.EFASTLab.SetSampleNumber | epycsense/efast/efastlab.py:119-120 | sets the sample number and nothing else |
| Efast.EFASTLab.SetInterferenceFactor | epycsense/efast/efastlab.py:122-123 | sets the interference and nothing else |
| Efast.EFASTLab.ParameterSpace | epycsense/efast/efastlab.py:125-133 | the lab's parameter space as specified for its settings |
| EfastRun.StrLess | sensitivity/run/efast/efastlab.py:55 | Python 2 string `<`: irreflexive and led by the first character |
| EfastRun.PyLess | sensitivity/run/efast/efastlab.py:55 | Python 2 `<` on values: numbers by size, a number below any string, irreflexive |
| EfastRun.Admission | sensitivity/run/efast/efastlab.py:45-58 | a single value is stored as a one-element list; a list is admitted exactly when it has 3 items with min < max and the uniform name, and fails the assertion otherwise |
| EfastRun.FrequencyBounds | sensitivity/run/efast/efastlab.py:75-79 | with runs ≥ 1 the parameter frequency is non-negative and 2·M·pf < runs; with runs = 0 it is −1 |
| EfastRun.FloorDivMinusOne | sensitivity/run/efast/efastlab.py:75-79 | floor division of −1 by any positive number is −1, which is the parameter frequency when runs is 0 |
| EfastRun.SampleCount | sensitivity/run/efast/efastlab.py:82 | the sample number is odd, between 1 and runs when runs ≥ 1 |
| EfastRun.DefaultSettings | sensitivity/run/efast/efastlab.py:79-82 | the defaults of line 18 (65 runs, M = 4) give parameter frequency 8 and 65 samples, whatever k and the resamples |
| EfastRun.Round | sensitivity/run/efast/efastlab.py:100 | Python 2 `round` rounds half away from zero |
| EfastRun.Complementary | sensitivity/run/efast/efastlab.py:87-108 | k = 1 is a TypeError; otherwise it divides by zero exactly when `max_freq_other_params` < 1, gives k entries, and all ones when it equals 1 |
| EfastRun.StepAtLeastOne | sensitivity/run/efast/efastlab.py:98-104 | INFD lies in (1, mfop]; its floor lies in [1, k]; ISTEP is at least 1, and exactly 1 when mfop ≤ k |
| EfastRun.ComplementaryCycle | sensitivity/run/efast/efastlab.py:98-108 | parameter i gets `OTMP[i mod floor(INFD)]`, and every frequency is at least 1 |
| EfastRun.ComplementaryBelowMax | sensitivity/run/efast/efastlab.py:98-108 | when mfop ≤ k, no complementary frequency exceeds mfop |
| EfastRun.ComplementaryIncreasing | sensitivity/run/efast/efastlab.py:98-108 | when mfop > k, the frequencies are exactly OTMP and never decrease |
| EfastRun.OtmpOfFewFactors | sensitivity/run/efast/efastlab.py:98-105 | when mfop > k, INFD is k and OTMP is an even spacing from 1 upward |
| EfastRun.ComplementaryFrequencies | sensitivity/run/efast/efastlab.py:91-108 | the filling loop computes exactly the specified frequencies |
| EfastRun.ColumnError | sensitivity/run/efast/efastlab.py:139-142 | unpacking a range of other than 3 items is a ValueError; a non-uniform column is left untransformed; non-numeric bounds are a TypeError |
| EfastRun.NumericRangeAdmitted | sensitivity/run/efast/efastlab.py:139-142 | a numeric uniform range is exactly one `addParameter` (lines 54-56) admits with numeric bounds |
| EfastRun.UniformInRange | sensitivity/run/efast/efastlab.py:142 | for such a range and u in [0, 1], the transform cannot fail and lands in [min, max] |
| EfastRun.FirstBad | sensitivity/run/efast/efastlab.py:137-142 | no error exactly when every uncertain column transforms; otherwise the error of some column |
| EfastRun.OverlayKeys | sensitivity/run/efast/efastlab.py:146-151 | a sample's keys are the certain names plus the uncertain names |
| EfastRun.OverlayValue | sensitivity/run/efast/efastlab.py:147-151 | an uncertain name holds the value of the last column carrying it, which is its own column when names are distinct |
| EfastRun.OverlayKeeps | sensitivity/run/efast/efastlab.py:146 | a certain name that is not uncertain keeps its value |
| EfastRun.Values | sensitivity/run/efast/efastlab.py:131-142 | one row of X after the transforms has one value per uncertain parameter |
| EfastRun.Layout | sensitivity/run/efast/efastlab.py:115-153 | the output has k·NR·NS samples |
| EfastRun.RunSpec | sensitivity/run/efast/efastlab.py:70-154 | zero resamples, M = 0 or no uncertain parameter divide by zero; a success has at least two uncertain parameters and k·NR·NS samples |
| EfastRun.FillCurve | sensitivity/run/efast/efastlab.py:126-134 | every cell of X holds the curve at its column's frequency, row and phase |
| EfastRun.TransformColumns | sensitivity/run/efast/efastlab.py:137-142 | the column loop reports the first bad column; without one, every cell becomes its transformed value |
| EfastRun.StretchColumn | sensitivity/run/efast/efastlab.py:142 | column c is stretched onto [lo, hi] cell by cell; every other column is unchanged |
| EfastRun.TransformColumn | sensitivity/run/efast/efastlab.py:139-142 | column c reports exactly its range's error; without one, each cell is scaled by its range, and other columns are unchanged |
| EfastRun.FirstBadAt | sensitivity/run/efast/efastlab.py:137-142 | the search for a bad column resumed at c stops at c when it is bad and moves on when it is not |
| EfastRun.AppendRows | sensitivity/run/efast/efastlab.py:145-152 | NS rows are appended after the earlier samples, which stay unchanged |
| EfastRun.Sweep | sensitivity/run/efast/efastlab.py:115-154 | the nested loops return the first bad column's error, or else the whole layout |
| EfastRun.ResampleBlock | sensitivity/run/efast/efastlab.py:125-152 | one resample fails with the first bad column's error, or yields NS rows, row t being the layout's row t of that block |
| EfastRun.BlockAppended | sensitivity/run/efast/efastlab.py:115-152 | appending block (i, l) after the blocks before it keeps every sample at its layout position |
| EfastRun.SampleMatrix | sensitivity/run/efast/efastlab.py:70-154 | `_efast_sample_matrix` returns the specified result |
| EfastRun.RunFails | sensitivity/run/efast/efastlab.py:84-142 | too few samples fail the assertion; one uncertain parameter is a TypeError; mfop < 1 divides by zero; otherwise it fails exactly when a column is bad |
| EfastRun.RunOrder | sensitivity/run/efast/efastlab.py:115-152 | position (i·NR + l)·NS + r holds row r of resample l for parameter of interest i |
| EfastRun.RunIsLayout | sensitivity/run/efast/efastlab.py:70-154 | a successful run is the layout of its design: frequency, sample number and complementary frequencies |
| EfastRun.RowContents | sensitivity/run/efast/efastlab.py:118-151 | a sample holds exactly the certain and uncertain names; certain values are copied; uncertain value c is the transformed curve at `parameter_frequency` when c is the parameter of interest, and at its complementary frequency otherwise, for every column c that is the last carrying its name (all of them when the names are distinct; a name registered twice by `addParameter`, line 57, shows its last column) |
| EfastRun.RowWithinBounds | sensitivity/run/efast/efastlab.py:142-151 | for numeric uniform ranges and a curve in [0, 1], every uncertain value lies within its range, repeated names included |
| EfastRun.CellWithinBounds | sensitivity/run/efast/efastlab.py:142 | one transformed cell lies within its range |
| EfastRun.SingleFactorFails | sensitivity/run/efast/efastlab.py:91-118 | with one uncertain parameter and enough samples, the matrix fails with a TypeError |
| EfastRun.DefaultSingleFactorFails | sensitivity/run/efast/efastlab.py:91-118 | the default settings of line 18 with one uniform parameter fail that way |
| EfastRun.CorrectedComplementary | sensitivity/run/efast/efastlab.py:91-92 | the one-entry list [1] for one parameter; from two parameters up, exactly the source's frequencies |
| EfastRun.CorrectedRunSpec | sensitivity/run/efast/efastlab.py:70-154 | the sample matrix with the corrected frequencies; for any number of uncertain parameters other than one it is exactly the source's |
| EfastRun.CorrectedSingleFactor | sensitivity/run/efast/efastlab.py:84-154 | with the correction, one uncertain parameter past the assertion whose range transforms gives the layout of a design with complementary list [1] at `parameter_frequency`: NR·NS samples |
| EfastRun.SingleFactorLayout | sensitivity/run/efast/efastlab.py:115-151 | with one uncertain parameter, sample l·NS + r is row r of resample l, and the parameter holds its range's transform of the curve at `parameter_frequency` |
| EfastRun.DefaultSingleFactorCorrected | sensitivity/run/efast/efastlab.py:91-118 | corrected, the default lab with one parameter in [0, 1] gives 65 samples, the first being the curve at frequency 8 stretched onto the range |
| EfastRun.EFastLab.constructor | sensitivity/run/efast/efastlab.py:18-26 | empty name lists and parameters; the given settings |
| EfastRun.EFastLab.Default | sensitivity/run/efast/efastlab.py:18 | the default settings are 65 runs, 1 resample and 4 Fourier coefficients |
| EfastRun.EFastLab.SetRuns | sensitivity/run/efast/efastlab.py:28-29 | sets runs and nothing else |
| EfastRun.EFastLab.SetResamples | sensitivity/run/efast/efastlab.py:31-32 | sets resamples and nothing else |
| EfastRun.EFastLab.SetMaxFourierCoeffs | sensitivity/run/efast/efastlab.py:34-35 | sets the coefficient count and nothing else |
| EfastRun.EFastLab.AddParameter | sensitivity/run/efast/efastlab.py:37-58 | a failed assertion changes nothing; a single value appends the name to the certain list; an admitted triple appends it to the uncertain list; either way the parameter is stored |
| EfastRun.EFastLab.EfastSampleMatrix | sensitivity/run/efast/efastlab.py:70-154 | the lab's matrix is the specified one for its settings |
| EfastRun.EFastLab.ParameterSpace | sensitivity/run/efast/efastlab.py:60-68 | no parameters give no samples; otherwise the sample matrix |
| Aggregation.SumBounds | epycsense/aggregated/aggregationnotebook.py:38 | a sum of n values in [lo, hi] lies in [n·lo, n·hi] |
| Aggregation.MeanBounds | epycsense/aggregated/aggregationnotebook.py:38 | a mean lies between the smallest and the largest bound of its values |
| Aggregation.MeanOfConstant | epycsense/aggregated/aggregationnotebook.py:38 | the mean of equal values is that value |
| Aggregation.Column | epycsense/aggregated/aggregationnotebook.py:38 | one value per repetition for a result key |
| Aggregation.GetResultsForRow | epycsense/aggregated/aggregationnotebook.py:28-39 | one repetition is returned as is; no repetitions is an IndexError; otherwise the result fails exactly when some repetition lacks a key of the first, and holds, for each key of the first repetition in its order, the mean over all repetitions |
| Aggregation.MeansOfAgreeingRepetitions | epycsense/aggregated/aggregationnotebook.py:38-39 | if every repetition's value for a key lies in [lo, hi], so does the aggregated value |
| Aggregation.Extract | epycsense/aggregated/aggregationnotebook.py:67-70 | a record is the parameters overlaid with the means, means winning on a clash; a passed-through repetition list cannot be merged (ValueError) |
| Aggregation.Records | epycsense/aggregated/aggregationnotebook.py:66-73 | the records fail exactly when some row is a passed-through repetition list; otherwise there is one record per row |
| Aggregation.FrameColumn | epycsense/aggregated/aggregationnotebook.py:19 | one cell per record for a column |
| Aggregation.VaryingParameters | epycsense/aggregated/aggregationnotebook.py:19 | keeps, in order, exactly the listed parameters whose column holds more than one distinct value |
| Aggregation.FixedParameters | epycsense/aggregated/aggregationnotebook.py:21-23 | keeps, in order, exactly the listed parameters whose column does not vary |
| Aggregation.VariesIffDisagree | epycsense/aggregated/aggregationnotebook.py:19 | more than one distinct value means two records disagree on the column |
| Aggregation.Fresh | epycsense/aggregated/aggregationnotebook.py:42-43 | the names not yet seen, in first-seen order, with no duplicates |
| Aggregation.FreshFromNothing | epycsense/aggregated/aggregationnotebook.py:42 | against an empty list every name is fresh |
| Aggregation.FreshOfSeen | epycsense/aggregated/aggregationnotebook.py:42 | names already seen add nothing |
| Aggregation.AppendFresh | epycsense/aggregated/aggregationnotebook.py:42-43 | appending the fresh names keeps the list duplicate-free, and its members are the old ones plus the new ones |
| Aggregation.KeysOfDistinct | epycsense/aggregated/aggregationnotebook.py:43 | the result keys of an aggregate are distinct |
| Aggregation.AggregationNotebook.constructor | epycsense/aggregated/aggregationnotebook.py:9-14 | no rows, parameters or result keys |
| Aggregation.AggregationNotebook.RecordAggregatedRow | epycsense/aggregated/aggregationnotebook.py:41-45 | the unseen parameter names and result keys are appended in order, and exactly one row is appended; the lists stay duplicate-free |
| Aggregation.AggregationNotebook.AddResult | epycsense/aggregated/aggregationnotebook.py:47-53 | without a repetition list whose every status is true nothing is recorded; a failing aggregation raises and changes nothing; otherwise one aggregated row is recorded |
| Aggregation.AggregationNotebook.DataframeAggregated | epycsense/aggregated/aggregationnotebook.py:66-73 | the data frame's records are the merged rows |
| Aggregation.AggregationNotebook.UncertainParameters | epycsense/aggregated/aggregationnotebook.py:17-19 | fails with the data frame; otherwise exactly the recorded parameters whose column varies |
| Aggregation.AggregationNotebook.CertainParametersAsWritten | epycsense/aggregated/aggregationnotebook.py:21-23 | fails exactly with the data frame |
| Aggregation.AggregationNotebook.CertainIsUncertain | epycsense/aggregated/aggregationnotebook.py:17-23 | as written, `certain_parameters` returns the same list as `uncertain_parameters` |
| Aggregation.AggregationNotebook.CertainParameters | test/test_aggregationnotebook.py:92-93 | corrected: exactly the recorded parameters whose column does not vary |
| Aggregation.AggregationNotebook.CertainAndUncertainPartition | test/test_aggregationnotebook.py:92-93 | the corrected certain list and the uncertain list split the recorded parameters between them |
| Aggregation.ExampleNotebook | test/test_aggregationnotebook.py:82-86 | two recorded points of the test model leave the parameter list x1, x2, x3, x4 |
| Aggregation.FirstExampleRow | test/test_aggregationnotebook.py:82-86 | recording the first point into a fresh notebook leaves parameters x1, x2, x3, x4 and one aggregated row |
| Aggregation.SecondExampleRow | test/test_aggregationnotebook.py:82-86 | recording the second point adds no parameter name and appends its row |
| Aggregation.CertainParametersExample | test/test_aggregationnotebook.py:92-93 | on those points the source's `certain_parameters` gives [x2, x4], where the test expects [x1, x3]; the corrected member gives [x1, x3] |
| Aggregation.ExampleRecords | test/test_aggregationnotebook.py:92-93 | the points' records vary in x2 and x4 and not in x1 and x3 |
| ParameterSetData.UniformNames | sensitivity/data/parameterset.py:22-23 | exactly the uncertain names with the uniform distribution |
| ParameterSetData.NonNumericNames | sensitivity/data/parameterset.py:22-24 | exactly the uniform names with a bound that is not a number |
| ParameterSetData.Column | sensitivity/data/parameterset.py:24 | n evenly spaced values from min, for numeric bounds |
| ParameterSetData.Stratifications | sensitivity/data/parameterset.py:20-28 | a column of n values for exactly the uniform parameters; with a uniform parameter present, a negative n fails with ValueError and otherwise a non-numeric bound with TypeError, whichever parameter comes first |
| ParameterSetData.StratificationValues | test/test_data/test_parameter_set.py:46-50 | with numeric bounds, value k is min + k·(max−min)/(n−1); the first is min and the last is max; the values rise within [min, max] |
| ParameterSetData.NonNumericBoundFails | sensitivity/data/parameterset.py:17-24 | a uniform parameter stored with a non-numeric bound makes the table a TypeError for every count n ≥ 0 |
| ParameterSetData.OnlyUniformColumns | sensitivity/data/parameterset.py:25-27 | certain-only and non-uniform parameters get no column |
| ParameterSetData.ParameterSet.constructor | sensitivity/data/parameterset.py:10-12 | both dicts start empty |
| ParameterSetData.ParameterSet.AddCertainParameter | sensitivity/data/parameterset.py:14-15 | sets one certain value and leaves the uncertain dict untouched |
| ParameterSetData.ParameterSet.AddUncertainParameterUniformDist | sensitivity/data/parameterset.py:17-18 | stores (min, max, 'uniform') as given, numbers or not, and leaves the certain dict untouched |
| ParameterSetData.ParameterSet.CreateLatinHypercubeStratifications | sensitivity/data/parameterset.py:20-28 | the loop over the uncertain dict, in any order, returns the specified table |
| ParameterSetData.StratificationExample | test/test_data/test_parameter_set.py:30-50 | the test's set yields columns unc1 and unc2 of 10 values, from 1.1 to 11.2 and from 5.5 to 5.7 |
| ParameterSetRun.Column | sensitivity/run/parameters/parameterset.py:27-32 | unpacking other than 3 items is a ValueError, a non-uniform name a NotImplementedError; the column exists exactly for a uniform triple with numeric bounds and n ≥ 0, and is then the linspace |
| ParameterSetRun.Stratifications | sensitivity/run/parameters/parameterset.py:24-33 | the table exists exactly when every column does; it has exactly the visited names, each with its column; a failure is some column's error |
| ParameterSetRun.OrderIrrelevant | sensitivity/run/parameters/parameterset.py:27 | the dict's iteration order changes neither whether the table is built nor its contents |
| ParameterSetRun.SameVerdict | sensitivity/run/parameters/parameterset.py:27 | if every parameter of one order has a column, so does every parameter of a sub-order |
| ParameterSetRun.StratificationColumn | sensitivity/run/parameters/parameterset.py:28-29 | each column has n values, the first min and the last max |
| ParameterSetRun.PrefixFailure | sensitivity/run/parameters/parameterset.py:27-32 | once a column raises, the later parameters do not change the error |
| ParameterSetRun.ParameterSet.constructor | sensitivity/run/parameters/parameterset.py:8-10 | both dicts start empty |
| ParameterSetRun.ParameterSet.CertainParameters | sensitivity/run/parameters/parameterset.py:12-13 | the stored certain dict, as it is |
| ParameterSetRun.ParameterSet.UncertainParameters | sensitivity/run/parameters/parameterset.py:15-16 | the stored uncertain dict, as it is |
| ParameterSetRun.ParameterSet.AddParameter | sensitivity/run/parameters/parameterset.py:18-22 | a list goes to the uncertain dict, anything else to the certain dict, and the other dict is unchanged |
| ParameterSetRun.ParameterSet.CreateLatinHypercubeStratifications | sensitivity/run/parameters/parameterset.py:24-33 | the loop returns the specified table; the guard never fires, so no uncertain parameters give an empty table |

## Left out

- The `*ClusterLab` variants (`ScatterClusterLab`, `LatinHypercubeClusterLab`, `EFASTClusterLab`) are cluster-execution copies of the labs above. They are not modelled.
- The epyc `Lab`, `JSONLabNotebook` and `ProgressLab` internals are not part of this model. This includes `JSONLabNotebook.addResult` (the last step of `addResult`), the JSON file I/O and `_load`. A lab's parameter space is its constructor argument.
- `results_aggregated` and `result_keys` are plain reads of the notebook's `aggregatedResults` and `resultKeys` fields.
- Randomness is an input. Shuffles are index permutations, and eFAST phase shifts are a `phase` function.
- The sin/asin search curve is an input function, assumed only to yield values in [0, 1] where bounds are proved. scipy's `triang`/`norm` `ppf` and `numpy.exp` are an input function.
- Floating point is not modelled: arithmetic is on exact reals. So `numpy.linspace` is exact, as is `(2π/N)·arange(N)` (folded into the curve input).
- Python 2 dictionary iteration order is not modelled.
  - Parameter spaces and samples use the insertion order of `Dict`.
  - The epyc eFAST generator takes the uncertain names in key order.
  - The run parameter set takes the visiting order as an input, and `ParameterSetRun.OrderIrrelevant` shows the result does not depend on it.
  - The data parameter set's loop picks keys in an arbitrary order.
- Sample maps compare as maps, as Python dicts do. Their key order is not modelled.
- EfastRun.RunSpec: the settings are natural numbers. Negative `runs`, `resamples` or `max_fourier_coeffs` are not modelled.
- EfastRun.Complementary: `numpy.linspace` called with the float count `INFD` is modelled as truncating the count to its floor.
- EfastRun.ComplementaryFrequencies: lines 101-102 cannot be reached once line 93 has excluded `max_freq_other_params == 1`. They are not modelled.
- EfastRun.ColumnError: a non-uniform distribution name cannot reach the transform, because `addParameter` rejects it. The model leaves such a column as the raw curve value, as the code does.
- `S_VEC` (lines 111-112) is folded into the curve input.
- Common.Shuffled: `numpy.random.choice` on an empty range with size 0 is taken to return an empty array.
- Common.Shuffled: `numpy.random.choice` first turns the range into one numpy array, so a range mixing numbers and strings comes back as strings (a drawn 1 becomes '1'), and numbers come back as numpy scalars. The model returns the range's own values unchanged.
- Aggregation.FrameColumn: a missing data-frame cell (pandas `NaN`) is one `None` marker. The rule that `NaN` values never compare equal in `set(df[q])` is not modelled.
- Aggregation.GetResultsForRow: the repetitions' metadata other than `status` is not modelled.
- ParameterSetRun.ParameterSet.AddParameter: only Python lists are uncertain. A tuple is a certain value in the source, and the `Argument` type has no separate tuple case.
- `pandas.DataFrame(values)` is modelled as the map from column name to column. Its row index and dtype are not modelled.

## Findings

| source | as written | input that shows it | evidently intended | confidence | as-written member | corrected member |
|---|---|---|---|---|---|---|
| epycsense/aggregated/aggregationnotebook.py:21-23 | `certain_parameters` keeps the parameters with `len(set(df[q])) > 1`, the same filter as `uncertain_parameters` | the test's two points (x1 = 2, x3 = 5 fixed; x2, x4 varying) give [x2, x4] | the parameters with a single value, [x1, x3], as test/test_aggregationnotebook.py:93 expects | high, not executed | Aggregation.AggregationNotebook.CertainParametersAsWritten | Aggregation.AggregationNotebook.CertainParameters |
| epycsense/efast/efastlab.py:132 | `assert self._sample_number > 0, self._interference > 0` checks only the sample number; the interference test is the assertion's message | sample number 1, interference 0 and one parameter `[0, 1, 'unif']` pass the assertion, and line 38 divides by zero | both settings positive before the generator runs | high, not executed | Efast.LabParameterSpace | Efast.CheckedParameterSpace |
| sensitivity/run/efast/efastlab.py:91-92 | with one uncertain parameter, `complementary_frequencies = 1` is a number, and `list(...)` at line 118 raises TypeError | the default lab (65 runs, 1 resample, M = 4) with one parameter `(0, 1, 'uniform_distribution')` | a one-entry list, so that the single parameter runs at `parameter_frequency` | high, not executed | EfastRun.SingleFactorFails | EfastRun.CorrectedSingleFactor |

The lab classes follow the code as written. The corrected definitions sit beside them, with the
intended property proved: `CheckedNeverDividesByZero` shows no ZeroDivisionError, and
`CertainAndUncertainPartition` shows the certain and uncertain lists split the parameters, and
`CorrectedSingleFactor` with `SingleFactorLayout` shows a single uncertain parameter sampled at
`parameter_frequency` in `CorrectedRunSpec`, the sample matrix built from `CorrectedComplementary`.
