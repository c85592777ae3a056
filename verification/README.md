# Leaky bucket model in Dafny

A model of `LeakyBucketLumpedBmi`, a minimal lumped hydrological model behind
the Basic Model Interface (BMI). The bucket has a storage [m]. At every step
of a precipitation time series, the step's precipitation [kg m-2 s-1] times
the step size [s] is added to the storage. The discharge [m d-1] is then the
filled storage times a leakiness [d-1]. The water that discharge removes
during the step, discharge times the step length in days, is subtracted.
Around this state machine sits the BMI query surface: variables read and
written by name, a single-cell grid, and the model's time axis.

Files and modules:

- `wrappers.dfy`, module `Wrappers`: `Result` and `Outcome` datatypes. They
  stand in for the exceptions `leakybucket_bmi.py` raises.
- `bucket.dfy`, module `Bucket`: the configuration, the forcing series, the
  model state and its invariant `Valid`. Also `Initialize`, the step law
  `Update`, and `Run` (n successive updates).
- `bucket_lemmas.dfy`, module `BucketLemmas`: properties over many steps.
  These are exhaustion, composition of runs, a closed form of the storage,
  the water balance and non-negativity.
- `bmi.dfy`, module `Bmi`: `get_value` / `set_value` and their index
  variants, units, grid queries, time queries and `update_until`.
- `bmi_lemmas.dfy`, module `BmiLemmas`: set/get round trips, agreement
  between the name sets, time monotonicity, `update_until`'s stopping point,
  and a worked two-day scenario.

Float64 arithmetic is idealised as `real`. Timestamps are whole Unix seconds
(`seq<int>`) and precipitation is a `seq<real>` of the same length. Where the
Python implementation raises an exception, the model returns `Err` (or `Fail`) with an
`Error` value naming the cause.

Three behaviours of `leakybucket_bmi.py` that the model keeps:

- `update_until` with a target after the last timestamp ends. Once the
  series is exhausted, `get_current_time` (line 104) indexes past the end
  of the time axis and raises. `Bmi.UpdateUntil` therefore terminates on
  every input and returns `Fail(SeriesExhausted)` in that case.
- A series with fewer than two timestamps fails in `initialize` when it
  indexes the second timestamp (line 30). That is an index error, modelled
  as `TooFewTimestamps`.
- The discharge kept in the state is already a daily rate, storage times
  leakiness (line 49). `get_value("discharge")` divides it once more by the
  step length in days (line 73). The two values coincide for a one-day step
  (`BmiLemmas.DailyDischarge`). For any other step they differ unless the
  discharge is zero.

## Model

| member | source | states |
|---|---|---|
| `Bucket.Initialize` | src/leakybucket/leakybucket_bmi.py:15-38 | Fails exactly when the series has fewer than two timestamps. Otherwise it gives a valid model: empty storage, zero discharge, step 0, end step equal to the series length, step size equal to the first gap between timestamps, and the configured leakiness. |
| `Bucket.Update` | src/leakybucket/leakybucket_bmi.py:40-55 | While steps remain: discharge is the filled storage (storage plus precipitation times step size) times the leakiness. The new storage is the filled storage minus discharge times the step length in days, and the index advances by one. On an exhausted series nothing changes. Validity and the setup (forcing, leakiness, step size, end) are kept. |
| `Bucket.Run` | src/leakybucket/leakybucket_bmi.py:40-55 | After n updates the index is the old index plus n, capped at the series end, and the model is still valid with the same setup. |
| `BucketLemmas.ExhaustedRunIsNoOp` | src/leakybucket/leakybucket_bmi.py:41 | Any number of updates on an exhausted series leaves storage, discharge and index unchanged. |
| `BucketLemmas.RunComposes` | src/leakybucket/leakybucket_bmi.py:40-55 | a updates followed by b updates equal a + b updates. |
| `BucketLemmas.RunPastEnd` | src/leakybucket/leakybucket_bmi.py:33-55 | Over-stepping past the series end gives the same state as stopping at the end, and that state is exhausted. |
| `BucketLemmas.UpdateRetains` | src/leakybucket/leakybucket_bmi.py:43-52 | One step keeps the fraction 1 − leakiness · step length in days of the filled storage. |
| `BucketLemmas.RunRetains` | src/leakybucket/leakybucket_bmi.py:40-55 | k updates, with k at most the remaining steps, fill and retain the bucket k times in step order. |
| `BucketLemmas.RetainedClosedForm` | src/leakybucket/leakybucket_bmi.py:43-52 | Closed form of k fill-and-retain steps. The initial storage is retained k times. Each step's inflow is retained once for every step from the one it fell in to the end. |
| `BucketLemmas.WaterBalance` | src/leakybucket/leakybucket_bmi.py:43-52 | Over any number of updates, the storage changes by exactly the precipitation that fell in the steps taken minus the water that discharge removed. |
| `BucketLemmas.StaysNonNegative` | src/leakybucket/leakybucket_bmi.py:49-52 | Storage and discharge stay non-negative over any number of updates. This holds if the starting storage and discharge are non-negative, the step size is non-negative, precipitation and leakiness are non-negative, and leakiness · step length in days is at most 1. `leakybucket_bmi.py` does not check these conditions. |
| `Bmi.GetValue` | src/leakybucket/leakybucket_bmi.py:68-75 | Succeeds only for "storage" (returns the storage) and for "discharge" with a non-zero step. For "discharge", the returned value times the step length in days is the discharge. Unknown names give `UnknownVariable`; a zero step gives `NonFiniteValue`. |
| `Bmi.GetVarUnits` | src/leakybucket/leakybucket_bmi.py:77-84 | Succeeds exactly on the two variable names: "m" for storage, "m d-1" for discharge. Any other name gives `UnknownVariable`. |
| `Bmi.SetValue` | src/leakybucket/leakybucket_bmi.py:86-91 | Succeeds exactly for "storage" with a non-empty source. It sets the storage to the first source element and keeps discharge, index and setup. Every other name, "discharge" included, gives `CannotSetVariable`. An empty source gives `EmptySource`. |
| `Bmi.GetValueAtIndices` | src/leakybucket/leakybucket_bmi.py:146-150 | Index 0 behaves as `get_value`; any other index gives `IndexOutOfBounds`. |
| `Bmi.SetValueAtIndices` | src/leakybucket/leakybucket_bmi.py:152-158 | Index 0 behaves as `set_value`; any other index gives `IndexOutOfBounds`. |
| `Bmi.GetGridType` | src/leakybucket/leakybucket_bmi.py:110-114 | Succeeds exactly for grid 0, with "scalar". Other grids give `UnknownGrid`. |
| `Bmi.GetGridRank` | src/leakybucket/leakybucket_bmi.py:116-120 | Succeeds exactly for grid 0, with rank 0. Other grids give `UnknownGrid`. |
| `Bmi.GetGridShape` | src/leakybucket/leakybucket_bmi.py:122-126 | Succeeds exactly for grid 0, with shape 1. Other grids give `UnknownGrid`. |
| `Bmi.GetVarGrid` | src/leakybucket/leakybucket_bmi.py:160-161 | Every variable lives on a grid that the grid queries accept: a scalar grid of rank 0 and shape 1. |
| `Bmi.GetOutputVarNames` | src/leakybucket/leakybucket_bmi.py:140-141 | There is exactly one output variable. It is a known variable name, and its units are "m d-1". |
| `Bmi.GetStartTime` | src/leakybucket/leakybucket_bmi.py:94-96 | The first timestamp of the series. |
| `Bmi.GetEndTime` | src/leakybucket/leakybucket_bmi.py:98-100 | The timestamp of the last step, at index end step − 1. |
| `Bmi.GetCurrentTime` | src/leakybucket/leakybucket_bmi.py:102-104 | Succeeds exactly while the series is not exhausted, with the timestamp at the current index. At the end it gives `SeriesExhausted`. |
| `Bmi.GetTimeStep` | src/leakybucket/leakybucket_bmi.py:106-107 | The gap between the first two timestamps, in seconds. |
| `Bmi.UpdateUntil` | src/leakybucket/leakybucket_bmi.py:57-59 | The result is the model after some number of updates, and every timestamp passed over is before the target. It fails exactly when every remaining timestamp is before the target, and then the series is exhausted. Otherwise it stops at a step whose timestamp is not before the target. |
| `Bmi.UpdateUntilLoop` | src/leakybucket/leakybucket_bmi.py:57-59 | The source's while-loop over `update` computes the same model and outcome as `UpdateUntil`. |
| `BmiLemmas.SetThenGetStorage` | src/leakybucket/leakybucket_bmi.py:68-91 | Setting the storage from a non-empty source succeeds, and reading the storage back returns the first source element. The reported discharge is unchanged. |
| `BmiLemmas.GetThenSetStorage` | src/leakybucket/leakybucket_bmi.py:68-91 | Writing back the storage just read returns the model unchanged. |
| `BmiLemmas.SettableIsReadable` | src/leakybucket/leakybucket_bmi.py:68-91 | Any name `set_value` accepts is a known variable that `get_value` can read. |
| `BmiLemmas.UnitsAndValuesAgree` | src/leakybucket/leakybucket_bmi.py:68-84 | `get_var_units` succeeds exactly for the names `get_value` does not reject as unknown. |
| `BmiLemmas.OutputVarsAreDescribed` | src/leakybucket/leakybucket_bmi.py:140-141 | The single output variable has units "m d-1". Its grid is the scalar grid of rank 0 and shape 1. It is readable whenever the step is non-zero, and it cannot be set. |
| `BmiLemmas.CurrentTimeAtStart` | src/leakybucket/leakybucket_bmi.py:94-104 | At step 0 the current time is the start time. |
| `BmiLemmas.CurrentTimeAtLastStep` | src/leakybucket/leakybucket_bmi.py:98-104 | At the last step the current time is the end time. After one more update, reading the current time fails. |
| `BmiLemmas.UpdateAdvancesTime` | src/leakybucket/leakybucket_bmi.py:40-59 | With strictly increasing timestamps, an update that leaves a step to read strictly increases the current time. This is what makes each `update_until` iteration progress. |
| `BmiLemmas.CurrentTimeMonotone` | src/leakybucket/leakybucket_bmi.py:94-104 | With non-decreasing timestamps, the current time never goes back over any number of updates. It stays between the start time and the end time. |
| `BmiLemmas.UniformCurrentTime` | src/leakybucket/leakybucket_bmi.py:29-34 | On a uniformly spaced series, the current time after n steps from the start is the start time plus n step sizes. |
| `BmiLemmas.UpdateUntilReachesTarget` | src/leakybucket/leakybucket_bmi.py:57-59 | Take a model whose series is not yet exhausted, non-decreasing timestamps, and a target no later than the end time. Then `update_until` succeeds at the first timestamp that is not before the target: the current time is at or after the target, and the previous step's time was before it. |
| `BmiLemmas.UpdateUntilPastEnd` | src/leakybucket/leakybucket_bmi.py:57-59 | With non-decreasing timestamps, a target after the end time runs the series to its end and then fails with `SeriesExhausted`. It does not loop forever. |
| `BmiLemmas.UpdateUntilIdempotent` | src/leakybucket/leakybucket_bmi.py:57-59 | Once `update_until` has reached a target, calling it again with the same target changes nothing. |
| `BmiLemmas.DailyDischarge` | src/leakybucket/leakybucket_bmi.py:72-73 | With a one-day step, the reported discharge after an update is the filled storage times the leakiness. |
| `BmiLemmas.TwoDayScenario` | src/leakybucket/leakybucket_bmi.py:15-55 | Two daily steps with leakiness 0.1 and precipitation 0 then 2: the bucket stays empty after step one. After step two it holds 155520 m and reports 17280 m d-1, and the series is exhausted. |

## Left out

- Configuration and forcing loading (`utils.read_config`, `utils.load_precip`) is file and NetCDF I/O. `Initialize` takes the parsed configuration and the loaded series as inputs. The config's forcing path is carried but not used.
- `Bucket.Initialize` requires timestamps and precipitation to have the same length. The loader's dataset guarantees this, because both share one time dimension.
- Float64 rounding, overflow, inf and nan are not modelled; all quantities are `real`. A zero step size makes `get_value("discharge")` divide by zero. The Python implementation then returns inf or nan, and the model returns `NonFiniteValue`.
- numpy wrapping is left out. `get_value` returns a `real`, not a 0-d array, and the `src` array of `set_value` is a `seq<real>`.
- Timestamps are whole Unix seconds. The datetime64 casting in `get_unixtime` and sub-second resolution are left out.
- The index variants take one integer index. Multi-element or empty index arrays, whose truth value numpy treats specially, are left out.
- `get_grid_x` / `get_grid_y` are coordinate lookups in the dataset, and the model keeps no coordinates.
- `get_var_itemsize`, `get_var_nbytes`, `get_var_type`, `get_time_units`, `get_component_name` and `finalize` return constants or do nothing.
- The eWaterCycle adapters (`ewatercycle_models.py`, `ewatercycle_leakybucket/model.py`, `ewatercycle_plugin/toymodel.py`) are framework glue. They cover config-file writing, pydantic validators and container images.
