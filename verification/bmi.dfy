/**
  The BMI query surface of `LeakyBucketLumpedBmi`: variables by name, the
  single-cell grid, the time axis, and `update_until`.
 */
module Bmi {
  import opened Wrappers
  import opened Bucket

  /** The variable names `get_value` and `get_var_units` accept. */
  const VarNames: set<string> := {"storage", "discharge"}

  /** `get_value`: the storage [m], or the discharge rescaled by the step length in days. */
  function GetValue(m: Model, name: string): (r: Result<real, Error>)
    ensures r.Ok? <==> name == "storage" || (name == "discharge" && m.timestepSize != 0)
    ensures name == "storage" ==> r == Ok(m.storage)
    ensures name == "discharge" && r.Ok? ==> r.value * StepDays(m) == m.discharge
    ensures name == "discharge" && m.timestepSize == 0 ==> r == Err(NonFiniteValue)
    ensures name !in VarNames ==> r == Err(UnknownVariable(name))
  {
    match name
    case "storage" => Ok(m.storage)
    case "discharge" =>
      if m.timestepSize == 0 then Err(NonFiniteValue)
      else Ok(m.discharge / (m.timestepSize as real / 24.0 / 3600.0))
    case _ => Err(UnknownVariable(name))
  }

  /** `get_var_units`: metres for the storage, metres per day for the discharge. */
  function GetVarUnits(name: string): (r: Result<string, Error>)
    ensures r.Ok? <==> name in VarNames
    ensures r.Err? ==> r.error == UnknownVariable(name)
    ensures name == "storage" ==> r == Ok("m")
    ensures name == "discharge" ==> r == Ok("m d-1")
  {
    match name
    case "storage" => Ok("m")
    case "discharge" => Ok("m d-1")
    case _ => Err(UnknownVariable(name))
  }

  /** `set_value`: only the storage is settable, from the first element of the source array. */
  function SetValue(m: Model, name: string, src: seq<real>): (r: Result<Model, Error>)
    ensures r.Ok? <==> name == "storage" && |src| > 0
    ensures name != "storage" ==> r == Err(CannotSetVariable(name))
    ensures name == "storage" && |src| == 0 ==> r == Err(EmptySource)
    ensures r.Ok? ==>
      && r.value.storage == src[0]
      && r.value.discharge == m.discharge
      && r.value.currentTimestep == m.currentTimestep
      && SameSetup(m, r.value)
  {
    match name
    case "storage" => if |src| == 0 then Err(EmptySource) else Ok(m.(storage := src[0]))
    case _ => Err(CannotSetVariable(name))
  }

  /** `get_value_at_indices`: the single cell 0 delegates to `get_value`. */
  function GetValueAtIndices(m: Model, name: string, index: int): (r: Result<real, Error>)
    ensures index == 0 ==> r == GetValue(m, name)
    ensures index != 0 ==> r == Err(IndexOutOfBounds)
  {
    if index == 0 then GetValue(m, name) else Err(IndexOutOfBounds)
  }

  /** `set_value_at_indices`: the single cell 0 delegates to `set_value`. */
  function SetValueAtIndices(m: Model, name: string, index: int, src: seq<real>): (r: Result<Model, Error>)
    ensures index == 0 ==> r == SetValue(m, name, src)
    ensures index != 0 ==> r == Err(IndexOutOfBounds)
  {
    if index == 0 then SetValue(m, name, src) else Err(IndexOutOfBounds)
  }

  /** `get_grid_type`: grid 0 is a scalar. */
  function GetGridType(grid: int): (r: Result<string, Error>)
    ensures r.Ok? <==> grid == 0
    ensures r.Ok? ==> r.value == "scalar"
    ensures r.Err? ==> r.error == UnknownGrid(grid)
  {
    if grid == 0 then Ok("scalar") else Err(UnknownGrid(grid))
  }

  /** `get_grid_rank`: grid 0 has no dimensions. */
  function GetGridRank(grid: int): (r: Result<int, Error>)
    ensures r.Ok? <==> grid == 0
    ensures r.Ok? ==> r.value == 0
    ensures r.Err? ==> r.error == UnknownGrid(grid)
  {
    if grid == 0 then Ok(0) else Err(UnknownGrid(grid))
  }

  /** `get_grid_shape`: grid 0 holds a single value. */
  function GetGridShape(grid: int): (r: Result<int, Error>)
    ensures r.Ok? <==> grid == 0
    ensures r.Ok? ==> r.value == 1
    ensures r.Err? ==> r.error == UnknownGrid(grid)
  {
    if grid == 0 then Ok(1) else Err(UnknownGrid(grid))
  }

  /** `get_var_grid`: every variable lives on grid 0, whatever its name. */
  function GetVarGrid(name: string): (grid: int)
    ensures GetGridType(grid) == Ok("scalar")
    ensures GetGridRank(grid) == Ok(0)
    ensures GetGridShape(grid) == Ok(1)
  {
    0
  }

  /** `get_output_var_names`: the discharge is the one output. */
  function GetOutputVarNames(): (names: seq<string>)
    ensures |names| == 1
    ensures forall i :: 0 <= i < |names| ==> names[i] in VarNames && GetVarUnits(names[i]) == Ok("m d-1")
  {
    ["discharge"]
  }

  /** `get_start_time`: the first timestamp of the series. */
  function GetStartTime(m: Model): (t: int)
    requires Valid(m)
    ensures t == m.forcing.time[0]
  {
    m.forcing.time[0]
  }

  /** `get_end_time`: the last timestamp of the series. */
  function GetEndTime(m: Model): (t: int)
    requires Valid(m)
    ensures t == m.forcing.time[m.endTimestep - 1]
  {
    m.forcing.time[|m.forcing.time| - 1]
  }

  /** `get_current_time`: the timestamp at the current step; indexing past the series end raises. */
  function GetCurrentTime(m: Model): (r: Result<int, Error>)
    requires Valid(m)
    ensures r.Ok? <==> !Exhausted(m)
    ensures r.Ok? ==> r.value == m.forcing.time[m.currentTimestep]
    ensures r.Err? ==> r.error == SeriesExhausted
  {
    if m.currentTimestep < |m.forcing.time| then Ok(m.forcing.time[m.currentTimestep])
    else Err(SeriesExhausted)
  }

  /** `get_time_step`: the step size in seconds, as derived by `initialize`. */
  function GetTimeStep(m: Model): (dt: int)
    requires Valid(m)
    ensures dt == m.forcing.time[1] - m.forcing.time[0]
  {
    m.timestepSize
  }

  /** No timestamp from step `lo` up to (excluding) step `hi` has reached `target`. */
  predicate AllBefore(time: seq<int>, lo: nat, hi: nat, target: real)
    requires lo <= hi <= |time|
  {
    forall j :: lo <= j < hi ==> (time[j] as real) < target
  }

  /**
    `update_until`: call `update` while the current time is before `target`.
    The loop stops at the first step whose timestamp has reached `target`;
    if no remaining timestamp does, the series runs out and reading the
    current time raises, leaving the model at the end of the series.
   */
  function UpdateUntil(m: Model, target: real): (r: (Model, Outcome<Error>))
    requires Valid(m)
    ensures Valid(r.0) && SameSetup(m, r.0)
    ensures m.currentTimestep <= r.0.currentTimestep
    ensures r.0 == Run(m, r.0.currentTimestep - m.currentTimestep)
    ensures AllBefore(m.forcing.time, m.currentTimestep, r.0.currentTimestep, target)
    ensures r.1.Fail? <==> AllBefore(m.forcing.time, m.currentTimestep, m.endTimestep, target)
    ensures r.1.Fail? ==> Exhausted(r.0) && r.1.error == SeriesExhausted
    ensures r.1.Pass? ==> !Exhausted(r.0) && target <= m.forcing.time[r.0.currentTimestep] as real
    decreases m.endTimestep - m.currentTimestep
  {
    match GetCurrentTime(m)
    case Err(e) => (m, Fail(e))
    case Ok(now) =>
      if (now as real) < target then UpdateUntil(Update(m), target) else (m, Pass)
  }

  /** `update_until` as `leakybucket_bmi.py` writes it: a loop around `update`. */
  method UpdateUntilLoop(m: Model, target: real) returns (r: Model, outcome: Outcome<Error>)
    requires Valid(m)
    ensures (r, outcome) == UpdateUntil(m, target)
  {
    r := m;
    while true
      invariant Valid(r)
      invariant UpdateUntil(r, target) == UpdateUntil(m, target)
      decreases r.endTimestep - r.currentTimestep
    {
      var now := GetCurrentTime(r);
      if now.Err? {
        return r, Fail(now.error);
      }
      if !((now.value as real) < target) {
        return r, Pass;
      }
      r := Update(r);
    }
  }
}
