/**
  The water-balance state machine of the lumped leaky-bucket model: the state
  set up by `initialize` and the step law of `update`.
  Floating-point quantities are idealised as `real`.
 */
module Bucket {
  import opened Wrappers

  /** Seconds in one day; `leakybucket_bmi.py` divides the step size by 24 and then by 3600. */
  const SecondsPerDay: real := 86400.0

  /** Everything the bucket model can raise instead of returning. */
  datatype Error =
    | TooFewTimestamps           // the forcing has no second timestamp to derive the step size from
    | SeriesExhausted            // the time series is indexed at the end step
    | EmptySource                // `set_value` was handed an empty source array
    | NonFiniteValue             // a float64 division by a zero step size (inf or nan)
    | UnknownVariable(name: string)
    | CannotSetVariable(name: string)
    | UnknownGrid(grid: int)
    | IndexOutOfBounds

  /** The parsed configuration: the forcing file and the leakiness parameter [d-1]. */
  datatype Config = Config(forcingFile: string, leakiness: real)

  /** The loaded forcing: Unix timestamps [s] and precipitation [kg m-2 s-1], one of each per step. */
  datatype Forcing = Forcing(time: seq<int>, precip: seq<real>)

  /** Timestamps and precipitation share one time dimension. */
  predicate WellFormed(f: Forcing)
  {
    |f.time| == |f.precip|
  }

  /** The state of one `LeakyBucketLumpedBmi` instance after `initialize`. */
  datatype Model = Model(
    forcing: Forcing,
    leakiness: real,        // [d-1]
    timestepSize: int,      // [s]
    storage: real,          // [m]
    discharge: real,        // [m d-1]
    currentTimestep: nat,
    endTimestep: nat)

  /** The invariant `initialize` establishes and `update` keeps. */
  predicate Valid(m: Model)
  {
    && WellFormed(m.forcing)
    && 2 <= |m.forcing.time|
    && m.endTimestep == |m.forcing.time|
    && m.currentTimestep <= m.endTimestep
    && m.timestepSize == m.forcing.time[1] - m.forcing.time[0]
  }

  /** The step size expressed in days. */
  function StepDays(m: Model): real
  {
    m.timestepSize as real / SecondsPerDay
  }

  /** True once every step of the series has been taken. */
  predicate Exhausted(m: Model)
  {
    m.currentTimestep == m.endTimestep
  }

  /** The model parameters and the forcing are the same in both states. */
  predicate SameSetup(m: Model, m': Model)
  {
    && m'.forcing == m.forcing
    && m'.leakiness == m.leakiness
    && m'.timestepSize == m.timestepSize
    && m'.endTimestep == m.endTimestep
  }

  /** `initialize`: empty bucket at the first step; the step size is the gap between the first two timestamps. */
  function Initialize(cfg: Config, f: Forcing): (r: Result<Model, Error>)
    requires WellFormed(f)
    ensures r.Err? <==> |f.time| < 2
    ensures r.Err? ==> r.error == TooFewTimestamps
    ensures r.Ok? ==>
      && Valid(r.value)
      && r.value.forcing == f
      && r.value.leakiness == cfg.leakiness
      && r.value.storage == 0.0
      && r.value.discharge == 0.0
      && r.value.currentTimestep == 0
      && r.value.endTimestep == |f.precip|
      && r.value.timestepSize == f.time[1] - f.time[0]
  {
    if |f.time| < 2 then
      Err(TooFewTimestamps)
    else
      Ok(Model(f, cfg.leakiness, f.time[1] - f.time[0], 0.0, 0.0, 0, |f.time|))
  }

  /**
    `update`: while steps remain, add this step's precipitation, leak a fraction
    `leakiness` per day of the filled bucket, and advance; once the series is
    exhausted, nothing changes.
   */
  function Update(m: Model): (r: Model)
    requires Valid(m)
    ensures Valid(r) && SameSetup(m, r)
    ensures !Exhausted(m) ==>
      var filled := m.storage + m.forcing.precip[m.currentTimestep] * m.timestepSize as real;
      && r.discharge == filled * m.leakiness
      && r.storage == filled - r.discharge * StepDays(m)
      && r.currentTimestep == m.currentTimestep + 1
    ensures Exhausted(m) ==> r == m
  {
    if m.currentTimestep < m.endTimestep then
      var storage := m.storage + m.forcing.precip[m.currentTimestep] * m.timestepSize as real;
      var discharge := storage * m.leakiness;
      var storage' := storage - discharge * (m.timestepSize as real / 24.0 / 3600.0);
      m.(storage := storage', discharge := discharge, currentTimestep := m.currentTimestep + 1)
    else
      m
  }

  /** `n` successive calls of `update`. */
  function Run(m: Model, n: nat): (r: Model)
    requires Valid(m)
    ensures Valid(r) && SameSetup(m, r)
    ensures r.currentTimestep == if m.currentTimestep + n <= m.endTimestep then m.currentTimestep + n else m.endTimestep
    decreases n
  {
    if n == 0 then m else Run(Update(m), n - 1)
  }
}
