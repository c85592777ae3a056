/** Properties that relate several calls of the BMI query surface. */
module BmiLemmas {
  import opened Wrappers
  import opened Bucket
  import opened BucketLemmas
  import opened Bmi

  /** Setting the storage and reading it back returns the first source element. */
  lemma SetThenGetStorage(m: Model, src: seq<real>)
    requires |src| > 0
    ensures SetValue(m, "storage", src).Ok?
    ensures GetValue(SetValue(m, "storage", src).value, "storage") == Ok(src[0])
    ensures GetValue(SetValue(m, "storage", src).value, "discharge") == GetValue(m, "discharge")
  {
  }

  /** Writing back the storage just read leaves the model as it was. */
  lemma GetThenSetStorage(m: Model)
    ensures SetValue(m, "storage", [GetValue(m, "storage").value]) == Ok(m)
  {
  }

  /** Whatever `set_value` accepts, `get_value` can read back. */
  lemma SettableIsReadable(m: Model, name: string, src: seq<real>)
    ensures SetValue(m, name, src).Ok? ==> GetValue(m, name).Ok? && name in VarNames
  {
  }

  /** `get_var_units` and `get_value` reject exactly the same unknown names. */
  lemma UnitsAndValuesAgree(m: Model, name: string)
    ensures GetVarUnits(name).Ok? <==> GetValue(m, name) != Err(UnknownVariable(name))
  {
  }

  /** Every output variable has units, lives on a known grid and can be read. */
  lemma OutputVarsAreDescribed(m: Model)
    ensures |GetOutputVarNames()| == 1
    ensures forall i :: 0 <= i < |GetOutputVarNames()| ==>
      var name := GetOutputVarNames()[i];
      && GetVarUnits(name) == Ok("m d-1")
      && GetGridType(GetVarGrid(name)) == Ok("scalar")
      && GetGridShape(GetVarGrid(name)) == Ok(1)
      && GetGridRank(GetVarGrid(name)) == Ok(0)
      && (m.timestepSize != 0 ==> GetValue(m, name).Ok?)
      && SetValue(m, name, [0.0]) == Err(CannotSetVariable(name))
  {
  }

  /** At the first step the current time is the start time. */
  lemma CurrentTimeAtStart(m: Model)
    requires Valid(m) && m.currentTimestep == 0
    ensures GetCurrentTime(m) == Ok(GetStartTime(m))
  {
  }

  /** At the last step the current time is the end time; one more `update` exhausts the series. */
  lemma CurrentTimeAtLastStep(m: Model)
    requires Valid(m) && m.currentTimestep == m.endTimestep - 1
    ensures GetCurrentTime(m) == Ok(GetEndTime(m))
    ensures GetCurrentTime(Update(m)) == Err(SeriesExhausted)
  {
  }

  /** Timestamps never go back. */
  predicate NonDecreasing(time: seq<int>)
  {
    forall i, j :: 0 <= i <= j < |time| ==> time[i] <= time[j]
  }

  /** Timestamps strictly increase. */
  predicate StrictlyIncreasing(time: seq<int>)
  {
    forall i, j :: 0 <= i < j < |time| ==> time[i] < time[j]
  }

  /** Every timestamp is the start time plus a whole number of step sizes. */
  predicate Uniform(time: seq<int>)
    requires 2 <= |time|
  {
    forall i :: 0 <= i < |time| ==> time[i] == time[0] + i * (time[1] - time[0])
  }

  /** With strictly increasing timestamps every `update` that leaves a step to read moves the current time forward. */
  lemma UpdateAdvancesTime(m: Model)
    requires Valid(m) && StrictlyIncreasing(m.forcing.time)
    requires m.currentTimestep + 1 < m.endTimestep
    ensures GetCurrentTime(m).Ok? && GetCurrentTime(Update(m)).Ok?
    ensures GetCurrentTime(m).value < GetCurrentTime(Update(m)).value
  {
  }

  /** With non-decreasing timestamps the current time never goes back over any number of updates. */
  lemma CurrentTimeMonotone(m: Model, n: nat)
    requires Valid(m) && NonDecreasing(m.forcing.time)
    requires m.currentTimestep + n < m.endTimestep
    ensures GetCurrentTime(m).Ok? && GetCurrentTime(Run(m, n)).Ok?
    ensures GetStartTime(m) <= GetCurrentTime(m).value <= GetCurrentTime(Run(m, n)).value <= GetEndTime(m)
  {
  }

  /** On a uniform series the current time after `n` steps from the start is `n` step sizes past the start time. */
  lemma UniformCurrentTime(m: Model, n: nat)
    requires Valid(m) && Uniform(m.forcing.time)
    requires m.currentTimestep == 0 && n < m.endTimestep
    ensures GetCurrentTime(Run(m, n)) == Ok(GetStartTime(m) + n * GetTimeStep(m))
  {
  }

  /**
    A target no later than the end time is reached without error, at the first
    timestamp that is not before it (for non-decreasing timestamps).
   */
  lemma UpdateUntilReachesTarget(m: Model, target: real)
    requires Valid(m) && NonDecreasing(m.forcing.time) && !Exhausted(m)
    requires target <= GetEndTime(m) as real
    ensures UpdateUntil(m, target).1 == Pass
    ensures var r := UpdateUntil(m, target).0;
      && GetCurrentTime(r).Ok?
      && target <= GetCurrentTime(r).value as real
      && (r.currentTimestep > m.currentTimestep ==> (m.forcing.time[r.currentTimestep - 1] as real) < target)
  {
    var r := UpdateUntil(m, target).0;
    assert !AllBefore(m.forcing.time, m.currentTimestep, m.endTimestep, target) by {
      assert !((m.forcing.time[m.endTimestep - 1] as real) < target);
    }
  }

  /**
    A target after the end time is never reached: `update_until` runs the
    series out and then fails reading the current time, rather than looping.
   */
  lemma UpdateUntilPastEnd(m: Model, target: real)
    requires Valid(m) && NonDecreasing(m.forcing.time)
    requires target > GetEndTime(m) as real
    ensures UpdateUntil(m, target) == (Run(m, m.endTimestep - m.currentTimestep), Fail(SeriesExhausted))
  {
    assert AllBefore(m.forcing.time, m.currentTimestep, m.endTimestep, target) by {
      forall j | m.currentTimestep <= j < m.endTimestep
        ensures (m.forcing.time[j] as real) < target
      {
        assert m.forcing.time[j] <= m.forcing.time[m.endTimestep - 1];
      }
    }
  }

  /** Once `update_until` has reached a target, asking again changes nothing. */
  lemma UpdateUntilIdempotent(m: Model, target: real)
    requires Valid(m)
    ensures var (r, outcome) := UpdateUntil(m, target);
      outcome.Pass? ==> UpdateUntil(r, target) == (r, Pass)
  {
  }

  /** With a one-day step the reported discharge is the filled bucket times the leakiness. */
  lemma DailyDischarge(m: Model)
    requires Valid(m) && !Exhausted(m) && m.timestepSize == 86400
    ensures GetValue(Update(m), "discharge")
      == Ok((m.storage + m.forcing.precip[m.currentTimestep] * 86400.0) * m.leakiness)
  {
    var m1 := Update(m);
    assert m1.discharge == (m.storage + m.forcing.precip[m.currentTimestep] * 86400.0) * m.leakiness;
    assert StepDays(m1) == 1.0;
    var v := GetValue(m1, "discharge").value;
    assert v * 1.0 == m1.discharge;
  }

  /**
    Two daily steps with leakiness 0.1 per day: no rain, then 2 kg m-2 s-1.
    The first step leaves the bucket empty; the second fills it to 172800 m,
    discharges 17280 m d-1 and keeps 155520 m.
   */
  lemma TwoDayScenario()
    ensures var init := Initialize(Config("forcing.nc", 0.1), Forcing([0, 86400], [0.0, 2.0]));
      && init.Ok?
      && Run(init.value, 1).storage == 0.0
      && Run(init.value, 1).discharge == 0.0
      && Run(init.value, 2).storage == 155520.0
      && GetValue(Run(init.value, 2), "discharge") == Ok(17280.0)
      && Exhausted(Run(init.value, 2))
  {
    var m0 := Initialize(Config("forcing.nc", 0.1), Forcing([0, 86400], [0.0, 2.0])).value;
    var m1 := Update(m0);
    assert Run(m0, 1) == m1;
    assert Run(m0, 2) == Update(m1);
  }
}
