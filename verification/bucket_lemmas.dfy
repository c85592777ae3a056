/** Properties of the leaky-bucket step law over many steps. */
module BucketLemmas {
  import opened Bucket

  /** Calling `update` on an exhausted series is a no-op, however often it is repeated. */
  lemma {:induction false} ExhaustedRunIsNoOp(m: Model, n: nat)
    requires Valid(m) && Exhausted(m)
    ensures Run(m, n) == m
    decreases n
  {
    if n > 0 {
      assert Update(m) == m;
      ExhaustedRunIsNoOp(m, n - 1);
    }
  }

  /** Running `a` steps and then `b` steps is running `a + b` steps. */
  lemma {:induction false} RunComposes(m: Model, a: nat, b: nat)
    requires Valid(m)
    ensures Run(Run(m, a), b) == Run(m, a + b)
    decreases a
  {
    if a > 0 {
      RunComposes(Update(m), a - 1, b);
    }
  }

  /** Over-stepping past the end of the series gives the same state as stopping at the end. */
  lemma RunPastEnd(m: Model, n: nat)
    requires Valid(m) && m.currentTimestep + n >= m.endTimestep
    ensures Run(m, n) == Run(m, m.endTimestep - m.currentTimestep)
    ensures Exhausted(Run(m, n))
  {
    var k := m.endTimestep - m.currentTimestep;
    RunComposes(m, k, n - k);
    ExhaustedRunIsNoOp(Run(m, k), n - k);
  }

  /** The fraction of the filled bucket that stays in it during one step. */
  function Retention(m: Model): real
  {
    1.0 - m.leakiness * StepDays(m)
  }

  function Pow(x: real, n: nat): real
  {
    if n == 0 then 1.0 else x * Pow(x, n - 1)
  }

  /**
    The response of the bucket at step `hi` to the precipitation of steps
    `lo .. hi - 1`: each step's inflow, retained once per step since it fell.
   */
  function Response(p: seq<real>, dt: real, ret: real, lo: nat, hi: nat): real
    requires lo <= hi <= |p|
    decreases hi - lo
  {
    if lo == hi then 0.0 else p[lo] * dt * Pow(ret, hi - lo) + Response(p, dt, ret, lo + 1, hi)
  }

  /** One step retains the filled bucket: the discharge leaks `leakiness * StepDays` of it. */
  lemma UpdateRetains(m: Model)
    requires Valid(m) && !Exhausted(m)
    ensures Update(m).storage
      == (m.storage + m.forcing.precip[m.currentTimestep] * m.timestepSize as real) * Retention(m)
  {
  }

  /** The storage after filling and retaining the bucket for the `k` steps from step `i` on. */
  function Retained(s: real, p: seq<real>, dt: real, ret: real, i: nat, k: nat): real
    requires i + k <= |p|
    decreases k
  {
    if k == 0 then s else Retained((s + p[i] * dt) * ret, p, dt, ret, i + 1, k - 1)
  }

  /** Unfolding one step of `Retained`. */
  lemma RetainedStep(s: real, s1: real, p: seq<real>, dt: real, ret: real, i: nat, k: nat)
    requires 0 < k && i + k <= |p| && s1 == (s + p[i] * dt) * ret
    ensures Retained(s, p, dt, ret, i, k) == Retained(s1, p, dt, ret, i + 1, k - 1)
  {
  }

  /** `k` calls of `update` fill and retain the bucket `k` times. */
  lemma {:induction false} RunRetains(m: Model, k: nat)
    requires Valid(m) && m.currentTimestep + k <= m.endTimestep
    ensures Run(m, k).storage
      == Retained(m.storage, m.forcing.precip, m.timestepSize as real, Retention(m), m.currentTimestep, k)
    decreases k
  {
    if k > 0 {
      var p, dt, ret, i := m.forcing.precip, m.timestepSize as real, Retention(m), m.currentTimestep;
      var m1 := Update(m);
      assert m1.storage == (m.storage + p[i] * dt) * ret by {
        UpdateRetains(m);
      }
      assert Run(m1, k - 1).storage == Retained(m1.storage, p, dt, ret, i + 1, k - 1) by {
        RunRetains(m1, k - 1);
        assert Retention(m1) == ret;
      }
      assert Run(m, k) == Run(m1, k - 1);
      RetainedStep(m.storage, m1.storage, p, dt, ret, i, k);
    }
  }

  /**
    Closed form of the storage: after `k` steps the initial storage has been
    retained `k` times and every step's inflow once per step since it fell.
   */
  lemma {:induction false} RetainedClosedForm(s: real, p: seq<real>, dt: real, ret: real, i: nat, k: nat)
    requires i + k <= |p|
    ensures Retained(s, p, dt, ret, i, k) == s * Pow(ret, k) + Response(p, dt, ret, i, i + k)
    decreases k
  {
    if k > 0 {
      var s1 := (s + p[i] * dt) * ret;
      RetainedClosedForm(s1, p, dt, ret, i + 1, k - 1);
      ResponseStep(p, dt, ret, s, s1, i, k);
    }
  }

  /** One step of the closed form: retaining a filled bucket extends the response by one step. */
  lemma ResponseStep(p: seq<real>, dt: real, ret: real, s: real, s1: real, i: nat, k: nat)
    requires 0 < k && i + k <= |p|
    requires s1 == (s + p[i] * dt) * ret
    ensures s1 * Pow(ret, k - 1) + Response(p, dt, ret, i + 1, i + k)
         == s * Pow(ret, k) + Response(p, dt, ret, i, i + k)
  {
    var q := Pow(ret, k - 1);
    assert (s + p[i] * dt) * ret * q == s * (ret * q) + p[i] * dt * (ret * q);
  }

  /** Total precipitation volume [m] falling in steps `lo .. hi - 1`. */
  function Inflow(p: seq<real>, dt: real, lo: nat, hi: nat): real
    requires lo <= hi <= |p|
    decreases hi - lo
  {
    if lo == hi then 0.0 else p[lo] * dt + Inflow(p, dt, lo + 1, hi)
  }

  /** Total water [m] leaked during the next `n` calls of `update`. */
  function Outflow(m: Model, n: nat): real
    requires Valid(m)
    decreases n
  {
    if n == 0 || Exhausted(m) then 0.0
    else Update(m).discharge * StepDays(m) + Outflow(Update(m), n - 1)
  }

  /** Water balance: storage changes by exactly the precipitation in minus the discharge out. */
  lemma {:induction false} WaterBalance(m: Model, n: nat)
    requires Valid(m)
    ensures m.currentTimestep <= Run(m, n).currentTimestep <= |m.forcing.precip|
    ensures Run(m, n).storage
      == m.storage
       + Inflow(m.forcing.precip, m.timestepSize as real, m.currentTimestep, Run(m, n).currentTimestep)
       - Outflow(m, n)
    decreases n
  {
    if n > 0 && !Exhausted(m) {
      WaterBalance(Update(m), n - 1);
    } else if n > 0 {
      ExhaustedRunIsNoOp(m, n);
    }
  }

  /** Every precipitation value is non-negative. */
  predicate NonNegativePrecip(f: Forcing)
  {
    forall i :: 0 <= i < |f.precip| ==> f.precip[i] >= 0.0
  }

  /**
    Storage and discharge stay non-negative provided the bucket cannot leak
    more than it holds in one step (`leakiness * StepDays <= 1`); `leakybucket_bmi.py`
    does not check this condition.
   */
  lemma {:induction false} StaysNonNegative(m: Model, n: nat)
    requires Valid(m) && NonNegativePrecip(m.forcing)
    requires m.timestepSize >= 0 && m.leakiness >= 0.0 && m.leakiness * StepDays(m) <= 1.0
    requires m.storage >= 0.0 && m.discharge >= 0.0
    ensures Run(m, n).storage >= 0.0 && Run(m, n).discharge >= 0.0
    decreases n
  {
    if n > 0 && !Exhausted(m) {
      var filled := m.storage + m.forcing.precip[m.currentTimestep] * m.timestepSize as real;
      assert filled >= 0.0 by {
        assert m.forcing.precip[m.currentTimestep] >= 0.0;
      }
      UpdateRetains(m);
      assert Update(m).storage >= 0.0 by {
        assert Retention(m) >= 0.0;
      }
      assert Update(m).discharge >= 0.0;
      StaysNonNegative(Update(m), n - 1);
    } else if n > 0 {
      ExhaustedRunIsNoOp(m, n);
    }
  }
}
