/** One integration step: an ordered run of (time, state, state derivative) samples
    that share one state dimension. */
module Steps {
  import opened Results
  import opened Matrices

  function Last<T>(s: seq<T>): T
    requires |s| > 0
  {
    s[|s| - 1]
  }

  /** The samples of a step, as a value. */
  datatype Step = Step(times: seq<real>, states: seq<Matrix>, derivatives: seq<Matrix>)

  /** At least one sample, strictly increasing times, and every state and derivative
      a column with as many rows as the first state. */
  predicate WellFormed(s: Step)
  {
    && |s.times| >= 1
    && |s.states| == |s.times|
    && |s.derivatives| == |s.times|
    && (forall i, j :: 0 <= i < j < |s.times| ==> s.times[i] < s.times[j])
    && (forall i :: 0 <= i < |s.states| ==> IsColumnOf(s.states[i], s.states[0].rows))
    && (forall i :: 0 <= i < |s.derivatives| ==> IsColumnOf(s.derivatives[i], s.states[0].rows))
  }

  /** The time of the first sample, the earliest of the step. */
  function StartTime(s: Step): (t: real)
    requires WellFormed(s)
    ensures t in s.times
    ensures forall i :: 0 <= i < |s.times| ==> t <= s.times[i]
  {
    s.times[0]
  }

  /** The time of the last sample, the latest of the step. */
  function EndTime(s: Step): (t: real)
    requires WellFormed(s)
    ensures t in s.times
    ensures forall i :: 0 <= i < |s.times| ==> s.times[i] <= t
  {
    Last(s.times)
  }

  /** The row count that every state and derivative of the step has. */
  function Dimensions(s: Step): (d: nat)
    requires WellFormed(s)
    ensures forall i :: 0 <= i < |s.states| ==> s.states[i].rows == d && s.derivatives[i].rows == d
  {
    s.states[0].rows
  }

  /** A step has zero length exactly when it holds a single sample. */
  lemma ZeroLengthIffSingleSample(s: Step)
    requires WellFormed(s)
    ensures StartTime(s) == EndTime(s) <==> |s.times| == 1
  {
  }

  /** The shape the first sample of a step must have: a state column and a derivative
      column with as many rows. */
  predicate FirstSampleShape(x0: Matrix, dx0: Matrix)
  {
    x0.cols == 1 && IsColumnOf(dx0, x0.rows)
  }

  /** A step under construction. `Extend` grows its sample lists in place. */
  class IntegrationStep {
    var times: seq<real>
    var states: seq<Matrix>
    var derivatives: seq<Matrix>

    /** The samples held so far. */
    function Value(): Step
      reads this
    {
      Step(times, states, derivatives)
    }

    ghost predicate Valid()
      reads this
    {
      WellFormed(Value())
    }

    /** A zero-length step holding the single sample (t0, x0, dx0). */
    constructor (t0: real, x0: Matrix, dx0: Matrix)
      requires FirstSampleShape(x0, dx0)
      ensures Valid()
      ensures times == [t0] && states == [x0] && derivatives == [dx0]
    {
      times := [t0];
      states := [x0];
      derivatives := [dx0];
    }

    /** The checked construction: a first sample of the wrong shape is a runtime error. */
    static method Create(t0: real, x0: Matrix, dx0: Matrix) returns (r: Result<IntegrationStep>)
      ensures r.Ok? <==> FirstSampleShape(x0, dx0)
      ensures r.Err? ==> r.error == RuntimeError
      ensures r.Ok? ==> fresh(r.value) && r.value.Valid()
      ensures r.Ok? ==> r.value.times == [t0] && r.value.states == [x0] && r.value.derivatives == [dx0]
    {
      if x0.cols != 1 || dx0.cols != 1 || x0.rows != dx0.rows {
        return Err(RuntimeError);
      }
      var step := new IntegrationStep(t0, x0, dx0);
      return Ok(step);
    }

    /** Appends the sample (t, x, dx). The time must come after the current end time and
        both matrices must be columns of the step's dimension; otherwise nothing changes
        and a runtime error is reported. */
    method Extend(t: real, x: Matrix, dx: Matrix) returns (r: Outcome)
      requires Valid()
      modifies this
      ensures Valid()
      ensures r.Pass? <==> t > EndTime(old(Value())) && IsColumnOf(x, Dimensions(old(Value()))) && IsColumnOf(dx, Dimensions(old(Value())))
      ensures r.Fail? ==> r.error == RuntimeError && Value() == old(Value())
      ensures r.Pass? ==> times == old(times) + [t] && states == old(states) + [x] && derivatives == old(derivatives) + [dx]
    {
      var d := Dimensions(Value());
      if t <= Last(times) {
        return Fail(RuntimeError);
      }
      if x.rows != d || dx.rows != d {
        return Fail(RuntimeError);
      }
      if x.cols != 1 || dx.cols != 1 {
        return Fail(RuntimeError);
      }
      times := times + [t];
      states := states + [x];
      derivatives := derivatives + [dx];
      r := Pass;
    }
  }
}
