/** The dense-output test cases, each generalised from its fixed constants to every input
    of the same kind: a client that drives the objects and reports what the test observes. */
module Scenarios {
  import opened Results
  import opened Matrices
  import opened Hermite
  import opened Steps
  import opened Trajectory
  import opened DenseOutput

  /** The two-sample step (t0, x0, dx0), (t1, x1, dx1), built by construction and one `Extend`. */
  method TwoSampleStep(t0: real, x0: Matrix, dx0: Matrix, t1: real, x1: Matrix, dx1: Matrix)
    returns (step: IntegrationStep)
    requires t0 < t1 && SamplePair(x0.rows, x0, dx0, x1, dx1)
    ensures fresh(step) && step.Valid()
    ensures step.Value() == Step([t0, t1], [x0, x1], [dx0, dx1])
    ensures Advances(step.Value())
    ensures StartTime(step.Value()) == t0 && EndTime(step.Value()) == t1 && Dimensions(step.Value()) == x0.rows
  {
    step := new IntegrationStep(t0, x0, dx0);
    var r := step.Extend(t1, x1, dx1);
  }

  /** A fresh output is empty, and every query, `Rollback` and `Consolidate` raise a logic error. */
  method FreshOutputRejectsQueries(t: real)
    returns (empty: bool, value: Result<Matrix>, start: Result<real>, end: Result<real>,
             dims: Result<nat>, rollback: Outcome, consolidate: Outcome)
    ensures empty
    ensures value == Err(LogicError) && start == Err(LogicError) && end == Err(LogicError)
    ensures dims == Err(LogicError)
    ensures rollback == Fail(LogicError) && consolidate == Fail(LogicError)
  {
    var output := new HermitianDenseOutput();
    empty := output.IsEmpty();
    value := output.Evaluate(t);
    start := output.GetStartTime();
    end := output.GetEndTime();
    dims := output.GetDimensions();
    rollback := output.Rollback();
    consolidate := output.Consolidate();
  }

  /** A step built from one sample has zero length: `Update` raises a runtime error and
      stages nothing, so a following `Rollback` still has nothing to discard. */
  method ZeroLengthUpdateRejected(t0: real, x0: Matrix, dx0: Matrix)
    returns (update: Outcome, empty: bool, rollback: Outcome)
    requires FirstSampleShape(x0, dx0)
    ensures update == Fail(RuntimeError)
    ensures empty && rollback == Fail(LogicError)
  {
    var output := new HermitianDenseOutput();
    var step := new IntegrationStep(t0, x0, dx0);
    update := output.Update(step);
    empty := output.IsEmpty();
    rollback := output.Rollback();
  }

  /** A positive-length first step is accepted, but only staged: the output stays empty
      and the queries still raise logic errors. */
  method UpdateStaysPending(t0: real, x0: Matrix, dx0: Matrix, t1: real, x1: Matrix, dx1: Matrix, t: real)
    returns (update: Outcome, empty: bool, value: Result<Matrix>, start: Result<real>,
             end: Result<real>, dims: Result<nat>)
    requires t0 < t1 && SamplePair(x0.rows, x0, dx0, x1, dx1)
    ensures update == Pass && empty
    ensures value == Err(LogicError) && start == Err(LogicError) && end == Err(LogicError)
    ensures dims == Err(LogicError)
  {
    var output := new HermitianDenseOutput();
    var step := TwoSampleStep(t0, x0, dx0, t1, x1, dx1);
    update := output.Update(step);
    empty := output.IsEmpty();
    value := output.Evaluate(t);
    start := output.GetStartTime();
    end := output.GetEndTime();
    dims := output.GetDimensions();
  }

  /** After `Consolidate` the output shows the step: not empty, its start time, end time
      and dimension, nothing left to roll back, and `Evaluate` defined exactly on
      [t0, t1], with a runtime error outside it. */
  method ConsolidatePublishes(t0: real, x0: Matrix, dx0: Matrix, t1: real, x1: Matrix, dx1: Matrix, t: real)
    returns (consolidate: Outcome, empty: bool, start: Result<real>, end: Result<real>,
             dims: Result<nat>, rollback: Outcome, value: Result<Matrix>)
    requires t0 < t1 && SamplePair(x0.rows, x0, dx0, x1, dx1)
    ensures consolidate == Pass && !empty
    ensures start == Ok(t0) && end == Ok(t1) && dims == Ok(x0.rows)
    ensures rollback == Fail(LogicError)
    ensures value.Ok? <==> t0 <= t <= t1
    ensures value.Err? ==> value.error == RuntimeError
  {
    var output := new HermitianDenseOutput();
    var step := TwoSampleStep(t0, x0, dx0, t1, x1, dx1);
    var update := output.Update(step);
    consolidate := output.Consolidate();
    empty := output.IsEmpty();
    start := output.GetStartTime();
    end := output.GetEndTime();
    dims := output.GetDimensions();
    rollback := output.Rollback();
    value := output.Evaluate(t);
  }

  /** Against a committed step A = (t0, x0, dx0) .. (t1, x1, dx1), a step B = (u0, y0, dy0) ..
      (u1, y1, dy1) of the same dimension is accepted exactly when it starts at t1 with
      state x1 and derivative dx1. A rejected B raises a runtime error and leaves the output
      as it was: same end time, nothing staged. */
  method DiscontinuousUpdateRejected(
      t0: real, x0: Matrix, dx0: Matrix, t1: real, x1: Matrix, dx1: Matrix,
      u0: real, y0: Matrix, dy0: Matrix, u1: real, y1: Matrix, dy1: Matrix)
    returns (update: Outcome, end: Result<real>, rollback: Outcome)
    requires t0 < t1 && SamplePair(x0.rows, x0, dx0, x1, dx1)
    requires u0 < u1 && SamplePair(x0.rows, y0, dy0, y1, dy1)
    ensures update.Pass? <==> u0 == t1 && y0 == x1 && dy0 == dx1
    ensures update.Fail? ==> update.error == RuntimeError && rollback == Fail(LogicError)
    ensures update.Pass? ==> rollback == Pass
    ensures end == Ok(t1)
  {
    var output := new HermitianDenseOutput();
    var a := TwoSampleStep(t0, x0, dx0, t1, x1, dx1);
    var b := TwoSampleStep(u0, y0, dy0, u1, y1, dy1);
    ghost var A, B := a.Value(), b.Value();
    assert Joins(A, B) <==> u0 == t1 && y0 == x1 && dy0 == dx1;
    var first := output.Update(a);
    var consolidate := output.Consolidate();
    assert output.committed == [A] && output.pending == [];
    update := output.Update(b);
    end := output.GetEndTime();
    rollback := output.Rollback();
  }

  /** A step built from one sample holds exactly that sample: one time, one state, one
      derivative, start time = end time = t0, and the state's row count as dimension. */
  method SingleSampleStep(t0: real, x0: Matrix, dx0: Matrix)
    returns (samples: nat, start: real, end: real, dims: nat, first: Matrix, firstDerivative: Matrix)
    requires FirstSampleShape(x0, dx0)
    ensures samples == 1 && start == t0 && end == t0 && dims == x0.rows
    ensures first == x0 && firstDerivative == dx0
  {
    var step := new IntegrationStep(t0, x0, dx0);
    samples := |step.times|;
    start := StartTime(step.Value());
    end := EndTime(step.Value());
    dims := Dimensions(step.Value());
    first := step.states[0];
    firstDerivative := step.derivatives[0];
  }

  /** Extending a one-sample step with (t, x, dx) succeeds exactly when t > t0 and x, dx are
      columns of x0's row count. A failure is a runtime error that leaves the step alone;
      a success adds one sample, keeps the start time and dimension, and makes t, x and dx
      the new end time, last state and last derivative. */
  method ExtendStep(t0: real, x0: Matrix, dx0: Matrix, t: real, x: Matrix, dx: Matrix)
    returns (extend: Outcome, samples: nat, start: real, end: real, dims: nat, last: Matrix, lastDerivative: Matrix)
    requires FirstSampleShape(x0, dx0)
    ensures extend.Pass? <==> t0 < t && IsColumnOf(x, x0.rows) && IsColumnOf(dx, x0.rows)
    ensures extend.Fail? ==> extend.error == RuntimeError
    ensures extend.Fail? ==> samples == 1 && end == t0 && last == x0 && lastDerivative == dx0
    ensures extend.Pass? ==> samples == 2 && end == t && last == x && lastDerivative == dx
    ensures start == t0 && dims == x0.rows
  {
    var step := new IntegrationStep(t0, x0, dx0);
    extend := step.Extend(t, x, dx);
    samples := |step.times|;
    start := StartTime(step.Value());
    end := EndTime(step.Value());
    dims := Dimensions(step.Value());
    last := Last(step.states);
    lastDerivative := Last(step.derivatives);
  }

  /** Update(A), Update(B), Rollback, Consolidate commits A alone: the output spans A,
      has A's dimension, and evaluates to A's first and last states at A's end points. */
  method RollbackDiscardsLastUpdate(
      t0: real, x0: Matrix, dx0: Matrix, t1: real, x1: Matrix, dx1: Matrix,
      t2: real, x2: Matrix, dx2: Matrix)
    returns (outcomes: seq<Outcome>, empty: bool, start: Result<real>, end: Result<real>,
             dims: Result<nat>, atStart: Result<Matrix>, atEnd: Result<Matrix>)
    requires t0 < t1 < t2
    requires SamplePair(x0.rows, x0, dx0, x1, dx1) && SamplePair(x0.rows, x1, dx1, x2, dx2)
    ensures outcomes == [Pass, Pass, Pass, Pass] && !empty
    ensures start == Ok(t0) && end == Ok(t1) && dims == Ok(x0.rows)
    ensures atStart == Ok(x0) && atEnd == Ok(x1)
  {
    var output := new HermitianDenseOutput();
    var a := TwoSampleStep(t0, x0, dx0, t1, x1, dx1);
    var b := TwoSampleStep(t1, x1, dx1, t2, x2, dx2);
    ghost var A, B := a.Value(), b.Value();
    assert Joins(A, B);
    var ra := output.Update(a);
    assert output.pending == [A] && output.committed == [];
    var rb := output.Update(b);
    assert output.pending == [A, B];
    var rr := output.Rollback();
    assert output.pending == [A];
    var rc := output.Consolidate();
    outcomes := [ra, rb, rr, rc];
    assert output.committed == [A];
    empty := output.IsEmpty();
    start := output.GetStartTime();
    end := output.GetEndTime();
    dims := output.GetDimensions();
    EvaluateAtSample(output.committed, 0, 0);
    EvaluateAtSample(output.committed, 0, 1);
    atStart := output.Evaluate(t0);
    atEnd := output.Evaluate(t1);
  }

  /** With A and B both committed, the output reproduces every sampled state exactly,
      including x1 where the two steps meet. */
  method ConsolidatedSamplesExact(
      t0: real, x0: Matrix, dx0: Matrix, t1: real, x1: Matrix, dx1: Matrix,
      t2: real, x2: Matrix, dx2: Matrix)
    returns (empty: bool, start: Result<real>, end: Result<real>,
             at0: Result<Matrix>, at1: Result<Matrix>, at2: Result<Matrix>)
    requires t0 < t1 < t2
    requires SamplePair(x0.rows, x0, dx0, x1, dx1) && SamplePair(x0.rows, x1, dx1, x2, dx2)
    ensures !empty && start == Ok(t0) && end == Ok(t2)
    ensures at0 == Ok(x0) && at1 == Ok(x1) && at2 == Ok(x2)
  {
    var output := new HermitianDenseOutput();
    var a := TwoSampleStep(t0, x0, dx0, t1, x1, dx1);
    var b := TwoSampleStep(t1, x1, dx1, t2, x2, dx2);
    ghost var A, B := a.Value(), b.Value();
    assert Joins(A, B);
    var ra := output.Update(a);
    assert output.pending == [A] && output.committed == [];
    var rb := output.Update(b);
    assert output.pending == [A, B];
    var rc := output.Consolidate();
    assert output.committed == [A, B];
    empty := output.IsEmpty();
    start := output.GetStartTime();
    end := output.GetEndTime();
    EvaluateAtSample(output.committed, 0, 0);
    EvaluateAtSample(output.committed, 0, 1);
    EvaluateAtSample(output.committed, 1, 1);
    at0 := output.Evaluate(t0);
    at1 := output.Evaluate(t1);
    at2 := output.Evaluate(t2);
  }
}
