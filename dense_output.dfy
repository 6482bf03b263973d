/** The dense output: integration steps staged by `Update`, discarded by `Rollback`,
    committed by `Consolidate`, and queried only through the committed trajectory. */
module DenseOutput {
  import opened Results
  import opened Matrices
  import opened Steps
  import opened Trajectory

  /** The most recent known step: the last pending step if any, else the last committed
      step if any. */
  function Predecessor(pending: seq<Step>, committed: seq<Step>): (p: Option<Step>)
    ensures p.None? <==> committed + pending == []
    ensures p.Some? ==> p.value == Last(committed + pending)
  {
    if pending != [] then Some(Last(pending))
    else if committed != [] then Some(Last(committed))
    else None
  }

  class HermitianDenseOutput {
    /** Steps staged since the last consolidation, oldest first. */
    var pending: seq<Step>
    /** Steps consolidated so far, oldest first. */
    var committed: seq<Step>

    /** Every known step, committed then pending, forms one contiguous trajectory. */
    ghost predicate Valid()
      reads this
    {
      Contiguous(committed) && Contiguous(committed + pending)
    }

    /** An empty output: nothing committed and nothing pending. */
    constructor ()
      ensures Valid() && pending == [] && committed == []
    {
      pending := [];
      committed := [];
    }

    /** Empty exactly when the getters raise logic errors; staged steps never count. */
    function IsEmpty(): (r: bool)
      reads this
      requires Valid()
      ensures r <==> GetStartTime() == Err(LogicError) && GetEndTime() == Err(LogicError)
      ensures r <==> GetDimensions() == Err(LogicError)
    {
      Trajectory.IsEmpty(committed)
    }

    function GetStartTime(): Result<real>
      reads this
      requires Valid()
    {
      Trajectory.GetStartTime(committed)
    }

    function GetEndTime(): Result<real>
      reads this
      requires Valid()
    {
      Trajectory.GetEndTime(committed)
    }

    function GetDimensions(): Result<nat>
      reads this
      requires Valid()
    {
      Trajectory.GetDimensions(committed)
    }

    function Evaluate(t: real): Result<Matrix>
      reads this
      requires Valid()
    {
      Trajectory.Evaluate(committed, t)
    }

    /** Stages a copy of `step`. The step must have positive length and, once a step is
        known, must join the most recent known step; otherwise nothing changes and a
        runtime error is reported. The committed trajectory is never touched. */
    method Update(step: IntegrationStep) returns (r: Outcome)
      requires Valid() && step.Valid()
      modifies this
      ensures Valid()
      ensures var prev := Predecessor(old(pending), old(committed));
        r.Pass? <==> Advances(step.Value()) && (prev.Some? ==> Joins(prev.value, step.Value()))
      ensures r.Fail? ==> r.error == RuntimeError && pending == old(pending)
      ensures r.Pass? ==> pending == old(pending) + [step.Value()]
      ensures committed == old(committed)
    {
      var s := step.Value();
      if StartTime(s) == EndTime(s) {
        return Fail(RuntimeError);
      }
      var prev := Predecessor(pending, committed);
      if prev.Some? {
        var p := prev.value;
        if Dimensions(s) != Dimensions(p) {
          return Fail(RuntimeError);
        }
        if StartTime(s) != EndTime(p) {
          return Fail(RuntimeError);
        }
        if s.states[0] != Last(p.states) {
          return Fail(RuntimeError);
        }
        if s.derivatives[0] != Last(p.derivatives) {
          return Fail(RuntimeError);
        }
      }
      ContiguousAppend(committed + pending, s);
      assert committed + (pending + [s]) == committed + pending + [s];
      pending := pending + [s];
      r := Pass;
    }

    /** Discards the most recently staged step; a logic error when nothing is pending. */
    method Rollback() returns (r: Outcome)
      requires Valid()
      modifies this
      ensures Valid()
      ensures old(pending) == [] ==> r == Fail(LogicError) && pending == []
      ensures old(pending) != [] ==> r == Pass && pending == old(pending)[..|old(pending)| - 1]
      ensures committed == old(committed)
    {
      if pending == [] {
        return Fail(LogicError);
      }
      var n := |pending| - 1;
      ContiguousPrefix(committed + pending, |committed| + n);
      assert (committed + pending)[..|committed| + n] == committed + pending[..n];
      pending := pending[..n];
      r := Pass;
    }

    /** Commits every staged step, in order, and clears the staging buffer; a logic error
        when nothing is pending. */
    method Consolidate() returns (r: Outcome)
      requires Valid()
      modifies this
      ensures Valid()
      ensures old(pending) == [] ==> r == Fail(LogicError) && committed == old(committed)
      ensures old(pending) != [] ==> r == Pass && committed == old(committed) + old(pending)
      ensures pending == []
    {
      if pending == [] {
        return Fail(LogicError);
      }
      committed := committed + pending;
      pending := [];
      assert committed + pending == committed;
      r := Pass;
    }
  }
}
