/** The consolidated trajectory: the ordered, time-contiguous steps a dense output has
    committed, and the read-only queries the dense output answers from them. */
module Trajectory {
  import opened Results
  import opened Matrices
  import opened Hermite
  import opened Steps

  /** A step that may be handed to a dense output: well formed and of positive length. */
  predicate Advances(s: Step)
  {
    WellFormed(s) && StartTime(s) < EndTime(s)
  }

  /** `b` picks up exactly where `a` left off: same dimension, b starts at a's end time,
      and b's first state and derivative equal a's last ones. */
  predicate Joins(a: Step, b: Step)
    requires WellFormed(a) && WellFormed(b)
  {
    && Dimensions(a) == Dimensions(b)
    && EndTime(a) == StartTime(b)
    && Last(a.states) == b.states[0]
    && Last(a.derivatives) == b.derivatives[0]
  }

  /** Every step advances and each step joins its predecessor. */
  predicate Contiguous(steps: seq<Step>)
  {
    && (forall i :: 0 <= i < |steps| ==> Advances(steps[i]))
    && (forall i :: 0 < i < |steps| ==> Joins(steps[i - 1], steps[i]))
  }

  lemma ContiguousPrefix(steps: seq<Step>, n: nat)
    requires Contiguous(steps) && n <= |steps|
    ensures Contiguous(steps[..n])
  {
  }

  /** Appending a step that advances and joins the last one keeps a trajectory contiguous. */
  lemma ContiguousAppend(steps: seq<Step>, s: Step)
    requires Contiguous(steps) && Advances(s)
    requires steps != [] ==> Joins(Last(steps), s)
    ensures Contiguous(steps + [s])
  {
  }

  /** Each step ends no later than any later step starts, strictly so when a whole step
      lies between them. */
  lemma {:induction false} EndNotAfterStart(steps: seq<Step>, j: nat, k: nat)
    requires Contiguous(steps) && j < k < |steps|
    ensures EndTime(steps[j]) <= StartTime(steps[k])
    ensures j + 1 < k ==> EndTime(steps[j]) < StartTime(steps[k])
    decreases k - j
  {
    if j + 1 < k {
      EndNotAfterStart(steps, j, k - 1);
      assert Joins(steps[k - 1], steps[k]);
    } else {
      assert Joins(steps[j], steps[k]);
    }
  }

  /** All steps of a contiguous trajectory share the first step's dimension. */
  lemma {:induction false} SameDimensions(steps: seq<Step>, k: nat)
    requires Contiguous(steps) && k < |steps|
    ensures Dimensions(steps[k]) == Dimensions(steps[0])
  {
    if k > 0 {
      SameDimensions(steps, k - 1);
      assert Joins(steps[k - 1], steps[k]);
    }
  }

  /** A trajectory is empty exactly when its getters raise logic errors. */
  function IsEmpty(steps: seq<Step>): (r: bool)
    requires Contiguous(steps)
    ensures r <==> GetStartTime(steps) == Err(LogicError)
    ensures r <==> GetEndTime(steps) == Err(LogicError)
    ensures r <==> GetDimensions(steps) == Err(LogicError)
  {
    steps == []
  }

  /** The start time of the trajectory; a logic error when nothing is committed. */
  function GetStartTime(steps: seq<Step>): (r: Result<real>)
    requires Contiguous(steps)
    ensures r.Err? <==> steps == []
    ensures r.Err? ==> r.error == LogicError
    ensures r.Ok? ==> r.value == StartTime(steps[0])
    ensures r.Ok? ==> forall i :: 0 <= i < |steps| ==> r.value <= StartTime(steps[i])
  {
    if steps == [] then Err(LogicError)
    else
      assert forall i :: 0 < i < |steps| ==> EndTime(steps[0]) <= StartTime(steps[i]) by {
        forall i | 0 < i < |steps| { EndNotAfterStart(steps, 0, i); }
      }
      Ok(StartTime(steps[0]))
  }

  /** The end time of the trajectory; a logic error when nothing is committed. */
  function GetEndTime(steps: seq<Step>): (r: Result<real>)
    requires Contiguous(steps)
    ensures r.Err? <==> steps == []
    ensures r.Err? ==> r.error == LogicError
    ensures r.Ok? ==> r.value == EndTime(Last(steps))
    ensures r.Ok? ==> forall i :: 0 <= i < |steps| ==> EndTime(steps[i]) <= r.value
  {
    if steps == [] then Err(LogicError)
    else
      var n := |steps| - 1;
      assert forall i :: 0 <= i < n ==> EndTime(steps[i]) <= StartTime(steps[n]) by {
        forall i | 0 <= i < n { EndNotAfterStart(steps, i, n); }
      }
      Ok(EndTime(steps[n]))
  }

  /** The state dimension of the trajectory; a logic error when nothing is committed. */
  function GetDimensions(steps: seq<Step>): (r: Result<nat>)
    requires Contiguous(steps)
    ensures r.Err? <==> steps == []
    ensures r.Err? ==> r.error == LogicError
    ensures r.Ok? ==> forall i :: 0 <= i < |steps| ==> Dimensions(steps[i]) == r.value
  {
    if steps == [] then Err(LogicError)
    else
      assert forall i :: 0 <= i < |steps| ==> Dimensions(steps[i]) == Dimensions(steps[0]) by {
        forall i | 0 <= i < |steps| { SameDimensions(steps, i); }
      }
      Ok(Dimensions(steps[0]))
  }

  /** Ordered search from step `k` for the first step that ends at or after `t`
      (the last step when none does). */
  function FindStep(steps: seq<Step>, t: real, k: nat): (j: nat)
    requires Contiguous(steps) && k < |steps|
    ensures k <= j < |steps|
    ensures t <= EndTime(steps[j]) || j == |steps| - 1
    ensures forall m :: k <= m < j ==> EndTime(steps[m]) < t
    decreases |steps| - k
  {
    if k == |steps| - 1 || t <= EndTime(steps[k]) then k else FindStep(steps, t, k + 1)
  }

  /** Ordered search from sample `i` for the first pair of consecutive samples whose
      right end is at or after `t` (the last pair when none is); returns the pair's left index. */
  function FindSample(times: seq<real>, t: real, i: nat): (j: nat)
    requires i + 1 < |times|
    ensures i <= j && j + 1 < |times|
    ensures t <= times[j + 1] || j + 2 == |times|
    ensures forall m :: i < m <= j ==> times[m] < t
    decreases |times| - i
  {
    if i + 2 == |times| || t <= times[i + 1] then i else FindSample(times, t, i + 1)
  }

  /** The Hermite interpolant of step `s` at time `t`, on the sample pair that brackets `t`. */
  function EvaluateStep(s: Step, t: real): (x: Matrix)
    requires Advances(s)
    ensures IsColumnOf(x, Dimensions(s))
  {
    ZeroLengthIffSingleSample(s);
    var i := FindSample(s.times, t, 0);
    Interpolate(s.times[i], s.states[i], s.derivatives[i], s.times[i + 1], s.states[i + 1], s.derivatives[i + 1], t)
  }

  /** The trajectory's state at time `t`: a logic error when nothing is committed, a
      runtime error when `t` lies outside [start time, end time], otherwise a column of
      the trajectory's dimension. */
  function Evaluate(steps: seq<Step>, t: real): (r: Result<Matrix>)
    requires Contiguous(steps)
    ensures steps == [] ==> r == Err(LogicError)
    ensures steps != [] ==> (r.Ok? <==> StartTime(steps[0]) <= t <= EndTime(Last(steps)))
    ensures steps != [] && r.Err? ==> r.error == RuntimeError
    ensures r.Ok? ==> IsColumnOf(r.value, Dimensions(steps[0]))
  {
    if steps == [] then Err(LogicError)
    else if t < StartTime(steps[0]) || EndTime(Last(steps)) < t then Err(RuntimeError)
    else
      var k := FindStep(steps, t, 0);
      SameDimensions(steps, k);
      Ok(EvaluateStep(steps[k], t))
  }

  /** Within one step, evaluating at a sample time gives that sample's state exactly. */
  lemma EvaluateStepAtSample(s: Step, i: nat)
    requires Advances(s) && i < |s.times|
    ensures EvaluateStep(s, s.times[i]) == s.states[i]
  {
    ZeroLengthIffSingleSample(s);
    var t := s.times[i];
    var j := FindSample(s.times, t, 0);
    var d := Dimensions(s);
    assert SamplePair(d, s.states[j], s.derivatives[j], s.states[j + 1], s.derivatives[j + 1]);
    if i == 0 {
      assert j == 0;
      InterpolateAtStart(s.times[0], s.states[0], s.derivatives[0], s.times[1], s.states[1], s.derivatives[1]);
    } else {
      assert j == i - 1;
      InterpolateAtEnd(s.times[j], s.states[j], s.derivatives[j], s.times[i], s.states[i], s.derivatives[i]);
    }
  }

  /** A sample time of a step lies in the step's interval, strictly after its start
      unless it is the first sample. */
  lemma SampleInStep(s: Step, i: nat)
    requires WellFormed(s) && i < |s.times|
    ensures StartTime(s) <= s.times[i] <= EndTime(s)
    ensures i > 0 ==> StartTime(s) < s.times[i]
  {
  }

  /** A time in one step's interval lies in the span of the whole trajectory. */
  lemma StepInSpan(steps: seq<Step>, k: nat, t: real)
    requires Contiguous(steps) && k < |steps|
    requires StartTime(steps[k]) <= t <= EndTime(steps[k])
    ensures StartTime(steps[0]) <= t <= EndTime(Last(steps))
  {
    if k > 0 { EndNotAfterStart(steps, 0, k); }
    if k < |steps| - 1 { EndNotAfterStart(steps, k, |steps| - 1); }
  }

  /** The search for a time in step k's interval stops at step k, or at step k - 1 when
      the time is where the two meet. */
  lemma FindStepIn(steps: seq<Step>, k: nat, t: real)
    requires Contiguous(steps) && k < |steps|
    requires StartTime(steps[k]) <= t <= EndTime(steps[k])
    ensures var j := FindStep(steps, t, 0);
      j == k || (j + 1 == k && t == StartTime(steps[k]))
  {
    var j := FindStep(steps, t, 0);
    if j < k {
      EndNotAfterStart(steps, j, k);
    }
  }

  /** Evaluating a committed trajectory at any of its sample times gives that sample's
      state exactly; where two steps meet, both sides agree. */
  lemma EvaluateAtSample(steps: seq<Step>, k: nat, i: nat)
    requires Contiguous(steps) && k < |steps| && i < |steps[k].times|
    ensures Evaluate(steps, steps[k].times[i]) == Ok(steps[k].states[i])
  {
    var s := steps[k];
    var t := s.times[i];
    SampleInStep(s, i);
    StepInSpan(steps, k, t);
    FindStepIn(steps, k, t);
    var j := FindStep(steps, t, 0);
    assert Evaluate(steps, t) == Ok(EvaluateStep(steps[j], t));
    if j == k {
      EvaluateStepAtSample(s, i);
    } else {
      var p := steps[j];
      assert Joins(p, s);
      EvaluateStepAtSample(p, |p.times| - 1);
    }
  }
}
