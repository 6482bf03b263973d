# Hermitian dense output

A model of the dense output that a numerical ODE integrator in the `drake::systems::analysis`
library builds as it steps: `HermitianDenseOutput<T>` and its nested `IntegrationStep`.

- An **integration step** (`Steps.IntegrationStep`) is an ordered run of (time, state,
  state derivative) samples with strictly increasing times and one state dimension. It is
  created from one sample (so it starts with zero length) and grown in place by `Extend`.
- A **dense output** (`DenseOutput.HermitianDenseOutput`) holds two sequences of steps:
  *pending* (staged by `Update`, discarded one at a time by `Rollback`) and *committed*
  (everything pending moves there, in order, on `Consolidate`). `Update` stores a copy of
  the step, and accepts it only if it has positive length and continues the most recent
  known step exactly: same dimension, start time equal to the predecessor's end time, and
  first state and derivative equal to the predecessor's last ones.
- The **queries** (`Trajectory`) read only the committed steps: `IsEmpty`, `GetStartTime`,
  `GetEndTime`, `GetDimensions` and `Evaluate`. `Evaluate(t)` finds the first committed step
  that ends at or after `t`, then the sample pair that brackets `t`, and applies the cubic
  Hermite basis (`Hermite.Interpolate`).
- Errors are values: `Results.Error` has `LogicError` (a call in the wrong state: nothing
  committed, nothing pending) and `RuntimeError` (a bad argument: time order, shape,
  continuity, a time outside the committed span). They stand for `std::logic_error` and
  `std::runtime_error`.
- `Scenarios` replays each test case of `hermitian_dense_output_test.cc`, generalised from
  its fixed constants to every input of the same kind, and proves what the test asserts,
  except the spline comparison in `CorrectEvaluation` (see Left out).

Modelling choices:

- Times and scalars are `real`, so continuity is checked by exact equality, as the source does.
- A matrix (`Matrices.Matrix`) is a row count, a column count and its entries. The only
  shape check kept is "a single column with D rows".
- The header `systems/analysis/hermitian_dense_output.h` is not part of this model. Its
  behaviour is taken from the tests. Internal layout is not guessed beyond the
  pending and committed sequences and the ordered search used by `Evaluate`.
- `get_times`, `get_states` and `get_state_derivatives` of a step are its fields `times`,
  `states` and `derivatives`; `get_start_time`, `get_end_time` and `get_dimensions` are
  `Steps.StartTime`, `Steps.EndTime` and `Steps.Dimensions` of the step's `Value()`.

## Model

The dense output's own queries `DenseOutput.HermitianDenseOutput.GetStartTime`, `GetEndTime`,
`GetDimensions` and `Evaluate` return the `Trajectory` function of the same name applied to
the committed steps; their contracts are those of the `Trajectory.*` rows below.

| member | source | states |
|---|---|---|
| `DenseOutput.HermitianDenseOutput.constructor` | systems/analysis/test/hermitian_dense_output_test.cc:57-60 | a new output has nothing pending and nothing committed |
| `DenseOutput.HermitianDenseOutput.Update` | systems/analysis/test/hermitian_dense_output_test.cc:69-127 | accepted iff the step has positive length and joins the most recent known step; success appends a copy to pending only; failure is a runtime error that changes nothing; the contiguity invariant is kept |
| `DenseOutput.HermitianDenseOutput.Rollback` | systems/analysis/test/hermitian_dense_output_test.cc:204-206 | drops the last pending step; with nothing pending it is a logic error and changes nothing; committed steps never change |
| `DenseOutput.HermitianDenseOutput.Consolidate` | systems/analysis/test/hermitian_dense_output_test.cc:90-91 | appends all pending steps, in order, to the committed ones and clears pending; with nothing pending it is a logic error |
| `DenseOutput.Predecessor` | systems/analysis/test/hermitian_dense_output_test.cc:108-127 | the step an update is checked against is the last of committed followed by pending, and there is none exactly when both are empty |
| `Steps.IntegrationStep.constructor` | systems/analysis/test/hermitian_dense_output_test.cc:133-143 | a step built from one sample holds exactly that sample and is well formed |
| `Steps.IntegrationStep.Create` | systems/analysis/test/hermitian_dense_output_test.cc:133-134 | construction succeeds iff the state is a column and the derivative a column of the same row count; otherwise a runtime error |
| `Steps.IntegrationStep.Extend` | systems/analysis/test/hermitian_dense_output_test.cc:145-186 | succeeds iff the time is after the end time and state and derivative are columns of the step's dimension; success appends exactly the one sample; failure is a runtime error that leaves the step unchanged |
| `Steps.StartTime` | systems/analysis/test/hermitian_dense_output_test.cc:136 | the start time is the earliest sample time of the step: one of its sample times, and no later than any of them |
| `Steps.EndTime` | systems/analysis/test/hermitian_dense_output_test.cc:137 | the end time is the latest sample time of the step: one of its sample times, and no earlier than any of them |
| `Steps.Dimensions` | systems/analysis/test/hermitian_dense_output_test.cc:138 | every state and every derivative of the step has that many rows |
| `Steps.ZeroLengthIffSingleSample` | systems/analysis/test/hermitian_dense_output_test.cc:132-137 | a step has start time equal to end time exactly when it holds one sample |
| `Hermite.Interpolate` | systems/analysis/test/hermitian_dense_output_test.cc:254-262 | the interpolant is a column of the samples' dimension (its values are stated by the three lemmas below) |
| `Hermite.InterpolateAtMidpoint` | systems/analysis/test/hermitian_dense_output_test.cc:254-262 | halfway between the samples each entry is (x0 + x1) / 2 + h (dx0 - dx1) / 8, a value that depends on both derivatives |
| `Hermite.InterpolateAtStart` | systems/analysis/test/hermitian_dense_output_test.cc:215-216 | the Hermite interpolant at the left sample time is exactly the left sample's state |
| `Hermite.InterpolateAtEnd` | systems/analysis/test/hermitian_dense_output_test.cc:217-218 | the Hermite interpolant at the right sample time is exactly the right sample's state |
| `Trajectory.IsEmpty` | systems/analysis/test/hermitian_dense_output_test.cc:58-65 | the trajectory is empty exactly when the start time, end time and dimension getters each raise a logic error |
| `DenseOutput.HermitianDenseOutput.IsEmpty` | systems/analysis/test/hermitian_dense_output_test.cc:81-88 | the output is empty exactly when its getters raise logic errors, whatever is pending |
| `Trajectory.GetStartTime` | systems/analysis/test/hermitian_dense_output_test.cc:63 | a logic error iff nothing is committed; otherwise the first step's start time, which no committed step starts before |
| `Trajectory.GetEndTime` | systems/analysis/test/hermitian_dense_output_test.cc:64 | a logic error iff nothing is committed; otherwise the last step's end time, which no committed step ends after |
| `Trajectory.GetDimensions` | systems/analysis/test/hermitian_dense_output_test.cc:65 | a logic error iff nothing is committed; otherwise the dimension every committed step shares |
| `Trajectory.FindStep` | systems/analysis/test/hermitian_dense_output_test.cc:215-218 | returns the first step from k onward that ends at or after t (the last step if none does) |
| `Trajectory.FindSample` | systems/analysis/test/hermitian_dense_output_test.cc:215-218 | returns the first sample pair from i onward whose right time is at or after t (the last pair if none is) |
| `Trajectory.EvaluateStep` | systems/analysis/test/hermitian_dense_output_test.cc:102 | the value of one step at a time is a column of the step's dimension (exact values at sample times: `Trajectory.EvaluateStepAtSample`) |
| `Trajectory.Evaluate` | systems/analysis/test/hermitian_dense_output_test.cc:102-106 | a logic error when nothing is committed; otherwise defined iff t lies in [start time, end time], a runtime error outside, and a column of the trajectory's dimension inside |
| `Trajectory.EvaluateStepAtSample` | systems/analysis/test/hermitian_dense_output_test.cc:215-218 | within one step, evaluating at any sample time gives that sample's state exactly |
| `Trajectory.EvaluateAtSample` | systems/analysis/test/hermitian_dense_output_test.cc:210-218 | evaluating the committed trajectory at any sample time of any step gives that sample's state exactly, also where two steps meet |
| `Scenarios.FreshOutputRejectsQueries` | systems/analysis/test/hermitian_dense_output_test.cc:57-67 | a fresh output is empty and Evaluate, the three getters, Rollback and Consolidate all give logic errors |
| `Scenarios.ZeroLengthUpdateRejected` | systems/analysis/test/hermitian_dense_output_test.cc:69-73 | updating with a one-sample step is a runtime error that stages nothing |
| `Scenarios.UpdateStaysPending` | systems/analysis/test/hermitian_dense_output_test.cc:75-88 | a valid first update succeeds but the output stays empty and every query still gives a logic error |
| `Scenarios.ConsolidatePublishes` | systems/analysis/test/hermitian_dense_output_test.cc:90-106 | after Consolidate the output is non-empty with the step's start, end and dimension, Rollback is a logic error, and Evaluate is defined exactly on [t0, t1] with a runtime error outside |
| `Scenarios.DiscontinuousUpdateRejected` | systems/analysis/test/hermitian_dense_output_test.cc:108-127 | a following step is accepted iff its start time, state and derivative equal the committed step's end ones; a rejection is a runtime error that stages nothing and keeps the end time |
| `Scenarios.SingleSampleStep` | systems/analysis/test/hermitian_dense_output_test.cc:132-143 | a one-sample step has one sample, start = end = its time, the state's row count as dimension, and that state and derivative |
| `Scenarios.ExtendStep` | systems/analysis/test/hermitian_dense_output_test.cc:145-186 | Extend succeeds iff the time is later and both values are columns of the dimension; failure keeps the single sample; success gives two samples ending at the new time, state and derivative; start and dimension are kept |
| `Scenarios.RollbackDiscardsLastUpdate` | systems/analysis/test/hermitian_dense_output_test.cc:191-218 | Update(A), Update(B), Rollback, Consolidate all succeed and commit A alone: A's span and dimension, and A's first and last states at its end points |
| `Scenarios.ConsolidatedSamplesExact` | systems/analysis/test/hermitian_dense_output_test.cc:237-253 | with two contiguous steps committed the output spans both and returns every sampled state exactly, including at the shared boundary |

## Left out

- The comparison of `Evaluate` against `PiecewisePolynomial::Cubic` within 1e-12 on a grid of times (hermitian_dense_output_test.cc:226-262): that library is not part of this model, and the check is about floating-point accuracy. Only exact interpolation at sample times is proved.
- Floating point: times and entries are exact `real`s, so no rounding is modelled.
- The `AutoDiffXd` scalar instantiation and `ExtractDoubleOrThrow`: a derivative-carrying scalar type is not modelled; one exact scalar stands for both instantiations.
- Eigen's matrix machinery (`MatrixX`, `CompareMatrices`, `.finished()`, `.cast<>`): a matrix is a row count, a column count and its entries.
- The test harness (`TYPED_TEST_CASE`, `EXPECT_THROW`): exceptions are the two `Error` constructors; exception messages are not modelled.
- `Steps.IntegrationStep.constructor` requires a well-shaped first sample instead of raising; `Steps.IntegrationStep.Create` is the checked form that reports a runtime error.
- The derivative of the interpolant (its match with the sampled derivatives) is not stated: the dense output only exposes states.
- Hermite.Interpolate: its own contract states only the shape of the result; of its values, only those at the two sample times and at the midpoint are proved (`InterpolateAtStart`, `InterpolateAtEnd`, `InterpolateAtMidpoint`), not the whole cubic between them.
- Trajectory.EvaluateStep: its own contract states only the shape of the result; its values are proved only at sample times (`Trajectory.EvaluateStepAtSample`).
