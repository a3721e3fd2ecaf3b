# Placement and counter model of the 2D spatial-analogy environment

This project models the integer core of the `ExEnv` environment in `env.go`
(the synthetic 2D environment that feeds trials to a neural-network
simulation). It covers two things:

- the integer half of `NewPoint`, which places the two points of a trial on the
  `Size x Size` attention grid;
- the glue around it: buffer lookup by name (`State`), counter lookup by time
  scale (`Counter`, `Counters`), and the `Init` / `Step` protocol over the run,
  epoch and trial counters.

Modules:

- `Placement` (`placement.dfy`) models `NewPoint`, env.go lines 187-245.
  `Point3` is an input; the sampling that produces it is floating point. The
  displacement `(xDist, yDist)` is `Point3 - (Size, Size)`. `AxisWindow`
  gives the reference window of starting coordinates on one axis. Its
  contract says the window holds exactly the coordinates `v` where both `v`
  and `v + d` lie on the axis. `AxisWindowAsWritten` follows env.go's
  three sequential `if` statements and is proved equal to it. `NewPoint`
  takes the random draw of `Point` as a parameter inside the window. It
  proves that both points are on the grid, that the `Attn` index is in
  bounds, and that the displacement is kept exactly. The bearing branch is
  an enumerated `Branch`. The chain as written (`BranchAsWritten`) mixes
  `xDistance` with `xDist`. It is proved to agree with the sign-only
  reference `Quadrant` whenever the two are equal, and they always are here.
- `Counting` (`counting.dfy`) is an abstract counter `{cur, prv, chg, max}`
  standing for the engine's `env.Ctr`. The counter library is not part of
  this model, so its behaviour is assumed: `Init` gives reading
  `(0, -1, false)`; `Same` clears `chg`; `Incr` sets `prv := cur`, adds one,
  and wraps to 0 when a positive `max` is reached, returning true on a wrap.
- `Environment` (`env.dfy`) holds `State`, `Counters`, `Counter`, `Init`,
  `Step`, and `Steps` (repeated `Step`). It also has the lemmas that connect
  them.
- `Wrappers` (`wrappers.dfy`) has the `Option` type that stands in for Go's
  nil result.

A common reading of the counter protocol is that with five trials per epoch,
five steps leave the trial counter at 0 with the epoch advanced once. The code
does something else, and the model follows the code. `Init` sets the trial
counter to -1, so after five steps it reads trial 4, epoch 0, and after six
steps it reads trial 0, epoch 1 (`InitThenSteps`).

## Model

| member | source | states |
|---|---|---|
| Placement.AxisWindow | env.go:193-216 | The window for displacement d holds exactly the v with 0 <= v < Size and 0 <= v + d < Size (both directions), and it is non-empty exactly when -Size < d < Size |
| Placement.AxisWindowAsWritten | env.go:189-204 | The three sequential ifs over zero-initialised bounds always give the reference window: exactly one branch sets min and max, for every sign of d |
| Placement.Displacement | env.go:187-188 | The displacement is Point3 minus (Size, Size), and an axis window is non-empty exactly when that Point3 coordinate lies strictly between 0 and 2 * Size |
| Placement.Quadrant | env.go:228-236 | The bearing branch depends only on the signs of the displacement: it is a right-hand branch iff dx >= 0 and an upper branch iff dy >= 0 |
| Placement.BranchAsWrittenAgrees | env.go:219-236 | The branch chain as written, which tests xDistance/yDistance first and then xDist/yDist, picks the reference branch when the two pairs are equal |
| Placement.BranchSameSignsAgree | env.go:228-236 | Whenever xDistance/yDistance have the same signs as xDist/yDist, the chain as written picks the reference branch of (xDist, yDist) |
| Placement.BranchNeedsEqualOperands | env.go:228-232 | With operands of different signs the chain as written can pick another branch, for example xDistance = -1, xDist = 1, yDistance = yDist = 0; so the agreement rests on env.go:219-224 |
| Placement.NewPoint | env.go:187-245 | For a draw inside both windows: Point is the draw, Point and Point2 both lie on the Size x Size grid, the Attn index [Point.Y, Point.X] is inside shape [Size, Size], Point2 - Point equals the displacement, xDistance/yDistance equal xDist/yDist, and the branch is the reference quadrant |
| Placement.CentredOffsetsFitIff | env.go:174-188 | With Point3 at most Size - 2 cells from the centre (8, 8) on each axis, every such offset leaves a non-empty window exactly when 7 <= Size <= 9 |
| Placement.UnsafeSizes | env.go:174-216 | Offset -8 at Size 10 and offset 4 at Size 6 leave an empty window |
| Placement.DrawExistsIff | env.go:193-218 | A draw of Point inside both windows exists exactly when the displacement is shorter than Size on both axes |
| Counting.Init | env.go:151-153 | A restarted counter reads (0, -1, false) and keeps its maximum |
| Counting.Same | env.go:263 | Same clears the changed flag and changes nothing else |
| Counting.Incr | env.go:265-267 | Incr records the previous value and marks a change; it wraps (back to 0) exactly when 0 < max <= cur + 1; with a positive max and a start in [-1, max) it stays in [0, max) and wraps (back to 0) exactly when it was at max - 1; without a max it never wraps |
| Environment.State | env.go:121-135 | A found buffer's name is the name asked for, and nil is returned exactly when no buffer (EgoInput, Attn, AlloInput, Distance, Angle) has that name |
| Environment.StateRoundTrip | env.go:121-135 | Looking up each buffer's own name returns that buffer |
| Environment.BufferNamesDistinct | env.go:122-132 | No two buffers share a name |
| Environment.Validate | env.go:97-102 | Validate reports a configuration error exactly when Size == 0 and accepts every other size |
| Environment.ValidateAdmitsUnsafeSizes | env.go:97-102 | Validate accepts Size 10 and Size 6, where a reachable Point3 offset leaves a placement window empty |
| Environment.Counters | env.go:104-106 | The environment keeps counters for exactly the Run, Epoch and Trial scales |
| Environment.Counter | env.go:275-285 | Run, Epoch and Trial give their counter's reading; any scale not listed by Counters gives the sentinel (-1, -1, false) |
| Environment.Init | env.go:147-156 | After Init(run) the run counter reads (run, -1, false), the epoch (0, -1, false) and the trial (-1, -1, false); maxima, size and points are kept |
| Environment.Step | env.go:262-269 | Step always returns true; it keeps size and run counter, puts both new points on the grid, sets Point to the draw and Point2 to Point plus the displacement, advances the trial counter by Incr, marks the epoch changed exactly when the trial counter wraps, and (with no epoch max) advances the epoch by one exactly on a wrap |
| Environment.Steps | env.go:262-269 | Repeated Steps keep the grid size, the run counter and the counter maxima |
| Environment.TrialReadsUnknownAfterInit | env.go:275-285 | Right after Init the trial counter's reading equals the unknown-scale sentinel |
| Environment.TrialKnownAfterStep | env.go:262-285 | After any Step the trial counter's reading differs from the unknown-scale sentinel |
| Environment.FirstStepIsTrialZero | env.go:147-156 | The first Step after Init yields trial 0, epoch 0 and the given run, for any trial maximum |
| Environment.StepAdvancesCount | env.go:262-269 | With M trials per epoch and no epoch max, one Step advances epoch * M + trial by exactly one and leaves trial in [0, M) |
| Environment.StepsAdvanceCount | env.go:262-269 | With M trials per epoch and no epoch max, n Steps advance epoch * M + trial by exactly n and keep trial in [-1, M), in [0, M) once a Step has run |
| Environment.InitThenSteps | env.go:147-156 | After Init and n >= 1 Steps with M trials per epoch, trial reads (n - 1) mod M, epoch reads (n - 1) div M and run reads the given run |

`Counting.Query` (the counter's reading) and `Placement.Abs` are helpers with no row of their own.

## Left out

- Population encoders (`DistPop`, `AnglePop`, `AttnPop`, `AlloInputPop`, `EgoInputPop`, env.go:250-256) belong to an external library and compute floating-point Gaussians; they are not part of this model.
- Floating-point geometry: the distance from `math.Hypot` (env.go:222), the `Atan2` angle values of each branch (env.go:229-237), and the polar sampling of `Point3`, including the loop that rejects (8, 8) (env.go:174-186). That loop recomputes `Point3` from the same distance and angle and never redraws. `Point3` is a parameter, and each branch is an enumerated value with no angle.
- The float draw `int(float32(minX) + rand.Float32()*…)` (env.go:217-218) is replaced by a parameter inside the window. Float rounding at the window edge is not modelled.
- Placement.NewPoint: requires the draw to lie inside both windows, so an empty window (|displacement| >= Size on some axis) is not modelled. env.go still computes both points there, and at least one of them falls off the grid. For xDist <= -Size it is always `Point`, because the window's lower bound is already Size or more, and with it the `Attn` write at env.go:245. For xDist >= Size it is `Point2` when the draw truncates to 0, and `Point` otherwise; the same holds for y. Whether that can happen depends on the configured `Size` against the hard-coded centre 8 of `Point3`, and the configured `Size` is not part of this model. `Placement.CentredOffsetsFitIff` shows that the windows are non-empty for every offset the polar sampling can produce exactly when 7 <= Size <= 9. For other sizes some offset empties a window (`Placement.UnsafeSizes`: offset -8 at Size 10, offset 4 at Size 6), so one of the two points can leave the grid. The float draw at env.go:217 is not modelled. By hand: at offset -8 with Size 10 the draw gives `Point.X = 10`, off the grid. At offset 4 with Size 6 it gives `Point.X = 0`, and only `Point2` (`X = 6`) leaves.
- Environment.Step: the epoch counter's value is stated only when the epoch counter has no maximum (this environment never sets one). With a maximum, only the changed flag is stated. Its draw condition `Fits` is the same requirement as in `Placement.NewPoint`, so Step is not modelled for empty windows either.
- Random seeding from the wall clock (env.go:84-85) is not modelled; randomness enters only through the draw parameters.
- Tensor storage and shapes (`SetShape`, `SetZeros`, `SetFloat`) are not modelled. Only the in-bounds condition of the `Attn` write at env.go:245 is stated, against the `[Size, Size]` shape set at env.go:89.
- `Config` (env.go:59-95) and `States` (env.go:108-119) are not modelled. The shapes `States` reports disagree with the ones `Config` sets, and neither is claimed here.
- `Name`, `Desc`, `String`, `Actions` and `Action` (env.go:55-56, 137-144, 271-273) are accessors and no-ops with nothing to state.
- The internals of `env.Ctr` come from an external library. The counter is modelled abstractly with the behaviour assumed in `Counting`.
- Go's 64-bit `int` overflow is not modelled, because grid coordinates are tiny. `math.Abs` through `float64` is exact at these sizes.
- phase2/env_2.go is not modelled. Its `NewPoint` is empty, and the rest repeats this dispatch and counter glue.
