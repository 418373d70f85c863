# Mountain Car, modelled in Dafny

This project models the Java Mountain Car environment of the RL-Library. A car sits on the hill
`height(x) = -sin(hillPeakFrequency * x)`. Each step it takes one of three actions: reverse
thrust, no thrust or forward thrust. Its position and velocity are integrated and clipped to
fixed bounds, and the episode ends when the car reaches the goal position. The environment also
answers RL-Viz messages: the custom `GETMCSTATE` state report, the custom
`GETHEIGHTS:<n>:<p1>:...` height-profile query, and the standard bound and observation queries.

The model is functional. `Params` holds the problem parameters. `State` holds the car and the
three Java `int` counters. `Env` pairs the two. `Init`, `Start` and `Step` return a new `Env`
instead of mutating fields. `Dispatch` returns only a reply, so a query cannot change the
simulator.

External calls become parameters:

- `Trig` carries `Math.sin` and `Math.cos` as uninterpreted functions on `real`.
- `Parsers` carries `Integer.parseInt` and `Double.parseDouble`. A `None` result stands for a
  `NumberFormatException`.
- `fmt` stands for `Double.toString` when the task-specification string is built.
- `draw1` and `draw2` are the two values `Math.random()` returns for a random start.

Modules:

- `Int32` covers Java `int` increments, with explicit wrap-around.
- `Tokenizer` covers `java.util.StringTokenizer` with delimiter `:`.
- `MountainCar` covers the parameters, the dynamics, the lifecycle and the bound queries.
- `Episodes` covers runs of several steps and the counters over an episode.
- `Messages` covers the message dispatcher and the `GETHEIGHTS` handling.
- `Scenarios` holds concrete runs with the default parameters.

`Height` models `getHeightAtPosition` (and `getHeight`, which is `Height` at the current
position). `Slope` models `getSlope`. `Slope` is kept exactly as the source computes it:
`cos(hillPeakFrequency * x)`, without the chain-rule factor `hillPeakFrequency`. `Reward` and
`InGoalRegion` model `getReward` and `inGoalRegion`. `ReportedMaxVelocity` models `getMaxVelocity`, whose value
`MaxValueFor` and `ReportedBoundsCoverStep` state. `ObservationForState` models
`getObservationForState`, which returns its argument, as `Dispatch` states for the observation
query.

Behaviour of the code that the model keeps:

- An unknown custom payload gets no reply (`null`, here `Success(None)`).
- A malformed `GETHEIGHTS` payload lets a `NoSuchElementException` or `NumberFormatException`
  escape (`Failure(...)`); the environment builds no reply for it.
- A bound query reports the position bound for dimension 0 and the velocity bound for every
  other dimension.
- The reported minimum velocity is `-maxVelocity`. The `minVelocity` parameter feeds the
  velocity clamp in `env_step` and the lower velocity bound printed in the task specification,
  but not the bound queries. So when `minVelocity` differs from `-maxVelocity`, the task
  specification announces one lower velocity bound and the bound query reports another
  (`AnnouncedMinVelocity`).
- A random start computes its position as `r * (maxPosition + |minPosition|) - |minPosition|`.
  This lies within `[minPosition, maxPosition]` only when `minPosition <= 0`
  (`RandomStartBounds`). With a positive `minPosition` the car can start below it
  (`RandomStartBelowMinimum`).

## Model

| member | source | states |
|---|---|---|
| Int32.Inc | MountainCar/src/MountainCar/MountainCar.java:88-90 | Java `int` `++`: the result differs from the input by 1 modulo 2^32, so it is the successor until it wraps from the maximum to the minimum |
| Tokenizer.Tokenize | MountainCar/src/MountainCar/MountainCar.java:216-218 | every token is non-empty and free of `:`, and the tokens together hold exactly the non-`:` characters of the payload, in order |
| Tokenizer.TokenizeSplit | MountainCar/src/MountainCar/MountainCar.java:216 | a `:` separates: the text before it and the text after it tokenize independently, and the results are concatenated |
| Tokenizer.TokenizeJoin | MountainCar/src/MountainCar/MountainCar.java:216-222 | round trip: tokens joined with `:` tokenize back to the same list |
| Tokenizer.EmptyTokensSkipped | MountainCar/src/MountainCar/MountainCar.java:216 | a doubled `:` yields no empty token; it acts as a single `:` |
| MountainCar.Height | MountainCar/src/MountainCar/MountainCar.java:331-333 | the height at `x` is `-sin(hillPeakFrequency * x)`, so it stays in [-1, 1] whenever the sine does |
| MountainCar.Slope | MountainCar/src/MountainCar/MountainCar.java:335-340 | the slope term is `cos(hillPeakFrequency * x)` with no frequency factor, so it stays in [-1, 1] whenever the cosine does, whatever the frequency |
| MountainCar.Reward | MountainCar/src/MountainCar/MountainCar.java:179-184 | the reward is always one of the two reward parameters; when they differ, it is the goal reward exactly when the position is at least the goal position |
| MountainCar.GoalReachability | MountainCar/src/MountainCar/MountainCar.java:73-75 | `inGoalRegion` after a step: a goal right of `maxPosition` is never reached, and a goal at or left of `minPosition` is reached by every step |
| MountainCar.Clip | MountainCar/src/MountainCar/MountainCar.java:115-119 | the two-statement clamp keeps in-range values, maps values above the interval to its top and values below to its bottom, and lands in the interval when it is non-empty |
| MountainCar.MakeObservation | MountainCar/src/MountainCar/MountainCar.java:239-244 | the observation has no integer part and exactly the real values `[position, velocity]` |
| MountainCar.TaskSpec | MountainCar/src/MountainCar/MountainCar.java:84 | the task specification is four fields joined by `:`: `1`, `e`, the observation section with both bounds, and the action section |
| MountainCar.TaskSpecFields | MountainCar/src/MountainCar/MountainCar.java:84 | read back with the `:` tokenizer, the task specification has four fields: `1`, `e`, the observation section with both bounds, and the action section `1_[i]_[0,2]` |
| MountainCar.Init | MountainCar/src/MountainCar/MountainCar.java:77-85 | all three counters become 0, the car goes to its default position and velocity whatever the prior state, parameters are kept, and the task specification is returned |
| MountainCar.Start | MountainCar/src/MountainCar/MountainCar.java:87-99 | the episode number and the total step count advance by one, the step counter restarts at 0, and without random starts the car is at its default state; the observation is that state |
| MountainCar.RandomPosition | MountainCar/src/MountainCar/MountainCar.java:92 | with a non-positive `minPosition`, the start is the draw's fraction of the way from `minPosition` to `maxPosition`; with a positive one, the interval is shifted down to start at `-minPosition` |
| MountainCar.RandomVelocity | MountainCar/src/MountainCar/MountainCar.java:93 | with a non-negative `maxVelocity`, a draw `d` gives `(2d - 1) * maxVelocity`: `-maxVelocity` for 0 and rest for one half |
| MountainCar.RandomStartBounds | MountainCar/src/MountainCar/MountainCar.java:91-93 | with a non-positive `minPosition`, a random start lies within the position bounds and within `[-maxVelocity, maxVelocity]` |
| MountainCar.RandomStartBelowMinimum | MountainCar/src/MountainCar/MountainCar.java:92 | with a positive `minPosition`, a zero draw places the car below `minPosition` |
| MountainCar.Step | MountainCar/src/MountainCar/MountainCar.java:102-123 | parameters and episode number unchanged and both step counters advanced; with ordered bounds, position and velocity end within bounds; a car ending at the left wall has a leftward velocity set to 0 and keeps any other velocity, and away from it the clipped velocity is kept; the velocity uses the slope at the pre-step position, and the position moves by the clipped velocity, then is clamped to `maxPosition` above a non-empty interval and to `minPosition` below it or when the interval is empty; terminal exactly when position is at least the goal; reward is the goal reward when terminal, the step reward otherwise |
| MountainCar.ReportedMinVelocity | MountainCar/src/MountainCar/MountainCar.java:359-361 | the reported minimum velocity is the negated reported maximum, so the reported interval is symmetric about rest; with ordered bounds it contains rest |
| MountainCar.MaxValueFor | MountainCar/src/MountainCar/MountainCar.java:281-286 | dimension 0 reports `maxPosition`; every other dimension reports `maxVelocity` |
| MountainCar.MinValueFor | MountainCar/src/MountainCar/MountainCar.java:288-293 | dimension 0 reports `minPosition`; every other dimension reports `-maxVelocity`, not the `minVelocity` parameter |
| MountainCar.AnnouncedMinVelocity | MountainCar/src/MountainCar/MountainCar.java:84 | the task specification's observation section ends with the velocity interval `[minVelocity, maxVelocity]`, yet the velocity bound query reports `-maxVelocity`, which differs whenever `minVelocity` is not `-maxVelocity` |
| MountainCar.ReportedBoundsCoverStep | MountainCar/src/MountainCar/MountainCar.java:359-364 | when `minVelocity >= -maxVelocity`, the reported bounds enclose the position and velocity after every step |
| Episodes.Run | MountainCar/src/MountainCar/MountainCar.java:102-123 | over any sequence of valid actions, parameters and the episode number never change |
| Episodes.RunCounters | MountainCar/src/MountainCar/MountainCar.java:103-104 | each step adds one to the step counter and to the total, while they do not overflow |
| Episodes.RunInBounds | MountainCar/src/MountainCar/MountainCar.java:114-120 | after at least one step, or from a state already in bounds, the car is within bounds |
| Episodes.InitStartRunCounters | MountainCar/src/MountainCar/MountainCar.java:77-90 | after `Init`, `Start` and n steps: episode 1, step counter n, total n + 1 |
| Episodes.NextEpisodeCounters | MountainCar/src/MountainCar/MountainCar.java:87-90 | a later `Start` followed by n steps: episode number + 1, step counter n, total + n + 1 |
| Episodes.StartForgetsHistory | MountainCar/src/MountainCar/MountainCar.java:94-98 | without random starts, a new episode observes the default state whatever the previous episode did |
| Messages.HeightsOf | MountainCar/src/MountainCar/MountainCar.java:220-224 | succeeds exactly when the count is not positive, or the first n tokens exist and parse; on success, one height per token in input order; it runs out of tokens exactly when all tokens parse but are fewer than n; otherwise it reports the first of the n tokens that does not parse |
| Messages.HeightsIgnoreExtraTokens | MountainCar/src/MountainCar/MountainCar.java:221-224 | tokens past the requested count are never read |
| Messages.QueryHeights | MountainCar/src/MountainCar/MountainCar.java:213-227 | fewer than two tokens gives `NoSuchElement`; an unparsable count gives `NumberFormat`; once the count n parses, it succeeds exactly when n <= 0 or the n position tokens after it exist and parse, runs out of tokens exactly when all position tokens parse but are fewer than n, and otherwise reports the first position token that does not parse; on success, as many heights as the count, each the height of the matching position token |
| Messages.HeightsQueryOfTokens | MountainCar/src/MountainCar/MountainCar.java:216-224 | for a payload `<cmd>:<n>:<p1>:...` with any first token, that token is discarded and the result is the heights of the tokens after the count |
| Messages.Dispatch | MountainCar/src/MountainCar/MountainCar.java:187-234 | only the exact payload `GETMCSTATE` gets a state report, with position, velocity, height here and 0.05 ahead, and the three counters; every payload starting with `GETHEIGHTS` gets the height query's result, and only such payloads can fail; any other custom payload or unhandled message gets no reply; bound and observation queries are answered |
| Scenarios.DefaultTaskSpec | MountainCar/src/MountainCar/MountainCar.java:49-84 | with the default parameters and Java's number printing, the task specification is `1:e:2_[f,f]_[-1.2,0.6]_[-0.07,0.07]:1_[i]_[0,2]` |
| Scenarios.DefaultForwardStep | MountainCar/src/MountainCar/MountainCar.java:114-122 | from the default start, one forward step gives velocity `0.001 + cos(-1.5) * -0.0025`, moves the car by exactly that, and is not terminal (reward -1) |
| Scenarios.HeightsExample | MountainCar/src/MountainCar/MountainCar.java:213-227 | `GETHEIGHTS:3:0.0:0.5:-0.5` on the default hill reports `[-sin(0), -sin(1.5), -sin(-1.5)]` |

## Left out

- Floating point: positions, velocities and heights are `real`. IEEE rounding, NaN and overflow are not modelled.
- `Math.sin` and `Math.cos` are uninterpreted (`Trig`). Facts that need their values, such as the range [-1, 1], are stated as premises where used.
- `Integer.parseInt`, `Double.parseDouble` and `Double.toString` are abstract parameters. Their text formats are not modelled.
- `Math.random` is not modelled. Its two draws are arguments, required to lie in [0, 1).
- An invalid action makes the source log and call `System.exit`. It is a precondition of `Step` instead.
- Parameter configuration (`getDefaultParameters` and the `ParameterHolder` constructor, with its aliases) is not modelled. The model takes a `Params` value, and `DefaultParams` holds the defaults of the field initialisers.
- The RL-Viz framework is not modelled: `EnvironmentMessageParser`, `canHandleAutomatically`/`handleAutomatically`, and the string encoding of `MCStateResponse`/`MCHeightResponse`. `Dispatch` takes a message already classified into the `Message` datatype and returns typed replies.
- `getTheVersionISupport` (always 1.1), `receiveRunTimeParameters` (always acknowledges) and `getNumVars` (always 2) are constant answers to the framework and are not modelled.
- All logging to `System.out`/`System.err` is left out, including the print inside `getSlope`. So are `Thread.dumpStack`, `main`, the empty stubs `env_cleanup`, `env_get_state`, `env_set_state`, `env_get_random_seed` and `env_set_random_seed`, and the unused setters `setPosition`/`setVelocity`.
- Episodes.RunCounters: states the counters only while they stay below the Java `int` maximum. Past that point the wrap-around is given step by step by `Int32.Inc`.
