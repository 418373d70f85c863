/**
  The Mountain Car simulator: a car on a sinusoidal hill, driven by one of
  three discrete actions, whose position and velocity are kept within fixed
  bounds. The environment object is modelled as an immutable `Env`; every
  operation returns the new environment instead of mutating fields.
 */
module MountainCar {
  import opened Int32
  import Tokenizer

  /** The problem parameters, fixed when the environment is constructed. */
  datatype Params = Params(
    randomStarts: bool,
    minPosition: real,
    maxPosition: real,
    minVelocity: real,
    maxVelocity: real,
    goalPosition: real,
    accelerationFactor: real,
    gravityFactor: real,
    hillPeakFrequency: real,
    defaultInitPosition: real,
    defaultInitVelocity: real,
    rewardPerStep: real,
    rewardAtGoal: real)

  /** The values the environment has when no parameter holder is supplied. */
  const DefaultParams: Params := Params(
    randomStarts := false,
    minPosition := -1.2,
    maxPosition := 0.6,
    minVelocity := -0.07,
    maxVelocity := 0.07,
    goalPosition := 0.5,
    accelerationFactor := 0.001,
    gravityFactor := -0.0025,
    hillPeakFrequency := 3.0,
    defaultInitPosition := -0.5,
    defaultInitVelocity := 0.0,
    rewardPerStep := -1.0,
    rewardAtGoal := 0.0)

  /** The mutable part of the environment: the car and the three Java `int` counters. */
  datatype State = State(
    position: real,
    velocity: real,
    episodeNumber: Int32,
    currentStep: Int32,
    totalSteps: Int32)

  datatype Env = Env(params: Params, state: State)

  /** `Math.sin` and `Math.cos`, left uninterpreted. */
  datatype Trig = Trig(sin: real -> real, cos: real -> real)

  /** An RL-Glue observation: an integer part and a real part. */
  datatype Observation = Observation(intArray: seq<int>, doubleArray: seq<real>)

  datatype InitOutcome = InitOutcome(env: Env, taskSpec: string)

  datatype StartOutcome = StartOutcome(env: Env, observation: Observation)

  datatype StepOutcome = StepOutcome(env: Env, reward: real, observation: Observation, terminal: bool)

  /** The bounds are usable: non-empty intervals, and a velocity interval that contains rest. */
  predicate BoundsOrdered(p: Params) {
    p.minPosition <= p.maxPosition && p.minVelocity <= 0.0 <= p.maxVelocity
  }

  predicate InBounds(p: Params, s: State) {
    p.minPosition <= s.position <= p.maxPosition && p.minVelocity <= s.velocity <= p.maxVelocity
  }

  /** Height of the hill at `x`: it never leaves [-1, 1] while the sine stays there. */
  function Height(p: Params, t: Trig, x: real): (r: real)
    ensures -1.0 <= t.sin(p.hillPeakFrequency * x) <= 1.0 ==> -1.0 <= r <= 1.0
  {
    -t.sin(p.hillPeakFrequency * x)
  }

  /**
    The slope term of the dynamics; it deliberately lacks the frequency factor
    of the true derivative, so its size never exceeds 1 while the cosine stays
    in [-1, 1], whatever the frequency.
   */
  function Slope(p: Params, t: Trig, x: real): (r: real)
    ensures -1.0 <= t.cos(p.hillPeakFrequency * x) <= 1.0 ==> -1.0 <= r <= 1.0
  {
    t.cos(p.hillPeakFrequency * x)
  }

  function Abs(x: real): real {
    if x < 0.0 then -x else x
  }

  /**
    Java's two-statement clamp: first capped at `hi`, then raised to `lo`
    (so `lo` wins when the interval is empty).
   */
  function Clip(x: real, lo: real, hi: real): (r: real)
    ensures lo <= hi ==> lo <= r <= hi
    ensures lo <= x <= hi ==> r == x
    ensures x < lo || hi < lo ==> r == lo
    ensures lo <= hi < x ==> r == hi
  {
    var capped := if x > hi then hi else x;
    if capped < lo then lo else capped
  }

  /** The stopping condition: the car is at or past the goal. */
  predicate InGoalRegion(p: Params, s: State) {
    s.position >= p.goalPosition
  }

  /** The reward is one of the two parameters, and tells the goal apart whenever they differ. */
  function Reward(p: Params, s: State): (r: real)
    ensures r == p.rewardAtGoal || r == p.rewardPerStep
    ensures p.rewardAtGoal != p.rewardPerStep ==> (r == p.rewardAtGoal <==> s.position >= p.goalPosition)
  {
    if InGoalRegion(p, s) then p.rewardAtGoal else p.rewardPerStep
  }

  /** The observation is the state itself: the environment is fully observable. */
  function MakeObservation(s: State): (o: Observation)
    ensures o.intArray == []
    ensures |o.doubleArray| == 2 && o.doubleArray[0] == s.position && o.doubleArray[1] == s.velocity
  {
    Observation([], [s.position, s.velocity])
  }

  /** The task specification string announced by `Init`; `fmt` is Java's `Double.toString`. */
  function TaskSpec(p: Params, fmt: real -> string): (r: string)
    ensures r == Tokenizer.Join(["1", "e", ObservationSpec(p, fmt), "1_[i]_[0,2]"])
  {
    FieldsJoined(ObservationSpec(p, fmt));
    "1:e:" + ObservationSpec(p, fmt) + ":1_[i]_[0,2]"
  }

  /** The task specification's literal layout is the `:`-join of its four fields. */
  lemma FieldsJoined(obs: string)
    ensures "1:e:" + obs + ":1_[i]_[0,2]" == Tokenizer.Join(["1", "e", obs, "1_[i]_[0,2]"])
  {
    var fields := ["1", "e", obs, "1_[i]_[0,2]"];
    assert Tokenizer.Join(fields[2..]) == obs + ":1_[i]_[0,2]";
    assert Tokenizer.Join(fields[1..]) == "e:" + obs + ":1_[i]_[0,2]";
  }

  /** The observation section of the task specification: two reals and their bounds. */
  function ObservationSpec(p: Params, fmt: real -> string): string {
    "2_[f,f]_[" + fmt(p.minPosition) + "," + fmt(p.maxPosition) + "]_["
      + fmt(p.minVelocity) + "," + fmt(p.maxVelocity) + "]"
  }

  /**
    The task specification reads, field by field: episodic task, the
    observation section with both bounds, one action in [0,2] -- provided the
    printed numbers contain no colon.
   */
  lemma TaskSpecFields(p: Params, fmt: real -> string)
    requires Tokenizer.Delim !in fmt(p.minPosition) && Tokenizer.Delim !in fmt(p.maxPosition)
    requires Tokenizer.Delim !in fmt(p.minVelocity) && Tokenizer.Delim !in fmt(p.maxVelocity)
    ensures Tokenizer.Tokenize(TaskSpec(p, fmt)) == ["1", "e", ObservationSpec(p, fmt), "1_[i]_[0,2]"]
  {
    var obs := ObservationSpec(p, fmt);
    assert Tokenizer.Delim !in obs;
    Tokenizer.TokenizeJoin(["1", "e", obs, "1_[i]_[0,2]"]);
  }

  /** `env_init`: counters cleared, car at its default start, task specification returned. */
  function Init(e: Env, fmt: real -> string): (r: InitOutcome)
    ensures r.env.params == e.params
    ensures r.env.state.episodeNumber == 0 && r.env.state.currentStep == 0 && r.env.state.totalSteps == 0
    ensures r.env.state.position == e.params.defaultInitPosition
    ensures r.env.state.velocity == e.params.defaultInitVelocity
    ensures r.taskSpec == TaskSpec(e.params, fmt)
  {
    var s := State(e.params.defaultInitPosition, e.params.defaultInitVelocity, 0, 0, 0);
    InitOutcome(Env(e.params, s), TaskSpec(e.params, fmt))
  }

  /**
    The random start position, from one `Math.random()` draw. With a
    non-positive `minPosition` it is the point the draw's fraction of the way
    from `minPosition` to `maxPosition`.
   */
  function RandomPosition(p: Params, draw: real): (r: real)
    ensures p.minPosition <= 0.0 ==> r == p.minPosition + draw * (p.maxPosition - p.minPosition)
    ensures 0.0 < p.minPosition ==> r == draw * (p.maxPosition + p.minPosition) - p.minPosition
  {
    draw * (p.maxPosition + Abs(p.minPosition)) - Abs(p.minPosition)
  }

  /**
    The random start velocity, from one `Math.random()` draw. With a
    non-negative `maxVelocity` a draw `d` gives `(2d - 1) * maxVelocity`: a zero
    draw starts at `-maxVelocity`, a draw of one half at rest.
   */
  function RandomVelocity(p: Params, draw: real): (r: real)
    ensures 0.0 <= p.maxVelocity ==> r == (2.0 * draw - 1.0) * p.maxVelocity
    ensures p.maxVelocity < 0.0 ==> r == (2.0 * draw + 1.0) * p.maxVelocity
  {
    draw * p.maxVelocity * 2.0 - Abs(p.maxVelocity)
  }

  /**
    `env_start`: a new episode. `draw1` and `draw2` are the two values
    `Math.random()` would return; they are used only with random starts.
   */
  function Start(e: Env, draw1: real, draw2: real): (r: StartOutcome)
    requires 0.0 <= draw1 < 1.0 && 0.0 <= draw2 < 1.0
    ensures r.env.params == e.params
    ensures r.env.state.episodeNumber == Inc(e.state.episodeNumber)
    ensures r.env.state.currentStep == 0
    ensures r.env.state.totalSteps == Inc(e.state.totalSteps)
    ensures !e.params.randomStarts ==>
      r.env.state.position == e.params.defaultInitPosition && r.env.state.velocity == e.params.defaultInitVelocity
    ensures e.params.randomStarts ==>
      r.env.state.position == RandomPosition(e.params, draw1) && r.env.state.velocity == RandomVelocity(e.params, draw2)
    ensures r.observation == MakeObservation(r.env.state)
  {
    var p := e.params;
    var position := if p.randomStarts then RandomPosition(p, draw1) else p.defaultInitPosition;
    var velocity := if p.randomStarts then RandomVelocity(p, draw2) else p.defaultInitVelocity;
    var s := State(position, velocity, Inc(e.state.episodeNumber), 0, Inc(e.state.totalSteps));
    StartOutcome(Env(p, s), MakeObservation(s))
  }

  /**
    A random start lands within the position bounds and within
    [-maxVelocity, maxVelocity] -- as long as `minPosition` is not positive.
   */
  lemma RandomStartBounds(e: Env, draw1: real, draw2: real)
    requires 0.0 <= draw1 < 1.0 && 0.0 <= draw2 < 1.0
    requires e.params.randomStarts
    requires e.params.minPosition <= 0.0 && e.params.minPosition <= e.params.maxPosition
    requires 0.0 <= e.params.maxVelocity
    ensures var s := Start(e, draw1, draw2).env.state;
      e.params.minPosition <= s.position <= e.params.maxPosition
      && -e.params.maxVelocity <= s.velocity <= e.params.maxVelocity
  {
    RandomPositionWithin(e.params, draw1);
    RandomVelocityWithin(e.params, draw2);
  }

  lemma RandomPositionWithin(p: Params, draw: real)
    requires 0.0 <= draw < 1.0
    requires p.minPosition <= 0.0 && p.minPosition <= p.maxPosition
    ensures p.minPosition <= RandomPosition(p, draw) <= p.maxPosition
  {
    var width := p.maxPosition - p.minPosition;
    assert p.maxPosition + Abs(p.minPosition) == width;
    ScaledWithin(draw, width);
    assert RandomPosition(p, draw) == draw * width + p.minPosition;
  }

  lemma RandomVelocityWithin(p: Params, draw: real)
    requires 0.0 <= draw < 1.0
    requires 0.0 <= p.maxVelocity
    ensures -p.maxVelocity <= RandomVelocity(p, draw) <= p.maxVelocity
  {
    ScaledWithin(draw, p.maxVelocity);
    assert RandomVelocity(p, draw) == (draw * p.maxVelocity) * 2.0 - p.maxVelocity;
  }

  lemma ScaledWithin(d: real, w: real)
    requires 0.0 <= d < 1.0 && 0.0 <= w
    ensures 0.0 <= d * w <= w
  {
    assert 0.0 <= (1.0 - d) * w;
  }

  /** With a positive `minPosition` the random start formula can place the car below it. */
  lemma RandomStartBelowMinimum(e: Env, draw2: real)
    requires 0.0 <= draw2 < 1.0
    requires e.params.randomStarts && 0.0 < e.params.minPosition
    ensures Start(e, 0.0, draw2).env.state.position < e.params.minPosition
  {
  }

  /** The velocity after thrust and gravity act, before any clipping. */
  function ThrustedVelocity(e: Env, t: Trig, a: int): real {
    e.state.velocity + (a - 1) as real * e.params.accelerationFactor
      + Slope(e.params, t, e.state.position) * e.params.gravityFactor
  }

  /** The velocity clipped to its bounds, before the wall stop. */
  function ClippedVelocity(e: Env, t: Trig, a: int): real {
    Clip(ThrustedVelocity(e, t, a), e.params.minVelocity, e.params.maxVelocity)
  }

  /**
    `env_step`: one tick of the dynamics. The velocity changes by the thrust and
    by gravity along the slope at the pre-step position and is clipped; the
    position then moves by that clipped velocity and is clipped; at the left
    wall a leftward velocity is cancelled. An action outside {0,1,2} makes the
    source exit the process, hence the precondition.
   */
  function Step(e: Env, t: Trig, a: int): (r: StepOutcome)
    requires 0 <= a <= 2
    // parameters and the episode number are untouched, both step counters advance
    ensures r.env.params == e.params
    ensures r.env.state.episodeNumber == e.state.episodeNumber
    ensures r.env.state.currentStep == Inc(e.state.currentStep)
    ensures r.env.state.totalSteps == Inc(e.state.totalSteps)
    // clipping
    ensures BoundsOrdered(e.params) ==> InBounds(e.params, r.env.state)
    // wall stop
    ensures r.env.state.position == e.params.minPosition ==> r.env.state.velocity >= 0.0
    ensures (BoundsOrdered(e.params) && r.env.state.position == e.params.minPosition
              && ThrustedVelocity(e, t, a) <= 0.0) ==> r.env.state.velocity == 0.0
    // only a leftward velocity is cancelled, and only at the left wall; any other velocity is kept
    ensures (r.env.state.position == e.params.minPosition && ClippedVelocity(e, t, a) < 0.0) ==>
              r.env.state.velocity == 0.0
    ensures (r.env.state.position != e.params.minPosition || 0.0 <= ClippedVelocity(e, t, a)) ==>
              r.env.state.velocity == ClippedVelocity(e, t, a)
    // update order: away from the position bounds the car moved by exactly its new velocity,
    // and that velocity is the one computed from the pre-step position whenever it needed no clipping
    ensures e.params.minPosition < r.env.state.position < e.params.maxPosition ==>
              r.env.state.position == e.state.position + r.env.state.velocity
    ensures (e.params.minPosition < r.env.state.position
              && e.params.minVelocity <= ThrustedVelocity(e, t, a) <= e.params.maxVelocity) ==>
              r.env.state.velocity == ThrustedVelocity(e, t, a)
    ensures e.params.minPosition <= e.state.position + ClippedVelocity(e, t, a) <= e.params.maxPosition ==>
              r.env.state.position == e.state.position + ClippedVelocity(e, t, a)
    ensures e.state.position + ClippedVelocity(e, t, a) < e.params.minPosition ==>
              r.env.state.position == e.params.minPosition
    ensures e.params.minPosition <= e.params.maxPosition < e.state.position + ClippedVelocity(e, t, a) ==>
              r.env.state.position == e.params.maxPosition
    // an empty position interval: the lower clamp runs last, so the car sits at minPosition
    ensures e.params.maxPosition < e.params.minPosition ==> r.env.state.position == e.params.minPosition
    ensures BoundsOrdered(e.params) && ThrustedVelocity(e, t, a) > e.params.maxVelocity ==>
              r.env.state.velocity == e.params.maxVelocity
    ensures (BoundsOrdered(e.params) && ThrustedVelocity(e, t, a) < e.params.minVelocity
              && e.params.minPosition < r.env.state.position) ==>
              r.env.state.velocity == e.params.minVelocity
    // goal and reward
    ensures r.terminal <==> r.env.state.position >= e.params.goalPosition
    ensures r.reward == (if r.terminal then e.params.rewardAtGoal else e.params.rewardPerStep)
    ensures r.observation == MakeObservation(r.env.state)
  {
    var p := e.params;
    var s := e.state;
    var velocity := ClippedVelocity(e, t, a);
    var position := Clip(s.position + velocity, p.minPosition, p.maxPosition);
    var velocity' := if position == p.minPosition && velocity < 0.0 then 0.0 else velocity;
    var s' := State(position, velocity', s.episodeNumber, Inc(s.currentStep), Inc(s.totalSteps));
    StepOutcome(Env(p, s'), Reward(p, s'), MakeObservation(s'), InGoalRegion(p, s'))
  }

  /** Java's `getMinVelocity`: the negated maximum, not the `minVelocity` parameter. */
  function ReportedMinVelocity(p: Params): (r: real)
    ensures r == -ReportedMaxVelocity(p)
    ensures BoundsOrdered(p) ==> r <= 0.0 <= ReportedMaxVelocity(p)
  {
    -p.maxVelocity
  }

  /** Java's `getMaxVelocity`. */
  function ReportedMaxVelocity(p: Params): (r: real)
    ensures r == p.maxVelocity
  {
    p.maxVelocity
  }

  /** Upper bound of a queryable variable: dimension 0 is the position, any other the velocity. */
  function MaxValueFor(p: Params, dimension: int): (r: real)
    ensures dimension == 0 ==> r == p.maxPosition
    ensures dimension != 0 ==> r == p.maxVelocity
  {
    if dimension == 0 then p.maxPosition else ReportedMaxVelocity(p)
  }

  /** Lower bound of a queryable variable: dimension 0 is the position, any other the velocity. */
  function MinValueFor(p: Params, dimension: int): (r: real)
    ensures dimension == 0 ==> r == p.minPosition
    ensures dimension != 0 ==> r == -p.maxVelocity
  {
    if dimension == 0 then p.minPosition else ReportedMinVelocity(p)
  }

  /**
    The task specification ends its observation section with the velocity
    interval `[minVelocity, maxVelocity]`, while the bound query for the
    velocity reports `-maxVelocity` as the lower end: the two disagree whenever
    `minVelocity` is not `-maxVelocity`.
   */
  lemma AnnouncedMinVelocity(p: Params, fmt: real -> string)
    requires p.minVelocity != -p.maxVelocity
    ensures var obs := ObservationSpec(p, fmt);
      var velocities := "_[" + fmt(p.minVelocity) + "," + fmt(p.maxVelocity) + "]";
      && |velocities| <= |obs|
      && obs[|obs| - |velocities|..] == velocities
      && MinValueFor(p, 1) != p.minVelocity
      && MaxValueFor(p, 1) == p.maxVelocity
  {
    var positions := "2_[f,f]_[" + fmt(p.minPosition) + "," + fmt(p.maxPosition) + "]";
    var velocities := "_[" + fmt(p.minVelocity) + "," + fmt(p.maxVelocity) + "]";
    assert ObservationSpec(p, fmt) == positions + velocities;
  }

  /**
    The reported bounds enclose every state a step produces, provided the
    velocity interval does not reach below `-maxVelocity` (as it does not with
    the symmetric defaults).
   */
  lemma ReportedBoundsCoverStep(e: Env, t: Trig, a: int)
    requires 0 <= a <= 2
    requires BoundsOrdered(e.params) && -e.params.maxVelocity <= e.params.minVelocity
    ensures var s := Step(e, t, a).env.state;
      && MinValueFor(e.params, 0) <= s.position <= MaxValueFor(e.params, 0)
      && MinValueFor(e.params, 1) <= s.velocity <= MaxValueFor(e.params, 1)
  {
  }

  /**
    Where the goal sits against the position bounds decides the goal test: a
    goal right of `maxPosition` is never reached, a goal at or left of
    `minPosition` is reached by every step.
   */
  lemma GoalReachability(e: Env, t: Trig, a: int)
    requires 0 <= a <= 2
    requires BoundsOrdered(e.params)
    ensures var o := Step(e, t, a);
      && (e.params.maxPosition < e.params.goalPosition ==>
            !o.terminal && !InGoalRegion(e.params, o.env.state) && o.reward == e.params.rewardPerStep)
      && (e.params.goalPosition <= e.params.minPosition ==>
            o.terminal && InGoalRegion(e.params, o.env.state) && o.reward == e.params.rewardAtGoal)
  {
  }

  /** The observation for a state is the state itself. */
  function ObservationForState(o: Observation): (r: Observation)
    ensures r == o
  {
    o
  }
}
