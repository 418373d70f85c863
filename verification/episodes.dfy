/**
  Sequences of steps: what the lifecycle operations guarantee about the
  counters and the car's state over a whole episode.
 */
module Episodes {
  import opened Int32
  import opened MountainCar

  predicate ValidActions(acts: seq<int>) {
    forall i :: 0 <= i < |acts| ==> 0 <= acts[i] <= 2
  }

  /** Steps with each action in turn; parameters and the episode number never change. */
  function Run(e: Env, t: Trig, acts: seq<int>): (r: Env)
    requires ValidActions(acts)
    ensures r.params == e.params
    ensures r.state.episodeNumber == e.state.episodeNumber
    decreases |acts|
  {
    if acts == [] then e else Run(Step(e, t, acts[0]).env, t, acts[1..])
  }

  /** Each step adds one to both step counters (while they do not overflow). */
  lemma {:induction false} RunCounters(e: Env, t: Trig, acts: seq<int>)
    requires ValidActions(acts)
    requires e.state.currentStep + |acts| <= MaxInt32
    requires e.state.totalSteps + |acts| <= MaxInt32
    ensures Run(e, t, acts).state.currentStep == e.state.currentStep + |acts|
    ensures Run(e, t, acts).state.totalSteps == e.state.totalSteps + |acts|
    decreases |acts|
  {
    if acts != [] {
      RunCounters(Step(e, t, acts[0]).env, t, acts[1..]);
    }
  }

  /** After at least one step, or from a state already in bounds, the car is within bounds. */
  lemma {:induction false} RunInBounds(e: Env, t: Trig, acts: seq<int>)
    requires ValidActions(acts)
    requires BoundsOrdered(e.params)
    requires |acts| > 0 || InBounds(e.params, e.state)
    ensures InBounds(e.params, Run(e, t, acts).state)
    decreases |acts|
  {
    if acts != [] {
      var e' := Step(e, t, acts[0]).env;
      RunInBounds(e', t, acts[1..]);
    }
  }

  /**
    An episode of `n` steps after `Init` and `Start`: the episode number is 1,
    the step counter is `n`, and the total counts the start as one step too.
   */
  lemma InitStartRunCounters(e: Env, fmt: real -> string, t: Trig, draw1: real, draw2: real, acts: seq<int>)
    requires 0.0 <= draw1 < 1.0 && 0.0 <= draw2 < 1.0
    requires ValidActions(acts)
    requires |acts| < MaxInt32
    ensures var e' := Run(Start(Init(e, fmt).env, draw1, draw2).env, t, acts);
      && e'.params == e.params
      && e'.state.episodeNumber == 1
      && e'.state.currentStep == |acts|
      && e'.state.totalSteps == 1 + |acts|
  {
    RunCounters(Start(Init(e, fmt).env, draw1, draw2).env, t, acts);
  }

  /**
    A later episode: starting again bumps the episode number, restarts the step
    counter and keeps the running total, counting the start as one step.
   */
  lemma NextEpisodeCounters(e: Env, t: Trig, draw1: real, draw2: real, acts: seq<int>)
    requires 0.0 <= draw1 < 1.0 && 0.0 <= draw2 < 1.0
    requires ValidActions(acts)
    requires e.state.episodeNumber < MaxInt32
    requires |acts| <= MaxInt32 && e.state.totalSteps + 1 + |acts| <= MaxInt32
    ensures var e' := Run(Start(e, draw1, draw2).env, t, acts);
      && e'.state.episodeNumber == e.state.episodeNumber + 1
      && e'.state.currentStep == |acts|
      && e'.state.totalSteps == e.state.totalSteps + 1 + |acts|
  {
    RunCounters(Start(e, draw1, draw2).env, t, acts);
  }

  /**
    Without random starts, a new episode begins from the default state and
    observation whatever the previous episode did.
   */
  lemma StartForgetsHistory(e: Env, t: Trig, acts: seq<int>)
    requires ValidActions(acts)
    requires !e.params.randomStarts
    ensures var r := Start(Run(e, t, acts), 0.0, 0.0);
      r.observation.doubleArray == [e.params.defaultInitPosition, e.params.defaultInitVelocity]
  {
  }
}
