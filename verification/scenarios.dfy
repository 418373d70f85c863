/**
  Concrete scenarios with the default parameters: the announced task
  specification, the first forward step from the default start, and a
  three-point height query.
 */
module Scenarios {
  import opened Wrappers
  import opened MountainCar
  import opened Messages
  import Tokenizer

  /** With Java's number printing, the default task specification is the documented string. */
  lemma DefaultTaskSpec(e: Env, fmt: real -> string)
    requires e.params == DefaultParams
    requires fmt(-1.2) == "-1.2" && fmt(0.6) == "0.6" && fmt(-0.07) == "-0.07" && fmt(0.07) == "0.07"
    ensures Init(e, fmt).taskSpec == "1:e:2_[f,f]_[-1.2,0.6]_[-0.07,0.07]:1_[i]_[0,2]"
  {
    var p := e.params;
    DefaultTaskSpecText(fmt(p.minPosition), fmt(p.maxPosition), fmt(p.minVelocity), fmt(p.maxVelocity));
  }

  lemma DefaultTaskSpecText(a: string, b: string, c: string, d: string)
    requires a == "-1.2" && b == "0.6" && c == "-0.07" && d == "0.07"
    ensures "1:e:" + ("2_[f,f]_[" + a + "," + b + "]_[" + c + "," + d + "]") + ":1_[i]_[0,2]"
              == "1:e:2_[f,f]_[-1.2,0.6]_[-0.07,0.07]:1_[i]_[0,2]"
  {
    DefaultObservationText(a, b, c, d);
    DefaultTaskText("2_[f,f]_[" + a + "," + b + "]_[" + c + "," + d + "]");
  }

  lemma DefaultObservationText(a: string, b: string, c: string, d: string)
    requires a == "-1.2" && b == "0.6" && c == "-0.07" && d == "0.07"
    ensures "2_[f,f]_[" + a + "," + b + "]_[" + c + "," + d + "]" == "2_[f,f]_[-1.2,0.6]_[-0.07,0.07]"
  {
    assert "2_[f,f]_[" + a + "," + b == "2_[f,f]_[-1.2,0.6";
  }

  lemma DefaultTaskText(obs: string)
    requires obs == "2_[f,f]_[-1.2,0.6]_[-0.07,0.07]"
    ensures "1:e:" + obs + ":1_[i]_[0,2]" == "1:e:2_[f,f]_[-1.2,0.6]_[-0.07,0.07]:1_[i]_[0,2]"
  {
  }

  /**
    From the default start, full forward thrust once: gravity at the start
    position and the thrust move the car without touching any bound, and the
    car is not yet at the goal.
   */
  lemma DefaultForwardStep(e: Env, t: Trig)
    requires e.params == DefaultParams
    requires -1.0 <= t.cos(-1.5) <= 1.0
    ensures var o := Step(Start(e, 0.0, 0.0).env, t, 2);
      var v := 0.001 + t.cos(-1.5) * -0.0025;
      && o.env.state.velocity == v
      && o.env.state.position == -0.5 + v
      && !o.terminal
      && o.reward == -1.0
  {
    var s := Start(e, 0.0, 0.0).env;
    assert s.state.position == -0.5 && s.state.velocity == 0.0;
    assert Slope(s.params, t, s.state.position) == t.cos(-1.5);
  }

  /**
    The height query `GETHEIGHTS:3:0.0:0.5:-0.5` on the default hill
    (frequency 3) reports the heights at 0, 0.5 and -0.5 in that order.
   */
  lemma HeightsExample(e: Env, t: Trig, ps: Parsers, payload: string)
    requires e.params == DefaultParams
    requires payload == "GETHEIGHTS:3:0.0:0.5:-0.5"
    requires ps.parseInt("3") == Some(3)
    requires ps.parseDouble("0.0") == Some(0.0)
    requires ps.parseDouble("0.5") == Some(0.5)
    requires ps.parseDouble("-0.5") == Some(-0.5)
    ensures Dispatch(e, t, ps, Custom(payload)) == Success(Some(HeightsReport([-t.sin(0.0), -t.sin(1.5), -t.sin(-1.5)])))
  {
    ExampleQuery(e.params, t, ps, payload);
    ExampleIsHeightsQuery(payload);
  }

  lemma ExampleQuery(p: Params, t: Trig, ps: Parsers, payload: string)
    requires p.hillPeakFrequency == 3.0
    requires payload == "GETHEIGHTS:3:0.0:0.5:-0.5"
    requires ps.parseInt("3") == Some(3)
    requires ps.parseDouble("0.0") == Some(0.0)
    requires ps.parseDouble("0.5") == Some(0.5)
    requires ps.parseDouble("-0.5") == Some(-0.5)
    ensures QueryHeights(p, t, ps, payload) == Success([-t.sin(0.0), -t.sin(1.5), -t.sin(-1.5)])
  {
    ExampleTokens(payload);
    var positions := ["0.0", "0.5", "-0.5"];
    ExampleHeights(p, t, ps, positions);
    assert Tokenizer.Tokenize(payload)[2..] == positions;
  }

  lemma ExampleIsHeightsQuery(payload: string)
    requires payload == "GETHEIGHTS:3:0.0:0.5:-0.5"
    ensures StartsWith(payload, HeightsCommand) && payload != StateCommand
  {
    assert payload[..|HeightsCommand|] == HeightsCommand;
    assert payload[3] != StateCommand[3];
  }

  lemma ExampleTokens(payload: string)
    requires payload == "GETHEIGHTS:3:0.0:0.5:-0.5"
    ensures Tokenizer.Tokenize(payload) == [HeightsCommand, "3", "0.0", "0.5", "-0.5"]
  {
    var ts := [HeightsCommand, "3", "0.0", "0.5", "-0.5"];
    ExampleJoin(ts, payload);
    ExampleAreTokens(ts);
    Tokenizer.TokenizeJoin(ts);
  }

  lemma ExampleJoin(ts: seq<string>, payload: string)
    requires ts == [HeightsCommand, "3", "0.0", "0.5", "-0.5"]
    requires payload == "GETHEIGHTS:3:0.0:0.5:-0.5"
    ensures Tokenizer.Join(ts) == payload
  {
    assert Tokenizer.Join(ts[4..]) == "-0.5";
    JoinCons(ts[3..], "-0.5", "0.5:-0.5");
    JoinCons(ts[2..], "0.5:-0.5", "0.0:0.5:-0.5");
    JoinCons(ts[1..], "0.0:0.5:-0.5", "3:0.0:0.5:-0.5");
    JoinCons(ts, "3:0.0:0.5:-0.5", payload);
  }

  lemma JoinCons(ts: seq<string>, tail: string, joined: string)
    requires 2 <= |ts|
    requires Tokenizer.Join(ts[1..]) == tail
    requires ts[0] + [Tokenizer.Delim] + tail == joined
    ensures Tokenizer.Join(ts) == joined
  {
  }

  lemma ExampleAreTokens(ts: seq<string>)
    requires ts == [HeightsCommand, "3", "0.0", "0.5", "-0.5"]
    ensures forall i :: 0 <= i < |ts| ==> Tokenizer.IsToken(ts[i])
  {
  }

  lemma ExampleHeights(p: Params, t: Trig, ps: Parsers, positions: seq<string>)
    requires p.hillPeakFrequency == 3.0
    requires positions == ["0.0", "0.5", "-0.5"]
    requires ps.parseDouble("0.0") == Some(0.0)
    requires ps.parseDouble("0.5") == Some(0.5)
    requires ps.parseDouble("-0.5") == Some(-0.5)
    ensures HeightsOf(p, t, ps, positions, 3) == Success([-t.sin(0.0), -t.sin(1.5), -t.sin(-1.5)])
  {
    var last := positions[2..];
    assert last == ["-0.5"] && last[1..] == [];
    assert ps.parseDouble(last[0]) == Some(-0.5);
    assert HeightsOf(p, t, ps, last[1..], 0) == Success([]);
    var r2 := HeightsOf(p, t, ps, last, 1);
    assert r2.Success? && r2.value == [Height(p, t, -0.5)];
    var middle := positions[1..];
    assert middle == ["0.5", "-0.5"] && middle[1..] == last;
    assert ps.parseDouble(middle[0]) == Some(0.5);
    var r1 := HeightsOf(p, t, ps, middle, 2);
    assert r1.Success? && r1.value == [Height(p, t, 0.5), Height(p, t, -0.5)];
    assert ps.parseDouble(positions[0]) == Some(0.0);
    var r0 := HeightsOf(p, t, ps, positions, 3);
    assert r0.Success? && r0.value == [Height(p, t, 0.0), Height(p, t, 0.5), Height(p, t, -0.5)];
    assert Height(p, t, 0.0) == -t.sin(0.0) && Height(p, t, 0.5) == -t.sin(1.5) && Height(p, t, -0.5) == -t.sin(-1.5);
  }
}
