/**
  The environment's side of the RL-Viz message protocol: the custom
  `GETMCSTATE` and `GETHEIGHTS` payloads, and the standard bound and
  observation queries the framework routes to the environment. Replies are
  typed; their string encoding belongs to the framework. Queries return only a
  reply, never a new environment: they cannot change the simulator.
 */
module Messages {
  import opened Wrappers
  import opened Int32
  import opened MountainCar
  import Tokenizer

  const StateCommand: string := "GETMCSTATE"
  const HeightsCommand: string := "GETHEIGHTS"

  /** `Integer.parseInt` and `Double.parseDouble`; `None` stands for a `NumberFormatException`. */
  datatype Parsers = Parsers(parseInt: string -> Option<Int32>, parseDouble: string -> Option<real>)

  /** The exceptions a height query lets escape. */
  datatype Fault =
    | NoSuchElement             // the tokenizer ran out of tokens
    | NumberFormat(token: string) // a token did not parse as a number

  /** A message as the RL-Viz framework classifies it before handing it over. */
  datatype Message =
    | NotRLViz                  // the text is not an RL-Viz message at all
    | MaxValueQuery(dimension: int)
    | MinValueQuery(dimension: int)
    | ObservationQuery(state: Observation)
    | Custom(payload: string)   // a custom environment message
    | OtherType                 // an RL-Viz message the framework did not handle and that is not custom

  /** The state report: car, height here and slightly ahead, and the three counters. */
  datatype CarReport = CarReport(
    position: real,
    velocity: real,
    height: real,
    deltaHeight: real,
    episodeNumber: Int32,
    currentStep: Int32,
    totalSteps: Int32)

  datatype Reply =
    | NotRLVizNotice            // the fixed text "I only respond to RL-Viz messages!"
    | Bound(value: real)
    | ObservationReply(observation: Observation)
    | StateReport(report: CarReport)
    | HeightsReport(heights: seq<real>)

  predicate StartsWith(s: string, prefix: string) {
    |prefix| <= |s| && s[..|prefix|] == prefix
  }

  function Count(n: int): nat {
    if n <= 0 then 0 else n
  }

  /**
    The heights of the first `n` position tokens, read one after the other.
    It succeeds exactly when `n` is not positive or the first `n` tokens exist
    and parse; it runs out of tokens exactly when all the tokens there are
    parse but are fewer than `n`; otherwise the first of the `n` tokens that
    does not parse is reported.
   */
  function HeightsOf(p: Params, t: Trig, ps: Parsers, toks: seq<string>, n: int): (r: Result<seq<real>, Fault>)
    ensures r.Success? <==> n <= 0 || (n <= |toks| && forall i :: 0 <= i < n ==> ps.parseDouble(toks[i]).Some?)
    ensures r.Success? ==> |r.value| == Count(n)
    ensures r.Success? ==> forall i :: 0 <= i < |r.value| ==>
              && ps.parseDouble(toks[i]).Some?
              && r.value[i] == Height(p, t, ps.parseDouble(toks[i]).value)
    ensures r == Failure(NoSuchElement) <==>
              0 < n && |toks| < n && forall i :: 0 <= i < |toks| ==> ps.parseDouble(toks[i]).Some?
    ensures r.Failure? && r.error.NumberFormat? ==> r.error.token in toks
    ensures forall j :: 0 <= j < n && j < |toks| && ps.parseDouble(toks[j]).None?
                        && (forall i :: 0 <= i < j ==> ps.parseDouble(toks[i]).Some?) ==>
              r == Failure(NumberFormat(toks[j]))
    decreases |toks|
  {
    if n <= 0 then Success([])
    else if toks == [] then Failure(NoSuchElement)
    else match ps.parseDouble(toks[0])
      case None => Failure(NumberFormat(toks[0]))
      case Some(x) =>
        match HeightsOf(p, t, ps, toks[1..], n - 1)
        case Failure(f) => Failure(f)
        case Success(rest) => Success([Height(p, t, x)] + rest)
  }

  /** Tokens past the requested count are never looked at. */
  lemma {:induction false} HeightsIgnoreExtraTokens(p: Params, t: Trig, ps: Parsers, toks: seq<string>, extra: seq<string>, n: int)
    requires n <= |toks|
    ensures HeightsOf(p, t, ps, toks + extra, n) == HeightsOf(p, t, ps, toks, n)
    decreases |toks|
  {
    if 0 < n {
      var all := toks + extra;
      assert all[0] == toks[0] && all != [];
      match ps.parseDouble(toks[0])
      case None =>
      case Some(x) =>
        assert all[1..] == toks[1..] + extra;
        HeightsIgnoreExtraTokens(p, t, ps, toks[1..], extra, n - 1);
    }
  }

  /**
    A `GETHEIGHTS` payload: split on ':' (empty tokens dropped), the first token
    discarded, the second read as the count, the rest as positions.
   */
  function QueryHeights(p: Params, t: Trig, ps: Parsers, payload: string): (r: Result<seq<real>, Fault>)
    ensures var toks := Tokenizer.Tokenize(payload);
      && (|toks| < 2 ==> r == Failure(NoSuchElement))
      && (|toks| >= 2 && ps.parseInt(toks[1]).None? ==> r == Failure(NumberFormat(toks[1])))
      && (r.Success? ==>
            && |toks| >= 2 && ps.parseInt(toks[1]).Some?
            && |r.value| == Count(ps.parseInt(toks[1]).value)
            && forall i :: 0 <= i < |r.value| ==>
                 && i + 2 < |toks|
                 && ps.parseDouble(toks[i + 2]).Some?
                 && r.value[i] == Height(p, t, ps.parseDouble(toks[i + 2]).value))
    // once the count parses: when the query succeeds, and which fault it reports otherwise
    ensures var toks := Tokenizer.Tokenize(payload);
      |toks| >= 2 && ps.parseInt(toks[1]).Some? ==>
        var n := ps.parseInt(toks[1]).value as int;
        && (r.Success? <==> n <= 0 || (n <= |toks| - 2 && forall i :: 2 <= i < n + 2 ==> ps.parseDouble(toks[i]).Some?))
        && (r == Failure(NoSuchElement) <==>
              0 < n && |toks| - 2 < n && forall i :: 2 <= i < |toks| ==> ps.parseDouble(toks[i]).Some?)
        && (forall j :: 2 <= j < n + 2 && j < |toks| && ps.parseDouble(toks[j]).None?
                        && (forall i :: 2 <= i < j ==> ps.parseDouble(toks[i]).Some?) ==>
              r == Failure(NumberFormat(toks[j])))
  {
    var toks := Tokenizer.Tokenize(payload);
    if |toks| < 2 then Failure(NoSuchElement)
    else match ps.parseInt(toks[1])
      case None => Failure(NumberFormat(toks[1]))
      case Some(n) =>
        HeightsOfShifted(p, t, ps, toks, n);
        HeightsOf(p, t, ps, toks[2..], n)
  }

  /** `HeightsOf` over the positions after the command and the count, stated in the full token list's indices. */
  lemma HeightsOfShifted(p: Params, t: Trig, ps: Parsers, toks: seq<string>, n: int)
    requires 2 <= |toks|
    ensures var r := HeightsOf(p, t, ps, toks[2..], n);
      && (r.Success? <==> n <= 0 || (n <= |toks| - 2 && forall i :: 2 <= i < n + 2 ==> ps.parseDouble(toks[i]).Some?))
      && (r == Failure(NoSuchElement) <==>
            0 < n && |toks| - 2 < n && forall i :: 2 <= i < |toks| ==> ps.parseDouble(toks[i]).Some?)
      && (forall j :: 2 <= j < n + 2 && j < |toks| && ps.parseDouble(toks[j]).None?
                      && (forall i :: 2 <= i < j ==> ps.parseDouble(toks[i]).Some?) ==>
            r == Failure(NumberFormat(toks[j])))
  {
    var rest := toks[2..];
    assert forall i :: 2 <= i < |toks| ==> toks[i] == rest[i - 2];
    assert forall i :: 0 <= i < |rest| ==> rest[i] == toks[i + 2];
  }

  /**
    For a payload built as `<cmd>:<n>:<p1>:...`, whatever the first token is,
    the query reads exactly the heights of the position tokens after the count.
   */
  lemma HeightsQueryOfTokens(p: Params, t: Trig, ps: Parsers, cmd: string, toks: seq<string>, n: Int32)
    requires Tokenizer.IsToken(cmd)
    requires 1 <= |toks|
    requires forall i :: 0 <= i < |toks| ==> Tokenizer.IsToken(toks[i])
    requires ps.parseInt(toks[0]) == Some(n)
    ensures QueryHeights(p, t, ps, Tokenizer.Join([cmd] + toks)) == HeightsOf(p, t, ps, toks[1..], n)
  {
    var all := [cmd] + toks;
    Tokenizer.TokenizeJoin(all);
    assert all[2..] == toks[1..];
  }

  /** The state command is not itself a height query. */
  lemma CommandsDistinct()
    ensures !StartsWith(StateCommand, HeightsCommand)
  {
    assert StateCommand[3] != HeightsCommand[3];
  }

  /** `env_message` from the point where the framework has classified the text. */
  function Dispatch(e: Env, t: Trig, ps: Parsers, m: Message): (r: Result<Option<Reply>, Fault>)
    ensures m.NotRLViz? ==> r == Success(Some(NotRLVizNotice))
    ensures m.MaxValueQuery? ==> r == Success(Some(Bound(MaxValueFor(e.params, m.dimension))))
    ensures m.MinValueQuery? ==> r == Success(Some(Bound(MinValueFor(e.params, m.dimension))))
    ensures m.ObservationQuery? ==> r == Success(Some(ObservationReply(m.state)))
    // the state report answers the exact command only, and reads the state without changing it
    ensures (r.Success? && r.value.Some? && r.value.value.StateReport?) <==> m == Custom(StateCommand)
    ensures m == Custom(StateCommand) ==>
              r.value.value.report == CarReport(
                e.state.position, e.state.velocity,
                Height(e.params, t, e.state.position), Height(e.params, t, e.state.position + 0.05),
                e.state.episodeNumber, e.state.currentStep, e.state.totalSteps)
    // every payload starting with the heights command is a height query, and only those can fail
    ensures m.Custom? && StartsWith(m.payload, HeightsCommand) ==>
              match QueryHeights(e.params, t, ps, m.payload)
              case Success(hs) => r == Success(Some(HeightsReport(hs)))
              case Failure(f) => r == Failure(f)
    ensures r.Failure? ==> m.Custom? && StartsWith(m.payload, HeightsCommand)
    // anything else gets no reply (Java's null)
    ensures r == Success(None) <==>
              m.OtherType? || (m.Custom? && m.payload != StateCommand && !StartsWith(m.payload, HeightsCommand))
  {
    CommandsDistinct();
    match m
    case NotRLViz => Success(Some(NotRLVizNotice))
    case MaxValueQuery(d) => Success(Some(Bound(MaxValueFor(e.params, d))))
    case MinValueQuery(d) => Success(Some(Bound(MinValueFor(e.params, d))))
    case ObservationQuery(o) => Success(Some(ObservationReply(ObservationForState(o))))
    case Custom(payload) =>
      if payload == StateCommand then
        var s := e.state;
        Success(Some(StateReport(CarReport(
          s.position, s.velocity,
          Height(e.params, t, s.position), Height(e.params, t, s.position + 0.05),
          s.episodeNumber, s.currentStep, s.totalSteps))))
      else if StartsWith(payload, HeightsCommand) then
        match QueryHeights(e.params, t, ps, payload)
        case Success(hs) => Success(Some(HeightsReport(hs)))
        case Failure(f) => Failure(f)
      else Success(None)
    case OtherType => Success(None)
  }
}
