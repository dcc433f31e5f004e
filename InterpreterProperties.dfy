/**
 * What the command interpreter promises over whole lines and whole inputs: which lines raise
 * a TypeError citing their line number, how the line number advances, where a run stops, and
 * how parameter lists are read back.
 */
module InterpreterProperties {
  import opened Common
  import opened Text
  import opened Parameters
  import opened Interpreter

  /** The token counts and options each command accepts, one table for all handlers
      (Parser.py:73-236): a line of a known command outside these raises a TypeError that
      cites its line number. */
  predicate WellFormed(toks: seq<string>)
    requires toks != []
  {
    var n := |toks|;
    var command := toks[0];
    if command == "JAVA" then n == 2 || (n == 3 && toks[2] == "GC")
    else if command == "C" || command == "S" || command == "I" then n == 2
    else if command == "CV" then n == 3 || (n == 4 && toks[3] in {"G", "S", "GS", "SG"})
    else if command == "CT" then n == 4
    else if command == "CR" then n <= 2
    else if command == "M" then n == 4 || n == 5
    else command == "E"
  }

  /** Whether a handler's result is an error that cites a line number. */
  predicate CitesLine(t: Trace) {
    t.outcome.Fail? && t.outcome.error.line.Some?
  }

  /** The command a line's first token selects raises an error citing the line exactly when
      the line is malformed, and that error is the TypeError of `TypeErrorAt`. */
  lemma DispatchCitesLineIffMalformed(m: Machine, toks: seq<string>)
    requires toks != []
    ensures CitesLine(Dispatch(m, toks)) <==> !WellFormed(toks)
    ensures CitesLine(Dispatch(m, toks)) ==> Dispatch(m, toks) == TypeErrorAt(m)
  {
    var command, t := toks[0], Dispatch(m, toks);
    if command == "JAVA" {
      assert t == LanguageCommand(m, toks);
    } else if command == "C" {
      assert t == ClassCommand(m, toks);
    } else if command == "S" {
      assert t == SuperclassCommand(m, toks);
    } else if command == "I" {
      assert t == InterfaceCommand(m, toks);
    } else if command == "CV" {
      assert t == ClassVariableCommand(m, toks);
      if |toks| == 4 {
        assert Accessors(toks[3]).Some? <==> toks[3] in {"G", "S", "GS", "SG"};
      }
    } else if command == "CT" {
      assert t == ConstantCommand(m, toks);
    } else if command == "CR" {
      assert t == ConstructorCommand(m, toks);
    } else if command == "M" {
      assert t == MethodCommand(m, toks);
    } else if command == "E" {
      assert t == EndCommand(m);
    }
  }

  /** A line raises an error citing its line number exactly when it has tokens that are not a
      well-formed command; that error is always a TypeError. Every other error (a blank line,
      a bad class name, no class yet, a bad parameter list, no generator) carries no line. */
  lemma LineNumberedErrorIffMalformed(m: Machine, line: string)
    ensures var toks := SplitWhitespace(line);
      CitesLine(Step(m, line)) <==> toks != [] && !WellFormed(toks)
    ensures CitesLine(Step(m, line)) ==> Step(m, line).outcome.error == Error(TypeError, Some(m.line))
  {
    var toks := SplitWhitespace(line);
    if toks != [] {
      DispatchCitesLineIffMalformed(m, toks);
    }
  }

  /** Before a language command has bound the generator, only a language command can pass. */
  lemma NothingBeforeLanguage(m: Machine, line: string)
    requires !m.bound
    ensures var toks := SplitWhitespace(line);
      Step(m, line).outcome.Pass? ==> toks != [] && toks[0] in Languages
  {
  }

  /** A run that raises stops at line `k`: every earlier line passed, line `k` raised, and the
      state is the one that line left. An error citing a line cites the line's own number, so
      from a fresh parser it is k + 1. */
  lemma {:induction false} RunStopsAtFailure(m: Machine, lines: seq<string>) returns (k: nat)
    requires Run(m, lines).outcome.Fail?
    ensures k < |lines|
    ensures Run(m, lines[..k]).outcome.Pass?
    ensures var failed := Step(Run(m, lines[..k]).machine, lines[k]);
      failed.machine == Run(m, lines).machine && failed.outcome == Run(m, lines).outcome
    ensures Run(m, lines).outcome.error.line.Some? ==> Run(m, lines).outcome.error.line.value == m.line + k
    decreases |lines|
  {
    var s := Step(m, lines[0]);
    if s.outcome.Fail? {
      k := 0;
      assert lines[..0] == [];
    } else {
      var k' := RunStopsAtFailure(s.machine, lines[1..]);
      k := k' + 1;
      var before := lines[..k];
      assert before[0] == lines[0] && before[1..] == lines[1..][..k'];
      assert lines[1..][k'] == lines[k];
      var rest := Run(s.machine, lines[1..][..k']);
      assert Run(m, before).machine == rest.machine && Run(m, before).outcome == rest.outcome;
    }
  }

  /** The text a parameter list is written as in the input: `type:name` pieces joined by ','. */
  function ParameterSource(ps: seq<Parameter>): (r: seq<string>)
    ensures |r| == |ps| && forall i :: 0 <= i < |ps| ==> r[i] == ps[i].dataType + ":" + ps[i].name
  {
    seq(|ps|, i requires 0 <= i < |ps| => ps[i].dataType + ":" + ps[i].name)
  }

  /** Reading back a written parameter list gives the parameters, when no type or name holds
      a ',' or a ':'. */
  lemma ParseParametersRoundTrip(ps: seq<Parameter>)
    requires ps != []
    requires forall i :: 0 <= i < |ps| ==> ps[i].value == None
    requires forall i :: 0 <= i < |ps| ==> ',' !in ps[i].dataType && ':' !in ps[i].dataType
    requires forall i :: 0 <= i < |ps| ==> ',' !in ps[i].name && ':' !in ps[i].name
    ensures ParseParameters(Join(ParameterSource(ps), ",")) == Ok(ps)
  {
    var pieces := ParameterSource(ps);
    forall i | 0 <= i < |pieces|
      ensures ',' !in pieces[i] && ParsePiece(pieces[i]) == Ok(ps[i])
    {
      SplitPair(ps[i].dataType, ps[i].name, ':');
    }
    JoinSplit(pieces, ',');
    ParsePiecesUnique(pieces, ps);
  }

  /** Any further ':' pieces of an element are ignored. */
  lemma ExtraColonPiecesIgnored(t: string, n: string, rest: string)
    requires ':' !in t && ':' !in n
    ensures ParsePiece(t + ":" + n + ":" + rest) == Ok(Parameter(t, n, None))
  {
    SplitAtSeparator(t, n + ":" + rest, ':');
    SplitAtSeparator(n, rest, ':');
    assert t + ":" + n + ":" + rest == t + [':'] + (n + ":" + rest);
  }
}
