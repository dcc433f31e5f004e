/**
 * What the command interpreter of Parser.py does, as values: one line is split on
 * whitespace, its first token selects a handler, the handler checks the token count and
 * calls the emitter; after a line that does not raise, the line number goes up by one.
 * The imperative class in module Parser is proved to follow `Run`.
 */
module Interpreter {
  import opened Common
  import opened Text
  import opened Parameters
  import opened JavaEmitter

  /** A raised exception, with the line number when its message carries one. */
  datatype Error = Error(kind: ErrorKind, line: Option<nat>)

  /** The interpreter's state: the current line number, whether a language command has
      bound the generator (`_generator is not None`), and the state of the one shared
      `Java` instance. */
  datatype Machine = Machine(line: nat, bound: bool, java: JavaState)

  /** The state after some lines, the files `end` wrote meanwhile, and how it stopped. */
  datatype Trace = Trace(machine: Machine, written: seq<OutputFile>, outcome: Outcome<Error>)

  /** The keys of `generator_commands`. */
  const Languages: set<string> := {"JAVA"}

  /** The first tokens that select a handler. */
  const Commands: set<string> := {"JAVA", "C", "S", "I", "CV", "CT", "CR", "M", "E"}

  /** `Java('', False)`, the instance created once with the Parser class. */
  const FreshJava: JavaState := JavaState("", false, map[])

  /** A new Parser: line 1, no generator yet, over the shared instance in state `java`. */
  function Start(java: JavaState): Machine {
    Machine(1, false, java)
  }

  function Done(m: Machine): Trace {
    Trace(m, [], Pass)
  }

  /** A TypeError whose message cites the current line. */
  function TypeErrorAt(m: Machine): Trace {
    Trace(m, [], Fail(Error(TypeError, Some(m.line))))
  }

  /** Calling a generator method on `None`. */
  function NoGenerator(m: Machine): Trace {
    Trace(m, [], Fail(Error(AttributeError, None)))
  }

  /** A declaration that may raise inside the emitter: its error carries no line number. */
  function Emit(m: Machine, e: Emitted): Trace {
    Trace(m.(java := e.state), [], if e.outcome.Pass? then Pass else Fail(Error(e.outcome.error, None)))
  }

  /** A declaration that cannot raise once a generator is bound. */
  function Declare(m: Machine, j: JavaState): Trace {
    if !m.bound then NoGenerator(m) else Done(m.(java := j))
  }

  /** `generate_parameter_list` on one element: the text before the first ':' and the text
      between the first and second ':'; IndexError when there is no ':'. */
  function ParsePiece(piece: string): (r: Result<Parameter, ErrorKind>)
    ensures r.Ok? <==> ':' in piece
    ensures r.Err? ==> r.error == IndexError
  {
    var parts := Split(piece, ':');
    if |parts| < 2 then Err(IndexError) else Ok(Parameter(parts[0], parts[1], None))
  }

  function ParsePieces(pieces: seq<string>): (r: Result<seq<Parameter>, ErrorKind>)
    ensures r.Ok? <==> forall i :: 0 <= i < |pieces| ==> ':' in pieces[i]
    ensures r.Err? ==> r.error == IndexError
    ensures r.Ok? ==> |r.value| == |pieces|
    ensures r.Ok? ==> forall i :: 0 <= i < |pieces| ==> ParsePiece(pieces[i]) == Ok(r.value[i])
  {
    if pieces == [] then Ok([])
    else match ParsePiece(pieces[0])
      case Err(k) => Err(k)
      case Ok(p) =>
        match ParsePieces(pieces[1..])
        case Err(k) => Err(k)
        case Ok(ps) =>
          assert forall i :: 1 <= i < |pieces| ==> pieces[i] == pieces[1..][i - 1];
          Ok([p] + ps)
  }

  /** The element-wise description of ParsePieces determines its result. */
  lemma ParsePiecesUnique(pieces: seq<string>, ps: seq<Parameter>)
    requires |ps| == |pieces|
    requires forall j :: 0 <= j < |pieces| ==> ParsePiece(pieces[j]) == Ok(ps[j])
    ensures ParsePieces(pieces) == Ok(ps)
  {
    var r := ParsePieces(pieces);
    assert forall j :: 0 <= j < |pieces| ==> ':' in pieces[j];
    assert forall j :: 0 <= j < |pieces| ==> r.value[j] == ps[j];
    assert r.value == ps;
  }

  /** `generate_parameter_list`: one Parameter per comma-separated element, in order. */
  function ParseParameters(s: string): (r: Result<seq<Parameter>, ErrorKind>)
    ensures r.Ok? <==> forall piece :: piece in Split(s, ',') ==> ':' in piece
    ensures r.Ok? ==> |r.value| == |Split(s, ',')|
    ensures r.Ok? ==> forall i :: 0 <= i < |r.value| ==>
      var parts := Split(Split(s, ',')[i], ':'); r.value[i] == Parameter(parts[0], parts[1], None)
  {
    var pieces := Split(s, ',');
    var r := ParsePieces(pieces);
    assert (forall piece :: piece in pieces ==> ':' in piece) <==> (forall i :: 0 <= i < |pieces| ==> ':' in pieces[i]);
    r
  }

  /** The accessor letters of `CV`: (getter, setter), or None for anything else. */
  function Accessors(letters: string): (r: Option<(bool, bool)>)
    ensures r.Some? <==> letters == "G" || letters == "S" || letters == "GS" || letters == "SG"
    ensures r.Some? ==> (r.value.0 <==> letters != "S") && (r.value.1 <==> letters != "G")
  {
    if letters == "G" then Some((true, false))
    else if letters == "S" then Some((false, true))
    else if letters == "GS" then Some((true, true))
    else if letters == "SG" then Some((true, true))
    else None
  }

  /** `language_command`: binds the shared generator and sets its file name; "GC" turns
      comments on (and nothing turns them off). The sections it holds are kept. */
  function LanguageCommand(m: Machine, toks: seq<string>): (t: Trace)
    ensures t.written == [] && t.machine.line == m.line
    ensures t.outcome.Pass? <==> |toks| == 2 || (|toks| == 3 && toks[2] == "GC")
    ensures t.outcome.Fail? ==> t == TypeErrorAt(m)
    ensures t.outcome.Pass? ==>
      && t.machine.bound
      && t.machine.java.fileName == toks[1]
      && t.machine.java.generateComments == (m.java.generateComments || |toks| == 3)
      && t.machine.java.output == m.java.output
  {
    if |toks| < 2 then TypeErrorAt(m)
    else if |toks| == 2 then Done(m.(bound := true, java := m.java.(fileName := toks[1])))
    else if |toks| == 3 && toks[2] == "GC" then
      Done(m.(bound := true, java := m.java.(fileName := toks[1], generateComments := true)))
    else TypeErrorAt(m)
  }

  /** `class_command`. */
  function ClassCommand(m: Machine, toks: seq<string>): (t: Trace)
    ensures t.written == [] && t.machine.line == m.line && t.machine.bound == m.bound
    ensures |toks| != 2 ==> t == TypeErrorAt(m)
    ensures |toks| == 2 && !m.bound ==> t == NoGenerator(m)
    ensures |toks| == 2 && m.bound ==> t == Emit(m, ClassName(m.java, toks[1]))
  {
    if |toks| < 2 then TypeErrorAt(m)
    else if |toks| == 2 then (if !m.bound then NoGenerator(m) else Emit(m, ClassName(m.java, toks[1])))
    else TypeErrorAt(m)
  }

  /** `superclass_command`. */
  function SuperclassCommand(m: Machine, toks: seq<string>): (t: Trace)
    ensures t.written == [] && t.machine.line == m.line && t.machine.bound == m.bound
    ensures |toks| != 2 ==> t == TypeErrorAt(m)
    ensures |toks| == 2 && !m.bound ==> t == NoGenerator(m)
    ensures |toks| == 2 && m.bound ==> t == Emit(m, Superclass(m.java, toks[1]))
  {
    if |toks| < 2 then TypeErrorAt(m)
    else if |toks| == 2 then (if !m.bound then NoGenerator(m) else Emit(m, Superclass(m.java, toks[1])))
    else TypeErrorAt(m)
  }

  /** `interface_command`: the argument is split on ','. */
  function InterfaceCommand(m: Machine, toks: seq<string>): (t: Trace)
    ensures t.written == [] && t.machine.line == m.line && t.machine.bound == m.bound
    ensures |toks| != 2 ==> t == TypeErrorAt(m)
    ensures |toks| == 2 && !m.bound ==> t == NoGenerator(m)
    ensures |toks| == 2 && m.bound ==> t == Emit(m, Interface(m.java, Split(toks[1], ',')))
  {
    if |toks| < 2 then TypeErrorAt(m)
    else if |toks| == 2 then (if !m.bound then NoGenerator(m) else Emit(m, Interface(m.java, Split(toks[1], ','))))
    else TypeErrorAt(m)
  }

  /** `class_variable_command`: a mutable public field; with a fourth token, accessors.
      The accessor letters are checked before the generator is touched. */
  function ClassVariableCommand(m: Machine, toks: seq<string>): (t: Trace)
    ensures t.written == [] && t.machine.line == m.line && t.machine.bound == m.bound
    ensures |toks| < 3 || |toks| > 4 ==> t == TypeErrorAt(m)
    ensures |toks| == 4 && Accessors(toks[3]).None? ==> t == TypeErrorAt(m)
    ensures |toks| == 3 ==> t == Declare(m, Variable(m.java, true, false, false, "PUB", Parameter(toks[1], toks[2], None)))
    ensures |toks| == 4 && Accessors(toks[3]).Some? ==>
      t == Declare(m, Variable(m.java, true, Accessors(toks[3]).value.0, Accessors(toks[3]).value.1, "PUB", Parameter(toks[1], toks[2], None)))
  {
    if |toks| < 3 then TypeErrorAt(m)
    else if |toks| == 3 then Declare(m, Variable(m.java, true, false, false, "PUB", Parameter(toks[1], toks[2], None)))
    else if |toks| == 4 then
      match Accessors(toks[3])
      case None => TypeErrorAt(m)
      case Some((getter, setter)) => Declare(m, Variable(m.java, true, getter, setter, "PUB", Parameter(toks[1], toks[2], None)))
    else TypeErrorAt(m)
  }

  /** `constant_command`: type, name and value; `constant` is an immutable field. */
  function ConstantCommand(m: Machine, toks: seq<string>): (t: Trace)
    ensures t.written == [] && t.machine.line == m.line && t.machine.bound == m.bound
    ensures |toks| != 4 ==> t == TypeErrorAt(m)
    ensures |toks| == 4 ==> t == Declare(m, Variable(m.java, false, false, false, "PUB", Parameter(toks[1], toks[2], Some(toks[3]))))
  {
    if |toks| < 4 then TypeErrorAt(m)
    else if |toks| == 4 then Declare(m, Variable(m.java, false, false, false, "PUB", Parameter(toks[1], toks[2], Some(toks[3]))))
    else TypeErrorAt(m)
  }

  /** `constructor_command`: no parameters, or one parameter list; never too few tokens.
      The list is parsed before the generator is touched. */
  function ConstructorCommand(m: Machine, toks: seq<string>): (t: Trace)
    requires |toks| >= 1
    ensures t.written == [] && t.machine.line == m.line && t.machine.bound == m.bound
    ensures |toks| > 2 ==> t == TypeErrorAt(m)
    ensures |toks| == 1 ==> t == Declare(m, Constructor(m.java, []))
    ensures |toks| == 2 && ParseParameters(toks[1]).Err? ==> t == Trace(m, [], Fail(Error(IndexError, None)))
    ensures |toks| == 2 && ParseParameters(toks[1]).Ok? ==> t == Declare(m, Constructor(m.java, ParseParameters(toks[1]).value))
  {
    if |toks| == 1 then Declare(m, Constructor(m.java, []))
    else if |toks| == 2 then
      match ParseParameters(toks[1])
      case Err(k) => Trace(m, [], Fail(Error(k, None)))
      case Ok(ps) => Declare(m, Constructor(m.java, ps))
    else TypeErrorAt(m)
  }

  /** `method_command`: access level, return type, name and an optional parameter list. */
  function MethodCommand(m: Machine, toks: seq<string>): (t: Trace)
    ensures t.written == [] && t.machine.line == m.line && t.machine.bound == m.bound
    ensures |toks| < 4 || |toks| > 5 ==> t == TypeErrorAt(m)
    ensures |toks| == 4 ==> t == Declare(m, Method(m.java, toks[1], toks[2], toks[3], []))
    ensures |toks| == 5 && ParseParameters(toks[4]).Err? ==> t == Trace(m, [], Fail(Error(IndexError, None)))
    ensures |toks| == 5 && ParseParameters(toks[4]).Ok? ==>
      t == Declare(m, Method(m.java, toks[1], toks[2], toks[3], ParseParameters(toks[4]).value))
  {
    if |toks| < 4 then TypeErrorAt(m)
    else if |toks| == 4 then Declare(m, Method(m.java, toks[1], toks[2], toks[3], []))
    else if |toks| == 5 then
      match ParseParameters(toks[4])
      case Err(k) => Trace(m, [], Fail(Error(k, None)))
      case Ok(ps) => Declare(m, Method(m.java, toks[1], toks[2], toks[3], ps))
    else TypeErrorAt(m)
  }

  /** `E`: `end()` on the generator, whatever else is on the line. */
  function EndCommand(m: Machine): (t: Trace)
    ensures t.machine.line == m.line && t.machine.bound == m.bound
    ensures !m.bound ==> t == NoGenerator(m)
    ensures m.bound ==> t.outcome.Pass? && t.written == [End(m.java).file] && t.machine.java == End(m.java).state
  {
    if !m.bound then NoGenerator(m)
    else
      var f := End(m.java);
      Trace(m.(java := f.state), [f.file], Pass)
  }

  /** The handler the first token selects; an unknown command is a TypeError citing the line. */
  function Dispatch(m: Machine, toks: seq<string>): (t: Trace)
    requires toks != []
    ensures t.machine.line == m.line
    ensures t.written != [] ==> toks[0] == "E" && |t.written| == 1 && t.outcome.Pass?
    ensures toks[0] !in Commands ==> t == TypeErrorAt(m)
  {
    var command := toks[0];
    if command in Languages then LanguageCommand(m, toks)
    else if command == "C" then ClassCommand(m, toks)
    else if command == "S" then SuperclassCommand(m, toks)
    else if command == "I" then InterfaceCommand(m, toks)
    else if command == "CV" then ClassVariableCommand(m, toks)
    else if command == "CT" then ConstantCommand(m, toks)
    else if command == "CR" then ConstructorCommand(m, toks)
    else if command == "M" then MethodCommand(m, toks)
    else if command == "E" then EndCommand(m)
    else TypeErrorAt(m)
  }

  /** One line of `parse_file`: a line without tokens raises a TypeError without a line
      number; after a line that does not raise, the line number rises by exactly one; a line
      that raises writes no file. */
  function Step(m: Machine, line: string): (t: Trace)
    ensures t.outcome.Pass? ==> t.machine.line == m.line + 1
    ensures t.outcome.Fail? ==> t.machine.line == m.line
    ensures t.outcome.Fail? && t.outcome.error.line.Some? ==> t.outcome.error.line.value == m.line
    ensures SplitWhitespace(line) == [] ==> t == Trace(m, [], Fail(Error(TypeError, None)))
    ensures SplitWhitespace(line) != [] && SplitWhitespace(line)[0] !in Commands ==> t == TypeErrorAt(m)
    ensures |t.written| <= 1 && (t.outcome.Fail? ==> t.written == [])
  {
    var toks := SplitWhitespace(line);
    if toks == [] then Trace(m, [], Fail(Error(TypeError, None)))
    else
      var t := Dispatch(m, toks);
      if t.outcome.Pass? then t.(machine := t.machine.(line := t.machine.line + 1)) else t
  }

  /** `parse_file` over the lines of the input: stops at the first line that raises. */
  function Run(m: Machine, lines: seq<string>): (t: Trace)
    ensures t.outcome.Pass? ==> t.machine.line == m.line + |lines|
    ensures t.outcome.Fail? ==> m.line <= t.machine.line < m.line + |lines|
    ensures |t.written| <= |lines|
    decreases |lines|
  {
    if lines == [] then Done(m)
    else
      var s := Step(m, lines[0]);
      if s.outcome.Fail? then s
      else
        var rest := Run(s.machine, lines[1..]);
        Trace(rest.machine, s.written + rest.written, rest.outcome)
  }

  /** Run on a line that passes: that line's step, then the rest. */
  lemma RunFirst(m: Machine, lines: seq<string>)
    requires lines != [] && Step(m, lines[0]).outcome.Pass?
    ensures var s := Step(m, lines[0]); var rest := Run(s.machine, lines[1..]);
      Run(m, lines) == Trace(rest.machine, s.written + rest.written, rest.outcome)
  {
  }

  /** Run of `lines` from `start`, once `written` is out and `m` is the state before line `i`. */
  ghost predicate Resumes(start: Machine, lines: seq<string>, i: nat, written: seq<OutputFile>, m: Machine)
    requires i <= |lines|
  {
    var rest := Run(m, lines[i..]);
    Run(start, lines) == Trace(rest.machine, written + rest.written, rest.outcome)
  }

  /** One more line of a run: when it raises, the run ends there. */
  lemma ResumeStops(start: Machine, lines: seq<string>, i: nat, written: seq<OutputFile>, m: Machine)
    requires i < |lines| && Resumes(start, lines, i, written, m) && Step(m, lines[i]).outcome.Fail?
    ensures Run(start, lines) == Trace(Step(m, lines[i]).machine, written, Step(m, lines[i]).outcome)
  {
    var rest := lines[i..];
    assert rest[0] == lines[i];
    RunStops(m, rest);
  }

  /** One more line of a run: when it passes, the run resumes after it. */
  lemma ResumeNext(start: Machine, lines: seq<string>, i: nat, written: seq<OutputFile>, m: Machine)
    requires i < |lines| && Resumes(start, lines, i, written, m) && Step(m, lines[i]).outcome.Pass?
    ensures Resumes(start, lines, i + 1, written + Step(m, lines[i]).written, Step(m, lines[i]).machine)
  {
    var rest := lines[i..];
    assert rest[0] == lines[i] && rest[1..] == lines[i + 1..];
    RunFirst(m, rest);
    var t := Step(m, lines[i]);
    var after := Run(t.machine, rest[1..]);
    assert written + (t.written + after.written) == (written + t.written) + after.written;
  }

  /** Run on a line that raises: that line's step, and nothing after it. */
  lemma RunStops(m: Machine, lines: seq<string>)
    requires lines != [] && Step(m, lines[0]).outcome.Fail?
    ensures Run(m, lines) == Step(m, lines[0])
  {
  }
}
