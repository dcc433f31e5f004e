/**
 * The `Parser` class of Parser.py: it walks the input line by line, keeps the current line
 * number, and drives the one `Java` generator that all parsers share. `ParseFile` is proved
 * to do what `Interpreter.Run` describes.
 */
module Parser {
  import opened Common
  import opened Text
  import opened Parameters
  import opened JavaEmitter
  import opened Generator
  import opened Interpreter

  class Parser {
    /** `generator_commands['JAVA']`: a class attribute in Python, so every parser in the
        process shares this one object; it is handed in rather than created. */
    const java: Java
    var lineNumber: nat
    /** `_generator`: None until a language command, then the shared generator. */
    var generator: Java?

    ghost predicate Valid()
      reads this
    {
      generator == null || generator == java
    }

    /** The parser and the shared generator as an interpreter state. */
    function Snapshot(): Machine
      reads this, java
    {
      Machine(lineNumber, generator != null, java.State())
    }

    constructor (java: Java)
      ensures Valid() && this.java == java
      ensures Snapshot() == Start(java.State())
    {
      this.java := java;
      lineNumber := 1;
      generator := null;
    }

    /** `parse_file` over the lines of the input file. The files `end` writes are returned in
        the order written; an error stops the loop and leaves the state as it was when raised. */
    method ParseFile(lines: seq<string>) returns (written: seq<OutputFile>, outcome: Outcome<Error>)
      requires Valid()
      modifies this, java
      ensures Valid()
      ensures Run(old(Snapshot()), lines) == Trace(Snapshot(), written, outcome)
    {
      written := [];
      var i := 0;
      assert lines[0..] == lines;
      while i < |lines|
        invariant 0 <= i <= |lines| && Valid()
        invariant Resumes(old(Snapshot()), lines, i, written, Snapshot())
      {
        ghost var before := Snapshot();
        var files, result := ParseLine(lines[i]);
        if result.Fail? {
          ResumeStops(old(Snapshot()), lines, i, written, before);
          return written, result;
        }
        ResumeNext(old(Snapshot()), lines, i, written, before);
        written := written + files;
        i := i + 1;
      }
      assert lines[i..] == [];
      outcome := Pass;
      assert written + [] == written;
    }

    /** One turn of the loop of `parse_file`: split the line into tokens, run its command, and
        move to the next line number unless it raised. */
    method ParseLine(line: string) returns (files: seq<OutputFile>, outcome: Outcome<Error>)
      requires Valid()
      modifies this, java
      ensures Valid()
      ensures Step(old(Snapshot()), line) == Trace(Snapshot(), files, outcome)
    {
      var lineValues := SplitWhitespace(line);
      if lineValues == [] {
        return [], Fail(Error(TypeError, None));
      }
      var handled := Dispatch(lineValues);
      files, outcome := handled.0, handled.1;
      if outcome.Pass? {
        lineNumber := lineNumber + 1;
      }
    }

    /** The if-chain of `parse_file` on a line with tokens. */
    method Dispatch(lineValues: seq<string>) returns (handled: (seq<OutputFile>, Outcome<Error>))
      requires Valid() && lineValues != []
      modifies this, java
      ensures Valid()
      ensures Interpreter.Dispatch(old(Snapshot()), lineValues) == Trace(Snapshot(), handled.0, handled.1)
    {
      var command := lineValues[0];
      var outcome: Outcome<Error>;
      if command in Languages {
        outcome := LanguageCommand(lineValues);
      } else if command == "C" {
        outcome := ClassCommand(lineValues);
      } else if command == "S" {
        outcome := SuperclassCommand(lineValues);
      } else if command == "I" {
        outcome := InterfaceCommand(lineValues);
      } else if command == "CV" {
        outcome := ClassVariableCommand(lineValues);
      } else if command == "CT" {
        outcome := ConstantCommand(lineValues);
      } else if command == "CR" {
        outcome := ConstructorCommand(lineValues);
      } else if command == "M" {
        outcome := MethodCommand(lineValues);
      } else if command == "E" {
        if generator == null {
          return ([], Fail(Error(AttributeError, None)));
        }
        var file := generator.End();
        return ([file], Pass);
      } else {
        return ([], Fail(Error(TypeError, Some(lineNumber))));
      }
      handled := ([], outcome);
    }

    /** `language_command`. */
    method LanguageCommand(lineValues: seq<string>) returns (outcome: Outcome<Error>)
      requires Valid()
      modifies this, java
      ensures Valid()
      ensures Interpreter.LanguageCommand(old(Snapshot()), lineValues) == Trace(Snapshot(), [], outcome)
    {
      if |lineValues| < 2 {
        outcome := Fail(Error(TypeError, Some(lineNumber)));
      } else if |lineValues| == 2 {
        generator := java;
        generator.fileName := lineValues[1];
        outcome := Pass;
      } else if |lineValues| == 3 && lineValues[2] == "GC" {
        generator := java;
        generator.fileName := lineValues[1];
        generator.generateComments := true;
        outcome := Pass;
      } else {
        outcome := Fail(Error(TypeError, Some(lineNumber)));
      }
    }

    /** The error a generator method's exception becomes: no line number. */
    static function Raised(r: Outcome<ErrorKind>): Outcome<Error> {
      if r.Pass? then Pass else Fail(Error(r.error, None))
    }

    /** `class_command`. */
    method ClassCommand(lineValues: seq<string>) returns (outcome: Outcome<Error>)
      requires Valid()
      modifies java
      ensures Valid()
      ensures Interpreter.ClassCommand(old(Snapshot()), lineValues) == Trace(Snapshot(), [], outcome)
    {
      if |lineValues| < 2 {
        outcome := Fail(Error(TypeError, Some(lineNumber)));
      } else if |lineValues| == 2 {
        if generator == null {
          return Fail(Error(AttributeError, None));
        }
        var r := generator.ClassName(lineValues[1]);
        outcome := Raised(r);
      } else {
        outcome := Fail(Error(TypeError, Some(lineNumber)));
      }
    }

    /** `superclass_command`. */
    method SuperclassCommand(lineValues: seq<string>) returns (outcome: Outcome<Error>)
      requires Valid()
      modifies java
      ensures Valid()
      ensures Interpreter.SuperclassCommand(old(Snapshot()), lineValues) == Trace(Snapshot(), [], outcome)
    {
      if |lineValues| < 2 {
        outcome := Fail(Error(TypeError, Some(lineNumber)));
      } else if |lineValues| == 2 {
        if generator == null {
          return Fail(Error(AttributeError, None));
        }
        var r := generator.Superclass(lineValues[1]);
        outcome := Raised(r);
      } else {
        outcome := Fail(Error(TypeError, Some(lineNumber)));
      }
    }

    /** `interface_command`: the argument is split on ',' into the interface names. */
    method InterfaceCommand(lineValues: seq<string>) returns (outcome: Outcome<Error>)
      requires Valid()
      modifies java
      ensures Valid()
      ensures Interpreter.InterfaceCommand(old(Snapshot()), lineValues) == Trace(Snapshot(), [], outcome)
    {
      if |lineValues| < 2 {
        outcome := Fail(Error(TypeError, Some(lineNumber)));
      } else if |lineValues| == 2 {
        if generator == null {
          return Fail(Error(AttributeError, None));
        }
        var r := generator.Interface(Split(lineValues[1], ','));
        outcome := Raised(r);
      } else {
        outcome := Fail(Error(TypeError, Some(lineNumber)));
      }
    }

    /** `class_variable_command`. */
    method ClassVariableCommand(lineValues: seq<string>) returns (outcome: Outcome<Error>)
      requires Valid()
      modifies java
      ensures Valid()
      ensures Interpreter.ClassVariableCommand(old(Snapshot()), lineValues) == Trace(Snapshot(), [], outcome)
    {
      if |lineValues| < 3 {
        outcome := Fail(Error(TypeError, Some(lineNumber)));
      } else if |lineValues| == 3 {
        if generator == null {
          return Fail(Error(AttributeError, None));
        }
        generator.Variable(true, false, false, "PUB", Parameter(lineValues[1], lineValues[2], None));
        outcome := Pass;
      } else if |lineValues| == 4 {
        var getter := false;
        var setter := false;
        if "G" == lineValues[3] {
          getter := true;
        } else if "S" == lineValues[3] {
          setter := true;
        } else if "GS" == lineValues[3] {
          getter := true;
          setter := true;
        } else if "SG" == lineValues[3] {
          getter := true;
          setter := true;
        } else {
          return Fail(Error(TypeError, Some(lineNumber)));
        }
        assert Accessors(lineValues[3]) == Some((getter, setter));
        if generator == null {
          return Fail(Error(AttributeError, None));
        }
        generator.Variable(true, getter, setter, "PUB", Parameter(lineValues[1], lineValues[2], None));
        outcome := Pass;
      } else {
        outcome := Fail(Error(TypeError, Some(lineNumber)));
      }
    }

    /** `constant_command`. */
    method ConstantCommand(lineValues: seq<string>) returns (outcome: Outcome<Error>)
      requires Valid()
      modifies java
      ensures Valid()
      ensures Interpreter.ConstantCommand(old(Snapshot()), lineValues) == Trace(Snapshot(), [], outcome)
    {
      if |lineValues| < 4 {
        outcome := Fail(Error(TypeError, Some(lineNumber)));
      } else if |lineValues| == 4 {
        if generator == null {
          return Fail(Error(AttributeError, None));
        }
        generator.Constant("PUB", Parameter(lineValues[1], lineValues[2], Some(lineValues[3])));
        outcome := Pass;
      } else {
        outcome := Fail(Error(TypeError, Some(lineNumber)));
      }
    }

    /** `constructor_command`. */
    method ConstructorCommand(lineValues: seq<string>) returns (outcome: Outcome<Error>)
      requires Valid() && |lineValues| >= 1
      modifies java
      ensures Valid()
      ensures Interpreter.ConstructorCommand(old(Snapshot()), lineValues) == Trace(Snapshot(), [], outcome)
    {
      if |lineValues| == 1 {
        if generator == null {
          return Fail(Error(AttributeError, None));
        }
        generator.Constructor([]);
        outcome := Pass;
      } else if |lineValues| == 2 {
        var parameterList := GenerateParameterList(lineValues[1]);
        if parameterList.Err? {
          return Fail(Error(parameterList.error, None));
        }
        if generator == null {
          return Fail(Error(AttributeError, None));
        }
        generator.Constructor(parameterList.value);
        outcome := Pass;
      } else {
        outcome := Fail(Error(TypeError, Some(lineNumber)));
      }
    }

    /** `method_command`. */
    method MethodCommand(lineValues: seq<string>) returns (outcome: Outcome<Error>)
      requires Valid()
      modifies java
      ensures Valid()
      ensures Interpreter.MethodCommand(old(Snapshot()), lineValues) == Trace(Snapshot(), [], outcome)
    {
      if |lineValues| < 4 {
        outcome := Fail(Error(TypeError, Some(lineNumber)));
      } else if |lineValues| == 4 {
        if generator == null {
          return Fail(Error(AttributeError, None));
        }
        generator.Method(lineValues[1], lineValues[2], lineValues[3], []);
        outcome := Pass;
      } else if |lineValues| == 5 {
        var parameterList := GenerateParameterList(lineValues[4]);
        if parameterList.Err? {
          return Fail(Error(parameterList.error, None));
        }
        if generator == null {
          return Fail(Error(AttributeError, None));
        }
        generator.Method(lineValues[1], lineValues[2], lineValues[3], parameterList.value);
        outcome := Pass;
      } else {
        outcome := Fail(Error(TypeError, Some(lineNumber)));
      }
    }

    /** `generate_parameter_list`: the loop that appends one Parameter per comma-separated
        element; an element without ':' raises IndexError. */
    method GenerateParameterList(inputParameters: string) returns (r: Result<seq<Parameter>, ErrorKind>)
      ensures r == ParseParameters(inputParameters)
    {
      var parameters := Split(inputParameters, ',');
      var parameterList: seq<Parameter> := [];
      var i := 0;
      while i < |parameters|
        invariant 0 <= i <= |parameters| && |parameterList| == i
        invariant forall j :: 0 <= j < i ==> ParsePiece(parameters[j]) == Ok(parameterList[j])
      {
        var parameter := Split(parameters[i], ':');
        if |parameter| < 2 {
          assert ParsePieces(parameters).Err?;
          return Err(IndexError);
        }
        parameterList := parameterList + [Parameter(parameter[0], parameter[1], None)];
        i := i + 1;
      }
      ParsePiecesUnique(parameters, parameterList);
      r := Ok(parameterList);
    }
  }
}
