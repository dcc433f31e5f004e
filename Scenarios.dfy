/**
 * Whole inputs run through the interpreter from a freshly created parser over the shared,
 * still empty `Java('', False)` instance, and the Java files they produce.
 */
module Scenarios {
  import opened Common
  import opened Text
  import opened Parameters
  import opened JavaEmitter
  import opened Interpreter
  import opened JavaProperties

  /** The starting point of every run below. */
  const Fresh: Machine := Start(FreshJava)

  /** One more line, passed, with the generator in state `j`. */
  function Next(m: Machine, j: JavaState): Machine {
    Machine(m.line + 1, m.bound, j)
  }

  /** The tokens of an input line written as its words separated by single spaces. */
  lemma Tokens(line: string, words: seq<string>)
    requires forall i :: 0 <= i < |words| ==> IsWord(words[i])
    requires line == Join(words, " ")
    ensures SplitWhitespace(line) == words
  {
    SplitWhitespaceJoin(words);
  }

  /** The tokens of each input line used below, each kept apart from the runs that use it. */
  lemma TokensLanguageFoo()
    ensures SplitWhitespace("JAVA Foo") == ["JAVA", "Foo"]
  {
    Tokens("JAVA Foo", ["JAVA", "Foo"]);
  }

  lemma TokensClassFoo()
    ensures SplitWhitespace("C Foo") == ["C", "Foo"]
  {
    Tokens("C Foo", ["C", "Foo"]);
  }

  lemma TokensFieldCount()
    ensures SplitWhitespace("CV int count") == ["CV", "int", "count"]
  {
    Tokens("CV int count", ["CV", "int", "count"]);
  }

  lemma TokensMethodRun()
    ensures SplitWhitespace("M PUB void run") == ["M", "PUB", "void", "run"]
  {
    Tokens("M PUB void run", ["M", "PUB", "void", "run"]);
  }

  lemma TokensEnd()
    ensures SplitWhitespace("E") == ["E"]
  {
    Tokens("E", ["E"]);
  }

  lemma TokensLanguageFooComments()
    ensures SplitWhitespace("JAVA Foo GC") == ["JAVA", "Foo", "GC"]
  {
    Tokens("JAVA Foo GC", ["JAVA", "Foo", "GC"]);
  }

  lemma TokensSuperclassBase()
    ensures SplitWhitespace("S Base") == ["S", "Base"]
  {
    Tokens("S Base", ["S", "Base"]);
  }

  lemma TokensInterfacesRunnableCloseable()
    ensures SplitWhitespace("I Runnable,Closeable") == ["I", "Runnable,Closeable"]
  {
    Tokens("I Runnable,Closeable", ["I", "Runnable,Closeable"]);
  }

  lemma TokensFieldWithoutName()
    ensures SplitWhitespace("CV int") == ["CV", "int"]
  {
    Tokens("CV int", ["CV", "int"]);
  }

  lemma TokensLanguageA()
    ensures SplitWhitespace("JAVA A") == ["JAVA", "A"]
  {
    Tokens("JAVA A", ["JAVA", "A"]);
  }

  lemma TokensClassA()
    ensures SplitWhitespace("C A") == ["C", "A"]
  {
    Tokens("C A", ["C", "A"]);
  }

  lemma TokensLanguageB()
    ensures SplitWhitespace("JAVA B") == ["JAVA", "B"]
  {
    Tokens("JAVA B", ["JAVA", "B"]);
  }

  lemma LanguageLine(m: Machine, line: string, name: string)
    requires SplitWhitespace(line) == ["JAVA", name]
    ensures Step(m, line) == Trace(Machine(m.line + 1, true, m.java.(fileName := name)), [], Pass)
  {
    assert Dispatch(m, ["JAVA", name]) == LanguageCommand(m, ["JAVA", name]);
  }

  lemma CommentedLanguageLine(m: Machine, line: string, name: string)
    requires SplitWhitespace(line) == ["JAVA", name, "GC"]
    ensures Step(m, line) == Trace(Machine(m.line + 1, true, m.java.(fileName := name, generateComments := true)), [], Pass)
  {
    assert Dispatch(m, ["JAVA", name, "GC"]) == LanguageCommand(m, ["JAVA", name, "GC"]);
  }

  lemma ClassLine(m: Machine, line: string, name: string)
    requires m.bound && name == m.java.fileName
    requires SplitWhitespace(line) == ["C", name]
    ensures Step(m, line) == Trace(Next(m, ClassName(m.java, name).state), [], Pass)
  {
    assert Dispatch(m, ["C", name]) == ClassCommand(m, ["C", name]);
  }

  lemma SuperclassLine(m: Machine, line: string, name: string)
    requires m.bound && ClassDecl in m.java.output
    requires SplitWhitespace(line) == ["S", name]
    ensures Step(m, line) == Trace(Next(m, Superclass(m.java, name).state), [], Pass)
  {
    assert Dispatch(m, ["S", name]) == SuperclassCommand(m, ["S", name]);
  }

  lemma InterfaceLine(m: Machine, line: string, names: string, pieces: seq<string>)
    requires m.bound && ClassDecl in m.java.output
    requires SplitWhitespace(line) == ["I", names] && Split(names, ',') == pieces
    ensures Step(m, line) == Trace(Next(m, Interface(m.java, pieces).state), [], Pass)
  {
    assert Dispatch(m, ["I", names]) == InterfaceCommand(m, ["I", names]);
  }

  lemma FieldLine(m: Machine, line: string, t: string, name: string)
    requires m.bound
    requires SplitWhitespace(line) == ["CV", t, name]
    ensures Step(m, line) == Trace(Next(m, Variable(m.java, true, false, false, "PUB", Parameter(t, name, None))), [], Pass)
  {
    assert Dispatch(m, ["CV", t, name]) == ClassVariableCommand(m, ["CV", t, name]);
  }

  lemma MethodLine(m: Machine, line: string, level: string, t: string, name: string)
    requires m.bound
    requires SplitWhitespace(line) == ["M", level, t, name]
    ensures Step(m, line) == Trace(Next(m, Method(m.java, level, t, name, [])), [], Pass)
  {
    assert Dispatch(m, ["M", level, t, name]) == MethodCommand(m, ["M", level, t, name]);
  }

  lemma EndLine(m: Machine, line: string)
    requires m.bound
    requires SplitWhitespace(line) == ["E"]
    ensures Step(m, line) == Trace(Next(m, End(m.java).state), [End(m.java).file], Pass)
  {
    assert Dispatch(m, ["E"]) == EndCommand(m);
  }

  /** A run whose first line passes without writing continues from the machine it leaves. */
  lemma RunSilent(m: Machine, line: string, rest: seq<string>, next: Machine)
    requires Step(m, line) == Trace(next, [], Pass)
    ensures Run(m, [line] + rest) == Run(next, rest)
  {
    assert ([line] + rest)[0] == line && ([line] + rest)[1..] == rest;
    RunFirst(m, [line] + rest);
  }

  /** The run of the lines of each kind used below, with the rest of the input after it. */
  lemma RunLanguageLine(m: Machine, line: string, name: string, rest: seq<string>)
    requires SplitWhitespace(line) == ["JAVA", name]
    ensures Run(m, [line] + rest) == Run(Machine(m.line + 1, true, m.java.(fileName := name)), rest)
  {
    LanguageLine(m, line, name);
    RunSilent(m, line, rest, Machine(m.line + 1, true, m.java.(fileName := name)));
  }

  lemma RunCommentedLanguageLine(m: Machine, line: string, name: string, rest: seq<string>)
    requires SplitWhitespace(line) == ["JAVA", name, "GC"]
    ensures Run(m, [line] + rest) == Run(Machine(m.line + 1, true, m.java.(fileName := name, generateComments := true)), rest)
  {
    CommentedLanguageLine(m, line, name);
    RunSilent(m, line, rest, Machine(m.line + 1, true, m.java.(fileName := name, generateComments := true)));
  }

  lemma RunClassLine(m: Machine, line: string, name: string, rest: seq<string>)
    requires m.bound && name == m.java.fileName
    requires SplitWhitespace(line) == ["C", name]
    ensures Run(m, [line] + rest) == Run(Next(m, ClassName(m.java, name).state), rest)
  {
    ClassLine(m, line, name);
    RunSilent(m, line, rest, Next(m, ClassName(m.java, name).state));
  }

  lemma RunSuperclassLine(m: Machine, line: string, name: string, rest: seq<string>)
    requires m.bound && ClassDecl in m.java.output
    requires SplitWhitespace(line) == ["S", name]
    ensures Run(m, [line] + rest) == Run(Next(m, Superclass(m.java, name).state), rest)
  {
    SuperclassLine(m, line, name);
    RunSilent(m, line, rest, Next(m, Superclass(m.java, name).state));
  }

  lemma RunInterfaceLine(m: Machine, line: string, names: string, pieces: seq<string>, rest: seq<string>)
    requires m.bound && ClassDecl in m.java.output
    requires SplitWhitespace(line) == ["I", names] && Split(names, ',') == pieces
    ensures Run(m, [line] + rest) == Run(Next(m, Interface(m.java, pieces).state), rest)
  {
    InterfaceLine(m, line, names, pieces);
    RunSilent(m, line, rest, Next(m, Interface(m.java, pieces).state));
  }

  lemma RunFieldLine(m: Machine, line: string, t: string, name: string, rest: seq<string>)
    requires m.bound
    requires SplitWhitespace(line) == ["CV", t, name]
    ensures Run(m, [line] + rest) == Run(Next(m, Variable(m.java, true, false, false, "PUB", Parameter(t, name, None))), rest)
  {
    FieldLine(m, line, t, name);
    RunSilent(m, line, rest, Next(m, Variable(m.java, true, false, false, "PUB", Parameter(t, name, None))));
  }

  lemma RunMethodLine(m: Machine, line: string, level: string, t: string, name: string, rest: seq<string>)
    requires m.bound
    requires SplitWhitespace(line) == ["M", level, t, name]
    ensures Run(m, [line] + rest) == Run(Next(m, Method(m.java, level, t, name, [])), rest)
  {
    MethodLine(m, line, level, t, name);
    RunSilent(m, line, rest, Next(m, Method(m.java, level, t, name, [])));
  }

  lemma RunEndLine(m: Machine, line: string, rest: seq<string>)
    requires m.bound
    requires SplitWhitespace(line) == ["E"]
    ensures var r := Run(Next(m, End(m.java).state), rest);
      Run(m, [line] + rest) == Trace(r.machine, [End(m.java).file] + r.written, r.outcome)
  {
    EndLine(m, line);
    assert ([line] + rest)[0] == line && ([line] + rest)[1..] == rest;
    RunFirst(m, [line] + rest);
  }

  /** The field a `CV int count` line declares. */
  lemma CountFieldText()
    ensures VariableText(false, true, "PUB", Parameter("int", "count", None)) == "\tpublic int count;\n"
  {
  }

  /** The method an `M PUB void run` line declares, piece by piece as `method` assembles it:
      public, void, no parameters, and a body with no return statement. */
  const RunMethod: string := "\n\t" + "public" + " " + "void" + " " + "run" + "(" + ")\n\t" + "{" + "\n\n\t" + "}\n"

  lemma RunMethodText()
    ensures MethodText(false, "PUB", "void", "run", []) == RunMethod
  {
    assert ParameterList([]) == "";
    assert LookupLevel("PUB") == "public" && LookupType("void") == "void";
    assert MethodBody("void") == "\n\n\t";
    var d := MethodDeclaration("PUB", "void", "run", []);
    assert MethodText(false, "PUB", "void", "run", []) == "" + d;
    assert "" + d == d;
  }

  /** The sections the shared generator holds after the class, the field and the method of
      the first scenario. */
  lemma FieldAndMethodSections(j: JavaState)
    requires j == JavaState("Foo", false, map[])
    ensures var j4 := Method(Variable(ClassName(j, "Foo").state, true, false, false, "PUB", Parameter("int", "count", None)),
                             "PUB", "void", "run", []);
      && j4.fileName == "Foo"
      && j4.output == map[ClassDecl := "public class Foo \n{\n", Fields := "\tpublic int count;\n",
                          Methods := RunMethod]
  {
    var decl := "public class Foo \n{\n";
    var field := "\tpublic int count;\n";
    var methodText := RunMethod;
    var p := Parameter("int", "count", None);
    var j2 := ClassName(j, "Foo").state;
    assert ClassDeclaration("Foo") == decl;
    assert j2.output == map[ClassDecl := decl];
    CountFieldText();
    var j3 := Variable(j2, true, false, false, "PUB", p);
    assert j3.output == map[ClassDecl := decl, Fields := field];
    RunMethodText();
  }

  /** The file the first scenario writes. */
  lemma FieldAndMethodFile(j: JavaState)
    requires j == JavaState("Foo", false, map[])
    ensures var j4 := Method(Variable(ClassName(j, "Foo").state, true, false, false, "PUB", Parameter("int", "count", None)),
                             "PUB", "void", "run", []);
      End(j4).file == OutputFile("Foo.java", "public class Foo \n{\n" + "\tpublic int count;\n" + RunMethod + "}")
  {
    FieldAndMethodSections(j);
    var j4 := Method(Variable(ClassName(j, "Foo").state, true, false, false, "PUB", Parameter("int", "count", None)),
                     "PUB", "void", "run", []);
    FieldAndMethodRendered(j4);
  }

  /** The text `end` renders from the sections of the first scenario. */
  lemma FieldAndMethodRendered(j4: JavaState)
    requires j4.fileName == "Foo"
    requires j4.output == map[ClassDecl := "public class Foo \n{\n", Fields := "\tpublic int count;\n",
                              Methods := RunMethod]
    ensures End(j4).file == OutputFile("Foo.java", "public class Foo \n{\n" + "\tpublic int count;\n" + RunMethod + "}")
  {
    var decl := "public class Foo \n{\n";
    var field := "\tpublic int count;\n";
    EndText(j4);
    assert Get(j4.output, Header) == "" && Get(j4.output, Constructors) == "";
    assert Get(j4.output, ClassDecl) == decl && Get(j4.output, Fields) == field && Get(j4.output, Methods) == RunMethod;
    assert "" + decl == decl && decl + field + "" == decl + field;
  }

  /** A run of the single line `E`. */
  lemma EndOnly(m: Machine, rest: seq<string>)
    requires m.bound && |rest| == 1 && SplitWhitespace(rest[0]) == ["E"]
    ensures Run(m, rest) == Trace(Next(m, End(m.java).state), [End(m.java).file], Pass)
  {
    var next := Next(m, End(m.java).state);
    assert [rest[0]] + [] == rest;
    RunEndLine(m, rest[0], []);
    assert Run(next, []) == Trace(next, [], Pass);
  }

  /** The last two lines of the first scenario, from any bound machine. */
  lemma MethodThenEnd(m: Machine, rest: seq<string>)
    requires m.bound && |rest| == 2
    requires SplitWhitespace(rest[0]) == ["M", "PUB", "void", "run"] && SplitWhitespace(rest[1]) == ["E"]
    ensures var t := Run(m, rest);
      t.outcome == Pass && t.written == [End(Method(m.java, "PUB", "void", "run", [])).file]
  {
    assert [rest[0]] + rest[1..] == rest;
    RunMethodLine(m, rest[0], "PUB", "void", "run", rest[1..]);
    EndOnly(Next(m, Method(m.java, "PUB", "void", "run", [])), rest[1..]);
  }

  /** The field, the method and the end of the first scenario. */
  lemma FieldThenMethodThenEnd(m: Machine, rest: seq<string>)
    requires m.bound && |rest| == 3 && SplitWhitespace(rest[0]) == ["CV", "int", "count"]
    requires SplitWhitespace(rest[1]) == ["M", "PUB", "void", "run"] && SplitWhitespace(rest[2]) == ["E"]
    ensures var t := Run(m, rest);
      t.outcome == Pass
      && t.written == [End(Method(Variable(m.java, true, false, false, "PUB", Parameter("int", "count", None)), "PUB", "void", "run", [])).file]
  {
    assert [rest[0]] + rest[1..] == rest;
    RunFieldLine(m, rest[0], "int", "count", rest[1..]);
    MethodThenEnd(Next(m, Variable(m.java, true, false, false, "PUB", Parameter("int", "count", None))), rest[1..]);
  }

  /** The class line and the rest of the first scenario. */
  lemma ClassThenFieldThenMethodThenEnd(m: Machine, rest: seq<string>)
    requires m.bound && m.java.fileName == "Foo" && |rest| == 4 && SplitWhitespace(rest[0]) == ["C", "Foo"]
    requires SplitWhitespace(rest[1]) == ["CV", "int", "count"]
    requires SplitWhitespace(rest[2]) == ["M", "PUB", "void", "run"] && SplitWhitespace(rest[3]) == ["E"]
    ensures var t := Run(m, rest);
      t.outcome == Pass
      && t.written == [End(Method(Variable(ClassName(m.java, "Foo").state, true, false, false, "PUB", Parameter("int", "count", None)), "PUB", "void", "run", [])).file]
  {
    assert [rest[0]] + rest[1..] == rest;
    RunClassLine(m, rest[0], "Foo", rest[1..]);
    FieldThenMethodThenEnd(Next(m, ClassName(m.java, "Foo").state), rest[1..]);
  }

  /** A class with one field and one method: the file holds the declaration, the field and
      the method, closed by "}". */
  lemma ClassWithFieldAndMethod(lines: seq<string>)
    requires lines == ["JAVA Foo", "C Foo", "CV int count", "M PUB void run", "E"]
    ensures var t := Run(Fresh, lines);
      && t.outcome == Pass
      && t.written == [OutputFile("Foo.java", "public class Foo \n{\n" + "\tpublic int count;\n" + RunMethod + "}")]
  {
    TokensLanguageFoo();
    assert [lines[0]] + lines[1..] == lines;
    RunLanguageLine(Fresh, lines[0], "Foo", lines[1..]);
    FieldAndMethodClassFile(Machine(2, true, JavaState("Foo", false, map[])), lines[1..]);
  }

  /** The first scenario after its language command. */
  lemma FieldAndMethodClassFile(m: Machine, rest: seq<string>)
    requires m == Machine(2, true, JavaState("Foo", false, map[]))
    requires rest == ["C Foo", "CV int count", "M PUB void run", "E"]
    ensures var t := Run(m, rest);
      && t.outcome == Pass
      && t.written == [OutputFile("Foo.java", "public class Foo \n{\n" + "\tpublic int count;\n" + RunMethod + "}")]
  {
    TokensClassFoo();
    TokensFieldCount();
    TokensMethodRun();
    TokensEnd();
    ClassThenFieldThenMethodThenEnd(m, rest);
    FieldAndMethodFile(m.java);
  }

  /** `class_value` cuts off exactly the " " and the block opener a declaration ends with. */
  lemma ClassValueOfBlock(a: string)
    ensures ClassValue(a + " " + BlockOpen) == a
  {
    assert |" " + BlockOpen| == 4;
    assert a + " " + BlockOpen == a + (" " + BlockOpen);
  }

  /** The declaration `S Base` makes of class Foo's. */
  lemma BaseDeclaration()
    ensures Extends(ClassDeclaration("Foo"), "Base") == "public class " + "Foo" + " extends " + "Base" + " " + BlockOpen
  {
    ClassValueOfDeclaration("Foo");
  }

  /** The declaration an `I x,y` line makes of a declaration `a`, for two distinct names. */
  lemma TwoInterfacesDeclaration(a: string, x: string, y: string, names: string)
    requires names == x + [','] + y && ',' !in x && ',' !in y && x != y
    ensures Implements(a + " " + BlockOpen, Split(names, ',')) == a + " implements " + (x + ", " + y) + BlockOpen
  {
    ClassValueOfBlock(a);
    SplitPair(x, y, ',');
    InterfaceListDistinct([x, y]);
    assert Join([x, y], ", ") == x + ", " + y;
  }

  /** The names of `I Runnable,Closeable`. */
  lemma SplitRunnableCloseable(names: string)
    requires names == "Runnable,Closeable"
    ensures Split(names, ',') == ["Runnable", "Closeable"]
  {
    assert names == "Runnable" + [','] + "Closeable";
    SplitPair("Runnable", "Closeable", ',');
  }

  /** The declaration `I Runnable,Closeable` makes of that one. */
  lemma InterfacesDeclaration()
    ensures Implements("public class " + "Foo" + " extends " + "Base" + " " + BlockOpen, ["Runnable", "Closeable"])
      == "public class " + "Foo" + " extends " + "Base" + " implements " + ("Runnable" + ", " + "Closeable") + BlockOpen
  {
    assert "Runnable,Closeable" == "Runnable" + [','] + "Closeable";
    TwoInterfacesDeclaration("public class " + "Foo" + " extends " + "Base", "Runnable", "Closeable", "Runnable,Closeable");
    SplitRunnableCloseable("Runnable,Closeable");
  }

  /** The class declaration of the second scenario. */
  function FooExtendsBaseImplements(): string {
    "public class " + "Foo" + " extends " + "Base" + " implements " + ("Runnable" + ", " + "Closeable") + BlockOpen
  }

  /** The sections of the second scenario before `E`. */
  lemma SuperclassAndInterfacesSections(j: JavaState)
    requires j == JavaState("Foo", true, map[])
    ensures var j4 := Interface(Superclass(ClassName(j, "Foo").state, "Base").state, ["Runnable", "Closeable"]).state;
      j4.fileName == "Foo"
      && j4.output == map[Header := HeaderComment, ClassDecl := FooExtendsBaseImplements()]
  {
    var j2 := ClassName(j, "Foo").state;
    assert j2.output == map[Header := HeaderComment, ClassDecl := ClassDeclaration("Foo")];
    BaseDeclaration();
    var j3 := Superclass(j2, "Base").state;
    assert j3.output == map[Header := HeaderComment, ClassDecl := "public class " + "Foo" + " extends " + "Base" + " " + BlockOpen];
    InterfacesDeclaration();
  }

  /** The file the second scenario writes. */
  lemma SuperclassAndInterfacesFile(j: JavaState)
    requires j == JavaState("Foo", true, map[])
    ensures var j4 := Interface(Superclass(ClassName(j, "Foo").state, "Base").state, ["Runnable", "Closeable"]).state;
      End(j4).file == OutputFile("Foo.java", HeaderComment + FooExtendsBaseImplements() + "}")
  {
    SuperclassAndInterfacesSections(j);
    var j4 := Interface(Superclass(ClassName(j, "Foo").state, "Base").state, ["Runnable", "Closeable"]).state;
    EndOfDeclaration(j4, HeaderComment, FooExtendsBaseImplements());
  }

  /** The file of a class that holds only a header and a declaration. */
  lemma EndOfDeclaration(j: JavaState, header: string, decl: string)
    requires j.output == map[Header := header, ClassDecl := decl]
    ensures End(j).file == OutputFile(j.fileName + ".java", header + decl + "}")
  {
    EndText(j);
    assert Get(j.output, Fields) == "" && Get(j.output, Constructors) == "" && Get(j.output, Methods) == "";
  }

  /** The interface line and the end of the second scenario, from any bound machine that
      holds a class declaration. */
  lemma InterfacesThenEnd(m: Machine, rest: seq<string>, names: string, pieces: seq<string>)
    requires m.bound && ClassDecl in m.java.output && |rest| == 2
    requires SplitWhitespace(rest[0]) == ["I", names] && Split(names, ',') == pieces && SplitWhitespace(rest[1]) == ["E"]
    ensures var t := Run(m, rest);
      t.outcome == Pass && t.written == [End(Interface(m.java, pieces).state).file]
  {
    assert [rest[0]] + rest[1..] == rest;
    RunInterfaceLine(m, rest[0], names, pieces, rest[1..]);
    EndOnly(Next(m, Interface(m.java, pieces).state), rest[1..]);
  }

  /** The superclass, interface and end lines of the second scenario. */
  lemma SuperclassThenInterfaces(m: Machine, rest: seq<string>, names: string, pieces: seq<string>)
    requires m.bound && ClassDecl in m.java.output && |rest| == 3 && SplitWhitespace(rest[0]) == ["S", "Base"]
    requires SplitWhitespace(rest[1]) == ["I", names] && Split(names, ',') == pieces && SplitWhitespace(rest[2]) == ["E"]
    ensures var t := Run(m, rest);
      t.outcome == Pass && t.written == [End(Interface(Superclass(m.java, "Base").state, pieces).state).file]
  {
    assert [rest[0]] + rest[1..] == rest;
    RunSuperclassLine(m, rest[0], "Base", rest[1..]);
    InterfacesThenEnd(Next(m, Superclass(m.java, "Base").state), rest[1..], names, pieces);
  }

  /** The class, superclass, interface and end lines of the second scenario. */
  lemma ClassThenSuperclassThenInterfaces(m: Machine, rest: seq<string>, names: string, pieces: seq<string>)
    requires m.bound && m.java.fileName == "Foo" && |rest| == 4
    requires SplitWhitespace(rest[0]) == ["C", "Foo"] && SplitWhitespace(rest[1]) == ["S", "Base"]
    requires SplitWhitespace(rest[2]) == ["I", names] && Split(names, ',') == pieces && SplitWhitespace(rest[3]) == ["E"]
    ensures var t := Run(m, rest);
      t.outcome == Pass
      && t.written == [End(Interface(Superclass(ClassName(m.java, "Foo").state, "Base").state, pieces).state).file]
  {
    assert [rest[0]] + rest[1..] == rest;
    RunClassLine(m, rest[0], "Foo", rest[1..]);
    SuperclassThenInterfaces(Next(m, ClassName(m.java, "Foo").state), rest[1..], names, pieces);
  }

  /** With comments on, a superclass and two interfaces: the header comment comes first and
      the declaration names the superclass, then the interfaces in order. */
  lemma CommentedClassWithSuperclassAndInterfaces(lines: seq<string>)
    requires lines == ["JAVA Foo GC", "C Foo", "S Base", "I Runnable,Closeable", "E"]
    ensures var t := Run(Fresh, lines);
      && t.outcome == Pass
      && t.written == [OutputFile("Foo.java", HeaderComment + FooExtendsBaseImplements() + "}")]
  {
    TokensLanguageFooComments();
    assert [lines[0]] + lines[1..] == lines;
    RunCommentedLanguageLine(Fresh, lines[0], "Foo", lines[1..]);
    CommentedClassFile(Machine(2, true, JavaState("Foo", true, map[])), lines[1..]);
  }

  /** The second scenario after its language command. */
  lemma CommentedClassFile(m: Machine, rest: seq<string>)
    requires m == Machine(2, true, JavaState("Foo", true, map[]))
    requires rest == ["C Foo", "S Base", "I Runnable,Closeable", "E"]
    ensures var t := Run(m, rest);
      && t.outcome == Pass
      && t.written == [OutputFile("Foo.java", HeaderComment + FooExtendsBaseImplements() + "}")]
  {
    TokensClassFoo();
    TokensSuperclassBase();
    TokensInterfacesRunnableCloseable();
    TokensEnd();
    SplitRunnableCloseable(rest[2][2..]);
    ClassThenSuperclassThenInterfaces(m, rest, rest[2][2..], ["Runnable", "Closeable"]);
    SuperclassAndInterfacesFile(m.java);
  }

  /** A class variable without a name stops the run at the third line, with a TypeError that
      cites line 3, before any file is written. */
  lemma MissingFieldNameStopsAtLine3(lines: seq<string>)
    requires lines == ["JAVA Foo", "C Foo", "CV int", "E"]
    ensures var t := Run(Fresh, lines);
      t.outcome == Fail(Error(TypeError, Some(3))) && t.written == []
  {
    TokensLanguageFoo();
    assert [lines[0]] + lines[1..] == lines;
    RunLanguageLine(Fresh, lines[0], "Foo", lines[1..]);
    MissingFieldNameAfterLanguage(Machine(2, true, JavaState("Foo", false, map[])), lines[1..]);
  }

  /** The missing-name scenario after its language command. */
  lemma MissingFieldNameAfterLanguage(m: Machine, rest: seq<string>)
    requires m == Machine(2, true, JavaState("Foo", false, map[]))
    requires rest == ["C Foo", "CV int", "E"]
    ensures var t := Run(m, rest);
      t.outcome == Fail(Error(TypeError, Some(3))) && t.written == []
  {
    TokensClassFoo();
    TokensFieldWithoutName();
    ClassThenFieldWithoutName(m, rest);
  }

  /** The class line, then the class variable line without a name. */
  lemma ClassThenFieldWithoutName(m: Machine, rest: seq<string>)
    requires m.bound && m.java.fileName == "Foo" && |rest| >= 2
    requires SplitWhitespace(rest[0]) == ["C", "Foo"] && SplitWhitespace(rest[1]) == ["CV", "int"]
    ensures Run(m, rest) == TypeErrorAt(Next(m, ClassName(m.java, "Foo").state))
  {
    assert [rest[0]] + rest[1..] == rest;
    RunClassLine(m, rest[0], "Foo", rest[1..]);
    FieldWithoutNameStops(Next(m, ClassName(m.java, "Foo").state), rest[1..]);
  }

  /** A class variable line with a type and no name raises a TypeError citing its line, and
      nothing after it runs. */
  lemma FieldWithoutNameStops(m: Machine, rest: seq<string>)
    requires m.bound && rest != [] && SplitWhitespace(rest[0]) == ["CV", "int"]
    ensures Run(m, rest) == TypeErrorAt(m)
  {
    assert Dispatch(m, ["CV", "int"]) == ClassVariableCommand(m, ["CV", "int"]);
  }

  /** A declaration before any language command calls a method on no generator. */
  lemma ClassBeforeLanguage()
    ensures Run(Fresh, ["C Foo"]) == Trace(Fresh, [], Fail(Error(AttributeError, None)))
  {
    TokensClassFoo();
    assert Dispatch(Fresh, ["C", "Foo"]) == ClassCommand(Fresh, ["C", "Foo"]);
  }

  /** `JAVA B` then `E` from any machine: the file is named after B and holds whatever the
      generator held. */
  lemma RenameThenEnd(m: Machine, rest: seq<string>)
    requires |rest| == 2 && SplitWhitespace(rest[0]) == ["JAVA", "B"] && SplitWhitespace(rest[1]) == ["E"]
    ensures var t := Run(m, rest);
      t.outcome == Pass && t.written == [End(m.java.(fileName := "B")).file]
  {
    assert [rest[0]] + rest[1..] == rest;
    RunLanguageLine(m, rest[0], "B", rest[1..]);
    EndOnly(Machine(m.line + 1, true, m.java.(fileName := "B")), rest[1..]);
  }

  /** `E`, then `JAVA B` and `E` again, from any bound machine. */
  lemma EndThenRenameThenEnd(m: Machine, rest: seq<string>)
    requires m.bound && |rest| == 3
    requires SplitWhitespace(rest[0]) == ["E"] && SplitWhitespace(rest[1]) == ["JAVA", "B"] && SplitWhitespace(rest[2]) == ["E"]
    ensures var t := Run(m, rest);
      t.outcome == Pass && t.written == [End(m.java).file, End(End(m.java).state.(fileName := "B")).file]
  {
    assert [rest[0]] + rest[1..] == rest;
    RunEndLine(m, rest[0], rest[1..]);
    RenameThenEnd(Next(m, End(m.java).state), rest[1..]);
  }

  /** The class A, its end, and the second language command with its end. */
  lemma ClassThenEndTwice(m: Machine, rest: seq<string>)
    requires m.bound && m.java.fileName == "A" && |rest| == 4
    requires SplitWhitespace(rest[0]) == ["C", "A"] && SplitWhitespace(rest[1]) == ["E"]
    requires SplitWhitespace(rest[2]) == ["JAVA", "B"] && SplitWhitespace(rest[3]) == ["E"]
    ensures var t := Run(m, rest); var j := ClassName(m.java, "A").state;
      t.outcome == Pass && t.written == [End(j).file, End(End(j).state.(fileName := "B")).file]
  {
    assert [rest[0]] + rest[1..] == rest;
    RunClassLine(m, rest[0], "A", rest[1..]);
    EndThenRenameThenEnd(Next(m, ClassName(m.java, "A").state), rest[1..]);
  }

  /** Every language command binds the same instance: a second `JAVA` only renames the file,
      so the second file repeats the first class. */
  lemma SecondLanguageCommandKeepsSections(lines: seq<string>)
    requires lines == ["JAVA A", "C A", "E", "JAVA B", "E"]
    ensures var t := Run(Fresh, lines);
      && t.outcome == Pass
      && t.written == [OutputFile("A.java", "public class A \n{\n" + "}"), OutputFile("B.java", "public class A \n{\n" + "}")]
  {
    TokensLanguageA();
    assert [lines[0]] + lines[1..] == lines;
    RunLanguageLine(Fresh, lines[0], "A", lines[1..]);
    ClassAFilesRun(Machine(2, true, JavaState("A", false, map[])), lines[1..]);
  }

  /** The third scenario after its first language command. */
  lemma ClassAFilesRun(m: Machine, rest: seq<string>)
    requires m == Machine(2, true, JavaState("A", false, map[]))
    requires rest == ["C A", "E", "JAVA B", "E"]
    ensures var t := Run(m, rest);
      && t.outcome == Pass
      && t.written == [OutputFile("A.java", "public class A \n{\n" + "}"), OutputFile("B.java", "public class A \n{\n" + "}")]
  {
    TokensClassA();
    TokensEnd();
    TokensLanguageB();
    ClassThenEndTwice(m, rest);
    ClassAFiles(m.java);
  }

  /** The files of the class A, with nothing declared in it, before and after the rename. */
  lemma ClassAFiles(j: JavaState)
    requires j == JavaState("A", false, map[])
    ensures var j2 := ClassName(j, "A").state;
      && End(j2).file == OutputFile("A.java", "public class A \n{\n" + "}")
      && End(End(j2).state.(fileName := "B")).file == OutputFile("B.java", "public class A \n{\n" + "}")
  {
    var j2 := ClassName(j, "A").state;
    RenamedEndRepeatsText(j2, "B");
    assert "B" + ".java" == "B.java";
    assert ClassDeclaration("A") == "public class A \n{\n";
    assert j2.output == map[ClassDecl := "public class A \n{\n"];
    EndText(j2);
    assert Get(j2.output, Header) == "" && Get(j2.output, Fields) == "" && Get(j2.output, Constructors) == "" && Get(j2.output, Methods) == "";
  }
}
