/**
 * What turning comments on does to a whole run: the same input parsed with `GC` and without
 * it raises the same errors on the same lines, and every file it writes differs only by the
 * comment blocks in front of each field, constructor and method, and by the header comment,
 * which is there whenever a class is declared.
 */
module CommentProperties {
  import opened Common
  import opened Text
  import opened Parameters
  import opened JavaEmitter
  import opened Interpreter
  import opened JavaProperties

  /** The fragments of a section, one after the other. */
  function Concat(fs: seq<string>): (r: string)
    ensures |fs| == 0 ==> r == ""
  {
    if |fs| == 0 then "" else Concat(fs[..|fs| - 1]) + fs[|fs| - 1]
  }

  /** The same fragments, each preceded by `block`. */
  function Commented(fs: seq<string>, block: string): (r: string)
    ensures |fs| == 0 ==> r == ""
  {
    if |fs| == 0 then "" else Commented(fs[..|fs| - 1], block) + block + fs[|fs| - 1]
  }

  /** `c` is `p` with `block` put in front of each of the fragments `p` was written as. */
  ghost predicate Interleaved(c: string, p: string, block: string) {
    exists fs: seq<string> :: Concat(fs) == p && Commented(fs, block) == c
  }

  lemma InterleavedEmpty(block: string)
    ensures Interleaved("", "", block)
  {
    assert Concat([]) == "" && Commented([], block) == "";
  }

  /** Appending a fragment to both, and the block before it to the commented one, keeps them
      interleaved. */
  lemma InterleavedAppend(c: string, p: string, block: string, x: string)
    requires Interleaved(c, p, block)
    ensures Interleaved(c + block + x, p + x, block)
  {
    var fs :| Concat(fs) == p && Commented(fs, block) == c;
    var gs := fs + [x];
    assert gs[..|gs| - 1] == fs;
    assert Concat(gs) == p + x;
    assert Commented(gs, block) == c + block + x;
  }

  /** The generator `jc`, with comments on, holds what `jp`, with comments off, holds, with
      the comment blocks added: the header comment is its only extra section, present once a
      class is declared, the class declaration and the terminator are the same, and each field,
      constructor and method carries its comment block in front. */
  ghost predicate CommentsOnly(jc: JavaState, jp: JavaState) {
    && jc.generateComments && !jp.generateComments
    && jc.fileName == jp.fileName
    && (Get(jc.output, Header) == "" || Get(jc.output, Header) == HeaderComment)
    && (ClassDecl in jc.output ==> Get(jc.output, Header) == HeaderComment)
    && Get(jp.output, Header) == ""
    && (ClassDecl in jc.output <==> ClassDecl in jp.output)
    && (ClassDecl in jp.output ==> jc.output[ClassDecl] == jp.output[ClassDecl])
    && Get(jc.output, ClassEnd) == Get(jp.output, ClassEnd)
    && Interleaved(Get(jc.output, Fields), Get(jp.output, Fields), Comment + "\n")
    && Interleaved(Get(jc.output, Constructors), Get(jp.output, Constructors), Comment)
    && Interleaved(Get(jc.output, Methods), Get(jp.output, Methods), Comment)
  }

  /** A generator bound to `name` with nothing declared yet, with comments on and off. */
  lemma FreshCommentsOnly(name: string)
    ensures CommentsOnly(JavaState(name, true, map[]), JavaState(name, false, map[]))
  {
    InterleavedEmpty(Comment + "\n");
    InterleavedEmpty(Comment);
  }

  /** `class_name` raises the same way on both, and keeps them related. */
  lemma ClassNameCommentsOnly(jc: JavaState, jp: JavaState, name: string)
    requires CommentsOnly(jc, jp)
    ensures ClassName(jc, name).outcome == ClassName(jp, name).outcome
    ensures CommentsOnly(ClassName(jc, name).state, ClassName(jp, name).state)
  {
    var c, p := ClassName(jc, name).state, ClassName(jp, name).state;
    assert forall k :: k != ClassDecl && k != Header ==> Get(c.output, k) == Get(jc.output, k);
    assert forall k :: k != ClassDecl && k != Header ==> Get(p.output, k) == Get(jp.output, k);
  }

  /** `superclass` raises the same way on both, and keeps them related. */
  lemma SuperclassCommentsOnly(jc: JavaState, jp: JavaState, name: string)
    requires CommentsOnly(jc, jp)
    ensures Superclass(jc, name).outcome == Superclass(jp, name).outcome
    ensures CommentsOnly(Superclass(jc, name).state, Superclass(jp, name).state)
  {
    if ClassDecl in jp.output {
      var c, p := Superclass(jc, name).state, Superclass(jp, name).state;
      assert forall k :: k != ClassDecl ==> Get(c.output, k) == Get(jc.output, k);
      assert forall k :: k != ClassDecl ==> Get(p.output, k) == Get(jp.output, k);
    }
  }

  /** `interface` raises the same way on both, and keeps them related. */
  lemma InterfaceCommentsOnly(jc: JavaState, jp: JavaState, names: seq<string>)
    requires CommentsOnly(jc, jp)
    ensures Interface(jc, names).outcome == Interface(jp, names).outcome
    ensures CommentsOnly(Interface(jc, names).state, Interface(jp, names).state)
  {
    if ClassDecl in jp.output {
      var c, p := Interface(jc, names).state, Interface(jp, names).state;
      assert forall k :: k != ClassDecl ==> Get(c.output, k) == Get(jc.output, k);
      assert forall k :: k != ClassDecl ==> Get(p.output, k) == Get(jp.output, k);
    }
  }

  /** Appending a fragment to a section of the plain generator, and the same fragment with
      its comment block to the commented one, keeps them related. */
  lemma AppendCommentsOnly(jc: JavaState, jp: JavaState, key: Section, block: string, x: string)
    requires CommentsOnly(jc, jp)
    requires (key == Fields && block == Comment + "\n") || ((key == Constructors || key == Methods) && block == Comment)
    ensures CommentsOnly(Append(jc, key, block + x), Append(jp, key, x))
  {
    var c, p := Append(jc, key, block + x), Append(jp, key, x);
    InterleavedAppend(Get(jc.output, key), Get(jp.output, key), block, x);
    assert Get(c.output, key) == Get(jc.output, key) + block + x;
  }

  lemma ConstructorCommentsOnly(jc: JavaState, jp: JavaState, ps: seq<Parameter>)
    requires CommentsOnly(jc, jp)
    ensures CommentsOnly(Constructor(jc, ps), Constructor(jp, ps))
  {
    CommentsOnlyPrefix("", "", "", ps, jc.fileName, false, Parameter("", "", None));
    AppendCommentsOnly(jc, jp, Constructors, Comment, ConstructorText(false, jp.fileName, ps));
  }

  lemma MethodCommentsOnly(jc: JavaState, jp: JavaState, level: string, returnType: string, name: string, ps: seq<Parameter>)
    requires CommentsOnly(jc, jp)
    ensures CommentsOnly(Method(jc, level, returnType, name, ps), Method(jp, level, returnType, name, ps))
  {
    CommentsOnlyPrefix(level, returnType, name, ps, "", false, Parameter("", "", None));
    AppendCommentsOnly(jc, jp, Methods, Comment, MethodText(false, level, returnType, name, ps));
  }

  /** `variable` keeps them related: the field and each accessor carry their comment. */
  lemma VariableCommentsOnly(jc: JavaState, jp: JavaState, mutable: bool, getter: bool, setter: bool, level: string, p: Parameter)
    requires CommentsOnly(jc, jp)
    ensures CommentsOnly(Variable(jc, mutable, getter, setter, level, p), Variable(jp, mutable, getter, setter, level, p))
  {
    var t := LookupType(p.dataType);
    CommentsOnlyPrefix(level, "", "", [], "", mutable, p);
    var fc := Append(jc, Fields, VariableText(true, mutable, level, p));
    var fp := Append(jp, Fields, VariableText(false, mutable, level, p));
    AppendCommentsOnly(jc, jp, Fields, Comment + "\n", VariableText(false, mutable, level, p));
    assert Comment + "\n" + VariableText(false, mutable, level, p) == (Comment + "\n") + VariableText(false, mutable, level, p);
    assert CommentsOnly(fc, fp);
    var gc := if getter then Method(fc, "PUB", t, GetterName(p.name), []) else fc;
    var gp := if getter then Method(fp, "PUB", t, GetterName(p.name), []) else fp;
    if getter {
      MethodCommentsOnly(fc, fp, "PUB", t, GetterName(p.name), []);
    }
    if setter {
      MethodCommentsOnly(gc, gp, "PUB", "void", SetterName(p.name), [Parameter(t, "value", None)]);
    }
  }

  /** The file of a commented generator and the file of its plain counterpart. */
  ghost predicate FileCommentsOnly(fc: OutputFile, fp: OutputFile) {
    exists jc: JavaState, jp: JavaState :: CommentsOnly(jc, jp) && End(jc).file == fc && End(jp).file == fp
  }

  /** `end` writes files of the same name, related as above, and keeps the states related. */
  lemma EndCommentsOnly(jc: JavaState, jp: JavaState)
    requires CommentsOnly(jc, jp)
    ensures End(jc).file.name == End(jp).file.name
    ensures FileCommentsOnly(End(jc).file, End(jp).file)
    ensures CommentsOnly(End(jc).state, End(jp).state)
  {
    var c, p := End(jc).state, End(jp).state;
    assert forall k :: k != ClassEnd ==> Get(c.output, k) == Get(jc.output, k);
    assert forall k :: k != ClassEnd ==> Get(p.output, k) == Get(jp.output, k);
  }

  /** Two parsers on the same line, whose generators are related as above. */
  ghost predicate MachinesCommentsOnly(mc: Machine, mp: Machine) {
    mc.line == mp.line && mc.bound == mp.bound && CommentsOnly(mc.java, mp.java)
  }

  ghost predicate FilesCommentsOnly(wc: seq<OutputFile>, wp: seq<OutputFile>) {
    |wc| == |wp| && forall i :: 0 <= i < |wc| ==> FileCommentsOnly(wc[i], wp[i])
  }

  /** The same outcome, related parsers afterwards, and related files written. */
  ghost predicate TracesCommentsOnly(tc: Trace, tp: Trace) {
    tc.outcome == tp.outcome && MachinesCommentsOnly(tc.machine, tp.machine) && FilesCommentsOnly(tc.written, tp.written)
  }

  /** A line that is not a language command turning comments on. */
  predicate KeepsComments(line: string) {
    var toks := SplitWhitespace(line);
    !(|toks| == 3 && toks[0] in Languages && toks[2] == "GC")
  }

  lemma EmitCommentsOnly(mc: Machine, mp: Machine, ec: Emitted, ep: Emitted)
    requires MachinesCommentsOnly(mc, mp) && ec.outcome == ep.outcome && CommentsOnly(ec.state, ep.state)
    ensures TracesCommentsOnly(Emit(mc, ec), Emit(mp, ep))
  {
  }

  lemma DeclareCommentsOnly(mc: Machine, mp: Machine, jc: JavaState, jp: JavaState)
    requires MachinesCommentsOnly(mc, mp) && CommentsOnly(jc, jp)
    ensures TracesCommentsOnly(Declare(mc, jc), Declare(mp, jp))
  {
  }

  lemma LanguageCommandCommentsOnly(mc: Machine, mp: Machine, toks: seq<string>)
    requires MachinesCommentsOnly(mc, mp)
    requires !(|toks| == 3 && toks[2] == "GC")
    ensures TracesCommentsOnly(LanguageCommand(mc, toks), LanguageCommand(mp, toks))
  {
    if |toks| == 2 {
      var c, p := LanguageCommand(mc, toks).machine.java, LanguageCommand(mp, toks).machine.java;
      assert c.output == mc.java.output && p.output == mp.java.output;
    }
  }

  lemma ClassCommandCommentsOnly(mc: Machine, mp: Machine, toks: seq<string>)
    requires MachinesCommentsOnly(mc, mp)
    ensures TracesCommentsOnly(ClassCommand(mc, toks), ClassCommand(mp, toks))
  {
    if |toks| == 2 && mc.bound {
      ClassNameCommentsOnly(mc.java, mp.java, toks[1]);
      EmitCommentsOnly(mc, mp, ClassName(mc.java, toks[1]), ClassName(mp.java, toks[1]));
    }
  }

  lemma SuperclassCommandCommentsOnly(mc: Machine, mp: Machine, toks: seq<string>)
    requires MachinesCommentsOnly(mc, mp)
    ensures TracesCommentsOnly(SuperclassCommand(mc, toks), SuperclassCommand(mp, toks))
  {
    if |toks| == 2 && mc.bound {
      SuperclassCommentsOnly(mc.java, mp.java, toks[1]);
      EmitCommentsOnly(mc, mp, Superclass(mc.java, toks[1]), Superclass(mp.java, toks[1]));
    }
  }

  lemma InterfaceCommandCommentsOnly(mc: Machine, mp: Machine, toks: seq<string>)
    requires MachinesCommentsOnly(mc, mp)
    ensures TracesCommentsOnly(InterfaceCommand(mc, toks), InterfaceCommand(mp, toks))
  {
    if |toks| == 2 && mc.bound {
      var names := Split(toks[1], ',');
      InterfaceCommentsOnly(mc.java, mp.java, names);
      EmitCommentsOnly(mc, mp, Interface(mc.java, names), Interface(mp.java, names));
    }
  }

  lemma ClassVariableCommandCommentsOnly(mc: Machine, mp: Machine, toks: seq<string>)
    requires MachinesCommentsOnly(mc, mp)
    ensures TracesCommentsOnly(ClassVariableCommand(mc, toks), ClassVariableCommand(mp, toks))
  {
    if |toks| == 3 {
      var p := Parameter(toks[1], toks[2], None);
      VariableCommentsOnly(mc.java, mp.java, true, false, false, "PUB", p);
      DeclareCommentsOnly(mc, mp, Variable(mc.java, true, false, false, "PUB", p), Variable(mp.java, true, false, false, "PUB", p));
    } else if |toks| == 4 && Accessors(toks[3]).Some? {
      var p := Parameter(toks[1], toks[2], None);
      var (g, s) := Accessors(toks[3]).value;
      VariableCommentsOnly(mc.java, mp.java, true, g, s, "PUB", p);
      DeclareCommentsOnly(mc, mp, Variable(mc.java, true, g, s, "PUB", p), Variable(mp.java, true, g, s, "PUB", p));
    }
  }

  lemma ConstantCommandCommentsOnly(mc: Machine, mp: Machine, toks: seq<string>)
    requires MachinesCommentsOnly(mc, mp)
    ensures TracesCommentsOnly(ConstantCommand(mc, toks), ConstantCommand(mp, toks))
  {
    if |toks| == 4 {
      var p := Parameter(toks[1], toks[2], Some(toks[3]));
      VariableCommentsOnly(mc.java, mp.java, false, false, false, "PUB", p);
      DeclareCommentsOnly(mc, mp, Variable(mc.java, false, false, false, "PUB", p), Variable(mp.java, false, false, false, "PUB", p));
    }
  }

  lemma ConstructorCommandCommentsOnly(mc: Machine, mp: Machine, toks: seq<string>)
    requires MachinesCommentsOnly(mc, mp) && |toks| >= 1
    ensures TracesCommentsOnly(ConstructorCommand(mc, toks), ConstructorCommand(mp, toks))
  {
    if |toks| == 1 {
      ConstructorCommentsOnly(mc.java, mp.java, []);
      DeclareCommentsOnly(mc, mp, Constructor(mc.java, []), Constructor(mp.java, []));
    } else if |toks| == 2 && ParseParameters(toks[1]).Ok? {
      var ps := ParseParameters(toks[1]).value;
      ConstructorCommentsOnly(mc.java, mp.java, ps);
      DeclareCommentsOnly(mc, mp, Constructor(mc.java, ps), Constructor(mp.java, ps));
    }
  }

  lemma MethodCommandCommentsOnly(mc: Machine, mp: Machine, toks: seq<string>)
    requires MachinesCommentsOnly(mc, mp)
    ensures TracesCommentsOnly(MethodCommand(mc, toks), MethodCommand(mp, toks))
  {
    if |toks| == 4 {
      MethodCommentsOnly(mc.java, mp.java, toks[1], toks[2], toks[3], []);
      DeclareCommentsOnly(mc, mp, Method(mc.java, toks[1], toks[2], toks[3], []), Method(mp.java, toks[1], toks[2], toks[3], []));
    } else if |toks| == 5 && ParseParameters(toks[4]).Ok? {
      var ps := ParseParameters(toks[4]).value;
      MethodCommentsOnly(mc.java, mp.java, toks[1], toks[2], toks[3], ps);
      DeclareCommentsOnly(mc, mp, Method(mc.java, toks[1], toks[2], toks[3], ps), Method(mp.java, toks[1], toks[2], toks[3], ps));
    }
  }

  lemma EndCommandCommentsOnly(mc: Machine, mp: Machine)
    requires MachinesCommentsOnly(mc, mp)
    ensures TracesCommentsOnly(EndCommand(mc), EndCommand(mp))
  {
    if mc.bound {
      EndCommentsOnly(mc.java, mp.java);
    }
  }

  /** One command, on two related parsers. */
  lemma DispatchCommentsOnly(mc: Machine, mp: Machine, toks: seq<string>)
    requires MachinesCommentsOnly(mc, mp) && toks != []
    requires !(|toks| == 3 && toks[0] in Languages && toks[2] == "GC")
    ensures TracesCommentsOnly(Dispatch(mc, toks), Dispatch(mp, toks))
  {
    var command := toks[0];
    if command in Languages {
      LanguageCommandCommentsOnly(mc, mp, toks);
    } else if command == "C" {
      ClassCommandCommentsOnly(mc, mp, toks);
    } else if command == "S" {
      SuperclassCommandCommentsOnly(mc, mp, toks);
    } else if command == "I" {
      InterfaceCommandCommentsOnly(mc, mp, toks);
    } else if command == "CV" {
      ClassVariableCommandCommentsOnly(mc, mp, toks);
    } else if command == "CT" {
      ConstantCommandCommentsOnly(mc, mp, toks);
    } else if command == "CR" {
      ConstructorCommandCommentsOnly(mc, mp, toks);
    } else if command == "M" {
      MethodCommandCommentsOnly(mc, mp, toks);
    } else if command == "E" {
      EndCommandCommentsOnly(mc, mp);
    }
  }

  /** One line, on two related parsers. */
  lemma StepCommentsOnly(mc: Machine, mp: Machine, line: string)
    requires MachinesCommentsOnly(mc, mp) && KeepsComments(line)
    ensures TracesCommentsOnly(Step(mc, line), Step(mp, line))
  {
    var toks := SplitWhitespace(line);
    if toks != [] {
      DispatchCommentsOnly(mc, mp, toks);
    }
  }

  /** Files related pairwise stay related when both lists are extended. */
  lemma FilesCommentsOnlyAppend(wc: seq<OutputFile>, wp: seq<OutputFile>, vc: seq<OutputFile>, vp: seq<OutputFile>)
    requires FilesCommentsOnly(wc, wp) && FilesCommentsOnly(vc, vp)
    ensures FilesCommentsOnly(wc + vc, wp + vp)
  {
    forall i | 0 <= i < |wc + vc|
      ensures FileCommentsOnly((wc + vc)[i], (wp + vp)[i])
    {
      if i >= |wc| {
        assert (wc + vc)[i] == vc[i - |wc|] && (wp + vp)[i] == vp[i - |wp|];
      }
    }
  }

  /** A whole input, on two related parsers: neither raises where the other does not, they
      stop on the same line with the same error, and they write related files. */
  lemma {:induction false} RunCommentsOnly(mc: Machine, mp: Machine, lines: seq<string>)
    requires MachinesCommentsOnly(mc, mp)
    requires forall i :: 0 <= i < |lines| ==> KeepsComments(lines[i])
    ensures TracesCommentsOnly(Run(mc, lines), Run(mp, lines))
    decreases |lines|
  {
    if lines != [] {
      StepCommentsOnly(mc, mp, lines[0]);
      var sc, sp := Step(mc, lines[0]), Step(mp, lines[0]);
      if sc.outcome.Pass? {
        RunCommentsOnly(sc.machine, sp.machine, lines[1..]);
        var rc, rp := Run(sc.machine, lines[1..]), Run(sp.machine, lines[1..]);
        FilesCommentsOnlyAppend(sc.written, sp.written, rc.written, rp.written);
      }
    }
  }

  /** The language line that opens the input, on a fresh parser. */
  lemma OpeningLine(line: string, name: string)
    requires SplitWhitespace(line) == ["JAVA", name] || SplitWhitespace(line) == ["JAVA", name, "GC"]
    ensures Step(Start(FreshJava), line)
      == Trace(Machine(2, true, JavaState(name, |SplitWhitespace(line)| == 3, map[])), [], Pass)
  {
    var toks := SplitWhitespace(line);
    assert Dispatch(Start(FreshJava), toks) == LanguageCommand(Start(FreshJava), toks);
  }

  /** A run whose first line passes without writing goes on from where that line left it. */
  lemma RunAfterSilentLine(m: Machine, line: string, rest: seq<string>)
    requires Step(m, line).outcome.Pass? && Step(m, line).written == []
    ensures Run(m, [line] + rest) == Run(Step(m, line).machine, rest)
  {
    assert ([line] + rest)[0] == line && ([line] + rest)[1..] == rest;
  }

  /** The same input, opened with `JAVA <name> GC` and with `JAVA <name>`, on a fresh parser:
      the two runs end alike, and the commented files are the plain ones with the comment
      blocks added, and with the header comment once a class is declared. */
  lemma CommentsAddOnlyComments(withComments: string, without: string, name: string, rest: seq<string>)
    requires SplitWhitespace(withComments) == ["JAVA", name, "GC"]
    requires SplitWhitespace(without) == ["JAVA", name]
    requires forall i :: 0 <= i < |rest| ==> KeepsComments(rest[i])
    ensures TracesCommentsOnly(Run(Start(FreshJava), [withComments] + rest), Run(Start(FreshJava), [without] + rest))
  {
    OpeningLine(withComments, name);
    OpeningLine(without, name);
    RunAfterSilentLine(Start(FreshJava), withComments, rest);
    RunAfterSilentLine(Start(FreshJava), without, rest);
    FreshCommentsOnly(name);
    RunCommentsOnly(Machine(2, true, JavaState(name, true, map[])), Machine(2, true, JavaState(name, false, map[])), rest);
  }
}
