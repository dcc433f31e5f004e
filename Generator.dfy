/**
 * The `Java` generator class of Generator.py: an object whose declarations update its
 * output dictionary in place. Each method is proved to leave the object in the state the
 * matching function of module JavaEmitter describes.
 */
module Generator {
  import opened Common
  import opened Text
  import opened Parameters
  import opened JavaEmitter

  class Java {
    var fileName: string
    var generateComments: bool
    var output: Sections

    /** The object's state as a value. */
    function State(): JavaState
      reads this
    {
      JavaState(fileName, generateComments, output)
    }

    constructor (fileName: string, generateComments: bool)
      ensures State() == JavaState(fileName, generateComments, map[])
    {
      this.fileName := fileName;
      this.generateComments := generateComments;
      this.output := map[];
    }

    /** `add_to_output`. */
    method AddToOutput(key: Section, s: string)
      modifies this
      ensures State() == old(State()).(output := JavaEmitter.AddToOutput(old(output), key, s))
    {
      if key in output && output[key] != "" {
        output := output[key := output[key] + s];
      } else {
        output := output[key := s];
      }
    }

    /** `build_parameter_list`: the accumulator loop, with a separator after every entry
        but the last. */
    method BuildParameterList(parameters: seq<Parameter>) returns (list: string)
      ensures list == Join(ParameterDecls(parameters), ", ")
    {
      ghost var decls := ParameterDecls(parameters);
      list := "";
      var i := 0;
      while i < |parameters|
        invariant 0 <= i <= |parameters|
        invariant list == Join(decls[..i], ", ") + (if 0 < i < |parameters| then ", " else "")
      {
        ghost var before := list;
        var dataType := LookupType(parameters[i].dataType);
        list := list + dataType + " " + parameters[i].name;
        assert list == before + decls[i];
        if i < |parameters| - 1 {
          list := list + ", ";
        }
        if i > 0 {
          JoinAppend(decls[..i], decls[i], ", ");
        }
        assert decls[..i + 1] == decls[..i] + [decls[i]];
        i := i + 1;
      }
      assert decls[..i] == decls;
    }

    /** `class_name`. */
    method ClassName(name: string) returns (outcome: Outcome<ErrorKind>)
      modifies this
      ensures Emitted(State(), outcome) == JavaEmitter.ClassName(old(State()), name)
    {
      if generateComments {
        output := output[Header := HeaderComment];
      }
      if name != fileName {
        return Fail(ValueError);
      }
      output := output[ClassDecl := "public class " + name + " " + BlockOpen];
      outcome := Pass;
    }

    /** `superclass`; the dictionary lookup in `class_value` raises KeyError before any class. */
    method Superclass(name: string) returns (outcome: Outcome<ErrorKind>)
      modifies this
      ensures Emitted(State(), outcome) == JavaEmitter.Superclass(old(State()), name)
    {
      if ClassDecl !in output {
        return Fail(KeyError);
      }
      var classValue := ClassValue(output[ClassDecl]);
      output := output[ClassDecl := classValue + " extends " + name + " " + BlockOpen];
      outcome := Pass;
    }

    /** `interface`: the accumulator loop over the names, testing each name's FIRST index. */
    method Interface(names: seq<string>) returns (outcome: Outcome<ErrorKind>)
      modifies this
      ensures Emitted(State(), outcome) == JavaEmitter.Interface(old(State()), names)
    {
      if ClassDecl !in output {
        return Fail(KeyError);
      }
      var classValue := ClassValue(output[ClassDecl]);
      classValue := classValue + " implements ";
      ghost var opening := classValue;
      var i := 0;
      while i < |names|
        invariant 0 <= i <= |names|
        invariant classValue == opening + InterfaceListPrefix(names, i)
      {
        classValue := classValue + names[i];
        if FirstIndex(names, names[i]) < |names| - 1 {
          classValue := classValue + ", ";
        }
        assert classValue == opening + InterfaceListPrefix(names, i) + names[i] + SeparatorAfter(names, i);
        i := i + 1;
      }
      output := output[ClassDecl := classValue + BlockOpen];
      outcome := Pass;
    }

    /** `constructor`. */
    method Constructor(parameters: seq<Parameter>)
      modifies this
      ensures State() == JavaEmitter.Constructor(old(State()), parameters)
    {
      var text := "";
      if generateComments {
        text := text + Comment;
      }
      assert text == CommentPrefix(generateComments);
      var list := BuildParameterList(parameters);
      text := text + ("\n\tpublic " + fileName + "(" + list + ")\n\t" + "{\n\n\t}\n");
      assert text == ConstructorText(generateComments, fileName, parameters);
      AddToOutput(Constructors, text);
    }

    /** `method`: the body is a default return chosen from the translated return type. */
    method Method(accessLevel: string, returnType: string, name: string, parameters: seq<Parameter>)
      modifies this
      ensures State() == JavaEmitter.Method(old(State()), accessLevel, returnType, name, parameters)
    {
      var level := LookupLevel(accessLevel);
      var t := LookupType(returnType);
      var noReturn := "\n\n\t";
      var returnValue;
      if t in NumericTypes {
        returnValue := "0";
      } else if t == "boolean" {
        returnValue := "false";
      } else if t == "char" {
        returnValue := "''";
      } else {
        returnValue := "null";
      }
      assert returnValue == DefaultValue(t);
      var returnStatement := "\n\t\treturn " + returnValue + ";\n\t";
      var text := "";
      if generateComments {
        text := text + Comment;
      }
      assert text == CommentPrefix(generateComments);
      var list := BuildParameterList(parameters);
      ghost var body := if t == "void" then noReturn else returnStatement;
      assert body == MethodBody(t);
      text := text + ("\n\t" + level + " " + t + " " + name + "(" + list + ")\n\t" + "{"
        + (if t == "void" then noReturn else returnStatement) + "}\n");
      assert text == MethodText(generateComments, accessLevel, returnType, name, parameters);
      AddToOutput(Methods, text);
    }

    /** `constant`: an immutable field without accessors. */
    method Constant(accessLevel: string, values: Parameter)
      modifies this
      ensures State() == JavaEmitter.Variable(old(State()), false, false, false, accessLevel, values)
    {
      Variable(false, false, false, accessLevel, values);
    }

    /** `variable`: the field, then the getter and the setter through `method`. */
    method Variable(mutable: bool, getter: bool, setter: bool, accessLevel: string, values: Parameter)
      modifies this
      ensures State() == JavaEmitter.Variable(old(State()), mutable, getter, setter, accessLevel, values)
    {
      ghost var before := State();
      var level := LookupLevel(accessLevel);
      var t := LookupType(values.dataType);
      var text := "";
      if generateComments {
        text := text + (Comment + "\n");
      }
      assert text == if generateComments then Comment + "\n" else "";
      ghost var modifiers := if mutable then "" else "static final ";
      assert modifiers == Modifiers(mutable);
      text := text + ("\t" + level + " " + (if mutable then "" else "static final ") + t + " "
        + values.name + (if values.value.Some? && values.value.value != "" then " = " + values.value.value else "") + ";\n");
      assert text == VariableText(generateComments, mutable, accessLevel, values);
      AddToOutput(Fields, text);
      ghost var withField := State();
      assert withField == Append(before, Fields, VariableText(before.generateComments, mutable, accessLevel, values));
      if getter {
        Method("PUB", t, "get" + Capitalize(values.name), []);
      }
      ghost var withGetter := State();
      assert withGetter == if getter then JavaEmitter.Method(withField, "PUB", t, GetterName(values.name), []) else withField;
      if setter {
        Method("PUB", "void", "set" + Capitalize(values.name), [Parameter(t, "value", None)]);
      }
      assert State() == if setter then JavaEmitter.Method(withGetter, "PUB", "void", SetterName(values.name), [Parameter(t, "value", None)]) else withGetter;
    }

    /** `end`: sets the terminator, then writes every non-empty section in the fixed order.
        The file is returned instead of written. */
    method End() returns (file: OutputFile)
      modifies this
      ensures Finished(State(), file) == JavaEmitter.End(old(State()))
    {
      output := output[ClassEnd := "}"];
      var text := "";
      if Get(output, Header) != "" { text := text + output[Header]; }
      assert text == Get(output, Header);
      if Get(output, ClassDecl) != "" { text := text + output[ClassDecl]; }
      assert text == Get(output, Header) + Get(output, ClassDecl);
      if Get(output, Fields) != "" { text := text + output[Fields]; }
      ghost var upToFields := text;
      assert text == Get(output, Header) + Get(output, ClassDecl) + Get(output, Fields);
      if Get(output, Constructors) != "" { text := text + output[Constructors]; }
      assert text == upToFields + Get(output, Constructors);
      if Get(output, Methods) != "" { text := text + output[Methods]; }
      assert text == upToFields + Get(output, Constructors) + Get(output, Methods);
      if Get(output, ClassEnd) != "" { text := text + output[ClassEnd]; }
      assert text == upToFields + Get(output, Constructors) + Get(output, Methods) + Get(output, ClassEnd);
      file := OutputFile(fileName + ".java", text);
    }
  }
}
