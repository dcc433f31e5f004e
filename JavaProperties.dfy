/**
 * What the Java emitter promises about the classes it writes: how the class declaration
 * reads after `class_name`, `superclass` and `interface`, how parameter lists are separated,
 * what the generated members contain, which sections each declaration touches, and the
 * text `end` writes.
 */
module JavaProperties {
  import opened Common
  import opened Text
  import opened Parameters
  import opened JavaEmitter

  /** `class_value` on a fresh declaration cuts exactly the " \n{\n" that `class_name` added. */
  lemma ClassValueOfDeclaration(name: string)
    ensures ClassValue(ClassDeclaration(name)) == "public class " + name
  {
    assert ClassDeclaration(name) == ("public class " + name) + " \n{\n";
  }

  /** `class_name` followed by `superclass`: the class extends the superclass. */
  lemma SuperclassAfterClassName(j: JavaState, name: string, base: string)
    requires name == j.fileName
    ensures var e := Superclass(ClassName(j, name).state, base);
      e.outcome == Pass && e.state.output[ClassDecl] == "public class " + name + " extends " + base + " \n{\n"
  {
    ClassValueOfDeclaration(name);
  }

  /** With the first `i` names distinct from one another and from the rest, the list built so
      far is those names joined by ", ", followed by ", " unless it is the whole list. */
  lemma {:induction false} InterfaceListPrefixDistinct(names: seq<string>, i: nat)
    requires Distinct(names) && 0 < i <= |names|
    ensures InterfaceListPrefix(names, i) == Join(names[..i], ", ") + (if i < |names| then ", " else "")
  {
    assert FirstIndex(names, names[i - 1]) == i - 1;
    if i == 1 {
      assert InterfaceListPrefix(names, 0) == "";
    } else {
      InterfaceListPrefixDistinct(names, i - 1);
      JoinAppend(names[..i - 1], names[i - 1], ", ");
      assert names[..i] == names[..i - 1] + [names[i - 1]];
    }
  }

  /** `interface` on distinct names lists them separated by ", " with no stray separator. */
  lemma InterfaceListDistinct(names: seq<string>)
    requires Distinct(names)
    ensures InterfaceList(names) == Join(names, ", ")
  {
    if names != [] {
      InterfaceListPrefixDistinct(names, |names|);
      assert names[..|names|] == names;
    }
  }

  /** `args.index` finds the first occurrence, so when the last name also occurs earlier the
      list ends in a dangling ", ". */
  lemma RepeatedLastInterfaceDangles(names: seq<string>, k: nat)
    requires k < |names| - 1 && names[k] == names[|names| - 1]
    ensures EndsWith(InterfaceList(names), ", ")
  {
    var n := |names|;
    assert FirstIndex(names, names[n - 1]) <= k;
    assert InterfaceList(names) == InterfaceListPrefix(names, n - 1) + names[n - 1] + ", ";
  }

  /** `class_name` followed by `interface` with distinct names. The declaration then ends in
      "\n{\n" without the space the other two declarations leave before it. */
  lemma InterfacesAfterClassName(j: JavaState, name: string, names: seq<string>)
    requires name == j.fileName && Distinct(names)
    ensures var e := Interface(ClassName(j, name).state, names);
      e.outcome == Pass && e.state.output[ClassDecl] == "public class " + name + " implements " + Join(names, ", ") + "\n{\n"
  {
    ClassValueOfDeclaration(name);
    InterfaceListDistinct(names);
  }

  /** `superclass` after `interface` still cuts four characters, but the declaration now ends
      in only three characters of block opening, so the last character of the interface list
      is lost. */
  lemma SuperclassAfterInterfacesDropsCharacter(j: JavaState, name: string, names: seq<string>, base: string)
    requires name == j.fileName
    ensures var x := "public class " + name + " implements " + InterfaceList(names);
      var e := Superclass(Interface(ClassName(j, name).state, names).state, base);
      e.outcome == Pass && e.state.output[ClassDecl] == x[..|x| - 1] + " extends " + base + " \n{\n"
  {
    ClassValueOfDeclaration(name);
    var x := "public class " + name + " implements " + InterfaceList(names);
    var cls := x + BlockOpen;
    assert ClassValue(cls) == x[..|x| - 1] by {
      assert cls[..|cls| - 4] == x[..|x| - 1];
    }
  }

  /** Adding a parameter to a non-empty list adds exactly ", " and its entry: a separator
      goes between entries and never after the last one. */
  lemma ParameterListAppend(ps: seq<Parameter>, p: Parameter)
    requires ps != []
    ensures ParameterList(ps + [p]) == ParameterList(ps) + ", " + LookupType(p.dataType) + " " + p.name
  {
    assert ParameterDecls(ps + [p]) == ParameterDecls(ps) + [ParameterDecl(p)];
    JoinAppend(ParameterDecls(ps), ParameterDecl(p), ", ");
  }

  /** A generated method returns a value exactly when its translated return type is not
      `void`, and then it returns the type's default. */
  lemma MethodBodyReturns(t: string)
    ensures Contains(MethodBody(t), "return") <==> t != "void"
    ensures t != "void" ==> Contains(MethodBody(t), "return " + DefaultValue(t) + ";")
  {
    if t != "void" {
      var body := MethodBody(t);
      var r := "return " + DefaultValue(t) + ";";
      assert body == "\n\t\t" + r + "\n\t";
      assert OccursAt(body, r, 3);
      assert OccursAt(body, "return", 3);
    }
  }

  /** Turning comments on adds the comment block in front of a member and changes nothing
      else in it. */
  lemma CommentsOnlyPrefix(level: string, returnType: string, name: string, ps: seq<Parameter>,
                           fileName: string, mutable: bool, p: Parameter)
    ensures MethodText(true, level, returnType, name, ps) == Comment + MethodText(false, level, returnType, name, ps)
    ensures ConstructorText(true, fileName, ps) == Comment + ConstructorText(false, fileName, ps)
    ensures VariableText(true, mutable, level, p) == Comment + "\n" + VariableText(false, mutable, level, p)
  {
    assert MethodText(false, level, returnType, name, ps) == MethodDeclaration(level, returnType, name, ps);
    assert ConstructorText(false, fileName, ps) == ConstructorDeclaration(fileName, ps);
    assert VariableText(false, mutable, level, p) == FieldDeclaration(mutable, level, p);
  }

  /** A field declaration is its level, its modifiers and the rest. */
  lemma FieldDeclarationParts(mutable: bool, level: string, p: Parameter)
    ensures FieldDeclaration(mutable, level, p)
      == ("\t" + LookupLevel(level) + " ") + Modifiers(mutable) + (LookupType(p.dataType) + " " + p.name + Initializer(p.value) + ";\n")
  {
  }

  /** A constant's declaration is the class variable's declaration with "static final "
      inserted after the access level, and nothing else different. */
  lemma StaticFinalIffImmutable(level: string, p: Parameter)
    ensures var h := |"\t" + LookupLevel(level) + " "|;
      var constant, variable := FieldDeclaration(false, level, p), FieldDeclaration(true, level, p);
      && constant[..h] == variable[..h]
      && constant[h..h + 13] == "static final "
      && constant[h + 13..] == variable[h..]
  {
    var head := "\t" + LookupLevel(level) + " ";
    var tail := LookupType(p.dataType) + " " + p.name + Initializer(p.value) + ";\n";
    FieldDeclarationParts(false, level, p);
    FieldDeclarationParts(true, level, p);
    var constant := head + "static final " + tail;
    assert constant[..|head|] == head;
    assert constant[|head|..|head| + 13] == "static final ";
    assert constant[|head| + 13..] == tail;
    assert head + "" + tail == head + tail;
  }

  /** A field has an initializer exactly when its value is a non-empty string. */
  lemma InitializerIffValue(mutable: bool, level: string, p: Parameter)
    ensures p.value.Some? && p.value.value != "" ==>
      FieldDeclaration(mutable, level, p) == "\t" + LookupLevel(level) + " " + Modifiers(mutable)
        + LookupType(p.dataType) + " " + p.name + " = " + p.value.value + ";\n"
    ensures p.value.None? || p.value.value == "" ==>
      FieldDeclaration(mutable, level, p) == "\t" + LookupLevel(level) + " " + Modifiers(mutable)
        + LookupType(p.dataType) + " " + p.name + ";\n"
  {
    var w := "\t" + LookupLevel(level) + " " + Modifiers(mutable) + LookupType(p.dataType) + " " + p.name;
    assert FieldDeclaration(mutable, level, p) == w + Initializer(p.value) + ";\n";
    if p.value.Some? && p.value.value != "" {
      assert w + (" = " + p.value.value) == w + " = " + p.value.value;
    } else {
      assert w + "" == w;
    }
  }

  /** The getter `variable` adds for field `p` (comments off): public, named "get" plus the
      capitalized field name, without parameters, returning the field's translated type and
      that type's default. */
  lemma GetterText(p: Parameter)
    ensures var t := LookupType(p.dataType);
      MethodText(false, "PUB", t, GetterName(p.name), [])
        == "\n\t" + "public" + " " + t + " " + ("get" + Capitalize(p.name)) + "(" + ")\n\t" + "{" + MethodBody(t) + "}\n"
  {
    var t := LookupType(p.dataType);
    assert LookupType(t) == t;
    assert ParameterList([]) == "";
    var d := MethodDeclaration("PUB", t, GetterName(p.name), []);
    var open := "\n\t" + "public" + " " + t + " " + GetterName(p.name) + "(";
    assert d == open + "" + ")\n\t" + "{" + MethodBody(t) + "}\n";
    assert open + "" == open;
    assert MethodText(false, "PUB", t, GetterName(p.name), []) == d;
  }

  /** The setter `variable` adds for field `p` (comments off): public, void, named "set" plus
      the capitalized field name, with one parameter `value` of the field's translated type. */
  lemma SetterText(p: Parameter)
    ensures var t := LookupType(p.dataType);
      MethodText(false, "PUB", "void", SetterName(p.name), [Parameter(t, "value", None)])
        == "\n\t" + "public" + " " + "void" + " " + ("set" + Capitalize(p.name)) + "(" + (t + " " + "value") + ")\n\t" + "{" + "\n\n\t" + "}\n"
  {
    var t := LookupType(p.dataType);
    var ps := [Parameter(t, "value", None)];
    assert LookupType(t) == t;
    assert LookupLevel("PUB") == "public" && LookupType("void") == "void" && MethodBody("void") == "\n\n\t";
    var d := MethodDeclaration("PUB", "void", SetterName(p.name), ps);
    assert MethodText(false, "PUB", "void", SetterName(p.name), ps) == "" + d;
    assert "" + d == d;
  }

  /** `variable` writes its accessors to the method section, the getter before the setter,
      each only when asked for. */
  lemma VariableSections(j: JavaState, mutable: bool, getter: bool, setter: bool, level: string, p: Parameter)
    ensures var r := Variable(j, mutable, getter, setter, level, p);
      var t := LookupType(p.dataType);
      Get(r.output, Methods) == Get(j.output, Methods)
        + (if getter then MethodText(j.generateComments, "PUB", t, GetterName(p.name), []) else "")
        + (if setter then MethodText(j.generateComments, "PUB", "void", SetterName(p.name), [Parameter(t, "value", None)]) else "")
  {
    var t := LookupType(p.dataType);
    var g := MethodText(j.generateComments, "PUB", t, GetterName(p.name), []);
    var s := MethodText(j.generateComments, "PUB", "void", SetterName(p.name), [Parameter(t, "value", None)]);
    var withField := Append(j, Fields, VariableText(j.generateComments, mutable, level, p));
    var withGetter := if getter then Method(withField, "PUB", t, GetterName(p.name), []) else withField;
    assert Get(withGetter.output, Methods) == Get(j.output, Methods) + (if getter then g else "");
    var r := Variable(j, mutable, getter, setter, level, p);
    assert Get(r.output, Methods) == Get(withGetter.output, Methods) + (if setter then s else "");
  }

  /** Appending to two different sections can be done in either order. */
  lemma AppendCommute(j: JavaState, k1: Section, s1: string, k2: Section, s2: string)
    requires k1 != k2
    ensures Append(Append(j, k1, s1), k2, s2) == Append(Append(j, k2, s2), k1, s1)
  {
    var a := Append(Append(j, k1, s1), k2, s2).output;
    var b := Append(Append(j, k2, s2), k1, s1).output;
    forall k | k in a
      ensures k in b && a[k] == b[k]
    {
      assert Get(a, k) == Get(b, k);
    }
    assert a == b;
  }

  /** Declarations in different sections commute: the order of constructors and methods in
      the input does not matter to the output. */
  lemma ConstructorMethodCommute(j: JavaState, ps: seq<Parameter>, level: string, returnType: string,
                                 name: string, qs: seq<Parameter>)
    ensures Constructor(Method(j, level, returnType, name, qs), ps) == Method(Constructor(j, ps), level, returnType, name, qs)
  {
    AppendCommute(j, Methods, MethodText(j.generateComments, level, returnType, name, qs),
      Constructors, ConstructorText(j.generateComments, j.fileName, ps));
  }

  /** The file `end` writes: the header, the class declaration, the fields, the constructors
      and the methods, in that order whatever order they were declared in, then "}". */
  lemma EndText(j: JavaState)
    ensures End(j).file.text == Get(j.output, Header) + Get(j.output, ClassDecl) + Get(j.output, Fields)
      + Get(j.output, Constructors) + Get(j.output, Methods) + "}"
  {
    var out := j.output[ClassEnd := "}"];
    assert forall k :: k != ClassEnd ==> Get(out, k) == Get(j.output, k);
  }

  /** Calling `end` again writes the same file and leaves the same state. */
  lemma EndTwice(j: JavaState)
    ensures End(End(j).state) == End(j)
  {
    assert j.output[ClassEnd := "}"][ClassEnd := "}"] == j.output[ClassEnd := "}"];
  }

  /** `end` keeps every section, so after the file is renamed a second `end` writes the same
      text under the new name. */
  lemma RenamedEndRepeatsText(j: JavaState, name: string)
    ensures End(End(j).state.(fileName := name)).file == OutputFile(name + ".java", End(j).file.text)
  {
    assert j.output[ClassEnd := "}"][ClassEnd := "}"] == j.output[ClassEnd := "}"];
  }
}
