/**
 * The Java back end (class `Java` of Generator.py) as values: its lookup tables, the text
 * fragments it renders, its output dictionary, and what each declaration does to that
 * dictionary. The imperative class in module Generator is proved to follow these functions.
 */
module JavaEmitter {
  import opened Common
  import opened Text
  import opened Parameters

  /** The keys of the output dictionary: 'header', 'class', 'variable', 'constructor',
      'method' and 'class_end'. `end` writes them in the order declared here. */
  datatype Section = Header | ClassDecl | Fields | Constructors | Methods | ClassEnd

  const SectionOrder: seq<Section> := [Header, ClassDecl, Fields, Constructors, Methods, ClassEnd]

  type Sections = map<Section, string>

  /** The text of a section, where an absent key reads as empty (`dict.get` tested for truth). */
  function Get(out: Sections, key: Section): string {
    if key in out then out[key] else ""
  }

  /** The state of one emitter: the bound file name, the comment flag and the output dictionary. */
  datatype JavaState = JavaState(fileName: string, generateComments: bool, output: Sections)

  /** The state after a declaration that may raise, and whether it raised. */
  datatype Emitted = Emitted(state: JavaState, outcome: Outcome<ErrorKind>)

  /** A file written by `end`. */
  datatype OutputFile = OutputFile(name: string, text: string)

  datatype Finished = Finished(state: JavaState, file: OutputFile)

  const Types: map<string, string> := map["bool" := "boolean", "str" := "String"]
  const Levels: map<string, string> := map["PUB" := "public", "PRI" := "private", "PRO" := "protected"]
  const NumericTypes: set<string> := {"byte", "short", "int", "float", "double", "long"}

  /** `header_comment()`: the Javadoc block written before the class. */
  const HeaderComment: string := "/**\n *\n */\n"
  /** `comment()`: the indented Javadoc block written before a member. */
  const Comment: string := "\n\t/**\n\t *\n\t */"
  /** The block-open token that ends every class declaration. */
  const BlockOpen: string := "\n{\n"

  /** `lookup_type`: the two Python type names become their Java names; every other name
      passes through unchanged. */
  function LookupType(key: string): (r: string)
    ensures key == "bool" ==> r == "boolean"
    ensures key == "str" ==> r == "String"
    ensures key != "bool" && key != "str" ==> r == key
  {
    if key in Types && Types[key] != "" then Types[key] else key
  }

  /** `lookup_level`: the three access-level codes become Java keywords; an unknown code
      becomes the empty string (it is NOT passed through). */
  function LookupLevel(key: string): (r: string)
    ensures key == "PUB" ==> r == "public"
    ensures key == "PRI" ==> r == "private"
    ensures key == "PRO" ==> r == "protected"
    ensures key != "PUB" && key != "PRI" && key != "PRO" ==> r == ""
  {
    if key in Levels && Levels[key] != "" then Levels[key] else ""
  }

  /** `add_to_output`: an absent or empty section is replaced, a non-empty one extended;
      either way the section ends up as its old text followed by `s`. */
  function AddToOutput(out: Sections, key: Section, s: string): (r: Sections)
    ensures Get(r, key) == Get(out, key) + s
    ensures r.Keys == out.Keys + {key}
    ensures forall k :: k in out && k != key ==> r[k] == out[k]
  {
    if key in out && out[key] != "" then out[key := out[key] + s] else out[key := s]
  }

  /** The class declaration `class_name` writes. */
  function ClassDeclaration(name: string): string {
    "public class " + name + " " + BlockOpen
  }

  /** `class_value`: the class declaration with its last four characters cut off, using
      Python's slice `[0:len - 4]`. */
  function ClassValue(cls: string): (r: string)
    ensures r <= cls
    ensures |cls| >= 4 ==> r + cls[|cls| - 4..] == cls
  {
    PrefixTo(cls, |cls| - 4)
  }

  /** The class declaration `superclass` writes. */
  function Extends(cls: string, name: string): string {
    ClassValue(cls) + " extends " + name + " " + BlockOpen
  }

  /** What `interface` writes after the i-th name: ", " when the FIRST occurrence of that
      name (`args.index`) is not the last position. */
  function SeparatorAfter(names: seq<string>, i: nat): string
    requires i < |names|
  {
    if FirstIndex(names, names[i]) < |names| - 1 then ", " else ""
  }

  /** The list `interface` has built after its first `i` loop iterations. */
  function InterfaceListPrefix(names: seq<string>, i: nat): string
    requires i <= |names|
  {
    if i == 0 then "" else InterfaceListPrefix(names, i - 1) + names[i - 1] + SeparatorAfter(names, i - 1)
  }

  function InterfaceList(names: seq<string>): string {
    InterfaceListPrefix(names, |names|)
  }

  /** The class declaration `interface` writes. Note it ends in the three-character BlockOpen,
      not in " " + BlockOpen as the other two do. */
  function Implements(cls: string, names: seq<string>): string {
    ClassValue(cls) + " implements " + InterfaceList(names) + BlockOpen
  }

  /** One entry of `build_parameter_list`: translated type, space, name. */
  function ParameterDecl(p: Parameter): string {
    LookupType(p.dataType) + " " + p.name
  }

  function ParameterDecls(ps: seq<Parameter>): (r: seq<string>)
    ensures |r| == |ps| && forall i :: 0 <= i < |ps| ==> r[i] == ParameterDecl(ps[i])
  {
    seq(|ps|, i requires 0 <= i < |ps| => ParameterDecl(ps[i]))
  }

  /** `build_parameter_list`. Parameter objects compare by identity in Python and every
      list the code builds holds distinct objects, so `parameters.index(p)` is p's own
      position: the separator goes between entries only. */
  function ParameterList(ps: seq<Parameter>): (r: string)
    ensures r == "" <==> ps == []
    ensures |ps| == 1 ==> r == LookupType(ps[0].dataType) + " " + ps[0].name
  {
    Join(ParameterDecls(ps), ", ")
  }

  /** The `return_value` that `method` picks for a translated return type. */
  function DefaultValue(t: string): (r: string)
    ensures t in NumericTypes ==> r == "0"
    ensures t == "boolean" ==> r == "false"
    ensures t == "char" ==> r == "''"
    ensures t !in NumericTypes && t != "boolean" && t != "char" ==> r == "null"
  {
    if t in NumericTypes then "0"
    else if t == "boolean" then "false"
    else if t == "char" then "''"
    else "null"
  }

  /** The text between the braces of a generated method. */
  function MethodBody(t: string): string {
    if t == "void" then "\n\n\t" else "\n\t\treturn " + DefaultValue(t) + ";\n\t"
  }

  function CommentPrefix(generateComments: bool): string {
    if generateComments then Comment else ""
  }

  /** The declaration `method` appends after the optional comment. */
  function MethodDeclaration(level: string, returnType: string, name: string, ps: seq<Parameter>): string {
    var t := LookupType(returnType);
    "\n\t" + LookupLevel(level) + " " + t + " " + name + "(" + ParameterList(ps) + ")\n\t" + "{" + MethodBody(t) + "}\n"
  }

  /** The fragment `method` appends to the method section. */
  function MethodText(gc: bool, level: string, returnType: string, name: string, ps: seq<Parameter>): string {
    CommentPrefix(gc) + MethodDeclaration(level, returnType, name, ps)
  }

  /** The declaration `constructor` appends: the constructor is named after the bound file. */
  function ConstructorDeclaration(fileName: string, ps: seq<Parameter>): string {
    "\n\tpublic " + fileName + "(" + ParameterList(ps) + ")\n\t" + "{\n\n\t}\n"
  }

  /** The fragment `constructor` appends to the constructor section. */
  function ConstructorText(gc: bool, fileName: string, ps: seq<Parameter>): string {
    CommentPrefix(gc) + ConstructorDeclaration(fileName, ps)
  }

  /** The initializer clause: present only for a value that Python treats as true. */
  function Initializer(value: Option<string>): string {
    if value.Some? && value.value != "" then " = " + value.value else ""
  }

  /** The modifiers of a field: an immutable one is `static final`. */
  function Modifiers(mutable: bool): string {
    if mutable then "" else "static final "
  }

  /** The field declaration `variable` writes after the optional comment. */
  function FieldDeclaration(mutable: bool, level: string, p: Parameter): string {
    "\t" + LookupLevel(level) + " " + Modifiers(mutable) + LookupType(p.dataType) + " " + p.name + Initializer(p.value) + ";\n"
  }

  /** The fragment `variable` appends to the field section; its comment ends in a newline. */
  function VariableText(gc: bool, mutable: bool, level: string, p: Parameter): string {
    (if gc then Comment + "\n" else "") + FieldDeclaration(mutable, level, p)
  }

  function GetterName(name: string): string { "get" + Capitalize(name) }

  function SetterName(name: string): string { "set" + Capitalize(name) }

  /** `class_name`: with comments on, the header is written first; then the name must equal
      the bound file name (ValueError otherwise), and only then is the class declared. */
  function ClassName(j: JavaState, name: string): (e: Emitted)
    ensures e.outcome == (if name == j.fileName then Pass else Fail(ValueError))
    ensures e.state.fileName == j.fileName && e.state.generateComments == j.generateComments
    ensures e.outcome.Fail? ==> (ClassDecl in e.state.output <==> ClassDecl in j.output)
    ensures e.outcome.Fail? && ClassDecl in j.output ==> e.state.output[ClassDecl] == j.output[ClassDecl]
    ensures e.outcome.Pass? ==> ClassDecl in e.state.output && e.state.output[ClassDecl] == "public class " + name + " \n{\n"
    ensures j.generateComments ==> Header in e.state.output && e.state.output[Header] == HeaderComment
    ensures !j.generateComments ==> (Header in e.state.output <==> Header in j.output)
    ensures forall k :: k in j.output && k != ClassDecl && (k != Header || !j.generateComments) ==>
              k in e.state.output && e.state.output[k] == j.output[k]
    ensures forall k :: k in e.state.output && k != ClassDecl && k != Header ==> k in j.output
  {
    var out := if j.generateComments then j.output[Header := HeaderComment] else j.output;
    if name != j.fileName then Emitted(j.(output := out), Fail(ValueError))
    else Emitted(j.(output := out[ClassDecl := ClassDeclaration(name)]), Pass)
  }

  /** `superclass`: rewrites the class declaration; raises KeyError when there is none. */
  function Superclass(j: JavaState, name: string): (e: Emitted)
    ensures e.outcome.Pass? <==> ClassDecl in j.output
    ensures e.outcome.Fail? ==> e == Emitted(j, Fail(KeyError))
    ensures e.outcome.Pass? ==> e.state == j.(output := j.output[ClassDecl := Extends(j.output[ClassDecl], name)])
  {
    if ClassDecl !in j.output then Emitted(j, Fail(KeyError))
    else Emitted(j.(output := j.output[ClassDecl := Extends(j.output[ClassDecl], name)]), Pass)
  }

  /** `interface`: rewrites the class declaration; raises KeyError when there is none. */
  function Interface(j: JavaState, names: seq<string>): (e: Emitted)
    ensures e.outcome.Pass? <==> ClassDecl in j.output
    ensures e.outcome.Fail? ==> e == Emitted(j, Fail(KeyError))
    ensures e.outcome.Pass? ==> e.state == j.(output := j.output[ClassDecl := Implements(j.output[ClassDecl], names)])
  {
    if ClassDecl !in j.output then Emitted(j, Fail(KeyError))
    else Emitted(j.(output := j.output[ClassDecl := Implements(j.output[ClassDecl], names)]), Pass)
  }

  /** The state after appending `s` to one section; everything else is kept. */
  function Append(j: JavaState, key: Section, s: string): (r: JavaState)
    ensures r.fileName == j.fileName && r.generateComments == j.generateComments
    ensures Get(r.output, key) == Get(j.output, key) + s
    ensures forall k :: k != key ==> Get(r.output, k) == Get(j.output, k)
    ensures r.output.Keys == j.output.Keys + {key}
    ensures forall k :: k in j.output && k != key ==> r.output[k] == j.output[k]
  {
    j.(output := AddToOutput(j.output, key, s))
  }

  /** `constructor`: appends one fragment to the constructor section. */
  function Constructor(j: JavaState, ps: seq<Parameter>): (r: JavaState)
    ensures r.fileName == j.fileName && r.generateComments == j.generateComments
    ensures Get(r.output, Constructors) == Get(j.output, Constructors) + ConstructorText(j.generateComments, j.fileName, ps)
    ensures forall k :: k != Constructors ==> Get(r.output, k) == Get(j.output, k)
    ensures r.output.Keys == j.output.Keys + {Constructors}
    ensures forall k :: k in j.output && k != Constructors ==> r.output[k] == j.output[k]
  {
    Append(j, Constructors, ConstructorText(j.generateComments, j.fileName, ps))
  }

  /** `method`: appends one fragment to the method section. */
  function Method(j: JavaState, level: string, returnType: string, name: string, ps: seq<Parameter>): (r: JavaState)
    ensures r.fileName == j.fileName && r.generateComments == j.generateComments
    ensures Get(r.output, Methods) == Get(j.output, Methods) + MethodText(j.generateComments, level, returnType, name, ps)
    ensures forall k :: k != Methods ==> Get(r.output, k) == Get(j.output, k)
    ensures r.output.Keys == j.output.Keys + {Methods}
    ensures forall k :: k in j.output && k != Methods ==> r.output[k] == j.output[k]
  {
    Append(j, Methods, MethodText(j.generateComments, level, returnType, name, ps))
  }

  /** `variable`: appends the field, then the getter, then the setter. The field is the only
      change outside the method section (what it adds there is JavaProperties.VariableSections). */
  function Variable(j: JavaState, mutable: bool, getter: bool, setter: bool, level: string, p: Parameter): (r: JavaState)
    ensures r.fileName == j.fileName && r.generateComments == j.generateComments
    ensures Get(r.output, Fields) == Get(j.output, Fields) + VariableText(j.generateComments, mutable, level, p)
    ensures forall k :: k != Fields && k != Methods ==> Get(r.output, k) == Get(j.output, k)
    ensures j.output.Keys + {Fields} <= r.output.Keys <= j.output.Keys + {Fields, Methods}
    ensures forall k :: k in j.output && k != Fields && k != Methods ==> r.output[k] == j.output[k]
  {
    var withField := Append(j, Fields, VariableText(j.generateComments, mutable, level, p));
    AddAccessors(withField, getter, setter, LookupType(p.dataType), p.name)
  }

  /** The getter, then the setter, of a field of Java type `t`: both go to the method section. */
  function AddAccessors(j: JavaState, getter: bool, setter: bool, t: string, name: string): (r: JavaState)
    ensures r.fileName == j.fileName && r.generateComments == j.generateComments
    ensures forall k :: k != Methods ==> Get(r.output, k) == Get(j.output, k)
    ensures j.output.Keys <= r.output.Keys <= j.output.Keys + {Methods}
    ensures forall k :: k in j.output && k != Methods ==> r.output[k] == j.output[k]
  {
    var withGetter := if getter then Method(j, "PUB", t, GetterName(name), []) else j;
    if setter then Method(withGetter, "PUB", "void", SetterName(name), [Parameter(t, "value", None)])
    else withGetter
  }

  function RenderSections(out: Sections, keys: seq<Section>): string {
    if keys == [] then "" else Get(out, keys[0]) + RenderSections(out, keys[1..])
  }

  /** The text `end` writes: every section in the fixed order header, class, fields,
      constructors, methods, class end; absent or empty ones add nothing. */
  function Render(out: Sections): (r: string)
    ensures r == Get(out, Header) + Get(out, ClassDecl) + Get(out, Fields)
      + Get(out, Constructors) + Get(out, Methods) + Get(out, ClassEnd)
  {
    var o := SectionOrder;
    assert o[5..] == [ClassEnd] && o[5..][1..] == [];
    assert RenderSections(out, o[5..]) == Get(out, ClassEnd);
    assert o[4..] == [Methods] + o[5..];
    assert RenderSections(out, o[4..]) == Get(out, Methods) + Get(out, ClassEnd);
    assert o[3..] == [Constructors] + o[4..];
    assert RenderSections(out, o[3..]) == Get(out, Constructors) + RenderSections(out, o[4..]);
    assert o[2..] == [Fields] + o[3..];
    assert RenderSections(out, o[2..]) == Get(out, Fields) + RenderSections(out, o[3..]);
    assert o[1..] == [ClassDecl] + o[2..];
    assert RenderSections(out, o[1..]) == Get(out, ClassDecl) + RenderSections(out, o[2..]);
    RenderSections(out, o)
  }

  /** `end`: sets the terminator to "}" and writes `<file name>.java`. */
  function End(j: JavaState): (f: Finished)
    ensures f.state == j.(output := j.output[ClassEnd := "}"])
    ensures f.file.name == j.fileName + ".java"
  {
    var out := j.output[ClassEnd := "}"];
    Finished(j.(output := out), OutputFile(j.fileName + ".java", Render(out)))
  }
}
