# Basic Code Generator: a verified model

Basic Code Generator reads a small line-oriented command language and writes a Java class
skeleton. Each input line is split on whitespace and its first token selects a command:

- `JAVA <file> [GC]` binds the Java generator, names the output file, and can turn comments on.
- `C <name>` declares the class.
- `S <name>` declares a superclass.
- `I <a,b,...>` declares interfaces.
- `CV <type> <name> [G|S|GS|SG]` declares a class variable, optionally with a getter and/or setter.
- `CT <type> <name> <value>` declares a constant.
- `CR [type:name,...]` declares a constructor.
- `M <level> <type> <name> [type:name,...]` declares a method.
- `E` writes `<file>.java`.

The `Java` generator keeps a dictionary of text sections (header, class, variable,
constructor, method, class end). Each declaration either appends a fragment to one section
or rewrites the class declaration. `end` writes the sections in that fixed order.

The project has the following modules:

- **Common**: option, outcome and result types, plus the Python exception classes the code raises.
- **Parameters**: the `Parameter` record.
- **Text**: the Python string built-ins the code relies on, restricted to ASCII:
  - `str.split()` and `str.split(sep)`;
  - `str.capitalize`;
  - slicing with a negative end;
  - `list.index`.
- **JavaEmitter**: the generator as values, in three parts:
  - the lookup tables and the fragments it renders;
  - a `JavaState` (file name, comment flag, section dictionary);
  - one function per declaration giving the new state, and, where the code raises, the exception.
- **Generator**: the `Java` class itself. Its fields are updated in place. Each method is proved
  to leave the object in the state the matching JavaEmitter function gives, and the accumulator
  loops of `interface` and `build_parameter_list` are proved against their specifications.
- **Interpreter**: the `Parser` as a state machine over the current line number, whether a
  generator is bound, and the generator's state:
  - a `Step` per line;
  - a `Run` over the lines of a file, which stops at the first line that raises.
- **Parser**: the `Parser` class itself, whose methods and `parse_file` loop are proved to do
  what `Step` and `Run` describe. The generator object is shared by every parser, as the
  class attribute is in the code.
- **JavaProperties**, **InterpreterProperties**: what the two components promise across all inputs.
- **CommentProperties**: what `GC` changes in a whole run. The same input, opened with and
  without `GC`, raises the same errors on the same lines. Each commented file is the plain one
  with a comment block in front of every field, constructor and method, and with the header
  comment whenever a class is declared.
- **Scenarios**: whole input files run from a fresh parser, and the files they produce.

Three behaviours of the code shape the model:

- `CV` always declares a mutable field: both of its calls to `variable` pass `True`
  (Parser.py:159, Parser.py:176). Only `CT` declares a `static final` field, through `constant`
  (Generator.py:209, Generator.py:228).
- An access level other than PUB, PRI or PRO becomes the empty string (Generator.py:289-291).
- There is one `Java` generator, a class attribute of `Parser` (Parser.py:7), and every language
  command binds that same object (Parser.py:85, Parser.py:89). A second `JAVA` command changes the
  file name and keeps every section written so far. So the second file keeps the first class's
  header, fields, constructors and methods, and keeps its declaration unless a new `C` line
  follows (`class_name` overwrites the declaration, Generator.py:118). A `JAVA` command without
  `GC` does not turn comments off once an earlier one turned them on (Parser.py:84-86).

## Model

| member | source | states |
|---|---|---|
| Text.SplitWhitespace | Parser.py:25 | every token is a non-empty run of non-whitespace; the list is empty exactly when the line is all whitespace; which runs they are is stated by SplitWhitespaceGaps and SplitWhitespaceSpaced |
| Text.SplitWhitespaceJoin | Parser.py:25 | splitting words joined by single spaces gives back the words |
| Text.SplitWhitespaceGaps | Parser.py:24-25 | every line, trailing newline included, is its tokens laid out with whitespace gaps, non-empty between two tokens: the tokens are the line's maximal non-whitespace runs, in order |
| Text.SplitWhitespaceSpaced | Parser.py:24-25 | words laid out with any whitespace gaps (runs of spaces or tabs, a trailing newline) split back into exactly those words |
| Text.Split | Parser.py:245-248 | `str.split(sep)`: at least one piece, no piece holds the separator, a single piece exactly when the separator does not occur |
| Text.SplitJoin | Parser.py:245 | joining the pieces with the separator rebuilds the string |
| Text.JoinSplit | Parser.py:245 | splitting a join of separator-free pieces gives back those pieces |
| Text.SplitAtSeparator | Parser.py:248 | splitting at a first separator gives the text before it, then the split of the rest |
| Text.Capitalize | Generator.py:232-234 | `str.capitalize`: same length, first letter upper-cased, every later letter lower-cased |
| Text.PrefixTo | Generator.py:152 | Python slice `[0:end]`: a prefix of the string whose length follows Python's rules for negative and out-of-range ends |
| Text.FirstIndex | Generator.py:141 | `list.index`: the position of the first occurrence |
| JavaEmitter.LookupType | Generator.py:271-280 | `bool` becomes `boolean`, `str` becomes `String`, every other type is unchanged |
| JavaEmitter.LookupLevel | Generator.py:282-291 | PUB/PRI/PRO become public/private/protected; any other level becomes the empty string |
| JavaEmitter.AddToOutput | Generator.py:257-269 | the section becomes its old text (empty if absent) followed by the fragment; no other section changes |
| JavaEmitter.ClassValue | Generator.py:145-153 | the declaration less its last four characters, which it is a prefix of |
| JavaEmitter.DefaultValue | Generator.py:181-188 | `0` for the six numeric types, `false` for boolean, `''` for char, `null` otherwise |
| JavaEmitter.ParameterDecls | Generator.py:301-303 | one `type name` entry per parameter, with the type translated |
| JavaEmitter.ParameterList | Generator.py:293-308 | empty exactly when there are no parameters; a single parameter gives `type name` with the type translated, and no separator |
| JavaEmitter.InterfaceListPrefix | Generator.py:139-142 | the text the `interface` loop has built after i names; its contract is stated by JavaProperties.InterfaceListPrefixDistinct and RepeatedLastInterfaceDangles |
| JavaEmitter.InterfaceList | Generator.py:139-142 | the whole list `interface` builds; its contract is stated by JavaProperties.InterfaceListDistinct |
| JavaEmitter.Extends | Generator.py:127-128 | the declaration `superclass` writes; its contract is stated by JavaProperties.SuperclassAfterClassName and SuperclassAfterInterfacesDropsCharacter |
| JavaEmitter.Implements | Generator.py:137-143 | the declaration `interface` writes; its contract is stated by JavaProperties.InterfacesAfterClassName |
| JavaEmitter.MethodDeclaration | Generator.py:195-197 | a method without its comment; its contract is stated by JavaProperties.MethodBodyReturns, GetterText and SetterText |
| JavaEmitter.ConstructorDeclaration | Generator.py:165 | a constructor without its comment, named after the file; its contract is stated by JavaEmitter.Constructor and JavaProperties.CommentsOnlyPrefix |
| JavaEmitter.FieldDeclaration | Generator.py:228-229 | a field without its comment; its contract is stated by JavaProperties.StaticFinalIffImmutable and InitializerIffValue |
| JavaEmitter.ClassName | Generator.py:107-118 | raises ValueError exactly when the name is not the file name, leaving the class declaration as it was; on success the declaration is `public class <name> \n{\n`; with comments on the header is written even when it raises |
| JavaEmitter.Superclass | Generator.py:120-153 | raises KeyError exactly when no class is declared, changing nothing; otherwise only the class declaration changes, to the cut declaration plus ` extends <name> \n{\n` |
| JavaEmitter.Interface | Generator.py:130-153 | raises KeyError exactly when no class is declared, changing nothing; otherwise only the class declaration changes, to the cut declaration plus ` implements `, the list and `\n{\n` |
| JavaEmitter.Append | Generator.py:257-269 | one section grows by the fragment, the others and the file name and flag are unchanged |
| JavaEmitter.Constructor | Generator.py:155-166 | only the constructor section changes: it gains the constructor named after the file with the parameter list; no other section is created or removed |
| JavaEmitter.Method | Generator.py:168-199 | only the method section changes: it gains exactly one method fragment; no other section is created or removed |
| JavaEmitter.Variable | Generator.py:211-234 | the field section gains the field, after its comment block when comments are on; only the field and method sections change, and no other section is created or removed; what the method section gains is JavaProperties.VariableSections |
| JavaEmitter.AddAccessors | Generator.py:231-234 | the getter and the setter touch only the method section: every other section keeps its text, and the only section that can be created is the method section |
| JavaEmitter.End | Generator.py:236-241 | the class end becomes `}` and the file is named `<file name>.java` |
| JavaEmitter.Render | Generator.py:242-253 | the text is header, class, fields, constructors, methods, class end, in that order, absent sections adding nothing |
| Generator.Java.constructor | Generator.py:80-87 | a new generator has the given file name and comment flag and an empty dictionary |
| Generator.Java.AddToOutput | Generator.py:257-269 | the dictionary afterwards is the one `AddToOutput` gives |
| Generator.Java.BuildParameterList | Generator.py:293-308 | the accumulator loop yields the entries joined by `, `; an empty list gives the empty string |
| Generator.Java.ClassName | Generator.py:107-118 | new state and raised exception are those `JavaEmitter.ClassName` gives |
| Generator.Java.Superclass | Generator.py:120-128 | new state and raised exception are those `JavaEmitter.Superclass` gives |
| Generator.Java.Interface | Generator.py:130-143 | the loop over the names leaves the state and raises the exception `JavaEmitter.Interface` gives |
| Generator.Java.Constructor | Generator.py:155-166 | new state is the one `JavaEmitter.Constructor` gives |
| Generator.Java.Method | Generator.py:168-199 | new state is the one `JavaEmitter.Method` gives |
| Generator.Java.Constant | Generator.py:201-209 | new state is that of an immutable variable without accessors |
| Generator.Java.Variable | Generator.py:211-234 | new state is the one `JavaEmitter.Variable` gives: the field, then getter, then setter |
| Generator.Java.End | Generator.py:236-253 | the state and the written file are those `JavaEmitter.End` gives |
| JavaProperties.ClassValueOfDeclaration | Generator.py:118-152 | cutting a fresh class declaration leaves `public class <name>` |
| JavaProperties.SuperclassAfterClassName | Generator.py:118-128 | a superclass right after the class gives `public class N extends S \n{\n` |
| JavaProperties.InterfaceListPrefixDistinct | Generator.py:139-142 | with distinct names, after i iterations the list is the first i names joined by `, `, plus `, ` unless all are done |
| JavaProperties.InterfaceListDistinct | Generator.py:139-142 | distinct names are listed joined by `, ` with no stray separator |
| JavaProperties.RepeatedLastInterfaceDangles | Generator.py:141 | when the last name also occurs earlier, the list ends in a dangling `, ` |
| JavaProperties.InterfacesAfterClassName | Generator.py:118-143 | interfaces right after the class give `public class N implements a, b\n{\n` |
| JavaProperties.SuperclassAfterInterfacesDropsCharacter | Generator.py:127-152 | a superclass after interfaces loses the last character of the interface list |
| JavaProperties.ParameterListAppend | Generator.py:301-306 | adding a parameter adds exactly `, ` and its entry: no leading or trailing separator |
| JavaProperties.MethodBodyReturns | Generator.py:180-197 | the body has a return statement exactly when the type is not void, and it returns the type's default |
| JavaProperties.CommentsOnlyPrefix | Generator.py:163-227 | comments on only put the comment block in front of a method, constructor or field |
| JavaProperties.StaticFinalIffImmutable | Generator.py:228 | an immutable field's declaration is a mutable one with `static final ` inserted after the level |
| JavaProperties.InitializerIffValue | Generator.py:229 | ` = value` is written exactly when the value is a non-empty string |
| JavaProperties.GetterText | Generator.py:231-232 | the getter is public, named `get` plus the capitalized name, without parameters, returning the field's translated type |
| JavaProperties.SetterText | Generator.py:233-234 | the setter is public void, named `set` plus the capitalized name, with one parameter `value` of the field's type |
| JavaProperties.VariableSections | Generator.py:231-234 | the method section gains the getter, then the setter, each only when asked for |
| JavaProperties.AppendCommute | Generator.py:257-269 | appending to two different sections commutes |
| JavaProperties.ConstructorMethodCommute | Generator.py:155-199 | declaring a constructor and a method in either order gives the same state |
| JavaProperties.EndText | Generator.py:240-253 | the file is header, class, fields, constructors, methods, then `}`, whatever order they were declared in |
| JavaProperties.EndTwice | Generator.py:236-253 | a second `end` writes the same file and leaves the same state |
| JavaProperties.RenamedEndRepeatsText | Generator.py:236-253 | after a rename, `end` writes the same text again under the new name |
| Interpreter.ParsePiece | Parser.py:248-249 | an element yields a parameter exactly when it holds `:`, otherwise IndexError |
| Interpreter.ParsePieces | Parser.py:246-249 | succeeds exactly when every element holds `:`, giving one parameter per element in order |
| Interpreter.ParsePiecesUnique | Parser.py:246-249 | a list whose every element parses to the matching parameter is the result |
| Interpreter.ParseParameters | Parser.py:238-251 | one parameter per comma-separated element, type before the first `:` and name the second piece; IndexError when an element has no `:` |
| Interpreter.Accessors | Parser.py:162-175 | G gives getter only, S setter only, GS and SG both, anything else nothing |
| Interpreter.LanguageCommand | Parser.py:73-94 | passes exactly with 2 tokens, or 3 ending in GC; then binds the generator, sets the file name and turns comments on only with GC; otherwise TypeError citing the line |
| Interpreter.ClassCommand | Parser.py:96-111 | exactly 2 tokens or TypeError; with no generator AttributeError; else `class_name` |
| Interpreter.SuperclassCommand | Parser.py:113-128 | exactly 2 tokens or TypeError; with no generator AttributeError; else `superclass` |
| Interpreter.InterfaceCommand | Parser.py:130-145 | exactly 2 tokens or TypeError; else `interface` on the comma-separated pieces in order |
| Interpreter.ClassVariableCommand | Parser.py:147-180 | 3 tokens give a plain public mutable field, 4 give the accessors the letters select; bad letters, or fewer than 3 or more than 4 tokens, give TypeError |
| Interpreter.ConstantCommand | Parser.py:182-197 | exactly 4 tokens give a public constant with the value; otherwise TypeError |
| Interpreter.ConstructorCommand | Parser.py:199-215 | 1 token gives a constructor without parameters, 2 parse the list, more give TypeError |
| Interpreter.MethodCommand | Parser.py:217-236 | 4 tokens give a method without parameters, 5 parse the list, fewer than 4 or more than 5 give TypeError |
| Interpreter.EndCommand | Parser.py:63-65 | with a generator, writes its file with no token check; without one, AttributeError |
| Interpreter.Dispatch | Parser.py:31-69 | an unknown command is a TypeError citing the line; only `E` writes a file, one at a time, and only when it passes |
| Interpreter.Step | Parser.py:24-71 | a blank line is a TypeError without a line; an unknown command cites the line; the line number rises by exactly one after a line that passes and stays after one that raises, and a line that raises writes no file |
| Interpreter.Run | Parser.py:19-71 | a run that raises nothing ends on the line after the last; one that raises ends on one of its lines; it writes at most one file per line (what precedes a failure is InterpreterProperties.RunStopsAtFailure) |
| Parser.Parser.constructor | Parser.py:9-17 | a new parser is on line 1 with no generator bound |
| Parser.Parser.ParseFile | Parser.py:19-71 | the loop over the lines produces the files, the outcome and the final state `Run` gives |
| Parser.Parser.ParseLine | Parser.py:24-71 | one loop turn does what `Step` gives |
| Parser.Parser.Dispatch | Parser.py:31-69 | the command chain does what `Interpreter.Dispatch` gives |
| Parser.Parser.LanguageCommand | Parser.py:73-94 | does what `Interpreter.LanguageCommand` gives |
| Parser.Parser.ClassCommand | Parser.py:96-111 | does what `Interpreter.ClassCommand` gives |
| Parser.Parser.SuperclassCommand | Parser.py:113-128 | does what `Interpreter.SuperclassCommand` gives |
| Parser.Parser.InterfaceCommand | Parser.py:130-145 | does what `Interpreter.InterfaceCommand` gives |
| Parser.Parser.ClassVariableCommand | Parser.py:147-180 | does what `Interpreter.ClassVariableCommand` gives |
| Parser.Parser.ConstantCommand | Parser.py:182-197 | does what `Interpreter.ConstantCommand` gives |
| Parser.Parser.ConstructorCommand | Parser.py:199-215 | does what `Interpreter.ConstructorCommand` gives |
| Parser.Parser.MethodCommand | Parser.py:217-236 | does what `Interpreter.MethodCommand` gives |
| Parser.Parser.GenerateParameterList | Parser.py:238-251 | the loop appending one parameter per element returns what `ParseParameters` gives, IndexError included |
| InterpreterProperties.DispatchCitesLineIffMalformed | Parser.py:31-236 | a command raises an error citing the line exactly when its token count or options are not accepted, and that error is a TypeError |
| InterpreterProperties.LineNumberedErrorIffMalformed | Parser.py:24-71 | a line raises an error citing its number exactly when it has tokens that do not form an accepted command |
| InterpreterProperties.NothingBeforeLanguage | Parser.py:17-65 | before a language command only a language command line can pass |
| InterpreterProperties.RunStopsAtFailure | Parser.py:24-71 | a run that raises stops at some line k: all earlier lines passed, the state is what line k left, and a cited line is line k's own number |
| InterpreterProperties.ParameterSource | Parser.py:245-249 | writes each parameter as `type:name` |
| InterpreterProperties.ParseParametersRoundTrip | Parser.py:238-251 | reading back a written parameter list gives the parameters |
| InterpreterProperties.ExtraColonPiecesIgnored | Parser.py:248-249 | further `:` pieces of an element are ignored |
| CommentProperties.InterleavedAppend | Generator.py:257-269 | appending a fragment to a section, and the fragment after its comment block to the commented section, keeps the two sections interleaved |
| CommentProperties.FreshCommentsOnly | Parser.py:84-91 | a freshly bound generator with comments on is related to the same one with comments off |
| CommentProperties.ClassNameCommentsOnly | Generator.py:114-118 | `class_name` raises the same way with comments on and off; only the header comment differs afterwards |
| CommentProperties.SuperclassCommentsOnly | Generator.py:127-128 | `superclass` raises the same way with comments on and off, and writes the same declaration |
| CommentProperties.InterfaceCommentsOnly | Generator.py:137-143 | `interface` raises the same way with comments on and off, and writes the same declaration |
| CommentProperties.ConstructorCommentsOnly | Generator.py:162-166 | with comments on, a constructor adds the same text after a comment block |
| CommentProperties.MethodCommentsOnly | Generator.py:191-199 | with comments on, a method adds the same text after a comment block |
| CommentProperties.VariableCommentsOnly | Generator.py:224-234 | with comments on, the field and each accessor add the same text after their comment blocks |
| CommentProperties.EndCommentsOnly | Generator.py:236-253 | `end` writes files of the same name whose texts differ only by the comments |
| CommentProperties.DispatchCommentsOnly | Parser.py:31-69 | every command other than a language command with `GC` raises the same way with comments on and off, and keeps the generators related |
| CommentProperties.StepCommentsOnly | Parser.py:24-71 | one line gives the same outcome and line number with comments on and off, and related files |
| CommentProperties.RunCommentsOnly | Parser.py:19-71 | the same lines, run on two related parsers, give the same outcome and line and pairwise related files |
| CommentProperties.CommentsAddOnlyComments | Parser.py:19-94 | an input opened with `JAVA <name> GC` and the same input opened with `JAVA <name>` raise the same errors on the same lines, and the commented files are the plain ones with comment blocks added, and with the header comment whenever a class is declared (CommentsOnly) |
| Scenarios.ClassWithFieldAndMethod | Parser.py:19-71 | `JAVA Foo`, `C Foo`, `CV int count`, `M PUB void run`, `E` writes Foo.java with the declaration, the mutable field, the void method and `}` |
| Scenarios.CommentedClassWithSuperclassAndInterfaces | Parser.py:19-71 | with `GC`, `S Base` and `I Runnable,Closeable`, the file starts with the header comment and declares `extends Base implements Runnable, Closeable` |
| Scenarios.MissingFieldNameStopsAtLine3 | Parser.py:155-156 | `CV int` on line 3 stops the run with a TypeError citing line 3, and no file is written |
| Scenarios.ClassBeforeLanguage | Parser.py:17-108 | a class line before any language command raises AttributeError |
| Scenarios.SecondLanguageCommandKeepsSections | Parser.py:7-86 | after `JAVA A`, `C A`, `E`, a later `JAVA B` and `E` write B.java with class A's text again |
| Scenarios.EndThenRenameThenEnd | Parser.py:64-86 | `E`, `JAVA B`, `E` writes the current file, then the same text as `B.java` |

## Left out

- File I/O: `end` returns the file it would write instead of opening it. `parse_file` takes the
  lines of the input instead of opening a file, and `main` with its `argv` handling is not modelled.
- `print` calls and the `__main__` demonstration blocks.
- The abstract `Generator`/`ObjectOriented` base classes and their property accessors: only
  `Java` has behaviour, and the accessors are plain field reads and writes here.
- The `isinstance` checks of `Parameter`: the types make them hold by construction.
- Exception messages: an error keeps only its exception class and, where the message has one,
  the line number.
- The shared generator is created once by the caller and handed to each parser, because a
  class attribute holding a mutable object has no direct counterpart here.
- Text.SplitWhitespace: treats only ASCII whitespace as a separator, not the full Unicode set `str.split()` uses.
- Text.Capitalize: changes the case of ASCII letters only, not the full Unicode `str.capitalize`.
- CommentProperties.CommentsAddOnlyComments: assumes no later line is a language command with
  `GC`. Such a line turns comments on in the plain run as well, so the two runs would no longer differ by comments alone.
- JavaEmitter.ParameterList: joins the entries by position instead of testing `list.index`. On
  `Parameter` objects `list.index` compares by identity, and every list the code builds holds
  distinct objects, so the separator test always sees the entry's own position.
- Generator.Java.BuildParameterList: its loop tests the position `i < |parameters| - 1` instead of
  `parameters.index(parameter)`, for the same reason.
