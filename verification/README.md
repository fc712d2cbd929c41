# Cyclomatic complexity and public-elements visitors, modelled in Dafny

This project models two JavaParser visitors and the driver that runs the first one.

**Cyclomatic complexity analysis.** `CyclomaticComplexityVisitor` keeps one shared counter. Entering a method declaration resets the counter to 1. Each `if`, `for`, `while`, for-each, `switch` and `do` statement adds 1 after its children have been visited, and so does each `catch` clause. When the method has been walked, a `MethodInfo` row is stored in a map keyed by the method's simple name. The row holds the current package, the nearest enclosing class, the name, the parameter types joined by `", "` and the counter's value.

The driver walks every compilation unit. It sets the package first, using `""` when the unit declares none, and then visits every method declaration the unit holds. Finally it writes the map as CSV: a header, then one row per stored `MethodInfo`.

Two behaviours of the code are kept exactly as they are:

- **The counter is shared.** A method nested in a local or anonymous class resets the counter of the method that encloses it. Whatever the outer method counted before the nested one is lost.
- **Rows are keyed by name alone.** Methods that share a name overwrite one another, including overloads and methods of different classes.

**Public elements.** `PublicElementsPrinter` handles two kinds of declaration:

- **A public class or interface.** It collects the names of the private fields and the lower-cased suffixes of the public `get*` methods. It then writes one report line for each private field without a matching getter.
- **A public enum.** It prints the enum's qualified name on standard output. Then it prints the indented declaration of each public method, then what its nested types produce.

## Structure

- `syntax.dfy` (module `Syntax`): the parsed syntax tree. This covers compilation units, type declarations, members, statements, catch clauses and the kinds of control statement. It also defines `SitesInUnit`, the methods `findAll(MethodDeclaration.class)` returns (in preorder, each with its nearest enclosing class).
- `complexity.dfy` (module `CyclomaticComplexity`):
  - the class `CyclomaticComplexityVisitor`, with the fields `complexity`, `currentPackage` and `methodComplexityMap`;
  - the functions `AfterMethod`, `AfterStmts`, …, which give the visitor's state after a visit as a function of its state before;
  - an independent count of the control constructs (`CountStmts`, …);
  - the lemmas that relate them.
- `public_elements.dfy` (module `PublicElements`):
  - the class `PublicElementsPrinter`, with two line logs: `written` (the report file) and `stdout`;
  - the functions `UnitReport` and `UnitListing`, which say what a visit appends to each log;
  - the lemmas that characterise the encapsulation check and the enum listing.
- `driver.dfy` (module `Driver`):
  - the per-unit loop (`AnalyzeUnits`);
  - the CSV header and row format (`Header`, `Row`);
  - `WriteReport`;
  - a row parser proved to invert `Row`.

## Model

Paths are below `code/`. V is `Exercise5/javaparser-starter/src/main/java/fr/istic/vv/CyclomaticComplexityVisitor.java`, M is `Exercise5/javaparser-starter/src/main/java/fr/istic/vv/Main.java`, and P is `Exercise4/javaparser-starter/src/main/java/fr/istic/vv/PublicElementsPrinter.java`. The source column spells them out.

| member | source | states |
|---|---|---|
| CyclomaticComplexity.JoinTypesInOrder | code/Exercise5/javaparser-starter/src/main/java/fr/istic/vv/CyclomaticComplexityVisitor.java:38-41 | The left fold `reduce((a, b) -> a + ", " + b)` equals the first type followed by each further type preceded by `", "`, in declaration order |
| CyclomaticComplexity.ParameterTypes | code/Exercise5/javaparser-starter/src/main/java/fr/istic/vv/CyclomaticComplexityVisitor.java:38-41 | No parameters gives `"No parameters"`; otherwise the type strings are joined by `", "` in order |
| CyclomaticComplexity.RecordedComplexity | code/Exercise5/javaparser-starter/src/main/java/fr/istic/vv/CyclomaticComplexityVisitor.java:33-89 | For a method whose body declares no further method, the stored row is `(package, enclosing class or "No class", name, parameter types, 1 + number of if/for/while/for-each/switch/do statements and catch clauses in the body)`; it is stored under the method's name and the other rows are untouched |
| CyclomaticComplexity.CounterAddsStmts | code/Exercise5/javaparser-starter/src/main/java/fr/istic/vv/CyclomaticComplexityVisitor.java:49-89 | Walking statements that declare no method adds exactly their number of counted constructs to the counter and leaves the table unchanged |
| CyclomaticComplexity.CounterAddsStmt | code/Exercise5/javaparser-starter/src/main/java/fr/istic/vv/CyclomaticComplexityVisitor.java:49-89 | The same for one statement: each counting overload increments after visiting its children, and try blocks and other nodes only pass through |
| CyclomaticComplexity.SwitchAddsOne | code/Exercise5/javaparser-starter/src/main/java/fr/istic/vv/CyclomaticComplexityVisitor.java:73-77 | A switch adds 1 in total, whatever number of cases it has, plus what its cases contain; a switch with no nested constructs adds exactly 1 |
| CyclomaticComplexity.GrowsMethod | code/Exercise5/javaparser-starter/src/main/java/fr/istic/vv/CyclomaticComplexityVisitor.java:33-46 | Visiting a method never removes a key. Each row is either kept or has the current package, its own key as method name and a complexity of at least 1. The counter ends at 1 or more |
| CyclomaticComplexity.MethodRowRecorded | code/Exercise5/javaparser-starter/src/main/java/fr/istic/vv/CyclomaticComplexityVisitor.java:37-45 | After visiting a method, its name is a key and the row under it names that method, the current package, the enclosing class and its parameter types |
| CyclomaticComplexity.SameNameOverwrites | code/Exercise5/javaparser-starter/src/main/java/fr/istic/vv/CyclomaticComplexityVisitor.java:45 | Of two methods visited in turn with the same name (overloads, or methods of different classes), only the second one's row remains under that name. That row, complexity included, equals the row the second visit stores when the first never happened, so the first visit leaves no trace in it |
| CyclomaticComplexity.ResetForgetsStmts | code/Exercise5/javaparser-starter/src/main/java/fr/istic/vv/CyclomaticComplexityVisitor.java:34 | Once a walked subtree declares a method, the final counter no longer depends on its value before the walk: the nested method's reset discards it |
| CyclomaticComplexity.CountLostBeforeNestedMethod | code/Exercise5/javaparser-starter/src/main/java/fr/istic/vv/CyclomaticComplexityVisitor.java:33-35 | When the last statement that declares a nested method is `s`, the outer method's recorded complexity is what walking `s` leaves from any starting state, plus the constructs after `s`; the constructs before `s` are lost |
| CyclomaticComplexity.NestedMethodExample | code/Exercise5/javaparser-starter/src/main/java/fr/istic/vv/CyclomaticComplexityVisitor.java:33-46 | A concrete method with two `if`s, then a local class with a method, then a `for` is recorded with complexity 2, not 4 |
| CyclomaticComplexity.CyclomaticComplexityVisitor.constructor | code/Exercise5/javaparser-starter/src/main/java/fr/istic/vv/CyclomaticComplexityVisitor.java:19-25 | The counter starts at 1 and the table starts empty |
| CyclomaticComplexity.CyclomaticComplexityVisitor.SetCurrentPackage | code/Exercise5/javaparser-starter/src/main/java/fr/istic/vv/CyclomaticComplexityVisitor.java:91-93 | Sets the package and leaves the counter and the table unchanged |
| CyclomaticComplexity.CyclomaticComplexityVisitor.GetMethodComplexityMap | code/Exercise5/javaparser-starter/src/main/java/fr/istic/vv/CyclomaticComplexityVisitor.java:95-97 | Returns the table |
| CyclomaticComplexity.CyclomaticComplexityVisitor.VisitMethod | code/Exercise5/javaparser-starter/src/main/java/fr/istic/vv/CyclomaticComplexityVisitor.java:33-46 | The new counter and table are `AfterMethod` of the old ones: reset, walk the body, store the row under the name. It keeps the invariant that every row has its key as method name and a complexity of at least 1 |
| CyclomaticComplexity.CyclomaticComplexityVisitor.VisitStmt | code/Exercise5/javaparser-starter/src/main/java/fr/istic/vv/CyclomaticComplexityVisitor.java:49-83 | The new state is `AfterStmt` of the old one: each control statement visits its children, then increments |
| CyclomaticComplexity.CyclomaticComplexityVisitor.VisitCatches | code/Exercise5/javaparser-starter/src/main/java/fr/istic/vv/CyclomaticComplexityVisitor.java:85-89 | Each catch clause visits its body, then increments |
| PublicElements.ToLower | code/Exercise4/javaparser-starter/src/main/java/fr/istic/vv/PublicElementsPrinter.java:81 | Keeps the length, maps each character through `LowerChar`, and leaves no upper-case letter |
| PublicElements.GetterSuffix | code/Exercise4/javaparser-starter/src/main/java/fr/istic/vv/PublicElementsPrinter.java:81 | The text after `get`, lower-cased: three characters shorter than the name, with no upper-case letter |
| PublicElements.PrivateFieldsDeclared | code/Exercise4/javaparser-starter/src/main/java/fr/istic/vv/PublicElementsPrinter.java:69-76 | A name is in the private-field set iff some private field declaration among the class's direct members declares a variable with that name |
| PublicElements.PublicGettersDeclared | code/Exercise4/javaparser-starter/src/main/java/fr/istic/vv/PublicElementsPrinter.java:77-83 | A string is in the getter set iff some public direct method whose name starts with `get` has that string as its lower-cased suffix |
| PublicElements.IgnoredMembersIrrelevant | code/Exercise4/javaparser-starter/src/main/java/fr/istic/vv/PublicElementsPrinter.java:69-85 | Inserting a member that is neither a private field nor a public `get*` method (a non-private field, another method, a nested type, a constructor) does not change the report |
| PublicElements.ViolationLineInjective | code/Exercise4/javaparser-starter/src/main/java/fr/istic/vv/PublicElementsPrinter.java:91 | Two report lines of the same class and package are equal only for the same field |
| PublicElements.LinesForContents | code/Exercise4/javaparser-starter/src/main/java/fr/istic/vv/PublicElementsPrinter.java:88-96 | The writing loop emits a line iff it is the line of a listed field that is not a getter suffix |
| PublicElements.LinesForDistinct | code/Exercise4/javaparser-starter/src/main/java/fr/istic/vv/PublicElementsPrinter.java:88-96 | Distinct fields give distinct lines |
| PublicElements.ViolationRule | code/Exercise4/javaparser-starter/src/main/java/fr/istic/vv/PublicElementsPrinter.java:57-97 | The report holds the line for field `f` iff the class is public, declares a private field `f`, and has no public getter whose lower-cased suffix is `f` |
| PublicElements.ReportLinesOnce | code/Exercise4/javaparser-starter/src/main/java/fr/istic/vv/PublicElementsPrinter.java:57-97 | Every report line of a class is the line of a private field without a getter, and no line is written twice |
| PublicElements.UpperCaseFieldAlwaysReported | code/Exercise4/javaparser-starter/src/main/java/fr/istic/vv/PublicElementsPrinter.java:80-89 | A private field of a public class whose name holds an upper-case letter is always reported, because a lower-cased getter suffix can never equal it |
| PublicElements.BareGetAddsEmptySuffix | code/Exercise4/javaparser-starter/src/main/java/fr/istic/vv/PublicElementsPrinter.java:80-82 | A public method named exactly `get` adds the empty string to the getter set |
| PublicElements.ClassReport | code/Exercise4/javaparser-starter/src/main/java/fr/istic/vv/PublicElementsPrinter.java:58 | A non-public class writes nothing |
| PublicElements.TypeReport | code/Exercise4/javaparser-starter/src/main/java/fr/istic/vv/PublicElementsPrinter.java:43-58 | A non-public type declaration writes nothing, whatever its kind |
| PublicElements.TypeListing | code/Exercise4/javaparser-starter/src/main/java/fr/istic/vv/PublicElementsPrinter.java:43-54 | Only a public enum prints. Classes and interfaces print nothing, and neither do records and annotations, which take the default visit |
| PublicElements.MethodLinesInOrder | code/Exercise4/javaparser-starter/src/main/java/fr/istic/vv/PublicElementsPrinter.java:46-48 | The method lines follow declaration order, at most one per member |
| PublicElements.MethodLinesContents | code/Exercise4/javaparser-starter/src/main/java/fr/istic/vv/PublicElementsPrinter.java:109-113 | A line is printed for the methods iff it is two spaces followed by the declaration of a public method |
| PublicElements.EnumListing | code/Exercise4/javaparser-starter/src/main/java/fr/istic/vv/PublicElementsPrinter.java:43-54 | A public enum prints its qualified name (or `[Anonymous]`), then its method lines, then its nested types' output, in that order |
| PublicElements.PublicElementsPrinter.constructor | code/Exercise4/javaparser-starter/src/main/java/fr/istic/vv/PublicElementsPrinter.java:26-28 | Opening the report truncates it: both logs start empty. The printer records that its set iteration order lists every set's elements exactly once |
| PublicElements.PublicElementsPrinter.VisitUnit | code/Exercise4/javaparser-starter/src/main/java/fr/istic/vv/PublicElementsPrinter.java:36-41 | Appends `UnitReport` to the report and `UnitListing` to standard output |
| PublicElements.PublicElementsPrinter.VisitTypes | code/Exercise4/javaparser-starter/src/main/java/fr/istic/vv/PublicElementsPrinter.java:38-40 | Accepting each top-level type in order appends what each one writes and prints |
| PublicElements.PublicElementsPrinter.VisitClass | code/Exercise4/javaparser-starter/src/main/java/fr/istic/vv/PublicElementsPrinter.java:56-97 | Appends exactly `ClassReport` to the report and prints nothing |
| PublicElements.PublicElementsPrinter.CollectMembers | code/Exercise4/javaparser-starter/src/main/java/fr/istic/vv/PublicElementsPrinter.java:68-85 | The member loop yields exactly the private-field set and the getter-suffix set |
| PublicElements.PublicElementsPrinter.WriteViolations | code/Exercise4/javaparser-starter/src/main/java/fr/istic/vv/PublicElementsPrinter.java:87-96 | Appends one line per field without a getter, in iteration order |
| PublicElements.PublicElementsPrinter.VisitTypeDeclaration | code/Exercise4/javaparser-starter/src/main/java/fr/istic/vv/PublicElementsPrinter.java:43-54 | For an enum, appends `TypeListing` to standard output and the nested types' reports to the report file |
| PublicElements.PublicElementsPrinter.VisitMethods | code/Exercise4/javaparser-starter/src/main/java/fr/istic/vv/PublicElementsPrinter.java:46-48 | Prints the method lines of the members and writes nothing |
| PublicElements.PublicElementsPrinter.VisitNestedTypes | code/Exercise4/javaparser-starter/src/main/java/fr/istic/vv/PublicElementsPrinter.java:50-53 | Accepts only the nested type declarations, in order |
| PublicElements.PublicElementsPrinter.VisitMethod | code/Exercise4/javaparser-starter/src/main/java/fr/istic/vv/PublicElementsPrinter.java:109-113 | A public method prints its indented declaration and a non-public one prints nothing |
| Driver.AnalyzeUnits | code/Exercise5/javaparser-starter/src/main/java/fr/istic/vv/Main.java:33-45 | The visitor's counter and table end as `AfterUnits` of the units: each unit's package is set, then each of its methods is visited in `findAll` order |
| Driver.AnalyzeUnit | code/Exercise5/javaparser-starter/src/main/java/fr/istic/vv/Main.java:34-43 | The package, or `""` when there is none, is set before the unit's methods are visited |
| Driver.VisitSites | code/Exercise5/javaparser-starter/src/main/java/fr/istic/vv/Main.java:40-42 | Visits the found methods in order under an unchanged package |
| Driver.EveryMethodRecorded | code/Exercise5/javaparser-starter/src/main/java/fr/istic/vv/Main.java:36-42 | After a unit, every method found in it has a row under its name. Every row the unit added or overwrote carries that unit's package |
| Driver.UnitRecorded | code/Exercise5/javaparser-starter/src/main/java/fr/istic/vv/Main.java:33-43 | The same for a whole compilation unit and its package |
| Driver.WriteReport | code/Exercise5/javaparser-starter/src/main/java/fr/istic/vv/Main.java:55-66 | The header first, then line `i + 1` is the row of the `i`-th key written. Every key of the table is written exactly once, so the report has one more line than the table has entries |
| Driver.DecimalRoundTrip | code/Exercise5/javaparser-starter/src/main/java/fr/istic/vv/Main.java:59 | The `%d` rendering of any integer reads back as that integer |
| Driver.RowRoundTrip | code/Exercise5/javaparser-starter/src/main/java/fr/istic/vv/Main.java:59-64 | A row parses back to the `MethodInfo` it came from, provided the package, class and method names hold no comma and the parameter types no double quote. The quotes keep the `", "` inside the parameter types apart from the field separators |

## Left out

- Parsing is not modelled: `SourceRoot`, the parse callback and its failures. The model starts from the parsed trees. Statements the analyses do not distinguish are generic nodes that only hold their children.
- Child visit order: the model walks each node's children in source order. JavaParser's generated adapter visits some children in another order (for a `try` statement, the catch clauses come before the try block). For an `if` statement the adapter visits the condition, then the else branch, then the then branch. So when a then branch holds an anonymous or local class with a method, that method's reset comes after the else branch has already been counted. This changes a method's recorded complexity only when a nested method's reset falls between such children. The method search (`findAll`) is modelled over the same source-order sequences.
- `findAll` is taken to return method declarations in preorder, each paired with its nearest enclosing class or interface (`findAncestor`).
- The command-line checks and exit codes (`Main.java`, lines 19-28) are not modelled; they are I/O.
- The "Report generated" message is not modelled; it is I/O.
- The histogram (`Main.java`, lines 71-86) is not modelled; it is chart drawing and file output.
- The file writers and their `IOException` handling are not modelled. The report file and standard output are logs of lines, and a failed write is not modelled. `close` and `finish` flush and close the writer; writes after closing, and the exception they raise, are not modelled.
- HashMap and HashSet iteration orders are left open:
  - `WriteReport` chooses each next key nondeterministically and returns the chosen order as a ghost sequence;
  - the printer takes the set order as a parameter that lists each set's elements exactly once.
- `getDeclarationAsString(true, true)`, `getFullyQualifiedName` and `getTypeAsString` are treated as given strings in the syntax tree.
- Enum constants with bodies are not part of this model. The enum listing is unaffected, because it only looks at `getMethods()` and `getMembers()`. The complexity table is affected: in the source, the method search also finds the methods declared in enum-constant bodies and records them. A common case is one abstract method overridden by each constant, where all those rows share one name and overwrite one another. The syntax tree here cannot express such bodies, so the complexity table for enums like that is not modelled.
- `ToLower`: lower-cases the letters A to Z only, not the rest of Unicode case mapping.
- `CyclomaticComplexity.CyclomaticComplexityVisitor.VisitMethod`: the counter is an unbounded integer, so 32-bit `int` overflow is not modelled; it would need more than 2^31 constructs in one method.
- `CyclomaticComplexity.CyclomaticComplexityVisitor.constructor`: the package starts as `""`, whereas the source leaves it `null` until `setCurrentPackage`. The driver always sets it before visiting, so no row can see the difference.
- `Driver.RowRoundTrip`: the row parser is lenient about the digits field. It is proved only to invert `Row`, not to reject malformed input.
