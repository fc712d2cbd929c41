/**
 * PublicElementsPrinter: for a public class or interface, an encapsulation
 * check that writes one report line per private field without a matching
 * public getter; for a public enum, a listing on standard output of its
 * qualified name, its public method declarations and (recursively) its
 * nested types.
 *
 * The report file and standard output are two logs of lines, `written` and
 * `stdout`.  The order in which a HashSet hands out its elements is outside
 * the model: the printer holds it as `iterationOrder`, any function that
 * lists each set's elements exactly once.
 */
module PublicElements {
  import opened Syntax

  const NoPackage := "[No Package]"
  const AnonymousName := "[Anonymous]"
  const Indent := "  "

  // ---------------------------------------------------------------------
  // Strings
  // ---------------------------------------------------------------------

  predicate IsUpper(c: char)
  {
    'A' <= c <= 'Z'
  }

  /** toLowerCase, on the letters A to Z only. */
  function LowerChar(c: char): (r: char)
    ensures !IsUpper(r)
    ensures IsUpper(c) ==> r as int == c as int + 32
    ensures !IsUpper(c) ==> r == c
  {
    if IsUpper(c) then (c as int + 32) as char else c
  }

  function ToLower(s: string): (r: string)
    ensures |r| == |s|
    ensures forall i :: 0 <= i < |s| ==> r[i] == LowerChar(s[i])
    ensures forall i :: 0 <= i < |r| ==> !IsUpper(r[i])
  {
    seq(|s|, i requires 0 <= i < |s| => LowerChar(s[i]))
  }

  predicate HasUpper(s: string)
  {
    exists i :: 0 <= i < |s| && IsUpper(s[i])
  }

  /** The name starts with "get". */
  predicate IsGetterName(name: string)
  {
    |name| >= 3 && name[..3] == "get"
  }

  /** The name after its first three characters, lower-cased. */
  function GetterSuffix(name: string): (r: string)
    requires IsGetterName(name)
    ensures |r| == |name| - 3
    ensures !HasUpper(r)
  {
    ToLower(name[3..])
  }

  // ---------------------------------------------------------------------
  // The two sets the encapsulation check builds
  // ---------------------------------------------------------------------

  function MemberPrivateFields(m: Member): set<string>
  {
    match m
    case Field(isPrivate, variables, _) => if isPrivate then set v | v in variables else {}
    case _ => {}
  }

  /** The variable names of the private fields declared directly among `ms`. */
  function PrivateFields(ms: seq<Member>): set<string>
    decreases ms
  {
    if ms == [] then {} else PrivateFields(ms[..|ms| - 1]) + MemberPrivateFields(ms[|ms| - 1])
  }

  predicate IsPublicGetter(m: Member)
  {
    m.Method? && m.decl.isPublic && IsGetterName(m.decl.name)
  }

  function MemberGetters(m: Member): set<string>
  {
    if IsPublicGetter(m) then {GetterSuffix(m.decl.name)} else {}
  }

  /** The lower-cased suffixes of the public `get*` methods declared directly among `ms`. */
  function PublicGetters(ms: seq<Member>): set<string>
    decreases ms
  {
    if ms == [] then {} else PublicGetters(ms[..|ms| - 1]) + MemberGetters(ms[|ms| - 1])
  }

  // ---------------------------------------------------------------------
  // The report lines
  // ---------------------------------------------------------------------

  function PackageLabel(pkg: Option<string>): string
  {
    match pkg
    case Some(name) => name
    case None => NoPackage
  }

  function ViolationLine(className: string, packageName: string, field: string): string
  {
    "Class: " + className + ", Package: " + packageName + ", Private field: " + field + "\n"
  }

  /** The lines the writing loop emits for `fields`, taken in the given order. */
  function LinesFor(fields: seq<string>, getters: set<string>, className: string, packageName: string): seq<string>
    decreases fields
  {
    if fields == [] then []
    else
      var last := fields[|fields| - 1];
      LinesFor(fields[..|fields| - 1], getters, className, packageName)
        + (if last in getters then [] else [ViolationLine(className, packageName, last)])
  }

  /** visit(ClassOrInterfaceDeclaration): the encapsulation check. */
  function ClassReport(d: TypeDecl, pkg: Option<string>, order: set<string> -> seq<string>): (r: seq<string>)
    ensures !d.isPublic ==> r == []
  {
    if !d.isPublic then []
    else LinesFor(order(PrivateFields(d.members)), PublicGetters(d.members), d.name, PackageLabel(pkg))
  }

  /** What accepting a type declaration writes to the report file. */
  function TypeReport(d: TypeDecl, pkg: Option<string>, order: set<string> -> seq<string>): (r: seq<string>)
    ensures !d.isPublic ==> r == []
    decreases d
  {
    match d.kind
    case ClassOrInterface => ClassReport(d, pkg, order)
    case Enum => if d.isPublic then NestedReports(d.members, pkg, order) else []
    case RecordOrAnnotation => []
  }

  /** Only nested type members are accepted by the enum visit's second loop. */
  function NestedReport(m: Member, pkg: Option<string>, order: set<string> -> seq<string>): seq<string>
    decreases m
  {
    match m
    case NestedType(t) => TypeReport(t, pkg, order)
    case _ => []
  }

  function NestedReports(ms: seq<Member>, pkg: Option<string>, order: set<string> -> seq<string>): seq<string>
    decreases ms
  {
    if ms == [] then [] else NestedReports(ms[..|ms| - 1], pkg, order) + NestedReport(ms[|ms| - 1], pkg, order)
  }

  function UnitReport(u: CompilationUnit, order: set<string> -> seq<string>): seq<string>
  {
    TypesReport(u.types, u.packageName, order)
  }

  function TypesReport(ts: seq<TypeDecl>, pkg: Option<string>, order: set<string> -> seq<string>): seq<string>
    decreases ts
  {
    if ts == [] then [] else TypesReport(ts[..|ts| - 1], pkg, order) + TypeReport(ts[|ts| - 1], pkg, order)
  }

  lemma AppendAssoc(a: seq<string>, b: seq<string>, c: seq<string>)
    ensures (a + b) + c == a + (b + c)
  {
  }

  lemma TypesStep(ts: seq<TypeDecl>, i: nat, pkg: Option<string>, order: set<string> -> seq<string>)
    requires i < |ts|
    ensures TypesReport(ts[..i + 1], pkg, order) == TypesReport(ts[..i], pkg, order) + TypeReport(ts[i], pkg, order)
    ensures TypesListing(ts[..i + 1]) == TypesListing(ts[..i]) + TypeListing(ts[i])
  {
    assert ts[..i + 1][..i] == ts[..i];
  }

  // ---------------------------------------------------------------------
  // The standard-output listing
  // ---------------------------------------------------------------------

  function QualifiedLabel(d: TypeDecl): string
  {
    match d.qualifiedName
    case Some(name) => name
    case None => AnonymousName
  }

  /** visit(MethodDeclaration): a public method prints its indented declaration. */
  function MethodLine(m: Member): seq<string>
  {
    if m.Method? && m.decl.isPublic then [Indent + m.decl.declaration] else []
  }

  function MethodLines(ms: seq<Member>): seq<string>
    decreases ms
  {
    if ms == [] then [] else MethodLines(ms[..|ms| - 1]) + MethodLine(ms[|ms| - 1])
  }

  /** What accepting a type declaration prints: only public enums print. */
  function TypeListing(d: TypeDecl): (r: seq<string>)
    ensures d.kind != Enum || !d.isPublic ==> r == []
    decreases d
  {
    match d.kind
    case Enum =>
      if d.isPublic then [QualifiedLabel(d)] + MethodLines(d.members) + NestedListings(d.members) else []
    case _ => []
  }

  function NestedListing(m: Member): seq<string>
    decreases m
  {
    match m
    case NestedType(t) => TypeListing(t)
    case _ => []
  }

  function NestedListings(ms: seq<Member>): seq<string>
    decreases ms
  {
    if ms == [] then [] else NestedListings(ms[..|ms| - 1]) + NestedListing(ms[|ms| - 1])
  }

  function TypesListing(ts: seq<TypeDecl>): seq<string>
    decreases ts
  {
    if ts == [] then [] else TypesListing(ts[..|ts| - 1]) + TypeListing(ts[|ts| - 1])
  }

  function UnitListing(u: CompilationUnit): seq<string>
  {
    TypesListing(u.types)
  }

  // ---------------------------------------------------------------------
  // What the two sets hold, member by member
  // ---------------------------------------------------------------------

  /** Some private field declared directly among `ms` has a variable named `f`. */
  ghost predicate DeclaresPrivateField(ms: seq<Member>, f: string)
  {
    exists i, j :: 0 <= i < |ms| && ms[i].Field? && ms[i].isPrivate
                   && 0 <= j < |ms[i].variables| && ms[i].variables[j] == f
  }

  /** Some public method declared directly among `ms` is `get` followed by `g`, lower-cased. */
  ghost predicate DeclaresGetterFor(ms: seq<Member>, g: string)
  {
    exists i :: 0 <= i < |ms| && IsPublicGetter(ms[i]) && GetterSuffix(ms[i].decl.name) == g
  }

  lemma {:induction false} PrivateFieldsDeclared(ms: seq<Member>, f: string)
    ensures f in PrivateFields(ms) <==> DeclaresPrivateField(ms, f)
    decreases ms
  {
    if ms != [] {
      var init, last := ms[..|ms| - 1], ms[|ms| - 1];
      PrivateFieldsDeclared(init, f);
      if DeclaresPrivateField(ms, f) {
        var i, j :| 0 <= i < |ms| && ms[i].Field? && ms[i].isPrivate
                    && 0 <= j < |ms[i].variables| && ms[i].variables[j] == f;
        if i < |init| {
          assert init[i] == ms[i];
        } else {
          assert f in MemberPrivateFields(last);
        }
      }
      if f in PrivateFields(ms) {
        if f in PrivateFields(init) {
          var i, j :| 0 <= i < |init| && init[i].Field? && init[i].isPrivate
                      && 0 <= j < |init[i].variables| && init[i].variables[j] == f;
          assert ms[i] == init[i];
        } else {
          assert f in MemberPrivateFields(last);
          var j :| 0 <= j < |last.variables| && last.variables[j] == f;
          assert ms[|ms| - 1] == last;
        }
      }
    }
  }

  lemma {:induction false} PublicGettersDeclared(ms: seq<Member>, g: string)
    ensures g in PublicGetters(ms) <==> DeclaresGetterFor(ms, g)
    decreases ms
  {
    if ms != [] {
      var init, last := ms[..|ms| - 1], ms[|ms| - 1];
      PublicGettersDeclared(init, g);
      if DeclaresGetterFor(ms, g) {
        var i :| 0 <= i < |ms| && IsPublicGetter(ms[i]) && GetterSuffix(ms[i].decl.name) == g;
        if i < |init| {
          assert init[i] == ms[i];
        }
      }
      if g in PublicGetters(ms) && g in PublicGetters(init) {
        var i :| 0 <= i < |init| && IsPublicGetter(init[i]) && GetterSuffix(init[i].decl.name) == g;
        assert ms[i] == init[i];
      }
    }
  }

  lemma {:induction false} PrivateFieldsAppend(a: seq<Member>, b: seq<Member>)
    ensures PrivateFields(a + b) == PrivateFields(a) + PrivateFields(b)
    decreases |b|
  {
    if b == [] {
      assert a + b == a;
    } else {
      assert (a + b)[..|a + b| - 1] == a + b[..|b| - 1];
      PrivateFieldsAppend(a, b[..|b| - 1]);
    }
  }

  lemma {:induction false} PublicGettersAppend(a: seq<Member>, b: seq<Member>)
    ensures PublicGetters(a + b) == PublicGetters(a) + PublicGetters(b)
    decreases |b|
  {
    if b == [] {
      assert a + b == a;
    } else {
      assert (a + b)[..|a + b| - 1] == a + b[..|b| - 1];
      PublicGettersAppend(a, b[..|b| - 1]);
    }
  }

  /** A member neither a private field nor a public `get*` method. */
  predicate Ignored(m: Member)
  {
    !(m.Field? && m.isPrivate) && !IsPublicGetter(m)
  }

  /**
   * Non-private fields, methods that are not public getters, nested types,
   * constructors and initializers can be added anywhere among a class's
   * members without changing what the check writes: a nested type's fields
   * are never attributed to the enclosing class.
   */
  lemma IgnoredMembersIrrelevant(d: TypeDecl, a: seq<Member>, m: Member, b: seq<Member>,
                                 pkg: Option<string>, order: set<string> -> seq<string>)
    requires Ignored(m)
    ensures ClassReport(d.(members := a + [m] + b), pkg, order) == ClassReport(d.(members := a + b), pkg, order)
  {
    assert [m][..0] == [];
    assert PrivateFields([m]) == {};
    assert MemberGetters(m) == {};
    assert PublicGetters([m]) == {};
    PrivateFieldsAppend(a + [m], b);
    PrivateFieldsAppend(a, [m]);
    PrivateFieldsAppend(a, b);
    PublicGettersAppend(a + [m], b);
    PublicGettersAppend(a, [m]);
    PublicGettersAppend(a, b);
    var with, without := a + [m] + b, a + b;
    assert PrivateFields(with) == PrivateFields(without);
    assert PublicGetters(with) == PublicGetters(without);
  }

  // ---------------------------------------------------------------------
  // The report lines: one per private field without a getter, each once
  // ---------------------------------------------------------------------

  predicate Distinct(q: seq<string>)
  {
    forall i, j :: 0 <= i < j < |q| ==> q[i] != q[j]
  }

  /** `q` lists the elements of `s`, each exactly once. */
  predicate Enumerates(q: seq<string>, s: set<string>)
  {
    Distinct(q) && (forall x :: x in q ==> x in s) && (forall x :: x in s ==> x in q)
  }

  /** The line format determines the field name. */
  lemma ViolationLineInjective(className: string, packageName: string, f1: string, f2: string)
    requires ViolationLine(className, packageName, f1) == ViolationLine(className, packageName, f2)
    ensures f1 == f2
  {
    var prefix := "Class: " + className + ", Package: " + packageName + ", Private field: ";
    var l1, l2 := prefix + f1 + "\n", prefix + f2 + "\n";
    assert l1 == ViolationLine(className, packageName, f1);
    assert l2 == ViolationLine(className, packageName, f2);
    assert f1 == l1[|prefix|..|prefix| + |f1|];
    assert f2 == l2[|prefix|..|prefix| + |f2|];
  }

  lemma {:induction false} LinesForContents(fields: seq<string>, getters: set<string>, className: string,
                                            packageName: string, line: string)
    ensures line in LinesFor(fields, getters, className, packageName) <==>
            exists k :: 0 <= k < |fields| && fields[k] !in getters && line == ViolationLine(className, packageName, fields[k])
    decreases fields
  {
    if fields != [] {
      var init := fields[..|fields| - 1];
      LinesForContents(init, getters, className, packageName, line);
      if exists k :: 0 <= k < |fields| && fields[k] !in getters && line == ViolationLine(className, packageName, fields[k]) {
        var k :| 0 <= k < |fields| && fields[k] !in getters && line == ViolationLine(className, packageName, fields[k]);
        if k < |init| {
          assert init[k] == fields[k];
        }
      }
      if line in LinesFor(init, getters, className, packageName) {
        var k :| 0 <= k < |init| && init[k] !in getters && line == ViolationLine(className, packageName, init[k]);
        assert fields[k] == init[k];
      }
    }
  }

  lemma {:induction false} LinesForDistinct(fields: seq<string>, getters: set<string>, className: string, packageName: string)
    requires Distinct(fields)
    ensures Distinct(LinesFor(fields, getters, className, packageName))
    decreases fields
  {
    if fields != [] {
      var init, last := fields[..|fields| - 1], fields[|fields| - 1];
      LinesForDistinct(init, getters, className, packageName);
      var line := ViolationLine(className, packageName, last);
      LinesForContents(init, getters, className, packageName, line);
      if line in LinesFor(init, getters, className, packageName) {
        var k :| 0 <= k < |init| && init[k] !in getters && line == ViolationLine(className, packageName, init[k]);
        ViolationLineInjective(className, packageName, init[k], last);
        assert false;
      }
    }
  }

  /**
   * The violation rule: for a public class or interface, the line for `f` is
   * written exactly when `f` names a variable of a directly declared private
   * field and no directly declared public method is `get` followed by a
   * name that lower-cases to `f`.  A non-public type writes nothing.
   */
  lemma ViolationRule(d: TypeDecl, pkg: Option<string>, order: set<string> -> seq<string>, f: string)
    requires Enumerates(order(PrivateFields(d.members)), PrivateFields(d.members))
    ensures ViolationLine(d.name, PackageLabel(pkg), f) in ClassReport(d, pkg, order) <==>
            d.isPublic && DeclaresPrivateField(d.members, f) && !DeclaresGetterFor(d.members, f)
  {
    var fields := order(PrivateFields(d.members));
    var line := ViolationLine(d.name, PackageLabel(pkg), f);
    PrivateFieldsDeclared(d.members, f);
    PublicGettersDeclared(d.members, f);
    if d.isPublic {
      LinesForContents(fields, PublicGetters(d.members), d.name, PackageLabel(pkg), line);
      if line in ClassReport(d, pkg, order) {
        var k :| 0 <= k < |fields| && fields[k] !in PublicGetters(d.members)
                 && line == ViolationLine(d.name, PackageLabel(pkg), fields[k]);
        ViolationLineInjective(d.name, PackageLabel(pkg), f, fields[k]);
      }
      if f in PrivateFields(d.members) && f !in PublicGetters(d.members) {
        assert f in fields;
        var k :| 0 <= k < |fields| && fields[k] == f;
      }
    }
  }

  /**
   * Each line of the check names the class, its package (or "[No Package]")
   * and a private field without a getter, and no line is written twice.
   */
  lemma ReportLinesOnce(d: TypeDecl, pkg: Option<string>, order: set<string> -> seq<string>)
    requires Enumerates(order(PrivateFields(d.members)), PrivateFields(d.members))
    ensures Distinct(ClassReport(d, pkg, order))
    ensures forall line :: line in ClassReport(d, pkg, order) ==>
              exists f :: f in PrivateFields(d.members) && f !in PublicGetters(d.members)
                          && line == ViolationLine(d.name, PackageLabel(pkg), f)
  {
    if d.isPublic {
      var fields := order(PrivateFields(d.members));
      LinesForDistinct(fields, PublicGetters(d.members), d.name, PackageLabel(pkg));
      forall line | line in ClassReport(d, pkg, order)
        ensures exists f :: f in PrivateFields(d.members) && f !in PublicGetters(d.members)
                            && line == ViolationLine(d.name, PackageLabel(pkg), f)
      {
        LinesForContents(fields, PublicGetters(d.members), d.name, PackageLabel(pkg), line);
        var k :| 0 <= k < |fields| && fields[k] !in PublicGetters(d.members)
                 && line == ViolationLine(d.name, PackageLabel(pkg), fields[k]);
        assert fields[k] in fields;
      }
    }
  }

  /**
   * The getter suffix is lower-cased but the field name is not: a private
   * field of a public class whose name holds an upper-case letter is always
   * reported, whatever getters the class declares.
   */
  lemma UpperCaseFieldAlwaysReported(d: TypeDecl, pkg: Option<string>, order: set<string> -> seq<string>, f: string)
    requires Enumerates(order(PrivateFields(d.members)), PrivateFields(d.members))
    requires d.isPublic && DeclaresPrivateField(d.members, f) && HasUpper(f)
    ensures ViolationLine(d.name, PackageLabel(pkg), f) in ClassReport(d, pkg, order)
  {
    ViolationRule(d, pkg, order, f);
  }

  /** A public method named exactly `get` adds the empty suffix. */
  lemma BareGetAddsEmptySuffix(ms: seq<Member>, i: nat)
    requires i < |ms| && ms[i].Method? && ms[i].decl.isPublic && ms[i].decl.name == "get"
    ensures "" in PublicGetters(ms)
  {
    PublicGettersDeclared(ms, "");
    assert IsPublicGetter(ms[i]) && GetterSuffix(ms[i].decl.name) == "";
  }

  // ---------------------------------------------------------------------
  // The listing of public method declarations, in declaration order
  // ---------------------------------------------------------------------

  lemma {:induction false} MethodLinesAppend(a: seq<Member>, b: seq<Member>)
    ensures MethodLines(a + b) == MethodLines(a) + MethodLines(b)
    decreases |b|
  {
    if b == [] {
      assert a + b == a;
    } else {
      assert (a + b)[..|a + b| - 1] == a + b[..|b| - 1];
      MethodLinesAppend(a, b[..|b| - 1]);
    }
  }

  /** One indented line per public method, in the order the methods are declared. */
  lemma {:induction false} MethodLinesInOrder(ms: seq<Member>)
    ensures |MethodLines(ms)| <= |ms|
    ensures ms != [] ==> MethodLines(ms) == MethodLine(ms[0]) + MethodLines(ms[1..])
    decreases |ms|
  {
    if ms != [] {
      assert ms == [ms[0]] + ms[1..];
      MethodLinesAppend([ms[0]], ms[1..]);
      assert [ms[0]][..0] == [];
      MethodLinesInOrder(ms[..|ms| - 1]);
    }
  }

  /** A listed method line is exactly the indented declaration of a public method. */
  lemma {:induction false} MethodLinesContents(ms: seq<Member>, line: string)
    ensures line in MethodLines(ms) <==>
            exists i :: 0 <= i < |ms| && ms[i].Method? && ms[i].decl.isPublic
                        && line == Indent + ms[i].decl.declaration
    decreases |ms|
  {
    if ms != [] {
      var init := ms[..|ms| - 1];
      MethodLinesContents(init, line);
      if exists i :: 0 <= i < |ms| && ms[i].Method? && ms[i].decl.isPublic
                     && line == Indent + ms[i].decl.declaration {
        var i :| 0 <= i < |ms| && ms[i].Method? && ms[i].decl.isPublic
                 && line == Indent + ms[i].decl.declaration;
        if i < |init| {
          assert init[i] == ms[i];
        }
      }
      if exists i :: 0 <= i < |init| && init[i].Method? && init[i].decl.isPublic
                     && line == Indent + init[i].decl.declaration {
        var i :| 0 <= i < |init| && init[i].Method? && init[i].decl.isPublic
                 && line == Indent + init[i].decl.declaration;
        assert ms[i] == init[i];
      }
    }
  }

  /**
   * A public enum prints its qualified name (or "[Anonymous]"), then one
   * indented declaration per public method in declaration order, then what
   * its nested types print.
   */
  lemma EnumListing(d: TypeDecl)
    requires d.kind == Enum && d.isPublic
    ensures var r := TypeListing(d); var k := |MethodLines(d.members)|;
      && |r| >= 1 + k
      && r[0] == QualifiedLabel(d)
      && r[1..1 + k] == MethodLines(d.members)
      && r[1 + k..] == NestedListings(d.members)
  {
  }

  // ---------------------------------------------------------------------
  // The printer
  // ---------------------------------------------------------------------

  /** Every set is listed by `order` with each of its elements exactly once. */
  ghost predicate EnumeratesSets(order: set<string> -> seq<string>)
  {
    forall s :: Enumerates(order(s), s)
  }

  class PublicElementsPrinter {
    /** The lines written to the report file, oldest first. */
    var written: seq<string>
    /** The lines printed on standard output, oldest first. */
    var stdout: seq<string>
    /** The order in which a HashSet of strings yields its elements. */
    const iterationOrder: set<string> -> seq<string>

    /** Opening the report file truncates it. */
    constructor(order: set<string> -> seq<string>)
      requires EnumeratesSets(order)
      ensures written == [] && stdout == [] && iterationOrder == order
      ensures EnumeratesSets(iterationOrder)
    {
      written := [];
      stdout := [];
      iterationOrder := order;
    }

    /** visit(CompilationUnit): accept every top-level type in order. */
    method VisitUnit(u: CompilationUnit)
      modifies this
      ensures written == old(written) + UnitReport(u, iterationOrder)
      ensures stdout == old(stdout) + UnitListing(u)
    {
      VisitTypes(u.types, u.packageName);
    }

    /** The loop over the unit's type declarations. */
    method VisitTypes(ts: seq<TypeDecl>, pkg: Option<string>)
      modifies this
      ensures written == old(written) + TypesReport(ts, pkg, iterationOrder)
      ensures stdout == old(stdout) + TypesListing(ts)
    {
      var i := 0;
      while i < |ts|
        invariant 0 <= i <= |ts|
        invariant written == old(written) + TypesReport(ts[..i], pkg, iterationOrder)
        invariant stdout == old(stdout) + TypesListing(ts[..i])
      {
        TypesStep(ts, i, pkg, iterationOrder);
        VisitType(ts[i], pkg);
        AppendAssoc(old(written), TypesReport(ts[..i], pkg, iterationOrder), TypeReport(ts[i], pkg, iterationOrder));
        AppendAssoc(old(stdout), TypesListing(ts[..i]), TypeListing(ts[i]));
        i := i + 1;
      }
      assert ts[..i] == ts;
    }

    /** `accept`: dispatch on the kind of declaration. */
    method VisitType(d: TypeDecl, pkg: Option<string>)
      modifies this
      ensures written == old(written) + TypeReport(d, pkg, iterationOrder)
      ensures stdout == old(stdout) + TypeListing(d)
      decreases d, 1
    {
      match d.kind
      case ClassOrInterface => VisitClass(d, pkg);
      case Enum => VisitTypeDeclaration(d, pkg);
      case RecordOrAnnotation =>
    }

    /** visit(ClassOrInterfaceDeclaration): the encapsulation check. */
    method VisitClass(d: TypeDecl, pkg: Option<string>)
      modifies this
      ensures written == old(written) + ClassReport(d, pkg, iterationOrder)
      ensures stdout == old(stdout)
    {
      if !d.isPublic {
        return;
      }
      var privateFields, publicGetters := CollectMembers(d.members);
      var className := d.name;
      var packageName := PackageLabel(pkg);
      WriteViolations(iterationOrder(privateFields), publicGetters, className, packageName);
    }

    /** The loop over getMembers() that fills the two sets. */
    method CollectMembers(ms: seq<Member>) returns (privateFields: set<string>, publicGetters: set<string>)
      ensures privateFields == PrivateFields(ms)
      ensures publicGetters == PublicGetters(ms)
    {
      privateFields, publicGetters := {}, {};
      var i := 0;
      while i < |ms|
        invariant 0 <= i <= |ms|
        invariant privateFields == PrivateFields(ms[..i])
        invariant publicGetters == PublicGetters(ms[..i])
      {
        assert ms[..i + 1][..i] == ms[..i];
        match ms[i] {
          case Field(isPrivate, variables, _) =>
            var j := 0;
            while j < |variables|
              invariant 0 <= j <= |variables|
              invariant privateFields == PrivateFields(ms[..i]) + (if isPrivate then set v | v in variables[..j] else {})
            {
              if isPrivate {
                assert variables[..j + 1] == variables[..j] + [variables[j]];
                privateFields := privateFields + {variables[j]};
              }
              j := j + 1;
            }
            assert variables[..j] == variables;
          case Method(n) =>
            if n.isPublic && IsGetterName(n.name) {
              publicGetters := publicGetters + {ToLower(n.name[3..])};
            }
          case _ =>
        }
        i := i + 1;
      }
      assert ms[..i] == ms;
    }

    /** The loop over the private fields that writes one line per field without a getter. */
    method WriteViolations(fields: seq<string>, publicGetters: set<string>, className: string, packageName: string)
      modifies this
      ensures written == old(written) + LinesFor(fields, publicGetters, className, packageName)
      ensures stdout == old(stdout)
    {
      var k := 0;
      while k < |fields|
        invariant 0 <= k <= |fields|
        invariant written == old(written) + LinesFor(fields[..k], publicGetters, className, packageName)
        invariant stdout == old(stdout)
      {
        assert fields[..k + 1][..k] == fields[..k];
        if fields[k] !in publicGetters {
          written := written + [ViolationLine(className, packageName, fields[k])];
        }
        k := k + 1;
      }
      assert fields[..k] == fields;
    }

    /** visit(EnumDeclaration), through visitTypeDeclaration. */
    method VisitTypeDeclaration(d: TypeDecl, pkg: Option<string>)
      requires d.kind == Enum
      modifies this
      ensures written == old(written) + TypeReport(d, pkg, iterationOrder)
      ensures stdout == old(stdout) + TypeListing(d)
      decreases d, 0
    {
      if !d.isPublic {
        return;
      }
      stdout := stdout + [QualifiedLabel(d)];
      VisitMethods(d.members);
      VisitNestedTypes(d.members, pkg);
    }

    /** The loop over getMethods(): each method declaration, in order. */
    method VisitMethods(ms: seq<Member>)
      modifies this
      ensures written == old(written)
      ensures stdout == old(stdout) + MethodLines(ms)
    {
      var i := 0;
      while i < |ms|
        invariant 0 <= i <= |ms|
        invariant written == old(written)
        invariant stdout == old(stdout) + MethodLines(ms[..i])
      {
        assert ms[..i + 1][..i] == ms[..i];
        if ms[i].Method? {
          VisitMethod(ms[i].decl);
        }
        i := i + 1;
      }
      assert ms[..i] == ms;
    }

    /** The loop over getMembers() that accepts each nested type declaration. */
    method VisitNestedTypes(ms: seq<Member>, pkg: Option<string>)
      modifies this
      ensures written == old(written) + NestedReports(ms, pkg, iterationOrder)
      ensures stdout == old(stdout) + NestedListings(ms)
      decreases ms
    {
      var i := 0;
      while i < |ms|
        invariant 0 <= i <= |ms|
        invariant written == old(written) + NestedReports(ms[..i], pkg, iterationOrder)
        invariant stdout == old(stdout) + NestedListings(ms[..i])
      {
        assert ms[..i + 1][..i] == ms[..i];
        assert NestedReports(ms[..i + 1], pkg, iterationOrder)
            == NestedReports(ms[..i], pkg, iterationOrder) + NestedReport(ms[i], pkg, iterationOrder);
        assert NestedListings(ms[..i + 1]) == NestedListings(ms[..i]) + NestedListing(ms[i]);
        AcceptIfType(ms[i], pkg);
        AppendAssoc(old(written), NestedReports(ms[..i], pkg, iterationOrder), NestedReport(ms[i], pkg, iterationOrder));
        AppendAssoc(old(stdout), NestedListings(ms[..i]), NestedListing(ms[i]));
        i := i + 1;
      }
      assert ms[..i] == ms;
    }

    /** Accept a member only when it is a type declaration. */
    method AcceptIfType(m: Member, pkg: Option<string>)
      modifies this
      ensures written == old(written) + NestedReport(m, pkg, iterationOrder)
      ensures stdout == old(stdout) + NestedListing(m)
      decreases m
    {
      match m
      case NestedType(t) => VisitType(t, pkg);
      case _ =>
    }

    /** visit(MethodDeclaration) */
    method VisitMethod(n: MethodDecl)
      modifies this
      ensures written == old(written)
      ensures stdout == old(stdout) + MethodLine(Method(n))
    {
      if !n.isPublic {
        return;
      }
      stdout := stdout + [Indent + n.declaration];
    }
  }
}
