/**
 * The driver of the complexity analysis: for every parsed compilation unit,
 * set the visitor's package and visit every method declaration the unit
 * holds; then serialise the table as CSV, one row per stored MethodInfo
 * under a fixed header.
 */
module Driver {
  import opened Syntax
  import opened CyclomaticComplexity

  /** The unit's declared package name, or the empty string when it declares none. */
  function PackageOf(u: CompilationUnit): string
  {
    match u.packageName
    case Some(name) => name
    case None => ""
  }

  // ---------------------------------------------------------------------
  // The state after the per-unit loop
  // ---------------------------------------------------------------------

  /** Visiting each found method in turn, with the package `pkg`. */
  function AfterSites(sites: seq<MethodSite>, pkg: string, st: VisitorState): VisitorState
    decreases |sites|
  {
    if sites == [] then st
    else
      var last := sites[|sites| - 1];
      AfterMethod(last.decl, last.enclosingClass, pkg, AfterSites(sites[..|sites| - 1], pkg, st))
  }

  function AfterUnit(u: CompilationUnit, st: VisitorState): VisitorState
  {
    AfterSites(SitesInUnit(u), PackageOf(u), st)
  }

  function AfterUnits(units: seq<CompilationUnit>, st: VisitorState): VisitorState
    decreases |units|
  {
    if units == [] then st else AfterUnit(units[|units| - 1], AfterUnits(units[..|units| - 1], st))
  }

  lemma UnitsStep(units: seq<CompilationUnit>, i: nat, st: VisitorState)
    requires i < |units|
    ensures AfterUnits(units[..i + 1], st) == AfterUnit(units[i], AfterUnits(units[..i], st))
  {
    assert units[..i + 1][..i] == units[..i];
  }

  lemma {:induction false} GrowsSites(sites: seq<MethodSite>, pkg: string, st: VisitorState)
    ensures Grows(st, AfterSites(sites, pkg, st), pkg)
    decreases |sites|
  {
    if sites != [] {
      var last := sites[|sites| - 1];
      var mid := AfterSites(sites[..|sites| - 1], pkg, st);
      GrowsSites(sites[..|sites| - 1], pkg, st);
      GrowsMethod(last.decl, last.enclosingClass, pkg, mid);
      GrowsTransitive(st, mid, AfterSites(sites, pkg, st), pkg);
    }
  }

  /**
   * Every method found in a unit ends up with a row under its name, every
   * earlier row is kept or overwritten, and every row the unit adds or
   * overwrites carries the unit's package ("" when it declares none), its
   * own key as method name and a complexity of at least 1.
   */
  lemma {:induction false} EveryMethodRecorded(sites: seq<MethodSite>, pkg: string, st: VisitorState)
    ensures forall s :: s in sites ==> s.decl.name in AfterSites(sites, pkg, st).rows
    ensures Grows(st, AfterSites(sites, pkg, st), pkg)
    decreases |sites|
  {
    GrowsSites(sites, pkg, st);
    if sites != [] {
      var init, last := sites[..|sites| - 1], sites[|sites| - 1];
      var mid := AfterSites(init, pkg, st);
      EveryMethodRecorded(init, pkg, st);
      GrowsMethod(last.decl, last.enclosingClass, pkg, mid);
      MethodRowRecorded(last.decl, last.enclosingClass, pkg, mid);
      forall s | s in sites
        ensures s.decl.name in AfterSites(sites, pkg, st).rows
      {
        if s != last {
          assert s in init;
        }
      }
    }
  }

  lemma UnitRecorded(u: CompilationUnit, st: VisitorState)
    ensures forall s :: s in SitesInUnit(u) ==> s.decl.name in AfterUnit(u, st).rows
    ensures Grows(st, AfterUnit(u, st), PackageOf(u))
  {
    EveryMethodRecorded(SitesInUnit(u), PackageOf(u), st);
  }

  /**
   * The per-unit loop of `main`: the package is set before any of the
   * unit's methods is visited, then every method `findAll` returns is
   * visited in order.
   */
  method AnalyzeUnits(units: seq<CompilationUnit>, visitor: CyclomaticComplexityVisitor)
    requires visitor.Valid()
    modifies visitor
    ensures visitor.Valid()
    ensures visitor.State() == AfterUnits(units, old(visitor.State()))
    ensures units != [] ==> visitor.currentPackage == PackageOf(units[|units| - 1])
    ensures units == [] ==> visitor.currentPackage == old(visitor.currentPackage)
  {
    var i := 0;
    while i < |units|
      invariant 0 <= i <= |units|
      invariant visitor.Valid()
      invariant visitor.State() == AfterUnits(units[..i], old(visitor.State()))
      invariant i > 0 ==> visitor.currentPackage == PackageOf(units[i - 1])
      invariant i == 0 ==> visitor.currentPackage == old(visitor.currentPackage)
    {
      UnitsStep(units, i, old(visitor.State()));
      AnalyzeUnit(units[i], visitor);
      i := i + 1;
    }
    assert units[..i] == units;
  }

  /** One iteration of the per-unit loop. */
  method AnalyzeUnit(unit: CompilationUnit, visitor: CyclomaticComplexityVisitor)
    requires visitor.Valid()
    modifies visitor
    ensures visitor.Valid()
    ensures visitor.State() == AfterUnit(unit, old(visitor.State()))
    ensures visitor.currentPackage == PackageOf(unit)
  {
    var packageName := PackageOf(unit);
    visitor.SetCurrentPackage(packageName);
    VisitSites(SitesInUnit(unit), packageName, visitor);
  }

  /** The inner loop of `main`: visit each method declaration found in the unit, in order. */
  method VisitSites(methods: seq<MethodSite>, packageName: string, visitor: CyclomaticComplexityVisitor)
    requires visitor.Valid()
    requires visitor.currentPackage == packageName
    modifies visitor
    ensures visitor.Valid()
    ensures visitor.currentPackage == packageName
    ensures visitor.State() == AfterSites(methods, packageName, old(visitor.State()))
  {
    var j := 0;
    while j < |methods|
      invariant 0 <= j <= |methods|
      invariant visitor.Valid()
      invariant visitor.currentPackage == packageName
      invariant visitor.State() == AfterSites(methods[..j], packageName, old(visitor.State()))
    {
      assert methods[..j + 1][..j] == methods[..j];
      visitor.VisitMethod(methods[j].decl, methods[j].enclosingClass);
      j := j + 1;
    }
    assert methods[..j] == methods;
  }

  // ---------------------------------------------------------------------
  // The CSV report
  // ---------------------------------------------------------------------

  const Header := "Package Name,Class Name,Method Name,Parameter Types,Cyclomatic Complexity\n"

  function DigitChar(d: nat): char
    requires d < 10
  {
    (d + '0' as int) as char
  }

  function NatDigits(n: nat): string
    decreases n
  {
    if n < 10 then [DigitChar(n)] else NatDigits(n / 10) + [DigitChar(n % 10)]
  }

  /** `%d`: the decimal digits, after a minus sign when negative. */
  function Decimal(n: int): string
  {
    if n < 0 then "-" + NatDigits(-n) else NatDigits(n)
  }

  /** One CSV row: five comma-separated fields, the parameter types between double quotes. */
  function Row(info: MethodInfo): string
  {
    info.packageName + "," + info.className + "," + info.methodName
      + ",\"" + info.parameterTypes + "\"," + Decimal(info.complexity) + "\n"
  }

  /** The rows for the keys of `m`, in the order given. */
  function RowsOf(m: map<string, MethodInfo>, order: seq<string>): seq<string>
    requires forall k :: k in order ==> k in m
  {
    seq(|order|, i requires 0 <= i < |order| => Row(m[order[i]]))
  }

  /**
   * writeReport: the header, then one row per value of the table.  The
   * HashMap's iteration order is outside the model; `order` records the
   * keys in the order their rows were written, each exactly once.
   */
  method WriteReport(m: map<string, MethodInfo>) returns (lines: seq<string>, ghost order: seq<string>)
    ensures forall k :: k in order <==> k in m
    ensures forall i, j :: 0 <= i < j < |order| ==> order[i] != order[j]
    ensures lines == [Header] + RowsOf(m, order)
    ensures |lines| == |m| + 1
    ensures lines[0] == Header
    ensures forall i :: 0 <= i < |order| ==> lines[i + 1] == Row(m[order[i]])
  {
    lines := [Header];
    order := [];
    var rest := m.Keys;
    while rest != {}
      invariant rest <= m.Keys
      invariant forall k :: k in order <==> k in m && k !in rest
      invariant forall i, j :: 0 <= i < j < |order| ==> order[i] != order[j]
      invariant |order| + |rest| == |m|
      invariant lines == [Header] + RowsOf(m, order)
      decreases rest
    {
      var key :| key in rest;
      lines := lines + [Row(m[key])];
      order := order + [key];
      rest := rest - {key};
    }
  }

  // ---------------------------------------------------------------------
  // Reading a row back: the quoting keeps a parameter list's commas apart
  // ---------------------------------------------------------------------

  function DigitsValue(s: string): int
    decreases |s|
  {
    if s == [] then 0 else DigitsValue(s[..|s| - 1]) * 10 + (s[|s| - 1] as int - '0' as int)
  }

  function ParseDecimal(s: string): int
  {
    if |s| > 0 && s[0] == '-' then -DigitsValue(s[1..]) else DigitsValue(s)
  }

  lemma {:induction false} NatDigitsValue(n: nat)
    ensures |NatDigits(n)| > 0 && NatDigits(n)[0] != '-'
    ensures DigitsValue(NatDigits(n)) == n
    decreases n
  {
    if n >= 10 {
      NatDigitsValue(n / 10);
      var s := NatDigits(n);
      assert s[..|s| - 1] == NatDigits(n / 10);
    }
  }

  lemma DecimalRoundTrip(n: int)
    ensures ParseDecimal(Decimal(n)) == n
  {
    if n < 0 {
      NatDigitsValue(-n);
      assert Decimal(n)[1..] == NatDigits(-n);
    } else {
      NatDigitsValue(n);
    }
  }

  /** The text before the first `c` and the text after it, if `c` occurs. */
  function Cut(s: string, c: char): Option<(string, string)>
    decreases |s|
  {
    if s == [] then None
    else if s[0] == c then Some(([], s[1..]))
    else
      match Cut(s[1..], c)
      case Some((before, after)) => Some(([s[0]] + before, after))
      case None => None
  }

  lemma {:induction false} CutAt(x: string, c: char, y: string)
    requires c !in x
    ensures Cut(x + [c] + y, c) == Some((x, y))
    decreases |x|
  {
    if x != [] {
      assert (x + [c] + y)[1..] == x[1..] + [c] + y;
      CutAt(x[1..], c, y);
      assert [x[0]] + x[1..] == x;
    } else {
      assert x + [c] + y == [c] + y;
    }
  }

  /** Splits a row into its five fields, reading the fourth between quotes. */
  function ParseRow(line: string): Option<MethodInfo>
  {
    match Cut(line, ',')
    case None => None
    case Some((pkg, rest)) => ParseClass(pkg, rest)
  }

  function ParseClass(pkg: string, line: string): Option<MethodInfo>
  {
    match Cut(line, ',')
    case None => None
    case Some((cls, rest)) => ParseMethodName(pkg, cls, rest)
  }

  function ParseMethodName(pkg: string, cls: string, line: string): Option<MethodInfo>
  {
    match Cut(line, ',')
    case None => None
    case Some((name, rest)) => ParseParameters(pkg, cls, name, rest)
  }

  function ParseParameters(pkg: string, cls: string, name: string, line: string): Option<MethodInfo>
  {
    if |line| == 0 || line[0] != '"' then None
    else
      match Cut(line[1..], '"')
      case None => None
      case Some((params, rest)) => ParseComplexity(pkg, cls, name, params, rest)
  }

  function ParseComplexity(pkg: string, cls: string, name: string, params: string, line: string): Option<MethodInfo>
  {
    if |line| == 0 || line[0] != ',' then None
    else
      match Cut(line[1..], '\n')
      case None => None
      case Some((digits, rest)) =>
        if rest != [] then None else Some(MethodInfo(pkg, cls, name, params, ParseDecimal(digits)))
  }

  lemma ComplexityRoundTrip(pkg: string, cls: string, name: string, params: string, complexity: int)
    ensures ParseComplexity(pkg, cls, name, params, [','] + Decimal(complexity) + ['\n'])
         == Some(MethodInfo(pkg, cls, name, params, complexity))
  {
    var d := Decimal(complexity);
    assert '\n' !in d by {
      if complexity < 0 {
        NatDigitsAreDigits(-complexity);
        assert d == ['-'] + NatDigits(-complexity);
      } else {
        NatDigitsAreDigits(complexity);
      }
    }
    assert ([','] + d + ['\n'])[1..] == d + ['\n'] + [];
    CutAt(d, '\n', []);
    DecimalRoundTrip(complexity);
  }

  lemma ParametersRoundTrip(pkg: string, cls: string, name: string, params: string, tail: string)
    requires '"' !in params
    ensures ParseParameters(pkg, cls, name, ['"'] + params + ['"'] + tail) == ParseComplexity(pkg, cls, name, params, tail)
  {
    assert (['"'] + params + ['"'] + tail)[1..] == params + ['"'] + tail;
    CutAt(params, '"', tail);
  }

  /**
   * A row reads back as the MethodInfo it was written from, provided the
   * package, class and method names hold no comma and the parameter types
   * no double quote: the parameter types may hold ", " freely.
   */
  lemma RowRoundTrip(info: MethodInfo)
    requires ',' !in info.packageName && ',' !in info.className && ',' !in info.methodName
    requires '"' !in info.parameterTypes
    ensures ParseRow(Row(info)) == Some(info)
  {
    var tail := [','] + Decimal(info.complexity) + ['\n'];
    var r3 := ['"'] + info.parameterTypes + ['"'] + tail;
    var r2 := info.methodName + [','] + r3;
    var r1 := info.className + [','] + r2;
    assert Row(info) == info.packageName + [','] + r1;
    CutAt(info.packageName, ',', r1);
    CutAt(info.className, ',', r2);
    CutAt(info.methodName, ',', r3);
    ParametersRoundTrip(info.packageName, info.className, info.methodName, info.parameterTypes, tail);
    ComplexityRoundTrip(info.packageName, info.className, info.methodName, info.parameterTypes, info.complexity);
  }

  lemma {:induction false} NatDigitsAreDigits(n: nat)
    ensures forall i :: 0 <= i < |NatDigits(n)| ==> '0' <= NatDigits(n)[i] <= '9'
    decreases n
  {
    if n >= 10 {
      NatDigitsAreDigits(n / 10);
    }
  }
}
