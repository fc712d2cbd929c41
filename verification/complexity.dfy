/**
 * CyclomaticComplexityVisitor: one shared counter, reset on every method
 * entry and incremented after each if/for/while/for-each/switch/do
 * statement and each catch clause has been visited, and a table of
 * MethodInfo rows keyed by method name alone.
 *
 * The functions `After*` give the visitor's state after a visit as a
 * function of the state before it; the class's methods are proved to
 * compute exactly that, and the lemmas state what the functions mean.
 */
module CyclomaticComplexity {
  import opened Syntax

  /** One row of the complexity table (an immutable record). */
  datatype MethodInfo = MethodInfo(
    packageName: string,
    className: string,
    methodName: string,
    parameterTypes: string,
    complexity: int)

  /** The visitor's mutable part: the shared counter and the table. */
  datatype VisitorState = VisitorState(complexity: int, rows: map<string, MethodInfo>)

  const NoParameters := "No parameters"
  const NoClass := "No class"

  // ---------------------------------------------------------------------
  // The parameter-types string
  // ---------------------------------------------------------------------

  /** The stream reduction that joins two type strings with ", ": a left fold over a non-empty list. */
  function JoinTypes(ts: seq<string>): string
    requires ts != []
    decreases |ts|
  {
    if |ts| == 1 then ts[0] else JoinTypes(ts[..|ts| - 1]) + ", " + ts[|ts| - 1]
  }

  /** The type strings after the first, each preceded by ", ". */
  function Separated(ts: seq<string>): string
    decreases |ts|
  {
    if ts == [] then "" else ", " + ts[0] + Separated(ts[1..])
  }

  lemma {:induction false} SeparatedAppend(ts: seq<string>, t: string)
    ensures Separated(ts + [t]) == Separated(ts) + ", " + t
    decreases |ts|
  {
    if ts != [] {
      assert (ts + [t])[1..] == ts[1..] + [t];
      SeparatedAppend(ts[1..], t);
    }
  }

  /**
   * The left fold agrees with the plain reading "the first type, then each
   * further type preceded by a comma and a space, in declaration order".
   */
  lemma {:induction false} JoinTypesInOrder(ts: seq<string>)
    requires ts != []
    ensures JoinTypes(ts) == ts[0] + Separated(ts[1..])
    decreases |ts|
  {
    if |ts| > 1 {
      var init := ts[..|ts| - 1];
      JoinTypesInOrder(init);
      assert init[1..] + [ts[|ts| - 1]] == ts[1..];
      SeparatedAppend(init[1..], ts[|ts| - 1]);
    }
  }

  function ParameterTypes(ts: seq<string>): (r: string)
    ensures ts == [] ==> r == NoParameters
    ensures ts != [] ==> r == ts[0] + Separated(ts[1..])
  {
    if ts == [] then NoParameters
    else
      JoinTypesInOrder(ts);
      JoinTypes(ts)
  }

  function ClassName(enclosing: Option<string>): string
  {
    match enclosing
    case Some(name) => name
    case None => NoClass
  }

  // ---------------------------------------------------------------------
  // The state after a visit, as a function of the state before it
  // ---------------------------------------------------------------------

  /** visit(MethodDeclaration): reset, visit the body, then record a row. */
  function AfterMethod(n: MethodDecl, cls: Option<string>, pkg: string, st: VisitorState): VisitorState
    decreases n
  {
    var done := AfterStmts(n.body, cls, pkg, VisitorState(1, st.rows));
    var info := MethodInfo(pkg, ClassName(cls), n.name, ParameterTypes(n.paramTypes), done.complexity);
    VisitorState(done.complexity, done.rows[n.name := info])
  }

  function AfterStmts(ss: seq<Stmt>, cls: Option<string>, pkg: string, st: VisitorState): VisitorState
    decreases ss
  {
    if ss == [] then st
    else AfterStmt(ss[|ss| - 1], cls, pkg, AfterStmts(ss[..|ss| - 1], cls, pkg, st))
  }

  /** The counting overloads visit their children first, then increment. */
  function AfterStmt(s: Stmt, cls: Option<string>, pkg: string, st: VisitorState): VisitorState
    decreases s
  {
    match s
    case Control(_, children) =>
      var done := AfterStmts(children, cls, pkg, st);
      done.(complexity := done.complexity + 1)
    case Try(block, catches, fin) =>
      AfterStmts(fin, cls, pkg, AfterCatches(catches, cls, pkg, AfterStmts(block, cls, pkg, st)))
    case LocalType(d) => AfterMembers(d.members, Enclosing(d, cls), pkg, st)
    case AnonymousClass(members) => AfterMembers(members, cls, pkg, st)
    case Other(children) => AfterStmts(children, cls, pkg, st)
  }

  function AfterCatches(cs: seq<CatchClause>, cls: Option<string>, pkg: string, st: VisitorState): VisitorState
    decreases cs
  {
    if cs == [] then st
    else
      var done := AfterStmts(cs[|cs| - 1].body, cls, pkg, AfterCatches(cs[..|cs| - 1], cls, pkg, st));
      done.(complexity := done.complexity + 1)
  }

  function AfterMembers(ms: seq<Member>, cls: Option<string>, pkg: string, st: VisitorState): VisitorState
    decreases ms
  {
    if ms == [] then st
    else AfterMember(ms[|ms| - 1], cls, pkg, AfterMembers(ms[..|ms| - 1], cls, pkg, st))
  }

  function AfterMember(m: Member, cls: Option<string>, pkg: string, st: VisitorState): VisitorState
    decreases m
  {
    match m
    case Field(_, _, inits) => AfterStmts(inits, cls, pkg, st)
    case Method(n) => AfterMethod(n, cls, pkg, st)
    case NestedType(d) => AfterMembers(d.members, Enclosing(d, cls), pkg, st)
    case OtherMember(body) => AfterStmts(body, cls, pkg, st)
  }

  // ---------------------------------------------------------------------
  // The reference count: constructs anywhere in a subtree
  // ---------------------------------------------------------------------

  function CountStmts(ss: seq<Stmt>): nat
    decreases ss
  {
    if ss == [] then 0 else CountStmts(ss[..|ss| - 1]) + CountStmt(ss[|ss| - 1])
  }

  /** One per if/for/while/for-each/switch/do statement and per catch clause. */
  function CountStmt(s: Stmt): nat
    decreases s
  {
    match s
    case Control(_, children) => 1 + CountStmts(children)
    case Try(block, catches, fin) => CountStmts(block) + CountCatches(catches) + CountStmts(fin)
    case LocalType(d) => CountMembers(d.members)
    case AnonymousClass(members) => CountMembers(members)
    case Other(children) => CountStmts(children)
  }

  function CountCatches(cs: seq<CatchClause>): nat
    decreases cs
  {
    if cs == [] then 0 else CountCatches(cs[..|cs| - 1]) + 1 + CountStmts(cs[|cs| - 1].body)
  }

  function CountMembers(ms: seq<Member>): nat
    decreases ms
  {
    if ms == [] then 0 else CountMembers(ms[..|ms| - 1]) + CountMember(ms[|ms| - 1])
  }

  function CountMember(m: Member): nat
    decreases m
  {
    match m
    case Field(_, _, inits) => CountStmts(inits)
    case Method(n) => CountStmts(n.body)
    case NestedType(d) => CountMembers(d.members)
    case OtherMember(body) => CountStmts(body)
  }

  // ---------------------------------------------------------------------
  // Without a nested method the counter just adds the reference count
  // ---------------------------------------------------------------------

  lemma {:induction false} CounterAddsStmts(ss: seq<Stmt>, cls: Option<string>, pkg: string, st: VisitorState)
    requires !DeclaresMethodStmts(ss)
    ensures AfterStmts(ss, cls, pkg, st) == VisitorState(st.complexity + CountStmts(ss), st.rows)
    decreases ss
  {
    if ss != [] {
      var init := ss[..|ss| - 1];
      CounterAddsStmts(init, cls, pkg, st);
      CounterAddsStmt(ss[|ss| - 1], cls, pkg, AfterStmts(init, cls, pkg, st));
    }
  }

  lemma {:induction false} CounterAddsStmt(s: Stmt, cls: Option<string>, pkg: string, st: VisitorState)
    requires !DeclaresMethodStmt(s)
    ensures AfterStmt(s, cls, pkg, st) == VisitorState(st.complexity + CountStmt(s), st.rows)
    decreases s
  {
    match s
    case Control(_, children) => CounterAddsStmts(children, cls, pkg, st);
    case Try(block, catches, fin) =>
      CounterAddsStmts(block, cls, pkg, st);
      var b := AfterStmts(block, cls, pkg, st);
      CounterAddsCatches(catches, cls, pkg, b);
      CounterAddsStmts(fin, cls, pkg, AfterCatches(catches, cls, pkg, b));
    case LocalType(d) => CounterAddsMembers(d.members, Enclosing(d, cls), pkg, st);
    case AnonymousClass(members) => CounterAddsMembers(members, cls, pkg, st);
    case Other(children) => CounterAddsStmts(children, cls, pkg, st);
  }

  lemma {:induction false} CounterAddsCatches(cs: seq<CatchClause>, cls: Option<string>, pkg: string, st: VisitorState)
    requires !DeclaresMethodCatches(cs)
    ensures AfterCatches(cs, cls, pkg, st) == VisitorState(st.complexity + CountCatches(cs), st.rows)
    decreases cs
  {
    if cs != [] {
      var init := cs[..|cs| - 1];
      CounterAddsCatches(init, cls, pkg, st);
      CounterAddsStmts(cs[|cs| - 1].body, cls, pkg, AfterCatches(init, cls, pkg, st));
    }
  }

  lemma {:induction false} CounterAddsMembers(ms: seq<Member>, cls: Option<string>, pkg: string, st: VisitorState)
    requires !DeclaresMethodMembers(ms)
    ensures AfterMembers(ms, cls, pkg, st) == VisitorState(st.complexity + CountMembers(ms), st.rows)
    decreases ms
  {
    if ms != [] {
      var init := ms[..|ms| - 1];
      CounterAddsMembers(init, cls, pkg, st);
      CounterAddsMember(ms[|ms| - 1], cls, pkg, AfterMembers(init, cls, pkg, st));
    }
  }

  lemma {:induction false} CounterAddsMember(m: Member, cls: Option<string>, pkg: string, st: VisitorState)
    requires !DeclaresMethodMember(m)
    ensures AfterMember(m, cls, pkg, st) == VisitorState(st.complexity + CountMember(m), st.rows)
    decreases m
  {
    match m
    case Field(_, _, inits) => CounterAddsStmts(inits, cls, pkg, st);
    case NestedType(d) => CounterAddsMembers(d.members, Enclosing(d, cls), pkg, st);
    case OtherMember(body) => CounterAddsStmts(body, cls, pkg, st);
  }

  /**
   * The headline property: for a method whose body declares no method, the
   * recorded complexity is 1 plus the number of if/for/while/for-each/
   * switch/do statements and catch clauses anywhere in the body (inside
   * lambdas and other nested nodes too); the row replaces whatever was
   * stored under the method's name and every other row is left alone.
   */
  lemma RecordedComplexity(n: MethodDecl, cls: Option<string>, pkg: string, st: VisitorState)
    requires !DeclaresMethodStmts(n.body)
    ensures AfterMethod(n, cls, pkg, st).rows
         == st.rows[n.name := MethodInfo(pkg, ClassName(cls), n.name, ParameterTypes(n.paramTypes), 1 + CountStmts(n.body))]
    ensures AfterMethod(n, cls, pkg, st).complexity == 1 + CountStmts(n.body)
  {
    CounterAddsStmts(n.body, cls, pkg, VisitorState(1, st.rows));
  }

  /** A switch adds exactly one, whatever the number of its cases. */
  lemma SwitchAddsOne(cases: seq<Stmt>, cls: Option<string>, pkg: string, st: VisitorState)
    requires !DeclaresMethodStmts(cases)
    ensures AfterStmt(Control(SwitchStmt, cases), cls, pkg, st).complexity
         == st.complexity + 1 + CountStmts(cases)
    ensures CountStmts(cases) == 0 ==>
            AfterStmt(Control(SwitchStmt, cases), cls, pkg, st) == st.(complexity := st.complexity + 1)
  {
    CounterAddsStmts(cases, cls, pkg, st);
  }

  // ---------------------------------------------------------------------
  // Rows are only ever added or overwritten, and every row written while the
  // package is `pkg` carries `pkg`, its own key as method name, and a
  // complexity of at least 1; the counter never drops below 1
  // ---------------------------------------------------------------------

  ghost predicate Grows(before: VisitorState, after: VisitorState, pkg: string)
  {
    && before.rows.Keys <= after.rows.Keys
    && (before.complexity >= 1 ==> after.complexity >= 1)
    && forall k :: k in after.rows ==>
         || (k in before.rows && after.rows[k] == before.rows[k])
         || (after.rows[k].packageName == pkg && after.rows[k].methodName == k && after.rows[k].complexity >= 1)
  }

  lemma GrowsTransitive(a: VisitorState, b: VisitorState, c: VisitorState, pkg: string)
    requires Grows(a, b, pkg) && Grows(b, c, pkg)
    ensures Grows(a, c, pkg)
  {
  }

  lemma {:induction false} GrowsMethod(n: MethodDecl, cls: Option<string>, pkg: string, st: VisitorState)
    ensures Grows(st, AfterMethod(n, cls, pkg, st), pkg)
    ensures AfterMethod(n, cls, pkg, st).complexity >= 1
    decreases n
  {
    var start := VisitorState(1, st.rows);
    GrowsStmts(n.body, cls, pkg, start);
  }

  lemma {:induction false} GrowsStmts(ss: seq<Stmt>, cls: Option<string>, pkg: string, st: VisitorState)
    ensures Grows(st, AfterStmts(ss, cls, pkg, st), pkg)
    decreases ss
  {
    if ss != [] {
      var init := ss[..|ss| - 1];
      var mid := AfterStmts(init, cls, pkg, st);
      GrowsStmts(init, cls, pkg, st);
      GrowsStmt(ss[|ss| - 1], cls, pkg, mid);
      GrowsTransitive(st, mid, AfterStmts(ss, cls, pkg, st), pkg);
    }
  }

  lemma {:induction false} GrowsStmt(s: Stmt, cls: Option<string>, pkg: string, st: VisitorState)
    ensures Grows(st, AfterStmt(s, cls, pkg, st), pkg)
    decreases s
  {
    match s
    case Control(_, children) => GrowsStmts(children, cls, pkg, st);
    case Try(block, catches, fin) =>
      var b := AfterStmts(block, cls, pkg, st);
      var c := AfterCatches(catches, cls, pkg, b);
      GrowsStmts(block, cls, pkg, st);
      GrowsCatches(catches, cls, pkg, b);
      GrowsStmts(fin, cls, pkg, c);
      GrowsTransitive(st, b, c, pkg);
      GrowsTransitive(st, c, AfterStmts(fin, cls, pkg, c), pkg);
    case LocalType(d) => GrowsMembers(d.members, Enclosing(d, cls), pkg, st);
    case AnonymousClass(members) => GrowsMembers(members, cls, pkg, st);
    case Other(children) => GrowsStmts(children, cls, pkg, st);
  }

  lemma {:induction false} GrowsCatches(cs: seq<CatchClause>, cls: Option<string>, pkg: string, st: VisitorState)
    ensures Grows(st, AfterCatches(cs, cls, pkg, st), pkg)
    decreases cs
  {
    if cs != [] {
      var init := cs[..|cs| - 1];
      var mid := AfterCatches(init, cls, pkg, st);
      GrowsCatches(init, cls, pkg, st);
      GrowsStmts(cs[|cs| - 1].body, cls, pkg, mid);
      GrowsTransitive(st, mid, AfterStmts(cs[|cs| - 1].body, cls, pkg, mid), pkg);
    }
  }

  lemma {:induction false} GrowsMembers(ms: seq<Member>, cls: Option<string>, pkg: string, st: VisitorState)
    ensures Grows(st, AfterMembers(ms, cls, pkg, st), pkg)
    decreases ms
  {
    if ms != [] {
      var init := ms[..|ms| - 1];
      var mid := AfterMembers(init, cls, pkg, st);
      GrowsMembers(init, cls, pkg, st);
      GrowsMember(ms[|ms| - 1], cls, pkg, mid);
      GrowsTransitive(st, mid, AfterMembers(ms, cls, pkg, st), pkg);
    }
  }

  lemma {:induction false} GrowsMember(m: Member, cls: Option<string>, pkg: string, st: VisitorState)
    ensures Grows(st, AfterMember(m, cls, pkg, st), pkg)
    decreases m
  {
    match m
    case Field(_, _, inits) => GrowsStmts(inits, cls, pkg, st);
    case Method(n) => GrowsMethod(n, cls, pkg, st);
    case NestedType(d) => GrowsMembers(d.members, Enclosing(d, cls), pkg, st);
    case OtherMember(body) => GrowsStmts(body, cls, pkg, st);
  }

  /**
   * Visiting a method always leaves a row under its name carrying the
   * current package, its class, its parameter types and the final counter,
   * which is at least 1; an earlier row under that name is overwritten.
   */
  lemma MethodRowRecorded(n: MethodDecl, cls: Option<string>, pkg: string, st: VisitorState)
    ensures var after := AfterMethod(n, cls, pkg, st);
      && n.name in after.rows
      && after.rows[n.name] == MethodInfo(pkg, ClassName(cls), n.name, ParameterTypes(n.paramTypes), after.complexity)
      && after.complexity >= 1
  {
    GrowsMethod(n, cls, pkg, st);
  }

  /**
   * Of two visited methods with the same name, only the later row survives:
   * the row under the shared name, complexity included, is the one the
   * second visit would have stored had the first never happened.
   */
  lemma SameNameOverwrites(n1: MethodDecl, c1: Option<string>, n2: MethodDecl, c2: Option<string>,
                           pkg: string, st: VisitorState)
    requires n1.name == n2.name
    ensures var after := AfterMethod(n2, c2, pkg, AfterMethod(n1, c1, pkg, st));
      && after.rows[n1.name].className == ClassName(c2)
      && after.rows[n1.name].parameterTypes == ParameterTypes(n2.paramTypes)
      && after.rows[n1.name] == AfterMethod(n2, c2, pkg, st).rows[n2.name]
  {
    var mid := AfterMethod(n1, c1, pkg, st);
    MethodRowRecorded(n2, c2, pkg, mid);
    MethodRowRecorded(n2, c2, pkg, st);
    ResetForgetsStmts(n2.body, c2, pkg, VisitorState(1, mid.rows), VisitorState(1, st.rows));
  }

  // ---------------------------------------------------------------------
  // The shared-counter reset: the counter after a subtree depends only on
  // the counter before it, and not even on that when the subtree declares a
  // method (that method's visit resets the shared counter to 1)
  // ---------------------------------------------------------------------

  lemma {:induction false} ResetForgetsStmts(ss: seq<Stmt>, cls: Option<string>, pkg: string, st1: VisitorState, st2: VisitorState)
    requires DeclaresMethodStmts(ss) || st1.complexity == st2.complexity
    ensures AfterStmts(ss, cls, pkg, st1).complexity == AfterStmts(ss, cls, pkg, st2).complexity
    decreases ss
  {
    if ss != [] {
      var init, last := ss[..|ss| - 1], ss[|ss| - 1];
      var mid1, mid2 := AfterStmts(init, cls, pkg, st1), AfterStmts(init, cls, pkg, st2);
      if DeclaresMethodStmt(last) {
        ResetForgetsStmt(last, cls, pkg, mid1, mid2);
      } else {
        ResetForgetsStmts(init, cls, pkg, st1, st2);
        ResetForgetsStmt(last, cls, pkg, mid1, mid2);
      }
    }
  }

  lemma {:induction false} ResetForgetsStmt(s: Stmt, cls: Option<string>, pkg: string, st1: VisitorState, st2: VisitorState)
    requires DeclaresMethodStmt(s) || st1.complexity == st2.complexity
    ensures AfterStmt(s, cls, pkg, st1).complexity == AfterStmt(s, cls, pkg, st2).complexity
    decreases s
  {
    match s
    case Control(_, children) => ResetForgetsStmts(children, cls, pkg, st1, st2);
    case Try(block, catches, fin) =>
      var b1, b2 := AfterStmts(block, cls, pkg, st1), AfterStmts(block, cls, pkg, st2);
      var c1, c2 := AfterCatches(catches, cls, pkg, b1), AfterCatches(catches, cls, pkg, b2);
      if !DeclaresMethodStmts(fin) {
        if !DeclaresMethodCatches(catches) {
          ResetForgetsStmts(block, cls, pkg, st1, st2);
        }
        ResetForgetsCatches(catches, cls, pkg, b1, b2);
      }
      ResetForgetsStmts(fin, cls, pkg, c1, c2);
    case LocalType(d) => ResetForgetsMembers(d.members, Enclosing(d, cls), pkg, st1, st2);
    case AnonymousClass(members) => ResetForgetsMembers(members, cls, pkg, st1, st2);
    case Other(children) => ResetForgetsStmts(children, cls, pkg, st1, st2);
  }

  lemma {:induction false} ResetForgetsCatches(cs: seq<CatchClause>, cls: Option<string>, pkg: string, st1: VisitorState, st2: VisitorState)
    requires DeclaresMethodCatches(cs) || st1.complexity == st2.complexity
    ensures AfterCatches(cs, cls, pkg, st1).complexity == AfterCatches(cs, cls, pkg, st2).complexity
    decreases cs
  {
    if cs != [] {
      var init, body := cs[..|cs| - 1], cs[|cs| - 1].body;
      var mid1, mid2 := AfterCatches(init, cls, pkg, st1), AfterCatches(init, cls, pkg, st2);
      if !DeclaresMethodStmts(body) {
        ResetForgetsCatches(init, cls, pkg, st1, st2);
      }
      ResetForgetsStmts(body, cls, pkg, mid1, mid2);
    }
  }

  lemma {:induction false} ResetForgetsMembers(ms: seq<Member>, cls: Option<string>, pkg: string, st1: VisitorState, st2: VisitorState)
    requires DeclaresMethodMembers(ms) || st1.complexity == st2.complexity
    ensures AfterMembers(ms, cls, pkg, st1).complexity == AfterMembers(ms, cls, pkg, st2).complexity
    decreases ms
  {
    if ms != [] {
      var init, last := ms[..|ms| - 1], ms[|ms| - 1];
      var mid1, mid2 := AfterMembers(init, cls, pkg, st1), AfterMembers(init, cls, pkg, st2);
      if !DeclaresMethodMember(last) {
        ResetForgetsMembers(init, cls, pkg, st1, st2);
      }
      ResetForgetsMember(last, cls, pkg, mid1, mid2);
    }
  }

  lemma {:induction false} ResetForgetsMember(m: Member, cls: Option<string>, pkg: string, st1: VisitorState, st2: VisitorState)
    requires DeclaresMethodMember(m) || st1.complexity == st2.complexity
    ensures AfterMember(m, cls, pkg, st1).complexity == AfterMember(m, cls, pkg, st2).complexity
    decreases m
  {
    match m
    case Field(_, _, inits) => ResetForgetsStmts(inits, cls, pkg, st1, st2);
    case Method(n) =>
      ResetForgetsStmts(n.body, cls, pkg, VisitorState(1, st1.rows), VisitorState(1, st2.rows));
    case NestedType(d) => ResetForgetsMembers(d.members, Enclosing(d, cls), pkg, st1, st2);
    case OtherMember(body) => ResetForgetsStmts(body, cls, pkg, st1, st2);
  }

  lemma {:induction false} AfterStmtsAppend(a: seq<Stmt>, b: seq<Stmt>, cls: Option<string>, pkg: string, st: VisitorState)
    ensures AfterStmts(a + b, cls, pkg, st) == AfterStmts(b, cls, pkg, AfterStmts(a, cls, pkg, st))
    decreases |b|
  {
    if b != [] {
      var init, last := b[..|b| - 1], b[|b| - 1];
      assert (a + b)[..|a + b| - 1] == a + init;
      assert (a + b)[|a + b| - 1] == last;
      calc {
        AfterStmts(a + b, cls, pkg, st);
        AfterStmt(last, cls, pkg, AfterStmts(a + init, cls, pkg, st));
        { AfterStmtsAppend(a, init, cls, pkg, st); }
        AfterStmt(last, cls, pkg, AfterStmts(init, cls, pkg, AfterStmts(a, cls, pkg, st)));
        AfterStmts(b, cls, pkg, AfterStmts(a, cls, pkg, st));
      }
    } else {
      assert a + b == a;
    }
  }

  /**
   * The outer method's count after a statement `s` that declares a method
   * (a local or anonymous class) is that inner visit's final counter plus
   * only the constructs visited after it: everything the outer method had
   * counted before `s` is lost.
   */
  lemma CountLostBeforeNestedMethod(n: MethodDecl, pre: seq<Stmt>, s: Stmt, post: seq<Stmt>,
                                    cls: Option<string>, pkg: string, st: VisitorState, any: VisitorState)
    requires n.body == pre + [s] + post
    requires DeclaresMethodStmt(s) && !DeclaresMethodStmts(post)
    ensures AfterMethod(n, cls, pkg, st).complexity == AfterStmt(s, cls, pkg, any).complexity + CountStmts(post)
  {
    var start := VisitorState(1, st.rows);
    AfterStmtsAppend(pre + [s], post, cls, pkg, start);
    AfterStmtsAppend(pre, [s], cls, pkg, start);
    var mid := AfterStmts(pre, cls, pkg, start);
    assert AfterStmts([s], cls, pkg, mid) == AfterStmt(s, cls, pkg, mid) by {
      assert [s][..0] == [];
    }
    ResetForgetsStmt(s, cls, pkg, mid, any);
    CounterAddsStmts(post, cls, pkg, AfterStmt(s, cls, pkg, mid));
  }

  /**
   * A concrete instance: two ifs, then a local class whose one method has an
   * empty body, then a for loop.  The outer method records 2 (the inner
   * method's 1, plus the for loop) where 1 + the construct count is 4.
   */
  lemma NestedMethodExample(pkg: string, st: VisitorState)
    ensures var inner := MethodDecl(false, "inner", [], "void inner()", []);
      var local := TypeDecl(ClassOrInterface, false, "Local", None, [Method(inner)]);
      var outer := MethodDecl(true, "outer", [], "public void outer()",
                              [Control(IfStmt, []), Control(IfStmt, []), LocalType(local), Control(ForStmt, [])]);
      && 1 + CountStmts(outer.body) == 4
      && AfterMethod(outer, Some("C"), pkg, st).rows["outer"].complexity == 2
  {
    var inner := MethodDecl(false, "inner", [], "void inner()", []);
    var local := TypeDecl(ClassOrInterface, false, "Local", None, [Method(inner)]);
    var body := [Control(IfStmt, []), Control(IfStmt, []), LocalType(local), Control(ForStmt, [])];
    var outer := MethodDecl(true, "outer", [], "public void outer()", body);
    var pre, post := body[..2], [Control(ForStmt, [])];
    assert body == pre + [LocalType(local)] + post;
    // the local class's visit ends with the counter its own method left: 1
    var ms := [Method(inner)];
    assert AfterMembers(ms, Some("Local"), pkg, st) == AfterMethod(inner, Some("Local"), pkg, st) by {
      assert ms[..|ms| - 1] == [] && ms[|ms| - 1] == Method(inner);
    }
    assert CountMembers(ms) == 0 by {
      assert ms[..|ms| - 1] == [] && ms[|ms| - 1] == Method(inner);
    }
    assert DeclaresMethodMembers(ms) by {
      assert ms[..|ms| - 1] == [] && ms[|ms| - 1] == Method(inner);
    }
    assert AfterStmt(LocalType(local), Some("C"), pkg, st).complexity == 1;
    // the trailing for loop adds one
    assert !DeclaresMethodStmts(post) && CountStmts(post) == 1 by {
      assert post[..|post| - 1] == [];
    }
    CountLostBeforeNestedMethod(outer, pre, LocalType(local), post, Some("C"), pkg, st, st);
    MethodRowRecorded(outer, Some("C"), pkg, st);
    // while the construct count sees all three statements
    assert CountStmts(pre) == 2 by {
      assert pre[..1][..0] == [] && pre[..1] == [Control(IfStmt, [])];
    }
    assert body[..3] == pre + [LocalType(local)] && body[..3][..2] == pre;
    assert CountStmts(body[..3]) == 2;
  }

  // ---------------------------------------------------------------------
  // The visitor itself
  // ---------------------------------------------------------------------

  class CyclomaticComplexityVisitor {
    var complexity: int
    var currentPackage: string
    var methodComplexityMap: map<string, MethodInfo>

    /** The counter and the table, as one value. */
    function State(): VisitorState
      reads this
    {
      VisitorState(complexity, methodComplexityMap)
    }

    /** What the visitor maintains between visits. */
    ghost predicate Valid()
      reads this
    {
      && complexity >= 1
      && forall k :: k in methodComplexityMap ==>
           methodComplexityMap[k].complexity >= 1 && methodComplexityMap[k].methodName == k
    }

    constructor()
      ensures Valid()
      ensures complexity == 1 && methodComplexityMap == map[] && currentPackage == ""
    {
      complexity := 1;
      currentPackage := "";
      methodComplexityMap := map[];
    }

    method SetCurrentPackage(packageName: string)
      modifies this
      ensures currentPackage == packageName
      ensures State() == old(State())
    {
      currentPackage := packageName;
    }

    method GetMethodComplexityMap() returns (m: map<string, MethodInfo>)
      ensures m == methodComplexityMap
    {
      m := methodComplexityMap;
    }

    /** visit(MethodDeclaration); `cls` is the nearest enclosing class's name. */
    method VisitMethod(n: MethodDecl, cls: Option<string>)
      requires Valid()
      modifies this
      ensures Valid()
      ensures State() == AfterMethod(n, cls, currentPackage, old(State()))
      ensures currentPackage == old(currentPackage)
      decreases n
    {
      ghost var before := State();
      complexity := 1;
      VisitStmts(n.body, cls);
      var methodName := n.name;
      var parameterTypes := ParameterTypes(n.paramTypes);
      var className := ClassName(cls);
      methodComplexityMap := methodComplexityMap[methodName :=
        MethodInfo(currentPackage, className, methodName, parameterTypes, complexity)];
      GrowsMethod(n, cls, currentPackage, before);
    }

    method VisitStmts(ss: seq<Stmt>, cls: Option<string>)
      requires Valid()
      modifies this
      ensures Valid()
      ensures State() == AfterStmts(ss, cls, currentPackage, old(State()))
      ensures currentPackage == old(currentPackage)
      decreases ss
    {
      var i := 0;
      while i < |ss|
        invariant 0 <= i <= |ss|
        invariant Valid()
        invariant currentPackage == old(currentPackage)
        invariant State() == AfterStmts(ss[..i], cls, currentPackage, old(State()))
      {
        assert ss[..i + 1][..i] == ss[..i];
        VisitStmt(ss[i], cls);
        i := i + 1;
      }
      assert ss[..i] == ss;
    }

    /**
     * The seven counting overloads (if, for, while, for-each, switch, do and
     * catch): visit the children, then increment.  Every other node is
     * walked through.
     */
    method VisitStmt(s: Stmt, cls: Option<string>)
      requires Valid()
      modifies this
      ensures Valid()
      ensures State() == AfterStmt(s, cls, currentPackage, old(State()))
      ensures currentPackage == old(currentPackage)
      decreases s
    {
      match s
      case Control(_, children) =>
        VisitStmts(children, cls);
        complexity := complexity + 1;
      case Try(block, catches, fin) =>
        VisitStmts(block, cls);
        VisitCatches(catches, cls);
        VisitStmts(fin, cls);
      case LocalType(d) => VisitMembers(d.members, Enclosing(d, cls));
      case AnonymousClass(members) => VisitMembers(members, cls);
      case Other(children) => VisitStmts(children, cls);
    }

    method VisitCatches(cs: seq<CatchClause>, cls: Option<string>)
      requires Valid()
      modifies this
      ensures Valid()
      ensures State() == AfterCatches(cs, cls, currentPackage, old(State()))
      ensures currentPackage == old(currentPackage)
      decreases cs
    {
      var i := 0;
      while i < |cs|
        invariant 0 <= i <= |cs|
        invariant Valid()
        invariant currentPackage == old(currentPackage)
        invariant State() == AfterCatches(cs[..i], cls, currentPackage, old(State()))
      {
        assert cs[..i + 1][..i] == cs[..i];
        VisitStmts(cs[i].body, cls);
        complexity := complexity + 1;
        i := i + 1;
      }
      assert cs[..i] == cs;
    }

    method VisitMembers(ms: seq<Member>, cls: Option<string>)
      requires Valid()
      modifies this
      ensures Valid()
      ensures State() == AfterMembers(ms, cls, currentPackage, old(State()))
      ensures currentPackage == old(currentPackage)
      decreases ms
    {
      var i := 0;
      while i < |ms|
        invariant 0 <= i <= |ms|
        invariant Valid()
        invariant currentPackage == old(currentPackage)
        invariant State() == AfterMembers(ms[..i], cls, currentPackage, old(State()))
      {
        assert ms[..i + 1][..i] == ms[..i];
        VisitMember(ms[i], cls);
        i := i + 1;
      }
      assert ms[..i] == ms;
    }

    method VisitMember(m: Member, cls: Option<string>)
      requires Valid()
      modifies this
      ensures Valid()
      ensures State() == AfterMember(m, cls, currentPackage, old(State()))
      ensures currentPackage == old(currentPackage)
      decreases m
    {
      match m
      case Field(_, _, inits) => VisitStmts(inits, cls);
      case Method(n) => VisitMethod(n, cls);
      case NestedType(d) => VisitMembers(d.members, Enclosing(d, cls));
      case OtherMember(body) => VisitStmts(body, cls);
    }
  }
}
