/**
 * The already-parsed Java syntax tree that both analyses walk.
 *
 * Only the node kinds the analyses distinguish are kept; every other node
 * (blocks, expressions, lambda bodies, case entries, ...) is an `Other`
 * statement that merely holds its children.  Every sequence of children is
 * in source order.
 */
module Syntax {

  datatype Option<+T> = None | Some(value: T)

  /** Which JavaParser declaration class a type declaration is. */
  datatype TypeKind =
    | ClassOrInterface    // ClassOrInterfaceDeclaration
    | Enum                // EnumDeclaration
    | RecordOrAnnotation  // any other TypeDeclaration: neither analysis treats it specially

  /** The statements whose visit increments the complexity counter. */
  datatype ControlKind = IfStmt | ForStmt | WhileStmt | ForEachStmt | DoStmt | SwitchStmt

  datatype CompilationUnit = CompilationUnit(packageName: Option<string>, types: seq<TypeDecl>)

  /**
   * `name` is the simple name; `qualifiedName` is what getFullyQualifiedName
   * yields (absent for local classes).
   */
  datatype TypeDecl = TypeDecl(
    kind: TypeKind,
    isPublic: bool,
    name: string,
    qualifiedName: Option<string>,
    members: seq<Member>)

  /**
   * `declaration` is the text getDeclarationAsString(true, true) yields;
   * `paramTypes` are the parameters' type strings in declaration order.
   */
  datatype MethodDecl = MethodDecl(
    isPublic: bool,
    name: string,
    paramTypes: seq<string>,
    declaration: string,
    body: seq<Stmt>)

  datatype Member =
    | Field(isPrivate: bool, variables: seq<string>, initializers: seq<Stmt>)
    | Method(decl: MethodDecl)
    | NestedType(nested: TypeDecl)
      /** a constructor or an initializer block: not a MethodDeclaration */
    | OtherMember(body: seq<Stmt>)

  datatype CatchClause = CatchClause(body: seq<Stmt>)

  datatype Stmt =
    | Control(kind: ControlKind, children: seq<Stmt>)
    | Try(block: seq<Stmt>, catches: seq<CatchClause>, finallyBlock: seq<Stmt>)
      /** a local class, enum or record declared inside a body */
    | LocalType(local: TypeDecl)
      /** the body of an anonymous class (`new T() { ... }`): not a type declaration */
    | AnonymousClass(members: seq<Member>)
    | Other(children: seq<Stmt>)

  /**
   * The nearest enclosing ClassOrInterfaceDeclaration's simple name, once
   * the walk has entered `d`: enums, records and annotations are skipped.
   */
  function Enclosing(d: TypeDecl, outer: Option<string>): Option<string>
  {
    if d.kind == ClassOrInterface then Some(d.name) else outer
  }

  // ---------------------------------------------------------------------
  // Does a subtree declare a method?  (local and anonymous classes and the
  // methods of nested types all count)
  // ---------------------------------------------------------------------

  predicate DeclaresMethodStmts(ss: seq<Stmt>)
    decreases ss
  {
    if ss == [] then false
    else DeclaresMethodStmts(ss[..|ss| - 1]) || DeclaresMethodStmt(ss[|ss| - 1])
  }

  predicate DeclaresMethodStmt(s: Stmt)
    decreases s
  {
    match s
    case Control(_, children) => DeclaresMethodStmts(children)
    case Try(block, catches, fin) =>
      DeclaresMethodStmts(block) || DeclaresMethodCatches(catches) || DeclaresMethodStmts(fin)
    case LocalType(d) => DeclaresMethodMembers(d.members)
    case AnonymousClass(members) => DeclaresMethodMembers(members)
    case Other(children) => DeclaresMethodStmts(children)
  }

  predicate DeclaresMethodCatches(cs: seq<CatchClause>)
    decreases cs
  {
    if cs == [] then false
    else DeclaresMethodCatches(cs[..|cs| - 1]) || DeclaresMethodStmts(cs[|cs| - 1].body)
  }

  predicate DeclaresMethodMembers(ms: seq<Member>)
    decreases ms
  {
    if ms == [] then false
    else DeclaresMethodMembers(ms[..|ms| - 1]) || DeclaresMethodMember(ms[|ms| - 1])
  }

  predicate DeclaresMethodMember(m: Member)
    decreases m
  {
    match m
    case Field(_, _, inits) => DeclaresMethodStmts(inits)
    case Method(_) => true
    case NestedType(d) => DeclaresMethodMembers(d.members)
    case OtherMember(body) => DeclaresMethodStmts(body)
  }

  // ---------------------------------------------------------------------
  // Every method declaration of a subtree, in preorder, with the simple name
  // of its nearest enclosing class or interface: what
  // `unit.findAll(MethodDeclaration.class)` followed by
  // `findAncestor(ClassOrInterfaceDeclaration.class)` yields.
  // ---------------------------------------------------------------------

  datatype MethodSite = MethodSite(decl: MethodDecl, enclosingClass: Option<string>)

  function SitesInStmts(ss: seq<Stmt>, cls: Option<string>): seq<MethodSite>
    decreases ss
  {
    if ss == [] then []
    else SitesInStmts(ss[..|ss| - 1], cls) + SitesInStmt(ss[|ss| - 1], cls)
  }

  function SitesInStmt(s: Stmt, cls: Option<string>): seq<MethodSite>
    decreases s
  {
    match s
    case Control(_, children) => SitesInStmts(children, cls)
    case Try(block, catches, fin) =>
      SitesInStmts(block, cls) + SitesInCatches(catches, cls) + SitesInStmts(fin, cls)
    case LocalType(d) => SitesInMembers(d.members, Enclosing(d, cls))
    case AnonymousClass(members) => SitesInMembers(members, cls)
    case Other(children) => SitesInStmts(children, cls)
  }

  function SitesInCatches(cs: seq<CatchClause>, cls: Option<string>): seq<MethodSite>
    decreases cs
  {
    if cs == [] then []
    else SitesInCatches(cs[..|cs| - 1], cls) + SitesInStmts(cs[|cs| - 1].body, cls)
  }

  function SitesInMembers(ms: seq<Member>, cls: Option<string>): seq<MethodSite>
    decreases ms
  {
    if ms == [] then []
    else SitesInMembers(ms[..|ms| - 1], cls) + SitesInMember(ms[|ms| - 1], cls)
  }

  function SitesInMember(m: Member, cls: Option<string>): seq<MethodSite>
    decreases m
  {
    match m
    case Field(_, _, inits) => SitesInStmts(inits, cls)
    case Method(decl) => [MethodSite(decl, cls)] + SitesInStmts(decl.body, cls)
    case NestedType(d) => SitesInMembers(d.members, Enclosing(d, cls))
    case OtherMember(body) => SitesInStmts(body, cls)
  }

  function SitesInTypes(ts: seq<TypeDecl>): seq<MethodSite>
    decreases ts
  {
    if ts == [] then []
    else SitesInTypes(ts[..|ts| - 1]) + SitesInMembers(ts[|ts| - 1].members, Enclosing(ts[|ts| - 1], None))
  }

  /** The methods `unit.findAll(MethodDeclaration.class)` returns, in order. */
  function SitesInUnit(u: CompilationUnit): seq<MethodSite>
  {
    SitesInTypes(u.types)
  }
}
