/**
 * An abstract, attributed Java syntax tree: the node kinds the recipes look at, each with the
 * resolved type information they consult. Node kinds the recipes never inspect (if, return,
 * new, lambda, binary, ...) are `Other` nodes that only carry children.
 */
module JavaTree {
  import opened Wrappers

  /** The value of a literal: a `String`, or anything else (number, boolean, char, null). */
  datatype LitValue = StringValue(s: string) | NonStringValue

  /** A resolved method type: its declaring type's fully qualified name and its name. */
  datatype MethodType = MethodType(declaringType: string, name: string)

  /** A resolved class type (`JavaType.Class`): package and class name. */
  datatype ClassType = ClassType(packageName: string, className: string)

  /** A tree node. */
  datatype J =
    | FieldAccess(target: J, name: string)
    | Identifier(name: string)
    | Literal(value: LitValue)
      /** `found` is the search-result mark that a search recipe puts on the call. */
    | MethodInvocation(select: Option<J>, name: string, methodType: Option<MethodType>, args: seq<J>, found: bool)
    | Block(stmts: seq<J>)
    | MethodDeclaration(name: string, body: Option<J>)
      /** `members` are the statements of the class body. */
    | ClassDeclaration(name: string, classType: Option<ClassType>, members: seq<J>)
      /** One declaration of one or more variables of one type; `inits` are the initializers. */
    | VariableDeclarations(varType: Option<ClassType>, firstName: string, otherNames: seq<string>, inits: seq<J>)
    | CompilationUnit(packageName: string, classes: seq<J>)
    | Other(kind: string, children: seq<J>)

  /** The fully qualified name of a class type. */
  function Fqn(t: ClassType): string {
    if t.packageName == "" then t.className else t.packageName + "." + t.className
  }

  /** The direct children of a node, in the order a visitor visits them. */
  function Children(t: J): (cs: seq<J>)
    ensures forall i :: 0 <= i < |cs| ==> cs[i] < t
  {
    match t
    case FieldAccess(target, _) => [target]
    case Identifier(_) => []
    case Literal(_) => []
    case MethodInvocation(select, _, _, args, _) =>
      if select.Some? then [select.value] + args else args
    case Block(stmts) => stmts
    case MethodDeclaration(_, body) => if body.Some? then [body.value] else []
    case ClassDeclaration(_, _, members) => members
    case VariableDeclarations(_, _, _, inits) => inits
    case CompilationUnit(_, classes) => classes
    case Other(_, children) => children
  }

  /** Two nodes of the same kind with the same attributes and the same number of children. */
  predicate SameNode(a: J, b: J) {
    match a
    case FieldAccess(_, name) => b.FieldAccess? && b.name == name
    case Identifier(name) => b == a
    case Literal(value) => b == a
    case MethodInvocation(select, name, mt, args, found) =>
      b.MethodInvocation? && b.select.Some? == select.Some? && b.name == name && b.methodType == mt
      && |b.args| == |args| && b.found == found
    case Block(stmts) => b.Block? && |b.stmts| == |stmts|
    case MethodDeclaration(name, body) => b.MethodDeclaration? && b.name == name && b.body.Some? == body.Some?
    case ClassDeclaration(name, ty, members) =>
      b.ClassDeclaration? && b.name == name && b.classType == ty && |b.members| == |members|
    case VariableDeclarations(ty, first, others, inits) =>
      b.VariableDeclarations? && b.varType == ty && b.firstName == first && b.otherNames == others
      && |b.inits| == |inits|
    case CompilationUnit(pkg, classes) => b.CompilationUnit? && b.packageName == pkg && |b.classes| == |classes|
    case Other(kind, children) => b.Other? && b.kind == kind && |b.children| == |children|
  }

  /** The node `t` with its children replaced, in order, by `cs`. */
  function WithChildren(t: J, cs: seq<J>): (r: J)
    requires |cs| == |Children(t)|
    ensures Children(r) == cs && SameNode(t, r)
  {
    match t
    case FieldAccess(_, name) => FieldAccess(cs[0], name)
    case Identifier(_) => t
    case Literal(_) => t
    case MethodInvocation(select, name, mt, args, found) =>
      if select.Some? then MethodInvocation(Some(cs[0]), name, mt, cs[1..], found)
      else MethodInvocation(None, name, mt, cs, found)
    case Block(_) => Block(cs)
    case MethodDeclaration(name, body) => MethodDeclaration(name, if body.Some? then Some(cs[0]) else None)
    case ClassDeclaration(name, ty, _) => ClassDeclaration(name, ty, cs)
    case VariableDeclarations(ty, first, others, _) => VariableDeclarations(ty, first, others, cs)
    case CompilationUnit(pkg, _) => CompilationUnit(pkg, cs)
    case Other(kind, _) => Other(kind, cs)
  }

  /** The node reached from `t` by following `path`, one child index per step, if any. */
  function SubtreeAt(t: J, path: seq<nat>): Option<J>
    decreases |path|
  {
    if path == [] then Some(t)
    else if path[0] < |Children(t)| then SubtreeAt(Children(t)[path[0]], path[1..])
    else None
  }

  /** A node is determined by its kind, its attributes and its children. */
  lemma SameNodeAndChildren(a: J, b: J)
    requires SameNode(a, b) && Children(a) == Children(b)
    ensures a == b
  {
    match a
    case MethodInvocation(select, _, _, args, _) =>
      if select.Some? {
        assert b.select == Some(Children(b)[0]) && b.args == Children(b)[1..];
        assert select == Some(Children(a)[0]) && args == Children(a)[1..];
      }
    case MethodDeclaration(_, body) =>
      if body.Some? {
        assert b.body == Some(Children(b)[0]);
      }
    case _ =>
  }

  /** Replacing the children of a node by its own children gives the node back. */
  lemma WithOwnChildren(t: J)
    ensures WithChildren(t, Children(t)) == t
  {
    SameNodeAndChildren(t, WithChildren(t, Children(t)));
  }

  // ASCII case folding: `String.equalsIgnoreCase` restricted to ASCII letters.

  function ToLowerAscii(c: char): (r: char)
    ensures 'A' <= c <= 'Z' ==> r as int == c as int + 32
    ensures !('A' <= c <= 'Z') ==> r == c
  {
    if 'A' <= c <= 'Z' then (c as int + 32) as char else c
  }

  /** Equal length and the same characters after ASCII case folding. */
  predicate EqualsIgnoreCase(a: string, b: string) {
    |a| == |b| && forall i :: 0 <= i < |a| ==> ToLowerAscii(a[i]) == ToLowerAscii(b[i])
  }

  /** Case-insensitive comparison is an equivalence relation. */
  lemma EqualsIgnoreCaseIsEquivalence(a: string, b: string, c: string)
    ensures EqualsIgnoreCase(a, a)
    ensures EqualsIgnoreCase(a, b) ==> EqualsIgnoreCase(b, a)
    ensures EqualsIgnoreCase(a, b) && EqualsIgnoreCase(b, c) ==> EqualsIgnoreCase(a, c)
  {
  }
}
