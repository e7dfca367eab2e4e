/**
 * The scanning migration recipe that adds an alternative authorization header next to every
 * `Authorization` header a method sets:
 *   - the scan records the last class declaration named `IdaProvider` in a run-wide accumulator;
 *   - if there is none, a fixed `IdaProvider` compilation unit is generated and recorded;
 *   - every class declaration that sets the `Authorization` header gets a field of the provider
 *     type (an existing one is reused), and every method body that sets it gets the statement
 *     `headers.add("NEW_AUTHORIZATION", <field>.getAuthorizationHeader())` right after the first
 *     statement that sets it, unless the body already holds the literal "NEW_AUTHORIZATION".
 */
module AddAlternativeAuthorizationHeader {
  import opened Wrappers
  import opened JavaTree
  import FindHttpHeaders

  const ProviderClassName := "IdaProvider"
  const ProviderFieldName := "idaProvider"
  const AuthorizationHeader := "Authorization"
  /** The header name of the inserted call; its presence as a literal marks a finished body. */
  const NewAuthorization := "NEW_AUTHORIZATION"

  // ---------------------------------------------------------------------------------------
  // Scanning and generation
  // ---------------------------------------------------------------------------------------

  /** A class type that the scan records: a resolved class whose class name is `IdaProvider`. */
  predicate IsProviderType(classType: Option<ClassType>) {
    classType.Some? && classType.value.className == ProviderClassName
  }

  function Concat<T>(ss: seq<seq<T>>): seq<T> {
    if ss == [] then [] else ss[0] + Concat(ss[1..])
  }

  /** The class types of the class declarations of `t`, in visiting order: a declaration comes
    * before the declarations nested in it. */
  function DeclaredClassTypes(t: J): seq<Option<ClassType>> {
    var cs := Children(t);
    (if t.ClassDeclaration? then [t.classType] else [])
    + Concat(seq(|cs|, i requires 0 <= i < |cs| => DeclaredClassTypes(cs[i])))
  }

  /** The class types the scanner sees over a whole run, source file by source file. */
  function SourceClassTypes(sources: seq<J>): seq<Option<ClassType>> {
    Concat(seq(|sources|, i requires 0 <= i < |sources| => DeclaredClassTypes(sources[i])))
  }

  /** The accumulator after the scanner has visited `decls` in order, starting from `acc`. */
  function ScanResult(acc: Option<ClassType>, decls: seq<Option<ClassType>>): Option<ClassType> {
    if decls == [] then acc
    else
      var before := ScanResult(acc, decls[..|decls| - 1]);
      if IsProviderType(decls[|decls| - 1]) then decls[|decls| - 1] else before
  }

  /** Without a provider declaration, scanning leaves the accumulator as it was. */
  lemma {:induction false} ScanWithoutProvider(acc: Option<ClassType>, decls: seq<Option<ClassType>>)
    requires forall k :: 0 <= k < |decls| ==> !IsProviderType(decls[k])
    ensures ScanResult(acc, decls) == acc
  {
    if decls != [] {
      ScanWithoutProvider(acc, decls[..|decls| - 1]);
    }
  }

  /** The last provider declaration visited wins: an earlier one is overwritten. */
  lemma {:induction false} ScanPicksLast(acc: Option<ClassType>, decls: seq<Option<ClassType>>, k: nat)
    requires k < |decls| && IsProviderType(decls[k])
    requires forall j :: k < j < |decls| ==> !IsProviderType(decls[j])
    ensures ScanResult(acc, decls) == decls[k]
  {
    if k < |decls| - 1 {
      ScanPicksLast(acc, decls[..|decls| - 1], k);
    }
  }

  /** The scan finds a provider exactly when one of the visited declarations is one, or the
    * accumulator held one already. */
  lemma {:induction false} ScanFindsProvider(acc: Option<ClassType>, decls: seq<Option<ClassType>>)
    ensures ScanResult(acc, decls).Some?
            <==> (acc.Some? || exists k :: 0 <= k < |decls| && IsProviderType(decls[k]))
  {
    if decls != [] {
      var last := |decls| - 1;
      ScanFindsProvider(acc, decls[..last]);
      if !IsProviderType(decls[last]) {
        assert forall k :: 0 <= k < last ==> decls[..last][k] == decls[k];
      }
    }
  }

  /** The provider type of the generated unit: `IdaProvider` in the default package. */
  const GeneratedProviderType := ClassType("", ProviderClassName)

  /** A compilation unit declaring the provider class of type `providerType`: a public class
    * `IdaProvider` whose method `getAuthorizationHeader()` returns "NEW_AUTHORIZATION". */
  function ProviderUnit(providerType: ClassType): J {
    CompilationUnit(providerType.packageName, [
      ClassDeclaration(ProviderClassName, Some(providerType), [
        MethodDeclaration("getAuthorizationHeader", Some(Block([
          Other("return", [Literal(StringValue(NewAuthorization))])
        ])))
      ])
    ])
  }

  /** The generated compilation unit: the provider class in the default package. */
  function GeneratedUnit(): J {
    ProviderUnit(GeneratedProviderType)
  }

  /** The run-scoped accumulator of the scanning recipe: the provider type, once known. */
  class Accumulator {
    var provider: Option<ClassType>

    /** The initial value: empty. */
    constructor ()
      ensures provider == None
    {
      provider := None;
    }

    /** The scanner's step at one class declaration: a class named `IdaProvider` overwrites the
      * accumulator; any other declaration leaves it unchanged. */
    method ScanClassDeclaration(classType: Option<ClassType>)
      modifies this
      ensures provider == if IsProviderType(classType) then classType else old(provider)
    {
      if IsProviderType(classType) {
        provider := classType;
      }
    }

    /** The scanning phase: every class declaration of every source file, in order. */
    method Scan(sources: seq<J>)
      modifies this
      ensures provider == ScanResult(old(provider), SourceClassTypes(sources))
    {
      var decls := SourceClassTypes(sources);
      for i := 0 to |decls|
        invariant provider == ScanResult(old(provider), decls[..i])
      {
        assert decls[..i + 1][..i] == decls[..i];
        ScanClassDeclaration(decls[i]);
      }
      assert decls[..|decls|] == decls;
    }

    /** Generation: with an empty accumulator, one `IdaProvider` unit is generated and its type
      * recorded; otherwise nothing is generated. Either way a provider is known afterwards. */
    method Generate() returns (generated: seq<J>)
      modifies this
      ensures old(provider).None? ==> generated == [GeneratedUnit()] && provider == Some(GeneratedProviderType)
      ensures old(provider).Some? ==> generated == [] && provider == old(provider)
      ensures provider.Some?
    {
      if provider.None? {
        var unit := GeneratedUnit();
        generated := [unit];
        provider := unit.classes[0].classType;
      } else {
        generated := [];
      }
    }
  }

  // ---------------------------------------------------------------------------------------
  // The two probes
  // ---------------------------------------------------------------------------------------

  /** `hasAuthorizationHeader`: the tree holds a call that `FindHttpHeaders("Authorization")`
    * marks (on unmarked trees, exactly when that recipe's visitor changes the tree). */
  predicate HasAuthorizationHeader(t: J) {
    FindHttpHeaders.HasHeaderCall(t, AuthorizationHeader)
  }

  /** On an unmarked tree, the probe holds exactly when the search recipe's visitor changes the
    * tree, which is how `hasAuthorizationHeader` decides. */
  lemma HasAuthorizationHeaderIsSearch(t: J)
    requires FindHttpHeaders.Unmarked(t)
    ensures HasAuthorizationHeader(t) <==> FindHttpHeaders.FindHeaders(t, AuthorizationHeader) != t
  {
    FindHttpHeaders.FindHeadersChangesIff(t, AuthorizationHeader);
  }

  /** `hasNewAuthorizationHeader`: some literal of the tree has exactly the value
    * "NEW_AUTHORIZATION" (case-sensitive). */
  predicate HasNewAuthorizationHeader(t: J) {
    t == Literal(StringValue(NewAuthorization))
    || exists i :: 0 <= i < |Children(t)| && HasNewAuthorizationHeader(Children(t)[i])
  }

  // ---------------------------------------------------------------------------------------
  // Field wiring
  // ---------------------------------------------------------------------------------------

  /** A field declaration whose declared type is the provider type (by fully qualified name). */
  predicate IsProviderField(m: J, provider: ClassType) {
    m.VariableDeclarations? && m.varType.Some? && Fqn(m.varType.value) == Fqn(provider)
  }

  /** The position of the first field of the provider type among the members, if any. */
  function FirstProviderField(members: seq<J>, provider: ClassType): (r: Option<nat>)
    ensures r.Some? ==> r.value < |members| && IsProviderField(members[r.value], provider)
    ensures r.Some? ==> forall k :: 0 <= k < r.value ==> !IsProviderField(members[k], provider)
    ensures r.None? ==> forall k :: 0 <= k < |members| ==> !IsProviderField(members[k], provider)
  {
    ProviderFieldFrom(members, provider, 0)
  }

  /** The position of the first field of the provider type among the members from `i` on. */
  function ProviderFieldFrom(members: seq<J>, provider: ClassType, i: nat): (r: Option<nat>)
    requires i <= |members|
    ensures r.Some? ==> i <= r.value < |members| && IsProviderField(members[r.value], provider)
    ensures r.Some? ==> forall k :: i <= k < r.value ==> !IsProviderField(members[k], provider)
    ensures r.None? ==> forall k :: i <= k < |members| ==> !IsProviderField(members[k], provider)
    decreases |members| - i
  {
    if i == |members| then None
    else if IsProviderField(members[i], provider) then Some(i)
    else ProviderFieldFrom(members, provider, i + 1)
  }

  /** The field `IdaProvider idaProvider;`, typed with the provider type, without initializer. */
  function ProviderField(provider: ClassType): J {
    VariableDeclarations(Some(provider), ProviderFieldName, [], [])
  }

  /** What `maybeAutowireProvider` does to a class body. */
  datatype Autowiring = Reuse(fieldName: string) | Prepend(field: J)

  /** `maybeAutowireProvider`: reuse the first field of the provider type, recording its first
    * variable name, or prepend a new field named `idaProvider`. */
  function AutowireProvider(members: seq<J>, provider: ClassType): (w: Autowiring)
    ensures w.Reuse? <==> exists k :: 0 <= k < |members| && IsProviderField(members[k], provider)
    ensures w.Reuse? ==>
              exists k :: 0 <= k < |members| && IsProviderField(members[k], provider)
                          && w.fieldName == members[k].firstName
                          && forall j :: 0 <= j < k ==> !IsProviderField(members[j], provider)
    ensures w.Prepend? ==> w.field == ProviderField(provider)
  {
    match FirstProviderField(members, provider)
    case Some(k) => Reuse(members[k].firstName)
    case None => Prepend(ProviderField(provider))
  }

  /** The field name recorded for the class's descendants. */
  function FieldName(w: Autowiring): string {
    match w
    case Reuse(name) => name
    case Prepend(_) => ProviderFieldName
  }

  /** The class body after wiring. */
  function WiredMembers(w: Autowiring, members: seq<J>): seq<J> {
    match w
    case Reuse(_) => members
    case Prepend(field) => [field] + members
  }

  /** After wiring, the body has a field of the provider type, the recorded name is the first
    * one's, and the original members follow in their order; wiring again reuses that field. */
  lemma WiringIsIdempotent(members: seq<J>, provider: ClassType)
    ensures var w := AutowireProvider(members, provider);
            var wired := WiredMembers(w, members);
            && wired[|wired| - |members|..] == members
            && AutowireProvider(wired, provider) == Reuse(FieldName(w))
  {
    var w := AutowireProvider(members, provider);
    if w.Prepend? {
      assert FirstProviderField([w.field] + members, provider) == Some(0);
    }
  }

  // ---------------------------------------------------------------------------------------
  // Statement insertion
  // ---------------------------------------------------------------------------------------

  /** `headers.add("NEW_AUTHORIZATION", <fieldName>.getAuthorizationHeader());` as the template
    * renders it; the call is attributed to `HttpHeaders.add`, as for a `headers` parameter of
    * type `HttpHeaders`. */
  function NewHeaderStatement(fieldName: string, provider: ClassType): J {
    MethodInvocation(Some(Identifier("headers")), "add",
      Some(MethodType(FindHttpHeaders.HttpHeadersType, "add")),
      [Literal(StringValue(NewAuthorization)),
       MethodInvocation(Some(Identifier(fieldName)), "getAuthorizationHeader",
         Some(MethodType(Fqn(provider), "getAuthorizationHeader")), [], false)],
      false)
  }

  /** The inserted statement carries the sentinel literal and is not itself an `Authorization`
    * header call. */
  lemma NewHeaderStatementIsInert(fieldName: string, provider: ClassType)
    ensures HasNewAuthorizationHeader(NewHeaderStatement(fieldName, provider))
    ensures !HasAuthorizationHeader(NewHeaderStatement(fieldName, provider))
  {
    var s := NewHeaderStatement(fieldName, provider);
    var getter := Children(s)[2];
    assert Children(getter) == [Identifier(fieldName)];
    assert !HasAuthorizationHeader(Identifier(fieldName));
    assert !HasAuthorizationHeader(getter);
    assert Children(s)[0] == Identifier("headers");
    assert !HasAuthorizationHeader(Literal(StringValue(NewAuthorization)));
    assert !HasAuthorizationHeader(Identifier("headers"));
    assert Children(s)[1] == Literal(StringValue(NewAuthorization));
  }

  /** The position of the first statement that sets the `Authorization` header, if any. */
  function FirstHeaderStatement(stmts: seq<J>): (r: Option<nat>)
    ensures r.Some? ==> r.value < |stmts| && HasAuthorizationHeader(stmts[r.value])
    ensures r.Some? ==> forall k :: 0 <= k < r.value ==> !HasAuthorizationHeader(stmts[k])
    ensures r.None? ==> forall k :: 0 <= k < |stmts| ==> !HasAuthorizationHeader(stmts[k])
  {
    HeaderStatementFrom(stmts, 0)
  }

  /** The position of the first statement from `i` on that sets the header. */
  function HeaderStatementFrom(stmts: seq<J>, i: nat): (r: Option<nat>)
    requires i <= |stmts|
    ensures r.Some? ==> i <= r.value < |stmts| && HasAuthorizationHeader(stmts[r.value])
    ensures r.Some? ==> forall k :: i <= k < r.value ==> !HasAuthorizationHeader(stmts[k])
    ensures r.None? ==> forall k :: i <= k < |stmts| ==> !HasAuthorizationHeader(stmts[k])
    decreases |stmts| - i
  {
    if i == |stmts| then None
    else if HasAuthorizationHeader(stmts[i]) then Some(i)
    else HeaderStatementFrom(stmts, i + 1)
  }

  /** `stmts` with `s` placed right after position `i`. */
  function InsertAfter(stmts: seq<J>, i: nat, s: J): (r: seq<J>)
    requires i < |stmts|
    ensures |r| == |stmts| + 1 && r[i + 1] == s
    ensures forall k :: 0 <= k <= i ==> r[k] == stmts[k]
    ensures forall k :: i + 1 < k < |r| ==> r[k] == stmts[k - 1]
  {
    stmts[..i + 1] + [s] + stmts[i + 1..]
  }

  /** The block the insertion template is applied to: the cursor's block, as it was before its
    * statements were visited (as the recipe is written), or the block with its statements'
    * edits (the corrected recipe). */
  datatype TemplateBase = CursorBlock | VisitedBlock

  /** The block needs the new statement: it is a method body, a field name was recorded by an
    * enclosing class, it lacks the sentinel literal and it sets the `Authorization` header. */
  predicate NeedsInsertion(block: seq<J>, parentIsMethod: bool, nearest: Option<string>) {
    parentIsMethod && nearest.Some? && !HasNewAuthorizationHeader(Block(block))
    && FirstHeaderStatement(block).Some?
  }

  /**
   * The statements `visitBlock` returns, given the block's statements before (`block`) and
   * after (`visited`) its children were visited: the statement goes right after the first
   * statement that sets the header, at most once; otherwise the visited statements come back.
   */
  function BlockResult(base: TemplateBase, block: seq<J>, visited: seq<J>, parentIsMethod: bool,
                       nearest: Option<string>, provider: ClassType): (r: seq<J>)
    requires |visited| == |block|
    ensures |r| == |visited| + (if NeedsInsertion(block, parentIsMethod, nearest) then 1 else 0)
    ensures !NeedsInsertion(block, parentIsMethod, nearest) ==> r == visited
    ensures NeedsInsertion(block, parentIsMethod, nearest) ==>
              var i := FirstHeaderStatement(block).value;
              var target := if base == CursorBlock then block else visited;
              && r[i + 1] == NewHeaderStatement(nearest.value, provider)
              && r[..i + 1] == target[..i + 1] && r[i + 2..] == target[i + 1..]
  {
    if NeedsInsertion(block, parentIsMethod, nearest) then
      var target := if base == CursorBlock then block else visited;
      InsertAfter(target, FirstHeaderStatement(block).value, NewHeaderStatement(nearest.value, provider))
    else visited
  }

  /**
   * The loop of `visitBlock`: in a method body, the first statement that sets the header, when
   * the body lacks the sentinel literal and a field name was recorded, gets the new statement
   * after it and the block is returned at once; otherwise the visited block is returned.
   */
  method VisitBlockStatements(base: TemplateBase, block: seq<J>, visited: seq<J>, parentIsMethod: bool,
                              nearest: Option<string>, provider: ClassType) returns (r: seq<J>)
    requires |visited| == |block|
    ensures r == BlockResult(base, block, visited, parentIsMethod, nearest, provider)
  {
    if parentIsMethod {
      for i := 0 to |block|
        invariant nearest.Some? && !HasNewAuthorizationHeader(Block(block)) ==>
                    forall k :: 0 <= k < i ==> !HasAuthorizationHeader(block[k])
      {
        if HasAuthorizationHeader(block[i]) && !HasNewAuthorizationHeader(Block(block)) {
          if nearest.Some? {
            var target := if base == CursorBlock then block else visited;
            return InsertAfter(target, i, NewHeaderStatement(nearest.value, provider));
          }
        }
      }
    }
    return visited;
  }

  // ---------------------------------------------------------------------------------------
  // The transforming visitor
  // ---------------------------------------------------------------------------------------

  /** The field name the children of `t` see: the one `t` records if it is a class declaration
    * that sets the header, else the nearest one recorded above `t`. */
  function InnerName(t: J, provider: ClassType, nearest: Option<string>): Option<string> {
    if t.ClassDeclaration? && HasAuthorizationHeader(t) then Some(FieldName(AutowireProvider(t.members, provider)))
    else nearest
  }

  /** The children of `t`, each visited. */
  function VisitChildren(base: TemplateBase, t: J, provider: ClassType, nearest: Option<string>): (vs: seq<J>)
    ensures |vs| == |Children(t)|
    decreases t, 0
  {
    var cs := Children(t);
    var inner := InnerName(t, provider, nearest);
    seq(|cs|, i requires 0 <= i < |cs| => Visit(base, cs[i], provider, inner, t.MethodDeclaration?))
  }

  /**
   * The transforming visitor at node `t`. `nearest` is the field name recorded by the nearest
   * enclosing class declaration, `parentIsMethod` says whether `t`'s parent is a method
   * declaration. A class declaration that sets the header is wired before its children are
   * visited; a block is handled by `visitBlock` after its children are visited.
   */
  function Visit(base: TemplateBase, t: J, provider: ClassType, nearest: Option<string>, parentIsMethod: bool): (r: J)
    decreases t, 1
  {
    var vs := VisitChildren(base, t, provider, nearest);
    if t.Block? then
      Block(BlockResult(base, t.stmts, vs, parentIsMethod, nearest, provider))
    else if t.ClassDeclaration? && HasAuthorizationHeader(t) then
      // the prepended field has no children to visit
      ClassDeclaration(t.name, t.classType, WiredMembers(AutowireProvider(t.members, provider), vs))
    else
      WithChildren(t, vs)
  }

  /** The recipe's edit of one source file. */
  function TransformSource(base: TemplateBase, t: J, provider: ClassType): J {
    Visit(base, t, provider, None, false)
  }

  // ---------------------------------------------------------------------------------------
  // Properties of the transforming visitor
  // ---------------------------------------------------------------------------------------

  /** A tree without an `Authorization` header call comes back unchanged: no field is added and
    * no statement inserted. */
  lemma {:induction false} NoHeaderCallUnchanged(base: TemplateBase, t: J, provider: ClassType,
                                                 nearest: Option<string>, parentIsMethod: bool)
    requires !HasAuthorizationHeader(t)
    ensures Visit(base, t, provider, nearest, parentIsMethod) == t
  {
    var cs := Children(t);
    var vs := VisitChildren(base, t, provider, nearest);
    var inner := InnerName(t, provider, nearest);
    forall i | 0 <= i < |cs| ensures vs[i] == cs[i] {
      assert !HasAuthorizationHeader(cs[i]);
      NoHeaderCallUnchanged(base, cs[i], provider, inner, t.MethodDeclaration?);
    }
    assert vs == cs;
    WithOwnChildren(t);
  }

  /** Visiting keeps a node's kind and attributes; only children change. */
  lemma VisitKeepsNode(base: TemplateBase, t: J, provider: ClassType, nearest: Option<string>, parentIsMethod: bool)
    ensures var r := Visit(base, t, provider, nearest, parentIsMethod);
            && FindHttpHeaders.KeyName(r) == FindHttpHeaders.KeyName(t)
            && (IsProviderField(r, provider) <==> IsProviderField(t, provider))
            && (t.VariableDeclarations? ==> r.VariableDeclarations? && r.firstName == t.firstName)
            && r.Block? == t.Block? && r.ClassDeclaration? == t.ClassDeclaration?
            && r.MethodDeclaration? == t.MethodDeclaration?
            && (t.Literal? ==> r == t)
            && (!t.Block? && !t.ClassDeclaration? ==> SameNode(t, r) && Children(r) == VisitChildren(base, t, provider, nearest))
  {
  }

  /** A visited call is a header call exactly when the original is. */
  lemma VisitKeepsHeaderCallShape(base: TemplateBase, t: J, provider: ClassType, nearest: Option<string>, parentIsMethod: bool)
    ensures FindHttpHeaders.IsHeaderCall(Visit(base, t, provider, nearest, parentIsMethod), AuthorizationHeader)
            == FindHttpHeaders.IsHeaderCall(t, AuthorizationHeader)
  {
    if t.MethodInvocation? && |t.args| > 0 {
      var r := Visit(base, t, provider, nearest, parentIsMethod);
      var vs := VisitChildren(base, t, provider, nearest);
      var a := if t.select.Some? then 1 else 0;
      assert Children(t)[a] == t.args[0];
      assert r.args[0] == vs[a];
      VisitKeepsNode(base, t.args[0], provider, InnerName(t, provider, nearest), false);
    }
  }

  /** Every statement of a block survives `visitBlock`, visited or as it was. */
  lemma KeptStatement(base: TemplateBase, block: seq<J>, visited: seq<J>, parentIsMethod: bool,
                      nearest: Option<string>, provider: ClassType, i: nat) returns (j: nat)
    requires |visited| == |block| && i < |block|
    ensures var r := BlockResult(base, block, visited, parentIsMethod, nearest, provider);
            j < |r| && (r[j] == block[i] || r[j] == visited[i])
  {
    var r := BlockResult(base, block, visited, parentIsMethod, nearest, provider);
    if NeedsInsertion(block, parentIsMethod, nearest) {
      var k := FirstHeaderStatement(block).value;
      var target := if base == CursorBlock then block else visited;
      if i <= k {
        j := i;
        assert r[..k + 1][i] == target[..k + 1][i];
      } else {
        j := i + 1;
        assert r[k + 2..][i - k - 1] == target[k + 1..][i - k - 1];
      }
    } else {
      j := i;
    }
  }

  /** Every member of a class survives wiring. */
  lemma KeptMember(w: Autowiring, members: seq<J>, i: nat) returns (j: nat)
    requires i < |members|
    ensures j < |WiredMembers(w, members)| && WiredMembers(w, members)[j] == members[i]
  {
    j := if w.Prepend? then i + 1 else i;
  }

  /** Every child of a node survives its visit, visited or (in a block the template rewrote
    * from the cursor) as it was. */
  lemma KeptChild(base: TemplateBase, t: J, provider: ClassType, nearest: Option<string>, parentIsMethod: bool, i: nat)
    returns (j: nat)
    requires i < |Children(t)|
    ensures var r := Visit(base, t, provider, nearest, parentIsMethod);
            && j < |Children(r)|
            && (Children(r)[j] == Children(t)[i] || Children(r)[j] == VisitChildren(base, t, provider, nearest)[i])
  {
    var vs := VisitChildren(base, t, provider, nearest);
    if t.Block? {
      j := KeptStatement(base, t.stmts, vs, parentIsMethod, nearest, provider, i);
    } else if t.ClassDeclaration? && HasAuthorizationHeader(t) {
      j := KeptMember(AutowireProvider(t.members, provider), vs, i);
    } else {
      j := i;
    }
  }

  /** Visiting neither adds nor removes `Authorization` header calls. */
  lemma {:induction false} VisitKeepsHeaderCalls(base: TemplateBase, t: J, provider: ClassType,
                                                 nearest: Option<string>, parentIsMethod: bool)
    ensures HasAuthorizationHeader(Visit(base, t, provider, nearest, parentIsMethod)) <==> HasAuthorizationHeader(t)
  {
    var r := Visit(base, t, provider, nearest, parentIsMethod);
    if !HasAuthorizationHeader(t) {
      NoHeaderCallUnchanged(base, t, provider, nearest, parentIsMethod);
    } else if FindHttpHeaders.IsHeaderCall(t, AuthorizationHeader) {
      VisitKeepsHeaderCallShape(base, t, provider, nearest, parentIsMethod);
    } else {
      var cs := Children(t);
      var i :| 0 <= i < |cs| && HasAuthorizationHeader(cs[i]);
      var inner := InnerName(t, provider, nearest);
      VisitKeepsHeaderCalls(base, cs[i], provider, inner, t.MethodDeclaration?);
      var j := KeptChild(base, t, provider, nearest, parentIsMethod, i);
      assert HasAuthorizationHeader(Children(r)[j]);
    }
  }

  /** The sum of a sequence of counts. */
  function Sum(ns: seq<nat>): nat {
    if ns == [] then 0 else ns[0] + Sum(ns[1..])
  }

  lemma {:induction false} SumAppend(a: seq<nat>, b: seq<nat>)
    ensures Sum(a + b) == Sum(a) + Sum(b)
  {
    if a != [] {
      assert (a + b)[0] == a[0];
      assert (a + b)[1..] == a[1..] + b;
      SumAppend(a[1..], b);
    } else {
      assert a + b == b;
    }
  }

  lemma {:induction false} SumZero(ns: seq<nat>)
    ensures Sum(ns) == 0 <==> forall i :: 0 <= i < |ns| ==> ns[i] == 0
  {
    if ns != [] {
      SumZero(ns[1..]);
      assert forall i :: 0 < i < |ns| ==> ns[i] == ns[1..][i - 1];
    }
  }

  /** The number of `Authorization` header calls in `t`, counting calls nested in calls. */
  function HeaderCallCount(t: J): nat {
    var cs := Children(t);
    (if FindHttpHeaders.IsHeaderCall(t, AuthorizationHeader) then 1 else 0)
    + Sum(seq(|cs|, i requires 0 <= i < |cs| => HeaderCallCount(cs[i])))
  }

  /** The number of `Authorization` header calls in a sequence of nodes. */
  function HeaderCallsIn(ts: seq<J>): nat {
    Sum(seq(|ts|, i requires 0 <= i < |ts| => HeaderCallCount(ts[i])))
  }

  /** The count is zero exactly when the tree sets no `Authorization` header. */
  lemma {:induction false} HeaderCallCountZero(t: J)
    ensures HeaderCallCount(t) == 0 <==> !HasAuthorizationHeader(t)
  {
    var cs := Children(t);
    var counts := seq(|cs|, i requires 0 <= i < |cs| => HeaderCallCount(cs[i]));
    forall i | 0 <= i < |cs| ensures counts[i] == 0 <==> !HasAuthorizationHeader(cs[i]) {
      HeaderCallCountZero(cs[i]);
    }
    SumZero(counts);
  }

  lemma HeaderCallCountUnfold(t: J)
    ensures HeaderCallCount(t)
            == (if FindHttpHeaders.IsHeaderCall(t, AuthorizationHeader) then 1 else 0) + HeaderCallsIn(Children(t))
  {
    var cs := Children(t);
    assert seq(|cs|, i requires 0 <= i < |cs| => HeaderCallCount(cs[i]))
           == seq(|cs|, i requires 0 <= i < |cs| => HeaderCallCount(cs[i]));
  }

  lemma HeaderCallsInAppend(a: seq<J>, b: seq<J>)
    ensures HeaderCallsIn(a + b) == HeaderCallsIn(a) + HeaderCallsIn(b)
  {
    var ca := seq(|a|, i requires 0 <= i < |a| => HeaderCallCount(a[i]));
    var cb := seq(|b|, i requires 0 <= i < |b| => HeaderCallCount(b[i]));
    assert seq(|a + b|, i requires 0 <= i < |a + b| => HeaderCallCount((a + b)[i])) == ca + cb;
    SumAppend(ca, cb);
  }

  lemma HeaderCallsInSingle(t: J)
    ensures HeaderCallsIn([t]) == HeaderCallCount(t)
  {
    assert seq(1, i requires 0 <= i < 1 => HeaderCallCount([t][i])) == [HeaderCallCount(t)];
    assert Sum([HeaderCallCount(t)]) == HeaderCallCount(t) + Sum([]);
  }

  lemma HeaderCallsInPointwise(a: seq<J>, b: seq<J>)
    requires |a| == |b| && forall i :: 0 <= i < |a| ==> HeaderCallCount(a[i]) == HeaderCallCount(b[i])
    ensures HeaderCallsIn(a) == HeaderCallsIn(b)
  {
    assert seq(|a|, i requires 0 <= i < |a| => HeaderCallCount(a[i]))
           == seq(|b|, i requires 0 <= i < |b| => HeaderCallCount(b[i]));
  }

  /** Adding a node without header calls to a sequence keeps its count. */
  lemma InsertionKeepsCount(stmts: seq<J>, k: nat, fieldName: string, provider: ClassType)
    requires k < |stmts|
    ensures HeaderCallsIn(InsertAfter(stmts, k, NewHeaderStatement(fieldName, provider))) == HeaderCallsIn(stmts)
  {
    var n := NewHeaderStatement(fieldName, provider);
    var x, y := stmts[..k + 1], stmts[k + 1..];
    assert InsertAfter(stmts, k, n) == (x + [n]) + y;
    assert x + y == stmts;
    NewHeaderStatementIsInert(fieldName, provider);
    HeaderCallCountZero(n);
    HeaderCallsInSingle(n);
    HeaderCallsInAppend(x, [n]);
    HeaderCallsInAppend(x + [n], y);
    HeaderCallsInAppend(x, y);
  }

  lemma WiringKeepsCount(w: Autowiring, members: seq<J>, provider: ClassType)
    requires w.Prepend? ==> w.field == ProviderField(provider)
    ensures HeaderCallsIn(WiredMembers(w, members)) == HeaderCallsIn(members)
  {
    if w.Prepend? {
      assert Children(w.field) == [];
      HeaderCallCountZero(w.field);
      HeaderCallsInAppend([w.field], members);
      HeaderCallsInSingle(w.field);
    }
  }

  /** Visiting neither adds nor removes an `Authorization` header call: the transformed tree has
    * as many as the original, wherever they are nested. */
  lemma {:induction false} VisitKeepsHeaderCallCount(base: TemplateBase, t: J, provider: ClassType,
                                                     nearest: Option<string>, parentIsMethod: bool)
    ensures HeaderCallCount(Visit(base, t, provider, nearest, parentIsMethod)) == HeaderCallCount(t)
  {
    var r := Visit(base, t, provider, nearest, parentIsMethod);
    var cs := Children(t);
    var vs := VisitChildren(base, t, provider, nearest);
    var inner := InnerName(t, provider, nearest);
    forall i | 0 <= i < |cs| ensures HeaderCallCount(vs[i]) == HeaderCallCount(cs[i]) {
      VisitKeepsHeaderCallCount(base, cs[i], provider, inner, t.MethodDeclaration?);
    }
    HeaderCallsInPointwise(vs, cs);
    HeaderCallCountUnfold(t);
    HeaderCallCountUnfold(r);
    VisitKeepsHeaderCallShape(base, t, provider, nearest, parentIsMethod);
    VisitKeepsNode(base, t, provider, nearest, parentIsMethod);
    if t.Block? && NeedsInsertion(cs, parentIsMethod, nearest) {
      var target := if base == CursorBlock then cs else vs;
      InsertionKeepsCount(target, FirstHeaderStatement(cs).value, nearest.value, provider);
    } else if t.ClassDeclaration? && HasAuthorizationHeader(t) {
      WiringKeepsCount(AutowireProvider(t.members, provider), vs, provider);
    }
  }

  /** Visiting never removes a "NEW_AUTHORIZATION" literal. */
  lemma {:induction false} VisitKeepsSentinel(base: TemplateBase, t: J, provider: ClassType,
                                              nearest: Option<string>, parentIsMethod: bool)
    requires HasNewAuthorizationHeader(t)
    ensures HasNewAuthorizationHeader(Visit(base, t, provider, nearest, parentIsMethod))
  {
    var r := Visit(base, t, provider, nearest, parentIsMethod);
    if t == Literal(StringValue(NewAuthorization)) {
      VisitKeepsNode(base, t, provider, nearest, parentIsMethod);
    } else {
      var cs := Children(t);
      var i :| 0 <= i < |cs| && HasNewAuthorizationHeader(cs[i]);
      var inner := InnerName(t, provider, nearest);
      VisitKeepsSentinel(base, cs[i], provider, inner, t.MethodDeclaration?);
      var j := KeptChild(base, t, provider, nearest, parentIsMethod, i);
      assert HasNewAuthorizationHeader(Children(r)[j]);
    }
  }

  /** Members with the same provider fields, position by position, are wired alike. */
  lemma FirstProviderFieldPointwise(a: seq<J>, b: seq<J>, provider: ClassType)
    requires |a| == |b|
    requires forall k :: 0 <= k < |a| ==> (IsProviderField(a[k], provider) <==> IsProviderField(b[k], provider))
    ensures FirstProviderField(a, provider) == FirstProviderField(b, provider)
  {
    ProviderFieldFromPointwise(a, b, provider, 0);
  }

  lemma {:induction false} ProviderFieldFromPointwise(a: seq<J>, b: seq<J>, provider: ClassType, i: nat)
    requires i <= |a| == |b|
    requires forall k :: 0 <= k < |a| ==> (IsProviderField(a[k], provider) <==> IsProviderField(b[k], provider))
    ensures ProviderFieldFrom(a, provider, i) == ProviderFieldFrom(b, provider, i)
    decreases |a| - i
  {
    if i < |a| {
      var pa, pb := IsProviderField(a[i], provider), IsProviderField(b[i], provider);
      assert pa == pb;
      ProviderFieldFromPointwise(a, b, provider, i + 1);
      if !pa {
        assert ProviderFieldFrom(a, provider, i) == ProviderFieldFrom(a, provider, i + 1);
        assert ProviderFieldFrom(b, provider, i) == ProviderFieldFrom(b, provider, i + 1);
      }
    }
  }

  /** A visited class records the same field name as the original. */
  lemma VisitKeepsInnerName(base: TemplateBase, t: J, provider: ClassType, nearest: Option<string>, parentIsMethod: bool)
    ensures InnerName(Visit(base, t, provider, nearest, parentIsMethod), provider, nearest) == InnerName(t, provider, nearest)
    ensures t.ClassDeclaration? && HasAuthorizationHeader(t) ==>
              AutowireProvider(Visit(base, t, provider, nearest, parentIsMethod).members, provider)
              == Reuse(FieldName(AutowireProvider(t.members, provider)))
  {
    var r := Visit(base, t, provider, nearest, parentIsMethod);
    VisitKeepsNode(base, t, provider, nearest, parentIsMethod);
    if t.ClassDeclaration? {
      if HasAuthorizationHeader(t) {
        VisitKeepsHeaderCalls(base, t, provider, nearest, parentIsMethod);
        var cs := Children(t);
        var vs := VisitChildren(base, t, provider, nearest);
        var inner := InnerName(t, provider, nearest);
        forall k | 0 <= k < |cs|
          ensures (IsProviderField(vs[k], provider) <==> IsProviderField(cs[k], provider))
          ensures IsProviderField(cs[k], provider) ==> vs[k].firstName == cs[k].firstName
        {
          VisitKeepsNode(base, cs[k], provider, inner, false);
        }
        FirstProviderFieldPointwise(vs, cs, provider);
        var w := AutowireProvider(cs, provider);
        assert AutowireProvider(vs, provider) == w;
        WiringIsIdempotent(vs, provider);
      } else {
        NoHeaderCallUnchanged(base, t, provider, nearest, parentIsMethod);
      }
    }
  }

  /** Every visited child of `t` is left as it is by a second visit. */
  ghost predicate ChildrenSettled(t: J, provider: ClassType, nearest: Option<string>) {
    var vs := VisitChildren(VisitedBlock, t, provider, nearest);
    forall i :: 0 <= i < |vs| ==>
      Visit(VisitedBlock, vs[i], provider, InnerName(t, provider, nearest), t.MethodDeclaration?) == vs[i]
  }

  /** Statements a second visit leaves alone, with one more such statement inserted, are
    * still left alone. */
  lemma InsertionSettled(stmts: seq<J>, k: nat, n: J, provider: ClassType, nearest: Option<string>)
    requires k < |stmts|
    requires forall i :: 0 <= i < |stmts| ==> Visit(VisitedBlock, stmts[i], provider, nearest, false) == stmts[i]
    requires Visit(VisitedBlock, n, provider, nearest, false) == n
    ensures var r := InsertAfter(stmts, k, n);
            forall i :: 0 <= i < |r| ==> Visit(VisitedBlock, r[i], provider, nearest, false) == r[i]
  {
    var r := InsertAfter(stmts, k, n);
    forall i | 0 <= i < |r| ensures Visit(VisitedBlock, r[i], provider, nearest, false) == r[i] {
      if i != k + 1 {
        assert r[i] == stmts[if i <= k then i else i - 1];
      }
    }
  }

  /** A block with the new statement inserted holds the sentinel, and a second visit leaves its
    * statements alone. */
  lemma InsertedBlockSettled(stmts: seq<J>, k: nat, provider: ClassType, nearest: Option<string>)
    requires k < |stmts| && nearest.Some?
    requires forall i :: 0 <= i < |stmts| ==> Visit(VisitedBlock, stmts[i], provider, nearest, false) == stmts[i]
    ensures var r := Block(InsertAfter(stmts, k, NewHeaderStatement(nearest.value, provider)));
            && HasNewAuthorizationHeader(r)
            && VisitChildren(VisitedBlock, r, provider, nearest) == Children(r)
  {
    var n := NewHeaderStatement(nearest.value, provider);
    var r := Block(InsertAfter(stmts, k, n));
    NewHeaderStatementIsInert(nearest.value, provider);
    NoHeaderCallUnchanged(VisitedBlock, n, provider, nearest, false);
    InsertionSettled(stmts, k, n, provider, nearest);
    ProbesViaChild(r, k + 1);
    VisitChildrenFixed(VisitedBlock, r, provider, nearest);
  }

  /** The block case of `VisitIdempotent`. */
  lemma BlockVisitIdempotent(t: J, provider: ClassType, nearest: Option<string>, parentIsMethod: bool)
    requires t.Block? && ChildrenSettled(t, provider, nearest)
    ensures var r := Visit(VisitedBlock, t, provider, nearest, parentIsMethod);
            Visit(VisitedBlock, r, provider, nearest, parentIsMethod) == r
  {
    var base := VisitedBlock;
    var r := Visit(base, t, provider, nearest, parentIsMethod);
    var cs := t.stmts;
    var vs := VisitChildren(base, t, provider, nearest);
    var cs2 := r.stmts;
    if NeedsInsertion(cs, parentIsMethod, nearest) {
      InsertedBlockSettled(vs, FirstHeaderStatement(cs).value, provider, nearest);
    } else {
      assert cs2 == vs;
      if HasNewAuthorizationHeader(t) {
        var i :| 0 <= i < |cs| && HasNewAuthorizationHeader(cs[i]);
        VisitKeepsSentinel(base, cs[i], provider, nearest, false);
        ProbesViaChild(r, i);
      } else if FirstHeaderStatement(cs).None? {
        forall i | 0 <= i < |cs| ensures vs[i] == cs[i] {
          NoHeaderCallUnchanged(base, cs[i], provider, nearest, false);
        }
        assert vs == cs;
      }
      VisitChildrenFixed(base, r, provider, nearest);
    }
    assert !NeedsInsertion(cs2, parentIsMethod, nearest);
  }

  /** Members a second visit leaves alone, after wiring, are still left alone. */
  lemma WiringSettled(w: Autowiring, members: seq<J>, provider: ClassType, inner: Option<string>)
    requires forall i :: 0 <= i < |members| ==> Visit(VisitedBlock, members[i], provider, inner, false) == members[i]
    requires w.Prepend? ==> !HasAuthorizationHeader(w.field)
    ensures var r := WiredMembers(w, members);
            forall i :: 0 <= i < |r| ==> Visit(VisitedBlock, r[i], provider, inner, false) == r[i]
  {
    if w.Prepend? {
      NoHeaderCallUnchanged(VisitedBlock, w.field, provider, inner, false);
      var r := WiredMembers(w, members);
      assert forall i :: 0 < i < |r| ==> r[i] == members[i - 1];
    }
  }

  /** A class declaration that sets the header, visited: still a class that sets the header,
    * recording the same field name, with the wired visited members. */
  lemma WiredClassShape(base: TemplateBase, t: J, provider: ClassType, nearest: Option<string>, parentIsMethod: bool)
    requires t.ClassDeclaration? && HasAuthorizationHeader(t)
    ensures var r := Visit(base, t, provider, nearest, parentIsMethod);
            var w := AutowireProvider(t.members, provider);
            && r.ClassDeclaration? && HasAuthorizationHeader(r)
            && InnerName(r, provider, nearest) == InnerName(t, provider, nearest) == Some(FieldName(w))
            && AutowireProvider(r.members, provider) == Reuse(FieldName(w))
            && r == ClassDeclaration(t.name, t.classType, WiredMembers(w, VisitChildren(base, t, provider, nearest)))
  {
    VisitWiredClass(base, t, provider, nearest, parentIsMethod);
    VisitKeepsInnerName(base, t, provider, nearest, parentIsMethod);
    VisitKeepsHeaderCalls(base, t, provider, nearest, parentIsMethod);
  }

  /** The case of `VisitIdempotent` for a class declaration that sets the header. */
  lemma WiredClassVisitIdempotent(t: J, provider: ClassType, nearest: Option<string>, parentIsMethod: bool)
    requires t.ClassDeclaration? && HasAuthorizationHeader(t) && ChildrenSettled(t, provider, nearest)
    ensures var r := Visit(VisitedBlock, t, provider, nearest, parentIsMethod);
            Visit(VisitedBlock, r, provider, nearest, parentIsMethod) == r
  {
    var r := Visit(VisitedBlock, t, provider, nearest, parentIsMethod);
    var vs := VisitChildren(VisitedBlock, t, provider, nearest);
    var w := AutowireProvider(t.members, provider);
    WiredClassShape(VisitedBlock, t, provider, nearest, parentIsMethod);
    WiringSettled(w, vs, provider, InnerName(t, provider, nearest));
    SettledWiredClass(r, provider, nearest, parentIsMethod);
  }

  /** A wired class whose members a second visit leaves alone is left alone. */
  lemma SettledWiredClass(r: J, provider: ClassType, nearest: Option<string>, parentIsMethod: bool)
    requires r.ClassDeclaration? && HasAuthorizationHeader(r)
    requires AutowireProvider(r.members, provider).Reuse?
    requires forall i :: 0 <= i < |r.members| ==>
               Visit(VisitedBlock, r.members[i], provider, InnerName(r, provider, nearest), false) == r.members[i]
    ensures Visit(VisitedBlock, r, provider, nearest, parentIsMethod) == r
  {
    assert Children(r) == r.members;
    VisitChildrenFixed(VisitedBlock, r, provider, nearest);
    VisitWiredClass(VisitedBlock, r, provider, nearest, parentIsMethod);
  }

  /** The case of `VisitIdempotent` for every other node. */
  lemma PlainVisitIdempotent(t: J, provider: ClassType, nearest: Option<string>, parentIsMethod: bool)
    requires !t.Block? && !(t.ClassDeclaration? && HasAuthorizationHeader(t)) && ChildrenSettled(t, provider, nearest)
    ensures var r := Visit(VisitedBlock, t, provider, nearest, parentIsMethod);
            Visit(VisitedBlock, r, provider, nearest, parentIsMethod) == r
  {
    var base := VisitedBlock;
    var r := Visit(base, t, provider, nearest, parentIsMethod);
    var vs := VisitChildren(base, t, provider, nearest);
    VisitKeepsNode(base, t, provider, nearest, parentIsMethod);
    VisitKeepsInnerName(base, t, provider, nearest, parentIsMethod);
    VisitKeepsHeaderCalls(base, t, provider, nearest, parentIsMethod);
    var vs2 := VisitChildren(base, r, provider, nearest);
    assert vs2 == vs;
    WithOwnChildren(r);
  }

  /**
   * With the template applied to the visited block, the transform is idempotent: a second run
   * adds no field and inserts no statement, because the first run left a provider field in every
   * class it wired and the sentinel literal in every body it edited.
   */
  lemma {:induction false} VisitIdempotent(t: J, provider: ClassType, nearest: Option<string>, parentIsMethod: bool)
    ensures var r := Visit(VisitedBlock, t, provider, nearest, parentIsMethod);
            Visit(VisitedBlock, r, provider, nearest, parentIsMethod) == r
  {
    var cs := Children(t);
    var inner := InnerName(t, provider, nearest);
    var vs := VisitChildren(VisitedBlock, t, provider, nearest);
    forall i | 0 <= i < |vs| ensures Visit(VisitedBlock, vs[i], provider, inner, t.MethodDeclaration?) == vs[i] {
      VisitIdempotent(cs[i], provider, inner, t.MethodDeclaration?);
    }
    assert ChildrenSettled(t, provider, nearest);
    if t.Block? {
      BlockVisitIdempotent(t, provider, nearest, parentIsMethod);
    } else if t.ClassDeclaration? && HasAuthorizationHeader(t) {
      WiredClassVisitIdempotent(t, provider, nearest, parentIsMethod);
    } else {
      PlainVisitIdempotent(t, provider, nearest, parentIsMethod);
    }
  }

  /** The recipe's edit with the template applied to the visited block, run twice, is the edit
    * run once. */
  lemma TransformIdempotent(t: J, provider: ClassType)
    ensures TransformSource(VisitedBlock, TransformSource(VisitedBlock, t, provider), provider)
            == TransformSource(VisitedBlock, t, provider)
  {
    VisitIdempotent(t, provider, None, false);
  }

  // ---------------------------------------------------------------------------------------
  // The recipe as written, on method bodies that declare nothing
  // ---------------------------------------------------------------------------------------

  /** `t` declares no class and no method, at any depth. */
  predicate Flat(t: J) {
    !t.ClassDeclaration? && !t.MethodDeclaration?
    && forall i :: 0 <= i < |Children(t)| ==> Flat(Children(t)[i])
  }

  /** No method body of `t` declares a class or a method: every method body that is a block
    * holds flat statements only. */
  predicate BodiesFlat(t: J) {
    if t.MethodDeclaration? && t.body.Some? && t.body.value.Block? then
      forall i :: 0 <= i < |t.body.value.stmts| ==> Flat(t.body.value.stmts[i])
    else
      forall i :: 0 <= i < |Children(t)| ==> BodiesFlat(Children(t)[i])
  }

  lemma {:induction false} FlatIsBodiesFlat(t: J)
    requires Flat(t)
    ensures BodiesFlat(t)
  {
    forall i | 0 <= i < |Children(t)| ensures BodiesFlat(Children(t)[i]) {
      FlatIsBodiesFlat(Children(t)[i]);
    }
  }

  /** A flat subtree that is not a method's body comes back from its visit unchanged: it holds
    * no class to wire and no method body to insert into. */
  lemma {:induction false} FlatUnchanged(base: TemplateBase, t: J, provider: ClassType, nearest: Option<string>)
    requires Flat(t)
    ensures Visit(base, t, provider, nearest, false) == t
  {
    var cs := Children(t);
    var vs := VisitChildren(base, t, provider, nearest);
    forall i | 0 <= i < |cs| ensures vs[i] == cs[i] {
      FlatUnchanged(base, cs[i], provider, nearest);
    }
    assert vs == cs;
    WithOwnChildren(t);
  }

  /** The inserted statement is flat. */
  lemma NewHeaderStatementIsFlat(fieldName: string, provider: ClassType)
    ensures Flat(NewHeaderStatement(fieldName, provider))
  {
    var s := NewHeaderStatement(fieldName, provider);
    var getter := Children(s)[2];
    assert Children(getter) == [Identifier(fieldName)];
    assert Flat(Identifier(fieldName));
    assert Flat(getter);
    assert Children(s)[0] == Identifier("headers");
    assert Children(s)[1] == Literal(StringValue(NewAuthorization));
    assert Flat(Identifier("headers"));
    assert Flat(Literal(StringValue(NewAuthorization)));
  }

  /** The body of a method whose body is a block of flat statements has flat bodies itself. */
  lemma FlatBodyIsBodiesFlat(t: J)
    requires t.MethodDeclaration? && t.body.Some? && t.body.value.Block? && BodiesFlat(t)
    ensures BodiesFlat(t.body.value)
  {
    var b := t.body.value;
    forall k | 0 <= k < |b.stmts| ensures BodiesFlat(b.stmts[k]) {
      FlatIsBodiesFlat(b.stmts[k]);
    }
  }

  /**
   * When no method body declares a class or a method, applying the template to the cursor's
   * block (as the recipe is written) and to the visited block (the corrected recipe) give the
   * same tree: the statements of a method body come back from their visit unchanged.
   */
  lemma {:induction false} BasesAgree(t: J, provider: ClassType, nearest: Option<string>, parentIsMethod: bool)
    requires BodiesFlat(t)
    requires parentIsMethod && t.Block? ==> forall i :: 0 <= i < |t.stmts| ==> Flat(t.stmts[i])
    ensures Visit(CursorBlock, t, provider, nearest, parentIsMethod) == Visit(VisitedBlock, t, provider, nearest, parentIsMethod)
  {
    var cs := Children(t);
    var inner := InnerName(t, provider, nearest);
    var cv := VisitChildren(CursorBlock, t, provider, nearest);
    var vv := VisitChildren(VisitedBlock, t, provider, nearest);
    if t.MethodDeclaration? && t.body.Some? && t.body.value.Block? {
      FlatBodyIsBodiesFlat(t);
    }
    forall i | 0 <= i < |cs| ensures cv[i] == vv[i] {
      BasesAgree(cs[i], provider, inner, t.MethodDeclaration?);
    }
    if t.Block? && parentIsMethod {
      forall i | 0 <= i < |cs| ensures vv[i] == cs[i] {
        FlatUnchanged(VisitedBlock, cs[i], provider, inner);
      }
    }
    assert cv == vv;
  }

  /** A block of flat statements, visited as a method body, keeps flat statements. */
  lemma FlatBodyStaysFlat(base: TemplateBase, t: J, provider: ClassType, nearest: Option<string>)
    requires t.Block? && forall i :: 0 <= i < |t.stmts| ==> Flat(t.stmts[i])
    ensures var r := Visit(base, t, provider, nearest, true);
            r.Block? && forall i :: 0 <= i < |r.stmts| ==> Flat(r.stmts[i])
  {
    var cs := t.stmts;
    var vs := VisitChildren(base, t, provider, nearest);
    forall i | 0 <= i < |cs| ensures vs[i] == cs[i] {
      FlatUnchanged(base, cs[i], provider, nearest);
    }
    assert vs == cs;
    if NeedsInsertion(cs, true, nearest) {
      NewHeaderStatementIsFlat(nearest.value, provider);
    }
  }

  /** The transform keeps method bodies free of declarations: it adds only a field to a class and
    * a flat statement to a method body. */
  lemma {:induction false} VisitKeepsBodiesFlat(base: TemplateBase, t: J, provider: ClassType,
                                                nearest: Option<string>, parentIsMethod: bool)
    requires BodiesFlat(t)
    requires parentIsMethod && t.Block? ==> forall i :: 0 <= i < |t.stmts| ==> Flat(t.stmts[i])
    ensures var r := Visit(base, t, provider, nearest, parentIsMethod);
            && BodiesFlat(r)
            && (parentIsMethod && r.Block? ==> forall i :: 0 <= i < |r.stmts| ==> Flat(r.stmts[i]))
  {
    var r := Visit(base, t, provider, nearest, parentIsMethod);
    VisitKeepsNode(base, t, provider, nearest, parentIsMethod);
    if t.Block? && parentIsMethod {
      FlatBodyStaysFlat(base, t, provider, nearest);
      FlatIsBodiesFlat(r);
    } else {
      var cs := Children(t);
      var inner := InnerName(t, provider, nearest);
      var vs := VisitChildren(base, t, provider, nearest);
      if t.MethodDeclaration? && t.body.Some? && t.body.value.Block? {
        FlatBodyIsBodiesFlat(t);
      }
      forall i | 0 <= i < |cs|
        ensures BodiesFlat(vs[i])
        ensures t.MethodDeclaration? && vs[i].Block? ==> forall k :: 0 <= k < |vs[i].stmts| ==> Flat(vs[i].stmts[k])
      {
        VisitKeepsBodiesFlat(base, cs[i], provider, inner, t.MethodDeclaration?);
      }
      if t.ClassDeclaration? && HasAuthorizationHeader(t) {
        assert Children(ProviderField(provider)) == [];
        assert BodiesFlat(ProviderField(provider));
      } else if t.MethodDeclaration? && t.body.Some? {
        VisitKeepsNode(base, t.body.value, provider, inner, true);
        assert r.body.value == vs[0];
      }
    }
  }

  /** The generated provider unit has flat method bodies. */
  lemma ProviderUnitBodiesFlat(providerType: ClassType)
    ensures BodiesFlat(ProviderUnit(providerType))
  {
    var lit := Literal(StringValue(NewAuthorization));
    var ret := Other("return", [lit]);
    assert Flat(lit);
    assert Flat(ret);
    var m := MethodDeclaration("getAuthorizationHeader", Some(Block([ret])));
    assert BodiesFlat(m);
    var c := ClassDeclaration(ProviderClassName, Some(providerType), [m]);
    assert BodiesFlat(c);
  }

  /** The recipe as written, run twice over a source file whose method bodies declare nothing, is
    * the recipe run once; it then agrees with the corrected recipe. */
  lemma FlatBodiesTransformIdempotent(t: J, provider: ClassType)
    requires BodiesFlat(t)
    ensures TransformSource(CursorBlock, t, provider) == TransformSource(VisitedBlock, t, provider)
    ensures TransformSource(CursorBlock, TransformSource(CursorBlock, t, provider), provider)
            == TransformSource(CursorBlock, t, provider)
  {
    BasesAgree(t, provider, None, false);
    var r := TransformSource(VisitedBlock, t, provider);
    VisitKeepsBodiesFlat(VisitedBlock, t, provider, None, false);
    BasesAgree(r, provider, None, false);
    TransformIdempotent(t, provider);
  }
  // ---------------------------------------------------------------------------------------
  // A whole run over a batch of source files
  // ---------------------------------------------------------------------------------------

  /** The provider the transform uses: the one the scan found, else the generated one. */
  function ProviderFor(sources: seq<J>): ClassType {
    ScanResult(None, SourceClassTypes(sources)).GetOr(GeneratedProviderType)
  }

  /** The units generation adds to a batch. */
  function GeneratedFor(sources: seq<J>): seq<J> {
    if ScanResult(None, SourceClassTypes(sources)).None? then [GeneratedUnit()] else []
  }

  /** Every source file transformed with one provider. */
  function TransformAll(base: TemplateBase, sources: seq<J>, provider: ClassType): (r: seq<J>)
    ensures |r| == |sources|
  {
    seq(|sources|, i requires 0 <= i < |sources| => TransformSource(base, sources[i], provider))
  }

  /**
   * One run of the recipe over a batch: a fresh accumulator, the scan over every source file,
   * generation, then the transform of every source file with the provider the accumulator holds.
   */
  method RunRecipe(base: TemplateBase, sources: seq<J>) returns (after: seq<J>, generated: seq<J>)
    ensures after == TransformAll(base, sources, ProviderFor(sources))
    ensures generated == GeneratedFor(sources)
  {
    var acc := new Accumulator();
    acc.Scan(sources);
    generated := acc.Generate();
    after := TransformAll(base, sources, acc.provider.value);
  }

  /** Exactly one unit is generated when no source declares an `IdaProvider` class, and none
    * otherwise; the transform then uses the last declared one. */
  lemma GeneratesIffNoProvider(sources: seq<J>)
    ensures var decls := SourceClassTypes(sources);
            |GeneratedFor(sources)| == (if exists k :: 0 <= k < |decls| && IsProviderType(decls[k]) then 0 else 1)
    ensures var decls := SourceClassTypes(sources);
            forall k :: 0 <= k < |decls| && IsProviderType(decls[k]) ==>
              (forall j :: k < j < |decls| ==> !IsProviderType(decls[j])) ==> ProviderFor(sources) == decls[k].value
  {
    var decls := SourceClassTypes(sources);
    ScanFindsProvider(None, decls);
    forall k | 0 <= k < |decls| && IsProviderType(decls[k]) && (forall j :: k < j < |decls| ==> !IsProviderType(decls[j]))
      ensures ProviderFor(sources) == decls[k].value
    {
      ScanPicksLast(None, decls, k);
    }
  }

  lemma {:induction false} ConcatAppend<T>(a: seq<seq<T>>, b: seq<seq<T>>)
    ensures Concat(a + b) == Concat(a) + Concat(b)
  {
    if a != [] {
      assert (a + b)[0] == a[0];
      assert (a + b)[1..] == a[1..] + b;
      ConcatAppend(a[1..], b);
    } else {
      assert a + b == b;
    }
  }

  lemma {:induction false} ConcatOfEmpties<T>(ss: seq<seq<T>>)
    requires forall i :: 0 <= i < |ss| ==> ss[i] == []
    ensures Concat(ss) == []
  {
    if ss != [] {
      ConcatOfEmpties(ss[1..]);
    }
  }

  /** The declarations of a node: its own, then those of its children in order. */
  lemma DeclaredClassTypesUnfold(t: J)
    ensures DeclaredClassTypes(t) == (if t.ClassDeclaration? then [t.classType] else []) + SourceClassTypes(Children(t))
  {
    var cs := Children(t);
    assert seq(|cs|, i requires 0 <= i < |cs| => DeclaredClassTypes(cs[i]))
           == seq(|cs|, i requires 0 <= i < |cs| => DeclaredClassTypes(cs[i]));
  }

  lemma SourceClassTypesAppend(a: seq<J>, b: seq<J>)
    ensures SourceClassTypes(a + b) == SourceClassTypes(a) + SourceClassTypes(b)
  {
    var da := seq(|a|, i requires 0 <= i < |a| => DeclaredClassTypes(a[i]));
    var db := seq(|b|, i requires 0 <= i < |b| => DeclaredClassTypes(b[i]));
    assert seq(|a + b|, i requires 0 <= i < |a + b| => DeclaredClassTypes((a + b)[i])) == da + db;
    ConcatAppend(da, db);
  }

  lemma SourceClassTypesSingle(t: J)
    ensures SourceClassTypes([t]) == DeclaredClassTypes(t)
  {
    assert seq(1, i requires 0 <= i < 1 => DeclaredClassTypes([t][i])) == [DeclaredClassTypes(t)];
    assert Concat([DeclaredClassTypes(t)]) == DeclaredClassTypes(t) + Concat([]);
  }

  lemma SourceClassTypesPointwise(a: seq<J>, b: seq<J>)
    requires |a| == |b| && forall i :: 0 <= i < |a| ==> DeclaredClassTypes(a[i]) == DeclaredClassTypes(b[i])
    ensures SourceClassTypes(a) == SourceClassTypes(b)
  {
    assert seq(|a|, i requires 0 <= i < |a| => DeclaredClassTypes(a[i]))
           == seq(|b|, i requires 0 <= i < |b| => DeclaredClassTypes(b[i]));
  }

  /** A node that is no class declaration and whose children declare none declares none. */
  lemma DeclaresNothing(t: J)
    requires !t.ClassDeclaration?
    requires forall i :: 0 <= i < |Children(t)| ==> DeclaredClassTypes(Children(t)[i]) == []
    ensures DeclaredClassTypes(t) == []
  {
    var cs := Children(t);
    ConcatOfEmpties(seq(|cs|, i requires 0 <= i < |cs| => DeclaredClassTypes(cs[i])));
  }

  /** Neither the new field nor the new statement declares a class. */
  lemma AddedNodesDeclareNothing(fieldName: string, provider: ClassType)
    ensures DeclaredClassTypes(ProviderField(provider)) == []
    ensures DeclaredClassTypes(NewHeaderStatement(fieldName, provider)) == []
  {
    NewHeaderStatementDeclaresNothing(fieldName, provider);
    DeclaresNothing(ProviderField(provider));
  }

  lemma NewHeaderStatementDeclaresNothing(fieldName: string, provider: ClassType)
    ensures DeclaredClassTypes(NewHeaderStatement(fieldName, provider)) == []
  {
    var n := NewHeaderStatement(fieldName, provider);
    DeclaresNothing(n.select.value);
    DeclaresNothing(n.args[0]);
    DeclaresNothing(n.args[1].select.value);
    CallDeclaresNothing(n.args[1]);
    CallDeclaresNothing(n);
  }

  /** A call whose receiver and arguments declare no class declares none. */
  lemma CallDeclaresNothing(t: J)
    requires t.MethodInvocation?
    requires t.select.Some? ==> DeclaredClassTypes(t.select.value) == []
    requires forall k :: 0 <= k < |t.args| ==> DeclaredClassTypes(t.args[k]) == []
    ensures DeclaredClassTypes(t) == []
  {
    var cs := Children(t);
    if t.select.Some? {
      assert forall k :: 0 < k < |cs| ==> cs[k] == t.args[k - 1];
    }
    DeclaresNothing(t);
  }

  /** Inserting the new statement into a block adds no declaration. */
  lemma InsertionDeclaresNothing(stmts: seq<J>, k: nat, fieldName: string, provider: ClassType)
    requires k < |stmts|
    ensures SourceClassTypes(InsertAfter(stmts, k, NewHeaderStatement(fieldName, provider))) == SourceClassTypes(stmts)
  {
    var n := NewHeaderStatement(fieldName, provider);
    var x, y := stmts[..k + 1], stmts[k + 1..];
    assert InsertAfter(stmts, k, n) == (x + [n]) + y;
    assert x + y == stmts;
    AddedNodesDeclareNothing(fieldName, provider);
    SourceClassTypesSingle(n);
    SourceClassTypesAppend(x, [n]);
    assert SourceClassTypes(x + [n]) == SourceClassTypes(x);
    SourceClassTypesAppend(x + [n], y);
    SourceClassTypesAppend(x, y);
  }

  /** Wiring a class body adds no declaration. */
  lemma WiringDeclaresNothing(w: Autowiring, members: seq<J>, provider: ClassType)
    requires w.Prepend? ==> w.field == ProviderField(provider)
    ensures SourceClassTypes(WiredMembers(w, members)) == SourceClassTypes(members)
  {
    if w.Prepend? {
      AddedNodesDeclareNothing(ProviderFieldName, provider);
      SourceClassTypesAppend([w.field], members);
      SourceClassTypesSingle(w.field);
    }
  }

  /** The transform keeps every class declaration, with its type, in the same order. */
  lemma {:induction false} VisitKeepsDeclarations(base: TemplateBase, t: J, provider: ClassType,
                                                  nearest: Option<string>, parentIsMethod: bool)
    ensures DeclaredClassTypes(Visit(base, t, provider, nearest, parentIsMethod)) == DeclaredClassTypes(t)
  {
    var r := Visit(base, t, provider, nearest, parentIsMethod);
    var cs := Children(t);
    var vs := VisitChildren(base, t, provider, nearest);
    var inner := InnerName(t, provider, nearest);
    forall i | 0 <= i < |cs| ensures DeclaredClassTypes(vs[i]) == DeclaredClassTypes(cs[i]) {
      VisitKeepsDeclarations(base, cs[i], provider, inner, t.MethodDeclaration?);
    }
    SourceClassTypesPointwise(vs, cs);
    DeclaredClassTypesUnfold(t);
    DeclaredClassTypesUnfold(r);
    VisitKeepsNode(base, t, provider, nearest, parentIsMethod);
    if t.Block? && NeedsInsertion(cs, parentIsMethod, nearest) {
      var target := if base == CursorBlock then cs else vs;
      InsertionDeclaresNothing(target, FirstHeaderStatement(cs).value, nearest.value, provider);
    } else if t.ClassDeclaration? && HasAuthorizationHeader(t) {
      WiringDeclaresNothing(AutowireProvider(t.members, provider), vs, provider);
    }
  }

  /** A node of one child declares what that child declares, after itself if it is a class. */
  lemma SingleChildDeclares(t: J)
    requires |Children(t)| == 1
    ensures DeclaredClassTypes(t) == (if t.ClassDeclaration? then [t.classType] else []) + DeclaredClassTypes(Children(t)[0])
  {
    DeclaredClassTypesUnfold(t);
    assert Children(t) == [Children(t)[0]];
    SourceClassTypesSingle(Children(t)[0]);
  }

  /** A node of one child, itself no header call, sets the header only if that child does. */
  lemma SingleChildNoHeader(t: J)
    requires |Children(t)| == 1 && !FindHttpHeaders.IsHeaderCall(t, AuthorizationHeader)
    requires !HasAuthorizationHeader(Children(t)[0])
    ensures !HasAuthorizationHeader(t)
  {
  }

  /** A method `getAuthorizationHeader` that returns a string literal declares no class and sets
    * no header. */
  lemma ProviderMethodFacts(value: string)
    ensures var m := MethodDeclaration("getAuthorizationHeader", Some(Block([Other("return", [Literal(StringValue(value))])])));
            DeclaredClassTypes(m) == [] && !HasAuthorizationHeader(m)
  {
    var lit := Literal(StringValue(value));
    var ret := Other("return", [lit]);
    var body := Block([ret]);
    var m := MethodDeclaration("getAuthorizationHeader", Some(body));
    assert Children(ret) == [lit];
    DeclaresNothing(lit);
    SingleChildNoHeader(ret);
    SingleChildDeclares(ret);
    assert Children(body) == [ret];
    SingleChildNoHeader(body);
    SingleChildDeclares(body);
    assert Children(m) == [body];
    SingleChildNoHeader(m);
    SingleChildDeclares(m);
  }

  /** A compilation unit of one class of one member declares that class only. */
  lemma SingleClassUnitFacts(pkg: string, name: string, classType: Option<ClassType>, m: J)
    requires DeclaredClassTypes(m) == []
    ensures var unit := CompilationUnit(pkg, [ClassDeclaration(name, classType, [m])]);
            SourceClassTypes([unit]) == [classType]
  {
    var cls := ClassDeclaration(name, classType, [m]);
    var unit := CompilationUnit(pkg, [cls]);
    SingleClassDeclares(cls);
    SingleUnitDeclares(unit);
  }

  /** A compilation unit of one class of one member sets the header only if that member does. */
  lemma SingleClassUnitNoHeader(pkg: string, name: string, classType: Option<ClassType>, m: J)
    requires !HasAuthorizationHeader(m)
    ensures !HasAuthorizationHeader(CompilationUnit(pkg, [ClassDeclaration(name, classType, [m])]))
  {
    var cls := ClassDeclaration(name, classType, [m]);
    assert Children(cls) == [m];
    SingleChildNoHeader(cls);
    assert Children(CompilationUnit(pkg, [cls])) == [cls];
  }

  /** A compilation unit of one class declares what that class declares. */
  lemma SingleUnitDeclares(unit: J)
    requires unit.CompilationUnit? && |unit.classes| == 1
    ensures SourceClassTypes([unit]) == DeclaredClassTypes(unit.classes[0])
  {
    assert Children(unit) == unit.classes;
    SingleChildDeclares(unit);
    SourceClassTypesSingle(unit);
  }

  /** A class of one member that declares nothing declares itself only. */
  lemma SingleClassDeclares(cls: J)
    requires cls.ClassDeclaration? && |cls.members| == 1 && DeclaredClassTypes(cls.members[0]) == []
    ensures DeclaredClassTypes(cls) == [cls.classType]
  {
    assert Children(cls) == cls.members;
    SingleChildDeclares(cls);
  }

  /** A provider unit declares its provider type and nothing else, and sets no header. */
  lemma ProviderUnitFacts(providerType: ClassType)
    ensures SourceClassTypes([ProviderUnit(providerType)]) == [Some(providerType)]
    ensures !HasAuthorizationHeader(ProviderUnit(providerType))
  {
    var m := MethodDeclaration("getAuthorizationHeader", Some(Block([Other("return", [Literal(StringValue(NewAuthorization))])])));
    ProviderMethodFacts(NewAuthorization);
    SingleClassUnitFacts(providerType.packageName, ProviderClassName, Some(providerType), m);
    SingleClassUnitNoHeader(providerType.packageName, ProviderClassName, Some(providerType), m);
  }

  /** The transformed batch declares the same classes as the original one. */
  lemma TransformAllKeepsDeclarations(base: TemplateBase, sources: seq<J>, provider: ClassType)
    ensures SourceClassTypes(TransformAll(base, sources, provider)) == SourceClassTypes(sources)
  {
    var after := TransformAll(base, sources, provider);
    forall i | 0 <= i < |sources| ensures DeclaredClassTypes(after[i]) == DeclaredClassTypes(sources[i]) {
      VisitKeepsDeclarations(base, sources[i], provider, None, false);
    }
    SourceClassTypesPointwise(after, sources);
  }

  /** The second run's scan over the first run's output finds the provider the first run used. */
  lemma SecondScanFindsSameProvider(sources: seq<J>, after: seq<J>)
    requires SourceClassTypes(after) == SourceClassTypes(sources)
    ensures var out := after + GeneratedFor(sources);
            && ScanResult(None, SourceClassTypes(out)) == Some(ProviderFor(sources))
  {
    var gen := GeneratedFor(sources);
    var decls := SourceClassTypes(sources);
    if ScanResult(None, decls).None? {
      SourceClassTypesAppend(after, gen);
      ProviderUnitFacts(GeneratedProviderType);
      ScanEndingWithProvider(decls, GeneratedProviderType);
    } else {
      assert after + gen == after;
    }
  }

  /** A scan whose last declaration is a provider type ends with that type. */
  lemma ScanEndingWithProvider(decls: seq<Option<ClassType>>, providerType: ClassType)
    requires providerType.className == ProviderClassName
    ensures ScanResult(None, decls + [Some(providerType)]) == Some(providerType)
  {
    var all := decls + [Some(providerType)];
    assert all[|all| - 1] == Some(providerType);
  }

  /**
   * Runs converge: a second run over the output of a first (the transformed sources followed by
   * the generated unit, if any), with the corrected template base, finds the same provider,
   * generates nothing and changes nothing.
   */
  lemma RecipeConverges(sources: seq<J>)
    ensures var out := TransformAll(VisitedBlock, sources, ProviderFor(sources)) + GeneratedFor(sources);
            && GeneratedFor(out) == []
            && ProviderFor(out) == ProviderFor(sources)
            && TransformAll(VisitedBlock, out, ProviderFor(out)) == out
  {
    var p := ProviderFor(sources);
    var after := TransformAll(VisitedBlock, sources, p);
    var out := after + GeneratedFor(sources);
    TransformAllKeepsDeclarations(VisitedBlock, sources, p);
    SecondScanFindsSameProvider(sources, after);
    ProviderUnitFacts(GeneratedProviderType);
    forall i | 0 <= i < |out| ensures TransformSource(VisitedBlock, out[i], p) == out[i] {
      if i < |after| {
        TransformIdempotent(sources[i], p);
      } else {
        NoHeaderCallUnchanged(VisitedBlock, out[i], p, None, false);
      }
    }
  }

  /**
   * The recipe as written converges on a batch whose method bodies declare nothing: it edits
   * the batch as the corrected recipe does, and a second run finds the same provider, generates
   * nothing and changes nothing.
   */
  lemma FlatBodiesRecipeConverges(sources: seq<J>)
    requires forall i :: 0 <= i < |sources| ==> BodiesFlat(sources[i])
    ensures var out := TransformAll(CursorBlock, sources, ProviderFor(sources)) + GeneratedFor(sources);
            && out == TransformAll(VisitedBlock, sources, ProviderFor(sources)) + GeneratedFor(sources)
            && GeneratedFor(out) == []
            && ProviderFor(out) == ProviderFor(sources)
            && TransformAll(CursorBlock, out, ProviderFor(out)) == out
  {
    var p := ProviderFor(sources);
    var after := TransformAll(VisitedBlock, sources, p);
    forall i | 0 <= i < |sources| ensures TransformAll(CursorBlock, sources, p)[i] == after[i] {
      BasesAgree(sources[i], p, None, false);
    }
    var out := after + GeneratedFor(sources);
    RecipeConverges(sources);
    forall i | 0 <= i < |out| ensures TransformSource(CursorBlock, out[i], p) == out[i] {
      if i < |after| {
        VisitKeepsBodiesFlat(VisitedBlock, sources[i], p, None, false);
      } else {
        ProviderUnitBodiesFlat(GeneratedProviderType);
      }
      BasesAgree(out[i], p, None, false);
      assert TransformAll(VisitedBlock, out, p)[i] == out[i];
    }
  }

  // ---------------------------------------------------------------------------------------
  // The recipe's own examples
  // ---------------------------------------------------------------------------------------

  /** A header key written as an identifier, a literal, or a constant qualified by a type name. */
  predicate IsPlainKey(key: J) {
    key.Identifier? || key.Literal? || (key.FieldAccess? && key.target.Identifier?)
  }

  /** A plain key other than the sentinel holds no header call, no sentinel and no class. */
  lemma PlainKeyIsInert(key: J)
    requires IsPlainKey(key) && key != Literal(StringValue(NewAuthorization))
    ensures !HasAuthorizationHeader(key) && !HasNewAuthorizationHeader(key) && DeclaredClassTypes(key) == []
  {
    if key.FieldAccess? {
      assert Children(key) == [key.target];
      DeclaresNothing(key.target);
    }
    DeclaresNothing(key);
  }

  /** The probes of a call `headers.add(key, value)` whose key names the header. */
  lemma HeaderAddProbes(key: J, value: string)
    requires IsPlainKey(key) && FindHttpHeaders.KeyNamesHeader(key, AuthorizationHeader)
    requires value != NewAuthorization
    ensures var call := FindHttpHeaders.HeaderAdd(key, value);
            && FindHttpHeaders.IsHeaderCall(call, AuthorizationHeader)
            && HasAuthorizationHeader(call) && !HasNewAuthorizationHeader(call)
            && DeclaredClassTypes(call) == []
            && forall i :: 0 <= i < |Children(call)| ==> !HasAuthorizationHeader(Children(call)[i])
  {
    var call := FindHttpHeaders.HeaderAdd(key, value);
    assert |FindHttpHeaders.KeyName(key).value| == |AuthorizationHeader|;
    PlainKeyIsInert(key);
    PlainKeyIsInert(Literal(StringValue(value)));
    InertArgumentsCall(call);
  }

  /** A header call whose receiver is an identifier and whose arguments are inert plain keys
    * holds no sentinel and declares no class. */
  lemma InertArgumentsCall(call: J)
    requires FindHttpHeaders.IsHeaderCall(call, AuthorizationHeader)
    requires call.select == Some(Identifier("headers")) && |call.args| == 2
    requires forall k :: 0 <= k < 2 ==>
               (IsPlainKey(call.args[k]) && !HasAuthorizationHeader(call.args[k])
                && !HasNewAuthorizationHeader(call.args[k]) && DeclaredClassTypes(call.args[k]) == [])
    ensures HasAuthorizationHeader(call) && !HasNewAuthorizationHeader(call) && DeclaredClassTypes(call) == []
    ensures forall i :: 0 <= i < |Children(call)| ==> !HasAuthorizationHeader(Children(call)[i])
  {
    var cs := Children(call);
    assert cs == [Identifier("headers"), call.args[0], call.args[1]];
    PlainKeyIsInert(Identifier("headers"));
    NoSentinelBelow(call);
    DeclaresNothing(call);
  }

  /** A call `headers.add(key, value)` whose key names the header: the transform leaves the call
    * itself alone, and it declares no class. */
  lemma HeaderAddFacts(key: J, value: string, base: TemplateBase, provider: ClassType,
                       nearest: Option<string>, parentIsMethod: bool)
    requires IsPlainKey(key) && FindHttpHeaders.KeyNamesHeader(key, AuthorizationHeader)
    requires value != NewAuthorization
    ensures var call := FindHttpHeaders.HeaderAdd(key, value);
            && FindHttpHeaders.IsHeaderCall(call, AuthorizationHeader)
            && HasAuthorizationHeader(call) && !HasNewAuthorizationHeader(call)
            && Visit(base, call, provider, nearest, parentIsMethod) == call
            && DeclaredClassTypes(call) == []
  {
    var call := FindHttpHeaders.HeaderAdd(key, value);
    var cs := Children(call);
    HeaderAddProbes(key, value);
    forall i | 0 <= i < |cs| ensures Visit(base, cs[i], provider, nearest, false) == cs[i] {
      NoHeaderCallUnchanged(base, cs[i], provider, nearest, false);
    }
    VisitChildrenFixed(base, call, provider, nearest);
    WithOwnChildren(call);
  }

  /** The type of the examples' class `Test`. */
  const TestType := ClassType("", "Test")

  /** The examples' source file: class `Test` whose method `test` calls `headers.add(key, value)`. */
  function TestUnit(key: J, value: string): J {
    CompilationUnit("", [ClassDeclaration("Test", Some(TestType),
      [MethodDeclaration("test", Some(Block([FindHttpHeaders.HeaderAdd(key, value)])))])])
  }

  /** The examples' expected result: the field `idaProvider` first in the class, the new
    * statement right after the call. */
  function ExpectedTestUnit(key: J, value: string, provider: ClassType): J {
    CompilationUnit("", [ClassDeclaration("Test", Some(TestType),
      [ProviderField(provider),
       MethodDeclaration("test", Some(Block([FindHttpHeaders.HeaderAdd(key, value),
                                             NewHeaderStatement(ProviderFieldName, provider)])))])])
  }

  // The lemmas from here to the examples each unfold the visitor one step on a node of a known
  // shape. They are split this finely so that every proof obligation of the examples and of the
  // finding below stays well inside the verifier's resource limit; several of them Dafny could
  // prove unaided, but stating them separately keeps the larger proofs small.

  /** Children that a visit leaves alone come back as they are. */
  lemma VisitChildrenFixed(base: TemplateBase, t: J, provider: ClassType, nearest: Option<string>)
    requires forall i :: 0 <= i < |Children(t)| ==>
               Visit(base, Children(t)[i], provider, InnerName(t, provider, nearest), t.MethodDeclaration?) == Children(t)[i]
    ensures VisitChildren(base, t, provider, nearest) == Children(t)
  {
  }

  /** A method body whose statements a visit leaves alone, and that needs the new statement,
    * gets it after its first statement that sets the header. */
  lemma VisitBlockInserts(base: TemplateBase, stmts: seq<J>, provider: ClassType, nearest: Option<string>)
    requires NeedsInsertion(stmts, true, nearest)
    requires VisitChildren(base, Block(stmts), provider, nearest) == stmts
    ensures Visit(base, Block(stmts), provider, nearest, true)
            == Block(InsertAfter(stmts, FirstHeaderStatement(stmts).value, NewHeaderStatement(nearest.value, provider)))
  {
  }

  /** A node with two children: its visited children are those children, visited. */
  lemma VisitChildrenPair(base: TemplateBase, t: J, provider: ClassType, nearest: Option<string>)
    requires |Children(t)| == 2
    ensures var inner, pm := InnerName(t, provider, nearest), t.MethodDeclaration?;
            VisitChildren(base, t, provider, nearest)
            == [Visit(base, Children(t)[0], provider, inner, pm), Visit(base, Children(t)[1], provider, inner, pm)]
  {
  }

  /** A block that needs no insertion comes back with its statements visited. */
  lemma VisitBlockKeeps(base: TemplateBase, stmts: seq<J>, provider: ClassType, nearest: Option<string>, parentIsMethod: bool)
    requires !NeedsInsertion(stmts, parentIsMethod, nearest)
    ensures Visit(base, Block(stmts), provider, nearest, parentIsMethod) == Block(VisitChildren(base, Block(stmts), provider, nearest))
  {
  }

  /** A method body that needs the new statement gets it after its first statement that sets the
    * header, in the block the template is applied to. */
  lemma VisitBlockInsertsInto(base: TemplateBase, stmts: seq<J>, provider: ClassType, nearest: Option<string>)
    requires NeedsInsertion(stmts, true, nearest)
    ensures var target := if base == CursorBlock then stmts else VisitChildren(base, Block(stmts), provider, nearest);
            Visit(base, Block(stmts), provider, nearest, true)
            == Block(InsertAfter(target, FirstHeaderStatement(stmts).value, NewHeaderStatement(nearest.value, provider)))
  {
  }

  /** A node with one child: its visited children are that child, visited. */
  lemma VisitChildrenSingle(base: TemplateBase, t: J, provider: ClassType, nearest: Option<string>)
    requires |Children(t)| == 1
    ensures VisitChildren(base, t, provider, nearest)
            == [Visit(base, Children(t)[0], provider, InnerName(t, provider, nearest), t.MethodDeclaration?)]
  {
  }

  /** A method declaration: its body is visited as a method body. */
  lemma VisitMethod(base: TemplateBase, name: string, body: J, provider: ClassType,
                    nearest: Option<string>, parentIsMethod: bool)
    ensures Visit(base, MethodDeclaration(name, Some(body)), provider, nearest, parentIsMethod)
            == MethodDeclaration(name, Some(Visit(base, body, provider, nearest, true)))
  {
    var m := MethodDeclaration(name, Some(body));
    assert Children(m) == [body];
    VisitChildrenSingle(base, m, provider, nearest);
  }

  /** A class declaration that sets the header: wired, with its members visited under the
    * recorded field name. */
  lemma VisitWiredClass(base: TemplateBase, t: J, provider: ClassType, nearest: Option<string>, parentIsMethod: bool)
    requires t.ClassDeclaration? && HasAuthorizationHeader(t)
    ensures var w := AutowireProvider(t.members, provider);
            && InnerName(t, provider, nearest) == Some(FieldName(w))
            && Visit(base, t, provider, nearest, parentIsMethod)
               == ClassDeclaration(t.name, t.classType, WiredMembers(w, VisitChildren(base, t, provider, nearest)))
  {
  }

  /** A node inherits the probes of its children. */
  lemma ProbesViaChild(t: J, i: nat)
    requires i < |Children(t)|
    ensures HasAuthorizationHeader(Children(t)[i]) ==> HasAuthorizationHeader(t)
    ensures HasNewAuthorizationHeader(Children(t)[i]) ==> HasNewAuthorizationHeader(t)
  {
  }

  /** A node that is not the sentinel and whose children lack it lacks it. */
  lemma NoSentinelBelow(t: J)
    requires t != Literal(StringValue(NewAuthorization))
    requires forall i :: 0 <= i < |Children(t)| ==> !HasNewAuthorizationHeader(Children(t)[i])
    ensures !HasNewAuthorizationHeader(t)
  {
  }

  /** A class of one member that sets the header and is no provider field gets the field
    * `idaProvider` first, and its member is visited under that name. */
  lemma SingleMemberClass(base: TemplateBase, name: string, classType: Option<ClassType>, m: J, m': J,
                          provider: ClassType, nearest: Option<string>, parentIsMethod: bool)
    requires HasAuthorizationHeader(m) && !IsProviderField(m, provider)
    requires Visit(base, m, provider, Some(ProviderFieldName), false) == m'
    ensures var cls := ClassDeclaration(name, classType, [m]);
            && HasAuthorizationHeader(cls)
            && (!HasNewAuthorizationHeader(m) ==> !HasNewAuthorizationHeader(cls))
            && Visit(base, cls, provider, nearest, parentIsMethod)
               == ClassDeclaration(name, classType, [ProviderField(provider), m'])
  {
    var cls := ClassDeclaration(name, classType, [m]);
    SingleMemberProbes(cls);
    assert FirstProviderField([m], provider) == None;
    var w := AutowireProvider([m], provider);
    assert w == Prepend(ProviderField(provider));
    VisitWiredClass(base, cls, provider, nearest, parentIsMethod);
    VisitChildrenSingle(base, cls, provider, nearest);
    assert WiredMembers(w, [m']) == [ProviderField(provider), m'];
  }

  /** A class whose first member is the provider field `idaProvider`, followed by one member
    * that sets the header: the field is reused and the member visited under its name. */
  lemma FieldFirstClass(base: TemplateBase, name: string, classType: Option<ClassType>, m: J, m': J,
                        provider: ClassType, nearest: Option<string>, parentIsMethod: bool)
    requires HasAuthorizationHeader(m)
    requires Visit(base, m, provider, Some(ProviderFieldName), false) == m'
    ensures var f := ProviderField(provider);
            Visit(base, ClassDeclaration(name, classType, [f, m]), provider, nearest, parentIsMethod)
            == ClassDeclaration(name, classType, [f, m'])
  {
    var f := ProviderField(provider);
    var cls := ClassDeclaration(name, classType, [f, m]);
    assert Children(cls) == [f, m];
    ProbesViaChild(cls, 1);
    assert FirstProviderField([f, m], provider) == Some(0);
    assert AutowireProvider([f, m], provider) == Reuse(ProviderFieldName);
    VisitWiredClass(base, cls, provider, nearest, parentIsMethod);
    assert !HasAuthorizationHeader(f);
    NoHeaderCallUnchanged(base, f, provider, Some(ProviderFieldName), false);
    assert VisitChildren(base, cls, provider, nearest) == [f, m'];
  }

  /** A node of one child has that child's probes. */
  lemma SingleMemberProbes(t: J)
    requires |Children(t)| == 1 && t != Literal(StringValue(NewAuthorization))
    ensures HasAuthorizationHeader(Children(t)[0]) ==> HasAuthorizationHeader(t)
    ensures !HasNewAuthorizationHeader(Children(t)[0]) ==> !HasNewAuthorizationHeader(t)
  {
    ProbesViaChild(t, 0);
    if !HasNewAuthorizationHeader(Children(t)[0]) {
      NoSentinelBelow(t);
    }
  }

  /** A block of one statement inherits that statement's probes and declares nothing. */
  lemma SingleStatementProbes(call: J)
    requires HasAuthorizationHeader(call) && !HasNewAuthorizationHeader(call) && DeclaredClassTypes(call) == []
    ensures var body := Block([call]);
            HasAuthorizationHeader(body) && !HasNewAuthorizationHeader(body) && DeclaredClassTypes(body) == []
  {
    var body := Block([call]);
    assert Children(body) == [call];
    DeclaresNothing(body);
    assert FindHttpHeaders.HasHeaderCall(Children(body)[0], AuthorizationHeader);
  }

  /** A method body made of one statement that sets the header gets the new statement after it. */
  lemma SingleCallBody(call: J, base: TemplateBase, provider: ClassType)
    requires HasAuthorizationHeader(call) && !HasNewAuthorizationHeader(call) && DeclaredClassTypes(call) == []
    requires Visit(base, call, provider, Some(ProviderFieldName), false) == call
    ensures Visit(base, Block([call]), provider, Some(ProviderFieldName), true)
            == Block([call, NewHeaderStatement(ProviderFieldName, provider)])
  {
    var body := Block([call]);
    var n := NewHeaderStatement(ProviderFieldName, provider);
    SingleStatementProbes(call);
    assert Children(body) == [call];
    VisitChildrenFixed(base, body, provider, Some(ProviderFieldName));
    assert FirstHeaderStatement([call]) == Some(0);
    VisitBlockInserts(base, [call], provider, Some(ProviderFieldName));
    assert InsertAfter([call], 0, n) == [call, n];
  }

  /** A method whose body is one statement that sets the header. */
  lemma SingleStatementMethod(name: string, call: J, base: TemplateBase, provider: ClassType)
    requires HasAuthorizationHeader(call) && !HasNewAuthorizationHeader(call) && DeclaredClassTypes(call) == []
    requires Visit(base, call, provider, Some(ProviderFieldName), false) == call
    ensures var m := MethodDeclaration(name, Some(Block([call])));
            && HasAuthorizationHeader(m) && !HasNewAuthorizationHeader(m) && DeclaredClassTypes(m) == []
            && Visit(base, m, provider, Some(ProviderFieldName), false)
               == MethodDeclaration(name, Some(Block([call, NewHeaderStatement(ProviderFieldName, provider)])))
  {
    var body := Block([call]);
    SingleStatementProbes(call);
    SingleBodyMethodProbes(name, body);
    SingleCallBody(call, base, provider);
    VisitMethod(base, name, body, provider, Some(ProviderFieldName), false);
  }

  /** A method inherits its body's probes and declares what its body declares. */
  lemma SingleBodyMethodProbes(name: string, body: J)
    ensures var m := MethodDeclaration(name, Some(body));
            && (HasAuthorizationHeader(body) ==> HasAuthorizationHeader(m))
            && (!HasNewAuthorizationHeader(body) ==> !HasNewAuthorizationHeader(m))
            && (DeclaredClassTypes(body) == [] ==> DeclaredClassTypes(m) == [])
  {
    var m := MethodDeclaration(name, Some(body));
    assert Children(m) == [body];
    SingleMemberProbes(m);
    if DeclaredClassTypes(body) == [] {
      DeclaresNothing(m);
    }
  }

  /** A method whose body is one call `headers.add(key, value)` that sets the header. */
  lemma SingleCallMethod(name: string, key: J, value: string, base: TemplateBase, provider: ClassType)
    requires IsPlainKey(key) && FindHttpHeaders.KeyNamesHeader(key, AuthorizationHeader)
    requires value != NewAuthorization
    ensures var call := FindHttpHeaders.HeaderAdd(key, value);
            var m := MethodDeclaration(name, Some(Block([call])));
            && HasAuthorizationHeader(m) && !HasNewAuthorizationHeader(m)
            && !IsProviderField(m, provider) && DeclaredClassTypes(m) == []
            && Visit(base, m, provider, Some(ProviderFieldName), false)
               == MethodDeclaration(name, Some(Block([call, NewHeaderStatement(ProviderFieldName, provider)])))
  {
    HeaderAddFacts(key, value, base, provider, Some(ProviderFieldName), false);
    SingleStatementMethod(name, FindHttpHeaders.HeaderAdd(key, value), base, provider);
  }

  lemma TestUnitFacts(key: J, value: string, base: TemplateBase, provider: ClassType)
    requires IsPlainKey(key) && FindHttpHeaders.KeyNamesHeader(key, AuthorizationHeader)
    requires value != NewAuthorization
    ensures SourceClassTypes([TestUnit(key, value)]) == [Some(TestType)]
    ensures TransformSource(base, TestUnit(key, value), provider) == ExpectedTestUnit(key, value, provider)
  {
    var m := MethodDeclaration("test", Some(Block([FindHttpHeaders.HeaderAdd(key, value)])));
    var m' := MethodDeclaration("test", Some(Block([FindHttpHeaders.HeaderAdd(key, value),
                                                   NewHeaderStatement(ProviderFieldName, provider)])));
    SingleCallMethod("test", key, value, base, provider);
    SingleClassUnitFacts("", "Test", Some(TestType), m);
    SingleClassUnitVisit(base, "", "Test", Some(TestType), m, m', provider);
  }

  /** A compilation unit of one class of one member that sets the header: the class gets the
    * field `idaProvider` first and its member is visited under that name. */
  lemma SingleClassUnitVisit(base: TemplateBase, pkg: string, name: string, classType: Option<ClassType>,
                             m: J, m': J, provider: ClassType)
    requires HasAuthorizationHeader(m) && !IsProviderField(m, provider)
    requires Visit(base, m, provider, Some(ProviderFieldName), false) == m'
    ensures TransformSource(base, CompilationUnit(pkg, [ClassDeclaration(name, classType, [m])]), provider)
            == CompilationUnit(pkg, [ClassDeclaration(name, classType, [ProviderField(provider), m'])])
  {
    var cls := ClassDeclaration(name, classType, [m]);
    var unit := CompilationUnit(pkg, [cls]);
    SingleMemberClass(base, name, classType, m, m', provider, None, false);
    assert Children(unit) == [cls];
    ProbesViaChild(unit, 0);
    VisitChildrenSingle(base, unit, provider, None);
  }

  /**
   * With no `IdaProvider` class in the batch, the provider unit is generated, and class `Test`
   * gets a field of the generated type and the new statement after its `Authorization` call.
   */
  lemma AddNewProviderScenario(key: J, value: string, base: TemplateBase)
    requires IsPlainKey(key) && FindHttpHeaders.KeyNamesHeader(key, AuthorizationHeader)
    requires value != NewAuthorization
    ensures var sources := [TestUnit(key, value)];
            && GeneratedFor(sources) == [GeneratedUnit()]
            && TransformAll(base, sources, ProviderFor(sources)) == [ExpectedTestUnit(key, value, GeneratedProviderType)]
  {
    TestUnitFacts(key, value, base, GeneratedProviderType);
    var decls := [Some(TestType)];
    assert ScanResult(None, decls) == ScanResult(None, []);
  }

  /**
   * With an `IdaProvider` class in package `pkg` in the batch, nothing is generated, the provider
   * unit is left alone, and class `Test` gets a field of that type and the new statement.
   */
  lemma UseExistingProviderScenario(key: J, value: string, base: TemplateBase, pkg: string)
    requires IsPlainKey(key) && FindHttpHeaders.KeyNamesHeader(key, AuthorizationHeader)
    requires value != NewAuthorization
    ensures var existing := ClassType(pkg, ProviderClassName);
            var sources := [ProviderUnit(existing), TestUnit(key, value)];
            && GeneratedFor(sources) == []
            && TransformAll(base, sources, ProviderFor(sources))
               == [ProviderUnit(existing), ExpectedTestUnit(key, value, existing)]
  {
    var existing := ClassType(pkg, ProviderClassName);
    var sources := [ProviderUnit(existing), TestUnit(key, value)];
    TestUnitFacts(key, value, base, existing);
    ProviderUnitFacts(existing);
    assert sources == [ProviderUnit(existing)] + [TestUnit(key, value)];
    SourceClassTypesAppend([ProviderUnit(existing)], [TestUnit(key, value)]);
    var decls := [Some(existing), Some(TestType)];
    assert SourceClassTypes(sources) == decls;
    assert decls[..1] == [Some(existing)];
    assert ScanResult(None, decls) == Some(existing);
    NoHeaderCallUnchanged(base, ProviderUnit(existing), existing, None, false);
  }

  /** The examples' source file declares nothing in its method body. */
  lemma TestUnitBodiesFlat(key: J, value: string)
    requires IsPlainKey(key)
    ensures BodiesFlat(TestUnit(key, value))
  {
    var call := FindHttpHeaders.HeaderAdd(key, value);
    if key.FieldAccess? {
      assert Children(key) == [key.target];
      assert Flat(key.target);
    }
    assert Flat(key);
    assert Children(call) == [Identifier("headers"), key, Literal(StringValue(value))];
    assert Flat(Identifier("headers"));
    assert Flat(Literal(StringValue(value)));
    assert Flat(call);
    var m := MethodDeclaration("test", Some(Block([call])));
    assert BodiesFlat(m);
    assert BodiesFlat(ClassDeclaration("Test", Some(TestType), [m]));
  }

  /** Both examples' batches settle after one run of the recipe as written: a second run
    * generates nothing and changes nothing. */
  lemma ExamplesConverge(key: J, value: string, pkg: string)
    requires IsPlainKey(key)
    ensures var sources := [TestUnit(key, value)];
            var out := TransformAll(CursorBlock, sources, ProviderFor(sources)) + GeneratedFor(sources);
            GeneratedFor(out) == [] && TransformAll(CursorBlock, out, ProviderFor(out)) == out
    ensures var sources := [ProviderUnit(ClassType(pkg, ProviderClassName)), TestUnit(key, value)];
            var out := TransformAll(CursorBlock, sources, ProviderFor(sources)) + GeneratedFor(sources);
            GeneratedFor(out) == [] && TransformAll(CursorBlock, out, ProviderFor(out)) == out
  {
    TestUnitBodiesFlat(key, value);
    ProviderUnitBodiesFlat(ClassType(pkg, ProviderClassName));
    FlatBodiesRecipeConverges([TestUnit(key, value)]);
    FlatBodiesRecipeConverges([ProviderUnit(ClassType(pkg, ProviderClassName)), TestUnit(key, value)]);
  }

  // ---------------------------------------------------------------------------------------
  // The template applied to the cursor's block drops the edits made inside it
  // ---------------------------------------------------------------------------------------

  /** `headers.add("Authorization", value)`. */
  function AuthorizationCall(value: string): J {
    FindHttpHeaders.HeaderAdd(Literal(StringValue(AuthorizationHeader)), value)
  }

  /** A local class whose method sets the header. */
  function LocalClass(value: string): J {
    ClassDeclaration("Local", None, [MethodDeclaration("send", Some(Block([AuthorizationCall(value)])))])
  }

  /** A class whose method body declares that local class. */
  function OuterClass(value: string): J {
    ClassDeclaration("Test", None, [MethodDeclaration("test", Some(Block([LocalClass(value)])))])
  }

  /** The local class as the transform leaves it: the field prepended and the statement inserted. */
  function WiredLocalClass(value: string, provider: ClassType): J {
    ClassDeclaration("Local", None,
      [ProviderField(provider),
       MethodDeclaration("send", Some(Block([AuthorizationCall(value), NewHeaderStatement(ProviderFieldName, provider)])))])
  }

  lemma LocalClassFacts(value: string, base: TemplateBase, provider: ClassType, nearest: Option<string>, parentIsMethod: bool)
    requires value != NewAuthorization
    ensures HasAuthorizationHeader(LocalClass(value)) && !HasNewAuthorizationHeader(LocalClass(value))
    ensures Visit(base, LocalClass(value), provider, nearest, parentIsMethod) == WiredLocalClass(value, provider)
  {
    var m := MethodDeclaration("send", Some(Block([AuthorizationCall(value)])));
    EqualsIgnoreCaseIsEquivalence(AuthorizationHeader, AuthorizationHeader, AuthorizationHeader);
    SingleCallMethod("send", Literal(StringValue(AuthorizationHeader)), value, base, provider);
    var m' := MethodDeclaration("send", Some(Block([AuthorizationCall(value), NewHeaderStatement(ProviderFieldName, provider)])));
    SingleMemberClass(base, "Local", None, m, m', provider, nearest, parentIsMethod);
  }

  /** The outer class after one run: the field prepended, and after the local class, which
    * `kept` gives as the run left it, the new statement. */
  function OuterAfter(kept: J, provider: ClassType): J {
    ClassDeclaration("Test", None,
      [ProviderField(provider),
       MethodDeclaration("test", Some(Block([kept, NewHeaderStatement(ProviderFieldName, provider)])))])
  }

  lemma OuterBodyFacts(value: string, base: TemplateBase, provider: ClassType)
    requires value != NewAuthorization
    ensures var body := Block([LocalClass(value)]);
            var kept := if base == CursorBlock then LocalClass(value) else WiredLocalClass(value, provider);
            && HasAuthorizationHeader(body)
            && Visit(base, body, provider, Some(ProviderFieldName), true)
               == Block([kept, NewHeaderStatement(ProviderFieldName, provider)])
  {
    var local := LocalClass(value);
    var body := Block([local]);
    var n := NewHeaderStatement(ProviderFieldName, provider);
    LocalClassFacts(value, base, provider, Some(ProviderFieldName), false);
    assert Children(body) == [local];
    SingleMemberProbes(body);
    VisitChildrenSingle(base, body, provider, Some(ProviderFieldName));
    assert FirstHeaderStatement([local]) == Some(0);
    VisitBlockInsertsInto(base, [local], provider, Some(ProviderFieldName));
    var target := if base == CursorBlock then [local] else [WiredLocalClass(value, provider)];
    assert InsertAfter(target, 0, n) == [target[0], n];
  }

  lemma OuterMethodFacts(value: string, base: TemplateBase, provider: ClassType)
    requires value != NewAuthorization
    ensures var m := MethodDeclaration("test", Some(Block([LocalClass(value)])));
            var kept := if base == CursorBlock then LocalClass(value) else WiredLocalClass(value, provider);
            && HasAuthorizationHeader(m) && !IsProviderField(m, provider)
            && Visit(base, m, provider, Some(ProviderFieldName), false)
               == MethodDeclaration("test", Some(Block([kept, NewHeaderStatement(ProviderFieldName, provider)])))
  {
    var body := Block([LocalClass(value)]);
    var m := MethodDeclaration("test", Some(body));
    var kept := if base == CursorBlock then LocalClass(value) else WiredLocalClass(value, provider);
    OuterBodyFacts(value, base, provider);
    VisitMethod(base, "test", body, provider, Some(ProviderFieldName), false);
    assert Children(m) == [body];
    ProbesViaChild(m, 0);
  }

  /** One run over the outer class: the field is prepended and the statement inserted after the
    * local class; with the template applied to the cursor's block, the local class comes back
    * as it was written, its own field and statement dropped. */
  lemma OuterClassOnce(value: string, base: TemplateBase, provider: ClassType)
    requires value != NewAuthorization
    ensures TransformSource(base, OuterClass(value), provider)
            == OuterAfter(if base == CursorBlock then LocalClass(value) else WiredLocalClass(value, provider), provider)
  {
    var m := MethodDeclaration("test", Some(Block([LocalClass(value)])));
    var kept := if base == CursorBlock then LocalClass(value) else WiredLocalClass(value, provider);
    OuterMethodFacts(value, base, provider);
    var m' := MethodDeclaration("test", Some(Block([kept, NewHeaderStatement(ProviderFieldName, provider)])));
    SingleMemberClass(base, "Test", None, m, m', provider, None, false);
  }

  lemma SecondRunBodyFacts(value: string, provider: ClassType)
    requires value != NewAuthorization
    ensures var n := NewHeaderStatement(ProviderFieldName, provider);
            var body := Block([LocalClass(value), n]);
            && HasAuthorizationHeader(body)
            && Visit(CursorBlock, body, provider, Some(ProviderFieldName), true)
               == Block([WiredLocalClass(value, provider), n])
  {
    var n := NewHeaderStatement(ProviderFieldName, provider);
    var local := LocalClass(value);
    var body := Block([local, n]);
    LocalClassFacts(value, CursorBlock, provider, Some(ProviderFieldName), false);
    NewHeaderStatementIsInert(ProviderFieldName, provider);
    NoHeaderCallUnchanged(CursorBlock, n, provider, Some(ProviderFieldName), false);
    assert Children(body) == [local, n];
    ProbesViaChild(body, 0);
    ProbesViaChild(body, 1);
    VisitChildrenPair(CursorBlock, body, provider, Some(ProviderFieldName));
    VisitBlockKeeps(CursorBlock, [local, n], provider, Some(ProviderFieldName), true);
  }

  lemma SecondRunMethodFacts(value: string, provider: ClassType)
    requires value != NewAuthorization
    ensures var n := NewHeaderStatement(ProviderFieldName, provider);
            var m := MethodDeclaration("test", Some(Block([LocalClass(value), n])));
            && HasAuthorizationHeader(m)
            && Visit(CursorBlock, m, provider, Some(ProviderFieldName), false)
               == MethodDeclaration("test", Some(Block([WiredLocalClass(value, provider), n])))
  {
    var n := NewHeaderStatement(ProviderFieldName, provider);
    var body := Block([LocalClass(value), n]);
    var m := MethodDeclaration("test", Some(body));
    SecondRunBodyFacts(value, provider);
    VisitMethod(CursorBlock, "test", body, provider, Some(ProviderFieldName), false);
    assert Children(m) == [body];
    ProbesViaChild(m, 0);
  }

  /**
   * The transform as written is not idempotent: on a class whose method body declares a local
   * class that sets the header, the first run loses the local class's field and statement (the
   * template rewrites the block as it was before its statements were visited), and the second
   * run adds them, reaching only then what the corrected transform reaches in one run.
   */
  lemma AsWrittenNotIdempotent(value: string, provider: ClassType)
    requires value != NewAuthorization
    ensures var once := TransformSource(CursorBlock, OuterClass(value), provider);
            && TransformSource(CursorBlock, once, provider) != once
            && TransformSource(CursorBlock, once, provider) == TransformSource(VisitedBlock, OuterClass(value), provider)
  {
    OuterClassOnce(value, CursorBlock, provider);
    OuterClassOnce(value, VisitedBlock, provider);
    var n := NewHeaderStatement(ProviderFieldName, provider);
    var m := MethodDeclaration("test", Some(Block([LocalClass(value), n])));
    var m' := MethodDeclaration("test", Some(Block([WiredLocalClass(value, provider), n])));
    SecondRunMethodFacts(value, provider);
    FieldFirstClass(CursorBlock, "Test", None, m, m', provider, None, false);
    assert |WiredLocalClass(value, provider).members| != |LocalClass(value).members|;
  }
}
