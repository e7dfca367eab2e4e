/**
 * The search recipe that marks every outermost `HttpHeaders.add(..)` call whose first argument
 * names a given header, whether the name is written as a qualified constant
 * (`HttpHeaders.AUTHORIZATION`), a statically imported constant (`AUTHORIZATION`) or a string
 * literal (`"Authorization"`), in any letter case. The arguments of a marked call are not
 * searched, so a matching call nested inside one stays unmarked.
 */
module FindHttpHeaders {
  import opened Wrappers
  import opened JavaTree

  /** The declaring type of the matched method. */
  const HttpHeadersType := "org.springframework.http.HttpHeaders"

  /** The method matcher `org.springframework.http.HttpHeaders add(..)`: declaring type and
    * name of the resolved method, any argument list. An unresolved call never matches. */
  predicate IsHeaderAdd(t: J) {
    t.MethodInvocation? && t.methodType == Some(MethodType(HttpHeadersType, "add"))
  }

  /** The name a header key is written with: the simple name of a field access, the name of an
    * identifier, or the value of a `String` literal. Any other shape has no name. */
  function KeyName(key: J): (r: Option<string>)
    ensures r.Some? <==> key.FieldAccess? || key.Identifier? || (key.Literal? && key.value.StringValue?)
  {
    match key
    case FieldAccess(_, name) => Some(name)
    case Identifier(name) => Some(name)
    case Literal(StringValue(s)) => Some(s)
    case _ => None
  }

  /** The key names `header`, ignoring case. */
  predicate KeyNamesHeader(key: J, header: string) {
    KeyName(key).Some? && EqualsIgnoreCase(KeyName(key).value, header)
  }

  /** A call that the recipe marks: a candidate whose first argument names the header. */
  predicate IsHeaderCall(t: J, header: string) {
    IsHeaderAdd(t) && |t.args| > 0 && KeyNamesHeader(t.args[0], header)
  }

  /** Some node of `t` is a call that the recipe marks. */
  predicate HasHeaderCall(t: J, header: string) {
    IsHeaderCall(t, header)
    || exists i :: 0 <= i < |Children(t)| && HasHeaderCall(Children(t)[i], header)
  }

  /** No call in `t` carries a search-result mark. */
  predicate Unmarked(t: J) {
    !(t.MethodInvocation? && t.found)
    && forall i :: 0 <= i < |Children(t)| ==> Unmarked(Children(t)[i])
  }

  /** `t` with every search-result mark removed. */
  function Unmark(t: J): (r: J)
    ensures Unmarked(r)
  {
    var cs := Children(t);
    var u := WithChildren(t, seq(|cs|, i requires 0 <= i < |cs| => Unmark(cs[i])));
    if u.MethodInvocation? then u.(found := false) else u
  }

  /**
   * The recipe's visitor. A matched call comes back marked and its arguments are not searched;
   * every other node, including a call that does not match, is searched recursively.
   */
  function FindHeaders(t: J, header: string): (r: J)
    ensures IsHeaderCall(t, header) ==> r == t.(found := true)
    ensures !HasHeaderCall(t, header) ==> r == t
    ensures r.MethodInvocation? && r.found && !(t.MethodInvocation? && t.found) ==> IsHeaderCall(t, header)
  {
    if IsHeaderCall(t, header) then t.(found := true)
    else
      var cs := Children(t);
      var rs := seq(|cs|, i requires 0 <= i < |cs| => FindHeaders(cs[i], header));
      var r := WithChildren(t, rs);
      assert !HasHeaderCall(t, header) ==> rs == cs;
      WithOwnChildren(t);
      r
  }

  /** Replacing children twice is replacing them once. */
  lemma WithChildrenTwice(t: J, a: seq<J>, b: seq<J>)
    requires |a| == |Children(t)| == |b|
    ensures WithChildren(WithChildren(t, a), b) == WithChildren(t, b)
  {
  }

  /** The recipe only adds marks: with marks removed, its result is its input. */
  lemma {:induction false} FindHeadersOnlyMarks(t: J, header: string)
    ensures Unmark(FindHeaders(t, header)) == Unmark(t)
  {
    var cs := Children(t);
    if IsHeaderCall(t, header) {
      var m := t.(found := true);
      assert Children(m) == cs;
      WithChildrenTwice(t, cs, cs);
    } else {
      var rs := seq(|cs|, i requires 0 <= i < |cs| => FindHeaders(cs[i], header));
      var r := WithChildren(t, rs);
      assert FindHeaders(t, header) == r;
      forall i | 0 <= i < |cs| ensures Unmark(rs[i]) == Unmark(cs[i]) {
        FindHeadersOnlyMarks(cs[i], header);
      }
      var urs := seq(|rs|, i requires 0 <= i < |rs| => Unmark(rs[i]));
      var ucs := seq(|cs|, i requires 0 <= i < |cs| => Unmark(cs[i]));
      assert urs == ucs;
      WithChildrenTwice(t, rs, ucs);
    }
  }

  /**
   * On an unmarked tree the visitor changes something exactly when the tree holds a matched
   * call; this is the test `visit(j) != j` that the migration recipe builds on.
   */
  lemma {:induction false} FindHeadersChangesIff(t: J, header: string)
    requires Unmarked(t)
    ensures FindHeaders(t, header) != t <==> HasHeaderCall(t, header)
  {
    var cs := Children(t);
    if !IsHeaderCall(t, header) {
      var rs := seq(|cs|, i requires 0 <= i < |cs| => FindHeaders(cs[i], header));
      assert FindHeaders(t, header) == WithChildren(t, rs);
      if HasHeaderCall(t, header) {
        var i :| 0 <= i < |cs| && HasHeaderCall(cs[i], header);
        FindHeadersChangesIff(cs[i], header);
        assert Children(FindHeaders(t, header))[i] != cs[i];
      }
    }
  }

  /** `t` is a call that carries a search-result mark. */
  predicate Marked(t: J) {
    t.MethodInvocation? && t.found
  }

  /** Some node strictly above the end of `path` is a matched call. */
  predicate InsideMatch(t: J, header: string, path: seq<nat>)
    decreases |path|
  {
    path != [] && (IsHeaderCall(t, header)
                   || (path[0] < |Children(t)| && InsideMatch(Children(t)[path[0]], header, path[1..])))
  }

  /**
   * Where the visitor marks: every node keeps its place, a matched call that is not inside
   * another matched call comes back marked, no other node gets a new mark, and the nodes inside
   * a matched call come back as they were.
   */
  lemma {:induction false} FindHeadersMarksOutermost(t: J, header: string, path: seq<nat>)
    requires SubtreeAt(t, path).Some?
    ensures var s := SubtreeAt(t, path).value;
            var m := SubtreeAt(FindHeaders(t, header), path);
            && m.Some?
            && (InsideMatch(t, header, path) ==> m.value == s)
            && (!InsideMatch(t, header, path) ==> (Marked(m.value) <==> Marked(s) || IsHeaderCall(s, header)))
    decreases |path|
  {
    var cs := Children(t);
    if IsHeaderCall(t, header) {
      assert Children(t.(found := true)) == cs;
    } else {
      var rs := seq(|cs|, i requires 0 <= i < |cs| => FindHeaders(cs[i], header));
      assert FindHeaders(t, header) == WithChildren(t, rs);
      if path != [] {
        FindHeadersMarksOutermost(cs[path[0]], header, path[1..]);
      }
    }
  }

  /** The three key shapes name a header in the same way, and only by their written name: the
    * qualifier of a field access plays no part. A non-`String` literal or any other shape never
    * names a header. This restates `KeyNamesHeader` shape by shape, for the reader. */
  lemma KeyShapesAgree(qualifier: J, key: J, name: string, header: string)
    ensures KeyNamesHeader(FieldAccess(qualifier, name), header) == EqualsIgnoreCase(name, header)
    ensures KeyNamesHeader(Identifier(name), header) == EqualsIgnoreCase(name, header)
    ensures KeyNamesHeader(Literal(StringValue(name)), header) == EqualsIgnoreCase(name, header)
    ensures !KeyNamesHeader(Literal(NonStringValue), header)
    ensures !(key.FieldAccess? || key.Identifier? || key.Literal?) ==> !KeyNamesHeader(key, header)
  {
  }

  /** Only the first argument is inspected: two candidate calls with the same first argument are
    * both marked or both left alone, whatever their other arguments. This restates `IsHeaderCall`
    * for the reader. */
  lemma OnlyFirstArgumentInspected(call1: J, call2: J, header: string)
    requires IsHeaderAdd(call1) && IsHeaderAdd(call2)
    requires |call1.args| > 0 && |call2.args| > 0 && call1.args[0] == call2.args[0]
    ensures IsHeaderCall(call1, header) == IsHeaderCall(call2, header)
  {
  }

  /** The call `headers.add(key, value)`, attributed to `HttpHeaders.add`. */
  function HeaderAdd(key: J, value: string): J {
    MethodInvocation(Some(Identifier("headers")), "add", Some(MethodType(HttpHeadersType, "add")),
                     [key, Literal(StringValue(value))], false)
  }

  /** Upper-case spelling of the header: a fact about `EqualsIgnoreCase` used by the examples. */
  lemma UpperCaseNamesAuthorization()
    ensures EqualsIgnoreCase("AUTHORIZATION", "Authorization")
  {
    var a, b := "AUTHORIZATION", "Authorization";
    forall i | 0 <= i < |a| ensures ToLowerAscii(a[i]) == ToLowerAscii(b[i]) {
      if i > 0 {
        assert 'A' <= a[i] <= 'Z' && !('A' <= b[i] <= 'Z') && b[i] as int == a[i] as int + 32;
      }
    }
  }

  /**
   * The marked cases of the search recipe's own examples, for any header value: the qualified
   * constant `HttpHeaders.AUTHORIZATION`, the statically imported `AUTHORIZATION` and the
   * literals "Authorization" and "AUTHORIZATION".
   */
  lemma FindHeadersMarksExamples(value: string)
    ensures var call := HeaderAdd(FieldAccess(Identifier("HttpHeaders"), "AUTHORIZATION"), value);
            FindHeaders(call, "Authorization") == call.(found := true)
    ensures var call := HeaderAdd(Identifier("AUTHORIZATION"), value);
            FindHeaders(call, "Authorization") == call.(found := true)
    ensures var call := HeaderAdd(Literal(StringValue("Authorization")), value);
            FindHeaders(call, "Authorization") == call.(found := true)
    ensures var call := HeaderAdd(Literal(StringValue("AUTHORIZATION")), value);
            FindHeaders(call, "Authorization") == call.(found := true)
  {
    UpperCaseNamesAuthorization();
    EqualsIgnoreCaseIsEquivalence("Authorization", "Authorization", "Authorization");
    KeyShapesAgree(Identifier("HttpHeaders"), Identifier("AUTHORIZATION"), "AUTHORIZATION", "Authorization");
    KeyShapesAgree(Identifier("HttpHeaders"), Identifier("AUTHORIZATION"), "Authorization", "Authorization");
  }

  /** `HttpHeaders.EXPIRES` is not marked, whatever the constant's value: only the written name
    * counts. */
  lemma FindHeadersSkipsOtherConstant(value: string)
    ensures var call := HeaderAdd(FieldAccess(Identifier("HttpHeaders"), "EXPIRES"), value);
            FindHeaders(call, "Authorization") == call
  {
    var expires := FieldAccess(Identifier("HttpHeaders"), "EXPIRES");
    var call := HeaderAdd(expires, value);
    assert !EqualsIgnoreCase("EXPIRES", "Authorization");
    assert !IsHeaderCall(call, "Authorization");
    assert !HasHeaderCall(Identifier("HttpHeaders"), "Authorization");
    assert Children(expires) == [Identifier("HttpHeaders")];
    assert !HasHeaderCall(expires, "Authorization");
    assert !HasHeaderCall(Identifier("headers"), "Authorization");
    assert !HasHeaderCall(Literal(StringValue(value)), "Authorization");
    assert Children(call) == [Identifier("headers"), expires, Literal(StringValue(value))];
  }
}
