/**
 * Properties of the rules in `Typing`: how scopes shadow each other, what the
 * compatibility check accepts, which names type resolution accepts, what
 * binding parameters and processing imports leave behind, and when an
 * expression's type can be inferred without a thrown error.
 */
module TypingFacts {
  import opened Wrappers
  import opened Ast
  import opened Typing

  /* ---------------------------------------------------------------- scopes */

  /** A declaration in the innermost scope is what every later lookup of that name finds, whatever outer scopes hold. */
  lemma InnermostShadows(scopes: Scopes, name: string, entry: ScopeEntry)
    requires |scopes| >= 1
    ensures Lookup(scopes[..|scopes| - 1] + [scopes[|scopes| - 1][name := entry]], name) == Some(entry)
  {
  }

  /** Declaring a name changes the lookup of no other name. */
  lemma DeclarationKeepsOtherNames(scopes: Scopes, name: string, entry: ScopeEntry, other: string)
    requires |scopes| >= 1 && other != name
    ensures Lookup(scopes[..|scopes| - 1] + [scopes[|scopes| - 1][name := entry]], other) == Lookup(scopes, other)
  {
    var updated := scopes[..|scopes| - 1] + [scopes[|scopes| - 1][name := entry]];
    assert updated[..|updated| - 1] == scopes[..|scopes| - 1];
  }

  /** A new, empty innermost scope hides nothing: every name is found as before. */
  lemma EmptyScopeIsTransparent(scopes: Scopes, name: string)
    ensures Lookup(scopes + [map[]], name) == Lookup(scopes, name)
  {
    assert (scopes + [map[]])[..|scopes|] == scopes;
  }

  /* ---------------------------------------------------------------- compatibility */

  /**
   * What `checkCompatibleTypes` accepts for non-null types: every type is
   * compatible with itself, a string accepts any right-hand type, a boolean or
   * number only a type of the same name, and null on the right is accepted
   * except by a boolean or number. The check is therefore not symmetric.
   */
  lemma CompatibilityFacts(t: TypeRef)
    ensures CheckCompatibleTypes(Some(t), Some(t)) == Normal(true)
    ensures CheckCompatibleTypes(Some(STRING), Some(t)) == Normal(true)
    ensures CheckCompatibleTypes(Some(NUMBER), Some(t)) == Normal(TypeName(t) == "number")
    ensures CheckCompatibleTypes(Some(BOOLEAN), Some(t)) == Normal(TypeName(t) == "boolean")
    ensures t != BOOLEAN && t != NUMBER ==> CheckCompatibleTypes(Some(t), Some(NULL)) == Normal(true)
    ensures CheckCompatibleTypes(Some(STRING), Some(NULL)) == Normal(true)
    ensures CheckCompatibleTypes(Some(NULL), Some(STRING)) == Normal(false)
    ensures CheckCompatibleTypes(Some(NUMBER), Some(ANY)) == Normal(false)
  {
  }

  /**
   * `any` on either side is compatible with everything except where a boolean
   * or number on the left compares names first.
   */
  lemma CompatibilityWithAny(t: Option<TypeRef>)
    ensures t != Some(BOOLEAN) && t != Some(NUMBER) ==> CheckCompatibleTypes(t, Some(ANY)) == Normal(true)
    ensures CheckCompatibleTypes(Some(ANY), t) == Normal(true)
  {
  }

  /**
   * When no special rule applies (neither side is `any`, the left is not a
   * string, boolean or number, the right is not null) the check is the
   * comparison of the two names: `void` against `number` is incompatible.
   */
  lemma CompatibilityByName(t: TypeRef, u: TypeRef)
    requires t != BOOLEAN && t != NUMBER && t != STRING && t != ANY
    requires u != NULL && u != ANY
    ensures CheckCompatibleTypes(Some(t), Some(u)) == Normal(TypeName(t) == TypeName(u))
    ensures CheckCompatibleTypes(Some(VOID), Some(NUMBER)) == Normal(false)
  {
  }

  /**
   * A null type (no type at all) on one side: the string, null and `any`
   * rules answer before its name is read; otherwise reading its name throws.
   */
  lemma NullValuedTypes(t: TypeRef)
    ensures CheckCompatibleTypes(None, Some(NULL)) == Normal(true)
    ensures CheckCompatibleTypes(Some(STRING), None) == Normal(true)
    ensures CheckCompatibleTypes(None, Some(ANY)) == Normal(true)
    ensures CheckCompatibleTypes(Some(ANY), None) == Normal(true)
    ensures CheckCompatibleTypes(Some(BOOLEAN), None) == Threw(TypeError)
    ensures CheckCompatibleTypes(Some(NUMBER), None) == Threw(TypeError)
    ensures t != STRING && t != ANY ==> CheckCompatibleTypes(Some(t), None) == Threw(TypeError)
    ensures t != NULL && t != ANY ==> CheckCompatibleTypes(None, Some(t)) == Threw(TypeError)
  {
  }

  /** Two written types with the same name are compatible, yet an assignment between them throws: it compares objects. */
  lemma SameNameDistinctObjects(name: string, id1: nat, id2: nat, oper: Operator, log: seq<Failure>)
    requires id1 != id2
    ensures CheckCompatibleTypes(Some(Written(name, id1)), Some(Written(name, id2))) == Normal(true)
    ensures AssignType(oper, Some(Written(name, id1)), Some(Written(name, id2)), log) == Raise(log, IncompatibleAssign)
  {
  }

  /** With no declared types and no imports, `any` and `null` are unknown types, while the four primitive names resolve. */
  lemma OnlyFourPrimitiveNames(t: TypeRef, log: seq<Failure>)
    requires t.Builtin?
    ensures ResolveType([], map[], t, log).out.Normal? <==> t != ANY && t != NULL
    ensures t == ANY ==> ResolveType([], map[], t, log) == Raise(log, UnknownType("any"))
  {
  }

  /* ---------------------------------------------------------------- declarations */

  /**
   * An initializer whose type is incompatible with the declared type is
   * reported exactly once, after whatever the initializer reported, and the
   * declared type is the one recorded.
   */
  lemma IncompatibleInitializerKeepsAnnotation(env: Env, t: TypeRef, init: Expr, log: seq<Failure>)
    requires ResolveType(env.types, env.imports, t, log).out.Normal?
    requires TypeOf(env, init, log).out.Normal?
    requires CheckCompatibleTypes(Some(t), TypeOf(env, init, log).out.value) == Normal(false)
    ensures DeclarationType(env, Some(t), Some(init), log) ==
            Typed(Normal(Some(t)), TypeOf(env, init, log).log + [SemanticError(IncompatibleInit(t, TypeOf(env, init, log).out.value))])
  {
  }

  /** An unknown declared type is reported and thrown before the initializer is looked at. */
  lemma UnknownAnnotationThrows(env: Env, t: TypeRef, init: Option<Expr>, log: seq<Failure>)
    requires ResolveType(env.types, env.imports, t, log).out.Threw?
    ensures DeclarationType(env, Some(t), init, log) == Raise(log, UnknownType(TypeName(t)))
  {
  }

  /** The parameters bind when each has a type that resolves. */
  predicate AllResolve(types: seq<string>, imports: map<string, Option<Stmt>>, params: seq<Parameter>)
  {
    forall i :: 0 <= i < |params| ==> params[i].typ.Some? && ResolveType(types, imports, params[i].typ.value, []).out.Normal?
  }

  /** Binding parameters completes exactly when every parameter has a type that resolves, and then reports nothing. */
  lemma {:induction false} BindingCompletesWhenAllResolve(types: seq<string>, imports: map<string, Option<Stmt>>,
                                                          entries: map<string, ScopeEntry>, params: seq<Parameter>, log: seq<Failure>)
    ensures BoundParameters(types, imports, entries, params, log).out.Normal? <==> AllResolve(types, imports, params)
    ensures BoundParameters(types, imports, entries, params, log).out.Normal? ==>
              BoundParameters(types, imports, entries, params, log).log == log
    decreases |params|
  {
    if |params| > 0 {
      var p := params[0];
      var rest := params[1..];
      assert forall i :: 0 <= i < |rest| ==> rest[i] == params[i + 1];
      if p.typ.Some? && ResolveType(types, imports, p.typ.value, log).out.Normal? {
        BindingCompletesWhenAllResolve(types, imports, entries[p.name := ScopeEntry(DeclaredParameter(p), p.typ)], rest, log);
        if !AllResolve(types, imports, rest) {
          var i :| 0 <= i < |rest| && !(rest[i].typ.Some? && ResolveType(types, imports, rest[i].typ.value, []).out.Normal?);
          assert params[i + 1] == rest[i];
        }
      } else {
        assert !(params[0].typ.Some? && ResolveType(types, imports, params[0].typ.value, []).out.Normal?);
      }
    }
  }

  /** After binding, each parameter's name is bound to the last parameter of that name, with its declared type. */
  lemma {:induction false} LastParameterOfANameWins(types: seq<string>, imports: map<string, Option<Stmt>>,
                                                    entries: map<string, ScopeEntry>, params: seq<Parameter>, log: seq<Failure>,
                                                    i: nat)
    requires BoundParameters(types, imports, entries, params, log).out.Normal?
    requires i < |params| && forall j :: i < j < |params| ==> params[j].name != params[i].name
    ensures params[i].name in BoundParameters(types, imports, entries, params, log).out.value
    ensures BoundParameters(types, imports, entries, params, log).out.value[params[i].name] ==
              ScopeEntry(DeclaredParameter(params[i]), params[i].typ)
    decreases |params|
  {
    var p := params[0];
    var rest := params[1..];
    var bound := entries[p.name := ScopeEntry(DeclaredParameter(p), p.typ)];
    if i == 0 {
      KeepsUnboundNames(types, imports, bound, rest, log, p.name);
    } else {
      assert rest[i - 1] == params[i];
      LastParameterOfANameWins(types, imports, bound, rest, log, i - 1);
    }
  }

  /** Binding parameters leaves the entry of every name no parameter has. */
  lemma {:induction false} KeepsUnboundNames(types: seq<string>, imports: map<string, Option<Stmt>>,
                                             entries: map<string, ScopeEntry>, params: seq<Parameter>, log: seq<Failure>,
                                             k: string)
    requires BoundParameters(types, imports, entries, params, log).out.Normal?
    requires k in entries && forall i :: 0 <= i < |params| ==> params[i].name != k
    ensures k in BoundParameters(types, imports, entries, params, log).out.value
    ensures BoundParameters(types, imports, entries, params, log).out.value[k] == entries[k]
    decreases |params|
  {
    if |params| > 0 {
      var p := params[0];
      var rest := params[1..];
      assert forall i :: 0 <= i < |rest| ==> rest[i] == params[i + 1];
      KeepsUnboundNames(types, imports, entries[p.name := ScopeEntry(DeclaredParameter(p), p.typ)], rest, log, k);
    }
  }

  /* ---------------------------------------------------------------- imports */

  /**
   * The names of one import. From a registered unit each name is bound to that
   * unit's symbol of the name, which may be null, and the import reports
   * something exactly when some name has no symbol. From an unregistered unit
   * nothing is bound and every name is reported, in order.
   */
  lemma {:induction false} ImportNamesEffect(u: Option<Unit>, names: seq<string>, imports: map<string, Option<Stmt>>,
                                             log: seq<Failure>)
    ensures u.None? ==> ImportNames(u, names, imports, log).imports == imports
    ensures u.None? ==> |ImportNames(u, names, imports, log).log| == |log| + |names| &&
                        forall i :: 0 <= i < |names| ==>
                          ImportNames(u, names, imports, log).log[|log| + i] == SemanticError(UnableToFindSymbol(names[i]))
    ensures u.Some? ==> forall k :: k in ImportNames(u, names, imports, log).imports <==> k in imports || k in names
    ensures u.Some? ==> forall k :: k in names ==> ImportNames(u, names, imports, log).imports[k] == FindSymbol(u.value, k)
    ensures u.Some? ==> forall k :: k in imports && k !in names ==> ImportNames(u, names, imports, log).imports[k] == imports[k]
    ensures u.Some? ==> (ImportNames(u, names, imports, log).log == log <==> forall k :: k in names ==> FindSymbol(u.value, k).Some?)
    decreases |names|
  {
    if |names| > 0 {
      var rest := names[1..];
      assert forall k :: k in names <==> k == names[0] || k in rest;
      if u.None? {
        var log1 := Report(log, UnableToFindSymbol(names[0]));
        ImportNamesEffect(u, rest, imports, log1);
        var r := ImportNames(u, rest, imports, log1);
        forall i | 0 <= i < |names|
          ensures r.log[|log| + i] == SemanticError(UnableToFindSymbol(names[i]))
        {
          if i > 0 {
            assert r.log[|log1| + (i - 1)] == SemanticError(UnableToFindSymbol(rest[i - 1]));
          }
        }
      } else {
        var stmt := FindSymbol(u.value, names[0]);
        var log1 := if stmt.None? then Report(log, UnableToFindSymbol(names[0])) else log;
        ImportNamesEffect(u, rest, imports[names[0] := stmt], log1);
        var r := ImportNames(u, rest, imports[names[0] := stmt], log1);
        if stmt.None? {
          assert |r.log| >= |log1| > |log|;
        }
      }
    }
  }

  /** Processing imports reports nothing exactly when every imported name comes from a registered unit that declares it. */
  lemma {:induction false} ImportsCleanWhenAllFound(units: map<string, Unit>, imps: seq<Import>,
                                                    imports: map<string, Option<Stmt>>, log: seq<Failure>)
    ensures ImportAll(units, imps, imports, log).log == log <==>
            forall i, k :: 0 <= i < |imps| && k in imps[i].names ==>
              imps[i].source in units && FindSymbol(units[imps[i].source], k).Some?
    decreases |imps|
  {
    if |imps| > 0 {
      var source := if imps[0].source in units then Some(units[imps[0].source]) else None;
      var first := ImportNames(source, imps[0].names, imports, log);
      ImportNamesEffect(source, imps[0].names, imports, log);
      ImportsCleanWhenAllFound(units, imps[1..], first.imports, first.log);
      assert forall i :: 0 < i < |imps| ==> imps[i] == imps[1..][i - 1];
      if source.None? && |imps[0].names| > 0 {
        assert imps[0].names[0] in imps[0].names;
      }
    }
  }

  /* ---------------------------------------------------------------- expressions */

  /** An expression without operators and without `new`: its parts only pass types up. */
  predicate PassesTypesUp(e: Expr)
  {
    match e
    case LogicalExpr(_, _, _) => false
    case BinaryExpr(_, _, _) => false
    case AssignExpr(_, _, _) => false
    case NewExpr(_) => false
    case Group(inner) => PassesTypesUp(inner)
    case UnaryExpr(inner) => PassesTypesUp(inner)
    case CallExpr(callee, _) => PassesTypesUp(callee)
    case ArrayExpr(values) => |values| > 0 ==> PassesTypesUp(values[0])
    case ArrayAccessExpr(callee, _) => PassesTypesUp(callee)
    case FieldExpr(callee, _) => PassesTypesUp(callee)
    case _ => true
  }

  /**
   * Such an expression never throws, and the only error it can report is one
   * name it cannot find.
   */
  lemma {:induction false} PassingTypesUpNeverThrows(env: Env, e: Expr, log: seq<Failure>)
    requires PassesTypesUp(e)
    ensures TypeOf(env, e, log).out.Normal?
    ensures TypeOf(env, e, log).log == log ||
            exists name :: TypeOf(env, e, log).log == Report(log, CannotFindName(name))
    decreases e
  {
    match e
    case Group(inner) => PassingTypesUpNeverThrows(env, inner, log);
    case UnaryExpr(inner) => PassingTypesUpNeverThrows(env, inner, log);
    case CallExpr(callee, _) => PassingTypesUpNeverThrows(env, callee, log);
    case ArrayExpr(values) =>
      if |values| > 0 {
        PassingTypesUpNeverThrows(env, values[0], log);
      }
    case ArrayAccessExpr(callee, _) => PassingTypesUpNeverThrows(env, callee, log);
    case FieldExpr(callee, _) => PassingTypesUpNeverThrows(env, callee, log);
    case NameLiteral(value) =>
      if Lookup(env.scopes, value).None? {
        assert TypeOf(env, e, log).log == Report(log, CannotFindName(value));
      }
    case _ =>
  }

  /** A logical expression that completes has type boolean; a binary one has its left operand's type. */
  lemma OperatorResultTypes(env: Env, e: Expr, log: seq<Failure>)
    requires e.LogicalExpr? || e.BinaryExpr?
    requires TypeOf(env, e, log).out.Normal?
    ensures e.LogicalExpr? ==> TypeOf(env, e, log).out.value == Some(BOOLEAN)
    ensures e.BinaryExpr? ==> TypeOf(env, e.left, log).out.Normal? &&
                              TypeOf(env, e, log).out.value == TypeOf(env, e.left, log).out.value
  {
    assert TypeOf(env, e, log) == Operands(env, e, log);
  }
}
