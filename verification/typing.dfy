/**
 * The rules of the type inference pass of compiler/typeinf.ts as pure
 * functions: scope lookup, symbol lookup in a unit, type compatibility, type
 * resolution, the type of an expression and the type a declaration records.
 *
 * A visitor either completes with a type, which may be null, or throws. Every
 * rule also takes the errors reported to the listener before it and yields the
 * errors reported up to its end.
 */
module Typing {
  import opened Wrappers
  import opened Ast

  /** What a reported error says. */
  datatype Message =
    | CannotFindName(name: string)
    | IncompatibleLogical
    | IncompatibleBinary(left: Option<TypeRef>, right: Option<TypeRef>)
    | StringOperator(oper: Operator)
    | IncompatibleAssign
    | UnknownType(name: string)
    | UnableToFindSymbol(name: string)
    | IncompatibleInit(declared: TypeRef, init: Option<TypeRef>)
    | StackUnderflow

  /** An error object: a `SemanticError`, or the `TypeError` of reading a property of null. */
  datatype Failure = SemanticError(message: Message) | TypeError

  datatype Completion<+T> = Normal(value: T) | Threw(failure: Failure)

  datatype Typed<+T> = Typed(out: Completion<T>, log: seq<Failure>)

  /** The declaration a scope entry points at. */
  datatype Target = DeclaredStmt(stmt: Stmt) | DeclaredParameter(param: Parameter)

  datatype ScopeEntry = ScopeEntry(target: Target, typ: Option<TypeRef>)

  /** The entries of each scope of the stack, outermost first. */
  type Scopes = seq<map<string, ScopeEntry>>

  /** What the rules read from the pass: the scopes, the declared type names and the imported symbols. */
  datatype Env = Env(scopes: Scopes, types: seq<string>, imports: map<string, Option<Stmt>>)

  /** `this.error(...)`: the listener receives a new semantic error. */
  function Report(log: seq<Failure>, m: Message): (r: seq<Failure>)
    ensures |r| == |log| + 1 && r[..|log|] == log && r[|log|] == SemanticError(m)
  {
    log + [SemanticError(m)]
  }

  /** `throw this.error(...)`: the error is reported, then thrown. */
  function Raise<T>(log: seq<Failure>, m: Message): (r: Typed<T>)
    ensures r.out == Threw(SemanticError(m)) && r.log == Report(log, m)
  {
    Typed(Threw(SemanticError(m)), Report(log, m))
  }

  /* ---------------------------------------------------------------- lookups */

  /** `find`: the entry for `name` in the innermost scope that holds it. */
  function Lookup(scopes: Scopes, name: string): (r: Option<ScopeEntry>)
    ensures r.Some? ==> exists i :: 0 <= i < |scopes| && name in scopes[i] && r.value == scopes[i][name]
    ensures |scopes| > 0 && name in scopes[|scopes| - 1] ==> r == Some(scopes[|scopes| - 1][name])
    decreases |scopes|
  {
    if |scopes| == 0 then None
    else if name in scopes[|scopes| - 1] then Some(scopes[|scopes| - 1][name])
    else Lookup(scopes[..|scopes| - 1], name)
  }

  /** The lookup finds nothing exactly when no scope holds the name, and otherwise the innermost entry. */
  lemma {:induction false} LookupInnermost(scopes: Scopes, name: string)
    ensures Lookup(scopes, name).None? <==> forall i :: 0 <= i < |scopes| ==> name !in scopes[i]
    ensures Lookup(scopes, name).Some? ==>
              exists i :: 0 <= i < |scopes| && name in scopes[i] && Lookup(scopes, name).value == scopes[i][name] &&
                          forall j :: i < j < |scopes| ==> name !in scopes[j]
    decreases |scopes|
  {
    var n := |scopes|;
    if n > 0 && name in scopes[n - 1] {
      assert name in scopes[n - 1] && Lookup(scopes, name).value == scopes[n - 1][name];
    } else if n > 0 {
      var prefix := scopes[..n - 1];
      LookupInnermost(prefix, name);
      assert Lookup(scopes, name) == Lookup(prefix, name);
      if Lookup(prefix, name).Some? {
        var i :| 0 <= i < |prefix| && name in prefix[i] && Lookup(prefix, name).value == prefix[i][name] &&
                 forall j :: i < j < |prefix| ==> name !in prefix[j];
        assert scopes[i] == prefix[i];
        forall j | i < j < n
          ensures name !in scopes[j]
        {
          if j < n - 1 {
            assert scopes[j] == prefix[j];
          }
        }
      } else {
        forall i | 0 <= i < n
          ensures name !in scopes[i]
        {
          if i < n - 1 {
            assert scopes[i] == prefix[i];
          }
        }
      }
    }
  }

  /** `findSymbol`: a unit's variable, else its function, else its type of that name. */
  function FindSymbol(u: Unit, name: string): (r: Option<Stmt>)
    ensures r.Some? <==> name in u.variables || name in u.functions || name in u.types
    ensures name in u.variables ==> r == Some(u.variables[name])
    ensures name !in u.variables && name in u.functions ==> r == Some(u.functions[name])
    ensures name !in u.variables && name !in u.functions && name in u.types ==> r == Some(u.types[name])
  {
    if name in u.variables then Some(u.variables[name])
    else if name in u.functions then Some(u.functions[name])
    else if name in u.types then Some(u.types[name])
    else None
  }

  /* ---------------------------------------------------------------- types */

  /**
   * `checkCompatibleTypes(type1, type2)`. Reading the name of a null type is a
   * TypeError, which is the only way the check fails: a boolean or number
   * reads the name of a null right-hand type, and otherwise a null side is
   * read unless a string on the left, null on the right or `any` on either
   * side decides first.
   */
  function CheckCompatibleTypes(type1: Option<TypeRef>, type2: Option<TypeRef>): (r: Completion<bool>)
    ensures r.Threw? <==> r == Threw(TypeError)
    ensures r.Threw? <==>
      && (type1.None? || type2.None?)
      && type1 != Some(STRING) && type2 != Some(NULL)
      && (type1 == Some(BOOLEAN) || type1 == Some(NUMBER) || (type1 != Some(ANY) && type2 != Some(ANY)))
    ensures type1.Some? && type2.Some? ==> r.Normal?
  {
    if type1 == Some(BOOLEAN) || type1 == Some(NUMBER) then
      if type2.None? then Threw(TypeError) else Normal(TypeName(type2.value) == TypeName(type1.value))
    else if type1 == Some(STRING) || type2 == Some(NULL) then Normal(true)
    else if type1 == Some(ANY) || type2 == Some(ANY) then Normal(true)
    else if type2.None? || type1.None? then Threw(TypeError)
    else Normal(TypeName(type2.value) == TypeName(type1.value))
  }

  /** The type names `resolveType` accepts without looking anywhere. */
  predicate IsPrimitiveName(name: string)
  {
    name == "string" || name == "number" || name == "boolean" || name == "void"
  }

  /**
   * `resolveType`: the type itself when its name is a primitive one, a declared
   * type or an import bound to a symbol; otherwise an "Unknown type" error is
   * reported and thrown.
   */
  function ResolveType(types: seq<string>, imports: map<string, Option<Stmt>>, t: TypeRef, log: seq<Failure>): (r: Typed<TypeRef>)
    ensures r.out.Normal? <==> IsPrimitiveName(TypeName(t)) || TypeName(t) in types ||
                               (TypeName(t) in imports && imports[TypeName(t)].Some?)
    ensures r.out.Normal? ==> r.out.value == t && r.log == log
    ensures r.out.Threw? ==> r == Raise(log, UnknownType(TypeName(t)))
  {
    var name := TypeName(t);
    if IsPrimitiveName(name) then Typed(Normal(t), log)
    else if name in types then Typed(Normal(t), log)
    else if name in imports && imports[name].Some? then Typed(Normal(t), log)
    else Raise(log, UnknownType(name))
  }

  /* ---------------------------------------------------------------- expressions */

  /** `visitNameLiteral`: the type of the innermost entry; a missing name is reported and yields undefined. */
  function NameType(env: Env, name: string, log: seq<Failure>): (r: Typed<Option<TypeRef>>)
    ensures r.out.Normal?
    ensures Lookup(env.scopes, name).Some? ==> r == Typed(Normal(Lookup(env.scopes, name).value.typ), log)
    ensures Lookup(env.scopes, name).None? ==> r == Typed(Normal(None), Report(log, CannotFindName(name)))
  {
    var entry := Lookup(env.scopes, name);
    if entry.None? then Typed(Normal(None), Report(log, CannotFindName(name)))
    else Typed(Normal(entry.value.typ), log)
  }

  /** `visitLogicalExpr` after its operands: boolean, or a thrown error when they are incompatible. */
  function LogicalType(left: Option<TypeRef>, right: Option<TypeRef>, log: seq<Failure>): (r: Typed<Option<TypeRef>>)
    ensures r.out.Normal? <==> CheckCompatibleTypes(left, right) == Normal(true)
    ensures r.out.Normal? ==> r.out.value == Some(BOOLEAN) && r.log == log
    ensures CheckCompatibleTypes(left, right) == Normal(false) ==> r == Raise(log, IncompatibleLogical)
  {
    var c := CheckCompatibleTypes(left, right);
    if c.Threw? then Typed(Threw(c.failure), log)
    else if !c.value then Raise(log, IncompatibleLogical)
    else Typed(Normal(Some(BOOLEAN)), log)
  }

  /**
   * `visitBinaryExpr` after its operands: the left operand's type. Incompatible
   * operands and a string left operand with an operator other than `+` are
   * reported, not thrown.
   */
  function BinaryType(oper: Operator, left: Option<TypeRef>, right: Option<TypeRef>, log: seq<Failure>): (r: Typed<Option<TypeRef>>)
    ensures r.out.Normal? <==> CheckCompatibleTypes(left, right).Normal?
    ensures r.out.Normal? ==> r.out.value == left
    ensures r.out.Normal? ==> r.log == log
                                     + (if CheckCompatibleTypes(left, right) == Normal(false) then [SemanticError(IncompatibleBinary(left, right))] else [])
                                     + (if left == Some(STRING) && oper != Plus then [SemanticError(StringOperator(oper))] else [])
  {
    var c := CheckCompatibleTypes(left, right);
    if c.Threw? then Typed(Threw(c.failure), log)
    else
      var log1 := if !c.value then Report(log, IncompatibleBinary(left, right)) else log;
      var log2 := if left == Some(STRING) && oper != Plus then Report(log1, StringOperator(oper)) else log1;
      Typed(Normal(left), log2)
  }

  /**
   * `visitAssignExpr` after its operands: the left type, when both sides are the
   * same type object and a string is only assigned with `=` or `+=`; otherwise a
   * thrown error.
   */
  function AssignType(oper: Operator, left: Option<TypeRef>, right: Option<TypeRef>, log: seq<Failure>): (r: Typed<Option<TypeRef>>)
    ensures r.out.Normal? <==> left == right && (left == Some(STRING) ==> oper == PlusEqual || oper == Equal)
    ensures r.out.Normal? ==> r.out.value == left && r.log == log
    ensures left != right ==> r == Raise(log, IncompatibleAssign)
  {
    if left != right then Raise(log, IncompatibleAssign)
    else if left == Some(STRING) && oper != PlusEqual && oper != Equal then Raise(log, StringOperator(oper))
    else Typed(Normal(left), log)
  }

  /** `visitNewExpr`: the resolved type of the instantiated class. */
  function NewType(env: Env, t: TypeRef, log: seq<Failure>): (r: Typed<Option<TypeRef>>)
    ensures r.out.Normal? <==> ResolveType(env.types, env.imports, t, log).out.Normal?
    ensures r.out.Normal? ==> r.out.value == Some(t) && r.log == log
  {
    var rt := ResolveType(env.types, env.imports, t, log);
    if rt.out.Threw? then Typed(Threw(rt.out.failure), rt.log) else Typed(Normal(Some(rt.out.value)), rt.log)
  }

  /** The type the pass infers for an expression, and the errors it reports on the way. */
  function TypeOf(env: Env, e: Expr, log: seq<Failure>): (r: Typed<Option<TypeRef>>)
    ensures log <= r.log
    decreases e, 1
  {
    match e
    case StringLiteral => Typed(Normal(Some(STRING)), log)
    case NumberLiteral => Typed(Normal(Some(NUMBER)), log)
    case BoolLiteral => Typed(Normal(Some(BOOLEAN)), log)
    case NullLiteral => Typed(Normal(Some(NULL)), log)
    case NameLiteral(value) => NameType(env, value, log)
    case Group(inner) => TypeOf(env, inner, log)
    case LogicalExpr(_, _, _) => Operands(env, e, log)
    case BinaryExpr(_, _, _) => Operands(env, e, log)
    case AssignExpr(_, _, _) => Operands(env, e, log)
    case UnaryExpr(inner) => TypeOf(env, inner, log)
    case CallExpr(callee, _) => TypeOf(env, callee, log)
    case ArrayExpr(values) => if |values| > 0 then TypeOf(env, values[0], log) else Typed(Normal(Some(ANY)), log)
    case ArrayAccessExpr(callee, _) => TypeOf(env, callee, log)
    case FieldExpr(callee, _) =>
      var c := TypeOf(env, callee, log);
      if c.out.Threw? then c else Typed(Normal(None), c.log)
    case NewExpr(t) => NewType(env, t, log)
  }

  /** A logical, binary or assignment expression: both operands left to right, then the operator's rule. */
  function Operands(env: Env, e: Expr, log: seq<Failure>): (r: Typed<Option<TypeRef>>)
    requires e.LogicalExpr? || e.BinaryExpr? || e.AssignExpr?
    ensures log <= r.log
    decreases e, 0
  {
    var left := TypeOf(env, e.left, log);
    if left.out.Threw? then left
    else
      var right := TypeOf(env, e.right, left.log);
      if right.out.Threw? then right
      else if e.LogicalExpr? then LogicalType(left.out.value, right.out.value, right.log)
      else if e.BinaryExpr? then BinaryType(e.oper, left.out.value, right.out.value, right.log)
      else AssignType(e.oper, left.out.value, right.out.value, right.log)
  }

  /* ---------------------------------------------------------------- declarations */

  /**
   * `visitVariableStmt` and `visitPropertyStmt` before binding: the resolved
   * annotation when there is one, else the initializer's type, else null. An
   * initializer incompatible with the annotation is reported once and the
   * annotation is kept.
   */
  function DeclarationType(env: Env, typ: Option<TypeRef>, init: Option<Expr>, log: seq<Failure>): (r: Typed<Option<TypeRef>>)
    ensures log <= r.log
    ensures r.out.Normal? && typ.Some? ==> r.out.value == typ
    ensures r.out.Normal? && typ.None? && init.Some? ==> r == TypeOf(env, init.value, log)
    ensures typ.None? && init.None? ==> r == Typed(Normal(None), log)
  {
    if typ.Some? && ResolveType(env.types, env.imports, typ.value, log).out.Threw? then
      Raise(log, UnknownType(TypeName(typ.value)))
    else if init.None? then Typed(Normal(typ), log)
    else
      var it := TypeOf(env, init.value, log);
      if it.out.Threw? then it
      else if typ.None? then it
      else
        var c := CheckCompatibleTypes(typ, it.out.value);
        if c.Threw? then Typed(Threw(c.failure), it.log)
        else if !c.value then Typed(Normal(typ), Report(it.log, IncompatibleInit(typ.value, it.out.value)))
        else Typed(Normal(typ), it.log)
  }

  /** The scope entries after binding the parameters from the first on, each to its own type. */
  function BoundParameters(types: seq<string>, imports: map<string, Option<Stmt>>, entries: map<string, ScopeEntry>,
                          params: seq<Parameter>, log: seq<Failure>): (r: Typed<map<string, ScopeEntry>>)
    ensures log <= r.log
    decreases |params|
  {
    if |params| == 0 then Typed(Normal(entries), log)
    else
      var p := params[0];
      if p.typ.None? then Typed(Threw(TypeError), log)
      else
        var t := ResolveType(types, imports, p.typ.value, log);
        if t.out.Threw? then Typed(Threw(t.out.failure), t.log)
        else BoundParameters(types, imports, entries[p.name := ScopeEntry(DeclaredParameter(p), p.typ)], params[1..], t.log)
  }

  /**
   * The signature part of `visitFunctionStmt`: a written return type is
   * resolved first, then the parameters are bound over `entries`.
   */
  function SignatureBinding(types: seq<string>, imports: map<string, Option<Stmt>>, entries: map<string, ScopeEntry>,
                            typ: Option<TypeRef>, params: seq<Parameter>, log: seq<Failure>): (r: Typed<map<string, ScopeEntry>>)
    ensures log <= r.log
  {
    if typ.Some? && ResolveType(types, imports, typ.value, log).out.Threw? then
      Typed(Threw(ResolveType(types, imports, typ.value, log).out.failure), ResolveType(types, imports, typ.value, log).log)
    else BoundParameters(types, imports, entries, params, log)
  }

  /* ---------------------------------------------------------------- imports */

  datatype Imported = Imported(imports: map<string, Option<Stmt>>, log: seq<Failure>)

  /** `processImports` from import `imps[0]` on: each name is bound to its symbol, or reported. */
  function ImportAll(units: map<string, Unit>, imps: seq<Import>, imports: map<string, Option<Stmt>>,
                     log: seq<Failure>): (r: Imported)
    ensures log <= r.log
    decreases |imps|
  {
    if |imps| == 0 then Imported(imports, log)
    else
      var first := ImportNames(if imps[0].source in units then Some(units[imps[0].source]) else None,
                               imps[0].names, imports, log);
      ImportAll(units, imps[1..], first.imports, first.log)
  }

  /** The names of one import, from `names[0]` on, looked up in the imported unit when it is registered. */
  function ImportNames(u: Option<Unit>, names: seq<string>, imports: map<string, Option<Stmt>>,
                       log: seq<Failure>): (r: Imported)
    ensures log <= r.log
    decreases |names|
  {
    if |names| == 0 then Imported(imports, log)
    else if u.None? then ImportNames(u, names[1..], imports, Report(log, UnableToFindSymbol(names[0])))
    else
      var stmt := FindSymbol(u.value, names[0]);
      var log1 := if stmt.None? then Report(log, UnableToFindSymbol(names[0])) else log;
      ImportNames(u, names[1..], imports[names[0] := stmt], log1)
  }
}
