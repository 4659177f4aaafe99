/**
 * The type inference pass of compiler/typeinf.ts: a stack of scopes that
 * blocks, namespaces, classes and functions push and pop, declarations bound in
 * the innermost scope, and visitors that infer, check and record types.
 *
 * Each expression visitor is proved to compute what `Typing.TypeOf` says; each
 * statement visitor is proved to keep the scope discipline: on normal completion
 * the stack holds the same scopes as before, and only a declaration changes the
 * innermost one.
 */
module Inference {
  import opened Wrappers
  import opened Ast
  import opened Typing

  /** The compilation context's error listener: the errors it received, in order. */
  class Listener {
    var errors: seq<Failure>

    constructor()
      ensures errors == []
    {
      errors := [];
    }

    method OnError(f: Failure)
      modifies this
      ensures errors == old(errors) + [f]
    {
      errors := errors + [f];
    }
  }

  /** A scope: declarations by name, where a new declaration replaces an old one of the same name. */
  class Scope {
    var entries: map<string, ScopeEntry>

    constructor()
      ensures entries == map[]
    {
      entries := map[];
    }

    method Insert(name: string, target: Target, typ: Option<TypeRef>)
      modifies this
      ensures entries == old(entries)[name := ScopeEntry(target, typ)]
      ensures Find(name) == Some(ScopeEntry(target, typ))
      ensures forall other :: other != name ==> Find(other) == old(Find(other))
    {
      entries := entries[name := ScopeEntry(target, typ)];
    }

    function Find(name: string): (r: Option<ScopeEntry>)
      reads this
      ensures r.Some? <==> name in entries
      ensures r.Some? ==> r.value == entries[name]
    {
      if name in entries then Some(entries[name]) else None
    }
  }

  /** The entries of the given scopes, outermost first. */
  ghost function EntriesOf(st: seq<Scope>): (r: Scopes)
    reads st
    ensures |r| == |st| && forall i :: 0 <= i < |st| ==> r[i] == st[i].entries
  {
    seq(|st|, i reads st requires 0 <= i < |st| => st[i].entries)
  }

  /** `b` is `a` with zero or more scopes pushed on top. */
  ghost predicate Extends(a: seq<Scope>, b: seq<Scope>)
  {
    |a| <= |b| && b[..|a|] == a
  }

  /** Whether the statement `node`, once it completes, binds `name` in the innermost scope. */
  predicate Declares(node: Stmt, name: string)
  {
    (node.VariableStmt? || node.PropertyStmt?) && node.name == name
  }

  /**
   * The innermost scope's entries after the visited statement `node` completed:
   * a variable or property declaration binds its name to itself and the type
   * written into it; every other statement leaves the scope as it was.
   */
  function Declared(entries: map<string, ScopeEntry>, node: Stmt): (r: map<string, ScopeEntry>)
    ensures forall name :: Declares(node, name) ==> name in r && r[name] == ScopeEntry(DeclaredStmt(node), node.typ)
    ensures forall name :: !Declares(node, name) ==> (name in r <==> name in entries)
    ensures forall name :: !Declares(node, name) && name in entries ==> r[name] == entries[name]
  {
    if node.VariableStmt? || node.PropertyStmt? then entries[node.name := ScopeEntry(DeclaredStmt(node), node.typ)]
    else entries
  }

  /** The innermost scope's entries after the visited statements `nodes` completed one after another. */
  function DeclaredAll(entries: map<string, ScopeEntry>, nodes: seq<Stmt>): map<string, ScopeEntry>
  {
    if |nodes| == 0 then entries else Declared(DeclaredAll(entries, nodes[..|nodes| - 1]), nodes[|nodes| - 1])
  }

  /** A name that none of the statements declares keeps the entry, or the absence of one, it had before them. */
  lemma {:induction false} UndeclaredNamesKeepTheirEntries(entries: map<string, ScopeEntry>, nodes: seq<Stmt>, name: string)
    requires forall i :: 0 <= i < |nodes| ==> !Declares(nodes[i], name)
    ensures name in DeclaredAll(entries, nodes) <==> name in entries
    ensures name in entries ==> DeclaredAll(entries, nodes)[name] == entries[name]
  {
    if |nodes| > 0 {
      UndeclaredNamesKeepTheirEntries(entries, nodes[..|nodes| - 1], name);
    }
  }

  /** A declared name is bound to its last declaration among the statements, whatever it was bound to before. */
  lemma {:induction false} LastDeclarationWins(entries: map<string, ScopeEntry>, nodes: seq<Stmt>, name: string, k: nat)
    requires k < |nodes| && Declares(nodes[k], name)
    requires forall j :: k < j < |nodes| ==> !Declares(nodes[j], name)
    ensures name in DeclaredAll(entries, nodes)
    ensures DeclaredAll(entries, nodes)[name] == ScopeEntry(DeclaredStmt(nodes[k]), nodes[k].typ)
  {
    if k < |nodes| - 1 {
      LastDeclarationWins(entries, nodes[..|nodes| - 1], name, k);
    }
  }

  /**
   * What the visit may have written into a statement: the type of a
   * declaration or function, the body of a function, the statements of a
   * block, namespace or class. Nothing else about the statement changes.
   */
  predicate Revisited(s: Stmt, node: Stmt)
  {
    match s
    case VariableStmt(_, _, _) => node.VariableStmt? && node == WithType(s, node.typ)
    case PropertyStmt(_, _, _) => node.PropertyStmt? && node == WithType(s, node.typ)
    case FunctionStmt(_, _, _, _, _) =>
      node.FunctionStmt? && node == FunctionStmt(s.name, s.isGeneric, node.typ, s.params, node.body) &&
      (node.body.Some? <==> s.body.Some?)
    case BlockStmt(_) => node.BlockStmt? && node == WithStmts(s, node.stmts) && |node.stmts| == |s.stmts|
    case NamespaceStmt(_, _) => node.NamespaceStmt? && node == WithStmts(s, node.stmts) && |node.stmts| == |s.stmts|
    case ClassStmt(_, _) => node.ClassStmt? && node == WithStmts(s, node.stmts) && |node.stmts| == |s.stmts|
    case _ => node == s
  }

  /** A variable or property declaration with its type field overwritten. */
  function WithType(s: Stmt, t: Option<TypeRef>): (r: Stmt)
    requires s.VariableStmt? || s.PropertyStmt?
    ensures r.VariableStmt? == s.VariableStmt? && r.PropertyStmt? == s.PropertyStmt?
    ensures r.name == s.name && r.typ == t && r.init == s.init
  {
    if s.VariableStmt? then VariableStmt(s.name, t, s.init) else PropertyStmt(s.name, t, s.init)
  }

  /** A block, namespace or class with its statements replaced. */
  function WithStmts(s: Stmt, stmts: seq<Stmt>): (r: Stmt)
    requires s.BlockStmt? || s.NamespaceStmt? || s.ClassStmt?
    ensures r.BlockStmt? == s.BlockStmt? && r.NamespaceStmt? == s.NamespaceStmt? && r.ClassStmt? == s.ClassStmt?
    ensures r.stmts == stmts && (!s.BlockStmt? ==> r.name == s.name)
  {
    match s
    case BlockStmt(_) => BlockStmt(stmts)
    case NamespaceStmt(name, _) => NamespaceStmt(name, stmts)
    case ClassStmt(name, _) => ClassStmt(name, stmts)
  }

  /** Leaving a statement as it was is a possible outcome of visiting it. */
  lemma RevisitedItself(s: Stmt)
    ensures Revisited(s, s)
  {
    match s
    case BlockStmt(_) =>
    case NamespaceStmt(_, _) =>
    case ClassStmt(_, _) =>
    case _ =>
  }

  class TypeInference {
    const listener: Listener
    /** The units of the compilation, by already resolved path. */
    const units: map<string, Unit>
    var stack: seq<Scope>
    var imports: map<string, Option<Stmt>>
    var unit: Option<Unit>
    var types: seq<string>

    /** The stack is never empty and holds each scope once. */
    ghost predicate Valid()
      reads this
    {
      |stack| >= 1 && forall i, j :: 0 <= i < j < |stack| ==> stack[i] != stack[j]
    }

    ghost function View(): Scopes
      reads this, stack
    {
      EntriesOf(stack)
    }

    ghost function Context(): Env
      reads this, stack
    {
      Env(View(), types, imports)
    }

    constructor(listener: Listener, units: map<string, Unit>)
      ensures Valid() && this.listener == listener && this.units == units
      ensures View() == [map[]] && imports == map[] && unit == None && types == []
    {
      this.listener := listener;
      this.units := units;
      var base := new Scope();
      stack := [base];
      imports := map[];
      unit := None;
      types := [];
    }

    /* ------------------------------------------------------------ the stack */

    method Push()
      requires Valid()
      modifies this`stack
      ensures Valid() && Extends(old(stack), stack) && |stack| == |old(stack)| + 1 && fresh(Top())
      ensures View() == old(View()) + [map[]]
    {
      var s := new Scope();
      stack := stack + [s];
      assert stack[..|stack| - 1] == old(stack);
    }

    /** Removes the innermost scope; with only the outermost one left, throws a stack underflow. */
    method Pop() returns (r: Completion<()>)
      requires Valid()
      modifies this`stack
      ensures Valid()
      ensures |old(stack)| == 1 ==> r == Threw(SemanticError(StackUnderflow)) && stack == old(stack)
      ensures |old(stack)| > 1 ==> r == Normal(()) && stack == old(stack)[..|old(stack)| - 1]
      ensures |old(stack)| > 1 ==> View() == old(View())[..|old(View())| - 1]
    {
      if |stack| <= 1 {
        return Threw(SemanticError(StackUnderflow));
      }
      stack := stack[..|stack| - 1];
      return Normal(());
    }

    function Top(): (s: Scope)
      requires |stack| >= 1
      reads this
      ensures s == stack[|stack| - 1]
    {
      stack[|stack| - 1]
    }

    /** `find`: the entry for `name` in the innermost scope that holds it, walking from the top down. */
    method Find(name: string) returns (r: Option<ScopeEntry>)
      ensures r == Lookup(View(), name)
    {
      if |stack| == 0 {
        return None;
      }
      var i := |stack| - 1;
      r := None;
      assert View()[..i + 1] == View();
      while i >= 0
        invariant -1 <= i < |stack| && r == None
        invariant Lookup(View(), name) == Lookup(View()[..i + 1], name)
        decreases i
      {
        r := stack[i].Find(name);
        assert View()[..i + 1][i] == stack[i].entries;
        if r != None {
          break;
        }
        assert View()[..i + 1][..i] == View()[..i];
        i := i - 1;
      }
    }

    /** `error`: reports a semantic error to the listener and hands it back. */
    method Error(m: Message) returns (f: Failure)
      modifies listener
      ensures f == SemanticError(m) && listener.errors == Report(old(listener.errors), m)
    {
      f := SemanticError(m);
      listener.OnError(f);
    }

    method ResolveType(t: TypeRef) returns (r: Completion<TypeRef>)
      modifies listener
      ensures Typed(r, listener.errors) == Typing.ResolveType(types, imports, t, old(listener.errors))
    {
      var name := TypeName(t);
      if name == "string" || name == "number" || name == "boolean" || name == "void" {
        return Normal(t);
      }
      if name in types {
        return Normal(t);
      }
      if name in imports && imports[name].Some? {
        return Normal(t);
      }
      var f := Error(UnknownType(name));
      return Threw(f);
    }

    /* ------------------------------------------------------------ expressions */

    method VisitExpr(e: Expr) returns (r: Completion<Option<TypeRef>>)
      modifies listener
      ensures Typed(r, listener.errors) == TypeOf(Context(), e, old(listener.errors))
      decreases e, 2
    {
      match e
      case StringLiteral => r := Normal(Some(STRING));
      case NumberLiteral => r := Normal(Some(NUMBER));
      case BoolLiteral => r := Normal(Some(BOOLEAN));
      case NullLiteral => r := Normal(Some(NULL));
      case NameLiteral(_) => r := VisitNameLiteral(e);
      case Group(inner) => r := VisitExpr(inner);
      case LogicalExpr(_, _, _) => r := VisitLogicalExpr(e);
      case BinaryExpr(_, _, _) => r := VisitBinaryExpr(e);
      case AssignExpr(_, _, _) => r := VisitAssignExpr(e);
      case UnaryExpr(inner) => r := VisitExpr(inner);
      case CallExpr(callee, _) => r := VisitExpr(callee);
      case ArrayExpr(values) =>
        if |values| > 0 {
          r := VisitExpr(values[0]);
        } else {
          r := Normal(Some(ANY));
        }
      case ArrayAccessExpr(callee, _) => r := VisitExpr(callee);
      case FieldExpr(callee, _) =>
        r := VisitExpr(callee);
        if r.Normal? {
          r := Normal(None);
        }
      case NewExpr(t) =>
        var resolved := ResolveType(t);
        if resolved.Threw? {
          return Threw(resolved.failure);
        }
        r := Normal(Some(resolved.value));
    }

    method VisitNameLiteral(e: Expr) returns (r: Completion<Option<TypeRef>>)
      requires e.NameLiteral?
      modifies listener
      ensures Typed(r, listener.errors) == NameType(Context(), e.value, old(listener.errors))
    {
      ghost var env := Context();
      var entry := Find(e.value);
      assert entry == Lookup(env.scopes, e.value);
      if entry == None {
        var f := Error(CannotFindName(e.value));
        assert Context() == env;
        return Normal(None);
      }
      return Normal(entry.value.typ);
    }

    method VisitLogicalExpr(e: Expr) returns (r: Completion<Option<TypeRef>>)
      requires e.LogicalExpr?
      modifies listener
      ensures Typed(r, listener.errors) == Operands(Context(), e, old(listener.errors))
      decreases e, 1
    {
      var left := VisitExpr(e.left);
      if left.Threw? {
        return left;
      }
      var right := VisitExpr(e.right);
      if right.Threw? {
        return right;
      }
      r := LogicalRule(left.value, right.value);
    }

    /** The check of `visitLogicalExpr` once both operands have their types. */
    method LogicalRule(left: Option<TypeRef>, right: Option<TypeRef>) returns (r: Completion<Option<TypeRef>>)
      modifies listener
      ensures Typed(r, listener.errors) == LogicalType(left, right, old(listener.errors))
    {
      var compatible := CheckCompatibleTypes(left, right);
      if compatible.Threw? {
        return Threw(compatible.failure);
      }
      if !compatible.value {
        var f := Error(IncompatibleLogical);
        return Threw(f);
      }
      return Normal(Some(BOOLEAN));
    }

    method VisitBinaryExpr(e: Expr) returns (r: Completion<Option<TypeRef>>)
      requires e.BinaryExpr?
      modifies listener
      ensures Typed(r, listener.errors) == Operands(Context(), e, old(listener.errors))
      decreases e, 1
    {
      var left := VisitExpr(e.left);
      if left.Threw? {
        return left;
      }
      var right := VisitExpr(e.right);
      if right.Threw? {
        return right;
      }
      r := BinaryRule(e.oper, left.value, right.value);
    }

    /** The checks of `visitBinaryExpr` once both operands have their types. */
    method BinaryRule(oper: Operator, left: Option<TypeRef>, right: Option<TypeRef>) returns (r: Completion<Option<TypeRef>>)
      modifies listener
      ensures Typed(r, listener.errors) == BinaryType(oper, left, right, old(listener.errors))
    {
      var compatible := CheckCompatibleTypes(left, right);
      if compatible.Threw? {
        return Threw(compatible.failure);
      }
      if !compatible.value {
        var f := Error(IncompatibleBinary(left, right));
      }
      if left == Some(STRING) && oper != Plus {
        var f := Error(StringOperator(oper));
      }
      return Normal(left);
    }

    method VisitAssignExpr(e: Expr) returns (r: Completion<Option<TypeRef>>)
      requires e.AssignExpr?
      modifies listener
      ensures Typed(r, listener.errors) == Operands(Context(), e, old(listener.errors))
      decreases e, 1
    {
      var left := VisitExpr(e.left);
      if left.Threw? {
        return left;
      }
      var right := VisitExpr(e.right);
      if right.Threw? {
        return right;
      }
      r := AssignRule(e.oper, left.value, right.value);
    }

    /** The checks of `visitAssignExpr` once both operands have their types. */
    method AssignRule(oper: Operator, left: Option<TypeRef>, right: Option<TypeRef>) returns (r: Completion<Option<TypeRef>>)
      modifies listener
      ensures Typed(r, listener.errors) == AssignType(oper, left, right, old(listener.errors))
    {
      if left != right {
        var f := Error(IncompatibleAssign);
        return Threw(f);
      }
      if left == Some(STRING) && oper != PlusEqual && oper != Equal {
        var f := Error(StringOperator(oper));
        return Threw(f);
      }
      return Normal(left);
    }

    /* ------------------------------------------------------------ statements */

    method VisitStmt(s: Stmt) returns (r: Completion<Option<TypeRef>>, node: Stmt)
      requires Valid()
      modifies this`stack, listener, Top()
      ensures Valid() && Extends(old(stack), stack) && old(listener.errors) <= listener.errors
      ensures r.Normal? ==> stack == old(stack)
      ensures Revisited(s, node)
      ensures stack[|old(stack)| - 1].entries == if r.Normal? then Declared(old(Top().entries), node) else old(Top().entries)
      ensures s.ExprStmt? ==> Typed(r, listener.errors) == TypeOf(old(Context()), s.expr, old(listener.errors))
      ensures s.ReturnStmt? && s.result.Some? ==>
                Typed(r, listener.errors) == TypeOf(old(Context()), s.result.value, old(listener.errors))
      ensures s.ReturnStmt? && s.result.None? ==> r == Threw(TypeError) && listener.errors == old(listener.errors)
      ensures s.ImportStmt? ==> r == Normal(None) && listener.errors == old(listener.errors)
      ensures s.VariableStmt? || s.PropertyStmt? ==>
                Typed(r, listener.errors) == DeclarationType(old(Context()), s.typ, s.init, old(listener.errors)) &&
                (r.Normal? ==> node.typ == r.value) && (r.Threw? ==> node == s)
      ensures s.BlockStmt? || s.NamespaceStmt? || s.ClassStmt? ==>
                (r.Normal? ==> r.value == None) && forall i :: 0 <= i < |s.stmts| ==> Revisited(s.stmts[i], node.stmts[i])
      ensures s.FunctionStmt? && s.isGeneric ==> r == Normal(None) && node == s && listener.errors == old(listener.errors)
      ensures s.FunctionStmt? && !s.isGeneric ==> node.typ == (if s.typ.None? then Some(VOID) else s.typ)
      ensures s.FunctionStmt? && !s.isGeneric ==>
                var sig := SignatureBinding(types, imports, map[], s.typ, s.params, old(listener.errors));
                (sig.out.Threw? ==> r == Threw(sig.out.failure) && listener.errors == sig.log) &&
                (r.Normal? ==> sig.out.Normal? && r.value == node.typ)
      decreases s, 2
    {
      match s
      case BlockStmt(_) => r, node := VisitScopedStmt(s);
      case NamespaceStmt(_, _) => r, node := VisitScopedStmt(s);
      case ClassStmt(_, _) => r, node := VisitScopedStmt(s);
      case FunctionStmt(_, _, _, _, _) => r, node := VisitFunctionStmt(s);
      case VariableStmt(_, _, _) => r, node := VisitDeclaration(s);
      case PropertyStmt(_, _, _) => r, node := VisitDeclaration(s);
      case ExprStmt(_) => r := VisitSimpleStmt(s); node := s;
      case ReturnStmt(_) => r := VisitSimpleStmt(s); node := s;
      case ImportStmt(_) => r := VisitSimpleStmt(s); node := s;
    }

    /**
     * `visitExpressionStmt`, `visitReturnStmt` and `visitImportStmt`: the
     * statement itself is left as it is and no scope changes.
     */
    method VisitSimpleStmt(s: Stmt) returns (r: Completion<Option<TypeRef>>)
      requires s.ExprStmt? || s.ReturnStmt? || s.ImportStmt?
      modifies listener
      ensures s.ExprStmt? ==> Typed(r, listener.errors) == TypeOf(old(Context()), s.expr, old(listener.errors))
      ensures s.ReturnStmt? && s.result.Some? ==>
                Typed(r, listener.errors) == TypeOf(old(Context()), s.result.value, old(listener.errors))
      ensures s.ReturnStmt? && s.result.None? ==> r == Threw(TypeError) && listener.errors == old(listener.errors)
      ensures s.ImportStmt? ==> r == Normal(None) && listener.errors == old(listener.errors)
    {
      match s
      case ExprStmt(e) => r := VisitExpr(e);
      case ReturnStmt(result) =>
        if result.None? {
          r := Threw(TypeError);
        } else {
          r := VisitExpr(result.value);
        }
      case ImportStmt(_) => r := Normal(None);
    }

    /**
     * `visitBlockStmt`, `visitNamespaceStmt` and `visitClassStmt`, which do the
     * same: push a scope, visit the statements in order, pop the scope. A thrown
     * error leaves the pushed scope on the stack.
     */
    method VisitScopedStmt(s: Stmt) returns (r: Completion<Option<TypeRef>>, node: Stmt)
      requires Valid() && (s.BlockStmt? || s.NamespaceStmt? || s.ClassStmt?)
      modifies this`stack, listener
      ensures Valid() && Extends(old(stack), stack) && old(listener.errors) <= listener.errors
      ensures r.Normal? ==> r.value == None && stack == old(stack) && View() == old(View())
      ensures r.Threw? ==> |stack| > |old(stack)|
      ensures Revisited(s, node) && forall i :: 0 <= i < |s.stmts| ==> Revisited(s.stmts[i], node.stmts[i])
      decreases s, 1
    {
      Push();
      var done, updated, visited := VisitSequence(s.stmts);
      node := WithStmts(s, updated);
      assert node.stmts == updated && Revisited(s, node);
      if done.Threw? {
        return done, node;
      }
      var popped := Pop();
      assert popped.Normal?;
      r := Normal(None);
    }

    /**
     * Visits statements in order in the current scopes, stopping at the first
     * that throws; `visited` counts the statements that completed. The
     * innermost scope ends up binding what those statements declared.
     */
    method VisitSequence(stmts: seq<Stmt>) returns (r: Completion<Option<TypeRef>>, updated: seq<Stmt>, visited: nat)
      requires Valid()
      modifies this`stack, listener, Top()
      ensures Valid() && Extends(old(stack), stack) && old(listener.errors) <= listener.errors
      ensures visited <= |stmts| && (r.Normal? <==> visited == |stmts|)
      ensures r.Normal? ==> r.value == None && stack == old(stack)
      ensures |updated| == |stmts| && forall i :: 0 <= i < |stmts| ==> Revisited(stmts[i], updated[i])
      ensures stack[|old(stack)| - 1].entries == DeclaredAll(old(Top().entries), updated[..visited])
      ensures forall i :: visited < i < |stmts| ==> updated[i] == stmts[i]
      decreases stmts, 4
    {
      updated := stmts;
      visited := 0;
      forall i | 0 <= i < |stmts|
        ensures Revisited(stmts[i], updated[i])
      {
        RevisitedItself(stmts[i]);
      }
      while visited < |stmts|
        invariant visited <= |stmts| && |updated| == |stmts|
        invariant Valid() && stack == old(stack) && old(listener.errors) <= listener.errors
        invariant Top().entries == DeclaredAll(old(Top().entries), updated[..visited])
        invariant forall i :: 0 <= i < |stmts| ==> Revisited(stmts[i], updated[i])
        invariant forall i :: visited <= i < |stmts| ==> updated[i] == stmts[i]
      {
        ghost var before := updated;
        var done, child := VisitChild(stmts[visited]);
        updated := updated[visited := child];
        assert updated[..visited] == before[..visited];
        if done.Threw? {
          return Threw(done.failure), updated, visited;
        }
        assert updated[..visited + 1][..visited] == updated[..visited];
        visited := visited + 1;
      }
      r := Normal(None);
    }

    /** `VisitStmt` for one statement of a sequence, stating only what the sequence relies on. */
    method VisitChild(s: Stmt) returns (r: Completion<Option<TypeRef>>, node: Stmt)
      requires Valid()
      modifies this`stack, listener, Top()
      ensures Valid() && Extends(old(stack), stack) && old(listener.errors) <= listener.errors
      ensures r.Normal? ==> stack == old(stack)
      ensures Revisited(s, node)
      ensures stack[|old(stack)| - 1].entries == if r.Normal? then Declared(old(Top().entries), node) else old(Top().entries)
      decreases s, 3
    {
      r, node := VisitStmt(s);
    }

    /**
     * `visitFunctionStmt`: a generic function is skipped. Otherwise a missing
     * return type is recorded as void, the parameters are bound in a scope of
     * the function's own and the body is visited in it.
     */
    method VisitFunctionStmt(s: Stmt) returns (r: Completion<Option<TypeRef>>, node: Stmt)
      requires Valid() && s.FunctionStmt?
      modifies this`stack, listener
      ensures Valid() && Extends(old(stack), stack) && old(listener.errors) <= listener.errors
      ensures s.isGeneric ==> r == Normal(None) && node == s && stack == old(stack) && listener.errors == old(listener.errors)
      ensures Revisited(s, node)
      ensures !s.isGeneric ==> node.typ == (if s.typ.None? then Some(VOID) else s.typ)
      ensures !s.isGeneric ==>
                var sig := SignatureBinding(types, imports, map[], s.typ, s.params, old(listener.errors));
                (sig.out.Threw? ==> r == Threw(sig.out.failure) && listener.errors == sig.log) &&
                (r.Normal? ==> sig.out.Normal? && r.value == node.typ)
      ensures r.Normal? ==> stack == old(stack) && View() == old(View())
      decreases s, 1
    {
      if s.isGeneric {
        return Normal(None), s;
      }
      Push();
      r, node := VisitFunctionScope(s);
      if r.Threw? {
        return;
      }
      var popped := Pop();
      assert popped.Normal?;
    }

    /**
     * What `visitFunctionStmt` does inside the function's own scope, before
     * popping it: the signature is resolved and bound (`SignatureBinding`), then
     * the body is visited, and the scope holds the parameters plus whatever the
     * body declared.
     */
    method VisitFunctionScope(s: Stmt) returns (r: Completion<Option<TypeRef>>, node: Stmt)
      requires Valid() && s.FunctionStmt? && !s.isGeneric
      modifies this`stack, listener, Top()
      ensures Valid() && Extends(old(stack), stack) && old(listener.errors) <= listener.errors
      ensures node.FunctionStmt? && node == FunctionStmt(s.name, s.isGeneric, if s.typ.None? then Some(VOID) else s.typ, s.params, node.body)
      ensures node.body.Some? <==> s.body.Some?
      ensures r.Normal? ==> stack == old(stack) && r.value == node.typ
      ensures var sig := SignatureBinding(types, imports, old(Top().entries), s.typ, s.params, old(listener.errors));
              && (sig.out.Threw? ==> r == Threw(sig.out.failure) && listener.errors == sig.log)
              && (sig.out.Normal? && s.body.None? ==>
                    r == Normal(node.typ) && listener.errors == sig.log && Top().entries == sig.out.value)
              && (r.Normal? ==>
                    && sig.out.Normal? && sig.log <= listener.errors
                    && Top().entries == if node.body.Some? then Declared(sig.out.value, node.body.value) else sig.out.value)
      decreases s, 0
    {
      node := FunctionStmt(s.name, s.isGeneric, if s.typ.None? then Some(VOID) else s.typ, s.params, s.body);
      if s.typ.Some? {
        var resolved := ResolveType(s.typ.value);
        if resolved.Threw? {
          return Threw(resolved.failure), node;
        }
      }
      var bound := BindParameters(s.params);
      if bound.Threw? {
        return Threw(bound.failure), node;
      }
      if s.body.Some? {
        var done, body := VisitStmt(s.body.value);
        node := FunctionStmt(s.name, s.isGeneric, node.typ, s.params, Some(body));
        if done.Threw? {
          return Threw(done.failure), node;
        }
      }
      return Normal(node.typ), node;
    }

    /** The parameter loop of `visitFunctionStmt`: resolve each type, then bind the name in the innermost scope. */
    method BindParameters(params: seq<Parameter>) returns (r: Completion<()>)
      requires Valid()
      modifies listener, Top()
      ensures r.Normal? <==> BoundParameters(types, imports, old(Top().entries), params, old(listener.errors)).out.Normal?
      ensures r.Threw? ==> r == Threw(BoundParameters(types, imports, old(Top().entries), params, old(listener.errors)).out.failure)
      ensures listener.errors == BoundParameters(types, imports, old(Top().entries), params, old(listener.errors)).log
      ensures r.Normal? ==> Top().entries == BoundParameters(types, imports, old(Top().entries), params, old(listener.errors)).out.value
    {
      ghost var whole := BoundParameters(types, imports, Top().entries, params, listener.errors);
      var i := 0;
      while i < |params|
        invariant 0 <= i <= |params|
        invariant whole == BoundParameters(types, imports, Top().entries, params[i..], listener.errors)
      {
        var p := params[i];
        if p.typ.None? {
          return Threw(TypeError);
        }
        var resolved := ResolveType(p.typ.value);
        if resolved.Threw? {
          return Threw(resolved.failure);
        }
        Top().Insert(p.name, DeclaredParameter(p), p.typ);
        assert params[i..][1..] == params[i + 1..];
        i := i + 1;
      }
      r := Normal(());
    }

    /**
     * `visitVariableStmt` and `visitPropertyStmt`, which do the same: infer the
     * declared type, write it into the declaration and bind the name in the
     * innermost scope.
     */
    method VisitDeclaration(s: Stmt) returns (r: Completion<Option<TypeRef>>, node: Stmt)
      requires Valid() && (s.VariableStmt? || s.PropertyStmt?)
      modifies listener, Top()
      ensures Typed(r, listener.errors) == DeclarationType(old(Context()), s.typ, s.init, old(listener.errors))
      ensures r.Normal? ==> node == WithType(s, r.value) && Top().entries == old(Top().entries)[s.name := ScopeEntry(DeclaredStmt(node), r.value)]
      ensures r.Threw? ==> node == s && Top().entries == old(Top().entries)
    {
      r := InferDeclarationType(s.typ, s.init);
      if r.Threw? {
        return r, s;
      }
      node := WithType(s, r.value);
      Top().Insert(s.name, DeclaredStmt(node), r.value);
    }

    /** The type a variable or property declaration records: its resolved annotation, else its initializer's type. */
    method InferDeclarationType(typ: Option<TypeRef>, init: Option<Expr>) returns (r: Completion<Option<TypeRef>>)
      modifies listener
      ensures Typed(r, listener.errors) == DeclarationType(Context(), typ, init, old(listener.errors))
    {
      var result: Option<TypeRef> := None;
      if typ.Some? {
        var resolved := ResolveType(typ.value);
        if resolved.Threw? {
          return Threw(resolved.failure);
        }
        result := Some(resolved.value);
      }
      if init.Some? {
        var itype := VisitExpr(init.value);
        if itype.Threw? {
          return itype;
        }
        if result.Some? {
          var compatible := CheckCompatibleTypes(result, itype.value);
          if compatible.Threw? {
            return Threw(compatible.failure);
          }
          if !compatible.value {
            var f := Error(IncompatibleInit(result.value, itype.value));
          }
        }
        if result.None? {
          result := itype.value;
        }
      }
      r := Normal(result);
    }

    /* ------------------------------------------------------------ units */

    /**
     * `processImports`: every imported name is bound to the symbol of that name
     * in the imported unit, or to null; a name without a symbol, or from a unit
     * that is not registered, is reported.
     */
    method ProcessImports()
      requires unit.Some?
      modifies this`imports, listener
      ensures Imported(imports, listener.errors) == ImportAll(units, unit.value.imports, old(imports), old(listener.errors))
    {
      var imps := unit.value.imports;
      var i := 0;
      while i < |imps|
        invariant 0 <= i <= |imps|
        invariant ImportAll(units, imps, old(imports), old(listener.errors)) == ImportAll(units, imps[i..], imports, listener.errors)
      {
        var source := if imps[i].source in units then Some(units[imps[i].source]) else None;
        var names := imps[i].names;
        assert imps[i..][1..] == imps[i + 1..];
        ghost var after := ImportNames(source, names, imports, listener.errors);
        var j := 0;
        while j < |names|
          invariant 0 <= j <= |names|
          invariant after == ImportNames(source, names[j..], imports, listener.errors)
        {
          if source.Some? {
            var stmt := FindSymbol(source.value, names[j]);
            if stmt.None? {
              var f := Error(UnableToFindSymbol(names[j]));
            }
            imports := imports[names[j] := stmt];
          } else {
            var f := Error(UnableToFindSymbol(names[j]));
          }
          assert names[j..][1..] == names[j + 1..];
          j := j + 1;
        }
        i := i + 1;
      }
    }

    /**
     * `visitUnit`: records the unit, processes its imports and visits its
     * statements; an error thrown by a statement stops the walk and is reported
     * to the listener, and the visit itself returns null.
     */
    method VisitUnit(u: Unit) returns (r: Option<TypeRef>, node: Unit)
      requires Valid()
      modifies this`stack, this`unit, this`imports, listener, Top()
      ensures Valid() && r == None && unit == Some(u) && Extends(old(stack), stack)
      ensures imports == ImportAll(units, u.imports, old(imports), old(listener.errors)).imports
      ensures ImportAll(units, u.imports, old(imports), old(listener.errors)).log <= listener.errors
      ensures node == Unit(u.imports, node.stmts, u.variables, u.functions, u.types) && |node.stmts| == |u.stmts|
      ensures forall i :: 0 <= i < |u.stmts| ==> Revisited(u.stmts[i], node.stmts[i])
      ensures exists k :: 0 <= k <= |u.stmts| &&
                stack[|old(stack)| - 1].entries == DeclaredAll(old(Top().entries), node.stmts[..k]) &&
                (k == |u.stmts| ==> stack == old(stack)) &&
                (forall i :: k < i < |u.stmts| ==> node.stmts[i] == u.stmts[i])
    {
      unit := Some(u);
      ProcessImports();
      var done, updated, visited := VisitSequence(u.stmts);
      if done.Threw? {
        listener.OnError(done.failure);
      }
      node := Unit(u.imports, updated, u.variables, u.functions, u.types);
      assert node.stmts[..visited] == updated[..visited];
      return None, node;
    }
  }
}
