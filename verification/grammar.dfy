/**
 * The recursive-descent grammar of compiler/Parser.ts as pure functions over
 * the token stream. Each production reads from position `p` of the stream and
 * yields a `Parsed` value: what the production returns, the position after the
 * tokens it consumed, and the listener's log of syntax errors afterwards.
 *
 * Every production also takes the errors reported before it and yields the
 * errors reported up to its end.
 *
 * A production either returns a node (`Ok`), returns null (`Null`), or dies
 * with a TypeError (`Crash`) because it dereferences a null token or name;
 * `Crash` propagates through every caller, as an exception would.
 */
module Grammar {
  import opened Wrappers
  import opened Tokens
  import opened Tree

  datatype Outcome<+T> = Ok(value: T) | Null | Crash

  datatype Parsed<+T> = Parsed(out: Outcome<T>, pos: nat, log: seq<Diagnostic>)

  /** The nullable value a completed production hands to its caller. */
  function OrNull<T>(o: Outcome<T>): (r: Option<T>)
    requires !o.Crash?
    ensures r.Some? <==> o.Ok?
    ensures r.Some? ==> r.value == o.value
  {
    if o.Ok? then Some(o.value) else None
  }

  /** A failed production's outcome, passed on unchanged to a caller of another result type. */
  function Fail<T, U>(o: Outcome<T>): (r: Outcome<U>)
    requires !o.Ok?
    ensures r.Crash? <==> o.Crash?
  {
    if o.Null? then Null else Crash
  }

  /** How a production ends when a required token check did not succeed. */
  function Stop<U>(o: Outcome<bool>): (r: Outcome<U>)
    ensures r.Crash? <==> o.Crash?
    ensures !r.Ok?
  {
    if o.Crash? then Crash else Null
  }

  function FromOption<T>(o: Option<T>): (r: Outcome<T>)
    ensures !r.Crash?
    ensures o.Some? <==> r.Ok?
    ensures o.Some? ==> r.value == o.value
  {
    if o.Some? then Ok(o.value) else Null
  }

  /** The position after discarding `n` tokens without looking at them. */
  function Skip(s: seq<Token>, p: nat, n: nat): (q: nat)
    requires p <= |s|
    ensures p <= q <= |s|
    ensures q == p + n || q == |s|
  {
    Min(p + n, |s|)
  }

  /** A production that ends by discarding one token without looking at it, then returns `node`. */
  function Unchecked<T>(s: seq<Token>, q: nat, node: T, e: seq<Diagnostic>): (r: Parsed<T>)
    requires q <= |s|
    ensures r.out == Ok(node) && r.log == e
    ensures q <= r.pos <= |s| && (r.pos == q + 1 || r.pos == |s|)
  {
    Parsed(Ok(node), Skip(s, q, 1), e)
  }

  /**
   * The required-token check of the parser: true when the next token has one of
   * the kinds; otherwise reports that those kinds were expected. Reading the kind
   * of the missing token past the end of the input is a TypeError.
   */
  function Expect(s: seq<Token>, p: nat, kinds: seq<TokenKind>, e: seq<Diagnostic>): (r: Parsed<bool>)
    ensures r.pos == p
    ensures r.out == Ok(true) <==> Kind(s, p).Some? && Kind(s, p).value in kinds
    ensures r.out.Crash? <==> |kinds| > 0 && p >= |s|
    ensures r.log == if r.out == Ok(false) then e + [Expected(kinds)] else e
  {
    if |kinds| == 0 then Parsed(Ok(false), p, e + [Expected(kinds)])
    else if p >= |s| then Parsed(Crash, p, e)
    else if s[p].kind in kinds then Parsed(Ok(true), p, e)
    else Parsed(Ok(false), p, e + [Expected(kinds)])
  }

  /**
   * The node `node` once the `kind` token that ends it is checked and discarded;
   * null, with the error reported, when another token is there.
   */
  function Terminated<T>(s: seq<Token>, q: nat, kind: TokenKind, node: T, e: seq<Diagnostic>): (r: Parsed<T>)
    requires q <= |s|
    ensures q <= r.pos <= |s|
    ensures r.out.Ok? <==> Kind(s, q) == Some(kind)
    ensures r.out.Ok? ==> r.out.value == node && r.pos == q + 1 && r.log == e
  {
    var x := Expect(s, q, [kind], e);
    if x.out != Ok(true) then Parsed(Stop(x.out), q, x.log)
    else Parsed(Ok(node), q + 1, x.log)
  }

  /** The `.NAME` parts that follow a name's first part, and the position after them. */
  function NameTail(s: seq<Token>, q: nat): (r: (seq<string>, nat))
    requires q <= |s|
    ensures q <= r.1 <= |s|
    decreases |s| - q
  {
    if Kind(s, q) == Some(TokDot) && Kind(s, q + 1) == Some(TokName) then
      var t := NameTail(s, q + 2);
      ([s[q + 1].value] + t.0, t.1)
    else
      ([], q)
  }

  /** Name: NAME ( "." NAME )*, the tail only when `qualified`. */
  function ParseName(s: seq<Token>, p: nat, qualified: bool, e: seq<Diagnostic>): (r: Parsed<Name>)
    requires p <= |s|
    ensures p <= r.pos <= |s|
    ensures r.out.Ok? <==> Kind(s, p) == Some(TokName)
    ensures r.out.Ok? ==> r.pos > p
  {
    var x := Expect(s, p, [TokName], e);
    if x.out != Ok(true) then Parsed(Stop(x.out), p, x.log)
    else
      var tail := if qualified then NameTail(s, p + 1) else ([], p + 1);
      Parsed(Ok(Name([s[p].value] + tail.0, s[p].loc)), tail.1, x.log)
  }

  /** Import: "import" Name ( "." "*" | "as" Name )? ";" */
  function ParseImport(s: seq<Token>, p: nat, e: seq<Diagnostic>): (r: Parsed<Stmt>)
    requires p <= |s|
    ensures p <= r.pos <= |s|
    ensures r.out.Ok? ==> r.pos > p
  {
    if Kind(s, p) != Some(TokImport) then Parsed(Null, p, e)
    else
      var n := ParseName(s, p + 1, true, e);
      if !n.out.Ok? then Parsed(Fail(n.out), n.pos, n.log)
      else ImportRest(s, n.pos, n.out.value, n.log)
  }

  /** What follows the imported name: ( "." "*" | "as" Name )? ";" */
  function ImportRest(s: seq<Token>, q: nat, name: Name, e: seq<Diagnostic>): (r: Parsed<Stmt>)
    requires q <= |s|
    ensures q <= r.pos <= |s|
  {
    if Kind(s, q) == Some(TokDot) && Kind(s, q + 1) == Some(TokMul) then
      ImportEnd(s, q + 2, TypeImport(name, true, None), e)
    else if Kind(s, q) == Some(TokAs) then ImportAlias(s, q, name, e)
    else ImportEnd(s, q, TypeImport(name, false, None), e)
  }

  /** An import with an alias: "as", the alias name, then the ";". */
  function ImportAlias(s: seq<Token>, q: nat, name: Name, e: seq<Diagnostic>): (r: Parsed<Stmt>)
    requires q < |s| && s[q].kind == TokAs
    ensures q < r.pos <= |s|
  {
    var a := ParseName(s, q + 1, true, e);
    if !a.out.Ok? then Parsed(Fail(a.out), a.pos, a.log)
    else ImportEnd(s, a.pos, TypeImport(name, false, Some(a.out.value)), a.log)
  }

  /** The closing ";" of an import, which is not reported when missing. */
  function ImportEnd(s: seq<Token>, q: nat, imp: Stmt, e: seq<Diagnostic>): (r: Parsed<Stmt>)
    requires q <= |s|
    ensures q <= r.pos <= |s|
  {
    if Kind(s, q) != Some(TokSemicolon) then Parsed(Null, q, e) else Parsed(Ok(imp), q + 1, e)
  }

  /** Annotations: ( "@" Name )*, appended to `acc`; a missing name gives a null annotation. */
  function AnnotationsFrom(s: seq<Token>, p: nat, acc: seq<Annotation>, e: seq<Diagnostic>): (r: Parsed<seq<Annotation>>)
    requires p <= |s|
    ensures p <= r.pos <= |s| && !r.out.Null?
    decreases |s| - p
  {
    if Kind(s, p) != Some(TokAt) then Parsed(Ok(acc), p, e)
    else
      var n := ParseName(s, p + 1, true, e);
      if n.out.Crash? then Parsed(Crash, n.pos, n.log)
      else AnnotationsFrom(s, n.pos, acc + [Annotation(OrNull(n.out))], n.log)
  }

  function ParseAnnotations(s: seq<Token>, p: nat, e: seq<Diagnostic>): (r: Parsed<seq<Annotation>>)
    requires p <= |s|
    ensures p <= r.pos <= |s| && !r.out.Null?
  {
    AnnotationsFrom(s, p, [], e)
  }

  /** AccessMode: "public" | "protected" | "private", protected when absent. */
  function ParseAccessMode(s: seq<Token>, p: nat): (r: (AccessMode, nat))
    requires p <= |s|
    ensures p <= r.1 <= |s|
  {
    if Kind(s, p) == Some(TokPublic) then (Public, p + 1)
    else if Kind(s, p) == Some(TokProtected) then (Protected, p + 1)
    else if Kind(s, p) == Some(TokPrivate) then (Private, p + 1)
    else (Protected, p)
  }

  /** The ": Name" type annotation of a variable, property or function. */
  function ParseTypeAnnotation(s: seq<Token>, p: nat, e: seq<Diagnostic>): (r: Parsed<Option<TypeReference>>)
    requires p < |s| && s[p].kind == TokColon
    ensures p < r.pos <= |s| && !r.out.Null?
  {
    var n := ParseName(s, p + 1, true, e);
    if n.out.Crash? then Parsed(Crash, n.pos, n.log)
    else Parsed(Ok(Some(TypeReference(OrNull(n.out)))), n.pos, n.log)
  }

  /** A type annotation when a ":" is next; none otherwise. */
  function OptionalType(s: seq<Token>, q: nat, e: seq<Diagnostic>): (r: Parsed<Option<TypeReference>>)
    requires q <= |s|
    ensures q <= r.pos <= |s| && !r.out.Null?
    ensures r.out.Ok? && r.out.value.Some? <==> Kind(s, q) == Some(TokColon) && !r.out.Crash?
  {
    if Kind(s, q) == Some(TokColon) then ParseTypeAnnotation(s, q, e) else Parsed(Ok(None), q, e)
  }

  /* ---------------------------------------------------------------- expressions */

  /** The binary-operator tiers, loosest first. */
  datatype Level =
    | AssignmentLevel | DisjunctionLevel | ConjunctionLevel | EqualityLevel
    | ComparisonLevel | AdditiveLevel | MultiplicativeLevel

  /** How tightly each tier binds; the named infix operators bind at 5. */
  function LevelBinding(l: Level): nat
  {
    match l
    case AssignmentLevel => 0
    case DisjunctionLevel => 1
    case ConjunctionLevel => 2
    case EqualityLevel => 3
    case ComparisonLevel => 4
    case AdditiveLevel => 6
    case MultiplicativeLevel => 7
  }

  /**
   * How tightly a binary operator binds: the tier whose production accepts it,
   * 5 for the named infix operators, and 8 for a token that is no binary operator.
   */
  function OpBinding(op: TokenKind): (b: nat)
    ensures b <= 8
  {
    match op
    case TokAssign | TokPlusAssign | TokMinusAssign | TokMulAssign | TokDivAssign | TokBandAssign
       | TokBorAssign | TokXorAssign | TokShlAssign | TokShrAssign | TokModAssign => 0
    case TokOr => 1
    case TokAnd => 2
    case TokEq | TokNe => 3
    case TokGt | TokGe | TokLt | TokLe => 4
    case TokIn | TokNin | TokIs | TokNis => 5
    case TokMinus | TokPlus => 6
    case TokMul | TokDiv | TokMod => 7
    case _ => 8
  }

  /** How tightly an expression's top node binds: its operator's, or 8 for a non-binary node. */
  function Binding(e: Expr): nat
  {
    if e.Binary? then OpBinding(e.op) else 8
  }

  predicate IsOperator(l: Level, k: Option<TokenKind>)
  {
    k.Some? && OpBinding(k.value) == LevelBinding(l)
  }

  /** The second component of the termination measure of the expression productions. */
  function TierRank(l: Level): nat
  {
    match l
    case AssignmentLevel => 19
    case DisjunctionLevel => 17
    case ConjunctionLevel => 15
    case EqualityLevel => 13
    case ComparisonLevel => 11
    case AdditiveLevel => 8
    case MultiplicativeLevel => 6
  }

  /** A binary node, or null when any of its parts is null. */
  function CreateBinary(left: Option<Expr>, op: Option<TokenKind>, right: Option<Expr>): (r: Option<Expr>)
    ensures r.Some? <==> left.Some? && op.Some? && right.Some?
    ensures r.Some? ==> r.value.Binary? && r.value.right == right
  {
    if op.None? || left.None? || right.None? then None else Some(Binary(left.value, op.value, right))
  }

  /** Expression: Assignment. */
  function ParseExpression(s: seq<Token>, p: nat, e: seq<Diagnostic>): (r: Parsed<Expr>)
    requires p <= |s|
    ensures p <= r.pos <= |s|
    ensures r.out.Ok? ==> r.pos > p
    decreases |s| - p, 20
  {
    Tier(AssignmentLevel, s, p, e)
  }

  /** The operand of tier `l`: the next tighter tier, the named infix tier, or a prefix unary expression. */
  function Operand(l: Level, s: seq<Token>, p: nat, e: seq<Diagnostic>): (r: Parsed<Expr>)
    requires p <= |s|
    ensures p <= r.pos <= |s|
    ensures r.out.Ok? ==> r.pos > p && Binding(r.out.value) > LevelBinding(l)
    decreases |s| - p, TierRank(l) - 1
  {
    match l
    case AssignmentLevel => Tier(DisjunctionLevel, s, p, e)
    case DisjunctionLevel => Tier(ConjunctionLevel, s, p, e)
    case ConjunctionLevel => Tier(EqualityLevel, s, p, e)
    case EqualityLevel => Tier(ComparisonLevel, s, p, e)
    case ComparisonLevel => ParseNamedInfix(s, p, e)
    case AdditiveLevel => Tier(MultiplicativeLevel, s, p, e)
    case MultiplicativeLevel => ParsePrefixUnary(s, p, e)
  }

  /**
   * Tier: Operand ( Operator Tier )?, one function for the assignment, disjunction,
   * conjunction, equality, comparison, additive and multiplicative productions,
   * which differ only in their operand and operator set. The right side recurses
   * into the same tier, so chains of one tier nest to the right.
   */
  function Tier(l: Level, s: seq<Token>, p: nat, e: seq<Diagnostic>): (r: Parsed<Expr>)
    requires p <= |s|
    ensures p <= r.pos <= |s|
    ensures r.out.Ok? ==> r.pos > p && Binding(r.out.value) >= LevelBinding(l)
    ensures r.out.Ok? && Binding(r.out.value) == LevelBinding(l) ==>
              r.out.value.right.Some? && Binding(r.out.value.left) > LevelBinding(l)
              && Binding(r.out.value.right.value) >= LevelBinding(l)
    decreases |s| - p, TierRank(l)
  {
    var left := Operand(l, s, p, e);
    if !left.out.Ok? || !IsOperator(l, Kind(s, left.pos)) then left
    else TierRight(l, s, left.pos, left.out.value, left.log)
  }

  /** The operator at `q` and the right side of a binary node of tier `l` whose left side is parsed. */
  function TierRight(l: Level, s: seq<Token>, q: nat, left: Expr, e: seq<Diagnostic>): (r: Parsed<Expr>)
    requires q < |s| && OpBinding(s[q].kind) == LevelBinding(l)
    ensures q < r.pos <= |s|
    ensures r.out.Ok? ==> r.out.value.Binary? && r.out.value.left == left && r.out.value.op == s[q].kind
    ensures r.out.Ok? ==> r.out.value.right.Some? && Binding(r.out.value.right.value) >= LevelBinding(l)
    decreases |s| - q, TierRank(l)
  {
    var right := Tier(l, s, q + 1, e);
    if right.out.Crash? then right
    else Parsed(FromOption(CreateBinary(Some(left), Some(s[q].kind), OrNull(right.out))), right.pos, right.log)
  }

  /** The named infix operator at `q`, if any, and the position after its one or two tokens. */
  function NamedOperator(s: seq<Token>, q: nat): (r: (Option<TokenKind>, nat))
    requires q <= |s|
    ensures r.0.Some? ==> OpBinding(r.0.value) == 5 && q < r.1 <= |s|
    ensures r.0.None? ==> r.1 == q
  {
    if Kind(s, q) == Some(TokNot) && Kind(s, q + 1) == Some(TokIn) then (Some(TokNin), q + 2)
    else if Kind(s, q) == Some(TokNot) && Kind(s, q + 1) == Some(TokIs) then (Some(TokNis), q + 2)
    else if Kind(s, q) == Some(TokIn) || Kind(s, q) == Some(TokIs) then (Kind(s, q), q + 1)
    else (None, q)
  }

  /**
   * NamedInfix: Additive ( ("in" | "not" "in") Additive | ("is" | "not" "is") Name )?
   * with "not in" and "not is" folded into one operator each.
   */
  function ParseNamedInfix(s: seq<Token>, p: nat, e: seq<Diagnostic>): (r: Parsed<Expr>)
    requires p <= |s|
    ensures p <= r.pos <= |s|
    ensures r.out.Ok? ==> r.pos > p && Binding(r.out.value) >= 5
    ensures r.out.Ok? && Binding(r.out.value) == 5 ==>
              Binding(r.out.value.left) > 5
              && (r.out.value.right.Some? ==> Binding(r.out.value.right.value) > 5)
    decreases |s| - p, 9
  {
    var left := Tier(AdditiveLevel, s, p, e);
    if !left.out.Ok? then left
    else
      var (op, q) := NamedOperator(s, left.pos);
      if op.None? then left
      else NamedInfixRight(s, q, left.out.value, op.value, left.log)
  }

  /** The right side of a named infix operator: an additive expression for "in", a name for "is". */
  function NamedInfixRight(s: seq<Token>, q: nat, left: Expr, op: TokenKind, e: seq<Diagnostic>): (r: Parsed<Expr>)
    requires q <= |s| && OpBinding(op) == 5
    ensures q <= r.pos <= |s|
    ensures r.out.Ok? ==> r.out.value.Binary? && r.out.value.left == left && r.out.value.op == op
    ensures r.out.Ok? && r.out.value.right.Some? ==> Binding(r.out.value.right.value) > 5
    decreases |s| - q, 9
  {
    if op == TokIn || op == TokNin then
      var right := Tier(AdditiveLevel, s, q, e);
      if right.out.Crash? then right
      else Parsed(Ok(Binary(left, op, OrNull(right.out))), right.pos, right.log)
    else
      var n := ParseName(s, q, true, e);
      if n.out.Crash? then Parsed(Crash, n.pos, n.log)
      else Parsed(Ok(Binary(left, op, Some(NameLiteral(OrNull(n.out))))), n.pos, n.log)
  }

  /** PrefixUnary: ("++" | "--")? PostfixUnary; the operator is kept even when its operand is null. */
  function ParsePrefixUnary(s: seq<Token>, p: nat, e: seq<Diagnostic>): (r: Parsed<Expr>)
    requires p <= |s|
    ensures p <= r.pos <= |s|
    ensures r.out.Ok? ==> r.pos > p && !r.out.value.Binary?
    decreases |s| - p, 4
  {
    var k := Kind(s, p);
    if k == Some(TokInc) || k == Some(TokDec) then
      var x := ParsePostfixUnary(s, p + 1, e);
      if x.out.Crash? then x
      else Parsed(Ok(Unary(OrNull(x.out), k.value, PrefixOp, None)), x.pos, x.log)
    else
      ParsePostfixUnary(s, p, e)
  }

  /** PostfixUnary: Atomic ( "++" | "--" | ArrayAccess | ArgumentList )? */
  function ParsePostfixUnary(s: seq<Token>, p: nat, e: seq<Diagnostic>): (r: Parsed<Expr>)
    requires p <= |s|
    ensures p <= r.pos <= |s|
    ensures r.out.Ok? ==> r.pos > p && !r.out.value.Binary?
    decreases |s| - p, 3
  {
    var a := ParseAtomic(s, p, e);
    if !a.out.Ok? then a
    else
      var q := a.pos;
      var k := Kind(s, q);
      if k == Some(TokInc) || k == Some(TokDec) then
        Parsed(Ok(Unary(Some(a.out.value), k.value, PostfixOp, None)), q + 1, a.log)
      else if k == Some(TokLeftBracket) then
        var x := ParseArrayAccess(s, q, a.log);
        if x.out.Crash? then Parsed(Crash, x.pos, x.log)
        else Parsed(Ok(Unary(Some(a.out.value), TokLeftBracket, PostfixOp, OrNull(x.out))), x.pos, x.log)
      else if k == Some(TokLeftPar) then
        var x := ParseArgumentList(s, q, a.log);
        if x.out.Crash? then Parsed(Crash, x.pos, x.log)
        else Parsed(Ok(Unary(Some(a.out.value), TokLeftPar, PostfixOp, OrNull(x.out))), x.pos, x.log)
      else
        a
  }

  /** ArgumentList: "(" ")" | "(" Argument ( "," Argument )* ")" */
  function ParseArgumentList(s: seq<Token>, p: nat, e: seq<Diagnostic>): (r: Parsed<Expr>)
    requires p < |s| && s[p].kind == TokLeftPar
    ensures p < r.pos <= |s|
    decreases |s| - p, 2
  {
    if Kind(s, p + 1) == Some(TokRightPar) then Parsed(Ok(ArgumentList([])), p + 2, e)
    else ArgumentsBody(s, p + 1, e)
  }

  /** What follows the "(" of a non-empty argument list: Argument ( "," Argument )* ")". */
  function ArgumentsBody(s: seq<Token>, q: nat, e: seq<Diagnostic>): (r: Parsed<Expr>)
    requires q <= |s|
    ensures q <= r.pos <= |s|
    decreases |s| - q, 24
  {
    var a := ParseArgument(s, q, e);
    if a.out.Crash? then Parsed(Crash, a.pos, a.log)
    else
      var more := ArgumentsAfter(s, a.pos, a.out.value, a.log);
      if more.out.Crash? then Parsed(Crash, more.pos, more.log)
      else Terminated(s, more.pos, TokRightPar, ArgumentList(more.out.value), more.log)
  }

  /** The arguments once the first is parsed: more of them only when a "," follows. */
  function ArgumentsAfter(s: seq<Token>, q: nat, first: Argument, e: seq<Diagnostic>): (r: Parsed<seq<Argument>>)
    requires q <= |s|
    ensures q <= r.pos <= |s| && !r.out.Null?
    decreases |s| - q, 23
  {
    if Kind(s, q) == Some(TokComa) then ArgumentsLoop(s, q + 1, [first], e)
    else Parsed(Ok([first]), q, e)
  }

  /** The arguments after a ",": Argument ( "," Argument )*, appended to `items`. */
  function ArgumentsLoop(s: seq<Token>, q: nat, items: seq<Argument>, e: seq<Diagnostic>): (r: Parsed<seq<Argument>>)
    requires q <= |s|
    ensures q <= r.pos <= |s| && !r.out.Null?
    decreases |s| - q, 23
  {
    var a := ParseArgument(s, q, e);
    if a.out.Crash? then Parsed(Crash, a.pos, a.log)
    else if Kind(s, a.pos) == Some(TokComa) then ArgumentsLoop(s, a.pos + 1, items + [a.out.value], a.log)
    else Parsed(Ok(items + [a.out.value]), a.pos, a.log)
  }

  /**
   * Argument: ( NAME "=" )? Expression. After the name two tokens are discarded,
   * the "=" and the token after it.
   */
  function ParseArgument(s: seq<Token>, p: nat, e: seq<Diagnostic>): (r: Parsed<Argument>)
    requires p <= |s|
    ensures p <= r.pos <= |s| && !r.out.Null?
    decreases |s| - p, 22
  {
    if Kind(s, p) == Some(TokName) && Kind(s, p + 1) == Some(TokAssign) then NamedArgument(s, p, e)
    else PositionalArgument(s, p, e)
  }

  /** An argument without a name: only the value. */
  function PositionalArgument(s: seq<Token>, p: nat, e: seq<Diagnostic>): (r: Parsed<Argument>)
    requires p <= |s|
    ensures p <= r.pos <= |s| && !r.out.Null?
    ensures r.out.Ok? ==> r.out.value.name.None?
    decreases |s| - p, 21
  {
    var x := ParseExpression(s, p, e);
    if x.out.Crash? then Parsed(Crash, x.pos, x.log)
    else Parsed(Ok(Argument(None, OrNull(x.out))), x.pos, x.log)
  }

  /** A named argument: the name, the two tokens after it skipped unchecked, then the value. */
  function NamedArgument(s: seq<Token>, p: nat, e: seq<Diagnostic>): (r: Parsed<Argument>)
    requires p < |s| && s[p].kind == TokName
    ensures p < r.pos <= |s| && !r.out.Null?
    decreases |s| - p, 21
  {
    var n := ParseName(s, p, true, e);
    var x := ParseExpression(s, Skip(s, n.pos, 2), n.log);
    if x.out.Crash? then Parsed(Crash, x.pos, x.log)
    else Parsed(Ok(Argument(OrNull(n.out), OrNull(x.out))), x.pos, x.log)
  }

  /** ArrayAccess: "[" Expression ( "," Expression )* "]" */
  function ParseArrayAccess(s: seq<Token>, p: nat, e: seq<Diagnostic>): (r: Parsed<Expr>)
    requires p < |s| && s[p].kind == TokLeftBracket
    ensures p < r.pos <= |s|
    decreases |s| - p, 2
  {
    var x := ParseExpression(s, p + 1, e);
    if x.out.Crash? then Parsed(Crash, x.pos, x.log)
    else
      var more := IndexesAfter(s, x.pos, OrNull(x.out), x.log);
      if more.out.Crash? then Parsed(Crash, more.pos, more.log)
      else Terminated(s, more.pos, TokRightBracket, ExpressionList(more.out.value), more.log)
  }

  /** The index list of an array access once its first index is parsed. */
  function IndexesAfter(s: seq<Token>, q: nat, first: Option<Expr>, e: seq<Diagnostic>): (r: Parsed<seq<Option<Expr>>>)
    requires q <= |s|
    ensures q <= r.pos <= |s| && !r.out.Null?
    decreases |s| - q, 22
  {
    if Kind(s, q) == Some(TokComa) then ArrayAccessLoop(s, q + 1, [first], e)
    else Parsed(Ok([first]), q, e)
  }

  /** The index expressions after a ",", appended to `items`. */
  function ArrayAccessLoop(s: seq<Token>, q: nat, items: seq<Option<Expr>>, e: seq<Diagnostic>): (r: Parsed<seq<Option<Expr>>>)
    requires q <= |s|
    ensures q <= r.pos <= |s| && !r.out.Null?
    decreases |s| - q, 21
  {
    var x := ParseExpression(s, q, e);
    if x.out.Crash? then Parsed(Crash, x.pos, x.log)
    else if Kind(s, x.pos) == Some(TokComa) then ArrayAccessLoop(s, x.pos + 1, items + [OrNull(x.out)], x.log)
    else Parsed(Ok(items + [OrNull(x.out)]), x.pos, x.log)
  }

  /** Atomic: "(" Expression ")" | Name | LiteralConstant; the closing token is discarded unchecked. */
  function ParseAtomic(s: seq<Token>, p: nat, e: seq<Diagnostic>): (r: Parsed<Expr>)
    requires p <= |s|
    ensures p <= r.pos <= |s|
    ensures r.out.Ok? ==> r.pos > p && !r.out.value.Binary?
    decreases |s| - p, 1
  {
    var k := Kind(s, p);
    if k == Some(TokLeftPar) then
      var x := ParseExpression(s, p + 1, e);
      if x.out.Crash? then Parsed(Crash, x.pos, x.log)
      else Parsed(Ok(AtomicExpr(OrNull(x.out))), Skip(s, x.pos, 1), x.log)
    else if k == Some(TokName) then
      var n := ParseName(s, p, true, e);
      Parsed(Ok(NameLiteral(Some(n.out.value))), n.pos, n.log)
    else
      ParseLiteralConstant(s, p, e)
  }

  const IntegerKinds: set<TokenKind> := {TokHexLiteral, TokBinLiteral, TokOctLiteral, TokDecLiteral}

  const LiteralKinds: set<TokenKind> := IntegerKinds + {TokNull, TokTrue, TokFalse, TokFpLiteral, TokStringLiteral}

  /** LiteralConstant: null, a boolean, an integer, a float or a string literal; null for any other token. */
  function ParseLiteralConstant(s: seq<Token>, p: nat, e: seq<Diagnostic>): (r: Parsed<Expr>)
    requires p <= |s|
    ensures r.log == e && !r.out.Crash? && !(r.out.Ok? && r.out.value.Binary?)
    ensures r.out.Ok? <==> Kind(s, p).Some? && Kind(s, p).value in LiteralKinds
    ensures r.pos == if r.out.Ok? then p + 1 else p
  {
    var k := Kind(s, p);
    if k == Some(TokNull) then Parsed(Ok(NullLiteral), p + 1, e)
    else if k == Some(TokTrue) || k == Some(TokFalse) then ParseBooleanLiteral(s, p, e)
    else if k.Some? && k.value in IntegerKinds then ParseIntegerLiteral(s, p, e)
    else if k == Some(TokFpLiteral) then Parsed(Ok(FloatLiteral(s[p].value)), p + 1, e)
    else if k == Some(TokStringLiteral) then Parsed(Ok(StringLiteral(s[p].value)), p + 1, e)
    else Parsed(Null, p, e)
  }

  /** The digits of a literal after its two-character radix prefix, empty when there are fewer. */
  function DropPrefix(v: string): (d: string)
    ensures |v| >= 2 ==> v == v[..2] + d
    ensures |v| < 2 ==> d == ""
  {
    if |v| >= 2 then v[2..] else ""
  }

  /** IntegerLiteral: the digits and radix of a hexadecimal, binary, octal or decimal literal. */
  function ParseIntegerLiteral(s: seq<Token>, p: nat, e: seq<Diagnostic>): (r: Parsed<Expr>)
    requires p < |s| && s[p].kind in IntegerKinds
    ensures r.pos == p + 1 && r.log == e && r.out.Ok? && r.out.value.IntegerLiteral?
  {
    var v := s[p].value;
    match s[p].kind
    case TokHexLiteral => Parsed(Ok(IntegerLiteral(DropPrefix(v), 16)), p + 1, e)
    case TokBinLiteral => Parsed(Ok(IntegerLiteral(DropPrefix(v), 2)), p + 1, e)
    case TokOctLiteral => Parsed(Ok(IntegerLiteral(v, 8)), p + 1, e)
    case _ => Parsed(Ok(IntegerLiteral(v, 10)), p + 1, e)
  }

  /** BooleanLiteral: "true" or "false". */
  function ParseBooleanLiteral(s: seq<Token>, p: nat, e: seq<Diagnostic>): (r: Parsed<Expr>)
    requires p < |s| && (s[p].kind == TokTrue || s[p].kind == TokFalse)
    ensures r.pos == p + 1 && r.log == e && r.out.Ok? && r.out.value.BooleanLiteral?
  {
    Parsed(Ok(BooleanLiteral(s[p].kind == TokTrue)), p + 1, e)
  }

  /* ---------------------------------------------------------------- statements */

  /** Statement: Return | IfThenElse | VariableOrConstant | ForEach | Expression. */
  function ParseStatement(s: seq<Token>, p: nat, e: seq<Diagnostic>): (r: Parsed<Stmt>)
    requires p <= |s|
    ensures p <= r.pos <= |s|
    decreases |s| - p, 31
  {
    var k := Kind(s, p);
    if k == Some(TokReturn) then ParseReturnStmt(s, p, e)
    else if k == Some(TokIf) then ParseIfThenElse(s, p, e)
    else if k == Some(TokVar) || k == Some(TokConst) then ParseVariableOrConstant(s, p, None, false, e)
    else if k == Some(TokFor) then ParseForEach(s, p, e)
    else
      var x := ParseExpression(s, p, e);
      if !x.out.Ok? then Parsed(Fail(x.out), x.pos, x.log)
      else Parsed(Ok(ExpressionStmt(x.out.value)), x.pos, x.log)
  }

  /** Return: "return" Expression, the expression possibly null. */
  function ParseReturnStmt(s: seq<Token>, p: nat, e: seq<Diagnostic>): (r: Parsed<Stmt>)
    requires p < |s| && s[p].kind == TokReturn
    ensures p < r.pos <= |s|
    decreases |s| - p, 30
  {
    var x := ParseExpression(s, p + 1, e);
    if x.out.Crash? then Parsed(Crash, x.pos, x.log)
    else Parsed(Ok(ReturnStmt(OrNull(x.out))), x.pos, x.log)
  }

  /** IfThenElse: ("if" | "elif") Expression "then" Block ( IfThenElse-from-"elif" | "else" Block )? */
  function ParseIfThenElse(s: seq<Token>, p: nat, e: seq<Diagnostic>): (r: Parsed<Stmt>)
    requires p < |s| && (s[p].kind == TokIf || s[p].kind == TokElif)
    ensures p < r.pos <= |s|
    decreases |s| - p, 30
  {
    var c := ParseExpression(s, p + 1, e);
    if c.out.Crash? then Parsed(Crash, c.pos, c.log)
    else ThenPart(s, c.pos, OrNull(c.out), c.log)
  }

  /** A conditional after its condition: "then", the block, and the else part. */
  function ThenPart(s: seq<Token>, q: nat, condition: Option<Expr>, e: seq<Diagnostic>): (r: Parsed<Stmt>)
    requires q <= |s|
    ensures q <= r.pos <= |s|
    ensures r.out.Ok? ==> r.out.value.IfThenElse? && r.out.value.condition == condition
    decreases |s| - q, 30
  {
    var x := Expect(s, q, [TokThen], e);
    if x.out != Ok(true) then Parsed(Stop(x.out), q, x.log)
    else
      var th := ParseBlock(s, q + 1, x.log);
      if !th.out.Ok? then Parsed(Fail(th.out), th.pos, th.log)
      else ElsePart(s, th.pos, condition, th.out.value, th.log)
  }

  /** What follows the "then" block: an "elif" chain, an "else" block, or nothing. */
  function ElsePart(s: seq<Token>, q: nat, condition: Option<Expr>, thenSide: Stmt, e: seq<Diagnostic>): (r: Parsed<Stmt>)
    requires q <= |s|
    ensures q <= r.pos <= |s|
    ensures r.out.Ok? ==> r.out.value.IfThenElse? && r.out.value.condition == condition && r.out.value.thenSide == thenSide
    decreases |s| - q, 31
  {
    if Kind(s, q) == Some(TokElif) then
      var el := ParseIfThenElse(s, q, e);
      if !el.out.Ok? then Parsed(Fail(el.out), el.pos, el.log)
      else Parsed(Ok(IfThenElse(condition, thenSide, Some(el.out.value))), el.pos, el.log)
    else if Kind(s, q) == Some(TokElse) then
      var el := ParseBlock(s, q + 1, e);
      if !el.out.Ok? then Parsed(Fail(el.out), el.pos, el.log)
      else Parsed(Ok(IfThenElse(condition, thenSide, Some(el.out.value))), el.pos, el.log)
    else
      Parsed(Ok(IfThenElse(condition, thenSide, None)), q, e)
  }

  /** ForEach: "for" Name "in" Expression Block; neither the expression nor the block is checked for null. */
  function ParseForEach(s: seq<Token>, p: nat, e: seq<Diagnostic>): (r: Parsed<Stmt>)
    requires p < |s| && s[p].kind == TokFor
    ensures p < r.pos <= |s|
    decreases |s| - p, 30
  {
    var n := ParseName(s, p + 1, true, e);
    if n.out.Crash? then Parsed(Crash, n.pos, n.log)
    else ForEachRest(s, n.pos, StorageDeclaration(None, OrNull(n.out), None, false, None), n.log)
  }

  /** A for-each loop after its variable: "in", the iterated expression and the body. */
  function ForEachRest(s: seq<Token>, q: nat, storage: Stmt, e: seq<Diagnostic>): (r: Parsed<Stmt>)
    requires q <= |s|
    ensures q <= r.pos <= |s|
    ensures r.out.Ok? ==> r.out.value.ForEach? && r.out.value.storage == storage
    decreases |s| - q, 30
  {
    var x := Expect(s, q, [TokIn], e);
    if x.out != Ok(true) then Parsed(Stop(x.out), q, x.log)
    else
      var it := ParseExpression(s, q + 1, x.log);
      if it.out.Crash? then Parsed(Crash, it.pos, it.log)
      else ForEachBody(s, it.pos, storage, OrNull(it.out), it.log)
  }

  /** A for-each statement after its iterated expression: the block. */
  function ForEachBody(s: seq<Token>, q: nat, storage: Stmt, iterated: Option<Expr>, e: seq<Diagnostic>): (r: Parsed<Stmt>)
    requires q <= |s|
    ensures q <= r.pos <= |s|
    ensures r.out.Ok? ==> r.out.value.ForEach? && r.out.value.storage == storage
    decreases |s| - q, 34
  {
    var b := ParseBlock(s, q, e);
    if b.out.Crash? then Parsed(Crash, b.pos, b.log)
    else Parsed(Ok(ForEach(storage, iterated, OrNull(b.out))), b.pos, b.log)
  }

  /**
   * Block: "{" ( Statement ";" )* "}" | Statement ";" Statement. The unbraced form
   * parses its first statement and the ";" but holds only what the second
   * statement parse yields.
   */
  function ParseBlock(s: seq<Token>, p: nat, e: seq<Diagnostic>): (r: Parsed<Stmt>)
    requires p <= |s|
    ensures p <= r.pos <= |s|
    ensures r.out.Ok? ==> r.pos > p
    decreases |s| - p, 33
  {
    if Kind(s, p) == Some(TokLeftBrace) then
      var items := BlockItems(s, p + 1, [], e);
      if !items.out.Ok? then Parsed(Fail(items.out), items.pos, items.log)
      else Parsed(Ok(BlockStmt(items.out.value)), items.pos, items.log)
    else
      var st := SeparatedStatement(s, p, e);
      if !st.out.Ok? then Parsed(Fail(st.out), st.pos, st.log)
      else
        var st2 := ParseStatement(s, st.pos, st.log);
        if st2.out.Crash? then Parsed(Crash, st2.pos, st2.log)
        else Parsed(Ok(BlockStmt([OrNull(st2.out)])), st2.pos, st2.log)
  }

  /** The statements of a braced block from `q` on, appended to `acc`, and the closing "}". */
  function BlockItems(s: seq<Token>, q: nat, acc: seq<Option<Stmt>>, e: seq<Diagnostic>): (r: Parsed<seq<Option<Stmt>>>)
    requires q <= |s|
    ensures q <= r.pos <= |s|
    ensures r.out.Ok? ==> r.pos > q
    decreases |s| - q, 33
  {
    var k := Kind(s, q);
    if k == Some(TokRightBrace) || k == Some(TokEof) then Terminated(s, q, TokRightBrace, acc, e)
    else
      var st := SeparatedStatement(s, q, e);
      if !st.out.Ok? then Parsed(Fail(st.out), st.pos, st.log)
      else BlockItems(s, st.pos, acc + [Some(st.out.value)], st.log)
  }

  /** A statement followed by the ";" that separates it from the next one. */
  function SeparatedStatement(s: seq<Token>, q: nat, e: seq<Diagnostic>): (r: Parsed<Stmt>)
    requires q <= |s|
    ensures q <= r.pos <= |s|
    ensures r.out.Ok? ==> q < r.pos && Kind(s, r.pos - 1) == Some(TokSemicolon)
    decreases |s| - q, 32
  {
    var st := ParseStatement(s, q, e);
    if !st.out.Ok? then Parsed(Fail(st.out), st.pos, st.log)
    else Terminated(s, st.pos, TokSemicolon, st.out.value, st.log)
  }

  /**
   * VariableOrConstant: ("var" | "const") NAME ( ":" Name )? ( "=" Expression )? ";"?
   * A constant needs an initializer; the ";" is required only when `semicolon` is set.
   * A missing name is dereferenced for its location.
   */
  function ParseVariableOrConstant(s: seq<Token>, p: nat, annots: Option<seq<Annotation>>, semicolon: bool,
                                   e: seq<Diagnostic>): (r: Parsed<Stmt>)
    requires p < |s| && (s[p].kind == TokVar || s[p].kind == TokConst)
    ensures p < r.pos <= |s|
    decreases |s| - p, 30
  {
    var n := ParseName(s, p + 1, false, e);
    if !n.out.Ok? then Parsed(Crash, n.pos, n.log)
    else TypedStorage(s, n.pos, annots, n.out.value, Kind(s, p) == Some(TokConst), semicolon, n.log)
  }

  /** A declaration after its name: the optional type, the initializer and the end. */
  function TypedStorage(s: seq<Token>, q: nat, annots: Option<seq<Annotation>>, name: Name, isConst: bool,
                        semicolon: bool, e: seq<Diagnostic>): (r: Parsed<Stmt>)
    requires q <= |s|
    ensures q <= r.pos <= |s|
    ensures r.out.Ok? ==> r.out.value.StorageDeclaration? && r.out.value.varName == Some(name)
  {
    var t := OptionalType(s, q, e);
    if t.out.Crash? then Parsed(Crash, t.pos, t.log)
    else StorageInit(s, t.pos, annots, name, t.out.value, isConst, semicolon, t.log)
  }

  /** The initializer of a declaration, required for a constant, and the optional ";". */
  function StorageInit(s: seq<Token>, q: nat, annots: Option<seq<Annotation>>, name: Name, typ: Option<TypeReference>,
                       isConst: bool, semicolon: bool, e: seq<Diagnostic>): (r: Parsed<Stmt>)
    requires q <= |s|
    ensures q <= r.pos <= |s|
    ensures isConst && Kind(s, q) != Some(TokAssign) ==> !r.out.Ok?
    ensures r.out.Ok? ==> r.out.value.StorageDeclaration? && r.out.value.varName == Some(name)
  {
    if Kind(s, q) == Some(TokAssign) then
      var x := ParseExpression(s, q + 1, e);
      if x.out.Crash? then Parsed(Crash, x.pos, x.log)
      else StorageEnd(s, x.pos, semicolon, StorageDeclaration(annots, Some(name), typ, isConst, OrNull(x.out)), x.log)
    else if isConst then
      var x := Expect(s, q, [TokAssign], e);
      Parsed(Stop(x.out), q, x.log)
    else
      StorageEnd(s, q, semicolon, StorageDeclaration(annots, Some(name), typ, false, None), e)
  }

  /** The optional ";" that ends a variable declaration. */
  function StorageEnd(s: seq<Token>, q: nat, semicolon: bool, decl: Stmt, e: seq<Diagnostic>): (r: Parsed<Stmt>)
    requires q <= |s|
    ensures q <= r.pos <= |s|
    ensures r.out.Ok? ==> r.out.value == decl
  {
    if !semicolon then Parsed(Ok(decl), q, e)
    else Terminated(s, q, TokSemicolon, decl, e)
  }

  /** TypeDeclaration: "class" NAME "{" Member* "}"; the token ending the member list is discarded unchecked. */
  function ParseTypeDeclaration(s: seq<Token>, p: nat, annots: Option<seq<Annotation>>, e: seq<Diagnostic>): (r: Parsed<Stmt>)
    requires p < |s| && s[p].kind == TokClass
    ensures p < r.pos <= |s|
    decreases |s| - p, 32
  {
    TypeNamed(s, p + 1, annots, e)
  }

  /** A type declaration after "class": the name it requires, then the body. */
  function TypeNamed(s: seq<Token>, q: nat, annots: Option<seq<Annotation>>, e: seq<Diagnostic>): (r: Parsed<Stmt>)
    requires q <= |s|
    ensures q <= r.pos <= |s|
    decreases |s| - q, 33
  {
    var x := Expect(s, q, [TokName], e);
    if x.out != Ok(true) then Parsed(Stop(x.out), q, x.log)
    else
      var n := ParseName(s, q, true, x.log);
      TypeBody(s, n.pos, annots, n.out.value, n.log)
  }

  /**
   * A class after its name: "{", the members, and one more token that is
   * discarded without being checked.
   */
  function TypeBody(s: seq<Token>, q: nat, annots: Option<seq<Annotation>>, name: Name, e: seq<Diagnostic>): (r: Parsed<Stmt>)
    requires q <= |s|
    ensures q <= r.pos <= |s|
    ensures r.out.Null? <==> Kind(s, q) != Some(TokLeftBrace)
    ensures r.out.Ok? ==> r.out.value.TypeDeclaration? && r.out.value.annots == annots && r.out.value.typeName == name
    decreases |s| - q, 32
  {
    if Kind(s, q) != Some(TokLeftBrace) then Parsed(Null, q, e)
    else
      var m := MembersFrom(s, q + 1, [], e);
      if m.out.Crash? then Parsed(Crash, m.pos, m.log)
      else Unchecked(s, m.pos, TypeDeclaration(annots, name, m.out.value), m.log)
  }

  /**
   * The members of a type from `q` on, appended to `acc`: Annotations AccessMode Name
   * then a property when ":" or "=" follows; otherwise an error ends the list.
   */
  function MembersFrom(s: seq<Token>, q: nat, acc: seq<Option<Property>>, e: seq<Diagnostic>): (r: Parsed<seq<Option<Property>>>)
    requires q <= |s|
    ensures q <= r.pos <= |s| && !r.out.Null?
    decreases |s| - q, 31
  {
    if Kind(s, q) == Some(TokRightBrace) then Parsed(Ok(acc), q, e)
    else
      var a := ParseAnnotations(s, q, e);
      if a.out.Crash? then Parsed(Crash, a.pos, a.log)
      else
        var m := ParseAccessMode(s, a.pos);
        var n := ParseName(s, m.1, true, a.log);
        if n.out.Crash? then Parsed(Crash, n.pos, n.log)
        else if Kind(s, n.pos) == Some(TokColon) || Kind(s, n.pos) == Some(TokAssign) then
          var pr := ParseProperty(s, n.pos, a.out.value, m.0, OrNull(n.out), n.log);
          if pr.out.Crash? then Parsed(Crash, pr.pos, pr.log)
          else MembersFrom(s, pr.pos, acc + [OrNull(pr.out)], pr.log)
        else
          Parsed(Ok(acc), n.pos, n.log + [Expected([TokVar, TokConst])])
  }

  /** Property: ( ":" Name )? ( "=" Expression )? ";" after a member's name, which must not be null. */
  function ParseProperty(s: seq<Token>, p: nat, annots: seq<Annotation>, access: AccessMode, name: Option<Name>,
                         e: seq<Diagnostic>): (r: Parsed<Property>)
    requires p <= |s|
    ensures p <= r.pos <= |s|
    ensures name.None? ==> r.out.Crash?
    ensures r.out.Ok? ==> r.pos > p
    decreases |s| - p, 30
  {
    if name.None? then Parsed(Crash, p, e)
    else
      var t := OptionalType(s, p, e);
      if t.out.Crash? then Parsed(Crash, t.pos, t.log)
      else
        var i := if Kind(s, t.pos) == Some(TokAssign) then ParseInitializer(s, t.pos, t.log) else Parsed(Ok(None), t.pos, t.log);
        if i.out.Crash? then Parsed(Crash, i.pos, i.log)
        else Terminated(s, i.pos, TokSemicolon, Property(annots, access, name.value, t.out.value, i.out.value), i.log)
  }

  /** "=" Expression: the initializer of a property, possibly null. */
  function ParseInitializer(s: seq<Token>, p: nat, e: seq<Diagnostic>): (r: Parsed<Option<Expr>>)
    requires p < |s| && s[p].kind == TokAssign
    ensures p < r.pos <= |s| && !r.out.Null?
    decreases |s| - p, 25
  {
    var x := ParseExpression(s, p + 1, e);
    if x.out.Crash? then Parsed(Crash, x.pos, x.log) else Parsed(Ok(OrNull(x.out)), x.pos, x.log)
  }

  /**
   * Function: "function" Name "(" FormalParameters ( ":" Name )? Block. Only a missing
   * "(" makes it null; a null name, parameter list or body is kept in the node.
   */
  function ParseFunction(s: seq<Token>, p: nat, annots: Option<seq<Annotation>>, e: seq<Diagnostic>): (r: Parsed<Stmt>)
    requires p < |s| && s[p].kind == TokFunction
    ensures p < r.pos <= |s|
    decreases |s| - p, 33
  {
    var n := ParseName(s, p + 1, true, e);
    if n.out.Crash? then Parsed(Crash, n.pos, n.log)
    else
      var x := Expect(s, n.pos, [TokLeftPar], n.log);
      if x.out != Ok(true) then Parsed(Stop(x.out), n.pos, x.log)
      else FunctionRest(s, n.pos, annots, OrNull(n.out), x.log)
  }

  /** A function after its name: the parameters, the optional return type and the body. */
  function FunctionRest(s: seq<Token>, q: nat, annots: Option<seq<Annotation>>, name: Option<Name>,
                        e: seq<Diagnostic>): (r: Parsed<Stmt>)
    requires q <= |s|
    ensures q <= r.pos <= |s|
    ensures r.out.Ok? ==> r.out.value.Function? && r.out.value.funName == name
  {
    var fp := ParseFormalParameters(s, q, e);
    if fp.out.Crash? then Parsed(Crash, fp.pos, fp.log)
    else FunctionBody(s, fp.pos, annots, name, OrNull(fp.out), fp.log)
  }

  /** A function after its parameters: the optional return type and the body. */
  function FunctionBody(s: seq<Token>, q: nat, annots: Option<seq<Annotation>>, name: Option<Name>,
                        params: Option<seq<FormalParameter>>, e: seq<Diagnostic>): (r: Parsed<Stmt>)
    requires q <= |s|
    ensures q <= r.pos <= |s|
    ensures !r.out.Null?
    ensures r.out.Ok? ==> r.out.value.Function? && r.out.value.funName == name && r.out.value.params == params
  {
    var t := OptionalType(s, q, e);
    if t.out.Crash? then Parsed(Crash, t.pos, t.log)
    else
      var b := ParseBlock(s, t.pos, t.log);
      if b.out.Crash? then Parsed(Crash, b.pos, b.log)
      else Parsed(Ok(Function(annots, name, t.out.value, params, OrNull(b.out))), b.pos, b.log)
  }

  /** FormalParameters: "(" ( NAME ":" Name | "," )* ")"; null when no "(" comes first. */
  function ParseFormalParameters(s: seq<Token>, p: nat, e: seq<Diagnostic>): (r: Parsed<seq<FormalParameter>>)
    requires p <= |s|
    ensures p <= r.pos <= |s|
  {
    if Kind(s, p) != Some(TokLeftPar) then Parsed(Null, p, e)
    else ParametersFrom(s, p + 1, [], e)
  }

  /** The parameters from `q` on, appended to `acc`, and the closing ")". */
  function ParametersFrom(s: seq<Token>, q: nat, acc: seq<FormalParameter>, e: seq<Diagnostic>): (r: Parsed<seq<FormalParameter>>)
    requires q <= |s|
    ensures q <= r.pos <= |s|
    decreases |s| - q
  {
    if Kind(s, q) == Some(TokRightPar) then Parsed(Ok(acc), q + 1, e)
    else if Kind(s, q) == Some(TokComa) then ParametersFrom(s, q + 1, acc, e)
    else
      var fp := ParseFormalParameter(s, q, e);
      if !fp.out.Ok? then Parsed(Fail(fp.out), fp.pos, fp.log)
      else ParametersFrom(s, fp.pos, acc + [fp.out.value], fp.log)
  }

  /** One parameter: its name, ":" and the name of its type. */
  function ParseFormalParameter(s: seq<Token>, q: nat, e: seq<Diagnostic>): (r: Parsed<FormalParameter>)
    requires q <= |s|
    ensures q <= r.pos <= |s|
    ensures r.out.Ok? ==> q < r.pos
    ensures q == |s| ==> r.out.Crash?
  {
    var n := ParseName(s, q, true, e);
    if n.out.Crash? then Parsed(Crash, n.pos, n.log)
    else
      var x := Expect(s, n.pos, [TokColon], n.log);
      if x.out != Ok(true) then Parsed(Stop(x.out), n.pos, x.log)
      else
        var t := ParseName(s, n.pos + 1, true, x.log);
        if t.out.Crash? then Parsed(Crash, t.pos, t.log)
        else Parsed(Ok(FormalParameter(OrNull(n.out), TypeReference(OrNull(t.out)))), t.pos, t.log)
  }

  /* ---------------------------------------------------------------- top level */

  /** Namespace: "namespace" Name "{" TopLevelStatements "}" */
  function ParseNamespace(s: seq<Token>, p: nat, annots: Option<seq<Annotation>>, e: seq<Diagnostic>): (r: Parsed<Stmt>)
    requires p < |s| && s[p].kind == TokNamespace
    ensures p < r.pos <= |s|
    decreases |s| - p, 33
  {
    var n := ParseName(s, p + 1, true, e);
    if !n.out.Ok? then Parsed(Fail(n.out), n.pos, n.log)
    else NamespaceBody(s, n.pos, annots, n.out.value, n.log)
  }

  /** A namespace after its name: "{", the top-level statements and "}". */
  function NamespaceBody(s: seq<Token>, q: nat, annots: Option<seq<Annotation>>, name: Name, e: seq<Diagnostic>): (r: Parsed<Stmt>)
    requires q <= |s|
    ensures q <= r.pos <= |s|
    ensures r.out.Ok? ==> r.out.value.Namespace? && r.out.value.annots == annots && r.out.value.nsName == name
    decreases |s| - q, 33
  {
    var x := Expect(s, q, [TokLeftBrace], e);
    if x.out != Ok(true) then Parsed(Stop(x.out), q, x.log)
    else
      var body := TopLevelFrom(s, q + 1, [], x.log);
      if body.out.Crash? then Parsed(Crash, body.pos, body.log)
      else Terminated(s, body.pos, TokRightBrace, Namespace(annots, name, body.out.value), body.log)
  }

  /** The kinds that start a top-level statement; "const" is not among them. */
  predicate StartsTopLevel(k: Option<TokenKind>)
  {
    k == Some(TokImport) || k == Some(TokNamespace) || k == Some(TokVar) || k == Some(TokClass) || k == Some(TokFunction)
  }

  /** One top-level statement, chosen by the kind of its first token. */
  function TopLevelStatement(s: seq<Token>, p: nat, annots: Option<seq<Annotation>>, e: seq<Diagnostic>): (r: Parsed<Stmt>)
    requires p < |s| && StartsTopLevel(Some(s[p].kind))
    ensures p <= r.pos <= |s|
    ensures r.out.Ok? ==> r.pos > p
    decreases |s| - p, 34
  {
    match s[p].kind
    case TokImport => ParseImport(s, p, e)
    case TokNamespace => ParseNamespace(s, p, annots, e)
    case TokVar => ParseVariableOrConstant(s, p, annots, true, e)
    case TokClass => ParseTypeDeclaration(s, p, annots, e)
    case TokFunction => ParseFunction(s, p, annots, e)
  }

  /**
   * TopLevelStatements: ( Annotations? ( Import | Namespace | Variable | TypeDeclaration
   * | Function ) )*, appended to `acc`. The list ends silently at any other token and
   * at the first statement that yields null.
   */
  function TopLevelFrom(s: seq<Token>, p: nat, acc: seq<Stmt>, e: seq<Diagnostic>): (r: Parsed<seq<Stmt>>)
    requires p <= |s|
    ensures p <= r.pos <= |s| && !r.out.Null?
    decreases |s| - p, 35
  {
    var a := if Kind(s, p) == Some(TokAt) then ParseAnnotations(s, p, e) else Parsed(Ok([]), p, e);
    if a.out.Crash? then Parsed(Crash, a.pos, a.log)
    else
      var annots := if Kind(s, p) == Some(TokAt) then Some(a.out.value) else None;
      var q := a.pos;
      if !StartsTopLevel(Kind(s, q)) then Parsed(Ok(acc), q, a.log)
      else
        var st := TopLevelStatement(s, q, annots, a.log);
        if st.out.Crash? then Parsed(Crash, st.pos, st.log)
        else if st.out.Null? then Parsed(Ok(acc), st.pos, st.log)
        else TopLevelFrom(s, st.pos, acc + [st.out.value], st.log)
  }

  /** A compilation unit named "builtin" holding the top-level statements from `p` on. */
  function Parse(s: seq<Token>, p: nat, e: seq<Diagnostic>): (r: Parsed<CompilationUnit>)
    requires p <= |s|
    ensures !r.out.Null?
  {
    var st := TopLevelFrom(s, p, [], e);
    if st.out.Crash? then Parsed(Crash, st.pos, st.log)
    else Parsed(Ok(CompilationUnit("builtin", st.out.value)), st.pos, st.log)
  }
}
