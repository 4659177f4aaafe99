/**
 * The parser of compiler/Parser.ts as a class over a token ring buffer. Every
 * production is a method that reads and discards tokens through the buffer and
 * reports syntax errors to the listener's log; each is proved to behave as its
 * pure counterpart in module Grammar: same result, same tokens consumed, same
 * errors reported. A TypeError of the source is the result `Crash`, after which
 * every caller returns at once.
 */
module ParserImpl {
  import opened Wrappers
  import opened Tokens
  import opened Tree
  import opened TokenRing
  import opened Grammar

  /** For two different kinds, the lookahead for the pair is a check of the next two kinds. */
  lemma LookaheadPair(s: seq<Token>, q: nat, a: TokenKind, b: TokenKind)
    requires a != b
    ensures Matches(s, q, [a, b]) <==> Kind(s, q) == Some(a) && Kind(s, q + 1) == Some(b)
  {
    if Kind(s, q) == Some(a) && Kind(s, q + 1) == Some(b) {
      assert MatchAt(s, q, [a, b], 0);
      assert s[q + 1].kind != s[q].kind;
      assert MatchAt(s, q, [a, b], 1);
    }
    if Matches(s, q, [a, b]) {
      assert MatchAt(s, q, [a, b], 0) && MatchAt(s, q, [a, b], 1);
    }
  }

  class Parser {
    const tokens: TokenArray

    /** The method returned `r` and left the buffer and the log as `g` describes. */
    ghost predicate Did<T>(r: Outcome<T>, g: Parsed<T>)
      reads tokens
    {
      r == g.out && tokens.consumed == g.pos && tokens.errors == g.log
    }

    /** A parser over the tokens of a scanner, read through a ring buffer of 16 slots. */
    constructor (stream: seq<Token>)
      ensures tokens.Valid() && fresh(tokens) && fresh(tokens.buffer)
      ensures tokens.stream == stream && tokens.consumed == 0 && tokens.errors == []
    {
      tokens := new TokenArray(stream, 16);
    }

    /**
     * True when the next token has one of the kinds; otherwise reports them as
     * expected. The kind of a missing token is read all the same: a TypeError.
     */
    method ExpectedOneOf(kinds: seq<TokenKind>) returns (r: Outcome<bool>)
      requires tokens.Valid()
      modifies tokens`errors
      ensures tokens.Valid()
      ensures Did(r, Expect(tokens.stream, tokens.consumed, kinds, old(tokens.errors)))
    {
      for i := 0 to |kinds|
        invariant tokens.errors == old(tokens.errors)
        invariant i > 0 ==> tokens.consumed < |tokens.stream| && tokens.stream[tokens.consumed].kind !in kinds[..i]
      {
        var t := tokens.Peek();
        if t.None? {
          return Crash;
        }
        if t.value.kind == kinds[i] {
          return Ok(true);
        }
        assert kinds[..i + 1] == kinds[..i] + [kinds[i]];
      }
      assert kinds[..|kinds|] == kinds;
      tokens.errors := tokens.errors + [Expected(kinds)];
      return Ok(false);
    }

    /** The `if (!this.expectedOneOf(kind)) return null; this.tokens.discard();` that ends many productions. */
    method Terminated<T>(kind: TokenKind, node: T) returns (r: Outcome<T>)
      requires tokens.Valid()
      modifies tokens, tokens.buffer
      ensures tokens.Valid()
      ensures Did(r, Grammar.Terminated(tokens.stream, old(tokens.consumed), kind, node, old(tokens.errors)))
    {
      var ok := ExpectedOneOf([kind]);
      if ok != Ok(true) {
        return Stop(ok);
      }
      tokens.Discard(1);
      return Ok(node);
    }

    /** `this.tokens.discard(); return node;` with no check of the discarded token. */
    method Unchecked<T>(node: T) returns (r: Outcome<T>)
      requires tokens.Valid()
      modifies tokens, tokens.buffer
      ensures tokens.Valid()
      ensures Did(r, Grammar.Unchecked(tokens.stream, old(tokens.consumed), node, old(tokens.errors)))
    {
      tokens.Discard(1);
      return Ok(node);
    }

    /**
     * `if (!this.expectedOneOf(kind)) return null; this.tokens.discard();` where the
     * caller has already seen that a `kind` token is next, so the check passes.
     */
    method DiscardExpected(kind: TokenKind)
      requires tokens.Valid() && tokens.NextKind() == Some(kind)
      modifies tokens, tokens.buffer
      ensures tokens.Valid() && tokens.errors == old(tokens.errors)
      ensures tokens.consumed == old(tokens.consumed) + 1
    {
      var ok := ExpectedOneOf([kind]);
      assert ok == Ok(true);
      tokens.Discard(1);
    }

    /** Discards the `kind` token the caller has seen next and parses the expression after it. */
    method ExpressionAfter(kind: TokenKind) returns (r: Outcome<Expr>)
      requires tokens.Valid() && tokens.NextKind() == Some(kind)
      modifies tokens, tokens.buffer
      ensures tokens.Valid()
      ensures Did(r, Grammar.ParseExpression(tokens.stream, old(tokens.consumed) + 1, old(tokens.errors)))
      decreases |tokens.stream| - tokens.consumed, 0
    {
      DiscardExpected(kind);
      r := ParseExpression();
    }

    /** Discards the `kind` token the caller has seen next and parses the name after it. */
    method NameAfter(kind: TokenKind, qualified: bool) returns (r: Outcome<Name>)
      requires tokens.Valid() && tokens.NextKind() == Some(kind)
      modifies tokens, tokens.buffer
      ensures tokens.Valid()
      ensures Did(r, Grammar.ParseName(tokens.stream, old(tokens.consumed) + 1, qualified, old(tokens.errors)))
    {
      DiscardExpected(kind);
      r := ParseName(qualified);
    }

    /** Drops the next token unchecked and parses the expression after it. */
    method ExpressionAfterNext() returns (r: Outcome<Expr>)
      requires tokens.Valid() && tokens.NextKind().Some?
      modifies tokens, tokens.buffer
      ensures tokens.Valid()
      ensures Did(r, Grammar.ParseExpression(tokens.stream, old(tokens.consumed) + 1, old(tokens.errors)))
      decreases |tokens.stream| - tokens.consumed, 0
    {
      tokens.Discard(1);
      r := ParseExpression();
    }

    /** Drops the next token unchecked and parses the block after it. */
    method BlockAfterNext() returns (r: Outcome<Stmt>)
      requires tokens.Valid() && tokens.NextKind().Some?
      modifies tokens, tokens.buffer
      ensures tokens.Valid()
      ensures Did(r, Grammar.ParseBlock(tokens.stream, old(tokens.consumed) + 1, old(tokens.errors)))
      decreases |tokens.stream| - tokens.consumed, 0
    {
      tokens.Discard(1);
      r := ParseBlock();
    }

    /** `tokens.lookahead(false, a, b)`: whether the next two tokens have kinds `a` and `b`. */
    method LookaheadTwo(a: TokenKind, b: TokenKind) returns (r: bool)
      requires tokens.Valid() && a != b
      ensures r <==> Kind(tokens.stream, tokens.consumed) == Some(a) && Kind(tokens.stream, tokens.consumed + 1) == Some(b)
    {
      r := tokens.Lookahead(false, [a, b]);
      LookaheadPair(tokens.stream, tokens.consumed, a, b);
    }

    method ParseName(qualified: bool) returns (r: Outcome<Name>)
      requires tokens.Valid()
      modifies tokens, tokens.buffer
      ensures tokens.Valid()
      ensures Did(r, Grammar.ParseName(tokens.stream, old(tokens.consumed), qualified, old(tokens.errors)))
    {
      var ok := ExpectedOneOf([TokName]);
      if ok != Ok(true) {
        return Stop(ok);
      }
      var first := tokens.Peek();
      var location := first.value.loc;
      tokens.Discard(1);
      var tail := [];
      if qualified {
        tail := ReadNameTail();
      }
      return Ok(Name([first.value.value] + tail, location));
    }

    /** The loop of parseName that appends each ".NAME" pair's name. */
    method ReadNameTail() returns (tail: seq<string>)
      requires tokens.Valid()
      modifies tokens, tokens.buffer
      ensures tokens.Valid() && tokens.errors == old(tokens.errors)
      ensures (tail, tokens.consumed) == NameTail(tokens.stream, old(tokens.consumed))
    {
      tail := [];
      while true
        invariant tokens.Valid() && tokens.errors == old(tokens.errors)
        invariant old(tokens.consumed) <= tokens.consumed <= |tokens.stream|
        invariant tail + NameTail(tokens.stream, tokens.consumed).0 == NameTail(tokens.stream, old(tokens.consumed)).0
        invariant NameTail(tokens.stream, tokens.consumed).1 == NameTail(tokens.stream, old(tokens.consumed)).1
        decreases |tokens.stream| - tokens.consumed
      {
        var more := LookaheadTwo(TokDot, TokName);
        if !more {
          assert NameTail(tokens.stream, tokens.consumed) == ([], tokens.consumed);
          assert tail + [] == tail;
          return;
        }
        ghost var c := tokens.consumed;
        var part := NamePart();
        assert NameTail(tokens.stream, c).0 == [part] + NameTail(tokens.stream, c + 2).0;
        tail := tail + [part];
      }
    }

    /** One `.NAME` step of parseName: the name after the dot, and both tokens discarded. */
    method NamePart() returns (part: string)
      requires tokens.Valid()
      requires Kind(tokens.stream, tokens.consumed) == Some(TokDot) && Kind(tokens.stream, tokens.consumed + 1) == Some(TokName)
      modifies tokens, tokens.buffer
      ensures tokens.Valid() && tokens.errors == old(tokens.errors)
      ensures tokens.consumed == old(tokens.consumed) + 2
      ensures part == tokens.stream[old(tokens.consumed) + 1].value
    {
      var next := tokens.PeekAt(1);
      tokens.Discard(2);
      part := next.value.value;
    }

    method ParseImport() returns (r: Outcome<Stmt>)
      requires tokens.Valid()
      modifies tokens, tokens.buffer
      ensures tokens.Valid()
      ensures Did(r, Grammar.ParseImport(tokens.stream, old(tokens.consumed), old(tokens.errors)))
    {
      if tokens.PeekType() != Some(TokImport) {
        return Null;
      }
      tokens.Discard(1);
      var qualifiedName := ParseName(true);
      if !qualifiedName.Ok? {
        return Fail(qualifiedName);
      }
      r := ImportRest(qualifiedName.value);
    }

    /** The wildcard or alias after an imported name, and the closing ";". */
    method ImportRest(name: Name) returns (r: Outcome<Stmt>)
      requires tokens.Valid()
      modifies tokens, tokens.buffer
      ensures tokens.Valid()
      ensures Did(r, Grammar.ImportRest(tokens.stream, old(tokens.consumed), name, old(tokens.errors)))
    {
      var isWildcard := false;
      var wildcard := LookaheadTwo(TokDot, TokMul);
      if wildcard {
        tokens.Discard(2);
        isWildcard := true;
      } else if tokens.PeekType() == Some(TokAs) {
        r := ImportAlias(name);
        return;
      }
      r := ImportEnd(TypeImport(name, isWildcard, None));
    }

    /** The "as" clause of parseImport: the alias name and then the ";". */
    method ImportAlias(name: Name) returns (r: Outcome<Stmt>)
      requires tokens.Valid() && tokens.NextKind() == Some(TokAs)
      modifies tokens, tokens.buffer
      ensures tokens.Valid()
      ensures Did(r, Grammar.ImportAlias(tokens.stream, old(tokens.consumed), name, old(tokens.errors)))
    {
      var a := NameAfterNext();
      if !a.Ok? {
        return Fail(a);
      }
      r := ImportEnd(TypeImport(name, false, Some(a.value)));
    }

    /** The closing ";" of an import; null without a report when it is missing. */
    method ImportEnd(imp: Stmt) returns (r: Outcome<Stmt>)
      requires tokens.Valid()
      modifies tokens, tokens.buffer
      ensures tokens.Valid()
      ensures Did(r, Grammar.ImportEnd(tokens.stream, old(tokens.consumed), imp, old(tokens.errors)))
    {
      if tokens.PeekType() != Some(TokSemicolon) {
        return Null;
      }
      tokens.Discard(1);
      return Ok(imp);
    }

    method ParseAnnotations() returns (r: Outcome<seq<Annotation>>)
      requires tokens.Valid()
      modifies tokens, tokens.buffer
      ensures tokens.Valid()
      ensures Did(r, Grammar.ParseAnnotations(tokens.stream, old(tokens.consumed), old(tokens.errors)))
    {
      ghost var whole := Grammar.ParseAnnotations(tokens.stream, tokens.consumed, tokens.errors);
      var decors: seq<Annotation> := [];
      while tokens.PeekType() == Some(TokAt)
        invariant tokens.Valid()
        invariant whole == AnnotationsFrom(tokens.stream, tokens.consumed, decors, tokens.errors)
        decreases |tokens.stream| - tokens.consumed
      {
        var name := NameAfterNext();
        if name.Crash? {
          return Crash;
        }
        decors := decors + [Annotation(OrNull(name))];
      }
      return Ok(decors);
    }

    /** Drops the next token unchecked and parses the qualified name after it (an annotation, an alias). */
    method NameAfterNext() returns (r: Outcome<Name>)
      requires tokens.Valid() && tokens.NextKind().Some?
      modifies tokens, tokens.buffer
      ensures tokens.Valid()
      ensures Did(r, Grammar.ParseName(tokens.stream, old(tokens.consumed) + 1, true, old(tokens.errors)))
    {
      tokens.Discard(1);
      r := ParseName(true);
    }

    method ParseAccessMode() returns (mode: AccessMode)
      requires tokens.Valid()
      modifies tokens, tokens.buffer
      ensures tokens.Valid() && tokens.errors == old(tokens.errors)
      ensures (mode, tokens.consumed) == Grammar.ParseAccessMode(tokens.stream, old(tokens.consumed))
    {
      if tokens.PeekType() == Some(TokPublic) {
        tokens.Discard(1);
        return Public;
      } else if tokens.PeekType() == Some(TokProtected) {
        tokens.Discard(1);
        return Protected;
      } else if tokens.PeekType() == Some(TokPrivate) {
        tokens.Discard(1);
        return Private;
      }
      return Protected;
    }

    /** The ": Name" annotation that parseVariableOrConstant, parseProperty and parseFunction share. */
    method ParseTypeAnnotation() returns (r: Outcome<Option<TypeReference>>)
      requires tokens.Valid() && tokens.NextKind() == Some(TokColon)
      modifies tokens, tokens.buffer
      ensures tokens.Valid()
      ensures Did(r, Grammar.ParseTypeAnnotation(tokens.stream, old(tokens.consumed), old(tokens.errors)))
    {
      tokens.Discard(1);
      var name := ParseName(true);
      if name.Crash? {
        return Crash;
      }
      return Ok(Some(TypeReference(OrNull(name))));
    }

    /** The type annotation that parseVariableOrConstant, parseProperty and parseFunction accept after a ":". */
    method OptionalType() returns (r: Outcome<Option<TypeReference>>)
      requires tokens.Valid()
      modifies tokens, tokens.buffer
      ensures tokens.Valid()
      ensures Did(r, Grammar.OptionalType(tokens.stream, old(tokens.consumed), old(tokens.errors)))
    {
      if tokens.PeekType() == Some(TokColon) {
        r := ParseTypeAnnotation();
      } else {
        r := Ok(None);
      }
    }

    method ParseLiteralConstant() returns (r: Outcome<Expr>)
      requires tokens.Valid()
      modifies tokens, tokens.buffer
      ensures tokens.Valid()
      ensures Did(r, Grammar.ParseLiteralConstant(tokens.stream, old(tokens.consumed), old(tokens.errors)))
    {
      var k := tokens.PeekType();
      if k == Some(TokNull) {
        tokens.Discard(1);
        return Ok(NullLiteral);
      } else if k == Some(TokTrue) || k == Some(TokFalse) {
        r := ParseBooleanLiteral();
      } else if k.Some? && k.value in IntegerKinds {
        r := ParseIntegerLiteral();
      } else if k == Some(TokFpLiteral) {
        r := ParseFloatLiteral();
      } else if k == Some(TokStringLiteral) {
        r := ParseStringLiteral();
      } else {
        return Null;
      }
    }

    method ParseIntegerLiteral() returns (r: Outcome<Expr>)
      requires tokens.Valid() && tokens.NextKind().Some? && tokens.NextKind().value in IntegerKinds
      modifies tokens, tokens.buffer
      ensures tokens.Valid()
      ensures Did(r, Grammar.ParseIntegerLiteral(tokens.stream, old(tokens.consumed), old(tokens.errors)))
    {
      var value := tokens.Peek().value.value;
      var t := tokens.Read();
      match t.value.kind
      case TokHexLiteral =>
        return Ok(IntegerLiteral(DropPrefix(value), 16));
      case TokBinLiteral =>
        return Ok(IntegerLiteral(DropPrefix(value), 2));
      case TokOctLiteral =>
        return Ok(IntegerLiteral(value, 8));
      case _ =>
        return Ok(IntegerLiteral(value, 10));
    }

    method ParseStringLiteral() returns (r: Outcome<Expr>)
      requires tokens.Valid() && tokens.NextKind() == Some(TokStringLiteral)
      modifies tokens, tokens.buffer
      ensures tokens.Valid() && tokens.errors == old(tokens.errors)
      ensures r == Ok(StringLiteral(tokens.stream[old(tokens.consumed)].value))
      ensures tokens.consumed == old(tokens.consumed) + 1
    {
      var t := tokens.Read();
      return Ok(StringLiteral(t.value.value));
    }

    method ParseFloatLiteral() returns (r: Outcome<Expr>)
      requires tokens.Valid() && tokens.NextKind() == Some(TokFpLiteral)
      modifies tokens, tokens.buffer
      ensures tokens.Valid() && tokens.errors == old(tokens.errors)
      ensures r == Ok(FloatLiteral(tokens.stream[old(tokens.consumed)].value))
      ensures tokens.consumed == old(tokens.consumed) + 1
    {
      var t := tokens.Read();
      return Ok(FloatLiteral(t.value.value));
    }

    method ParseBooleanLiteral() returns (r: Outcome<Expr>)
      requires tokens.Valid() && (tokens.NextKind() == Some(TokTrue) || tokens.NextKind() == Some(TokFalse))
      modifies tokens, tokens.buffer
      ensures tokens.Valid()
      ensures Did(r, Grammar.ParseBooleanLiteral(tokens.stream, old(tokens.consumed), old(tokens.errors)))
    {
      var ok := ExpectedOneOf([TokTrue, TokFalse]);
      assert ok == Ok(true);
      var t := tokens.Read();
      return Ok(BooleanLiteral(t.value.kind == TokTrue));
    }

    /* -------------------------------------------------------------- expressions */

    /** parseExpression: an assignment. */
    method ParseExpression() returns (r: Outcome<Expr>)
      requires tokens.Valid()
      modifies tokens, tokens.buffer
      ensures tokens.Valid()
      ensures Did(r, Grammar.ParseExpression(tokens.stream, old(tokens.consumed), old(tokens.errors)))
      decreases |tokens.stream| - tokens.consumed, 20
    {
      r := Tier(AssignmentLevel);
    }

    /** The operand of a binary tier: the next tighter production. */
    method Operand(l: Level) returns (r: Outcome<Expr>)
      requires tokens.Valid()
      modifies tokens, tokens.buffer
      ensures tokens.Valid()
      ensures Did(r, Grammar.Operand(l, tokens.stream, old(tokens.consumed), old(tokens.errors)))
      decreases |tokens.stream| - tokens.consumed, TierRank(l) - 1
    {
      match l
      case AssignmentLevel => r := Tier(DisjunctionLevel);
      case DisjunctionLevel => r := Tier(ConjunctionLevel);
      case ConjunctionLevel => r := Tier(EqualityLevel);
      case EqualityLevel => r := Tier(ComparisonLevel);
      case ComparisonLevel => r := ParseNamedInfix();
      case AdditiveLevel => r := Tier(MultiplicativeLevel);
      case MultiplicativeLevel => r := ParsePrefixUnary();
    }

    /**
     * parseAssignment, parseDisjunction, parseConjunction, parseEquality,
     * parseComparison, parseAdditiveExpression and parseMultiplicativeExpression:
     * an operand, then, when an operator of the tier follows, that operator and
     * the same tier again, joined by createBinaryExpression.
     */
    method Tier(l: Level) returns (r: Outcome<Expr>)
      requires tokens.Valid()
      modifies tokens, tokens.buffer
      ensures tokens.Valid()
      ensures Did(r, Grammar.Tier(l, tokens.stream, old(tokens.consumed), old(tokens.errors)))
      decreases |tokens.stream| - tokens.consumed, TierRank(l)
    {
      var left := Operand(l);
      if !left.Ok? {
        return left;
      }
      if !IsOperator(l, tokens.PeekType()) {
        return left;
      }
      r := TierRight(l, left.value);
    }

    /** The operator that follows the left side of tier `l`, and the right side. */
    method TierRight(l: Level, left: Expr) returns (r: Outcome<Expr>)
      requires tokens.Valid() && IsOperator(l, tokens.NextKind())
      modifies tokens, tokens.buffer
      ensures tokens.Valid()
      ensures Did(r, Grammar.TierRight(l, tokens.stream, old(tokens.consumed), left, old(tokens.errors)))
      decreases |tokens.stream| - tokens.consumed, TierRank(l)
    {
      var op := tokens.Read();
      var right := Tier(l);
      if right.Crash? {
        return Crash;
      }
      return FromOption(CreateBinary(Some(left), Some(op.value.kind), OrNull(right)));
    }

    /** parseNamedInfix: an additive expression, then "in" / "not in" an additive one or "is" / "not is" a name. */
    method ParseNamedInfix() returns (r: Outcome<Expr>)
      requires tokens.Valid()
      modifies tokens, tokens.buffer
      ensures tokens.Valid()
      ensures Did(r, Grammar.ParseNamedInfix(tokens.stream, old(tokens.consumed), old(tokens.errors)))
      decreases |tokens.stream| - tokens.consumed, 9
    {
      var left := Tier(AdditiveLevel);
      if !left.Ok? {
        return left;
      }
      ghost var q := tokens.consumed;
      var op: TokenKind;
      if tokens.PeekType() == Some(TokNot) && tokens.PeekTypeAt(1) == Some(TokIn) {
        tokens.Discard(2);
        op := TokNin;
      } else if tokens.PeekType() == Some(TokNot) && tokens.PeekTypeAt(1) == Some(TokIs) {
        tokens.Discard(2);
        op := TokNis;
      } else if tokens.PeekType() == Some(TokIn) || tokens.PeekType() == Some(TokIs) {
        var t := tokens.Read();
        op := t.value.kind;
      } else {
        return left;
      }
      assert NamedOperator(tokens.stream, q) == (Some(op), tokens.consumed);
      r := NamedInfixRight(left.value, op);
    }

    /** The right side of a named infix operator. */
    method NamedInfixRight(left: Expr, op: TokenKind) returns (r: Outcome<Expr>)
      requires tokens.Valid() && OpBinding(op) == 5
      modifies tokens, tokens.buffer
      ensures tokens.Valid()
      ensures Did(r, Grammar.NamedInfixRight(tokens.stream, old(tokens.consumed), left, op, old(tokens.errors)))
      decreases |tokens.stream| - tokens.consumed, 9
    {
      if op == TokIn || op == TokNin {
        var right := Tier(AdditiveLevel);
        if right.Crash? {
          return Crash;
        }
        return Ok(Binary(left, op, OrNull(right)));
      }
      var name := ParseName(true);
      if name.Crash? {
        return Crash;
      }
      return Ok(Binary(left, op, Some(NameLiteral(OrNull(name)))));
    }

    /** parsePrefixUnaryExpression: an optional "++" or "--" before a postfix unary expression. */
    method ParsePrefixUnary() returns (r: Outcome<Expr>)
      requires tokens.Valid()
      modifies tokens, tokens.buffer
      ensures tokens.Valid()
      ensures Did(r, Grammar.ParsePrefixUnary(tokens.stream, old(tokens.consumed), old(tokens.errors)))
      decreases |tokens.stream| - tokens.consumed, 4
    {
      var k := tokens.PeekType();
      if k == Some(TokInc) || k == Some(TokDec) {
        var t := tokens.Read();
        var operand := ParsePostfixUnary();
        if operand.Crash? {
          return Crash;
        }
        return Ok(Unary(OrNull(operand), t.value.kind, PrefixOp, None));
      }
      r := ParsePostfixUnary();
    }

    /** parsePostfixUnaryExpression: an atomic expression and an optional "++", "--", index list or argument list. */
    method ParsePostfixUnary() returns (r: Outcome<Expr>)
      requires tokens.Valid()
      modifies tokens, tokens.buffer
      ensures tokens.Valid()
      ensures Did(r, Grammar.ParsePostfixUnary(tokens.stream, old(tokens.consumed), old(tokens.errors)))
      decreases |tokens.stream| - tokens.consumed, 3
    {
      var expr := ParseAtomic();
      if !expr.Ok? {
        return expr;
      }
      var k := tokens.PeekType();
      if k == Some(TokInc) || k == Some(TokDec) {
        var t := tokens.Read();
        return Ok(Unary(Some(expr.value), t.value.kind, PostfixOp, None));
      } else if k == Some(TokLeftBracket) {
        var extra := ParseArrayAccess();
        if extra.Crash? {
          return Crash;
        }
        return Ok(Unary(Some(expr.value), TokLeftBracket, PostfixOp, OrNull(extra)));
      } else if k == Some(TokLeftPar) {
        var extra := ParseArgumentList();
        if extra.Crash? {
          return Crash;
        }
        return Ok(Unary(Some(expr.value), TokLeftPar, PostfixOp, OrNull(extra)));
      }
      return expr;
    }

    /** parseArgumentList with no list yet: "(" ")" or "(" Argument ( "," Argument )* ")". */
    method ParseArgumentList() returns (r: Outcome<Expr>)
      requires tokens.Valid() && tokens.NextKind() == Some(TokLeftPar)
      modifies tokens, tokens.buffer
      ensures tokens.Valid()
      ensures Did(r, Grammar.ParseArgumentList(tokens.stream, old(tokens.consumed), old(tokens.errors)))
      decreases |tokens.stream| - tokens.consumed, 2
    {
      var empty := LookaheadTwo(TokLeftPar, TokRightPar);
      if empty {
        tokens.Discard(2);
        return Ok(ArgumentList([]));
      }
      DiscardExpected(TokLeftPar);
      r := ArgumentsBody();
    }

    /** The rest of parseArgumentList after the "(": the arguments and the closing ")". */
    method ArgumentsBody() returns (r: Outcome<Expr>)
      requires tokens.Valid()
      modifies tokens, tokens.buffer
      ensures tokens.Valid()
      ensures Did(r, Grammar.ArgumentsBody(tokens.stream, old(tokens.consumed), old(tokens.errors)))
      decreases |tokens.stream| - tokens.consumed, 26
    {
      var first := ParseArgument();
      if first.Crash? {
        return Crash;
      }
      var args := ArgumentsAfter(first.value);
      if args.Crash? {
        return Crash;
      }
      r := Terminated(TokRightPar, ArgumentList(args.value));
    }

    /** The arguments once the first is parsed: more of them only when a "," follows. */
    method ArgumentsAfter(first: Argument) returns (r: Outcome<seq<Argument>>)
      requires tokens.Valid()
      modifies tokens, tokens.buffer
      ensures tokens.Valid()
      ensures Did(r, Grammar.ArgumentsAfter(tokens.stream, old(tokens.consumed), first, old(tokens.errors)))
      decreases |tokens.stream| - tokens.consumed, 25
    {
      if tokens.PeekType() == Some(TokComa) {
        r := ParseMoreArguments([first]);
      } else {
        r := Ok([first]);
      }
    }

    /** parseArgumentList given the list so far: "," Argument ( "," Argument )*, appended to `value`. */
    method ParseMoreArguments(value: seq<Argument>) returns (r: Outcome<seq<Argument>>)
      requires tokens.Valid() && tokens.NextKind() == Some(TokComa)
      modifies tokens, tokens.buffer
      ensures tokens.Valid()
      ensures Did(r, ArgumentsLoop(tokens.stream, old(tokens.consumed) + 1, value, old(tokens.errors)))
      decreases |tokens.stream| - tokens.consumed, 24
    {
      var empty := LookaheadTwo(TokLeftPar, TokRightPar);
      assert !empty;
      DiscardExpected(TokComa);
      r := ArgumentsFrom(value);
    }

    /** The loop of parseArgumentList: Argument ( "," Argument )*, appended to `value`. */
    method ArgumentsFrom(value: seq<Argument>) returns (r: Outcome<seq<Argument>>)
      requires tokens.Valid()
      modifies tokens, tokens.buffer
      ensures tokens.Valid()
      ensures Did(r, ArgumentsLoop(tokens.stream, old(tokens.consumed), value, old(tokens.errors)))
      decreases |tokens.stream| - tokens.consumed, 23
    {
      ghost var whole := ArgumentsLoop(tokens.stream, tokens.consumed, value, tokens.errors);
      var args := value;
      while true
        invariant tokens.Valid() && tokens.consumed >= old(tokens.consumed)
        invariant whole == ArgumentsLoop(tokens.stream, tokens.consumed, args, tokens.errors)
        decreases |tokens.stream| - tokens.consumed
      {
        var a := ParseArgument();
        if a.Crash? {
          return Crash;
        }
        args := args + [a.value];
        if tokens.PeekType() != Some(TokComa) {
          return Ok(args);
        }
        tokens.Discard(1);
      }
    }

    /** parseArgument: an optional NAME "=", after which two tokens are discarded, and an expression. */
    method ParseArgument() returns (r: Outcome<Argument>)
      requires tokens.Valid()
      modifies tokens, tokens.buffer
      ensures tokens.Valid()
      ensures Did(r, Grammar.ParseArgument(tokens.stream, old(tokens.consumed), old(tokens.errors)))
      decreases |tokens.stream| - tokens.consumed, 22
    {
      var named := LookaheadTwo(TokName, TokAssign);
      if named {
        r := NamedArgument();
      } else {
        r := PositionalArgument();
      }
    }

    /** An argument without a name: only the value. */
    method PositionalArgument() returns (r: Outcome<Argument>)
      requires tokens.Valid()
      modifies tokens, tokens.buffer
      ensures tokens.Valid()
      ensures Did(r, Grammar.PositionalArgument(tokens.stream, old(tokens.consumed), old(tokens.errors)))
      decreases |tokens.stream| - tokens.consumed, 21
    {
      var value := ParseExpression();
      if value.Crash? {
        return Crash;
      }
      return Ok(Argument(None, OrNull(value)));
    }

    /** An argument of the form `name = value`: the two tokens after the name are skipped unchecked. */
    method NamedArgument() returns (r: Outcome<Argument>)
      requires tokens.Valid() && tokens.NextKind() == Some(TokName)
      modifies tokens, tokens.buffer
      ensures tokens.Valid()
      ensures Did(r, Grammar.NamedArgument(tokens.stream, old(tokens.consumed), old(tokens.errors)))
      decreases |tokens.stream| - tokens.consumed, 21
    {
      var n := ParseName(true);
      tokens.Discard(2);
      var value := ParseExpression();
      if value.Crash? {
        return Crash;
      }
      return Ok(Argument(OrNull(n), OrNull(value)));
    }

    /** parseArrayAccess with no list yet: "[" Expression ( "," Expression )* "]". */
    method ParseArrayAccess() returns (r: Outcome<Expr>)
      requires tokens.Valid() && tokens.NextKind() == Some(TokLeftBracket)
      modifies tokens, tokens.buffer
      ensures tokens.Valid()
      ensures Did(r, Grammar.ParseArrayAccess(tokens.stream, old(tokens.consumed), old(tokens.errors)))
      decreases |tokens.stream| - tokens.consumed, 2
    {
      var first := ExpressionAfter(TokLeftBracket);
      if first.Crash? {
        return Crash;
      }
      var items := IndexesAfter(OrNull(first));
      if items.Crash? {
        return Crash;
      }
      r := Terminated(TokRightBracket, ExpressionList(items.value));
    }

    /** The index list once its first expression is parsed: more of them only when a "," follows. */
    method IndexesAfter(first: Option<Expr>) returns (r: Outcome<seq<Option<Expr>>>)
      requires tokens.Valid()
      modifies tokens, tokens.buffer
      ensures tokens.Valid()
      ensures Did(r, Grammar.IndexesAfter(tokens.stream, old(tokens.consumed), first, old(tokens.errors)))
      decreases |tokens.stream| - tokens.consumed, 22
    {
      if tokens.PeekType() == Some(TokComa) {
        r := ParseMoreIndexes([first]);
      } else {
        r := Ok([first]);
      }
    }

    /** parseArrayAccess given the list so far: "," Expression, then again while a "," follows. */
    method ParseMoreIndexes(value: seq<Option<Expr>>) returns (r: Outcome<seq<Option<Expr>>>)
      requires tokens.Valid() && tokens.NextKind() == Some(TokComa)
      modifies tokens, tokens.buffer
      ensures tokens.Valid()
      ensures Did(r, ArrayAccessLoop(tokens.stream, old(tokens.consumed) + 1, value, old(tokens.errors)))
      decreases |tokens.stream| - tokens.consumed, 21
    {
      var x := ExpressionAfter(TokComa);
      if x.Crash? {
        return Crash;
      }
      var items := value + [OrNull(x)];
      if tokens.PeekType() == Some(TokComa) {
        r := ParseMoreIndexes(items);
      } else {
        r := Ok(items);
      }
    }

    /** parseAtomicExpression: "(" Expression ")" with the closing token unchecked, a name, or a literal. */
    method ParseAtomic() returns (r: Outcome<Expr>)
      requires tokens.Valid()
      modifies tokens, tokens.buffer
      ensures tokens.Valid()
      ensures Did(r, Grammar.ParseAtomic(tokens.stream, old(tokens.consumed), old(tokens.errors)))
      decreases |tokens.stream| - tokens.consumed, 1
    {
      var k := tokens.PeekType();
      if k == Some(TokLeftPar) {
        tokens.Discard(1);
        var inner := ParseExpression();
        if inner.Crash? {
          return Crash;
        }
        tokens.Discard(1);
        return Ok(AtomicExpr(OrNull(inner)));
      } else if k == Some(TokName) {
        var name := ParseName(true);
        return Ok(NameLiteral(Some(name.value)));
      }
      r := ParseLiteralConstant();
    }

    /* --------------------------------------------------------------- statements */

    /** parseStatement: chosen by the next token's kind; an expression statement otherwise. */
    method ParseStatement() returns (r: Outcome<Stmt>)
      requires tokens.Valid()
      modifies tokens, tokens.buffer
      ensures tokens.Valid()
      ensures Did(r, Grammar.ParseStatement(tokens.stream, old(tokens.consumed), old(tokens.errors)))
      decreases |tokens.stream| - tokens.consumed, 31
    {
      var k := tokens.PeekType();
      if k == Some(TokReturn) {
        r := ParseReturnStmt();
      } else if k == Some(TokIf) {
        r := ParseIfThenElse();
      } else if k == Some(TokVar) || k == Some(TokConst) {
        r := ParseVariableOrConstant(None, false);
      } else if k == Some(TokFor) {
        r := ParseForEach();
      } else {
        var expr := ParseExpression();
        if !expr.Ok? {
          return Fail(expr);
        }
        r := Ok(ExpressionStmt(expr.value));
      }
    }

    /** parseReturnStmt: "return" and an expression, which may be null. */
    method ParseReturnStmt() returns (r: Outcome<Stmt>)
      requires tokens.Valid() && tokens.NextKind() == Some(TokReturn)
      modifies tokens, tokens.buffer
      ensures tokens.Valid()
      ensures Did(r, Grammar.ParseReturnStmt(tokens.stream, old(tokens.consumed), old(tokens.errors)))
      decreases |tokens.stream| - tokens.consumed, 30
    {
      var expr := ExpressionAfter(TokReturn);
      if expr.Crash? {
        return Crash;
      }
      return Ok(ReturnStmt(OrNull(expr)));
    }

    /** parseIfThenElseStmt: "if" or "elif", a condition, "then" and a block, then the else part. */
    method ParseIfThenElse() returns (r: Outcome<Stmt>)
      requires tokens.Valid() && (tokens.NextKind() == Some(TokIf) || tokens.NextKind() == Some(TokElif))
      modifies tokens, tokens.buffer
      ensures tokens.Valid()
      ensures Did(r, Grammar.ParseIfThenElse(tokens.stream, old(tokens.consumed), old(tokens.errors)))
      decreases |tokens.stream| - tokens.consumed, 30
    {
      var condition := ExpressionAfter(tokens.PeekType().value);
      if condition.Crash? {
        return Crash;
      }
      r := ThenPart(OrNull(condition));
    }

    method ThenPart(condition: Option<Expr>) returns (r: Outcome<Stmt>)
      requires tokens.Valid()
      modifies tokens, tokens.buffer
      ensures tokens.Valid()
      ensures Did(r, Grammar.ThenPart(tokens.stream, old(tokens.consumed), condition, old(tokens.errors)))
      decreases |tokens.stream| - tokens.consumed, 30
    {
      var ok := ExpectedOneOf([TokThen]);
      if ok != Ok(true) {
        return Stop(ok);
      }
      var thenSide := BlockAfterNext();
      if !thenSide.Ok? {
        return Fail(thenSide);
      }
      r := ElsePart(condition, thenSide.value);
    }

    /** The optional "elif" chain or "else" block of parseIfThenElseStmt. */
    method ElsePart(condition: Option<Expr>, thenSide: Stmt) returns (r: Outcome<Stmt>)
      requires tokens.Valid()
      modifies tokens, tokens.buffer
      ensures tokens.Valid()
      ensures Did(r, Grammar.ElsePart(tokens.stream, old(tokens.consumed), condition, thenSide, old(tokens.errors)))
      decreases |tokens.stream| - tokens.consumed, 31
    {
      var elseSide: Option<Stmt> := None;
      if tokens.PeekType() == Some(TokElif) {
        var chain := ParseIfThenElse();
        if !chain.Ok? {
          return Fail(chain);
        }
        elseSide := Some(chain.value);
      } else if tokens.PeekType() == Some(TokElse) {
        var block := BlockAfterNext();
        if !block.Ok? {
          return Fail(block);
        }
        elseSide := Some(block.value);
      }
      return Ok(IfThenElse(condition, thenSide, elseSide));
    }

    /** parseForEach: "for", a name, "in", an expression and a block, neither checked for null. */
    method ParseForEach() returns (r: Outcome<Stmt>)
      requires tokens.Valid() && tokens.NextKind() == Some(TokFor)
      modifies tokens, tokens.buffer
      ensures tokens.Valid()
      ensures Did(r, Grammar.ParseForEach(tokens.stream, old(tokens.consumed), old(tokens.errors)))
      decreases |tokens.stream| - tokens.consumed, 30
    {
      var name := NameAfter(TokFor, true);
      if name.Crash? {
        return Crash;
      }
      r := ForEachRest(StorageDeclaration(None, OrNull(name), None, false, None));
    }

    method ForEachRest(storage: Stmt) returns (r: Outcome<Stmt>)
      requires tokens.Valid()
      modifies tokens, tokens.buffer
      ensures tokens.Valid()
      ensures Did(r, Grammar.ForEachRest(tokens.stream, old(tokens.consumed), storage, old(tokens.errors)))
      decreases |tokens.stream| - tokens.consumed, 30
    {
      var ok := ExpectedOneOf([TokIn]);
      if ok != Ok(true) {
        return Stop(ok);
      }
      var expr := ExpressionAfterNext();
      if expr.Crash? {
        return Crash;
      }
      r := ForEachBody(storage, OrNull(expr));
    }

    /** A for-each statement after its iterated expression: the block. */
    method ForEachBody(storage: Stmt, iterated: Option<Expr>) returns (r: Outcome<Stmt>)
      requires tokens.Valid()
      modifies tokens, tokens.buffer
      ensures tokens.Valid()
      ensures Did(r, Grammar.ForEachBody(tokens.stream, old(tokens.consumed), storage, iterated, old(tokens.errors)))
      decreases |tokens.stream| - tokens.consumed, 34
    {
      var block := ParseBlock();
      if block.Crash? {
        return Crash;
      }
      return Ok(ForEach(storage, iterated, OrNull(block)));
    }

    /** parseBlock: a braced list of statements, or one statement, ";" and a second statement. */
    method ParseBlock() returns (r: Outcome<Stmt>)
      requires tokens.Valid()
      modifies tokens, tokens.buffer
      ensures tokens.Valid()
      ensures Did(r, Grammar.ParseBlock(tokens.stream, old(tokens.consumed), old(tokens.errors)))
      decreases |tokens.stream| - tokens.consumed, 33
    {
      if tokens.PeekType() == Some(TokLeftBrace) {
        tokens.Discard(1);
        var stmts := BlockItems();
        if !stmts.Ok? {
          return Fail(stmts);
        }
        return Ok(BlockStmt(stmts.value));
      }
      var current := SeparatedStatement();
      if !current.Ok? {
        return Fail(current);
      }
      var second := ParseStatement();
      if second.Crash? {
        return Crash;
      }
      return Ok(BlockStmt([OrNull(second)]));
    }

    /** The loop of parseBlock: statements, each ended by ";", up to "}" or the end-of-file token. */
    method BlockItems() returns (r: Outcome<seq<Option<Stmt>>>)
      requires tokens.Valid()
      modifies tokens, tokens.buffer
      ensures tokens.Valid()
      ensures Did(r, Grammar.BlockItems(tokens.stream, old(tokens.consumed), [], old(tokens.errors)))
      decreases |tokens.stream| - tokens.consumed, 33
    {
      ghost var whole := Grammar.BlockItems(tokens.stream, tokens.consumed, [], tokens.errors);
      var stmts: seq<Option<Stmt>> := [];
      while true
        invariant tokens.Valid() && tokens.consumed >= old(tokens.consumed)
        invariant whole == Grammar.BlockItems(tokens.stream, tokens.consumed, stmts, tokens.errors)
        decreases |tokens.stream| - tokens.consumed
      {
        var tt := tokens.PeekType();
        if tt == Some(TokRightBrace) || tt == Some(TokEof) {
          r := Terminated(TokRightBrace, stmts);
          return;
        }
        var current := SeparatedStatement();
        if !current.Ok? {
          return Fail(current);
        }
        stmts := stmts + [Some(current.value)];
      }
    }

    method SeparatedStatement() returns (r: Outcome<Stmt>)
      requires tokens.Valid()
      modifies tokens, tokens.buffer
      ensures tokens.Valid()
      ensures Did(r, Grammar.SeparatedStatement(tokens.stream, old(tokens.consumed), old(tokens.errors)))
      decreases |tokens.stream| - tokens.consumed, 32
    {
      var current := ParseStatement();
      if !current.Ok? {
        return Fail(current);
      }
      r := Terminated(TokSemicolon, current.value);
    }

    /** The listener's throwExpected: records that one of `kinds` was expected. */
    method ReportExpected(kinds: seq<TokenKind>)
      modifies tokens`errors
      ensures tokens.errors == old(tokens.errors) + [Expected(kinds)]
    {
      tokens.errors := tokens.errors + [Expected(kinds)];
    }

    /**
     * parseVariableOrConstant: "var" or "const", a simple name (dereferenced, so a
     * missing one is a TypeError), an optional type, an initializer that a constant
     * must have, and a ";" only when `semicolon` is set.
     */
    method ParseVariableOrConstant(annots: Option<seq<Annotation>>, semicolon: bool) returns (r: Outcome<Stmt>)
      requires tokens.Valid() && (tokens.NextKind() == Some(TokVar) || tokens.NextKind() == Some(TokConst))
      modifies tokens, tokens.buffer
      ensures tokens.Valid()
      ensures Did(r, Grammar.ParseVariableOrConstant(tokens.stream, old(tokens.consumed), annots, semicolon, old(tokens.errors)))
      decreases |tokens.stream| - tokens.consumed, 30
    {
      var isConst := tokens.PeekType() == Some(TokConst);
      var name := NameAfter(tokens.PeekType().value, false);
      if !name.Ok? {
        return Crash;
      }
      r := TypedStorage(annots, name.value, isConst, semicolon);
    }

    method TypedStorage(annots: Option<seq<Annotation>>, name: Name, isConst: bool, semicolon: bool) returns (r: Outcome<Stmt>)
      requires tokens.Valid()
      modifies tokens, tokens.buffer
      ensures tokens.Valid()
      ensures Did(r, Grammar.TypedStorage(tokens.stream, old(tokens.consumed), annots, name, isConst, semicolon, old(tokens.errors)))
    {
      var typ := OptionalType();
      if typ.Crash? {
        return Crash;
      }
      r := StorageInit(annots, name, typ.value, isConst, semicolon);
    }

    /** The initializer part of parseVariableOrConstant and its optional ";". */
    method StorageInit(annots: Option<seq<Annotation>>, name: Name, typ: Option<TypeReference>, isConst: bool, semicolon: bool)
      returns (r: Outcome<Stmt>)
      requires tokens.Valid()
      modifies tokens, tokens.buffer
      ensures tokens.Valid()
      ensures Did(r, Grammar.StorageInit(tokens.stream, old(tokens.consumed), annots, name, typ, isConst, semicolon, old(tokens.errors)))
    {
      if tokens.PeekType() == Some(TokAssign) {
        tokens.Discard(1);
        var init := ParseExpression();
        if init.Crash? {
          return Crash;
        }
        r := StorageEnd(semicolon, StorageDeclaration(annots, Some(name), typ, isConst, OrNull(init)));
      } else if isConst {
        var ok := ExpectedOneOf([TokAssign]);
        return Stop(ok);
      } else {
        r := StorageEnd(semicolon, StorageDeclaration(annots, Some(name), typ, false, None));
      }
    }

    /** The optional ";" that ends a variable declaration. */
    method StorageEnd(semicolon: bool, decl: Stmt) returns (r: Outcome<Stmt>)
      requires tokens.Valid()
      modifies tokens, tokens.buffer
      ensures tokens.Valid()
      ensures Did(r, Grammar.StorageEnd(tokens.stream, old(tokens.consumed), semicolon, decl, old(tokens.errors)))
    {
      if !semicolon {
        return Ok(decl);
      }
      r := Terminated(TokSemicolon, decl);
    }

    /** parseTypeDeclaration: "class", a name, "{", the members, and one token discarded unchecked. */
    method ParseTypeDeclaration(annots: Option<seq<Annotation>>) returns (r: Outcome<Stmt>)
      requires tokens.Valid() && tokens.NextKind() == Some(TokClass)
      modifies tokens, tokens.buffer
      ensures tokens.Valid()
      ensures Did(r, Grammar.ParseTypeDeclaration(tokens.stream, old(tokens.consumed), annots, old(tokens.errors)))
      decreases |tokens.stream| - tokens.consumed, 32
    {
      DiscardExpected(TokClass);
      r := TypeNamed(annots);
    }

    /** A type declaration after "class": the name it requires, then the body. */
    method TypeNamed(annots: Option<seq<Annotation>>) returns (r: Outcome<Stmt>)
      requires tokens.Valid()
      modifies tokens, tokens.buffer
      ensures tokens.Valid()
      ensures Did(r, Grammar.TypeNamed(tokens.stream, old(tokens.consumed), annots, old(tokens.errors)))
      decreases |tokens.stream| - tokens.consumed, 34
    {
      var ok := ExpectedOneOf([TokName]);
      if ok != Ok(true) {
        return Stop(ok);
      }
      var name := ParseName(true);
      r := TypeBody(annots, name.value);
    }

    method TypeBody(annots: Option<seq<Annotation>>, name: Name) returns (r: Outcome<Stmt>)
      requires tokens.Valid()
      modifies tokens, tokens.buffer
      ensures tokens.Valid()
      ensures Did(r, Grammar.TypeBody(tokens.stream, old(tokens.consumed), annots, name, old(tokens.errors)))
      decreases |tokens.stream| - tokens.consumed, 33
    {
      if tokens.PeekType() != Some(TokLeftBrace) {
        return Null;
      }
      r := TypeMembers(annots, name);
    }

    /** The braced part of parseTypeDeclaration: "{", the members and the closing "}". */
    method TypeMembers(annots: Option<seq<Annotation>>, name: Name) returns (r: Outcome<Stmt>)
      requires tokens.Valid() && tokens.NextKind() == Some(TokLeftBrace)
      modifies tokens, tokens.buffer
      ensures tokens.Valid()
      ensures Did(r, Grammar.TypeBody(tokens.stream, old(tokens.consumed), annots, name, old(tokens.errors)))
      decreases |tokens.stream| - tokens.consumed, 32
    {
      ghost var q, e := tokens.consumed, tokens.errors;
      tokens.Discard(1);
      var members := ParseMembers();
      ghost var m := MembersFrom(tokens.stream, q + 1, [], e);
      if members.Crash? {
        return Crash;
      }
      r := Unchecked(TypeDeclaration(annots, name, members.value));
      assert Grammar.TypeBody(tokens.stream, q, annots, name, e) ==
             Grammar.Unchecked(tokens.stream, m.pos, TypeDeclaration(annots, name, m.out.value), m.log);
    }

    /**
     * The member loop of parseTypeDeclaration: annotations, access mode and name,
     * then a property when ":" or "=" follows; otherwise the error ends the loop.
     */
    method ParseMembers() returns (r: Outcome<seq<Option<Property>>>)
      requires tokens.Valid()
      modifies tokens, tokens.buffer
      ensures tokens.Valid()
      ensures Did(r, MembersFrom(tokens.stream, old(tokens.consumed), [], old(tokens.errors)))
      decreases |tokens.stream| - tokens.consumed, 31
    {
      ghost var whole := MembersFrom(tokens.stream, tokens.consumed, [], tokens.errors);
      var properties: seq<Option<Property>> := [];
      while tokens.PeekType() != Some(TokRightBrace)
        invariant tokens.Valid() && tokens.consumed >= old(tokens.consumed)
        invariant whole == MembersFrom(tokens.stream, tokens.consumed, properties, tokens.errors)
        decreases |tokens.stream| - tokens.consumed
      {
        var annots := ParseAnnotations();
        if annots.Crash? {
          return Crash;
        }
        var access := ParseAccessMode();
        var name := ParseName(true);
        if name.Crash? {
          return Crash;
        }
        if tokens.PeekType() == Some(TokColon) || tokens.PeekType() == Some(TokAssign) {
          var property := ParseProperty(annots.value, access, OrNull(name));
          if property.Crash? {
            return Crash;
          }
          properties := properties + [OrNull(property)];
        } else {
          ReportExpected([TokVar, TokConst]);
          return Ok(properties);
        }
      }
      return Ok(properties);
    }

    /** parseProperty: the member's name is dereferenced, then an optional type, an optional initializer and ";". */
    method ParseProperty(annots: seq<Annotation>, access: AccessMode, name: Option<Name>) returns (r: Outcome<Property>)
      requires tokens.Valid()
      modifies tokens, tokens.buffer
      ensures tokens.Valid()
      ensures Did(r, Grammar.ParseProperty(tokens.stream, old(tokens.consumed), annots, access, name, old(tokens.errors)))
      decreases |tokens.stream| - tokens.consumed, 30
    {
      if name.None? {
        return Crash;
      }
      var typ := OptionalType();
      if typ.Crash? {
        return Crash;
      }
      var init: Option<Expr> := None;
      if tokens.PeekType() == Some(TokAssign) {
        var i := ParseInitializer();
        if i.Crash? {
          return Crash;
        }
        init := i.value;
      }
      r := Terminated(TokSemicolon, Property(annots, access, name.value, typ.value, init));
    }

    /** The "=" and expression of a property's initializer. */
    method ParseInitializer() returns (r: Outcome<Option<Expr>>)
      requires tokens.Valid() && tokens.NextKind() == Some(TokAssign)
      modifies tokens, tokens.buffer
      ensures tokens.Valid()
      ensures Did(r, Grammar.ParseInitializer(tokens.stream, old(tokens.consumed), old(tokens.errors)))
      decreases |tokens.stream| - tokens.consumed, 25
    {
      tokens.Discard(1);
      var init := ParseExpression();
      if init.Crash? {
        return Crash;
      }
      return Ok(OrNull(init));
    }

    /** parseFunction: "function", a name, "(" checked, the parameters, an optional return type and a block. */
    method ParseFunction(annots: Option<seq<Annotation>>) returns (r: Outcome<Stmt>)
      requires tokens.Valid() && tokens.NextKind() == Some(TokFunction)
      modifies tokens, tokens.buffer
      ensures tokens.Valid()
      ensures Did(r, Grammar.ParseFunction(tokens.stream, old(tokens.consumed), annots, old(tokens.errors)))
      decreases |tokens.stream| - tokens.consumed, 33
    {
      var name := NameAfter(TokFunction, true);
      if name.Crash? {
        return Crash;
      }
      var ok := ExpectedOneOf([TokLeftPar]);
      if ok != Ok(true) {
        return Stop(ok);
      }
      r := FunctionRest(annots, OrNull(name));
    }

    method FunctionRest(annots: Option<seq<Annotation>>, name: Option<Name>) returns (r: Outcome<Stmt>)
      requires tokens.Valid()
      modifies tokens, tokens.buffer
      ensures tokens.Valid()
      ensures Did(r, Grammar.FunctionRest(tokens.stream, old(tokens.consumed), annots, name, old(tokens.errors)))
    {
      var params := ParseFormalParameters();
      if params.Crash? {
        return Crash;
      }
      r := FunctionBody(annots, name, OrNull(params));
    }

    method FunctionBody(annots: Option<seq<Annotation>>, name: Option<Name>, params: Option<seq<FormalParameter>>)
      returns (r: Outcome<Stmt>)
      requires tokens.Valid()
      modifies tokens, tokens.buffer
      ensures tokens.Valid()
      ensures Did(r, Grammar.FunctionBody(tokens.stream, old(tokens.consumed), annots, name, params, old(tokens.errors)))
    {
      var typ := OptionalType();
      if typ.Crash? {
        return Crash;
      }
      var block := ParseBlock();
      if block.Crash? {
        return Crash;
      }
      return Ok(Function(annots, name, typ.value, params, OrNull(block)));
    }

    /** parseFormalParameters: null unless "(" is next; then names with types, commas skipped, up to ")". */
    method ParseFormalParameters() returns (r: Outcome<seq<FormalParameter>>)
      requires tokens.Valid()
      modifies tokens, tokens.buffer
      ensures tokens.Valid()
      ensures Did(r, Grammar.ParseFormalParameters(tokens.stream, old(tokens.consumed), old(tokens.errors)))
    {
      if tokens.PeekType() != Some(TokLeftPar) {
        return Null;
      }
      tokens.Discard(1);
      r := ParseParameterList();
    }

    /** The loop of parseFormalParameters: parameters, with any number of "," between them, up to the closing ")". */
    method ParseParameterList() returns (r: Outcome<seq<FormalParameter>>)
      requires tokens.Valid()
      modifies tokens, tokens.buffer
      ensures tokens.Valid()
      ensures Did(r, ParametersFrom(tokens.stream, old(tokens.consumed), [], old(tokens.errors)))
    {
      ghost var whole := ParametersFrom(tokens.stream, tokens.consumed, [], tokens.errors);
      var output: seq<FormalParameter> := [];
      while tokens.PeekType() != Some(TokRightPar)
        invariant tokens.Valid()
        invariant whole == ParametersFrom(tokens.stream, tokens.consumed, output, tokens.errors)
        decreases |tokens.stream| - tokens.consumed
      {
        if tokens.PeekType() == Some(TokComa) {
          tokens.Discard(1);
          continue;
        }
        var param := ParseFormalParameter();
        if !param.Ok? {
          return Fail(param);
        }
        output := output + [param.value];
      }
      tokens.Discard(1);
      return Ok(output);
    }

    method ParseFormalParameter() returns (r: Outcome<FormalParameter>)
      requires tokens.Valid()
      modifies tokens, tokens.buffer
      ensures tokens.Valid()
      ensures Did(r, Grammar.ParseFormalParameter(tokens.stream, old(tokens.consumed), old(tokens.errors)))
    {
      var name := ParseName(true);
      if name.Crash? {
        return Crash;
      }
      var ok := ExpectedOneOf([TokColon]);
      if ok != Ok(true) {
        return Stop(ok);
      }
      tokens.Discard(1);
      var typeName := ParseName(true);
      if typeName.Crash? {
        return Crash;
      }
      return Ok(FormalParameter(OrNull(name), TypeReference(OrNull(typeName))));
    }

    /* ---------------------------------------------------------------- top level */

    /** parseNamespace: "namespace", a name, "{", top-level statements and "}". */
    method ParseNamespace(annots: Option<seq<Annotation>>) returns (r: Outcome<Stmt>)
      requires tokens.Valid() && tokens.NextKind() == Some(TokNamespace)
      modifies tokens, tokens.buffer
      ensures tokens.Valid()
      ensures Did(r, Grammar.ParseNamespace(tokens.stream, old(tokens.consumed), annots, old(tokens.errors)))
      decreases |tokens.stream| - tokens.consumed, 33
    {
      var name := NameAfter(TokNamespace, true);
      if !name.Ok? {
        return Fail(name);
      }
      r := NamespaceBody(annots, name.value);
    }

    method NamespaceBody(annots: Option<seq<Annotation>>, name: Name) returns (r: Outcome<Stmt>)
      requires tokens.Valid()
      modifies tokens, tokens.buffer
      ensures tokens.Valid()
      ensures Did(r, Grammar.NamespaceBody(tokens.stream, old(tokens.consumed), annots, name, old(tokens.errors)))
      decreases |tokens.stream| - tokens.consumed, 33
    {
      var ok := ExpectedOneOf([TokLeftBrace]);
      if ok != Ok(true) {
        return Stop(ok);
      }
      var body := BracedTopLevelStatements();
      if body.Crash? {
        return Crash;
      }
      r := Terminated(TokRightBrace, Namespace(annots, name, body.value));
    }

    /** Discards the "{" that opens a namespace and parses the top-level statements after it. */
    method BracedTopLevelStatements() returns (r: Outcome<seq<Stmt>>)
      requires tokens.Valid() && tokens.NextKind() == Some(TokLeftBrace)
      modifies tokens, tokens.buffer
      ensures tokens.Valid()
      ensures Did(r, TopLevelFrom(tokens.stream, old(tokens.consumed) + 1, [], old(tokens.errors)))
      decreases |tokens.stream| - tokens.consumed, 32
    {
      tokens.Discard(1);
      r := ParseTopLevelStatements();
    }

    /** One top-level statement, chosen by the next token's kind. */
    method TopLevelStatement(annots: Option<seq<Annotation>>) returns (r: Outcome<Stmt>)
      requires tokens.Valid() && StartsTopLevel(tokens.NextKind())
      modifies tokens, tokens.buffer
      ensures tokens.Valid()
      ensures Did(r, Grammar.TopLevelStatement(tokens.stream, old(tokens.consumed), annots, old(tokens.errors)))
      decreases |tokens.stream| - tokens.consumed, 34
    {
      match tokens.PeekType().value
      case TokImport => r := ParseImport();
      case TokNamespace => r := ParseNamespace(annots);
      case TokVar => r := ParseVariableOrConstant(annots, true);
      case TokClass => r := ParseTypeDeclaration(annots);
      case TokFunction => r := ParseFunction(annots);
    }

    /**
     * parseTopLevelStatements: optional annotations and then an import, namespace,
     * variable, type or function, until another token or a null statement.
     */
    method ParseTopLevelStatements() returns (r: Outcome<seq<Stmt>>)
      requires tokens.Valid()
      modifies tokens, tokens.buffer
      ensures tokens.Valid()
      ensures Did(r, TopLevelFrom(tokens.stream, old(tokens.consumed), [], old(tokens.errors)))
      decreases |tokens.stream| - tokens.consumed, 35
    {
      ghost var whole := TopLevelFrom(tokens.stream, tokens.consumed, [], tokens.errors);
      var stmts: seq<Stmt> := [];
      while true
        invariant tokens.Valid() && tokens.consumed >= old(tokens.consumed)
        invariant whole == TopLevelFrom(tokens.stream, tokens.consumed, stmts, tokens.errors)
        decreases |tokens.stream| - tokens.consumed
      {
        var tt := tokens.PeekType();
        var annots: Option<seq<Annotation>> := None;
        if tt == Some(TokAt) {
          var a := ParseAnnotations();
          if a.Crash? {
            return Crash;
          }
          annots := Some(a.value);
          tt := tokens.PeekType();
        }
        if !StartsTopLevel(tt) {
          return Ok(stmts);
        }
        var stmt := TopLevelStatement(annots);
        if stmt.Crash? {
          return Crash;
        }
        if stmt.Null? {
          return Ok(stmts);
        }
        stmts := stmts + [stmt.value];
      }
    }

    /** parse: the compilation unit "builtin" with the top-level statements that follow. */
    method Parse() returns (r: Outcome<CompilationUnit>)
      requires tokens.Valid()
      modifies tokens, tokens.buffer
      ensures tokens.Valid()
      ensures Did(r, Grammar.Parse(tokens.stream, old(tokens.consumed), old(tokens.errors)))
    {
      var stmts := ParseTopLevelStatements();
      if stmts.Crash? {
        return Crash;
      }
      return Ok(CompilationUnit("builtin", stmts.value));
    }
}}
