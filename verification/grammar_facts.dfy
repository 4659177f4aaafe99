/**
 * Properties of the grammar in `Grammar`: the item list of a block appends to
 * what it is given, a unit holds only declarations, a braced block holds no null
 * statement, the top-level list ends silently at a token it does not know, and
 * the token-level details of operators and literals.
 */
module GrammarFacts {
  import opened Wrappers
  import opened Tokens
  import opened Tree
  import opened Grammar

  /* ---------------------------------------------------------------- lists */

  /** The braced block's item list started with `acc` is `acc` followed by the list started empty, with the same end and log. */
  lemma {:induction false} BlockItemsAppend(s: seq<Token>, q: nat, acc: seq<Option<Stmt>>, e: seq<Diagnostic>)
    requires q <= |s|
    ensures BlockItems(s, q, acc, e).pos == BlockItems(s, q, [], e).pos
    ensures BlockItems(s, q, acc, e).log == BlockItems(s, q, [], e).log
    ensures BlockItems(s, q, acc, e).out.Ok? <==> BlockItems(s, q, [], e).out.Ok?
    ensures BlockItems(s, q, acc, e).out.Ok? ==> BlockItems(s, q, acc, e).out.value == acc + BlockItems(s, q, [], e).out.value
    decreases |s| - q
  {
    var k := Kind(s, q);
    if !(k == Some(TokRightBrace) || k == Some(TokEof)) {
      var st := SeparatedStatement(s, q, e);
      if st.out.Ok? {
        var item := Some(st.out.value);
        assert BlockItems(s, q, acc, e) == BlockItems(s, st.pos, acc + [item], st.log);
        assert [] + [item] == [item];
        assert BlockItems(s, q, [], e) == BlockItems(s, st.pos, [item], st.log);
        BlockItemsAppend(s, st.pos, acc + [item], st.log);
        BlockItemsAppend(s, st.pos, [item], st.log);
        var rest := BlockItems(s, st.pos, [], st.log);
        if rest.out.Ok? {
          assert acc + [item] + rest.out.value == acc + ([item] + rest.out.value);
        }
      }
    }
  }

  /** A braced block never holds a null statement: each item parsed and was followed by its ";". */
  lemma {:induction false} BracedItemsAreStatements(s: seq<Token>, q: nat, acc: seq<Option<Stmt>>, e: seq<Diagnostic>)
    requires q <= |s| && forall i :: 0 <= i < |acc| ==> acc[i].Some?
    ensures BlockItems(s, q, acc, e).out.Ok? ==>
              forall i :: 0 <= i < |BlockItems(s, q, acc, e).out.value| ==> BlockItems(s, q, acc, e).out.value[i].Some?
    decreases |s| - q
  {
    var k := Kind(s, q);
    if !(k == Some(TokRightBrace) || k == Some(TokEof)) {
      var st := SeparatedStatement(s, q, e);
      if st.out.Ok? {
        BracedItemsAreStatements(s, st.pos, acc + [Some(st.out.value)], st.log);
      }
    }
  }

  /* ---------------------------------------------------------------- units */

  /** The statement kinds a unit may hold at top level. */
  predicate IsDeclaration(st: Stmt)
  {
    st.TypeImport? || st.Namespace? || st.StorageDeclaration? || st.TypeDeclaration? || st.Function?
  }

  /** Every kind of import the import production builds is a `TypeImport`. */
  lemma ImportIsTypeImport(s: seq<Token>, p: nat, e: seq<Diagnostic>)
    requires p <= |s|
    ensures ParseImport(s, p, e).out.Ok? ==> ParseImport(s, p, e).out.value.TypeImport?
  {
    if Kind(s, p) == Some(TokImport) {
      var n := ParseName(s, p + 1, true, e);
      if n.out.Ok? {
        var q := n.pos;
        if Kind(s, q) == Some(TokAs) {
          var a := ParseName(s, q + 1, true, n.log);
        }
      }
    }
  }

  /** A top-level statement that parses is a declaration. */
  lemma TopLevelStatementIsDeclaration(s: seq<Token>, p: nat, annots: Option<seq<Annotation>>, e: seq<Diagnostic>)
    requires p < |s| && StartsTopLevel(Some(s[p].kind))
    ensures TopLevelStatement(s, p, annots, e).out.Ok? ==> IsDeclaration(TopLevelStatement(s, p, annots, e).out.value)
  {
    if s[p].kind == TokImport {
      ImportIsTypeImport(s, p, e);
    }
  }

  /** Every statement of a parsed unit is a declaration; nothing else is accepted at top level. */
  lemma {:induction false} UnitHoldsDeclarations(s: seq<Token>, p: nat, acc: seq<Stmt>, e: seq<Diagnostic>)
    requires p <= |s| && forall i :: 0 <= i < |acc| ==> IsDeclaration(acc[i])
    ensures TopLevelFrom(s, p, acc, e).out.Ok? ==>
              forall i :: 0 <= i < |TopLevelFrom(s, p, acc, e).out.value| ==> IsDeclaration(TopLevelFrom(s, p, acc, e).out.value[i])
    decreases |s| - p
  {
    var a := if Kind(s, p) == Some(TokAt) then ParseAnnotations(s, p, e) else Parsed(Ok([]), p, e);
    if !a.out.Crash? && StartsTopLevel(Kind(s, a.pos)) {
      var annots := if Kind(s, p) == Some(TokAt) then Some(a.out.value) else None;
      var st := TopLevelStatement(s, a.pos, annots, a.log);
      if st.out.Ok? {
        TopLevelStatementIsDeclaration(s, a.pos, annots, a.log);
        UnitHoldsDeclarations(s, st.pos, acc + [st.out.value], st.log);
      }
    }
  }

  /**
   * At a token that starts no top-level statement, and is no annotation, the
   * list ends where it is, with what it has, and nothing is reported: the
   * final `else` of parseTopLevelStatements (compiler/Parser.ts:314-318),
   * whose report is commented out, only breaks out of the loop.
   */
  lemma UnknownTokenEndsTopLevel(s: seq<Token>, p: nat, acc: seq<Stmt>, e: seq<Diagnostic>)
    requires p <= |s| && Kind(s, p) != Some(TokAt) && !StartsTopLevel(Kind(s, p))
    ensures TopLevelFrom(s, p, acc, e) == Parsed(Ok(acc), p, e)
  {
  }

  /**
   * A unit never comes out null: it parses, with a possibly empty statement
   * list, or the parse dies. `parse` (compiler/Parser.ts:162-184) always
   * builds the unit "builtin" and ignores what parseTopLevelStatements does.
   */
  lemma UnitNeverNull(s: seq<Token>)
    ensures Parse(s, 0, []).out.Ok? || Parse(s, 0, []).out.Crash?
    ensures Parse(s, 0, []).out.Ok? ==> Parse(s, 0, []).out.value.name == "builtin"
  {
  }

  /* ---------------------------------------------------------------- blocks */

  /**
   * A block without braces holds one item: the second statement parse, possibly
   * null. The first statement must parse and be followed by ";", and is dropped.
   */
  lemma UnbracedBlockKeepsSecondParse(s: seq<Token>, p: nat, e: seq<Diagnostic>)
    requires p <= |s| && Kind(s, p) != Some(TokLeftBrace)
    ensures ParseBlock(s, p, e).out.Ok? <==>
              SeparatedStatement(s, p, e).out.Ok? &&
              !ParseStatement(s, SeparatedStatement(s, p, e).pos, SeparatedStatement(s, p, e).log).out.Crash?
    ensures ParseBlock(s, p, e).out.Ok? ==>
              ParseBlock(s, p, e).out.value ==
                BlockStmt([OrNull(ParseStatement(s, SeparatedStatement(s, p, e).pos, SeparatedStatement(s, p, e).log).out)])
  {
  }

  /* ---------------------------------------------------------------- tokens */

  /**
   * An access keyword yields its own mode and is consumed; any other token
   * yields the protected default and stays where it is.
   */
  lemma AccessModeKeywords(s: seq<Token>, p: nat)
    requires p <= |s|
    ensures ParseAccessMode(s, p).0 == Public <==> Kind(s, p) == Some(TokPublic)
    ensures ParseAccessMode(s, p).0 == Private <==> Kind(s, p) == Some(TokPrivate)
    ensures ParseAccessMode(s, p).0 == Protected <==> Kind(s, p) != Some(TokPublic) && Kind(s, p) != Some(TokPrivate)
    ensures ParseAccessMode(s, p).1 == p + 1 <==> Kind(s, p) in {Some(TokPublic), Some(TokProtected), Some(TokPrivate)}
    ensures ParseAccessMode(s, p).1 != p + 1 ==> ParseAccessMode(s, p).1 == p
  {
  }

  /**
   * "not in" and "not is" are each folded into one operator spanning both
   * tokens; "in" and "is" alone span one; a "not" followed by anything else,
   * or by nothing, is no named operator.
   */
  lemma NamedOperatorTokens(s: seq<Token>, q: nat)
    requires q < |s|
    ensures s[q].kind == TokNot && Kind(s, q + 1) == Some(TokIn) ==> NamedOperator(s, q) == (Some(TokNin), q + 2)
    ensures s[q].kind == TokNot && Kind(s, q + 1) == Some(TokIs) ==> NamedOperator(s, q) == (Some(TokNis), q + 2)
    ensures s[q].kind == TokIn ==> NamedOperator(s, q) == (Some(TokIn), q + 1)
    ensures s[q].kind == TokIs ==> NamedOperator(s, q) == (Some(TokIs), q + 1)
    ensures s[q].kind == TokNot && Kind(s, q + 1) != Some(TokIn) && Kind(s, q + 1) != Some(TokIs) ==>
              NamedOperator(s, q) == (None, q)
  {
  }

  /**
   * A hexadecimal or binary literal keeps its digits after the two-character
   * prefix (none when the text is shorter); octal and decimal keep all of them.
   */
  lemma IntegerLiteralDigits(s: seq<Token>, p: nat, e: seq<Diagnostic>)
    requires p < |s| && s[p].kind in IntegerKinds
    ensures s[p].kind == TokHexLiteral ==> ParseIntegerLiteral(s, p, e).out.value == IntegerLiteral(DropPrefix(s[p].value), 16)
    ensures s[p].kind == TokBinLiteral ==> ParseIntegerLiteral(s, p, e).out.value == IntegerLiteral(DropPrefix(s[p].value), 2)
    ensures s[p].kind == TokOctLiteral ==> ParseIntegerLiteral(s, p, e).out.value == IntegerLiteral(s[p].value, 8)
    ensures s[p].kind == TokDecLiteral ==> ParseIntegerLiteral(s, p, e).out.value == IntegerLiteral(s[p].value, 10)
    ensures |s[p].value| >= 2 && s[p].kind in {TokHexLiteral, TokBinLiteral} ==>
              ParseIntegerLiteral(s, p, e).out.value.digits == s[p].value[2..]
  {
  }

  /**
   * The right side of "is" and "not is" is a name and nothing more: the parse
   * ends where the name ends, so a "(" after it is left for the caller.
   */
  lemma IsTakesOnlyAName(s: seq<Token>, q: nat, left: Expr, op: TokenKind, e: seq<Diagnostic>)
    requires q <= |s| && (op == TokIs || op == TokNis)
    ensures NamedInfixRight(s, q, left, op, e).pos == ParseName(s, q, true, e).pos
    ensures NamedInfixRight(s, q, left, op, e).out.Ok? <==> !ParseName(s, q, true, e).out.Crash?
    ensures NamedInfixRight(s, q, left, op, e).out.Ok? ==>
              NamedInfixRight(s, q, left, op, e).out.value == Binary(left, op, Some(NameLiteral(OrNull(ParseName(s, q, true, e).out))))
  {
  }

  /** A name token followed by no postfix operator is, at the multiplicative tier, a one-part name. */
  lemma SimpleNameOperand(s: seq<Token>, p: nat, e: seq<Diagnostic>)
    requires p < |s| && s[p].kind == TokName
    requires Kind(s, p + 1) != Some(TokDot) && Kind(s, p + 1) != Some(TokInc) && Kind(s, p + 1) != Some(TokDec)
    requires Kind(s, p + 1) != Some(TokLeftBracket) && Kind(s, p + 1) != Some(TokLeftPar)
    requires !IsOperator(MultiplicativeLevel, Kind(s, p + 1))
    ensures Tier(MultiplicativeLevel, s, p, e) == Parsed(Ok(NameLiteral(Some(Name([s[p].value], s[p].loc)))), p + 1, e)
  {
    assert NameTail(s, p + 1) == ([], p + 1);
    assert Kind(s, p) != Some(TokLeftPar);
    assert Expect(s, p, [TokName], e) == Parsed(Ok(true), p, e);
    assert [s[p].value] + [] == [s[p].value];
    assert ParseName(s, p, true, e) == Parsed(Ok(Name([s[p].value], s[p].loc)), p + 1, e);
    assert ParseAtomic(s, p, e) == Parsed(Ok(NameLiteral(Some(Name([s[p].value], s[p].loc)))), p + 1, e);
    assert ParsePostfixUnary(s, p, e) == ParseAtomic(s, p, e);
    assert ParsePrefixUnary(s, p, e) == ParsePostfixUnary(s, p, e);
    assert Operand(MultiplicativeLevel, s, p, e) == ParsePrefixUnary(s, p, e);
  }

  /** A tier whose operand is followed by one of its operators is that operator applied to the operand and the rest of the tier. */
  lemma TierStep(l: Level, s: seq<Token>, p: nat, x: Expr, q: nat, y: Expr, r: nat, e: seq<Diagnostic>)
    requires p <= |s| && q < |s| && IsOperator(l, Kind(s, q))
    requires Operand(l, s, p, e) == Parsed(Ok(x), q, e)
    requires Tier(l, s, q + 1, e) == Parsed(Ok(y), r, e)
    ensures Tier(l, s, p, e) == Parsed(Ok(Binary(x, s[q].kind, Some(y))), r, e)
  {
    assert TierRight(l, s, q, x, e) == Parsed(Ok(Binary(x, s[q].kind, Some(y))), r, e);
  }

  /**
   * A tier whose operand is not followed by one of its operators is just the
   * operand: the binary productions of compiler/Parser.ts:835-852 return
   * their left side unchanged when no operator of theirs comes next.
   */
  lemma TierEnd(l: Level, s: seq<Token>, p: nat, x: Expr, q: nat, e: seq<Diagnostic>)
    requires p <= |s| && !IsOperator(l, Kind(s, q))
    requires Operand(l, s, p, e) == Parsed(Ok(x), q, e)
    ensures Tier(l, s, p, e) == Parsed(Ok(x), q, e)
  {
  }

  /** A name and a "-" before an additive tier `y` make the tier `name - y`. */
  lemma NameThenMinus(s: seq<Token>, p: nat, y: Expr, r: nat, e: seq<Diagnostic>)
    requires p + 2 <= |s| && s[p].kind == TokName && s[p + 1].kind == TokMinus
    requires Tier(AdditiveLevel, s, p + 2, e) == Parsed(Ok(y), r, e)
    ensures Tier(AdditiveLevel, s, p, e) == Parsed(Ok(Binary(NameLiteral(Some(Name([s[p].value], s[p].loc))), TokMinus, Some(y))), r, e)
  {
    SimpleNameOperand(s, p, e);
    TierStep(AdditiveLevel, s, p, NameLiteral(Some(Name([s[p].value], s[p].loc))), p + 1, y, r, e);
  }

  /** `a - b - c` parses as `a - (b - c)`. */
  lemma MinusChain(a: Token, b: Token, c: Token, m1: Token, m2: Token)
    requires a.kind == TokName && b.kind == TokName && c.kind == TokName
    requires m1.kind == TokMinus && m2.kind == TokMinus
    ensures Tier(AdditiveLevel, [a, m1, b, m2, c], 0, []).out ==
      Ok(Binary(NameLiteral(Some(Name([a.value], a.loc))), TokMinus,
        Some(Binary(NameLiteral(Some(Name([b.value], b.loc))), TokMinus, Some(NameLiteral(Some(Name([c.value], c.loc))))))))
  {
    var s := [a, m1, b, m2, c];
    var nc := NameLiteral(Some(Name([c.value], c.loc)));
    SimpleNameOperand(s, 4, []);
    TierEnd(AdditiveLevel, s, 4, nc, 5, []);
    NameThenMinus(s, 2, nc, 5, []);
    NameThenMinus(s, 0, Binary(NameLiteral(Some(Name([b.value], b.loc))), TokMinus, Some(nc)), 5, []);
  }
}
