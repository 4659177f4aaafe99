/**
 * Tokens as the scanner produces them, and the diagnostics the shared
 * listener receives from the parser.
 */
module Tokens {
  import opened Wrappers

  /** The token kinds the parser tells apart; `TokOther` stands for every other kind. */
  datatype TokenKind =
    | TokName | TokDot | TokMul | TokImport | TokAs | TokSemicolon | TokNamespace
    | TokLeftBrace | TokRightBrace | TokAt | TokVar | TokConst | TokClass | TokFunction | TokEof
    | TokReturn | TokIf | TokElif | TokThen | TokElse | TokFor | TokIn | TokColon
    | TokPublic | TokProtected | TokPrivate | TokLeftPar | TokRightPar | TokComa
    | TokAssign | TokPlusAssign | TokMinusAssign | TokMulAssign | TokDivAssign | TokBandAssign
    | TokBorAssign | TokXorAssign | TokShlAssign | TokShrAssign | TokModAssign
    | TokOr | TokAnd | TokEq | TokNe | TokGt | TokGe | TokLt | TokLe
    | TokNot | TokIs | TokNin | TokNis | TokMinus | TokPlus | TokDiv | TokMod | TokInc | TokDec
    | TokLeftBracket | TokRightBracket
    | TokNull | TokTrue | TokFalse
    | TokHexLiteral | TokBinLiteral | TokOctLiteral | TokDecLiteral | TokFpLiteral | TokStringLiteral
    | TokOther(tag: string)

  datatype Location = Location(line: nat, column: nat)

  /** A scanned token; two tokens are "the same object" exactly when they are equal values. */
  datatype Token = Token(kind: TokenKind, value: string, loc: Location)

  /** What the listener is told: a syntax error listing the kinds that were acceptable. */
  datatype Diagnostic = Expected(kinds: seq<TokenKind>)

  /**
   * The token that is `k` reads away in a scanner stream: the scanner returns the
   * tokens of `stream` in order and null forever after.
   */
  function At(stream: seq<Token>, k: nat): Option<Token>
  {
    if k < |stream| then Some(stream[k]) else None
  }

  /** The kind of the token `k` reads away, or null past the end of the stream. */
  function Kind(stream: seq<Token>, k: nat): Option<TokenKind>
  {
    if k < |stream| then Some(stream[k].kind) else None
  }

  /** The token `i` places after `p` exists, has kind `kinds[i]` and, past the first, is not the first token again. */
  predicate MatchAt(stream: seq<Token>, p: nat, kinds: seq<TokenKind>, i: nat)
    requires i < |kinds|
  {
    p + i < |stream| && stream[p + i].kind == kinds[i] && (i != 0 ==> stream[p + i] != stream[p])
  }

  /** The next `|kinds|` tokens from `p` on have exactly those kinds and none repeats the first token. */
  predicate Matches(stream: seq<Token>, p: nat, kinds: seq<TokenKind>)
  {
    forall i :: 0 <= i < |kinds| ==> MatchAt(stream, p, kinds, i)
  }

  /** No token object occurs twice in the stream. */
  predicate Distinct(stream: seq<Token>)
  {
    forall i, j :: 0 <= i < j < |stream| ==> stream[i] != stream[j]
  }

  function Min(a: nat, b: nat): nat
  {
    if a <= b then a else b
  }
}
