# beagle-lang front end: token ring, parser and type inference

This project models the front end of the beagle-lang compiler in Dafny. It covers three parts.

- **The token ring** (`TokenRing`, file `token_array.dfy`) is class `TokenArray` of `compiler/Parser.ts`.
  - It is a fixed-capacity circular buffer of lookahead tokens that sits between the scanner and the parser.
  - The scanner is a finite token sequence followed by null forever.
  - A ghost counter of consumed tokens gives the buffer an abstract view. The class invariant `Valid()` says that slot `(current + i) % size` holds the token `i` places ahead, for every `i` below the capacity.
  - The scanner's `readToken` is the method `TokenArray.ReadToken`. It hands out the stream's tokens in order, and null once they run out.
  - Every operation is proved against that view: `read`, `peek`, `peekAt`, `peekType`, `peekTypeAt`, `lookahead`, `discard` and `discardIf`.
- **The recursive-descent parser** is class `Parser` of `compiler/Parser.ts`, in two forms.
  - Module `Grammar` (`grammar.dfy`) writes each production as a pure function of the token stream, the position and the syntax errors reported so far. It yields the outcome, the new position and the new error log.
  - Module `ParserImpl` (`parser.dfy`) holds the class `Parser`. It has the source's methods, which read and discard through a `TokenArray`. Each method is proved to return what its `Grammar` counterpart returns, leave the ring at the same position and report the same errors.
  - The outcome of a production is one of three things:
    - `Ok`, a node;
    - `Null`, the source's `null`;
    - `Crash`, the `TypeError` the source raises when it dereferences a null name or reads past the end of the stream. A `Crash` propagates to the top.
  - Module `GrammarFacts` (`grammar_facts.dfy`) proves properties of the grammar:
    - operator chains of a tier nest to the right, so `a - b - c` is `a - (b - c)`;
    - `is` takes only a name;
    - a unit holds only declarations and is never null;
    - a braced block holds no null statement;
    - the unbraced block form keeps only its second statement parse.
- **The type inference pass** is class `TypeInference` of `compiler/typeinf.ts`.
  - Module `Typing` (`typing.dfy`) states its rules as pure functions over the error log of the listener:
    - scope lookup and `findSymbol`;
    - `checkCompatibleTypes` and `resolveType`;
    - the type of each expression;
    - the type that a variable or property declaration records;
    - the parameter bindings of a function;
    - `processImports`.
  - Module `Inference` (`inference.dfy`) holds the classes `Scope` and `TypeInference`, plus a `Listener` that collects reported errors.
    - `TypeInference` keeps the scope stack as a field that `push` and `pop` reassign.
    - Each expression visitor, the declaration visitor, the parameter loop and `processImports` is a method proved to behave as the corresponding `Typing` rule.
    - The statement visitors are proved per kind of statement. An expression or return statement behaves as `Typing.TypeOf`. A declaration behaves as `Typing.DeclarationType`. A function's signature behaves as `Typing.SignatureBinding`.
    - After a run of statements, the scope they were visited in binds what the completed ones declared (`Inference.DeclaredAll`).
    - A statement visitor also returns the node with the type it wrote into it. The predicate `Inference.Revisited` says what a visit may change in a statement: the type of a declaration or function, the body of a function, the statements of a block, namespace or class, and nothing else.
    - `Inference.Declared` gives the entries after one completed statement, and `Inference.DeclaredAll` folds it over a run of statements.
  - Module `TypingFacts` (`typing_facts.dfy`) proves properties of the rules:
    - the innermost scope shadows the outer ones;
    - the compatibility table;
    - only four type names are primitive;
    - the last parameter of a name wins;
    - imports bind exactly the found symbols;
    - an expression built only from literals, names, groups, and unary, call, array, indexing and field expressions over those never throws.

Type objects follow the source's identity rules.
- The built-in types `string`, `number`, `boolean`, `void`, `any` and `null` are shared objects.
- Every type written in the program is an object of its own, with an identity number.
- Where `compiler/typeinf.ts` compares with `==` (`visitAssignExpr`, the first tests of `checkCompatibleTypes`), the model compares objects.
- Where it compares `toString()`, the model compares names.

## Model

| member | source | states |
|---|---|---|
| TokenRing.InitialWindow | compiler/Parser.ts:20-32 | after the constructor fills every slot from the scanner, the ring holds the first `size` tokens of the stream |
| TokenRing.ShiftWindow | compiler/Parser.ts:39-49 | replacing the slot under the cursor with the next scanned token and advancing the cursor keeps every slot matching the token the same distance ahead |
| TokenRing.MatchesDistinct | compiler/Parser.ts:85-106 | a match of two or more consecutive kinds at the current token is a match of each kind at its own offset |
| TokenRing.TokenArray.constructor | compiler/Parser.ts:20-32 | the capacity is the requested size but at least 5; with at least 5 requested, the ring is valid, nothing is consumed and no error is logged |
| TokenRing.TokenArray.Read | compiler/Parser.ts:39-49 | returns the next token of the stream and advances by one, keeping the ring valid; at the end of the stream it returns null and changes nothing |
| TokenRing.TokenArray.PeekAt | compiler/Parser.ts:56-60 | for any index, the token `index % size` places ahead in the stream, because the slot wraps round the ring; for an index below the capacity, the token `index` places ahead; null past the end of the stream |
| TokenRing.TokenArray.Peek | compiler/Parser.ts:51-54 | the next token of the stream, or null at its end |
| TokenRing.TokenArray.PeekTypeAt | compiler/Parser.ts:67-74 | for any index, the kind of the token `index % size` places ahead, wrapping as `peekAt` does; for an index below the capacity, the kind of the token `index` places ahead; none past the end of the stream |
| TokenRing.TokenArray.PeekWraps | compiler/Parser.ts:56-74 | for every index, however large, `peekAt` and `peekTypeAt` read the token and the kind `index % size` places ahead, because the slot index wraps round the ring |
| TokenRing.TokenArray.PeekType | compiler/Parser.ts:62-65 | the kind of the next token, or none at the end of the stream |
| TokenRing.TokenArray.Lookahead | compiler/Parser.ts:85-106 | true exactly when between one and capacity-minus-one kinds are given and the next tokens have those kinds in order; consumes nothing |
| TokenRing.TokenArray.Discard | compiler/Parser.ts:108-111 | skips `count` tokens, or up to the end of the stream, keeping the ring valid and reporting nothing |
| TokenRing.TokenArray.DiscardIf | compiler/Parser.ts:113-126 | when the next token has the kind it is skipped and the result is true; otherwise the error expecting that kind is reported, nothing is consumed and the result is false |
| TokenRing.TokenArray.ReadToken | compiler/Parser.ts:30 | the scanner call that feeds the ring: the next unscanned token of the stream, or null once the stream is exhausted, advancing the scan count only when a token was handed out |
| ParserImpl.LookaheadPair | compiler/Parser.ts:85-106 | a two-kind lookahead holds exactly when the next token has the first kind and the one after has the second |
| ParserImpl.Parser.constructor | compiler/Parser.ts:137-142 | the parser reads a fresh ring of 16 slots over the stream, at its start, with no error reported |
| ParserImpl.Parser.ExpectedOneOf | compiler/Parser.ts:144-153 | true when the next token has one of the kinds; otherwise an error listing them is reported; a TypeError when there is no next token; consumes nothing |
| ParserImpl.Parser.Terminated | compiler/Parser.ts:253-257 | a node is kept only when the token after it is the required one, which is then consumed |
| ParserImpl.Parser.Unchecked | compiler/Parser.ts:509-510 | a node is kept and one token is consumed without checking what it is |
| ParserImpl.Parser.DiscardExpected | compiler/Parser.ts:193 | consumes the token already known to be next, reporting nothing |
| ParserImpl.Parser.LookaheadTwo | compiler/Parser.ts:197 | true exactly when the next two tokens have the two kinds |
| ParserImpl.Parser.ExpressionAfter | compiler/Parser.ts:405-410 | with the expected token next, behaves as `Grammar.ParseExpression` one token further on |
| ParserImpl.Parser.NameAfter | compiler/Parser.ts:443-446 | with the expected token next, behaves as `Grammar.ParseName` one token further on |
| ParserImpl.Parser.NameAfterNext | compiler/Parser.ts:326-331 | whatever the next token, behaves as `Grammar.ParseName` of a qualified name one token further on |
| ParserImpl.Parser.ExpressionAfterNext | compiler/Parser.ts:448-451 | whatever the next token, behaves as `Grammar.ParseExpression` one token further on |
| ParserImpl.Parser.BlockAfterNext | compiler/Parser.ts:430-434 | whatever the next token, behaves as `Grammar.ParseBlock` one token further on |
| ParserImpl.Parser.ParseName | compiler/Parser.ts:186-205 | behaves as `Grammar.ParseName`: a name token, then ". NAME" pairs while qualified, with the first token's location |
| ParserImpl.Parser.ReadNameTail | compiler/Parser.ts:195-201 | consumes the ". NAME" pairs that follow and returns their names in order |
| ParserImpl.Parser.NamePart | compiler/Parser.ts:197-200 | with ". NAME" next, returns the name after the dot and consumes exactly those two tokens, reporting nothing |
| ParserImpl.Parser.ParseImport | compiler/Parser.ts:207-237 | behaves as `Grammar.ParseImport`: "import", a qualified name, then ".*" or "as" alias, then ";" |
| ParserImpl.Parser.ImportRest | compiler/Parser.ts:216-230 | behaves as `Grammar.ImportRest`: the wildcard or the alias after the imported name |
| ParserImpl.Parser.ImportAlias | compiler/Parser.ts:224-232 | behaves as `Grammar.ImportAlias`: the alias name after "as" and then ";" |
| ParserImpl.Parser.ImportEnd | compiler/Parser.ts:231-234 | behaves as `Grammar.ImportEnd`: the import is kept, and the ";" consumed, only when ";" follows; otherwise the result is null and nothing is reported |
| ParserImpl.Parser.ParseAnnotations | compiler/Parser.ts:322-335 | behaves as `Grammar.ParseAnnotations`: every "@" name is collected, a missing name kept as null |
| ParserImpl.Parser.ParseAccessMode | compiler/Parser.ts:516-537 | behaves as `Grammar.ParseAccessMode`, reporting nothing: by `GrammarFacts.AccessModeKeywords` it consumes "public", "protected" or "private" and yields that mode, and any other token yields protected and is not consumed |
| ParserImpl.Parser.ParseTypeAnnotation | compiler/Parser.ts:632-636 | behaves as `Grammar.ParseTypeAnnotation`: ":" and the name of the type |
| ParserImpl.Parser.OptionalType | compiler/Parser.ts:632-636 | behaves as `Grammar.OptionalType`: a type exactly when ":" follows |
| ParserImpl.Parser.ParseLiteralConstant | compiler/Parser.ts:1094-1118 | behaves as `Grammar.ParseLiteralConstant` |
| ParserImpl.Parser.ParseIntegerLiteral | compiler/Parser.ts:1120-1139 | behaves as `Grammar.ParseIntegerLiteral` |
| ParserImpl.Parser.ParseStringLiteral | compiler/Parser.ts:1141-1146 | the token's text becomes a string literal and the token is consumed |
| ParserImpl.Parser.ParseFloatLiteral | compiler/Parser.ts:1148-1152 | the token's text becomes a float literal and the token is consumed |
| ParserImpl.Parser.ParseBooleanLiteral | compiler/Parser.ts:1154-1160 | "true" becomes true, "false" false, and the token is consumed |
| ParserImpl.Parser.ParseExpression | compiler/Parser.ts:662-665 | behaves as `Grammar.ParseExpression` |
| ParserImpl.Parser.Operand | compiler/Parser.ts:675-876 | behaves as `Grammar.Operand`: the next tighter tier of the given tier |
| ParserImpl.Parser.Tier | compiler/Parser.ts:675-876 | behaves as `Grammar.Tier` for assignment, disjunction, conjunction, equality, comparison, additive and multiplicative expressions |
| ParserImpl.Parser.TierRight | compiler/Parser.ts:667-673 | behaves as `Grammar.TierRight`: the operator token and the rest of the tier as the right operand, null when that is null |
| ParserImpl.Parser.ParseNamedInfix | compiler/Parser.ts:790-829 | behaves as `Grammar.ParseNamedInfix` |
| ParserImpl.Parser.NamedInfixRight | compiler/Parser.ts:818-826 | behaves as `Grammar.NamedInfixRight`: a name for "is"/"not is", an additive expression otherwise |
| ParserImpl.Parser.ParsePrefixUnary | compiler/Parser.ts:883-911 | behaves as `Grammar.ParsePrefixUnary` |
| ParserImpl.Parser.ParsePostfixUnary | compiler/Parser.ts:918-962 | behaves as `Grammar.ParsePostfixUnary`: an atom followed by at most one postfix operator, which is "++"/"--", an index `[...]` or an argument list `(...)` |
| ParserImpl.Parser.ParseArgumentList | compiler/Parser.ts:969-1009 | behaves as `Grammar.ParseArgumentList` |
| ParserImpl.Parser.ArgumentsBody | compiler/Parser.ts:979-989 | behaves as `Grammar.ArgumentsBody`: the arguments and the closing ")" |
| ParserImpl.Parser.ParseMoreArguments | compiler/Parser.ts:993-1007 | behaves as `Grammar.ArgumentsLoop` after a ",": the further arguments appended to those so far |
| ParserImpl.Parser.ArgumentsFrom | compiler/Parser.ts:996-1005 | behaves as `Grammar.ArgumentsLoop`: arguments separated by "," appended to those so far |
| ParserImpl.Parser.ArgumentsAfter | compiler/Parser.ts:982-984 | behaves as `Grammar.ArgumentsAfter`: further arguments only when "," follows the first |
| ParserImpl.Parser.ParseArgument | compiler/Parser.ts:1011-1022 | behaves as `Grammar.ParseArgument` |
| ParserImpl.Parser.NamedArgument | compiler/Parser.ts:1015-1021 | behaves as `Grammar.NamedArgument`: the name, two unchecked tokens, then the value |
| ParserImpl.Parser.PositionalArgument | compiler/Parser.ts:1021 | behaves as `Grammar.PositionalArgument`: the value alone, with no name |
| ParserImpl.Parser.ParseArrayAccess | compiler/Parser.ts:1027-1054 | behaves as `Grammar.ParseArrayAccess` |
| ParserImpl.Parser.ParseMoreIndexes | compiler/Parser.ts:1045-1053 | behaves as `Grammar.ArrayAccessLoop`: further indexes after "," appended to those so far |
| ParserImpl.Parser.IndexesAfter | compiler/Parser.ts:1034-1036 | behaves as `Grammar.IndexesAfter`: further indexes only when "," follows the first |
| ParserImpl.Parser.ParseAtomic | compiler/Parser.ts:1066-1082 | behaves as `Grammar.ParseAtomic` |
| ParserImpl.Parser.ParseStatement | compiler/Parser.ts:376-397 | behaves as `Grammar.ParseStatement`: return, if, var/const, for, or an expression statement |
| ParserImpl.Parser.ParseReturnStmt | compiler/Parser.ts:463-473 | behaves as `Grammar.ParseReturnStmt`: the returned expression may be null |
| ParserImpl.Parser.ParseIfThenElse | compiler/Parser.ts:405-438 | behaves as `Grammar.ParseIfThenElse` |
| ParserImpl.Parser.ThenPart | compiler/Parser.ts:412-419 | behaves as `Grammar.ThenPart`: "then" and the required block |
| ParserImpl.Parser.ElsePart | compiler/Parser.ts:421-437 | behaves as `Grammar.ElsePart`: an "elif" chain, an "else" block, or nothing |
| ParserImpl.Parser.ParseForEach | compiler/Parser.ts:440-456 | behaves as `Grammar.ParseForEach` |
| ParserImpl.Parser.ForEachRest | compiler/Parser.ts:447-455 | behaves as `Grammar.ForEachRest`: "in", the iterated expression and the body, neither checked for null |
| ParserImpl.Parser.ForEachBody | compiler/Parser.ts:453-455 | behaves as `Grammar.ForEachBody`: the block after the iterated expression |
| ParserImpl.Parser.ParseBlock | compiler/Parser.ts:337-374 | behaves as `Grammar.ParseBlock` |
| ParserImpl.Parser.BlockItems | compiler/Parser.ts:346-360 | behaves as `Grammar.BlockItems`: statements each ended by ";", then "}" |
| ParserImpl.Parser.SeparatedStatement | compiler/Parser.ts:350-355 | behaves as `Grammar.SeparatedStatement`: a statement and its ";" |
| ParserImpl.Parser.ReportExpected | compiler/Parser.ts:123 | the error expecting the kinds is appended to the log |
| ParserImpl.Parser.ParseVariableOrConstant | compiler/Parser.ts:620-660 | behaves as `Grammar.ParseVariableOrConstant` |
| ParserImpl.Parser.TypedStorage | compiler/Parser.ts:632-648 | behaves as `Grammar.TypedStorage`: the optional type, then the initializer |
| ParserImpl.Parser.StorageInit | compiler/Parser.ts:638-655 | behaves as `Grammar.StorageInit`: the initializer that a constant must have, then the ";" |
| ParserImpl.Parser.StorageEnd | compiler/Parser.ts:651-655 | behaves as `Grammar.StorageEnd`: ";" required only for a top-level declaration |
| ParserImpl.Parser.ParseTypeDeclaration | compiler/Parser.ts:475-514 | behaves as `Grammar.ParseTypeDeclaration` |
| ParserImpl.Parser.TypeNamed | compiler/Parser.ts:479-514 | behaves as `Grammar.TypeNamed`: the name it requires after "class", then the body |
| ParserImpl.Parser.TypeBody | compiler/Parser.ts:488-513 | behaves as `Grammar.TypeBody`: "{", the members and one unchecked closing token |
| ParserImpl.Parser.TypeMembers | compiler/Parser.ts:488-511 | with "{" next, behaves as `Grammar.TypeBody`: the members and one unchecked closing token |
| ParserImpl.Parser.ParseMembers | compiler/Parser.ts:493-507 | behaves as `Grammar.MembersFrom`: properties while ":" or "=" follows the member's name |
| ParserImpl.Parser.ParseProperty | compiler/Parser.ts:592-617 | behaves as `Grammar.ParseProperty` |
| ParserImpl.Parser.ParseInitializer | compiler/Parser.ts:605-609 | behaves as `Grammar.ParseInitializer`: "=" and the initializing expression |
| ParserImpl.Parser.ParseFunction | compiler/Parser.ts:539-563 | behaves as `Grammar.ParseFunction` |
| ParserImpl.Parser.FunctionRest | compiler/Parser.ts:548-562 | behaves as `Grammar.FunctionRest`: the parameters, the optional return type and the body |
| ParserImpl.Parser.FunctionBody | compiler/Parser.ts:551-562 | behaves as `Grammar.FunctionBody` |
| ParserImpl.Parser.ParseFormalParameters | compiler/Parser.ts:565-590 | behaves as `Grammar.ParseFormalParameters` |
| ParserImpl.Parser.ParseParameterList | compiler/Parser.ts:573-589 | the loop behaves as `Grammar.ParametersFrom`: any number of "," skipped, each parameter appended in order, up to the closing ")" |
| ParserImpl.Parser.ParseFormalParameter | compiler/Parser.ts:581-585 | behaves as `Grammar.ParseFormalParameter` |
| ParserImpl.Parser.ParseNamespace | compiler/Parser.ts:239-258 | behaves as `Grammar.ParseNamespace` |
| ParserImpl.Parser.NamespaceBody | compiler/Parser.ts:247-257 | behaves as `Grammar.NamespaceBody`: "{", the top-level statements and "}" |
| ParserImpl.Parser.BracedTopLevelStatements | compiler/Parser.ts:247-251 | with "{" next, behaves as `Grammar.TopLevelFrom` one token further on |
| ParserImpl.Parser.TopLevelStatement | compiler/Parser.ts:275-313 | behaves as `Grammar.TopLevelStatement`: an import, namespace, variable, class or function |
| ParserImpl.Parser.ParseTopLevelStatements | compiler/Parser.ts:260-320 | behaves as `Grammar.TopLevelFrom` |
| ParserImpl.Parser.Parse | compiler/Parser.ts:162-184 | behaves as `Grammar.Parse`: a unit named "builtin" holding the top-level statements |
| Grammar.Expect | compiler/Parser.ts:144-153 | true exactly when the token at the position has one of the kinds; otherwise the error listing them is reported; a TypeError past the end of the stream; never moves |
| Grammar.Terminated | compiler/Parser.ts:253-257 | the node is kept, and the closing token consumed, exactly when that token is next |
| Grammar.Unchecked | compiler/Parser.ts:509-510 | the node is kept and exactly one token is skipped, or none at the end of the stream |
| Grammar.Skip | compiler/Parser.ts:108-111 | skips `n` tokens or up to the end of the stream |
| Grammar.ParseName | compiler/Parser.ts:186-205 | a name is parsed exactly when a name token is next, and then at least one token is consumed |
| Grammar.OptionalType | compiler/Parser.ts:632-636 | a type is present exactly when ":" is next and the type's name does not crash |
| Grammar.CreateBinary | compiler/Parser.ts:667-673 | a binary node exists exactly when the left side, the operator and the right side are all present |
| Grammar.Operand | compiler/Parser.ts:675-876 | an operand of a tier binds more tightly than that tier, and consumes at least one token |
| Grammar.Tier | compiler/Parser.ts:675-876 | a tier's result binds at least as tightly as the tier; when it is the tier's own operator, its left side binds more tightly |
| Grammar.TierRight | compiler/Parser.ts:667-673 | the node has the given left operand, the operator token, and a right operand of the same tier or tighter |
| Grammar.NamedOperator | compiler/Parser.ts:798-816 | a named operator found is one of the named-infix binding, after at least one token; none found consumes nothing |
| Grammar.ParseNamedInfix | compiler/Parser.ts:790-829 | the result binds at least as tightly as a named infix; a named infix node has an additive or tighter left operand |
| Grammar.NamedInfixRight | compiler/Parser.ts:818-826 | the node has the given left operand and operator, and a right operand tighter than a named infix |
| Grammar.ParsePrefixUnary | compiler/Parser.ts:883-911 | a prefix unary expression is never a binary node and consumes at least one token |
| Grammar.ParsePostfixUnary | compiler/Parser.ts:918-962 | a postfix unary expression is never a binary node and consumes at least one token |
| Grammar.ParseAtomic | compiler/Parser.ts:1066-1082 | an atom is never a binary node and consumes at least one token |
| Grammar.ParseLiteralConstant | compiler/Parser.ts:1094-1118 | a literal is parsed exactly when a literal token is next, consuming just that token; otherwise null, with nothing reported |
| Grammar.DropPrefix | compiler/Parser.ts:1126-1130 | the text after its first two characters |
| Grammar.ParseIntegerLiteral | compiler/Parser.ts:1120-1139 | an integer literal token always yields an integer literal and is consumed |
| Grammar.ParseBooleanLiteral | compiler/Parser.ts:1154-1160 | "true" or "false" always yields a boolean literal and is consumed |
| Grammar.ThenPart | compiler/Parser.ts:412-419 | a parsed conditional keeps the condition it was given |
| Grammar.ElsePart | compiler/Parser.ts:421-437 | a parsed conditional keeps the condition and the then-block it was given |
| Grammar.ForEachRest | compiler/Parser.ts:447-455 | a parsed loop keeps the loop variable it was given |
| Grammar.ForEachBody | compiler/Parser.ts:453-455 | a parsed statement is a for-each over the given loop variable |
| Grammar.SeparatedStatement | compiler/Parser.ts:350-355 | a parsed statement is followed by the ";" just consumed |
| Grammar.TypedStorage | compiler/Parser.ts:632-648 | a parsed declaration is a storage declaration of the given name |
| Grammar.StorageInit | compiler/Parser.ts:638-655 | a constant without "=" never parses; a parsed declaration has the given name |
| Grammar.StorageEnd | compiler/Parser.ts:651-655 | a parsed declaration is the one given |
| Grammar.TypeBody | compiler/Parser.ts:488-513 | null exactly when "{" is not next; a parsed class has the given annotations and name |
| Grammar.TypeNamed | compiler/Parser.ts:479-514 | position bounds and progress only: the position only moves forward and stays within the tokens |
| Grammar.ParseProperty | compiler/Parser.ts:592-617 | a missing member name is a TypeError |
| Grammar.FunctionRest | compiler/Parser.ts:548-562 | a parsed function has the given name |
| Grammar.FunctionBody | compiler/Parser.ts:551-562 | never null; a parsed function has the given name and parameters |
| Grammar.ParseFormalParameter | compiler/Parser.ts:581-585 | a parameter at the end of the stream is a TypeError |
| Grammar.NamespaceBody | compiler/Parser.ts:247-257 | a parsed namespace has the given annotations and name |
| Grammar.TopLevelFrom | compiler/Parser.ts:260-320 | the top-level list never comes out null |
| Grammar.Parse | compiler/Parser.ts:162-184 | a unit never comes out null |
| Grammar.ParseBlock | compiler/Parser.ts:337-374 | position bounds and progress only: the position only moves forward and stays within the tokens; a successful parse consumes at least one token |
| Grammar.ParseImport | compiler/Parser.ts:207-237 | position bounds and progress only: the position only moves forward and stays within the tokens; a successful parse consumes at least one token |
| Grammar.ParseIfThenElse | compiler/Parser.ts:405-438 | position bounds and progress only: the position only moves forward and stays within the tokens; it consumes at least its first token |
| Grammar.ParseVariableOrConstant | compiler/Parser.ts:620-660 | position bounds and progress only: the position only moves forward and stays within the tokens; it consumes at least its first token |
| Grammar.ParseAccessMode | compiler/Parser.ts:516-537 | position bounds and progress only: the position only moves forward and stays within the tokens |
| Grammar.ParseStatement | compiler/Parser.ts:376-397 | position bounds and progress only: the position only moves forward and stays within the tokens |
| Grammar.ParseTypeDeclaration | compiler/Parser.ts:475-514 | position bounds and progress only: the position only moves forward and stays within the tokens; it consumes at least its first token |
| Grammar.ParseFunction | compiler/Parser.ts:539-563 | position bounds and progress only: the position only moves forward and stays within the tokens; it consumes at least its first token |
| Grammar.ParseNamespace | compiler/Parser.ts:239-258 | position bounds and progress only: the position only moves forward and stays within the tokens; it consumes at least its first token |
| Grammar.ParseForEach | compiler/Parser.ts:440-456 | position bounds and progress only: the position only moves forward and stays within the tokens; it consumes at least its first token |
| Grammar.ParseReturnStmt | compiler/Parser.ts:463-473 | position bounds and progress only: the position only moves forward and stays within the tokens; it consumes at least its first token |
| Grammar.ParseAnnotations | compiler/Parser.ts:322-335 | position bounds and progress only: the position only moves forward and stays within the tokens; the result is never null |
| Grammar.ParseArgumentList | compiler/Parser.ts:969-1009 | position bounds and progress only: the position only moves forward and stays within the tokens; it consumes at least its first token |
| Grammar.ParseArrayAccess | compiler/Parser.ts:1027-1054 | position bounds and progress only: the position only moves forward and stays within the tokens; it consumes at least its first token |
| Grammar.ParseArgument | compiler/Parser.ts:1011-1022 | position bounds and progress only: the position only moves forward and stays within the tokens; the result is never null |
| Grammar.ParseFormalParameters | compiler/Parser.ts:565-590 | position bounds and progress only: the position only moves forward and stays within the tokens |
| Grammar.ParseInitializer | compiler/Parser.ts:605-609 | position bounds and progress only: the position only moves forward and stays within the tokens; it consumes at least its first token; the result is never null |
| Grammar.ParseTypeAnnotation | compiler/Parser.ts:632-636 | position bounds and progress only: the position only moves forward and stays within the tokens; it consumes at least its first token; the result is never null |
| Grammar.ParseExpression | compiler/Parser.ts:662-665 | position bounds and progress only: the position only moves forward and stays within the tokens; a successful parse consumes at least one token |
| Grammar.TopLevelStatement | compiler/Parser.ts:275-313 | position bounds and progress only: the position only moves forward and stays within the tokens; a successful parse consumes at least one token |
| Grammar.NameTail | compiler/Parser.ts:195-201 | position bounds and progress only: the position only moves forward and stays within the tokens |
| Grammar.AnnotationsFrom | compiler/Parser.ts:322-335 | position bounds and progress only: the position only moves forward and stays within the tokens; the result is never null |
| Grammar.ArgumentsLoop | compiler/Parser.ts:993-1007 | position bounds and progress only: the position only moves forward and stays within the tokens; the result is never null |
| Grammar.ArrayAccessLoop | compiler/Parser.ts:1045-1053 | position bounds and progress only: the position only moves forward and stays within the tokens; the result is never null |
| Grammar.IndexesAfter | compiler/Parser.ts:1034-1036 | never null; the position only moves forward and stays within the tokens |
| Grammar.BlockItems | compiler/Parser.ts:346-360 | position bounds and progress only: the position only moves forward and stays within the tokens; a successful parse consumes at least one token |
| Grammar.MembersFrom | compiler/Parser.ts:493-507 | position bounds and progress only: the position only moves forward and stays within the tokens; the result is never null |
| Grammar.ParametersFrom | compiler/Parser.ts:573-586 | position bounds and progress only: the position only moves forward and stays within the tokens |
| Grammar.ImportRest | compiler/Parser.ts:216-230 | position bounds and progress only: the position only moves forward and stays within the tokens |
| Grammar.ImportEnd | compiler/Parser.ts:231-234 | position bounds and progress only: the position only moves forward and stays within the tokens |
| Grammar.ImportAlias | compiler/Parser.ts:224-232 | the alias clause consumes at least the "as" and stays within the tokens |
| Grammar.ArgumentsBody | compiler/Parser.ts:979-989 | position bounds and progress only: the position only moves forward and stays within the tokens |
| Grammar.ArgumentsAfter | compiler/Parser.ts:982-984 | never null; the position only moves forward and stays within the tokens |
| Grammar.NamedArgument | compiler/Parser.ts:1015-1021 | never null; consumes at least the name |
| Grammar.PositionalArgument | compiler/Parser.ts:1021 | never null; a parsed argument has no name |
| GrammarFacts.BlockItemsAppend | compiler/Parser.ts:346-360 | the item list of a braced block started with some items is those items followed by the list started empty, with the same end and errors |
| GrammarFacts.BracedItemsAreStatements | compiler/Parser.ts:346-360 | a braced block never holds a null statement |
| GrammarFacts.ImportIsTypeImport | compiler/Parser.ts:207-237 | every import parsed is a type import |
| GrammarFacts.TopLevelStatementIsDeclaration | compiler/Parser.ts:275-313 | a parsed top-level statement is an import, namespace, storage, class or function declaration |
| GrammarFacts.UnitHoldsDeclarations | compiler/Parser.ts:260-320 | every statement of a parsed top-level list is a declaration |
| GrammarFacts.UnknownTokenEndsTopLevel | compiler/Parser.ts:314-318 | at a token that starts no top-level statement the list ends there, with what it has and nothing reported |
| GrammarFacts.UnitNeverNull | compiler/Parser.ts:162-184 | parsing a unit yields a unit named "builtin" or a TypeError, never null |
| GrammarFacts.UnbracedBlockKeepsSecondParse | compiler/Parser.ts:361-371 | a block without braces parses when its first statement and ";" parse and the second statement parse does not crash; it holds only the second parse |
| GrammarFacts.NamedOperatorTokens | compiler/Parser.ts:798-816 | "not in" and "not is" fold into one operator over two tokens, "in" and "is" alone are one token, and "not" before anything else or at the end of the input is no operator |
| GrammarFacts.AccessModeKeywords | compiler/Parser.ts:516-537 | "public" and "private" yield their own mode exactly when they are next; every other token, "protected" included, yields protected; the token is consumed exactly when it is one of the three access keywords, and otherwise the position stays |
| GrammarFacts.IntegerLiteralDigits | compiler/Parser.ts:1120-1139 | for any integer literal token: hexadecimal and binary literals keep what follows their two-character prefix (nothing when the text is shorter) with radix 16 and 2; octal and decimal keep all digits with radix 8 and 10 |
| GrammarFacts.IsTakesOnlyAName | compiler/Parser.ts:818-826 | the right side of "is" and "not is" is a name that ends the parse, so anything after it is left to the caller |
| GrammarFacts.SimpleNameOperand | compiler/Parser.ts:918-962 | a name token followed by no postfix or multiplicative operator is, at the multiplicative tier, a one-part name |
| GrammarFacts.TierStep | compiler/Parser.ts:835-852 | an operand followed by one of its tier's operators is that operator applied to the operand and the rest of the tier |
| GrammarFacts.TierEnd | compiler/Parser.ts:835-852 | an operand not followed by one of its tier's operators is the whole tier |
| GrammarFacts.NameThenMinus | compiler/Parser.ts:835-852 | a name, "-" and an additive tier `y` parse as `name - y`: the operator binds to the right |
| GrammarFacts.MinusChain | compiler/Parser.ts:835-852 | `a - b - c` parses as `a - (b - c)` |
| Ast.TypeName | compiler/typeinf.ts:500-503 | a written type's text is its name; a built-in type's text is one of the six built-in names and determines its kind |
| Typing.Report | compiler/typeinf.ts:342-347 | the listener's errors gain exactly one semantic error with the message at the end |
| Typing.Raise | compiler/typeinf.ts:342-347 | the error is reported and then thrown |
| Typing.LookupInnermost | compiler/typeinf.ts:349-366 | a name is missing exactly when no scope holds it; otherwise the entry is that of the innermost scope holding it |
| Typing.Lookup | compiler/typeinf.ts:349-366 | a found entry is held under that name by some scope, and a name the innermost scope holds is found there |
| Typing.FindSymbol | compiler/typeinf.ts:242-251 | a symbol exists exactly when the unit declares the name as a variable, function or type, and variables come before functions before types |
| Typing.CheckCompatibleTypes | compiler/typeinf.ts:620-629 | throws only the TypeError of reading a null type's name. It throws exactly when a side is null and no earlier rule answers: a boolean or number on the left reads the right name; otherwise a string on the left, null on the right or `any` on either side answers first. Two present types never throw |
| Typing.SignatureBinding | compiler/typeinf.ts:570-581 | a written return type is resolved before any parameter is bound, and the error log only grows |
| Typing.ResolveType | compiler/typeinf.ts:498-506 | a type resolves, to itself and silently, exactly when its name is primitive, declared, or imported with a symbol; otherwise an unknown type is reported and thrown |
| Typing.NameType | compiler/typeinf.ts:387-394 | a name has the type recorded for it in the innermost scope; an unknown name is reported and typed null |
| Typing.LogicalType | compiler/typeinf.ts:406-413 | boolean, silently, exactly when the sides are compatible; incompatible sides are reported and thrown |
| Typing.BinaryType | compiler/typeinf.ts:415-424 | the left side's type exactly when the compatibility test does not throw; incompatible sides are reported, and so is a non-"+" operator on a string left side, in that order, without throwing |
| Typing.AssignType | compiler/typeinf.ts:426-435 | the left type, silently, exactly when both sides are the same type object and a string is only assigned or appended; different types are reported and thrown |
| Typing.NewType | compiler/typeinf.ts:465-468 | the instantiated type, silently, exactly when it resolves |
| Typing.TypeOf | compiler/typeinf.ts:372-468 | typing an expression only adds errors to the log |
| Typing.Operands | compiler/typeinf.ts:406-435 | typing both sides of an operator only adds errors to the log |
| Typing.DeclarationType | compiler/typeinf.ts:631-650 | a declared type is kept even when the initializer does not match; without one the initializer's type is taken; with neither the type is null |
| Typing.BoundParameters | compiler/typeinf.ts:577-581 | binding parameters only adds errors to the log |
| Typing.ImportAll | compiler/typeinf.ts:292-313 | processing imports only adds errors to the log |
| Typing.ImportNames | compiler/typeinf.ts:297-311 | processing the names of one import only adds errors to the log |
| TypingFacts.InnermostShadows | compiler/typeinf.ts:349-366 | a name held by the innermost scope is found there, whatever the outer scopes hold |
| TypingFacts.DeclarationKeepsOtherNames | compiler/typeinf.ts:215-222 | inserting a name into the innermost scope changes the lookup of no other name |
| TypingFacts.EmptyScopeIsTransparent | compiler/typeinf.ts:323-327 | pushing an empty scope changes no lookup |
| TypingFacts.CompatibilityFacts | compiler/typeinf.ts:620-629 | every type is compatible with itself; a string accepts anything; a number or boolean accepts only a type of the same name; null is accepted by every other type; null does not accept a string; a number does not accept any |
| TypingFacts.CompatibilityWithAny | compiler/typeinf.ts:626-627 | `any` on the left accepts everything, even a null type; `any` on the right is accepted by everything except a boolean or number on the left |
| TypingFacts.CompatibilityByName | compiler/typeinf.ts:620-629 | when no earlier rule applies, two types are compatible exactly when their names are equal, so `void` does not accept `number` |
| TypingFacts.NullValuedTypes | compiler/typeinf.ts:620-629 | a null type is accepted by a string and by `any`, and itself accepts null and `any`; otherwise reading its name throws a TypeError, on either side |
| TypingFacts.SameNameDistinctObjects | compiler/typeinf.ts:426-435 | two written types with the same name are compatible, yet assigning one to the other is reported and thrown |
| TypingFacts.OnlyFourPrimitiveNames | compiler/typeinf.ts:498-506 | with nothing declared or imported, a built-in type resolves exactly when it is neither any nor null; any is reported as unknown |
| TypingFacts.IncompatibleInitializerKeepsAnnotation | compiler/typeinf.ts:631-650 | an initializer of an incompatible type is reported once and the declared type is kept |
| TypingFacts.UnknownAnnotationThrows | compiler/typeinf.ts:631-636 | a declared type that does not resolve is reported and thrown |
| TypingFacts.BindingCompletesWhenAllResolve | compiler/typeinf.ts:577-581 | binding parameters completes exactly when every parameter has a type that resolves, and then reports nothing |
| TypingFacts.LastParameterOfANameWins | compiler/typeinf.ts:577-581 | after binding, a parameter's name is bound to the last parameter of that name |
| TypingFacts.KeepsUnboundNames | compiler/typeinf.ts:577-581 | binding parameters leaves the entries of every other name as they were |
| TypingFacts.ImportNamesEffect | compiler/typeinf.ts:297-311 | from an unregistered unit nothing is bound and every name is reported in order; from a registered one each name is bound to its symbol or null, other names are untouched, and nothing is reported exactly when every name is found |
| TypingFacts.ImportsCleanWhenAllFound | compiler/typeinf.ts:292-313 | when every import's unit is registered and declares every imported name, processing imports reports nothing |
| TypingFacts.PassingTypesUpNeverThrows | compiler/typeinf.ts:372-461 | an expression built from literals, names, groups, and unary, call, array, indexing and field expressions over those never throws, and reports at most one name it cannot find |
| TypingFacts.OperatorResultTypes | compiler/typeinf.ts:406-424 | a logical expression that completes is boolean; a binary expression that completes has its left side's type |
| Inference.Listener.constructor | compiler/typeinf.ts:342-347 | the listener starts with no errors |
| Inference.Listener.OnError | compiler/typeinf.ts:342-347 | the error is appended to the listener's errors |
| Inference.Scope.constructor | compiler/typeinf.ts:207-213 | a new scope is empty |
| Inference.Scope.Insert | compiler/typeinf.ts:215-222 | the name is bound to the target and type, and no other name changes |
| Inference.Scope.Find | compiler/typeinf.ts:224-227 | the entry of the name, exactly when the scope holds it |
| Inference.WithType | compiler/typeinf.ts:286 | the declaration with its type field replaced and nothing else changed |
| Inference.WithStmts | compiler/typeinf.ts:475-496 | the block, namespace or class with its statements replaced and nothing else changed |
| Inference.RevisitedItself | compiler/typeinf.ts:615-618 | leaving a statement as it was, as `visitImportStmt` and the other visitors that write nothing do, is an outcome `Revisited` allows for every kind of statement |
| Inference.TypeInference.constructor | compiler/typeinf.ts:255-264 | the stack holds one empty scope; no imports, no unit, no declared type names |
| Inference.TypeInference.Push | compiler/typeinf.ts:323-327 | a fresh empty scope goes on top and the outer scopes are unchanged |
| Inference.TypeInference.Pop | compiler/typeinf.ts:329-335 | with one scope left a stack underflow is thrown and nothing changes; otherwise the top scope is removed |
| Inference.TypeInference.Top | compiler/typeinf.ts:337-340 | the last scope of the stack |
| Inference.TypeInference.Find | compiler/typeinf.ts:349-366 | the entry of the innermost scope holding the name, searching from the top |
| Inference.TypeInference.Error | compiler/typeinf.ts:342-347 | returns the semantic error with the message, after reporting it |
| Inference.TypeInference.ResolveType | compiler/typeinf.ts:498-511 | behaves as `Typing.ResolveType` over the pass's declared type names and imports |
| Inference.TypeInference.VisitExpr | compiler/typeinf.ts:372-468 | behaves as `Typing.TypeOf` over the current scopes |
| Inference.TypeInference.VisitNameLiteral | compiler/typeinf.ts:387-394 | behaves as `Typing.NameType` |
| Inference.TypeInference.VisitLogicalExpr | compiler/typeinf.ts:406-413 | behaves as `Typing.Operands`: both sides in order, then the logical rule |
| Inference.TypeInference.LogicalRule | compiler/typeinf.ts:408-412 | behaves as `Typing.LogicalType` |
| Inference.TypeInference.VisitBinaryExpr | compiler/typeinf.ts:415-424 | behaves as `Typing.Operands`: both sides in order, then the binary rule |
| Inference.TypeInference.BinaryRule | compiler/typeinf.ts:417-423 | behaves as `Typing.BinaryType` |
| Inference.TypeInference.VisitAssignExpr | compiler/typeinf.ts:426-435 | behaves as `Typing.Operands`: both sides in order, then the assignment rule |
| Inference.TypeInference.AssignRule | compiler/typeinf.ts:428-434 | behaves as `Typing.AssignType` |
| Inference.TypeInference.VisitStmt | compiler/typeinf.ts:475-650 | dispatches on the statement kind. An expression or return statement behaves as `Typing.TypeOf` over the current scopes. A return without a value throws a TypeError. An import is null. A declaration behaves as `Typing.DeclarationType` with the type written into the node. A function's signature behaves as `Typing.SignatureBinding` over a fresh scope. The visit changes nothing in a statement but its types, body or statements (`Revisited`). On completion the stack is as it was and the innermost scope binds what the statement declared |
| Inference.TypeInference.VisitSimpleStmt | compiler/typeinf.ts:485-488 | `visitReturnStmt` here, and in the same way `visitExprStmt` (lines 601-604) and `visitImportStmt` (lines 615-618): an expression or return statement behaves as `Typing.TypeOf` over the current scopes; a return without a value throws a TypeError; an import is null; no error is logged in those last two cases |
| Inference.TypeInference.VisitScopedStmt | compiler/typeinf.ts:475-496 | `visitBlockStmt` and `visitNamespaceStmt` here, and in the same way `visitClassStmt` (lines 590-599): a block, namespace or class that completes leaves every scope as it was, and a throw leaves its scope pushed; each of its statements is the visited one |
| Inference.TypeInference.VisitSequence | compiler/typeinf.ts:478-479 | statements are visited in order until one throws; it completes exactly when all were visited; the innermost scope then binds what the completed statements declared (`DeclaredAll`); statements after the one that threw are untouched |
| Inference.TypeInference.VisitChild | compiler/typeinf.ts:478-479 | visiting one statement of a sequence keeps the stack on completion, changes nothing in the statement but its types, body or statements, and leaves the innermost scope binding what the statement declared |
| Inference.TypeInference.VisitFunctionStmt | compiler/typeinf.ts:567-588 | a generic function is left alone. Otherwise a missing return type becomes void and is the result. A signature that fails to resolve or bind (`Typing.SignatureBinding` over an empty scope) throws that failure with that log, and completion needs it to bind. A function that completes leaves every scope as it was |
| Inference.TypeInference.VisitFunctionScope | compiler/typeinf.ts:570-586 | inside the function's own scope. The return type is recorded. The signature behaves as `Typing.SignatureBinding`, and its failure is the result with its log. Without a body, a bound signature completes with that log and the scope holds exactly the bound parameters. On completion, the scope holds the bound parameters plus what the body declared |
| Inference.TypeInference.BindParameters | compiler/typeinf.ts:577-581 | behaves as `Typing.BoundParameters` on the innermost scope: the same outcome, the same thrown failure, the same log and, on completion, the same entries |
| Inference.TypeInference.VisitDeclaration | compiler/typeinf.ts:631-650 | behaves as `Typing.DeclarationType`; on completion the type is written into the node and the name bound to it in the innermost scope |
| Inference.TypeInference.InferDeclarationType | compiler/typeinf.ts:633-646 | behaves as `Typing.DeclarationType` |
| Inference.TypeInference.ProcessImports | compiler/typeinf.ts:292-313 | behaves as `Typing.ImportAll` over the unit's imports |
| Inference.TypeInference.VisitUnit | compiler/typeinf.ts:666-678 | records the unit, processes its imports as `Typing.ImportAll` says, and visits its statements, stopping at the first that throws. For some prefix of `k` visited statements, the base scope then binds what they declared, and the statements after the `k`-th come back untouched. When all complete, the stack is as it was |
| Inference.Declared | compiler/typeinf.ts:215-222 | after a completed statement, a variable or property declaration binds its name to itself and its written type; every other name keeps its entry or its absence |
| Inference.UndeclaredNamesKeepTheirEntries | compiler/typeinf.ts:478-479 | a name that none of a run of statements declares keeps the entry, or the absence of one, that it had before them |
| Inference.LastDeclarationWins | compiler/typeinf.ts:478-479 | after a run of statements, a declared name is bound to its last declaration, whatever it was bound to before |

## Left out

- `compiler/tree.ts`, the scanner and `./types` are not part of this model. The tree and token kinds are reduced to the node kinds and token kinds the parser and the pass tell apart.
- The scanner is a finite token sequence followed by null. Source text, locations other than a name's, and the string table are not modelled.
- The text of syntax and semantic error messages is not modelled. Errors are kept as data (the expected kinds, or a message tag with its operands).
- Console tracing is left out, because it has no effect on the pass. It happens in `Scope.insert` (compiler/typeinf.ts:217), in `find` (compiler/typeinf.ts:362-365), and in `push` and `pop`.
- `processImports`: the unit's directory and `realpath` are left out because they are file-system calls. Units are looked up by an already resolved path.
- Visitors not modelled: typecast (which throws "not implemented"), if/for/while/switch/case/try/throw/break/continue, accessors, parameters, `expand`, names with generics, and type references other than through `resolveType`.
- Floating-point literal values are kept as their text.
- Token and type-object identity are modelled by value for tokens, and by an identity number for written types.
- TokenRing.TokenArray.constructor: a requested capacity below 5 is raised to 5. The window it fills then has only the requested number of tokens, so the ring is valid only when at least 5 slots are requested; the parser always asks for 16.
- Typing.TypeOf: its contract states only that the log grows. What each kind of expression yields is stated by `Typing.NameType`, `LogicalType`, `BinaryType`, `AssignType`, `NewType`, `TypingFacts.OperatorResultTypes` and `TypingFacts.PassingTypesUpNeverThrows`.
- Typing.Operands: its contract states only that the log grows. The facts in `TypingFacts` state the rest.
- Typing.BoundParameters: its contract states only that the log grows. The facts in `TypingFacts` state the rest.
- Typing.ImportAll: its contract states only that the log grows. The facts in `TypingFacts` state the rest.
- Typing.ImportNames: its contract states only that the log grows. The facts in `TypingFacts` state the rest.
- Inference.TypeInference.VisitStmt: for a block, namespace or class the error log is stated only to grow.
- Inference.TypeInference.VisitScopedStmt: the error log is stated only to grow, as for `VisitSequence`, `VisitChild` and `VisitUnit`. The entries of the scopes that a throwing nested statement leaves pushed are not stated.
- Inference.TypeInference.VisitSequence: the error log is stated only to grow. The entries of the scopes that a throwing nested statement leaves pushed are not stated.
- Inference.TypeInference.VisitFunctionStmt: as for `VisitFunctionScope`, when the body throws, or a parameter fails to bind, the entries left in the function's scope and the log are not stated.
- Inference.TypeInference.VisitFunctionScope: when the body throws, or a parameter fails to bind, the entries left in the function's scope and the log are not stated.
- Typing.SignatureBinding: its own contract states only that the log grows. It is the specification the function visitors are proved against.
- Grammar.ParseBlock: its own contract states only position bounds and progress (and, for some, that the outcome is never null). `GrammarFacts.UnbracedBlockKeepsSecondParse` and `GrammarFacts.BracedItemsAreStatements` state the block it builds, and `ParserImpl.Parser.ParseBlock` is proved to return exactly what it returns.
- Grammar.ParseImport: its own contract states only position bounds and progress (and, for some, that the outcome is never null). `GrammarFacts.ImportIsTypeImport` states that the node it builds is a type import; beyond that the node is its own definition, and `ParserImpl.Parser.ParseImport` is proved to return exactly that.
- Grammar.ParseIfThenElse: its own contract states only position bounds and progress (and, for some, that the outcome is never null). No lemma states the node it builds: that node is its own definition, which follows compiler/Parser.ts:405-438, and `ParserImpl.Parser.ParseIfThenElse` is proved to return exactly that.
- Grammar.ParseVariableOrConstant: its own contract states only position bounds and progress (and, for some, that the outcome is never null). No lemma states the node it builds: that node is its own definition, which follows compiler/Parser.ts:620-660, and `ParserImpl.Parser.ParseVariableOrConstant` is proved to return exactly that.
- Grammar.ParseAccessMode: its own contract states only position bounds and progress. `GrammarFacts.AccessModeKeywords` states the mode it yields for each keyword, and the unconsumed protected default. `ParserImpl.Parser.ParseAccessMode` is proved to return exactly what it returns.
- Grammar.ParseStatement: its own contract states only position bounds and progress (and, for some, that the outcome is never null). No lemma states the node it builds: that node is its own definition, which follows compiler/Parser.ts:376-397, and `ParserImpl.Parser.ParseStatement` is proved to return exactly that.
- Grammar.ParseTypeDeclaration: its own contract states only position bounds and progress (and, for some, that the outcome is never null). No lemma states the node it builds: that node is its own definition, which follows compiler/Parser.ts:475-514, and `ParserImpl.Parser.ParseTypeDeclaration` is proved to return exactly that.
- Grammar.ParseFunction: its own contract states only position bounds and progress (and, for some, that the outcome is never null). No lemma states the node it builds: that node is its own definition, which follows compiler/Parser.ts:539-563, and `ParserImpl.Parser.ParseFunction` is proved to return exactly that.
- Grammar.ParseNamespace: its own contract states only position bounds and progress (and, for some, that the outcome is never null). No lemma states the node it builds: that node is its own definition, which follows compiler/Parser.ts:239-258, and `ParserImpl.Parser.ParseNamespace` is proved to return exactly that.
- Grammar.ParseForEach: its own contract states only position bounds and progress (and, for some, that the outcome is never null). No lemma states the node it builds: that node is its own definition, which follows compiler/Parser.ts:440-456, and `ParserImpl.Parser.ParseForEach` is proved to return exactly that.
- Grammar.ParseReturnStmt: its own contract states only position bounds and progress (and, for some, that the outcome is never null). No lemma states the node it builds: that node is its own definition, which follows compiler/Parser.ts:463-473, and `ParserImpl.Parser.ParseReturnStmt` is proved to return exactly that.
- Grammar.ParseAnnotations: its own contract states only position bounds and progress (and, for some, that the outcome is never null). No lemma states the node it builds: that node is its own definition, which follows compiler/Parser.ts:322-335, and `ParserImpl.Parser.ParseAnnotations` is proved to return exactly that.
- Grammar.ParseArgumentList: its own contract states only position bounds and progress (and, for some, that the outcome is never null). No lemma states the node it builds: that node is its own definition, which follows compiler/Parser.ts:969-1009, and `ParserImpl.Parser.ParseArgumentList` is proved to return exactly that.
- Grammar.ParseArrayAccess: its own contract states only position bounds and progress (and, for some, that the outcome is never null). No lemma states the node it builds: that node is its own definition, which follows compiler/Parser.ts:1027-1054, and `ParserImpl.Parser.ParseArrayAccess` is proved to return exactly that.
- Grammar.ParseArgument: its own contract states only position bounds and progress (and, for some, that the outcome is never null). No lemma states the node it builds: that node is its own definition, which follows compiler/Parser.ts:1011-1022, and `ParserImpl.Parser.ParseArgument` is proved to return exactly that.
- Grammar.ParseFormalParameters: its own contract states only position bounds and progress (and, for some, that the outcome is never null). No lemma states the node it builds: that node is its own definition, which follows compiler/Parser.ts:565-590, and `ParserImpl.Parser.ParseFormalParameters` is proved to return exactly that.
- Grammar.ParseInitializer: its own contract states only position bounds and progress (and, for some, that the outcome is never null). No lemma states the node it builds: that node is its own definition, which follows compiler/Parser.ts:605-609, and `ParserImpl.Parser.ParseInitializer` is proved to return exactly that.
- Grammar.ParseTypeAnnotation: its own contract states only position bounds and progress (and, for some, that the outcome is never null). No lemma states the node it builds: that node is its own definition, which follows compiler/Parser.ts:632-636, and `ParserImpl.Parser.ParseTypeAnnotation` is proved to return exactly that.
- Grammar.ParseExpression: its own contract states only position bounds and progress (and, for some, that the outcome is never null). The shape of its result is stated by the contract of `Grammar.Tier` and by `GrammarFacts.TierStep`, `TierEnd`, `NameThenMinus`, `MinusChain` and `IsTakesOnlyAName`, and `ParserImpl.Parser.ParseExpression` is proved to return exactly what it returns.
- Grammar.TopLevelStatement: its own contract states only position bounds and progress (and, for some, that the outcome is never null). `GrammarFacts.TopLevelStatementIsDeclaration` states the kind of node it builds; beyond that the node is its own definition, and `ParserImpl.Parser.TopLevelStatement` is proved to return exactly that.
- Grammar.NameTail: its own contract states only position bounds and progress (and, for some, that the outcome is never null). No lemma states the node it builds: that node is its own definition, which follows compiler/Parser.ts:195-201, and the loop of `ParserImpl.Parser.ReadNameTail` is proved to return exactly that.
- Grammar.AnnotationsFrom: its own contract states only position bounds and progress (and, for some, that the outcome is never null). No lemma states the node it builds: that node is its own definition, which follows compiler/Parser.ts:322-335, and the loop of `ParserImpl.Parser.ParseAnnotations` is proved to return exactly that.
- Grammar.ArgumentsLoop: its own contract states only position bounds and progress (and, for some, that the outcome is never null). No lemma states the node it builds: that node is its own definition, which follows compiler/Parser.ts:993-1007, and the loop of `ParserImpl.Parser.ArgumentsFrom` is proved to return exactly that.
- Grammar.ArrayAccessLoop: its own contract states only position bounds and progress (and, for some, that the outcome is never null). No lemma states the node it builds: that node is its own definition, which follows compiler/Parser.ts:1045-1053, and `ParserImpl.Parser.ParseMoreIndexes` is proved to return exactly that.
- Grammar.BlockItems: its own contract states only position bounds and progress (and, for some, that the outcome is never null). `GrammarFacts.BlockItemsAppend` and `GrammarFacts.BracedItemsAreStatements` state the items it collects, and the loop of `ParserImpl.Parser.BlockItems` is proved to return exactly what it returns.
- Grammar.MembersFrom: its own contract states only position bounds and progress (and, for some, that the outcome is never null). No lemma states the node it builds: that node is its own definition, which follows compiler/Parser.ts:493-507, and the loop of `ParserImpl.Parser.ParseMembers` is proved to return exactly that.
- Grammar.ParametersFrom: its own contract states only position bounds and progress (and, for some, that the outcome is never null). No lemma states the node it builds: that node is its own definition, which follows compiler/Parser.ts:573-586, and the loop of `ParserImpl.Parser.ParseParameterList` is proved to return exactly that.
- Grammar.ImportRest: its own contract states only position bounds and progress (and, for some, that the outcome is never null). No lemma states the node it builds: that node is its own definition, which follows compiler/Parser.ts:216-230, and `ParserImpl.Parser.ImportRest` is proved to return exactly that.
- Grammar.ImportEnd: its own contract states only position bounds and progress (and, for some, that the outcome is never null). No lemma states the node it builds: that node is its own definition, which follows compiler/Parser.ts:231-234, and `ParserImpl.Parser.ImportEnd` is proved to return exactly that.
- Grammar.ArgumentsBody: its own contract states only position bounds and progress (and, for some, that the outcome is never null). No lemma states the node it builds: that node is its own definition, which follows compiler/Parser.ts:979-989, and `ParserImpl.Parser.ArgumentsBody` is proved to return exactly that.
- Grammar.ImportAlias: its own contract states only position bounds and progress (and, for some, that the outcome is never null). No lemma states the node it builds: that node is its own definition, which follows compiler/Parser.ts:224-232, and `ParserImpl.Parser.ImportAlias` is proved to return exactly that.
- Grammar.ArgumentsAfter: its own contract states only position bounds and progress (and, for some, that the outcome is never null). No lemma states the node it builds: that node is its own definition, which follows compiler/Parser.ts:982-984, and `ParserImpl.Parser.ArgumentsAfter` is proved to return exactly that.
- Grammar.NamedArgument: its own contract states only position bounds and progress (and, for some, that the outcome is never null). No lemma states the node it builds: that node is its own definition, which follows compiler/Parser.ts:1015-1021, and `ParserImpl.Parser.NamedArgument` is proved to return exactly that.
- Grammar.IndexesAfter: its own contract states only position bounds and progress (and, for some, that the outcome is never null). No lemma states the node it builds: that node is its own definition, which follows compiler/Parser.ts:1034-1036, and `ParserImpl.Parser.IndexesAfter` is proved to return exactly that.
- Grammar.TypeNamed: its own contract states only position bounds and progress (and, for some, that the outcome is never null). No lemma states the node it builds: that node is its own definition, which follows compiler/Parser.ts:479-514, and `ParserImpl.Parser.TypeNamed` is proved to return exactly that.
- Inference.TypeInference.VisitChild: the error log is stated only to grow, and nothing is stated of the scopes a throwing statement leaves pushed beyond the stack extending the old one.
- Inference.TypeInference.VisitUnit: the error log is stated only to grow, and the thrown error that the unit reports a second time is not named in its contract.
