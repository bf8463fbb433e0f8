# A verified model of a small Pascal-like compiler pipeline

This project is a Dafny model of the four stages of a compiler for a small
Pascal-like language, written in Python. The Python sources are the files
named in the table below.

- **Scanner** (`src/lexer.py`). A character-level state machine. It tracks
  the line and the column, and it matches keywords without regard to case.
- **Parser** (`src/parser.py`). Recursive descent with one token of
  lookahead. It builds the abstract syntax tree (`src/ast.py`).
- **Semantic analyzer** (`src/semantic_analyzer.py`). A chain of scoped
  symbol tables and bottom-up type rules.
- **Interpreter** (`src/interpreter.py`). It walks the tree, keeping a call
  stack of name-to-value frames.

The modules follow the program:

| module | models |
|---|---|
| `Wrappers` | `Option`, `Result` and `Outcome`: errors are returned as values, not raised |
| `Lexing` (`lexer.dfy`) | `Lexer`, `get_next_token` and `lex` |
| `Ast` (`ast.dfy`) | the node classes |
| `Parsing` (`parser.dfy`) | `Parser` and `parse` |
| `Analysis` (`semantic_analyzer.dfy`) | the symbol tables and `SemanticAnalyzer` |
| `Interpreting` (`interpreter.dfy`) | `Interpreter` and `interpret` |

Each module has a `*Properties` module beside it that holds its lemmas.

## How the model is organised

Where the source changes state step by step, the model is imperative Dafny.
Each method is proved against a pure specification function, and the
source's promises are lemmas about those functions.

- **Scanner.** The class `Lexing.Lexer` has the fields `pos`, `currentChar`,
  `line` and `column`. `Valid()` ties them to the pure position functions
  `LineAt` and `ColumnAt`. Each scanning method ensures it agrees with a
  pure scanner. That scanner is `Scan`, built from `ScanNumber`,
  `ScanString`, `ScanIdentifier` and `ScanOperator`.
- **Parser.** The class `Parsing.Parser` has a position into the token
  stream and the previous token. Each production is a method that ensures
  `Yields(<Production>At(ts, old(pos)), r, pos)`. That is, it returns the
  node the pure production function yields and moves to the position that
  function gives, or it returns that function's error. The parser pulls
  tokens from the lexer on demand. A lexical error therefore surfaces only
  when the parser advances onto it, as in the source.
- **Semantic analyzer.** The class `Analysis.ScopedSymbolTable` keeps the
  mutable symbol map `symbols` and a constant chain of enclosing tables.
  `Lookup` is a pure function over that chain, and `Insert` is a method.
  `SemanticAnalyzer` swaps `currentScope` in `VisitProgram` and fills the
  table in `VisitVarDecl`.
  Expressions and statements are analysed by pure functions
  (`AnalyzeExpr`, `AnalyzeStmt`). They return the tree with the
  resolved-type slots filled in.
- **Interpreter.** Expressions are evaluated by the pure function `Eval`.
  Statements are methods of `Interpreting.Interpreter`, which has the
  fields `callStack`, `output`, `input` and `fuel`. Each method ensures
  `Finish(o, Snapshot()) == Exec(s, old(Snapshot()))`, where `Exec` is the
  pure statement semantics.

## Where the model departs from the code

Some places in the source cannot run as written. The model takes the
evident intent, and each such place is labelled here.

- **Single-character tokens.** `src/lexer.py:261` looks up a lexeme with
  `TokenType(char)`. The enum's values are integers, so every eligible
  character raises an error. Also, `COMMA = 31` makes COMMA an alias of
  SEMI. The model uses an explicit table, `Lexing.SingleCharKind`, in which
  COMMA is a kind of its own.
- **Node fields.** As written, `ASTNode` gives `line` and `column`
  defaults, and its subclasses then declare fields without defaults, so the
  node classes of `src/ast.py` cannot be defined at all. Under that order
  every positional call would also shift its arguments into `line` and
  `column`. Once the order is repaired (the subclass fields first after
  `token`), the positional calls line up, but these calls still do not
  fill the fields their node declares:
  - `Assign` at `src/parser.py:196` and every `BinOp` at
    `src/parser.py:288-376` are built from keywords only and omit `token`;
  - `UnaryOp(token, self.factor())` at `src/parser.py:396`,
    `src/parser.py:399` and `src/parser.py:402` puts the operand in `op`
    and never passes the required `expr`;
  - `Compound(token)` at `src/parser.py:146` omits the required
    `children`, which line 147 assigns only afterwards;
  - `Num(token, token.value)` at `src/parser.py:405` and
    `src/parser.py:408` omits the required `type`;
  - `Block` at `src/parser.py:51` passes None as its token.
  The model gives each node the fields its creator evidently meant:
  - an `Assign` and a `BinOp` carry their operator token;
  - a `UnaryOp` carries its operator token and, as its operand, the factor
    that follows (`ParsingProperties.UnaryOperandIsFactor`);
  - a `Compound` holds the parsed statement list as its children;
  - a `Num` is typed INTEGER or FLOAT by its token kind;
  - a VarDecl's type slot is set from its type node, as at
    `src/parser.py:88`.
- **Cast forms.** The cast forms of `factor` (`src/parser.py:414-425`) build
  classes that are defined nowhere. The model consumes their tokens and
  then fails with `UndefinedNode`, standing for Python's NameError. An ID
  never spells the keyword FLOAT, so the FLOAT branch cannot be reached
  (`ParsingProperties.LexedIdsAreNotKeywords`). The INT branch can.
- **The grammar comment of `declarations`.** It says at least one
  declaration follows VAR. The loop accepts none
  (`ParsingProperties.VarWithoutNames`), and the model follows the loop.
- **Builtin type symbols and run-time declarations.** Both are listed under
  Findings. The analyzer uses the corrected symbols. The interpreter takes
  a `Mode`: `AsWritten` is the code, and `DefaultSlots` is the corrected
  behaviour.

## Model

| member | source | states |
|---|---|---|
| Lexing.RunEnd | src/lexer.py:130-132 | the scan extends over a maximal run of a character class: every character before the end is in the class, the one at the end is not |
| Lexing.FindChar | src/lexer.py:134-140 | the position of the first occurrence of a character from p on, or None when there is none |
| Lexing.ScanToken | src/lexer.py:216-266 | a token scanned at a character is never EOF and consumes at least one character |
| Lexing.Scan | src/lexer.py:205-268 | a non-EOF token consumes at least one character; EOF is returned at the end of the text |
| Lexing.ScanSkipsSpaces | src/lexer.py:207-209 | whitespace yields no token: scanning resumes after the run of spaces |
| Lexing.ScanSkipsComment | src/lexer.py:211-214 | a comment yields no token; an unclosed comment is an error |
| Lexing.ScanAtEnd | src/lexer.py:268 | past the text the scanner returns EOF at the current line and column |
| Lexing.TokensFrom | src/lexer.py:270-278 | the token list ends with EOF, and EOF occurs nowhere else |
| Lexing.Lexer.constructor | src/lexer.py:82-87 | a new lexer is at position 0, line 1, column 1 |
| Lexing.Lexer.Advance | src/lexer.py:112-122 | moves one character on, keeping line and column consistent with the position |
| Lexing.Lexer.Peek | src/lexer.py:124-128 | the character after the current one, or None past the end |
| Lexing.Lexer.SkipWhitespace | src/lexer.py:130-132 | stops at the end of the run of whitespace |
| Lexing.Lexer.SkipComment | src/lexer.py:134-140 | stops after the first closing brace, or fails with Unterminated comment at the end of the text |
| Lexing.Lexer.DigitRun | src/lexer.py:147-149 | appends exactly the run of digits to the lexeme |
| Lexing.Lexer.Fraction | src/lexer.py:151-170 | appends the dot, the fraction digits and any exponent to the lexeme |
| Lexing.Lexer.Exponent | src/lexer.py:160-170 | appends the exponent marker, an optional sign and its digits |
| Lexing.Lexer.Number | src/lexer.py:142-175 | returns the token and end position of the pure number scanner |
| Lexing.Lexer.StringLiteral | src/lexer.py:177-190 | returns the token and end position of the pure string scanner |
| Lexing.Lexer.Identifier | src/lexer.py:192-203 | returns the token and end position of the pure identifier scanner |
| Lexing.Lexer.Operator | src/lexer.py:225-266 | returns the token and end position of the pure operator scanner |
| Lexing.Lexer.TokenHere | src/lexer.py:216-266 | dispatches on the current character as the pure scanner does |
| Lexing.Lexer.SkipBlank | src/lexer.py:206-214 | skipping whitespace or a comment does not change the next token |
| Lexing.Lexer.GetNextToken | src/lexer.py:205-268 | returns the token, or the error, that the pure scanner gives at the old position, and moves to its end |
| Lexing.Lex | src/lexer.py:270-278 | returns the token list of the pure scanner: it ends with EOF, and EOF occurs nowhere else |
| LexingProperties.LineCountsNewlines | src/lexer.py:112-122 | the line at a position is one more than the number of newlines before it |
| LexingProperties.ColumnCountsFromLineStart | src/lexer.py:112-122 | the column counts the characters since the last newline, starting at 1 |
| LexingProperties.NewlineStartsLine | src/lexer.py:113-115 | after a newline comes the next line, at column 1 |
| LexingProperties.OtherCharAdvancesColumn | src/lexer.py:117-120 | after any other character comes the same line and the next column |
| LexingProperties.LineColumnPastEnd | src/lexer.py:121-122 | past the end of the text, line and column stay where the text ends |
| LexingProperties.PositionsArePositive | src/lexer.py:86-87 | lines start at 1, and every character's column is at least 1 |
| LexingProperties.EofIsEndOfText | src/lexer.py:268 | whenever EOF is returned, it is the EOF token at the end of the text |
| LexingProperties.EofIsSticky | src/lexer.py:206 | once EOF has been returned, every later call returns the same EOF |
| LexingProperties.UpperIdempotent | src/lexer.py:200-202 | uppercasing twice is uppercasing once, so a keyword's value is its own uppercase form |
| LexingProperties.IdentifierScan | src/lexer.py:192-203 | an identifier is the maximal run of letters, digits and `_`; a keyword becomes its token with the value uppercased, and any other name is an ID that keeps its case |
| LexingProperties.KeywordsIgnoreCase | src/lexer.py:200-202 | two spellings of a keyword that differ only in case give the same token |
| LexingProperties.KeywordTokenIsNotId | src/lexer.py:200-203 | a keyword in any case is never an ID, and its value is the keyword |
| LexingProperties.NumberKinds | src/lexer.py:142-175 | a digit run not followed by `.` is an INT_CONST of the digits' value; one followed by `.` is a FLOAT_CONST or an invalid-literal error, never an INT_CONST |
| LexingProperties.FloatOfDigitsDot | src/lexer.py:172-173 | digits followed by a lone `.` convert to the digits' value |
| LexingProperties.DotAfterDigitsMakesFloat | src/lexer.py:151-154 | `1..5` scans `1.` as a FLOAT_CONST and not as `1` followed by DOTDOT, so an array range written without spaces cannot reach the INT_CONST DOTDOT INT_CONST the array type expects |
| LexingProperties.StringScan | src/lexer.py:177-190 | a string's value is exactly the characters between the quotes, with no escapes; without a closing quote scanning fails with Unterminated string |
| LexingProperties.CommentScan | src/lexer.py:134-140 | a closed comment yields no token and scanning resumes after its `}`; an unclosed one fails with Unterminated comment |
| LexingProperties.UnexpectedCharacterExactly | src/lexer.py:259-266 | operator scanning fails exactly on a character that starts no operator, with Unexpected character at that character |
| LexingProperties.TwoCharacterOperators | src/lexer.py:225-257 | `:=`, `<>`, `<=`, `>=` and `..` are taken whole, before any single-character match |
| Parsing.StreamFrom | src/parser.py:13-16 | the stream of tokens pulled from the lexer ends with EOF or stops at a lexical error |
| Parsing.EatAt | src/parser.py:25-31 | eat succeeds only on a token of the expected kind and then moves to the next token |
| Parsing.ExprAt | src/parser.py:275-279 | an expression consumes at least one token and has no resolved type set |
| Parsing.LevelAt | src/parser.py:281-378 | a binary level consumes at least one token and has no resolved type set |
| Parsing.LevelTailAt | src/parser.py:285-289 | the operator loop of a level keeps the tree unannotated |
| Parsing.OperandAt | src/parser.py:283 | an operand consumes at least one token and has no resolved type set |
| Parsing.FactorAt | src/parser.py:380-427 | a factor consumes at least one token and has no resolved type set |
| Parsing.VariableAt | src/parser.py:257-269 | a variable consumes at least its name and has no resolved type set |
| Parsing.CompoundAt | src/parser.py:137-149 | a compound statement is a Compound node with an unannotated tree |
| Parsing.StatementListAt | src/parser.py:151-161 | a statement list holds at least one statement, and none is annotated |
| Parsing.StatementTailAt | src/parser.py:157-159 | the statements after each SEMI are unannotated |
| Parsing.StatementAt | src/parser.py:163-188 | a statement is unannotated, and only the empty statement may consume nothing |
| Parsing.AssignmentAt | src/parser.py:190-197 | an assignment consumes tokens and is unannotated |
| Parsing.IfAt | src/parser.py:199-214 | an IF statement consumes tokens and is unannotated |
| Parsing.WhileAt | src/parser.py:216-226 | a WHILE statement consumes tokens and is unannotated |
| Parsing.ReadAt | src/parser.py:228-237 | a READ statement consumes tokens and is unannotated |
| Parsing.WriteArgAt | src/parser.py:246-251 | the WRITE argument consumes tokens and is unannotated |
| Parsing.WriteAt | src/parser.py:239-255 | a WRITE statement consumes tokens and is unannotated |
| Parsing.TypeSpecAt | src/parser.py:95-108 | a type node carries bounds and an element type exactly for arrays, at every depth |
| Parsing.IntConstAt | src/parser.py:116-117 | an array bound is exactly one INT_CONST token |
| Parsing.BoundsAt | src/parser.py:114-124 | the bounds take exactly five tokens |
| Parsing.ArrayTypeAt | src/parser.py:110-135 | an array type node is well shaped, down to its element types |
| Parsing.MoreNamesAt | src/parser.py:73-76 | the loop of further names never moves backwards |
| Parsing.DeclsOf | src/parser.py:83-91 | one VarDecl per name, in order, each with the shared type node and its type |
| Parsing.VariableDeclarationAt | src/parser.py:68-93 | a variable declaration declares at least one name |
| Parsing.DeclarationGroupAt | src/parser.py:62-64 | one round of the declarations loop consumes tokens |
| Parsing.DeclarationListAt | src/parser.py:61-64 | the declarations loop never moves backwards |
| Parsing.DeclarationsAt | src/parser.py:54-66 | the declarations never move backwards |
| Parsing.BlockAt | src/parser.py:47-52 | a block ends in a compound statement |
| Parsing.ProgramAt | src/parser.py:33-45 | a program consumes tokens |
| Parsing.Parser.constructor | src/parser.py:13-16 | a new parser is on the first token with no previous token |
| Parsing.Parser.Eat | src/parser.py:25-31 | eat succeeds or fails as EatAt says, and on success records the previous token |
| Parsing.Parser.ParseExpr | src/parser.py:275-279 | returns what ExprAt yields and moves past it |
| Parsing.Parser.ParseLevel | src/parser.py:281-378 | the six binary levels, each folded left by its loop, agree with LevelAt |
| Parsing.Parser.ParseOperand | src/parser.py:283 | agrees with OperandAt |
| Parsing.Parser.ParseFactor | src/parser.py:380-427 | agrees with FactorAt |
| Parsing.Parser.ParseVariable | src/parser.py:257-269 | agrees with VariableAt |
| Parsing.Parser.ParseCompoundStatement | src/parser.py:137-149 | agrees with CompoundAt |
| Parsing.Parser.ParseStatementList | src/parser.py:151-161 | its loop agrees with StatementListAt |
| Parsing.Parser.ParseStatement | src/parser.py:163-188 | agrees with StatementAt |
| Parsing.Parser.ParseAssignment | src/parser.py:190-197 | agrees with AssignmentAt |
| Parsing.Parser.ParseIf | src/parser.py:199-214 | agrees with IfAt |
| Parsing.Parser.ParseWhile | src/parser.py:216-226 | agrees with WhileAt |
| Parsing.Parser.ParseRead | src/parser.py:228-237 | agrees with ReadAt |
| Parsing.Parser.ParseWriteArg | src/parser.py:246-251 | agrees with WriteArgAt |
| Parsing.Parser.ParseWrite | src/parser.py:239-255 | agrees with WriteAt |
| Parsing.Parser.ParseTypeSpec | src/parser.py:95-108 | agrees with TypeSpecAt |
| Parsing.Parser.ParseIntConst | src/parser.py:116-117 | agrees with IntConstAt |
| Parsing.Parser.ParseBounds | src/parser.py:114-124 | agrees with BoundsAt |
| Parsing.Parser.ParseArrayType | src/parser.py:110-135 | agrees with ArrayTypeAt |
| Parsing.Parser.ParseMoreNames | src/parser.py:73-78 | its loop agrees with MoreNamesAt |
| Parsing.Parser.ParseVariableDeclaration | src/parser.py:68-93 | agrees with VariableDeclarationAt |
| Parsing.Parser.ParseDeclarationGroup | src/parser.py:62-64 | agrees with DeclarationGroupAt |
| Parsing.Parser.ParseDeclarationList | src/parser.py:61-64 | its loop agrees with DeclarationListAt |
| Parsing.Parser.ParseDeclarations | src/parser.py:54-66 | agrees with DeclarationsAt |
| Parsing.Parser.ParseBlock | src/parser.py:47-52 | agrees with BlockAt |
| Parsing.Parser.ParseProgram | src/parser.py:33-45 | agrees with ProgramAt |
| Parsing.Parser.Parse | src/parser.py:429-436 | returns the program, or the error, that ParseStream gives |
| Parsing.ParseTokens | src/parser.py:429-436 | parsing a token stream gives ParseStream's result, including a lexical error on the first token |
| Parsing.Tokenize | src/lexer.py:205-268 | pulling tokens from a new lexer until EOF or an error gives StreamFrom of the text |
| Parsing.ParseText | src/parser.py:438-441 | parse(text) gives ParseStream of the text's token stream |
| ParsingProperties.EatMatchesKind | src/parser.py:25-31 | eat succeeds exactly on the expected kind and then moves one token on; otherwise its error names the expected and the actual kind |
| ParsingProperties.EatAtLastToken | src/parser.py:29 | past the last token the parser stays on EOF, or meets the lexical error that ended the stream |
| ParsingProperties.ParseNeedsEofAfterProgram | src/parser.py:429-436 | parsing succeeds exactly when a program is followed by EOF; any other token after the final DOT is an error at that token |
| ParsingProperties.ProgramStartsWithKeyword | src/parser.py:33-36 | a stream that does not start with PROGRAM is rejected at its first token |
| ParsingProperties.LevelEndsBeforeLooserToken | src/parser.py:275-402 | precedence: an expression of a level stops only before a token that is no operator of that level or a tighter one |
| ParsingProperties.LevelTailEndsBeforeLooserToken | src/parser.py:281-378 | the same for the operator loop of a level |
| ParsingProperties.SameLevelFoldsLeft | src/parser.py:346-360 | `a op b op c` at one level folds to `BinOp(BinOp(a, op, b), op, c)` |
| ParsingProperties.LevelWithoutOperatorIsOperand | src/parser.py:281-378 | a level with none of its operators is its operand, unchanged |
| ParsingProperties.UnaryOperandIsFactor | src/parser.py:394-402 | a unary operator applies to the next factor alone |
| ParsingProperties.ParenthesesAreTransparent | src/parser.py:409-413 | a parenthesised expression is the inner node, with no wrapper |
| ParsingProperties.NumbersAreTypedByKind | src/parser.py:403-408 | a number literal becomes a Num of type INTEGER or FLOAT according to its token kind |
| ParsingProperties.IndexIffBracket | src/parser.py:257-269 | a variable has an index exactly when its name is followed by `[` |
| ParsingProperties.EmptyStatementIffNoStarter | src/parser.py:173-188 | the statement is NoOp, consuming nothing, exactly when no statement keyword or ID starts it |
| ParsingProperties.IfNodeComesFromIf | src/parser.py:173-188 | an IF node comes only from an IF token |
| ParsingProperties.EmptyCompound | src/parser.py:137-161 | `BEGIN END` is a compound holding one empty statement |
| ParsingProperties.IfWithoutElseIsNotFollowedByElse | src/parser.py:209-212 | an IF is left without an ELSE only when no ELSE follows it |
| ParsingProperties.ElseBindsToNearestIf | src/parser.py:209-212 | an ELSE attaches to the innermost open IF |
| ParsingProperties.WriteStringIffStringToken | src/parser.py:246-251 | WRITE takes a string node exactly when its argument is a STRING token; otherwise it takes an expression |
| ParsingProperties.MoreNamesAreEverySecondToken | src/parser.py:73-76 | each further name follows a COMMA and is the ID after it |
| ParsingProperties.DeclaredNamesAreEverySecondToken | src/parser.py:68-93 | `x, y : T` declares the IDs at every second token, in source order |
| ParsingProperties.DeclarationSharesTypeNode | src/parser.py:80-91 | all declarations of one group share the one well-shaped type node, and each takes its type |
| ParsingProperties.NoVarNoDeclarations | src/parser.py:54-66 | without VAR there are no declarations, and nothing is consumed |
| ParsingProperties.VarWithoutNames | src/parser.py:55-64 | VAR not followed by an ID declares nothing, despite the grammar comment |
| ParsingProperties.StreamAgreesWithLexer | src/lexer.py:270-278 | the tokens the parser pulls are the lexer's token list, or stop at its error |
| ParsingProperties.ScannedIdIsNotKeyword | src/lexer.py:200-203 | a scanned ID never spells a keyword in any case |
| ParsingProperties.LexedIdsAreNotKeywords | src/parser.py:414-419 | no ID in a lexed stream spells FLOAT, so that cast branch is never taken |
| Analysis.ScopedSymbolTable.constructor | src/semantic_analyzer.py:33-37 | a new table is empty and has the given name, level and enclosing table |
| Analysis.ScopedSymbolTable.Chain | src/semantic_analyzer.py:61-70 | the symbol maps from this table outwards, starting with its own |
| Analysis.ScopedSymbolTable.Insert | src/semantic_analyzer.py:57-59 | the symbol is stored under its name, carrying this table's level, and nothing else changes |
| Analysis.ScopedSymbolTable.Lookup | src/semantic_analyzer.py:61-70 | the innermost binding along the chain, or only this table's when the current scope alone is asked |
| Analysis.BuiltinScope | src/semantic_analyzer.py:84-87 | the global scope binds exactly the builtin type names |
| Analysis.BuiltinScopeAsWritten | src/semantic_analyzer.py:100-102 | as written, every builtin type symbol has no type |
| Analysis.AnalyzeStmts | src/semantic_analyzer.py:137-139 | the analysed children of a compound are as many as before |
| Analysis.SemanticAnalyzer.constructor | src/semantic_analyzer.py:82-87 | a new analyzer has no current scope |
| Analysis.SemanticAnalyzer.VisitVarDecl | src/semantic_analyzer.py:118-132 | checks the type, then duplicates, then inserts, as DeclareIn says; on an error the table is unchanged |
| Analysis.SemanticAnalyzer.VisitBlock | src/semantic_analyzer.py:113-116 | declares and then analyses the compound, as AnalyzeBlock says |
| Analysis.SemanticAnalyzer.VisitProgram | src/semantic_analyzer.py:92-111 | analyses the program in a new global scope, as AnalyzeProgram says, and restores the enclosing scope afterwards |
| Analysis.Analyze | src/semantic_analyzer.py:247-249 | a fresh analyzer gives AnalyzeProgram's result |
| AnalysisProperties.FirstBindingIsInnermost | src/semantic_analyzer.py:61-70 | lookup returns the binding of the innermost scope that binds the name, and None exactly when no scope does |
| AnalysisProperties.CurrentScopeHides | src/semantic_analyzer.py:61-70 | a binding in the current scope hides enclosing ones; a current-scope-only lookup never consults the enclosing scope |
| AnalysisProperties.InsertedSymbolIsFound | src/semantic_analyzer.py:57-65 | after insert, lookup returns the symbol, carrying the table's level |
| AnalysisProperties.UnknownTypeIsReportedFirst | src/semantic_analyzer.py:119-123 | an undeclared type is reported at the type node, before any duplicate check |
| AnalysisProperties.DuplicateIsRejected | src/semantic_analyzer.py:129-132 | a name already in the current scope is a Duplicate identifier error at the variable |
| AnalysisProperties.EnclosingNameMayBeShadowed | src/semantic_analyzer.py:129-132 | a name bound only in an enclosing scope may be declared again |
| AnalysisProperties.GlobalScopeHoldsBuiltins | src/semantic_analyzer.py:84-87 | the global scope holds exactly INTEGER and FLOAT, each with its own type |
| AnalysisProperties.ArrayDeclarationIsRejected | src/semantic_analyzer.py:119-123 | an ARRAY declaration is rejected as a type that is not declared |
| AnalysisProperties.DeclareAllKeepsBindings | src/semantic_analyzer.py:113-132 | declaring never changes an earlier binding of the scope |
| AnalysisProperties.DeclaredVariablesCarryTheirType | src/semantic_analyzer.py:118-132 | declarations succeed only when every type is INTEGER or FLOAT, and then each variable symbol carries its declared type at level 1 (the converse is FreshIntegerOrFloatDeclarationsSucceed) |
| AnalysisProperties.FreshIntegerOrFloatDeclarationsSucceed | src/semantic_analyzer.py:118-132 | declarations of pairwise distinct names not yet bound in the scope, each of type INTEGER or FLOAT, always succeed |
| AnalysisProperties.BinaryRules | src/semantic_analyzer.py:157-188 | `+ - * /` need equal operand types and take the left one; comparisons need equal types and give INTEGER; AND and OR need INTEGER; `%` is left untyped |
| AnalysisProperties.NoImplicitPromotion | src/semantic_analyzer.py:162-175 | mixing INTEGER and FLOAT operands is an error at the operator |
| AnalysisProperties.LeftOperandFirst | src/semantic_analyzer.py:157-160 | the left operand's error is reported first |
| AnalysisProperties.UnaryRules | src/semantic_analyzer.py:190-207 | unary `+` and `-` need a number and keep its type; NOT needs INTEGER |
| AnalysisProperties.ConditionsMustBeInteger | src/semantic_analyzer.py:217-237 | IF and WHILE conditions of any type other than INTEGER are rejected at the condition |
| AnalysisProperties.AssignmentIgnoresTypes | src/semantic_analyzer.py:141-143 | an assignment never compares the target's type with the value's type |
| AnalysisProperties.IndexIsNotVisited | src/semantic_analyzer.py:145-152 | a variable needs only its name bound; its index expression is never checked |
| AnalysisProperties.AnalysisOnlyFillsTypes | src/semantic_analyzer.py:145-215 | analysing an expression changes nothing but the resolved-type slots |
| AnalysisProperties.StatementAnalysisOnlyFillsTypes | src/semantic_analyzer.py:137-245 | the same for statements |
| AnalysisProperties.StatementsAnalysisOnlyFillsTypes | src/semantic_analyzer.py:137-139 | the same for the children of a compound |
| AnalysisProperties.AnalysisIsIdempotent | src/semantic_analyzer.py:145-215 | analysing an analysed expression again changes nothing |
| AnalysisProperties.AsWrittenVariablesAreUntyped | src/semantic_analyzer.py:126 | with the builtin symbols as written, a declared variable gets no type |
| AnalysisProperties.AsWrittenRejectsArithmetic | src/semantic_analyzer.py:162-168 | and then `x + 1` on a variable declared INTEGER is a type-mismatch error |
| AnalysisProperties.CorrectedAcceptsArithmetic | src/semantic_analyzer.py:162-168 | with typed builtin symbols, `x + 1` on a variable declared INTEGER has type INTEGER |
| Interpreting.Innermost | src/interpreter.py:59-61 | the index of the innermost frame binding a name: that frame binds it, no later frame does, and None exactly when no frame does |
| Interpreting.Exec | src/interpreter.py:126-128 | running a statement never uses more WHILE iterations than its fuel allows |
| Interpreting.ExecFrom | src/interpreter.py:39-41 | the same for the children of a compound |
| Interpreting.WhileRepeats | src/interpreter.py:126-128 | a WHILE whose condition holds runs its body once and then starts again |
| Interpreting.Interpreter.constructor | src/interpreter.py:15-18 | a new interpreter's call stack is one empty global frame |
| Interpreting.Interpreter.Store | src/interpreter.py:47-50 | overwrites the innermost binding of the name and reports whether one exists, as Assigned says |
| Interpreting.Interpreter.Visit | src/interpreter.py:39-161 | running a statement ends in the state, or the error, that Exec gives |
| Interpreting.Interpreter.VisitCompound | src/interpreter.py:39-41 | runs the children in order, stopping at the first error |
| Interpreting.Interpreter.VisitAssign | src/interpreter.py:43-54 | agrees with Exec on an assignment |
| Interpreting.Interpreter.VisitIf | src/interpreter.py:119-124 | agrees with Exec on IF |
| Interpreting.Interpreter.VisitWhile | src/interpreter.py:126-128 | its loop agrees with Exec on WHILE |
| Interpreting.Interpreter.VisitRead | src/interpreter.py:130-154 | agrees with Exec on READ |
| Interpreting.Interpreter.VisitWrite | src/interpreter.py:156-161 | agrees with Exec on WRITE |
| Interpreting.Interpreter.VisitVarDecl | src/interpreter.py:31-33 | as written, changes nothing; with default slots, binds an unbound name to a zero of its type |
| Interpreting.Interpreter.VisitBlock | src/interpreter.py:26-29 | agrees with ExecBlock |
| Interpreting.Interpreter.VisitProgram | src/interpreter.py:23-24 | agrees with ExecBlock on the program's block |
| Interpreting.Interpret | src/interpreter.py:163-166 | a fresh interpreter gives Run's result |
| InterpretingProperties.LookupIsInnermost | src/interpreter.py:56-64 | a read gives the value in the innermost frame binding the name, and fails exactly when no frame binds it |
| InterpretingProperties.AssignmentOverwritesInnermostOnly | src/interpreter.py:43-54 | an assignment overwrites only the innermost binding; every other frame and name is unchanged; it fails exactly when no frame binds the name |
| InterpretingProperties.AsWrittenDeclarationsChangeNothing | src/interpreter.py:31-33 | as written, declarations leave the call stack unchanged, and every run, for any input and fuel, starts with one empty frame |
| InterpretingProperties.UnboundStackStaysUnbound | src/interpreter.py:43-54 | on a stack binding nothing, no statement changes the stack |
| InterpretingProperties.UnboundChildrenKeepStack | src/interpreter.py:39-41 | the same for the children of a compound |
| InterpretingProperties.AsWrittenGlobalMemoryStaysEmpty | src/interpreter.py:163-166 | as written, every run ends with an empty global memory |
| InterpretingProperties.AsWrittenAssignmentFails | src/interpreter.py:31-33 | as written, a first assignment of a literal fails with not declared, whatever is declared |
| InterpretingProperties.DefaultSlotsBindDeclaredNames | src/interpreter.py:31-33 | with default slots, every declared name is bound in the innermost frame, and the other frames are unchanged |
| InterpretingProperties.DeclaredVariableIsAssignable | src/interpreter.py:43-54 | with default slots, assigning a literal to a declared variable succeeds, and the variable then holds its value |
| InterpretingProperties.DivisionByZeroIsReported | src/interpreter.py:79-82 | `/` by an operand equal to 0 is an error at the operator; otherwise it is true division |
| InterpretingProperties.ComparisonsYieldZeroOrOne | src/interpreter.py:83-98 | comparisons, AND and OR give exactly 0 or 1; AND gives 1 exactly when both operands are nonzero, OR when either is |
| InterpretingProperties.NoShortCircuit | src/interpreter.py:69-71 | both operands are always evaluated, left first, and an error in either is reported |
| InterpretingProperties.ModIsUnknownOperator | src/interpreter.py:99-100 | `%` reaches the Unknown operator error |
| InterpretingProperties.NotMapsZeroToOne | src/interpreter.py:107-109 | NOT maps 0 to 1 and any nonzero value to 0 |
| InterpretingProperties.ArithmeticPromotesToFloat | src/interpreter.py:73-82 | `+ - *` on two integers stay integer, and a float operand makes a float; `/` always gives a float |
| InterpretingProperties.IfBranchesOnNonzero | src/interpreter.py:119-124 | IF runs the true branch exactly when the condition is nonzero, else the false branch if any |
| InterpretingProperties.WhileEndsOnZero | src/interpreter.py:126-128 | a WHILE that finishes leaves its condition evaluating to 0 |
| InterpretingProperties.WhileOnZeroChangesNothing | src/interpreter.py:126-128 | a WHILE whose condition is 0 changes nothing |
| InterpretingProperties.WriteAppendsOneItem | src/interpreter.py:156-161 | WRITE appends one item, the raw string or the value, and no newline |
| InterpretingProperties.ReadConsumesOneLine | src/interpreter.py:130-154 | READ prints its prompt and consumes exactly one line; at the end of input it fails with Unexpected end of input |
| InterpretingProperties.OutputIsAppendOnly | src/interpreter.py:156-161 | output only grows, and input is consumed only from the front, however a statement ends |
| InterpretingProperties.OutputIsAppendOnlyFrom | src/interpreter.py:39-41 | the same for the children of a compound |
| InterpretingProperties.OutputIsAppendOnlyLoop | src/interpreter.py:126-128 | the same for a WHILE |

## Left out

- The command-line driver (`src/__main__.py`) and packaging (`setup.py`). They only read files and print results.
- Console I/O. READ takes its lines from a parameter, `input`. Each line is already converted to a number, or to None when it is neither an int nor a float. Python's text-to-number conversion, including `inf`, `nan` and underscores, is not modelled. Output is a list of items, with no number formatting.
- Floating point. Floats are exact `real`s, so no rounding behaviour is modelled, either in the lexer's `float(...)` or in the interpreter's arithmetic and true division.
- The exact wording of error messages. Errors are kinds with the line and column they are reported at.
- Python's ValueError from `float()` on a malformed lexeme such as `1.5e` (`src/lexer.py:172-173`). It carries no position; the model reports it as the lexical error `InvalidFloatLiteral` at the line and column where the number starts.
- `print` tracing, the table dumps and the `__str__`/`__repr__` methods.
- The `Param` node. It is defined in `src/ast.py` but never built.
- Character classes. "Whitespace", "letter" and "digit" are their ASCII sets, not Python's Unicode classes.
- Array element storage and indexed evaluation. The interpreter ignores an index, as the source does.
- Termination of WHILE. Each iteration costs one unit of `fuel`, and a run with no fuel left halts with `OutOfFuel`.
- Interpreting.Exec: does not model a WHILE that never ends, because the fuel bound cuts every run short.
- Update in place of `node.type` by the analyzer. The analysis returns the annotated tree instead.
- Aliasing between `GLOBAL_MEMORY` and the first frame. The global memory is the first frame of the final stack.
- Analysis.SemanticAnalyzer.VisitBlock: after a failing declaration, the symbols already inserted are not stated. The result and the error are.
- Python's NameError for the undefined cast classes (`src/parser.py:414-425`). It carries no position; the model reports it as the syntax error `UndefinedNode` at the line and column of the cast's ID token.
- `generic_visit` on a node kind with no handler. The node kinds are a closed datatype, so the only unhandled nodes are the cast forms, which fail with `UndefinedNode`.
- Interpreting.NumberValue: a `Num` token with a non-numeric value would evaluate to 0. The lexer never builds one.

## Findings

| source | as written | input that shows it | evidently intended | confidence | as-written member | corrected member |
|---|---|---|---|---|---|---|
| src/semantic_analyzer.py:23-25 | `BuiltinTypeSymbol` passes no type, so at line 126 every declared variable gets the type None | `VAR x : INTEGER; ... x + 1`: x has type None and the literal has type INTEGER, so `+` reports a type mismatch (as written, `x + y` on two declared variables is accepted, with type None) | the builtin symbol from `builtin_types` (lines 84-87) carries its type | not executed | AnalysisProperties.AsWrittenRejectsArithmetic | AnalysisProperties.CorrectedAcceptsArithmetic |
| src/interpreter.py:31-33 | `visit_VarDecl` does nothing, so no variable ever has a storage slot | `PROGRAM p; VAR x : INTEGER; BEGIN x := 1 END.` halts with x not declared | a declaration binds its name, in the innermost frame, to a zero of its type | not executed | InterpretingProperties.AsWrittenAssignmentFails | InterpretingProperties.DeclaredVariableIsAssignable |
