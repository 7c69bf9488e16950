# letscript front end, modelled in Dafny

letscript is a small scripting language written in Rust. This project models
the four deterministic pieces of its front end and proves properties of them:

- **the lexer** (`src/tokenizer.rs`): one pass over the characters of a line.
  Single-character symbols become fixed token kinds. Digit runs, keyword runs
  and other alphanumeric runs become `Literal` tokens or keyword tokens.
  `<`/`>` runs become comparison tokens.
- **values and operators** (`src/expr.rs`): the classification of literal
  text as an `i32`, a double, a boolean, `null` or undefined. It also covers
  the three casts, and `operate` / `operate_unary`, which apply one operator
  and render the result back as a `Literal` token.
- **the expression parser** (`src/parser.rs`): operator precedence, the
  conversion of infix tokens to postfix, collecting an expression's tokens
  from an iterator, and postfix evaluation.
- **the scope stack** (`src/ast.rs`): symbols, one scope frame, and the call
  stack of frames with push, pop, add-to-innermost and innermost-first lookup.

Modules, one per source file plus three shared ones:

| module | file | models |
|---|---|---|
| `Outcomes` | outcomes.dfy | `Option`, the panics of the source as `Fault` values, and `Outcome` (value, panic, or float-dependent) |
| `Tokens` | tokens.dfy | the token types of `src/token.rs` |
| `Ascii` | ascii.dfy | the character classes the lexer and the literal classifier use |
| `Numerals` | numerals.dfy | decimal text: `parse::<i32>`, `i32::to_string`, the float literal shape, and when a float literal parses to zero |
| `Tokenizer` | tokenizer.dfy | `src/tokenizer.rs`. The specification functions `Step`/`LexFrom`/`Lex` and the imperative `Tokenize` with one method per helper, each proved equal to its function |
| `Expr` | expr.dfy | `src/expr.rs`. `LSExpr`, `eval`, the casts, `convert_token_to_value`, `operate`, `operate_unary` |
| `LexerExamples` | lexer_examples.dfy | the seven whole-line tests of `src/tokenizer.rs`, each proved to lex to its full token list |
| `ExprExamples` | expr_examples.dfy | the worked examples of `src/test_expr.rs`, on hand-built tokens |
| `Parser` | parser.dfy | `src/parser.rs`. `precedence`, then `infix_to_postfix`, `collect_expression_tokens` and `eval_expression`, each as a method proved equal to a specification function |
| `ParserExamples` | parser_examples.dfy | the worked examples of `src/test_parser.rs`, on hand-built tokens |
| `Ast` | ast.dfy | `src/ast.rs`. `SymbolType`, the `Scope` class and the `CallStack` class |

Every panic is a value:

- An `unwrap` on `None`, a `panic!`, `i32` overflow and division by zero each
  yield `Panic(fault)`, with a fault naming the cause.
- A loop that would never end yields `Panic(NoProgress(pos))`.
- A result that needs IEEE double arithmetic or formatting is
  `FloatDependent`. A double is kept as the integer it was cast from or the
  literal text it was parsed from.

### What the code does, as modelled

These behaviours follow the code. Some of them differ from the language's
description or from the source's own tests.

- The lexer's regexes (`var\z`, `>=\z`, …) are anchored only at the end.
  - A keyword run therefore becomes a keyword token whenever it *ends with*
    the keyword. For example, `ovar`, starting at `o`, is tested against `or`
    only, while `avar` starting at `a` is tested against `and`.
  - A word run started by a keyword letter, or a punctuation run started by
    `<` or `>`, that reaches the end of the line panics in the helper's
    `next().unwrap()`. A number run does not, and neither does a word run of
    the default branch, which stops at the end of the line
    (src/tokenizer.rs:242).
  - A character that no arm handles, such as a tab, `%`, or `.` not after a
    digit, sends the default branch into a loop that never advances.
  - There is no arm for `%`, so `Mod` is never produced. `mod` lexes as a
    literal. `In` and `NotEqual` are never produced either.
  - The `GreaterThan`/`LessThan` fallback after the operator helper
    (src/tokenizer.rs:158-161, 172-175) is dead code.
- `precedence` gives every comparison precedence 0, so postfix evaluation
  treats `>`, `<`, `>=`, `<=` as operands: `5 > 7` leaves three tokens on
  the stack, where the test expects `false`.
- `infix_to_postfix` can put an `OpenParen` into its result.
  - An incoming comparison has precedence 0, the same as `(`, so the first
    pop (src/parser.rs:139-141) moves a `(` on top of the stack to the
    queue: `(5 > 3)` becomes `5 ( 3 >`.
  - The second pop loop (src/parser.rs:148-152) can also pop a `(` that
    lies below a higher-precedence token: `(2 * 3 + 4)` becomes
    `2 3 * ( 4 +`. The `)` then finds no `(` and pops only what is above.
  - Postfix evaluation then treats the `(` as an operand, since its
    precedence is 0. It has no payload, so an operator that takes it as an
    operand panics with `MissingPayload` in `convert_token_to_value`
    (src/expr.rs:159).
- The second pop loop of `infix_to_postfix` compares the incoming
  precedence with that of the token *just popped*, not the new top.
  With it, `1 and 2 * 3 + 4` becomes `1 2 3 * and 4 +`, which evaluates to
  `Undefined`. Standard precedence would give `1 2 3 * 4 + and`, which is
  `true`.
- `cast_to_float` and `cast_to_int` map `false` to 1 and `true` to 0.
- `Scope::add` and `add_symbol` overwrite an existing binding; they do not
  fail on redefinition.
- `eval_expression` as written never ends (see Findings). It also returns
  `()`, so the test functions that read the result of
  `eval_expression(&mut postfix)` do not type-check. The model's
  `EvalExpression` returns the final calculation stack.

## Model

| member | source | states |
|---|---|---|
| Tokenizer.SimpleToken | src/tokenizer.rs:265-270 | a token of the given kind with no payload, which has the lexer's shape for every non-literal kind |
| Tokenizer.LiteralToken | src/tokenizer.rs:358-367 | a well-formed `Literal` whose text is exactly the given string |
| Tokenizer.SimpleKind | src/tokenizer.rs:129-221 | the kind of the fifteen characters lexed on their own: `=`, `+`, `-`, `*`, `/`, `{`, `}`, `[`, `]`, `(`, `)`, newline, `,`, `:`, `"`; `None` for every other character (`SymbolRule` and `SimpleNotKeyword` state what the lexer does with them) |
| Tokenizer.KeywordArms | src/tokenizer.rs:36-128 | the keywords tried, in the source's order, after each keyword letter: `v` var (kind `Assign`), `i` is then if, `a` and, `o` or, `n` not, `f` for then function, `e` each then else, `l` loop, `w` while (`KeywordRule` states the resulting turn) |
| Tokenizer.RunEnd | src/tokenizer.rs:280-284 | the end of the maximal run starting at `i`: every character before it is in the run's class, and the character at it is not (or the line ends) |
| Tokenizer.FirstMatchingArm | src/tokenizer.rs:314-324 | the first arm whose keyword ends the run; no earlier arm's keyword does; `|arms|` when none does |
| Tokenizer.KeywordToken | src/tokenizer.rs:314-326 | the kind of the first arm whose keyword ends the run, or a literal holding the run when none does (`KeywordTokenWellFormed`, `KeywordRule`) |
| Tokenizer.OperatorToken | src/tokenizer.rs:341-355 | the operator's kind when the run ends with its text, else `LessThan` for a lone `<`, `GreaterThan` for a lone `>`, else a literal holding the run (`OperatorTokenWellFormed`, `ComparisonRule`) |
| Tokenizer.KeywordScan | src/tokenizer.rs:300-327 | the word run from the position and the token `KeywordToken` makes of it, or the end-of-input panic when the run reaches the end of the line (`GenerateKeywordRegexToken` computes it; `KeywordRule` states it) |
| Tokenizer.OperatorScan | src/tokenizer.rs:329-356 | the punctuation run from the position and the token `OperatorToken` makes of it, or the end-of-input panic when the run reaches the end of the line (`GenerateOperatorRegexToken`, `ComparisonRule`) |
| Tokenizer.NumberScan | src/tokenizer.rs:226-235 | the run of digits and dots from the position as one literal; it stops cleanly at the end of the line (`ScanNumber`, `NumberRule`) |
| Tokenizer.DefaultScan | src/tokenizer.rs:236-253 | the alphanumeric run from the position as one literal; an empty run is the non-advancing loop `Panic(NoProgress(i))` (`ScanDefault`, `DefaultRule`) |
| Tokenizer.Step | src/tokenizer.rs:35-254 | one turn of the main loop moves strictly forward within the line; it can fail only by the end-of-input unwrap or the non-advancing default branch; it never depends on floating point |
| Tokenizer.LexFrom | src/tokenizer.rs:28-261 | the tokens the main loop pushes from a position on, or the first fault a turn raises (`LexFromStep`, `LexFromFault`, `LexFromWellFormed`, `LexFromFaults`) |
| Tokenizer.Lex | src/tokenizer.rs:7-263 | the token list of a whole line, the function `Tokenize` is proved equal to; `LexWellFormed`, `LexFaults` and `LexSucceeds` state its properties |
| Tokenizer.LexFromStep | src/tokenizer.rs:28-261 | the tokens from a position are the step's token, then the tokens from where the step resumes |
| Tokenizer.LexFromFault | src/tokenizer.rs:28-261 | a failing turn fails the whole scan with its own fault |
| Tokenizer.SpaceRule | src/tokenizer.rs:222-225 | a space yields no token and consumes one character |
| Tokenizer.SymbolRule | src/tokenizer.rs:129-221 | each single-character symbol yields one payload-free token of its fixed non-literal kind and consumes one character |
| Tokenizer.SimpleNotKeyword | src/tokenizer.rs:129-221 | the single-character arms and the keyword letters are disjoint |
| Tokenizer.NumberRule | src/tokenizer.rs:226-235 | a digit starts a maximal run of digits and dots, which yields exactly one `Literal` carrying the run verbatim |
| Tokenizer.KeywordRule | src/tokenizer.rs:36-128 | a keyword letter starts a maximal alphanumeric run; it panics at the end of the line, yields the token of the first keyword of the letter's arm that ends the run, and otherwise yields a `Literal` carrying the run |
| Tokenizer.ComparisonRule | src/tokenizer.rs:149-176 | a run starting with `<`/`>` panics at the end of the line; a run ending in `<=`/`>=` gives `Lte`/`Gte`; a lone `<`/`>` gives `LessThan`/`GreaterThan`; any other run gives a `Literal` |
| Tokenizer.ComparisonStep | src/tokenizer.rs:149-176 | `<` and `>` go to the punctuation-run helper with `<=`/`Lte` and `>=`/`Gte` |
| Tokenizer.DefaultRule | src/tokenizer.rs:236-253 | any other handled character starts an alphanumeric run that yields a `Literal`; an unhandled character makes the scan stop with `NoProgress` at that position |
| Tokenizer.StepWellFormed | src/tokenizer.rs:265-367 | every token a turn yields is well-formed: a `Literal` carries text and every other kind carries no payload |
| Tokenizer.LexFromWellFormed | src/tokenizer.rs:255-258 | every token of a successful scan from any position is well-formed |
| Tokenizer.LexWellFormed | src/tokenizer.rs:7-263 | every token `tokenize` returns is well-formed |
| Tokenizer.StepFault | src/tokenizer.rs:236-356 | a failing turn fails at its own unhandled character, or at the end of the line, because the word run of a keyword letter or the punctuation run of `<`/`>` it starts reaches that end |
| Tokenizer.RunsToEndLast | src/tokenizer.rs:280-284 | a run that reaches the end leaves a letter, a digit or a punctuation mark as the line's last character |
| Tokenizer.LexFromFaults | src/tokenizer.rs:28-261 | a scan from any position never depends on floating point, and its fault is one of those two: an unhandled character at or after that position, or the end of the line reached by such a run starting at or after it |
| Tokenizer.LexFaults | src/tokenizer.rs:7-263 | `tokenize` fails only for those two reasons, anywhere in the line |
| Tokenizer.LexSucceeds | src/tokenizer.rs:7-263 | a line of handled characters that is empty or ends with a space or newline always lexes |
| Tokenizer.GenerateRegexToken | src/tokenizer.rs:272-298 | the imperative helper returns exactly the single-keyword scan of the run |
| Tokenizer.GenerateKeywordRegexToken | src/tokenizer.rs:300-327 | the imperative helper returns exactly the keyword scan with the arms tried in order |
| Tokenizer.GenerateOperatorRegexToken | src/tokenizer.rs:329-356 | the imperative helper returns exactly the punctuation-run scan |
| Tokenizer.ScanNumber | src/tokenizer.rs:226-235 | the digit branch's loop returns exactly the number scan |
| Tokenizer.ScanDefault | src/tokenizer.rs:236-253 | the default branch's loop returns exactly the default scan, including its failure to advance |
| Tokenizer.PrependStep | src/tokenizer.rs:255-258 | pushing a turn's token onto the tokens so far preserves what the rest of the scan will return |
| Tokenizer.ScanAt | src/tokenizer.rs:35-254 | the `match` on the current character computes exactly `Step` |
| Tokenizer.Tokenize | src/tokenizer.rs:7-263 | the main loop returns exactly `Lex` of the line |
| LexerExamples.RunToEnd | src/tokenizer.rs:280-284 | characters that form a maximal run of a kind are exactly what the helper's loop reads |
| LexerExamples.SecondArm | src/tokenizer.rs:314-324 | a run that fails the first of two keyword arms and matches the second gets the second arm's kind |
| LexerExamples.FitsStep | src/tokenizer.rs:35-254 | a turn whose run fits the characters at its position is exactly the step the main loop's `match` takes there |
| LexerExamples.FollowsLex | src/tokenizer.rs:28-261 | a line consumed run by run lexes, from that position, to the tokens the runs push |
| LexerExamples.LexLine | src/tokenizer.rs:7-263 | such a line is ASCII, and `tokenize` returns exactly the listed tokens |
| LexerExamples.AssignmentTokens | src/tokenizer.rs:408-419 | ` var x= 12 \n` lexes to `var`, `x`, `=`, `12` and a line break: the five kinds the test expects |
| LexerExamples.CombinatorTokens | src/tokenizer.rs:421-432 | `1+ 4 -3.5 *97 / 4 \n` lexes to the ten tokens the test counts, with the kinds it checks first |
| LexerExamples.BooleanExpressionTokens | src/tokenizer.rs:434-446 | `3 <5 or 7 = 2 and 5>=4 or 0.77<= y\n` lexes to sixteen tokens, `or`, `=`, `and` and `>=` where the test looks |
| LexerExamples.BracketTokens | src/tokenizer.rs:448-463 | the bracket line lexes, and terminates, to twenty-four tokens with the brackets, braces and parentheses where the test looks |
| LexerExamples.ConditionalsTokens | src/tokenizer.rs:465-476 | the three-line conditional lexes to twenty-four tokens with `if`, `else` and the last line break where the test looks |
| LexerExamples.LoopsTokens | src/tokenizer.rs:478-489 | the loop line lexes to nineteen tokens with `for`, `each` and the parentheses and brace where the test looks |
| LexerExamples.FunctionsTokens | src/tokenizer.rs:491-502 | the two-line function lexes to twenty-two tokens with `function`, the parenthesis, the comma, the literal and `loop` where the test looks |
| Numerals.NatToDigits | src/expr.rs:343 | decimal digits with no leading zero unless the number is 0 |
| Numerals.DigitsRoundTrip | src/expr.rs:343 | the value of the digits of `n` is `n` |
| Numerals.IsIntText | src/expr.rs:154 | the integer regex: an optional minus sign and then only digits, at least one (`ConvertTokenToValue` and `IntNotFloat` use it) |
| Numerals.ParseInt | src/expr.rs:162 | the mathematical value of an integer text, negated after a minus sign; `parse::<i32>` succeeds exactly when it is in the `i32` range (`ConvertTokenToValue`); `IntRoundTrip` states it inverts `IntToString` |
| Numerals.IntToString | src/expr.rs:343 | `to_string` of an integer is text the integer classifier accepts |
| Numerals.IntRoundTrip | src/expr.rs:161-162 | parsing the rendered text of an integer gives back the integer |
| Numerals.IntToStringInjective | src/expr.rs:343 | distinct integers render as distinct texts |
| Numerals.DotIndex | src/expr.rs:155 | the position of the first `.`, or the length when there is none |
| Numerals.IsFloatText | src/expr.rs:155 | the float regex: an optional minus sign, digits, one dot, digits, with at least one digit on each side (`ConvertTokenToValue`, `IntNotFloat`) |
| Numerals.IntegerPart | src/expr.rs:155 | the digits before the dot of a float literal are a non-empty digit string |
| Numerals.FractionPart | src/expr.rs:155 | the digits after the dot are a non-empty digit string |
| Numerals.ParsesToZero | src/expr.rs:107-113 | whether `parse::<f64>` rounds the literal to a zero double: its magnitude is at most 2^-1075, half the least subnormal; `ZeroDigitsParseToZero` and `IntegerPartNonzero` state its two cases |
| Numerals.ZeroDigitsParseToZero | src/expr.rs:107-113 | a float literal whose digits are all zero parses to zero, so it casts to `false` |
| Numerals.IntegerPartNonzero | src/expr.rs:107-113 | a float literal with a non-zero integer part does not parse to zero, so it casts to `true` |
| Numerals.IntNotFloat | src/expr.rs:154-155 | no text is both an integer literal and a float literal |
| Expr.TruncDiv | src/expr.rs:68 | Rust's `/`: the magnitude is the quotient of the magnitudes and the sign is negative exactly when the operands' signs differ |
| Expr.TruncModSign | src/expr.rs:70 | Rust's `%`: the remainder is smaller than the divisor in magnitude and has the dividend's sign |
| Expr.TruncModValue | src/expr.rs:70 | the remainder is the Euclidean remainder of the magnitudes, signed like the dividend |
| Expr.Compare | src/expr.rs:76-93 | the six comparisons `==`, `!=`, `>`, `<`, `>=`, `<=` on the operands' values, shared by the `bool`, `i32` and `f64` arms of `eval` (`Eval`, `CompareF64`, `OperateIntComparison`) |
| Expr.CompareF64 | src/expr.rs:88-93 | a comparison of two doubles is known exactly when both come from integers, and is then the integer comparison |
| Expr.Checked | src/expr.rs:56-73 | an `i32` result exactly when in range, otherwise the overflow panic |
| Expr.Eval | src/expr.rs:54-97 | an operation variant yields an integer or a boolean; a value variant yields `Undefined`; it panics only on overflow or division by zero |
| Expr.CastToBool | src/expr.rs:98-118 | integers and doubles are `true` when non-zero, `Null` is `false`, a boolean is itself, and exactly the other variants give `Undefined` |
| Expr.CastToFloat | src/expr.rs:120-134 | an integer becomes the exact double; a double stays itself; `false` becomes 1 and `true` becomes 0; `Null` stays `Null`; anything else is `Undefined` |
| Expr.Saturate | src/expr.rs:139 | a float-to-int cast saturates at the `i32` bounds |
| Expr.CastToInt | src/expr.rs:136-150 | an integer stays; a double cast from an integer becomes that integer saturated at the `i32` bounds; `false`/`true` become 1/0; `Null` stays; anything else is `Undefined`; it never panics, and only a parsed float literal depends on rounding |
| Expr.TokenText | src/expr.rs:159 | the token's text, or the missing-payload panic exactly when it has none |
| Expr.Classify | src/expr.rs:154-171 | integer text in range gives that `Int32`; out of range panics; float text gives `Float64`; `true`/`false` give booleans; `null` gives `Null`; anything else gives `Undefined`; each in both directions |
| Expr.ConvertTokenToValue | src/expr.rs:153-172 | a token without text panics; otherwise its text is classified |
| Expr.Render | src/expr.rs:339-350 | an integer or boolean becomes its text, `Null` becomes a literal with no text, and any other non-double value becomes `"Undefined"`; only a double depends on formatting |
| Expr.IntLiteral | src/expr.rs:343 | the literal carries the integer's decimal text |
| Expr.BoolLiteral | src/expr.rs:345 | the literal carries `true` or `false` |
| Expr.RenderClassifiesBack | src/expr.rs:339-350 | a rendered integer or boolean classifies back to the same value |
| Expr.F64ComparisonNode | src/expr.rs:88-93 | the comparison node built from two doubles evaluates to the double comparison |
| Expr.Comparing | src/expr.rs:266-330 | a comparison panics when either side has no float cast, otherwise it compares the two casts |
| Expr.LogicalNode | src/expr.rs:74-75 | the `And`/`Or` node evaluates to the conjunction or disjunction |
| Expr.Logical | src/expr.rs:238-265 | `and`/`or` combine the boolean casts of both sides, and panic when either side has none |
| Expr.ComparisonOf | src/expr.rs:266-330 | the comparison each comparison operator's arm performs: `>`, `<`, `>=`, `<=` and `==`; `None` for `NotEqual` and every other operator, which have no comparison arm (`OperateComparison`, `OperateNoArm`) |
| Expr.Arithmetic | src/expr.rs:178-236 | the node the arithmetic arms build for each pair of `i32`/`f64` operands, with the operand order the source uses (the float arms swap them); any other operand pair is `Undefined` (`OperateIntArithmetic`, `OperateFloatArithmetic`) |
| Expr.Combine | src/expr.rs:178-338 | the operator match yields an integer, a boolean or `Undefined`, or one of four panics |
| Expr.Operate | src/expr.rs:174-351 | `operate` always returns a `Literal` with text, or panics for one of six stated causes |
| Expr.OperateUnary | src/expr.rs:353-383 | `operate_unary` always returns a `Literal` with a payload |
| Expr.IntLiteralValue | src/expr.rs:153-172 | the literal of an `i32` classifies back to it |
| Expr.BoolLiteralValue | src/expr.rs:153-172 | the literal of a boolean classifies back to it |
| Expr.OperateIntArithmetic | src/expr.rs:179-227 | two integer literals under `+ - * / %` give the literal of the exact result, left operand on the left, or the panic Rust raises |
| Expr.CombineIntArithmetic | src/expr.rs:179-227 | the same on values, through the overflow check |
| Expr.OperateFloatArithmetic | src/expr.rs:180-236 | a double beside a number under `+ - * / %` makes the result float-dependent |
| Expr.CombineFloatArithmetic | src/expr.rs:180-236 | the same on values |
| Expr.OperateLogical | src/expr.rs:238-265 | `and`/`or` on two literals give the literal of the combined boolean casts, or panic |
| Expr.OperateComparison | src/expr.rs:266-330 | a comparison of two literals compares their float casts; the result is known exactly when both casts come from integers or booleans, it is float-dependent when one is a parsed float literal, and it panics when either side has no float cast |
| Expr.OperateIntComparison | src/expr.rs:266-330 | comparing two integer literals is comparing the integers |
| Expr.OperateBoolComparison | src/expr.rs:120-134 | comparing two boolean literals compares the inverted ranks, `true` as 0 and `false` as 1 |
| Expr.OperateNoArm | src/expr.rs:331-350 | arithmetic on a non-number, or an operator with no arm, gives the literal `"Undefined"` |
| Expr.UnaryOperandFault | src/expr.rs:354 | the operand is classified first, so its panic comes first |
| Expr.UnaryUnknownOperator | src/expr.rs:366-368 | every operator other than `not` panics |
| Expr.UnaryNot | src/expr.rs:357-365 | `not` gives the negated boolean cast, and panics when the operand has none |
| Expr.NegateRenders | src/expr.rs:371-382 | the negation node renders as the literal of the negated boolean |
| Expr.NotNot | src/expr.rs:353-383 | `not` applied twice gives back the operand's boolean cast |
| ExprExamples.Operation1 | src/test_expr.rs:9-19 | `3+4` gives `7` |
| ExprExamples.Operation2 | src/test_expr.rs:22-32 | `37-17` gives `20` |
| ExprExamples.Operation3 | src/test_expr.rs:35-45 | `5.1 * 5.0` is float-dependent |
| ExprExamples.Operation4 | src/test_expr.rs:48-58 | `8/2` gives `4` |
| ExprExamples.Operation5 | src/test_expr.rs:61-71 | `8.6/2` is float-dependent |
| ExprExamples.Operation6 | src/test_expr.rs:74-84 | `1 and false` gives `false` |
| ExprExamples.Operation7 | src/test_expr.rs:87-97 | `1.1 or false` gives `true` |
| ExprExamples.FloatLiteral | src/expr.rs:155 | text of the form digit, dot, digit classifies as that double |
| ExprExamples.OperateSum | src/expr.rs:179 | `+` on integer literals gives the sum when it fits |
| ExprExamples.OperateDifference | src/expr.rs:189-190 | `-` gives the difference when it fits |
| ExprExamples.OperateProduct | src/expr.rs:201-202 | `*` gives the product when it fits |
| ExprExamples.OperateQuotient | src/expr.rs:215-216 | `/` gives the truncated quotient |
| ExprExamples.OperateEquals | src/expr.rs:318-330 | `=` on integer literals gives whether they are equal |
| ExprExamples.OperateIntLogical | src/expr.rs:240-265 | integers under `and`/`or` count as `true` when non-zero |
| ExprExamples.OperateBoolAnd | src/expr.rs:238 | `and` on two booleans is conjunction |
| ExprExamples.OperateBoolPlus | src/expr.rs:331-337 | `+` on a boolean has no arm and gives `"Undefined"` |
| Parser.Precedence | src/parser.rs:87-104 | one of the five levels the table uses |
| Parser.PrecedenceLevels | src/parser.rs:87-104 | 255 exactly for `* / mod`, 253 for `+ -`, 252 for `in =`, 251 for `and or`, and 0 exactly for every other kind |
| Parser.OpenIndex | src/parser.rs:126-130 | the pop loop of the `CloseParen` arm stops at the topmost `OpenParen`, or empties the stack |
| Parser.PopCount | src/parser.rs:148-152 | the second pop loop pops no more tokens than the stack holds |
| Parser.Popped | src/parser.rs:133-152 | the operator arm pops no more tokens than the stack holds |
| Parser.Move | src/parser.rs:126-152 | moves the top `k` stack tokens to the end of the queue, top first, as the pop loops do (`MoveGood`, `MoveCounts`) |
| Parser.PopCountStops | src/parser.rs:148-152 | the loop pops while the incoming precedence is below that of the token popped just before, and stops at the first that is not |
| Parser.PoppedStops | src/parser.rs:132-154 | the incoming operator pops the top exactly when its precedence is at most the top's, then goes on as the second loop does |
| Parser.ShuntToken | src/parser.rs:120-154 | one turn of the `for` loop: a literal is queued, `(` is pushed, `)` pops up to the topmost `(` and drops it, an operator pops `Popped` tokens and is pushed (`CloseParenTurn` and `OperatorTurn` compute it; `ShuntTokenGood`, `ShuntTokenCounts`) |
| Parser.ShuntAll | src/parser.rs:110-155 | the stack and queue after the `for` loop over the tokens (`ShuntAllGood`, `ShuntAllCounts`) |
| Parser.ShuntAllAppend | src/parser.rs:110-155 | the loop over a concatenation runs the second part from the state the first leaves |
| Parser.Postfix | src/parser.rs:106-166 | the queue after the loop followed by every token left on the stack, top first: the result `InfixToPostfix` is proved to return; `PostfixLiterals`, `PostfixCounts` and `PostfixPermutes` state its properties |
| Parser.InfixToPostfix | src/parser.rs:106-166 | the imperative routine returns exactly the `Postfix` of its input |
| Parser.CloseParenTurn | src/parser.rs:125-131 | the `CloseParen` arm computes exactly its turn of the specification |
| Parser.OperatorTurn | src/parser.rs:132-154 | the operator arm computes exactly its turn of the specification |
| Parser.ShuntTokenGood | src/parser.rs:110-155 | a turn keeps the stack free of literals and `CloseParen`s and the queue free of `CloseParen`s, and appends the literal it reads to the queue |
| Parser.CloseParenGood | src/parser.rs:125-131 | the `CloseParen` turn keeps that invariant and adds no literal |
| Parser.OperatorGood | src/parser.rs:132-154 | the operator turn keeps that invariant and adds no literal |
| Parser.ShuntTokenCounts | src/parser.rs:120-154 | a turn adds the token it reads, except a `CloseParen`, and drops at most an `OpenParen` |
| Parser.CloseParenCounts | src/parser.rs:125-131 | the `CloseParen` turn only drops an `OpenParen` |
| Parser.OperatorCounts | src/parser.rs:132-154 | the operator turn adds exactly the operator |
| Parser.ShuntAllGood | src/parser.rs:110-155 | the loop keeps the invariant and appends the input's literals to the queue in order |
| Parser.ShuntAllCounts | src/parser.rs:110-155 | the loop holds every non-`OpenParen` token exactly as often as it was read (closing parentheses excepted), and no token more often |
| Parser.PostfixLiterals | src/parser.rs:106-166 | the output has no `CloseParen` and the input's literals in their input order |
| Parser.PostfixCounts | src/parser.rs:106-166 | every non-parenthesis token is output exactly as often as it occurs, and no token more often |
| Parser.PostfixPermutes | src/parser.rs:106-166 | without parentheses the output is a permutation of the input |
| Parser.PayloadWithoutText | src/parser.rs:77-79 | the token has a payload whose `s_val` is `None`, so the loop's `s_val.unwrap()` panics (`CollectMaximal`, `CollectPrefix`) |
| Parser.Passes | src/parser.rs:74-79 | the loop takes the token: its kind is one of the collectable kinds and its payload, if any, has text (`FirstStop`) |
| Parser.Collect | src/parser.rs:61-85 | collecting never depends on floating point |
| Parser.FirstStop | src/parser.rs:75-84 | the position of the first token the loop does not go past: every token before it is collectable with text, and it is not |
| Parser.CollectMaximal | src/parser.rs:61-85 | at the first token the loop does not go past: a non-collectable one is returned with the tokens before it and the rest; a collectable one has a payload without text, and the `s_val.unwrap()` panics; with none, the iterator runs out |
| Parser.CollectPrefix | src/parser.rs:75-84 | collectable tokens with text followed by one that is not collectable are collected up to it, whatever follows |
| Parser.CollectExpressionTokens | src/parser.rs:61-85 | the imperative loop returns exactly `Collect` of the remaining tokens, the missing-payload panic included |
| Parser.EvalToken | src/parser.rs:197-204 | one pass of the intended loop: a token of precedence 0 is pushed; an operator pops the right then the left operand and pushes `operate`'s result, or fails with `StackUnderflow` when fewer than two are there (`EvalSingle`, `EvalOperands`, `EvalOperatorStep`) |
| Parser.EvalFrom | src/parser.rs:196-205 | the calculation stack after the intended passes over the tokens, or the first fault (`EvalDepth`, `EvalFromAppend`, `EvalTree`) |
| Parser.EvalPostfix | src/parser.rs:192-205 | `EvalFrom` from an empty stack; an empty expression is the panic of `get(0).unwrap()` (`EvalExpression` computes it; `EvalTreeValue` states its value on a tree's postfix form) |
| Parser.EvalExpression | src/parser.rs:192-205 | the intended single pass returns exactly `EvalPostfix` of the postfix expression |
| Parser.EvalDepth | src/parser.rs:196-205 | a successful pass leaves the stack depth plus one per operand minus one per operator |
| Parser.EvalFromAppend | src/parser.rs:196-205 | evaluating a concatenation evaluates the second part on the stack the first leaves |
| Parser.EvalOperands | src/parser.rs:197-198 | two operands in a row are pushed in turn |
| Parser.EvalComparisonIsOperand | src/parser.rs:197-198 | a comparison has precedence 0, so `l r op` leaves all three tokens on the stack |
| Parser.EvalOperatorStep | src/parser.rs:199-203 | an operator replaces the two operands on top by what `operate` makes of them, right popped first |
| Parser.EvalTree | src/parser.rs:192-205 | evaluating the postfix form of an expression tree pushes its value, whatever lies below and follows |
| Parser.EvalTreeValue | src/parser.rs:192-205 | the pass over the postfix form of a tree leaves exactly the tree's value |
| Parser.AsWrittenPass | src/parser.rs:197-204 | one pass of the loop as written: `token` is never reassigned, an operand is pushed onto the calculation stack again, an operator's result is appended to the expression (`AsWrittenOperatorFirst`) |
| Parser.AsWrittenPasses | src/parser.rs:196-205 | at most `n` passes as written, stopping once the expression is empty; the as-written half of the `eval_expression` finding (`AsWrittenOperandLoops`, `AsWrittenNeverEnds`) |
| Parser.AsWrittenOperandLoops | src/parser.rs:196-205 | as written, each pass with an operand first pushes it again and leaves `expr` unchanged |
| Parser.AsWrittenNeverEnds | src/parser.rs:194-205 | as written, on a postfix expression starting with an operand, the loop condition still holds after any number of passes |
| Parser.TreeStartsWithOperand | src/parser.rs:194-198 | the postfix form of every expression tree starts with an operand, so the loop as written never ends on any expression the single pass evaluates |
| Parser.AsWrittenOperatorFirst | src/parser.rs:199-201 | as written, a postfix expression starting with an operator panics on the first pass |
| ParserExamples.SumOrProductPostfix | src/test_parser.rs:72-85 | `5+ 7 or 3 * 5` becomes `5 7 + 3 5 * or`, seven tokens |
| ParserExamples.ParenTimesPostfix | src/test_parser.rs:88-101 | `(3 - 5) * 12` becomes `3 5 - 12 *`, five tokens |
| ParserExamples.TimesModPostfix | src/test_parser.rs:138-141 | `(3 * 13) mod 12` becomes `3 13 * mod 12`, with `mod` a literal |
| ParserExamples.GreaterPostfix | src/test_parser.rs:175-178 | `5 > 7` becomes `5 7 >` |
| ParserExamples.AtLeastPostfix | src/test_parser.rs:192-195 | `5 >= 5` becomes `5 5 >=` |
| ParserExamples.EqAndEqPostfix | src/test_parser.rs:209-212 | `5 = 5 and 3 = 2` becomes `5 5 = 3 2 = and` |
| ParserExamples.NestedPostfix | src/test_parser.rs:226-229 | `((1 +4)  = 5) and 2 = 2` becomes `1 4 + 5 = 2 2 = and` |
| ParserExamples.QuirkPostfix | src/parser.rs:148-152 | `1 and 2 * 3 + 4` becomes `1 2 3 * and 4 +` |
| ParserExamples.ParenGreaterPostfix | src/parser.rs:123-141 | `(5 > 3)` becomes `5 ( 3 >`: the comparison pops the `(` onto the queue |
| ParserExamples.ParenSumPostfix | src/parser.rs:123-152 | `(2 * 3 + 4)` becomes `2 3 * ( 4 +`: the second pop loop pops the `(` below `*` |
| ParserExamples.SumOrProductEval | src/test_parser.rs:104-118 | `5+ 7 or 3 * 5` evaluates to `true` |
| ParserExamples.ParenTimesEval | src/test_parser.rs:121-135 | `(3 - 5) * 12` evaluates to `-24` |
| ParserExamples.TimesModEval | src/test_parser.rs:138-152 | `(3 * 13) mod 12` leaves `12`, `mod`, `39` on the stack; the test expects `3` |
| ParserExamples.TimesModPass | src/parser.rs:192-205 | the pass over `3 13 * mod 12` applies `*` and pushes the two operands after it: 12 above `mod` above 39 |
| ParserExamples.GreaterEval | src/test_parser.rs:175-189 | `5 > 7` leaves `>`, `7`, `5` on the stack; the test expects `false` |
| ParserExamples.AtLeastEval | src/test_parser.rs:192-206 | `5 >= 5` leaves `>=`, `5`, `5` on the stack; the test expects `true` |
| ParserExamples.EqAndEqEval | src/test_parser.rs:209-223 | `5 = 5 and 3 = 2` evaluates to `false` |
| ParserExamples.NestedEval | src/test_parser.rs:226-240 | `((1 +4)  = 5) and 2 = 2` evaluates to `true` |
| ParserExamples.QuirkEval | src/parser.rs:132-154 | `1 and 2 * 3 + 4` evaluates to `Undefined` |
| ParserExamples.IntendedEval | src/parser.rs:192-205 | the standard postfix form `1 2 3 * 4 + and` evaluates to `true` |
| ParserExamples.CollectLineExample | src/test_parser.rs:9-15 | the nine tokens of `3+ 4 + (6- 5)` are collected up to the line break |
| Ast.Scope.constructor | src/ast.rs:51-55 | a new scope has no bindings |
| Ast.Scope.Add | src/ast.rs:57-59 | binds the name, replacing any earlier binding, and leaves every other name as it was |
| Ast.LookupIn | src/ast.rs:81-89 | a lookup finds a binding only if some frame binds the name |
| Ast.AddedTo | src/ast.rs:71-79 | adding to an empty stack leaves exactly one frame, otherwise the depth is unchanged |
| Ast.WithoutTop | src/ast.rs:67-69 | popping removes one frame, and does nothing on an empty stack |
| Ast.LookupNoneIff | src/ast.rs:81-89 | a lookup finds nothing exactly when no frame binds the name |
| Ast.LookupInnermost | src/ast.rs:83-87 | a lookup returns the binding of the innermost frame that binds the name |
| Ast.LookupFound | src/ast.rs:83-87 | every binding found comes from a frame with no binding of the name above it |
| Ast.AddedThenFound | src/ast.rs:71-89 | after `add_symbol(n, s)`, looking up `n` finds `s` |
| Ast.AddedKeepsOthers | src/ast.rs:71-89 | `add_symbol` leaves the lookup of every other name unchanged |
| Ast.AddedTouchesOnlyTop | src/ast.rs:76-77 | `add_symbol` changes only the innermost frame, and there only the name |
| Ast.PopAfterPush | src/ast.rs:63-69 | a push followed by a pop restores the stack |
| Ast.PushShadows | src/ast.rs:63-65 | a pushed frame shadows the frames below for the names it binds and is transparent for the others |
| Ast.CallStack.constructor | src/ast.rs:14 | the call stack starts empty |
| Ast.CallStack.Push | src/ast.rs:63-65 | the scope's bindings become the innermost frame |
| Ast.CallStack.Pop | src/ast.rs:67-69 | the innermost frame, if any, is removed |
| Ast.CallStack.AddSymbol | src/ast.rs:71-79 | the frames become `AddedTo` of the old frames |
| Ast.CallStack.LookupSymbol | src/ast.rs:81-89 | the loop over the frames in reverse returns exactly `LookupIn` |

## Left out

- `src/main.rs`: the read-eval loop on standard input. It is I/O and never ends.
- `parser::parse` (src/parser.rs:14-59): every arm except `Literal` is `todo!()`.
- `expression_operation` (src/parser.rs:168-190): unfinished (`todo!()`). It
  uses traits and imports (`LSValue`, `Operable`, `ast::operate`) that
  `src/ast.rs` does not define. The operation the evaluator applies is
  `expr::operate`.
- `resolve_unary_operators`, used by src/test_parser.rs:17-66, is not part
  of this model: no shown file defines it. The same holds for
  `Scope::add_number`, used by src/test_ast.rs:11.
- The `lazy_static` `Mutex` around `CALL_STACK` and the unused
  `FUNCTION_TABLE` (src/ast.rs:10-16) are left out; the call stack is an
  owned object. Locking and concurrency are not modelled.
- The payloads of `Object`, `Array` and `Function` symbols are stored as
  values. A function body's `LinkedList` is a sequence.
- Floating point: double arithmetic, `f64::to_string` and the rounding of
  `f64 as i32` are not modelled; such a result is `FloatDependent`. This
  covers the test results `8.100000000000001` (src/test_parser.rs:168-171),
  `25.5` and `4.3` (src/test_expr.rs:44, 70), and the float arms whose
  operands the source swaps (for example src/expr.rs:195-199).
- The `regex` crate is not modelled. Each regex is an explicit predicate: an
  ends-with test for the lexer's `\z` patterns, and digit-string predicates
  for the classifier's patterns.
- Non-ASCII input: `Tokenizer.Lex` and `Tokenizer.Tokenize` require ASCII
  text, where Rust's `is_alphanumeric`, `is_numeric` and `\d` agree with the
  ASCII classes used here.
- Expr.Classify: a digit is one of the ASCII `0` to `9`. The `regex` crate's
  `\d` also matches the other Unicode decimal digits, so the model does not
  cover a token text holding such a digit. The lexer never yields one,
  since it requires ASCII text.
- `println!` debug output throughout.
- The tests of src/test_expr.rs and src/test_parser.rs call `tokenize` first.
  `ExprExamples` and `ParserExamples` start from the token lists those
  lines give, written out by hand, and leave the lexing step out: it is the
  lexer's behaviour, which `LexerExamples` proves on the lexer's own seven
  line tests. The unit tests of single helpers (src/tokenizer.rs:369-406,
  for example `generate_regex_token` on `var x = 12`) are covered by
  `KeywordRule`.
- Tokenizer.Tokenize: where the default branch would loop forever on an
  unhandled character, the model stops with `Panic(NoProgress(pos))` instead
  of not terminating.
- Expr.Checked: `i32` overflow is the panic of a debug build. Release-build
  wrap-around is not modelled.
- Expr.Render: a double is never rendered; its text is `FloatDependent`.
- Expr.CastToInt: `f64 as i32` on a parsed float literal is `FloatDependent`:
  its rounding is not modelled. A double cast from an integer is exact.
- Expr.Eval: every variant with a double operand is `FloatDependent`.
- Parser.CollectExpressionTokens: the unused `current_token` parameter and
  the printing of each payload are left out. The `s_val.unwrap()` inside
  that `println!` is kept, as the `MissingPayload` panic. The iterator is the sequence
  of the tokens it has left.
- Parser.EvalExpression: it models the intended single pass, not the loop as
  written (see Findings). It returns the final calculation stack, where the
  source returns `()`.

## Findings

| source | as written | input that shows it | evidently intended | confidence | as-written member | corrected member |
|---|---|---|---|---|---|---|
| src/parser.rs:192-205 | `token` is bound once to `postfix_expr[0]` and never advanced; the loop tests `expr`, which only grows (an operator's result is pushed onto `expr`, not onto `calc_stack`) | any postfix expression that starts with an operand, e.g. `3 5 +`: the loop pushes `3` forever. One that starts with an operator panics at the first `pop_front().unwrap()` | one pass over the postfix tokens: push an operand; for an operator pop the right then the left operand and push the result of `operate` onto `calc_stack` | high (not executed) | Parser.AsWrittenNeverEnds | Parser.EvalTreeValue |
