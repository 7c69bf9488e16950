/** The lexer (src/tokenizer.rs): a single pass over the characters of a line.

    `Step` is one turn of the main loop: what token (if any) the character at
    a position produces and where scanning resumes. `LexFrom`/`Lex` chain the
    steps and are the specification of the imperative `Tokenize`, whose helper
    methods mirror the source's `generate_*` helpers one for one. The source's
    regexes `var\z`, `>=\z`, ... are anchored at the end only, so they are
    modelled as "the accumulated run ends with ...". */
module Tokenizer {
  import opened Outcomes
  import opened Tokens
  import opened Ascii

  // ----- token constructors -----

  /** `generate_simple_token`: a token of a fixed kind with no payload. */
  function SimpleToken(kind: TokenType): (t: Token)
    ensures t.tokType == kind && Text(t) == None
    ensures kind != Literal ==> WellFormed(t)
  {
    Token(kind, None)
  }

  /** `generate_literal_token`: a `Literal` carrying the given text. */
  function LiteralToken(text: string): (t: Token)
    ensures WellFormed(t) && t.tokType == Literal && Text(t) == Some(text)
  {
    Token(Literal, Some(TokenValue(Some(text))))
  }

  // ----- character classes of the main match -----

  /** The single-character arms: each maps one character to a fixed kind. */
  function SimpleKind(c: char): Option<TokenType> {
    match c
    case '=' => Some(Equals)
    case '+' => Some(Plus)
    case '-' => Some(Minus)
    case '*' => Some(Mult)
    case '/' => Some(Div)
    case '{' => Some(OpenBrace)
    case '}' => Some(CloseBrace)
    case '[' => Some(OpenBracket)
    case ']' => Some(CloseBracet)
    case '(' => Some(OpenParen)
    case ')' => Some(CloseParen)
    case '\n' => Some(NewLine)
    case ',' => Some(Comma)
    case ':' => Some(Colon)
    case '"' => Some(Quote)
    case _ => None
  }

  /** The letters whose arm tests the run against keywords. */
  predicate IsKeywordLetter(c: char) {
    c == 'v' || c == 'i' || c == 'a' || c == 'o' || c == 'n' || c == 'f' || c == 'e' || c == 'l' || c == 'w'
  }

  /** The (keyword, kind) pairs the arm of a keyword letter tests, in order. */
  function KeywordArms(c: char): seq<(string, TokenType)> {
    match c
    case 'v' => [("var", Assign)]
    case 'i' => [("is", Is), ("if", If)]
    case 'a' => [("and", And)]
    case 'o' => [("or", Or)]
    case 'n' => [("not", Not)]
    case 'f' => [("for", For), ("function", Function)]
    case 'e' => [("each", Each), ("else", Else)]
    case 'l' => [("loop", Loop)]
    case 'w' => [("while", While)]
    case _ => []
  }

  /** The characters some arm consumes; any other character sends the main
      loop into its default branch with an empty run, which never advances. */
  predicate IsHandled(c: char) {
    IsAlphanumeric(c) || SimpleKind(c).Some? || c == '<' || c == '>' || c == ' '
  }

  // ----- runs -----

  /** The runs the scanner accumulates: words (the keyword helpers and the
      default branch), punctuation (the comparison helper) and numbers (the
      digit branch, which also takes `.`). */
  datatype RunKind = Word | Symbols | Number

  predicate InRun(c: char, kind: RunKind) {
    match kind
    case Word => c != ' ' && IsAlphanumeric(c)
    case Symbols => c != ' ' && IsPunctuation(c)
    case Number => IsDigit(c) || c == '.'
  }

  /** The end of the maximal run of `kind` that starts at `i`. */
  function RunEnd(s: string, i: nat, kind: RunKind): (j: nat)
    requires i <= |s|
    ensures i <= j <= |s|
    ensures forall p :: i <= p < j ==> InRun(s[p], kind)
    ensures j < |s| ==> !InRun(s[j], kind)
    decreases |s| - i
  {
    if i < |s| && InRun(s[i], kind) then RunEnd(s, i + 1, kind) else i
  }

  // ----- what one turn of the main loop produces -----

  /** What a turn of the main loop yields: the token it pushes, if any, and
      the position of the next `current_char`. */
  datatype Scan = Scan(token: Option<Token>, next: nat)

  /** The index of the first arm whose keyword ends `run`, or `|arms|`. */
  function FirstMatchingArm(run: string, arms: seq<(string, TokenType)>): (k: nat)
    ensures k <= |arms|
    ensures forall j :: 0 <= j < k ==> !EndsWith(run, arms[j].0)
    ensures k < |arms| ==> EndsWith(run, arms[k].0)
  {
    if arms == [] then 0
    else if EndsWith(run, arms[0].0) then 0
    else 1 + FirstMatchingArm(run, arms[1..])
  }

  /** The token for a word run: the kind of the first arm it ends with, or a
      literal carrying the run. */
  function KeywordToken(run: string, arms: seq<(string, TokenType)>): Token {
    var k := FirstMatchingArm(run, arms);
    if k < |arms| then SimpleToken(arms[k].1) else LiteralToken(run)
  }

  /** The token for a punctuation run started by `<` or `>`. */
  function OperatorToken(run: string, op: string, kind: TokenType): Token {
    if EndsWith(run, op) then SimpleToken(kind)
    else if run == "<" then SimpleToken(LessThan)
    else if run == ">" then SimpleToken(GreaterThan)
    else LiteralToken(run)
  }

  /** `generate_regex_token` / `generate_keyword_regex_token`: read the word run
      at `i`; the helper reads one character past the run, so a run reaching
      the end of the input panics. */
  function KeywordScan(s: string, i: nat, arms: seq<(string, TokenType)>): Outcome<Scan>
    requires i < |s| && InRun(s[i], Word)
  {
    var j := RunEnd(s, i, Word);
    if j == |s| then Panic(UnexpectedEnd(|s|))
    else Value(Scan(Some(KeywordToken(s[i..j], arms)), j))
  }

  /** `generate_operator_regex_token`: the same for a punctuation run. */
  function OperatorScan(s: string, i: nat, op: string, kind: TokenType): Outcome<Scan>
    requires i < |s| && InRun(s[i], Symbols)
  {
    var j := RunEnd(s, i, Symbols);
    if j == |s| then Panic(UnexpectedEnd(|s|))
    else Value(Scan(Some(OperatorToken(s[i..j], op, kind)), j))
  }

  /** The digit branch: a run of digits and `.` becomes one literal. */
  function NumberScan(s: string, i: nat): Outcome<Scan>
    requires i < |s| && IsDigit(s[i])
  {
    var j := RunEnd(s, i, Number);
    Value(Scan(Some(LiteralToken(s[i..j])), j))
  }

  /** The default branch: a run of alphanumerics becomes one literal; an empty
      run (the character has no arm) never advances. */
  function DefaultScan(s: string, i: nat): Outcome<Scan>
    requires i < |s|
  {
    var j := RunEnd(s, i, Word);
    if j == i then Panic(NoProgress(i))
    else Value(Scan(Some(LiteralToken(s[i..j])), j))
  }

  /** One turn of the main loop of `tokenize` at position `i`. */
  function Step(s: string, i: nat): (r: Outcome<Scan>)
    requires i < |s|
    ensures r.Value? ==> i < r.value.next <= |s|
    ensures r.Panic? ==> r.fault == UnexpectedEnd(|s|) || r.fault == NoProgress(i)
    ensures !r.FloatDependent?
  {
    var c := s[i];
    if IsKeywordLetter(c) then KeywordScan(s, i, KeywordArms(c))
    else if SimpleKind(c).Some? then Value(Scan(Some(SimpleToken(SimpleKind(c).value)), i + 1))
    else if c == '>' then OperatorScan(s, i, ">=", Gte)
    else if c == '<' then OperatorScan(s, i, "<=", Lte)
    else if c == ' ' then Value(Scan(None, i + 1))
    else if IsDigit(c) then NumberScan(s, i)
    else DefaultScan(s, i)
  }

  // ----- the whole line -----

  function Emit(t: Option<Token>): seq<Token> {
    if t.Some? then [t.value] else []
  }

  /** `ts` in front of the tokens of a successful outcome. */
  function Prepend(ts: seq<Token>, o: Outcome<seq<Token>>): Outcome<seq<Token>> {
    match o
    case Value(rest) => Value(ts + rest)
    case _ => o
  }

  /** The tokens of `s` from position `i` on, or the first fault met. */
  function LexFrom(s: string, i: nat): Outcome<seq<Token>>
    requires i <= |s|
    decreases |s| - i
  {
    if i == |s| then Value([])
    else
      match Step(s, i)
      case Value(sc) => Prepend(Emit(sc.token), LexFrom(s, sc.next))
      case Panic(f) => Panic(f)
      case FloatDependent => FloatDependent
  }

  /** What `tokenize` computes for an ASCII line. */
  function Lex(s: string): Outcome<seq<Token>>
    requires IsAsciiText(s)
  {
    LexFrom(s, 0)
  }

  /** `LexFrom` unfolded once at a position whose step succeeds. */
  lemma LexFromStep(s: string, i: nat, sc: Scan)
    requires i < |s| && Step(s, i) == Value(sc)
    ensures LexFrom(s, i) == Prepend(Emit(sc.token), LexFrom(s, sc.next))
  {
  }

  /** `LexFrom` at a position whose step fails. */
  lemma LexFromFault(s: string, i: nat)
    requires i < |s| && !Step(s, i).Value?
    ensures LexFrom(s, i) == Step(s, i).PropagateFailure()
  {
  }

  // ----- local rules of one turn -----

  /** A space yields no token and consumes one character. */
  lemma SpaceRule(s: string, i: nat)
    requires i < |s| && s[i] == ' '
    ensures LexFrom(s, i) == LexFrom(s, i + 1)
  {
    LexFromStep(s, i, Scan(None, i + 1));
    var rest := LexFrom(s, i + 1);
    if rest.Value? {
      assert [] + rest.value == rest.value;
    }
  }

  /** Each single-character symbol yields one payload-free token of its fixed
      kind and consumes one character. */
  lemma SymbolRule(s: string, i: nat)
    requires i < |s| && SimpleKind(s[i]).Some?
    ensures SimpleKind(s[i]).value != Literal
    ensures LexFrom(s, i) == Prepend([Token(SimpleKind(s[i]).value, None)], LexFrom(s, i + 1))
  {
    SimpleNotKeyword(s[i]);
    var sc := Scan(Some(SimpleToken(SimpleKind(s[i]).value)), i + 1);
    assert Step(s, i) == Value(sc);
    LexFromStep(s, i, sc);
  }

  lemma SimpleNotKeyword(c: char)
    requires SimpleKind(c).Some?
    ensures !IsKeywordLetter(c) && SimpleKind(c).value != Literal
  {
  }

  /** A digit starts a maximal run of digits and dots, which yields one literal
      carrying the run verbatim. */
  lemma NumberRule(s: string, i: nat)
    requires i < |s| && IsDigit(s[i])
    ensures var j := RunEnd(s, i, Number);
      i < j && (j < |s| ==> !IsDigit(s[j]) && s[j] != '.') &&
      LexFrom(s, i) == Prepend([Token(Literal, Some(TokenValue(Some(s[i..j]))))], LexFrom(s, j))
  {
    var j := RunEnd(s, i, Number);
    LexFromStep(s, i, Scan(Some(LiteralToken(s[i..j])), j));
  }

  /** A keyword letter starts a maximal alphanumeric run. Unless the run reaches
      the end of the line (a panic), it yields the token of the first keyword
      of the letter's arm that ends the run, or else a literal carrying it. */
  lemma KeywordRule(s: string, i: nat)
    requires i < |s| && IsKeywordLetter(s[i])
    ensures var j := RunEnd(s, i, Word);
      var run := s[i..j];
      var arms := KeywordArms(s[i]);
      && (j == |s| ==> LexFrom(s, i) == Panic(UnexpectedEnd(|s|)))
      && (j < |s| && (exists k :: 0 <= k < |arms| && EndsWith(run, arms[k].0)) ==>
            exists k :: 0 <= k < |arms| && EndsWith(run, arms[k].0) &&
              (forall k' :: 0 <= k' < k ==> !EndsWith(run, arms[k'].0)) &&
              LexFrom(s, i) == Prepend([Token(arms[k].1, None)], LexFrom(s, j)))
      && (j < |s| && (forall k :: 0 <= k < |arms| ==> !EndsWith(run, arms[k].0)) ==>
            LexFrom(s, i) == Prepend([Token(Literal, Some(TokenValue(Some(run))))], LexFrom(s, j)))
  {
    var j := RunEnd(s, i, Word);
    var arms := KeywordArms(s[i]);
    if j == |s| {
      LexFromFault(s, i);
    } else {
      var k := FirstMatchingArm(s[i..j], arms);
      LexFromStep(s, i, Scan(Some(KeywordToken(s[i..j], arms)), j));
    }
  }

  /** `<` and `>` start a maximal punctuation run. Unless it reaches the end of
      the line, `<=`/`>=` (or any run ending so) yields `Lte`/`Gte`, a lone `<`
      or `>` yields `LessThan`/`GreaterThan`, and any other run a literal. */
  lemma ComparisonRule(s: string, i: nat)
    requires i < |s| && (s[i] == '<' || s[i] == '>')
    ensures var j := RunEnd(s, i, Symbols);
      var run := s[i..j];
      var op := if s[i] == '<' then "<=" else ">=";
      var kind := if s[i] == '<' then Lte else Gte;
      var lone := if s[i] == '<' then LessThan else GreaterThan;
      && (j == |s| ==> LexFrom(s, i) == Panic(UnexpectedEnd(|s|)))
      && (j < |s| && EndsWith(run, op) ==> LexFrom(s, i) == Prepend([Token(kind, None)], LexFrom(s, j)))
      && (j < |s| && j == i + 1 ==> LexFrom(s, i) == Prepend([Token(lone, None)], LexFrom(s, j)))
      && (j < |s| && j > i + 1 && !EndsWith(run, op) ==>
            LexFrom(s, i) == Prepend([Token(Literal, Some(TokenValue(Some(run))))], LexFrom(s, j)))
  {
    var j := RunEnd(s, i, Symbols);
    var op := if s[i] == '<' then "<=" else ">=";
    var kind := if s[i] == '<' then Lte else Gte;
    ComparisonStep(s, i);
    if j == |s| {
      LexFromFault(s, i);
    } else {
      var run := s[i..j];
      if !EndsWith(run, op) && j == i + 1 {
        assert run == [s[i]];
      }
      LexFromStep(s, i, Scan(Some(OperatorToken(run, op, kind)), j));
    }
  }

  /** The step at `<` or `>` is the punctuation-run arm. */
  lemma ComparisonStep(s: string, i: nat)
    requires i < |s| && (s[i] == '<' || s[i] == '>')
    ensures InRun(s[i], Symbols)
    ensures Step(s, i) == if s[i] == '<' then OperatorScan(s, i, "<=", Lte) else OperatorScan(s, i, ">=", Gte)
  {
  }

  /** Any other character: a letter or digit run yields a literal, and a
      character no arm handles makes the default branch spin without
      advancing. */
  lemma DefaultRule(s: string, i: nat)
    requires i < |s| && !IsKeywordLetter(s[i]) && SimpleKind(s[i]).None?
    requires s[i] != '<' && s[i] != '>' && s[i] != ' ' && !IsDigit(s[i])
    ensures !IsHandled(s[i]) ==> LexFrom(s, i) == Panic(NoProgress(i))
    ensures IsHandled(s[i]) ==> var j := RunEnd(s, i, Word);
      i < j && LexFrom(s, i) == Prepend([Token(Literal, Some(TokenValue(Some(s[i..j]))))], LexFrom(s, j))
  {
    var j := RunEnd(s, i, Word);
    if j == i {
      LexFromFault(s, i);
    } else {
      LexFromStep(s, i, Scan(Some(LiteralToken(s[i..j])), j));
    }
  }

  // ----- properties of the whole line -----

  lemma KeywordTokenWellFormed(run: string, c: char)
    ensures WellFormed(KeywordToken(run, KeywordArms(c)))
  {
    var arms := KeywordArms(c);
    var k := FirstMatchingArm(run, arms);
    if k < |arms| {
      assert arms[k].1 != Literal;
    }
  }

  lemma OperatorTokenWellFormed(run: string, op: string, kind: TokenType)
    requires kind != Literal
    ensures WellFormed(OperatorToken(run, op, kind))
  {
  }

  /** Every token a turn yields has the lexer's payload shape. */
  lemma StepWellFormed(s: string, i: nat)
    requires i < |s| && Step(s, i).Value? && Step(s, i).value.token.Some?
    ensures WellFormed(Step(s, i).value.token.value)
  {
    var c := s[i];
    if IsKeywordLetter(c) {
      assert Step(s, i) == KeywordScan(s, i, KeywordArms(c));
      KeywordTokenWellFormed(s[i..RunEnd(s, i, Word)], c);
    } else if SimpleKind(c).None? && (c == '>' || c == '<') {
      var op := if c == '>' then ">=" else "<=";
      var kind := if c == '>' then Gte else Lte;
      assert Step(s, i) == OperatorScan(s, i, op, kind);
      OperatorTokenWellFormed(s[i..RunEnd(s, i, Symbols)], op, kind);
    }
  }

  /** Every `Literal` the lexer yields carries text and every other token
      carries no payload. */
  lemma {:induction false} LexFromWellFormed(s: string, i: nat)
    requires i <= |s| && LexFrom(s, i).Value?
    ensures forall t :: t in LexFrom(s, i).value ==> WellFormed(t)
    decreases |s| - i
  {
    if i < |s| {
      var sc := Step(s, i).value;
      LexFromStep(s, i, sc);
      LexFromWellFormed(s, sc.next);
      if sc.token.Some? {
        StepWellFormed(s, i);
      }
    }
  }

  lemma LexWellFormed(s: string)
    requires IsAsciiText(s) && Lex(s).Value?
    ensures forall t :: t in Lex(s).value ==> WellFormed(t)
  {
    LexFromWellFormed(s, 0);
  }

  /** The two ways lexing fails: a character no arm handles (the default
      branch never advances), or a word run started by a keyword letter, or a
      punctuation run started by `<` or `>`, that reaches the end of the line
      (the helper's `next().unwrap()`); either happens at or after `i`. */
  predicate ExplainsFault(s: string, i: nat, f: Fault) {
    match f
    case NoProgress(p) => i <= p < |s| && !IsHandled(s[p])
    case UnexpectedEnd(n) => n == |s| && exists p :: i <= p < |s| && RunsToEnd(s, p)
    case _ => false
  }

  /** The run a keyword letter or `<`/`>` at `p` starts reaches the end. */
  predicate RunsToEnd(s: string, p: nat)
    requires p < |s|
  {
    || (IsKeywordLetter(s[p]) && RunEnd(s, p, Word) == |s|)
    || ((s[p] == '<' || s[p] == '>') && RunEnd(s, p, Symbols) == |s|)
  }

  /** A run that reaches the end leaves a letter, a digit or a punctuation
      mark as the line's last character. */
  lemma RunsToEndLast(s: string, p: nat)
    requires p < |s| && RunsToEnd(s, p)
    ensures IsAlphanumeric(s[|s| - 1]) || IsPunctuation(s[|s| - 1])
  {
    if IsKeywordLetter(s[p]) && RunEnd(s, p, Word) == |s| {
      assert InRun(s[|s| - 1], Word);
    } else {
      assert InRun(s[|s| - 1], Symbols);
    }
  }

  /** The characters that end every run. */
  predicate IsSeparator(c: char) {
    c == ' ' || c == '\n'
  }

  lemma StepFault(s: string, i: nat)
    requires i < |s| && Step(s, i).Panic?
    ensures ExplainsFault(s, i, Step(s, i).fault)
  {
    if Step(s, i).fault == UnexpectedEnd(|s|) {
      assert RunsToEnd(s, i);
    }
  }

  lemma {:induction false} LexFromFaults(s: string, i: nat)
    requires i <= |s|
    ensures !LexFrom(s, i).FloatDependent?
    ensures LexFrom(s, i).Panic? ==> ExplainsFault(s, i, LexFrom(s, i).fault)
    decreases |s| - i
  {
    if i < |s| {
      var st := Step(s, i);
      if st.Value? {
        LexFromStep(s, i, st.value);
        LexFromFaults(s, st.value.next);
      } else {
        LexFromFault(s, i);
        StepFault(s, i);
      }
    }
  }

  /** Lexing a line fails only for the two reasons above, and never depends on
      floating point. */
  lemma LexFaults(s: string)
    requires IsAsciiText(s)
    ensures !Lex(s).FloatDependent?
    ensures Lex(s).Panic? ==> ExplainsFault(s, 0, Lex(s).fault)
  {
    LexFromFaults(s, 0);
  }

  /** A line of handled characters that ends with a space or a newline (or is
      empty) always lexes. */
  lemma LexSucceeds(s: string)
    requires IsAsciiText(s)
    requires forall p :: 0 <= p < |s| ==> IsHandled(s[p])
    requires s == [] || IsSeparator(s[|s| - 1])
    ensures Lex(s).Value?
  {
    LexFromFaults(s, 0);
  }

  // ----- the imperative scanner -----

  /** `generate_regex_token`: accumulate the word run at `pos` and test it
      against one keyword. */
  method GenerateRegexToken(s: string, pos: nat, keyword: string, kind: TokenType)
    returns (r: Outcome<Scan>)
    requires pos < |s| && InRun(s[pos], Word)
    ensures r == KeywordScan(s, pos, [(keyword, kind)])
  {
    var acc := "";
    var current := pos;
    while s[current] != ' ' && IsAlphanumeric(s[current])
      invariant pos <= current < |s|
      invariant acc == s[pos..current]
      invariant RunEnd(s, current, Word) == RunEnd(s, pos, Word)
      decreases |s| - current
    {
      acc := acc + [s[current]];
      if current + 1 == |s| {
        return Panic(UnexpectedEnd(|s|));
      }
      current := current + 1;
    }
    assert current == RunEnd(s, pos, Word);
    assert FirstMatchingArm(acc, [(keyword, kind)]) == if EndsWith(acc, keyword) then 0 else 1;
    if EndsWith(acc, keyword) {
      return Value(Scan(Some(SimpleToken(kind)), current));
    }
    return Value(Scan(Some(LiteralToken(acc)), current));
  }

  /** `generate_keyword_regex_token`: the same, testing several keywords in
      order and returning at the first that ends the run. */
  method GenerateKeywordRegexToken(s: string, pos: nat, arms: seq<(string, TokenType)>)
    returns (r: Outcome<Scan>)
    requires pos < |s| && InRun(s[pos], Word)
    ensures r == KeywordScan(s, pos, arms)
  {
    var acc := "";
    var current := pos;
    while s[current] != ' ' && IsAlphanumeric(s[current])
      invariant pos <= current < |s|
      invariant acc == s[pos..current]
      invariant RunEnd(s, current, Word) == RunEnd(s, pos, Word)
      decreases |s| - current
    {
      acc := acc + [s[current]];
      if current + 1 == |s| {
        return Panic(UnexpectedEnd(|s|));
      }
      current := current + 1;
    }
    for k := 0 to |arms|
      invariant forall j :: 0 <= j < k ==> !EndsWith(acc, arms[j].0)
    {
      if EndsWith(acc, arms[k].0) {
        return Value(Scan(Some(SimpleToken(arms[k].1)), current));
      }
    }
    return Value(Scan(Some(LiteralToken(acc)), current));
  }

  /** `generate_operator_regex_token`: accumulate the punctuation run at `pos`
      and classify it. */
  method GenerateOperatorRegexToken(s: string, pos: nat, op: string, kind: TokenType)
    returns (r: Outcome<Scan>)
    requires pos < |s| && InRun(s[pos], Symbols)
    ensures r == OperatorScan(s, pos, op, kind)
  {
    var acc := "";
    var current := pos;
    while s[current] != ' ' && IsPunctuation(s[current])
      invariant pos <= current < |s|
      invariant acc == s[pos..current]
      invariant RunEnd(s, current, Symbols) == RunEnd(s, pos, Symbols)
      decreases |s| - current
    {
      acc := acc + [s[current]];
      if current + 1 == |s| {
        return Panic(UnexpectedEnd(|s|));
      }
      current := current + 1;
    }
    if EndsWith(acc, op) {
      return Value(Scan(Some(SimpleToken(kind)), current));
    }
    if acc == "<" {
      return Value(Scan(Some(SimpleToken(LessThan)), current));
    } else if acc == ">" {
      return Value(Scan(Some(SimpleToken(GreaterThan)), current));
    }
    return Value(Scan(Some(LiteralToken(acc)), current));
  }

  /** The digit branch of the main loop. */
  method ScanNumber(program: string, current: nat) returns (scanned: Outcome<Scan>)
    requires current < |program| && IsDigit(program[current])
    ensures scanned == NumberScan(program, current)
  {
    var acc := "";
    var next := current;
    while next < |program| && (IsDigit(program[next]) || program[next] == '.')
      invariant current <= next <= |program|
      invariant acc == program[current..next]
      invariant RunEnd(program, next, Number) == RunEnd(program, current, Number)
      decreases |program| - next
    {
      acc := acc + [program[next]];
      next := next + 1;
    }
    scanned := Value(Scan(Some(LiteralToken(acc)), next));
  }

  /** The default branch of the main loop; the source breaks out of its loop
      at the end of input, at punctuation, at white space and at any other
      non-alphanumeric character, which on ASCII text is one test. */
  method ScanDefault(program: string, current: nat) returns (scanned: Outcome<Scan>)
    requires current < |program|
    ensures scanned == DefaultScan(program, current)
  {
    var acc := "";
    var next := current;
    while next < |program| && IsAlphanumeric(program[next])
      invariant current <= next <= |program|
      invariant acc == program[current..next]
      invariant RunEnd(program, next, Word) == RunEnd(program, current, Word)
      decreases |program| - next
    {
      acc := acc + [program[next]];
      next := next + 1;
    }
    if next == current {
      scanned := Panic(NoProgress(current));
    } else {
      scanned := Value(Scan(Some(LiteralToken(acc)), next));
    }
  }

  /** One turn of the main loop, seen from the tokens pushed so far. */
  lemma PrependStep(tokens: seq<Token>, s: string, i: nat)
    requires i < |s|
    ensures Step(s, i).Value? ==>
      Prepend(tokens, LexFrom(s, i)) == Prepend(tokens + Emit(Step(s, i).value.token), LexFrom(s, Step(s, i).value.next))
    ensures !Step(s, i).Value? ==> Prepend(tokens, LexFrom(s, i)) == Step(s, i).PropagateFailure()
  {
    var sc := Step(s, i);
    if sc.Value? {
      var rest := LexFrom(s, sc.value.next);
      assert LexFrom(s, i) == Prepend(Emit(sc.value.token), rest);
      if rest.Value? {
        assert tokens + (Emit(sc.value.token) + rest.value) == (tokens + Emit(sc.value.token)) + rest.value;
      }
    }
  }

  /** The body of the main loop of `tokenize`: the `match` on `current_char`. */
  method ScanAt(program: string, current: nat) returns (scanned: Outcome<Scan>)
    requires current < |program|
    ensures scanned == Step(program, current)
  {
    var c := program[current];
    match c {
      case 'v' => scanned := GenerateRegexToken(program, current, "var", Assign);
      case 'i' => scanned := GenerateKeywordRegexToken(program, current, [("is", Is), ("if", If)]);
      case 'a' => scanned := GenerateRegexToken(program, current, "and", And);
      case 'o' => scanned := GenerateRegexToken(program, current, "or", Or);
      case 'n' => scanned := GenerateRegexToken(program, current, "not", Not);
      case 'f' => scanned := GenerateKeywordRegexToken(program, current, [("for", For), ("function", Function)]);
      case 'e' => scanned := GenerateKeywordRegexToken(program, current, [("each", Each), ("else", Else)]);
      case 'l' => scanned := GenerateRegexToken(program, current, "loop", Loop);
      case 'w' => scanned := GenerateRegexToken(program, current, "while", While);
      case '>' =>
        // the fallback to a lone `GreaterThan` after this call is dead code:
        // the helper always returns a token
        scanned := GenerateOperatorRegexToken(program, current, ">=", Gte);
      case '<' =>
        scanned := GenerateOperatorRegexToken(program, current, "<=", Lte);
      case ' ' => scanned := Value(Scan(None, current + 1));
      case _ =>
        if SimpleKind(c).Some? {
          scanned := Value(Scan(Some(SimpleToken(SimpleKind(c).value)), current + 1));
        } else if IsDigit(c) {
          scanned := ScanNumber(program, current);
        } else {
          scanned := ScanDefault(program, current);
        }
    }
  }

  /** `tokenize`. Where the source's default branch would loop for ever, the
      model stops with `Panic(NoProgress(pos))`. */
  method Tokenize(program: string) returns (r: Outcome<seq<Token>>)
    requires IsAsciiText(program)
    ensures r == Lex(program)
  {
    var tokens: seq<Token> := [];
    var current := 0;  // the index of `current_char`, which is `None` at |program|
    if LexFrom(program, 0).Value? {
      assert [] + LexFrom(program, 0).value == LexFrom(program, 0).value;
    }
    while current < |program|
      invariant current <= |program|
      invariant Lex(program) == Prepend(tokens, LexFrom(program, current))
      decreases |program| - current
    {
      var scanned := ScanAt(program, current);
      PrependStep(tokens, program, current);
      if !scanned.Value? {
        return scanned.PropagateFailure();
      }
      tokens := tokens + Emit(scanned.value.token);
      current := scanned.value.next;
    }
    assert tokens + [] == tokens;
    return Value(tokens);
  }
}
