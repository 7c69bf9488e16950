/** The lexer on the whole lines of src/tokenizer.rs's own tests. Each line
    is written down as the runs the main loop consumes turn by turn, each
    with the token its turn pushes. `Follows` checks the runs against the
    characters alone, `Matches` checks the pushed tokens against the list
    the line should give, and `LexLine` turns the two checks into what
    `Lex` computes for the line. */
module LexerExamples {
  import opened Outcomes
  import opened Tokens
  import opened Ascii
  import opened Tokenizer

  /** The runs the turns of the main loop consume, in order, each with the
      token its turn pushes. */
  datatype Runs = End | Then(run: string, token: Option<Token>, rest: Runs)

  /** The characters from `i` to `j` form a maximal run of `kind`. */
  predicate RunTo(s: string, i: nat, j: nat, kind: RunKind)
    requires i <= j <= |s|
    decreases j - i
  {
    if i == j then j == |s| || !InRun(s[j], kind)
    else InRun(s[i], kind) && RunTo(s, i + 1, j, kind)
  }

  lemma {:induction false} RunToEnd(s: string, i: nat, j: nat, kind: RunKind)
    requires i <= j <= |s| && RunTo(s, i, j, kind)
    ensures RunEnd(s, i, kind) == j
    decreases j - i
  {
    if i < j {
      RunToEnd(s, i + 1, j, kind);
    }
  }

  /** `run` is what the turn at `i` consumes: ASCII characters spell it there,
      and it is as long as the arm its first character selects reads (one
      character, or a maximal run that, for the keyword and comparison arms,
      stops before the end of the line). */
  predicate Fits(s: string, i: nat, run: string) {
    && run != []
    && IsAsciiText(run)
    && i + |run| <= |s|
    && s[i..i + |run|] == run
    && var c, j := run[0], i + |run|;
       if IsKeywordLetter(c) then j < |s| && RunTo(s, i, j, Word)
       else if SimpleKind(c).Some? || c == ' ' then |run| == 1
       else if c == '<' || c == '>' then j < |s| && RunTo(s, i, j, Symbols)
       else if IsDigit(c) then RunTo(s, i, j, Number)
       else RunTo(s, i, j, Word)
  }

  /** The token a turn consuming `run` pushes, read off the run. */
  function RunToken(run: string): Option<Token> {
    if run == [] then None
    else
      var c := run[0];
      if IsKeywordLetter(c) then Some(KeywordToken(run, KeywordArms(c)))
      else if SimpleKind(c).Some? then Some(SimpleToken(SimpleKind(c).value))
      else if c == '>' then Some(OperatorToken(run, ">=", Gte))
      else if c == '<' then Some(OperatorToken(run, "<=", Lte))
      else if c == ' ' then None
      else Some(LiteralToken(run))
  }

  /** A run that fits is exactly the step the main loop takes there. */
  lemma FitsStep(s: string, i: nat, run: string)
    requires Fits(s, i, run)
    ensures Step(s, i) == Value(Scan(RunToken(run), i + |run|))
  {
    var c, j := run[0], i + |run|;
    assert s[i] == c;
    if IsKeywordLetter(c) {
      RunToEnd(s, i, j, Word);
    } else if SimpleKind(c).Some? || c == ' ' {
      SimpleNotKeywordLetter(c);
    } else if c == '<' || c == '>' {
      RunToEnd(s, i, j, Symbols);
      ComparisonStep(s, i);
    } else if IsDigit(c) {
      RunToEnd(s, i, j, Number);
    } else {
      RunToEnd(s, i, j, Word);
    }
  }

  /** A run that does not end with the first of two arms but ends with the
      second gets the second arm's kind. */
  lemma SecondArm(run: string, c: char)
    requires |KeywordArms(c)| == 2
    requires !EndsWith(run, KeywordArms(c)[0].0) && EndsWith(run, KeywordArms(c)[1].0)
    ensures KeywordToken(run, KeywordArms(c)) == SimpleToken(KeywordArms(c)[1].1)
  {
    var arms := KeywordArms(c);
    assert arms[1..] == [arms[1]];
  }

  /** `if`, `else` and `function` are read by the second arm of their
      letter. */
  lemma SecondArmIf()
    ensures RunToken("if") == Some(SimpleToken(TokenType.If))
  {
    SecondArm("if", 'i');
  }

  lemma SecondArmElse()
    ensures RunToken("else") == Some(SimpleToken(TokenType.Else))
  {
    SecondArm("else", 'e');
  }

  lemma SecondArmFunction()
    ensures RunToken("function") == Some(SimpleToken(TokenType.Function))
  {
    SecondArm("function", 'f');
  }

  lemma SimpleNotKeywordLetter(c: char)
    requires SimpleKind(c).Some? || c == ' '
    ensures !IsKeywordLetter(c)
  {
  }

  /** From `i` on, the line is consumed turn by turn as `rs`, and each turn
      pushes the token `rs` gives it. */
  predicate Follows(s: string, i: nat, rs: Runs)
    decreases rs
  {
    match rs
    case End => i == |s|
    case Then(run, t, rest) => Fits(s, i, run) && RunToken(run) == t && Follows(s, i + |run|, rest)
  }

  /** The tokens the turns of `rs` push. */
  function Emitted(rs: Runs): seq<Token>
    decreases rs
  {
    match rs
    case End => []
    case Then(_, t, rest) => Emit(t) + Emitted(rest)
  }

  /** A line that follows its runs lexes to the tokens they push. */
  lemma {:induction false} FollowsLex(s: string, i: nat, rs: Runs)
    requires i <= |s| && Follows(s, i, rs)
    ensures LexFrom(s, i) == Value(Emitted(rs))
    decreases rs
  {
    match rs
    case End =>
    case Then(run, t, rest) =>
      FollowsLex(s, i + |run|, rest);
      FitsStep(s, i, run);
      LexFromStep(s, i, Scan(t, i + |run|));
  }

  /** The tokens the turns of `rs` push are `ts[k..]`, one index at a time. */
  predicate Matches(rs: Runs, ts: seq<Token>, k: nat)
    decreases rs
  {
    match rs
    case End => k == |ts|
    case Then(_, t, rest) =>
      if t.None? then Matches(rest, ts, k)
      else k < |ts| && ts[k] == t.value && Matches(rest, ts, k + 1)
  }

  lemma {:induction false} MatchesEmitted(rs: Runs, ts: seq<Token>, k: nat)
    requires k <= |ts| && Matches(rs, ts, k)
    ensures Emitted(rs) == ts[k..]
    decreases rs
  {
    match rs
    case End =>
    case Then(_, t, rest) =>
      if t.None? {
        MatchesEmitted(rest, ts, k);
      } else {
        MatchesEmitted(rest, ts, k + 1);
        assert ts[k..] == [ts[k]] + ts[k + 1..];
      }
  }

  /** A line that follows its runs from `i` on is ASCII from `i` on. */
  lemma {:induction false} FollowsAscii(s: string, i: nat, rs: Runs)
    requires Follows(s, i, rs)
    ensures forall p :: i <= p < |s| ==> s[p] as int < 128
    decreases rs
  {
    match rs
    case End =>
    case Then(run, _, rest) =>
      FollowsAscii(s, i + |run|, rest);
      forall p | i <= p < i + |run|
        ensures s[p] as int < 128
      {
        assert s[p] == s[i..i + |run|][p - i] == run[p - i];
      }
  }

  /** A whole line that follows its runs is ASCII and lexes to the tokens
      they push. */
  lemma LexLine(s: string, rs: Runs, ts: seq<Token>)
    requires Follows(s, 0, rs) && Matches(rs, ts, 0)
    ensures IsAsciiText(s) && Lex(s) == Value(ts)
  {
    FollowsAscii(s, 0, rs);
    FollowsLex(s, 0, rs);
    MatchesEmitted(rs, ts, 0);
    assert ts[0..] == ts;
  }

  // ----- test_tokenizer_assignment (src/tokenizer.rs:408-419) -----

  /** The characters of " var x= 12 \n". */
  predicate AssignmentLine(s: string) {
    |s| == 12 && s[0] == ' ' && s[1] == 'v' && s[2] == 'a' && s[3] == 'r' && s[4] == ' ' &&
    s[5] == 'x' && s[6] == '=' && s[7] == ' ' && s[8] == '1' && s[9] == '2' && s[10] == ' ' &&
    s[11] == '\n'
  }

  /** The runs of " var x= 12 \n". */
  const AssignmentAt0 := Then(" ", None, AssignmentAt1)
  const AssignmentAt1 := Then("var", Some(SimpleToken(TokenType.Assign)), AssignmentAt4)
  const AssignmentAt4 := Then(" ", None, AssignmentAt5)
  const AssignmentAt5 := Then("x", Some(LiteralToken("x")), AssignmentAt6)
  const AssignmentAt6 := Then("=", Some(SimpleToken(TokenType.Equals)), AssignmentAt7)
  const AssignmentAt7 := Then(" ", None, AssignmentAt8)
  const AssignmentAt8 := Then("12", Some(LiteralToken("12")), AssignmentAt10)
  const AssignmentAt10 := Then(" ", None, AssignmentAt11)
  const AssignmentAt11 := Then("\n", Some(SimpleToken(NewLine)), End)

  /** The tokens of " var x= 12 \n". */
  const AssignmentLexed: seq<Token> :=
    [SimpleToken(TokenType.Assign), LiteralToken("x"), SimpleToken(TokenType.Equals), LiteralToken("12")]
    + [SimpleToken(NewLine)]

  /** The input of `test_tokenizer_assignment` (the only string with its
      characters) is ASCII and lexes to `var`, `x`, `=`, `12` and a line
      break: the kinds the test expects, five tokens. */
  lemma AssignmentTokens(s: string)
    requires AssignmentLine(s)
    ensures IsAsciiText(s) && Lex(s) == Value(AssignmentLexed)
  {
    AssignmentFrom0(s);
    AssignmentMatch1();
    LexLine(s, AssignmentAt0, AssignmentLexed);
  }

  lemma AssignmentTurn11(s: string)
    requires AssignmentLine(s)
    ensures Fits(s, 11, "\n") && RunToken("\n") == Some(SimpleToken(NewLine))
  {
    assert s[11..12] == "\n";
  }

  lemma AssignmentFrom11(s: string)
    requires AssignmentLine(s)
    ensures Follows(s, 11, AssignmentAt11)
  {
    AssignmentTurn11(s);
  }

  lemma AssignmentMatch11()
    ensures Matches(AssignmentAt11, AssignmentLexed, 4)
  {
  }

  lemma AssignmentTurn10(s: string)
    requires AssignmentLine(s)
    ensures Fits(s, 10, " ") && RunToken(" ") == None
  {
    assert s[10..11] == " ";
  }

  lemma AssignmentFrom10(s: string)
    requires AssignmentLine(s)
    ensures Follows(s, 10, AssignmentAt10)
  {
    AssignmentFrom11(s);
    AssignmentTurn10(s);
  }

  lemma AssignmentTurn8(s: string)
    requires AssignmentLine(s)
    ensures Fits(s, 8, "12") && RunToken("12") == Some(LiteralToken("12"))
  {
    assert RunTo(s, 10, 10, Number);
    assert RunTo(s, 9, 10, Number);
    assert s[8..10] == "12";
  }

  lemma AssignmentFrom8(s: string)
    requires AssignmentLine(s)
    ensures Follows(s, 8, AssignmentAt8)
  {
    AssignmentFrom10(s);
    AssignmentTurn8(s);
  }

  lemma AssignmentMatch8()
    ensures Matches(AssignmentAt8, AssignmentLexed, 3)
  {
    AssignmentMatch11();
  }

  lemma AssignmentTurn7(s: string)
    requires AssignmentLine(s)
    ensures Fits(s, 7, " ") && RunToken(" ") == None
  {
    assert s[7..8] == " ";
  }

  lemma AssignmentFrom7(s: string)
    requires AssignmentLine(s)
    ensures Follows(s, 7, AssignmentAt7)
  {
    AssignmentFrom8(s);
    AssignmentTurn7(s);
  }

  lemma AssignmentTurn6(s: string)
    requires AssignmentLine(s)
    ensures Fits(s, 6, "=") && RunToken("=") == Some(SimpleToken(TokenType.Equals))
  {
    assert s[6..7] == "=";
  }

  lemma AssignmentFrom6(s: string)
    requires AssignmentLine(s)
    ensures Follows(s, 6, AssignmentAt6)
  {
    AssignmentFrom7(s);
    AssignmentTurn6(s);
  }

  lemma AssignmentMatch6()
    ensures Matches(AssignmentAt6, AssignmentLexed, 2)
  {
    AssignmentMatch8();
  }

  lemma AssignmentTurn5(s: string)
    requires AssignmentLine(s)
    ensures Fits(s, 5, "x") && RunToken("x") == Some(LiteralToken("x"))
  {
    assert RunTo(s, 6, 6, Word);
    assert s[5..6] == "x";
  }

  lemma AssignmentFrom5(s: string)
    requires AssignmentLine(s)
    ensures Follows(s, 5, AssignmentAt5)
  {
    AssignmentFrom6(s);
    AssignmentTurn5(s);
  }

  lemma AssignmentMatch5()
    ensures Matches(AssignmentAt5, AssignmentLexed, 1)
  {
    AssignmentMatch6();
  }

  lemma AssignmentTurn4(s: string)
    requires AssignmentLine(s)
    ensures Fits(s, 4, " ") && RunToken(" ") == None
  {
    assert s[4..5] == " ";
  }

  lemma AssignmentFrom4(s: string)
    requires AssignmentLine(s)
    ensures Follows(s, 4, AssignmentAt4)
  {
    AssignmentFrom5(s);
    AssignmentTurn4(s);
  }

  lemma AssignmentTurn1(s: string)
    requires AssignmentLine(s)
    ensures Fits(s, 1, "var") && RunToken("var") == Some(SimpleToken(TokenType.Assign))
  {
    assert RunTo(s, 4, 4, Word);
    assert RunTo(s, 3, 4, Word);
    assert RunTo(s, 2, 4, Word);
    assert s[1..4] == "var";
  }

  lemma AssignmentFrom1(s: string)
    requires AssignmentLine(s)
    ensures Follows(s, 1, AssignmentAt1)
  {
    AssignmentFrom4(s);
    AssignmentTurn1(s);
  }

  lemma AssignmentMatch1()
    ensures Matches(AssignmentAt1, AssignmentLexed, 0)
  {
    AssignmentMatch5();
  }

  lemma AssignmentTurn0(s: string)
    requires AssignmentLine(s)
    ensures Fits(s, 0, " ") && RunToken(" ") == None
  {
    assert s[0..1] == " ";
  }

  lemma AssignmentFrom0(s: string)
    requires AssignmentLine(s)
    ensures Follows(s, 0, AssignmentAt0)
  {
    AssignmentFrom1(s);
    AssignmentTurn0(s);
  }

  // ----- test_tokenizer_combinator (src/tokenizer.rs:421-432) -----

  /** The characters of "1+ 4 -3.5 *97 / 4 \n". */
  predicate CombinatorLine(s: string) {
    |s| == 19 && s[0] == '1' && s[1] == '+' && s[2] == ' ' && s[3] == '4' && s[4] == ' ' &&
    s[5] == '-' && s[6] == '3' && s[7] == '.' && s[8] == '5' && s[9] == ' ' && s[10] == '*' &&
    s[11] == '9' && s[12] == '7' && s[13] == ' ' && s[14] == '/' && s[15] == ' ' &&
    s[16] == '4' && s[17] == ' ' && s[18] == '\n'
  }

  /** The runs of "1+ 4 -3.5 *97 / 4 \n". */
  const CombinatorAt0 := Then("1", Some(LiteralToken("1")), CombinatorAt1)
  const CombinatorAt1 := Then("+", Some(SimpleToken(Plus)), CombinatorAt2)
  const CombinatorAt2 := Then(" ", None, CombinatorAt3)
  const CombinatorAt3 := Then("4", Some(LiteralToken("4")), CombinatorAt4)
  const CombinatorAt4 := Then(" ", None, CombinatorAt5)
  const CombinatorAt5 := Then("-", Some(SimpleToken(Minus)), CombinatorAt6)
  const CombinatorAt6 := Then("3.5", Some(LiteralToken("3.5")), CombinatorAt9)
  const CombinatorAt9 := Then(" ", None, CombinatorAt10)
  const CombinatorAt10 := Then("*", Some(SimpleToken(Mult)), CombinatorAt11)
  const CombinatorAt11 := Then("97", Some(LiteralToken("97")), CombinatorAt13)
  const CombinatorAt13 := Then(" ", None, CombinatorAt14)
  const CombinatorAt14 := Then("/", Some(SimpleToken(Div)), CombinatorAt15)
  const CombinatorAt15 := Then(" ", None, CombinatorAt16)
  const CombinatorAt16 := Then("4", Some(LiteralToken("4")), CombinatorAt17)
  const CombinatorAt17 := Then(" ", None, CombinatorAt18)
  const CombinatorAt18 := Then("\n", Some(SimpleToken(NewLine)), End)

  /** The tokens of "1+ 4 -3.5 *97 / 4 \n". */
  const CombinatorLexed: seq<Token> :=
    [LiteralToken("1"), SimpleToken(Plus), LiteralToken("4"), SimpleToken(Minus)]
    + [LiteralToken("3.5"), SimpleToken(Mult), LiteralToken("97"), SimpleToken(Div)]
    + [LiteralToken("4"), SimpleToken(NewLine)]

  /** The input of `test_tokenizer_combinator` lexes to ten tokens: the
      numbers, `3.5` among them, as literals and each operator as its kind. */
  lemma CombinatorTokens(s: string)
    requires CombinatorLine(s)
    ensures IsAsciiText(s) && Lex(s) == Value(CombinatorLexed)
  {
    CombinatorFrom0(s);
    CombinatorMatch0();
    LexLine(s, CombinatorAt0, CombinatorLexed);
  }

  lemma CombinatorTurn18(s: string)
    requires CombinatorLine(s)
    ensures Fits(s, 18, "\n") && RunToken("\n") == Some(SimpleToken(NewLine))
  {
    assert s[18..19] == "\n";
  }

  lemma CombinatorFrom18(s: string)
    requires CombinatorLine(s)
    ensures Follows(s, 18, CombinatorAt18)
  {
    CombinatorTurn18(s);
  }

  lemma CombinatorMatch18()
    ensures Matches(CombinatorAt18, CombinatorLexed, 9)
  {
  }

  lemma CombinatorTurn17(s: string)
    requires CombinatorLine(s)
    ensures Fits(s, 17, " ") && RunToken(" ") == None
  {
    assert s[17..18] == " ";
  }

  lemma CombinatorFrom17(s: string)
    requires CombinatorLine(s)
    ensures Follows(s, 17, CombinatorAt17)
  {
    CombinatorFrom18(s);
    CombinatorTurn17(s);
  }

  lemma CombinatorTurn16(s: string)
    requires CombinatorLine(s)
    ensures Fits(s, 16, "4") && RunToken("4") == Some(LiteralToken("4"))
  {
    assert RunTo(s, 17, 17, Number);
    assert s[16..17] == "4";
  }

  lemma CombinatorFrom16(s: string)
    requires CombinatorLine(s)
    ensures Follows(s, 16, CombinatorAt16)
  {
    CombinatorFrom17(s);
    CombinatorTurn16(s);
  }

  lemma CombinatorMatch16()
    ensures Matches(CombinatorAt16, CombinatorLexed, 8)
  {
    CombinatorMatch18();
  }

  lemma CombinatorTurn15(s: string)
    requires CombinatorLine(s)
    ensures Fits(s, 15, " ") && RunToken(" ") == None
  {
    assert s[15..16] == " ";
  }

  lemma CombinatorFrom15(s: string)
    requires CombinatorLine(s)
    ensures Follows(s, 15, CombinatorAt15)
  {
    CombinatorFrom16(s);
    CombinatorTurn15(s);
  }

  lemma CombinatorTurn14(s: string)
    requires CombinatorLine(s)
    ensures Fits(s, 14, "/") && RunToken("/") == Some(SimpleToken(Div))
  {
    assert s[14..15] == "/";
  }

  lemma CombinatorFrom14(s: string)
    requires CombinatorLine(s)
    ensures Follows(s, 14, CombinatorAt14)
  {
    CombinatorFrom15(s);
    CombinatorTurn14(s);
  }

  lemma CombinatorMatch14()
    ensures Matches(CombinatorAt14, CombinatorLexed, 7)
  {
    CombinatorMatch16();
  }

  lemma CombinatorTurn13(s: string)
    requires CombinatorLine(s)
    ensures Fits(s, 13, " ") && RunToken(" ") == None
  {
    assert s[13..14] == " ";
  }

  lemma CombinatorFrom13(s: string)
    requires CombinatorLine(s)
    ensures Follows(s, 13, CombinatorAt13)
  {
    CombinatorFrom14(s);
    CombinatorTurn13(s);
  }

  lemma CombinatorTurn11(s: string)
    requires CombinatorLine(s)
    ensures Fits(s, 11, "97") && RunToken("97") == Some(LiteralToken("97"))
  {
    assert RunTo(s, 13, 13, Number);
    assert RunTo(s, 12, 13, Number);
    assert s[11..13] == "97";
  }

  lemma CombinatorFrom11(s: string)
    requires CombinatorLine(s)
    ensures Follows(s, 11, CombinatorAt11)
  {
    CombinatorFrom13(s);
    CombinatorTurn11(s);
  }

  lemma CombinatorMatch11()
    ensures Matches(CombinatorAt11, CombinatorLexed, 6)
  {
    CombinatorMatch14();
  }

  lemma CombinatorTurn10(s: string)
    requires CombinatorLine(s)
    ensures Fits(s, 10, "*") && RunToken("*") == Some(SimpleToken(Mult))
  {
    assert s[10..11] == "*";
  }

  lemma CombinatorFrom10(s: string)
    requires CombinatorLine(s)
    ensures Follows(s, 10, CombinatorAt10)
  {
    CombinatorFrom11(s);
    CombinatorTurn10(s);
  }

  lemma CombinatorMatch10()
    ensures Matches(CombinatorAt10, CombinatorLexed, 5)
  {
    CombinatorMatch11();
  }

  lemma CombinatorTurn9(s: string)
    requires CombinatorLine(s)
    ensures Fits(s, 9, " ") && RunToken(" ") == None
  {
    assert s[9..10] == " ";
  }

  lemma CombinatorFrom9(s: string)
    requires CombinatorLine(s)
    ensures Follows(s, 9, CombinatorAt9)
  {
    CombinatorFrom10(s);
    CombinatorTurn9(s);
  }

  lemma CombinatorTurn6(s: string)
    requires CombinatorLine(s)
    ensures Fits(s, 6, "3.5") && RunToken("3.5") == Some(LiteralToken("3.5"))
  {
    assert RunTo(s, 9, 9, Number);
    assert RunTo(s, 8, 9, Number);
    assert RunTo(s, 7, 9, Number);
    assert s[6..9] == "3.5";
  }

  lemma CombinatorFrom6(s: string)
    requires CombinatorLine(s)
    ensures Follows(s, 6, CombinatorAt6)
  {
    CombinatorFrom9(s);
    CombinatorTurn6(s);
  }

  lemma CombinatorMatch6()
    ensures Matches(CombinatorAt6, CombinatorLexed, 4)
  {
    CombinatorMatch10();
  }

  lemma CombinatorTurn5(s: string)
    requires CombinatorLine(s)
    ensures Fits(s, 5, "-") && RunToken("-") == Some(SimpleToken(Minus))
  {
    assert s[5..6] == "-";
  }

  lemma CombinatorFrom5(s: string)
    requires CombinatorLine(s)
    ensures Follows(s, 5, CombinatorAt5)
  {
    CombinatorFrom6(s);
    CombinatorTurn5(s);
  }

  lemma CombinatorMatch5()
    ensures Matches(CombinatorAt5, CombinatorLexed, 3)
  {
    CombinatorMatch6();
  }

  lemma CombinatorTurn4(s: string)
    requires CombinatorLine(s)
    ensures Fits(s, 4, " ") && RunToken(" ") == None
  {
    assert s[4..5] == " ";
  }

  lemma CombinatorFrom4(s: string)
    requires CombinatorLine(s)
    ensures Follows(s, 4, CombinatorAt4)
  {
    CombinatorFrom5(s);
    CombinatorTurn4(s);
  }

  lemma CombinatorTurn3(s: string)
    requires CombinatorLine(s)
    ensures Fits(s, 3, "4") && RunToken("4") == Some(LiteralToken("4"))
  {
    assert RunTo(s, 4, 4, Number);
    assert s[3..4] == "4";
  }

  lemma CombinatorFrom3(s: string)
    requires CombinatorLine(s)
    ensures Follows(s, 3, CombinatorAt3)
  {
    CombinatorFrom4(s);
    CombinatorTurn3(s);
  }

  lemma CombinatorMatch3()
    ensures Matches(CombinatorAt3, CombinatorLexed, 2)
  {
    CombinatorMatch5();
  }

  lemma CombinatorTurn2(s: string)
    requires CombinatorLine(s)
    ensures Fits(s, 2, " ") && RunToken(" ") == None
  {
    assert s[2..3] == " ";
  }

  lemma CombinatorFrom2(s: string)
    requires CombinatorLine(s)
    ensures Follows(s, 2, CombinatorAt2)
  {
    CombinatorFrom3(s);
    CombinatorTurn2(s);
  }

  lemma CombinatorTurn1(s: string)
    requires CombinatorLine(s)
    ensures Fits(s, 1, "+") && RunToken("+") == Some(SimpleToken(Plus))
  {
    assert s[1..2] == "+";
  }

  lemma CombinatorFrom1(s: string)
    requires CombinatorLine(s)
    ensures Follows(s, 1, CombinatorAt1)
  {
    CombinatorFrom2(s);
    CombinatorTurn1(s);
  }

  lemma CombinatorMatch1()
    ensures Matches(CombinatorAt1, CombinatorLexed, 1)
  {
    CombinatorMatch3();
  }

  lemma CombinatorTurn0(s: string)
    requires CombinatorLine(s)
    ensures Fits(s, 0, "1") && RunToken("1") == Some(LiteralToken("1"))
  {
    assert RunTo(s, 1, 1, Number);
    assert s[0..1] == "1";
  }

  lemma CombinatorFrom0(s: string)
    requires CombinatorLine(s)
    ensures Follows(s, 0, CombinatorAt0)
  {
    CombinatorFrom1(s);
    CombinatorTurn0(s);
  }

  lemma CombinatorMatch0()
    ensures Matches(CombinatorAt0, CombinatorLexed, 0)
  {
    CombinatorMatch1();
  }

  // ----- test_tokenizer_boolean_expression (src/tokenizer.rs:434-446) -----

  /** The characters of "3 <5 or 7 = 2 and 5>=4 or 0.77<= y\n". */
  predicate BooleanExpressionLine(s: string) {
    |s| == 35 && s[0] == '3' && s[1] == ' ' && s[2] == '<' && s[3] == '5' && s[4] == ' ' &&
    s[5] == 'o' && s[6] == 'r' && s[7] == ' ' && s[8] == '7' && s[9] == ' ' && s[10] == '=' &&
    s[11] == ' ' && s[12] == '2' && s[13] == ' ' && s[14] == 'a' && s[15] == 'n' &&
    s[16] == 'd' && s[17] == ' ' && s[18] == '5' && s[19] == '>' && s[20] == '=' &&
    s[21] == '4' && s[22] == ' ' && s[23] == 'o' && s[24] == 'r' && s[25] == ' ' &&
    s[26] == '0' && s[27] == '.' && s[28] == '7' && s[29] == '7' && s[30] == '<' &&
    s[31] == '=' && s[32] == ' ' && s[33] == 'y' && s[34] == '\n'
  }

  /** The runs of "3 <5 or 7 = 2 and 5>=4 or 0.77<= y\n". */
  const BooleanExpressionAt0 := Then("3", Some(LiteralToken("3")), BooleanExpressionAt1)
  const BooleanExpressionAt1 := Then(" ", None, BooleanExpressionAt2)
  const BooleanExpressionAt2 := Then("<", Some(SimpleToken(TokenType.LessThan)), BooleanExpressionAt3)
  const BooleanExpressionAt3 := Then("5", Some(LiteralToken("5")), BooleanExpressionAt4)
  const BooleanExpressionAt4 := Then(" ", None, BooleanExpressionAt5)
  const BooleanExpressionAt5 := Then("or", Some(SimpleToken(TokenType.Or)), BooleanExpressionAt7)
  const BooleanExpressionAt7 := Then(" ", None, BooleanExpressionAt8)
  const BooleanExpressionAt8 := Then("7", Some(LiteralToken("7")), BooleanExpressionAt9)
  const BooleanExpressionAt9 := Then(" ", None, BooleanExpressionAt10)
  const BooleanExpressionAt10 := Then("=", Some(SimpleToken(TokenType.Equals)), BooleanExpressionAt11)
  const BooleanExpressionAt11 := Then(" ", None, BooleanExpressionAt12)
  const BooleanExpressionAt12 := Then("2", Some(LiteralToken("2")), BooleanExpressionAt13)
  const BooleanExpressionAt13 := Then(" ", None, BooleanExpressionAt14)
  const BooleanExpressionAt14 := Then("and", Some(SimpleToken(TokenType.And)), BooleanExpressionAt17)
  const BooleanExpressionAt17 := Then(" ", None, BooleanExpressionAt18)
  const BooleanExpressionAt18 := Then("5", Some(LiteralToken("5")), BooleanExpressionAt19)
  const BooleanExpressionAt19 := Then(">=", Some(SimpleToken(TokenType.Gte)), BooleanExpressionAt21)
  const BooleanExpressionAt21 := Then("4", Some(LiteralToken("4")), BooleanExpressionAt22)
  const BooleanExpressionAt22 := Then(" ", None, BooleanExpressionAt23)
  const BooleanExpressionAt23 := Then("or", Some(SimpleToken(TokenType.Or)), BooleanExpressionAt25)
  const BooleanExpressionAt25 := Then(" ", None, BooleanExpressionAt26)
  const BooleanExpressionAt26 := Then("0.77", Some(LiteralToken("0.77")), BooleanExpressionAt30)
  const BooleanExpressionAt30 := Then("<=", Some(SimpleToken(TokenType.Lte)), BooleanExpressionAt32)
  const BooleanExpressionAt32 := Then(" ", None, BooleanExpressionAt33)
  const BooleanExpressionAt33 := Then("y", Some(LiteralToken("y")), BooleanExpressionAt34)
  const BooleanExpressionAt34 := Then("\n", Some(SimpleToken(NewLine)), End)

  /** The tokens of "3 <5 or 7 = 2 and 5>=4 or 0.77<= y\n". */
  const BooleanExpressionLexed: seq<Token> :=
    [LiteralToken("3"), SimpleToken(TokenType.LessThan), LiteralToken("5"), SimpleToken(TokenType.Or)]
    + [LiteralToken("7"), SimpleToken(TokenType.Equals), LiteralToken("2"), SimpleToken(TokenType.And)]
    + [LiteralToken("5"), SimpleToken(TokenType.Gte), LiteralToken("4"), SimpleToken(TokenType.Or)]
    + [LiteralToken("0.77"), SimpleToken(TokenType.Lte), LiteralToken("y"), SimpleToken(NewLine)]

  /** The input of `test_tokenizer_boolean_expression` lexes to sixteen
      tokens, with `or` and `and` read as keywords and `<`, `>=` and `<=` read
      from punctuation runs. */
  lemma BooleanExpressionTokens(s: string)
    requires BooleanExpressionLine(s)
    ensures IsAsciiText(s) && Lex(s) == Value(BooleanExpressionLexed)
  {
    BooleanExpressionFrom0(s);
    BooleanExpressionMatch0();
    LexLine(s, BooleanExpressionAt0, BooleanExpressionLexed);
  }

  lemma BooleanExpressionTurn34(s: string)
    requires BooleanExpressionLine(s)
    ensures Fits(s, 34, "\n") && RunToken("\n") == Some(SimpleToken(NewLine))
  {
    assert s[34..35] == "\n";
  }

  lemma BooleanExpressionFrom34(s: string)
    requires BooleanExpressionLine(s)
    ensures Follows(s, 34, BooleanExpressionAt34)
  {
    BooleanExpressionTurn34(s);
  }

  lemma BooleanExpressionMatch34()
    ensures Matches(BooleanExpressionAt34, BooleanExpressionLexed, 15)
  {
  }

  lemma BooleanExpressionTurn33(s: string)
    requires BooleanExpressionLine(s)
    ensures Fits(s, 33, "y") && RunToken("y") == Some(LiteralToken("y"))
  {
    assert RunTo(s, 34, 34, Word);
    assert s[33..34] == "y";
  }

  lemma BooleanExpressionFrom33(s: string)
    requires BooleanExpressionLine(s)
    ensures Follows(s, 33, BooleanExpressionAt33)
  {
    BooleanExpressionFrom34(s);
    BooleanExpressionTurn33(s);
  }

  lemma BooleanExpressionMatch33()
    ensures Matches(BooleanExpressionAt33, BooleanExpressionLexed, 14)
  {
    BooleanExpressionMatch34();
  }

  lemma BooleanExpressionTurn32(s: string)
    requires BooleanExpressionLine(s)
    ensures Fits(s, 32, " ") && RunToken(" ") == None
  {
    assert s[32..33] == " ";
  }

  lemma BooleanExpressionFrom32(s: string)
    requires BooleanExpressionLine(s)
    ensures Follows(s, 32, BooleanExpressionAt32)
  {
    BooleanExpressionFrom33(s);
    BooleanExpressionTurn32(s);
  }

  lemma BooleanExpressionTurn30(s: string)
    requires BooleanExpressionLine(s)
    ensures Fits(s, 30, "<=") && RunToken("<=") == Some(SimpleToken(TokenType.Lte))
  {
    assert RunTo(s, 32, 32, Symbols);
    assert RunTo(s, 31, 32, Symbols);
    assert s[30..32] == "<=";
  }

  lemma BooleanExpressionFrom30(s: string)
    requires BooleanExpressionLine(s)
    ensures Follows(s, 30, BooleanExpressionAt30)
  {
    BooleanExpressionFrom32(s);
    BooleanExpressionTurn30(s);
  }

  lemma BooleanExpressionMatch30()
    ensures Matches(BooleanExpressionAt30, BooleanExpressionLexed, 13)
  {
    BooleanExpressionMatch33();
  }

  lemma BooleanExpressionTurn26(s: string)
    requires BooleanExpressionLine(s)
    ensures Fits(s, 26, "0.77") && RunToken("0.77") == Some(LiteralToken("0.77"))
  {
    assert RunTo(s, 30, 30, Number);
    assert RunTo(s, 29, 30, Number);
    assert RunTo(s, 28, 30, Number);
    assert RunTo(s, 27, 30, Number);
    assert s[26..30] == "0.77";
  }

  lemma BooleanExpressionFrom26(s: string)
    requires BooleanExpressionLine(s)
    ensures Follows(s, 26, BooleanExpressionAt26)
  {
    BooleanExpressionFrom30(s);
    BooleanExpressionTurn26(s);
  }

  lemma BooleanExpressionMatch26()
    ensures Matches(BooleanExpressionAt26, BooleanExpressionLexed, 12)
  {
    BooleanExpressionMatch30();
  }

  lemma BooleanExpressionTurn25(s: string)
    requires BooleanExpressionLine(s)
    ensures Fits(s, 25, " ") && RunToken(" ") == None
  {
    assert s[25..26] == " ";
  }

  lemma BooleanExpressionFrom25(s: string)
    requires BooleanExpressionLine(s)
    ensures Follows(s, 25, BooleanExpressionAt25)
  {
    BooleanExpressionFrom26(s);
    BooleanExpressionTurn25(s);
  }

  lemma BooleanExpressionTurn23(s: string)
    requires BooleanExpressionLine(s)
    ensures Fits(s, 23, "or") && RunToken("or") == Some(SimpleToken(TokenType.Or))
  {
    assert RunTo(s, 25, 25, Word);
    assert RunTo(s, 24, 25, Word);
    assert s[23..25] == "or";
  }

  lemma BooleanExpressionFrom23(s: string)
    requires BooleanExpressionLine(s)
    ensures Follows(s, 23, BooleanExpressionAt23)
  {
    BooleanExpressionFrom25(s);
    BooleanExpressionTurn23(s);
  }

  lemma BooleanExpressionMatch23()
    ensures Matches(BooleanExpressionAt23, BooleanExpressionLexed, 11)
  {
    BooleanExpressionMatch26();
  }

  lemma BooleanExpressionTurn22(s: string)
    requires BooleanExpressionLine(s)
    ensures Fits(s, 22, " ") && RunToken(" ") == None
  {
    assert s[22..23] == " ";
  }

  lemma BooleanExpressionFrom22(s: string)
    requires BooleanExpressionLine(s)
    ensures Follows(s, 22, BooleanExpressionAt22)
  {
    BooleanExpressionFrom23(s);
    BooleanExpressionTurn22(s);
  }

  lemma BooleanExpressionTurn21(s: string)
    requires BooleanExpressionLine(s)
    ensures Fits(s, 21, "4") && RunToken("4") == Some(LiteralToken("4"))
  {
    assert RunTo(s, 22, 22, Number);
    assert s[21..22] == "4";
  }

  lemma BooleanExpressionFrom21(s: string)
    requires BooleanExpressionLine(s)
    ensures Follows(s, 21, BooleanExpressionAt21)
  {
    BooleanExpressionFrom22(s);
    BooleanExpressionTurn21(s);
  }

  lemma BooleanExpressionMatch21()
    ensures Matches(BooleanExpressionAt21, BooleanExpressionLexed, 10)
  {
    BooleanExpressionMatch23();
  }

  lemma BooleanExpressionTurn19(s: string)
    requires BooleanExpressionLine(s)
    ensures Fits(s, 19, ">=") && RunToken(">=") == Some(SimpleToken(TokenType.Gte))
  {
    assert RunTo(s, 21, 21, Symbols);
    assert RunTo(s, 20, 21, Symbols);
    assert s[19..21] == ">=";
  }

  lemma BooleanExpressionFrom19(s: string)
    requires BooleanExpressionLine(s)
    ensures Follows(s, 19, BooleanExpressionAt19)
  {
    BooleanExpressionFrom21(s);
    BooleanExpressionTurn19(s);
  }

  lemma BooleanExpressionMatch19()
    ensures Matches(BooleanExpressionAt19, BooleanExpressionLexed, 9)
  {
    BooleanExpressionMatch21();
  }

  lemma BooleanExpressionTurn18(s: string)
    requires BooleanExpressionLine(s)
    ensures Fits(s, 18, "5") && RunToken("5") == Some(LiteralToken("5"))
  {
    assert RunTo(s, 19, 19, Number);
    assert s[18..19] == "5";
  }

  lemma BooleanExpressionFrom18(s: string)
    requires BooleanExpressionLine(s)
    ensures Follows(s, 18, BooleanExpressionAt18)
  {
    BooleanExpressionFrom19(s);
    BooleanExpressionTurn18(s);
  }

  lemma BooleanExpressionMatch18()
    ensures Matches(BooleanExpressionAt18, BooleanExpressionLexed, 8)
  {
    BooleanExpressionMatch19();
  }

  lemma BooleanExpressionTurn17(s: string)
    requires BooleanExpressionLine(s)
    ensures Fits(s, 17, " ") && RunToken(" ") == None
  {
    assert s[17..18] == " ";
  }

  lemma BooleanExpressionFrom17(s: string)
    requires BooleanExpressionLine(s)
    ensures Follows(s, 17, BooleanExpressionAt17)
  {
    BooleanExpressionFrom18(s);
    BooleanExpressionTurn17(s);
  }

  lemma BooleanExpressionTurn14(s: string)
    requires BooleanExpressionLine(s)
    ensures Fits(s, 14, "and") && RunToken("and") == Some(SimpleToken(TokenType.And))
  {
    assert RunTo(s, 17, 17, Word);
    assert RunTo(s, 16, 17, Word);
    assert RunTo(s, 15, 17, Word);
    assert s[14..17] == "and";
  }

  lemma BooleanExpressionFrom14(s: string)
    requires BooleanExpressionLine(s)
    ensures Follows(s, 14, BooleanExpressionAt14)
  {
    BooleanExpressionFrom17(s);
    BooleanExpressionTurn14(s);
  }

  lemma BooleanExpressionMatch14()
    ensures Matches(BooleanExpressionAt14, BooleanExpressionLexed, 7)
  {
    BooleanExpressionMatch18();
  }

  lemma BooleanExpressionTurn13(s: string)
    requires BooleanExpressionLine(s)
    ensures Fits(s, 13, " ") && RunToken(" ") == None
  {
    assert s[13..14] == " ";
  }

  lemma BooleanExpressionFrom13(s: string)
    requires BooleanExpressionLine(s)
    ensures Follows(s, 13, BooleanExpressionAt13)
  {
    BooleanExpressionFrom14(s);
    BooleanExpressionTurn13(s);
  }

  lemma BooleanExpressionTurn12(s: string)
    requires BooleanExpressionLine(s)
    ensures Fits(s, 12, "2") && RunToken("2") == Some(LiteralToken("2"))
  {
    assert RunTo(s, 13, 13, Number);
    assert s[12..13] == "2";
  }

  lemma BooleanExpressionFrom12(s: string)
    requires BooleanExpressionLine(s)
    ensures Follows(s, 12, BooleanExpressionAt12)
  {
    BooleanExpressionFrom13(s);
    BooleanExpressionTurn12(s);
  }

  lemma BooleanExpressionMatch12()
    ensures Matches(BooleanExpressionAt12, BooleanExpressionLexed, 6)
  {
    BooleanExpressionMatch14();
  }

  lemma BooleanExpressionTurn11(s: string)
    requires BooleanExpressionLine(s)
    ensures Fits(s, 11, " ") && RunToken(" ") == None
  {
    assert s[11..12] == " ";
  }

  lemma BooleanExpressionFrom11(s: string)
    requires BooleanExpressionLine(s)
    ensures Follows(s, 11, BooleanExpressionAt11)
  {
    BooleanExpressionFrom12(s);
    BooleanExpressionTurn11(s);
  }

  lemma BooleanExpressionTurn10(s: string)
    requires BooleanExpressionLine(s)
    ensures Fits(s, 10, "=") && RunToken("=") == Some(SimpleToken(TokenType.Equals))
  {
    assert s[10..11] == "=";
  }

  lemma BooleanExpressionFrom10(s: string)
    requires BooleanExpressionLine(s)
    ensures Follows(s, 10, BooleanExpressionAt10)
  {
    BooleanExpressionFrom11(s);
    BooleanExpressionTurn10(s);
  }

  lemma BooleanExpressionMatch10()
    ensures Matches(BooleanExpressionAt10, BooleanExpressionLexed, 5)
  {
    BooleanExpressionMatch12();
  }

  lemma BooleanExpressionTurn9(s: string)
    requires BooleanExpressionLine(s)
    ensures Fits(s, 9, " ") && RunToken(" ") == None
  {
    assert s[9..10] == " ";
  }

  lemma BooleanExpressionFrom9(s: string)
    requires BooleanExpressionLine(s)
    ensures Follows(s, 9, BooleanExpressionAt9)
  {
    BooleanExpressionFrom10(s);
    BooleanExpressionTurn9(s);
  }

  lemma BooleanExpressionTurn8(s: string)
    requires BooleanExpressionLine(s)
    ensures Fits(s, 8, "7") && RunToken("7") == Some(LiteralToken("7"))
  {
    assert RunTo(s, 9, 9, Number);
    assert s[8..9] == "7";
  }

  lemma BooleanExpressionFrom8(s: string)
    requires BooleanExpressionLine(s)
    ensures Follows(s, 8, BooleanExpressionAt8)
  {
    BooleanExpressionFrom9(s);
    BooleanExpressionTurn8(s);
  }

  lemma BooleanExpressionMatch8()
    ensures Matches(BooleanExpressionAt8, BooleanExpressionLexed, 4)
  {
    BooleanExpressionMatch10();
  }

  lemma BooleanExpressionTurn7(s: string)
    requires BooleanExpressionLine(s)
    ensures Fits(s, 7, " ") && RunToken(" ") == None
  {
    assert s[7..8] == " ";
  }

  lemma BooleanExpressionFrom7(s: string)
    requires BooleanExpressionLine(s)
    ensures Follows(s, 7, BooleanExpressionAt7)
  {
    BooleanExpressionFrom8(s);
    BooleanExpressionTurn7(s);
  }

  lemma BooleanExpressionTurn5(s: string)
    requires BooleanExpressionLine(s)
    ensures Fits(s, 5, "or") && RunToken("or") == Some(SimpleToken(TokenType.Or))
  {
    assert RunTo(s, 7, 7, Word);
    assert RunTo(s, 6, 7, Word);
    assert s[5..7] == "or";
  }

  lemma BooleanExpressionFrom5(s: string)
    requires BooleanExpressionLine(s)
    ensures Follows(s, 5, BooleanExpressionAt5)
  {
    BooleanExpressionFrom7(s);
    BooleanExpressionTurn5(s);
  }

  lemma BooleanExpressionMatch5()
    ensures Matches(BooleanExpressionAt5, BooleanExpressionLexed, 3)
  {
    BooleanExpressionMatch8();
  }

  lemma BooleanExpressionTurn4(s: string)
    requires BooleanExpressionLine(s)
    ensures Fits(s, 4, " ") && RunToken(" ") == None
  {
    assert s[4..5] == " ";
  }

  lemma BooleanExpressionFrom4(s: string)
    requires BooleanExpressionLine(s)
    ensures Follows(s, 4, BooleanExpressionAt4)
  {
    BooleanExpressionFrom5(s);
    BooleanExpressionTurn4(s);
  }

  lemma BooleanExpressionTurn3(s: string)
    requires BooleanExpressionLine(s)
    ensures Fits(s, 3, "5") && RunToken("5") == Some(LiteralToken("5"))
  {
    assert RunTo(s, 4, 4, Number);
    assert s[3..4] == "5";
  }

  lemma BooleanExpressionFrom3(s: string)
    requires BooleanExpressionLine(s)
    ensures Follows(s, 3, BooleanExpressionAt3)
  {
    BooleanExpressionFrom4(s);
    BooleanExpressionTurn3(s);
  }

  lemma BooleanExpressionMatch3()
    ensures Matches(BooleanExpressionAt3, BooleanExpressionLexed, 2)
  {
    BooleanExpressionMatch5();
  }

  lemma BooleanExpressionTurn2(s: string)
    requires BooleanExpressionLine(s)
    ensures Fits(s, 2, "<") && RunToken("<") == Some(SimpleToken(TokenType.LessThan))
  {
    assert RunTo(s, 3, 3, Symbols);
    assert s[2..3] == "<";
  }

  lemma BooleanExpressionFrom2(s: string)
    requires BooleanExpressionLine(s)
    ensures Follows(s, 2, BooleanExpressionAt2)
  {
    BooleanExpressionFrom3(s);
    BooleanExpressionTurn2(s);
  }

  lemma BooleanExpressionMatch2()
    ensures Matches(BooleanExpressionAt2, BooleanExpressionLexed, 1)
  {
    BooleanExpressionMatch3();
  }

  lemma BooleanExpressionTurn1(s: string)
    requires BooleanExpressionLine(s)
    ensures Fits(s, 1, " ") && RunToken(" ") == None
  {
    assert s[1..2] == " ";
  }

  lemma BooleanExpressionFrom1(s: string)
    requires BooleanExpressionLine(s)
    ensures Follows(s, 1, BooleanExpressionAt1)
  {
    BooleanExpressionFrom2(s);
    BooleanExpressionTurn1(s);
  }

  lemma BooleanExpressionTurn0(s: string)
    requires BooleanExpressionLine(s)
    ensures Fits(s, 0, "3") && RunToken("3") == Some(LiteralToken("3"))
  {
    assert RunTo(s, 1, 1, Number);
    assert s[0..1] == "3";
  }

  lemma BooleanExpressionFrom0(s: string)
    requires BooleanExpressionLine(s)
    ensures Follows(s, 0, BooleanExpressionAt0)
  {
    BooleanExpressionFrom1(s);
    BooleanExpressionTurn0(s);
  }

  lemma BooleanExpressionMatch0()
    ensures Matches(BooleanExpressionAt0, BooleanExpressionLexed, 0)
  {
    BooleanExpressionMatch2();
  }

  // ----- test_tokenizer_bracket (src/tokenizer.rs:448-463) -----

  /** The characters of "[4, 3] {\"hello\": \"worlds\"} ((x + 4)- 19)\n". */
  predicate BracketLine(s: string) {
    |s| == 41 && s[0] == '[' && s[1] == '4' && s[2] == ',' && s[3] == ' ' && s[4] == '3' &&
    s[5] == ']' && s[6] == ' ' && s[7] == '{' && s[8] == '\"' && s[9] == 'h' && s[10] == 'e' &&
    s[11] == 'l' && s[12] == 'l' && s[13] == 'o' && s[14] == '\"' && s[15] == ':' &&
    s[16] == ' ' && s[17] == '\"' && s[18] == 'w' && s[19] == 'o' && s[20] == 'r' &&
    s[21] == 'l' && s[22] == 'd' && s[23] == 's' && s[24] == '\"' && s[25] == '}' &&
    s[26] == ' ' && s[27] == '(' && s[28] == '(' && s[29] == 'x' && s[30] == ' ' &&
    s[31] == '+' && s[32] == ' ' && s[33] == '4' && s[34] == ')' && s[35] == '-' &&
    s[36] == ' ' && s[37] == '1' && s[38] == '9' && s[39] == ')' && s[40] == '\n'
  }

  /** The runs of "[4, 3] {\"hello\": \"worlds\"} ((x + 4)- 19)\n". */
  const BracketAt0 := Then("[", Some(SimpleToken(OpenBracket)), BracketAt1)
  const BracketAt1 := Then("4", Some(LiteralToken("4")), BracketAt2)
  const BracketAt2 := Then(",", Some(SimpleToken(Comma)), BracketAt3)
  const BracketAt3 := Then(" ", None, BracketAt4)
  const BracketAt4 := Then("3", Some(LiteralToken("3")), BracketAt5)
  const BracketAt5 := Then("]", Some(SimpleToken(CloseBracet)), BracketAt6)
  const BracketAt6 := Then(" ", None, BracketAt7)
  const BracketAt7 := Then("{", Some(SimpleToken(OpenBrace)), BracketAt8)
  const BracketAt8 := Then("\"", Some(SimpleToken(Quote)), BracketAt9)
  const BracketAt9 := Then("hello", Some(LiteralToken("hello")), BracketAt14)
  const BracketAt14 := Then("\"", Some(SimpleToken(Quote)), BracketAt15)
  const BracketAt15 := Then(":", Some(SimpleToken(Colon)), BracketAt16)
  const BracketAt16 := Then(" ", None, BracketAt17)
  const BracketAt17 := Then("\"", Some(SimpleToken(Quote)), BracketAt18)
  const BracketAt18 := Then("worlds", Some(LiteralToken("worlds")), BracketAt24)
  const BracketAt24 := Then("\"", Some(SimpleToken(Quote)), BracketAt25)
  const BracketAt25 := Then("}", Some(SimpleToken(CloseBrace)), BracketAt26)
  const BracketAt26 := Then(" ", None, BracketAt27)
  const BracketAt27 := Then("(", Some(SimpleToken(OpenParen)), BracketAt28)
  const BracketAt28 := Then("(", Some(SimpleToken(OpenParen)), BracketAt29)
  const BracketAt29 := Then("x", Some(LiteralToken("x")), BracketAt30)
  const BracketAt30 := Then(" ", None, BracketAt31)
  const BracketAt31 := Then("+", Some(SimpleToken(Plus)), BracketAt32)
  const BracketAt32 := Then(" ", None, BracketAt33)
  const BracketAt33 := Then("4", Some(LiteralToken("4")), BracketAt34)
  const BracketAt34 := Then(")", Some(SimpleToken(CloseParen)), BracketAt35)
  const BracketAt35 := Then("-", Some(SimpleToken(Minus)), BracketAt36)
  const BracketAt36 := Then(" ", None, BracketAt37)
  const BracketAt37 := Then("19", Some(LiteralToken("19")), BracketAt39)
  const BracketAt39 := Then(")", Some(SimpleToken(CloseParen)), BracketAt40)
  const BracketAt40 := Then("\n", Some(SimpleToken(NewLine)), End)

  /** The tokens of "[4, 3] {\"hello\": \"worlds\"} ((x + 4)- 19)\n". */
  const BracketLexed: seq<Token> :=
    [SimpleToken(OpenBracket), LiteralToken("4"), SimpleToken(Comma), LiteralToken("3")]
    + [SimpleToken(CloseBracet), SimpleToken(OpenBrace), SimpleToken(Quote), LiteralToken("hello")]
    + [SimpleToken(Quote), SimpleToken(Colon), SimpleToken(Quote), LiteralToken("worlds")]
    + [SimpleToken(Quote), SimpleToken(CloseBrace), SimpleToken(OpenParen), SimpleToken(OpenParen)]
    + [LiteralToken("x"), SimpleToken(Plus), LiteralToken("4"), SimpleToken(CloseParen)]
    + [SimpleToken(Minus), LiteralToken("19"), SimpleToken(CloseParen), SimpleToken(NewLine)]

  /** The input of `test_tokenizer_bracket` lexes to twenty-four tokens: each
      bracket, brace, quote, colon and comma as its kind, with the default
      branch reading `hello` and `worlds` as literals, so the line ends. */
  lemma BracketTokens(s: string)
    requires BracketLine(s)
    ensures IsAsciiText(s) && Lex(s) == Value(BracketLexed)
  {
    BracketFrom0(s);
    BracketMatch0();
    LexLine(s, BracketAt0, BracketLexed);
  }

  lemma BracketTurn40(s: string)
    requires BracketLine(s)
    ensures Fits(s, 40, "\n") && RunToken("\n") == Some(SimpleToken(NewLine))
  {
    assert s[40..41] == "\n";
  }

  lemma BracketFrom40(s: string)
    requires BracketLine(s)
    ensures Follows(s, 40, BracketAt40)
  {
    BracketTurn40(s);
  }

  lemma BracketMatch40()
    ensures Matches(BracketAt40, BracketLexed, 23)
  {
  }

  lemma BracketTurn39(s: string)
    requires BracketLine(s)
    ensures Fits(s, 39, ")") && RunToken(")") == Some(SimpleToken(CloseParen))
  {
    assert s[39..40] == ")";
  }

  lemma BracketFrom39(s: string)
    requires BracketLine(s)
    ensures Follows(s, 39, BracketAt39)
  {
    BracketFrom40(s);
    BracketTurn39(s);
  }

  lemma BracketMatch39()
    ensures Matches(BracketAt39, BracketLexed, 22)
  {
    BracketMatch40();
  }

  lemma BracketTurn37(s: string)
    requires BracketLine(s)
    ensures Fits(s, 37, "19") && RunToken("19") == Some(LiteralToken("19"))
  {
    assert RunTo(s, 39, 39, Number);
    assert RunTo(s, 38, 39, Number);
    assert s[37..39] == "19";
  }

  lemma BracketFrom37(s: string)
    requires BracketLine(s)
    ensures Follows(s, 37, BracketAt37)
  {
    BracketFrom39(s);
    BracketTurn37(s);
  }

  lemma BracketMatch37()
    ensures Matches(BracketAt37, BracketLexed, 21)
  {
    BracketMatch39();
  }

  lemma BracketTurn36(s: string)
    requires BracketLine(s)
    ensures Fits(s, 36, " ") && RunToken(" ") == None
  {
    assert s[36..37] == " ";
  }

  lemma BracketFrom36(s: string)
    requires BracketLine(s)
    ensures Follows(s, 36, BracketAt36)
  {
    BracketFrom37(s);
    BracketTurn36(s);
  }

  lemma BracketTurn35(s: string)
    requires BracketLine(s)
    ensures Fits(s, 35, "-") && RunToken("-") == Some(SimpleToken(Minus))
  {
    assert s[35..36] == "-";
  }

  lemma BracketFrom35(s: string)
    requires BracketLine(s)
    ensures Follows(s, 35, BracketAt35)
  {
    BracketFrom36(s);
    BracketTurn35(s);
  }

  lemma BracketMatch35()
    ensures Matches(BracketAt35, BracketLexed, 20)
  {
    BracketMatch37();
  }

  lemma BracketTurn34(s: string)
    requires BracketLine(s)
    ensures Fits(s, 34, ")") && RunToken(")") == Some(SimpleToken(CloseParen))
  {
    assert s[34..35] == ")";
  }

  lemma BracketFrom34(s: string)
    requires BracketLine(s)
    ensures Follows(s, 34, BracketAt34)
  {
    BracketFrom35(s);
    BracketTurn34(s);
  }

  lemma BracketMatch34()
    ensures Matches(BracketAt34, BracketLexed, 19)
  {
    BracketMatch35();
  }

  lemma BracketTurn33(s: string)
    requires BracketLine(s)
    ensures Fits(s, 33, "4") && RunToken("4") == Some(LiteralToken("4"))
  {
    assert RunTo(s, 34, 34, Number);
    assert s[33..34] == "4";
  }

  lemma BracketFrom33(s: string)
    requires BracketLine(s)
    ensures Follows(s, 33, BracketAt33)
  {
    BracketFrom34(s);
    BracketTurn33(s);
  }

  lemma BracketMatch33()
    ensures Matches(BracketAt33, BracketLexed, 18)
  {
    BracketMatch34();
  }

  lemma BracketTurn32(s: string)
    requires BracketLine(s)
    ensures Fits(s, 32, " ") && RunToken(" ") == None
  {
    assert s[32..33] == " ";
  }

  lemma BracketFrom32(s: string)
    requires BracketLine(s)
    ensures Follows(s, 32, BracketAt32)
  {
    BracketFrom33(s);
    BracketTurn32(s);
  }

  lemma BracketTurn31(s: string)
    requires BracketLine(s)
    ensures Fits(s, 31, "+") && RunToken("+") == Some(SimpleToken(Plus))
  {
    assert s[31..32] == "+";
  }

  lemma BracketFrom31(s: string)
    requires BracketLine(s)
    ensures Follows(s, 31, BracketAt31)
  {
    BracketFrom32(s);
    BracketTurn31(s);
  }

  lemma BracketMatch31()
    ensures Matches(BracketAt31, BracketLexed, 17)
  {
    BracketMatch33();
  }

  lemma BracketTurn30(s: string)
    requires BracketLine(s)
    ensures Fits(s, 30, " ") && RunToken(" ") == None
  {
    assert s[30..31] == " ";
  }

  lemma BracketFrom30(s: string)
    requires BracketLine(s)
    ensures Follows(s, 30, BracketAt30)
  {
    BracketFrom31(s);
    BracketTurn30(s);
  }

  lemma BracketTurn29(s: string)
    requires BracketLine(s)
    ensures Fits(s, 29, "x") && RunToken("x") == Some(LiteralToken("x"))
  {
    assert RunTo(s, 30, 30, Word);
    assert s[29..30] == "x";
  }

  lemma BracketFrom29(s: string)
    requires BracketLine(s)
    ensures Follows(s, 29, BracketAt29)
  {
    BracketFrom30(s);
    BracketTurn29(s);
  }

  lemma BracketMatch29()
    ensures Matches(BracketAt29, BracketLexed, 16)
  {
    BracketMatch31();
  }

  lemma BracketTurn28(s: string)
    requires BracketLine(s)
    ensures Fits(s, 28, "(") && RunToken("(") == Some(SimpleToken(OpenParen))
  {
    assert s[28..29] == "(";
  }

  lemma BracketFrom28(s: string)
    requires BracketLine(s)
    ensures Follows(s, 28, BracketAt28)
  {
    BracketFrom29(s);
    BracketTurn28(s);
  }

  lemma BracketMatch28()
    ensures Matches(BracketAt28, BracketLexed, 15)
  {
    BracketMatch29();
  }

  lemma BracketTurn27(s: string)
    requires BracketLine(s)
    ensures Fits(s, 27, "(") && RunToken("(") == Some(SimpleToken(OpenParen))
  {
    assert s[27..28] == "(";
  }

  lemma BracketFrom27(s: string)
    requires BracketLine(s)
    ensures Follows(s, 27, BracketAt27)
  {
    BracketFrom28(s);
    BracketTurn27(s);
  }

  lemma BracketMatch27()
    ensures Matches(BracketAt27, BracketLexed, 14)
  {
    BracketMatch28();
  }

  lemma BracketTurn26(s: string)
    requires BracketLine(s)
    ensures Fits(s, 26, " ") && RunToken(" ") == None
  {
    assert s[26..27] == " ";
  }

  lemma BracketFrom26(s: string)
    requires BracketLine(s)
    ensures Follows(s, 26, BracketAt26)
  {
    BracketFrom27(s);
    BracketTurn26(s);
  }

  lemma BracketTurn25(s: string)
    requires BracketLine(s)
    ensures Fits(s, 25, "}") && RunToken("}") == Some(SimpleToken(CloseBrace))
  {
    assert s[25..26] == "}";
  }

  lemma BracketFrom25(s: string)
    requires BracketLine(s)
    ensures Follows(s, 25, BracketAt25)
  {
    BracketFrom26(s);
    BracketTurn25(s);
  }

  lemma BracketMatch25()
    ensures Matches(BracketAt25, BracketLexed, 13)
  {
    BracketMatch27();
  }

  lemma BracketTurn24(s: string)
    requires BracketLine(s)
    ensures Fits(s, 24, "\"") && RunToken("\"") == Some(SimpleToken(Quote))
  {
    assert s[24..25] == "\"";
  }

  lemma BracketFrom24(s: string)
    requires BracketLine(s)
    ensures Follows(s, 24, BracketAt24)
  {
    BracketFrom25(s);
    BracketTurn24(s);
  }

  lemma BracketMatch24()
    ensures Matches(BracketAt24, BracketLexed, 12)
  {
    BracketMatch25();
  }

  lemma BracketTurn18(s: string)
    requires BracketLine(s)
    ensures Fits(s, 18, "worlds") && RunToken("worlds") == Some(LiteralToken("worlds"))
  {
    assert RunTo(s, 24, 24, Word);
    assert RunTo(s, 23, 24, Word);
    assert RunTo(s, 22, 24, Word);
    assert RunTo(s, 21, 24, Word);
    assert RunTo(s, 20, 24, Word);
    assert RunTo(s, 19, 24, Word);
    assert s[18..24] == "worlds";
  }

  lemma BracketFrom18(s: string)
    requires BracketLine(s)
    ensures Follows(s, 18, BracketAt18)
  {
    BracketFrom24(s);
    BracketTurn18(s);
  }

  lemma BracketMatch18()
    ensures Matches(BracketAt18, BracketLexed, 11)
  {
    BracketMatch24();
  }

  lemma BracketTurn17(s: string)
    requires BracketLine(s)
    ensures Fits(s, 17, "\"") && RunToken("\"") == Some(SimpleToken(Quote))
  {
    assert s[17..18] == "\"";
  }

  lemma BracketFrom17(s: string)
    requires BracketLine(s)
    ensures Follows(s, 17, BracketAt17)
  {
    BracketFrom18(s);
    BracketTurn17(s);
  }

  lemma BracketMatch17()
    ensures Matches(BracketAt17, BracketLexed, 10)
  {
    BracketMatch18();
  }

  lemma BracketTurn16(s: string)
    requires BracketLine(s)
    ensures Fits(s, 16, " ") && RunToken(" ") == None
  {
    assert s[16..17] == " ";
  }

  lemma BracketFrom16(s: string)
    requires BracketLine(s)
    ensures Follows(s, 16, BracketAt16)
  {
    BracketFrom17(s);
    BracketTurn16(s);
  }

  lemma BracketTurn15(s: string)
    requires BracketLine(s)
    ensures Fits(s, 15, ":") && RunToken(":") == Some(SimpleToken(Colon))
  {
    assert s[15..16] == ":";
  }

  lemma BracketFrom15(s: string)
    requires BracketLine(s)
    ensures Follows(s, 15, BracketAt15)
  {
    BracketFrom16(s);
    BracketTurn15(s);
  }

  lemma BracketMatch15()
    ensures Matches(BracketAt15, BracketLexed, 9)
  {
    BracketMatch17();
  }

  lemma BracketTurn14(s: string)
    requires BracketLine(s)
    ensures Fits(s, 14, "\"") && RunToken("\"") == Some(SimpleToken(Quote))
  {
    assert s[14..15] == "\"";
  }

  lemma BracketFrom14(s: string)
    requires BracketLine(s)
    ensures Follows(s, 14, BracketAt14)
  {
    BracketFrom15(s);
    BracketTurn14(s);
  }

  lemma BracketMatch14()
    ensures Matches(BracketAt14, BracketLexed, 8)
  {
    BracketMatch15();
  }

  lemma BracketTurn9(s: string)
    requires BracketLine(s)
    ensures Fits(s, 9, "hello") && RunToken("hello") == Some(LiteralToken("hello"))
  {
    assert RunTo(s, 14, 14, Word);
    assert RunTo(s, 13, 14, Word);
    assert RunTo(s, 12, 14, Word);
    assert RunTo(s, 11, 14, Word);
    assert RunTo(s, 10, 14, Word);
    assert s[9..14] == "hello";
  }

  lemma BracketFrom9(s: string)
    requires BracketLine(s)
    ensures Follows(s, 9, BracketAt9)
  {
    BracketFrom14(s);
    BracketTurn9(s);
  }

  lemma BracketMatch9()
    ensures Matches(BracketAt9, BracketLexed, 7)
  {
    BracketMatch14();
  }

  lemma BracketTurn8(s: string)
    requires BracketLine(s)
    ensures Fits(s, 8, "\"") && RunToken("\"") == Some(SimpleToken(Quote))
  {
    assert s[8..9] == "\"";
  }

  lemma BracketFrom8(s: string)
    requires BracketLine(s)
    ensures Follows(s, 8, BracketAt8)
  {
    BracketFrom9(s);
    BracketTurn8(s);
  }

  lemma BracketMatch8()
    ensures Matches(BracketAt8, BracketLexed, 6)
  {
    BracketMatch9();
  }

  lemma BracketTurn7(s: string)
    requires BracketLine(s)
    ensures Fits(s, 7, "{") && RunToken("{") == Some(SimpleToken(OpenBrace))
  {
    assert s[7..8] == "{";
  }

  lemma BracketFrom7(s: string)
    requires BracketLine(s)
    ensures Follows(s, 7, BracketAt7)
  {
    BracketFrom8(s);
    BracketTurn7(s);
  }

  lemma BracketMatch7()
    ensures Matches(BracketAt7, BracketLexed, 5)
  {
    BracketMatch8();
  }

  lemma BracketTurn6(s: string)
    requires BracketLine(s)
    ensures Fits(s, 6, " ") && RunToken(" ") == None
  {
    assert s[6..7] == " ";
  }

  lemma BracketFrom6(s: string)
    requires BracketLine(s)
    ensures Follows(s, 6, BracketAt6)
  {
    BracketFrom7(s);
    BracketTurn6(s);
  }

  lemma BracketTurn5(s: string)
    requires BracketLine(s)
    ensures Fits(s, 5, "]") && RunToken("]") == Some(SimpleToken(CloseBracet))
  {
    assert s[5..6] == "]";
  }

  lemma BracketFrom5(s: string)
    requires BracketLine(s)
    ensures Follows(s, 5, BracketAt5)
  {
    BracketFrom6(s);
    BracketTurn5(s);
  }

  lemma BracketMatch5()
    ensures Matches(BracketAt5, BracketLexed, 4)
  {
    BracketMatch7();
  }

  lemma BracketTurn4(s: string)
    requires BracketLine(s)
    ensures Fits(s, 4, "3") && RunToken("3") == Some(LiteralToken("3"))
  {
    assert RunTo(s, 5, 5, Number);
    assert s[4..5] == "3";
  }

  lemma BracketFrom4(s: string)
    requires BracketLine(s)
    ensures Follows(s, 4, BracketAt4)
  {
    BracketFrom5(s);
    BracketTurn4(s);
  }

  lemma BracketMatch4()
    ensures Matches(BracketAt4, BracketLexed, 3)
  {
    BracketMatch5();
  }

  lemma BracketTurn3(s: string)
    requires BracketLine(s)
    ensures Fits(s, 3, " ") && RunToken(" ") == None
  {
    assert s[3..4] == " ";
  }

  lemma BracketFrom3(s: string)
    requires BracketLine(s)
    ensures Follows(s, 3, BracketAt3)
  {
    BracketFrom4(s);
    BracketTurn3(s);
  }

  lemma BracketTurn2(s: string)
    requires BracketLine(s)
    ensures Fits(s, 2, ",") && RunToken(",") == Some(SimpleToken(Comma))
  {
    assert s[2..3] == ",";
  }

  lemma BracketFrom2(s: string)
    requires BracketLine(s)
    ensures Follows(s, 2, BracketAt2)
  {
    BracketFrom3(s);
    BracketTurn2(s);
  }

  lemma BracketMatch2()
    ensures Matches(BracketAt2, BracketLexed, 2)
  {
    BracketMatch4();
  }

  lemma BracketTurn1(s: string)
    requires BracketLine(s)
    ensures Fits(s, 1, "4") && RunToken("4") == Some(LiteralToken("4"))
  {
    assert RunTo(s, 2, 2, Number);
    assert s[1..2] == "4";
  }

  lemma BracketFrom1(s: string)
    requires BracketLine(s)
    ensures Follows(s, 1, BracketAt1)
  {
    BracketFrom2(s);
    BracketTurn1(s);
  }

  lemma BracketMatch1()
    ensures Matches(BracketAt1, BracketLexed, 1)
  {
    BracketMatch2();
  }

  lemma BracketTurn0(s: string)
    requires BracketLine(s)
    ensures Fits(s, 0, "[") && RunToken("[") == Some(SimpleToken(OpenBracket))
  {
    assert s[0..1] == "[";
  }

  lemma BracketFrom0(s: string)
    requires BracketLine(s)
    ensures Follows(s, 0, BracketAt0)
  {
    BracketFrom1(s);
    BracketTurn0(s);
  }

  lemma BracketMatch0()
    ensures Matches(BracketAt0, BracketLexed, 0)
  {
    BracketMatch1();
  }

  // ----- test_tokenizer_conditionals (src/tokenizer.rs:465-476) -----

  /** The characters of "if(x in y){}\nelse if(x not = 3){}\nelse{}\n". */
  predicate ConditionalsLine(s: string) {
    |s| == 41 && s[0] == 'i' && s[1] == 'f' && s[2] == '(' && s[3] == 'x' && s[4] == ' ' &&
    s[5] == 'i' && s[6] == 'n' && s[7] == ' ' && s[8] == 'y' && s[9] == ')' && s[10] == '{' &&
    s[11] == '}' && s[12] == '\n' && s[13] == 'e' && s[14] == 'l' && s[15] == 's' &&
    s[16] == 'e' && s[17] == ' ' && s[18] == 'i' && s[19] == 'f' && s[20] == '(' &&
    s[21] == 'x' && s[22] == ' ' && s[23] == 'n' && s[24] == 'o' && s[25] == 't' &&
    s[26] == ' ' && s[27] == '=' && s[28] == ' ' && s[29] == '3' && s[30] == ')' &&
    s[31] == '{' && s[32] == '}' && s[33] == '\n' && s[34] == 'e' && s[35] == 'l' &&
    s[36] == 's' && s[37] == 'e' && s[38] == '{' && s[39] == '}' && s[40] == '\n'
  }

  /** The runs of "if(x in y){}\nelse if(x not = 3){}\nelse{}\n". */
  const ConditionalsAt0 := Then("if", Some(SimpleToken(TokenType.If)), ConditionalsAt2)
  const ConditionalsAt2 := Then("(", Some(SimpleToken(OpenParen)), ConditionalsAt3)
  const ConditionalsAt3 := Then("x", Some(LiteralToken("x")), ConditionalsAt4)
  const ConditionalsAt4 := Then(" ", None, ConditionalsAt5)
  const ConditionalsAt5 := Then("in", Some(LiteralToken("in")), ConditionalsAt7)
  const ConditionalsAt7 := Then(" ", None, ConditionalsAt8)
  const ConditionalsAt8 := Then("y", Some(LiteralToken("y")), ConditionalsAt9)
  const ConditionalsAt9 := Then(")", Some(SimpleToken(CloseParen)), ConditionalsAt10)
  const ConditionalsAt10 := Then("{", Some(SimpleToken(OpenBrace)), ConditionalsAt11)
  const ConditionalsAt11 := Then("}", Some(SimpleToken(CloseBrace)), ConditionalsAt12)
  const ConditionalsAt12 := Then("\n", Some(SimpleToken(NewLine)), ConditionalsAt13)
  const ConditionalsAt13 := Then("else", Some(SimpleToken(TokenType.Else)), ConditionalsAt17)
  const ConditionalsAt17 := Then(" ", None, ConditionalsAt18)
  const ConditionalsAt18 := Then("if", Some(SimpleToken(TokenType.If)), ConditionalsAt20)
  const ConditionalsAt20 := Then("(", Some(SimpleToken(OpenParen)), ConditionalsAt21)
  const ConditionalsAt21 := Then("x", Some(LiteralToken("x")), ConditionalsAt22)
  const ConditionalsAt22 := Then(" ", None, ConditionalsAt23)
  const ConditionalsAt23 := Then("not", Some(SimpleToken(TokenType.Not)), ConditionalsAt26)
  const ConditionalsAt26 := Then(" ", None, ConditionalsAt27)
  const ConditionalsAt27 := Then("=", Some(SimpleToken(TokenType.Equals)), ConditionalsAt28)
  const ConditionalsAt28 := Then(" ", None, ConditionalsAt29)
  const ConditionalsAt29 := Then("3", Some(LiteralToken("3")), ConditionalsAt30)
  const ConditionalsAt30 := Then(")", Some(SimpleToken(CloseParen)), ConditionalsAt31)
  const ConditionalsAt31 := Then("{", Some(SimpleToken(OpenBrace)), ConditionalsAt32)
  const ConditionalsAt32 := Then("}", Some(SimpleToken(CloseBrace)), ConditionalsAt33)
  const ConditionalsAt33 := Then("\n", Some(SimpleToken(NewLine)), ConditionalsAt34)
  const ConditionalsAt34 := Then("else", Some(SimpleToken(TokenType.Else)), ConditionalsAt38)
  const ConditionalsAt38 := Then("{", Some(SimpleToken(OpenBrace)), ConditionalsAt39)
  const ConditionalsAt39 := Then("}", Some(SimpleToken(CloseBrace)), ConditionalsAt40)
  const ConditionalsAt40 := Then("\n", Some(SimpleToken(NewLine)), End)

  /** The tokens of "if(x in y){}\nelse if(x not = 3){}\nelse{}\n". */
  const ConditionalsLexed: seq<Token> :=
    [SimpleToken(TokenType.If), SimpleToken(OpenParen), LiteralToken("x"), LiteralToken("in")]
    + [LiteralToken("y"), SimpleToken(CloseParen), SimpleToken(OpenBrace), SimpleToken(CloseBrace)]
    + [SimpleToken(NewLine), SimpleToken(TokenType.Else), SimpleToken(TokenType.If), SimpleToken(OpenParen)]
    + [LiteralToken("x"), SimpleToken(TokenType.Not), SimpleToken(TokenType.Equals), LiteralToken("3")]
    + [SimpleToken(CloseParen), SimpleToken(OpenBrace), SimpleToken(CloseBrace), SimpleToken(NewLine)]
    + [SimpleToken(TokenType.Else), SimpleToken(OpenBrace), SimpleToken(CloseBrace), SimpleToken(NewLine)]

  /** The input of `test_tokenizer_conditionals` lexes to twenty-four tokens
      over its three lines: `if`, `else` and `not` as keywords, and `in` as a
      literal, since it ends in neither `is` nor `if`. */
  lemma ConditionalsTokens(s: string)
    requires ConditionalsLine(s)
    ensures IsAsciiText(s) && Lex(s) == Value(ConditionalsLexed)
  {
    ConditionalsFrom0(s);
    ConditionalsMatch0();
    LexLine(s, ConditionalsAt0, ConditionalsLexed);
  }

  lemma ConditionalsTurn40(s: string)
    requires ConditionalsLine(s)
    ensures Fits(s, 40, "\n") && RunToken("\n") == Some(SimpleToken(NewLine))
  {
    assert s[40..41] == "\n";
  }

  lemma ConditionalsFrom40(s: string)
    requires ConditionalsLine(s)
    ensures Follows(s, 40, ConditionalsAt40)
  {
    ConditionalsTurn40(s);
  }

  lemma ConditionalsMatch40()
    ensures Matches(ConditionalsAt40, ConditionalsLexed, 23)
  {
  }

  lemma ConditionalsTurn39(s: string)
    requires ConditionalsLine(s)
    ensures Fits(s, 39, "}") && RunToken("}") == Some(SimpleToken(CloseBrace))
  {
    assert s[39..40] == "}";
  }

  lemma ConditionalsFrom39(s: string)
    requires ConditionalsLine(s)
    ensures Follows(s, 39, ConditionalsAt39)
  {
    ConditionalsFrom40(s);
    ConditionalsTurn39(s);
  }

  lemma ConditionalsMatch39()
    ensures Matches(ConditionalsAt39, ConditionalsLexed, 22)
  {
    ConditionalsMatch40();
  }

  lemma ConditionalsTurn38(s: string)
    requires ConditionalsLine(s)
    ensures Fits(s, 38, "{") && RunToken("{") == Some(SimpleToken(OpenBrace))
  {
    assert s[38..39] == "{";
  }

  lemma ConditionalsFrom38(s: string)
    requires ConditionalsLine(s)
    ensures Follows(s, 38, ConditionalsAt38)
  {
    ConditionalsFrom39(s);
    ConditionalsTurn38(s);
  }

  lemma ConditionalsMatch38()
    ensures Matches(ConditionalsAt38, ConditionalsLexed, 21)
  {
    ConditionalsMatch39();
  }

  lemma ConditionalsSpan34(s: string)
    requires ConditionalsLine(s)
    ensures RunTo(s, 34, 38, Word) && s[34..38] == "else" && IsAsciiText("else")
  {
    assert RunTo(s, 38, 38, Word);
    assert RunTo(s, 37, 38, Word);
    assert RunTo(s, 36, 38, Word);
    assert RunTo(s, 35, 38, Word);
    assert s[34..38] == "else";
  }

  lemma ConditionalsTurn34(s: string)
    requires ConditionalsLine(s)
    ensures Fits(s, 34, "else") && RunToken("else") == Some(SimpleToken(TokenType.Else))
  {
    ConditionalsSpan34(s);
    SecondArmElse();
  }

  lemma ConditionalsFrom34(s: string)
    requires ConditionalsLine(s)
    ensures Follows(s, 34, ConditionalsAt34)
  {
    ConditionalsFrom38(s);
    ConditionalsTurn34(s);
  }

  lemma ConditionalsMatch34()
    ensures Matches(ConditionalsAt34, ConditionalsLexed, 20)
  {
    ConditionalsMatch38();
  }

  lemma ConditionalsTurn33(s: string)
    requires ConditionalsLine(s)
    ensures Fits(s, 33, "\n") && RunToken("\n") == Some(SimpleToken(NewLine))
  {
    assert s[33..34] == "\n";
  }

  lemma ConditionalsFrom33(s: string)
    requires ConditionalsLine(s)
    ensures Follows(s, 33, ConditionalsAt33)
  {
    ConditionalsFrom34(s);
    ConditionalsTurn33(s);
  }

  lemma ConditionalsMatch33()
    ensures Matches(ConditionalsAt33, ConditionalsLexed, 19)
  {
    ConditionalsMatch34();
  }

  lemma ConditionalsTurn32(s: string)
    requires ConditionalsLine(s)
    ensures Fits(s, 32, "}") && RunToken("}") == Some(SimpleToken(CloseBrace))
  {
    assert s[32..33] == "}";
  }

  lemma ConditionalsFrom32(s: string)
    requires ConditionalsLine(s)
    ensures Follows(s, 32, ConditionalsAt32)
  {
    ConditionalsFrom33(s);
    ConditionalsTurn32(s);
  }

  lemma ConditionalsMatch32()
    ensures Matches(ConditionalsAt32, ConditionalsLexed, 18)
  {
    ConditionalsMatch33();
  }

  lemma ConditionalsTurn31(s: string)
    requires ConditionalsLine(s)
    ensures Fits(s, 31, "{") && RunToken("{") == Some(SimpleToken(OpenBrace))
  {
    assert s[31..32] == "{";
  }

  lemma ConditionalsFrom31(s: string)
    requires ConditionalsLine(s)
    ensures Follows(s, 31, ConditionalsAt31)
  {
    ConditionalsFrom32(s);
    ConditionalsTurn31(s);
  }

  lemma ConditionalsMatch31()
    ensures Matches(ConditionalsAt31, ConditionalsLexed, 17)
  {
    ConditionalsMatch32();
  }

  lemma ConditionalsTurn30(s: string)
    requires ConditionalsLine(s)
    ensures Fits(s, 30, ")") && RunToken(")") == Some(SimpleToken(CloseParen))
  {
    assert s[30..31] == ")";
  }

  lemma ConditionalsFrom30(s: string)
    requires ConditionalsLine(s)
    ensures Follows(s, 30, ConditionalsAt30)
  {
    ConditionalsFrom31(s);
    ConditionalsTurn30(s);
  }

  lemma ConditionalsMatch30()
    ensures Matches(ConditionalsAt30, ConditionalsLexed, 16)
  {
    ConditionalsMatch31();
  }

  lemma ConditionalsTurn29(s: string)
    requires ConditionalsLine(s)
    ensures Fits(s, 29, "3") && RunToken("3") == Some(LiteralToken("3"))
  {
    assert RunTo(s, 30, 30, Number);
    assert s[29..30] == "3";
  }

  lemma ConditionalsFrom29(s: string)
    requires ConditionalsLine(s)
    ensures Follows(s, 29, ConditionalsAt29)
  {
    ConditionalsFrom30(s);
    ConditionalsTurn29(s);
  }

  lemma ConditionalsMatch29()
    ensures Matches(ConditionalsAt29, ConditionalsLexed, 15)
  {
    ConditionalsMatch30();
  }

  lemma ConditionalsTurn28(s: string)
    requires ConditionalsLine(s)
    ensures Fits(s, 28, " ") && RunToken(" ") == None
  {
    assert s[28..29] == " ";
  }

  lemma ConditionalsFrom28(s: string)
    requires ConditionalsLine(s)
    ensures Follows(s, 28, ConditionalsAt28)
  {
    ConditionalsFrom29(s);
    ConditionalsTurn28(s);
  }

  lemma ConditionalsTurn27(s: string)
    requires ConditionalsLine(s)
    ensures Fits(s, 27, "=") && RunToken("=") == Some(SimpleToken(TokenType.Equals))
  {
    assert s[27..28] == "=";
  }

  lemma ConditionalsFrom27(s: string)
    requires ConditionalsLine(s)
    ensures Follows(s, 27, ConditionalsAt27)
  {
    ConditionalsFrom28(s);
    ConditionalsTurn27(s);
  }

  lemma ConditionalsMatch27()
    ensures Matches(ConditionalsAt27, ConditionalsLexed, 14)
  {
    ConditionalsMatch29();
  }

  lemma ConditionalsTurn26(s: string)
    requires ConditionalsLine(s)
    ensures Fits(s, 26, " ") && RunToken(" ") == None
  {
    assert s[26..27] == " ";
  }

  lemma ConditionalsFrom26(s: string)
    requires ConditionalsLine(s)
    ensures Follows(s, 26, ConditionalsAt26)
  {
    ConditionalsFrom27(s);
    ConditionalsTurn26(s);
  }

  lemma ConditionalsTurn23(s: string)
    requires ConditionalsLine(s)
    ensures Fits(s, 23, "not") && RunToken("not") == Some(SimpleToken(TokenType.Not))
  {
    assert RunTo(s, 26, 26, Word);
    assert RunTo(s, 25, 26, Word);
    assert RunTo(s, 24, 26, Word);
    assert s[23..26] == "not";
  }

  lemma ConditionalsFrom23(s: string)
    requires ConditionalsLine(s)
    ensures Follows(s, 23, ConditionalsAt23)
  {
    ConditionalsFrom26(s);
    ConditionalsTurn23(s);
  }

  lemma ConditionalsMatch23()
    ensures Matches(ConditionalsAt23, ConditionalsLexed, 13)
  {
    ConditionalsMatch27();
  }

  lemma ConditionalsTurn22(s: string)
    requires ConditionalsLine(s)
    ensures Fits(s, 22, " ") && RunToken(" ") == None
  {
    assert s[22..23] == " ";
  }

  lemma ConditionalsFrom22(s: string)
    requires ConditionalsLine(s)
    ensures Follows(s, 22, ConditionalsAt22)
  {
    ConditionalsFrom23(s);
    ConditionalsTurn22(s);
  }

  lemma ConditionalsTurn21(s: string)
    requires ConditionalsLine(s)
    ensures Fits(s, 21, "x") && RunToken("x") == Some(LiteralToken("x"))
  {
    assert RunTo(s, 22, 22, Word);
    assert s[21..22] == "x";
  }

  lemma ConditionalsFrom21(s: string)
    requires ConditionalsLine(s)
    ensures Follows(s, 21, ConditionalsAt21)
  {
    ConditionalsFrom22(s);
    ConditionalsTurn21(s);
  }

  lemma ConditionalsMatch21()
    ensures Matches(ConditionalsAt21, ConditionalsLexed, 12)
  {
    ConditionalsMatch23();
  }

  lemma ConditionalsTurn20(s: string)
    requires ConditionalsLine(s)
    ensures Fits(s, 20, "(") && RunToken("(") == Some(SimpleToken(OpenParen))
  {
    assert s[20..21] == "(";
  }

  lemma ConditionalsFrom20(s: string)
    requires ConditionalsLine(s)
    ensures Follows(s, 20, ConditionalsAt20)
  {
    ConditionalsFrom21(s);
    ConditionalsTurn20(s);
  }

  lemma ConditionalsMatch20()
    ensures Matches(ConditionalsAt20, ConditionalsLexed, 11)
  {
    ConditionalsMatch21();
  }

  lemma ConditionalsSpan18(s: string)
    requires ConditionalsLine(s)
    ensures RunTo(s, 18, 20, Word) && s[18..20] == "if" && IsAsciiText("if")
  {
    assert RunTo(s, 20, 20, Word);
    assert RunTo(s, 19, 20, Word);
    assert s[18..20] == "if";
  }

  lemma ConditionalsTurn18(s: string)
    requires ConditionalsLine(s)
    ensures Fits(s, 18, "if") && RunToken("if") == Some(SimpleToken(TokenType.If))
  {
    ConditionalsSpan18(s);
    SecondArmIf();
  }

  lemma ConditionalsFrom18(s: string)
    requires ConditionalsLine(s)
    ensures Follows(s, 18, ConditionalsAt18)
  {
    ConditionalsFrom20(s);
    ConditionalsTurn18(s);
  }

  lemma ConditionalsMatch18()
    ensures Matches(ConditionalsAt18, ConditionalsLexed, 10)
  {
    ConditionalsMatch20();
  }

  lemma ConditionalsTurn17(s: string)
    requires ConditionalsLine(s)
    ensures Fits(s, 17, " ") && RunToken(" ") == None
  {
    assert s[17..18] == " ";
  }

  lemma ConditionalsFrom17(s: string)
    requires ConditionalsLine(s)
    ensures Follows(s, 17, ConditionalsAt17)
  {
    ConditionalsFrom18(s);
    ConditionalsTurn17(s);
  }

  lemma ConditionalsSpan13(s: string)
    requires ConditionalsLine(s)
    ensures RunTo(s, 13, 17, Word) && s[13..17] == "else" && IsAsciiText("else")
  {
    assert RunTo(s, 17, 17, Word);
    assert RunTo(s, 16, 17, Word);
    assert RunTo(s, 15, 17, Word);
    assert RunTo(s, 14, 17, Word);
    assert s[13..17] == "else";
  }

  lemma ConditionalsTurn13(s: string)
    requires ConditionalsLine(s)
    ensures Fits(s, 13, "else") && RunToken("else") == Some(SimpleToken(TokenType.Else))
  {
    ConditionalsSpan13(s);
    SecondArmElse();
  }

  lemma ConditionalsFrom13(s: string)
    requires ConditionalsLine(s)
    ensures Follows(s, 13, ConditionalsAt13)
  {
    ConditionalsFrom17(s);
    ConditionalsTurn13(s);
  }

  lemma ConditionalsMatch13()
    ensures Matches(ConditionalsAt13, ConditionalsLexed, 9)
  {
    ConditionalsMatch18();
  }

  lemma ConditionalsTurn12(s: string)
    requires ConditionalsLine(s)
    ensures Fits(s, 12, "\n") && RunToken("\n") == Some(SimpleToken(NewLine))
  {
    assert s[12..13] == "\n";
  }

  lemma ConditionalsFrom12(s: string)
    requires ConditionalsLine(s)
    ensures Follows(s, 12, ConditionalsAt12)
  {
    ConditionalsFrom13(s);
    ConditionalsTurn12(s);
  }

  lemma ConditionalsMatch12()
    ensures Matches(ConditionalsAt12, ConditionalsLexed, 8)
  {
    ConditionalsMatch13();
  }

  lemma ConditionalsTurn11(s: string)
    requires ConditionalsLine(s)
    ensures Fits(s, 11, "}") && RunToken("}") == Some(SimpleToken(CloseBrace))
  {
    assert s[11..12] == "}";
  }

  lemma ConditionalsFrom11(s: string)
    requires ConditionalsLine(s)
    ensures Follows(s, 11, ConditionalsAt11)
  {
    ConditionalsFrom12(s);
    ConditionalsTurn11(s);
  }

  lemma ConditionalsMatch11()
    ensures Matches(ConditionalsAt11, ConditionalsLexed, 7)
  {
    ConditionalsMatch12();
  }

  lemma ConditionalsTurn10(s: string)
    requires ConditionalsLine(s)
    ensures Fits(s, 10, "{") && RunToken("{") == Some(SimpleToken(OpenBrace))
  {
    assert s[10..11] == "{";
  }

  lemma ConditionalsFrom10(s: string)
    requires ConditionalsLine(s)
    ensures Follows(s, 10, ConditionalsAt10)
  {
    ConditionalsFrom11(s);
    ConditionalsTurn10(s);
  }

  lemma ConditionalsMatch10()
    ensures Matches(ConditionalsAt10, ConditionalsLexed, 6)
  {
    ConditionalsMatch11();
  }

  lemma ConditionalsTurn9(s: string)
    requires ConditionalsLine(s)
    ensures Fits(s, 9, ")") && RunToken(")") == Some(SimpleToken(CloseParen))
  {
    assert s[9..10] == ")";
  }

  lemma ConditionalsFrom9(s: string)
    requires ConditionalsLine(s)
    ensures Follows(s, 9, ConditionalsAt9)
  {
    ConditionalsFrom10(s);
    ConditionalsTurn9(s);
  }

  lemma ConditionalsMatch9()
    ensures Matches(ConditionalsAt9, ConditionalsLexed, 5)
  {
    ConditionalsMatch10();
  }

  lemma ConditionalsTurn8(s: string)
    requires ConditionalsLine(s)
    ensures Fits(s, 8, "y") && RunToken("y") == Some(LiteralToken("y"))
  {
    assert RunTo(s, 9, 9, Word);
    assert s[8..9] == "y";
  }

  lemma ConditionalsFrom8(s: string)
    requires ConditionalsLine(s)
    ensures Follows(s, 8, ConditionalsAt8)
  {
    ConditionalsFrom9(s);
    ConditionalsTurn8(s);
  }

  lemma ConditionalsMatch8()
    ensures Matches(ConditionalsAt8, ConditionalsLexed, 4)
  {
    ConditionalsMatch9();
  }

  lemma ConditionalsTurn7(s: string)
    requires ConditionalsLine(s)
    ensures Fits(s, 7, " ") && RunToken(" ") == None
  {
    assert s[7..8] == " ";
  }

  lemma ConditionalsFrom7(s: string)
    requires ConditionalsLine(s)
    ensures Follows(s, 7, ConditionalsAt7)
  {
    ConditionalsFrom8(s);
    ConditionalsTurn7(s);
  }

  lemma ConditionalsTurn5(s: string)
    requires ConditionalsLine(s)
    ensures Fits(s, 5, "in") && RunToken("in") == Some(LiteralToken("in"))
  {
    assert RunTo(s, 7, 7, Word);
    assert RunTo(s, 6, 7, Word);
    assert s[5..7] == "in";
  }

  lemma ConditionalsFrom5(s: string)
    requires ConditionalsLine(s)
    ensures Follows(s, 5, ConditionalsAt5)
  {
    ConditionalsFrom7(s);
    ConditionalsTurn5(s);
  }

  lemma ConditionalsMatch5()
    ensures Matches(ConditionalsAt5, ConditionalsLexed, 3)
  {
    ConditionalsMatch8();
  }

  lemma ConditionalsTurn4(s: string)
    requires ConditionalsLine(s)
    ensures Fits(s, 4, " ") && RunToken(" ") == None
  {
    assert s[4..5] == " ";
  }

  lemma ConditionalsFrom4(s: string)
    requires ConditionalsLine(s)
    ensures Follows(s, 4, ConditionalsAt4)
  {
    ConditionalsFrom5(s);
    ConditionalsTurn4(s);
  }

  lemma ConditionalsTurn3(s: string)
    requires ConditionalsLine(s)
    ensures Fits(s, 3, "x") && RunToken("x") == Some(LiteralToken("x"))
  {
    assert RunTo(s, 4, 4, Word);
    assert s[3..4] == "x";
  }

  lemma ConditionalsFrom3(s: string)
    requires ConditionalsLine(s)
    ensures Follows(s, 3, ConditionalsAt3)
  {
    ConditionalsFrom4(s);
    ConditionalsTurn3(s);
  }

  lemma ConditionalsMatch3()
    ensures Matches(ConditionalsAt3, ConditionalsLexed, 2)
  {
    ConditionalsMatch5();
  }

  lemma ConditionalsTurn2(s: string)
    requires ConditionalsLine(s)
    ensures Fits(s, 2, "(") && RunToken("(") == Some(SimpleToken(OpenParen))
  {
    assert s[2..3] == "(";
  }

  lemma ConditionalsFrom2(s: string)
    requires ConditionalsLine(s)
    ensures Follows(s, 2, ConditionalsAt2)
  {
    ConditionalsFrom3(s);
    ConditionalsTurn2(s);
  }

  lemma ConditionalsMatch2()
    ensures Matches(ConditionalsAt2, ConditionalsLexed, 1)
  {
    ConditionalsMatch3();
  }

  lemma ConditionalsSpan0(s: string)
    requires ConditionalsLine(s)
    ensures RunTo(s, 0, 2, Word) && s[0..2] == "if" && IsAsciiText("if")
  {
    assert RunTo(s, 2, 2, Word);
    assert RunTo(s, 1, 2, Word);
    assert s[0..2] == "if";
  }

  lemma ConditionalsTurn0(s: string)
    requires ConditionalsLine(s)
    ensures Fits(s, 0, "if") && RunToken("if") == Some(SimpleToken(TokenType.If))
  {
    ConditionalsSpan0(s);
    SecondArmIf();
  }

  lemma ConditionalsFrom0(s: string)
    requires ConditionalsLine(s)
    ensures Follows(s, 0, ConditionalsAt0)
  {
    ConditionalsFrom2(s);
    ConditionalsTurn0(s);
  }

  lemma ConditionalsMatch0()
    ensures Matches(ConditionalsAt0, ConditionalsLexed, 0)
  {
    ConditionalsMatch2();
  }

  // ----- test_tokenizer_loops (src/tokenizer.rs:478-489) -----

  /** The characters of "for each(var x in y) {} loop while (x not = 3)\n". */
  predicate LoopsLine(s: string) {
    |s| == 47 && s[0] == 'f' && s[1] == 'o' && s[2] == 'r' && s[3] == ' ' && s[4] == 'e' &&
    s[5] == 'a' && s[6] == 'c' && s[7] == 'h' && s[8] == '(' && s[9] == 'v' && s[10] == 'a' &&
    s[11] == 'r' && s[12] == ' ' && s[13] == 'x' && s[14] == ' ' && s[15] == 'i' &&
    s[16] == 'n' && s[17] == ' ' && s[18] == 'y' && s[19] == ')' && s[20] == ' ' &&
    s[21] == '{' && s[22] == '}' && s[23] == ' ' && s[24] == 'l' && s[25] == 'o' &&
    s[26] == 'o' && s[27] == 'p' && s[28] == ' ' && s[29] == 'w' && s[30] == 'h' &&
    s[31] == 'i' && s[32] == 'l' && s[33] == 'e' && s[34] == ' ' && s[35] == '(' &&
    s[36] == 'x' && s[37] == ' ' && s[38] == 'n' && s[39] == 'o' && s[40] == 't' &&
    s[41] == ' ' && s[42] == '=' && s[43] == ' ' && s[44] == '3' && s[45] == ')' &&
    s[46] == '\n'
  }

  /** The runs of "for each(var x in y) {} loop while (x not = 3)\n". */
  const LoopsAt0 := Then("for", Some(SimpleToken(TokenType.For)), LoopsAt3)
  const LoopsAt3 := Then(" ", None, LoopsAt4)
  const LoopsAt4 := Then("each", Some(SimpleToken(TokenType.Each)), LoopsAt8)
  const LoopsAt8 := Then("(", Some(SimpleToken(OpenParen)), LoopsAt9)
  const LoopsAt9 := Then("var", Some(SimpleToken(TokenType.Assign)), LoopsAt12)
  const LoopsAt12 := Then(" ", None, LoopsAt13)
  const LoopsAt13 := Then("x", Some(LiteralToken("x")), LoopsAt14)
  const LoopsAt14 := Then(" ", None, LoopsAt15)
  const LoopsAt15 := Then("in", Some(LiteralToken("in")), LoopsAt17)
  const LoopsAt17 := Then(" ", None, LoopsAt18)
  const LoopsAt18 := Then("y", Some(LiteralToken("y")), LoopsAt19)
  const LoopsAt19 := Then(")", Some(SimpleToken(CloseParen)), LoopsAt20)
  const LoopsAt20 := Then(" ", None, LoopsAt21)
  const LoopsAt21 := Then("{", Some(SimpleToken(OpenBrace)), LoopsAt22)
  const LoopsAt22 := Then("}", Some(SimpleToken(CloseBrace)), LoopsAt23)
  const LoopsAt23 := Then(" ", None, LoopsAt24)
  const LoopsAt24 := Then("loop", Some(SimpleToken(TokenType.Loop)), LoopsAt28)
  const LoopsAt28 := Then(" ", None, LoopsAt29)
  const LoopsAt29 := Then("while", Some(SimpleToken(TokenType.While)), LoopsAt34)
  const LoopsAt34 := Then(" ", None, LoopsAt35)
  const LoopsAt35 := Then("(", Some(SimpleToken(OpenParen)), LoopsAt36)
  const LoopsAt36 := Then("x", Some(LiteralToken("x")), LoopsAt37)
  const LoopsAt37 := Then(" ", None, LoopsAt38)
  const LoopsAt38 := Then("not", Some(SimpleToken(TokenType.Not)), LoopsAt41)
  const LoopsAt41 := Then(" ", None, LoopsAt42)
  const LoopsAt42 := Then("=", Some(SimpleToken(TokenType.Equals)), LoopsAt43)
  const LoopsAt43 := Then(" ", None, LoopsAt44)
  const LoopsAt44 := Then("3", Some(LiteralToken("3")), LoopsAt45)
  const LoopsAt45 := Then(")", Some(SimpleToken(CloseParen)), LoopsAt46)
  const LoopsAt46 := Then("\n", Some(SimpleToken(NewLine)), End)

  /** The tokens of "for each(var x in y) {} loop while (x not = 3)\n". */
  const LoopsLexed: seq<Token> :=
    [SimpleToken(TokenType.For), SimpleToken(TokenType.Each), SimpleToken(OpenParen), SimpleToken(TokenType.Assign)]
    + [LiteralToken("x"), LiteralToken("in"), LiteralToken("y"), SimpleToken(CloseParen)]
    + [SimpleToken(OpenBrace), SimpleToken(CloseBrace), SimpleToken(TokenType.Loop), SimpleToken(TokenType.While)]
    + [SimpleToken(OpenParen), LiteralToken("x"), SimpleToken(TokenType.Not), SimpleToken(TokenType.Equals)]
    + [LiteralToken("3"), SimpleToken(CloseParen), SimpleToken(NewLine)]

  /** The input of `test_tokenizer_loops` lexes to nineteen tokens, with
      `for`, `each`, `var`, `loop`, `while` and `not` as keywords. */
  lemma LoopsTokens(s: string)
    requires LoopsLine(s)
    ensures IsAsciiText(s) && Lex(s) == Value(LoopsLexed)
  {
    LoopsFrom0(s);
    LoopsMatch0();
    LexLine(s, LoopsAt0, LoopsLexed);
  }

  lemma LoopsTurn46(s: string)
    requires LoopsLine(s)
    ensures Fits(s, 46, "\n") && RunToken("\n") == Some(SimpleToken(NewLine))
  {
    assert s[46..47] == "\n";
  }

  lemma LoopsFrom46(s: string)
    requires LoopsLine(s)
    ensures Follows(s, 46, LoopsAt46)
  {
    LoopsTurn46(s);
  }

  lemma LoopsMatch46()
    ensures Matches(LoopsAt46, LoopsLexed, 18)
  {
  }

  lemma LoopsTurn45(s: string)
    requires LoopsLine(s)
    ensures Fits(s, 45, ")") && RunToken(")") == Some(SimpleToken(CloseParen))
  {
    assert s[45..46] == ")";
  }

  lemma LoopsFrom45(s: string)
    requires LoopsLine(s)
    ensures Follows(s, 45, LoopsAt45)
  {
    LoopsFrom46(s);
    LoopsTurn45(s);
  }

  lemma LoopsMatch45()
    ensures Matches(LoopsAt45, LoopsLexed, 17)
  {
    LoopsMatch46();
  }

  lemma LoopsTurn44(s: string)
    requires LoopsLine(s)
    ensures Fits(s, 44, "3") && RunToken("3") == Some(LiteralToken("3"))
  {
    assert RunTo(s, 45, 45, Number);
    assert s[44..45] == "3";
  }

  lemma LoopsFrom44(s: string)
    requires LoopsLine(s)
    ensures Follows(s, 44, LoopsAt44)
  {
    LoopsFrom45(s);
    LoopsTurn44(s);
  }

  lemma LoopsMatch44()
    ensures Matches(LoopsAt44, LoopsLexed, 16)
  {
    LoopsMatch45();
  }

  lemma LoopsTurn43(s: string)
    requires LoopsLine(s)
    ensures Fits(s, 43, " ") && RunToken(" ") == None
  {
    assert s[43..44] == " ";
  }

  lemma LoopsFrom43(s: string)
    requires LoopsLine(s)
    ensures Follows(s, 43, LoopsAt43)
  {
    LoopsFrom44(s);
    LoopsTurn43(s);
  }

  lemma LoopsTurn42(s: string)
    requires LoopsLine(s)
    ensures Fits(s, 42, "=") && RunToken("=") == Some(SimpleToken(TokenType.Equals))
  {
    assert s[42..43] == "=";
  }

  lemma LoopsFrom42(s: string)
    requires LoopsLine(s)
    ensures Follows(s, 42, LoopsAt42)
  {
    LoopsFrom43(s);
    LoopsTurn42(s);
  }

  lemma LoopsMatch42()
    ensures Matches(LoopsAt42, LoopsLexed, 15)
  {
    LoopsMatch44();
  }

  lemma LoopsTurn41(s: string)
    requires LoopsLine(s)
    ensures Fits(s, 41, " ") && RunToken(" ") == None
  {
    assert s[41..42] == " ";
  }

  lemma LoopsFrom41(s: string)
    requires LoopsLine(s)
    ensures Follows(s, 41, LoopsAt41)
  {
    LoopsFrom42(s);
    LoopsTurn41(s);
  }

  lemma LoopsTurn38(s: string)
    requires LoopsLine(s)
    ensures Fits(s, 38, "not") && RunToken("not") == Some(SimpleToken(TokenType.Not))
  {
    assert RunTo(s, 41, 41, Word);
    assert RunTo(s, 40, 41, Word);
    assert RunTo(s, 39, 41, Word);
    assert s[38..41] == "not";
  }

  lemma LoopsFrom38(s: string)
    requires LoopsLine(s)
    ensures Follows(s, 38, LoopsAt38)
  {
    LoopsFrom41(s);
    LoopsTurn38(s);
  }

  lemma LoopsMatch38()
    ensures Matches(LoopsAt38, LoopsLexed, 14)
  {
    LoopsMatch42();
  }

  lemma LoopsTurn37(s: string)
    requires LoopsLine(s)
    ensures Fits(s, 37, " ") && RunToken(" ") == None
  {
    assert s[37..38] == " ";
  }

  lemma LoopsFrom37(s: string)
    requires LoopsLine(s)
    ensures Follows(s, 37, LoopsAt37)
  {
    LoopsFrom38(s);
    LoopsTurn37(s);
  }

  lemma LoopsTurn36(s: string)
    requires LoopsLine(s)
    ensures Fits(s, 36, "x") && RunToken("x") == Some(LiteralToken("x"))
  {
    assert RunTo(s, 37, 37, Word);
    assert s[36..37] == "x";
  }

  lemma LoopsFrom36(s: string)
    requires LoopsLine(s)
    ensures Follows(s, 36, LoopsAt36)
  {
    LoopsFrom37(s);
    LoopsTurn36(s);
  }

  lemma LoopsMatch36()
    ensures Matches(LoopsAt36, LoopsLexed, 13)
  {
    LoopsMatch38();
  }

  lemma LoopsTurn35(s: string)
    requires LoopsLine(s)
    ensures Fits(s, 35, "(") && RunToken("(") == Some(SimpleToken(OpenParen))
  {
    assert s[35..36] == "(";
  }

  lemma LoopsFrom35(s: string)
    requires LoopsLine(s)
    ensures Follows(s, 35, LoopsAt35)
  {
    LoopsFrom36(s);
    LoopsTurn35(s);
  }

  lemma LoopsMatch35()
    ensures Matches(LoopsAt35, LoopsLexed, 12)
  {
    LoopsMatch36();
  }

  lemma LoopsTurn34(s: string)
    requires LoopsLine(s)
    ensures Fits(s, 34, " ") && RunToken(" ") == None
  {
    assert s[34..35] == " ";
  }

  lemma LoopsFrom34(s: string)
    requires LoopsLine(s)
    ensures Follows(s, 34, LoopsAt34)
  {
    LoopsFrom35(s);
    LoopsTurn34(s);
  }

  lemma LoopsTurn29(s: string)
    requires LoopsLine(s)
    ensures Fits(s, 29, "while") && RunToken("while") == Some(SimpleToken(TokenType.While))
  {
    assert RunTo(s, 34, 34, Word);
    assert RunTo(s, 33, 34, Word);
    assert RunTo(s, 32, 34, Word);
    assert RunTo(s, 31, 34, Word);
    assert RunTo(s, 30, 34, Word);
    assert s[29..34] == "while";
  }

  lemma LoopsFrom29(s: string)
    requires LoopsLine(s)
    ensures Follows(s, 29, LoopsAt29)
  {
    LoopsFrom34(s);
    LoopsTurn29(s);
  }

  lemma LoopsMatch29()
    ensures Matches(LoopsAt29, LoopsLexed, 11)
  {
    LoopsMatch35();
  }

  lemma LoopsTurn28(s: string)
    requires LoopsLine(s)
    ensures Fits(s, 28, " ") && RunToken(" ") == None
  {
    assert s[28..29] == " ";
  }

  lemma LoopsFrom28(s: string)
    requires LoopsLine(s)
    ensures Follows(s, 28, LoopsAt28)
  {
    LoopsFrom29(s);
    LoopsTurn28(s);
  }

  lemma LoopsTurn24(s: string)
    requires LoopsLine(s)
    ensures Fits(s, 24, "loop") && RunToken("loop") == Some(SimpleToken(TokenType.Loop))
  {
    assert RunTo(s, 28, 28, Word);
    assert RunTo(s, 27, 28, Word);
    assert RunTo(s, 26, 28, Word);
    assert RunTo(s, 25, 28, Word);
    assert s[24..28] == "loop";
  }

  lemma LoopsFrom24(s: string)
    requires LoopsLine(s)
    ensures Follows(s, 24, LoopsAt24)
  {
    LoopsFrom28(s);
    LoopsTurn24(s);
  }

  lemma LoopsMatch24()
    ensures Matches(LoopsAt24, LoopsLexed, 10)
  {
    LoopsMatch29();
  }

  lemma LoopsTurn23(s: string)
    requires LoopsLine(s)
    ensures Fits(s, 23, " ") && RunToken(" ") == None
  {
    assert s[23..24] == " ";
  }

  lemma LoopsFrom23(s: string)
    requires LoopsLine(s)
    ensures Follows(s, 23, LoopsAt23)
  {
    LoopsFrom24(s);
    LoopsTurn23(s);
  }

  lemma LoopsTurn22(s: string)
    requires LoopsLine(s)
    ensures Fits(s, 22, "}") && RunToken("}") == Some(SimpleToken(CloseBrace))
  {
    assert s[22..23] == "}";
  }

  lemma LoopsFrom22(s: string)
    requires LoopsLine(s)
    ensures Follows(s, 22, LoopsAt22)
  {
    LoopsFrom23(s);
    LoopsTurn22(s);
  }

  lemma LoopsMatch22()
    ensures Matches(LoopsAt22, LoopsLexed, 9)
  {
    LoopsMatch24();
  }

  lemma LoopsTurn21(s: string)
    requires LoopsLine(s)
    ensures Fits(s, 21, "{") && RunToken("{") == Some(SimpleToken(OpenBrace))
  {
    assert s[21..22] == "{";
  }

  lemma LoopsFrom21(s: string)
    requires LoopsLine(s)
    ensures Follows(s, 21, LoopsAt21)
  {
    LoopsFrom22(s);
    LoopsTurn21(s);
  }

  lemma LoopsMatch21()
    ensures Matches(LoopsAt21, LoopsLexed, 8)
  {
    LoopsMatch22();
  }

  lemma LoopsTurn20(s: string)
    requires LoopsLine(s)
    ensures Fits(s, 20, " ") && RunToken(" ") == None
  {
    assert s[20..21] == " ";
  }

  lemma LoopsFrom20(s: string)
    requires LoopsLine(s)
    ensures Follows(s, 20, LoopsAt20)
  {
    LoopsFrom21(s);
    LoopsTurn20(s);
  }

  lemma LoopsTurn19(s: string)
    requires LoopsLine(s)
    ensures Fits(s, 19, ")") && RunToken(")") == Some(SimpleToken(CloseParen))
  {
    assert s[19..20] == ")";
  }

  lemma LoopsFrom19(s: string)
    requires LoopsLine(s)
    ensures Follows(s, 19, LoopsAt19)
  {
    LoopsFrom20(s);
    LoopsTurn19(s);
  }

  lemma LoopsMatch19()
    ensures Matches(LoopsAt19, LoopsLexed, 7)
  {
    LoopsMatch21();
  }

  lemma LoopsTurn18(s: string)
    requires LoopsLine(s)
    ensures Fits(s, 18, "y") && RunToken("y") == Some(LiteralToken("y"))
  {
    assert RunTo(s, 19, 19, Word);
    assert s[18..19] == "y";
  }

  lemma LoopsFrom18(s: string)
    requires LoopsLine(s)
    ensures Follows(s, 18, LoopsAt18)
  {
    LoopsFrom19(s);
    LoopsTurn18(s);
  }

  lemma LoopsMatch18()
    ensures Matches(LoopsAt18, LoopsLexed, 6)
  {
    LoopsMatch19();
  }

  lemma LoopsTurn17(s: string)
    requires LoopsLine(s)
    ensures Fits(s, 17, " ") && RunToken(" ") == None
  {
    assert s[17..18] == " ";
  }

  lemma LoopsFrom17(s: string)
    requires LoopsLine(s)
    ensures Follows(s, 17, LoopsAt17)
  {
    LoopsFrom18(s);
    LoopsTurn17(s);
  }

  lemma LoopsTurn15(s: string)
    requires LoopsLine(s)
    ensures Fits(s, 15, "in") && RunToken("in") == Some(LiteralToken("in"))
  {
    assert RunTo(s, 17, 17, Word);
    assert RunTo(s, 16, 17, Word);
    assert s[15..17] == "in";
  }

  lemma LoopsFrom15(s: string)
    requires LoopsLine(s)
    ensures Follows(s, 15, LoopsAt15)
  {
    LoopsFrom17(s);
    LoopsTurn15(s);
  }

  lemma LoopsMatch15()
    ensures Matches(LoopsAt15, LoopsLexed, 5)
  {
    LoopsMatch18();
  }

  lemma LoopsTurn14(s: string)
    requires LoopsLine(s)
    ensures Fits(s, 14, " ") && RunToken(" ") == None
  {
    assert s[14..15] == " ";
  }

  lemma LoopsFrom14(s: string)
    requires LoopsLine(s)
    ensures Follows(s, 14, LoopsAt14)
  {
    LoopsFrom15(s);
    LoopsTurn14(s);
  }

  lemma LoopsTurn13(s: string)
    requires LoopsLine(s)
    ensures Fits(s, 13, "x") && RunToken("x") == Some(LiteralToken("x"))
  {
    assert RunTo(s, 14, 14, Word);
    assert s[13..14] == "x";
  }

  lemma LoopsFrom13(s: string)
    requires LoopsLine(s)
    ensures Follows(s, 13, LoopsAt13)
  {
    LoopsFrom14(s);
    LoopsTurn13(s);
  }

  lemma LoopsMatch13()
    ensures Matches(LoopsAt13, LoopsLexed, 4)
  {
    LoopsMatch15();
  }

  lemma LoopsTurn12(s: string)
    requires LoopsLine(s)
    ensures Fits(s, 12, " ") && RunToken(" ") == None
  {
    assert s[12..13] == " ";
  }

  lemma LoopsFrom12(s: string)
    requires LoopsLine(s)
    ensures Follows(s, 12, LoopsAt12)
  {
    LoopsFrom13(s);
    LoopsTurn12(s);
  }

  lemma LoopsTurn9(s: string)
    requires LoopsLine(s)
    ensures Fits(s, 9, "var") && RunToken("var") == Some(SimpleToken(TokenType.Assign))
  {
    assert RunTo(s, 12, 12, Word);
    assert RunTo(s, 11, 12, Word);
    assert RunTo(s, 10, 12, Word);
    assert s[9..12] == "var";
  }

  lemma LoopsFrom9(s: string)
    requires LoopsLine(s)
    ensures Follows(s, 9, LoopsAt9)
  {
    LoopsFrom12(s);
    LoopsTurn9(s);
  }

  lemma LoopsMatch9()
    ensures Matches(LoopsAt9, LoopsLexed, 3)
  {
    LoopsMatch13();
  }

  lemma LoopsTurn8(s: string)
    requires LoopsLine(s)
    ensures Fits(s, 8, "(") && RunToken("(") == Some(SimpleToken(OpenParen))
  {
    assert s[8..9] == "(";
  }

  lemma LoopsFrom8(s: string)
    requires LoopsLine(s)
    ensures Follows(s, 8, LoopsAt8)
  {
    LoopsFrom9(s);
    LoopsTurn8(s);
  }

  lemma LoopsMatch8()
    ensures Matches(LoopsAt8, LoopsLexed, 2)
  {
    LoopsMatch9();
  }

  lemma LoopsTurn4(s: string)
    requires LoopsLine(s)
    ensures Fits(s, 4, "each") && RunToken("each") == Some(SimpleToken(TokenType.Each))
  {
    assert RunTo(s, 8, 8, Word);
    assert RunTo(s, 7, 8, Word);
    assert RunTo(s, 6, 8, Word);
    assert RunTo(s, 5, 8, Word);
    assert s[4..8] == "each";
  }

  lemma LoopsFrom4(s: string)
    requires LoopsLine(s)
    ensures Follows(s, 4, LoopsAt4)
  {
    LoopsFrom8(s);
    LoopsTurn4(s);
  }

  lemma LoopsMatch4()
    ensures Matches(LoopsAt4, LoopsLexed, 1)
  {
    LoopsMatch8();
  }

  lemma LoopsTurn3(s: string)
    requires LoopsLine(s)
    ensures Fits(s, 3, " ") && RunToken(" ") == None
  {
    assert s[3..4] == " ";
  }

  lemma LoopsFrom3(s: string)
    requires LoopsLine(s)
    ensures Follows(s, 3, LoopsAt3)
  {
    LoopsFrom4(s);
    LoopsTurn3(s);
  }

  lemma LoopsTurn0(s: string)
    requires LoopsLine(s)
    ensures Fits(s, 0, "for") && RunToken("for") == Some(SimpleToken(TokenType.For))
  {
    assert RunTo(s, 3, 3, Word);
    assert RunTo(s, 2, 3, Word);
    assert RunTo(s, 1, 3, Word);
    assert s[0..3] == "for";
  }

  lemma LoopsFrom0(s: string)
    requires LoopsLine(s)
    ensures Follows(s, 0, LoopsAt0)
  {
    LoopsFrom3(s);
    LoopsTurn0(s);
  }

  lemma LoopsMatch0()
    ensures Matches(LoopsAt0, LoopsLexed, 0)
  {
    LoopsMatch4();
  }

  // ----- test_tokenizer_functions (src/tokenizer.rs:491-502) -----

  /** The characters of "function(x, y, zee )\n{loop while (x not = 3){} }\n". */
  predicate FunctionsLine(s: string) {
    |s| == 49 && s[0] == 'f' && s[1] == 'u' && s[2] == 'n' && s[3] == 'c' && s[4] == 't' &&
    s[5] == 'i' && s[6] == 'o' && s[7] == 'n' && s[8] == '(' && s[9] == 'x' && s[10] == ',' &&
    s[11] == ' ' && s[12] == 'y' && s[13] == ',' && s[14] == ' ' && s[15] == 'z' &&
    s[16] == 'e' && s[17] == 'e' && s[18] == ' ' && s[19] == ')' && s[20] == '\n' &&
    s[21] == '{' && s[22] == 'l' && s[23] == 'o' && s[24] == 'o' && s[25] == 'p' &&
    s[26] == ' ' && s[27] == 'w' && s[28] == 'h' && s[29] == 'i' && s[30] == 'l' &&
    s[31] == 'e' && s[32] == ' ' && s[33] == '(' && s[34] == 'x' && s[35] == ' ' &&
    s[36] == 'n' && s[37] == 'o' && s[38] == 't' && s[39] == ' ' && s[40] == '=' &&
    s[41] == ' ' && s[42] == '3' && s[43] == ')' && s[44] == '{' && s[45] == '}' &&
    s[46] == ' ' && s[47] == '}' && s[48] == '\n'
  }

  /** The runs of "function(x, y, zee )\n{loop while (x not = 3){} }\n". */
  const FunctionsAt0 := Then("function", Some(SimpleToken(TokenType.Function)), FunctionsAt8)
  const FunctionsAt8 := Then("(", Some(SimpleToken(OpenParen)), FunctionsAt9)
  const FunctionsAt9 := Then("x", Some(LiteralToken("x")), FunctionsAt10)
  const FunctionsAt10 := Then(",", Some(SimpleToken(Comma)), FunctionsAt11)
  const FunctionsAt11 := Then(" ", None, FunctionsAt12)
  const FunctionsAt12 := Then("y", Some(LiteralToken("y")), FunctionsAt13)
  const FunctionsAt13 := Then(",", Some(SimpleToken(Comma)), FunctionsAt14)
  const FunctionsAt14 := Then(" ", None, FunctionsAt15)
  const FunctionsAt15 := Then("zee", Some(LiteralToken("zee")), FunctionsAt18)
  const FunctionsAt18 := Then(" ", None, FunctionsAt19)
  const FunctionsAt19 := Then(")", Some(SimpleToken(CloseParen)), FunctionsAt20)
  const FunctionsAt20 := Then("\n", Some(SimpleToken(NewLine)), FunctionsAt21)
  const FunctionsAt21 := Then("{", Some(SimpleToken(OpenBrace)), FunctionsAt22)
  const FunctionsAt22 := Then("loop", Some(SimpleToken(TokenType.Loop)), FunctionsAt26)
  const FunctionsAt26 := Then(" ", None, FunctionsAt27)
  const FunctionsAt27 := Then("while", Some(SimpleToken(TokenType.While)), FunctionsAt32)
  const FunctionsAt32 := Then(" ", None, FunctionsAt33)
  const FunctionsAt33 := Then("(", Some(SimpleToken(OpenParen)), FunctionsAt34)
  const FunctionsAt34 := Then("x", Some(LiteralToken("x")), FunctionsAt35)
  const FunctionsAt35 := Then(" ", None, FunctionsAt36)
  const FunctionsAt36 := Then("not", Some(SimpleToken(TokenType.Not)), FunctionsAt39)
  const FunctionsAt39 := Then(" ", None, FunctionsAt40)
  const FunctionsAt40 := Then("=", Some(SimpleToken(TokenType.Equals)), FunctionsAt41)
  const FunctionsAt41 := Then(" ", None, FunctionsAt42)
  const FunctionsAt42 := Then("3", Some(LiteralToken("3")), FunctionsAt43)
  const FunctionsAt43 := Then(")", Some(SimpleToken(CloseParen)), FunctionsAt44)
  const FunctionsAt44 := Then("{", Some(SimpleToken(OpenBrace)), FunctionsAt45)
  const FunctionsAt45 := Then("}", Some(SimpleToken(CloseBrace)), FunctionsAt46)
  const FunctionsAt46 := Then(" ", None, FunctionsAt47)
  const FunctionsAt47 := Then("}", Some(SimpleToken(CloseBrace)), FunctionsAt48)
  const FunctionsAt48 := Then("\n", Some(SimpleToken(NewLine)), End)

  /** The tokens of "function(x, y, zee )\n{loop while (x not = 3){} }\n". */
  const FunctionsLexed: seq<Token> :=
    [SimpleToken(TokenType.Function), SimpleToken(OpenParen), LiteralToken("x"), SimpleToken(Comma)]
    + [LiteralToken("y"), SimpleToken(Comma), LiteralToken("zee"), SimpleToken(CloseParen)]
    + [SimpleToken(NewLine), SimpleToken(OpenBrace), SimpleToken(TokenType.Loop), SimpleToken(TokenType.While)]
    + [SimpleToken(OpenParen), LiteralToken("x"), SimpleToken(TokenType.Not), SimpleToken(TokenType.Equals)]
    + [LiteralToken("3"), SimpleToken(CloseParen), SimpleToken(OpenBrace), SimpleToken(CloseBrace)]
    + [SimpleToken(CloseBrace), SimpleToken(NewLine)]

  /** The input of `test_tokenizer_functions` lexes to twenty-two tokens over
      its two lines: `function` as a keyword (its run does not end in `for`),
      then the parameters and the braces. */
  lemma FunctionsTokens(s: string)
    requires FunctionsLine(s)
    ensures IsAsciiText(s) && Lex(s) == Value(FunctionsLexed)
  {
    FunctionsFrom0(s);
    FunctionsMatch0();
    LexLine(s, FunctionsAt0, FunctionsLexed);
  }

  lemma FunctionsTurn48(s: string)
    requires FunctionsLine(s)
    ensures Fits(s, 48, "\n") && RunToken("\n") == Some(SimpleToken(NewLine))
  {
    assert s[48..49] == "\n";
  }

  lemma FunctionsFrom48(s: string)
    requires FunctionsLine(s)
    ensures Follows(s, 48, FunctionsAt48)
  {
    FunctionsTurn48(s);
  }

  lemma FunctionsMatch48()
    ensures Matches(FunctionsAt48, FunctionsLexed, 21)
  {
  }

  lemma FunctionsTurn47(s: string)
    requires FunctionsLine(s)
    ensures Fits(s, 47, "}") && RunToken("}") == Some(SimpleToken(CloseBrace))
  {
    assert s[47..48] == "}";
  }

  lemma FunctionsFrom47(s: string)
    requires FunctionsLine(s)
    ensures Follows(s, 47, FunctionsAt47)
  {
    FunctionsFrom48(s);
    FunctionsTurn47(s);
  }

  lemma FunctionsMatch47()
    ensures Matches(FunctionsAt47, FunctionsLexed, 20)
  {
    FunctionsMatch48();
  }

  lemma FunctionsTurn46(s: string)
    requires FunctionsLine(s)
    ensures Fits(s, 46, " ") && RunToken(" ") == None
  {
    assert s[46..47] == " ";
  }

  lemma FunctionsFrom46(s: string)
    requires FunctionsLine(s)
    ensures Follows(s, 46, FunctionsAt46)
  {
    FunctionsFrom47(s);
    FunctionsTurn46(s);
  }

  lemma FunctionsTurn45(s: string)
    requires FunctionsLine(s)
    ensures Fits(s, 45, "}") && RunToken("}") == Some(SimpleToken(CloseBrace))
  {
    assert s[45..46] == "}";
  }

  lemma FunctionsFrom45(s: string)
    requires FunctionsLine(s)
    ensures Follows(s, 45, FunctionsAt45)
  {
    FunctionsFrom46(s);
    FunctionsTurn45(s);
  }

  lemma FunctionsMatch45()
    ensures Matches(FunctionsAt45, FunctionsLexed, 19)
  {
    FunctionsMatch47();
  }

  lemma FunctionsTurn44(s: string)
    requires FunctionsLine(s)
    ensures Fits(s, 44, "{") && RunToken("{") == Some(SimpleToken(OpenBrace))
  {
    assert s[44..45] == "{";
  }

  lemma FunctionsFrom44(s: string)
    requires FunctionsLine(s)
    ensures Follows(s, 44, FunctionsAt44)
  {
    FunctionsFrom45(s);
    FunctionsTurn44(s);
  }

  lemma FunctionsMatch44()
    ensures Matches(FunctionsAt44, FunctionsLexed, 18)
  {
    FunctionsMatch45();
  }

  lemma FunctionsTurn43(s: string)
    requires FunctionsLine(s)
    ensures Fits(s, 43, ")") && RunToken(")") == Some(SimpleToken(CloseParen))
  {
    assert s[43..44] == ")";
  }

  lemma FunctionsFrom43(s: string)
    requires FunctionsLine(s)
    ensures Follows(s, 43, FunctionsAt43)
  {
    FunctionsFrom44(s);
    FunctionsTurn43(s);
  }

  lemma FunctionsMatch43()
    ensures Matches(FunctionsAt43, FunctionsLexed, 17)
  {
    FunctionsMatch44();
  }

  lemma FunctionsTurn42(s: string)
    requires FunctionsLine(s)
    ensures Fits(s, 42, "3") && RunToken("3") == Some(LiteralToken("3"))
  {
    assert RunTo(s, 43, 43, Number);
    assert s[42..43] == "3";
  }

  lemma FunctionsFrom42(s: string)
    requires FunctionsLine(s)
    ensures Follows(s, 42, FunctionsAt42)
  {
    FunctionsFrom43(s);
    FunctionsTurn42(s);
  }

  lemma FunctionsMatch42()
    ensures Matches(FunctionsAt42, FunctionsLexed, 16)
  {
    FunctionsMatch43();
  }

  lemma FunctionsTurn41(s: string)
    requires FunctionsLine(s)
    ensures Fits(s, 41, " ") && RunToken(" ") == None
  {
    assert s[41..42] == " ";
  }

  lemma FunctionsFrom41(s: string)
    requires FunctionsLine(s)
    ensures Follows(s, 41, FunctionsAt41)
  {
    FunctionsFrom42(s);
    FunctionsTurn41(s);
  }

  lemma FunctionsTurn40(s: string)
    requires FunctionsLine(s)
    ensures Fits(s, 40, "=") && RunToken("=") == Some(SimpleToken(TokenType.Equals))
  {
    assert s[40..41] == "=";
  }

  lemma FunctionsFrom40(s: string)
    requires FunctionsLine(s)
    ensures Follows(s, 40, FunctionsAt40)
  {
    FunctionsFrom41(s);
    FunctionsTurn40(s);
  }

  lemma FunctionsMatch40()
    ensures Matches(FunctionsAt40, FunctionsLexed, 15)
  {
    FunctionsMatch42();
  }

  lemma FunctionsTurn39(s: string)
    requires FunctionsLine(s)
    ensures Fits(s, 39, " ") && RunToken(" ") == None
  {
    assert s[39..40] == " ";
  }

  lemma FunctionsFrom39(s: string)
    requires FunctionsLine(s)
    ensures Follows(s, 39, FunctionsAt39)
  {
    FunctionsFrom40(s);
    FunctionsTurn39(s);
  }

  lemma FunctionsTurn36(s: string)
    requires FunctionsLine(s)
    ensures Fits(s, 36, "not") && RunToken("not") == Some(SimpleToken(TokenType.Not))
  {
    assert RunTo(s, 39, 39, Word);
    assert RunTo(s, 38, 39, Word);
    assert RunTo(s, 37, 39, Word);
    assert s[36..39] == "not";
  }

  lemma FunctionsFrom36(s: string)
    requires FunctionsLine(s)
    ensures Follows(s, 36, FunctionsAt36)
  {
    FunctionsFrom39(s);
    FunctionsTurn36(s);
  }

  lemma FunctionsMatch36()
    ensures Matches(FunctionsAt36, FunctionsLexed, 14)
  {
    FunctionsMatch40();
  }

  lemma FunctionsTurn35(s: string)
    requires FunctionsLine(s)
    ensures Fits(s, 35, " ") && RunToken(" ") == None
  {
    assert s[35..36] == " ";
  }

  lemma FunctionsFrom35(s: string)
    requires FunctionsLine(s)
    ensures Follows(s, 35, FunctionsAt35)
  {
    FunctionsFrom36(s);
    FunctionsTurn35(s);
  }

  lemma FunctionsTurn34(s: string)
    requires FunctionsLine(s)
    ensures Fits(s, 34, "x") && RunToken("x") == Some(LiteralToken("x"))
  {
    assert RunTo(s, 35, 35, Word);
    assert s[34..35] == "x";
  }

  lemma FunctionsFrom34(s: string)
    requires FunctionsLine(s)
    ensures Follows(s, 34, FunctionsAt34)
  {
    FunctionsFrom35(s);
    FunctionsTurn34(s);
  }

  lemma FunctionsMatch34()
    ensures Matches(FunctionsAt34, FunctionsLexed, 13)
  {
    FunctionsMatch36();
  }

  lemma FunctionsTurn33(s: string)
    requires FunctionsLine(s)
    ensures Fits(s, 33, "(") && RunToken("(") == Some(SimpleToken(OpenParen))
  {
    assert s[33..34] == "(";
  }

  lemma FunctionsFrom33(s: string)
    requires FunctionsLine(s)
    ensures Follows(s, 33, FunctionsAt33)
  {
    FunctionsFrom34(s);
    FunctionsTurn33(s);
  }

  lemma FunctionsMatch33()
    ensures Matches(FunctionsAt33, FunctionsLexed, 12)
  {
    FunctionsMatch34();
  }

  lemma FunctionsTurn32(s: string)
    requires FunctionsLine(s)
    ensures Fits(s, 32, " ") && RunToken(" ") == None
  {
    assert s[32..33] == " ";
  }

  lemma FunctionsFrom32(s: string)
    requires FunctionsLine(s)
    ensures Follows(s, 32, FunctionsAt32)
  {
    FunctionsFrom33(s);
    FunctionsTurn32(s);
  }

  lemma FunctionsTurn27(s: string)
    requires FunctionsLine(s)
    ensures Fits(s, 27, "while") && RunToken("while") == Some(SimpleToken(TokenType.While))
  {
    assert RunTo(s, 32, 32, Word);
    assert RunTo(s, 31, 32, Word);
    assert RunTo(s, 30, 32, Word);
    assert RunTo(s, 29, 32, Word);
    assert RunTo(s, 28, 32, Word);
    assert s[27..32] == "while";
  }

  lemma FunctionsFrom27(s: string)
    requires FunctionsLine(s)
    ensures Follows(s, 27, FunctionsAt27)
  {
    FunctionsFrom32(s);
    FunctionsTurn27(s);
  }

  lemma FunctionsMatch27()
    ensures Matches(FunctionsAt27, FunctionsLexed, 11)
  {
    FunctionsMatch33();
  }

  lemma FunctionsTurn26(s: string)
    requires FunctionsLine(s)
    ensures Fits(s, 26, " ") && RunToken(" ") == None
  {
    assert s[26..27] == " ";
  }

  lemma FunctionsFrom26(s: string)
    requires FunctionsLine(s)
    ensures Follows(s, 26, FunctionsAt26)
  {
    FunctionsFrom27(s);
    FunctionsTurn26(s);
  }

  lemma FunctionsTurn22(s: string)
    requires FunctionsLine(s)
    ensures Fits(s, 22, "loop") && RunToken("loop") == Some(SimpleToken(TokenType.Loop))
  {
    assert RunTo(s, 26, 26, Word);
    assert RunTo(s, 25, 26, Word);
    assert RunTo(s, 24, 26, Word);
    assert RunTo(s, 23, 26, Word);
    assert s[22..26] == "loop";
  }

  lemma FunctionsFrom22(s: string)
    requires FunctionsLine(s)
    ensures Follows(s, 22, FunctionsAt22)
  {
    FunctionsFrom26(s);
    FunctionsTurn22(s);
  }

  lemma FunctionsMatch22()
    ensures Matches(FunctionsAt22, FunctionsLexed, 10)
  {
    FunctionsMatch27();
  }

  lemma FunctionsTurn21(s: string)
    requires FunctionsLine(s)
    ensures Fits(s, 21, "{") && RunToken("{") == Some(SimpleToken(OpenBrace))
  {
    assert s[21..22] == "{";
  }

  lemma FunctionsFrom21(s: string)
    requires FunctionsLine(s)
    ensures Follows(s, 21, FunctionsAt21)
  {
    FunctionsFrom22(s);
    FunctionsTurn21(s);
  }

  lemma FunctionsMatch21()
    ensures Matches(FunctionsAt21, FunctionsLexed, 9)
  {
    FunctionsMatch22();
  }

  lemma FunctionsTurn20(s: string)
    requires FunctionsLine(s)
    ensures Fits(s, 20, "\n") && RunToken("\n") == Some(SimpleToken(NewLine))
  {
    assert s[20..21] == "\n";
  }

  lemma FunctionsFrom20(s: string)
    requires FunctionsLine(s)
    ensures Follows(s, 20, FunctionsAt20)
  {
    FunctionsFrom21(s);
    FunctionsTurn20(s);
  }

  lemma FunctionsMatch20()
    ensures Matches(FunctionsAt20, FunctionsLexed, 8)
  {
    FunctionsMatch21();
  }

  lemma FunctionsTurn19(s: string)
    requires FunctionsLine(s)
    ensures Fits(s, 19, ")") && RunToken(")") == Some(SimpleToken(CloseParen))
  {
    assert s[19..20] == ")";
  }

  lemma FunctionsFrom19(s: string)
    requires FunctionsLine(s)
    ensures Follows(s, 19, FunctionsAt19)
  {
    FunctionsFrom20(s);
    FunctionsTurn19(s);
  }

  lemma FunctionsMatch19()
    ensures Matches(FunctionsAt19, FunctionsLexed, 7)
  {
    FunctionsMatch20();
  }

  lemma FunctionsTurn18(s: string)
    requires FunctionsLine(s)
    ensures Fits(s, 18, " ") && RunToken(" ") == None
  {
    assert s[18..19] == " ";
  }

  lemma FunctionsFrom18(s: string)
    requires FunctionsLine(s)
    ensures Follows(s, 18, FunctionsAt18)
  {
    FunctionsFrom19(s);
    FunctionsTurn18(s);
  }

  lemma FunctionsTurn15(s: string)
    requires FunctionsLine(s)
    ensures Fits(s, 15, "zee") && RunToken("zee") == Some(LiteralToken("zee"))
  {
    assert RunTo(s, 18, 18, Word);
    assert RunTo(s, 17, 18, Word);
    assert RunTo(s, 16, 18, Word);
    assert s[15..18] == "zee";
  }

  lemma FunctionsFrom15(s: string)
    requires FunctionsLine(s)
    ensures Follows(s, 15, FunctionsAt15)
  {
    FunctionsFrom18(s);
    FunctionsTurn15(s);
  }

  lemma FunctionsMatch15()
    ensures Matches(FunctionsAt15, FunctionsLexed, 6)
  {
    FunctionsMatch19();
  }

  lemma FunctionsTurn14(s: string)
    requires FunctionsLine(s)
    ensures Fits(s, 14, " ") && RunToken(" ") == None
  {
    assert s[14..15] == " ";
  }

  lemma FunctionsFrom14(s: string)
    requires FunctionsLine(s)
    ensures Follows(s, 14, FunctionsAt14)
  {
    FunctionsFrom15(s);
    FunctionsTurn14(s);
  }

  lemma FunctionsTurn13(s: string)
    requires FunctionsLine(s)
    ensures Fits(s, 13, ",") && RunToken(",") == Some(SimpleToken(Comma))
  {
    assert s[13..14] == ",";
  }

  lemma FunctionsFrom13(s: string)
    requires FunctionsLine(s)
    ensures Follows(s, 13, FunctionsAt13)
  {
    FunctionsFrom14(s);
    FunctionsTurn13(s);
  }

  lemma FunctionsMatch13()
    ensures Matches(FunctionsAt13, FunctionsLexed, 5)
  {
    FunctionsMatch15();
  }

  lemma FunctionsTurn12(s: string)
    requires FunctionsLine(s)
    ensures Fits(s, 12, "y") && RunToken("y") == Some(LiteralToken("y"))
  {
    assert RunTo(s, 13, 13, Word);
    assert s[12..13] == "y";
  }

  lemma FunctionsFrom12(s: string)
    requires FunctionsLine(s)
    ensures Follows(s, 12, FunctionsAt12)
  {
    FunctionsFrom13(s);
    FunctionsTurn12(s);
  }

  lemma FunctionsMatch12()
    ensures Matches(FunctionsAt12, FunctionsLexed, 4)
  {
    FunctionsMatch13();
  }

  lemma FunctionsTurn11(s: string)
    requires FunctionsLine(s)
    ensures Fits(s, 11, " ") && RunToken(" ") == None
  {
    assert s[11..12] == " ";
  }

  lemma FunctionsFrom11(s: string)
    requires FunctionsLine(s)
    ensures Follows(s, 11, FunctionsAt11)
  {
    FunctionsFrom12(s);
    FunctionsTurn11(s);
  }

  lemma FunctionsTurn10(s: string)
    requires FunctionsLine(s)
    ensures Fits(s, 10, ",") && RunToken(",") == Some(SimpleToken(Comma))
  {
    assert s[10..11] == ",";
  }

  lemma FunctionsFrom10(s: string)
    requires FunctionsLine(s)
    ensures Follows(s, 10, FunctionsAt10)
  {
    FunctionsFrom11(s);
    FunctionsTurn10(s);
  }

  lemma FunctionsMatch10()
    ensures Matches(FunctionsAt10, FunctionsLexed, 3)
  {
    FunctionsMatch12();
  }

  lemma FunctionsTurn9(s: string)
    requires FunctionsLine(s)
    ensures Fits(s, 9, "x") && RunToken("x") == Some(LiteralToken("x"))
  {
    assert RunTo(s, 10, 10, Word);
    assert s[9..10] == "x";
  }

  lemma FunctionsFrom9(s: string)
    requires FunctionsLine(s)
    ensures Follows(s, 9, FunctionsAt9)
  {
    FunctionsFrom10(s);
    FunctionsTurn9(s);
  }

  lemma FunctionsMatch9()
    ensures Matches(FunctionsAt9, FunctionsLexed, 2)
  {
    FunctionsMatch10();
  }

  lemma FunctionsTurn8(s: string)
    requires FunctionsLine(s)
    ensures Fits(s, 8, "(") && RunToken("(") == Some(SimpleToken(OpenParen))
  {
    assert s[8..9] == "(";
  }

  lemma FunctionsFrom8(s: string)
    requires FunctionsLine(s)
    ensures Follows(s, 8, FunctionsAt8)
  {
    FunctionsFrom9(s);
    FunctionsTurn8(s);
  }

  lemma FunctionsMatch8()
    ensures Matches(FunctionsAt8, FunctionsLexed, 1)
  {
    FunctionsMatch9();
  }

  lemma FunctionsSpan0(s: string)
    requires FunctionsLine(s)
    ensures RunTo(s, 0, 8, Word) && s[0..8] == "function" && IsAsciiText("function")
  {
    assert RunTo(s, 8, 8, Word);
    assert RunTo(s, 7, 8, Word);
    assert RunTo(s, 6, 8, Word);
    assert RunTo(s, 5, 8, Word);
    assert RunTo(s, 4, 8, Word);
    assert RunTo(s, 3, 8, Word);
    assert RunTo(s, 2, 8, Word);
    assert RunTo(s, 1, 8, Word);
    assert s[0..8] == "function";
  }

  lemma FunctionsTurn0(s: string)
    requires FunctionsLine(s)
    ensures Fits(s, 0, "function") && RunToken("function") == Some(SimpleToken(TokenType.Function))
  {
    FunctionsSpan0(s);
    SecondArmFunction();
  }

  lemma FunctionsFrom0(s: string)
    requires FunctionsLine(s)
    ensures Follows(s, 0, FunctionsAt0)
  {
    FunctionsFrom8(s);
    FunctionsTurn0(s);
  }

  lemma FunctionsMatch0()
    ensures Matches(FunctionsAt0, FunctionsLexed, 0)
  {
    FunctionsMatch8();
  }
}
