/** The worked examples of src/test_parser.rs, stated on hand-built
    token lists: that the lexer yields them for the test lines is not
    proved here. Each postfix form is computed two tokens at a time,
    one lemma per piece: a `Turn` lemma per token, joined to the pieces
    before it by `ShuntAllAppend`; each evaluation goes through the
    expression tree the postfix form is the postfix of (`EvalTreeValue`),
    except where the pass diverges from the tests. */
module ParserExamples {
  import opened Outcomes
  import opened Tokens
  import opened Numerals
  import opened Tokenizer
  import opened Expr
  import opened ExprExamples
  import opened Parser

  lemma SumOrProductRun0()
    ensures ShuntAll(Shunt([], []), [LiteralToken("5"), SimpleToken(Plus)])
      == Shunt([SimpleToken(Plus)], [LiteralToken("5")])
  {
    var q0 := [LiteralToken("5")];
    TurnLiteral([], [], LiteralToken("5"));
    TurnPush([], q0, SimpleToken(Plus), [SimpleToken(Plus)]);
    Turns2(Shunt([], []), LiteralToken("5"), SimpleToken(Plus), Shunt([], q0), Shunt([SimpleToken(Plus)], q0));
  }

  lemma SumOrProductRun1()
    ensures ShuntAll(Shunt([], []), [LiteralToken("5"), SimpleToken(Plus)] + [LiteralToken("7"), SimpleToken(TokenType.Or)])
      == Shunt([SimpleToken(TokenType.Or)], [LiteralToken("5")] + [LiteralToken("7")] + [SimpleToken(Plus)])
  {
    SumOrProductRun0();
    var q0 := [LiteralToken("5")];
    var q1 := q0 + [LiteralToken("7")];
    TurnLiteral([SimpleToken(Plus)], q0, LiteralToken("7"));
    var q2 := q1 + [SimpleToken(Plus)];
    TurnPopOne([SimpleToken(Plus)], q1, SimpleToken(TokenType.Or), SimpleToken(Plus), [SimpleToken(TokenType.Or)]);
    Snoc2([LiteralToken("5"), SimpleToken(Plus)], LiteralToken("7"), SimpleToken(TokenType.Or),
          Shunt([SimpleToken(Plus)], q0), Shunt([SimpleToken(Plus)], q1), Shunt([SimpleToken(TokenType.Or)], q2));
  }

  lemma SumOrProductRun2()
    ensures ShuntAll(Shunt([], []), [LiteralToken("5"), SimpleToken(Plus)] + [LiteralToken("7"), SimpleToken(TokenType.Or)] + [LiteralToken("3"), SimpleToken(Mult)])
      == Shunt([SimpleToken(Mult), SimpleToken(TokenType.Or)], [LiteralToken("5")] + [LiteralToken("7")] + [SimpleToken(Plus)] + [LiteralToken("3")])
  {
    SumOrProductRun1();
    var q0 := [LiteralToken("5")] + [LiteralToken("7")] + [SimpleToken(Plus)];
    var q1 := q0 + [LiteralToken("3")];
    TurnLiteral([SimpleToken(TokenType.Or)], q0, LiteralToken("3"));
    TurnPush([SimpleToken(TokenType.Or)], q1, SimpleToken(Mult), [SimpleToken(Mult), SimpleToken(TokenType.Or)]);
    Snoc2([LiteralToken("5"), SimpleToken(Plus)] + [LiteralToken("7"), SimpleToken(TokenType.Or)], LiteralToken("3"), SimpleToken(Mult),
          Shunt([SimpleToken(TokenType.Or)], q0), Shunt([SimpleToken(TokenType.Or)], q1), Shunt([SimpleToken(Mult), SimpleToken(TokenType.Or)], q1));
  }

  lemma SumOrProductRun3()
    ensures ShuntAll(Shunt([], []), [LiteralToken("5"), SimpleToken(Plus)] + [LiteralToken("7"), SimpleToken(TokenType.Or)] + [LiteralToken("3"), SimpleToken(Mult)] + [LiteralToken("5")])
      == Shunt([SimpleToken(Mult), SimpleToken(TokenType.Or)], [LiteralToken("5")] + [LiteralToken("7")] + [SimpleToken(Plus)] + [LiteralToken("3")] + [LiteralToken("5")])
  {
    SumOrProductRun2();
    var q0 := [LiteralToken("5")] + [LiteralToken("7")] + [SimpleToken(Plus)] + [LiteralToken("3")];
    var q1 := q0 + [LiteralToken("5")];
    TurnLiteral([SimpleToken(Mult), SimpleToken(TokenType.Or)], q0, LiteralToken("5"));
    Snoc1([LiteralToken("5"), SimpleToken(Plus)] + [LiteralToken("7"), SimpleToken(TokenType.Or)] + [LiteralToken("3"), SimpleToken(Mult)], LiteralToken("5"),
          Shunt([SimpleToken(Mult), SimpleToken(TokenType.Or)], q0), Shunt([SimpleToken(Mult), SimpleToken(TokenType.Or)], q1));
  }

  /** `test_infix_to_postfix_1`: `5+ 7 or 3 * 5` becomes `5 7 + 3 5 * or`, seven tokens. */
  lemma SumOrProductPostfix()
    ensures Postfix([LiteralToken("5"), SimpleToken(Plus)]
                    + [LiteralToken("7"), SimpleToken(TokenType.Or)]
                    + [LiteralToken("3"), SimpleToken(Mult)]
                    + [LiteralToken("5")])
      == [LiteralToken("5"), LiteralToken("7"), SimpleToken(Plus), LiteralToken("3"), LiteralToken("5"), SimpleToken(Mult), SimpleToken(TokenType.Or)]
  {
    SumOrProductRun3();
    PostfixFrom([LiteralToken("5"), SimpleToken(Plus)]
                + [LiteralToken("7"), SimpleToken(TokenType.Or)]
                + [LiteralToken("3"), SimpleToken(Mult)]
                + [LiteralToken("5")],
                Shunt([SimpleToken(Mult), SimpleToken(TokenType.Or)], [LiteralToken("5")] + [LiteralToken("7")] + [SimpleToken(Plus)] + [LiteralToken("3")] + [LiteralToken("5")]));
  }

  lemma ParenTimesRun0()
    ensures ShuntAll(Shunt([], []), [SimpleToken(OpenParen), LiteralToken("3")])
      == Shunt([SimpleToken(OpenParen)], [LiteralToken("3")])
  {
    TurnOpen([], [], SimpleToken(OpenParen), [SimpleToken(OpenParen)]);
    var q0 := [LiteralToken("3")];
    TurnLiteral([SimpleToken(OpenParen)], [], LiteralToken("3"));
    Turns2(Shunt([], []), SimpleToken(OpenParen), LiteralToken("3"), Shunt([SimpleToken(OpenParen)], []), Shunt([SimpleToken(OpenParen)], q0));
  }

  lemma ParenTimesRun1()
    ensures ShuntAll(Shunt([], []), [SimpleToken(OpenParen), LiteralToken("3")] + [SimpleToken(Minus), LiteralToken("5")])
      == Shunt([SimpleToken(Minus), SimpleToken(OpenParen)], [LiteralToken("3")] + [LiteralToken("5")])
  {
    ParenTimesRun0();
    var q0 := [LiteralToken("3")];
    TurnPush([SimpleToken(OpenParen)], q0, SimpleToken(Minus), [SimpleToken(Minus), SimpleToken(OpenParen)]);
    var q1 := q0 + [LiteralToken("5")];
    TurnLiteral([SimpleToken(Minus), SimpleToken(OpenParen)], q0, LiteralToken("5"));
    Snoc2([SimpleToken(OpenParen), LiteralToken("3")], SimpleToken(Minus), LiteralToken("5"),
          Shunt([SimpleToken(OpenParen)], q0), Shunt([SimpleToken(Minus), SimpleToken(OpenParen)], q0), Shunt([SimpleToken(Minus), SimpleToken(OpenParen)], q1));
  }

  lemma ParenTimesRun2()
    ensures ShuntAll(Shunt([], []), [SimpleToken(OpenParen), LiteralToken("3")] + [SimpleToken(Minus), LiteralToken("5")] + [SimpleToken(CloseParen), SimpleToken(Mult)])
      == Shunt([SimpleToken(Mult)], [LiteralToken("3")] + [LiteralToken("5")] + [SimpleToken(Minus)])
  {
    ParenTimesRun1();
    var q0 := [LiteralToken("3")] + [LiteralToken("5")];
    var q1 := q0 + [SimpleToken(Minus)];
    TurnCloseBelowTop([SimpleToken(Minus), SimpleToken(OpenParen)], q0, SimpleToken(CloseParen), SimpleToken(Minus), []);
    TurnPush([], q1, SimpleToken(Mult), [SimpleToken(Mult)]);
    Snoc2([SimpleToken(OpenParen), LiteralToken("3")] + [SimpleToken(Minus), LiteralToken("5")], SimpleToken(CloseParen), SimpleToken(Mult),
          Shunt([SimpleToken(Minus), SimpleToken(OpenParen)], q0), Shunt([], q1), Shunt([SimpleToken(Mult)], q1));
  }

  lemma ParenTimesRun3()
    ensures ShuntAll(Shunt([], []), [SimpleToken(OpenParen), LiteralToken("3")] + [SimpleToken(Minus), LiteralToken("5")] + [SimpleToken(CloseParen), SimpleToken(Mult)] + [LiteralToken("12")])
      == Shunt([SimpleToken(Mult)], [LiteralToken("3")] + [LiteralToken("5")] + [SimpleToken(Minus)] + [LiteralToken("12")])
  {
    ParenTimesRun2();
    var q0 := [LiteralToken("3")] + [LiteralToken("5")] + [SimpleToken(Minus)];
    var q1 := q0 + [LiteralToken("12")];
    TurnLiteral([SimpleToken(Mult)], q0, LiteralToken("12"));
    Snoc1([SimpleToken(OpenParen), LiteralToken("3")] + [SimpleToken(Minus), LiteralToken("5")] + [SimpleToken(CloseParen), SimpleToken(Mult)], LiteralToken("12"),
          Shunt([SimpleToken(Mult)], q0), Shunt([SimpleToken(Mult)], q1));
  }

  /** `test_infix_to_postfix_2`: `(3 - 5) * 12` becomes `3 5 - 12 *`, five tokens. */
  lemma ParenTimesPostfix()
    ensures Postfix([SimpleToken(OpenParen), LiteralToken("3")]
                    + [SimpleToken(Minus), LiteralToken("5")]
                    + [SimpleToken(CloseParen), SimpleToken(Mult)]
                    + [LiteralToken("12")])
      == [LiteralToken("3"), LiteralToken("5"), SimpleToken(Minus), LiteralToken("12"), SimpleToken(Mult)]
  {
    ParenTimesRun3();
    PostfixFrom([SimpleToken(OpenParen), LiteralToken("3")]
                + [SimpleToken(Minus), LiteralToken("5")]
                + [SimpleToken(CloseParen), SimpleToken(Mult)]
                + [LiteralToken("12")],
                Shunt([SimpleToken(Mult)], [LiteralToken("3")] + [LiteralToken("5")] + [SimpleToken(Minus)] + [LiteralToken("12")]));
  }

  lemma TimesModRun0()
    ensures ShuntAll(Shunt([], []), [SimpleToken(OpenParen), LiteralToken("3")])
      == Shunt([SimpleToken(OpenParen)], [LiteralToken("3")])
  {
    TurnOpen([], [], SimpleToken(OpenParen), [SimpleToken(OpenParen)]);
    var q0 := [LiteralToken("3")];
    TurnLiteral([SimpleToken(OpenParen)], [], LiteralToken("3"));
    Turns2(Shunt([], []), SimpleToken(OpenParen), LiteralToken("3"), Shunt([SimpleToken(OpenParen)], []), Shunt([SimpleToken(OpenParen)], q0));
  }

  lemma TimesModRun1()
    ensures ShuntAll(Shunt([], []), [SimpleToken(OpenParen), LiteralToken("3")] + [SimpleToken(Mult), LiteralToken("13")])
      == Shunt([SimpleToken(Mult), SimpleToken(OpenParen)], [LiteralToken("3")] + [LiteralToken("13")])
  {
    TimesModRun0();
    var q0 := [LiteralToken("3")];
    TurnPush([SimpleToken(OpenParen)], q0, SimpleToken(Mult), [SimpleToken(Mult), SimpleToken(OpenParen)]);
    var q1 := q0 + [LiteralToken("13")];
    TurnLiteral([SimpleToken(Mult), SimpleToken(OpenParen)], q0, LiteralToken("13"));
    Snoc2([SimpleToken(OpenParen), LiteralToken("3")], SimpleToken(Mult), LiteralToken("13"),
          Shunt([SimpleToken(OpenParen)], q0), Shunt([SimpleToken(Mult), SimpleToken(OpenParen)], q0), Shunt([SimpleToken(Mult), SimpleToken(OpenParen)], q1));
  }

  lemma TimesModRun2()
    ensures ShuntAll(Shunt([], []), [SimpleToken(OpenParen), LiteralToken("3")] + [SimpleToken(Mult), LiteralToken("13")] + [SimpleToken(CloseParen), LiteralToken("mod")])
      == Shunt([], [LiteralToken("3")] + [LiteralToken("13")] + [SimpleToken(Mult)] + [LiteralToken("mod")])
  {
    TimesModRun1();
    var q0 := [LiteralToken("3")] + [LiteralToken("13")];
    var q1 := q0 + [SimpleToken(Mult)];
    TurnCloseBelowTop([SimpleToken(Mult), SimpleToken(OpenParen)], q0, SimpleToken(CloseParen), SimpleToken(Mult), []);
    var q2 := q1 + [LiteralToken("mod")];
    TurnLiteral([], q1, LiteralToken("mod"));
    Snoc2([SimpleToken(OpenParen), LiteralToken("3")] + [SimpleToken(Mult), LiteralToken("13")], SimpleToken(CloseParen), LiteralToken("mod"),
          Shunt([SimpleToken(Mult), SimpleToken(OpenParen)], q0), Shunt([], q1), Shunt([], q2));
  }

  lemma TimesModRun3()
    ensures ShuntAll(Shunt([], []), [SimpleToken(OpenParen), LiteralToken("3")] + [SimpleToken(Mult), LiteralToken("13")] + [SimpleToken(CloseParen), LiteralToken("mod")] + [LiteralToken("12")])
      == Shunt([], [LiteralToken("3")] + [LiteralToken("13")] + [SimpleToken(Mult)] + [LiteralToken("mod")] + [LiteralToken("12")])
  {
    TimesModRun2();
    var q0 := [LiteralToken("3")] + [LiteralToken("13")] + [SimpleToken(Mult)] + [LiteralToken("mod")];
    var q1 := q0 + [LiteralToken("12")];
    TurnLiteral([], q0, LiteralToken("12"));
    Snoc1([SimpleToken(OpenParen), LiteralToken("3")] + [SimpleToken(Mult), LiteralToken("13")] + [SimpleToken(CloseParen), LiteralToken("mod")], LiteralToken("12"),
          Shunt([], q0), Shunt([], q1));
  }

  /** `(3 * 13) mod 12`: `mod` is lexed as a literal, so the postfix form is `3 13 * mod 12`. */
  lemma TimesModPostfix()
    ensures Postfix([SimpleToken(OpenParen), LiteralToken("3")]
                    + [SimpleToken(Mult), LiteralToken("13")]
                    + [SimpleToken(CloseParen), LiteralToken("mod")]
                    + [LiteralToken("12")])
      == [LiteralToken("3"), LiteralToken("13"), SimpleToken(Mult), LiteralToken("mod"), LiteralToken("12")]
  {
    TimesModRun3();
    PostfixFrom([SimpleToken(OpenParen), LiteralToken("3")]
                + [SimpleToken(Mult), LiteralToken("13")]
                + [SimpleToken(CloseParen), LiteralToken("mod")]
                + [LiteralToken("12")],
                Shunt([], [LiteralToken("3")] + [LiteralToken("13")] + [SimpleToken(Mult)] + [LiteralToken("mod")] + [LiteralToken("12")]));
  }

  lemma GreaterRun0()
    ensures ShuntAll(Shunt([], []), [LiteralToken("5"), SimpleToken(GreaterThan)])
      == Shunt([SimpleToken(GreaterThan)], [LiteralToken("5")])
  {
    var q0 := [LiteralToken("5")];
    TurnLiteral([], [], LiteralToken("5"));
    TurnPush([], q0, SimpleToken(GreaterThan), [SimpleToken(GreaterThan)]);
    Turns2(Shunt([], []), LiteralToken("5"), SimpleToken(GreaterThan), Shunt([], q0), Shunt([SimpleToken(GreaterThan)], q0));
  }

  lemma GreaterRun1()
    ensures ShuntAll(Shunt([], []), [LiteralToken("5"), SimpleToken(GreaterThan)] + [LiteralToken("7")])
      == Shunt([SimpleToken(GreaterThan)], [LiteralToken("5")] + [LiteralToken("7")])
  {
    GreaterRun0();
    var q0 := [LiteralToken("5")];
    var q1 := q0 + [LiteralToken("7")];
    TurnLiteral([SimpleToken(GreaterThan)], q0, LiteralToken("7"));
    Snoc1([LiteralToken("5"), SimpleToken(GreaterThan)], LiteralToken("7"),
          Shunt([SimpleToken(GreaterThan)], q0), Shunt([SimpleToken(GreaterThan)], q1));
  }

  /** `5 > 7`: a comparison has precedence 0 and is pushed like any operator, giving `5 7 >`. */
  lemma GreaterPostfix()
    ensures Postfix([LiteralToken("5"), SimpleToken(GreaterThan)]
                    + [LiteralToken("7")])
      == [LiteralToken("5"), LiteralToken("7"), SimpleToken(GreaterThan)]
  {
    GreaterRun1();
    PostfixFrom([LiteralToken("5"), SimpleToken(GreaterThan)]
                + [LiteralToken("7")],
                Shunt([SimpleToken(GreaterThan)], [LiteralToken("5")] + [LiteralToken("7")]));
  }

  lemma AtLeastRun0()
    ensures ShuntAll(Shunt([], []), [LiteralToken("5"), SimpleToken(TokenType.Gte)])
      == Shunt([SimpleToken(TokenType.Gte)], [LiteralToken("5")])
  {
    var q0 := [LiteralToken("5")];
    TurnLiteral([], [], LiteralToken("5"));
    TurnPush([], q0, SimpleToken(TokenType.Gte), [SimpleToken(TokenType.Gte)]);
    Turns2(Shunt([], []), LiteralToken("5"), SimpleToken(TokenType.Gte), Shunt([], q0), Shunt([SimpleToken(TokenType.Gte)], q0));
  }

  lemma AtLeastRun1()
    ensures ShuntAll(Shunt([], []), [LiteralToken("5"), SimpleToken(TokenType.Gte)] + [LiteralToken("5")])
      == Shunt([SimpleToken(TokenType.Gte)], [LiteralToken("5")] + [LiteralToken("5")])
  {
    AtLeastRun0();
    var q0 := [LiteralToken("5")];
    var q1 := q0 + [LiteralToken("5")];
    TurnLiteral([SimpleToken(TokenType.Gte)], q0, LiteralToken("5"));
    Snoc1([LiteralToken("5"), SimpleToken(TokenType.Gte)], LiteralToken("5"),
          Shunt([SimpleToken(TokenType.Gte)], q0), Shunt([SimpleToken(TokenType.Gte)], q1));
  }

  /** `5 >= 5` becomes `5 5 >=`. */
  lemma AtLeastPostfix()
    ensures Postfix([LiteralToken("5"), SimpleToken(TokenType.Gte)]
                    + [LiteralToken("5")])
      == [LiteralToken("5"), LiteralToken("5"), SimpleToken(TokenType.Gte)]
  {
    AtLeastRun1();
    PostfixFrom([LiteralToken("5"), SimpleToken(TokenType.Gte)]
                + [LiteralToken("5")],
                Shunt([SimpleToken(TokenType.Gte)], [LiteralToken("5")] + [LiteralToken("5")]));
  }

  lemma EqAndEqRun0()
    ensures ShuntAll(Shunt([], []), [LiteralToken("5"), SimpleToken(Equals)])
      == Shunt([SimpleToken(Equals)], [LiteralToken("5")])
  {
    var q0 := [LiteralToken("5")];
    TurnLiteral([], [], LiteralToken("5"));
    TurnPush([], q0, SimpleToken(Equals), [SimpleToken(Equals)]);
    Turns2(Shunt([], []), LiteralToken("5"), SimpleToken(Equals), Shunt([], q0), Shunt([SimpleToken(Equals)], q0));
  }

  lemma EqAndEqRun1()
    ensures ShuntAll(Shunt([], []), [LiteralToken("5"), SimpleToken(Equals)] + [LiteralToken("5"), SimpleToken(TokenType.And)])
      == Shunt([SimpleToken(TokenType.And)], [LiteralToken("5")] + [LiteralToken("5")] + [SimpleToken(Equals)])
  {
    EqAndEqRun0();
    var q0 := [LiteralToken("5")];
    var q1 := q0 + [LiteralToken("5")];
    TurnLiteral([SimpleToken(Equals)], q0, LiteralToken("5"));
    var q2 := q1 + [SimpleToken(Equals)];
    TurnPopOne([SimpleToken(Equals)], q1, SimpleToken(TokenType.And), SimpleToken(Equals), [SimpleToken(TokenType.And)]);
    Snoc2([LiteralToken("5"), SimpleToken(Equals)], LiteralToken("5"), SimpleToken(TokenType.And),
          Shunt([SimpleToken(Equals)], q0), Shunt([SimpleToken(Equals)], q1), Shunt([SimpleToken(TokenType.And)], q2));
  }

  lemma EqAndEqRun2()
    ensures ShuntAll(Shunt([], []), [LiteralToken("5"), SimpleToken(Equals)] + [LiteralToken("5"), SimpleToken(TokenType.And)] + [LiteralToken("3"), SimpleToken(Equals)])
      == Shunt([SimpleToken(Equals), SimpleToken(TokenType.And)], [LiteralToken("5")] + [LiteralToken("5")] + [SimpleToken(Equals)] + [LiteralToken("3")])
  {
    EqAndEqRun1();
    var q0 := [LiteralToken("5")] + [LiteralToken("5")] + [SimpleToken(Equals)];
    var q1 := q0 + [LiteralToken("3")];
    TurnLiteral([SimpleToken(TokenType.And)], q0, LiteralToken("3"));
    TurnPush([SimpleToken(TokenType.And)], q1, SimpleToken(Equals), [SimpleToken(Equals), SimpleToken(TokenType.And)]);
    Snoc2([LiteralToken("5"), SimpleToken(Equals)] + [LiteralToken("5"), SimpleToken(TokenType.And)], LiteralToken("3"), SimpleToken(Equals),
          Shunt([SimpleToken(TokenType.And)], q0), Shunt([SimpleToken(TokenType.And)], q1), Shunt([SimpleToken(Equals), SimpleToken(TokenType.And)], q1));
  }

  lemma EqAndEqRun3()
    ensures ShuntAll(Shunt([], []), [LiteralToken("5"), SimpleToken(Equals)] + [LiteralToken("5"), SimpleToken(TokenType.And)] + [LiteralToken("3"), SimpleToken(Equals)] + [LiteralToken("2")])
      == Shunt([SimpleToken(Equals), SimpleToken(TokenType.And)], [LiteralToken("5")] + [LiteralToken("5")] + [SimpleToken(Equals)] + [LiteralToken("3")] + [LiteralToken("2")])
  {
    EqAndEqRun2();
    var q0 := [LiteralToken("5")] + [LiteralToken("5")] + [SimpleToken(Equals)] + [LiteralToken("3")];
    var q1 := q0 + [LiteralToken("2")];
    TurnLiteral([SimpleToken(Equals), SimpleToken(TokenType.And)], q0, LiteralToken("2"));
    Snoc1([LiteralToken("5"), SimpleToken(Equals)] + [LiteralToken("5"), SimpleToken(TokenType.And)] + [LiteralToken("3"), SimpleToken(Equals)], LiteralToken("2"),
          Shunt([SimpleToken(Equals), SimpleToken(TokenType.And)], q0), Shunt([SimpleToken(Equals), SimpleToken(TokenType.And)], q1));
  }

  /** `5 = 5 and 3 = 2` becomes `5 5 = 3 2 = and`. */
  lemma EqAndEqPostfix()
    ensures Postfix([LiteralToken("5"), SimpleToken(Equals)]
                    + [LiteralToken("5"), SimpleToken(TokenType.And)]
                    + [LiteralToken("3"), SimpleToken(Equals)]
                    + [LiteralToken("2")])
      == [LiteralToken("5"), LiteralToken("5"), SimpleToken(Equals), LiteralToken("3"), LiteralToken("2"), SimpleToken(Equals), SimpleToken(TokenType.And)]
  {
    EqAndEqRun3();
    PostfixFrom([LiteralToken("5"), SimpleToken(Equals)]
                + [LiteralToken("5"), SimpleToken(TokenType.And)]
                + [LiteralToken("3"), SimpleToken(Equals)]
                + [LiteralToken("2")],
                Shunt([SimpleToken(Equals), SimpleToken(TokenType.And)], [LiteralToken("5")] + [LiteralToken("5")] + [SimpleToken(Equals)] + [LiteralToken("3")] + [LiteralToken("2")]));
  }

  lemma NestedRun0()
    ensures ShuntAll(Shunt([], []), [SimpleToken(OpenParen), SimpleToken(OpenParen)])
      == Shunt([SimpleToken(OpenParen), SimpleToken(OpenParen)], [])
  {
    TurnOpen([], [], SimpleToken(OpenParen), [SimpleToken(OpenParen)]);
    TurnOpen([SimpleToken(OpenParen)], [], SimpleToken(OpenParen), [SimpleToken(OpenParen), SimpleToken(OpenParen)]);
    Turns2(Shunt([], []), SimpleToken(OpenParen), SimpleToken(OpenParen), Shunt([SimpleToken(OpenParen)], []), Shunt([SimpleToken(OpenParen), SimpleToken(OpenParen)], []));
  }

  lemma NestedRun1()
    ensures ShuntAll(Shunt([], []), [SimpleToken(OpenParen), SimpleToken(OpenParen)] + [LiteralToken("1"), SimpleToken(Plus)])
      == Shunt([SimpleToken(Plus), SimpleToken(OpenParen), SimpleToken(OpenParen)], [LiteralToken("1")])
  {
    NestedRun0();
    var q0 := [LiteralToken("1")];
    TurnLiteral([SimpleToken(OpenParen), SimpleToken(OpenParen)], [], LiteralToken("1"));
    TurnPush([SimpleToken(OpenParen), SimpleToken(OpenParen)], q0, SimpleToken(Plus), [SimpleToken(Plus), SimpleToken(OpenParen), SimpleToken(OpenParen)]);
    Snoc2([SimpleToken(OpenParen), SimpleToken(OpenParen)], LiteralToken("1"), SimpleToken(Plus),
          Shunt([SimpleToken(OpenParen), SimpleToken(OpenParen)], []), Shunt([SimpleToken(OpenParen), SimpleToken(OpenParen)], q0), Shunt([SimpleToken(Plus), SimpleToken(OpenParen), SimpleToken(OpenParen)], q0));
  }

  lemma NestedRun2()
    ensures ShuntAll(Shunt([], []), [SimpleToken(OpenParen), SimpleToken(OpenParen)] + [LiteralToken("1"), SimpleToken(Plus)] + [LiteralToken("4"), SimpleToken(CloseParen)])
      == Shunt([SimpleToken(OpenParen)], [LiteralToken("1")] + [LiteralToken("4")] + [SimpleToken(Plus)])
  {
    NestedRun1();
    var q0 := [LiteralToken("1")];
    var q1 := q0 + [LiteralToken("4")];
    TurnLiteral([SimpleToken(Plus), SimpleToken(OpenParen), SimpleToken(OpenParen)], q0, LiteralToken("4"));
    var q2 := q1 + [SimpleToken(Plus)];
    TurnCloseBelowTop([SimpleToken(Plus), SimpleToken(OpenParen), SimpleToken(OpenParen)], q1, SimpleToken(CloseParen), SimpleToken(Plus), [SimpleToken(OpenParen)]);
    Snoc2([SimpleToken(OpenParen), SimpleToken(OpenParen)] + [LiteralToken("1"), SimpleToken(Plus)], LiteralToken("4"), SimpleToken(CloseParen),
          Shunt([SimpleToken(Plus), SimpleToken(OpenParen), SimpleToken(OpenParen)], q0), Shunt([SimpleToken(Plus), SimpleToken(OpenParen), SimpleToken(OpenParen)], q1), Shunt([SimpleToken(OpenParen)], q2));
  }

  lemma NestedRun3()
    ensures ShuntAll(Shunt([], []), [SimpleToken(OpenParen), SimpleToken(OpenParen)] + [LiteralToken("1"), SimpleToken(Plus)] + [LiteralToken("4"), SimpleToken(CloseParen)] + [SimpleToken(Equals), LiteralToken("5")])
      == Shunt([SimpleToken(Equals), SimpleToken(OpenParen)], [LiteralToken("1")] + [LiteralToken("4")] + [SimpleToken(Plus)] + [LiteralToken("5")])
  {
    NestedRun2();
    var q0 := [LiteralToken("1")] + [LiteralToken("4")] + [SimpleToken(Plus)];
    TurnPush([SimpleToken(OpenParen)], q0, SimpleToken(Equals), [SimpleToken(Equals), SimpleToken(OpenParen)]);
    var q1 := q0 + [LiteralToken("5")];
    TurnLiteral([SimpleToken(Equals), SimpleToken(OpenParen)], q0, LiteralToken("5"));
    Snoc2([SimpleToken(OpenParen), SimpleToken(OpenParen)] + [LiteralToken("1"), SimpleToken(Plus)] + [LiteralToken("4"), SimpleToken(CloseParen)], SimpleToken(Equals), LiteralToken("5"),
          Shunt([SimpleToken(OpenParen)], q0), Shunt([SimpleToken(Equals), SimpleToken(OpenParen)], q0), Shunt([SimpleToken(Equals), SimpleToken(OpenParen)], q1));
  }

  lemma NestedRun4()
    ensures ShuntAll(Shunt([], []), [SimpleToken(OpenParen), SimpleToken(OpenParen)] + [LiteralToken("1"), SimpleToken(Plus)] + [LiteralToken("4"), SimpleToken(CloseParen)] + [SimpleToken(Equals), LiteralToken("5")] + [SimpleToken(CloseParen), SimpleToken(TokenType.And)])
      == Shunt([SimpleToken(TokenType.And)], [LiteralToken("1")] + [LiteralToken("4")] + [SimpleToken(Plus)] + [LiteralToken("5")] + [SimpleToken(Equals)])
  {
    NestedRun3();
    var q0 := [LiteralToken("1")] + [LiteralToken("4")] + [SimpleToken(Plus)] + [LiteralToken("5")];
    var q1 := q0 + [SimpleToken(Equals)];
    TurnCloseBelowTop([SimpleToken(Equals), SimpleToken(OpenParen)], q0, SimpleToken(CloseParen), SimpleToken(Equals), []);
    TurnPush([], q1, SimpleToken(TokenType.And), [SimpleToken(TokenType.And)]);
    Snoc2([SimpleToken(OpenParen), SimpleToken(OpenParen)] + [LiteralToken("1"), SimpleToken(Plus)] + [LiteralToken("4"), SimpleToken(CloseParen)] + [SimpleToken(Equals), LiteralToken("5")], SimpleToken(CloseParen), SimpleToken(TokenType.And),
          Shunt([SimpleToken(Equals), SimpleToken(OpenParen)], q0), Shunt([], q1), Shunt([SimpleToken(TokenType.And)], q1));
  }

  lemma NestedRun5()
    ensures ShuntAll(Shunt([], []), [SimpleToken(OpenParen), SimpleToken(OpenParen)] + [LiteralToken("1"), SimpleToken(Plus)] + [LiteralToken("4"), SimpleToken(CloseParen)] + [SimpleToken(Equals), LiteralToken("5")] + [SimpleToken(CloseParen), SimpleToken(TokenType.And)] + [LiteralToken("2"), SimpleToken(Equals)])
      == Shunt([SimpleToken(Equals), SimpleToken(TokenType.And)], [LiteralToken("1")] + [LiteralToken("4")] + [SimpleToken(Plus)] + [LiteralToken("5")] + [SimpleToken(Equals)] + [LiteralToken("2")])
  {
    NestedRun4();
    var q0 := [LiteralToken("1")] + [LiteralToken("4")] + [SimpleToken(Plus)] + [LiteralToken("5")] + [SimpleToken(Equals)];
    var q1 := q0 + [LiteralToken("2")];
    TurnLiteral([SimpleToken(TokenType.And)], q0, LiteralToken("2"));
    TurnPush([SimpleToken(TokenType.And)], q1, SimpleToken(Equals), [SimpleToken(Equals), SimpleToken(TokenType.And)]);
    Snoc2([SimpleToken(OpenParen), SimpleToken(OpenParen)] + [LiteralToken("1"), SimpleToken(Plus)] + [LiteralToken("4"), SimpleToken(CloseParen)] + [SimpleToken(Equals), LiteralToken("5")] + [SimpleToken(CloseParen), SimpleToken(TokenType.And)], LiteralToken("2"), SimpleToken(Equals),
          Shunt([SimpleToken(TokenType.And)], q0), Shunt([SimpleToken(TokenType.And)], q1), Shunt([SimpleToken(Equals), SimpleToken(TokenType.And)], q1));
  }

  lemma NestedRun6()
    ensures ShuntAll(Shunt([], []), [SimpleToken(OpenParen), SimpleToken(OpenParen)] + [LiteralToken("1"), SimpleToken(Plus)] + [LiteralToken("4"), SimpleToken(CloseParen)] + [SimpleToken(Equals), LiteralToken("5")] + [SimpleToken(CloseParen), SimpleToken(TokenType.And)] + [LiteralToken("2"), SimpleToken(Equals)] + [LiteralToken("2")])
      == Shunt([SimpleToken(Equals), SimpleToken(TokenType.And)], [LiteralToken("1")] + [LiteralToken("4")] + [SimpleToken(Plus)] + [LiteralToken("5")] + [SimpleToken(Equals)] + [LiteralToken("2")] + [LiteralToken("2")])
  {
    NestedRun5();
    var q0 := [LiteralToken("1")] + [LiteralToken("4")] + [SimpleToken(Plus)] + [LiteralToken("5")] + [SimpleToken(Equals)] + [LiteralToken("2")];
    var q1 := q0 + [LiteralToken("2")];
    TurnLiteral([SimpleToken(Equals), SimpleToken(TokenType.And)], q0, LiteralToken("2"));
    Snoc1([SimpleToken(OpenParen), SimpleToken(OpenParen)] + [LiteralToken("1"), SimpleToken(Plus)] + [LiteralToken("4"), SimpleToken(CloseParen)] + [SimpleToken(Equals), LiteralToken("5")] + [SimpleToken(CloseParen), SimpleToken(TokenType.And)] + [LiteralToken("2"), SimpleToken(Equals)], LiteralToken("2"),
          Shunt([SimpleToken(Equals), SimpleToken(TokenType.And)], q0), Shunt([SimpleToken(Equals), SimpleToken(TokenType.And)], q1));
  }

  /** `((1 +4)  = 5) and 2 = 2` becomes `1 4 + 5 = 2 2 = and`. */
  lemma NestedPostfix()
    ensures Postfix([SimpleToken(OpenParen), SimpleToken(OpenParen)]
                    + [LiteralToken("1"), SimpleToken(Plus)]
                    + [LiteralToken("4"), SimpleToken(CloseParen)]
                    + [SimpleToken(Equals), LiteralToken("5")]
                    + [SimpleToken(CloseParen), SimpleToken(TokenType.And)]
                    + [LiteralToken("2"), SimpleToken(Equals)]
                    + [LiteralToken("2")])
      == [LiteralToken("1"), LiteralToken("4"), SimpleToken(Plus), LiteralToken("5"), SimpleToken(Equals), LiteralToken("2"), LiteralToken("2"), SimpleToken(Equals), SimpleToken(TokenType.And)]
  {
    NestedRun6();
    PostfixFrom([SimpleToken(OpenParen), SimpleToken(OpenParen)]
                + [LiteralToken("1"), SimpleToken(Plus)]
                + [LiteralToken("4"), SimpleToken(CloseParen)]
                + [SimpleToken(Equals), LiteralToken("5")]
                + [SimpleToken(CloseParen), SimpleToken(TokenType.And)]
                + [LiteralToken("2"), SimpleToken(Equals)]
                + [LiteralToken("2")],
                Shunt([SimpleToken(Equals), SimpleToken(TokenType.And)], [LiteralToken("1")] + [LiteralToken("4")] + [SimpleToken(Plus)] + [LiteralToken("5")] + [SimpleToken(Equals)] + [LiteralToken("2")] + [LiteralToken("2")]));
  }

  lemma QuirkRun0()
    ensures ShuntAll(Shunt([], []), [LiteralToken("1"), SimpleToken(TokenType.And)])
      == Shunt([SimpleToken(TokenType.And)], [LiteralToken("1")])
  {
    var q0 := [LiteralToken("1")];
    TurnLiteral([], [], LiteralToken("1"));
    TurnPush([], q0, SimpleToken(TokenType.And), [SimpleToken(TokenType.And)]);
    Turns2(Shunt([], []), LiteralToken("1"), SimpleToken(TokenType.And), Shunt([], q0), Shunt([SimpleToken(TokenType.And)], q0));
  }

  lemma QuirkRun1()
    ensures ShuntAll(Shunt([], []), [LiteralToken("1"), SimpleToken(TokenType.And)] + [LiteralToken("2"), SimpleToken(Mult)])
      == Shunt([SimpleToken(Mult), SimpleToken(TokenType.And)], [LiteralToken("1")] + [LiteralToken("2")])
  {
    QuirkRun0();
    var q0 := [LiteralToken("1")];
    var q1 := q0 + [LiteralToken("2")];
    TurnLiteral([SimpleToken(TokenType.And)], q0, LiteralToken("2"));
    TurnPush([SimpleToken(TokenType.And)], q1, SimpleToken(Mult), [SimpleToken(Mult), SimpleToken(TokenType.And)]);
    Snoc2([LiteralToken("1"), SimpleToken(TokenType.And)], LiteralToken("2"), SimpleToken(Mult),
          Shunt([SimpleToken(TokenType.And)], q0), Shunt([SimpleToken(TokenType.And)], q1), Shunt([SimpleToken(Mult), SimpleToken(TokenType.And)], q1));
  }

  lemma QuirkRun2()
    ensures ShuntAll(Shunt([], []), [LiteralToken("1"), SimpleToken(TokenType.And)] + [LiteralToken("2"), SimpleToken(Mult)] + [LiteralToken("3"), SimpleToken(Plus)])
      == Shunt([SimpleToken(Plus)], [LiteralToken("1")] + [LiteralToken("2")] + [LiteralToken("3")] + [SimpleToken(Mult)] + [SimpleToken(TokenType.And)])
  {
    QuirkRun1();
    var q0 := [LiteralToken("1")] + [LiteralToken("2")];
    var q1 := q0 + [LiteralToken("3")];
    TurnLiteral([SimpleToken(Mult), SimpleToken(TokenType.And)], q0, LiteralToken("3"));
    var q2 := q1 + [SimpleToken(Mult)] + [SimpleToken(TokenType.And)];
    TurnPopTwo([SimpleToken(Mult), SimpleToken(TokenType.And)], q1, SimpleToken(Plus), SimpleToken(Mult), SimpleToken(TokenType.And), [SimpleToken(Plus)]);
    Snoc2([LiteralToken("1"), SimpleToken(TokenType.And)] + [LiteralToken("2"), SimpleToken(Mult)], LiteralToken("3"), SimpleToken(Plus),
          Shunt([SimpleToken(Mult), SimpleToken(TokenType.And)], q0), Shunt([SimpleToken(Mult), SimpleToken(TokenType.And)], q1), Shunt([SimpleToken(Plus)], q2));
  }

  lemma QuirkRun3()
    ensures ShuntAll(Shunt([], []), [LiteralToken("1"), SimpleToken(TokenType.And)] + [LiteralToken("2"), SimpleToken(Mult)] + [LiteralToken("3"), SimpleToken(Plus)] + [LiteralToken("4")])
      == Shunt([SimpleToken(Plus)], [LiteralToken("1")] + [LiteralToken("2")] + [LiteralToken("3")] + [SimpleToken(Mult)] + [SimpleToken(TokenType.And)] + [LiteralToken("4")])
  {
    QuirkRun2();
    var q0 := [LiteralToken("1")] + [LiteralToken("2")] + [LiteralToken("3")] + [SimpleToken(Mult)] + [SimpleToken(TokenType.And)];
    var q1 := q0 + [LiteralToken("4")];
    TurnLiteral([SimpleToken(Plus)], q0, LiteralToken("4"));
    Snoc1([LiteralToken("1"), SimpleToken(TokenType.And)] + [LiteralToken("2"), SimpleToken(Mult)] + [LiteralToken("3"), SimpleToken(Plus)], LiteralToken("4"),
          Shunt([SimpleToken(Plus)], q0), Shunt([SimpleToken(Plus)], q1));
  }

  /** `1 and 2 * 3 + 4`: popping `*` for `+` compares `+` against the precedence of `*`, the token just popped, so `and` below it is popped too, and `+` ends up applied to the conjunction: `1 2 3 * and 4 +`, where precedence climbing gives `1 2 3 * 4 + and`. */
  lemma QuirkPostfix()
    ensures Postfix([LiteralToken("1"), SimpleToken(TokenType.And)]
                    + [LiteralToken("2"), SimpleToken(Mult)]
                    + [LiteralToken("3"), SimpleToken(Plus)]
                    + [LiteralToken("4")])
      == [LiteralToken("1"), LiteralToken("2"), LiteralToken("3"), SimpleToken(Mult), SimpleToken(TokenType.And), LiteralToken("4"), SimpleToken(Plus)]
  {
    QuirkRun3();
    PostfixFrom([LiteralToken("1"), SimpleToken(TokenType.And)]
                + [LiteralToken("2"), SimpleToken(Mult)]
                + [LiteralToken("3"), SimpleToken(Plus)]
                + [LiteralToken("4")],
                Shunt([SimpleToken(Plus)], [LiteralToken("1")] + [LiteralToken("2")] + [LiteralToken("3")] + [SimpleToken(Mult)] + [SimpleToken(TokenType.And)] + [LiteralToken("4")]));
  }

  lemma ParenGreaterRun0()
    ensures ShuntAll(Shunt([], []), [SimpleToken(OpenParen), LiteralToken("5")])
      == Shunt([SimpleToken(OpenParen)], [LiteralToken("5")])
  {
    TurnOpen([], [], SimpleToken(OpenParen), [SimpleToken(OpenParen)]);
    TurnLiteral([SimpleToken(OpenParen)], [], LiteralToken("5"));
    Turns2(Shunt([], []), SimpleToken(OpenParen), LiteralToken("5"), Shunt([SimpleToken(OpenParen)], []), Shunt([SimpleToken(OpenParen)], [LiteralToken("5")]));
  }

  lemma ParenGreaterRun1()
    ensures ShuntAll(Shunt([], []), [SimpleToken(OpenParen), LiteralToken("5")] + [SimpleToken(GreaterThan), LiteralToken("3")])
      == Shunt([SimpleToken(GreaterThan)], [LiteralToken("5")] + [SimpleToken(OpenParen)] + [LiteralToken("3")])
  {
    ParenGreaterRun0();
    var q0 := [LiteralToken("5")];
    var q1 := q0 + [SimpleToken(OpenParen)];
    TurnPopOne([SimpleToken(OpenParen)], q0, SimpleToken(GreaterThan), SimpleToken(OpenParen), [SimpleToken(GreaterThan)]);
    TurnLiteral([SimpleToken(GreaterThan)], q1, LiteralToken("3"));
    Snoc2([SimpleToken(OpenParen), LiteralToken("5")], SimpleToken(GreaterThan), LiteralToken("3"),
          Shunt([SimpleToken(OpenParen)], q0), Shunt([SimpleToken(GreaterThan)], q1), Shunt([SimpleToken(GreaterThan)], q1 + [LiteralToken("3")]));
  }

  lemma ParenGreaterRun2()
    ensures ShuntAll(Shunt([], []), [SimpleToken(OpenParen), LiteralToken("5")] + [SimpleToken(GreaterThan), LiteralToken("3")] + [SimpleToken(CloseParen)])
      == Shunt([], [LiteralToken("5")] + [SimpleToken(OpenParen)] + [LiteralToken("3")] + [SimpleToken(GreaterThan)])
  {
    ParenGreaterRun1();
    var q0 := [LiteralToken("5")] + [SimpleToken(OpenParen)] + [LiteralToken("3")];
    TurnCloseUnmatched([SimpleToken(GreaterThan)], q0, SimpleToken(CloseParen));
    Snoc1([SimpleToken(OpenParen), LiteralToken("5")] + [SimpleToken(GreaterThan), LiteralToken("3")], SimpleToken(CloseParen),
          Shunt([SimpleToken(GreaterThan)], q0), Shunt([], q0 + [SimpleToken(GreaterThan)]));
  }

  /** `(5 > 3)`: a comparison has precedence 0, the same as `(`, so it pops the `(` onto the queue; the `)` then finds no `(` and only pops `>`, giving `5 ( 3 >`. */
  lemma ParenGreaterPostfix()
    ensures Postfix([SimpleToken(OpenParen), LiteralToken("5")]
                    + [SimpleToken(GreaterThan), LiteralToken("3")]
                    + [SimpleToken(CloseParen)])
      == [LiteralToken("5"), SimpleToken(OpenParen), LiteralToken("3"), SimpleToken(GreaterThan)]
  {
    ParenGreaterRun2();
    PostfixFrom([SimpleToken(OpenParen), LiteralToken("5")]
                + [SimpleToken(GreaterThan), LiteralToken("3")]
                + [SimpleToken(CloseParen)],
                Shunt([], [LiteralToken("5")] + [SimpleToken(OpenParen)] + [LiteralToken("3")] + [SimpleToken(GreaterThan)]));
  }

  lemma ParenSumRun0()
    ensures ShuntAll(Shunt([], []), [SimpleToken(OpenParen), LiteralToken("2")])
      == Shunt([SimpleToken(OpenParen)], [LiteralToken("2")])
  {
    TurnOpen([], [], SimpleToken(OpenParen), [SimpleToken(OpenParen)]);
    TurnLiteral([SimpleToken(OpenParen)], [], LiteralToken("2"));
    Turns2(Shunt([], []), SimpleToken(OpenParen), LiteralToken("2"), Shunt([SimpleToken(OpenParen)], []), Shunt([SimpleToken(OpenParen)], [LiteralToken("2")]));
  }

  lemma ParenSumRun1()
    ensures ShuntAll(Shunt([], []), [SimpleToken(OpenParen), LiteralToken("2")] + [SimpleToken(Mult), LiteralToken("3")])
      == Shunt([SimpleToken(Mult), SimpleToken(OpenParen)], [LiteralToken("2")] + [LiteralToken("3")])
  {
    ParenSumRun0();
    var q0 := [LiteralToken("2")];
    TurnPush([SimpleToken(OpenParen)], q0, SimpleToken(Mult), [SimpleToken(Mult), SimpleToken(OpenParen)]);
    TurnLiteral([SimpleToken(Mult), SimpleToken(OpenParen)], q0, LiteralToken("3"));
    Snoc2([SimpleToken(OpenParen), LiteralToken("2")], SimpleToken(Mult), LiteralToken("3"),
          Shunt([SimpleToken(OpenParen)], q0), Shunt([SimpleToken(Mult), SimpleToken(OpenParen)], q0), Shunt([SimpleToken(Mult), SimpleToken(OpenParen)], q0 + [LiteralToken("3")]));
  }

  lemma ParenSumRun2()
    ensures ShuntAll(Shunt([], []), [SimpleToken(OpenParen), LiteralToken("2")] + [SimpleToken(Mult), LiteralToken("3")] + [SimpleToken(Plus), LiteralToken("4")])
      == Shunt([SimpleToken(Plus)], [LiteralToken("2")] + [LiteralToken("3")] + [SimpleToken(Mult)] + [SimpleToken(OpenParen)] + [LiteralToken("4")])
  {
    ParenSumRun1();
    var q0 := [LiteralToken("2")] + [LiteralToken("3")];
    var q1 := q0 + [SimpleToken(Mult)] + [SimpleToken(OpenParen)];
    TurnPopTwo([SimpleToken(Mult), SimpleToken(OpenParen)], q0, SimpleToken(Plus), SimpleToken(Mult), SimpleToken(OpenParen), [SimpleToken(Plus)]);
    TurnLiteral([SimpleToken(Plus)], q1, LiteralToken("4"));
    Snoc2([SimpleToken(OpenParen), LiteralToken("2")] + [SimpleToken(Mult), LiteralToken("3")], SimpleToken(Plus), LiteralToken("4"),
          Shunt([SimpleToken(Mult), SimpleToken(OpenParen)], q0), Shunt([SimpleToken(Plus)], q1), Shunt([SimpleToken(Plus)], q1 + [LiteralToken("4")]));
  }

  lemma ParenSumRun3()
    ensures ShuntAll(Shunt([], []), [SimpleToken(OpenParen), LiteralToken("2")] + [SimpleToken(Mult), LiteralToken("3")] + [SimpleToken(Plus), LiteralToken("4")] + [SimpleToken(CloseParen)])
      == Shunt([], [LiteralToken("2")] + [LiteralToken("3")] + [SimpleToken(Mult)] + [SimpleToken(OpenParen)] + [LiteralToken("4")] + [SimpleToken(Plus)])
  {
    ParenSumRun2();
    var q0 := [LiteralToken("2")] + [LiteralToken("3")] + [SimpleToken(Mult)] + [SimpleToken(OpenParen)] + [LiteralToken("4")];
    TurnCloseUnmatched([SimpleToken(Plus)], q0, SimpleToken(CloseParen));
    Snoc1([SimpleToken(OpenParen), LiteralToken("2")] + [SimpleToken(Mult), LiteralToken("3")] + [SimpleToken(Plus), LiteralToken("4")], SimpleToken(CloseParen),
          Shunt([SimpleToken(Plus)], q0), Shunt([], q0 + [SimpleToken(Plus)]));
  }

  /** `(2 * 3 + 4)`: `+` pops `*` and then, since its precedence is below that of `*`, the `(` as well; the `)` then finds no `(` and pops `+`, giving `2 3 * ( 4 +`. */
  lemma ParenSumPostfix()
    ensures Postfix([SimpleToken(OpenParen), LiteralToken("2")]
                    + [SimpleToken(Mult), LiteralToken("3")]
                    + [SimpleToken(Plus), LiteralToken("4")]
                    + [SimpleToken(CloseParen)])
      == [LiteralToken("2"), LiteralToken("3"), SimpleToken(Mult), SimpleToken(OpenParen), LiteralToken("4"), SimpleToken(Plus)]
  {
    ParenSumRun3();
    PostfixFrom([SimpleToken(OpenParen), LiteralToken("2")]
                + [SimpleToken(Mult), LiteralToken("3")]
                + [SimpleToken(Plus), LiteralToken("4")]
                + [SimpleToken(CloseParen)],
                Shunt([], [LiteralToken("2")] + [LiteralToken("3")] + [SimpleToken(Mult)] + [SimpleToken(OpenParen)] + [LiteralToken("4")] + [SimpleToken(Plus)]));
  }

  /** A line whose postfix form is the postfix form of the tree `e`
      evaluates to the value of `e`. */
  lemma EvalThrough(ts: seq<Token>, pf: seq<Token>, e: Tree, v: Token)
    requires Postfix(ts) == pf && PostfixOf(e) == pf && WellFormedTree(e) && Denote(e) == Value(v)
    ensures EvalPostfix(Postfix(ts)) == Value([v])
  {
    EvalTreeValue(e);
  }

  // ----- one turn of the loop, by the kind of the token -----

  lemma TurnLiteral(stack: seq<Token>, queue: seq<Token>, t: Token)
    requires t.tokType == Literal
    ensures ShuntToken(Shunt(stack, queue), t) == Shunt(stack, queue + [t])
  {
  }

  lemma TurnOpen(stack: seq<Token>, queue: seq<Token>, t: Token, next: seq<Token>)
    requires t.tokType == OpenParen && next == [t] + stack
    ensures ShuntToken(Shunt(stack, queue), t) == Shunt(next, queue)
  {
  }

  /** A `CloseParen` right above its `OpenParen` drops it. */
  lemma TurnCloseAtTop(stack: seq<Token>, queue: seq<Token>, t: Token, next: seq<Token>)
    requires t.tokType == CloseParen && stack != [] && stack[0].tokType == OpenParen
    requires next == stack[1..]
    ensures ShuntToken(Shunt(stack, queue), t) == Shunt(next, queue)
  {
    assert Move(Shunt(stack, queue), 0) == Shunt(stack, queue);
  }

  /** A `CloseParen` one token above its `OpenParen` moves that token. */
  lemma TurnCloseBelowTop(stack: seq<Token>, queue: seq<Token>, t: Token, top: Token, next: seq<Token>)
    requires t.tokType == CloseParen && |stack| >= 2 && stack[0] == top
    requires top.tokType != OpenParen && stack[1].tokType == OpenParen
    requires next == stack[2..]
    ensures ShuntToken(Shunt(stack, queue), t) == Shunt(next, queue + [top])
  {
    assert OpenIndex(stack) == 1;
    assert stack[1..][1..] == stack[2..];
    assert stack[..1] == [top];
  }

  /** A `CloseParen` with no `OpenParen` below it moves the whole stack. */
  lemma TurnCloseUnmatched(stack: seq<Token>, queue: seq<Token>, t: Token)
    requires t.tokType == CloseParen && |stack| == 1 && stack[0].tokType != OpenParen
    ensures ShuntToken(Shunt(stack, queue), t) == Shunt([], queue + stack)
  {
    assert OpenIndex(stack) == 1;
    assert stack[..1] == stack;
  }

  /** An operator that outranks the top is pushed without popping. */
  lemma TurnPush(stack: seq<Token>, queue: seq<Token>, t: Token, next: seq<Token>)
    requires t.tokType !in {Literal, OpenParen, CloseParen}
    requires stack == [] || Precedence(t) > Precedence(stack[0])
    requires next == [t] + stack
    ensures ShuntToken(Shunt(stack, queue), t) == Shunt(next, queue)
  {
    assert Move(Shunt(stack, queue), 0) == Shunt(stack, queue);
  }

  /** An operator that pops the top and nothing more. */
  lemma TurnPopOne(stack: seq<Token>, queue: seq<Token>, t: Token, top: Token, next: seq<Token>)
    requires t.tokType !in {Literal, OpenParen, CloseParen}
    requires stack != [] && stack[0] == top && Precedence(t) <= Precedence(top)
    requires |stack| == 1 || Precedence(t) >= Precedence(top)
    requires next == [t] + stack[1..]
    ensures ShuntToken(Shunt(stack, queue), t) == Shunt(next, queue + [top])
  {
    assert PopCount(stack[1..], Precedence(t), Precedence(top)) == 0;
    assert stack[..1] == [top];
  }

  /** An operator that pops the top and the token below it. */
  lemma TurnPopTwo(stack: seq<Token>, queue: seq<Token>, t: Token, a: Token, b: Token, next: seq<Token>)
    requires t.tokType !in {Literal, OpenParen, CloseParen}
    requires |stack| >= 2 && stack[0] == a && stack[1] == b && Precedence(t) < Precedence(a)
    requires |stack| == 2 || Precedence(t) >= Precedence(b)
    requires next == [t] + stack[2..]
    ensures ShuntToken(Shunt(stack, queue), t) == Shunt(next, queue + [a] + [b])
  {
    assert stack[1..][1..] == stack[2..];
    assert PopCount(stack[2..], Precedence(t), Precedence(b)) == 0;
    assert stack[..2] == [a, b];
  }

  lemma Turns1(st: Shunt, t1: Token, s1: Shunt)
    requires ShuntToken(st, t1) == s1
    ensures ShuntAll(st, [t1]) == s1
  {
    assert [t1][1..] == [];
  }

  lemma Turns2(st: Shunt, t1: Token, t2: Token, s1: Shunt, s2: Shunt)
    requires ShuntToken(st, t1) == s1 && ShuntToken(s1, t2) == s2
    ensures ShuntAll(st, [t1, t2]) == s2
  {
    assert [t1, t2][1..] == [t2];
    Turns1(s1, t2, s2);
  }

  /** The loop over a line extended by one token. */
  lemma Snoc1(prefix: seq<Token>, t1: Token, mid: Shunt, s1: Shunt)
    requires ShuntAll(Shunt([], []), prefix) == mid && ShuntToken(mid, t1) == s1
    ensures ShuntAll(Shunt([], []), prefix + [t1]) == s1
  {
    ShuntAllAppend(Shunt([], []), prefix, [t1]);
    Turns1(mid, t1, s1);
  }

  /** The loop over a line extended by two tokens. */
  lemma Snoc2(prefix: seq<Token>, t1: Token, t2: Token, mid: Shunt, s1: Shunt, s2: Shunt)
    requires ShuntAll(Shunt([], []), prefix) == mid && ShuntToken(mid, t1) == s1 && ShuntToken(s1, t2) == s2
    ensures ShuntAll(Shunt([], []), prefix + [t1, t2]) == s2
  {
    ShuntAllAppend(Shunt([], []), prefix, [t1, t2]);
    Turns2(mid, t1, t2, s1, s2);
  }

  /** The postfix form from the state the loop leaves. */
  lemma PostfixFrom(ts: seq<Token>, fin: Shunt)
    requires ShuntAll(Shunt([], []), ts) == fin
    ensures Postfix(ts) == fin.queue + fin.stack
  {
  }

  /** A leaf holding an integer literal. */
  function Int(x: int): (e: Tree)
    ensures e.Leaf? && e.operand == IntLiteral(x)
  {
    Leaf(IntLiteral(x))
  }

  // ----- the values of the examples' trees -----

  /** `(5 + 7) or (3 * 5)`: 12 and 15 are both non-zero. */
  lemma SumOrProductTree()
    ensures Denote(Node(Node(Int(5), SimpleToken(Plus), Int(7)), SimpleToken(TokenType.Or), Node(Int(3), SimpleToken(Mult), Int(5))))
      == Value(BoolLiteral(true))
  {
    OperateSum(5, 7);
    assert Denote(Node(Int(5), SimpleToken(Plus), Int(7))) == Value(IntLiteral(12));
    OperateProduct(3, 5);
    assert Denote(Node(Int(3), SimpleToken(Mult), Int(5))) == Value(IntLiteral(15));
    OperateIntLogical(12, 15, TokenType.Or);
  }

  lemma SumOrProductShape()
    ensures WellFormedTree(Node(Node(Int(5), SimpleToken(Plus), Int(7)), SimpleToken(TokenType.Or), Node(Int(3), SimpleToken(Mult), Int(5))))
    ensures PostfixOf(Node(Node(Int(5), SimpleToken(Plus), Int(7)), SimpleToken(TokenType.Or), Node(Int(3), SimpleToken(Mult), Int(5))))
      == [LiteralToken("5"), LiteralToken("7"), SimpleToken(Plus), LiteralToken("3"), LiteralToken("5"), SimpleToken(Mult), SimpleToken(TokenType.Or)]
  {
    OneDigitTexts();
  }

  /** `(3 - 5) * 12` is -24. */
  lemma ParenTimesTree()
    ensures Denote(Node(Node(Int(3), SimpleToken(Minus), Int(5)), SimpleToken(Mult), Int(12)))
      == Value(IntLiteral(-24))
  {
    OperateDifference(3, 5);
    assert Denote(Node(Int(3), SimpleToken(Minus), Int(5))) == Value(IntLiteral(-2));
    OperateProduct(-2, 12);
  }

  lemma ParenTimesShape()
    ensures WellFormedTree(Node(Node(Int(3), SimpleToken(Minus), Int(5)), SimpleToken(Mult), Int(12)))
    ensures PostfixOf(Node(Node(Int(3), SimpleToken(Minus), Int(5)), SimpleToken(Mult), Int(12)))
      == [LiteralToken("3"), LiteralToken("5"), SimpleToken(Minus), LiteralToken("12"), SimpleToken(Mult)]
  {
    OneDigitTexts();
    TwoDigitTexts();
  }

  /** `(5 = 5) and (3 = 2)` is false. */
  lemma EqAndEqTree()
    ensures Denote(Node(Node(Int(5), SimpleToken(Equals), Int(5)), SimpleToken(TokenType.And), Node(Int(3), SimpleToken(Equals), Int(2))))
      == Value(BoolLiteral(false))
  {
    OperateEquals(5, 5);
    assert Denote(Node(Int(5), SimpleToken(Equals), Int(5))) == Value(BoolLiteral(true));
    OperateEquals(3, 2);
    assert Denote(Node(Int(3), SimpleToken(Equals), Int(2))) == Value(BoolLiteral(false));
    OperateBoolAnd(true, false);
  }

  lemma EqAndEqShape()
    ensures WellFormedTree(Node(Node(Int(5), SimpleToken(Equals), Int(5)), SimpleToken(TokenType.And), Node(Int(3), SimpleToken(Equals), Int(2))))
    ensures PostfixOf(Node(Node(Int(5), SimpleToken(Equals), Int(5)), SimpleToken(TokenType.And), Node(Int(3), SimpleToken(Equals), Int(2))))
      == [LiteralToken("5"), LiteralToken("5"), SimpleToken(Equals), LiteralToken("3"), LiteralToken("2"), SimpleToken(Equals), SimpleToken(TokenType.And)]
  {
    OneDigitTexts();
  }

  /** `((1 + 4) = 5) and (2 = 2)` is true. */
  lemma NestedTree()
    ensures Denote(Node(Node(Node(Int(1), SimpleToken(Plus), Int(4)), SimpleToken(Equals), Int(5)), SimpleToken(TokenType.And), Node(Int(2), SimpleToken(Equals), Int(2))))
      == Value(BoolLiteral(true))
  {
    OperateSum(1, 4);
    assert Denote(Node(Int(1), SimpleToken(Plus), Int(4))) == Value(IntLiteral(5));
    OperateEquals(5, 5);
    assert Denote(Node(Node(Int(1), SimpleToken(Plus), Int(4)), SimpleToken(Equals), Int(5))) == Value(BoolLiteral(true));
    OperateEquals(2, 2);
    assert Denote(Node(Int(2), SimpleToken(Equals), Int(2))) == Value(BoolLiteral(true));
    OperateBoolAnd(true, true);
  }

  lemma NestedShape()
    ensures WellFormedTree(Node(Node(Node(Int(1), SimpleToken(Plus), Int(4)), SimpleToken(Equals), Int(5)), SimpleToken(TokenType.And), Node(Int(2), SimpleToken(Equals), Int(2))))
    ensures PostfixOf(Node(Node(Node(Int(1), SimpleToken(Plus), Int(4)), SimpleToken(Equals), Int(5)), SimpleToken(TokenType.And), Node(Int(2), SimpleToken(Equals), Int(2))))
      == [LiteralToken("1"), LiteralToken("4"), SimpleToken(Plus), LiteralToken("5"), SimpleToken(Equals), LiteralToken("2"), LiteralToken("2"), SimpleToken(Equals), SimpleToken(TokenType.And)]
  {
    OneDigitTexts();
  }

  /** `(1 and (2 * 3)) + 4`: `+` applied to the conjunction yields the text `Undefined`. */
  lemma QuirkTree()
    ensures Denote(Node(Node(Int(1), SimpleToken(TokenType.And), Node(Int(2), SimpleToken(Mult), Int(3))), SimpleToken(Plus), Int(4)))
      == Value(LiteralWith(Some("Undefined")))
  {
    OperateProduct(2, 3);
    assert Denote(Node(Int(2), SimpleToken(Mult), Int(3))) == Value(IntLiteral(6));
    OperateIntLogical(1, 6, TokenType.And);
    assert Denote(Node(Int(1), SimpleToken(TokenType.And), Node(Int(2), SimpleToken(Mult), Int(3)))) == Value(BoolLiteral(true));
    OperateBoolPlus(true, 4);
  }

  lemma QuirkShape()
    ensures WellFormedTree(Node(Node(Int(1), SimpleToken(TokenType.And), Node(Int(2), SimpleToken(Mult), Int(3))), SimpleToken(Plus), Int(4)))
    ensures PostfixOf(Node(Node(Int(1), SimpleToken(TokenType.And), Node(Int(2), SimpleToken(Mult), Int(3))), SimpleToken(Plus), Int(4)))
      == [LiteralToken("1"), LiteralToken("2"), LiteralToken("3"), SimpleToken(Mult), SimpleToken(TokenType.And), LiteralToken("4"), SimpleToken(Plus)]
  {
    OneDigitTexts();
  }

  /** `1 and ((2 * 3) + 4)`, the grouping precedence climbing gives, is true. */
  lemma IntendedTree()
    ensures Denote(Node(Int(1), SimpleToken(TokenType.And), Node(Node(Int(2), SimpleToken(Mult), Int(3)), SimpleToken(Plus), Int(4))))
      == Value(BoolLiteral(true))
  {
    OperateProduct(2, 3);
    assert Denote(Node(Int(2), SimpleToken(Mult), Int(3))) == Value(IntLiteral(6));
    OperateSum(6, 4);
    assert Denote(Node(Node(Int(2), SimpleToken(Mult), Int(3)), SimpleToken(Plus), Int(4))) == Value(IntLiteral(10));
    OperateIntLogical(1, 10, TokenType.And);
  }

  lemma IntendedShape()
    ensures WellFormedTree(Node(Int(1), SimpleToken(TokenType.And), Node(Node(Int(2), SimpleToken(Mult), Int(3)), SimpleToken(Plus), Int(4))))
    ensures PostfixOf(Node(Int(1), SimpleToken(TokenType.And), Node(Node(Int(2), SimpleToken(Mult), Int(3)), SimpleToken(Plus), Int(4))))
      == [LiteralToken("1"), LiteralToken("2"), LiteralToken("3"), SimpleToken(Mult), LiteralToken("4"), SimpleToken(Plus), SimpleToken(TokenType.And)]
  {
    OneDigitTexts();
  }

  // ----- the lines of the tests, end to end -----

  /** `test_eval_postfix_1`: `5+ 7 or 3 * 5` evaluates to `true`. */
  lemma SumOrProductEval()
    ensures EvalPostfix(Postfix([LiteralToken("5"), SimpleToken(Plus)]
                              + [LiteralToken("7"), SimpleToken(TokenType.Or)]
                              + [LiteralToken("3"), SimpleToken(Mult)]
                              + [LiteralToken("5")]))
      == Value([LiteralToken("true")])
  {
    SumOrProductPostfix();
    SumOrProductShape();
    SumOrProductTree();
    BooleanTexts();
    EvalThrough([LiteralToken("5"), SimpleToken(Plus)]
                              + [LiteralToken("7"), SimpleToken(TokenType.Or)]
                              + [LiteralToken("3"), SimpleToken(Mult)]
                              + [LiteralToken("5")],
                [LiteralToken("5"), LiteralToken("7"), SimpleToken(Plus), LiteralToken("3"), LiteralToken("5"), SimpleToken(Mult), SimpleToken(TokenType.Or)],
                Node(Node(Int(5), SimpleToken(Plus), Int(7)), SimpleToken(TokenType.Or), Node(Int(3), SimpleToken(Mult), Int(5))), BoolLiteral(true));
  }

  /** `test_eval_postfix_2`: `(3 - 5) * 12` evaluates to `-24`. */
  lemma ParenTimesEval()
    ensures EvalPostfix(Postfix([SimpleToken(OpenParen), LiteralToken("3")]
                              + [SimpleToken(Minus), LiteralToken("5")]
                              + [SimpleToken(CloseParen), SimpleToken(Mult)]
                              + [LiteralToken("12")]))
      == Value([LiteralToken("-24")])
  {
    ParenTimesPostfix();
    ParenTimesShape();
    ParenTimesTree();
    NegativeTexts();
    EvalThrough([SimpleToken(OpenParen), LiteralToken("3")]
                              + [SimpleToken(Minus), LiteralToken("5")]
                              + [SimpleToken(CloseParen), SimpleToken(Mult)]
                              + [LiteralToken("12")],
                [LiteralToken("3"), LiteralToken("5"), SimpleToken(Minus), LiteralToken("12"), SimpleToken(Mult)],
                Node(Node(Int(3), SimpleToken(Minus), Int(5)), SimpleToken(Mult), Int(12)), IntLiteral(-24));
  }

  /** `test_eval_postfix_7`: `5 = 5 and 3 = 2` evaluates to `false`. */
  lemma EqAndEqEval()
    ensures EvalPostfix(Postfix([LiteralToken("5"), SimpleToken(Equals)]
                              + [LiteralToken("5"), SimpleToken(TokenType.And)]
                              + [LiteralToken("3"), SimpleToken(Equals)]
                              + [LiteralToken("2")]))
      == Value([LiteralToken("false")])
  {
    EqAndEqPostfix();
    EqAndEqShape();
    EqAndEqTree();
    BooleanTexts();
    EvalThrough([LiteralToken("5"), SimpleToken(Equals)]
                              + [LiteralToken("5"), SimpleToken(TokenType.And)]
                              + [LiteralToken("3"), SimpleToken(Equals)]
                              + [LiteralToken("2")],
                [LiteralToken("5"), LiteralToken("5"), SimpleToken(Equals), LiteralToken("3"), LiteralToken("2"), SimpleToken(Equals), SimpleToken(TokenType.And)],
                Node(Node(Int(5), SimpleToken(Equals), Int(5)), SimpleToken(TokenType.And), Node(Int(3), SimpleToken(Equals), Int(2))), BoolLiteral(false));
  }

  /** `test_eval_postfix_8`: `((1 +4)  = 5) and 2 = 2` evaluates to `true`. */
  lemma NestedEval()
    ensures EvalPostfix(Postfix([SimpleToken(OpenParen), SimpleToken(OpenParen)]
                              + [LiteralToken("1"), SimpleToken(Plus)]
                              + [LiteralToken("4"), SimpleToken(CloseParen)]
                              + [SimpleToken(Equals), LiteralToken("5")]
                              + [SimpleToken(CloseParen), SimpleToken(TokenType.And)]
                              + [LiteralToken("2"), SimpleToken(Equals)]
                              + [LiteralToken("2")]))
      == Value([LiteralToken("true")])
  {
    NestedPostfix();
    NestedShape();
    NestedTree();
    BooleanTexts();
    EvalThrough([SimpleToken(OpenParen), SimpleToken(OpenParen)]
                              + [LiteralToken("1"), SimpleToken(Plus)]
                              + [LiteralToken("4"), SimpleToken(CloseParen)]
                              + [SimpleToken(Equals), LiteralToken("5")]
                              + [SimpleToken(CloseParen), SimpleToken(TokenType.And)]
                              + [LiteralToken("2"), SimpleToken(Equals)]
                              + [LiteralToken("2")],
                [LiteralToken("1"), LiteralToken("4"), SimpleToken(Plus), LiteralToken("5"), SimpleToken(Equals), LiteralToken("2"), LiteralToken("2"), SimpleToken(Equals), SimpleToken(TokenType.And)],
                Node(Node(Node(Int(1), SimpleToken(Plus), Int(4)), SimpleToken(Equals), Int(5)), SimpleToken(TokenType.And), Node(Int(2), SimpleToken(Equals), Int(2))), BoolLiteral(true));
  }

  /** `1 and 2 * 3 + 4` evaluates to the text `Undefined`: its postfix form adds 4 to the conjunction. */
  lemma QuirkEval()
    ensures EvalPostfix(Postfix([LiteralToken("1"), SimpleToken(TokenType.And)]
                              + [LiteralToken("2"), SimpleToken(Mult)]
                              + [LiteralToken("3"), SimpleToken(Plus)]
                              + [LiteralToken("4")]))
      == Value([LiteralToken("Undefined")])
  {
    QuirkPostfix();
    QuirkShape();
    QuirkTree();
    EvalThrough([LiteralToken("1"), SimpleToken(TokenType.And)]
                              + [LiteralToken("2"), SimpleToken(Mult)]
                              + [LiteralToken("3"), SimpleToken(Plus)]
                              + [LiteralToken("4")],
                [LiteralToken("1"), LiteralToken("2"), LiteralToken("3"), SimpleToken(Mult), SimpleToken(TokenType.And), LiteralToken("4"), SimpleToken(Plus)],
                Node(Node(Int(1), SimpleToken(TokenType.And), Node(Int(2), SimpleToken(Mult), Int(3))), SimpleToken(Plus), Int(4)), LiteralWith(Some("Undefined")));
  }

  /** The postfix form precedence climbing gives the same line, `1 2 3 * 4 + and`, evaluates to `true`. */
  lemma IntendedEval()
    ensures EvalPostfix([LiteralToken("1"), LiteralToken("2"), LiteralToken("3"), SimpleToken(Mult), LiteralToken("4"), SimpleToken(Plus), SimpleToken(TokenType.And)])
      == Value([LiteralToken("true")])
  {
    IntendedShape();
    IntendedTree();
    BooleanTexts();
    EvalTreeValue(Node(Int(1), SimpleToken(TokenType.And), Node(Node(Int(2), SimpleToken(Mult), Int(3)), SimpleToken(Plus), Int(4))));
  }

  /** `3 * 13` is 39. */
  lemma ProductTree()
    ensures Denote(Node(Int(3), SimpleToken(Mult), Int(13))) == Value(LiteralToken("39"))
  {
    OperateProduct(3, 13);
    TwoDigitTexts();
  }

  /** A tree's postfix form followed by two operands leaves the two operands
      above the tree's value. */
  lemma EvalTreeThenOperands(pf: seq<Token>, e: Tree, v: Token, l: Token, r: Token)
    requires PostfixOf(e) + [l, r] == pf
    requires WellFormedTree(e) && Denote(e) == Value(v) && Precedence(l) == 0 && Precedence(r) == 0
    ensures EvalPostfix(pf) == Value([r, l, v])
  {
    assert pf != [];
    EvalTree(e, [], [l, r]);
    assert [v] + [] == [v];
    assert [l, r] + [] == [l, r];
    EvalOperands([v], l, r, []);
    assert [r, l] + [v] == [r, l, v];
    assert EvalFrom([r, l, v], []) == Value([r, l, v]);
  }

  lemma TimesModShape()
    ensures WellFormedTree(Node(Int(3), SimpleToken(Mult), Int(13)))
    ensures PostfixOf(Node(Int(3), SimpleToken(Mult), Int(13))) + [LiteralToken("mod"), LiteralToken("12")]
      == [LiteralToken("3"), LiteralToken("13"), SimpleToken(Mult), LiteralToken("mod"), LiteralToken("12")]
  {
    OneDigitTexts();
    TwoDigitTexts();
  }

  /** The pass over `3 13 * mod 12` leaves 12 above `mod` above 39. */
  lemma TimesModPass()
    ensures EvalPostfix([LiteralToken("3"), LiteralToken("13"), SimpleToken(Mult), LiteralToken("mod"), LiteralToken("12")])
      == Value([LiteralToken("12"), LiteralToken("mod"), LiteralToken("39")])
  {
    TimesModShape();
    ProductTree();
    EvalTreeThenOperands([LiteralToken("3"), LiteralToken("13"), SimpleToken(Mult), LiteralToken("mod"), LiteralToken("12")],
                         Node(Int(3), SimpleToken(Mult), Int(13)), LiteralToken("39"),
                         LiteralToken("mod"), LiteralToken("12"));
  }

  /** `test_eval_postfix_3`, `(3 * 13) mod 12`: `mod` is an operand, so the
      pass leaves three values on the stack, 12 above `mod` above 39. */
  lemma TimesModEval()
    ensures EvalPostfix(Postfix([SimpleToken(OpenParen), LiteralToken("3")]
                              + [SimpleToken(Mult), LiteralToken("13")]
                              + [SimpleToken(CloseParen), LiteralToken("mod")]
                              + [LiteralToken("12")]))
      == Value([LiteralToken("12"), LiteralToken("mod"), LiteralToken("39")])
  {
    TimesModPostfix();
    TimesModPass();
  }

  /** `test_eval_postfix_5`, `5 > 7`: the comparison is an operand, so the
      pass leaves `>`, 7 and 5 on the stack instead of `false`. */
  lemma GreaterEval()
    ensures EvalPostfix(Postfix([LiteralToken("5"), SimpleToken(GreaterThan)]
                              + [LiteralToken("7")]))
      == Value([SimpleToken(GreaterThan), LiteralToken("7"), LiteralToken("5")])
  {
    GreaterPostfix();
    EvalComparisonIsOperand(LiteralToken("5"), LiteralToken("7"), SimpleToken(GreaterThan));
  }

  /** `test_eval_postfix_6`, `5 >= 5`: likewise the pass leaves `>=` above
      the two operands instead of `true`. */
  lemma AtLeastEval()
    ensures EvalPostfix(Postfix([LiteralToken("5"), SimpleToken(TokenType.Gte)]
                              + [LiteralToken("5")]))
      == Value([SimpleToken(TokenType.Gte), LiteralToken("5"), LiteralToken("5")])
  {
    AtLeastPostfix();
    EvalComparisonIsOperand(LiteralToken("5"), LiteralToken("5"), SimpleToken(TokenType.Gte));
  }

  /** `test_collect_expressions`: the test hands the function a fresh
      iterator over the tokens of `3+ 4 + (6- 5) \n`, so all nine tokens
      before the line break are collected. */
  lemma CollectLineExample(rest: seq<Token>)
    ensures var line := [LiteralToken("3"), SimpleToken(Plus), LiteralToken("4"), SimpleToken(Plus),
                         SimpleToken(OpenParen), LiteralToken("6"), SimpleToken(Minus), LiteralToken("5"),
                         SimpleToken(CloseParen)];
      Collect(line + [SimpleToken(NewLine)] + rest) == Value(Collected(SimpleToken(NewLine), line, rest))
      && |line| == 9
  {
    CollectPrefix([LiteralToken("3"), SimpleToken(Plus), LiteralToken("4"), SimpleToken(Plus),
                   SimpleToken(OpenParen), LiteralToken("6"), SimpleToken(Minus), LiteralToken("5"),
                   SimpleToken(CloseParen)], SimpleToken(NewLine), rest);
  }
}
