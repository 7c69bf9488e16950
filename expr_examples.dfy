/** The worked examples of src/test_expr.rs, stated on hand-built
    tokens: the first and third are combined under the second, as the tests
    do. That the lexer yields these tokens for the test lines is not proved
    here. */
module ExprExamples {
  import opened Outcomes
  import opened Tokens
  import opened Ascii
  import opened Numerals
  import opened Tokenizer
  import opened Expr

  /** `test_operation_1`: `3+4` gives `7`. */
  lemma Operation1()
    ensures Operate(LiteralToken("3"), LiteralToken("4"), SimpleToken(Plus)) == Value(LiteralToken("7"))
  {
    OneDigitTexts();
    OperateSum(3, 4);
  }

  /** `test_operation_2`: `37-17` gives `20`. */
  lemma Operation2()
    ensures Operate(LiteralToken("37"), LiteralToken("17"), SimpleToken(Minus)) == Value(LiteralToken("20"))
  {
    TwoDigitTexts();
    OperateDifference(37, 17);
  }

  /** `test_operation_4`: `8/2` gives `4`. */
  lemma Operation4()
    ensures Operate(LiteralToken("8"), LiteralToken("2"), SimpleToken(Div)) == Value(LiteralToken("4"))
  {
    OneDigitTexts();
    assert TruncDiv(8, 2) == 4;
    OperateQuotient(8, 2);
  }

  /** `test_operation_6`: `1 and false` gives `false` (the integer is cast to
      a boolean). */
  lemma Operation6()
    ensures Operate(LiteralToken("1"), LiteralToken("false"), SimpleToken(TokenType.And)) == Value(LiteralToken("false"))
  {
    OneDigitTexts();
    BooleanTexts();
    IntLiteralValue(1);
    BoolLiteralValue(false);
    OperateLogical(IntLiteral(1), BoolLiteral(false), SimpleToken(TokenType.And));
  }

  /** `test_operation_7`: `1.1 or false` gives `true` (a float literal with a
      non-zero integer part casts to `true`). */
  lemma Operation7()
    ensures Operate(LiteralToken("1.1"), LiteralToken("false"), SimpleToken(TokenType.Or)) == Value(LiteralToken("true"))
  {
    var t := "1.1";
    assert Unsigned(t) == t && DotIndex(t) == 1;
    assert IsFloatText(t) && IntegerPart(t) == "1";
    assert DigitsValue("1") == 1;
    IntegerPartNonzero(t);
    assert Classify(t) == Value(Float64(Decimal(t))) by {
      assert !IsIntText(t) by {
        assert !IsDigits(t) by { assert !IsDigit(t[1]); }
      }
    }
    BoolLiteralValue(false);
    OperateLogical(LiteralToken(t), BoolLiteral(false), SimpleToken(TokenType.Or));
  }

  /** `test_operation_3`: `5.1 * 5.0` multiplies two float literals; the
      printed product needs IEEE arithmetic and formatting, which the model
      leaves float-dependent. */
  lemma Operation3()
    ensures Operate(LiteralToken("5.1"), LiteralToken("5.0"), SimpleToken(Mult)) == FloatDependent
  {
    FloatLiteral("5.1");
    FloatLiteral("5.0");
    OperateFloatArithmetic(LiteralToken("5.1"), LiteralToken("5.0"), SimpleToken(Mult));
  }

  /** `test_operation_5`: `8.6/2` divides a float literal by an integer one;
      float-dependent like the product. */
  lemma Operation5()
    ensures Operate(LiteralToken("8.6"), LiteralToken("2"), SimpleToken(Div)) == FloatDependent
  {
    FloatLiteral("8.6");
    assert IntToString(2) == "2";
    IntLiteralValue(2);
    OperateFloatArithmetic(LiteralToken("8.6"), IntLiteral(2), SimpleToken(Div));
  }

  /** A literal of the form `d.d` classifies as a float. */
  lemma FloatLiteral(t: string)
    requires |t| == 3 && IsDigit(t[0]) && t[1] == '.' && IsDigit(t[2])
    ensures ConvertTokenToValue(LiteralToken(t)) == Value(Float64(Decimal(t)))
  {
    assert Unsigned(t) == t && DotIndex(t) == 1 by {
      assert t[0] != '-' && t[0] != '.';
    }
    assert t[..1] == [t[0]] && t[2..] == [t[2]];
    assert !IsDigits(t) by { assert !IsDigit(t[1]); }
  }

  // ----- the arms of `operate` the examples apply -----

  lemma OperateSum(x: i32, y: i32)
    requires InI32(x + y)
    ensures Operate(IntLiteral(x), IntLiteral(y), SimpleToken(Plus)) == Value(IntLiteral(x + y))
  {
    OperateIntArithmetic(x, y, SimpleToken(Plus));
  }

  lemma OperateDifference(x: i32, y: i32)
    requires InI32(x - y)
    ensures Operate(IntLiteral(x), IntLiteral(y), SimpleToken(Minus)) == Value(IntLiteral(x - y))
  {
    OperateIntArithmetic(x, y, SimpleToken(Minus));
  }

  lemma OperateProduct(x: i32, y: i32)
    requires InI32(x * y)
    ensures Operate(IntLiteral(x), IntLiteral(y), SimpleToken(Mult)) == Value(IntLiteral(x * y))
  {
    OperateIntArithmetic(x, y, SimpleToken(Mult));
  }

  lemma OperateQuotient(x: i32, y: i32)
    requires y != 0 && InI32(TruncDiv(x, y))
    ensures Operate(IntLiteral(x), IntLiteral(y), SimpleToken(Div)) == Value(IntLiteral(TruncDiv(x, y)))
  {
    OperateIntArithmetic(x, y, SimpleToken(Div));
  }

  lemma OperateEquals(x: i32, y: i32)
    ensures Operate(IntLiteral(x), IntLiteral(y), SimpleToken(Equals)) == Value(BoolLiteral(x == y))
  {
    OperateIntComparison(x, y, SimpleToken(Equals));
  }

  /** Integers cast to booleans: non-zero is `true`. */
  lemma OperateIntLogical(x: i32, y: i32, op: TokenType)
    requires op == TokenType.And || op == TokenType.Or
    ensures Operate(IntLiteral(x), IntLiteral(y), SimpleToken(op))
      == Value(BoolLiteral(if op == TokenType.And then x != 0 && y != 0 else x != 0 || y != 0))
  {
    IntLiteralValue(x);
    IntLiteralValue(y);
    OperateLogical(IntLiteral(x), IntLiteral(y), SimpleToken(op));
  }

  lemma OperateBoolAnd(a: bool, b: bool)
    ensures Operate(BoolLiteral(a), BoolLiteral(b), SimpleToken(TokenType.And)) == Value(BoolLiteral(a && b))
  {
    BoolLiteralValue(a);
    BoolLiteralValue(b);
    OperateLogical(BoolLiteral(a), BoolLiteral(b), SimpleToken(TokenType.And));
  }

  /** `+` on a boolean has no arm in `operate`. */
  lemma OperateBoolPlus(a: bool, y: i32)
    ensures Operate(BoolLiteral(a), IntLiteral(y), SimpleToken(Plus)) == Value(LiteralWith(Some("Undefined")))
  {
    BoolLiteralValue(a);
    IntLiteralValue(y);
    OperateNoArm(BoolLiteral(a), IntLiteral(y), SimpleToken(Plus));
  }

  // ----- the texts of the values in the examples -----

  lemma OneDigitTexts()
    ensures IntLiteral(1) == LiteralToken("1") && IntLiteral(2) == LiteralToken("2")
    ensures IntLiteral(3) == LiteralToken("3") && IntLiteral(4) == LiteralToken("4")
    ensures IntLiteral(5) == LiteralToken("5") && IntLiteral(6) == LiteralToken("6")
    ensures IntLiteral(7) == LiteralToken("7") && IntLiteral(8) == LiteralToken("8")
  {
  }

  lemma TwoDigits(n: nat)
    requires 10 <= n < 100
    ensures NatToDigits(n) == [DigitChar(n / 10), DigitChar(n % 10)]
  {
  }

  lemma TwoDigitTexts()
    ensures IntLiteral(10) == LiteralToken("10") && IntLiteral(12) == LiteralToken("12")
    ensures IntLiteral(13) == LiteralToken("13") && IntLiteral(15) == LiteralToken("15")
    ensures IntLiteral(17) == LiteralToken("17") && IntLiteral(20) == LiteralToken("20")
    ensures IntLiteral(37) == LiteralToken("37") && IntLiteral(39) == LiteralToken("39")
  {
    TwoDigits(10);
    TwoDigits(12);
    TwoDigits(13);
    TwoDigits(15);
    TwoDigits(17);
    TwoDigits(20);
    TwoDigits(37);
    TwoDigits(39);
  }

  lemma NegativeTexts()
    ensures IntLiteral(-2) == LiteralToken("-2") && IntLiteral(-24) == LiteralToken("-24")
  {
    assert IntToString(-2) == "-" + NatToDigits(2) == "-2";
    TwoDigits(24);
    assert IntToString(-24) == "-" + NatToDigits(24) == "-24";
  }

  lemma BooleanTexts()
    ensures BoolLiteral(true) == LiteralToken("true") && BoolLiteral(false) == LiteralToken("false")
  {
  }
}
