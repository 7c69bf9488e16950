/** Values and operator semantics (src/expr.rs).

    `LSExpr` mirrors the source enum: five value variants and one variant per
    operation the evaluator knows. Integers are `i32` and every `i32`
    operation that panics in Rust (overflow in a debug build, division or
    remainder by zero) yields `Panic`. Doubles are kept opaque: a `Float64`
    remembers either the integer it was cast from or the literal text it was
    parsed from, and a result that would need IEEE arithmetic is
    `FloatDependent`. */
module Expr {
  import opened Outcomes
  import opened Tokens
  import opened Ascii
  import opened Numerals

  // ----- machine numbers -----

  const MinI32: int := -0x8000_0000
  const MaxI32: int := 0x7fff_ffff

  predicate InI32(x: int) {
    MinI32 <= x <= MaxI32
  }

  type i32 = x: int | MinI32 <= x <= MaxI32

  /** The float literal texts `convert_token_to_value` accepts. */
  type FloatText = s: string | IsFloatText(s) witness "0.0"

  /** A double, kept opaque: `Exact(n)` is the double whose value is the
      integer `n` (what `i32 as f64` and the boolean casts produce, always
      exact), `Decimal(t)` is `t.parse::<f64>()`. */
  datatype F64 = Exact(n: int) | Decimal(text: FloatText)

  /** `x == 0.0` */
  predicate IsZero(x: F64) {
    match x
    case Exact(n) => n == 0
    case Decimal(t) => ParsesToZero(t)
  }

  /** Rust's `/` on integers: the quotient of the magnitudes, negative
      exactly when the operands' signs differ (rounded toward zero). */
  function TruncDiv(a: int, b: int): (d: int)
    requires b != 0
    ensures Abs(d) == Abs(a) / Abs(b)
    ensures d == 0 || (d < 0 <==> (a < 0) != (b < 0))
  {
    QuotientNonneg(Abs(a), Abs(b));
    Signed(Abs(a) / Abs(b), (a < 0) != (b < 0))
  }

  lemma QuotientNonneg(x: int, y: int)
    requires x >= 0 && y > 0
    ensures x / y >= 0
  {
  }

  /** `q` with a minus sign when `neg` holds. */
  function Signed(q: nat, neg: bool): (s: int)
    ensures Abs(s) == q
    ensures s == 0 || (s < 0 <==> neg)
  {
    if neg then -(q as int) else q
  }

  /** Rust's `%` on integers: the remainder takes the sign of the dividend. */
  function TruncMod(a: int, b: int): int
    requires b != 0
  {
    a - b * TruncDiv(a, b)
  }

  function Abs(a: int): nat {
    if a < 0 then -a else a
  }

  /** The remainder is smaller than the divisor in magnitude and, unless it
      is zero, has the sign of the dividend. */
  lemma TruncModSign(a: int, b: int)
    requires b != 0
    ensures Abs(TruncMod(a, b)) < Abs(b)
    ensures TruncMod(a, b) == 0 || (TruncMod(a, b) < 0 <==> a < 0)
  {
    TruncModValue(a, b);
  }

  /** The remainder is the Euclidean remainder of the magnitudes, signed like
      the dividend. */
  lemma TruncModValue(a: int, b: int)
    requires b != 0
    ensures TruncMod(a, b) == if a < 0 then -(Abs(a) % Abs(b)) else Abs(a) % Abs(b)
    ensures Abs(a) % Abs(b) < Abs(b)
  {
    var q := Abs(a) / Abs(b);
    var r := Abs(a) % Abs(b);
    var p := Abs(b) * q;
    assert Abs(a) == p + r && r < Abs(b) by {
      Euclid(Abs(a), Abs(b));
    }
    assert b * TruncDiv(a, b) == (if a < 0 then -(p as int) else p) by {
      SignedProduct(b, q, a < 0);
    }
  }

  lemma Euclid(x: nat, y: nat)
    requires y > 0
    ensures x == y * (x / y) + x % y && x % y < y
  {
  }

  /** `b` times the quotient of the signs `neg` and `b`. */
  lemma SignedProduct(b: int, q: nat, neg: bool)
    ensures b * (if neg != (b < 0) then -(q as int) else q) == (if neg then -(Abs(b) * q) else Abs(b) * q)
  {
    if b < 0 {
      assert b == -(Abs(b) as int);
      if neg {
        assert b * q == -(Abs(b) * q);
      } else {
        assert b * -(q as int) == Abs(b) * q;
      }
    } else if neg {
      assert b * -(q as int) == -(b * q);
    }
  }

  // ----- expressions -----

  datatype LSExpr =
    | Int32(i: i32)
    | Float64(f: F64)
    | Boolean(b: bool)
    | Undefined
    | Null
    | AddI32(i32, i32)
    | AddI32F64(i32, F64)
    | AddF64(F64, F64)
    | SubtractI32(i32, i32)
    | SubtractF64(F64, F64)
    | SubtractI32F64(i32, F64)
    | SubtractF64I32(F64, i32)
    | MultiplyI32(i32, i32)
    | MultiplyI32F64(i32, F64)
    | MultiplyF64(F64, F64)
    | DivideI32(i32, i32)
    | DivideI32F64(i32, F64)
    | DivideF64I32(F64, i32)
    | DivideF64(F64, F64)
    | ModI32(i32, i32)
    | ModI32F64(i32, F64)
    | ModF64I32(F64, i32)
    | ModF64(F64, F64)
    | And(bool, bool)
    | Or(bool, bool)
    | Equal(bool, bool)
    | NotEqual(bool, bool)
    | Gt(bool, bool)
    | Lt(bool, bool)
    | Gte(bool, bool)
    | Lte(bool, bool)
    | EqualI32(i32, i32)
    | NotEqualI32(i32, i32)
    | GtI32(i32, i32)
    | LtI32(i32, i32)
    | GteI32(i32, i32)
    | LteI32(i32, i32)
    | EqualF64(F64, F64)
    | NotEqualF64(F64, F64)
    | GtF64(F64, F64)
    | LtF64(F64, F64)
    | GteF64(F64, F64)
    | LteF64(F64, F64)
    | Negate(bool)
  {
    /** The five variants that denote a value rather than an operation. */
    predicate IsValue() {
      Int32? || Float64? || Boolean? || Undefined? || Null?
    }
  }

  /** The six comparisons, shared by the `bool`, `i32` and `f64` variants. */
  datatype Comparison = Eq | Ne | Greater | Less | AtLeast | AtMost

  predicate Compare(c: Comparison, a: int, b: int) {
    match c
    case Eq => a == b
    case Ne => a != b
    case Greater => a > b
    case Less => a < b
    case AtLeast => a >= b
    case AtMost => a <= b
  }

  /** Rust orders `false` before `true`. */
  function BoolRank(b: bool): int {
    if b then 1 else 0
  }

  /** A comparison of doubles: exact when both are integers, otherwise it
      depends on how the literals round. */
  function CompareF64(c: Comparison, x: F64, y: F64): (r: Outcome<LSExpr>)
    ensures r.Value? <==> x.Exact? && y.Exact?
    ensures r.Value? ==> r.value == Boolean(Compare(c, x.n, y.n))
  {
    if x.Exact? && y.Exact? then Value(Boolean(Compare(c, x.n, y.n))) else FloatDependent
  }

  /** An `i32` result, or the panic of an overflowing operation. */
  function Checked(x: int): (r: Outcome<LSExpr>)
    ensures r.Value? <==> InI32(x)
    ensures r.Value? ==> r.value == Int32(x)
    ensures r.Panic? ==> r.fault == ArithmeticOverflow
  {
    if InI32(x) then Value(Int32(x)) else Panic(ArithmeticOverflow)
  }

  /** `LSExpr::eval`: an operation variant evaluates to its value; a value
      variant evaluates to `Undefined`. */
  function Eval(e: LSExpr): (r: Outcome<LSExpr>)
    ensures r.Value? ==> r.value.Int32? || r.value.Boolean? || r.value.Undefined?
    ensures r.Value? && r.value.Undefined? <==> e.IsValue()
    ensures r.Panic? ==> r.fault == ArithmeticOverflow || r.fault == DivisionByZero
  {
    match e
    case AddI32(l, r) => Checked(l + r)
    case SubtractI32(l, r) => Checked(l - r)
    case MultiplyI32(l, r) => Checked(l * r)
    case DivideI32(l, r) => if r == 0 then Panic(DivisionByZero) else Checked(TruncDiv(l, r))
    case ModI32(l, r) =>
      // `i32::MIN % -1` overflows in Rust although the remainder would be 0
      if r == 0 then Panic(DivisionByZero)
      else if l == MinI32 && r == -1 then Panic(ArithmeticOverflow)
      else Checked(TruncMod(l, r))
    case AddI32F64(_, _) => FloatDependent
    case AddF64(_, _) => FloatDependent
    case SubtractF64(_, _) => FloatDependent
    case SubtractI32F64(_, _) => FloatDependent
    case SubtractF64I32(_, _) => FloatDependent
    case MultiplyI32F64(_, _) => FloatDependent
    case MultiplyF64(_, _) => FloatDependent
    case DivideI32F64(_, _) => FloatDependent
    case DivideF64I32(_, _) => FloatDependent
    case DivideF64(_, _) => FloatDependent
    case ModI32F64(_, _) => FloatDependent
    case ModF64I32(_, _) => FloatDependent
    case ModF64(_, _) => FloatDependent
    case And(l, r) => Value(Boolean(l && r))
    case Or(l, r) => Value(Boolean(l || r))
    case Equal(l, r) => Value(Boolean(Compare(Eq, BoolRank(l), BoolRank(r))))
    case NotEqual(l, r) => Value(Boolean(Compare(Ne, BoolRank(l), BoolRank(r))))
    case Gt(l, r) => Value(Boolean(Compare(Greater, BoolRank(l), BoolRank(r))))
    case Lt(l, r) => Value(Boolean(Compare(Less, BoolRank(l), BoolRank(r))))
    case Gte(l, r) => Value(Boolean(Compare(AtLeast, BoolRank(l), BoolRank(r))))
    case Lte(l, r) => Value(Boolean(Compare(AtMost, BoolRank(l), BoolRank(r))))
    case EqualI32(l, r) => Value(Boolean(Compare(Eq, l, r)))
    case NotEqualI32(l, r) => Value(Boolean(Compare(Ne, l, r)))
    case GtI32(l, r) => Value(Boolean(Compare(Greater, l, r)))
    case LtI32(l, r) => Value(Boolean(Compare(Less, l, r)))
    case GteI32(l, r) => Value(Boolean(Compare(AtLeast, l, r)))
    case LteI32(l, r) => Value(Boolean(Compare(AtMost, l, r)))
    case EqualF64(l, r) => CompareF64(Eq, l, r)
    case NotEqualF64(l, r) => CompareF64(Ne, l, r)
    case GtF64(l, r) => CompareF64(Greater, l, r)
    case LtF64(l, r) => CompareF64(Less, l, r)
    case GteF64(l, r) => CompareF64(AtLeast, l, r)
    case LteF64(l, r) => CompareF64(AtMost, l, r)
    case Negate(v) => Value(Boolean(!v))
    case _ => Value(Undefined)
  }

  // ----- casts -----

  /** `cast_to_bool`: numbers are true when non-zero, `Null` is false, a
      boolean is itself, and anything else has no boolean cast. */
  function CastToBool(e: LSExpr): (r: LSExpr)
    ensures r.Boolean? || r.Undefined?
    ensures r.Boolean? <==> e.Int32? || e.Float64? || e.Null? || e.Boolean?
    ensures e.Int32? ==> r == Boolean(e.i != 0)
    ensures e.Float64? ==> r == Boolean(!IsZero(e.f))
    ensures e.Null? ==> r == Boolean(false)
    ensures e.Boolean? ==> r == e
  {
    match e
    case Int32(x) => if x == 0 then Boolean(false) else Boolean(true)
    case Float64(x) => if IsZero(x) then Boolean(false) else Boolean(true)
    case Null => Boolean(false)
    case Boolean(x) => Boolean(x)
    case _ => Undefined
  }

  /** `cast_to_float`: an integer becomes the double of the same value, a
      boolean becomes 1.0 for `false` and 0.0 for `true` (inverted in the
      source), `Null` stays `Null`. */
  function CastToFloat(e: LSExpr): (r: LSExpr)
    ensures r.Float64? || r.Null? || r.Undefined?
    ensures r.Float64? <==> e.Int32? || e.Float64? || e.Boolean?
    ensures e.Int32? ==> r == Float64(Exact(e.i))
    ensures e.Float64? ==> r == e
    ensures e.Boolean? ==> r == Float64(Exact(1 - BoolRank(e.b)))
    ensures e.Null? <==> r.Null?
    ensures !(e.Int32? || e.Float64? || e.Null? || e.Boolean?) ==> r == Undefined
  {
    match e
    case Int32(x) => Float64(Exact(x))
    case Float64(x) => Float64(x)
    case Null => Null
    case Boolean(x) => if x == false then Float64(Exact(1)) else Float64(Exact(0))
    case _ => Undefined
  }

  /** `f64 as i32` on an integral double saturates at the `i32` bounds. */
  function Saturate(n: int): (r: i32)
    ensures InI32(n) ==> r == n
    ensures n < MinI32 ==> r == MinI32
    ensures n > MaxI32 ==> r == MaxI32
  {
    if n < MinI32 then MinI32 else if n > MaxI32 then MaxI32 else n
  }

  /** `cast_to_int`: like `cast_to_float` but to `i32` (booleans again
      inverted); a parsed literal truncates after rounding, so that case is
      left float-dependent. */
  function CastToInt(e: LSExpr): (r: Outcome<LSExpr>)
    ensures r.Value? ==> r.value.Int32? || r.value.Null? || r.value.Undefined?
    ensures r.FloatDependent? <==> e.Float64? && e.f.Decimal?
    ensures e.Int32? ==> r == Value(e)
    ensures e.Float64? && e.f.Exact? ==> r == Value(Int32(Saturate(e.f.n)))
    ensures e.Boolean? ==> r == Value(Int32(1 - BoolRank(e.b)))
    ensures e.Null? <==> r == Value(Null)
    ensures !(e.Int32? || e.Float64? || e.Null? || e.Boolean?) ==> r == Value(Undefined)
    ensures !r.Panic?
  {
    match e
    case Int32(x) => Value(Int32(x))
    case Float64(x) => if x.Exact? then Value(Int32(Saturate(x.n))) else FloatDependent
    case Null => Value(Null)
    case Boolean(x) => if x == false then Value(Int32(1)) else Value(Int32(0))
    case _ => Value(Undefined)
  }

  // ----- tokens and values -----

  /** The text of a token, or the panic of `tok_value.unwrap().s_val.unwrap()`. */
  function TokenText(t: Token): (r: Outcome<string>)
    ensures r.Value? <==> Text(t).Some?
    ensures r.Value? ==> r.value == Text(t).value
    ensures r.Panic? ==> r.fault == MissingPayload
  {
    if t.tokValue.Some? && t.tokValue.value.sVal.Some? then Value(t.tokValue.value.sVal.value)
    else Panic(MissingPayload)
  }

  /** The kind a literal text denotes, tried in the source's order: integer,
      float, boolean, null, else undefined. An integer text outside the `i32`
      range makes `parse::<i32>().ok().unwrap()` panic. */
  function Classify(val: string): (r: Outcome<LSExpr>)
    ensures r.Value? ==> r.value.IsValue()
    ensures r.Value? && r.value.Int32? <==> IsIntText(val) && InI32(ParseInt(val))
    ensures r.Value? && r.value.Int32? ==> r.value.i == ParseInt(val)
    ensures r.Panic? <==> IsIntText(val) && !InI32(ParseInt(val))
    ensures r.Panic? ==> r.fault == IntParseOutOfRange
    ensures r.Value? && r.value.Float64? <==> IsFloatText(val)
    ensures r.Value? && r.value.Float64? ==> r.value.f == Decimal(val)
    ensures r.Value? && r.value.Boolean? <==> val == "true" || val == "false"
    ensures r.Value? && r.value.Boolean? ==> r.value.b == (val == "true")
    ensures r.Value? && r.value.Null? <==> val == "null"
    ensures !r.FloatDependent?
  {
    if IsIntText(val) then
      var n := ParseInt(val);
      if InI32(n) then Value(Int32(n)) else Panic(IntParseOutOfRange)
    else if IsFloatText(val) then Value(Float64(Decimal(val)))
    else if val == "true" then Value(Boolean(true))
    else if val == "false" then Value(Boolean(false))
    else if val == "null" then Value(Null)
    else Value(Undefined)
  }

  /** `convert_token_to_value` */
  function ConvertTokenToValue(t: Token): (r: Outcome<LSExpr>)
    ensures Text(t).None? <==> r == Panic(MissingPayload)
    ensures Text(t).Some? ==> r == Classify(Text(t).value)
  {
    var val :- TokenText(t);
    Classify(val)
  }

  /** A literal token carrying `sVal` as its payload. */
  function LiteralWith(sVal: Option<string>): (t: Token)
    ensures t.tokType == Literal && t.tokValue == Some(TokenValue(sVal))
  {
    Token(Literal, Some(TokenValue(sVal)))
  }

  function BoolText(b: bool): string {
    if b then "true" else "false"
  }

  /** The literal token `operate` and `operate_unary` build from a value:
      numbers and booleans as their text, `Null` with no text, anything else
      as `"Undefined"`. Formatting a double is left float-dependent. */
  function Render(e: LSExpr): (r: Outcome<Token>)
    ensures r.FloatDependent? <==> e.Float64?
    ensures !r.Panic?
    ensures r.Value? ==> r.value.tokType == Literal && r.value.tokValue.Some?
    ensures e.Int32? ==> r == Value(IntLiteral(e.i))
    ensures e.Boolean? ==> r == Value(BoolLiteral(e.b))
    ensures e.Null? ==> r == Value(LiteralWith(None))
    ensures !e.Int32? && !e.Float64? && !e.Boolean? && !e.Null? ==> r == Value(LiteralWith(Some("Undefined")))
  {
    match e
    case Int32(x) => Value(LiteralWith(Some(IntToString(x))))
    case Float64(_) => FloatDependent
    case Boolean(x) => Value(LiteralWith(Some(if x then "true" else "false")))
    case Null => Value(LiteralWith(None))
    case _ => Value(LiteralWith(Some("Undefined")))
  }

  /** The literal token of an integer. */
  function IntLiteral(n: int): (t: Token)
    ensures Text(t) == Some(IntToString(n))
  {
    LiteralWith(Some(IntToString(n)))
  }

  /** The literal token of a boolean. */
  function BoolLiteral(b: bool): (t: Token)
    ensures Text(t) == Some(if b then "true" else "false")
  {
    LiteralWith(Some(BoolText(b)))
  }

  /** The value a rendered integer or boolean reads back as. */
  lemma RenderClassifiesBack(e: LSExpr)
    requires e.Int32? || e.Boolean?
    ensures Render(e).Value? && ConvertTokenToValue(Render(e).value) == Value(e)
  {
    if e.Int32? {
      IntRoundTrip(e.i);
      IntNotFloat(IntToString(e.i));
    }
  }

  // ----- operators -----

  predicate IsArithmetic(op: TokenType) {
    op == Plus || op == Minus || op == Mult || op == Div || op == Mod
  }

  predicate IsLogical(op: TokenType) {
    op == TokenType.And || op == TokenType.Or
  }

  /** The comparison a comparison token stands for (`NotEqual` has no arm). */
  function ComparisonOf(op: TokenType): Option<Comparison> {
    match op
    case GreaterThan => Some(Greater)
    case LessThan => Some(Less)
    case Gte => Some(AtLeast)
    case Lte => Some(AtMost)
    case Equals => Some(Eq)
    case _ => None
  }

  /** The arithmetic arms of `operate`, operands in the source's order
      (several float arms swap them). */
  function Arithmetic(l: LSExpr, r: LSExpr, op: TokenType): LSExpr
    requires IsArithmetic(op)
  {
    match (l, r)
    case (Int32(x), Int32(y)) =>
      (match op
       case Plus => AddI32(x, y)
       case Minus => SubtractI32(x, y)
       case Mult => MultiplyI32(x, y)
       case Div => DivideI32(x, y)
       case Mod => ModI32(x, y))
    case (Int32(x), Float64(y)) =>
      (match op
       case Plus => AddI32F64(x, y)
       case Minus => SubtractI32F64(x, y)
       case Mult => MultiplyI32F64(x, y)
       case Div => DivideI32F64(x, y)
       case Mod => ModI32F64(x, y))
    case (Float64(x), Int32(y)) =>
      (match op
       case Plus => AddI32F64(y, x)
       case Minus => SubtractI32F64(y, x)
       case Mult => MultiplyI32F64(y, x)
       case Div => DivideF64I32(x, y)
       case Mod => ModI32F64(y, x))
    case (Float64(x), Float64(y)) =>
      (match op
       case Plus => AddF64(y, x)
       case Minus => SubtractF64(y, x)
       case Mult => MultiplyF64(y, x)
       case Div => DivideF64(y, x)
       case Mod => ModF64(y, x))
    case _ => Undefined
  }

  /** The `LSExpr` comparison node of two doubles. */
  function F64ComparisonNode(c: Comparison, x: F64, y: F64): (e: LSExpr)
    ensures Eval(e) == CompareF64(c, x, y)
  {
    match c
    case Eq => EqualF64(x, y)
    case Ne => NotEqualF64(x, y)
    case Greater => GtF64(x, y)
    case Less => LtF64(x, y)
    case AtLeast => GteF64(x, y)
    case AtMost => LteF64(x, y)
  }

  /** The comparison arms: both sides go through `cast_to_float`, and a side
      without a float cast panics. */
  function Comparing(l: LSExpr, r: LSExpr, c: Comparison): (o: Outcome<LSExpr>)
    ensures var lf, rf := CastToFloat(l), CastToFloat(r);
      o == if !lf.Float64? || !rf.Float64? then Panic(NonFloatValue)
           else if lf.f.Exact? && rf.f.Exact? then Value(Boolean(Compare(c, lf.f.n, rf.f.n)))
           else FloatDependent
  {
    var lf := CastToFloat(l);
    var rf := CastToFloat(r);
    if !lf.Float64? || !rf.Float64? then Panic(NonFloatValue)
    else Eval(F64ComparisonNode(c, lf.f, rf.f))
  }

  /** The `LSExpr` node of `and` or `or` on two booleans. */
  function LogicalNode(op: TokenType, a: bool, b: bool): (e: LSExpr)
    requires IsLogical(op)
    ensures Eval(e) == Value(Boolean(if op == TokenType.And then a && b else a || b))
  {
    if op == TokenType.And then LSExpr.And(a, b) else LSExpr.Or(a, b)
  }

  /** The logical arms: two booleans combine directly, anything else goes
      through `cast_to_bool`, and a side without a bool cast panics. */
  function Logical(l: LSExpr, r: LSExpr, op: TokenType): (o: Outcome<LSExpr>)
    requires IsLogical(op)
    // whichever arm applies, the result connects the two boolean casts
    ensures var lb, rb := CastToBool(l), CastToBool(r);
      o == if lb.Boolean? && rb.Boolean? then
             Value(Boolean(if op == TokenType.And then lb.b && rb.b else lb.b || rb.b))
           else Panic(NonBoolValue)
  {
    if l.Boolean? && r.Boolean? then
      // the source builds this node with the operands swapped
      Eval(LogicalNode(op, r.b, l.b))
    else
      var lb := CastToBool(l);
      var rb := CastToBool(r);
      if !lb.Boolean? || !rb.Boolean? then Panic(NonBoolValue)
      else Eval(LogicalNode(op, lb.b, rb.b))
  }

  /** The `match` of `operate` on the two values and the operator kind. */
  function Combine(l: LSExpr, r: LSExpr, op: TokenType): (o: Outcome<LSExpr>)
    ensures o.Value? ==> o.value.Int32? || o.value.Boolean? || o.value.Undefined?
    ensures o.Panic? ==> o.fault in {ArithmeticOverflow, DivisionByZero, NonBoolValue, NonFloatValue}
  {
    if IsArithmetic(op) then Eval(Arithmetic(l, r, op))
    else if IsLogical(op) then Logical(l, r, op)
    else if ComparisonOf(op).Some? then Comparing(l, r, ComparisonOf(op).value)
    else Value(Undefined)
  }

  /** `operate`: classify both operands (left first), apply the operator and
      render the result as a literal token. */
  function Operate(left: Token, right: Token, operator: Token): (r: Outcome<Token>)
    ensures r.Value? ==> r.value.tokType == Literal && r.value.tokValue.Some?
    // no operator yields `Null`, so the result always carries a text
    ensures r.Value? ==> Text(r.value).Some?
    ensures r.Panic? ==> r.fault in {MissingPayload, IntParseOutOfRange, ArithmeticOverflow,
                                     DivisionByZero, NonBoolValue, NonFloatValue}
  {
    var l :- ConvertTokenToValue(left);
    var rv :- ConvertTokenToValue(right);
    var e :- Combine(l, rv, operator.tokType);
    Render(e)
  }

  /** `operate_unary`: only `not` is a unary operator; it negates the
      operand's boolean cast. */
  function OperateUnary(value: Token, operator: Token): (r: Outcome<Token>)
    ensures r.Value? ==> r.value.tokType == Literal && r.value.tokValue.Some?
  {
    var v :- ConvertTokenToValue(value);
    if operator.tokType != Not then Panic(UnknownUnary)
    else
      var b := CastToBool(v);
      if !b.Boolean? then Panic(UnknownUnaryType)
      else
        var e :- Eval(Negate(b.b));
        Render(e)
  }

  // ----- properties of `operate` and `operate_unary` -----

  /** The integer reading of `rendered then classified`. */
  lemma IntLiteralValue(x: i32)
    ensures ConvertTokenToValue(IntLiteral(x)) == Value(Int32(x))
  {
    RenderClassifiesBack(Int32(x));
  }

  lemma BoolLiteralValue(b: bool)
    ensures ConvertTokenToValue(BoolLiteral(b)) == Value(Boolean(b))
  {
    RenderClassifiesBack(Boolean(b));
  }

  /** The mathematical result of an arithmetic operator on integers, with
      Rust's truncating `/` and `%`. */
  function IntArithmetic(op: TokenType, x: int, y: int): int
    requires IsArithmetic(op)
    requires (op == Div || op == Mod) ==> y != 0
  {
    match op
    case Plus => x + y
    case Minus => x - y
    case Mult => x * y
    case Div => TruncDiv(x, y)
    case Mod => TruncMod(x, y)
  }

  /** Two integer literals under `+ - * / %`: the literal of the exact
      result, left operand on the left, or the panic Rust raises. */
  lemma OperateIntArithmetic(x: i32, y: i32, operator: Token)
    requires IsArithmetic(operator.tokType)
    ensures var op := operator.tokType;
      Operate(IntLiteral(x), IntLiteral(y), operator) ==
        if (op == Div || op == Mod) && y == 0 then Panic(DivisionByZero)
        else if op == Mod && x == MinI32 && y == -1 then Panic(ArithmeticOverflow)
        else if InI32(IntArithmetic(op, x, y)) then Value(IntLiteral(IntArithmetic(op, x, y)))
        else Panic(ArithmeticOverflow)
  {
    IntLiteralValue(x);
    IntLiteralValue(y);
    CombineIntArithmetic(x, y, operator.tokType);
  }

  /** The same on values. */
  lemma CombineIntArithmetic(x: i32, y: i32, op: TokenType)
    requires IsArithmetic(op)
    ensures Combine(Int32(x), Int32(y), op) ==
      if (op == Div || op == Mod) && y == 0 then Panic(DivisionByZero)
      else if op == Mod && x == MinI32 && y == -1 then Panic(ArithmeticOverflow)
      else Checked(IntArithmetic(op, x, y))
  {
    assert Combine(Int32(x), Int32(y), op) == Eval(Arithmetic(Int32(x), Int32(y), op));
    match op
    case Plus => assert Arithmetic(Int32(x), Int32(y), op) == AddI32(x, y);
    case Minus => assert Arithmetic(Int32(x), Int32(y), op) == SubtractI32(x, y);
    case Mult => assert Arithmetic(Int32(x), Int32(y), op) == MultiplyI32(x, y);
    case Div => assert Arithmetic(Int32(x), Int32(y), op) == DivideI32(x, y);
    case Mod => assert Arithmetic(Int32(x), Int32(y), op) == ModI32(x, y);
  }

  /** Under `+ - * / %`, a float operand beside a number makes the result
      float-dependent. */
  lemma OperateFloatArithmetic(left: Token, right: Token, operator: Token)
    requires IsArithmetic(operator.tokType)
    requires ConvertTokenToValue(left).Value? && ConvertTokenToValue(right).Value?
    requires var l, r := ConvertTokenToValue(left).value, ConvertTokenToValue(right).value;
      (l.Int32? || l.Float64?) && (r.Int32? || r.Float64?) && (l.Float64? || r.Float64?)
    ensures Operate(left, right, operator) == FloatDependent
  {
    CombineFloatArithmetic(ConvertTokenToValue(left).value, ConvertTokenToValue(right).value,
                           operator.tokType);
  }

  /** The same on values. */
  lemma CombineFloatArithmetic(l: LSExpr, r: LSExpr, op: TokenType)
    requires IsArithmetic(op)
    requires (l.Int32? || l.Float64?) && (r.Int32? || r.Float64?) && (l.Float64? || r.Float64?)
    ensures Combine(l, r, op) == FloatDependent
  {
    match op
    case Plus =>
    case Minus =>
    case Mult =>
    case Div =>
    case Mod =>
  }

  /** `and`/`or` on two literals. */
  lemma OperateLogical(left: Token, right: Token, operator: Token)
    requires IsLogical(operator.tokType)
    requires ConvertTokenToValue(left).Value? && ConvertTokenToValue(right).Value?
    ensures var lb := CastToBool(ConvertTokenToValue(left).value);
      var rb := CastToBool(ConvertTokenToValue(right).value);
      Operate(left, right, operator) ==
        if lb.Boolean? && rb.Boolean? then
          Value(BoolLiteral(if operator.tokType == TokenType.And then lb.b && rb.b else lb.b || rb.b))
        else Panic(NonBoolValue)
  {
  }

  /** The comparisons compare the float casts of both operands: exactly when
      both are integral doubles, float-dependent otherwise; an operand
      without a float cast panics. */
  lemma OperateComparison(left: Token, right: Token, operator: Token)
    requires ComparisonOf(operator.tokType).Some?
    requires ConvertTokenToValue(left).Value? && ConvertTokenToValue(right).Value?
    ensures var lf := CastToFloat(ConvertTokenToValue(left).value);
      var rf := CastToFloat(ConvertTokenToValue(right).value);
      Operate(left, right, operator) ==
        if !lf.Float64? || !rf.Float64? then Panic(NonFloatValue)
        else if lf.f.Exact? && rf.f.Exact? then
          Value(BoolLiteral(Compare(ComparisonOf(operator.tokType).value, lf.f.n, rf.f.n)))
        else FloatDependent
  {
  }

  /** Comparing two integer literals is comparing the integers. */
  lemma OperateIntComparison(x: i32, y: i32, operator: Token)
    requires ComparisonOf(operator.tokType).Some?
    ensures Operate(IntLiteral(x), IntLiteral(y), operator) ==
      Value(BoolLiteral(Compare(ComparisonOf(operator.tokType).value, x, y)))
  {
    IntLiteralValue(x);
    IntLiteralValue(y);
    OperateComparison(IntLiteral(x), IntLiteral(y), operator);
  }

  /** Comparing two boolean literals compares their inverted ranks: `true`
      counts as 0 and `false` as 1. */
  lemma OperateBoolComparison(x: bool, y: bool, operator: Token)
    requires ComparisonOf(operator.tokType).Some?
    ensures Operate(BoolLiteral(x), BoolLiteral(y), operator) ==
      Value(BoolLiteral(Compare(ComparisonOf(operator.tokType).value, 1 - BoolRank(x), 1 - BoolRank(y))))
  {
    BoolLiteralValue(x);
    BoolLiteralValue(y);
    OperateComparison(BoolLiteral(x), BoolLiteral(y), operator);
  }

  /** A combination no arm of `operate` matches renders as `"Undefined"`:
      an arithmetic operator on a non-number, or an operator with no arm. */
  lemma OperateNoArm(left: Token, right: Token, operator: Token)
    requires ConvertTokenToValue(left).Value? && ConvertTokenToValue(right).Value?
    requires var l, r := ConvertTokenToValue(left).value, ConvertTokenToValue(right).value;
      var op := operator.tokType;
      (IsArithmetic(op) && !((l.Int32? || l.Float64?) && (r.Int32? || r.Float64?)))
      || (!IsArithmetic(op) && !IsLogical(op) && ComparisonOf(op).None?)
    ensures Operate(left, right, operator) == Value(LiteralWith(Some("Undefined")))
  {
  }

  /** The operand is classified first, so its panic comes before any
      complaint about the operator. */
  lemma UnaryOperandFault(value: Token, operator: Token)
    requires !ConvertTokenToValue(value).Value?
    ensures OperateUnary(value, operator) == ConvertTokenToValue(value).PropagateFailure()
  {
  }

  /** Only `not` is a unary operator. */
  lemma UnaryUnknownOperator(value: Token, operator: Token)
    requires ConvertTokenToValue(value).Value? && operator.tokType != Not
    ensures OperateUnary(value, operator) == Panic(UnknownUnary)
  {
  }

  /** `not` gives the literal of the negated boolean cast, and panics on an
      operand without one. */
  lemma UnaryNot(value: Token, operator: Token)
    requires ConvertTokenToValue(value).Value? && operator.tokType == Not
    ensures var b := CastToBool(ConvertTokenToValue(value).value);
      OperateUnary(value, operator) == if b.Boolean? then Value(BoolLiteral(!b.b)) else Panic(UnknownUnaryType)
  {
    var v := ConvertTokenToValue(value).value;
    var b := CastToBool(v);
    if b.Boolean? {
      NegateRenders(b.b);
    }
  }

  /** The tail of `operate_unary` once the cast succeeded. */
  lemma NegateRenders(x: bool)
    ensures (var e :- Eval(Negate(x)); Render(e)) == Value(BoolLiteral(!x))
  {
    assert Eval(Negate(x)) == Value(Boolean(!x));
  }

  /** `not` twice gives back the boolean cast of the operand. */
  lemma NotNot(value: Token, operator: Token)
    requires operator.tokType == Not
    requires OperateUnary(value, operator).Value?
    ensures OperateUnary(OperateUnary(value, operator).value, operator) ==
      Value(BoolLiteral(CastToBool(ConvertTokenToValue(value).value).b))
  {
    UnaryNot(value, operator);
    var b := CastToBool(ConvertTokenToValue(value).value).b;
    BoolLiteralValue(!b);
    UnaryNot(BoolLiteral(!b), operator);
  }
}
