/** Results shared by the lexer, the operator semantics and the parser.

    The Rust code reports failure by panicking (`unwrap` on `None`, `panic!`,
    arithmetic overflow); the model turns every such panic into a `Panic`
    value naming the cause, and a loop the code would never leave into a
    `Panic(NoProgress(..))`. */
module Outcomes {

  /** Rust's `Option`. */
  datatype Option<+T> = None | Some(value: T)

  /** The reason a computation of the source panics (or would not terminate). */
  datatype Fault =
    /** `stream.next().unwrap()` in a lexer helper, at the end of the input */
    | UnexpectedEnd(pos: nat)
    /** the lexer's default branch would push an empty literal forever at `pos` */
    | NoProgress(pos: nat)
    /** `tok_value.unwrap().s_val.unwrap()` on a token without text */
    | MissingPayload
    /** `parse::<i32>().unwrap()` on a digit string outside the `i32` range */
    | IntParseOutOfRange
    /** `i32` arithmetic overflow (Rust panics in a debug build) */
    | ArithmeticOverflow
    /** `i32` division or remainder by zero */
    | DivisionByZero
    /** "got non bool value": an operand has no boolean (or floating) cast */
    | NonBoolValue
    | NonFloatValue
    /** "unknown unary type" and "unknown unary" in `operate_unary` */
    | UnknownUnaryType
    | UnknownUnary
    /** `postfix_expr.get(0).unwrap()` on an empty postfix expression */
    | EmptyExpression
    /** `calc_stack.pop_front().unwrap()` on a stack holding fewer than two operands */
    | StackUnderflow
    /** `t.next().unwrap()` when the token iterator runs out */
    | IteratorExhausted

  /** The outcome of a source computation: its value, the panic it raises, or
      `FloatDependent` when the value depends on floating-point arithmetic,
      which this model keeps opaque. */
  datatype Outcome<+T> = Value(value: T) | Panic(fault: Fault) | FloatDependent {

    predicate IsFailure() {
      !Value?
    }

    function PropagateFailure<U>(): Outcome<U>
      requires !Value?
    {
      if Panic? then Panic(fault) else FloatDependent
    }

    function Extract(): T
      requires Value?
    {
      value
    }
  }
}
