/** The expression parser (src/parser.rs): operator precedence, the
    conversion of an infix token sequence to postfix, the collection of an
    expression's tokens from a token iterator, and postfix evaluation.

    Each imperative routine of the source is a method proved equal to a
    specification function; the lemmas below state what those functions
    guarantee. */
module Parser {
  import opened Outcomes
  import opened Tokens
  import opened Expr

  // ----- precedence -----

  /** The kinds `precedence` ranks above 0: the binary operators the
      postfix evaluator applies. */
  predicate IsRanked(k: TokenType) {
    k in {Mult, Div, Mod, Plus, Minus, In, Equals, TokenType.And, TokenType.Or}
  }

  /** `precedence`, a `u8`. */
  function Precedence(t: Token): (p: nat)
    ensures p in {0, 251, 252, 253, 255}
  {
    match t.tokType
    case Mult => 255
    case Div => 255
    case Mod => 255
    case Plus => 253
    case Minus => 253
    case In => 252
    case Equals => 252
    case And => 251
    case Or => 251
    case _ => 0
  }

  // ----- infix to postfix: specification -----

  /** The state of `infix_to_postfix`: the operator stack, front (top)
      first as `push_front`/`pop_front` use it, and the output queue. */
  datatype Shunt = Shunt(stack: seq<Token>, queue: seq<Token>)

  /** How many tokens the loop of the `CloseParen` arm pops: those above
      the topmost `OpenParen`, or the whole stack when there is none. */
  function OpenIndex(stack: seq<Token>): (k: nat)
    ensures k <= |stack|
    ensures forall i :: 0 <= i < k ==> stack[i].tokType != OpenParen
    ensures k < |stack| ==> stack[k].tokType == OpenParen
  {
    if stack == [] || stack[0].tokType == OpenParen then 0 else 1 + OpenIndex(stack[1..])
  }

  /** How many tokens the second pop loop of the operator arm pops: it
      goes on while the incoming precedence `prec` is below `last`, the
      precedence of the token popped just before (not of the new top). */
  function PopCount(stack: seq<Token>, prec: nat, last: nat): (k: nat)
    ensures k <= |stack|
    decreases |stack|
  {
    if stack != [] && prec < last then 1 + PopCount(stack[1..], prec, Precedence(stack[0])) else 0
  }

  /** How many tokens an incoming operator of precedence `prec` pops: the
      top if `prec` is at most the top's precedence, then `PopCount` more. */
  function Popped(stack: seq<Token>, prec: nat): (k: nat)
    ensures k <= |stack|
  {
    if stack != [] && prec <= Precedence(stack[0]) then 1 + PopCount(stack[1..], prec, Precedence(stack[0]))
    else 0
  }

  /** Moves the top `k` tokens of the stack, top first, to the queue. */
  function Move(st: Shunt, k: nat): Shunt
    requires k <= |st.stack|
  {
    Shunt(st.stack[k..], st.queue + st.stack[..k])
  }

  /** One turn of the `for` loop of `infix_to_postfix`: a literal goes to
      the queue, an `OpenParen` onto the stack; a `CloseParen` pops up to
      the topmost `OpenParen` and drops it (`pop_front` on an empty list
      does nothing); an operator pops `Popped` tokens and is pushed. */
  function ShuntToken(st: Shunt, t: Token): Shunt {
    if t.tokType == Literal then Shunt(st.stack, st.queue + [t])
    else if t.tokType == OpenParen then Shunt([t] + st.stack, st.queue)
    else if t.tokType == CloseParen then
      var m := Move(st, OpenIndex(st.stack));
      if m.stack == [] then m else Shunt(m.stack[1..], m.queue)
    else
      var m := Move(st, Popped(st.stack, Precedence(t)));
      Shunt([t] + m.stack, m.queue)
  }

  function ShuntAll(st: Shunt, ts: seq<Token>): Shunt
    decreases |ts|
  {
    if ts == [] then st else ShuntAll(ShuntToken(st, ts[0]), ts[1..])
  }

  /** The loop over a concatenation runs over the second part from the
      state the first leaves. */
  lemma {:induction false} ShuntAllAppend(st: Shunt, a: seq<Token>, b: seq<Token>)
    ensures ShuntAll(st, a + b) == ShuntAll(ShuntAll(st, a), b)
    decreases |a|
  {
    if a == [] {
      assert a + b == b;
    } else {
      assert (a + b)[0] == a[0] && (a + b)[1..] == a[1..] + b;
      ShuntAllAppend(ShuntToken(st, a[0]), a[1..], b);
    }
  }

  /** The result of `infix_to_postfix`: the final loop pops every remaining
      operator, top first, onto the queue. */
  function Postfix(ts: seq<Token>): seq<Token> {
    var st := ShuntAll(Shunt([], []), ts);
    st.queue + st.stack
  }

  // ----- infix to postfix: the imperative routine -----

  /** `infix_to_postfix`, with the linked-list operator stack as a sequence
      whose front is the top. */
  method InfixToPostfix(tokens: seq<Token>) returns (queue: seq<Token>)
    ensures queue == Postfix(tokens)
  {
    var stack: seq<Token> := [];
    queue := [];
    for i := 0 to |tokens|
      invariant ShuntAll(Shunt(stack, queue), tokens[i..]) == ShuntAll(Shunt([], []), tokens)
    {
      assert tokens[i..][1..] == tokens[i + 1..];
      var token := tokens[i];
      if token.tokType == Literal {
        queue := queue + [token];
      } else if token.tokType == OpenParen {
        stack := [token] + stack;
      } else if token.tokType == CloseParen {
        stack, queue := CloseParenTurn(stack, queue, token);
      } else {
        stack, queue := OperatorTurn(stack, queue, token);
      }
    }
    assert tokens[|tokens|..] == [];
    ghost var last := Shunt(stack, queue);
    while stack != []
      invariant queue + stack == last.queue + last.stack
      decreases |stack|
    {
      var tok := stack[0];
      queue := queue + [tok];
      stack := stack[1..];
    }
  }

  /** Moving one more token moves the top of what is left. */
  lemma MoveOne(st: Shunt, j: nat)
    requires j < |st.stack|
    ensures var m := Move(st, j);
      m.stack != [] && m.stack[0] == st.stack[j]
      && Move(st, j + 1) == Shunt(m.stack[1..], m.queue + [m.stack[0]])
  {
    assert st.stack[..j + 1] == st.stack[..j] + [st.stack[j]];
  }

  /** The pop loop of the `CloseParen` arm stops at `OpenIndex`. */
  lemma OpenIndexAt(stack: seq<Token>, j: nat)
    requires j <= OpenIndex(stack)
    requires j == |stack| || stack[j].tokType == OpenParen
    ensures j == OpenIndex(stack)
  {
  }

  /** The `CloseParen` arm of the loop. */
  method CloseParenTurn(stack0: seq<Token>, queue0: seq<Token>, token: Token) returns (stack: seq<Token>, queue: seq<Token>)
    requires token.tokType == CloseParen
    ensures Shunt(stack, queue) == ShuntToken(Shunt(stack0, queue0), token)
  {
    stack, queue := stack0, queue0;
    ghost var j := 0;
    while stack != [] && stack[0].tokType != OpenParen
      invariant j <= OpenIndex(stack0)
      invariant Shunt(stack, queue) == Move(Shunt(stack0, queue0), j)
      decreases |stack|
    {
      MoveOne(Shunt(stack0, queue0), j);
      queue := queue + [stack[0]];
      stack := stack[1..];
      j := j + 1;
    }
    OpenIndexAt(stack0, j);
    if stack != [] {
      stack := stack[1..];
    }
  }

  /** The operator arm of the loop. */
  method OperatorTurn(stack0: seq<Token>, queue0: seq<Token>, token: Token) returns (stack: seq<Token>, queue: seq<Token>)
    requires token.tokType !in {Literal, OpenParen, CloseParen}
    ensures Shunt(stack, queue) == ShuntToken(Shunt(stack0, queue0), token)
  {
    stack, queue := stack0, queue0;
    var prec := Precedence(token);
    var stackPrec: nat;
    ghost var j := 0;
    if stack != [] {
      stackPrec := Precedence(stack[0]);
      if prec <= stackPrec {
        var tok := stack[0];
        stack := stack[1..];
        queue := queue + [tok];
        stackPrec := Precedence(tok);
        j := 1;
      }
    } else {
      stackPrec := 0;
    }
    while stack != [] && prec < stackPrec
      invariant j <= |stack0|
      invariant Shunt(stack, queue) == Move(Shunt(stack0, queue0), j)
      invariant j + PopCount(stack, prec, stackPrec) == Popped(stack0, prec)
      decreases |stack|
    {
      var tok := stack[0];
      MoveOne(Shunt(stack0, queue0), j);
      stack := stack[1..];
      stackPrec := Precedence(tok);
      queue := queue + [tok];
      j := j + 1;
    }
    stack := [token] + stack;
  }

  // ----- infix to postfix: properties -----

  /** `precedence`: multiplicative operators bind tightest, then additive,
      then `in`/`=`, then `and`/`or`; every other kind (comparisons,
      parentheses, literals, ...) has precedence 0. */
  lemma PrecedenceLevels(t: Token)
    ensures Precedence(t) == 0 <==> !IsRanked(t.tokType)
    ensures t.tokType in {Mult, Div, Mod} <==> Precedence(t) == 255
    ensures t.tokType in {Plus, Minus} <==> Precedence(t) == 253
    ensures t.tokType in {In, Equals} <==> Precedence(t) == 252
    ensures t.tokType in {TokenType.And, TokenType.Or} <==> Precedence(t) == 251
  {
  }

  predicate IsParen(t: Token) {
    t.tokType == OpenParen || t.tokType == CloseParen
  }

  /** The `Literal` tokens of a sequence, in order. */
  function Literals(s: seq<Token>): (r: seq<Token>)
    ensures |r| <= |s|
  {
    if s == [] then []
    else if s[0].tokType == Literal then [s[0]] + Literals(s[1..])
    else Literals(s[1..])
  }

  lemma {:induction false} LiteralsAppend(a: seq<Token>, b: seq<Token>)
    ensures Literals(a + b) == Literals(a) + Literals(b)
    decreases |a|
  {
    if a == [] {
      assert a + b == b;
    } else {
      assert (a + b)[1..] == a[1..] + b;
      assert (a + b)[0] == a[0];
      LiteralsAppend(a[1..], b);
      if a[0].tokType == Literal {
        assert [a[0]] + Literals(a[1..]) + Literals(b) == [a[0]] + (Literals(a[1..]) + Literals(b));
      }
    }
  }

  lemma {:induction false} NoLiterals(s: seq<Token>)
    requires forall i :: 0 <= i < |s| ==> s[i].tokType != Literal
    ensures Literals(s) == []
    decreases |s|
  {
    if s != [] {
      NoLiterals(s[1..]);
    }
  }

  /** The second pop loop pops a token while the one it popped before
      (first `last`) outranks the incoming precedence. */
  lemma {:induction false} PopCountStops(stack: seq<Token>, prec: nat, last: nat)
    ensures var k := PopCount(stack, prec, last);
      (k == 0 <==> stack == [] || prec >= last)
      && (forall i :: 0 <= i < k - 1 ==> prec < Precedence(stack[i]))
      && (0 < k < |stack| ==> prec >= Precedence(stack[k - 1]))
    decreases |stack|
  {
    if stack != [] && prec < last {
      PopCountStops(stack[1..], prec, Precedence(stack[0]));
      var k' := PopCount(stack[1..], prec, Precedence(stack[0]));
      forall i | 0 <= i < k'
        ensures prec < Precedence(stack[i])
      {
        if i > 0 {
          assert stack[i] == stack[1..][i - 1];
        }
      }
      if 0 < k' < |stack| - 1 {
        assert stack[k'] == stack[1..][k' - 1];
      }
    }
  }

  /** The operator arm as the source writes it: the incoming operator pops
      the top when its precedence is at most the top's; each further pop
      happens while its precedence is below that of the token popped just
      before, which need not be the new top's; then it is pushed. */
  lemma PoppedStops(stack: seq<Token>, prec: nat)
    ensures var k := Popped(stack, prec);
      (k == 0 <==> stack == [] || prec > Precedence(stack[0]))
      && (forall i :: 0 <= i < k - 1 ==> prec < Precedence(stack[i]))
      && (0 < k < |stack| ==> prec >= Precedence(stack[k - 1]))
  {
    if stack != [] && prec <= Precedence(stack[0]) {
      PopCountStops(stack[1..], prec, Precedence(stack[0]));
      var k' := PopCount(stack[1..], prec, Precedence(stack[0]));
      forall i | 0 <= i < k'
        ensures prec < Precedence(stack[i])
      {
        if i > 0 {
          assert stack[i] == stack[1..][i - 1];
        }
      }
      if 0 < k' < |stack| - 1 {
        assert stack[k'] == stack[1..][k' - 1];
      }
    }
  }

  // What the turns keep.

  /** What every reachable state satisfies: the stack holds no literal
      and no `CloseParen`, and the queue holds no `CloseParen`. */
  predicate Good(st: Shunt) {
    (forall i :: 0 <= i < |st.stack| ==> st.stack[i].tokType != Literal && st.stack[i].tokType != CloseParen)
    && (forall i :: 0 <= i < |st.queue| ==> st.queue[i].tokType != CloseParen)
  }

  /** How often `u` is held, on the stack or in the queue. */
  function Count(st: Shunt, u: Token): nat {
    multiset(st.stack)[u] + multiset(st.queue)[u]
  }

  function Indicator(b: bool): nat {
    if b then 1 else 0
  }

  /** Moving a prefix of the stack to the queue keeps `Good` and the
      literals of the queue. */
  lemma MoveGood(st: Shunt, k: nat)
    requires k <= |st.stack| && Good(st)
    ensures Good(Move(st, k))
    ensures Literals(Move(st, k).queue) == Literals(st.queue)
  {
    var a := st.stack[..k];
    var m := Move(st, k);
    assert forall i :: 0 <= i < |m.stack| ==> m.stack[i] == st.stack[k + i];
    assert forall i :: 0 <= i < |m.queue| ==> m.queue[i] == if i < |st.queue| then st.queue[i] else a[i - |st.queue|];
    assert forall i :: 0 <= i < |a| ==> a[i] == st.stack[i];
    LiteralsAppend(st.queue, a);
    NoLiterals(a);
  }

  /** Moving a prefix of the stack to the queue keeps every count. */
  lemma MoveCounts(st: Shunt, k: nat, u: Token)
    requires k <= |st.stack|
    ensures Count(Move(st, k), u) == Count(st, u)
  {
    var a, b := st.stack[..k], st.stack[k..];
    assert st.stack == a + b;
  }

  /** A turn keeps `Good` and appends the literal it reads, if any, to the
      queue. */
  lemma ShuntTokenGood(st: Shunt, t: Token)
    requires Good(st)
    ensures Good(ShuntToken(st, t))
    ensures Literals(ShuntToken(st, t).queue) == Literals(st.queue) + Literals([t])
  {
    assert [t][1..] == [];
    if t.tokType == Literal {
      LiteralsAppend(st.queue, [t]);
    } else if t.tokType == CloseParen {
      CloseParenGood(st, t);
    } else if t.tokType != OpenParen {
      OperatorGood(st, t);
    }
  }

  lemma CloseParenGood(st: Shunt, t: Token)
    requires Good(st) && t.tokType == CloseParen
    ensures Good(ShuntToken(st, t))
    ensures Literals(ShuntToken(st, t).queue) == Literals(st.queue)
  {
    MoveGood(st, OpenIndex(st.stack));
  }

  lemma OperatorGood(st: Shunt, t: Token)
    requires Good(st) && t.tokType !in {Literal, OpenParen, CloseParen}
    ensures Good(ShuntToken(st, t))
    ensures Literals(ShuntToken(st, t).queue) == Literals(st.queue)
  {
    MoveGood(st, Popped(st.stack, Precedence(t)));
  }

  /** A turn adds the token it reads and drops at most an `OpenParen`. */
  lemma ShuntTokenCounts(st: Shunt, t: Token, u: Token)
    ensures Count(ShuntToken(st, t), u) <= Count(st, u) + Indicator(t == u)
    ensures u.tokType != OpenParen ==>
      Count(ShuntToken(st, t), u) == Count(st, u) + Indicator(t == u && t.tokType != CloseParen)
  {
    if t.tokType == CloseParen {
      CloseParenCounts(st, t, u);
    } else if t.tokType != Literal && t.tokType != OpenParen {
      OperatorCounts(st, t, u);
    }
  }

  lemma CloseParenCounts(st: Shunt, t: Token, u: Token)
    requires t.tokType == CloseParen
    ensures Count(ShuntToken(st, t), u) <= Count(st, u)
    ensures u.tokType != OpenParen ==> Count(ShuntToken(st, t), u) == Count(st, u)
  {
    var m := Move(st, OpenIndex(st.stack));
    MoveCounts(st, OpenIndex(st.stack), u);
    if m.stack != [] {
      assert m.stack == [m.stack[0]] + m.stack[1..];
    }
  }

  lemma OperatorCounts(st: Shunt, t: Token, u: Token)
    requires t.tokType !in {Literal, OpenParen, CloseParen}
    ensures Count(ShuntToken(st, t), u) == Count(st, u) + Indicator(t == u)
  {
    MoveCounts(st, Popped(st.stack, Precedence(t)), u);
  }

  lemma {:induction false} ShuntAllGood(st: Shunt, ts: seq<Token>)
    requires Good(st)
    ensures Good(ShuntAll(st, ts))
    ensures Literals(ShuntAll(st, ts).queue) == Literals(st.queue) + Literals(ts)
    decreases |ts|
  {
    if ts != [] {
      var next := ShuntToken(st, ts[0]);
      assert ShuntAll(st, ts) == ShuntAll(next, ts[1..]);
      ShuntTokenGood(st, ts[0]);
      ShuntAllGood(next, ts[1..]);
      LiteralsCons(ts);
      var q, a, b := Literals(st.queue), Literals([ts[0]]), Literals(ts[1..]);
      assert Literals(ShuntAll(st, ts).queue) == (q + a) + b;
      assert (q + a) + b == q + (a + b);
    }
  }

  lemma LiteralsCons(ts: seq<Token>)
    requires ts != []
    ensures Literals(ts) == Literals([ts[0]]) + Literals(ts[1..])
  {
    assert [ts[0]][1..] == [];
    assert Literals([ts[0]][1..]) == [];
  }

  /** The number of occurrences of `u` in `ts` that the turns keep. */
  function Kept(ts: seq<Token>, u: Token): nat {
    if u.tokType == CloseParen then 0 else multiset(ts)[u]
  }

  lemma {:induction false} ShuntAllCounts(st: Shunt, ts: seq<Token>, u: Token)
    ensures Count(ShuntAll(st, ts), u) <= Count(st, u) + multiset(ts)[u]
    ensures u.tokType != OpenParen ==> Count(ShuntAll(st, ts), u) == Count(st, u) + Kept(ts, u)
    decreases |ts|
  {
    if ts != [] {
      ShuntTokenCounts(st, ts[0], u);
      ShuntAllCounts(ShuntToken(st, ts[0]), ts[1..], u);
      assert ts == [ts[0]] + ts[1..];
      assert multiset(ts)[u] == Indicator(ts[0] == u) + multiset(ts[1..])[u];
    }
  }

  /** `infix_to_postfix` never emits a `CloseParen` and emits the literals
      in their input order. */
  lemma PostfixLiterals(ts: seq<Token>)
    ensures forall i :: 0 <= i < |Postfix(ts)| ==> Postfix(ts)[i].tokType != CloseParen
    ensures Literals(Postfix(ts)) == Literals(ts)
  {
    var st := ShuntAll(Shunt([], []), ts);
    ShuntAllGood(Shunt([], []), ts);
    LiteralsAppend(st.queue, st.stack);
    NoLiterals(st.stack);
  }

  /** `infix_to_postfix` emits every token other than a parenthesis
      exactly as often as it occurs and no token more often than it occurs:
      the only tokens it drops are `CloseParen`s and `OpenParen`s. */
  lemma PostfixCounts(ts: seq<Token>)
    ensures forall u :: !IsParen(u) ==> multiset(Postfix(ts))[u] == multiset(ts)[u]
    ensures multiset(Postfix(ts)) <= multiset(ts)
  {
    var st := ShuntAll(Shunt([], []), ts);
    assert multiset(Postfix(ts)) == multiset(st.queue) + multiset(st.stack);
    forall u
      ensures multiset(Postfix(ts))[u] <= multiset(ts)[u]
      ensures !IsParen(u) ==> multiset(Postfix(ts))[u] == multiset(ts)[u]
    {
      ShuntAllCounts(Shunt([], []), ts, u);
    }
  }

  predicate ParenFree(s: seq<Token>) {
    forall i :: 0 <= i < |s| ==> !IsParen(s[i])
  }

  /** Without parentheses the output is a permutation of the input. */
  lemma PostfixPermutes(ts: seq<Token>)
    requires ParenFree(ts)
    ensures multiset(Postfix(ts)) == multiset(ts)
  {
    PostfixCounts(ts);
    forall u | IsParen(u)
      ensures multiset(Postfix(ts))[u] == multiset(ts)[u]
    {
      assert u !in multiset(ts);
    }
  }

  // ----- collecting an expression's tokens -----

  /** The kinds `collect_expression_tokens` takes into an expression. */
  predicate Collectable(t: Token) {
    t.tokType in {OpenParen, CloseParen, Literal, Plus, Minus}
  }

  /** What `collect_expression_tokens` returns, the first token outside
      the expression and the tokens collected, and what is left in the
      iterator it advanced. */
  datatype Collected = Collected(stop: Token, acc: seq<Token>, rest: seq<Token>)

  /** A collected token whose payload the loop's `println!` unwraps to no
      text: `s_val.unwrap()` panics. */
  predicate PayloadWithoutText(t: Token) {
    t.tokValue.Some? && t.tokValue.value.sVal.None?
  }

  /** A token the loop takes in and goes past. */
  predicate Passes(t: Token) {
    Collectable(t) && !PayloadWithoutText(t)
  }

  function Collect(ts: seq<Token>): (r: Outcome<Collected>)
    ensures !r.FloatDependent?
    decreases |ts|
  {
    if ts == [] then Panic(IteratorExhausted)
    else if !Collectable(ts[0]) then Value(Collected(ts[0], [], ts[1..]))
    else if PayloadWithoutText(ts[0]) then Panic(MissingPayload)
    else
      var c :- Collect(ts[1..]);
      Value(Collected(c.stop, [ts[0]] + c.acc, c.rest))
  }

  /** The position of the first token the loop does not go past, or `|ts|`. */
  function FirstStop(ts: seq<Token>): (k: nat)
    ensures k <= |ts|
    ensures forall i :: 0 <= i < k ==> Passes(ts[i])
    ensures k < |ts| ==> !Passes(ts[k])
  {
    if ts == [] || !Passes(ts[0]) then 0 else 1 + FirstStop(ts[1..])
  }

  /** `collect_expression_tokens` goes past the collectable tokens with text
      and stops at the first other one, `k`: if it is not collectable, the
      tokens before it are returned with it and the rest; if it is (its
      payload then has no text), `s_val.unwrap()` panics; if there is none,
      the iterator runs out. */
  lemma {:induction false} CollectMaximal(ts: seq<Token>)
    ensures var k := FirstStop(ts);
      && (k == |ts| ==> Collect(ts) == Panic(IteratorExhausted))
      && (k < |ts| && Collectable(ts[k]) ==> PayloadWithoutText(ts[k]) && Collect(ts) == Panic(MissingPayload))
      && (k < |ts| && !Collectable(ts[k]) ==> Collect(ts) == Value(Collected(ts[k], ts[..k], ts[k + 1..])))
    decreases |ts|
  {
    if ts != [] && Passes(ts[0]) {
      var tail := ts[1..];
      CollectMaximal(tail);
      var k := FirstStop(tail);
      assert FirstStop(ts) == k + 1;
      if k < |tail| {
        assert ts[k + 1] == tail[k];
        assert [ts[0]] + tail[..k] == ts[..k + 1];
        assert tail[k + 1..] == ts[k + 2..];
      }
    }
  }

  /** Conversely, collectable tokens with text, followed by one that is not
      collectable, are collected up to it, whatever follows. */
  lemma {:induction false} CollectPrefix(p: seq<Token>, stop: Token, rest: seq<Token>)
    requires forall i :: 0 <= i < |p| ==> Passes(p[i])
    requires !Collectable(stop)
    ensures Collect(p + [stop] + rest) == Value(Collected(stop, p, rest))
    decreases |p|
  {
    var ts := p + [stop] + rest;
    if p == [] {
      assert ts == [stop] + rest;
    } else {
      assert ts[0] == p[0] && ts[1..] == p[1..] + [stop] + rest;
      CollectPrefix(p[1..], stop, rest);
      assert [p[0]] + p[1..] == p;
    }
  }

  /** `collect_expression_tokens`, with the iterator as the sequence of
      the tokens it has left. The source's `current_token` parameter is
      unused and left out. */
  method CollectExpressionTokens(tokens: seq<Token>) returns (r: Outcome<Collected>)
    ensures r == Collect(tokens)
  {
    CollectMaximal(tokens);
    if tokens == [] {
      return Panic(IteratorExhausted);
    }
    var current := tokens[0];
    var next := 1;
    var acc: seq<Token> := [];
    while Collectable(current)
      invariant 1 <= next <= |tokens| && current == tokens[next - 1]
      invariant acc == tokens[..next - 1]
      invariant forall i :: 0 <= i < next - 1 ==> Passes(tokens[i])
      decreases |tokens| - next
    {
      if current.tokValue.Some? && current.tokValue.value.sVal.None? {
        return Panic(MissingPayload);
      }
      acc := acc + [current];
      if next == |tokens| {
        return Panic(IteratorExhausted);
      }
      current := tokens[next];
      next := next + 1;
    }
    r := Value(Collected(current, acc, tokens[next..]));
  }

  // ----- postfix evaluation -----

  /** One token of the single pass `eval_expression` describes, over a
      calculation stack whose front is the top: a token of precedence 0 is
      an operand and is pushed; an operator pops the right operand, then
      the left, and pushes what `operate` makes of them. */
  function EvalToken(stack: seq<Token>, t: Token): Outcome<seq<Token>> {
    if Precedence(t) == 0 then Value([t] + stack)
    else if |stack| < 2 then Panic(StackUnderflow)
    else
      var r :- Operate(stack[1], stack[0], t);
      Value([r] + stack[2..])
  }

  function EvalFrom(stack: seq<Token>, ts: seq<Token>): Outcome<seq<Token>>
    decreases |ts|
  {
    if ts == [] then Value(stack)
    else
      var s :- EvalToken(stack, ts[0]);
      EvalFrom(s, ts[1..])
  }

  /** The calculation stack left by the pass; an empty expression panics at
      `postfix_expr.get(0).unwrap()`. */
  function EvalPostfix(postfix: seq<Token>): Outcome<seq<Token>> {
    if postfix == [] then Panic(EmptyExpression) else EvalFrom([], postfix)
  }

  /** `eval_expression` as the single pass its loop body describes. */
  method EvalExpression(postfix: seq<Token>) returns (r: Outcome<seq<Token>>)
    ensures r == EvalPostfix(postfix)
  {
    if postfix == [] {
      return Panic(EmptyExpression);
    }
    var calcStack: seq<Token> := [];
    for i := 0 to |postfix|
      invariant EvalFrom(calcStack, postfix[i..]) == EvalFrom([], postfix)
    {
      assert postfix[i..][1..] == postfix[i + 1..];
      var token := postfix[i];
      if Precedence(token) == 0 {
        calcStack := [token] + calcStack;
      } else {
        if |calcStack| < 2 {
          return Panic(StackUnderflow);
        }
        var right := calcStack[0];
        var left := calcStack[1];
        var result := Operate(left, right, token);
        if result.IsFailure() {
          return result.PropagateFailure();
        }
        calcStack := [result.value] + calcStack[2..];
      }
    }
    assert postfix[|postfix|..] == [];
    return Value(calcStack);
  }

  /** The number of operators (tokens of non-zero precedence) in `ts`. */
  function Operators(ts: seq<Token>): (n: nat)
    ensures n <= |ts|
  {
    if ts == [] then 0 else Indicator(Precedence(ts[0]) != 0) + Operators(ts[1..])
  }

  /** Each operand pushes one token and each operator replaces two by one,
      so a successful pass leaves `|stack| + |ts| - 2 * Operators(ts)`
      tokens. */
  lemma {:induction false} EvalDepth(stack: seq<Token>, ts: seq<Token>)
    ensures EvalFrom(stack, ts).Value? ==> |EvalFrom(stack, ts).value| == |stack| + |ts| - 2 * Operators(ts)
    decreases |ts|
  {
    if ts != [] && EvalToken(stack, ts[0]).Value? {
      EvalDepth(EvalToken(stack, ts[0]).value, ts[1..]);
    }
  }

  /** Evaluating a concatenation evaluates the second part on the stack
      the first leaves. */
  lemma {:induction false} EvalFromAppend(stack: seq<Token>, a: seq<Token>, b: seq<Token>)
    ensures EvalFrom(stack, a + b) == (var s :- EvalFrom(stack, a); EvalFrom(s, b))
    decreases |a|
  {
    if a == [] {
      assert a + b == b;
    } else {
      assert (a + b)[0] == a[0] && (a + b)[1..] == a[1..] + b;
      if EvalToken(stack, a[0]).Value? {
        EvalFromAppend(EvalToken(stack, a[0]).value, a[1..], b);
      }
    }
  }

  /** Two operands in a row are pushed in turn. */
  lemma EvalOperands(stack: seq<Token>, l: Token, r: Token, ts: seq<Token>)
    requires Precedence(l) == 0 && Precedence(r) == 0
    ensures EvalFrom(stack, [l, r] + ts) == EvalFrom([r, l] + stack, ts)
  {
    var s := [l, r] + ts;
    assert s[0] == l && s[1..] == [r] + ts;
    assert s[1..][0] == r && s[1..][1..] == ts;
    assert [r] + ([l] + stack) == [r, l] + stack;
  }

  /** A one-token pass is that token's step. */
  lemma EvalSingle(stack: seq<Token>, t: Token)
    ensures EvalFrom(stack, [t]) == EvalToken(stack, t)
  {
    assert [t][1..] == [];
  }

  /** Comparisons have precedence 0, so the pass pushes them as operands:
      `l r >` leaves all three tokens on the stack. */
  lemma EvalComparisonIsOperand(l: Token, r: Token, op: Token)
    requires Precedence(l) == 0 && Precedence(r) == 0
    requires op.tokType in {TokenType.GreaterThan, TokenType.LessThan, TokenType.Gte, TokenType.Lte, TokenType.NotEqual}
    ensures EvalPostfix([l, r, op]) == Value([op, r, l])
  {
    EvalOperands([], l, r, [op]);
    assert [l, r] + [op] == [l, r, op] && [r, l] + [] == [r, l];
    PrecedenceLevels(op);
    assert Precedence(op) == 0;
    assert [op] + [r, l] == [op, r, l];
    EvalSingle([r, l], op);
  }

  // ----- what a postfix sequence means -----

  /** A binary expression over operand tokens, the meaning a postfix
      sequence is evaluated for. */
  datatype Tree = Leaf(operand: Token) | Node(left: Tree, operator: Token, right: Tree)

  /** Leaves are operands and inner nodes operators, as `precedence` tells
      them apart. */
  predicate WellFormedTree(e: Tree) {
    match e
    case Leaf(t) => Precedence(t) == 0
    case Node(l, op, r) => Precedence(op) != 0 && WellFormedTree(l) && WellFormedTree(r)
  }

  /** The postfix form of a tree: left operand, right operand, operator. */
  function PostfixOf(e: Tree): (ts: seq<Token>)
    ensures |ts| > 0
  {
    match e
    case Leaf(t) => [t]
    case Node(l, op, r) => PostfixOf(l) + PostfixOf(r) + [op]
  }

  /** The value of a tree: the left operand is evaluated first, then the
      right, then `operate` combines them. */
  function Denote(e: Tree): Outcome<Token> {
    match e
    case Leaf(t) => Value(t)
    case Node(l, op, r) =>
      var lv :- Denote(l);
      var rv :- Denote(r);
      Operate(lv, rv, op)
  }

  /** An operator with its two operands on top of the stack replaces them
      by what `operate` makes of them. */
  lemma EvalOperatorStep(l: Token, r: Token, stack: seq<Token>, op: Token, ts: seq<Token>)
    requires Precedence(op) != 0
    ensures EvalFrom([r, l] + stack, [op] + ts) == (var v :- Operate(l, r, op); EvalFrom([v] + stack, ts))
  {
    assert ([op] + ts)[1..] == ts;
    assert ([r, l] + stack)[2..] == stack;
  }

  /** Evaluating the postfix form of a tree pushes its value, or fails as
      its value does, whatever lies on the stack below and whatever
      follows. */
  lemma {:induction false} EvalTree(e: Tree, stack: seq<Token>, ts: seq<Token>)
    requires WellFormedTree(e)
    ensures EvalFrom(stack, PostfixOf(e) + ts) == (var v :- Denote(e); EvalFrom([v] + stack, ts))
    decreases e
  {
    match e
    case Leaf(t) =>
      assert ([t] + ts)[1..] == ts;
    case Node(l, op, r) =>
      var pl, pr := PostfixOf(l), PostfixOf(r);
      assert PostfixOf(e) + ts == pl + (pr + ([op] + ts));
      EvalTree(l, stack, pr + ([op] + ts));
      if Denote(l).Value? {
        var lv := Denote(l).value;
        EvalTree(r, [lv] + stack, [op] + ts);
        if Denote(r).Value? {
          var rv := Denote(r).value;
          assert [rv] + ([lv] + stack) == [rv, lv] + stack;
          EvalOperatorStep(lv, rv, stack, op, ts);
        }
      }
  }

  /** The pass over the postfix form of a tree leaves exactly its value. */
  lemma EvalTreeValue(e: Tree)
    requires WellFormedTree(e)
    ensures EvalPostfix(PostfixOf(e)) == (var v :- Denote(e); Value([v]))
  {
    EvalTree(e, [], []);
    assert PostfixOf(e) + [] == PostfixOf(e);
    if Denote(e).Value? {
      assert [Denote(e).value] + [] == [Denote(e).value];
    }
  }

  // ----- eval_expression as written -----

  /** One pass of the loop of `eval_expression` as written: `token` stays
      bound to `postfix_expr[0]`, an operand is pushed onto `calc_stack`, and an
      operator's result is pushed onto `expr`, the vector the loop tests. */
  function AsWrittenPass(calcStack: seq<Token>, token: Token, expr: seq<Token>): Outcome<(seq<Token>, seq<Token>)> {
    if Precedence(token) == 0 then Value(([token] + calcStack, expr))
    else if |calcStack| < 2 then Panic(StackUnderflow)
    else
      var r :- Operate(calcStack[1], calcStack[0], token);
      Value((calcStack[2..], expr + [r]))
  }

  /** The state after at most `n` passes, stopping early once `expr` is
      empty. */
  function AsWrittenPasses(calcStack: seq<Token>, token: Token, expr: seq<Token>, n: nat): Outcome<(seq<Token>, seq<Token>)>
    decreases n
  {
    if n == 0 || expr == [] then Value((calcStack, expr))
    else
      var next :- AsWrittenPass(calcStack, token, expr);
      AsWrittenPasses(next.0, token, next.1, n - 1)
  }

  /** When the postfix expression starts with an operand, every pass pushes
      that operand again and leaves `expr` as it was, so the loop never
      exits. */
  lemma {:induction false} AsWrittenOperandLoops(calcStack: seq<Token>, token: Token, expr: seq<Token>, n: nat)
    requires Precedence(token) == 0 && expr != []
    ensures AsWrittenPasses(calcStack, token, expr, n) == Value((seq(n, _ => token) + calcStack, expr))
    decreases n
  {
    if n == 0 {
      assert seq(0, _ => token) + calcStack == calcStack;
    } else {
      AsWrittenOperandLoops([token] + calcStack, token, expr, n - 1);
      assert seq(n - 1, _ => token) + ([token] + calcStack) == seq(n, _ => token) + calcStack;
    }
  }

  /** On a postfix expression that starts with an operand, however many
      passes run, the loop condition still holds. */
  lemma AsWrittenNeverEnds(postfix: seq<Token>, n: nat)
    requires postfix != [] && Precedence(postfix[0]) == 0
    ensures AsWrittenPasses([], postfix[0], postfix, n).Value?
    ensures AsWrittenPasses([], postfix[0], postfix, n).value.1 != []
  {
    AsWrittenOperandLoops([], postfix[0], postfix, n);
  }

  /** The postfix form of every tree starts with an operand, so the loop as
      written never ends on any expression the single pass evaluates. */
  lemma {:induction false} TreeStartsWithOperand(e: Tree)
    requires WellFormedTree(e)
    ensures Precedence(PostfixOf(e)[0]) == 0
    decreases e
  {
    if e.Node? {
      TreeStartsWithOperand(e.left);
      assert PostfixOf(e)[0] == PostfixOf(e.left)[0];
    }
  }

  /** A postfix expression that starts with an operator panics on the
      first pass. */
  lemma AsWrittenOperatorFirst(postfix: seq<Token>)
    requires postfix != [] && Precedence(postfix[0]) != 0
    ensures AsWrittenPasses([], postfix[0], postfix, 1) == Panic(StackUnderflow)
  {
  }
}
