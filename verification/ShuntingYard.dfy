/** The shunting-yard construction of a tree from tokens. */
module ShuntingYard {
  import opened Values
  import opened Lexer

  function Precedence(t: Token): int
    requires t.Operator? || t.Negate?
  {
    if t.Negate? then 3 else if t.op == Mul || t.op == Div then 2 else 1
  }

  /** Whether `top` must be folded before `incoming` is pushed: binary operators associate to the
      left, negation to the right. */
  predicate ShouldPop(top: Token, incoming: Token)
    requires incoming.Operator? || incoming.Negate?
  {
    && (top.Operator? || top.Negate?)
    && (if incoming.Negate? then Precedence(top) > Precedence(incoming)
        else Precedence(top) >= Precedence(incoming))
  }

  // ---- Specification ----------------------------------------------------------------------

  /** The two stacks. */
  datatype Yard = Yard(operands: seq<Node>, ops: seq<Token>) {
    function Top(): Token
      requires ops != []
    {
      ops[|ops| - 1]
    }

    function Rest(): seq<Token>
      requires ops != []
    {
      ops[..|ops| - 1]
    }
  }

  predicate IsOp(t: Token) {
    t.Operator? || t.Negate?
  }

  /** Folds the top operator over the operand stack. */
  function Fold(ar: Arithmetic, y: Yard): (r: Result<Yard>)
    requires y.ops != [] && IsOp(y.Top())
    ensures r.Ok? ==> r.value.ops == y.Rest()
  {
    var n := |y.operands|;
    if y.Top().Negate? then
      if n < 1 then Err(InvalidInput)
      else Ok(Yard(y.operands[..n - 1] + [Binary(Sub, Leaf(ar.zero), y.operands[n - 1])], y.Rest()))
    else
      if n < 2 then Err(InvalidInput)
      else Ok(Yard(y.operands[..n - 2] + [Binary(y.Top().op, y.operands[n - 2], y.operands[n - 1])], y.Rest()))
  }

  /** Folds while the top of the stack yields to `incoming`. */
  function FoldFor(ar: Arithmetic, y: Yard, incoming: Token): Result<Yard>
    requires IsOp(incoming)
    decreases |y.ops|
  {
    if y.ops != [] && ShouldPop(y.Top(), incoming) then
      match Fold(ar, y)
      case Err(e) => Err(e)
      case Ok(y') => FoldFor(ar, y', incoming)
    else Ok(y)
  }

  /** Folds down to the matching left parenthesis and discards it. */
  function Close(ar: Arithmetic, y: Yard): Result<Yard>
    decreases |y.ops|
  {
    if y.ops == [] then Err(InvalidInput)
    else if IsOp(y.Top()) then
      match Fold(ar, y)
      case Err(e) => Err(e)
      case Ok(y') => Close(ar, y')
    else Ok(y.(ops := y.Rest()))
  }

  function Feed(ar: Arithmetic, y: Yard, t: Token): Result<Yard> {
    match t
    case Number(v) => Ok(y.(operands := y.operands + [Leaf(v)]))
    case LParen => Ok(y.(ops := y.ops + [LParen]))
    case RParen => Close(ar, y)
    case _ =>
      match FoldFor(ar, y, t)
      case Err(e) => Err(e)
      case Ok(y') => Ok(y'.(ops := y'.ops + [t]))
  }

  function FeedAll(ar: Arithmetic, y: Yard, tokens: seq<Token>): Result<Yard>
    decreases |tokens|
  {
    if tokens == [] then Ok(y)
    else match Feed(ar, y, tokens[0])
      case Err(e) => Err(e)
      case Ok(y') => FeedAll(ar, y', tokens[1..])
  }

  /** Folds everything that is left. */
  function Drain(ar: Arithmetic, y: Yard): Result<Node>
    decreases |y.ops|
  {
    if y.ops == [] then
      if |y.operands| == 1 then Ok(y.operands[0]) else Err(InvalidInput)
    else if !IsOp(y.Top()) then Err(InvalidInput)
    else match Fold(ar, y)
      case Err(e) => Err(e)
      case Ok(y') => Drain(ar, y')
  }

  function Tree(ar: Arithmetic, tokens: seq<Token>): Result<Node> {
    match FeedAll(ar, Yard([], []), tokens)
    case Err(e) => Err(e)
    case Ok(y) => Drain(ar, y)
  }

  /** What Parse returns. */
  function ParseOf(ar: Arithmetic, raw: string): Result<Node> {
    match Tokens(ar, raw)
    case Err(e) => Err(e)
    case Ok(tokens) => Tree(ar, tokens)
  }

  lemma {:induction false} FoldForFails(ar: Arithmetic, y: Yard, incoming: Token)
    requires IsOp(incoming)
    ensures FoldFor(ar, y, incoming).Err? ==> FoldFor(ar, y, incoming).error == InvalidInput
    decreases |y.ops|
  {
    if y.ops != [] && ShouldPop(y.Top(), incoming) && Fold(ar, y).Ok? { FoldForFails(ar, Fold(ar, y).value, incoming); }
  }

  lemma {:induction false} CloseFails(ar: Arithmetic, y: Yard)
    ensures Close(ar, y).Err? ==> Close(ar, y).error == InvalidInput
    decreases |y.ops|
  {
    if y.ops != [] && IsOp(y.Top()) && Fold(ar, y).Ok? { CloseFails(ar, Fold(ar, y).value); }
  }

  lemma {:induction false} FeedAllFails(ar: Arithmetic, y: Yard, tokens: seq<Token>)
    ensures FeedAll(ar, y, tokens).Err? ==> FeedAll(ar, y, tokens).error == InvalidInput
    decreases |tokens|
  {
    if tokens != [] {
      CloseFails(ar, y);
      if IsOp(tokens[0]) { FoldForFails(ar, y, tokens[0]); }
      if Feed(ar, y, tokens[0]).Ok? { FeedAllFails(ar, Feed(ar, y, tokens[0]).value, tokens[1..]); }
    }
  }

  lemma {:induction false} DrainFails(ar: Arithmetic, y: Yard)
    ensures Drain(ar, y).Err? ==> Drain(ar, y).error == InvalidInput
    decreases |y.ops|
  {
    if y.ops != [] && IsOp(y.Top()) && Fold(ar, y).Ok? { DrainFails(ar, Fold(ar, y).value); }
  }

  /** A text that does not parse is invalid input. */
  lemma ParseFails(ar: Arithmetic, raw: string)
    ensures ParseOf(ar, raw).Err? ==> ParseOf(ar, raw).error == InvalidInput
  {
    LexFails(ar, TrimSpace(raw), true);
    if Tokens(ar, raw).Ok? {
      var tokens := Tokens(ar, raw).value;
      FeedAllFails(ar, Yard([], []), tokens);
      if FeedAll(ar, Yard([], []), tokens).Ok? { DrainFails(ar, FeedAll(ar, Yard([], []), tokens).value); }
    }
  }

  // ---- The builder --------------------------------------------------------------------------

  class AstBuilder {
    const ar: Arithmetic
    var operands: seq<Node>
    var ops: seq<Token>

    constructor (ar: Arithmetic)
      ensures this.ar == ar && Stacks() == Yard([], [])
    {
      this.ar := ar;
      operands, ops := [], [];
    }

    ghost function Stacks(): Yard
      reads this
    {
      Yard(operands, ops)
    }

    method PopOp() returns (err: Option<Error>)
      requires ops != [] && IsOp(ops[|ops| - 1])
      modifies this
      ensures match Fold(ar, old(Stacks()))
              case Ok(y) => err == None && Stacks() == y
              case Err(e) => err == Some(e)
    {
      var op := ops[|ops| - 1];
      ops := ops[..|ops| - 1];
      var n := |operands|;
      if op == Negate {
        if n < 1 {
          return Some(InvalidInput);
        }
        var r := operands[n - 1];
        operands := operands[..n - 1];
        operands := operands + [Binary(Sub, Leaf(ar.zero), r)];
        return None;
      }
      if n < 2 {
        return Some(InvalidInput);
      }
      var r := operands[n - 1];
      var l := operands[n - 2];
      operands := operands[..n - 2];
      operands := operands + [Binary(op.op, l, r)];
      return None;
    }

    method CloseParen() returns (err: Option<Error>)
      modifies this
      ensures match Close(ar, old(Stacks()))
              case Ok(y) => err == None && Stacks() == y
              case Err(e) => err == Some(e)
    {
      while ops != [] && IsOp(ops[|ops| - 1])
        invariant Close(ar, Stacks()) == Close(ar, old(Stacks()))
        decreases |ops|
      {
        err := PopOp();
        if err.Some? {
          return;
        }
      }
      if ops == [] {
        return Some(InvalidInput);
      }
      ops := ops[..|ops| - 1];
      return None;
    }

    method FeedToken(t: Token) returns (err: Option<Error>)
      modifies this
      ensures match Feed(ar, old(Stacks()), t)
              case Ok(y) => err == None && Stacks() == y
              case Err(e) => err == Some(e)
    {
      if t.Number? {
        operands := operands + [Leaf(t.value)];
        return None;
      }
      if t.LParen? {
        ops := ops + [t];
        return None;
      }
      if t.RParen? {
        err := CloseParen();
        return;
      }
      while ops != [] && ShouldPop(ops[|ops| - 1], t)
        invariant FoldFor(ar, Stacks(), t) == FoldFor(ar, old(Stacks()), t)
        decreases |ops|
      {
        err := PopOp();
        if err.Some? {
          return;
        }
      }
      ops := ops + [t];
      return None;
    }

    method Build(tokens: seq<Token>) returns (r: Result<Node>)
      requires Stacks() == Yard([], [])
      modifies this
      ensures r == Tree(ar, tokens)
    {
      assert tokens[0..] == tokens;
      for i := 0 to |tokens|
        invariant FeedAll(ar, Stacks(), tokens[i..]) == FeedAll(ar, Yard([], []), tokens)
      {
        assert tokens[i..][1..] == tokens[i + 1..];
        var err := FeedToken(tokens[i]);
        if err.Some? {
          return Err(err.value);
        }
      }
      while ops != []
        invariant Drain(ar, Stacks()) == Tree(ar, tokens)
        decreases |ops|
      {
        if !IsOp(ops[|ops| - 1]) {
          return Err(InvalidInput);
        }
        var err := PopOp();
        if err.Some? {
          return Err(err.value);
        }
      }
      if |operands| != 1 {
        return Err(InvalidInput);
      }
      return Ok(operands[0]);
    }
  }

  method Parse(ar: Arithmetic, raw: string) returns (r: Result<Node>)
    ensures r == ParseOf(ar, raw)
  {
    var tokens := Tokenize(ar, raw);
    if tokens.Err? {
      return Err(tokens.error);
    }
    var b := new AstBuilder(ar);
    r := b.Build(tokens.value);
  }
}
