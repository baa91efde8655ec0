/** What every text the parser accepts has in common with its tree, infix or not: the parser
    neither invents, loses, duplicates nor reorders an operand, and uses each operator once. */
module Accepted {
  import opened Values
  import opened Lexer
  import opened ShuntingYard

  /** A tree that still tells negations from subtractions. */
  datatype Shape =
    | Atom(value: Value)
    | Negated(arg: Shape)
    | Joined(op: Op, left: Shape, right: Shape)

  function Lowered(ar: Arithmetic, s: Shape): Node {
    match s
    case Atom(v) => Leaf(v)
    case Negated(a) => Binary(Sub, Leaf(ar.zero), Lowered(ar, a))
    case Joined(op, l, r) => Binary(op, Lowered(ar, l), Lowered(ar, r))
  }

  /** The operands of a shape, from left to right. */
  function Atoms(s: Shape): seq<Value> {
    match s
    case Atom(v) => [v]
    case Negated(a) => Atoms(a)
    case Joined(_, l, r) => Atoms(l) + Atoms(r)
  }

  /** Its operators. */
  function Joints(s: Shape): multiset<Token> {
    match s
    case Atom(_) => multiset{}
    case Negated(a) => Joints(a) + multiset{Negate}
    case Joined(op, l, r) => Joints(l) + Joints(r) + multiset{Operator(op)}
  }

  /** The number tokens, in order. */
  function Numbers(tokens: seq<Token>): seq<Value> {
    if tokens == [] then []
    else Numbers(tokens[..|tokens| - 1])
         + (if tokens[|tokens| - 1].Number? then [tokens[|tokens| - 1].value] else [])
  }

  /** The operator tokens. */
  function Operators(tokens: seq<Token>): multiset<Token> {
    if tokens == [] then multiset{}
    else Operators(tokens[..|tokens| - 1])
         + (if IsOp(tokens[|tokens| - 1]) then multiset{tokens[|tokens| - 1]} else multiset{})
  }

  // ---- Stacks of shapes ---------------------------------------------------------------------

  function AllAtoms(shapes: seq<Shape>): seq<Value> {
    if shapes == [] then [] else AllAtoms(shapes[..|shapes| - 1]) + Atoms(shapes[|shapes| - 1])
  }

  function AllJoints(shapes: seq<Shape>): multiset<Token> {
    if shapes == [] then multiset{} else AllJoints(shapes[..|shapes| - 1]) + Joints(shapes[|shapes| - 1])
  }

  /** The stacks hold exactly the tokens read so far. */
  ghost predicate Accounts(ar: Arithmetic, y: Yard, shapes: seq<Shape>, read: seq<Token>) {
    && |shapes| == |y.operands|
    && (forall k :: 0 <= k < |shapes| ==> y.operands[k] == Lowered(ar, shapes[k]))
    && AllAtoms(shapes) == Numbers(read)
    && AllJoints(shapes) + Operators(y.ops) == Operators(read)
  }

  lemma Snoc(shapes: seq<Shape>, s: Shape)
    ensures AllAtoms(shapes + [s]) == AllAtoms(shapes) + Atoms(s)
    ensures AllJoints(shapes + [s]) == AllJoints(shapes) + Joints(s)
  {
    assert (shapes + [s])[..|shapes|] == shapes;
  }

  lemma SnocToken(tokens: seq<Token>, t: Token)
    ensures Numbers(tokens + [t]) == Numbers(tokens) + (if t.Number? then [t.value] else [])
    ensures Operators(tokens + [t]) == Operators(tokens) + (if IsOp(t) then multiset{t} else multiset{})
  {
    assert (tokens + [t])[..|tokens|] == tokens;
  }

  lemma SeqAssoc(a: seq<Value>, b: seq<Value>, c: seq<Value>)
    ensures a + (b + c) == a + b + c
  {
  }

  lemma MultisetAssoc(a: multiset<Token>, b: multiset<Token>, c: multiset<Token>)
    ensures a + (b + c) == a + b + c
  {
  }

  lemma JoinAtoms(under: seq<Shape>, l: Shape, r: Shape, op: Op)
    ensures AllAtoms(under + [Joined(op, l, r)]) == AllAtoms(under + [l] + [r])
  {
    Snoc(under, l);
    Snoc(under + [l], r);
    Snoc(under, Joined(op, l, r));
    SeqAssoc(AllAtoms(under), Atoms(l), Atoms(r));
  }

  lemma JoinJoints(under: seq<Shape>, l: Shape, r: Shape, op: Op)
    ensures AllJoints(under + [Joined(op, l, r)]) == AllJoints(under + [l] + [r]) + multiset{Operator(op)}
  {
    Snoc(under, l);
    Snoc(under + [l], r);
    Snoc(under, Joined(op, l, r));
    var a, b, c, d := AllJoints(under), Joints(l), Joints(r), multiset{Operator(op)};
    assert a + (b + c + d) == a + b + c + d;
  }

  /** Folding moves one operator from the stack into a shape and keeps the rest of the account. */
  lemma FoldKeeps(ar: Arithmetic, y: Yard, y': Yard, shapes: seq<Shape>, shapes': seq<Shape>, read: seq<Token>)
    requires Accounts(ar, y, shapes, read)
    requires y.ops != [] && IsOp(y.Top()) && y'.ops == y.Rest()
    requires |shapes'| == |y'.operands|
    requires forall k :: 0 <= k < |shapes'| ==> y'.operands[k] == Lowered(ar, shapes'[k])
    requires AllAtoms(shapes') == AllAtoms(shapes)
    requires AllJoints(shapes') == AllJoints(shapes) + multiset{y.Top()}
    ensures Accounts(ar, y', shapes', read)
  {
    assert y.ops == y.Rest() + [y.Top()];
    SnocToken(y.Rest(), y.Top());
  }

  lemma FoldNegate(ar: Arithmetic, y: Yard, shapes: seq<Shape>, read: seq<Token>) returns (shapes': seq<Shape>)
    requires Accounts(ar, y, shapes, read)
    requires y.ops != [] && y.Top() == Negate && Fold(ar, y).Ok?
    ensures Accounts(ar, Fold(ar, y).value, shapes', read)
  {
    var n := |shapes| - 1;
    var under, top := shapes[..n], shapes[n];
    assert shapes == under + [top];
    shapes' := under + [Negated(top)];
    Snoc(under, top);
    Snoc(under, Negated(top));
    MultisetAssoc(AllJoints(under), Joints(top), multiset{Negate});
    FoldKeeps(ar, y, Fold(ar, y).value, shapes, shapes', read);
  }

  lemma LastTwo(shapes: seq<Shape>, n: nat)
    requires |shapes| == n + 2
    ensures shapes == shapes[..n] + [shapes[n]] + [shapes[n + 1]]
  {
  }

  lemma FoldJoin(ar: Arithmetic, y: Yard, shapes: seq<Shape>, read: seq<Token>) returns (shapes': seq<Shape>)
    requires Accounts(ar, y, shapes, read)
    requires y.ops != [] && y.Top().Operator? && Fold(ar, y).Ok?
    ensures Accounts(ar, Fold(ar, y).value, shapes', read)
  {
    var n := |shapes| - 2;
    var under, l, r := shapes[..n], shapes[n], shapes[n + 1];
    LastTwo(shapes, n);
    JoinAtoms(under, l, r, y.Top().op);
    JoinJoints(under, l, r, y.Top().op);
    shapes' := under + [Joined(y.Top().op, l, r)];
    FoldKeeps(ar, y, Fold(ar, y).value, shapes, shapes', read);
  }

  lemma FoldAccounts(ar: Arithmetic, y: Yard, shapes: seq<Shape>, read: seq<Token>) returns (shapes': seq<Shape>)
    requires Accounts(ar, y, shapes, read)
    requires y.ops != [] && IsOp(y.Top()) && Fold(ar, y).Ok?
    ensures Accounts(ar, Fold(ar, y).value, shapes', read)
  {
    if y.Top().Negate? {
      shapes' := FoldNegate(ar, y, shapes, read);
    } else {
      shapes' := FoldJoin(ar, y, shapes, read);
    }
  }

  lemma {:induction false} FoldForAccounts(ar: Arithmetic, y: Yard, incoming: Token, shapes: seq<Shape>,
                                           read: seq<Token>) returns (shapes': seq<Shape>)
    requires IsOp(incoming) && Accounts(ar, y, shapes, read) && FoldFor(ar, y, incoming).Ok?
    ensures Accounts(ar, FoldFor(ar, y, incoming).value, shapes', read)
    decreases |y.ops|
  {
    shapes' := shapes;
    if y.ops != [] && ShouldPop(y.Top(), incoming) {
      shapes' := FoldAccounts(ar, y, shapes, read);
      shapes' := FoldForAccounts(ar, Fold(ar, y).value, incoming, shapes', read);
    }
  }

  lemma {:induction false} CloseAccounts(ar: Arithmetic, y: Yard, shapes: seq<Shape>, read: seq<Token>)
    returns (shapes': seq<Shape>)
    requires Accounts(ar, y, shapes, read) && Close(ar, y).Ok?
    ensures Accounts(ar, Close(ar, y).value, shapes', read)
    decreases |y.ops|
  {
    shapes' := shapes;
    if IsOp(y.Top()) {
      shapes' := FoldAccounts(ar, y, shapes, read);
      shapes' := CloseAccounts(ar, Fold(ar, y).value, shapes', read);
    }
  }

  lemma PushNumber(ar: Arithmetic, y: Yard, v: Value, shapes: seq<Shape>, read: seq<Token>)
    requires Accounts(ar, y, shapes, read)
    ensures Accounts(ar, y.(operands := y.operands + [Leaf(v)]), shapes + [Atom(v)], read + [Number(v)])
  {
    SnocToken(read, Number(v));
    Snoc(shapes, Atom(v));
  }

  lemma PushToken(ar: Arithmetic, y: Yard, t: Token, shapes: seq<Shape>, read: seq<Token>)
    requires !t.Number? && Accounts(ar, y, shapes, read)
    ensures Accounts(ar, y.(ops := y.ops + [t]), shapes, read + [t])
  {
    SnocToken(read, t);
    SnocToken(y.ops, t);
    MultisetAssoc(AllJoints(shapes), Operators(y.ops), if IsOp(t) then multiset{t} else multiset{});
  }

  lemma FeedAccounts(ar: Arithmetic, y: Yard, t: Token, shapes: seq<Shape>, read: seq<Token>)
    returns (shapes': seq<Shape>)
    requires Accounts(ar, y, shapes, read) && Feed(ar, y, t).Ok?
    ensures Accounts(ar, Feed(ar, y, t).value, shapes', read + [t])
  {
    match t
    case Number(v) =>
      shapes' := shapes + [Atom(v)];
      PushNumber(ar, y, v, shapes, read);
    case LParen =>
      shapes' := shapes;
      PushToken(ar, y, t, shapes, read);
    case RParen =>
      SnocToken(read, RParen);
      shapes' := CloseAccounts(ar, y, shapes, read);
    case _ =>
      shapes' := FoldForAccounts(ar, y, t, shapes, read);
      PushToken(ar, FoldFor(ar, y, t).value, t, shapes', read);
  }

  lemma {:induction false} FeedAllAccounts(ar: Arithmetic, y: Yard, tokens: seq<Token>, shapes: seq<Shape>,
                                           read: seq<Token>) returns (shapes': seq<Shape>)
    requires Accounts(ar, y, shapes, read) && FeedAll(ar, y, tokens).Ok?
    ensures Accounts(ar, FeedAll(ar, y, tokens).value, shapes', read + tokens)
    decreases |tokens|
  {
    if tokens == [] {
      shapes' := shapes;
      assert read + tokens == read;
    } else {
      var t, more := tokens[0], tokens[1..];
      assert read + tokens == (read + [t]) + more;
      shapes' := FeedAccounts(ar, y, t, shapes, read);
      shapes' := FeedAllAccounts(ar, Feed(ar, y, t).value, more, shapes', read + [t]);
    }
  }

  lemma {:induction false} DrainAccounts(ar: Arithmetic, y: Yard, shapes: seq<Shape>, read: seq<Token>)
    returns (s: Shape)
    requires Accounts(ar, y, shapes, read) && Drain(ar, y).Ok?
    ensures Drain(ar, y) == Ok(Lowered(ar, s))
    ensures Atoms(s) == Numbers(read) && Joints(s) == Operators(read)
    decreases |y.ops|
  {
    if y.ops == [] {
      s := shapes[0];
      assert shapes == [] + [s];
      Snoc([], s);
    } else {
      var shapes' := FoldAccounts(ar, y, shapes, read);
      s := DrainAccounts(ar, Fold(ar, y).value, shapes', read);
    }
  }

  /** Any text that parses gives a tree whose operands, in order, are the number tokens, and whose
      operators are the operator tokens, negations lowered to subtractions from zero. */
  lemma ParseAccounts(ar: Arithmetic, raw: string) returns (s: Shape)
    requires ParseOf(ar, raw).Ok?
    ensures ParseOf(ar, raw) == Ok(Lowered(ar, s))
    ensures Atoms(s) == Numbers(Tokens(ar, raw).value)
    ensures Joints(s) == Operators(Tokens(ar, raw).value)
  {
    var tokens := Tokens(ar, raw).value;
    var shapes := FeedAllAccounts(ar, Yard([], []), tokens, [], []);
    assert [] + tokens == tokens;
    s := DrainAccounts(ar, FeedAll(ar, Yard([], []), tokens).value, shapes, tokens);
  }

  // ---- Consequences -------------------------------------------------------------------------

  lemma {:induction false} JointsCount(ar: Arithmetic, s: Shape)
    ensures Operations(Lowered(ar, s)) == |Joints(s)|
  {
    match s
    case Atom(_) =>
    case Negated(a) => JointsCount(ar, a);
    case Joined(_, l, r) =>
      JointsCount(ar, l);
      JointsCount(ar, r);
  }

  /** The number of operations to compute is the number of operator tokens. */
  lemma ParseCountsOperators(ar: Arithmetic, raw: string)
    requires ParseOf(ar, raw).Ok?
    ensures Operations(ParseOf(ar, raw).value) == |Operators(Tokens(ar, raw).value)|
  {
    var s := ParseAccounts(ar, raw);
    JointsCount(ar, s);
  }

  predicate NumbersEncodable(ar: Arithmetic, tokens: seq<Token>) {
    forall k :: 0 <= k < |tokens| && tokens[k].Number? ==> (ar.encodable)(tokens[k].value)
  }

  predicate AllEncodable(ar: Arithmetic, values: seq<Value>) {
    forall k :: 0 <= k < |values| ==> (ar.encodable)(values[k])
  }

  lemma {:induction false} LexEncodable(ar: Arithmetic, s: string, expectOperand: bool)
    requires ar.Valid() && Lex(ar, s, expectOperand).Ok?
    ensures NumbersEncodable(ar, Lex(ar, s, expectOperand).value)
    decreases |s|
  {
    if s == [] {
    } else if IsBlank(s[0]) {
      LexEncodable(ar, s[1..], expectOperand);
    } else if IsDigit(s[0]) {
      LexEncodable(ar, s[DigitRun(s)..], false);
    } else {
      LexEncodable(ar, s[1..], s[0] != ')');
    }
  }

  lemma {:induction false} NumbersAreTokens(ar: Arithmetic, tokens: seq<Token>)
    requires NumbersEncodable(ar, tokens)
    ensures AllEncodable(ar, Numbers(tokens))
    decreases |tokens|
  {
    if tokens != [] { NumbersAreTokens(ar, tokens[..|tokens| - 1]); }
  }

  lemma {:induction false} ShapeEncodable(ar: Arithmetic, s: Shape)
    requires ar.Valid() && AllEncodable(ar, Atoms(s))
    ensures LiteralsEncodable(ar, Lowered(ar, s))
  {
    match s
    case Atom(v) => assert Atoms(s)[0] == v;
    case Negated(a) =>
      assert Atoms(s) == Atoms(a);
      ShapeEncodable(ar, a);
    case Joined(_, l, r) =>
      assert forall k :: 0 <= k < |Atoms(l)| ==> Atoms(s)[k] == Atoms(l)[k];
      assert forall k :: 0 <= k < |Atoms(r)| ==> Atoms(s)[|Atoms(l)| + k] == Atoms(r)[k];
      ShapeEncodable(ar, l);
      ShapeEncodable(ar, r);
  }

  /** Every literal of a parsed tree can be put in a task message. */
  lemma ParseEncodable(ar: Arithmetic, raw: string)
    requires ar.Valid() && ParseOf(ar, raw).Ok?
    ensures LiteralsEncodable(ar, ParseOf(ar, raw).value)
  {
    var s := ParseAccounts(ar, raw);
    LexEncodable(ar, TrimSpace(raw), true);
    NumbersAreTokens(ar, Tokens(ar, raw).value);
    ShapeEncodable(ar, s);
  }

  // ---- Texts that are not infix --------------------------------------------------------------

  /** The tokens of "1()": parentheses are never checked against what is expected. */
  lemma EmptyCallTokens(ar: Arithmetic)
    requires (ar.parse)("1").Some?
    ensures Tokens(ar, "1()") == Ok([Number((ar.parse)("1").value), LParen, RParen])
  {
    assert TrimLeft("1()") == "1()" && TrimRight("1()") == "1()";
    assert "1" + "()" == "1()" && "()"[1..] == ")" && ")"[1..] == "";
    assert Lex(ar, "", false) == Ok([]);
    assert Lex(ar, ")", true) == Ok([RParen]) by { assert [RParen] + [] == [RParen]; }
    assert Lex(ar, "()", false) == Ok([LParen, RParen]) by { assert [LParen] + [RParen] == [LParen, RParen]; }
    LexNumber(ar, "1", "()", true);
    var one := Number((ar.parse)("1").value);
    assert [one] + [LParen, RParen] == [one, LParen, RParen];
  }

  /** Parsing is not limited to infix text. */
  lemma EmptyCallAccepted(ar: Arithmetic)
    requires (ar.parse)("1").Some?
    ensures ParseOf(ar, "1()") == Ok(Leaf((ar.parse)("1").value))
  {
    EmptyCallTokens(ar);
    var one := Leaf((ar.parse)("1").value);
    var tokens := Tokens(ar, "1()").value;
    var y := Yard([one], [LParen]);
    assert tokens[1..] == [LParen, RParen] && tokens[1..][1..] == [RParen] && tokens[1..][1..][1..] == [];
    assert [] + [one] == [one] && [] + [LParen] == [LParen];
    assert FeedAll(ar, Yard([one], []), tokens[1..]) == FeedAll(ar, y, [RParen]);
    assert Close(ar, y) == Ok(Yard([one], [])) by { assert y.Rest() == []; }
    assert FeedAll(ar, Yard([], []), tokens) == FeedAll(ar, Yard([one], []), tokens[1..]);
    assert FeedAll(ar, y, [RParen]) == FeedAll(ar, Yard([one], []), [RParen][1..]);
  }
}
