/** Infix notation, and the proof that parsing recovers the tree from every way of writing it. */
module Infix {
  import opened Values
  import opened Lexer
  import opened ShuntingYard

  /** Written infix text: a tree whose parentheses are explicit nodes and whose tokens each carry
      the blanks written in front of them. */
  datatype Written =
    | Num(pre: string, lit: string)
    | Neg(pre: string, arg: Written)
    | Bin(left: Written, pre: string, op: Op, right: Written)
    | Paren(pre: string, inner: Written, post: string)

  function OpChar(op: Op): char {
    match op case Add => '+' case Sub => '-' case Mul => '*' case Div => '/'
  }

  predicate Blanks(s: string) {
    forall k :: 0 <= k < |s| ==> IsBlank(s[k])
  }

  predicate IsLiteral(ar: Arithmetic, lit: string) {
    lit != [] && (forall k :: 0 <= k < |lit| ==> IsDigit(lit[k])) && (ar.parse)(lit).Some?
  }

  /** How tightly the outermost construct binds. */
  function Level(t: Written): int {
    match t
    case Bin(_, _, op, _) => Precedence(Operator(op))
    case Neg(_, _) => 3
    case _ => 4
  }

  /** Standard infix grammar: parentheses stand wherever precedence or left associativity
      requires them, and anywhere else one likes; literals are readable; gaps are blank. */
  predicate WellFormed(ar: Arithmetic, t: Written) {
    match t
    case Num(pre, lit) => Blanks(pre) && IsLiteral(ar, lit)
    case Neg(pre, arg) => Blanks(pre) && WellFormed(ar, arg) && Level(arg) >= 3
    case Bin(l, pre, op, r) =>
      && Blanks(pre) && WellFormed(ar, l) && WellFormed(ar, r)
      && Level(l) >= Level(t) && Level(r) > Level(t)
    case Paren(pre, inner, post) => Blanks(pre) && Blanks(post) && WellFormed(ar, inner)
  }

  /** The characters. */
  function Text(t: Written): string {
    match t
    case Num(pre, lit) => pre + lit
    case Neg(pre, arg) => pre + ['-'] + Text(arg)
    case Bin(l, pre, op, r) => Text(l) + (pre + [OpChar(op)]) + Text(r)
    case Paren(pre, inner, post) => pre + ['('] + Text(inner) + post + [')']
  }

  /** The tokens. */
  function TokensOf(ar: Arithmetic, t: Written): seq<Token>
    requires WellFormed(ar, t)
  {
    match t
    case Num(_, lit) => [Number((ar.parse)(lit).value)]
    case Neg(_, arg) => [Negate] + TokensOf(ar, arg)
    case Bin(l, _, op, r) => TokensOf(ar, l) + [Operator(op)] + TokensOf(ar, r)
    case Paren(_, inner, _) => [LParen] + TokensOf(ar, inner) + [RParen]
  }

  /** The tree meant by the text; a negation is lowered to a subtraction from zero. */
  function Meaning(ar: Arithmetic, t: Written): Node
    requires WellFormed(ar, t)
  {
    match t
    case Num(_, lit) => Leaf((ar.parse)(lit).value)
    case Neg(_, arg) => Binary(Sub, Leaf(ar.zero), Meaning(ar, arg))
    case Bin(l, _, op, r) => Binary(op, Meaning(ar, l), Meaning(ar, r))
    case Paren(_, inner, _) => Meaning(ar, inner)
  }

  // ---- Tokenizing ---------------------------------------------------------------------------

  /** One token, with its blanks, in front of a text. */
  lemma LexSymbol(ar: Arithmetic, pre: string, c: char, s: string, expectOperand: bool)
    requires Blanks(pre) && !IsBlank(c)
    ensures Lex(ar, pre + [c] + s, expectOperand) == Lex(ar, [c] + s, expectOperand)
  {
    assert pre + [c] + s == pre + ([c] + s);
    LexSkipsBlanks(ar, pre, [c] + s, expectOperand);
  }

  /** The text of a tree, read where an operand is expected, is its tokens. */
  lemma {:induction false} LexText(ar: Arithmetic, t: Written, s: string)
    requires WellFormed(ar, t)
    requires s == [] || !IsDigit(s[0])
    ensures Lex(ar, Text(t) + s, true) == Prepend(TokensOf(ar, t), Lex(ar, s, false))
    decreases t, 1
  {
    match t
    case Num(pre, lit) =>
      assert Text(t) + s == pre + (lit + s);
      LexSkipsBlanks(ar, pre, lit + s, true);
      LexNumber(ar, lit, s, true);
    case Neg(_, _) => LexNeg(ar, t, s);
    case Bin(_, _, _, _) => LexBin(ar, t, s);
    case Paren(_, _, _) => LexParen(ar, t, s);
  }

  lemma {:induction false} LexNeg(ar: Arithmetic, t: Written, s: string)
    requires t.Neg? && WellFormed(ar, t)
    requires s == [] || !IsDigit(s[0])
    ensures Lex(ar, Text(t) + s, true) == Prepend(TokensOf(ar, t), Lex(ar, s, false))
    decreases t, 0
  {
    var tail := Text(t.arg) + s;
    assert Text(t) + s == t.pre + ['-'] + tail;
    LexSymbol(ar, t.pre, '-', tail, true);
    assert (['-'] + tail)[1..] == tail;
    LexText(ar, t.arg, s);
    PrependTwice([Negate], TokensOf(ar, t.arg), Lex(ar, s, false));
  }

  lemma TokensAssoc(a: seq<Token>, b: seq<Token>, c: seq<Token>)
    ensures a + b + c == a + (b + c)
  {
  }

  lemma TextAssoc(a: string, b: string, c: string, d: string)
    ensures a + b + c + d == a + (b + (c + d))
  {
  }

  lemma {:induction false} LexBin(ar: Arithmetic, t: Written, s: string)
    requires t.Bin? && WellFormed(ar, t)
    requires s == [] || !IsDigit(s[0])
    ensures Lex(ar, Text(t) + s, true) == Prepend(TokensOf(ar, t), Lex(ar, s, false))
    decreases t, 0
  {
    var tl, tr := TokensOf(ar, t.left), TokensOf(ar, t.right);
    var tail := Text(t.right) + s;
    var after := t.pre + [OpChar(t.op)] + tail;
    TextAssoc(Text(t.left), t.pre + [OpChar(t.op)], Text(t.right), s);
    LexText(ar, t.left, after);
    LexSymbol(ar, t.pre, OpChar(t.op), tail, false);
    assert ([OpChar(t.op)] + tail)[1..] == tail;
    LexText(ar, t.right, s);
    PrependTwice([Operator(t.op)], tr, Lex(ar, s, false));
    PrependTwice(tl, [Operator(t.op)] + tr, Lex(ar, s, false));
    TokensAssoc(tl, [Operator(t.op)], tr);
  }

  lemma {:induction false} LexParen(ar: Arithmetic, t: Written, s: string)
    requires t.Paren? && WellFormed(ar, t)
    requires s == [] || !IsDigit(s[0])
    ensures Lex(ar, Text(t) + s, true) == Prepend(TokensOf(ar, t), Lex(ar, s, false))
    decreases t, 0
  {
    var ti := TokensOf(ar, t.inner);
    var tail := t.post + [')'] + s;
    assert Text(t) + s == t.pre + ['('] + (Text(t.inner) + tail);
    LexSymbol(ar, t.pre, '(', Text(t.inner) + tail, true);
    assert (['('] + (Text(t.inner) + tail))[1..] == Text(t.inner) + tail;
    LexText(ar, t.inner, tail);
    LexSymbol(ar, t.post, ')', s, false);
    assert ([')'] + s)[1..] == s;
    PrependTwice(ti, [RParen], Lex(ar, s, false));
    PrependTwice([LParen], ti + [RParen], Lex(ar, s, false));
    TokensAssoc([LParen], ti, [RParen]);
  }

  // ---- Trimming -----------------------------------------------------------------------------

  /** The blanks in front of the first token. */
  function Lead(t: Written): string {
    match t
    case Num(pre, _) => pre
    case Neg(pre, _) => pre
    case Bin(l, _, _, _) => Lead(l)
    case Paren(pre, _, _) => pre
  }

  /** A text that starts with the blanks `lead`, then something else, and does not end in space. */
  predicate Framed(text: string, lead: string) {
    && Blanks(lead) && |lead| < |text| && text[..|lead|] == lead
    && !IsSpace(text[|lead|]) && !IsSpace(text[|text| - 1])
  }

  lemma FramedSymbol(lead: string, c: char)
    requires Blanks(lead) && !IsSpace(c)
    ensures Framed(lead + [c], lead)
  {
  }

  lemma FramedMore(text: string, lead: string, more: string)
    requires Framed(text, lead) && (more == [] || !IsSpace(more[|more| - 1]))
    ensures Framed(text + more, lead)
  {
  }

  lemma {:induction false} TextEnds(ar: Arithmetic, t: Written)
    requires WellFormed(ar, t)
    ensures Framed(Text(t), Lead(t))
    decreases t
  {
    match t
    case Num(pre, lit) =>
      assert IsDigit(lit[0]) && IsDigit(lit[|lit| - 1]);
      FramedSymbol(pre, lit[0]);
      assert pre + lit == pre + [lit[0]] + lit[1..];
      FramedMore(pre + [lit[0]], pre, lit[1..]);
    case Neg(pre, arg) =>
      TextEnds(ar, arg);
      FramedSymbol(pre, '-');
      FramedMore(pre + ['-'], pre, Text(arg));
    case Bin(l, pre, op, r) =>
      TextEnds(ar, l);
      TextEnds(ar, r);
    case Paren(pre, inner, post) =>
  }

  lemma {:induction false} TrimLeftStops(space: string, s: string)
    requires forall k :: 0 <= k < |space| ==> IsSpace(space[k])
    requires s != [] && !IsSpace(s[0])
    ensures TrimLeft(space + s) == s
  {
    if space == [] {
      assert space + s == s;
    } else {
      assert (space + s)[1..] == space[1..] + s;
      TrimLeftStops(space[1..], s);
    }
  }

  lemma {:induction false} TrimRightStops(s: string, space: string)
    requires forall k :: 0 <= k < |space| ==> IsSpace(space[k])
    requires s != [] && !IsSpace(s[|s| - 1])
    ensures TrimRight(s + space) == s
  {
    if space == [] {
      assert s + space == s;
    } else {
      var n := |space| - 1;
      assert (s + space)[..|s| + n] == s + space[..n];
      TrimRightStops(s, space[..n]);
    }
  }

  predicate Spaces(s: string) {
    forall k :: 0 <= k < |s| ==> IsSpace(s[k])
  }

  lemma TrimAround(before: string, text: string, lead: string, after: string) returns (core: string)
    requires Spaces(before) && Framed(text, lead) && Spaces(after)
    ensures text == lead + core && TrimSpace(before + text + after) == core
  {
    core := text[|lead|..];
    assert before + text + after == (before + lead) + (core + after);
    TrimLeftStops(before + lead, core + after);
    TrimRightStops(core, after);
  }

  /** Whitespace around a written expression does not change its tokens. */
  lemma TrimText(ar: Arithmetic, before: string, t: Written, after: string)
    requires WellFormed(ar, t) && Spaces(before) && Spaces(after)
    ensures Lex(ar, TrimSpace(before + Text(t) + after), true) == Lex(ar, Text(t), true)
  {
    TextEnds(ar, t);
    var core := TrimAround(before, Text(t), Lead(t), after);
    LexSkipsBlanks(ar, Lead(t), core, true);
  }

  // ---- Building the tree --------------------------------------------------------------------

  /** Folds the operator stack down to height `floor`. */
  function FoldTo(ar: Arithmetic, y: Yard, floor: nat): Result<Yard>
    decreases |y.ops|
  {
    if |y.ops| <= floor then Ok(y)
    else if !IsOp(y.Top()) then Err(InvalidInput)
    else match Fold(ar, y)
      case Err(e) => Err(e)
      case Ok(y') => FoldTo(ar, y', floor)
  }

  /** `y` is `base` plus pending operators that bind at least as tightly as `level` and that
      fold into the single operand `n`. */
  ghost predicate Holds(ar: Arithmetic, y: Yard, base: Yard, n: Node, level: int) {
    && |base.ops| <= |y.ops| && y.ops[..|base.ops|] == base.ops
    && (forall k :: |base.ops| <= k < |y.ops| ==> IsOp(y.ops[k]) && Precedence(y.ops[k]) >= level)
    && FoldTo(ar, y, |base.ops|) == Ok(Yard(base.operands + [n], base.ops))
  }

  /** A tree may start on this stack without being torn apart by what waits there. */
  ghost predicate Open(ops: seq<Token>, t: Written) {
    t.Bin? && ops != [] && IsOp(ops[|ops| - 1]) ==> Precedence(ops[|ops| - 1]) < Level(t)
  }

  lemma {:induction false} FeedAllConcat(ar: Arithmetic, y: Yard, a: seq<Token>, b: seq<Token>)
    requires FeedAll(ar, y, a).Ok?
    ensures FeedAll(ar, y, a + b) == FeedAll(ar, FeedAll(ar, y, a).value, b)
    decreases |a|
  {
    if a == [] {
      assert a + b == b;
    } else {
      assert (a + b)[1..] == a[1..] + b;
      FeedAllConcat(ar, Feed(ar, y, a[0]).value, a[1..], b);
    }
  }

  lemma FeedOne(ar: Arithmetic, y: Yard, t: Token)
    ensures FeedAll(ar, y, [t]) == Feed(ar, y, t)
  {
    assert [t][1..] == [];
  }

  /** A weaker operator folds everything pending. */
  lemma {:induction false} FoldForHolds(ar: Arithmetic, y: Yard, base: Yard, n: Node, level: int, op: Op)
    requires Holds(ar, y, base, n, level) && Precedence(Operator(op)) <= level
    ensures FoldFor(ar, y, Operator(op)) == FoldFor(ar, Yard(base.operands + [n], base.ops), Operator(op))
    decreases |y.ops|
  {
    if |y.ops| > |base.ops| {
      var y' := Fold(ar, y).value;
      assert y'.ops[..|base.ops|] == base.ops;
      FoldForHolds(ar, y', base, n, level, op);
    }
  }

  /** So does a closing parenthesis. */
  lemma {:induction false} CloseHolds(ar: Arithmetic, y: Yard, base: Yard, n: Node, level: int)
    requires Holds(ar, y, base, n, level)
    ensures Close(ar, y) == Close(ar, Yard(base.operands + [n], base.ops))
    decreases |y.ops|
  {
    if |y.ops| > |base.ops| {
      var y' := Fold(ar, y).value;
      assert y'.ops[..|base.ops|] == base.ops;
      CloseHolds(ar, y', base, n, level);
    }
  }

  /** So does the end of input. */
  lemma {:induction false} DrainHolds(ar: Arithmetic, y: Yard, n: Node, level: int)
    requires Holds(ar, y, Yard([], []), n, level)
    ensures Drain(ar, y) == Ok(n)
    decreases |y.ops|
  {
    if y.ops != [] {
      DrainHolds(ar, Fold(ar, y).value, n, level);
    }
  }

  lemma {:induction false} FoldToCompose(ar: Arithmetic, y: Yard, high: nat, low: nat)
    requires low <= high <= |y.ops| && FoldTo(ar, y, high).Ok?
    ensures FoldTo(ar, y, low) == FoldTo(ar, FoldTo(ar, y, high).value, low)
    decreases |y.ops|
  {
    if |y.ops| > high {
      FoldToCompose(ar, Fold(ar, y).value, high, low);
    }
  }

  /** One more pending operator under what is already pending. */
  lemma HoldsUnder(ar: Arithmetic, y: Yard, base: Yard, op: Token, mid: Yard, r: Node, n: Node)
    requires IsOp(op) && mid.ops == base.ops + [op]
    requires Holds(ar, y, mid, r, Precedence(op))
    requires Fold(ar, Yard(mid.operands + [r], mid.ops)) == Ok(Yard(base.operands + [n], base.ops))
    ensures Holds(ar, y, base, n, Precedence(op))
  {
    assert mid.ops[..|base.ops|] == base.ops;
    assert y.ops[..|base.ops|] == mid.ops[..|base.ops|];
    assert y.ops[|base.ops|] == mid.ops[|base.ops|];
    FoldToCompose(ar, y, |mid.ops|, |base.ops|);
    var folded := Yard(base.operands + [n], base.ops);
    assert FoldTo(ar, folded, |base.ops|) == Ok(folded);
  }

  /** Feeding the tokens of a tree leaves the stacks below alone and the tree pending on top. */
  lemma {:induction false} FeedTree(ar: Arithmetic, t: Written, y: Yard)
    requires WellFormed(ar, t) && Open(y.ops, t)
    ensures FeedAll(ar, y, TokensOf(ar, t)).Ok?
    ensures Holds(ar, FeedAll(ar, y, TokensOf(ar, t)).value, y, Meaning(ar, t), Level(t))
    decreases t
  {
    match t
    case Num(_, lit) =>
      FeedOne(ar, y, TokensOf(ar, t)[0]);
    case Neg(_, arg) =>
      FeedNeg(ar, t, y);
    case Bin(l, _, op, r) =>
      FeedBin(ar, t, y);
    case Paren(_, inner, _) =>
      FeedParen(ar, t, y);
  }

  lemma {:induction false} FeedNeg(ar: Arithmetic, t: Written, y: Yard)
    requires t.Neg? && WellFormed(ar, t) && Open(y.ops, t)
    ensures FeedAll(ar, y, TokensOf(ar, t)).Ok?
    ensures Holds(ar, FeedAll(ar, y, TokensOf(ar, t)).value, y, Meaning(ar, t), Level(t))
    decreases t, 0
  {
    var y1 := Yard(y.operands, y.ops + [Negate]);
    FeedOne(ar, y, Negate);
    FeedAllConcat(ar, y, [Negate], TokensOf(ar, t.arg));
    FeedTree(ar, t.arg, y1);
    var y2 := FeedAll(ar, y1, TokensOf(ar, t.arg)).value;
    assert y1.ops[..|y1.ops| - 1] == y.ops;
    var n := y1.operands + [Meaning(ar, t.arg)];
    assert n[..|n| - 1] == y.operands;
    HoldsUnder(ar, y2, y, Negate, y1, Meaning(ar, t.arg), Meaning(ar, t));
  }

  /** The operator of a tree folds the left operand completely and waits above it. */
  lemma FeedOperator(ar: Arithmetic, y: Yard, y1: Yard, n: Node, level: int, op: Op)
    requires Holds(ar, y1, y, n, level) && Precedence(Operator(op)) <= level
    requires y.ops != [] && IsOp(y.Top()) ==> Precedence(y.Top()) < Precedence(Operator(op))
    ensures FeedAll(ar, y1, [Operator(op)]) == Ok(Yard(y.operands + [n], y.ops + [Operator(op)]))
  {
    FoldForHolds(ar, y1, y, n, level, op);
    FeedOne(ar, y1, Operator(op));
  }

  /** Both operands folded, the operator folds them. */
  lemma FoldBin(ar: Arithmetic, y: Yard, op: Op, l: Node, r: Node)
    ensures Fold(ar, Yard(y.operands + [l] + [r], y.ops + [Operator(op)]))
            == Ok(Yard(y.operands + [Binary(op, l, r)], y.ops))
  {
    var operands, ops := y.operands + [l] + [r], y.ops + [Operator(op)];
    assert operands[..|operands| - 2] == y.operands;
    assert ops[..|ops| - 1] == y.ops;
  }

  lemma {:induction false} FeedBin(ar: Arithmetic, t: Written, y: Yard)
    requires t.Bin? && WellFormed(ar, t) && Open(y.ops, t)
    ensures FeedAll(ar, y, TokensOf(ar, t)).Ok?
    ensures Holds(ar, FeedAll(ar, y, TokensOf(ar, t)).value, y, Meaning(ar, t), Level(t))
    decreases t, 0
  {
    var op, tl, tr := Operator(t.op), TokensOf(ar, t.left), TokensOf(ar, t.right);
    var nl, nr := Meaning(ar, t.left), Meaning(ar, t.right);
    FeedTree(ar, t.left, y);
    var y1 := FeedAll(ar, y, tl).value;
    var y2 := Yard(y.operands + [nl], y.ops + [op]);
    FeedOperator(ar, y, y1, nl, Level(t.left), t.op);
    FeedAllConcat(ar, y, tl, [op]);
    FeedTree(ar, t.right, y2);
    FeedAllConcat(ar, y, tl + [op], tr);
    FoldBin(ar, y, t.op, nl, nr);
    HoldsUnder(ar, FeedAll(ar, y2, tr).value, y, op, y2, nr, Meaning(ar, t));
  }

  lemma {:induction false} FeedParen(ar: Arithmetic, t: Written, y: Yard)
    requires t.Paren? && WellFormed(ar, t)
    ensures FeedAll(ar, y, TokensOf(ar, t)).Ok?
    ensures Holds(ar, FeedAll(ar, y, TokensOf(ar, t)).value, y, Meaning(ar, t), Level(t))
    decreases t, 0
  {
    var ti, n := TokensOf(ar, t.inner), Meaning(ar, t.inner);
    var y1 := Yard(y.operands, y.ops + [LParen]);
    FeedOne(ar, y, LParen);
    FeedTree(ar, t.inner, y1);
    var y2 := FeedAll(ar, y1, ti).value;
    CloseHolds(ar, y2, y1, n, Level(t.inner));
    assert y1.ops[..|y1.ops| - 1] == y.ops;
    assert Feed(ar, y2, RParen) == Ok(Yard(y.operands + [n], y.ops));
    FeedOne(ar, y2, RParen);
    FeedAllConcat(ar, y, [LParen], ti);
    FeedAllConcat(ar, y, [LParen] + ti, [RParen]);
  }

  /** Parsing inverts writing: every well-formed infix text, with any blanks between tokens and
      any whitespace around, parses to exactly the tree it means. */
  lemma ParseWritten(ar: Arithmetic, before: string, t: Written, after: string)
    requires WellFormed(ar, t) && Spaces(before) && Spaces(after)
    ensures ParseOf(ar, before + Text(t) + after) == Ok(Meaning(ar, t))
  {
    TrimText(ar, before, t, after);
    assert Text(t) + [] == Text(t);
    LexText(ar, t, []);
    var tokens := TokensOf(ar, t);
    assert tokens + [] == tokens;
    FeedTree(ar, t, Yard([], []));
    DrainHolds(ar, FeedAll(ar, Yard([], []), tokens).value, Meaning(ar, t), Level(t));
  }

  // ---- Every formula can be written ---------------------------------------------------------

  /** A formula without parentheses or layout. */
  datatype Formula =
    | Literal(lit: string)
    | Minus(arg: Formula)
    | Combine(op: Op, left: Formula, right: Formula)

  predicate Readable(ar: Arithmetic, f: Formula) {
    match f
    case Literal(lit) => IsLiteral(ar, lit)
    case Minus(a) => Readable(ar, a)
    case Combine(_, l, r) => Readable(ar, l) && Readable(ar, r)
  }

  function TreeOf(ar: Arithmetic, f: Formula): Node
    requires Readable(ar, f)
  {
    match f
    case Literal(lit) => Leaf((ar.parse)(lit).value)
    case Minus(a) => Binary(Sub, Leaf(ar.zero), TreeOf(ar, a))
    case Combine(op, l, r) => Binary(op, TreeOf(ar, l), TreeOf(ar, r))
  }

  /** Parentheses only where the construct binds too loosely. */
  function Wrap(t: Written, level: int): Written {
    if Level(t) < level then Paren("", t, "") else t
  }

  /** A way to write a formula with as few parentheses as possible. */
  function Write(f: Formula): Written {
    match f
    case Literal(lit) => Num("", lit)
    case Minus(a) => Neg("", Wrap(Write(a), 3))
    case Combine(op, l, r) =>
      var p := Precedence(Operator(op));
      Bin(Wrap(Write(l), p), "", op, Wrap(Write(r), p + 1))
  }

  lemma {:induction false} WriteWellFormed(ar: Arithmetic, f: Formula)
    requires Readable(ar, f)
    ensures WellFormed(ar, Write(f)) && Meaning(ar, Write(f)) == TreeOf(ar, f)
  {
    match f
    case Literal(_) =>
    case Minus(a) => WriteWellFormed(ar, a);
    case Combine(_, l, r) =>
      WriteWellFormed(ar, l);
      WriteWellFormed(ar, r);
  }

  /** The formula a written tree stands for: parentheses and layout forgotten. */
  function Strip(t: Written): Formula {
    match t
    case Num(_, lit) => Literal(lit)
    case Neg(_, arg) => Minus(Strip(arg))
    case Bin(l, _, op, r) => Combine(op, Strip(l), Strip(r))
    case Paren(_, inner, _) => Strip(inner)
  }

  /** The number of pairs of parentheses. */
  function Parens(t: Written): nat {
    match t
    case Num(_, _) => 0
    case Neg(_, arg) => Parens(arg)
    case Bin(l, _, _, r) => Parens(l) + Parens(r)
    case Paren(_, inner, _) => Parens(inner) + 1
  }

  /** Wherever a well-formed way of writing may stand, the formula written by `Write` has no more parentheses. */
  lemma {:induction false} FewestParens(ar: Arithmetic, t: Written, level: int)
    requires WellFormed(ar, t) && level <= Level(t)
    ensures Parens(Wrap(Write(Strip(t)), level)) <= Parens(t)
    decreases t
  {
    match t
    case Num(_, _) =>
    case Neg(_, arg) => FewestParens(ar, arg, 3);
    case Bin(l, _, op, r) =>
      FewestParens(ar, l, Level(t));
      FewestParens(ar, r, Level(t) + 1);
    case Paren(_, inner, _) => FewestParens(ar, inner, Level(inner));
  }

  /** Write forgets nothing, and no well-formed way of writing the same formula has fewer parentheses. */
  lemma WriteIsFewest(ar: Arithmetic, f: Formula, t: Written)
    requires Readable(ar, f) && WellFormed(ar, t) && Strip(t) == f
    ensures Strip(Write(f)) == f && Parens(Write(f)) <= Parens(t)
  {
    StripWrite(f);
    FewestParens(ar, t, Level(t));
  }

  lemma {:induction false} StripWrite(f: Formula)
    ensures Strip(Write(f)) == f
  {
    match f
    case Literal(_) =>
    case Minus(a) => StripWrite(a);
    case Combine(_, l, r) =>
      StripWrite(l);
      StripWrite(r);
  }

  lemma Unpadded(text: string)
    ensures "" + text + "" == text
  {
  }

  /** Every formula, written with the fewest parentheses, parses back to its own tree. */
  lemma ParseInvertsWrite(ar: Arithmetic, f: Formula)
    requires Readable(ar, f)
    ensures ParseOf(ar, Text(Write(f))) == Ok(TreeOf(ar, f))
  {
    var text := Text(Write(f));
    Unpadded(text);
    WriteWellFormed(ar, f);
    ParseWritten(ar, "", Write(f), "");
  }
}
