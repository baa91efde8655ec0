/** Which of the texts the parser accepts are infix: exactly those in which every operand and parenthesis
    stands where one is expected. The scanner checks this for operators only. */
module Placement {
  import opened Values
  import opened Lexer
  import opened ShuntingYard
  import opened Infix
  import opened Accepted

  /** Whether an operand is expected after the token. */
  predicate Expecting(t: Token) {
    t.LParen? || t.Operator? || t.Negate?
  }

  /** Numbers and opening parentheses stand where an operand is expected, closing ones where none is. */
  predicate Fits(t: Token, wanted: bool) {
    (t.Number? || t.LParen? ==> wanted) && (t.RParen? ==> !wanted)
  }

  /** Token `i` stands right in a text that starts where an operand is expected, or not. */
  predicate FitsAt(wanted: bool, tokens: seq<Token>, i: nat)
    requires i < |tokens|
  {
    Fits(tokens[i], if i == 0 then wanted else Expecting(tokens[i - 1]))
  }

  predicate Placed(tokens: seq<Token>) {
    forall i :: 0 <= i < |tokens| ==> FitsAt(true, tokens, i)
  }

  /** The same, read from the left. */
  predicate PlacedFrom(wanted: bool, tokens: seq<Token>)
    decreases |tokens|
  {
    tokens == [] || (Fits(tokens[0], wanted) && PlacedFrom(Expecting(tokens[0]), tokens[1..]))
  }

  lemma {:induction false} PlacedFromMeans(wanted: bool, tokens: seq<Token>)
    ensures PlacedFrom(wanted, tokens) <==> forall i :: 0 <= i < |tokens| ==> FitsAt(wanted, tokens, i)
    decreases |tokens|
  {
    if tokens != [] {
      var next, rest := Expecting(tokens[0]), tokens[1..];
      PlacedFromMeans(next, rest);
      forall i | 0 < i < |tokens| ensures FitsAt(wanted, tokens, i) <==> FitsAt(next, rest, i - 1) {}
      if forall i :: 0 <= i < |tokens| ==> FitsAt(wanted, tokens, i) {
        assert FitsAt(wanted, tokens, 0);
        forall i | 0 <= i < |rest| ensures FitsAt(next, rest, i) { assert FitsAt(wanted, tokens, i + 1); }
      }
      if PlacedFrom(wanted, tokens) {
        forall i | 0 <= i < |tokens| ensures FitsAt(wanted, tokens, i) {
          if i > 0 { assert FitsAt(next, rest, i - 1); }
        }
      }
    }
  }

  // ---- Infix texts are placed ----------------------------------------------------------------

  lemma {:induction false} PlacedConcat(wanted: bool, a: seq<Token>, b: seq<Token>)
    requires PlacedFrom(wanted, a) && PlacedFrom(if a == [] then wanted else Expecting(a[|a| - 1]), b)
    ensures PlacedFrom(wanted, a + b)
    decreases |a|
  {
    if a == [] {
      assert a + b == b;
    } else {
      assert (a + b)[1..] == a[1..] + b;
      PlacedConcat(Expecting(a[0]), a[1..], b);
    }
  }

  /** The tokens of an infix tree stand right, and wanted no operand at the end. */
  lemma {:induction false} TokensPlaced(ar: Arithmetic, t: Written)
    requires WellFormed(ar, t)
    ensures var tokens := TokensOf(ar, t);
            tokens != [] && PlacedFrom(true, tokens) && !Expecting(tokens[|tokens| - 1])
    decreases t
  {
    match t
    case Num(_, lit) =>
      PlacedOne(true, TokensOf(ar, t)[0]);
    case Neg(_, arg) =>
      TokensPlaced(ar, arg);
      PlacedOne(true, Negate);
      PlacedConcat(true, [Negate], TokensOf(ar, arg));
    case Bin(l, _, op, r) =>
      TokensPlaced(ar, l);
      TokensPlaced(ar, r);
      PlacedOne(false, Operator(op));
      PlacedConcat(true, TokensOf(ar, l), [Operator(op)]);
      PlacedConcat(true, TokensOf(ar, l) + [Operator(op)], TokensOf(ar, r));
    case Paren(_, inner, _) =>
      TokensPlaced(ar, inner);
      PlacedOne(true, LParen);
      PlacedOne(false, RParen);
      PlacedConcat(true, [LParen], TokensOf(ar, inner));
      PlacedConcat(true, [LParen] + TokensOf(ar, inner), [RParen]);
  }

  lemma PlacedOne(wanted: bool, t: Token)
    requires Fits(t, wanted)
    ensures PlacedFrom(wanted, [t])
  {
    assert [t][1..] == [];
  }

  // ---- What has been read --------------------------------------------------------------------

  /** A construct that waits for its operand. */
  datatype Frame =
    | Negation(pre: string)
    | Opening(pre: string)
    | Left(left: Written, pre: string, op: Op)

  function FrameText(f: Frame): string {
    match f
    case Negation(pre) => pre + ['-']
    case Opening(pre) => pre + ['(']
    case Left(left, pre, op) => Text(left) + (pre + [OpChar(op)])
  }

  function FramesText(fs: seq<Frame>): string {
    if fs == [] then "" else FramesText(fs[..|fs| - 1]) + FrameText(fs[|fs| - 1])
  }

  /** The token a frame leaves on the operator stack. */
  function FrameToken(f: Frame): Token {
    match f
    case Negation(_) => Negate
    case Opening(_) => LParen
    case Left(_, _, op) => Operator(op)
  }

  /** How many of the frames keep a left operand on the operand stack. */
  function Lefts(fs: seq<Frame>): nat {
    if fs == [] then 0 else Lefts(fs[..|fs| - 1]) + (if fs[|fs| - 1].Left? then 1 else 0)
  }

  predicate FrameOk(ar: Arithmetic, f: Frame) {
    && Blanks(f.pre)
    && (f.Left? ==> WellFormed(ar, f.left) && Level(f.left) >= Precedence(Operator(f.op)))
  }

  /** A left operand waits only on a parenthesis or a weaker operator. */
  predicate Above(f: Frame, below: Frame) {
    f.Left? ==> below.Opening? || (below.Left? && Precedence(Operator(below.op)) < Precedence(Operator(f.op)))
  }

  predicate FramesOk(ar: Arithmetic, fs: seq<Frame>) {
    && (forall i :: 0 <= i < |fs| ==> FrameOk(ar, fs[i]))
    && (forall i :: 0 < i < |fs| ==> Above(fs[i], fs[i - 1]))
  }

  /** The written tree may be the operand the topmost frame waits for. */
  predicate Operand(ar: Arithmetic, fs: seq<Frame>, cur: Written) {
    && WellFormed(ar, cur)
    && (fs != [] ==>
          match fs[|fs| - 1]
          case Negation(_) => Level(cur) >= 3
          case Opening(_) => true
          case Left(_, _, op) => Level(cur) > Precedence(Operator(op)))
  }

  /** The stacks of the builder are those of the frames, and `extra` operands more. */
  predicate Mirrors(y: Yard, fs: seq<Frame>, extra: nat) {
    && |y.ops| == |fs| && (forall i :: 0 <= i < |fs| ==> y.ops[i] == FrameToken(fs[i]))
    && |y.operands| == Lefts(fs) + extra
  }

  lemma LeftsSnoc(fs: seq<Frame>, f: Frame)
    ensures Lefts(fs + [f]) == Lefts(fs) + (if f.Left? then 1 else 0)
    ensures FramesText(fs + [f]) == FramesText(fs) + FrameText(f)
  {
    assert (fs + [f])[..|fs|] == fs;
  }

  lemma PushMirrors(y: Yard, fs: seq<Frame>, f: Frame, extra: nat)
    requires Mirrors(y, fs, extra) && (f.Left? ==> extra == 1)
    ensures Mirrors(Yard(y.operands, y.ops + [FrameToken(f)]), fs + [f], if f.Left? then 0 else extra)
  {
    LeftsSnoc(fs, f);
  }

  lemma PushOk(ar: Arithmetic, fs: seq<Frame>, f: Frame)
    requires FramesOk(ar, fs) && FrameOk(ar, f) && (fs != [] ==> Above(f, fs[|fs| - 1]))
    ensures FramesOk(ar, fs + [f])
  {
  }

  lemma Push(ar: Arithmetic, y: Yard, fs: seq<Frame>, f: Frame, extra: nat)
    requires FramesOk(ar, fs) && Mirrors(y, fs, extra) && FrameOk(ar, f) && (f.Left? ==> extra == 1)
    requires fs != [] ==> Above(f, fs[|fs| - 1])
    ensures FramesOk(ar, fs + [f])
    ensures Mirrors(Yard(y.operands, y.ops + [FrameToken(f)]), fs + [f], if f.Left? then 0 else extra)
  {
    PushOk(ar, fs, f);
    PushMirrors(y, fs, f, extra);
  }

  // ---- Folding -------------------------------------------------------------------------------

  /** The topmost frame takes its operand. */
  function Taken(f: Frame, cur: Written): Written
    requires !f.Opening?
  {
    if f.Negation? then Neg(f.pre, cur) else Bin(f.left, f.pre, f.op, cur)
  }

  lemma TakenOk(ar: Arithmetic, fs: seq<Frame>, cur: Written)
    requires FramesOk(ar, fs) && Operand(ar, fs, cur) && fs != [] && !fs[|fs| - 1].Opening?
    ensures var under, t := fs[..|fs| - 1], Taken(fs[|fs| - 1], cur);
            FramesOk(ar, under) && Operand(ar, under, t) && FramesText(under) + Text(t) == FramesText(fs) + Text(cur)
  {
    var n := |fs| - 1;
    var under, f := fs[..n], fs[n];
    assert FrameOk(ar, f);
    if n > 0 { assert Above(fs[n], fs[n - 1]); }
    TextJoins(FramesText(under), f, cur);
  }

  lemma TextJoins(before: string, f: Frame, cur: Written)
    requires !f.Opening?
    ensures before + Text(Taken(f, cur)) == before + FrameText(f) + Text(cur)
  {
    if f.Negation? {
      assert before + (f.pre + ['-'] + Text(cur)) == before + (f.pre + ['-']) + Text(cur);
    } else {
      var op := f.pre + [OpChar(f.op)];
      assert before + (Text(f.left) + op + Text(cur)) == before + (Text(f.left) + op) + Text(cur);
    }
  }

  lemma FoldMirrors(ar: Arithmetic, y: Yard, fs: seq<Frame>)
    requires Mirrors(y, fs, 1) && fs != [] && !fs[|fs| - 1].Opening?
    ensures IsOp(y.Top()) && Fold(ar, y).Ok? && Mirrors(Fold(ar, y).value, fs[..|fs| - 1], 1)
  {
    assert fs == fs[..|fs| - 1] + [fs[|fs| - 1]];
    LeftsSnoc(fs[..|fs| - 1], fs[|fs| - 1]);
  }

  /** An incoming operator makes a tighter one take its operand. */
  lemma TakeFor(ar: Arithmetic, y: Yard, fs: seq<Frame>, cur: Written, op: Op)
    requires FramesOk(ar, fs) && Operand(ar, fs, cur) && Mirrors(y, fs, 1)
    requires fs != [] && ShouldPop(y.Top(), Operator(op))
    ensures !fs[|fs| - 1].Opening? && Level(Taken(fs[|fs| - 1], cur)) >= Precedence(Operator(op))
    ensures Fold(ar, y).Ok? && FoldFor(ar, y, Operator(op)) == FoldFor(ar, Fold(ar, y).value, Operator(op))
  {
    assert y.Top() == FrameToken(fs[|fs| - 1]);
    FoldMirrors(ar, y, fs);
  }

  lemma FoldForStops(ar: Arithmetic, y: Yard, op: Op)
    requires y.ops == [] || !ShouldPop(y.Top(), Operator(op))
    ensures FoldFor(ar, y, Operator(op)) == Ok(y)
  {
  }

  /** An incoming operator is given its left operand. */
  lemma {:induction false} FoldForFrames(ar: Arithmetic, y: Yard, fs: seq<Frame>, cur: Written, op: Op)
    returns (fs': seq<Frame>, cur': Written)
    requires FramesOk(ar, fs) && Operand(ar, fs, cur) && Mirrors(y, fs, 1)
    requires Level(cur) >= Precedence(Operator(op))
    ensures FoldFor(ar, y, Operator(op)).Ok? && Mirrors(FoldFor(ar, y, Operator(op)).value, fs', 1)
    ensures FramesOk(ar, fs') && WellFormed(ar, cur') && Level(cur') >= Precedence(Operator(op))
    ensures fs' != [] ==> !ShouldPop(FrameToken(fs'[|fs'| - 1]), Operator(op))
    ensures FramesText(fs') + Text(cur') == FramesText(fs) + Text(cur)
    decreases |fs|
  {
    if fs == [] || !ShouldPop(y.Top(), Operator(op)) {
      FoldForStops(ar, y, op);
      fs', cur' := fs, cur;
    } else {
      TakeFor(ar, y, fs, cur, op);
      TakenOk(ar, fs, cur);
      FoldMirrors(ar, y, fs);
      fs', cur' := FoldForFrames(ar, Fold(ar, y).value, fs[..|fs| - 1], Taken(fs[|fs| - 1], cur), op);
    }
  }

  /** A closing parenthesis finds its opening one. */
  lemma {:induction false} CloseFrames(ar: Arithmetic, y: Yard, fs: seq<Frame>, cur: Written)
    returns (fs': seq<Frame>, pre: string, cur': Written)
    requires FramesOk(ar, fs) && Operand(ar, fs, cur) && Mirrors(y, fs, 1) && Close(ar, y).Ok?
    ensures FramesOk(ar, fs') && Blanks(pre) && WellFormed(ar, cur') && Mirrors(Close(ar, y).value, fs', 1)
    ensures FramesText(fs') + (pre + ['(']) + Text(cur') == FramesText(fs) + Text(cur)
    decreases |fs|
  {
    var n := |fs| - 1;
    assert fs == fs[..n] + [fs[n]];
    LeftsSnoc(fs[..n], fs[n]);
    if fs[n].Opening? {
      assert FrameOk(ar, fs[n]);
      fs', pre, cur' := fs[..n], fs[n].pre, cur;
    } else {
      TakenOk(ar, fs, cur);
      FoldMirrors(ar, y, fs);
      fs', pre, cur' := CloseFrames(ar, Fold(ar, y).value, fs[..n], Taken(fs[n], cur));
    }
  }

  /** At the end everything folds into one written tree. */
  lemma {:induction false} DrainFrames(ar: Arithmetic, y: Yard, fs: seq<Frame>, cur: Written) returns (t: Written)
    requires FramesOk(ar, fs) && Operand(ar, fs, cur) && Mirrors(y, fs, 1) && Drain(ar, y).Ok?
    ensures WellFormed(ar, t) && Text(t) == FramesText(fs) + Text(cur)
    decreases |fs|
  {
    if fs == [] {
      t := cur;
    } else {
      TakenOk(ar, fs, cur);
      FoldMirrors(ar, y, fs);
      t := DrainFrames(ar, Fold(ar, y).value, fs[..|fs| - 1], Taken(fs[|fs| - 1], cur));
    }
  }

  function Binaries(ops: seq<Token>): nat {
    if ops == [] then 0 else Binaries(ops[..|ops| - 1]) + (if ops[|ops| - 1].Operator? then 1 else 0)
  }

  /** An operand is missing at the end: with no more operands than binary operators nothing folds. */
  lemma {:induction false} DrainFails(ar: Arithmetic, y: Yard)
    requires |y.operands| <= Binaries(y.ops)
    ensures Drain(ar, y).Err?
    decreases |y.ops|
  {
    if y.ops != [] && IsOp(y.Top()) && Fold(ar, y).Ok? { DrainFails(ar, Fold(ar, y).value); }
  }

  lemma {:induction false} BinariesAreLefts(ops: seq<Token>, fs: seq<Frame>)
    requires |ops| == |fs| && forall i :: 0 <= i < |fs| ==> ops[i] == FrameToken(fs[i])
    ensures Binaries(ops) == Lefts(fs)
    decreases |fs|
  {
    if fs != [] { BinariesAreLefts(ops[..|ops| - 1], fs[..|fs| - 1]); }
  }

  // ---- Reading -------------------------------------------------------------------------------

  /** The frames, the operand just read if there is one, and the blanks after it. */
  datatype Reading = Reading(fs: seq<Frame>, cur: Option<Written>, gap: string)

  function SoFar(r: Reading): string {
    FramesText(r.fs) + (if r.cur.Some? then Text(r.cur.value) else "") + r.gap
  }

  predicate ReadingOk(ar: Arithmetic, r: Reading, y: Yard) {
    && FramesOk(ar, r.fs) && Blanks(r.gap) && Mirrors(y, r.fs, if r.cur.Some? then 1 else 0)
    && (r.cur.Some? ==> WellFormed(ar, r.cur.value) && Level(r.cur.value) == 4)
  }

  lemma ReadNumber(ar: Arithmetic, r: Reading, y: Yard, lit: string) returns (r': Reading)
    requires ReadingOk(ar, r, y) && r.cur == None && IsLiteral(ar, lit)
    ensures ReadingOk(ar, r', Feed(ar, y, Number((ar.parse)(lit).value)).value) && r'.cur.Some?
    ensures SoFar(r') == SoFar(r) + lit
  {
    var t := Num(r.gap, lit);
    r' := Reading(r.fs, Some(t), "");
    OperandText(r.fs, t);
    NumberText(FramesText(r.fs), r.gap, lit);
  }

  lemma NumberText(frames: string, gap: string, lit: string)
    ensures frames + (gap + lit) == frames + "" + gap + lit
  {
  }

  lemma PrefixText(frames: string, gap: string, c: char)
    ensures frames + (gap + [c]) == frames + "" + gap + [c]
  {
  }

  lemma FeedsPrefix(ar: Arithmetic, y: Yard, t: Token)
    requires t.LParen? || t.Negate?
    ensures Feed(ar, y, t) == Ok(Yard(y.operands, y.ops + [t]))
  {
  }

  lemma ReadOpening(ar: Arithmetic, r: Reading, y: Yard) returns (r': Reading)
    requires ReadingOk(ar, r, y) && r.cur == None
    ensures ReadingOk(ar, r', Feed(ar, y, LParen).value) && r'.cur == None && SoFar(r') == SoFar(r) + ['(']
  {
    var f := Opening(r.gap);
    FeedsPrefix(ar, y, LParen);
    Push(ar, y, r.fs, f, 0);
    r' := Reading(r.fs + [f], None, "");
    PushedText(r.fs, f);
    PrefixText(FramesText(r.fs), r.gap, '(');
  }

  lemma ReadNegation(ar: Arithmetic, r: Reading, y: Yard) returns (r': Reading)
    requires ReadingOk(ar, r, y) && r.cur == None
    ensures Feed(ar, y, Negate).Ok?
    ensures ReadingOk(ar, r', Feed(ar, y, Negate).value) && r'.cur == None && SoFar(r') == SoFar(r) + ['-']
  {
    var f := Negation(r.gap);
    FeedsPrefix(ar, y, Negate);
    Push(ar, y, r.fs, f, 0);
    r' := Reading(r.fs + [f], None, "");
    PushedText(r.fs, f);
    PrefixText(FramesText(r.fs), r.gap, '-');
  }

  lemma PushedText(fs: seq<Frame>, f: Frame)
    ensures SoFar(Reading(fs + [f], None, "")) == FramesText(fs) + FrameText(f)
  {
    LeftsSnoc(fs, f);
  }

  lemma OperandText(fs: seq<Frame>, cur: Written)
    ensures SoFar(Reading(fs, Some(cur), "")) == FramesText(fs) + Text(cur)
  {
  }

  lemma OperatorText(frames: string, cur: string, frames': string, cur': string, gap: string, c: char)
    requires frames' + cur' == frames + cur
    ensures frames' + (cur' + (gap + [c])) == frames + cur + gap + [c]
  {
    assert frames' + (cur' + (gap + [c])) == frames' + cur' + gap + [c];
  }

  lemma AboveFolded(fs: seq<Frame>, cur: Written, gap: string, op: Op)
    requires fs != [] ==> !ShouldPop(FrameToken(fs[|fs| - 1]), Operator(op))
    ensures fs != [] ==> Above(Left(cur, gap, op), fs[|fs| - 1])
  {
  }

  lemma FeedsOperator(ar: Arithmetic, y: Yard, op: Op)
    requires FoldFor(ar, y, Operator(op)).Ok?
    ensures var folded := FoldFor(ar, y, Operator(op)).value;
            Feed(ar, y, Operator(op)) == Ok(Yard(folded.operands, folded.ops + [Operator(op)]))
  {
  }

  /** With its left operand folded, the operator waits on top. */
  lemma PushOperator(ar: Arithmetic, folded: Yard, fs: seq<Frame>, cur: Written, gap: string, op: Op) returns (r': Reading)
    requires FramesOk(ar, fs) && WellFormed(ar, cur) && Level(cur) >= Precedence(Operator(op)) && Blanks(gap)
    requires Mirrors(folded, fs, 1)
    requires fs != [] ==> !ShouldPop(FrameToken(fs[|fs| - 1]), Operator(op))
    ensures ReadingOk(ar, r', Yard(folded.operands, folded.ops + [Operator(op)])) && r'.cur == None
    ensures SoFar(r') == FramesText(fs) + (Text(cur) + (gap + [OpChar(op)]))
  {
    var f := Left(cur, gap, op);
    AboveFolded(fs, cur, gap, op);
    Push(ar, folded, fs, f, 1);
    r' := Reading(fs + [f], None, "");
    PushedText(fs, f);
  }

  lemma ReadOperator(ar: Arithmetic, r: Reading, y: Yard, op: Op) returns (r': Reading)
    requires ReadingOk(ar, r, y) && r.cur.Some?
    ensures Feed(ar, y, Operator(op)).Ok?
    ensures ReadingOk(ar, r', Feed(ar, y, Operator(op)).value) && r'.cur == None && SoFar(r') == SoFar(r) + [OpChar(op)]
  {
    var fs, cur := FoldForFrames(ar, y, r.fs, r.cur.value, op);
    FeedsOperator(ar, y, op);
    r' := PushOperator(ar, FoldFor(ar, y, Operator(op)).value, fs, cur, r.gap, op);
    OperatorText(FramesText(r.fs), Text(r.cur.value), FramesText(fs), Text(cur), r.gap, OpChar(op));
  }

  lemma ClosedText(frames: string, pre: string, cur: string, whole: string, gap: string)
    requires frames + (pre + ['(']) + cur == whole
    ensures frames + (pre + ['('] + cur + gap + [')']) == whole + gap + [')']
  {
    assert frames + (pre + ['('] + cur + gap + [')']) == frames + (pre + ['(']) + cur + gap + [')'];
  }

  lemma ReadClosing(ar: Arithmetic, r: Reading, y: Yard) returns (r': Reading)
    requires ReadingOk(ar, r, y) && r.cur.Some? && Feed(ar, y, RParen).Ok?
    ensures ReadingOk(ar, r', Feed(ar, y, RParen).value) && r'.cur.Some? && SoFar(r') == SoFar(r) + [')']
  {
    var fs, pre, cur := CloseFrames(ar, y, r.fs, r.cur.value);
    var t := Paren(pre, cur, r.gap);
    r' := Reading(fs, Some(t), "");
    OperandText(fs, t);
    ClosedText(FramesText(fs), pre, Text(cur), FramesText(r.fs) + Text(r.cur.value), r.gap);
  }

  /** One token read. */
  lemma ReadToken(ar: Arithmetic, r: Reading, y: Yard, t: Token, text: string) returns (r': Reading)
    requires ReadingOk(ar, r, y) && Feed(ar, y, t).Ok? && Fits(t, r.cur == None)
    requires match t
             case Number(v) => IsLiteral(ar, text) && (ar.parse)(text).value == v
             case Operator(op) => r.cur.Some? && text == [OpChar(op)]
             case Negate => r.cur == None && text == ['-']
             case LParen => text == ['(']
             case RParen => text == [')']
    ensures ReadingOk(ar, r', Feed(ar, y, t).value) && (r'.cur == None <==> Expecting(t))
    ensures SoFar(r') == SoFar(r) + text
  {
    match t
    case Number(_) => r' := ReadNumber(ar, r, y, text);
    case Operator(op) => r' := ReadOperator(ar, r, y, op);
    case Negate => r' := ReadNegation(ar, r, y);
    case LParen => r' := ReadOpening(ar, r, y);
    case RParen => r' := ReadClosing(ar, r, y);
  }

  /** A character that starts a token, read alone. */
  lemma SymbolSplit(s: string)
    requires s != []
    ensures s == [s[0]] + s[1..]
  {
  }

  lemma TokensSplit(ar: Arithmetic, y: Yard, tokens: seq<Token>, t: Token, rest: seq<Token>)
    requires tokens == [t] + rest && FeedAll(ar, y, tokens).Ok?
    ensures Feed(ar, y, t).Ok? && FeedAll(ar, y, tokens) == FeedAll(ar, Feed(ar, y, t).value, rest)
    ensures forall wanted :: PlacedFrom(wanted, tokens) ==> Fits(t, wanted) && PlacedFrom(Expecting(t), rest)
  {
    assert tokens[1..] == rest;
  }

  /** The first token of a text that does not start with a blank, its characters and what follows. */
  lemma FirstToken(ar: Arithmetic, s: string, wanted: bool, tokens: seq<Token>)
    returns (t: Token, rest: seq<Token>, text: string, tail: string)
    requires s != [] && !IsBlank(s[0]) && Lex(ar, s, wanted) == Ok(tokens)
    ensures tokens == [t] + rest && s == text + tail && |tail| < |s| && Lex(ar, tail, Expecting(t)) == Ok(rest)
    ensures match t
            case Number(v) => IsLiteral(ar, text) && (ar.parse)(text).value == v
            case Operator(op) => !wanted && text == [OpChar(op)]
            case Negate => wanted && text == ['-']
            case LParen => text == ['(']
            case RParen => text == [')']
  {
    if IsDigit(s[0]) {
      var n := DigitRun(s);
      text, tail := s[..n], s[n..];
      t, rest := Number((ar.parse)(text).value), Lex(ar, tail, false).value;
    } else {
      SymbolSplit(s);
      text, tail := [s[0]], s[1..];
      if s[0] == '(' {
        t, rest := LParen, Lex(ar, tail, true).value;
      } else if s[0] == ')' {
        t, rest := RParen, Lex(ar, tail, false).value;
      } else {
        t := if wanted then Negate else Operator(OpOf(s[0]).value);
        rest := Lex(ar, tail, true).value;
      }
    }
  }

  lemma Regroup(a: string, b: string, c: string, s: string)
    requires s == b + c
    ensures a + b + c == a + s
  {
  }

  lemma ReadBlank(ar: Arithmetic, r: Reading, y: Yard, c: char)
    requires ReadingOk(ar, r, y) && IsBlank(c)
    ensures ReadingOk(ar, r.(gap := r.gap + [c]), y) && SoFar(r.(gap := r.gap + [c])) == SoFar(r) + [c]
  {
  }

  /** Reading a placed text to its end, when the builder accepts it, gives a written tree. */
  lemma {:induction false} ReadAll(ar: Arithmetic, s: string, tokens: seq<Token>, r: Reading, y: Yard)
    returns (t: Written, post: string)
    requires ReadingOk(ar, r, y) && Lex(ar, s, r.cur == None) == Ok(tokens) && PlacedFrom(r.cur == None, tokens)
    requires FeedAll(ar, y, tokens).Ok? && Drain(ar, FeedAll(ar, y, tokens).value).Ok?
    ensures WellFormed(ar, t) && Blanks(post) && Text(t) + post == SoFar(r) + s
    decreases |s|
  {
    if s == [] {
      t, post := ReadEnd(ar, r, y);
    } else if IsBlank(s[0]) {
      ReadBlank(ar, r, y, s[0]);
      t, post := ReadAll(ar, s[1..], tokens, r.(gap := r.gap + [s[0]]), y);
      Regroup(SoFar(r), [s[0]], s[1..], s);
    } else {
      var first, rest, text, tail := FirstToken(ar, s, r.cur == None, tokens);
      TokensSplit(ar, y, tokens, first, rest);
      var r' := ReadToken(ar, r, y, first, text);
      t, post := ReadAll(ar, tail, rest, r', Feed(ar, y, first).value);
      Regroup(SoFar(r), text, tail, s);
    }
  }

  /** Nothing is left to read. */
  lemma ReadEnd(ar: Arithmetic, r: Reading, y: Yard) returns (t: Written, post: string)
    requires ReadingOk(ar, r, y) && Drain(ar, y).Ok?
    ensures WellFormed(ar, t) && Blanks(post) && Text(t) + post == SoFar(r) + []
  {
    if r.cur == None {
      BinariesAreLefts(y.ops, r.fs);
      DrainFails(ar, y);
      assert false;
    }
    t := DrainFrames(ar, y, r.fs, r.cur.value);
    post := r.gap;
  }

  // ---- The theorem ---------------------------------------------------------------------------

  /** The text is an infix expression with white space around it. */
  ghost predicate IsInfix(ar: Arithmetic, raw: string) {
    exists before, t, after :: WellFormed(ar, t) && Spaces(before) && Spaces(after) && raw == before + Text(t) + after
  }

  lemma {:induction false} TrimLeftSplits(s: string) returns (space: string)
    ensures Spaces(space) && s == space + TrimLeft(s) && (TrimLeft(s) != "" ==> !IsSpace(TrimLeft(s)[0]))
    decreases |s|
  {
    if s != [] && IsSpace(s[0]) {
      var more := TrimLeftSplits(s[1..]);
      space := [s[0]] + more;
    } else {
      space := [];
    }
  }

  lemma {:induction false} TrimRightSplits(s: string) returns (space: string)
    ensures Spaces(space) && s == TrimRight(s) + space && (TrimRight(s) != "" ==> !IsSpace(TrimRight(s)[|TrimRight(s)| - 1]))
    decreases |s|
  {
    if s != [] && IsSpace(s[|s| - 1]) {
      var more := TrimRightSplits(s[..|s| - 1]);
      space := more + [s[|s| - 1]];
    } else {
      space := [];
    }
  }

  /** Trimming takes white space, and all there is, off both ends. */
  lemma TrimMeans(s: string) returns (before: string, after: string)
    ensures s == before + (TrimSpace(s) + after)
    ensures (forall k :: 0 <= k < |before| ==> White(before[k])) && forall k :: 0 <= k < |after| ==> White(after[k])
    ensures var text := TrimSpace(s); text != "" ==> !White(text[0]) && !White(text[|text| - 1])
  {
    before := TrimLeftSplits(s);
    after := TrimRightSplits(TrimLeft(s));
    var text := TrimSpace(s);
    forall k | 0 <= k < |before| ensures White(before[k]) { SpaceIsWhite(before[k]); }
    forall k | 0 <= k < |after| ensures White(after[k]) { SpaceIsWhite(after[k]); }
    if text != "" {
      assert text[0] == TrimLeft(s)[0];
      SpaceIsWhite(text[0]);
      SpaceIsWhite(text[|text| - 1]);
    }
  }

  lemma PlacedIsFrom(tokens: seq<Token>)
    ensures Placed(tokens) <==> PlacedFrom(true, tokens)
  {
    PlacedFromMeans(true, tokens);
  }

  lemma PlacedIsInfix(ar: Arithmetic, raw: string)
    requires ParseOf(ar, raw).Ok? && Placed(Tokens(ar, raw).value)
    ensures IsInfix(ar, raw)
  {
    var trimmed := TrimSpace(raw);
    var before := TrimLeftSplits(raw);
    var after := TrimRightSplits(TrimLeft(raw));
    PlacedIsFrom(Tokens(ar, raw).value);
    var t, post := ReadAll(ar, trimmed, Tokens(ar, raw).value, Reading([], None, ""), Yard([], []));
    assert SoFar(Reading([], None, "")) + trimmed == trimmed;
    SplitInfix(ar, raw, before, trimmed, after, t, post);
  }

  lemma SplitInfix(ar: Arithmetic, raw: string, before: string, trimmed: string, after: string, t: Written, post: string)
    requires raw == before + (trimmed + after) && trimmed == Text(t) + post
    requires WellFormed(ar, t) && Spaces(before) && Blanks(post) && Spaces(after)
    ensures IsInfix(ar, raw)
  {
    assert raw == before + Text(t) + (post + after);
    assert Spaces(post + after);
  }

  lemma InfixIsPlaced(ar: Arithmetic, raw: string)
    requires IsInfix(ar, raw)
    ensures ParseOf(ar, raw).Ok? && Placed(Tokens(ar, raw).value)
  {
    var before, t, after :| WellFormed(ar, t) && Spaces(before) && Spaces(after) && raw == before + Text(t) + after;
    ParseWritten(ar, before, t, after);
    TrimText(ar, before, t, after);
    LexText(ar, t, []);
    assert Text(t) + [] == Text(t) && TokensOf(ar, t) + [] == TokensOf(ar, t);
    TokensPlaced(ar, t);
    PlacedIsFrom(TokensOf(ar, t));
  }

  /** The accepted texts that are infix are exactly those whose tokens are placed; what they mean is what
      `ParseWritten` says. */
  lemma AcceptedInfix(ar: Arithmetic, raw: string)
    requires ParseOf(ar, raw).Ok?
    ensures Placed(Tokens(ar, raw).value) <==> IsInfix(ar, raw)
  {
    if Placed(Tokens(ar, raw).value) { PlacedIsInfix(ar, raw); }
    if IsInfix(ar, raw) { InfixIsPlaced(ar, raw); }
  }

  /** "1()" is accepted and is not infix. */
  lemma EmptyCallNotInfix(ar: Arithmetic)
    requires (ar.parse)("1").Some?
    ensures ParseOf(ar, "1()").Ok? && !IsInfix(ar, "1()")
  {
    EmptyCallAccepted(ar);
    EmptyCallTokens(ar);
    assert !FitsAt(true, Tokens(ar, "1()").value, 1);
    AcceptedInfix(ar, "1()");
  }
}
