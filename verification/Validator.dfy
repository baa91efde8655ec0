/** The allow-list check in front of the parser. */
module Validator {
  import opened Values
  import opened Lexer
  import opened Infix

  const MAX_EXPRESSION_LENGTH := 512
  const MAX_PAREN_DEPTH := 64

  function Max(a: int, b: int): int {
    if a < b then b else a
  }

  predicate IsOperator(c: char) {
    OpOf(c).Some?
  }

  // ---- Specification: one character at a time ------------------------------------------------

  /** The walk's state. `prev` is the last character that is not a blank. */
  datatype Scan = Scan(depth: int, maxDepth: int, prev: char, digits: bool)

  const START := Scan(0, 0, '\0', false)

  function CheckChar(s: Scan, c: char): Result<Scan> {
    if IsDigit(c) then Ok(s.(digits := true, prev := c))
    else if c == '(' then Ok(s.(depth := s.depth + 1, maxDepth := Max(s.maxDepth, s.depth + 1), prev := c))
    else if c == ')' then
      if s.depth - 1 < 0 then Err(InvalidInput) else Ok(s.(depth := s.depth - 1, prev := c))
    else if IsOperator(c) then
      if IsOperator(s.prev) && s.prev != '-' && c != '-' then Err(InvalidInput) else Ok(s.(prev := c))
    else if IsBlank(c) then Ok(s)
    else Err(InvalidInput)
  }

  function CheckAll(s: Scan, text: string): Result<Scan>
    decreases |text|
  {
    if text == [] then Ok(s)
    else match CheckChar(s, text[0])
      case Err(e) => Err(e)
      case Ok(s') => CheckAll(s', text[1..])
  }

  predicate Finishes(s: Scan) {
    s.depth == 0 && s.maxDepth <= MAX_PAREN_DEPTH && s.digits && !IsOperator(s.prev)
  }

  /** ValidateExpression accepts. */
  predicate Accepts(raw: string) {
    var trimmed := TrimSpace(raw);
    && trimmed != [] && |trimmed| <= MAX_EXPRESSION_LENGTH
    && CheckAll(START, trimmed).Ok? && Finishes(CheckAll(START, trimmed).value)
  }

  // ---- The scan ------------------------------------------------------------------------------

  class ExprScan {
    var depth: int
    var maxDepth: int
    var prev: char
    var digits: bool

    constructor ()
      ensures State() == START
    {
      depth, maxDepth, prev, digits := 0, 0, '\0', false;
    }

    ghost function State(): Scan
      reads this
    {
      Scan(depth, maxDepth, prev, digits)
    }

    method Check(c: char) returns (err: Option<Error>)
      modifies this
      ensures match CheckChar(old(State()), c)
              case Ok(s) => err == None && State() == s
              case Err(e) => err == Some(e)
    {
      if IsDigit(c) {
        digits := true;
      } else if c == '(' {
        depth := depth + 1;
        maxDepth := Max(maxDepth, depth);
      } else if c == ')' {
        depth := depth - 1;
        if depth < 0 {
          return Some(InvalidInput);
        }
      } else if IsOperator(c) {
        if !MayFollow(c) {
          return Some(InvalidInput);
        }
      } else if IsBlank(c) {
        return None;
      } else {
        return Some(InvalidInput);
      }
      prev := c;
      return None;
    }

    predicate MayFollow(c: char)
      reads this
    {
      !((prev == '+' || prev == '*' || prev == '/') && c != '-')
    }

    method Finish() returns (err: Option<Error>)
      ensures err == None <==> Finishes(State())
      ensures err.Some? ==> err == Some(InvalidInput)
    {
      if depth != 0 {
        return Some(InvalidInput);
      }
      if maxDepth > MAX_PAREN_DEPTH {
        return Some(InvalidInput);
      }
      if !digits {
        return Some(InvalidInput);
      }
      if prev == '+' || prev == '-' || prev == '*' || prev == '/' {
        return Some(InvalidInput);
      }
      return None;
    }
  }

  method ValidateExpression(raw: string) returns (err: Option<Error>)
    ensures err == None <==> Accepts(raw)
    ensures err.Some? ==> err == Some(InvalidInput)
  {
    var trimmed := TrimSpace(raw);
    if trimmed == [] {
      return Some(InvalidInput);
    }
    if |trimmed| > MAX_EXPRESSION_LENGTH {
      return Some(InvalidInput);
    }
    var scan := new ExprScan();
    assert trimmed[0..] == trimmed;
    for i := 0 to |trimmed|
      invariant CheckAll(scan.State(), trimmed[i..]) == CheckAll(START, trimmed)
    {
      assert trimmed[i..][1..] == trimmed[i + 1..];
      err := scan.Check(trimmed[i]);
      if err.Some? {
        return Some(InvalidInput);
      }
    }
    err := scan.Finish();
  }

  // ---- What acceptance means -----------------------------------------------------------------

  predicate Allowed(c: char) {
    IsDigit(c) || c == '(' || c == ')' || IsOperator(c) || IsBlank(c)
  }

  /** Parentheses opened and not yet closed. */
  function Depth(text: string): int {
    if text == [] then 0
    else Depth(text[..|text| - 1])
         + (if text[|text| - 1] == '(' then 1 else if text[|text| - 1] == ')' then -1 else 0)
  }

  /** The last character that is not a blank. */
  function LastInk(text: string): char {
    if text == [] then '\0'
    else if IsBlank(text[|text| - 1]) then LastInk(text[..|text| - 1])
    else text[|text| - 1]
  }

  /** No operator other than '-' comes right after '+', '*' or '/', blanks aside. */
  predicate NoOperatorRun(text: string) {
    forall k :: 0 <= k < |text| && IsOperator(text[k]) && text[k] != '-' ==>
      !IsOperator(LastInk(text[..k])) || LastInk(text[..k]) == '-'
  }

  /** Every character may pass. */
  ghost predicate Clean(text: string) {
    && (forall k :: 0 <= k < |text| ==> Allowed(text[k]))
    && (forall k :: 0 <= k <= |text| ==> Depth(text[..k]) >= 0)
    && NoOperatorRun(text)
  }

  /** The walk's state, said of the text walked. */
  ghost predicate Describes(s: Scan, text: string) {
    && s.depth == Depth(text) && s.prev == LastInk(text)
    && (s.digits <==> exists k :: 0 <= k < |text| && IsDigit(text[k]))
    && (forall k :: 0 <= k <= |text| ==> Depth(text[..k]) <= s.maxDepth)
    && (exists k :: 0 <= k <= |text| && Depth(text[..k]) == s.maxDepth)
  }

  lemma {:induction false} CheckAllConcat(s: Scan, a: string, b: string)
    ensures CheckAll(s, a + b) ==
            (match CheckAll(s, a) case Err(e) => Err(e) case Ok(s') => CheckAll(s', b))
    decreases |a|
  {
    if a == [] {
      assert a + b == b;
    } else {
      assert (a + b)[1..] == a[1..] + b;
      match CheckChar(s, a[0])
      case Err(_) =>
      case Ok(s') => CheckAllConcat(s', a[1..], b);
    }
  }

  lemma PrefixOf(text: string, c: char, k: nat)
    requires k <= |text|
    ensures (text + [c])[..k] == text[..k]
  {
  }

  lemma DigitsNext(text: string, c: char)
    ensures (exists k :: 0 <= k < |text + [c]| && IsDigit((text + [c])[k]))
            <==> IsDigit(c) || exists k :: 0 <= k < |text| && IsDigit(text[k])
  {
    var next := text + [c];
    assert next[|text|] == c;
    forall k | 0 <= k < |text| ensures next[k] == text[k] {}
  }

  lemma DescribesNext(s: Scan, text: string, c: char)
    requires Describes(s, text) && CheckChar(s, c).Ok?
    ensures Describes(CheckChar(s, c).value, text + [c])
  {
    var next := text + [c];
    var s' := CheckChar(s, c).value;
    assert next[..|text|] == text && next[..|next|] == next;
    DigitsNext(text, c);
    forall k | 0 <= k <= |text| ensures Depth(next[..k]) == Depth(text[..k]) { PrefixOf(text, c, k); }
    var w :| 0 <= w <= |text| && Depth(text[..w]) == s.maxDepth;
    assert text[..|text|] == text;
    assert Depth(next[..w]) == s.maxDepth;
    assert Depth(next) <= s'.maxDepth;
    if s'.maxDepth != s.maxDepth {
      assert Depth(next[..|next|]) == s'.maxDepth;
    }
  }

  /** The walk gets through exactly the clean texts, and its final state describes the text. */
  lemma {:induction false} CheckAllMeans(text: string)
    ensures CheckAll(START, text).Ok? <==> Clean(text)
    ensures CheckAll(START, text).Ok? ==> Describes(CheckAll(START, text).value, text)
    decreases |text|
  {
    if text == [] {
      assert text[..0] == [];
    } else {
      var n := |text| - 1;
      var front, c := text[..n], text[n];
      assert text == front + [c];
      CheckAllMeans(front);
      CheckAllConcat(START, front, [c]);
      assert [c][1..] == [];
      CleanSnoc(front, c);
      if Clean(front) {
        var s := CheckAll(START, front).value;
        assert CheckAll(START, text) == CheckChar(s, c);
        StepAgrees(s, front, c);
        if CheckChar(s, c).Ok? { DescribesNext(s, front, c); }
      }
    }
  }

  /** What the last character adds to cleanness. */
  predicate CleanStep(front: string, c: char) {
    && Allowed(c) && Depth(front + [c]) >= 0
    && (IsOperator(c) && c != '-' ==> !IsOperator(LastInk(front)) || LastInk(front) == '-')
  }

  lemma StepAgrees(s: Scan, front: string, c: char)
    requires Clean(front) && s.depth == Depth(front) && s.prev == LastInk(front)
    ensures CheckChar(s, c).Ok? <==> CleanStep(front, c)
  {
    assert (front + [c])[..|front|] == front;
    assert front[..|front|] == front;
    assert Depth(front) >= 0;
  }

  lemma CleanSnoc(front: string, c: char)
    ensures Clean(front + [c]) <==> Clean(front) && CleanStep(front, c)
  {
    var text := front + [c];
    var n := |front|;
    assert text[..n] == front && text[..n + 1] == text && front[..n] == front;
    forall k | 0 <= k <= n ensures front[..k] == text[..k] { PrefixOf(front, c, k); }
    if Clean(text) {
      assert Allowed(text[n]) && Depth(text[..n + 1]) >= 0;
      forall k | 0 <= k < n ensures Allowed(front[k]) && front[k] == text[k] { assert Allowed(text[k]); }
      assert CleanStep(front, c);
    } else if Clean(front) && CleanStep(front, c) {
      forall k | 0 <= k < n + 1 ensures Allowed(text[k]) { if k < n { assert Allowed(front[k]); } }
      forall k | 0 <= k <= n + 1 ensures Depth(text[..k]) >= 0 { if k <= n { assert Depth(front[..k]) >= 0; } }
    }
  }

  /** The alphabet. */
  lemma CharacterIs(c: char)
    ensures IsDigit(c) <==> c in "0123456789."
    ensures IsOperator(c) <==> c in "+-*/"
    ensures IsOperator(c) && c != '-' <==> c in "+*/"
    ensures Allowed(c) <==> c in "0123456789.()+-*/ \t"
  {
  }

  lemma RunsMean(text: string)
    ensures NoOperatorRun(text) <==> forall k :: 0 <= k < |text| && text[k] in "+*/" ==> LastInk(text[..k]) !in "+*/"
  {
    forall k | 0 <= k < |text|
      ensures (IsOperator(text[k]) && text[k] != '-' <==> text[k] in "+*/")
      ensures (!IsOperator(LastInk(text[..k])) || LastInk(text[..k]) == '-') <==> LastInk(text[..k]) !in "+*/"
    {
      CharacterIs(text[k]);
      CharacterIs(LastInk(text[..k]));
    }
  }

  lemma CleanMeans(text: string)
    ensures Clean(text) <==>
              && (forall k :: 0 <= k < |text| ==> text[k] in "0123456789.()+-*/ \t")
              && (forall k :: 0 <= k <= |text| ==> Depth(text[..k]) >= 0)
              && (forall k :: 0 <= k < |text| && text[k] in "+*/" ==> LastInk(text[..k]) !in "+*/")
  {
    RunsMean(text);
    forall k | 0 <= k < |text| ensures Allowed(text[k]) <==> text[k] in "0123456789.()+-*/ \t" { CharacterIs(text[k]); }
  }

  lemma DigitsMean(text: string)
    ensures (exists k :: 0 <= k < |text| && IsDigit(text[k])) <==> exists k :: 0 <= k < |text| && text[k] in "0123456789."
  {
    forall k | 0 <= k < |text| ensures IsDigit(text[k]) <==> text[k] in "0123456789." { CharacterIs(text[k]); }
  }

  lemma AcceptsSpec(raw: string)
    ensures
      var text := TrimSpace(raw);
      Accepts(raw) <==>
        && text != [] && |text| <= 512
        && Clean(text) && Depth(text) == 0
        && (forall k :: 0 <= k <= |text| ==> Depth(text[..k]) <= 64)
        && (exists k :: 0 <= k < |text| && IsDigit(text[k]))
        && !IsOperator(LastInk(text))
  {
    CheckAllMeans(TrimSpace(raw));
  }

  /** Acceptance, said without the walk: a nonempty trimmed text of at most 512 characters from the
      allow-list, parentheses balanced and at most 64 deep, with a digit somewhere, no operator
      after '+', '*' or '/' except '-', and no operator at the end. */
  lemma AcceptsMeans(raw: string)
    ensures
      var text := TrimSpace(raw);
      Accepts(raw) <==>
        && text != [] && |text| <= 512
        && (forall k :: 0 <= k < |text| ==> text[k] in "0123456789.()+-*/ \t")
        && (exists k :: 0 <= k < |text| && text[k] in "0123456789.")
        && (forall k :: 0 <= k <= |text| ==> 0 <= Depth(text[..k])) && Depth(text) == 0
        && (forall k :: 0 <= k <= |text| ==> Depth(text[..k]) <= 64)
        && (forall k :: 0 <= k < |text| && text[k] in "+*/" ==> LastInk(text[..k]) !in "+*/")
        && LastInk(text) !in "+-*/"
  {
    var text := TrimSpace(raw);
    AcceptsSpec(raw);
    CleanMeans(text);
    DigitsMean(text);
    CharacterIs(LastInk(text));
  }

  // ---- Written expressions are accepted ------------------------------------------------------

  /** Parenthesis depth of a written expression. */
  function Nesting(t: Written): nat {
    match t
    case Num(_, _) => 0
    case Neg(_, a) => Nesting(a)
    case Bin(l, _, _, r) => if Nesting(l) < Nesting(r) then Nesting(r) else Nesting(l)
    case Paren(_, i, _) => Nesting(i) + 1
  }

  lemma {:induction false} CheckBlanks(s: Scan, blanks: string)
    requires Blanks(blanks)
    ensures CheckAll(s, blanks) == Ok(s)
    decreases |blanks|
  {
    if blanks != [] { CheckBlanks(s, blanks[1..]); }
  }

  lemma {:induction false} CheckDigits(s: Scan, lit: string)
    requires lit != [] && forall k :: 0 <= k < |lit| ==> IsDigit(lit[k])
    ensures CheckAll(s, lit) == Ok(s.(digits := true, prev := lit[|lit| - 1]))
    decreases |lit|
  {
    if |lit| == 1 {
      assert lit[1..] == [];
    } else {
      CheckDigits(s.(digits := true, prev := lit[0]), lit[1..]);
    }
  }

  lemma CheckSymbol(s: Scan, pre: string, c: char, rest: string)
    requires Blanks(pre) && CheckChar(s, c).Ok?
    ensures CheckAll(s, pre + [c] + rest) == CheckAll(CheckChar(s, c).value, rest)
  {
    CheckAllConcat(s, pre + [c], rest);
    CheckAllConcat(s, pre, [c]);
    CheckBlanks(s, pre);
    assert [c][1..] == [];
  }

  /** The state after walking a written expression: depth is back where it was, the deepest point
      is its nesting, and it ended in `last`, which an operator may follow. */
  ghost predicate Walks(s: Scan, t: Written, last: char) {
    && (IsDigit(last) || last == ')')
    && CheckAll(s, Text(t)) == Ok(Scan(s.depth, Max(s.maxDepth, s.depth + Nesting(t)), last, true))
  }

  lemma {:induction false} CheckWritten(ar: Arithmetic, t: Written, s: Scan) returns (last: char)
    requires WellFormed(ar, t) && 0 <= s.depth <= s.maxDepth
    ensures Walks(s, t, last)
    decreases t, 1
  {
    match t
    case Num(pre, lit) =>
      CheckAllConcat(s, pre, lit);
      CheckBlanks(s, pre);
      CheckDigits(s, lit);
      last := lit[|lit| - 1];
    case Neg(pre, a) =>
      CheckSymbol(s, pre, '-', Text(a));
      last := CheckWritten(ar, a, s.(prev := '-'));
    case Bin(_, _, _, _) => last := CheckBin(ar, t, s);
    case Paren(_, _, _) => last := CheckParen(ar, t, s);
  }

  lemma {:induction false} CheckBin(ar: Arithmetic, t: Written, s: Scan) returns (last: char)
    requires t.Bin? && WellFormed(ar, t) && 0 <= s.depth <= s.maxDepth
    ensures Walks(s, t, last)
    decreases t, 0
  {
    var c := OpChar(t.op);
    last := CheckWritten(ar, t.left, s);
    var s1 := CheckAll(s, Text(t.left)).value;
    CheckParts(s, s1, Text(t.left), t.pre, c, Text(t.right));
    last := CheckWritten(ar, t.right, s1.(prev := c));
  }

  /** An operator after an operand only becomes the last character. */
  lemma CheckParts(s: Scan, s1: Scan, left: string, pre: string, c: char, right: string)
    requires CheckAll(s, left) == Ok(s1) && (IsDigit(s1.prev) || s1.prev == ')') && Blanks(pre) && IsOperator(c)
    ensures CheckAll(s, left + (pre + [c]) + right) == CheckAll(s1.(prev := c), right)
  {
    assert left + (pre + [c]) + right == left + (pre + [c] + right);
    CheckAllConcat(s, left, pre + [c] + right);
    CheckSymbol(s1, pre, c, right);
  }

  lemma {:induction false} CheckParen(ar: Arithmetic, t: Written, s: Scan) returns (last: char)
    requires t.Paren? && WellFormed(ar, t) && 0 <= s.depth <= s.maxDepth
    ensures Walks(s, t, last)
    decreases t, 0
  {
    var s1, ti := CheckChar(s, '(').value, Text(t.inner);
    var tail := t.post + [')'];
    assert Text(t) == t.pre + ['('] + (ti + tail);
    CheckSymbol(s, t.pre, '(', ti + tail);
    var inner := CheckWritten(ar, t.inner, s1);
    CheckAllConcat(s1, ti, tail);
    var s2 := CheckAll(s1, ti).value;
    assert tail == t.post + [')'] + [];
    CheckSymbol(s2, t.post, ')', []);
    last := ')';
  }

  lemma CheckCore(ar: Arithmetic, t: Written, lead: string, core: string) returns (last: char)
    requires WellFormed(ar, t) && Blanks(lead) && Text(t) == lead + core
    ensures IsDigit(last) || last == ')'
    ensures CheckAll(START, core) == Ok(Scan(0, Nesting(t), last, true))
  {
    CheckAllConcat(START, lead, core);
    CheckBlanks(START, lead);
    last := CheckWritten(ar, t, START);
  }

  /** A well-formed infix text passes validation exactly if it is short and shallow enough. */
  lemma WrittenAccepted(ar: Arithmetic, before: string, t: Written, after: string)
    requires WellFormed(ar, t) && Spaces(before) && Spaces(after)
    ensures Accepts(before + Text(t) + after) <==>
            |TrimSpace(before + Text(t) + after)| <= 512 && Nesting(t) <= 64
  {
    TextEnds(ar, t);
    var core := TrimAround(before, Text(t), Lead(t), after);
    CoreAccepted(ar, t, core);
  }

  lemma CoreAccepted(ar: Arithmetic, t: Written, core: string)
    requires WellFormed(ar, t) && Blanks(Lead(t)) && Text(t) == Lead(t) + core && core != []
    ensures CheckAll(START, core).Ok? && Finishes(CheckAll(START, core).value) <==> Nesting(t) <= MAX_PAREN_DEPTH
  {
    var last := CheckCore(ar, t, Lead(t), core);
  }
}
