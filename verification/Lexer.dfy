/** The tokenizer of the expression parser. */
module Lexer {
  import opened Values

  datatype Token =
    | Number(value: Value)
    | Operator(op: Op)
    | Negate
    | LParen
    | RParen

  // ---- Characters ------------------------------------------------------------------------

  /** Go's unicode.IsSpace, what TrimSpace removes at both ends. */
  predicate IsSpace(c: char) {
    || '\U{0009}' <= c <= '\U{000D}'
    || c == ' ' || c == '\U{0085}' || c == '\U{00A0}' || c == '\U{1680}'
    || '\U{2000}' <= c <= '\U{200A}'
    || c == '\U{2028}' || c == '\U{2029}' || c == '\U{202F}' || c == '\U{205F}' || c == '\U{3000}'
  }

  /** The whitespace allowed between tokens. */
  predicate IsBlank(c: char) {
    c == ' ' || c == '\t'
  }

  predicate IsDigit(c: char) {
    '0' <= c <= '9' || c == '.'
  }

  function OpOf(c: char): Option<Op> {
    if c == '+' then Some(Add) else if c == '-' then Some(Sub)
    else if c == '*' then Some(Mul) else if c == '/' then Some(Div)
    else None
  }

  function TrimLeft(s: string): string {
    if s != [] && IsSpace(s[0]) then TrimLeft(s[1..]) else s
  }

  function TrimRight(s: string): string {
    if s != [] && IsSpace(s[|s| - 1]) then TrimRight(s[..|s| - 1]) else s
  }

  function TrimSpace(s: string): string {
    TrimRight(TrimLeft(s))
  }

  /** The code points that Unicode calls white space. */
  predicate White(c: char) {
    c as int in {9, 10, 11, 12, 13, 32, 133, 160, 5760, 8192, 8193, 8194, 8195, 8196, 8197, 8198, 8199, 8200, 8201, 8202,
                 8232, 8233, 8239, 8287, 12288}
  }

  lemma SpaceIsWhite(c: char)
    ensures IsSpace(c) <==> White(c)
  {
  }

  // ---- Specification ----------------------------------------------------------------------

  /** Length of the longest prefix of digits and dots. */
  function DigitRun(s: string): (n: nat)
    ensures n <= |s|
    ensures forall k :: 0 <= k < n ==> IsDigit(s[k])
    ensures n < |s| ==> !IsDigit(s[n])
  {
    if s != [] && IsDigit(s[0]) then 1 + DigitRun(s[1..]) else 0
  }

  /** The longest run of digits and dots a text starts with. */
  function Literal(s: string): string {
    s[..DigitRun(s)]
  }

  /** `first` in front of the tokens of the rest, unless the rest is an error. */
  function Prepend(first: seq<Token>, rest: Result<seq<Token>>): Result<seq<Token>> {
    match rest
    case Ok(tokens) => Ok(first + tokens)
    case Err(e) => Err(e)
  }

  /** The tokens of `s`. `expectOperand` tells whether a '-' at its start is a negation. */
  function Lex(ar: Arithmetic, s: string, expectOperand: bool): Result<seq<Token>>
    decreases |s|
  {
    if s == [] then Ok([])
    else if IsBlank(s[0]) then Lex(ar, s[1..], expectOperand)
    else if IsDigit(s[0]) then
      var n := DigitRun(s);
      match (ar.parse)(s[..n])
      case None => Err(InvalidInput)
      case Some(v) => Prepend([Number(v)], Lex(ar, s[n..], false))
    else if s[0] == '(' then Prepend([LParen], Lex(ar, s[1..], true))
    else if s[0] == ')' then Prepend([RParen], Lex(ar, s[1..], false))
    else match OpOf(s[0])
      case None => Err(InvalidInput)
      case Some(op) =>
        if !expectOperand then Prepend([Operator(op)], Lex(ar, s[1..], true))
        else if op == Sub then Prepend([Negate], Lex(ar, s[1..], true))
        else Err(InvalidInput)
  }

  /** The tokens of a raw expression; an expression without tokens is an error. */
  function Tokens(ar: Arithmetic, raw: string): Result<seq<Token>> {
    match Lex(ar, TrimSpace(raw), true)
    case Err(e) => Err(e)
    case Ok(tokens) => if tokens == [] then Err(InvalidInput) else Ok(tokens)
  }

  /** A text that cannot be read is invalid input. */
  lemma {:induction false} LexFails(ar: Arithmetic, s: string, expectOperand: bool)
    ensures Lex(ar, s, expectOperand).Err? ==> Lex(ar, s, expectOperand).error == InvalidInput
    decreases |s|
  {
    if s != [] {
      LexFails(ar, s[1..], expectOperand);
      LexFails(ar, s[1..], true);
      LexFails(ar, s[1..], false);
      if IsDigit(s[0]) { LexFails(ar, s[DigitRun(s)..], false); }
    }
  }

  // ---- The scanner --------------------------------------------------------------------------

  class Scanner {
    const ar: Arithmetic
    const src: string
    var pos: nat
    var out: seq<Token>
    var expectOperand: bool

    constructor (ar: Arithmetic, src: string)
      ensures this.ar == ar && this.src == src
      ensures pos == 0 && out == [] && expectOperand
    {
      this.ar := ar;
      this.src := src;
      pos, out, expectOperand := 0, [], true;
    }

    /** What the tokens of the whole source will be: those found so far and those still ahead. */
    ghost function Whole(): Result<seq<Token>>
      reads this
      requires pos <= |src|
    {
      Prepend(out, Lex(ar, src[pos..], expectOperand))
    }

    /** Consumes one token, or one blank. */
    method Step() returns (err: Option<Error>)
      requires pos < |src|
      modifies this
      ensures pos <= |src|
      ensures err == None ==> old(pos) < pos && Whole() == old(Whole())
      ensures err == None ==> old(out) <= out && |out| == |old(out)| + (if IsBlank(src[old(pos)]) then 0 else 1)
      ensures err.Some? ==> old(Whole()) == Err(err.value)
    {
      var c := src[pos];
      assert src[pos..][1..] == src[pos + 1..];
      if IsBlank(c) {
        pos := pos + 1;
        err := None;
      } else if IsDigit(c) {
        err := ScanNumber();
      } else if c == '(' {
        out := out + [LParen];
        pos := pos + 1;
        expectOperand := true;
        err := None;
        PrependTwice(old(out), [LParen], Lex(ar, src[pos..], true));
      } else if c == ')' {
        out := out + [RParen];
        pos := pos + 1;
        expectOperand := false;
        err := None;
        PrependTwice(old(out), [RParen], Lex(ar, src[pos..], false));
      } else if OpOf(c).Some? {
        err := ScanOperator(OpOf(c).value);
      } else {
        err := Some(InvalidInput);
      }
    }

    method ScanNumber() returns (err: Option<Error>)
      requires pos < |src| && IsDigit(src[pos]) && !IsBlank(src[pos])
      modifies this
      ensures pos <= |src|
      ensures err == None ==> old(pos) < pos && Whole() == old(Whole())
      ensures err.Some? ==> old(Whole()) == Err(err.value)
      ensures var lit := Literal(src[old(pos)..]);
              match (ar.parse)(lit)
              case None => err.Some?
              case Some(v) =>
                err == None && out == old(out) + [Number(v)] && pos == old(pos) + |lit| && !expectOperand
    {
      var start := pos;
      while pos < |src| && IsDigit(src[pos])
        invariant start <= pos <= |src|
        invariant pos == start ==> pos < |src| && IsDigit(src[pos])
        invariant forall k :: start <= k < pos ==> IsDigit(src[k])
        invariant out == old(out) && expectOperand == old(expectOperand)
      {
        pos := pos + 1;
      }
      LexRun(ar, src, start, pos, expectOperand);
      match (ar.parse)(src[start..pos])
      case None =>
        err := Some(InvalidInput);
      case Some(v) =>
        out := out + [Number(v)];
        expectOperand := false;
        err := None;
        PrependTwice(old(out), [Number(v)], Lex(ar, src[pos..], false));
    }

    method ScanOperator(op: Op) returns (err: Option<Error>)
      requires pos < |src| && OpOf(src[pos]) == Some(op)
      modifies this
      ensures pos <= |src|
      ensures err == None ==> old(pos) < pos && Whole() == old(Whole())
      ensures err.Some? ==> old(Whole()) == Err(err.value)
      ensures err.Some? <==> old(expectOperand) && op != Sub
      ensures err == None ==>
                out == old(out) + [if old(expectOperand) then Negate else Operator(op)] && pos == old(pos) + 1 && expectOperand
    {
      assert src[pos..][1..] == src[pos + 1..];
      var token := if expectOperand then Negate else Operator(op);
      if expectOperand && op != Sub {
        return Some(InvalidInput);
      }
      out := out + [token];
      pos := pos + 1;
      expectOperand := true;
      err := None;
      PrependTwice(old(out), [token], Lex(ar, src[pos..], true));
    }
  }

  method Tokenize(ar: Arithmetic, raw: string) returns (r: Result<seq<Token>>)
    ensures r == Tokens(ar, raw)
  {
    var s := new Scanner(ar, TrimSpace(raw));
    assert s.src[s.pos..] == s.src;
    assert Prepend([], Lex(ar, s.src, true)) == Lex(ar, s.src, true) by {
      PrependNothing(Lex(ar, s.src, true));
    }
    while s.pos < |s.src|
      invariant s.pos <= |s.src|
      invariant s.Whole() == Lex(ar, s.src, true)
      decreases |s.src| - s.pos
    {
      var err := s.Step();
      if err.Some? {
        return Err(err.value);
      }
    }
    assert s.src[s.pos..] == [];
    assert s.out + [] == s.out;
    if s.out == [] {
      return Err(InvalidInput);
    }
    return Ok(s.out);
  }

  // ---- Lemmas -------------------------------------------------------------------------------

  lemma PrependTwice(a: seq<Token>, b: seq<Token>, rest: Result<seq<Token>>)
    ensures Prepend(a, Prepend(b, rest)) == Prepend(a + b, rest)
  {
    if rest.Ok? { assert a + (b + rest.value) == a + b + rest.value; }
  }

  lemma PrependNothing(rest: Result<seq<Token>>)
    ensures Prepend([], rest) == rest
  {
    if rest.Ok? { assert [] + rest.value == rest.value; }
  }

  /** The digit run is determined by what it contains and what follows it. */
  lemma {:induction false} DigitRunIs(s: string, n: nat)
    requires n <= |s|
    requires forall k :: 0 <= k < n ==> IsDigit(s[k])
    requires n < |s| ==> !IsDigit(s[n])
    ensures DigitRun(s) == n
  {
    if n > 0 { DigitRunIs(s[1..], n - 1); }
  }

  /** What the tokenizer makes of the run of digits and dots from `start` to `pos`. */
  lemma LexRun(ar: Arithmetic, src: string, start: nat, pos: nat, expectOperand: bool)
    requires start < pos <= |src| && forall k :: start <= k < pos ==> IsDigit(src[k])
    requires pos < |src| ==> !IsDigit(src[pos])
    ensures Literal(src[start..]) == src[start..pos]
    ensures Lex(ar, src[start..], expectOperand)
            == match (ar.parse)(src[start..pos])
               case None => Err(InvalidInput)
               case Some(v) => Prepend([Number(v)], Lex(ar, src[pos..], false))
  {
    DigitRunIs(src[start..], pos - start);
    assert src[start..][..pos - start] == src[start..pos];
    assert src[start..][pos - start..] == src[pos..];
  }

  /** Blanks in front of a text do not change its tokens. */
  lemma {:induction false} LexSkipsBlanks(ar: Arithmetic, blanks: string, s: string, expectOperand: bool)
    requires forall k :: 0 <= k < |blanks| ==> IsBlank(blanks[k])
    ensures Lex(ar, blanks + s, expectOperand) == Lex(ar, s, expectOperand)
  {
    if blanks == [] {
      assert blanks + s == s;
    } else {
      assert (blanks + s)[1..] == blanks[1..] + s;
      LexSkipsBlanks(ar, blanks[1..], s, expectOperand);
    }
  }

  /** A number followed by something that cannot extend it is one token. */
  lemma LexNumber(ar: Arithmetic, lit: string, s: string, expectOperand: bool)
    requires lit != [] && forall k :: 0 <= k < |lit| ==> IsDigit(lit[k])
    requires (ar.parse)(lit).Some?
    requires s == [] || !IsDigit(s[0])
    ensures Lex(ar, lit + s, expectOperand) == Prepend([Number((ar.parse)(lit).value)], Lex(ar, s, false))
  {
    var text := lit + s;
    assert IsDigit(text[0]);
    DigitRunIs(text, |lit|);
    assert text[..|lit|] == lit && text[|lit|..] == s;
  }
}
