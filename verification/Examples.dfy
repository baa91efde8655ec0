/** What particular texts parse to, character by character: the shapes of the repository's own parser cases, for
    any numbers in them. */
module Examples {
  import opened Values
  import opened Lexer
  import opened ShuntingYard
  import opened Infix

  /** A number as one writes it: digits, and perhaps a point with digits on both sides. */
  predicate Decimal(lit: string) {
    || (lit != "" && forall k :: 0 <= k < |lit| ==> '0' <= lit[k] <= '9')
    || exists i :: 0 < i < |lit| - 1 && lit[i] == '.' && forall k :: 0 <= k < |lit| && k != i ==> '0' <= lit[k] <= '9'
  }

  /** A readable number. */
  predicate Number(ar: Arithmetic, lit: string) {
    Decimal(lit) && (ar.parse)(lit).Some?
  }

  function Tree(ar: Arithmetic, lit: string): Node
    requires Number(ar, lit)
  {
    Leaf((ar.parse)(lit).value)
  }

  function Lit(pre: string, lit: string): Written {
    Num(pre, lit)
  }

  lemma LitIs(ar: Arithmetic, pre: string, lit: string)
    requires Number(ar, lit) && (pre == "" || pre == " ")
    ensures WellFormed(ar, Lit(pre, lit)) && Meaning(ar, Lit(pre, lit)) == Tree(ar, lit)
    ensures Text(Lit(pre, lit)) == pre + lit && Level(Lit(pre, lit)) == 4
  {
  }

  lemma Parses(ar: Arithmetic, t: Written, text: string, meaning: Node)
    requires WellFormed(ar, t) && Text(t) == text && Meaning(ar, t) == meaning
    ensures ParseOf(ar, text) == Ok(meaning)
  {
    ParseWritten(ar, "", t, "");
    Unpadded(text);
  }

  /** A number, with or without a decimal point, is itself. */
  lemma ANumber(ar: Arithmetic, x: string)
    requires Number(ar, x)
    ensures ParseOf(ar, x) == Ok(Tree(ar, x))
  {
    LitIs(ar, "", x);
    Parses(ar, Lit("", x), x, Tree(ar, x));
  }

  /** White space around it does not matter. */
  lemma APaddedNumber(ar: Arithmetic, x: string)
    requires Number(ar, x)
    ensures ParseOf(ar, " \t\r\n" + x + "\n ") == Ok(Tree(ar, x))
  {
    LitIs(ar, "", x);
    Padded(ar, " \t\r\n", Lit("", x), "\n ", " \t\r\n" + x + "\n ");
  }

  lemma Padded(ar: Arithmetic, before: string, t: Written, after: string, text: string)
    requires WellFormed(ar, t) && text == before + Text(t) + after
    requires Spaces(before) && Spaces(after)
    ensures ParseOf(ar, text) == Ok(Meaning(ar, t))
  {
    ParseWritten(ar, before, t, after);
  }

  /** Two numbers and an operator. */
  lemma TwoNumbers(ar: Arithmetic, x: string, y: string)
    requires Number(ar, x) && Number(ar, y)
    ensures ParseOf(ar, x + "+" + y) == Ok(Binary(Add, Tree(ar, x), Tree(ar, y)))
    ensures ParseOf(ar, x + "-" + y) == Ok(Binary(Sub, Tree(ar, x), Tree(ar, y)))
    ensures ParseOf(ar, x + "*" + y) == Ok(Binary(Mul, Tree(ar, x), Tree(ar, y)))
    ensures ParseOf(ar, x + "/" + y) == Ok(Binary(Div, Tree(ar, x), Tree(ar, y)))
  {
    TwoIs(ar, x, y, Add, "+");
    TwoIs(ar, x, y, Sub, "-");
    TwoIs(ar, x, y, Mul, "*");
    TwoIs(ar, x, y, Div, "/");
  }

  lemma TwoIs(ar: Arithmetic, x: string, y: string, op: Op, c: string)
    requires Number(ar, x) && Number(ar, y) && c == [OpChar(op)]
    ensures ParseOf(ar, x + c + y) == Ok(Binary(op, Tree(ar, x), Tree(ar, y)))
  {
    PairIs(ar, x, op, c, y);
    Parses(ar, Bin(Lit("", x), "", op, Lit("", y)), x + c + y, Binary(op, Tree(ar, x), Tree(ar, y)));
  }

  /** Two operands that bind tightly enough, and an operator. */
  lemma BinIs(ar: Arithmetic, l: Written, op: Op, c: string, r: Written)
    requires WellFormed(ar, l) && WellFormed(ar, r) && c == [OpChar(op)]
    requires Level(l) >= Precedence(Operator(op)) && Level(r) > Precedence(Operator(op))
    ensures var t := Bin(l, "", op, r);
            && WellFormed(ar, t) && Text(t) == Text(l) + c + Text(r) && Level(t) == Precedence(Operator(op))
            && Meaning(ar, t) == Binary(op, Meaning(ar, l), Meaning(ar, r))
  {
    assert "" + c == c;
  }

  lemma PairIs(ar: Arithmetic, x: string, op: Op, c: string, y: string)
    requires Number(ar, x) && Number(ar, y) && c == [OpChar(op)]
    ensures var t := Bin(Lit("", x), "", op, Lit("", y));
            && WellFormed(ar, t) && Text(t) == x + c + y && Level(t) == Precedence(Operator(op))
            && Meaning(ar, t) == Binary(op, Tree(ar, x), Tree(ar, y))
  {
    LitIs(ar, "", x);
    LitIs(ar, "", y);
    BinIs(ar, Lit("", x), op, c, Lit("", y));
  }

  /** Two operators in a row, with a space around each. */
  function Chain(x: string, op1: Op, y: string, op2: Op, z: string): Written {
    Bin(Bin(Lit("", x), " ", op1, Lit(" ", y)), " ", op2, Lit(" ", z))
  }

  lemma ChainIs(ar: Arithmetic, x: string, op1: Op, s1: string, y: string, op2: Op, s2: string, z: string)
    requires Number(ar, x) && Number(ar, y) && Number(ar, z)
    requires s1 == " " + [OpChar(op1)] + " " && s2 == " " + [OpChar(op2)] + " "
    requires Precedence(Operator(op1)) >= Precedence(Operator(op2))
    ensures ParseOf(ar, x + s1 + y + s2 + z) == Ok(Binary(op2, Binary(op1, Tree(ar, x), Tree(ar, y)), Tree(ar, z)))
  {
    LitIs(ar, "", x);
    LitIs(ar, " ", y);
    LitIs(ar, " ", z);
    assert Text(Bin(Lit("", x), " ", op1, Lit(" ", y))) == x + (" " + [OpChar(op1)]) + (" " + y);
    ChainText(x, [OpChar(op1)], y, [OpChar(op2)], z);
    Parses(ar, Chain(x, op1, y, op2, z), x + s1 + y + s2 + z,
           Binary(op2, Binary(op1, Tree(ar, x), Tree(ar, y)), Tree(ar, z)));
  }

  lemma ChainText(x: string, c1: string, y: string, c2: string, z: string)
    ensures x + (" " + c1) + (" " + y) + (" " + c2) + (" " + z) == x + (" " + c1 + " ") + y + (" " + c2 + " ") + z
  {
  }

  /** Operators of one kind associate to the left. */
  lemma LeftAssociative(ar: Arithmetic, x: string, y: string, z: string)
    requires Number(ar, x) && Number(ar, y) && Number(ar, z)
    ensures ParseOf(ar, x + " - " + y + " - " + z) == Ok(Binary(Sub, Binary(Sub, Tree(ar, x), Tree(ar, y)), Tree(ar, z)))
    ensures ParseOf(ar, x + " / " + y + " / " + z) == Ok(Binary(Div, Binary(Div, Tree(ar, x), Tree(ar, y)), Tree(ar, z)))
    ensures ParseOf(ar, x + " * " + y + " - " + z) == Ok(Binary(Sub, Binary(Mul, Tree(ar, x), Tree(ar, y)), Tree(ar, z)))
  {
    ChainIs(ar, x, Sub, " - ", y, Sub, " - ", z);
    ChainIs(ar, x, Div, " / ", y, Div, " / ", z);
    ChainIs(ar, x, Mul, " * ", y, Sub, " - ", z);
  }

  /** Multiplication and division bind tighter than addition and subtraction. */
  lemma Tighter(ar: Arithmetic, x: string, y: string, z: string)
    requires Number(ar, x) && Number(ar, y) && Number(ar, z)
    ensures ParseOf(ar, x + "+" + y + "*" + z) == Ok(Binary(Add, Tree(ar, x), Binary(Mul, Tree(ar, y), Tree(ar, z))))
    ensures ParseOf(ar, x + "-" + y + "/" + z) == Ok(Binary(Sub, Tree(ar, x), Binary(Div, Tree(ar, y), Tree(ar, z))))
  {
    TighterIs(ar, x, Add, "+", y, Mul, "*", z);
    TighterIs(ar, x, Sub, "-", y, Div, "/", z);
  }

  lemma TighterIs(ar: Arithmetic, x: string, op1: Op, c1: string, y: string, op2: Op, c2: string, z: string)
    requires Number(ar, x) && Number(ar, y) && Number(ar, z) && c1 == [OpChar(op1)] && c2 == [OpChar(op2)]
    requires Precedence(Operator(op1)) < Precedence(Operator(op2))
    ensures ParseOf(ar, x + c1 + y + c2 + z) == Ok(Binary(op1, Tree(ar, x), Binary(op2, Tree(ar, y), Tree(ar, z))))
  {
    LitIs(ar, "", x);
    PairIs(ar, y, op2, c2, z);
    var r := Bin(Lit("", y), "", op2, Lit("", z));
    BinIs(ar, Lit("", x), op1, c1, r);
    Regroup(x, c1, y, c2, z);
    Parses(ar, Bin(Lit("", x), "", op1, r), x + c1 + y + c2 + z,
           Binary(op1, Tree(ar, x), Binary(op2, Tree(ar, y), Tree(ar, z))));
  }

  lemma Regroup(x: string, c1: string, y: string, c2: string, z: string)
    ensures x + c1 + (y + c2 + z) == x + c1 + y + c2 + z
  {
  }

  /** Parentheses come first. */
  lemma Parenthesised(ar: Arithmetic, x: string, y: string, z: string)
    requires Number(ar, x) && Number(ar, y) && Number(ar, z)
    ensures ParseOf(ar, "(" + x + "+" + y + ")*" + z) == Ok(Binary(Mul, Binary(Add, Tree(ar, x), Tree(ar, y)), Tree(ar, z)))
  {
    var sum := Bin(Lit("", x), "", Add, Lit("", y));
    SumIs(ar, x, y);
    LitIs(ar, "", z);
    var l := Paren("", sum, "");
    assert Text(l) == "" + ['('] + (x + "+" + y) + "" + [')'];
    assert Text(Bin(l, "", Mul, Lit("", z))) == "" + ['('] + (x + "+" + y) + "" + [')'] + ("" + ['*']) + z;
    assert "" + ['('] + (x + "+" + y) + "" + [')'] + ("" + ['*']) + z == "(" + x + "+" + y + ")*" + z;
    Parses(ar, Bin(l, "", Mul, Lit("", z)), "(" + x + "+" + y + ")*" + z,
           Binary(Mul, Binary(Add, Tree(ar, x), Tree(ar, y)), Tree(ar, z)));
  }

  lemma SumIs(ar: Arithmetic, x: string, y: string)
    requires Number(ar, x) && Number(ar, y)
    ensures var sum := Bin(Lit("", x), "", Add, Lit("", y));
            WellFormed(ar, sum) && Text(sum) == x + "+" + y && Meaning(ar, sum) == Binary(Add, Tree(ar, x), Tree(ar, y))
  {
    PairIs(ar, x, Add, "+", y);
  }

  /** A minus where an operand is expected subtracts what follows from zero, and binds tightest. */
  lemma Negations(ar: Arithmetic, x: string, y: string)
    requires Number(ar, x) && Number(ar, y)
    ensures ParseOf(ar, "-" + x + "+" + y) == Ok(Binary(Add, Binary(Sub, Leaf(ar.zero), Tree(ar, x)), Tree(ar, y)))
    ensures ParseOf(ar, x + "*-" + y) == Ok(Binary(Mul, Tree(ar, x), Binary(Sub, Leaf(ar.zero), Tree(ar, y))))
    ensures ParseOf(ar, "-(" + x + "+" + y + ")") == Ok(Binary(Sub, Leaf(ar.zero), Binary(Add, Tree(ar, x), Tree(ar, y))))
  {
    NegatedFirst(ar, x, y);
    NegatedSecond(ar, x, y);
    NegatedSum(ar, x, y);
  }

  lemma NegIs(ar: Arithmetic, x: string)
    requires Number(ar, x)
    ensures var t := Neg("", Lit("", x));
            WellFormed(ar, t) && Text(t) == "-" + x && Level(t) == 3
            && Meaning(ar, t) == Binary(Sub, Leaf(ar.zero), Tree(ar, x))
  {
    LitIs(ar, "", x);
  }

  lemma NegatedFirst(ar: Arithmetic, x: string, y: string)
    requires Number(ar, x) && Number(ar, y)
    ensures ParseOf(ar, "-" + x + "+" + y) == Ok(Binary(Add, Binary(Sub, Leaf(ar.zero), Tree(ar, x)), Tree(ar, y)))
  {
    NegIs(ar, x);
    LitIs(ar, "", y);
    var t := Bin(Neg("", Lit("", x)), "", Add, Lit("", y));
    assert Text(t) == "-" + x + "+" + y;
    Parses(ar, t, "-" + x + "+" + y, Binary(Add, Binary(Sub, Leaf(ar.zero), Tree(ar, x)), Tree(ar, y)));
  }

  lemma NegatedSecond(ar: Arithmetic, x: string, y: string)
    requires Number(ar, x) && Number(ar, y)
    ensures ParseOf(ar, x + "*-" + y) == Ok(Binary(Mul, Tree(ar, x), Binary(Sub, Leaf(ar.zero), Tree(ar, y))))
  {
    NegIs(ar, y);
    LitIs(ar, "", x);
    var t := Bin(Lit("", x), "", Mul, Neg("", Lit("", y)));
    assert Text(t) == x + ("" + ['*']) + ("-" + y);
    assert x + ("" + ['*']) + ("-" + y) == x + "*-" + y;
    Parses(ar, t, x + "*-" + y, Binary(Mul, Tree(ar, x), Binary(Sub, Leaf(ar.zero), Tree(ar, y))));
  }

  lemma NegatedSum(ar: Arithmetic, x: string, y: string)
    requires Number(ar, x) && Number(ar, y)
    ensures ParseOf(ar, "-(" + x + "+" + y + ")") == Ok(Binary(Sub, Leaf(ar.zero), Binary(Add, Tree(ar, x), Tree(ar, y))))
  {
    var sum := Bin(Lit("", x), "", Add, Lit("", y));
    SumIs(ar, x, y);
    var p := Paren("", sum, "");
    assert Text(p) == "" + ['('] + (x + "+" + y) + "" + [')'];
    assert Text(Neg("", p)) == "" + ['-'] + ("" + ['('] + (x + "+" + y) + "" + [')']);
    assert "" + ['-'] + ("" + ['('] + (x + "+" + y) + "" + [')']) == "-(" + x + "+" + y + ")";
    Parses(ar, Neg("", p), "-(" + x + "+" + y + ")", Binary(Sub, Leaf(ar.zero), Binary(Add, Tree(ar, x), Tree(ar, y))));
  }
}
