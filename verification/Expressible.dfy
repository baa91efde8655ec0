/** Which expressions the pipeline can bring to an end. A result travels in a message, so a value that no
    message can carry stops the tasks above it; the condition below is about the tree alone. */
module Expressible {
  import opened Values
  import opened Entities
  import opened ShuntingYard
  import opened Consistency
  import opened Pipeline
  import opened Invariant
  import opened Outcome
  import opened Infix
  import opened Lexer
  import opened Validator

  /** The value of a tree all of whose intermediate values can be encoded. */
  function Expressed(ar: Arithmetic, n: Node): Option<Value> {
    match n
    case Leaf(v) => Some(v)
    case Binary(op, l, r) =>
      var (a, b) := (Expressed(ar, l), Expressed(ar, r));
      if a == None || b == None then None
      else match Compute(ar, op, a.value, b.value)
        case Err(_) => None
        case Ok(v) => if (ar.encodable)(v) then Some(v) else None
  }

  /** Somewhere in the tree two expressed operands meet in a division by zero. */
  predicate Divides(ar: Arithmetic, n: Node) {
    match n
    case Leaf(_) => false
    case Binary(op, l, r) =>
      || Divides(ar, l) || Divides(ar, r)
      || (var (a, b) := (Expressed(ar, l), Expressed(ar, r));
          a.Some? && b.Some? && Compute(ar, op, a.value, b.value).Err?)
  }

  /** Both agree with recursive evaluation, and so exclude each other. */
  lemma {:induction false} ExpressedEval(ar: Arithmetic, n: Node)
    ensures Expressed(ar, n).Some? ==> Eval(ar, n) == Ok(Expressed(ar, n).value)
    ensures Divides(ar, n) ==> Eval(ar, n) == Err(DivisionByZero)
  {
    if n.Binary? {
      ExpressedEval(ar, n.left);
      ExpressedEval(ar, n.right);
      EvalFailsByDivision(ar, n);
    }
  }

  /** Somewhere in the tree two expressed operands give a value that cannot be encoded. */
  predicate Overflows(ar: Arithmetic, n: Node) {
    match n
    case Leaf(_) => false
    case Binary(op, l, r) =>
      || Overflows(ar, l) || Overflows(ar, r)
      || (var (a, b) := (Expressed(ar, l), Expressed(ar, r));
          a.Some? && b.Some? && Compute(ar, op, a.value, b.value).Ok?
          && !(ar.encodable)(Compute(ar, op, a.value, b.value).value))
  }

  /** These are the only two obstacles. */
  lemma {:induction false} UnexpressedMeans(ar: Arithmetic, n: Node)
    ensures Expressed(ar, n) == None <==> Divides(ar, n) || Overflows(ar, n)
  {
    if n.Binary? {
      UnexpressedMeans(ar, n.left);
      UnexpressedMeans(ar, n.right);
    }
  }

  // ---- Tasks ---------------------------------------------------------------------------------

  /** The tree behind an argument slot. */
  function SlotTree(tasks: seq<Task>, id: Option<nat>, value: Option<Value>, i: nat): Node
    requires Linked(tasks) && i < |tasks| && SlotLinked(id, value, i)
  {
    match id
    case None => Leaf(value.value)
    case Some(c) => Denote(tasks, c)
  }

  lemma DenoteSlots(tasks: seq<Task>, i: nat)
    requires Linked(tasks) && i < |tasks|
    ensures TaskLinked(tasks, i)
    ensures Denote(tasks, i) == Binary(tasks[i].op, SlotTree(tasks, tasks[i].arg1TaskId, tasks[i].arg1Value, i),
                                       SlotTree(tasks, tasks[i].arg2TaskId, tasks[i].arg2Value, i))
  {
    assert TaskLinked(tasks, i);
  }

  /** A done task holds the expressed value of its tree; a failed task's tree divides by zero. */
  lemma {:induction false} TaskExpresses(ar: Arithmetic, tasks: seq<Task>, i: nat)
    requires TasksOk(ar, tasks) && Linked(tasks) && i < |tasks|
    ensures tasks[i].status == Done ==> Expressed(ar, Denote(tasks, i)) == tasks[i].result
    ensures tasks[i].status == Failed ==> Divides(ar, Denote(tasks, i))
    decreases i, 1
  {
    var t := tasks[i];
    DenoteSlots(tasks, i);
    assert TaskOk(ar, tasks, i);
    SlotExpresses(ar, tasks, i, t.arg1TaskId, t.arg1Value);
    SlotExpresses(ar, tasks, i, t.arg2TaskId, t.arg2Value);
  }

  /** So a slot that has its value has the expressed value of the tree behind it. */
  lemma {:induction false} SlotExpresses(ar: Arithmetic, tasks: seq<Task>, i: nat, id: Option<nat>, value: Option<Value>)
    requires TasksOk(ar, tasks) && Linked(tasks) && i < |tasks| && SlotLinked(id, value, i)
    requires SlotOk(tasks, tasks[i].expressionId, i, id, value)
    ensures value.Some? ==> Expressed(ar, SlotTree(tasks, id, value, i)) == value
    decreases i, 0
  {
    if id.Some? {
      TaskExpresses(ar, tasks, id.value);
      assert TaskOk(ar, tasks, id.value);
    }
  }

  /** A division by zero below a task is one in the tree of its root. */
  lemma {:induction false} DividesRises(ar: Arithmetic, tasks: seq<Task>, c: nat, r: nat)
    requires TasksOk(ar, tasks) && OneRoot(tasks) && Linked(tasks)
    requires c < |tasks| && IsRootOf(tasks, tasks[c].expressionId, r)
    requires Divides(ar, Denote(tasks, c))
    ensures Divides(ar, Denote(tasks, r))
    decreases |tasks| - c
  {
    if c != r {
      assert !tasks[c].isRoot;
      assert TaskOk(ar, tasks, c);
      var p :| c < p < |tasks| && Refers(tasks[p], c);
      assert TaskOk(ar, tasks, p);
      DenoteSlots(tasks, p);
      DividesRises(ar, tasks, p, r);
    }
  }

  // ---- Expressions ---------------------------------------------------------------------------

  /** In every reachable state: an expression is done only with the expressed value of its tree, and
      failed only if its tree divides by zero. So no other expression ever finishes. */
  lemma FinishedOnlyIf(ar: Arithmetic, s: System, e: nat)
    requires Inv(ar, s) && e < |s.db.expressions|
    ensures ParseOf(ar, s.db.expressions[e].raw).Ok?
    ensures var x, ast := s.db.expressions[e], ParseOf(ar, s.db.expressions[e].raw).value;
            && (x.status == ExprDone ==> x.result.Some? && Expressed(ar, ast) == x.result)
            && (x.status == ExprFailed ==> Divides(ar, ast))
  {
    var tasks, x := s.db.tasks, s.db.expressions[e];
    assert ExpressionOk(ar, tasks, s.db.expressions, e);
    var ast := ParseOf(ar, x.raw).value;
    if ast.Binary? {
      var r: nat :| IsRootOf(tasks, e, r) && Denote(tasks, r) == ast && StatusOk(tasks, e, x, r);
      TaskExpresses(ar, tasks, r);
      assert TaskOk(ar, tasks, r);
      if x.status == ExprFailed {
        var i :| 0 <= i < |tasks| && Belongs(tasks[i], e) && tasks[i].status == Failed;
        TaskExpresses(ar, tasks, i);
        DividesRises(ar, tasks, i, r);
      }
    }
  }

  /** The expression can be brought to an end. */
  predicate Settleable(ar: Arithmetic, ast: Node) {
    Expressed(ar, ast).Some? || Divides(ar, ast)
  }

  /** Only an overflow can keep an expression from its end, and only if nothing in it divides by zero. */
  lemma SettleableMeans(ar: Arithmetic, ast: Node)
    ensures Settleable(ar, ast) <==> Divides(ar, ast) || !Overflows(ar, ast)
  {
    UnexpressedMeans(ar, ast);
  }

  lemma ReachableFinishedOnlyIf(ar: Arithmetic, s: System, e: nat)
    requires ar.Valid() && Reachable(ar, s) && e < |s.db.expressions| && Finished(s.db.expressions[e])
    ensures ParseOf(ar, s.db.expressions[e].raw).Ok? && Settleable(ar, ParseOf(ar, s.db.expressions[e].raw).value)
  {
    ReachableInv(ar, s);
    FinishedOnlyIf(ar, s, e);
  }

  // ---- An input that never finishes ----------------------------------------------------------

  lemma {:induction false} TrimLeftShrinks(s: string)
    ensures |TrimLeft(s)| <= |s|
    decreases |s|
  {
    if s != [] && IsSpace(s[0]) { TrimLeftShrinks(s[1..]); }
  }

  lemma {:induction false} TrimRightShrinks(s: string)
    ensures |TrimRight(s)| <= |s|
    decreases |s|
  {
    if s != [] && IsSpace(s[|s| - 1]) { TrimRightShrinks(s[..|s| - 1]); }
  }

  /** The product of two literals. */
  function Product(x: string, y: string): Written {
    Bin(Num("", x), "", Mul, Num("", y))
  }

  lemma LiteralWritten(ar: Arithmetic, x: string)
    requires IsLiteral(ar, x)
    ensures var n := Num("", x);
            WellFormed(ar, n) && Text(n) == x && Nesting(n) == 0 && Level(n) == 4
            && Meaning(ar, n) == Leaf((ar.parse)(x).value)
  {
  }

  lemma ProductWritten(ar: Arithmetic, x: string, y: string)
    requires IsLiteral(ar, x) && IsLiteral(ar, y)
    ensures var t := Product(x, y);
            WellFormed(ar, t) && Text(t) == x + "*" + y && Nesting(t) == 0
            && Meaning(ar, t) == Binary(Mul, Leaf((ar.parse)(x).value), Leaf((ar.parse)(y).value))
  {
    LiteralWritten(ar, x);
    LiteralWritten(ar, y);
  }

  lemma ProductExpressed(ar: Arithmetic, a: Value, b: Value)
    requires !(ar.encodable)((ar.mul)(a, b))
    ensures !Settleable(ar, Binary(Mul, Leaf(a), Leaf(b)))
  {
    assert Expressed(ar, Leaf(a)) == Some(a) && Expressed(ar, Leaf(b)) == Some(b);
    assert !Divides(ar, Leaf(a)) && !Divides(ar, Leaf(b));
    assert Compute(ar, Mul, a, b) == Ok((ar.mul)(a, b));
    SettleableMeans(ar, Binary(Mul, Leaf(a), Leaf(b)));
  }

  /** Two literals whose product cannot be encoded, as a 300-digit and a 200-digit number in 64-bit floating
      point: the text passes validation and parses, but it is neither expressible nor a division by zero. */
  lemma OverflowAccepted(ar: Arithmetic, x: string, y: string)
    requires IsLiteral(ar, x) && IsLiteral(ar, y) && |x| + |y| < MAX_EXPRESSION_LENGTH
    requires !(ar.encodable)((ar.mul)((ar.parse)(x).value, (ar.parse)(y).value))
    ensures Accepts(x + "*" + y)
    ensures ParseOf(ar, x + "*" + y) == Ok(Binary(Mul, Leaf((ar.parse)(x).value), Leaf((ar.parse)(y).value)))
    ensures !Settleable(ar, ParseOf(ar, x + "*" + y).value)
  {
    var t, text := Product(x, y), x + "*" + y;
    ProductWritten(ar, x, y);
    assert "" + text + "" == text;
    ParseWritten(ar, "", t, "");
    TrimLeftShrinks(text);
    TrimRightShrinks(TrimLeft(text));
    WrittenAccepted(ar, "", t, "");
    ProductExpressed(ar, (ar.parse)(x).value, (ar.parse)(y).value);
  }

  /** Such an expression is finished in no reachable state. */
  lemma OverflowNeverFinishes(ar: Arithmetic, s: System, e: nat, x: string, y: string)
    requires ar.Valid() && Reachable(ar, s) && e < |s.db.expressions| && s.db.expressions[e].raw == x + "*" + y
    requires IsLiteral(ar, x) && IsLiteral(ar, y) && |x| + |y| < MAX_EXPRESSION_LENGTH
    requires !(ar.encodable)((ar.mul)((ar.parse)(x).value, (ar.parse)(y).value))
    ensures !Finished(s.db.expressions[e])
  {
    OverflowAccepted(ar, x, y);
    if Finished(s.db.expressions[e]) { ReachableFinishedOnlyIf(ar, s, e); }
  }
}
