/** Numbers, operations and expression trees.

    The arithmetic is a parameter: every theorem of the project holds for any carrier and any
    four operations, so nothing depends on how floating point rounds. */
module Values {

  datatype Option<+T> = None | Some(value: T)

  /** The error classes of pkg/apperrors. */
  datatype Error =
    | InvalidInput | NotFound | Conflict | Unavailable
    | RateLimited | Overloaded | DivisionByZero | Internal

  /** Transient error classes: the ones the broker may retry. */
  predicate IsRetryable(e: Error) {
    e.Unavailable? || e.RateLimited? || e.Overloaded?
  }

  datatype Result<+T> = Ok(value: T) | Err(error: Error)

  /** A number. Only the operations of an Arithmetic look inside. */
  type Value(==, !new)

  datatype Op = Add | Sub | Mul | Div

  /** The operations of the host language on numbers.
      `encodable` tells whether a number survives JSON encoding (infinities and NaN do not);
      `parse` is the reading of a run of digits and dots. */
  datatype Arithmetic = Arithmetic(
    zero: Value,
    add: (Value, Value) -> Value,
    sub: (Value, Value) -> Value,
    mul: (Value, Value) -> Value,
    div: (Value, Value) -> Value,
    isZero: Value -> bool,
    encodable: Value -> bool,
    parse: string -> Option<Value>)
  {
    /** What number parsing guarantees: a literal is finite. */
    ghost predicate Valid() {
      && encodable(zero)
      && (forall s :: parse(s).Some? ==> encodable(parse(s).value))
    }
  }

  datatype Node = Leaf(value: Value) | Binary(op: Op, left: Node, right: Node)

  /** One task's computation, as an agent performs it. */
  function Compute(ar: Arithmetic, op: Op, a: Value, b: Value): Result<Value> {
    match op
    case Add => Ok((ar.add)(a, b))
    case Sub => Ok((ar.sub)(a, b))
    case Mul => Ok((ar.mul)(a, b))
    case Div => if (ar.isZero)(b) then Err(DivisionByZero) else Ok((ar.div)(a, b))
  }

  /** The reference meaning of a tree: recursive evaluation, strict in division by zero. */
  function Eval(ar: Arithmetic, n: Node): Result<Value> {
    match n
    case Leaf(v) => Ok(v)
    case Binary(op, l, r) =>
      match Eval(ar, l)
      case Err(e) => Err(e)
      case Ok(a) =>
        match Eval(ar, r)
        case Err(e) => Err(e)
        case Ok(b) => Compute(ar, op, a, b)
  }

  /** What a tree is worth, straight from the arithmetic: None where some divisor is zero. The whole system is
      measured against this. */
  function Worth(ar: Arithmetic, n: Node): Option<Value> {
    match n
    case Leaf(v) => Some(v)
    case Binary(op, l, r) =>
      var (x, y) := (Worth(ar, l), Worth(ar, r));
      if x == None || y == None then None
      else match op
        case Add => Some((ar.add)(x.value, y.value))
        case Sub => Some((ar.sub)(x.value, y.value))
        case Mul => Some((ar.mul)(x.value, y.value))
        case Div => if (ar.isZero)(y.value) then None else Some((ar.div)(x.value, y.value))
  }

  /** Evaluation by the agents' computation is worth the tree, and fails exactly where a divisor is zero. */
  lemma {:induction false} EvalIsWorth(ar: Arithmetic, n: Node)
    ensures Eval(ar, n) == match Worth(ar, n) case Some(v) => Ok(v) case None => Err(DivisionByZero)
  {
    if n.Binary? {
      EvalIsWorth(ar, n.left);
      EvalIsWorth(ar, n.right);
    }
  }

  /** The four operations, and the one way to fail. */
  lemma OperationsAre(ar: Arithmetic, a: Value, b: Value)
    ensures Compute(ar, Add, a, b) == Ok((ar.add)(a, b))
    ensures Compute(ar, Sub, a, b) == Ok((ar.sub)(a, b))
    ensures Compute(ar, Mul, a, b) == Ok((ar.mul)(a, b))
    ensures Compute(ar, Div, a, b).Ok? <==> !(ar.isZero)(b)
    ensures Compute(ar, Div, a, b).Ok? ==> Compute(ar, Div, a, b).value == (ar.div)(a, b)
    ensures Worth(ar, Binary(Sub, Leaf(a), Leaf(b))) == Some((ar.sub)(a, b))
  {
    assert Worth(ar, Leaf(a)) == Some(a) && Worth(ar, Leaf(b)) == Some(b);
  }

  /** The number of operations of a tree. */
  function Operations(n: Node): nat {
    match n
    case Leaf(_) => 0
    case Binary(_, l, r) => Operations(l) + Operations(r) + 1
  }

  /** Every literal of the tree can be put in a message. */
  predicate LiteralsEncodable(ar: Arithmetic, n: Node) {
    match n
    case Leaf(v) => (ar.encodable)(v)
    case Binary(_, l, r) => LiteralsEncodable(ar, l) && LiteralsEncodable(ar, r)
  }

  /** Evaluation fails in exactly one way. */
  lemma {:induction false} EvalFailsByDivision(ar: Arithmetic, n: Node)
    ensures Eval(ar, n).Err? ==> Eval(ar, n).error == DivisionByZero
  {
    if n.Binary? {
      EvalFailsByDivision(ar, n.left);
      EvalFailsByDivision(ar, n.right);
    }
  }
}
