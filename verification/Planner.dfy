/** From tree to task graph. */
module Planner {
  import opened Values
  import opened Entities

  const MAX_TASKS_PER_EXPRESSION := 256

  // ---- Specification ----------------------------------------------------------------------

  function LiteralOf(n: Node): Option<Value> {
    if n.Leaf? then Some(n.value) else None
  }

  function TaskIdOf(n: Node, last: int): Option<nat>
    requires n.Binary? ==> last >= 0
  {
    if n.Leaf? then None else Some(last)
  }

  function DepsOf(n: Node): nat {
    if n.Leaf? then 0 else 1
  }

  /** The task of one operation, the tasks of its operands ending before `leftEnd` and `rightEnd`. */
  function OperationTask(n: Node, exprId: nat, leftEnd: nat, rightEnd: nat): Task
    requires n.Binary? && (n.left.Binary? ==> leftEnd > 0) && (n.right.Binary? ==> rightEnd > 0)
  {
    Task(exprId, n.op, LiteralOf(n.left), TaskIdOf(n.left, leftEnd - 1),
         LiteralOf(n.right), TaskIdOf(n.right, rightEnd - 1),
         DepsOf(n.left) + DepsOf(n.right), Pending, None, false)
  }

  /** The tasks of a tree, to be stored from position `base` on: children before parents. */
  function Plan(n: Node, exprId: nat, base: nat): (tasks: seq<Task>)
    ensures |tasks| == Operations(n)
  {
    match n
    case Leaf(_) => []
    case Binary(op, l, r) =>
      var lefts := Plan(l, exprId, base);
      var rights := Plan(r, exprId, base + |lefts|);
      lefts + rights + [OperationTask(n, exprId, base + |lefts|, base + |lefts| + |rights|)]
  }

  function MarkRoot(tasks: seq<Task>): seq<Task>
    requires tasks != []
  {
    tasks[|tasks| - 1 := tasks[|tasks| - 1].(isRoot := true)]
  }

  /** What planning returns: the tasks, or the value of an expression that needs none. */
  datatype Planned = Tasks(tasks: seq<Task>) | Immediate(value: Value)

  function PlanOf(n: Node, exprId: nat, base: nat): Result<Planned> {
    if n.Leaf? then Ok(Immediate(n.value))
    else if Operations(n) > MAX_TASKS_PER_EXPRESSION then Err(InvalidInput)
    else Ok(Tasks(MarkRoot(Plan(n, exprId, base))))
  }

  // ---- The planner --------------------------------------------------------------------------

  class PlanBuilder {
    const exprId: nat
    const base: nat
    var tasks: seq<Task>

    constructor (exprId: nat, base: nat)
      ensures this.exprId == exprId && this.base == base && tasks == []
    {
      this.exprId := exprId;
      this.base := base;
      tasks := [];
    }

    /** One argument slot of an operation: a literal, or the last task of the operand's own plan. */
    method BuildSlot(n: Node, ghost at: nat) returns (r: Result<(Option<Value>, Option<nat>)>)
      requires |tasks| <= MAX_TASKS_PER_EXPRESSION && at == base + |tasks|
      modifies this
      ensures r.Ok? <==> |old(tasks)| + Operations(n) <= MAX_TASKS_PER_EXPRESSION
      ensures r.Ok? ==> tasks == old(tasks) + Plan(n, exprId, at)
      ensures r.Ok? ==> r.value == (LiteralOf(n), TaskIdOf(n, base + |tasks| - 1))
      ensures r.Err? ==> r.error == InvalidInput
      decreases n, 1
    {
      if n.Leaf? {
        assert tasks == tasks + Plan(n, exprId, at);
        return Ok((Some(n.value), None));
      }
      var child := Build(n, at);
      if child.Err? {
        return Err(child.error);
      }
      return Ok((None, Some(child.value)));
    }

    /** Appends the tasks of `n`, the first at position `at`; returns the identifier of the last one. */
    method Build(n: Node, ghost at: nat) returns (r: Result<nat>)
      requires n.Binary? && |tasks| <= MAX_TASKS_PER_EXPRESSION && at == base + |tasks|
      modifies this
      ensures r.Ok? <==> |old(tasks)| + Operations(n) <= MAX_TASKS_PER_EXPRESSION
      ensures r.Ok? ==> tasks == old(tasks) + Plan(n, exprId, at)
      ensures r.Ok? ==> r.value == base + |tasks| - 1
      ensures r.Err? ==> r.error == InvalidInput
      decreases n, 0
    {
      var left := BuildSlot(n.left, at);
      if left.Err? {
        return Err(left.error);
      }
      ghost var lefts, second := tasks, base + |tasks|;
      var right := BuildSlot(n.right, second);
      if right.Err? {
        return Err(right.error);
      }
      ghost var rights, end := tasks, base + |tasks|;
      var deps := (if left.value.1.Some? then 1 else 0) + (if right.value.1.Some? then 1 else 0);
      var t := Task(exprId, n.op, left.value.0, left.value.1, right.value.0, right.value.1,
                    deps, Pending, None, false);
      PlanAppends(old(tasks), n, exprId, at, second, end, lefts, rights, t);
      tasks := tasks + [t];
      if |tasks| > MAX_TASKS_PER_EXPRESSION {
        return Err(InvalidInput);
      }
      return Ok(base + |tasks| - 1);
    }
  }

  lemma ConcatAssoc(a: seq<Task>, b: seq<Task>, c: seq<Task>, d: seq<Task>)
    ensures a + b + c + d == a + (b + c + d)
  {
  }

  /** Appending the operands' tasks and then the operation's own is appending the plan. */
  lemma PlanAppends(start: seq<Task>, n: Node, exprId: nat, first: nat, second: nat, end: nat,
                    lefts: seq<Task>, rights: seq<Task>, t: Task)
    requires n.Binary?
    requires second == first + Operations(n.left) && end == second + Operations(n.right)
    requires lefts == start + Plan(n.left, exprId, first)
    requires rights == lefts + Plan(n.right, exprId, second)
    requires t == OperationTask(n, exprId, second, end)
    ensures rights + [t] == start + Plan(n, exprId, first)
  {
    ConcatAssoc(start, Plan(n.left, exprId, first), Plan(n.right, exprId, second), [t]);
  }

  method PlanExpression(n: Node, exprId: nat, base: nat) returns (r: Result<Planned>)
    ensures r == PlanOf(n, exprId, base)
  {
    if n.Leaf? {
      return Ok(Immediate(n.value));
    }
    var b := new PlanBuilder(exprId, base);
    var root := b.Build(n, base);
    if root.Err? {
      return Err(root.error);
    }
    assert b.tasks == Plan(n, exprId, base);
    var last := |b.tasks| - 1;
    return Ok(Tasks(b.tasks[last := b.tasks[last].(isRoot := true)]));
  }

  // ---- Structure of a plan --------------------------------------------------------------------

  /** A planned slot is a literal, or a task planned earlier, and never both. */
  predicate SlotPlanned(value: Option<Value>, id: Option<nat>, low: nat, high: nat) {
    match id
    case None => value.Some?
    case Some(c) => value == None && low <= c < high
  }

  predicate TaskPlanned(t: Task, exprId: nat, low: nat, high: nat) {
    && t.expressionId == exprId && t.status == Pending && t.result == None && !t.isRoot
    && SlotPlanned(t.arg1Value, t.arg1TaskId, low, high) && SlotPlanned(t.arg2Value, t.arg2TaskId, low, high)
    && t.unmetDeps == (if t.arg1TaskId.Some? then 1 else 0) + (if t.arg2TaskId.Some? then 1 else 0)
  }

  /** Children come before parents, every slot has exactly one source, and the counter counts the
      slots that wait. */
  lemma {:induction false} PlanStructure(n: Node, exprId: nat, base: nat, k: nat)
    requires k < Operations(n)
    ensures TaskPlanned(Plan(n, exprId, base)[k], exprId, base, base + k)
    decreases n
  {
    var lefts := Plan(n.left, exprId, base);
    var rights := Plan(n.right, exprId, base + |lefts|);
    if k < |lefts| {
      PlanStructure(n.left, exprId, base, k);
    } else if k < |lefts| + |rights| {
      PlanStructure(n.right, exprId, base + |lefts|, k - |lefts|);
    }
  }

  /** How many argument slots of the tasks wait for task `c`. */
  function References(tasks: seq<Task>, c: nat): nat {
    if tasks == [] then 0
    else
      var t := tasks[|tasks| - 1];
      References(tasks[..|tasks| - 1], c) + SlotsOn(t, c)
  }

  lemma {:induction false} ReferencesConcat(a: seq<Task>, b: seq<Task>, c: nat)
    ensures References(a + b, c) == References(a, c) + References(b, c)
    decreases |b|
  {
    if b == [] {
      assert a + b == a;
    } else {
      assert (a + b)[..|a + b| - 1] == a + b[..|b| - 1];
      ReferencesConcat(a, b[..|b| - 1], c);
    }
  }

  function SlotsOn(t: Task, c: nat): nat {
    (if t.arg1TaskId == Some(c) then 1 else 0) + (if t.arg2TaskId == Some(c) then 1 else 0)
  }

  lemma ReferencesParts(a: seq<Task>, b: seq<Task>, t: Task, c: nat)
    ensures References(a + b + [t], c) == References(a, c) + References(b, c) + SlotsOn(t, c)
  {
    ReferencesConcat(a, b, c);
    assert (a + b + [t])[..|a + b|] == a + b;
  }

  lemma PlanParts(n: Node, exprId: nat, base: nat, mid: nat, end: nat)
    requires n.Binary? && mid == base + Operations(n.left) && end == mid + Operations(n.right)
    ensures Plan(n, exprId, base)
            == Plan(n.left, exprId, base) + Plan(n.right, exprId, mid) + [OperationTask(n, exprId, mid, end)]
  {
  }

  lemma ReferencesOperation(n: Node, exprId: nat, base: nat, mid: nat, end: nat, c: nat)
    requires n.Binary? && mid == base + Operations(n.left) && end == mid + Operations(n.right)
    ensures References(Plan(n, exprId, base), c)
            == References(Plan(n.left, exprId, base), c) + References(Plan(n.right, exprId, mid), c)
               + SlotsOn(OperationTask(n, exprId, mid, end), c)
  {
    PlanParts(n, exprId, base, mid, end);
    ReferencesWhole(Plan(n, exprId, base), Plan(n.left, exprId, base), Plan(n.right, exprId, mid),
                    OperationTask(n, exprId, mid, end), c);
  }

  lemma ReferencesWhole(all: seq<Task>, a: seq<Task>, b: seq<Task>, t: Task, c: nat)
    requires all == a + b + [t]
    ensures References(all, c) == References(a, c) + References(b, c) + SlotsOn(t, c)
  {
    ReferencesParts(a, b, t, c);
  }

  /** The plan is a tree: every task but the last feeds exactly one slot, the last feeds none, and
      no slot reaches outside. */
  lemma {:induction false} PlanIsTree(n: Node, exprId: nat, base: nat, c: nat)
    ensures References(Plan(n, exprId, base), c) ==
            (if base <= c && c + 1 < base + Operations(n) then 1 else 0)
    decreases n
  {
    if n.Binary? {
      var mid := base + Operations(n.left);
      ReferencesOperation(n, exprId, base, mid, mid + Operations(n.right), c);
      PlanIsTree(n.left, exprId, base, c);
      PlanIsTree(n.right, exprId, mid, c);
    }
  }

  /** A task that is referenced has a later task referring to it. */
  lemma {:induction false} ReferencedBy(tasks: seq<Task>, c: nat) returns (p: nat)
    requires References(tasks, c) > 0
    ensures p < |tasks| && (tasks[p].arg1TaskId == Some(c) || tasks[p].arg2TaskId == Some(c))
    decreases |tasks|
  {
    p := |tasks| - 1;
    if tasks[p].arg1TaskId != Some(c) && tasks[p].arg2TaskId != Some(c) {
      p := ReferencedBy(tasks[..p], c);
    }
  }

  // ---- Meaning of a plan ----------------------------------------------------------------------

  lemma PlanLinked(tasks: seq<Task>, n: Node, exprId: nat)
    requires Linked(tasks)
    ensures Linked(tasks + Plan(n, exprId, |tasks|))
  {
    var plan := Plan(n, exprId, |tasks|);
    var all := tasks + plan;
    forall i | 0 <= i < |all| ensures TaskLinked(all, i) {
      if i < |tasks| {
        assert TaskLinked(tasks, i);
      } else {
        PlanStructure(n, exprId, |tasks|, i - |tasks|);
      }
    }
  }

  /** Adding tasks at the end changes the meaning of none before. */
  lemma DenoteExtends(tasks: seq<Task>, more: seq<Task>, i: nat)
    requires Linked(tasks) && Linked(tasks + more) && i < |tasks|
    ensures Denote(tasks + more, i) == Denote(tasks, i)
  {
    DenoteShape(tasks, tasks + more, i);
  }

  /** The meaning of an operation appended behind the tasks of its operands. */
  lemma DenoteOperation(tasks: seq<Task>, n: Node, exprId: nat, leftEnd: nat, rightEnd: nat)
    requires n.Binary? && leftEnd <= rightEnd == |tasks|
    requires n.left.Binary? ==> leftEnd > 0
    requires n.right.Binary? ==> rightEnd > 0
    requires Linked(tasks)
    requires n.left.Binary? ==> Denote(tasks, leftEnd - 1) == n.left
    requires n.right.Binary? ==> Denote(tasks, rightEnd - 1) == n.right
    ensures
      var all := tasks + [OperationTask(n, exprId, leftEnd, rightEnd)];
      Linked(all) && Denote(all, |tasks|) == n
  {
    var t := OperationTask(n, exprId, leftEnd, rightEnd);
    var all := tasks + [t];
    forall i | 0 <= i < |all| ensures TaskLinked(all, i) {
      if i < |tasks| { assert TaskLinked(tasks, i); }
    }
    if n.left.Binary? { DenoteExtends(tasks, [t], leftEnd - 1); }
    if n.right.Binary? { DenoteExtends(tasks, [t], rightEnd - 1); }
  }

  /** Planning preserves meaning: stored behind any table, the last task of the plan stands for
      the planned tree. */
  lemma {:induction false} PlanDenotes(tasks: seq<Task>, n: Node, exprId: nat, all: seq<Task>)
    requires Linked(tasks) && n.Binary?
    requires all == tasks + Plan(n, exprId, |tasks|)
    ensures Linked(all) && Denote(all, |all| - 1) == n
    decreases n
  {
    var tasks1 := tasks + Plan(n.left, exprId, |tasks|);
    var tasks2 := tasks1 + Plan(n.right, exprId, |tasks1|);
    var t := OperationTask(n, exprId, |tasks1|, |tasks2|);
    PlanAppends(tasks, n, exprId, |tasks|, |tasks1|, |tasks2|, tasks1, tasks2, t);
    PlanLinked(tasks, n.left, exprId);
    PlanLinked(tasks1, n.right, exprId);
    if n.left.Binary? {
      PlanDenotes(tasks, n.left, exprId, tasks1);
      DenoteExtends(tasks1, Plan(n.right, exprId, |tasks1|), |tasks1| - 1);
    }
    if n.right.Binary? {
      PlanDenotes(tasks1, n.right, exprId, tasks2);
    }
    DenoteOperation(tasks2, n, exprId, |tasks1|, |tasks2|);
  }
}
