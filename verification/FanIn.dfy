/** The fan-in transaction: one result fills every waiting slot, unlocks exactly the tasks whose last
    dependency it was, and keeps the database consistent. */
module FanIn {
  import opened Values
  import opened Entities
  import opened Database
  import opened Consistency

  // ---- What a result does to each task -------------------------------------------------------

  function FilledBy(value: Option<Value>, id: Option<nat>, i: nat, v: Value): Option<Value> {
    if id == Some(i) then Some(v) else value
  }

  function SlotsFrom(t: Task, i: nat): nat {
    (if t.arg1TaskId == Some(i) then 1 else 0) + (if t.arg2TaskId == Some(i) then 1 else 0)
  }

  /** The row of task `j` after result `v` of task `i` has been applied. */
  function Advance(t: Task, j: nat, i: nat, v: Value): Task {
    if j == i then t.(status := Done, result := Some(v))
    else if t.status == Pending then
      var left := t.unmetDeps - SlotsFrom(t, i);
      t.(arg1Value := FilledBy(t.arg1Value, t.arg1TaskId, i, v),
         arg2Value := FilledBy(t.arg2Value, t.arg2TaskId, i, v),
         unmetDeps := left,
         status := if left == 0 then Ready else Pending)
    else t
  }

  function AdvanceAll(tasks: seq<Task>, i: nat, v: Value): seq<Task> {
    seq(|tasks|, j requires 0 <= j < |tasks| => Advance(tasks[j], j, i, v))
  }

  /** The result was the last thing task `j` waited for. */
  predicate Unlocked(tasks: seq<Task>, j: nat, i: nat)
    requires j < |tasks|
  {
    j != i && tasks[j].status == Pending && tasks[j].unmetDeps == SlotsFrom(tasks[j], i)
  }

  // ---- Unlocking -----------------------------------------------------------------------------

  /** Every row whose counter is zero carries both arguments. */
  predicate RowsComplete(ar: Arithmetic, deps: seq<DepRow>) {
    forall k :: 0 <= k < |deps| && deps[k].unmet == 0 ==>
      && deps[k].arg1.Some? && deps[k].arg2.Some?
      && (ar.encodable)(deps[k].arg1.value) && (ar.encodable)(deps[k].arg2.value)
  }

  function MessageOf(d: DepRow, exprId: nat): Payload
    requires d.arg1.Some? && d.arg2.Some?
  {
    TaskPayload(TaskMessage(d.id, exprId, d.op, d.arg1.value, d.arg2.value))
  }

  function ReadyRows(exprId: nat, deps: seq<DepRow>): seq<OutboxRow>
    decreases |deps|
  {
    if deps == [] then []
    else
      (if deps[0].unmet == 0 && deps[0].arg1.Some? && deps[0].arg2.Some?
       then [OutboxRow(MessageOf(deps[0], exprId), Unpublished)] else [])
      + ReadyRows(exprId, deps[1..])
  }

  function MarkAll(tasks: seq<Task>, deps: seq<DepRow>): seq<Task>
    decreases |deps|
  {
    if deps == [] then tasks
    else MarkAll(if deps[0].unmet == 0 then MarkTaskReady(tasks, deps[0].id) else tasks, deps[1..])
  }

  lemma RowsAssoc(a: seq<OutboxRow>, b: seq<OutboxRow>, c: seq<OutboxRow>)
    ensures a + b + c == a + (b + c)
  {
  }

  /** Unlocking complete rows cannot fail: the error for unresolved arguments is never met. */
  lemma {:induction false} UnlockComplete(ar: Arithmetic, db: Db, exprId: nat, deps: seq<DepRow>)
    requires RowsComplete(ar, deps)
    ensures Unlock(ar, db, exprId, deps)
            == Ok(Db(MarkAll(db.tasks, deps), db.expressions, db.outbox + ReadyRows(exprId, deps)))
    decreases |deps|
  {
    if deps == [] {
      assert db.outbox + [] == db.outbox;
    } else if deps[0].unmet != 0 {
      UnlockComplete(ar, db, exprId, deps[1..]);
      assert [] + ReadyRows(exprId, deps[1..]) == ReadyRows(exprId, deps[1..]);
    } else {
      var row := OutboxRow(MessageOf(deps[0], exprId), Unpublished);
      var db1 := db.(tasks := MarkTaskReady(db.tasks, deps[0].id), outbox := db.outbox + [row]);
      UnlockComplete(ar, db1, exprId, deps[1..]);
      RowsAssoc(db.outbox, [row], ReadyRows(exprId, deps[1..]));
    }
  }

  lemma {:induction false} ReadyRowsConcat(exprId: nat, a: seq<DepRow>, b: seq<DepRow>)
    ensures ReadyRows(exprId, a + b) == ReadyRows(exprId, a) + ReadyRows(exprId, b)
    decreases |a|
  {
    if a == [] {
      assert a + b == b;
    } else {
      assert (a + b)[1..] == a[1..] + b;
      ReadyRowsConcat(exprId, a[1..], b);
    }
  }

  lemma {:induction false} ReadyRowsFresh(exprId: nat, deps: seq<DepRow>)
    ensures forall k :: 0 <= k < |ReadyRows(exprId, deps)| ==> ReadyRows(exprId, deps)[k].state == Unpublished
    decreases |deps|
  {
    if deps != [] { ReadyRowsFresh(exprId, deps[1..]); }
  }

  /** Task `j` is named by a row whose counter is zero. */
  ghost predicate Named(deps: seq<DepRow>, j: nat) {
    exists k :: 0 <= k < |deps| && deps[k].id == j && deps[k].unmet == 0
  }

  lemma {:induction false} MarkAllAt(tasks: seq<Task>, deps: seq<DepRow>, j: nat)
    requires j < |tasks|
    ensures |MarkAll(tasks, deps)| == |tasks|
    ensures MarkAll(tasks, deps)[j] ==
            if Named(deps, j) && tasks[j].status == Pending then tasks[j].(status := Ready) else tasks[j]
    decreases |deps|
  {
    if deps != [] {
      var tasks1 := if deps[0].unmet == 0 then MarkTaskReady(tasks, deps[0].id) else tasks;
      MarkAllAt(tasks1, deps[1..], j);
      if Named(deps[1..], j) {
        var k :| 0 <= k < |deps[1..]| && deps[1..][k].id == j && deps[1..][k].unmet == 0;
        assert deps[k + 1].id == j && deps[k + 1].unmet == 0;
      }
      if Named(deps, j) && !(deps[0].id == j && deps[0].unmet == 0) {
        var k :| 0 <= k < |deps| && deps[k].id == j && deps[k].unmet == 0;
        assert deps[1..][k - 1] == deps[k];
      }
    }
  }

  // ---- The rows the two fills return ---------------------------------------------------------

  lemma {:induction false} FirstRowsAt(tasks: seq<Task>, filled: seq<Task>, i: nat, n: nat, k: nat)
    requires n <= |tasks| == |filled| && k < |FirstRows(tasks, filled, i, n)|
    ensures FirstRows(tasks, filled, i, n)[k].id < n
    ensures var j := FirstRows(tasks, filled, i, n)[k].id;
            WaitsFirst(tasks[j], i) && FirstRows(tasks, filled, i, n)[k] == RowOf(filled, j)
    decreases n
  {
    if k < |FirstRows(tasks, filled, i, n - 1)| { FirstRowsAt(tasks, filled, i, n - 1, k); }
  }

  lemma {:induction false} SecondRowsAt(tasks: seq<Task>, filled: seq<Task>, i: nat, n: nat, k: nat)
    requires n <= |tasks| == |filled| && k < |SecondRows(tasks, filled, i, n)|
    ensures SecondRows(tasks, filled, i, n)[k].id < n
    ensures var j := SecondRows(tasks, filled, i, n)[k].id;
            WaitsSecond(tasks[j], i) && SecondRows(tasks, filled, i, n)[k] == RowOf(filled, j)
    decreases n
  {
    if k < |SecondRows(tasks, filled, i, n - 1)| { SecondRowsAt(tasks, filled, i, n - 1, k); }
  }

  lemma {:induction false} FirstRowsHas(tasks: seq<Task>, filled: seq<Task>, i: nat, n: nat, j: nat) returns (k: nat)
    requires n <= |tasks| == |filled| && j < n && WaitsFirst(tasks[j], i)
    ensures k < |FirstRows(tasks, filled, i, n)| && FirstRows(tasks, filled, i, n)[k] == RowOf(filled, j)
    decreases n
  {
    if j == n - 1 {
      k := |FirstRows(tasks, filled, i, n - 1)|;
    } else {
      k := FirstRowsHas(tasks, filled, i, n - 1, j);
    }
  }

  lemma {:induction false} SecondRowsHas(tasks: seq<Task>, filled: seq<Task>, i: nat, n: nat, j: nat) returns (k: nat)
    requires n <= |tasks| == |filled| && j < n && WaitsSecond(tasks[j], i)
    ensures k < |SecondRows(tasks, filled, i, n)| && SecondRows(tasks, filled, i, n)[k] == RowOf(filled, j)
    decreases n
  {
    if j == n - 1 {
      k := |SecondRows(tasks, filled, i, n - 1)|;
    } else {
      k := SecondRowsHas(tasks, filled, i, n - 1, j);
    }
  }

  /** The row hands out exactly this payload. */
  predicate Hands(d: DepRow, exprId: nat, p: Payload) {
    d.unmet == 0 && d.arg1.Some? && d.arg2.Some? && p == MessageOf(d, exprId)
  }

  function HandCount(deps: seq<DepRow>, exprId: nat, p: Payload): nat {
    if deps == [] then 0
    else HandCount(deps[..|deps| - 1], exprId, p) + (if Hands(deps[|deps| - 1], exprId, p) then 1 else 0)
  }

  lemma HandSnoc(deps: seq<DepRow>, d: DepRow, exprId: nat, p: Payload)
    ensures HandCount(deps + [d], exprId, p) == HandCount(deps, exprId, p) + (if Hands(d, exprId, p) then 1 else 0)
  {
    assert (deps + [d])[..|deps|] == deps;
  }

  lemma OneRow(exprId: nat, d: DepRow, p: Payload)
    ensures Recorded(ReadyRows(exprId, [d]))[p] == (if Hands(d, exprId, p) then 1 else 0)
  {
    assert [d][1..] == [];
    if d.unmet == 0 && d.arg1.Some? && d.arg2.Some? {
      var row := OutboxRow(MessageOf(d, exprId), Unpublished);
      assert ReadyRows(exprId, [d]) == [row];
      RecordedOne(row);
    }
  }

  lemma {:induction false} HandCountIs(deps: seq<DepRow>, exprId: nat, p: Payload)
    ensures Recorded(ReadyRows(exprId, deps))[p] == HandCount(deps, exprId, p)
    decreases |deps|
  {
    if deps != [] {
      var front, d := deps[..|deps| - 1], deps[|deps| - 1];
      assert deps == front + [d];
      HandCountIs(front, exprId, p);
      ReadyRowsConcat(exprId, front, [d]);
      RecordedConcat(ReadyRows(exprId, front), ReadyRows(exprId, [d]));
      OneRow(exprId, d, p);
    }
  }

  predicate HandsFirst(tasks: seq<Task>, filled: seq<Task>, i: nat, n: nat, exprId: nat, p: Payload)
    requires n <= |tasks| == |filled|
  {
    && p.TaskPayload? && p.message.taskId < n && WaitsFirst(tasks[p.message.taskId], i)
    && Hands(RowOf(filled, p.message.taskId), exprId, p)
  }

  predicate HandsSecond(tasks: seq<Task>, filled: seq<Task>, i: nat, n: nat, exprId: nat, p: Payload)
    requires n <= |tasks| == |filled|
  {
    && p.TaskPayload? && p.message.taskId < n && WaitsSecond(tasks[p.message.taskId], i)
    && Hands(RowOf(filled, p.message.taskId), exprId, p)
  }

  lemma {:induction false} FirstCount(tasks: seq<Task>, filled: seq<Task>, i: nat, n: nat, exprId: nat, p: Payload)
    requires n <= |tasks| == |filled|
    ensures HandCount(FirstRows(tasks, filled, i, n), exprId, p)
            == (if HandsFirst(tasks, filled, i, n, exprId, p) then 1 else 0)
    decreases n
  {
    if n > 0 {
      FirstCount(tasks, filled, i, n - 1, exprId, p);
      var before := FirstRows(tasks, filled, i, n - 1);
      assert before + [] == before;
      HandSnoc(before, RowOf(filled, n - 1), exprId, p);
    }
  }

  lemma {:induction false} SecondCount(tasks: seq<Task>, filled: seq<Task>, i: nat, n: nat, exprId: nat, p: Payload)
    requires n <= |tasks| == |filled|
    ensures HandCount(SecondRows(tasks, filled, i, n), exprId, p)
            == (if HandsSecond(tasks, filled, i, n, exprId, p) then 1 else 0)
    decreases n
  {
    if n > 0 {
      SecondCount(tasks, filled, i, n - 1, exprId, p);
      var before := SecondRows(tasks, filled, i, n - 1);
      assert before + [] == before;
      HandSnoc(before, RowOf(filled, n - 1), exprId, p);
    }
  }

  // ---- The closed form of a result -----------------------------------------------------------

  /** A task whose result may come: enqueued, and not settled. */
  predicate Awaited(tasks: seq<Task>, i: nat) {
    i < |tasks| && (tasks[i].status == Ready || tasks[i].status == Running)
  }

  /** The intermediate tables of one fan-in. */
  datatype Fill = Fill(completed: seq<Task>, first: seq<Task>, second: seq<Task>)

  function FillOf(tasks: seq<Task>, i: nat, v: Value): Fill
    requires i < |tasks|
  {
    var completed := tasks[i := tasks[i].(status := Done, result := Some(v))];
    var first := FillFirst(completed, i, v);
    Fill(completed, first, FillSecond(first, i, v))
  }

  function DepsOf(f: Fill, i: nat): seq<DepRow>
    requires |f.completed| == |f.first| == |f.second|
  {
    FirstRows(f.completed, f.first, i, |f.completed|) + SecondRows(f.first, f.second, i, |f.first|)
  }

  /** A waiting task other than `i` and what the two fills make of it. */
  lemma FilledTask(ar: Arithmetic, tasks: seq<Task>, i: nat, v: Value, j: nat)
    requires TasksOk(ar, tasks) && Awaited(tasks, i) && j < |tasks|
    ensures var f := FillOf(tasks, i, v);
            && |f.completed| == |f.first| == |f.second| == |tasks|
            && (j != i && tasks[j].status == Pending ==>
                  f.second[j] == Advance(tasks[j], j, i, v).(status := Pending))
            && (j == i || tasks[j].status != Pending ==> f.second[j] == Advance(tasks[j], j, i, v))
            && (WaitsFirst(f.completed[j], i) && f.first[j].unmetDeps == 0 ==> !WaitsSecond(f.first[j], i) && f.second[j] == f.first[j])
            && (WaitsFirst(f.completed[j], i) || WaitsSecond(f.first[j], i) ==> j != i && tasks[j].status == Pending)
  {
    assert TaskOk(ar, tasks, j);
    assert TaskOk(ar, tasks, i);
  }

  /** An unlocked task has all its arguments. */
  lemma UnlockedComplete(ar: Arithmetic, tasks: seq<Task>, i: nat, v: Value, j: nat)
    requires TasksOk(ar, tasks) && Awaited(tasks, i) && (ar.encodable)(v)
    requires j < |tasks| && Unlocked(tasks, j, i)
    ensures var t := Advance(tasks[j], j, i, v);
            t.arg1Value.Some? && t.arg2Value.Some? && (ar.encodable)(t.arg1Value.value) && (ar.encodable)(t.arg2Value.value)
  {
    assert TaskOk(ar, tasks, j);
    if tasks[j].arg1TaskId.Some? { assert TaskOk(ar, tasks, tasks[j].arg1TaskId.value); }
    if tasks[j].arg2TaskId.Some? { assert TaskOk(ar, tasks, tasks[j].arg2TaskId.value); }
  }

  lemma DepsComplete(ar: Arithmetic, tasks: seq<Task>, i: nat, v: Value)
    requires TasksOk(ar, tasks) && Awaited(tasks, i) && (ar.encodable)(v)
    ensures RowsComplete(ar, DepsOf(FillOf(tasks, i, v), i))
  {
    var f := FillOf(tasks, i, v);
    var rows1 := FirstRows(f.completed, f.first, i, |f.completed|);
    var rows2 := SecondRows(f.first, f.second, i, |f.first|);
    var deps := DepsOf(f, i);
    forall k | 0 <= k < |deps| && deps[k].unmet == 0
      ensures && deps[k].arg1.Some? && deps[k].arg2.Some?
              && (ar.encodable)(deps[k].arg1.value) && (ar.encodable)(deps[k].arg2.value)
    {
      if k < |rows1| {
        FirstRowsAt(f.completed, f.first, i, |f.completed|, k);
      } else {
        SecondRowsAt(f.first, f.second, i, |f.first|, k - |rows1|);
      }
      var j := deps[k].id;
      FilledTask(ar, tasks, i, v, j);
      UnlockedComplete(ar, tasks, i, v, j);
    }
  }

  /** The rows whose counter is zero name exactly the unlocked tasks. */
  lemma DepsName(ar: Arithmetic, tasks: seq<Task>, i: nat, v: Value, j: nat)
    requires TasksOk(ar, tasks) && Awaited(tasks, i) && j < |tasks|
    ensures Named(DepsOf(FillOf(tasks, i, v), i), j) <==> Unlocked(tasks, j, i) && SlotsFrom(tasks[j], i) > 0
  {
    var f := FillOf(tasks, i, v);
    var rows1 := FirstRows(f.completed, f.first, i, |f.completed|);
    var rows2 := SecondRows(f.first, f.second, i, |f.first|);
    var deps := DepsOf(f, i);
    FilledTask(ar, tasks, i, v, j);
    if Named(deps, j) {
      var k :| 0 <= k < |deps| && deps[k].id == j && deps[k].unmet == 0;
      if k < |rows1| {
        FirstRowsAt(f.completed, f.first, i, |f.completed|, k);
      } else {
        SecondRowsAt(f.first, f.second, i, |f.first|, k - |rows1|);
      }
    }
    if Unlocked(tasks, j, i) && SlotsFrom(tasks[j], i) > 0 {
      if WaitsSecond(f.first[j], i) {
        var k := SecondRowsHas(f.first, f.second, i, |f.first|, j);
        assert deps[|rows1| + k].id == j;
      } else {
        var k := FirstRowsHas(f.completed, f.first, i, |f.completed|, j);
        assert deps[k].id == j;
      }
    }
  }

  /** After the transaction every task is as `Advance` says. */
  lemma TasksAfter(ar: Arithmetic, tasks: seq<Task>, i: nat, v: Value)
    requires TasksOk(ar, tasks) && Awaited(tasks, i)
    ensures MarkAll(FillOf(tasks, i, v).second, DepsOf(FillOf(tasks, i, v), i)) == AdvanceAll(tasks, i, v)
  {
    var f := FillOf(tasks, i, v);
    var marked := MarkAll(f.second, DepsOf(f, i));
    FilledTask(ar, tasks, i, v, i);
    MarkAllAt(f.second, DepsOf(f, i), i);
    forall j | 0 <= j < |tasks| ensures marked[j] == AdvanceAll(tasks, i, v)[j] {
      FilledTask(ar, tasks, i, v, j);
      DepsName(ar, tasks, i, v, j);
      MarkAllAt(f.second, DepsOf(f, i), j);
      assert TaskOk(ar, tasks, j);
    }
  }

  /** The transaction enqueues one message for each unlocked task and nothing else. */
  lemma RowsAfter(ar: Arithmetic, tasks: seq<Task>, i: nat, v: Value, p: Payload)
    requires TasksOk(ar, tasks) && Awaited(tasks, i) && (ar.encodable)(v)
    requires forall j :: 0 <= j < |tasks| && SlotsFrom(tasks[j], i) > 0 ==> tasks[j].expressionId == tasks[i].expressionId
    ensures Recorded(ReadyRows(tasks[i].expressionId, DepsOf(FillOf(tasks, i, v), i)))[p]
            == (if p.TaskPayload? && p.message.taskId < |tasks| && Unlocked(tasks, p.message.taskId, i)
                   && IsMessageOf(AdvanceAll(tasks, i, v), p.message) then 1 else 0)
  {
    var f, e := FillOf(tasks, i, v), tasks[i].expressionId;
    var rows1 := FirstRows(f.completed, f.first, i, |f.completed|);
    var rows2 := SecondRows(f.first, f.second, i, |f.first|);
    ReadyRowsConcat(e, rows1, rows2);
    RecordedConcat(ReadyRows(e, rows1), ReadyRows(e, rows2));
    HandCountIs(rows1, e, p);
    HandCountIs(rows2, e, p);
    FirstCount(f.completed, f.first, i, |f.completed|, e, p);
    SecondCount(f.first, f.second, i, |f.first|, e, p);
    if p.TaskPayload? && p.message.taskId < |tasks| {
      var j := p.message.taskId;
      FilledTask(ar, tasks, i, v, j);
      assert TaskOk(ar, tasks, j);
      HandsOne(ar, tasks, i, v, j, p);
    }
  }

  lemma HandsOne(ar: Arithmetic, tasks: seq<Task>, i: nat, v: Value, j: nat, p: Payload)
    requires TasksOk(ar, tasks) && Awaited(tasks, i) && (ar.encodable)(v)
    requires forall j :: 0 <= j < |tasks| && SlotsFrom(tasks[j], i) > 0 ==> tasks[j].expressionId == tasks[i].expressionId
    requires j < |tasks| && p.TaskPayload? && p.message.taskId == j
    ensures var f, e := FillOf(tasks, i, v), tasks[i].expressionId;
            && |f.completed| == |f.first| == |f.second| == |tasks|
            && !(HandsFirst(f.completed, f.first, i, |tasks|, e, p) && HandsSecond(f.first, f.second, i, |tasks|, e, p))
            && (HandsFirst(f.completed, f.first, i, |tasks|, e, p) || HandsSecond(f.first, f.second, i, |tasks|, e, p)
                <==> Unlocked(tasks, j, i) && IsMessageOf(AdvanceAll(tasks, i, v), p.message))
  {
    FilledTask(ar, tasks, i, v, j);
    assert TaskOk(ar, tasks, j);
    if Unlocked(tasks, j, i) { UnlockedComplete(ar, tasks, i, v, j); }
  }
}
