/** The main database: its statements, and the transactions of the repository over them. */
module Database {
  import opened Values
  import opened Entities
  import opened Broker

  datatype Db = Db(tasks: seq<Task>, expressions: seq<Expression>, outbox: seq<OutboxRow>)

  const EMPTY := Db([], [], [])

  // ---- Statements on tasks -------------------------------------------------------------------

  predicate Settled(t: Task) {
    t.status == Done || t.status == Failed
  }

  /** UPDATE ... WHERE id = $1 AND status NOT IN ('done', 'failed'); None when no row matches. */
  function CompleteTask(tasks: seq<Task>, id: nat, v: Value): Option<seq<Task>> {
    if id < |tasks| && !Settled(tasks[id])
    then Some(tasks[id := tasks[id].(status := Done, result := Some(v))])
    else None
  }

  function FailTask(tasks: seq<Task>, id: nat): Option<seq<Task>> {
    if id < |tasks| && !Settled(tasks[id])
    then Some(tasks[id := tasks[id].(status := Failed)])
    else None
  }

  predicate WaitsFirst(t: Task, id: nat) {
    t.arg1TaskId == Some(id) && t.status == Pending
  }

  predicate WaitsSecond(t: Task, id: nat) {
    t.arg2TaskId == Some(id) && t.status == Pending
  }

  function FillFirst(tasks: seq<Task>, id: nat, v: Value): seq<Task> {
    seq(|tasks|, i requires 0 <= i < |tasks| =>
      if WaitsFirst(tasks[i], id)
      then tasks[i].(arg1Value := Some(v), unmetDeps := tasks[i].unmetDeps - 1)
      else tasks[i])
  }

  function FillSecond(tasks: seq<Task>, id: nat, v: Value): seq<Task> {
    seq(|tasks|, i requires 0 <= i < |tasks| =>
      if WaitsSecond(tasks[i], id)
      then tasks[i].(arg2Value := Some(v), unmetDeps := tasks[i].unmetDeps - 1)
      else tasks[i])
  }

  /** A row returned by a fill, as it was when the statement ran. */
  datatype DepRow = DepRow(id: nat, op: Op, arg1: Option<Value>, arg2: Option<Value>, unmet: int)

  function RowOf(tasks: seq<Task>, i: nat): DepRow
    requires i < |tasks|
  {
    DepRow(i, tasks[i].op, tasks[i].arg1Value, tasks[i].arg2Value, tasks[i].unmetDeps)
  }

  /** The rows a fill of the first argument returns: the waiting tasks among the first `n`, as they
      are in `filled`. */
  function FirstRows(tasks: seq<Task>, filled: seq<Task>, id: nat, n: nat): seq<DepRow>
    requires n <= |tasks| == |filled|
  {
    if n == 0 then []
    else FirstRows(tasks, filled, id, n - 1) + (if WaitsFirst(tasks[n - 1], id) then [RowOf(filled, n - 1)] else [])
  }

  function SecondRows(tasks: seq<Task>, filled: seq<Task>, id: nat, n: nat): seq<DepRow>
    requires n <= |tasks| == |filled|
  {
    if n == 0 then []
    else SecondRows(tasks, filled, id, n - 1) + (if WaitsSecond(tasks[n - 1], id) then [RowOf(filled, n - 1)] else [])
  }

  function MarkTaskReady(tasks: seq<Task>, id: nat): seq<Task> {
    if id < |tasks| && tasks[id].status == Pending then tasks[id := tasks[id].(status := Ready)] else tasks
  }

  function MarkTaskRunning(tasks: seq<Task>, id: nat): seq<Task> {
    if id < |tasks| && (tasks[id].status == Ready || tasks[id].status == Running)
    then tasks[id := tasks[id].(status := Running)] else tasks
  }

  // ---- Statements on expressions -------------------------------------------------------------

  predicate Unfinished(x: Expression) {
    x.status == ExprPending || x.status == ExprInProgress
  }

  function MarkInProgress(xs: seq<Expression>, id: nat): seq<Expression> {
    if id < |xs| && xs[id].status == ExprPending then xs[id := xs[id].(status := ExprInProgress)] else xs
  }

  function FinalizeDone(xs: seq<Expression>, id: nat, v: Value): seq<Expression> {
    if id < |xs| && Unfinished(xs[id]) then xs[id := xs[id].(status := ExprDone, result := Some(v))] else xs
  }

  function FinalizeFailed(xs: seq<Expression>, id: nat): seq<Expression> {
    if id < |xs| && Unfinished(xs[id]) then xs[id := xs[id].(status := ExprFailed)] else xs
  }

  // ---- The outbox ----------------------------------------------------------------------------

  function AuditRows(audits: seq<Audit>): (rows: seq<OutboxRow>)
    ensures |rows| == |audits|
  {
    if audits == [] then [] else AuditRows(audits[..|audits| - 1]) + [OutboxRow(AuditPayload(audits[|audits| - 1]), Unpublished)]
  }

  lemma {:induction false} AuditRowsAre(audits: seq<Audit>)
    ensures forall k :: 0 <= k < |audits| ==> AuditRows(audits)[k] == OutboxRow(AuditPayload(audits[k]), Unpublished)
    decreases |audits|
  {
    if audits != [] {
      var n := |audits| - 1;
      AuditRowsAre(audits[..n]);
      assert forall k :: 0 <= k < n ==> audits[..n][k] == audits[k];
    }
  }

  /** The outbox row of a task; an error when an argument is missing or cannot be encoded. */
  function TaskRow(ar: Arithmetic, id: nat, exprId: nat, op: Op, arg1: Option<Value>, arg2: Option<Value>): Result<OutboxRow> {
    if arg1 == None || arg2 == None then Err(Internal)
    else if !(ar.encodable)(arg1.value) || !(ar.encodable)(arg2.value) then Err(Internal)
    else Ok(OutboxRow(TaskPayload(TaskMessage(id, exprId, op, arg1.value, arg2.value)), Unpublished))
  }

  // ---- Transactions --------------------------------------------------------------------------

  /** Enqueues and marks the tasks whose last dependency just resolved. */
  function Unlock(ar: Arithmetic, db: Db, exprId: nat, deps: seq<DepRow>): Result<Db>
    decreases |deps|
  {
    if deps == [] then Ok(db)
    else if deps[0].unmet != 0 then Unlock(ar, db, exprId, deps[1..])
    else
      var d := deps[0];
      match TaskRow(ar, d.id, exprId, d.op, d.arg1, d.arg2)
      case Err(e) => Err(e)
      case Ok(row) =>
        Unlock(ar, db.(tasks := MarkTaskReady(db.tasks, d.id), outbox := db.outbox + [row]), exprId, deps[1..])
  }

  /** The fan-in transaction. */
  function ApplyResult(ar: Arithmetic, db: Db, taskId: nat, exprId: nat, v: Value): Result<Db> {
    match CompleteTask(db.tasks, taskId, v)
    case None => Ok(db)
    case Some(completed) =>
      var first := FillFirst(completed, taskId, v);
      var second := FillSecond(first, taskId, v);
      var deps := FirstRows(completed, first, taskId, |completed|) + SecondRows(first, second, taskId, |first|);
      match Unlock(ar, Db(second, MarkInProgress(db.expressions, exprId), db.outbox), exprId, deps)
      case Err(e) => Err(e)
      case Ok(db') =>
        if db.tasks[taskId].isRoot then
          Ok(Db(db'.tasks, FinalizeDone(db'.expressions, exprId, v),
                db'.outbox + AuditRows([TaskDoneAudit(taskId), ExpressionDoneAudit(exprId)])))
        else
          Ok(db'.(outbox := db'.outbox + AuditRows([TaskDoneAudit(taskId)])))
  }

  function ApplyFailure(db: Db, taskId: nat, exprId: nat): Db {
    match FailTask(db.tasks, taskId)
    case None => db
    case Some(failed) =>
      Db(failed, FinalizeFailed(db.expressions, exprId),
         db.outbox + AuditRows([TaskFailedAudit(taskId), ExpressionFailedAudit(exprId)]))
  }

  function ApplyStarted(db: Db, taskId: nat): Db {
    db.(tasks := MarkTaskRunning(db.tasks, taskId))
  }

  /** One agent message applied. */
  function HandleResult(ar: Arithmetic, db: Db, m: ResultMessage): Result<Db> {
    match m
    case Started(taskId, _) => Ok(ApplyStarted(db, taskId))
    case Broken(taskId, exprId) => Ok(ApplyFailure(db, taskId, exprId))
    case Computed(taskId, exprId, v) => ApplyResult(ar, db, taskId, exprId, v)
  }

  /** Enqueues and marks the tasks of a new expression that need no other: those among the tasks
      from position `i` on. */
  function EnqueueReady(ar: Arithmetic, db: Db, exprId: nat, i: nat): Result<Db>
    requires i <= |db.tasks|
    decreases |db.tasks| - i
  {
    if i == |db.tasks| then Ok(db)
    else if db.tasks[i].unmetDeps != 0 then EnqueueReady(ar, db, exprId, i + 1)
    else
      var t := db.tasks[i];
      match TaskRow(ar, i, exprId, t.op, t.arg1Value, t.arg2Value)
      case Err(e) => Err(e)
      case Ok(row) =>
        EnqueueReady(ar, db.(tasks := MarkTaskReady(db.tasks, i), outbox := db.outbox + [row]), exprId, i + 1)
  }

  function CreateExpression(ar: Arithmetic, db: Db, raw: string, tasks: seq<Task>): Result<Db> {
    var exprId := |db.expressions|;
    var inserted := Db(db.tasks + tasks, db.expressions + [Expression(raw, ExprPending, None)], db.outbox);
    match EnqueueReady(ar, inserted, exprId, |db.tasks|)
    case Err(e) => Err(e)
    case Ok(db') => Ok(db'.(outbox := db'.outbox + AuditRows([ExpressionSubmitted(exprId)])))
  }

  function FinalizeImmediate(db: Db, raw: string, v: Value): Db {
    var exprId := |db.expressions|;
    Db(db.tasks, FinalizeDone(db.expressions + [Expression(raw, ExprPending, None)], exprId, v),
       db.outbox + AuditRows([ExpressionSubmitted(exprId), ExpressionDoneAudit(exprId)]))
  }

  // ---- The relay -------------------------------------------------------------------------------

  /** How many rows a relay claims at most. */
  function BatchSize(limit: nat): nat {
    if limit < 4096 then limit else 4096
  }

  /** The rows a relay claims: the first `limit` unpublished rows from `i` on that no other relay
      has locked. */
  function Claimed(outbox: seq<OutboxRow>, locked: set<nat>, limit: nat, i: nat): (ids: seq<nat>)
    requires i <= |outbox|
    ensures |ids| <= limit
    ensures forall k :: 0 <= k < |ids| ==>
              i <= ids[k] < |outbox| && outbox[ids[k]].state == Unpublished && ids[k] !in locked
    ensures forall j, k :: 0 <= j < k < |ids| ==> ids[j] < ids[k]
    ensures |ids| < limit ==>
              forall r :: i <= r < |outbox| && outbox[r].state == Unpublished && r !in locked ==> r in ids
    ensures forall r :: i <= r < |outbox| && outbox[r].state == Unpublished && r !in locked && r !in ids ==>
              forall k :: 0 <= k < |ids| ==> ids[k] < r
    decreases |outbox| - i
  {
    if limit == 0 || i == |outbox| then []
    else if outbox[i].state == Unpublished && i !in locked then
      [i] + Claimed(outbox, locked, limit - 1, i + 1)
    else Claimed(outbox, locked, limit, i + 1)
  }

  /** UPDATE outbox SET published_at = now() WHERE id = ANY($1). */
  function MarkPublished(outbox: seq<OutboxRow>, ids: set<nat>): seq<OutboxRow> {
    seq(|outbox|, i requires 0 <= i < |outbox| =>
      if i in ids && outbox[i].state != Pruned then outbox[i].(state := Published) else outbox[i])
  }

  // ---- The repository ------------------------------------------------------------------------

  class Repo {
    var tasks: seq<Task>
    var expressions: seq<Expression>
    var outbox: seq<OutboxRow>

    constructor ()
      ensures State() == EMPTY
    {
      tasks, expressions, outbox := [], [], [];
    }

    ghost function State(): Db
      reads this
    {
      Db(tasks, expressions, outbox)
    }

    /** Puts the tables back as they were: an error inside a transaction undoes it. */
    method Rollback(ts: seq<Task>, xs: seq<Expression>, rows: seq<OutboxRow>)
      modifies this
      ensures State() == Db(ts, xs, rows)
    {
      tasks, expressions, outbox := ts, xs, rows;
    }

    method EnqueueTask(ar: Arithmetic, id: nat, exprId: nat, op: Op, arg1: Option<Value>, arg2: Option<Value>)
      returns (err: Option<Error>)
      modifies this`outbox
      ensures err == None <==> arg1.Some? && arg2.Some? && (ar.encodable)(arg1.value) && (ar.encodable)(arg2.value)
      ensures outbox == if err == None
                        then old(outbox) + [OutboxRow(TaskPayload(TaskMessage(id, exprId, op, arg1.value, arg2.value)), Unpublished)]
                        else old(outbox)
      ensures match TaskRow(ar, id, exprId, op, arg1, arg2)
              case Err(e) => err == Some(e) && outbox == old(outbox)
              case Ok(row) => err == None && outbox == old(outbox) + [row]
    {
      if arg1 == None || arg2 == None {
        return Some(Internal);
      }
      if !(ar.encodable)(arg1.value) || !(ar.encodable)(arg2.value) {
        return Some(Internal);
      }
      outbox := outbox + [OutboxRow(TaskPayload(TaskMessage(id, exprId, op, arg1.value, arg2.value)), Unpublished)];
      return None;
    }

    method EnqueueAudit(audits: seq<Audit>)
      modifies this`outbox
      ensures |outbox| == |old(outbox)| + |audits| && old(outbox) <= outbox
      ensures forall k :: 0 <= k < |audits| ==> outbox[|old(outbox)| + k] == OutboxRow(AuditPayload(audits[k]), Unpublished)
      ensures outbox == old(outbox) + AuditRows(audits)
    {
      AuditRowsAre(audits);
      for i := 0 to |audits|
        invariant outbox == old(outbox) + AuditRows(audits[..i])
      {
        outbox := outbox + [OutboxRow(AuditPayload(audits[i]), Unpublished)];
        assert audits[..i + 1][..i] == audits[..i];
      }
      assert audits[..|audits|] == audits;
    }

    /** The dependents whose counter reached zero go to the outbox, the others stay pending. */
    method UnlockReadyDependents(ar: Arithmetic, exprId: nat, deps: seq<DepRow>) returns (err: Option<Error>)
      modifies this
      ensures match Unlock(ar, old(State()), exprId, deps)
              case Err(e) => err == Some(e)
              case Ok(db) => err == None && State() == db
    {
      ghost var start := State();
      assert deps[0..] == deps;
      for i := 0 to |deps|
        invariant Unlock(ar, State(), exprId, deps[i..]) == Unlock(ar, start, exprId, deps)
      {
        var d := deps[i];
        assert deps[i..][1..] == deps[i + 1..];
        if d.unmet == 0 {
          err := EnqueueTask(ar, d.id, exprId, d.op, d.arg1, d.arg2);
          if err.Some? {
            return;
          }
          tasks := MarkTaskReady(tasks, d.id);
        }
      }
      assert deps[|deps|..] == [];
      return None;
    }

    /** Applies a computed result in one transaction. A duplicate changes nothing. */
    method ApplyResultTx(ar: Arithmetic, taskId: nat, exprId: nat, v: Value) returns (err: Option<Error>)
      modifies this
      ensures taskId < |old(tasks)| && old(tasks)[taskId].status != Done && old(tasks)[taskId].status != Failed && err == None ==>
                && outbox != []
                && outbox[|outbox| - 1].payload
                   == AuditPayload(if old(tasks)[taskId].isRoot then ExpressionDoneAudit(exprId) else TaskDoneAudit(taskId))
      ensures match ApplyResult(ar, old(State()), taskId, exprId, v)
              case Err(e) => err == Some(e) && State() == old(State())
              case Ok(db) => err == None && State() == db
    {
      var ts, xs, rows := tasks, expressions, outbox;
      var audits := [TaskDoneAudit(taskId)];
      var completed := CompleteTask(tasks, taskId, v);
      if completed == None {
        return None;
      }
      var isRoot := tasks[taskId].isRoot;
      tasks := completed.value;
      expressions := MarkInProgress(expressions, exprId);
      var before := tasks;
      tasks := FillFirst(before, taskId, v);
      var dep1 := FirstRows(before, tasks, taskId, |before|);
      before := tasks;
      tasks := FillSecond(before, taskId, v);
      var dep2 := SecondRows(before, tasks, taskId, |before|);
      err := UnlockReadyDependents(ar, exprId, dep1 + dep2);
      if err.Some? {
        Rollback(ts, xs, rows);
        return;
      }
      if isRoot {
        expressions := FinalizeDone(expressions, exprId, v);
        audits := audits + [ExpressionDoneAudit(exprId)];
        assert audits == [TaskDoneAudit(taskId), ExpressionDoneAudit(exprId)];
      }
      EnqueueAudit(audits);
    }

    /** Fails the task and its expression in one transaction. A duplicate changes nothing. */
    method ApplyFailureTx(taskId: nat, exprId: nat)
      modifies this
      ensures taskId < |old(tasks)| && old(tasks)[taskId].status != Done && old(tasks)[taskId].status != Failed ==>
                && tasks == old(tasks)[taskId := old(tasks)[taskId].(status := Failed)]
                && old(outbox) <= outbox && |outbox| == |old(outbox)| + 2
                && outbox[|old(outbox)|].payload == AuditPayload(TaskFailedAudit(taskId))
                && outbox[|old(outbox)| + 1].payload == AuditPayload(ExpressionFailedAudit(exprId))
      ensures State() == ApplyFailure(old(State()), taskId, exprId)
    {
      var failed := FailTask(tasks, taskId);
      if failed == None {
        return;
      }
      tasks := failed.value;
      expressions := FinalizeFailed(expressions, exprId);
      EnqueueAudit([TaskFailedAudit(taskId), ExpressionFailedAudit(exprId)]);
    }

    /** From an agent's message to a state transition. */
    method Handle(ar: Arithmetic, m: ResultMessage) returns (err: Option<Error>)
      modifies this
      ensures m.Started? ==>
                && err == None && expressions == old(expressions) && outbox == old(outbox) && |tasks| == |old(tasks)|
                && forall i :: 0 <= i < |tasks| ==>
                     tasks[i] == if i == m.taskId && old(tasks)[i].status == Ready then old(tasks)[i].(status := Running)
                                 else old(tasks)[i]
      ensures match HandleResult(ar, old(State()), m)
              case Err(e) => err == Some(e) && State() == old(State())
              case Ok(db) => err == None && State() == db
    {
      match m
      case Started(taskId, _) =>
        tasks := MarkTaskRunning(tasks, taskId);
        return None;
      case Broken(taskId, exprId) =>
        ApplyFailureTx(taskId, exprId);
        return None;
      case Computed(taskId, exprId, v) =>
        err := ApplyResultTx(ar, taskId, exprId, v);
    }

    /** Stores an expression, its tasks and the outbox rows of the tasks that can start at once. */
    method CreateExpressionTx(ar: Arithmetic, raw: string, newTasks: seq<Task>) returns (err: Option<Error>)
      modifies this
      ensures match CreateExpression(ar, old(State()), raw, newTasks)
              case Err(e) => err == Some(e) && State() == old(State())
              case Ok(db) => err == None && State() == db
    {
      var ts, xs, rows := tasks, expressions, outbox;
      var exprId := |expressions|;
      expressions := expressions + [Expression(raw, ExprPending, None)];
      for i := 0 to |newTasks|
        invariant tasks == ts + newTasks[..i]
        invariant expressions == xs + [Expression(raw, ExprPending, None)] && outbox == rows
      {
        tasks := tasks + [newTasks[i]];
      }
      assert newTasks[..|newTasks|] == newTasks;
      ghost var inserted := State();
      for i := |ts| to |tasks|
        invariant |tasks| == |ts| + |newTasks|
        invariant EnqueueReady(ar, State(), exprId, i) == EnqueueReady(ar, inserted, exprId, |ts|)
      {
        var t := tasks[i];
        if t.unmetDeps == 0 {
          err := EnqueueTask(ar, i, exprId, t.op, t.arg1Value, t.arg2Value);
          if err.Some? {
            Rollback(ts, xs, rows);
            return;
          }
          tasks := MarkTaskReady(tasks, i);
        }
      }
      EnqueueAudit([ExpressionSubmitted(exprId)]);
      return None;
    }

    method FinalizeImmediateTx(raw: string, v: Value)
      modifies this
      ensures tasks == old(tasks) && expressions == old(expressions) + [Expression(raw, ExprDone, Some(v))]
      ensures old(outbox) <= outbox && |outbox| == |old(outbox)| + 2
      ensures outbox[|old(outbox)|].payload == AuditPayload(ExpressionSubmitted(|old(expressions)|))
      ensures outbox[|old(outbox)| + 1].payload == AuditPayload(ExpressionDoneAudit(|old(expressions)|))
      ensures State() == FinalizeImmediate(old(State()), raw, v)
    {
      var exprId := |expressions|;
      expressions := expressions + [Expression(raw, ExprPending, None)];
      expressions := FinalizeDone(expressions, exprId, v);
      EnqueueAudit([ExpressionSubmitted(exprId), ExpressionDoneAudit(exprId)]);
    }

    /** Claims a batch, hands each row to the broker, and marks the rows whose publish was confirmed;
        a commit that fails marks none. `offers(k)` is what the broker did with the k-th row. */
    method RelayOutbox(locked: set<nat>, limit: nat, offers: nat -> Offer, committed: bool)
      returns (relayed: nat, sent: seq<Payload>, marked: set<nat>)
      modifies this`outbox
      ensures Relays(old(outbox), outbox, locked, limit, offers, committed, relayed, sent)
      ensures Marks(old(outbox), outbox, locked, limit, offers, committed, sent)
      ensures var claimed := Claimed(old(outbox), locked, BatchSize(limit), 0);
              && relayed == |claimed|
              && marked == ConfirmedRows(claimed, offers, |claimed|)
              && outbox == (if committed then MarkPublished(old(outbox), marked) else old(outbox))
              && sent == Sent(old(outbox), claimed, offers, |claimed|)
    {
      var rows := outbox;
      var claimed := Claimed(rows, locked, BatchSize(limit), 0);
      relayed, sent, marked := |claimed|, [], {};
      for i := 0 to |claimed|
        invariant sent == Sent(rows, claimed, offers, i) && marked == ConfirmedRows(claimed, offers, i)
        invariant outbox == rows
      {
        ConfirmedNext(claimed, offers, i + 1);
        SentNext(rows, claimed, offers, i + 1);
        var offer, row := offers(i), claimed[i];
        sent := sent + CopiesOf(rows[row].payload, offer.Copies());
        marked := marked + if offer.confirmed then {row} else {};
      }
      BatchRelays(rows, locked, limit, offers, committed);
      BatchMarks(rows, locked, limit, offers, committed);
      if committed {
        outbox := MarkPublished(rows, marked);
      }
    }

    /** Deletes published rows; `expired` tells which have been published long enough. */
    method PruneOutbox(expired: set<nat>)
      modifies this`outbox
      ensures |outbox| == |old(outbox)|
      ensures forall i :: 0 <= i < |outbox| ==>
                outbox[i] == if i in expired && old(outbox)[i].state == Published
                             then old(outbox)[i].(state := Pruned) else old(outbox)[i]
    {
      var rows := outbox;
      outbox := seq(|rows|, i requires 0 <= i < |rows| =>
        if i in expired && rows[i].state == Published then rows[i].(state := Pruned) else rows[i]);
    }
  }

  // ---- What a relay publishes ----------------------------------------------------------------

  /** What publishing a row, with the retries inside, comes to: the copies the broker took without a confirm, and
      whether a last copy was confirmed. */
  datatype Offer = Offer(strays: nat, confirmed: bool) {
    function Copies(): nat {
      strays + if confirmed then 1 else 0
    }
  }

  function CopiesOf(p: Payload, n: nat): (copies: seq<Payload>)
    ensures |copies| == n && forall k :: 0 <= k < n ==> copies[k] == p
  {
    seq(n, _ => p)
  }

  /** The payloads the broker took, in row order. */
  function Sent(outbox: seq<OutboxRow>, claimed: seq<nat>, offers: nat -> Offer, n: nat): seq<Payload>
    requires n <= |claimed| && forall k :: 0 <= k < |claimed| ==> claimed[k] < |outbox|
  {
    if n == 0 then []
    else Sent(outbox, claimed, offers, n - 1) + CopiesOf(outbox[claimed[n - 1]].payload, offers(n - 1).Copies())
  }

  lemma SentNext(outbox: seq<OutboxRow>, claimed: seq<nat>, offers: nat -> Offer, n: nat)
    requires 0 < n <= |claimed| && forall k :: 0 <= k < |claimed| ==> claimed[k] < |outbox|
    ensures Sent(outbox, claimed, offers, n)
            == Sent(outbox, claimed, offers, n - 1) + CopiesOf(outbox[claimed[n - 1]].payload, offers(n - 1).Copies())
  {
  }

  /** The rows from `i` on that a relay may claim. */
  function Free(outbox: seq<OutboxRow>, locked: set<nat>, i: nat): set<nat> {
    set r | i <= r < |outbox| && outbox[r].state == Unpublished && r !in locked
  }

  function Elements(ids: seq<nat>): set<nat> {
    set r | r in ids
  }

  lemma {:induction false} AscendingCount(ids: seq<nat>)
    requires forall j, k :: 0 <= j < k < |ids| ==> ids[j] < ids[k]
    ensures |Elements(ids)| == |ids|
    decreases |ids|
  {
    if ids == [] {
      assert Elements(ids) == {};
    } else {
      var n := |ids| - 1;
      AscendingCount(ids[..n]);
      assert ids == ids[..n] + [ids[n]];
      assert Elements(ids) == Elements(ids[..n]) + {ids[n]};
    }
  }

  lemma SubsetCount(a: set<nat>, b: set<nat>)
    requires a <= b
    ensures |a| <= |b| && (|a| == |b| ==> a == b)
  {
    assert b == a + (b - a);
  }

  /** A batch takes as many claimable rows as it may, and all of them if it may. */
  lemma ClaimedAll(outbox: seq<OutboxRow>, locked: set<nat>, limit: nat)
    ensures var free, ids := Free(outbox, locked, 0), Claimed(outbox, locked, limit, 0);
            && |ids| == (if limit <= |free| then limit else |free|)
            && (|free| <= limit ==> forall r :: r in free ==> r in ids)
  {
    var free, ids := Free(outbox, locked, 0), Claimed(outbox, locked, limit, 0);
    AscendingCount(ids);
    assert Elements(ids) <= free;
    SubsetCount(Elements(ids), free);
    if |ids| < limit {
      assert free <= Elements(ids);
      SubsetCount(free, Elements(ids));
    }
  }

  /** A relay takes as many of the unpublished rows that no other holds as the limit and 4096 allow; if it may take all
      of them, every publish is confirmed and the commit lands, they are all sent and published. */
  ghost predicate Relays(outbox: seq<OutboxRow>, outbox': seq<OutboxRow>, locked: set<nat>, limit: nat, offers: nat -> Offer,
                         committed: bool, relayed: nat, sent: seq<Payload>)
  {
    var free := set r | 0 <= r < |outbox| && outbox[r].state == Unpublished && r !in locked;
    && relayed == (if limit <= 4096 && limit <= |free| then limit else if 4096 <= |free| then 4096 else |free|)
    && (|free| <= limit && |free| <= 4096 && committed && (forall k: nat :: offers(k).confirmed) ==>
          forall r :: r in free ==> r < |outbox'| && outbox'[r].state == Published && outbox[r].payload in sent)
  }

  /** Exactly the rows whose publish was confirmed become published, and only by a commit. */
  ghost predicate RowsMarked(outbox: seq<OutboxRow>, outbox': seq<OutboxRow>, claimed: seq<nat>, offers: nat -> Offer,
                             committed: bool)
  {
    && |outbox'| == |outbox|
    && (forall k :: 0 <= k < |claimed| ==>
          && claimed[k] < |outbox|
          && outbox'[claimed[k]] == if committed && offers(k).confirmed then outbox[claimed[k]].(state := Published) else outbox[claimed[k]])
    && (forall r :: 0 <= r < |outbox| && r !in claimed ==> outbox'[r] == outbox[r])
  }

  /** The payloads of the claimed rows that the broker took. */
  ghost function Taken(outbox: seq<OutboxRow>, claimed: seq<nat>, offers: nat -> Offer, n: nat): set<Payload> {
    set k | 0 <= k < n && k < |claimed| && claimed[k] < |outbox| && (offers(k).confirmed || offers(k).strays > 0)
      :: outbox[claimed[k]].payload
  }

  /** A relay sends the payloads the broker took of the oldest claimable rows, as many as the limit and 4096 allow, and marks
      the confirmed ones. */
  ghost predicate Marks(outbox: seq<OutboxRow>, outbox': seq<OutboxRow>, locked: set<nat>, limit: nat, offers: nat -> Offer,
                        committed: bool, sent: seq<Payload>)
  {
    var claimed := Claimed(outbox, locked, if limit <= 4096 then limit else 4096, 0);
    RowsMarked(outbox, outbox', claimed, offers, committed) && PayloadSet(sent) == Taken(outbox, claimed, offers, |claimed|)
  }

  lemma BatchMarks(outbox: seq<OutboxRow>, locked: set<nat>, limit: nat, offers: nat -> Offer, committed: bool)
    ensures var claimed := Claimed(outbox, locked, BatchSize(limit), 0);
            Marks(outbox, if committed then MarkPublished(outbox, ConfirmedRows(claimed, offers, |claimed|)) else outbox,
                  locked, limit, offers, committed, Sent(outbox, claimed, offers, |claimed|))
  {
    var claimed := Claimed(outbox, locked, BatchSize(limit), 0);
    BatchRows(outbox, claimed, offers, committed);
    SentSet(outbox, claimed, offers, |claimed|);
  }

  function PayloadSet(sent: seq<Payload>): set<Payload> {
    set p | p in sent
  }

  lemma CopiesSet(p: Payload, n: nat)
    ensures PayloadSet(CopiesOf(p, n)) == if n > 0 then {p} else {}
  {
    if n > 0 { assert CopiesOf(p, n)[0] == p; }
  }

  lemma {:induction false} SentSet(outbox: seq<OutboxRow>, claimed: seq<nat>, offers: nat -> Offer, n: nat)
    requires n <= |claimed| && forall j :: 0 <= j < |claimed| ==> claimed[j] < |outbox|
    ensures PayloadSet(Sent(outbox, claimed, offers, n)) == Taken(outbox, claimed, offers, n)
    decreases n
  {
    if n > 0 {
      var before, copies := Sent(outbox, claimed, offers, n - 1), CopiesOf(outbox[claimed[n - 1]].payload, offers(n - 1).Copies());
      SentNext(outbox, claimed, offers, n);
      SentSet(outbox, claimed, offers, n - 1);
      CopiesSet(outbox[claimed[n - 1]].payload, offers(n - 1).Copies());
      assert PayloadSet(before + copies) == PayloadSet(before) + PayloadSet(copies);
      TakenNext(outbox, claimed, offers, n);
    }
  }

  lemma TakenNext(outbox: seq<OutboxRow>, claimed: seq<nat>, offers: nat -> Offer, n: nat)
    requires 0 < n <= |claimed| && claimed[n - 1] < |outbox|
    ensures Taken(outbox, claimed, offers, n)
            == Taken(outbox, claimed, offers, n - 1) + (if offers(n - 1).Copies() > 0 then {outbox[claimed[n - 1]].payload} else {})
  {
  }

  lemma ConfirmedHas(claimed: seq<nat>, offers: nat -> Offer, k: nat)
    requires k < |claimed| && forall i, j :: 0 <= i < j < |claimed| ==> claimed[i] < claimed[j]
    ensures claimed[k] in ConfirmedRows(claimed, offers, |claimed|) <==> offers(k).confirmed
  {
  }

  /** Every row of a batch, each on its own. */
  lemma BatchRows(outbox: seq<OutboxRow>, claimed: seq<nat>, offers: nat -> Offer, committed: bool)
    requires forall k :: 0 <= k < |claimed| ==> claimed[k] < |outbox| && outbox[claimed[k]].state == Unpublished
    requires forall j, k :: 0 <= j < k < |claimed| ==> claimed[j] < claimed[k]
    ensures RowsMarked(outbox, if committed then MarkPublished(outbox, ConfirmedRows(claimed, offers, |claimed|)) else outbox,
                       claimed, offers, committed)
  {
    var confirmed := ConfirmedRows(claimed, offers, |claimed|);
    forall k | 0 <= k < |claimed| ensures claimed[k] in confirmed <==> offers(k).confirmed {
      ConfirmedHas(claimed, offers, k);
    }
  }

  lemma BatchRelays(outbox: seq<OutboxRow>, locked: set<nat>, limit: nat, offers: nat -> Offer, committed: bool)
    ensures var claimed := Claimed(outbox, locked, BatchSize(limit), 0);
            Relays(outbox, if committed then MarkPublished(outbox, ConfirmedRows(claimed, offers, |claimed|)) else outbox,
                   locked, limit, offers, committed, |claimed|, Sent(outbox, claimed, offers, |claimed|))
  {
    BatchCount(outbox, locked, limit);
    BatchRelayed(outbox, locked, limit, offers);
  }

  /** How many rows a batch has. */
  lemma BatchCount(outbox: seq<OutboxRow>, locked: set<nat>, limit: nat)
    ensures var free := set r | 0 <= r < |outbox| && outbox[r].state == Unpublished && r !in locked;
            |Claimed(outbox, locked, BatchSize(limit), 0)|
            == if limit <= 4096 && limit <= |free| then limit else if 4096 <= |free| then 4096 else |free|
  {
    assert Free(outbox, locked, 0) == set r | 0 <= r < |outbox| && outbox[r].state == Unpublished && r !in locked;
    ClaimedAll(outbox, locked, BatchSize(limit));
  }

  /** What becomes of a claimable row if the batch takes all of them and every publish is confirmed. */
  lemma RowRelayed(outbox: seq<OutboxRow>, locked: set<nat>, limit: nat, offers: nat -> Offer, r: nat)
    requires r in Free(outbox, locked, 0) && |Free(outbox, locked, 0)| <= BatchSize(limit)
    requires forall k: nat :: offers(k).confirmed
    ensures var claimed := Claimed(outbox, locked, BatchSize(limit), 0);
            && r < |outbox| && outbox[r].payload in Sent(outbox, claimed, offers, |claimed|)
            && r in ConfirmedRows(claimed, offers, |claimed|)
  {
    var claimed := Claimed(outbox, locked, BatchSize(limit), 0);
    ClaimedAll(outbox, locked, BatchSize(limit));
    var k :| 0 <= k < |claimed| && claimed[k] == r;
    SentHas(outbox, claimed, offers, |claimed|, k);
  }

  /** So all of them are sent and marked. */
  lemma BatchRelayed(outbox: seq<OutboxRow>, locked: set<nat>, limit: nat, offers: nat -> Offer)
    ensures var free := set r | 0 <= r < |outbox| && outbox[r].state == Unpublished && r !in locked;
            var claimed := Claimed(outbox, locked, BatchSize(limit), 0);
            |free| <= limit && |free| <= 4096 && (forall k: nat :: offers(k).confirmed) ==>
              forall r :: r in free ==>
                outbox[r].payload in Sent(outbox, claimed, offers, |claimed|) && r in ConfirmedRows(claimed, offers, |claimed|)
  {
    var free := set r | 0 <= r < |outbox| && outbox[r].state == Unpublished && r !in locked;
    assert Free(outbox, locked, 0) == free;
    if |free| <= BatchSize(limit) && forall k: nat :: offers(k).confirmed {
      forall r | r in free
        ensures var claimed := Claimed(outbox, locked, BatchSize(limit), 0);
                outbox[r].payload in Sent(outbox, claimed, offers, |claimed|) && r in ConfirmedRows(claimed, offers, |claimed|)
      {
        RowRelayed(outbox, locked, limit, offers, r);
      }
    }
  }

  lemma {:induction false} SentHas(outbox: seq<OutboxRow>, claimed: seq<nat>, offers: nat -> Offer, n: nat, k: nat)
    requires k < n <= |claimed| && forall j :: 0 <= j < |claimed| ==> claimed[j] < |outbox|
    requires offers(k).confirmed
    ensures outbox[claimed[k]].payload in Sent(outbox, claimed, offers, n)
    decreases n
  {
    SentNext(outbox, claimed, offers, n);
    if k < n - 1 {
      SentHas(outbox, claimed, offers, n - 1, k);
    } else {
      assert CopiesOf(outbox[claimed[k]].payload, offers(k).Copies())[0] == outbox[claimed[k]].payload;
    }
  }

  /** The rows whose publish was confirmed. */
  function ConfirmedRows(claimed: seq<nat>, offers: nat -> Offer, n: nat): set<nat>
    requires n <= |claimed|
  {
    set k | 0 <= k < n && offers(k).confirmed :: claimed[k]
  }

  lemma ConfirmedNext(claimed: seq<nat>, offers: nat -> Offer, n: nat)
    requires 0 < n <= |claimed|
    ensures ConfirmedRows(claimed, offers, n) == ConfirmedRows(claimed, offers, n - 1)
            + (if offers(n - 1).confirmed then {claimed[n - 1]} else {})
  {
  }
}
