/** The distributed evaluation as a protocol: any interleaving of the orchestrators, the agents, the
    broker and their failures is a run of these steps. */
module Pipeline {
  import opened Values
  import opened Entities
  import opened Planner
  import opened Database
  import opened ShuntingYard
  import opened Validator
  import opened Consistency
  import opened Accepted
  import opened Creation
  import Broker

  const MAX_TASK_ATTEMPTS: nat := 5
  const MAX_RESULT_ATTEMPTS: nat := 5

  // ---- Submitting ----------------------------------------------------------------------------

  /** Validate, parse, plan, store. */
  function Submit(ar: Arithmetic, db: Db, raw: string): Result<Db> {
    if !Accepts(raw) then Err(InvalidInput)
    else match ParseOf(ar, raw)
      case Err(e) => Err(e)
      case Ok(ast) =>
        match PlanOf(ast, |db.expressions|, |db.tasks|)
        case Err(e) => Err(e)
        case Ok(Immediate(v)) => Ok(FinalizeImmediate(db, raw, v))
        case Ok(Tasks(tasks)) => CreateExpression(ar, db, raw, tasks)
  }

  /** Submitting succeeds exactly for the texts that pass validation, parse and have at most 256 operations. It
      then appends one expression with this text, the tasks of its tree, and their rows, and nothing else. */
  method SubmitExpression(ar: Arithmetic, repo: Repo, raw: string) returns (err: Option<Error>)
    modifies repo
    ensures ar.Valid() && DbOk(ar, old(repo.State())) ==>
              (err == None <==> Accepts(raw) && ParseOf(ar, raw).Ok? && Operations(ParseOf(ar, raw).value) <= 256)
    ensures err.Some? ==> repo.State() == old(repo.State())
    ensures ar.Valid() && DbOk(ar, old(repo.State())) && err.Some? ==> err.value == InvalidInput
    ensures ar.Valid() && DbOk(ar, old(repo.State())) && err == None ==>
              Stored(ar, old(repo.State()), repo.State(), raw, ParseOf(ar, raw).value)
    ensures match Submit(ar, old(repo.State()), raw)
            case Err(e) => err == Some(e) && repo.State() == old(repo.State())
            case Ok(db) => err == None && repo.State() == db
  {
    ghost var db := repo.State();
    if ar.Valid() && DbOk(ar, db) { SubmitMeans(ar, db, raw); }
    err := ValidateExpression(raw);
    if err.Some? {
      return;
    }
    var ast := Parse(ar, raw);
    if ast.Err? {
      return Some(ast.error);
    }
    var plan := PlanExpression(ast.value, |repo.expressions|, |repo.tasks|);
    match plan
    case Err(e) => return Some(e);
    case Ok(Immediate(v)) =>
      repo.FinalizeImmediateTx(raw, v);
      return None;
    case Ok(Tasks(tasks)) =>
      err := repo.CreateExpressionTx(ar, raw, tasks);
  }

  /** A task just stored: ready and its message in the outbox if it needs no other task, pending otherwise. */
  ghost predicate NewTask(t: Task, i: nat, e: nat, outbox: seq<OutboxRow>) {
    && t.expressionId == e && t.result == None
    && (if t.unmetDeps > 0 then t.status == Pending
        else
          && t.status == Ready && t.arg1Value.Some? && t.arg2Value.Some?
          && Recorded(outbox)[TaskPayload(TaskMessage(i, e, t.op, t.arg1Value.value, t.arg2Value.value))] == 1)
  }

  /** One expression with this text more, and one submission record for it; all older rows are as they were. */
  ghost predicate Appended(db: Db, db': Db, raw: string) {
    var e, n := |db.expressions|, |db.tasks|;
    && |db'.expressions| == e + 1 && db'.expressions[..e] == db.expressions && db'.expressions[e].raw == raw
    && n <= |db'.tasks| && db'.tasks[..n] == db.tasks && db.outbox <= db'.outbox
    && Recorded(db.outbox)[AuditPayload(ExpressionSubmitted(e))] == 0
    && Recorded(db'.outbox)[AuditPayload(ExpressionSubmitted(e))] == 1
  }

  /** The new expression is a literal that is done, or waits for the new tasks, the last of which denotes its tree. */
  ghost predicate Stored(ar: Arithmetic, db: Db, db': Db, raw: string, ast: Node) {
    && DbOk(ar, db') && Appended(db, db', raw) && |db'.tasks| == |db.tasks| + Operations(ast)
    && match ast
       case Leaf(v) => db'.expressions[|db.expressions|] == Expression(raw, ExprDone, Some(v))
       case Binary(_, _, _) =>
         && db'.expressions[|db.expressions|] == Expression(raw, ExprPending, None)
         && db'.tasks != [] && db'.tasks[|db'.tasks| - 1].isRoot && Denote(db'.tasks, |db'.tasks| - 1) == ast
         && forall i :: |db.tasks| <= i < |db'.tasks| ==> NewTask(db'.tasks[i], i, |db.expressions|, db'.outbox)
  }

  lemma SubmitMeans(ar: Arithmetic, db: Db, raw: string)
    requires ar.Valid() && DbOk(ar, db)
    ensures Submit(ar, db, raw).Ok? <==> Accepts(raw) && ParseOf(ar, raw).Ok? && Operations(ParseOf(ar, raw).value) <= 256
    ensures Submit(ar, db, raw).Err? ==> Submit(ar, db, raw).error == InvalidInput
    ensures Submit(ar, db, raw).Ok? ==> Stored(ar, db, Submit(ar, db, raw).value, raw, ParseOf(ar, raw).value)
  {
    ParseFails(ar, raw);
    if Accepts(raw) && ParseOf(ar, raw).Ok? {
      ParseEncodable(ar, raw);
      var ast := ParseOf(ar, raw).value;
      if ast.Leaf? {
        ImmediateMeans(ar, db, raw, ast.value);
      } else if Operations(ast) <= 256 {
        PlannedMeans(ar, db, raw, ast);
      }
    }
  }

  lemma NewSubmission(ar: Arithmetic, db: Db, db': Db)
    requires DbOk(ar, db) && DbOk(ar, db') && |db'.expressions| == |db.expressions| + 1
    ensures Recorded(db.outbox)[AuditPayload(ExpressionSubmitted(|db.expressions|))] == 0
    ensures Recorded(db'.outbox)[AuditPayload(ExpressionSubmitted(|db.expressions|))] == 1
  {
    var p := AuditPayload(ExpressionSubmitted(|db.expressions|));
    assert Recorded(db.outbox)[p] == Expected(db.tasks, db.expressions, p);
    assert Recorded(db'.outbox)[p] == Expected(db'.tasks, db'.expressions, p);
  }

  lemma ImmediateMeans(ar: Arithmetic, db: Db, raw: string, v: Value)
    requires DbOk(ar, db) && ParseOf(ar, raw) == Ok(Leaf(v))
    ensures Stored(ar, db, FinalizeImmediate(db, raw, v), raw, Leaf(v))
  {
    ImmediateKeeps(ar, db, raw, v);
    ImmediateIs(db, raw, v);
    NewSubmission(ar, db, FinalizeImmediate(db, raw, v));
  }

  lemma PlannedMeans(ar: Arithmetic, db: Db, raw: string, ast: Node)
    requires DbOk(ar, db) && ParseOf(ar, raw) == Ok(ast) && ast.Binary? && LiteralsEncodable(ar, ast)
    ensures var plan := MarkRoot(Plan(ast, |db.expressions|, |db.tasks|));
            && CreateExpression(ar, db, raw, plan) == Ok(AfterCreate(db, raw, plan))
            && Stored(ar, db, AfterCreate(db, raw, plan), raw, ast)
  {
    var plan := MarkRoot(Plan(ast, |db.expressions|, |db.tasks|));
    CreateApplies(ar, db, raw, plan, ast);
    CreateKeeps(ar, db, raw, plan, ast);
    PlannedAppended(ar, db, raw, plan, ast);
    PlannedRoot(ar, db, raw, plan, ast);
    forall i | |db.tasks| <= i < |AfterCreate(db, raw, plan).tasks|
      ensures NewTask(AfterCreate(db, raw, plan).tasks[i], i, |db.expressions|, AfterCreate(db, raw, plan).outbox)
    {
      StoredTask(ar, db, raw, plan, ast, i);
    }
  }

  lemma PlannedAppended(ar: Arithmetic, db: Db, raw: string, plan: seq<Task>, ast: Node)
    requires DbOk(ar, db) && DbOk(ar, AfterCreate(db, raw, plan)) && PlannedFor(db.tasks, plan, ast, |db.expressions|)
    ensures Appended(db, AfterCreate(db, raw, plan), raw)
    ensures |AfterCreate(db, raw, plan).tasks| == |db.tasks| + Operations(ast)
  {
    var db' := AfterCreate(db, raw, plan);
    NewSubmission(ar, db, db');
    assert db'.tasks[..|db.tasks|] == db.tasks;
  }

  lemma PlannedRoot(ar: Arithmetic, db: Db, raw: string, plan: seq<Task>, ast: Node)
    requires DbOk(ar, db) && DbOk(ar, AfterCreate(db, raw, plan)) && PlannedFor(db.tasks, plan, ast, |db.expressions|)
    ensures var tasks := AfterCreate(db, raw, plan).tasks;
            tasks != [] && tasks[|tasks| - 1].isRoot && Denote(tasks, |tasks| - 1) == ast
  {
    NewDenotes(db.tasks, plan, ast, |db.expressions|);
    PlannedTask(db.tasks, plan, ast, |db.expressions|, |plan| - 1);
  }

  lemma StoredTask(ar: Arithmetic, db: Db, raw: string, plan: seq<Task>, ast: Node, i: nat)
    requires PlannedFor(db.tasks, plan, ast, |db.expressions|) && DbOk(ar, AfterCreate(db, raw, plan))
    requires |db.tasks| <= i < |AfterCreate(db, raw, plan).tasks|
    ensures var db' := AfterCreate(db, raw, plan); NewTask(db'.tasks[i], i, |db.expressions|, db'.outbox)
  {
    var db', k := AfterCreate(db, raw, plan), i - |db.tasks|;
    PlannedTask(db.tasks, plan, ast, |db.expressions|, k);
    assert db'.tasks[i] == StartTask(plan[k]);
    assert TaskOk(ar, db'.tasks, i);
    var t := db'.tasks[i];
    if t.unmetDeps == 0 {
      var p := TaskPayload(TaskMessage(i, |db.expressions|, t.op, t.arg1Value.value, t.arg2Value.value));
      assert Recorded(db'.outbox)[p] == Expected(db'.tasks, db'.expressions, p);
    }
  }

  // ---- The agent -----------------------------------------------------------------------------

  /** What an agent reports for a task; None when the value cannot be encoded, so that no report is
      possible and the delivery fails permanently. */
  function Report(ar: Arithmetic, m: TaskMessage): Option<ResultMessage> {
    match Compute(ar, m.op, m.arg1, m.arg2)
    case Ok(v) => if (ar.encodable)(v) then Some(Computed(m.taskId, m.expressionId, v)) else None
    case Err(_) => Some(Broken(m.taskId, m.expressionId))
  }

  // ---- The state -----------------------------------------------------------------------------

  /** `relayed` are the outbox rows whose publish was confirmed inside a relay transaction that has
      not committed. */
  datatype System = System(
    db: Db,
    relayed: set<nat>,
    taskFlow: Broker.Flow<TaskMessage>,
    resultFlow: Broker.Flow<ResultMessage>)

  const INITIAL := System(EMPTY, {}, [], [])

  /** Steps of the broker and of its consumer library; the ones that only happen together with
      something else have their own constructors below. */
  predicate Plain<T>(s: Broker.Step<T>) {
    !s.Publish? && !s.Handle? && !s.Announce?
  }

  datatype Step =
    | SubmitText(raw: string)
    | RelayRow(row: nat, confirmed: bool)
    | RelayCommit(row: nat)
    | RelayAbort(row: nat)
    | Prune(row: nat)
    | TaskBroker(task: Broker.Step<TaskMessage>)
    | ResultBroker(result: Broker.Step<ResultMessage>)
    | AgentStart(k: nat, published: bool)
    | AgentReport(k: nat, confirmed: bool)
    | Apply(k: nat, confirmed: bool)

  predicate Enabled(ar: Arithmetic, s: System, step: Step) {
    match step
    case SubmitText(raw) => Submit(ar, s.db, raw).Ok?
    case RelayRow(row, _) => row < |s.db.outbox| && s.db.outbox[row].state == Unpublished && row !in s.relayed
    case RelayCommit(row) => row in s.relayed && row < |s.db.outbox|
    case RelayAbort(row) => row in s.relayed
    case Prune(row) => row < |s.db.outbox| && s.db.outbox[row].state == Published
    case TaskBroker(b) => Plain(b) && Broker.Enabled(MAX_TASK_ATTEMPTS, s.taskFlow, b)
    case ResultBroker(b) => Plain(b) && Broker.Enabled(MAX_RESULT_ATTEMPTS, s.resultFlow, b)
    case AgentStart(k, _) => k < |s.taskFlow| && s.taskFlow[k].place == Broker.Unacked(Broker.Fresh)
    case AgentReport(k, _) =>
      k < |s.taskFlow| && s.taskFlow[k].place == Broker.Unacked(Broker.Announced) && Report(ar, s.taskFlow[k].body).Some?
    case Apply(k, _) =>
      k < |s.resultFlow| && Broker.Working(s.resultFlow[k]) && HandleResult(ar, s.db, s.resultFlow[k].body).Ok?
  }

  function SetRow(outbox: seq<OutboxRow>, row: nat, state: RowState): seq<OutboxRow>
    requires row < |outbox|
  {
    outbox[row := outbox[row].(state := state)]
  }

  /** The message a row hands to the tasks flow; audit rows go to a flow outside this protocol. */
  function Handed(p: Payload): Broker.Flow<TaskMessage> {
    match p
    case TaskPayload(m) => [Broker.Copy(m, 0, Broker.Main)]
    case AuditPayload(_) => []
  }

  function Do(ar: Arithmetic, s: System, step: Step): System
    requires Enabled(ar, s, step)
  {
    match step
    case SubmitText(raw) => s.(db := Submit(ar, s.db, raw).value)
    case RelayRow(row, confirmed) =>
      s.(taskFlow := s.taskFlow + Handed(s.db.outbox[row].payload),
         relayed := if confirmed then s.relayed + {row} else s.relayed)
    case RelayCommit(row) =>
      s.(db := s.db.(outbox := SetRow(s.db.outbox, row, Published)), relayed := s.relayed - {row})
    case RelayAbort(row) => s.(relayed := s.relayed - {row})
    case Prune(row) => s.(db := s.db.(outbox := SetRow(s.db.outbox, row, Pruned)))
    case TaskBroker(b) => s.(taskFlow := Broker.Do(MAX_TASK_ATTEMPTS, s.taskFlow, b))
    case ResultBroker(b) => s.(resultFlow := Broker.Do(MAX_RESULT_ATTEMPTS, s.resultFlow, b))
    case AgentStart(k, published) =>
      var c := s.taskFlow[k];
      s.(taskFlow := Broker.Move(s.taskFlow, k, Broker.Unacked(Broker.Announced)),
         resultFlow := s.resultFlow +
           (if published then [Broker.Copy(Started(c.body.taskId, c.body.expressionId), c.attempt, Broker.Main)] else []))
    case AgentReport(k, confirmed) =>
      var c := s.taskFlow[k];
      s.(taskFlow := if confirmed then Broker.Move(s.taskFlow, k, Broker.Unacked(Broker.Handled)) else s.taskFlow,
         resultFlow := s.resultFlow + [Broker.Copy(Report(ar, c.body).value, c.attempt, Broker.Main)])
    case Apply(k, confirmed) =>
      s.(db := HandleResult(ar, s.db, s.resultFlow[k].body).value,
         resultFlow := if confirmed then Broker.Move(s.resultFlow, k, Broker.Unacked(Broker.Handled)) else s.resultFlow)
  }

  predicate Possible(ar: Arithmetic, s: System, steps: seq<Step>)
    decreases |steps|
  {
    steps == [] || (Enabled(ar, s, steps[0]) && Possible(ar, Do(ar, s, steps[0]), steps[1..]))
  }

  function Run(ar: Arithmetic, s: System, steps: seq<Step>): System
    requires Possible(ar, s, steps)
    decreases |steps|
  {
    if steps == [] then s else Run(ar, Do(ar, s, steps[0]), steps[1..])
  }
}
