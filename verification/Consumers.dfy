/** The code around the transactions: the agent's consumer, the orchestrator's consumer and the
    outbox relay, each proved to be a run of the protocol's steps. */
module Consumers {
  import opened Values
  import opened Entities
  import opened Database
  import opened Pipeline
  import Invariant
  import Broker

  /** The system as these objects store it. */
  ghost function SystemOf(repo: Repo, relayed: set<nat>, tasks: Broker.Queues<TaskMessage>,
                          results: Broker.Queues<ResultMessage>): System
    reads repo, tasks, results
  {
    System(repo.State(), relayed, tasks.copies, results.copies)
  }

  /** Some run of the protocol leads from one state to the other. */
  ghost predicate Leads(ar: Arithmetic, s: System, s': System) {
    exists steps :: Pipeline.Possible(ar, s, steps) && Pipeline.Run(ar, s, steps) == s'
  }

  lemma RunHead(ar: Arithmetic, s: System, steps: seq<Step>, first: Step, rest: seq<Step>)
    requires steps == [first] + rest
    ensures Pipeline.Possible(ar, s, steps) <==> Enabled(ar, s, first) && Pipeline.Possible(ar, Do(ar, s, first), rest)
    ensures Pipeline.Possible(ar, s, steps) ==> Pipeline.Run(ar, s, steps) == Pipeline.Run(ar, Do(ar, s, first), rest)
  {
    assert steps[1..] == rest;
  }

  lemma ConcatHead(a: seq<Step>, b: seq<Step>)
    requires a != []
    ensures a == [a[0]] + a[1..] && a + b == [a[0]] + (a[1..] + b)
  {
  }

  lemma {:induction false} RunConcat(ar: Arithmetic, s: System, a: seq<Step>, b: seq<Step>)
    requires Pipeline.Possible(ar, s, a) && Pipeline.Possible(ar, Pipeline.Run(ar, s, a), b)
    ensures Pipeline.Possible(ar, s, a + b)
    ensures Pipeline.Run(ar, s, a + b) == Pipeline.Run(ar, Pipeline.Run(ar, s, a), b)
    decreases |a|
  {
    if a == [] {
      assert a + b == b;
    } else {
      var first, rest := a[0], a[1..];
      ConcatHead(a, b);
      RunHead(ar, s, a, first, rest);
      RunConcat(ar, Do(ar, s, first), rest, b);
      RunHead(ar, s, a + b, first, rest + b);
    }
  }

  lemma LeadsSelf(ar: Arithmetic, s: System)
    ensures Leads(ar, s, s)
  {
    assert Pipeline.Possible(ar, s, []) && Pipeline.Run(ar, s, []) == s;
  }

  lemma LeadsStep(ar: Arithmetic, s: System, step: Step)
    requires Enabled(ar, s, step)
    ensures Leads(ar, s, Do(ar, s, step))
  {
    var s1 := Do(ar, s, step);
    assert Pipeline.Possible(ar, s1, []) && Pipeline.Run(ar, s1, []) == s1;
    assert [step] == [step] + [];
    RunHead(ar, s, [step], step, []);
  }

  lemma LeadsOn(ar: Arithmetic, a: System, b: System, c: System)
    requires Leads(ar, a, b) && Leads(ar, b, c)
    ensures Leads(ar, a, c)
  {
    var x :| Pipeline.Possible(ar, a, x) && Pipeline.Run(ar, a, x) == b;
    var y :| Pipeline.Possible(ar, b, y) && Pipeline.Run(ar, b, y) == c;
    RunConcat(ar, a, x, y);
  }

  // ---- Dispatch ------------------------------------------------------------------------------

  lemma {:induction false} LeadsTaskBroker(ar: Arithmetic, s: System, steps: seq<Broker.Step<TaskMessage>>)
    requires forall j :: 0 <= j < |steps| ==> Plain(steps[j])
    requires Broker.Possible(MAX_TASK_ATTEMPTS, s.taskFlow, steps)
    ensures Leads(ar, s, s.(taskFlow := Broker.Run(MAX_TASK_ATTEMPTS, s.taskFlow, steps)))
    decreases |steps|
  {
    LeadsSelf(ar, s);
    if steps != [] {
      var step := TaskBroker(steps[0]);
      var s1 := Do(ar, s, step);
      LeadsStep(ar, s, step);
      LeadsTaskBroker(ar, s1, steps[1..]);
      LeadsOn(ar, s, s1, s.(taskFlow := Broker.Run(MAX_TASK_ATTEMPTS, s.taskFlow, steps)));
    }
  }

  lemma {:induction false} LeadsResultBroker(ar: Arithmetic, s: System, steps: seq<Broker.Step<ResultMessage>>)
    requires forall j :: 0 <= j < |steps| ==> Plain(steps[j])
    requires Broker.Possible(MAX_RESULT_ATTEMPTS, s.resultFlow, steps)
    ensures Leads(ar, s, s.(resultFlow := Broker.Run(MAX_RESULT_ATTEMPTS, s.resultFlow, steps)))
    decreases |steps|
  {
    LeadsSelf(ar, s);
    if steps != [] {
      var step := ResultBroker(steps[0]);
      var s1 := Do(ar, s, step);
      LeadsStep(ar, s, step);
      LeadsResultBroker(ar, s1, steps[1..]);
      LeadsOn(ar, s, s1, s.(resultFlow := Broker.Run(MAX_RESULT_ATTEMPTS, s.resultFlow, steps)));
    }
  }

  // ---- The agent -----------------------------------------------------------------------------

  /** What happens around one task delivery: to the publish of the started message, to the computation
      (a shutdown cancels it), to the publish of the report, to the copy parked after a failure, and to the ack or
      nack, which may get lost. */
  datatype Turn = Turn(started: Broker.Publication, canceled: bool, report: Broker.Publication,
                       parked: Broker.Publication, settled: bool)

  /** What `handle` returns to the dispatcher. */
  function AgentError(ar: Arithmetic, m: TaskMessage, turn: Turn): Option<Error> {
    if turn.canceled then Some(Unavailable)
    else if Report(ar, m) == None then Some(Internal)
    else if turn.report == Broker.Confirmed then None
    else Some(Unavailable)
  }

  function Announced(f: Broker.Flow<TaskMessage>, k: nat): Broker.Flow<TaskMessage>
    requires k < |f|
  {
    Broker.Move(f, k, Broker.Unacked(Broker.Announced))
  }

  function StartedSends(c: Broker.Copy<TaskMessage>, started: Broker.Publication): Broker.Flow<ResultMessage> {
    if started == Broker.Refused then []
    else [Broker.Copy(Started(c.body.taskId, c.body.expressionId), c.attempt, Broker.Main)]
  }

  function ReportSends(ar: Arithmetic, c: Broker.Copy<TaskMessage>, turn: Turn): Broker.Flow<ResultMessage> {
    if turn.canceled || Report(ar, c.body) == None || turn.report == Broker.Refused then []
    else [Broker.Copy(Report(ar, c.body).value, c.attempt, Broker.Main)]
  }

  /** What an agent does with a task: it announces it, unless the broker refuses the message; it reports what the operation
      is worth, or its failure when a divisor is zero, unless it is canceled, the value cannot be encoded, or the broker
      refuses the report. A confirmed report ends the delivery; a canceled or unconfirmed one is a transient error; a
      value that cannot be encoded is a permanent one. */
  ghost predicate Served(ar: Arithmetic, f: Broker.Flow<TaskMessage>, f': Broker.Flow<TaskMessage>,
                         sent: Broker.Flow<ResultMessage>, k: nat, turn: Turn)
  {
    && k < |f|
    && var m, attempt := f[k].body, f[k].attempt;
    && var worth := Worth(ar, Binary(m.op, Leaf(m.arg1), Leaf(m.arg2)));
    && var reportable := !turn.canceled && (worth == None || (ar.encodable)(worth.value));
    && var report := if worth == None then Broken(m.taskId, m.expressionId) else Computed(m.taskId, m.expressionId, worth.value);
    && sent == (if turn.started == Broker.Refused then []
                else [Broker.Copy(Started(m.taskId, m.expressionId), attempt, Broker.Main)])
               + (if reportable && turn.report != Broker.Refused then [Broker.Copy(report, attempt, Broker.Main)] else [])
    && Broker.Dispatched(5, f[k := f[k].(place := Broker.Unacked(Broker.Announced))], f', k,
                  if reportable && turn.report == Broker.Confirmed then None
                  else if reportable || turn.canceled then Some(Unavailable) else Some(Internal),
                  turn.parked, turn.settled)
  }

  lemma ReportMeans(ar: Arithmetic, m: TaskMessage)
    ensures Report(ar, m) == match Worth(ar, Binary(m.op, Leaf(m.arg1), Leaf(m.arg2)))
                             case None => Some(Broken(m.taskId, m.expressionId))
                             case Some(v) => if (ar.encodable)(v) then Some(Computed(m.taskId, m.expressionId, v)) else None
  {
    assert Worth(ar, Leaf(m.arg1)) == Some(m.arg1) && Worth(ar, Leaf(m.arg2)) == Some(m.arg2);
  }

  lemma AgentServes(ar: Arithmetic, f: Broker.Flow<TaskMessage>, f': Broker.Flow<TaskMessage>, k: nat, turn: Turn)
    requires k < |f| && Broker.Dispatched(5, Announced(f, k), f', k, AgentError(ar, f[k].body, turn), turn.parked, turn.settled)
    ensures Served(ar, f, f', StartedSends(f[k], turn.started) + ReportSends(ar, f[k], turn), k, turn)
  {
    ReportMeans(ar, f[k].body);
  }

  /** The agent's handler: announces the task, computes, and reports. */
  method Serve(ar: Arithmetic, tasks: Broker.Queues<TaskMessage>, results: Broker.Queues<ResultMessage>, k: nat, turn: Turn)
    returns (err: Option<Error>)
    requires (tasks as object) != results
    requires k < |tasks.copies| && tasks.copies[k].place == Broker.Unacked(Broker.Fresh)
    modifies tasks, results
    ensures tasks.copies == Announced(old(tasks.copies), k)
    ensures results.copies ==
            old(results.copies) + StartedSends(old(tasks.copies)[k], turn.started) + ReportSends(ar, old(tasks.copies)[k], turn)
    ensures err == AgentError(ar, old(tasks.copies)[k].body, turn)
  {
    var c := tasks.copies[k];
    tasks.copies := Announced(tasks.copies, k);
    results.copies := results.copies + StartedSends(c, turn.started);
    assert results.copies + [] == results.copies;
    if turn.canceled {
      return Some(Unavailable);
    }
    if Report(ar, c.body) == None {
      return Some(Internal);
    }
    results.copies := results.copies + ReportSends(ar, c, turn);
    return if turn.report == Broker.Confirmed then None else Some(Unavailable);
  }

  /** One task delivery: announce, compute, report, then acknowledge, retry or dead-letter. */
  method HandleTask(ar: Arithmetic, ghost repo: Repo, ghost relayed: set<nat>,
                    tasks: Broker.Queues<TaskMessage>, results: Broker.Queues<ResultMessage>, k: nat, turn: Turn)
    requires tasks.max == MAX_TASK_ATTEMPTS && (tasks as object) != results && (tasks as object) != repo && (results as object) != repo
    requires k < |tasks.copies| && tasks.copies[k].place == Broker.Unacked(Broker.Fresh)
    modifies tasks, results
    ensures old(results.copies) <= results.copies
    ensures Served(ar, old(tasks.copies), tasks.copies, results.copies[|old(results.copies)|..], k, turn)
    ensures results.copies ==
            old(results.copies) + StartedSends(old(tasks.copies)[k], turn.started) + ReportSends(ar, old(tasks.copies)[k], turn)
    ensures SystemOf(repo, relayed, tasks, results) == AgentResult(ar, old(SystemOf(repo, relayed, tasks, results)), k, turn)
    ensures Leads(ar, old(SystemOf(repo, relayed, tasks, results)), SystemOf(repo, relayed, tasks, results))
  {
    ghost var s0, c := SystemOf(repo, relayed, tasks, results), tasks.copies[k];
    var err := Serve(ar, tasks, results, k, turn);
    tasks.Dispatch(k, err, turn.parked, turn.settled);
    AgentLeads(ar, s0, k, turn);
    AgentServes(ar, s0.taskFlow, tasks.copies, k, turn);
    Tail(s0.resultFlow, StartedSends(c, turn.started), ReportSends(ar, c, turn));
    assert SystemOf(repo, relayed, tasks, results) == AgentResult(ar, s0, k, turn);
  }

  lemma Tail(a: Broker.Flow<ResultMessage>, b: Broker.Flow<ResultMessage>, c: Broker.Flow<ResultMessage>)
    ensures a <= a + b + c && (a + b + c)[|a|..] == b + c
  {
  }

  /** The state after one task delivery. */
  ghost function AgentResult(ar: Arithmetic, s: System, k: nat, turn: Turn): System
    requires k < |s.taskFlow| && s.taskFlow[k].place == Broker.Unacked(Broker.Fresh)
  {
    var f := Announced(s.taskFlow, k);
    var steps := Broker.DispatchSteps(MAX_TASK_ATTEMPTS, f, k, AgentError(ar, s.taskFlow[k].body, turn), turn.parked, turn.settled);
    Broker.DispatchRuns(MAX_TASK_ATTEMPTS, f, k, AgentError(ar, s.taskFlow[k].body, turn), turn.parked, turn.settled);
    s.(taskFlow := Broker.Run(MAX_TASK_ATTEMPTS, f, steps),
       resultFlow := s.resultFlow + StartedSends(s.taskFlow[k], turn.started) + ReportSends(ar, s.taskFlow[k], turn))
  }

  lemma AgentLeads(ar: Arithmetic, s: System, k: nat, turn: Turn)
    requires k < |s.taskFlow| && s.taskFlow[k].place == Broker.Unacked(Broker.Fresh)
    ensures Leads(ar, s, AgentResult(ar, s, k, turn))
  {
    var step := AgentStart(k, turn.started != Broker.Refused);
    var s1 := Do(ar, s, step);
    LeadsStep(ar, s, step);
    if AgentError(ar, s.taskFlow[k].body, turn) == None {
      ReportLeads(ar, s, s1, k, turn);
    } else {
      FailLeads(ar, s, s1, k, turn);
    }
    LeadsOn(ar, s, s1, AgentResult(ar, s, k, turn));
  }

  /** The report is confirmed: the delivery is acknowledged. */
  lemma ReportLeads(ar: Arithmetic, s: System, s1: System, k: nat, turn: Turn)
    requires k < |s.taskFlow| && s.taskFlow[k].place == Broker.Unacked(Broker.Fresh)
    requires s1 == Do(ar, s, AgentStart(k, turn.started != Broker.Refused))
    requires AgentError(ar, s.taskFlow[k].body, turn) == None
    ensures Leads(ar, s1, AgentResult(ar, s, k, turn))
  {
    var f := Announced(s.taskFlow, k);
    Broker.DispatchRuns(MAX_TASK_ATTEMPTS, f, k, None, turn.parked, turn.settled);
    var s2 := Do(ar, s1, AgentReport(k, true));
    LeadsStep(ar, s1, AgentReport(k, true));
    if turn.settled {
      TaskAckLeads(ar, s2, k);
      assert Broker.Move(s2.taskFlow, k, Broker.Gone(true)) == Broker.Move(f, k, Broker.Gone(true)) + [];
    } else {
      LeadsSelf(ar, s2);
      assert s2.taskFlow == Broker.Move(f, k, Broker.Unacked(Broker.Handled)) + [];
    }
    LeadsOn(ar, s1, s2, AgentResult(ar, s, k, turn));
  }

  lemma TaskAckLeads(ar: Arithmetic, s: System, k: nat)
    requires k < |s.taskFlow| && s.taskFlow[k].place == Broker.Unacked(Broker.Handled)
    ensures Leads(ar, s, s.(taskFlow := Broker.Move(s.taskFlow, k, Broker.Gone(true))))
  {
    LeadsStep(ar, s, TaskBroker(Broker.Ack(k)));
  }

  /** A report the broker may have taken without a confirm. */
  lemma StrayReport(ar: Arithmetic, s: System, k: nat, turn: Turn)
    requires k < |s.taskFlow| && s.taskFlow[k].place == Broker.Unacked(Broker.Announced)
    ensures Leads(ar, s, s.(resultFlow := s.resultFlow + ReportSends(ar, s.taskFlow[k], turn)))
  {
    if ReportSends(ar, s.taskFlow[k], turn) == [] {
      assert s.resultFlow + [] == s.resultFlow;
      LeadsSelf(ar, s);
    } else {
      LeadsStep(ar, s, AgentReport(k, false));
    }
  }

  /** The report failed: the dispatcher's policy decides. */
  lemma FailLeads(ar: Arithmetic, s: System, s1: System, k: nat, turn: Turn)
    requires k < |s.taskFlow| && s.taskFlow[k].place == Broker.Unacked(Broker.Fresh)
    requires s1 == Do(ar, s, AgentStart(k, turn.started != Broker.Refused))
    requires AgentError(ar, s.taskFlow[k].body, turn).Some?
    ensures Leads(ar, s1, AgentResult(ar, s, k, turn))
  {
    var c, f := s.taskFlow[k], Announced(s.taskFlow, k);
    var err := AgentError(ar, c.body, turn);
    Broker.DispatchRuns(MAX_TASK_ATTEMPTS, f, k, err, turn.parked, turn.settled);
    var steps := Broker.DispatchSteps(MAX_TASK_ATTEMPTS, f, k, err, turn.parked, turn.settled);
    var s2 := s1.(resultFlow := s1.resultFlow + ReportSends(ar, c, turn));
    StrayReport(ar, s1, k, turn);
    LeadsTaskBroker(ar, s2, steps);
    LeadsOn(ar, s1, s2, s2.(taskFlow := Broker.Run(MAX_TASK_ATTEMPTS, f, steps)));
  }

  // ---- The orchestrator's consumer -----------------------------------------------------------

  /** What becomes of a transaction, apart from what its own statements decide: it commits; it fails without a
      trace; or it commits and still returns an error. */
  datatype Commit = Landed | Failed(error: Error) | Doubtful(error: Error)

  /** What the handler of a result delivery returns. */
  function ApplyError(ar: Arithmetic, db: Db, m: ResultMessage, commit: Commit): Option<Error> {
    if commit.Failed? then Some(commit.error)
    else match HandleResult(ar, db, m)
      case Err(e) => Some(e)
      case Ok(_) => if commit.Doubtful? then Some(commit.error) else None
  }

  /** The database after a result delivery. */
  function AppliedDb(ar: Arithmetic, db: Db, m: ResultMessage, commit: Commit): Db {
    if commit.Failed? || HandleResult(ar, db, m).Err? then db else HandleResult(ar, db, m).value
  }

  /** In a reachable state a result whose transaction lands is acknowledged, with no copy added; a copy is parked, or the
      delivery requeued, only when the commit failed or its outcome is not known. */
  ghost predicate Delivered(ar: Arithmetic, s: System, s': System, k: nat, commit: Commit, parked: Broker.Publication,
                            settled: bool)
  {
    && k < |s.resultFlow|
    && Broker.Dispatched(5, s.resultFlow, s'.resultFlow, k, if commit.Landed? then None else Some(commit.error), parked, settled)
    && (if commit.Failed? then s'.db == s.db else HandleResult(ar, s.db, s.resultFlow[k].body) == Ok(s'.db))
  }

  lemma DeliveryMeans(ar: Arithmetic, s: System, s': System, k: nat, commit: Commit, parked: Broker.Publication, settled: bool)
    requires k < |s.resultFlow| && s'.db == AppliedDb(ar, s.db, s.resultFlow[k].body, commit)
    requires Broker.Dispatched(5, s.resultFlow, s'.resultFlow, k, ApplyError(ar, s.db, s.resultFlow[k].body, commit), parked, settled)
    ensures Invariant.Inv(ar, s) ==> Delivered(ar, s, s', k, commit, parked, settled)
  {
    if Invariant.Inv(ar, s) { Invariant.HandleKeeps(ar, s.db, s.resultFlow[k].body); }
  }

  /** One result delivery: apply it in a transaction, then acknowledge, retry or dead-letter. `settled` tells
      whether the ack or nack reaches the broker. */
  method HandleDelivery(ar: Arithmetic, repo: Repo, ghost relayed: set<nat>, ghost tasks: Broker.Queues<TaskMessage>,
                        results: Broker.Queues<ResultMessage>, k: nat, commit: Commit,
                        parked: Broker.Publication, settled: bool)
    requires results.max == MAX_RESULT_ATTEMPTS && (tasks as object) != results && (tasks as object) != repo && (results as object) != repo
    requires k < |results.copies| && results.copies[k].place == Broker.Unacked(Broker.Fresh)
    modifies repo, results
    ensures Invariant.Inv(ar, old(SystemOf(repo, relayed, tasks, results))) ==>
              Delivered(ar, old(SystemOf(repo, relayed, tasks, results)), SystemOf(repo, relayed, tasks, results), k, commit,
                        parked, settled)
    ensures repo.State() == AppliedDb(ar, old(repo.State()), old(results.copies)[k].body, commit)
    ensures var steps := Broker.DispatchSteps(MAX_RESULT_ATTEMPTS, old(results.copies), k,
                           ApplyError(ar, old(repo.State()), old(results.copies)[k].body, commit), parked, settled);
            Broker.Possible(MAX_RESULT_ATTEMPTS, old(results.copies), steps)
            && results.copies == Broker.Run(MAX_RESULT_ATTEMPTS, old(results.copies), steps)
    ensures Leads(ar, old(SystemOf(repo, relayed, tasks, results)), SystemOf(repo, relayed, tasks, results))
  {
    ghost var s0 := SystemOf(repo, relayed, tasks, results);
    var err: Option<Error> := if commit.Failed? then Some(commit.error) else None;
    if err == None {
      err := repo.Handle(ar, results.copies[k].body);
      if err == None && commit.Doubtful? {
        err := Some(commit.error);
      }
    }
    results.Dispatch(k, err, parked, settled);
    DeliveryMeans(ar, s0, SystemOf(repo, relayed, tasks, results), k, commit, parked, settled);
    DeliveryLeads(ar, s0, SystemOf(repo, relayed, tasks, results), k, commit, parked, settled);
  }

  lemma DeliveryLeads(ar: Arithmetic, s: System, s': System, k: nat, commit: Commit, parked: Broker.Publication, settled: bool)
    requires k < |s.resultFlow| && s.resultFlow[k].place == Broker.Unacked(Broker.Fresh)
    requires var body := s.resultFlow[k].body;
             var steps := Broker.DispatchSteps(MAX_RESULT_ATTEMPTS, s.resultFlow, k, ApplyError(ar, s.db, body, commit), parked, settled);
             && Broker.Possible(MAX_RESULT_ATTEMPTS, s.resultFlow, steps)
             && s' == System(AppliedDb(ar, s.db, body, commit), s.relayed, s.taskFlow,
                             Broker.Run(MAX_RESULT_ATTEMPTS, s.resultFlow, steps))
    ensures Leads(ar, s, s')
  {
    var body := s.resultFlow[k].body;
    var err := ApplyError(ar, s.db, body, commit);
    Broker.DispatchRuns(MAX_RESULT_ATTEMPTS, s.resultFlow, k, err, parked, settled);
    if err == None {
      AppliedLeads(ar, s, s', k, settled);
    } else {
      var steps := Broker.DispatchSteps(MAX_RESULT_ATTEMPTS, s.resultFlow, k, err, parked, settled);
      var s1 := s.(db := AppliedDb(ar, s.db, body, commit));
      LeadsSelf(ar, s);
      if s1 != s {
        LeadsStep(ar, s, Apply(k, false));
        assert Do(ar, s, Apply(k, false)) == s1;
      }
      LeadsResultBroker(ar, s1, steps);
      LeadsOn(ar, s, s1, s');
    }
  }

  lemma AppliedLeads(ar: Arithmetic, s: System, s': System, k: nat, settled: bool)
    requires k < |s.resultFlow| && s.resultFlow[k].place == Broker.Unacked(Broker.Fresh)
    requires HandleResult(ar, s.db, s.resultFlow[k].body).Ok?
    requires s' == System(HandleResult(ar, s.db, s.resultFlow[k].body).value, s.relayed, s.taskFlow,
                          Broker.Move(s.resultFlow, k, if settled then Broker.Gone(true) else Broker.Unacked(Broker.Handled)) + [])
    ensures Leads(ar, s, s')
  {
    var s1 := Do(ar, s, Apply(k, true));
    LeadsStep(ar, s, Apply(k, true));
    if settled {
      AckLeads(ar, s1, k);
      assert Broker.Move(s1.resultFlow, k, Broker.Gone(true)) == s'.resultFlow;
      LeadsOn(ar, s, s1, s');
    } else {
      assert s1.resultFlow == s'.resultFlow;
      assert s1 == s';
    }
  }

  lemma AckLeads(ar: Arithmetic, s: System, k: nat)
    requires k < |s.resultFlow| && s.resultFlow[k].place == Broker.Unacked(Broker.Handled)
    ensures Leads(ar, s, s.(resultFlow := Broker.Move(s.resultFlow, k, Broker.Gone(true))))
  {
    LeadsStep(ar, s, ResultBroker(Broker.Ack(k)));
  }

  // ---- The relay -----------------------------------------------------------------------------

  /** The messages a list of payloads puts on the tasks flow. */
  function HandedAll(sent: seq<Payload>): Broker.Flow<TaskMessage> {
    if sent == [] then [] else HandedAll(sent[..|sent| - 1]) + Handed(sent[|sent| - 1])
  }

  /** Exactly the task messages among the payloads are on the flow, each new on the main queue with its counter at zero. */
  ghost predicate Enqueued(sent: seq<Payload>, more: Broker.Flow<TaskMessage>) {
    && (forall k :: 0 <= k < |more| ==> more[k].attempt == 0 && more[k].place == Broker.Main && TaskPayload(more[k].body) in sent)
    && (forall m :: TaskPayload(m) in sent ==> Broker.Copy(m, 0, Broker.Main) in more)
    && ((forall j :: 0 <= j < |sent| ==> sent[j].TaskPayload?) ==>
          |more| == |sent| && forall j :: 0 <= j < |sent| ==> more[j].body == sent[j].message)
  }

  lemma {:induction false} HandedEnqueues(sent: seq<Payload>)
    ensures Enqueued(sent, HandedAll(sent))
    decreases |sent|
  {
    if sent != [] {
      var n := |sent| - 1;
      HandedEnqueues(sent[..n]);
      assert sent == sent[..n] + [sent[n]];
      EnqueuedMore(sent[..n], sent[n], HandedAll(sent[..n]));
    }
  }

  lemma EnqueuedMore(sent: seq<Payload>, p: Payload, more: Broker.Flow<TaskMessage>)
    requires Enqueued(sent, more)
    ensures Enqueued(sent + [p], more + Handed(p))
  {
    var all, flow := sent + [p], more + Handed(p);
    forall m | TaskPayload(m) in all ensures Broker.Copy(m, 0, Broker.Main) in flow {
      if TaskPayload(m) in sent { assert Broker.Copy(m, 0, Broker.Main) in more; }
    }
    if forall j :: 0 <= j < |all| ==> all[j].TaskPayload? {
      assert forall j :: 0 <= j < |sent| ==> sent[j] == all[j];
      assert all[|sent|] == p;
    }
  }

  /** Rows may be relayed: they exist, are unpublished, and no relay holds them. */
  ghost predicate Claimable(s: System, claimed: seq<nat>) {
    && (forall k :: 0 <= k < |claimed| ==>
          claimed[k] < |s.db.outbox| && s.db.outbox[claimed[k]].state == Unpublished && claimed[k] !in s.relayed)
    && (forall j, k :: 0 <= j < k < |claimed| ==> claimed[j] < claimed[k])
  }

  /** The state when the first `n` claimed rows have been handed to the broker. */
  ghost function Relayed(s: System, claimed: seq<nat>, offers: nat -> Offer, n: nat): System
    requires n <= |claimed| && Claimable(s, claimed)
  {
    s.(taskFlow := s.taskFlow + HandedAll(Sent(s.db.outbox, claimed, offers, n)),
       relayed := s.relayed + ConfirmedRows(claimed, offers, n))
  }

  lemma RelayOn(ar: Arithmetic, s: System, claimed: seq<nat>, offers: nat -> Offer, n: nat)
    requires 0 < n <= |claimed| && Claimable(s, claimed)
    requires Leads(ar, s, Relayed(s, claimed, offers, n - 1))
    ensures Leads(ar, s, Relayed(s, claimed, offers, n))
  {
    RelayOneLeads(ar, s, claimed, offers, n);
    LeadsOn(ar, s, Relayed(s, claimed, offers, n - 1), Relayed(s, claimed, offers, n));
  }

  lemma {:induction false} RelayLeads(ar: Arithmetic, s: System, claimed: seq<nat>, offers: nat -> Offer, n: nat)
    requires n <= |claimed| && Claimable(s, claimed)
    ensures Leads(ar, s, Relayed(s, claimed, offers, n))
    decreases n
  {
    if n == 0 {
      LeadsSelf(ar, s);
    } else {
      RelayLeads(ar, s, claimed, offers, n - 1);
      RelayOn(ar, s, claimed, offers, n);
    }
  }

  lemma HandedSnoc(sent: seq<Payload>, p: Payload)
    ensures HandedAll(sent + [p]) == HandedAll(sent) + Handed(p)
  {
    assert (sent + [p])[..|sent|] == sent;
  }

  lemma {:induction false} HandedConcat(a: seq<Payload>, b: seq<Payload>)
    ensures HandedAll(a + b) == HandedAll(a) + HandedAll(b)
    decreases |b|
  {
    if b == [] {
      assert a + b == a;
    } else {
      var n := |b| - 1;
      assert b == b[..n] + [b[n]] && a + b == (a + b[..n]) + [b[n]];
      HandedConcat(a, b[..n]);
      HandedSnoc(a + b[..n], b[n]);
    }
  }

  /** The state with the row's message on the flow `m` times more. */
  function WithStrays(s: System, row: nat, m: nat): System
    requires row < |s.db.outbox|
  {
    s.(taskFlow := s.taskFlow + HandedAll(CopiesOf(s.db.outbox[row].payload, m)))
  }

  lemma StraysNext(s: System, row: nat, m: nat)
    requires row < |s.db.outbox| && m > 0
    ensures WithStrays(s, row, m).taskFlow == WithStrays(s, row, m - 1).taskFlow + Handed(s.db.outbox[row].payload)
  {
    var p := s.db.outbox[row].payload;
    assert CopiesOf(p, m) == CopiesOf(p, m - 1) + [p];
    HandedSnoc(CopiesOf(p, m - 1), p);
    FlowAssoc(s.taskFlow, HandedAll(CopiesOf(p, m - 1)), Handed(p));
  }

  /** Unconfirmed copies of a row, one after the other. */
  lemma {:induction false} StraysLead(ar: Arithmetic, s: System, row: nat, m: nat)
    requires row < |s.db.outbox| && s.db.outbox[row].state == Unpublished && row !in s.relayed
    ensures Leads(ar, s, WithStrays(s, row, m))
    decreases m
  {
    if m == 0 {
      assert CopiesOf(s.db.outbox[row].payload, 0) == [] && s.taskFlow + [] == s.taskFlow;
      LeadsSelf(ar, s);
    } else {
      StraysLead(ar, s, row, m - 1);
      StraysNext(s, row, m);
      LeadsStep(ar, WithStrays(s, row, m - 1), RelayRow(row, false));
      LeadsOn(ar, s, WithStrays(s, row, m - 1), WithStrays(s, row, m));
    }
  }

  /** And then, if it comes to that, a confirmed one. */
  lemma OfferLeads(ar: Arithmetic, s: System, row: nat, offer: Offer)
    requires row < |s.db.outbox| && s.db.outbox[row].state == Unpublished && row !in s.relayed
    ensures Leads(ar, s, WithStrays(s, row, offer.Copies()).(relayed := s.relayed + if offer.confirmed then {row} else {}))
  {
    var s1 := WithStrays(s, row, offer.strays);
    StraysLead(ar, s, row, offer.strays);
    if offer.confirmed {
      StraysNext(s, row, offer.Copies());
      LeadsStep(ar, s1, RelayRow(row, true));
      LeadsOn(ar, s, s1, Do(ar, s1, RelayRow(row, true)));
      assert Do(ar, s1, RelayRow(row, true)) == WithStrays(s, row, offer.Copies()).(relayed := s.relayed + {row});
    } else {
      assert s.relayed + {} == s.relayed;
      assert s1 == WithStrays(s, row, offer.Copies()).(relayed := s.relayed + {});
    }
  }

  lemma RelayedNext(s: System, claimed: seq<nat>, offers: nat -> Offer, n: nat)
    requires 0 < n <= |claimed| && Claimable(s, claimed)
    ensures var s1, row := Relayed(s, claimed, offers, n - 1), claimed[n - 1];
            && row !in s1.relayed
            && WithStrays(s1, row, offers(n - 1).Copies()).(relayed := s1.relayed + if offers(n - 1).confirmed then {row} else {})
               == Relayed(s, claimed, offers, n)
  {
    RelayedFlow(s, claimed, offers, n);
    RelayedRows(s, claimed, offers, n);
  }

  lemma RelayedFlow(s: System, claimed: seq<nat>, offers: nat -> Offer, n: nat)
    requires 0 < n <= |claimed| && Claimable(s, claimed)
    ensures Relayed(s, claimed, offers, n).taskFlow
            == Relayed(s, claimed, offers, n - 1).taskFlow
               + HandedAll(CopiesOf(s.db.outbox[claimed[n - 1]].payload, offers(n - 1).Copies()))
  {
    var sent := Sent(s.db.outbox, claimed, offers, n - 1);
    var copies := CopiesOf(s.db.outbox[claimed[n - 1]].payload, offers(n - 1).Copies());
    HandedConcat(sent, copies);
    FlowAssoc(s.taskFlow, HandedAll(sent), HandedAll(copies));
  }

  lemma RelayedRows(s: System, claimed: seq<nat>, offers: nat -> Offer, n: nat)
    requires 0 < n <= |claimed| && Claimable(s, claimed)
    ensures claimed[n - 1] !in Relayed(s, claimed, offers, n - 1).relayed
    ensures Relayed(s, claimed, offers, n).relayed
            == Relayed(s, claimed, offers, n - 1).relayed + if offers(n - 1).confirmed then {claimed[n - 1]} else {}
  {
    ConfirmedNext(claimed, offers, n);
    assert forall k :: 0 <= k < n - 1 ==> claimed[k] != claimed[n - 1];
  }

  lemma RelayOneLeads(ar: Arithmetic, s: System, claimed: seq<nat>, offers: nat -> Offer, n: nat)
    requires 0 < n <= |claimed| && Claimable(s, claimed)
    ensures Leads(ar, Relayed(s, claimed, offers, n - 1), Relayed(s, claimed, offers, n))
  {
    RelayedNext(s, claimed, offers, n);
    OfferLeads(ar, Relayed(s, claimed, offers, n - 1), claimed[n - 1], offers(n - 1));
  }

  lemma FlowAssoc(a: Broker.Flow<TaskMessage>, b: Broker.Flow<TaskMessage>, c: Broker.Flow<TaskMessage>)
    ensures a + b + c == a + (b + c)
  {
  }

  /** The state when the marks of these rows are committed or rolled back. */
  function Ended(s: System, rows: set<nat>, committed: bool): System {
    s.(db := if committed then s.db.(outbox := MarkPublished(s.db.outbox, rows)) else s.db,
       relayed := s.relayed - rows)
  }

  lemma EndedOne(ar: Arithmetic, s: System, rows: set<nat>, r: nat, committed: bool)
    requires r in rows && rows <= s.relayed && r < |s.db.outbox| && s.db.outbox[r].state == Unpublished
    ensures var step := if committed then RelayCommit(r) else RelayAbort(r);
            Enabled(ar, s, step) && Ended(Do(ar, s, step), rows - {r}, committed) == Ended(s, rows, committed)
  {
    var s1 := Do(ar, s, if committed then RelayCommit(r) else RelayAbort(r));
    assert s1.relayed - (rows - {r}) == s.relayed - rows;
    if committed {
      assert MarkPublished(s1.db.outbox, rows - {r}) == MarkPublished(s.db.outbox, rows);
    }
  }

  /** Committing or rolling back the marks of a relay, one row at a time. */
  lemma {:induction false} CommitLeads(ar: Arithmetic, s: System, rows: set<nat>, committed: bool)
    requires rows <= s.relayed
    requires forall r :: r in rows ==> r < |s.db.outbox| && s.db.outbox[r].state == Unpublished
    ensures Leads(ar, s, Ended(s, rows, committed))
    decreases |rows|
  {
    if rows == {} {
      LeadsSelf(ar, s);
    } else {
      var r :| r in rows;
      var step := if committed then RelayCommit(r) else RelayAbort(r);
      EndedOne(ar, s, rows, r, committed);
      LeadsStep(ar, s, step);
      CommitLeads(ar, Do(ar, s, step), rows - {r}, committed);
      LeadsOn(ar, s, Do(ar, s, step), Ended(s, rows, committed));
    }
  }

  /** Hands the payloads of a batch to the broker, in order. */
  method PublishAll(tasks: Broker.Queues<TaskMessage>, sent: seq<Payload>)
    modifies tasks
    ensures tasks.copies == old(tasks.copies) + HandedAll(sent)
    ensures Enqueued(sent, tasks.copies[|old(tasks.copies)|..])
  {
    HandedEnqueues(sent);
    ghost var before := tasks.copies;
    for i := 0 to |sent|
      invariant tasks.copies == before + HandedAll(sent[..i])
    {
      assert sent[..i + 1] == sent[..i] + [sent[i]];
      HandedSnoc(sent[..i], sent[i]);
      FlowAssoc(before, HandedAll(sent[..i]), Handed(sent[i]));
      tasks.copies := tasks.copies + Handed(sent[i]);
    }
    assert sent[..|sent|] == sent;
    assert (before + HandedAll(sent))[|before|..] == HandedAll(sent);
  }

  /** Relaying a batch and ending the transaction. */
  lemma BatchLeads(ar: Arithmetic, s: System, claimed: seq<nat>, offers: nat -> Offer, marked: set<nat>,
                   committed: bool)
    requires Claimable(s, claimed) && marked == ConfirmedRows(claimed, offers, |claimed|)
    ensures Leads(ar, s,
                  System(if committed then s.db.(outbox := MarkPublished(s.db.outbox, marked)) else s.db, s.relayed,
                         s.taskFlow + HandedAll(Sent(s.db.outbox, claimed, offers, |claimed|)), s.resultFlow))
  {
    var s1 := Relayed(s, claimed, offers, |claimed|);
    RelayLeads(ar, s, claimed, offers, |claimed|);
    CommitLeads(ar, s1, marked, committed);
    assert s1.relayed - marked == s.relayed;
    LeadsOn(ar, s, s1, Ended(s1, marked, committed));
  }

  /** One relay transaction: claim, publish, mark. `locked` are the rows other relays hold; `committed` tells
      whether the commit lands, whatever the relay is told about it. */
  method RelayOnce(ar: Arithmetic, repo: Repo, locked: set<nat>, tasks: Broker.Queues<TaskMessage>,
                   ghost results: Broker.Queues<ResultMessage>, limit: nat,
                   offers: nat -> Offer, committed: bool) returns (relayed: nat)
    requires (tasks as object) != results && (tasks as object) != repo && (results as object) != repo
    modifies repo, tasks
    ensures var claimed := Claimed(old(repo.outbox), locked, BatchSize(limit), 0);
            && relayed == |claimed|
            && tasks.copies == old(tasks.copies) + HandedAll(Sent(old(repo.outbox), claimed, offers, |claimed|))
            && repo.outbox == (if committed then MarkPublished(old(repo.outbox), ConfirmedRows(claimed, offers, |claimed|))
                               else old(repo.outbox))
    ensures var sent := Sent(old(repo.outbox), Claimed(old(repo.outbox), locked, BatchSize(limit), 0), offers, relayed);
            && Relays(old(repo.outbox), repo.outbox, locked, limit, offers, committed, relayed, sent)
            && Marks(old(repo.outbox), repo.outbox, locked, limit, offers, committed, sent)
            && old(tasks.copies) <= tasks.copies && Enqueued(sent, tasks.copies[|old(tasks.copies)|..])
    ensures Leads(ar, old(SystemOf(repo, locked, tasks, results)), SystemOf(repo, locked, tasks, results))
  {
    ghost var s0 := SystemOf(repo, locked, tasks, results);
    ghost var claimed := Claimed(repo.outbox, locked, BatchSize(limit), 0);
    var n, sent, marked := repo.RelayOutbox(locked, limit, offers, committed);
    PublishAll(tasks, sent);
    BatchLeads(ar, s0, claimed, offers, marked, committed);
    return n;
  }
}
