/** Whatever has gone wrong, operators and the broker can set it right: from every reachable state a run
    without further faults leads to where everything that can be finished is finished. */
module Recovery {
  import opened Values
  import opened Entities
  import opened ShuntingYard
  import opened Pipeline
  import opened Invariant
  import opened Outcome
  import opened Expressible
  import opened Termination
  import Consumers
  import Broker

  // ---- One flow ------------------------------------------------------------------------------

  /** The copy waits for a retry, for an operator, or is held by one. */
  predicate Parked<T>(c: Broker.Copy<T>) {
    c.place.Retry? || c.place.Held? || c.place == Broker.Dlq
  }

  /** An expiry in the retry queue, or a step of an operator's redrive whose publish is confirmed. */
  predicate Mends<T>(b: Broker.Step<T>) {
    b.Expire? || b.Hold? || b.RedriveAck? || (b.Redrive? && b.confirmed)
  }

  predicate AllMend<T>(steps: seq<Broker.Step<T>>) {
    forall i :: 0 <= i < |steps| ==> Mends(steps[i])
  }

  /** Copy `k` is parked no more, the others are as they were, and new copies are not parked. */
  ghost predicate Mended<T>(f: Broker.Flow<T>, f': Broker.Flow<T>, k: nat) {
    && k < |f| <= |f'| && !Parked(f'[k])
    && (forall j :: 0 <= j < |f| && j != k ==> f'[j] == f[j])
    && (forall j :: |f| <= j < |f'| ==> !Parked(f'[j]))
  }

  lemma MendHeld<T>(max: nat, f: Broker.Flow<T>, k: nat) returns (steps: seq<Broker.Step<T>>)
    requires max > 0 && k < |f| && f[k].place.Held?
    ensures AllMend(steps) && Broker.Possible(max, f, steps) && Mended(f, Broker.Run(max, f, steps), k)
  {
    if f[k].place.moved {
      Broker.RunOne(max, f, Broker.RedriveAck(k));
      steps := [Broker.RedriveAck(k)];
    } else {
      Broker.RunTwo(max, f, Broker.Redrive(k, true), Broker.RedriveAck(k));
      steps := [Broker.Redrive(k, true), Broker.RedriveAck(k)];
    }
  }

  lemma MendOne<T>(max: nat, f: Broker.Flow<T>, k: nat) returns (steps: seq<Broker.Step<T>>)
    requires max > 0 && k < |f| && Parked(f[k])
    ensures AllMend(steps) && Broker.Possible(max, f, steps) && Mended(f, Broker.Run(max, f, steps), k)
  {
    if f[k].place.Retry? {
      Broker.RunOne(max, f, Broker.Expire(k));
      steps := [Broker.Expire(k)];
    } else if f[k].place.Held? {
      steps := MendHeld(max, f, k);
    } else {
      Broker.RunOne(max, f, Broker.Hold(k));
      var f1 := Broker.Do(max, f, Broker.Hold(k));
      var more := MendHeld(max, f1, k);
      Broker.RunConcat(max, f, [Broker.Hold(k)], more);
      steps := [Broker.Hold(k)] + more;
    }
  }

  /** Mending the copies from `k` up to `n` mends the flow, if the others are not parked. */
  lemma {:induction false} MendFrom<T>(max: nat, f: Broker.Flow<T>, k: nat, n: nat) returns (steps: seq<Broker.Step<T>>)
    requires max > 0 && k <= n <= |f|
    requires forall j :: 0 <= j < |f| && Parked(f[j]) ==> k <= j < n
    ensures AllMend(steps) && Broker.Possible(max, f, steps)
    ensures forall j :: 0 <= j < |Broker.Run(max, f, steps)| ==> !Parked(Broker.Run(max, f, steps)[j])
    decreases n - k
  {
    if k == n {
      steps := [];
    } else if !Parked(f[k]) {
      steps := MendFrom(max, f, k + 1, n);
    } else {
      var first := MendOne(max, f, k);
      var f1 := Broker.Run(max, f, first);
      var rest := MendFrom(max, f1, k + 1, n);
      Broker.RunConcat(max, f, first, rest);
      steps := first + rest;
    }
  }

  // ---- The system ----------------------------------------------------------------------------

  /** The run consists of steps without faults and of steps that mend. */
  ghost predicate Calm(ar: Arithmetic, s: System, steps: seq<Step>)
    requires Pipeline.Possible(ar, s, steps)
    decreases |steps|
  {
    steps == [] ||
    ((FaultFree(ar, s, steps[0])
      || (steps[0].TaskBroker? && Mends(steps[0].task)) || (steps[0].ResultBroker? && Mends(steps[0].result)))
     && Calm(ar, Do(ar, s, steps[0]), steps[1..]))
  }

  lemma {:induction false} CalmConcat(ar: Arithmetic, s: System, a: seq<Step>, b: seq<Step>)
    requires Pipeline.Possible(ar, s, a) && Calm(ar, s, a)
    requires Pipeline.Possible(ar, Pipeline.Run(ar, s, a), b) && Calm(ar, Pipeline.Run(ar, s, a), b)
    ensures Pipeline.Possible(ar, s, a + b) && Calm(ar, s, a + b)
    ensures Pipeline.Run(ar, s, a + b) == Pipeline.Run(ar, Pipeline.Run(ar, s, a), b)
    decreases |a|
  {
    Consumers.RunConcat(ar, s, a, b);
    if a == [] {
      assert a + b == b;
    } else {
      assert (a + b)[0] == a[0] && (a + b)[1..] == a[1..] + b;
      CalmConcat(ar, Do(ar, s, a[0]), a[1..], b);
    }
  }

  lemma CalmOne(ar: Arithmetic, s: System, step: Step)
    requires Enabled(ar, s, step)
    requires FaultFree(ar, s, step) || (step.TaskBroker? && Mends(step.task)) || (step.ResultBroker? && Mends(step.result))
    ensures Pipeline.Possible(ar, s, [step]) && Calm(ar, s, [step]) && Pipeline.Run(ar, s, [step]) == Do(ar, s, step)
  {
    var s1 := Do(ar, s, step);
    assert Pipeline.Possible(ar, s1, []) && Calm(ar, s1, []) && Pipeline.Run(ar, s1, []) == s1;
    assert [step] == [step] + [] && [step][1..] == [];
    Consumers.RunHead(ar, s, [step], step, []);
  }

  lemma {:induction false} CalmTasks(ar: Arithmetic, s: System, bs: seq<Broker.Step<TaskMessage>>) returns (steps: seq<Step>)
    requires AllMend(bs) && Broker.Possible(MAX_TASK_ATTEMPTS, s.taskFlow, bs)
    ensures Pipeline.Possible(ar, s, steps) && Calm(ar, s, steps)
    ensures Pipeline.Run(ar, s, steps) == s.(taskFlow := Broker.Run(MAX_TASK_ATTEMPTS, s.taskFlow, bs))
    decreases |bs|
  {
    if bs == [] {
      steps := [];
    } else {
      var step := TaskBroker(bs[0]);
      CalmOne(ar, s, step);
      var more := CalmTasks(ar, Do(ar, s, step), bs[1..]);
      CalmConcat(ar, s, [step], more);
      steps := [step] + more;
    }
  }

  lemma {:induction false} CalmResults(ar: Arithmetic, s: System, bs: seq<Broker.Step<ResultMessage>>) returns (steps: seq<Step>)
    requires AllMend(bs) && Broker.Possible(MAX_RESULT_ATTEMPTS, s.resultFlow, bs)
    ensures Pipeline.Possible(ar, s, steps) && Calm(ar, s, steps)
    ensures Pipeline.Run(ar, s, steps) == s.(resultFlow := Broker.Run(MAX_RESULT_ATTEMPTS, s.resultFlow, bs))
    decreases |bs|
  {
    if bs == [] {
      steps := [];
    } else {
      var step := ResultBroker(bs[0]);
      CalmOne(ar, s, step);
      var more := CalmResults(ar, Do(ar, s, step), bs[1..]);
      CalmConcat(ar, s, [step], more);
      steps := [step] + more;
    }
  }

  /** Every parked message can be brought back. */
  lemma MendAll(ar: Arithmetic, s: System) returns (steps: seq<Step>)
    ensures Pipeline.Possible(ar, s, steps) && Calm(ar, s, steps) && Unfaulted(ar, Pipeline.Run(ar, s, steps))
  {
    var ts := MendFrom(MAX_TASK_ATTEMPTS, s.taskFlow, 0, |s.taskFlow|);
    var first := CalmTasks(ar, s, ts);
    var s1 := Pipeline.Run(ar, s, first);
    var rs := MendFrom(MAX_RESULT_ATTEMPTS, s1.resultFlow, 0, |s1.resultFlow|);
    var rest := CalmResults(ar, s1, rs);
    CalmConcat(ar, s, first, rest);
    steps := first + rest;
  }

  /** Steps without faults can be taken until none is left. */
  lemma {:induction false} RunToEnd(ar: Arithmetic, s: System) returns (steps: seq<Step>)
    requires ar.Valid() && Inv(ar, s) && Unfaulted(ar, s)
    ensures Pipeline.Possible(ar, s, steps) && Calm(ar, s, steps)
    ensures var s' := Pipeline.Run(ar, s, steps); Inv(ar, s') && Unfaulted(ar, s') && Ended(ar, s')
    decreases Measure(s)
  {
    if Ended(ar, s) {
      steps := [];
    } else {
      var step :| Enabled(ar, s, step) && FaultFree(ar, s, step);
      var s1 := Do(ar, s, step);
      StepInv(ar, s, step);
      FaultFreeUnfaulted(ar, s, step);
      FaultFreeDecreases(ar, s, step);
      CalmOne(ar, s, step);
      var more := RunToEnd(ar, s1);
      CalmConcat(ar, s, [step], more);
      steps := [step] + more;
    }
  }

  /** From every reachable state, expiries, confirmed redrives and steps without faults lead to a state where
      every expression is done if its tree is expressible, failed if its tree divides by zero, and otherwise
      has a dead-lettered task. */
  lemma Recovers(ar: Arithmetic, s: System) returns (steps: seq<Step>)
    requires ar.Valid() && Reachable(ar, s)
    ensures Pipeline.Possible(ar, s, steps) && Calm(ar, s, steps)
    ensures var s' := Pipeline.Run(ar, s, steps);
            && |s.db.expressions| <= |s'.db.expressions|
            && forall e :: 0 <= e < |s.db.expressions| ==> s'.db.expressions[e].raw == s.db.expressions[e].raw && Concluded(ar, s', e)
  {
    ReachableInv(ar, s);
    var first := MendAll(ar, s);
    RunInv(ar, s, first);
    var s1 := Pipeline.Run(ar, s, first);
    var rest := RunToEnd(ar, s1);
    CalmConcat(ar, s, first, rest);
    steps := first + rest;
    var s' := Pipeline.Run(ar, s1, rest);
    RunForward(ar, s, steps);
    forall e | 0 <= e < |s.db.expressions|
      ensures s'.db.expressions[e].raw == s.db.expressions[e].raw && Concluded(ar, s', e)
    {
      EndedExactly(ar, s', e);
    }
  }
}
