/** One message flow: its main queue, its retry queue and its dead-letter queue.

    A flow is the sequence of all message copies the broker ever took in, each with the place where it
    is now. A copy keeps its number for ever, so a step moves one copy or adds one. */
module Broker {
  import opened Values

  /** How far the consumer is with a delivery: its handler has not returned; it has reported progress;
      it has returned nil; or a copy has been parked on the retry or dead-letter queue instead. */
  datatype Phase = Fresh | Announced | Handled | Parked

  datatype Place =
    | Main
    | Retry
    | Dlq
    | Unacked(phase: Phase)
    | Held(moved: bool)
    | Gone(handled: bool)

  datatype Copy<T> = Copy(body: T, attempt: nat, place: Place)

  type Flow<T> = seq<Copy<T>>

  /** The copy still stands for work to be done. */
  predicate Live<T>(c: Copy<T>) {
    match c.place
    case Unacked(phase) => phase == Fresh || phase == Announced
    case Held(moved) => !moved
    case Gone(_) => false
    case _ => true
  }

  /** The copy still stands for work, or is the one whose handler returned nil. */
  predicate Kept<T>(c: Copy<T>) {
    Live(c) || c.place == Unacked(Handled) || c.place == Gone(true)
  }

  predicate Working<T>(c: Copy<T>) {
    c.place == Unacked(Fresh) || c.place == Unacked(Announced)
  }

  // ---- Steps ---------------------------------------------------------------------------------

  /** `confirmed` tells whether the publisher saw the confirm; the broker took the copy either way. */
  datatype Step<T> =
    | Publish(body: T, attempt: nat)
    | Deliver(k: nat)
    | Redeliver(k: nat)
    | Announce(k: nat)
    | Handle(k: nat)
    | ParkRetry(k: nat, confirmed: bool)
    | ParkDead(k: nat, confirmed: bool)
    | Expire(k: nat)
    | Ack(k: nat)
    | Hold(k: nat)
    | Release(k: nat)
    | Redrive(k: nat, confirmed: bool)
    | RedriveAck(k: nat)

  predicate Enabled<T>(max: nat, f: Flow<T>, s: Step<T>) {
    match s
    case Publish(_, attempt) => attempt < max
    case Deliver(k) => k < |f| && f[k].place == Main
    case Redeliver(k) => k < |f| && f[k].place.Unacked?
    case Announce(k) => k < |f| && f[k].place == Unacked(Fresh)
    case Handle(k) => k < |f| && Working(f[k])
    case ParkRetry(k, _) => k < |f| && Working(f[k]) && f[k].attempt + 1 < max
    case ParkDead(k, _) => k < |f| && Working(f[k])
    case Expire(k) => k < |f| && f[k].place == Retry
    case Ack(k) => k < |f| && (f[k].place == Unacked(Handled) || f[k].place == Unacked(Parked))
    case Hold(k) => k < |f| && f[k].place == Dlq
    case Release(k) => k < |f| && f[k].place.Held?
    case Redrive(k, _) => k < |f| && f[k].place == Held(false)
    case RedriveAck(k) => k < |f| && f[k].place == Held(true)
  }

  function Move<T>(f: Flow<T>, k: nat, p: Place): Flow<T>
    requires k < |f|
  {
    f[k := f[k].(place := p)]
  }

  function Do<T>(max: nat, f: Flow<T>, s: Step<T>): Flow<T>
    requires Enabled(max, f, s)
  {
    match s
    case Publish(body, attempt) => f + [Copy(body, attempt, Main)]
    case Deliver(k) => Move(f, k, Unacked(Fresh))
    case Redeliver(k) => Move(f, k, Main)
    case Announce(k) => Move(f, k, Unacked(Announced))
    case Handle(k) => Move(f, k, Unacked(Handled))
    case ParkRetry(k, confirmed) =>
      Move(f, k, if confirmed then Unacked(Parked) else f[k].place) + [Copy(f[k].body, f[k].attempt + 1, Retry)]
    case ParkDead(k, confirmed) =>
      Move(f, k, if confirmed then Unacked(Parked) else f[k].place) + [Copy(f[k].body, f[k].attempt, Dlq)]
    case Expire(k) => Move(f, k, Main)
    case Ack(k) => Move(f, k, Gone(f[k].place.phase == Handled))
    case Hold(k) => Move(f, k, Held(false))
    case Release(k) => Move(f, k, Dlq)
    case Redrive(k, confirmed) => Move(f, k, Held(confirmed)) + [Copy(f[k].body, 0, Main)]
    case RedriveAck(k) => Move(f, k, Gone(false))
  }

  predicate Possible<T>(max: nat, f: Flow<T>, steps: seq<Step<T>>)
    decreases |steps|
  {
    steps == [] || (Enabled(max, f, steps[0]) && Possible(max, Do(max, f, steps[0]), steps[1..]))
  }

  function Run<T>(max: nat, f: Flow<T>, steps: seq<Step<T>>): Flow<T>
    requires Possible(max, f, steps)
    decreases |steps|
  {
    if steps == [] then f else Run(max, Do(max, f, steps[0]), steps[1..])
  }

  // ---- Nothing is lost -----------------------------------------------------------------------

  ghost predicate HasLive<T>(f: Flow<T>, body: T) {
    exists k :: 0 <= k < |f| && Live(f[k]) && f[k].body == body
  }

  ghost predicate HasKept<T>(f: Flow<T>, body: T) {
    exists k :: 0 <= k < |f| && Kept(f[k]) && f[k].body == body
  }

  ghost predicate Known<T>(f: Flow<T>, body: T) {
    exists k :: 0 <= k < |f| && f[k].body == body
  }

  /** Where the work of a live copy is after a step that is not its handler's success. */
  lemma LiveNext<T>(max: nat, f: Flow<T>, s: Step<T>, k: nat) returns (k': nat)
    requires Enabled(max, f, s) && k < |f| && Live(f[k])
    requires s != Handle(k)
    ensures k' < |Do(max, f, s)| && Live(Do(max, f, s)[k']) && Do(max, f, s)[k'].body == f[k].body
  {
    k' := if (s.ParkRetry? || s.ParkDead? || s.Redrive?) && s.confirmed && s.k == k then |f| else k;
  }

  lemma KeptNext<T>(max: nat, f: Flow<T>, s: Step<T>, body: T)
    requires Enabled(max, f, s) && HasKept(f, body)
    ensures HasKept(Do(max, f, s), body)
  {
    var k :| 0 <= k < |f| && Kept(f[k]) && f[k].body == body;
    var f' := Do(max, f, s);
    if Live(f[k]) && s != Handle(k) {
      var k' := LiveNext(max, f, s, k);
      assert Kept(f'[k']);
    } else {
      assert Kept(f'[k]) && f'[k].body == body;
    }
  }

  /** A message that ever entered the flow still has a copy somewhere, or was handled. */
  lemma {:induction false} NothingLost<T>(max: nat, f: Flow<T>, steps: seq<Step<T>>)
    requires Possible(max, f, steps)
    requires forall b :: Known(f, b) ==> HasKept(f, b)
    ensures forall b :: Known(Run(max, f, steps), b) ==> HasKept(Run(max, f, steps), b)
    decreases |steps|
  {
    if steps != [] {
      var f' := Do(max, f, steps[0]);
      forall b | Known(f', b) ensures HasKept(f', b) { KnownNext(max, f, steps[0], b); }
      NothingLost(max, f', steps[1..]);
    }
  }

  lemma KnownNext<T>(max: nat, f: Flow<T>, s: Step<T>, b: T)
    requires Enabled(max, f, s) && Known(Do(max, f, s), b)
    requires Known(f, b) ==> HasKept(f, b)
    ensures HasKept(Do(max, f, s), b)
  {
    var f' := Do(max, f, s);
    var k :| 0 <= k < |f'| && f'[k].body == b;
    if k < |f| {
      assert f[k].body == b;
      KeptNext(max, f, s, b);
    } else {
      assert Kept(f'[k]);
    }
  }

  /** No step of the run is a handler's success on this message. */
  ghost predicate NeverHandled<T>(max: nat, f: Flow<T>, steps: seq<Step<T>>, body: T)
    requires Possible(max, f, steps)
    decreases |steps|
  {
    steps == [] ||
    (!(steps[0].Handle? && f[steps[0].k].body == body)
     && NeverHandled(max, Do(max, f, steps[0]), steps[1..], body))
  }

  /** A message leaves a flow only through a handler that returned nil: until then, whatever fails,
      crashes, is retried, dead-lettered, inspected or redriven, a copy is in one of the queues or
      held unacknowledged by a consumer. */
  lemma {:induction false} LeavesOnlyHandled<T>(max: nat, f: Flow<T>, steps: seq<Step<T>>, body: T)
    requires Possible(max, f, steps) && HasLive(f, body)
    requires NeverHandled(max, f, steps, body)
    ensures HasLive(Run(max, f, steps), body)
    decreases |steps|
  {
    if steps != [] {
      var k :| 0 <= k < |f| && Live(f[k]) && f[k].body == body;
      var k' := LiveNext(max, f, steps[0], k);
      LeavesOnlyHandled(max, Do(max, f, steps[0]), steps[1..], body);
    }
  }

  ghost predicate AttemptsBelow<T>(max: nat, f: Flow<T>) {
    forall k :: 0 <= k < |f| ==> f[k].attempt < max
  }

  /** The attempt counter of every copy stays below the limit: a message is retried at most
      `max - 1` times between redrives. */
  lemma {:induction false} AttemptsBounded<T>(max: nat, f: Flow<T>, steps: seq<Step<T>>)
    requires Possible(max, f, steps) && AttemptsBelow(max, f)
    ensures AttemptsBelow(max, Run(max, f, steps))
    decreases |steps|
  {
    if steps != [] {
      AttemptsBounded(max, Do(max, f, steps[0]), steps[1..]);
    }
  }

  // ---- Retries -------------------------------------------------------------------------------

  /** Where a copy comes from: the counter its message was published or redriven with, and how many times it
      has been retried since. */
  datatype Lineage = Lineage(start: nat, retries: nat)

  /** The lineages after a step. A retried copy has one retry more than the copy it was made from, a dead letter
      as many. */
  function Trace<T>(ls: seq<Lineage>, s: Step<T>): seq<Lineage> {
    match s
    case Publish(_, attempt) => ls + [Lineage(attempt, 0)]
    case ParkRetry(k, _) => if k < |ls| then ls + [Lineage(ls[k].start, ls[k].retries + 1)] else ls
    case ParkDead(k, _) => if k < |ls| then ls + [ls[k]] else ls
    case Redrive(_, _) => ls + [Lineage(0, 0)]
    case _ => ls
  }

  function TraceAll<T>(ls: seq<Lineage>, steps: seq<Step<T>>): seq<Lineage>
    decreases |steps|
  {
    if steps == [] then ls else TraceAll(Trace(ls, steps[0]), steps[1..])
  }

  ghost predicate Traced<T>(max: nat, f: Flow<T>, ls: seq<Lineage>) {
    |ls| == |f| && forall k :: 0 <= k < |f| ==> f[k].attempt == ls[k].start + ls[k].retries < max
  }

  lemma TracedNext<T>(max: nat, f: Flow<T>, ls: seq<Lineage>, s: Step<T>)
    requires max > 0 && Traced(max, f, ls) && Enabled(max, f, s)
    ensures Traced(max, Do(max, f, s), Trace(ls, s))
  {
  }

  /** In every run the counter of a copy is what its message was published or redriven with plus the retries
      since; so a redriven message is retried at most `max - 1` times. */
  lemma {:induction false} RetriesCounted<T>(max: nat, f: Flow<T>, ls: seq<Lineage>, steps: seq<Step<T>>)
    requires max > 0 && Traced(max, f, ls) && Possible(max, f, steps)
    ensures Traced(max, Run(max, f, steps), TraceAll(ls, steps))
    decreases |steps|
  {
    if steps != [] {
      TracedNext(max, f, ls, steps[0]);
      RetriesCounted(max, Do(max, f, steps[0]), Trace(ls, steps[0]), steps[1..]);
    }
  }

  // ---- Queue operations ----------------------------------------------------------------------

  /** What became of a publish: confirmed, taken by the broker without a confirm, or not taken. */
  datatype Publication = Confirmed | Stray | Refused

  /** The position of the copy the dead-letter queue hands out next. */
  function FirstDead<T>(f: Flow<T>): (k: nat)
    ensures k <= |f|
    ensures k < |f| ==> f[k].place == Dlq
    ensures forall j :: 0 <= j < k ==> f[j].place != Dlq
  {
    if f == [] then 0 else if f[0].place == Dlq then 0 else 1 + FirstDead(f[1..])
  }

  /** The steps `dispatch` takes once the handler has returned. `settled` tells whether its ack or nack reaches
      the broker; if it does not, the delivery stays unacknowledged until the broker redelivers it. */
  function DispatchSteps<T>(max: nat, f: Flow<T>, k: nat, err: Option<Error>, parked: Publication, settled: bool): seq<Step<T>>
    requires k < |f|
  {
    ParkSteps(max, f, k, err, parked)
    + (if settled then [if err == None || parked == Confirmed then Ack(k) else Redeliver(k)] else [])
  }

  /** Before its ack or nack: the handler's success, or the copy parked in its place. */
  function ParkSteps<T>(max: nat, f: Flow<T>, k: nat, err: Option<Error>, parked: Publication): seq<Step<T>>
    requires k < |f|
  {
    if err == None then [Handle(k)]
    else if parked == Refused then []
    else if IsRetryable(err.value) && f[k].attempt + 1 < max then [ParkRetry(k, parked == Confirmed)]
    else [ParkDead(k, parked == Confirmed)]
  }

  /** The first dead letter published again, and taken away or not. */
  function Again<T>(f: Flow<T>): Flow<T>
    requires FirstDead(f) < |f|
  {
    f + [Copy(f[FirstDead(f)].body, 0, Main)]
  }

  function Moves<T>(f: Flow<T>): Flow<T>
    requires FirstDead(f) < |f|
  {
    Move(f, FirstDead(f), Gone(false)) + [Copy(f[FirstDead(f)].body, 0, Main)]
  }

  /** What becomes of one turn of a redrive: the message is moved; it is published again but the ack is lost, so
      that the channel is broken and the original goes back; the broker takes it but does not confirm, or does
      not take it; or the queue does not answer. */
  datatype RedriveTurn = Requeued | AckLost | Unconfirmed | NotTaken | NoAnswer

  /** The flow after a redrive, how many messages it counts as moved, and how many dead letters it took away. */
  datatype Redriven<T> = Redriven(flow: Flow<T>, moved: nat, left: nat)

  /** An operator's redrive: up to `|turns|` messages, oldest first, each published again with its counter reset;
      the first turn that goes wrong ends it. */
  function RedriveAll<T>(f: Flow<T>, turns: seq<RedriveTurn>): Redriven<T>
    decreases |turns|
  {
    var k := FirstDead(f);
    if turns == [] || k == |f| then Redriven(f, 0, 0)
    else match turns[0]
      case NoAnswer => Redriven(f, 0, 0)
      case NotTaken => Redriven(f, 0, 0)
      case Unconfirmed => Redriven(f + [Copy(f[k].body, 0, Main)], 0, 0)
      case AckLost => Redriven(f + [Copy(f[k].body, 0, Main)], 1, 0)
      case Requeued =>
        var r := RedriveAll(Move(f, k, Gone(false)) + [Copy(f[k].body, 0, Main)], turns[1..]);
        Redriven(r.flow, r.moved + 1, r.left + 1)
  }

  /** The dead letters, oldest first. */
  function DeadLetters<T>(f: Flow<T>): seq<Copy<T>> {
    if f == [] then []
    else DeadLetters(f[..|f| - 1]) + (if f[|f| - 1].place == Dlq then [f[|f| - 1]] else [])
  }

  lemma {:induction false} NoDeadLetters<T>(f: Flow<T>)
    requires forall j :: 0 <= j < |f| ==> f[j].place != Dlq
    ensures DeadLetters(f) == []
    decreases |f|
  {
    if f != [] { NoDeadLetters(f[..|f| - 1]); }
  }

  /** Taking the first dead letter takes the head of the list. */
  lemma {:induction false} TakeDead<T>(f: Flow<T>, k: nat)
    requires k < |f| && f[k].place == Dlq
    requires forall j :: 0 <= j < k ==> f[j].place != Dlq
    ensures DeadLetters(f) == [f[k]] + DeadLetters(Move(f, k, Held(false)))
    decreases |f|
  {
    var n := |f| - 1;
    var f' := Move(f, k, Held(false));
    if k == n {
      NoDeadLetters(f[..n]);
      assert f'[..n] == f[..n];
    } else {
      TakeDead(f[..n], k);
      assert f'[..n] == Move(f[..n], k, Held(false));
      assert f'[n] == f[n];
    }
  }

  lemma RunHead<T>(max: nat, f: Flow<T>, steps: seq<Step<T>>, first: Step<T>, rest: seq<Step<T>>)
    requires steps == [first] + rest
    ensures Possible(max, f, steps) <==> Enabled(max, f, first) && Possible(max, Do(max, f, first), rest)
    ensures Possible(max, f, steps) ==> Run(max, f, steps) == Run(max, Do(max, f, first), rest)
  {
    assert steps[1..] == rest;
  }

  lemma RunOne<T>(max: nat, f: Flow<T>, a: Step<T>)
    requires Enabled(max, f, a)
    ensures Possible(max, f, [a]) && Run(max, f, [a]) == Do(max, f, a)
  {
    var f' := Do(max, f, a);
    assert Possible(max, f', []) && Run(max, f', []) == f';
    assert [a] == [a] + [];
    RunHead(max, f, [a], a, []);
  }

  lemma RunTwo<T>(max: nat, f: Flow<T>, a: Step<T>, b: Step<T>)
    requires Enabled(max, f, a) && Enabled(max, Do(max, f, a), b)
    ensures Possible(max, f, [a, b]) && Run(max, f, [a, b]) == Do(max, Do(max, f, a), b)
  {
    RunOne(max, Do(max, f, a), b);
    RunHead(max, f, [a, b], a, [b]);
  }

  /** Where the delivery is after `dispatch`. */
  function Settles<T>(c: Copy<T>, err: Option<Error>, parked: Publication, settled: bool): Place {
    if err == None then (if settled then Gone(true) else Unacked(Handled))
    else if parked == Confirmed then (if settled then Gone(false) else Unacked(Parked))
    else if settled then Main else c.place
  }

  /** The copy `dispatch` parks, if the broker takes it. */
  function Parks<T>(max: nat, c: Copy<T>, err: Option<Error>, parked: Publication): Flow<T> {
    if err == None || parked == Refused then []
    else if IsRetryable(err.value) && c.attempt + 1 < max then [Copy(c.body, c.attempt + 1, Retry)]
    else [Copy(c.body, c.attempt, Dlq)]
  }

  /** Where a delivery and its flow are once its handler returned `err`: with no error it is acknowledged and no copy is
      added; otherwise a copy goes to the retry queue with the counter one higher, if the error is transient and the counter
      stays below the limit, and to the dead-letter queue if not. The delivery goes once that copy is confirmed; it is
      requeued if the copy is not. */
  ghost predicate Dispatched<T>(max: nat, f: Flow<T>, f': Flow<T>, k: nat, err: Option<Error>, parked: Publication, settled: bool)
  {
    && k < |f|
    && (err == None ==> f' == f[k := f[k].(place := if settled then Gone(true) else Unacked(Handled))])
    && (err.Some? ==>
          var c := f[k];
          var retry := (err.value == Unavailable || err.value == RateLimited || err.value == Overloaded) && c.attempt + 1 < max;
          var park := if retry then Copy(c.body, c.attempt + 1, Retry) else Copy(c.body, c.attempt, Dlq);
          && (parked == Confirmed ==> f' == f[k := c.(place := if settled then Gone(false) else Unacked(Parked))] + [park])
          && (parked == Stray ==> f' == f[k := if settled then c.(place := Main) else c] + [park])
          && (parked == Refused ==> f' == f[k := if settled then c.(place := Main) else c]))
  }

  /** Settling and parking, together. */
  lemma DispatchMeans<T>(max: nat, f: Flow<T>, k: nat, err: Option<Error>, parked: Publication, settled: bool)
    requires k < |f|
    ensures Dispatched(max, f, Move(f, k, Settles(f[k], err, parked, settled)) + Parks(max, f[k], err, parked), k, err, parked, settled)
  {
  }

  /** The flow after the steps of `dispatch`. */
  lemma DispatchRuns<T>(max: nat, f: Flow<T>, k: nat, err: Option<Error>, parked: Publication, settled: bool)
    requires k < |f| && Working(f[k])
    ensures var steps := DispatchSteps(max, f, k, err, parked, settled);
            && Possible(max, f, steps)
            && Run(max, f, steps) == Move(f, k, Settles(f[k], err, parked, settled)) + Parks(max, f[k], err, parked)
  {
    var park := ParkSteps(max, f, k, err, parked);
    ParkRuns(max, f, k, err, parked);
    if settled {
      var last := if err == None || parked == Confirmed then Ack(k) else Redeliver(k);
      var f1 := Run(max, f, park);
      SettleRuns(max, f, k, err, parked, f1, last);
      RunConcat(max, f, park, [last]);
    } else {
      assert park + [] == park;
    }
  }

  lemma ParkRuns<T>(max: nat, f: Flow<T>, k: nat, err: Option<Error>, parked: Publication)
    requires k < |f| && Working(f[k])
    ensures var steps := ParkSteps(max, f, k, err, parked);
            && Possible(max, f, steps)
            && Run(max, f, steps) == Move(f, k, Settles(f[k], err, parked, false)) + Parks(max, f[k], err, parked)
  {
    var steps := ParkSteps(max, f, k, err, parked);
    if steps == [] {
      assert Move(f, k, f[k].place) + [] == f;
    } else {
      RunOne(max, f, steps[0]);
      assert steps == [steps[0]];
    }
  }

  lemma SettleRuns<T>(max: nat, f: Flow<T>, k: nat, err: Option<Error>, parked: Publication, f1: Flow<T>, last: Step<T>)
    requires k < |f| && Working(f[k])
    requires f1 == Move(f, k, Settles(f[k], err, parked, false)) + Parks(max, f[k], err, parked)
    requires last == if err == None || parked == Confirmed then Ack(k) else Redeliver(k)
    ensures Possible(max, f1, [last])
    ensures Run(max, f1, [last]) == Move(f, k, Settles(f[k], err, parked, true)) + Parks(max, f[k], err, parked)
  {
    RunOne(max, f1, last);
  }

  lemma ConcatHead<T>(a: seq<Step<T>>, b: seq<Step<T>>)
    requires a != []
    ensures a == [a[0]] + a[1..] && a + b == [a[0]] + (a[1..] + b)
  {
  }

  lemma {:induction false} RunConcat<T>(max: nat, f: Flow<T>, a: seq<Step<T>>, b: seq<Step<T>>)
    requires Possible(max, f, a) && Possible(max, Run(max, f, a), b)
    ensures Possible(max, f, a + b) && Run(max, f, a + b) == Run(max, Run(max, f, a), b)
    decreases |a|
  {
    if a == [] {
      assert a + b == b;
    } else {
      var first, rest := a[0], a[1..];
      ConcatHead(a, b);
      RunHead(max, f, a, first, rest);
      RunConcat(max, Do(max, f, first), rest, b);
      RunHead(max, f, a + b, first, rest + b);
    }
  }

  /** One dead letter, published again and acknowledged, or published again and kept. */
  lemma RedriveOne<T>(max: nat, f: Flow<T>, k: nat, confirmed: bool) returns (steps: seq<Step<T>>)
    requires max > 0 && k < |f| && f[k].place == Dlq
    ensures Possible(max, f, steps)
    ensures Run(max, f, steps) == Move(f, k, if confirmed then Gone(false) else Dlq) + [Copy(f[k].body, 0, Main)]
  {
    var f1 := Do(max, f, Hold(k));
    var last := if confirmed then RedriveAck(k) else Release(k);
    RunTwo(max, f, Hold(k), Redrive(k, confirmed));
    var f2 := Run(max, f, [Hold(k), Redrive(k, confirmed)]);
    RunOne(max, f2, last);
    RunConcat(max, f, [Hold(k), Redrive(k, confirmed)], [last]);
    steps := [Hold(k), Redrive(k, confirmed)] + [last];
  }

  /** A redrive is a run of the protocol, so it loses nothing. */
  lemma {:induction false} RedriveRuns<T>(max: nat, f: Flow<T>, turns: seq<RedriveTurn>) returns (steps: seq<Step<T>>)
    requires max > 0
    ensures Possible(max, f, steps) && Run(max, f, steps) == RedriveAll(f, turns).flow
    decreases |turns|
  {
    var k := FirstDead(f);
    if turns == [] || k == |f| || turns[0] == NotTaken || turns[0] == NoAnswer {
      steps := [];
    } else if turns[0] != Requeued {
      steps := RedriveOne(max, f, k, false);
      assert Move(f, k, Dlq) == f;
    } else {
      steps := RedriveOne(max, f, k, true);
      var f1 := Run(max, f, steps);
      var more := RedriveRuns(max, f1, turns[1..]);
      RunConcat(max, f, steps, more);
      steps := steps + more;
    }
  }

  lemma MoveOne<T>(f: Flow<T>, k: nat, f1: Flow<T>)
    requires k == FirstDead(f) < |f|
    requires f1 == Move(f, k, Gone(false)) + [Copy(f[k].body, 0, Main)]
    ensures DeadLetters(f) == [f[k]] + DeadLetters(f1)
  {
    var g := Move(f, k, Gone(false));
    TakeDead(f, k);
    SameDeadLetters(Move(f, k, Held(false)), g);
    assert f1[..|f|] == g;
  }

  /** The `left` oldest dead letters of `f` have left the parking lot, and the `moved` oldest are on the main
      queue, in order and with their counters reset. */
  ghost predicate Moved<T>(f: Flow<T>, f': Flow<T>, moved: nat, left: nat) {
    MovedOf(DeadLetters(f), |f|, f', DeadLetters(f'), moved, left)
  }

  /** The same, of the lists of dead letters before and after. */
  ghost predicate MovedOf<T>(dead: seq<Copy<T>>, n: nat, f': Flow<T>, dead': seq<Copy<T>>, moved: nat, left: nat) {
    && left <= moved <= left + 1 && moved <= |dead|
    && n + moved <= |f'| <= n + left + 1
    && dead' == dead[left..]
    && (forall j :: 0 <= j < moved ==> f'[n + j] == Copy(dead[j].body, 0, Main))
  }

  lemma MovedNone<T>(f: Flow<T>, f': Flow<T>)
    requires |f| <= |f'| <= |f| + 1 && DeadLetters(f') == DeadLetters(f)
    ensures Moved(f, f', 0, 0)
  {
    assert DeadLetters(f)[0..] == DeadLetters(f);
  }

  /** One dead letter more at the head of the list. */
  lemma MovedMore<T>(dead: seq<Copy<T>>, rest: seq<Copy<T>>, c: Copy<T>, n: nat, f': Flow<T>, dead': seq<Copy<T>>,
                     moved: nat, left: nat)
    requires MovedOf(rest, n + 1, f', dead', moved, left) && dead == [c] + rest && f'[n] == Copy(c.body, 0, Main)
    ensures MovedOf(dead, n, f', dead', moved + 1, left + 1)
  {
    assert dead[left + 1..] == rest[left..];
    forall j | 0 <= j < moved + 1 ensures f'[n + j] == Copy(dead[j].body, 0, Main) {
      if j > 0 { assert f'[n + 1 + (j - 1)] == Copy(rest[j - 1].body, 0, Main); }
    }
  }

  /** One more copy on the main queue, the flow as it was otherwise. */
  lemma Republished<T>(f: Flow<T>, k: nat, f': Flow<T>)
    requires k == FirstDead(f) < |f| && f' == f + [Copy(f[k].body, 0, Main)]
    ensures DeadLetters(f') == DeadLetters(f) && DeadLetters(f) != [] && DeadLetters(f)[0] == f[k]
  {
    assert f'[..|f|] == f;
    TakeDead(f, k);
  }

  /** The first turn of a redrive. */
  lemma RedriveFirst<T>(f: Flow<T>, turns: seq<RedriveTurn>)
    ensures var r, k := RedriveAll(f, turns), FirstDead(f);
            if turns == [] || k == |f| || turns[0] == NotTaken || turns[0] == NoAnswer then r == Redriven(f, 0, 0)
            else if turns[0] == Requeued then
              var rest := RedriveAll(Moves(f), turns[1..]);
              r == Redriven(rest.flow, rest.moved + 1, rest.left + 1)
            else r == Redriven(Again(f), if turns[0] == AckLost then 1 else 0, 0)
  {
  }

  /** What a redrive moves: the oldest dead letters, in order, and each it counts is on the main queue with its
      counter reset; at most the last of these is a dead letter still. */
  lemma {:induction false} RedriveMoves<T>(f: Flow<T>, turns: seq<RedriveTurn>)
    ensures Moved(f, RedriveAll(f, turns).flow, RedriveAll(f, turns).moved, RedriveAll(f, turns).left)
    decreases |turns|
  {
    RedriveFirst(f, turns);
    if turns == [] || FirstDead(f) == |f| || turns[0] == NotTaken || turns[0] == NoAnswer {
      MovedNone(f, f);
    } else if turns[0] == Requeued {
      RedriveMoves(Moves(f), turns[1..]);
      RequeuedMoves(f, turns[1..]);
    } else {
      RepublishedMoves(f, if turns[0] == AckLost then 1 else 0);
    }
  }

  /** One message moved, and then the rest of the redrive. */
  lemma RequeuedMoves<T>(f: Flow<T>, rest: seq<RedriveTurn>)
    requires FirstDead(f) < |f|
    requires var r := RedriveAll(Moves(f), rest); Moved(Moves(f), r.flow, r.moved, r.left)
    ensures var r := RedriveAll(Moves(f), rest); Moved(f, r.flow, r.moved + 1, r.left + 1)
  {
    var k, r := FirstDead(f), RedriveAll(Moves(f), rest);
    MoveOne(f, k, Moves(f));
    RedriveKeeps(Moves(f), rest, |f|);
    MovedMore(DeadLetters(f), DeadLetters(Moves(f)), f[k], |f|, r.flow, DeadLetters(r.flow), r.moved, r.left);
  }

  /** A copy published again while the original goes back. */
  lemma RepublishedMoves<T>(f: Flow<T>, moved: nat)
    requires FirstDead(f) < |f| && moved <= 1
    ensures Moved(f, Again(f), moved, 0)
  {
    Republished(f, FirstDead(f), Again(f));
    MovedNone(f, Again(f));
  }

  /** A redrive goes on until its turns or the dead letters are used up, or a turn goes wrong. */
  lemma {:induction false} RedriveReaches<T>(f: Flow<T>, turns: seq<RedriveTurn>, j: nat)
    requires j <= |turns| && j <= |DeadLetters(f)| && forall i :: 0 <= i < j ==> turns[i] == Requeued
    requires j == |turns| || j == |DeadLetters(f)| || turns[j] != Requeued
    ensures RedriveAll(f, turns).left == j
    ensures j < |turns| && j < |DeadLetters(f)| && turns[j] == AckLost <==> RedriveAll(f, turns).moved == j + 1
    decreases |turns|
  {
    RedriveFirst(f, turns);
    DeadOrNot(f);
    RedriveMoves(f, turns);
    if j > 0 {
      MoveOne(f, FirstDead(f), Moves(f));
      RedriveReaches(Moves(f), turns[1..], j - 1);
    }
  }

  lemma DeadOrNot<T>(f: Flow<T>)
    ensures FirstDead(f) == |f| <==> DeadLetters(f) == []
  {
    if FirstDead(f) < |f| { TakeDead(f, FirstDead(f)); } else { NoDeadLetters(f); }
  }

  /** The one that is a dead letter still is the one whose ack was lost. */
  lemma {:induction false} RedriveLost<T>(f: Flow<T>, turns: seq<RedriveTurn>)
    ensures var r := RedriveAll(f, turns);
            r.moved <= |turns| && (r.moved > r.left ==> r.left < |turns| && turns[r.left] == AckLost)
    decreases |turns|
  {
    var k := FirstDead(f);
    if turns != [] && k < |f| && turns[0] == Requeued {
      RedriveLost(Move(f, k, Gone(false)) + [Copy(f[k].body, 0, Main)], turns[1..]);
    }
  }

  /** The dead letters depend only on what is on the dead-letter queue. */
  lemma {:induction false} SameDeadLetters<T>(f: Flow<T>, g: Flow<T>)
    requires |f| == |g|
    requires forall j :: 0 <= j < |f| ==> f[j] == g[j] || (f[j].place != Dlq && g[j].place != Dlq)
    ensures DeadLetters(f) == DeadLetters(g)
    decreases |f|
  {
    if f != [] { SameDeadLetters(f[..|f| - 1], g[..|g| - 1]); }
  }

  /** A redrive touches dead letters only. */
  lemma {:induction false} RedriveKeeps<T>(f: Flow<T>, turns: seq<RedriveTurn>, j: nat)
    requires j < |f| && f[j].place != Dlq
    ensures |f| <= |RedriveAll(f, turns).flow| && RedriveAll(f, turns).flow[j] == f[j]
    decreases |turns|
  {
    var k := FirstDead(f);
    if turns != [] && k < |f| && turns[0] == Requeued {
      RedriveKeeps(Move(f, k, Gone(false)) + [Copy(f[k].body, 0, Main)], turns[1..], j);
    }
  }

  /** The flow `start`, except that the dead letters `taken` are held. */
  ghost predicate AllHeld<T>(f: Flow<T>, start: Flow<T>, taken: seq<nat>) {
    && |f| == |start|
    && (forall j :: 0 <= j < |taken| ==> taken[j] < |start| && start[taken[j]].place == Dlq)
    && (forall i, j :: 0 <= i < j < |taken| ==> taken[i] != taken[j])
    && (forall j :: 0 <= j < |start| ==> f[j] == if j in taken then start[j].(place := Held(false)) else start[j])
  }

  lemma HoldOneMore<T>(f: Flow<T>, start: Flow<T>, taken: seq<nat>, k: nat)
    requires AllHeld(f, start, taken) && k < |f| && f[k].place == Dlq
    ensures AllHeld(Move(f, k, Held(false)), start, taken + [k])
  {
    assert k !in taken;
    assert forall j :: j in taken + [k] <==> j in taken || j == k;
  }

  /** The oldest dead letters of `start` have been read and are held. */
  ghost predicate Peeked<T>(f: Flow<T>, start: Flow<T>, taken: seq<nat>, out: seq<Copy<T>>) {
    && AllHeld(f, start, taken) && |out| == |taken| <= |DeadLetters(start)|
    && out == DeadLetters(start)[..|out|] && DeadLetters(f) == DeadLetters(start)[|out|..]
  }

  lemma PeekOne<T>(f: Flow<T>, start: Flow<T>, taken: seq<nat>, out: seq<Copy<T>>, k: nat)
    requires Peeked(f, start, taken, out) && k == FirstDead(f) < |f|
    ensures Peeked(Move(f, k, Held(false)), start, taken + [k], out + [f[k]])
  {
    TakeDead(f, k);
    HoldOneMore(f, start, taken, k);
    TakeNext(DeadLetters(start), out, f[k], DeadLetters(Move(f, k, Held(false))));
  }

  /** When no dead letter is left, all have been read. */
  lemma PeekedAll<T>(f: Flow<T>, start: Flow<T>, taken: seq<nat>, out: seq<Copy<T>>)
    requires Peeked(f, start, taken, out) && FirstDead(f) == |f|
    ensures out == DeadLetters(start)
  {
    NoDeadLetters(f);
  }

  lemma TakeNext<T>(all: seq<Copy<T>>, out: seq<Copy<T>>, c: Copy<T>, rest: seq<Copy<T>>)
    requires |out| <= |all| && out == all[..|out|] && all[|out|..] == [c] + rest
    ensures |out| + 1 <= |all| && all[..|out| + 1] == out + [c] && all[|out| + 1..] == rest
  {
    assert all[|out|] == all[|out|..][0];
    assert all[|out| + 1..] == all[|out|..][1..];
  }

  lemma ReleaseOne<T>(f: Flow<T>, start: Flow<T>, taken: seq<nat>)
    requires AllHeld(f, start, taken) && taken != []
    ensures taken[0] < |f| && AllHeld(Move(f, taken[0], Dlq), start, taken[1..])
  {
    var k, rest := taken[0], taken[1..];
    assert forall i :: 0 <= i < |rest| ==> rest[i] == taken[i + 1];
    assert k !in rest;
    assert forall j :: j in taken <==> j == k || j in rest;
    assert k in taken;
  }

  /** After `i` turns, each of which moved a message, the rest of the redrive is that of what is left. */
  ghost predicate Continues<T>(start: Flow<T>, f: Flow<T>, turns: seq<RedriveTurn>, i: nat) {
    i <= |turns| &&
    var (all, rest) := (RedriveAll(start, turns), RedriveAll(f, turns[i..]));
    all.flow == rest.flow && all.moved == rest.moved + i
  }

  lemma TakeTurn<T>(start: Flow<T>, f: Flow<T>, turns: seq<RedriveTurn>, i: nat)
    requires Continues(start, f, turns, i) && i < |turns|
    ensures var all := RedriveAll(start, turns);
            if FirstDead(f) == |f| || turns[i] == NoAnswer || turns[i] == NotTaken then all.flow == f && all.moved == i
            else if turns[i] == Requeued then Continues(start, Moves(f), turns, i + 1)
            else all.flow == Again(f) && all.moved == (if turns[i] == AckLost then i + 1 else i)
  {
    assert turns[i..][0] == turns[i] && turns[i..][1..] == turns[i + 1..];
  }

  class Queues<T> {
    const max: nat
    var copies: Flow<T>

    constructor (max: nat)
      ensures this.max == max && copies == []
    {
      this.max := max;
      copies := [];
    }

    /** Acknowledges, retries, dead-letters or requeues one delivery after its handler returned; `settled` tells
        whether the ack or nack reaches the broker. */
    method Dispatch(k: nat, err: Option<Error>, parked: Publication, settled: bool)
      requires k < |copies| && Working(copies[k])
      modifies this
      ensures Dispatched(max, old(copies), copies, k, err, parked, settled)
      ensures Possible(max, old(copies), DispatchSteps(max, old(copies), k, err, parked, settled))
      ensures copies == Run(max, old(copies), DispatchSteps(max, old(copies), k, err, parked, settled))
    {
      var c := copies[k];
      DispatchRuns(max, copies, k, err, parked, settled);
      DispatchMeans(max, copies, k, err, parked, settled);
      if err == None {
        copies := Move(copies, k, if settled then Gone(true) else Unacked(Handled));
        assert copies + [] == copies;
        return;
      }
      if parked != Refused {
        if IsRetryable(err.value) && c.attempt + 1 < max {
          copies := copies + [Copy(c.body, c.attempt + 1, Retry)];
        } else {
          copies := copies + [Copy(c.body, c.attempt, Dlq)];
        }
      }
      if parked == Confirmed {
        copies := Move(copies, k, if settled then Gone(false) else Unacked(Parked));
      } else if settled {
        copies := Move(copies, k, Main);
      }
      assert copies == Move(old(copies), k, Settles(c, err, parked, settled)) + Parks(max, c, err, parked);
      assert copies + [] == copies;
    }

    /** Takes the oldest dead letter without acknowledging it. */
    method GetDead() returns (k: Option<nat>)
      modifies this
      ensures k == None ==> FirstDead(old(copies)) == |old(copies)| && copies == old(copies)
      ensures k.Some? ==> k.value == FirstDead(old(copies)) < |old(copies)|
                          && copies == Move(old(copies), k.value, Held(false))
    {
      var i := FirstDead(copies);
      if i == |copies| {
        return None;
      }
      copies := Move(copies, i, Held(false));
      return Some(i);
    }

    /** Moves dead letters back to the main queue. */
    method RequeueDlq(turns: seq<RedriveTurn>) returns (moved: nat, ok: bool)
      modifies this
      ensures !ok ==> exists j :: 0 <= j < |turns| && turns[j] != Requeued
      ensures copies == RedriveAll(old(copies), turns).flow && moved == RedriveAll(old(copies), turns).moved
      ensures ok ==> moved == |turns| || FirstDead(copies) == |copies|
    {
      moved, ok := 0, true;
      ghost var start := copies;
      assert turns[0..] == turns;
      for i := 0 to |turns|
        invariant ok && moved == i
        invariant Continues(start, copies, turns, i)
      {
        ghost var before := copies;
        TakeTurn(start, copies, turns, i);
        if turns[i] == NoAnswer {
          return moved, false;
        }
        var k := GetDead();
        if k == None {
          return;
        }
        var body := copies[k.value].body;
        if turns[i] != NotTaken {
          copies := copies + [Copy(body, 0, Main)];
        }
        if turns[i] != Requeued {
          copies := Move(copies, k.value, Dlq);
          assert copies == if turns[i] == NotTaken then before else Again(before);
          if turns[i] == AckLost {
            return moved + 1, i + 1 == |turns|;
          }
          return moved, false;
        }
        copies := Move(copies, k.value, Gone(false));
        assert copies == Moves(before);
        moved := moved + 1;
      }
    }

    /** Peeks at dead letters: the oldest ones come back in order, or an error if the queue stops answering; the
        flow is as before either way. */
    method InspectDlq(limit: nat, failsAt: Option<nat>) returns (r: Result<seq<Copy<T>>>)
      modifies this
      ensures copies == old(copies)
      ensures r.Err? <==> failsAt.Some? && failsAt.value < limit && failsAt.value <= |DeadLetters(copies)|
      ensures r.Ok? ==>
                r.value == DeadLetters(copies)[..if limit < |DeadLetters(copies)| then limit else |DeadLetters(copies)|]
    {
      ghost var start := copies;
      var taken: seq<nat> := [];
      var out: seq<Copy<T>> := [];
      var failed := false;
      while |out| < limit
        invariant |out| <= limit && Peeked(copies, start, taken, out) && !failed
        invariant failsAt.Some? && failsAt.value < limit ==> |out| <= failsAt.value
        decreases limit - |out|
      {
        ghost var before := copies;
        if failsAt == Some(|out|) {
          failed := true;
          break;
        }
        var k := GetDead();
        if k == None {
          PeekedAll(copies, start, taken, out);
          break;
        }
        PeekOne(before, start, taken, out, k.value);
        out := out + [copies[k.value].(place := Dlq)];
        taken := taken + [k.value];
      }
      Requeue(taken, start);
      return if failed then Err(Unavailable) else Ok(out);
    }

    /** Gives held dead letters back. */
    method Requeue(taken: seq<nat>, ghost start: Flow<T>)
      requires AllHeld(copies, start, taken)
      modifies this
      ensures copies == start
    {
      for i := 0 to |taken|
        invariant AllHeld(copies, start, taken[i..])
      {
        assert taken[i..][1..] == taken[i + 1..];
        ReleaseOne(copies, start, taken[i..]);
        copies := Move(copies, taken[i], Dlq);
      }
    }
  }
}
