/** The audit write path: dedup, micro-batching, group commit and per-event acknowledgement. */
module AuditIngest {
  import opened Values
  import opened AuditStore
  import B = Batcher

  /** What a caller is told: nothing wrong, or an error. */
  type Answer = Option<Error>

  // ---- Validation ----------------------------------------------------------------------------

  /** The event as it is stored; an event without a time gets the clock's. */
  function Completed(raw: Event, now: Time): Event {
    raw.(time := if raw.time == UNSET then now else raw.time,
         service := if raw.service == "" then "unknown" else raw.service)
  }

  predicate Acceptable(raw: Event) {
    raw.id != NIL && raw.kind != ""
  }

  /** What every stored event satisfies. */
  predicate WellFormed(e: Event) {
    e.id != NIL && e.kind != "" && e.time != UNSET && e.service != ""
  }

  method Validate(raw: Event, now: Time) returns (r: Result<Event>)
    requires now != UNSET
    ensures r.Err? <==> raw.id == 0 || raw.kind == ""
    ensures r.Err? ==> r.error == InvalidInput
    ensures r.Ok? ==>
              && r.value.time == (if raw.time == 0 then now else raw.time)
              && r.value.service == (if raw.service == "" then "unknown" else raw.service)
              && r.value.(time := raw.time, service := raw.service) == raw
    ensures r == if Acceptable(raw) then Ok(Completed(raw, now)) else Err(InvalidInput)
    ensures r.Ok? ==> WellFormed(r.value)
  {
    var ev := raw;
    if ev.id == NIL {
      return Err(InvalidInput);
    }
    if ev.kind == "" {
      return Err(InvalidInput);
    }
    if ev.time == UNSET {
      ev := ev.(time := now);
    }
    if ev.service == "" {
      ev := ev.(service := "unknown");
    }
    return Ok(ev);
  }

  // ---- The state -----------------------------------------------------------------------------

  /** An event on its way to the table, with everything ever sent on its completion channel, which
      holds one value, and how much of that the caller has received. */
  datatype Item = Item(event: Event, done: seq<Answer>, taken: nat)

  /** The flush callback: between batches; about to insert; answering item `next` of the batch. */
  datatype Flush =
    | Idle
    | Inserting(batch: seq<nat>)
    | Answering(batch: seq<nat>, next: nat, marked: bool, answer: Answer)

  datatype Phase = Checking | Adding | Waiting(item: nat) | Returned(answer: Answer) | Died

  /** One call of Ingest, with its completed event; `hit` when the dedup store answered it. */
  datatype Call = Call(event: Event, phase: Phase, hit: bool)

  /** Items are numbered in the order they were added to the batcher. */
  datatype State = State(
    batcher: B.State<nat>,
    items: seq<Item>,
    flush: Flush,
    calls: seq<Call>,
    rows: seq<Event>,
    seen: set<Id>)

  /** `Begin` to `GiveUp` are the callers' steps; `Batch` a step of the batcher; `Commit` to `Send` the
      flush callback's. `Forget` is an expiry or loss in the dedup store. The last two are another
      replica storing events, and then marking one it has stored. */
  datatype Step =
    | Begin(raw: Event, now: Time)
    | Lookup(c: nat, works: bool)
    | Join(c: nat)
    | Receive(c: nat)
    | GiveUp(c: nat)
    | Batch(step: B.Step<nat>)
    | Insert(commit: Commit)
    | Mark(lands: bool)
    | Send
    | Forget(id: Id)
    | Crash
    | InsertElsewhere(events: seq<Event>)
    | MarkElsewhere(id: Id)

  predicate InPhase(s: State, c: nat, phase: Phase) {
    c < |s.calls| && s.calls[c].phase == phase
  }

  predicate Waits(s: State, c: nat) {
    c < |s.calls| && s.calls[c].phase.Waiting? && s.calls[c].phase.item < |s.items|
  }

  /** A send on a channel of capacity one goes through when the channel is empty. */
  predicate HasRoom(item: Item) {
    |item.done| <= item.taken
  }

  /** The flush callback runs on the batcher's loop, which does not move meanwhile. */
  predicate LoopStep(step: B.Step<nat>) {
    step.Tick? || step.Woken? || step.TakeStop? || step.Swap? || step.FlushChunk?
  }

  predicate Enabled(s: State, step: Step) {
    match step
    case Begin(raw, now) => now != UNSET
    case Lookup(c, _) => InPhase(s, c, Checking)
    case Join(c) => InPhase(s, c, Adding)
    case Receive(c) => Waits(s, c) && s.items[s.calls[c].phase.item].taken < |s.items[s.calls[c].phase.item].done|
    case GiveUp(c) => c < |s.calls| && s.calls[c].phase.Waiting?
    case Batch(b) => !b.Add? && B.Enabled(s.batcher, b) && (LoopStep(b) ==> s.flush == Idle)
    case Insert(_) => s.flush.Inserting? && forall k :: 0 <= k < |s.flush.batch| ==> s.flush.batch[k] < |s.items|
    case Mark(_) => CanMark(s)
    case Send => CanAnswer(s) && (s.flush.answer == None ==> s.flush.marked) && HasRoom(s.items[s.flush.batch[s.flush.next]])
    case Forget(_) => true
    case Crash => true
    case InsertElsewhere(events) => forall k :: 0 <= k < |events| ==> WellFormed(events[k])
    case MarkElsewhere(id) => HasId(s.rows, id)
  }

  predicate CanAnswer(s: State) {
    s.flush.Answering? && s.flush.next < |s.flush.batch| && s.flush.batch[s.flush.next] < |s.items|
  }

  predicate CanMark(s: State) {
    CanAnswer(s) && s.flush.answer == None && !s.flush.marked
  }

  function Events(items: seq<Item>, batch: seq<nat>): (events: seq<Event>)
    requires forall k :: 0 <= k < |batch| ==> batch[k] < |items|
    ensures |events| == |batch| && forall k :: 0 <= k < |batch| ==> events[k] == items[batch[k]].event
  {
    seq(|batch|, k requires 0 <= k < |batch| => items[batch[k]].event)
  }

  function SetPhase(calls: seq<Call>, c: nat, phase: Phase): seq<Call>
    requires c < |calls|
  {
    calls[c := calls[c].(phase := phase)]
  }

  /** A crash loses the buffer and the pending calls; the table and the dedup store stay. */
  function Die(call: Call): Call {
    if call.phase.Returned? then call else call.(phase := Died)
  }

  function DoLookup(s: State, c: nat, works: bool): State
    requires InPhase(s, c, Checking)
  {
    if works && s.calls[c].event.id in s.seen
    then s.(calls := s.calls[c := s.calls[c].(phase := Returned(None), hit := true)])
    else s.(calls := SetPhase(s.calls, c, Adding))
  }

  function DoBatch(max: nat, s: State, b: B.Step<nat>): State
    requires max > 0 && B.Enabled(s.batcher, b)
  {
    var after := B.Do(max, s.batcher, b);
    s.(batcher := after, flush := if b.FlushChunk? then Inserting(after.flushed[|after.flushed| - 1]) else s.flush)
  }

  function DoInsert(s: State, commit: Commit): State
    requires Enabled(s, Insert(commit))
  {
    var events := Events(s.items, s.flush.batch);
    s.(rows := if commit == Refused then s.rows else InsertAll(s.rows, events),
       flush := Answering(s.flush.batch, 0, false, if commit == Committed then None else Some(Unavailable)))
  }

  function DoSend(s: State): State
    requires CanAnswer(s)
  {
    var k := s.flush.batch[s.flush.next];
    var next := s.flush.next + 1;
    s.(items := s.items[k := s.items[k].(done := s.items[k].done + [s.flush.answer])],
       flush := if next == |s.flush.batch| then Idle else s.flush.(next := next, marked := false))
  }

  function DoReceive(s: State, c: nat): State
    requires Enabled(s, Receive(c))
  {
    var k := s.calls[c].phase.item;
    s.(calls := SetPhase(s.calls, c, Returned(s.items[k].done[s.items[k].taken])),
       items := s.items[k := s.items[k].(taken := s.items[k].taken + 1)])
  }

  function DoAdd(max: nat, s: State, c: nat): State
    requires max > 0 && InPhase(s, c, Adding)
  {
    s.(batcher := B.Do(max, s.batcher, B.Add(|s.items|)),
       items := s.items + [Item(s.calls[c].event, [], 0)],
       calls := SetPhase(s.calls, c, Waiting(|s.items|)))
  }

  function Do(max: nat, s: State, step: Step): State
    requires max > 0 && Enabled(s, step)
  {
    match step
    case Begin(raw, now) =>
      var phase := if Acceptable(raw) then Checking else Returned(Some(InvalidInput));
      s.(calls := s.calls + [Call(Completed(raw, now), phase, false)])
    case Lookup(c, works) => DoLookup(s, c, works)
    case Join(c) => DoAdd(max, s, c)
    case Receive(c) => DoReceive(s, c)
    case GiveUp(c) => s.(calls := SetPhase(s.calls, c, Returned(Some(Unavailable))))
    case Batch(b) => DoBatch(max, s, b)
    case Insert(commit) => DoInsert(s, commit)
    case Mark(lands) =>
      s.(seen := if lands then s.seen + {s.items[s.flush.batch[s.flush.next]].event.id} else s.seen,
         flush := s.flush.(marked := true))
    case Send => DoSend(s)
    case Forget(id) => s.(seen := s.seen - {id})
    case Crash =>
      s.(batcher := B.Fresh(), items := [], flush := Idle,
         calls := seq(|s.calls|, c requires 0 <= c < |s.calls| => Die(s.calls[c])))
    case InsertElsewhere(events) => s.(rows := InsertAll(s.rows, events))
    case MarkElsewhere(id) => s.(seen := s.seen + {id})
  }

  function Start(): State {
    State(B.Fresh(), [], Idle, [], [], {})
  }

  // ---- The invariant -------------------------------------------------------------------------

  /** How many of the flushed items the flush callback still has to answer. */
  function Unanswered(flush: Flush): int {
    match flush
    case Idle => 0
    case Inserting(batch) => |batch|
    case Answering(batch, next, _, _) => |batch| - next
  }

  /** The items the flush callback has answered are the first ones. */
  function Answered(s: State): int {
    |B.Flatten(s.batcher.flushed)| - Unanswered(s.flush)
  }

  /** The batch in hand is the last one flushed. */
  ghost predicate BatchOk(flushed: seq<seq<nat>>, flush: Flush) {
    flush != Idle ==>
      && flush.batch != [] && |B.Flatten(flushed)| >= |flush.batch|
      && (forall k :: 0 <= k < |flush.batch| ==> flush.batch[k] == |B.Flatten(flushed)| - |flush.batch| + k)
      && (flush.Answering? ==> flush.next < |flush.batch|)
  }

  ghost predicate QueueOk(max: nat, s: State) {
    && B.Inv(max, s.batcher)
    && |s.batcher.added| == |s.items|
    && (forall k :: 0 <= k < |s.batcher.added| ==> s.batcher.added[k] == k)
    && BatchOk(s.batcher.flushed, s.flush)
    && Answered(s) <= |s.items|
  }

  ghost predicate ItemOk(rows: seq<Event>, item: Item, answered: bool) {
    && WellFormed(item.event)
    && |item.done| == (if answered then 1 else 0) && item.taken <= |item.done|
    && (answered && item.done[0] == None ==> HasKey(rows, item.event))
  }

  ghost predicate ItemsOk(s: State) {
    && (forall k :: 0 <= k < |s.items| ==> ItemOk(s.rows, s.items[k], k < Answered(s)))
    && (s.flush.Answering? && s.flush.answer == None ==>
          forall k :: 0 <= k < |s.flush.batch| ==> s.flush.batch[k] < |s.items| && HasKey(s.rows, s.items[s.flush.batch[k]].event))
  }

  ghost predicate CallOk(rows: seq<Event>, items: seq<Item>, call: Call) {
    && (call.phase == Checking || call.phase == Adding ==> WellFormed(call.event))
    && (call.phase.Waiting? ==> call.phase.item < |items| && items[call.phase.item].event == call.event)
    && (call.phase == Returned(None) ==>
          HasId(rows, call.event.id) && (!call.hit ==> HasKey(rows, call.event)))
  }

  ghost predicate CallsOk(s: State) {
    forall c :: 0 <= c < |s.calls| ==> CallOk(s.rows, s.items, s.calls[c])
  }

  ghost predicate TableOk(s: State) {
    && UniqueKeys(s.rows)
    && (forall i :: 0 <= i < |s.rows| ==> WellFormed(s.rows[i]))
    && (forall id :: id in s.seen ==> HasId(s.rows, id))
  }

  ghost predicate Inv(max: nat, s: State) {
    QueueOk(max, s) && ItemsOk(s) && CallsOk(s) && TableOk(s)
  }

  lemma StartInv(max: nat)
    requires max > 0
    ensures Inv(max, Start())
  {
    B.FreshInv<nat>(max);
  }

  // ---- Steps of the queue --------------------------------------------------------------------

  /** What was flushed is a first part of what was added. */
  lemma FlushedFirst(max: nat, b: B.State<nat>)
    requires B.Inv(max, b)
    ensures B.Flatten(b.flushed) <= b.added
  {
    B.SeqAssoc(B.Flatten(b.flushed), B.Rest(b.loop), b.active);
    assert B.Flatten(b.flushed) + (B.Rest(b.loop) + b.active) == b.added;
  }

  lemma QueueAdd(max: nat, s: State, c: nat)
    requires max > 0 && QueueOk(max, s) && Enabled(s, Join(c))
    ensures QueueOk(max, Do(max, s, Join(c))) && Answered(Do(max, s, Join(c))) == Answered(s)
  {
    B.StepInv(max, s.batcher, B.Add(|s.items|));
  }

  lemma QueueFlush(max: nat, s: State)
    requires max > 0 && QueueOk(max, s) && Enabled(s, Batch(B.FlushChunk))
    ensures QueueOk(max, Do(max, s, Batch(B.FlushChunk)))
    ensures Answered(Do(max, s, Batch(B.FlushChunk))) == Answered(s)
  {
    var b, b' := s.batcher, B.Do(max, s.batcher, B.FlushChunk);
    B.StepInv(max, b, B.FlushChunk);
    B.FlushFacts(max, b, b');
    FlushedFirst(max, b');
    var chunk := b'.flushed[|b.flushed|];
    assert b'.flushed == b.flushed + [chunk];
    B.FlattenSnoc(b.flushed, chunk);
    ChunkNumbers(B.Flatten(b.flushed), chunk, b'.added);
    ChunkBatch(b.flushed, chunk);
    assert Do(max, s, Batch(B.FlushChunk)).flush == Inserting(chunk);
  }

  /** The new chunk is the batch in hand. */
  lemma ChunkBatch(flushed: seq<seq<nat>>, chunk: seq<nat>)
    requires chunk != [] && B.Flatten(flushed + [chunk]) == B.Flatten(flushed) + chunk
    requires forall k :: 0 <= k < |chunk| ==> chunk[k] == |B.Flatten(flushed)| + k
    ensures BatchOk(flushed + [chunk], Inserting(chunk))
  {
  }

  /** The next chunk carries the next numbers. */
  lemma ChunkNumbers(before: seq<nat>, chunk: seq<nat>, added: seq<nat>)
    requires before + chunk <= added && forall k :: 0 <= k < |added| ==> added[k] == k
    ensures forall k :: 0 <= k < |chunk| ==> chunk[k] == |before| + k
  {
    forall k | 0 <= k < |chunk| ensures chunk[k] == |before| + k {
      assert chunk[k] == (before + chunk)[|before| + k];
    }
  }

  lemma QueueBatch(max: nat, s: State, b: B.Step<nat>)
    requires max > 0 && QueueOk(max, s) && Enabled(s, Batch(b))
    ensures QueueOk(max, Do(max, s, Batch(b))) && Answered(Do(max, s, Batch(b))) == Answered(s)
  {
    if b.FlushChunk? {
      QueueFlush(max, s);
    } else {
      B.StepInv(max, s.batcher, b);
      assert B.Do(max, s.batcher, b).flushed == s.batcher.flushed;
    }
  }

  /** The flush callback moves only its own place in the batch. */
  lemma QueueCallback(max: nat, s: State, step: Step)
    requires max > 0 && QueueOk(max, s) && Enabled(s, step) && (step.Insert? || step.Mark? || step.Send?)
    ensures QueueOk(max, Do(max, s, step))
    ensures Answered(Do(max, s, step)) == Answered(s) + (if step == Send then 1 else 0)
  {
    FlushedFirst(max, s.batcher);
  }

  /** Where the batcher, the number of items and the flush stay, so does all that is said of them. */
  lemma QueueSame(max: nat, s: State, s': State)
    requires QueueOk(max, s) && s'.batcher == s.batcher && s'.flush == s.flush && |s'.items| == |s.items|
    ensures QueueOk(max, s') && Answered(s') == Answered(s)
  {
  }

  /** The steps that the batcher and the flush callback do not take part in. */
  predicate Aside(step: Step) {
    !step.Join? && !step.Batch? && !step.Crash? && !step.Insert? && !step.Mark? && !step.Send?
  }

  lemma AsideStays(max: nat, s: State, step: Step)
    requires max > 0 && Enabled(s, step) && Aside(step)
    ensures var s' := Do(max, s, step);
            s'.batcher == s.batcher && s'.flush == s.flush && |s'.items| == |s.items|
  {
  }

  lemma QueueCrash(max: nat, s: State)
    requires max > 0
    ensures QueueOk(max, Do(max, s, Crash)) && Answered(Do(max, s, Crash)) == 0
  {
    B.FreshInv<nat>(max);
  }

  lemma QueueNext(max: nat, s: State, step: Step)
    requires max > 0 && QueueOk(max, s) && Enabled(s, step)
    ensures QueueOk(max, Do(max, s, step))
    ensures Answered(Do(max, s, step)) == if step == Crash then 0 else Answered(s) + (if step == Send then 1 else 0)
  {
    if Aside(step) {
      AsideStays(max, s, step);
      QueueSame(max, s, Do(max, s, step));
    } else if step.Join? {
      QueueAdd(max, s, step.c);
    } else if step.Batch? {
      QueueBatch(max, s, step.step);
    } else if step.Crash? {
      QueueCrash(max, s);
    } else {
      QueueCallback(max, s, step);
    }
  }

  // ---- Steps of the table --------------------------------------------------------------------

  /** The rows only ever grow at the end. */
  lemma RowsGrow(max: nat, s: State, step: Step)
    requires max > 0 && Enabled(s, step)
    ensures s.rows <= Do(max, s, step).rows
  {
    match step
    case Insert(commit) => InsertAllKeeps(s.rows, Events(s.items, s.flush.batch));
    case InsertElsewhere(events) => InsertAllKeeps(s.rows, events);
    case _ =>
  }

  lemma InsertTable(rows: seq<Event>, events: seq<Event>, seen: set<Id>)
    requires UniqueKeys(rows) && (forall i :: 0 <= i < |rows| ==> WellFormed(rows[i]))
    requires forall id :: id in seen ==> HasId(rows, id)
    requires forall k :: 0 <= k < |events| ==> WellFormed(events[k])
    ensures var after := InsertAll(rows, events);
            && UniqueKeys(after) && (forall i :: 0 <= i < |after| ==> WellFormed(after[i]))
            && forall id :: id in seen ==> HasId(after, id)
  {
    var after := InsertAll(rows, events);
    InsertAllKeeps(rows, events);
    forall i | 0 <= i < |after| ensures WellFormed(after[i]) {
      InsertedFrom(rows, events, i);
    }
    forall id | id in seen ensures HasId(after, id) {
      PrefixKeepsIds(rows, after, id);
    }
  }

  lemma TableNext(max: nat, s: State, step: Step)
    requires max > 0 && TableOk(s) && ItemsOk(s) && Enabled(s, step)
    ensures TableOk(Do(max, s, step))
  {
    match step
    case Insert(commit) => InsertTable(s.rows, Events(s.items, s.flush.batch), s.seen);
    case InsertElsewhere(events) => InsertTable(s.rows, events, s.seen);
    case Mark(lands) => KeyGivesId(s.rows, s.items[s.flush.batch[s.flush.next]].event);
    case _ =>
  }

  // ---- Steps of the items --------------------------------------------------------------------

  lemma ItemKeeps(rows: seq<Event>, more: seq<Event>, item: Item, answered: bool)
    requires rows <= more && ItemOk(rows, item, answered)
    ensures ItemOk(more, item, answered)
  {
    if answered && item.done[0] == None { PrefixKeepsKeys(rows, more, item.event); }
  }

  lemma ItemsInsert(max: nat, s: State, commit: Commit)
    requires max > 0 && QueueOk(max, s) && ItemsOk(s) && Enabled(s, Insert(commit))
    ensures ItemsOk(Do(max, s, Insert(commit)))
  {
    var s' := Do(max, s, Insert(commit));
    RowsGrow(max, s, Insert(commit));
    assert Answered(s') == Answered(s);
    forall k | 0 <= k < |s'.items| ensures ItemOk(s'.rows, s'.items[k], k < Answered(s')) {
      ItemKeeps(s.rows, s'.rows, s.items[k], k < Answered(s));
    }
    var events := Events(s.items, s.flush.batch);
    InsertAllKeeps(s.rows, events);
    forall k | commit == Committed && 0 <= k < |s.flush.batch|
      ensures HasKey(s'.rows, s'.items[s.flush.batch[k]].event)
    {
      assert HasKey(InsertAll(s.rows, events), events[k]);
    }
  }

  lemma ItemsElsewhere(max: nat, s: State, events: seq<Event>)
    requires max > 0 && ItemsOk(s) && Enabled(s, InsertElsewhere(events))
    ensures ItemsOk(Do(max, s, InsertElsewhere(events)))
  {
    var s' := Do(max, s, InsertElsewhere(events));
    RowsGrow(max, s, InsertElsewhere(events));
    forall k | 0 <= k < |s'.items| ensures ItemOk(s'.rows, s'.items[k], k < Answered(s')) {
      ItemKeeps(s.rows, s'.rows, s.items[k], k < Answered(s));
    }
    forall k | s.flush.Answering? && s.flush.answer == None && 0 <= k < |s.flush.batch|
      ensures HasKey(s'.rows, s'.items[s.flush.batch[k]].event)
    {
      PrefixKeepsKeys(s.rows, s'.rows, s.items[s.flush.batch[k]].event);
    }
  }

  /** The item answered next is the first unanswered one, and its channel is empty. */
  lemma NextItem(max: nat, s: State)
    requires QueueOk(max, s) && ItemsOk(s) && s.flush.Answering?
    ensures var k := s.flush.batch[s.flush.next];
            k == Answered(s) < |s.items| && s.items[k].done == [] && s.items[k].taken == 0
  {
    FlushedFirst(max, s.batcher);
    assert s.flush.batch[s.flush.next] == Answered(s);
  }

  lemma ItemsSend(max: nat, s: State)
    requires max > 0 && QueueOk(max, s) && ItemsOk(s) && Enabled(s, Send)
    ensures ItemsOk(Do(max, s, Send))
  {
    var s' := Do(max, s, Send);
    NextItem(max, s);
    QueueNext(max, s, Send);
    var j := s.flush.batch[s.flush.next];
    forall k | 0 <= k < |s'.items| ensures ItemOk(s'.rows, s'.items[k], k < Answered(s')) {
      if k != j { assert s'.items[k] == s.items[k]; }
    }
  }

  lemma ItemsReceive(max: nat, s: State, c: nat)
    requires max > 0 && QueueOk(max, s) && ItemsOk(s) && Enabled(s, Receive(c))
    ensures ItemsOk(Do(max, s, Receive(c)))
  {
    var s' := Do(max, s, Receive(c));
    forall k | 0 <= k < |s'.items| ensures ItemOk(s'.rows, s'.items[k], k < Answered(s')) {
      assert ItemOk(s.rows, s.items[k], k < Answered(s));
    }
  }

  lemma ItemsAdd(max: nat, s: State, c: nat)
    requires max > 0 && QueueOk(max, s) && ItemsOk(s) && CallsOk(s) && Enabled(s, Join(c))
    ensures ItemsOk(Do(max, s, Join(c)))
  {
    var s' := Do(max, s, Join(c));
    assert Answered(s') == Answered(s);
    forall k | 0 <= k < |s'.items| ensures ItemOk(s'.rows, s'.items[k], k < Answered(s')) {
      if k < |s.items| { assert s'.items[k] == s.items[k]; }
    }
  }

  lemma ItemsBatch(max: nat, s: State, b: B.Step<nat>)
    requires max > 0 && QueueOk(max, s) && ItemsOk(s) && Enabled(s, Batch(b))
    ensures ItemsOk(Do(max, s, Batch(b)))
  {
    QueueBatch(max, s, b);
  }

  lemma ItemsNext(max: nat, s: State, step: Step)
    requires max > 0 && Inv(max, s) && Enabled(s, step)
    ensures ItemsOk(Do(max, s, step))
  {
    match step
    case Insert(commit) => ItemsInsert(max, s, commit);
    case InsertElsewhere(events) => ItemsElsewhere(max, s, events);
    case Send => ItemsSend(max, s);
    case Receive(c) => ItemsReceive(max, s, c);
    case Join(c) => ItemsAdd(max, s, c);
    case Batch(b) => ItemsBatch(max, s, b);
    case _ =>
  }

  // ---- Steps of the calls --------------------------------------------------------------------

  /** Items keep their events, and new ones come at the end. */
  predicate SameEvents(items: seq<Item>, more: seq<Item>) {
    |items| <= |more| && forall k :: 0 <= k < |items| ==> more[k].event == items[k].event
  }

  lemma ItemsStay(max: nat, s: State, step: Step)
    requires max > 0 && Enabled(s, step) && step != Crash
    ensures SameEvents(s.items, Do(max, s, step).items)
  {
  }

  lemma CallKeeps(rows: seq<Event>, more: seq<Event>, items: seq<Item>, items': seq<Item>, call: Call)
    requires rows <= more && SameEvents(items, items') && CallOk(rows, items, call)
    ensures CallOk(more, items', call)
  {
    if call.phase == Returned(None) {
      PrefixKeepsIds(rows, more, call.event.id);
      if !call.hit { PrefixKeepsKeys(rows, more, call.event); }
    }
  }

  /** The call a step concerns, if it concerns one. */
  function Caller(s: State, step: Step): int {
    match step
    case Begin(_, _) => |s.calls|
    case Lookup(c, _) => c
    case Join(c) => c
    case Receive(c) => c
    case GiveUp(c) => c
    case _ => -1
  }

  lemma OthersStay(max: nat, s: State, step: Step, c: nat)
    requires max > 0 && Enabled(s, step) && step != Crash && c < |s.calls| && c != Caller(s, step)
    ensures c < |Do(max, s, step).calls| && Do(max, s, step).calls[c] == s.calls[c]
    ensures |Do(max, s, step).calls| == |s.calls| + (if step.Begin? then 1 else 0)
  {
  }

  lemma CallerNext(max: nat, s: State, step: Step)
    requires max > 0 && Inv(max, s) && Enabled(s, step) && Caller(s, step) >= 0
    ensures var s' := Do(max, s, step);
            Caller(s, step) < |s'.calls| == |s.calls| + (if step.Begin? then 1 else 0)
            && CallOk(s'.rows, s'.items, s'.calls[Caller(s, step)])
  {
    match step
    case Receive(c) => ReceivedStored(max, s, c);
    case _ =>
  }

  /** An item answered without an error is stored. */
  lemma ReceivedStored(max: nat, s: State, c: nat)
    requires max > 0 && Inv(max, s) && Enabled(s, Receive(c))
    ensures var item := s.items[s.calls[c].phase.item];
            item.event == s.calls[c].event && item.taken == 0 && |item.done| == 1
            && (item.done[0] == None ==> HasKey(s.rows, s.calls[c].event) && HasId(s.rows, s.calls[c].event.id))
  {
    var k := s.calls[c].phase.item;
    assert ItemOk(s.rows, s.items[k], k < Answered(s));
    assert CallOk(s.rows, s.items, s.calls[c]);
  }

  lemma CallsNext(max: nat, s: State, step: Step)
    requires max > 0 && Inv(max, s) && Enabled(s, step) && step != Crash
    ensures CallsOk(Do(max, s, step))
  {
    var s' := Do(max, s, step);
    RowsGrow(max, s, step);
    ItemsStay(max, s, step);
    if Caller(s, step) >= 0 { CallerNext(max, s, step); }
    forall c | 0 <= c < |s'.calls| ensures CallOk(s'.rows, s'.items, s'.calls[c]) {
      if c != Caller(s, step) {
        CallsLength(max, s, step);
        OthersStay(max, s, step, c);
        CallKeeps(s.rows, s'.rows, s.items, s'.items, s.calls[c]);
      }
    }
  }

  lemma CallsLength(max: nat, s: State, step: Step)
    requires max > 0 && Enabled(s, step)
    ensures |Do(max, s, step).calls| == |s.calls| + (if step.Begin? then 1 else 0)
  {
  }

  lemma CallsCrash(max: nat, s: State)
    requires max > 0 && CallsOk(s)
    ensures CallsOk(Do(max, s, Crash))
  {
    var s' := Do(max, s, Crash);
    forall c | 0 <= c < |s'.calls| ensures CallOk(s'.rows, s'.items, s'.calls[c]) {
      assert CallOk(s.rows, s.items, s.calls[c]);
    }
  }

  // ---- Runs ----------------------------------------------------------------------------------

  lemma StepInv(max: nat, s: State, step: Step)
    requires max > 0 && Inv(max, s) && Enabled(s, step)
    ensures Inv(max, Do(max, s, step))
  {
    QueueNext(max, s, step);
    ItemsNext(max, s, step);
    TableNext(max, s, step);
    if step == Crash { CallsCrash(max, s); } else { CallsNext(max, s, step); }
  }

  predicate Possible(max: nat, s: State, steps: seq<Step>)
    requires max > 0
    decreases |steps|
  {
    steps == [] || (Enabled(s, steps[0]) && Possible(max, Do(max, s, steps[0]), steps[1..]))
  }

  function Run(max: nat, s: State, steps: seq<Step>): State
    requires max > 0 && Possible(max, s, steps)
    decreases |steps|
  {
    if steps == [] then s else Run(max, Do(max, s, steps[0]), steps[1..])
  }

  lemma {:induction false} RunInv(max: nat, s: State, steps: seq<Step>)
    requires max > 0 && Inv(max, s) && Possible(max, s, steps)
    ensures Inv(max, Run(max, s, steps))
    decreases |steps|
  {
    if steps != [] {
      StepInv(max, s, steps[0]);
      RunInv(max, Do(max, s, steps[0]), steps[1..]);
    }
  }

  // ---- The theorems --------------------------------------------------------------------------

  /** In every run, with failed and ambiguous inserts, timeouts, crashes, redeliveries, other replicas
      and a dedup store that forgets: when Ingest has returned nil the event is stored, and when the
      dedup store knows an identifier a row with it is stored. */
  lemma NilMeansStored(max: nat, steps: seq<Step>)
    requires max > 0 && Possible(max, Start(), steps)
    ensures var s := Run(max, Start(), steps);
            && (forall c :: 0 <= c < |s.calls| && s.calls[c].phase == Returned(None) ==>
                  HasId(s.rows, s.calls[c].event.id) && (!s.calls[c].hit ==> HasKey(s.rows, s.calls[c].event)))
            && forall id :: id in s.seen ==> HasId(s.rows, id)
  {
    StartInv(max);
    RunInv(max, Start(), steps);
    var s := Run(max, Start(), steps);
    forall c | 0 <= c < |s.calls| && s.calls[c].phase == Returned(None)
      ensures HasId(s.rows, s.calls[c].event.id) && (!s.calls[c].hit ==> HasKey(s.rows, s.calls[c].event))
    {
      assert CallOk(s.rows, s.items, s.calls[c]);
    }
  }

  /** No completion channel ever gets a second value, and the flush callback never waits: when it comes
      to answer an item the channel is empty. */
  lemma FlushNeverBlocks(max: nat, steps: seq<Step>)
    requires max > 0 && Possible(max, Start(), steps)
    ensures var s := Run(max, Start(), steps);
            && (forall k :: 0 <= k < |s.items| ==> |s.items[k].done| <= 1)
            && (s.flush.Answering? ==> Enabled(s, Send) || Enabled(s, Mark(true)))
            && (s.flush.Inserting? ==> Enabled(s, Insert(Committed)))
  {
    StartInv(max);
    RunInv(max, Start(), steps);
    var s := Run(max, Start(), steps);
    if s.flush.Answering? { NextItem(max, s); }
    FlushedFirst(max, s.batcher);
    forall k | 0 <= k < |s.items| ensures |s.items[k].done| <= 1 {
      assert ItemOk(s.rows, s.items[k], k < Answered(s));
    }
  }

  /** The log is append-only: a row once stored stays as it is, at its place; keys are unique, and
      every row is well-formed, in particular none has the unset time. */
  lemma {:induction false} RowsOnlyAppended(max: nat, s: State, steps: seq<Step>)
    requires max > 0 && Possible(max, s, steps)
    ensures s.rows <= Run(max, s, steps).rows
    decreases |steps|
  {
    if steps != [] {
      RowsGrow(max, s, steps[0]);
      RowsOnlyAppended(max, Do(max, s, steps[0]), steps[1..]);
    }
  }

  lemma RowsWellFormed(max: nat, steps: seq<Step>)
    requires max > 0 && Possible(max, Start(), steps)
    ensures var rows := Run(max, Start(), steps).rows;
            UniqueKeys(rows) && forall i :: 0 <= i < |rows| ==> WellFormed(rows[i])
  {
    StartInv(max);
    RunInv(max, Start(), steps);
  }

  /** After Close, every item added before the stop has had its one answer. */
  lemma CloseAnswers(max: nat, steps: seq<Step>, k: nat)
    requires max > 0 && Possible(max, Start(), steps)
    requires var s := Run(max, Start(), steps);
             s.batcher.loop == B.Exited && s.flush == Idle && k < s.batcher.stoppedAt
    ensures var s := Run(max, Start(), steps);
            k < |s.items| && |s.items[k].done| == 1
  {
    StartInv(max);
    RunInv(max, Start(), steps);
    var s := Run(max, Start(), steps);
    assert k < Answered(s);
    assert ItemOk(s.rows, s.items[k], k < Answered(s));
  }

  // ---- One row an event ----------------------------------------------------------------------

  /** Every delivery of identifier `id` carries the time `t`. */
  predicate Carries(step: Step, id: Id, t: Time) {
    match step
    case Begin(raw, _) => raw.id == id ==> raw.time == t
    case InsertElsewhere(events) => forall k :: 0 <= k < |events| && events[k].id == id ==> events[k].time == t
    case _ => true
  }

  ghost predicate Timed(s: State, id: Id, t: Time) {
    && (forall i :: 0 <= i < |s.rows| && s.rows[i].id == id ==> s.rows[i].time == t)
    && (forall k :: 0 <= k < |s.items| && s.items[k].event.id == id ==> s.items[k].event.time == t)
    && (forall c :: 0 <= c < |s.calls| && s.calls[c].event.id == id ==> s.calls[c].event.time == t)
  }

  lemma InsertTimed(rows: seq<Event>, events: seq<Event>, id: Id, t: Time)
    requires forall i :: 0 <= i < |rows| && rows[i].id == id ==> rows[i].time == t
    requires forall k :: 0 <= k < |events| && events[k].id == id ==> events[k].time == t
    ensures forall i :: 0 <= i < |InsertAll(rows, events)| && InsertAll(rows, events)[i].id == id ==>
              InsertAll(rows, events)[i].time == t
  {
    forall i | 0 <= i < |InsertAll(rows, events)| && InsertAll(rows, events)[i].id == id
      ensures InsertAll(rows, events)[i].time == t
    {
      InsertedFrom(rows, events, i);
    }
  }

  lemma TimedNext(max: nat, s: State, step: Step, id: Id, t: Time)
    requires max > 0 && Enabled(s, step) && Timed(s, id, t) && Carries(step, id, t) && t != UNSET
    ensures Timed(Do(max, s, step), id, t)
  {
    match step
    case Insert(commit) => InsertTimed(s.rows, Events(s.items, s.flush.batch), id, t);
    case InsertElsewhere(events) => InsertTimed(s.rows, events, id, t);
    case _ =>
  }

  lemma {:induction false} RunTimed(max: nat, s: State, steps: seq<Step>, id: Id, t: Time)
    requires max > 0 && Possible(max, s, steps) && Timed(s, id, t) && t != UNSET
    requires forall i :: 0 <= i < |steps| ==> Carries(steps[i], id, t)
    ensures Timed(Run(max, s, steps), id, t)
    decreases |steps|
  {
    if steps != [] {
      TimedNext(max, s, steps[0], id, t);
      RunTimed(max, Do(max, s, steps[0]), steps[1..], id, t);
    }
  }

  /** An event that carries its own time is stored at most once, however often it is delivered. */
  lemma StoredOnce(max: nat, steps: seq<Step>, id: Id, t: Time, i: nat, j: nat)
    requires max > 0 && Possible(max, Start(), steps) && t != UNSET
    requires forall k :: 0 <= k < |steps| ==> Carries(steps[k], id, t)
    requires i < |Run(max, Start(), steps).rows| && Run(max, Start(), steps).rows[i].id == id
    requires j < |Run(max, Start(), steps).rows| && Run(max, Start(), steps).rows[j].id == id
    ensures i == j
  {
    StartInv(max);
    RunInv(max, Start(), steps);
    RunTimed(max, Start(), steps, id, t);
  }

  /** Every delivery of the identifier is this very event, here or in another replica. */
  ghost predicate Delivers(step: Step, raw: Event) {
    match step
    case Begin(r, _) => r.id == raw.id ==> r == raw
    case InsertElsewhere(events) =>
      forall k :: 0 <= k < |events| && events[k].id == raw.id ==>
        exists now: Time :: now != UNSET && events[k] == Completed(raw, now)
    case _ => true
  }

  /** In no run is the event stored twice. */
  ghost predicate NeverTwice(max: nat, raw: Event)
    requires max > 0
  {
    forall steps, i, j ::
      Possible(max, Start(), steps) && (forall k :: 0 <= k < |steps| ==> Delivers(steps[k], raw)) &&
      0 <= i < |Run(max, Start(), steps).rows| && Run(max, Start(), steps).rows[i].id == raw.id &&
      0 <= j < |Run(max, Start(), steps).rows| && Run(max, Start(), steps).rows[j].id == raw.id ==>
        i == j
  }

  lemma Precede(max: nat, s: State, step: Step, rest: seq<Step>)
    requires max > 0 && Enabled(s, step) && Possible(max, Do(max, s, step), rest)
    ensures Possible(max, s, [step] + rest)
    ensures Run(max, s, [step] + rest) == Run(max, Do(max, s, step), rest)
  {
    assert ([step] + rest)[1..] == rest;
  }

  lemma {:induction false} Concat(max: nat, s: State, a: seq<Step>, b: seq<Step>)
    requires max > 0 && Possible(max, s, a) && Possible(max, Run(max, s, a), b)
    ensures Possible(max, s, a + b) && Run(max, s, a + b) == Run(max, Run(max, s, a), b)
    decreases |a|
  {
    if a == [] {
      assert a + b == b;
    } else {
      Concat(max, Do(max, s, a[0]), a[1..], b);
      assert a + b == [a[0]] + (a[1..] + b);
      Precede(max, s, a[0], a[1..] + b);
    }
  }

  /** Nothing buffered and nothing in hand. */
  predicate Quiet(s: State) {
    s.batcher.loop == B.Waiting && s.batcher.active == [] && s.flush == Idle
  }

  /** The steps of a delivery that gets as far as the insert, whose answer is then lost in a crash. */
  function Delivery(c: nat, raw: Event, now: Time): seq<Step> {
    [Begin(raw, now), Lookup(c, false), Join(c)]
    + ([Batch(B.Tick), Batch(B.Swap)] + [Batch(B.FlushChunk), Insert(Unsure), Crash])
  }

  lemma DeliveryJoins(max: nat, s: State, raw: Event, now: Time)
    requires max > 0 && Quiet(s) && Acceptable(raw) && now != UNSET
    ensures var joins := [Begin(raw, now), Lookup(|s.calls|, false), Join(|s.calls|)];
            && Possible(max, s, joins)
            && var s' := Run(max, s, joins);
               && s'.batcher.loop == B.Waiting && s'.batcher.active == [|s.items|] && s'.flush == Idle
               && |s'.items| == |s.items| + 1 && s'.items[|s.items|].event == Completed(raw, now)
               && s'.items[|s.items|] == Item(Completed(raw, now), [], 0)
               && s'.rows == s.rows && |s'.calls| == |s.calls| + 1 && s'.calls[|s.calls|].phase == Waiting(|s.items|)
  {
    var c := |s.calls|;
    var s1 := Do(max, s, Begin(raw, now));
    var s2 := Do(max, s1, Lookup(c, false));
    var s3 := Do(max, s2, Join(c));
    assert Possible(max, s3, []) && Run(max, s3, []) == s3;
    Precede(max, s2, Join(c), []);
    Precede(max, s1, Lookup(c, false), [Join(c)]);
    Precede(max, s, Begin(raw, now), [Lookup(c, false)] + [Join(c)]);
    assert [Begin(raw, now)] + ([Lookup(c, false)] + [Join(c)]) == [Begin(raw, now), Lookup(c, false), Join(c)];
  }

  lemma DeliverySwaps(max: nat, s: State, k: nat)
    requires max > 0 && s.batcher.loop == B.Waiting && s.batcher.active == [k] && s.flush == Idle && k < |s.items|
    ensures var swaps := [Batch(B.Tick), Batch(B.Swap)];
            && Possible(max, s, swaps)
            && var s' := Run(max, s, swaps);
               && s'.batcher.loop == B.Flushing([k], false) && s'.flush == Idle
               && s'.items == s.items && s'.rows == s.rows && s'.calls == s.calls
  {
    var s1 := Do(max, s, Batch(B.Tick));
    var s2 := Do(max, s1, Batch(B.Swap));
    assert Possible(max, s2, []) && Run(max, s2, []) == s2;
    Precede(max, s1, Batch(B.Swap), []);
    Precede(max, s, Batch(B.Tick), [Batch(B.Swap)]);
    assert [Batch(B.Tick)] + [Batch(B.Swap)] == [Batch(B.Tick), Batch(B.Swap)];
  }

  lemma DeliveryInserts(max: nat, s: State, k: nat)
    requires max > 0 && s.batcher.loop == B.Flushing([k], false) && s.flush == Idle && k < |s.items|
    ensures var inserts := [Batch(B.FlushChunk), Insert(Unsure), Crash];
            && Possible(max, s, inserts)
            && var s' := Run(max, s, inserts);
               && Quiet(s') && s'.rows == AuditStore.Insert(s.rows, s.items[k].event)
               && |s'.calls| == |s.calls|
  {
    var s1 := Do(max, s, Batch(B.FlushChunk));
    assert [k][..1] == [k];
    assert s1.flush == Inserting([k]);
    var s2 := Do(max, s1, Insert(Unsure));
    var events := Events(s.items, [k]);
    assert events[..0] == [] && InsertAll(s.rows, []) == s.rows;
    assert s2.rows == AuditStore.Insert(s.rows, s.items[k].event);
    var s3 := Do(max, s2, Crash);
    assert Possible(max, s3, []) && Run(max, s3, []) == s3;
    Precede(max, s2, Crash, []);
    Precede(max, s1, Insert(Unsure), [Crash]);
    Precede(max, s, Batch(B.FlushChunk), [Insert(Unsure)] + [Crash]);
    assert [Batch(B.FlushChunk)] + ([Insert(Unsure)] + [Crash]) == [Batch(B.FlushChunk), Insert(Unsure), Crash];
  }

  lemma DeliveryStores(max: nat, s: State, raw: Event, now: Time)
    requires max > 0 && Quiet(s) && Acceptable(raw) && now != UNSET
    ensures Possible(max, s, Delivery(|s.calls|, raw, now))
    ensures var s' := Run(max, s, Delivery(|s.calls|, raw, now));
            Quiet(s') && s'.rows == AuditStore.Insert(s.rows, Completed(raw, now)) && |s'.calls| == |s.calls| + 1
  {
    var c, k := |s.calls|, |s.items|;
    DeliveryJoins(max, s, raw, now);
    var s1 := Run(max, s, [Begin(raw, now), Lookup(c, false), Join(c)]);
    DeliverySwaps(max, s1, k);
    var s2 := Run(max, s1, [Batch(B.Tick), Batch(B.Swap)]);
    DeliveryInserts(max, s2, k);
    Concat(max, s1, [Batch(B.Tick), Batch(B.Swap)], [Batch(B.FlushChunk), Insert(Unsure), Crash]);
    Concat(max, s, [Begin(raw, now), Lookup(c, false), Join(c)],
           [Batch(B.Tick), Batch(B.Swap)] + [Batch(B.FlushChunk), Insert(Unsure), Crash]);
  }

  /** Delivered twice at different times, an event without a time of its own is stored twice. */
  lemma UntimedTwice(max: nat, raw: Event)
    requires max > 0 && Acceptable(raw) && raw.time == UNSET
    ensures !NeverTwice(max, raw)
  {
    var first, second := Delivery(0, raw, 1), Delivery(1, raw, 2);
    DeliveryStores(max, Start(), raw, 1);
    var s1 := Run(max, Start(), first);
    DeliveryStores(max, s1, raw, 2);
    Concat(max, Start(), first, second);
    var rows := Run(max, Start(), first + second).rows;
    assert rows == [Completed(raw, 1), Completed(raw, 2)];
    assert forall k :: 0 <= k < |first + second| ==> Delivers((first + second)[k], raw);
    assert rows[0].id == raw.id && rows[1].id == raw.id;
  }

  /** Delivery is idempotent exactly for events that carry their own time. */
  lemma StoredOnceExactly(max: nat, raw: Event)
    requires max > 0 && Acceptable(raw)
    ensures NeverTwice(max, raw) <==> raw.time != UNSET
  {
    if raw.time == UNSET {
      UntimedTwice(max, raw);
    } else {
      forall steps, i, j |
        Possible(max, Start(), steps) && (forall k :: 0 <= k < |steps| ==> Delivers(steps[k], raw)) &&
        0 <= i < |Run(max, Start(), steps).rows| && Run(max, Start(), steps).rows[i].id == raw.id &&
        0 <= j < |Run(max, Start(), steps).rows| && Run(max, Start(), steps).rows[j].id == raw.id
        ensures i == j
      {
        forall k | 0 <= k < |steps| ensures Carries(steps[k], raw.id, raw.time) {
          assert Delivers(steps[k], raw);
        }
        StoredOnce(max, steps, raw.id, raw.time, i, j);
      }
    }
  }

  // ---- The flush callback itself -------------------------------------------------------------

  /** What the caller of Ingest waits on: its event and its completion channel. */
  class Pending {
    const event: Event
    var done: seq<Answer>

    constructor (event: Event)
      ensures this.event == event && done == []
    {
      this.event := event;
      done := [];
    }
  }

  /** The identifiers marked when `lands[k]` tells whether marking the k-th event gets through. */
  function MarkedIds(events: seq<Event>, lands: seq<bool>): set<Id>
    requires |lands| == |events|
  {
    MarkedFirst(events, lands, |events|)
  }

  /** Those among the first `n`. */
  function MarkedFirst(events: seq<Event>, lands: seq<bool>, n: nat): set<Id>
    requires n <= |events| == |lands|
  {
    set k | 0 <= k < n && lands[k] :: events[k].id
  }

  lemma MarkedNext(events: seq<Event>, lands: seq<bool>, n: nat)
    requires n < |events| == |lands|
    ensures MarkedFirst(events, lands, n + 1) == MarkedFirst(events, lands, n) + (if lands[n] then {events[n].id} else {})
  {
  }

  function AnswerTo(commit: Commit): Answer {
    if commit == Committed then None else Some(Unavailable)
  }

  class Ingestor {
    const store: Store
    var seen: set<Id>
    var flushed: nat
    var flushErrors: nat

    constructor (store: Store)
      ensures this.store == store && seen == {} && flushed == 0 && flushErrors == 0
    {
      this.store := store;
      seen, flushed, flushErrors := {}, 0, 0;
    }

    /** Ingest as far as the batcher: refuses an incomplete event; answers one whose identifier the dedup store knows;
        otherwise hands on the completed event. `works` tells whether the dedup store answers. */
    method Admit(raw: Event, now: Time, works: bool) returns (r: Result<Option<Event>>)
      requires now != UNSET
      ensures r.Err? <==> raw.id == 0 || raw.kind == ""
      ensures r.Err? ==> r.error == InvalidInput
      ensures r == Ok(None) <==> raw.id != 0 && raw.kind != "" && works && raw.id in seen
      ensures r.Ok? && r.value.Some? ==> r.value.value == Completed(raw, now)
    {
      var ev := Validate(raw, now);
      if ev.Err? {
        return Err(ev.error);
      }
      if works && ev.value.id in seen {
        return Ok(None);
      }
      return Ok(Some(ev.value));
    }

    /** The same error for every item. */
    static method Fail(batch: seq<Pending>, error: Answer)
      requires forall i, j :: 0 <= i < j < |batch| ==> batch[i] != batch[j]
      modifies batch
      ensures forall k :: 0 <= k < |batch| ==> batch[k].done == old(batch[k].done) + [error]
    {
      for n := 0 to |batch|
        invariant forall k :: 0 <= k < n ==> batch[k].done == old(batch[k].done) + [error]
        invariant forall k :: n <= k < |batch| ==> batch[k].done == old(batch[k].done)
      {
        batch[n].done := batch[n].done + [error];
      }
    }

    /** Marks and answers every item, in this order. */
    method Acknowledge(batch: seq<Pending>, ghost events: seq<Event>, lands: seq<bool>)
      requires forall i, j :: 0 <= i < j < |batch| ==> batch[i] != batch[j]
      requires |events| == |batch| == |lands| && forall k :: 0 <= k < |batch| ==> batch[k].event == events[k]
      modifies this`seen, batch
      ensures forall k :: 0 <= k < |batch| ==> batch[k].done == old(batch[k].done) + [None]
      ensures seen == old(seen) + MarkedIds(events, lands)
    {
      for n := 0 to |batch|
        invariant forall k :: 0 <= k < n ==> batch[k].done == old(batch[k].done) + [None]
        invariant forall k :: n <= k < |batch| ==> batch[k].done == old(batch[k].done)
        invariant seen == old(seen) + MarkedFirst(events, lands, n)
      {
        MarkedNext(events, lands, n);
        seen := seen + if lands[n] then {batch[n].event.id} else {};
        batch[n].done := batch[n].done + [None];
      }
    }

    /** Stores a batch and answers every item of it once; `commit` and `lands` are what the table and the
        dedup store do. An identifier is marked only after its row is stored. */
    method Flush(batch: seq<Pending>, ghost events: seq<Event>, commit: Commit, lands: seq<bool>) returns (answer: Answer)
      requires forall i, j :: 0 <= i < j < |batch| ==> batch[i] != batch[j]
      requires |events| == |batch| == |lands| && forall k :: 0 <= k < |batch| ==> batch[k].event == events[k]
      modifies this, store, batch
      ensures if commit == Committed then answer == None else answer == Some(Unavailable)
      ensures commit == Committed ==> forall k :: 0 <= k < |batch| && lands[k] ==> batch[k].event.id in seen
      ensures old(seen) <= seen && (commit != Committed ==> seen == old(seen))
      ensures store.rows == if commit == Refused then old(store.rows) else InsertAll(old(store.rows), events)
      ensures forall k :: 0 <= k < |batch| ==> batch[k].done == old(batch[k].done) + [answer]
      ensures seen == old(seen) + (if answer == None then MarkedIds(events, lands) else {})
      ensures flushed == old(flushed) + (if answer == None then |batch| else 0)
      ensures flushErrors == old(flushErrors) + (if answer == None then 0 else 1)
    {
      var written := [];
      for n := 0 to |batch|
        invariant written == events[..n]
      {
        written := written + [batch[n].event];
      }
      assert written == events;
      var stored := store.InsertBatch(written, commit);
      if stored.Err? {
        flushErrors := flushErrors + 1;
        answer := Some(Unavailable);
        Fail(batch, answer);
      } else {
        flushed := flushed + |batch|;
        answer := None;
        Acknowledge(batch, events, lands);
      }
    }
  }

  /** The steps of a call up to the batcher end as `Admit` does. */
  lemma AdmitLeads(max: nat, s: State, raw: Event, now: Time, works: bool) returns (steps: seq<Step>)
    requires max > 0 && now != UNSET
    ensures Possible(max, s, steps)
    ensures var s' := Run(max, s, steps);
            && |s'.calls| == |s.calls| + 1 && s'.calls[..|s.calls|] == s.calls && s' == s.(calls := s'.calls)
            && var call := s'.calls[|s.calls|];
               && call.event == Completed(raw, now)
               && (raw.id == 0 || raw.kind == "" ==> call.phase == Returned(Some(InvalidInput)))
               && (raw.id != 0 && raw.kind != "" && works && raw.id in s.seen ==> call.phase == Returned(None) && call.hit)
               && (raw.id != 0 && raw.kind != "" && !(works && raw.id in s.seen) ==> call.phase == Adding && !call.hit)
  {
    var c := |s.calls|;
    var s1 := Do(max, s, Begin(raw, now));
    if Acceptable(raw) {
      var s2 := Do(max, s1, Lookup(c, works));
      assert Possible(max, s2, []) && Run(max, s2, []) == s2;
      Precede(max, s1, Lookup(c, works), []);
      Precede(max, s, Begin(raw, now), [Lookup(c, works)] + []);
      steps := [Begin(raw, now)] + ([Lookup(c, works)] + []);
    } else {
      assert Possible(max, s1, []) && Run(max, s1, []) == s1;
      Precede(max, s, Begin(raw, now), []);
      steps := [Begin(raw, now)] + [];
    }
  }

  // ---- The callback refines the protocol -----------------------------------------------------

  /** One value more on a channel. */
  function SendTo(items: seq<Item>, k: nat, answer: Answer): seq<Item>
    requires k < |items|
  {
    items[k := items[k].(done := items[k].done + [answer])]
  }

  /** The batch numbers items, each once. */
  predicate Numbers(batch: seq<nat>, count: nat) {
    && (forall k :: 0 <= k < |batch| ==> batch[k] < count)
    && (forall i, j :: 0 <= i < j < |batch| ==> batch[i] != batch[j])
  }

  function SendFrom(items: seq<Item>, batch: seq<nat>, next: nat, answer: Answer): (r: seq<Item>)
    requires Numbers(batch, |items|)
    ensures |r| == |items|
    decreases |batch| - next
  {
    if next >= |batch| then items else SendFrom(SendTo(items, batch[next], answer), batch, next + 1, answer)
  }

  /** Each item of the batch gets one value more, and no other item any. */
  lemma {:induction false} SendFromOnce(items: seq<Item>, batch: seq<nat>, next: nat, answer: Answer, k: nat)
    requires Numbers(batch, |items|) && k < |items| && next <= |batch|
    ensures SendFrom(items, batch, next, answer)[k]
            == if k in batch[next..] then items[k].(done := items[k].done + [answer]) else items[k]
    decreases |batch| - next
  {
    if next < |batch| {
      SendFromOnce(SendTo(items, batch[next], answer), batch, next + 1, answer, k);
      assert batch[next..] == [batch[next]] + batch[next + 1..];
    }
  }

  /** The identifiers marked from the item `next` of the batch on. */
  function MarkFrom(seen: set<Id>, events: seq<Event>, lands: seq<bool>, next: nat): set<Id>
    requires |lands| == |events|
    decreases |events| - next
  {
    if next >= |events| then seen
    else MarkFrom(if lands[next] then seen + {events[next].id} else seen, events, lands, next + 1)
  }

  lemma {:induction false} MarkFromAdds(seen: set<Id>, events: seq<Event>, lands: seq<bool>, next: nat)
    requires |lands| == |events| && next <= |events|
    ensures MarkFrom(seen, events, lands, next) == seen + (set k | next <= k < |events| && lands[k] :: events[k].id)
    decreases |events| - next
  {
    if next < |events| {
      MarkFromAdds(if lands[next] then seen + {events[next].id} else seen, events, lands, next + 1);
    }
  }

  lemma AnswerOne(max: nat, s: State, lands: bool) returns (steps: seq<Step>)
    requires max > 0 && CanAnswer(s) && !s.flush.marked && HasRoom(s.items[s.flush.batch[s.flush.next]])
    ensures Possible(max, s, steps) && Crash !in steps
    ensures var k := s.flush.batch[s.flush.next];
            Run(max, s, steps) == DoSend(s).(
              seen := if s.flush.answer == None && lands then s.seen + {s.items[k].event.id} else s.seen)
              && DoSend(s).items == SendTo(s.items, k, s.flush.answer)
  {
    if s.flush.answer == None {
      var s1 := Do(max, s, Mark(lands));
      var s2 := Do(max, s1, Send);
      assert Possible(max, s2, []) && Run(max, s2, []) == s2;
      Precede(max, s1, Send, []);
      Precede(max, s, Mark(lands), [Send]);
      steps := [Mark(lands)] + [Send];
    } else {
      var s1 := Do(max, s, Send);
      assert Possible(max, s1, []) && Run(max, s1, []) == s1;
      Precede(max, s, Send, []);
      steps := [Send] + [];
    }
  }

  lemma {:induction false} AnswerAll(max: nat, s: State, events: seq<Event>, lands: seq<bool>) returns (steps: seq<Step>)
    requires max > 0 && CanAnswer(s) && !s.flush.marked && Numbers(s.flush.batch, |s.items|)
    requires |events| == |lands| == |s.flush.batch|
    requires forall k :: 0 <= k < |events| ==> s.items[s.flush.batch[k]].event == events[k]
    requires forall k :: s.flush.next <= k < |events| ==> HasRoom(s.items[s.flush.batch[k]])
    ensures Possible(max, s, steps) && Crash !in steps
    ensures Run(max, s, steps) == s.(
              flush := Idle,
              items := SendFrom(s.items, s.flush.batch, s.flush.next, s.flush.answer),
              seen := if s.flush.answer == None then MarkFrom(s.seen, events, lands, s.flush.next) else s.seen)
    decreases |events| - s.flush.next
  {
    var next := s.flush.next;
    steps := AnswerOne(max, s, lands[next]);
    if next + 1 < |events| {
      var s1 := Run(max, s, steps);
      var more := AnswerAll(max, s1, events, lands);
      Concat(max, s, steps, more);
      steps := steps + more;
    }
  }

  /** From the insert to the last answer, the callback's steps in the protocol have the effect that
      `Ingestor.Flush` has: the same rows, the same marks, one answer to every item of the batch. */
  lemma FlushLeads(max: nat, s: State, commit: Commit, lands: seq<bool>) returns (steps: seq<Step>)
    requires max > 0 && Enabled(s, Insert(commit)) && Numbers(s.flush.batch, |s.items|)
    requires |lands| == |s.flush.batch| > 0
    requires forall k :: 0 <= k < |lands| ==> HasRoom(s.items[s.flush.batch[k]])
    ensures Possible(max, s, steps) && Crash !in steps
    ensures var s', events := Run(max, s, steps), Events(s.items, s.flush.batch);
            && s'.flush == Idle && s'.calls == s.calls
            && s'.rows == (if commit == Refused then s.rows else InsertAll(s.rows, events))
            && s'.seen == s.seen + (if AnswerTo(commit) == None then MarkedIds(events, lands) else {})
            && s'.items == SendFrom(s.items, s.flush.batch, 0, AnswerTo(commit))
  {
    var events := Events(s.items, s.flush.batch);
    var rest := AnswerAll(max, Do(max, s, Insert(commit)), events, lands);
    Precede(max, s, Insert(commit), rest);
    MarkFromAdds(s.seen, events, lands, 0);
    steps := [Insert(commit)] + rest;
  }

  // ---- Calls return --------------------------------------------------------------------------

  /** In every reachable state a call that waits can return: with the answer of its item once that is there, and at
      any time as unavailable. So it returns nil exactly when it takes an answer that is nil. */
  lemma WaitingReturns(max: nat, steps: seq<Step>, c: nat)
    requires max > 0 && Possible(max, Start(), steps)
    requires c < |Run(max, Start(), steps).calls| && Run(max, Start(), steps).calls[c].phase.Waiting?
    ensures var s := Run(max, Start(), steps);
            && var k := s.calls[c].phase.item;
            && k < |s.items| && s.items[k].event == s.calls[c].event
            && Enabled(s, GiveUp(c)) && Do(max, s, GiveUp(c)).calls[c].phase == Returned(Some(Unavailable))
            && (Enabled(s, Receive(c)) <==> |s.items[k].done| == 1 && s.items[k].taken == 0)
            && (Enabled(s, Receive(c)) ==> Do(max, s, Receive(c)).calls[c].phase == Returned(s.items[k].done[0]))
  {
    var s := Run(max, Start(), steps);
    StartInv(max);
    RunInv(max, Start(), steps);
    assert CallOk(s.rows, s.items, s.calls[c]);
    assert ItemOk(s.rows, s.items[s.calls[c].phase.item], s.calls[c].phase.item < Answered(s));
  }

  /** What a batch of one item comes to when nothing goes wrong. */
  lemma OneFlushed(max: nat, s: State, c: nat, k: nat) returns (steps: seq<Step>)
    requires max > 0 && s.batcher.loop == B.Flushing([k], false) && s.flush == Idle && k < |s.items|
    requires s.items[k].taken == |s.items[k].done| && c < |s.calls| && s.calls[c].phase == Waiting(k)
    ensures Possible(max, s, steps) && Crash !in steps
    ensures var s' := Run(max, s, steps);
            && c < |s'.calls| && s'.calls[c].phase == Returned(None)
            && s'.rows == AuditStore.Insert(s.rows, s.items[k].event) && s.items[k].event.id in s'.seen
  {
    var s1 := Do(max, s, Batch(B.FlushChunk));
    assert [k][..1] == [k] && s1.flush == Inserting([k]);
    OneInserted(s, k);
    var rest := OneAnswered(max, s1, c, k);
    Precede(max, s, Batch(B.FlushChunk), rest);
    steps := [Batch(B.FlushChunk)] + rest;
  }

  lemma OneAnswered(max: nat, s: State, c: nat, k: nat) returns (steps: seq<Step>)
    requires max > 0 && s.flush == Inserting([k]) && k < |s.items|
    requires s.items[k].taken == |s.items[k].done| && c < |s.calls| && s.calls[c].phase == Waiting(k)
    ensures Possible(max, s, steps) && Crash !in steps
    ensures var s' := Run(max, s, steps);
            && c < |s'.calls| && s'.calls[c].phase == Returned(None)
            && s'.rows == InsertAll(s.rows, Events(s.items, [k])) && s'.seen == s.seen + MarkedIds(Events(s.items, [k]), [true])
  {
    var first := FlushLeads(max, s, Committed, [true]);
    var s1 := Run(max, s, first);
    SendFromOnce(s.items, [k], 0, None, k);
    assert [k][0..] == [k];
    var s2 := Do(max, s1, Receive(c));
    assert Possible(max, s2, []) && Run(max, s2, []) == s2;
    Precede(max, s1, Receive(c), []);
    Concat(max, s, first, [Receive(c)] + []);
    steps := first + ([Receive(c)] + []);
  }

  lemma OneInserted(s: State, k: nat)
    requires k < |s.items|
    ensures InsertAll(s.rows, Events(s.items, [k])) == AuditStore.Insert(s.rows, s.items[k].event)
    ensures s.items[k].event.id in MarkedIds(Events(s.items, [k]), [true])
  {
    var events := Events(s.items, [k]);
    assert events[..0] == [] && InsertAll(s.rows, []) == s.rows;
    assert [true][0] && events[0].id == s.items[k].event.id;
  }

  /** When nothing goes wrong, an acceptable event is stored and marked, and the call that brought it returns nil. */
  lemma DeliveryAcknowledged(max: nat, s: State, raw: Event, now: Time) returns (steps: seq<Step>)
    requires max > 0 && Quiet(s) && Acceptable(raw) && now != UNSET
    ensures Possible(max, s, steps) && Crash !in steps && steps != [] && steps[0] == Begin(raw, now)
    ensures var s' := Run(max, s, steps);
            && |s.calls| < |s'.calls| && s'.calls[|s.calls|].phase == Returned(None)
            && s'.rows == AuditStore.Insert(s.rows, Completed(raw, now)) && HasKey(s'.rows, Completed(raw, now))
            && raw.id in s'.seen
  {
    var c, k := |s.calls|, |s.items|;
    var joins, swaps := [Begin(raw, now), Lookup(c, false), Join(c)], [Batch(B.Tick), Batch(B.Swap)];
    DeliveryJoins(max, s, raw, now);
    var s1 := Run(max, s, joins);
    DeliverySwaps(max, s1, k);
    var s2 := Run(max, s1, swaps);
    var rest := OneFlushed(max, s2, c, k);
    Concat(max, s1, swaps, rest);
    Concat(max, s, joins, swaps + rest);
    InsertKeeps(s.rows, Completed(raw, now));
    steps := joins + (swaps + rest);
  }
}
