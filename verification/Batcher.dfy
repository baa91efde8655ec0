/** Micro-batching with a swapped buffer, a wake-up token and a background loop. */
module Batcher {

  // ---- Chunks --------------------------------------------------------------------------------

  /** A buffer cut into flushes of at most `max` items. */
  function Chunks<T>(batch: seq<T>, max: nat): seq<seq<T>>
    requires max > 0
    decreases |batch|
  {
    if batch == [] then []
    else if |batch| <= max then [batch]
    else [batch[..max]] + Chunks(batch[max..], max)
  }

  function Flatten<T>(chunks: seq<seq<T>>): seq<T> {
    if chunks == [] then [] else Flatten(chunks[..|chunks| - 1]) + chunks[|chunks| - 1]
  }

  lemma FlattenSnoc<T>(chunks: seq<seq<T>>, c: seq<T>)
    ensures Flatten(chunks + [c]) == Flatten(chunks) + c
  {
    assert (chunks + [c])[..|chunks|] == chunks;
  }

  lemma {:induction false} FlattenConcat<T>(a: seq<seq<T>>, b: seq<seq<T>>)
    ensures Flatten(a + b) == Flatten(a) + Flatten(b)
    decreases |b|
  {
    if b == [] {
      assert a + b == a;
    } else {
      var n := |b| - 1;
      assert a + b == (a + b[..n]) + [b[n]];
      FlattenConcat(a, b[..n]);
      FlattenSnoc(a + b[..n], b[n]);
    }
  }

  /** Cutting loses and reorders nothing; every cut is full except possibly the last. */
  lemma {:induction false} ChunksKeep<T>(batch: seq<T>, max: nat)
    requires max > 0
    ensures Flatten(Chunks(batch, max)) == batch
    ensures forall k :: 0 <= k < |Chunks(batch, max)| ==> 1 <= |Chunks(batch, max)[k]| <= max
    ensures forall k :: 0 <= k < |Chunks(batch, max)| - 1 ==> |Chunks(batch, max)[k]| == max
    decreases |batch|
  {
    if batch == [] {
    } else if |batch| <= max {
    } else {
      ChunksKeep(batch[max..], max);
      FlattenConcat([batch[..max]], Chunks(batch[max..], max));
    }
  }

  // ---- The batcher ---------------------------------------------------------------------------

  class Batcher<T> {
    const max: nat
    var active: seq<T>
    var kick: bool
    var flushed: seq<seq<T>>

    constructor (maxSize: int)
      ensures max == if maxSize <= 0 then 500 else maxSize
      ensures active == [] && !kick && flushed == []
    {
      max := if maxSize <= 0 then 500 else maxSize;
      active, kick, flushed := [], false, [];
    }

    /** Appends an item, and leaves a wake-up token when the buffer is full, unless one is there already. */
    method Add(item: T)
      modifies this`active, this`kick
      ensures active == old(active) + [item]
      ensures kick == (old(kick) || |active| >= max)
    {
      active := active + [item];
      var full := |active| >= max;
      if full {
        kick := true;
      }
    }

    /** Swaps the buffer out and flushes it in chunks. */
    method SwapAndFlush()
      requires max > 0
      modifies this
      ensures active == [] && kick == old(kick)
      ensures flushed == old(flushed) + Chunks(old(active), max)
    {
      assert flushed + [] == flushed;
      if |active| == 0 {
        return;
      }
      var batch := active;
      active := [];
      var start := 0;
      assert batch[0..] == batch;
      while start < |batch|
        invariant start <= |batch| && active == [] && kick == old(kick)
        invariant flushed + Chunks(batch[start..], max) == old(flushed) + Chunks(batch, max)
        decreases |batch| - start
      {
        var end := if start + max < |batch| then start + max else |batch|;
        NextChunk(flushed, batch, start, end, max);
        flushed := flushed + [batch[start..end]];
        start := end;
      }
      assert batch[start..] == [] && flushed + [] == flushed;
    }
  }

  lemma NextChunk<T>(before: seq<seq<T>>, batch: seq<T>, start: nat, end: nat, max: nat)
    requires max > 0 && start < |batch|
    requires end == if start + max < |batch| then start + max else |batch|
    ensures before + Chunks(batch[start..], max) == before + [batch[start..end]] + Chunks(batch[end..], max)
  {
    var rest := batch[start..];
    if |rest| <= max {
      assert batch[start..end] == rest && batch[end..] == [];
    } else {
      assert rest[..max] == batch[start..end] && rest[max..] == batch[end..];
    }
  }

  // ---- The protocol --------------------------------------------------------------------------

  /** What the background loop is doing; `last` marks the drain after stop. */
  datatype Loop<T> = Waiting | Swapping(last: bool) | Flushing(rest: seq<T>, last: bool) | Exited

  /** `added` is everything ever added, in order, and `stoppedAt` how much of it came before the stop.
      `kickers` are the producers that filled the buffer and are about to leave the token. */
  datatype State<T> = State(
    added: seq<T>,
    active: seq<T>,
    kick: bool,
    kickers: nat,
    stopped: bool,
    stoppedAt: nat,
    loop: Loop<T>,
    flushed: seq<seq<T>>)

  datatype Step<T> = Add(item: T) | KickIn | Tick | Woken | Stop | TakeStop | Swap | FlushChunk

  predicate Enabled<T>(s: State<T>, step: Step<T>) {
    match step
    case Add(_) => true
    case KickIn => s.kickers > 0
    case Tick => s.loop == Waiting
    case Woken => s.loop == Waiting && s.kick
    case Stop => true
    case TakeStop => s.loop == Waiting && s.stopped
    case Swap => s.loop.Swapping?
    case FlushChunk => s.loop.Flushing? && s.loop.rest != []
  }

  /** Where the loop goes when a buffer is flushed. */
  function AfterFlush<T>(last: bool): Loop<T> {
    if last then Exited else Waiting
  }

  function Do<T>(max: nat, s: State<T>, step: Step<T>): State<T>
    requires max > 0 && Enabled(s, step)
  {
    match step
    case Add(item) =>
      var active := s.active + [item];
      s.(added := s.added + [item], active := active, kickers := if |active| >= max then s.kickers + 1 else s.kickers)
    case KickIn => s.(kickers := s.kickers - 1, kick := true)
    case Tick => s.(loop := Swapping(false))
    case Woken => s.(loop := Swapping(false), kick := false)
    case Stop => if s.stopped then s else s.(stopped := true, stoppedAt := |s.added|)
    case TakeStop => s.(loop := Swapping(true))
    case Swap =>
      if s.active == [] then s.(loop := AfterFlush(s.loop.last))
      else s.(active := [], loop := Flushing(s.active, s.loop.last))
    case FlushChunk =>
      var n := if max < |s.loop.rest| then max else |s.loop.rest|;
      s.(flushed := s.flushed + [s.loop.rest[..n]],
         loop := if n == |s.loop.rest| then AfterFlush(s.loop.last) else Flushing(s.loop.rest[n..], s.loop.last))
  }

  /** The part of the swapped buffer that is still to be flushed. */
  function Rest<T>(loop: Loop<T>): seq<T> {
    if loop.Flushing? then loop.rest else []
  }

  /** The loop has swapped for the last time. */
  predicate Drained<T>(loop: Loop<T>) {
    loop.Exited? || (loop.Flushing? && loop.last)
  }

  ghost predicate Inv<T>(max: nat, s: State<T>) {
    && Account(Flatten(s.flushed), Rest(s.loop), s.active) == s.added
    && (forall k :: 0 <= k < |s.flushed| ==> 1 <= |s.flushed[k]| <= max)
    && (s.loop.Flushing? ==> s.loop.rest != [])
    && (|s.active| >= max ==> s.kick || s.kickers > 0 || s.loop.Swapping? || Drained(s.loop))
    && ((s.loop.Swapping? || s.loop.Flushing?) && s.loop.last ==> s.stopped)
    && (s.loop.Exited? ==> s.stopped)
    && s.stoppedAt <= |s.added|
    && (Drained(s.loop) ==> s.stoppedAt <= |Flatten(s.flushed)| + |Rest(s.loop)|)
  }

  function Fresh<T>(): State<T> {
    State([], [], false, 0, false, 0, Waiting, [])
  }

  lemma FreshInv<T>(max: nat)
    requires max > 0
    ensures Inv<T>(max, Fresh())
  {
  }

  lemma SeqAssoc<T>(a: seq<T>, b: seq<T>, c: seq<T>)
    ensures a + b + c == a + (b + c)
  {
  }

  /** Items handed over, being flushed and buffered. */
  function Account<T>(done: seq<T>, rest: seq<T>, active: seq<T>): seq<T> {
    done + rest + active
  }

  lemma FlushFacts<T>(max: nat, s: State<T>, s': State<T>)
    requires max > 0 && Enabled(s, FlushChunk) && s' == Do(max, s, FlushChunk)
    ensures Account(Flatten(s'.flushed), Rest(s'.loop), s.active) == Account(Flatten(s.flushed), Rest(s.loop), s.active)
    ensures |Flatten(s'.flushed)| + |Rest(s'.loop)| == |Flatten(s.flushed)| + |Rest(s.loop)|
    ensures |s'.flushed| == |s.flushed| + 1 && s'.flushed[..|s.flushed|] == s.flushed
    ensures 1 <= |s'.flushed[|s.flushed|]| <= max
  {
    var rest := s.loop.rest;
    var n := if max < |rest| then max else |rest|;
    FlattenSnoc(s.flushed, rest[..n]);
    assert Rest(s'.loop) == rest[n..];
  }

  lemma FlushInv<T>(max: nat, s: State<T>)
    requires max > 0 && Inv(max, s) && Enabled(s, FlushChunk)
    ensures Inv(max, Do(max, s, FlushChunk))
  {
    var s' := Do(max, s, FlushChunk);
    FlushFacts(max, s, s');
    OneMore(max, s.flushed, s'.flushed);
  }

  lemma OneMore<T>(max: nat, flushed: seq<seq<T>>, more: seq<seq<T>>)
    requires |more| == |flushed| + 1 && more[..|flushed|] == flushed && 1 <= |more[|flushed|]| <= max
    requires forall k :: 0 <= k < |flushed| ==> 1 <= |flushed[k]| <= max
    ensures forall k :: 0 <= k < |more| ==> 1 <= |more[k]| <= max
  {
    forall k | 0 <= k < |more| ensures 1 <= |more[k]| <= max {
      if k < |flushed| { assert more[k] == more[..|flushed|][k]; }
    }
  }

  lemma AddInv<T>(max: nat, s: State<T>, item: T)
    requires max > 0 && Inv(max, s)
    ensures Inv(max, Do(max, s, Add(item)))
  {
    SeqAssoc(Flatten(s.flushed) + Rest(s.loop), s.active, [item]);
  }

  lemma SwapInv<T>(max: nat, s: State<T>)
    requires max > 0 && Inv(max, s) && Enabled(s, Swap)
    ensures Inv(max, Do(max, s, Swap))
  {
    assert Flatten(s.flushed) + [] + s.active == Flatten(s.flushed) + s.active + [];
  }

  /** Every step, of any producer, the loop or the closer, keeps the invariant. */
  lemma StepInv<T>(max: nat, s: State<T>, step: Step<T>)
    requires max > 0 && Inv(max, s) && Enabled(s, step)
    ensures Inv(max, Do(max, s, step))
  {
    match step
    case Add(item) => AddInv(max, s, item);
    case Swap => SwapInv(max, s);
    case FlushChunk => FlushInv(max, s);
    case _ =>
  }

  predicate Possible<T>(max: nat, s: State<T>, steps: seq<Step<T>>)
    requires max > 0
    decreases |steps|
  {
    steps == [] || (Enabled(s, steps[0]) && Possible(max, Do(max, s, steps[0]), steps[1..]))
  }

  function Run<T>(max: nat, s: State<T>, steps: seq<Step<T>>): State<T>
    requires max > 0 && Possible(max, s, steps)
    decreases |steps|
  {
    if steps == [] then s else Run(max, Do(max, s, steps[0]), steps[1..])
  }

  lemma {:induction false} RunInv<T>(max: nat, s: State<T>, steps: seq<Step<T>>)
    requires max > 0 && Inv(max, s) && Possible(max, s, steps)
    ensures Inv(max, Run(max, s, steps))
    decreases |steps|
  {
    if steps != [] {
      StepInv(max, s, steps[0]);
      RunInv(max, Do(max, s, steps[0]), steps[1..]);
    }
  }

  /** In every run: what was flushed, what is being flushed and what is buffered are the items added,
      in order, each once; and every flush has between 1 and `max` items. */
  lemma Conservation<T>(max: nat, steps: seq<Step<T>>)
    requires max > 0 && Possible(max, Fresh(), steps)
    ensures var s := Run(max, Fresh(), steps);
            && Flatten(s.flushed) + Rest(s.loop) + s.active == s.added
            && forall k :: 0 <= k < |s.flushed| ==> 1 <= |s.flushed[k]| <= max
  {
    FreshInv<T>(max);
    RunInv(max, Fresh(), steps);
  }

  /** No lost wake-up: before the stop, a full buffer always has a token waiting, a producer about to
      leave one, or the loop about to swap. */
  lemma NoLostWakeup<T>(max: nat, steps: seq<Step<T>>)
    requires max > 0 && Possible(max, Fresh(), steps)
    ensures var s := Run(max, Fresh(), steps);
            !s.stopped && |s.active| >= max ==> s.kick || s.kickers > 0 || s.loop.Swapping?
  {
    FreshInv<T>(max);
    RunInv(max, Fresh(), steps);
  }

  /** Once the loop has exited, so that Close has returned, every item added before the stop has been
      handed to a flush, in order and exactly once. */
  lemma CloseFlushes<T>(max: nat, steps: seq<Step<T>>)
    requires max > 0 && Possible(max, Fresh(), steps)
    ensures var s := Run(max, Fresh(), steps);
            s.loop == Exited ==>
              s.stoppedAt <= |s.added| && s.added[..s.stoppedAt] <= Flatten(s.flushed) <= s.added
  {
    FreshInv<T>(max);
    RunInv(max, Fresh(), steps);
    var s := Run(max, Fresh(), steps);
    if s.loop == Exited {
      FirstPart(Flatten(s.flushed), s.active, s.added, s.stoppedAt);
    }
  }

  lemma FirstPart<T>(done: seq<T>, rest: seq<T>, all: seq<T>, n: nat)
    requires Account(done, [], rest) == all && n <= |done|
    ensures n <= |all| && all[..n] <= done <= all
  {
    assert done + [] + rest == done + rest;
    assert done == all[..|done|];
  }

  /** The loop's flushes of one buffer, taken one step at a time, are what `SwapAndFlush` does at once,
      whatever is added meanwhile. */
  lemma {:induction false} FlushSteps<T>(max: nat, s: State<T>) returns (steps: seq<Step<T>>)
    requires max > 0 && s.loop.Flushing? && s.loop.rest != []
    ensures Possible(max, s, steps)
    ensures Run(max, s, steps) == s.(flushed := s.flushed + Chunks(s.loop.rest, max), loop := AfterFlush(s.loop.last))
    decreases |s.loop.rest|
  {
    var s1 := Do(max, s, FlushChunk);
    var rest := s.loop.rest;
    if |rest| <= max {
      steps := [FlushChunk];
      assert steps[1..] == [] && rest[..|rest|] == rest;
      assert Possible(max, s1, []) && Run(max, s1, []) == s1;
    } else {
      var more := FlushSteps(max, s1);
      steps := [FlushChunk] + more;
      assert steps[1..] == more;
      assert s.flushed + [rest[..max]] + Chunks(rest[max..], max) == s.flushed + ([rest[..max]] + Chunks(rest[max..], max));
    }
  }

  // ---- Close returns -------------------------------------------------------------------------

  /** The run adds nothing. */
  predicate NoAdd<T>(steps: seq<Step<T>>) {
    forall i :: 0 <= i < |steps| ==> !steps[i].Add?
  }

  lemma Precede<T>(max: nat, s: State<T>, step: Step<T>, rest: seq<Step<T>>)
    requires max > 0 && Enabled(s, step) && Possible(max, Do(max, s, step), rest)
    ensures Possible(max, s, [step] + rest)
    ensures Run(max, s, [step] + rest) == Run(max, Do(max, s, step), rest)
  {
    assert ([step] + rest)[1..] == rest;
  }

  /** How far a stopped loop is from its end. */
  function LoopWork<T>(s: State<T>): nat {
    match s.loop
    case Exited => 0
    case Flushing(rest, last) => |rest| + (if last then 0 else |s.active| + 3)
    case Swapping(last) => |s.active| + 1 + (if last then 0 else 3)
    case Waiting => |s.active| + 2
  }

  function LoopStep<T>(loop: Loop<T>): Step<T>
    requires loop != Exited
  {
    match loop
    case Waiting => TakeStop
    case Swapping(_) => Swap
    case Flushing(_, _) => FlushChunk
  }

  lemma LoopMoves<T>(max: nat, s: State<T>)
    requires max > 0 && s.stopped && s.loop != Exited && (s.loop.Flushing? ==> s.loop.rest != [])
    ensures var step := LoopStep(s.loop);
            && Enabled(s, step)
            && var s' := Do(max, s, step);
               s'.stopped && (s'.loop.Flushing? ==> s'.loop.rest != []) && LoopWork(s') < LoopWork(s)
  {
  }

  lemma {:induction false} EndLoop<T>(max: nat, s: State<T>) returns (steps: seq<Step<T>>)
    requires max > 0 && s.stopped && (s.loop.Flushing? ==> s.loop.rest != [])
    ensures NoAdd(steps) && Possible(max, s, steps) && Run(max, s, steps).loop == Exited
    decreases LoopWork(s)
  {
    if s.loop == Exited {
      steps := [];
    } else {
      LoopMoves(max, s);
      var step := LoopStep(s.loop);
      var rest := EndLoop(max, Do(max, s, step));
      Precede(max, s, step, rest);
      steps := [step] + rest;
    }
  }

  /** Close can always return: from every reachable stopped state, steps that add nothing lead to where the loop
      has exited. */
  lemma CloseReturns<T>(max: nat, before: seq<Step<T>>) returns (steps: seq<Step<T>>)
    requires max > 0 && Possible(max, Fresh(), before) && Run(max, Fresh(), before).stopped
    ensures NoAdd(steps) && Possible(max, Run(max, Fresh(), before), steps)
    ensures Run(max, Run(max, Fresh(), before), steps).loop == Exited
  {
    FreshInv<T>(max);
    RunInv(max, Fresh(), before);
    steps := EndLoop(max, Run(max, Fresh(), before));
  }
}
