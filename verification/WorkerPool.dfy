/** The auto-scaling worker pool: a bounded queue, permanent and transient workers, one grower. */
module WorkerPool {
  import opened Values

  const MAX_POOL_SIZE := 1048576

  datatype Config = Config(min: int, max: int, queueSize: int) {
    /** Unset or excessive fields take their defaults and bounds. */
    function Defaults(): (c: Config)
      ensures 1 <= c.min <= c.max <= 1048576 && c.queueSize >= 1
      ensures 1 <= min <= max <= 1048576 ==> c.min == min && c.max == max
      ensures (min <= 0 ==> c.min == 1) && (min > 1048576 ==> c.min == 1048576) && (1 <= min <= 1048576 ==> c.min == min)
      ensures (max < c.min ==> c.max == c.min) && (max > 1048576 ==> c.max == 1048576)
      ensures if queueSize <= 0 then c.queueSize == 64 else c.queueSize == queueSize
    {
      var lo := if min <= 0 then 1 else if min > MAX_POOL_SIZE then MAX_POOL_SIZE else min;
      var hi := if max < lo then lo else max;
      Config(lo, if hi > MAX_POOL_SIZE then MAX_POOL_SIZE else hi, if queueSize <= 0 then 64 else queueSize)
    }
  }

  // ---- The state -----------------------------------------------------------------------------

  /** Where a worker is: waiting; running a task; between reading the counter and giving itself up;
      draining; running a task while draining; past the drain; gone. */
  datatype Pc = Idle | Running(task: nat) | Retiring | Draining | DrainRunning(task: nat) | Leaving | Gone

  datatype Worker = Worker(transient: bool, pc: Pc)

  /** Where the grower is: between ticks; in its loop; past the bound check; past the increment but
      before the new worker exists; stopped. */
  datatype Grower = Resting | Growing(i: nat, grow: nat) | Cleared(i: nat, grow: nat) | Spawning(i: nat, grow: nat) | Stopped

  /** Tasks are numbered in the order they were accepted; `acceptedBefore` counts those accepted before
      Close began; `ran` is the order in which tasks finished; `drained` tells whether some worker has
      found the queue empty after Close began. */
  datatype State = State(
    counter: int,
    workers: seq<Worker>,
    queue: seq<nat>,
    grower: Grower,
    stopped: bool,
    accepted: nat,
    acceptedBefore: nat,
    ran: seq<nat>,
    drained: bool)

  datatype Step =
    | Submit
    | Take(w: nat)
    | Finish(w: nat)
    | IdleTimer(w: nat)
    | Retire(w: nat)
    | SeeStop(w: nat)
    | DrainTake(w: nat)
    | DrainFinish(w: nat)
    | DrainEmpty(w: nat)
    | Leave(w: nat)
    | GrowTick
    | GrowCheck
    | GrowAdd
    | GrowGo
    | GrowStop
    | Close

  predicate At(s: State, w: nat, pc: Pc) {
    w < |s.workers| && s.workers[w].pc == pc
  }

  predicate Enabled(cfg: Config, s: State, step: Step) {
    match step
    case Submit => |s.queue| < cfg.queueSize
    case Take(w) => At(s, w, Idle) && s.queue != []
    case Finish(w) => w < |s.workers| && s.workers[w].pc.Running?
    case IdleTimer(w) => At(s, w, Idle)
    case Retire(w) => At(s, w, Retiring)
    case SeeStop(w) => At(s, w, Idle) && s.stopped
    case DrainTake(w) => At(s, w, Draining) && s.queue != []
    case DrainFinish(w) => w < |s.workers| && s.workers[w].pc.DrainRunning?
    case DrainEmpty(w) => At(s, w, Draining) && s.queue == []
    case Leave(w) => At(s, w, Leaving)
    case GrowTick => s.grower == Resting
    case GrowCheck => s.grower.Growing?
    case GrowAdd => s.grower.Cleared?
    case GrowGo => s.grower.Spawning?
    case GrowStop => s.grower == Resting && s.stopped
    case Close => true
  }

  function Set(ws: seq<Worker>, w: nat, pc: Pc): seq<Worker>
    requires w < |ws|
  {
    ws[w := ws[w].(pc := pc)]
  }

  function Do(cfg: Config, s: State, step: Step): State
    requires Enabled(cfg, s, step)
  {
    match step
    case Submit => s.(queue := s.queue + [s.accepted], accepted := s.accepted + 1)
    case Take(w) => s.(workers := Set(s.workers, w, Running(s.queue[0])), queue := s.queue[1..])
    case Finish(w) => s.(workers := Set(s.workers, w, Idle), ran := s.ran + [s.workers[w].pc.task])
    case IdleTimer(w) =>
      if s.workers[w].transient && s.counter > cfg.min then s.(workers := Set(s.workers, w, Retiring)) else s
    case Retire(w) => s.(workers := Set(s.workers, w, Gone), counter := s.counter - 1)
    case SeeStop(w) => s.(workers := Set(s.workers, w, Draining))
    case DrainTake(w) => s.(workers := Set(s.workers, w, DrainRunning(s.queue[0])), queue := s.queue[1..])
    case DrainFinish(w) => s.(workers := Set(s.workers, w, Draining), ran := s.ran + [s.workers[w].pc.task])
    case DrainEmpty(w) => s.(workers := Set(s.workers, w, Leaving), drained := true)
    case Leave(w) => s.(workers := Set(s.workers, w, Gone), counter := s.counter - 1)
    case GrowTick =>
      if |s.queue| == 0 || s.counter >= cfg.max then s else s.(grower := Growing(0, |s.queue| / 2 + 1))
    case GrowCheck =>
      if s.grower.i < s.grower.grow && s.counter < cfg.max
      then s.(grower := Cleared(s.grower.i, s.grower.grow)) else s.(grower := Resting)
    case GrowAdd => s.(counter := s.counter + 1, grower := Spawning(s.grower.i, s.grower.grow))
    case GrowGo =>
      s.(workers := s.workers + [Worker(true, Idle)], grower := Growing(s.grower.i + 1, s.grower.grow))
    case GrowStop => s.(grower := Stopped)
    case Close => if s.stopped then s else s.(stopped := true, acceptedBefore := s.accepted)
  }

  /** The pool as New returns it. */
  function Start(cfg: Config): State
    requires cfg.min >= 0
  {
    State(cfg.min, seq(cfg.min, _ => Worker(false, Idle)), [], Resting, false, 0, 0, [], false)
  }

  // ---- Counting workers ----------------------------------------------------------------------

  function Live(ws: seq<Worker>): nat {
    if ws == [] then 0 else Live(ws[..|ws| - 1]) + (if ws[|ws| - 1].pc == Gone then 0 else 1)
  }

  function LiveTransient(ws: seq<Worker>): nat {
    if ws == [] then 0
    else LiveTransient(ws[..|ws| - 1]) + (if ws[|ws| - 1].transient && ws[|ws| - 1].pc != Gone then 1 else 0)
  }

  lemma {:induction false} LiveSet(ws: seq<Worker>, w: nat, pc: Pc)
    requires w < |ws| && ws[w].pc != Gone
    ensures Live(Set(ws, w, pc)) == Live(ws) - (if pc == Gone then 1 else 0)
    decreases |ws|
  {
    var n := |ws| - 1;
    if w == n {
      assert Set(ws, w, pc)[..n] == ws[..n];
    } else {
      assert Set(ws, w, pc)[..n] == Set(ws[..n], w, pc);
      LiveSet(ws[..n], w, pc);
    }
  }

  lemma LiveAdd(ws: seq<Worker>, w: Worker)
    ensures Live(ws + [w]) == Live(ws) + (if w.pc == Gone then 0 else 1)
  {
    assert (ws + [w])[..|ws|] == ws;
  }

  /** The first `min` workers are the permanent ones. */
  ghost predicate Ranks(cfg: Config, ws: seq<Worker>) {
    cfg.min <= |ws| && forall i :: 0 <= i < |ws| ==> (ws[i].transient <==> i >= cfg.min)
  }

  /** With every permanent worker there, the live workers are these and the live transient ones. */
  lemma {:induction false} LiveSplits(cfg: Config, ws: seq<Worker>, n: nat)
    requires Ranks(cfg, ws) && n <= |ws| && cfg.min >= 0
    requires forall i :: 0 <= i < cfg.min ==> ws[i].pc != Gone
    ensures Live(ws[..n]) == LiveTransient(ws[..n]) + (if n < cfg.min then n else cfg.min)
    decreases n
  {
    if n > 0 {
      assert ws[..n][..n - 1] == ws[..n - 1];
      LiveSplits(cfg, ws, n - 1);
    }
  }

  // ---- Accounting for tasks ------------------------------------------------------------------

  /** How often a worker holds task `t`. */
  function Holds(w: Worker, t: nat): nat {
    match w.pc
    case Running(u) => if u == t then 1 else 0
    case DrainRunning(u) => if u == t then 1 else 0
    case _ => 0
  }

  function Busy(ws: seq<Worker>, t: nat): nat {
    if ws == [] then 0 else Busy(ws[..|ws| - 1], t) + Holds(ws[|ws| - 1], t)
  }

  lemma {:induction false} BusySet(ws: seq<Worker>, w: nat, pc: Pc, t: nat)
    requires w < |ws|
    ensures Busy(Set(ws, w, pc), t) + Holds(ws[w], t) == Busy(ws, t) + Holds(ws[w].(pc := pc), t)
    decreases |ws|
  {
    var n := |ws| - 1;
    if w == n {
      assert Set(ws, w, pc)[..n] == ws[..n];
    } else {
      assert Set(ws, w, pc)[..n] == Set(ws[..n], w, pc);
      BusySet(ws[..n], w, pc, t);
    }
  }

  lemma BusyAdd(ws: seq<Worker>, w: Worker, t: nat)
    ensures Busy(ws + [w], t) == Busy(ws, t) + Holds(w, t)
  {
    assert (ws + [w])[..|ws|] == ws;
  }

  lemma {:induction false} NobodyBusy(ws: seq<Worker>, t: nat)
    requires forall i :: 0 <= i < |ws| ==> Holds(ws[i], t) == 0
    ensures Busy(ws, t) == 0
    decreases |ws|
  {
    if ws != [] { NobodyBusy(ws[..|ws| - 1], t); }
  }

  function Count(tasks: seq<nat>, t: nat): nat {
    multiset(tasks)[t]
  }

  lemma CountSnoc(tasks: seq<nat>, u: nat, t: nat)
    ensures Count(tasks + [u], t) == Count(tasks, t) + (if t == u then 1 else 0)
  {
    assert multiset(tasks + [u]) == multiset(tasks) + multiset{u};
  }

  lemma CountHead(tasks: seq<nat>, t: nat)
    requires tasks != []
    ensures Count(tasks, t) == Count(tasks[1..], t) + (if t == tasks[0] then 1 else 0)
  {
    assert tasks == [tasks[0]] + tasks[1..];
    assert multiset(tasks) == multiset{tasks[0]} + multiset(tasks[1..]);
  }

  /** In how many places task `t` is: queued, running or run. */
  function Places(queue: seq<nat>, ws: seq<Worker>, ran: seq<nat>, t: nat): nat {
    Count(queue, t) + Busy(ws, t) + Count(ran, t)
  }

  function Everywhere(s: State, t: nat): nat {
    Places(s.queue, s.workers, s.ran, t)
  }

  lemma TakeKeeps(queue: seq<nat>, ws: seq<Worker>, ran: seq<nat>, w: nat, pc: Pc, t: nat)
    requires queue != [] && w < |ws|
    requires Holds(ws[w], t) == 0 && Holds(ws[w].(pc := pc), t) == if t == queue[0] then 1 else 0
    ensures Places(queue[1..], Set(ws, w, pc), ran, t) == Places(queue, ws, ran, t)
  {
    BusySet(ws, w, pc, t);
    CountHead(queue, t);
  }

  lemma FinishKeeps(queue: seq<nat>, ws: seq<Worker>, ran: seq<nat>, w: nat, u: nat, pc: Pc, t: nat)
    requires w < |ws|
    requires Holds(ws[w], t) == (if t == u then 1 else 0) && Holds(ws[w].(pc := pc), t) == 0
    ensures Places(queue, Set(ws, w, pc), ran + [u], t) == Places(queue, ws, ran, t)
  {
    BusySet(ws, w, pc, t);
    CountSnoc(ran, u, t);
  }

  lemma MoveKeeps(queue: seq<nat>, ws: seq<Worker>, ran: seq<nat>, w: nat, pc: Pc, t: nat)
    requires w < |ws| && Holds(ws[w], t) == 0 && Holds(ws[w].(pc := pc), t) == 0
    ensures Places(queue, Set(ws, w, pc), ran, t) == Places(queue, ws, ran, t)
  {
    BusySet(ws, w, pc, t);
  }

  // ---- The invariant -------------------------------------------------------------------------

  ghost predicate CountOk(cfg: Config, s: State) {
    && s.counter == Live(s.workers) + (if s.grower.Spawning? then 1 else 0)
    && s.counter <= cfg.max
    && (s.grower.Cleared? ==> s.counter < cfg.max)
  }

  ghost predicate RolesOk(cfg: Config, s: State) {
    && Ranks(cfg, s.workers)
    && (forall i :: 0 <= i < |s.workers| ==> RoleOk(s.workers[i], s.stopped, s.drained))
    && (s.drained ==> s.stopped)
  }

  /** Only transient workers retire; workers drain after the stop, and leave after a drain. */
  predicate RoleOk(w: Worker, stopped: bool, drained: bool) {
    && (w.pc == Retiring ==> w.transient)
    && (w.pc == Draining || w.pc.DrainRunning? ==> stopped)
    && (w.pc == Leaving ==> drained)
    && (w.pc == Gone && !w.transient ==> drained)
  }

  ghost predicate TasksOk(s: State) {
    && (forall t: nat :: Everywhere(s, t) == if t < s.accepted then 1 else 0)
    && s.acceptedBefore <= s.accepted
    && (s.drained ==> forall i :: 0 <= i < |s.queue| ==> s.queue[i] >= s.acceptedBefore)
  }

  ghost predicate Inv(cfg: Config, s: State) {
    CountOk(cfg, s) && RolesOk(cfg, s) && TasksOk(s)
  }

  ghost predicate ValidConfig(cfg: Config) {
    1 <= cfg.min <= cfg.max
  }

  lemma {:induction false} StartCounts(n: nat, t: nat)
    ensures Live(seq(n, _ => Worker(false, Idle))) == n && Busy(seq(n, _ => Worker(false, Idle)), t) == 0
    decreases n
  {
    if n > 0 {
      var ws := seq(n, _ => Worker(false, Idle));
      assert ws[..n - 1] == seq(n - 1, _ => Worker(false, Idle));
      StartCounts(n - 1, t);
    }
  }

  lemma StartInv(cfg: Config)
    requires ValidConfig(cfg)
    ensures Inv(cfg, Start(cfg))
  {
    StartCounts(cfg.min, 0);
    forall t: nat ensures Everywhere(Start(cfg), t) == 0 { StartCounts(cfg.min, t); }
  }

  /** The worker a step moves, if it moves one, and where to. */
  function Mover(cfg: Config, s: State, step: Step): Option<(nat, Pc)>
    requires Enabled(cfg, s, step)
  {
    match step
    case Take(w) => Some((w, Running(s.queue[0])))
    case Finish(w) => Some((w, Idle))
    case IdleTimer(w) =>
      if s.workers[w].transient && s.counter > cfg.min then Some((w, Retiring)) else None
    case Retire(w) => Some((w, Gone))
    case SeeStop(w) => Some((w, Draining))
    case DrainTake(w) => Some((w, DrainRunning(s.queue[0])))
    case DrainFinish(w) => Some((w, Draining))
    case DrainEmpty(w) => Some((w, Leaving))
    case Leave(w) => Some((w, Gone))
    case _ => None
  }

  lemma MoverMoves(cfg: Config, s: State, step: Step)
    requires Enabled(cfg, s, step)
    ensures var s' := Do(cfg, s, step);
            match Mover(cfg, s, step)
            case Some((w, pc)) =>
              && w < |s.workers| && s.workers[w].pc != Gone && s'.workers == Set(s.workers, w, pc)
              && s'.grower == s.grower && s'.counter == s.counter - (if pc == Gone then 1 else 0)
            case None => step != GrowGo ==> s'.workers == s.workers
  {
  }

  /** How many workers are live after a step. */
  lemma LiveNext(cfg: Config, s: State, step: Step)
    requires Enabled(cfg, s, step)
    ensures Live(Do(cfg, s, step).workers)
            == Live(s.workers) + (if step.GrowGo? then 1 else if step.Retire? || step.Leave? then -1 else 0)
  {
    MoverMoves(cfg, s, step);
    match Mover(cfg, s, step)
    case Some((w, pc)) => LiveSet(s.workers, w, pc);
    case None => if step.GrowGo? { LiveAdd(s.workers, Worker(true, Idle)); }
  }

  /** The counter and the grower after a step. */
  lemma CounterNext(cfg: Config, s: State, step: Step)
    requires Enabled(cfg, s, step)
    ensures var s' := Do(cfg, s, step);
            && s'.counter == s.counter + (if step.GrowAdd? then 1 else if step.Retire? || step.Leave? then -1 else 0)
            && s'.grower.Spawning? == (if step.GrowAdd? then true else if step.GrowGo? then false else s.grower.Spawning?)
            && (s'.grower.Cleared? ==> s.grower.Cleared? || s.counter < cfg.max)
            && (step.GrowAdd? ==> s.grower.Cleared? && !s'.grower.Cleared?)
            && (step.GrowGo? ==> s.grower.Spawning?)
            && (step.GrowAdd? ==> !s.grower.Spawning?)
  {
  }

  lemma CountNext(cfg: Config, s: State, step: Step)
    requires CountOk(cfg, s) && Enabled(cfg, s, step)
    ensures CountOk(cfg, Do(cfg, s, step))
  {
    LiveNext(cfg, s, step);
    CounterNext(cfg, s, step);
  }

  lemma RolesNext(cfg: Config, s: State, step: Step)
    requires ValidConfig(cfg) && RolesOk(cfg, s) && Enabled(cfg, s, step)
    ensures RolesOk(cfg, Do(cfg, s, step))
  {
    var s' := Do(cfg, s, step);
    MoverMoves(cfg, s, step);
    FlagsNext(cfg, s, step);
    match Mover(cfg, s, step)
    case Some((w, pc)) => MoverRole(cfg, s, step);
    case None => if step == GrowGo { assert s'.workers == s.workers + [Worker(true, Idle)]; }
  }

  /** The stop and the first drain are never taken back. */
  lemma FlagsNext(cfg: Config, s: State, step: Step)
    requires RolesOk(cfg, s) && Enabled(cfg, s, step)
    ensures var s' := Do(cfg, s, step);
            (s.stopped ==> s'.stopped) && (s.drained ==> s'.drained) && (s'.drained ==> s'.stopped)
  {
  }

  /** A worker moves in keeping with its role. */
  lemma MoverRole(cfg: Config, s: State, step: Step)
    requires RolesOk(cfg, s) && Enabled(cfg, s, step) && Mover(cfg, s, step).Some?
    ensures var (w, pc) := Mover(cfg, s, step).value;
            w < |s.workers| && RoleOk(s.workers[w].(pc := pc), Do(cfg, s, step).stopped, Do(cfg, s, step).drained)
  {
    var (w, pc) := Mover(cfg, s, step).value;
    MoverMoves(cfg, s, step);
    assert RoleOk(s.workers[w], s.stopped, s.drained);
  }

  /** A task enters when it is accepted and then only moves from place to place. */
  lemma EverywhereNext(cfg: Config, s: State, step: Step, t: nat)
    requires Enabled(cfg, s, step)
    ensures Everywhere(Do(cfg, s, step), t)
            == Everywhere(s, t) + (if step == Submit && t == s.accepted then 1 else 0)
  {
    var ws, queue, ran := s.workers, s.queue, s.ran;
    match step
    case Submit => CountSnoc(queue, s.accepted, t);
    case Take(w) => TakeKeeps(queue, ws, ran, w, Running(queue[0]), t);
    case DrainTake(w) => TakeKeeps(queue, ws, ran, w, DrainRunning(queue[0]), t);
    case Finish(w) => FinishKeeps(queue, ws, ran, w, ws[w].pc.task, Idle, t);
    case DrainFinish(w) => FinishKeeps(queue, ws, ran, w, ws[w].pc.task, Draining, t);
    case GrowGo => BusyAdd(ws, Worker(true, Idle), t);
    case _ => OtherMoves(cfg, s, step, t);
  }

  /** The steps in which no task moves. */
  lemma OtherMoves(cfg: Config, s: State, step: Step, t: nat)
    requires Enabled(cfg, s, step) && !step.Submit? && !step.GrowGo?
    requires !step.Take? && !step.DrainTake? && !step.Finish? && !step.DrainFinish?
    ensures Everywhere(Do(cfg, s, step), t) == Everywhere(s, t)
  {
    MoverMoves(cfg, s, step);
    match Mover(cfg, s, step)
    case Some((w, pc)) => MoveKeeps(s.queue, s.workers, s.ran, w, pc, t);
    case None =>
  }

  lemma TasksNext(cfg: Config, s: State, step: Step)
    requires TasksOk(s) && RolesOk(cfg, s) && Enabled(cfg, s, step)
    ensures TasksOk(Do(cfg, s, step))
  {
    var s' := Do(cfg, s, step);
    forall t: nat ensures Everywhere(s', t) == if t < s'.accepted then 1 else 0 {
      EverywhereNext(cfg, s, step, t);
    }
    QueueNext(cfg, s, step);
  }

  /** Only a task accepted later is added to the queue, so what was queued after the drain began stays so. */
  lemma QueueNext(cfg: Config, s: State, step: Step)
    requires s.acceptedBefore <= s.accepted && RolesOk(cfg, s) && Enabled(cfg, s, step)
    requires s.drained ==> forall i :: 0 <= i < |s.queue| ==> s.queue[i] >= s.acceptedBefore
    ensures var s' := Do(cfg, s, step);
            s'.acceptedBefore <= s'.accepted
            && (s'.drained ==> forall i :: 0 <= i < |s'.queue| ==> s'.queue[i] >= s'.acceptedBefore)
  {
  }

  lemma StepInv(cfg: Config, s: State, step: Step)
    requires ValidConfig(cfg) && Inv(cfg, s) && Enabled(cfg, s, step)
    ensures Inv(cfg, Do(cfg, s, step))
  {
    CountNext(cfg, s, step);
    RolesNext(cfg, s, step);
    TasksNext(cfg, s, step);
  }

  predicate Possible(cfg: Config, s: State, steps: seq<Step>)
    decreases |steps|
  {
    steps == [] || (Enabled(cfg, s, steps[0]) && Possible(cfg, Do(cfg, s, steps[0]), steps[1..]))
  }

  function Run(cfg: Config, s: State, steps: seq<Step>): State
    requires Possible(cfg, s, steps)
    decreases |steps|
  {
    if steps == [] then s else Run(cfg, Do(cfg, s, steps[0]), steps[1..])
  }

  lemma {:induction false} RunInv(cfg: Config, s: State, steps: seq<Step>)
    requires ValidConfig(cfg) && Inv(cfg, s) && Possible(cfg, s, steps)
    ensures Inv(cfg, Run(cfg, s, steps))
    decreases |steps|
  {
    if steps != [] {
      StepInv(cfg, s, steps[0]);
      RunInv(cfg, Do(cfg, s, steps[0]), steps[1..]);
    }
  }

  // ---- The theorems --------------------------------------------------------------------------

  /** Until Close, the counter is the permanent workers plus the live transient ones plus the one being
      spawned, and stays between Min and Max, although a retiring worker reads and then decrements it
      without a lock. */
  lemma SizeBounds(cfg: Config, steps: seq<Step>)
    requires ValidConfig(cfg) && Possible(cfg, Start(cfg), steps)
    ensures var s := Run(cfg, Start(cfg), steps);
            && s.counter <= cfg.max
            && (!s.stopped ==>
                  && s.counter == cfg.min + LiveTransient(s.workers) + (if s.grower.Spawning? then 1 else 0)
                  && cfg.min <= s.counter)
  {
    StartInv(cfg);
    RunInv(cfg, Start(cfg), steps);
    var s := Run(cfg, Start(cfg), steps);
    if !s.stopped {
      LiveSplits(cfg, s.workers, |s.workers|);
      assert s.workers[..|s.workers|] == s.workers;
    }
  }

  /** Close returns when every goroutine of the pool has ended. */
  predicate Returned(s: State) {
    s.stopped && s.grower == Stopped && forall i :: 0 <= i < |s.workers| ==> s.workers[i].pc == Gone
  }

  /** No accepted task is ever in two places, or run twice. */
  lemma RunAtMostOnce(cfg: Config, steps: seq<Step>, t: nat)
    requires ValidConfig(cfg) && Possible(cfg, Start(cfg), steps)
    ensures multiset(Run(cfg, Start(cfg), steps).ran)[t] <= 1
  {
    StartInv(cfg);
    RunInv(cfg, Start(cfg), steps);
    assert Everywhere(Run(cfg, Start(cfg), steps), t) <= 1;
  }

  /** Every task accepted before Close began has run exactly once when Close returns. */
  lemma CloseDrains(cfg: Config, steps: seq<Step>, t: nat)
    requires ValidConfig(cfg) && Possible(cfg, Start(cfg), steps)
    requires Returned(Run(cfg, Start(cfg), steps))
    requires t < Run(cfg, Start(cfg), steps).acceptedBefore
    ensures multiset(Run(cfg, Start(cfg), steps).ran)[t] == 1
  {
    StartInv(cfg);
    RunInv(cfg, Start(cfg), steps);
    var s := Run(cfg, Start(cfg), steps);
    assert s.workers[0].pc == Gone && !s.workers[0].transient;
    NobodyBusy(s.workers, t);
    assert t !in s.queue;
    assert Everywhere(s, t) == 1;
  }

  // ---- What is guaranteed --------------------------------------------------------------------

  /** In every run in which Close returns, every task accepted before Close began, or with `late` every
      accepted task, has run exactly once. */
  ghost predicate Guaranteed(cfg: Config, late: bool)
    requires ValidConfig(cfg)
  {
    forall steps, t: nat ::
      Possible(cfg, Start(cfg), steps) && Returned(Run(cfg, Start(cfg), steps)) &&
      t < (if late then Run(cfg, Start(cfg), steps).accepted else Run(cfg, Start(cfg), steps).acceptedBefore) ==>
        Count(Run(cfg, Start(cfg), steps).ran, t) == 1
  }

  /** The pool after Close, when the first `n` workers have found the queue empty and left. */
  function Emptied(cfg: Config, n: nat): State
    requires ValidConfig(cfg)
  {
    State(cfg.min - n, seq(cfg.min, w => Worker(false, if w < n then Gone else Idle)), [], Resting, true, 0, 0, [], n > 0)
  }

  lemma EmptyOne(cfg: Config, n: nat)
    requires ValidConfig(cfg) && n < cfg.min
    ensures var s := Emptied(cfg, n);
            && Enabled(cfg, s, SeeStop(n))
            && var s1 := Do(cfg, s, SeeStop(n));
               && Enabled(cfg, s1, DrainEmpty(n))
               && var s2 := Do(cfg, s1, DrainEmpty(n));
                  Enabled(cfg, s2, Leave(n)) && Do(cfg, s2, Leave(n)) == Emptied(cfg, n + 1)
  {
    var s3 := Do(cfg, Do(cfg, Do(cfg, Emptied(cfg, n), SeeStop(n)), DrainEmpty(n)), Leave(n));
    assert s3.workers == Emptied(cfg, n + 1).workers;
  }

  /** With every worker gone, a submitter that chooses between the closed signal and room in the queue may
      still take the room. */
  lemma SubmitLate(cfg: Config) returns (steps: seq<Step>)
    requires ValidConfig(cfg) && cfg.queueSize >= 1
    ensures Possible(cfg, Emptied(cfg, cfg.min), steps)
    ensures var s := Run(cfg, Emptied(cfg, cfg.min), steps);
            Returned(s) && s.accepted == 1 && s.ran == []
  {
    var s0 := Emptied(cfg, cfg.min);
    var s1 := Do(cfg, s0, GrowStop);
    var s2 := Do(cfg, s1, Submit);
    assert Possible(cfg, s2, []) && Run(cfg, s2, []) == s2;
    Precede(cfg, s1, Submit, []);
    Precede(cfg, s0, GrowStop, [Submit] + []);
    steps := [GrowStop] + ([Submit] + []);
  }

  lemma {:induction false} EmptyThenSubmit(cfg: Config, n: nat) returns (steps: seq<Step>)
    requires ValidConfig(cfg) && cfg.queueSize >= 1 && n <= cfg.min
    ensures Possible(cfg, Emptied(cfg, n), steps)
    ensures var s := Run(cfg, Emptied(cfg, n), steps);
            Returned(s) && s.accepted == 1 && s.ran == []
    decreases cfg.min - n
  {
    if n == cfg.min {
      steps := SubmitLate(cfg);
    } else {
      EmptyOne(cfg, n);
      var rest := EmptyThenSubmit(cfg, n + 1);
      var s1 := Do(cfg, Emptied(cfg, n), SeeStop(n));
      var s2 := Do(cfg, s1, DrainEmpty(n));
      Precede(cfg, s2, Leave(n), rest);
      Precede(cfg, s1, DrainEmpty(n), [Leave(n)] + rest);
      Precede(cfg, Emptied(cfg, n), SeeStop(n), [DrainEmpty(n)] + ([Leave(n)] + rest));
      steps := [SeeStop(n)] + ([DrainEmpty(n)] + ([Leave(n)] + rest));
    }
  }

  /** In every pool a task accepted after Close began may never run. */
  lemma LateTaskLost(cfg: Config) returns (steps: seq<Step>)
    requires ValidConfig(cfg) && cfg.queueSize >= 1
    ensures Possible(cfg, Start(cfg), steps)
    ensures var s := Run(cfg, Start(cfg), steps);
            Returned(s) && s.accepted == 1 && s.ran == []
  {
    var rest := EmptyThenSubmit(cfg, 0);
    assert Do(cfg, Start(cfg), Close).workers == Emptied(cfg, 0).workers;
    Precede(cfg, Start(cfg), Close, rest);
    steps := [Close] + rest;
  }

  /** Close guarantees the tasks accepted before it began, and no others. */
  lemma GuaranteedExactly(cfg: Config, late: bool)
    requires ValidConfig(cfg) && cfg.queueSize >= 1
    ensures Guaranteed(cfg, late) <==> !late
  {
    if late {
      var steps := LateTaskLost(cfg);
      assert Count(Run(cfg, Start(cfg), steps).ran, 0) == 0;
    } else {
      forall steps, t: nat |
        Possible(cfg, Start(cfg), steps) && Returned(Run(cfg, Start(cfg), steps)) && t < Run(cfg, Start(cfg), steps).acceptedBefore
        ensures Count(Run(cfg, Start(cfg), steps).ran, t) == 1
      {
        CloseDrains(cfg, steps, t);
      }
    }
  }

  // ---- Close returns -------------------------------------------------------------------------

  /** The run accepts nothing. */
  predicate NoSubmit(steps: seq<Step>) {
    forall i :: 0 <= i < |steps| ==> steps[i] != Submit
  }

  /** How far the grower is from its end. */
  function GrowerWork(g: Grower): nat {
    match g
    case Stopped => 0
    case Resting => 1
    case Growing(i, grow) => (if i < grow then 3 * (grow - i) else 0) + 2
    case Cleared(i, grow) => (if i < grow then 3 * (grow - i) else 0) + 1
    case Spawning(i, grow) => if i < grow then 3 * (grow - i) else 2
  }

  function GrowerStep(g: Grower): Step
    requires g != Stopped
  {
    match g
    case Resting => GrowStop
    case Growing(_, _) => GrowCheck
    case Cleared(_, _) => GrowAdd
    case Spawning(_, _) => GrowGo
  }

  /** The grower is past its bound check only while its quota lasts. */
  predicate GrowerOk(g: Grower) {
    g.Cleared? || g.Spawning? ==> g.i < g.grow
  }

  lemma GrowerMoves(cfg: Config, s: State)
    requires s.stopped && s.grower != Stopped && GrowerOk(s.grower)
    ensures var step := GrowerStep(s.grower);
            && step != Submit && Enabled(cfg, s, step)
            && var s' := Do(cfg, s, step);
               s'.stopped && GrowerOk(s'.grower) && GrowerWork(s'.grower) < GrowerWork(s.grower)
  {
  }

  lemma {:induction false} StopGrower(cfg: Config, s: State) returns (steps: seq<Step>)
    requires s.stopped && GrowerOk(s.grower)
    ensures NoSubmit(steps) && Possible(cfg, s, steps)
    ensures Run(cfg, s, steps).stopped && Run(cfg, s, steps).grower == Stopped
    decreases GrowerWork(s.grower)
  {
    if s.grower == Stopped {
      steps := [];
    } else {
      var step := GrowerStep(s.grower);
      GrowerMoves(cfg, s);
      var rest := StopGrower(cfg, Do(cfg, s, step));
      Precede(cfg, s, step, rest);
      steps := [step] + rest;
    }
  }

  /** How far a worker is from its end; a queued task counts for two. */
  function PcWork(pc: Pc): nat {
    match pc
    case Running(_) => 6
    case Idle => 5
    case DrainRunning(_) => 4
    case Draining => 3
    case Leaving => 1
    case Retiring => 1
    case Gone => 0
  }

  function WorkersWork(ws: seq<Worker>): nat {
    if ws == [] then 0 else WorkersWork(ws[..|ws| - 1]) + PcWork(ws[|ws| - 1].pc)
  }

  lemma {:induction false} WorkSet(ws: seq<Worker>, w: nat, pc: Pc)
    requires w < |ws|
    ensures WorkersWork(Set(ws, w, pc)) == WorkersWork(ws) - PcWork(ws[w].pc) + PcWork(pc)
    decreases |ws|
  {
    var n := |ws| - 1;
    if w == n {
      assert Set(ws, w, pc)[..n] == ws[..n];
    } else {
      assert Set(ws, w, pc)[..n] == Set(ws[..n], w, pc);
      WorkSet(ws[..n], w, pc);
    }
  }

  /** What a worker that has not ended does next, after Close. */
  function WorkerStep(s: State, w: nat): Step
    requires w < |s.workers| && s.workers[w].pc != Gone
  {
    match s.workers[w].pc
    case Running(_) => Finish(w)
    case Idle => SeeStop(w)
    case DrainRunning(_) => DrainFinish(w)
    case Draining => if s.queue != [] then DrainTake(w) else DrainEmpty(w)
    case Leaving => Leave(w)
    case Retiring => Retire(w)
  }

  lemma WorkerMoves(cfg: Config, s: State, w: nat)
    requires s.stopped && s.grower == Stopped && w < |s.workers| && s.workers[w].pc != Gone
    ensures var step := WorkerStep(s, w);
            && step != Submit && Enabled(cfg, s, step)
            && var s' := Do(cfg, s, step);
               && s'.stopped && s'.grower == Stopped
               && WorkersWork(s'.workers) + 2 * |s'.queue| < WorkersWork(s.workers) + 2 * |s.queue|
  {
    var s' := Do(cfg, s, WorkerStep(s, w));
    MoverMoves(cfg, s, WorkerStep(s, w));
    WorkSet(s.workers, w, s'.workers[w].pc);
  }

  lemma {:induction false} EndWorkers(cfg: Config, s: State) returns (steps: seq<Step>)
    requires s.stopped && s.grower == Stopped
    ensures NoSubmit(steps) && Possible(cfg, s, steps) && Returned(Run(cfg, s, steps))
    decreases WorkersWork(s.workers) + 2 * |s.queue|
  {
    if Returned(s) {
      steps := [];
    } else {
      var w :| 0 <= w < |s.workers| && s.workers[w].pc != Gone;
      var step := WorkerStep(s, w);
      WorkerMoves(cfg, s, w);
      var rest := EndWorkers(cfg, Do(cfg, s, step));
      Precede(cfg, s, step, rest);
      steps := [step] + rest;
    }
  }

  lemma {:induction false} Concat(cfg: Config, s: State, a: seq<Step>, b: seq<Step>)
    requires Possible(cfg, s, a) && Possible(cfg, Run(cfg, s, a), b)
    ensures Possible(cfg, s, a + b) && Run(cfg, s, a + b) == Run(cfg, Run(cfg, s, a), b)
    decreases |a|
  {
    if a == [] {
      assert a + b == b;
    } else {
      Concat(cfg, Do(cfg, s, a[0]), a[1..], b);
      Precede(cfg, s, a[0], a[1..] + b);
      assert [a[0]] + (a[1..] + b) == a + b;
    }
  }

  lemma {:induction false} RunGrowerOk(cfg: Config, s: State, steps: seq<Step>)
    requires GrowerOk(s.grower) && Possible(cfg, s, steps)
    ensures GrowerOk(Run(cfg, s, steps).grower)
    decreases |steps|
  {
    if steps != [] { RunGrowerOk(cfg, Do(cfg, s, steps[0]), steps[1..]); }
  }

  /** Close can always return: from every reachable state after it began, steps that accept nothing lead to
      where every goroutine has ended. */
  lemma CloseReturns(cfg: Config, before: seq<Step>) returns (steps: seq<Step>)
    requires ValidConfig(cfg) && Possible(cfg, Start(cfg), before) && Run(cfg, Start(cfg), before).stopped
    ensures NoSubmit(steps) && Possible(cfg, Run(cfg, Start(cfg), before), steps)
    ensures Returned(Run(cfg, Run(cfg, Start(cfg), before), steps))
  {
    var s := Run(cfg, Start(cfg), before);
    RunGrowerOk(cfg, Start(cfg), before);
    var first := StopGrower(cfg, s);
    var rest := EndWorkers(cfg, Run(cfg, s, first));
    Concat(cfg, s, first, rest);
    steps := first + rest;
  }

  // ---- An idle pool --------------------------------------------------------------------------

  /** A waiting worker that the idle timer wakes ends if it is transient and the pool is above its minimum; any other
      waits on. */
  lemma IdleEnds(cfg: Config, s: State, w: nat)
    requires w < |s.workers| && s.workers[w].pc == Idle
    ensures Possible(cfg, s, [IdleTimer(w)])
    ensures if s.workers[w].transient && s.counter > cfg.min
            then Possible(cfg, s, [IdleTimer(w), Retire(w)])
                 && Run(cfg, s, [IdleTimer(w), Retire(w)]).counter == s.counter - 1
                 && Run(cfg, s, [IdleTimer(w), Retire(w)]).workers == s.workers[w := Worker(true, Gone)]
            else Run(cfg, s, [IdleTimer(w)]) == s
  {
    var s1 := Do(cfg, s, IdleTimer(w));
    assert Possible(cfg, s1, []) && Run(cfg, s1, []) == s1;
    Precede(cfg, s, IdleTimer(w), []);
    assert [IdleTimer(w)] + [] == [IdleTimer(w)];
    if s.workers[w].transient && s.counter > cfg.min {
      var s2 := Do(cfg, s1, Retire(w));
      assert Possible(cfg, s2, []) && Run(cfg, s2, []) == s2;
      Precede(cfg, s1, Retire(w), []);
      Precede(cfg, s, IdleTimer(w), [Retire(w)] + []);
      assert [IdleTimer(w)] + ([Retire(w)] + []) == [IdleTimer(w), Retire(w)];
    }
  }

  /** What a worker of an open pool does next when nothing more is submitted, if there is anything to do. */
  function CalmStep(cfg: Config, s: State, w: nat): Option<Step> {
    if w >= |s.workers| then None
    else match s.workers[w].pc
      case Running(_) => Some(Finish(w))
      case Retiring => Some(Retire(w))
      case Idle =>
        if s.queue != [] then Some(Take(w))
        else if s.workers[w].transient && s.counter > cfg.min then Some(IdleTimer(w)) else None
      case _ => None
  }

  /** The run submits nothing and does not close the pool. */
  predicate Calm(steps: seq<Step>) {
    forall i :: 0 <= i < |steps| ==> steps[i] != Submit && steps[i] != Close
  }

  lemma CalmMoves(cfg: Config, s: State, w: nat)
    requires !s.stopped && s.grower == Resting && CalmStep(cfg, s, w).Some?
    ensures var step := CalmStep(cfg, s, w).value;
            && step != Submit && step != Close && Enabled(cfg, s, step)
            && var s' := Do(cfg, s, step);
               && !s'.stopped && s'.grower == Resting && s'.accepted == s.accepted
               && WorkersWork(s'.workers) + 2 * |s'.queue| < WorkersWork(s.workers) + 2 * |s.queue|
  {
    var s' := Do(cfg, s, CalmStep(cfg, s, w).value);
    MoverMoves(cfg, s, CalmStep(cfg, s, w).value);
    WorkSet(s.workers, w, s'.workers[w].pc);
  }

  /** Nothing is queued, running or retiring, and only the permanent workers are left. */
  ghost predicate AtRest(cfg: Config, s: State) {
    && !s.stopped && s.grower == Resting && s.queue == [] && s.counter == cfg.min == LiveTransient(s.workers) + cfg.min
    && forall t: nat :: t < s.accepted ==> Count(s.ran, t) == 1
  }

  lemma {:induction false} NoTransient(ws: seq<Worker>)
    requires forall i :: 0 <= i < |ws| && ws[i].transient ==> ws[i].pc == Gone
    ensures LiveTransient(ws) == 0
    decreases |ws|
  {
    if ws != [] { NoTransient(ws[..|ws| - 1]); }
  }

  lemma CounterIs(cfg: Config, s: State)
    requires ValidConfig(cfg) && Inv(cfg, s) && !s.stopped && s.grower == Resting
    ensures s.counter == cfg.min + LiveTransient(s.workers)
  {
    LiveSplits(cfg, s.workers, |s.workers|);
    assert s.workers[..|s.workers|] == s.workers;
  }

  /** When no worker has anything to do, the pool is at rest. */
  lemma CalmRests(cfg: Config, s: State)
    requires ValidConfig(cfg) && Inv(cfg, s) && !s.stopped && s.grower == Resting
    requires forall w: nat :: CalmStep(cfg, s, w) == None
    ensures AtRest(cfg, s)
  {
    CounterIs(cfg, s);
    forall i | 0 <= i < |s.workers| ensures s.workers[i].pc == Idle || (s.workers[i].pc == Gone && s.workers[i].transient) {
      assert CalmStep(cfg, s, i) == None && RoleOk(s.workers[i], s.stopped, s.drained);
    }
    assert CalmStep(cfg, s, 0) == None && !s.workers[0].transient;
    if s.counter > cfg.min {
      forall i | 0 <= i < |s.workers| && s.workers[i].transient ensures s.workers[i].pc == Gone {
        assert CalmStep(cfg, s, i) == None;
      }
      NoTransient(s.workers);
    }
    forall t: nat | t < s.accepted ensures Count(s.ran, t) == 1 {
      NobodyBusy(s.workers, t);
      assert Everywhere(s, t) == 1;
    }
  }

  lemma {:induction false} CalmDown(cfg: Config, s: State) returns (steps: seq<Step>)
    requires ValidConfig(cfg) && Inv(cfg, s) && !s.stopped && s.grower == Resting
    ensures Calm(steps) && Possible(cfg, s, steps)
    ensures AtRest(cfg, Run(cfg, s, steps)) && Run(cfg, s, steps).accepted == s.accepted
    decreases WorkersWork(s.workers) + 2 * |s.queue|
  {
    if w: nat :| CalmStep(cfg, s, w).Some? {
      var step := CalmStep(cfg, s, w).value;
      CalmMoves(cfg, s, w);
      StepInv(cfg, s, step);
      var rest := CalmDown(cfg, Do(cfg, s, step));
      Precede(cfg, s, step, rest);
      steps := [step] + rest;
    } else {
      CalmRests(cfg, s);
      steps := [];
    }
  }

  lemma GrowerRests(cfg: Config, s: State)
    requires !s.stopped && s.grower != Stopped && s.grower != Resting && GrowerOk(s.grower)
    ensures var step := GrowerStep(s.grower);
            && step != Submit && step != Close && Enabled(cfg, s, step)
            && var s' := Do(cfg, s, step);
               && !s'.stopped && s'.grower != Stopped && GrowerOk(s'.grower) && s'.accepted == s.accepted
               && GrowerWork(s'.grower) < GrowerWork(s.grower)
  {
  }

  lemma {:induction false} RestGrower(cfg: Config, s: State) returns (steps: seq<Step>)
    requires !s.stopped && s.grower != Stopped && GrowerOk(s.grower)
    ensures Calm(steps) && Possible(cfg, s, steps)
    ensures var s' := Run(cfg, s, steps); !s'.stopped && s'.grower == Resting && s'.accepted == s.accepted
    decreases GrowerWork(s.grower)
  {
    if s.grower == Resting {
      steps := [];
    } else {
      var step := GrowerStep(s.grower);
      GrowerRests(cfg, s);
      var rest := RestGrower(cfg, Do(cfg, s, step));
      Precede(cfg, s, step, rest);
      steps := [step] + rest;
    }
  }

  /** The grower stops only after the pool was closed. */
  lemma {:induction false} OpenGrows(cfg: Config, s: State, steps: seq<Step>)
    requires (s.grower == Stopped ==> s.stopped) && Possible(cfg, s, steps)
    ensures Run(cfg, s, steps).grower == Stopped ==> Run(cfg, s, steps).stopped
    decreases |steps|
  {
    if steps != [] { OpenGrows(cfg, Do(cfg, s, steps[0]), steps[1..]); }
  }

  /** From every reachable state of an open pool, if nothing more is submitted, steps lead to where every accepted task
      has run, exactly once, and the pool has shrunk to its minimum. */
  lemma ShrinksToMin(cfg: Config, before: seq<Step>) returns (steps: seq<Step>)
    requires ValidConfig(cfg) && Possible(cfg, Start(cfg), before) && !Run(cfg, Start(cfg), before).stopped
    ensures Calm(steps) && Possible(cfg, Run(cfg, Start(cfg), before), steps)
    ensures var s, s' := Run(cfg, Start(cfg), before), Run(cfg, Run(cfg, Start(cfg), before), steps);
            && s'.queue == [] && s'.counter == cfg.min && LiveTransient(s'.workers) == 0
            && s'.accepted == s.accepted && forall t: nat :: t < s.accepted ==> Count(s'.ran, t) == 1
  {
    var s := Run(cfg, Start(cfg), before);
    RunGrowerOk(cfg, Start(cfg), before);
    OpenGrows(cfg, Start(cfg), before);
    StartInv(cfg);
    RunInv(cfg, Start(cfg), before);
    var first := RestGrower(cfg, s);
    RunInv(cfg, s, first);
    var rest := CalmDown(cfg, Run(cfg, s, first));
    Concat(cfg, s, first, rest);
    steps := first + rest;
  }

  // ---- The order of tasks --------------------------------------------------------------------

  /** The queue holds the tasks accepted last, in the order they were accepted. */
  ghost predicate InOrder(s: State) {
    |s.queue| <= s.accepted && forall i :: 0 <= i < |s.queue| ==> s.queue[i] == s.accepted - |s.queue| + i
  }

  lemma OrderNext(cfg: Config, s: State, step: Step)
    requires InOrder(s) && Enabled(cfg, s, step)
    ensures InOrder(Do(cfg, s, step))
  {
  }

  /** So in every run workers take the tasks in the order they were accepted. */
  lemma {:induction false} TakenInOrder(cfg: Config, s: State, steps: seq<Step>)
    requires InOrder(s) && Possible(cfg, s, steps)
    ensures InOrder(Run(cfg, s, steps))
    decreases |steps|
  {
    if steps != [] {
      OrderNext(cfg, s, steps[0]);
      TakenInOrder(cfg, Do(cfg, s, steps[0]), steps[1..]);
    }
  }

  // ---- Growth --------------------------------------------------------------------------------

  /** How many workers a tick adds to `workers` for a backlog, when nothing else moves. */
  function Growth(cfg: Config, workers: int, backlog: nat): (n: nat)
    requires workers <= cfg.max
    ensures workers + n <= cfg.max
    ensures n == 0 <==> backlog == 0 || workers == cfg.max
  {
    if backlog == 0 then 0
    else if workers + backlog / 2 + 1 <= cfg.max then backlog / 2 + 1
    else cfg.max - workers
  }

  /** The grower's loop, left alone, adds what is left of its quota or fills the pool. */
  lemma {:induction false} GrowSteps(cfg: Config, s: State) returns (steps: seq<Step>)
    requires s.grower.Growing? && s.counter <= cfg.max && s.grower.i <= s.grower.grow
    ensures Possible(cfg, s, steps)
    ensures var left, room := s.grower.grow - s.grower.i, cfg.max - s.counter;
            var s' := Run(cfg, s, steps);
            s'.grower == Resting && s'.counter == s.counter + (if left < room then left else room)
    decreases s.grower.grow - s.grower.i
  {
    var s1 := Do(cfg, s, GrowCheck);
    if s1.grower.Resting? {
      steps := [GrowCheck];
      assert Possible(cfg, s1, []) && steps[1..] == [];
    } else {
      var s2 := Do(cfg, s1, GrowAdd);
      var s3 := Do(cfg, s2, GrowGo);
      var rest := GrowSteps(cfg, s3);
      Precede(cfg, s2, GrowGo, rest);
      Precede(cfg, s1, GrowAdd, [GrowGo] + rest);
      Precede(cfg, s, GrowCheck, [GrowAdd] + ([GrowGo] + rest));
      steps := [GrowCheck] + ([GrowAdd] + ([GrowGo] + rest));
    }
  }

  lemma Precede(cfg: Config, s: State, step: Step, rest: seq<Step>)
    requires Enabled(cfg, s, step) && Possible(cfg, Do(cfg, s, step), rest)
    ensures Possible(cfg, s, [step] + rest)
    ensures Run(cfg, s, [step] + rest) == Run(cfg, Do(cfg, s, step), rest)
  {
    assert ([step] + rest)[1..] == rest;
  }

  /** The steps of one tick, uninterrupted, add as many workers as `Pool.MaybeGrow` does. */
  lemma TickGrows(cfg: Config, s: State) returns (steps: seq<Step>)
    requires ValidConfig(cfg) && s.grower == Resting && s.counter <= cfg.max
    ensures Possible(cfg, s, steps)
    ensures var s' := Run(cfg, s, steps);
            s'.grower == Resting && s'.counter == s.counter + Growth(cfg, s.counter, |s.queue|)
  {
    var s1 := Do(cfg, s, GrowTick);
    var rest := [];
    if s1.grower.Growing? { rest := GrowSteps(cfg, s1); }
    Precede(cfg, s, GrowTick, rest);
    steps := [GrowTick] + rest;
  }

  // ---- The pool's own loops ------------------------------------------------------------------

  class Pool {
    const cfg: Config
    var workers: int
    var queue: seq<nat>
    var done: seq<nat>

    constructor (config: Config)
      ensures cfg == config.Defaults() && workers == cfg.min && queue == [] && done == []
    {
      cfg := config.Defaults();
      new;
      workers, queue, done := 0, [], [];
      for i := 0 to cfg.min
        invariant workers == i && queue == [] && done == []
      {
        workers := workers + 1;
      }
    }

    /** Enqueues unless the pool is closed or the queue is full. A closed pool with room may do either. */
    method TrySubmit(t: nat, stopped: bool) returns (ok: bool)
      modifies this`queue
      ensures queue == if ok then old(queue) + [t] else old(queue)
      ensures ok ==> |old(queue)| < cfg.queueSize
      ensures !ok ==> stopped || |old(queue)| >= cfg.queueSize
    {
      if
      case stopped =>
        ok := false;
      case |queue| < cfg.queueSize =>
        queue := queue + [t];
        ok := true;
      case !stopped && |queue| >= cfg.queueSize =>
        ok := false;
    }

    /** Adds workers in proportion to the backlog, up to the bound. */
    method MaybeGrow()
      requires workers <= cfg.max
      modifies this`workers
      ensures queue == [] ==> workers == old(workers)
      ensures queue != [] && old(workers) + |queue| / 2 + 1 <= cfg.max ==> workers == old(workers) + |queue| / 2 + 1
      ensures queue != [] && old(workers) + |queue| / 2 + 1 > cfg.max ==> workers == cfg.max
      ensures workers == old(workers) + Growth(cfg, old(workers), |queue|)
    {
      var backlog := |queue|;
      if backlog == 0 || workers >= cfg.max {
        return;
      }
      var grow := backlog / 2 + 1;
      var i := 0;
      while i < grow && workers < cfg.max
        invariant 0 <= i <= grow && workers == old(workers) + i && workers <= cfg.max
        decreases grow - i
      {
        workers := workers + 1;
        i := i + 1;
      }
    }

    /** Runs whatever is queued, in order. */
    method Drain()
      modifies this`queue, this`done
      ensures queue == [] && done == old(done) + old(queue)
    {
      while queue != []
        invariant done + queue == old(done) + old(queue)
        decreases |queue|
      {
        var t := queue[0];
        queue := queue[1..];
        done := done + [t];
      }
    }
  }
}
