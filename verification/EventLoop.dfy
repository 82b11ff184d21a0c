/** The task queue and wakeup protocol of an event loop (src/EventLoop.cc).

    `LoopState` is the loop thread, any number of producer threads and the eventfd at
    the grain of the critical sections: an append under the lock and the eventfd
    write that follows it are two steps, and so are the flag, the swap and each task.
 */
module EventLoops {
  type Task = int

  datatype Active = WakeupChannel | OtherChannel

  /** Where the loop thread is. NotLooping is before loop() is called. */
  datatype Pc =
    | NotLooping
    | Polling
    | Dispatching(active: seq<Active>)
    | Swapping
    | Running(rest: seq<Task>)

  /** `midQueue`: the loop's own thread has appended in queueInLoop and not yet tested
      the flag. `waking`: the producers that have appended and not yet written the
      eventfd. `log` is the order of the appends, `cut` its length at the last swap. */
  datatype LoopState = LoopState(
    pc: Pc,
    midQueue: bool,
    calling: bool,
    counter: nat,
    pending: seq<Task>,
    waking: set<nat>,
    executed: seq<Task>,
    log: seq<Task>,
    cut: nat)
  {
    /** The tasks of the current batch that have not run. */
    function Rest(): seq<Task> { if pc.Running? then pc.rest else [] }

    /** User code runs on the loop thread: before the loop, in a handler, in a task. */
    predicate InUserCode() { pc.NotLooping? || pc.Dispatching? || pc.Running? }
  }

  /** The flag has no initializer, so it starts with either value. */
  function InitLoop(flag: bool): LoopState {
    LoopState(NotLooping, false, flag, 0, [], {}, [], [], 0)
  }

  const COUNTER_MAX: nat := 0xffff_ffff_ffff_fffe

  /** A write to a non-blocking eventfd: refused at the maximum. */
  function Bumped(counter: nat): nat { if counter < COUNTER_MAX then counter + 1 else counter }

  datatype LoopStep =
    | ProducerAppend(p: nat, task: Task)
    | ProducerWake(p: nat)
    | SelfAppend(task: Task)
    | SelfWake
    | StartLoop
    | PollReturn(active: seq<Active>)
    | HandleOne
    | EndDispatch
    | Swap
    | RunTask
    | EndBatch

  function WakeupCount(active: seq<Active>): nat { multiset(active)[WakeupChannel] }

  /** Poll reports the wakeup channel at most once, and only while the eventfd is readable. */
  predicate CanStep(s: LoopState, step: LoopStep)
  {
    match step
    case ProducerAppend(p, _) => p !in s.waking
    case ProducerWake(p) => p in s.waking
    case SelfAppend(_) => s.InUserCode() && !s.midQueue
    case SelfWake => s.midQueue
    case StartLoop => s.pc.NotLooping? && !s.midQueue
    case PollReturn(active) =>
      s.pc.Polling? && WakeupCount(active) <= 1 && (WakeupCount(active) == 1 ==> 0 < s.counter)
    case HandleOne => s.pc.Dispatching? && s.pc.active != [] && !s.midQueue
    case EndDispatch => s.pc.Dispatching? && s.pc.active == [] && !s.midQueue
    case Swap => s.pc.Swapping?
    case RunTask => s.pc.Running? && s.pc.rest != [] && !s.midQueue
    case EndBatch => s.pc.Running? && s.pc.rest == [] && !s.midQueue
  }

  function Append(s: LoopState, task: Task): LoopState {
    s.(pending := s.pending + [task], log := s.log + [task])
  }

  function Take(s: LoopState, step: LoopStep): LoopState
    requires CanStep(s, step)
  {
    match step
    case ProducerAppend(p, task) => Append(s, task).(waking := s.waking + {p})
    case ProducerWake(p) => s.(waking := s.waking - {p}, counter := Bumped(s.counter))
    case SelfAppend(task) => Append(s, task).(midQueue := true)
    case SelfWake => s.(midQueue := false, counter := if s.calling then Bumped(s.counter) else s.counter)
    case StartLoop => s.(pc := Polling)
    case PollReturn(active) => s.(pc := Dispatching(active))
    case HandleOne =>
      s.(pc := Dispatching(s.pc.active[1..]),
         counter := if s.pc.active[0] == WakeupChannel then 0 else s.counter)
    case EndDispatch => s.(pc := Swapping, calling := true)
    case Swap => s.(pc := Running(s.pending), pending := [], cut := |s.log|)
    case RunTask => s.(pc := Running(s.pc.rest[1..]), executed := s.executed + [s.pc.rest[0]])
    case EndBatch => s.(pc := Polling)
  }

  ghost predicate IsLoopRun(states: seq<LoopState>, steps: seq<LoopStep>)
  {
    && |states| == |steps| + 1
    && states[0] == InitLoop(states[0].calling)
    && (forall i | 0 <= i < |steps| :: CanStep(states[i], steps[i]) && states[i + 1] == Take(states[i], steps[i]))
  }

  // ---- First in, first out, exactly once ----

  predicate QueueInv(s: LoopState)
  {
    && s.executed + s.Rest() + s.pending == s.log
    && |s.executed| + |s.Rest()| == s.cut
    && (s.midQueue ==> s.InUserCode())
  }

  lemma StepKeepsQueue(s: LoopState, step: LoopStep)
    requires QueueInv(s) && CanStep(s, step)
    ensures QueueInv(Take(s, step))
  {
    var t := Take(s, step);
    match step
    case ProducerAppend(_, task) =>
      assert s.executed + s.Rest() + (s.pending + [task]) == s.log + [task];
    case SelfAppend(task) =>
      assert s.executed + s.Rest() + (s.pending + [task]) == s.log + [task];
    case Swap =>
      assert s.executed + [] + s.pending == s.executed + s.pending + [];
    case RunTask =>
      assert s.pc.rest == [s.pc.rest[0]] + s.pc.rest[1..];
      assert (s.executed + [s.pc.rest[0]]) + s.pc.rest[1..] == s.executed + s.pc.rest;
    case _ =>
  }

  lemma {:induction false} RunKeepsQueue(states: seq<LoopState>, steps: seq<LoopStep>, i: nat)
    requires IsLoopRun(states, steps) && i < |states|
    ensures QueueInv(states[i])
  {
    if i > 0 {
      RunKeepsQueue(states, steps, i - 1);
      assert states[i - 1 + 1] == Take(states[i - 1], steps[i - 1]);
      StepKeepsQueue(states[i - 1], steps[i - 1]);
    }
  }

  /** Over every interleaving, what has run, then the rest of the batch, then what is
      pending is exactly the appends in lock order: each task runs once, first come first served. */
  lemma ExactlyOnceFifo(states: seq<LoopState>, steps: seq<LoopStep>, i: nat)
    requires IsLoopRun(states, steps) && i < |states|
    ensures states[i].executed + states[i].Rest() + states[i].pending == states[i].log
  {
    RunKeepsQueue(states, steps, i);
  }

  /** What the rest of the system sees of a loop: one queue. */
  function Tasks(s: LoopState): seq<Task> { s.Rest() + s.pending }

  function AppendedBy(step: LoopStep): seq<Task>
  {
    match step
    case ProducerAppend(_, task) => [task]
    case SelfAppend(task) => [task]
    case _ => []
  }

  /** Every step appends to that queue, runs the task at its head, or leaves it alone. */
  lemma StepRefinesQueue(s: LoopState, step: LoopStep)
    requires CanStep(s, step)
    ensures !step.RunTask? ==> Tasks(Take(s, step)) == Tasks(s) + AppendedBy(step)
                               && Take(s, step).executed == s.executed
    ensures step.RunTask? ==> Tasks(s) != [] && Tasks(Take(s, step)) == Tasks(s)[1..]
                              && Take(s, step).executed == s.executed + [Tasks(s)[0]]
  {
    if step.RunTask? {
      assert Tasks(s)[1..] == s.pc.rest[1..] + s.pending;
    } else if step.Swap? {
      assert s.pending + [] == [] + s.pending;
    } else {
      assert Take(s, step).pending == s.pending + AppendedBy(step);
    }
  }

  /** A batch is fixed by its swap: until the next one, only tasks queued before it run,
      so a task queued during a batch waits for a later one and every batch ends. */
  lemma BatchIsFixed(states: seq<LoopState>, steps: seq<LoopStep>, i: nat, j: nat)
    requires IsLoopRun(states, steps) && i <= j < |states|
    requires forall k | i <= k < j :: !steps[k].Swap?
    ensures states[j].cut == states[i].cut <= |states[i].log|
    ensures states[j].executed <= states[i].log[..states[i].cut]
    ensures |states[j].executed| + |states[j].Rest()| == states[i].cut
  {
    CutStays(states, steps, i, j);
    RunKeepsQueue(states, steps, i);
    RunKeepsQueue(states, steps, j);
    var n := |states[j].executed|;
    assert states[j].executed == states[j].log[..n] == states[i].log[..n];
  }

  lemma {:induction false} CutStays(states: seq<LoopState>, steps: seq<LoopStep>, i: nat, j: nat)
    requires IsLoopRun(states, steps) && i <= j < |states|
    requires forall k | i <= k < j :: !steps[k].Swap?
    ensures states[j].cut == states[i].cut && states[i].log <= states[j].log
    decreases j
  {
    if i < j {
      CutStays(states, steps, i, j - 1);
      assert states[j - 1 + 1] == Take(states[j - 1], steps[j - 1]);
    }
  }

  // ---- No lost wakeup ----

  /** The loop would block, or is about to, with work queued and nobody left to wake it. */
  predicate LostWakeup(s: LoopState)
  {
    s.pc.Polling? && s.pending != [] && s.counter == 0 && s.waking == {}
  }

  predicate WakeInv(s: LoopState)
  {
    && (s.midQueue ==> s.InUserCode())
    && (s.pc.Running? || (s.pc.NotLooping? && s.midQueue) ==> s.calling)
    && (s.pending != [] && (s.pc.NotLooping? || s.pc.Polling? || s.pc.Running?) ==>
          0 < s.counter || s.waking != {} || s.midQueue)
    && (s.pc.Swapping? ==> s.calling)
  }

  /** The loop's own thread queues a task before loop() while the flag is false. */
  predicate QueuesTooEarly(s: LoopState, step: LoopStep)
  {
    step.SelfAppend? && s.pc.NotLooping? && !s.calling
  }

  lemma StepKeepsWake(s: LoopState, step: LoopStep)
    requires WakeInv(s) && CanStep(s, step) && !QueuesTooEarly(s, step)
    ensures WakeInv(Take(s, step))
  {
    if step.ProducerAppend? {
      assert step.p in Take(s, step).waking;
    }
  }

  lemma {:induction false} RunKeepsWake(states: seq<LoopState>, steps: seq<LoopStep>, i: nat)
    requires IsLoopRun(states, steps) && i < |states|
    requires forall k | 0 <= k < |steps| :: !QueuesTooEarly(states[k], steps[k])
    ensures WakeInv(states[i])
  {
    if i > 0 {
      RunKeepsWake(states, steps, i - 1);
      assert states[i - 1 + 1] == Take(states[i - 1], steps[i - 1]);
      StepKeepsWake(states[i - 1], steps[i - 1]);
    }
  }

  /** Over every interleaving of the producers with the loop, whenever the loop is about
      to block with work queued, the eventfd is readable or a producer is still to write it. */
  lemma NoLostWakeup(states: seq<LoopState>, steps: seq<LoopStep>, i: nat)
    requires IsLoopRun(states, steps) && i < |states|
    requires forall k | 0 <= k < |steps| :: !QueuesTooEarly(states[k], steps[k])
    ensures states[i].pc.Polling? && states[i].pending != [] ==> 0 < states[i].counter || states[i].waking != {}
  {
    RunKeepsWake(states, steps, i);
  }

  lemma {:induction false} FlagStaysSet(states: seq<LoopState>, steps: seq<LoopStep>, i: nat)
    requires IsLoopRun(states, steps) && i < |states| && states[0].calling
    ensures states[i].calling
  {
    if i > 0 {
      FlagStaysSet(states, steps, i - 1);
      assert states[i - 1 + 1] == Take(states[i - 1], steps[i - 1]);
    }
  }

  /** When the loop's own thread may also queue before loop(), wakeups are safe if and
      only if the uninitialized flag happens to start out true. */
  lemma SafeBeforeLoopIff(flag: bool)
    ensures (forall states, steps, i: nat | IsLoopRun(states, steps) && states[0] == InitLoop(flag) && i < |states| ::
               !LostWakeup(states[i]))
            <==> flag
  {
    if flag {
      forall states, steps, i: nat | IsLoopRun(states, steps) && states[0] == InitLoop(flag) && i < |states|
        ensures !LostWakeup(states[i])
      {
        forall k | 0 <= k < |steps|
          ensures !QueuesTooEarly(states[k], steps[k])
        {
          FlagStaysSet(states, steps, k);
        }
        NoLostWakeup(states, steps, i);
      }
    } else {
      var s0 := InitLoop(false);
      var steps := [SelfAppend(0), SelfWake, StartLoop];
      var s1 := Take(s0, steps[0]);
      var s2 := Take(s1, steps[1]);
      var s3 := Take(s2, steps[2]);
      var states := [s0, s1, s2, s3];
      assert IsLoopRun(states, steps);
      assert LostWakeup(states[3]);
    }
  }

  // ---- The wakeup channel ----

  /** A reported wakeup channel is still readable when its turn comes. */
  predicate ReadInv(s: LoopState)
  {
    s.pc.Dispatching? ==> WakeupCount(s.pc.active) <= 1 && (WakeupCount(s.pc.active) == 1 ==> 0 < s.counter)
  }

  lemma StepKeepsRead(s: LoopState, step: LoopStep)
    requires ReadInv(s) && CanStep(s, step)
    ensures ReadInv(Take(s, step))
  {
    if step.HandleOne? {
      assert s.pc.active == [s.pc.active[0]] + s.pc.active[1..];
    }
  }

  lemma {:induction false} RunKeepsRead(states: seq<LoopState>, steps: seq<LoopStep>, i: nat)
    requires IsLoopRun(states, steps) && i < |states|
    ensures ReadInv(states[i])
  {
    if i > 0 {
      RunKeepsRead(states, steps, i - 1);
      assert states[i - 1 + 1] == Take(states[i - 1], steps[i - 1]);
      StepKeepsRead(states[i - 1], steps[i - 1]);
    }
  }

  /** The wakeup handler always finds the eventfd readable and leaves it drained, so
      handling the wakeup channel again takes another wakeup. */
  lemma WakeupReadSucceeds(states: seq<LoopState>, steps: seq<LoopStep>, i: nat)
    requires IsLoopRun(states, steps) && i < |steps| && steps[i].HandleOne?
    requires states[i].pc.active[0] == WakeupChannel
    ensures 0 < states[i].counter && states[i + 1].counter == 0
    ensures WakeupChannel !in states[i + 1].pc.active
  {
    RunKeepsRead(states, steps, i);
    var active := states[i].pc.active;
    assert active == [active[0]] + active[1..];
  }

  /** The wakeups written since the wakeup handler last ran. */
  function WakeupsAfter(wakeups: nat, s: LoopState, step: LoopStep): nat
    requires CanStep(s, step)
  {
    match step
    case ProducerWake(_) => wakeups + 1
    case SelfWake => if s.calling then wakeups + 1 else wakeups
    case HandleOne => if s.pc.active[0] == WakeupChannel then 0 else wakeups
    case _ => wakeups
  }

  ghost function Wakeups(states: seq<LoopState>, steps: seq<LoopStep>, i: nat): nat
    requires IsLoopRun(states, steps) && i < |states|
  {
    if i == 0 then 0 else WakeupsAfter(Wakeups(states, steps, i - 1), states[i - 1], steps[i - 1])
  }

  /** The eventfd counts them, up to the most that it can hold. */
  lemma {:induction false} CounterCounts(states: seq<LoopState>, steps: seq<LoopStep>, i: nat)
    requires IsLoopRun(states, steps) && i < |states|
    ensures var n := Wakeups(states, steps, i);
            states[i].counter == if n < 0xffff_ffff_ffff_fffe then n else 0xffff_ffff_ffff_fffe
  {
    if i > 0 {
      CounterCounts(states, steps, i - 1);
      assert states[i - 1 + 1] == Take(states[i - 1], steps[i - 1]);
    }
  }

  // ---- Nothing waits for the poll timeout ----

  /** A step of the loop thread alone that neither queues nor polls in vain: every
      return from poll reports the wakeup channel. */
  predicate OwnStep(step: LoopStep)
  {
    match step
    case ProducerAppend(_, _) => false
    case ProducerWake(_) => false
    case SelfAppend(_) => false
    case PollReturn(active) => active == [WakeupChannel]
    case _ => true
  }

  /** In n own steps the loop has run everything in `log`. */
  ghost predicate RunsAll(s: LoopState, log: seq<Task>, n: nat)
    decreases n
  {
    if n == 0 then s.executed == log
    else exists step :: OwnStep(step) && CanStep(s, step) && RunsAll(Take(s, step), log, n - 1)
  }

  function Rank(s: LoopState): nat
  {
    match s.pc
    case NotLooping => 5
    case Polling => if s.pending == [] then 0 else 3
    case Dispatching(_) => 2
    case Swapping => 1
    case Running(_) => if s.pending == [] then 0 else 4
  }

  /** The loop thread's next own step when it is not polling in vain. */
  function NextOwn(s: LoopState): LoopStep
  {
    if s.midQueue then SelfWake else
      match s.pc
      case NotLooping => StartLoop
      case Polling => PollReturn([WakeupChannel])
      case Dispatching(active) => if active == [] then EndDispatch else HandleOne
      case Swapping => Swap
      case Running(rest) => if rest == [] then EndBatch else RunTask
  }

  /** With no producer mid-wakeup, the loop on its own runs everything that has been
      queued, without ever having to wait for poll to time out. */
  lemma {:induction false} CatchesUp(s: LoopState)
    requires QueueInv(s) && WakeInv(s) && s.waking == {}
    ensures exists n: nat :: RunsAll(s, s.log, n)
    decreases |s.pending|, Rank(s), if s.midQueue then 1 else 0,
              (if s.pc.Dispatching? then |s.pc.active| else 0) + |s.Rest()|
  {
    if !s.midQueue && s.pending == [] && s.Rest() == [] {
      assert s.executed + [] + [] == s.executed;
      assert RunsAll(s, s.log, 0);
    } else {
      var step := NextOwn(s);
      var t := Take(s, step);
      StepKeepsQueue(s, step);
      StepKeepsWake(s, step);
      CatchesUp(t);
      var n: nat :| RunsAll(t, t.log, n);
      assert RunsAll(s, s.log, n + 1);
    }
  }

  // ---- The loop object ----

  /** A task queued during a turn of the loop, by its own thread or by another one. */
  datatype Arrival = Own(task: Task) | Other(task: Task, thread: nat)

  function TasksOf(arrivals: seq<Arrival>): seq<Task>
  {
    if arrivals == [] then [] else TasksOf(arrivals[..|arrivals| - 1]) + [arrivals[|arrivals| - 1].task]
  }

  /** The other threads are not in the middle of a wakeup. */
  predicate Free(arrivals: seq<Arrival>, waking: set<nat>)
  {
    forall a | a in arrivals && a.Other? :: a.thread !in waking
  }

  predicate AllFree(xs: seq<seq<Arrival>>, waking: set<nat>)
  {
    forall i | 0 <= i < |xs| :: Free(xs[i], waking)
  }

  /** The tasks of the first n sequences, end to end. */
  function ConcatUpTo(xs: seq<seq<Arrival>>, n: nat): seq<Task>
    requires n <= |xs|
  {
    if n == 0 then [] else ConcatUpTo(xs, n - 1) + TasksOf(xs[n - 1])
  }

  function Concat(xs: seq<seq<Arrival>>): seq<Task> { ConcatUpTo(xs, |xs|) }

  lemma Associates(a: seq<Task>, b: seq<Task>, c: seq<Task>)
    ensures (a + b) + c == a + (b + c)
  {
  }

  lemma NextTask(done: seq<Task>, batch: seq<Task>, i: nat)
    requires i < |batch|
    ensures batch[i..] == [batch[i]] + batch[i + 1..]
    ensures done + batch[..i] + [batch[i]] == done + batch[..i + 1]
  {
  }

  /** These steps lead from the initial state to this one. */
  ghost predicate Reaches(flag: bool, steps: seq<LoopStep>, s: LoopState)
    decreases |steps|
  {
    if steps == [] then s == InitLoop(flag) else
      var first, last := steps[..|steps| - 1], steps[|steps| - 1];
      exists before :: Leads(before, last, s) && Reaches(flag, first, before)
  }

  predicate Leads(before: LoopState, step: LoopStep, after: LoopState)
  {
    CanStep(before, step) && after == Take(before, step)
  }

  lemma ReachesSnoc(flag: bool, steps: seq<LoopStep>, s: LoopState, step: LoopStep)
    requires Reaches(flag, steps, s) && CanStep(s, step)
    ensures Reaches(flag, steps + [step], Take(s, step))
  {
    assert (steps + [step])[..|steps|] == steps;
    assert Leads(s, step, Take(s, step));
  }

  ghost predicate RunsTo(flag: bool, states: seq<LoopState>, steps: seq<LoopStep>, s: LoopState)
  {
    IsLoopRun(states, steps) && states[0] == InitLoop(flag) && states[|steps|] == s
  }

  lemma ExtendRun(flag: bool, states: seq<LoopState>, steps: seq<LoopStep>, s: LoopState, step: LoopStep)
    requires RunsTo(flag, states, steps, s) && CanStep(s, step)
    ensures RunsTo(flag, states + [Take(s, step)], steps + [step], Take(s, step))
  {
  }

  /** So what holds over every run holds of the state. */
  lemma {:induction false} ReachesIsRun(flag: bool, steps: seq<LoopStep>, s: LoopState)
    requires Reaches(flag, steps, s)
    ensures exists states :: RunsTo(flag, states, steps, s)
    decreases |steps|
  {
    if steps == [] {
      assert RunsTo(flag, [s], steps, s);
    } else {
      var first, last := steps[..|steps| - 1], steps[|steps| - 1];
      var before :| Leads(before, last, s) && Reaches(flag, first, before);
      ReachesIsRun(flag, first, before);
      var states :| RunsTo(flag, states, first, before);
      ExtendRun(flag, states, first, before, last);
      assert first + [last] == steps;
      assert RunsTo(flag, states + [s], steps, s);
    }
  }

  /** The fields always follow a state that the protocol reaches; each method says
      which steps it adds. Other threads may step between any two of them. */
  class EventLoop {
    var pendingFunctors: seq<Task>
    var callingPendingFunctors: bool
    var eventfd: nat
    ghost const flag: bool
    ghost var state: LoopState
    ghost var steps: seq<LoopStep>

    ghost predicate Valid()
      reads this
    {
      && Reaches(flag, steps, state)
      && state.pending == pendingFunctors
      && state.calling == callingPendingFunctors
      && state.counter == eventfd
    }

    ghost function State(): LoopState
      reads this
    {
      state
    }

    /** The method was exactly these protocol steps. */
    twostate predicate Did(more: seq<LoopStep>)
      reads this
    {
      Valid() && steps == old(steps) + more
    }

    constructor (flag: bool)
      ensures Valid() && State() == InitLoop(flag) && steps == []
    {
      this.flag := flag;
      pendingFunctors := [];
      callingPendingFunctors := flag;
      eventfd := 0;
      state := InitLoop(flag);
      steps := [];
    }

    ghost method Record(step: LoopStep)
      requires Reaches(flag, steps, state) && CanStep(State(), step)
      modifies this`state, this`steps
      ensures Reaches(flag, steps, state)
      ensures State() == Take(old(State()), step) && steps == old(steps) + [step]
    {
      ReachesSnoc(flag, steps, state, step);
      state := Take(state, step);
      steps := steps + [step];
    }

    method Wakeup()
      modifies this`eventfd
      ensures eventfd == Bumped(old(eventfd))
    {
      if eventfd < COUNTER_MAX {
        eventfd := eventfd + 1;
      }
    }

    /** `p` names the calling thread when it is not the loop's own. */
    method QueueInLoop(cb: Task, inLoopThread: bool, p: nat)
      requires Valid()
      requires if inLoopThread then State().InUserCode() && !State().midQueue else p !in State().waking
      modifies this
      ensures Did(if inLoopThread then [SelfAppend(cb), SelfWake] else [ProducerAppend(p, cb), ProducerWake(p)])
      ensures State() == Append(old(State()), cb).(counter := eventfd)
      ensures callingPendingFunctors == old(callingPendingFunctors)
      ensures eventfd == if !inLoopThread || callingPendingFunctors then Bumped(old(eventfd)) else old(eventfd)
    {
      pendingFunctors := pendingFunctors + [cb];
      Record(if inLoopThread then SelfAppend(cb) else ProducerAppend(p, cb));
      if !inLoopThread || callingPendingFunctors {
        Wakeup();
      }
      Record(if inLoopThread then SelfWake else ProducerWake(p));
      assert State().waking == old(State()).waking;
    }

    /** Runs the task at once on the loop's own thread and queues it from any other. */
    method RunInLoop(cb: Task, inLoopThread: bool, p: nat) returns (ran: bool)
      requires Valid() && p !in State().waking
      modifies this
      ensures ran <==> inLoopThread
      ensures ran ==> Did([]) && State() == old(State())
      ensures !ran ==> Did([ProducerAppend(p, cb), ProducerWake(p)])
                       && State() == Append(old(State()), cb).(counter := eventfd)
    {
      if inLoopThread {
        ran := true;
      } else {
        ran := false;
        QueueInLoop(cb, false, p);
      }
    }

    /** The wakeup channel's read handler. */
    method HandleRead()
      requires Valid() && CanStep(State(), HandleOne) && State().pc.active[0] == WakeupChannel
      modifies this
      ensures Did([HandleOne]) && State() == Take(old(State()), HandleOne) && eventfd == 0
    {
      eventfd := 0;
      Record(HandleOne);
    }

    /** The loop's thread and others queue these tasks, in this order. */
    method QueueAll(arrivals: seq<Arrival>)
      requires Valid() && !State().midQueue && Free(arrivals, State().waking)
      requires State().InUserCode() || forall a | a in arrivals :: a.Other?
      modifies this
      ensures Valid() && old(steps) <= steps
      ensures State() == old(State()).(pending := old(pendingFunctors) + TasksOf(arrivals),
                                       log := old(State().log) + TasksOf(arrivals), counter := eventfd)
      ensures callingPendingFunctors && arrivals != [] ==> 0 < eventfd
      ensures arrivals == [] ==> eventfd == old(eventfd)
      ensures old(eventfd) <= eventfd
    {
      for i := 0 to |arrivals|
        invariant Valid() && old(steps) <= steps
        invariant State() == old(State()).(pending := old(pendingFunctors) + TasksOf(arrivals[..i]),
                                           log := old(State().log) + TasksOf(arrivals[..i]), counter := eventfd)
        invariant callingPendingFunctors && 0 < i ==> 0 < eventfd
        invariant old(eventfd) <= eventfd && (i == 0 ==> eventfd == old(eventfd))
      {
        var a := arrivals[i];
        QueueInLoop(a.task, a.Own?, if a.Other? then a.thread else 0);
        assert arrivals[..i + 1][..i] == arrivals[..i];
        Associates(old(pendingFunctors), TasksOf(arrivals[..i]), [a.task]);
        Associates(old(State().log), TasksOf(arrivals[..i]), [a.task]);
      }
      assert arrivals[..|arrivals|] == arrivals;
    }

    /** Calls the next functor of the batch, during which `queued` is queued. */
    method RunFunctor(functor: Task, rest: seq<Task>, queued: seq<Arrival>)
      requires Valid() && State().pc == Running([functor] + rest) && !State().midQueue && callingPendingFunctors
      requires Free(queued, State().waking)
      modifies this
      ensures Valid() && old(steps) <= steps
      ensures State().pc == Running(rest) && !State().midQueue && callingPendingFunctors
      ensures State().executed == old(State()).executed + [functor] && State().waking == old(State().waking)
      ensures pendingFunctors == old(pendingFunctors) + TasksOf(queued)
      ensures TasksOf(queued) != [] ==> 0 < eventfd
      ensures old(eventfd) <= eventfd
    {
      Record(RunTask);
      QueueAll(queued);
    }

    /** The loop over the batch: `script[0]` is queued before the first functor runs,
        `script[i + 1]` by the i-th functor and by other threads meanwhile. */
    method RunBatch(functors: seq<Task>, script: seq<seq<Arrival>>)
      requires Valid() && State().pc == Running(functors) && !State().midQueue
      requires callingPendingFunctors && pendingFunctors == [] && |script| == |functors| + 1
      requires AllFree(script, State().waking)
      modifies this
      ensures Valid() && old(steps) <= steps
      ensures callingPendingFunctors && !State().midQueue && State().pc == Running([])
      ensures State().executed == old(State().executed) + functors && State().waking == old(State().waking)
      ensures pendingFunctors == Concat(script)
      ensures pendingFunctors != [] ==> 0 < eventfd
    {
      QueueAll(script[0]);
      assert ConcatUpTo(script, 1) == [] + TasksOf(script[0]);
      for i := 0 to |functors|
        invariant Valid() && old(steps) <= steps
        invariant callingPendingFunctors && !State().midQueue && State().pc == Running(functors[i..])
        invariant State().executed == old(State().executed) + functors[..i] && State().waking == old(State().waking)
        invariant pendingFunctors == ConcatUpTo(script, i + 1)
        invariant pendingFunctors != [] ==> 0 < eventfd
      {
        NextTask(old(State().executed), functors, i);
        RunFunctor(functors[i], functors[i + 1..], script[i + 1]);
      }
      assert functors[..|functors|] == functors;
    }

    /** Sets the flag and swaps the queue out; other threads queue `late` in between. */
    method SwapOut(late: seq<Arrival>) returns (functors: seq<Task>)
      requires Valid() && State().pc == Dispatching([]) && !State().midQueue
      requires Free(late, State().waking) && forall a | a in late :: a.Other?
      modifies this
      ensures Valid() && old(steps) <= steps
      ensures functors == old(pendingFunctors) + TasksOf(late) && pendingFunctors == []
      ensures State().pc == Running(functors) && !State().midQueue && callingPendingFunctors
      ensures State().executed == old(State().executed) && State().waking == old(State().waking)
    {
      callingPendingFunctors := true;
      Record(EndDispatch);
      QueueAll(late);
      functors := pendingFunctors;
      pendingFunctors := [];
      Record(Swap);
    }

    /** Swaps the queue out and runs it; other threads queue `late` before the swap.
        Exactly the functors queued before the swap run, in order; whatever is queued
        after it stays pending, and then the eventfd is readable. */
    method DoPendingFunctors(late: seq<Arrival>, script: seq<seq<Arrival>>)
      requires Valid() && State().pc == Dispatching([]) && !State().midQueue
      requires Free(late, State().waking) && forall a | a in late :: a.Other?
      requires AllFree(script, State().waking) && |script| == |pendingFunctors| + |TasksOf(late)| + 1
      modifies this
      ensures Valid() && old(steps) <= steps
      ensures State().pc == Polling && !State().midQueue && callingPendingFunctors
      ensures State().executed == old(State().executed) + (old(pendingFunctors) + TasksOf(late))
      ensures pendingFunctors == Concat(script)
      ensures pendingFunctors != [] ==> 0 < eventfd
    {
      var functors := SwapOut(late);
      RunBatch(functors, script);
      Record(EndBatch);
    }

    /** One active channel: the wakeup channel drains the eventfd, any other handler is
        user code; `queued` is queued by it and by other threads meanwhile. */
    method HandleChannel(channel: Active, rest: seq<Active>, queued: seq<Arrival>)
      requires Valid() && State().pc == Dispatching([channel] + rest) && !State().midQueue
      requires Free(queued, State().waking)
      modifies this
      ensures Valid() && old(steps) <= steps
      ensures State().pc == Dispatching(rest) && !State().midQueue
      ensures State().executed == old(State()).executed && State().waking == old(State().waking)
      ensures pendingFunctors == old(pendingFunctors) + TasksOf(queued)
      ensures channel == WakeupChannel && queued == [] ==> eventfd == 0
    {
      if channel == WakeupChannel {
        HandleRead();
      } else {
        Record(HandleOne);
      }
      QueueAll(queued);
    }

    method HandleChannels(active: seq<Active>, queued: seq<seq<Arrival>>)
      requires Valid() && State().pc == Dispatching(active) && !State().midQueue
      requires |queued| == |active| + 1 && AllFree(queued, State().waking)
      modifies this
      ensures Valid() && old(steps) <= steps
      ensures State().pc == Dispatching([]) && !State().midQueue
      ensures State().executed == old(State().executed) && State().waking == old(State().waking)
      ensures pendingFunctors == old(pendingFunctors) + Concat(queued)
    {
      QueueAll(queued[0]);
      assert ConcatUpTo(queued, 1) == [] + TasksOf(queued[0]) == TasksOf(queued[0]);
      for i := 0 to |active|
        invariant Valid() && old(steps) <= steps
        invariant State().pc == Dispatching(active[i..]) && !State().midQueue
        invariant State().executed == old(State().executed) && State().waking == old(State().waking)
        invariant pendingFunctors == old(pendingFunctors) + ConcatUpTo(queued, i + 1)
      {
        ghost var before := ConcatUpTo(queued, i + 1);
        assert active[i..] == [active[i]] + active[i + 1..];
        HandleChannel(active[i], active[i + 1..], queued[i + 1]);
        Associates(old(pendingFunctors), before, TasksOf(queued[i + 1]));
      }
    }

    /** One turn of loop(), with other threads queueing at any point of it: poll reports
        `active`; `queued[0]` is queued before the first handler, `queued[i + 1]` during
        the i-th, `late` between the last handler and the swap, and `script` while the
        batch runs. The turn runs everything queued before the swap, in order, and
        whatever comes after it is pending with the eventfd readable. */
    method LoopOnce(active: seq<Active>, queued: seq<seq<Arrival>>, late: seq<Arrival>, script: seq<seq<Arrival>>)
      requires Valid() && State().pc == Polling && !State().midQueue
      requires CanStep(State(), PollReturn(active)) && |queued| == |active| + 1
      requires AllFree(queued, State().waking) && AllFree(script, State().waking)
      requires Free(late, State().waking) && forall a | a in late :: a.Other?
      requires |script| == |pendingFunctors| + |Concat(queued)| + |TasksOf(late)| + 1
      modifies this
      ensures Valid() && old(steps) <= steps
      ensures State().pc == Polling && !State().midQueue
      ensures State().executed
           == old(State().executed) + (old(pendingFunctors) + Concat(queued) + TasksOf(late))
      ensures pendingFunctors == Concat(script)
      ensures pendingFunctors != [] ==> 0 < eventfd
    {
      Record(PollReturn(active));
      HandleChannels(active, queued);
      DoPendingFunctors(late, script);
    }
  }
}
