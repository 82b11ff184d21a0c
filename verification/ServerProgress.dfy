/** The server settles: dispatching what has been reported and running what has been
    queued, in any order and whatever the callbacks do, ends, and it ends with every
    closed connection erased and destroyed.
 */
module ServerProgress {
  import opened Buffers
  import opened Epoll
  import opened Connections
  import opened ConnectionProperties
  import opened ThreadPools
  import opened Servers
  import opened ServerProperties

  // ---- The work that is left ----

  /** A removal still has a destruction to queue. */
  function Work(f: Functor): nat { if f.RemoveInLoop? then 2 else 1 }

  function QueueWork(queue: seq<Functor>): nat
  {
    if queue == [] then 0 else Work(queue[0]) + QueueWork(queue[1..])
  }

  function TotalWork(queues: seq<seq<Functor>>): nat
  {
    if queues == [] then 0 else QueueWork(queues[0]) + TotalWork(queues[1..])
  }

  function TotalActive(active: seq<seq<ActiveChannel>>): nat
  {
    if active == [] then 0 else |active[0]| + TotalActive(active[1..])
  }

  /** A dispatch may still queue a removal. */
  function WorkLeft(s: Server): nat { 3 * TotalActive(s.active) + TotalWork(s.queues) }

  lemma {:induction false} QueueWorkSnoc(queue: seq<Functor>, f: Functor)
    ensures QueueWork(queue + [f]) == QueueWork(queue) + Work(f)
  {
    if queue == [] {
      assert [f][1..] == [] && [] + [f] == [f];
    } else {
      QueueWorkSnoc(queue[1..], f);
      assert (queue + [f])[1..] == queue[1..] + [f];
    }
  }

  lemma {:induction false} TotalWorkUpdate(queues: seq<seq<Functor>>, l: nat, queue: seq<Functor>)
    requires l < |queues|
    ensures TotalWork(queues[l := queue]) + QueueWork(queues[l]) == TotalWork(queues) + QueueWork(queue)
  {
    if l > 0 {
      TotalWorkUpdate(queues[1..], l - 1, queue);
      assert queues[l := queue][1..] == queues[1..][l - 1 := queue];
    } else {
      assert queues[0 := queue][1..] == queues[1..];
    }
  }

  lemma {:induction false} TotalActiveUpdate(active: seq<seq<ActiveChannel>>, l: nat, list: seq<ActiveChannel>)
    requires l < |active|
    ensures TotalActive(active[l := list]) + |active[l]| == TotalActive(active) + |list|
  {
    if l > 0 {
      TotalActiveUpdate(active[1..], l - 1, list);
      assert active[l := list][1..] == active[1..][l - 1 := list];
    } else {
      assert active[0 := list][1..] == active[1..];
    }
  }

  lemma EnqueueWork(s: Server, loop: LoopId, f: Functor)
    requires loop < |s.queues|
    ensures TotalWork(Enqueue(s, loop, f).queues) == TotalWork(s.queues) + Work(f)
  {
    QueueWorkSnoc(s.queues[loop], f);
    TotalWorkUpdate(s.queues, loop, s.queues[loop] + [f]);
  }

  lemma DequeueWork(s: Server, loop: LoopId)
    requires loop < |s.queues| && s.queues[loop] != []
    ensures TotalWork(Dequeue(s, loop).queues) + Work(s.queues[loop][0]) == TotalWork(s.queues)
  {
    TotalWorkUpdate(s.queues, loop, s.queues[loop][1..]);
  }

  // ---- The loops' own steps ----

  predicate IsOwnStep(step: ServerStep) { step.DispatchNext? || step.RunNext? }

  lemma RemovalWork(s: Server, id: nat)
    requires Alive(s, id)
    ensures TotalWork(RemoveConnectionInLoop(s, id).queues) == TotalWork(s.queues) + 1
    ensures RemoveConnectionInLoop(s, id).active == s.active
    ensures 0 < |s.queues| && s.links[id].loop != BASE_LOOP ==>
              TotalWork(RemoveConnection(s, id).queues) == TotalWork(s.queues) + 2
  {
    RemovalQueues(s, id);
    EnqueueWork(s, s.links[id].loop, Destroyed(id));
    if 0 < |s.queues| {
      EnqueueWork(s, BASE_LOOP, RemoveInLoop(id));
    }
  }

  lemma DispatchedWork(s: Server, id: nat, d: Conn)
    requires Alive(s, id)
    ensures TotalWork(Dispatched(s, id, d).queues) <= TotalWork(s.queues) + 2
  {
    RemovalWork(SetConn(s, id, d), id);
  }

  lemma DispatchDescends(s: Server, loop: LoopId, env: Env)
    requires Safe(s, DispatchNext(loop, env))
    ensures WorkLeft(TakeStep(s, DispatchNext(loop, env))) < WorkLeft(s)
  {
    var e := s.active[loop][0];
    ActiveTaken(s, loop, e, env);
    DispatchedWork(s, e.id, HandleEvent(s.links[e.id].conn, e.revents, env));
    TotalActiveUpdate(s.active, loop, s.active[loop][1..]);
  }

  lemma RunDescends(s: Server, loop: LoopId, ops: seq<UserOp>)
    requires Safe(s, RunNext(loop, ops))
    ensures WorkLeft(TakeStep(s, RunNext(loop, ops))) < WorkLeft(s)
  {
    var f := s.queues[loop][0];
    DequeueWork(s, loop);
    if f.RemoveInLoop? {
      RemovalWork(Dequeue(s, loop), f.id);
    }
  }

  /** Every dispatch and every functor leaves less work, whatever its callbacks do. */
  lemma OwnStepDescends(s: Server, step: ServerStep)
    requires Safe(s, step) && IsOwnStep(step)
    ensures WorkLeft(TakeStep(s, step)) < WorkLeft(s)
  {
    match step
    case DispatchNext(loop, env) => DispatchDescends(s, loop, env);
    case RunNext(loop, ops) => RunDescends(s, loop, ops);
  }

  /** Nothing reported is left to dispatch and nothing queued is left to run. */
  predicate Quiet(s: Server)
  {
    && (forall l | 0 <= l < |s.active| :: s.active[l] == [])
    && (forall l | 0 <= l < |s.queues| :: s.queues[l] == [])
  }

  /** While there is work, some loop can do the next piece of it. */
  lemma OwnStepExists(s: Server)
    requires |s.active| == |s.queues|
    ensures !Quiet(s) ==> exists step :: IsOwnStep(step) && MayStep(s, step)
  {
    if l :| 0 <= l < |s.active| && s.active[l] != [] {
      assert MayStep(s, DispatchNext(l, Env(ReadFails(EWOULDBLOCK), WriteFails(EWOULDBLOCK), [], [])));
    } else if l :| 0 <= l < |s.queues| && s.queues[l] != [] {
      assert MayStep(s, RunNext(l, []));
    }
  }

  // ---- Settling ----

  /** However the loops take turns, what they have to do after a moment of a run is
      bounded by the work left at it. */
  lemma {:induction false} OwnStepsAreFew(states: seq<Server>, steps: seq<ServerStep>, i: nat, j: nat)
    requires IsServerRun(states, steps) && i <= j < |states|
    requires forall k | i <= k < j :: IsOwnStep(steps[k])
    ensures j - i + WorkLeft(states[j]) <= WorkLeft(states[i])
    decreases j
  {
    if i < j {
      OwnStepsAreFew(states, steps, i, j - 1);
      NeverDangling(states, steps, j - 1);
      OwnStepDescends(states[j - 1], steps[j - 1]);
    }
  }

  /** n own steps lead to a quiet server. */
  ghost predicate QuietIn(s: Server, n: nat)
    decreases n
  {
    if n == 0 then Quiet(s)
    else exists step :: IsOwnStep(step) && MayStep(s, step) && Safe(s, step) && QuietIn(TakeStep(s, step), n - 1)
  }

  lemma QuietAfter(s: Server, step: ServerStep, n: nat)
    requires IsOwnStep(step) && MayStep(s, step) && Safe(s, step) && QuietIn(TakeStep(s, step), n)
    ensures QuietIn(s, n + 1)
  {
  }

  /** An own step that keeps the invariant and leaves less work. */
  ghost predicate Progresses(s: Server, step: ServerStep)
  {
    && IsOwnStep(step) && MayStep(s, step) && Safe(s, step)
    && ServerInv(TakeStep(s, step)) && WorkLeft(TakeStep(s, step)) < WorkLeft(s)
  }

  lemma CanProgress(s: Server)
    requires ServerInv(s) && !Quiet(s)
    ensures exists step :: Progresses(s, step)
  {
    OwnStepExists(s);
    var step :| IsOwnStep(step) && MayStep(s, step);
    ServerStepKeeps(s, step);
    OwnStepDescends(s, step);
    assert Progresses(s, step);
  }

  ghost predicate QuietWithin(s: Server, bound: nat) { exists n: nat :: n <= bound && QuietIn(s, n) }

  lemma QuietWithinAfter(s: Server, step: ServerStep, bound: nat)
    requires IsOwnStep(step) && MayStep(s, step) && Safe(s, step) && QuietWithin(TakeStep(s, step), bound)
    ensures QuietWithin(s, bound + 1)
  {
    var n: nat :| n <= bound && QuietIn(TakeStep(s, step), n);
    QuietAfter(s, step, n);
  }

  lemma QuietNow(s: Server, bound: nat)
    requires Quiet(s)
    ensures QuietWithin(s, bound)
  {
    assert QuietIn(s, 0);
  }

  lemma QuietLater(s: Server, bound: nat, larger: nat)
    requires QuietWithin(s, bound) && bound <= larger
    ensures QuietWithin(s, larger)
  {
  }

  lemma {:induction false} Settles(s: Server)
    requires ServerInv(s)
    ensures QuietWithin(s, WorkLeft(s))
    decreases WorkLeft(s)
  {
    if Quiet(s) {
      QuietNow(s, WorkLeft(s));
    } else {
      CanProgress(s);
      var step :| Progresses(s, step);
      Settles(TakeStep(s, step));
      QuietWithinAfter(s, step, WorkLeft(TakeStep(s, step)));
      QuietLater(s, WorkLeft(TakeStep(s, step)) + 1, WorkLeft(s));
    }
  }

  /** From every moment of every run a bounded number of dispatches and functors makes the
      server quiet; and wherever the loops can take no further step of their own, it is
      quiet: the map is the open connections, all others may be freed. */
  lemma ServerSettles(states: seq<Server>, steps: seq<ServerStep>, i: nat)
    requires IsServerRun(states, steps) && i < |states|
    ensures QuietWithin(states[i], WorkLeft(states[i]))
    ensures var s := states[i];
            (forall step | IsOwnStep(step) :: !MayStep(s, step)) ==>
              forall id | id in s.links ::
                && (s.links[id].conn.Registered() <==> s.NameOf(id) in s.connections)
                && (!s.links[id].conn.Registered() ==> s.links[id].finished && Unreferenced(s, id))
  {
    var s := states[i];
    ServerRunKeeps(states, steps, i);
    Settles(s);
    OwnStepExists(s);
    if forall step | IsOwnStep(step) :: !MayStep(s, step) {
      forall id | id in s.links
        ensures (s.links[id].conn.Registered() <==> s.NameOf(id) in s.connections)
        ensures !s.links[id].conn.Registered() ==> s.links[id].finished && Unreferenced(s, id)
      {
        QuietMeansSettled(states, steps, i, id);
      }
    }
  }
}
