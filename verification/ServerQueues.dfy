/** The lists of the server's loops over whole runs: functors run in the order they were
    queued, and every channel that a poll reports is dispatched, in the order reported.
 */
module ServerQueueProperties {
  import opened Buffers
  import opened Epoll
  import opened Connections
  import opened ConnectionProperties
  import opened ThreadPools
  import opened Servers
  import opened ServerProperties

  // ---- What a step does to one loop's lists ----

  /** The dispatch closes its connection. */
  predicate Closes(s: Server, loop: LoopId, env: Env)
    requires Safe(s, DispatchNext(loop, env))
  {
    var e := s.active[loop][0];
    var c := s.links[e.id].conn;
    IsOpen(c) && IsClosed(HandleEvent(c, e.revents, env))
  }

  /** The functors that a step queues on a loop: a connection accepted for another loop is
      to be established there, one that closes there is to be removed by the base loop, and
      one that the base loop removes is to be destroyed on its own. */
  function QueuedBy(s: Server, step: ServerStep, loop: LoopId): seq<Functor>
    requires Safe(s, step)
  {
    match step
    case Accept(_, _, _, _) =>
      if PickLoop(s) == loop && loop != BASE_LOOP then [Established(s.nextId)] else []
    case DispatchNext(l, env) =>
      if loop != BASE_LOOP || !Closes(s, l, env) then [] else
        var id := s.active[l][0].id;
        if s.links[id].loop == BASE_LOOP then [Destroyed(id)] else [RemoveInLoop(id)]
    case RunNext(l, _) =>
      var f := s.queues[l][0];
      if f.RemoveInLoop? && s.links[f.id].loop == loop then [Destroyed(f.id)] else []
    case _ => []
  }

  /** The functor that a step runs on a loop. */
  function RunBy(s: Server, step: ServerStep, loop: LoopId): seq<Functor>
    requires Safe(s, step)
  {
    if step.RunNext? && step.loop == loop then [s.queues[loop][0]] else []
  }

  function ReportedBy(step: ServerStep, loop: LoopId): seq<ActiveChannel>
  {
    if step.PollLoop? && step.loop == loop then step.ready else []
  }

  function DispatchedBy(s: Server, step: ServerStep, loop: LoopId): seq<ActiveChannel>
    requires Safe(s, step)
  {
    if step.DispatchNext? && step.loop == loop then [s.active[loop][0]] else []
  }

  lemma AcceptQueue(s: Server, fd: int, wc: bool, hw: bool, ops: seq<UserOp>, loop: LoopId)
    requires PickLoop(s) < |s.queues| && loop < |s.queues|
    ensures var t := NewConnection(s, fd, wc, hw, ops);
            && |t.queues| == |s.queues| && t.active == s.active
            && t.queues[loop] == s.queues[loop] + QueuedBy(s, Accept(fd, wc, hw, ops), loop)
  {
    assert s.queues[loop] + [] == s.queues[loop];
  }

  lemma RemovalQueue(s: Server, id: nat, loop: LoopId)
    requires Alive(s, id) && loop < |s.queues|
    ensures var t, u := RemoveConnection(s, id), RemoveConnectionInLoop(s, id);
            && |t.queues| == |u.queues| == |s.queues| && t.active == u.active == s.active
            && u.queues[loop] == s.queues[loop] + (if s.links[id].loop == loop then [Destroyed(id)] else [])
            && t.queues[loop] == s.queues[loop] +
                 (if loop != BASE_LOOP then []
                  else if s.links[id].loop == BASE_LOOP then [Destroyed(id)] else [RemoveInLoop(id)])
  {
    assert s.queues[loop] + [] == s.queues[loop];
  }

  lemma ClosesAsks(s: Server, loop: LoopId, env: Env)
    requires ServerInv(s) && MayStep(s, DispatchNext(loop, env)) && Safe(s, DispatchNext(loop, env))
    ensures var e := s.active[loop][0];
            var c := s.links[e.id].conn;
            Closes(s, loop, env) <==> AskedRemoval(c, HandleEvent(c, e.revents, env))
  {
    var e := s.active[loop][0];
    OpenIsListed(s, loop);
    AsksExactlyWhenClosing(s.links[e.id].conn, e.revents, env);
  }

  lemma DispatchedQueue(s: Server, id: nat, d: Conn, loop: LoopId)
    requires Alive(s, id) && loop < |s.queues|
    ensures var t := Dispatched(s, id, d);
            && |t.queues| == |s.queues|
            && t.queues[loop] == s.queues[loop] +
                 (if loop != BASE_LOOP || !AskedRemoval(s.links[id].conn, d) then []
                  else if s.links[id].loop == BASE_LOOP then [Destroyed(id)] else [RemoveInLoop(id)])
  {
    RemovalQueue(SetConn(s, id, d), id, loop);
    assert s.queues[loop] + [] == s.queues[loop];
  }

  lemma DispatchQueue(s: Server, l: LoopId, env: Env, loop: LoopId)
    requires ServerInv(s) && MayStep(s, DispatchNext(l, env)) && Safe(s, DispatchNext(l, env)) && loop < |s.queues|
    ensures var step := DispatchNext(l, env);
            var t := TakeStep(s, step);
            && |t.queues| == |s.queues| && t.queues[loop] == s.queues[loop] + QueuedBy(s, step, loop)
            && t.active == s.active[l := s.active[l][1..]]
  {
    var e := s.active[l][0];
    ClosesAsks(s, l, env);
    ActiveTaken(s, l, e, env);
    DispatchedQueue(s, e.id, HandleEvent(s.links[e.id].conn, e.revents, env), loop);
  }

  lemma RunQueue(s: Server, l: LoopId, ops: seq<UserOp>, loop: LoopId)
    requires Safe(s, RunNext(l, ops)) && loop < |s.queues|
    ensures var step := RunNext(l, ops);
            var t := TakeStep(s, step);
            && |t.queues| == |s.queues| && t.active == s.active
            && RunBy(s, step, loop) + t.queues[loop] == s.queues[loop] + QueuedBy(s, step, loop)
  {
    var u := Dequeue(s, l);
    var f := s.queues[l][0];
    assert RunBy(s, RunNext(l, ops), loop) + u.queues[loop] == s.queues[loop];
    if f.RemoveInLoop? {
      RemovalQueue(u, f.id, loop);
    }
  }

  /** Every step takes functors off the front of a loop's queue and puts them at its end. */
  lemma StepQueue(s: Server, step: ServerStep, loop: LoopId)
    requires ServerInv(s) && MayStep(s, step) && Safe(s, step) && loop < |s.queues|
    ensures var t := TakeStep(s, step);
            && |t.queues| == |s.queues|
            && RunBy(s, step, loop) + t.queues[loop] == s.queues[loop] + QueuedBy(s, step, loop)
  {
    match step
    case Accept(fd, wc, hw, ops) => AcceptQueue(s, fd, wc, hw, ops, loop);
    case DispatchNext(l, env) => DispatchQueue(s, l, env, loop);
    case RunNext(l, ops) => RunQueue(s, l, ops, loop);
    case _ =>
  }

  lemma StepActive(s: Server, step: ServerStep, loop: LoopId)
    requires MayStep(s, step) && Safe(s, step) && loop < |s.active|
    ensures var t := TakeStep(s, step);
            && |t.active| == |s.active|
            && DispatchedBy(s, step, loop) + t.active[loop] == s.active[loop] + ReportedBy(step, loop)
  {
    match step
    case DispatchNext(l, env) => DispatchActive(s, l, env);
    case RunNext(l, ops) => RunKeepsActive(s, l, ops);
    case Accept(fd, wc, hw, ops) => AcceptKeepsActive(s, fd, wc, hw, ops);
    case _ =>
  }

  lemma AcceptKeepsActive(s: Server, fd: int, wc: bool, hw: bool, ops: seq<UserOp>)
    requires PickLoop(s) < |s.queues|
    ensures NewConnection(s, fd, wc, hw, ops).active == s.active
  {
  }

  lemma DispatchActive(s: Server, l: LoopId, env: Env)
    requires Safe(s, DispatchNext(l, env))
    ensures TakeStep(s, DispatchNext(l, env)).active == s.active[l := s.active[l][1..]]
  {
    ActiveTaken(s, l, s.active[l][0], env);
  }

  lemma RunKeepsActive(s: Server, loop: LoopId, ops: seq<UserOp>)
    requires Safe(s, RunNext(loop, ops))
    ensures TakeStep(s, RunNext(loop, ops)).active == s.active
  {
  }

  // ---- Over every run ----

  ghost function QueueLog(states: seq<Server>, steps: seq<ServerStep>, i: nat, loop: LoopId): seq<Functor>
    requires IsServerRun(states, steps) && i < |states|
    decreases i
  {
    if i == 0 then [] else
      NeverDangling(states, steps, i - 1);
      QueueLog(states, steps, i - 1, loop) + QueuedBy(states[i - 1], steps[i - 1], loop)
  }

  ghost function RunLog(states: seq<Server>, steps: seq<ServerStep>, i: nat, loop: LoopId): seq<Functor>
    requires IsServerRun(states, steps) && i < |states|
    decreases i
  {
    if i == 0 then [] else
      NeverDangling(states, steps, i - 1);
      RunLog(states, steps, i - 1, loop) + RunBy(states[i - 1], steps[i - 1], loop)
  }

  ghost function ReportLog(steps: seq<ServerStep>, i: nat, loop: LoopId): seq<ActiveChannel>
    requires i <= |steps|
    decreases i
  {
    if i == 0 then [] else ReportLog(steps, i - 1, loop) + ReportedBy(steps[i - 1], loop)
  }

  ghost function DispatchLog(states: seq<Server>, steps: seq<ServerStep>, i: nat, loop: LoopId): seq<ActiveChannel>
    requires IsServerRun(states, steps) && i < |states|
    decreases i
  {
    if i == 0 then [] else
      NeverDangling(states, steps, i - 1);
      DispatchLog(states, steps, i - 1, loop) + DispatchedBy(states[i - 1], steps[i - 1], loop)
  }

  /** Moving the head of a list to the end of what came before it, and adding at its tail. */
  lemma Regrouped<T>(done: seq<T>, head: seq<T>, rest: seq<T>, list: seq<T>, more: seq<T>)
    requires head + rest == list + more
    ensures (done + head) + rest == (done + list) + more
  {
    assert (done + head) + rest == done + (head + rest);
    assert (done + list) + more == done + (list + more);
  }

  lemma {:induction false} LoopsStay(states: seq<Server>, steps: seq<ServerStep>, i: nat, loop: LoopId)
    requires IsServerRun(states, steps) && i < |states| && loop <= states[0].numLoops
    ensures loop < |states[i].queues| && loop < |states[i].active|
  {
    if i > 0 {
      LoopsStay(states, steps, i - 1, loop);
      NeverDangling(states, steps, i - 1);
      ServerRunKeeps(states, steps, i - 1);
      StepQueue(states[i - 1], steps[i - 1], loop);
      StepActive(states[i - 1], steps[i - 1], loop);
    }
  }

  /** On every loop of every run, the functors that have run, then those waiting, are the
      functors queued, in that order: none is lost, run twice or overtaken. */
  lemma {:induction false} FunctorsInOrder(states: seq<Server>, steps: seq<ServerStep>, i: nat, loop: LoopId)
    requires IsServerRun(states, steps) && i < |states| && loop <= states[0].numLoops
    ensures loop < |states[i].queues|
    ensures RunLog(states, steps, i, loop) + states[i].queues[loop] == QueueLog(states, steps, i, loop)
  {
    LoopsStay(states, steps, i, loop);
    if i > 0 {
      var s := states[i - 1];
      FunctorsInOrder(states, steps, i - 1, loop);
      NeverDangling(states, steps, i - 1);
      ServerRunKeeps(states, steps, i - 1);
      StepQueue(s, steps[i - 1], loop);
      Regrouped(RunLog(states, steps, i - 1, loop), RunBy(s, steps[i - 1], loop), states[i].queues[loop],
                s.queues[loop], QueuedBy(s, steps[i - 1], loop));
    }
  }

  /** On every loop of every run, the channels dispatched, then those still to be, are the
      channels that polls have reported, in that order, with the events reported. */
  lemma {:induction false} ReportsAreDispatched(states: seq<Server>, steps: seq<ServerStep>, i: nat, loop: LoopId)
    requires IsServerRun(states, steps) && i < |states| && loop <= states[0].numLoops
    ensures loop < |states[i].active|
    ensures DispatchLog(states, steps, i, loop) + states[i].active[loop] == ReportLog(steps, i, loop)
  {
    LoopsStay(states, steps, i, loop);
    if i > 0 {
      var s := states[i - 1];
      ReportsAreDispatched(states, steps, i - 1, loop);
      NeverDangling(states, steps, i - 1);
      ServerRunKeeps(states, steps, i - 1);
      StepActive(s, steps[i - 1], loop);
      Regrouped(DispatchLog(states, steps, i - 1, loop), DispatchedBy(s, steps[i - 1], loop), states[i].active[loop],
                s.active[loop], ReportedBy(steps[i - 1], loop));
    }
  }

  /** Epoll may report any registered connection of an idle loop, with any events inside
      its mask, hang-ups and errors. */
  lemma MayReport(s: Server, loop: LoopId, id: nat, revents: Events)
    requires ServerInv(s) && loop < |s.active| && s.active[loop] == []
    requires id in s.links && s.links[id].loop == loop && s.links[id].conn.Registered()
    requires revents.Within(s.links[id].conn.chan.events)
    ensures var step := PollLoop(loop, [ActiveChannel(id, revents)]);
            MayStep(s, step) && ServerInv(TakeStep(s, step))
  {
    ServerStepKeeps(s, PollLoop(loop, [ActiveChannel(id, revents)]));
  }

  /** What has been reported next on a loop is dispatched next, to that connection. */
  lemma HeadIsDispatched(s: Server, loop: LoopId, env: Env)
    requires ServerInv(s) && MayStep(s, DispatchNext(loop, env))
    ensures Safe(s, DispatchNext(loop, env))
    ensures var e, t := s.active[loop][0], TakeStep(s, DispatchNext(loop, env));
            && e.id in t.links && e.id in s.links
            && t.links[e.id].conn == HandleEvent(s.links[e.id].conn, e.revents, env)
  {
    var e := s.active[loop][0];
    OpenIsListed(s, loop);
    var d := HandleEvent(s.links[e.id].conn, e.revents, env);
    ActiveTaken(s, loop, e, env);
    RemovalKeepsLinks(SetConn(s, e.id, d), e.id);
  }

  /** So the server acts on whatever epoll can report of a connection. */
  lemma ReportReaches(s: Server, loop: LoopId, id: nat, revents: Events, env: Env)
    requires ServerInv(s) && loop < |s.active| && s.active[loop] == []
    requires id in s.links && s.links[id].loop == loop && s.links[id].conn.Registered()
    requires revents.Within(s.links[id].conn.chan.events) && Benign(revents, env.read)
    ensures MayStep(s, PollLoop(loop, [ActiveChannel(id, revents)]))
    ensures var t := TakeStep(s, PollLoop(loop, [ActiveChannel(id, revents)]));
            && MayStep(t, DispatchNext(loop, env)) && Safe(t, DispatchNext(loop, env))
            && id in TakeStep(t, DispatchNext(loop, env)).links
            && TakeStep(t, DispatchNext(loop, env)).links[id].conn == HandleEvent(s.links[id].conn, revents, env)
  {
    MayReport(s, loop, id, revents);
    HeadIsDispatched(TakeStep(s, PollLoop(loop, [ActiveChannel(id, revents)])), loop, env);
  }
}
