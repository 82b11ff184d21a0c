/** The server over its pollers: the poller operations that a run really makes, in
    order, make only legal kernel calls, and at every moment they leave the interest
    list of each loop's epoll instance holding exactly that loop's registered connections.
 */
module KernelProperties {
  import opened Buffers
  import opened Epoll
  import opened Connections
  import opened ConnectionProperties
  import opened ConnectionNames
  import opened ThreadPools
  import opened Servers
  import opened ServerProperties

  // ---- A channel is what its updates have made of it ----

  function Assigned(ch: ChannelState, masks: seq<Events>): ChannelState
    decreases |masks|
  {
    if masks == [] then ch else Assigned(ch.WithEvents(masks[0]), masks[1..])
  }

  /** The masks handed to updateChannel between two moments of a channel. */
  function UpdatesSince(a: ChannelState, b: ChannelState): seq<Events>
    requires a.updates <= b.updates
  {
    b.updates[|a.updates|..]
  }

  /** From a to b the channel has changed by updates only, those that b records. */
  predicate Grows(a: ChannelState, b: ChannelState)
  {
    a.updates <= b.updates && b == Assigned(a, UpdatesSince(a, b))
  }

  lemma GrowNone(a: ChannelState)
    ensures Grows(a, a)
  {
  }

  lemma GrowOne(a: ChannelState, e: Events)
    ensures Grows(a, a.WithEvents(e)) && UpdatesSince(a, a.WithEvents(e)) == [e]
  {
    assert [e][1..] == [];
    assert Assigned(a, [e]) == Assigned(a.WithEvents(e), []);
  }

  lemma {:induction false} AssignedConcat(a: ChannelState, first: seq<Events>, second: seq<Events>)
    ensures Assigned(Assigned(a, first), second) == Assigned(a, first + second)
    decreases |first|
  {
    if first == [] {
      assert first + second == second;
    } else {
      AssignedConcat(a.WithEvents(first[0]), first[1..], second);
      assert (first + second)[1..] == first[1..] + second;
    }
  }

  lemma GrowTrans(a: ChannelState, b: ChannelState, c: ChannelState)
    requires Grows(a, b) && Grows(b, c)
    ensures Grows(a, c)
  {
    AssignedConcat(a, UpdatesSince(a, b), UpdatesSince(b, c));
    assert UpdatesSince(a, c) == UpdatesSince(a, b) + UpdatesSince(b, c);
  }

  lemma SendGrows(c: Conn, data: seq<Byte>, w: WriteResult)
    ensures Grows(c.chan, Send(c, data, w).chan)
  {
    GrowOne(c.chan, c.chan.events.Or(WRITE_EVENT));
    if c.state == Connected {
      if TryWrite(c, data, w).fault {
        FaultDropsAll(c, data, w);
      } else {
        SendEffect(c, data, w);
      }
    }
  }

  lemma {:induction false} UserRunGrows(c: Conn, ops: seq<UserOp>)
    ensures Grows(c.chan, UserRun(c, ops).chan)
  {
    if ops != [] {
      var d := UserRun(c, ops[..|ops| - 1]);
      UserRunGrows(c, ops[..|ops| - 1]);
      match ops[|ops| - 1]
      case UserSend(data, w) =>
        SendGrows(d, data, w);
        GrowTrans(c.chan, d.chan, UserRun(c, ops).chan);
      case UserShutdown =>
      case UserRetrieve(_) =>
    }
  }

  lemma CloseGrows(c: Conn, ops: seq<UserOp>)
    ensures Grows(c.chan, HandleClose(c, ops).chan)
  {
    CloseEffect(c, ops);
    GrowOne(c.chan, NONE_EVENT);
  }

  lemma ReadGrows(c: Conn, env: Env)
    ensures Grows(c.chan, HandleRead(c, env).chan)
  {
    if env.read.Data? {
      if env.read.bytes == [] {
        CloseGrows(c, env.onConnection);
      } else {
        UserRunGrows(Received(c, env.read.bytes), env.onMessage);
      }
    }
  }

  lemma WriteGrows(c: Conn, w: WriteResult)
    ensures Grows(c.chan, HandleWrite(c, w).chan)
  {
    GrowOne(c.chan, c.chan.events.Minus(WRITE_EVENT));
  }

  /** A whole dispatch, user callbacks included, changes the channel by recorded updates only. */
  lemma EventGrows(c: Conn, revents: Events, env: Env)
    ensures Grows(c.chan, HandleEvent(c, revents, env).chan)
  {
    HandleEventStages(c, revents, env);
    var c1 := CloseStage(c, revents, env);
    var c2 := ReadStage(c1, revents, env);
    CloseGrows(c, env.onConnection);
    ReadGrows(c1, env);
    WriteGrows(c2, env.write);
    GrowTrans(c.chan, c1.chan, c2.chan);
    GrowTrans(c.chan, c2.chan, HandleEvent(c, revents, env).chan);
  }

  lemma EstablishGrows(c: Conn, ops: seq<UserOp>)
    ensures Grows(c.chan, ConnectEstablished(c, ops).chan)
  {
    var d := Called(c.(state := Connected, chan := c.chan.EnableReading()), Up);
    GrowOne(c.chan, c.chan.events.Or(READ_EVENT));
    UserRunGrows(d, ops);
    GrowTrans(c.chan, d.chan, ConnectEstablished(c, ops).chan);
  }

  lemma DestroyGrows(c: Conn, ops: seq<UserOp>)
    ensures Grows(c.chan, ConnectDestroyed(c, ops).chan)
  {
    if c.state == Connected {
      var d := Called(c.(state := Disconnected, chan := c.chan.DisableAll()), Down);
      GrowOne(c.chan, NONE_EVENT);
      UserRunGrows(d, ops);
      GrowTrans(c.chan, d.chan, ConnectDestroyed(c, ops).chan);
    }
  }

  // ---- Runs of one poller ----

  const EMPTY_POLLER: PollerState<nat> := PollerState(map[], map[], map[])

  lemma {:induction false} RunConcat(p: PollerState<nat>, first: seq<PollerOp<nat>>, second: seq<PollerOp<nat>>)
    requires IsPollerRun(p, first) && IsPollerRun(PollerAfter(p, first), second)
    ensures IsPollerRun(p, first + second)
    ensures PollerAfter(p, first + second) == PollerAfter(PollerAfter(p, first), second)
    decreases |first|
  {
    if first == [] {
      assert first + second == second;
    } else {
      RunConcat(PollerStep(p, first[0]).state, first[1..], second);
      assert (first + second)[1..] == first[1..] + second;
    }
  }

  /** One updateChannel call for each mask. */
  function Assigns(id: nat, masks: seq<Events>): seq<PollerOp<nat>>
  {
    if masks == [] then [] else [Assign(id, masks[0])] + Assigns(id, masks[1..])
  }

  lemma {:induction false} AssignsRun(p: PollerState<nat>, id: nat, masks: seq<Events>)
    requires Agreement(p) && id in p.live
    ensures IsPollerRun(p, Assigns(id, masks))
    ensures PollerAfter(p, Assigns(id, masks)).live == p.live[id := Assigned(p.live[id], masks)]
    decreases |masks|
  {
    if masks == [] {
      assert p.live[id := p.live[id]] == p.live;
    } else {
      var q := SetEvents(p, id, masks[0]).state;
      SetEventsAgrees(p, id, masks[0]);
      assert Assigns(id, masks)[1..] == Assigns(id, masks[1..]);
      AssignsRun(q, id, masks[1..]);
    }
  }

  lemma GrowthRuns(p: PollerState<nat>, id: nat, ch: ChannelState)
    requires Agreement(p) && id in p.live && Grows(p.live[id], ch)
    ensures var ops := Assigns(id, UpdatesSince(p.live[id], ch));
            IsPollerRun(p, ops) && PollerAfter(p, ops).live == p.live[id := ch]
  {
    AssignsRun(p, id, UpdatesSince(p.live[id], ch));
  }

  lemma CreateRuns(p: PollerState<nat>, id: nat, fd: int, ch: ChannelState)
    requires Agreement(p) && PollerEnabled(p, Create(id, fd)) && Grows(NewChannelState(fd), ch)
    ensures var ops := [Create(id, fd)] + Assigns(id, ch.updates);
            IsPollerRun(p, ops) && PollerAfter(p, ops).live == p.live[id := ch]
  {
    var ops := [Create(id, fd)] + Assigns(id, ch.updates);
    var q := PollerStep(p, Create(id, fd)).state;
    StepAgrees(p, Create(id, fd));
    GrowthRuns(q, id, ch);
    assert ops[1..] == Assigns(id, ch.updates);
    assert q.live[id := ch] == p.live[id := ch];
  }

  lemma CloseRuns(p: PollerState<nat>, id: nat)
    requires id in p.live
    ensures IsPollerRun(p, [Close(id)]) && PollerAfter(p, [Close(id)]).live == p.live - {id}
  {
    assert [Close(id)][1..] == [];
    assert PollerAfter(PollerStep(p, Close(id)).state, []) == PollerStep(p, Close(id)).state;
  }

  // ---- The loops of the server ----

  /** The channels that live on a loop. */
  function LiveOn(s: Server, loop: LoopId): map<nat, ChannelState>
  {
    map id | id in s.links && s.links[id].loop == loop :: s.links[id].conn.chan
  }

  lemma ConnGrows(s: Server, step: ServerStep, id: nat)
    requires Safe(s, step) && id in s.links
    ensures Grows(s.links[id].conn.chan, ConnAfter(s, step, id).chan)
  {
    var c := s.links[id].conn;
    GrowNone(c.chan);
    match step
    case DispatchNext(loop, env) => EventGrows(c, s.active[loop][0].revents, env);
    case RunNext(loop, ops) =>
      EstablishGrows(c, ops);
      DestroyGrows(c, ops);
    case UserCode(_, ops) => UserRunGrows(c, ops);
    case _ =>
  }

  predicate IsHandler(step: ServerStep) { step.DispatchNext? || step.RunNext? || step.UserCode? }

  /** The connection a handler step is about. */
  function Target(s: Server, step: ServerStep): nat
    requires Safe(s, step) && IsHandler(step)
  {
    match step
    case DispatchNext(loop, _) => s.active[loop][0].id
    case RunNext(loop, _) => s.queues[loop][0].id
    case UserCode(id, _) => id
  }

  /** The poller operations that a step makes on a loop: a new channel and its updates,
      the updates of a handler in order, the closing of the fd with its object. */
  function CallsOf(s: Server, step: ServerStep, loop: LoopId): seq<PollerOp<nat>>
    requires Safe(s, step)
  {
    match step
    case Accept(fd, wantsComplete, wantsHighWater, ops) =>
      if PickLoop(s) != loop then [] else
        [Create(s.nextId, fd)]
        + Assigns(s.nextId, NewConnection(s, fd, wantsComplete, wantsHighWater, ops).links[s.nextId].conn.chan.updates)
    case PollLoop(_, _) => []
    case Release(id) => if id in s.links && s.links[id].loop == loop then [Close(id)] else []
    case _ =>
      var id := Target(s, step);
      if s.links[id].loop != loop then [] else
        ConnGrows(s, step, id);
        Assigns(id, UpdatesSince(s.links[id].conn.chan, ConnAfter(s, step, id).chan))
  }

  lemma DispatchLinks(s: Server, loop: LoopId, env: Env)
    requires Safe(s, DispatchNext(loop, env))
    ensures var e := s.active[loop][0];
            var t := TakeStep(s, DispatchNext(loop, env));
            && t.links == s.links[e.id := s.links[e.id].(conn := HandleEvent(s.links[e.id].conn, e.revents, env))]
  {
    var e := s.active[loop][0];
    ActiveTaken(s, loop, e, env);
    RemovalKeepsLinks(SetConn(s, e.id, HandleEvent(s.links[e.id].conn, e.revents, env)), e.id);
  }

  lemma RunLinks(s: Server, loop: LoopId, ops: seq<UserOp>)
    requires Safe(s, RunNext(loop, ops))
    ensures var id := s.queues[loop][0].id;
            var t := TakeStep(s, RunNext(loop, ops));
            && t.links.Keys == s.links.Keys
            && (forall other | other in s.links && other != id :: t.links[other] == s.links[other])
            && t.links[id].loop == s.links[id].loop
            && t.links[id].conn == ConnAfter(s, RunNext(loop, ops), id)
  {
    RemovalKeepsLinks(Dequeue(s, loop), s.queues[loop][0].id);
  }

  lemma LiveOnUpdate(s: Server, t: Server, id: nat, loop: LoopId)
    requires id in s.links && t.links.Keys == s.links.Keys && t.links[id].loop == s.links[id].loop
    requires forall other | other in s.links && other != id :: t.links[other] == s.links[other]
    ensures LiveOn(t, loop) == if s.links[id].loop == loop
                               then LiveOn(s, loop)[id := t.links[id].conn.chan]
                               else LiveOn(s, loop)
  {
  }

  lemma HandlerLinks(s: Server, step: ServerStep)
    requires Safe(s, step) && IsHandler(step)
    ensures var id, t := Target(s, step), TakeStep(s, step);
            && id in s.links && t.links.Keys == s.links.Keys
            && (forall other | other in s.links && other != id :: t.links[other] == s.links[other])
            && t.links[id].loop == s.links[id].loop && t.links[id].conn == ConnAfter(s, step, id)
  {
    match step
    case DispatchNext(l, env) => DispatchLinks(s, l, env);
    case RunNext(l, ops) => RunLinks(s, l, ops);
    case UserCode(_, _) =>
  }

  /** A handler changes the channel of one connection. */
  lemma OneChannelChanges(s: Server, step: ServerStep, loop: LoopId)
    requires Safe(s, step) && IsHandler(step)
    ensures var id, t := Target(s, step), TakeStep(s, step);
            && id in s.links
            && LiveOn(t, loop) == if s.links[id].loop == loop
                                  then LiveOn(s, loop)[id := ConnAfter(s, step, id).chan]
                                  else LiveOn(s, loop)
  {
    HandlerLinks(s, step);
    LiveOnUpdate(s, TakeStep(s, step), Target(s, step), loop);
  }

  /** The poller stands where the loop's channels stand. */
  ghost predicate Mirrors(p: PollerState<nat>, s: Server, loop: LoopId)
  {
    Agreement(p) && p.live == LiveOn(s, loop)
  }

  lemma HandlerRuns(s: Server, step: ServerStep, loop: LoopId, p: PollerState<nat>)
    requires Safe(s, step) && IsHandler(step) && Mirrors(p, s, loop)
    ensures IsPollerRun(p, CallsOf(s, step, loop))
    ensures PollerAfter(p, CallsOf(s, step, loop)).live == LiveOn(TakeStep(s, step), loop)
  {
    OneChannelChanges(s, step, loop);
    var id := Target(s, step);
    if s.links[id].loop == loop {
      ConnGrows(s, step, id);
      GrowthRuns(p, id, ConnAfter(s, step, id).chan);
    }
  }

  lemma NewConnEstablished(fd: int, wc: bool, hw: bool, ops: seq<UserOp>)
    ensures ConnectEstablished(NewConn(fd, wc, hw), ops).chan.fd == fd
    ensures Grows(NewChannelState(fd), ConnectEstablished(NewConn(fd, wc, hw), ops).chan)
  {
    NewConnInv(fd, wc, hw);
    EstablishKeeps(NewConn(fd, wc, hw), ops);
    EstablishGrows(NewConn(fd, wc, hw), ops);
  }

  lemma AcceptLiveOn(s: Server, t: Server, link: Link, loop: LoopId)
    requires t.links == s.links[s.nextId := link] && s.nextId !in s.links
    ensures LiveOn(t, loop) == if link.loop == loop
                               then LiveOn(s, loop)[s.nextId := link.conn.chan]
                               else LiveOn(s, loop)
  {
  }

  lemma AcceptRuns(s: Server, fd: int, wc: bool, hw: bool, ops: seq<UserOp>, loop: LoopId, p: PollerState<nat>)
    requires LinksOk(s) && MayStep(s, Accept(fd, wc, hw, ops)) && PickLoop(s) < |s.queues| && Mirrors(p, s, loop)
    ensures var calls := CallsOf(s, Accept(fd, wc, hw, ops), loop);
            IsPollerRun(p, calls) && PollerAfter(p, calls).live == LiveOn(NewConnection(s, fd, wc, hw, ops), loop)
  {
    LinkIdsBelowNext(s);
    NewConnEstablished(fd, wc, hw, ops);
    GrowNone(NewChannelState(fd));
    AcceptAdds(s, fd, wc, hw, ops);
    var t := NewConnection(s, fd, wc, hw, ops);
    var link := t.links[s.nextId];
    AcceptLiveOn(s, t, link, loop);
    if link.loop == loop {
      CreateRuns(p, s.nextId, fd, link.conn.chan);
    }
  }

  lemma ReleaseRuns(s: Server, id: nat, loop: LoopId, p: PollerState<nat>)
    requires id in s.links && Mirrors(p, s, loop)
    ensures var calls := CallsOf(s, Release(id), loop);
            IsPollerRun(p, calls) && PollerAfter(p, calls).live == LiveOn(s.(links := s.links - {id}), loop)
  {
    var t := s.(links := s.links - {id});
    if s.links[id].loop == loop {
      CloseRuns(p, id);
      assert LiveOn(t, loop) == LiveOn(s, loop) - {id};
    } else {
      assert LiveOn(t, loop) == LiveOn(s, loop);
    }
  }

  /** What a step does to a loop's poller is a run of it, all of whose kernel calls are
      legal, and it takes the poller to where the loop's channels then stand. */
  lemma StepRunsPoller(s: Server, step: ServerStep, loop: LoopId, p: PollerState<nat>)
    requires LinksOk(s) && MayStep(s, step) && Safe(s, step) && Mirrors(p, s, loop)
    ensures var calls := CallsOf(s, step, loop);
            IsPollerRun(p, calls) && AllLegal(p, calls) && Mirrors(PollerAfter(p, calls), TakeStep(s, step), loop)
  {
    match step {
      case Accept(fd, wc, hw, ops) => AcceptRuns(s, fd, wc, hw, ops, loop, p);
      case PollLoop(_, _) => assert LiveOn(TakeStep(s, step), loop) == LiveOn(s, loop);
      case Release(id) => ReleaseRuns(s, id, loop, p);
      case _ => HandlerRuns(s, step, loop, p);
    }
    RunAgrees(p, CallsOf(s, step, loop));
  }

  /** The poller operations of one loop, in order, up to a moment of a run. */
  ghost function CallLog(states: seq<Server>, steps: seq<ServerStep>, i: nat, loop: LoopId): seq<PollerOp<nat>>
    requires IsServerRun(states, steps) && i < |states|
    decreases i
  {
    if i == 0 then [] else
      NeverDangling(states, steps, i - 1);
      CallLog(states, steps, i - 1, loop) + CallsOf(states[i - 1], steps[i - 1], loop)
  }

  ghost predicate LogRuns(log: seq<PollerOp<nat>>, s: Server, loop: LoopId)
  {
    IsPollerRun(EMPTY_POLLER, log) && AllLegal(EMPTY_POLLER, log) && Mirrors(PollerAfter(EMPTY_POLLER, log), s, loop)
  }

  lemma LogExtends(log: seq<PollerOp<nat>>, s: Server, step: ServerStep, loop: LoopId)
    requires LogRuns(log, s, loop) && LinksOk(s) && MayStep(s, step) && Safe(s, step)
    ensures LogRuns(log + CallsOf(s, step, loop), TakeStep(s, step), loop)
  {
    var p := PollerAfter(EMPTY_POLLER, log);
    StepRunsPoller(s, step, loop, p);
    RunConcat(EMPTY_POLLER, log, CallsOf(s, step, loop));
    RunAgrees(EMPTY_POLLER, log + CallsOf(s, step, loop));
  }

  lemma {:induction false} CallLogRuns(states: seq<Server>, steps: seq<ServerStep>, i: nat, loop: LoopId)
    requires IsServerRun(states, steps) && i < |states|
    ensures LogRuns(CallLog(states, steps, i, loop), states[i], loop)
  {
    if i == 0 {
      assert LiveOn(states[0], loop) == map[];
    } else {
      CallLogRuns(states, steps, i - 1, loop);
      NeverDangling(states, steps, i - 1);
      ServerRunKeeps(states, steps, i - 1);
      LogExtends(CallLog(states, steps, i - 1, loop), states[i - 1], steps[i - 1], loop);
    }
  }

  /** The kernel's interest list holds exactly the registered connections of the loop. */
  ghost predicate KernelHolds(s: Server, loop: LoopId, kernel: map<int, Registration<nat>>)
  {
    && (forall id | id in s.links && s.links[id].loop == loop && s.links[id].conn.Registered() ::
          var ch := s.links[id].conn.chan;
          ch.fd in kernel && kernel[ch.fd] == Registration(id, ch.events))
    && (forall fd | fd in kernel ::
          var id := kernel[fd].who;
          && id in s.links && s.links[id].loop == loop
          && s.links[id].conn.Registered() && s.links[id].conn.chan.fd == fd)
  }

  lemma AgreementIsKernel(s: Server, loop: LoopId, p: PollerState<nat>)
    requires Mirrors(p, s, loop)
    ensures KernelHolds(s, loop, p.kernel)
  {
    forall id | id in s.links && s.links[id].loop == loop
      ensures var ch := s.links[id].conn.chan;
              && (ch.fd in p.kernel <==> ch.index == Added)
              && (ch.index == Added ==> p.kernel[ch.fd] == Registration(id, ch.events))
    {
      assert id in p.live && ChannelAgrees(p, id);
    }
  }

  /** At every moment of every interleaving, the poller operations made so far on a loop
      are a run of its poller in which no kernel call has failed, and they have left the
      interest list holding exactly the registered connections of that loop, each under
      its present mask. */
  lemma KernelMatchesServer(states: seq<Server>, steps: seq<ServerStep>, i: nat, loop: LoopId)
    requires IsServerRun(states, steps) && i < |states|
    ensures var log := CallLog(states, steps, i, loop);
            && IsPollerRun(EMPTY_POLLER, log) && AllLegal(EMPTY_POLLER, log)
            && PollerAfter(EMPTY_POLLER, log).live == LiveOn(states[i], loop)
            && KernelHolds(states[i], loop, PollerAfter(EMPTY_POLLER, log).kernel)
  {
    CallLogRuns(states, steps, i, loop);
    AgreementIsKernel(states[i], loop, PollerAfter(EMPTY_POLLER, CallLog(states, steps, i, loop)));
  }

  /** Whatever a loop's epoll instance watches is in the connection map under its own name. */
  lemma WatchedIsReferenced(states: seq<Server>, steps: seq<ServerStep>, i: nat, loop: LoopId, fd: int)
    requires IsServerRun(states, steps) && i < |states|
    requires IsPollerRun(EMPTY_POLLER, CallLog(states, steps, i, loop))
    requires fd in PollerAfter(EMPTY_POLLER, CallLog(states, steps, i, loop)).kernel
    ensures var s := states[i];
            var id := PollerAfter(EMPTY_POLLER, CallLog(states, steps, i, loop)).kernel[fd].who;
            && id in s.links && s.links[id].loop == loop && s.links[id].conn.chan.fd == fd
            && s.NameOf(id) in s.connections && s.connections[s.NameOf(id)] == id
  {
    KernelMatchesServer(states, steps, i, loop);
    var id := PollerAfter(EMPTY_POLLER, CallLog(states, steps, i, loop)).kernel[fd].who;
    RegisteredIsReferenced(states, steps, i, id);
  }
}
