/** What becomes of what the user asks for and of what the peer sends, over whole runs. */
module RequestProperties {
  import opened Buffers
  import opened Epoll
  import opened Connections
  import opened ConnectionProperties
  import opened OperationProperties
  import opened Ideals

  // ---- Every send that should be accepted is ----

  /** A send is honoured when it finds the connection established, unless nothing is
      pending and the socket refuses it. */
  predicate Honoured(c: Conn, w: WriteResult) { c.state == Connected && !(c.output == [] && Refuses(w)) }

  function SentBy(c: Conn, op: UserOp): seq<seq<Byte>>
  {
    if op.UserSend? && Honoured(c, op.w) then [op.data] else []
  }

  /** The honoured sends of some user code, in order. */
  function UserSends(c: Conn, ops: seq<UserOp>): seq<seq<Byte>>
  {
    if ops == [] then [] else
      UserSends(c, ops[..|ops| - 1]) + SentBy(UserRun(c, ops[..|ops| - 1]), ops[|ops| - 1])
  }

  /** The honoured sends of a step; callbacks that announce the end of a connection have none. */
  function StepSends(c: Conn, step: ConnStep): seq<seq<Byte>>
  {
    match step
    case Establish(ops) => UserSends(Called(c.(state := Connected, chan := c.chan.EnableReading()), Up), ops)
    case Event(revents, env) =>
      if (revents.pollin || (revents.pri && !revents.hup)) && env.read.Data? && env.read.bytes != []
      then UserSends(Received(c, env.read.bytes), env.onMessage) else []
    case User(ops) => UserSends(c, ops)
    case Destroy(_) => []
  }

  function RunSends(states: seq<Conn>, steps: seq<ConnStep>, n: nat): seq<seq<Byte>>
    requires |states| == |steps| + 1 && n < |states|
  {
    if n == 0 then [] else RunSends(states, steps, n - 1) + StepSends(states[n - 1], steps[n - 1])
  }

  lemma ApplyAccepts(c: Conn, op: UserOp)
    requires Inv(c)
    ensures UserApply(c, op).accepted == c.accepted + SentBy(c, op)
  {
    assert c.accepted + [] == c.accepted;
    match op
    case UserSend(data, w) =>
      if c.state == Connected {
        SendIsAnswered(c, data, w);
      }
    case UserShutdown => ShutdownMeans(c);
    case UserRetrieve(_) =>
  }

  lemma {:induction false} UserAccepts(c: Conn, ops: seq<UserOp>)
    requires Inv(c)
    ensures UserRun(c, ops).accepted == c.accepted + UserSends(c, ops)
  {
    if ops == [] {
      assert c.accepted + [] == c.accepted;
    } else {
      var d, op := UserRun(c, ops[..|ops| - 1]), ops[|ops| - 1];
      UserRunKeeps(c, ops[..|ops| - 1]);
      UserAccepts(c, ops[..|ops| - 1]);
      ApplyAccepts(d, op);
      assert (c.accepted + UserSends(c, ops[..|ops| - 1])) + SentBy(d, op)
          == c.accepted + (UserSends(c, ops[..|ops| - 1]) + SentBy(d, op));
    }
  }

  lemma CloseAccepts(c: Conn, ops: seq<UserOp>)
    requires Inv(c) && IsOpen(c)
    ensures HandleClose(c, ops).accepted == c.accepted
  {
    CloseMeans(c, ops);
  }

  lemma ReadAccepts(c: Conn, env: Env)
    requires Inv(c) && IsOpen(c)
    ensures HandleRead(c, env).accepted
         == c.accepted + (if env.read.Data? && env.read.bytes != []
                          then UserSends(Received(c, env.read.bytes), env.onMessage) else [])
  {
    assert c.accepted + [] == c.accepted;
    if env.read.Data? {
      if env.read.bytes == [] {
        CloseAccepts(c, env.onConnection);
      } else {
        ReceivedKeeps(c, env.read.bytes);
        UserAccepts(Received(c, env.read.bytes), env.onMessage);
      }
    }
  }

  lemma WriteAccepts(c: Conn, w: WriteResult)
    requires Inv(c)
    ensures HandleWrite(c, w).accepted == c.accepted
  {
    if Progresses(c, w) {
      WriteDrains(c, w);
    }
  }

  lemma EventAccepts(c: Conn, revents: Events, env: Env)
    requires Inv(c) && CanStep(c, Event(revents, env))
    ensures HandleEvent(c, revents, env).accepted == c.accepted + StepSends(c, Event(revents, env))
  {
    HandleEventStages(c, revents, env);
    CloseReadKeeps(c, revents, env);
    assert c.accepted + [] == c.accepted;
    WriteAccepts(ReadStage(CloseStage(c, revents, env), revents, env), env.write);
    if revents.hup && !revents.pollin {
      CloseAccepts(c, env.onConnection);
    } else if revents.pollin || revents.pri {
      ReadAccepts(c, env);
    }
  }

  lemma StepAccepts(c: Conn, step: ConnStep)
    requires Inv(c) && CanStep(c, step)
    ensures Take(c, step).accepted == c.accepted + StepSends(c, step)
  {
    assert c.accepted + [] == c.accepted;
    match step
    case Establish(ops) =>
      UpKeeps(c);
      UserAccepts(Called(c.(state := Connected, chan := c.chan.EnableReading()), Up), ops);
    case Event(revents, env) => EventAccepts(c, revents, env);
    case User(ops) => UserAccepts(c, ops);
    case Destroy(ops) =>
      if c.state == Connected {
        ConnectedIsOpen(c);
        DestroyClosesIff(c, ops);
      }
  }

  /** Over every run, the accepted sends are exactly those the user made on the
      established connection and the socket did not refuse, each once and in order. */
  lemma {:induction false} AcceptedAreHonoured(states: seq<Conn>, steps: seq<ConnStep>, n: nat)
    requires IsRun(states, steps) && n < |states|
    ensures states[n].accepted == RunSends(states, steps, n)
  {
    if n > 0 {
      AcceptedAreHonoured(states, steps, n - 1);
      RunKeeps(states, steps, n - 1, n - 1);
      StepAccepts(states[n - 1], steps[n - 1]);
      assert states[n - 1 + 1] == Take(states[n - 1], steps[n - 1]);
    }
  }

  // ---- Every byte read is there to retrieve ----

  /** What a step reads from the socket. */
  function ReadBy(step: ConnStep): seq<Byte>
  {
    match step
    case Event(revents, env) =>
      if (revents.pollin || (revents.pri && !revents.hup)) && env.read.Data? then env.read.bytes else []
    case _ => []
  }

  function ReadIn(steps: seq<ConnStep>): seq<Byte>
  {
    if steps == [] then [] else ReadIn(steps[..|steps| - 1]) + ReadBy(steps[|steps| - 1])
  }

  lemma {:induction false} IdealUserReads(i: Ideal, ops: seq<UserOp>)
    requires i.Ok()
    ensures IdealUser(i, ops).arrived == i.arrived
  {
    if ops != [] {
      IdealUserReads(i, ops[..|ops| - 1]);
      IdealApplyReads(IdealUser(i, ops[..|ops| - 1]), ops[|ops| - 1]);
    }
  }

  lemma IdealApplyReads(i: Ideal, op: UserOp)
    requires i.Ok()
    ensures IdealApply(i, op).arrived == i.arrived
  {
  }

  lemma IdealReadReads(i: Ideal, env: Env)
    requires i.Ok()
    ensures IdealRead(i, env).arrived == i.arrived + (if env.read.Data? then env.read.bytes else [])
  {
    assert i.arrived + [] == i.arrived;
    if env.read.Data? {
      IdealUserReads(i.(open := false, calls := i.calls + [Down]), env.onConnection);
      IdealUserReads(Arrived(i, env.read.bytes), env.onMessage);
    }
  }

  lemma IdealEventReads(i: Ideal, c: Conn, revents: Events, env: Env)
    requires i.Ok() && CanStep(c, Event(revents, env))
    ensures IdealEvent(i, revents, env).arrived == i.arrived + ReadBy(Event(revents, env))
  {
    assert i.arrived + [] == i.arrived;
    IdealReadReads(i, env);
    IdealUserReads(i.(open := false, calls := i.calls + [Down]), env.onConnection);
  }

  lemma IdealStepReads(i: Ideal, c: Conn, step: ConnStep)
    requires i.Ok() && CanStep(c, step)
    ensures IdealStep(i, step).arrived == i.arrived + ReadBy(step)
  {
    assert i.arrived + [] == i.arrived;
    match step
    case Establish(ops) => IdealUserReads(i.(born := true, open := true, calls := [Up]), ops);
    case Event(revents, env) => IdealEventReads(i, c, revents, env);
    case User(ops) => IdealUserReads(i, ops);
    case Destroy(ops) => IdealUserReads(i.(open := false, calls := i.calls + [Down]), ops);
  }

  lemma {:induction false} IdealRunReads(states: seq<Conn>, steps: seq<ConnStep>, n: nat, wc: bool, hw: bool)
    requires IsRun(states, steps) && n < |states|
    ensures IdealAfter(wc, hw, steps[..n]).arrived == ReadIn(steps[..n])
  {
    if n > 0 {
      IdealRunReads(states, steps, n - 1, wc, hw);
      assert steps[..n][..n - 1] == steps[..n - 1];
      IdealStepReads(IdealAfter(wc, hw, steps[..n - 1]), states[n - 1], steps[n - 1]);
    }
  }

  /** Over every run, what the user has retrieved followed by what the input buffer holds
      is every byte read from the socket, in order. */
  lemma InboundStream(states: seq<Conn>, steps: seq<ConnStep>, i: nat, j: nat)
    requires IsRun(states, steps) && i <= j < |states|
    ensures states[j].taken + states[j].input == ReadIn(steps[..j])
    ensures states[i].taken <= states[j].taken
  {
    RunKeeps(states, steps, i, j);
    RunMatches(states, steps, j);
    IdealRunReads(states, steps, j, states[0].wantsComplete, states[0].wantsHighWater);
    var m := IdealAfter(states[0].wantsComplete, states[0].wantsHighWater, steps[..j]);
    assert m.arrived[..m.taken] + m.arrived[m.taken..] == m.arrived;
  }

  // ---- Only the user shuts down ----

  /** The user's code in this step asks for a shutdown. */
  predicate AsksShutdown(step: ConnStep)
  {
    match step
    case Event(_, env) => UserShutdown in env.onMessage || UserShutdown in env.onConnection
    case _ => UserShutdown in step.ops
  }

  lemma {:induction false} IdealUserAsks(i: Ideal, ops: seq<UserOp>)
    requires i.Ok() && UserShutdown !in ops
    ensures IdealUser(i, ops).asked == i.asked && IdealUser(i, ops).open == i.open
  {
    if ops != [] {
      IdealUserAsks(i, ops[..|ops| - 1]);
      assert ops[|ops| - 1] in ops;
    }
  }

  lemma IdealCloseAsks(i: Ideal, ops: seq<UserOp>)
    requires i.Ok() && UserShutdown !in ops
    ensures IdealClose(i, ops).asked == i.asked
  {
    IdealUserAsks(i.(open := false, calls := i.calls + [Down]), ops);
  }

  lemma IdealReadAsks(i: Ideal, env: Env)
    requires i.Ok() && UserShutdown !in env.onMessage && UserShutdown !in env.onConnection
    ensures IdealRead(i, env).asked == i.asked
  {
    IdealCloseAsks(i, env.onConnection);
    if env.read.Data? {
      IdealUserAsks(Arrived(i, env.read.bytes), env.onMessage);
    }
  }

  lemma IdealEventAsks(i: Ideal, revents: Events, env: Env)
    requires i.Ok() && UserShutdown !in env.onMessage && UserShutdown !in env.onConnection
    ensures IdealEvent(i, revents, env).asked == i.asked
  {
    IdealCloseAsks(i, env.onConnection);
    IdealReadAsks(i, env);
  }

  lemma IdealStepAsks(i: Ideal, step: ConnStep)
    requires i.Ok() && !AsksShutdown(step)
    ensures IdealStep(i, step).asked == i.asked
  {
    match step
    case Establish(ops) => IdealUserAsks(i.(born := true, open := true, calls := [Up]), ops);
    case Event(revents, env) => IdealEventAsks(i, revents, env);
    case User(ops) => IdealUserAsks(i, ops);
    case Destroy(ops) => IdealUserAsks(i.(open := false, calls := i.calls + [Down]), ops);
  }

  lemma StepStaysConnected(states: seq<Conn>, steps: seq<ConnStep>, i: nat)
    requires IsRun(states, steps) && i < |steps| && states[i].state == Connected && !AsksShutdown(steps[i])
    ensures states[i + 1].state == Connected || IsClosed(states[i + 1])
  {
    var c := states[0];
    RunMatches(states, steps, i);
    RunMatches(states, steps, i + 1);
    RunKeeps(states, steps, i, i + 1);
    assert steps[..i + 1][..i] == steps[..i];
    var m := IdealAfter(c.wantsComplete, c.wantsHighWater, steps[..i]);
    MatchesPhase(states[i], m);
    IdealStepAsks(m, steps[i]);
    MatchesPhase(states[i + 1], IdealAfter(c.wantsComplete, c.wantsHighWater, steps[..i + 1]));
  }

  /** Over every run, an established connection stays so until its user asks for a
      shutdown or it closes; no failure of a read or a write changes its state. */
  lemma {:induction false} StaysConnected(states: seq<Conn>, steps: seq<ConnStep>, i: nat, j: nat)
    requires IsRun(states, steps) && i <= j < |states| && states[i].state == Connected
    requires forall k | i <= k < j :: !AsksShutdown(steps[k])
    ensures states[j].state == Connected || IsClosed(states[j])
    decreases j
  {
    if i < j {
      StaysConnected(states, steps, i, j - 1);
      if states[j - 1].state == Connected {
        StepStaysConnected(states, steps, j - 1);
      } else {
        StaysClosed(states, steps, j - 1);
      }
    }
  }

  lemma StaysClosed(states: seq<Conn>, steps: seq<ConnStep>, i: nat)
    requires IsRun(states, steps) && i < |steps| && IsClosed(states[i])
    ensures IsClosed(states[i + 1])
  {
    RunKeeps(states, steps, i, i + 1);
  }

  /** Over every run, an open connection has sent its FIN if and only if its user has asked
      for a shutdown and every accepted byte is on the wire. */
  lemma FinIff(states: seq<Conn>, steps: seq<ConnStep>, n: nat)
    requires IsRun(states, steps) && n < |states|
    ensures var m := IdealAfter(states[0].wantsComplete, states[0].wantsHighWater, steps[..n]);
            states[n].fins == 1 <==> m.asked && states[n].output == []
  {
    RunMatches(states, steps, n);
  }

  // ---- No update is made in vain ----

  /** The mask before the k-th update. */
  function MaskBefore(updates: seq<Events>, k: nat): Events
    requires k <= |updates|
  {
    if k == 0 then Events(false, false, false, false, false, false) else updates[k - 1]
  }

  /** Each recorded update changed the mask, and the last one is the mask. */
  ghost predicate Economical(ch: ChannelState)
  {
    && ch.events == MaskBefore(ch.updates, |ch.updates|)
    && (forall k: nat | k < |ch.updates| :: ch.updates[k] != MaskBefore(ch.updates, k))
  }

  lemma UpdateIsEconomical(ch: ChannelState, e: Events)
    requires Economical(ch) && e != ch.events
    ensures Economical(ch.WithEvents(e))
  {
    var d := ch.WithEvents(e);
    forall k: nat | k < |d.updates|
      ensures d.updates[k] != MaskBefore(d.updates, k)
    {
      if k < |ch.updates| {
        assert ch.updates[k] != MaskBefore(ch.updates, k);
      }
    }
  }

  lemma SendIsEconomical(c: Conn, data: seq<Byte>, w: WriteResult)
    requires Inv(c) && Economical(c.chan)
    ensures Economical(Send(c, data, w).chan)
  {
    if c.state == Connected {
      ConnectedIsOpen(c);
      if TryWrite(c, data, w).fault {
        FaultDropsAll(c, data, w);
      } else {
        SendEffect(c, data, w);
        if !c.IsWriting() {
          UpdateIsEconomical(c.chan, c.chan.events.Or(WRITE_EVENT));
        }
      }
    }
  }

  lemma {:induction false} UserIsEconomical(c: Conn, ops: seq<UserOp>)
    requires Inv(c) && Economical(c.chan)
    ensures Economical(UserRun(c, ops).chan)
  {
    if ops != [] {
      var d := UserRun(c, ops[..|ops| - 1]);
      UserRunKeeps(c, ops[..|ops| - 1]);
      UserIsEconomical(c, ops[..|ops| - 1]);
      match ops[|ops| - 1]
      case UserSend(data, w) => SendIsEconomical(d, data, w);
      case UserShutdown => ShutdownMeans(d);
      case UserRetrieve(_) =>
    }
  }

  lemma DownIsEconomical(c: Conn, ops: seq<UserOp>)
    requires Inv(c) && IsOpen(c) && Economical(c.chan)
    ensures Economical(UserRun(Called(c.(state := Disconnected, chan := c.chan.DisableAll()), Down), ops).chan)
  {
    UpdateIsEconomical(c.chan, NONE_EVENT);
    UserRunIdle(Called(c.(state := Disconnected, chan := c.chan.DisableAll()), Down), ops);
  }

  lemma ReadIsEconomical(c: Conn, env: Env)
    requires Inv(c) && IsOpen(c) && Economical(c.chan)
    ensures Economical(HandleRead(c, env).chan)
  {
    if env.read.Data? {
      if env.read.bytes == [] {
        DownIsEconomical(c, env.onConnection);
      } else {
        ReceivedKeeps(c, env.read.bytes);
        UserIsEconomical(Received(c, env.read.bytes), env.onMessage);
      }
    }
  }

  lemma WriteIsEconomical(c: Conn, w: WriteResult)
    requires Inv(c) && Economical(c.chan)
    ensures Economical(HandleWrite(c, w).chan)
  {
    if Progresses(c, w) {
      WriteDrains(c, w);
      UpdateIsEconomical(c.chan, c.chan.events.Minus(WRITE_EVENT));
    }
  }

  lemma EventIsEconomical(c: Conn, revents: Events, env: Env)
    requires Inv(c) && CanStep(c, Event(revents, env)) && Economical(c.chan)
    ensures Economical(HandleEvent(c, revents, env).chan)
  {
    HandleEventStages(c, revents, env);
    CloseReadKeeps(c, revents, env);
    if revents.hup && !revents.pollin {
      DownIsEconomical(c, env.onConnection);
    } else if revents.pollin || revents.pri {
      ReadIsEconomical(c, env);
    }
    WriteIsEconomical(ReadStage(CloseStage(c, revents, env), revents, env), env.write);
  }

  lemma StepIsEconomical(c: Conn, step: ConnStep)
    requires Inv(c) && CanStep(c, step) && Economical(c.chan)
    ensures Economical(Take(c, step).chan)
  {
    match step
    case Establish(ops) =>
      UpdateIsEconomical(c.chan, c.chan.events.Or(READ_EVENT));
      UpKeeps(c);
      UserIsEconomical(Called(c.(state := Connected, chan := c.chan.EnableReading()), Up), ops);
    case Event(revents, env) => EventIsEconomical(c, revents, env);
    case User(ops) => UserIsEconomical(c, ops);
    case Destroy(ops) =>
      if c.state == Connected {
        ConnectedIsOpen(c);
        DownIsEconomical(c, ops);
      }
  }

  /** Over every run, no update of a connection's channel leaves its mask as it was, so no
      call to epoll_ctl is made in vain. */
  lemma {:induction false} NoVainUpdates(states: seq<Conn>, steps: seq<ConnStep>, n: nat)
    requires IsRun(states, steps) && n < |states|
    ensures Economical(states[n].chan)
  {
    if n > 0 {
      NoVainUpdates(states, steps, n - 1);
      RunKeeps(states, steps, n - 1, n - 1);
      assert states[n - 1 + 1] == Take(states[n - 1], steps[n - 1]);
      StepIsEconomical(states[n - 1], steps[n - 1]);
    }
  }
}
