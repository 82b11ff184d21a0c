/** The example server end to end (example/testserver.cc): each message is taken out
    of the input buffer, sent back, and followed by a shutdown.
 */
module EchoProperties {
  import opened Buffers
  import opened Epoll
  import opened Connections
  import opened ConnectionProperties

  /** onMessage, on an input buffer that holds `input`. */
  function OnMessage(input: seq<Byte>, w: WriteResult): seq<UserOp>
  {
    [UserRetrieve(|input|), UserSend(input, w), UserShutdown]
  }

  /** A step of a connection whose only user code is the example server's. */
  ghost predicate IsEchoStep(c: Conn, step: ConnStep)
  {
    match step
    case Event(_, env) =>
      && env.onConnection == []
      && (env.read.Data? && env.read.bytes != [] ==>
            exists w :: env.onMessage == OnMessage(c.input + env.read.bytes, w))
    case _ => step.ops == []
  }

  /** A message has arrived; the first one is then the second callback. */
  predicate Told(c: Conn) { 2 <= |c.calls| && c.calls[1].Message? }

  function FirstMessage(c: Conn): seq<Byte>
    requires Told(c)
  {
    c.calls[1].bytes
  }

  predicate EchoInv(c: Conn)
  {
    && Inv(c) && c.input == []
    && (!Told(c) ==> c.accepted == [] && !c.faulted && c.fins == 0 && (IsOpen(c) ==> c.state == Connected))
    && (Told(c) ==>
          && c.accepted == (if c.faulted then [] else [FirstMessage(c)])
          && (IsOpen(c) ==> c.state != Connected)
          && (c.fins == 1 <==> c.output == []))
  }

  lemma OnMessageEffect(c: Conn, w: WriteResult)
    ensures UserRun(c, OnMessage(c.input, w)) == Shutdown(Send(Retrieved(c, |c.input|), c.input, w))
  {
    var ops := OnMessage(c.input, w);
    var c1 := Retrieved(c, |c.input|);
    assert ops[..2][..1] == ops[..1] && ops[..1][..0] == [];
    assert UserRun(c, ops[..1]) == UserApply(c, ops[0]) == c1;
    assert UserRun(c, ops[..2]) == UserApply(c1, ops[1]);
  }

  lemma FirstSend(c: Conn, bytes: seq<Byte>, w: WriteResult)
    requires Inv(c) && IsOpen(c) && c.state == Connected && c.accepted == [] && !c.faulted
    ensures var d := Send(c, bytes, w);
            && Inv(d) && d.state == Connected && OpenMask(d) && d.calls == c.calls && d.input == c.input && d.fins == 0
            && d.accepted == (if d.faulted then [] else [bytes])
  {
    SendIsAtomic(c, bytes, w);
    SendMask(c, bytes, w);
    SendKeeps(c, bytes, w);
    assert [] + [bytes] == [bytes];
  }

  lemma OnlyUp(calls: seq<UserCall>)
    requires PhaseOf(calls) == Live && !(2 <= |calls| && calls[1].Message?)
    ensures calls == [Up]
  {
    PhaseMeansOrder(calls);
    assert |calls| == 1 && calls[0] == Up;
  }

  /** The first message: sent whole or dropped whole, then shut down. */
  lemma FirstEcho(c: Conn, bytes: seq<Byte>, w: WriteResult)
    requires EchoInv(c) && IsOpen(c) && !Told(c)
    ensures EchoInv(Shutdown(Send(Retrieved(Received(c, bytes), |bytes|), bytes, w)))
  {
    OnlyUp(c.calls);
    PhaseSnoc(c.calls, Message(bytes));
    ReceivedKeeps(c, bytes);
    var c1 := Retrieved(Received(c, bytes), |bytes|);
    assert Inv(c1);
    FirstSend(c1, bytes, w);
    var c2 := Send(c1, bytes, w);
    ShutdownKeeps(c2);
    assert FirstMessage(c2) == bytes;
  }

  lemma EchoMessage(c: Conn, bytes: seq<Byte>, w: WriteResult)
    requires EchoInv(c) && IsOpen(c)
    ensures EchoInv(UserRun(Received(c, bytes), OnMessage(c.input + bytes, w)))
  {
    OnMessageEffect(Received(c, bytes), w);
    assert c.input + bytes == bytes;
    if Told(c) {
      PhaseSnoc(c.calls, Message(bytes));
    } else {
      FirstEcho(c, bytes, w);
    }
  }

  lemma EchoClose(c: Conn)
    requires EchoInv(c) && IsOpen(c)
    ensures EchoInv(HandleClose(c, [])) && IsClosed(HandleClose(c, []))
  {
    CloseKeeps(c, []);
    PhaseMeansOrder(c.calls);
    assert HandleClose(c, []).calls[..|c.calls|] == c.calls;
  }

  lemma EchoRead(c: Conn, env: Env)
    requires EchoInv(c) && IsOpen(c) && env.onConnection == []
    requires env.read.Data? && env.read.bytes != [] ==>
               exists w :: env.onMessage == OnMessage(c.input + env.read.bytes, w)
    ensures EchoInv(HandleRead(c, env))
  {
    if env.read.Data? {
      if env.read.bytes == [] {
        EchoClose(c);
      } else {
        var w :| env.onMessage == OnMessage(c.input + env.read.bytes, w);
        EchoMessage(c, env.read.bytes, w);
      }
    }
  }

  lemma EchoWrite(c: Conn, w: WriteResult)
    requires EchoInv(c)
    ensures EchoInv(HandleWrite(c, w))
  {
    WriteKeeps(c, w);
    if Progresses(c, w) {
      WriteDrains(c, w);
    }
  }

  lemma EchoEvent(c: Conn, revents: Events, env: Env)
    requires EchoInv(c) && CanStep(c, Event(revents, env)) && IsEchoStep(c, Event(revents, env))
    ensures EchoInv(HandleEvent(c, revents, env))
  {
    HandleEventStages(c, revents, env);
    var c1 := ReadStage(CloseStage(c, revents, env), revents, env);
    if revents.hup && !revents.pollin {
      EchoClose(c);
    } else if revents.pollin || revents.pri || revents.rdhup {
      EchoRead(c, env);
    }
    assert EchoInv(c1);
    EchoWrite(c1, env.write);
  }

  lemma EchoEstablish(c: Conn)
    requires EchoInv(c) && IsFresh(c)
    ensures EchoInv(ConnectEstablished(c, []))
  {
    EstablishKeeps(c, []);
    PhaseMeansOrder(c.calls);
    assert ConnectEstablished(c, []).calls == [Up];
  }

  lemma EchoDestroy(c: Conn)
    requires EchoInv(c)
    ensures EchoInv(ConnectDestroyed(c, []))
  {
    DestroyKeeps(c, []);
    if c.state == Connected {
      ConnectedIsOpen(c);
      PhaseMeansOrder(c.calls);
      var d := ConnectDestroyed(c, []);
      assert d.calls == c.calls + [Down] && d.input == c.input && d.accepted == c.accepted;
      assert Told(d) <==> Told(c);
      PhaseSnoc(c.calls, Down);
    }
  }

  lemma EchoStepKeeps(c: Conn, step: ConnStep)
    requires EchoInv(c) && CanStep(c, step) && IsEchoStep(c, step)
    ensures EchoInv(Take(c, step))
  {
    match step
    case Establish(_) => EchoEstablish(c);
    case Event(revents, env) => EchoEvent(c, revents, env);
    case User(ops) =>
    case Destroy(_) => EchoDestroy(c);
  }

  lemma {:induction false} EchoRunKeeps(states: seq<Conn>, steps: seq<ConnStep>, i: nat)
    requires IsRun(states, steps) && i < |states|
    requires forall k | 0 <= k < |steps| :: IsEchoStep(states[k], steps[k])
    ensures EchoInv(states[i])
  {
    if i == 0 {
      NewConnInv(states[0].chan.fd, states[0].wantsComplete, states[0].wantsHighWater);
    } else {
      EchoRunKeeps(states, steps, i - 1);
      assert states[i - 1 + 1] == Take(states[i - 1], steps[i - 1]);
      EchoStepKeeps(states[i - 1], steps[i - 1]);
    }
  }

  /** Over every run of the example server: what a peer has been sent is a prefix of
      its first message (nothing before that, nothing if the send faulted); and once
      that message has arrived the FIN has gone out exactly when nothing is pending,
      so without a fault the FIN follows every byte of it. */
  lemma EchoEndToEnd(states: seq<Conn>, steps: seq<ConnStep>, i: nat)
    requires IsRun(states, steps) && i < |states|
    requires forall k | 0 <= k < |steps| :: IsEchoStep(states[k], steps[k])
    ensures !Told(states[i]) ==> states[i].wire == [] && states[i].fins == 0
    ensures Told(states[i]) ==>
              && states[i].wire <= FirstMessage(states[i])
              && (states[i].faulted ==> states[i].wire == [])
              && (!states[i].faulted ==> states[i].wire + states[i].output == FirstMessage(states[i]))
              && (states[i].fins == 1 <==> states[i].output == [])
              && (!states[i].faulted ==> (states[i].fins == 1 <==> states[i].wire == FirstMessage(states[i])))
  {
    EchoRunKeeps(states, steps, i);
    var c := states[i];
    assert Flatten([]) == [];
    if Told(c) && !c.faulted {
      FlattenSnoc([], FirstMessage(c));
      assert [] + [FirstMessage(c)] == [FirstMessage(c)];
      assert Flatten(c.accepted) == FirstMessage(c);
    }
  }
}
