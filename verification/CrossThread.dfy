/** send and shutdown called from another thread (src/TcpConnection.cc): the state is
    checked, and for shutdown changed, at once; the rest runs later on the loop as a
    queued functor, whatever has happened to the connection in between.
 */
module CrossThreadProperties {
  import opened Buffers
  import opened Epoll
  import opened Connections
  import opened ConnectionProperties
  import opened OperationProperties

  /** The part of shutdown that runs on the caller's thread. */
  function AnnounceShutdown(c: Conn): Conn
  {
    if c.state == Connected then c.(state := Disconnecting) else c
  }

  /** A shutdown has been announced with nothing pending, and its functor is still to
      run. On the loop thread alone no connection is ever left like this. */
  predicate Announced(c: Conn)
  {
    c.state == Disconnecting && c.output == [] && Inv(c.(state := Connected))
  }

  /** What holds of a connection that other threads may shut down. */
  predicate SharedInv(c: Conn) { Inv(c) || Announced(c) }

  lemma AnnouncedIsNotInv(c: Conn)
    requires Announced(c)
    ensures !Inv(c) && IsOpen(c) && c.fins == 0 && OpenMask(c)
  {
    ConnectedIsOpen(c.(state := Connected));
  }

  lemma AnnounceKeeps(c: Conn)
    requires SharedInv(c)
    ensures SharedInv(AnnounceShutdown(c))
    ensures c.state == Connected && c.output == [] ==> !Inv(AnnounceShutdown(c))
  {
    if c.state == Connected {
      assert c.(state := Disconnecting).(state := Connected) == c;
    }
  }

  /** With the shutdown announced, user code on the loop sends nothing. */
  lemma AnnouncedUserRun(c: Conn, ops: seq<UserOp>)
    requires Announced(c)
    ensures Announced(UserRun(c, ops))
  {
    UserRunIdle(c, ops);
    ConnectedIsOpen(c.(state := Connected));
  }

  lemma AnnouncedRead(c: Conn, env: Env)
    requires Announced(c)
    ensures SharedInv(HandleRead(c, env)) && (Announced(HandleRead(c, env)) || IsClosed(HandleRead(c, env)))
  {
    var c' := c.(state := Connected);
    ConnectedIsOpen(c');
    if env.read.Data? {
      if env.read.bytes == [] {
        CloseKeeps(c', env.onConnection);
        assert HandleClose(c, env.onConnection) == HandleClose(c', env.onConnection);
      } else {
        ReceivedKeeps(c', env.read.bytes);
        assert Received(c, env.read.bytes).(state := Connected) == Received(c', env.read.bytes);
        AnnouncedUserRun(Received(c, env.read.bytes), env.onMessage);
      }
    }
  }

  lemma AnnouncedEvent(c: Conn, revents: Events, env: Env)
    requires Announced(c) && revents.Within(c.chan.events) && Benign(revents, env.read)
    ensures SharedInv(HandleEvent(c, revents, env))
  {
    HandleEventStages(c, revents, env);
    var c' := c.(state := Connected);
    AnnouncedIsNotInv(c);
    ConnectedIsOpen(c');
    if revents.hup && !revents.pollin {
      CloseKeeps(c', env.onConnection);
      assert HandleClose(c, env.onConnection) == HandleClose(c', env.onConnection);
    } else if revents.pollin || revents.pri {
      AnnouncedRead(c, env);
    }
  }

  /** Every step of the loop keeps it, so it holds whenever a queued functor runs. */
  lemma SharedStepKeeps(c: Conn, step: ConnStep)
    requires SharedInv(c) && CanStep(c, step)
    ensures SharedInv(Take(c, step))
  {
    if Inv(c) {
      StepKeeps(c, step);
    } else {
      AnnouncedIsNotInv(c);
      match step
      case Event(revents, env) => AnnouncedEvent(c, revents, env);
      case User(ops) => AnnouncedUserRun(c, ops);
      case Destroy(_) =>
    }
  }

  // ---- The queued shutdown ----

  /** The functor of a shutdown does not look at the state again. It ends in a state the
      loop's own operations could have reached if and only if no FIN has gone out (a
      write event that drained the output may have sent it), and, if the connection has
      closed, no byte was left behind. */
  lemma QueuedShutdownIff(c: Conn)
    requires SharedInv(c) && !IsFresh(c)
    ensures Inv(ShutdownInLoop(c)) <==> c.fins == 0 && (IsOpen(c) || c.output == [])
    ensures Announced(c) ==> ShutdownInLoop(c).fins == 1
  {
    if Announced(c) {
      AnnouncedIsNotInv(c);
    }
  }

  /** A connection that has just been established, its callback doing nothing. */
  function EstablishedConn(): Conn { ConnectEstablished(NewConn(5, false, false), []) }

  lemma EstablishedIs()
    ensures EstablishedConn()
         == Conn(Connected, ChannelState(5, READ_EVENT, Added, [READ_EVENT]), [], [], false, false,
                 [], [], [], false, 0, [], [Up])
  {
    assert NONE_EVENT.Or(READ_EVENT) == READ_EVENT;
  }

  lemma EstablishedFacts()
    ensures Inv(EstablishedConn()) && IsOpen(EstablishedConn())
  {
    NewConnInv(5, false, false);
    EstablishKeeps(NewConn(5, false, false), []);
  }

  /** Whenever a write event drains the output between the announcement and the functor,
      it sends the FIN, and the functor sends another. */
  lemma DrainThenFunctor(c: Conn, room: nat)
    requires Inv(c) && IsOpen(c) && c.state == Disconnecting && |c.output| <= room
    ensures HandleWrite(c, Accepts(room)).fins == 1 && HandleWrite(c, Accepts(room)).wire == c.wire + c.output
    ensures var d := ShutdownInLoop(HandleWrite(c, Accepts(room)));
            d.fins == 2 && !Inv(d)
  {
    WriteMeans(c, Accepts(room));
    assert c.output[..|c.output|] == c.output;
  }

  lemma OneBytePending(c: Conn)
    requires Inv(c) && c.state == Connected && c.output == []
    ensures var d := Send(c, [1], WriteFails(EWOULDBLOCK));
            Inv(d) && IsOpen(d) && d.state == Connected && d.output == [1] && d.wire == c.wire
  {
    ConnectedIsOpen(c);
    SendKeeps(c, [1], WriteFails(EWOULDBLOCK));
    IdleSend(c, [1], WriteFails(EWOULDBLOCK));
    SendFrame(c, [1], WriteFails(EWOULDBLOCK));
  }

  /** One byte pending, a shutdown from another thread, a write event that drains it and
      sends the FIN, then the functor: two FINs. */
  lemma SecondFinExample()
    ensures var c := AnnounceShutdown(Send(EstablishedConn(), [1], WriteFails(EWOULDBLOCK)));
            var d := HandleWrite(c, Accepts(1));
            && SharedInv(c) && d.fins == 1 && d.wire == [1]
            && ShutdownInLoop(d).fins == 2 && !Inv(ShutdownInLoop(d))
  {
    EstablishedIs();
    EstablishedFacts();
    OneBytePending(EstablishedConn());
    var b := Send(EstablishedConn(), [1], WriteFails(EWOULDBLOCK));
    AnnounceKeeps(b);
    DrainThenFunctor(AnnounceShutdown(b), 1);
  }

  // ---- The queued send ----

  /** What becomes of the bytes of a queued send: they enter the stream if and only if no
      shutdown has been announced meanwhile and the socket does not refuse them. After an
      announced shutdown they are dropped without a trace, the socket not even asked. */
  lemma QueuedSendRecordedIff(c: Conn, data: seq<Byte>, w: WriteResult)
    ensures SendInLoop(c, data, w).accepted == c.accepted + [data]
            <==> c.state != Disconnecting && !Refused(c, w)
    ensures c.state != Disconnecting && Refused(c, w) ==> SendInLoop(c, data, w) == c.(faulted := true)
    ensures c.state == Disconnecting ==> SendInLoop(c, data, w) == c
  {
    assert |c.accepted + [data]| != |c.accepted|;
    if c.state != Disconnecting {
      if Refused(c, w) {
        FaultDropsAll(c, data, w);
      } else {
        SendEffect(c, data, w);
      }
    }
  }

  lemma QueuedSendAfterEnd(c: Conn, data: seq<Byte>, w: WriteResult)
    requires c.fins == 1 || IsClosed(c)
    requires c.state != Disconnecting && !Refused(c, w)
    ensures !Evolves(c, SendInLoop(c, data, w))
  {
    SendEffect(c, data, w);
    assert |SendInLoop(c, data, w).accepted| == |c.accepted| + 1;
  }

  /** It leaves what came before as it was (nothing accepted after the FIN or after the
      close) if and only if a shutdown has been announced, the connection is still
      connected, or the socket refuses. */
  lemma QueuedSendKeepsIff(c: Conn, data: seq<Byte>, w: WriteResult)
    requires SharedInv(c) && !IsFresh(c)
    ensures Evolves(c, SendInLoop(c, data, w))
            <==> c.state == Disconnecting || c.state == Connected || Refused(c, w)
  {
    if c.state != Disconnecting {
      if Refused(c, w) {
        FaultDropsAll(c, data, w);
      } else if c.state == Connected {
        SendKeeps(c, data, w);
      } else {
        QueuedSendAfterEnd(c, data, w);
      }
    }
  }

  /** So a queued send does what a send on the loop would have done, its bytes in the
      stream and nothing before them disturbed, if and only if the functor finds the
      connection still connected and the socket not refusing. */
  lemma QueuedSendIff(c: Conn, data: seq<Byte>, w: WriteResult)
    requires SharedInv(c) && !IsFresh(c)
    ensures var d := SendInLoop(c, data, w);
            d.accepted == c.accepted + [data] && Evolves(c, d)
            <==> c.state == Connected && !Refused(c, w)
  {
    QueuedSendKeepsIff(c, data, w);
    QueuedSendRecordedIff(c, data, w);
  }

  /** send then shutdown from another thread: the announced shutdown overtakes the send,
      whose bytes are lost without the socket having been asked. */
  lemma LostSendExample()
    ensures var c := AnnounceShutdown(EstablishedConn());
            var d := ShutdownInLoop(SendInLoop(c, [1], Accepts(1)));
            SharedInv(c) && d.accepted == [] && d.wire == [] && !d.faulted && d.fins == 1
  {
    EstablishedIs();
    EstablishedFacts();
    AnnounceKeeps(EstablishedConn());
  }

  lemma CloseIdle(c: Conn)
    ensures HandleClose(c, [])
         == c.(state := Disconnected, chan := c.chan.DisableAll(), calls := c.calls + [Down] + [CloseRequest])
  {
  }

  lemma WriteOne(c: Conn)
    requires c.state == Disconnected && c.output == [] && c.wire == [] && !c.IsWriting()
    ensures SendInLoop(c, [1], Accepts(1)).wire == [1]
  {
    SendEffect(c, [1], Accepts(1));
  }

  /** A send queued before the connection closed: its byte is written after the close. */
  lemma SendAfterCloseExample()
    ensures var c := HandleClose(EstablishedConn(), []);
            Inv(c) && IsClosed(c) && c.wire == [] && SendInLoop(c, [1], Accepts(1)).wire == [1]
  {
    EstablishedIs();
    EstablishedFacts();
    CloseKeeps(EstablishedConn(), []);
    CloseIdle(EstablishedConn());
    WriteOne(HandleClose(EstablishedConn(), []));
  }
}
