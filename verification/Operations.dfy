/** What each operation of a connection means, in terms of what the socket answers, what
    epoll reports and what the user asks for: which bytes go where, which state follows,
    and what is left alone.
 */
module OperationProperties {
  import opened Buffers
  import opened Epoll
  import opened Connections
  import opened ConnectionProperties

  // ---- Sending ----

  /** With nothing pending the socket is asked at once: what it has room for is on the
      wire, the rest is pending, and the send is dropped, whole, if and only if the answer
      is EPIPE or ECONNRESET. */
  lemma IdleSend(c: Conn, data: seq<Byte>, w: WriteResult)
    requires Inv(c) && c.state == Connected && c.output == []
    ensures var d := Send(c, data, w);
            && (d == c.(faulted := true) <==> Refuses(w))
            && (!Refuses(w) ==> d.accepted == c.accepted + [data] && d.faulted == c.faulted)
    ensures var d := Send(c, data, w);
            match w
            case Accepts(room) =>
              && d.wire == c.wire + data[..Min(room, |data|)]
              && d.output == data[Min(room, |data|)..]
            case WriteFails(_) => d.wire == c.wire && d.output == (if Refuses(w) then [] else data)
  {
    ConnectedIsOpen(c);
    var d := Send(c, data, w);
    if Refuses(w) {
      FaultDropsAll(c, data, w);
    } else {
      SendEffect(c, data, w);
      assert |d.accepted| != |c.accepted|;
      assert c.wire + data[..0] == c.wire && data[0..] == data;
    }
  }

  /** With bytes pending the socket is not asked: the data goes behind them. */
  lemma PendingSend(c: Conn, data: seq<Byte>, w: WriteResult)
    requires Inv(c) && c.state == Connected && c.output != []
    ensures var d := Send(c, data, w);
            && d.accepted == c.accepted + [data] && d.faulted == c.faulted
            && d.wire == c.wire && d.output == c.output + data
  {
    ConnectedIsOpen(c);
    SendEffect(c, data, w);
    assert c.wire + data[..0] == c.wire && data[0..] == data;
  }

  /** A send on an established connection is never ignored: it is accepted whole at the
      end of the stream, or refused by the socket with nothing pending before it. */
  lemma SendIsAnswered(c: Conn, data: seq<Byte>, w: WriteResult)
    requires Inv(c) && c.state == Connected
    ensures var d := Send(c, data, w);
            if c.output == [] && Refuses(w) then d == c.(faulted := true)
            else d.accepted == c.accepted + [data] && d.wire + d.output == c.wire + c.output + data
  {
    SendIsAtomic(c, data, w);
    if c.output == [] {
      IdleSend(c, data, w);
    } else {
      PendingSend(c, data, w);
    }
  }

  /** What a send leaves alone, and the mask, bit by bit, that it leaves. */
  lemma SendFrame(c: Conn, data: seq<Byte>, w: WriteResult)
    requires Inv(c) && c.state == Connected
    ensures var d := Send(c, data, w);
            && d == c.(wire := d.wire, output := d.output, accepted := d.accepted, faulted := d.faulted,
                       notices := d.notices, chan := d.chan)
            && d.chan.index == Added && d.chan.fd == c.chan.fd
            && d.chan.events == Events(true, true, d.output != [], false, false, false)
  {
    ConnectedIsOpen(c);
    SendMask(c, data, w);
    if TryWrite(c, data, w).fault {
      FaultDropsAll(c, data, w);
    } else {
      SendEffect(c, data, w);
    }
  }

  /** In every other state a send does nothing. */
  lemma SendElsewhere(c: Conn, data: seq<Byte>, w: WriteResult)
    requires c.state != Connected
    ensures Send(c, data, w) == c
  {
  }

  // ---- Shutting down and retrieving ----

  /** A shutdown sends the FIN at once if nothing is pending and leaves it to the last
      write if something is; only the first one does anything. */
  lemma ShutdownMeans(c: Conn)
    requires Inv(c)
    ensures Shutdown(c)
         == if c.state != Connected then c
            else if c.output == [] then c.(state := Disconnected, fins := 1)
            else c.(state := Disconnecting)
  {
    if c.state == Connected {
      ConnectedIsOpen(c);
    }
  }

  /** A retrieval takes the oldest bytes, as many as are asked for and there. */
  lemma RetrieveMeans(c: Conn, len: nat)
    ensures var d := UserApply(c, UserRetrieve(len));
            && d.taken + d.input == c.taken + c.input
            && |d.input| == (if |c.input| < len then 0 else |c.input| - len)
            && d == c.(input := d.input, taken := d.taken)
  {
    var n := Min(len, |c.input|);
    assert (c.taken + c.input[..n]) + c.input[n..] == c.taken + c.input;
  }

  // ---- Handlers ----

  /** A write event does something if and only if bytes are pending and the socket takes
      at least one; a failure, of whatever kind, changes nothing. */
  lemma WriteDoesIff(c: Conn, w: WriteResult)
    requires Inv(c)
    ensures HandleWrite(c, w) != c <==> IsOpen(c) && c.output != [] && w.Accepts? && 0 < w.room
  {
    if Progresses(c, w) {
      WriteDrains(c, w);
    }
  }

  /** What it then does: the socket takes the oldest bytes it has room for; the last of
      them, if a shutdown is waiting for it, is followed by the FIN. */
  lemma WriteMeans(c: Conn, w: WriteResult)
    requires Inv(c) && IsOpen(c) && c.output != [] && w.Accepts? && 0 < w.room
    ensures var d, n := HandleWrite(c, w), Min(w.room, |c.output|);
            && d.wire == c.wire + c.output[..n] && d.output == c.output[n..]
            && (n < |c.output| ==> d == c.(wire := d.wire, output := d.output))
            && (n == |c.output| ==>
                  && d == c.(wire := d.wire, output := [], chan := d.chan, notices := d.notices,
                             state := if c.state == Disconnecting then Disconnected else c.state,
                             fins := if c.state == Disconnecting then 1 else c.fins)
                  && d.chan.index == Added && d.chan.fd == c.chan.fd
                  && d.chan.events == Events(true, true, false, false, false, false))
  {
    WriteDrains(c, w);
    WriteKeeps(c, w);
  }

  /** Closing sends, drops and accepts nothing, whatever its callback tries. */
  lemma CloseMeans(c: Conn, ops: seq<UserOp>)
    requires Inv(c) && IsOpen(c)
    ensures var d := HandleClose(c, ops);
            && d == c.(state := Disconnected, chan := d.chan, calls := c.calls + [Down, CloseRequest],
                       input := d.input, taken := d.taken)
            && d.taken + d.input == c.taken + c.input
            && d.chan.index == Deleted && d.chan.fd == c.chan.fd
            && d.chan.events == Events(false, false, false, false, false, false)
  {
    var c1 := Called(c.(state := Disconnected, chan := c.chan.DisableAll()), Down);
    UserRunIdle(c1, ops);
    UserRunMovesInput(c1, ops);
    assert c.calls + [Down] + [CloseRequest] == c.calls + [Down, CloseRequest];
  }

  /** Whatever user code does, bytes of the input are only ever taken from its front. */
  lemma {:induction false} UserRunMovesInput(c: Conn, ops: seq<UserOp>)
    ensures var d := UserRun(c, ops);
            d.taken + d.input == c.taken + c.input && c.taken <= d.taken
  {
    if ops != [] {
      UserRunMovesInput(c, ops[..|ops| - 1]);
      UserApplyMovesInput(UserRun(c, ops[..|ops| - 1]), ops[|ops| - 1]);
    }
  }

  lemma UserApplyMovesInput(c: Conn, op: UserOp)
    ensures var d := UserApply(c, op);
            d.taken + d.input == c.taken + c.input && c.taken <= d.taken
  {
    match op
    case UserSend(data, w) => SendKeepsInput(c, data, w);
    case UserShutdown =>
    case UserRetrieve(len) => RetrieveMeans(c, len);
  }

  lemma SendKeepsInput(c: Conn, data: seq<Byte>, w: WriteResult)
    ensures Send(c, data, w).input == c.input && Send(c, data, w).taken == c.taken
  {
    if c.state == Connected {
      if TryWrite(c, data, w).fault {
        FaultDropsAll(c, data, w);
      } else {
        SendEffect(c, data, w);
      }
    }
  }

  /** A failed read changes nothing, an empty one closes, and any other puts its bytes
      behind the input and tells the user, whose code then runs. */
  lemma ReadMeans(c: Conn, env: Env)
    ensures HandleRead(c, env)
         == match env.read
            case ReadFails(_) => c
            case Data(bytes) =>
              if |bytes| == 0 then HandleClose(c, env.onConnection)
              else UserRun(c.(input := c.input + bytes, calls := c.calls + [Message(bytes)]), env.onMessage)
  {
  }

  /** An established connection waits for plain and priority data, through one update of
      its channel, and then its callback runs. */
  lemma EstablishMeans(c: Conn, ops: seq<UserOp>)
    requires Inv(c) && IsFresh(c)
    ensures var reading := Events(true, true, false, false, false, false);
            ConnectEstablished(c, ops)
            == UserRun(c.(state := Connected, chan := ChannelState(c.chan.fd, reading, Added, [reading]),
                          calls := [Up]), ops)
  {
    var d := Called(c.(state := Connected, chan := c.chan.EnableReading()), Up);
    PhaseMeansOrder(c.calls);
    assert c.chan.events.Or(READ_EVENT) == Events(true, true, false, false, false, false);
    var reading := Events(true, true, false, false, false, false);
    assert c.chan.updates + [reading] == [reading];
    assert d == c.(state := Connected, chan := ChannelState(c.chan.fd, reading, Added, [reading]), calls := [Up]);
  }

  /** connectDestroyed ends an established connection on which no shutdown has been asked
      for, and no other: one that has sent its FIN, or still has to, stays registered. */
  lemma DestroyClosesIff(c: Conn, ops: seq<UserOp>)
    requires Inv(c) && IsOpen(c)
    ensures IsClosed(ConnectDestroyed(c, ops)) <==> c.state == Connected
    ensures c.state != Connected ==> ConnectDestroyed(c, ops) == c && c.Registered()
    ensures c.state == Connected ==>
              var d := ConnectDestroyed(c, ops);
              && d == c.(state := Disconnected, chan := d.chan, calls := c.calls + [Down],
                         input := d.input, taken := d.taken)
              && d.taken + d.input == c.taken + c.input
              && d.chan.index == Deleted && d.chan.events == Events(false, false, false, false, false, false)
  {
    if c.state == Connected {
      var d := Called(c.(state := Disconnected, chan := c.chan.DisableAll()), Down);
      PhaseSnoc(c.calls, Down);
      UserRunIdle(d, ops);
      UserRunMovesInput(d, ops);
    }
  }

  /** A connection that is being shut down when connectDestroyed runs. */
  lemma DestroyExample()
    ensures var c := Shutdown(ConnectEstablished(NewConn(5, false, false), []));
            Inv(c) && c.fins == 1 && ConnectDestroyed(c, []).Registered() && Down !in ConnectDestroyed(c, []).calls
  {
    var b := ConnectEstablished(NewConn(5, false, false), []);
    NewConnInv(5, false, false);
    EstablishKeeps(NewConn(5, false, false), []);
    EstablishMeans(NewConn(5, false, false), []);
    ShutdownKeeps(b);
    ShutdownMeans(b);
  }

  // ---- What reaches the connection ----

  /** In every state of every run an open connection waits for plain and priority data,
      so data that arrives is reported. */
  lemma AlwaysReading(states: seq<Conn>, steps: seq<ConnStep>, i: nat)
    requires IsRun(states, steps) && i < |states|
    ensures IsOpen(states[i]) ==> states[i].Registered() && states[i].chan.events.pollin && states[i].chan.events.pri
    ensures !IsOpen(states[i]) ==> states[i].chan.events == Events(false, false, false, false, false, false)
  {
    RunKeeps(states, steps, i, i);
  }

  /** Data for an open connection can always be reported, and then reaches the user. */
  lemma DataIsDelivered(c: Conn, revents: Events, env: Env)
    requires Inv(c) && IsOpen(c) && revents == NONE_EVENT.(pollin := true)
    requires env.read.Data? && env.read.bytes != []
    ensures CanStep(c, Event(revents, env))
    ensures var d := Take(c, Event(revents, env));
            && d.calls == c.calls + [Message(env.read.bytes)]
            && d.taken + d.input == c.taken + c.input + env.read.bytes
  {
    HandleEventStages(c, revents, env);
    MessageKeeps(c, env.read.bytes, env.onMessage);
    UserRunMovesInput(Received(c, env.read.bytes), env.onMessage);
    assert c.taken + (c.input + env.read.bytes) == c.taken + c.input + env.read.bytes;
  }

  /** So can a hang-up, which closes. */
  lemma HangupCloses(c: Conn, revents: Events, env: Env)
    requires Inv(c) && IsOpen(c) && revents == NONE_EVENT.(hup := true)
    ensures CanStep(c, Event(revents, env))
    ensures Take(c, Event(revents, env)) == HandleClose(c, env.onConnection)
  {
    HandleEventStages(c, revents, env);
  }

  /** So can room in the socket while bytes are pending, and they are written. */
  lemma RoomIsUsed(c: Conn, revents: Events, env: Env)
    requires Inv(c) && IsOpen(c) && c.output != [] && revents == NONE_EVENT.(pollout := true)
    ensures CanStep(c, Event(revents, env))
    ensures Take(c, Event(revents, env)) == HandleWrite(c, env.write)
  {
    HandleEventStages(c, revents, env);
  }
}
