/** The connection object (src/TcpConnection.cc), method by method, over the buffers
    and the channel it owns. Every method does exactly what the function of the same
    name in Connections does to the connection's snapshot, so what ConnectionProperties
    and ServerProperties prove of those functions holds of the object.
 */
module TcpConnections {
  import opened Buffers
  import opened Epoll
  import opened Connections
  import opened EchoProperties

  /** What some user code leaves of the input buffer's indices. */
  function InputAfter(l: Layout, ops: seq<UserOp>): (r: Layout)
    requires l.Ok()
    ensures r.Ok()
  {
    if ops == [] then l else
      var before := InputAfter(l, ops[..|ops| - 1]);
      match ops[|ops| - 1]
      case UserRetrieve(len) => before.Retrieve(len)
      case _ => before
  }

  class TcpConnection {
    const channel: Channel
    const input: Buffer
    const output: Buffer
    const wantsComplete: bool
    const wantsHighWater: bool
    var state: StateE
    ghost var taken: seq<Byte>
    ghost var wire: seq<Byte>
    ghost var accepted: seq<seq<Byte>>
    ghost var faulted: bool
    ghost var fins: nat
    ghost var notices: seq<Notice>
    ghost var calls: seq<UserCall>

    ghost predicate Valid()
      reads this, channel, channel.poller, channel.poller.live, input, output
    {
      && channel.Registrable()
      && input.Valid() && output.Valid() && input != output && input.data != output.data
    }

    ghost function Snapshot(): Conn
      requires Valid()
      reads this, channel, channel.poller, channel.poller.live, input, output, input.data, output.data
    {
      Conn(state, channel.Snapshot(), input.Contents(), output.Contents(), wantsComplete, wantsHighWater,
           taken, wire, accepted, faulted, fins, notices, calls)
    }

    /** What every method leaves in place; only connectEstablished ties the channel. */
    twostate predicate Kept()
      reads this, channel, channel.poller, channel.poller.live, input, output
    {
      KeptButTie() && channel.tied == old(channel.tied)
    }

    twostate predicate KeptButTie()
      reads this, channel, channel.poller, channel.poller.live, input, output
    {
      && Valid()
      && channel.poller.live == old(channel.poller.live)
      && (input.data == old(input.data) || fresh(input.data))
      && (output.data == old(output.data) || fresh(output.data))
    }

    constructor (channel: Channel, wantsComplete: bool, wantsHighWater: bool)
      requires channel.Registrable() && channel.Snapshot() == NewChannelState(channel.fd)
      ensures Valid() && fresh(input) && fresh(input.data) && fresh(output) && fresh(output.data)
      ensures this.channel == channel && Snapshot() == NewConn(channel.fd, wantsComplete, wantsHighWater)
      ensures input.Shape() == output.Shape() == Layout(1032, 8, 8)
    {
      this.channel := channel;
      input := new Buffer();
      output := new Buffer();
      this.wantsComplete := wantsComplete;
      this.wantsHighWater := wantsHighWater;
      state := Disconnected;
      taken, wire, accepted, faulted, fins, notices, calls := [], [], [], false, 0, [], [];
    }

    /** The direct write of sendInLoop, tried when nothing is pending. */
    method WriteDirectly(data: seq<Byte>, w: WriteResult) returns (nwrote: nat, faultError: bool)
      requires Valid()
      modifies this`wire, this`notices
      ensures Kept() && output.data == old(output.data) && input.data == old(input.data)
      ensures var a := TryWrite(old(Snapshot()), data, w);
              nwrote == a.nwrote && faultError == a.fault && Snapshot() == Written(old(Snapshot()), data, a)
    {
      nwrote, faultError := 0, false;
      if !channel.IsWriting() && output.ReadableBytes() == 0 {
        assert output.Contents() == [];
        match w {
          case Accepts(room) =>
            nwrote := Min(room, |data|);
            var remaining := |data| - nwrote;
            if remaining == 0 && wantsComplete {
              notices := notices + [WriteComplete];
            }
          case WriteFails(e) =>
            if e != EWOULDBLOCK {
              if e == EPIPE || e == ECONNRESET {
                faultError := true;
              }
            }
        }
      }
      wire := wire + data[..nwrote];
    }

    method CheckHighWater(remaining: nat)
      requires Valid()
      modifies this`notices
      ensures Kept() && output.data == old(output.data) && input.data == old(input.data)
      ensures var c := old(Snapshot());
              var pending := |c.output| + remaining;
              Snapshot() == if HIGH_WATER_MARK <= pending && |c.output| < HIGH_WATER_MARK && c.wantsHighWater
                            then Notify(c, HighWater(pending)) else c
    {
      var oldLen := output.ReadableBytes();
      if HIGH_WATER_MARK <= oldLen + remaining && oldLen < HIGH_WATER_MARK && wantsHighWater {
        notices := notices + [HighWater(oldLen + remaining)];
      }
    }

    /** The part of sendInLoop that appends what is left and asks for write events. */
    method BufferRest(rest: seq<Byte>)
      requires Valid()
      modifies this`notices, channel, channel.poller, output, output.data
      ensures Kept() && Snapshot() == Buffered(old(Snapshot()), rest)
      ensures input.data == old(input.data)
    {
      if |rest| > 0 {
        CheckHighWater(|rest|);
        AppendAndWatch(rest);
      }
    }

    method AppendAndWatch(rest: seq<Byte>)
      requires Valid()
      modifies channel, channel.poller, output, output.data
      ensures Kept() && input.data == old(input.data)
      ensures var c := old(Snapshot());
              Snapshot() == c.(output := c.output + rest,
                               chan := if c.IsWriting() then c.chan else c.chan.EnableWriting())
    {
      AppendOutput(rest);
      WatchWriting();
    }

    method AppendOutput(rest: seq<Byte>)
      requires Valid()
      modifies output, output.data
      ensures Kept() && input.data == old(input.data)
      ensures Snapshot() == old(Snapshot()).(output := old(output.Contents()) + rest)
    {
      output.Append(rest);
    }

    method WatchWriting()
      requires Valid()
      modifies channel, channel.poller
      ensures Kept() && input.data == old(input.data) && output.data == old(output.data)
      ensures var c := old(Snapshot());
              Snapshot() == c.(chan := if c.IsWriting() then c.chan else c.chan.EnableWriting())
    {
      if !channel.IsWriting() {
        var ok := channel.EnableWriting();
      }
    }

    method SendInLoop(data: seq<Byte>, w: WriteResult)
      requires Valid()
      modifies this, channel, channel.poller, output, output.data
      ensures Kept() && Snapshot() == Connections.SendInLoop(old(Snapshot()), data, w)
      ensures input.data == old(input.data)
    {
      if state == Disconnecting {
        return;
      }
      var nwrote, faultError := WriteDirectly(data, w);
      if faultError {
        faulted := true;
      } else {
        accepted := accepted + [data];
        BufferRest(data[nwrote..]);
      }
    }

    method Send(data: seq<Byte>, w: WriteResult)
      requires Valid()
      modifies this, channel, channel.poller, output, output.data
      ensures Kept() && Snapshot() == Connections.Send(old(Snapshot()), data, w)
      ensures input.data == old(input.data)
    {
      if state == Connected {
        SendInLoop(data, w);
      }
    }

    method ShutdownInLoop()
      requires Valid()
      modifies this
      ensures Kept() && Snapshot() == Connections.ShutdownInLoop(old(Snapshot()))
      ensures input.data == old(input.data) && output.data == old(output.data)
    {
      if !channel.IsWriting() {
        fins := fins + 1;
        state := Disconnected;
      }
    }

    method Shutdown()
      requires Valid()
      modifies this
      ensures Kept() && Snapshot() == Connections.Shutdown(old(Snapshot()))
      ensures input.data == old(input.data) && output.data == old(output.data)
    {
      if state == Connected {
        state := Disconnecting;
        ShutdownInLoop();
      }
    }

    /** Runs what a user's callback does. */
    method UserCode(ops: seq<UserOp>)
      requires Valid()
      modifies this, channel, channel.poller, input, output, output.data
      ensures Kept() && Snapshot() == UserRun(old(Snapshot()), ops)
      ensures input.data == old(input.data) && input.Shape() == InputAfter(old(input.Shape()), ops)
    {
      for i := 0 to |ops|
        invariant Kept() && input.data == old(input.data)
        invariant Snapshot() == UserRun(old(Snapshot()), ops[..i])
        invariant input.Shape() == InputAfter(old(input.Shape()), ops[..i])
      {
        assert ops[..i + 1][..i] == ops[..i];
        UserOperation(ops[i]);
      }
      assert ops[..|ops|] == ops;
    }

    method UserOperation(op: UserOp)
      requires Valid()
      modifies this, channel, channel.poller, input, output, output.data
      ensures Kept() && Snapshot() == UserApply(old(Snapshot()), op)
      ensures input.data == old(input.data)
      ensures input.Shape() == if op.UserRetrieve? then old(input.Shape()).Retrieve(op.len) else old(input.Shape())
    {
      match op {
        case UserSend(data, w) => Send(data, w);
        case UserShutdown => Shutdown();
        case UserRetrieve(len) => RetrieveInput(len);
      }
    }

    method RetrieveInput(len: nat)
      requires Valid()
      modifies this`taken, input
      ensures Kept() && input.data == old(input.data) && output.data == old(output.data)
      ensures Snapshot() == Retrieved(old(Snapshot()), Min(len, |old(Snapshot()).input|))
      ensures input.Shape() == old(input.Shape()).Retrieve(len)
    {
      ghost var n := Min(len, |input.Contents()|);
      taken := taken + input.Contents()[..n];
      input.Retrieve(len);
    }

    /** The user takes everything out of the input buffer. */
    method TakeInput() returns (msg: seq<Byte>)
      requires Valid()
      modifies this`taken, input
      ensures Kept() && input.data == old(input.data) && output.data == old(output.data)
      ensures msg == old(input.Contents()) && Snapshot() == Retrieved(old(Snapshot()), |msg|)
    {
      msg := input.RetrieveAllAsString();
      taken := taken + msg;
    }

    method HandleClose(ops: seq<UserOp>)
      requires Valid()
      modifies this, channel, channel.poller, input, output, output.data
      ensures Kept() && Snapshot() == Connections.HandleClose(old(Snapshot()), ops)
      ensures input.data == old(input.data) && input.Shape() == InputAfter(old(input.Shape()), ops)
    {
      state := Disconnected;
      var ok := channel.DisableAll();
      calls := calls + [Down];
      UserCode(ops);
      calls := calls + [CloseRequest];
    }

    method HandleRead(env: Env)
      requires Valid()
      requires env.read.Data? ==> |env.read.bytes| <= input.Shape().Offered()
      modifies this, channel, channel.poller, input, input.data, output, output.data
      ensures Kept() && Snapshot() == Connections.HandleRead(old(Snapshot()), env)
    {
      var n, savedErrno := input.ReadFd(env.read);
      if n > 0 {
        calls := calls + [Message(env.read.bytes)];
        UserCode(env.onMessage);
      } else if n == 0 {
        assert env.read.bytes == [];
        assert input.Contents() == old(input.Contents());
        HandleClose(env.onConnection);
      }
    }

    /** The part of handleWrite for the last pending byte. */
    method FinishWriting()
      requires Valid()
      modifies this, channel, channel.poller
      ensures Kept() && Snapshot() == Drained(old(Snapshot()))
      ensures input.data == old(input.data) && output.data == old(output.data)
    {
      StopWriting();
      NotifyComplete();
      if state == Disconnecting {
        ShutdownInLoop();
      }
    }

    method StopWriting()
      requires Valid()
      modifies channel, channel.poller
      ensures Kept() && Snapshot() == old(Snapshot()).(chan := old(Snapshot()).chan.DisableWriting())
      ensures input.data == old(input.data) && output.data == old(output.data)
    {
      var ok := channel.DisableWriting();
    }

    method NotifyComplete()
      requires Valid()
      modifies this`notices
      ensures Kept() && Snapshot() == if wantsComplete then Notify(old(Snapshot()), WriteComplete) else old(Snapshot())
      ensures input.data == old(input.data) && output.data == old(output.data)
    {
      if wantsComplete {
        notices := notices + [WriteComplete];
      }
    }

    method HandleWrite(w: WriteResult)
      requires Valid()
      modifies this, channel, channel.poller, output
      ensures Kept() && Snapshot() == Connections.HandleWrite(old(Snapshot()), w)
      ensures input.data == old(input.data) && output.data == old(output.data)
    {
      if channel.IsWriting() {
        var n, savedErrno, taken := output.WriteFd(w);
        if n > 0 {
          wire := wire + taken;
          output.Retrieve(n);
          if output.ReadableBytes() == 0 {
            assert output.Contents() == [];
            FinishWriting();
          }
        }
      }
    }

    method OnCallback(callback: Callback, env: Env)
      requires Valid()
      requires callback == ReadCallback && env.read.Data? ==> |env.read.bytes| <= input.Shape().Offered()
      modifies this, channel, channel.poller, input, input.data, output, output.data
      ensures Kept() && Snapshot() == Connections.OnCallback(old(Snapshot()), callback, env)
      ensures callback == CloseCallback ==> input.Shape() == InputAfter(old(input.Shape()), env.onConnection)
    {
      match callback {
        case CloseCallback => HandleClose(env.onConnection);
        case ReadCallback => HandleRead(env);
        case WriteCallback => HandleWrite(env.write);
        case ErrorCallback =>
      }
    }

    /** The input buffer's indices when a dispatch comes to its read, which a close and
        its callback may precede. */
    ghost function InputAtRead(env: Env): (l: Layout)
      requires Valid()
      reads this, channel, channel.poller, channel.poller.live, input, output
      ensures l.Ok()
    {
      if channel.revents.hup && !channel.revents.pollin
      then InputAfter(input.Shape(), env.onConnection) else input.Shape()
    }

    /** One event on the channel, handled if the owner can still be locked. A read
        delivers at most what the input buffer then offers. */
    method HandleEvent(env: Env, ownerAlive: bool)
      requires Valid() && (ownerAlive || !channel.tied)
      requires env.read.Data? ==> |env.read.bytes| <= InputAtRead(env).Offered()
      modifies this, channel, channel.poller, input, input.data, output, output.data
      ensures Kept() && Snapshot() == Connections.HandleEvent(old(Snapshot()), old(channel.revents), env)
    {
      ghost var revents, atRead := channel.revents, InputAtRead(env);
      var callbacks := channel.HandleEvent(ownerAlive);
      for i := 0 to |callbacks|
        invariant Kept()
        invariant Snapshot() == OnCallbacks(old(Snapshot()), callbacks[..i], env)
        invariant i == 0 ==> input.Shape() == old(input.Shape())
        invariant callbacks[..i] == When(revents.hup && !revents.pollin, CloseCallback) ==> input.Shape() == atRead
      {
        OnCallbacksStep(old(Snapshot()), callbacks, i, env);
        if callbacks[i] == ReadCallback {
          ReadComesFirst(revents, i);
        }
        OnCallback(callbacks[i], env);
      }
      assert callbacks[..|callbacks|] == callbacks;
    }

    method ConnectEstablished(ops: seq<UserOp>)
      requires Valid()
      modifies this, channel, channel.poller, input, output, output.data
      ensures KeptButTie() && channel.tied
      ensures Snapshot() == Connections.ConnectEstablished(old(Snapshot()), ops)
    {
      state := Connected;
      channel.Tie();
      var ok := channel.EnableReading();
      calls := calls + [Up];
      UserCode(ops);
    }

    method ConnectDestroyed(ops: seq<UserOp>)
      requires Valid()
      modifies this, channel, channel.poller, input, output, output.data
      ensures Kept() && Snapshot() == Connections.ConnectDestroyed(old(Snapshot()), ops)
    {
      if state == Connected {
        state := Disconnected;
        var ok := channel.DisableAll();
        calls := calls + [Down];
        UserCode(ops);
      }
    }
  }

  /** The example server's message callback (example/testserver.cc). */
  class EchoServer {
    method OnMessage(conn: TcpConnection, w: WriteResult)
      requires conn.Valid()
      modifies conn, conn.channel, conn.channel.poller, conn.input, conn.output, conn.output.data
      ensures conn.Kept()
      ensures conn.Snapshot() == UserRun(old(conn.Snapshot()), EchoProperties.OnMessage(old(conn.input.Contents()), w))
    {
      ghost var c := conn.Snapshot();
      var msg := conn.TakeInput();
      conn.Send(msg, w);
      conn.Shutdown();
      OnMessageEffect(c, w);
    }
  }
}
