/** What every run of a connection keeps: the byte stream, the half-close, write
    interest, the order of callbacks and the notifications.
 */
module ConnectionProperties {
  import opened Buffers
  import opened Epoll
  import opened Connections

  function Flatten(xs: seq<seq<Byte>>): seq<Byte>
  {
    if xs == [] then [] else Flatten(xs[..|xs| - 1]) + xs[|xs| - 1]
  }

  lemma FlattenSnoc(xs: seq<seq<Byte>>, x: seq<Byte>)
    ensures Flatten(xs + [x]) == Flatten(xs) + x
  {
    assert (xs + [x])[..|xs|] == xs;
  }

  function Completes(ns: seq<Notice>): nat
  {
    if ns == [] then 0 else Completes(ns[..|ns| - 1]) + (if ns[|ns| - 1].WriteComplete? then 1 else 0)
  }

  lemma CompletesSnoc(ns: seq<Notice>, n: Notice)
    ensures Completes(ns + [n]) == Completes(ns) + (if n.WriteComplete? then 1 else 0)
  {
    assert (ns + [n])[..|ns|] == ns;
  }

  // ---- The language of callbacks ----

  /** How far the callbacks made so far have come; Disorder is a sequence that is not
      up, then messages, then down once, then at most one request for removal. */
  datatype Phase = Unborn | Live | WentDown | Gone | Disorder

  function Advance(p: Phase, call: UserCall): Phase
  {
    match (p, call)
    case (Unborn, Up) => Live
    case (Live, Message(_)) => Live
    case (Live, Down) => WentDown
    case (WentDown, CloseRequest) => Gone
    case _ => Disorder
  }

  function PhaseOf(calls: seq<UserCall>): Phase
  {
    if calls == [] then Unborn else Advance(PhaseOf(calls[..|calls| - 1]), calls[|calls| - 1])
  }

  lemma PhaseSnoc(calls: seq<UserCall>, call: UserCall)
    ensures PhaseOf(calls + [call]) == Advance(PhaseOf(calls), call)
  {
    assert (calls + [call])[..|calls|] == calls;
  }

  predicate IsFresh(c: Conn) { PhaseOf(c.calls) == Unborn }

  predicate IsOpen(c: Conn) { PhaseOf(c.calls) == Live }

  predicate IsClosed(c: Conn) { PhaseOf(c.calls) == WentDown || PhaseOf(c.calls) == Gone }

  /** What an orderly sequence of callbacks looks like, position by position. */
  ghost predicate InOrder(calls: seq<UserCall>)
  {
    && (forall i | 0 <= i < |calls| :: calls[i].Up? <==> i == 0)
    && (forall i | 0 <= i < |calls| :: calls[i].Down? ==> |calls| - 2 <= i)
    && (forall i | 0 <= i < |calls| :: calls[i].CloseRequest? ==> i == |calls| - 1 && 2 <= i && calls[i - 1].Down?)
    && (forall i, j | 0 <= i < j < |calls| && calls[i].Down? :: calls[j].CloseRequest?)
  }

  lemma {:induction false} PhaseMeansOrder(calls: seq<UserCall>)
    requires PhaseOf(calls) != Disorder
    ensures InOrder(calls)
    ensures PhaseOf(calls) == Unborn <==> calls == []
    ensures PhaseOf(calls) == Live ==> forall i | 0 < i < |calls| :: calls[i].Message?
    ensures PhaseOf(calls) == WentDown ==> 2 <= |calls| && calls[|calls| - 1].Down?
    ensures PhaseOf(calls) == Gone ==> 3 <= |calls| && calls[|calls| - 2].Down? && calls[|calls| - 1].CloseRequest?
  {
    if calls != [] {
      var n := |calls| - 1;
      PhaseMeansOrder(calls[..n]);
      assert forall i | 0 <= i < n :: calls[i] == calls[..n][i];
      match calls[n]
      case Up => assert calls == [Up];
      case Message(_) => assert PhaseOf(calls[..n]) == Live;
      case Down => assert PhaseOf(calls[..n]) == Live;
      case CloseRequest => assert PhaseOf(calls[..n]) == WentDown;
    }
  }

  lemma {:induction false} RequestMeansGone(calls: seq<UserCall>)
    requires PhaseOf(calls) != Disorder
    ensures CloseRequest in calls <==> PhaseOf(calls) == Gone
  {
    PhaseMeansOrder(calls);
    if PhaseOf(calls) == Gone {
      assert calls[|calls| - 1] in calls;
    }
  }

  // ---- The invariant ----

  predicate Conserved(c: Conn) { c.wire + c.output == Flatten(c.accepted) }

  predicate HalfClose(c: Conn)
  {
    && c.fins <= 1
    && (c.fins == 1 ==> c.output == [] && c.state == Disconnected)
  }

  predicate Counted(c: Conn)
  {
    Completes(c.notices) + (if c.output == [] then 0 else 1) <= |c.accepted|
  }

  predicate FreshOk(c: Conn)
  {
    && IsFresh(c) && c == NewConn(c.chan.fd, c.wantsComplete, c.wantsHighWater)
  }

  predicate OpenMask(c: Conn)
  {
    c.chan.index == Added && c.chan.events == READ_EVENT.(pollout := c.output != [])
  }

  predicate OpenOk(c: Conn)
  {
    && IsOpen(c) && OpenMask(c)
    && (c.state == Connected ==> c.fins == 0)
    && (c.state == Disconnecting ==> c.output != [])
    && (c.state == Disconnected ==> c.fins == 1)
    && c.state != Connecting
  }

  predicate ClosedOk(c: Conn)
  {
    IsClosed(c) && c.chan.index == Deleted && c.chan.events == NONE_EVENT && c.state == Disconnected
  }

  predicate Inv(c: Conn)
  {
    && Conserved(c) && HalfClose(c) && Counted(c)
    && (FreshOk(c) || OpenOk(c) || ClosedOk(c))
  }

  lemma NewConnInv(fd: int, wantsComplete: bool, wantsHighWater: bool)
    ensures Inv(NewConn(fd, wantsComplete, wantsHighWater))
  {
  }

  // ---- What a step may do to what has already happened ----

  /** Histories only grow; after the FIN, or once closed, no byte is accepted or written. */
  ghost predicate Evolves(c: Conn, d: Conn)
  {
    && c.taken <= d.taken && c.wire <= d.wire && c.accepted <= d.accepted
    && c.notices <= d.notices && c.calls <= d.calls
    && c.fins <= d.fins && (c.faulted ==> d.faulted)
    && c.chan.fd == d.chan.fd && c.wantsComplete == d.wantsComplete && c.wantsHighWater == d.wantsHighWater
    && (c.fins == 1 || IsClosed(c) ==>
          d.wire == c.wire && d.accepted == c.accepted && d.output == c.output && d.fins == c.fins)
    && (IsClosed(c) ==> IsClosed(d) && d.notices == c.notices)
    && (IsOpen(c) ==> !IsFresh(d))
  }

  lemma EvolvesTrans(c: Conn, d: Conn, e: Conn)
    requires Evolves(c, d) && Evolves(d, e)
    ensures Evolves(c, e)
  {
  }

  // ---- Each operation keeps the invariant ----

  lemma BufferedEffect(c: Conn, rest: seq<Byte>)
    ensures var d := Buffered(c, rest);
            && d == c.(output := c.output + rest, chan := d.chan, notices := d.notices)
            && d.chan == (if rest == [] || c.IsWriting() then c.chan else c.chan.EnableWriting())
  {
    if rest == [] {
      assert c.output + rest == c.output;
    }
  }

  /** The errors on which a send is given up. */
  predicate Refuses(w: WriteResult) { w == WriteFails(EPIPE) || w == WriteFails(ECONNRESET) }

  /** The socket is asked at once, since nothing is pending, and refuses. */
  predicate Refused(c: Conn, w: WriteResult) { !c.IsWriting() && c.output == [] && Refuses(w) }

  lemma FaultIff(c: Conn, data: seq<Byte>, w: WriteResult)
    ensures TryWrite(c, data, w).fault <==> Refused(c, w)
  {
  }

  /** A refused write leaves everything but the fault flag as it was. */
  lemma FaultDropsAll(c: Conn, data: seq<Byte>, w: WriteResult)
    requires c.state != Disconnecting && TryWrite(c, data, w).fault
    ensures SendInLoop(c, data, w) == c.(faulted := true) && Refused(c, w)
  {
    assert c.wire + data[..0] == c.wire;
  }

  lemma SendEffect(c: Conn, data: seq<Byte>, w: WriteResult)
    requires c.state != Disconnecting && !TryWrite(c, data, w).fault
    ensures var d, n := SendInLoop(c, data, w), TryWrite(c, data, w).nwrote;
            && d == c.(wire := c.wire + data[..n], output := c.output + data[n..], accepted := c.accepted + [data],
                       chan := d.chan, notices := d.notices)
            && d.chan == (if n == |data| || c.IsWriting() then c.chan else c.chan.EnableWriting())
            && (n == 0 || c.output == [])
  {
    var a := TryWrite(c, data, w);
    var c1 := Written(c, data, a);
    BufferedEffect(c1.(accepted := c1.accepted + [data]), data[a.nwrote..]);
  }

  lemma Regroup(wire: seq<Byte>, output: seq<Byte>, data: seq<Byte>, n: nat)
    requires n <= |data| && (n == 0 || output == [])
    ensures (wire + data[..n]) + (output + data[n..]) == wire + output + data
  {
    assert data == data[..n] + data[n..];
  }

  /** A send is dropped whole or accepted whole, and then only appends to the stream. */
  lemma SendIsAtomic(c: Conn, data: seq<Byte>, w: WriteResult)
    requires c.state == Connected
    ensures var d := SendInLoop(c, data, w);
            && (Refused(c, w) ==> d == c.(faulted := true))
            && (!Refused(c, w) ==>
                  && d.accepted == c.accepted + [data] && c.wire <= d.wire && d.faulted == c.faulted
                  && d.wire + d.output == c.wire + c.output + data)
  {
    if TryWrite(c, data, w).fault {
      FaultDropsAll(c, data, w);
    } else {
      SendEffect(c, data, w);
      Regroup(c.wire, c.output, data, TryWrite(c, data, w).nwrote);
    }
  }

  /** What a send leaves alone, and that it keeps write interest on exactly while bytes are pending. */
  lemma SendMask(c: Conn, data: seq<Byte>, w: WriteResult)
    requires c.state == Connected && OpenMask(c)
    ensures var d := SendInLoop(c, data, w);
            && OpenMask(d) && d.state == c.state && d.calls == c.calls && d.fins == c.fins
            && d.input == c.input && d.taken == c.taken
            && d.chan.fd == c.chan.fd && d.wantsComplete == c.wantsComplete && d.wantsHighWater == c.wantsHighWater
  {
    if TryWrite(c, data, w).fault {
      FaultDropsAll(c, data, w);
    } else {
      SendEffect(c, data, w);
    }
  }

  /** Which notice a send queues: write-complete exactly when its direct write took
      everything, high-water exactly when the pending count reached the mark, with that count. */
  lemma SendNotices(c: Conn, data: seq<Byte>, w: WriteResult)
    requires c.state == Connected && OpenMask(c)
    ensures var d := SendInLoop(c, data, w);
            var complete := c.wantsComplete && c.output == [] && w.Accepts? && d.output == [];
            var high := c.wantsHighWater && |c.output| < HIGH_WATER_MARK <= |d.output|;
            && !(complete && high)
            && d.notices == if complete then c.notices + [WriteComplete]
                            else if high then c.notices + [HighWater(|d.output|)]
                            else c.notices
  {
    var a := TryWrite(c, data, w);
    var d := SendInLoop(c, data, w);
    assert a.complete <==> c.output == [] && w.Accepts? && a.nwrote == |data|;
    if a.fault {
      assert d.output == c.output && d.notices == c.notices;
    } else {
      assert d.output == c.output + data[a.nwrote..];
    }
  }

  lemma SendCounted(c: Conn, data: seq<Byte>, w: WriteResult)
    requires c.state == Connected && OpenMask(c) && Counted(c)
    ensures Counted(SendInLoop(c, data, w)) && c.notices <= SendInLoop(c, data, w).notices
  {
    var d := SendInLoop(c, data, w);
    SendNotices(c, data, w);
    SendIsAtomic(c, data, w);
    CompletesSnoc(c.notices, WriteComplete);
    CompletesSnoc(c.notices, HighWater(|d.output|));
    if !TryWrite(c, data, w).fault {
      assert |d.accepted| == |c.accepted| + 1;
      if d.output == [] {
        assert c.output == [];
      }
    }
  }

  lemma ConnectedIsOpen(c: Conn)
    requires Inv(c) && c.state == Connected
    ensures OpenOk(c) && c.fins == 0 && !IsClosed(c)
  {
  }

  lemma SendConserves(c: Conn, data: seq<Byte>, w: WriteResult)
    requires Conserved(c) && c.state == Connected
    ensures Conserved(SendInLoop(c, data, w))
  {
    SendIsAtomic(c, data, w);
    FlattenSnoc(c.accepted, data);
  }

  /** While a connection is open and has not sent its FIN, growing histories are enough. */
  lemma OpenEvolves(c: Conn, d: Conn)
    requires IsOpen(c) && c.fins == 0 && d.calls == c.calls && d.taken == c.taken
    requires c.wire <= d.wire && c.accepted <= d.accepted && c.notices <= d.notices && (c.faulted ==> d.faulted)
    requires c.chan.fd == d.chan.fd && c.wantsComplete == d.wantsComplete && c.wantsHighWater == d.wantsHighWater
    ensures Evolves(c, d)
  {
  }

  lemma SendKeeps(c: Conn, data: seq<Byte>, w: WriteResult)
    requires Inv(c)
    ensures Inv(Send(c, data, w)) && Evolves(c, Send(c, data, w)) && Send(c, data, w).calls == c.calls
  {
    if c.state == Connected {
      ConnectedIsOpen(c);
      SendMask(c, data, w);
      SendCounted(c, data, w);
      SendConserves(c, data, w);
      SendIsAtomic(c, data, w);
      OpenEvolves(c, SendInLoop(c, data, w));
    }
  }

  lemma ShutdownKeeps(c: Conn)
    requires Inv(c)
    ensures Inv(Shutdown(c)) && Evolves(c, Shutdown(c)) && Shutdown(c).calls == c.calls
    ensures IsOpen(c) ==> Shutdown(c).state != Connected
  {
    if c.state == Connected {
      ConnectedIsOpen(c);
      OpenEvolves(c, Shutdown(c));
      assert OpenOk(Shutdown(c));
    }
  }

  lemma UserApplyKeeps(c: Conn, op: UserOp)
    requires Inv(c)
    ensures Inv(UserApply(c, op)) && Evolves(c, UserApply(c, op)) && UserApply(c, op).calls == c.calls
  {
    match op
    case UserSend(data, w) => SendKeeps(c, data, w);
    case UserShutdown => ShutdownKeeps(c);
    case UserRetrieve(_) =>
  }

  lemma {:induction false} UserRunKeeps(c: Conn, ops: seq<UserOp>)
    requires Inv(c)
    ensures Inv(UserRun(c, ops)) && Evolves(c, UserRun(c, ops)) && UserRun(c, ops).calls == c.calls
  {
    if ops != [] {
      var d := UserRun(c, ops[..|ops| - 1]);
      UserRunKeeps(c, ops[..|ops| - 1]);
      UserApplyKeeps(d, ops[|ops| - 1]);
      EvolvesTrans(c, d, UserRun(c, ops));
    }
  }

  lemma UpKeeps(c: Conn)
    requires Inv(c) && IsFresh(c)
    ensures var d := Called(c.(state := Connected, chan := c.chan.EnableReading()), Up);
            Inv(d) && Evolves(c, d) && IsOpen(d)
  {
    PhaseSnoc(c.calls, Up);
  }

  lemma EstablishKeeps(c: Conn, ops: seq<UserOp>)
    requires Inv(c) && IsFresh(c)
    ensures Inv(ConnectEstablished(c, ops)) && Evolves(c, ConnectEstablished(c, ops))
    ensures IsOpen(ConnectEstablished(c, ops))
  {
    var d := Called(c.(state := Connected, chan := c.chan.EnableReading()), Up);
    UpKeeps(c);
    UserRunKeeps(d, ops);
    EvolvesTrans(c, d, ConnectEstablished(c, ops));
  }

  lemma DownKeeps(c: Conn)
    requires Inv(c) && IsOpen(c)
    ensures var d := Called(c.(state := Disconnected, chan := c.chan.DisableAll()), Down);
            Inv(d) && Evolves(c, d) && PhaseOf(d.calls) == WentDown
  {
    PhaseSnoc(c.calls, Down);
  }

  lemma RequestKeeps(c: Conn)
    requires Inv(c) && PhaseOf(c.calls) == WentDown
    ensures Inv(Called(c, CloseRequest)) && Evolves(c, Called(c, CloseRequest))
    ensures PhaseOf(Called(c, CloseRequest).calls) == Gone
  {
    PhaseSnoc(c.calls, CloseRequest);
  }

  lemma CloseKeeps(c: Conn, ops: seq<UserOp>)
    requires Inv(c) && IsOpen(c)
    ensures Inv(HandleClose(c, ops)) && Evolves(c, HandleClose(c, ops))
    ensures HandleClose(c, ops).calls == c.calls + [Down, CloseRequest]
    ensures PhaseOf(HandleClose(c, ops).calls) == Gone
  {
    var d := Called(c.(state := Disconnected, chan := c.chan.DisableAll()), Down);
    DownKeeps(c);
    UserRunKeeps(d, ops);
    var e := UserRun(d, ops);
    RequestKeeps(e);
    EvolvesTrans(c, d, e);
    EvolvesTrans(c, e, Called(e, CloseRequest));
    assert c.calls + [Down] + [CloseRequest] == c.calls + [Down, CloseRequest];
  }

  lemma ReceivedKeeps(c: Conn, bytes: seq<Byte>)
    requires Inv(c) && IsOpen(c)
    ensures Inv(Received(c, bytes)) && Evolves(c, Received(c, bytes)) && IsOpen(Received(c, bytes))
  {
    PhaseSnoc(c.calls, Message(bytes));
  }

  lemma MessageKeeps(c: Conn, bytes: seq<Byte>, ops: seq<UserOp>)
    requires Inv(c) && IsOpen(c)
    ensures var d := UserRun(Received(c, bytes), ops);
            Inv(d) && Evolves(c, d) && IsOpen(d) && d.calls == c.calls + [Message(bytes)]
  {
    var d := Received(c, bytes);
    ReceivedKeeps(c, bytes);
    UserRunKeeps(d, ops);
    EvolvesTrans(c, d, UserRun(d, ops));
  }

  lemma ReadKeeps(c: Conn, env: Env)
    requires Inv(c) && IsOpen(c)
    ensures Inv(HandleRead(c, env)) && Evolves(c, HandleRead(c, env))
    ensures IsOpen(HandleRead(c, env)) || PhaseOf(HandleRead(c, env).calls) == Gone
  {
    if env.read.Data? {
      if env.read.bytes == [] {
        CloseKeeps(c, env.onConnection);
      } else {
        MessageKeeps(c, env.read.bytes, env.onMessage);
      }
    }
  }

  /** handleWrite succeeds with at least one byte. */
  predicate Progresses(c: Conn, w: WriteResult)
  {
    c.IsWriting() && w.Accepts? && 0 < Min(w.room, |c.output|)
  }

  /** A successful handleWrite moves a prefix of the pending bytes to the wire; when
      none are left it drops write interest and releases a deferred FIN. */
  lemma WriteDrains(c: Conn, w: WriteResult)
    requires Progresses(c, w)
    ensures var d := HandleWrite(c, w);
            && d.wire + d.output == c.wire + c.output && |d.output| < |c.output|
            && c.wire <= d.wire && c.wire != d.wire && d.calls == c.calls && d.accepted == c.accepted
            && d.chan.fd == c.chan.fd && d.wantsComplete == c.wantsComplete && d.wantsHighWater == c.wantsHighWater
            && d.faulted == c.faulted && d.input == c.input
    ensures HandleWrite(c, w).output != [] ==>
              HandleWrite(c, w) == c.(wire := HandleWrite(c, w).wire, output := HandleWrite(c, w).output)
    ensures var d := HandleWrite(c, w);
            d.output == [] ==>
              && d.chan == c.chan.DisableWriting()
              && d.notices == (if c.wantsComplete then c.notices + [WriteComplete] else c.notices)
              && d.fins == (if c.state == Disconnecting then c.fins + 1 else c.fins)
              && d.state == (if c.state == Disconnecting then Disconnected else c.state)
  {
    var n := Min(w.room, |c.output|);
    assert c.wire + c.output == (c.wire + c.output[..n]) + c.output[n..];
  }

  lemma WriteKeeps(c: Conn, w: WriteResult)
    requires Inv(c)
    ensures Inv(HandleWrite(c, w)) && Evolves(c, HandleWrite(c, w)) && HandleWrite(c, w).calls == c.calls
  {
    if Progresses(c, w) {
      WriteDrains(c, w);
      CompletesSnoc(c.notices, WriteComplete);
    }
  }

  lemma DestroyKeeps(c: Conn, ops: seq<UserOp>)
    requires Inv(c)
    ensures Inv(ConnectDestroyed(c, ops)) && Evolves(c, ConnectDestroyed(c, ops))
  {
    if c.state == Connected {
      var d := Called(c.(state := Disconnected, chan := c.chan.DisableAll()), Down);
      PhaseSnoc(c.calls, Down);
      assert ClosedOk(d) && Evolves(c, d);
      UserRunKeeps(d, ops);
      EvolvesTrans(c, d, ConnectDestroyed(c, ops));
    }
  }

  /** connectDestroyed after handleClose changes nothing. */
  lemma DestroyAfterCloseIsNoOp(c: Conn, ops: seq<UserOp>)
    requires Inv(c) && IsClosed(c)
    ensures ConnectDestroyed(c, ops) == c
  {
  }

  // ---- One dispatch ----

  lemma CloseReadKeeps(c: Conn, revents: Events, env: Env)
    requires Inv(c) && IsOpen(c) && Benign(revents, env.read)
    requires !revents.rdhup
    ensures var d := ReadStage(CloseStage(c, revents, env), revents, env);
            Inv(d) && Evolves(c, d) && (IsOpen(d) || PhaseOf(d.calls) == Gone)
  {
    if revents.hup && !revents.pollin {
      CloseKeeps(c, env.onConnection);
    } else if revents.pollin || revents.pri {
      ReadKeeps(c, env);
    }
  }

  lemma EventKeeps(c: Conn, revents: Events, env: Env)
    requires Inv(c) && c.Registered() && revents.Within(c.chan.events) && Benign(revents, env.read)
    ensures Inv(HandleEvent(c, revents, env)) && Evolves(c, HandleEvent(c, revents, env))
    ensures IsOpen(HandleEvent(c, revents, env)) || PhaseOf(HandleEvent(c, revents, env).calls) == Gone
  {
    HandleEventStages(c, revents, env);
    CloseReadKeeps(c, revents, env);
    var d := ReadStage(CloseStage(c, revents, env), revents, env);
    WriteKeeps(d, env.write);
    EvolvesTrans(c, d, WriteStage(d, revents, env));
  }

  // ---- Exactly when a dispatch may go wrong ----

  /** A connection that is not connected ignores its user: sends and shutdowns do nothing. */
  lemma {:induction false} UserRunIdle(c: Conn, ops: seq<UserOp>)
    requires c.state != Connected
    ensures UserRun(c, ops) == c.(input := UserRun(c, ops).input, taken := UserRun(c, ops).taken)
  {
    if ops != [] {
      UserRunIdle(c, ops[..|ops| - 1]);
    }
  }

  lemma CloseEffect(c: Conn, ops: seq<UserOp>)
    ensures var d := HandleClose(c, ops);
            && d.chan == c.chan.DisableAll() && d.state == Disconnected
            && PhaseOf(d.calls) == Advance(Advance(PhaseOf(c.calls), Down), CloseRequest)
  {
    var c1 := Called(c.(state := Disconnected, chan := c.chan.DisableAll()), Down);
    UserRunIdle(c1, ops);
    PhaseSnoc(c.calls, Down);
    PhaseSnoc(c1.calls, CloseRequest);
  }

  /** After one close, answering a read a second time breaks the order of callbacks;
      at end of stream it even registers the closed channel again, with an empty mask. */
  lemma ReadAfterCloseIsDisorder(c: Conn, env: Env)
    requires c.state == Disconnected && PhaseOf(c.calls) == Gone && env.read.Data?
    ensures PhaseOf(HandleRead(c, env).calls) == Disorder
    ensures HandleRead(c, env).chan == if env.read.bytes == [] then c.chan.DisableAll() else c.chan
  {
    if env.read.bytes == [] {
      CloseEffect(c, env.onConnection);
    } else {
      var d := Received(c, env.read.bytes);
      PhaseSnoc(c.calls, Message(env.read.bytes));
      UserRunIdle(d, env.onMessage);
    }
  }

  lemma NotWritingIgnoresWrite(c: Conn, revents: Events, env: Env)
    requires c.chan.IsNoneEvent()
    ensures WriteStage(c, revents, env) == c
  {
  }

  lemma ReadAfterClose(c: Conn, env: Env)
    requires PhaseOf(c.calls) == Live && c.chan.index == Added && env.read.Data?
    ensures var d := HandleRead(HandleClose(c, env.onConnection), env);
            && PhaseOf(d.calls) == Disorder && d.chan.IsNoneEvent()
            && (env.read.bytes == [] ==> d.Registered())
  {
    CloseEffect(c, env.onConnection);
    ReadAfterCloseIsDisorder(HandleClose(c, env.onConnection), env);
  }

  lemma DoubleCloseIsDisorder(c: Conn, revents: Events, env: Env)
    requires PhaseOf(c.calls) == Live && c.chan.index == Added && !Benign(revents, env.read)
    ensures var d := HandleEvent(c, revents, env);
            && PhaseOf(d.calls) == Disorder
            && (env.read.bytes == [] ==> d.Registered() && d.chan.IsNoneEvent())
  {
    HandleEventStages(c, revents, env);
    ReadAfterClose(c, env);
    NotWritingIgnoresWrite(HandleRead(HandleClose(c, env.onConnection), env), revents, env);
  }

  /** For a registered connection and any events its mask allows, one dispatch keeps
      the invariant if and only if it is not told of a hang-up and of priority data
      (and no plain data) that a read then answers. A second close at end of stream
      leaves the dead channel registered again, with an empty mask. */
  lemma DispatchKeepsInvIff(c: Conn, revents: Events, env: Env)
    requires Inv(c) && c.Registered() && revents.Within(c.chan.events)
    ensures Inv(HandleEvent(c, revents, env)) <==> Benign(revents, env.read)
    ensures !Benign(revents, env.read) && env.read.bytes == [] ==>
              HandleEvent(c, revents, env).Registered() && HandleEvent(c, revents, env).chan.IsNoneEvent()
  {
    if Benign(revents, env.read) {
      EventKeeps(c, revents, env);
    } else {
      DoubleCloseIsDisorder(c, revents, env);
    }
  }

  /** The condition is not idle: an established connection, a hang-up with priority data,
      and the end of stream when it is read. The connection closes twice, and its dead
      channel is back in the interest list. */
  lemma DoubleCloseExample()
    ensures var c := ConnectEstablished(NewConn(5, false, false), []);
            var revents := NONE_EVENT.(hup := true, pri := true);
            var env := Env(Data([]), WriteFails(EWOULDBLOCK), [], []);
            && Inv(c) && c.Registered() && revents.Within(c.chan.events)
            && HandleEvent(c, revents, env).calls == [Up, Down, CloseRequest, Down, CloseRequest]
            && HandleEvent(c, revents, env).Registered() && !Inv(HandleEvent(c, revents, env))
  {
    var c := ConnectEstablished(NewConn(5, false, false), []);
    var revents := NONE_EVENT.(hup := true, pri := true);
    var env := Env(Data([]), WriteFails(EWOULDBLOCK), [], []);
    NewConnInv(5, false, false);
    EstablishKeeps(NewConn(5, false, false), []);
    DispatchKeepsInvIff(c, revents, env);
    HandleEventStages(c, revents, env);
  }

  // ---- Runs ----

  datatype ConnStep =
    | Establish(ops: seq<UserOp>)
    | Event(revents: Events, env: Env)
    | User(ops: seq<UserOp>)
    | Destroy(ops: seq<UserOp>)

  /** Establishing happens once; events come only while the channel is registered. */
  predicate CanStep(c: Conn, step: ConnStep)
  {
    match step
    case Establish(_) => IsFresh(c)
    case Event(revents, env) => c.Registered() && revents.Within(c.chan.events) && Benign(revents, env.read)
    case User(_) => true
    case Destroy(_) => true
  }

  function Take(c: Conn, step: ConnStep): Conn
  {
    match step
    case Establish(ops) => ConnectEstablished(c, ops)
    case Event(revents, env) => HandleEvent(c, revents, env)
    case User(ops) => UserRun(c, ops)
    case Destroy(ops) => ConnectDestroyed(c, ops)
  }

  lemma StepKeeps(c: Conn, step: ConnStep)
    requires Inv(c) && CanStep(c, step)
    ensures Inv(Take(c, step)) && Evolves(c, Take(c, step))
  {
    match step
    case Establish(ops) => EstablishKeeps(c, ops);
    case Event(revents, env) => EventKeeps(c, revents, env);
    case User(ops) => UserRunKeeps(c, ops);
    case Destroy(ops) => DestroyKeeps(c, ops);
  }

  ghost predicate IsRun(states: seq<Conn>, steps: seq<ConnStep>)
  {
    && |states| == |steps| + 1
    && states[0] == NewConn(states[0].chan.fd, states[0].wantsComplete, states[0].wantsHighWater)
    && (forall i | 0 <= i < |steps| :: CanStep(states[i], steps[i]) && states[i + 1] == Take(states[i], steps[i]))
  }

  lemma {:induction false} RunKeeps(states: seq<Conn>, steps: seq<ConnStep>, i: nat, j: nat)
    requires IsRun(states, steps) && i <= j < |states|
    ensures Inv(states[i]) && Inv(states[j]) && Evolves(states[i], states[j])
    decreases j
  {
    if j == 0 {
      NewConnInv(states[0].chan.fd, states[0].wantsComplete, states[0].wantsHighWater);
    } else {
      RunKeeps(states, steps, if i < j then i else j - 1, j - 1);
      assert states[j - 1 + 1] == Take(states[j - 1], steps[j - 1]);
      StepKeeps(states[j - 1], steps[j - 1]);
      if i < j {
        EvolvesTrans(states[i], states[j - 1], states[j]);
      }
    }
  }

  /** In every state of every run, what is on the wire followed by what is pending is
      the concatenation of the accepted sends; the wire is never rewritten. */
  lemma OutboundStream(states: seq<Conn>, steps: seq<ConnStep>, i: nat, j: nat)
    requires IsRun(states, steps) && i <= j < |states|
    ensures states[j].wire + states[j].output == Flatten(states[j].accepted)
    ensures states[i].wire <= states[j].wire && states[i].accepted <= states[j].accepted
  {
    RunKeeps(states, steps, i, j);
  }

  /** The FIN is sent at most once, only when every accepted byte is on the wire, and
      nothing is accepted or written after it. */
  lemma GracefulClose(states: seq<Conn>, steps: seq<ConnStep>, i: nat, j: nat)
    requires IsRun(states, steps) && i <= j < |states|
    ensures states[j].fins <= 1
    ensures states[i].fins == 1 ==>
              && states[i].wire == Flatten(states[i].accepted)
              && states[j].fins == 1 && states[j].wire == states[i].wire && states[j].accepted == states[i].accepted
  {
    RunKeeps(states, steps, i, j);
    assert states[i].output == [] ==> states[i].wire + states[i].output == states[i].wire;
  }

  /** While the connection is up, write interest is on exactly when bytes are pending. */
  lemma WriteInterest(states: seq<Conn>, steps: seq<ConnStep>, i: nat)
    requires IsRun(states, steps) && i < |states|
    ensures IsOpen(states[i]) ==> states[i].Registered() && (states[i].IsWriting() <==> states[i].output != [])
    ensures !IsOpen(states[i]) ==> !states[i].Registered()
  {
    RunKeeps(states, steps, i, i);
  }

  /** Up comes first and once, messages lie strictly between up and down, and down comes at most once. */
  lemma CallbackOrder(states: seq<Conn>, steps: seq<ConnStep>, i: nat)
    requires IsRun(states, steps) && i < |states|
    ensures InOrder(states[i].calls)
  {
    RunKeeps(states, steps, i, i);
    PhaseMeansOrder(states[i].calls);
  }

  /** Write-completes, plus one if bytes are still pending, never exceed the accepted sends. */
  lemma CompletesBounded(states: seq<Conn>, steps: seq<ConnStep>, i: nat)
    requires IsRun(states, steps) && i < |states|
    ensures Completes(states[i].notices) + (if states[i].output == [] then 0 else 1) <= |states[i].accepted|
  {
    RunKeeps(states, steps, i, i);
  }

  // ---- Draining ----

  function Sum(rooms: seq<nat>): nat { if rooms == [] then 0 else rooms[0] + Sum(rooms[1..]) }

  function WriteAll(c: Conn, rooms: seq<nat>): Conn
    decreases |rooms|
  {
    if rooms == [] then c else WriteAll(HandleWrite(c, Accepts(rooms[0])), rooms[1..])
  }

  lemma WriteOnce(c: Conn, room: nat)
    requires Inv(c) && IsOpen(c)
    ensures var d := HandleWrite(c, Accepts(room));
            var k := Min(room, |c.output|);
            && d.wire == c.wire + c.output[..k] && d.output == c.output[k..] && d.accepted == c.accepted
            && Inv(d) && IsOpen(d) && Evolves(c, d)
            && (c.state == Disconnecting ==> if k < |c.output| then d.state == Disconnecting else d.fins == 1)
  {
    var w := Accepts(room);
    WriteKeeps(c, w);
    if Progresses(c, w) {
      WriteDrains(c, w);
    } else {
      assert c.output[..0] == [] && c.wire + [] == c.wire;
    }
  }

  lemma {:induction false} WriteAllKeeps(c: Conn, rooms: seq<nat>)
    requires Inv(c) && IsOpen(c)
    ensures var d := WriteAll(c, rooms);
            && Inv(d) && IsOpen(d) && Evolves(c, d) && d.accepted == c.accepted
            && |d.output| == |c.output| - Min(Sum(rooms), |c.output|)
    decreases |rooms|
  {
    if rooms != [] {
      var c1 := HandleWrite(c, Accepts(rooms[0]));
      WriteOnce(c, rooms[0]);
      WriteAllKeeps(c1, rooms[1..]);
      EvolvesTrans(c, c1, WriteAll(c1, rooms[1..]));
    }
  }

  lemma {:induction false} WriteAllReleasesFin(c: Conn, rooms: seq<nat>)
    requires Inv(c) && IsOpen(c) && c.state == Disconnecting
    ensures WriteAll(c, rooms).fins == 1 <==> |c.output| <= Sum(rooms)
    decreases |rooms|
  {
    if rooms != [] {
      var c1 := HandleWrite(c, Accepts(rooms[0]));
      WriteOnce(c, rooms[0]);
      if c1.state == Disconnecting {
        WriteAllReleasesFin(c1, rooms[1..]);
      } else {
        WriteAllKeeps(c1, rooms[1..]);
      }
    }
  }

  lemma SplitMoves(wire: seq<Byte>, output: seq<Byte>, wire': seq<Byte>, output': seq<Byte>, n: nat)
    requires wire + output == wire' + output' && n <= |output| && |output'| == |output| - n
    ensures wire' == wire + output[..n] && output' == output[n..]
  {
    var stream := wire + output;
    assert wire' == stream[..|wire'|] && output' == stream[|wire'|..];
  }

  /** However the socket's room is cut up, write events drain exactly as many pending
      bytes as there is room for, in order; so everything drains, and a deferred FIN
      goes out, if and only if the room adds up to the pending count. */
  lemma DrainsExactly(c: Conn, rooms: seq<nat>)
    requires Inv(c) && IsOpen(c)
    ensures var d := WriteAll(c, rooms);
            var n := Min(Sum(rooms), |c.output|);
            && d.wire == c.wire + c.output[..n] && d.output == c.output[n..]
            && (d.IsWriting() <==> Sum(rooms) < |c.output|)
            && (c.state == Disconnecting ==> (d.fins == 1 <==> |c.output| <= Sum(rooms)))
  {
    WriteAllKeeps(c, rooms);
    if c.state == Disconnecting {
      WriteAllReleasesFin(c, rooms);
    }
    var d := WriteAll(c, rooms);
    SplitMoves(c.wire, c.output, d.wire, d.output, Min(Sum(rooms), |c.output|));
  }
}
