/** What a connection is for, said without its states, masks and buffers: two streams,
    how far each has been carried, and whether a shutdown has been asked for. The
    connection of Connections does, over every run, exactly what this machine does.
 */
module Ideals {
  import opened Buffers
  import opened Epoll
  import opened Connections
  import opened ConnectionProperties
  import opened OperationProperties
  import opened NoticeProperties

  /** `stream` is all that has been accepted for the peer and `sent` how much of it the
      socket has taken; `arrived` is all that has been read and `taken` how much of it the
      user has retrieved. */
  datatype Ideal = Ideal(
    wantsComplete: bool,
    wantsHighWater: bool,
    born: bool,
    open: bool,
    asked: bool,
    stream: seq<Byte>,
    sent: nat,
    arrived: seq<Byte>,
    taken: nat,
    sends: seq<seq<Byte>>,
    refused: bool,
    notices: seq<Notice>,
    calls: seq<UserCall>)
  {
    predicate Ok() { sent <= |stream| && taken <= |arrived| && (open ==> born) }

    function Pending(): nat
      requires Ok()
    {
      |stream| - sent
    }

    /** The FIN goes out as soon as it has been asked for and everything is sent. */
    function Fins(): nat { if asked && sent == |stream| then 1 else 0 }
  }

  function NewIdeal(wantsComplete: bool, wantsHighWater: bool): (i: Ideal)
    ensures i.Ok()
  {
    Ideal(wantsComplete, wantsHighWater, false, false, false, [], 0, [], 0, [], false, [], [])
  }

  // ---- The user ----

  /** The data joins the stream, n bytes of it sent at once. */
  function Join(i: Ideal, data: seq<Byte>, n: nat, complete: bool): (j: Ideal)
    requires i.Ok() && n <= |data|
    ensures j.Ok()
  {
    var pending := i.Pending() + |data| - n;
    i.(stream := i.stream + data, sent := i.sent + n, sends := i.sends + [data],
       notices := if i.wantsComplete && complete then i.notices + [WriteComplete]
                  else if i.wantsHighWater && i.Pending() < 0x400_0000 <= pending then i.notices + [HighWater(pending)]
                  else i.notices)
  }

  function IdealSend(i: Ideal, data: seq<Byte>, w: WriteResult): (j: Ideal)
    requires i.Ok()
    ensures j.Ok()
  {
    if !i.open || i.asked then i
    else if 0 < i.Pending() then Join(i, data, 0, false)
    else
      match w
      case Accepts(room) => if |data| <= room then Join(i, data, |data|, true) else Join(i, data, room, false)
      case WriteFails(EPIPE) => i.(refused := true)
      case WriteFails(ECONNRESET) => i.(refused := true)
      case WriteFails(_) => Join(i, data, 0, false)
  }

  function IdealApply(i: Ideal, op: UserOp): (j: Ideal)
    requires i.Ok()
    ensures j.Ok()
  {
    match op
    case UserSend(data, w) => IdealSend(i, data, w)
    case UserShutdown => i.(asked := i.asked || i.open)
    case UserRetrieve(len) => i.(taken := if |i.arrived| < i.taken + len then |i.arrived| else i.taken + len)
  }

  function IdealUser(i: Ideal, ops: seq<UserOp>): (j: Ideal)
    requires i.Ok()
    ensures j.Ok()
  {
    if ops == [] then i else IdealApply(IdealUser(i, ops[..|ops| - 1]), ops[|ops| - 1])
  }

  // ---- The loop ----

  function IdealClose(i: Ideal, ops: seq<UserOp>): (j: Ideal)
    requires i.Ok()
    ensures j.Ok()
  {
    var d := IdealUser(i.(open := false, calls := i.calls + [Down]), ops);
    d.(calls := d.calls + [CloseRequest])
  }

  function Arrived(i: Ideal, bytes: seq<Byte>): (j: Ideal)
    requires i.Ok()
    ensures j.Ok()
  {
    i.(arrived := i.arrived + bytes, calls := i.calls + [Message(bytes)])
  }

  function IdealRead(i: Ideal, env: Env): (j: Ideal)
    requires i.Ok()
    ensures j.Ok()
  {
    if env.read.ReadFails? then i
    else if env.read.bytes == [] then IdealClose(i, env.onConnection)
    else IdealUser(Arrived(i, env.read.bytes), env.onMessage)
  }

  function IdealWrite(i: Ideal, w: WriteResult): (j: Ideal)
    requires i.Ok()
    ensures j.Ok()
  {
    if !i.open || i.Pending() == 0 || w.WriteFails? then i
    else if w.room < i.Pending() then i.(sent := i.sent + w.room)
    else i.(sent := |i.stream|, notices := if i.wantsComplete then i.notices + [WriteComplete] else i.notices)
  }

  /** A hang-up without data closes; otherwise data is read, and then room is used. */
  function IdealEvent(i: Ideal, revents: Events, env: Env): (j: Ideal)
    requires i.Ok()
    ensures j.Ok()
  {
    if revents.hup && !revents.pollin then IdealClose(i, env.onConnection) else
      var d := if revents.pollin || revents.pri then IdealRead(i, env) else i;
      if revents.pollout then IdealWrite(d, env.write) else d
  }

  function IdealStep(i: Ideal, step: ConnStep): (j: Ideal)
    requires i.Ok()
    ensures j.Ok()
  {
    match step
    case Establish(ops) => IdealUser(i.(born := true, open := true, calls := [Up]), ops)
    case Event(revents, env) => IdealEvent(i, revents, env)
    case User(ops) => IdealUser(i, ops)
    case Destroy(ops) =>
      if i.open && !i.asked then IdealUser(i.(open := false, calls := i.calls + [Down]), ops) else i
  }

  /** The machine is driven by the steps alone: the answers of the socket, the reports of
      epoll, the code of the user. */
  function IdealAfter(wantsComplete: bool, wantsHighWater: bool, steps: seq<ConnStep>): (i: Ideal)
    ensures i.Ok()
  {
    if steps == [] then NewIdeal(wantsComplete, wantsHighWater)
    else IdealStep(IdealAfter(wantsComplete, wantsHighWater, steps[..|steps| - 1]), steps[|steps| - 1])
  }

  // ---- The connection is that machine ----

  function StateOf(i: Ideal): StateE
    requires i.Ok()
  {
    if !i.open then Disconnected
    else if !i.asked then Connected
    else if 0 < i.Pending() then Disconnecting
    else Disconnected
  }

  function MaskOf(i: Ideal): Events
    requires i.Ok()
  {
    if i.open then Events(true, true, 0 < i.Pending(), false, false, false)
    else Events(false, false, false, false, false, false)
  }

  predicate StreamsMatch(c: Conn, i: Ideal)
    requires i.Ok()
  {
    && c.wire == i.stream[..i.sent] && c.output == i.stream[i.sent..] && c.accepted == i.sends
    && c.taken == i.arrived[..i.taken] && c.input == i.arrived[i.taken..]
  }

  /** Every field of the connection, read off the machine. */
  predicate Matches(c: Conn, i: Ideal)
  {
    && i.Ok() && StreamsMatch(c, i)
    && c.state == StateOf(i) && c.chan.events == MaskOf(i)
    && c.chan.index == (if i.open then Added else if i.born then Deleted else New)
    && c.fins == i.Fins() && c.faulted == i.refused && c.notices == i.notices && c.calls == i.calls
    && c.wantsComplete == i.wantsComplete && c.wantsHighWater == i.wantsHighWater
  }

  lemma MatchesPhase(c: Conn, i: Ideal)
    requires Inv(c) && Matches(c, i)
    ensures i.open <==> IsOpen(c)
    ensures !i.born <==> IsFresh(c)
    ensures c.state == Connected <==> i.open && !i.asked
  {
  }

  lemma JoinMatches(i: Ideal, data: seq<Byte>, n: nat, complete: bool)
    requires i.Ok() && n <= |data| && (n == 0 || i.Pending() == 0)
    ensures var j := Join(i, data, n, complete);
            && j.stream[..j.sent] == i.stream[..i.sent] + data[..n]
            && j.stream[j.sent..] == i.stream[i.sent..] + data[n..]
  {
  }

  /** An accepted send, n bytes of it written at once. */
  lemma AcceptedMatches(c: Conn, i: Ideal, data: seq<Byte>, n: nat, complete: bool, d: Conn)
    requires Matches(c, i) && i.open && !i.asked && n <= |data| && (n == 0 || i.Pending() == 0)
    requires d == c.(wire := c.wire + data[..n], output := c.output + data[n..], accepted := c.accepted + [data],
                     notices := d.notices, chan := d.chan)
    requires d.chan.index == Added && d.chan.events == Events(true, true, d.output != [], false, false, false)
    requires d.notices == if c.wantsComplete && complete then c.notices + [WriteComplete]
                          else if c.wantsHighWater && |c.output| < 0x400_0000 <= |d.output|
                          then c.notices + [HighWater(|d.output|)]
                          else c.notices
    ensures Matches(d, Join(i, data, n, complete))
  {
    JoinMatches(i, data, n, complete);
  }

  lemma IdleSendMatches(c: Conn, i: Ideal, data: seq<Byte>, w: WriteResult)
    requires Inv(c) && Matches(c, i) && c.state == Connected && c.output == []
    ensures Matches(Send(c, data, w), IdealSend(i, data, w))
  {
    MatchesPhase(c, i);
    ConnectedIsOpen(c);
    IdleSend(c, data, w);
    if !Refuses(w) {
      SendFrame(c, data, w);
      SendNotices(c, data, w);
      var n := if w.Accepts? then Min(w.room, |data|) else 0;
      assert c.output + data[n..] == data[n..] && c.wire + data[..0] == c.wire;
      AcceptedMatches(c, i, data, n, w.Accepts? && |data| <= w.room, Send(c, data, w));
    }
  }

  lemma PendingSendMatches(c: Conn, i: Ideal, data: seq<Byte>, w: WriteResult)
    requires Inv(c) && Matches(c, i) && c.state == Connected && c.output != []
    ensures Matches(Send(c, data, w), IdealSend(i, data, w))
  {
    MatchesPhase(c, i);
    ConnectedIsOpen(c);
    PendingSend(c, data, w);
    SendFrame(c, data, w);
    SendNotices(c, data, w);
    assert c.wire + data[..0] == c.wire && data[0..] == data;
    AcceptedMatches(c, i, data, 0, false, Send(c, data, w));
  }

  lemma SendMatches(c: Conn, i: Ideal, data: seq<Byte>, w: WriteResult)
    requires Inv(c) && Matches(c, i)
    ensures Matches(Send(c, data, w), IdealSend(i, data, w))
  {
    MatchesPhase(c, i);
    if c.state == Connected {
      if c.output == [] {
        IdleSendMatches(c, i, data, w);
      } else {
        PendingSendMatches(c, i, data, w);
      }
    }
  }

  lemma ShutdownMatches(c: Conn, i: Ideal)
    requires Inv(c) && Matches(c, i)
    ensures Matches(Shutdown(c), IdealApply(i, UserShutdown))
  {
    MatchesPhase(c, i);
    ShutdownMeans(c);
  }

  lemma RetrieveMatches(c: Conn, i: Ideal, len: nat)
    requires Inv(c) && Matches(c, i)
    ensures Matches(UserApply(c, UserRetrieve(len)), IdealApply(i, UserRetrieve(len)))
  {
    var d, j := UserApply(c, UserRetrieve(len)), IdealApply(i, UserRetrieve(len));
    RetrieveMeans(c, len);
    assert c.taken + c.input == i.arrived;
    assert d.taken + d.input == j.arrived && |d.taken| == j.taken;
    assert d.taken == j.arrived[..j.taken] && d.input == j.arrived[j.taken..];
  }

  lemma {:induction false} UserMatches(c: Conn, i: Ideal, ops: seq<UserOp>)
    requires Inv(c) && Matches(c, i)
    ensures Matches(UserRun(c, ops), IdealUser(i, ops))
  {
    if ops != [] {
      var d, j := UserRun(c, ops[..|ops| - 1]), IdealUser(i, ops[..|ops| - 1]);
      UserRunKeeps(c, ops[..|ops| - 1]);
      UserMatches(c, i, ops[..|ops| - 1]);
      match ops[|ops| - 1]
      case UserSend(data, w) => SendMatches(d, j, data, w);
      case UserShutdown => ShutdownMatches(d, j);
      case UserRetrieve(len) => RetrieveMatches(d, j, len);
    }
  }

  lemma DownMatches(c: Conn, i: Ideal, ops: seq<UserOp>)
    requires Inv(c) && Matches(c, i) && IsOpen(c)
    ensures Matches(UserRun(Called(c.(state := Disconnected, chan := c.chan.DisableAll()), Down), ops),
                    IdealUser(i.(open := false, calls := i.calls + [Down]), ops))
  {
    DownKeeps(c);
    UserMatches(Called(c.(state := Disconnected, chan := c.chan.DisableAll()), Down),
                i.(open := false, calls := i.calls + [Down]), ops);
  }

  lemma CloseMatches(c: Conn, i: Ideal, ops: seq<UserOp>)
    requires Inv(c) && Matches(c, i) && IsOpen(c)
    ensures Matches(HandleClose(c, ops), IdealClose(i, ops))
  {
    DownMatches(c, i, ops);
  }

  lemma ReadMatches(c: Conn, i: Ideal, env: Env)
    requires Inv(c) && Matches(c, i) && IsOpen(c)
    ensures Matches(HandleRead(c, env), IdealRead(i, env))
  {
    if env.read.Data? {
      if env.read.bytes == [] {
        CloseMatches(c, i, env.onConnection);
      } else {
        var j := Arrived(i, env.read.bytes);
        ReceivedKeeps(c, env.read.bytes);
        assert j.arrived[..j.taken] == i.arrived[..i.taken];
        assert j.arrived[j.taken..] == i.arrived[i.taken..] + env.read.bytes;
        UserMatches(Received(c, env.read.bytes), j, env.onMessage);
      }
    }
  }

  lemma PartMatches(c: Conn, i: Ideal, w: WriteResult)
    requires Inv(c) && Matches(c, i) && IsOpen(c) && w.Accepts? && 0 < w.room < |c.output|
    ensures Matches(HandleWrite(c, w), IdealWrite(i, w))
  {
    MatchesPhase(c, i);
    WriteMeans(c, w);
    MoveMatches(i, w.room);
  }

  lemma LastMatches(c: Conn, i: Ideal, w: WriteResult)
    requires Inv(c) && Matches(c, i) && IsOpen(c) && c.output != [] && w.Accepts? && |c.output| <= w.room
    ensures Matches(HandleWrite(c, w), IdealWrite(i, w))
  {
    MatchesPhase(c, i);
    WriteMeans(c, w);
    WriteNotices(c, w);
    MoveMatches(i, i.Pending());
    assert StreamsMatch(HandleWrite(c, w), IdealWrite(i, w));
  }

  lemma WriteMatches(c: Conn, i: Ideal, w: WriteResult)
    requires Inv(c) && Matches(c, i)
    ensures Matches(HandleWrite(c, w), IdealWrite(i, w))
  {
    MatchesPhase(c, i);
    WriteDoesIff(c, w);
    if IsOpen(c) && c.output != [] && w.Accepts? && 0 < w.room {
      if w.room < |c.output| {
        PartMatches(c, i, w);
      } else {
        LastMatches(c, i, w);
      }
    }
  }

  lemma MoveMatches(i: Ideal, n: nat)
    requires i.Ok() && n <= i.Pending()
    ensures i.stream[..i.sent + n] == i.stream[..i.sent] + i.stream[i.sent..][..n]
    ensures i.stream[i.sent + n..] == i.stream[i.sent..][n..]
  {
  }

  lemma EventMatches(c: Conn, i: Ideal, revents: Events, env: Env)
    requires Inv(c) && Matches(c, i) && CanStep(c, Event(revents, env))
    ensures Matches(HandleEvent(c, revents, env), IdealEvent(i, revents, env))
  {
    HandleEventStages(c, revents, env);
    CloseReadKeeps(c, revents, env);
    var d := ReadStage(CloseStage(c, revents, env), revents, env);
    if revents.hup && !revents.pollin {
      CloseKeeps(c, env.onConnection);
      CloseMatches(c, i, env.onConnection);
      WriteDoesIff(d, env.write);
    } else {
      if revents.pollin || revents.pri {
        ReadMatches(c, i, env);
      }
      WriteMatches(d, if revents.pollin || revents.pri then IdealRead(i, env) else i, env.write);
    }
  }

  lemma EstablishMatches(c: Conn, i: Ideal, ops: seq<UserOp>)
    requires Inv(c) && Matches(c, i) && IsFresh(c)
    ensures Matches(ConnectEstablished(c, ops), IdealStep(i, Establish(ops)))
  {
    var d := Called(c.(state := Connected, chan := c.chan.EnableReading()), Up);
    PhaseMeansOrder(c.calls);
    assert d.calls == [Up];
    UpKeeps(c);
    UserMatches(d, i.(born := true, open := true, calls := [Up]), ops);
  }

  lemma StepMatches(c: Conn, i: Ideal, step: ConnStep)
    requires Inv(c) && Matches(c, i) && CanStep(c, step)
    ensures Matches(Take(c, step), IdealStep(i, step))
  {
    MatchesPhase(c, i);
    match step
    case Establish(ops) => EstablishMatches(c, i, ops);
    case Event(revents, env) => EventMatches(c, i, revents, env);
    case User(ops) => UserMatches(c, i, ops);
    case Destroy(ops) =>
      if c.state == Connected {
        DownMatches(c, i, ops);
      }
  }

  /** After every run, every field of the connection is what the machine makes of the
      run's steps: nothing but what the socket, epoll and the user did decides it. */
  lemma {:induction false} RunMatches(states: seq<Conn>, steps: seq<ConnStep>, n: nat)
    requires IsRun(states, steps) && n < |states|
    ensures Matches(states[n], IdealAfter(states[0].wantsComplete, states[0].wantsHighWater, steps[..n]))
  {
    if n > 0 {
      RunMatches(states, steps, n - 1);
      RunKeeps(states, steps, n - 1, n - 1);
      assert states[n - 1 + 1] == Take(states[n - 1], steps[n - 1]);
      assert steps[..n][..n - 1] == steps[..n - 1];
      var i := IdealAfter(states[0].wantsComplete, states[0].wantsHighWater, steps[..n - 1]);
      StepMatches(states[n - 1], i, steps[n - 1]);
    }
  }
}
