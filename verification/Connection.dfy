/** One TCP connection as a state machine on values (src/TcpConnection.cc).

    The handlers are functions from a connection to a connection; what the socket
    answers and what the user's callbacks do are arguments. `taken`, `wire`, `accepted`,
    `faulted`, `fins`, `notices` and `calls` record what has passed between the
    connection and the outside. Class TcpConnection follows these functions method by method.
 */
module Connections {
  import opened Buffers
  import opened Epoll

  /** Of the four states of the program, Connecting is never entered. */
  datatype StateE = Disconnected | Connecting | Connected | Disconnecting

  /** A functor queued on the loop for the user. */
  datatype Notice = WriteComplete | HighWater(pending: nat)

  /** A callback made directly: connection up or down, message, and the close
      callback that asks the server to remove the connection. */
  datatype UserCall = Up | Message(bytes: seq<Byte>) | Down | CloseRequest

  const HIGH_WATER_MARK: nat := 64 * 1024 * 1024

  datatype Conn = Conn(
    state: StateE,
    chan: ChannelState,
    input: seq<Byte>,
    output: seq<Byte>,
    wantsComplete: bool,
    wantsHighWater: bool,
    taken: seq<Byte>,
    wire: seq<Byte>,
    accepted: seq<seq<Byte>>,
    faulted: bool,
    fins: nat,
    notices: seq<Notice>,
    calls: seq<UserCall>)
  {
    predicate IsWriting() { chan.IsWriting() }

    /** The channel is in the kernel's interest list (Epoll.Agreement). */
    predicate Registered() { chan.index == Added }
  }

  function NewConn(fd: int, wantsComplete: bool, wantsHighWater: bool): Conn {
    Conn(Disconnected, NewChannelState(fd), [], [], wantsComplete, wantsHighWater, [], [], [], false, 0, [], [])
  }

  // ---- Sending ----

  /** The outcome of the direct write that sendInLoop tries first. */
  datatype Attempt = Attempt(nwrote: nat, fault: bool, complete: bool)

  function TryWrite(c: Conn, data: seq<Byte>, w: WriteResult): (a: Attempt)
    ensures a.nwrote <= |data|
  {
    if !c.IsWriting() && c.output == [] then
      match w
      case Accepts(room) => Attempt(Min(room, |data|), false, |data| <= room)
      case WriteFails(e) => Attempt(0, e == EPIPE || e == ECONNRESET, false)
    else Attempt(0, false, false)
  }

  function Notify(c: Conn, notice: Notice): Conn { c.(notices := c.notices + [notice]) }

  /** Queues what the direct write left over, with the high-water check before it. */
  function Buffered(c: Conn, rest: seq<Byte>): Conn
  {
    if rest == [] then c else
      var pending := |c.output| + |rest|;
      var c1 := if HIGH_WATER_MARK <= pending && |c.output| < HIGH_WATER_MARK && c.wantsHighWater
                then Notify(c, HighWater(pending)) else c;
      c1.(output := c1.output + rest, chan := if c1.IsWriting() then c1.chan else c1.chan.EnableWriting())
  }

  /** The connection after the direct write, accepted or not. */
  function Written(c: Conn, data: seq<Byte>, a: Attempt): Conn
    requires a.nwrote <= |data|
  {
    var c1 := c.(wire := c.wire + data[..a.nwrote]);
    if a.complete && c.wantsComplete then Notify(c1, WriteComplete) else c1
  }

  function SendInLoop(c: Conn, data: seq<Byte>, w: WriteResult): Conn
  {
    if c.state == Disconnecting then c else
      var a := TryWrite(c, data, w);
      var c1 := Written(c, data, a);
      if a.fault then c1.(faulted := true)
      else Buffered(c1.(accepted := c1.accepted + [data]), data[a.nwrote..])
  }

  function Send(c: Conn, data: seq<Byte>, w: WriteResult): Conn
  {
    if c.state == Connected then SendInLoop(c, data, w) else c
  }

  // ---- Closing ----

  function ShutdownInLoop(c: Conn): Conn
  {
    if !c.IsWriting() then c.(fins := c.fins + 1, state := Disconnected) else c
  }

  function Shutdown(c: Conn): Conn
  {
    if c.state == Connected then ShutdownInLoop(c.(state := Disconnecting)) else c
  }

  // ---- What a user's callback may do on the loop thread ----

  datatype UserOp = UserSend(data: seq<Byte>, w: WriteResult) | UserShutdown | UserRetrieve(len: nat)

  /** The user has taken the first n bytes out of the input buffer. */
  function Retrieved(c: Conn, n: nat): Conn
    requires n <= |c.input|
  {
    c.(input := c.input[n..], taken := c.taken + c.input[..n])
  }

  function UserApply(c: Conn, op: UserOp): Conn
  {
    match op
    case UserSend(data, w) => Send(c, data, w)
    case UserShutdown => Shutdown(c)
    case UserRetrieve(len) => Retrieved(c, Min(len, |c.input|))
  }

  function UserRun(c: Conn, ops: seq<UserOp>): Conn
  {
    if ops == [] then c else UserApply(UserRun(c, ops[..|ops| - 1]), ops[|ops| - 1])
  }

  function Called(c: Conn, call: UserCall): Conn { c.(calls := c.calls + [call]) }

  // ---- Handlers ----

  /** What the outside does during one dispatch. */
  datatype Env = Env(read: ReadResult, write: WriteResult, onMessage: seq<UserOp>, onConnection: seq<UserOp>)

  function HandleClose(c: Conn, ops: seq<UserOp>): Conn
  {
    var c1 := c.(state := Disconnected, chan := c.chan.DisableAll());
    Called(UserRun(Called(c1, Down), ops), CloseRequest)
  }

  /** The bytes are in the input buffer when the message callback is made. */
  function Received(c: Conn, bytes: seq<Byte>): Conn
  {
    Called(c.(input := c.input + bytes), Message(bytes))
  }

  function HandleRead(c: Conn, env: Env): Conn
  {
    match env.read
    case ReadFails(_) => c
    case Data(bytes) =>
      if bytes == [] then HandleClose(c, env.onConnection)
      else UserRun(Received(c, bytes), env.onMessage)
  }

  function Drained(c: Conn): Conn
  {
    var c1 := c.(chan := c.chan.DisableWriting());
    var c2 := if c1.wantsComplete then Notify(c1, WriteComplete) else c1;
    if c2.state == Disconnecting then ShutdownInLoop(c2) else c2
  }

  function HandleWrite(c: Conn, w: WriteResult): Conn
  {
    if c.IsWriting() && w.Accepts? && 0 < Min(w.room, |c.output|) then
      var n := Min(w.room, |c.output|);
      var c1 := c.(wire := c.wire + c.output[..n], output := c.output[n..]);
      if c1.output == [] then Drained(c1) else c1
    else c
  }

  function OnCallback(c: Conn, callback: Callback, env: Env): Conn
  {
    match callback
    case CloseCallback => HandleClose(c, env.onConnection)
    case ReadCallback => HandleRead(c, env)
    case WriteCallback => HandleWrite(c, env.write)
    case ErrorCallback => c
  }

  function OnCallbacks(c: Conn, callbacks: seq<Callback>, env: Env): Conn
  {
    if callbacks == [] then c
    else OnCallback(OnCallbacks(c, callbacks[..|callbacks| - 1], env), callbacks[|callbacks| - 1], env)
  }

  /** One dispatch of the channel: the callbacks that the reported events select, in order. */
  function HandleEvent(c: Conn, revents: Events, env: Env): Conn
  {
    OnCallbacks(c, Dispatch(revents), env)
  }

  /** The guard under which a dispatch closes at most once: a hang-up without
      readable data does not come with priority data that a read then answers. */
  predicate Benign(revents: Events, read: ReadResult)
  {
    !(revents.hup && !revents.pollin && revents.pri && read.Data?)
  }

  function ConnectEstablished(c: Conn, ops: seq<UserOp>): Conn
  {
    UserRun(Called(c.(state := Connected, chan := c.chan.EnableReading()), Up), ops)
  }

  function ConnectDestroyed(c: Conn, ops: seq<UserOp>): Conn
  {
    if c.state == Connected then
      UserRun(Called(c.(state := Disconnected, chan := c.chan.DisableAll()), Down), ops)
    else c
  }

  lemma OnCallbacksWhen(c: Conn, prefix: seq<Callback>, b: bool, callback: Callback, env: Env)
    ensures OnCallbacks(c, prefix + When(b, callback), env) ==
            if b then OnCallback(OnCallbacks(c, prefix, env), callback, env) else OnCallbacks(c, prefix, env)
  {
    if b {
      assert (prefix + [callback])[..|prefix|] == prefix;
    } else {
      assert prefix + [] == prefix;
    }
  }

  lemma OnCallbacksStep(c: Conn, callbacks: seq<Callback>, i: nat, env: Env)
    requires i < |callbacks|
    ensures OnCallbacks(c, callbacks[..i + 1], env)
         == OnCallback(OnCallbacks(c, callbacks[..i], env), callbacks[i], env)
  {
    assert callbacks[..i + 1][..i] == callbacks[..i];
  }

  function CloseStage(c: Conn, revents: Events, env: Env): Conn
  {
    if revents.hup && !revents.pollin then HandleClose(c, env.onConnection) else c
  }

  function ReadStage(c: Conn, revents: Events, env: Env): Conn
  {
    if revents.pollin || revents.pri || revents.rdhup then HandleRead(c, env) else c
  }

  function WriteStage(c: Conn, revents: Events, env: Env): Conn
  {
    if revents.pollout then HandleWrite(c, env.write) else c
  }

  /** The dispatch spelled out: close, then read, then write, each on what the one before left. */
  lemma HandleEventStages(c: Conn, revents: Events, env: Env)
    ensures HandleEvent(c, revents, env)
         == WriteStage(ReadStage(CloseStage(c, revents, env), revents, env), revents, env)
  {
    var close := When(revents.hup && !revents.pollin, CloseCallback);
    var read := When(revents.pollin || revents.pri || revents.rdhup, ReadCallback);
    var write := When(revents.pollout, WriteCallback);
    var c1 := CloseStage(c, revents, env);
    var c2 := ReadStage(c1, revents, env);
    OnCallbacksWhen(c, [], revents.hup && !revents.pollin, CloseCallback, env);
    assert [] + close == close;
    assert OnCallbacks(c, close, env) == c1;
    OnCallbacksWhen(c, close, revents.pollin || revents.pri || revents.rdhup, ReadCallback, env);
    assert OnCallbacks(c, close + read, env) == c2;
    OnCallbacksWhen(c, close + read, revents.pollout, WriteCallback, env);
    assert OnCallbacks(c, close + read + write, env) == WriteStage(c2, revents, env);
    OnCallbacksWhen(c, close + read + write, true, ErrorCallback, env);
    assert Dispatch(revents) == close + read + write + When(true, ErrorCallback);
  }
}
