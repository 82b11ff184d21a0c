/** The notices that a connection queues for its user, over whole runs: the trace of a
    run lists every connection it passes through, inside handlers and callbacks too.
 */
module NoticeProperties {
  import opened Buffers
  import opened Epoll
  import opened Connections
  import opened ConnectionProperties

  // ---- Single operations ----

  /** A handleWrite queues a write-complete exactly when it writes the last pending
      byte, and then every accepted byte is on the wire. */
  lemma WriteNotices(c: Conn, w: WriteResult)
    requires Inv(c)
    ensures var d := HandleWrite(c, w);
            var complete := c.wantsComplete && c.output != [] && d.output == [];
            && d.notices == (if complete then c.notices + [WriteComplete] else c.notices)
            && (complete ==> d.wire == Flatten(d.accepted))
  {
    WriteKeeps(c, w);
    if Progresses(c, w) {
      WriteDrains(c, w);
    }
    var d := HandleWrite(c, w);
    assert d.output == [] ==> d.wire + d.output == d.wire;
  }

  /** An operation that neither sends nor writes: a change of state or mask, a callback, a retrieval. */
  predicate Silent(c: Conn, d: Conn)
  {
    d.output == c.output && d.notices == c.notices && d.wire == c.wire && d.accepted == c.accepted
  }

  ghost predicate SingleOperation(c: Conn, d: Conn)
  {
    || (exists data, w :: d == Send(c, data, w))
    || (exists w :: d == HandleWrite(c, w))
    || Silent(c, d)
  }

  /** What one operation may queue: nothing; a write-complete, with every accepted byte
      on the wire; or a high-water notice, with the pending count it carries, which just
      crossed the mark. */
  predicate Notifies(c: Conn, d: Conn)
  {
    || d.notices == c.notices
    || (d.notices == c.notices + [WriteComplete] && d.output == [] && d.wire == Flatten(d.accepted))
    || (d.notices == c.notices + [HighWater(|d.output|)] && |c.output| < HIGH_WATER_MARK <= |d.output|)
  }

  lemma SendNotifies(c: Conn, data: seq<Byte>, w: WriteResult)
    requires Inv(c)
    ensures Notifies(c, Send(c, data, w))
  {
    SendKeeps(c, data, w);
    if c.state == Connected {
      SendNotices(c, data, w);
      assert Send(c, data, w).wire + [] == Send(c, data, w).wire;
    }
  }

  lemma OperationNotifies(c: Conn, d: Conn)
    requires Inv(c) && SingleOperation(c, d)
    ensures Notifies(c, d)
  {
    if data, w :| d == Send(c, data, w) {
      SendNotifies(c, data, w);
    } else if w :| d == HandleWrite(c, w) {
      WriteNotices(c, w);
      WriteKeeps(c, w);
    }
  }

  // ---- Traces ----

  /** The connections after each operation of some user code. */
  function UserTrace(c: Conn, ops: seq<UserOp>): seq<Conn>
  {
    if ops == [] then [] else UserTrace(c, ops[..|ops| - 1]) + [UserRun(c, ops)]
  }

  /** A callback is made on d, and user code runs in it. */
  function CallTrace(d: Conn, ops: seq<UserOp>): seq<Conn> { [d] + UserTrace(d, ops) }

  function CloseTrace(c: Conn, ops: seq<UserOp>): seq<Conn>
  {
    CallTrace(Called(c.(state := Disconnected, chan := c.chan.DisableAll()), Down), ops) + [HandleClose(c, ops)]
  }

  function ReadTrace(c: Conn, env: Env): seq<Conn>
  {
    match env.read
    case ReadFails(_) => []
    case Data(bytes) =>
      if bytes == [] then CloseTrace(c, env.onConnection) else CallTrace(Received(c, bytes), env.onMessage)
  }

  function EventTrace(c: Conn, revents: Events, env: Env): seq<Conn>
  {
    var c1 := CloseStage(c, revents, env);
    var c2 := ReadStage(c1, revents, env);
    (if revents.hup && !revents.pollin then CloseTrace(c, env.onConnection) else [])
    + (if revents.pollin || revents.pri || revents.rdhup then ReadTrace(c1, env) else [])
    + (if revents.pollout then [HandleWrite(c2, env.write)] else [])
  }

  /** Every connection that a step passes through, from just after its start to its end. */
  function StepTrace(c: Conn, step: ConnStep): seq<Conn>
  {
    match step
    case Establish(ops) => CallTrace(Called(c.(state := Connected, chan := c.chan.EnableReading()), Up), ops)
    case Event(revents, env) => EventTrace(c, revents, env)
    case User(ops) => UserTrace(c, ops)
    case Destroy(ops) =>
      if c.state == Connected
      then CallTrace(Called(c.(state := Disconnected, chan := c.chan.DisableAll()), Down), ops) else []
  }

  /** Every connection that a run passes through in its first n steps, after its first state. */
  function RunTrace(states: seq<Conn>, steps: seq<ConnStep>, n: nat): seq<Conn>
    requires |states| == |steps| + 1 && n < |states|
  {
    if n == 0 then [] else RunTrace(states, steps, n - 1) + StepTrace(states[n - 1], steps[n - 1])
  }

  function Last(c: Conn, trace: seq<Conn>): Conn { if trace == [] then c else trace[|trace| - 1] }

  /** The connection just before point k of a trace that starts after c. */
  function Before(c: Conn, trace: seq<Conn>, k: nat): Conn
    requires k < |trace|
  {
    if k == 0 then c else trace[k - 1]
  }

  ghost predicate PointOk(c: Conn, trace: seq<Conn>, k: nat)
    requires k < |trace|
  {
    Inv(trace[k]) && SingleOperation(Before(c, trace, k), trace[k])
  }

  /** From c on, the trace goes one operation at a time and keeps the invariant. */
  ghost predicate IsTrace(c: Conn, trace: seq<Conn>)
  {
    forall k: nat | k < |trace| :: PointOk(c, trace, k)
  }

  lemma TraceOne(c: Conn, d: Conn)
    requires Inv(d) && SingleOperation(c, d)
    ensures IsTrace(c, [d])
  {
  }

  lemma TraceConcat(c: Conn, first: seq<Conn>, second: seq<Conn>)
    requires IsTrace(c, first) && IsTrace(Last(c, first), second)
    ensures IsTrace(c, first + second) && Last(c, first + second) == Last(Last(c, first), second)
  {
    var trace := first + second;
    forall k: nat | k < |trace|
      ensures PointOk(c, trace, k)
    {
      if k < |first| {
        assert PointOk(c, first, k) && Before(c, trace, k) == Before(c, first, k);
      } else {
        var j := k - |first|;
        assert PointOk(Last(c, first), second, j) && Before(c, trace, k) == Before(Last(c, first), second, j);
      }
    }
  }

  lemma UserApplyIsSingle(c: Conn, op: UserOp)
    ensures SingleOperation(c, UserApply(c, op))
  {
    match op
    case UserSend(data, w) =>
    case UserShutdown => assert Silent(c, Shutdown(c));
    case UserRetrieve(len) => assert Silent(c, UserApply(c, op));
  }

  lemma {:induction false} UserIsTrace(c: Conn, ops: seq<UserOp>)
    requires Inv(c)
    ensures IsTrace(c, UserTrace(c, ops)) && Last(c, UserTrace(c, ops)) == UserRun(c, ops)
  {
    if ops != [] {
      var d := UserRun(c, ops[..|ops| - 1]);
      UserIsTrace(c, ops[..|ops| - 1]);
      UserRunKeeps(c, ops);
      UserApplyIsSingle(d, ops[|ops| - 1]);
      TraceOne(d, UserRun(c, ops));
      TraceConcat(c, UserTrace(c, ops[..|ops| - 1]), [UserRun(c, ops)]);
    }
  }

  lemma CallIsTrace(c: Conn, d: Conn, ops: seq<UserOp>)
    requires Inv(d) && Silent(c, d)
    ensures IsTrace(c, CallTrace(d, ops)) && Last(c, CallTrace(d, ops)) == UserRun(d, ops)
  {
    TraceOne(c, d);
    UserIsTrace(d, ops);
    TraceConcat(c, [d], UserTrace(d, ops));
  }

  lemma CloseIsTrace(c: Conn, ops: seq<UserOp>)
    requires Inv(c) && IsOpen(c)
    ensures IsTrace(c, CloseTrace(c, ops)) && Last(c, CloseTrace(c, ops)) == HandleClose(c, ops)
  {
    var d := Called(c.(state := Disconnected, chan := c.chan.DisableAll()), Down);
    var e := UserRun(d, ops);
    DownKeeps(c);
    CallIsTrace(c, d, ops);
    CloseKeeps(c, ops);
    assert Silent(e, Called(e, CloseRequest));
    TraceOne(e, HandleClose(c, ops));
    TraceConcat(c, CallTrace(d, ops), [HandleClose(c, ops)]);
  }

  lemma ReadIsTrace(c: Conn, env: Env)
    requires Inv(c) && IsOpen(c)
    ensures IsTrace(c, ReadTrace(c, env)) && Last(c, ReadTrace(c, env)) == HandleRead(c, env)
  {
    if env.read.Data? {
      if env.read.bytes == [] {
        CloseIsTrace(c, env.onConnection);
      } else {
        ReceivedKeeps(c, env.read.bytes);
        CallIsTrace(c, Received(c, env.read.bytes), env.onMessage);
      }
    }
  }

  lemma CloseReadIsTrace(c: Conn, revents: Events, env: Env)
    requires Inv(c) && IsOpen(c) && Benign(revents, env.read) && !revents.rdhup && !revents.pollout
    ensures IsTrace(c, EventTrace(c, revents, env))
    ensures Last(c, EventTrace(c, revents, env)) == ReadStage(CloseStage(c, revents, env), revents, env)
  {
    var trace := EventTrace(c, revents, env);
    if revents.hup && !revents.pollin {
      CloseIsTrace(c, env.onConnection);
      assert trace == CloseTrace(c, env.onConnection);
    } else if revents.pollin || revents.pri {
      ReadIsTrace(c, env);
      assert trace == ReadTrace(c, env);
    }
  }

  /** A dispatch is its close and read, then its write. */
  lemma EventTraceSplits(c: Conn, revents: Events, env: Env)
    ensures var d := ReadStage(CloseStage(c, revents, env), revents, env);
            EventTrace(c, revents, env)
            == EventTrace(c, revents.(pollout := false), env)
               + (if revents.pollout then [HandleWrite(d, env.write)] else [])
  {
  }

  lemma WriteIsTrace(d: Conn, revents: Events, env: Env)
    requires Inv(d)
    ensures var trace := if revents.pollout then [HandleWrite(d, env.write)] else [];
            IsTrace(d, trace) && Last(d, trace) == WriteStage(d, revents, env)
  {
    WriteKeeps(d, env.write);
    TraceOne(d, HandleWrite(d, env.write));
  }

  lemma EventIsTrace(c: Conn, revents: Events, env: Env)
    requires Inv(c) && c.Registered() && revents.Within(c.chan.events) && Benign(revents, env.read)
    ensures IsTrace(c, EventTrace(c, revents, env))
    ensures Last(c, EventTrace(c, revents, env)) == HandleEvent(c, revents, env)
  {
    HandleEventStages(c, revents, env);
    CloseReadKeeps(c, revents, env);
    var d := ReadStage(CloseStage(c, revents, env), revents, env);
    CloseReadIsTrace(c, revents.(pollout := false), env);
    WriteIsTrace(d, revents, env);
    EventTraceSplits(c, revents, env);
    TraceConcat(c, EventTrace(c, revents.(pollout := false), env),
                if revents.pollout then [HandleWrite(d, env.write)] else []);
  }

  lemma StepIsTrace(c: Conn, step: ConnStep)
    requires Inv(c) && CanStep(c, step)
    ensures IsTrace(c, StepTrace(c, step)) && Last(c, StepTrace(c, step)) == Take(c, step)
  {
    match step
    case Establish(ops) =>
      UpKeeps(c);
      CallIsTrace(c, Called(c.(state := Connected, chan := c.chan.EnableReading()), Up), ops);
    case Event(revents, env) => EventIsTrace(c, revents, env);
    case User(ops) => UserIsTrace(c, ops);
    case Destroy(ops) =>
      if c.state == Connected {
        ConnectedIsOpen(c);
        DownKeeps(c);
        CallIsTrace(c, Called(c.(state := Disconnected, chan := c.chan.DisableAll()), Down), ops);
      }
  }

  /** The trace of a run goes from its first state to its n-th one operation at a time,
      and the invariant holds at every point of it. */
  lemma {:induction false} RunIsTrace(states: seq<Conn>, steps: seq<ConnStep>, n: nat)
    requires IsRun(states, steps) && n < |states|
    ensures IsTrace(states[0], RunTrace(states, steps, n)) && Last(states[0], RunTrace(states, steps, n)) == states[n]
  {
    if n > 0 {
      RunIsTrace(states, steps, n - 1);
      RunKeeps(states, steps, n - 1, n - 1);
      StepIsTrace(states[n - 1], steps[n - 1]);
      assert states[n - 1 + 1] == Take(states[n - 1], steps[n - 1]);
      TraceConcat(states[0], RunTrace(states, steps, n - 1), StepTrace(states[n - 1], steps[n - 1]));
    }
  }

  // ---- Notices over a run ----

  predicate NotifiesAt(c: Conn, trace: seq<Conn>, k: nat)
    requires k < |trace|
  {
    Notifies(Before(c, trace, k), trace[k])
  }

  /** At each point of the trace of a run at most one notice is queued, and a true one. */
  lemma TraceNotifies(states: seq<Conn>, steps: seq<ConnStep>, n: nat, k: nat)
    requires IsRun(states, steps) && n < |states| && k < |RunTrace(states, steps, n)|
    ensures NotifiesAt(states[0], RunTrace(states, steps, n), k)
  {
    RunIsTrace(states, steps, n);
    var c, trace := states[0], RunTrace(states, steps, n);
    assert PointOk(c, trace, k);
    if k == 0 {
      RunKeeps(states, steps, 0, 0);
    } else {
      assert PointOk(c, trace, k - 1);
    }
    OperationNotifies(Before(c, trace, k), trace[k]);
  }

  /** The m-th notice was queued at point k of the trace, and has stayed. */
  predicate QueuedAt(c: Conn, trace: seq<Conn>, k: nat, m: nat)
    requires k < |trace|
  {
    && |Before(c, trace, k).notices| == m && |trace[k].notices| == m + 1
    && trace[k].notices <= Last(c, trace).notices
  }

  lemma NotifiesGrows(c: Conn, d: Conn)
    requires Notifies(c, d)
    ensures c.notices <= d.notices && |d.notices| <= |c.notices| + 1
  {
  }

  lemma {:induction false} NoticeMoment(c: Conn, trace: seq<Conn>, m: nat)
    requires c.notices == [] && m < |Last(c, trace).notices|
    requires forall k: nat | k < |trace| :: NotifiesAt(c, trace, k)
    ensures exists k: nat :: k < |trace| && QueuedAt(c, trace, k, m)
    decreases |trace|
  {
    var n := |trace| - 1;
    var shorter := trace[..n];
    assert NotifiesAt(c, trace, n);
    NotifiesGrows(Before(c, trace, n), trace[n]);
    assert Last(c, shorter) == Before(c, trace, n);
    if m < |Last(c, shorter).notices| {
      forall k: nat | k < |shorter|
        ensures NotifiesAt(c, shorter, k)
      {
        assert NotifiesAt(c, trace, k);
      }
      NoticeMoment(c, shorter, m);
      var k: nat :| k < |shorter| && QueuedAt(c, shorter, k, m);
      assert QueuedAt(c, trace, k, m);
    } else {
      assert QueuedAt(c, trace, n, m);
    }
  }

  /** What a notice says was so just after the operation that queued it. */
  predicate WasTrue(notice: Notice, before: Conn, after: Conn)
  {
    match notice
    case WriteComplete => after.output == [] && after.wire == Flatten(after.accepted)
    case HighWater(pending) => |before.output| < HIGH_WATER_MARK <= pending == |after.output|
  }

  lemma QueuedIsTrue(c: Conn, d: Conn)
    requires Notifies(c, d) && |d.notices| == |c.notices| + 1
    ensures WasTrue(d.notices[|c.notices|], c, d)
  {
  }

  /** Every notice of every run was queued by one operation of its trace: a write-complete
      with every accepted byte on the wire, a high-water notice with the exact pending
      count, which that operation took across the mark. */
  lemma EveryNoticeWasTrue(states: seq<Conn>, steps: seq<ConnStep>, n: nat, m: nat)
    requires IsRun(states, steps) && n < |states| && m < |states[n].notices|
    ensures var c, trace := states[0], RunTrace(states, steps, n);
            exists k: nat :: k < |trace| && QueuedAt(c, trace, k, m)
                             && WasTrue(states[n].notices[m], Before(c, trace, k), trace[k])
  {
    var c, trace := states[0], RunTrace(states, steps, n);
    RunIsTrace(states, steps, n);
    forall k: nat | k < |trace|
      ensures NotifiesAt(c, trace, k)
    {
      TraceNotifies(states, steps, n, k);
    }
    NoticeMoment(c, trace, m);
    var k: nat :| k < |trace| && QueuedAt(c, trace, k, m);
    assert NotifiesAt(c, trace, k);
    QueuedIsTrue(Before(c, trace, k), trace[k]);
    assert states[n].notices[m] == trace[k].notices[m];
  }

  predicate QueuesHighWater(c: Conn, d: Conn)
  {
    |c.notices| < |d.notices| && d.notices[|d.notices| - 1].HighWater?
  }

  lemma HighWaterCrosses(c: Conn, d: Conn)
    requires Notifies(c, d) && QueuesHighWater(c, d)
    ensures |c.output| < HIGH_WATER_MARK <= |d.output| && d.notices == c.notices + [HighWater(|d.output|)]
  {
  }

  /** Between two high-water notices of a run the pending count was below the mark. */
  lemma HighWaterAlternates(states: seq<Conn>, steps: seq<ConnStep>, n: nat, i: nat, j: nat)
    requires IsRun(states, steps) && n < |states| && i < j < |RunTrace(states, steps, n)|
    requires var c, trace := states[0], RunTrace(states, steps, n);
             QueuesHighWater(Before(c, trace, i), trace[i]) && QueuesHighWater(Before(c, trace, j), trace[j])
    ensures var trace := RunTrace(states, steps, n);
            && HIGH_WATER_MARK <= |trace[i].output| && HIGH_WATER_MARK <= |trace[j].output|
            && (exists k :: i < k < j && |trace[k].output| < HIGH_WATER_MARK)
  {
    var c, trace := states[0], RunTrace(states, steps, n);
    TraceNotifies(states, steps, n, i);
    TraceNotifies(states, steps, n, j);
    HighWaterCrosses(Before(c, trace, i), trace[i]);
    HighWaterCrosses(Before(c, trace, j), trace[j]);
    assert i < j - 1 < j && |trace[j - 1].output| < HIGH_WATER_MARK;
  }
}
