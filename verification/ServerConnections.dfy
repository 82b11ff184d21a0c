/** Each connection of the server is a connection on its own: what the interleaved loops
    do to it is a run of the connection state machine, so everything proved over those
    runs holds of it; among it, what the example server sends.
 */
module ServerConnectionProperties {
  import opened Buffers
  import opened Epoll
  import opened Connections
  import opened ConnectionProperties
  import opened EchoProperties
  import opened Ideals
  import opened ThreadPools
  import opened Servers
  import opened ServerProperties

  /** The step of one connection within a step of the server. */
  function ConnStepOf(s: Server, step: ServerStep, id: nat): ConnStep
    requires Safe(s, step)
  {
    match step
    case DispatchNext(loop, env) =>
      if s.active[loop][0].id == id then Event(s.active[loop][0].revents, env) else User([])
    case RunNext(loop, ops) =>
      if s.queues[loop][0] == Established(id) then Establish(ops)
      else if s.queues[loop][0] == Destroyed(id) then Destroy(ops)
      else User([])
    case UserCode(other, ops) => if other == id then User(ops) else User([])
    case _ => User([])
  }

  lemma ConnStepIsConnAfter(s: Server, step: ServerStep, id: nat)
    requires Safe(s, step) && id in s.links
    ensures ConnAfter(s, step, id) == Take(s.links[id].conn, ConnStepOf(s, step, id))
  {
  }

  lemma DispatchCanStep(s: Server, loop: LoopId, env: Env, id: nat)
    requires Shape(s) && LinksOk(s) && ConnsOk(s) && ActiveOk(s) && MayStep(s, DispatchNext(loop, env))
    requires Safe(s, DispatchNext(loop, env)) && id in s.links
    ensures CanStep(s.links[id].conn, ConnStepOf(s, DispatchNext(loop, env), id))
  {
    OpenIsListed(s, loop);
  }

  lemma RunCanStep(s: Server, loop: LoopId, ops: seq<UserOp>, id: nat)
    requires LinksOk(s) && ConnsOk(s) && QueuesOk(s) && Safe(s, RunNext(loop, ops)) && id in s.links
    ensures CanStep(s.links[id].conn, ConnStepOf(s, RunNext(loop, ops), id))
  {
    HeadPhase(s, loop);
  }

  lemma ConnStepTakes(s: Server, step: ServerStep, id: nat)
    requires ServerInv(s) && MayStep(s, step) && Safe(s, step) && id in s.links
    ensures var c := s.links[id].conn;
            CanStep(c, ConnStepOf(s, step, id)) && ConnAfter(s, step, id) == Take(c, ConnStepOf(s, step, id))
  {
    ConnStepIsConnAfter(s, step, id);
    match step
    case DispatchNext(loop, env) => DispatchCanStep(s, loop, env, id);
    case RunNext(loop, ops) => RunCanStep(s, loop, ops, id);
    case _ =>
  }

  /** A connection begins with its acceptance, which establishes it at once on the base loop. */
  function FirstSteps(s: Server, step: ServerStep): seq<ConnStep>
    requires Safe(s, step)
  {
    if step.Accept? && PickLoop(s) == BASE_LOOP then [Establish(step.ops)] else []
  }

  function FirstStates(s: Server, step: ServerStep): seq<Conn>
    requires Safe(s, step)
  {
    if !step.Accept? then [] else
      var c := NewConn(step.fd, step.wantsComplete, step.wantsHighWater);
      if PickLoop(s) == BASE_LOOP then [c, ConnectEstablished(c, step.ops)] else [c]
  }

  /** The steps that a connection has taken, one for each step of the server since it was accepted. */
  ghost function ConnSteps(states: seq<Server>, steps: seq<ServerStep>, j: nat, id: nat): seq<ConnStep>
    requires IsServerRun(states, steps) && j < |states|
    decreases j
  {
    if j == 0 then [] else
      NeverDangling(states, steps, j - 1);
      if id in states[j - 1].links
      then ConnSteps(states, steps, j - 1, id) + [ConnStepOf(states[j - 1], steps[j - 1], id)]
      else FirstSteps(states[j - 1], steps[j - 1])
  }

  /** The states it has gone through. */
  ghost function ConnStates(states: seq<Server>, steps: seq<ServerStep>, j: nat, id: nat): seq<Conn>
    requires IsServerRun(states, steps) && j < |states| && id in states[j].links
    decreases j
  {
    if j == 0 then [] else
      NeverDangling(states, steps, j - 1);
      if id in states[j - 1].links
      then ConnStates(states, steps, j - 1, id) + [states[j].links[id].conn]
      else FirstStates(states[j - 1], steps[j - 1])
  }

  /** A run of one connection that ends in c. */
  ghost predicate RunsTo(conns: seq<Conn>, steps: seq<ConnStep>, c: Conn)
  {
    IsRun(conns, steps) && conns[|conns| - 1] == c
  }

  lemma RunSnoc(conns: seq<Conn>, steps: seq<ConnStep>, c: Conn, step: ConnStep)
    requires RunsTo(conns, steps, c) && CanStep(c, step)
    ensures RunsTo(conns + [Take(c, step)], steps + [step], Take(c, step))
  {
    var conns', steps' := conns + [Take(c, step)], steps + [step];
    forall i | 0 <= i < |steps'|
      ensures CanStep(conns'[i], steps'[i]) && conns'[i + 1] == Take(conns'[i], steps'[i])
    {
      if i < |steps| {
        assert conns[i + 1] == Take(conns[i], steps[i]);
      }
    }
  }

  lemma AcceptRuns(s: Server, step: ServerStep, id: nat)
    requires LinksOk(s) && Safe(s, step) && MayStep(s, step) && id !in s.links && id in TakeStep(s, step).links
    ensures step.Accept? && id == s.nextId
    ensures RunsTo(FirstStates(s, step), FirstSteps(s, step), TakeStep(s, step).links[id].conn)
  {
    if id != s.nextId {
      StepIsConnAfter(s, step, id);
    }
    if step.Accept? {
      var c := NewConn(step.fd, step.wantsComplete, step.wantsHighWater);
      NewConnInv(step.fd, step.wantsComplete, step.wantsHighWater);
      EstablishKeeps(c, step.ops);
      AcceptAdds(s, step.fd, step.wantsComplete, step.wantsHighWater, step.ops);
      assert RunsTo([c], [], c);
      RunSnoc([c], [], c, Establish(step.ops));
      assert [c] + [ConnectEstablished(c, step.ops)] == [c, ConnectEstablished(c, step.ops)];
    } else {
      NoNewLink(s, step, id);
    }
  }

  lemma NoNewLink(s: Server, step: ServerStep, id: nat)
    requires Safe(s, step) && !step.Accept? && id in TakeStep(s, step).links
    ensures id in s.links
  {
    match step
    case DispatchNext(loop, env) => DispatchIsConnAfter(s, loop, env, id);
    case RunNext(loop, ops) => RunIsConnAfter(s, loop, ops, id);
    case _ =>
  }

  lemma NextConn(s: Server, step: ServerStep, id: nat)
    requires ServerInv(s) && MayStep(s, step) && Safe(s, step) && id in s.links && id in TakeStep(s, step).links
    ensures CanStep(s.links[id].conn, ConnStepOf(s, step, id))
    ensures TakeStep(s, step).links[id].conn == Take(s.links[id].conn, ConnStepOf(s, step, id))
  {
    LinkIdsBelowNext(s);
    StepIsConnAfter(s, step, id);
    ConnStepTakes(s, step, id);
  }

  lemma NextRuns(conns: seq<Conn>, csteps: seq<ConnStep>, s: Server, step: ServerStep, id: nat)
    requires ServerInv(s) && MayStep(s, step) && Safe(s, step) && id in s.links && id in TakeStep(s, step).links
    requires RunsTo(conns, csteps, s.links[id].conn)
    ensures var d := TakeStep(s, step).links[id].conn;
            RunsTo(conns + [d], csteps + [ConnStepOf(s, step, id)], d)
  {
    NextConn(s, step, id);
    RunSnoc(conns, csteps, s.links[id].conn, ConnStepOf(s, step, id));
  }

  /** The states and steps of a connection up to a moment are a run to where it then is. */
  ghost predicate RunsUntil(states: seq<Server>, steps: seq<ServerStep>, j: nat, id: nat)
    requires IsServerRun(states, steps) && j < |states| && id in states[j].links
  {
    RunsTo(ConnStates(states, steps, j, id), ConnSteps(states, steps, j, id), states[j].links[id].conn)
  }

  lemma RunBegins(states: seq<Server>, steps: seq<ServerStep>, j: nat, id: nat)
    requires IsServerRun(states, steps) && j + 1 < |states| && id in states[j + 1].links && id !in states[j].links
    ensures RunsUntil(states, steps, j + 1, id)
  {
    NeverDangling(states, steps, j);
    ServerRunKeeps(states, steps, j);
    AcceptRuns(states[j], steps[j], id);
  }

  lemma RunExtends(states: seq<Server>, steps: seq<ServerStep>, j: nat, id: nat)
    requires IsServerRun(states, steps) && j + 1 < |states| && id in states[j + 1].links && id in states[j].links
    requires RunsUntil(states, steps, j, id)
    ensures RunsUntil(states, steps, j + 1, id)
  {
    NeverDangling(states, steps, j);
    ServerRunKeeps(states, steps, j);
    NextRuns(ConnStates(states, steps, j, id), ConnSteps(states, steps, j, id), states[j], steps[j], id);
  }

  /** Whatever the loops interleave, what happens to one connection of the server is a run
      of the connection state machine, step by step. */
  lemma {:induction false} EachConnectionRuns(states: seq<Server>, steps: seq<ServerStep>, j: nat, id: nat)
    requires IsServerRun(states, steps) && j < |states| && id in states[j].links
    ensures RunsUntil(states, steps, j, id)
    decreases j
  {
    if j > 0 {
      if id in states[j - 1].links {
        EachConnectionRuns(states, steps, j - 1, id);
        RunExtends(states, steps, j - 1, id);
      } else {
        RunBegins(states, steps, j - 1, id);
      }
    }
  }

  /** So every connection of the server is, field by field, what the ideal machine makes of
      the socket's answers, epoll's reports and its user's code. */
  lemma EachConnectionIsIdeal(states: seq<Server>, steps: seq<ServerStep>, j: nat, id: nat)
    requires IsServerRun(states, steps) && j < |states| && id in states[j].links
    ensures var c := states[j].links[id].conn;
            Matches(c, IdealAfter(c.wantsComplete, c.wantsHighWater, ConnSteps(states, steps, j, id)))
  {
    var conns, csteps := ConnStates(states, steps, j, id), ConnSteps(states, steps, j, id);
    EachConnectionRuns(states, steps, j, id);
    RunMatches(conns, csteps, |csteps|);
    assert csteps[..|csteps|] == csteps;
    RunKeeps(conns, csteps, 0, |csteps|);
  }

  // ---- The example server ----

  /** A step of a server whose only user code is the example server's message callback. */
  ghost predicate IsEchoServerStep(s: Server, step: ServerStep)
    requires Safe(s, step)
  {
    match step
    case DispatchNext(loop, env) =>
      IsEchoStep(s.links[s.active[loop][0].id].conn, Event(s.active[loop][0].revents, env))
    case Accept(_, _, _, ops) => ops == []
    case RunNext(_, ops) => ops == []
    case UserCode(_, ops) => ops == []
    case _ => true
  }

  ghost predicate IsEchoServerRun(states: seq<Server>, steps: seq<ServerStep>)
  {
    && IsServerRun(states, steps)
    && (forall i | 0 <= i < |steps| && Safe(states[i], steps[i]) :: IsEchoServerStep(states[i], steps[i]))
  }

  ghost predicate AllEcho(conns: seq<Conn>, steps: seq<ConnStep>)
    requires |conns| == |steps| + 1
  {
    forall k | 0 <= k < |steps| :: IsEchoStep(conns[k], steps[k])
  }

  lemma EchoSnoc(conns: seq<Conn>, steps: seq<ConnStep>, c: Conn, step: ConnStep)
    requires |conns| == |steps| + 1 && AllEcho(conns, steps) && IsEchoStep(conns[|conns| - 1], step)
    ensures AllEcho(conns + [c], steps + [step])
  {
    var conns', steps' := conns + [c], steps + [step];
    forall k | 0 <= k < |steps'|
      ensures IsEchoStep(conns'[k], steps'[k])
    {
      if k < |steps| {
        assert IsEchoStep(conns[k], steps[k]);
      }
    }
  }

  lemma {:induction false} EachConnectionEchoes(states: seq<Server>, steps: seq<ServerStep>, j: nat, id: nat)
    requires IsEchoServerRun(states, steps) && j < |states| && id in states[j].links
    ensures |ConnStates(states, steps, j, id)| == |ConnSteps(states, steps, j, id)| + 1
    ensures AllEcho(ConnStates(states, steps, j, id), ConnSteps(states, steps, j, id))
    decreases j
  {
    EachConnectionRuns(states, steps, j, id);
    if j > 0 {
      var s := states[j - 1];
      NeverDangling(states, steps, j - 1);
      assert IsEchoServerStep(s, steps[j - 1]);
      if id in s.links {
        var conns, csteps := ConnStates(states, steps, j - 1, id), ConnSteps(states, steps, j - 1, id);
        EachConnectionRuns(states, steps, j - 1, id);
        EachConnectionEchoes(states, steps, j - 1, id);
        EchoSnoc(conns, csteps, states[j].links[id].conn, ConnStepOf(s, steps[j - 1], id));
        assert ConnStates(states, steps, j, id) == conns + [states[j].links[id].conn];
      }
    }
  }

  /** The example server over every interleaving of its loops and any number of peers: a
      peer is sent nothing before its first message has arrived; then what it has been
      sent is a prefix of that message, and the FIN has gone out exactly when no byte is
      pending, which is after the whole message unless the socket refused it. */
  lemma EchoServerEndToEnd(states: seq<Server>, steps: seq<ServerStep>, j: nat, id: nat)
    requires IsEchoServerRun(states, steps) && j < |states| && id in states[j].links
    ensures var c := states[j].links[id].conn;
            && (!Told(c) ==> c.wire == [] && c.fins == 0)
            && (Told(c) ==>
                  && c.wire <= FirstMessage(c) && (c.fins == 1 <==> c.output == [])
                  && (c.faulted ==> c.wire == [])
                  && (!c.faulted ==> (c.fins == 1 <==> c.wire == FirstMessage(c))))
  {
    var conns, csteps := ConnStates(states, steps, j, id), ConnSteps(states, steps, j, id);
    EachConnectionRuns(states, steps, j, id);
    EachConnectionEchoes(states, steps, j, id);
    EchoEndToEnd(conns, csteps, |conns| - 1);
  }
}
