/** The server and its loops as one transition system (src/TcpServer.cc over
    src/TcpConnection.cc and the task queues of src/EventLoop.cc).

    Each loop is one queue of functors, as EventLoops.StepRefinesQueue allows, and a
    list of channels its last poll reported. Any loop may step at any time.
 */
module Servers {
  import opened Buffers
  import opened Epoll
  import opened Connections
  import opened ConnectionNames
  import opened ThreadPools

  /** The functors that move a connection through its life. */
  datatype Functor = Established(id: nat) | RemoveInLoop(id: nat) | Destroyed(id: nat)

  datatype ActiveChannel = ActiveChannel(id: nat, revents: Events)

  /** A connection object that has not been freed, and the loop that owns it. */
  datatype Link = Link(conn: Conn, loop: LoopId, finished: bool)

  /** `links` are the objects alive, `listed` the ids entered in `connections` and not
      erased; `finished` in a link records that connectDestroyed has run. */
  datatype Server = Server(
    name: string,
    ipPort: string,
    numLoops: nat,
    next: nat,
    nextId: nat,
    connections: map<string, nat>,
    listed: set<nat>,
    links: map<nat, Link>,
    queues: seq<seq<Functor>>,
    active: seq<seq<ActiveChannel>>,
    accepted: nat,
    erased: nat)
  {
    function NameOf(id: nat): string { ConnName(name, ipPort, id) }
  }

  function NewServer(name: string, ipPort: string, numLoops: nat): Server
  {
    Server(name, ipPort, numLoops, 0, 1, map[], {}, map[],
           seq(numLoops + 1, _ => []), seq(numLoops + 1, _ => []), 0, 0)
  }

  function SetConn(s: Server, id: nat, c: Conn): Server
    requires id in s.links
  {
    s.(links := s.links[id := s.links[id].(conn := c)])
  }

  function Enqueue(s: Server, loop: LoopId, f: Functor): Server
    requires loop < |s.queues|
  {
    s.(queues := s.queues[loop := s.queues[loop] + [f]])
  }

  /** The loop getNextLoop gives. */
  function PickLoop(s: Server): LoopId { if s.numLoops == 0 then BASE_LOOP else 1 + s.next }

  /** newConnection: connectEstablished runs at once when the base loop is also the
      connection's own, and is queued otherwise. */
  function NewConnection(s: Server, fd: int, wantsComplete: bool, wantsHighWater: bool, ops: seq<UserOp>): Server
    requires PickLoop(s) < |s.queues|
  {
    var loop, id := PickLoop(s), s.nextId;
    var conn := NewConn(fd, wantsComplete, wantsHighWater);
    var s1 := s.(
      next := if s.numLoops == 0 then s.next else Advance(s.next, s.numLoops),
      nextId := id + 1,
      connections := s.connections[s.NameOf(id) := id],
      listed := s.listed + {id},
      links := s.links[id := Link(conn, loop, false)],
      accepted := s.accepted + 1);
    if loop == BASE_LOOP then SetConn(s1, id, ConnectEstablished(conn, ops))
    else Enqueue(s1, loop, Established(id))
  }

  function RemoveConnectionInLoop(s: Server, id: nat): Server
    requires id in s.links && s.links[id].loop < |s.queues|
  {
    var s1 := s.(
      connections := s.connections - {s.NameOf(id)},
      listed := s.listed - {id},
      erased := if s.NameOf(id) in s.connections then s.erased + 1 else s.erased);
    Enqueue(s1, s.links[id].loop, Destroyed(id))
  }

  /** The close callback, called on the connection's own loop. */
  function RemoveConnection(s: Server, id: nat): Server
    requires id in s.links && s.links[id].loop < |s.queues|
  {
    if s.links[id].loop == BASE_LOOP then RemoveConnectionInLoop(s, id)
    else Enqueue(s, BASE_LOOP, RemoveInLoop(id))
  }

  /** The dispatch made the close callback. */
  predicate AskedRemoval(c: Conn, d: Conn) { CloseRequest in d.calls && CloseRequest !in c.calls }

  function DispatchTo(s: Server, id: nat, revents: Events, env: Env): Server
    requires id in s.links && s.links[id].loop < |s.queues|
  {
    var c := s.links[id].conn;
    var d := HandleEvent(c, revents, env);
    var s1 := SetConn(s, id, d);
    if AskedRemoval(c, d) then RemoveConnection(s1, id) else s1
  }

  function RunFunctor(s: Server, f: Functor, ops: seq<UserOp>): Server
    requires f.id in s.links && s.links[f.id].loop < |s.queues|
  {
    var link := s.links[f.id];
    match f
    case Established(id) => SetConn(s, id, ConnectEstablished(link.conn, ops))
    case RemoveInLoop(id) => RemoveConnectionInLoop(s, id)
    case Destroyed(id) =>
      s.(links := s.links[id := link.(conn := ConnectDestroyed(link.conn, ops), finished := true)])
  }

  /** No shared pointer to the connection is left in the map or in a queue. */
  ghost predicate Unreferenced(s: Server, id: nat)
  {
    && (forall name | name in s.connections :: s.connections[name] != id)
    && (forall l, k | 0 <= l < |s.queues| && 0 <= k < |s.queues[l]| :: s.queues[l][k].id != id)
  }

  datatype ServerStep =
    | Accept(fd: int, wantsComplete: bool, wantsHighWater: bool, ops: seq<UserOp>)
    | PollLoop(loop: LoopId, ready: seq<ActiveChannel>)
    | DispatchNext(loop: LoopId, env: Env)
    | RunNext(loop: LoopId, ops: seq<UserOp>)
    | UserCode(id: nat, ops: seq<UserOp>)
    | Release(id: nat)

  /** What epoll may report on a loop (Epoll.EpollPoller.Poll): channels of that loop
      that are registered, each once, with events inside their masks. */
  ghost predicate Reportable(s: Server, loop: LoopId, ready: seq<ActiveChannel>)
  {
    && (forall i | 0 <= i < |ready| ::
          && ready[i].id in s.links && s.links[ready[i].id].loop == loop
          && s.links[ready[i].id].conn.Registered()
          && ready[i].revents.Within(s.links[ready[i].id].conn.chan.events))
    && (forall i, j | 0 <= i < j < |ready| :: ready[i].id != ready[j].id)
  }

  /** Which steps the loops, the kernel and the user may take. Connections are accepted
      on fds that no open connection uses; a dispatch is of the next reported channel;
      functors run between dispatches; an object is freed when nothing refers to it. */
  ghost predicate MayStep(s: Server, step: ServerStep)
  {
    match step
    case Accept(fd, _, _, _) =>
      s.nextId < INT_MAX && forall id | id in s.links :: s.links[id].conn.chan.fd != fd
    case PollLoop(loop, ready) => loop < |s.active| && s.active[loop] == [] && Reportable(s, loop, ready)
    case DispatchNext(loop, env) =>
      loop < |s.active| && s.active[loop] != [] && Benign(s.active[loop][0].revents, env.read)
    case RunNext(loop, _) =>
      loop < |s.queues| && loop < |s.active| && s.active[loop] == [] && s.queues[loop] != []
    case UserCode(id, _) => id in s.links
    case Release(id) => id in s.links && Unreferenced(s, id)
  }

  predicate Alive(s: Server, id: nat) { id in s.links && s.links[id].loop < |s.queues| }

  /** The object that a dispatch or a functor reaches through its pointer has not been
      freed. MayStep does not promise this; it has to be proved of every run. */
  predicate Safe(s: Server, step: ServerStep)
  {
    match step
    case Accept(_, _, _, _) => PickLoop(s) < |s.queues|
    case DispatchNext(loop, _) => loop < |s.active| && s.active[loop] != [] && Alive(s, s.active[loop][0].id)
    case RunNext(loop, _) => loop < |s.queues| && s.queues[loop] != [] && Alive(s, s.queues[loop][0].id)
    case UserCode(id, _) => Alive(s, id)
    case _ => true
  }

  function TakeStep(s: Server, step: ServerStep): Server
    requires Safe(s, step)
  {
    match step
    case Accept(fd, wantsComplete, wantsHighWater, ops) => NewConnection(s, fd, wantsComplete, wantsHighWater, ops)
    case PollLoop(loop, ready) => if loop < |s.active| then s.(active := s.active[loop := ready]) else s
    case DispatchNext(loop, env) =>
      var next := s.active[loop][0];
      DispatchTo(s.(active := s.active[loop := s.active[loop][1..]]), next.id, next.revents, env)
    case RunNext(loop, ops) =>
      var f := s.queues[loop][0];
      RunFunctor(s.(queues := s.queues[loop := s.queues[loop][1..]]), f, ops)
    case UserCode(id, ops) => SetConn(s, id, UserRun(s.links[id].conn, ops))
    case Release(id) => s.(links := s.links - {id})
  }

  /** A run; a step that reaches a freed object would leave its successor arbitrary. */
  ghost predicate IsServerRun(states: seq<Server>, steps: seq<ServerStep>)
  {
    && |states| == |steps| + 1
    && |states[0].ipPort| <= MAX_IP_PORT
    && states[0] == NewServer(states[0].name, states[0].ipPort, states[0].numLoops)
    && (forall i | 0 <= i < |steps| ::
          && MayStep(states[i], steps[i])
          && (Safe(states[i], steps[i]) ==> states[i + 1] == TakeStep(states[i], steps[i])))
  }
}

/** The server object over the same state, each method doing what the function of its
    name in Servers does.
 */
module TcpServers {
  import opened Connections
  import opened ConnectionNames
  import opened ThreadPools
  import opened Servers

  /** The server object. Its methods run on the base loop's thread, except for
      RemoveConnection, which a closing connection calls on its own loop's thread. */
  class TcpServer {
    const name: string
    const ipPort: string
    const pool: EventLoopThreadPool
    var nextConnId: nat
    var started: nat
    var connections: map<string, nat>
    var links: map<nat, Link>
    var queues: seq<seq<Functor>>
    var active: seq<seq<ActiveChannel>>
    ghost var listed: set<nat>
    ghost var accepted: nat
    ghost var erased: nat

    ghost predicate Valid()
      reads this, pool
    {
      && pool.Valid() && 1 <= nextConnId
      && |queues| == |active| == |pool.loops| + 1
      && (started == 0 ==> pool.loops == [] && pool.picked == 0)
    }

    ghost function State(): Server
      reads this, pool
    {
      Server(name, ipPort, |pool.loops|, pool.next, nextConnId, connections, listed, links, queues, active,
             accepted, erased)
    }

    constructor (name: string, ipPort: string)
      ensures Valid() && fresh(pool) && started == 0
      ensures State() == NewServer(name, ipPort, 0)
    {
      this.name := name;
      this.ipPort := ipPort;
      pool := new EventLoopThreadPool();
      nextConnId := 1;
      started := 0;
      connections := map[];
      links := map[];
      queues := [[]];
      active := [[]];
      listed, accepted, erased := {}, 0, 0;
    }

    /** Only the first call starts the pool. */
    method Start(numThreads: nat)
      requires Valid()
      requires started == 0 ==> State() == NewServer(name, ipPort, 0)
      modifies this, pool
      ensures Valid() && started == old(started) + 1
      ensures State() == if old(started) == 0 then NewServer(name, ipPort, numThreads) else old(State())
    {
      if started == 0 {
        pool.Start(numThreads);
        queues := seq(numThreads + 1, _ => []);
        active := seq(numThreads + 1, _ => []);
      }
      started := started + 1;
    }

    method QueueInLoop(loop: LoopId, f: Functor)
      requires loop < |queues|
      modifies this`queues
      ensures State() == Enqueue(old(State()), loop, f)
    {
      queues := queues[loop := queues[loop] + [f]];
    }

    method Insert(id: nat, conn: Conn, ioLoop: LoopId)
      modifies this`links, this`connections, this`listed, this`accepted
      ensures State() == old(State()).(
                connections := old(connections)[ConnName(name, ipPort, id) := id],
                listed := old(listed) + {id},
                links := old(links)[id := Link(conn, ioLoop, false)],
                accepted := old(accepted) + 1)
    {
      links := links[id := Link(conn, ioLoop, false)];
      connections := connections[ConnName(name, ipPort, id) := id];
      listed, accepted := listed + {id}, accepted + 1;
    }

    method NewConnection(fd: int, wantsComplete: bool, wantsHighWater: bool, ops: seq<UserOp>)
      requires Valid() && 0 < started
      modifies this, pool
      ensures Valid() && PickLoop(old(State())) < |old(State()).queues|
      ensures State() == Servers.NewConnection(old(State()), fd, wantsComplete, wantsHighWater, ops)
    {
      var ioLoop := pool.GetNextLoop();
      var id := nextConnId;
      nextConnId := nextConnId + 1;
      var conn := NewConn(fd, wantsComplete, wantsHighWater);
      Insert(id, conn, ioLoop);
      if ioLoop == BASE_LOOP {
        links := links[id := links[id].(conn := ConnectEstablished(conn, ops))];
      } else {
        QueueInLoop(ioLoop, Established(id));
      }
    }

    method RemoveConnectionInLoop(id: nat)
      requires Valid() && Alive(State(), id)
      modifies this
      ensures Valid() && State() == Servers.RemoveConnectionInLoop(old(State()), id)
      ensures started == old(started)
    {
      var connName := ConnName(name, ipPort, id);
      if connName in connections {
        erased := erased + 1;
      }
      connections := connections - {connName};
      listed := listed - {id};
      QueueInLoop(links[id].loop, Destroyed(id));
    }

    /** Runs on the closing connection's loop: at once when that is the base loop. */
    method RemoveConnection(id: nat)
      requires Valid() && Alive(State(), id)
      modifies this
      ensures Valid() && State() == Servers.RemoveConnection(old(State()), id)
      ensures started == old(started)
    {
      if links[id].loop == BASE_LOOP {
        RemoveConnectionInLoop(id);
      } else {
        QueueInLoop(BASE_LOOP, RemoveInLoop(id));
      }
    }
  }
}
