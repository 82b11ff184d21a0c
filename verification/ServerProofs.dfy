/** What every interleaving of the server's loops keeps. */
module ServerProperties {
  import opened Buffers
  import opened Epoll
  import opened Connections
  import opened ConnectionProperties
  import opened ConnectionNames
  import opened ThreadPools
  import opened Servers

  // ---- The invariant ----

  ghost predicate Shape(s: Server)
  {
    && |s.queues| == |s.active| == s.numLoops + 1
    && 1 <= s.nextId <= INT_MAX && |s.ipPort| <= MAX_IP_PORT
    && s.next == (if s.numLoops == 0 then 0 else (s.nextId - 1) % s.numLoops)
  }

  /** Connection k goes to loop k modulo n, counting from one. */
  function LoopFor(n: nat, id: nat): LoopId
    requires 1 <= id
  {
    if n == 0 then BASE_LOOP else 1 + (id - 1) % n
  }

  ghost predicate LinkOk(s: Server, id: nat)
    requires id in s.links
  {
    var link := s.links[id];
    && 1 <= id < s.nextId && link.loop == LoopFor(s.numLoops, id)
    && (!IsClosed(link.conn) ==> id in s.listed)
    && (link.finished ==> IsClosed(link.conn) && id !in s.listed)
    && (link.loop == BASE_LOOP ==> !IsFresh(link.conn) && (IsClosed(link.conn) ==> id !in s.listed))
  }

  ghost predicate LinksOk(s: Server)
  {
    && (forall id | id in s.links :: LinkOk(s, id))
    && (forall id | id in s.listed :: id in s.links)
    && (forall a, b | a in s.links && b in s.links && a != b :: s.links[a].conn.chan.fd != s.links[b].conn.chan.fd)
  }

  ghost predicate ConnsOk(s: Server)
  {
    forall id | id in s.links :: Inv(s.links[id].conn)
  }

  function Namer(name: string, ipPort: string): nat -> string { (id: nat) => ConnName(name, ipPort, id) }

  /** The map holds exactly these ids, each under its own name. */
  ghost predicate Keyed(m: map<string, nat>, ids: set<nat>, nameOf: nat -> string)
  {
    && (forall id | id in ids :: nameOf(id) in m && m[nameOf(id)] == id)
    && (forall name | name in m :: m[name] in ids && nameOf(m[name]) == name)
  }

  ghost predicate NamesOk(s: Server)
  {
    && Keyed(s.connections, s.listed, Namer(s.name, s.ipPort))
    && s.accepted == s.erased + |s.connections|
  }

  function Queued(s: Server, l: nat, f: Functor): nat
    requires l < |s.queues|
  {
    multiset(s.queues[l])[f]
  }

  /** How often a functor must be waiting in a queue, read off the state of its connection. */
  function Due(s: Server, l: nat, f: Functor): nat
  {
    if f.id !in s.links then 0 else
      var link := s.links[f.id];
      match f
      case Established(id) =>
        if l == link.loop && l != BASE_LOOP && IsFresh(link.conn) then 1 else 0
      case RemoveInLoop(id) =>
        if l == BASE_LOOP && IsClosed(link.conn) && id in s.listed then 1 else 0
      case Destroyed(id) =>
        if l == link.loop && IsClosed(link.conn) && id !in s.listed && !link.finished then 1 else 0
  }

  ghost predicate QueuesOk(s: Server)
  {
    forall l: nat, f: Functor | l < |s.queues| :: Queued(s, l, f) == Due(s, l, f)
  }

  ghost predicate EntryOk(s: Server, l: nat, e: ActiveChannel)
  {
    && e.id in s.links && s.links[e.id].loop == l
    && s.links[e.id].conn.Registered() && e.revents.Within(s.links[e.id].conn.chan.events)
  }

  ghost predicate ActiveOk(s: Server)
  {
    forall l | 0 <= l < |s.active| ::
      && (forall i | 0 <= i < |s.active[l]| :: EntryOk(s, l, s.active[l][i]))
      && (forall i, j | 0 <= i < j < |s.active[l]| :: s.active[l][i].id != s.active[l][j].id)
  }

  ghost predicate ServerInv(s: Server)
  {
    Shape(s) && LinksOk(s) && ConnsOk(s) && NamesOk(s) && QueuesOk(s) && ActiveOk(s)
  }

  lemma NewServerInv(name: string, ipPort: string, numLoops: nat)
    requires |ipPort| <= MAX_IP_PORT
    ensures ServerInv(NewServer(name, ipPort, numLoops))
  {
    var s := NewServer(name, ipPort, numLoops);
    forall l: nat, f: Functor | l < |s.queues|
      ensures Queued(s, l, f) == Due(s, l, f)
    {
      assert s.queues[l] == [];
    }
  }

  // ---- Queues ----

  lemma EnqueueCounts(s: Server, loop: LoopId, f: Functor, l: nat, g: Functor)
    requires loop < |s.queues| && l < |s.queues|
    ensures Queued(Enqueue(s, loop, f), l, g) == Queued(s, l, g) + (if l == loop && g == f then 1 else 0)
  {
  }

  function Dequeue(s: Server, loop: LoopId): Server
    requires loop < |s.queues| && s.queues[loop] != []
  {
    s.(queues := s.queues[loop := s.queues[loop][1..]])
  }

  lemma DequeueCounts(s: Server, loop: LoopId, l: nat, g: Functor)
    requires loop < |s.queues| && s.queues[loop] != [] && l < |s.queues|
    ensures Queued(Dequeue(s, loop), l, g) + (if l == loop && g == s.queues[loop][0] then 1 else 0) == Queued(s, l, g)
  {
    assert s.queues[loop] == [s.queues[loop][0]] + s.queues[loop][1..];
  }

  lemma HeadIsDue(s: Server, loop: LoopId)
    requires QueuesOk(s) && loop < |s.queues| && s.queues[loop] != []
    ensures Due(s, loop, s.queues[loop][0]) == 1
  {
    var f := s.queues[loop][0];
    assert f in s.queues[loop];
    assert Queued(s, loop, f) == Due(s, loop, f);
  }

  // ---- The connection map ----

  lemma KeyedErase(m: map<string, nat>, ids: set<nat>, nameOf: nat -> string, id: nat)
    requires Keyed(m, ids, nameOf) && id in ids
    ensures Keyed(m - {nameOf(id)}, ids - {id}, nameOf)
    ensures |m| == |m - {nameOf(id)}| + 1
  {
    var r := m - {nameOf(id)};
    assert m.Keys == r.Keys + {nameOf(id)};
  }

  lemma KeyedInsert(m: map<string, nat>, ids: set<nat>, nameOf: nat -> string, id: nat)
    requires Keyed(m, ids, nameOf) && forall other | other in ids :: nameOf(other) != nameOf(id)
    ensures nameOf(id) !in m
    ensures Keyed(m[nameOf(id) := id], ids + {id}, nameOf)
    ensures |m[nameOf(id) := id]| == |m| + 1
  {
    var r := m[nameOf(id) := id];
    assert r.Keys == m.Keys + {nameOf(id)};
  }

  /** Every id in the map is older than the next one, so its name is another. */
  lemma NextNameIsNew(s: Server)
    requires Shape(s) && forall id | id in s.listed :: id < s.nextId
    ensures forall other | other in s.listed :: Namer(s.name, s.ipPort)(other) != Namer(s.name, s.ipPort)(s.nextId)
  {
    forall other | other in s.listed
      ensures Namer(s.name, s.ipPort)(other) != Namer(s.name, s.ipPort)(s.nextId)
    {
      if ConnName(s.name, s.ipPort, other) == ConnName(s.name, s.ipPort, s.nextId) {
        NamesDistinct(s.name, s.ipPort, other, s.nextId);
      }
    }
  }

  // ---- One connection changes, the others do not ----

  /** Nothing but connection `id` and the functors about it differ. */
  ghost predicate OnlyFor(s: Server, t: Server, id: nat)
  {
    && t.numLoops == s.numLoops && t.nextId == s.nextId && |t.queues| == |s.queues|
    && id in s.links && id in t.links && t.links.Keys == s.links.Keys
    && (forall other | other in s.links && other != id :: t.links[other] == s.links[other])
    && (forall other | other != id :: other in s.listed <==> other in t.listed)
    && t.links[id].loop == s.links[id].loop && t.links[id].conn.chan.fd == s.links[id].conn.chan.fd
  }

  lemma LinksFrame(s: Server, t: Server, id: nat)
    requires LinksOk(s) && OnlyFor(s, t, id) && LinkOk(t, id)
    ensures LinksOk(t)
  {
    forall other | other in t.links
      ensures LinkOk(t, other)
    {
      assert LinkOk(s, other);
    }
  }

  lemma QueuesFrame(s: Server, t: Server, id: nat)
    requires QueuesOk(s) && OnlyFor(s, t, id)
    requires forall l: nat, f: Functor | l < |s.queues| && f.id != id :: Queued(t, l, f) == Queued(s, l, f)
    requires forall l: nat, f: Functor | l < |s.queues| && f.id == id :: Queued(t, l, f) == Due(t, l, f)
    ensures QueuesOk(t)
  {
    forall l: nat, f: Functor | l < |t.queues|
      ensures Queued(t, l, f) == Due(t, l, f)
    {
      if f.id != id {
        assert Queued(t, l, f) == Queued(s, l, f) == Due(s, l, f) == Due(t, l, f);
      }
    }
  }

  /** The connection changes without changing phase: a handler, a callback, user code. */
  lemma SamePhaseKeeps(s: Server, id: nat, d: Conn)
    requires LinksOk(s) && QueuesOk(s) && id in s.links
    requires IsFresh(d) == IsFresh(s.links[id].conn) && IsClosed(d) == IsClosed(s.links[id].conn)
    requires d.chan.fd == s.links[id].conn.chan.fd
    ensures LinksOk(SetConn(s, id, d)) && QueuesOk(SetConn(s, id, d))
  {
    var t := SetConn(s, id, d);
    assert LinkOk(s, id);
    LinksFrame(s, t, id);
    forall l: nat, f: Functor | l < |s.queues| && f.id == id
      ensures Queued(t, l, f) == Due(t, l, f)
    {
      assert Queued(t, l, f) == Queued(s, l, f) == Due(s, l, f);
    }
    QueuesFrame(s, t, id);
  }

  // ---- Closing ----

  /** The connection closes on its own loop and asks the base loop for removal. */
  lemma CloseQueued(s: Server, id: nat, d: Conn)
    requires Shape(s) && LinksOk(s) && QueuesOk(s) && id in s.links && s.links[id].loop != BASE_LOOP
    requires IsOpen(s.links[id].conn) && IsClosed(d) && d.chan.fd == s.links[id].conn.chan.fd
    ensures var t := Enqueue(SetConn(s, id, d), BASE_LOOP, RemoveInLoop(id));
            LinksOk(t) && QueuesOk(t)
  {
    var u := SetConn(s, id, d);
    var t := Enqueue(u, BASE_LOOP, RemoveInLoop(id));
    assert LinkOk(s, id);
    LinksFrame(s, t, id);
    forall l: nat, f: Functor | l < |s.queues|
      ensures f.id != id ==> Queued(t, l, f) == Queued(s, l, f)
      ensures f.id == id ==> Queued(t, l, f) == Due(t, l, f)
    {
      EnqueueCounts(u, BASE_LOOP, RemoveInLoop(id), l, f);
      assert Queued(u, l, f) == Queued(s, l, f) == Due(s, l, f);
    }
    QueuesFrame(s, t, id);
  }

  lemma RemovalQueues(s: Server, id: nat)
    requires Alive(s, id)
    ensures RemoveConnectionInLoop(s, id).queues == Enqueue(s, s.links[id].loop, Destroyed(id)).queues
    ensures RemoveConnectionInLoop(s, id).listed == s.listed - {id}
  {
  }

  lemma InlineCounts(s: Server, id: nat, d: Conn, l: nat, f: Functor)
    requires Alive(s, id) && s.links[id].loop == BASE_LOOP && l < |s.queues|
    ensures Queued(RemoveConnectionInLoop(SetConn(s, id, d), id), l, f)
         == Queued(s, l, f) + (if l == BASE_LOOP && f == Destroyed(id) then 1 else 0)
  {
    RemovalQueues(SetConn(s, id, d), id);
    EnqueueCounts(SetConn(s, id, d), BASE_LOOP, Destroyed(id), l, f);
  }

  /** The connection closes on the base loop, which erases it at once. */
  lemma CloseInline(s: Server, id: nat, d: Conn)
    requires Shape(s) && LinksOk(s) && QueuesOk(s) && id in s.links && s.links[id].loop == BASE_LOOP
    requires IsOpen(s.links[id].conn) && IsClosed(d) && d.chan.fd == s.links[id].conn.chan.fd
    ensures var t := RemoveConnectionInLoop(SetConn(s, id, d), id);
            LinksOk(t) && QueuesOk(t)
  {
    var t := RemoveConnectionInLoop(SetConn(s, id, d), id);
    assert LinkOk(s, id);
    RemovalQueues(SetConn(s, id, d), id);
    LinksFrame(s, t, id);
    forall l: nat, f: Functor | l < |s.queues|
      ensures f.id != id ==> Queued(t, l, f) == Queued(s, l, f)
      ensures f.id == id ==> Queued(t, l, f) == Due(t, l, f)
    {
      InlineCounts(s, id, d, l, f);
      assert Queued(s, l, f) == Due(s, l, f);
    }
    QueuesFrame(s, t, id);
  }

  lemma ConnsFrame(s: Server, t: Server, id: nat)
    requires ConnsOk(s) && OnlyFor(s, t, id) && Inv(t.links[id].conn)
    ensures ConnsOk(t)
  {
  }

  // ---- Functors ----

  lemma EstablishKeepsLife(s: Server, loop: LoopId, id: nat, d: Conn)
    requires Shape(s) && LinksOk(s) && QueuesOk(s) && loop < |s.queues| && s.queues[loop] != []
    requires s.queues[loop][0] == Established(id)
    requires id in s.links && IsOpen(d) && d.chan.fd == s.links[id].conn.chan.fd
    ensures var t := SetConn(Dequeue(s, loop), id, d);
            LinksOk(t) && QueuesOk(t)
  {
    HeadIsDue(s, loop);
    var t := SetConn(Dequeue(s, loop), id, d);
    assert LinkOk(s, id);
    LinksFrame(s, t, id);
    forall l: nat, f: Functor | l < |s.queues|
      ensures f.id != id ==> Queued(t, l, f) == Queued(s, l, f)
      ensures f.id == id ==> Queued(t, l, f) == Due(t, l, f)
    {
      DequeueCounts(s, loop, l, f);
      assert Queued(s, l, f) == Due(s, l, f);
    }
    QueuesFrame(s, t, id);
  }

  lemma RemoveKeepsLife(s: Server, loop: LoopId, id: nat)
    requires Shape(s) && LinksOk(s) && QueuesOk(s) && loop < |s.queues| && s.queues[loop] != []
    requires s.queues[loop][0] == RemoveInLoop(id)
    requires id in s.links && s.links[id].loop < |s.queues|
    ensures var t := RemoveConnectionInLoop(Dequeue(s, loop), id);
            LinksOk(t) && QueuesOk(t)
  {
    HeadIsDue(s, loop);
    var u := Dequeue(s, loop);
    var t := RemoveConnectionInLoop(u, id);
    assert LinkOk(s, id);
    LinksFrame(s, t, id);
    forall l: nat, f: Functor | l < |s.queues|
      ensures f.id != id ==> Queued(t, l, f) == Queued(s, l, f)
      ensures f.id == id ==> Queued(t, l, f) == Due(t, l, f)
    {
      DequeueCounts(s, loop, l, f);
      EnqueueCounts(u, s.links[id].loop, Destroyed(id), l, f);
      assert Queued(s, l, f) == Due(s, l, f);
    }
    QueuesFrame(s, t, id);
  }

  lemma DestroyKeepsLife(s: Server, loop: LoopId, id: nat)
    requires Shape(s) && LinksOk(s) && QueuesOk(s) && loop < |s.queues| && s.queues[loop] != []
    requires s.queues[loop][0] == Destroyed(id) && id in s.links
    ensures LinksOk(Finish(Dequeue(s, loop), id)) && QueuesOk(Finish(Dequeue(s, loop), id))
  {
    HeadIsDue(s, loop);
    var t := Finish(Dequeue(s, loop), id);
    assert LinkOk(s, id);
    LinksFrame(s, t, id);
    forall l: nat, f: Functor | l < |s.queues|
      ensures f.id != id ==> Queued(t, l, f) == Queued(s, l, f)
      ensures f.id == id ==> Queued(t, l, f) == Due(t, l, f)
    {
      DequeueCounts(s, loop, l, f);
      assert Queued(s, l, f) == Due(s, l, f);
    }
    QueuesFrame(s, t, id);
  }

  // ---- Entries of the active lists ----

  /** In every phase that a connection can be in, registered means open. */
  lemma RegisteredMeansOpen(c: Conn)
    requires Inv(c)
    ensures c.Registered() <==> IsOpen(c)
    ensures IsFresh(c) || IsOpen(c) || IsClosed(c)
  {
  }

  lemma SendAppends(c: Conn, data: seq<Byte>, w: WriteResult)
    ensures c.output <= Send(c, data, w).output
  {
    if c.state == Connected {
      if TryWrite(c, data, w).fault {
        FaultDropsAll(c, data, w);
      } else {
        SendEffect(c, data, w);
      }
    }
  }

  /** User code only ever adds to the pending bytes. */
  lemma {:induction false} UserRunAppends(c: Conn, ops: seq<UserOp>)
    ensures c.output <= UserRun(c, ops).output
  {
    if ops != [] {
      var d := UserRun(c, ops[..|ops| - 1]);
      UserRunAppends(c, ops[..|ops| - 1]);
      match ops[|ops| - 1]
      case UserSend(data, w) => SendAppends(d, data, w);
      case UserShutdown =>
      case UserRetrieve(_) =>
    }
  }

  /** So events reported before some user code runs are still within the mask after it. */
  lemma UserKeepsInterest(c: Conn, ops: seq<UserOp>)
    requires Inv(c) && c.Registered()
    ensures UserRun(c, ops).Registered() && c.chan.events.Within(UserRun(c, ops).chan.events)
  {
    UserRunKeeps(c, ops);
    UserRunAppends(c, ops);
  }

  lemma ActiveFrame(s: Server, t: Server)
    requires ActiveOk(s) && t.active == s.active
    requires forall l: nat, i: nat | l < |s.active| && i < |s.active[l]| :: EntryOk(t, l, s.active[l][i])
    ensures ActiveOk(t)
  {
  }

  /** A connection that is not registered is in no active list. */
  lemma ChangeUnregistered(s: Server, t: Server, id: nat)
    requires ActiveOk(s) && t.active == s.active
    requires id in s.links ==> !s.links[id].conn.Registered()
    requires forall other | other in s.links && other != id :: other in t.links && t.links[other] == s.links[other]
    ensures ActiveOk(t)
  {
    forall l: nat, i: nat | l < |s.active| && i < |s.active[l]|
      ensures EntryOk(t, l, s.active[l][i])
    {
      assert EntryOk(s, l, s.active[l][i]);
    }
    ActiveFrame(s, t);
  }

  /** After its own entry is taken off, a connection is in no active list. */
  lemma DispatchedOnce(s: Server, loop: nat, t: Server)
    requires ActiveOk(s) && loop < |s.active| && s.active[loop] != []
    requires t.active == s.active[loop := s.active[loop][1..]]
    requires forall other | other in s.links && other != s.active[loop][0].id ::
               other in t.links && t.links[other] == s.links[other]
    ensures ActiveOk(t)
  {
    var id := s.active[loop][0].id;
    assert EntryOk(s, loop, s.active[loop][0]);
    forall l: nat, i: nat | l < |t.active| && i < |t.active[l]|
      ensures EntryOk(t, l, t.active[l][i])
    {
      var j := if l == loop then i + 1 else i;
      assert t.active[l][i] == s.active[l][j];
      assert EntryOk(s, l, s.active[l][j]);
      assert s.active[l][j].id != id;
    }
    forall l: nat, i: nat, j: nat | l < |t.active| && i < j < |t.active[l]|
      ensures t.active[l][i].id != t.active[l][j].id
    {
      if l == loop {
        assert s.active[l][i + 1].id != s.active[l][j + 1].id;
      } else {
        assert s.active[l][i].id != s.active[l][j].id;
      }
    }
  }

  // ---- Steps ----

  lemma EraseKeepsNames(s: Server, t: Server, id: nat)
    requires NamesOk(s) && id in s.listed && t.name == s.name && t.ipPort == s.ipPort
    requires t.connections == s.connections - {s.NameOf(id)} && t.listed == s.listed - {id}
    requires t.accepted == s.accepted && t.erased == s.erased + 1
    ensures NamesOk(t) && s.NameOf(id) in s.connections
  {
    assert Namer(s.name, s.ipPort)(id) == s.NameOf(id);
    KeyedErase(s.connections, s.listed, Namer(s.name, s.ipPort), id);
  }

  lemma ListedBelowNext(s: Server)
    requires LinksOk(s)
    ensures forall id | id in s.listed :: id < s.nextId
  {
    forall id | id in s.listed
      ensures id < s.nextId
    {
      assert LinkOk(s, id);
    }
  }

  lemma LinkIdsBelowNext(s: Server)
    requires LinksOk(s)
    ensures forall id | id in s.links :: id < s.nextId
  {
    forall id | id in s.links
      ensures id < s.nextId
    {
      assert LinkOk(s, id);
    }
  }

  /** Inserting never overwrites: the new name is not in the map. */
  lemma AcceptKeepsNames(s: Server, t: Server)
    requires Shape(s) && LinksOk(s) && NamesOk(s) && t.name == s.name && t.ipPort == s.ipPort
    requires t.connections == s.connections[s.NameOf(s.nextId) := s.nextId] && t.listed == s.listed + {s.nextId}
    requires t.accepted == s.accepted + 1 && t.erased == s.erased
    ensures NamesOk(t) && s.NameOf(s.nextId) !in s.connections
  {
    ListedBelowNext(s);
    NextNameIsNew(s);
    assert Namer(s.name, s.ipPort)(s.nextId) == s.NameOf(s.nextId);
    KeyedInsert(s.connections, s.listed, Namer(s.name, s.ipPort), s.nextId);
  }

  lemma AcceptKeepsShape(s: Server, fd: int, wc: bool, hw: bool, ops: seq<UserOp>)
    requires Shape(s) && s.nextId < INT_MAX
    ensures PickLoop(s) < |s.queues| && Shape(NewConnection(s, fd, wc, hw, ops))
    ensures PickLoop(s) == LoopFor(s.numLoops, s.nextId)
  {
    if s.numLoops != 0 {
      ModSuccessor(s.nextId - 1, s.numLoops);
    }
  }

  /** What accepting does to the table of connections, whichever way it is established. */
  lemma AcceptAdds(s: Server, fd: int, wc: bool, hw: bool, ops: seq<UserOp>)
    requires PickLoop(s) < |s.queues|
    requires ConnectEstablished(NewConn(fd, wc, hw), ops).chan.fd == fd
    ensures var t := NewConnection(s, fd, wc, hw, ops);
            var conn := if PickLoop(s) == BASE_LOOP
                        then ConnectEstablished(NewConn(fd, wc, hw), ops) else NewConn(fd, wc, hw);
            && t.links == s.links[s.nextId := Link(conn, PickLoop(s), false)] && conn.chan.fd == fd
            && t.listed == s.listed + {s.nextId} && t.nextId == s.nextId + 1 && t.numLoops == s.numLoops
  {
  }

  lemma AddKeepsLinks(s: Server, t: Server, link: Link)
    requires LinksOk(s) && 1 <= s.nextId
    requires t.links == s.links[s.nextId := link] && t.listed == s.listed + {s.nextId}
    requires t.nextId == s.nextId + 1 && t.numLoops == s.numLoops
    requires link.loop == LoopFor(s.numLoops, s.nextId) && !link.finished && !IsClosed(link.conn)
    requires link.loop == BASE_LOOP ==> !IsFresh(link.conn)
    requires forall id | id in s.links :: s.links[id].conn.chan.fd != link.conn.chan.fd
    ensures LinksOk(t)
  {
    LinkIdsBelowNext(s);
    forall other | other in t.links
      ensures LinkOk(t, other)
    {
      if other != s.nextId {
        assert LinkOk(s, other);
      }
    }
  }

  lemma AcceptKeepsLinks(s: Server, fd: int, wc: bool, hw: bool, ops: seq<UserOp>)
    requires LinksOk(s) && MayStep(s, Accept(fd, wc, hw, ops)) && 1 <= s.nextId
    requires PickLoop(s) == LoopFor(s.numLoops, s.nextId) && PickLoop(s) < |s.queues|
    requires IsOpen(ConnectEstablished(NewConn(fd, wc, hw), ops))
    requires ConnectEstablished(NewConn(fd, wc, hw), ops).chan.fd == fd
    ensures LinksOk(NewConnection(s, fd, wc, hw, ops))
  {
    AcceptAdds(s, fd, wc, hw, ops);
    var t := NewConnection(s, fd, wc, hw, ops);
    AddKeepsLinks(s, t, t.links[s.nextId]);
  }

  lemma AcceptQueues(s: Server, fd: int, wc: bool, hw: bool, ops: seq<UserOp>, l: nat, f: Functor)
    requires PickLoop(s) < |s.queues| && l < |s.queues|
    ensures var t := NewConnection(s, fd, wc, hw, ops);
            && |t.queues| == |s.queues|
            && Queued(t, l, f) == Queued(s, l, f)
                 + (if PickLoop(s) != BASE_LOOP && l == PickLoop(s) && f == Established(s.nextId) then 1 else 0)
  {
  }

  lemma AcceptDue(s: Server, fd: int, wc: bool, hw: bool, ops: seq<UserOp>, l: nat, f: Functor)
    requires PickLoop(s) < |s.queues| && s.nextId !in s.links
    requires IsOpen(ConnectEstablished(NewConn(fd, wc, hw), ops))
    requires ConnectEstablished(NewConn(fd, wc, hw), ops).chan.fd == fd
    ensures Due(NewConnection(s, fd, wc, hw, ops), l, f) == Due(s, l, f)
            + (if PickLoop(s) != BASE_LOOP && l == PickLoop(s) && f == Established(s.nextId) then 1 else 0)
  {
    AcceptAdds(s, fd, wc, hw, ops);
  }

  lemma AcceptKeepsQueues(s: Server, fd: int, wc: bool, hw: bool, ops: seq<UserOp>)
    requires QueuesOk(s) && PickLoop(s) < |s.queues| && s.nextId !in s.links
    requires IsOpen(ConnectEstablished(NewConn(fd, wc, hw), ops))
    requires ConnectEstablished(NewConn(fd, wc, hw), ops).chan.fd == fd
    ensures QueuesOk(NewConnection(s, fd, wc, hw, ops))
  {
    var t := NewConnection(s, fd, wc, hw, ops);
    assert |t.queues| == |s.queues|;
    forall l: nat, f: Functor | l < |t.queues|
      ensures Queued(t, l, f) == Due(t, l, f)
    {
      AcceptQueues(s, fd, wc, hw, ops, l, f);
      AcceptDue(s, fd, wc, hw, ops, l, f);
      assert Queued(s, l, f) == Due(s, l, f);
    }
  }

  lemma AcceptKeepsConns(s: Server, fd: int, wc: bool, hw: bool, ops: seq<UserOp>)
    requires ConnsOk(s) && PickLoop(s) < |s.queues|
    ensures ConnsOk(NewConnection(s, fd, wc, hw, ops))
    ensures IsOpen(ConnectEstablished(NewConn(fd, wc, hw), ops))
    ensures ConnectEstablished(NewConn(fd, wc, hw), ops).chan.fd == fd
  {
    NewConnInv(fd, wc, hw);
    EstablishKeeps(NewConn(fd, wc, hw), ops);
  }

  lemma AcceptKeepsRest(s: Server, fd: int, wc: bool, hw: bool, ops: seq<UserOp>)
    requires Shape(s) && LinksOk(s) && NamesOk(s) && ActiveOk(s) && PickLoop(s) < |s.queues|
    ensures var t := NewConnection(s, fd, wc, hw, ops);
            NamesOk(t) && ActiveOk(t)
    ensures s.NameOf(s.nextId) !in s.connections
  {
    var t := NewConnection(s, fd, wc, hw, ops);
    AcceptKeepsNames(s, t);
    LinkIdsBelowNext(s);
    ChangeUnregistered(s, t, s.nextId);
  }

  lemma AcceptKeeps(s: Server, fd: int, wc: bool, hw: bool, ops: seq<UserOp>)
    requires ServerInv(s) && MayStep(s, Accept(fd, wc, hw, ops))
    ensures PickLoop(s) < |s.queues| && ServerInv(NewConnection(s, fd, wc, hw, ops))
  {
    AcceptKeepsShape(s, fd, wc, hw, ops);
    AcceptKeepsConns(s, fd, wc, hw, ops);
    AcceptKeepsLinks(s, fd, wc, hw, ops);
    LinkIdsBelowNext(s);
    AcceptKeepsQueues(s, fd, wc, hw, ops);
    AcceptKeepsRest(s, fd, wc, hw, ops);
  }

  lemma PollKeepsActive(s: Server, loop: LoopId, ready: seq<ActiveChannel>)
    requires ActiveOk(s) && loop < |s.active| && Reportable(s, loop, ready)
    ensures ActiveOk(s.(active := s.active[loop := ready]))
  {
    var t := s.(active := s.active[loop := ready]);
    forall l | 0 <= l < |t.active|
      ensures forall i | 0 <= i < |t.active[l]| :: EntryOk(t, l, t.active[l][i])
      ensures forall i, j | 0 <= i < j < |t.active[l]| :: t.active[l][i].id != t.active[l][j].id
    {
      if l != loop {
        forall i | 0 <= i < |t.active[l]|
          ensures EntryOk(t, l, t.active[l][i])
        {
          assert EntryOk(s, l, s.active[l][i]);
        }
      }
    }
  }

  lemma PollKeeps(s: Server, loop: LoopId, ready: seq<ActiveChannel>)
    requires ServerInv(s) && MayStep(s, PollLoop(loop, ready))
    ensures ServerInv(s.(active := s.active[loop := ready]))
  {
    PollKeepsActive(s, loop, ready);
    RestIgnoresActive(s, s.(active := s.active[loop := ready]));
  }

  /** A dispatch closes, and asks for removal, at most once and only from open. */
  lemma AsksExactlyWhenClosing(c: Conn, revents: Events, env: Env)
    requires Inv(c) && c.Registered() && revents.Within(c.chan.events) && Benign(revents, env.read)
    ensures var d := HandleEvent(c, revents, env);
            && Inv(d) && IsOpen(c) && d.chan.fd == c.chan.fd
            && (AskedRemoval(c, d) <==> IsClosed(d)) && (!IsClosed(d) ==> IsOpen(d))
  {
    EventKeeps(c, revents, env);
    RegisteredMeansOpen(c);
    RequestMeansGone(c.calls);
    RequestMeansGone(HandleEvent(c, revents, env).calls);
  }

  /** The lists of active channels play no part in the other invariants. */
  lemma LinksIgnoreActive(s: Server, t: Server)
    requires t == s.(active := t.active) && LinksOk(s)
    ensures LinksOk(t)
  {
    forall id | id in t.links
      ensures LinkOk(t, id)
    {
      assert LinkOk(s, id);
    }
  }

  lemma QueuesIgnoreActive(s: Server, t: Server)
    requires t == s.(active := t.active) && QueuesOk(s)
    ensures QueuesOk(t)
  {
    forall l: nat, f: Functor | l < |t.queues|
      ensures Queued(t, l, f) == Due(t, l, f)
    {
      assert Queued(s, l, f) == Due(s, l, f);
    }
  }

  /** The state after a dispatch, before its entry is taken off the list. */
  function Dispatched(s: Server, id: nat, d: Conn): Server
    requires id in s.links && s.links[id].loop < |s.queues|
  {
    if AskedRemoval(s.links[id].conn, d) then RemoveConnection(SetConn(s, id, d), id) else SetConn(s, id, d)
  }

  lemma DispatchedLife(s: Server, id: nat, d: Conn)
    requires Shape(s) && LinksOk(s) && QueuesOk(s) && id in s.links && s.links[id].loop < |s.queues|
    requires IsOpen(s.links[id].conn) && d.chan.fd == s.links[id].conn.chan.fd
    requires AskedRemoval(s.links[id].conn, d) <==> IsClosed(d)
    requires !IsClosed(d) ==> IsOpen(d)
    ensures LinksOk(Dispatched(s, id, d)) && QueuesOk(Dispatched(s, id, d))
  {
    if IsClosed(d) {
      if s.links[id].loop == BASE_LOOP {
        CloseInline(s, id, d);
      } else {
        CloseQueued(s, id, d);
      }
    } else {
      SamePhaseKeeps(s, id, d);
    }
  }

  lemma DispatchedNames(s: Server, id: nat, d: Conn)
    requires NamesOk(s) && id in s.listed && id in s.links && s.links[id].loop < |s.queues|
    ensures NamesOk(Dispatched(s, id, d))
  {
    if AskedRemoval(s.links[id].conn, d) && s.links[id].loop == BASE_LOOP {
      assert Namer(s.name, s.ipPort)(id) in s.connections;
      EraseKeepsNames(s, Dispatched(s, id, d), id);
    }
  }

  lemma DispatchedFrame(s: Server, id: nat, d: Conn)
    requires id in s.links && s.links[id].loop < |s.queues| && d.chan.fd == s.links[id].conn.chan.fd
    ensures var t := Dispatched(s, id, d);
            OnlyFor(s, t, id) && t.active == s.active && t.links[id].conn == d && (Shape(s) ==> Shape(t))
  {
  }

  lemma OpenIsListed(s: Server, loop: LoopId)
    requires Shape(s) && LinksOk(s) && ConnsOk(s) && ActiveOk(s) && loop < |s.active| && s.active[loop] != []
    ensures var e := s.active[loop][0];
            && Alive(s, e.id) && e.id in s.listed && IsOpen(s.links[e.id].conn)
            && s.links[e.id].conn.Registered() && e.revents.Within(s.links[e.id].conn.chan.events)
  {
    var e := s.active[loop][0];
    assert EntryOk(s, loop, e) && LinkOk(s, e.id);
    RegisteredMeansOpen(s.links[e.id].conn);
  }

  lemma DispatchKeeps(s: Server, loop: LoopId, env: Env)
    requires ServerInv(s) && MayStep(s, DispatchNext(loop, env))
    ensures Safe(s, DispatchNext(loop, env)) && ServerInv(TakeStep(s, DispatchNext(loop, env)))
  {
    OpenIsListed(s, loop);
    var e := s.active[loop][0];
    var c := s.links[e.id].conn;
    var d := HandleEvent(c, e.revents, env);
    AsksExactlyWhenClosing(c, e.revents, env);
    DispatchedLife(s, e.id, d);
    DispatchedNames(s, e.id, d);
    DispatchedFrame(s, e.id, d);
    var v := Dispatched(s, e.id, d);
    ConnsFrame(s, v, e.id);
    ActiveTaken(s, loop, e, env);
    TakenOffActive(s, loop, v);
    RestIgnoresActive(v, v.(active := s.active[loop := s.active[loop][1..]]));
  }

  lemma TakenOffActive(s: Server, loop: LoopId, v: Server)
    requires ActiveOk(s) && loop < |s.active| && s.active[loop] != [] && v.active == s.active
    requires OnlyFor(s, v, s.active[loop][0].id)
    ensures ActiveOk(v.(active := s.active[loop := s.active[loop][1..]]))
  {
    DispatchedOnce(s, loop, v.(active := s.active[loop := s.active[loop][1..]]));
  }

  lemma RestIgnoresActive(v: Server, t: Server)
    requires t == v.(active := t.active) && |t.active| == |v.active|
    requires Shape(v) && LinksOk(v) && ConnsOk(v) && NamesOk(v) && QueuesOk(v)
    ensures Shape(t) && LinksOk(t) && ConnsOk(t) && NamesOk(t) && QueuesOk(t)
  {
    LinksIgnoreActive(v, t);
    QueuesIgnoreActive(v, t);
    NamesIgnoreActive(v, t);
  }

  lemma NamesIgnoreActive(s: Server, t: Server)
    requires t == s.(active := t.active) && |t.active| == |s.active| && Shape(s) && ConnsOk(s) && NamesOk(s)
    ensures Shape(t) && ConnsOk(t) && NamesOk(t)
  {
  }

  lemma ActiveTaken(s: Server, loop: LoopId, e: ActiveChannel, env: Env)
    requires loop < |s.active| && s.active[loop] != [] && e == s.active[loop][0] && Alive(s, e.id)
    ensures TakeStep(s, DispatchNext(loop, env))
         == Dispatched(s, e.id, HandleEvent(s.links[e.id].conn, e.revents, env))
              .(active := s.active[loop := s.active[loop][1..]])
  {
    var d := HandleEvent(s.links[e.id].conn, e.revents, env);
    RemovalIgnoresActive(SetConn(s, e.id, d), e.id, s.active[loop := s.active[loop][1..]]);
  }

  lemma RemovalIgnoresActive(s: Server, id: nat, active: seq<seq<ActiveChannel>>)
    requires Alive(s, id)
    ensures RemoveConnection(s.(active := active), id) == RemoveConnection(s, id).(active := active)
  {
  }

  lemma HeadIsAlive(s: Server, loop: LoopId)
    requires Shape(s) && LinksOk(s) && QueuesOk(s) && loop < |s.queues| && s.queues[loop] != []
    ensures Alive(s, s.queues[loop][0].id)
  {
    HeadIsDue(s, loop);
    assert LinkOk(s, s.queues[loop][0].id);
  }

  /** The three functors are only run in the phase they are meant for. */
  lemma HeadPhase(s: Server, loop: LoopId)
    requires LinksOk(s) && ConnsOk(s) && QueuesOk(s) && loop < |s.queues| && s.queues[loop] != []
    ensures var f := s.queues[loop][0];
            && f.id in s.links && !s.links[f.id].conn.Registered()
            && (f.Established? ==> IsFresh(s.links[f.id].conn))
            && (f.RemoveInLoop? ==> IsClosed(s.links[f.id].conn) && f.id in s.listed)
            && (f.Destroyed? ==> IsClosed(s.links[f.id].conn))
  {
    HeadIsDue(s, loop);
    RegisteredMeansOpen(s.links[s.queues[loop][0].id].conn);
  }

  /** The invariants that the functors do not touch follow from the change being local. */
  lemma LocalChange(s: Server, t: Server, id: nat)
    requires Shape(s) && ConnsOk(s) && ActiveOk(s) && OnlyFor(s, t, id)
    requires t.active == s.active && t.next == s.next && t.ipPort == s.ipPort
    requires !s.links[id].conn.Registered() && Inv(t.links[id].conn)
    ensures Shape(t) && ConnsOk(t) && ActiveOk(t)
  {
    ShapeFrame(s, t, id);
    ConnsFrame(s, t, id);
    ActiveFrameLocal(s, t, id);
  }

  lemma ShapeFrame(s: Server, t: Server, id: nat)
    requires Shape(s) && OnlyFor(s, t, id) && |t.active| == |s.active| && t.next == s.next && t.ipPort == s.ipPort
    ensures Shape(t)
  {
  }

  lemma ActiveFrameLocal(s: Server, t: Server, id: nat)
    requires ActiveOk(s) && OnlyFor(s, t, id) && t.active == s.active && !s.links[id].conn.Registered()
    ensures ActiveOk(t)
  {
    ChangeUnregistered(s, t, id);
  }

  lemma EstablishIsLocal(s: Server, loop: LoopId, id: nat, d: Conn)
    requires loop < |s.queues| && s.queues[loop] != [] && Alive(s, id) && d.chan.fd == s.links[id].conn.chan.fd
    ensures var t := SetConn(Dequeue(s, loop), id, d);
            && OnlyFor(s, t, id) && t.links[id].conn == d && t.active == s.active && t.next == s.next
            && t.ipPort == s.ipPort && (NamesOk(s) ==> NamesOk(t))
  {
  }

  lemma RunEstablished(s: Server, loop: LoopId, ops: seq<UserOp>)
    requires ServerInv(s) && MayStep(s, RunNext(loop, ops)) && s.queues[loop][0].Established?
    requires Alive(s, s.queues[loop][0].id)
    ensures ServerInv(TakeStep(s, RunNext(loop, ops)))
  {
    HeadPhase(s, loop);
    var id := s.queues[loop][0].id;
    var c := s.links[id].conn;
    EstablishKeeps(c, ops);
    EstablishKeepsLife(s, loop, id, ConnectEstablished(c, ops));
    EstablishIsLocal(s, loop, id, ConnectEstablished(c, ops));
    LocalChange(s, SetConn(Dequeue(s, loop), id, ConnectEstablished(c, ops)), id);
  }

  lemma RemoveKeepsNames(s: Server, loop: LoopId, id: nat)
    requires NamesOk(s) && loop < |s.queues| && s.queues[loop] != [] && id in s.listed && Alive(s, id)
    ensures NamesOk(RemoveConnectionInLoop(Dequeue(s, loop), id))
    ensures s.NameOf(id) in s.connections && s.connections[s.NameOf(id)] == id
  {
    assert Namer(s.name, s.ipPort)(id) in s.connections;
    assert Namer(s.name, s.ipPort)(id) == s.NameOf(id);
    EraseKeepsNames(s, RemoveConnectionInLoop(Dequeue(s, loop), id), id);
  }

  lemma RemoveIsLocal(s: Server, loop: LoopId, id: nat)
    requires loop < |s.queues| && s.queues[loop] != [] && Alive(s, id)
    ensures var t := RemoveConnectionInLoop(Dequeue(s, loop), id);
            OnlyFor(s, t, id) && t.links == s.links && t.active == s.active && t.next == s.next && t.ipPort == s.ipPort
  {
  }

  /** Erasing finds the entry, takes that entry out and no other, and queues the
      destruction last on the connection's own loop. */
  lemma RemoveEffect(s: Server, loop: LoopId, id: nat)
    requires loop < |s.queues| && s.queues[loop] != [] && Alive(s, id) && s.NameOf(id) in s.connections
    ensures var t, u := RemoveConnectionInLoop(Dequeue(s, loop), id), Dequeue(s, loop);
            && t.connections == s.connections - {s.NameOf(id)} && t.erased == s.erased + 1
            && t.queues == u.queues[s.links[id].loop := u.queues[s.links[id].loop] + [Destroyed(id)]]
  {
  }

  lemma RunRemove(s: Server, loop: LoopId, ops: seq<UserOp>)
    requires ServerInv(s) && MayStep(s, RunNext(loop, ops)) && s.queues[loop][0].RemoveInLoop?
    requires Alive(s, s.queues[loop][0].id)
    ensures var id, t, u := s.queues[loop][0].id, TakeStep(s, RunNext(loop, ops)), Dequeue(s, loop);
            && ServerInv(t) && s.NameOf(id) in s.connections && s.connections[s.NameOf(id)] == id
            && t.connections == s.connections - {s.NameOf(id)} && t.erased == s.erased + 1
            && t.queues == u.queues[s.links[id].loop := u.queues[s.links[id].loop] + [Destroyed(id)]]
  {
    HeadPhase(s, loop);
    var id := s.queues[loop][0].id;
    RemoveKeepsLife(s, loop, id);
    RemoveKeepsNames(s, loop, id);
    RemoveIsLocal(s, loop, id);
    LocalChange(s, RemoveConnectionInLoop(Dequeue(s, loop), id), id);
    RemoveEffect(s, loop, id);
  }

  function Finish(s: Server, id: nat): Server
    requires id in s.links
  {
    s.(links := s.links[id := s.links[id].(finished := true)])
  }

  lemma FinishIsLocal(s: Server, loop: LoopId, id: nat)
    requires loop < |s.queues| && s.queues[loop] != [] && Alive(s, id)
    ensures var t := Finish(Dequeue(s, loop), id);
            && OnlyFor(s, t, id) && t.links[id].conn == s.links[id].conn && t.active == s.active && t.next == s.next
            && t.ipPort == s.ipPort && (NamesOk(s) ==> NamesOk(t))
  {
  }

  /** connectDestroyed is only ever run on a closed connection, which it leaves alone. */
  lemma DestroyedFinishes(s: Server, loop: LoopId, ops: seq<UserOp>)
    requires LinksOk(s) && ConnsOk(s) && QueuesOk(s) && Safe(s, RunNext(loop, ops)) && s.queues[loop][0].Destroyed?
    ensures TakeStep(s, RunNext(loop, ops)) == Finish(Dequeue(s, loop), s.queues[loop][0].id)
  {
    HeadPhase(s, loop);
    DestroyAfterCloseIsNoOp(s.links[s.queues[loop][0].id].conn, ops);
  }

  lemma RunDestroyed(s: Server, loop: LoopId, ops: seq<UserOp>)
    requires ServerInv(s) && MayStep(s, RunNext(loop, ops)) && s.queues[loop][0].Destroyed?
    requires Alive(s, s.queues[loop][0].id)
    ensures ServerInv(TakeStep(s, RunNext(loop, ops)))
    ensures var id := s.queues[loop][0].id;
            TakeStep(s, RunNext(loop, ops)).links[id].conn == s.links[id].conn
  {
    HeadPhase(s, loop);
    var id := s.queues[loop][0].id;
    DestroyedFinishes(s, loop, ops);
    DestroyKeepsLife(s, loop, id);
    FinishIsLocal(s, loop, id);
    LocalChange(s, Finish(Dequeue(s, loop), id), id);
  }

  lemma UserKeepsActive(s: Server, id: nat, ops: seq<UserOp>)
    requires ActiveOk(s) && ConnsOk(s) && id in s.links
    ensures ActiveOk(SetConn(s, id, UserRun(s.links[id].conn, ops)))
  {
    var t := SetConn(s, id, UserRun(s.links[id].conn, ops));
    forall l: nat, i: nat | l < |s.active| && i < |s.active[l]|
      ensures EntryOk(t, l, s.active[l][i])
    {
      assert EntryOk(s, l, s.active[l][i]);
      if s.active[l][i].id == id {
        UserKeepsInterest(s.links[id].conn, ops);
      }
    }
    ActiveFrame(s, t);
  }

  lemma UserIsLocal(s: Server, id: nat, d: Conn)
    requires id in s.links && d.chan.fd == s.links[id].conn.chan.fd && Inv(d)
    ensures var t := SetConn(s, id, d);
            && OnlyFor(s, t, id) && (Shape(s) ==> Shape(t)) && (NamesOk(s) ==> NamesOk(t))
            && (ConnsOk(s) ==> ConnsOk(t))
  {
  }

  lemma UserKeepsLife(s: Server, id: nat, ops: seq<UserOp>)
    requires LinksOk(s) && QueuesOk(s) && ConnsOk(s) && id in s.links
    ensures var d := UserRun(s.links[id].conn, ops);
            LinksOk(SetConn(s, id, d)) && QueuesOk(SetConn(s, id, d)) && Inv(d) && d.chan.fd == s.links[id].conn.chan.fd
  {
    UserRunKeeps(s.links[id].conn, ops);
    SamePhaseKeeps(s, id, UserRun(s.links[id].conn, ops));
  }

  lemma UserKeeps(s: Server, id: nat, ops: seq<UserOp>)
    requires Shape(s) && LinksOk(s) && ConnsOk(s) && NamesOk(s) && QueuesOk(s) && ActiveOk(s) && id in s.links
    ensures var t := SetConn(s, id, UserRun(s.links[id].conn, ops));
            Shape(t) && LinksOk(t) && ConnsOk(t) && NamesOk(t) && QueuesOk(t) && ActiveOk(t)
  {
    UserKeepsLife(s, id, ops);
    UserKeepsRest(s, id, ops);
    UserKeepsActive(s, id, ops);
  }

  lemma UserKeepsRest(s: Server, id: nat, ops: seq<UserOp>)
    requires Shape(s) && ConnsOk(s) && NamesOk(s) && id in s.links
    ensures var t := SetConn(s, id, UserRun(s.links[id].conn, ops));
            Shape(t) && ConnsOk(t) && NamesOk(t)
  {
    UserRunKeeps(s.links[id].conn, ops);
    UserIsLocal(s, id, UserRun(s.links[id].conn, ops));
  }

  lemma LinkIsAlive(s: Server, id: nat)
    requires Shape(s) && LinksOk(s) && id in s.links
    ensures Alive(s, id)
  {
    assert LinkOk(s, id);
  }

  /** Only a connection that has left the map is freed, and by then it is deregistered. */
  lemma FreedIsUnlisted(s: Server, id: nat)
    requires LinksOk(s) && ConnsOk(s) && NamesOk(s) && id in s.links && Unreferenced(s, id)
    ensures id !in s.listed && IsClosed(s.links[id].conn) && !s.links[id].conn.Registered()
  {
    assert LinkOk(s, id);
    RegisteredMeansOpen(s.links[id].conn);
    assert id in s.listed ==> Namer(s.name, s.ipPort)(id) in s.connections;
  }

  lemma UnreferencedIsNotDue(s: Server, id: nat, l: nat, f: Functor)
    requires Unreferenced(s, id) && l < |s.queues| && f.id == id
    ensures Queued(s, l, f) == 0
  {
    assert forall k | 0 <= k < |s.queues[l]| :: s.queues[l][k] != f;
    assert f !in s.queues[l];
  }

  lemma ReleaseKeepsLinks(s: Server, id: nat)
    requires LinksOk(s) && id in s.links && id !in s.listed
    ensures LinksOk(s.(links := s.links - {id}))
  {
    var t := s.(links := s.links - {id});
    forall other | other in t.links
      ensures LinkOk(t, other)
    {
      assert LinkOk(s, other);
    }
  }

  lemma ReleaseKeepsQueues(s: Server, id: nat)
    requires QueuesOk(s) && id in s.links && Unreferenced(s, id)
    ensures QueuesOk(s.(links := s.links - {id}))
  {
    var t := s.(links := s.links - {id});
    forall l: nat, f: Functor | l < |t.queues|
      ensures Queued(t, l, f) == Due(t, l, f)
    {
      if f.id == id {
        UnreferencedIsNotDue(s, id, l, f);
      }
      assert Queued(s, l, f) == Due(s, l, f);
    }
  }

  lemma ReleaseKeepsRest(s: Server, id: nat)
    requires Shape(s) && ConnsOk(s) && NamesOk(s) && ActiveOk(s) && id in s.links && !s.links[id].conn.Registered()
    ensures var t := s.(links := s.links - {id});
            Shape(t) && ConnsOk(t) && NamesOk(t) && ActiveOk(t)
  {
    ReleaseKeepsNames(s, id);
    ChangeUnregistered(s, s.(links := s.links - {id}), id);
  }

  lemma ReleaseKeepsNames(s: Server, id: nat)
    requires Shape(s) && ConnsOk(s) && NamesOk(s) && id in s.links
    ensures var t := s.(links := s.links - {id});
            Shape(t) && ConnsOk(t) && NamesOk(t)
  {
  }

  lemma ReleaseKeeps(s: Server, id: nat)
    requires ServerInv(s) && MayStep(s, Release(id))
    ensures ServerInv(TakeStep(s, Release(id)))
  {
    FreedIsUnlisted(s, id);
    ReleaseKeepsLinks(s, id);
    ReleaseKeepsQueues(s, id);
    ReleaseKeepsRest(s, id);
  }

  lemma ServerStepKeeps(s: Server, step: ServerStep)
    requires ServerInv(s) && MayStep(s, step)
    ensures Safe(s, step) && ServerInv(TakeStep(s, step))
  {
    match step
    case Accept(fd, wc, hw, ops) => AcceptKeeps(s, fd, wc, hw, ops);
    case PollLoop(loop, ready) => PollKeeps(s, loop, ready);
    case DispatchNext(loop, env) => DispatchKeeps(s, loop, env);
    case RunNext(loop, ops) =>
      HeadIsAlive(s, loop);
      match s.queues[loop][0] {
        case Established(_) => RunEstablished(s, loop, ops);
        case RemoveInLoop(_) => RunRemove(s, loop, ops);
        case Destroyed(_) => RunDestroyed(s, loop, ops);
      }
    case UserCode(id, ops) =>
      LinkIsAlive(s, id);
      UserKeeps(s, id, ops);
    case Release(id) => ReleaseKeeps(s, id);
  }

  lemma {:induction false} ServerRunKeeps(states: seq<Server>, steps: seq<ServerStep>, i: nat)
    requires IsServerRun(states, steps) && i < |states|
    ensures ServerInv(states[i])
  {
    if i == 0 {
      NewServerInv(states[0].name, states[0].ipPort, states[0].numLoops);
    } else {
      ServerRunKeeps(states, steps, i - 1);
      ServerStepKeeps(states[i - 1], steps[i - 1]);
      assert states[i - 1 + 1] == TakeStep(states[i - 1], steps[i - 1]);
    }
  }

  // ---- Over every interleaving ----

  /** No dispatch and no functor ever reaches a freed connection: an object is only freed
      once every list and queue is done with it, although polled lists hold bare pointers. */
  lemma NeverDangling(states: seq<Server>, steps: seq<ServerStep>, i: nat)
    requires IsServerRun(states, steps) && i < |steps|
    ensures Safe(states[i], steps[i]) && states[i + 1] == TakeStep(states[i], steps[i])
  {
    ServerRunKeeps(states, steps, i);
    ServerStepKeeps(states[i], steps[i]);
  }

  /** A connection whose channel is in an epoll set is in the map under its own name. */
  lemma RegisteredIsReferenced(states: seq<Server>, steps: seq<ServerStep>, i: nat, id: nat)
    requires IsServerRun(states, steps) && i < |states|
    requires id in states[i].links && states[i].links[id].conn.Registered()
    ensures var s := states[i];
            s.NameOf(id) in s.connections && s.connections[s.NameOf(id)] == id
  {
    ServerRunKeeps(states, steps, i);
    var s := states[i];
    assert LinkOk(s, id);
    RegisteredMeansOpen(s.links[id].conn);
    assert Namer(s.name, s.ipPort)(id) == s.NameOf(id);
  }

  /** Each functor waits in exactly one queue exactly once, and only while its connection
      is in the phase it is meant for: established before any handler, removal between
      closing and erasing, destruction after erasing. */
  lemma FunctorsAreDueOnce(states: seq<Server>, steps: seq<ServerStep>, i: nat, l: nat, f: Functor)
    requires IsServerRun(states, steps) && i < |states| && l < |states[i].queues|
    ensures multiset(states[i].queues[l])[f] == Due(states[i], l, f) <= 1
  {
    ServerRunKeeps(states, steps, i);
    assert Queued(states[i], l, f) == Due(states[i], l, f);
  }

  /** connectDestroyed changes nothing when the loop runs it. */
  lemma DestroyedIsNoOp(states: seq<Server>, steps: seq<ServerStep>, i: nat, loop: LoopId, ops: seq<UserOp>)
    requires IsServerRun(states, steps) && i < |steps| && steps[i] == RunNext(loop, ops)
    requires states[i].queues[loop][0].Destroyed?
    ensures var id := states[i].queues[loop][0].id;
            && id in states[i].links && id in states[i + 1].links
            && states[i + 1].links[id].conn == states[i].links[id].conn
  {
    NeverDangling(states, steps, i);
    ServerRunKeeps(states, steps, i);
    RunDestroyed(states[i], loop, ops);
  }

  /** The step runs removeConnectionInLoop: as a functor on the base loop, or at once in a
      dispatch that closes a connection of the base loop. */
  predicate RunsRemoval(s: Server, step: ServerStep)
    requires Safe(s, step)
  {
    match step
    case RunNext(loop, _) => s.queues[loop][0].RemoveInLoop?
    case DispatchNext(loop, env) =>
      var e := s.active[loop][0];
      var c := s.links[e.id].conn;
      s.links[e.id].loop == BASE_LOOP && AskedRemoval(c, HandleEvent(c, e.revents, env))
    case _ => false
  }

  /** The entry that a removal is about. */
  function RemovedName(s: Server, step: ServerStep): string
    requires Safe(s, step) && RunsRemoval(s, step)
  {
    match step
    case RunNext(loop, _) => s.NameOf(s.queues[loop][0].id)
    case DispatchNext(loop, _) => s.NameOf(s.active[loop][0].id)
  }

  lemma DispatchErases(s: Server, loop: LoopId, env: Env)
    requires ServerInv(s) && MayStep(s, DispatchNext(loop, env)) && Safe(s, DispatchNext(loop, env))
    ensures var step := DispatchNext(loop, env);
            && (RunsRemoval(s, step) ==> RemovedName(s, step) in s.connections)
            && TakeStep(s, step).erased == s.erased + (if RunsRemoval(s, step) then 1 else 0)
            && TakeStep(s, step).accepted == s.accepted
  {
    OpenIsListed(s, loop);
    var e := s.active[loop][0];
    assert Namer(s.name, s.ipPort)(e.id) == s.NameOf(e.id);
    ActiveTaken(s, loop, e, env);
  }

  /** Every removal finds its entry, so `erased` counts the removals. */
  lemma StepCounts(s: Server, step: ServerStep)
    requires ServerInv(s) && MayStep(s, step) && Safe(s, step)
    ensures RunsRemoval(s, step) ==> RemovedName(s, step) in s.connections
    ensures TakeStep(s, step).erased == s.erased + (if RunsRemoval(s, step) then 1 else 0)
    ensures TakeStep(s, step).accepted == s.accepted + (if step.Accept? then 1 else 0)
  {
    match step
    case DispatchNext(loop, env) => DispatchErases(s, loop, env);
    case RunNext(loop, ops) =>
      if s.queues[loop][0].RemoveInLoop? {
        RunRemove(s, loop, ops);
      }
    case _ =>
  }

  ghost function Accepts(steps: seq<ServerStep>, i: nat): nat
    requires i <= |steps|
  {
    if i == 0 then 0 else Accepts(steps, i - 1) + (if steps[i - 1].Accept? then 1 else 0)
  }

  ghost function Removals(states: seq<Server>, steps: seq<ServerStep>, i: nat): nat
    requires IsServerRun(states, steps) && i <= |steps|
  {
    if i == 0 then 0 else
      NeverDangling(states, steps, i - 1);
      Removals(states, steps, i - 1) + (if RunsRemoval(states[i - 1], steps[i - 1]) then 1 else 0)
  }

  lemma {:induction false} RunCounts(states: seq<Server>, steps: seq<ServerStep>, i: nat)
    requires IsServerRun(states, steps) && i <= |steps|
    ensures states[i].accepted == Accepts(steps, i) && states[i].erased == Removals(states, steps, i)
  {
    if i > 0 {
      RunCounts(states, steps, i - 1);
      NeverDangling(states, steps, i - 1);
      ServerRunKeeps(states, steps, i - 1);
      StepCounts(states[i - 1], steps[i - 1]);
    }
  }

  /** Accepting never overwrites an entry and every removal finds the one it is about, so
      the size of the map is the connections accepted minus the removals run. */
  lemma MapCounts(states: seq<Server>, steps: seq<ServerStep>, i: nat)
    requires IsServerRun(states, steps) && i < |states|
    ensures |states[i].connections| == Accepts(steps, i) - Removals(states, steps, i)
    ensures i < |steps| && steps[i].Accept? ==> states[i].NameOf(states[i].nextId) !in states[i].connections
    ensures i < |steps| ==> Safe(states[i], steps[i])
    ensures i < |steps| && RunsRemoval(states[i], steps[i]) ==>
              RemovedName(states[i], steps[i]) in states[i].connections
  {
    ServerRunKeeps(states, steps, i);
    RunCounts(states, steps, i);
    if i < |steps| {
      var s := states[i];
      NeverDangling(states, steps, i);
      StepCounts(s, steps[i]);
      if steps[i].Accept? {
        AcceptKeepsShape(s, 0, false, false, []);
        AcceptKeepsRest(s, 0, false, false, []);
      }
    }
  }

  /** The k-th connection accepted lives on loop k modulo n (the base loop if n is 0). */
  lemma LoopsAreRoundRobin(states: seq<Server>, steps: seq<ServerStep>, i: nat, id: nat)
    requires IsServerRun(states, steps) && i < |states| && id in states[i].links
    ensures 1 <= id && states[i].links[id].loop == LoopFor(states[i].numLoops, id)
  {
    ServerRunKeeps(states, steps, i);
    assert LinkOk(states[i], id);
  }

  /** When every queue has run dry, the map holds exactly the open connections, and
      everything else still allocated has been destroyed and may be freed. */
  lemma QuietMeansSettled(states: seq<Server>, steps: seq<ServerStep>, i: nat, id: nat)
    requires IsServerRun(states, steps) && i < |states| && id in states[i].links
    requires forall l | 0 <= l < |states[i].queues| :: states[i].queues[l] == []
    ensures var s := states[i];
            && (s.links[id].conn.Registered() <==> s.NameOf(id) in s.connections)
            && (!s.links[id].conn.Registered() ==> s.links[id].finished && Unreferenced(s, id))
  {
    ServerRunKeeps(states, steps, i);
    QuietPhase(states[i], id);
    ListedIffNamed(states[i], id);
  }

  lemma QuietPhase(s: Server, id: nat)
    requires Shape(s) && LinksOk(s) && ConnsOk(s) && QueuesOk(s) && id in s.links
    requires forall l | 0 <= l < |s.queues| :: s.queues[l] == []
    ensures s.links[id].conn.Registered() <==> id in s.listed
    ensures !s.links[id].conn.Registered() ==> s.links[id].finished
  {
    var link := s.links[id];
    assert LinkOk(s, id);
    RegisteredMeansOpen(link.conn);
    assert Queued(s, BASE_LOOP, RemoveInLoop(id)) == Due(s, BASE_LOOP, RemoveInLoop(id));
    assert Queued(s, link.loop, Established(id)) == Due(s, link.loop, Established(id));
    assert Queued(s, link.loop, Destroyed(id)) == Due(s, link.loop, Destroyed(id));
  }

  lemma ListedIffNamed(s: Server, id: nat)
    requires Shape(s) && LinksOk(s) && NamesOk(s) && id in s.links
    ensures id in s.listed <==> s.NameOf(id) in s.connections
    ensures id !in s.listed ==> forall name | name in s.connections :: s.connections[name] != id
  {
    assert LinkOk(s, id);
    ListedBelowNext(s);
    assert Namer(s.name, s.ipPort)(id) == s.NameOf(id);
    if s.NameOf(id) in s.connections {
      NamesDistinct(s.name, s.ipPort, s.connections[s.NameOf(id)], id);
    }
  }

  // ---- Each connection of the server ----

  /** What a step does to one connection. */
  function ConnAfter(s: Server, step: ServerStep, id: nat): Conn
    requires Safe(s, step) && id in s.links
  {
    var c := s.links[id].conn;
    match step
    case DispatchNext(loop, env) =>
      if s.active[loop][0].id == id then HandleEvent(c, s.active[loop][0].revents, env) else c
    case RunNext(loop, ops) =>
      if s.queues[loop][0] == Established(id) then ConnectEstablished(c, ops)
      else if s.queues[loop][0] == Destroyed(id) then ConnectDestroyed(c, ops)
      else c
    case UserCode(other, ops) => if other == id then UserRun(c, ops) else c
    case _ => c
  }

  lemma RemovalKeepsLinks(s: Server, id: nat)
    requires Alive(s, id)
    ensures RemoveConnection(s, id).links == s.links && RemoveConnectionInLoop(s, id).links == s.links
  {
  }

  lemma DispatchIsConnAfter(s: Server, loop: LoopId, env: Env, id: nat)
    requires Safe(s, DispatchNext(loop, env)) && id in TakeStep(s, DispatchNext(loop, env)).links
    ensures id in s.links
    ensures TakeStep(s, DispatchNext(loop, env)).links[id].conn == ConnAfter(s, DispatchNext(loop, env), id)
  {
    var e := s.active[loop][0];
    ActiveTaken(s, loop, e, env);
    RemovalKeepsLinks(SetConn(s, e.id, HandleEvent(s.links[e.id].conn, e.revents, env)), e.id);
  }

  lemma RunIsConnAfter(s: Server, loop: LoopId, ops: seq<UserOp>, id: nat)
    requires Safe(s, RunNext(loop, ops)) && id in TakeStep(s, RunNext(loop, ops)).links
    ensures id in s.links
    ensures TakeStep(s, RunNext(loop, ops)).links[id].conn == ConnAfter(s, RunNext(loop, ops), id)
  {
    var f := s.queues[loop][0];
    RemovalKeepsLinks(Dequeue(s, loop), f.id);
  }

  lemma StepIsConnAfter(s: Server, step: ServerStep, id: nat)
    requires Safe(s, step) && id != s.nextId && id in TakeStep(s, step).links
    ensures id in s.links && TakeStep(s, step).links[id].conn == ConnAfter(s, step, id)
  {
    match step
    case DispatchNext(loop, env) => DispatchIsConnAfter(s, loop, env, id);
    case RunNext(loop, ops) => RunIsConnAfter(s, loop, ops, id);
    case _ =>
  }

  lemma StepNextId(s: Server, step: ServerStep)
    requires Safe(s, step)
    ensures s.nextId <= TakeStep(s, step).nextId
  {
  }

  lemma RunEvolves(s: Server, loop: LoopId, ops: seq<UserOp>, id: nat)
    requires LinksOk(s) && ConnsOk(s) && QueuesOk(s) && Safe(s, RunNext(loop, ops)) && id in s.links
    ensures Evolves(s.links[id].conn, ConnAfter(s, RunNext(loop, ops), id))
  {
    HeadPhase(s, loop);
    var c := s.links[id].conn;
    if s.queues[loop][0] == Established(id) {
      EstablishKeeps(c, ops);
    } else {
      DestroyKeeps(c, ops);
    }
  }

  lemma DispatchEvolves(s: Server, loop: LoopId, env: Env, id: nat)
    requires Shape(s) && LinksOk(s) && ConnsOk(s) && ActiveOk(s) && MayStep(s, DispatchNext(loop, env))
    requires Safe(s, DispatchNext(loop, env)) && id in s.links
    ensures Evolves(s.links[id].conn, ConnAfter(s, DispatchNext(loop, env), id))
  {
    OpenIsListed(s, loop);
    if s.active[loop][0].id == id {
      EventKeeps(s.links[id].conn, s.active[loop][0].revents, env);
    }
  }

  lemma ConnAfterEvolves(s: Server, step: ServerStep, id: nat)
    requires ServerInv(s) && MayStep(s, step) && Safe(s, step) && id in s.links
    ensures Evolves(s.links[id].conn, ConnAfter(s, step, id))
  {
    match step
    case DispatchNext(loop, env) => DispatchEvolves(s, loop, env, id);
    case RunNext(loop, ops) => RunEvolves(s, loop, ops, id);
    case UserCode(other, ops) => UserRunKeeps(s.links[id].conn, ops);
    case _ =>
  }

  lemma {:induction false} NextIdGrows(states: seq<Server>, steps: seq<ServerStep>, i: nat, j: nat)
    requires IsServerRun(states, steps) && i <= j < |states|
    ensures states[i].nextId <= states[j].nextId
    decreases j
  {
    if i < j {
      NextIdGrows(states, steps, i, j - 1);
      NeverDangling(states, steps, j - 1);
      StepNextId(states[j - 1], steps[j - 1]);
    }
  }

  /** One step of a run, seen from a connection that is still there after it: ids are
      never given out twice, so it was there before. */
  lemma StepEvolves(states: seq<Server>, steps: seq<ServerStep>, i: nat, id: nat)
    requires IsServerRun(states, steps) && i < |steps|
    requires id < states[i].nextId && id in states[i + 1].links
    ensures id in states[i].links && Evolves(states[i].links[id].conn, states[i + 1].links[id].conn)
  {
    NeverDangling(states, steps, i);
    StepIsConnAfter(states[i], steps[i], id);
    ServerRunKeeps(states, steps, i);
    ConnAfterEvolves(states[i], steps[i], id);
  }

  lemma {:induction false} EvolvesFrom(states: seq<Server>, steps: seq<ServerStep>, i: nat, j: nat, id: nat)
    requires IsServerRun(states, steps) && i <= j < |states|
    requires id < states[i].nextId && id in states[j].links
    ensures id in states[i].links && Evolves(states[i].links[id].conn, states[j].links[id].conn)
    decreases j
  {
    if i < j {
      NextIdGrows(states, steps, i, j - 1);
      StepEvolves(states, steps, j - 1, id);
      EvolvesFrom(states, steps, i, j - 1, id);
      EvolvesTrans(states[i].links[id].conn, states[j - 1].links[id].conn, states[j].links[id].conn);
    }
  }

  lemma LinkFacts(states: seq<Server>, steps: seq<ServerStep>, i: nat, id: nat)
    requires IsServerRun(states, steps) && i < |states| && id in states[i].links
    ensures Inv(states[i].links[id].conn) && id < states[i].nextId
  {
    ServerRunKeeps(states, steps, i);
    assert LinkOk(states[i], id);
  }

  lemma ConnFacts(c: Conn, d: Conn)
    requires Inv(c) && Inv(d) && Evolves(c, d)
    ensures d.wire + d.output == Flatten(d.accepted) && c.wire <= d.wire && c.accepted <= d.accepted
    ensures d.fins <= 1 && (c.fins == 1 ==> d.fins == 1 && d.wire == c.wire && d.output == [])
    ensures d.Registered() ==> (d.IsWriting() <==> d.output != [])
    ensures InOrder(d.calls) && c.calls <= d.calls
  {
    PhaseMeansOrder(d.calls);
  }

  /** Whatever the loops do in between, each connection of the server keeps its byte
      stream whole, sends its FIN at most once and after every accepted byte, writes
      nothing after it, keeps write interest on exactly while open with bytes pending,
      and has its callbacks made in order. */
  lemma EveryConnection(states: seq<Server>, steps: seq<ServerStep>, i: nat, j: nat, id: nat)
    requires IsServerRun(states, steps) && i <= j < |states|
    requires id in states[i].links && id in states[j].links
    ensures var c, d := states[i].links[id].conn, states[j].links[id].conn;
            && d.wire + d.output == Flatten(d.accepted) && c.wire <= d.wire && c.accepted <= d.accepted
            && d.fins <= 1 && (c.fins == 1 ==> d.fins == 1 && d.wire == c.wire && d.output == [])
            && (d.Registered() ==> (d.IsWriting() <==> d.output != []))
            && InOrder(d.calls) && c.calls <= d.calls
  {
    LinkFacts(states, steps, i, id);
    LinkFacts(states, steps, j, id);
    EvolvesFrom(states, steps, i, j, id);
    ConnFacts(states[i].links[id].conn, states[j].links[id].conn);
  }
}
