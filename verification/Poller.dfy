/** Channels and the epoll poller (include/Channel.hh, src/Channel.cc,
    src/EpollPoller.cc, src/Poller.cc).

    `PollerState` keeps three views of the registrations side by side: each live
    channel's index, the poller's fd table and the kernel's interest list. The
    classes at the end follow it step by step.
 */
module Epoll {

  /** An event mask, one field per bit the program names. */
  datatype Events = Events(pollin: bool, pri: bool, pollout: bool, err: bool, hup: bool, rdhup: bool) {
    function Or(e: Events): Events {
      Events(pollin || e.pollin, pri || e.pri, pollout || e.pollout, err || e.err, hup || e.hup, rdhup || e.rdhup)
    }

    function Minus(e: Events): Events {
      Events(pollin && !e.pollin, pri && !e.pri, pollout && !e.pollout, err && !e.err, hup && !e.hup, rdhup && !e.rdhup)
    }

    /** What epoll may report for an interest mask: its own bits, plus ERR and HUP. */
    predicate Within(interest: Events) {
      && (pollin ==> interest.pollin) && (pri ==> interest.pri)
      && (pollout ==> interest.pollout) && (rdhup ==> interest.rdhup)
    }
  }

  const NONE_EVENT := Events(false, false, false, false, false, false)
  const READ_EVENT := Events(true, true, false, false, false, false)
  const WRITE_EVENT := Events(false, false, true, false, false, false)

  datatype Index = New | Added | Deleted

  /** `updates` records the masks handed to updateChannel so far, one for each call. */
  datatype ChannelState = ChannelState(fd: int, events: Events, index: Index, updates: seq<Events>) {
    predicate IsNoneEvent() { events == NONE_EVENT }
    predicate IsWriting() { events.pollout }
    predicate IsReading() { events.pollin || events.pri }

    /** What updateChannel leaves in the channel. */
    function Refreshed(): ChannelState {
      this.(index := if index == Added && IsNoneEvent() then Deleted else Added, updates := updates + [events])
    }

    function WithEvents(e: Events): ChannelState { this.(events := e).Refreshed() }

    function EnableReading(): ChannelState { WithEvents(events.Or(READ_EVENT)) }
    function DisableReading(): ChannelState { WithEvents(events.Minus(READ_EVENT)) }
    function EnableWriting(): ChannelState { WithEvents(events.Or(WRITE_EVENT)) }
    function DisableWriting(): ChannelState { WithEvents(events.Minus(WRITE_EVENT)) }
    function DisableAll(): ChannelState { WithEvents(NONE_EVENT) }
  }

  function NewChannelState(fd: int): ChannelState { ChannelState(fd, NONE_EVENT, New, []) }

  // ---- The kernel's side: epoll_ctl ----

  datatype Registration<Id> = Registration(who: Id, mask: Events)

  datatype CtlOp = CtlAdd | CtlMod | CtlDel

  /** The table after the call, and whether the call succeeded: ADD fails with EEXIST
      on a present fd, MOD and DEL with ENOENT on an absent one. */
  datatype CtlResult<Id> = CtlResult(table: map<int, Registration<Id>>, ok: bool)

  function EpollCtl<Id>(table: map<int, Registration<Id>>, op: CtlOp, fd: int, reg: Registration<Id>): CtlResult<Id>
  {
    match op
    case CtlAdd => if fd in table then CtlResult(table, false) else CtlResult(table[fd := reg], true)
    case CtlMod => if fd in table then CtlResult(table[fd := reg], true) else CtlResult(table, false)
    case CtlDel => if fd in table then CtlResult(table - {fd}, true) else CtlResult(table, false)
  }

  /** An ADD is legal on an absent fd, a MOD or a DEL on a present one; a legal call leaves
      the fd present, under the new registration, unless it is a DEL, and an illegal one
      changes nothing. */
  lemma CtlLegalIff<Id>(table: map<int, Registration<Id>>, op: CtlOp, fd: int, reg: Registration<Id>)
    ensures EpollCtl(table, op, fd, reg).ok <==> (op == CtlAdd <==> fd !in table)
    ensures var r := EpollCtl(table, op, fd, reg);
            && (!r.ok ==> r.table == table)
            && (r.ok && op == CtlDel ==> fd !in r.table)
            && (r.ok && op != CtlDel ==> fd in r.table && r.table[fd] == reg)
            && (forall other | other != fd :: other in r.table <==> other in table)
            && (forall other | other != fd && other in table :: r.table[other] == table[other])
  {
  }

  // ---- The poller's side ----

  datatype PollerState<Id> = PollerState(
    live: map<Id, ChannelState>,
    channels: map<int, Id>,
    kernel: map<int, Registration<Id>>)

  /** A poller step; `ok` says that its kernel call, if any, was a legal one. */
  datatype Outcome<Id> = Outcome(state: PollerState<Id>, ok: bool)

  function UpdateStep<Id>(s: PollerState<Id>, id: Id): Outcome<Id>
    requires id in s.live
  {
    var ch := s.live[id];
    var reg := Registration(id, ch.events);
    var live := s.live[id := ch.Refreshed()];
    if ch.index == New || ch.index == Deleted then
      var channels := if ch.index == New then s.channels[ch.fd := id] else s.channels;
      var r := EpollCtl(s.kernel, CtlAdd, ch.fd, reg);
      Outcome(PollerState(live, channels, r.table), r.ok)
    else if ch.IsNoneEvent() then
      var r := EpollCtl(s.kernel, CtlDel, ch.fd, reg);
      Outcome(PollerState(live, s.channels, r.table), r.ok)
    else
      var r := EpollCtl(s.kernel, CtlMod, ch.fd, reg);
      Outcome(PollerState(live, s.channels, r.table), r.ok)
  }

  /** Any of the enable and disable operations: assign the mask, then update. */
  function SetEvents<Id>(s: PollerState<Id>, id: Id, e: Events): Outcome<Id>
    requires id in s.live
  {
    UpdateStep(s.(live := s.live[id := s.live[id].(events := e)]), id)
  }

  function RemoveStep<Id>(s: PollerState<Id>, id: Id): Outcome<Id>
    requires id in s.live
  {
    var ch := s.live[id];
    var r := if ch.index == Added then EpollCtl(s.kernel, CtlDel, ch.fd, Registration(id, ch.events))
             else CtlResult(s.kernel, true);
    Outcome(PollerState(s.live[id := ch.(index := New)], s.channels - {ch.fd}, r.table), r.ok)
  }

  /** The channel object dies and its fd is closed: the kernel forgets the fd, the
      poller's own table does not. */
  function CloseStep<Id>(s: PollerState<Id>, id: Id): PollerState<Id>
    requires id in s.live
  {
    PollerState(s.live - {id}, s.channels, s.kernel - {s.live[id].fd})
  }

  /** The poller's table names this very channel under its fd. */
  predicate Listed<Id(==)>(s: PollerState<Id>, id: Id)
    requires id in s.live
  {
    var fd := s.live[id].fd;
    fd in s.channels && s.channels[fd] == id
  }

  ghost predicate DistinctFds<Id>(s: PollerState<Id>)
  {
    forall a, b | a in s.live && b in s.live && a != b :: s.live[a].fd != s.live[b].fd
  }

  ghost predicate ChannelAgrees<Id>(s: PollerState<Id>, id: Id)
    requires id in s.live
  {
    var ch := s.live[id];
    && (ch.fd in s.kernel <==> ch.index == Added)
    && (ch.index == Added ==> s.kernel[ch.fd] == Registration(id, ch.events))
    && (ch.index != New ==> Listed(s, id))
    && (ch.index == Deleted ==> ch.IsNoneEvent())
  }

  /** The three views agree about every live channel, and the kernel knows no others. */
  ghost predicate Agreement<Id>(s: PollerState<Id>)
  {
    && DistinctFds(s)
    && (forall id | id in s.live :: ChannelAgrees(s, id))
    && (forall fd | fd in s.kernel :: s.kernel[fd].who in s.live && s.live[s.kernel[fd].who].fd == fd)
  }

  lemma SetEventsAgrees<Id>(s: PollerState<Id>, id: Id, e: Events)
    requires id in s.live && Agreement(s)
    ensures SetEvents(s, id, e).ok && Agreement(SetEvents(s, id, e).state)
    ensures SetEvents(s, id, e).state.live == s.live[id := s.live[id].WithEvents(e)]
  {
    var r := SetEvents(s, id, e).state;
    assert ChannelAgrees(s, id);
    forall other | other in r.live
      ensures ChannelAgrees(r, other)
    {
      assert ChannelAgrees(s, other);
    }
  }

  /** Which masks leave a channel registered: an empty one only if it was not
      registered before, in which case it is added with nothing to wait for. */
  lemma RegisteredAfterSetEvents<Id>(s: PollerState<Id>, id: Id, e: Events)
    requires id in s.live && Agreement(s)
    ensures s.live[id].fd in SetEvents(s, id, e).state.kernel <==> (e != NONE_EVENT || s.live[id].index != Added)
  {
    assert ChannelAgrees(s, id);
  }

  lemma RemoveAgrees<Id>(s: PollerState<Id>, id: Id)
    requires id in s.live && Agreement(s)
    ensures RemoveStep(s, id).ok && Agreement(RemoveStep(s, id).state)
  {
    var r := RemoveStep(s, id).state;
    assert ChannelAgrees(s, id);
    forall other | other in r.live
      ensures ChannelAgrees(r, other)
    {
      assert ChannelAgrees(s, other);
    }
  }

  lemma CloseAgrees<Id>(s: PollerState<Id>, id: Id)
    requires id in s.live && Agreement(s)
    ensures Agreement(CloseStep(s, id))
  {
    var r := CloseStep(s, id);
    forall other | other in r.live
      ensures ChannelAgrees(r, other)
    {
      assert ChannelAgrees(s, other);
    }
  }

  // ---- Runs of one poller ----

  datatype PollerOp<Id> = Create(id: Id, fd: int) | Assign(id: Id, e: Events) | Remove(id: Id) | Close(id: Id)

  /** A new channel has an fd no live channel uses. A dead channel may still occupy the
      fd in the poller's table, and the new one may even have been allocated at its address. */
  ghost predicate PollerEnabled<Id>(s: PollerState<Id>, op: PollerOp<Id>)
  {
    match op
    case Create(id, fd) =>
      && id !in s.live
      && (forall other | other in s.live :: s.live[other].fd != fd)
    case _ => op.id in s.live
  }

  function PollerStep<Id>(s: PollerState<Id>, op: PollerOp<Id>): Outcome<Id>
    requires !op.Create? ==> op.id in s.live
  {
    match op
    case Create(id, fd) => Outcome(s.(live := s.live[id := NewChannelState(fd)]), true)
    case Assign(id, e) => SetEvents(s, id, e)
    case Remove(id) => RemoveStep(s, id)
    case Close(id) => Outcome(CloseStep(s, id), true)
  }

  lemma StepAgrees<Id>(s: PollerState<Id>, op: PollerOp<Id>)
    requires Agreement(s) && PollerEnabled(s, op)
    ensures PollerStep(s, op).ok && Agreement(PollerStep(s, op).state)
  {
    match op
    case Create(id, fd) =>
      var r := PollerStep(s, op).state;
      forall other | other in r.live
        ensures ChannelAgrees(r, other)
      {
        if other != id {
          assert ChannelAgrees(s, other);
        }
      }
    case Assign(id, e) => SetEventsAgrees(s, id, e);
    case Remove(id) => RemoveAgrees(s, id);
    case Close(id) => CloseAgrees(s, id);
  }

  ghost predicate IsPollerRun<Id>(s: PollerState<Id>, ops: seq<PollerOp<Id>>)
    decreases |ops|
  {
    ops == [] || (PollerEnabled(s, ops[0]) && IsPollerRun(PollerStep(s, ops[0]).state, ops[1..]))
  }

  ghost function PollerAfter<Id>(s: PollerState<Id>, ops: seq<PollerOp<Id>>): PollerState<Id>
    requires IsPollerRun(s, ops)
    decreases |ops|
  {
    if ops == [] then s else PollerAfter(PollerStep(s, ops[0]).state, ops[1..])
  }

  ghost predicate AllLegal<Id>(s: PollerState<Id>, ops: seq<PollerOp<Id>>)
    requires IsPollerRun(s, ops)
    decreases |ops|
  {
    ops == [] || (PollerStep(s, ops[0]).ok && AllLegal(PollerStep(s, ops[0]).state, ops[1..]))
  }

  lemma {:induction false} RunAgrees<Id>(s: PollerState<Id>, ops: seq<PollerOp<Id>>)
    requires Agreement(s) && IsPollerRun(s, ops)
    ensures AllLegal(s, ops) && Agreement(PollerAfter(s, ops))
    decreases |ops|
  {
    if ops != [] {
      StepAgrees(s, ops[0]);
      RunAgrees(PollerStep(s, ops[0]).state, ops[1..]);
    }
  }

  /** Over every sequence of creations, mask changes, removals and closings that
      starts from an empty poller, the views agree and no kernel call fails. */
  lemma RegistrationAgreement<Id>(ops: seq<PollerOp<Id>>)
    requires IsPollerRun<Id>(PollerState(map[], map[], map[]), ops)
    ensures AllLegal<Id>(PollerState(map[], map[], map[]), ops)
    ensures Agreement<Id>(PollerAfter<Id>(PollerState(map[], map[], map[]), ops))
  {
    RunAgrees<Id>(PollerState(map[], map[], map[]), ops);
  }

  // ---- Entries of dead channels ----

  /** The channels the poller has not seen are not in its table. */
  ghost predicate NewIsAbsent<Id>(s: PollerState<Id>)
  {
    forall id | id in s.live && s.live[id].index == New :: !Listed(s, id)
  }

  /** The entry a dead channel left under this fd names the very object being created. */
  predicate NamedByDead<Id(==)>(s: PollerState<Id>, op: PollerOp<Id>)
  {
    op.Create? && op.fd in s.channels && s.channels[op.fd] == op.id
  }

  ghost predicate AlwaysAbsent<Id>(s: PollerState<Id>, ops: seq<PollerOp<Id>>)
    requires IsPollerRun(s, ops)
    decreases |ops|
  {
    NewIsAbsent(s) && (ops == [] || AlwaysAbsent(PollerStep(s, ops[0]).state, ops[1..]))
  }

  ghost predicate NoneNamedByDead<Id>(s: PollerState<Id>, ops: seq<PollerOp<Id>>)
    requires IsPollerRun(s, ops)
    decreases |ops|
  {
    ops == [] || (!NamedByDead(s, ops[0]) && NoneNamedByDead(PollerStep(s, ops[0]).state, ops[1..]))
  }

  lemma StepKeepsAbsentIff<Id>(s: PollerState<Id>, op: PollerOp<Id>)
    requires Agreement(s) && NewIsAbsent(s) && PollerEnabled(s, op)
    ensures NewIsAbsent(PollerStep(s, op).state) <==> !NamedByDead(s, op)
  {
    var t := PollerStep(s, op).state;
    if NamedByDead(s, op) {
      assert t.live[op.id].index == New && Listed(t, op.id);
    } else {
      forall id | id in t.live && t.live[id].index == New
        ensures !Listed(t, id)
      {
        if !op.Create? && id == op.id {
          assert op.Remove?;
        }
      }
    }
  }

  /** Channels are erased from the table by remove() only, which a connection never
      calls. So that kNew means absent from `channels_` holds throughout a run if and
      only if no channel is ever created at the address and fd of a dead one still listed. */
  lemma {:induction false} NewIsAbsentIff<Id>(s: PollerState<Id>, ops: seq<PollerOp<Id>>)
    requires Agreement(s) && NewIsAbsent(s) && IsPollerRun(s, ops)
    ensures AlwaysAbsent(s, ops) <==> NoneNamedByDead(s, ops)
    decreases |ops|
  {
    if ops != [] {
      var t := PollerStep(s, ops[0]).state;
      StepKeepsAbsentIff(s, ops[0]);
      StepAgrees(s, ops[0]);
      if NewIsAbsent(t) {
        NewIsAbsentIff(t, ops[1..]);
      }
    }
  }

  /** A channel that reads, is disabled, dies, and whose fd and address are used again. */
  lemma AddressReused()
    ensures var ops := [Create(7, 5), Assign(7, READ_EVENT), Assign(7, NONE_EVENT), Close(7), Create(7, 5)];
            var s: PollerState<int> := PollerState(map[], map[], map[]);
            && IsPollerRun(s, ops)
            && 7 in PollerAfter(s, ops).live && PollerAfter(s, ops).live[7] == NewChannelState(5)
            && Listed(PollerAfter(s, ops), 7)
  {
    var ops := [Create(7, 5), Assign(7, READ_EVENT), Assign(7, NONE_EVENT), Close(7), Create(7, 5)];
    var s: PollerState<int> := PollerState(map[], map[], map[]);
    var s1 := PollerStep(s, ops[0]).state;
    var s2 := PollerStep(s1, ops[1]).state;
    var s3 := PollerStep(s2, ops[2]).state;
    var s4 := PollerStep(s3, ops[3]).state;
    assert ops[4..][1..] == [] && ops[3..][1..] == ops[4..] && ops[2..][1..] == ops[3..] && ops[1..][1..] == ops[2..];
    assert PollerAfter(s4, ops[4..]) == PollerStep(s4, ops[4]).state;
    assert PollerAfter(s3, ops[3..]) == PollerAfter(s4, ops[4..]);
    assert PollerAfter(s2, ops[2..]) == PollerAfter(s3, ops[3..]);
    assert PollerAfter(s1, ops[1..]) == PollerAfter(s2, ops[2..]);
  }

  /** Sharing an fd is what the agreement cannot survive: once the first of two
      channels on one fd is registered, registering the second is refused. */
  lemma SharedFdIsRefused<Id>(s: PollerState<Id>, first: Id, second: Id, e: Events)
    requires first in s.live && second in s.live && first != second
    requires ChannelAgrees(s, first) && s.live[first].fd == s.live[second].fd
    requires s.live[second].index == New
    ensures SetEvents(s, second, e).ok <==> s.live[first].index != Added
  {
  }

  // ---- Dispatch order ----

  datatype Callback = CloseCallback | ReadCallback | WriteCallback | ErrorCallback

  function When(b: bool, callback: Callback): seq<Callback> { if b then [callback] else [] }

  /** The callbacks handleEventWithGuard makes for a set of reported events, in order.
      The error callback is made whatever was reported. */
  function Dispatch(revents: Events): seq<Callback>
  {
    When(revents.hup && !revents.pollin, CloseCallback)
    + When(revents.pollin || revents.pri || revents.rdhup, ReadCallback)
    + When(revents.pollout, WriteCallback)
    + [ErrorCallback]
  }

  /** The callbacks are exactly those that the reported events call for. */
  lemma DispatchSelects(revents: Events)
    ensures CloseCallback in Dispatch(revents) <==> revents.hup && !revents.pollin
    ensures ReadCallback in Dispatch(revents) <==> revents.pollin || revents.pri || revents.rdhup
    ensures WriteCallback in Dispatch(revents) <==> revents.pollout
    ensures ErrorCallback in Dispatch(revents)
  {
    if revents.hup && !revents.pollin {
      assert Dispatch(revents)[0] == CloseCallback;
    }
    if revents.pollin || revents.pri || revents.rdhup {
      assert Dispatch(revents)[if revents.hup && !revents.pollin then 1 else 0] == ReadCallback;
    }
    if revents.pollout {
      assert Dispatch(revents)[|Dispatch(revents)| - 2] == WriteCallback;
    }
    assert Dispatch(revents)[|Dispatch(revents)| - 1] == ErrorCallback;
  }

  function Rank(callback: Callback): nat
  {
    match callback
    case CloseCallback => 0
    case ReadCallback => 1
    case WriteCallback => 2
    case ErrorCallback => 3
  }

  /** Each is made once, and in this order. */
  lemma DispatchOrder(revents: Events, i: nat, j: nat)
    requires i < j < |Dispatch(revents)|
    ensures Rank(Dispatch(revents)[i]) < Rank(Dispatch(revents)[j])
  {
  }

  /** Nothing but a close comes before the read. */
  lemma ReadComesFirst(revents: Events, i: nat)
    requires i < |Dispatch(revents)| && Dispatch(revents)[i] == ReadCallback
    ensures Dispatch(revents)[..i] == When(revents.hup && !revents.pollin, CloseCallback)
  {
  }

  // ---- The classes ----

  const INIT_EVENT_LIST_SIZE: nat := 16

  class Channel {
    const fd: int
    const poller: EpollPoller
    var events: Events
    var revents: Events
    var index: Index
    var tied: bool
    ghost var updates: seq<Events>

    ghost function Snapshot(): ChannelState
      reads this
    {
      ChannelState(fd, events, index, updates)
    }

    ghost predicate Registrable()
      reads this, poller, poller.live
    {
      this in poller.live && poller.Valid()
    }

    constructor (poller: EpollPoller, fd: int)
      ensures Snapshot() == NewChannelState(fd) && this.poller == poller
      ensures revents == NONE_EVENT && !tied
    {
      this.fd := fd;
      this.poller := poller;
      events := NONE_EVENT;
      revents := NONE_EVENT;
      index := New;
      tied := false;
      updates := [];
    }

    /** Everything the mask operations promise besides the mask. */
    twostate predicate Reassigned(e: Events)
      reads this, poller, poller.live
    {
      && Registrable()
      && poller.live == old(poller.live)
      && Snapshot() == old(Snapshot()).WithEvents(e)
      && tied == old(tied) && revents == old(revents)
    }

    method SetMask(e: Events) returns (ok: bool)
      requires Registrable()
      modifies this, poller
      ensures ok && Reassigned(e)
    {
      ghost var before := poller.State();
      ok := AssignAndUpdate(e);
      SetEventsAgrees(before, this, e);
      assert poller.State().live[this] == Snapshot();
    }

    /** The assignment and the update that each of the mask operations is. */
    method AssignAndUpdate(e: Events) returns (ok: bool)
      requires Registrable()
      modifies this`events, this`index, this`updates, poller`channels, poller`kernel
      ensures Outcome(poller.State(), ok) == SetEvents(old(poller.State()), this, e)
    {
      ghost var before := poller.State();
      events := e;
      assert poller.State() == before.(live := before.live[this := before.live[this].(events := e)]);
      ok := poller.UpdateChannel(this);
    }

    method EnableReading() returns (ok: bool)
      requires Registrable()
      modifies this, poller
      ensures ok && Reassigned(old(events).(pollin := true, pri := true))
    {
      ok := SetMask(events.Or(READ_EVENT));
    }

    method DisableReading() returns (ok: bool)
      requires Registrable()
      modifies this, poller
      ensures ok && Reassigned(old(events).(pollin := false, pri := false))
    {
      ok := SetMask(events.Minus(READ_EVENT));
    }

    method EnableWriting() returns (ok: bool)
      requires Registrable()
      modifies this, poller
      ensures ok && Reassigned(old(events).(pollout := true))
    {
      ok := SetMask(events.Or(WRITE_EVENT));
    }

    method DisableWriting() returns (ok: bool)
      requires Registrable()
      modifies this, poller
      ensures ok && Reassigned(old(events).(pollout := false))
    {
      ok := SetMask(events.Minus(WRITE_EVENT));
    }

    method DisableAll() returns (ok: bool)
      requires Registrable()
      modifies this, poller
      ensures ok && Reassigned(Events(false, false, false, false, false, false))
    {
      ok := SetMask(NONE_EVENT);
    }

    function IsWriting(): bool
      reads this
    {
      events.pollout
    }

    /** Ties the channel to its owner, which handleEvent then has to lock. */
    method Tie()
      requires Registrable()
      modifies this`tied
      ensures tied && Registrable() && poller.State() == old(poller.State())
    {
      tied := true;
      assert poller.State().live == old(poller.State().live);
    }

    method Remove() returns (ok: bool)
      requires Registrable()
      modifies this, poller
      ensures ok && Registrable() && poller.live == old(poller.live)
      ensures Snapshot() == old(Snapshot()).(index := New)
    {
      ghost var before := poller.State();
      ok := poller.RemoveChannel(this);
      RemoveAgrees(before, this);
      assert poller.State().live[this] == Snapshot();
    }

    /** Runs the dispatch; `ownerAlive` is the outcome of locking the tied pointer. */
    method HandleEvent(ownerAlive: bool) returns (calls: seq<Callback>)
      ensures calls == if tied && !ownerAlive then [] else Dispatch(revents)
    {
      calls := [];
      if tied && !ownerAlive {
        return;
      }
      if revents.hup && !revents.pollin {
        calls := calls + [CloseCallback];
      }
      if revents.pollin || revents.pri || revents.rdhup {
        calls := calls + [ReadCallback];
      }
      if revents.pollout {
        calls := calls + [WriteCallback];
      }
      calls := calls + [ErrorCallback];
    }
  }

  class EpollPoller {
    var channels: map<int, Channel>
    var kernel: map<int, Registration<Channel>>
    var capacity: nat
    ghost var live: set<Channel>

    ghost function State(): (s: PollerState<Channel>)
      reads this, live
    {
      PollerState(map c | c in live :: c.Snapshot(), channels, kernel)
    }

    ghost predicate Valid()
      reads this, live
    {
      && Agreement(State())
      && (forall c | c in live :: c.poller == this)
      && INIT_EVENT_LIST_SIZE <= capacity
    }

    constructor ()
      ensures Valid() && live == {}
      ensures State() == PollerState(map[], map[], map[])
    {
      channels := map[];
      kernel := map[];
      capacity := INIT_EVENT_LIST_SIZE;
      live := {};
    }

    /** A newly constructed channel whose fd no live channel uses becomes live. */
    ghost method Adopt(channel: Channel)
      requires Valid() && channel !in live && channel.poller == this
      requires channel.Snapshot() == NewChannelState(channel.fd)
      requires PollerEnabled(State(), Create(channel, channel.fd))
      modifies this`live
      ensures Valid() && live == old(live) + {channel}
      ensures State() == PollerStep(old(State()), Create(channel, channel.fd)).state
    {
      ghost var before := State();
      live := live + {channel};
      assert State() == PollerStep(before, Create(channel, channel.fd)).state;
      StepAgrees(before, Create(channel, channel.fd));
    }

    /** The channel is destroyed and its fd closed. */
    method CloseFd(channel: Channel)
      requires Valid() && channel in live
      modifies this
      ensures Valid() && live == old(live) - {channel} && capacity == old(capacity)
      ensures State() == CloseStep(old(State()), channel)
    {
      ghost var before := State();
      live := live - {channel};
      kernel := kernel - {channel.fd};
      assert State() == CloseStep(before, channel);
      CloseAgrees(before, channel);
    }

    method Ctl(op: CtlOp, channel: Channel) returns (ok: bool)
      modifies this`kernel
      ensures CtlResult(kernel, ok) == EpollCtl(old(kernel), op, channel.fd, Registration(channel, channel.events))
    {
      var r := EpollCtl(kernel, op, channel.fd, Registration(channel, channel.events));
      kernel := r.table;
      ok := r.ok;
    }

    method UpdateChannel(channel: Channel) returns (ok: bool)
      requires channel in live
      modifies this`channels, this`kernel, channel`index, channel`updates
      ensures Outcome(State(), ok) == UpdateStep(old(State()), channel)
    {
      ghost var before := State();
      if channel.index == New || channel.index == Deleted {
        if channel.index == New {
          channels := channels[channel.fd := channel];
        }
        channel.index := Added;
        ok := Ctl(CtlAdd, channel);
      } else if channel.events == NONE_EVENT {
        ok := Ctl(CtlDel, channel);
        channel.index := Deleted;
      } else {
        ok := Ctl(CtlMod, channel);
      }
      channel.updates := channel.updates + [channel.events];
      assert before.live[channel] == old(channel.Snapshot());
      assert State().live == before.live[channel := channel.Snapshot()];
    }

    method RemoveChannel(channel: Channel) returns (ok: bool)
      requires channel in live
      modifies this`channels, this`kernel, channel`index
      ensures Outcome(State(), ok) == RemoveStep(old(State()), channel)
    {
      ghost var before := State();
      channels := channels - {channel.fd};
      ok := true;
      if channel.index == Added {
        ok := Ctl(CtlDel, channel);
      }
      channel.index := New;
      assert before.live[channel] == old(channel.Snapshot());
      assert State().live == before.live[channel := channel.Snapshot()];
    }

    /** What epoll_wait may deliver: at most `capacity` registrations, each fd once,
        with events inside its mask. */
    ghost predicate Deliverable(ready: seq<Registration<Channel>>)
      reads this, live
    {
      && |ready| <= capacity
      && (forall i | 0 <= i < |ready| ::
            && ready[i].who in live
            && ready[i].who.fd in kernel
            && kernel[ready[i].who.fd].who == ready[i].who
            && ready[i].mask.Within(kernel[ready[i].who.fd].mask))
      && (forall i, j | 0 <= i < j < |ready| :: ready[i].who != ready[j].who)
    }

    /** Sets each reported channel's events and lists the channels in order. */
    method FillActiveChannels(ready: seq<Registration<Channel>>) returns (active: seq<Channel>)
      requires Valid() && Deliverable(ready)
      modifies (set c | c in live)`revents
      ensures Valid() && State() == old(State())
      ensures active == seq(|ready|, i requires 0 <= i < |ready| => ready[i].who)
      ensures forall i | 0 <= i < |ready| :: ready[i].who.revents == ready[i].mask
    {
      active := [];
      ghost var before := State();
      for n := 0 to |ready|
        invariant active == seq(n, i requires 0 <= i < n => ready[i].who)
        invariant forall i | 0 <= i < n :: ready[i].who.revents == ready[i].mask
        invariant State() == before
      {
        var channel := ready[n].who;
        channel.revents := ready[n].mask;
        active := active + [channel];
      }
    }

    /** Every channel handed to the loop is live, added, and reported within its own
        mask; the event list doubles exactly when it came back full. */
    method Poll(ready: seq<Registration<Channel>>) returns (active: seq<Channel>)
      requires Valid() && Deliverable(ready)
      modifies this`capacity, (set c | c in live)`revents
      ensures Valid() && State() == old(State()) && live == old(live)
      ensures active == seq(|ready|, i requires 0 <= i < |ready| => ready[i].who)
      ensures forall i | 0 <= i < |active| ::
                && active[i] in live && active[i].index == Added
                && active[i].revents == ready[i].mask
                && active[i].revents.Within(active[i].events)
      ensures capacity == if |ready| == old(capacity) then 2 * old(capacity) else old(capacity)
    {
      ghost var before := State();
      forall i | 0 <= i < |ready|
        ensures ready[i].who.index == Added && ready[i].mask.Within(ready[i].who.events)
      {
        assert ChannelAgrees(before, ready[i].who);
        assert before.live[ready[i].who] == ready[i].who.Snapshot();
      }
      active := FillActiveChannels(ready);
      if |ready| == capacity {
        capacity := 2 * capacity;
      }
    }

    method HasChannel(channel: Channel) returns (has: bool)
      requires Valid() && channel in live
      ensures channel.index != New ==> has
      ensures NewIsAbsent(State()) ==> (has <==> channel.index != New)
    {
      has := channel.fd in channels && channels[channel.fd] == channel;
      assert State().live[channel] == channel.Snapshot();
      assert ChannelAgrees(State(), channel);
      assert has <==> Listed(State(), channel);
    }
  }
}
