/** Every step of every thread keeps the invariant. */
module ReactorSteps {
  import opened Kernel
  import opened Polling
  import opened Connection
  import opened ConnectionProofs
  import opened Reactor
  import opened ReactorInvariant

  // ---- Stages under one handler ---------------------------------------------------

  /** Taking `f` off the front of what a loop has to run. */
  lemma PopCounts(q: seq<Functor>, f: Functor)
    requires q != [] && q[0] == f
    ensures multiset(q[1..]) == multiset(q) - multiset{f}
    ensures multiset(q)[f] > 0
    ensures forall c :: Ordered(q, c) ==> Ordered(q[1..], c)
    ensures forall g :: g in q[1..] ==> g in q
  {
    assert q == [f] + q[1..];
    forall c | Ordered(q, c) ensures Ordered(q[1..], c) {
      forall i, j | 0 <= i < j < |q[1..]| && q[1..][i] == Destroy(c) ensures q[1..][j] != ForceClose(c) {
        assert q[i + 1] == Destroy(c) && q[j + 1] == q[1..][j];
      }
    }
  }

  /** Posting force closes for `c`: nothing else is counted, and the order holds if no
      destruction is queued. */
  lemma PostForceCloses(q: seq<Functor>, fs: seq<Functor>, c: ConnId)
    requires AllAre(fs, ForceClose(c))
    ensures forall f: Functor :: f != ForceClose(c) ==> multiset(q + fs)[f] == multiset(q)[f]
    ensures multiset(q)[Destroy(c)] == 0 ==> Ordered(q + fs, c)
  {
  }

  /** An event, a call of the application, or the connection's own force close. */
  lemma TurnStage(w: World, w': World, q: seq<Functor>, b: seq<Functor>, mapped: bool)
    requires Stage(w.conn, w.poller, q, b, mapped) && Open(w) && w.own == [] && w.base == []
    requires Turns(w, w')
    ensures Stage(w'.conn, w'.poller, q + w'.own, b + w'.base, mapped)
    ensures Tame(w, w') && Registered(w'.poller, w'.conn.ch)
    ensures AllAre(w'.own, ForceClose(w.conn.ch.id)) && AllAre(w'.base, RemoveConnection(w.conn.ch.id))
  {
    hide SameElsewhere, Registered;
    assert w'.own == w'.own[0..];
    PostForceCloses(q, w'.own, w.conn.ch.id);
    assert b + [] == b;
  }

  lemma EstablishStage(w: World, w': World, q: seq<Functor>, b: seq<Functor>, mapped: bool)
    requires Stage(w.conn, w.poller, q, b, mapped) && w.own == [] && w.base == []
    requires q != [] && q[0] == Establish(w.conn.ch.id)
    requires IsEmbryo(w.conn, w.poller) ==> StaysOpen(w, w')
    ensures IsEmbryo(w.conn, w.poller)
    ensures Stage(w'.conn, w'.poller, q[1..] + w'.own, b + w'.base, mapped)
    ensures Tame(w, w') && Registered(w'.poller, w'.conn.ch) && w'.base == []
    ensures AllAre(w'.own, ForceClose(w.conn.ch.id))
  {
    PopCounts(q, Establish(w.conn.ch.id));
    assert w'.own == w'.own[0..];
    PostForceCloses(q[1..], w'.own, w.conn.ch.id);
    assert b + [] == b;
  }

  lemma ForceCloseStage(w: World, q: seq<Functor>, b: seq<Functor>, mapped: bool)
    requires Stage(w.conn, w.poller, q, b, mapped) && w.own == [] && w.base == []
    requires q != [] && q[0] == ForceClose(w.conn.ch.id)
    ensures var w' := ForceCloseInLoop(w);
            && Tame(w, w') && AllAre(w'.base, RemoveConnection(w.conn.ch.id)) && w'.own == []
            && Stage(w'.conn, w'.poller, q[1..] + w'.own, b + w'.base, mapped)
            && (Open(w) || IsClosed(w.conn, w.poller)) && IsClosed(w'.conn, w'.poller)
  {
    hide ForceCloseInLoop, Registered;
    PopCounts(q, ForceClose(w.conn.ch.id));
    ForceCloseTurns(w);
    assert b + [] == b && q[1..] + [] == q[1..];
    assert w.own[0..] == [];
  }

  lemma DestroyStage(w: World, q: seq<Functor>, b: seq<Functor>, mapped: bool)
    requires Stage(w.conn, w.poller, q, b, mapped) && w.own == [] && w.base == []
    requires q != [] && q[0] == Destroy(w.conn.ch.id)
    ensures var w' := ConnectDestroyed(w);
            && IsClosed(w.conn, w.poller) && Tame(w, w') && w'.base == [] && w'.own == [] && w'.stats == w.stats
            && IsGone(w'.conn, w'.poller)
            && Stage(w'.conn, w'.poller, q[1..] + w'.own, b + w'.base, mapped)
  {
    var c := w.conn.ch.id;
    PopCounts(q, Destroy(c));
    DestroyUnregisters(w);
    forall j | 0 <= j < |q[1..]| ensures q[1..][j] != ForceClose(c) {
      assert q[j + 1] == q[1..][j];
    }
    assert b + [] == b && q[1..] + [] == q[1..];
  }

  // ---- The connections of a loop --------------------------------------------------

  lemma StageOf(s: System, c: ConnId)
    requires Inv(s) && c in s.conns
    ensures s.conns[c].loop < |s.io| && s.conns[c].ch.id == c && StageAt(s, c)
  {
  }

  lemma LoopOf(s: System, i: nat)
    requires Inv(s) && i < |s.io|
    ensures LoopIn(s.conns, s.io[i], i)
  {
  }

  lemma UsableIfMapped(s: System, c: ConnId)
    requires c in s.conns && Mapped(s, c)
    ensures Usable(s, c)
  {
  }

  lemma MappedIfUp(s: System, c: ConnId)
    requires c in s.conns && s.conns[c].loop < |s.io| && StageAt(s, c) && !s.conns[c].state.Disconnected?
    ensures Mapped(s, c) && Usable(s, c)
  {
  }

  lemma UsableIfHeld(s: System, i: nat, f: Functor)
    requires i < |s.io| && f in s.io[i].queue.todo && f.IsStrong() && f.conn in s.conns
    ensures Usable(s, f.conn)
  {
  }

  /** A force close that still has to run finds its connection alive: it is still in
      the client's map, or its destruction is queued behind. */
  lemma ForceCloseIsUsable(s: System, i: nat, c: ConnId)
    requires i < |s.io| && c in s.conns && s.conns[c].loop == i && s.conns[c].ch.id == c && StageAt(s, c)
    requires ForceClose(c) in s.io[i].queue.Todo()
    ensures Usable(s, c)
  {
  }

  /** Every functor next in line on an I/O loop may use its connection: the three
      strong kinds keep it alive themselves, and a force close is only ever queued
      before the destruction that lets it go. */
  lemma NextIsUsable(s: System, i: nat)
    requires Inv(s) && i < |s.io| && s.io[i].queue.todo != []
    ensures var f := s.io[i].queue.todo[0];
            Usable(s, f.conn) && !f.RemoveConnection? && s.conns[f.conn].loop == i
  {
    hide Inv, Stage, HasRef;
    var f := s.io[i].queue.todo[0];
    LoopOf(s, i);
    assert f in s.io[i].queue.Todo();
    if f.IsStrong() {
      UsableIfHeld(s, i, f);
    } else {
      StageOf(s, f.conn);
      ForceCloseIsUsable(s, i, f.conn);
    }
  }

  lemma TameFits(s: System, i: nat, c: ConnId, w': World)
    requires i < |s.io| && c in s.conns && s.conns[c].ch.id == c && s.conns[c].loop == i
    requires Tame(WorldOf(s, i, c), w') && Registered(w'.poller, w'.conn.ch)
    ensures Fits(s.conns, s.io[i].poller, i, c, w'.conn, w'.poller) && w'.faults == {}
  {
  }

  // ---- Steps of an I/O loop --------------------------------------------------------

  lemma EventKeepsInv(s: System, i: nat, e: Env)
    requires Inv(s) && i < |s.io| && s.io[i].active != []
    ensures Inv(DoEvent(s, i, e))
  {
    hide Inv, HandleEvent, Stage, HasRef, Registered, SameElsewhere;
    LoopOf(s, i);
    var l := s.io[i];
    var r := l.active[0];
    var c := r.ptr;
    StageOf(s, c);
    MappedIfUp(s, c);
    var w := WorldOf(s, i, c);
    var w' := HandleEvent(w, r, e);
    EventTurns(w, r, e);
    TurnStage(w, w', l.queue.Todo(), s.baseQueue.Todo(), Mapped(s, c));
    TameFits(s, i, c, w');
    CommitKeepsInv(s, i, l.(active := l.active[1..]), c, w');
  }

  /** Calls from the application, on any connection of the loop, at any time. */
  lemma ActStage(w: World, r: Reaction, q: seq<Functor>, b: seq<Functor>, mapped: bool)
    requires Stage(w.conn, w.poller, q, b, mapped) && w.own == [] && w.base == []
    ensures var w' := React(w, r);
            && Stage(w'.conn, w'.poller, q + w'.own, b + w'.base, mapped)
            && Tame(w, w') && Registered(w'.poller, w'.conn.ch) && AllAre(w'.own, ForceClose(w.conn.ch.id)) && w'.base == []
            && (Open(w) ==> Open(w'))
  {
    var w' := React(w, r);
    if Open(w) {
      ReactKeepsOpen(w, r);
      TurnStage(w, w', q, b, mapped);
    } else {
      SendAllWhenDown(w, r.sends);
      assert w' == w.(stats := w'.stats);
      assert q + [] == q && b + [] == b && w.own[0..] == [];
    }
  }

  lemma ActKeepsInv(s: System, i: nat, c: ConnId, r: Reaction)
    requires Inv(s) && i < |s.io| && c in s.conns && s.conns[c].loop == i
    ensures Inv(Commit(s, i, s.io[i], c, React(WorldOf(s, i, c), r)))
  {
    hide Inv, React, Stage, Registered, SameElsewhere;
    LoopOf(s, i);
    StageOf(s, c);
    var l := s.io[i];
    var w := WorldOf(s, i, c);
    ActStage(w, r, l.queue.Todo(), s.baseQueue.Todo(), Mapped(s, c));
    TameFits(s, i, c, React(w, r));
    CommitKeepsInv(s, i, l, c, React(w, r));
  }

  /** Establishing, force closing and destroying move a connection to its next stage. */
  lemma RunStage(w: World, f: Functor, r: Reaction, q: seq<Functor>, b: seq<Functor>, mapped: bool)
    requires Stage(w.conn, w.poller, q, b, mapped) && w.own == [] && w.base == []
    requires q != [] && q[0] == f && f.conn == w.conn.ch.id && !f.RemoveConnection? && (f.Establish? ==> Talks(r))
    ensures var w' := Ran(w, f, r);
            && Stage(w'.conn, w'.poller, q[1..] + w'.own, b + w'.base, mapped)
            && Tame(w, w') && Registered(w'.poller, w'.conn.ch)
            && AllAre(w'.own, ForceClose(w.conn.ch.id)) && AllAre(w'.base, RemoveConnection(w.conn.ch.id))
  {
    hide Stage, ConnectEstablished, ForceCloseInLoop, ConnectDestroyed, Registered;
    match f
    case Establish(_) =>
      if IsEmbryo(w.conn, w.poller) { EstablishOpens(w, r); }
      EstablishStage(w, ConnectEstablished(w, r), q, b, mapped);
    case ForceClose(_) => ForceCloseStage(w, q, b, mapped);
    case Destroy(_) => DestroyStage(w, q, b, mapped);
  }

  lemma RunKeepsInv(s: System, i: nat, r: Reaction)
    requires Inv(s) && Enabled(s, Run(i, r))
    ensures Inv(DoRun(s, i, r))
  {
    hide Inv, Stage, ConnectEstablished, ForceCloseInLoop, ConnectDestroyed, Registered, SameElsewhere, HasRef;
    NextIsUsable(s, i);
    LoopOf(s, i);
    var l := s.io[i];
    var f := l.queue.todo[0];
    StageOf(s, f.conn);
    var w := WorldOf(s, i, f.conn);
    var q := l.queue.Todo();
    var l1 := l.(queue := l.queue.Pop());
    assert q[0] == f && l1.queue.Todo() == q[1..];
    var w' := Ran(w, f, r);
    RunStage(w, f, r, q, s.baseQueue.Todo(), Mapped(s, f.conn));
    TameFits(s, i, f.conn, w');
    CommitKeepsInv(s, i, l1, f.conn, w');
  }

  /** Polling, swapping and dropping a batch change neither connections nor pollers. */
  lemma LoopOnlyKeepsInv(s: System, i: nat, l': IoLoop)
    requires Inv(s) && i < |s.io|
    requires l'.poller == s.io[i].poller && l'.queue.Todo() == s.io[i].queue.Todo()
    requires LoopIn(s.conns, l', i)
    ensures Inv(s.(io := s.io[i := l']))
  {
    hide Stage, PollerIn, ActiveIn, IoQueueIn, BaseQueueIn;
    var s' := s.(io := s.io[i := l']);
    forall c | c in s'.conns ensures StageAt(s', c) {
      assert StageAt(s, c);
    }
  }

  /** Whatever is in a loop's interest set is an open connection of that loop. */
  lemma ReadyIsOpen(s: System, i: nat, fd: Fd)
    requires Inv(s) && i < |s.io| && fd in s.io[i].poller.kernel
    ensures var c := s.io[i].poller.kernel[fd].ptr;
            c in s.conns && s.conns[c].loop == i && s.conns[c].ch.fd == fd && IsOpen(s.conns[c], s.io[i].poller)
  {
    assert LoopIn(s.conns, s.io[i], i);
    var d := s.io[i].poller.channels[fd];
    assert StageAt(s, d);
  }

  lemma PollKeepsInv(s: System, i: nat, fds: seq<Fd>, ready: seq<Ready>)
    requires Inv(s) && Enabled(s, Poll(i, fds, ready))
    ensures Inv(Step(s, Poll(i, fds, ready)))
  {
    hide Inv, PollerIn, IoQueueIn, IsOpen;
    var l := s.io[i];
    var l' := l.(phase := Handling, active := ready);
    LoopOf(s, i);
    forall j | 0 <= j < |ready|
      ensures HupComesAlone(ready[j]) && ready[j].ptr in s.conns && s.conns[ready[j].ptr].loop == i
              && IsOpen(s.conns[ready[j].ptr], l.poller) && s.conns[ready[j].ptr].ch.fd == fds[j]
    {
      assert Deliverable(l.poller.kernel, fds[j], ready[j]);
      ReadyIsOpen(s, i, fds[j]);
    }
    LoopOnlyKeepsInv(s, i, l');
  }

  lemma BatchKeepsInv(s: System, i: nat)
    requires Inv(s) && i < |s.io|
    ensures Enabled(s, Swap(i)) ==> Inv(Step(s, Swap(i)))
    ensures Enabled(s, End(i)) ==> Inv(Step(s, End(i)))
  {
    hide Inv, PollerIn;
    LoopOf(s, i);
    var l := s.io[i];
    if Enabled(s, Swap(i)) {
      var l' := l.(phase := Draining, queue := l.queue.Swap());
      assert l'.queue.Todo() == l.queue.Todo();
      LoopOnlyKeepsInv(s, i, l');
    }
    if Enabled(s, End(i)) {
      LoopOnlyKeepsInv(s, i, l.(phase := Polling, queue := l.queue.Drop()));
    }
  }

  // ---- Steps of the base loop ------------------------------------------------------

  lemma BasePhaseKeepsInv(s: System, ph: Phase, q: Queue)
    requires Inv(s) && q.Todo() == s.baseQueue.Todo() && Idle(q, ph)
    requires forall f :: f in q.ran ==> f in s.baseQueue.ran
    ensures Inv(s.(basePhase := ph, baseQueue := q))
  {
    hide Stage, LoopIn;
    var s' := s.(basePhase := ph, baseQueue := q);
    forall c | c in s'.conns ensures StageAt(s', c) {
      assert StageAt(s, c);
    }
  }

  /** A socket that never became a connection is simply closed. */
  lemma AttemptFailsKeepsInv(s: System, fd: Fd)
    requires Inv(s) && fd in s.attempts
    ensures Inv(s.(attempts := s.attempts - {fd}, open := s.open - {fd}))
  {
    hide Stage, LoopIn;
    var s' := s.(attempts := s.attempts - {fd}, open := s.open - {fd});
    forall c | c in s'.conns ensures StageAt(s', c) {
      assert StageAt(s, c);
    }
    assert fd !in Fds(s.conns);
  }

  /** The descriptor of an attempt is unknown to the map and to every I/O poller. */
  lemma AttemptIsNew(s: System, fd: Fd)
    requires Inv(s) && fd in s.attempts
    ensures fd !in s.connections
    ensures forall i :: 0 <= i < |s.io| ==> fd !in s.io[i].poller.channels && fd !in s.io[i].poller.kernel
  {
  }

  lemma NewStage(s: System, fd: Fd)
    requires Inv(s) && fd in s.attempts
    ensures StageAt(NewConnection(s, fd), s.nextId)
  {
    hide Inv, LoopIn;
    FreshId(s);
    var s' := NewConnection(s, fd);
    var c := s.nextId;
    AttemptIsNew(s, fd);
    var l := s.io[s.next];
    var q, b := l.queue.Todo(), s.baseQueue.Todo();
    PostTodo(l.queue, [Establish(c)]);
    NotMentioned(s, s.next);
    assert forall f: Functor :: f.conn == c ==> multiset(q)[f] == 0 && multiset(b)[f] == 0;
    assert s'.io[s.next].queue.Todo() == q + [Establish(c)];
  }

  lemma FreshId(s: System)
    requires Inv(s)
    ensures s.next < |s.io| && s.nextId !in s.conns
  {
  }

  /** No loop has anything to run for a connection that does not exist yet. */
  lemma NotMentioned(s: System, i: nat)
    requires Inv(s) && i < |s.io|
    ensures forall f :: f in s.io[i].queue.Todo() ==> f.conn != s.nextId
    ensures forall f :: f in s.baseQueue.Todo() ==> f.conn != s.nextId
  {
  }

  /** A functor of another connection does not matter. */
  lemma PostOtherStage(k: Conn, p: Poller, q: Queue, b: seq<Functor>, mapped: bool, f: Functor)
    requires Stage(k, p, q.Todo(), b, mapped) && k.ch.id != f.conn
    ensures Stage(k, p, q.Post([f]).Todo(), b, mapped)
  {
    hide Stage;
    PostTodo(q, [f]);
    PostFor(q.Todo(), [f], k.ch.id);
    assert SameFor(b, b, k.ch.id);
    StageFrame(k, p, p, q.Todo(), q.Todo() + [f], b, b, mapped);
  }

  lemma NewOtherStage(s: System, fd: Fd, d: ConnId)
    requires s.next < |s.io| && d in s.conns && s.conns[d].loop < |s.io| && StageAt(s, d)
    requires s.conns[d].ch.id == d && d != s.nextId && s.conns[d].ch.fd != fd
    ensures StageAt(NewConnection(s, fd), d)
  {
    hide Stage;
    var k := s.conns[d];
    var l := s.io[k.loop];
    PostOtherStage(k, l.poller, l.queue, s.baseQueue.Todo(), Mapped(s, d), Establish(s.nextId));
  }

  lemma DistinctFrom(s: System, fd: Fd, d: ConnId)
    requires Inv(s) && fd in s.attempts && d in s.conns
    ensures s.conns[d].ch.fd != fd && d != s.nextId
  {
    hide Stage, LoopIn;
  }

  lemma NewIdentities(s: System, fd: Fd)
    requires Inv(s) && fd in s.attempts
    ensures Identities(NewConnection(s, fd))
  {
    hide Stages, LoopIn, BaseQueueIn, Entries;
  }

  lemma NewEntries(s: System, fd: Fd)
    requires Inv(s) && fd in s.attempts
    ensures var s' := NewConnection(s, fd);
            Entries(s') && BaseQueueIn(s'.conns, s'.baseQueue) && s'.faults == {}
  {
    hide Stages, LoopIn;
    FreshId(s);
    AttemptIsNew(s, fd);
  }

  lemma MoreFds(conns: map<ConnId, Conn>, c: ConnId, k: Conn)
    requires c !in conns
    ensures Fds(conns[c := k]) == Fds(conns) + {k.ch.fd}
  {
    var conns' := conns[c := k];
    forall f | f in Fds(conns) ensures f in Fds(conns') {
      var d :| d in conns && conns[d].ch.fd == f;
      assert d in conns' && conns'[d].ch.fd == f;
    }
    assert conns'[c].ch.fd == k.ch.fd;
  }

  lemma NewDescriptors(s: System, fd: Fd)
    requires Inv(s) && fd in s.attempts
    ensures Descriptors(NewConnection(s, fd))
  {
    hide Stages, LoopIn, BaseQueueIn, Entries, Fds;
    FreshId(s);
    MoreFds(s.conns, s.nextId, Fresh(s.nextId, fd, s.next));
  }

  /** A loop does not mind a new connection, nor its `Establish` if it is the owner. */
  lemma LoopMeetsNew(conns: map<ConnId, Conn>, l: IoLoop, i: nat, k: Conn)
    requires LoopIn(conns, l, i) && k.ch.id !in conns
    ensures LoopIn(conns[k.ch.id := k], l, i)
    ensures k.loop == i ==> LoopIn(conns[k.ch.id := k], l.(queue := l.queue.Post([Establish(k.ch.id)])), i)
  {
    hide IsOpen;
    PostTodo(l.queue, [Establish(k.ch.id)]);
  }

  lemma NewLoops(s: System, fd: Fd)
    requires Inv(s) && fd in s.attempts
    ensures var s' := NewConnection(s, fd); forall i :: 0 <= i < |s'.io| ==> LoopIn(s'.conns, s'.io[i], i)
  {
    hide Inv, LoopIn;
    FreshId(s);
    var s' := NewConnection(s, fd);
    forall i | 0 <= i < |s'.io| ensures LoopIn(s'.conns, s'.io[i], i) {
      LoopOf(s, i);
      LoopMeetsNew(s.conns, s.io[i], i, Fresh(s.nextId, fd, s.next));
    }
  }

  /** `newConnection` overwrites no entry, and the new channel's descriptor is unknown
      to its poller. */
  lemma NewKeepsInv(s: System, fd: Fd)
    requires Inv(s) && fd in s.attempts
    ensures Inv(NewConnection(s, fd))
  {
    hide Stage, LoopIn, Mapped, Fds;
    var s' := NewConnection(s, fd);
    NewIdentities(s, fd);
    NewEntries(s, fd);
    NewDescriptors(s, fd);
    NewLoops(s, fd);
    forall d | d in s'.conns ensures StageAt(s', d) {
      if d == s.nextId {
        NewStage(s, fd);
      } else {
        StageOf(s, d);
        DistinctFrom(s, fd, d);
        NewOtherStage(s, fd, d);
      }
    }
  }

  // ---- Erasing from the map --------------------------------------------------------

  lemma BaseOf(s: System)
    requires Inv(s)
    ensures BaseQueueIn(s.conns, s.baseQueue)
  {
  }

  /** A removal that is next in line finds its connection closed and still in the map,
      so `erase` removes exactly this connection's entry. */
  lemma RemovalIsClosed(s: System)
    requires Inv(s) && s.baseQueue.todo != []
    ensures var f := s.baseQueue.todo[0]; var c := f.conn;
            && f.RemoveConnection? && c in s.conns && s.conns[c].loop < |s.io|
            && Mapped(s, c) && Usable(s, c)
            && IsClosed(s.conns[c], s.io[s.conns[c].loop].poller)
  {
    hide Inv, LoopIn;
    BaseOf(s);
    var f := s.baseQueue.todo[0];
    assert f in s.baseQueue.Todo();
    StageOf(s, f.conn);
    PopCounts(s.baseQueue.Todo(), f);
    UsableIfMapped(s, f.conn);
  }

  lemma RemovedStage(k: Conn, p: Poller, q: seq<Functor>, b: seq<Functor>)
    requires Stage(k, p, q, b, true) && b != [] && b[0] == RemoveConnection(k.ch.id) && IsClosed(k, p)
    ensures Stage(k, p, q + [Destroy(k.ch.id)], b[1..], false)
  {
    var c := k.ch.id;
    PopCounts(b, RemoveConnection(c));
    assert Destroy(c) !in q;
  }

  lemma RemoveOtherStage(k: Conn, p: Poller, q: seq<Functor>, b: seq<Functor>, mapped: bool, c: ConnId)
    requires Stage(k, p, q, b, mapped) && b != [] && b[0] == RemoveConnection(c) && k.ch.id != c
    ensures Stage(k, p, q + [Destroy(c)], b[1..], mapped)
    ensures Stage(k, p, q, b[1..], mapped)
  {
    hide Stage;
    PopFor(b, k.ch.id);
    PostFor(q, [Destroy(c)], k.ch.id);
    assert SameFor(q, q, k.ch.id);
    StageFrame(k, p, p, q, q + [Destroy(c)], b, b[1..], mapped);
    StageFrame(k, p, p, q, q, b, b[1..], mapped);
  }

  lemma RemoveStages(s: System, retry: Option<Fd>)
    requires Inv(s) && s.baseQueue.todo != []
    requires DoBaseRun(s, retry) == RemoveInLoop(s.(baseQueue := s.baseQueue.Pop()), s.baseQueue.todo[0].conn, retry)
    ensures var s' := DoBaseRun(s, retry);
            forall d :: d in s'.conns ==> s'.conns[d].loop < |s'.io| && StageAt(s', d)
  {
    hide Inv, Stage, LoopIn, HasRef;
    RemovalIsClosed(s);
    var s' := DoBaseRun(s, retry);
    var c := s.baseQueue.todo[0].conn;
    var b := s.baseQueue.Todo();
    assert b[0] == RemoveConnection(c) && s'.baseQueue.Todo() == b[1..];
    forall d | d in s'.conns ensures s'.conns[d].loop < |s'.io| && StageAt(s', d) {
      StageOf(s, d);
      StageOf(s, c);
      var k := s.conns[d];
      var l := s.io[k.loop];
      PostTodo(l.queue, [Destroy(c)]);
      if d == c {
        RemovedStage(k, l.poller, l.queue.Todo(), b);
      } else {
        SameSlot(s, c, d);
        RemoveOtherStage(k, l.poller, l.queue.Todo(), b, Mapped(s, d), c);
      }
    }
  }

  lemma SameSlot(s: System, c: ConnId, d: ConnId)
    requires Inv(s) && c in s.conns && d in s.conns && c != d
    ensures s.conns[c].ch.fd != s.conns[d].ch.fd
  {
    hide Stages, LoopIn;
  }

  lemma RemoveLoops(s: System, c: ConnId, fs: seq<Functor>)
    requires Inv(s) && c in s.conns && s.conns[c].loop < |s.io|
    ensures var i := s.conns[c].loop;
            forall j :: 0 <= j < |s.io| ==>
              LoopIn(s.conns, if j == i then s.io[j].(queue := s.io[j].queue.Post([Destroy(c)])) else s.io[j], j)
  {
    hide Inv, ActiveIn, PollerIn;
    forall j | 0 <= j < |s.io|
      ensures LoopIn(s.conns, s.io[j], j)
      ensures j == s.conns[c].loop ==> LoopIn(s.conns, s.io[j].(queue := s.io[j].queue.Post([Destroy(c)])), j)
    {
      LoopOf(s, j);
      ActiveQueue(s.conns, s.io[j], j, s.io[j].queue.Post([Destroy(c)]));
      PostTodo(s.io[j].queue, [Destroy(c)]);
    }
  }

  lemma ActiveQueue(conns: map<ConnId, Conn>, l: IoLoop, i: nat, q: Queue)
    requires ActiveIn(conns, l, i)
    ensures ActiveIn(conns, l.(queue := q), i)
  {
  }

  lemma BaseRunIdentities(s: System, retry: Option<Fd>)
    requires Inv(s) && Enabled(s, BaseRun(retry))
    requires DoBaseRun(s, retry) == RemoveInLoop(s.(baseQueue := s.baseQueue.Pop()), s.baseQueue.todo[0].conn, retry)
    ensures var s' := DoBaseRun(s, retry); Identities(s') && Descriptors(s')
  {
    hide Stages, LoopIn, Entries, BaseQueueIn, Usable;
    RemovalIsClosed(s);
    var s' := DoBaseRun(s, retry);
    assert s'.conns == s.conns && s'.next == s.next && s'.nextId == s.nextId && |s'.io| == |s.io|;
    forall c | c in s.conns ensures s.conns[c].ch.fd in s.open {
      assert s.conns[c].ch.fd in Fds(s.conns);
    }
    assert s'.open == s'.attempts + Fds(s'.conns);
  }

  lemma BaseRunEntries(s: System, retry: Option<Fd>)
    requires Inv(s) && Enabled(s, BaseRun(retry))
    requires DoBaseRun(s, retry) == RemoveInLoop(s.(baseQueue := s.baseQueue.Pop()), s.baseQueue.todo[0].conn, retry)
    ensures var s' := DoBaseRun(s, retry);
            Entries(s') && BaseQueueIn(s'.conns, s'.baseQueue) && Idle(s'.baseQueue, s'.basePhase) && s'.faults == {}
  {
    hide Stages, LoopIn, Identities, Usable;
    RemovalIsClosed(s);
    var f := s.baseQueue.todo[0];
    PopCounts(s.baseQueue.Todo(), f);
    assert s.baseQueue.Pop().Todo() == s.baseQueue.Todo()[1..];
    var s' := DoBaseRun(s, retry);
    assert s'.basePhase.Draining?;
  }

  lemma BaseRunShape(s: System, retry: Option<Fd>)
    requires Inv(s) && s.baseQueue.todo != []
    ensures DoBaseRun(s, retry) == RemoveInLoop(s.(baseQueue := s.baseQueue.Pop()), s.baseQueue.todo[0].conn, retry)
  {
  }

  lemma BaseRunKeepsInv(s: System, retry: Option<Fd>)
    requires Inv(s) && Enabled(s, BaseRun(retry))
    ensures Inv(DoBaseRun(s, retry))
  {
    hide StageAt, LoopIn, Usable, Identities, Entries, Descriptors, BaseQueueIn;
    var s' := DoBaseRun(s, retry);
    BaseRunShape(s, retry);
    BaseRunIdentities(s, retry);
    BaseRunEntries(s, retry);
    RemoveStages(s, retry);
    RemovalIsClosed(s);
    RemoveLoops(s, s.baseQueue.todo[0].conn, []);
  }

  // ---- The destructor -----------------------------------------------------------------

  lemma HoldersOf(q: Queue)
    ensures forall f :: (f in q.Todo() || f in q.ran) && f.IsStrong() ==> q.Holds(f.conn)
  {
  }

  /** A connection without references has been destroyed on its loop. */
  lemma UnheldIsGone(s: System, c: ConnId)
    requires Inv(s) && c in s.conns && !HasRef(s, c)
    ensures s.conns[c].loop < |s.io| && IsGone(s.conns[c], s.io[s.conns[c].loop].poller)
    ensures forall f :: f in s.io[s.conns[c].loop].queue.Todo() ==> f.conn != c
  {
    hide Inv, LoopIn;
    StageOf(s, c);
    var q := s.io[s.conns[c].loop].queue;
    HoldersOf(q);
    assert !q.Holds(c);
    assert Destroy(c) !in q.Todo();
    assert Establish(c) !in q.Todo();
  }

  lemma FewerFds(conns: map<ConnId, Conn>, c: ConnId)
    requires c in conns && forall d :: d in conns && d != c ==> conns[d].ch.fd != conns[c].ch.fd
    ensures Fds(conns - {c}) == Fds(conns) - {conns[c].ch.fd}
  {
    var conns' := conns - {c};
    forall f | f in Fds(conns) && f != conns[c].ch.fd ensures f in Fds(conns') {
      var d :| d in conns && conns[d].ch.fd == f;
      assert d in conns' && conns'[d].ch.fd == f;
    }
  }

  lemma FreeDescriptors(s: System, c: ConnId)
    requires Inv(s) && c in s.conns
    ensures var s' := Destruct(s, c); Identities(s') && Descriptors(s')
  {
    hide Stages, LoopIn, Entries, BaseQueueIn, Fds;
    FewerFds(s.conns, c);
  }

  lemma FreeEntries(s: System, c: ConnId)
    requires Inv(s) && c in s.conns && !HasRef(s, c)
    ensures var s' := Destruct(s, c); Entries(s') && BaseQueueIn(s'.conns, s'.baseQueue)
  {
    hide Stages, LoopIn, Identities, Descriptors;
    HoldersOf(s.baseQueue);
  }

  lemma FreeLoop(s: System, c: ConnId, i: nat)
    requires Inv(s) && c in s.conns && !HasRef(s, c) && i < |s.io|
    ensures LoopIn(s.conns - {c}, s.io[i], i)
  {
    hide Inv, Stage;
    LoopOf(s, i);
    UnheldIsGone(s, c);
    var l := s.io[i];
    HoldersOf(l.queue);
    assert !l.queue.Holds(c);
  }

  lemma FreeKeepsInv(s: System, c: ConnId)
    requires Inv(s) && c in s.conns && !HasRef(s, c)
    ensures Inv(Destruct(s, c))
  {
    hide Stage, LoopIn, HasRef, Fds;
    var s' := Destruct(s, c);
    UnheldIsGone(s, c);
    FreeDescriptors(s, c);
    FreeEntries(s, c);
    forall i | 0 <= i < |s'.io| ensures LoopIn(s'.conns, s'.io[i], i) { FreeLoop(s, c, i); }
    forall d | d in s'.conns ensures StageAt(s', d) {
      assert StageAt(s, d);
    }
  }
}
