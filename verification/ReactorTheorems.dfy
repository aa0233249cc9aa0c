/** What holds in every run of the client. */
module ReactorTheorems {
  import opened Kernel
  import opened Polling
  import opened Connection
  import opened ConnectionProofs
  import opened Reactor
  import opened ReactorInvariant
  import opened ReactorSteps
  import opened ThreadPool

  // ---- The invariant over runs ----------------------------------------------------

  lemma StepKeepsInv(s: System, a: Action)
    requires Inv(s) && Enabled(s, a)
    ensures Inv(Step(s, a))
  {
    hide Inv, DoEvent, DoRun, DoBaseRun, NewConnection, Destruct, Commit, HasRef, React;
    match a
    case Poll(i, fds, ready) => PollKeepsInv(s, i, fds, ready);
    case Event(i, e) => EventKeepsInv(s, i, e);
    case Act(i, c, r) => ActKeepsInv(s, i, c, r);
    case Swap(i) => BatchKeepsInv(s, i);
    case Run(i, r) => RunKeepsInv(s, i, r);
    case End(i) => BatchKeepsInv(s, i);
    case BasePoll => BaseTurnKeepsInv(s);
    case AttemptSucceeds(fd) => NewKeepsInv(s, fd);
    case AttemptFails(fd) => AttemptFailsKeepsInv(s, fd);
    case BaseSwap => BaseTurnKeepsInv(s);
    case BaseRun(retry) => BaseRunKeepsInv(s, retry);
    case BaseEnd => BaseTurnKeepsInv(s);
    case Free(c) => FreeKeepsInv(s, c);
  }

  lemma BaseTurnKeepsInv(s: System)
    requires Inv(s)
    ensures Enabled(s, BasePoll) ==> Inv(Step(s, BasePoll))
    ensures Enabled(s, BaseSwap) ==> Inv(Step(s, BaseSwap))
    ensures Enabled(s, BaseEnd) ==> Inv(Step(s, BaseEnd))
  {
    hide Stages, LoopIn;
    if s.basePhase.Polling? { BasePhaseKeepsInv(s, Handling, s.baseQueue); }
    if s.basePhase.Handling? {
      assert s.baseQueue.Swap().Todo() == s.baseQueue.Todo();
      BasePhaseKeepsInv(s, Draining, s.baseQueue.Swap());
    }
    if Enabled(s, BaseEnd) { BasePhaseKeepsInv(s, Polling, s.baseQueue.Drop()); }
  }

  lemma InitInv(loops: nat, attempts: set<Fd>)
    requires loops > 0
    ensures Inv(Init(loops, attempts))
  {
  }

  /** The invariant holds after every run of every length, in every interleaving. */
  lemma {:induction false} RunsKeepInv(loops: nat, attempts: set<Fd>, actions: seq<Action>)
    requires loops > 0
    ensures Inv(Exec(Init(loops, attempts), actions))
    decreases |actions|
  {
    hide Inv, Step, Enabled;
    if actions == [] {
      InitInv(loops, attempts);
    } else {
      var before := Exec(Init(loops, attempts), actions[..|actions| - 1]);
      var a := actions[|actions| - 1];
      RunsKeepInv(loops, attempts, actions[..|actions| - 1]);
      if Enabled(before, a) { StepKeepsInv(before, a); }
    }
  }

  /** The states some run leads to, with at least one pool thread. */
  ghost predicate Reachable(s: System) {
    exists loops: nat, attempts: set<Fd>, actions: seq<Action> ::
      loops > 0 && s == Exec(Init(loops, attempts), actions)
  }

  lemma ReachStep(s: System, a: Action)
    requires Reachable(s) && Enabled(s, a)
    ensures Reachable(Step(s, a))
  {
    hide Step, Enabled;
    var loops: nat, attempts: set<Fd>, actions: seq<Action> :|
      loops > 0 && s == Exec(Init(loops, attempts), actions);
    var more := actions + [a];
    assert more[..|more| - 1] == actions;
    assert Exec(Init(loops, attempts), more) == Step(s, a);
  }

  lemma ReachableInv(s: System)
    requires Reachable(s)
    ensures Inv(s)
  {
    hide Inv, Exec, Init;
    var loops: nat, attempts: set<Fd>, actions: seq<Action> :|
      loops > 0 && s == Exec(Init(loops, attempts), actions);
    RunsKeepInv(loops, attempts, actions);
  }

  /** No run fails an assertion, has an `epoll_ctl` refused, writes an empty buffer,
      overwrites a map entry, misses an erase, or uses a connection without owning it. */
  lemma NoFaultInAnyRun(s: System)
    requires Reachable(s)
    ensures s.faults == {}
  {
    hide Stages, LoopIn, Reachable;
    ReachableInv(s);
  }

  // ---- Raw pointers ---------------------------------------------------------------

  /** Every raw pointer the program will still follow leads to a connection that
      somebody owns: the channels waiting in an active list, which are open, the channels the kernel
      can report, and the connections captured by queued force closes, each of which
      runs before its connection's destruction. */
  lemma RawPointersAreOwned(s: System, i: nat)
    requires Reachable(s) && i < |s.io|
    ensures forall j :: 0 <= j < |s.io[i].active| ==>
              Usable(s, s.io[i].active[j].ptr) && IsOpen(s.conns[s.io[i].active[j].ptr], s.io[i].poller)
    ensures forall fd :: fd in s.io[i].poller.kernel ==> Usable(s, s.io[i].poller.kernel[fd].ptr)
    ensures forall f :: f in s.io[i].queue.Todo() ==> Usable(s, f.conn)
    ensures var q := s.io[i].queue.Todo();
            forall j, k :: 0 <= j < |q| && 0 <= k < |q| && q[j].ForceClose? && q[k] == Destroy(q[j].conn) ==> j < k
  {
    hide Inv, Stage, HasRef, Reachable;
    ReachableInv(s);
    LoopOf(s, i);
    var l := s.io[i];
    forall j | 0 <= j < |l.active| ensures Usable(s, l.active[j].ptr) {
      StageOf(s, l.active[j].ptr);
      MappedIfUp(s, l.active[j].ptr);
    }
    forall fd | fd in l.poller.kernel ensures Usable(s, l.poller.kernel[fd].ptr) {
      ReadyIsOpen(s, i, fd);
      StageOf(s, l.poller.kernel[fd].ptr);
      MappedIfUp(s, l.poller.kernel[fd].ptr);
    }
    forall f | f in l.queue.Todo() ensures Usable(s, f.conn) {
      if f.IsStrong() {
        HoldersOf(l.queue);
        HeldIsUsable(s, i, f.conn);
      } else {
        StageOf(s, f.conn);
        ForceCloseIsUsable(s, i, f.conn);
      }
    }
    var q := l.queue.Todo();
    forall j, k | 0 <= j < |q| && 0 <= k < |q| && q[j].ForceClose? && q[k] == Destroy(q[j].conn) ensures j < k {
      assert q[k] in q;
      StageOf(s, q[k].conn);
      OrderOf(s, q[k].conn);
    }
  }

  lemma HeldIsUsable(s: System, i: nat, c: ConnId)
    requires i < |s.io| && c in s.conns && s.io[i].queue.Holds(c)
    ensures Usable(s, c)
  {
  }

  lemma OrderOf(s: System, c: ConnId)
    requires c in s.conns && s.conns[c].loop < |s.io| && s.conns[c].ch.id == c && StageAt(s, c)
    ensures Ordered(s.io[s.conns[c].loop].queue.Todo(), c)
  {
  }

  // ---- The interest set -------------------------------------------------------------

  /** The entry speaks for an open connection of loop `i`, with its current mask. */
  ghost predicate SpeaksForOpen(s: System, i: nat, fd: Fd, e: Interest)
    requires i < |s.io|
  {
    && e.ptr in s.conns && s.conns[e.ptr].loop == i && s.conns[e.ptr].ch.fd == fd
    && IsOpen(s.conns[e.ptr], s.io[i].poller) && e.events == s.conns[e.ptr].ch.events
  }

  /** The interest set of an I/O loop is exactly its kAdded channels with their current
      masks, and those are exactly its open connections; kDeleted channels are closed
      connections that are mapped but silent; kNew ones are unmapped. */
  lemma InterestSetIsExact(s: System, i: nat)
    requires Reachable(s) && i < |s.io|
    ensures var p := s.io[i].poller;
            && (forall fd :: fd in p.kernel ==> SpeaksForOpen(s, i, fd, p.kernel[fd]))
            && (forall c :: c in s.conns && s.conns[c].loop == i ==>
                  var ch := s.conns[c].ch;
                  && (ch.index.Added? <==> IsUp(s.conns[c].state))
                  && (ch.index.Added? <==> ch.fd in p.kernel)
                  && (ch.index.Added? ==> p.kernel[ch.fd] == Interest(ch.events, c))
                  && (ch.index.New? <==> ch.fd !in p.channels)
                  && (!ch.index.New? ==> p.channels[ch.fd] == c))
            && (forall fd :: fd in p.channels ==> p.channels[fd] in s.conns && s.conns[p.channels[fd]].ch.fd == fd)
  {
    hide Inv, Reachable;
    ReachableInv(s);
    LoopOf(s, i);
    var p := s.io[i].poller;
    forall fd | fd in p.kernel ensures SpeaksForOpen(s, i, fd, p.kernel[fd]) {
      ReadyIsOpen(s, i, fd);
      StageOf(s, p.kernel[fd].ptr);
    }
    forall c | c in s.conns && s.conns[c].loop == i
      ensures var ch := s.conns[c].ch;
              && (ch.index.Added? <==> IsUp(s.conns[c].state))
              && (ch.index.Added? <==> ch.fd in p.kernel)
              && (ch.index.Added? ==> p.kernel[ch.fd] == Interest(ch.events, c))
              && (ch.index.New? <==> ch.fd !in p.channels)
              && (!ch.index.New? ==> p.channels[ch.fd] == c)
    {
      StageOf(s, c);
    }
  }

  // ---- One way, once ------------------------------------------------------------------

  lemma CommitMovesForward(s: System, i: nat, l: IoLoop, c: ConnId, w': World, d: ConnId)
    requires i < |s.io| && c in s.conns && Tame(WorldOf(s, i, c), w') && d in s.conns
    ensures var s' := Commit(s, i, l, c, w');
            d in s'.conns && Forward(s.conns[d], s'.conns[d])
  {
  }

  /** A connection keeps its loop and descriptor, its state moves on or stays, and what
      was accepted or written is never taken back. */
  ghost predicate Forward(k: Conn, k': Conn) {
    && k'.loop == k.loop && k'.ch.fd == k.ch.fd && k'.ch.id == k.ch.id
    && Rank(k.state) <= Rank(k'.state)
    && k.taken <= k'.taken && k.accepted <= k'.accepted
  }

  lemma StepMovesForward(s: System, a: Action, d: ConnId)
    requires Inv(s) && Enabled(s, a) && d in s.conns && d in Step(s, a).conns
    ensures Forward(s.conns[d], Step(s, a).conns[d])
  {
    hide Inv, Stage, Registered, HasRef, HandleEvent, React, Ran, Tame, Turns, Deliverable;
    var s' := Step(s, a);
    match a
    case Event(i, e) =>
      LoopOf(s, i);
      var r := s.io[i].active[0];
      StageOf(s, r.ptr);
      MappedIfUp(s, r.ptr);
      EventIsTame(s, i, e);
      CommitMovesForward(s, i, s.io[i].(active := s.io[i].active[1..]), r.ptr, HandleEvent(WorldOf(s, i, r.ptr), r, e), d);
    case Act(i, c, r) =>
      StageOf(s, c);
      ActStage(WorldOf(s, i, c), r, s.io[i].queue.Todo(), s.baseQueue.Todo(), Mapped(s, c));
      CommitMovesForward(s, i, s.io[i], c, React(WorldOf(s, i, c), r), d);
    case Run(i, r) =>
      NextIsUsable(s, i);
      var q := s.io[i].queue;
      var f := q.todo[0];
      StageOf(s, f.conn);
      RunStage(WorldOf(s, i, f.conn), f, r, q.Todo(), s.baseQueue.Todo(), Mapped(s, f.conn));
      CommitMovesForward(s, i, s.io[i].(queue := q.Pop()), f.conn, Ran(WorldOf(s, i, f.conn), f, r), d);
    case AttemptSucceeds(fd) => DistinctFrom(s, fd, d);
    case _ =>
  }

  /** In any run, no step moves a connection's state back, changes its loop or descriptor,
      or takes back accepted or written bytes. */
  lemma StatesOnlyMoveForward(s: System, a: Action, d: ConnId)
    requires Reachable(s) && Enabled(s, a) && d in s.conns && d in Step(s, a).conns
    ensures Forward(s.conns[d], Step(s, a).conns[d])
  {
    hide Inv, Reachable, Forward, Step, Enabled;
    ReachableInv(s);
    StepMovesForward(s, a, d);
  }

  lemma EventIsTame(s: System, i: nat, e: Env)
    requires Inv(s) && i < |s.io| && s.io[i].active != []
    ensures var r := s.io[i].active[0];
            r.ptr in s.conns && Tame(WorldOf(s, i, r.ptr), HandleEvent(WorldOf(s, i, r.ptr), r, e))
  {
    hide Inv, HandleEvent, Tame;
    LoopOf(s, i);
    EventTurns(WorldOf(s, i, s.io[i].active[0].ptr), s.io[i].active[0], e);
  }

  /** The close callback has fired exactly for the connections that are down, and once;
      the output stream is intact; an open connection reads, and writes exactly while
      bytes wait; nothing read is left over. */
  predicate Layered(k: Conn) {
    && k.closes == (if k.state.Disconnected? then 1 else 0)
    && k.taken + k.out == k.accepted
    && k.input == []
    && (IsUp(k.state) ==> k.ch.events.read && (k.ch.events.write <==> k.out != []))
    && (!IsUp(k.state) ==> k.ch.events.IsNone())
  }

  lemma StageIsLayered(k: Conn, p: Poller, q: seq<Functor>, b: seq<Functor>, mapped: bool)
    requires Stage(k, p, q, b, mapped)
    ensures Layered(k)
  {
  }

  /** Between callbacks every connection of every run is layered. */
  lemma EveryConnectionIsLayered(s: System, c: ConnId)
    requires Reachable(s) && c in s.conns
    ensures Layered(s.conns[c])
  {
    hide Inv, LoopIn, Reachable, Stage;
    ReachableInv(s);
    StageOf(s, c);
    var k := s.conns[c];
    StageIsLayered(k, s.io[k.loop].poller, s.io[k.loop].queue.Todo(), s.baseQueue.Todo(), Mapped(s, c));
  }

  // ---- Hand-offs ------------------------------------------------------------------------

  /** A closed connection is never forgotten and never handed over twice: exactly one
      removal is on its way to the base loop while the map holds it, then exactly one
      destruction is on its way back, and after that no loop will touch it again. */
  lemma HandOffsAreExact(s: System, c: ConnId)
    requires Reachable(s) && c in s.conns && s.conns[c].state.Disconnected?
    ensures var k := s.conns[c];
            k.loop < |s.io|
            && var b := multiset(s.baseQueue.Todo())[RemoveConnection(c)];
            var d := multiset(s.io[k.loop].queue.Todo())[Destroy(c)];
            && (Mapped(s, c) ==> b == 1 && d == 0)
            && (!Mapped(s, c) && !k.ch.index.New? ==> b == 0 && d == 1)
            && (k.ch.index.New? ==> b == 0 && d == 0 && ForceClose(c) !in s.io[k.loop].queue.Todo())
  {
    hide Inv, LoopIn, Reachable;
    ReachableInv(s);
    StageOf(s, c);
  }

  /** Nothing leaks: once all queues have run empty and every unowned connection is
      freed, the connections in memory are exactly those in the map, all of them open,
      and the open sockets are theirs and the connector's. */
  lemma QuietMeansNoLeak(s: System)
    requires Reachable(s)
    requires s.baseQueue == EMPTY_QUEUE && forall i :: 0 <= i < |s.io| ==> s.io[i].queue == EMPTY_QUEUE
    requires forall c :: c in s.conns ==> HasRef(s, c)
    ensures s.conns.Keys == s.connections.Values
    ensures forall c :: c in s.conns ==> s.conns[c].loop < |s.io| && IsOpen(s.conns[c], s.io[s.conns[c].loop].poller)
    ensures s.open == s.attempts + s.connections.Keys
  {
    hide LoopIn, Stages, Reachable;
    ReachableInv(s);
    forall c | c in s.conns
      ensures s.conns[c].loop < |s.io| && IsOpen(s.conns[c], s.io[s.conns[c].loop].poller) && Mapped(s, c)
    {
      QuietIsOpen(s, c);
    }
    forall c | c in s.conns ensures c in s.connections.Values {
      assert s.connections[s.conns[c].ch.fd] == c;
    }
    forall fd | fd in Fds(s.conns) ensures fd in s.connections {}
    forall fd | fd in s.connections ensures fd in Fds(s.conns) {
      assert s.conns[s.connections[fd]].ch.fd == fd;
    }
  }

  lemma QuietIsOpen(s: System, c: ConnId)
    requires Inv(s) && c in s.conns && HasRef(s, c)
    requires s.baseQueue == EMPTY_QUEUE && forall i :: 0 <= i < |s.io| ==> s.io[i].queue == EMPTY_QUEUE
    ensures s.conns[c].loop < |s.io| && IsOpen(s.conns[c], s.io[s.conns[c].loop].poller) && Mapped(s, c)
  {
    hide LoopIn, Stages;
    StageOf(s, c);
  }

  // ---- Conservation of connections -------------------------------------------------------

  /** Attempts in flight and map entries together. */
  function Load(s: System): nat {
    |s.attempts| + |s.connections|
  }

  lemma EraseShrinks<K, V>(m: map<K, V>, k: K)
    requires k in m
    ensures |m - {k}| == |m| - 1
  {
  }

  lemma NewConserves(s: System, fd: Fd)
    requires Inv(s) && fd in s.attempts
    ensures Load(NewConnection(s, fd)) <= Load(s)
  {
  }

  lemma RemovalConserves(s: System, retry: Option<Fd>)
    requires Inv(s) && s.baseQueue.todo != []
    ensures Load(DoBaseRun(s, retry)) <= Load(s)
  {
    hide Inv, HasRef;
    RemovalIsClosed(s);
    var c := s.baseQueue.todo[0].conn;
    EraseShrinks(s.connections, s.conns[c].ch.fd);
    if retry.Some? { assert |s.attempts + {retry.value}| <= |s.attempts| + 1; }
  }

  /** The I/O loops leave the map and the attempts alone. */
  lemma IoKeepsMap(s: System, a: Action)
    requires Enabled(s, a) && (a.Event? || a.Run? || a.Act?)
    ensures Step(s, a).connections == s.connections && Step(s, a).attempts == s.attempts
    ensures Step(s, a).conns.Keys == s.conns.Keys
    ensures Step(s, a).next == s.next && Step(s, a).nextId == s.nextId && |Step(s, a).io| == |s.io|
  {
    hide HandleEvent, Ran, React, HasRef, Deliverable;
  }

  /** A new connection consumes an attempt, a removal starts at most one. */
  lemma StepConserves(s: System, a: Action)
    requires Inv(s) && Enabled(s, a)
    ensures Load(Step(s, a)) <= Load(s)
  {
    hide Inv, HasRef, React, Deliverable, NewConnection, DoBaseRun, DoEvent, DoRun, Commit;
    match a
    case AttemptSucceeds(fd) => NewConserves(s, fd);
    case AttemptFails(fd) => assert |s.attempts - {fd}| <= |s.attempts|;
    case BaseRun(retry) => RemovalConserves(s, retry);
    case Event(_, _) => IoKeepsMap(s, a);
    case Run(_, _) => IoKeepsMap(s, a);
    case Act(_, _, _) => IoKeepsMap(s, a);
    case _ =>
  }

  /** In every run, connection attempts in flight plus live map entries never exceed the
      number of clients the connector was started with. */
  lemma {:induction false} NeverMoreThanConfigured(loops: nat, attempts: set<Fd>, actions: seq<Action>)
    requires loops > 0
    ensures Load(Exec(Init(loops, attempts), actions)) <= |attempts|
    decreases |actions|
  {
    hide Inv, Step, Enabled;
    if actions != [] {
      var before := Exec(Init(loops, attempts), actions[..|actions| - 1]);
      NeverMoreThanConfigured(loops, attempts, actions[..|actions| - 1]);
      RunsKeepInv(loops, attempts, actions[..|actions| - 1]);
      if Enabled(before, actions[|actions| - 1]) { StepConserves(before, actions[|actions| - 1]); }
    }
  }

  // ---- Round robin --------------------------------------------------------------------------

  ghost predicate Robin(s: System) {
    && |s.io| > 0
    && s.next == s.nextId % |s.io|
    && forall c :: c in s.conns ==> s.conns[c].loop == c % |s.io|
  }

  lemma StepKeepsRobin(s: System, a: Action)
    requires Inv(s) && Robin(s) && Enabled(s, a)
    ensures Robin(Step(s, a)) && |Step(s, a).io| == |s.io|
  {
    hide Inv, HasRef, React, Deliverable, DoEvent, DoRun, Commit;
    if a.AttemptSucceeds? { NextModulo(s.nextId, |s.io|); }
    if a.Event? || a.Run? || a.Act? { IoKeepsMap(s, a); }
    if a.BaseRun? { RemovalIsClosed(s); }
    forall d | d in s.conns && d in Step(s, a).conns ensures Step(s, a).conns[d].loop == s.conns[d].loop {
      StepKeepsLoop(s, a, d);
    }
  }

  lemma StepKeepsLoop(s: System, a: Action, d: ConnId)
    requires Inv(s) && Enabled(s, a) && d in s.conns && d in Step(s, a).conns
    ensures Step(s, a).conns[d].loop == s.conns[d].loop
  {
    hide Inv, HasRef;
    StepMovesForward(s, a, d);
  }

  /** In every run the k-th connection lives on loop `k mod n`. */
  lemma {:induction false} ConnectionsGoRound(loops: nat, attempts: set<Fd>, actions: seq<Action>)
    requires loops > 0
    ensures var s := Exec(Init(loops, attempts), actions);
            |s.io| == loops && forall c :: c in s.conns ==> s.conns[c].loop == c % loops
  {
    RobinRuns(loops, attempts, actions);
  }

  lemma {:induction false} RobinRuns(loops: nat, attempts: set<Fd>, actions: seq<Action>)
    requires loops > 0
    ensures var s := Exec(Init(loops, attempts), actions); Robin(s) && |s.io| == loops
    decreases |actions|
  {
    hide Inv, Step, Enabled;
    if actions == [] {
      DivModUnique(0, loops, 0, 0);
    } else {
      var before := Exec(Init(loops, attempts), actions[..|actions| - 1]);
      RobinRuns(loops, attempts, actions[..|actions| - 1]);
      RunsKeepInv(loops, attempts, actions[..|actions| - 1]);
      if Enabled(before, actions[|actions| - 1]) { StepKeepsRobin(before, actions[|actions| - 1]); }
    }
  }
}
