/** One complete life, step by step: the invariant's stages are all inhabited, and the
    descriptor is free again at the end. */
module ReactorExample {
  import opened Kernel
  import opened Polling
  import opened Connection
  import opened Reactor
  import opened ReactorTheorems

  const FD: Fd := 5
  const REQUEST: Bytes := [1]

  const EMPTY_POLLER := Poller(map[], map[])
  const BOTH := Mask(true, true)
  const WATCHED := Poller(map[FD := 0], map[FD := Interest(BOTH, 0)])
  const SILENT := Poller(map[FD := 0], map[])
  const OPENED := Conn(Chan(0, FD, BOTH, Added, true), 0, Connected, true, [], REQUEST, [], REQUEST, 0)
  const CLOSED := Conn(Chan(0, FD, NO_EVENTS, Deleted, true), 0, Disconnected, true, [], REQUEST, [], REQUEST, 1)
  const GONE := CLOSED.(ch := Chan(0, FD, NO_EVENTS, New, false))
  const GREETING := Reaction([Outgoing(REQUEST, WouldBlock)], false)
  const COUNTED := Stats(1, 1, 0, 1, 0, 0, 0)
  const HANG_UP := Ready(0, true, false, true, false, false, false)

  /** The system while connection 0 exists. */
  function With(basePhase: Phase, baseQueue: Queue, l: IoLoop, mapped: bool, k: Conn, st: Stats): System {
    System(basePhase, baseQueue, [l], 0, if mapped then map[FD := 0] else map[], map[0 := k], 1, {}, {FD}, st, {})
  }

  /** Equality field by field. */
  lemma Equal(s: System, t: System)
    requires s.basePhase == t.basePhase && SameQueue(s.baseQueue, t.baseQueue) && s.next == t.next && s.nextId == t.nextId
    requires |s.io| == |t.io| == 1 && s.io[0].phase == t.io[0].phase && s.io[0].active == t.io[0].active
    requires SameQueue(s.io[0].queue, t.io[0].queue)
    requires s.io[0].poller.channels == t.io[0].poller.channels && s.io[0].poller.kernel == t.io[0].poller.kernel
    requires s.connections == t.connections && s.conns.Keys == t.conns.Keys == {0} && SameConn(s.conns[0], t.conns[0])
    requires s.attempts == t.attempts && s.open == t.open && s.stats == t.stats && s.faults == t.faults
    ensures s == t
  {
  }

  predicate SameQueue(p: Queue, q: Queue) {
    p.ran == q.ran && p.todo == q.todo && p.pending == q.pending
  }

  predicate SameConn(k: Conn, l: Conn) {
    && k.ch == l.ch && k.loop == l.loop && k.state == l.state && k.tied == l.tied && k.closes == l.closes
    && k.input == l.input && k.out == l.out && k.taken == l.taken && k.accepted == l.accepted
  }

  // ---- The three handlers -----------------------------------------------------------

  lemma Establishing()
    ensures ConnectEstablished(World(Fresh(0, FD, 0), EMPTY_POLLER, [], [], NO_STATS, {}), GREETING)
         == World(OPENED, WATCHED, [], [], COUNTED, {})
  {
    var w := World(Fresh(0, FD, 0), EMPTY_POLLER, [], [], NO_STATS, {});
    var w1 := SetState(Check(w, true, StateAssert), Connected);
    var w2 := EnableWriting(w1.(conn := w1.conn.(tied := true)));
    var half := OPENED.(ch := Chan(0, FD, Mask(false, true), Added, true), out := [], accepted := []);
    assert w2.poller.channels == map[FD := 0];
    assert w2.poller.kernel == map[FD := Interest(Mask(false, true), 0)];
    assert w2.faults == {};
    assert w2 == World(half, Poller(map[FD := 0], map[FD := Interest(Mask(false, true), 0)]), [], [], NO_STATS, {});
    Greeting(w2.(stats := w2.stats.(numConn := 1)));
  }

  lemma Greeting(w: World)
    requires w.conn == OPENED.(ch := Chan(0, FD, Mask(false, true), Added, true), out := [], accepted := [])
    requires w.poller == Poller(map[FD := 0], map[FD := Interest(Mask(false, true), 0)])
    requires w.own == [] && w.base == [] && w.stats == Stats(1, 0, 0, 0, 0, 0, 0) && w.faults == {}
    ensures React(w, GREETING) == World(OPENED, WATCHED, [], [], COUNTED, {})
  {
    var w1 := CountedSend(w, GREETING.sends[0]);
    assert SendAll(w, GREETING.sends) == SendAll(w1, GREETING.sends[1..]) == w1;
    assert REQUEST[0..] == REQUEST && [] + REQUEST == REQUEST;
    assert w1.conn.out == REQUEST && w1.conn.accepted == REQUEST;
    assert w1.poller.kernel == map[FD := Interest(BOTH, 0)];
    assert w1.faults == {};
  }

  lemma Closing()
    ensures HandleEvent(World(OPENED, WATCHED, [], [], COUNTED, {}), HANG_UP, Env(Read([]), WouldBlock, QUIET))
         == World(CLOSED, SILENT, [], [RemoveConnection(0)], COUNTED, {})
  {
  }

  lemma Destroying()
    ensures ConnectDestroyed(World(CLOSED, SILENT, [], [], COUNTED, {})) == World(GONE, EMPTY_POLLER, [], [], COUNTED, {})
  {
  }

  // ---- The run ------------------------------------------------------------------------

  lemma Opens() returns (s: System)
    ensures Reachable(s)
    ensures s == With(Handling, EMPTY_QUEUE, IoLoop(Polling, [], EMPTY_QUEUE, WATCHED), true, OPENED, COUNTED)
  {
    var s0 := Init(1, {FD});
    assert s0 == Exec(s0, []);
    ReachStep(s0, BasePoll);
    var s1 := Step(s0, BasePoll);
    ReachStep(s1, AttemptSucceeds(FD));
    var s2 := Step(s1, AttemptSucceeds(FD));
    Equal(s2, With(Handling, EMPTY_QUEUE, IoLoop(Polling, [], Queue([], [], [Establish(0)]), EMPTY_POLLER), true, Fresh(0, FD, 0), NO_STATS));
    ReachStep(s2, Poll(0, [], []));
    var s3 := Step(s2, Poll(0, [], []));
    ReachStep(s3, Swap(0));
    var s4 := Step(s3, Swap(0));
    Equal(s4, With(Handling, EMPTY_QUEUE, IoLoop(Draining, [], Queue([], [Establish(0)], []), EMPTY_POLLER), true, Fresh(0, FD, 0), NO_STATS));
    s := Establishes(s4);
  }

  lemma Establishes(s4: System) returns (s: System)
    requires Reachable(s4)
    requires s4 == With(Handling, EMPTY_QUEUE, IoLoop(Draining, [], Queue([], [Establish(0)], []), EMPTY_POLLER), true, Fresh(0, FD, 0), NO_STATS)
    ensures Reachable(s)
    ensures s == With(Handling, EMPTY_QUEUE, IoLoop(Polling, [], EMPTY_QUEUE, WATCHED), true, OPENED, COUNTED)
  {
    hide ConnectEstablished, Reachable;
    Establishing();
    assert GREETING.sends[0].message != [];
    assert s4.connections[FD] == 0;
    assert Usable(s4, 0);
    assert Talks(GREETING);
    ReachStep(s4, Run(0, GREETING));
    var s5 := Step(s4, Run(0, GREETING));
    Equal(s5, With(Handling, EMPTY_QUEUE, IoLoop(Draining, [], Queue([Establish(0)], [], []), WATCHED), true, OPENED, COUNTED));
    ReachStep(s5, End(0));
    s := Step(s5, End(0));
  }

  lemma Closes() returns (s: System)
    ensures Reachable(s)
    ensures s == With(Handling, Queue([], [], [RemoveConnection(0)]), IoLoop(Polling, [], EMPTY_QUEUE, SILENT), true, CLOSED, COUNTED)
  {
    hide HandleEvent, Reachable;
    Closing();
    var s6 := Opens();
    var poll := Poll(0, [FD], [HANG_UP]);
    ReachStep(s6, poll);
    var s7 := Step(s6, poll);
    var bye := Event(0, Env(Read([]), WouldBlock, QUIET));
    assert s7.connections[FD] == 0;
    assert Usable(s7, 0);
    ReachStep(s7, bye);
    var s8 := Step(s7, bye);
    Equal(s8, With(Handling, Queue([], [], [RemoveConnection(0)]), IoLoop(Handling, [], EMPTY_QUEUE, SILENT), true, CLOSED, COUNTED));
    ReachStep(s8, Swap(0));
    var s9 := Step(s8, Swap(0));
    ReachStep(s9, End(0));
    s := Step(s9, End(0));
  }

  lemma Erased() returns (s: System)
    ensures Reachable(s)
    ensures s == With(Polling, EMPTY_QUEUE, IoLoop(Polling, [], Queue([], [], [Destroy(0)]), SILENT), false, CLOSED, COUNTED)
  {
    hide Reachable;
    var s10 := Closes();
    ReachStep(s10, BaseSwap);
    var s11 := Step(s10, BaseSwap);
    assert s11.connections[FD] == 0;
    assert Usable(s11, 0);
    ReachStep(s11, BaseRun(None));
    var s12 := Step(s11, BaseRun(None));
    ReachStep(s12, BaseEnd);
    s := Step(s12, BaseEnd);
    Equal(s, With(Polling, EMPTY_QUEUE, IoLoop(Polling, [], Queue([], [], [Destroy(0)]), SILENT), false, CLOSED, COUNTED));
  }

  lemma Destroyed() returns (s: System)
    ensures Reachable(s)
    ensures s == With(Polling, EMPTY_QUEUE, IoLoop(Polling, [], EMPTY_QUEUE, EMPTY_POLLER), false, GONE, COUNTED)
  {
    hide ConnectDestroyed, Reachable;
    Destroying();
    var s13 := Erased();
    ReachStep(s13, Poll(0, [], []));
    var s14 := Step(s13, Poll(0, [], []));
    ReachStep(s14, Swap(0));
    var s15 := Step(s14, Swap(0));
    assert Destroy(0) in s15.io[0].queue.todo;
    assert s15.io[0].queue.Holds(0);
    assert Usable(s15, 0);
    ReachStep(s15, Run(0, QUIET));
    var s16 := Step(s15, Run(0, QUIET));
    ReachStep(s16, End(0));
    s := Step(s16, End(0));
    Equal(s, With(Polling, EMPTY_QUEUE, IoLoop(Polling, [], EMPTY_QUEUE, EMPTY_POLLER), false, GONE, COUNTED));
  }

  /** Opened, established, closed by the peer, erased, destroyed and freed, with the
      socket given back: a run of eighteen steps. */
  lemma OneWholeLife() returns (s: System)
    ensures Reachable(s)
    ensures s.nextId == 1 && s.conns == map[] && s.connections == map[] && s.open == {} && s.stats == COUNTED
  {
    hide Reachable;
    var s17 := Destroyed();
    ReachStep(s17, Free(0));
    s := Step(s17, Free(0));
  }
}
