/** The whole client: the base loop with its connection map and connection attempts,
    the I/O loops with their pollers, and the functors that travel between them. A run
    is any sequence of actions; each action is one step of one thread. */
module Reactor {
  import opened Kernel
  import opened Polling
  import opened Connection
  import opened ThreadPool

  /** A loop's functors. `ran` and `todo` are the batch swapped out by
      `doPendingFunctors`: its elements keep their captures until the batch ends. */
  datatype Queue = Queue(ran: seq<Functor>, todo: seq<Functor>, pending: seq<Functor>) {
    /** What still has to run, in order. */
    function Todo(): seq<Functor> {
      todo + pending
    }

    function Post(fs: seq<Functor>): Queue {
      this.(pending := pending + fs)
    }

    /** `functors.swap(pendingFunctors_)`. */
    function Swap(): Queue {
      Queue([], pending, [])
    }

    function Pop(): Queue
      requires todo != []
    {
      Queue(ran + [todo[0]], todo[1..], pending)
    }

    function Drop(): Queue {
      this.(ran := [])
    }

    /** Some functor of this queue holds a strong reference to the connection. */
    predicate Holds(c: ConnId) {
      || (exists f :: f in ran && f.IsStrong() && f.conn == c)
      || (exists f :: f in todo && f.IsStrong() && f.conn == c)
      || (exists f :: f in pending && f.IsStrong() && f.conn == c)
    }
  }

  const EMPTY_QUEUE := Queue([], [], [])

  datatype Phase = Polling | Handling | Draining

  datatype IoLoop = IoLoop(phase: Phase, active: seq<Ready>, queue: Queue, poller: Poller)

  /** `connections` is the client's map, `conns` the connection objects in memory,
      `attempts` the connector's sockets, and `open` the process's open sockets. */
  datatype System = System(basePhase: Phase, baseQueue: Queue, io: seq<IoLoop>, next: nat,
                           connections: map<Fd, ConnId>, conns: map<ConnId, Conn>, nextId: ConnId,
                           attempts: set<Fd>, open: set<Fd>, stats: Stats, faults: set<Fault>)

  const NO_STATS := Stats(0, 0, 0, 0, 0, 0, 0)

  /** After `Client::start` on `loops` pool threads: the initial attempts are under way. */
  function Init(loops: nat, attempts: set<Fd>): System {
    System(Polling, EMPTY_QUEUE, seq(loops, _ => IoLoop(Polling, [], EMPTY_QUEUE, Poller(map[], map[]))), 0,
           map[], map[], 0, attempts, attempts, NO_STATS, {})
  }

  datatype Action =
    | Poll(loop: nat, fds: seq<Fd>, ready: seq<Ready>)    // epoll_wait returns on an I/O loop
    | Event(loop: nat, env: Env)                          // handleEvent of the next active channel
    | Act(loop: nat, conn: ConnId, reaction: Reaction)    // the application calls send / forceClose
    | Swap(loop: nat)                                     // doPendingFunctors takes the batch
    | Run(loop: nat, reaction: Reaction)                  // the next functor of the batch
    | End(loop: nat)                                      // the batch is dropped
    | BasePoll                                            // the same on the base loop
    | AttemptSucceeds(fd: Fd)
    | AttemptFails(fd: Fd)
    | BaseSwap
    | BaseRun(retry: Option<Fd>)
    | BaseEnd
    | Free(conn: ConnId)                                  // the last reference is gone

  // ---- Ownership ----------------------------------------------------------------

  /** A strong reference to the connection exists: a map entry or a queued functor. */
  predicate HasRef(s: System, c: ConnId) {
    || (exists fd :: fd in s.connections && s.connections[fd] == c)
    || s.baseQueue.Holds(c)
    || exists i :: 0 <= i < |s.io| && s.io[i].queue.Holds(c)
  }

  predicate Usable(s: System, c: ConnId) {
    c in s.conns && HasRef(s, c)
  }

  function Blame(s: System, fault: Fault): System {
    s.(faults := s.faults + {fault})
  }

  // ---- One turn of an I/O loop ----------------------------------------------------

  function WorldOf(s: System, i: nat, c: ConnId): World
    requires i < |s.io| && c in s.conns
  {
    World(s.conns[c], s.io[i].poller, [], [], s.stats, {})
  }

  /** The loop becomes `l`, with what the handler left behind. */
  function Commit(s: System, i: nat, l: IoLoop, c: ConnId, w: World): System
    requires i < |s.io|
  {
    s.(conns := s.conns[c := w.conn],
       io := s.io[i := l.(queue := l.queue.Post(w.own), poller := w.poller)],
       baseQueue := s.baseQueue.Post(w.base), stats := w.stats, faults := s.faults + w.faults)
  }

  function DoEvent(s: System, i: nat, e: Env): System
    requires i < |s.io| && s.io[i].active != []
  {
    var l := s.io[i];
    var r := l.active[0];
    var l1 := l.(active := l.active[1..]);
    if !Usable(s, r.ptr) then Blame(s.(io := s.io[i := l1]), DanglingUse)
    else Commit(s, i, l1, r.ptr, HandleEvent(WorldOf(s, i, r.ptr), r, e))
  }

  /** What an I/O loop's functor does to its connection. */
  function Ran(w: World, f: Functor, r: Reaction): World {
    match f
    case Establish(_) => ConnectEstablished(w, r)
    case ForceClose(_) => ForceCloseInLoop(w)
    case Destroy(_) => ConnectDestroyed(w)
    case RemoveConnection(_) => w
  }

  function DoRun(s: System, i: nat, r: Reaction): System
    requires i < |s.io| && s.io[i].queue.todo != []
  {
    var l := s.io[i];
    var f := l.queue.todo[0];
    var l1 := l.(queue := l.queue.Pop());
    if !Usable(s, f.conn) then Blame(s.(io := s.io[i := l1]), DanglingUse)
    else if f.RemoveConnection? || s.conns[f.conn].loop != i then Blame(s.(io := s.io[i := l1]), WrongLoop)
    else
      Commit(s, i, l1, f.conn, Ran(WorldOf(s, i, f.conn), f, r))
  }

  // ---- One turn of the base loop ---------------------------------------------------

  /** `Client::newConnection`. */
  function NewConnection(s: System, fd: Fd): System
    requires s.next < |s.io|
  {
    var l := s.io[s.next];
    s.(connections := s.connections[fd := s.nextId],
       conns := s.conns[s.nextId := Fresh(s.nextId, fd, s.next)],
       nextId := s.nextId + 1,
       io := s.io[s.next := l.(queue := l.queue.Post([Establish(s.nextId)]))],
       next := After(s.next, |s.io|),
       attempts := s.attempts - {fd},
       faults := s.faults + FaultIf(fd in s.connections, OverwrittenEntry))
  }

  /** `Client::removeConnectionInLoop`: erase, hand the connection back to its loop,
      and start one new attempt, whose socket is `retry` if `connect` did not fail. */
  function RemoveInLoop(s: System, c: ConnId, retry: Option<Fd>): System
    requires c in s.conns && s.conns[c].loop < |s.io|
  {
    var k := s.conns[c];
    var l := s.io[k.loop];
    var added := if retry.Some? then {retry.value} else {};
    s.(connections := s.connections - {k.ch.fd},
       io := s.io[k.loop := l.(queue := l.queue.Post([Destroy(c)]))],
       attempts := s.attempts + added, open := s.open + added,
       faults := s.faults + FaultIf(!(k.ch.fd in s.connections && s.connections[k.ch.fd] == c), EraseMissed))
  }

  function DoBaseRun(s: System, retry: Option<Fd>): System
    requires s.baseQueue.todo != []
  {
    var f := s.baseQueue.todo[0];
    var s1 := s.(baseQueue := s.baseQueue.Pop());
    if !Usable(s, f.conn) then Blame(s1, DanglingUse)
    else if !f.RemoveConnection? || s.conns[f.conn].loop >= |s.io| then Blame(s1, WrongLoop)
    else RemoveInLoop(s1, f.conn, retry)
  }

  /** `~TcpConnection` and `~Channel`; `close` gives the descriptor back. */
  function Destruct(s: System, c: ConnId): System
    requires c in s.conns
  {
    var k := s.conns[c];
    var registered := k.loop < |s.io| && Maps(s.io[k.loop].poller, k.ch);
    s.(conns := s.conns - {c}, open := s.open - {k.ch.fd},
       faults := s.faults + FaultIf(!k.state.Disconnected? || k.ch.addedToLoop || registered, DestructorAssert))
  }

  // ---- Steps ------------------------------------------------------------------------

  /** What `epoll_wait` may report for the descriptor `fd`: only subscribed events, plus
      ERR and HUP; RDHUP is never subscribed. */
  predicate Deliverable(kernel: InterestSet, fd: Fd, r: Ready) {
    && fd in kernel && kernel[fd].ptr == r.ptr
    && (r.inp || r.pri ==> kernel[fd].events.read)
    && (r.out ==> kernel[fd].events.write)
    && !r.rdhup
    && HupComesAlone(r)
  }

  /** The application says something when a connection comes up. */
  predicate Talks(r: Reaction) {
    exists i :: 0 <= i < |r.sends| && r.sends[i].message != []
  }

  predicate Enabled(s: System, a: Action) {
    match a
    case Poll(i, fds, ready) =>
      && i < |s.io| && s.io[i].phase.Polling? && |fds| == |ready|
      && (forall j :: 0 <= j < |fds| ==> Deliverable(s.io[i].poller.kernel, fds[j], ready[j]))
      && (forall j, k :: 0 <= j < k < |fds| ==> fds[j] != fds[k])
    case Event(i, _) => i < |s.io| && s.io[i].phase.Handling? && s.io[i].active != []
    case Act(i, c, _) => i < |s.io| && !s.io[i].phase.Polling? && Usable(s, c) && s.conns[c].loop == i
    case Swap(i) => i < |s.io| && s.io[i].phase.Handling? && s.io[i].active == []
    case Run(i, r) =>
      && i < |s.io| && s.io[i].phase.Draining? && s.io[i].queue.todo != []
      && (s.io[i].queue.todo[0].Establish? ==> Talks(r))
    case End(i) => i < |s.io| && s.io[i].phase.Draining? && s.io[i].queue.todo == []
    case BasePoll => s.basePhase.Polling?
    case AttemptSucceeds(fd) => s.basePhase.Handling? && fd in s.attempts && s.next < |s.io|
    case AttemptFails(fd) => s.basePhase.Handling? && fd in s.attempts
    case BaseSwap => s.basePhase.Handling?
    case BaseRun(retry) => s.basePhase.Draining? && s.baseQueue.todo != [] && (retry.Some? ==> retry.value !in s.open)
    case BaseEnd => s.basePhase.Draining? && s.baseQueue.todo == []
    case Free(c) => c in s.conns && !HasRef(s, c)
  }

  function Step(s: System, a: Action): System
    requires Enabled(s, a)
  {
    match a
    case Poll(i, _, ready) => s.(io := s.io[i := s.io[i].(phase := Handling, active := ready)])
    case Event(i, e) => DoEvent(s, i, e)
    case Act(i, c, r) => Commit(s, i, s.io[i], c, React(WorldOf(s, i, c), r))
    case Swap(i) => s.(io := s.io[i := s.io[i].(phase := Draining, queue := s.io[i].queue.Swap())])
    case Run(i, r) => DoRun(s, i, r)
    case End(i) => s.(io := s.io[i := s.io[i].(phase := Polling, queue := s.io[i].queue.Drop())])
    case BasePoll => s.(basePhase := Handling)
    case AttemptSucceeds(fd) => NewConnection(s, fd)
    case AttemptFails(fd) => s.(attempts := s.attempts - {fd}, open := s.open - {fd})
    case BaseSwap => s.(basePhase := Draining, baseQueue := s.baseQueue.Swap())
    case BaseRun(retry) => DoBaseRun(s, retry)
    case BaseEnd => s.(basePhase := Polling, baseQueue := s.baseQueue.Drop())
    case Free(c) => Destruct(s, c)
  }

  /** A run: actions that are not possible when their turn comes do nothing. */
  function Exec(s: System, actions: seq<Action>): System
    decreases |actions|
  {
    if actions == [] then s
    else
      var before := Exec(s, actions[..|actions| - 1]);
      var a := actions[|actions| - 1];
      if Enabled(before, a) then Step(before, a) else before
  }
}
