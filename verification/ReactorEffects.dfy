/** What each step of the client brings about, in every reachable state, and what that
    adds up to over whole runs: no event, functor, close request or connection is lost. */
module ReactorEffects {
  import opened Kernel
  import opened Polling
  import opened Connection
  import opened ConnectionProofs
  import opened ConnectionEffects
  import opened Reactor
  import opened ReactorInvariant
  import opened ReactorSteps
  import opened ReactorTheorems
  import opened ReactorAccounting
  import opened ThreadPool

  // ---- Steps of an I/O loop -------------------------------------------------------------

  /** The system after loop `i`, having taken its next piece of work off and become `l`,
      left connection `c` as `w'` says: only that connection and that loop moved, and the
      functors queued on either loop are behind what waited there. */
  predicate Lands(s: System, s': System, i: nat, l: IoLoop, c: ConnId, w': World)
    requires i < |s.io|
  {
    s' == s.(conns := s.conns[c := w'.conn],
             io := s.io[i := l.(queue := l.queue.(pending := l.queue.pending + w'.own), poller := w'.poller)],
             baseQueue := s.baseQueue.(pending := s.baseQueue.pending + w'.base),
             stats := w'.stats)
  }

  lemma CommitLands(s: System, i: nat, l: IoLoop, c: ConnId, w': World)
    requires i < |s.io| && w'.faults == {}
    ensures Lands(s, Commit(s, i, l, c, w'), i, l, c, w')
  {
  }

  lemma TameIsFaultless(s: System, i: nat, c: ConnId, w': World)
    requires i < |s.io| && c in s.conns && Tame(WorldOf(s, i, c), w')
    ensures w'.faults == {}
  {
  }

  /** The next active channel's event is served, whatever it reports. */
  lemma EventLands(s: System, i: nat, e: Env)
    requires Reachable(s) && Enabled(s, Event(i, e))
    ensures var r := s.io[i].active[0];
            && r.ptr in s.conns && IsOpen(s.conns[r.ptr], s.io[i].poller) && HupComesAlone(r)
            && exists w': World :: Served(WorldOf(s, i, r.ptr), w', r, e)
                                   && Lands(s, Step(s, Event(i, e)), i, s.io[i].(active := s.io[i].active[1..]),
                                            r.ptr, w')
  {
    hide Inv, Reachable, HandleEvent, Tame, Served, Commit, Lands, IsOpen;
    ReachableInv(s);
    LoopOf(s, i);
    var l, c := EventCommits(s, i, e);
    var w := WorldOf(s, i, c);
    var w' := HandleEvent(w, s.io[i].active[0], e);
    TameIsFaultless(s, i, c, w');
    CommitLands(s, i, l, c, w');
    EventIsServed(w, s.io[i].active[0], e);
  }

  /** A call of the application reaches its connection. */
  lemma ActLands(s: System, i: nat, c: ConnId, r: Reaction)
    requires Reachable(s) && Enabled(s, Act(i, c, r))
    ensures c in s.conns
    ensures exists w': World :: Reacted(WorldOf(s, i, c), w', r) && Lands(s, Step(s, Act(i, c, r)), i, s.io[i], c, w')
  {
    hide Inv, Reachable, React, Tame, Commit, Lands, Reacted, HasRef, Registered;
    ReachableInv(s);
    StageOf(s, c);
    ActCommits(s, i, c, r);
    var w := WorldOf(s, i, c);
    var w' := React(w, r);
    TameIsFaultless(s, i, c, w');
    CommitLands(s, i, s.io[i], c, w');
    if Open(w) { ReactOffers(w, r); } else { ReactWhenDown(w, r); }
  }

  /** What a functor does to its connection. */
  ghost predicate Worked(w: World, w': World, f: Functor, r: Reaction) {
    match f
    case Establish(_) => IsEmbryo(w.conn, w.poller) && Established(w, w', r) && StaysOpen(w, w')
    case ForceClose(_) => if Open(w) then Shut(w, w') else w.conn.state.Disconnected? && w' == w
    case Destroy(_) =>
      && IsClosed(w.conn, w.poller) && IsGone(w'.conn, w'.poller) && PipeOf(w'.conn) == PipeOf(w.conn)
      && w'.own == w.own && w'.base == w.base && w'.stats == w.stats
    case RemoveConnection(_) => false
  }

  lemma DestroyKeepsPipe(w: World)
    requires IsClosed(w.conn, w.poller)
    ensures PipeOf(ConnectDestroyed(w).conn) == PipeOf(w.conn)
  {
  }

  lemma RunWorks(w: World, f: Functor, r: Reaction, q: seq<Functor>, b: seq<Functor>, mapped: bool)
    requires Stage(w.conn, w.poller, q, b, mapped) && w.own == [] && w.base == []
    requires q != [] && q[0] == f && f.conn == w.conn.ch.id && !f.RemoveConnection? && (f.Establish? ==> Talks(r))
    ensures Worked(w, Ran(w, f, r), f, r)
  {
    hide Stage, ConnectEstablished, ForceCloseInLoop, ConnectDestroyed;
    hide IsEmbryo, IsOpen, IsClosed, IsGone, Established, Shut;
    match f
    case Establish(_) =>
      if IsEmbryo(w.conn, w.poller) { EstablishOpens(w, r); }
      EstablishStage(w, ConnectEstablished(w, r), q, b, mapped);
      EstablishQueues(w, r);
    case ForceClose(_) =>
      ForceCloseStage(w, q, b, mapped);
      ClosedIsDown(w);
      ForceCloseShuts(w);
    case Destroy(_) =>
      DestroyStage(w, q, b, mapped);
      DestroyKeepsPipe(w);
  }

  lemma ClosedIsDown(w: World)
    ensures IsClosed(w.conn, w.poller) ==> w.conn.state.Disconnected?
  {
  }

  /** The next functor of the batch does its work: it establishes, closes or destroys the
      connection it was queued for. No channel is active meanwhile, so removing one from
      the poller meets the assertion on the active channels. */
  lemma RunLands(s: System, i: nat, r: Reaction)
    requires Reachable(s) && Enabled(s, Run(i, r))
    ensures var q := s.io[i].queue; var f := q.todo[0];
            && s.io[i].active == [] && f.conn in s.conns
            && exists w': World :: Worked(WorldOf(s, i, f.conn), w', f, r)
                                   && Lands(s, Step(s, Run(i, r)), i,
                                            s.io[i].(queue := Queue(q.ran + [f], q.todo[1..], q.pending)), f.conn, w')
  {
    hide Inv, Reachable, Ran, Tame, Commit, Lands, Worked, Stage, HasRef;
    ReachableInv(s);
    LoopOf(s, i);
    var l, c := RunCommits(s, i, r);
    var w := WorldOf(s, i, c);
    var f := s.io[i].queue.todo[0];
    var w' := Ran(w, f, r);
    TameIsFaultless(s, i, c, w');
    CommitLands(s, i, l, c, w');
    NextIsUsable(s, i);
    StageOf(s, c);
    RunWorks(w, f, r, s.io[i].queue.Todo(), s.baseQueue.Todo(), Mapped(s, c));
  }

  // ---- Steps of the base loop -----------------------------------------------------------

  /** A finished attempt becomes a map entry and an embryo on the next loop, which will
      establish it after everything queued there before. */
  lemma AttemptLands(s: System, fd: Fd)
    requires Reachable(s) && Enabled(s, AttemptSucceeds(fd))
    ensures var s' := Step(s, AttemptSucceeds(fd)); var l := s.io[s.next];
            && fd !in s.connections && s.nextId !in s.conns
            && s' == s.(connections := s.connections[fd := s.nextId], conns := s.conns[s.nextId := s'.conns[s.nextId]],
                        nextId := s.nextId + 1, next := s'.next, attempts := s.attempts - {fd},
                        io := s.io[s.next := l.(queue := l.queue.(pending := l.queue.pending + [Establish(s.nextId)]))])
            && IsEmbryo(s'.conns[s.nextId], l.poller)
            && s'.conns[s.nextId].ch.fd == fd && s'.conns[s.nextId].ch.id == s.nextId
            && s'.conns[s.nextId].loop == s.next
            && Load(s') == Load(s)
  {
    hide Inv, Reachable;
    ReachableInv(s);
    AttemptIsNew(s, fd);
    FreshId(s);
    assert |s.attempts| == |s.attempts - {fd}| + 1;
  }

  /** A removal erases its connection's entry, sends the connection home to be destroyed,
      and starts one new attempt: the population is what it was, unless `connect` failed
      at once. */
  lemma RemovalLands(s: System, retry: Option<Fd>)
    requires Reachable(s) && Enabled(s, BaseRun(retry))
    ensures var s' := Step(s, BaseRun(retry)); var f := s.baseQueue.todo[0];
            && f.conn in s.conns && s.conns[f.conn].loop < |s.io| && s.conns[f.conn].state.Disconnected?
            && (var k := s.conns[f.conn]; var l := s.io[k.loop];
                && k.ch.fd in s.connections && s.connections[k.ch.fd] == f.conn
                && s' == s.(connections := s.connections - {k.ch.fd},
                            io := s.io[k.loop := l.(queue := l.queue.(pending := l.queue.pending + [Destroy(f.conn)]))],
                            baseQueue := Queue(s.baseQueue.ran + [f], s.baseQueue.todo[1..], s.baseQueue.pending),
                            attempts := s'.attempts, open := s'.open))
            && (match retry
                case Some(fd) =>
                  fd !in s.open && s'.attempts == s.attempts + {fd} && s'.open == s.open + {fd} && Load(s') == Load(s)
                case None => s'.attempts == s.attempts && s'.open == s.open && Load(s') == Load(s) - 1)
  {
    hide Inv, Reachable, HasRef;
    ReachableInv(s);
    RemovalIsClosed(s);
    var c := s.baseQueue.todo[0].conn;
    EraseShrinks(s.connections, s.conns[c].ch.fd);
    if retry.Some? {
      AttemptsAreOpen(s);
      assert |s.attempts + {retry.value}| == |s.attempts| + 1;
    } else {
      assert s.attempts + {} == s.attempts && s.open + {} == s.open;
    }
  }

  lemma AttemptsAreOpen(s: System)
    requires Inv(s)
    ensures s.attempts <= s.open
  {
    hide Stages, LoopIn;
  }

  // ---- The population over runs -----------------------------------------------------------

  /** How many steps of a run lost a client: an attempt that failed, or a removal whose
      `connect` failed at once. Impossible actions do not count. */
  function Losses(loops: nat, attempts: set<Fd>, actions: seq<Action>): nat
    decreases |actions|
  {
    if actions == [] then 0
    else
      var before := Exec(Init(loops, attempts), actions[..|actions| - 1]);
      var a := actions[|actions| - 1];
      Losses(loops, attempts, actions[..|actions| - 1])
      + (if Enabled(before, a) && (a.AttemptFails? || a == BaseRun(None)) then 1 else 0)
  }

  lemma StepLoad(s: System, a: Action)
    requires Reachable(s) && Enabled(s, a)
    ensures Load(Step(s, a)) + (if a.AttemptFails? || a == BaseRun(None) then 1 else 0) == Load(s)
  {
    hide Reachable, HasRef, React, Deliverable, NewConnection, DoBaseRun, DoEvent, DoRun, Commit;
    match a
    case AttemptSucceeds(fd) => AttemptLands(s, fd);
    case AttemptFails(fd) => assert |s.attempts| == |s.attempts - {fd}| + 1;
    case BaseRun(retry) => RemovalLands(s, retry);
    case Event(_, _) => IoKeepsMap(s, a);
    case Run(_, _) => IoKeepsMap(s, a);
    case Act(_, _, _) => IoKeepsMap(s, a);
    case _ =>
  }

  lemma ExecReachable(loops: nat, attempts: set<Fd>, actions: seq<Action>)
    requires loops > 0
    ensures Reachable(Exec(Init(loops, attempts), actions))
  {
  }

  /** Conservation: in every run, attempts in flight plus map entries are the configured
      number of clients less those that were lost to a failed `connect`. */
  lemma {:induction false} PopulationIsExact(loops: nat, attempts: set<Fd>, actions: seq<Action>)
    requires loops > 0
    ensures Load(Exec(Init(loops, attempts), actions)) == |attempts| - Losses(loops, attempts, actions)
    decreases |actions|
  {
    hide Reachable, Step, Enabled;
    if actions != [] {
      var prefix := actions[..|actions| - 1];
      var before := Exec(Init(loops, attempts), prefix);
      PopulationIsExact(loops, attempts, prefix);
      ExecReachable(loops, attempts, prefix);
      if Enabled(before, actions[|actions| - 1]) { StepLoad(before, actions[|actions| - 1]); }
    }
  }

  // ---- The counters over runs -------------------------------------------------------------

  /** Connections established, messages received and their bytes, sends and their bytes. */
  datatype Tally = Tally(connections: nat, messages: nat, received: nat, sends: nat, sent: nat)

  const NOTHING := Tally(0, 0, 0, 0, 0)

  function Plus(t: Tally, u: Tally): Tally {
    Tally(t.connections + u.connections, t.messages + u.messages, t.received + u.received,
          t.sends + u.sends, t.sent + u.sent)
  }

  /** What one step has to tell the benchmark. */
  function News(s: System, a: Action): Tally {
    if !Enabled(s, a) then NOTHING
    else
      match a
      case Event(i, e) =>
        if Reads(s.io[i].active[0]) && HasData(e) then
          Tally(0, 1, |e.read.bytes|, |e.reaction.sends|, |Messages(e.reaction.sends)|)
        else NOTHING
      case Act(_, _, r) => Tally(0, 0, 0, |r.sends|, |Messages(r.sends)|)
      case Run(i, r) =>
        if s.io[i].queue.todo[0].Establish? then Tally(1, 0, 0, |r.sends|, |Messages(r.sends)|) else NOTHING
      case _ => NOTHING
  }

  function History(loops: nat, attempts: set<Fd>, actions: seq<Action>): Tally
    decreases |actions|
  {
    if actions == [] then NOTHING
    else
      var prefix := actions[..|actions| - 1];
      Plus(History(loops, attempts, prefix), News(Exec(Init(loops, attempts), prefix), actions[|actions| - 1]))
  }

  predicate Counts(st: Stats, t: Tally) {
    && st.numConn == t.connections && st.recvNum == t.messages
    && st.recvLen == t.received && st.kernelRead == t.received
    && st.sendNum == t.sends && st.sendLen == t.sent
  }

  lemma ServedCounts(w: World, w': World, r: Ready, e: Env, t: Tally)
    requires Served(w, w', r, e) && Counts(w.stats, t) && HupComesAlone(r)
    ensures Counts(w'.stats,
                   Plus(t, if Reads(r) && HasData(e) then
                             Tally(0, 1, |e.read.bytes|, |e.reaction.sends|, |Messages(e.reaction.sends)|)
                           else NOTHING))
  {
    hide StaysOpen, Closes, OfferAll, Messages, PipeOf;
  }

  lemma StepCounts(s: System, a: Action, t: Tally)
    requires Reachable(s) && Enabled(s, a) && Counts(s.stats, t)
    ensures Counts(Step(s, a).stats, Plus(t, News(s, a)))
  {
    hide Reachable, Counts, Served, Reacted, Worked, HasRef, React, DoEvent, DoRun, DoBaseRun, Commit;
    hide Deliverable, Plus, Messages, IsOpen;
    match a
    case Event(i, e) =>
      EventLands(s, i, e);
      var r := s.io[i].active[0];
      var w': World :| Served(WorldOf(s, i, r.ptr), w', r, e)
                       && Lands(s, Step(s, a), i, s.io[i].(active := s.io[i].active[1..]), r.ptr, w');
      ServedCounts(WorldOf(s, i, r.ptr), w', r, e, t);
    case Act(i, c, r) =>
      ActLands(s, i, c, r);
      var w': World :| Reacted(WorldOf(s, i, c), w', r) && Lands(s, Step(s, a), i, s.io[i], c, w');
      ReactedCounts(WorldOf(s, i, c), w', r, t);
    case Run(i, r) =>
      RunLands(s, i, r);
      var q := s.io[i].queue;
      var f := q.todo[0];
      var w': World :| Worked(WorldOf(s, i, f.conn), w', f, r)
                       && Lands(s, Step(s, a), i, s.io[i].(queue := Queue(q.ran + [f], q.todo[1..], q.pending)),
                                f.conn, w');
      WorkedCounts(WorldOf(s, i, f.conn), w', f, r, t);
    case BaseRun(retry) =>
      RemovalLands(s, retry);
      NothingCounts(s.stats, t);
    case _ => NothingCounts(s.stats, t);
  }

  lemma NothingCounts(st: Stats, t: Tally)
    requires Counts(st, t)
    ensures Counts(st, Plus(t, NOTHING))
  {
  }

  lemma ReactedCounts(w: World, w': World, r: Reaction, t: Tally)
    requires Reacted(w, w', r) && Counts(w.stats, t)
    ensures Counts(w'.stats, Plus(t, Tally(0, 0, 0, |r.sends|, |Messages(r.sends)|)))
  {
  }

  lemma WorkedCounts(w: World, w': World, f: Functor, r: Reaction, t: Tally)
    requires Worked(w, w', f, r) && Counts(w.stats, t)
    ensures Counts(w'.stats, Plus(t, if f.Establish? then Tally(1, 0, 0, |r.sends|, |Messages(r.sends)|) else NOTHING))
  {
    hide StaysOpen, Closes, IsEmbryo, IsClosed, IsGone, IsOpen, Messages;
  }

  /** In every run of every application the counters are the run's history: every
      establishment and every read that brought data is counted once, with its bytes, and
      so is every send; nothing else is. */
  lemma {:induction false} CountersAreHistory(loops: nat, attempts: set<Fd>, actions: seq<Action>)
    requires loops > 0
    ensures Counts(Exec(Init(loops, attempts), actions).stats, History(loops, attempts, actions))
    decreases |actions|
  {
    hide Reachable, Step, Enabled, News, Counts;
    if actions == [] {
      NoHistory(loops, attempts);
    } else {
      var prefix := actions[..|actions| - 1];
      var a := actions[|actions| - 1];
      var before := Exec(Init(loops, attempts), prefix);
      CountersAreHistory(loops, attempts, prefix);
      ExecReachable(loops, attempts, prefix);
      if Enabled(before, a) {
        StepCounts(before, a, History(loops, attempts, prefix));
      } else {
        NothingCounts(before.stats, History(loops, attempts, prefix));
        NoNews(before, a);
      }
    }
  }

  lemma NoHistory(loops: nat, attempts: set<Fd>)
    ensures Counts(Init(loops, attempts).stats, History(loops, attempts, []))
  {
  }

  lemma NoNews(s: System, a: Action)
    requires !Enabled(s, a)
    ensures News(s, a) == NOTHING
  {
  }

  // ---- Every report is handled ------------------------------------------------------------

  /** How many channels loop `i` handles while `actions` execute from `s`. */
  function Handled(s: System, i: nat, actions: seq<Action>): nat
    decreases |actions|
  {
    if actions == [] then 0
    else
      var prefix := actions[..|actions| - 1];
      var a := actions[|actions| - 1];
      Handled(s, i, prefix) + (if a.Event? && a.loop == i && Enabled(Exec(s, prefix), a) then 1 else 0)
  }

  /** Only its own events and its own `poll` touch a loop's active channels. */
  lemma ActiveStep(s: System, i: nat, a: Action)
    requires i < |s.io| && Enabled(s, a) && !(a.Poll? && a.loop == i)
    ensures i < |Step(s, a).io|
    ensures Step(s, a).io[i].active == if a.Event? && a.loop == i then s.io[i].active[1..] else s.io[i].active
  {
    hide HandleEvent, Ran, React, HasRef, Deliverable;
  }

  lemma {:induction false} ActiveShrinks(s: System, i: nat, actions: seq<Action>)
    requires i < |s.io| && forall k :: 0 <= k < |actions| ==> !(actions[k].Poll? && actions[k].loop == i)
    ensures var s' := Exec(s, actions); var h := Handled(s, i, actions);
            i < |s'.io| && h <= |s.io[i].active| && s'.io[i].active == s.io[i].active[h..]
    decreases |actions|
  {
    hide Step, Deliverable, HasRef;
    if actions != [] {
      var prefix := actions[..|actions| - 1];
      var a := actions[|actions| - 1];
      ActiveShrinks(s, i, prefix);
      assert !(a.Poll? && a.loop == i);
      if Enabled(Exec(s, prefix), a) { ActiveStep(Exec(s, prefix), i, a); }
    }
  }

  lemma {:induction false} ExecKeepsInv(s: System, actions: seq<Action>)
    requires Inv(s)
    ensures Inv(Exec(s, actions))
    decreases |actions|
  {
    hide Inv, Step, Enabled;
    if actions != [] {
      var prefix := actions[..|actions| - 1];
      ExecKeepsInv(s, prefix);
      if Enabled(Exec(s, prefix), actions[|actions| - 1]) { StepKeepsInv(Exec(s, prefix), actions[|actions| - 1]); }
    }
  }

  /** From one `poll` of a loop to its next, the reported channels are handled in the order
      of the report, once each, and all of them before the loop takes its functors. */
  lemma ReportsAreHandled(s: System, i: nat, fds: seq<Fd>, ready: seq<Ready>, actions: seq<Action>)
    requires Reachable(s) && Enabled(s, Poll(i, fds, ready))
    requires forall k :: 0 <= k < |actions| ==> !(actions[k].Poll? && actions[k].loop == i)
    ensures var s1 := Step(s, Poll(i, fds, ready)); var s' := Exec(s1, actions); var h := Handled(s1, i, actions);
            && h <= |ready| && i < |s'.io| && s'.io[i].active == ready[h..]
            && (!s'.io[i].phase.Handling? || Enabled(s', Swap(i)) ==> h == |ready|)
  {
    hide Inv, Reachable, Exec, Handled, Deliverable;
    var s1 := Step(s, Poll(i, fds, ready));
    ActiveShrinks(s1, i, actions);
    ReachableInv(s);
    StepKeepsInv(s, Poll(i, fds, ready));
    ExecKeepsInv(s1, actions);
    LoopOf(Exec(s1, actions), i);
  }

  // ---- No close request is forgotten --------------------------------------------------------

  /** A connection that is closing has its force close still to come. */
  ghost predicate Promised(s: System) {
    forall c :: c in s.conns && s.conns[c].state.Disconnecting? ==>
      s.conns[c].loop < |s.io| && ForceClose(c) in s.io[s.conns[c].loop].queue.Todo()
  }

  /** A handler leaves a connection closing only if it was, or with a force close queued. */
  predicate Keeps(w: World, w': World) {
    w'.conn.state.Disconnecting? ==>
      && w'.conn.loop == w.conn.loop && w'.conn.ch.id == w.conn.ch.id
      && (w.conn.state.Disconnecting? || ForceClose(w.conn.ch.id) in w'.own)
  }

  lemma ServedKeeps(w: World, w': World, r: Ready, e: Env)
    requires Served(w, w', r, e) && w.own == []
    ensures Keeps(w, w')
  {
    hide OfferAll, Messages, PipeOf, IsOpen, SameElsewhere, Ledger, AllAre;
  }

  lemma LandedPromise(s: System, s': System, i: nat, l: IoLoop, c: ConnId, w': World)
    requires Promised(s) && i < |s.io| && c in s.conns && s.conns[c].loop == i && s.conns[c].ch.id == c
    requires Keeps(WorldOf(s, i, c), w') && Lands(s, s', i, l, c, w')
    requires l.queue.Todo() == s.io[i].queue.Todo()
             || (s.io[i].queue.todo != [] && s.io[i].queue.todo[0].conn == c
                 && l.queue.Todo() == s.io[i].queue.Todo()[1..]
                 && (s.io[i].queue.todo[0].ForceClose? ==> !w'.conn.state.Disconnecting?))
    ensures Promised(s')
  {
    var q := s.io[i].queue.Todo();
    forall d | d in s'.conns && s'.conns[d].state.Disconnecting?
      ensures s'.conns[d].loop < |s'.io| && ForceClose(d) in s'.io[s'.conns[d].loop].queue.Todo()
    {
      if s'.conns[d].loop == i {
        assert s'.io[i].queue.Todo() == l.queue.Todo() + w'.own;
        if d != c || s.conns[c].state.Disconnecting? {
          assert ForceClose(d) in q;
          if l.queue.Todo() != q { assert q == [q[0]] + q[1..]; }
        }
      }
    }
  }

  lemma WorkedKeeps(w: World, w': World, f: Functor, r: Reaction)
    requires Worked(w, w', f, r) && w.own == []
    ensures Keeps(w, w')
    ensures f.ForceClose? ==> !w'.conn.state.Disconnecting?
  {
    hide OfferAll, Messages, PipeOf, SameElsewhere, Ledger, AllAre;
  }

  lemma EventKeepsPromise(s: System, i: nat, e: Env)
    requires Reachable(s) && Promised(s) && Enabled(s, Event(i, e))
    ensures Promised(Step(s, Event(i, e)))
  {
    hide Inv, Reachable, Served, Lands, Promised, HasRef, DoEvent, IsOpen, Keeps, Stage;
    ReachableInv(s);
    EventLands(s, i, e);
    LoopOf(s, i);
    var r := s.io[i].active[0];
    var l := s.io[i].(active := s.io[i].active[1..]);
    StageOf(s, r.ptr);
    var w': World :| Served(WorldOf(s, i, r.ptr), w', r, e) && Lands(s, Step(s, Event(i, e)), i, l, r.ptr, w');
    ServedKeeps(WorldOf(s, i, r.ptr), w', r, e);
    LandedPromise(s, Step(s, Event(i, e)), i, l, r.ptr, w');
  }

  lemma ReactedKeeps(w: World, w': World, r: Reaction)
    requires Reacted(w, w', r) && w.own == []
    ensures Keeps(w, w')
  {
  }

  lemma ActKeepsPromise(s: System, i: nat, c: ConnId, r: Reaction)
    requires Reachable(s) && Promised(s) && Enabled(s, Act(i, c, r))
    ensures Promised(Step(s, Act(i, c, r)))
  {
    hide Inv, Reachable, Reacted, Lands, Promised, HasRef, Commit, Keeps, Stage, React;
    ReachableInv(s);
    ActLands(s, i, c, r);
    StageOf(s, c);
    var w': World :| Reacted(WorldOf(s, i, c), w', r) && Lands(s, Step(s, Act(i, c, r)), i, s.io[i], c, w');
    ReactedKeeps(WorldOf(s, i, c), w', r);
    LandedPromise(s, Step(s, Act(i, c, r)), i, s.io[i], c, w');
  }

  lemma RunKeepsPromise(s: System, i: nat, r: Reaction)
    requires Reachable(s) && Promised(s) && Enabled(s, Run(i, r))
    ensures Promised(Step(s, Run(i, r)))
  {
    hide Inv, Reachable, Worked, Lands, Promised, HasRef, DoRun, Keeps, Stage;
    ReachableInv(s);
    RunLands(s, i, r);
    NextIsUsable(s, i);
    var q := s.io[i].queue;
    var f := q.todo[0];
    StageOf(s, f.conn);
    var l := s.io[i].(queue := Queue(q.ran + [f], q.todo[1..], q.pending));
    var w': World :| Worked(WorldOf(s, i, f.conn), w', f, r) && Lands(s, Step(s, Run(i, r)), i, l, f.conn, w');
    WorkedKeeps(WorldOf(s, i, f.conn), w', f, r);
    assert l.queue.Todo() == q.Todo()[1..];
    LandedPromise(s, Step(s, Run(i, r)), i, l, f.conn, w');
  }

  /** A step that closes nothing keeps the promise as long as it takes no functor off an
      I/O loop. */
  lemma PromiseFrame(s: System, s': System)
    requires Promised(s) && |s'.io| == |s.io|
    requires forall c :: c in s'.conns && s'.conns[c].state.Disconnecting? ==> c in s.conns && s.conns[c] == s'.conns[c]
    requires forall i, f :: 0 <= i < |s.io| && f in s.io[i].queue.Todo() ==> f in s'.io[i].queue.Todo()
    ensures Promised(s')
  {
  }

  lemma AttemptKeepsPromise(s: System, fd: Fd)
    requires Reachable(s) && Promised(s) && Enabled(s, AttemptSucceeds(fd))
    ensures Promised(Step(s, AttemptSucceeds(fd)))
  {
    hide Reachable, Registered, Load, NewConnection;
    AttemptLands(s, fd);
    PostTodo(s.io[s.next].queue, [Establish(s.nextId)]);
    PromiseFrame(s, Step(s, AttemptSucceeds(fd)));
  }

  lemma RemovalKeepsPromise(s: System, retry: Option<Fd>)
    requires Reachable(s) && Promised(s) && Enabled(s, BaseRun(retry))
    ensures Promised(Step(s, BaseRun(retry)))
  {
    hide Reachable, Load, DoBaseRun, HasRef;
    RemovalLands(s, retry);
    var f := s.baseQueue.todo[0];
    PostTodo(s.io[s.conns[f.conn].loop].queue, [Destroy(f.conn)]);
    PromiseFrame(s, Step(s, BaseRun(retry)));
  }

  lemma StepKeepsPromise(s: System, a: Action)
    requires Reachable(s) && Promised(s) && Enabled(s, a)
    ensures Promised(Step(s, a))
  {
    hide Inv, Reachable, HasRef, Deliverable, React, DoEvent, DoRun, DoBaseRun, Commit;
    match a
    case Event(i, e) => EventKeepsPromise(s, i, e);
    case Act(i, c, r) => ActKeepsPromise(s, i, c, r);
    case Run(i, r) => RunKeepsPromise(s, i, r);
    case AttemptSucceeds(fd) => AttemptKeepsPromise(s, fd);
    case BaseRun(retry) => RemovalKeepsPromise(s, retry);
    case Swap(i) =>
      ReachableInv(s);
      LoopOf(s, i);
      assert s.io[i].queue.Swap().Todo() == s.io[i].queue.Todo();
      PromiseFrame(s, Step(s, a));
    case End(i) => PromiseFrame(s, Step(s, a));
    case _ => PromiseFrame(s, Step(s, a));
  }

  lemma {:induction false} RunsKeepPromise(loops: nat, attempts: set<Fd>, actions: seq<Action>)
    requires loops > 0
    ensures Promised(Exec(Init(loops, attempts), actions))
    decreases |actions|
  {
    hide Reachable, Step, Enabled;
    if actions != [] {
      var prefix := actions[..|actions| - 1];
      RunsKeepPromise(loops, attempts, prefix);
      ExecReachable(loops, attempts, prefix);
      if Enabled(Exec(Init(loops, attempts), prefix), actions[|actions| - 1]) {
        StepKeepsPromise(Exec(Init(loops, attempts), prefix), actions[|actions| - 1]);
      }
    }
  }

  /** In every run a connection that is closing has its force close still queued on its
      loop, which will shut it; so a loop with nothing left to run has no connection that
      is only half closed. */
  lemma CloseIsNeverForgotten(s: System, c: ConnId)
    requires Reachable(s) && c in s.conns && s.conns[c].state.Disconnecting?
    ensures s.conns[c].loop < |s.io| && ForceClose(c) in s.io[s.conns[c].loop].queue.Todo()
  {
    hide Exec, Init;
    var loops: nat, attempts: set<Fd>, actions: seq<Action> :|
      loops > 0 && s == Exec(Init(loops, attempts), actions);
    RunsKeepPromise(loops, attempts, actions);
  }
}
