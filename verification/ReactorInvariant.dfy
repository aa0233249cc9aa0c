/** The invariant of the whole client, and the proof that every step keeps it. */
module ReactorInvariant {
  import opened Kernel
  import opened Polling
  import opened Connection
  import opened ConnectionProofs
  import opened Reactor

  // ---- The invariant ------------------------------------------------------------

  /** Once a loop has destroyed a connection it runs no force close for it. */
  ghost predicate Ordered(q: seq<Functor>, c: ConnId) {
    forall i, j :: 0 <= i < j < |q| && q[i] == Destroy(c) ==> q[j] != ForceClose(c)
  }

  function One(b: bool): nat { if b then 1 else 0 }

  /** Where a connection is in its life: its shape, and exactly the functors that its
      hand-offs need. `q` and `b` are what its own loop and the base loop still have to
      run, and `mapped` says that the client's map holds it. */
  ghost predicate Stage(k: Conn, p: Poller, q: seq<Functor>, b: seq<Functor>, mapped: bool) {
    var c := k.ch.id;
    && (IsEmbryo(k, p) || IsOpen(k, p) || IsClosed(k, p) || IsGone(k, p))
    && (!k.state.Disconnected? ==> mapped)
    && (IsGone(k, p) ==> !mapped)
    && multiset(q)[Establish(c)] == One(k.state.Connecting?)
    && multiset(b)[RemoveConnection(c)] == One(k.state.Disconnected? && mapped)
    && multiset(q)[Destroy(c)] == One(k.ch.index.Deleted? && !mapped)
    && (ForceClose(c) in q ==> !k.ch.index.New?)
    && Ordered(q, c)
  }

  ghost predicate StageAt(s: System, c: ConnId)
    requires c in s.conns && s.conns[c].loop < |s.io|
  {
    var k := s.conns[c];
    Stage(k, s.io[k.loop].poller, s.io[k.loop].queue.Todo(), s.baseQueue.Todo(), Mapped(s, c))
  }

  ghost predicate Mapped(s: System, c: ConnId)
    requires c in s.conns
  {
    s.conns[c].ch.fd in s.connections && s.connections[s.conns[c].ch.fd] == c
  }

  ghost predicate Identities(s: System) {
    && s.next < |s.io|
    && (forall c :: c in s.conns ==>
          && s.conns[c].ch.id == c && c < s.nextId && s.conns[c].loop < |s.io| && s.conns[c].ch.fd !in s.attempts)
    && (forall c, d :: c in s.conns && d in s.conns && c != d ==> s.conns[c].ch.fd != s.conns[d].ch.fd)
  }

  /** The open sockets are the connector's and the connections', nothing else. */
  ghost predicate Descriptors(s: System) {
    s.open == s.attempts + Fds(s.conns)
  }

  function Fds(conns: map<ConnId, Conn>): set<Fd> {
    set c | c in conns :: conns[c].ch.fd
  }

  ghost predicate Entries(s: System) {
    forall fd :: fd in s.connections ==> s.connections[fd] in s.conns && s.conns[s.connections[fd]].ch.fd == fd
  }

  /** A poller only knows connections of its own loop, under their own descriptors. */
  ghost predicate PollerIn(conns: map<ConnId, Conn>, p: Poller, i: nat) {
    && p.kernel.Keys <= p.channels.Keys
    && (forall fd :: fd in p.channels ==>
          var c := p.channels[fd];
          c in conns && conns[c].ch.fd == fd && conns[c].loop == i)
  }

  /** The channels still to be handled are distinct, open, and of this loop. */
  ghost predicate ActiveIn(conns: map<ConnId, Conn>, l: IoLoop, i: nat) {
    && (!l.phase.Handling? ==> l.active == [])
    && (forall j :: 0 <= j < |l.active| ==>
          && HupComesAlone(l.active[j])
          && l.active[j].ptr in conns && conns[l.active[j].ptr].loop == i && IsOpen(conns[l.active[j].ptr], l.poller))
    && (forall j, k :: 0 <= j < k < |l.active| ==> l.active[j].ptr != l.active[k].ptr)
  }

  predicate Idle(q: Queue, ph: Phase) {
    !ph.Draining? ==> q.ran == [] && q.todo == []
  }

  /** An I/O loop's functors concern live connections of this loop. A force close that
      has run may outlive its connection: nothing runs it again. */
  ghost predicate IoQueueIn(conns: map<ConnId, Conn>, q: Queue, i: nat) {
    && (forall f :: f in q.Todo() ==> !f.RemoveConnection? && f.conn in conns && conns[f.conn].loop == i)
    && (forall f :: f in q.ran && f.IsStrong() ==> f.conn in conns)
  }

  ghost predicate BaseQueueIn(conns: map<ConnId, Conn>, q: Queue) {
    && (forall f :: f in q.Todo() ==> f.RemoveConnection? && f.conn in conns)
    && (forall f :: f in q.ran ==> f.RemoveConnection? && f.conn in conns)
  }

  ghost predicate LoopIn(conns: map<ConnId, Conn>, l: IoLoop, i: nat) {
    PollerIn(conns, l.poller, i) && ActiveIn(conns, l, i) && IoQueueIn(conns, l.queue, i) && Idle(l.queue, l.phase)
  }

  ghost predicate Stages(s: System)
    requires Identities(s)
  {
    forall c :: c in s.conns ==> StageAt(s, c)
  }

  ghost predicate Inv(s: System) {
    && Identities(s) && Descriptors(s) && Entries(s) && Stages(s)
    && (forall i :: 0 <= i < |s.io| ==> LoopIn(s.conns, s.io[i], i))
    && BaseQueueIn(s.conns, s.baseQueue) && Idle(s.baseQueue, s.basePhase)
    && s.faults == {}
  }

  // ---- Queues, seen from one connection -----------------------------------------

  /** `q` and `q'` hold the same functors of connection `d`, in the same order. */
  ghost predicate SameFor(q: seq<Functor>, q': seq<Functor>, d: ConnId) {
    && multiset(q')[Establish(d)] == multiset(q)[Establish(d)]
    && multiset(q')[RemoveConnection(d)] == multiset(q)[RemoveConnection(d)]
    && multiset(q')[Destroy(d)] == multiset(q)[Destroy(d)]
    && (ForceClose(d) in q' ==> ForceClose(d) in q)
    && (Ordered(q, d) ==> Ordered(q', d))
  }

  lemma PopFor(q: seq<Functor>, d: ConnId)
    requires q != [] && q[0].conn != d
    ensures SameFor(q, q[1..], d)
  {
    assert q == [q[0]] + q[1..];
    if Ordered(q, d) {
      forall i, j | 0 <= i < j < |q[1..]| && q[1..][i] == Destroy(d) ensures q[1..][j] != ForceClose(d) {
        assert q[i + 1] == Destroy(d);
      }
    }
  }

  lemma PostFor(q: seq<Functor>, fs: seq<Functor>, d: ConnId)
    requires forall i :: 0 <= i < |fs| ==> fs[i].conn != d
    ensures SameFor(q, q + fs, d)
  {
  }

  /** A connection that a step did not touch keeps its stage. */
  lemma StageFrame(k: Conn, p: Poller, p': Poller, q: seq<Functor>, q': seq<Functor>,
                   b: seq<Functor>, b': seq<Functor>, mapped: bool)
    requires Stage(k, p, q, b, mapped)
    requires SameFor(q, q', k.ch.id) && SameFor(b, b', k.ch.id)
    requires Registered(p, k.ch) ==> Registered(p', k.ch)
    ensures Stage(k, p', q', b', mapped)
  {
  }

  lemma RegisteredFrame(p: Poller, p': Poller, fd: Fd, ch: Chan)
    requires SameElsewhere(p, p', fd) && ch.fd != fd && Registered(p, ch)
    ensures Registered(p', ch)
  {
  }

  // ---- One turn of an I/O loop ----------------------------------------------------

  /** The loop before a handler for `c` commits: as before, or with its next functor or
      its next active channel, which is `c`'s, taken off. */
  ghost predicate TakesOff(l: IoLoop, l1: IoLoop, c: ConnId) {
    && l1.poller == l.poller && l1.phase == l.phase
    && (l1.queue == l.queue || (l.queue.todo != [] && l.queue.todo[0].conn == c && l1.queue == l.queue.Pop()))
    && (l1.active == l.active || (l.active != [] && l.active[0].ptr == c && l1.active == l.active[1..]))
  }

  lemma TodoTakesOff(l: IoLoop, l1: IoLoop, c: ConnId)
    requires TakesOff(l, l1, c)
    ensures l1.queue.Todo() == l.queue.Todo() || (l.queue.Todo() != [] && l.queue.Todo()[0].conn == c && l1.queue.Todo() == l.queue.Todo()[1..])
    ensures l1.queue.ran == l.queue.ran || (l.queue.todo != [] && l1.queue.ran == l.queue.ran + [l.queue.todo[0]])
  {
  }

  lemma PostTodo(q: Queue, fs: seq<Functor>)
    ensures q.Post(fs).Todo() == q.Todo() + fs
  {
  }

  /** Taking off `c`'s head and posting `c`'s functors leaves others' queues alone. */
  lemma OthersQueues(l: IoLoop, l1: IoLoop, c: ConnId, fs: seq<Functor>, d: ConnId)
    requires TakesOff(l, l1, c) && c != d && forall j :: 0 <= j < |fs| ==> fs[j].conn == c
    ensures SameFor(l.queue.Todo(), l1.queue.Post(fs).Todo(), d)
  {
    TodoTakesOff(l, l1, c);
    PostTodo(l1.queue, fs);
    if l1.queue.Todo() != l.queue.Todo() { PopFor(l.queue.Todo(), d); }
    PostFor(l1.queue.Todo(), fs, d);
  }

  /** The connection's new value `k` and poller `p'` fit their place in the system. */
  ghost predicate Fits(conns: map<ConnId, Conn>, p: Poller, i: nat, c: ConnId, k: Conn, p': Poller) {
    && c in conns && conns[c].ch.id == c && conns[c].loop == i
    && k.ch.id == c && k.ch.fd == conns[c].ch.fd && k.loop == i
    && SameElsewhere(p, p', k.ch.fd) && Registered(p', k.ch)
  }

  /** A handler's poller keeps knowing only connections of its own loop. */
  lemma PollerCommit(conns: map<ConnId, Conn>, p: Poller, i: nat, c: ConnId, k: Conn, p': Poller)
    requires PollerIn(conns, p, i) && Fits(conns, p, i, c, k, p')
    ensures PollerIn(conns[c := k], p', i)
  {
  }

  lemma ActiveTail(conns: map<ConnId, Conn>, l: IoLoop, i: nat)
    requires ActiveIn(conns, l, i) && l.active != []
    ensures ActiveIn(conns, l.(active := l.active[1..]), i)
  {
  }

  lemma ActiveMoves(conns: map<ConnId, Conn>, l: IoLoop, i: nat, c: ConnId, k: Conn, p': Poller, q: Queue)
    requires ActiveIn(conns, l, i) && Fits(conns, l.poller, i, c, k, p')
    requires forall d :: d in conns && d != c ==> conns[d].ch.fd != conns[c].ch.fd
    requires forall j :: 0 <= j < |l.active| && l.active[j].ptr == c ==> IsOpen(k, p')
    ensures ActiveIn(conns[c := k], l.(queue := q, poller := p'), i)
  {
  }

  lemma ActiveCommit(conns: map<ConnId, Conn>, l: IoLoop, l1: IoLoop, i: nat, c: ConnId, k: Conn, p': Poller, q: Queue)
    requires ActiveIn(conns, l, i) && Fits(conns, l.poller, i, c, k, p') && TakesOff(l, l1, c)
    requires forall d :: d in conns && d != c ==> conns[d].ch.fd != conns[c].ch.fd
    requires forall j :: 0 <= j < |l1.active| && l1.active[j].ptr == c ==> IsOpen(k, p')
    ensures ActiveIn(conns[c := k], l1.(queue := q, poller := p'), i)
  {
    hide ActiveIn, IsOpen, Registered, SameElsewhere;
    if l1.active != l.active { ActiveTail(conns, l, i); }
    ActiveMoves(conns, l.(active := l1.active), i, c, k, p', q);
    assert l.(active := l1.active).(queue := q, poller := p') == l1.(queue := q, poller := p');
  }

  lemma QueueCommit(conns: map<ConnId, Conn>, l: IoLoop, l1: IoLoop, i: nat, c: ConnId, k: Conn, fs: seq<Functor>)
    requires IoQueueIn(conns, l.queue, i) && TakesOff(l, l1, c) && AllAre(fs, ForceClose(c))
    requires c in conns && conns[c].loop == i && k.loop == i
    ensures IoQueueIn(conns[c := k], l1.queue.Post(fs), i)
  {
  }

  lemma LoopCommit(conns: map<ConnId, Conn>, l: IoLoop, l1: IoLoop, i: nat, c: ConnId, k: Conn, p': Poller, fs: seq<Functor>)
    requires LoopIn(conns, l, i) && Fits(conns, l.poller, i, c, k, p') && TakesOff(l, l1, c) && AllAre(fs, ForceClose(c))
    requires forall d :: d in conns && d != c ==> conns[d].ch.fd != conns[c].ch.fd
    requires forall j :: 0 <= j < |l1.active| && l1.active[j].ptr == c ==> IsOpen(k, p')
    ensures LoopIn(conns[c := k], l1.(queue := l1.queue.Post(fs), poller := p'), i)
  {
    PollerCommit(conns, l.poller, i, c, k, p');
    ActiveCommit(conns, l, l1, i, c, k, p', l1.queue.Post(fs));
    QueueCommit(conns, l, l1, i, c, k, fs);
  }

  lemma SameFds(conns: map<ConnId, Conn>, c: ConnId, k: Conn)
    requires c in conns && k.ch.fd == conns[c].ch.fd
    ensures Fds(conns[c := k]) == Fds(conns)
  {
    var conns' := conns[c := k];
    forall fd | fd in Fds(conns) ensures fd in Fds(conns') {
      var d :| d in conns && conns[d].ch.fd == fd;
      assert d in conns' && conns'[d].ch.fd == fd;
    }
    forall fd | fd in Fds(conns') ensures fd in Fds(conns) {
      var d :| d in conns' && conns'[d].ch.fd == fd;
      assert d in conns && conns[d].ch.fd == fd;
    }
  }

  /** A loop that did not move only needs its connections to keep loop and descriptor,
      and its active ones to stay as they are. */
  lemma LoopFrame(conns: map<ConnId, Conn>, conns': map<ConnId, Conn>, l: IoLoop, j: nat, c: ConnId)
    requires LoopIn(conns, l, j)
    requires conns.Keys <= conns'.Keys && forall d :: d in conns && d != c ==> conns'[d] == conns[d]
    requires c in conns ==> conns[c].loop != j && conns'[c].ch.fd == conns[c].ch.fd && conns'[c].loop == conns[c].loop
    ensures LoopIn(conns', l, j)
  {
  }

  /** What a handler for `c` on loop `i` must establish for its step to be safe. */
  ghost predicate SafeTurn(s: System, i: nat, l1: IoLoop, c: ConnId, w': World)
    requires i < |s.io|
  {
    && Fits(s.conns, s.io[i].poller, i, c, w'.conn, w'.poller)
    && TakesOff(s.io[i], l1, c)
    && AllAre(w'.own, ForceClose(c)) && AllAre(w'.base, RemoveConnection(c))
    && w'.faults == {}
  }

  /** A connection of the same loop, seen from its own stage. */
  lemma SameLoopStage(k: Conn, l: IoLoop, l1: IoLoop, c: ConnId, fd: Fd, p': Poller, own: seq<Functor>, b: seq<Functor>, mapped: bool)
    requires Stage(k, l.poller, l.queue.Todo(), b, mapped)
    requires TakesOff(l, l1, c) && k.ch.id != c && k.ch.fd != fd && SameElsewhere(l.poller, p', fd) && AllAre(own, ForceClose(c))
    ensures Stage(k, p', l1.queue.Post(own).Todo(), b, mapped)
  {
    OthersQueues(l, l1, c, own, k.ch.id);
    if Registered(l.poller, k.ch) { RegisteredFrame(l.poller, p', fd, k.ch); }
    assert SameFor(b, b, k.ch.id);
    StageFrame(k, l.poller, p', l.queue.Todo(), l1.queue.Post(own).Todo(), b, b, mapped);
  }

  /** Removals of another connection do not matter either. */
  lemma BasePostStage(k: Conn, p: Poller, q: seq<Functor>, bq: Queue, c: ConnId, fs: seq<Functor>, mapped: bool)
    requires Stage(k, p, q, bq.Todo(), mapped) && k.ch.id != c && AllAre(fs, RemoveConnection(c))
    ensures Stage(k, p, q, bq.Post(fs).Todo(), mapped)
  {
  }

  lemma CommitOtherStage(s: System, i: nat, l1: IoLoop, c: ConnId, w': World, d: ConnId)
    requires i < |s.io| && SafeTurn(s, i, l1, c, w')
    requires d in s.conns && d != c && s.conns[d].loop < |s.io| && StageAt(s, d)
    requires s.conns[d].ch.id == d && s.conns[d].ch.fd != s.conns[c].ch.fd
    ensures StageAt(Commit(s, i, l1, c, w'), d)
  {
    var k := s.conns[d];
    var l := s.io[k.loop];
    BasePostStage(k, l.poller, l.queue.Todo(), s.baseQueue, c, w'.base, Mapped(s, d));
    if k.loop == i {
      SameLoopStage(k, l, l1, c, w'.conn.ch.fd, w'.poller, w'.own, s.baseQueue.Post(w'.base).Todo(), Mapped(s, d));
    }
  }

  lemma CommitIdentities(s: System, i: nat, l1: IoLoop, c: ConnId, w': World)
    requires i < |s.io| && SafeTurn(s, i, l1, c, w') && Identities(s)
    ensures Identities(Commit(s, i, l1, c, w'))
  {
  }

  lemma CommitOwnStage(s: System, i: nat, l1: IoLoop, c: ConnId, w': World)
    requires i < |s.io| && SafeTurn(s, i, l1, c, w')
    requires Stage(w'.conn, w'.poller, l1.queue.Todo() + w'.own, s.baseQueue.Todo() + w'.base, Mapped(s, c))
    ensures StageAt(Commit(s, i, l1, c, w'), c)
  {
    PostTodo(s.baseQueue, w'.base);
    PostTodo(l1.queue, w'.own);
  }

  lemma CommitStages(s: System, i: nat, l1: IoLoop, c: ConnId, w': World)
    requires i < |s.io| && SafeTurn(s, i, l1, c, w')
    requires Identities(s) && Stages(s) && Identities(Commit(s, i, l1, c, w'))
    requires StageAt(Commit(s, i, l1, c, w'), c)
    ensures Stages(Commit(s, i, l1, c, w'))
  {
    var s' := Commit(s, i, l1, c, w');
    forall d | d in s'.conns ensures StageAt(s', d) {
      if d != c { CommitOtherStage(s, i, l1, c, w', d); }
    }
  }

  lemma CommitLoops(s: System, i: nat, l1: IoLoop, c: ConnId, w': World)
    requires i < |s.io| && SafeTurn(s, i, l1, c, w')
    requires forall j :: 0 <= j < |l1.active| && l1.active[j].ptr == c ==> IsOpen(w'.conn, w'.poller)
    requires Identities(s) && forall j :: 0 <= j < |s.io| ==> LoopIn(s.conns, s.io[j], j)
    ensures var s' := Commit(s, i, l1, c, w'); forall j :: 0 <= j < |s'.io| ==> LoopIn(s'.conns, s'.io[j], j)
  {
    var s' := Commit(s, i, l1, c, w');
    forall j | 0 <= j < |s'.io| ensures LoopIn(s'.conns, s'.io[j], j) {
      if j != i {
        LoopFrame(s.conns, s'.conns, s.io[j], j, c);
      } else {
        LoopCommit(s.conns, s.io[i], l1, i, c, w'.conn, w'.poller, w'.own);
      }
    }
  }

  lemma BaseCommit(conns: map<ConnId, Conn>, q: Queue, c: ConnId, k: Conn, fs: seq<Functor>)
    requires BaseQueueIn(conns, q) && c in conns && AllAre(fs, RemoveConnection(c))
    ensures BaseQueueIn(conns[c := k], q.Post(fs))
  {
  }

  lemma CommitEntries(s: System, i: nat, l1: IoLoop, c: ConnId, w': World)
    requires i < |s.io| && SafeTurn(s, i, l1, c, w') && Entries(s) && Descriptors(s)
    ensures var s' := Commit(s, i, l1, c, w'); Entries(s') && Descriptors(s')
  {
    SameFds(s.conns, c, w'.conn);
  }

  /** A safe handler's step keeps the invariant: its own connection by its new stage,
      everything else because it did not touch it. */
  lemma CommitKeepsInv(s: System, i: nat, l1: IoLoop, c: ConnId, w': World)
    requires Inv(s) && i < |s.io| && SafeTurn(s, i, l1, c, w')
    requires forall j :: 0 <= j < |l1.active| && l1.active[j].ptr == c ==> IsOpen(w'.conn, w'.poller)
    requires Stage(w'.conn, w'.poller, l1.queue.Todo() + w'.own, s.baseQueue.Todo() + w'.base, Mapped(s, c))
    ensures Inv(Commit(s, i, l1, c, w'))
  {
    CommitOwnStage(s, i, l1, c, w');
    CommitIdentities(s, i, l1, c, w');
    CommitStages(s, i, l1, c, w');
    CommitLoops(s, i, l1, c, w');
    CommitEntries(s, i, l1, c, w');
    BaseCommit(s.conns, s.baseQueue, c, w'.conn, w'.base);
  }
}
