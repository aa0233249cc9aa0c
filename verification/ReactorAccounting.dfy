/** The benchmark's counters against what the kernel moved, over all connections. */
module ReactorAccounting {
  import opened Kernel
  import opened Polling
  import opened Connection
  import opened ConnectionProofs
  import opened Reactor
  import opened ReactorInvariant
  import opened ReactorSteps
  import opened ReactorTheorems

  /** Bytes waiting in the output buffers of the connections numbered below `n`. */
  function Waiting(conns: map<ConnId, Conn>, n: nat): nat {
    if n == 0 then 0
    else Waiting(conns, n - 1) + (if n - 1 in conns then |conns[n - 1].out| else 0)
  }

  /** Everything written or waiting was counted as sent, and everything read was counted
      as received. */
  ghost predicate Books(s: System) {
    && s.stats.kernelWritten + Waiting(s.conns, s.nextId) <= s.stats.sendLen
    && s.stats.recvLen == s.stats.kernelRead
  }

  lemma {:induction false} WaitingUpdate(conns: map<ConnId, Conn>, n: nat, c: ConnId, k: Conn)
    requires c in conns
    ensures Waiting(conns[c := k], n) == Waiting(conns, n) + (if c < n then |k.out| - |conns[c].out| else 0)
  {
    if n > 0 { WaitingUpdate(conns, n - 1, c, k); }
  }

  lemma {:induction false} WaitingNew(conns: map<ConnId, Conn>, n: nat, c: ConnId, k: Conn)
    requires n <= c
    ensures Waiting(conns[c := k], n) == Waiting(conns, n)
  {
    if n > 0 { WaitingNew(conns, n - 1, c, k); }
  }

  lemma {:induction false} WaitingErase(conns: map<ConnId, Conn>, n: nat, c: ConnId)
    ensures Waiting(conns - {c}, n) <= Waiting(conns, n)
  {
    if n > 0 { WaitingErase(conns, n - 1, c); }
  }

  lemma CommitKeepsBooks(s: System, i: nat, l: IoLoop, c: ConnId, w': World)
    requires Books(s) && i < |s.io| && c in s.conns && c < s.nextId && s.conns[c].input == []
    requires Ledger(WorldOf(s, i, c), w') && w'.conn.input == []
    ensures Books(Commit(s, i, l, c, w'))
  {
    WaitingUpdate(s.conns, s.nextId, c, w'.conn);
  }

  /** What a step of an I/O loop is: some handler's commit, or no handler at all. */
  ghost predicate IsCommit(s: System, s': System, i: nat, l: IoLoop, c: ConnId, w': World) {
    && i < |s.io| && c in s.conns && s.conns[c].loop == i
    && Tame(WorldOf(s, i, c), w') && s' == Commit(s, i, l, c, w')
  }

  lemma EventCommits(s: System, i: nat, e: Env) returns (l: IoLoop, c: ConnId)
    requires Inv(s) && i < |s.io| && s.io[i].active != []
    ensures IsCommit(s, DoEvent(s, i, e), i, l, c, HandleEvent(WorldOf(s, i, s.io[i].active[0].ptr), s.io[i].active[0], e))
    ensures c == s.io[i].active[0].ptr && c in s.conns && l == s.io[i].(active := s.io[i].active[1..])
  {
    hide Inv, HandleEvent, Tame, HasRef, Stage;
    LoopOf(s, i);
    c := s.io[i].active[0].ptr;
    l := s.io[i].(active := s.io[i].active[1..]);
    StageOf(s, c);
    MappedIfUp(s, c);
    EventIsTame(s, i, e);
  }

  lemma RunCommits(s: System, i: nat, r: Reaction) returns (l: IoLoop, c: ConnId)
    requires Inv(s) && Enabled(s, Run(i, r))
    ensures s.io[i].queue.todo[0].conn in s.conns
    ensures IsCommit(s, DoRun(s, i, r), i, l, c, Ran(WorldOf(s, i, s.io[i].queue.todo[0].conn), s.io[i].queue.todo[0], r))
    ensures c == s.io[i].queue.todo[0].conn && c in s.conns && l == s.io[i].(queue := s.io[i].queue.Pop())
  {
    hide Inv, Ran, Tame, HasRef, Stage;
    NextIsUsable(s, i);
    var q := s.io[i].queue;
    c := q.todo[0].conn;
    l := s.io[i].(queue := q.Pop());
    StageOf(s, c);
    RunStage(WorldOf(s, i, c), q.todo[0], r, q.Todo(), s.baseQueue.Todo(), Mapped(s, c));
  }

  lemma ActCommits(s: System, i: nat, c: ConnId, r: Reaction)
    requires Inv(s) && i < |s.io| && c in s.conns && s.conns[c].loop == i
    ensures IsCommit(s, Commit(s, i, s.io[i], c, React(WorldOf(s, i, c), r)), i, s.io[i], c, React(WorldOf(s, i, c), r))
  {
    hide Inv, React, Tame, Stage;
    StageOf(s, c);
    ActStage(WorldOf(s, i, c), r, s.io[i].queue.Todo(), s.baseQueue.Todo(), Mapped(s, c));
  }

  lemma NothingLeftOver(s: System, c: ConnId)
    requires Inv(s) && c in s.conns
    ensures s.conns[c].input == [] && c < s.nextId
  {
    hide LoopIn;
    StageOf(s, c);
  }

  lemma CommittedBooks(s: System, s': System, i: nat, l: IoLoop, c: ConnId, w': World)
    requires Inv(s) && Books(s) && IsCommit(s, s', i, l, c, w') && Inv(s')
    ensures Books(s')
  {
    hide Inv;
    NothingLeftOver(s, c);
    NothingLeftOver(s', c);
    CommitKeepsBooks(s, i, l, c, w');
  }

  lemma StepKeepsBooks(s: System, a: Action)
    requires Inv(s) && Books(s) && Enabled(s, a)
    ensures Books(Step(s, a))
  {
    hide Inv, HasRef, HandleEvent, React, Ran, Tame, Deliverable, IsCommit;
    StepKeepsInv(s, a);
    match a
    case Event(i, e) =>
      var l, c := EventCommits(s, i, e);
      CommittedBooks(s, Step(s, a), i, l, c, HandleEvent(WorldOf(s, i, c), s.io[i].active[0], e));
    case Act(i, c, r) =>
      ActCommits(s, i, c, r);
      CommittedBooks(s, Step(s, a), i, s.io[i], c, React(WorldOf(s, i, c), r));
    case Run(i, r) =>
      var l, c := RunCommits(s, i, r);
      CommittedBooks(s, Step(s, a), i, l, c, Ran(WorldOf(s, i, c), s.io[i].queue.todo[0], r));
    case AttemptSucceeds(fd) =>
      FreshId(s);
      WaitingNew(s.conns, s.nextId, s.nextId, Fresh(s.nextId, fd, s.next));
    case BaseRun(retry) =>
      RemovalIsClosed(s);
    case Free(c) => WaitingErase(s.conns, s.nextId, c);
    case _ =>
  }

  /** In every run of every application: what the kernel took from all connections,
      living and dead, plus what waits in the living ones' buffers, is at most
      `send_len_`; and `recv_len_` is exactly what the kernel delivered. */
  lemma {:induction false} BooksBalance(loops: nat, attempts: set<Fd>, actions: seq<Action>)
    requires loops > 0
    ensures Books(Exec(Init(loops, attempts), actions))
    decreases |actions|
  {
    hide Inv, Step, Enabled;
    if actions != [] {
      var before := Exec(Init(loops, attempts), actions[..|actions| - 1]);
      BooksBalance(loops, attempts, actions[..|actions| - 1]);
      RunsKeepInv(loops, attempts, actions[..|actions| - 1]);
      if Enabled(before, actions[|actions| - 1]) { StepKeepsBooks(before, actions[|actions| - 1]); }
    }
  }

  // ---- The benchmark's own callbacks -----------------------------------------------

  /** `main.cpp`: one request per callback, and no close of its own. */
  predicate Requests(r: Reaction, request: Bytes) {
    |r.sends| == 1 && r.sends[0].message == request && !r.close
  }

  predicate IsBenchmark(a: Action, request: Bytes) {
    match a
    case Event(_, e) => Requests(e.reaction, request)
    case Run(_, r) => Requests(r, request)
    case Act(_, _, _) => false
    case _ => true
  }

  predicate Balanced(st: Stats, request: Bytes) {
    && st.sendNum == st.numConn + st.recvNum
    && st.sendLen == st.sendNum * |request|
  }

  /** One callback's send settles the account of the event it answers. */
  lemma ReactBalances(w: World, r: Reaction, request: Bytes)
    requires Requests(r, request)
    requires w.stats.sendNum + 1 == w.stats.numConn + w.stats.recvNum && w.stats.sendLen == w.stats.sendNum * |request|
    ensures Balanced(React(w, r).stats, request)
  {
    var w1 := CountedSend(w, r.sends[0]);
    assert SendAll(w, r.sends) == SendAll(w1, r.sends[1..]) == w1;
    assert (w.stats.sendNum + 1) * |request| == w.stats.sendNum * |request| + |request|;
    SendIsUncounted(w, r.sends[0]);
  }

  lemma SendIsUncounted(w: World, o: Outgoing)
    ensures Send(w, o.message, o.result).stats == w.stats.(kernelWritten := Send(w, o.message, o.result).stats.kernelWritten)
  {
  }

  lemma ReadBalances(w: World, e: Env, request: Bytes)
    requires Requests(e.reaction, request) && Balanced(w.stats, request)
    ensures Balanced(HandleRead(w, e).stats, request)
  {
    hide React;
    if e.read.Read? && e.read.bytes != [] {
      var wm := w.(conn := w.conn.(input := w.conn.input + e.read.bytes),
                   stats := w.stats.(kernelRead := w.stats.kernelRead + |e.read.bytes|));
      var st := wm.stats.(recvLen := wm.stats.recvLen + |wm.conn.input|, recvNum := wm.stats.recvNum + 1);
      ReactBalances(wm.(conn := wm.conn.(input := []), stats := st), e.reaction, request);
    }
  }

  lemma CloseIsUncounted(w: World)
    ensures CloseNow(w).stats == w.stats && ForceCloseInLoop(w).stats == w.stats
  {
  }

  lemma WriteIsUncounted(w: World, r: WriteResult)
    ensures HandleWrite(w, r).stats == w.stats.(kernelWritten := HandleWrite(w, r).stats.kernelWritten)
  {
    hide UpdateChannel, CloseNow, ForceCloseInLoop;
    var n := Taken(r, |w.conn.out|);
    var w0 := Check(w, w.conn.out != [], EmptyWrite);
    CloseIsUncounted(w0);
    var w1 := KernelTakes(w0, w.conn.out, n);
    CloseIsUncounted(DisableWriting(w1.(conn := w1.conn.(out := w1.conn.out[n..]))));
  }

  lemma EventBalances(w: World, r: Ready, e: Env, request: Bytes)
    requires Requests(e.reaction, request) && Balanced(w.stats, request)
    ensures Balanced(HandleEvent(w, r, e).stats, request)
  {
    hide HandleRead, HandleWrite;
    var w1 := if r.hup && !r.inp then HandleClose(w) else w;
    assert w1.stats == w.stats;
    ReadBalances(w1, e, request);
    var w2 := if r.inp || r.pri || r.rdhup then HandleRead(w1, e) else w1;
    WriteIsUncounted(w2, e.write);
  }

  lemma RunBalances(w: World, f: Functor, r: Reaction, request: Bytes)
    requires Requests(r, request) && Balanced(w.stats, request)
    ensures Balanced(Ran(w, f, r).stats, request)
  {
    hide React;
    if f.Establish? {
      var w1 := SetState(Check(w, w.conn.state.Connecting?, StateAssert), Connected);
      var w2 := EnableWriting(w1.(conn := w1.conn.(tied := true)));
      ReactBalances(w2.(stats := w2.stats.(numConn := w2.stats.numConn + 1)), r, request);
    }
  }

  lemma StepKeepsBalance(s: System, a: Action, request: Bytes)
    requires Inv(s) && Balanced(s.stats, request) && Enabled(s, a) && IsBenchmark(a, request)
    ensures Balanced(Step(s, a).stats, request)
  {
    hide Inv, HasRef, HandleEvent, React, Ran, Tame, Deliverable, Balanced;
    match a
    case Event(i, e) =>
      var l, c := EventCommits(s, i, e);
      EventBalances(WorldOf(s, i, c), s.io[i].active[0], e, request);
    case Run(i, r) =>
      var l, c := RunCommits(s, i, r);
      RunBalances(WorldOf(s, i, c), s.io[i].queue.todo[0], r, request);
    case _ =>
  }

  /** In every run of the benchmark, `send_num_ = numConnSocket_ + recv_num_` and
      `send_len_ = send_num_ * |request|`: every established connection and every
      message is answered by one request, and nothing else is sent. */
  lemma {:induction false} CountersAgree(loops: nat, attempts: set<Fd>, actions: seq<Action>, request: Bytes)
    requires loops > 0 && forall i :: 0 <= i < |actions| ==> IsBenchmark(actions[i], request)
    ensures Balanced(Exec(Init(loops, attempts), actions).stats, request)
    decreases |actions|
  {
    hide Inv, Step, Enabled;
    if actions != [] {
      var before := Exec(Init(loops, attempts), actions[..|actions| - 1]);
      CountersAgree(loops, attempts, actions[..|actions| - 1], request);
      RunsKeepInv(loops, attempts, actions[..|actions| - 1]);
      if Enabled(before, actions[|actions| - 1]) { StepKeepsBalance(before, actions[|actions| - 1], request); }
    }
  }

  // ---- What the peer sees -----------------------------------------------------------

  /** The request, `k` times over. */
  function Repeat(request: Bytes, k: nat): Bytes {
    if k == 0 then [] else Repeat(request, k - 1) + request
  }

  ghost predicate Repeats(b: Bytes, request: Bytes) {
    exists k: nat :: b == Repeat(request, k)
  }

  lemma RepeatOnce(b: Bytes, request: Bytes)
    requires Repeats(b, request)
    ensures Repeats(b + request, request)
  {
    var k: nat :| b == Repeat(request, k);
    assert Repeat(request, k + 1) == b + request;
  }

  /** A send adds the whole message to the stream or nothing. */
  lemma SendIsWhole(w: World, o: Outgoing)
    ensures var w' := CountedSend(w, o);
            w'.conn.accepted == if Accepts(w.conn, o.result) then w.conn.accepted + o.message else w.conn.accepted
  {
  }

  lemma ReactRepeats(w: World, r: Reaction, request: Bytes)
    requires Requests(r, request) && Repeats(w.conn.accepted, request)
    ensures Repeats(React(w, r).conn.accepted, request)
  {
    hide CountedSend, Repeats;
    var w1 := CountedSend(w, r.sends[0]);
    assert SendAll(w, r.sends) == SendAll(w1, r.sends[1..]) == w1;
    SendIsWhole(w, r.sends[0]);
    RepeatOnce(w.conn.accepted, request);
  }

  lemma CloseSendsNothing(w: World)
    ensures CloseNow(w).conn.accepted == w.conn.accepted && ForceCloseInLoop(w).conn.accepted == w.conn.accepted
    ensures HandleClose(w).conn.accepted == w.conn.accepted
  {
  }

  lemma ReadRepeats(w: World, e: Env, request: Bytes)
    requires Requests(e.reaction, request) && Repeats(w.conn.accepted, request)
    ensures Repeats(HandleRead(w, e).conn.accepted, request)
  {
    hide React, CloseNow, Repeats;
    if e.read.Read? && e.read.bytes != [] {
      var wm := w.(conn := w.conn.(input := w.conn.input + e.read.bytes),
                   stats := w.stats.(kernelRead := w.stats.kernelRead + |e.read.bytes|));
      var st := wm.stats.(recvLen := wm.stats.recvLen + |wm.conn.input|, recvNum := wm.stats.recvNum + 1);
      ReactRepeats(wm.(conn := wm.conn.(input := []), stats := st), e.reaction, request);
    } else {
      CloseSendsNothing(w);
    }
  }

  lemma WriteSendsNothing(w: World, r: WriteResult)
    ensures HandleWrite(w, r).conn.accepted == w.conn.accepted
  {
    hide UpdateChannel, CloseNow, ForceCloseInLoop;
    var n := Taken(r, |w.conn.out|);
    var w0 := Check(w, w.conn.out != [], EmptyWrite);
    CloseSendsNothing(w0);
    var w1 := KernelTakes(w0, w.conn.out, n);
    CloseSendsNothing(DisableWriting(w1.(conn := w1.conn.(out := w1.conn.out[n..]))));
  }

  lemma EventRepeats(w: World, r: Ready, e: Env, request: Bytes)
    requires Requests(e.reaction, request) && Repeats(w.conn.accepted, request)
    ensures Repeats(HandleEvent(w, r, e).conn.accepted, request)
  {
    hide HandleRead, HandleWrite, HandleClose, Repeats;
    var w1 := if r.hup && !r.inp then HandleClose(w) else w;
    CloseSendsNothing(w);
    ReadRepeats(w1, e, request);
    var w2 := if r.inp || r.pri || r.rdhup then HandleRead(w1, e) else w1;
    WriteSendsNothing(w2, e.write);
  }

  lemma RunRepeats(w: World, f: Functor, r: Reaction, request: Bytes)
    requires Requests(r, request) && Repeats(w.conn.accepted, request)
    ensures Repeats(Ran(w, f, r).conn.accepted, request)
  {
    hide React, ForceCloseInLoop, UpdateChannel, RemoveChannel, Repeats;
    CloseSendsNothing(w);
    if f.Establish? {
      var w1 := SetState(Check(w, w.conn.state.Connecting?, StateAssert), Connected);
      var w2 := EnableWriting(w1.(conn := w1.conn.(tied := true)));
      ReactRepeats(w2.(stats := w2.stats.(numConn := w2.stats.numConn + 1)), r, request);
    }
  }

  ghost predicate AllRepeat(s: System, request: Bytes) {
    forall c :: c in s.conns ==> Repeats(s.conns[c].accepted, request)
  }

  lemma StepKeepsRepeat(s: System, a: Action, request: Bytes)
    requires Inv(s) && AllRepeat(s, request) && Enabled(s, a) && IsBenchmark(a, request)
    ensures AllRepeat(Step(s, a), request)
  {
    hide Inv, HasRef, HandleEvent, React, Ran, Tame, Deliverable, Repeats;
    match a
    case Event(i, e) =>
      var l, c := EventCommits(s, i, e);
      EventRepeats(WorldOf(s, i, c), s.io[i].active[0], e, request);
    case Run(i, r) =>
      var l, c := RunCommits(s, i, r);
      RunRepeats(WorldOf(s, i, c), s.io[i].queue.todo[0], r, request);
    case AttemptSucceeds(fd) =>
      FreshId(s);
      NothingRepeats(request);
    case BaseRun(retry) => RemovalIsClosed(s);
    case _ =>
  }

  lemma NothingRepeats(request: Bytes)
    ensures Repeats([], request)
  {
    assert Repeat(request, 0) == [];
  }

  lemma {:induction false} RepeatRuns(loops: nat, attempts: set<Fd>, actions: seq<Action>, request: Bytes)
    requires loops > 0 && forall i :: 0 <= i < |actions| ==> IsBenchmark(actions[i], request)
    ensures AllRepeat(Exec(Init(loops, attempts), actions), request)
    decreases |actions|
  {
    hide Inv, Step, Enabled, Repeats;
    if actions != [] {
      var before := Exec(Init(loops, attempts), actions[..|actions| - 1]);
      RepeatRuns(loops, attempts, actions[..|actions| - 1], request);
      RunsKeepInv(loops, attempts, actions[..|actions| - 1]);
      if Enabled(before, actions[|actions| - 1]) { StepKeepsRepeat(before, actions[|actions| - 1], request); }
    }
  }

  /** In every run of the benchmark, through all partial writes, would-blocks and
      failures, what a server has been sent on a connection, followed by what still waits,
      is the request repeated some number of times: nothing lost, doubled or torn. */
  lemma ServerSeesWholeRequests(loops: nat, attempts: set<Fd>, actions: seq<Action>, request: Bytes, c: ConnId)
    requires loops > 0 && forall i :: 0 <= i < |actions| ==> IsBenchmark(actions[i], request)
    ensures var s := Exec(Init(loops, attempts), actions);
            c in s.conns ==> exists k: nat :: s.conns[c].taken + s.conns[c].out == Repeat(request, k)
  {
    hide Inv, Stage, Exec;
    RepeatRuns(loops, attempts, actions, request);
    RunsKeepInv(loops, attempts, actions);
    var s := Exec(Init(loops, attempts), actions);
    if c in s.conns {
      StageOf(s, c);
      var k := s.conns[c];
      StageIsLayered(k, s.io[k.loop].poller, s.io[k.loop].queue.Todo(), s.baseQueue.Todo(), Mapped(s, c));
      assert Repeats(k.accepted, request);
    }
  }
}
