/** The wakeup protocol of `EventLoop`: a functor queue behind a mutex, an eventfd
    counter, the batch swap and the quit flag, under every interleaving of the loop's
    own thread with any number of other threads. Pushing (or setting `quit_`) and the
    `wakeup` that follows are separate steps. */
module Wakeup {

  type Task = nat
  type ThreadId = nat

  /** Where the loop's thread is in `loop()`. `Handling(true)` still has the wakeup
      channel among its active channels. */
  datatype Place = NotStarted | AtTest | AtPoll | Handling(wake: bool) | Functors | Stopped

  /** `owes`: the loop's own thread has pushed in a functor and not yet called
      `wakeup`. `midway`: the other threads between their push, or their setting of
      `quit_`, and their `wakeup`. `executed`, `log` and `mark` are history: the tasks
      run, all tasks ever queued, and how many those were at the last swap. */
  datatype State = State(place: Place, pending: seq<Task>, batch: seq<Task>, counter: nat, quit: bool,
                         calling: bool, owes: bool, midway: set<ThreadId>,
                         executed: seq<Task>, log: seq<Task>, mark: nat, aborted: bool)

  /** A constructed loop. The constructor leaves `callingPendingFunctors_` unset. */
  function Init(calling: bool): State {
    State(NotStarted, [], [], 0, false, calling, false, {}, [], [], 0, false)
  }

  datatype Action =
    | Start                              // looping_ = true; quit_ = false
    | EnterPoll                          // while (!quit_)
    | Leave                              // quit_ is seen
    | PollReturns(wake: bool)            // with or without the wakeup channel
    | HandleRead                         // EventLoop::handleRead
    | OwnPush(task: Task)                // queueInLoop in the loop's thread, the push
    | OwnWakeup                          // ... and its wakeup
    | Swap                               // doPendingFunctors takes the batch
    | RunTask                            // the next functor
    | EndFunctors                        // the batch is done
    | OwnQuit                            // quit in the loop's thread
    | OtherPush(thread: ThreadId, task: Task)
    | OtherQuit(thread: ThreadId)
    | OtherWakeup(thread: ThreadId)

  predicate InCallback(p: Place) {
    p.Handling? || p.Functors?
  }

  predicate Enabled(s: State, a: Action) {
    match a
    case Start => s.place.NotStarted?
    case EnterPoll => s.place.AtTest? && !s.quit
    case Leave => s.place.AtTest? && s.quit
    case PollReturns(wake) => s.place.AtPoll? && (wake ==> s.counter > 0)
    case HandleRead => s.place == Handling(true) && !s.owes
    case OwnPush(_) => InCallback(s.place) && !s.owes
    case OwnWakeup => s.owes
    case Swap => s.place == Handling(false) && !s.owes
    case RunTask => s.place.Functors? && s.batch != [] && !s.owes
    case EndFunctors => s.place.Functors? && s.batch == [] && !s.owes
    case OwnQuit => InCallback(s.place) && !s.owes
    case OtherPush(t, _) => t !in s.midway
    case OtherQuit(t) => t !in s.midway
    case OtherWakeup(t) => t in s.midway
  }

  function Step(s: State, a: Action): State
    requires Enabled(s, a)
  {
    match a
    case Start => s.(place := AtTest, quit := false)
    case EnterPoll => s.(place := AtPoll)
    case Leave => s.(place := Stopped)
    case PollReturns(wake) => s.(place := Handling(wake))
    case HandleRead => s.(place := Handling(false), counter := 0, aborted := s.aborted || s.counter == 0)
    case OwnPush(task) => s.(pending := s.pending + [task], log := s.log + [task], owes := s.calling)
    case OwnWakeup => s.(counter := s.counter + 1, owes := false)
    case Swap => s.(place := Functors, calling := true, batch := s.pending, pending := [], mark := |s.log|)
    case RunTask => s.(batch := s.batch[1..], executed := s.executed + [s.batch[0]])
    case EndFunctors => s.(place := AtTest, calling := false)
    case OwnQuit => s.(quit := true)
    case OtherPush(t, task) => s.(pending := s.pending + [task], log := s.log + [task], midway := s.midway + {t})
    case OtherQuit(t) => s.(quit := true, midway := s.midway + {t})
    case OtherWakeup(t) => s.(counter := s.counter + 1, midway := s.midway - {t})
  }

  /** The states a sequence of steps leads to, each step possible in its turn. */
  ghost predicate Runs(s: State, actions: seq<Action>, s': State)
    decreases |actions|
  {
    if actions == [] then s' == s
    else Enabled(s, actions[0]) && Runs(Step(s, actions[0]), actions[1..], s')
  }

  // ---- The invariant ------------------------------------------------------------

  /** Somebody will make `poll` return: the counter is up, or a `wakeup` is coming. */
  predicate WakeComing(s: State) {
    s.counter > 0 || s.midway != {} || s.owes
  }

  ghost predicate Inv(s: State) {
    && s.log == s.executed + s.batch + s.pending
    && s.mark == |s.executed| + |s.batch|
    && (!s.place.Functors? ==> s.batch == [])
    && (s.owes ==> InCallback(s.place))
    && (s.place.Functors? ==> s.calling)
    && (s.pending != [] && !s.place.Handling? ==> WakeComing(s))
    && (s.quit && s.place.AtPoll? ==> WakeComing(s))
    && (s.place == Handling(true) ==> s.counter > 0)
    && !s.aborted
  }

  lemma StepKeepsInv(s: State, a: Action)
    requires Inv(s) && Enabled(s, a)
    ensures Inv(Step(s, a))
  {
    var s' := Step(s, a);
    match a
    case RunTask =>
      assert s.batch == [s.batch[0]] + s.batch[1..];
      assert s'.executed + s'.batch == s.executed + s.batch;
    case Swap =>
      assert s'.executed + s'.batch + s'.pending == s.executed + s.batch + s.pending;
    case OwnPush(t) =>
      assert s'.executed + s'.batch + s'.pending == (s.executed + s.batch + s.pending) + [t];
    case OtherPush(_, t) =>
      assert s'.executed + s'.batch + s'.pending == (s.executed + s.batch + s.pending) + [t];
    case _ =>
  }

  lemma {:induction false} RunKeepsInv(s: State, actions: seq<Action>, s': State)
    requires Inv(s) && Runs(s, actions, s')
    ensures Inv(s')
    decreases |actions|
  {
    if actions != [] {
      StepKeepsInv(s, actions[0]);
      RunKeepsInv(Step(s, actions[0]), actions[1..], s');
    }
  }

  // ---- What every run guarantees --------------------------------------------------

  /** No lost wakeup, whatever `callingPendingFunctors_` was born with: a loop that is
      about to wait, or waits, with functors queued has its counter up or a wakeup on
      the way; the same once `quit_` is set; and the wakeup channel's read always finds
      a positive counter. */
  lemma NoLostWakeup(calling: bool, actions: seq<Action>, s: State)
    requires Runs(Init(calling), actions, s)
    ensures s.place.AtPoll? && (s.pending != [] || s.quit) ==> s.counter > 0 || s.midway != {}
    ensures s.place == Handling(true) ==> s.counter > 0
    ensures !s.aborted
  {
    RunKeepsInv(Init(calling), actions, s);
  }

  /** The promise is enough: once no wakeup is in flight, a waiting loop with functors
      queued can be woken, and the batch it then takes is what was queued. */
  lemma WaitingLoopServes(s: State)
    requires Inv(s) && s.place.AtPoll? && s.pending != [] && s.midway == {}
    ensures var s' := s.(place := Functors, counter := 0, calling := true, batch := s.pending, pending := [], mark := |s.log|);
            Runs(s, [PollReturns(true), HandleRead, Swap], s')
  {
  }

  /** Functors run once each, in the order of their pushes: what ran, what is left of
      the batch and what is queued are together everything ever queued. */
  lemma FunctorsRunOnceInOrder(calling: bool, actions: seq<Action>, s: State)
    requires Runs(Init(calling), actions, s)
    ensures s.executed + s.batch + s.pending == s.log
  {
    RunKeepsInv(Init(calling), actions, s);
  }

  /** The functors still to run of the batch that was swapped in at `s0`. */
  ghost predicate Serving(s0: State, s: State) {
    s.executed + s.batch == s0.executed + s0.pending
  }

  /** Between two swaps exactly the functors pending at the first one run, in order, no
      matter what they or other threads queue meanwhile: a functor that queues itself
      again waits for the next round. */
  lemma {:induction false} BatchIsWhatWasPending(s0: State, s: State, actions: seq<Action>, s': State)
    requires Serving(s0, s) && Runs(s, actions, s') && forall i :: 0 <= i < |actions| ==> !actions[i].Swap?
    ensures Serving(s0, s')
    decreases |actions|
  {
    if actions != [] {
      var s1 := Step(s, actions[0]);
      if actions[0].RunTask? {
        assert s.batch == [s.batch[0]] + s.batch[1..];
        assert s1.executed + s1.batch == s.executed + s.batch;
      }
      assert forall i :: 0 <= i < |actions[1..]| ==> actions[1..][i] == actions[i + 1];
      BatchIsWhatWasPending(s0, s1, actions[1..], s');
    }
  }

  /** One `doPendingFunctors`: from its swap to the next test of `quit_` it has run
      exactly the functors pending at the swap. */
  lemma DoPendingRunsTheBatch(s0: State, actions: seq<Action>, s: State)
    requires Inv(s0) && Enabled(s0, Swap) && Runs(Step(s0, Swap), actions, s)
    requires s.place.AtTest? && forall i :: 0 <= i < |actions| ==> !actions[i].Swap?
    ensures s.executed == s0.executed + s0.pending
  {
    StepKeepsInv(s0, Swap);
    RunKeepsInv(Step(s0, Swap), actions, s);
    BatchIsWhatWasPending(s0, Step(s0, Swap), actions, s);
    assert s.executed + [] == s.executed;
  }

  /** The first `n` tasks ever queued will have run by the end of this round. */
  predicate Due(n: nat, s: State) {
    || (s.place.Handling? && s.batch == [] && n <= |s.executed| + |s.pending|)
    || (s.place.Functors? && n <= |s.executed| + |s.batch|)
  }

  lemma StepKeepsDue(n: nat, s: State, a: Action)
    requires Due(n, s) && Enabled(s, a)
    ensures if a.EndFunctors? then n <= |Step(s, a).executed| else Due(n, Step(s, a))
  {
  }

  lemma {:induction false} DueIsServed(n: nat, s: State, actions: seq<Action>, s': State)
    requires Due(n, s) && Runs(s, actions, s') && s'.place.AtTest?
    ensures n <= |s'.executed|
    decreases |actions|
  {
    hide Due, Enabled, Step;
    NotDueAtTest(n, s);
    StepKeepsDue(n, s, actions[0]);
    var s1 := Step(s, actions[0]);
    if actions[0].EndFunctors? {
      StaysDone(n, s1, actions[1..], s');
    } else {
      DueIsServed(n, s1, actions[1..], s');
    }
  }

  lemma NotDueAtTest(n: nat, s: State)
    requires Due(n, s)
    ensures !s.place.AtTest?
  {
  }

  /** What was queued when `poll` returned, by whatever thread, has run when `quit_` is
      tested next; and it ran in queueing order. */
  lemma QueuedByPollIsServed(s: State, actions: seq<Action>, s': State)
    requires Inv(s) && s.place.Handling? && Runs(s, actions, s') && s'.place.AtTest?
    ensures s.log <= s'.executed
  {
    DueIsServed(|s.log|, s, actions, s');
    RunKeepsInv(s, actions, s');
    LogGrows(s, actions, s');
    assert s'.log == s'.executed + (s'.batch + s'.pending);
  }

  lemma {:induction false} LogGrows(s: State, actions: seq<Action>, s': State)
    requires Runs(s, actions, s')
    ensures s.log <= s'.log
    decreases |actions|
  {
    if actions != [] { LogGrows(Step(s, actions[0]), actions[1..], s'); }
  }

  lemma StepKeepsDone(n: nat, s: State, a: Action)
    requires Enabled(s, a) && n <= |s.executed|
    ensures n <= |Step(s, a).executed|
  {
  }

  lemma {:induction false} StaysDone(n: nat, s: State, actions: seq<Action>, s': State)
    requires Runs(s, actions, s') && n <= |s.executed|
    ensures n <= |s'.executed|
    decreases |actions|
  {
    hide Enabled, Step;
    if actions != [] {
      StepKeepsDone(n, s, actions[0]);
      StaysDone(n, Step(s, actions[0]), actions[1..], s');
    }
  }

  // ---- Quit -------------------------------------------------------------------------

  predicate SetsQuit(a: Action) {
    a.OwnQuit? || a.OtherQuit?
  }

  /** Once `quit_` is set on a running loop it stays set, and the loop never goes back
      to `poll`: the iteration under way is the last. */
  lemma {:induction false} QuitIsFinal(s: State, actions: seq<Action>, s': State)
    requires s.quit && !s.place.NotStarted? && Runs(s, actions, s')
    ensures s'.quit && !s'.place.NotStarted?
    ensures forall i :: 0 <= i < |actions| ==> !actions[i].EnterPoll?
    decreases |actions|
  {
    if actions != [] {
      QuitIsFinal(Step(s, actions[0]), actions[1..], s');
      assert forall i :: 0 < i < |actions| ==> actions[i] == actions[1..][i - 1];
    }
  }

  /** A stopped loop has run every functor that was pending at its last swap. */
  lemma StoppedHasServed(calling: bool, actions: seq<Action>, s: State)
    requires Runs(Init(calling), actions, s) && s.place.Stopped?
    ensures s.batch == [] && s.mark <= |s.log| && s.executed == s.log[..s.mark]
  {
    RunKeepsInv(Init(calling), actions, s);
    assert s.log == s.executed + s.pending;
  }

  /** `loop()` clears the flag: from its start on the flag says exactly whether somebody
      called `quit` since. A `quit` before `loop()` is forgotten. */
  lemma QuitCountsFromStart(s: State, actions: seq<Action>, s': State)
    requires Runs(s, [Start] + actions, s')
    ensures s'.quit <==> exists i :: 0 <= i < |actions| && SetsQuit(actions[i])
  {
    assert ([Start] + actions)[1..] == actions;
    QuitCounts(Step(s, Start), actions, s');
  }

  lemma {:induction false} QuitCounts(s: State, actions: seq<Action>, s': State)
    requires Runs(s, actions, s') && !s.place.NotStarted?
    ensures s'.quit <==> s.quit || exists i :: 0 <= i < |actions| && SetsQuit(actions[i])
    decreases |actions|
  {
    if actions != [] {
      QuitCounts(Step(s, actions[0]), actions[1..], s');
      assert forall i :: 0 < i < |actions| ==> actions[i] == actions[1..][i - 1];
      if i :| 0 <= i < |actions| && SetsQuit(actions[i]) {
        if i > 0 { assert SetsQuit(actions[1..][i - 1]); }
      }
    }
  }

  /** A run in which another thread calls `quit` before the loop starts: the loop ends
      up waiting with nothing to wake it. */
  lemma EarlyQuitIsLost(calling: bool) returns (rest: seq<Action>, s: State)
    ensures Runs(Init(calling), [OtherQuit(0)] + rest, s)
    ensures s.place.AtPoll? && !s.quit && s.counter == 0 && s.midway == {}
  {
    var t5 := Idle(State(AtPoll, [], [], 1, false, calling, false, {}, [], [], 0, false));
    s := State(AtPoll, [], [], 0, false, false, false, {}, [], [], 0, false);
    var t4 := [EnterPoll] + t5;
    Extend(State(AtTest, [], [], 1, false, calling, false, {}, [], [], 0, false), EnterPoll, t5, s);
    var t3 := [Start] + t4;
    Extend(State(NotStarted, [], [], 1, true, calling, false, {}, [], [], 0, false), Start, t4, s);
    rest := [OtherWakeup(0)] + t3;
    var midway := State(NotStarted, [], [], 0, true, calling, false, {0}, [], [], 0, false);
    assert midway.midway - {0} == {};
    Extend(midway, OtherWakeup(0), t3, s);
    assert {} + {0} == {0};
    Extend(Init(calling), OtherQuit(0), rest, s);
  }

  /** One round with nothing to do but a stale wakeup. */
  lemma Idle(s: State) returns (actions: seq<Action>)
    requires s.place.AtPoll? && s.pending == [] && s.batch == [] && !s.quit && !s.owes && !s.aborted
    requires s.counter == 1 && s.log == []
    ensures Runs(s, actions, s.(counter := 0, calling := false, mark := 0))
  {
    var s1 := s.(place := Handling(true));
    var s2 := s1.(place := Handling(false), counter := 0);
    var s3 := s2.(place := Functors, calling := true, mark := 0);
    var s4 := s3.(place := AtTest, calling := false);
    var end := s4.(place := AtPoll);
    Extend(s4, EnterPoll, [], end);
    Extend(s3, EndFunctors, [EnterPoll] + [], end);
    var t2 := [EndFunctors] + ([EnterPoll] + []);
    Extend(s2, Swap, t2, end);
    Extend(s1, HandleRead, [Swap] + t2, end);
    Extend(s, PollReturns(true), [HandleRead] + ([Swap] + t2), end);
    actions := [PollReturns(true)] + ([HandleRead] + ([Swap] + t2));
  }

  lemma Extend(s: State, a: Action, rest: seq<Action>, s': State)
    requires Enabled(s, a) && Runs(Step(s, a), rest, s')
    ensures Runs(s, [a] + rest, s')
  {
  }

  /** Runs can be put one after the other. */
  lemma {:induction false} RunsAppend(s: State, a: seq<Action>, m: State, b: seq<Action>, s': State)
    requires Runs(s, a, m) && Runs(m, b, s')
    ensures Runs(s, a + b, s')
    decreases |a|
  {
    if a == [] {
      assert a + b == b;
    } else {
      assert (a + b)[1..] == a[1..] + b;
      RunsAppend(Step(s, a[0]), a[1..], m, b, s');
    }
  }
}
