/** `EventLoop` as the object it is: its methods, in the loop's own thread or called
    from another one, are runs of the wakeup protocol. */
module EventLoops {
  import opened Wakeup

  /** What running a functor or an event callback does to the loop itself. */
  datatype Effect = Effect(queues: seq<Task>, quits: bool)

  /** An active channel: the loop's own, or one whose callbacks have some effect. */
  datatype Active = WakeupChannel | Other(effect: Effect)

  /** One return of `poll`, in the order it reports. */
  type Round = seq<Active>

  /** A channel is reported at most once per round. */
  predicate OneWakeup(round: Round) {
    forall i, j :: 0 <= i < j < |round| ==> !(round[i].WakeupChannel? && round[j].WakeupChannel?)
  }

  class EventLoop {
    var looping: bool
    var quit: bool
    var eventHandling: bool
    var callingPendingFunctors: bool
    var pendingFunctors: seq<Task>
    var wakeupCounter: nat  // of the eventfd
    const effect: Task -> Effect

    // Where the loop's thread is, and the history of its queue.
    ghost var place: Place
    ghost var batch: seq<Task>
    ghost var owes: bool
    ghost var midway: set<ThreadId>
    ghost var executed: seq<Task>
    ghost var log: seq<Task>
    ghost var mark: nat

    ghost function View(): State
      reads this
    {
      State(place, pendingFunctors, batch, wakeupCounter, quit, callingPendingFunctors, owes, midway,
            executed, log, mark, false)
    }

    constructor (effect: Task -> Effect, calling: bool)
      ensures View() == Init(calling) && !looping && this.effect == effect
    {
      this.effect := effect;
      looping, quit, eventHandling, callingPendingFunctors := false, false, false, calling;
      pendingFunctors, wakeupCounter := [], 0;
      place, batch, owes, midway, executed, log, mark := NotStarted, [], false, {}, [], [], 0;
    }

    /** `wakeup`, as the end of the loop thread's own `queueInLoop`. */
    method WakeupOwn()
      requires owes
      modifies `wakeupCounter, `owes
      ensures View() == Step(old(View()), OwnWakeup)
    {
      wakeupCounter := wakeupCounter + 1;
      owes := false;
    }

    /** `queueInLoop` in the loop's thread: `wakeup` only while functors are running. */
    method QueueInLoop(task: Task) returns (ghost actions: seq<Action>)
      requires InCallback(place) && !owes
      modifies `pendingFunctors, `wakeupCounter, `log, `owes
      ensures Runs(old(View()), actions, View()) && !owes
      ensures forall i :: 0 <= i < |actions| ==> actions[i] in {OwnPush(task), OwnWakeup}
      ensures pendingFunctors == old(pendingFunctors) + [task]
      ensures wakeupCounter == old(wakeupCounter) + (if callingPendingFunctors then 1 else 0)
    {
      ghost var s := View();
      pendingFunctors := pendingFunctors + [task];
      log := log + [task];
      owes := callingPendingFunctors;
      ghost var m := View();
      assert m == Step(s, OwnPush(task));
      if callingPendingFunctors {
        WakeupOwn();
        Extend(m, OwnWakeup, [], View());
        Extend(s, OwnPush(task), [OwnWakeup] + [], View());
        actions := [OwnPush(task)] + ([OwnWakeup] + []);
      } else {
        Extend(s, OwnPush(task), [], View());
        actions := [OwnPush(task)] + [];
      }
    }

    /** `queueInLoop` from another thread, left alone between push and wakeup. */
    method QueueFrom(ghost thread: ThreadId, task: Task)
      requires thread !in midway
      modifies `pendingFunctors, `wakeupCounter, `log
      ensures Runs(old(View()), [OtherPush(thread, task), OtherWakeup(thread)], View())
    {
      ghost var s := View();
      pendingFunctors := pendingFunctors + [task];
      log := log + [task];
      wakeupCounter := wakeupCounter + 1;
      ghost var m := Step(s, OtherPush(thread, task));
      assert m.midway - {thread} == s.midway;
      Extend(m, OtherWakeup(thread), [], View());
      Extend(s, OtherPush(thread, task), [OtherWakeup(thread)] + [], View());
      assert [OtherPush(thread, task)] + ([OtherWakeup(thread)] + []) == [OtherPush(thread, task), OtherWakeup(thread)];
    }

    /** `quit` from another thread. */
    method QuitFrom(ghost thread: ThreadId)
      requires thread !in midway
      modifies `quit, `wakeupCounter
      ensures Runs(old(View()), [OtherQuit(thread), OtherWakeup(thread)], View()) && quit
    {
      ghost var s := View();
      quit := true;
      wakeupCounter := wakeupCounter + 1;
      ghost var m := Step(s, OtherQuit(thread));
      assert m.midway - {thread} == s.midway;
      Extend(m, OtherWakeup(thread), [], View());
      Extend(s, OtherQuit(thread), [OtherWakeup(thread)] + [], View());
      assert [OtherQuit(thread)] + ([OtherWakeup(thread)] + []) == [OtherQuit(thread), OtherWakeup(thread)];
    }

    /** `handleRead` of the wakeup channel: the counter is positive, so the read works. */
    method HandleRead()
      requires place == Handling(true) && !owes && wakeupCounter > 0
      modifies `place, `wakeupCounter
      ensures View() == Step(old(View()), Wakeup.HandleRead)
    {
      place := Handling(false);
      wakeupCounter := 0;
    }

    /** The body of a functor or callback, as far as it concerns this loop. */
    method Perform(e: Effect) returns (ghost actions: seq<Action>)
      requires InCallback(place) && !owes
      modifies `pendingFunctors, `wakeupCounter, `log, `owes, `quit
      ensures Runs(old(View()), actions, View()) && !owes && wakeupCounter >= old(wakeupCounter)
      ensures forall i :: 0 <= i < |actions| ==> InCallbackOnly(actions[i])
      ensures pendingFunctors == old(pendingFunctors) + e.queues && quit == (old(quit) || e.quits)
    {
      actions := [];
      for i := 0 to |e.queues|
        invariant Runs(old(View()), actions, View()) && !owes
        invariant forall j :: 0 <= j < |actions| ==> InCallbackOnly(actions[j])
        invariant pendingFunctors == old(pendingFunctors) + e.queues[..i] && wakeupCounter >= old(wakeupCounter)
        invariant quit == old(quit)
      {
        ghost var m := View();
        ghost var more := QueueInLoop(e.queues[i]);
        RunsAppend(old(View()), actions, m, more, View());
        actions := actions + more;
      }
      if e.quits {
        ghost var m := View();
        quit := true;
        Extend(m, OwnQuit, [], View());
        RunsAppend(old(View()), actions, m, [OwnQuit] + [], View());
        actions := actions + ([OwnQuit] + []);
      }
    }

    /** `runInLoop` in the loop's thread: the functor runs at once, ahead of everything
        queued. From another thread it is `QueueFrom`. */
    method RunInLoop(task: Task) returns (ghost actions: seq<Action>)
      requires InCallback(place) && !owes
      modifies `pendingFunctors, `wakeupCounter, `log, `owes, `quit
      ensures Runs(old(View()), actions, View()) && !owes
      ensures pendingFunctors == old(pendingFunctors) + effect(task).queues
      ensures quit == (old(quit) || effect(task).quits)
    {
      actions := Perform(effect(task));
    }

    /** `functor()`. */
    method RunFunctor(task: Task) returns (ghost actions: seq<Action>)
      requires place.Functors? && !owes && batch != [] && batch[0] == task
      modifies `batch, `executed, `pendingFunctors, `wakeupCounter, `log, `owes, `quit
      ensures Runs(old(View()), actions, View()) && !owes
      ensures forall i :: 0 <= i < |actions| ==> actions[i].RunTask? || InCallbackOnly(actions[i])
      ensures batch == old(batch)[1..] && executed == old(executed) + [task]
      ensures pendingFunctors == old(pendingFunctors) + effect(task).queues
      ensures quit == (old(quit) || effect(task).quits)
    {
      batch, executed := batch[1..], executed + [task];
      var more := Perform(effect(task));
      Extend(old(View()), RunTask, more, View());
      actions := [RunTask] + more;
    }

    /** `doPendingFunctors`: take the batch, run it in order, let the callbacks queue. */
    method DoPendingFunctors() returns (ghost actions: seq<Action>)
      requires place == Handling(false) && !owes && batch == []
      modifies `place, `batch, `mark, `callingPendingFunctors, `executed, `pendingFunctors, `wakeupCounter, `log, `owes, `quit
      ensures Runs(old(View()), actions, View()) && place.AtTest? && batch == [] && !owes
      ensures executed == old(executed) + old(pendingFunctors)
      ensures pendingFunctors == Queued(effect, old(pendingFunctors))
      ensures quit == (old(quit) || Quits(effect, old(pendingFunctors)))
    {
      hide Runs, Enabled, Quits;
      callingPendingFunctors := true;
      var functors := pendingFunctors;
      pendingFunctors := [];
      place, batch, mark := Functors, functors, |log|;
      SwapRuns(old(View()));
      NothingQuits(effect, functors);
      actions := [Swap];
      for i := 0 to |functors|
        invariant place.Functors? && !owes && batch == functors[i..] && callingPendingFunctors
        invariant executed == old(executed) + functors[..i]
        invariant pendingFunctors == Queued(effect, functors[..i])
        invariant quit == (old(quit) || Quits(effect, functors[..i]))
        invariant Runs(old(View()), actions, View())
      {
        ghost var m := View();
        ghost var more := RunFunctor(functors[i]);
        RunsAppend(old(View()), actions, m, more, View());
        actions := actions + more;
        QueuedNext(effect, functors, i);
      }
      assert functors[..|functors|] == functors;
      ghost var m := View();
      callingPendingFunctors := false;
      place := AtTest;
      EndRuns(m);
      RunsAppend(old(View()), actions, m, [EndFunctors], View());
      actions := actions + [EndFunctors];
    }

    /** The loop over `activeChannels_`. */
    method HandleEvents(round: Round) returns (ghost actions: seq<Action>)
      requires place == Handling(WakeupChannel in round) && !owes && OneWakeup(round)
      requires WakeupChannel in round ==> wakeupCounter > 0
      modifies `place, `eventHandling, `pendingFunctors, `wakeupCounter, `log, `owes, `quit
      ensures Runs(old(View()), actions, View()) && place == Handling(false) && !owes && !eventHandling
      ensures pendingFunctors == old(pendingFunctors) + QueuedBy(round)
      ensures quit == (old(quit) || QuitBy(round))
    {
      hide Runs, Enabled, InCallbackOnly, QuitBy;
      eventHandling := true;
      actions := [];
      NoRuns(View());
      NothingQuitsBy(round);
      for i := 0 to |round|
        invariant Runs(old(View()), actions, View()) && place == Handling(WakeupChannel in round[i..]) && !owes
        invariant WakeupChannel in round[i..] ==> wakeupCounter > 0
        invariant pendingFunctors == old(pendingFunctors) + QueuedBy(round[..i])
        invariant quit == (old(quit) || QuitBy(round[..i]))
      {
        ghost var m := View();
        ghost var more;
        RestOfRound(round, i);
        HandledNext(round, i);
        if round[i].WakeupChannel? {
          HandleRead();
          more := [Wakeup.HandleRead];
          ReadRuns(m);
        } else {
          more := Perform(round[i].effect);
        }
        RunsAppend(old(View()), actions, m, more, View());
        actions := actions + more;
      }
      assert round[..|round|] == round;
      eventHandling := false;
    }

    /** One turn of `loop()` whose `poll` returns. */
    method Iterate(round: Round) returns (ghost actions: seq<Action>)
      requires place.AtTest? && !quit && !owes && batch == [] && OneWakeup(round)
      requires WakeupChannel in round ==> wakeupCounter > 0
      modifies this
      ensures Runs(old(View()), actions, View()) && place.AtTest? && !owes && batch == [] && looping == old(looping)
      ensures executed == old(executed) + old(pendingFunctors) + QueuedBy(round)
      ensures pendingFunctors == Queued(effect, old(pendingFunctors) + QueuedBy(round))
      ensures quit == QuitsIn(effect, old(pendingFunctors), round)
    {
      hide Runs, Enabled, QuitBy, Quits;
      ghost var s := View();
      var wake := WakeupChannel in round;
      place := Handling(wake);
      PollRuns(s, wake);
      ghost var m := View();
      var handled := HandleEvents(round);
      RunsAppend(s, [EnterPoll, PollReturns(wake)], m, handled, View());
      actions := [EnterPoll, PollReturns(wake)] + handled;
      m := View();
      var drained := DoPendingFunctors();
      RunsAppend(s, actions, m, drained, View());
      actions := actions + drained;
    }

    /** `loop()`, for as long as `poll` has something to return. The rounds are the
        kernel's: it reports the wakeup channel only while the counter is positive, so a
        round that promises a wakeup without one leaves the loop waiting. */
    method Loop(rounds: seq<Round>) returns (ghost actions: seq<Action>, done: nat)
      requires !looping && place.NotStarted? && Inv(View()) && forall i :: 0 <= i < |rounds| ==> OneWakeup(rounds[i])
      modifies this
      ensures Runs(old(View()), actions, View()) && Inv(View())
      ensures done <= |rounds|
      ensures place.Stopped? ==> quit && !looping
      ensures place.AtPoll? ==> !quit && done < |rounds| && WakeupChannel in rounds[done] && wakeupCounter == 0
      ensures !place.Stopped? && !place.AtPoll? ==> place.AtTest? && !quit && done == |rounds|
      ensures executed == old(executed) + ExecutedIn(effect, old(pendingFunctors), rounds[..done])
      ensures pendingFunctors == PendingAfter(effect, old(pendingFunctors), rounds[..done])
      ensures StopsAfter(effect, old(pendingFunctors), rounds, done, place.Stopped?)
    {
      assert !owes && batch == [];
      hide Runs, Enabled, Inv, QuitsIn, StopsAfter, PendingAfter, ExecutedIn, Queued, QueuedBy;
      NothingDone(effect, pendingFunctors, rounds);
      looping := true;
      quit := false;
      place := AtTest;
      StartRuns(old(View()));
      actions := [Start];
      done := 0;
      while !quit && done < |rounds| && (WakeupChannel in rounds[done] ==> wakeupCounter > 0)
        invariant Runs(old(View()), actions, View()) && place.AtTest? && !owes && batch == [] && looping
        invariant done <= |rounds|
        invariant executed == old(executed) + ExecutedIn(effect, old(pendingFunctors), rounds[..done])
        invariant pendingFunctors == PendingAfter(effect, old(pendingFunctors), rounds[..done])
        invariant StopsAfter(effect, old(pendingFunctors), rounds, done, quit)
        decreases |rounds| - done
      {
        ghost var m := View();
        RoundsNext(effect, old(pendingFunctors), rounds, done);
        Regroup(old(executed), ExecutedIn(effect, old(pendingFunctors), rounds[..done]), pendingFunctors,
                QueuedBy(rounds[done]));
        ghost var more := Iterate(rounds[done]);
        RunsAppend(old(View()), actions, m, more, View());
        actions := actions + more;
        done := done + 1;
      }
      ghost var m := View();
      if quit {
        looping := false;
        place := Stopped;
        LeaveRuns(m);
        RunsAppend(old(View()), actions, m, [Leave], View());
        actions := actions + [Leave];
      } else if done < |rounds| {
        place := AtPoll;
        WaitRuns(m);
        RunsAppend(old(View()), actions, m, [EnterPoll], View());
        actions := actions + [EnterPoll];
      }
      RunKeepsInv(old(View()), actions, View());
    }
  }

  // ---- One-step runs ----------------------------------------------------------------

  lemma NoRuns(s: State)
    ensures Runs(s, [], s)
  {
  }

  lemma SwapRuns(s: State)
    requires s.place == Handling(false) && !s.owes
    ensures Runs(s, [Swap], s.(place := Functors, calling := true, batch := s.pending, pending := [], mark := |s.log|))
  {
  }

  lemma EndRuns(s: State)
    requires s.place.Functors? && s.batch == [] && !s.owes
    ensures Runs(s, [EndFunctors], s.(place := AtTest, calling := false))
  {
  }

  lemma ReadRuns(s: State)
    requires s.place == Handling(true) && !s.owes && s.counter > 0
    ensures Runs(s, [HandleRead], s.(place := Handling(false), counter := 0))
  {
  }

  lemma StartRuns(s: State)
    requires s.place.NotStarted?
    ensures Runs(s, [Start], s.(place := AtTest, quit := false))
  {
  }

  lemma WaitRuns(s: State)
    requires s.place.AtTest? && !s.quit
    ensures Runs(s, [EnterPoll], s.(place := AtPoll))
  {
  }

  lemma PollRuns(s: State, wake: bool)
    requires s.place.AtTest? && !s.quit && (wake ==> s.counter > 0)
    ensures Runs(s, [EnterPoll, PollReturns(wake)], s.(place := Handling(wake)))
  {
  }

  lemma LeaveRuns(s: State)
    requires s.place.AtTest? && s.quit
    ensures Runs(s, [Leave], s.(place := Stopped))
  {
  }

  /** What is left of a round after its next channel. */
  lemma RestOfRound(round: Round, i: nat)
    requires i < |round| && OneWakeup(round)
    ensures round[i..] == [round[i]] + round[i + 1..]
    ensures round[i].WakeupChannel? ==> WakeupChannel !in round[i + 1..]
    ensures WakeupChannel in round[i..] <==> round[i].WakeupChannel? || WakeupChannel in round[i + 1..]
  {
  }

  lemma NothingQuits(effect: Task -> Effect, tasks: seq<Task>)
    ensures !Quits(effect, tasks[..0])
  {
  }

  lemma QueuedNext(effect: Task -> Effect, tasks: seq<Task>, i: nat)
    requires i < |tasks|
    ensures Queued(effect, tasks[..i + 1]) == Queued(effect, tasks[..i]) + effect(tasks[i]).queues
    ensures Quits(effect, tasks[..i + 1]) <==> Quits(effect, tasks[..i]) || effect(tasks[i]).quits
  {
    assert tasks[..i + 1][..i] == tasks[..i];
    if effect(tasks[i]).quits { assert tasks[..i + 1][i] == tasks[i]; }
    if Quits(effect, tasks[..i]) {
      var j :| 0 <= j < i && effect(tasks[..i][j]).quits;
      assert tasks[..i + 1][j] == tasks[..i][j];
    }
    if Quits(effect, tasks[..i + 1]) {
      var j :| 0 <= j <= i && effect(tasks[..i + 1][j]).quits;
      if j < i { assert tasks[..i][j] == tasks[..i + 1][j]; }
    }
  }

  // ---- What a loop is given to do -----------------------------------------------------

  /** What the callbacks of a round's channels queue, in order. */
  function QueuedBy(round: Round): seq<Task> {
    if round == [] then []
    else
      QueuedBy(round[..|round| - 1]) + (if round[|round| - 1].Other? then round[|round| - 1].effect.queues else [])
  }

  predicate QuitBy(round: Round) {
    exists i :: 0 <= i < |round| && round[i].Other? && round[i].effect.quits
  }

  /** Somebody quits in an iteration: a callback, or a functor of the batch it leaves. */
  predicate QuitsIn(effect: Task -> Effect, pending: seq<Task>, round: Round) {
    QuitBy(round) || Quits(effect, pending + QueuedBy(round))
  }

  /** The queue after some iterations: what the last batch queued. */
  function PendingAfter(effect: Task -> Effect, pending: seq<Task>, rounds: seq<Round>): seq<Task> {
    if rounds == [] then pending
    else Queued(effect, PendingAfter(effect, pending, rounds[..|rounds| - 1]) + QueuedBy(rounds[|rounds| - 1]))
  }

  /** What those iterations run: each its queue, and what its own callbacks add. */
  function ExecutedIn(effect: Task -> Effect, pending: seq<Task>, rounds: seq<Round>): seq<Task> {
    if rounds == [] then []
    else
      var before := rounds[..|rounds| - 1];
      ExecutedIn(effect, pending, before) + PendingAfter(effect, pending, before) + QueuedBy(rounds[|rounds| - 1])
  }

  predicate QuitsAt(effect: Task -> Effect, pending: seq<Task>, rounds: seq<Round>, k: nat)
    requires k < |rounds|
  {
    QuitsIn(effect, PendingAfter(effect, pending, rounds[..k]), rounds[k])
  }

  /** Of the first `done` iterations only the last may have seen a quit, and `stops` says
      whether it did. */
  predicate StopsAfter(effect: Task -> Effect, pending: seq<Task>, rounds: seq<Round>, done: nat, stops: bool)
    requires done <= |rounds|
  {
    && (forall k :: 0 <= k < done && QuitsAt(effect, pending, rounds, k) ==> k == done - 1 && stops)
    && (stops ==> done > 0 && QuitsAt(effect, pending, rounds, done - 1))
  }

  lemma Regroup(a: seq<Task>, b: seq<Task>, c: seq<Task>, d: seq<Task>)
    ensures a + b + c + d == a + (b + c + d)
  {
  }

  lemma NothingDone(effect: Task -> Effect, pending: seq<Task>, rounds: seq<Round>)
    ensures ExecutedIn(effect, pending, rounds[..0]) == [] && PendingAfter(effect, pending, rounds[..0]) == pending
    ensures StopsAfter(effect, pending, rounds, 0, false)
  {
  }

  lemma RoundsNext(effect: Task -> Effect, pending: seq<Task>, rounds: seq<Round>, done: nat)
    requires done < |rounds|
    ensures var before := PendingAfter(effect, pending, rounds[..done]);
            && ExecutedIn(effect, pending, rounds[..done + 1])
               == ExecutedIn(effect, pending, rounds[..done]) + before + QueuedBy(rounds[done])
            && PendingAfter(effect, pending, rounds[..done + 1]) == Queued(effect, before + QueuedBy(rounds[done]))
            && (StopsAfter(effect, pending, rounds, done, false)
                ==> StopsAfter(effect, pending, rounds, done + 1, QuitsIn(effect, before, rounds[done])))
  {
    hide QuitsIn;
    assert rounds[..done + 1][..done] == rounds[..done];
  }

  lemma NothingQuitsBy(round: Round)
    ensures QueuedBy(round[..0]) == [] && !QuitBy(round[..0])
  {
  }

  lemma HandledNext(round: Round, i: nat)
    requires i < |round|
    ensures QueuedBy(round[..i + 1]) == QueuedBy(round[..i]) + (if round[i].Other? then round[i].effect.queues else [])
    ensures QuitBy(round[..i + 1]) <==> QuitBy(round[..i]) || (round[i].Other? && round[i].effect.quits)
  {
    assert round[..i + 1][..i] == round[..i] && round[..i + 1][i] == round[i];
    if QuitBy(round[..i]) {
      var j :| 0 <= j < i && round[..i][j].Other? && round[..i][j].effect.quits;
      assert round[..i + 1][j] == round[..i][j];
    }
    if QuitBy(round[..i + 1]) {
      var j :| 0 <= j <= i && round[..i + 1][j].Other? && round[..i + 1][j].effect.quits;
      if j < i { assert round[..i][j] == round[..i + 1][j]; }
    }
  }

  predicate InCallbackOnly(a: Action) {
    a.OwnPush? || a.OwnWakeup? || a.OwnQuit?
  }

  /** What a batch queues, in order. */
  function Queued(effect: Task -> Effect, tasks: seq<Task>): seq<Task> {
    if tasks == [] then []
    else Queued(effect, tasks[..|tasks| - 1]) + effect(tasks[|tasks| - 1]).queues
  }

  predicate Quits(effect: Task -> Effect, tasks: seq<Task>) {
    exists i :: 0 <= i < |tasks| && effect(tasks[i]).quits
  }
}
