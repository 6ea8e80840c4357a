/** Exactly how much overlap of Polls and newFuture calls a data-loader task stands without losing a wakeup. */
module TaskCellLost {
  import opened TaskCell
  import opened TaskCellProof

  /** Every Poll overlaps at most `p` other futures' Polls and at most `n` newFuture calls. */
  predicate Within(s: State, p: nat, n: nat) {
    forall i | 0 <= i < |s.pollers| :: |s.pollers[i].metPolls| <= p && |s.pollers[i].metNews| <= n
  }

  ghost predicate IsRunTo(run: seq<State>, events: seq<Event>, s: State, p: nat, n: nat) {
    IsRun(run, events) && run[|run| - 1] == s && forall k | 0 <= k < |run| :: Within(run[k], p, n)
  }

  ghost predicate ReachableWithin(s: State, p: nat, n: nat) {
    exists run: seq<State>, events: seq<Event> :: IsRunTo(run, events, s, p, n)
  }

  /** If Polls overlap no other Poll, or no newFuture, no wakeup is lost. */
  lemma WithinIsSafe(s: State, p: nat, n: nat, i: nat)
    requires ReachableWithin(s, p, n) && (p == 0 || n == 0)
    ensures !Lost(s, i)
  {
    var run: seq<State>, events: seq<Event> :| IsRunTo(run, events, s, p, n);
    var k := |run| - 1;
    forall m | 0 <= m < k && i < |run[m].pollers| ensures Unmixed(run[m].pollers[i]) {
      assert Within(run[m], p, n);
    }
    NoLostWakeup(run, events, k, i);
  }

  lemma Start()
    ensures ReachableWithin(Initial(), 1, 1)
  {
    assert IsRunTo([Initial()], [], Initial(), 1, 1);
  }

  lemma Advance(s: State, ev: Event, s': State)
    requires ReachableWithin(s, 1, 1) && Enabled(s, ev) && s' == Step(s, ev) && Within(s', 1, 1)
    ensures ReachableWithin(s', 1, 1)
  {
    var run: seq<State>, events: seq<Event> :| IsRunTo(run, events, s, 1, 1);
    var run', events' := run + [s'], events + [ev];
    LongerRun(run, events, ev, s');
    forall k | 0 <= k < |run'| ensures Within(run'[k], 1, 1) {
      if k < |run| { assert run'[k] == run[k]; }
    }
    assert IsRunTo(run', events', s', 1, 1);
  }

  lemma LongerRun(run: seq<State>, events: seq<Event>, ev: Event, s': State)
    requires IsRun(run, events) && Enabled(run[|run| - 1], ev) && s' == Step(run[|run| - 1], ev)
    ensures IsRun(run + [s'], events + [ev])
  {
    var run', events' := run + [s'], events + [ev];
    forall k | 0 <= k < |events'| ensures Enabled(run'[k], events'[k]) && run'[k + 1] == Step(run'[k], events'[k]) {
      if k < |events| { assert run'[k] == run[k] && run'[k + 1] == run[k + 1] && events'[k] == events[k]; }
    }
  }

  const FRESH := Poller(Idle, Never, {}, {})

  /** Two futures exist. */
  const TWO_FUTURES := State(2, [NotCompleted(0), NotCompleted(1), NotCompleted(2)], [[], [0], [0, 0]],
                             [FRESH, FRESH], [NewDone, NewDone], [], {})

  lemma OneFuture() returns (s: State)
    ensures ReachableWithin(s, 1, 1)
    ensures s == State(1, [NotCompleted(0), NotCompleted(1)], [[], [0]], [FRESH], [NewDone], [], {})
  {
    Start();
    var s1 := Step(Initial(), CallNew);
    assert s1 == Initial().(news := [NewLoad]);
    Advance(Initial(), CallNew, s1);
    var s2 := Step(s1, StepNew(0));
    assert s2 == Initial().(news := [NewCopy(0, [])]);
    Advance(s1, StepNew(0), s2);
    s := Step(s2, StepNew(0));
    assert [] + [NOP_WAKER] == [0];
    assert s.arrays == [[], [0]] && s.results == [NotCompleted(0), NotCompleted(1)];
    assert s.pollers == [FRESH] && s.news == [NewDone];
    Advance(s2, StepNew(0), s);
  }

  lemma SecondCopied() returns (s: State)
    ensures ReachableWithin(s, 1, 1)
    ensures s == State(1, [NotCompleted(0), NotCompleted(1)], [[], [0]], [FRESH], [NewDone, NewCopy(1, [0])], [], {})
  {
    var s3 := OneFuture();
    var s4 := Step(s3, CallNew);
    assert s4.pollers == [FRESH] && s4.news == [NewDone, NewLoad];
    Advance(s3, CallNew, s4);
    var s5 := Step(s4, StepNew(1));
    assert s5.news == [NewDone, NewCopy(1, [])];
    Advance(s4, StepNew(1), s5);
    s := Step(s5, StepNew(1));
    assert [] + [NOP_WAKER] == [0];
    assert s.news == [NewDone, NewCopy(1, [0])];
    Advance(s5, StepNew(1), s);
  }

  lemma TwoFutures()
    ensures ReachableWithin(TWO_FUTURES, 1, 1)
  {
    var s6 := SecondCopied();
    var s7 := Step(s6, StepNew(1));
    assert [0] + [NOP_WAKER] == [0, 0];
    assert s7.arrays == TWO_FUTURES.arrays && s7.results == TWO_FUTURES.results;
    assert s7.pollers == TWO_FUTURES.pollers && s7.news == TWO_FUTURES.news;
    Advance(s6, StepNew(1), s7);
  }

  /** The first future is polled with waker 7, up to its write of the slot. */
  lemma PolledFirst()
    ensures ReachableWithin(TWO_FUTURES.(pollers := [Poller(PollWrite(7, 2), Never, {}, {}), FRESH]), 1, 1)
  {
    TwoFutures();
    var s0 := TWO_FUTURES;
    var s1 := Step(s0, CallPoll(0, 7));
    assert BusyPollers(s0) == {} && BusyNews(s0) == {} && BusyPollers(s0) - {0} == {};
    assert s1.pollers == [Poller(PollLoad(7), Never, {}, {}), FRESH];
    Advance(s0, CallPoll(0, 7), s1);
    var s2 := Step(s1, StepPoll(0));
    assert s2.pollers == [Poller(PollCheck(7, 2), Never, {}, {}), FRESH];
    Advance(s1, StepPoll(0), s2);
    var s3 := Step(s2, StepPoll(0));
    assert s3.pollers == [Poller(PollWrite(7, 2), Never, {}, {}), FRESH];
    Advance(s2, StepPoll(0), s3);
  }

  /** The first future is about to write its slot in the array that the second has published anew. */
  const RACE := TWO_FUTURES.(cell := 3, results := TWO_FUTURES.results + [NotCompleted(2)], arrays := [[], [0], [0, 8]],
                             pollers := [Poller(PollWrite(7, 2), Never, {1}, {}), Poller(Idle, Pending(8), {0}, {})])

  /** The second future is polled with waker 8 meanwhile. */
  lemma CalledSecond() returns (s: State)
    ensures ReachableWithin(s, 1, 1)
    ensures s == TWO_FUTURES.(pollers := [Poller(PollWrite(7, 2), Never, {1}, {}), Poller(PollLoad(8), Never, {0}, {})])
  {
    PolledFirst();
    var s0 := TWO_FUTURES.(pollers := [Poller(PollWrite(7, 2), Never, {}, {}), FRESH]);
    s := Step(s0, CallPoll(1, 8));
    assert BusyPollers(s0) == {0} && BusyNews(s0) == {} && {} + {1} == {1} && {0} - {1} == {0};
    assert s.pollers == [Poller(PollWrite(7, 2), Never, {1}, {}), Poller(PollLoad(8), Never, {0}, {})];
    Advance(s0, CallPoll(1, 8), s);
  }

  lemma CheckedSecond() returns (s: State)
    ensures ReachableWithin(s, 1, 1)
    ensures s == TWO_FUTURES.(pollers := [Poller(PollWrite(7, 2), Never, {1}, {}), Poller(PollWrite(8, 2), Never, {0}, {})])
  {
    var s1 := CalledSecond();
    var first := Poller(PollWrite(7, 2), Never, {1}, {});
    var s2 := Step(s1, StepPoll(1));
    assert s2.pollers == [first, Poller(PollCheck(8, 2), Never, {0}, {})];
    Advance(s1, StepPoll(1), s2);
    s := Step(s2, StepPoll(1));
    assert s.pollers == [first, Poller(PollWrite(8, 2), Never, {0}, {})];
    Advance(s2, StepPoll(1), s);
  }

  /** It returns Pending. */
  lemma PolledSecond()
    ensures ReachableWithin(RACE, 1, 1)
  {
    var s3 := CheckedSecond();
    var first := Poller(PollWrite(7, 2), Never, {1}, {});
    var s4 := Step(s3, StepPoll(1));
    assert [0, 0][1 := 8] == [0, 8] && s4.arrays == RACE.arrays;
    assert s4.pollers == [first, Poller(PollCas(8, 2), Never, {0}, {})];
    Advance(s3, StepPoll(1), s4);
    var s5 := Step(s4, StepPoll(1));
    assert s5.pollers == RACE.pollers;
    Advance(s4, StepPoll(1), s5);
  }

  /** A newFuture copies the first slot. */
  lemma CopiedFirst() returns (s: State)
    ensures ReachableWithin(s, 1, 1)
    ensures s == RACE.(news := [NewDone, NewDone, NewCopy(3, [0])],
                       pollers := [Poller(PollWrite(7, 2), Never, {1}, {2}), Poller(Idle, Pending(8), {0}, {})])
  {
    PolledSecond();
    var s1 := Step(RACE, CallNew);
    assert {} + {2} == {2};
    assert s1.pollers == [Poller(PollWrite(7, 2), Never, {1}, {2}), Poller(Idle, Pending(8), {0}, {})];
    assert s1.news == [NewDone, NewDone, NewLoad];
    Advance(RACE, CallNew, s1);
    var s2 := Step(s1, StepNew(2));
    assert s2.news == [NewDone, NewDone, NewCopy(3, [])];
    Advance(s1, StepNew(2), s2);
    s := Step(s2, StepNew(2));
    assert [] + [0] == [0];
    assert s.news == [NewDone, NewDone, NewCopy(3, [0])];
    Advance(s2, StepNew(2), s);
  }

  /** Just after that the Poll writes the slot. */
  lemma CopiedBefore() returns (s: State)
    ensures ReachableWithin(s, 1, 1)
    ensures s == RACE.(arrays := [[], [0], [7, 8]], news := [NewDone, NewDone, NewCopy(3, [0])],
                       pollers := [Poller(PollCas(7, 2), Never, {1}, {2}), Poller(Idle, Pending(8), {0}, {})])
  {
    var s3 := CopiedFirst();
    s := Step(s3, StepPoll(0));
    assert [0, 8][0 := 7] == [7, 8] && s.arrays == [[], [0], [7, 8]];
    assert s.pollers == [Poller(PollCas(7, 2), Never, {1}, {2}), Poller(Idle, Pending(8), {0}, {})];
    Advance(s3, StepPoll(0), s);
  }

  /** The Poll loses its compare-and-swap, finds its waker in the slot and returns Pending. */
  lemma ReturnedPending() returns (s: State)
    ensures ReachableWithin(s, 1, 1)
    ensures s == RACE.(arrays := [[], [0], [7, 8]], news := [NewDone, NewDone, NewCopy(3, [0])],
                       pollers := [Poller(Idle, Pending(7), {1}, {2}), Poller(Idle, Pending(8), {0}, {})])
  {
    var s0 := CopiedBefore();
    var second := Poller(Idle, Pending(8), {0}, {});
    var s1 := Step(s0, StepPoll(0));
    assert s1.pollers == [Poller(PollLoad(7), Never, {1}, {2}), second];
    Advance(s0, StepPoll(0), s1);
    var s2 := Step(s1, StepPoll(0));
    assert s2.pollers == [Poller(PollCheck(7, 3), Never, {1}, {2}), second];
    Advance(s1, StepPoll(0), s2);
    s := Step(s2, StepPoll(0));
    assert s.pollers == [Poller(Idle, Pending(7), {1}, {2}), second];
    Advance(s2, StepPoll(0), s);
  }

  /** The newFuture publishes its copy, in which the first slot is as it was before. */
  lemma Published() returns (s: State)
    ensures ReachableWithin(s, 1, 1)
    ensures s == State(4, RACE.results + [NotCompleted(3)], [[], [0], [7, 8], [0, 8, 0]],
                       [Poller(Idle, Pending(7), {1}, {2}), Poller(Idle, Pending(8), {0}, {}), FRESH],
                       [NewDone, NewDone, NewDone], [], {})
  {
    var s0 := ReturnedPending();
    var s1 := Step(s0, StepNew(2));
    assert [0] + [8] == [0, 8];
    assert s1.news == [NewDone, NewDone, NewCopy(3, [0, 8])];
    Advance(s0, StepNew(2), s1);
    s := Step(s1, StepNew(2));
    assert [0, 8] + [NOP_WAKER] == [0, 8, 0];
    assert s.arrays == [[], [0], [7, 8], [0, 8, 0]] && s.results == RACE.results + [NotCompleted(3)];
    assert s.news == [NewDone, NewDone, NewDone];
    assert s.pollers == [Poller(Idle, Pending(7), {1}, {2}), Poller(Idle, Pending(8), {0}, {}), FRESH];
    Advance(s1, StepNew(2), s);
  }

  lemma Taken() returns (s: State)
    ensures ReachableWithin(s, 1, 1)
    ensures s == State(5, RACE.results + [NotCompleted(3), Completed(0)], [[], [0], [7, 8], [0, 8, 0]],
                       [Poller(Idle, Pending(7), {1}, {2}), Poller(Idle, Pending(8), {0}, {}), FRESH],
                       [NewDone, NewDone, NewDone], [Waking(3, 0)], {})
  {
    var s0 := Published();
    var s1 := Step(s0, CallComplete);
    assert s1.completers == [CompleteLoad];
    Advance(s0, CallComplete, s1);
    var s2 := Step(s1, StepComplete(0));
    assert s2.completers == [CompleteCas(4)];
    Advance(s1, StepComplete(0), s2);
    s := Step(s2, StepComplete(0));
    assert s.completers == [Waking(3, 0)] && s.results == RACE.results + [NotCompleted(3), Completed(0)];
    Advance(s2, StepComplete(0), s);
  }

  /** A run in which no Poll overlaps more than one other Poll and one newFuture, and in which the waker
      of a future that waits is never woken. */
  lemma WakeupIsLost() returns (s: State)
    ensures ReachableWithin(s, 1, 1) && Lost(s, 0)
  {
    var s3 := Taken();
    var s4 := Step(s3, StepComplete(0));
    assert s4.completers == [Waking(3, 1)] && s4.woken == {0};
    Advance(s3, StepComplete(0), s4);
    var s5 := Step(s4, StepComplete(0));
    assert s5.completers == [Waking(3, 2)] && s5.woken == {0, 8};
    Advance(s4, StepComplete(0), s5);
    s := Step(s5, StepComplete(0));
    assert s.completers == [Waking(3, 3)] && s.woken == {0, 8};
    Advance(s5, StepComplete(0), s);
    assert Finished(s, 0);
  }

  lemma {:induction false} WithinGrows(s: State, p: nat, n: nat)
    requires ReachableWithin(s, 1, 1) && p > 0 && n > 0
    ensures ReachableWithin(s, p, n)
  {
    var run: seq<State>, events: seq<Event> :| IsRunTo(run, events, s, 1, 1);
    forall k | 0 <= k < |run| ensures Within(run[k], p, n) {
      assert Within(run[k], 1, 1);
    }
    assert IsRunTo(run, events, s, p, n);
  }

  /** How much overlap the cell stands: when no Poll may overlap more than `p` other Polls and `n`
      newFuture calls, all runs keep every wakeup exactly if one of the two bounds is zero. */
  lemma NoLostWakeupExactly(p: nat, n: nat)
    ensures (forall s, i | ReachableWithin(s, p, n) :: !Lost(s, i)) <==> p == 0 || n == 0
  {
    if p == 0 || n == 0 {
      forall s, i | ReachableWithin(s, p, n) ensures !Lost(s, i) {
        WithinIsSafe(s, p, n, i);
      }
    } else {
      var s := WakeupIsLost();
      WithinGrows(s, p, n);
    }
  }
}
