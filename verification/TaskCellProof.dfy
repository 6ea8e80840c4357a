/** A data-loader task completes at most once, and which of its futures can lose a wakeup. */
module TaskCellProof {
  import opened TaskCell

  // ---------------------------------------------------------------------------------------------
  // Shape: what holds of every task
  // ---------------------------------------------------------------------------------------------

  ghost predicate ResultsOk(s: State) {
    && s.cell < |s.results|
    && (forall k | 0 <= k < |s.results| && s.results[k].NotCompleted? :: s.results[k].wakers < |s.arrays|)
    && (forall k | 0 <= k < |s.results| && s.results[k].Completed? :: k == s.cell)
    && (s.results[s.cell].Completed? ==>
          var c := s.results[s.cell].owner; c < |s.completers| && s.completers[c].Waking?)
  }

  /** Only the completion that owns the result wakes, and it wakes the futures of one array. */
  ghost predicate CompletersOk(s: State)
    requires ResultsOk(s)
  {
    && (forall c | 0 <= c < |s.completers| && s.completers[c].Waking? ::
          && s.results[s.cell] == Completed(c) && s.completers[c].wakers < |s.arrays|
          && s.completers[c].k <= |s.arrays[s.completers[c].wakers]|)
    && (forall c | 0 <= c < |s.completers| && s.completers[c].CompleteCas? :: Points(s, s.completers[c].ptr))
  }

  /** The array of the cell, or the one it had when the task was completed. */
  function Current(s: State): nat
    requires s.cell < |s.results|
    requires s.results[s.cell].Completed? ==>
               var c := s.results[s.cell].owner; c < |s.completers| && s.completers[c].Waking?
  {
    match s.results[s.cell]
    case NotCompleted(a) => a
    case Completed(c) => s.completers[c].wakers
  }

  ghost predicate PointersOk(s: State) {
    && (forall i | 0 <= i < |s.pollers| && HasPtr(s.pollers[i].pc) ::
          Points(s, s.pollers[i].pc.ptr) && i < |ArrayOf(s, s.pollers[i].pc.ptr)|)
    && (forall n | 0 <= n < |s.news| && s.news[n].NewCopy? ::
          Points(s, s.news[n].ptr) && |s.news[n].copy| <= |ArrayOf(s, s.news[n].ptr)|)
  }

  predicate HasPtr(pc: PollPc) { pc.PollCheck? || pc.PollWrite? || pc.PollCas? }

  ghost predicate Shape(s: State) {
    && ResultsOk(s) && CompletersOk(s) && PointersOk(s)
    && Current(s) < |s.arrays| && |s.arrays[Current(s)]| == |s.pollers|
  }

  lemma PollShape(s: State, i: nat)
    requires Shape(s) && PollEnabled(s, i)
    ensures Shape(PollStep(s, i))
  {
    if s.pollers[i].pc.PollWrite? { WriteShape(s, i); } else if s.pollers[i].pc.PollCas? { CasShape(s, i); }
  }

  lemma WriteShape(s: State, i: nat)
    requires Shape(s) && PollEnabled(s, i) && s.pollers[i].pc.PollWrite?
    ensures Shape(PollStep(s, i))
  {
  }

  lemma CasShape(s: State, i: nat)
    requires Shape(s) && PollEnabled(s, i) && s.pollers[i].pc.PollCas?
    ensures Shape(PollStep(s, i))
  {
  }

  lemma NewShape(s: State, n: nat)
    requires Shape(s) && NewEnabled(s, n)
    ensures Shape(NewStep(s, n))
  {
  }

  lemma CompleteShape(s: State, c: nat)
    requires Shape(s) && CompleteEnabled(s, c)
    ensures Shape(CompleteStep(s, c))
  {
  }

  lemma ShapeStep(s: State, ev: Event)
    requires Shape(s) && Enabled(s, ev)
    ensures Shape(Step(s, ev))
  {
    match ev
    case CallPoll(i, w) =>
    case StepPoll(i) => PollShape(s, i);
    case CallNew =>
    case StepNew(n) => NewShape(s, n);
    case CallComplete =>
    case StepComplete(c) => CompleteShape(s, c);
  }

  // ---------------------------------------------------------------------------------------------
  // One future
  // ---------------------------------------------------------------------------------------------

  /** Waker `w` of slot `i` will be woken by the completion, or has been. */
  ghost predicate Kept(s: State, i: nat, w: Waker)
    requires Shape(s) && i < |s.pollers|
  {
    match s.results[s.cell]
    case NotCompleted(a) => s.arrays[a][i] == w
    case Completed(c) => if s.completers[c].k <= i then s.arrays[Current(s)][i] == w else w in s.woken
  }

  /** The copies that newFuture calls are about to publish agree with slot `i`, except while its Poll has
      written the slot and is about to replace the result they were taken from. */
  ghost predicate CopiesOk(s: State, i: nat)
    requires Shape(s) && i < |s.pollers|
  {
    forall n | 0 <= n < |s.news| && s.news[n].NewCopy? && s.news[n].ptr == s.cell && |s.news[n].copy| > i ::
      s.news[n].copy[i] == s.arrays[Current(s)][i] || (s.pollers[i].pc.PollCas? && s.pollers[i].pc.ptr == s.cell)
  }

  /** What a Poll in progress knows. */
  ghost predicate PollOk(s: State, i: nat)
    requires Shape(s) && i < |s.pollers|
  {
    var p := s.pollers[i];
    && (p.pc.Idle? && p.last.Pending? ==> Kept(s, i, p.last.w))
    && (p.pc.PollCheck? && ArrayOf(s, p.pc.ptr)[i] == p.pc.w ==> Kept(s, i, p.pc.w))
    && (p.pc.PollCas? ==> ArrayOf(s, p.pc.ptr)[i] == p.pc.w)
  }

  /** What the overlap records of the future tell. */
  ghost predicate OverlapOk(s: State, i: nat)
    requires Shape(s) && i < |s.pollers|
  {
    var p := s.pollers[i];
    && (Busy(p) ==> BusyNews(s) <= p.metNews && BusyPollers(s) <= p.metPolls + {i})
    && (HasPtr(p.pc) && p.metPolls == {} && OnCell(s, p.pc.ptr) ==> p.pc.ptr == s.cell)
  }

  /** The result has the same array as the cell. */
  predicate OnCell(s: State, ptr: nat) {
    && ptr < |s.results| && s.cell < |s.results| && s.results[s.cell].NotCompleted?
    && s.results[ptr] == s.results[s.cell]
  }

  ghost predicate SlotOk(s: State, i: nat)
    requires Shape(s) && i < |s.pollers|
  {
    CopiesOk(s, i) && PollOk(s, i) && OverlapOk(s, i)
  }

  /** No Poll of the future has met both another Poll and a newFuture. */
  predicate Unmixed(p: Poller) { p.metPolls == {} || p.metNews == {} }

  lemma PollLoadSlot(s: State, i: nat)
    requires Shape(s) && PollEnabled(s, i) && SlotOk(s, i) && s.pollers[i].pc.PollLoad? && Shape(PollStep(s, i))
    ensures SlotOk(PollStep(s, i), i)
  {
    assert BusyPollers(PollStep(s, i)) <= BusyPollers(s);
    assert BusyNews(PollStep(s, i)) == BusyNews(s);
  }

  lemma PollCheckSlot(s: State, i: nat)
    requires Shape(s) && PollEnabled(s, i) && SlotOk(s, i) && s.pollers[i].pc.PollCheck? && Shape(PollStep(s, i))
    ensures SlotOk(PollStep(s, i), i)
  {
    assert BusyPollers(PollStep(s, i)) <= BusyPollers(s);
    assert BusyNews(PollStep(s, i)) == BusyNews(s);
  }

  /** A write that a newFuture could miss is a write to the result that the newFuture has loaded. */
  lemma PollWriteSlot(s: State, i: nat)
    requires Shape(s) && PollEnabled(s, i) && SlotOk(s, i) && s.pollers[i].pc.PollWrite? && Shape(PollStep(s, i))
    requires Unmixed(s.pollers[i])
    ensures SlotOk(PollStep(s, i), i)
  {
    assert BusyPollers(PollStep(s, i)) <= BusyPollers(s);
    assert BusyNews(PollStep(s, i)) == BusyNews(s);
    var p := s.pollers[i];
    forall n | 0 <= n < |s.news| && s.news[n].NewCopy? && s.news[n].ptr == s.cell && OnCell(s, p.pc.ptr)
      ensures p.pc.ptr == s.cell
    {
      assert n in BusyNews(s);
    }
  }

  lemma PollCasSlot(s: State, i: nat)
    requires Shape(s) && PollEnabled(s, i) && SlotOk(s, i) && s.pollers[i].pc.PollCas? && Shape(PollStep(s, i))
    ensures SlotOk(PollStep(s, i), i)
  {
    assert BusyPollers(PollStep(s, i)) <= BusyPollers(s);
    assert BusyNews(PollStep(s, i)) == BusyNews(s);
  }

  lemma OtherCasSlot(s: State, j: nat, i: nat)
    requires Shape(s) && PollEnabled(s, j) && i < |s.pollers| && SlotOk(s, i) && i != j && Shape(PollStep(s, j))
    requires s.pollers[j].pc.PollCas?
    ensures SlotOk(PollStep(s, j), i)
  {
    assert j in BusyPollers(s);
    assert BusyPollers(PollStep(s, j)) <= BusyPollers(s);
    assert BusyNews(PollStep(s, j)) == BusyNews(s);
  }

  lemma OtherPollSlot(s: State, j: nat, i: nat)
    requires Shape(s) && PollEnabled(s, j) && i < |s.pollers| && SlotOk(s, i) && i != j && Shape(PollStep(s, j))
    requires !s.pollers[j].pc.PollCas?
    ensures SlotOk(PollStep(s, j), i)
  {
    assert BusyPollers(PollStep(s, j)) <= BusyPollers(s);
    assert BusyNews(PollStep(s, j)) == BusyNews(s);
  }

  lemma PollSlot(s: State, j: nat, i: nat)
    requires Shape(s) && PollEnabled(s, j) && i < |s.pollers| && SlotOk(s, i) && Unmixed(s.pollers[i])
    requires Shape(PollStep(s, j))
    ensures SlotOk(PollStep(s, j), i)
  {
    var pc := s.pollers[j].pc;
    if i != j {
      if pc.PollCas? { OtherCasSlot(s, j, i); } else { OtherPollSlot(s, j, i); }
    } else if pc.PollLoad? {
      PollLoadSlot(s, i);
    } else if pc.PollCheck? {
      PollCheckSlot(s, i);
    } else if pc.PollWrite? {
      PollWriteSlot(s, i);
    } else {
      PollCasSlot(s, i);
    }
  }

  lemma NewSlot(s: State, n: nat, i: nat)
    requires Shape(s) && NewEnabled(s, n) && i < |s.pollers| && SlotOk(s, i) && Shape(NewStep(s, n))
    ensures SlotOk(NewStep(s, n), i)
  {
  }

  lemma CompleteSlot(s: State, c: nat, i: nat)
    requires Shape(s) && CompleteEnabled(s, c) && i < |s.pollers| && SlotOk(s, i) && Shape(CompleteStep(s, c))
    ensures SlotOk(CompleteStep(s, c), i)
  {
  }

  lemma StartPollSlot(s: State, j: nat, w: Waker, i: nat)
    requires Shape(s) && j < |s.pollers| && i < |s.pollers| && SlotOk(s, i) && Shape(StartPoll(s, j, w))
    requires !Busy(s.pollers[j])
    ensures SlotOk(StartPoll(s, j, w), i)
  {
    assert BusyPollers(StartPoll(s, j, w)) == BusyPollers(s) + {j};
    assert BusyNews(StartPoll(s, j, w)) == BusyNews(s);
  }

  lemma StartNewSlot(s: State, i: nat)
    requires Shape(s) && i < |s.pollers| && SlotOk(s, i) && Shape(StartNew(s))
    ensures SlotOk(StartNew(s), i)
  {
  }

  /** The slot of a future that was just made. */
  lemma FreshSlot(s: State, n: nat)
    requires Shape(s) && NewEnabled(s, n) && Shape(NewStep(s, n)) && |NewStep(s, n).pollers| > |s.pollers|
    ensures SlotOk(NewStep(s, n), |s.pollers|)
  {
  }

  lemma SlotStep(s: State, ev: Event, i: nat)
    requires Shape(s) && Enabled(s, ev) && Shape(Step(s, ev)) && i < |Step(s, ev).pollers|
    requires i < |s.pollers| ==> SlotOk(s, i) && Unmixed(s.pollers[i])
    ensures SlotOk(Step(s, ev), i)
  {
    match ev
    case CallPoll(j, w) => StartPollSlot(s, j, w, i);
    case StepPoll(j) => PollSlot(s, j, i);
    case CallNew => StartNewSlot(s, i);
    case StepNew(n) => if i < |s.pollers| { NewSlot(s, n, i); } else { FreshSlot(s, n); }
    case CallComplete => CallCompleteSlot(s, i);
    case StepComplete(c) => CompleteSlot(s, c, i);
  }

  lemma CallCompleteSlot(s: State, i: nat)
    requires Shape(s) && i < |s.pollers| && SlotOk(s, i) && Shape(Step(s, CallComplete))
    ensures SlotOk(Step(s, CallComplete), i)
  {
    assert BusyPollers(Step(s, CallComplete)) == BusyPollers(s);
    assert BusyNews(Step(s, CallComplete)) == BusyNews(s);
  }

  // ---------------------------------------------------------------------------------------------
  // Runs
  // ---------------------------------------------------------------------------------------------

  lemma {:induction false} RunShape(run: seq<State>, events: seq<Event>, k: nat)
    requires IsRun(run, events) && k < |run|
    ensures Shape(run[k])
  {
    if k > 0 {
      RunShape(run, events, k - 1);
      ShapeStep(run[k - 1], events[k - 1]);
    }
  }

  /** No call ever gets stuck on a pointer or a slot that is not there. */
  lemma NeverStuck(run: seq<State>, events: seq<Event>, k: nat)
    requires IsRun(run, events) && k < |run|
    ensures var s := run[k];
            && (forall i | 0 <= i < |s.pollers| && Busy(s.pollers[i]) :: PollEnabled(s, i))
            && (forall n | 0 <= n < |s.news| && Copying(s.news[n]) :: NewEnabled(s, n))
            && (forall c | 0 <= c < |s.completers| ::
                  CompleteEnabled(s, c) || s.completers[c].Failed? || Finished(s, c))
  {
    RunShape(run, events, k);
  }

  /** The completion has woken every slot. */
  predicate Finished(s: State, c: nat) {
    && c < |s.completers| && s.completers[c].Waking? && s.completers[c].wakers < |s.arrays|
    && s.completers[c].k == |s.arrays[s.completers[c].wakers]|
  }

  /** The event in which a completion takes the cell. */
  predicate Takes(s: State, ev: Event, c: nat) {
    && ev == StepComplete(c) && c < |s.completers| && s.completers[c] == CompleteCas(s.cell)
  }

  lemma CompletedMoves(s: State, ev: Event)
    requires Shape(s) && Enabled(s, ev) && s.results[s.cell].Completed?
    ensures Step(s, ev).cell == s.cell && s.cell < |Step(s, ev).results|
    ensures Step(s, ev).results[s.cell] == s.results[s.cell]
  {
  }

  lemma {:induction false} CompletedStays(run: seq<State>, events: seq<Event>, j: nat, k: nat)
    requires IsRun(run, events) && j <= k < |run|
    requires run[j].cell < |run[j].results| && run[j].results[run[j].cell].Completed?
    ensures run[k].cell == run[j].cell && run[k].cell < |run[k].results|
    ensures run[k].results[run[k].cell] == run[j].results[run[j].cell]
    decreases k
  {
    if j < k {
      CompletedStays(run, events, j, k - 1);
      RunShape(run, events, k - 1);
      CompletedMoves(run[k - 1], events[k - 1]);
    }
  }

  /** A task completes at most once, and its result never changes after that. */
  lemma CompletesOnce(run: seq<State>, events: seq<Event>, j: nat, k: nat, c: nat, d: nat)
    requires IsRun(run, events) && j < k < |events| && Takes(run[j], events[j], c)
    ensures !Takes(run[k], events[k], d)
    ensures run[k].cell < |run[k].results| && run[k].results[run[k].cell] == Completed(c)
  {
    RunShape(run, events, j);
    CompletedStays(run, events, j + 1, k);
    RunShape(run, events, k);
  }

  lemma {:induction false} RunSlot(run: seq<State>, events: seq<Event>, k: nat, i: nat)
    requires IsRun(run, events) && k < |run| && i < |run[k].pollers|
    requires forall m | 0 <= m < k && i < |run[m].pollers| :: Unmixed(run[m].pollers[i])
    ensures Shape(run[k]) && SlotOk(run[k], i)
  {
    RunShape(run, events, k);
    if k > 0 {
      RunShape(run, events, k - 1);
      if i < |run[k - 1].pollers| {
        RunSlot(run, events, k - 1, i);
      }
      SlotStep(run[k - 1], events[k - 1], i);
    }
  }

  /** Future `i` waits, its latest Poll having left the waker `w`, and nobody has woken or will wake `w`. */
  ghost predicate Lost(s: State, i: nat) {
    && i < |s.pollers| && s.pollers[i].pc.Idle? && s.pollers[i].last.Pending?
    && (exists c :: Finished(s, c)) && s.pollers[i].last.w !in s.woken
  }

  /** No lost wakeup: once a completion is over, a future whose latest Poll returned Pending has had its
      waker woken, if none of its Polls overlapped both another Poll and a newFuture. */
  lemma NoLostWakeup(run: seq<State>, events: seq<Event>, k: nat, i: nat)
    requires IsRun(run, events) && k < |run|
    requires forall m | 0 <= m < k && i < |run[m].pollers| :: Unmixed(run[m].pollers[i])
    ensures !Lost(run[k], i)
  {
    if i < |run[k].pollers| {
      RunSlot(run, events, k, i);
    }
  }
}
