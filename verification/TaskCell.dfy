/**
 The result cell of a data-loader task (dataloader/task.go) as a step machine. The cell points to an
 immutable result object; a result that is not completed refers to an array of wakers, one slot per
 future, and that array is written in place. Every atomic operation on the cell and every read or write
 of one array element is a step, and the Polls of the futures, the newFuture calls and the completions
 interleave freely, one Poll at a time per future.
 */
module TaskCell {
  type Waker = nat

  const NOP_WAKER: Waker := 0

  /** `owner` is the completion that wrote the result. */
  datatype Result = NotCompleted(wakers: nat) | Completed(owner: nat)

  datatype PollPc =
    | Idle
    | PollLoad(w: Waker) // load the result
    | PollCheck(w: Waker, ptr: nat) // compare the waker in the slot
    | PollWrite(w: Waker, ptr: nat) // write the slot in place
    | PollCas(w: Waker, ptr: nat) // publish a new result object with the same array

  /** How the latest Poll that ended did so. */
  datatype Last = Never | Pending(w: Waker) | Ready(owner: nat)

  /** The future of a slot, with the other futures that were polled and the newFuture calls that ran
      during its latest Poll. */
  datatype Poller = Poller(pc: PollPc, last: Last, metPolls: set<nat>, metNews: set<nat>)

  datatype New =
    | NewLoad // load the result
    | NewCopy(ptr: nat, copy: seq<Waker>) // copy one element, or publish the copy if it is whole
    | NewDone

  datatype Completer =
    | CompleteLoad
    | CompleteCas(ptr: nat)
    | Waking(wakers: nat, k: nat) // wake the waker in slot `k`; at its end when there is no such slot
    | Failed // the task was completed before

  /** Pointers are positions in `results` and in `arrays`, so nothing is allocated twice. */
  datatype State = State(
    cell: nat,
    results: seq<Result>,
    arrays: seq<seq<Waker>>,
    pollers: seq<Poller>,
    news: seq<New>,
    completers: seq<Completer>,
    woken: set<Waker>)

  function Initial(): State {
    State(0, [NotCompleted(0)], [[]], [], [], [], {})
  }

  predicate Busy(p: Poller) { p.pc != Idle }

  predicate Copying(n: New) { n != NewDone }

  // ---------------------------------------------------------------------------------------------
  // Calls
  // ---------------------------------------------------------------------------------------------

  function BusyPollers(s: State): set<nat> {
    set j | 0 <= j < |s.pollers| && Busy(s.pollers[j])
  }

  function BusyNews(s: State): set<nat> {
    set n | 0 <= n < |s.news| && Copying(s.news[n])
  }

  /** Future `i` is polled with waker `w`. */
  function StartPoll(s: State, i: nat, w: Waker): State
    requires i < |s.pollers|
  {
    s.(pollers := seq(|s.pollers|, j requires 0 <= j < |s.pollers| =>
         var p := s.pollers[j];
         if j == i then Poller(PollLoad(w), p.last, BusyPollers(s) - {i}, BusyNews(s))
         else if Busy(p) then p.(metPolls := p.metPolls + {i}) else p))
  }

  function StartNew(s: State): State {
    s.(news := s.news + [NewLoad],
       pollers := seq(|s.pollers|, j requires 0 <= j < |s.pollers| =>
         var p := s.pollers[j];
         if Busy(p) then p.(metNews := p.metNews + {|s.news|}) else p))
  }

  // ---------------------------------------------------------------------------------------------
  // Steps
  // ---------------------------------------------------------------------------------------------

  function AtPoll(s: State, i: nat, pc: PollPc): State
    requires i < |s.pollers|
  {
    s.(pollers := s.pollers[i := s.pollers[i].(pc := pc)])
  }

  function EndPoll(s: State, i: nat, last: Last): State
    requires i < |s.pollers|
  {
    s.(pollers := s.pollers[i := s.pollers[i].(pc := Idle, last := last)])
  }

  /** The array of a result that is not completed. */
  predicate Points(s: State, ptr: nat) {
    ptr < |s.results| && s.results[ptr].NotCompleted? && s.results[ptr].wakers < |s.arrays|
  }

  function ArrayOf(s: State, ptr: nat): seq<Waker>
    requires Points(s, ptr)
  {
    s.arrays[s.results[ptr].wakers]
  }

  predicate PollEnabled(s: State, i: nat) {
    && i < |s.pollers| && s.cell < |s.results|
    && match s.pollers[i].pc
       case Idle => false
       case PollLoad(_) => true
       case PollCheck(_, ptr) => Points(s, ptr) && i < |ArrayOf(s, ptr)|
       case PollWrite(_, ptr) => Points(s, ptr) && i < |ArrayOf(s, ptr)|
       case PollCas(_, ptr) => Points(s, ptr)
  }

  function PollStep(s: State, i: nat): State
    requires PollEnabled(s, i)
  {
    match s.pollers[i].pc
    case PollLoad(w) =>
      (match s.results[s.cell]
       case NotCompleted(_) => AtPoll(s, i, PollCheck(w, s.cell))
       case Completed(c) => EndPoll(s, i, Ready(c)))
    case PollCheck(w, ptr) =>
      if ArrayOf(s, ptr)[i] == w then EndPoll(s, i, Pending(w)) else AtPoll(s, i, PollWrite(w, ptr))
    case PollWrite(w, ptr) =>
      var a := s.results[ptr].wakers;
      var written: seq<Waker> := s.arrays[a][i := w];
      AtPoll(s.(arrays := s.arrays[a := written]), i, PollCas(w, ptr))
    case PollCas(w, ptr) =>
      if s.cell == ptr then
        EndPoll(s.(cell := |s.results|, results := s.results + [s.results[ptr]]), i, Pending(w))
      else AtPoll(s, i, PollLoad(w))
  }

  predicate NewEnabled(s: State, n: nat) {
    && n < |s.news| && s.cell < |s.results| && Copying(s.news[n])
    && (s.news[n].NewCopy? ==> Points(s, s.news[n].ptr) && |s.news[n].copy| <= |ArrayOf(s, s.news[n].ptr)|)
  }

  function NewStep(s: State, n: nat): State
    requires NewEnabled(s, n)
  {
    match s.news[n]
    case NewLoad =>
      s.(news := s.news[n := if s.results[s.cell].NotCompleted? then NewCopy(s.cell, []) else NewDone])
    case NewCopy(ptr, copy) =>
      var wakers := ArrayOf(s, ptr);
      if |copy| < |wakers| then s.(news := s.news[n := NewCopy(ptr, copy + [wakers[|copy|]])])
      else if s.cell == ptr then
        State(|s.results|, s.results + [NotCompleted(|s.arrays|)], s.arrays + [copy + [NOP_WAKER]],
              s.pollers + [Poller(Idle, Never, {}, {})], s.news[n := NewDone], s.completers, s.woken)
      else s.(news := s.news[n := NewLoad])
  }

  predicate CompleteEnabled(s: State, c: nat) {
    && c < |s.completers| && s.cell < |s.results|
    && match s.completers[c]
       case CompleteLoad => true
       case CompleteCas(ptr) => Points(s, ptr)
       case Waking(a, k) => a < |s.arrays| && k < |s.arrays[a]|
       case Failed => false
  }

  function CompleteStep(s: State, c: nat): State
    requires CompleteEnabled(s, c)
  {
    match s.completers[c]
    case CompleteLoad =>
      s.(completers := s.completers[c := if s.results[s.cell].NotCompleted? then CompleteCas(s.cell) else Failed])
    case CompleteCas(ptr) =>
      if s.cell == ptr then
        s.(cell := |s.results|, results := s.results + [Completed(c)],
           completers := s.completers[c := Waking(s.results[ptr].wakers, 0)])
      else s.(completers := s.completers[c := CompleteLoad])
    case Waking(a, k) =>
      s.(woken := s.woken + {s.arrays[a][k]}, completers := s.completers[c := Waking(a, k + 1)])
  }

  // ---------------------------------------------------------------------------------------------
  // Runs
  // ---------------------------------------------------------------------------------------------

  datatype Event =
    | CallPoll(i: nat, w: Waker)
    | StepPoll(i: nat)
    | CallNew
    | StepNew(n: nat)
    | CallComplete
    | StepComplete(c: nat)

  predicate Enabled(s: State, ev: Event) {
    match ev
    case CallPoll(i, _) => i < |s.pollers| && !Busy(s.pollers[i])
    case StepPoll(i) => PollEnabled(s, i)
    case CallNew => true
    case StepNew(n) => NewEnabled(s, n)
    case CallComplete => true
    case StepComplete(c) => CompleteEnabled(s, c)
  }

  function Step(s: State, ev: Event): State
    requires Enabled(s, ev)
  {
    match ev
    case CallPoll(i, w) => StartPoll(s, i, w)
    case StepPoll(i) => PollStep(s, i)
    case CallNew => StartNew(s)
    case StepNew(n) => NewStep(s, n)
    case CallComplete => s.(completers := s.completers + [CompleteLoad])
    case StepComplete(c) => CompleteStep(s, c)
  }

  ghost predicate IsRun(run: seq<State>, events: seq<Event>) {
    && |run| == |events| + 1 && run[0] == Initial()
    && forall k {:trigger events[k]} | 0 <= k < |events| :: Enabled(run[k], events[k]) && run[k + 1] == Step(run[k], events[k])
  }
}
