/**
 Running a batch of data-loader tasks (dataloader/batch_job.go) while anybody polls them, takes futures of
 them and completes them: every task is a cell of its own, and the job is one more caller.
 */
module BatchJob {
  import opened TaskCell
  import opened TaskCellProof

  datatype Pc =
    | Loading // BatchLoader.Load, whose completions are events of the cells
    | Check(k: nat) // load the result of task `k`, or leave behind the last task
    | Completing(k: nat, c: nat) // in SetError of task `k`, as its completion number `c`
    | Done

  datatype Job = Job(cells: seq<State>, pc: Pc)

  datatype JobEvent = CellEvent(j: nat, ev: Event) | JobStep

  function InitialJob(n: nat): Job {
    Job(seq(n, _ => Initial()), Loading)
  }

  predicate IsCompleted(s: State) {
    s.cell < |s.results| && s.results[s.cell].Completed?
  }

  /** The completion has returned. */
  predicate Ended(s: State, c: nat) {
    c < |s.completers| && (s.completers[c].Failed? || Finished(s, c))
  }

  predicate JobEnabled(job: Job, ev: JobEvent) {
    match ev
    case CellEvent(j, e) => j < |job.cells| && Enabled(job.cells[j], e)
    case JobStep =>
      match job.pc
      case Loading => true
      case Check(_) => true
      case Completing(k, c) => k < |job.cells| && Ended(job.cells[k], c)
      case Done => false
  }

  function JobNext(job: Job, ev: JobEvent): Job
    requires JobEnabled(job, ev)
  {
    match ev
    case CellEvent(j, e) => job.(cells := job.cells[j := Step(job.cells[j], e)])
    case JobStep =>
      match job.pc
      case Loading => job.(pc := Check(0))
      case Check(k) =>
        if k >= |job.cells| then job.(pc := Done)
        else if IsCompleted(job.cells[k]) then job.(pc := Check(k + 1))
        else Job(job.cells[k := Step(job.cells[k], CallComplete)], Completing(k, |job.cells[k].completers|))
      case Completing(k, _) => job.(pc := Check(k + 1))
  }

  ghost predicate IsJobRun(n: nat, run: seq<Job>, events: seq<JobEvent>) {
    && |run| == |events| + 1 && run[0] == InitialJob(n)
    && forall i {:trigger events[i]} | 0 <= i < |events| :: JobEnabled(run[i], events[i]) && run[i + 1] == JobNext(run[i], events[i])
  }

  // ---------------------------------------------------------------------------------------------
  // The invariant
  // ---------------------------------------------------------------------------------------------

  /** A completion that failed found the task completed. */
  ghost predicate CellOk(s: State) {
    Shape(s) && forall c | 0 <= c < |s.completers| && s.completers[c].Failed? :: IsCompleted(s)
  }

  /** The number of tasks that the job has passed. */
  function Passed(job: Job): nat {
    match job.pc
    case Loading => 0
    case Check(k) => k
    case Completing(k, _) => k
    case Done => |job.cells|
  }

  ghost predicate JobOk(job: Job) {
    && (forall j | 0 <= j < |job.cells| :: CellOk(job.cells[j]))
    && (forall j | 0 <= j < |job.cells| && j < Passed(job) :: IsCompleted(job.cells[j]))
    && (job.pc.Completing? ==> job.pc.k < |job.cells| && job.pc.c < |job.cells[job.pc.k].completers|)
  }

  lemma EndedIsCompleted(s: State, c: nat)
    requires CellOk(s) && Ended(s, c)
    ensures IsCompleted(s)
  {
  }

  lemma CompleteStepOk(s: State, c: nat)
    requires CellOk(s) && CompleteEnabled(s, c) && Shape(CompleteStep(s, c))
    ensures CellOk(CompleteStep(s, c))
  {
    if s.completers[c].CompleteLoad? || s.completers[c].Waking? {
      assert IsCompleted(s) ==> IsCompleted(CompleteStep(s, c));
    }
  }

  lemma PollStepOk(s: State, i: nat)
    requires CellOk(s) && PollEnabled(s, i) && Shape(PollStep(s, i))
    ensures CellOk(PollStep(s, i))
  {
    assert PollStep(s, i).completers == s.completers;
    if IsCompleted(s) { CompletedMoves(s, StepPoll(i)); }
  }

  lemma NewStepOk(s: State, n: nat)
    requires CellOk(s) && NewEnabled(s, n) && Shape(NewStep(s, n))
    ensures CellOk(NewStep(s, n))
  {
    assert NewStep(s, n).completers == s.completers;
    if IsCompleted(s) { CompletedMoves(s, StepNew(n)); }
  }

  lemma CellStepOk(s: State, ev: Event)
    requires CellOk(s) && Enabled(s, ev)
    ensures CellOk(Step(s, ev)) && (IsCompleted(s) ==> IsCompleted(Step(s, ev)))
    ensures |Step(s, ev).completers| >= |s.completers|
  {
    ShapeStep(s, ev);
    if IsCompleted(s) { CompletedMoves(s, ev); }
    match ev
    case StepPoll(i) => PollStepOk(s, i);
    case StepNew(n) => NewStepOk(s, n);
    case StepComplete(c) => CompleteStepOk(s, c);
    case CallPoll(_, _) =>
    case CallNew =>
    case CallComplete =>
  }

  lemma CallCompleteAdds(s: State)
    ensures |Step(s, CallComplete).completers| == |s.completers| + 1
  {
  }

  lemma JobNextOk(job: Job, ev: JobEvent)
    requires JobOk(job) && JobEnabled(job, ev)
    ensures JobOk(JobNext(job, ev)) && |JobNext(job, ev).cells| == |job.cells|
  {
    if ev.CellEvent? {
      CellStepOk(job.cells[ev.j], ev.ev);
    } else if job.pc.Check? && job.pc.k < |job.cells| && !IsCompleted(job.cells[job.pc.k]) {
      CellStepOk(job.cells[job.pc.k], CallComplete);
      CallCompleteAdds(job.cells[job.pc.k]);
    } else if job.pc.Completing? {
      EndedIsCompleted(job.cells[job.pc.k], job.pc.c);
    }
  }

  lemma InitialCellOk()
    ensures CellOk(Initial())
  {
  }

  lemma {:induction false} JobRunOk(n: nat, run: seq<Job>, events: seq<JobEvent>, i: nat)
    requires IsJobRun(n, run, events) && i < |run|
    ensures JobOk(run[i]) && |run[i].cells| == n
  {
    if i == 0 {
      InitialCellOk();
    } else {
      JobRunOk(n, run, events, i - 1);
      var ev := events[i - 1];
      JobNextOk(run[i - 1], ev);
    }
  }

  // ---------------------------------------------------------------------------------------------
  // What a job does
  // ---------------------------------------------------------------------------------------------

  /** Every task of a batch that was run is completed, whoever else completes, polls or takes futures of the
      tasks in the meantime. */
  lemma BatchIsCompleted(n: nat, run: seq<Job>, events: seq<JobEvent>, i: nat)
    requires IsJobRun(n, run, events) && i < |run| && run[i].pc.Done?
    ensures |run[i].cells| == n && forall j | 0 <= j < n :: IsCompleted(run[i].cells[j])
  {
    JobRunOk(n, run, events, i);
  }

  lemma ResultMoves(job: Job, ev: JobEvent, j: nat)
    requires JobOk(job) && JobEnabled(job, ev) && j < |job.cells| && IsCompleted(job.cells[j])
    ensures var s, s' := job.cells[j], JobNext(job, ev).cells[j];
            IsCompleted(s') && s'.results[s'.cell] == s.results[s.cell]
  {
    if ev.CellEvent? && ev.j == j { CompletedMoves(job.cells[j], ev.ev); }
  }

  /** The job overwrites no result: what completed a task first stays. */
  lemma {:induction false} ResultsStay(n: nat, run: seq<Job>, events: seq<JobEvent>, i: nat, i': nat, j: nat)
    requires IsJobRun(n, run, events) && i <= i' < |run| && j < |run[i].cells| && IsCompleted(run[i].cells[j])
    ensures j < |run[i'].cells| && IsCompleted(run[i'].cells[j])
    ensures run[i'].cells[j].results[run[i'].cells[j].cell] == run[i].cells[j].results[run[i].cells[j].cell]
    decreases i'
  {
    JobRunOk(n, run, events, i);
    JobRunOk(n, run, events, i');
    if i < i' {
      ResultsStay(n, run, events, i, i' - 1, j);
      JobRunOk(n, run, events, i' - 1);
      var ev := events[i' - 1];
      ResultMoves(run[i' - 1], ev, j);
    }
  }

  /** While the job is in SetError of a task, that call can take a step or has returned. */
  lemma JobIsNotStuck(n: nat, run: seq<Job>, events: seq<JobEvent>, i: nat)
    requires IsJobRun(n, run, events) && i < |run| && run[i].pc.Completing?
    ensures var k, c := run[i].pc.k, run[i].pc.c;
            k < n == |run[i].cells| && (CompleteEnabled(run[i].cells[k], c) || Ended(run[i].cells[k], c))
  {
    JobRunOk(n, run, events, i);
  }
}
