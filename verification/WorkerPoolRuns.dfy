/** Every run of the worker pool keeps the invariant, and what follows from it. */
module WorkerPoolRuns {
  import opened Wrappers
  import opened WorkerPool
  import opened WorkerPoolProof
  import opened WorkerPoolSteps
  import opened WorkerPoolShutdown

  // ---------------------------------------------------------------------------------------------
  // New calls
  // ---------------------------------------------------------------------------------------------

  /** A call that is new owns no task and no channel. */
  lemma NewCall(s: State, c: Id)
    requires c !in s.clients && OwnedOk(s.places, s.chans, s.clients) && QueueOk(s.queue, s.places)
    requires ResultsOk(s.places, s.accepted, s.outcomes)
    ensures c !in s.places && c !in s.chans && c !in s.queue && c !in s.accepted
  {
  }

  lemma CallSubmitFair(cfg: Config, s: State, c: Id)
    requires c !in s.clients && c !in s.places && c !in s.accepted
    ensures var s' := At(Put(s, c, AtSubmit), c, SubmitLoad);
            Fair(s, s', Some(c)) && ClientOk(cfg, s', c, SubmitLoad)
  {
  }

  lemma CallSubmitOk(cfg: Config, s: State, c: Id)
    requires Inv(cfg, s) && c !in s.clients
    ensures Inv(cfg, At(Put(s, c, AtSubmit), c, SubmitLoad))
  {
    var s' := At(Put(s, c, AtSubmit), c, SubmitLoad);
    NewCall(s, c);
    PutQueue(s.queue, s.places, c, AtSubmit);
    PutHeld(s.workers, s.places, c, AtSubmit);
    PutCancel(s.clients, s.places, c, AtSubmit);
    PutResults(s.places, s.accepted, s.outcomes, c, AtSubmit);
    MoveCancel(s.clients, s'.places, c, SubmitLoad);
    MoveUndecided(s.queue, s.accepted, s.clients, c, SubmitLoad);
    MoveMutex(s.mutex, s.clients, c, SubmitLoad);
    MoveChans(s, c, SubmitLoad, s.word);
    CallSubmitFair(cfg, s, c);
    ClientsMove(cfg, s, s', c, SubmitLoad);
  }

  lemma NewChannel(s: State, c: Id)
    requires ChansOk(s.chans, s.terminations, s.clients, s.mutex, s.word) && c !in s.clients && c !in s.chans
    ensures ChansOk(s.chans[c := Unlisted], s.terminations, s.clients[c := ShutLock], s.mutex, s.word)
  {
  }

  lemma CallShutdownOk(cfg: Config, s: State, c: Id)
    requires Inv(cfg, s) && c !in s.clients
    ensures Inv(cfg, At(s.(chans := s.chans[c := Unlisted]), c, ShutLock))
  {
    NewCall(s, c);
    NewChannel(s, c);
    MoveCancel(s.clients, s.places, c, ShutLock);
    MoveUndecided(s.queue, s.accepted, s.clients, c, ShutLock);
    MoveMutex(s.mutex, s.clients, c, ShutLock);
    MoveClients(cfg, s, c, ShutLock);
  }

  lemma CallCancelOk(cfg: Config, s: State, c: Id, t: Id)
    requires Inv(cfg, s) && c !in s.clients && t in s.clients && s.clients[t] == Returned(true)
    ensures Inv(cfg, At(s, c, CancelRemove(t)))
  {
    NewCall(s, c);
    assert ClientOk(cfg, s, t, Returned(true));
    MoveCancel(s.clients, s.places, c, CancelRemove(t));
    MoveUndecided(s.queue, s.accepted, s.clients, c, CancelRemove(t));
    MoveMutex(s.mutex, s.clients, c, CancelRemove(t));
    MoveChans(s, c, CancelRemove(t), s.word);
    MoveClients(cfg, s, c, CancelRemove(t));
  }

  // ---------------------------------------------------------------------------------------------
  // Every step
  // ---------------------------------------------------------------------------------------------

  lemma RetryPcOk(cfg: Config, s: State, c: Id)
    requires c in s.clients && s.clients[c].AddWorkerCas? && ClientOk(cfg, s, c, s.clients[c])
    ensures var pc := s.clients[c]; var pc' := AddWorker(pc.limit, pc.first, pc.ret);
            Quiet(s, c, pc') && ClientOk(cfg, s, c, pc')
  {
  }

  /** The compare-and-swap of addWorker failed. */
  lemma RetryOk(cfg: Config, s: State, c: Id, w: Id)
    requires Inv(cfg, s) && c in s.clients && s.clients[c].AddWorkerCas? && s.word != s.clients[c].state
    ensures Inv(cfg, AddWorkerCasStep(s, c, w))
  {
    var pc := s.clients[c];
    assert ClientOk(cfg, s, c, pc);
    RetryPcOk(cfg, s, c);
    MoveOk(cfg, s, c, AddWorker(pc.limit, pc.first, pc.ret));
  }

  lemma ClientNextOk(cfg: Config, s: State, c: Id, pick: Id, s': State)
    requires cfg.Valid() && Inv(cfg, s) && c in s.clients && ClientNext(cfg, s, c, pick, s')
    ensures Inv(cfg, s')
  {
    var pc := s.clients[c];
    if pc.SubmitLoad? {
      SubmitOk(cfg, s, c);
    } else if pc.SubmitReload? {
      DecideOk(cfg, s, c);
    } else if pc.AddWorker? {
      AddWorkerOk(cfg, s, c);
    } else if pc.AddWorkerCas? {
      if s.word == pc.state { HireOk(cfg, s, c, pick); } else { RetryOk(cfg, s, c, pick); }
    } else if pc.Spawn? {
      SpawnOneOk(cfg, s, c);
    } else if pc.Push? {
      if s.closed { PushClosedOk(cfg, s, c, pick); } else { PushOk(cfg, s, c, pick); }
    } else if pc.TaskCheck? {
      TaskCheckOk(cfg, s, c);
    } else if pc.TaskRemove? {
      TaskRemoveOk(cfg, s, c);
    } else if IsShutdownPc(pc) {
      ShutdownOk(cfg, s, c);
    } else if IsTryPc(pc) {
      TryOk(cfg, s, c);
    } else if pc.CancelRemove? || pc.SetResult? {
      CancelOneOk(cfg, s, c);
    } else {
      ExitOk(cfg, s, c);
    }
  }

  lemma NextOk(cfg: Config, s: State, ev: Event, s': State)
    requires cfg.Valid() && Inv(cfg, s) && Next(cfg, s, ev, s')
    ensures Inv(cfg, s')
  {
    match ev
    case CallSubmit(c) => CallSubmitOk(cfg, s, c);
    case CallShutdown(c) => CallShutdownOk(cfg, s, c);
    case CallCancel(c, t) => CallCancelOk(cfg, s, c, t);
    case ClientStep(c, pick) => ClientNextOk(cfg, s, c, pick, s');
    case PoolStep(w, exit) => WorkerStepOk(cfg, s, w, exit);
  }

  lemma InitOk(cfg: Config, s: State)
    requires Init(s)
    ensures Inv(cfg, s)
  {
  }

  // ---------------------------------------------------------------------------------------------
  // Runs
  // ---------------------------------------------------------------------------------------------

  ghost predicate IsRun(cfg: Config, run: seq<State>, events: seq<Event>) {
    && cfg.Valid() && |run| == |events| + 1 && Init(run[0])
    && forall i {:trigger events[i]} | 0 <= i < |events| :: Next(cfg, run[i], events[i], run[i + 1])
  }

  lemma {:induction false} RunOk(cfg: Config, run: seq<State>, events: seq<Event>, i: nat)
    requires IsRun(cfg, run, events) && i < |run|
    ensures Inv(cfg, run[i])
  {
    if i == 0 {
      InitOk(cfg, run[0]);
    } else {
      RunOk(cfg, run, events, i - 1);
      NextOk(cfg, run[i - 1], events[i - 1], run[i]);
    }
  }

  /** The packed word: its low half is the number of workers, which stays within the pool size and does
      not carry, and its high half is a run state. */
  lemma WordIsSound(cfg: Config, run: seq<State>, events: seq<Event>, i: nat)
    requires IsRun(cfg, run, events) && i < |run|
    ensures var s := run[i];
            && WorkerCount(s.word) == |s.workers| <= (if cfg.minSize == 0 then 1 else cfg.minSize)
            && (RunState(s.word) == RUNNING || RunState(s.word) == SHUTDOWN || RunState(s.word) == TERMINATED)
            && s.word == RunState(s.word) + |s.workers|
  {
    RunOk(cfg, run, events, i);
    CountOk(cfg, run[i].word, |run[i].workers|);
  }

  /** No accepted task is stranded: while it is queued, some worker of the pool is neither blocked in
      cond.Wait nor leaving. */
  lemma NoStrandedTask(cfg: Config, run: seq<State>, events: seq<Event>, i: nat, t: Id)
    requires IsRun(cfg, run, events) && i < |run|
    requires t in run[i].accepted && t in run[i].queue
    ensures exists w :: w in run[i].workers && !run[i].workers[w].Waiting? && !run[i].workers[w].PollDec?
  {
    RunOk(cfg, run, events, i);
    assert SomeAwake(run[i].workers);
    var w :| w in run[i].workers && Awake(run[i].workers[w]);
  }

  // ---------------------------------------------------------------------------------------------
  // What moves only forward
  // ---------------------------------------------------------------------------------------------

  /** The word, the results and the channels stay. */
  predicate Framed(s: State, s': State) {
    s'.word == s.word && s'.outcomes == s.outcomes && s'.chans == s.chans
  }

  /** A step of `c` decides about and moves no task but its own. */
  ghost predicate Local(s: State, s': State, c: Id) {
    && (forall d | d in s.clients && d != c :: d in s'.clients && s'.clients[d] == s.clients[d])
    && (forall t | t in s.places && t != c :: t in s'.places && s'.places[t] == s.places[t])
    && s'.accepted <= s.accepted + {c}
  }

  /** The places where a call writes the word, a result, a channel or another task. */
  predicate Writes(pc: Client) {
    pc.AddWorkerCas? || pc.ShutCas? || pc.ShutRecord? || pc.TrySetCas? || pc.TrySend? || pc.CancelRemove? || pc.SetResult?
  }

  lemma SubmitFrame(cfg: Config, s: State, c: Id)
    requires c in s.clients
    ensures Framed(s, SubmitStep(cfg, s, c)) && Local(s, SubmitStep(cfg, s, c), c)
    ensures Framed(s, Decide(cfg, s, c)) && Local(s, Decide(cfg, s, c), c)
  {
  }

  lemma MoveFrame(s: State, c: Id, pc': Client)
    ensures Framed(s, At(s, c, pc')) && Local(s, At(s, c, pc'), c)
  {
  }

  lemma RejectFrame(s: State, c: Id, queue: seq<Id>)
    ensures var s' := Reject(s.(queue := queue), c); Framed(s, s') && Local(s, s', c)
  {
  }

  lemma AddFailedFrame(s: State, c: Id, ret: Ret)
    ensures Framed(s, AddFailed(s, c, ret)) && Local(s, AddFailed(s, c, ret), c)
  {
    match ret
    case FromMin => MoveFrame(s, c, SubmitReload);
    case FromMax => RejectFrame(s, c, s.queue);
    case FromAddTask => MoveFrame(s, c, TaskCheck);
    case FromTerminate => MoveFrame(s, c, Gone);
  }

  lemma AddWorkerFrame(s: State, c: Id)
    requires c in s.clients && s.clients[c].AddWorker?
    ensures Framed(s, AddWorkerStep(s, c)) && Local(s, AddWorkerStep(s, c), c)
  {
    var pc := s.clients[c];
    AddFailedFrame(s, c, pc.ret);
    MoveFrame(s, c, AddWorkerCas(s.word, pc.limit, pc.first, pc.ret));
  }

  lemma SpawnFrame(s: State, c: Id)
    requires SpawnStep.requires(s, c)
    ensures Framed(s, SpawnStep(s, c)) && Local(s, SpawnStep(s, c), c)
  {
  }

  lemma PushFrame(s: State, c: Id, pick: Id)
    requires c in s.clients
    ensures Framed(s, PushStep(s, c, pick)) && Local(s, PushStep(s, c, pick), c)
  {
  }

  lemma TaskCheckFrame(s: State, c: Id)
    requires c in s.clients
    ensures Framed(s, TaskCheckStep(s, c)) && Local(s, TaskCheckStep(s, c), c)
  {
    if !IsRunning(s.word) {
      MoveFrame(s, c, TaskRemove);
    } else if WorkerCount(s.word) == 0 {
      MoveFrame(s, c, AddWorker(1, None, FromAddTask));
    }
  }

  lemma TaskRemoveFrame(s: State, c: Id)
    requires c in s.clients
    ensures Framed(s, TaskRemoveStep(s, c)) && Local(s, TaskRemoveStep(s, c), c)
  {
    if c in s.queue { RejectFrame(s, c, Without(s.queue, c)); }
  }

  lemma ShutdownFrame(s: State, c: Id)
    requires c in s.clients && IsShutdownPc(s.clients[c]) && !Writes(s.clients[c])
    ensures var s' := ShutdownStep(s, c); Framed(s, s') && Local(s, s', c)
  {
    ShutdownWrites(s, c);
    ShutdownWord(s, c);
    ShutdownLocal(s, c);
  }

  lemma TryFrame(s: State, c: Id)
    requires c in s.clients && IsTryPc(s.clients[c]) && !Writes(s.clients[c])
    ensures var s' := TryStep(s, c); Framed(s, s') && Local(s, s', c)
  {
    TryWrites(s, c);
    TryWord(s, c);
    TryLocal(s, c);
  }

  lemma StepFrame(cfg: Config, s: State, c: Id, pick: Id, s': State)
    requires c in s.clients && ClientNext(cfg, s, c, pick, s') && !Writes(s.clients[c])
    ensures Framed(s, s') && Local(s, s', c)
  {
    var pc := s.clients[c];
    if pc.SubmitLoad? || pc.SubmitReload? {
      SubmitFrame(cfg, s, c);
    } else if pc.AddWorker? {
      AddWorkerFrame(s, c);
    } else if pc.Spawn? {
      SpawnFrame(s, c);
    } else if pc.Push? {
      PushFrame(s, c, pick);
    } else if pc.TaskCheck? {
      TaskCheckFrame(s, c);
    } else if pc.TaskRemove? {
      TaskRemoveFrame(s, c);
    } else if IsShutdownPc(pc) {
      ShutdownFrame(s, c);
    } else if IsTryPc(pc) {
      TryFrame(s, c);
    }
  }

  /** What the writing steps leave alone. */
  lemma HireWrites(s: State, c: Id, w: Id)
    requires AddWorkerCasStep.requires(s, c, w)
    ensures var s' := AddWorkerCasStep(s, c, w);
            s'.outcomes == s.outcomes && s'.chans == s.chans && (s'.word == s.word || s'.word == s.word + 1)
  {
    if s.word != s.clients[c].state { MoveFrame(s, c, AddWorker(s.clients[c].limit, s.clients[c].first, s.clients[c].ret)); }
  }

  lemma HireLocal(s: State, c: Id, w: Id)
    requires AddWorkerCasStep.requires(s, c, w) && s.word != s.clients[c].state
    ensures Local(s, AddWorkerCasStep(s, c, w), c)
  {
    MoveFrame(s, c, AddWorker(s.clients[c].limit, s.clients[c].first, s.clients[c].ret));
  }

  lemma ShutdownWrites(s: State, c: Id)
    requires ShutdownStep.requires(s, c)
    ensures ShutdownStep(s, c).outcomes == s.outcomes
    ensures !s.clients[c].ShutRecord? ==> ShutdownStep(s, c).chans == s.chans
  {
  }

  lemma ShutdownWord(s: State, c: Id)
    requires ShutdownStep.requires(s, c)
    ensures var word := ShutdownStep(s, c).word; var pc := s.clients[c];
            word == s.word || (pc.ShutCas? && s.word == pc.state && word == MakeState(SHUTDOWN, WorkerCount(s.word)))
  {
  }

  lemma TryWrites(s: State, c: Id)
    requires TryStep.requires(s, c)
    ensures TryStep(s, c).outcomes == s.outcomes
    ensures !s.clients[c].TrySend? ==> TryStep(s, c).chans == s.chans
  {
  }

  lemma TryWord(s: State, c: Id)
    requires TryStep.requires(s, c)
    ensures var word := TryStep(s, c).word;
            word == s.word || (s.clients[c].TrySetCas? && word == MakeState(TERMINATED, WorkerCount(s.word)))
  {
    match s.clients[c]
    case TryLoad(_) => assert TryStep(s, c).word == s.word;
    case TryEmpty(_, _) => assert TryStep(s, c).word == s.word;
    case TryLock(_) => assert TryStep(s, c).word == s.word;
    case TrySetLoad(_) => assert TryStep(s, c).word == s.word;
    case TrySetCas(_, _) =>
    case TrySend(_) => assert TryStep(s, c).word == s.word;
  }

  lemma MovedLocal(s: State, s': State, c: Id)
    requires c in s'.clients && s'.clients == s.clients[c := s'.clients[c]] && s'.places == s.places && s'.accepted == s.accepted
    ensures Local(s, s', c)
  {
  }

  lemma ShutdownLocal(s: State, c: Id)
    requires ShutdownStep.requires(s, c)
    ensures Local(s, ShutdownStep(s, c), c)
  {
    MovedLocal(s, ShutdownStep(s, c), c);
  }

  lemma TryLocal(s: State, c: Id)
    requires TryStep.requires(s, c)
    ensures Local(s, TryStep(s, c), c)
  {
    MovedLocal(s, TryStep(s, c), c);
  }

  lemma CancelWrites(s: State, c: Id)
    requires CancelStep.requires(s, c)
    ensures var s' := CancelStep(s, c); s'.word == s.word && s'.chans == s.chans && s'.accepted == s.accepted
  {
  }

  lemma CancelResult(s: State, c: Id)
    requires CancelStep.requires(s, c)
    ensures var pc := s.clients[c];
            CancelStep(s, c).outcomes == if pc.SetResult? then s.outcomes[pc.task := Cancelled] else s.outcomes
  {
  }

  /** A step of a call that writes the word. */
  lemma WordWritten(cfg: Config, s: State, c: Id, pick: Id, s': State)
    requires cfg.Valid() && c in s.clients && ClientNext(cfg, s, c, pick, s') && Writes(s.clients[c])
    requires WordOk(cfg, s.word, |s.workers|) && WordOk(cfg, s'.word, |s'.workers|)
    requires PhaseOk(cfg, s.clients[c], s.word, |s.workers|)
    ensures RunState(s.word) <= RunState(s'.word)
  {
    CountOk(cfg, s.word, |s.workers|);
    CountOk(cfg, s'.word, |s'.workers|);
    WritesFrame(cfg, s, c, pick, s');
  }

  /** The four kinds of writing steps. */
  lemma WritesFrame(cfg: Config, s: State, c: Id, pick: Id, s': State)
    requires c in s.clients && ClientNext(cfg, s, c, pick, s') && Writes(s.clients[c])
    ensures var pc := s.clients[c];
            && s'.outcomes == (if pc.SetResult? then s.outcomes[pc.task := Cancelled] else s.outcomes)
            && (!pc.ShutRecord? && !pc.TrySend? ==> s'.chans == s.chans)
            && (s'.word == s.word || s'.word == s.word + 1 || s'.word == MakeState(TERMINATED, WorkerCount(s.word))
                || (pc.ShutCas? && s.word == pc.state && s'.word == MakeState(SHUTDOWN, WorkerCount(s.word))))
  {
    var pc := s.clients[c];
    if pc.AddWorkerCas? {
      HireWrites(s, c, pick);
    } else if IsShutdownPc(pc) {
      ShutdownWrites(s, c);
      ShutdownWord(s, c);
    } else if IsTryPc(pc) {
      TryWrites(s, c);
      TryWord(s, c);
    } else {
      CancelWrites(s, c);
      CancelResult(s, c);
    }
  }

  lemma RunStateMoves(cfg: Config, s: State, ev: Event, s': State)
    requires cfg.Valid() && Next(cfg, s, ev, s') && WordOk(cfg, s.word, |s.workers|) && WordOk(cfg, s'.word, |s'.workers|)
    requires ev.ClientStep? ==> PhaseOk(cfg, s.clients[ev.c], s.word, |s.workers|)
    ensures RunState(s.word) <= RunState(s'.word)
  {
    if ev.ClientStep? {
      if Writes(s.clients[ev.c]) { WordWritten(cfg, s, ev.c, ev.pick, s'); } else { StepFrame(cfg, s, ev.c, ev.pick, s'); }
    } else if ev.PoolStep? {
      CountOk(cfg, s.word, |s.workers|);
      CountOk(cfg, s'.word, |s'.workers|);
    }
  }

  lemma RunStateAdvances(cfg: Config, run: seq<State>, events: seq<Event>, k: nat)
    requires IsRun(cfg, run, events) && k < |events|
    ensures RunState(run[k].word) <= RunState(run[k + 1].word)
  {
    RunOk(cfg, run, events, k);
    RunOk(cfg, run, events, k + 1);
    assert Next(cfg, run[k], events[k], run[k + 1]);
    RunStateMoves(cfg, run[k], events[k], run[k + 1]);
  }

  /** The run state only moves forward. */
  lemma {:induction false} RunStateIsMonotone(cfg: Config, run: seq<State>, events: seq<Event>, i: nat, j: nat)
    requires IsRun(cfg, run, events) && i <= j < |run|
    ensures RunState(run[i].word) <= RunState(run[j].word)
    decreases j
  {
    if i < j {
      RunStateIsMonotone(cfg, run, events, i, j - 1);
      RunStateAdvances(cfg, run, events, j - 1);
    }
  }

  /** The task whose result an event sets. */
  function ResultSet(s: State, ev: Event): Option<Id> {
    if ev.ClientStep? && ev.c in s.clients && s.clients[ev.c].SetResult? then Some(s.clients[ev.c].task)
    else if ev.PoolStep? && ev.w in s.workers && s.workers[ev.w].Running? then Some(s.workers[ev.w].task)
    else None
  }

  lemma ResultWritten(cfg: Config, s: State, c: Id, pick: Id, s': State)
    requires c in s.clients && ClientNext(cfg, s, c, pick, s') && Writes(s.clients[c])
    ensures s'.outcomes == if s.clients[c].SetResult? then s.outcomes[s.clients[c].task := Cancelled] else s.outcomes
  {
    WritesFrame(cfg, s, c, pick, s');
  }

  lemma ResultMoves(cfg: Config, s: State, ev: Event, s': State)
    requires Next(cfg, s, ev, s')
    ensures match ResultSet(s, ev)
            case None => s'.outcomes == s.outcomes
            case Some(t) => s'.outcomes.Keys == s.outcomes.Keys + {t}
  {
    if ev.ClientStep? {
      if Writes(s.clients[ev.c]) { ResultWritten(cfg, s, ev.c, ev.pick, s'); } else { StepFrame(cfg, s, ev.c, ev.pick, s'); }
    }
  }

  lemma ResultIsNew(cfg: Config, s: State, ev: Event, s': State)
    requires cfg.Valid() && Inv(cfg, s) && Next(cfg, s, ev, s') && ResultSet(s, ev).Some?
    ensures ResultSet(s, ev).value !in s.outcomes
  {
    var t := ResultSet(s, ev).value;
    if ev.ClientStep? { SetResultOk(cfg, s, ev.c, t); } else { EndOk(cfg, s, ev.w, t, ev.exit); }
  }

  lemma ResultsGrow(cfg: Config, run: seq<State>, events: seq<Event>, k: nat)
    requires IsRun(cfg, run, events) && k < |events|
    ensures run[k].outcomes.Keys <= run[k + 1].outcomes.Keys
  {
    assert Next(cfg, run[k], events[k], run[k + 1]);
    ResultMoves(cfg, run[k], events[k], run[k + 1]);
  }

  lemma {:induction false} KeysStay(run: seq<State>, i: nat, j: nat, t: Id)
    requires i <= j < |run| && t in run[i].outcomes
    requires forall k | 0 <= k < |run| - 1 :: run[k].outcomes.Keys <= run[k + 1].outcomes.Keys
    ensures t in run[j].outcomes
    decreases j
  {
    if i < j {
      KeysStay(run, i, j - 1, t);
      assert run[j - 1].outcomes.Keys <= run[j - 1 + 1].outcomes.Keys;
    }
  }

  lemma ResultStays(cfg: Config, run: seq<State>, events: seq<Event>, i: nat, j: nat, t: Id)
    requires IsRun(cfg, run, events) && i <= j < |run| && t in run[i].outcomes
    ensures t in run[j].outcomes
  {
    forall k | 0 <= k < |run| - 1 ensures run[k].outcomes.Keys <= run[k + 1].outcomes.Keys {
      ResultsGrow(cfg, run, events, k);
    }
    KeysStay(run, i, j, t);
  }

  /** No two events of a run set the result of one task. */
  lemma ResultIsSetOnce(cfg: Config, run: seq<State>, events: seq<Event>, i: nat, j: nat)
    requires IsRun(cfg, run, events) && i < j < |events| && ResultSet(run[i], events[i]).Some?
    ensures ResultSet(run[j], events[j]) != ResultSet(run[i], events[i])
  {
    var t := ResultSet(run[i], events[i]).value;
    ResultMoves(cfg, run[i], events[i], run[i + 1]);
    ResultStays(cfg, run, events, i + 1, j, t);
    if ResultSet(run[j], events[j]).Some? {
      RunOk(cfg, run, events, j);
      ResultIsNew(cfg, run[j], events[j], run[j + 1]);
    }
  }

  // ---------------------------------------------------------------------------------------------
  // TERMINATED
  // ---------------------------------------------------------------------------------------------

  /** A Cancel call has taken the task out of the queue and is about to set its result. */
  ghost predicate BeingCancelled(s: State, t: Id) {
    exists c :: c in s.clients && Cancelling(s.clients[c]) == Some(t)
  }

  lemma TerminatedTask(cfg: Config, s: State, t: Id)
    requires Inv(cfg, s) && s.workers == map[] && t in s.accepted
    ensures t in s.outcomes || BeingCancelled(s, t)
  {
    assert t in s.places && t !in s.queue;
    if s.places[t].AtCancel? {
      var c := s.places[t].c;
      assert c in s.clients && Cancelling(s.clients[c]) == Some(t);
    }
  }

  /** A TERMINATED executor has no worker; every task whose Submit succeeded ran to its end or was taken
      out by Cancel; and whatever is still queued belongs to an addTask that has yet to give it up. */
  lemma TerminatedIsDone(cfg: Config, run: seq<State>, events: seq<Event>, i: nat)
    requires IsRun(cfg, run, events) && i < |run| && RunState(run[i].word) == TERMINATED
    ensures var s := run[i];
            && s.workers == map[]
            && (forall t | t in s.clients && s.clients[t] == Returned(true) :: t in s.outcomes || BeingCancelled(s, t))
            && (forall t | t in s.queue :: t !in s.accepted && t in s.clients && Deciding(s.clients[t]))
  {
    var s := run[i];
    RunOk(cfg, run, events, i);
    CountOk(cfg, s.word, |s.workers|);
    assert s.workers == map[];
    forall t | t in s.clients && s.clients[t] == Returned(true) ensures t in s.outcomes || BeingCancelled(s, t) {
      assert ClientOk(cfg, s, t, Returned(true));
      TerminatedTask(cfg, s, t);
    }
    forall t | t in s.queue ensures t !in s.accepted && t in s.clients && Deciding(s.clients[t]) {
      assert !SomeAwake(s.workers);
    }
  }

  /** A task that TERMINATED found in the queue: still there and undecided, or given up. */
  ghost predicate Leftover(s: State, t: Id) {
    && t in s.clients && t in s.places && t !in s.accepted
    && if s.places[t] == InQueue then Deciding(s.clients[t])
       else s.places[t] == Rejected && s.clients[t] == Returned(false)
  }

  /** Its own addTask goes on to give it up. */
  lemma LeftoverDecides(cfg: Config, s: State, t: Id, pick: Id, s': State)
    requires Leftover(s, t) && ClientNext(cfg, s, t, pick, s') && IsTerminated(s.word) && ClientOk(cfg, s, t, s.clients[t])
    requires QueueOk(s.queue, s.places)
    ensures Leftover(s', t)
  {
  }

  /** Another call that writes does not touch it. */
  lemma LeftoverUntouched(cfg: Config, s: State, c: Id, pick: Id, s': State, t: Id)
    requires Leftover(s, t) && c in s.clients && c != t && ClientNext(cfg, s, c, pick, s') && Writes(s.clients[c])
    requires IsTerminated(s.word) && ClientOk(cfg, s, c, s.clients[c]) && CancelOk(s.clients, s.places)
    ensures Leftover(s', t)
  {
    var pc := s.clients[c];
    if pc.AddWorkerCas? {
      HireLocal(s, c, pick);
    } else if IsShutdownPc(pc) {
      ShutdownLocal(s, c);
    } else if IsTryPc(pc) {
      TryLocal(s, c);
    } else {
      LeftoverNotCancelled(s, c, t);
    }
  }

  /** Cancel is for accepted tasks alone. */
  lemma LeftoverNotCancelled(s: State, c: Id, t: Id)
    requires Leftover(s, t) && c in s.clients && c != t && (s.clients[c].CancelRemove? || s.clients[c].SetResult?)
    requires CancelOk(s.clients, s.places) && TaskOk(c, s.clients[c], s.places, s.accepted)
    ensures Leftover(CancelStep(s, c), t)
  {
    if s.clients[c].SetResult? {
      assert Cancelling(s.clients[c]) == Some(s.clients[c].task);
    }
  }

  lemma LeftoverMoves(cfg: Config, s: State, ev: Event, s': State, t: Id)
    requires Next(cfg, s, ev, s') && Leftover(s, t) && s.workers == map[] && IsTerminated(s.word)
    requires QueueOk(s.queue, s.places) && CancelOk(s.clients, s.places)
    requires ev.ClientStep? ==> ClientOk(cfg, s, ev.c, s.clients[ev.c])
    ensures Leftover(s', t)
  {
    if ev.ClientStep? {
      if ev.c == t {
        LeftoverDecides(cfg, s, t, ev.pick, s');
      } else if Writes(s.clients[ev.c]) {
        LeftoverUntouched(cfg, s, ev.c, ev.pick, s', t);
      } else {
        StepFrame(cfg, s, ev.c, ev.pick, s');
      }
    }
  }

  lemma LeftoverKept(cfg: Config, run: seq<State>, events: seq<Event>, j: nat, t: Id)
    requires IsRun(cfg, run, events) && j < |events| && Leftover(run[j], t)
    requires run[j].workers == map[] && IsTerminated(run[j].word)
    ensures Leftover(run[j + 1], t)
  {
    RunOk(cfg, run, events, j);
    LeftoverMoves(cfg, run[j], events[j], run[j + 1], t);
  }

  lemma LeftoverStarts(cfg: Config, run: seq<State>, events: seq<Event>, i: nat, t: Id)
    requires IsRun(cfg, run, events) && i < |run| && RunState(run[i].word) == TERMINATED && t in run[i].queue
    ensures Leftover(run[i], t)
  {
    RunOk(cfg, run, events, i);
    TerminatedIsDone(cfg, run, events, i);
  }

  lemma LeftoverHasNoResult(cfg: Config, run: seq<State>, events: seq<Event>, j: nat, t: Id)
    requires IsRun(cfg, run, events) && j < |run| && Leftover(run[j], t)
    ensures t !in run[j].outcomes
  {
    RunOk(cfg, run, events, j);
  }

  /** What is queued when the executor terminates never runs: its Submit fails, if it returns at all. */
  lemma {:induction false} LeftoverIsRejected(cfg: Config, run: seq<State>, events: seq<Event>, i: nat, j: nat, t: Id)
    requires IsRun(cfg, run, events) && i <= j < |run| && RunState(run[i].word) == TERMINATED && t in run[i].queue
    ensures Leftover(run[j], t) && t !in run[j].outcomes
    decreases j
  {
    if i == j {
      LeftoverStarts(cfg, run, events, i, t);
    } else {
      LeftoverIsRejected(cfg, run, events, i, j - 1, t);
      TerminatedStays(cfg, run, events, i, j - 1);
      LeftoverKept(cfg, run, events, j - 1, t);
    }
    LeftoverHasNoResult(cfg, run, events, j, t);
  }

  lemma TerminatedStays(cfg: Config, run: seq<State>, events: seq<Event>, i: nat, j: nat)
    requires IsRun(cfg, run, events) && i <= j < |run| && RunState(run[i].word) == TERMINATED
    ensures IsTerminated(run[j].word) && run[j].workers == map[]
  {
    RunStateIsMonotone(cfg, run, events, i, j);
    WordIsSound(cfg, run, events, j);
    TerminatedIsDone(cfg, run, events, j);
  }

  // ---------------------------------------------------------------------------------------------
  // Termination signals
  // ---------------------------------------------------------------------------------------------

  /** A channel is signalled only when the executor is TERMINATED, and once the mutex is free a
      TERMINATED executor owes no recorded Shutdown its signal. */
  lemma SignalMeansTerminated(cfg: Config, run: seq<State>, events: seq<Event>, i: nat, c: Id)
    requires IsRun(cfg, run, events) && i < |run| && c in run[i].chans
    ensures var s := run[i];
            && c in s.clients && (s.chans[c] == Signalled ==> RunState(s.word) == TERMINATED)
            && (RunState(s.word) == TERMINATED && s.mutex == None && !Unrecorded(s.clients[c]) ==> s.chans[c] == Signalled)
  {
    var s := run[i];
    RunOk(cfg, run, events, i);
    CountOk(cfg, s.word, |s.workers|);
    if s.mutex == None && RunState(s.word) == TERMINATED {
      assert s.terminations == [];
      assert s.chans[c] != Listed;
    }
  }

  /** The events that write into the channel of `c`. */
  predicate Signals(s: State, ev: Event, c: Id) {
    && ev.ClientStep? && ev.c in s.clients
    && ((s.clients[ev.c].TrySend? && c in s.terminations)
        || (ev.c == c && s.clients[c].ShutRecord? && IsTerminated(s.clients[c].prev)))
  }

  lemma SignalOthers(cfg: Config, s: State, d: Id, pick: Id, s': State)
    requires d in s.clients && ClientNext(cfg, s, d, pick, s') && Writes(s.clients[d])
    requires !s.clients[d].ShutRecord? && !s.clients[d].TrySend?
    ensures s'.chans == s.chans
  {
    WritesFrame(cfg, s, d, pick, s');
  }

  lemma SignalWritten(cfg: Config, s: State, d: Id, pick: Id, s': State, c: Id)
    requires d in s.clients && ClientNext(cfg, s, d, pick, s') && Writes(s.clients[d]) && c in s.chans
    requires ChansOk(s.chans, s.terminations, s.clients, s.mutex, s.word)
    ensures c in s'.chans && (s.chans[c] == Signalled ==> s'.chans[c] == Signalled)
    ensures Signals(s, ClientStep(d, pick), c) ==> s.chans[c] != Signalled && s'.chans[c] == Signalled
  {
    if s.clients[d].ShutRecord? {
      assert Unrecorded(s.clients[d]);
    } else if !s.clients[d].TrySend? {
      SignalOthers(cfg, s, d, pick, s');
    }
  }

  lemma SignalMoves(cfg: Config, s: State, ev: Event, s': State, c: Id)
    requires Next(cfg, s, ev, s') && c in s.chans && c in s.clients
    requires ChansOk(s.chans, s.terminations, s.clients, s.mutex, s.word)
    ensures c in s'.chans && (s.chans[c] == Signalled ==> s'.chans[c] == Signalled)
    ensures Signals(s, ev, c) ==> s.chans[c] != Signalled && s'.chans[c] == Signalled
  {
    if ev.ClientStep? {
      if Writes(s.clients[ev.c]) {
        SignalWritten(cfg, s, ev.c, ev.pick, s', c);
      } else {
        StepFrame(cfg, s, ev.c, ev.pick, s');
      }
    }
  }

  lemma SignalKept(cfg: Config, run: seq<State>, events: seq<Event>, k: nat, c: Id)
    requires IsRun(cfg, run, events) && k < |events| && c in run[k].chans && run[k].chans[c] == Signalled
    ensures c in run[k + 1].chans && run[k + 1].chans[c] == Signalled
  {
    RunOk(cfg, run, events, k);
    assert Next(cfg, run[k], events[k], run[k + 1]);
    SignalMoves(cfg, run[k], events[k], run[k + 1], c);
  }

  lemma {:induction false} SignalStays(cfg: Config, run: seq<State>, events: seq<Event>, i: nat, j: nat, c: Id)
    requires IsRun(cfg, run, events) && i <= j < |run| && c in run[i].chans && run[i].chans[c] == Signalled
    ensures c in run[j].chans && run[j].chans[c] == Signalled
    decreases j
  {
    if i < j {
      SignalStays(cfg, run, events, i, j - 1, c);
      SignalKept(cfg, run, events, j - 1, c);
    }
  }

  lemma SignalledNow(cfg: Config, run: seq<State>, events: seq<Event>, k: nat, c: Id)
    requires IsRun(cfg, run, events) && k < |events| && c in run[k].chans && Signals(run[k], events[k], c)
    ensures run[k].chans[c] != Signalled && c in run[k + 1].chans && run[k + 1].chans[c] == Signalled
  {
    RunOk(cfg, run, events, k);
    assert Next(cfg, run[k], events[k], run[k + 1]);
    SignalMoves(cfg, run[k], events[k], run[k + 1], c);
  }

  /** No channel is written twice, so the send never blocks. */
  lemma SignalIsSentOnce(cfg: Config, run: seq<State>, events: seq<Event>, i: nat, j: nat, c: Id)
    requires IsRun(cfg, run, events) && i < j < |events| && c in run[i].chans && Signals(run[i], events[i], c)
    ensures !Signals(run[j], events[j], c)
  {
    SignalledNow(cfg, run, events, i, c);
    SignalStays(cfg, run, events, i + 1, j, c);
    if Signals(run[j], events[j], c) {
      SignalledNow(cfg, run, events, j, c);
    }
  }
}
