/** Shutdown, tryTerminate, Cancel and the workers themselves keep the invariant of the pool. */
module WorkerPoolShutdown {
  import opened Wrappers
  import opened WorkerPool
  import opened WorkerPoolProof
  import opened WorkerPoolSteps

  // ---------------------------------------------------------------------------------------------
  // The mutex and the termination channels
  // ---------------------------------------------------------------------------------------------

  /** The state after a step of `c` under the mutex that touches only the mutex and the channels. */
  function UnderMutex(s: State, c: Id, pc': Client, mutex: Option<Id>, chans: map<Id, Chan>, terminations: seq<Id>): State {
    s.(clients := s.clients[c := pc'], mutex := mutex, chans := chans, terminations := terminations)
  }

  lemma ChannelStepOk(cfg: Config, s: State, c: Id, pc': Client,
                      mutex: Option<Id>, chans: map<Id, Chan>, terminations: seq<Id>)
    requires Inv(cfg, s) && c in s.clients && Cancelling(pc') == Cancelling(s.clients[c])
    requires ClientOk(cfg, s, c, pc') && !Deciding(s.clients[c])
    requires MutexOk(mutex, s.clients[c := pc']) && ChansOk(chans, terminations, s.clients[c := pc'], mutex, s.word)
    requires forall d | d in chans :: d in s.chans
    ensures Inv(cfg, UnderMutex(s, c, pc', mutex, chans, terminations))
  {
    MoveCancel(s.clients, s.places, c, pc');
    MoveUndecided(s.queue, s.accepted, s.clients, c, pc');
    MoveClients(cfg, s, c, pc');
  }

  lemma LockMutex(clients: map<Id, Client>, c: Id, pc': Client)
    requires MutexOk(None, clients) && c in clients && HoldsMutex(pc')
    ensures MutexOk(Some(c), clients[c := pc'])
  {
  }

  lemma UnlockMutex(clients: map<Id, Client>, c: Id, pc': Client)
    requires MutexOk(Some(c), clients) && c in clients && !HoldsMutex(pc')
    ensures MutexOk(None, clients[c := pc'])
  {
  }

  /** The channels when `c` takes or releases the mutex. */
  lemma LockChans(s: State, c: Id, pc': Client, mutex: Option<Id>)
    requires ChansOk(s.chans, s.terminations, s.clients, s.mutex, s.word) && c in s.clients
    requires Unrecorded(pc') == Unrecorded(s.clients[c]) && !s.clients[c].TrySend?
    requires s.mutex == None || s.mutex == Some(c)
    ensures ChansOk(s.chans, s.terminations, s.clients[c := pc'], mutex, s.word)
  {
  }

  predicate Locks(pc: Client, pc': Client) {
    (pc.ShutLock? && pc' == ShutLoad) || (pc.TryLock? && pc' == TrySetLoad(pc.after))
  }

  lemma LockPcOk(cfg: Config, s: State, c: Id, pc: Client, pc': Client)
    requires Locks(pc, pc') && ClientOk(cfg, s, c, pc)
    ensures ClientOk(cfg, s, c, pc') && Cancelling(pc') == Cancelling(pc) && !Deciding(pc) && HoldsMutex(pc')
    ensures Unrecorded(pc') == Unrecorded(pc) && !pc.TrySend?
  {
  }

  lemma LockOk(cfg: Config, s: State, c: Id, pc': Client)
    requires Inv(cfg, s) && c in s.clients && s.mutex == None && Locks(s.clients[c], pc')
    ensures Inv(cfg, At(s.(mutex := Some(c)), c, pc'))
  {
    assert ClientOk(cfg, s, c, s.clients[c]);
    LockPcOk(cfg, s, c, s.clients[c], pc');
    LockMutex(s.clients, c, pc');
    LockChans(s, c, pc', Some(c));
    ChannelStepOk(cfg, s, c, pc', Some(c), s.chans, s.terminations);
  }

  lemma UnlockOk(cfg: Config, s: State, c: Id)
    requires Inv(cfg, s) && c in s.clients && s.clients[c].ShutUnlock?
    ensures Inv(cfg, At(s.(mutex := None), c, TryLoad(Leave)))
  {
    assert s.mutex == Some(c);
    UnlockMutex(s.clients, c, TryLoad(Leave));
    LockChans(s, c, TryLoad(Leave), None);
    ChannelStepOk(cfg, s, c, TryLoad(Leave), None, s.chans, s.terminations);
  }

  /** Shutdown notes its channel, or fills it at once when the executor was terminated before. */
  lemma RecordChans(s: State, c: Id, pc': Client, listed: bool)
    requires ChansOk(s.chans, s.terminations, s.clients, s.mutex, s.word) && c in s.clients && Unrecorded(s.clients[c])
    requires !Unrecorded(pc') && s.mutex == Some(c) && listed == !IsTerminated(s.word)
    ensures ChansOk(s.chans[c := if listed then Listed else Signalled],
                    if listed then s.terminations + [c] else s.terminations, s.clients[c := pc'], s.mutex, s.word)
  {
    var terminations := s.terminations + [c];
    assert forall d :: d in terminations <==> d in s.terminations || d == c;
  }

  function RecordNext(s: State, pc: Client): Client
    requires pc.ShutRecord?
  {
    if !IsTerminated(s.word) && IsRunning(pc.prev) then ShutClose else ShutUnlock
  }

  lemma RecordPcOk(cfg: Config, s: State, c: Id)
    requires c in s.clients && s.clients[c].ShutRecord? && ClientOk(cfg, s, c, s.clients[c])
    ensures var pc' := RecordNext(s, s.clients[c]); var listed := !IsTerminated(s.word);
            && ShutdownStep(s, c) == UnderMutex(s, c, pc', s.mutex, s.chans[c := if listed then Listed else Signalled],
                                                if listed then s.terminations + [c] else s.terminations)
            && Cancelling(pc') == Cancelling(s.clients[c]) && ClientOk(cfg, s, c, pc')
            && HoldsMutex(pc') && HoldsMutex(s.clients[c]) && !Unrecorded(pc') && Unrecorded(s.clients[c])
  {
  }

  lemma RecordOk(cfg: Config, s: State, c: Id)
    requires Inv(cfg, s) && c in s.clients && s.clients[c].ShutRecord?
    ensures Inv(cfg, ShutdownStep(s, c))
  {
    assert ClientOk(cfg, s, c, s.clients[c]);
    RecordPcOk(cfg, s, c);
    assert s.mutex == Some(c);
    var listed := !IsTerminated(s.word);
    var pc' := RecordNext(s, s.clients[c]);
    RecordChans(s, c, pc', listed);
    MoveMutex(s.mutex, s.clients, c, pc');
    ChannelStepOk(cfg, s, c, pc', s.mutex, s.chans[c := if listed then Listed else Signalled],
                  if listed then s.terminations + [c] else s.terminations);
  }

  /** tryTerminate sends every signal that is waited for. */
  function Sent(s: State): map<Id, Chan> {
    map d | d in s.chans :: if d in s.terminations then Signalled else s.chans[d]
  }

  lemma SendChans(s: State, c: Id, pc': Client)
    requires ChansOk(s.chans, s.terminations, s.clients, s.mutex, s.word) && c in s.clients && s.clients[c].TrySend?
    requires !Unrecorded(pc') && IsTerminated(s.word)
    ensures ChansOk(Sent(s), [], s.clients[c := pc'], None, s.word)
  {
  }

  function TryReturn(after: Then): Client {
    if after.SetCancelled? then SetResult(after.task) else Gone
  }

  lemma SendPcOk(cfg: Config, s: State, c: Id)
    requires c in s.clients && s.clients[c].TrySend? && ClientOk(cfg, s, c, s.clients[c])
    ensures var pc' := TryReturn(s.clients[c].after);
            && IsTerminated(s.word) && TryStep(s, c) == UnderMutex(s, c, pc', None, Sent(s), [])
            && Cancelling(pc') == Cancelling(s.clients[c]) && ClientOk(cfg, s, c, pc')
            && !HoldsMutex(pc') && HoldsMutex(s.clients[c]) && !Unrecorded(pc')
  {
  }

  lemma SendOk(cfg: Config, s: State, c: Id)
    requires Inv(cfg, s) && c in s.clients && s.clients[c].TrySend?
    ensures Inv(cfg, TryStep(s, c))
  {
    assert ClientOk(cfg, s, c, s.clients[c]);
    SendPcOk(cfg, s, c);
    assert s.mutex == Some(c);
    var pc' := TryReturn(s.clients[c].after);
    UnlockMutex(s.clients, c, pc');
    SendChans(s, c, pc');
    ChannelStepOk(cfg, s, c, pc', None, Sent(s), []);
  }

  // ---------------------------------------------------------------------------------------------
  // The run state
  // ---------------------------------------------------------------------------------------------

  /** Where Shutdown and tryTerminate go when they write nothing. */
  function QuietNext(s: State, pc: Client): Client
    requires pc.ShutLoad? || pc.ShutCas? || pc.TryLoad? || pc.TryEmpty? || pc.TrySetLoad? || pc.TrySetCas?
  {
    match pc
    case ShutLoad => if s.word >= SHUTDOWN then ShutRecord(s.word) else ShutCas(s.word)
    case ShutCas(_) => ShutLoad
    case TryLoad(after) => if !IsShutdown(s.word) || IsTerminated(s.word) then TryReturn(after) else TryEmpty(s.word, after)
    case TryEmpty(state, after) => if s.queue != [] || WorkerCount(state) > 0 then TryReturn(after) else TryLock(after)
    case TrySetLoad(after) => if s.word >= TERMINATED then TrySend(after) else TrySetCas(s.word, after)
    case TrySetCas(_, after) => TrySetLoad(after)
  }

  lemma QuietPcOk(cfg: Config, s: State, c: Id)
    requires c in s.clients && ClientOk(cfg, s, c, s.clients[c]) && cfg.Valid() && WordOk(cfg, s.word, |s.workers|)
    requires var pc := s.clients[c];
             pc.ShutLoad? || pc.ShutCas? || pc.TryLoad? || pc.TryEmpty? || pc.TrySetLoad? || pc.TrySetCas?
    ensures var pc' := QuietNext(s, s.clients[c]); Quiet(s, c, pc') && ClientOk(cfg, s, c, pc')
  {
    CountOk(cfg, s.word, |s.workers|);
  }

  lemma ShutLoadOk(cfg: Config, s: State, c: Id)
    requires cfg.Valid() && Inv(cfg, s) && c in s.clients
    requires s.clients[c].ShutLoad? || (s.clients[c].ShutCas? && s.word != s.clients[c].state)
    ensures Inv(cfg, ShutdownStep(s, c))
  {
    QuietPcOk(cfg, s, c);
    MoveOk(cfg, s, c, QuietNext(s, s.clients[c]));
  }

  lemma TryQuietOk(cfg: Config, s: State, c: Id)
    requires cfg.Valid() && Inv(cfg, s) && c in s.clients
    requires var pc := s.clients[c];
             pc.TryLoad? || pc.TryEmpty? || pc.TrySetLoad? || (pc.TrySetCas? && s.word != pc.state)
    ensures Inv(cfg, TryStep(s, c))
  {
    QuietPcOk(cfg, s, c);
    MoveOk(cfg, s, c, QuietNext(s, s.clients[c]));
  }

  /** A worker leaves only a pool that is shut down, so terminateWorker never looks for a replacement. */
  lemma ExitOk(cfg: Config, s: State, c: Id)
    requires cfg.Valid() && Inv(cfg, s) && c in s.clients && (s.clients[c].ExitLoad? || s.clients[c].ExitReplace?)
    ensures s.clients[c].ExitLoad? && Inv(cfg, ExitStep(cfg, s, c))
  {
    assert ClientOk(cfg, s, c, s.clients[c]);
    ExitPcOk(cfg, s, c);
    MoveOk(cfg, s, c, TryLoad(Leave));
  }

  lemma ExitPcOk(cfg: Config, s: State, c: Id)
    requires c in s.clients && (s.clients[c].ExitLoad? || s.clients[c].ExitReplace?) && ClientOk(cfg, s, c, s.clients[c])
    ensures s.clients[c].ExitLoad? && ExitStep(cfg, s, c) == At(s, c, TryLoad(Leave))
    ensures Quiet(s, c, TryLoad(Leave)) && ClientOk(cfg, s, c, TryLoad(Leave))
  {
  }

  /** The word moves on to SHUTDOWN or to TERMINATED. */
  lemma SetRunStateFair(cfg: Config, s: State, c: Id, word: int, pc': Client)
    requires cfg.Valid() && c in s.clients && WordOk(cfg, s.word, |s.workers|) && ClientOk(cfg, s, c, s.clients[c])
    requires var pc := s.clients[c];
             && (pc.ShutCas? || pc.TrySetCas?) && s.word == pc.state && s.mutex == Some(c)
             && word == MakeState(if pc.ShutCas? then SHUTDOWN else TERMINATED, WorkerCount(s.word))
             && pc' == if pc.ShutCas? then ShutRecord(s.word) else TrySend(pc.after)
    ensures var s' := At(s.(word := word), c, pc');
            && WordOk(cfg, word, |s.workers|) && IsShutdown(word) && Fair(s, s', Some(c)) && ClientOk(cfg, s', c, pc')
            && Cancelling(pc') == Cancelling(s.clients[c]) && HoldsMutex(pc') && HoldsMutex(s.clients[c])
            && Unrecorded(pc') == Unrecorded(s.clients[c]) && (IsTerminated(word) ==> pc'.TrySend?)
  {
    CountOk(cfg, s.word, |s.workers|);
  }

  lemma SetRunStateChans(s: State, c: Id, word: int, pc': Client)
    requires ChansOk(s.chans, s.terminations, s.clients, s.mutex, s.word) && c in s.clients && s.mutex == Some(c)
    requires Unrecorded(pc') == Unrecorded(s.clients[c]) && (IsTerminated(word) ==> pc'.TrySend?)
    requires IsTerminated(s.word) ==> IsTerminated(word)
    ensures ChansOk(s.chans, s.terminations, s.clients[c := pc'], s.mutex, word)
  {
  }

  lemma SetRunStateOk(cfg: Config, s: State, c: Id, word: int, pc': Client)
    requires cfg.Valid() && Inv(cfg, s) && c in s.clients
    requires var pc := s.clients[c];
             && (pc.ShutCas? || pc.TrySetCas?) && s.word == pc.state
             && word == MakeState(if pc.ShutCas? then SHUTDOWN else TERMINATED, WorkerCount(s.word))
             && pc' == if pc.ShutCas? then ShutRecord(s.word) else TrySend(pc.after)
    ensures Inv(cfg, At(s.(word := word), c, pc'))
  {
    assert ClientOk(cfg, s, c, s.clients[c]);
    assert HoldsMutex(s.clients[c]) && s.mutex == Some(c);
    SetRunStateFair(cfg, s, c, word, pc');
    MoveCancel(s.clients, s.places, c, pc');
    MoveUndecided(s.queue, s.accepted, s.clients, c, pc');
    MoveMutex(s.mutex, s.clients, c, pc');
    SetRunStateChans(s, c, word, pc');
    ClientsMove(cfg, s, At(s.(word := word), c, pc'), c, pc');
  }

  // ---------------------------------------------------------------------------------------------
  // Closing the queue
  // ---------------------------------------------------------------------------------------------

  lemma CloseWorkers(s: State)
    requires HeldOk(s.workers, s.places) && LeavingOk(s.workers, s.word) && AwakeOk(s.queue, s.accepted, s.workers, s.word)
    ensures var workers := Close(s).workers;
            && |workers| == |s.workers| && HeldOk(workers, s.places) && LeavingOk(workers, s.word)
            && AwakeOk(s.queue, s.accepted, workers, s.word)
  {
    var workers := Close(s).workers;
    assert workers.Keys == s.workers.Keys;
    if SomeAwake(s.workers) {
      var w :| w in s.workers && Awake(s.workers[w]);
      assert Awake(workers[w]);
    }
  }

  lemma CloseFair(cfg: Config, s: State, c: Id)
    requires c in s.clients && s.clients[c].ShutClose? && |Close(s).workers| == |s.workers|
    ensures var s' := At(Close(s), c, ShutUnlock);
            Fair(s, s', Some(c)) && ClientOk(cfg, s', c, ShutUnlock) && QuietPc(s.clients[c], ShutUnlock)
  {
  }

  lemma CloseOk(cfg: Config, s: State, c: Id)
    requires Inv(cfg, s) && c in s.clients && s.clients[c].ShutClose?
    ensures Inv(cfg, ShutdownStep(s, c))
  {
    var s' := At(Close(s), c, ShutUnlock);
    CloseWorkers(s);
    CloseFair(cfg, s, c);
    MoveCancel(s.clients, s.places, c, ShutUnlock);
    MoveUndecided(s.queue, s.accepted, s.clients, c, ShutUnlock);
    MoveMutex(s.mutex, s.clients, c, ShutUnlock);
    MoveChans(s, c, ShutUnlock, s.word);
    ClientsMove(cfg, s, s', c, ShutUnlock);
  }

  lemma ShutdownOk(cfg: Config, s: State, c: Id)
    requires cfg.Valid() && Inv(cfg, s) && c in s.clients && IsShutdownPc(s.clients[c])
    requires s.clients[c].ShutLock? ==> s.mutex == None
    ensures Inv(cfg, ShutdownStep(s, c))
  {
    var pc := s.clients[c];
    if pc.ShutLock? {
      LockOk(cfg, s, c, ShutLoad);
    } else if pc.ShutLoad? || (pc.ShutCas? && s.word != pc.state) {
      ShutLoadOk(cfg, s, c);
    } else if pc.ShutCas? {
      SetRunStateOk(cfg, s, c, MakeState(SHUTDOWN, WorkerCount(s.word)), ShutRecord(s.word));
    } else if pc.ShutRecord? {
      RecordOk(cfg, s, c);
    } else if pc.ShutClose? {
      CloseOk(cfg, s, c);
    } else {
      UnlockOk(cfg, s, c);
    }
  }

  lemma TryOk(cfg: Config, s: State, c: Id)
    requires cfg.Valid() && Inv(cfg, s) && c in s.clients && IsTryPc(s.clients[c])
    requires s.clients[c].TryLock? ==> s.mutex == None
    ensures Inv(cfg, TryStep(s, c))
  {
    var pc := s.clients[c];
    if pc.TryLock? {
      LockOk(cfg, s, c, TrySetLoad(pc.after));
    } else if pc.TrySend? {
      SendOk(cfg, s, c);
    } else if pc.TrySetCas? && s.word == pc.state {
      SetRunStateOk(cfg, s, c, MakeState(TERMINATED, WorkerCount(s.word)), TrySend(pc.after));
    } else {
      TryQuietOk(cfg, s, c);
    }
  }

  // ---------------------------------------------------------------------------------------------
  // Cancel
  // ---------------------------------------------------------------------------------------------

  lemma TakeCancel(clients: map<Id, Client>, places: map<Id, Place>, c: Id, t: Id, pc': Client)
    requires CancelOk(clients, places) && c in clients && Cancelling(clients[c]) == None && Cancelling(pc') == Some(t)
    requires t in places && !places[t].AtCancel?
    ensures CancelOk(clients[c := pc'], places[t := AtCancel(c)])
  {
  }

  lemma CancelFair(cfg: Config, s: State, c: Id, t: Id)
    requires c in s.clients && s.clients[c] == CancelRemove(t) && ClientOk(cfg, s, c, s.clients[c])
    ensures var s' := At(Put(s.(queue := Without(s.queue, t)), t, AtCancel(c)), c, TryLoad(SetCancelled(t)));
            && Fair(s, s', Some(c)) && ClientOk(cfg, s', c, TryLoad(SetCancelled(t))) && t in s.accepted
            && Cancelling(s.clients[c]) == None && Cancelling(TryLoad(SetCancelled(t))) == Some(t)
            && HoldsMutex(TryLoad(SetCancelled(t))) == HoldsMutex(s.clients[c]) && !Unrecorded(TryLoad(SetCancelled(t)))
            && !Unrecorded(s.clients[c]) && !s.clients[c].TrySend?
  {
  }

  lemma CancelTaken(cfg: Config, s: State, c: Id, t: Id)
    requires Inv(cfg, s) && c in s.clients && s.clients[c] == CancelRemove(t) && t in s.queue
    ensures Inv(cfg, CancelStep(s, c))
  {
    assert ClientOk(cfg, s, c, s.clients[c]);
    var pc' := TryLoad(SetCancelled(t));
    var queue' := Without(s.queue, t);
    var s' := At(Put(s.(queue := queue'), t, AtCancel(c)), c, pc');
    CancelFair(cfg, s, c, t);
    WithoutOk(s.queue, t);
    LostQueue(s.queue, s.places, t, queue', AtCancel(c));
    LostUndecided(s.queue, s.accepted, s.clients, t, queue', c, pc');
    LostAwake(s.queue, s.accepted, s.workers, s.word, t, queue');
    PutHeld(s.workers, s.places, t, AtCancel(c));
    PutResults(s.places, s.accepted, s.outcomes, t, AtCancel(c));
    TakeCancel(s.clients, s.places, c, t, pc');
    MoveMutex(s.mutex, s.clients, c, pc');
    MoveChans(s, c, pc', s.word);
    ClientsMove(cfg, s, s', c, pc');
  }

  /** A result is set for a task that has none. */
  lemma FinishResults(places: map<Id, Place>, accepted: set<Id>, outcomes: map<Id, Outcome>, t: Id, outcome: Outcome)
    requires ResultsOk(places, accepted, outcomes) && t in places && (outcome.Cancelled? ==> t in accepted)
    requires places[t].AtWorker? || places[t].AtCancel?
    ensures t !in outcomes && ResultsOk(places[t := Finished], accepted, outcomes[t := outcome])
  {
  }

  lemma DropCancel(clients: map<Id, Client>, places: map<Id, Place>, c: Id, t: Id)
    requires CancelOk(clients, places) && c in clients && Cancelling(clients[c]) == Some(t)
    ensures CancelOk(clients[c := Gone], places[t := Finished])
  {
    assert t in places && places[t] == AtCancel(c);
  }

  lemma SetResultFair(cfg: Config, s: State, c: Id, t: Id)
    requires c in s.clients && s.clients[c] == SetResult(t) && t in s.places && t in s.accepted
    ensures var s' := At(Put(s.(outcomes := s.outcomes[t := Cancelled]), t, Finished), c, Gone);
            && Fair(s, s', Some(c)) && ClientOk(cfg, s', c, Gone) && Cancelling(s.clients[c]) == Some(t)
            && HoldsMutex(Gone) == HoldsMutex(s.clients[c]) && Unrecorded(Gone) == Unrecorded(s.clients[c])
  {
  }

  lemma CancelledTask(s: State, c: Id, t: Id)
    requires CancelOk(s.clients, s.places) && ResultsOk(s.places, s.accepted, s.outcomes)
    requires c in s.clients && s.clients[c] == SetResult(t)
    ensures t in s.places && s.places[t] == AtCancel(c) && t in s.accepted && !Deciding(s.clients[c])
  {
    assert Cancelling(s.clients[c]) == Some(t);
  }

  /** Cancel sets the result of a task that has none. */
  lemma SetResultOk(cfg: Config, s: State, c: Id, t: Id)
    requires Inv(cfg, s) && c in s.clients && s.clients[c] == SetResult(t)
    ensures t !in s.outcomes && Inv(cfg, CancelStep(s, c))
  {
    CancelledTask(s, c, t);
    var s' := At(Put(s.(outcomes := s.outcomes[t := Cancelled]), t, Finished), c, Gone);
    SetResultFair(cfg, s, c, t);
    PutQueue(s.queue, s.places, t, Finished);
    PutHeld(s.workers, s.places, t, Finished);
    DropCancel(s.clients, s.places, c, t);
    FinishResults(s.places, s.accepted, s.outcomes, t, Cancelled);
    MoveUndecided(s.queue, s.accepted, s.clients, c, Gone);
    MoveMutex(s.mutex, s.clients, c, Gone);
    MoveChans(s, c, Gone, s.word);
    ClientsMove(cfg, s, s', c, Gone);
  }

  lemma CancelOneOk(cfg: Config, s: State, c: Id)
    requires Inv(cfg, s) && c in s.clients && (s.clients[c].CancelRemove? || s.clients[c].SetResult?)
    ensures Inv(cfg, CancelStep(s, c))
  {
    var t := s.clients[c].task;
    if s.clients[c].SetResult? {
      SetResultOk(cfg, s, c, t);
    } else if t in s.queue {
      CancelTaken(cfg, s, c, t);
    } else {
      CancelMissed(cfg, s, c);
    }
  }

  /** The task was taken before. */
  lemma CancelMissed(cfg: Config, s: State, c: Id)
    requires Inv(cfg, s) && c in s.clients && s.clients[c].CancelRemove?
    ensures Inv(cfg, At(s, c, Gone))
  {
    assert ClientOk(cfg, s, c, Gone) && QuietPc(s.clients[c], Gone);
    MoveOk(cfg, s, c, Gone);
  }

  // ---------------------------------------------------------------------------------------------
  // Workers
  // ---------------------------------------------------------------------------------------------

  lemma WorkerFair(s: State, w: Id, pc': Worker)
    requires w in s.workers && !s.workers[w].Starting?
    ensures var s' := AtW(s, w, pc'); |s'.workers| == |s.workers| && Fair(s, s', None)
  {
    assert s.workers[w := pc'].Keys == s.workers.Keys;
  }

  /** A worker that only moves on. */
  lemma WorkerMoveOk(cfg: Config, s: State, w: Id, pc': Worker)
    requires Inv(cfg, s) && w in s.workers && !s.workers[w].Starting? && QuietWorker(s, w, pc')
    ensures Inv(cfg, AtW(s, w, pc'))
  {
    WorkerFair(s, w, pc');
    WorkerHeld(s.workers, s.places, w, pc');
    WorkerAwake(s, w, pc');
    ClientsStay(cfg, s, AtW(s, w, pc'));
  }

  lemma EndHeld(workers: map<Id, Worker>, places: map<Id, Place>, w: Id, t: Id)
    requires HeldOk(workers, places) && w in workers && Held(workers[w]) == Some(t)
    ensures HeldOk(workers[w := PollLoad], places[t := Finished])
  {
    assert t in places && places[t] == AtWorker(w);
  }

  lemma EndFair(s: State, w: Id, t: Id)
    requires w in s.workers && s.workers[w] == Running(t) && t in s.places && s.places[t] == AtWorker(w)
    ensures var s' := AtW(Put(s.(outcomes := s.outcomes[t := Ran]), t, Finished), w, PollLoad);
            |s'.workers| == |s.workers| && Fair(s, s', None)
  {
    assert s.workers[w := PollLoad].Keys == s.workers.Keys;
  }

  /** A worker sets the result of a task that has none. */
  lemma EndOk(cfg: Config, s: State, w: Id, t: Id, exit: Id)
    requires Inv(cfg, s) && w in s.workers && s.workers[w] == Running(t)
    ensures t !in s.outcomes && Inv(cfg, WorkerStep(s, w, exit))
  {
    assert Held(s.workers[w]) == Some(t) && s.places[t] == AtWorker(w);
    var s' := WorkerStep(s, w, exit);
    EndFair(s, w, t);
    EndHeld(s.workers, s.places, w, t);
    PutQueue(s.queue, s.places, t, Finished);
    PutCancel(s.clients, s.places, t, Finished);
    FinishResults(s.places, s.accepted, s.outcomes, t, Ran);
    EndAwake(s, w);
    ClientsStay(cfg, s, s');
  }

  lemma EndAwake(s: State, w: Id)
    requires AwakeOk(s.queue, s.accepted, s.workers, s.word) && LeavingOk(s.workers, s.word) && w in s.workers
    ensures AwakeOk(s.queue, s.accepted, s.workers[w := PollLoad], s.word) && LeavingOk(s.workers[w := PollLoad], s.word)
  {
    assert Awake(s.workers[w := PollLoad][w]);
  }

  lemma TakeHeld(workers: map<Id, Worker>, places: map<Id, Place>, w: Id, t: Id)
    requires HeldOk(workers, places) && w in workers && Held(workers[w]) == None && t in places && places[t] == InQueue
    ensures HeldOk(workers[w := Running(t)], places[t := AtWorker(w)])
  {
  }

  lemma HeadLost(queue: seq<Id>)
    requires queue != [] && forall i, j | 0 <= i < j < |queue| :: queue[i] != queue[j]
    ensures Lost(queue, queue[0], queue[1..])
  {
    assert queue == [queue[0]] + queue[1..];
    assert forall x :: x in queue <==> x == queue[0] || x in queue[1..];
  }

  lemma TakeFair(s: State, w: Id)
    requires w in s.workers && (s.workers[w].PollTake? || s.workers[w].Woken?) && s.queue != []
    requires s.queue[0] in s.places && s.places[s.queue[0]] == InQueue
    ensures var s' := TakeStep(s, w); |s'.workers| == |s.workers| && Fair(s, s', None)
  {
    assert s.workers[w := Running(s.queue[0])].Keys == s.workers.Keys;
  }

  lemma TakeAwake(s: State, w: Id, t: Id, queue': seq<Id>)
    requires LeavingOk(s.workers, s.word) && w in s.workers
    ensures AwakeOk(queue', s.accepted, s.workers[w := Running(t)], s.word) && LeavingOk(s.workers[w := Running(t)], s.word)
  {
    assert Awake(s.workers[w := Running(t)][w]);
  }

  lemma TakeOk(cfg: Config, s: State, w: Id)
    requires Inv(cfg, s) && w in s.workers && (s.workers[w].PollTake? || s.workers[w].Woken?)
    ensures Inv(cfg, TakeStep(s, w))
  {
    if s.queue == [] {
      WorkerMoveOk(cfg, s, w, if s.workers[w].PollTake? && !s.closed then Waiting else PollLoad);
    } else {
      TakeHeadOk(cfg, s, w);
    }
  }

  lemma TakeHeadOk(cfg: Config, s: State, w: Id)
    requires Inv(cfg, s) && w in s.workers && (s.workers[w].PollTake? || s.workers[w].Woken?) && s.queue != []
    ensures Inv(cfg, TakeStep(s, w))
  {
    var t := s.queue[0];
    var s' := TakeStep(s, w);
    assert t in s.queue && s.places[t] == InQueue;
    TakeFair(s, w);
    HeadLost(s.queue);
    LostQueue(s.queue, s.places, t, s.queue[1..], AtWorker(w));
    TakeHeld(s.workers, s.places, w, t);
    PutCancel(s.clients, s.places, t, AtWorker(w));
    PutResults(s.places, s.accepted, s.outcomes, t, AtWorker(w));
    assert UndecidedOk(s.queue[1..], s.accepted, s.clients);
    TakeAwake(s, w, t, s.queue[1..]);
    ClientsStay(cfg, s, s');
  }

  lemma LeaveWorkers(s: State, w: Id)
    requires HeldOk(s.workers, s.places) && LeavingOk(s.workers, s.word) && AwakeOk(s.queue, s.accepted, s.workers, s.word)
    requires w in s.workers && s.workers[w].PollDec? && IsShutdown(s.word - 1)
    ensures var workers := s.workers - {w};
            && |workers| == |s.workers| - 1 && HeldOk(workers, s.places) && LeavingOk(workers, s.word - 1)
            && AwakeOk(s.queue, s.accepted, workers, s.word - 1)
  {
    var workers := s.workers - {w};
    assert workers.Keys == s.workers.Keys - {w};
    if SomeAwake(s.workers) {
      var v :| v in s.workers && Awake(s.workers[v]);
      assert v in workers && Awake(workers[v]);
    }
  }

  lemma LeaveFair(cfg: Config, s: State, w: Id, exit: Id)
    requires w in s.workers && s.workers[w].PollDec? && IsShutdown(s.word) && exit !in s.clients
    requires cfg.Valid() && WordOk(cfg, s.word, |s.workers|) && |s.workers - {w}| == |s.workers| - 1
    ensures var s' := WorkerStep(s, w, exit);
            && WordOk(cfg, s.word - 1, |s.workers| - 1) && IsShutdown(s.word - 1)
            && (IsTerminated(s.word - 1) <==> IsTerminated(s.word)) && Fair(s, s', Some(exit))
            && ClientOk(cfg, s', exit, ExitLoad) && !HoldsMutex(ExitLoad) && !Unrecorded(ExitLoad) && Cancelling(ExitLoad) == None
  {
  }

  lemma LeaveOk(cfg: Config, s: State, w: Id, exit: Id)
    requires cfg.Valid() && Inv(cfg, s) && w in s.workers && s.workers[w].PollDec? && exit !in s.clients
    ensures Inv(cfg, WorkerStep(s, w, exit))
  {
    var s' := WorkerStep(s, w, exit);
    assert IsShutdown(s.word);
    assert (s.workers - {w}).Keys == s.workers.Keys - {w};
    LeaveFair(cfg, s, w, exit);
    LeaveWorkers(s, w);
    MoveCancel(s.clients, s.places, exit, ExitLoad);
    MoveUndecided(s.queue, s.accepted, s.clients, exit, ExitLoad);
    MoveMutex(s.mutex, s.clients, exit, ExitLoad);
    MoveChans(s, exit, ExitLoad, s.word - 1);
    ClientsMove(cfg, s, s', exit, ExitLoad);
  }

  lemma WorkerStepOk(cfg: Config, s: State, w: Id, exit: Id)
    requires cfg.Valid() && Inv(cfg, s) && w in s.workers && exit !in s.clients
    requires !s.workers[w].Starting? && !s.workers[w].Waiting?
    ensures Inv(cfg, WorkerStep(s, w, exit))
  {
    var pc := s.workers[w];
    if pc.Running? {
      EndOk(cfg, s, w, pc.task, exit);
    } else if pc.PollLoad? {
      WorkerMoveOk(cfg, s, w, PollEmpty(IsShutdown(s.word)));
    } else if pc.PollEmpty? {
      WorkerMoveOk(cfg, s, w, if pc.shutdown && s.queue == [] then PollDec else PollTake);
    } else if pc.PollDec? {
      LeaveOk(cfg, s, w, exit);
    } else {
      TakeOk(cfg, s, w);
    }
  }
}
