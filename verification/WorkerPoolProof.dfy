/** What every run of the worker pool keeps, step by step. */
module WorkerPoolProof {
  import opened Wrappers
  import opened WorkerPool

  // ---------------------------------------------------------------------------------------------
  // The invariant, in parts that each look at a few fields of the state
  // ---------------------------------------------------------------------------------------------

  /** The most workers there can ever be. MaxPoolSize plays no part: Submit asks for that many workers
      only after the executor stopped running, when no worker can be added. */
  function MostWorkers(cfg: Config): nat {
    if cfg.minSize == 0 then 1 else cfg.minSize
  }

  /** The low half of the word counts the workers and the high half is one of the run states; TERMINATED
      leaves no worker. */
  ghost predicate WordOk(cfg: Config, word: int, n: nat) {
    n <= MostWorkers(cfg) && (word == RUNNING + n || word == SHUTDOWN + n || (word == TERMINATED && n == 0))
  }

  /** The queue holds exactly the tasks that are in it, each once. */
  ghost predicate QueueOk(queue: seq<Id>, places: map<Id, Place>) {
    && (forall i, j | 0 <= i < j < |queue| :: queue[i] != queue[j])
    && (forall t :: t in queue <==> t in places && places[t] == InQueue)
  }

  function Held(pc: Worker): Option<Id> {
    match pc
    case Starting(first, _) => first
    case Running(t) => Some(t)
    case _ => None
  }

  /** A worker holds exactly the tasks that are at it. */
  ghost predicate HeldOk(workers: map<Id, Worker>, places: map<Id, Place>) {
    forall w, t :: (w in workers && Held(workers[w]) == Some(t)) <==> (t in places && places[t] == AtWorker(w))
  }

  /** The task whose cancellation this call has in hand. */
  function Cancelling(pc: Client): Option<Id> {
    match pc
    case SetResult(t) => Some(t)
    case _ => if IsTryPc(pc) && pc.after.SetCancelled? then Some(pc.after.task) else None
  }

  /** A cancelling call holds exactly the tasks that are at it. */
  ghost predicate CancelOk(clients: map<Id, Client>, places: map<Id, Place>) {
    forall c, t :: (c in clients && Cancelling(clients[c]) == Some(t)) <==> (t in places && places[t] == AtCancel(c))
  }

  /** Tasks with a result are the finished ones, and an accepted task is neither at its Submit call nor
      rejected; only accepted tasks are cancelled. */
  ghost predicate ResultsOk(places: map<Id, Place>, accepted: set<Id>, outcomes: map<Id, Outcome>) {
    && (forall t :: t in outcomes <==> t in places && places[t] == Finished)
    && (forall t | t in accepted :: t in places && places[t] != AtSubmit && places[t] != Rejected)
    && (forall t | t in places && places[t].AtCancel? :: t in accepted)
    && (forall t | t in outcomes && outcomes[t] == Cancelled :: t in accepted)
  }

  /** Between the Push of addTask and its decision about the task. */
  predicate Deciding(pc: Client) {
    pc.TaskCheck? || pc.TaskRemove? || ((pc.AddWorker? || pc.AddWorkerCas?) && pc.ret.FromAddTask?)
  }

  /** A queued task that is not accepted belongs to an addTask that has yet to decide about it. */
  ghost predicate UndecidedOk(queue: seq<Id>, accepted: set<Id>, clients: map<Id, Client>) {
    forall t | t in queue && t !in accepted :: t in clients && Deciding(clients[t])
  }

  /** A worker leaves only a pool that was shut down. */
  ghost predicate LeavingOk(workers: map<Id, Worker>, word: int) {
    forall w | w in workers && (workers[w].PollDec? || workers[w] == PollEmpty(true)) :: IsShutdown(word)
  }

  predicate Awake(pc: Worker) {
    !pc.Waiting? && !pc.PollDec?
  }

  ghost predicate SomeAwake(workers: map<Id, Worker>) {
    exists w :: w in workers && Awake(workers[w])
  }

  /** A queued task that was accepted has a worker that is awake, and so has any queued task of a
      running executor that has workers at all. */
  ghost predicate AwakeOk(queue: seq<Id>, accepted: set<Id>, workers: map<Id, Worker>, word: int) {
    && ((exists t :: t in queue && t in accepted) ==> SomeAwake(workers))
    && (IsRunning(word) && queue != [] && workers != map[] ==> SomeAwake(workers))
  }

  /** What a call knows about its task. */
  ghost predicate TaskOk(c: Id, pc: Client, places: map<Id, Place>, accepted: set<Id>) {
    match pc
    case SubmitLoad => InHand(c, places, accepted)
    case SubmitReload => InHand(c, places, accepted)
    case Push => InHand(c, places, accepted)
    case AddWorker(_, first, ret) => AdderOk(c, first, ret, places, accepted)
    case AddWorkerCas(_, _, first, ret) => AdderOk(c, first, ret, places, accepted)
    case Spawn(_, ret) => ret.FromTerminate? || c in accepted
    case TaskCheck => Pushed(c, places, accepted)
    case TaskRemove => Pushed(c, places, accepted)
    case Returned(ok) => if ok then c in accepted else c in places && places[c] == Rejected && c !in accepted
    case CancelRemove(t) => t in accepted
    case _ => true
  }

  /** The task of a Submit call that has not reached the queue. */
  ghost predicate InHand(c: Id, places: map<Id, Place>, accepted: set<Id>) {
    c in places && places[c] == AtSubmit && c !in accepted
  }

  /** The task of a Submit call after its Push. */
  ghost predicate Pushed(c: Id, places: map<Id, Place>, accepted: set<Id>) {
    c in places && c !in accepted && (places[c].InQueue? || places[c].AtWorker? || places[c].Finished?)
  }

  ghost predicate AdderOk(c: Id, first: Option<Id>, ret: Ret, places: map<Id, Place>, accepted: set<Id>) {
    match ret
    case FromMin => first == Some(c) && InHand(c, places, accepted)
    case FromMax => first == Some(c) && InHand(c, places, accepted)
    case FromAddTask => first == None && Pushed(c, places, accepted)
    case FromTerminate => first == None
  }

  /** What a call knows about the state word and the number `n` of workers. */
  predicate PhaseOk(cfg: Config, pc: Client, word: int, n: nat) {
    match pc
    case AddWorker(limit, _, ret) => LimitOk(cfg, limit, ret, word)
    case AddWorkerCas(state, limit, _, ret) =>
      && (ret.FromMin? || ret.FromAddTask?) && LimitOk(cfg, limit, ret, word)
      && IsRunning(state) && WorkerCount(state) + 1 <= limit
    case Spawn(_, ret) => ret.FromMin? || ret.FromAddTask?
    case TaskRemove => IsShutdown(word)
    case ShutCas(state) => IsRunning(state)
    case ShutRecord(prev) => IsShutdown(word) && (IsTerminated(prev) <==> IsTerminated(word))
    case TryEmpty(state, _) => IsShutdown(word) && n <= WorkerCount(state)
    case TryLock(_) => IsShutdown(word) && n == 0
    case TrySetLoad(_) => IsShutdown(word) && n == 0
    case TrySetCas(state, _) => IsShutdown(word) && n == 0 && IsShutdown(state) && !IsTerminated(state)
    case TrySend(_) => IsTerminated(word)
    case ExitLoad => IsShutdown(word)
    case ExitReplace(_) => false
    case _ => true
  }

  predicate LimitOk(cfg: Config, limit: nat, ret: Ret, word: int) {
    match ret
    case FromMin => limit == cfg.minSize
    case FromAddTask => limit == 1
    case _ => IsShutdown(word)
  }

  /** A worker that a call is about to start has not started. */
  predicate SpawnOk(c: Id, pc: Client, workers: map<Id, Worker>) {
    pc.Spawn? ==> pc.w in workers && workers[pc.w].Starting? && workers[pc.w].starter == c
  }

  predicate HoldsMutex(pc: Client) {
    (IsShutdownPc(pc) && !pc.ShutLock?) || pc.TrySetLoad? || pc.TrySetCas? || pc.TrySend?
  }

  ghost predicate MutexOk(mutex: Option<Id>, clients: map<Id, Client>) {
    forall c :: mutex == Some(c) <==> c in clients && HoldsMutex(clients[c])
  }

  predicate Unrecorded(pc: Client) {
    pc.ShutLock? || pc.ShutLoad? || pc.ShutCas? || pc.ShutRecord?
  }

  /** The list holds, once each, the channels that wait for a signal; a channel is new exactly while its
      Shutdown call has not recorded it; a signal means TERMINATED; and TERMINATED leaves no channel
      waiting, except while the signals are being sent. */
  ghost predicate ChansOk(chans: map<Id, Chan>, terminations: seq<Id>, clients: map<Id, Client>,
                          mutex: Option<Id>, word: int) {
    && (forall i, j | 0 <= i < j < |terminations| :: terminations[i] != terminations[j])
    && (forall c :: c in terminations <==> c in chans && chans[c] == Listed)
    && (forall c :: c in clients && Unrecorded(clients[c]) <==> c in chans && chans[c] == Unlisted)
    && (forall c | c in chans && chans[c] == Signalled :: IsTerminated(word))
    && (IsTerminated(word) && terminations != [] ==>
          mutex.Some? && mutex.value in clients && clients[mutex.value].TrySend?)
  }

  /** Every task and every channel belongs to a call. */
  ghost predicate OwnedOk(places: map<Id, Place>, chans: map<Id, Chan>, clients: map<Id, Client>) {
    (forall t | t in places :: t in clients) && (forall c | c in chans :: c in clients)
  }

  ghost predicate ClientsOk(cfg: Config, s: State) {
    forall c | c in s.clients ::
      && TaskOk(c, s.clients[c], s.places, s.accepted)
      && PhaseOk(cfg, s.clients[c], s.word, |s.workers|)
      && SpawnOk(c, s.clients[c], s.workers)
  }

  ghost predicate Inv(cfg: Config, s: State) {
    && WordOk(cfg, s.word, |s.workers|) && QueueOk(s.queue, s.places) && HeldOk(s.workers, s.places)
    && CancelOk(s.clients, s.places) && ResultsOk(s.places, s.accepted, s.outcomes)
    && UndecidedOk(s.queue, s.accepted, s.clients) && LeavingOk(s.workers, s.word)
    && AwakeOk(s.queue, s.accepted, s.workers, s.word) && MutexOk(s.mutex, s.clients)
    && ChansOk(s.chans, s.terminations, s.clients, s.mutex, s.word) && ClientsOk(cfg, s)
    && OwnedOk(s.places, s.chans, s.clients)
  }

  // ---------------------------------------------------------------------------------------------
  // A call that only moves on
  // ---------------------------------------------------------------------------------------------

  ghost predicate ClientOk(cfg: Config, s: State, c: Id, pc: Client) {
    TaskOk(c, pc, s.places, s.accepted) && PhaseOk(cfg, pc, s.word, |s.workers|) && SpawnOk(c, pc, s.workers)
  }

  /** `c` may go on to `pc'` as far as the other parts of the state are concerned. */
  ghost predicate Quiet(s: State, c: Id, pc': Client) {
    && c in s.clients && QuietPc(s.clients[c], pc')
    && (Deciding(s.clients[c]) ==> Deciding(pc') || c !in s.queue || c in s.accepted)
  }

  /** The cancelled task, the mutex and the channel of the call are not concerned. */
  predicate QuietPc(pc: Client, pc': Client) {
    && Cancelling(pc') == Cancelling(pc) && HoldsMutex(pc') == HoldsMutex(pc) && Unrecorded(pc') == Unrecorded(pc)
    && !pc.TrySend?
  }

  lemma MoveCancel(clients: map<Id, Client>, places: map<Id, Place>, c: Id, pc': Client)
    requires CancelOk(clients, places)
    requires Cancelling(pc') == if c in clients then Cancelling(clients[c]) else None
    ensures CancelOk(clients[c := pc'], places)
  {
  }

  lemma MoveUndecided(queue: seq<Id>, accepted: set<Id>, clients: map<Id, Client>, c: Id, pc': Client)
    requires UndecidedOk(queue, accepted, clients) && (c in queue && c !in accepted ==> Deciding(pc'))
    ensures UndecidedOk(queue, accepted, clients[c := pc'])
  {
  }

  lemma MoveMutex(mutex: Option<Id>, clients: map<Id, Client>, c: Id, pc': Client)
    requires MutexOk(mutex, clients) && (HoldsMutex(pc') <==> c in clients && HoldsMutex(clients[c]))
    ensures MutexOk(mutex, clients[c := pc'])
  {
  }

  lemma MoveChans(s: State, c: Id, pc': Client, word: int)
    requires ChansOk(s.chans, s.terminations, s.clients, s.mutex, s.word) && (IsTerminated(word) <==> IsTerminated(s.word))
    requires (Unrecorded(pc') <==> c in s.clients && Unrecorded(s.clients[c]))
    requires c in s.clients ==> !s.clients[c].TrySend?
    ensures ChansOk(s.chans, s.terminations, s.clients[c := pc'], s.mutex, word)
  {
  }

  lemma MoveClients(cfg: Config, s: State, c: Id, pc': Client)
    requires ClientsOk(cfg, s) && ClientOk(cfg, s, c, pc')
    ensures ClientsOk(cfg, At(s, c, pc'))
  {
  }

  lemma MoveOk(cfg: Config, s: State, c: Id, pc': Client)
    requires Inv(cfg, s) && Quiet(s, c, pc') && ClientOk(cfg, s, c, pc')
    ensures Inv(cfg, At(s, c, pc'))
  {
    MoveCancel(s.clients, s.places, c, pc');
    MoveUndecided(s.queue, s.accepted, s.clients, c, pc');
    MoveMutex(s.mutex, s.clients, c, pc');
    MoveChans(s, c, pc', s.word);
    MoveClients(cfg, s, c, pc');
  }

  // ---------------------------------------------------------------------------------------------
  // What the others notice of a step
  // ---------------------------------------------------------------------------------------------

  predicate Busy(place: Place) {
    place.InQueue? || place.AtWorker? || place.Finished?
  }

  /** Only the call that acts, if any, gets a decision about its task, and the tasks of other calls move
      only after they left their Submit call. */
  ghost predicate PlacesMove(s: State, s': State, actor: Option<Id>) {
    && s.accepted <= s'.accepted && (forall d | d in s'.accepted && d !in s.accepted :: actor == Some(d))
    && forall d | d in s.places && actor != Some(d) ::
         d in s'.places && (s'.places[d] == s.places[d] || d in s.accepted || (Busy(s.places[d]) && Busy(s'.places[d])))
  }

  /** The run state only moves on, and a pool that is shut down only shrinks. */
  predicate WordMove(word: int, n: nat, word': int, n': nat) {
    && (IsShutdown(word) ==> IsShutdown(word') && n' <= n) && (IsTerminated(word) ==> IsTerminated(word'))
  }

  /** TERMINATED is only entered by the holder of the mutex. */
  ghost predicate TerminateMove(s: State, s': State, actor: Option<Id>) {
    (IsTerminated(s'.word) <==> IsTerminated(s.word)) || (actor.Some? && s.mutex == actor)
  }

  /** Only the acting call starts the workers that wait for it. */
  ghost predicate SpawnMove(s: State, s': State, actor: Option<Id>) {
    forall w | w in s.workers && s.workers[w].Starting? && actor != Some(s.workers[w].starter) ::
      w in s'.workers && s'.workers[w] == s.workers[w]
  }

  /** What a step may do to the state as far as the calls that do not take it are concerned. */
  ghost predicate Fair(s: State, s': State, actor: Option<Id>) {
    && PlacesMove(s, s', actor) && WordMove(s.word, |s.workers|, s'.word, |s'.workers|)
    && TerminateMove(s, s', actor) && SpawnMove(s, s', actor)
  }

  lemma OtherOk(cfg: Config, s: State, s': State, actor: Option<Id>, d: Id)
    requires d in s.clients && actor != Some(d) && ClientOk(cfg, s, d, s.clients[d]) && MutexOk(s.mutex, s.clients)
    requires Fair(s, s', actor)
    ensures ClientOk(cfg, s', d, s.clients[d])
  {
  }

  /** The calls after a step in which `c` goes to `pc'`. */
  lemma ClientsMove(cfg: Config, s: State, s': State, c: Id, pc': Client)
    requires ClientsOk(cfg, s) && MutexOk(s.mutex, s.clients) && s'.clients == s.clients[c := pc']
    requires Fair(s, s', Some(c)) && ClientOk(cfg, s', c, pc')
    ensures ClientsOk(cfg, s')
  {
    forall d | d in s'.clients ensures ClientOk(cfg, s', d, s'.clients[d]) {
      if d != c {
        assert ClientOk(cfg, s, d, s.clients[d]);
        OtherOk(cfg, s, s', Some(c), d);
      }
    }
  }

  /** The calls after a step of a worker. */
  lemma ClientsStay(cfg: Config, s: State, s': State)
    requires ClientsOk(cfg, s) && MutexOk(s.mutex, s.clients) && s'.clients == s.clients
    requires Fair(s, s', None)
    ensures ClientsOk(cfg, s')
  {
    forall d | d in s'.clients ensures ClientOk(cfg, s', d, s'.clients[d]) {
      assert ClientOk(cfg, s, d, s.clients[d]);
      OtherOk(cfg, s, s', None, d);
    }
  }

  // ---------------------------------------------------------------------------------------------
  // Single writes
  // ---------------------------------------------------------------------------------------------

  /** The word is what the packed representation promises: the count does not reach the run state. */
  lemma CountOk(cfg: Config, word: int, n: nat)
    requires cfg.Valid() && WordOk(cfg, word, n)
    ensures WorkerCount(word) == n && RunState(word) == word - n && (n + 1) % WORD == n + 1
    ensures IsRunning(word) <==> RunState(word) == RUNNING
    ensures IsTerminated(word) <==> RunState(word) == TERMINATED
  {
  }

  /** A task changes its place, neither of them the queue. */
  lemma PutQueue(queue: seq<Id>, places: map<Id, Place>, t: Id, place: Place)
    requires QueueOk(queue, places) && !place.InQueue? && (t in places ==> !places[t].InQueue?)
    ensures QueueOk(queue, places[t := place])
  {
  }

  lemma PutHeld(workers: map<Id, Worker>, places: map<Id, Place>, t: Id, place: Place)
    requires HeldOk(workers, places) && !place.AtWorker? && (t in places ==> !places[t].AtWorker?)
    ensures HeldOk(workers, places[t := place])
  {
  }

  lemma PutCancel(clients: map<Id, Client>, places: map<Id, Place>, t: Id, place: Place)
    requires CancelOk(clients, places) && !place.AtCancel? && (t in places ==> !places[t].AtCancel?)
    ensures CancelOk(clients, places[t := place])
  {
  }

  lemma PutResults(places: map<Id, Place>, accepted: set<Id>, outcomes: map<Id, Outcome>, t: Id, place: Place)
    requires ResultsOk(places, accepted, outcomes) && !place.Finished? && (t in places ==> !places[t].Finished?)
    requires t in accepted ==> !place.AtSubmit? && !place.Rejected?
    requires place.AtCancel? ==> t in accepted
    ensures ResultsOk(places[t := place], accepted, outcomes)
  {
  }

  // ---------------------------------------------------------------------------------------------
  // Submit
  // ---------------------------------------------------------------------------------------------

  lemma SubmitPcOk(cfg: Config, s: State, c: Id, pc': Client)
    requires c in s.clients && (s.clients[c].SubmitLoad? || s.clients[c].SubmitReload?) && ClientOk(cfg, s, c, s.clients[c])
    requires pc' == AddWorker(cfg.minSize, Some(c), FromMin) || pc' == Push
             || (pc' == AddWorker(cfg.maxSize, Some(c), FromMax) && IsShutdown(s.word))
    ensures Quiet(s, c, pc') && ClientOk(cfg, s, c, pc')
  {
  }

  lemma DecideOk(cfg: Config, s: State, c: Id)
    requires Inv(cfg, s) && c in s.clients && (s.clients[c].SubmitLoad? || s.clients[c].SubmitReload?)
    ensures Inv(cfg, Decide(cfg, s, c))
  {
    var pc' := if IsRunning(s.word) then Push else AddWorker(cfg.maxSize, Some(c), FromMax);
    SubmitPcOk(cfg, s, c, pc');
    MoveOk(cfg, s, c, pc');
  }

  lemma SubmitOk(cfg: Config, s: State, c: Id)
    requires Inv(cfg, s) && c in s.clients && s.clients[c].SubmitLoad?
    ensures Inv(cfg, SubmitStep(cfg, s, c))
  {
    if WorkerCount(s.word) < cfg.minSize {
      SubmitPcOk(cfg, s, c, AddWorker(cfg.minSize, Some(c), FromMin));
      MoveOk(cfg, s, c, AddWorker(cfg.minSize, Some(c), FromMin));
    } else {
      DecideOk(cfg, s, c);
    }
  }

  /** A Submit call gives its task up before the queue has it. */
  lemma RejectFair(cfg: Config, s: State, c: Id)
    requires InHand(c, s.places, s.accepted)
    ensures Fair(s, Reject(s, c), Some(c)) && ClientOk(cfg, Reject(s, c), c, Returned(false))
  {
  }

  lemma RejectOk(cfg: Config, s: State, c: Id)
    requires Inv(cfg, s) && c in s.clients && InHand(c, s.places, s.accepted)
    requires Quiet(s, c, Returned(false))
    ensures Inv(cfg, Reject(s, c))
  {
    var s' := Reject(s, c);
    PutQueue(s.queue, s.places, c, Rejected);
    PutHeld(s.workers, s.places, c, Rejected);
    PutCancel(s.clients, s.places, c, Rejected);
    PutResults(s.places, s.accepted, s.outcomes, c, Rejected);
    MoveCancel(s.clients, s'.places, c, Returned(false));
    MoveUndecided(s.queue, s.accepted, s.clients, c, Returned(false));
    MoveMutex(s.mutex, s.clients, c, Returned(false));
    MoveChans(s, c, Returned(false), s.word);
    RejectFair(cfg, s, c);
    ClientsMove(cfg, s, s', c, Returned(false));
  }

  /** Where addWorker goes after it loaded the state. */
  function AddWorkerNext(s: State, pc: Client): Client
    requires pc.AddWorker?
  {
    if !IsShutdown(s.word) && WorkerCount(s.word) + 1 <= pc.limit then AddWorkerCas(s.word, pc.limit, pc.first, pc.ret)
    else match pc.ret
         case FromMin => SubmitReload
         case FromMax => Returned(false)
         case FromAddTask => TaskCheck
         case FromTerminate => Gone
  }

  lemma AddWorkerPcOk(cfg: Config, s: State, c: Id)
    requires cfg.Valid() && WordOk(cfg, s.word, |s.workers|)
    requires c in s.clients && s.clients[c].AddWorker? && ClientOk(cfg, s, c, s.clients[c])
    ensures var pc' := AddWorkerNext(s, s.clients[c]);
            && AddWorkerStep(s, c) == (if pc'.Returned? then Reject(s, c) else At(s, c, pc'))
            && Quiet(s, c, pc') && (if pc'.Returned? then InHand(c, s.places, s.accepted) else ClientOk(cfg, s, c, pc'))
  {
    CountOk(cfg, s.word, |s.workers|);
  }

  lemma AddWorkerOk(cfg: Config, s: State, c: Id)
    requires cfg.Valid() && Inv(cfg, s) && c in s.clients && s.clients[c].AddWorker?
    ensures Inv(cfg, AddWorkerStep(s, c))
  {
    AddWorkerPcOk(cfg, s, c);
    var pc' := AddWorkerNext(s, s.clients[c]);
    if pc'.Returned? { RejectOk(cfg, s, c); } else { MoveOk(cfg, s, c, pc'); }
  }
}
