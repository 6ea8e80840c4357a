/**
 The worker-pool executor (concurrent/worker_pool_executor.go) with its default queue, as a step
 machine: every atomic load, compare-and-swap and mutex section is one step, and the steps of any
 number of callers and workers interleave freely.
 */
module WorkerPool {
  import opened Wrappers

  // ---------------------------------------------------------------------------------------------
  // The packed state word
  // ---------------------------------------------------------------------------------------------

  const WORD: int := 0x1_0000_0000

  /** The run states, as the high half of the word. */
  const RUNNING: int := -WORD
  const SHUTDOWN: int := 0
  const TERMINATED: int := WORD

  /** The high half of the word: `s & 0xffffffff00000000` on a 64-bit two's complement number. */
  function RunState(word: int): int {
    word - word % WORD
  }

  /** The low half of the word. */
  function WorkerCount(word: int): (n: nat)
    ensures n < WORD
  {
    word % WORD
  }

  /** `runState | workerCount`. */
  function MakeState(runState: int, workerCount: nat): int
    requires runState % WORD == 0 && workerCount < WORD
  {
    runState + workerCount
  }

  predicate IsRunning(word: int) { word < 0 }

  predicate IsShutdown(word: int) { word >= SHUTDOWN }

  predicate IsTerminated(word: int) { word >= TERMINATED }

  // ---------------------------------------------------------------------------------------------
  // State
  // ---------------------------------------------------------------------------------------------

  type Id = nat // of a call or of a worker; a task has the id of the Submit call that made it

  /** The two pool sizes: a validated configuration whose MinPoolSize + 1 does not wrap. */
  datatype Config = Config(minSize: nat, maxSize: nat) {
    ghost predicate Valid() {
      0 < maxSize < WORD && minSize <= maxSize && minSize < WORD - 1
    }
  }

  datatype Worker =
    | Starting(first: Option<Id>, starter: Id) // counted, its goroutine not yet created by that call
    | Running(task: Id)
    | PollLoad // pollTask: load the state
    | PollEmpty(shutdown: bool) // pollTask: ask whether the queue is empty
    | PollDec // pollTask: decrement the worker count and leave
    | PollTake // Queue.Poll: enter the mutex section
    | Waiting // blocked in cond.Wait
    | Woken // out of cond.Wait, about to look at the queue again

  /** Who called addWorker. */
  datatype Ret = FromMin | FromMax | FromAddTask | FromTerminate

  /** What follows a tryTerminate. */
  datatype Then = Leave | SetCancelled(task: Id)

  datatype Client =
    | SubmitLoad // Submit: load the state
    | SubmitReload
    | AddWorker(limit: nat, first: Option<Id>, ret: Ret) // addWorker: load the state
    | AddWorkerCas(state: int, limit: nat, first: Option<Id>, ret: Ret)
    | Spawn(w: Id, ret: Ret) // addWorker: start the goroutine
    | Push // addTask: Queue.Push
    | TaskCheck // addTask: load the state
    | TaskRemove // addTask: Queue.Remove
    | Returned(ok: bool)
    | ShutLock // Shutdown: executor.mutex.Lock()
    | ShutLoad // Shutdown: SetRunState(SHUTDOWN)
    | ShutCas(state: int)
    | ShutRecord(prev: int) // Shutdown: note or fill the termination channel
    | ShutClose // Shutdown: Queue.Close
    | ShutUnlock
    | TryLoad(after: Then) // tryTerminate: load the state
    | TryEmpty(state: int, after: Then) // tryTerminate: ask whether the queue is empty
    | TryLock(after: Then) // tryTerminate: executor.mutex.Lock()
    | TrySetLoad(after: Then) // tryTerminate: SetRunState(TERMINATED)
    | TrySetCas(state: int, after: Then)
    | TrySend(after: Then) // tryTerminate: send the termination signals and unlock
    | CancelRemove(task: Id) // cancelTask: Queue.Remove
    | SetResult(task: Id) // Cancel: setResult
    | ExitLoad // terminateWorker: load the state
    | ExitReplace(state: int) // terminateWorker: the executor still runs
    | Gone

  /** Where a task is. */
  datatype Place = AtSubmit | InQueue | AtWorker(w: Id) | AtCancel(c: Id) | Finished | Rejected

  datatype Outcome = Ran | Cancelled

  /** The channel that a Shutdown call returns. */
  datatype Chan = Unlisted | Listed | Signalled

  /** `places` and `accepted` record history: where each task went, and which Submit calls succeed. */
  datatype State = State(
    word: int,
    queue: seq<Id>,
    closed: bool, // pollCond is nil
    mutex: Option<Id>, // executor.mutex
    terminations: seq<Id>,
    workers: map<Id, Worker>,
    clients: map<Id, Client>,
    places: map<Id, Place>,
    accepted: set<Id>,
    outcomes: map<Id, Outcome>,
    chans: map<Id, Chan>)

  // ---------------------------------------------------------------------------------------------
  // Steps of a caller
  // ---------------------------------------------------------------------------------------------

  function At(s: State, c: Id, pc: Client): State {
    s.(clients := s.clients[c := pc])
  }

  function Accept(s: State, c: Id): State {
    s.(accepted := s.accepted + {c})
  }

  function Put(s: State, t: Id, place: Place): State {
    s.(places := s.places[t := place])
  }

  function Reject(s: State, c: Id): State {
    At(Put(s, c, Rejected), c, Returned(false))
  }

  /** Submit after the minimum pool size is ensured. */
  function Decide(cfg: Config, s: State, c: Id): State {
    At(s, c, if IsRunning(s.word) then Push else AddWorker(cfg.maxSize, Some(c), FromMax))
  }

  function SubmitStep(cfg: Config, s: State, c: Id): State {
    if WorkerCount(s.word) < cfg.minSize then At(s, c, AddWorker(cfg.minSize, Some(c), FromMin))
    else Decide(cfg, s, c)
  }

  /** addWorker returned an error. */
  function AddFailed(s: State, c: Id, ret: Ret): State {
    match ret
    case FromMin => At(s, c, SubmitReload)
    case FromMax => Reject(s, c)
    case FromAddTask => At(s, c, TaskCheck)
    case FromTerminate => At(s, c, Gone)
  }

  function AddWorkerStep(s: State, c: Id): State
    requires c in s.clients && s.clients[c].AddWorker?
  {
    var pc := s.clients[c];
    if IsShutdown(s.word) then AddFailed(s, c, pc.ret)
    else if (WorkerCount(s.word) + 1) % WORD > pc.limit then AddFailed(s, c, pc.ret)
    else At(s, c, AddWorkerCas(s.word, pc.limit, pc.first, pc.ret))
  }

  /** CompareAndIncWorkerCount; `w` names the new worker. */
  function AddWorkerCasStep(s: State, c: Id, w: Id): State
    requires c in s.clients && s.clients[c].AddWorkerCas?
  {
    var pc := s.clients[c];
    if s.word != pc.state then At(s, c, AddWorker(pc.limit, pc.first, pc.ret))
    else
      var s1 := At(s.(word := s.word + 1, workers := s.workers[w := Starting(pc.first, c)]), c, Spawn(w, pc.ret));
      var s2 := if pc.first.Some? then Put(s1, pc.first.value, AtWorker(w)) else s1;
      if pc.ret.FromTerminate? then s2 else Accept(s2, c)
  }

  function SpawnStep(s: State, c: Id): State
    requires c in s.clients && s.clients[c].Spawn? && s.clients[c].w in s.workers
  {
    var pc := s.clients[c];
    var started := match s.workers[pc.w]
      case Starting(Some(t), _) => Running(t)
      case _ => PollLoad;
    At(s.(workers := s.workers[pc.w := started]), c, if pc.ret.FromTerminate? then Gone else Returned(true))
  }

  /** Queue.Push: signals one waiting worker, `pick`, when the queue was empty. */
  function PushStep(s: State, c: Id, pick: Id): State {
    if s.closed then Reject(s, c)
    else
      var s1 := At(Put(s.(queue := s.queue + [c]), c, InQueue), c, TaskCheck);
      if s.queue == [] && pick in s.workers && s.workers[pick].Waiting?
      then s1.(workers := s.workers[pick := Woken]) else s1
  }

  function TaskCheckStep(s: State, c: Id): State {
    if !IsRunning(s.word) then At(s, c, TaskRemove)
    else if WorkerCount(s.word) == 0 then At(s, c, AddWorker(1, None, FromAddTask))
    else Accept(At(s, c, Returned(true)), c)
  }

  /** `q` with the first occurrence of `t` taken out. */
  function Without<T(==)>(q: seq<T>, t: T): seq<T> {
    if q == [] then [] else if q[0] == t then q[1..] else [q[0]] + Without(q[1..], t)
  }

  function TaskRemoveStep(s: State, c: Id): State {
    if c in s.queue then Reject(s.(queue := Without(s.queue, c)), c)
    else Accept(At(s, c, Returned(true)), c)
  }

  /** Shutdown, up to the call of tryTerminate. */
  function ShutdownStep(s: State, c: Id): State
    requires c in s.clients
    requires var pc := s.clients[c];
             pc.ShutLock? || pc.ShutLoad? || pc.ShutCas? || pc.ShutRecord? || pc.ShutClose? || pc.ShutUnlock?
  {
    match s.clients[c]
    case ShutLock => At(s.(mutex := Some(c)), c, ShutLoad)
    case ShutLoad => At(s, c, if s.word >= SHUTDOWN then ShutRecord(s.word) else ShutCas(s.word))
    case ShutCas(state) =>
      if s.word == state then
        At(s.(word := MakeState(SHUTDOWN, WorkerCount(state))), c, ShutRecord(state))
      else At(s, c, ShutLoad)
    case ShutRecord(prev) =>
      if IsTerminated(prev) then At(s.(chans := s.chans[c := Signalled]), c, ShutUnlock)
      else
        At(s.(chans := s.chans[c := Listed], terminations := s.terminations + [c]), c,
           if IsRunning(prev) then ShutClose else ShutUnlock)
    case ShutClose => At(Close(s), c, ShutUnlock)
    case ShutUnlock => At(s.(mutex := None), c, TryLoad(Leave))
  }

  /** Queue.Close wakes every waiting worker. */
  function Close(s: State): State {
    if s.closed then s
    else s.(closed := true, workers := map w | w in s.workers ::
              if s.workers[w].Waiting? then Woken else s.workers[w])
  }

  function AfterTry(s: State, c: Id, after: Then): State {
    At(s, c, if after.SetCancelled? then SetResult(after.task) else Gone)
  }

  /** tryTerminate. */
  function TryStep(s: State, c: Id): State
    requires c in s.clients
    requires var pc := s.clients[c];
             pc.TryLoad? || pc.TryEmpty? || pc.TryLock? || pc.TrySetLoad? || pc.TrySetCas? || pc.TrySend?
  {
    match s.clients[c]
    case TryLoad(after) =>
      if !IsShutdown(s.word) || IsTerminated(s.word) then AfterTry(s, c, after)
      else At(s, c, TryEmpty(s.word, after))
    case TryEmpty(state, after) =>
      if s.queue != [] || WorkerCount(state) > 0 then AfterTry(s, c, after) else At(s, c, TryLock(after))
    case TryLock(after) => At(s.(mutex := Some(c)), c, TrySetLoad(after))
    case TrySetLoad(after) => At(s, c, if s.word >= TERMINATED then TrySend(after) else TrySetCas(s.word, after))
    case TrySetCas(state, after) =>
      if s.word == state then
        At(s.(word := MakeState(TERMINATED, WorkerCount(state))), c, TrySend(after))
      else At(s, c, TrySetLoad(after))
    case TrySend(after) =>
      AfterTry(s.(terminations := [], mutex := None, chans := map d | d in s.chans ::
                    if d in s.terminations then Signalled else s.chans[d]), c, after)
  }

  /** Cancel, except for its tryTerminate. */
  function CancelStep(s: State, c: Id): State
    requires c in s.clients && (s.clients[c].CancelRemove? || s.clients[c].SetResult?)
  {
    match s.clients[c]
    case CancelRemove(t) =>
      if t in s.queue then
        At(Put(s.(queue := Without(s.queue, t)), t, AtCancel(c)), c, TryLoad(SetCancelled(t)))
      else At(s, c, Gone)
    case SetResult(t) => At(Put(s.(outcomes := s.outcomes[t := Cancelled]), t, Finished), c, Gone)
  }

  /** terminateWorker, in the goroutine of a worker that left the pool. */
  function ExitStep(cfg: Config, s: State, c: Id): State
    requires c in s.clients && (s.clients[c].ExitLoad? || s.clients[c].ExitReplace?)
  {
    match s.clients[c]
    case ExitLoad => At(s, c, if IsShutdown(s.word) then TryLoad(Leave) else ExitReplace(s.word))
    case ExitReplace(state) =>
      var limit := if cfg.minSize == 0 && s.queue != [] then 1 else cfg.minSize;
      At(s, c, if limit < WorkerCount(state) then AddWorker(limit, None, FromTerminate) else Gone)
  }

  // ---------------------------------------------------------------------------------------------
  // Steps of a worker
  // ---------------------------------------------------------------------------------------------

  function AtW(s: State, w: Id, pc: Worker): State {
    s.(workers := s.workers[w := pc])
  }

  /** The mutex section of Queue.Poll, before the wait or after it. */
  function TakeStep(s: State, w: Id): State
    requires w in s.workers
  {
    if s.queue != [] then
      AtW(Put(s.(queue := s.queue[1..]), s.queue[0], AtWorker(w)), w, Running(s.queue[0]))
    else AtW(s, w, if s.workers[w].PollTake? && !s.closed then Waiting else PollLoad)
  }

  /** One step of worker `w`; a worker that leaves goes on as call `exit`. */
  function WorkerStep(s: State, w: Id, exit: Id): State
    requires w in s.workers && !s.workers[w].Starting? && !s.workers[w].Waiting?
  {
    match s.workers[w]
    case Running(t) => AtW(Put(s.(outcomes := s.outcomes[t := Ran]), t, Finished), w, PollLoad)
    case PollLoad => AtW(s, w, PollEmpty(IsShutdown(s.word)))
    case PollEmpty(shutdown) => AtW(s, w, if shutdown && s.queue == [] then PollDec else PollTake)
    case PollDec => At(s.(word := s.word - 1, workers := s.workers - {w}), exit, ExitLoad)
    case PollTake => TakeStep(s, w)
    case Woken => TakeStep(s, w)
  }

  // ---------------------------------------------------------------------------------------------
  // Runs
  // ---------------------------------------------------------------------------------------------

  datatype Event =
    | CallSubmit(c: Id)
    | CallShutdown(c: Id)
    | CallCancel(c: Id, task: Id) // on the handle of a task that Submit returned
    | ClientStep(c: Id, pick: Id)
    | PoolStep(w: Id, exit: Id)

  predicate IsShutdownPc(pc: Client) {
    pc.ShutLock? || pc.ShutLoad? || pc.ShutCas? || pc.ShutRecord? || pc.ShutClose? || pc.ShutUnlock?
  }

  predicate IsTryPc(pc: Client) {
    pc.TryLoad? || pc.TryEmpty? || pc.TryLock? || pc.TrySetLoad? || pc.TrySetCas? || pc.TrySend?
  }

  /** `c` takes a step; `pick` is a new worker's id, or the waiting worker that Push wakes. */
  ghost predicate ClientNext(cfg: Config, s: State, c: Id, pick: Id, s': State)
    requires c in s.clients
  {
    var pc := s.clients[c];
    if pc.SubmitLoad? then s' == SubmitStep(cfg, s, c)
    else if pc.SubmitReload? then s' == Decide(cfg, s, c)
    else if pc.AddWorker? then s' == AddWorkerStep(s, c)
    else if pc.AddWorkerCas? then pick !in s.workers && s' == AddWorkerCasStep(s, c, pick)
    else if pc.Spawn? then pc.w in s.workers && s' == SpawnStep(s, c)
    else if pc.Push? then
      && ((exists w :: w in s.workers && s.workers[w].Waiting?) ==> pick in s.workers && s.workers[pick].Waiting?)
      && s' == PushStep(s, c, pick)
    else if pc.TaskCheck? then s' == TaskCheckStep(s, c)
    else if pc.TaskRemove? then s' == TaskRemoveStep(s, c)
    else if IsShutdownPc(pc) then (pc.ShutLock? ==> s.mutex == None) && s' == ShutdownStep(s, c)
    else if IsTryPc(pc) then (pc.TryLock? ==> s.mutex == None) && s' == TryStep(s, c)
    else if pc.CancelRemove? || pc.SetResult? then s' == CancelStep(s, c)
    else (pc.ExitLoad? || pc.ExitReplace?) && s' == ExitStep(cfg, s, c)
  }

  ghost predicate Next(cfg: Config, s: State, ev: Event, s': State) {
    match ev
    case CallSubmit(c) => c !in s.clients && s' == At(Put(s, c, AtSubmit), c, SubmitLoad)
    case CallShutdown(c) => c !in s.clients && s' == At(s.(chans := s.chans[c := Unlisted]), c, ShutLock)
    case CallCancel(c, t) =>
      && c !in s.clients && t in s.clients && s.clients[t] == Returned(true)
      && s' == At(s, c, CancelRemove(t))
    case ClientStep(c, pick) => c in s.clients && ClientNext(cfg, s, c, pick, s')
    case PoolStep(w, exit) =>
      && w in s.workers && !s.workers[w].Starting? && !s.workers[w].Waiting?
      && exit !in s.clients && s' == WorkerStep(s, w, exit)
  }

  ghost predicate Init(s: State) {
    s == State(MakeState(RUNNING, 0), [], false, None, [], map[], map[], map[], {}, map[], map[])
  }
}
