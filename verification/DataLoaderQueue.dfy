/**
 Load and Dispatch of the data loader (dataloader/dataloader.go) as a step machine: accesses to the
 cache, the lock and what happens under the lock are steps, and any number of calls interleave.
 */
module DataLoaderQueue {
  import opened Wrappers
  import opened DataLoaderBatches

  type Key = nat
  type Id = nat // of a task or of a call: its position in `tasks` or `calls`

  datatype Config = Config(maxBatchSize: nat, caching: bool)

  datatype Call =
    | LoadGet(key: Key) // look the key up in the cache
    | LoadLock(key: Key)
    | LoadSet(key: Key) // Enqueue: create a task and try to cache it
    | LoadPush(key: Key, task: Id, queue: nat) // Enqueue: append the task
    | LoadUnlock(key: Key, task: Id)
    | Loaded(key: Key, task: Id)
    | DispatchRead // read loader.queue, without the lock
    | DispatchLock(queue: nat)
    | DispatchCheck(queue: nat) // detach the queue unless another call did or it is empty
    | DispatchLeave
    | DispatchUnlock(queue: nat)
    | Splitting(queue: nat, pos: nat, jobs: seq<seq<Id>>) // hand out the next batch
    | Dispatched(queue: nat, jobs: seq<seq<Id>>)
    | NotDispatched

  /** A queue is its position in `queues`; `owners` records which call detached a queue, `spots` where in
      the queues a task was put, and `primed` the tasks that were made complete and never enqueued. */
  datatype State = State(
    queues: seq<seq<Id>>,
    current: nat, // loader.queue
    mutex: Option<Id>,
    cache: map<Key, Id>,
    tasks: seq<Key>,
    calls: seq<Call>,
    owners: seq<Id>,
    spots: map<Id, (nat, nat)>,
    primed: set<Id>)

  function Initial(): State {
    State([[]], 0, None, map[], [], [], [], map[], {})
  }

  datatype Event =
    | CallLoad(key: Key)
    | CallDispatch
    | Prime(key: Key)
    | Clear(key: Key)
    | Step(c: Id)

  function At(s: State, c: Id, call: Call): State
    requires c < |s.calls|
  {
    s.(calls := s.calls[c := call])
  }

  predicate StepEnabled(s: State, c: Id) {
    && c < |s.calls| && s.current < |s.queues|
    && match s.calls[c]
       case LoadLock(_) => s.mutex == None
       case DispatchLock(_) => s.mutex == None
       case LoadPush(_, _, q) => q < |s.queues|
       case Splitting(q, pos, _) => q < |s.queues| && pos < |s.queues[q]|
       case Loaded(_, _) => false
       case Dispatched(_, _) => false
       case NotDispatched => false
       case _ => true
  }

  function LoadStep(cfg: Config, s: State, c: Id): State
    requires StepEnabled(s, c)
    requires var call := s.calls[c];
             call.LoadGet? || call.LoadLock? || call.LoadSet? || call.LoadPush? || call.LoadUnlock?
  {
    match s.calls[c]
    case LoadGet(key) =>
      if cfg.caching && key in s.cache then At(s, c, Loaded(key, s.cache[key])) else At(s, c, LoadLock(key))
    case LoadLock(key) => At(s.(mutex := Some(c)), c, LoadSet(key))
    case LoadSet(key) =>
      if cfg.caching && key in s.cache then At(s, c, LoadUnlock(key, s.cache[key]))
      else
        var task := |s.tasks|;
        var s1 := s.(tasks := s.tasks + [key], cache := if cfg.caching then s.cache[key := task] else s.cache);
        At(s1, c, LoadPush(key, task, s.current))
    case LoadPush(key, task, q) => 
      At(s.(queues := s.queues[q := s.queues[q] + [task]], spots := s.spots[task := (q, |s.queues[q]|)]), c,
         LoadUnlock(key, task))
    case LoadUnlock(key, task) => At(s.(mutex := None), c, Loaded(key, task))
  }

  /** The end of the next batch. */
  function BatchEnd(cfg: Config, pos: nat, size: nat): (end: nat)
    requires pos < size
    ensures pos < end <= size
  {
    if cfg.maxBatchSize == 0 || size - pos <= cfg.maxBatchSize then size else pos + cfg.maxBatchSize
  }

  function DispatchStep(cfg: Config, s: State, c: Id): State
    requires StepEnabled(s, c)
    requires var call := s.calls[c];
             call.DispatchRead? || call.DispatchLock? || call.DispatchCheck? || call.DispatchLeave?
             || call.DispatchUnlock? || call.Splitting?
  {
    match s.calls[c]
    case DispatchRead => At(s, c, DispatchLock(s.current))
    case DispatchLock(q) => At(s.(mutex := Some(c)), c, DispatchCheck(q))
    case DispatchCheck(q) =>
      if q != s.current || s.queues[s.current] == [] then At(s, c, DispatchLeave)
      else
        At(s.(current := |s.queues|, queues := s.queues + [[]], owners := s.owners + [c]), c, DispatchUnlock(q))
    case DispatchLeave => At(s.(mutex := None), c, NotDispatched)
    case DispatchUnlock(q) => At(s.(mutex := None), c, Splitting(q, 0, []))
    case Splitting(q, pos, jobs) =>
      var end := BatchEnd(cfg, pos, |s.queues[q]|);
      var jobs' := jobs + [s.queues[q][pos..end]];
      At(s, c, if end == |s.queues[q]| then Dispatched(q, jobs') else Splitting(q, end, jobs'))
  }

  predicate Enabled(s: State, ev: Event) {
    ev.Step? ==> StepEnabled(s, ev.c)
  }

  predicate IsLoad(call: Call) {
    call.LoadGet? || call.LoadLock? || call.LoadSet? || call.LoadPush? || call.LoadUnlock?
  }

  function Next(cfg: Config, s: State, ev: Event): State
    requires Enabled(s, ev)
  {
    match ev
    case CallLoad(key) => s.(calls := s.calls + [LoadGet(key)])
    case CallDispatch => s.(calls := s.calls + [DispatchRead])
    case Prime(key) =>
      if cfg.caching && key !in s.cache then
        s.(tasks := s.tasks + [key], cache := s.cache[key := |s.tasks|], primed := s.primed + {|s.tasks|})
      else s
    case Clear(key) => s.(cache := s.cache - {key})
    case Step(c) => if IsLoad(s.calls[c]) then LoadStep(cfg, s, c) else DispatchStep(cfg, s, c)
  }

  ghost predicate IsRun(cfg: Config, run: seq<State>, events: seq<Event>) {
    && |run| == |events| + 1 && run[0] == Initial()
    && forall k {:trigger events[k]} | 0 <= k < |events| :: Enabled(run[k], events[k]) && run[k + 1] == Next(cfg, run[k], events[k])
  }

  // ---------------------------------------------------------------------------------------------
  // The invariant
  // ---------------------------------------------------------------------------------------------

  predicate HoldsMutex(call: Call) {
    call.LoadSet? || call.LoadPush? || call.LoadUnlock? || call.DispatchCheck? || call.DispatchLeave? || call.DispatchUnlock?
  }

  ghost predicate MutexOk(mutex: Option<Id>, calls: seq<Call>) {
    forall c :: mutex == Some(c) <==> 0 <= c < |calls| && HoldsMutex(calls[c])
  }

  /** The call has detached `call.queue`. */
  predicate Owns(call: Call) {
    call.DispatchUnlock? || call.Splitting? || call.Dispatched?
  }

  predicate OwnsQueue(call: Call, q: nat) {
    Owns(call) && call.queue == q
  }

  /** The loader's queue is the newest, and every other queue belongs to one Dispatch. */
  ghost predicate OwnersOk(s: State) {
    && |s.queues| == s.current + 1 && |s.owners| == s.current
    && (forall q: nat | q < s.current :: s.owners[q] < |s.calls| && OwnsQueue(s.calls[s.owners[q]], q) && s.queues[q] != [])
    && (forall c | 0 <= c < |s.calls| && Owns(s.calls[c]) :: s.calls[c].queue < s.current && s.owners[s.calls[c].queue] == c)
  }

  /** The recorded spots are right, so no task is twice in the queues. */
  ghost predicate SpotsOk(queues: seq<seq<Id>>, spots: map<Id, (nat, nat)>, n: nat) {
    && (forall q, i | 0 <= q < |queues| && 0 <= i < |queues[q]| :: queues[q][i] in spots && spots[queues[q][i]] == (q, i))
    && (forall t | t in spots :: t < n && spots[t].0 < |queues| && spots[t].1 < |queues[spots[t].0]|
                                 && queues[spots[t].0][spots[t].1] == t)
  }

  /** A task that is about to be appended is in no queue, and goes to the loader's queue. */
  predicate PushOk(s: State, call: Call) {
    call.LoadPush? ==> call.queue == s.current && call.task < |s.tasks| && call.task !in s.spots
  }

  /** The batches handed out so far, with those still to come, are the batches of the queue. */
  predicate JobsOk(cfg: Config, queues: seq<seq<Id>>, call: Call) {
    match call
    case Splitting(q, pos, jobs) =>
      && q < |queues| && pos < |queues[q]|
      && Batches(queues[q], cfg.maxBatchSize) == jobs + Batches(queues[q][pos..], cfg.maxBatchSize)
    case Dispatched(q, jobs) => q < |queues| && jobs == Batches(queues[q], cfg.maxBatchSize)
    case _ => true
  }

  ghost predicate CallsOk(cfg: Config, s: State) {
    forall c | 0 <= c < |s.calls| :: PushOk(s, s.calls[c]) && JobsOk(cfg, s.queues, s.calls[c])
  }

  ghost predicate Inv(cfg: Config, s: State) {
    MutexOk(s.mutex, s.calls) && OwnersOk(s) && SpotsOk(s.queues, s.spots, |s.tasks|) && CallsOk(cfg, s)
  }

  // ---------------------------------------------------------------------------------------------
  // Every step keeps it
  // ---------------------------------------------------------------------------------------------

  lemma MoveOwners(s: State, c: Id, call: Call)
    requires OwnersOk(s) && c < |s.calls| && Owns(call) == Owns(s.calls[c]) && (Owns(call) ==> call.queue == s.calls[c].queue)
    ensures OwnersOk(At(s, c, call))
  {
  }

  lemma MoveCalls(cfg: Config, s: State, c: Id, call: Call)
    requires CallsOk(cfg, s) && c < |s.calls| && PushOk(s, call) && JobsOk(cfg, s.queues, call)
    ensures CallsOk(cfg, At(s, c, call))
  {
    var s' := At(s, c, call);
    forall d | 0 <= d < |s'.calls| ensures PushOk(s', s'.calls[d]) && JobsOk(cfg, s'.queues, s'.calls[d]) {
      assert PushOk(s, s.calls[d]) && JobsOk(cfg, s.queues, s.calls[d]);
    }
  }

  lemma MoveMutex(mutex: Option<Id>, calls: seq<Call>, c: Id, call: Call, mutex': Option<Id>)
    requires MutexOk(mutex, calls) && c < |calls| && (mutex == None || mutex == Some(c) || mutex' == mutex)
    requires if mutex' == mutex then HoldsMutex(call) == HoldsMutex(calls[c]) else mutex' == if HoldsMutex(call) then Some(c) else None
    ensures MutexOk(mutex', calls[c := call])
  {
  }

  /** A call moves on, with or without the lock. */
  lemma MoveOk(cfg: Config, s: State, c: Id, call: Call, mutex': Option<Id>)
    requires Inv(cfg, s) && c < |s.calls| && PushOk(s, call) && JobsOk(cfg, s.queues, call)
    requires Owns(call) == Owns(s.calls[c]) && (Owns(call) ==> call.queue == s.calls[c].queue)
    requires s.mutex == None || s.mutex == Some(c) || mutex' == s.mutex
    requires if mutex' == s.mutex then HoldsMutex(call) == HoldsMutex(s.calls[c])
             else mutex' == if HoldsMutex(call) then Some(c) else None
    ensures Inv(cfg, At(s.(mutex := mutex'), c, call))
  {
    MoveOwners(s, c, call);
    MoveCalls(cfg, s, c, call);
    MoveMutex(s.mutex, s.calls, c, call, mutex');
  }

  /** A new task, cached or not, touches no queue. */
  lemma CreateOk(cfg: Config, s: State, c: Id, key: Key)
    requires Inv(cfg, s) && StepEnabled(s, c) && s.calls[c] == LoadSet(key)
    ensures Inv(cfg, LoadStep(cfg, s, c))
  {
    if cfg.caching && key in s.cache {
      MoveOk(cfg, s, c, LoadUnlock(key, s.cache[key]), s.mutex);
    } else {
      var task := |s.tasks|;
      var call := LoadPush(key, task, s.current);
      var s' := LoadStep(cfg, s, c);
      MoveOwners(s, c, call);
      MoveMutex(s.mutex, s.calls, c, call, s.mutex);
      forall d | 0 <= d < |s'.calls| ensures PushOk(s', s'.calls[d]) && JobsOk(cfg, s'.queues, s'.calls[d]) {
        assert PushOk(s, s.calls[d]) && JobsOk(cfg, s.queues, s.calls[d]);
      }
    }
  }

  lemma PushSpots(queues: seq<seq<Id>>, spots: map<Id, (nat, nat)>, n: nat, q: nat, task: Id)
    requires SpotsOk(queues, spots, n) && q < |queues| && task !in spots && task < n
    ensures SpotsOk(queues[q := queues[q] + [task]], spots[task := (q, |queues[q]|)], n)
  {
  }

  /** Only the holder of the lock appends, and only to the loader's queue, which no Dispatch splits. */
  lemma PushTaskOk(cfg: Config, s: State, c: Id)
    requires Inv(cfg, s) && StepEnabled(s, c) && s.calls[c].LoadPush?
    ensures Inv(cfg, LoadStep(cfg, s, c))
  {
    var task, q := s.calls[c].task, s.calls[c].queue;
    var s' := LoadStep(cfg, s, c);
    assert PushOk(s, s.calls[c]);
    PushSpots(s.queues, s.spots, |s.tasks|, q, task);
    var call := LoadUnlock(s.calls[c].key, task);
    MoveOwners(s, c, call);
    assert OwnersOk(s');
    MoveMutex(s.mutex, s.calls, c, call, s.mutex);
    forall d | 0 <= d < |s'.calls| ensures PushOk(s', s'.calls[d]) && JobsOk(cfg, s'.queues, s'.calls[d]) {
      assert PushOk(s, s.calls[d]) && JobsOk(cfg, s.queues, s.calls[d]);
      if d != c {
        assert !s.calls[d].LoadPush? by { assert HoldsMutex(s.calls[c]); }
        assert (s.calls[d].Splitting? || s.calls[d].Dispatched?) ==> Owns(s.calls[d]);
      }
    }
  }

  lemma LoadStepOk(cfg: Config, s: State, c: Id)
    requires Inv(cfg, s) && StepEnabled(s, c) && IsLoad(s.calls[c])
    ensures Inv(cfg, LoadStep(cfg, s, c))
  {
    match s.calls[c]
    case LoadGet(key) =>
      MoveOk(cfg, s, c, if cfg.caching && key in s.cache then Loaded(key, s.cache[key]) else LoadLock(key), s.mutex);
    case LoadLock(key) => MoveOk(cfg, s, c, LoadSet(key), Some(c));
    case LoadSet(key) => CreateOk(cfg, s, c, key);
    case LoadPush(_, _, _) => PushTaskOk(cfg, s, c);
    case LoadUnlock(key, task) => MoveOk(cfg, s, c, Loaded(key, task), None);
  }

  /** A Dispatch that finds its queue still in place detaches it. */
  lemma DetachOk(cfg: Config, s: State, c: Id)
    requires Inv(cfg, s) && StepEnabled(s, c) && s.calls[c] == DispatchCheck(s.current) && s.queues[s.current] != []
    ensures Inv(cfg, DispatchStep(cfg, s, c))
  {
    var q := s.current;
    var s' := DispatchStep(cfg, s, c);
    assert OwnersOk(s');
    MoveMutex(s.mutex, s.calls, c, DispatchUnlock(q), s.mutex);
    forall d | 0 <= d < |s'.calls| ensures PushOk(s', s'.calls[d]) && JobsOk(cfg, s'.queues, s'.calls[d]) {
      assert PushOk(s, s.calls[d]) && JobsOk(cfg, s.queues, s.calls[d]);
      assert HoldsMutex(s.calls[c]);
    }
  }

  lemma NextJob(cfg: Config, all: seq<seq<Id>>, q: seq<Id>, pos: nat, jobs: seq<seq<Id>>)
    requires pos < |q| && all == jobs + Batches(q[pos..], cfg.maxBatchSize)
    ensures var end := BatchEnd(cfg, pos, |q|); var jobs' := jobs + [q[pos..end]];
            all == if end == |q| then jobs' else jobs' + Batches(q[end..], cfg.maxBatchSize)
  {
    var end := BatchEnd(cfg, pos, |q|);
    if end < |q| {
      NextBatch(all, q, jobs, pos, cfg.maxBatchSize);
    } else {
      assert q[pos..end] == q[pos..];
      LastBatch(q[pos..], cfg.maxBatchSize);
    }
  }

  lemma SplitOk(cfg: Config, s: State, c: Id)
    requires Inv(cfg, s) && StepEnabled(s, c) && s.calls[c].Splitting?
    ensures Inv(cfg, DispatchStep(cfg, s, c))
  {
    assert JobsOk(cfg, s.queues, s.calls[c]);
    var call := s.calls[c];
    NextJob(cfg, Batches(s.queues[call.queue], cfg.maxBatchSize), s.queues[call.queue], call.pos, call.jobs);
    MoveOk(cfg, s, c, DispatchStep(cfg, s, c).calls[c], s.mutex);
  }

  lemma DispatchStepOk(cfg: Config, s: State, c: Id)
    requires Inv(cfg, s) && StepEnabled(s, c) && !IsLoad(s.calls[c])
    ensures Inv(cfg, DispatchStep(cfg, s, c))
  {
    var call := s.calls[c];
    if call.DispatchRead? {
      MoveOk(cfg, s, c, DispatchLock(s.current), s.mutex);
    } else if call.DispatchLock? {
      MoveOk(cfg, s, c, DispatchCheck(call.queue), Some(c));
    } else if call.DispatchCheck? {
      if call.queue != s.current || s.queues[s.current] == [] {
        MoveOk(cfg, s, c, DispatchLeave, s.mutex);
      } else {
        DetachOk(cfg, s, c);
      }
    } else if call.DispatchLeave? {
      MoveOk(cfg, s, c, NotDispatched, None);
    } else if call.DispatchUnlock? {
      UnlockOk(cfg, s, c);
    } else {
      SplitOk(cfg, s, c);
    }
  }

  lemma UnlockOk(cfg: Config, s: State, c: Id)
    requires Inv(cfg, s) && StepEnabled(s, c) && s.calls[c].DispatchUnlock?
    ensures Inv(cfg, DispatchStep(cfg, s, c))
  {
    var q := s.calls[c].queue;
    assert Owns(s.calls[c]);
    assert s.queues[q][0..] == s.queues[q];
    assert [] + Batches(s.queues[q], cfg.maxBatchSize) == Batches(s.queues[q], cfg.maxBatchSize);
    MoveOk(cfg, s, c, Splitting(q, 0, []), None);
  }

  lemma NextOk(cfg: Config, s: State, ev: Event)
    requires Inv(cfg, s) && Enabled(s, ev)
    ensures Inv(cfg, Next(cfg, s, ev))
  {
    match ev
    case CallLoad(key) => NewCallOk(cfg, s, LoadGet(key));
    case CallDispatch => NewCallOk(cfg, s, DispatchRead);
    case Prime(key) => PrimeOk(cfg, s, key);
    case Clear(key) =>
    case Step(c) => if IsLoad(s.calls[c]) { LoadStepOk(cfg, s, c); } else { DispatchStepOk(cfg, s, c); }
  }

  lemma NewCallOk(cfg: Config, s: State, call: Call)
    requires Inv(cfg, s) && (call.LoadGet? || call.DispatchRead?)
    ensures Inv(cfg, s.(calls := s.calls + [call]))
  {
    var s' := s.(calls := s.calls + [call]);
    forall d | 0 <= d < |s'.calls| ensures PushOk(s', s'.calls[d]) && JobsOk(cfg, s'.queues, s'.calls[d]) {
      assert d < |s.calls| ==> PushOk(s, s.calls[d]) && JobsOk(cfg, s.queues, s.calls[d]);
    }
  }

  lemma PrimeOk(cfg: Config, s: State, key: Key)
    requires Inv(cfg, s)
    ensures Inv(cfg, Next(cfg, s, Prime(key)))
  {
    var s' := Next(cfg, s, Prime(key));
    forall d | 0 <= d < |s'.calls| ensures PushOk(s', s'.calls[d]) && JobsOk(cfg, s'.queues, s'.calls[d]) {
      assert PushOk(s, s.calls[d]) && JobsOk(cfg, s.queues, s.calls[d]);
    }
  }
}
