/** What every run of Load and Dispatch comes to. */
module DataLoaderRuns {
  import opened Wrappers
  import opened DataLoaderBatches
  import opened DataLoaderQueue

  lemma {:induction false} RunOk(cfg: Config, run: seq<State>, events: seq<Event>, k: nat)
    requires IsRun(cfg, run, events) && k < |run|
    ensures Inv(cfg, run[k])
  {
    if k > 0 {
      RunOk(cfg, run, events, k - 1);
      NextOk(cfg, run[k - 1], events[k - 1]);
    }
  }

  // ---------------------------------------------------------------------------------------------
  // Conservation
  // ---------------------------------------------------------------------------------------------

  /** A sequence of batches in which `t` is at position `i` of batch `b`. */
  predicate InBatch<T(==)>(parts: seq<seq<T>>, t: T, b: nat, i: nat) {
    b < |parts| && i < |parts[b]| && parts[b][i] == t
  }

  ghost predicate Distinct<T>(q: seq<T>) {
    forall i, j | 0 <= i < j < |q| :: q[i] != q[j]
  }

  lemma {:induction false} InSomeBatch<T>(parts: seq<seq<T>>, t: T) returns (b: nat, i: nat)
    requires t in Concat(parts)
    ensures InBatch(parts, t, b, i)
  {
    if t in parts[0] {
      b := 0;
      i :| 0 <= i < |parts[0]| && parts[0][i] == t;
    } else {
      b, i := InSomeBatch(parts[1..], t);
      b := b + 1;
    }
  }

  lemma {:induction false} InConcat<T>(parts: seq<seq<T>>, t: T, b: nat, i: nat)
    requires InBatch(parts, t, b, i)
    ensures t in Concat(parts)
  {
    if b > 0 {
      InConcat(parts[1..], t, b - 1, i);
    }
  }

  lemma {:induction false} InOneBatch<T>(parts: seq<seq<T>>, t: T, b: nat, i: nat, c: nat, j: nat)
    requires Distinct(Concat(parts)) && InBatch(parts, t, b, i) && InBatch(parts, t, c, j)
    ensures b == c && i == j
  {
    var rest := Concat(parts[1..]);
    var q := Concat(parts);
    assert q == parts[0] + rest;
    if b == 0 && c == 0 {
      assert q[i] == q[j];
    } else if b > 0 && c > 0 {
      assert forall m | 0 <= m < |rest| :: rest[m] == q[|parts[0]| + m];
      InOneBatch(parts[1..], t, b - 1, i, c - 1, j);
    } else {
      DistinctParts(parts[0], rest, t);
      InConcat(parts[1..], t, if b == 0 then c - 1 else b - 1, if b == 0 then j else i);
    }
  }

  lemma DistinctParts<T>(p: seq<T>, q: seq<T>, t: T)
    requires Distinct(p + q) && t in p
    ensures t !in q
  {
    var m :| 0 <= m < |p| && p[m] == t;
    assert (p + q)[m] == t;
    forall n | 0 <= n < |q| ensures q[n] != t {
      assert (p + q)[|p| + n] == q[n];
    }
  }

  /** The call `c`, and no other, has detached queue `q`. */
  ghost predicate OnlyOwner(s: State, q: nat, c: Id) {
    c < |s.calls| && OwnsQueue(s.calls[c], q) && forall d | 0 <= d < |s.calls| && OwnsQueue(s.calls[d], q) :: d == c
  }

  /** Task `t` is at one place of the queues, and there alone. */
  ghost predicate OnlyAt(s: State, t: Id, q: nat, i: nat) {
    && InBatch(s.queues, t, q, i)
    && forall r, j | 0 <= r < |s.queues| && 0 <= j < |s.queues[r]| && s.queues[r][j] == t :: r == q && j == i
  }

  /** An enqueued task is in one queue, once. Unless that queue is the loader's, exactly one Dispatch has
      detached it, and when that has split the queue the task is in one of its batches, once. */
  lemma Conservation(cfg: Config, run: seq<State>, events: seq<Event>, k: nat, q: nat, i: nat) returns (c: Id)
    requires IsRun(cfg, run, events) && k < |run| && q < |run[k].queues| && i < |run[k].queues[q]|
    ensures var s := run[k]; var t := s.queues[q][i];
            && OnlyAt(s, t, q, i)
            && (q != s.current ==>
                  && OnlyOwner(s, q, c)
                  && (s.calls[c].Dispatched? ==>
                        exists b, j :: InBatch(s.calls[c].jobs, t, b, j)
                          && forall b', j' | InBatch(s.calls[c].jobs, t, b', j') :: b' == b && j' == j))
  {
    RunOk(cfg, run, events, k);
    var s := run[k];
    var t := s.queues[q][i];
    c := 0;
    if q != s.current {
      c := s.owners[q];
      if s.calls[c].Dispatched? {
        var jobs := s.calls[c].jobs;
        assert JobsOk(cfg, s.queues, s.calls[c]);
        BatchesPartition(s.queues[q], cfg.maxBatchSize);
        QueueDistinct(cfg, s, q);
        var b, j := InSomeBatch(jobs, t);
        forall b': nat, j': nat | InBatch(jobs, t, b', j') ensures b' == b && j' == j {
          InOneBatch(jobs, t, b', j', b, j);
        }
      }
    }
  }

  lemma QueueDistinct(cfg: Config, s: State, q: nat)
    requires Inv(cfg, s) && q < |s.queues|
    ensures Distinct(s.queues[q])
  {
    assert forall i | 0 <= i < |s.queues[q]| :: s.spots[s.queues[q][i]] == (q, i);
  }

  /** The batches of a Dispatch that is done are its queue in order: all but the last are full, and none
      is empty. */
  lemma DispatchedBatches(cfg: Config, run: seq<State>, events: seq<Event>, k: nat, c: Id)
    requires IsRun(cfg, run, events) && k < |run| && c < |run[k].calls| && run[k].calls[c].Dispatched?
    ensures var s := run[k]; var jobs := s.calls[c].jobs; var q := s.calls[c].queue;
            && q < s.current < |s.queues| && Concat(jobs) == s.queues[q] && jobs != []
            && (forall b | b in jobs :: b != [])
            && (if cfg.maxBatchSize == 0 then |jobs| == 1
                else |jobs[|jobs| - 1]| <= cfg.maxBatchSize
                     && forall b | 0 <= b < |jobs| - 1 :: |jobs[b]| == cfg.maxBatchSize)
  {
    RunOk(cfg, run, events, k);
    var s := run[k];
    assert JobsOk(cfg, s.queues, s.calls[c]) && Owns(s.calls[c]);
    BatchesPartition(s.queues[s.calls[c].queue], cfg.maxBatchSize);
  }

  lemma QueueMoves(cfg: Config, s: State, ev: Event, q: nat)
    requires Inv(cfg, s) && Enabled(s, ev) && q < s.current
    ensures var s' := Next(cfg, s, ev); q < s'.current && s'.queues[q] == s.queues[q]
  {
    if ev.Step? {
      assert PushOk(s, s.calls[ev.c]);
    }
  }

  lemma QueueStays(cfg: Config, run: seq<State>, events: seq<Event>, k: nat, q: nat)
    requires IsRun(cfg, run, events) && k < |events| && q < run[k].current
    ensures run[k].current < |run[k].queues| && q < run[k + 1].current < |run[k + 1].queues|
    ensures run[k + 1].queues[q] == run[k].queues[q]
  {
    RunOk(cfg, run, events, k);
    RunOk(cfg, run, events, k + 1);
    var ev := events[k];
    QueueMoves(cfg, run[k], ev, q);
  }

  /** Nothing is appended to a queue once it is detached. */
  lemma {:induction false} DetachedQueueIsFrozen(cfg: Config, run: seq<State>, events: seq<Event>, j: nat, k: nat, q: nat)
    requires IsRun(cfg, run, events) && j <= k < |run| && q < run[j].current
    ensures q < run[j].current < |run[j].queues| && q < run[k].current < |run[k].queues|
    ensures run[k].queues[q] == run[j].queues[q]
    decreases k
  {
    if j < k {
      DetachedQueueIsFrozen(cfg, run, events, j, k - 1, q);
      QueueStays(cfg, run, events, k - 1, q);
    } else {
      RunOk(cfg, run, events, k);
    }
  }

  // ---------------------------------------------------------------------------------------------
  // The cache
  // ---------------------------------------------------------------------------------------------

  /** A call is about to enqueue the task. */
  ghost predicate AboutToPush(s: State, t: Id) {
    exists c :: 0 <= c < |s.calls| && s.calls[c].LoadPush? && s.calls[c].task == t
  }

  /** The task for `key` was enqueued, is about to be, or was primed. */
  ghost predicate Stands(s: State, t: Id, key: Key) {
    t < |s.tasks| && s.tasks[t] == key && (t in s.spots || t in s.primed || AboutToPush(s, t))
  }

  predicate Returns(call: Call) { call.LoadUnlock? || call.Loaded? }

  ghost predicate CacheOk(s: State) {
    forall key | key in s.cache :: Stands(s, s.cache[key], key)
  }

  ghost predicate ReturnsOk(s: State) {
    && PushKeysOk(s)
    && forall c | 0 <= c < |s.calls| && Returns(s.calls[c]) :: Stands(s, s.calls[c].task, s.calls[c].key)
  }

  /** Tasks, spots and primed tasks only become more, and a task that was about to be pushed still is, or
      was pushed. */
  ghost predicate Grows(s: State, s': State) {
    && s.tasks <= s'.tasks && s.spots.Keys <= s'.spots.Keys && s.primed <= s'.primed
    && forall c | 0 <= c < |s.calls| && s.calls[c].LoadPush? ::
         (c < |s'.calls| && s'.calls[c] == s.calls[c]) || s.calls[c].task in s'.spots
  }

  lemma StandsGrows(s: State, s': State, t: Id, key: Key)
    requires Grows(s, s') && Stands(s, t, key)
    ensures Stands(s', t, key)
  {
    if AboutToPush(s, t) {
      var c :| 0 <= c < |s.calls| && s.calls[c].LoadPush? && s.calls[c].task == t;
      if t !in s'.spots { assert s'.calls[c] == s.calls[c]; }
    }
  }

  lemma LoadGrows(cfg: Config, s: State, c: Id)
    requires StepEnabled(s, c) && IsLoad(s.calls[c])
    ensures Grows(s, LoadStep(cfg, s, c))
  {
  }

  lemma DispatchGrows(cfg: Config, s: State, c: Id)
    requires StepEnabled(s, c) && !IsLoad(s.calls[c])
    ensures Grows(s, DispatchStep(cfg, s, c))
  {
  }

  lemma NextGrows(cfg: Config, s: State, ev: Event)
    requires Enabled(s, ev)
    ensures Grows(s, Next(cfg, s, ev))
  {
    if ev.Step? {
      if IsLoad(s.calls[ev.c]) { LoadGrows(cfg, s, ev.c); } else { DispatchGrows(cfg, s, ev.c); }
    }
  }

  /** A task that a Load puts into the cache is about to be pushed. */
  lemma LoadCaches(cfg: Config, s: State, c: Id, key: Key)
    requires StepEnabled(s, c) && IsLoad(s.calls[c])
    ensures var s' := LoadStep(cfg, s, c);
            key in s'.cache ==> if key in s.cache then s'.cache[key] == s.cache[key] else Stands(s', s'.cache[key], key)
  {
    var s' := LoadStep(cfg, s, c);
    if s.calls[c].LoadSet? && s'.calls[c].LoadPush? {
      assert s'.calls[c].task == |s.tasks|;
    }
  }

  lemma DispatchCaches(cfg: Config, s: State, c: Id)
    requires StepEnabled(s, c) && !IsLoad(s.calls[c])
    ensures DispatchStep(cfg, s, c).cache == s.cache
  {
  }

  /** An entry of the cache is one that was there, a new task that is about to be pushed, or a primed one. */
  lemma CacheMoves(cfg: Config, s: State, ev: Event)
    requires Enabled(s, ev) && CacheOk(s)
    ensures CacheOk(Next(cfg, s, ev))
  {
    var s' := Next(cfg, s, ev);
    NextGrows(cfg, s, ev);
    forall key | key in s'.cache ensures Stands(s', s'.cache[key], key) {
      if key in s.cache { StandsGrows(s, s', s.cache[key], key); }
      if ev.Step? {
        if IsLoad(s.calls[ev.c]) { LoadCaches(cfg, s, ev.c, key); } else { DispatchCaches(cfg, s, ev.c); }
      }
    }
  }

  ghost predicate PushKeysOk(s: State) {
    forall c | 0 <= c < |s.calls| && s.calls[c].LoadPush? ::
      s.calls[c].task < |s.tasks| && s.tasks[s.calls[c].task] == s.calls[c].key
  }

  lemma PushKeys(cfg: Config, s: State, ev: Event)
    requires Enabled(s, ev) && PushKeysOk(s)
    ensures PushKeysOk(Next(cfg, s, ev))
  {
    if ev.Step? {
      if IsLoad(s.calls[ev.c]) { PushKeysLoad(cfg, s, ev.c); } else { PushKeysDispatch(cfg, s, ev.c); }
    }
  }

  lemma PushKeysLoad(cfg: Config, s: State, c: Id)
    requires StepEnabled(s, c) && IsLoad(s.calls[c]) && PushKeysOk(s)
    ensures PushKeysOk(LoadStep(cfg, s, c))
  {
  }

  lemma PushKeysDispatch(cfg: Config, s: State, c: Id)
    requires StepEnabled(s, c) && !IsLoad(s.calls[c]) && PushKeysOk(s)
    ensures PushKeysOk(DispatchStep(cfg, s, c))
  {
  }

  /** A Load returns a task of the cache, or the one that it pushed. */
  lemma LoadReturns(cfg: Config, s: State, c: Id)
    requires StepEnabled(s, c) && IsLoad(s.calls[c]) && CacheOk(s) && ReturnsOk(s) && Returns(LoadStep(cfg, s, c).calls[c])
    ensures var call := LoadStep(cfg, s, c).calls[c];
            Stands(s, call.task, call.key)
  {
    if s.calls[c].LoadPush? { assert AboutToPush(s, s.calls[c].task); }
  }

  lemma CallsStay(cfg: Config, s: State, ev: Event, c: Id)
    requires Enabled(s, ev) && c < |Next(cfg, s, ev).calls| && ev != Step(c) && Returns(Next(cfg, s, ev).calls[c])
    ensures c < |s.calls| && Next(cfg, s, ev).calls[c] == s.calls[c]
  {
  }

  lemma DispatchReturnsNothing(cfg: Config, s: State, c: Id)
    requires StepEnabled(s, c) && !IsLoad(s.calls[c])
    ensures !Returns(DispatchStep(cfg, s, c).calls[c])
  {
  }

  lemma ReturnsMove(cfg: Config, s: State, ev: Event)
    requires Enabled(s, ev) && CacheOk(s) && ReturnsOk(s)
    ensures ReturnsOk(Next(cfg, s, ev))
  {
    var s' := Next(cfg, s, ev);
    PushKeys(cfg, s, ev);
    NextGrows(cfg, s, ev);
    forall c | 0 <= c < |s'.calls| && Returns(s'.calls[c]) ensures Stands(s', s'.calls[c].task, s'.calls[c].key) {
      if ev != Step(c) {
        CallsStay(cfg, s, ev, c);
      } else if IsLoad(s.calls[c]) {
        LoadReturns(cfg, s, c);
      } else {
        DispatchReturnsNothing(cfg, s, c);
      }
      StandsGrows(s, s', s'.calls[c].task, s'.calls[c].key);
    }
  }

  lemma {:induction false} RunReturnsOk(cfg: Config, run: seq<State>, events: seq<Event>, k: nat)
    requires IsRun(cfg, run, events) && k < |run|
    ensures CacheOk(run[k]) && ReturnsOk(run[k])
  {
    if k > 0 {
      RunReturnsOk(cfg, run, events, k - 1);
      RunOk(cfg, run, events, k - 1);
      CacheMoves(cfg, run[k - 1], events[k - 1]);
      ReturnsMove(cfg, run[k - 1], events[k - 1]);
    }
  }

  /** A Load returns a task for its key which is enqueued or was primed, unless the call that made the
      task is still inside the lock. */
  lemma LoadedTaskIsEnqueued(cfg: Config, run: seq<State>, events: seq<Event>, k: nat, c: Id)
    requires IsRun(cfg, run, events) && k < |run| && c < |run[k].calls| && run[k].calls[c].Loaded?
    ensures var s := run[k]; var t := s.calls[c].task;
            && t < |s.tasks| && s.tasks[t] == s.calls[c].key
            && (s.mutex == None ==> t in s.primed || exists q :: 0 <= q < |s.queues| && t in s.queues[q])
  {
    RunOk(cfg, run, events, k);
    RunReturnsOk(cfg, run, events, k);
    var s := run[k];
    var t := s.calls[c].task;
    assert Stands(s, t, s.calls[c].key);
    if s.mutex == None {
      assert !AboutToPush(s, t);
      if t in s.spots { assert t in s.queues[s.spots[t].0]; }
    }
  }

  /** Without Clear, what is enqueued or about to be is what the cache holds. */
  ghost predicate CachedOk(s: State) {
    && (forall t | t in s.spots :: t < |s.tasks| && s.tasks[t] in s.cache && s.cache[s.tasks[t]] == t)
    && (forall c | 0 <= c < |s.calls| && s.calls[c].LoadPush? ::
          && s.calls[c].task < |s.tasks| && s.tasks[s.calls[c].task] in s.cache
          && s.cache[s.tasks[s.calls[c].task]] == s.calls[c].task)
  }

  lemma CachedPush(cfg: Config, s: State, c: Id)
    requires StepEnabled(s, c) && s.calls[c].LoadPush? && CachedOk(s)
    ensures CachedOk(LoadStep(cfg, s, c))
  {
    assert forall t | t in LoadStep(cfg, s, c).spots :: t in s.spots || t == s.calls[c].task;
  }

  lemma CachedStep(cfg: Config, s: State, c: Id)
    requires StepEnabled(s, c) && !s.calls[c].LoadPush? && CachedOk(s) && cfg.caching
    ensures CachedOk(Next(cfg, s, Step(c)))
  {
  }

  lemma CachedMoves(cfg: Config, s: State, ev: Event)
    requires Enabled(s, ev) && CachedOk(s) && cfg.caching && !ev.Clear?
    ensures CachedOk(Next(cfg, s, ev))
  {
    if ev.Step? {
      if s.calls[ev.c].LoadPush? { CachedPush(cfg, s, ev.c); } else { CachedStep(cfg, s, ev.c); }
    }
  }

  lemma {:induction false} RunCachedOk(cfg: Config, run: seq<State>, events: seq<Event>, k: nat)
    requires IsRun(cfg, run, events) && k < |run| && cfg.caching && forall ev | ev in events :: !ev.Clear?
    ensures CachedOk(run[k])
  {
    if k > 0 {
      RunCachedOk(cfg, run, events, k - 1);
      CachedMoves(cfg, run[k - 1], events[k - 1]);
    }
  }

  /** With the cache on and no Clear, no key is enqueued twice. */
  lemma KeysAreLoadedOnce(cfg: Config, run: seq<State>, events: seq<Event>, k: nat, q: nat, i: nat, r: nat, j: nat)
    requires IsRun(cfg, run, events) && k < |run| && cfg.caching && forall ev | ev in events :: !ev.Clear?
    requires q < |run[k].queues| && i < |run[k].queues[q]| && r < |run[k].queues| && j < |run[k].queues[r]|
    ensures var s := run[k]; var t := s.queues[q][i]; var u := s.queues[r][j];
            t < |s.tasks| && u < |s.tasks| && (s.tasks[t] == s.tasks[u] ==> q == r && i == j)
  {
    RunOk(cfg, run, events, k);
    RunCachedOk(cfg, run, events, k);
    var s := run[k];
    assert s.spots[s.queues[q][i]] == (q, i) && s.spots[s.queues[r][j]] == (r, j);
  }
}
