/** The steps of the worker pool that write shared state keep the invariant. */
module WorkerPoolSteps {
  import opened Wrappers
  import opened WorkerPool
  import opened WorkerPoolProof

  // ---------------------------------------------------------------------------------------------
  // addWorker
  // ---------------------------------------------------------------------------------------------

  lemma HireHeld(workers: map<Id, Worker>, places: map<Id, Place>, c: Id, w: Id, first: Option<Id>)
    requires HeldOk(workers, places) && w !in workers
    requires first.Some? ==> first.value in places && places[first.value] == AtSubmit
    ensures HeldOk(workers[w := Starting(first, c)], if first.Some? then places[first.value := AtWorker(w)] else places)
  {
  }

  lemma AcceptResults(places: map<Id, Place>, accepted: set<Id>, outcomes: map<Id, Outcome>, c: Id)
    requires ResultsOk(places, accepted, outcomes) && c in places && Busy(places[c])
    ensures ResultsOk(places, accepted + {c}, outcomes)
  {
  }

  lemma AcceptUndecided(queue: seq<Id>, accepted: set<Id>, clients: map<Id, Client>, c: Id, pc': Client)
    requires UndecidedOk(queue, accepted, clients)
    ensures UndecidedOk(queue, accepted + {c}, clients[c := pc'])
  {
  }

  /** The parts of the invariant about the workers, after a hire. */
  lemma HireWorkers(s: State, c: Id, w: Id, first: Option<Id>, accepted: set<Id>)
    requires LeavingOk(s.workers, s.word) && IsRunning(s.word) && w !in s.workers
    ensures var workers := s.workers[w := Starting(first, c)];
            && |workers| == |s.workers| + 1 && LeavingOk(workers, s.word + 1)
            && AwakeOk(s.queue, accepted, workers, s.word + 1)
  {
    var workers := s.workers[w := Starting(first, c)];
    assert workers.Keys == s.workers.Keys + {w};
    assert Awake(workers[w]);
  }

  lemma HirePcOk(cfg: Config, s: State, c: Id, w: Id)
    requires c in s.clients && s.clients[c].AddWorkerCas? && ClientOk(cfg, s, c, s.clients[c]) && w !in s.workers
    requires s.word == s.clients[c].state && WordOk(cfg, s.word, |s.workers|) && cfg.Valid()
    requires WordOk(cfg, s.word + 1, |s.workers| + 1) ==> |s.workers[w := Starting(s.clients[c].first, c)]| == |s.workers| + 1
    ensures var pc := s.clients[c]; var s' := AddWorkerCasStep(s, c, w);
            && s' == s.(word := s.word + 1, workers := s.workers[w := Starting(pc.first, c)],
                        places := if pc.first.Some? then s.places[c := AtWorker(w)] else s.places,
                        accepted := s.accepted + {c}, clients := s.clients[c := Spawn(w, pc.ret)])
            && WordOk(cfg, s.word + 1, |s.workers| + 1) && IsRunning(s.word) && IsRunning(s.word + 1)
            && Quiet(s.(accepted := s.accepted + {c}), c, Spawn(w, pc.ret)) && ClientOk(cfg, s', c, Spawn(w, pc.ret))
            && Fair(s, s', Some(c))
            && c in s.places
            && ((pc.first == None && Busy(s.places[c])) || (pc.first == Some(c) && s.places[c] == AtSubmit))
  {
    CountOk(cfg, s.word, |s.workers|);
    HireState(cfg, s, c, w);
  }

  /** The state after a new worker was counted. */
  lemma HireState(cfg: Config, s: State, c: Id, w: Id)
    requires c in s.clients && s.clients[c].AddWorkerCas? && ClientOk(cfg, s, c, s.clients[c]) && s.word == s.clients[c].state
    ensures var pc := s.clients[c]; var s' := AddWorkerCasStep(s, c, w);
            && s' == s.(word := s.word + 1, workers := s.workers[w := Starting(pc.first, c)],
                        places := if pc.first.Some? then s.places[c := AtWorker(w)] else s.places,
                        accepted := s.accepted + {c}, clients := s.clients[c := Spawn(w, pc.ret)])
  {
  }

  /** The task that a new worker starts with leaves its Submit call; a queued task stays where it is. */
  lemma HireTasks(s: State, c: Id, w: Id, first: Option<Id>)
    requires QueueOk(s.queue, s.places) && HeldOk(s.workers, s.places) && CancelOk(s.clients, s.places)
    requires ResultsOk(s.places, s.accepted, s.outcomes) && w !in s.workers && c in s.places
    requires (first == None && Busy(s.places[c])) || (first == Some(c) && s.places[c] == AtSubmit)
    ensures var places := if first.Some? then s.places[c := AtWorker(w)] else s.places;
            && QueueOk(s.queue, places) && HeldOk(s.workers[w := Starting(first, c)], places)
            && CancelOk(s.clients, places) && ResultsOk(places, s.accepted + {c}, s.outcomes)
  {
    HireHeld(s.workers, s.places, c, w, first);
    if first.Some? {
      PutQueue(s.queue, s.places, c, AtWorker(w));
      PutCancel(s.clients, s.places, c, AtWorker(w));
      PutResults(s.places, s.accepted, s.outcomes, c, AtWorker(w));
      AcceptResults(s.places[c := AtWorker(w)], s.accepted, s.outcomes, c);
    } else {
      AcceptResults(s.places, s.accepted, s.outcomes, c);
    }
  }

  lemma HireOk(cfg: Config, s: State, c: Id, w: Id)
    requires cfg.Valid() && Inv(cfg, s) && c in s.clients && s.clients[c].AddWorkerCas? && w !in s.workers
    requires s.word == s.clients[c].state
    ensures Inv(cfg, AddWorkerCasStep(s, c, w))
  {
    var pc := s.clients[c];
    var pc' := Spawn(w, pc.ret);
    var s' := AddWorkerCasStep(s, c, w);
    assert ClientOk(cfg, s, c, pc);
    HireWorkers(s, c, w, pc.first, s.accepted + {c});
    HirePcOk(cfg, s, c, w);
    HireTasks(s, c, w, pc.first);
    MoveCancel(s.clients, s'.places, c, pc');
    AcceptUndecided(s.queue, s.accepted, s.clients, c, pc');
    MoveMutex(s.mutex, s.clients, c, pc');
    MoveChans(s, c, pc', s.word + 1);
    ClientsMove(cfg, s, s', c, pc');
  }

  // ---------------------------------------------------------------------------------------------
  // One worker changes
  // ---------------------------------------------------------------------------------------------

  /** Worker `w` goes on to `pc'`, holding the same task, and only falls asleep or leaves when no task
      is queued. */
  ghost predicate QuietWorker(s: State, w: Id, pc': Worker) {
    && w in s.workers && Held(pc') == Held(s.workers[w])
    && (pc'.PollDec? || pc' == PollEmpty(true) ==> IsShutdown(s.word))
    && (Awake(pc') || s.queue == [])
  }

  lemma WorkerHeld(workers: map<Id, Worker>, places: map<Id, Place>, w: Id, pc': Worker)
    requires HeldOk(workers, places) && w in workers && Held(pc') == Held(workers[w])
    ensures HeldOk(workers[w := pc'], places)
  {
  }

  lemma WorkerAwake(s: State, w: Id, pc': Worker)
    requires AwakeOk(s.queue, s.accepted, s.workers, s.word) && LeavingOk(s.workers, s.word) && QuietWorker(s, w, pc')
    ensures var workers := s.workers[w := pc'];
            && |workers| == |s.workers| && LeavingOk(workers, s.word)
            && AwakeOk(s.queue, s.accepted, workers, s.word)
  {
    var workers := s.workers[w := pc'];
    assert workers.Keys == s.workers.Keys;
    if SomeAwake(s.workers) && s.queue != [] {
      assert Awake(workers[w]);
    }
  }

  /** A call starts the worker that it added. */
  lemma SpawnFair(cfg: Config, s: State, c: Id)
    requires c in s.clients && s.clients[c].Spawn? && ClientOk(cfg, s, c, s.clients[c])
    ensures SpawnStep.requires(s, c)
    ensures var w := s.clients[c].w; var s' := SpawnStep(s, c); var pc' := s'.workers[w];
            && s' == At(s.(workers := s.workers[w := pc']), c, Returned(true)) && QuietWorker(s, w, pc')
            && Quiet(s, c, Returned(true)) && |s'.workers| == |s.workers|
            && Fair(s, s', Some(c)) && ClientOk(cfg, s', c, Returned(true))
  {
    assert SpawnStep(s, c).workers.Keys == s.workers.Keys;
  }

  lemma SpawnOneOk(cfg: Config, s: State, c: Id)
    requires Inv(cfg, s) && c in s.clients && s.clients[c].Spawn?
    ensures SpawnStep.requires(s, c) && Inv(cfg, SpawnStep(s, c))
  {
    assert ClientOk(cfg, s, c, s.clients[c]);
    SpawnFair(cfg, s, c);
    var w := s.clients[c].w;
    var s' := SpawnStep(s, c);
    WorkerHeld(s.workers, s.places, w, s'.workers[w]);
    WorkerAwake(s, w, s'.workers[w]);
    MoveCancel(s.clients, s.places, c, Returned(true));
    MoveUndecided(s.queue, s.accepted, s.clients, c, Returned(true));
    MoveMutex(s.mutex, s.clients, c, Returned(true));
    MoveChans(s, c, Returned(true), s.word);
    ClientsMove(cfg, s, s', c, Returned(true));
  }

  // ---------------------------------------------------------------------------------------------
  // addTask
  // ---------------------------------------------------------------------------------------------

  lemma PushQueue(queue: seq<Id>, places: map<Id, Place>, c: Id)
    requires QueueOk(queue, places) && c in places && places[c] != InQueue
    ensures QueueOk(queue + [c], places[c := InQueue])
  {
    assert forall t :: t in queue + [c] <==> t in queue || t == c;
  }

  /** The workers after a Push: one that waits is woken if the queue was empty. */
  function AfterSignal(s: State, pick: Id): map<Id, Worker> {
    if s.queue == [] && pick in s.workers && s.workers[pick].Waiting? then s.workers[pick := Woken] else s.workers
  }

  lemma SignalOk(s: State, c: Id, pick: Id)
    requires AwakeOk(s.queue, s.accepted, s.workers, s.word) && LeavingOk(s.workers, s.word) && HeldOk(s.workers, s.places)
    requires (exists w :: w in s.workers && s.workers[w].Waiting?) ==> pick in s.workers && s.workers[pick].Waiting?
    requires c !in s.accepted
    ensures var workers := AfterSignal(s, pick);
            && |workers| == |s.workers| && LeavingOk(workers, s.word) && HeldOk(workers, s.places)
            && AwakeOk(s.queue + [c], s.accepted, workers, s.word)
  {
    var workers := AfterSignal(s, pick);
    assert workers.Keys == s.workers.Keys;
    assert forall t :: t in s.queue + [c] <==> t in s.queue || t == c;
    if IsRunning(s.word) && workers != map[] {
      if s.queue == [] {
        var w :| w in workers;
        assert Awake(workers[if pick in workers && s.workers[pick].Waiting? then pick else w]);
      }
    }
  }

  lemma PushFair(cfg: Config, s: State, c: Id, pick: Id)
    requires c in s.clients && s.clients[c].Push? && ClientOk(cfg, s, c, Push) && !s.closed
    ensures var s' := PushStep(s, c, pick);
            && s' == s.(queue := s.queue + [c], places := s.places[c := InQueue], workers := AfterSignal(s, pick),
                        clients := s.clients[c := TaskCheck])
            && (|s'.workers| == |s.workers| ==> Fair(s, s', Some(c)) && ClientOk(cfg, s', c, TaskCheck))
            && InHand(c, s.places, s.accepted) && QuietPc(Push, TaskCheck) && QuietPc(Push, Returned(false))
  {
  }

  lemma PushTasks(s: State, c: Id, pick: Id)
    requires QueueOk(s.queue, s.places) && HeldOk(AfterSignal(s, pick), s.places) && CancelOk(s.clients, s.places)
    requires ResultsOk(s.places, s.accepted, s.outcomes) && InHand(c, s.places, s.accepted)
    requires UndecidedOk(s.queue, s.accepted, s.clients)
    ensures var places := s.places[c := InQueue];
            && QueueOk(s.queue + [c], places) && HeldOk(AfterSignal(s, pick), places) && CancelOk(s.clients, places)
            && ResultsOk(places, s.accepted, s.outcomes)
            && UndecidedOk(s.queue + [c], s.accepted, s.clients[c := TaskCheck])
  {
    PushQueue(s.queue, s.places, c);
    PutHeld(AfterSignal(s, pick), s.places, c, InQueue);
    PutCancel(s.clients, s.places, c, InQueue);
    PutResults(s.places, s.accepted, s.outcomes, c, InQueue);
    PushUndecided(s.queue, s.accepted, s.clients, c);
  }

  lemma PushOk(cfg: Config, s: State, c: Id, pick: Id)
    requires Inv(cfg, s) && c in s.clients && s.clients[c].Push? && !s.closed
    requires (exists w :: w in s.workers && s.workers[w].Waiting?) ==> pick in s.workers && s.workers[pick].Waiting?
    ensures Inv(cfg, PushStep(s, c, pick))
  {
    assert ClientOk(cfg, s, c, Push);
    var s' := PushStep(s, c, pick);
    PushFair(cfg, s, c, pick);
    SignalOk(s, c, pick);
    PushTasks(s, c, pick);
    MoveCancel(s.clients, s'.places, c, TaskCheck);
    MoveMutex(s.mutex, s.clients, c, TaskCheck);
    MoveChans(s, c, TaskCheck, s.word);
    ClientsMove(cfg, s, s', c, TaskCheck);
  }

  /** A closed queue refuses the task. */
  lemma PushClosedOk(cfg: Config, s: State, c: Id, pick: Id)
    requires Inv(cfg, s) && c in s.clients && s.clients[c].Push? && s.closed
    ensures Inv(cfg, PushStep(s, c, pick))
  {
    assert ClientOk(cfg, s, c, Push);
    PushQuiet(cfg, s, c);
    RejectOk(cfg, s, c);
    assert PushStep(s, c, pick) == Reject(s, c);
  }

  lemma PushQuiet(cfg: Config, s: State, c: Id)
    requires c in s.clients && s.clients[c].Push? && ClientOk(cfg, s, c, Push)
    ensures InHand(c, s.places, s.accepted) && Quiet(s, c, Returned(false))
  {
  }

  lemma PushUndecided(queue: seq<Id>, accepted: set<Id>, clients: map<Id, Client>, c: Id)
    requires UndecidedOk(queue, accepted, clients)
    ensures UndecidedOk(queue + [c], accepted, clients[c := TaskCheck])
  {
  }

  /** A pushed task is accepted: it left the queue, or the pool runs and has a worker. */
  lemma AcceptFair(cfg: Config, s: State, c: Id)
    requires c in s.clients && Deciding(s.clients[c]) && Pushed(c, s.places, s.accepted)
    ensures var s' := Accept(At(s, c, Returned(true)), c);
            Fair(s, s', Some(c)) && ClientOk(cfg, s', c, Returned(true)) && QuietPc(s.clients[c], Returned(true))
  {
  }

  lemma AcceptAwake(queue: seq<Id>, accepted: set<Id>, workers: map<Id, Worker>, word: int, c: Id)
    requires AwakeOk(queue, accepted, workers, word) && (c !in queue || (IsRunning(word) && workers != map[]))
    ensures AwakeOk(queue, accepted + {c}, workers, word)
  {
  }

  lemma AcceptOk(cfg: Config, s: State, c: Id)
    requires Inv(cfg, s) && c in s.clients && Deciding(s.clients[c]) && Pushed(c, s.places, s.accepted)
    requires c !in s.queue || (IsRunning(s.word) && s.workers != map[])
    ensures Inv(cfg, Accept(At(s, c, Returned(true)), c))
  {
    var s' := Accept(At(s, c, Returned(true)), c);
    AcceptFair(cfg, s, c);
    AcceptAwake(s.queue, s.accepted, s.workers, s.word, c);
    AcceptResults(s.places, s.accepted, s.outcomes, c);
    AcceptUndecided(s.queue, s.accepted, s.clients, c, Returned(true));
    MoveCancel(s.clients, s.places, c, Returned(true));
    MoveMutex(s.mutex, s.clients, c, Returned(true));
    MoveChans(s, c, Returned(true), s.word);
    ClientsMove(cfg, s, s', c, Returned(true));
  }

  lemma TaskCheckPcOk(cfg: Config, s: State, c: Id, pc': Client)
    requires c in s.clients && s.clients[c].TaskCheck? && ClientOk(cfg, s, c, TaskCheck)
    requires (pc' == TaskRemove && IsShutdown(s.word)) || pc' == AddWorker(1, None, FromAddTask)
    ensures Quiet(s, c, pc') && ClientOk(cfg, s, c, pc')
  {
  }

  lemma TaskCheckOk(cfg: Config, s: State, c: Id)
    requires cfg.Valid() && Inv(cfg, s) && c in s.clients && s.clients[c].TaskCheck?
    ensures Inv(cfg, TaskCheckStep(s, c))
  {
    assert ClientOk(cfg, s, c, TaskCheck);
    CountOk(cfg, s.word, |s.workers|);
    if IsRunning(s.word) && WorkerCount(s.word) > 0 {
      AcceptOk(cfg, s, c);
    } else {
      var pc' := if IsRunning(s.word) then AddWorker(1, None, FromAddTask) else TaskRemove;
      TaskCheckPcOk(cfg, s, c, pc');
      MoveOk(cfg, s, c, pc');
    }
  }

  // ---------------------------------------------------------------------------------------------
  // Taking a task out of the queue
  // ---------------------------------------------------------------------------------------------

  /** Queue.Remove deletes exactly the given task. */
  lemma {:induction false} WithoutOk(q: seq<Id>, t: Id)
    requires forall i, j | 0 <= i < j < |q| :: q[i] != q[j]
    ensures forall i, j | 0 <= i < j < |Without(q, t)| :: Without(q, t)[i] != Without(q, t)[j]
    ensures forall x :: x in Without(q, t) <==> x in q && x != t
  {
    if q != [] {
      assert q == [q[0]] + q[1..];
      assert forall x :: x in q <==> x == q[0] || x in q[1..];
      assert q[0] !in q[1..];
      if q[0] != t {
        WithoutOk(q[1..], t);
        assert forall x :: x in Without(q, t) <==> x == q[0] || x in Without(q[1..], t);
      }
    }
  }

  /** `queue'` lost `t`, and nothing else. */
  ghost predicate Lost(queue: seq<Id>, t: Id, queue': seq<Id>) {
    && (forall i, j | 0 <= i < j < |queue'| :: queue'[i] != queue'[j])
    && (forall x :: x in queue' <==> x in queue && x != t)
  }

  lemma LostQueue(queue: seq<Id>, places: map<Id, Place>, t: Id, queue': seq<Id>, place: Place)
    requires QueueOk(queue, places) && Lost(queue, t, queue') && !place.InQueue?
    ensures QueueOk(queue', places[t := place])
  {
  }

  lemma LostUndecided(queue: seq<Id>, accepted: set<Id>, clients: map<Id, Client>, t: Id, queue': seq<Id>, c: Id, pc': Client)
    requires UndecidedOk(queue, accepted, clients) && Lost(queue, t, queue')
    requires c in queue' && c !in accepted ==> Deciding(pc')
    ensures UndecidedOk(queue', accepted, clients[c := pc'])
  {
  }

  lemma LostAwake(queue: seq<Id>, accepted: set<Id>, workers: map<Id, Worker>, word: int, t: Id, queue': seq<Id>)
    requires AwakeOk(queue, accepted, workers, word) && Lost(queue, t, queue')
    ensures AwakeOk(queue', accepted, workers, word)
  {
    if queue' != [] {
      assert queue'[0] in queue';
    }
  }

  lemma RemoveFair(cfg: Config, s: State, c: Id)
    requires c in s.clients && s.clients[c].TaskRemove? && Pushed(c, s.places, s.accepted)
    ensures var s' := Reject(s.(queue := Without(s.queue, c)), c);
            Fair(s, s', Some(c)) && ClientOk(cfg, s', c, Returned(false)) && QuietPc(s.clients[c], Returned(false))
  {
  }

  lemma TaskRemoveOk(cfg: Config, s: State, c: Id)
    requires Inv(cfg, s) && c in s.clients && s.clients[c].TaskRemove?
    ensures Inv(cfg, TaskRemoveStep(s, c))
  {
    assert ClientOk(cfg, s, c, TaskRemove);
    if c !in s.queue {
      AcceptOk(cfg, s, c);
    } else {
      RetractOk(cfg, s, c);
    }
  }

  /** A pushed task is taken back. */
  lemma RetractOk(cfg: Config, s: State, c: Id)
    requires Inv(cfg, s) && c in s.clients && s.clients[c].TaskRemove? && Pushed(c, s.places, s.accepted) && c in s.queue
    ensures Inv(cfg, Reject(s.(queue := Without(s.queue, c)), c))
  {
    var queue' := Without(s.queue, c);
    var s' := Reject(s.(queue := queue'), c);
    WithoutOk(s.queue, c);
    LostQueue(s.queue, s.places, c, queue', Rejected);
    LostUndecided(s.queue, s.accepted, s.clients, c, queue', c, Returned(false));
    LostAwake(s.queue, s.accepted, s.workers, s.word, c, queue');
    RemoveFair(cfg, s, c);
    PutHeld(s.workers, s.places, c, Rejected);
    PutCancel(s.clients, s.places, c, Rejected);
    PutResults(s.places, s.accepted, s.outcomes, c, Rejected);
    MoveCancel(s.clients, s'.places, c, Returned(false));
    MoveMutex(s.mutex, s.clients, c, Returned(false));
    MoveChans(s, c, Returned(false), s.word);
    ClientsMove(cfg, s, s', c, Returned(false));
  }
}
