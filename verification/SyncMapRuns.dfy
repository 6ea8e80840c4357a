/** SyncMap over whole runs: the invariant is kept, and every call behaves as one on a plain map. */
module SyncMapRuns {
  import opened Wrappers
  import opened SyncMapProtocol
  import opened SyncMapProof

  // ---------------------------------------------------------------------------------------------
  // Every step keeps the invariant
  // ---------------------------------------------------------------------------------------------

  lemma OthersAfterFree(s: State, t: OpId, next: Local)
    requires EntriesOk(s.mem) && ThreadsOk(s.mem, s.threads) && Free(s.mem, next.mem)
    requires ThreadOk(next.mem, Noted(next.mem, next.th)) && t in s.threads
    ensures ThreadsOk(next.mem, Moved(s, t, s.lock, next).threads)
  {
    var s' := Moved(s, t, s.lock, next);
    FreeIsRely(s.mem, next.mem);
    forall u | u in s'.threads ensures ThreadOk(s'.mem, s'.threads[u]) {
      if u == t {
      } else if HoldsLock(s.threads[u].pc) {
        HolderStable(s.mem, next.mem, s.threads[u]);
      } else {
        UnlockedStable(s.mem, next.mem, s.threads[u]);
      }
    }
  }

  lemma OthersAfterLocked(s: State, t: OpId, next: Local)
    requires EntriesOk(s.mem) && EntriesOk(next.mem) && ThreadsOk(s.mem, s.threads) && LockOk(s)
    requires t in s.threads && HoldsLock(s.threads[t].pc) && Rely(s.mem, next.mem)
    requires ThreadOk(next.mem, Noted(next.mem, next.th))
    ensures ThreadsOk(next.mem, Moved(s, t, s.lock, next).threads)
  {
    var s' := Moved(s, t, s.lock, next);
    forall u | u in s'.threads ensures ThreadOk(s'.mem, s'.threads[u]) {
      if u != t {
        UnlockedStable(s.mem, next.mem, s.threads[u]);
      }
    }
  }

  lemma LockAfterMove(s: State, t: OpId, next: Local)
    requires LockOk(s) && t in s.threads && HoldsLock(next.th.pc) == HoldsLock(s.threads[t].pc)
    ensures var s' := Moved(s, t, s.lock, next);
            && LockOk(s')
            && (s.lock == Some(t) ==> HolderPending(s') == Pending(next.th) && HolderBuilding(s') == Building(next.th.pc))
            && (s.lock != Some(t) ==> HolderPending(s') == HolderPending(s) && HolderBuilding(s') == HolderBuilding(s))
  {
  }

  lemma FreeMove(s: State, t: OpId, next: Local)
    requires Inv(s) && t in s.threads && !HoldsLock(s.threads[t].pc) && FreeStepOk(s.mem, s.threads[t], next)
    ensures Inv(Moved(s, t, s.lock, next))
  {
    FreeKeepsMemory(s.mem, next.mem, HolderPending(s), HolderBuilding(s));
    OthersAfterFree(s, t, next);
    LockAfterMove(s, t, next);
  }

  lemma LockedMove(s: State, t: OpId, next: Local)
    requires Inv(s) && t in s.threads && HoldsLock(s.threads[t].pc) && LockedStepOk(s.mem, s.threads[t], next)
    ensures Inv(Moved(s, t, s.lock, next))
  {
    OthersAfterLocked(s, t, next);
    LockAfterMove(s, t, next);
  }

  /** A call that begins, takes the mutex or releases it leaves the others untouched. */
  lemma OthersAfterQuiet(s: State, t: OpId, lock: Option<OpId>, th: Thread)
    requires ThreadsOk(s.mem, s.threads)
    ensures Moved(s, t, lock, Local(s.mem, th)) == State(s.mem, lock, s.threads[t := Noted(s.mem, th)])
  {
    var s' := Moved(s, t, lock, Local(s.mem, th));
    forall u | u in s.threads && u != t ensures s'.threads[u] == s.threads[u] {
      assert ThreadOk(s.mem, s.threads[u]);
      if !s.threads[u].pc.Finished? {
        assert s.threads[u].seen + {Lookup(s.mem, s.threads[u].op.key)} == s.threads[u].seen;
      }
    }
    assert s'.threads == s.threads[t := Noted(s.mem, th)];
  }

  lemma CallMove(s: State, t: OpId, op: Op)
    requires Inv(s) && t !in s.threads
    ensures Inv(Moved(s, t, s.lock, Local(s.mem, Thread(op, Begin, {}, 0))))
  {
    OthersAfterQuiet(s, t, s.lock, Thread(op, Begin, {}, 0));
  }

  lemma AcquireMove(s: State, t: OpId)
    requires Inv(s) && t in s.threads && s.threads[t].pc.Acquire? && s.lock == None
    ensures Inv(Moved(s, t, Some(t), Goto(s.mem, s.threads[t], Locked)))
  {
    OthersAfterQuiet(s, t, Some(t), s.threads[t].(pc := Locked));
  }

  lemma AfterUnlockOk(m: Memory, th: Thread)
    requires ThreadOk(m, th) && th.pc.Unlock?
    ensures var pc := AfterUnlock(th.pc.after); ThreadOk(m, Noted(m, th.(pc := pc))) && !HoldsLock(pc)
  {
  }

  lemma UnlockMove(s: State, t: OpId)
    requires Inv(s) && t in s.threads && s.threads[t].pc.Unlock?
    ensures Inv(Moved(s, t, None, Goto(s.mem, s.threads[t], AfterUnlock(s.threads[t].pc.after))))
  {
    AfterUnlockOk(s.mem, s.threads[t]);
    OthersAfterQuiet(s, t, None, s.threads[t].(pc := AfterUnlock(s.threads[t].pc.after)));
  }

  /** One step of a call keeps the invariant, and changes the plain map only as its operation asks. */
  lemma FreeActOk(s: State, t: OpId, pick: nat, next: Local)
    requires Inv(s) && t in s.threads && Act(s.mem, t, s.threads[t], pick, next) && !HoldsLock(s.threads[t].pc)
    ensures Inv(Moved(s, t, s.lock, next)) && Changes(s.mem, s.threads[t], next)
  {
    var m, th := s.mem, s.threads[t];
    assert ThreadOk(m, th);
    if th.pc.Begin? {
      BeginStepOk(m, th, HolderPending(s), HolderBuilding(s));
    } else {
      EntryStepOk(m, t, th, HolderPending(s), HolderBuilding(s));
    }
    FreeMove(s, t, next);
  }

  /** The steps of the holder of the mutex that edit neither map nor entry keys in bulk. */
  lemma SimpleActOk(m: Memory, t: OpId, th: Thread, pick: nat, next: Local)
    requires MemoryOk(m, {}, th.pc.Amend?) && ThreadOk(m, th) && Act(m, t, th, pick, next) && HoldsLock(th.pc)
    requires th.pc.Locked? || th.pc.Amend? || th.pc.AddNew? || th.pc.Miss?
    ensures LockedStepOk(m, th, next)
  {
    if th.pc.Locked? {
      LockedDecisionOk(m, th);
    } else if th.pc.Amend? {
      AmendStepOk(m, th);
    } else if th.pc.AddNew? {
      AddNewStepOk(m, t, th, pick);
    } else {
      MissStepOk(m, th);
    }
  }

  /** The steps of the holder of the mutex on one entry or inside dirtyLocked. */
  lemma EntryActOk(m: Memory, t: OpId, th: Thread, pick: nat, next: Local)
    requires MemoryOk(m, Pending(th), Building(th.pc)) && ThreadOk(m, th)
    requires HoldsLock(th.pc) && Act(m, t, th, pick, next) && (OnEntry(th.pc) || OnReadHit(th.pc) || Copying(th.pc))
    ensures LockedStepOk(m, th, next)
  {
    if Copying(th.pc) {
      CopyStepOk(m, th, pick);
    } else if th.pc.AddDirty? {
      AddDirtyStepOk(m, t, th);
    } else if th.pc.Unexpunge? {
      UnexpungeStepOk(m, t, th);
    } else if th.pc.StoreLocked? {
      StoreLockedStepOk(m, t, th);
    } else {
      LockedEntryStepOk(m, t, th);
    }
  }

  lemma ActOk(s: State, t: OpId, pick: nat, next: Local)
    requires Inv(s) && t in s.threads && Act(s.mem, t, s.threads[t], pick, next)
    ensures Inv(Moved(s, t, s.lock, next)) && Changes(s.mem, s.threads[t], next)
  {
    if HoldsLock(s.threads[t].pc) {
      assert ThreadOk(s.mem, s.threads[t]);
      if OnEntry(s.threads[t].pc) || OnReadHit(s.threads[t].pc) || Copying(s.threads[t].pc) {
        EntryActOk(s.mem, t, s.threads[t], pick, next);
      } else {
        SimpleActOk(s.mem, t, s.threads[t], pick, next);
      }
      LockedMove(s, t, next);
    } else {
      FreeActOk(s, t, pick, next);
    }
  }

  lemma InitOk(s: State)
    requires Init(s)
    ensures Inv(s)
  {
  }

  lemma NextOk(s: State, ev: Event, s': State)
    requires Inv(s) && Next(s, ev, s')
    ensures Inv(s')
  {
    match ev
    case Call(t, op) => CallMove(s, t, op);
    case Step(t, pick) =>
      var th := s.threads[t];
      if th.pc.Acquire? {
        AcquireMove(s, t);
      } else if th.pc.Unlock? {
        UnlockMove(s, t);
      } else {
        var next :| Act(s.mem, t, th, pick, next) && s' == Moved(s, t, s.lock, next);
        ActOk(s, t, pick, next);
      }
  }

  lemma UnusedAddress(used: set<nat>) returns (n: nat)
    ensures n !in used && forall x | x in used :: x < n
  {
    n := 0;
    if used != {} {
      var x :| x in used;
      var n' := UnusedAddress(used - {x});
      n := if x < n' then n' else x + 1;
      assert forall y | y in used :: y == x || y in used - {x};
    }
  }

  lemma SomeAct(m: Memory, t: OpId, th: Thread) returns (pick: nat, next: Local)
    requires EntriesOk(m) && (m.amended ==> m.dirty.Some?) && ThreadOk(m, th)
    requires !th.pc.Finished? && !th.pc.Acquire? && !th.pc.Unlock?
    ensures Act(m, t, th, pick, next)
  {
    pick := UnusedAddress(m.slots.Keys);
    if th.pc.Begin? {
      next := BeginStep(m, th);
    } else if th.pc.Locked? {
      next := LockedStep(m, th);
    } else if OnEntry(th.pc) {
      next := EntryStep(m, t, th);
    } else if OnReadHit(th.pc) {
      next := ReadHitStep(m, t, th);
    } else if Copying(th.pc) {
      if th.pc.ExpungeNext? && th.pc.todo != {} {
        pick :| pick in th.pc.todo;
      }
      next := CopyStep(m, th, pick);
    } else if th.pc.Amend? {
      next := Goto(m.(amended := true), th, AddNew);
    } else if th.pc.AddNew? {
      next := AddNewStep(m, t, th, pick);
    } else {
      next := MissStep(m, th);
    }
  }

  /** No call is ever stuck: it can step unless it waits for a mutex that is held. In particular
      m.dirty is never nil where it is written or measured. */
  lemma NeverStuck(s: State, t: OpId)
    requires Inv(s) && t in s.threads && !s.threads[t].pc.Finished?
    requires s.threads[t].pc.Acquire? ==> s.lock == None
    ensures exists pick, s' :: Next(s, Step(t, pick), s')
  {
    var m, th := s.mem, s.threads[t];
    if th.pc.Acquire? {
      assert Next(s, Step(t, 0), Moved(s, t, Some(t), Goto(m, th, Locked)));
    } else if th.pc.Unlock? {
      assert Next(s, Step(t, 0), Moved(s, t, None, Goto(m, th, AfterUnlock(th.pc.after))));
    } else {
      assert ThreadOk(m, th);
      var pick, next := SomeAct(m, t, th);
      assert Next(s, Step(t, pick), Moved(s, t, s.lock, next));
    }
  }

  // ---------------------------------------------------------------------------------------------
  // Runs
  // ---------------------------------------------------------------------------------------------

  ghost predicate IsRun(states: seq<State>, events: seq<Event>) {
    && |states| == |events| + 1 && Init(states[0])
    && forall i {:trigger events[i]} | 0 <= i < |events| :: Next(states[i], events[i], states[i + 1])
  }

  lemma {:induction false} RunOk(states: seq<State>, events: seq<Event>, i: nat)
    requires IsRun(states, events) && i < |states|
    ensures Inv(states[i])
  {
    if i == 0 {
      InitOk(states[0]);
    } else {
      RunOk(states, events, i - 1);
      NextOk(states[i - 1], events[i - 1], states[i]);
    }
  }

  /** The call that the step from `s` to `s'` let act on the map, if it did. */
  predicate Acts(s: State, ev: Event, s': State) {
    ev.Step? && ev.t in s.threads && ev.t in s'.threads && s'.threads[ev.t].effects > s.threads[ev.t].effects
  }

  /** The value that an acting operation leaves for its key. */
  function Target(op: Op): Option<Value> {
    if op.Store? || op.LoadOrStore? then Some(op.value) else None
  }

  /** What one event does to the plain map and to the calls. */
  ghost predicate EventOk(s: State, ev: Event, s': State) {
    && s.threads.Keys <= s'.threads.Keys
    && (forall u | u in s.threads :: s'.threads[u].op == s.threads[u].op)
    && (forall u | u in s'.threads && !(ev.Step? && u == ev.t) ::
          s'.threads[u].effects == if u in s.threads then s.threads[u].effects else 0)
    && (ev.Step? ==> ev.t in s.threads)
    && if Acts(s, ev, s') then
         var op := s.threads[ev.t].op;
         && s.threads[ev.t].effects == 0 && s'.threads[ev.t].effects == 1
         && (forall k :: Lookup(s'.mem, k) == if k == op.key then Target(op) else Lookup(s.mem, k))
         && (op.LoadOrStore? ==> Lookup(s.mem, op.key) == None)
       else
         && (forall k :: Lookup(s'.mem, k) == Lookup(s.mem, k))
         && (ev.Step? ==> s'.threads[ev.t].effects == s.threads[ev.t].effects)
  }

  /** A step of `t` as an event. */
  lemma MovedOk(s: State, ev: Event, lock: Option<OpId>, next: Local)
    requires ev.Step? && ev.t in s.threads && Changes(s.mem, s.threads[ev.t], next)
    ensures EventOk(s, ev, Moved(s, ev.t, lock, next))
  {
  }

  lemma EventChanges(s: State, ev: Event, s': State)
    requires Inv(s) && Next(s, ev, s')
    ensures EventOk(s, ev, s')
  {
    if ev.Step? {
      var th := s.threads[ev.t];
      if th.pc.Acquire? {
        MovedOk(s, ev, Some(ev.t), Goto(s.mem, th, Locked));
      } else if th.pc.Unlock? {
        MovedOk(s, ev, None, Goto(s.mem, th, AfterUnlock(th.pc.after)));
      } else {
        var next :| Act(s.mem, ev.t, th, ev.pick, next) && s' == Moved(s, ev.t, s.lock, next);
        ActOk(s, ev.t, ev.pick, next);
        MovedOk(s, ev, s.lock, next);
      }
    }
  }

  /** A run, as far as the plain map is concerned. */
  ghost predicate ChangesOk(states: seq<State>, events: seq<Event>) {
    && |states| == |events| + 1 && states[0].threads == map[] && (forall k :: Lookup(states[0].mem, k) == None)
    && forall i | 0 <= i < |events| :: EventOk(states[i], events[i], states[i + 1])
  }

  lemma RunChanges(states: seq<State>, events: seq<Event>)
    requires IsRun(states, events)
    ensures ChangesOk(states, events)
  {
    forall i | 0 <= i < |events| ensures EventOk(states[i], events[i], states[i + 1]) {
      RunOk(states, events, i);
      EventChanges(states[i], events[i], states[i + 1]);
    }
  }

  /** The plain map after `i` events: each acting event assigns or removes one key. */
  ghost function Plain(states: seq<State>, events: seq<Event>, i: nat, k: Key): Option<Value>
    requires |states| == |events| + 1 && i < |states|
  {
    if i == 0 then None
    else if Acts(states[i - 1], events[i - 1], states[i]) && states[i - 1].threads[events[i - 1].t].op.key == k then
      Target(states[i - 1].threads[events[i - 1].t].op)
    else Plain(states, events, i - 1, k)
  }

  lemma {:induction false} PlainMapKept(states: seq<State>, events: seq<Event>, i: nat, k: Key)
    requires ChangesOk(states, events) && i < |states|
    ensures Lookup(states[i].mem, k) == Plain(states, events, i, k)
  {
    if i > 0 {
      PlainMapKept(states, events, i - 1, k);
      assert EventOk(states[i - 1], events[i - 1], states[i]);
    }
  }

  /** SyncMap refines a plain map, in every interleaving: what it holds is what the acting events
      leave, whatever is expunged, copied or promoted in between. */
  lemma RefinesPlainMap(states: seq<State>, events: seq<Event>, i: nat, k: Key)
    requires IsRun(states, events) && i < |states|
    ensures Lookup(states[i].mem, k) == Plain(states, events, i, k)
  {
    RunChanges(states, events);
    PlainMapKept(states, events, i, k);
  }

  /** A value survives until the next event that acts on its key. */
  lemma {:induction false} ValueIsNeverLost(states: seq<State>, events: seq<Event>, i: nat, j: nat, k: Key)
    requires IsRun(states, events) && i <= j < |states|
    requires forall n | i <= n < j && Acts(states[n], events[n], states[n + 1]) ::
               states[n].threads[events[n].t].op.key != k
    ensures Lookup(states[j].mem, k) == Lookup(states[i].mem, k)
  {
    if i < j {
      ValueIsNeverLost(states, events, i, j - 1, k);
      RunOk(states, events, j - 1);
      EventChanges(states[j - 1], events[j - 1], states[j]);
    }
  }

  /** At some moment up to `i`, while call `t` was running, its key had the value `x`. */
  ghost predicate HadDuring(states: seq<State>, i: nat, t: OpId, x: Option<Value>)
    requires i < |states|
  {
    exists j | 0 <= j <= i :: WasRunning(states[j], t) && Lookup(states[j].mem, states[j].threads[t].op.key) == x
  }

  predicate WasRunning(s: State, t: OpId) {
    t in s.threads && !s.threads[t].pc.Finished?
  }

  /** How often call `t` acted on the map in the first `i` events. */
  ghost function ActionsOf(states: seq<State>, events: seq<Event>, i: nat, t: OpId): nat
    requires |states| == |events| + 1 && i < |states|
  {
    if i == 0 then 0
    else ActionsOf(states, events, i - 1, t) +
         if events[i - 1].t == t && Acts(states[i - 1], events[i - 1], states[i]) then 1 else 0
  }

  lemma {:induction false} EffectsAreActions(states: seq<State>, events: seq<Event>, i: nat, t: OpId)
    requires ChangesOk(states, events) && i < |states|
    ensures ActionsOf(states, events, i, t) == if t in states[i].threads then states[i].threads[t].effects else 0
  {
    if i > 0 {
      EffectsAreActions(states, events, i - 1, t);
      assert EventOk(states[i - 1], events[i - 1], states[i]);
    }
  }

  lemma {:induction false} SeenHappened(states: seq<State>, events: seq<Event>, i: nat, t: OpId, x: Option<Value>)
    requires IsRun(states, events) && i < |states| && t in states[i].threads && x in states[i].threads[t].seen
    ensures HadDuring(states, i, t, x)
  {
    if i > 0 {
      var s, s' := states[i - 1], states[i];
      RunOk(states, events, i - 1);
      EventChanges(s, events[i - 1], s');
      if t in s.threads && x in s.threads[t].seen {
        SeenHappened(states, events, i - 1, t, x);
        var j :| 0 <= j <= i - 1 && WasRunning(states[j], t) && Lookup(states[j].mem, states[j].threads[t].op.key) == x;
      } else {
        NewlySeen(s, events[i - 1], s', t, x);
      }
    }
  }

  lemma MovedSees(s: State, t: OpId, lock: Option<OpId>, next: Local, u: OpId, x: Option<Value>)
    requires t in s.threads && next.th.op == s.threads[t].op && next.th.seen == s.threads[t].seen && u in s.threads
    requires var s' := Moved(s, t, lock, next); x in s'.threads[u].seen && x !in s.threads[u].seen
    ensures var s' := Moved(s, t, lock, next); WasRunning(s', u) && Lookup(s'.mem, s'.threads[u].op.key) == x
  {
  }

  lemma NewlySeen(s: State, ev: Event, s': State, t: OpId, x: Option<Value>)
    requires Inv(s) && Next(s, ev, s') && t in s'.threads && x in s'.threads[t].seen
    requires t in s.threads ==> x !in s.threads[t].seen
    ensures WasRunning(s', t) && Lookup(s'.mem, s'.threads[t].op.key) == x
  {
    if ev.Step? {
      var th := s.threads[ev.t];
      if th.pc.Acquire? {
        MovedSees(s, ev.t, Some(ev.t), Goto(s.mem, th, Locked), t, x);
      } else if th.pc.Unlock? {
        MovedSees(s, ev.t, None, Goto(s.mem, th, AfterUnlock(th.pc.after)), t, x);
      } else {
        var next :| Act(s.mem, ev.t, th, ev.pick, next) && s' == Moved(s, ev.t, s.lock, next);
        ActOk(s, ev.t, ev.pick, next);
        MovedSees(s, ev.t, s.lock, next, t, x);
      }
    }
  }

  /** Every call that returned behaved like the operation on a plain map at one moment of the call:
      a reader returned a value its key had during the call and changed nothing; a writer acted exactly
      once; LoadOrStore did one or the other; Delete acted once or found the key absent. */
  lemma CallsAreAtomic(states: seq<State>, events: seq<Event>, i: nat, t: OpId)
    requires IsRun(states, events) && i < |states| && t in states[i].threads && states[i].threads[t].pc.Finished?
    ensures var reply := states[i].threads[t].pc.reply;
            var acted := ActionsOf(states, events, i, t);
            match states[i].threads[t].op
            case Load(_) => reply.Loaded? && HadDuring(states, i, t, reply.found) && acted == 0
            case Store(_, _) => reply == Done && acted == 1
            case LoadOrStore(_, v) =>
              reply.Actual? && if reply.loaded then HadDuring(states, i, t, Some(reply.actual)) && acted == 0
                               else reply.actual == v && acted == 1
            case Delete(_) => reply == Done && (acted == 1 || (acted == 0 && HadDuring(states, i, t, None)))
            case Range(_) => reply.Loaded? && HadDuring(states, i, t, reply.found) && acted == 0
  {
    RunOk(states, events, i);
    var th := states[i].threads[t];
    assert ThreadOk(states[i].mem, th);
    RunChanges(states, events);
    EffectsAreActions(states, events, i, t);
    if th.op.Load? || th.op.Range? {
      SeenHappened(states, events, i, t, th.pc.reply.found);
    } else if th.op.LoadOrStore? && th.pc.reply.loaded {
      SeenHappened(states, events, i, t, Some(th.pc.reply.actual));
    } else if th.op.Delete? && None in th.seen {
      SeenHappened(states, events, i, t, None);
    }
  }
}
