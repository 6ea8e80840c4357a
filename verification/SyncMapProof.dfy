/** What every interleaving of SyncMap operations keeps, and what each operation does to the map. */
module SyncMapProof {
  import opened Wrappers
  import opened SyncMapProtocol

  // ---------------------------------------------------------------------------------------------
  // The invariant
  // ---------------------------------------------------------------------------------------------

  predicate HoldsLock(pc: Pc) {
    || pc.Locked? || OnReadHit(pc) || Copying(pc) || pc.Amend? || pc.AddNew? || pc.Miss? || pc.Unlock?
    || ((pc.TryLosLoad? || pc.TryLosCas?) && pc.locked)
  }

  /** The keys of m.read that the holder of the mutex has yet to expunge or to enter in m.dirty. */
  function Pending(th: Thread): set<Key> {
    match th.pc
    case ExpungeNext(todo) => todo
    case ExpungeLoad(k, todo) => todo + {k}
    case ExpungeCas(k, todo) => todo + {k}
    case ExpungeKeep(k, todo) => todo + {k}
    case AddDirty(_) => {th.op.key}
    case _ => {}
  }

  predicate Building(pc: Pc) {
    Copying(pc) || pc.Amend?
  }

  /** Both maps only hold entries of their own key, and share the entry of a shared key. */
  ghost predicate EntriesOk(m: Memory) {
    && m.keyOf.Keys == m.slots.Keys
    && (forall k | k in m.read :: m.read[k] in m.slots && m.keyOf[m.read[k]] == k)
    && (m.dirty.Some? ==> forall k | k in m.dirty.value ::
          && m.dirty.value[k] in m.slots && m.keyOf[m.dirty.value[k]] == k
          && (k in m.read ==> m.read[k] == m.dirty.value[k]))
  }

  /** A read entry is expunged exactly when dirty exists and lacks its key, except for the `pending`
      keys that the holder of the mutex is working on; `building` says that it fills m.dirty. */
  ghost predicate MemoryOk(m: Memory, pending: set<Key>, building: bool) {
    && EntriesOk(m)
    && (m.dirty.None? ==> forall k | k in m.read :: m.slots[m.read[k]] != Expunged)
    && (m.dirty.Some? ==>
          && (forall k | k in m.dirty.value :: m.slots[m.dirty.value[k]] != Expunged)
          && (forall k | k in m.read && k !in m.dirty.value ::
                m.slots[m.read[k]] == Expunged <==> k !in pending))
    && (m.amended ==> m.dirty.Some?)
    && (m.dirty.Some? && !m.amended ==> building && m.dirty.value.Keys <= m.read.Keys)
  }

  /** `e` is the entry of its key in m.read. */
  predicate InRead(m: Memory, e: Entry) {
    e in m.keyOf && m.keyOf[e] in m.read && m.read[m.keyOf[e]] == e
  }

  predicate IsCurrent(m: Memory, e: Entry) {
    e in m.keyOf && Current(m, m.keyOf[e]) == Some(e)
  }

  /** A call that got `e` from m.read and has not taken the mutex since. */
  predicate HeldFast(m: Memory, th: Thread, e: Entry) {
    && e in m.slots && e in m.keyOf && m.keyOf[e] == th.op.key
    && (InRead(m, e) || (m.slots[e] == Expunged && !IsCurrent(m, e) && None in th.seen))
  }

  /** A Load or a Range that got `e` from either map. */
  predicate HeldLoad(m: Memory, th: Thread, e: Entry) {
    && (th.op.Load? || th.op.Range?) && e in m.slots && e in m.keyOf && m.keyOf[e] == th.op.key
    && (IsCurrent(m, e) || Content(m, e) in th.seen)
  }

  /** A call that got `e` under the mutex, which it still holds. */
  predicate HeldLocked(m: Memory, th: Thread, e: Entry) {
    e in m.slots && Current(m, th.op.key) == Some(e) && m.slots[e] != Expunged
  }

  /** The reply agrees with the values the key had during the call and with the effects it had. */
  predicate ReplyOk(th: Thread, reply: Reply) {
    match th.op
    case Load(_) => reply.Loaded? && reply.found in th.seen && th.effects == 0
    case Store(_, _) => reply == Done && th.effects == 1
    case LoadOrStore(_, v) =>
      reply.Actual? && if reply.loaded then Some(reply.actual) in th.seen && th.effects == 0
                       else reply.actual == v && th.effects == 1
    case Delete(_) => reply == Done && (th.effects == 1 || (th.effects == 0 && None in th.seen))
    case Range(_) => reply.Loaded? && reply.found in th.seen && th.effects == 0
  }

  predicate AfterOk(m: Memory, th: Thread, after: After) {
    match after
    case ThenReturn(reply) => ReplyOk(th, reply)
    case ThenLoad(e) => th.effects == 0 && HeldLoad(m, th, e)
    case ThenDelete(e) => th.op.Delete? && th.effects == 0 && HeldFast(m, th, e)
  }

  predicate EntryOk(m: Memory, th: Thread)
    requires OnEntry(th.pc)
  {
    && th.effects == 0
    && match th.pc
       case EntryLoad(e) => HeldLoad(m, th, e)
       case TryStoreLoad(e) => th.op.Store? && HeldFast(m, th, e)
       case TryStoreCas(e, p) => th.op.Store? && HeldFast(m, th, e) && p != Expunged
       case DeleteLoad(e) => th.op.Delete? && HeldFast(m, th, e)
       case DeleteCas(e, p) => th.op.Delete? && HeldFast(m, th, e) && p.Box?
       case _ =>
         && th.op.LoadOrStore? && (th.pc.miss ==> th.pc.locked && m.amended)
         && if th.pc.locked then HeldLocked(m, th, th.pc.e) else HeldFast(m, th, th.pc.e)
  }

  /** What a writer knows while it holds the mutex. */
  predicate WriterOk(m: Memory, th: Thread)
    requires OnReadHit(th.pc) || Building(th.pc) || th.pc.AddNew?
  {
    var k := th.op.key;
    && (th.op.Store? || th.op.LoadOrStore?) && th.effects == 0
    && match th.pc
       case Unexpunge(e) => k in m.read && m.read[k] == e
       case AddDirty(e) => k in m.read && HeldLocked(m, th, e) && m.amended && !InDirty(m, k)
       case StoreLocked(e) => th.op.Store? && HeldLocked(m, th, e)
       case AddNew => m.amended && k !in m.read && !InDirty(m, k)
       case DirtyInit => k !in m.read && !m.amended && m.dirty == None
       case _ =>
         && k !in m.read && !m.amended && m.dirty.Some?
         && Pending(th) <= m.read.Keys - m.dirty.value.Keys
         && ((th.pc.ExpungeLoad? || th.pc.ExpungeCas? || th.pc.ExpungeKeep?) ==> th.pc.k !in th.pc.todo)
  }

  /** What holds of a call, by program counter. */
  predicate ThreadOk(m: Memory, th: Thread) {
    && (!th.pc.Finished? ==> Lookup(m, th.op.key) in th.seen)
    && if OnEntry(th.pc) then EntryOk(m, th)
       else if OnReadHit(th.pc) || Building(th.pc) || th.pc.AddNew? then WriterOk(m, th)
       else match th.pc
            case Miss(after) => m.amended && AfterOk(m, th, after)
            case Unlock(after) => AfterOk(m, th, after)
            case Finished(reply) => ReplyOk(th, reply)
            case _ => th.effects == 0
  }

  function HolderPending(s: State): set<Key> {
    if s.lock.Some? && s.lock.value in s.threads then Pending(s.threads[s.lock.value]) else {}
  }

  predicate HolderBuilding(s: State) {
    s.lock.Some? && s.lock.value in s.threads && Building(s.threads[s.lock.value].pc)
  }

  ghost predicate LockOk(s: State) {
    && (s.lock.Some? ==> s.lock.value in s.threads && HoldsLock(s.threads[s.lock.value].pc))
    && (forall t | t in s.threads :: HoldsLock(s.threads[t].pc) ==> s.lock == Some(t))
  }

  ghost predicate ThreadsOk(m: Memory, threads: map<OpId, Thread>) {
    forall t | t in threads :: ThreadOk(m, threads[t])
  }

  ghost predicate Inv(s: State) {
    MemoryOk(s.mem, HolderPending(s), HolderBuilding(s)) && LockOk(s) && ThreadsOk(s.mem, s.threads)
  }

  // ---------------------------------------------------------------------------------------------
  // Interference: what a call may rely on while the others step
  // ---------------------------------------------------------------------------------------------

  /** What a call without the mutex may do to the memory. */
  ghost predicate Free(m: Memory, m': Memory) {
    && m' == m.(slots := m'.slots) && m'.slots.Keys == m.slots.Keys
    && (forall e | e in m.slots :: m'.slots[e] == Expunged <==> m.slots[e] == Expunged)
    && (forall e | e in m.slots :: m'.slots[e] != m.slots[e] ==> InRead(m, e))
  }

  /** What any call may do, as far as the calls without the mutex can tell. */
  ghost predicate Rely(m: Memory, m': Memory) {
    && m.slots.Keys <= m'.slots.Keys && m.keyOf.Keys <= m'.keyOf.Keys
    && (forall e | e in m.keyOf :: m'.keyOf[e] == m.keyOf[e])
    && (forall e | e in m.slots :: !IsCurrent(m, e) ==> m'.slots[e] == m.slots[e] && !IsCurrent(m', e))
    && (forall e | e in m.slots :: IsCurrent(m, e) && !IsCurrent(m', e) ==> m'.slots[e] == m.slots[e])
    && (forall e | e in m.slots :: InRead(m, e) ==> InRead(m', e) || (m.slots[e] == Expunged && !IsCurrent(m', e)))
  }

  lemma FreeIsRely(m: Memory, m': Memory)
    requires EntriesOk(m) && Free(m, m')
    ensures Rely(m, m')
  {
  }

  lemma FreeKeepsMemory(m: Memory, m': Memory, pending: set<Key>, building: bool)
    requires MemoryOk(m, pending, building) && Free(m, m')
    ensures MemoryOk(m', pending, building)
  {
  }

  lemma HeldStable(m: Memory, m': Memory, th: Thread, e: Entry)
    requires EntriesOk(m) && EntriesOk(m') && Rely(m, m') && Lookup(m, th.op.key) in th.seen
    ensures HeldFast(m, th, e) ==> HeldFast(m', Noted(m', th), e)
    ensures HeldLoad(m, th, e) ==> HeldLoad(m', Noted(m', th), e)
  {
  }

  /** A call that does not hold the mutex survives the steps of the others. */
  lemma UnlockedStable(m: Memory, m': Memory, th: Thread)
    requires EntriesOk(m) && EntriesOk(m') && Rely(m, m') && ThreadOk(m, th) && !HoldsLock(th.pc)
    ensures ThreadOk(m', Noted(m', th))
  {
    if OnEntry(th.pc) {
      HeldStable(m, m', th, th.pc.e);
    }
  }

  lemma WriterStable(m: Memory, m': Memory, th: Thread)
    requires Free(m, m') && ThreadOk(m, th) && HoldsLock(th.pc)
    requires OnEntry(th.pc) || OnReadHit(th.pc) || Building(th.pc) || th.pc.AddNew?
    ensures ThreadOk(m', Noted(m', th))
  {
    assert forall k :: Current(m', k) == Current(m, k);
  }

  /** The holder of the mutex survives the steps of the calls that do not hold it. */
  lemma HolderStable(m: Memory, m': Memory, th: Thread)
    requires EntriesOk(m) && Free(m, m') && ThreadOk(m, th) && HoldsLock(th.pc)
    ensures ThreadOk(m', Noted(m', th))
  {
    if OnEntry(th.pc) || OnReadHit(th.pc) || Building(th.pc) || th.pc.AddNew? {
      WriterStable(m, m', th);
    } else if (th.pc.Unlock? || th.pc.Miss?) && !th.pc.after.ThenReturn? {
      FreeIsRely(m, m');
      HeldStable(m, m', th, th.pc.after.e);
    }
  }

  // ---------------------------------------------------------------------------------------------
  // One step of one call
  // ---------------------------------------------------------------------------------------------

  /** A step without effect leaves the plain map alone; a step with effect does to it what the
      operation asks for, and nothing else. */
  ghost predicate Changes(m: Memory, th: Thread, next: Local) {
    && next.th.op == th.op && next.th.seen == th.seen
    && (forall k | k != th.op.key :: Lookup(next.mem, k) == Lookup(m, k))
    && if next.th.effects == th.effects then Lookup(next.mem, th.op.key) == Lookup(m, th.op.key)
       else
         && th.effects == 0 && next.th.effects == 1
         && match th.op
            case Store(k, v) => Lookup(next.mem, k) == Some(v)
            case LoadOrStore(k, v) => Lookup(m, k) == None && Lookup(next.mem, k) == Some(v)
            case Delete(k) => Lookup(next.mem, k) == None
            case _ => false
  }

  /** A call without the mutex is in order after its step, and interferes only as it may. */
  ghost predicate FreeStepOk(m: Memory, th: Thread, next: Local) {
    && Free(m, next.mem) && !HoldsLock(next.th.pc)
    && ThreadOk(next.mem, Noted(next.mem, next.th)) && Changes(m, th, next)
  }

  /** The same for the holder of the mutex. */
  ghost predicate LockedStepOk(m: Memory, th: Thread, next: Local) {
    && Rely(m, next.mem) && HoldsLock(next.th.pc)
    && MemoryOk(next.mem, Pending(next.th), Building(next.th.pc))
    && ThreadOk(next.mem, Noted(next.mem, next.th)) && Changes(m, th, next)
  }

  // The writes, one at a time: the memory stays in order and only the key written to changes.

  ghost predicate SameMap(m: Memory, m': Memory) {
    forall k :: Lookup(m', k) == Lookup(m, k)
  }

  ghost predicate SameMapBut(m: Memory, m': Memory, key: Key) {
    forall k | k != key :: Lookup(m', k) == Lookup(m, k)
  }

  /** A step that writes nothing. */
  lemma QuietOk(m: Memory, building: bool)
    requires MemoryOk(m, {}, false)
    ensures MemoryOk(m, {}, building) && Rely(m, m)
  {
  }

  lemma WriteMapOk(m: Memory, e: Entry, p: Slot)
    requires EntriesOk(m) && e in m.slots && IsCurrent(m, e)
    ensures var m' := SetSlot(m, e, p);
            && SameMapBut(m, m', m.keyOf[e]) && Lookup(m', m.keyOf[e]) == Content(m', e)
            && forall k :: Current(m', k) == Current(m, k)
  {
  }

  lemma WriteOk(m: Memory, e: Entry, p: Slot, pending: set<Key>, building: bool)
    requires MemoryOk(m, pending, building) && e in m.slots && IsCurrent(m, e)
    requires m.slots[e] != Expunged && p != Expunged
    ensures var m' := SetSlot(m, e, p);
            && MemoryOk(m', pending, building) && Rely(m, m') && (InRead(m, e) ==> Free(m, m'))
            && SameMapBut(m, m', m.keyOf[e]) && Lookup(m', m.keyOf[e]) == Content(m', e)
            && forall k :: Current(m', k) == Current(m, k)
  {
    WriteMapOk(m, e, p);
  }

  lemma PromoteOk(m: Memory, building: bool)
    requires MemoryOk(m, {}, building) && m.dirty.Some?
    ensures MemoryOk(Promote(m), {}, false) && Rely(m, Promote(m)) && SameMap(m, Promote(m))
    ensures forall e | e in m.slots && InDirty(m, m.keyOf[e]) && IsCurrent(m, e) :: IsCurrent(Promote(m), e)
  {
  }

  lemma DropDirtyOk(m: Memory, k: Key)
    requires MemoryOk(m, {}, false) && InDirty(m, k) && k !in m.read
    ensures var m' := m.(dirty := Some(m.dirty.value - {k}));
            MemoryOk(m', {}, false) && Rely(m, m') && SameMapBut(m, m', k) && Lookup(m', k) == None
  {
  }

  lemma UnexpungeOk(m: Memory, k: Key)
    requires MemoryOk(m, {}, false) && k in m.read && m.slots[m.read[k]] == Expunged
    ensures var m' := SetSlot(m, m.read[k], Nil);
            && MemoryOk(m', {k}, false) && Rely(m, m') && SameMap(m, m') && m.amended && !InDirty(m, k)
            && forall j :: Current(m', j) == Current(m, j)
  {
  }

  lemma AddDirtyOk(m: Memory, k: Key)
    requires MemoryOk(m, {k}, false) && m.dirty.Some? && k in m.read && m.slots[m.read[k]] != Expunged
    ensures var m' := m.(dirty := Some(m.dirty.value[k := m.read[k]]));
            && MemoryOk(m', {}, false) && Rely(m, m') && SameMap(m, m')
            && forall j :: Current(m', j) == Current(m, j)
  {
  }

  lemma InitDirtyOk(m: Memory)
    requires MemoryOk(m, {}, true) && m.dirty.None?
    ensures var m' := m.(dirty := Some(map[]));
            MemoryOk(m', m.read.Keys, true) && Rely(m, m') && SameMap(m, m')
  {
  }

  lemma ExpungeOk(m: Memory, k: Key, todo: set<Key>)
    requires MemoryOk(m, todo + {k}, true) && k !in todo && m.dirty.Some?
    requires k in m.read && !InDirty(m, k) && m.slots[m.read[k]] == Nil
    ensures var m' := SetSlot(m, m.read[k], Expunged);
            MemoryOk(m', todo, true) && Rely(m, m') && SameMap(m, m')
  {
  }

  lemma KeepOk(m: Memory, k: Key, todo: set<Key>)
    requires MemoryOk(m, todo + {k}, true) && k !in todo && m.dirty.Some?
    requires k in m.read && !InDirty(m, k) && !m.amended
    ensures var m' := m.(dirty := Some(m.dirty.value[k := m.read[k]]));
            MemoryOk(m', todo, true) && Rely(m, m') && SameMap(m, m')
  {
  }

  lemma AllocateOk(m: Memory, k: Key, e: Entry, p: Slot)
    requires MemoryOk(m, {}, false) && m.amended && k !in m.read && !InDirty(m, k) && e !in m.slots
    requires p.Box?
    ensures var m' := m.(slots := m.slots[e := p], keyOf := m.keyOf[e := k],
                         dirty := Some(m.dirty.value[k := e]));
            && MemoryOk(m', {}, false) && Rely(m, m') && SameMapBut(m, m', k)
            && Lookup(m, k) == None && Lookup(m', k) == Some(p.content)
  {
    AllocateMemoryOk(m, k, e, p);
    AllocateMapOk(m, k, e, p);
  }

  lemma AllocateMemoryOk(m: Memory, k: Key, e: Entry, p: Slot)
    requires MemoryOk(m, {}, false) && m.amended && k !in m.read && !InDirty(m, k) && e !in m.slots && p.Box?
    ensures MemoryOk(m.(slots := m.slots[e := p], keyOf := m.keyOf[e := k], dirty := Some(m.dirty.value[k := e])), {}, false)
  {
  }

  lemma AllocateMapOk(m: Memory, k: Key, e: Entry, p: Slot)
    requires MemoryOk(m, {}, false) && m.amended && k !in m.read && !InDirty(m, k) && e !in m.slots && p.Box?
    ensures var m' := m.(slots := m.slots[e := p], keyOf := m.keyOf[e := k],
                         dirty := Some(m.dirty.value[k := e]));
            SameMapBut(m, m', k) && Lookup(m, k) == None && Lookup(m', k) == Some(p.content)
  {
  }

  lemma BeginThreadOk(m: Memory, th: Thread)
    requires EntriesOk(m) && ThreadOk(m, th) && th.pc.Begin?
    requires !m.amended && th.op.key !in m.read ==> !InDirty(m, th.op.key)
    ensures var next := BeginStep(m, th);
            next.mem == m && ThreadOk(m, Noted(m, next.th)) && !HoldsLock(next.th.pc)
  {
  }

  lemma BeginStepOk(m: Memory, th: Thread, pending: set<Key>, building: bool)
    requires MemoryOk(m, pending, building) && ThreadOk(m, th) && th.pc.Begin?
    ensures FreeStepOk(m, th, BeginStep(m, th))
  {
    BeginThreadOk(m, th);
  }

  /** A step on an entry that only reads: entry.load, entry.tryStore and entry.delete ... */
  lemma EntryReadOk(m: Memory, t: OpId, th: Thread)
    requires ThreadOk(m, th) && OnEntry(th.pc) && !th.pc.TryLosLoad? && !th.pc.TryLosCas?
    requires EntryStep.requires(m, t, th) && EntryStep(m, t, th).th.effects == 0
    ensures var next := EntryStep(m, t, th);
            && next.mem == m && next.th.op == th.op && next.th.seen == th.seen
            && ThreadOk(m, Noted(m, next.th)) && !HoldsLock(next.th.pc)
  {
  }

  /** ... and entry.tryLoadOrStore. */
  lemma LosReadOk(m: Memory, t: OpId, th: Thread)
    requires ThreadOk(m, th) && (th.pc.TryLosLoad? || th.pc.TryLosCas?)
    requires EntryStep.requires(m, t, th) && EntryStep(m, t, th).th.effects == 0
    ensures var next := EntryStep(m, t, th);
            && next.mem == m && next.th.op == th.op && next.th.seen == th.seen
            && ThreadOk(m, Noted(m, next.th)) && HoldsLock(next.th.pc) == HoldsLock(th.pc)
  {
  }

  /** A successful compare-and-swap hits the current, live entry of the key. */
  lemma EntryWriteOk(m: Memory, t: OpId, th: Thread)
    requires ThreadOk(m, th) && OnEntry(th.pc)
    requires EntryStep.requires(m, t, th) && EntryStep(m, t, th).th.effects > 0
    ensures var next := EntryStep(m, t, th);
            && next.mem == SetSlot(m, th.pc.e, if th.op.Delete? then Nil else Box(t, th.op.value))
            && next.th.effects == 1 && next.th.op == th.op && next.th.seen == th.seen
            && ThreadOk(next.mem, Noted(next.mem, next.th)) && HoldsLock(next.th.pc) == HoldsLock(th.pc)
    ensures m.slots[th.pc.e] != Expunged && Current(m, th.op.key) == Some(th.pc.e)
    ensures !HoldsLock(th.pc) ==> InRead(m, th.pc.e)
    ensures th.op.Store? || (th.op.LoadOrStore? && Lookup(m, th.op.key) == None)
            || (th.op.Delete? && Lookup(m, th.op.key).Some?)
  {
  }

  lemma EntryStepOk(m: Memory, t: OpId, th: Thread, pending: set<Key>, building: bool)
    requires MemoryOk(m, pending, building) && ThreadOk(m, th) && OnEntry(th.pc) && !HoldsLock(th.pc)
    ensures EntryStep.requires(m, t, th) && FreeStepOk(m, th, EntryStep(m, t, th))
  {
    if EntryStep(m, t, th).th.effects == 0 {
      if th.pc.TryLosLoad? || th.pc.TryLosCas? { LosReadOk(m, t, th); } else { EntryReadOk(m, t, th); }
    } else {
      EntryWriteOk(m, t, th);
      WriteOk(m, th.pc.e, if th.op.Delete? then Nil else Box(t, th.op.value), pending, building);
    }
  }

  lemma LockedEntryStepOk(m: Memory, t: OpId, th: Thread)
    requires MemoryOk(m, {}, false) && ThreadOk(m, th) && OnEntry(th.pc) && HoldsLock(th.pc)
    ensures EntryStep.requires(m, t, th) && LockedStepOk(m, th, EntryStep(m, t, th))
  {
    var next := EntryStep(m, t, th);
    assert Pending(next.th) == {} && !Building(next.th.pc);
    if next.th.effects == 0 {
      LosReadOk(m, t, th);
    } else {
      EntryWriteOk(m, t, th);
      WriteOk(m, th.pc.e, if th.op.Delete? then Nil else Box(t, th.op.value), {}, false);
    }
  }

  /** The decision of a call that leaves the memory alone ... */
  lemma LockedThreadOk(m: Memory, th: Thread)
    requires ThreadOk(m, th) && th.pc.Locked? && EntriesOk(m) && (m.dirty.Some? <==> m.amended)
    requires InDirty(m, th.op.key) ==> m.slots[m.dirty.value[th.op.key]] != Expunged
    requires LockedStep(m, th).mem == m && LockedStep(m, th).th.effects == 0
    ensures ThreadOk(m, Noted(m, LockedStep(m, th).th))
  {
    if th.op.Store? || th.op.LoadOrStore? {
      LockedWriterOk(m, th);
    } else {
      LockedReaderOk(m, th);
    }
  }

  lemma LockedWriterOk(m: Memory, th: Thread)
    requires ThreadOk(m, th) && th.pc.Locked? && EntriesOk(m) && (m.dirty.Some? <==> m.amended)
    requires InDirty(m, th.op.key) ==> m.slots[m.dirty.value[th.op.key]] != Expunged
    requires th.op.Store? || th.op.LoadOrStore?
    ensures ThreadOk(m, Noted(m, LockedStep(m, th).th))
  {
  }

  lemma LockedReaderOk(m: Memory, th: Thread)
    requires ThreadOk(m, th) && th.pc.Locked? && EntriesOk(m) && !th.op.Store? && !th.op.LoadOrStore?
    requires m.dirty.Some? <==> m.amended
    requires LockedStep(m, th).mem == m && LockedStep(m, th).th.effects == 0
    ensures ThreadOk(m, Noted(m, LockedStep(m, th).th))
  {
  }

  lemma LockedQuietOk(m: Memory, th: Thread)
    requires MemoryOk(m, {}, false) && ThreadOk(m, th) && th.pc.Locked?
    requires LockedStep(m, th).mem == m && LockedStep(m, th).th.effects == 0
    ensures LockedStepOk(m, th, LockedStep(m, th))
  {
    LockedThreadOk(m, th);
    var next := LockedStep(m, th);
    assert Pending(next.th) == {};
    QuietOk(m, Building(next.th.pc));
  }

  /** ... of Delete, which removes a key that only m.dirty has ... */
  lemma LockedDropOk(m: Memory, th: Thread)
    requires MemoryOk(m, {}, false) && ThreadOk(m, th) && th.pc.Locked? && m.dirty.Some?
    requires th.op.Delete? && th.op.key !in m.read && InDirty(m, th.op.key)
    ensures LockedStepOk(m, th, LockedStep(m, th))
  {
    var next := LockedStep(m, th);
    assert next.th.pc == Unlock(ThenReturn(Done)) && Pending(next.th) == {};
    DropDirtyOk(m, th.op.key);
  }

  /** ... and of Range, which promotes m.dirty and keeps the entry of its key. */
  lemma LockedPromoteOk(m: Memory, th: Thread)
    requires MemoryOk(m, {}, false) && ThreadOk(m, th) && th.pc.Locked? && m.dirty.Some? && th.op.Range?
    ensures LockedStepOk(m, th, LockedStep(m, th))
  {
    var next := LockedStep(m, th);
    assert next.th.pc.Unlock? && Pending(next.th) == {};
    PromoteOk(m, false);
    PromotedThreadOk(next.mem, th, next.th);
  }

  lemma PromotedThreadOk(m: Memory, th: Thread, th': Thread)
    requires EntriesOk(m) && th.op.Range? && th.effects == 0 && m.dirty == None
    requires th' == th.(pc := Unlock(if th.op.key in m.read then ThenLoad(m.read[th.op.key]) else ThenReturn(Loaded(None))))
    ensures ThreadOk(m, Noted(m, th'))
  {
  }

  lemma LockedDecisionOk(m: Memory, th: Thread)
    requires MemoryOk(m, {}, false) && ThreadOk(m, th) && th.pc.Locked?
    ensures LockedStepOk(m, th, LockedStep(m, th))
  {
    if m.dirty.Some? && th.op.Range? {
      LockedPromoteOk(m, th);
    } else if m.dirty.Some? && th.op.Delete? && th.op.key !in m.read && InDirty(m, th.op.key) {
      LockedDropOk(m, th);
    } else {
      LockedQuietOk(m, th);
    }
  }

  lemma MissMemoryOk(m: Memory, th: Thread)
    requires MemoryOk(m, {}, false) && th.pc.Miss? && m.dirty.Some?
    ensures var m' := MissStep(m, th).mem; MemoryOk(m', {}, false) && Rely(m, m') && SameMap(m, m')
  {
    var m' := MissStep(m, th).mem;
    if m'.amended {
      assert forall k :: Current(m', k) == Current(m, k);
    } else {
      PromoteOk(m, false);
    }
  }

  lemma MissStepOk(m: Memory, th: Thread)
    requires MemoryOk(m, {}, false) && ThreadOk(m, th) && th.pc.Miss?
    ensures MissStep.requires(m, th) && LockedStepOk(m, th, MissStep(m, th))
  {
    var next := MissStep(m, th);
    assert Pending(next.th) == {} && !Building(next.th.pc);
    MissMemoryOk(m, th);
    if !th.pc.after.ThenReturn? {
      HeldStable(m, next.mem, th, th.pc.after.e);
    }
  }

  /** The call itself, after unexpungeLocked, the write of m.dirty or storeLocked. */
  lemma ReadHitThreadOk(m: Memory, t: OpId, th: Thread, next: Local)
    requires ThreadOk(m, th) && OnReadHit(th.pc) && ReadHitStep.requires(m, t, th)
    requires next == ReadHitStep(m, t, th) && forall k :: Current(next.mem, k) == Current(m, k)
    requires th.pc.Unexpunge? && m.slots[th.pc.e] == Expunged ==> m.amended && !InDirty(m, th.op.key)
    ensures ThreadOk(next.mem, Noted(next.mem, next.th))
  {
  }

  lemma UnexpungeStepOk(m: Memory, t: OpId, th: Thread)
    requires MemoryOk(m, {}, false) && ThreadOk(m, th) && th.pc.Unexpunge?
    ensures ReadHitStep.requires(m, t, th) && LockedStepOk(m, th, ReadHitStep(m, t, th))
  {
    var next := ReadHitStep(m, t, th);
    if m.slots[th.pc.e] == Expunged {
      UnexpungeOk(m, th.op.key);
      assert Pending(next.th) == {th.op.key};
    } else {
      assert Pending(next.th) == {} && next.mem == m;
      QuietOk(m, false);
    }
    ReadHitThreadOk(m, t, th, next);
  }

  lemma AddDirtyStepOk(m: Memory, t: OpId, th: Thread)
    requires MemoryOk(m, {th.op.key}, false) && ThreadOk(m, th) && th.pc.AddDirty?
    ensures ReadHitStep.requires(m, t, th) && LockedStepOk(m, th, ReadHitStep(m, t, th))
  {
    var next := ReadHitStep(m, t, th);
    AddDirtyOk(m, th.op.key);
    assert Pending(next.th) == {};
    ReadHitThreadOk(m, t, th, next);
  }

  lemma StoreLockedStepOk(m: Memory, t: OpId, th: Thread)
    requires MemoryOk(m, {}, false) && ThreadOk(m, th) && th.pc.StoreLocked?
    ensures ReadHitStep.requires(m, t, th) && LockedStepOk(m, th, ReadHitStep(m, t, th))
  {
    var next := ReadHitStep(m, t, th);
    WriteOk(m, th.pc.e, Box(t, th.op.value), {}, false);
    assert Pending(next.th) == {} && m.keyOf[th.pc.e] == th.op.key;
    ReadHitThreadOk(m, t, th, next);
  }

  /** The call itself, after a step of dirtyLocked. */
  lemma CopyThreadOk(m: Memory, th: Thread, pick: Key)
    requires ThreadOk(m, th) && Copying(th.pc) && CopyStep.requires(m, th, pick)
    ensures var next := CopyStep(m, th, pick);
            && next.th.op == th.op && next.th.seen == th.seen && next.th.effects == 0
            && Building(next.th.pc) && ThreadOk(next.mem, Noted(next.mem, next.th))
  {
    if th.pc.ExpungeNext? && th.pc.todo != {} { assert th.pc.todo - {pick} + {pick} == th.pc.todo; }
  }

  ghost predicate CopyMemoryOk(m: Memory, next: Local) {
    MemoryOk(next.mem, Pending(next.th), true) && Rely(m, next.mem) && SameMap(m, next.mem)
  }

  lemma InitStepOk(m: Memory, th: Thread, pick: Key)
    requires MemoryOk(m, {}, true) && WriterOk.requires(m, th) && WriterOk(m, th) && th.pc.DirtyInit?
    ensures CopyMemoryOk(m, CopyStep(m, th, pick))
  {
    InitDirtyOk(m);
  }

  lemma KeepStepOk(m: Memory, th: Thread, pick: Key)
    requires MemoryOk(m, Pending(th), true) && th.pc.ExpungeKeep? && WriterOk(m, th)
    ensures CopyMemoryOk(m, CopyStep(m, th, pick))
  {
    KeepOk(m, th.pc.k, th.pc.todo);
  }

  lemma ExpungeStepOk(m: Memory, th: Thread, pick: Key)
    requires MemoryOk(m, Pending(th), true) && th.pc.ExpungeCas? && WriterOk(m, th)
    requires m.slots[m.read[th.pc.k]] == Nil
    ensures CopyMemoryOk(m, CopyStep(m, th, pick))
  {
    ExpungeOk(m, th.pc.k, th.pc.todo);
  }

  lemma CopyQuietOk(m: Memory, th: Thread, pick: Key)
    requires MemoryOk(m, Pending(th), true) && Copying(th.pc) && WriterOk(m, th) && CopyStep.requires(m, th, pick)
    requires th.pc.ExpungeNext? || th.pc.ExpungeLoad? || (th.pc.ExpungeCas? && m.slots[m.read[th.pc.k]] != Nil)
    ensures CopyMemoryOk(m, CopyStep(m, th, pick))
  {
    var next := CopyStep(m, th, pick);
    if th.pc.ExpungeNext? && th.pc.todo != {} { assert th.pc.todo - {pick} + {pick} == th.pc.todo; }
    assert next.mem == m && Pending(next.th) == Pending(th);
  }

  lemma CopyStepOk(m: Memory, th: Thread, pick: Key)
    requires MemoryOk(m, Pending(th), true) && ThreadOk(m, th) && Copying(th.pc)
    requires th.pc.ExpungeNext? ==> th.pc.todo == {} || pick in th.pc.todo
    ensures CopyStep.requires(m, th, pick) && LockedStepOk(m, th, CopyStep(m, th, pick))
  {
    CopyThreadOk(m, th, pick);
    if th.pc.DirtyInit? {
      InitStepOk(m, th, pick);
    } else if th.pc.ExpungeKeep? {
      KeepStepOk(m, th, pick);
    } else if th.pc.ExpungeCas? && m.slots[m.read[th.pc.k]] == Nil {
      ExpungeStepOk(m, th, pick);
    } else {
      CopyQuietOk(m, th, pick);
    }
  }

  lemma AmendStepOk(m: Memory, th: Thread)
    requires MemoryOk(m, {}, true) && ThreadOk(m, th) && th.pc.Amend?
    ensures LockedStepOk(m, th, Goto(m.(amended := true), th, AddNew))
  {
    var m' := m.(amended := true);
    assert forall k :: Current(m', k) == Current(m, k);
    assert Pending(th.(pc := AddNew)) == {};
  }

  lemma AddNewThreadOk(m: Memory, t: OpId, th: Thread, e: Entry)
    requires m.dirty.Some? && ThreadOk(m, th) && th.pc.AddNew?
    ensures var next := AddNewStep(m, t, th, e); ThreadOk(next.mem, Noted(next.mem, next.th))
  {
  }

  lemma AddNewStepOk(m: Memory, t: OpId, th: Thread, e: Entry)
    requires MemoryOk(m, {}, false) && ThreadOk(m, th) && th.pc.AddNew? && e !in m.slots
    ensures AddNewStep.requires(m, t, th, e) && LockedStepOk(m, th, AddNewStep(m, t, th, e))
  {
    AllocateOk(m, th.op.key, e, Box(t, th.op.value));
    AddNewThreadOk(m, t, th, e);
    var next := AddNewStep(m, t, th, e);
    assert Pending(next.th) == {} && !Building(next.th.pc);
  }
}
