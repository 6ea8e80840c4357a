/**
 The concurrent behaviour of SyncMap (internal/util/sync_map_compat.go) as a step machine: every
 atomic load, every compare-and-swap and every write made under the mutex is one step, and the steps
 of any number of operations interleave freely.

 Keys are only compared and values only copied by the code, so natural numbers stand for both.
 */
module SyncMapProtocol {
  import opened Wrappers

  type Key = nat
  type Value = nat
  type Entry = nat // the address of an entry
  type OpId = nat // one call of Load, Store, LoadOrStore, Delete or Range

  /** The content of `entry.p`. A box carries the operation that allocated it, so that comparing two
      boxes is comparing two pointers. */
  datatype Slot = Nil | Expunged | Box(allocator: OpId, content: Value)

  /** Range is followed for one key, any: it promotes dirty, keeps the read map that it then has, and visits
      the key if that map has an entry for it which has a value when it is loaded. What the call does for
      other keys are loads, which change nothing; the keys of a map are visited once each. */
  datatype Op =
    | Load(key: Key)
    | Store(key: Key, value: Value)
    | LoadOrStore(key: Key, value: Value)
    | Delete(key: Key)
    | Range(key: Key)

  /** A Range replies with the value that it passed on for the key, if it did. */
  datatype Reply =
    | Loaded(found: Option<Value>)
    | Actual(actual: Value, loaded: bool)
    | Done

  /** What an operation does after it released the mutex. */
  datatype After = ThenReturn(reply: Reply) | ThenLoad(e: Entry) | ThenDelete(e: Entry)

  datatype Pc =
    | Begin // about to load m.read without the mutex
    | EntryLoad(e: Entry) // entry.load
    | TryStoreLoad(e: Entry) // entry.tryStore
    | TryStoreCas(e: Entry, p: Slot)
    | TryLosLoad(e: Entry, locked: bool, miss: bool) // entry.tryLoadOrStore
    | TryLosCas(e: Entry, locked: bool, miss: bool)
    | DeleteLoad(e: Entry) // entry.delete
    | DeleteCas(e: Entry, p: Slot)
    | Acquire // m.mu.Lock()
    | Locked // about to load m.read again
    | Unexpunge(e: Entry) // entry.unexpungeLocked
    | AddDirty(e: Entry) // m.dirty[key] = e
    | StoreLocked(e: Entry) // entry.storeLocked
    | DirtyInit // m.dirtyLocked: allocate the map
    | ExpungeNext(todo: set<Key>) // m.dirtyLocked: pick the next key
    | ExpungeLoad(k: Key, todo: set<Key>) // entry.tryExpungeLocked
    | ExpungeCas(k: Key, todo: set<Key>)
    | ExpungeKeep(k: Key, todo: set<Key>) // m.dirty[k] = e
    | Amend // m.read.Store(readOnly{m: read.m, amended: true})
    | AddNew // m.dirty[key] = newEntry(value)
    | Miss(after: After) // m.missLocked
    | Unlock(after: After)
    | Finished(reply: Reply)

  /** `seen` and `effects` record history for the specification: the values the key had at the
      moments of the call, and how often the call changed the map. */
  datatype Thread = Thread(op: Op, pc: Pc, seen: set<Option<Value>>, effects: nat)

  /** The shared fields of the map; `keyOf` remembers the key an entry was allocated for. */
  datatype Memory = Memory(
    slots: map<Entry, Slot>,
    keyOf: map<Entry, Key>,
    read: map<Key, Entry>,
    amended: bool,
    dirty: Option<map<Key, Entry>>,
    misses: nat)

  datatype State = State(mem: Memory, lock: Option<OpId>, threads: map<OpId, Thread>)

  /** The memory and one call that runs on it. */
  datatype Local = Local(mem: Memory, th: Thread)

  // ---------------------------------------------------------------------------------------------
  // The map that a SyncMap stands for
  // ---------------------------------------------------------------------------------------------

  predicate InDirty(m: Memory, k: Key) {
    m.dirty.Some? && k in m.dirty.value
  }

  /** The entry that currently holds the value of `k`. */
  function Current(m: Memory, k: Key): Option<Entry> {
    if k in m.read then Some(m.read[k])
    else if InDirty(m, k) then Some(m.dirty.value[k])
    else None
  }

  function Content(m: Memory, e: Entry): Option<Value> {
    if e in m.slots && m.slots[e].Box? then Some(m.slots[e].content) else None
  }

  /** The plain map: the value of `k`, if any. */
  function Lookup(m: Memory, k: Key): Option<Value> {
    match Current(m, k)
    case None => None
    case Some(e) => Content(m, e)
  }

  // ---------------------------------------------------------------------------------------------
  // Steps
  // ---------------------------------------------------------------------------------------------

  function Goto(m: Memory, th: Thread, pc: Pc): Local {
    Local(m, th.(pc := pc))
  }

  /** The step by which a call changes the map. */
  function Effect(m: Memory, th: Thread, pc: Pc): Local {
    Local(m, th.(pc := pc, effects := th.effects + 1))
  }

  function SetSlot(m: Memory, e: Entry, p: Slot): Memory {
    m.(slots := m.slots[e := p])
  }

  /** The load of m.read at the start of each operation. */
  function BeginStep(m: Memory, th: Thread): Local {
    var op := th.op;
    if op.Range? && m.amended then Goto(m, th, Acquire)
    else if op.key in m.read then
      var e := m.read[op.key];
      match op
      case Load(_) => Goto(m, th, EntryLoad(e))
      case Range(_) => Goto(m, th, EntryLoad(e))
      case Store(_, _) => Goto(m, th, TryStoreLoad(e))
      case LoadOrStore(_, _) => Goto(m, th, TryLosLoad(e, false, false))
      case _ => Goto(m, th, DeleteLoad(e))
    else if op.Store? || op.LoadOrStore? || m.amended then Goto(m, th, Acquire)
    else Goto(m, th, Finished(if op.Load? || op.Range? then Loaded(None) else Done))
  }

  predicate OnEntry(pc: Pc) {
    || pc.EntryLoad? || pc.TryStoreLoad? || pc.TryStoreCas? || pc.TryLosLoad? || pc.TryLosCas?
    || pc.DeleteLoad? || pc.DeleteCas?
  }

  /** entry.load, entry.tryStore, entry.tryLoadOrStore and entry.delete, as call number `t`. */
  function EntryStep(m: Memory, t: OpId, th: Thread): Local
    requires OnEntry(th.pc) && th.pc.e in m.slots
    requires (th.pc.TryStoreCas? ==> th.op.Store?) && (th.pc.TryLosCas? ==> th.op.LoadOrStore?)
  {
    var p := m.slots[th.pc.e];
    match th.pc
    case EntryLoad(e) => Goto(m, th, Finished(Loaded(Content(m, e))))
    case TryStoreLoad(e) => Goto(m, th, if p == Expunged then Acquire else TryStoreCas(e, p))
    case TryStoreCas(e, expected) =>
      if p == expected then Effect(SetSlot(m, e, Box(t, th.op.value)), th, Finished(Done))
      else Goto(m, th, TryStoreLoad(e))
    case TryLosLoad(e, locked, miss) =>
      if p == Expunged then Goto(m, th, if locked then LeaveLos(miss, Actual(0, false)) else Acquire)
      else if p.Box? then Goto(m, th, LosReturn(locked, miss, Actual(p.content, true)))
      else Goto(m, th, TryLosCas(e, locked, miss))
    case TryLosCas(e, locked, miss) =>
      if p == Nil then
        Effect(SetSlot(m, e, Box(t, th.op.value)), th, LosReturn(locked, miss, Actual(th.op.value, false)))
      else Goto(m, th, TryLosLoad(e, locked, miss))
    case DeleteLoad(e) => Goto(m, th, if p.Box? then DeleteCas(e, p) else Finished(Done))
    case DeleteCas(e, expected) =>
      if p == expected then Effect(SetSlot(m, e, Nil), th, Finished(Done)) else Goto(m, th, DeleteLoad(e))
  }

  /** Where LoadOrStore goes once tryLoadOrStore returned. */
  function LosReturn(locked: bool, miss: bool, reply: Reply): Pc {
    if locked then LeaveLos(miss, reply) else Finished(reply)
  }

  function LeaveLos(miss: bool, reply: Reply): Pc {
    if miss then Miss(ThenReturn(reply)) else Unlock(ThenReturn(reply))
  }

  /** The decision taken after m.read was loaded again under the mutex. */
  function LockedStep(m: Memory, th: Thread): Local {
    var op := th.op;
    var k := op.key;
    match op
    case Load(_) =>
      if k in m.read then Goto(m, th, Unlock(ThenLoad(m.read[k])))
      else if !m.amended then Goto(m, th, Unlock(ThenReturn(Loaded(None))))
      else if InDirty(m, k) then Goto(m, th, Miss(ThenLoad(m.dirty.value[k])))
      else Goto(m, th, Miss(ThenReturn(Loaded(None))))
    case Delete(_) =>
      if k in m.read then Goto(m, th, Unlock(ThenDelete(m.read[k])))
      else if m.amended && InDirty(m, k) then
        Effect(m.(dirty := Some(m.dirty.value - {k})), th, Unlock(ThenReturn(Done)))
      else Goto(m, th, Unlock(ThenReturn(Done)))
    case Range(_) =>
      var m1 := if m.amended && m.dirty.Some? then Promote(m) else m;
      Goto(m1, th, Unlock(if k in m1.read then ThenLoad(m1.read[k]) else ThenReturn(Loaded(None))))
    case _ =>
      if k in m.read then Goto(m, th, Unexpunge(m.read[k]))
      else if InDirty(m, k) then
        var e := m.dirty.value[k];
        Goto(m, th, if op.Store? then StoreLocked(e) else TryLosLoad(e, true, true))
      else Goto(m, th, if m.amended then AddNew else DirtyInit)
  }

  /** m.dirty becomes the read-only map. */
  function Promote(m: Memory): Memory
    requires m.dirty.Some?
  {
    m.(read := m.dirty.value, amended := false, dirty := None, misses := 0)
  }

  function MissStep(m: Memory, th: Thread): Local
    requires th.pc.Miss? && m.dirty.Some?
  {
    var m1 := if m.misses + 1 < |m.dirty.value| then m.(misses := m.misses + 1) else Promote(m);
    Goto(m1, th, Unlock(th.pc.after))
  }

  predicate OnReadHit(pc: Pc) {
    pc.Unexpunge? || pc.AddDirty? || pc.StoreLocked?
  }

  /** unexpungeLocked, the write of the dirty map and storeLocked, as call number `t`. */
  function ReadHitStep(m: Memory, t: OpId, th: Thread): Local
    requires OnReadHit(th.pc) && th.pc.e in m.slots && (th.op.Store? || th.op.LoadOrStore?)
    requires th.pc.AddDirty? ==> m.dirty.Some?
  {
    match th.pc
    case Unexpunge(e) =>
      if m.slots[e] == Expunged then Goto(SetSlot(m, e, Nil), th, AddDirty(e))
      else Goto(m, th, AfterUnexpunge(th.op, e))
    case AddDirty(e) =>
      Goto(m.(dirty := Some(m.dirty.value[th.op.key := e])), th, AfterUnexpunge(th.op, e))
    case StoreLocked(e) =>
      Effect(SetSlot(m, e, Box(t, th.op.value)), th, Unlock(ThenReturn(Done)))
  }

  function AfterUnexpunge(op: Op, e: Entry): Pc {
    if op.Store? then StoreLocked(e) else TryLosLoad(e, true, false)
  }

  /** Inside dirtyLocked. */
  predicate Copying(pc: Pc) {
    pc.DirtyInit? || pc.ExpungeNext? || pc.ExpungeLoad? || pc.ExpungeCas? || pc.ExpungeKeep?
  }

  /** dirtyLocked: the range over read.m visits the keys in any order; `pick` is the next one. */
  function CopyStep(m: Memory, th: Thread, pick: Key): Local
    requires Copying(th.pc)
    requires th.pc.ExpungeLoad? || th.pc.ExpungeCas? || th.pc.ExpungeKeep? ==>
               m.dirty.Some? && th.pc.k in m.read && m.read[th.pc.k] in m.slots
    requires th.pc.ExpungeNext? ==> th.pc.todo == {} || pick in th.pc.todo
  {
    match th.pc
    case DirtyInit =>
      if m.dirty.Some? then Goto(m, th, Amend)
      else Goto(m.(dirty := Some(map[])), th, ExpungeNext(m.read.Keys))
    case ExpungeNext(todo) =>
      Goto(m, th, if todo == {} then Amend else ExpungeLoad(pick, todo - {pick}))
    case ExpungeLoad(k, todo) =>
      var p := m.slots[m.read[k]];
      Goto(m, th, if p == Nil then ExpungeCas(k, todo)
                  else if p == Expunged then ExpungeNext(todo)
                  else ExpungeKeep(k, todo))
    case ExpungeCas(k, todo) =>
      var e := m.read[k];
      if m.slots[e] == Nil then Goto(SetSlot(m, e, Expunged), th, ExpungeNext(todo))
      else Goto(m, th, ExpungeLoad(k, todo))
    case ExpungeKeep(k, todo) =>
      Goto(m.(dirty := Some(m.dirty.value[k := m.read[k]])), th, ExpungeNext(todo))
  }

  /** newEntry(value) goes into the dirty map; `e` is its address. */
  function AddNewStep(m: Memory, t: OpId, th: Thread, e: Entry): Local
    requires m.dirty.Some? && (th.op.Store? || th.op.LoadOrStore?)
  {
    var op := th.op;
    var m1 := m.(slots := m.slots[e := Box(t, op.value)],
                 keyOf := m.keyOf[e := op.key],
                 dirty := Some(m.dirty.value[op.key := e]));
    Effect(m1, th, Unlock(ThenReturn(if op.Store? then Done else Actual(op.value, false))))
  }

  function AfterUnlock(after: After): Pc {
    match after
    case ThenReturn(reply) => Finished(reply)
    case ThenLoad(e) => EntryLoad(e)
    case ThenDelete(e) => DeleteLoad(e)
  }

  /** One step of call `t` other than taking or releasing the mutex; `pick` resolves the choice of a
      key or of a fresh address. */
  ghost predicate Act(m: Memory, t: OpId, th: Thread, pick: nat, next: Local) {
    if th.pc.Begin? then next == BeginStep(m, th)
    else if th.pc.Locked? then next == LockedStep(m, th)
    else if OnEntry(th.pc) then EntryStep.requires(m, t, th) && next == EntryStep(m, t, th)
    else if OnReadHit(th.pc) then ReadHitStep.requires(m, t, th) && next == ReadHitStep(m, t, th)
    else if Copying(th.pc) then CopyStep.requires(m, th, pick) && next == CopyStep(m, th, pick)
    else if th.pc.Amend? then next == Goto(m.(amended := true), th, AddNew)
    else if th.pc.AddNew? then
      AddNewStep.requires(m, t, th, pick) && pick !in m.slots && next == AddNewStep(m, t, th, pick)
    else th.pc.Miss? && m.dirty.Some? && next == MissStep(m, th)
  }

  /** Call `t` takes a step to `next`; every running call notes the value its key has afterwards. */
  function Moved(s: State, t: OpId, lock: Option<OpId>, next: Local): State {
    State(next.mem, lock, map u | u in s.threads.Keys + {t} ::
      Noted(next.mem, if u == t then next.th else s.threads[u]))
  }

  function Noted(m: Memory, th: Thread): Thread {
    if th.pc.Finished? then th else th.(seen := th.seen + {Lookup(m, th.op.key)})
  }

  datatype Event =
    | Call(t: OpId, op: Op) // a new call begins
    | Step(t: OpId, pick: nat) // a running call takes one step

  ghost predicate Next(s: State, ev: Event, s': State) {
    match ev
    case Call(t, op) =>
      t !in s.threads && s' == Moved(s, t, s.lock, Local(s.mem, Thread(op, Begin, {}, 0)))
    case Step(t, pick) =>
      && t in s.threads
      && var th := s.threads[t];
         match th.pc
         case Acquire => s.lock == None && s' == Moved(s, t, Some(t), Goto(s.mem, th, Locked))
         case Unlock(after) => s' == Moved(s, t, None, Goto(s.mem, th, AfterUnlock(after)))
         case _ => exists next :: Act(s.mem, t, th, pick, next) && s' == Moved(s, t, s.lock, next)
  }

  ghost predicate Init(s: State) {
    s == State(Memory(map[], map[], map[], false, None, 0), None, map[])
  }
}
