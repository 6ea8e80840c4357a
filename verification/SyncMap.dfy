/**
 SyncMap (internal/util/sync_map_compat.go) as the object it is: two maps that share mutable entries.
 Without concurrent calls each method does to the object exactly what it would do to a plain map.
 */
module SyncMap {
  import opened Wrappers

  /** The content of `entry.p`: nil, the expunged marker, or a pointer to a value. */
  datatype Slot<V> = Nil | Expunged | Box(content: V)

  class Entry<V> {
    var p: Slot<V>

    constructor (v: V)
      ensures p == Box(v)
    {
      p := Box(v);
    }
  }

  class SyncMap<K(==,!new), V(!new)> {
    var read: map<K, Entry<V>> // readOnly.m
    var amended: bool // readOnly.amended
    var dirty: Option<map<K, Entry<V>>>
    var misses: nat
    ghost var Repr: set<Entry<V>> // every entry of the two maps, and perhaps some that left them
    ghost var Owner: map<Entry<V>, K> // the key that an entry was created for

    function Dirty(): map<K, Entry<V>>
      reads this
    {
      if dirty.Some? then dirty.value else map[]
    }

    /** No entry serves two keys, and a shared key shares its entry. */
    ghost predicate Separate()
      reads this
    {
      && Repr == Owner.Keys
      && (forall k | k in read :: read[k] in Repr && Owner[read[k]] == k)
      && (forall k | k in Dirty() :: Dirty()[k] in Repr && Owner[Dirty()[k]] == k)
      && (forall k | k in read && k in Dirty() :: read[k] == Dirty()[k])
    }

    /** A read entry is expunged exactly when dirty exists and lacks its key. */
    ghost predicate Valid()
      reads this, Repr
    {
      && Separate()
      && (dirty.Some? <==> amended)
      && (forall k | k in read :: read[k].p == Expunged <==> amended && k !in Dirty())
      && (forall k | k in Dirty() :: Dirty()[k].p != Expunged)
    }

    /** The entry that holds the value of `k`. */
    ghost function Current(k: K): Option<Entry<V>>
      reads this
    {
      if k in read then Some(read[k]) else if k in Dirty() then Some(Dirty()[k]) else None
    }

    /** The plain map that the object stands for. */
    ghost function Contents(): map<K, V>
      requires Separate()
      reads this, Repr
    {
      map k | k in read.Keys + Dirty().Keys && Current(k).value.p.Box? :: Current(k).value.p.content
    }

    constructor ()
      ensures Valid() && Contents() == map[] && Repr == {}
    {
      read, amended, dirty, misses, Repr, Owner := map[], false, None, 0, {}, map[];
    }

    /** m.dirty becomes the read-only map. */
    method Promote()
      requires Valid() && dirty.Some?
      modifies this
      ensures Valid() && Contents() == old(Contents()) && Repr == old(Repr)
      ensures read == old(Dirty()) && !amended
    {
      read, amended, dirty, misses := dirty.value, false, None, 0;
      assert read == old(Dirty()) && Dirty() == map[];
      assert Separate();
      assert Contents().Keys == old(Contents()).Keys;
    }

    method MissLocked()
      requires Valid() && dirty.Some?
      modifies this
      ensures Valid() && Contents() == old(Contents()) && Repr == old(Repr)
    {
      misses := misses + 1;
      assert Dirty() == old(Dirty()) && Separate();
      assert Contents() == old(Contents());
      if misses < |dirty.value| {
        return;
      }
      Promote();
    }

    method Load(key: K) returns (r: Option<V>)
      requires Valid()
      modifies this
      ensures Valid() && Contents() == old(Contents()) && Repr == old(Repr)
      ensures r == if key in Contents() then Some(Contents()[key]) else None
    {
      var e: Option<Entry<V>> := None;
      if key in read {
        e := Some(read[key]);
      } else if amended {
        if key in dirty.value {
          e := Some(dirty.value[key]);
        }
        MissLocked();
      }
      if e.None? {
        return None;
      }
      r := if e.value.p.Box? then Some(e.value.p.content) else None;
    }

    /** dirtyLocked: a shallow copy of the read map without the deleted entries, which are expunged. */
    method DirtyLocked()
      requires Valid()
      modifies this, Repr
      ensures Separate() && Contents() == old(Contents()) && Repr == old(Repr)
      ensures read == old(read) && amended == old(amended) && dirty.Some? && misses == old(misses)
      ensures old(dirty).Some? ==> dirty == old(dirty)
      ensures forall k | k in read :: read[k].p == Expunged <==> k !in Dirty()
      ensures forall k | k in Dirty() :: Dirty()[k].p != Expunged
      ensures old(dirty).None? ==> Dirty().Keys <= read.Keys
    {
      if dirty.Some? {
        return;
      }
      dirty := Some(map[]);
      var todo := read.Keys;
      while todo != {}
        invariant todo <= read.Keys && read == old(read) && dirty.Some? && Repr == old(Repr) && Owner == old(Owner)
        invariant amended == old(amended) && misses == old(misses)
        invariant Dirty().Keys <= read.Keys - todo
        invariant forall k | k in Dirty() :: Dirty()[k] == read[k]
        invariant forall k | k in read && k !in todo :: read[k].p == Expunged <==> k !in Dirty()
        invariant forall k | k in read ::
                    read[k].p == old(read[k].p) || (k !in todo && old(read[k].p) == Nil && read[k].p == Expunged)
        decreases todo
      {
        var k :| k in todo;
        todo := todo - {k};
        var e := read[k];
        if e.p == Nil {
          e.p := Expunged;
        } else {
          dirty := Some(dirty.value[k := e]);
        }
      }
      assert Separate();
      assert Contents().Keys == old(Contents()).Keys;
    }

    /** Marks the read map as incomplete, with a dirty map ready for a new key. */
    method Amend()
      requires Valid()
      modifies this, Repr
      ensures Valid() && Contents() == old(Contents()) && Repr == old(Repr) && amended
      ensures read == old(read) && Dirty().Keys <= read.Keys + old(Dirty()).Keys
    {
      if !amended {
        DirtyLocked();
        amended := true;
        assert Separate();
      }
    }

    /** The last branch of Store and LoadOrStore: the key is in neither map. */
    method InsertNew(key: K, value: V)
      requires Valid() && key !in read && key !in Dirty()
      modifies this, Repr
      ensures Valid() && Contents() == old(Contents())[key := value] && fresh(Repr - old(Repr))
    {
      Amend();
      AddEntry(key, value);
    }

    method AddEntry(key: K, value: V)
      requires Valid() && amended && key !in read && key !in Dirty()
      modifies this
      ensures Valid() && Contents() == old(Contents())[key := value] && fresh(Repr - old(Repr))
    {
      var e := new Entry(value);
      Own(key, e);
      Link(key, e);
    }

    /** A new entry is created for the key. */
    ghost method Own(key: K, e: Entry<V>)
      requires Valid() && e !in Repr
      modifies this`Repr, this`Owner
      ensures Valid() && Contents() == old(Contents()) && Repr == old(Repr) + {e} && Owner == old(Owner)[e := key]
    {
      Repr, Owner := Repr + {e}, Owner[e := key];
      assert Dirty() == old(Dirty()) && Separate();
    }

    method Link(key: K, e: Entry<V>)
      requires Valid() && amended && key !in read && key !in Dirty() && e in Repr && Owner[e] == key && e.p.Box?
      modifies this`dirty
      ensures Valid() && Contents() == old(Contents())[key := e.p.content]
    {
      dirty := Some(dirty.value[key := e]);
      assert Dirty() == old(Dirty())[key := e] && Separate();
      assert Contents().Keys == old(Contents()).Keys + {key};
    }

    /** tryStore and storeLocked on the live entry of a key. */
    method StoreEntry(key: K, e: Entry<V>, value: V)
      requires Valid() && Current(key) == Some(e) && e.p != Expunged
      modifies e
      ensures Valid() && Contents() == old(Contents())[key := value]
    {
      e.p := Box(value);
      assert Contents().Keys == old(Contents()).Keys + {key};
    }

    /** unexpungeLocked, followed by the entry joining the dirty map. */
    method Unexpunge(key: K)
      requires Valid() && key in read
      modifies this, read[key]
      ensures Valid() && Contents() == old(Contents()) && Repr == old(Repr) && read == old(read)
      ensures read[key].p == if old(read[key].p) == Expunged then Nil else old(read[key].p)
    {
      var e := read[key];
      if e.p == Expunged {
        e.p := Nil;
        dirty := Some(dirty.value[key := e]);
        assert Dirty() == old(Dirty())[key := e] && Separate();
        assert Contents().Keys == old(Contents()).Keys;
      }
    }

    method Store(key: K, value: V)
      requires Valid()
      modifies this, Repr
      ensures Valid() && Contents() == old(Contents())[key := value] && fresh(Repr - old(Repr))
    {
      if key in read {
        Unexpunge(key);
        StoreEntry(key, read[key], value);
      } else if key in Dirty() {
        StoreEntry(key, Dirty()[key], value);
      } else {
        InsertNew(key, value);
      }
    }

    /** tryLoadOrStore on the live entry of a key. */
    method LoadOrStoreEntry(key: K, e: Entry<V>, value: V) returns (actual: V, loaded: bool)
      requires Valid() && Current(key) == Some(e) && e.p != Expunged
      modifies e
      ensures Valid() && loaded == (key in old(Contents()))
      ensures if loaded then actual == old(Contents())[key] && Contents() == old(Contents())
              else actual == value && Contents() == old(Contents())[key := value]
    {
      if e.p.Box? {
        return e.p.content, true;
      }
      StoreEntry(key, e, value);
      return value, false;
    }

    method LoadOrStore(key: K, value: V) returns (actual: V, loaded: bool)
      requires Valid()
      modifies this, Repr
      ensures Valid() && fresh(Repr - old(Repr))
      ensures loaded == (key in old(Contents()))
      ensures if loaded then actual == old(Contents())[key] && Contents() == old(Contents())
              else actual == value && Contents() == old(Contents())[key := value]
    {
      if key in read {
        Unexpunge(key);
        actual, loaded := LoadOrStoreEntry(key, read[key], value);
      } else if key in Dirty() {
        actual, loaded := LoadOrStoreEntry(key, Dirty()[key], value);
        MissLocked();
      } else {
        InsertNew(key, value);
        return value, false;
      }
    }

    method Delete(key: K)
      requires Valid()
      modifies this, Repr
      ensures Valid() && Contents() == old(Contents()) - {key} && Repr == old(Repr)
    {
      if key in read {
        if read[key].p.Box? {
          read[key].p := Nil;
        }
      } else if amended {
        dirty := Some(dirty.value - {key});
        assert Dirty() == old(Dirty()) - {key};
        assert Separate();
      }
      assert Contents().Keys == old(Contents()).Keys - {key};
    }

    /** Range: the pairs passed to `f`, in the order of the calls; `f` returns false to stop. */
    method Range(f: (K, V) -> bool) returns (visited: seq<(K, V)>)
      requires Valid()
      modifies this
      ensures Valid() && Contents() == old(Contents()) && Repr == old(Repr)
      ensures Ranges(Contents(), f, visited)
    {
      if amended {
        Promote();
      }
      visited := [];
      var todo := read.Keys;
      while todo != {}
        invariant todo <= read.Keys && Valid() && !amended && Contents() == old(Contents())
        invariant forall i | 0 <= i < |visited| ::
                    && visited[i].0 in Contents() && visited[i].0 !in todo
                    && Contents()[visited[i].0] == visited[i].1 && f(visited[i].0, visited[i].1)
        invariant forall i, j | 0 <= i < j < |visited| :: visited[i].0 != visited[j].0
        invariant forall k | k in Contents() && k !in todo :: exists i :: 0 <= i < |visited| && visited[i].0 == k
        decreases todo
      {
        var k :| k in todo;
        ghost var before := visited;
        if read[k].p.Box? {
          visited := visited + [(k, read[k].p.content)];
          assert visited[|before|].0 == k;
          if !f(k, read[k].p.content) {
            return;
          }
        }
        todo := todo - {k};
        assert forall i | 0 <= i < |before| :: visited[i] == before[i];
      }
    }
  }

  // ---------------------------------------------------------------------------------------------
  // Every sequence of operations
  // ---------------------------------------------------------------------------------------------

  /** `visited` are different pairs of the map; only the last one may have made `f` stop, and if it did not
      then all pairs were visited. */
  ghost predicate Ranges<K(!new), V(!new)>(m: map<K, V>, f: (K, V) -> bool, visited: seq<(K, V)>) {
    && (forall i | 0 <= i < |visited| :: visited[i].0 in m && m[visited[i].0] == visited[i].1)
    && (forall i, j | 0 <= i < j < |visited| :: visited[i].0 != visited[j].0)
    && (forall i | 0 <= i < |visited| - 1 :: f(visited[i].0, visited[i].1))
    && (visited == [] || f(visited[|visited| - 1].0, visited[|visited| - 1].1) ==>
          forall k | k in m :: exists i :: 0 <= i < |visited| && visited[i].0 == k)
  }

  datatype Op<!K, !V> =
    | Load(key: K)
    | Store(key: K, value: V)
    | LoadOrStore(key: K, value: V)
    | Delete(key: K)
    | Range(f: (K, V) -> bool)

  datatype Reply<K, V> = Loaded(found: Option<V>) | Actual(actual: V, loaded: bool) | Done | Visited(pairs: seq<(K, V)>)

  /** A plain map may give this reply to the operation. */
  ghost predicate Answers<K(!new), V(!new)>(m: map<K, V>, op: Op<K, V>, reply: Reply<K, V>) {
    match op
    case Load(k) => reply == Loaded(if k in m then Some(m[k]) else None)
    case Store(_, _) => reply == Done
    case LoadOrStore(k, v) => reply == if k in m then Actual(m[k], true) else Actual(v, false)
    case Delete(_) => reply == Done
    case Range(f) => reply.Visited? && Ranges(m, f, reply.pairs)
  }

  /** A plain map after the operation. */
  function After<K, V>(m: map<K, V>, op: Op<K, V>): map<K, V> {
    match op
    case Store(k, v) => m[k := v]
    case LoadOrStore(k, v) => if k in m then m else m[k := v]
    case Delete(k) => m - {k}
    case _ => m
  }

  /** A plain map after all the operations. */
  function AfterAll<K, V>(ops: seq<Op<K, V>>): map<K, V> {
    if ops == [] then map[] else After(AfterAll(ops[..|ops| - 1]), ops[|ops| - 1])
  }

  /** The first `n` replies are those of a plain map. */
  ghost predicate Answered<K(!new), V(!new)>(ops: seq<Op<K, V>>, replies: seq<Reply<K, V>>, n: nat) {
    |replies| == n <= |ops| && forall i | 0 <= i < n :: Answers(AfterAll(ops[..i]), ops[i], replies[i])
  }

  /** Any sequence of operations on a new SyncMap gets the replies that a plain map would give. */
  method RunAll<K(==,!new), V(!new)>(ops: seq<Op<K, V>>) returns (replies: seq<Reply<K, V>>)
    ensures Answered(ops, replies, |ops|)
  {
    var m := new SyncMap<K, V>();
    replies := [];
    for i := 0 to |ops|
      invariant m.Valid() && fresh(m) && fresh(m.Repr)
      invariant m.Contents() == AfterAll(ops[..i]) && Answered(ops, replies, i)
    {
      AfterOne(ops, i);
      var reply := Perform(m, ops[i]);
      AnsweredOne(ops, replies, i, reply);
      replies := replies + [reply];
    }
  }

  lemma AnsweredOne<K(!new), V(!new)>(ops: seq<Op<K, V>>, replies: seq<Reply<K, V>>, i: nat, reply: Reply<K, V>)
    requires i < |ops| && Answered(ops, replies, i) && Answers(AfterAll(ops[..i]), ops[i], reply)
    ensures Answered(ops, replies + [reply], i + 1)
  {
  }

  lemma AfterOne<K, V>(ops: seq<Op<K, V>>, i: nat)
    requires i < |ops|
    ensures AfterAll(ops[..i + 1]) == After(AfterAll(ops[..i]), ops[i])
  {
    assert ops[..i + 1][..i] == ops[..i];
  }

  method Perform<K(==,!new), V(!new)>(m: SyncMap<K, V>, op: Op<K, V>) returns (reply: Reply<K, V>)
    requires m.Valid()
    modifies m, m.Repr
    ensures m.Valid() && fresh(m.Repr - old(m.Repr))
    ensures Answers(old(m.Contents()), op, reply) && m.Contents() == After(old(m.Contents()), op)
  {
    match op
    case Load(k) =>
      var r := m.Load(k);
      reply := Loaded(r);
    case Store(k, v) =>
      m.Store(k, v);
      reply := Done;
    case LoadOrStore(k, v) =>
      var actual, loaded := m.LoadOrStore(k, v);
      reply := Actual(actual, loaded);
    case Delete(k) =>
      m.Delete(k);
      reply := Done;
    case Range(f) =>
      var pairs := m.Range(f);
      reply := Visited(pairs);
  }
}
