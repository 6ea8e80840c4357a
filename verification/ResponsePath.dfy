/** The response path of a result node (graphql/executor/result_node.go) inverts navigation from the root. */
module ResponsePath {
  import opened Wrappers
  import opened ResultNodeList

  // ---------------------------------------------------------------------------------------------
  // Result trees in memory
  // ---------------------------------------------------------------------------------------------

  /** The value of a result node; the fields of an object are nodes one behind the other from `base` on. */
  datatype Value = NilValue | Leaf | List(blocks: seq<Block>) | Object(base: Address, keys: seq<string>)

  datatype Node = Node(parent: Option<Address>, value: Value)

  type Memory = map<Address, Node>

  datatype Key = Index(i: int) | FieldName(name: string)

  /** From a node through its parents to a node that has none. */
  ghost predicate IsChain(mem: Memory, chain: seq<Address>) {
    && chain != [] && (forall i | 0 <= i < |chain| :: chain[i] in mem)
    && (forall i | 0 <= i < |chain| - 1 :: mem[chain[i]].parent == Some(chain[i + 1]))
    && mem[chain[|chain| - 1]].parent == None
  }

  /** The key of `child` in the value of its parent: None where the program would panic. */
  function KeyOf(value: Value, child: Address): Option<Key>
    requires value.List? || value.Object?
  {
    match value
    case List(blocks) =>
      if blocks == [] || blocks[0].size == 0 then None
      else Some(Index(match Position(blocks, child) case None => -1 case Some(i) => i))
    case Object(base, keys) =>
      if keys == [] || child < base || (child - base) / NODE_SIZE >= |keys| then None
      else Some(FieldName(keys[(child - base) / NODE_SIZE]))
  }

  /** The keys that Path collects going up from `chain[i]`; a parent that is neither a list nor an object
      is passed over, and the child stays the same. */
  function GoUp(mem: Memory, chain: seq<Address>, i: nat, child: Address): Option<seq<Key>>
    requires i < |chain| && forall k | 0 <= k < |chain| :: chain[k] in mem
    decreases |chain| - i
  {
    if i + 1 == |chain| then Some([])
    else
      var value := mem[chain[i + 1]].value;
      if !value.List? && !value.Object? then GoUp(mem, chain, i + 1, child)
      else match KeyOf(value, child)
           case None => None
           case Some(key) =>
             match GoUp(mem, chain, i + 1, chain[i + 1])
             case None => None
             case Some(keys) => Some([key] + keys)
  }

  function Reversed<T>(s: seq<T>): seq<T> {
    if s == [] then [] else Reversed(s[1..]) + [s[0]]
  }

  /** Path, as the source computes it; `chain` is the way from the node to the root. */
  method Path(mem: Memory, node: Address, ghost chain: seq<Address>) returns (path: Option<seq<Key>>)
    requires IsChain(mem, chain) && chain[0] == node
    ensures path == match GoUp(mem, chain, 0, node)
                    case None => None
                    case Some(keys) => Some(Reversed(keys))
  {
    var pathKeys: seq<Key> := [];
    var childNode := node;
    var parent := mem[node].parent;
    ghost var i := 0;
    PrependOn([], Index(0), GoUp(mem, chain, 0, node));
    while parent.Some?
      invariant 0 <= i < |chain| && parent == mem[chain[i]].parent
      invariant GoUp(mem, chain, 0, node) == Prepended(pathKeys, GoUp(mem, chain, i, childNode))
      decreases |chain| - i
    {
      var value := mem[parent.value].value;
      if value.List? || value.Object? {
        var key := KeyOf(value, childNode);
        if key == None { return None; }
        PrependOn(pathKeys, key.value, GoUp(mem, chain, i + 1, parent.value));
        pathKeys := pathKeys + [key.value];
        childNode := parent.value;
      }
      parent := mem[parent.value].parent;
      i := i + 1;
    }
    PrependOn(pathKeys, Index(0), None);
    var reversed: seq<Key> := [];
    var n := |pathKeys|;
    while n > 0
      invariant 0 <= n <= |pathKeys| && reversed == Reversed(pathKeys[n..])
    {
      n := n - 1;
      assert pathKeys[n..][1..] == pathKeys[n + 1..];
      reversed := reversed + [pathKeys[n]];
    }
    assert pathKeys[0..] == pathKeys;
    path := Some(reversed);
  }

  lemma PrependOn(keys: seq<Key>, key: Key, r: Option<seq<Key>>)
    ensures Prepended([], r) == r && Prepended(keys, Some([])) == Some(keys)
    ensures Prepended(keys, Prepended([key], r)) == Prepended(keys + [key], r)
  {
    if r.Some? { assert [] + r.value == r.value && keys + ([key] + r.value) == keys + [key] + r.value; }
    assert keys + [] == keys;
  }

  function Prepended(keys: seq<Key>, r: Option<seq<Key>>): Option<seq<Key>> {
    match r
    case None => None
    case Some(more) => Some(keys + more)
  }

  // ---------------------------------------------------------------------------------------------
  // Navigation
  // ---------------------------------------------------------------------------------------------

  /** The child under a key. */
  function Child(value: Value, key: Key): Option<Address> {
    match value
    case List(blocks) =>
      if key.Index? && 0 <= key.i < |AllNodes(blocks)| then Some(AllNodes(blocks)[key.i]) else None
    case Object(base, keys) =>
      if key.FieldName? && key.name in keys then Some(NodeAt(base, FirstIndex(keys, key.name))) else None
    case _ => None
  }

  function FirstIndex(keys: seq<string>, name: string): (i: nat)
    requires name in keys
    ensures i < |keys| && keys[i] == name
  {
    if keys[0] == name then 0 else 1 + FirstIndex(keys[1..], name)
  }

  function Follow(mem: Memory, from: Address, path: seq<Key>): Option<Address>
    decreases |path|
  {
    if path == [] then Some(from)
    else if from !in mem then None
    else match Child(mem[from].value, path[0])
         case None => None
         case Some(next) => Follow(mem, next, path[1..])
  }

  lemma {:induction false} FollowOn(mem: Memory, from: Address, path: seq<Key>, to: Address, key: Key)
    requires Follow(mem, from, path) == Some(to) && to in mem
    ensures Follow(mem, from, path + [key]) == Child(mem[to].value, key)
    decreases |path|
  {
    if path == [] {
      assert [key][1..] == [];
    } else {
      FollowOn(mem, Child(mem[from].value, path[0]).value, path[1..], to, key);
      assert (path + [key])[1..] == path[1..] + [key];
    }
  }

  /** The parent is a list or an object that holds the child, its list has no empty first chunk and no chunk
      shares memory with another, and its response keys are distinct. */
  ghost predicate Holds(value: Value, child: Address) {
    match value
    case List(blocks) => child in AllNodes(blocks) && Disjoint(blocks) && blocks[0].size > 0
    case Object(base, keys) =>
      && (forall i, j | 0 <= i < j < |keys| :: keys[i] != keys[j])
      && exists j :: 0 <= j < |keys| && child == NodeAt(base, j)
    case _ => false
  }

  lemma KeyFindsChild(value: Value, child: Address)
    requires Holds(value, child)
    ensures KeyOf(value, child).Some? && Child(value, KeyOf(value, child).value) == Some(child)
  {
    match value
    case List(blocks) =>
      var i :| 0 <= i < |AllNodes(blocks)| && AllNodes(blocks)[i] == child;
      PositionOfNode(blocks, i);
    case Object(base, keys) =>
      var j :| 0 <= j < |keys| && child == NodeAt(base, j);
      NodeInside(Block(base, |keys|), j);
      assert FirstIndex(keys, keys[j]) == j;
  }

  lemma {:induction false} ReversedOn<T>(t: T, s: seq<T>)
    ensures Reversed([t] + s) == Reversed(s) + [t]
  {
    assert ([t] + s)[1..] == s;
  }

  lemma {:induction false} UpAndDown(mem: Memory, chain: seq<Address>, i: nat)
    requires IsChain(mem, chain) && i < |chain|
    requires forall k | 0 <= k < |chain| - 1 :: Holds(mem[chain[k + 1]].value, chain[k])
    ensures var keys := GoUp(mem, chain, i, chain[i]);
            keys.Some? && Follow(mem, chain[|chain| - 1], Reversed(keys.value)) == Some(chain[i])
    decreases |chain| - i
  {
    if i + 1 < |chain| {
      var value := mem[chain[i + 1]].value;
      assert Holds(mem[chain[i + 1]].value, chain[i]);
      KeyFindsChild(value, chain[i]);
      UpAndDown(mem, chain, i + 1);
      var key, keys := KeyOf(value, chain[i]).value, GoUp(mem, chain, i + 1, chain[i + 1]).value;
      ReversedOn(key, keys);
      FollowOn(mem, chain[|chain| - 1], Reversed(keys), chain[i + 1], key);
    }
  }

  /** Following the path of a node from the root leads to the node, when all its ancestors are lists and
      objects that hold their child. */
  lemma PathInvertsNavigation(mem: Memory, chain: seq<Address>)
    requires IsChain(mem, chain)
    requires forall k | 0 <= k < |chain| - 1 :: Holds(mem[chain[k + 1]].value, chain[k])
    ensures var keys := GoUp(mem, chain, 0, chain[0]);
            keys.Some? && Follow(mem, chain[|chain| - 1], Reversed(keys.value)) == Some(chain[0])
  {
    UpAndDown(mem, chain, 0);
  }
}
