/**
 The list that holds the result nodes of a list field (graphql/executor/result_node_list.go): a ring of
 chunks, in which the index of a node is recovered from its address.
 */
module ResultNodeList {
  import opened Wrappers

  type Address = nat

  const NODE_SIZE: nat := 32 // sizeOfResultNode; any positive size would do
  const CHUNK_SIZE: nat := 16 // fixedResultNodeListChunkSize

  // ---------------------------------------------------------------------------------------------
  // Chunks as values
  // ---------------------------------------------------------------------------------------------

  /** `size` nodes, one behind the other, from the address `base` on. */
  datatype Block = Block(base: Address, size: nat)

  function NodeAt(base: Address, i: nat): Address {
    base + i * NODE_SIZE
  }

  /** The addresses of the nodes of a block. */
  function Nodes(b: Block): (r: seq<Address>)
    ensures |r| == b.size && forall i | 0 <= i < |r| :: r[i] == NodeAt(b.base, i)
  {
    seq(b.size, i requires 0 <= i => NodeAt(b.base, i))
  }

  function AllNodes(blocks: seq<Block>): seq<Address> {
    if blocks == [] then [] else Nodes(blocks[0]) + AllNodes(blocks[1..])
  }

  /** The address lies in the memory of the block. */
  predicate Inside(b: Block, a: Address) {
    b.base <= a < NodeAt(b.base, b.size)
  }

  ghost predicate Disjoint(blocks: seq<Block>) {
    forall i, j, a | 0 <= i < j < |blocks| && Inside(blocks[i], a) :: !Inside(blocks[j], a)
  }

  /** The position of the address in the blocks, as the search by subtraction finds it. */
  function Position(blocks: seq<Block>, a: Address): Option<nat> {
    if blocks == [] then None
    else if blocks[0].base <= a && (a - blocks[0].base) / NODE_SIZE < blocks[0].size
    then Some((a - blocks[0].base) / NODE_SIZE)
    else match Position(blocks[1..], a)
         case None => None
         case Some(i) => Some(blocks[0].size + i)
  }

  lemma InsideIndex(b: Block, a: Address)
    ensures Inside(b, a) <==> b.base <= a && (a - b.base) / NODE_SIZE < b.size
  {
    if b.base <= a {
      var q := (a - b.base) / NODE_SIZE;
      assert q * NODE_SIZE <= a - b.base < (q + 1) * NODE_SIZE;
    }
  }

  lemma NodeInside(b: Block, i: nat)
    requires i < b.size
    ensures Inside(b, NodeAt(b.base, i)) && (NodeAt(b.base, i) - b.base) / NODE_SIZE == i
  {
    assert (i + 1) * NODE_SIZE <= b.size * NODE_SIZE;
  }

  /** Every stored node is found at the position at which it was stored. */
  lemma {:induction false} PositionOfNode(blocks: seq<Block>, i: nat)
    requires Disjoint(blocks) && i < |AllNodes(blocks)|
    ensures Position(blocks, AllNodes(blocks)[i]) == Some(i)
  {
    var b, rest := blocks[0], blocks[1..];
    if i < b.size {
      NodeInside(b, i);
    } else {
      var a := AllNodes(blocks)[i];
      assert a == AllNodes(rest)[i - b.size];
      assert Disjoint(rest) by {
        forall k, l, x | 0 <= k < l < |rest| && Inside(rest[k], x) ensures !Inside(rest[l], x) {
          assert rest[k] == blocks[k + 1] && rest[l] == blocks[l + 1];
        }
      }
      PositionOfNode(rest, i - b.size);
      var k := NodeInSome(rest, i - b.size);
      assert rest[k] == blocks[k + 1];
      assert Inside(blocks[k + 1], a) && !Inside(blocks[0], a);
      InsideIndex(b, a);
    }
  }

  lemma {:induction false} NodeInSome(blocks: seq<Block>, i: nat) returns (k: nat)
    requires i < |AllNodes(blocks)|
    ensures k < |blocks| && Inside(blocks[k], AllNodes(blocks)[i])
  {
    if i < blocks[0].size {
      k := 0;
      NodeInside(blocks[0], i);
    } else {
      var m := NodeInSome(blocks[1..], i - blocks[0].size);
      k := m + 1;
    }
  }

  /** An address outside of all blocks is not found. */
  lemma {:induction false} PositionOfOther(blocks: seq<Block>, a: Address)
    ensures Position(blocks, a) == None <==> forall k | 0 <= k < |blocks| :: !Inside(blocks[k], a)
  {
    if blocks != [] {
      InsideIndex(blocks[0], a);
      PositionOfOther(blocks[1..], a);
      assert forall k | 0 < k < |blocks| :: blocks[k] == blocks[1..][k - 1];
      if forall k | 0 <= k < |blocks| :: !Inside(blocks[k], a) {
        assert forall k | 0 <= k < |blocks[1..]| :: !Inside(blocks[1..][k], a);
      }
    }
  }

  // ---------------------------------------------------------------------------------------------
  // The ring of chunks
  // ---------------------------------------------------------------------------------------------

  class Chunk {
    const base: Address
    const capacity: nat
    var size: nat
    var prev: Chunk?
    var next: Chunk?

    constructor (base: Address, capacity: nat)
      ensures this.base == base && this.capacity == capacity && size == 0
    {
      this.base, this.capacity, size, prev, next := base, capacity, 0, null, null;
    }
  }

  class NodeList {
    const chunks: Chunk // the first one
    ghost var ring: seq<Chunk>

    ghost predicate Valid()
      reads this, ring
    {
      && ring != [] && ring[0] == chunks && (forall i, j | 0 <= i < j < |ring| :: ring[i] != ring[j])
      && (forall i | 0 <= i < |ring| - 1 :: ring[i].next == ring[i + 1] && ring[i + 1].prev == ring[i])
      && ring[|ring| - 1].next == ring[0] && ring[0].prev == ring[|ring| - 1]
      && (forall i | 0 <= i < |ring| :: ring[i].size <= ring[i].capacity) && Disjoint(Memory(ring))
    }

    /** Only the first chunk can be empty. */
    ghost predicate Packed()
      reads this, ring
    {
      forall i | 0 < i < |ring| :: ring[i].size > 0
    }

    /** The memory that the chunks own. */
    static ghost function Memory(ring: seq<Chunk>): (r: seq<Block>)
      ensures |r| == |ring| && forall i | 0 <= i < |r| :: r[i] == Block(ring[i].base, ring[i].capacity)
    {
      seq(|ring|, i requires 0 <= i < |ring| => Block(ring[i].base, ring[i].capacity))
    }

    /** The nodes that are in use. */
    ghost function Blocks(): (r: seq<Block>)
      reads this, ring
      ensures |r| == |ring| && forall i | 0 <= i < |r| :: r[i] == Block(ring[i].base, ring[i].size)
    {
      seq(|ring|, i requires 0 <= i < |ring| reads this, ring => Block(ring[i].base, ring[i].size))
    }

    /** A list with room for `n` nodes in its first chunk, which is put at `base`. */
    constructor (base: Address, n: nat)
      ensures Valid() && Packed() && fresh(ring) && AllNodes(Blocks()) == [] && ring[0].base == base && ring[0].capacity == n
    {
      var first := new Chunk(base, n);
      first.prev, first.next := first, first;
      chunks := first;
      ring := [first];
    }

    predicate Empty()
      requires Valid() && Packed()
      reads this, ring
      ensures Empty() <==> AllNodes(Blocks()) == []
    {
      AllNodesEmpty(Blocks());
      chunks.next == chunks && chunks.size == 0
    }

    /** Links an empty chunk behind the last one. */
    method Grow(base: Address)
      requires Valid() && Disjoint(Memory(ring) + [Block(base, CHUNK_SIZE)])
      modifies ring`next, ring`prev, this`ring
      ensures Valid() && |ring| == |old(ring)| + 1 && ring[..|old(ring)|] == old(ring) && fresh(ring[|old(ring)|])
      ensures ring[|old(ring)|].size == 0 && ring[|old(ring)|].capacity == CHUNK_SIZE
      ensures AllNodes(Blocks()) == old(AllNodes(Blocks()))
    {
      var lastChunk := chunks.prev;
      var newChunk := new Chunk(base, CHUNK_SIZE);
      newChunk.prev, newChunk.next := lastChunk, lastChunk.next;
      lastChunk.next := newChunk;
      chunks.prev := newChunk;
      ring := ring + [newChunk];
      assert Memory(ring) == Memory(old(ring)) + [Block(base, CHUNK_SIZE)];
      assert Blocks() == old(Blocks()) + [Block(base, 0)];
      AllNodesSnoc(old(Blocks()), Block(base, 0));
      assert Nodes(Block(base, 0)) == [];
    }

    /** Takes one more node of the last chunk into use. */
    method Extend() returns (node: Address)
      requires Valid() && ring[|ring| - 1].size < ring[|ring| - 1].capacity
      requires forall i | 0 < i < |ring| - 1 :: ring[i].size > 0
      modifies ring`size
      ensures Valid() && Packed() && AllNodes(Blocks()) == old(AllNodes(Blocks())) + [node]
    {
      var lastChunk := chunks.prev;
      lastChunk.size := lastChunk.size + 1;
      node := NodeAt(lastChunk.base, lastChunk.size - 1);
      LastGrows(old(Blocks()), Blocks());
    }

    /** Appends a node; `base` is where a new chunk is put, if one is needed. No node moves. */
    method EmplaceBack(base: Address) returns (node: Address)
      requires Valid() && Packed() && Disjoint(Memory(ring) + [Block(base, CHUNK_SIZE)])
      modifies ring, this`ring
      ensures Valid() && Packed() && AllNodes(Blocks()) == old(AllNodes(Blocks())) + [node]
      ensures forall c | c in ring :: c in old(ring) || fresh(c)
      ensures chunks.capacity == 0 ==> chunks.size == 0
    {
      var lastChunk := chunks.prev;
      assert lastChunk == ring[|ring| - 1];
      if lastChunk.size >= lastChunk.capacity {
        Grow(base);
      }
      node := Extend();
    }

    /** Whether the first chunk has a node to take the address of. */
    predicate Searchable()
      requires Valid()
      reads this, ring
    {
      chunks.size > 0
    }

    /** The index of a node, or -1. The search takes the address of the first node of every chunk that it
        comes to, and panics (None) if there is none: exactly if the first chunk is empty. */
    method IndexOf(node: Address) returns (r: Option<int>)
      requires Valid() && Packed()
      ensures r == None <==> !Searchable()
      ensures r.Some? ==> r.value == match Position(Blocks(), node) case None => -1 case Some(i) => i
      ensures r.Some? ==> forall i | 0 <= i < |AllNodes(Blocks())| && AllNodes(Blocks())[i] == node :: r.value == i
    {
      r := SearchChunks(node);
      StoredNodes(Memory(ring), Blocks(), node);
    }

    method SearchChunks(node: Address) returns (r: Option<int>)
      requires Valid() && Packed()
      ensures r == None <==> !Searchable()
      ensures r.Some? ==> r.value == match Position(Blocks(), node) case None => -1 case Some(i) => i
    {
      var chunk := chunks;
      var lastChunk := chunk.prev;
      var listIndex := 0;
      ghost var k := 0;
      while true
        invariant 0 <= k < |ring| && chunk == ring[k] && listIndex >= 0 && (k > 0 ==> Searchable())
        invariant Shifted(listIndex, Position(Blocks()[k..], node)) == Position(Blocks(), node)
        decreases |ring| - k
      {
        if chunk.size == 0 { return None; }
        ghost var blocks := Blocks();
        assert blocks[k..][0] == Block(chunk.base, chunk.size) && blocks[k..][1..] == blocks[k + 1..];
        var chunkFirstNodeAddr := chunk.base;
        if node >= chunkFirstNodeAddr {
          var index := (node - chunkFirstNodeAddr) / NODE_SIZE;
          if index < chunk.size { return Some(listIndex + index); }
        }
        listIndex := listIndex + chunk.size;
        if chunk == lastChunk {
          assert k == |ring| - 1 && blocks[k + 1..] == [];
          break;
        }
        chunk := chunk.next;
        k := k + 1;
      }
      return Some(-1);
    }
  }

  /** A stored node is at its position in the used part of the chunks. */
  lemma StoredNodes(memory: seq<Block>, blocks: seq<Block>, node: Address)
    requires Disjoint(memory) && |memory| == |blocks|
    requires forall i | 0 <= i < |blocks| :: blocks[i].base == memory[i].base && blocks[i].size <= memory[i].size
    ensures forall i | 0 <= i < |AllNodes(blocks)| && AllNodes(blocks)[i] == node :: Position(blocks, node) == Some(i)
  {
    assert Disjoint(blocks) by {
      forall i, j, a | 0 <= i < j < |blocks| && Inside(blocks[i], a) ensures !Inside(blocks[j], a) {
        assert Inside(memory[i], a) && !Inside(memory[j], a);
      }
    }
    forall i | 0 <= i < |AllNodes(blocks)| && AllNodes(blocks)[i] == node ensures Position(blocks, node) == Some(i) {
      PositionOfNode(blocks, i);
    }
  }

  /** A list made with room for no node: its first chunk stays empty, and looking for the node that was
      put into it panics. The executor makes such a list for a SizedIterable that says it has no elements and
      then yields one. */
  method NoRoomPanics() returns (r: Option<int>)
    ensures r == None
  {
    var list := new NodeList(1000, 0);
    assert NodeList.Memory(list.ring) + [Block(2000, CHUNK_SIZE)] == [Block(1000, 0), Block(2000, CHUNK_SIZE)];
    var node := list.EmplaceBack(2000);
    r := list.IndexOf(node);
  }

  function Shifted(n: nat, i: Option<nat>): Option<nat> {
    if i == None then None else Some(n + i.value)
  }

  lemma {:induction false} AllNodesSnoc(blocks: seq<Block>, b: Block)
    ensures AllNodes(blocks + [b]) == AllNodes(blocks) + Nodes(b)
  {
    if blocks == [] {
      assert (blocks + [b])[1..] == [];
    } else {
      AllNodesSnoc(blocks[1..], b);
      assert (blocks + [b])[1..] == blocks[1..] + [b];
    }
  }

  /** One more node in the last block. */
  lemma LastGrows(blocks: seq<Block>, blocks': seq<Block>)
    requires |blocks| == |blocks'| > 0 && blocks'[..|blocks| - 1] == blocks[..|blocks| - 1]
    requires var n := |blocks| - 1; blocks'[n] == Block(blocks[n].base, blocks[n].size + 1)
    ensures var b := blocks[|blocks| - 1]; AllNodes(blocks') == AllNodes(blocks) + [NodeAt(b.base, b.size)]
  {
    var n := |blocks| - 1;
    assert blocks == blocks[..n] + [blocks[n]] && blocks' == blocks[..n] + [blocks'[n]];
    AllNodesSnoc(blocks[..n], blocks[n]);
    AllNodesSnoc(blocks[..n], blocks'[n]);
    NodesGrow(blocks[n], AllNodes(blocks[..n]));
  }

  lemma NodesGrow(b: Block, before: seq<Address>)
    ensures before + Nodes(Block(b.base, b.size + 1)) == before + Nodes(b) + [NodeAt(b.base, b.size)]
  {
    var more := Nodes(Block(b.base, b.size + 1));
    assert more == Nodes(b) + [more[b.size]];
  }

  lemma {:induction false} AllNodesEmpty(blocks: seq<Block>)
    ensures AllNodes(blocks) == [] <==> forall i | 0 <= i < |blocks| :: blocks[i].size == 0
  {
    if blocks != [] {
      AllNodesEmpty(blocks[1..]);
      assert forall i | 0 < i < |blocks| :: blocks[i] == blocks[1..][i - 1];
    }
  }
}
