/** Writing a result tree as JSON with an explicit stack (graphql/executor/result_marshaler.go). */
module ResultMarshaler {
  import opened Wrappers
  import opened JsonStream

  // ---------------------------------------------------------------------------------------------
  // The recursive writer
  // ---------------------------------------------------------------------------------------------

  /** A response without the chunks; a leaf is what WriteInterface makes of its value. */
  datatype Json = Null | Text(text: string) | Array(elements: seq<Json>) | Record(keys: seq<string>, values: seq<Json>)

  /** What was written, and whether all of it could be. */
  datatype Out = Out(text: string, ok: bool)

  function Then(a: Out, b: Out): Out {
    if a.ok then Out(a.text + b.text, b.ok) else a
  }

  function Say(s: string): Out {
    Out(s, true)
  }

  /** A record whose keys and values do not match cannot be written, except that one without values is
      written as empty. */
  function Write(j: Json): Out
    decreases j, 0
  {
    match j
    case Null => Say("null")
    case Text(text) => Say(text)
    case Array(elements) =>
      if elements == [] then Say("[]")
      else Then(Say("["), Then(Then(Write(elements[0]), WriteMore(elements[1..])), Say("]")))
    case Record(keys, values) =>
      if values == [] then Say("{}")
      else if |keys| != |values| then Out("{", false)
      else Then(Say("{"), Then(Then(WriteField(keys[0], values[0]), WriteMoreFields(keys[1..], values[1..])), Say("}")))
  }

  function WriteMore(elements: seq<Json>): Out
    decreases elements
  {
    if elements == [] then Say("") else Then(Say(","), Then(Write(elements[0]), WriteMore(elements[1..])))
  }

  function WriteField(key: string, value: Json): Out
    decreases value, 1
  {
    Then(Say(Quoted(key) + ":"), Write(value))
  }

  function WriteMoreFields(keys: seq<string>, values: seq<Json>): Out
    requires |keys| == |values|
    decreases values
  {
    if values == [] then Say("")
    else Then(Say(","), Then(WriteField(keys[0], values[0]), WriteMoreFields(keys[1..], values[1..])))
  }

  // ---------------------------------------------------------------------------------------------
  // Result trees
  // ---------------------------------------------------------------------------------------------

  /** The elements of a list lie in chunks; an object has the response keys of its execution nodes. */
  datatype Tree =
    | NilResult
    | LeafResult(text: string)
    | ListResult(chunks: seq<Chunk>)
    | ObjectResult(keys: seq<string>, values: seq<Tree>)

  datatype Chunk = Chunk(nodes: seq<Tree>)

  function Abstract(t: Tree): Json
    decreases t
  {
    match t
    case NilResult => Null
    case LeafResult(text) => Text(text)
    case ListResult(chunks) => Array(AbstractChunks(chunks))
    case ObjectResult(keys, values) => Record(keys, AbstractAll(values))
  }

  function AbstractAll(ts: seq<Tree>): (r: seq<Json>)
    ensures |r| == |ts|
    decreases ts
  {
    if ts == [] then [] else [Abstract(ts[0])] + AbstractAll(ts[1..])
  }

  /** However the elements are spread over the chunks, they make one array. */
  function AbstractChunks(chunks: seq<Chunk>): seq<Json>
    decreases chunks
  {
    if chunks == [] then [] else AbstractAll(chunks[0].nodes) + AbstractChunks(chunks[1..])
  }

  /** A list has a first chunk, and only that one may be empty. */
  predicate Packed(chunks: seq<Chunk>) {
    chunks != [] && forall i | 0 < i < |chunks| :: chunks[i].nodes != []
  }

  predicate Valid(t: Tree)
    decreases t
  {
    match t
    case ListResult(chunks) => Packed(chunks) && forall c | c in chunks :: ValidAll(c.nodes)
    case ObjectResult(_, values) => ValidAll(values)
    case _ => true
  }

  predicate ValidAll(ts: seq<Tree>)
    decreases ts
  {
    forall t | t in ts :: Valid(t)
  }

  /** ResultNodeList.Empty */
  predicate Empty(chunks: seq<Chunk>)
    requires Packed(chunks)
  {
    |chunks| == 1 && |chunks[0].nodes| == 0
  }

  lemma EmptyChunks(chunks: seq<Chunk>)
    requires Packed(chunks)
    ensures Empty(chunks) <==> AbstractChunks(chunks) == []
  {
    assert |chunks| > 1 ==> chunks[1..][0] == chunks[1];
    if |chunks| > 1 {
      assert AbstractAll(chunks[1].nodes) != [];
    }
  }

  // ---------------------------------------------------------------------------------------------
  // The stack
  // ---------------------------------------------------------------------------------------------

  datatype Task = ObjectEnd | ArrayEnd | More | Key(key: string) | Node(node: Tree)

  function Do(task: Task): Out {
    match task
    case ObjectEnd => Say("}")
    case ArrayEnd => Say("]")
    case More => Say(",")
    case Key(key) => Say(Quoted(key) + ":")
    case Node(node) => Write(Abstract(node))
  }

  /** What the tasks write, from the top of the stack down. */
  function Run(stack: seq<Task>): Out {
    if stack == [] then Say("") else Then(Do(stack[|stack| - 1]), Run(stack[..|stack| - 1]))
  }

  lemma Associate(a: Out, b: Out, c: Out)
    ensures Then(Then(a, b), c) == Then(a, Then(b, c)) && Then(Say(""), c) == c
  {
    assert a.text + b.text + c.text == a.text + (b.text + c.text);
    assert "" + c.text == c.text;
  }

  lemma RunPush(stack: seq<Task>, task: Task)
    ensures Run(stack + [task]) == Then(Do(task), Run(stack))
  {
    assert (stack + [task])[..|stack|] == stack;
  }

  /** The comma over the first element can be taken off. */
  lemma RunPop(stack: seq<Task>, out: Out)
    requires stack != [] && stack[|stack| - 1] == More && Run(stack) == Then(Say(","), out)
    ensures Run(stack[..|stack| - 1]) == out
  {
    var rest := Run(stack[..|stack| - 1]);
    assert ("," + rest.text)[1..] == rest.text && ("," + out.text)[1..] == out.text;
  }

  /** Pushing an element and a comma over it. */
  lemma PushElement(stack: seq<Task>, bottom: Out, node: Tree, pushed: seq<Json>)
    requires Run(stack) == Then(WriteMore(pushed), bottom)
    ensures Run(stack + [Node(node), More]) == Then(WriteMore([Abstract(node)] + pushed), bottom)
  {
    assert stack + [Node(node), More] == (stack + [Node(node)]) + [More];
    RunPush(stack, Node(node));
    RunPush(stack + [Node(node)], More);
    assert ([Abstract(node)] + pushed)[1..] == pushed;
    Associate(Write(Abstract(node)), WriteMore(pushed), bottom);
    Associate(Say(","), Then(Write(Abstract(node)), WriteMore(pushed)), bottom);
  }

  /** Pushing a value, its key and a comma over them. */
  lemma PushField(stack: seq<Task>, bottom: Out, key: string, node: Tree, keys: seq<string>, pushed: seq<Json>)
    requires |keys| == |pushed| && Run(stack) == Then(WriteMoreFields(keys, pushed), bottom)
    ensures Run(stack + [Node(node), Key(key), More]) == Then(WriteMoreFields([key] + keys, [Abstract(node)] + pushed), bottom)
  {
    assert stack + [Node(node), Key(key), More] == ((stack + [Node(node)]) + [Key(key)]) + [More];
    RunPush(stack, Node(node));
    RunPush(stack + [Node(node)], Key(key));
    RunPush((stack + [Node(node)]) + [Key(key)], More);
    assert ([Abstract(node)] + pushed)[1..] == pushed && ([key] + keys)[1..] == keys;
    var value, more := Write(Abstract(node)), WriteMoreFields(keys, pushed);
    var name := Say(Quoted(key) + ":");
    Associate(value, more, bottom);
    Associate(name, Then(value, more), bottom);
    Associate(name, value, more);
    Associate(Say(","), Then(Then(name, value), more), bottom);
  }

  // ---------------------------------------------------------------------------------------------
  // How much work is left
  // ---------------------------------------------------------------------------------------------

  function Size(t: Tree): nat
    decreases t
  {
    match t
    case ListResult(chunks) => 2 + SizeChunks(chunks)
    case ObjectResult(_, values) => 2 + SizeAll(values)
    case _ => 1
  }

  function SizeAll(ts: seq<Tree>): nat
    decreases ts
  {
    if ts == [] then 0 else Size(ts[0]) + 2 + SizeAll(ts[1..])
  }

  function SizeChunks(chunks: seq<Chunk>): nat
    decreases chunks
  {
    if chunks == [] then 0 else SizeAll(chunks[0].nodes) + SizeChunks(chunks[1..])
  }

  function Work(stack: seq<Task>): nat {
    if stack == [] then 0
    else
      var task := stack[|stack| - 1];
      (if task.Node? then Size(task.node) else 1) + Work(stack[..|stack| - 1])
  }

  lemma WorkPush(stack: seq<Task>, task: Task)
    ensures Work(stack + [task]) == Work(stack) + if task.Node? then Size(task.node) else 1
  {
    assert (stack + [task])[..|stack|] == stack;
  }

  // ---------------------------------------------------------------------------------------------
  // The marshaler
  // ---------------------------------------------------------------------------------------------

  ghost predicate ValidStack(stack: seq<Task>) {
    forall task | task in stack && task.Node? :: Valid(task.node)
  }

  lemma PushNode(stack: seq<Task>, bottom: Out, nodes: seq<Tree>, i: nat, pushed: seq<Json>)
    requires i < |nodes| && Run(stack) == Then(WriteMore(AbstractAll(nodes[i + 1..]) + pushed), bottom)
    ensures Run(stack + [Node(nodes[i]), More]) == Then(WriteMore(AbstractAll(nodes[i..]) + pushed), bottom)
    ensures Work(stack + [Node(nodes[i]), More]) == Work(stack) + Size(nodes[i]) + 1
    ensures SizeAll(nodes[i..]) == Size(nodes[i]) + 2 + SizeAll(nodes[i + 1..])
  {
    PushElement(stack, bottom, nodes[i], AbstractAll(nodes[i + 1..]) + pushed);
    assert nodes[i..][1..] == nodes[i + 1..];
    assert [Abstract(nodes[i])] + (AbstractAll(nodes[i + 1..]) + pushed) == AbstractAll(nodes[i..]) + pushed;
    WorkPushElement(stack, nodes[i]);
  }

  /** Pushes the nodes of a chunk, last to first. */
  method PushChunk(stack0: seq<Task>, nodes: seq<Tree>, ghost bottom: Out, ghost pushed: seq<Json>)
    returns (stack: seq<Task>)
    requires ValidStack(stack0) && ValidAll(nodes) && Run(stack0) == Then(WriteMore(pushed), bottom)
    requires pushed != [] ==> stack0 != [] && stack0[|stack0| - 1] == More
    ensures ValidStack(stack) && Run(stack) == Then(WriteMore(AbstractAll(nodes) + pushed), bottom)
    ensures AbstractAll(nodes) + pushed != [] ==> stack != [] && stack[|stack| - 1] == More
    ensures Work(stack) <= Work(stack0) + SizeAll(nodes)
  {
    stack := stack0;
    var i := |nodes|;
    assert AbstractAll(nodes[i..]) + pushed == pushed;
    while i > 0
      invariant 0 <= i <= |nodes| && ValidStack(stack)
      invariant Run(stack) == Then(WriteMore(AbstractAll(nodes[i..]) + pushed), bottom)
      invariant AbstractAll(nodes[i..]) + pushed != [] ==> stack != [] && stack[|stack| - 1] == More
      invariant Work(stack) <= Work(stack0) + SizeAll(nodes[i..])
    {
      i := i - 1;
      PushNode(stack, bottom, nodes, i, pushed);
      stack := stack + [Node(nodes[i]), More];
    }
    assert nodes[0..] == nodes;
  }

  /** Pushes the elements of a list that is not empty, last to first. */
  method PushList(stack0: seq<Task>, chunks: seq<Chunk>) returns (stack: seq<Task>)
    requires ValidStack(stack0) && Packed(chunks) && !Empty(chunks) && forall c | c in chunks :: ValidAll(c.nodes)
    ensures ValidStack(stack) && Then(Say("["), Run(stack)) == Then(Write(Array(AbstractChunks(chunks))), Run(stack0))
    ensures Work(stack) < Work(stack0) + 2 + SizeChunks(chunks)
  {
    stack := stack0 + [ArrayEnd];
    RunPush(stack0, ArrayEnd);
    WorkPush(stack0, ArrayEnd);
    ghost var bottom := Run(stack);
    Associate(Say(""), Say(""), bottom);
    var k := |chunks|;
    while k > 0
      invariant 0 <= k <= |chunks| && ValidStack(stack)
      invariant Run(stack) == Then(WriteMore(AbstractChunks(chunks[k..])), bottom)
      invariant AbstractChunks(chunks[k..]) != [] ==> stack != [] && stack[|stack| - 1] == More
      invariant Work(stack) <= Work(stack0) + 1 + SizeChunks(chunks[k..])
    {
      k := k - 1;
      assert chunks[k..][1..] == chunks[k + 1..];
      stack := PushChunk(stack, chunks[k].nodes, bottom, AbstractChunks(chunks[k + 1..]));
    }
    assert chunks[0..] == chunks;
    EmptyChunks(chunks);
    PopElements(stack, AbstractChunks(chunks), Run(stack0));
    stack := stack[..|stack| - 1];
  }

  /** The comma over the first element is taken off. */
  lemma PopElements(stack: seq<Task>, all: seq<Json>, rest: Out)
    requires all != [] && stack != [] && stack[|stack| - 1] == More && Run(stack) == Then(WriteMore(all), Then(Say("]"), rest))
    ensures Then(Say("["), Run(stack[..|stack| - 1])) == Then(Write(Array(all)), rest)
    ensures Work(stack) == Work(stack[..|stack| - 1]) + 1
  {
    var first := Then(Write(all[0]), WriteMore(all[1..]));
    Associate(Say(","), first, Then(Say("]"), rest));
    RunPop(stack, Then(first, Then(Say("]"), rest)));
    ListWritten(all, rest);
  }

  lemma ListWritten(all: seq<Json>, rest: Out)
    requires all != []
    ensures Then(Write(Array(all)), rest)
         == Then(Say("["), Then(Then(Write(all[0]), WriteMore(all[1..])), Then(Say("]"), rest)))
  {
    var first := Then(Write(all[0]), WriteMore(all[1..]));
    Associate(first, Say("]"), rest);
    Associate(Say("["), Then(first, Say("]")), rest);
  }

  lemma ObjectWritten(keys: seq<string>, all: seq<Json>, rest: Out)
    requires all != [] && |keys| == |all|
    ensures Then(Write(Record(keys, all)), rest)
         == Then(Say("{"), Then(Then(WriteField(keys[0], all[0]), WriteMoreFields(keys[1..], all[1..])), Then(Say("}"), rest)))
  {
    var first := Then(WriteField(keys[0], all[0]), WriteMoreFields(keys[1..], all[1..]));
    Associate(first, Say("}"), rest);
    Associate(Say("{"), Then(first, Say("}")), rest);
  }

  /** Pushes the fields of an object that is not empty, last to first. */
  method PushObject(stack0: seq<Task>, keys: seq<string>, values: seq<Tree>) returns (stack: seq<Task>)
    requires ValidStack(stack0) && |keys| == |values| && values != [] && ValidAll(values)
    ensures ValidStack(stack) && Then(Say("{"), Run(stack)) == Then(Write(Record(keys, AbstractAll(values))), Run(stack0))
    ensures Work(stack) < Work(stack0) + 2 + SizeAll(values)
  {
    stack := stack0 + [ObjectEnd];
    RunPush(stack0, ObjectEnd);
    WorkPush(stack0, ObjectEnd);
    ghost var bottom := Run(stack);
    Associate(Say(""), Say(""), bottom);
    var i := |values|;
    while i > 0
      invariant 0 <= i <= |values| && ValidStack(stack)
      invariant Run(stack) == Then(WriteMoreFields(keys[i..], AbstractAll(values[i..])), bottom)
      invariant i < |values| ==> stack != [] && stack[|stack| - 1] == More
      invariant Work(stack) <= Work(stack0) + 1 + SizeAll(values[i..])
    {
      i := i - 1;
      PushValue(stack, bottom, keys, values, i);
      stack := stack + [Node(values[i]), Key(keys[i]), More];
    }
    assert values[0..] == values && keys[0..] == keys;
    PopFields(stack, keys, AbstractAll(values), Run(stack0));
    stack := stack[..|stack| - 1];
  }

  lemma PushValue(stack: seq<Task>, bottom: Out, keys: seq<string>, values: seq<Tree>, i: nat)
    requires i < |values| == |keys| && Run(stack) == Then(WriteMoreFields(keys[i + 1..], AbstractAll(values[i + 1..])), bottom)
    ensures Run(stack + [Node(values[i]), Key(keys[i]), More]) == Then(WriteMoreFields(keys[i..], AbstractAll(values[i..])), bottom)
    ensures Work(stack + [Node(values[i]), Key(keys[i]), More]) == Work(stack) + Size(values[i]) + 2
    ensures SizeAll(values[i..]) == Size(values[i]) + 2 + SizeAll(values[i + 1..])
  {
    PushField(stack, bottom, keys[i], values[i], keys[i + 1..], AbstractAll(values[i + 1..]));
    assert values[i..][1..] == values[i + 1..] && keys[i..] == [keys[i]] + keys[i + 1..];
    WorkPushField(stack, values[i], keys[i]);
  }

  /** The comma over the first field is taken off. */
  lemma PopFields(stack: seq<Task>, keys: seq<string>, all: seq<Json>, rest: Out)
    requires all != [] && |keys| == |all| && stack != [] && stack[|stack| - 1] == More
    requires Run(stack) == Then(WriteMoreFields(keys, all), Then(Say("}"), rest))
    ensures Then(Say("{"), Run(stack[..|stack| - 1])) == Then(Write(Record(keys, all)), rest)
    ensures Work(stack) == Work(stack[..|stack| - 1]) + 1
  {
    var first := Then(WriteField(keys[0], all[0]), WriteMoreFields(keys[1..], all[1..]));
    Associate(Say(","), first, Then(Say("}"), rest));
    RunPop(stack, Then(first, Then(Say("}"), rest)));
    ObjectWritten(keys, all, rest);
  }

  lemma WorkPushElement(stack: seq<Task>, node: Tree)
    ensures Work(stack + [Node(node), More]) == Work(stack) + Size(node) + 1
  {
    WorkPush(stack, Node(node));
    WorkPush(stack + [Node(node)], More);
    assert stack + [Node(node), More] == stack + [Node(node)] + [More];
  }

  lemma WorkPushField(stack: seq<Task>, node: Tree, key: string)
    ensures Work(stack + [Node(node), Key(key), More]) == Work(stack) + Size(node) + 2
  {
    WorkPush(stack, Node(node));
    WorkPush(stack + [Node(node)], Key(key));
    WorkPush(stack + [Node(node)] + [Key(key)], More);
    assert stack + [Node(node), Key(key), More] == stack + [Node(node)] + [Key(key)] + [More];
  }

  /** What is written before a node's parts are put on the stack. */
  function Opening(t: Tree): Out
    requires Valid(t)
  {
    match t
    case ListResult(chunks) => if Empty(chunks) then Say("[]") else Say("[")
    case ObjectResult(keys, values) =>
      if values == [] then Say("{}") else if |keys| != |values| then Out("{", false) else Say("{")
    case _ => Write(Abstract(t))
  }

  /** The parts of a node on the stack write what its opening leaves. */
  method PushParts(stack0: seq<Task>, t: Tree) returns (stack: seq<Task>)
    requires ValidStack(stack0) && Valid(t)
    ensures ValidStack(stack) && Then(Opening(t), Run(stack)) == Then(Write(Abstract(t)), Run(stack0))
    ensures Work(stack) < Work(stack0) + Size(t)
  {
    stack := stack0;
    match t {
      case ListResult(chunks) =>
        EmptyChunks(chunks);
        if !Empty(chunks) { stack := PushList(stack0, chunks); }
      case ObjectResult(keys, values) =>
        if values != [] && |keys| == |values| { stack := PushObject(stack0, keys, values); }
      case _ =>
    }
  }

  /** One round of the loop: sends what the task says at once, and pushes what it leaves. */
  method Perform(stream: Stream, task: Task, stack0: seq<Task>) returns (ok: bool, stack: seq<Task>, ghost out: Out)
    requires stream.Valid() && ValidStack(stack0) && (task.Node? ==> Valid(task.node))
    modifies stream, stream.w
    ensures stream.Valid() && (old(stream.failed) ==> stream.failed)
    ensures ValidStack(stack) && ok == out.ok && stream.sent == old(stream.sent) + out.text
    ensures Then(out, Run(stack)) == Then(Do(task), Run(stack0))
    ensures Work(stack) < Work(stack0) + if task.Node? then Size(task.node) else 1
  {
    ok, stack, out := true, stack0, Do(task);
    match task {
      case Key(key) =>
        stream.WriteString(key);
        stream.WriteBytes(":");
      case Node(node) =>
        out := Opening(node);
        if node.LeafResult? {
          stream.Write(node.text);
        } else {
          stream.WriteBytes(Opening(node).text);
        }
        if !Opening(node).ok {
          ok := false;
        }
        stack := PushParts(stack0, node);
      case ObjectEnd => stream.WriteBytes("}");
      case ArrayEnd => stream.WriteBytes("]");
      case More => stream.WriteBytes(",");
    }
  }

  /** Sends exactly what the recursive writer writes, and fails exactly where it does. */
  method MarshalJSONTo(stream: Stream, root: Tree) returns (ok: bool)
    requires stream.Valid() && Valid(root)
    modifies stream, stream.w
    ensures stream.Valid() && (old(stream.failed) ==> stream.failed)
    ensures ok == Write(Abstract(root)).ok && stream.sent == old(stream.sent) + Write(Abstract(root)).text
  {
    var stack := [Node(root)];
    ghost var all := Then(Say(stream.sent), Write(Abstract(root)));
    RunPush([], Node(root));
    assert [] + [Node(root)] == stack && Then(Do(Node(root)), Say("")) == Do(Node(root));
    while stack != []
      invariant stream.Valid() && (old(stream.failed) ==> stream.failed) && ValidStack(stack)
      invariant Then(Say(stream.sent), Run(stack)) == all
      decreases Work(stack)
    {
      var task, stack0 := stack[|stack| - 1], stack[..|stack| - 1];
      ghost var out: Out;
      ghost var sent := Say(stream.sent);
      ok, stack, out := Perform(stream, task, stack0);
      Associate(sent, out, Run(stack));
      if !ok { return; }
    }
    ok := true;
  }
}
