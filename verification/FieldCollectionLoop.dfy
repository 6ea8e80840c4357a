/** The resumable collection loop of graphql/executor/execute.go, over execution nodes on the heap. */
module FieldCollectionLoop {
  import opened Wrappers
  import opened FieldCollection

  /** A node of the execution plan: the definitions that were merged into one entry of the response. */
  class ExecutionNode {
    var definitions: seq<Field>
    var children: map<TypeId, seq<ExecutionNode>>
    const isRoot: bool
    const def: FieldDef
    const arguments: nat

    constructor (f: Field, def: FieldDef, arguments: nat)
      ensures definitions == [f] && children == map[] && this.def == def && this.arguments == arguments && !isRoot
    {
      definitions, children := [f], map[];
      this.def, this.arguments, isRoot := def, arguments, false;
    }

    /** The node of the operation; it has no field. */
    constructor Root()
      ensures definitions == [] && children == map[] && isRoot
    {
      definitions, children := [], map[];
      def, arguments, isRoot := TypenameMeta, 0, true;
    }

    /** The selection sets to collect for the node. */
    function Sets(ctx: Context): seq<seq<Selection>>
      reads this
    {
      if isRoot then [ctx.operation] else SelectionSets(definitions)
    }

    /** What the node remembers for `t` is what collecting again would give. */
    ghost predicate Remembers(ctx: Context, t: TypeId, nodes: seq<ExecutionNode>)
      reads this, nodes
    {
      var r := CollectAll(ctx, t, Sets(ctx), Collected({}, []));
      r.Ok? && Show(nodes, r.value.groups)
    }

    /** The node stands for the group. */
    ghost predicate Shows(g: Group)
      reads this
    {
      && g.fields != [] && g.key == g.fields[0].key
      && definitions == g.fields && def == g.def && arguments == g.arguments
    }
  }

  /** The nodes stand for the groups, one by one. */
  ghost predicate Show(nodes: seq<ExecutionNode>, groups: seq<Group>)
    reads nodes
  {
    && |nodes| == |groups| && (forall i | 0 <= i < |nodes| :: nodes[i].Shows(groups[i]))
    && (forall i, j | 0 <= i < j < |nodes| :: nodes[i] != nodes[j])
  }

  /** `fields` maps the response keys of the groups to the nodes. */
  ghost predicate Indexed(nodes: seq<ExecutionNode>, fields: map<Name, ExecutionNode>, groups: seq<Group>) {
    && |nodes| == |groups|
    && (forall i | 0 <= i < |groups| :: groups[i].key in fields && fields[groups[i].key] == nodes[i])
    && (forall key | key in fields :: HasKey(groups, key))
    && (forall i, j | 0 <= i < j < |groups| :: groups[i].key != groups[j].key)
  }

  lemma {:induction false} AppendAt(groups: seq<Group>, f: Field, i: nat)
    requires i < |groups| && groups[i].key == f.key && forall j | 0 <= j < i :: groups[j].key != f.key
    ensures Append(groups, f) == groups[i := groups[i].(fields := groups[i].fields + [f])]
  {
    if i > 0 {
      AppendAt(groups[1..], f, i - 1);
    }
  }

  lemma AppendIndexed(nodes: seq<ExecutionNode>, fields: map<Name, ExecutionNode>, groups: seq<Group>, f: Field, i: nat)
    requires Indexed(nodes, fields, groups) && i < |groups| && groups[i].key == f.key
    ensures Append(groups, f) == groups[i := groups[i].(fields := groups[i].fields + [f])]
    ensures Indexed(nodes, fields, Append(groups, f)) && fields[f.key] == nodes[i]
  {
    AppendAt(groups, f, i);
    var groups' := Append(groups, f);
    assert forall j | 0 <= j < |groups| :: groups'[j].key == groups[j].key;
    forall key | key in fields ensures HasKey(groups', key) {
      var j :| 0 <= j < |groups| && groups[j].key == key;
      assert groups'[j].key == key;
    }
  }

  method Define(nodes: seq<ExecutionNode>, node: ExecutionNode, f: Field, ghost groups: seq<Group>, ghost i: nat)
    requires Show(nodes, groups) && i < |nodes| && node == nodes[i]
    modifies node`definitions
    ensures Show(nodes, groups[i := groups[i].(fields := groups[i].fields + [f])])
  {
    node.definitions := node.definitions + [f];
    forall j | 0 <= j < |nodes| && j != i ensures nodes[j].Shows(groups[j]) {
      assert old(nodes[j].Shows(groups[j]));
    }
  }

  /** The field joins the node of its response key. */
  method Merge(nodes: seq<ExecutionNode>, fields: map<Name, ExecutionNode>, f: Field, ghost groups: seq<Group>)
    requires Show(nodes, groups) && Indexed(nodes, fields, groups) && f.key in fields
    modifies nodes`definitions
    ensures Show(nodes, Append(groups, f)) && Indexed(nodes, fields, Append(groups, f))
  {
    var node := fields[f.key];
    ghost var i :| 0 <= i < |groups| && groups[i].key == f.key;
    AppendIndexed(nodes, fields, groups, f, i);
    Define(nodes, node, f, groups, i);
  }

  /** The field makes a node. */
  method MakeNode(nodes: seq<ExecutionNode>, fields: map<Name, ExecutionNode>, f: Field, def: FieldDef, arguments: nat,
                  ghost groups: seq<Group>)
    returns (node: ExecutionNode)
    requires Show(nodes, groups) && Indexed(nodes, fields, groups) && f.key !in fields
    ensures fresh(node) && node.children == map[]
    ensures var groups' := groups + [Group(f.key, def, arguments, [f])];
            Show(nodes + [node], groups') && Indexed(nodes + [node], fields[f.key := node], groups')
  {
    node := new ExecutionNode(f, def, arguments);
    ghost var groups' := groups + [Group(f.key, def, arguments, [f])];
    assert forall i | 0 <= i < |nodes| :: nodes[i].Shows(groups'[i]);
    assert groups'[|groups|].key == f.key;
    assert forall i | 0 <= i < |groups| :: groups[i].key != f.key;
    forall key | key in fields[f.key := node] ensures HasKey(groups', key) {
      if key != f.key {
        var j :| 0 <= j < |groups| && groups[j].key == key;
        assert groups'[j].key == key;
      }
    }
  }

  /** The nodes, the map and the ghost groups agree, and the nodes are those of `repr`, as new. */
  ghost predicate NodesOk(nodes: seq<ExecutionNode>, fields: map<Name, ExecutionNode>, groups: seq<Group>,
                          repr: set<ExecutionNode>)
    reads repr
  {
    && (forall i | 0 <= i < |nodes| :: nodes[i] in repr) && (forall n | n in repr :: n in nodes && n.children == map[])
    && Show(nodes, groups) && Indexed(nodes, fields, groups)
  }

  method AddNode(nodes: seq<ExecutionNode>, fields: map<Name, ExecutionNode>, f: Field, def: FieldDef, arguments: nat,
                 ghost groups: seq<Group>, ghost repr: set<ExecutionNode>)
    returns (node: ExecutionNode)
    requires NodesOk(nodes, fields, groups, repr) && f.key !in fields
    ensures fresh(node)
    ensures NodesOk(nodes + [node], fields[f.key := node], groups + [Group(f.key, def, arguments, [f])], repr + {node})
  {
    node := MakeNode(nodes, fields, f, def, arguments, groups);
  }

  /** What one field does to the nodes. */
  method CollectField(ctx: Context, t: TypeId, nodes: seq<ExecutionNode>, fields: map<Name, ExecutionNode>, f: Field,
                      ghost groups: seq<Group>, ghost repr: set<ExecutionNode>)
    returns (error: Option<string>, nodes': seq<ExecutionNode>, fields': map<Name, ExecutionNode>, ghost groups': seq<Group>,
             ghost repr': set<ExecutionNode>)
    requires NodesOk(nodes, fields, groups, repr)
    modifies repr
    ensures AddField(ctx, t, groups, f) == if error.Some? then Err(error.value) else Ok(groups')
    ensures error == None ==> NodesOk(nodes', fields', groups', repr') && repr <= repr' && fresh(repr' - repr)
  {
    error, nodes', fields', groups', repr' := None, nodes, fields, groups, repr;
    if f.key in fields {
      Merge(nodes, fields, f, groups);
      groups' := Append(groups, f);
    } else {
      assert !HasKey(groups, f.key);
      var def := FindFieldDef(ctx, t, f.name);
      if def.Some? {
        var arguments := ctx.arguments(def.value, f);
        if arguments.Err? {
          error := Some(arguments.error);
        } else {
          var node := AddNode(nodes, fields, f, def.value, arguments.value, groups, repr);
          nodes', fields' := nodes + [node], fields[f.key := node];
          groups' := groups + [Group(f.key, def.value, arguments.value, [f])];
          repr' := repr + {node};
        }
      }
    }
  }

  // ---------------------------------------------------------------------------------------------
  // The loop
  // ---------------------------------------------------------------------------------------------

  /** A selection set, to be resumed at `index`. */
  datatype Task = Task(selections: seq<Selection>, index: nat)

  predicate Resumable(stack: seq<Task>) {
    forall i | 0 <= i < |stack| :: stack[i].index < |stack[i].selections|
  }

  /** What is left to collect when the tasks on the stack are resumed from the top. */
  function Remaining(ctx: Context, t: TypeId, stack: seq<Task>, acc: Collected): Result<Collected, string>
    requires Resumable(stack)
  {
    if stack == [] then Ok(acc)
    else
      var top := stack[|stack| - 1];
      match Collect(ctx, t, top.selections[top.index..], acc)
      case Err(e) => Err(e)
      case Ok(acc') => Remaining(ctx, t, stack[..|stack| - 1], acc')
  }

  /** The selections that the stack still holds. */
  function StackSize(stack: seq<Task>): nat
    requires Resumable(stack)
  {
    if stack == [] then 0
    else StackSize(stack[..|stack| - 1]) + Size(stack[|stack| - 1].selections[stack[|stack| - 1].index..])
  }

  /** No selection set is empty: the loop would never pop one. */
  predicate NonEmpty(selections: seq<Selection>) {
    && selections != []
    && forall i | 0 <= i < |selections| && selections[i].InlineFragment? :: NonEmpty(selections[i].selections)
  }

  predicate NonEmptyFragments(ctx: Context) {
    forall name | name in ctx.fragments :: NonEmpty(ctx.fragments[name].selections)
  }

  predicate NonEmptyStack(stack: seq<Task>) {
    Resumable(stack) && forall i | 0 <= i < |stack| :: NonEmpty(stack[i].selections)
  }

  /** The stack after the selection at its top is taken off. */
  function Advance(stack: seq<Task>): (r: seq<Task>)
    requires stack != [] && Resumable(stack)
    ensures Resumable(r)
  {
    var n := |stack| - 1;
    var top := stack[n];
    if top.index + 1 < |top.selections| then stack[n := Task(top.selections, top.index + 1)] else stack[..n]
  }

  lemma AdvanceRemaining(ctx: Context, t: TypeId, stack: seq<Task>, acc: Collected)
    requires stack != [] && Resumable(stack)
    ensures var top := stack[|stack| - 1]; var rest := top.selections[top.index + 1..];
            && Remaining(ctx, t, Advance(stack), acc) ==
                 (match Collect(ctx, t, rest, acc)
                  case Err(e) => Err(e)
                  case Ok(acc') => Remaining(ctx, t, stack[..|stack| - 1], acc'))
            && StackSize(Advance(stack)) == StackSize(stack[..|stack| - 1]) + Size(rest)
            && top.selections[top.index..] == [top.selections[top.index]] + rest
  {
    var n := |stack| - 1;
    var top := stack[n];
    if top.index + 1 < |top.selections| {
      assert Advance(stack)[..n] == stack[..n];
    } else {
      assert top.selections[top.index + 1..] == [];
    }
  }

  lemma PushRemaining(ctx: Context, t: TypeId, stack: seq<Task>, inner: seq<Selection>, acc: Collected)
    requires Resumable(stack) && inner != []
    ensures Resumable(stack + [Task(inner, 0)]) && StackSize(stack + [Task(inner, 0)]) == StackSize(stack) + Size(inner)
    ensures Remaining(ctx, t, stack + [Task(inner, 0)], acc) == Then(ctx, t, Collect(ctx, t, inner, acc), stack)
  {
    var stack' := stack + [Task(inner, 0)];
    assert stack'[..|stack|] == stack && inner[0..] == inner;
  }

  /** Goes on with the stack unless collecting failed. */
  function Then(ctx: Context, t: TypeId, r: Result<Collected, string>, stack: seq<Task>): Result<Collected, string>
    requires Resumable(stack)
  {
    if r.Err? then r else Remaining(ctx, t, stack, r.value)
  }

  function Top(stack: seq<Task>): Selection
    requires stack != [] && Resumable(stack)
  {
    var top := stack[|stack| - 1];
    top.selections[top.index]
  }

  /** The stack and the visited fragments after an included selection that is not a field. */
  function Entered(ctx: Context, t: TypeId, stack: seq<Task>, visited: set<Name>): (seq<Task>, set<Name>)
    requires stack != [] && Resumable(stack) && !Top(stack).FieldSelection?
  {
    var entered := Enter(ctx, t, Top(stack), visited);
    (if entered.0 == None then Advance(stack) else Advance(stack) + [Task(entered.0.value, 0)], entered.1)
  }

  /** A selection that is left out, or a field. */
  lemma PassRemaining(ctx: Context, t: TypeId, stack: seq<Task>, acc: Collected)
    requires stack != [] && NonEmptyStack(stack)
    ensures NonEmptyStack(Advance(stack)) && StackSize(Advance(stack)) < StackSize(stack)
    ensures var included := ShouldInclude(DirectivesOf(Top(stack)));
            && (included.Err? ==> Remaining(ctx, t, stack, acc) == Err(included.error))
            && (included == Ok(false) ==> Remaining(ctx, t, stack, acc) == Remaining(ctx, t, Advance(stack), acc))
            && (included == Ok(true) && Top(stack).FieldSelection? ==>
                  var added := AddField(ctx, t, acc.groups, Top(stack).field);
                  Remaining(ctx, t, stack, acc) ==
                    if added.Err? then Err(added.error)
                    else Remaining(ctx, t, Advance(stack), Collected(acc.visited, added.value)))
  {
    AdvanceRemaining(ctx, t, stack, acc);
    if Top(stack).FieldSelection? {
      var added := AddField(ctx, t, acc.groups, Top(stack).field);
      if added.Ok? { AdvanceRemaining(ctx, t, stack, Collected(acc.visited, added.value)); }
    }
  }

  lemma InnerNonEmpty(ctx: Context, t: TypeId, stack: seq<Task>, visited: set<Name>)
    requires stack != [] && NonEmptyStack(stack) && NonEmptyFragments(ctx) && !Top(stack).FieldSelection?
    ensures var inner := Enter(ctx, t, Top(stack), visited).0; inner == None || (NonEmpty(inner.value) && inner.value != [])
  {
    var top := stack[|stack| - 1];
    assert NonEmpty(top.selections);
    assert top.selections[top.index].InlineFragment? ==> NonEmpty(top.selections[top.index].selections);
  }

  lemma EnteredNonEmpty(ctx: Context, t: TypeId, stack: seq<Task>, visited: set<Name>)
    requires stack != [] && NonEmptyStack(stack) && NonEmptyFragments(ctx) && !Top(stack).FieldSelection?
    requires NonEmptyStack(Advance(stack))
    ensures NonEmptyStack(Entered(ctx, t, stack, visited).0)
  {
    InnerNonEmpty(ctx, t, stack, visited);
  }

  /** Going into a fragment visits a new one or shortens the stack. */
  lemma EnterShrinks(ctx: Context, t: TypeId, stack: seq<Task>, visited: set<Name>)
    requires stack != [] && Resumable(stack) && !Top(stack).FieldSelection?
    requires StackSize(Advance(stack)) < StackSize(stack)
    requires Resumable(Entered(ctx, t, stack, visited).0)
    ensures var (stack', visited') := Entered(ctx, t, stack, visited); Shrinks(ctx, stack, visited, stack', visited')
  {
    var s := Top(stack);
    UnvisitedShrinks(ctx, visited, Enter(ctx, t, s, visited).1);
    if s.FragmentSpread? {
      if s.name in ctx.fragments && s.name !in visited { assert s.name in Unvisited(ctx, visited); }
    } else if Enter(ctx, t, s, visited).0.Some? {
      InlineShrinks(ctx, stack, visited, s.selections);
    }
  }

  lemma InlineShrinks(ctx: Context, stack: seq<Task>, visited: set<Name>, inner: seq<Selection>)
    requires stack != [] && Resumable(stack) && Top(stack).InlineFragment? && Top(stack).selections == inner
    requires Resumable(Advance(stack) + [Task(inner, 0)])
    ensures Shrinks(ctx, stack, visited, Advance(stack) + [Task(inner, 0)], visited)
  {
    var stack' := Advance(stack) + [Task(inner, 0)];
    assert stack'[|stack'| - 1] == Task(inner, 0);
    PushRemaining(ctx, 0, Advance(stack), inner, Collected({}, []));
    AdvanceRemaining(ctx, 0, stack, Collected({}, []));
  }

  /** A fragment: what is inside comes before what follows it. */
  lemma EnterRemaining(ctx: Context, t: TypeId, stack: seq<Task>, acc: Collected)
    requires stack != [] && NonEmptyStack(stack) && !Top(stack).FieldSelection?
    requires Resumable(Entered(ctx, t, stack, acc.visited).0) && ShouldInclude(DirectivesOf(Top(stack))) == Ok(true)
    ensures var (stack', visited) := Entered(ctx, t, stack, acc.visited);
            Remaining(ctx, t, stack, acc) == Remaining(ctx, t, stack', Collected(visited, acc.groups))
  {
    var (inner, visited) := Enter(ctx, t, Top(stack), acc.visited);
    var acc' := Collected(visited, acc.groups);
    AdvanceRemaining(ctx, t, stack, acc);
    AdvanceRemaining(ctx, t, stack, acc');
    if inner.Some? {
      assert inner.value != [] by {
        var stack' := Entered(ctx, t, stack, acc.visited).0;
        assert stack'[|stack'| - 1] == Task(inner.value, 0);
      }
      PushRemaining(ctx, t, Advance(stack), inner.value, acc');
      var r := Collect(ctx, t, inner.value, acc');
      if r.Ok? { AdvanceRemaining(ctx, t, stack, r.value); }
    }
  }

  /** The selection sets of the definitions of a node. */
  function SelectionSets(definitions: seq<Field>): (r: seq<seq<Selection>>)
    ensures |r| == |definitions| && forall i | 0 <= i < |r| :: r[i] == definitions[i].selections
  {
    seq(|definitions|, i requires 0 <= i < |definitions| => definitions[i].selections)
  }

  /** The stack at the start, the last selection set at the bottom. */
  function Reversed(sets: seq<seq<Selection>>): (r: seq<Task>)
    ensures |r| == |sets| && forall i | 0 <= i < |r| :: r[i] == Task(sets[|sets| - 1 - i], 0)
  {
    seq(|sets|, i requires 0 <= i < |sets| => Task(sets[|sets| - 1 - i], 0))
  }

  lemma {:induction false} ReversedRemaining(ctx: Context, t: TypeId, sets: seq<seq<Selection>>, acc: Collected)
    requires forall i | 0 <= i < |sets| :: sets[i] != []
    ensures Remaining(ctx, t, Reversed(sets), acc) == CollectAll(ctx, t, sets, acc)
  {
    if sets != [] {
      var stack := Reversed(sets);
      assert stack[..|stack| - 1] == Reversed(sets[1..]);
      assert sets[0][0..] == sets[0];
      var r := Collect(ctx, t, sets[0], acc);
      if r.Ok? { ReversedRemaining(ctx, t, sets[1..], r.value); }
    }
  }

  /** The tasks after a selection that may ask for another selection set. */
  function Pushed(stack: seq<Task>, inner: Option<seq<Selection>>): seq<Task> {
    if inner == None then stack else stack + [Task(inner.value, 0)]
  }

  /** Resuming goes forward: fewer fragments are left to visit, or fewer selections are on the stack. */
  ghost predicate Shrinks(ctx: Context, stack: seq<Task>, visited: set<Name>, stack': seq<Task>, visited': set<Name>)
    requires Resumable(stack) && Resumable(stack')
  {
    || |Unvisited(ctx, visited')| < |Unvisited(ctx, visited)|
    || (|Unvisited(ctx, visited')| == |Unvisited(ctx, visited)| && StackSize(stack') < StackSize(stack))
  }

  /** `all` is what is left to collect. */
  ghost predicate Leaves(ctx: Context, t: TypeId, stack: seq<Task>, visited: set<Name>, groups: seq<Group>,
                         all: Result<Collected, string>)
  {
    NonEmptyStack(stack) && Remaining(ctx, t, stack, Collected(visited, groups)) == all
  }

  lemma ShrinksTransitive(ctx: Context, s0: seq<Task>, v0: set<Name>, s1: seq<Task>, v1: set<Name>, s2: seq<Task>, v2: set<Name>)
    requires Resumable(s0) && Resumable(s1) && Resumable(s2)
    requires Shrinks(ctx, s0, v0, s1, v1) && Shrinks(ctx, s1, v1, s2, v2)
    ensures Shrinks(ctx, s0, v0, s2, v2)
  {
  }

  /** One selection, the one at the top of `stack`, which the caller takes off; `inner` is the selection
      set to go into next. */
  method Visit(ctx: Context, t: TypeId, selection: Selection, visited: set<Name>, nodes: seq<ExecutionNode>,
               fields: map<Name, ExecutionNode>, ghost groups: seq<Group>, ghost repr: set<ExecutionNode>,
               ghost stack: seq<Task>, ghost all: Result<Collected, string>)
    returns (error: Option<string>, inner: Option<seq<Selection>>, visited': set<Name>, nodes': seq<ExecutionNode>,
             fields': map<Name, ExecutionNode>, ghost groups': seq<Group>, ghost repr': set<ExecutionNode>)
    requires NonEmptyFragments(ctx) && stack != [] && Leaves(ctx, t, stack, visited, groups, all) && selection == Top(stack)
    requires NodesOk(nodes, fields, groups, repr)
    modifies repr
    ensures var stack' := Pushed(Advance(stack), inner);
            if error.Some? then all == Err(error.value)
            else Leaves(ctx, t, stack', visited', groups', all) && Shrinks(ctx, stack, visited, stack', visited')
    ensures error == None ==> NodesOk(nodes', fields', groups', repr') && repr <= repr' && fresh(repr' - repr)
  {
    error, inner, visited', nodes', fields', groups', repr' := None, None, visited, nodes, fields, groups, repr;
    ghost var acc := Collected(visited, groups);
    PassRemaining(ctx, t, stack, acc);
    var included := ShouldInclude(DirectivesOf(selection));
    if included.Err? {
      error := Some(included.error);
    } else if included.value {
      if selection.FieldSelection? {
        error, nodes', fields', groups', repr' := CollectField(ctx, t, nodes, fields, selection.field, groups, repr);
      } else {
        EnteredNonEmpty(ctx, t, stack, visited);
        EnterShrinks(ctx, t, stack, visited);
        EnterRemaining(ctx, t, stack, acc);
        var entered := Enter(ctx, t, selection, visited);
        inner, visited' := entered.0, entered.1;
      }
    }
  }

  /** Visits the selection at the top of the stack, takes it off and pushes the selection set to go into. */
  method Turn(ctx: Context, t: TypeId, stack: seq<Task>, visited: set<Name>, nodes: seq<ExecutionNode>,
              fields: map<Name, ExecutionNode>, ghost groups: seq<Group>, ghost repr: set<ExecutionNode>,
              ghost all: Result<Collected, string>)
    returns (error: Option<string>, stack': seq<Task>, interrupted: bool, visited': set<Name>, nodes': seq<ExecutionNode>,
             fields': map<Name, ExecutionNode>, ghost groups': seq<Group>, ghost repr': set<ExecutionNode>)
    requires NonEmptyFragments(ctx) && stack != [] && Leaves(ctx, t, stack, visited, groups, all)
    requires NodesOk(nodes, fields, groups, repr)
    modifies repr
    ensures if error.Some? then all == Err(error.value)
            else Leaves(ctx, t, stack', visited', groups', all) && Shrinks(ctx, stack, visited, stack', visited')
    ensures error == None ==> NodesOk(nodes', fields', groups', repr') && repr <= repr' && fresh(repr' - repr)
    ensures error == None && !interrupted ==> stack' == Advance(stack)
  {
    var task := stack[|stack| - 1];
    var inner: Option<seq<Selection>>;
    error, inner, visited', nodes', fields', groups', repr' :=
      Visit(ctx, t, task.selections[task.index], visited, nodes, fields, groups, repr, stack, all);
    stack', interrupted := Pushed(Advance(stack), inner), inner.Some?;
  }

  /** The task at the top of the stack is to be resumed at the index. */
  predicate At(stack: seq<Task>, selections: seq<Selection>, index: nat) {
    stack != [] && stack[|stack| - 1] == Task(selections, index)
  }

  lemma AdvanceAt(stack: seq<Task>, selections: seq<Selection>, index: nat)
    requires Resumable(stack) && At(stack, selections, index)
    ensures index + 1 < |selections| ==> At(Advance(stack), selections, index + 1)
  {
  }

  /** The inner loop: resumes the task at the top of the stack until it is exhausted or a selection set
      is pushed on top of it. */
  method Resume(ctx: Context, t: TypeId, stack: seq<Task>, visited: set<Name>, nodes: seq<ExecutionNode>,
                fields: map<Name, ExecutionNode>, ghost groups: seq<Group>, ghost repr: set<ExecutionNode>,
                ghost all: Result<Collected, string>)
    returns (error: Option<string>, stack': seq<Task>, visited': set<Name>, nodes': seq<ExecutionNode>,
             fields': map<Name, ExecutionNode>, ghost groups': seq<Group>, ghost repr': set<ExecutionNode>)
    requires NonEmptyFragments(ctx) && stack != [] && Leaves(ctx, t, stack, visited, groups, all)
    requires NodesOk(nodes, fields, groups, repr)
    modifies repr
    ensures if error.Some? then all == Err(error.value)
            else Leaves(ctx, t, stack', visited', groups', all) && Shrinks(ctx, stack, visited, stack', visited')
    ensures error == None ==> NodesOk(nodes', fields', groups', repr') && repr <= repr' && fresh(repr' - repr)
  {
    var selectionSet := stack[|stack| - 1].selections;
    var selectionIndex: nat := stack[|stack| - 1].index + 1;
    var interrupted;
    error, stack', interrupted, visited', nodes', fields', groups', repr' :=
      Turn(ctx, t, stack, visited, nodes, fields, groups, repr, all);
    if error.Some? { return; }
    AdvanceAt(stack, selectionSet, stack[|stack| - 1].index);
    while selectionIndex < |selectionSet| && !interrupted
      invariant Leaves(ctx, t, stack', visited', groups', all) && Shrinks(ctx, stack, visited, stack', visited')
      invariant NodesOk(nodes', fields', groups', repr') && repr <= repr' && fresh(repr' - repr)
      invariant selectionIndex < |selectionSet| && !interrupted ==> At(stack', selectionSet, selectionIndex)
      decreases |Unvisited(ctx, visited')|, StackSize(stack')
    {
      ghost var stack0, visited0 := stack', visited';
      error, stack', interrupted, visited', nodes', fields', groups', repr' :=
        Turn(ctx, t, stack', visited', nodes', fields', groups', repr', all);
      if error.Some? { return; }
      AdvanceAt(stack0, selectionSet, selectionIndex);
      selectionIndex := selectionIndex + 1;
      ShrinksTransitive(ctx, stack, visited, stack0, visited0, stack', visited');
    }
    error := None;
  }

  /** buildChildExecutionNodesForSelectionSet: the nodes are the groups that the recursion collects, in the
      order of the recursion, or the error is the one that it meets first. */
  method BuildChildren(ctx: Context, t: TypeId, sets: seq<seq<Selection>>)
    returns (error: Option<string>, childNodes: seq<ExecutionNode>, ghost groups: seq<Group>, ghost repr: set<ExecutionNode>)
    requires NonEmptyFragments(ctx) && forall i | 0 <= i < |sets| :: NonEmpty(sets[i])
    ensures var r := CollectAll(ctx, t, sets, Collected({}, []));
            if error.Some? then r == Err(error.value) else r.Ok? && r.value.groups == groups && Show(childNodes, groups)
    ensures error == None ==> (forall n | n in childNodes :: n in repr && n.children == map[]) && fresh(repr)
  {
    var visited: set<Name> := {};
    var fields: map<Name, ExecutionNode> := map[];
    childNodes, groups, repr := [], [], {};
    var stack := Reversed(sets);
    ghost var all := CollectAll(ctx, t, sets, Collected({}, []));
    ReversedRemaining(ctx, t, sets, Collected({}, []));
    while |stack| > 0
      invariant Leaves(ctx, t, stack, visited, groups, all) && NodesOk(childNodes, fields, groups, repr) && fresh(repr)
      decreases |Unvisited(ctx, visited)|, StackSize(stack)
    {
      error, stack, visited, childNodes, fields, groups, repr :=
        Resume(ctx, t, stack, visited, childNodes, fields, groups, repr, all);
      if error.Some? { return; }
    }
    error := None;
  }

  /** The node and the nodes it remembers. */
  ghost function Reach(node: ExecutionNode): set<ExecutionNode>
    reads node
  {
    {node} + set t, n | t in node.children && n in node.children[t] :: n
  }

  ghost predicate MemoOk(ctx: Context, node: ExecutionNode)
    reads Reach(node), node
  {
    forall t | t in node.children ::
      assert forall n | n in node.children[t] :: n in Reach(node);
      node.Remembers(ctx, t, node.children[t])
  }

  /** collectFields: the nodes for `t` are remembered, and agree with recomputation. */
  method CollectFields(ctx: Context, node: ExecutionNode, t: TypeId)
    returns (error: Option<string>, childNodes: seq<ExecutionNode>)
    requires NonEmptyFragments(ctx) && forall i | 0 <= i < |node.Sets(ctx)| :: NonEmpty(node.Sets(ctx)[i])
    requires MemoOk(ctx, node)
    modifies node`children
    ensures MemoOk(ctx, node)
    ensures if error.Some? then CollectAll(ctx, t, node.Sets(ctx), Collected({}, [])) == Err(error.value)
            else node.Remembers(ctx, t, childNodes) && t in node.children && node.children[t] == childNodes
    ensures t in old(node.children) ==> error == None && childNodes == old(node.children[t])
    ensures forall u | u != t && u in old(node.children) :: u in node.children && node.children[u] == old(node.children[u])
  {
    if t in node.children {
      return None, node.children[t];
    }
    ghost var groups, repr;
    error, childNodes, groups, repr := BuildChildren(ctx, t, node.Sets(ctx));
    if error.Some? { return; }
    assert forall u | u in node.children :: node.Remembers(ctx, u, node.children[u]);
    node.children := node.children[t := childNodes];
  }
}
