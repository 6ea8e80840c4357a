/**
 Fragments that refer to each other, possibly in cycles: which of them validation marks as used
 (graphql/validator/validation_context.go) and which bodies the walk of an operation expands
 (graphql/validator/walk.go).
 */
module Fragments {
  import opened Wrappers
  import opened Ast
  import opened Graphs

  // ---------------------------------------------------------------------------------------------
  // References
  // ---------------------------------------------------------------------------------------------

  type Bodies = map<string, seq<Selection>>

  /** The fragments that a selection set spreads, at any depth of fields and inline fragments. */
  function Spreads(selections: seq<Selection>): set<string>
    decreases selections
  {
    if selections == [] then {} else SpreadsOf(selections[0]) + Spreads(selections[1..])
  }

  function SpreadsOf(s: Selection): set<string>
    decreases s
  {
    match s
    case Field(_, _, _, _, selections) => Spreads(selections)
    case FragmentSpread(name, _) => {name}
    case InlineFragment(_, _, selections) => Spreads(selections)
  }

  /** The defined fragments that each defined fragment refers to. */
  function References(bodies: Bodies): (r: Graph<string>)
    ensures r.Keys == bodies.Keys && forall f | f in r :: r[f] <= r.Keys
  {
    map f | f in bodies :: Spreads(bodies[f]) * bodies.Keys
  }

  // ---------------------------------------------------------------------------------------------
  // RecursivelyMarkUsed
  // ---------------------------------------------------------------------------------------------

  function SelectionSize(s: Selection): nat
    decreases s
  {
    1 + if s.FragmentSpread? then 0 else Size(s.selections)
  }

  /** The number of selections in a selection set, at any depth. */
  function Size(selections: seq<Selection>): nat
    decreases selections
  {
    if selections == [] then 0 else SelectionSize(selections[0]) + Size(selections[1..])
  }

  function StackSize(stack: seq<seq<Selection>>): nat {
    if stack == [] then 0 else StackSize(stack[..|stack| - 1]) + 1 + Size(stack[|stack| - 1])
  }

  function StackSpreads(stack: seq<seq<Selection>>): set<string> {
    if stack == [] then {} else StackSpreads(stack[..|stack| - 1]) + Spreads(stack[|stack| - 1])
  }

  lemma First(selections: seq<Selection>, i: nat)
    requires i < |selections|
    ensures Spreads(selections[i..]) == SpreadsOf(selections[i]) + Spreads(selections[i + 1..])
    ensures Size(selections[i..]) == SelectionSize(selections[i]) + Size(selections[i + 1..])
  {
    assert selections[i..][0] == selections[i] && selections[i..][1..] == selections[i + 1..];
  }

  lemma {:induction false} SpreadsSnoc(selections: seq<Selection>, s: Selection)
    ensures Spreads(selections + [s]) == Spreads(selections) + SpreadsOf(s)
  {
    if selections == [] {
      assert (selections + [s])[1..] == [];
    } else {
      SpreadsSnoc(selections[1..], s);
      assert (selections + [s])[1..] == selections[1..] + [s];
    }
  }

  lemma PushStack(stack: seq<seq<Selection>>, top: seq<Selection>)
    ensures StackSize(stack + [top]) == StackSize(stack) + 1 + Size(top)
    ensures StackSpreads(stack + [top]) == StackSpreads(stack) + Spreads(top)
  {
    assert (stack + [top])[..|stack|] == stack;
  }

  class FragmentInfo {
    const name: string
    const selections: seq<Selection>
    var used: bool

    constructor (name: string, selections: seq<Selection>)
      ensures this.name == name && this.selections == selections && !used
    {
      this.name, this.selections, used := name, selections, false;
    }
  }

  class ValidationContext {
    const fragments: map<string, FragmentInfo>

    constructor (fragments: map<string, FragmentInfo>)
      ensures this.fragments == fragments
    {
      this.fragments := fragments;
    }

    /** Every fragment has an info of its own. */
    predicate Valid() {
      forall name | name in fragments :: fragments[name].name == name
    }

    function Bodies(): Bodies {
      map name | name in fragments :: fragments[name].selections
    }

    function Graph(): Graph<string> {
      References(Bodies())
    }

    ghost function Used(): set<string>
      reads fragments.Values
    {
      set name | name in fragments && fragments[name].used
    }

    method Mark(fragment: FragmentInfo)
      requires Valid() && fragment.name in fragments && fragments[fragment.name] == fragment
      modifies fragment`used
      ensures Used() == old(Used()) + {fragment.name}
    {
      fragment.used := true;
      forall name | name in fragments && name != fragment.name ensures fragments[name].used == old(fragments[name].used) {
        assert fragments[name].name == name;
      }
    }

    /** Looks at one selection; `more` is what else is pending. */
    method ScanOne(selection: Selection, stack: seq<seq<Selection>>, ghost more: set<string>, ghost f: string,
                   ghost before: set<string>)
      returns (stack': seq<seq<Selection>>)
      requires Valid() && Marking(Graph(), {f}, before, Used(), StackSpreads(stack) + SpreadsOf(selection) + more)
      modifies fragments.Values`used
      ensures Marking(Graph(), {f}, before, Used(), StackSpreads(stack') + more) && old(Used()) <= Used()
      ensures Used() == old(Used()) ==> StackSize(stack') <= StackSize(stack) + SelectionSize(selection)
    {
      stack' := stack;
      ghost var pending := StackSpreads(stack) + SpreadsOf(selection) + more;
      if selection.FragmentSpread? {
        var name := selection.name;
        if name in fragments && !fragments[name].used {
          var fragment := fragments[name];
          MarkMore(Graph(), {f}, before, Used(), pending, name);
          Mark(fragment);
          PushStack(stack, fragment.selections);
          stack' := stack + [fragment.selections];
          PendingMore(Graph(), {f}, before, Used(), pending + Graph()[name], pending + Spreads(fragment.selections));
          assert StackSpreads(stack') + more + {name} == pending + Spreads(fragment.selections);
        } else {
          assert StackSpreads(stack') + more + {name} == pending;
        }
        Scanned(Graph(), {f}, before, Used(), StackSpreads(stack') + more, name);
      } else if |selection.selections| > 0 {
        PushStack(stack, selection.selections);
        stack' := stack + [selection.selections];
        assert pending == StackSpreads(stack') + more;
      } else {
        assert Spreads(selection.selections) == {};
        assert pending == StackSpreads(stack') + more;
      }
    }

    /** Scans one selection set for fragment spreads. */
    method Scan(selectionSet: seq<Selection>, rest: seq<seq<Selection>>, ghost f: string, ghost before: set<string>)
      returns (stack: seq<seq<Selection>>)
      requires Valid() && Marking(Graph(), {f}, before, Used(), StackSpreads(rest) + Spreads(selectionSet))
      modifies fragments.Values`used
      ensures Marking(Graph(), {f}, before, Used(), StackSpreads(stack)) && old(Used()) <= Used()
      ensures Used() == old(Used()) ==> StackSize(stack) <= StackSize(rest) + Size(selectionSet)
    {
      stack := rest;
      var i := 0;
      assert selectionSet[0..] == selectionSet;
      while i < |selectionSet|
        invariant i <= |selectionSet|
        invariant Marking(Graph(), {f}, before, Used(), StackSpreads(stack) + Spreads(selectionSet[i..])) && old(Used()) <= Used()
        invariant Used() == old(Used()) ==> StackSize(stack) + Size(selectionSet[i..]) <= StackSize(rest) + Size(selectionSet)
      {
        First(selectionSet, i);
        ghost var more := Spreads(selectionSet[i + 1..]);
        assert StackSpreads(stack) + Spreads(selectionSet[i..]) == StackSpreads(stack) + SpreadsOf(selectionSet[i]) + more;
        stack := ScanOne(selectionSet[i], stack, more, f, before);
        i := i + 1;
      }
      assert Spreads(selectionSet[i..]) == {};
      assert StackSpreads(stack) + {} == StackSpreads(stack);
    }

    /** Marks the fragment as used, and exactly those that it reaches, if what the used fragments refer to
        was used before. */
    method RecursivelyMarkUsed(info: FragmentInfo)
      requires Valid() && info.name in fragments && fragments[info.name] == info && Closed(Graph(), Used())
      modifies fragments.Values`used
      ensures Closed(Graph(), Used())
      ensures forall g :: g in Used() <==> g in old(Used()) || Reaches(Graph(), info.name, g)
    {
      ghost var f, before := info.name, Used();
      if info.used {
        forall g | Reaches(Graph(), f, g) ensures g in Used() { ClosedHoldsReached(Graph(), Used(), f, g); }
        return;
      }
      Mark(info);
      var stack := [info.selections];
      StartMarking(Bodies(), f, before, info.selections);
      while |stack| > 0
        invariant f in Used() && before <= Used() && Marking(Graph(), {f}, before, Used(), StackSpreads(stack))
        decreases |fragments.Keys - Used()|, StackSize(stack)
      {
        var selectionSet := stack[|stack| - 1];
        ghost var used, size := Used(), StackSize(stack);
        stack := Scan(selectionSet, stack[..|stack| - 1], f, before);
        Fewer(fragments.Keys, used, Used());
      }
      Finished(Graph(), {f}, before, Used());
      forall g ensures ReachedFrom(Graph(), {f}, g) <==> Reaches(Graph(), f, g) {
        assert f in {f};
      }
    }
  }

  lemma StartMarking(bodies: Bodies, f: string, before: set<string>, selections: seq<Selection>)
    requires f in bodies && bodies[f] == selections && Closed(References(bodies), before)
    ensures Marking(References(bodies), {f}, before, before + {f}, StackSpreads([selections]))
  {
    var graph := References(bodies);
    OneSet(selections);
    ReachesItself(graph, f);
    forall g | g in Spreads(selections) && g in graph ensures ReachedFrom(graph, {f}, g) {
      ReachesOn(graph, f, f, g);
      assert f in {f};
    }
    assert f in {f} && Reaches(graph, f, f);
  }

  lemma OneSet(selections: seq<Selection>)
    ensures StackSpreads([selections]) == Spreads(selections)
  {
    var stack := [selections];
    assert stack[..|stack| - 1] == [];
    AddsNothing(Spreads(selections));
  }

  lemma AddsNothing(names: set<string>)
    ensures {} + names == names
  {
  }

  // ---------------------------------------------------------------------------------------------
  // The walk of an operation
  // ---------------------------------------------------------------------------------------------

  ghost predicate NoDuplicates(names: seq<string>) {
    forall i, j | 0 <= i < j < |names| :: names[i] != names[j]
  }

  function Names(names: seq<string>): set<string> {
    set n | n in names
  }

  /** What walking `spreads` does to the fragments that were expanded: it adds each new one once, only ones
      that the spreads reach, and all that the spreads and the new ones refer to. */
  ghost predicate Walked(graph: Graph<string>, spreads: set<string>, before: seq<string>, after: seq<string>) {
    && before <= after && NoDuplicates(after) && Names(after) <= graph.Keys
    && spreads * graph.Keys <= Names(after)
    && (forall g | g in Names(after) - Names(before) ::
          g in graph && ReachedFrom(graph, spreads, g) && graph[g] <= Names(after))
  }

  lemma WalkedOn(graph: Graph<string>, first: set<string>, then_: set<string>, a: seq<string>, b: seq<string>, c: seq<string>)
    requires Walked(graph, first, a, b) && Walked(graph, then_, b, c)
    ensures Walked(graph, first + then_, a, c)
  {
    assert Names(b) <= Names(c);
    forall g | g in Names(c) - Names(a)
      ensures g in graph && ReachedFrom(graph, first + then_, g) && graph[g] <= Names(c)
    {
      if g in Names(b) {
        var f :| f in first && Reaches(graph, f, g);
        assert f in first + then_;
      } else {
        var f :| f in then_ && Reaches(graph, f, g);
        assert f in first + then_;
      }
    }
  }

  /** A fragment is expanded: its body is walked right after it is noted. */
  lemma WalkedSnoc(graph: Graph<string>, selections: seq<Selection>, i: nat, a: seq<string>, b: seq<string>, c: seq<string>)
    requires i < |selections| && Walked(graph, Spreads(selections[..i]), a, b) && Walked(graph, SpreadsOf(selections[i]), b, c)
    ensures Walked(graph, Spreads(selections[..i + 1]), a, c)
  {
    SpreadsSnoc(selections[..i], selections[i]);
    assert selections[..i + 1] == selections[..i] + [selections[i]];
    WalkedOn(graph, Spreads(selections[..i]), SpreadsOf(selections[i]), a, b, c);
  }

  lemma WalkedInto(bodies: Bodies, name: string, before: seq<string>, after: seq<string>)
    requires name in bodies && name !in before && Walked(References(bodies), Spreads(bodies[name]), before + [name], after)
    ensures Walked(References(bodies), {name}, before, after)
  {
    var graph := References(bodies);
    assert Names(before + [name]) == Names(before) + {name};
    assert name in before + [name];
    forall g | g in Names(after) - Names(before)
      ensures g in graph && ReachedFrom(graph, {name}, g) && graph[g] <= Names(after)
    {
      if g == name {
        ReachesItself(graph, name);
      } else {
        var f :| f in Spreads(bodies[name]) && Reaches(graph, f, g);
        var path :| IsPathTo(graph, path, f, g);
        ReachesBefore(graph, name, f, g);
      }
      assert name in {name} && Reaches(graph, name, g);
    }
  }

  lemma WalkedNothing(graph: Graph<string>, spreads: set<string>, names: seq<string>)
    requires NoDuplicates(names) && Names(names) <= graph.Keys && spreads * graph.Keys <= Names(names)
    ensures Walked(graph, spreads, names, names)
  {
  }

  /** `expanded` lists the fragments whose bodies were walked; validatedFragments is the set of them. */
  class OperationWalk {
    const bodies: Bodies
    var validatedFragments: set<string>
    var expanded: seq<string>

    ghost predicate Valid()
      reads this
    {
      validatedFragments == Names(expanded) && NoDuplicates(expanded) && validatedFragments <= bodies.Keys
    }

    constructor (bodies: Bodies)
      ensures Valid() && this.bodies == bodies && expanded == []
    {
      this.bodies, validatedFragments, expanded := bodies, {}, [];
    }

    method WalkSelectionSet(selections: seq<Selection>)
      requires Valid()
      modifies this
      ensures Valid() && Walked(References(bodies), Spreads(selections), old(expanded), expanded)
      decreases |bodies.Keys - validatedFragments|, selections, 1
    {
      var i := 0;
      WalkedNothing(References(bodies), {}, expanded);
      while i < |selections|
        invariant 0 <= i <= |selections| && Valid()
        invariant Walked(References(bodies), Spreads(selections[..i]), old(expanded), expanded)
      {
        ghost var mid := expanded;
        Fewer(bodies.Keys, old(validatedFragments), validatedFragments);
        WalkSelection(selections[i]);
        WalkedSnoc(References(bodies), selections, i, old(expanded), mid, expanded);
        i := i + 1;
      }
      assert selections[..i] == selections;
    }

    method WalkSelection(s: Selection)
      requires Valid()
      modifies this
      ensures Valid() && Walked(References(bodies), SpreadsOf(s), old(expanded), expanded)
      decreases |bodies.Keys - validatedFragments|, s, 0
    {
      if !s.FragmentSpread? {
        WalkSelectionSet(s.selections);
      } else if s.name in bodies && s.name !in validatedFragments {
        Note(s.name);
        Fewer(bodies.Keys, old(validatedFragments), validatedFragments);
        WalkSelectionSet(bodies[s.name]);
        WalkedInto(bodies, s.name, old(expanded), expanded);
      } else {
        WalkedNothing(References(bodies), {s.name}, expanded);
      }
    }

    /** validatedFragments[fragmentName] = true */
    method Note(name: string)
      requires Valid() && name in bodies && name !in validatedFragments
      modifies this
      ensures Valid() && expanded == old(expanded) + [name] && validatedFragments == old(validatedFragments) + {name}
    {
      validatedFragments := validatedFragments + {name};
      expanded := expanded + [name];
    }

    /** The walk of an operation expands each fragment that it reaches, and no other, exactly once. */
    method WalkOperation(selections: seq<Selection>)
      requires Valid() && expanded == []
      modifies this
      ensures NoDuplicates(expanded)
      ensures forall g :: g in expanded <==> ReachedFrom(References(bodies), Spreads(selections), g)
    {
      WalkSelectionSet(selections);
      assert Names([]) == {};
      assert Closed(References(bodies), Names(expanded));
      forall g | ReachedFrom(References(bodies), Spreads(selections), g) ensures g in Names(expanded) {
        var f :| f in Spreads(selections) && Reaches(References(bodies), f, g);
        var path :| IsPathTo(References(bodies), path, f, g);
        assert f in Spreads(selections) * bodies.Keys;
        ClosedHoldsReached(References(bodies), Names(expanded), f, g);
      }
      forall g | g in expanded ensures ReachedFrom(References(bodies), Spreads(selections), g) {
        assert g in Names(expanded) - Names([]);
      }
    }
  }
}
