/** Exactly when the executor's nodes are the groups that the specification executes. */
module FieldCollectionExact {
  import opened Wrappers
  import opened FieldCollection
  import opened FieldCollectionSpec

  // ---------------------------------------------------------------------------------------------
  // Merged selection sets
  // ---------------------------------------------------------------------------------------------

  /** MergeSelectionSets of section 6.4.3: the selection sets one after the other. */
  function Merged(sets: seq<seq<Selection>>): seq<Selection> {
    if sets == [] then [] else sets[0] + Merged(sets[1..])
  }

  lemma {:induction false} CollectConcat(ctx: Context, t: TypeId, a: seq<Selection>, b: seq<Selection>, acc: Collected)
    ensures var r := Collect(ctx, t, a, acc);
            Collect(ctx, t, a + b, acc) == if r.Err? then r else Collect(ctx, t, b, r.value)
    decreases |a|
  {
    if a == [] {
      assert a + b == b;
    } else {
      var s, rest := a[0], a[1..];
      assert (a + b)[0] == s && (a + b)[1..] == rest + b;
      var included := ShouldInclude(DirectivesOf(s));
      if included == Ok(false) {
        CollectConcat(ctx, t, rest, b, acc);
      } else if included == Ok(true) {
        if s.FieldSelection? {
          var added := AddField(ctx, t, acc.groups, s.field);
          if added.Ok? { CollectConcat(ctx, t, rest, b, Collected(acc.visited, added.value)); }
        } else {
          var (inner, visited) := Enter(ctx, t, s, acc.visited);
          var acc' := Collected(visited, acc.groups);
          var r := if inner == None then Ok(acc') else Collect(ctx, t, inner.value, acc');
          if r.Ok? { CollectConcat(ctx, t, rest, b, r.value); }
        }
      }
    }
  }

  /** Collecting the selection sets of merged definitions in turn is collecting the merged selection set. */
  lemma {:induction false} CollectAllIsMerged(ctx: Context, t: TypeId, sets: seq<seq<Selection>>, acc: Collected)
    ensures CollectAll(ctx, t, sets, acc) == Collect(ctx, t, Merged(sets), acc)
  {
    if sets != [] {
      CollectConcat(ctx, t, sets[0], Merged(sets[1..]), acc);
      var r := Collect(ctx, t, sets[0], acc);
      if r.Ok? { CollectAllIsMerged(ctx, t, sets[1..], r.value); }
    }
  }

  // ---------------------------------------------------------------------------------------------
  // The groups that are executed
  // ---------------------------------------------------------------------------------------------

  predicate Defined(ctx: Context, t: TypeId, f: Field) {
    FindFieldDef(ctx, t, f.name).Some?
  }

  /** ExecuteSelectionSet takes the name of the first field of a group and leaves the group out if the
      type does not have that field. */
  function Kept(ctx: Context, t: TypeId, groups: seq<FieldGroup>): seq<FieldGroup> {
    if groups == [] then []
    else
      var rest := Kept(ctx, t, groups[1..]);
      if groups[0].fields != [] && Defined(ctx, t, groups[0].fields[0]) then [groups[0]] + rest else rest
  }

  /** The nodes are these groups, each with the definition and the arguments of its first field. */
  ghost predicate Match(ctx: Context, t: TypeId, nodes: seq<Group>, groups: seq<FieldGroup>) {
    && |nodes| == |groups|
    && forall i | 0 <= i < |nodes| ::
         && nodes[i].key == groups[i].key && nodes[i].fields == groups[i].fields && groups[i].fields != []
         && FindFieldDef(ctx, t, groups[i].fields[0].name) == Some(nodes[i].def)
         && ctx.arguments(nodes[i].def, groups[i].fields[0]) == Ok(nodes[i].arguments)
  }

  /** No group starts with a field that the type does not have and goes on with one that it has. */
  ghost predicate Unambiguous(ctx: Context, t: TypeId, groups: seq<FieldGroup>) {
    forall i, j | 0 <= i < |groups| && 0 <= j < |groups[i].fields| && Defined(ctx, t, groups[i].fields[j]) ::
      Defined(ctx, t, groups[i].fields[0])
  }

  ghost predicate Filled(groups: seq<FieldGroup>) {
    forall i | 0 <= i < |groups| :: groups[i].fields != []
  }

  lemma {:induction false} JoinNew(groups: seq<FieldGroup>, f: Field)
    requires !Has(groups, f.key)
    ensures Join(groups, f.key, [f]) == groups + [FieldGroup(f.key, [f])]
  {
    if groups != [] {
      HasCons(groups, f.key);
      JoinNew(groups[1..], f);
    }
  }

  lemma {:induction false} KeptSnoc(ctx: Context, t: TypeId, groups: seq<FieldGroup>, f: Field)
    ensures Kept(ctx, t, groups + [FieldGroup(f.key, [f])]) ==
              Kept(ctx, t, groups) + if Defined(ctx, t, f) then [FieldGroup(f.key, [f])] else []
  {
    if groups != [] {
      KeptSnoc(ctx, t, groups[1..], f);
      assert (groups + [FieldGroup(f.key, [f])])[1..] == groups[1..] + [FieldGroup(f.key, [f])];
    }
  }

  lemma {:induction false} JoinAt(groups: seq<FieldGroup>, k: Name, fields: seq<Field>, i: nat)
    requires i < |groups| && groups[i].key == k && UniqueKeys(groups)
    ensures Join(groups, k, fields) == groups[i := FieldGroup(k, groups[i].fields + fields)]
  {
    if i > 0 {
      JoinAt(groups[1..], k, fields, i - 1);
    }
  }

  lemma {:induction false} KeptHas(ctx: Context, t: TypeId, groups: seq<FieldGroup>, i: nat)
    requires UniqueKeys(groups) && i < |groups|
    ensures Has(Kept(ctx, t, groups), groups[i].key) <==> groups[i].fields != [] && Defined(ctx, t, groups[i].fields[0])
  {
    var k := groups[i].key;
    var rest := Kept(ctx, t, groups[1..]);
    if i == 0 {
      KeptKeys(ctx, t, groups[1..], k);
      assert !Has(groups[1..], k);
    } else {
      KeptHas(ctx, t, groups[1..], i - 1);
    }
    if Kept(ctx, t, groups) != rest {
      HasCons(Kept(ctx, t, groups), k);
      assert Kept(ctx, t, groups)[1..] == rest;
    }
  }

  lemma {:induction false} KeptKeys(ctx: Context, t: TypeId, groups: seq<FieldGroup>, k: Name)
    ensures Has(Kept(ctx, t, groups), k) ==> Has(groups, k)
  {
    if groups != [] {
      KeptKeys(ctx, t, groups[1..], k);
      HasCons(groups, k);
      var kept := Kept(ctx, t, groups);
      if kept != [] { HasCons(kept, k); }
      if kept != Kept(ctx, t, groups[1..]) { assert kept[1..] == Kept(ctx, t, groups[1..]); }
    }
  }

  /** Adding to a group that is kept adds to it among the kept ones; any other is still left out. */
  lemma {:induction false} KeptJoin(ctx: Context, t: TypeId, groups: seq<FieldGroup>, f: Field)
    requires UniqueKeys(groups) && Has(groups, f.key) && Filled(groups)
    ensures var kept := Kept(ctx, t, groups);
            Kept(ctx, t, Join(groups, f.key, [f])) == if Has(kept, f.key) then Join(kept, f.key, [f]) else kept
  {
    var k := f.key;
    var kept, rest := Kept(ctx, t, groups), Kept(ctx, t, groups[1..]);
    HasCons(groups, k);
    if groups[0].key == k {
      KeptKeys(ctx, t, groups[1..], k);
      assert !Has(groups[1..], k);
      assert Join(groups, k, [f])[1..] == groups[1..];
      assert (groups[0].fields + [f])[0] == groups[0].fields[0];
    } else {
      KeptJoin(ctx, t, groups[1..], f);
      assert Join(groups, k, [f])[1..] == Join(groups[1..], k, [f]);
    }
    if kept != rest {
      HasCons(kept, k);
      assert kept[1..] == rest && kept[0] == groups[0];
    }
  }

  lemma {:induction false} GroupByFilled(fields: seq<Field>)
    ensures Filled(GroupBy(fields))
  {
    if fields != [] {
      var n := |fields| - 1;
      GroupByFilled(fields[..n]);
      JoinFilled(GroupBy(fields[..n]), fields[n]);
    }
  }

  lemma {:induction false} JoinFilled(groups: seq<FieldGroup>, f: Field)
    requires Filled(groups)
    ensures Filled(Join(groups, f.key, [f]))
  {
    if groups != [] && groups[0].key != f.key {
      JoinFilled(groups[1..], f);
    }
  }

  // ---------------------------------------------------------------------------------------------
  // Nodes and kept groups, field by field
  // ---------------------------------------------------------------------------------------------

  lemma {:induction false} MatchAppend(ctx: Context, t: TypeId, nodes: seq<Group>, groups: seq<FieldGroup>, f: Field)
    requires Match(ctx, t, nodes, groups) && Has(groups, f.key)
    ensures HasKey(nodes, f.key) && Match(ctx, t, Append(nodes, f), Join(groups, f.key, [f]))
  {
    MatchKeys(ctx, t, nodes, groups, f.key);
    HasCons(groups, f.key);
    if groups[0].key != f.key {
      MatchAppend(ctx, t, nodes[1..], groups[1..], f);
      MatchCons(ctx, t, nodes[0], groups[0], Append(nodes[1..], f), Join(groups[1..], f.key, [f]));
    } else {
      assert (groups[0].fields + [f])[0] == groups[0].fields[0];
    }
  }

  lemma MatchCons(ctx: Context, t: TypeId, node: Group, group: FieldGroup, nodes: seq<Group>, groups: seq<FieldGroup>)
    requires Match(ctx, t, [node], [group]) && Match(ctx, t, nodes, groups)
    ensures Match(ctx, t, [node] + nodes, [group] + groups)
  {
    assert [node][0] == node && [group][0] == group;
  }

  lemma MatchKeys(ctx: Context, t: TypeId, nodes: seq<Group>, groups: seq<FieldGroup>, k: Name)
    requires Match(ctx, t, nodes, groups)
    ensures HasKey(nodes, k) <==> Has(groups, k)
  {
    if HasKey(nodes, k) {
      var i :| 0 <= i < |nodes| && nodes[i].key == k;
      assert groups[i].key == k;
    }
    if Has(groups, k) {
      var i :| 0 <= i < |groups| && groups[i].key == k;
      assert nodes[i].key == k;
    }
  }

  /** A prefix of the fields is no more ambiguous than the whole. */
  lemma {:induction false} UnambiguousPrefix(ctx: Context, t: TypeId, groups: seq<FieldGroup>, more: seq<FieldGroup>)
    requires Unambiguous(ctx, t, more) && |groups| <= |more|
    requires forall i | 0 <= i < |groups| :: groups[i].fields <= more[i].fields
    ensures Unambiguous(ctx, t, groups)
  {
    forall i, j | 0 <= i < |groups| && 0 <= j < |groups[i].fields| && Defined(ctx, t, groups[i].fields[j])
      ensures Defined(ctx, t, groups[i].fields[0])
    {
      assert more[i].fields[j] == groups[i].fields[j] && more[i].fields[0] == groups[i].fields[0];
    }
  }

  lemma {:induction false} UnambiguousJoin(ctx: Context, t: TypeId, groups: seq<FieldGroup>, f: Field)
    requires UniqueKeys(groups) && Filled(groups) && Unambiguous(ctx, t, Join(groups, f.key, [f]))
    ensures Unambiguous(ctx, t, groups)
    ensures forall i | 0 <= i < |groups| && groups[i].key == f.key && Defined(ctx, t, f) :: Defined(ctx, t, groups[i].fields[0])
  {
    var joined := Join(groups, f.key, [f]);
    if Has(groups, f.key) {
      var m :| 0 <= m < |groups| && groups[m].key == f.key;
      JoinAt(groups, f.key, [f], m);
      UnambiguousPrefix(ctx, t, groups, joined);
      assert joined[m].fields[|groups[m].fields|] == f && joined[m].fields[0] == groups[m].fields[0];
    } else {
      JoinNew(groups, f);
      UnambiguousPrefix(ctx, t, groups, joined);
    }
  }

  lemma {:induction false} UnambiguousMatches(ctx: Context, t: TypeId, fields: seq<Field>, nodes: seq<Group>)
    requires AddAll(ctx, t, [], fields) == Ok(nodes) && Unambiguous(ctx, t, GroupBy(fields))
    ensures Match(ctx, t, nodes, Kept(ctx, t, GroupBy(fields)))
    decreases |fields|
  {
    if fields != [] {
      var n := |fields| - 1;
      var f := fields[n];
      var before := GroupBy(fields[..n]);
      assert fields == fields[..n] + [f];
      AddAllConcat(ctx, t, [], fields[..n], [f]);
      var was := AddAll(ctx, t, [], fields[..n]).value;
      GroupByUnique(fields[..n]);
      GroupByFilled(fields[..n]);
      UnambiguousJoin(ctx, t, before, f);
      UnambiguousMatches(ctx, t, fields[..n], was);
      MatchStep(ctx, t, before, was, f, nodes);
    }
  }

  lemma MatchStep(ctx: Context, t: TypeId, before: seq<FieldGroup>, was: seq<Group>, f: Field, nodes: seq<Group>)
    requires AddAll(ctx, t, was, [f]) == Ok(nodes) && UniqueKeys(before) && Filled(before)
    requires Match(ctx, t, was, Kept(ctx, t, before))
    requires forall i | 0 <= i < |before| && before[i].key == f.key && Defined(ctx, t, f) :: Defined(ctx, t, before[i].fields[0])
    ensures Match(ctx, t, nodes, Kept(ctx, t, Join(before, f.key, [f])))
  {
    var kept := Kept(ctx, t, before);
    assert AddField(ctx, t, was, f) == Ok(nodes) by { assert [f][1..] == []; }
    MatchKeys(ctx, t, was, kept, f.key);
    if Has(before, f.key) {
      KeptJoin(ctx, t, before, f);
      if Has(kept, f.key) {
        MatchAppend(ctx, t, was, kept, f);
      } else {
        var i :| 0 <= i < |before| && before[i].key == f.key;
        KeptHas(ctx, t, before, i);
      }
    } else {
      KeptKeys(ctx, t, before, f.key);
      JoinNew(before, f);
      KeptSnoc(ctx, t, before, f);
    }
  }

  // ---------------------------------------------------------------------------------------------
  // The other direction
  // ---------------------------------------------------------------------------------------------

  lemma {:induction false} NodesKeepKeys(ctx: Context, t: TypeId, groups: seq<Group>, fields: seq<Field>, k: Name)
    requires AddAll(ctx, t, groups, fields).Ok?
    requires HasKey(groups, k) || exists j :: 0 <= j < |fields| && fields[j].key == k && Defined(ctx, t, fields[j])
    ensures HasKey(AddAll(ctx, t, groups, fields).value, k)
    decreases |fields|
  {
    if fields != [] {
      var f := fields[0];
      var groups' := AddField(ctx, t, groups, f).value;
      if HasKey(groups, k) {
        AddKeeps(ctx, t, groups, f, k);
      } else {
        var j :| 0 <= j < |fields| && fields[j].key == k && Defined(ctx, t, fields[j]);
        if j == 0 {
          assert groups'[|groups|].key == k;
        } else {
          assert fields[1..][j - 1] == fields[j];
        }
      }
      NodesKeepKeys(ctx, t, groups', fields[1..], k);
    }
  }

  lemma AddKeeps(ctx: Context, t: TypeId, groups: seq<Group>, f: Field, k: Name)
    requires AddField(ctx, t, groups, f).Ok? && HasKey(groups, k)
    ensures HasKey(AddField(ctx, t, groups, f).value, k)
  {
    var i :| 0 <= i < |groups| && groups[i].key == k;
    AppendKeeps(groups, f, i);
    var r := AddField(ctx, t, groups, f).value;
    assert r[i].key == k;
  }

  lemma {:induction false} AppendKeeps(groups: seq<Group>, f: Field, i: nat)
    requires i < |groups|
    ensures |Append(groups, f)| == |groups| && Append(groups, f)[i].key == groups[i].key
  {
    if i > 0 {
      AppendKeeps(groups[1..], f, i - 1);
    } else if |groups| > 1 {
      AppendKeeps(groups[1..], f, 0);
    }
  }

  /** A field of a group is one of the fields that were grouped, with the key of the group. */
  lemma {:induction false} GroupedField(fields: seq<Field>, i: nat, j: nat) returns (m: nat)
    requires i < |GroupBy(fields)| && j < |GroupBy(fields)[i].fields|
    ensures m < |fields| && fields[m] == GroupBy(fields)[i].fields[j] && fields[m].key == GroupBy(fields)[i].key
    decreases |fields|
  {
    var n := |fields| - 1;
    var f, before, groups := fields[n], GroupBy(fields[..n]), GroupBy(fields);
    GroupByUnique(fields[..n]);
    m := n;
    if Has(before, f.key) {
      var k :| 0 <= k < |before| && before[k].key == f.key;
      JoinAt(before, f.key, [f], k);
      if i != k || j < |before[k].fields| {
        m := GroupedField(fields[..n], i, j);
      }
    } else {
      JoinNew(before, f);
      if i < |before| {
        m := GroupedField(fields[..n], i, j);
      }
    }
  }

  lemma MatchesUnambiguous(ctx: Context, t: TypeId, fields: seq<Field>, nodes: seq<Group>)
    requires AddAll(ctx, t, [], fields) == Ok(nodes) && Match(ctx, t, nodes, Kept(ctx, t, GroupBy(fields)))
    ensures Unambiguous(ctx, t, GroupBy(fields))
  {
    var groups := GroupBy(fields);
    GroupByUnique(fields);
    forall i, j | 0 <= i < |groups| && 0 <= j < |groups[i].fields| && Defined(ctx, t, groups[i].fields[j])
      ensures Defined(ctx, t, groups[i].fields[0])
    {
      var m := GroupedField(fields, i, j);
      NodesKeepKeys(ctx, t, [], fields, groups[i].key);
      MatchKeys(ctx, t, nodes, Kept(ctx, t, groups), groups[i].key);
      KeptHas(ctx, t, groups, i);
    }
  }

  /** What the executor collects for merged definitions, when no directive or argument fails, is what the
      specification executes exactly if no response key starts with a field that the type does not have
      and goes on with one that it has. */
  lemma CollectsAsSpecified(ctx: Context, t: TypeId, sets: seq<seq<Selection>>, collected: Collected)
    requires CollectAll(ctx, t, sets, Collected({}, [])) == Ok(collected)
    ensures var spec := SpecCollect(ctx, t, Merged(sets), Grouped({}, []));
            && spec.Ok? && spec.value.visited == collected.visited
            && (Match(ctx, t, collected.groups, Kept(ctx, t, spec.value.groups)) <==> Unambiguous(ctx, t, spec.value.groups))
  {
    CollectAllIsMerged(ctx, t, sets, Collected({}, []));
    CollectAddsFields(ctx, t, Merged(sets), Collected({}, []));
    SpecGroupsFields(ctx, t, Merged(sets), {}, []);
    var fields := Fields(ctx, t, Merged(sets), {}).value.fields;
    assert [] + fields == fields;
    if Unambiguous(ctx, t, GroupBy(fields)) {
      UnambiguousMatches(ctx, t, fields, collected.groups);
    }
    if Match(ctx, t, collected.groups, Kept(ctx, t, GroupBy(fields))) {
      MatchesUnambiguous(ctx, t, fields, collected.groups);
    }
  }

  /** A schema whose object type 0 has one field, `name`. */
  const NAME_ONLY := Context([], map[], 1, map[], map[], map[0 := map["name" := Own(0)]], (def, f) => Ok(0))

  const NO_DIRECTIVES := Directives(Ok(None), Ok(None))

  /** A query for which they differ, `{ a: nosuch a: name }`: the specification drops the group `a`, the
      executor fills it with the second field. */
  lemma LateDefinitionIsCollected()
    ensures var first, second := Field("a", "nosuch", NO_DIRECTIVES, []), Field("a", "name", NO_DIRECTIVES, []);
            var query := [FieldSelection(first), FieldSelection(second)];
            && Collect(NAME_ONLY, 0, query, Collected({}, [])) == Ok(Collected({}, [Group("a", Own(0), 0, [second])]))
            && SpecCollect(NAME_ONLY, 0, query, Grouped({}, [])) == Ok(Grouped({}, [FieldGroup("a", [first, second])]))
            && Kept(NAME_ONLY, 0, [FieldGroup("a", [first, second])]) == []
  {
    var first, second := Field("a", "nosuch", NO_DIRECTIVES, []), Field("a", "name", NO_DIRECTIVES, []);
    LateCollect(NAME_ONLY, 0, first, second);
    LateSpec(NAME_ONLY, 0, first, second);
  }

  lemma LateCollect(ctx: Context, t: TypeId, first: Field, second: Field)
    requires first.key == second.key && first.directives == second.directives == Directives(Ok(None), Ok(None))
    requires FindFieldDef(ctx, t, first.name) == None && FindFieldDef(ctx, t, second.name) == Some(Own(0))
    requires ctx.arguments(Own(0), second) == Ok(0)
    ensures Collect(ctx, t, [FieldSelection(first), FieldSelection(second)], Collected({}, [])) ==
              Ok(Collected({}, [Group(second.key, Own(0), 0, [second])]))
  {
    var query := [FieldSelection(first), FieldSelection(second)];
    assert query[1..] == [FieldSelection(second)] && query[1..][1..] == [];
    var groups := [Group(second.key, Own(0), 0, [second])];
    assert AddField(ctx, t, [], first) == Ok([]) && AddField(ctx, t, [], second) == Ok([] + groups) && [] + groups == groups;
    assert Collect(ctx, t, [], Collected({}, groups)) == Ok(Collected({}, groups));
    assert Collect(ctx, t, [FieldSelection(second)], Collected({}, [])) == Ok(Collected({}, groups));
  }

  lemma LateSpec(ctx: Context, t: TypeId, first: Field, second: Field)
    requires first.key == second.key && first.directives == second.directives == Directives(Ok(None), Ok(None))
    ensures SpecCollect(ctx, t, [FieldSelection(first), FieldSelection(second)], Grouped({}, [])) ==
              Ok(Grouped({}, [FieldGroup(first.key, [first, second])]))
  {
    var query := [FieldSelection(first), FieldSelection(second)];
    assert query[1..] == [FieldSelection(second)] && query[1..][1..] == [];
    var one, both := [FieldGroup(first.key, [first])], [FieldGroup(first.key, [first, second])];
    assert [first] + [second] == [first, second];
    assert Join([], first.key, [first]) == one && Join(one, first.key, [second]) == both;
    assert SpecCollect(ctx, t, [], Grouped({}, both)) == Ok(Grouped({}, both));
    assert SpecCollect(ctx, t, [FieldSelection(second)], Grouped({}, one)) == Ok(Grouped({}, both));
  }
}
