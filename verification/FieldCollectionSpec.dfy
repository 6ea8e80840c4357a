/**
 CollectFields as the specification words it (section 6.3.2 of GraphQL June 2018): every selection set
 makes its own ordered grouping, which is merged into the one around it; ExecuteSelectionSet then drops
 the groups whose field the type does not have. And exactly when the executor's nodes are those groups.
 */
module FieldCollectionSpec {
  import opened Wrappers
  import opened FieldCollection

  datatype FieldGroup = FieldGroup(key: Name, fields: seq<Field>)

  /** Appends fields to the group for `key`, or makes it. */
  function Join(groups: seq<FieldGroup>, key: Name, fields: seq<Field>): seq<FieldGroup> {
    if groups == [] then [FieldGroup(key, fields)]
    else if groups[0].key == key then [FieldGroup(key, groups[0].fields + fields)] + groups[1..]
    else [groups[0]] + Join(groups[1..], key, fields)
  }

  /** Merges a grouping into another one. */
  function JoinAll(groups: seq<FieldGroup>, more: seq<FieldGroup>): seq<FieldGroup>
    decreases |more|
  {
    if more == [] then groups else JoinAll(Join(groups, more[0].key, more[0].fields), more[1..])
  }

  datatype Grouped = Grouped(visited: set<Name>, groups: seq<FieldGroup>)

  /** CollectFields(objectType, selectionSet, variableValues, visitedFragments), from `selections` on. */
  function SpecCollect(ctx: Context, t: TypeId, selections: seq<Selection>, acc: Grouped): (r: Result<Grouped, string>)
    ensures r.Ok? ==> acc.visited <= r.value.visited
    decreases |Unvisited(ctx, acc.visited)|, Size(selections)
  {
    if selections == [] then Ok(acc)
    else
      var s, rest := selections[0], selections[1..];
      match ShouldInclude(DirectivesOf(s))
      case Err(e) => Err(e)
      case Ok(false) => SpecCollect(ctx, t, rest, acc)
      case Ok(true) =>
        if s.FieldSelection? then
          SpecCollect(ctx, t, rest, Grouped(acc.visited, Join(acc.groups, s.field.key, [s.field])))
        else
          var (inner, visited) := Enter(ctx, t, s, acc.visited);
          UnvisitedShrinks(ctx, acc.visited, visited);
          if inner == None then SpecCollect(ctx, t, rest, Grouped(visited, acc.groups))
          else
            assert s.FragmentSpread? ==> s.name in Unvisited(ctx, acc.visited) && s.name !in Unvisited(ctx, visited);
            match SpecCollect(ctx, t, inner.value, Grouped(visited, []))
            case Err(e) => Err(e)
            case Ok(own) =>
              UnvisitedShrinks(ctx, visited, own.visited);
              SpecCollect(ctx, t, rest, Grouped(own.visited, JoinAll(acc.groups, own.groups)))
  }

  // ---------------------------------------------------------------------------------------------
  // The fields in the order in which they are met
  // ---------------------------------------------------------------------------------------------

  datatype Met = Met(visited: set<Name>, fields: seq<Field>)

  function Fields(ctx: Context, t: TypeId, selections: seq<Selection>, visited: set<Name>): (r: Result<Met, string>)
    ensures r.Ok? ==> visited <= r.value.visited
    decreases |Unvisited(ctx, visited)|, Size(selections)
  {
    if selections == [] then Ok(Met(visited, []))
    else
      var s, rest := selections[0], selections[1..];
      match ShouldInclude(DirectivesOf(s))
      case Err(e) => Err(e)
      case Ok(false) => Fields(ctx, t, rest, visited)
      case Ok(true) =>
        if s.FieldSelection? then Prepend([s.field], Fields(ctx, t, rest, visited))
        else
          var (inner, visited') := Enter(ctx, t, s, visited);
          UnvisitedShrinks(ctx, visited, visited');
          if inner == None then Fields(ctx, t, rest, visited')
          else
            assert s.FragmentSpread? ==> s.name in Unvisited(ctx, visited) && s.name !in Unvisited(ctx, visited');
            match Fields(ctx, t, inner.value, visited')
            case Err(e) => Err(e)
            case Ok(own) =>
              UnvisitedShrinks(ctx, visited', own.visited);
              Prepend(own.fields, Fields(ctx, t, rest, own.visited))
  }

  function Prepend(fields: seq<Field>, r: Result<Met, string>): Result<Met, string> {
    if r.Err? then r else Ok(Met(r.value.visited, fields + r.value.fields))
  }

  /** The fields one after the other, as the executor adds them. */
  function AddAll(ctx: Context, t: TypeId, groups: seq<Group>, fields: seq<Field>): Result<seq<Group>, string>
    decreases |fields|
  {
    if fields == [] then Ok(groups)
    else match AddField(ctx, t, groups, fields[0])
         case Err(e) => Err(e)
         case Ok(groups') => AddAll(ctx, t, groups', fields[1..])
  }

  function GroupBy(fields: seq<Field>): seq<FieldGroup> {
    if fields == [] then []
    else
      var last := fields[|fields| - 1];
      Join(GroupBy(fields[..|fields| - 1]), last.key, [last])
  }

  lemma {:induction false} AddAllConcat(ctx: Context, t: TypeId, groups: seq<Group>, a: seq<Field>, b: seq<Field>)
    ensures var r := AddAll(ctx, t, groups, a);
            AddAll(ctx, t, groups, a + b) == if r.Err? then r else AddAll(ctx, t, r.value, b)
    decreases |a|
  {
    if a == [] {
      assert a + b == b;
    } else {
      assert (a + b)[0] == a[0] && (a + b)[1..] == a[1..] + b;
      var r := AddField(ctx, t, groups, a[0]);
      if r.Ok? { AddAllConcat(ctx, t, r.value, a[1..], b); }
    }
  }

  /** The executor's recursion meets the same fields and adds them one by one. */
  lemma {:induction false} CollectAddsFields(ctx: Context, t: TypeId, selections: seq<Selection>, acc: Collected)
    ensures var met := Fields(ctx, t, selections, acc.visited); var r := Collect(ctx, t, selections, acc);
            && (r.Ok? <==> met.Ok? && AddAll(ctx, t, acc.groups, met.value.fields).Ok?)
            && (r.Ok? ==> AddAll(ctx, t, acc.groups, met.value.fields) == Ok(r.value.groups)
                          && r.value.visited == met.value.visited)
    decreases |Unvisited(ctx, acc.visited)|, Size(selections)
  {
    if selections != [] {
      var s, rest := selections[0], selections[1..];
      var included := ShouldInclude(DirectivesOf(s));
      if included == Ok(false) {
        CollectAddsFields(ctx, t, rest, acc);
      } else if included == Ok(true) {
        if s.FieldSelection? {
          CollectAddsOne(ctx, t, selections, acc);
        } else {
          CollectAddsInner(ctx, t, selections, acc);
        }
      }
    }
  }

  lemma {:induction false} CollectAddsOne(ctx: Context, t: TypeId, selections: seq<Selection>, acc: Collected)
    requires selections != [] && selections[0].FieldSelection? && ShouldInclude(DirectivesOf(selections[0])) == Ok(true)
    ensures var met := Fields(ctx, t, selections, acc.visited); var r := Collect(ctx, t, selections, acc);
            && (r.Ok? <==> met.Ok? && AddAll(ctx, t, acc.groups, met.value.fields).Ok?)
            && (r.Ok? ==> AddAll(ctx, t, acc.groups, met.value.fields) == Ok(r.value.groups)
                          && r.value.visited == met.value.visited)
    decreases |Unvisited(ctx, acc.visited)|, Size(selections), 0
  {
    var f, rest := selections[0].field, selections[1..];
    var added := AddField(ctx, t, acc.groups, f);
    if added.Ok? {
      CollectAddsFields(ctx, t, rest, Collected(acc.visited, added.value));
    }
    var met := Fields(ctx, t, rest, acc.visited);
    if met.Ok? {
      assert ([f] + met.value.fields)[1..] == met.value.fields;
    }
  }

  lemma {:induction false} CollectAddsInner(ctx: Context, t: TypeId, selections: seq<Selection>, acc: Collected)
    requires selections != [] && !selections[0].FieldSelection? && ShouldInclude(DirectivesOf(selections[0])) == Ok(true)
    ensures var met := Fields(ctx, t, selections, acc.visited); var r := Collect(ctx, t, selections, acc);
            && (r.Ok? <==> met.Ok? && AddAll(ctx, t, acc.groups, met.value.fields).Ok?)
            && (r.Ok? ==> AddAll(ctx, t, acc.groups, met.value.fields) == Ok(r.value.groups)
                          && r.value.visited == met.value.visited)
    decreases |Unvisited(ctx, acc.visited)|, Size(selections), 0
  {
    var s, rest := selections[0], selections[1..];
    var (inner, visited) := Enter(ctx, t, s, acc.visited);
    var acc' := Collected(visited, acc.groups);
    UnvisitedShrinks(ctx, acc.visited, visited);
    if inner == None {
      CollectAddsFields(ctx, t, rest, acc');
    } else {
      assert s.FragmentSpread? ==> s.name in Unvisited(ctx, acc.visited) && s.name !in Unvisited(ctx, visited);
      CollectAddsFields(ctx, t, inner.value, acc');
      var own := Fields(ctx, t, inner.value, visited);
      var r := Collect(ctx, t, inner.value, acc');
      if own.Ok? {
        UnvisitedShrinks(ctx, visited, own.value.visited);
        var met := Fields(ctx, t, rest, own.value.visited);
        if met.Ok? { AddAllConcat(ctx, t, acc.groups, own.value.fields, met.value.fields); }
        if r.Ok? { CollectAddsFields(ctx, t, rest, r.value); }
      }
    }
  }

  // ---------------------------------------------------------------------------------------------
  // Merging groupings is grouping the concatenation
  // ---------------------------------------------------------------------------------------------

  predicate Has(groups: seq<FieldGroup>, key: Name) {
    exists i | 0 <= i < |groups| :: groups[i].key == key
  }

  ghost predicate UniqueKeys(groups: seq<FieldGroup>) {
    forall i, j | 0 <= i < j < |groups| :: groups[i].key != groups[j].key
  }

  lemma {:induction false} JoinKeys(groups: seq<FieldGroup>, key: Name, fields: seq<Field>)
    ensures forall k :: Has(Join(groups, key, fields), k) <==> Has(groups, k) || k == key
    ensures UniqueKeys(groups) ==> UniqueKeys(Join(groups, key, fields))
  {
    var r := Join(groups, key, fields);
    if groups == [] {
      assert r[0].key == key;
    } else if groups[0].key == key {
      assert r[0].key == key && forall i | 0 < i < |groups| :: r[i] == groups[i];
      forall k ensures Has(r, k) <==> Has(groups, k) || k == key {
        if Has(groups, k) {
          var i :| 0 <= i < |groups| && groups[i].key == k;
          assert r[i].key == k;
        }
      }
    } else {
      var rest := groups[1..];
      JoinKeys(rest, key, fields);
      var r' := Join(rest, key, fields);
      assert forall i | 0 < i < |r| :: r[i] == r'[i - 1];
      assert forall i | 0 < i < |groups| :: groups[i] == rest[i - 1];
      forall k ensures Has(r, k) <==> Has(groups, k) || k == key {
        HasCons(groups, k);
        HasCons(r, k);
        assert r[1..] == r';
      }
      if UniqueKeys(groups) {
        assert !Has(rest, groups[0].key);
        assert !Has(r', groups[0].key);
      }
    }
  }

  lemma HasCons(groups: seq<FieldGroup>, k: Name)
    requires groups != []
    ensures Has(groups, k) <==> groups[0].key == k || Has(groups[1..], k)
  {
    if Has(groups, k) {
      var i :| 0 <= i < |groups| && groups[i].key == k;
      if i > 0 { assert groups[1..][i - 1].key == k; }
    }
    if Has(groups[1..], k) {
      var i :| 0 <= i < |groups[1..]| && groups[1..][i].key == k;
      assert groups[i + 1].key == k;
    }
  }

  lemma {:induction false} JoinCommutes(groups: seq<FieldGroup>, k: Name, a: seq<Field>, l: Name, b: seq<Field>)
    requires k != l && Has(groups, k)
    ensures Join(Join(groups, k, a), l, b) == Join(Join(groups, l, b), k, a)
  {
    HasCons(groups, k);
    if groups[0].key != k && groups[0].key != l {
      JoinCommutes(groups[1..], k, a, l, b);
    }
  }

  lemma {:induction false} JoinTwice(groups: seq<FieldGroup>, k: Name, a: seq<Field>, b: seq<Field>)
    ensures Join(Join(groups, k, a), k, b) == Join(groups, k, a + b)
  {
    if groups == [] {
    } else if groups[0].key == k {
      assert groups[0].fields + a + b == groups[0].fields + (a + b);
    } else {
      JoinTwice(groups[1..], k, a, b);
    }
  }

  /** Adding to a group that exists commutes with merging groups for other keys. */
  lemma {:induction false} JoinAllCommutes(groups: seq<FieldGroup>, more: seq<FieldGroup>, k: Name, a: seq<Field>)
    requires Has(groups, k) && !Has(more, k)
    ensures Join(JoinAll(groups, more), k, a) == JoinAll(Join(groups, k, a), more)
    decreases |more|
  {
    if more != [] {
      HasCons(more, k);
      JoinKeys(groups, more[0].key, more[0].fields);
      JoinCommutes(groups, k, a, more[0].key, more[0].fields);
      JoinAllCommutes(Join(groups, more[0].key, more[0].fields), more[1..], k, a);
    }
  }

  lemma {:induction false} JoinAllJoin(groups: seq<FieldGroup>, more: seq<FieldGroup>, k: Name, a: seq<Field>)
    requires UniqueKeys(more)
    ensures JoinAll(groups, Join(more, k, a)) == Join(JoinAll(groups, more), k, a)
    decreases |more|
  {
    if more == [] {
      assert JoinAll(Join(groups, k, a), []) == Join(groups, k, a);
    } else {
      var first := Join(groups, more[0].key, more[0].fields);
      if more[0].key == k {
        assert !Has(more[1..], k);
        JoinTwice(groups, k, more[0].fields, a);
        JoinKeys(groups, k, more[0].fields);
        JoinAllCommutes(first, more[1..], k, a);
        assert Join(more, k, a)[1..] == more[1..];
      } else {
        JoinAllJoin(first, more[1..], k, a);
        assert Join(more, k, a)[1..] == Join(more[1..], k, a);
      }
    }
  }

  lemma {:induction false} GroupByUnique(fields: seq<Field>)
    ensures UniqueKeys(GroupBy(fields))
  {
    if fields != [] {
      var last := fields[|fields| - 1];
      GroupByUnique(fields[..|fields| - 1]);
      JoinKeys(GroupBy(fields[..|fields| - 1]), last.key, [last]);
    }
  }

  lemma {:induction false} MergeIsConcat(a: seq<Field>, b: seq<Field>)
    ensures JoinAll(GroupBy(a), GroupBy(b)) == GroupBy(a + b)
    decreases |b|
  {
    if b == [] {
      assert a + b == a;
    } else {
      var n := |b| - 1;
      MergeIsConcat(a, b[..n]);
      GroupByUnique(b[..n]);
      JoinAllJoin(GroupBy(a), GroupBy(b[..n]), b[n].key, [b[n]]);
      assert (a + b)[..|a + b| - 1] == a + b[..n] && (a + b)[|a + b| - 1] == b[n];
    }
  }

  /** The fields that were met, grouped behind the ones before. */
  function Regrouped(before: seq<Field>, met: Result<Met, string>): Result<Grouped, string> {
    if met.Err? then Err(met.error) else Ok(Grouped(met.value.visited, GroupBy(before + met.value.fields)))
  }

  lemma RegroupedPrepend(before: seq<Field>, own: seq<Field>, met: Result<Met, string>)
    ensures Regrouped(before, Prepend(own, met)) == Regrouped(before + own, met)
  {
    if met.Ok? { assert before + own + met.value.fields == before + (own + met.value.fields); }
  }

  /** The grouping of the specification is the grouping of the fields in the order in which they are met. */
  lemma {:induction false} SpecGroupsFields(ctx: Context, t: TypeId, selections: seq<Selection>, visited: set<Name>,
                                            before: seq<Field>)
    ensures SpecCollect(ctx, t, selections, Grouped(visited, GroupBy(before)))
         == Regrouped(before, Fields(ctx, t, selections, visited))
    decreases |Unvisited(ctx, visited)|, Size(selections)
  {
    if selections == [] {
      assert before + [] == before;
    } else {
      var s, rest := selections[0], selections[1..];
      var included := ShouldInclude(DirectivesOf(s));
      if included == Ok(false) {
        SpecGroupsFields(ctx, t, rest, visited, before);
      } else if included == Ok(true) {
        if s.FieldSelection? {
          SpecGroupsOne(ctx, t, selections, visited, before);
        } else {
          SpecGroupsInner(ctx, t, selections, visited, before);
        }
      }
    }
  }

  lemma {:induction false} SpecGroupsOne(ctx: Context, t: TypeId, selections: seq<Selection>, visited: set<Name>, before: seq<Field>)
    requires selections != [] && selections[0].FieldSelection? && ShouldInclude(DirectivesOf(selections[0])) == Ok(true)
    ensures SpecCollect(ctx, t, selections, Grouped(visited, GroupBy(before)))
         == Regrouped(before, Fields(ctx, t, selections, visited))
    decreases |Unvisited(ctx, visited)|, Size(selections), 0
  {
    var f, rest := selections[0].field, selections[1..];
    assert (before + [f])[..|before|] == before && (before + [f])[|before|] == f;
    SpecGroupsFields(ctx, t, rest, visited, before + [f]);
    RegroupedPrepend(before, [f], Fields(ctx, t, rest, visited));
  }

  lemma {:induction false} SpecGroupsInner(ctx: Context, t: TypeId, selections: seq<Selection>, visited: set<Name>, before: seq<Field>)
    requires selections != [] && !selections[0].FieldSelection? && ShouldInclude(DirectivesOf(selections[0])) == Ok(true)
    ensures SpecCollect(ctx, t, selections, Grouped(visited, GroupBy(before)))
         == Regrouped(before, Fields(ctx, t, selections, visited))
    decreases |Unvisited(ctx, visited)|, Size(selections), 0
  {
    var s, rest := selections[0], selections[1..];
    var (inner, visited') := Enter(ctx, t, s, visited);
    UnvisitedShrinks(ctx, visited, visited');
    if inner == None {
      SpecGroupsFields(ctx, t, rest, visited', before);
    } else {
      assert s.FragmentSpread? ==> s.name in Unvisited(ctx, visited) && s.name !in Unvisited(ctx, visited');
      SpecGroupsFields(ctx, t, inner.value, visited', []);
      var own := Fields(ctx, t, inner.value, visited');
      if own.Ok? {
        UnvisitedShrinks(ctx, visited', own.value.visited);
        assert [] + own.value.fields == own.value.fields;
        MergeIsConcat(before, own.value.fields);
        SpecGroupsFields(ctx, t, rest, own.value.visited, before + own.value.fields);
        RegroupedPrepend(before, own.value.fields, Fields(ctx, t, rest, own.value.visited));
      }
    }
  }
}
