/** When collecting fields fails because of an argument (graphql/executor/execute.go). */
module FieldCollectionErrors {
  import opened Wrappers
  import opened FieldCollection
  import opened FieldCollectionSpec
  import opened FieldCollectionExact

  /** The field that makes the node of its response key. */
  function FirstDefined(ctx: Context, t: TypeId, fields: seq<Field>): (r: Option<Field>)
    ensures r.Some? ==> Defined(ctx, t, r.value)
  {
    if fields == [] then None
    else if Defined(ctx, t, fields[0]) then Some(fields[0])
    else FirstDefined(ctx, t, fields[1..])
  }

  /** Its arguments have values of their types. */
  predicate Coerces(ctx: Context, t: TypeId, fields: seq<Field>) {
    var f := FirstDefined(ctx, t, fields);
    f.Some? ==> ctx.arguments(FindFieldDef(ctx, t, f.value.name).value, f.value).Ok?
  }

  predicate AllCoerce(ctx: Context, t: TypeId, groups: seq<FieldGroup>) {
    forall i | 0 <= i < |groups| :: Coerces(ctx, t, groups[i].fields)
  }

  lemma {:induction false} FirstDefinedSnoc(ctx: Context, t: TypeId, fields: seq<Field>, f: Field)
    ensures FirstDefined(ctx, t, fields + [f])
         == if FirstDefined(ctx, t, fields).Some? then FirstDefined(ctx, t, fields)
            else if Defined(ctx, t, f) then Some(f) else None
  {
    if fields == [] {
      assert fields + [f] == [f] && [f][1..] == [];
    } else {
      assert (fields + [f])[1..] == fields[1..] + [f];
      FirstDefinedSnoc(ctx, t, fields[1..], f);
    }
  }

  // ---------------------------------------------------------------------------------------------
  // Nodes and groups, field by field
  // ---------------------------------------------------------------------------------------------

  /** There is a node for a response key if its group has a defined field. */
  ghost predicate NodesMatch(ctx: Context, t: TypeId, nodes: seq<Group>, groups: seq<FieldGroup>) {
    && (forall i | 0 <= i < |groups| :: HasKey(nodes, groups[i].key) <==> FirstDefined(ctx, t, groups[i].fields).Some?)
    && (forall n | 0 <= n < |nodes| :: Has(groups, nodes[n].key))
  }

  /** Adding the fields came out as the groups say. */
  ghost predicate Tracks(ctx: Context, t: TypeId, r: Result<seq<Group>, string>, groups: seq<FieldGroup>) {
    (r.Ok? <==> AllCoerce(ctx, t, groups)) && (r.Ok? ==> NodesMatch(ctx, t, r.value, groups))
  }

  lemma AppendKeys(nodes: seq<Group>, f: Field, k: Name)
    ensures HasKey(Append(nodes, f), k) <==> HasKey(nodes, k)
  {
    AppendLength(nodes, f);
    forall i | 0 <= i < |nodes| ensures Append(nodes, f)[i].key == nodes[i].key { AppendKeeps(nodes, f, i); }
    if HasKey(nodes, k) {
      var i :| 0 <= i < |nodes| && nodes[i].key == k;
      assert Append(nodes, f)[i].key == k;
    }
  }

  lemma {:induction false} AppendLength(nodes: seq<Group>, f: Field)
    ensures |Append(nodes, f)| == |nodes|
  {
    if nodes != [] && nodes[0].key != f.key { AppendLength(nodes[1..], f); }
  }

  lemma AddFieldKeys(ctx: Context, t: TypeId, nodes: seq<Group>, f: Field, k: Name)
    requires AddField(ctx, t, nodes, f).Ok?
    ensures HasKey(AddField(ctx, t, nodes, f).value, k) <==> HasKey(nodes, k) || (k == f.key && Defined(ctx, t, f))
  {
    var r := AddField(ctx, t, nodes, f).value;
    if HasKey(nodes, f.key) {
      AppendKeys(nodes, f, k);
    } else if Defined(ctx, t, f) {
      assert r[..|nodes|] == nodes && r[|nodes|].key == f.key;
      if HasKey(nodes, k) {
        var i :| 0 <= i < |nodes| && nodes[i].key == k;
        assert r[i].key == k;
      }
    }
  }

  /** The field joins a group that is there. */
  lemma JoinsOld(ctx: Context, t: TypeId, groups: seq<FieldGroup>, f: Field) returns (i: nat)
    requires UniqueKeys(groups) && Has(groups, f.key)
    ensures i < |groups| && groups[i].key == f.key
    ensures Join(groups, f.key, [f]) == groups[i := FieldGroup(f.key, groups[i].fields + [f])]
    ensures FirstDefined(ctx, t, groups[i].fields).Some? ==>
              FirstDefined(ctx, t, groups[i].fields + [f]) == FirstDefined(ctx, t, groups[i].fields)
    ensures FirstDefined(ctx, t, groups[i].fields) == None ==>
              FirstDefined(ctx, t, groups[i].fields + [f]) == if Defined(ctx, t, f) then Some(f) else None
  {
    i :| 0 <= i < |groups| && groups[i].key == f.key;
    JoinAt(groups, f.key, [f], i);
    FirstDefinedSnoc(ctx, t, groups[i].fields, f);
  }

  /** A failure stays one. */
  lemma FailureStays(ctx: Context, t: TypeId, groups: seq<FieldGroup>, f: Field)
    requires UniqueKeys(groups) && !AllCoerce(ctx, t, groups)
    ensures !AllCoerce(ctx, t, Join(groups, f.key, [f]))
  {
    var j :| 0 <= j < |groups| && !Coerces(ctx, t, groups[j].fields);
    var joined := Join(groups, f.key, [f]);
    if Has(groups, f.key) {
      var i := JoinsOld(ctx, t, groups, f);
      assert !Coerces(ctx, t, joined[j].fields);
    } else {
      JoinNew(groups, f);
      assert joined[j] == groups[j];
    }
  }

  lemma OldGroupCoerces(ctx: Context, t: TypeId, nodes: seq<Group>, groups: seq<FieldGroup>, f: Field)
    requires UniqueKeys(groups) && Has(groups, f.key) && AllCoerce(ctx, t, groups) && NodesMatch(ctx, t, nodes, groups)
    ensures AddField(ctx, t, nodes, f).Ok? <==> AllCoerce(ctx, t, Join(groups, f.key, [f]))
  {
    var i := JoinsOld(ctx, t, groups, f);
    var joined := Join(groups, f.key, [f]);
    assert forall j | 0 <= j < |groups| && j != i :: joined[j] == groups[j];
    assert Coerces(ctx, t, groups[i].fields) && joined[i].fields == groups[i].fields + [f];
    assert AddField(ctx, t, nodes, f).Ok? <==> Coerces(ctx, t, joined[i].fields);
  }

  lemma NewGroupCoerces(ctx: Context, t: TypeId, nodes: seq<Group>, groups: seq<FieldGroup>, f: Field)
    requires !Has(groups, f.key) && AllCoerce(ctx, t, groups) && NodesMatch(ctx, t, nodes, groups)
    ensures AddField(ctx, t, nodes, f).Ok? <==> AllCoerce(ctx, t, Join(groups, f.key, [f]))
  {
    JoinNew(groups, f);
    var joined := Join(groups, f.key, [f]);
    assert forall j | 0 <= j < |groups| :: joined[j] == groups[j];
    assert !HasKey(nodes, f.key);
    FirstDefinedSnoc(ctx, t, [], f);
    assert [] + [f] == [f] && joined[|groups|].fields == [f];
    assert AddField(ctx, t, nodes, f).Ok? <==> Coerces(ctx, t, joined[|groups|].fields);
  }

  lemma NodesMatchJoined(ctx: Context, t: TypeId, nodes: seq<Group>, groups: seq<FieldGroup>, f: Field)
    requires UniqueKeys(groups) && NodesMatch(ctx, t, nodes, groups) && AddField(ctx, t, nodes, f).Ok?
    ensures NodesMatch(ctx, t, AddField(ctx, t, nodes, f).value, Join(groups, f.key, [f]))
  {
    var r, joined := AddField(ctx, t, nodes, f).value, Join(groups, f.key, [f]);
    JoinKeys(groups, f.key, [f]);
    forall n | 0 <= n < |r| ensures Has(joined, r[n].key) {
      AddFieldKeys(ctx, t, nodes, f, r[n].key);
      assert HasKey(r, r[n].key);
      if HasKey(nodes, r[n].key) {
        var m :| 0 <= m < |nodes| && nodes[m].key == r[n].key;
        assert Has(groups, nodes[m].key);
      }
    }
    forall j | 0 <= j < |joined| ensures HasKey(r, joined[j].key) <==> FirstDefined(ctx, t, joined[j].fields).Some? {
      AddFieldKeys(ctx, t, nodes, f, joined[j].key);
      if Has(groups, f.key) {
        var i := JoinsOld(ctx, t, groups, f);
        if j != i { assert joined[j] == groups[j]; }
      } else {
        NewGroupMatches(ctx, t, nodes, groups, f, j);
      }
    }
  }

  lemma NewGroupMatches(ctx: Context, t: TypeId, nodes: seq<Group>, groups: seq<FieldGroup>, f: Field, j: nat)
    requires !Has(groups, f.key) && NodesMatch(ctx, t, nodes, groups) && j < |Join(groups, f.key, [f])|
    ensures var g := Join(groups, f.key, [f])[j];
            FirstDefined(ctx, t, g.fields).Some? <==> HasKey(nodes, g.key) || (g.key == f.key && Defined(ctx, t, f))
  {
    JoinNew(groups, f);
    if j < |groups| {
      assert Join(groups, f.key, [f])[j] == groups[j];
    } else {
      FirstDefinedSnoc(ctx, t, [], f);
      assert [] + [f] == [f];
      assert !HasKey(nodes, f.key);
    }
  }

  lemma TracksOne(ctx: Context, t: TypeId, r: Result<seq<Group>, string>, groups: seq<FieldGroup>, f: Field)
    requires UniqueKeys(groups) && Tracks(ctx, t, r, groups)
    ensures Tracks(ctx, t, if r.Err? then r else AddField(ctx, t, r.value, f), Join(groups, f.key, [f]))
  {
    if r.Err? {
      FailureStays(ctx, t, groups, f);
    } else {
      if Has(groups, f.key) {
        OldGroupCoerces(ctx, t, r.value, groups, f);
      } else {
        NewGroupCoerces(ctx, t, r.value, groups, f);
      }
      if AddField(ctx, t, r.value, f).Ok? { NodesMatchJoined(ctx, t, r.value, groups, f); }
    }
  }

  lemma AddOne(ctx: Context, t: TypeId, nodes: seq<Group>, f: Field)
    ensures AddAll(ctx, t, nodes, [f]) == AddField(ctx, t, nodes, f)
  {
    assert [f][1..] == [];
  }

  lemma {:induction false} AddAllTracks(ctx: Context, t: TypeId, fields: seq<Field>)
    ensures Tracks(ctx, t, AddAll(ctx, t, [], fields), GroupBy(fields))
    decreases |fields|
  {
    if fields != [] {
      var before, f := fields[..|fields| - 1], fields[|fields| - 1];
      assert fields == before + [f];
      var r := AddAll(ctx, t, [], before);
      AddAllTracks(ctx, t, before);
      AddAllConcat(ctx, t, [], before, [f]);
      if r.Ok? { AddOne(ctx, t, r.value, f); }
      GroupByUnique(before);
      TracksOne(ctx, t, r, GroupBy(before), f);
    }
  }

  /** The executor gives up a selection set exactly if a directive fails or, for some response key, the
      arguments of the first field that the type has do; the specification gives up only the field then. */
  lemma CollectionSucceedsExactly(ctx: Context, t: TypeId, sets: seq<seq<Selection>>)
    ensures var spec := SpecCollect(ctx, t, Merged(sets), Grouped({}, []));
            CollectAll(ctx, t, sets, Collected({}, [])).Ok? <==> spec.Ok? && AllCoerce(ctx, t, spec.value.groups)
  {
    CollectAllIsMerged(ctx, t, sets, Collected({}, []));
    CollectAddsFields(ctx, t, Merged(sets), Collected({}, []));
    SpecGroupsFields(ctx, t, Merged(sets), {}, []);
    var met := Fields(ctx, t, Merged(sets), {});
    if met.Ok? {
      assert [] + met.value.fields == met.value.fields;
      AddAllTracks(ctx, t, met.value.fields);
    }
  }
}
