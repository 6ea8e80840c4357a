/**
 Field collection (graphql/executor/execute.go): what the resumable loop over an explicit stack has to
 compute, stated as a recursion over the selections, and how that relates to CollectFields of section
 6.3.2 of the GraphQL specification (June 2018).
 */
module FieldCollection {
  import opened Wrappers

  type Name = string

  /** The values of @skip(if:) and @include(if:) on a selection, variables substituted; reading either
      may fail. */
  datatype Directives = Directives(skip: Result<Option<bool>, string>, include_: Result<Option<bool>, string>)

  datatype Field = Field(key: Name, name: Name, directives: Directives, selections: seq<Selection>)

  datatype Selection =
    | FieldSelection(field: Field)
    | InlineFragment(condition: Option<Name>, directives: Directives, selections: seq<Selection>)
    | FragmentSpread(name: Name, directives: Directives)

  datatype Fragment = Fragment(condition: Name, selections: seq<Selection>)

  type TypeId = nat

  datatype FieldDef = SchemaMeta | TypeMeta | TypenameMeta | Own(id: nat)

  /** What collection looks up: the operation and its fragments, the schema, and the argument coercion. */
  datatype Context = Context(
    operation: seq<Selection>,
    fragments: map<Name, Fragment>,
    query: TypeId,
    types: map<Name, TypeId>,
    possible: map<TypeId, set<TypeId>>, // of the abstract types
    fields: map<TypeId, map<Name, FieldDef>>,
    arguments: (FieldDef, Field) -> Result<nat, string>)

  const SCHEMA_NAME := "__schema"
  const TYPE_NAME := "__type"
  const TYPENAME_NAME := "__typename"

  // ---------------------------------------------------------------------------------------------
  // Lookups
  // ---------------------------------------------------------------------------------------------

  /** @skip is read first: when it says skip, @include is not looked at. */
  function ShouldInclude(d: Directives): Result<bool, string> {
    match d.skip
    case Err(e) => Err(e)
    case Ok(skip) =>
      if skip == Some(true) then Ok(false)
      else match d.include_
           case Err(e) => Err(e)
           case Ok(inclusion) => Ok(inclusion != Some(false))
  }

  function FindFieldDef(ctx: Context, parent: TypeId, name: Name): Option<FieldDef> {
    if ctx.query == parent && name == SCHEMA_NAME then Some(SchemaMeta)
    else if ctx.query == parent && name == TYPE_NAME then Some(TypeMeta)
    else if name == TYPENAME_NAME then Some(TypenameMeta)
    else if parent in ctx.fields && name in ctx.fields[parent] then Some(ctx.fields[parent][name])
    else None
  }

  predicate TypeConditionHolds(ctx: Context, condition: Name, t: TypeId) {
    && condition in ctx.types
    && (ctx.types[condition] == t
        || (ctx.types[condition] in ctx.possible && t in ctx.possible[ctx.types[condition]]))
  }

  // ---------------------------------------------------------------------------------------------
  // Collecting by recursion
  // ---------------------------------------------------------------------------------------------

  /** The fields that go into one entry of the response. */
  datatype Group = Group(key: Name, def: FieldDef, arguments: nat, fields: seq<Field>)

  datatype Collected = Collected(visited: set<Name>, groups: seq<Group>)

  predicate HasKey(groups: seq<Group>, key: Name) {
    exists i | 0 <= i < |groups| :: groups[i].key == key
  }

  /** Appends a field to the group of its response key. */
  function Append(groups: seq<Group>, f: Field): seq<Group> {
    if groups == [] then []
    else if groups[0].key == f.key then [groups[0].(fields := groups[0].fields + [f])] + groups[1..]
    else [groups[0]] + Append(groups[1..], f)
  }

  /** A field joins its group; the first one with its key makes the group, if the type has the field. */
  function AddField(ctx: Context, t: TypeId, groups: seq<Group>, f: Field): Result<seq<Group>, string> {
    if HasKey(groups, f.key) then Ok(Append(groups, f))
    else match FindFieldDef(ctx, t, f.name)
         case None => Ok(groups)
         case Some(def) =>
           match ctx.arguments(def, f)
           case Err(e) => Err(e)
           case Ok(args) => Ok(groups + [Group(f.key, def, args, [f])])
  }

  function DirectivesOf(s: Selection): Directives {
    match s
    case FieldSelection(f) => f.directives
    case InlineFragment(_, d, _) => d
    case FragmentSpread(_, d) => d
  }

  /** The selection set to go into, and the fragments visited. */
  function Enter(ctx: Context, t: TypeId, s: Selection, visited: set<Name>): (Option<seq<Selection>>, set<Name>)
    requires !s.FieldSelection?
  {
    match s
    case InlineFragment(condition, _, selections) =>
      (if condition == None || TypeConditionHolds(ctx, condition.value, t) then Some(selections) else None, visited)
    case FragmentSpread(name, _) =>
      if name in visited then (None, visited)
      else if name !in ctx.fragments || !TypeConditionHolds(ctx, ctx.fragments[name].condition, t)
      then (None, visited + {name})
      else (Some(ctx.fragments[name].selections), visited + {name})
  }

  function Unvisited(ctx: Context, visited: set<Name>): set<Name> {
    ctx.fragments.Keys - visited
  }

  /** All selections below `selections`, without following the spreads. */
  function Size(selections: seq<Selection>): nat {
    if selections == [] then 0
    else 1 + (if selections[0].InlineFragment? then Size(selections[0].selections) else 0) + Size(selections[1..])
  }

  /** Collects `selections` for objects of type `t`: the recursive CollectFields over a shared result. */
  function Collect(ctx: Context, t: TypeId, selections: seq<Selection>, acc: Collected): (r: Result<Collected, string>)
    ensures r.Ok? ==> acc.visited <= r.value.visited
    decreases |Unvisited(ctx, acc.visited)|, Size(selections)
  {
    if selections == [] then Ok(acc)
    else
      var s, rest := selections[0], selections[1..];
      match ShouldInclude(DirectivesOf(s))
      case Err(e) => Err(e)
      case Ok(false) => Collect(ctx, t, rest, acc)
      case Ok(true) =>
        if s.FieldSelection? then
          match AddField(ctx, t, acc.groups, s.field)
          case Err(e) => Err(e)
          case Ok(groups) => Collect(ctx, t, rest, Collected(acc.visited, groups))
        else
          var (inner, visited) := Enter(ctx, t, s, acc.visited);
          UnvisitedShrinks(ctx, acc.visited, visited);
          if inner == None then Collect(ctx, t, rest, Collected(visited, acc.groups))
          else
            assert s.FragmentSpread? ==> s.name in Unvisited(ctx, acc.visited) && s.name !in Unvisited(ctx, visited);
            UnvisitedShrinks(ctx, acc.visited, visited);
            match Collect(ctx, t, inner.value, Collected(visited, acc.groups))
            case Err(e) => Err(e)
            case Ok(acc') =>
              UnvisitedShrinks(ctx, visited, acc'.visited);
              Collect(ctx, t, rest, acc')
  }

  lemma UnvisitedShrinks(ctx: Context, visited: set<Name>, visited': set<Name>)
    requires visited <= visited'
    ensures |Unvisited(ctx, visited')| <= |Unvisited(ctx, visited)|
    ensures (exists name :: name in Unvisited(ctx, visited) && name in visited') ==>
              |Unvisited(ctx, visited')| < |Unvisited(ctx, visited)|
  {
    var u, u' := Unvisited(ctx, visited), Unvisited(ctx, visited');
    assert u == u' + (u - u');
    if name :| name in u && name in visited' {
      assert name in u - u';
    }
  }

  /** Several selection sets, one after the other. */
  function CollectAll(ctx: Context, t: TypeId, sets: seq<seq<Selection>>, acc: Collected): Result<Collected, string> {
    if sets == [] then Ok(acc)
    else match Collect(ctx, t, sets[0], acc)
         case Err(e) => Err(e)
         case Ok(acc') => CollectAll(ctx, t, sets[1..], acc')
  }
}
