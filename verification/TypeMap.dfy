/** The named types of a schema (graphql/schema.go): the map that is filled from the root types. */
module TypeMap {
  import opened Wrappers
  import opened Graphs

  type Id = nat // the identity of a named type

  /** A reference to a type as it stands in a definition; an alias stands for the scalar behind it. */
  datatype TypeRef = Nil | Named(id: Id) | ScalarAlias(aliasFor: Id) | ListOf(element: TypeRef) | NonNullOf(inner: TypeRef)

  datatype FieldDef = FieldDef(fieldType: TypeRef, args: seq<TypeRef>)

  datatype Def =
    | Scalar
    | Enum
    | Object(interfaces: seq<TypeRef>, fields: seq<FieldDef>)
    | Interface(fields: seq<FieldDef>)
    | Union(possibleTypes: seq<TypeRef>)
    | InputObject(inputs: seq<TypeRef>)

  function FieldTypes(fields: seq<FieldDef>): seq<TypeRef> {
    if fields == [] then [] else [fields[0].fieldType] + fields[0].args + FieldTypes(fields[1..])
  }

  /** The types that a definition refers to. */
  function Refers(def: Def): seq<TypeRef> {
    match def
    case Scalar => []
    case Enum => []
    case Object(interfaces, fields) => interfaces + FieldTypes(fields)
    case Interface(fields) => FieldTypes(fields)
    case Union(possibleTypes) => possibleTypes
    case InputObject(inputs) => inputs
  }

  /** The named type inside lists and non-nulls, if any. */
  function Target(t: TypeRef): set<Id> {
    match t
    case Nil => {}
    case Named(id) => {id}
    case ScalarAlias(id) => {id}
    case ListOf(element) => Target(element)
    case NonNullOf(inner) => Target(inner)
  }

  function Targets(ts: seq<TypeRef>): set<Id> {
    if ts == [] then {} else Targets(ts[..|ts| - 1]) + Target(ts[|ts| - 1])
  }

  function Depth(t: TypeRef): nat {
    match t
    case ListOf(element) => 1 + Depth(element)
    case NonNullOf(inner) => 1 + Depth(inner)
    case _ => 1
  }

  function Depths(ts: seq<TypeRef>): nat {
    if ts == [] then 0 else Depths(ts[..|ts| - 1]) + Depth(ts[|ts| - 1])
  }

  lemma PushOne(ts: seq<TypeRef>, t: TypeRef)
    ensures Targets(ts + [t]) == Targets(ts) + Target(t) && Depths(ts + [t]) == Depths(ts) + Depth(t)
  {
    assert (ts + [t])[..|ts|] == ts;
  }

  lemma {:induction false} PushAll(ts: seq<TypeRef>, more: seq<TypeRef>)
    ensures Targets(ts + more) == Targets(ts) + Targets(more)
    decreases |more|
  {
    if more == [] {
      assert ts + more == ts;
    } else {
      var n := |more| - 1;
      PushAll(ts, more[..n]);
      PushOne(ts + more[..n], more[n]);
      assert ts + more == ts + more[..n] + [more[n]];
    }
  }

  /** All types there are, with their names. */
  datatype Universe = Universe(defs: map<Id, Def>, names: map<Id, string>) {
    ghost predicate Valid() {
      defs.Keys == names.Keys && forall id | id in defs :: Targets(Refers(defs[id])) <= defs.Keys
    }

    function Graph(): (r: Graph<Id>)
      ensures r.Keys == defs.Keys && forall id | id in r :: r[id] == Targets(Refers(defs[id]))
    {
      map id | id in defs :: Targets(Refers(defs[id]))
    }
  }

  /** Two types that the roots reach have one name. */
  ghost predicate Clash(u: Universe, roots: set<Id>, x: Id, y: Id)
    requires u.Valid()
  {
    && x in u.defs && y in u.defs && x != y && u.names[x] == u.names[y]
    && ReachedFrom(u.Graph(), roots, x) && ReachedFrom(u.Graph(), roots, y)
  }

  class TypeMap {
    const u: Universe
    var types: map<string, Id>
    ghost var roots: set<Id> // the named types that were added

    /** Every entry is a type under its own name, and the types are exactly those that the roots reach. */
    ghost predicate Valid()
      reads this
    {
      && u.Valid() && roots <= u.defs.Keys && Named()
      && Closed(u.Graph(), types.Values) && forall id :: id in types.Values <==> ReachedFrom(u.Graph(), roots, id)
    }

    ghost predicate Named()
      reads this
    {
      u.Valid() && forall name | name in types :: types[name] in u.defs && u.names[types[name]] == name
    }

    constructor (u: Universe)
      requires u.Valid()
      ensures Valid() && this.u == u && types == map[] && roots == {}
    {
      this.u, types, roots := u, map[], {};
    }

    /** Puts a type into the map, unless it is there or another type has its name. */
    method Enter(id: Id) returns (entered: bool, ok: bool)
      requires Named() && id in u.defs
      modifies this`types
      ensures Named()
      ensures ok ==> types.Values == old(types.Values) + {id} && (entered <==> id !in old(types.Values))
      ensures !ok ==> types == old(types) && u.names[id] in types && types[u.names[id]] != id
    {
      var name := u.names[id];
      if name !in types {
        forall n | n in types ensures types[n] != id { assert u.names[types[n]] == n; }
        types := types[name := id];
        assert types.Values == old(types.Values) + {id} by {
          assert types[name] == id;
          forall x | x in old(types.Values) ensures x in types.Values {
            var n :| n in old(types) && old(types)[n] == x;
            assert types[n] == x;
          }
        }
        return true, true;
      }
      if types[name] != id { return false, false; }
      assert id in types.Values;
      return false, true;
    }

    /** Another type has the name of `id`. */
    ghost predicate Taken(id: Id)
      reads this
    {
      Named() && id in u.defs && u.names[id] in types && types[u.names[id]] != id
    }

    /** Handles a named type that was popped from the stack. */
    method AddNamed(id: Id, rest: seq<TypeRef>, ghost from: set<Id>, ghost before: set<Id>)
      returns (ok: bool, stack: seq<TypeRef>)
      requires Named() && id in u.defs && Marking(u.Graph(), from, before, types.Values, Targets(rest) + {id})
      modifies this`types
      ensures Named() && old(types.Values) <= types.Values
      ensures ok ==> Marking(u.Graph(), from, before, types.Values, Targets(stack)) && Targets(rest) <= Targets(stack)
                     && id in types.Values && Targets(stack) <= Targets(rest) + u.defs.Keys
      ensures ok && types.Values == old(types.Values) ==> stack == rest
      ensures !ok ==> types == old(types) && Taken(id)
    {
      ghost var done := types.Values;
      MarkMore(u.Graph(), from, before, done, Targets(rest) + {id}, id);
      var entered;
      entered, ok := Enter(id);
      stack := rest;
      if !ok { return; }
      if entered {
        stack := rest + Refers(u.defs[id]);
        PushAll(rest, Refers(u.defs[id]));
        assert Targets(rest) + {id} + u.Graph()[id] == Targets(stack) + {id};
        Scanned(u.Graph(), from, before, types.Values, Targets(stack), id);
      } else {
        assert done + {id} == done;
        Scanned(u.Graph(), from, before, types.Values, Targets(stack), id);
      }
    }

    /** What holds while the stack is worked off. */
    ghost predicate Draining(from: set<Id>, before: set<Id>, stack: seq<TypeRef>)
      reads this
    {
      && Named() && Marking(u.Graph(), from, before, types.Values, Targets(stack))
      && Targets(stack) <= u.defs.Keys && from <= types.Values + Targets(stack)
    }

    /** A wrapper is replaced by what it wraps, and nil is dropped. */
    lemma Unwrapped(from: set<Id>, before: set<Id>, stack: seq<TypeRef>, stack': seq<TypeRef>)
      requires Draining(from, before, stack) && Targets(stack') == Targets(stack)
      ensures Draining(from, before, stack')
    {
    }

    /** Pops one type. */
    method Pop(stack: seq<TypeRef>, ghost from: set<Id>, ghost before: set<Id>) returns (ok: bool, stack': seq<TypeRef>, ghost clash: Id)
      requires Draining(from, before, stack) && |stack| > 0
      modifies this`types
      ensures old(types.Values) <= types.Values && (ok ==> Draining(from, before, stack'))
      ensures ok && types.Values == old(types.Values) ==> Depths(stack') < Depths(stack)
      ensures !ok ==> types == old(types) && Taken(clash) && clash in Targets(stack)
    {
      var top, rest := stack[|stack| - 1], stack[..|stack| - 1];
      ok, stack', clash := true, rest, 0;
      if top.Nil? {
        Unwrapped(from, before, stack, rest);
      } else if top.ListOf? || top.NonNullOf? {
        var inner := if top.ListOf? then top.element else top.inner;
        PushOne(rest, inner);
        stack' := rest + [inner];
        Unwrapped(from, before, stack, stack');
      } else {
        var id := if top.ScalarAlias? then top.aliasFor else top.id;
        assert Targets(stack) == Targets(rest) + {id};
        ok, stack' := AddNamed(id, rest, from, before);
        clash := id;
      }
    }

    /** Works the stack off; `clash` is the type that could not be entered. */
    method Drain(t: TypeRef, ghost from: set<Id>, ghost before: set<Id>) returns (ok: bool, ghost clash: Id)
      requires Named() && from == Target(t) <= u.defs.Keys && Marking(u.Graph(), from, before, types.Values, from)
      modifies this`types
      ensures Named() && before <= types.Values
      ensures ok ==> Marking(u.Graph(), from, before, types.Values, {}) && from <= types.Values
      ensures !ok ==> Taken(clash) && exists pending ::
                        clash in pending && Marking(u.Graph(), from, before, types.Values, pending)
    {
      var stack := [t];
      PushOne([], t);
      assert [] + [t] == [t];
      clash := 0;
      while |stack| > 0
        invariant Draining(from, before, stack)
        decreases |u.defs.Keys - types.Values|, Depths(stack)
      {
        ghost var done := types.Values;
        ok, stack, clash := Pop(stack, from, before);
        if !ok { return; }
        Fewer(u.defs.Keys, done, types.Values);
      }
      ok := true;
    }

    /** Adds a root: either the map then holds exactly what all the roots reach, or two types that they
        reach have one name. */
    method Add(t: TypeRef) returns (ok: bool)
      requires Valid() && Target(t) <= u.defs.Keys
      modifies this
      ensures roots == old(roots) + Target(t)
      ensures ok ==> Valid() && forall x, y :: !Clash(u, roots, x, y)
      ensures !ok ==> exists x, y :: Clash(u, roots, x, y)
    {
      ghost var from, before := Target(t), types.Values;
      StartMarking(u.Graph(), from, before);
      ghost var clash;
      ok, clash := Drain(t, from, before);
      roots := roots + from;
      if ok {
        Finished(u.Graph(), from, before, types.Values);
        Complete(u, old(roots), from, before, types);
      } else {
        ghost var pending :| clash in pending && Marking(u.Graph(), from, before, types.Values, pending);
        ClashFound(u, old(roots), from, before, types, pending, clash);
      }
    }
  }

  /** The map holds what the old roots and the new ones reach, so no two of those types have one name. */
  lemma Complete(u: Universe, roots: set<Id>, from: set<Id>, before: set<Id>, types: map<string, Id>)
    requires u.Valid() && forall x :: x in before <==> ReachedFrom(u.Graph(), roots, x)
    requires forall x :: x in types.Values <==> x in before || ReachedFrom(u.Graph(), from, x)
    requires forall name | name in types :: types[name] in u.defs && u.names[types[name]] == name
    ensures forall x :: x in types.Values <==> ReachedFrom(u.Graph(), roots + from, x)
    ensures forall x, y :: !Clash(u, roots + from, x, y)
  {
    var graph := u.Graph();
    forall x ensures ReachedFrom(graph, roots + from, x) <==> ReachedFrom(graph, roots, x) || ReachedFrom(graph, from, x) {
      if ReachedFrom(graph, roots, x) {
        var f :| f in roots && Reaches(graph, f, x);
        assert f in roots + from;
      }
      if ReachedFrom(graph, from, x) {
        var f :| f in from && Reaches(graph, f, x);
        assert f in roots + from;
      }
      if ReachedFrom(graph, roots + from, x) {
        var f :| f in roots + from && Reaches(graph, f, x);
        assert f in roots || f in from;
      }
    }
    forall x, y ensures !Clash(u, roots + from, x, y) {
      if x in types.Values && y in types.Values {
        var n :| n in types && types[n] == x;
        var m :| m in types && types[m] == y;
      }
    }
  }

  lemma StartMarking(graph: Graph<Id>, from: set<Id>, before: set<Id>)
    requires Closed(graph, before) && from <= graph.Keys
    ensures Marking(graph, from, before, before, from)
  {
    forall g | g in from ensures ReachedFrom(graph, from, g) { ReachesItself(graph, g); }
  }

  lemma ClashFound(u: Universe, roots: set<Id>, from: set<Id>, before: set<Id>, types: map<string, Id>, pending: set<Id>, id: Id)
    requires u.Valid() && Marking(u.Graph(), from, before, types.Values, pending) && id in pending && id in u.defs
    requires forall x | x in before :: ReachedFrom(u.Graph(), roots, x)
    requires forall name | name in types :: types[name] in u.defs && u.names[types[name]] == name
    requires u.names[id] in types && types[u.names[id]] != id
    ensures Clash(u, roots + from, id, types[u.names[id]])
  {
    var y := types[u.names[id]];
    assert y in types.Values;
    var f :| f in from && Reaches(u.Graph(), f, id);
    assert f in roots + from;
    if y in before {
      var g :| g in roots && Reaches(u.Graph(), g, y);
      assert g in roots + from;
    } else {
      assert ReachedFrom(u.Graph(), from, y);
      var g :| g in from && Reaches(u.Graph(), g, y);
      assert g in roots + from;
    }
  }
}
