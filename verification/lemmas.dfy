/** Properties of the generator over all schemas and all collaborators. */
module GeneratorLemmas {
  import opened Wrappers
  import opened Objects
  import opened MongooseSchema
  import opened Descriptors
  import opened JsonSchemaGenerator

  /** The names of the paths that pass the `properties` filter: not in an
      embedded group, included, and not private. */
  ghost function EmittedNames(c: Collaborators, ps: Object<SchemaPath>): set<string>
  {
    set i | 0 <= i < |ps| && Emitted(c, ps[i].0, ps[i].1) :: ps[i].0
  }

  lemma EmittedNamesUncons(c: Collaborators, ps: Object<SchemaPath>)
    requires |ps| > 0
    ensures EmittedNames(c, ps)
         == (if Emitted(c, ps[0].0, ps[0].1) then {ps[0].0} else {}) + EmittedNames(c, ps[1..])
  {
    var head := if Emitted(c, ps[0].0, ps[0].1) then {ps[0].0} else {};
    forall x | x in EmittedNames(c, ps)
      ensures x in head + EmittedNames(c, ps[1..])
    {
      var i :| 0 <= i < |ps| && Emitted(c, ps[i].0, ps[i].1) && ps[i].0 == x;
      if i > 0 {
        assert ps[1..][i - 1] == ps[i];
      }
    }
    forall x | x in EmittedNames(c, ps[1..])
      ensures x in EmittedNames(c, ps)
    {
      var i :| 0 <= i < |ps[1..]| && Emitted(c, ps[1..][i].0, ps[1..][i].1) && ps[1..][i].0 == x;
      assert ps[i + 1] == ps[1..][i];
    }
  }

  lemma EmittedNamesAreKeys(c: Collaborators, ps: Object<SchemaPath>)
    ensures EmittedNames(c, ps) <= KeySet(ps)
  {
    forall x | x in EmittedNames(c, ps)
      ensures x in KeySet(ps)
    {
      KeySetMembership(ps, x);
    }
  }

  // ---- Keys of `properties` ----

  lemma {:induction false} FieldPropertiesKeys(c: Collaborators, acc: Object<Descriptor>, ps: Object<SchemaPath>)
    ensures KeySet(FieldProperties(c, acc, ps)) == KeySet(acc) + EmittedNames(c, ps)
    decreases |ps|
  {
    if |ps| > 0 {
      var next := if Emitted(c, ps[0].0, ps[0].1) then Put(acc, ps[0].0, GenerateProperty(c, ps[0].1)) else acc;
      FieldPropertiesKeys(c, next, ps[1..]);
      EmittedNamesUncons(c, ps);
    }
  }

  lemma {:induction false} GroupPropertiesKeys(c: Collaborators, acc: Object<Descriptor>, gs: Object<Group>)
    ensures KeySet(GroupProperties(c, acc, gs)) == KeySet(acc) + KeySet(gs)
    decreases |gs|
  {
    if |gs| > 0 {
      GroupPropertiesKeys(c, Put(acc, gs[0].0, GenerateEmbedded(c, gs[0].1)), gs[1..]);
    }
  }

  /** The keys of `properties` are exactly the fields that pass the filter
      plus every embedded group, and nothing else. */
  lemma PropertyKeys(c: Collaborators, s: Schema)
    ensures KeySet(GenerateProperties(c, s)) == EmittedNames(c, s.paths) + KeySet(s.embeddeds)
  {
    FieldPropertiesKeys(c, [], s.paths);
    GroupPropertiesKeys(c, FieldProperties(c, [], s.paths), s.embeddeds);
  }

  // ---- Values of `properties` ----

  lemma {:induction false} GroupPropertiesOther(c: Collaborators, acc: Object<Descriptor>, gs: Object<Group>, k: string)
    requires k !in KeySet(gs)
    ensures Get(GroupProperties(c, acc, gs), k) == Get(acc, k)
    decreases |gs|
  {
    if |gs| > 0 {
      GroupPropertiesOther(c, Put(acc, gs[0].0, GenerateEmbedded(c, gs[0].1)), gs[1..], k);
    }
  }

  lemma {:induction false} GroupPropertiesGet(c: Collaborators, acc: Object<Descriptor>, gs: Object<Group>, i: nat)
    requires DistinctKeys(gs) && i < |gs|
    ensures Get(GroupProperties(c, acc, gs), gs[i].0) == Some(GenerateEmbedded(c, gs[i].1))
    decreases |gs|
  {
    var next := Put(acc, gs[0].0, GenerateEmbedded(c, gs[0].1));
    DistinctUncons(gs);
    if i == 0 {
      GroupPropertiesOther(c, next, gs[1..], gs[0].0);
    } else {
      GroupPropertiesGet(c, next, gs[1..], i - 1);
      assert gs[1..][i - 1] == gs[i];
    }
  }

  lemma {:induction false} FieldPropertiesOther(c: Collaborators, acc: Object<Descriptor>, ps: Object<SchemaPath>, k: string)
    requires k !in EmittedNames(c, ps)
    ensures Get(FieldProperties(c, acc, ps), k) == Get(acc, k)
    decreases |ps|
  {
    if |ps| > 0 {
      EmittedNamesUncons(c, ps);
      var next := if Emitted(c, ps[0].0, ps[0].1) then Put(acc, ps[0].0, GenerateProperty(c, ps[0].1)) else acc;
      FieldPropertiesOther(c, next, ps[1..], k);
    }
  }

  lemma {:induction false} FieldPropertiesGet(c: Collaborators, acc: Object<Descriptor>, ps: Object<SchemaPath>, i: nat)
    requires DistinctKeys(ps) && i < |ps| && Emitted(c, ps[i].0, ps[i].1)
    ensures Get(FieldProperties(c, acc, ps), ps[i].0) == Some(GenerateProperty(c, ps[i].1))
    decreases |ps|
  {
    var next := if Emitted(c, ps[0].0, ps[0].1) then Put(acc, ps[0].0, GenerateProperty(c, ps[0].1)) else acc;
    DistinctUncons(ps);
    if i == 0 {
      EmittedNamesAreKeys(c, ps[1..]);
      FieldPropertiesOther(c, next, ps[1..], ps[0].0);
    } else {
      assert ps[1..][i - 1] == ps[i];
      FieldPropertiesGet(c, next, ps[1..], i - 1);
    }
  }

  /** Each embedded group's key holds the group's inline object, overwriting
      a field of the same name; every other emitted field holds the
      descriptor its own type generates. */
  lemma PropertyValues(c: Collaborators, s: Schema)
    requires DistinctKeys(s.paths) && DistinctKeys(s.embeddeds)
    ensures forall i :: 0 <= i < |s.embeddeds| ==>
              Get(GenerateProperties(c, s), s.embeddeds[i].0) == Some(GenerateEmbedded(c, s.embeddeds[i].1))
    ensures forall i :: 0 <= i < |s.paths| && Emitted(c, s.paths[i].0, s.paths[i].1) && s.paths[i].0 !in KeySet(s.embeddeds) ==>
              Get(GenerateProperties(c, s), s.paths[i].0) == Some(GenerateProperty(c, s.paths[i].1))
  {
    var fields := FieldProperties(c, [], s.paths);
    forall i | 0 <= i < |s.embeddeds|
      ensures Get(GenerateProperties(c, s), s.embeddeds[i].0) == Some(GenerateEmbedded(c, s.embeddeds[i].1))
    {
      GroupPropertiesGet(c, fields, s.embeddeds, i);
    }
    forall i | 0 <= i < |s.paths| && Emitted(c, s.paths[i].0, s.paths[i].1) && s.paths[i].0 !in KeySet(s.embeddeds)
      ensures Get(GenerateProperties(c, s), s.paths[i].0) == Some(GenerateProperty(c, s.paths[i].1))
    {
      FieldPropertiesGet(c, [], s.paths, i);
      GroupPropertiesOther(c, fields, s.embeddeds, s.paths[i].0);
    }
  }

  // ---- `required` ----

  /** A path name is listed exactly when some mandatory path carries it. */
  lemma {:induction false} RequiredPathsMembership(c: Collaborators, ps: Object<SchemaPath>, x: string)
    ensures x in RequiredPaths(c, ps)
        <==> exists i :: 0 <= i < |ps| && Mandatory(c, ps[i].0, ps[i].1) && ps[i].1.path == x
  {
    if |ps| > 0 {
      RequiredPathsMembership(c, ps[1..], x);
      if x in RequiredPaths(c, ps[1..]) {
        var i :| 0 <= i < |ps[1..]| && Mandatory(c, ps[1..][i].0, ps[1..][i].1) && ps[1..][i].1.path == x;
        assert ps[i + 1] == ps[1..][i];
      }
      if exists i :: 0 <= i < |ps| && Mandatory(c, ps[i].0, ps[i].1) && ps[i].1.path == x {
        var i :| 0 <= i < |ps| && Mandatory(c, ps[i].0, ps[i].1) && ps[i].1.path == x;
        if i > 0 {
          assert ps[1..][i - 1] == ps[i];
        }
      }
    }
  }

  /** `required` keeps key order: the list for two runs of paths is the
      list for the first followed by the list for the second. */
  lemma {:induction false} RequiredPathsConcat(c: Collaborators, a: Object<SchemaPath>, b: Object<SchemaPath>)
    ensures RequiredPaths(c, a + b) == RequiredPaths(c, a) + RequiredPaths(c, b)
  {
    if |a| > 0 {
      assert (a + b)[1..] == a[1..] + b;
      RequiredPathsConcat(c, a[1..], b);
    } else {
      assert a + b == b;
    }
  }

  /** The number generator as written agrees with the intended one exactly
      when the `max` option is falsy; a truthy `max` always makes them differ. */
  lemma NumberAgreesUnlessMax(p: SchemaPath)
    ensures GenerateNumber(p) == GenerateNumberIntended(p) <==> !TruthyNumber(p.options.max)
  {
  }

  /** `required` applies neither the privacy nor the inclusion filter: a
      mandatory path that is kept out of `properties` is still listed. */
  lemma RequiredIgnoresPropertyFilters(c: Collaborators, s: Schema, i: nat)
    requires DistinctKeys(s.paths) && i < |s.paths|
    requires Mandatory(c, s.paths[i].0, s.paths[i].1)
    requires !Emitted(c, s.paths[i].0, s.paths[i].1) && s.paths[i].0 !in KeySet(s.embeddeds)
    ensures GenerateRequired(c, s).Some? && s.paths[i].1.path in GenerateRequired(c, s).value
    ensures s.paths[i].0 !in KeySet(GenerateProperties(c, s))
  {
    RequiredPathsMembership(c, s.paths, s.paths[i].1.path);
    PropertyKeys(c, s);
  }

  // ---- Shape of the whole output tree ----

  lemma {:induction false} PutWellShaped(o: Object<Descriptor>, k: string, v: Descriptor)
    requires AllWellShaped(o) && WellShaped(v)
    ensures AllWellShaped(Put(o, k, v))
  {
    PutShape(o, k, v);
    if |o| > 0 && o[0].0 != k {
      DistinctUncons(o);
      assert AllWellShaped(o[1..]) by {
        forall i | 0 <= i < |o[1..]| ensures WellShaped(o[1..][i].1) {
          assert o[1..][i] == o[i + 1];
        }
      }
      PutWellShaped(o[1..], k, v);
      var r := Put(o, k, v);
      assert r == [o[0]] + Put(o[1..], k, v);
      forall i | 0 <= i < |r| ensures WellShaped(r[i].1) {
        if i > 0 {
          assert r[i] == Put(o[1..], k, v)[i - 1];
        }
      }
    } else if |o| > 0 {
      var r := Put(o, k, v);
      forall i | 0 <= i < |r| ensures WellShaped(r[i].1) {
        if i > 0 {
          assert r[i] == o[i];
        }
      }
    }
  }

  /** Every definition `generate` returns is well shaped at every depth: no
      empty `required` list, no `max` key, no repeated property name. */
  lemma {:induction false} GenerateWellShaped(c: Collaborators, s: Schema)
    ensures WellShaped(Generate(c, s))
    decreases SchemaSize(s), 4
  {
    PropertiesWellShaped(c, s);
  }

  lemma {:induction false} PropertiesWellShaped(c: Collaborators, s: Schema)
    ensures AllWellShaped(GenerateProperties(c, s))
    decreases SchemaSize(s), 3
  {
    FieldPropertiesWellShaped(c, [], s.paths);
    GroupPropertiesWellShaped(c, FieldProperties(c, [], s.paths), s.embeddeds);
  }

  lemma {:induction false} FieldPropertiesWellShaped(c: Collaborators, acc: Object<Descriptor>, ps: Object<SchemaPath>)
    requires AllWellShaped(acc)
    ensures AllWellShaped(FieldProperties(c, acc, ps))
    decreases PathsSize(ps), 2
  {
    if |ps| > 0 {
      assert PathsSize(ps) == PathSize(ps[0].1) + PathsSize(ps[1..]) && PathSize(ps[0].1) >= 2;
      var next := acc;
      if Emitted(c, ps[0].0, ps[0].1) {
        PropertyWellShaped(c, ps[0].1);
        PutWellShaped(acc, ps[0].0, GenerateProperty(c, ps[0].1));
        next := Put(acc, ps[0].0, GenerateProperty(c, ps[0].1));
      }
      FieldPropertiesWellShaped(c, next, ps[1..]);
    }
  }

  lemma {:induction false} GroupPropertiesWellShaped(c: Collaborators, acc: Object<Descriptor>, gs: Object<Group>)
    requires AllWellShaped(acc)
    ensures AllWellShaped(GroupProperties(c, acc, gs))
    decreases GroupsSize(gs), 2
  {
    if |gs| > 0 {
      assert GroupsSize(gs) == GroupSize(gs[0].1) + GroupsSize(gs[1..]) && GroupSize(gs[0].1) >= 2;
      EmbeddedWellShaped(c, gs[0].1);
      PutWellShaped(acc, gs[0].0, GenerateEmbedded(c, gs[0].1));
      GroupPropertiesWellShaped(c, Put(acc, gs[0].0, GenerateEmbedded(c, gs[0].1)), gs[1..]);
    }
  }

  lemma {:induction false} PropertyWellShaped(c: Collaborators, p: SchemaPath)
    ensures WellShaped(GenerateProperty(c, p))
    decreases PathSize(p), 1
  {
    match TypeOf(p.options.declared)
    case Array => ArrayWellShaped(c, p);
    case Embedded => EmbeddedWellShaped(c, NotAnArray);
    case _ =>
  }

  lemma {:induction false} ArrayWellShaped(c: Collaborators, p: SchemaPath)
    requires TypeOf(p.options.declared) == Array
    ensures WellShaped(GenerateArray(c, p))
    decreases PathSize(p), 0
  {
    if p.options.declared.DocumentArray? {
      TypeEmbeddedWellShaped(c, p.options.declared.schema);
    }
  }

  lemma {:induction false} TypeEmbeddedWellShaped(c: Collaborators, s: Schema)
    ensures WellShaped(GenerateTypeEmbedded(c, s))
    decreases SchemaSize(s), 5
  {
    GenerateWellShaped(c, s);
  }

  lemma {:induction false} EmbeddedWellShaped(c: Collaborators, g: Group)
    ensures WellShaped(GenerateEmbedded(c, g))
    decreases GroupSize(g), 0
  {
    GroupSchemaSmaller(g);
    PropertiesWellShaped(c, GroupSchema(g));
  }

  // ---- Dispatch ----

  /** A type with no `_generate<Name>` method yields `{type: "object",
      properties: {}}`; the transform never fails on it. */
  lemma UnknownTypeFallsBack(c: Collaborators, p: SchemaPath)
    requires TypeOf(p.options.declared).Unhandled?
    ensures var d := GenerateProperty(c, p);
            KeysOf(d) == {"type", "properties"} && d.jsonType == Some("object") && d.properties == Properties([])
  {
  }

  /** A path classified Embedded hands the path object (not an array) to
      `_generateEmbedded`, so it is indistinguishable from an unknown type. */
  lemma EmbeddedPathLooksUnknown(c: Collaborators, p: SchemaPath)
    requires TypeOf(p.options.declared) == Embedded
    ensures GenerateProperty(c, p) == Fallback
  {
    assert GenerateProperties(c, GroupSchema(NotAnArray)) == [];
  }

  // ---- The synthetic schema of an embedded group ----

  /** The last member whose `.path` is `k`. */
  function LastWithPath(ms: seq<SchemaPath>, k: string): (r: Option<SchemaPath>)
    ensures r.Some? ==> r.value in ms && r.value.path == k
    ensures r.None? <==> forall i :: 0 <= i < |ms| ==> ms[i].path != k
  {
    if |ms| == 0 then None
    else
      var later := LastWithPath(ms[1..], k);
      assert forall i :: 0 < i < |ms| ==> ms[i] == ms[1..][i - 1];
      if later.Some? then later else if ms[0].path == k then Some(ms[0]) else None
  }

  /** Every entry of a paths object is stored under its own `.path`. */
  ghost predicate KeyedByPath(o: Object<SchemaPath>)
  {
    forall i :: 0 <= i < |o| ==> o[i].1.path == o[i].0
  }

  lemma {:induction false} PutKeyedByPath(o: Object<SchemaPath>, v: SchemaPath)
    requires KeyedByPath(o)
    ensures KeyedByPath(Put(o, v.path, v))
  {
    var r := Put(o, v.path, v);
    if |o| > 0 && o[0].0 != v.path {
      assert KeyedByPath(o[1..]) by {
        forall i | 0 <= i < |o[1..]| ensures o[1..][i].1.path == o[1..][i].0 {
          assert o[1..][i] == o[i + 1];
        }
      }
      PutKeyedByPath(o[1..], v);
      forall i | 0 < i < |r| ensures r[i].1.path == r[i].0 {
        assert r[i] == Put(o[1..], v.path, v)[i - 1];
      }
    } else if |o| > 0 {
      forall i | 0 < i < |r| ensures r[i].1.path == r[i].0 {
        assert r[i] == o[i];
      }
    }
  }

  lemma {:induction false} AssignByPathFacts(o: Object<SchemaPath>, ms: seq<SchemaPath>)
    requires DistinctKeys(o) && KeyedByPath(o)
    ensures DistinctKeys(AssignByPath(o, ms)) && KeyedByPath(AssignByPath(o, ms))
    ensures KeySet(AssignByPath(o, ms)) == KeySet(o) + (set m | m in ms :: m.path)
    ensures forall k :: Get(AssignByPath(o, ms), k)
                        == if LastWithPath(ms, k).Some? then LastWithPath(ms, k) else Get(o, k)
    decreases |ms|
  {
    if |ms| > 0 {
      var next := Put(o, ms[0].path, ms[0]);
      PutKeyedByPath(o, ms[0]);
      PutShape(o, ms[0].path, ms[0]);
      AssignByPathFacts(next, ms[1..]);
      assert ms == [ms[0]] + ms[1..];
      assert (set m | m in ms :: m.path) == {ms[0].path} + (set m | m in ms[1..] :: m.path);
    }
  }

  /** The synthetic schema of a group holds each member under its `.path`,
      no key twice, and for a repeated `.path` the last member wins. */
  lemma GroupSchemaPaths(g: Group)
    requires g.Members?
    ensures var ps := GroupSchema(g).paths;
            && DistinctKeys(ps) && KeyedByPath(ps)
            && KeySet(ps) == (set m | m in g.members :: m.path)
            && forall k :: Get(ps, k) == LastWithPath(g.members, k)
  {
    AssignByPathFacts([], g.members);
  }

  /** The keys of a definition's `properties`, as `generate` returns it. */
  lemma DefinitionKeys(c: Collaborators, s: Schema)
    ensures KeySet(Generate(c, s).properties.entries) == EmittedNames(c, s.paths) + KeySet(s.embeddeds)
  {
    PropertyKeys(c, s);
  }

  /** The keys of an inline group object's `properties`: the emitted names
      of its synthetic schema plus its own nested groups. */
  lemma GroupPropertyKeys(c: Collaborators, g: Group)
    ensures KeySet(GenerateEmbedded(c, g).properties.entries)
            == EmittedNames(c, GroupSchema(g).paths) + KeySet(GroupSchema(g).embeddeds)
  {
    PropertyKeys(c, GroupSchema(g));
  }

  /** The same keys in terms of the members: a name is a property of the
      inline object exactly when the member stored under it passes the
      filters, or a nested group has that name. */
  lemma GroupPropertyMembers(c: Collaborators, g: Group, x: string)
    requires g.Members?
    ensures x in KeySet(GenerateEmbedded(c, g).properties.entries)
            <==> (LastWithPath(g.members, x).Some? && Emitted(c, x, LastWithPath(g.members, x).value))
                 || x in KeySet(g.embeddeds)
  {
    var ps := GroupSchema(g).paths;
    GroupPropertyKeys(c, g);
    GroupSchemaPaths(g);
    var last := LastWithPath(g.members, x);
    if x in EmittedNames(c, ps) {
      var i :| 0 <= i < |ps| && Emitted(c, ps[i].0, ps[i].1) && ps[i].0 == x;
      GetAt(ps, i);
    }
    if last.Some? && Emitted(c, x, last.value) {
      GetDefined(ps, x);
      KeySetMembership(ps, x);
      var i :| 0 <= i < |ps| && ps[i].0 == x;
      GetAt(ps, i);
      assert Emitted(c, ps[i].0, ps[i].1);
    }
  }

  /** An inline group object lists a name under `required` exactly when the
      member that ends up stored under that name is mandatory. */
  lemma GroupRequired(c: Collaborators, g: Group, x: string)
    requires g.Members?
    ensures var r := GenerateEmbedded(c, g).required;
            (r.Some? && x in r.value)
            <==> (LastWithPath(g.members, x).Some? && LastWithPath(g.members, x).value.isRequired && !InEmbeddedGroup(c, x))
  {
    var ps := GroupSchema(g).paths;
    GroupSchemaPaths(g);
    assert GenerateEmbedded(c, g).required == GenerateRequired(c, GroupSchema(g));
    GroupRequiredPaths(ps, c, x, g.members);
  }

  lemma GroupRequiredPaths(ps: Object<SchemaPath>, c: Collaborators, x: string, ms: seq<SchemaPath>)
    requires DistinctKeys(ps) && KeyedByPath(ps)
    requires forall k :: Get(ps, k) == LastWithPath(ms, k)
    ensures x in RequiredPaths(c, ps)
            <==> (LastWithPath(ms, x).Some? && LastWithPath(ms, x).value.isRequired && !InEmbeddedGroup(c, x))
  {
    RequiredPathsMembership(c, ps, x);
    var last := LastWithPath(ms, x);
    if x in RequiredPaths(c, ps) {
      var i :| 0 <= i < |ps| && Mandatory(c, ps[i].0, ps[i].1) && ps[i].1.path == x;
      GetAt(ps, i);
    }
    if last.Some? && last.value.isRequired && !InEmbeddedGroup(c, x) {
      GetDefined(ps, x);
      KeySetMembership(ps, x);
      var i :| 0 <= i < |ps| && ps[i].0 == x;
      GetAt(ps, i);
      assert Mandatory(c, ps[i].0, ps[i].1) && ps[i].1.path == x;
    }
  }
}
