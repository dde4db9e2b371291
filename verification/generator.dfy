/** `JsonSchemaGenerator`: projects a Mongoose schema onto a Swagger model
    definition. There is one function per method of the source; the
    dispatch `"_generate" + type` and `"_generateType" + type` becomes a
    `match` over the canonical type name, with every name that has no
    generator falling to the default branch. */
module JsonSchemaGenerator {
  import opened Wrappers
  import opened Objects
  import opened MongooseSchema
  import opened Descriptors

  /** The prefix of every `$ref` the generator writes. */
  const DefinitionsPrefix := "#/definitions/"

  /** What the default branch of `_generateProperty` builds for a type with
      no generator (Mixed, Buffer, ...). */
  const Fallback := Empty.(jsonType := Some("object"), properties := Properties([]))

  /** `value` as JavaScript string concatenation renders it: an absent
      value becomes the text "undefined". */
  function ConcatText(value: Option<string>): string
  {
    match value
    case Some(t) => t
    case None => "undefined"
  }

  /** `generate(schema)`: the model definition `{properties, required}`. */
  function Generate(c: Collaborators, s: Schema): (d: Descriptor)
    ensures d.properties == Properties(GenerateProperties(c, s)) && d.required == GenerateRequired(c, s)
    ensures KeysOf(d) == {"properties"} + (if d.required.Some? then {"required"} else {})
    decreases SchemaSize(s), 4
  {
    Empty.(properties := Properties(GenerateProperties(c, s)), required := GenerateRequired(c, s))
  }

  /** `_generateProperty(path, schema)`: dispatch on the canonical type. A
      path of canonical type Embedded reaches `_generateEmbedded` with the
      path object itself, which is not an array. */
  function GenerateProperty(c: Collaborators, p: SchemaPath): Descriptor
    decreases PathSize(p), 1
  {
    match TypeOf(p.options.declared)
    case String => GenerateString(p)
    case Date => GenerateDate()
    case Boolean => GenerateBoolean()
    case Number => GenerateNumber(p)
    case ObjectId => GenerateObjectId(p)
    case Array => GenerateArray(c, p)
    case Embedded => GenerateEmbedded(c, NotAnArray)
    case Unhandled => Fallback
  }

  /** `_generateProperties(schema)`: the included public fields, then one
      entry per embedded group, a group overwriting a field of its name. */
  function GenerateProperties(c: Collaborators, s: Schema): Object<Descriptor>
    decreases SchemaSize(s), 3
  {
    GroupProperties(c, FieldProperties(c, [], s.paths), s.embeddeds)
  }

  /** The `Object.keys(schema.paths).forEach` loop of `_generateProperties`. */
  function FieldProperties(c: Collaborators, acc: Object<Descriptor>, ps: Object<SchemaPath>): Object<Descriptor>
    decreases PathsSize(ps), 2
  {
    if |ps| == 0 then acc
    else
      assert PathsSize(ps) == PathSize(ps[0].1) + PathsSize(ps[1..]) && PathSize(ps[0].1) >= 2;
      var name := ps[0].0;
      var next := if Emitted(c, name, ps[0].1) then Put(acc, name, GenerateProperty(c, ps[0].1)) else acc;
      FieldProperties(c, next, ps[1..])
  }

  /** The `for (var key in embeddeds)` loop of `_generateProperties`; the
      generated group object is always truthy, so it is always stored. */
  function GroupProperties(c: Collaborators, acc: Object<Descriptor>, gs: Object<Group>): Object<Descriptor>
    decreases GroupsSize(gs), 2
  {
    if |gs| == 0 then acc
    else
      assert GroupsSize(gs) == GroupSize(gs[0].1) + GroupsSize(gs[1..]) && GroupSize(gs[0].1) >= 2;
      GroupProperties(c, Put(acc, gs[0].0, GenerateEmbedded(c, gs[0].1)), gs[1..])
  }

  /** The `.path` of each mandatory path, in key order: the push loop of
      `_generateRequired`. */
  function RequiredPaths(c: Collaborators, ps: Object<SchemaPath>): (r: seq<string>)
    ensures |r| <= |ps|
    ensures |r| == 0 <==> forall i :: 0 <= i < |ps| ==> !Mandatory(c, ps[i].0, ps[i].1)
  {
    if |ps| == 0 then []
    else
      var rest := RequiredPaths(c, ps[1..]);
      assert forall i :: 0 < i < |ps| ==> ps[i] == ps[1..][i - 1];
      (if Mandatory(c, ps[0].0, ps[0].1) then [ps[0].1.path] else []) + rest
  }

  /** `_generateRequired(schema)`: `undefined` instead of an empty list. */
  function GenerateRequired(c: Collaborators, s: Schema): (r: Option<seq<string>>)
    ensures r.None? <==> forall i :: 0 <= i < |s.paths| ==> !Mandatory(c, s.paths[i].0, s.paths[i].1)
    ensures r.Some? ==> |r.value| > 0 && r.value == RequiredPaths(c, s.paths)
  {
    var r := RequiredPaths(c, s.paths);
    if |r| == 0 then None else Some(r)
  }

  /** `_generateString`: the enum values are copied when the option is set
      (an array is truthy even when empty). */
  function GenerateString(p: SchemaPath): (d: Descriptor)
    ensures d.jsonType == Some("string") && d.enum == p.options.enum
    ensures KeysOf(d) == {"type"} + (if p.options.enum.Some? then {"enum"} else {})
  {
    var d := Empty.(jsonType := Some("string"));
    if p.options.enum.Some? then d.(enum := p.options.enum) else d
  }

  /** `_generateDate`: a date is rendered as a plain string. */
  function GenerateDate(): (d: Descriptor)
    ensures KeysOf(d) == {"type"} && d.jsonType == Some("string")
  {
    Empty.(jsonType := Some("string"))
  }

  /** `_generateBoolean`. */
  function GenerateBoolean(): (d: Descriptor)
    ensures KeysOf(d) == {"type"} && d.jsonType == Some("boolean")
  {
    Empty.(jsonType := Some("boolean"))
  }

  /** `_generateNumber`, as written: the `max` option is stored under the
      `min` key, so no `max` key is ever produced and a truthy `max` hides
      `min`. Zero bounds are falsy and dropped. */
  function GenerateNumber(p: SchemaPath): (d: Descriptor)
    ensures d.jsonType == Some("number")
    ensures "max" !in KeysOf(d)
    ensures KeysOf(d) == {"type"} + (if TruthyNumber(p.options.min) || TruthyNumber(p.options.max) then {"min"} else {})
    ensures TruthyNumber(p.options.max) ==> d.min == p.options.max
    ensures !TruthyNumber(p.options.max) && TruthyNumber(p.options.min) ==> d.min == p.options.min
  {
    var d := Empty.(jsonType := Some("number"));
    var d := if TruthyNumber(p.options.min) then d.(min := p.options.min) else d;
    if TruthyNumber(p.options.max) then d.(min := p.options.max) else d
  }

  /** `_generateNumber` as evidently intended: each truthy bound under its
      own key. The dispatch keeps the code as written (`GenerateNumber`). */
  function GenerateNumberIntended(p: SchemaPath): (d: Descriptor)
    ensures d.jsonType == Some("number")
    ensures d.min == (if TruthyNumber(p.options.min) then p.options.min else None)
    ensures d.max == (if TruthyNumber(p.options.max) then p.options.max else None)
    ensures KeysOf(d) == {"type"} + (if TruthyNumber(p.options.min) then {"min"} else {})
                                  + (if TruthyNumber(p.options.max) then {"max"} else {})
  {
    var d := Empty.(jsonType := Some("number"));
    var d := if TruthyNumber(p.options.min) then d.(min := p.options.min) else d;
    if TruthyNumber(p.options.max) then d.(max := p.options.max) else d
  }

  /** `_generateObjectId`: a reference when `ref` is set, otherwise the
      empty object (the `_id` field). */
  function GenerateObjectId(p: SchemaPath): (d: Descriptor)
    ensures TruthyString(p.options.ref) ==> KeysOf(d) == {"$ref"} && d.ref == Some(DefinitionsPrefix + p.options.ref.value)
    ensures !TruthyString(p.options.ref) ==> d == Empty
  {
    if TruthyString(p.options.ref) then Empty.(ref := Some(DefinitionsPrefix + p.options.ref.value)) else Empty
  }

  /** `_generateArray`: `items` is set only when the element type has a
      `_generateType<Name>` generator. */
  function GenerateArray(c: Collaborators, p: SchemaPath): (d: Descriptor)
    requires TypeOf(p.options.declared) == Array
    ensures d.jsonType == Some("array")
    ensures d.items.Some? <==> ItemTypeOf(p.options.declared) in {String, ObjectId, Embedded}
    ensures p.options.declared.ArrayOf? ==> d.items == ItemFor(p.options.declared.item, p.options.declared.itemRef)
    ensures p.options.declared.DocumentArray? ==>
              SchemaSize(p.options.declared.schema) < PathSize(p)
              && d.items == Some(GenerateTypeEmbedded(c, p.options.declared.schema))
    ensures KeysOf(d) == {"type"} + (if d.items.Some? then {"items"} else {})
    decreases PathSize(p), 0
  {
    var t := p.options.declared;
    var items := if t.DocumentArray? then Some(GenerateTypeEmbedded(c, t.schema)) else ItemFor(t.item, t.itemRef);
    Empty.(jsonType := Some("array"), items := items)
  }

  /** The `_generateType<Name>` dispatch for plain (non-document) array
      elements. */
  function ItemFor(item: ItemName, ref: Option<string>): (r: Option<Descriptor>)
    ensures r.Some? <==> item == String || item == ObjectId
    ensures item == String ==> KeysOf(r.value) == {"type"} && r.value.jsonType == Some("string")
    ensures item == ObjectId ==> KeysOf(r.value) == {"$ref"} && r.value.ref == Some(DefinitionsPrefix + ConcatText(ref))
  {
    match item
    case String => Some(GenerateTypeString())
    case ObjectId => Some(GenerateTypeObjectId(ref))
    case _ => None
  }

  /** `_generateTypeObjectId`: `type[0].ref` is concatenated without a
      check, so a missing ref yields "#/definitions/undefined". */
  function GenerateTypeObjectId(ref: Option<string>): (d: Descriptor)
    ensures KeysOf(d) == {"$ref"} && d.ref == Some(DefinitionsPrefix + ConcatText(ref))
  {
    Empty.(ref := Some(DefinitionsPrefix + ConcatText(ref)))
  }

  /** `_generateTypeString`. */
  function GenerateTypeString(): (d: Descriptor)
    ensures KeysOf(d) == {"type"} && d.jsonType == Some("string")
  {
    Empty.(jsonType := Some("string"))
  }

  /** `_generateTypeEmbedded`: the element schema's definition tagged as an
      object; recomputing `required` leaves the value `generate` gave. */
  function GenerateTypeEmbedded(c: Collaborators, s: Schema): (d: Descriptor)
    ensures d == Generate(c, s).(jsonType := Some("object"))
    decreases SchemaSize(s), 5
  {
    var d := Generate(c, s);
    d.(jsonType := Some("object"), required := GenerateRequired(c, s))
  }

  /** `_generateEmbedded(embedded)`: an inline object built from the
      synthetic schema whose paths are the group's members keyed by their
      `.path`; a value that is not an array gives the empty schema. The
      size conjunct is what lets the `properties` clause mention the
      recursive call. */
  function GenerateEmbedded(c: Collaborators, g: Group): (d: Descriptor)
    ensures d.jsonType == Some("object") && d.properties.Properties?
    ensures d.required == GenerateRequired(c, GroupSchema(g))
    ensures SchemaSize(GroupSchema(g)) < GroupSize(g)
            && d.properties == Properties(GenerateProperties(c, GroupSchema(g)))
    ensures g.NotAnArray? ==> d.required.None? && d.properties.entries == []
    ensures KeysOf(d) == {"type", "properties"} + (if d.required.Some? then {"required"} else {})
    decreases GroupSize(g), 0
  {
    var s := GroupSchema(g);
    GroupSchemaSmaller(g);
    Empty.(jsonType := Some("object"), required := GenerateRequired(c, s), properties := Properties(GenerateProperties(c, s)))
  }
}
