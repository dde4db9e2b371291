# Mongoose schema to Swagger projector, modelled in Dafny

This project models `JsonSchemaGenerator`, the part of mongoose-schema that
turns a Mongoose schema into a Swagger model definition (a small JSON-Schema
subset). `generate(schema)` walks `schema.paths` and builds two things. The
first is a `properties` object with one descriptor per public, included field
and one inline object per embedded field group. The second is an optional
`required` list. Each field goes to a generator chosen by its canonical type
name: String, Date, Boolean, Number, ObjectId, Array or Embedded. Array
elements go through a second, narrower table (`_generateType<Name>`).
Elements that are embedded documents recurse into `generate`.

Files:

- `wrappers.dfy`: `Option`, which stands for a key that is present or `undefined`.
- `objects.dfy`: plain JavaScript objects, as ordered key/value lists. `Put`
  is property assignment: it replaces a value in place or appends a new key.
- `schema.dfy`: the input. This holds schema paths, options, canonical type
  names and embedded groups. It also holds the collaborator primitives
  inherited from `AbstractSchemaGenerator`, the truthiness tests the code
  relies on, the synthetic schema built for a group, and the size measures
  that show the recursion ends.
- `descriptor.dfy`: the output descriptor (a record of optional keys), its
  key set, and `WellShaped`, the invariant every generated tree keeps.
- `generator.dfy`: one function per method of the source. The string-built
  method dispatch becomes a `match` over the canonical type name.
- `lemmas.dfy`: properties over all schemas and all collaborators.
- `examples.dfy`: concrete schemas and the exact definitions they yield.

How the collaborators are represented:

- `_getEmbeddedName` and `_isIncluded` are function-valued fields of
  `Collaborators`. They can be any functions.
- `_swaggerTypeFor(...).type` is folded into the data. Each path carries the
  canonical name of its declared type. The shapes the code cannot handle are
  ruled out by the types:
  - an Array-typed path always has an element type;
  - an array of embedded documents always has `path.schema`.
- `_findEmbeddeds(schema)` is represented by its answer, stored beside the
  schema's paths (`Schema.embeddeds`). A group stores the answer for the
  synthetic schema that `_generateEmbedded` builds from its members.
- This representation builds in an assumption about `_findEmbeddeds`. Each
  answer for a group's synthetic schema must be strictly smaller than the
  group, so that the recursion terminates. The code itself has no such guard.
  Suppose the members kept their dotted paths (`sub.a`, `sub.b`). Then
  `_findEmbeddeds` could find the same group `sub` again in the synthetic
  schema, and `_generateEmbedded` would recurse without end. The examples
  assume members re-keyed to `a` and `b`.

Truthiness follows the code. An `enum` array counts as set whenever it is
present. A numeric bound is set only when it is present and non-zero. A
`ref` is set only when it is present and non-empty. `_getEmbeddedName`
counts only when it returns a non-empty name.

The number generator is reproduced as written. `_generateNumber` stores the
`max` option under the `min` key (`JsonSchemaGenerator.js:99-101`). No `max`
key is ever produced, and a truthy `max` replaces the real minimum.
`GenerateNumber` states this, and the dispatch uses it.
`GeneratorExamples.NumberMaxOverwritesMin` shows it on `min: 1, max: 10`,
which yields `{type: "number", min: 10}`. `GenerateNumberIntended` is the
evidently intended version, with each bound under its own key; see
"## Findings". A zero bound is falsy and is dropped
(`GeneratorExamples.NumberZeroMinDropped`).

## Model

| member | source | states |
|---|---|---|
| `JsonSchemaGenerator.Generate` | JsonSchemaGenerator.js:16-21 | A definition's `properties` is what `_generateProperties` builds for the schema, and its `required` is what `_generateRequired` gives. It has a `required` key exactly when a mandatory path was found, and no other key. |
| `GeneratorLemmas.DefinitionKeys` | JsonSchemaGenerator.js:16-21 | The keys of a definition's `properties` are exactly the emitted field names plus every embedded group's key. |
| `GeneratorLemmas.UnknownTypeFallsBack` | JsonSchemaGenerator.js:23-34 | A path whose canonical type has no generator yields exactly `{type: "object", properties: {}}`; the dispatch never fails. |
| `GeneratorLemmas.EmbeddedPathLooksUnknown` | JsonSchemaGenerator.js:115-127 | A path classified Embedded passes the path object, not an array, to `_generateEmbedded`, so it yields the same `{type: "object", properties: {}}` as an unknown type. |
| `Objects.Put` | JsonSchemaGenerator.js:43 | Property assignment adds exactly the assigned key. The key then reads back the new value, and every other key keeps its value. |
| `Objects.PutShape` | JsonSchemaGenerator.js:43 | Assignment never introduces a repeated key. An existing key keeps its position, and a new key is appended at the end. |
| `GeneratorLemmas.PropertyWellShaped` | JsonSchemaGenerator.js:23-34 | `_generateProperty` answers for every path: whichever generator the canonical type selects, or the default branch, the result has no empty `required`, no `max` key and no repeated property key, at every depth. |
| `GeneratorLemmas.FieldPropertiesKeys` | JsonSchemaGenerator.js:38-46 | The field loop adds exactly the names that pass the embedded, inclusion and privacy filters to the keys already present. |
| `GeneratorLemmas.FieldPropertiesGet` | JsonSchemaGenerator.js:38-46 | After the field loop, an emitted field's name holds the descriptor `_generateProperty` gives for its path (the keys of `schema.paths` being distinct). |
| `GeneratorLemmas.FieldPropertiesOther` | JsonSchemaGenerator.js:38-46 | The field loop leaves every name it does not emit as it was. |
| `GeneratorLemmas.GroupPropertiesKeys` | JsonSchemaGenerator.js:48-54 | The group loop adds exactly the keys of the embedded groups. |
| `GeneratorLemmas.GroupPropertiesGet` | JsonSchemaGenerator.js:48-54 | After the group loop, each group's key holds that group's inline object. |
| `GeneratorLemmas.GroupPropertiesOther` | JsonSchemaGenerator.js:48-54 | The group loop leaves every key that names no group as it was. |
| `GeneratorLemmas.PropertyKeys` | JsonSchemaGenerator.js:36-57 | `_generateProperties`: the keys of `properties` are exactly the field names that are not embedded-group members, are included and do not start with `_`, plus every embedded group's key; nothing else. |
| `GeneratorLemmas.PropertyValues` | JsonSchemaGenerator.js:36-57 | Each group key holds the group's inline object, overwriting a field of the same name; every other emitted field holds the descriptor generated for its own path. |
| `JsonSchemaGenerator.RequiredPaths` | JsonSchemaGenerator.js:59-68 | The pushed list is no longer than the paths, and it is empty exactly when no non-embedded path has `isRequired === true`. |
| `JsonSchemaGenerator.GenerateRequired` | JsonSchemaGenerator.js:59-70 | `required` is `undefined` exactly when no non-embedded path is mandatory; otherwise it is a non-empty list. |
| `GeneratorLemmas.RequiredPathsMembership` | JsonSchemaGenerator.js:61-68 | A name is in the list exactly when some non-embedded, mandatory path has it as its `.path`. |
| `GeneratorLemmas.RequiredPathsConcat` | JsonSchemaGenerator.js:61-68 | The list keeps key order: for two runs of paths it is the first run's list followed by the second's. |
| `GeneratorLemmas.RequiredIgnoresPropertyFilters` | JsonSchemaGenerator.js:36-70 | A mandatory path that the privacy or inclusion filter keeps out of `properties` is still listed under `required`. |
| `JsonSchemaGenerator.GenerateString` | JsonSchemaGenerator.js:72-79 | `{type: "string"}`, plus `enum` equal to the option exactly when the option is set. |
| `JsonSchemaGenerator.GenerateDate` | JsonSchemaGenerator.js:81-85 | Exactly `{type: "string"}`. |
| `JsonSchemaGenerator.GenerateBoolean` | JsonSchemaGenerator.js:87-91 | Exactly `{type: "boolean"}`. |
| `JsonSchemaGenerator.GenerateNumber` | JsonSchemaGenerator.js:93-103 | `type` is "number" and there is never a `max` key. A truthy `max` lands under `min`. Otherwise `min` is the option when truthy. A zero bound is dropped. |
| `JsonSchemaGenerator.GenerateNumberIntended` | JsonSchemaGenerator.js:93-103 | The intended number generator: `type` is "number", `min` is the option when truthy, `max` is the option when truthy, and there are no other keys. |
| `GeneratorLemmas.NumberAgreesUnlessMax` | JsonSchemaGenerator.js:93-103 | The number generator as written equals the intended one exactly when `max` is falsy. |
| `JsonSchemaGenerator.GenerateArray` | JsonSchemaGenerator.js:105-113 | `type` is "array"; `items` is present exactly when the element type is String, ObjectId or Embedded, and there are no other keys. For plain elements `items` is the `_generateType<Name>` answer (`ItemFor`); for an array of documents it is `_generateTypeEmbedded` of `path.schema`. |
| `JsonSchemaGenerator.ItemFor` | JsonSchemaGenerator.js:108-111 | The item dispatch answers only for String (`{type: "string"}`) and ObjectId (`{$ref: ...}`) elements, leaving `items` unset for every other plain element. |
| `JsonSchemaGenerator.GenerateEmbedded` | JsonSchemaGenerator.js:115-127 | A group yields `{type: "object", properties, required}`, where `properties` and `required` are what `_generateProperties` and `_generateRequired` give for its synthetic schema. A value that is not an array gives empty `properties` and no `required`. |
| `GeneratorLemmas.GroupPropertyKeys` | JsonSchemaGenerator.js:115-127 | The keys of a group's inline `properties` are exactly the emitted names of its synthetic schema plus the keys of its nested groups. |
| `GeneratorLemmas.GroupPropertyMembers` | JsonSchemaGenerator.js:115-127 | A name is a key of a group's inline `properties` exactly when the member stored under that name passes the embedded, inclusion and privacy filters, or a nested group has that name. |
| `GeneratorLemmas.AssignByPathFacts` | JsonSchemaGenerator.js:119-121 | Assigning members by `.path` keeps keys distinct and keyed by path, adds exactly the members' paths, and each assigned key reads back the last member with that path; other keys are untouched. |
| `GeneratorLemmas.GroupSchemaPaths` | JsonSchemaGenerator.js:117-122 | The synthetic schema stores each member under its `.path`, never repeats a key, has exactly the members' paths as keys, and keeps the last member for a repeated `.path`. |
| `GeneratorLemmas.GroupRequired` | JsonSchemaGenerator.js:115-127 | A group's inline object lists a name under `required` exactly when the member stored under that name is required and the name is not itself an embedded-group member. |
| `JsonSchemaGenerator.GenerateObjectId` | JsonSchemaGenerator.js:129-137 | With a truthy `ref`, exactly `{$ref: "#/definitions/" + ref}`; otherwise the empty object. |
| `JsonSchemaGenerator.GenerateTypeObjectId` | JsonSchemaGenerator.js:139-141 | Exactly `{$ref: "#/definitions/" + ref}`. The ref is not checked, so a missing one gives `"#/definitions/undefined"`. |
| `JsonSchemaGenerator.GenerateTypeString` | JsonSchemaGenerator.js:143-145 | Exactly `{type: "string"}`. |
| `JsonSchemaGenerator.GenerateTypeEmbedded` | JsonSchemaGenerator.js:147-152 | The element schema's definition plus `type: "object"`. Recomputing `required` leaves the value `generate` already produced. |
| `GeneratorLemmas.GenerateWellShaped` | JsonSchemaGenerator.js:16-152 | At every depth of every generated definition, no `required` list is empty, no `max` key appears, and no `properties` object repeats a key. |
| `GeneratorExamples.StringWithEnum` | JsonSchemaGenerator.js:72-79 | A string field with `enum: ["a", "b"]` gives `{type: "string", enum: ["a", "b"]}`. |
| `GeneratorExamples.NumberZeroMinDropped` | JsonSchemaGenerator.js:96-98 | `min: 0` is falsy, so the result is `{type: "number"}`. |
| `GeneratorExamples.NumberMaxOverwritesMin` | JsonSchemaGenerator.js:93-103 | `min: 1, max: 10` gives `{type: "number", min: 10}`. |
| `GeneratorExamples.NumberBoundsIntended` | JsonSchemaGenerator.js:93-103 | On `min: 1, max: 10` the intended generator gives `{type: "number", min: 1, max: 10}`, which differs from the code's result. |
| `GeneratorExamples.ObjectIdReference` | JsonSchemaGenerator.js:129-137 | `ref: "Widget"` gives `{$ref: "#/definitions/Widget"}`, and the `_id` field gives `{}`. |
| `GeneratorExamples.ArrayItems` | JsonSchemaGenerator.js:105-145 | Arrays of strings, of references (with and without `ref`) and of an unhandled type give the expected `items`, or no `items`. |
| `GeneratorExamples.SubGroupObject` | JsonSchemaGenerator.js:115-127 | The group `sub` with `a` (a string) and required `b` (a number) gives `{type: "object", required: ["b"], properties: {a: {type: "string"}, b: {type: "number"}}}`. |
| `GeneratorExamples.InlineEmbeddedGroup` | JsonSchemaGenerator.js:36-70 | In the parent, the member paths `sub.a` and `sub.b` appear neither in `properties` nor in `required`; the group's inline object is the only property. |

## Left out

- `AbstractSchemaGenerator` is not part of this model. The model represents
  its four primitives as follows:
  - `_getEmbeddedName` and `_isIncluded` are arbitrary functions.
  - `_swaggerTypeFor(...).type` is the canonical name carried by each path.
  - `_findEmbeddeds` is the answer stored with each schema and each group.
- The model assumes `_findEmbeddeds` of an empty synthetic schema returns no
  groups. This is what `_generateEmbedded` reaches for a value that is not an
  array.
- The model assumes the classifier never returns a name that collides with the
  generator's helper methods (`Property`, `Properties`, `Required`,
  `Type...`). For such a name, the string-built dispatch would call the
  helper.
- The `mongoose` require and the prototype-chain mixin (lines 4-13) are module
  wiring with no behaviour of their own.
- Malformed input is excluded by the input types: a non-array `options.type`
  on an Array path, an embedded-document array without `path.schema`, and
  cyclic schemas. The code has no guard for any of them.
- The order of the keys inside one descriptor is not modelled: a descriptor
  is a record of optional keys. The code emits `type`, `required`,
  `properties` for a group (lines 123-125). It emits `properties`, `required`,
  `type` for an array of documents (lines 18-19, then line 149). The order of the keys
  inside `properties` is modelled.
- Termination assumes the behaviour of `_findEmbeddeds` described above: each
  group's answer is strictly smaller than the group. An input on which
  `_findEmbeddeds` finds the same group again makes the code recurse without
  end, and the model does not represent it.
- JavaScript lists integer-like keys first, in numeric order. The model does
  not: it keeps every key in plain insertion order.
- `required: undefined` is an own key in JavaScript, but JSON serialisation
  drops it. The model treats it as absent.
- The `enum` array is copied by reference, so the output aliases the option.
  The model copies it by value.
- Bounds are integers. Floating-point bounds and `NaN` are not modelled.
- The unused `schema` argument of the generators is not modelled.
- The `if (property)` test in `_generateProperties` is not modelled. A
  generated group object is always truthy, so the test always passes.

## Findings

| source | as written | input that shows it | evidently intended | confidence | as-written member | corrected member |
|---|---|---|---|---|---|---|
| JsonSchemaGenerator.js:99-101 | A truthy `max` option is assigned to `obj.min`. | `{type: Number, min: 1, max: 10}` gives `{type: "number", min: 10}` | `{type: "number", min: 1, max: 10}`: the bound goes to `obj.max` | not executed | `GeneratorExamples.NumberMaxOverwritesMin` | `JsonSchemaGenerator.GenerateNumberIntended` |
