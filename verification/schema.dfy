/** The input side: a Mongoose schema as the generator sees it, and the
    collaborator primitives it inherits from `AbstractSchemaGenerator`.

    `_swaggerTypeFor(...).type` is folded into the data: every path carries
    the canonical type name the classifier gives its declared type.
    `_findEmbeddeds` is represented by its answer, stored beside the paths it
    was computed from; a group stores the answer for the synthetic schema
    built from its members, so every embedded group is structurally smaller
    than the schema that holds it. */
module MongooseSchema {
  import opened Wrappers
  import opened Objects

  /** Canonical type names. `Unhandled` is every name for which the
      generator defines no `_generate<Name>` method (Mixed, Buffer, ...). */
  datatype TypeName =
    | String
    | Date
    | Boolean
    | Number
    | ObjectId
    | Array
    | Embedded
    | Unhandled

  /** The canonical name of a declared type that is not an array. */
  type ScalarName = n: TypeName | !n.Array? witness String

  /** The canonical name of a plain array element (`options.type[0]`);
      arrays of embedded documents are `DocumentArray`. */
  type ItemName = n: TypeName | !n.Embedded? witness String

  /** `options.type`, already classified. */
  datatype FieldType =
    | Scalar(name: ScalarName)
    | ArrayOf(item: ItemName, itemRef: Option<string>)  // `[{type, ref}]`
    | DocumentArray(schema: Schema)                     // `path.schema`

  /** The options bag of a path; `type` is the declared type. */
  datatype FieldOptions = FieldOptions(
    declared: FieldType,
    enum: Option<seq<string>>,
    min: Option<int>,
    max: Option<int>,
    ref: Option<string>)

  /** A Mongoose `SchemaType`: its own `path`, its options and whether a
      `required` validator is set (`isRequired === true`). */
  datatype SchemaPath = SchemaPath(path: string, options: FieldOptions, isRequired: bool)

  /** `schema.paths`, keyed by path name, and what `_findEmbeddeds(schema)`
      returns for it. */
  datatype Schema = Schema(paths: Object<SchemaPath>, embeddeds: Object<Group>)

  /** A value of the `_findEmbeddeds` result: an array of member paths (with
      the collaborator's answer for the synthetic schema built from them), or
      anything that is not an array. */
  datatype Group =
    | Members(members: seq<SchemaPath>, embeddeds: Object<Group>)
    | NotAnArray

  /** The canonical name `_swaggerTypeFor(path.options.type).type`. */
  function TypeOf(t: FieldType): TypeName
  {
    match t
    case Scalar(n) => n
    case _ => Array
  }

  /** The canonical name of an array's element type,
      `_swaggerTypeFor(path.options.type[0]).type`. */
  function ItemTypeOf(t: FieldType): TypeName
    requires TypeOf(t) == Array
  {
    match t
    case ArrayOf(item, _) => item
    case DocumentArray(_) => Embedded
  }

  /** The primitives of `AbstractSchemaGenerator` that are pure functions of
      their arguments: `_getEmbeddedName(name)` and `_isIncluded(name, options)`. */
  datatype Collaborators = Collaborators(
    embeddedName: string -> Option<string>,
    isIncluded: (string, FieldOptions) -> bool)

  /** `_getEmbeddedName(name)` is truthy: a non-empty group name. */
  predicate InEmbeddedGroup(c: Collaborators, name: string)
  {
    match c.embeddedName(name)
    case Some(g) => g != ""
    case None => false
  }

  /** `name.indexOf('_') == 0`: the field is private. */
  predicate IsPrivate(name: string)
  {
    |name| > 0 && name[0] == '_'
  }

  /** The filter a field passes to appear under `properties`. */
  predicate Emitted(c: Collaborators, name: string, p: SchemaPath)
  {
    !InEmbeddedGroup(c, name) && c.isIncluded(name, p.options) && !IsPrivate(name)
  }

  /** The filter a field passes to be listed under `required`. */
  predicate Mandatory(c: Collaborators, name: string, p: SchemaPath)
  {
    !InEmbeddedGroup(c, name) && p.isRequired
  }

  /** JavaScript truthiness of an optional number: present and non-zero. */
  predicate TruthyNumber(x: Option<int>)
  {
    x.Some? && x.value != 0
  }

  /** JavaScript truthiness of an optional string: present and non-empty. */
  predicate TruthyString(x: Option<string>)
  {
    x.Some? && x.value != ""
  }

  /** `schema.paths[path.path] = path` for each member in turn. */
  function AssignByPath(o: Object<SchemaPath>, ms: seq<SchemaPath>): Object<SchemaPath>
    decreases ms
  {
    if |ms| == 0 then o else AssignByPath(Put(o, ms[0].path, ms[0]), ms[1..])
  }

  /** The synthetic schema `_generateEmbedded` builds for a group. */
  function GroupSchema(g: Group): Schema
  {
    match g
    case Members(ms, e) => Schema(AssignByPath([], ms), e)
    case NotAnArray => Schema([], [])
  }

  // Size measures, used only to show that the generator's recursion ends.

  function PathSize(p: SchemaPath): nat
  {
    2 + match p.options.declared
        case DocumentArray(s) => SchemaSize(s)
        case _ => 0
  }

  function PathEntrySize(e: (string, SchemaPath)): nat
  {
    PathSize(e.1)
  }

  function PathsSize(ps: Object<SchemaPath>): nat
  {
    if |ps| == 0 then 0 else PathEntrySize(ps[0]) + PathsSize(ps[1..])
  }

  function MembersSize(ms: seq<SchemaPath>): nat
  {
    if |ms| == 0 then 0 else PathSize(ms[0]) + MembersSize(ms[1..])
  }

  function SchemaSize(s: Schema): nat
  {
    1 + PathsSize(s.paths) + GroupsSize(s.embeddeds)
  }

  function GroupSize(g: Group): nat
  {
    match g
    case Members(ms, e) => 2 + MembersSize(ms) + GroupsSize(e)
    case NotAnArray => 2
  }

  function GroupEntrySize(e: (string, Group)): nat
  {
    GroupSize(e.1)
  }

  function GroupsSize(gs: Object<Group>): nat
  {
    if |gs| == 0 then 0 else GroupEntrySize(gs[0]) + GroupsSize(gs[1..])
  }

  lemma {:induction false} PutSize(o: Object<SchemaPath>, k: string, v: SchemaPath)
    ensures PathsSize(Put(o, k, v)) <= PathsSize(o) + PathSize(v)
  {
    if |o| > 0 && o[0].0 != k {
      PutSize(o[1..], k, v);
      assert Put(o, k, v)[1..] == Put(o[1..], k, v);
    } else if |o| > 0 {
      assert Put(o, k, v)[1..] == o[1..];
    }
  }

  lemma {:induction false} AssignByPathSize(o: Object<SchemaPath>, ms: seq<SchemaPath>)
    ensures PathsSize(AssignByPath(o, ms)) <= PathsSize(o) + MembersSize(ms)
    decreases ms
  {
    if |ms| > 0 {
      PutSize(o, ms[0].path, ms[0]);
      AssignByPathSize(Put(o, ms[0].path, ms[0]), ms[1..]);
    }
  }

  /** The synthetic schema of a group is smaller than the group. */
  lemma GroupSchemaSmaller(g: Group)
    ensures SchemaSize(GroupSchema(g)) < GroupSize(g)
  {
    if g.Members? {
      AssignByPathSize([], g.members);
    }
  }
}
