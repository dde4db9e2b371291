/** Concrete schemas and the definitions the generator gives them. */
module GeneratorExamples {
  import opened Wrappers
  import opened Objects
  import opened MongooseSchema
  import opened Descriptors
  import opened JsonSchemaGenerator

  /** Options with only a declared type. */
  function Plain(t: FieldType): FieldOptions
  {
    FieldOptions(t, None, None, None, None)
  }

  /** Collaborators that include every field and treat `sub.<x>` as a
      member of group `sub`. */
  function SubGroup(): Collaborators
  {
    Collaborators(
      name => if |name| > 4 && name[..4] == "sub." then Some("sub") else None,
      (name, options) => true)
  }

  lemma StringWithEnum()
    ensures GenerateProperty(SubGroup(), SchemaPath("color", Plain(Scalar(String)).(enum := Some(["a", "b"])), false))
         == Empty.(jsonType := Some("string"), enum := Some(["a", "b"]))
  {
  }

  /** A zero bound is falsy and dropped. */
  lemma NumberZeroMinDropped()
    ensures GenerateProperty(SubGroup(), SchemaPath("count", Plain(Scalar(Number)).(min := Some(0)), false))
         == Empty.(jsonType := Some("number"))
  {
  }

  /** `max` is written under `min`, replacing the real minimum. */
  lemma NumberMaxOverwritesMin()
    ensures GenerateProperty(SubGroup(), SchemaPath("count", Plain(Scalar(Number)).(min := Some(1), max := Some(10)), false))
         == Empty.(jsonType := Some("number"), min := Some(10))
  {
  }

  /** On the same input the intended generator keeps both bounds. */
  lemma NumberBoundsIntended()
    ensures var p := SchemaPath("count", Plain(Scalar(Number)).(min := Some(1), max := Some(10)), false);
            && GenerateNumberIntended(p) == Empty.(jsonType := Some("number"), min := Some(1), max := Some(10))
            && GenerateNumber(p) != GenerateNumberIntended(p)
  {
  }

  lemma ObjectIdReference()
    ensures GenerateProperty(SubGroup(), SchemaPath("owner", Plain(Scalar(ObjectId)).(ref := Some("Widget")), false))
         == Empty.(ref := Some("#/definitions/Widget"))
    ensures GenerateProperty(SubGroup(), SchemaPath("_id", Plain(Scalar(ObjectId)), false)) == Empty
  {
    assert DefinitionsPrefix + "Widget" == "#/definitions/Widget";
  }

  lemma ArrayItems()
    ensures GenerateProperty(SubGroup(), SchemaPath("tags", Plain(ArrayOf(String, None)), false))
         == Empty.(jsonType := Some("array"), items := Some(Empty.(jsonType := Some("string"))))
    ensures GenerateProperty(SubGroup(), SchemaPath("parts", Plain(ArrayOf(ObjectId, Some("X"))), false))
         == Empty.(jsonType := Some("array"), items := Some(Empty.(ref := Some("#/definitions/X"))))
    ensures GenerateProperty(SubGroup(), SchemaPath("parts", Plain(ArrayOf(ObjectId, None)), false))
         == Empty.(jsonType := Some("array"), items := Some(Empty.(ref := Some("#/definitions/undefined"))))
    ensures GenerateProperty(SubGroup(), SchemaPath("blobs", Plain(ArrayOf(Unhandled, None)), false))
         == Empty.(jsonType := Some("array"))
  {
    assert DefinitionsPrefix + "X" == "#/definitions/X";
    assert DefinitionsPrefix + ConcatText(None) == "#/definitions/undefined";
  }

  const MemberA := SchemaPath("a", Plain(Scalar(String)), false)
  const MemberB := SchemaPath("b", Plain(Scalar(Number)), true)
  const Sub := Members([MemberA, MemberB], [])

  /** The parent schema: Mongoose lists the members as `sub.a` and `sub.b`. */
  const Parent := Schema([("sub.a", MemberA.(path := "sub.a")), ("sub.b", MemberB.(path := "sub.b"))],
                         [("sub", Sub)])

  const SubObject := Empty.(
    jsonType := Some("object"),
    required := Some(["b"]),
    properties := Properties([("a", Empty.(jsonType := Some("string"))),
                              ("b", Empty.(jsonType := Some("number")))]))

  lemma SubSchema()
    ensures GroupSchema(Sub).paths == [("a", MemberA), ("b", MemberB)]
  {
    assert [MemberA, MemberB][1..] == [MemberB] && [MemberB][1..] == [];
    assert AssignByPath([], [MemberA, MemberB]) == AssignByPath([("a", MemberA)], [MemberB]);
    assert Put([("a", MemberA)], "b", MemberB) == [("a", MemberA), ("b", MemberB)];
    assert AssignByPath([("a", MemberA)], [MemberB]) == AssignByPath([("a", MemberA), ("b", MemberB)], []);
  }

  /** The group `sub` with members `a` (a string) and `b` (a required
      number) becomes an inline object with its own `required`. */
  lemma SubGroupObject()
    ensures GenerateEmbedded(SubGroup(), Sub) == SubObject
  {
    var c := SubGroup();
    SubSchema();
    var ps := GroupSchema(Sub).paths;
    assert !InEmbeddedGroup(c, "a") && !InEmbeddedGroup(c, "b");
    assert ps[1..] == [("b", MemberB)] && ps[1..][1..] == [];
    assert RequiredPaths(c, ps[1..]) == ["b"];
    assert RequiredPaths(c, ps) == ["b"];
    assert Emitted(c, "a", MemberA) && Emitted(c, "b", MemberB);
    assert GenerateProperty(c, MemberA) == Empty.(jsonType := Some("string"));
    assert GenerateProperty(c, MemberB) == Empty.(jsonType := Some("number"));
    var fa := [("a", Empty.(jsonType := Some("string")))];
    assert FieldProperties(c, [], ps) == FieldProperties(c, fa, ps[1..]);
    assert FieldProperties(c, fa, ps[1..]) == FieldProperties(c, Put(fa, "b", Empty.(jsonType := Some("number"))), []);
    assert GenerateProperties(c, GroupSchema(Sub)) == SubObject.properties.entries;
    assert GenerateRequired(c, GroupSchema(Sub)) == Some(["b"]);
  }

  /** In the parent, the member paths stay out of `properties` and out of
      `required`; the group's inline object is the only property. */
  lemma InlineEmbeddedGroup()
    ensures Generate(SubGroup(), Parent) == Empty.(properties := Properties([("sub", SubObject)]))
  {
    var c := SubGroup();
    var s := Parent;
    assert "sub.a"[..4] == "sub." && "sub.b"[..4] == "sub.";
    assert InEmbeddedGroup(c, "sub.a") && InEmbeddedGroup(c, "sub.b");
    assert s.paths[1..] == [("sub.b", MemberB.(path := "sub.b"))] && s.paths[1..][1..] == [];
    assert FieldProperties(c, [], s.paths[1..]) == FieldProperties(c, [], []);
    assert FieldProperties(c, [], s.paths) == [];
    assert RequiredPaths(c, s.paths[1..]) == [];
    assert RequiredPaths(c, s.paths) == [];
    SubGroupObject();
    assert GroupProperties(c, [], s.embeddeds) == GroupProperties(c, [("sub", SubObject)], []);
  }
}
