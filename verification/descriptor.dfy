/** The output side: the plain objects the generator returns. Every key the
    generator can write is a field; `None` means the key is absent (or
    holds `undefined`, which JSON serialisation drops). */
module Descriptors {
  import opened Wrappers
  import opened Objects

  datatype Descriptor = Descriptor(
    jsonType: Option<string>,               // "type"
    enum: Option<seq<string>>,              // "enum"
    min: Option<int>,                       // "min"
    max: Option<int>,                       // "max"
    ref: Option<string>,                    // "$ref"
    items: Option<Descriptor>,              // "items"
    properties: PropertiesField,            // "properties"
    required: Option<seq<string>>)          // "required"

  /** The `properties` key: absent, or an object of named descriptors. */
  datatype PropertiesField = NoProperties | Properties(entries: Object<Descriptor>)

  /** The empty object `{}`. */
  const Empty := Descriptor(None, None, None, None, None, None, NoProperties, None)

  /** The keys present in a descriptor. */
  function KeysOf(d: Descriptor): set<string>
  {
    (if d.jsonType.Some? then {"type"} else {})
    + (if d.enum.Some? then {"enum"} else {})
    + (if d.min.Some? then {"min"} else {})
    + (if d.max.Some? then {"max"} else {})
    + (if d.ref.Some? then {"$ref"} else {})
    + (if d.items.Some? then {"items"} else {})
    + (if d.properties.Properties? then {"properties"} else {})
    + (if d.required.Some? then {"required"} else {})
  }

  /** The shape every descriptor the generator builds keeps, at every depth:
      a `required` list is never empty, no `max` key is ever written, and
      no `properties` object repeats a key. */
  predicate WellShaped(d: Descriptor)
  {
    && (d.required.Some? ==> |d.required.value| > 0)
    && d.max.None?
    && (d.items.Some? ==> WellShaped(d.items.value))
    && (d.properties.Properties? ==>
          && DistinctKeys(d.properties.entries)
          && forall i :: 0 <= i < |d.properties.entries| ==> WellShaped(d.properties.entries[i].1))
  }

  /** Every value of a properties object is well shaped and no key repeats. */
  predicate AllWellShaped(ps: Object<Descriptor>)
  {
    DistinctKeys(ps) && forall i :: 0 <= i < |ps| ==> WellShaped(ps[i].1)
  }
}
