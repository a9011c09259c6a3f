/**
 * `generatePlaceholders`, the closure inside `generateSDKCode` that turns a
 * workflow's input schema into example `payload` and `credentials` objects
 * for the generated integration code.
 */
module Placeholders {
  import opened Json
  import opened Wrappers

  datatype Placeholders = Placeholders(payload: map<string, Json>, credentials: map<string, Json>)

  /** The example value for property `key` whose declared `type` is `ty`. */
  function ExampleValue(key: string, ty: Json): Json {
    if ty == Str("string") then Str("\"example_" + key + "\"")
    else if ty == Str("number") then Num(123)
    else if ty == Str("boolean") then Bool(true)
    else if ty == Str("array") then Arr([])
    else Obj(map[])
  }

  /**
   * The example value depends on the property's type alone: a string property
   * gets the quoted text `"example_<key>"`, every other type the same value
   * whatever the key.
   */
  lemma ExampleValueByType(k1: string, k2: string, ty: Json)
    ensures ty == Str("string") ==> ExampleValue(k1, ty) == Str("\"example_" + k1 + "\"")
    ensures ty != Str("string") ==> ExampleValue(k1, ty) == ExampleValue(k2, ty)
    ensures ExampleValue(k1, ty).Obj? <==> ty !in {Str("string"), Str("number"), Str("boolean"), Str("array")}
  {
  }

  /**
   * The properties declared under `schema.properties[section].properties`,
   * or none when that section or its `properties` is falsy.
   */
  function Declared(schemaProperties: Json, section: string): map<string, Json> {
    var s := Get(schemaProperties, section);
    if Truthy(s) && Truthy(Get(s, "properties")) then Entries(Get(s, "properties")) else map[]
  }

  /**
   * The one property name an assignment on a plain `{}` does not create:
   * `obj["__proto__"] = v` runs the setter inherited from `Object.prototype`,
   * which replaces the prototype (object values) or does nothing (primitives).
   */
  const ProtoKey := "__proto__"

  /**
   * Fills one placeholder object from the declared properties by assignment,
   * so a declared `__proto__` property leaves no key behind. Reading
   * `prop.type` of a nullish property throws, which is reported as `None`.
   */
  method FillPlaceholders(declared: map<string, Json>) returns (filled: Option<map<string, Json>>)
    ensures filled.None? <==> exists k :: k in declared && Nullish(declared[k])
    ensures filled.Some? ==> filled.value.Keys == declared.Keys - {ProtoKey}
    ensures filled.Some? ==> forall k :: k in declared && k != ProtoKey ==>
                               filled.value[k] == ExampleValue(k, Get(declared[k], "type"))
  {
    var out: map<string, Json> := map[];
    var todo := declared.Keys;
    while todo != {}
      invariant todo <= declared.Keys
      invariant out.Keys == declared.Keys - todo - {ProtoKey}
      invariant forall k :: k in declared && k !in todo ==> !Nullish(declared[k])
      invariant forall k :: k in out ==> out[k] == ExampleValue(k, Get(declared[k], "type"))
      decreases todo
    {
      var k :| k in todo;
      if Nullish(declared[k]) {
        return None;
      }
      var example := ExampleValue(k, Get(declared[k], "type"));
      if k != ProtoKey {
        out := out[k := example];
      }
      todo := todo - {k};
    }
    return Some(out);
  }

  /**
   * `generatePlaceholders(schema)`: empty objects when the schema or its
   * `properties` is falsy; otherwise one example value per declared payload
   * property and per declared credentials property, `__proto__` excepted.
   * `None` stands for the TypeError thrown on a nullish property, which makes
   * `generateSDKCode` return null.
   */
  method GeneratePlaceholders(schema: Json) returns (r: Option<Placeholders>)
    ensures !Truthy(schema) || !Truthy(Get(schema, "properties")) ==> r == Some(Placeholders(map[], map[]))
    ensures Truthy(schema) && Truthy(Get(schema, "properties")) ==>
              var payload := Declared(Get(schema, "properties"), "payload");
              var credentials := Declared(Get(schema, "properties"), "credentials");
              && (r.None? <==> (exists k :: k in payload && Nullish(payload[k]))
                               || (exists k :: k in credentials && Nullish(credentials[k])))
              && (r.Some? ==>
                    && r.value.payload.Keys == payload.Keys - {ProtoKey}
                    && r.value.credentials.Keys == credentials.Keys - {ProtoKey}
                    && (forall k :: k in payload && k != ProtoKey ==>
                          r.value.payload[k] == ExampleValue(k, Get(payload[k], "type")))
                    && (forall k :: k in credentials && k != ProtoKey ==>
                          r.value.credentials[k] == ExampleValue(k, Get(credentials[k], "type"))))
  {
    if !Truthy(schema) || !Truthy(Get(schema, "properties")) {
      return Some(Placeholders(map[], map[]));
    }
    var payload := FillPlaceholders(Declared(Get(schema, "properties"), "payload"));
    if payload.None? {
      return None;
    }
    var credentials := FillPlaceholders(Declared(Get(schema, "properties"), "credentials"));
    if credentials.None? {
      return None;
    }
    return Some(Placeholders(payload.value, credentials.value));
  }
}
