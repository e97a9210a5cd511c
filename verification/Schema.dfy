/** The response-schema check of agui/interrupt_state.go. */
module Schema {
  import opened Values

  /** Rounding toward zero, as math.Trunc. */
  function Trunc(x: real): real {
    if x >= 0.0 then x.Floor as real else -((-x).Floor as real)
  }

  predicate IsWhole(x: real) {
    x == x.Floor as real
  }

  lemma TruncFixesWholes(x: real)
    ensures Trunc(x) == x <==> IsWhole(x)
  {
    if x < 0.0 && IsWhole(x) {
      assert -x == (-x.Floor) as real;
    }
    if x < 0.0 && Trunc(x) == x {
      assert x == (-((-x).Floor)) as real;
    }
  }

  /** The `type` keyword when it is a string; "" otherwise. */
  function TypeKeyword(schema: Fields): string {
    if "type" in schema && schema["type"].Str? then schema["type"].s else ""
  }

  /** The Go types that each of the five recognised type names admits. */
  predicate TypeAdmits(want: string, v: Value) {
    match want
    case "boolean" => v.Bool?
    case "object" => v.Object?
    case "string" => v.Str?
    case "integer" => v.Int? || (v.Float64? && IsWhole(v.f))
    case "number" => v.Int? || v.Float32? || v.Float64?
    case _ => true
  }

  predicate EnumAdmits(schema: Fields, v: Value) {
    "enum" in schema && schema["enum"].List? ==> v in schema["enum"].items
  }

  /** What a property value must satisfy: its type and enum, and, below a fragment of
      type "object", the fragments of the properties that are present. */
  predicate Conforms(v: Value, schema: Value)
    decreases schema
  {
    schema.Object? ==>
      && TypeAdmits(TypeKeyword(schema.fields), v)
      && EnumAdmits(schema.fields, v)
      && (TypeKeyword(schema.fields) == "object" ==> PropertiesConform(v, schema))
  }

  predicate PropertiesConform(v: Value, schema: Value)
    requires schema.Object?
    decreases schema, 0
  {
    v.Object? && "properties" in schema.fields && schema.fields["properties"].Object? ==>
      var props := schema.fields["properties"].fields;
      forall name :: name in props && name in v.fields ==> Conforms(v.fields[name], props[name])
  }

  /** The strings of a `required` keyword, whichever Go slice holds them. */
  function RequiredNames(v: Value): set<string> {
    match v
    case Strings(names) => set n | n in names
    case List(items) => set i | 0 <= i < |items| && items[i].Str? :: items[i].s
    case _ => {}
  }

  function Keyword(schema: Fields, key: string): Value {
    if key in schema then schema[key] else Nil
  }

  /** A payload passes: no schema, or all required names present and all present
      properties conforming. */
  predicate PayloadConforms(payload: Fields, schema: Value) {
    schema.Object? ==>
      && RequiredNames(Keyword(schema.fields, "required")) <= payload.Keys
      && PropertiesConform(Object(payload), schema)
  }

  // ----- the checks as the source runs them

  method StringSliceFromSchema(v: Value) returns (names: seq<string>)
    ensures (set n | n in names) == RequiredNames(v)
  {
    match v {
      case Strings(ns) =>
        return ns;
      case List(items) =>
        names := [];
        for i := 0 to |items|
          invariant forall j :: 0 <= j < i && items[j].Str? ==> items[j].s in names
          invariant forall n :: n in names ==> n in RequiredNames(v)
        {
          if items[i].Str? {
            names := names + [items[i].s];
          }
        }
      case _ =>
        return [];
    }
  }

  method ValidatePayloadAgainstSchema(payload: Fields, schema: Value) returns (ok: bool)
    ensures ok <==> PayloadConforms(payload, schema)
  {
    if !schema.Object? {
      return true;
    }
    var required := StringSliceFromSchema(Keyword(schema.fields, "required"));
    for i := 0 to |required|
      invariant forall j :: 0 <= j < i ==> required[j] in payload
    {
      if required[i] !in payload {
        assert required[i] in RequiredNames(Keyword(schema.fields, "required"));
        return false;
      }
    }
    if !Keyword(schema.fields, "properties").Object? {
      return true;
    }
    ok := ValidateProperties(Object(payload), schema);
  }

  /** The loop over the `properties` map, in whatever order its keys come up. */
  method ValidateProperties(v: Value, schema: Value) returns (ok: bool)
    requires schema.Object? && v.Object?
    requires Keyword(schema.fields, "properties").Object?
    ensures ok <==> PropertiesConform(v, schema)
    decreases schema, 0
  {
    var props := schema.fields["properties"].fields;
    var rest := props.Keys;
    while rest != {}
      invariant rest <= props.Keys
      invariant forall name :: name in props.Keys - rest && name in v.fields ==> Conforms(v.fields[name], props[name])
      decreases |rest|
    {
      var name :| name in rest;
      rest := rest - {name};
      if !props[name].Object? {
        continue;
      }
      if name !in v.fields {
        continue;
      }
      var valid := ValidateJsonSchemaValue(v.fields[name], props[name]);
      if !valid {
        return false;
      }
    }
    return true;
  }

  method ValidateJsonSchemaValue(value: Value, schema: Value) returns (ok: bool)
    requires schema.Object?
    ensures ok <==> Conforms(value, schema)
    decreases schema, 2
  {
    ok := ValidateJsonSchemaType(value, schema);
    if ok {
      ok := ValidateJsonSchemaEnum(value, schema.fields);
    }
  }

  method ValidateJsonSchemaType(value: Value, schema: Value) returns (ok: bool)
    requires schema.Object?
    ensures ok <==> (TypeAdmits(TypeKeyword(schema.fields), value) &&
                     (TypeKeyword(schema.fields) == "object" ==> PropertiesConform(value, schema)))
    decreases schema, 1
  {
    var want := TypeKeyword(schema.fields);
    if want == "" {
      return true;
    }
    match want {
      case "boolean" =>
        if !value.Bool? { return false; }
      case "object" =>
        if !value.Object? { return false; }
      case "string" =>
        if !value.Str? { return false; }
      case "integer" =>
        match value {
          case Int(_, _) =>
          case Float64(f) =>
            TruncFixesWholes(f);
            if f != Trunc(f) { return false; }
          case _ =>
            return false;
        }
      case "number" =>
        if !value.Int? && !value.Float32? && !value.Float64? { return false; }
      case _ =>
    }
    if want == "object" && value.Object? && Keyword(schema.fields, "properties").Object? {
      ok := ValidateProperties(value, schema);
      return;
    }
    return true;
  }

  method ValidateJsonSchemaEnum(value: Value, schema: Fields) returns (ok: bool)
    ensures ok <==> EnumAdmits(schema, value)
  {
    if "enum" !in schema {
      return true;
    }
    if !schema["enum"].List? {
      return true;
    }
    var allowed := schema["enum"].items;
    for i := 0 to |allowed|
      invariant value !in allowed[..i]
    {
      if allowed[i] == value {
        return true;
      }
    }
    return false;
  }

  // ----- against the standard

  /** The `type` keyword (section 6.1.1 of JSON Schema Validation 2020-12) on decoded JSON. */
  predicate TypeMatches(keyword: Value, v: Value) {
    match keyword
    case Str(name) => NameMatches(name, v)
    case List(items) => exists i :: 0 <= i < |items| && items[i].Str? && NameMatches(items[i].s, v)
    case _ => true
  }

  predicate NameMatches(name: string, v: Value) {
    match name
    case "null" => v.Nil?
    case "boolean" => v.Bool?
    case "object" => v.Object?
    case "array" => v.List?
    case "number" => v.Float64?
    case "string" => v.Str?
    case "integer" => v.Float64? && IsWhole(v.f)
    case _ => true
  }

  /** JSON Schema restricted to the keywords type, enum and required (sections 6.1.1,
      6.1.2 and 6.5.3 of JSON Schema Validation 2020-12) and properties (section 10.3.2.1
      of JSON Schema Core 2020-12), at every level. */
  predicate StandardAccepts(v: Value, schema: Value)
    decreases schema
  {
    match schema
    case Bool(b) => b
    case Object(s) =>
      && ("type" in s ==> TypeMatches(s["type"], v))
      && EnumAdmits(s, v)
      && (v.Object? ==> RequiredNames(Keyword(s, "required")) <= v.fields.Keys)
      && (v.Object? && "properties" in s && s["properties"].Object? ==>
            forall name :: name in s["properties"].fields && name in v.fields ==>
              StandardAccepts(v.fields[name], s["properties"].fields[name]))
    case _ => true
  }

  /** The check never rejects a property value that the standard's keywords accept. */
  lemma {:induction false} ConformsIsSound(v: Value, schema: Value)
    requires StandardAccepts(v, schema)
    ensures Conforms(v, schema)
    decreases schema
  {
    if schema.Object? {
      PropertiesAreSound(v, schema);
    }
  }

  lemma {:induction false} PropertiesAreSound(v: Value, schema: Value)
    requires schema.Object? && StandardAccepts(v, schema)
    ensures PropertiesConform(v, schema)
    decreases schema, 0
  {
    if v.Object? && "properties" in schema.fields && schema.fields["properties"].Object? {
      var props := schema.fields["properties"].fields;
      forall name | name in props && name in v.fields
        ensures Conforms(v.fields[name], props[name])
      {
        ConformsIsSound(v.fields[name], props[name]);
      }
    }
  }

  lemma {:induction false} NeverRejectsValidPayload(payload: Fields, schema: Value)
    requires StandardAccepts(Object(payload), schema)
    ensures PayloadConforms(payload, schema)
  {
    if schema.Object? {
      PropertiesAreSound(Object(payload), schema);
    }
  }

  predicate KnownType(schema: Fields) {
    "type" in schema ==>
      schema["type"].Str? && schema["type"].s in {"boolean", "object", "string", "integer", "number"}
  }

  /** Fragments within the dialect of the check: a type name it knows, and `properties`
      only beside type "object". */
  predicate Supported(schema: Value)
    decreases schema
  {
    && schema.Object? && KnownType(schema.fields) && PropertiesSupported(schema)
    && (Keyword(schema.fields, "properties").Object? ==> TypeKeyword(schema.fields) == "object")
  }

  predicate PropertiesSupported(schema: Value)
    requires schema.Object?
    decreases schema, 0
  {
    "properties" in schema.fields && schema.fields["properties"].Object? ==>
      forall name :: name in schema.fields["properties"].fields ==> Supported(schema.fields["properties"].fields[name])
  }

  /** Every object of the value that a fragment speaks about has that fragment's required names. */
  predicate RequiredPresent(v: Value, schema: Value)
    decreases schema
  {
    schema.Object? && v.Object? ==>
      && RequiredNames(Keyword(schema.fields, "required")) <= v.fields.Keys
      && ("properties" in schema.fields && schema.fields["properties"].Object? ==>
            var props := schema.fields["properties"].fields;
            forall name :: name in props && name in v.fields ==> RequiredPresent(v.fields[name], props[name]))
  }

  /** On a property the standard accepts exactly what the check accepts and what has every
      nested required name: the missing `required` is the only difference. */
  lemma {:induction false} ExactUpToRequired(v: Value, schema: Value)
    requires IsJson(v) && Supported(schema)
    ensures StandardAccepts(v, schema) <==> Conforms(v, schema) && RequiredPresent(v, schema)
    decreases schema
  {
    PropertiesExact(v, schema);
  }

  lemma {:induction false} PropertiesExact(v: Value, schema: Value)
    requires IsJson(v) && schema.Object? && PropertiesSupported(schema)
    ensures var s := schema.fields;
            v.Object? && "properties" in s && s["properties"].Object? ==>
              forall name :: name in s["properties"].fields && name in v.fields ==>
                var fragment := s["properties"].fields[name];
                StandardAccepts(v.fields[name], fragment) <==>
                  Conforms(v.fields[name], fragment) && RequiredPresent(v.fields[name], fragment)
    decreases schema, 0
  {
    var s := schema.fields;
    if v.Object? && "properties" in s && s["properties"].Object? {
      var props := s["properties"].fields;
      forall name | name in props && name in v.fields
        ensures StandardAccepts(v.fields[name], props[name]) <==>
                  Conforms(v.fields[name], props[name]) && RequiredPresent(v.fields[name], props[name])
      {
        ExactUpToRequired(v.fields[name], props[name]);
      }
    }
  }

  /** For a whole payload the standard asks for three things more: every nested required
      name, and the schema's own type and enum, which the check never looks at. */
  lemma {:induction false} PayloadExactUpToRequired(payload: Fields, schema: Value)
    requires IsJson(Object(payload)) && schema.Object? && KnownType(schema.fields) && PropertiesSupported(schema)
    ensures StandardAccepts(Object(payload), schema) <==>
              && PayloadConforms(payload, schema)
              && RequiredPresent(Object(payload), schema)
              && TypeAdmits(TypeKeyword(schema.fields), Object(payload))
              && EnumAdmits(schema.fields, Object(payload))
  {
    PropertiesExact(Object(payload), schema);
  }

  /** `required` below the top level is not checked: the standard rejects this payload. */
  lemma NestedRequiredIsIgnored()
    ensures var nested := Object(map["type" := Str("object"), "required" := List([Str("to")])]);
            var schema := Object(map["properties" := Object(map["args" := nested])]);
            var payload: Fields := map["args" := Object(map[])];
            PayloadConforms(payload, schema) && !StandardAccepts(Object(payload), schema)
  {
    var nested := Object(map["type" := Str("object"), "required" := List([Str("to")])]);
    var schema := Object(map["properties" := Object(map["args" := nested])]);
    var payload: Fields := map["args" := Object(map[])];
    assert nested.fields["required"].items[0] == Str("to");
    assert "to" in RequiredNames(Keyword(nested.fields, "required"));
    assert !StandardAccepts(payload["args"], nested);
    assert Conforms(payload["args"], nested);
    assert Object(payload).fields == payload;
    assert schema.fields["properties"].fields["args"] == nested;
  }
}
