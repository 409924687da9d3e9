/** The JSON Schema keywords the capability templates use, as Draft 2020-12 defines them (Core sections
    10.3.1.2, 10.3.2.1 and 10.3.2.3; Validation sections 6.1.1, 6.1.3, 6.2.2, 6.2.4, 6.3.2 and 6.5.3), and
    the two templates (src/grantora/adapters/templates.py). */
module JsonSchema {
  import opened Prelude
  import opened Json

  /** "integer" is any number with a zero fractional part, so 5.0 is one; true is not. */
  predicate HasType(name: string, j: Json) {
    || (name == "object" && j.Obj?)
    || (name == "array" && j.Arr?)
    || (name == "string" && j.Str?)
    || (name == "null" && j.Null?)
    || (name == "boolean" && j.Bool?)
    || (name == "number" && (j.Int? || j.Float?))
    || (name == "integer" && (j.Int? || (j.Float? && j.r == j.r.Floor as real)))
  }

  predicate TypeHolds(wanted: Json, j: Json) {
    match wanted
    case Str(name) => HasType(name, j)
    case Arr(names) => exists i :: 0 <= i < |names| && names[i].Str? && HasType(names[i].s, j)
    case _ => true
  }

  predicate BoundsHold(s: map<string, Json>, j: Json) {
    && ("const" in s ==> Equal(j, s["const"], false))
    && ("minLength" in s && s["minLength"].Int? && j.Str? ==> |j.s| >= s["minLength"].i)
    && ("minimum" in s && Numeric(s["minimum"], false).Some? && Numeric(j, false).Some? ==>
          Numeric(j, false).value >= Numeric(s["minimum"], false).value)
    && ("maximum" in s && Numeric(s["maximum"], false).Some? && Numeric(j, false).Some? ==>
          Numeric(j, false).value <= Numeric(s["maximum"], false).value)
  }

  /** "required", and "additionalProperties": false */
  predicate KeysHold(s: map<string, Json>, j: Json) {
    j.Obj? ==>
      && (Get(s, "required").Arr? ==>
            forall i :: 0 <= i < |s["required"].items| && s["required"].items[i].Str? ==>
              s["required"].items[i].s in j.fields)
      && (Get(s, "additionalProperties") == Bool(false) ==>
            forall k :: k in j.fields ==> Get(s, "properties").Obj? && k in s["properties"].fields)
  }

  predicate Validates(schema: Json, j: Json)
    decreases schema
  {
    match schema
    case Bool(b) => b
    case Obj(s) =>
      && ("type" in s ==> TypeHolds(s["type"], j))
      && BoundsHold(s, j)
      && KeysHold(s, j)
      && (Get(s, "properties").Obj? && j.Obj? ==>
            forall k :: k in s["properties"].fields && k in j.fields ==>
              Validates(s["properties"].fields[k], j.fields[k]))
      && ("items" in s && j.Arr? ==> forall i :: 0 <= i < |j.items| ==> Validates(s["items"], j.items[i]))
    case _ => true
  }

  // ----- The templates -----

  const STRING_SCHEMA := Obj(map["type" := Str("string")])

  function ConstSchema(value: string): Json {
    Obj(map["type" := Str("string"), "const" := Str(value)])
  }

  function OrNullSchema(name: string): Json {
    Obj(map["type" := Arr([Str(name), Str("null")])])
  }

  function Names(names: seq<string>): Json {
    Arr(seq(|names|, i requires 0 <= i < |names| => Str(names[i])))
  }

  function ClosedObject(properties: map<string, Json>, required: seq<string>): Json {
    Obj(map["type" := Str("object"), "properties" := Obj(properties), "required" := Names(required),
            "additionalProperties" := Bool(false)])
  }

  function ArrayOf(item: Json): Json {
    Obj(map["type" := Str("array"), "items" := item])
  }

  function ListOf(name: string, item: Json): Json {
    ClosedObject(map[name := ArrayOf(item)], [name])
  }

  /** Both templates take a query and an optional limit between 1 and 50. */
  const QUERY_SCHEMA := Obj(map["type" := Str("string"), "minLength" := Int(1)])
  const LIMIT_SCHEMA := Obj(map["type" := Str("integer"), "minimum" := Int(1), "maximum" := Int(50)])
  const SEARCH_PROPERTIES := map["query" := QUERY_SCHEMA, "limit" := LIMIT_SCHEMA]
  const SEARCH_INPUT_SCHEMA := ClosedObject(SEARCH_PROPERTIES, ["query"])

  const CONTACT_SCHEMA := ClosedObject(
    map["display_name" := STRING_SCHEMA, "phone" := STRING_SCHEMA, "company" := STRING_SCHEMA,
      "source" := ConstSchema("nethvoice")],
    ["display_name", "phone", "company", "source"])

  const NETHVOICE_OUTPUT_SCHEMA := ListOf("contacts", CONTACT_SCHEMA)

  const FILE_SCHEMA := ClosedObject(
    map["path" := STRING_SCHEMA, "display_name" := STRING_SCHEMA, "mime_type" := STRING_SCHEMA,
        "size" := OrNullSchema("integer"), "modified_at" := OrNullSchema("string"),
          "source" := ConstSchema("nextcloud")],
    ["path", "display_name", "mime_type", "size", "modified_at", "source"])

  const NEXTCLOUD_OUTPUT_SCHEMA := ListOf("files", FILE_SCHEMA)

  /** What a closed object schema asks of an object: the required keys, no others, and valid values. */
  ghost predicate ClosedObjectHolds(properties: map<string, Json>, required: seq<string>, m: map<string, Json>) {
    && (forall i :: 0 <= i < |required| ==> required[i] in m)
    && m.Keys <= properties.Keys
    && forall k :: k in m && k in properties ==> Validates(properties[k], m[k])
  }

  lemma ClosedObjectValidatesIff(properties: map<string, Json>, required: seq<string>, m: map<string, Json>)
    ensures Validates(ClosedObject(properties, required), Obj(m)) <==> ClosedObjectHolds(properties, required, m)
  {
    var s := ClosedObject(properties, required).fields;
    assert BoundsHold(s, Obj(m)) && TypeHolds(s["type"], Obj(m));
    assert KeysHold(s, Obj(m))
      <==> ((forall i :: 0 <= i < |required| ==> required[i] in m) && m.Keys <= properties.Keys) by {
      assert s["required"] == Names(required) && s["properties"] == Obj(properties);
      assert forall i :: 0 <= i < |required| ==> Names(required).items[i] == Str(required[i]);
    }
    assert s["properties"].fields == properties && "items" !in s;
  }

  lemma ArrayValidatesIff(item: Json, items: seq<Json>)
    ensures Validates(ArrayOf(item), Arr(items)) <==> forall i :: 0 <= i < |items| ==> Validates(item, items[i])
  {
    var s := ArrayOf(item).fields;
    assert BoundsHold(s, Arr(items)) && TypeHolds(s["type"], Arr(items)) && KeysHold(s, Arr(items));
  }

  /** A wrapped list validates exactly when every item does. */
  lemma ListValidatesIff(name: string, item: Json, items: seq<Json>)
    ensures Validates(ListOf(name, item), Obj(map[name := Arr(items)]))
      <==> forall i :: 0 <= i < |items| ==> Validates(item, items[i])
  {
    hide Validates;
    ClosedObjectValidatesIff(map[name := ArrayOf(item)], [name], map[name := Arr(items)]);
    ArrayValidatesIff(item, items);
    assert map[name := Arr(items)].Keys == {name};
  }

  lemma LimitValidatesIff(j: Json)
    ensures Validates(LIMIT_SCHEMA, j) <==> HasType("integer", j) && 1.0 <= Numeric(j, false).value <= 50.0
  {
    assert KeysHold(LIMIT_SCHEMA.fields, j);
    assert TypeHolds(LIMIT_SCHEMA.fields["type"], j) <==> HasType("integer", j);
  }

  lemma QueryValidatesIff(j: Json)
    ensures Validates(QUERY_SCHEMA, j) <==> j.Str? && |j.s| >= 1
  {
    assert KeysHold(QUERY_SCHEMA.fields, j);
    assert TypeHolds(QUERY_SCHEMA.fields["type"], j) <==> j.Str?;
  }

  /** The inputs the templates accept: a query that is not empty, perhaps a limit between 1 and 50, nothing else. */
  lemma SearchInputValidatesIff(input: map<string, Json>)
    ensures Validates(SEARCH_INPUT_SCHEMA, Obj(input)) <==> (
      && "query" in input && input["query"].Str? && |input["query"].s| >= 1
      && input.Keys <= {"query", "limit"}
      && ("limit" in input ==>
           HasType("integer", input["limit"]) && 1.0 <= Numeric(input["limit"], false).value <= 50.0))
  {
    hide Validates, HasType, Numeric;
    var required := ["query"];
    ClosedObjectValidatesIff(SEARCH_PROPERTIES, required, input);
    assert required[0] == "query" && SEARCH_PROPERTIES.Keys == {"query", "limit"};
    if "query" in input { QueryValidatesIff(input["query"]); }
    if "limit" in input { LimitValidatesIff(input["limit"]); }
  }

  // ----- What the templates' outputs may be -----

  lemma TypeOfObject(properties: map<string, Json>, required: seq<string>, j: Json)
    ensures Validates(ClosedObject(properties, required), j) ==> j.Obj?
  {
    assert ClosedObject(properties, required).fields["type"] == Str("object");
  }

  lemma ScalarsValidateIff(j: Json, source: string)
    ensures Validates(STRING_SCHEMA, j) <==> j.Str?
    ensures Validates(ConstSchema(source), j) <==> j == Str(source)
    ensures Validates(OrNullSchema("string"), j) <==> j.Str? || j.Null?
    ensures Validates(OrNullSchema("integer"), j) <==> HasType("integer", j) || j.Null?
  {
    hide HasType, Validates;
    StringIff(j);
    ConstIff(j, source);
    OrNullIff("string", j);
    OrNullIff("integer", j);
    TypesOf(j);
  }

  lemma StringIff(j: Json)
    ensures Validates(STRING_SCHEMA, j) <==> j.Str?
  {
    hide HasType;
    assert STRING_SCHEMA.fields["type"] == Str("string");
    assert KeysHold(STRING_SCHEMA.fields, j) && BoundsHold(STRING_SCHEMA.fields, j);
    TypesOf(j);
  }

  lemma ConstIff(j: Json, source: string)
    ensures Validates(ConstSchema(source), j) <==> j == Str(source)
  {
    hide HasType, Equal;
    var s := ConstSchema(source).fields;
    assert s["type"] == Str("string") && KeysHold(s, j);
    assert BoundsHold(s, j) <==> Equal(j, Str(source), false);
    ConstIsEqual(j, source);
    TypesOf(j);
  }

  lemma TypesOf(j: Json)
    ensures (HasType("string", j) <==> j.Str?) && (HasType("null", j) <==> j.Null?)
  {
  }

  lemma ConstIsEqual(j: Json, source: string)
    ensures Equal(j, Str(source), false) <==> j == Str(source)
  {
  }

  lemma OrNullIff(name: string, j: Json)
    ensures Validates(OrNullSchema(name), j) <==> HasType(name, j) || HasType("null", j)
  {
    hide HasType;
    var s := OrNullSchema(name).fields;
    assert s["type"].items == [Str(name), Str("null")];
    assert s["type"].items[0].s == name && s["type"].items[1].s == "null";
    assert BoundsHold(s, j) && KeysHold(s, j);
  }

  /** Exactly one key, with a list of valid items. */
  lemma ListOutputIff(name: string, item: Json, j: Json)
    ensures Validates(ListOf(name, item), j) <==> (
      && j.Obj? && j.fields.Keys == {name} && j.fields[name].Arr?
      && forall i :: 0 <= i < |j.fields[name].items| ==> Validates(item, j.fields[name].items[i]))
  {
    hide Validates;
    TypeOfObject(map[name := ArrayOf(item)], [name], j);
    if j.Obj? {
      ClosedObjectValidatesIff(map[name := ArrayOf(item)], [name], j.fields);
      assert [name][0] == name;
      if name in j.fields {
        ArrayTypeIff(item, j.fields[name]);
        if j.fields[name].Arr? { ArrayValidatesIff(item, j.fields[name].items); }
      }
    }
  }

  lemma ArrayTypeIff(item: Json, j: Json)
    ensures Validates(ArrayOf(item), j) ==> j.Arr?
  {
    assert ArrayOf(item).fields["type"] == Str("array");
  }

  /** A closed object schema that requires all its properties asks for exactly these keys. */
  lemma ClosedExactlyIff(properties: map<string, Json>, required: seq<string>, j: Json)
    requires properties.Keys == Elems(required)
    ensures Validates(ClosedObject(properties, required), j) <==> (
      && j.Obj? && j.fields.Keys == properties.Keys
      && forall key :: key in properties ==> Validates(properties[key], j.fields[key]))
  {
    hide Validates, ClosedObject;
    TypeOfObject(properties, required, j);
    if j.Obj? {
      ClosedObjectValidatesIff(properties, required, j.fields);
      RequiredKeys(j.fields.Keys, properties.Keys, required);
    }
  }

  lemma RequiredKeys(keys: set<string>, allowed: set<string>, required: seq<string>)
    requires allowed == Elems(required)
    ensures ((forall i :: 0 <= i < |required| ==> required[i] in keys) && keys <= allowed) <==> keys == allowed
  {
    assert forall key :: key in required <==> key in allowed;
  }

  /** A contact of the template is an object of exactly four texts, one of them the source. */
  lemma ContactValidatesIff(j: Json)
    ensures Validates(CONTACT_SCHEMA, j) <==> (
      && j.Obj? && j.fields.Keys == {"display_name", "phone", "company", "source"}
      && j.fields["display_name"].Str? && j.fields["phone"].Str? && j.fields["company"].Str?
      && j.fields["source"] == Str("nethvoice"))
  {
    hide Validates, STRING_SCHEMA, ConstSchema, ClosedObject;
    var properties: map<string, Json> :=
      map["display_name" := STRING_SCHEMA, "phone" := STRING_SCHEMA, "company" := STRING_SCHEMA,
        "source" := ConstSchema("nethvoice")];
    ClosedExactlyIff(properties, ["display_name", "phone", "company", "source"], j);
    if j.Obj? && j.fields.Keys == properties.Keys {
      ScalarsValidateIff(j.fields["display_name"], "nethvoice");
      ScalarsValidateIff(j.fields["phone"], "nethvoice");
      ScalarsValidateIff(j.fields["company"], "nethvoice");
      ScalarsValidateIff(j.fields["source"], "nethvoice");
    }
  }

  /** A file of the template has exactly six fields: four texts, one of them the source, a size that is an
      integer or null, and a time that is text or null. */
  lemma FileValidatesIff(j: Json)
    ensures Validates(FILE_SCHEMA, j) <==> (
      && j.Obj? && j.fields.Keys == {"path", "display_name", "mime_type", "size", "modified_at", "source"}
      && j.fields["path"].Str? && j.fields["display_name"].Str? && j.fields["mime_type"].Str?
      && (HasType("integer", j.fields["size"]) || j.fields["size"].Null?)
      && (j.fields["modified_at"].Str? || j.fields["modified_at"].Null?)
      && j.fields["source"] == Str("nextcloud"))
  {
    hide Validates, HasType, STRING_SCHEMA, OrNullSchema, ConstSchema, ClosedObject;
    var properties: map<string, Json> :=
      map["path" := STRING_SCHEMA, "display_name" := STRING_SCHEMA, "mime_type" := STRING_SCHEMA,
          "size" := OrNullSchema("integer"), "modified_at" := OrNullSchema("string"),
            "source" := ConstSchema("nextcloud")];
    ClosedExactlyIff(properties, ["path", "display_name", "mime_type", "size", "modified_at", "source"], j);
    if j.Obj? && j.fields.Keys == properties.Keys {
      ScalarsValidateIff(j.fields["path"], "nextcloud");
      ScalarsValidateIff(j.fields["display_name"], "nextcloud");
      ScalarsValidateIff(j.fields["mime_type"], "nextcloud");
      ScalarsValidateIff(j.fields["size"], "nextcloud");
      ScalarsValidateIff(j.fields["modified_at"], "nextcloud");
      ScalarsValidateIff(j.fields["source"], "nextcloud");
    }
  }

  /** The outputs the two templates accept. */
  lemma TemplateOutputsIff(j: Json)
    ensures Validates(NETHVOICE_OUTPUT_SCHEMA, j) <==> (
      && j.Obj? && j.fields.Keys == {"contacts"} && j.fields["contacts"].Arr?
      && forall i :: 0 <= i < |j.fields["contacts"].items| ==>
           Validates(CONTACT_SCHEMA, j.fields["contacts"].items[i]))
    ensures Validates(NEXTCLOUD_OUTPUT_SCHEMA, j) <==> (
      && j.Obj? && j.fields.Keys == {"files"} && j.fields["files"].Arr?
      && forall i :: 0 <= i < |j.fields["files"].items| ==> Validates(FILE_SCHEMA, j.fields["files"].items[i]))
  {
    hide Validates, CONTACT_SCHEMA, FILE_SCHEMA;
    ListOutputIff("contacts", CONTACT_SCHEMA, j);
    ListOutputIff("files", FILE_SCHEMA, j);
  }
}
