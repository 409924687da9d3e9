/** The template schemas pass the shape check that runs before every validation
    (src/grantora/adapters/templates.py, src/grantora/capabilities/validation.py). */
module TemplateShapes {
  import opened Prelude
  import opened Json
  import opened JsonSchema
  import opened SchemaWalk

  /** The walk over the fields of an object adds up in any order. */
  lemma WalkFieldsSplit(j: Json, keys: set<string>, k: string, depth: nat)
    requires j.Obj? && keys <= j.fields.Keys && k in keys
    ensures WalkFields(j, keys, depth) == Plus(Walk(j.fields[k], depth), WalkFields(j, keys - {k}, depth))
  {
    hide Walk, WalkFields, Acceptable, Places, FieldPlaces;
    WalkFieldsCounts(j, keys, depth);
    WalkFieldsCounts(j, keys - {k}, depth);
    WalkCountsNodes(j.fields[k], depth);
    FieldPlacesSplit(j, keys, k);
    assert FieldsAcceptable(j, keys, depth)
      <==> Acceptable(j.fields[k], depth) && FieldsAcceptable(j, keys - {k}, depth);
  }

  /** A walk that succeeds and counts at most n nodes. */
  ghost predicate Fits(j: Json, depth: nat, n: nat) {
    Walk(j, depth).Some? && Walk(j, depth).value <= n
  }

  lemma {:induction false} FieldsFit(j: Json, keys: set<string>, depth: nat, n: nat)
    requires j.Obj? && keys <= j.fields.Keys && forall k :: k in keys ==> Fits(j.fields[k], depth, n)
    ensures WalkFields(j, keys, depth).Some? && WalkFields(j, keys, depth).value <= |keys| * n
  {
    hide Walk, WalkFields;
    if keys == {} {
      NoFields(j, depth);
    } else {
      var k :| k in keys;
      FieldsFit(j, keys - {k}, depth, n);
      WalkFieldsSplit(j, keys, k, depth);
      OneMore(|keys - {k}|, n);
    }
  }

  lemma NoFields(j: Json, depth: nat)
    requires j.Obj?
    ensures WalkFields(j, {}, depth) == Some(0)
  {
  }

  lemma OneMore(count: nat, n: nat)
    ensures (count + 1) * n == count * n + n
  {
  }

  /** An object of fields that fit n nodes each. */
  lemma ObjectFits(m: map<string, Json>, depth: nat, n: nat)
    requires depth <= MAX_DEPTH && !HoldsForbiddenKey(Obj(m)) && forall k :: k in m ==> Fits(m[k], depth + 1, n)
    ensures Fits(Obj(m), depth, 1 + |m| * n)
  {
    hide WalkFields, HoldsForbiddenKey;
    FieldsFit(Obj(m), m.Keys, depth + 1, n);
    assert |m.Keys| == |m|;
  }

  lemma ScalarFits(j: Json, depth: nat)
    requires depth <= MAX_DEPTH && !j.Obj? && !j.Arr?
    ensures Fits(j, depth, 1)
  {
  }

  lemma {:induction false} NamesItemsFit(names: seq<string>, n: nat, depth: nat)
    requires n <= |names| && depth <= MAX_DEPTH
    ensures WalkItems(Names(names), n, depth) == Some(n)
  {
    if n > 0 {
      NamesItemsFit(names, n - 1, depth);
    }
  }

  lemma NamesFit(names: seq<string>, depth: nat)
    requires depth < MAX_DEPTH
    ensures Fits(Names(names), depth, 1 + |names|)
  {
    NamesItemsFit(names, |names|, depth + 1);
  }

  lemma NoReference(j: Json, keys: set<string>)
    requires j.Obj? && j.fields.Keys == keys && "$ref" !in keys && "$dynamicRef" !in keys
    ensures !HoldsForbiddenKey(j)
  {
    assert FORBIDDEN_KEYS == {"$ref", "$dynamicRef"};
  }

  /** A closed object costs its properties, its required names and four nodes more. */
  lemma ClosedObjectFits(properties: map<string, Json>, required: seq<string>, depth: nat, n: nat)
    requires depth + 2 <= MAX_DEPTH && Fits(Obj(properties), depth + 1, n)
    ensures Fits(ClosedObject(properties, required), depth, n + |required| + 4)
  {
    hide Walk, WalkFields, Names, HoldsForbiddenKey;
    var j := ClosedObject(properties, required);
    var all := {"type", "properties", "required", "additionalProperties"};
    assert j.fields.Keys == all;
    NoReference(j, all);
    WalkFieldsSplit(j, all, "properties", depth + 1);
    WalkFieldsSplit(j, all - {"properties"}, "required", depth + 1);
    ScalarFits(j.fields["type"], depth + 1);
    ScalarFits(j.fields["additionalProperties"], depth + 1);
    NamesFit(required, depth + 1);
    FieldsFit(j, all - {"properties"} - {"required"}, depth + 1, 1);
    assert all - {"properties"} - {"required"} == {"type", "additionalProperties"};
    assert |{"type", "additionalProperties"}| == 2;
    hide ClosedObject;
    WholeFits(j, depth, n + |required| + 3);
  }

  lemma WholeFits(j: Json, depth: nat, n: nat)
    requires j.Obj? && depth <= MAX_DEPTH && !HoldsForbiddenKey(j)
    requires WalkFields(j, j.fields.Keys, depth + 1).Some? && WalkFields(j, j.fields.Keys, depth + 1).value <= n
    ensures Fits(j, depth, n + 1)
  {
    hide WalkFields, HoldsForbiddenKey;
  }

  lemma ArrayOfFits(item: Json, depth: nat, n: nat)
    requires depth < MAX_DEPTH && Fits(item, depth + 1, n)
    ensures Fits(ArrayOf(item), depth, 1 + 2 * (n + 1))
  {
    hide Walk, WalkFields, HoldsForbiddenKey;
    var m := ArrayOf(item).fields;
    ScalarFits(m["type"], depth + 1);
    assert m.Keys == {"type", "items"};
    NoReference(Obj(m), {"type", "items"});
    assert |m| == |m.Keys|;
    ObjectFits(m, depth, n + 1);
  }

  lemma ListOfFits(name: string, item: Json, n: nat)
    requires name != "$ref" && name != "$dynamicRef" && Fits(item, 3, n)
    ensures Fits(ListOf(name, item), 0, 9 + 2 * n)
  {
    hide Fits, ArrayOf, ClosedObject, HoldsForbiddenKey;
    ArrayOfFits(item, 2, n);
    var m := map[name := ArrayOf(item)];
    assert m.Keys == {name} && |m| == |m.Keys|;
    NoReference(Obj(m), {name});
    ObjectFits(m, 1, 1 + 2 * (n + 1));
    ClosedObjectFits(m, [name], 0, 1 + (1 + 2 * (n + 1)));
  }

  lemma PropertySchemaFits(m: map<string, Json>, depth: nat)
    requires depth < MAX_DEPTH && !HoldsForbiddenKey(Obj(m)) && |m| <= 3
    requires forall k :: k in m ==> !m[k].Obj? && !m[k].Arr?
    ensures Fits(Obj(m), depth, 4)
  {
    hide Walk, WalkFields, HoldsForbiddenKey;
    forall k | k in m ensures Fits(m[k], depth + 1, 1) { ScalarFits(m[k], depth + 1); }
    ObjectFits(m, depth, 1);
  }

  lemma OrNullFits(name: string, depth: nat)
    requires depth + 2 <= MAX_DEPTH
    ensures Fits(OrNullSchema(name), depth, 4)
  {
    hide Fits, HoldsForbiddenKey;
    var m := OrNullSchema(name).fields;
    assert m["type"] == Names([name, "null"]);
    NamesFit([name, "null"], depth + 1);
    assert m.Keys == {"type"} && |m| == |m.Keys|;
    NoReference(Obj(m), {"type"});
    ObjectFits(m, depth, 3);
  }

  lemma PassesIfFits(j: Json, n: nat)
    requires j.Obj? && n <= MAX_NODES && Fits(j, 0, n)
    requires Get(j.fields, "type") == Str("object") && Get(j.fields, "additionalProperties") == Bool(false)
    ensures ShapeOk(j.fields)
  {
    hide Walk;
  }

  lemma SearchInputPasses()
    ensures ShapeOk(SEARCH_INPUT_SCHEMA.fields)
  {
    hide Fits, ShapeOk, HoldsForbiddenKey, ClosedObject;
    SearchPropertiesFit();
    assert SEARCH_PROPERTIES.Keys == {"query", "limit"};
    assert |SEARCH_PROPERTIES| == |SEARCH_PROPERTIES.Keys| == 2;
    NoReference(Obj(SEARCH_PROPERTIES), {"query", "limit"});
    ObjectFits(SEARCH_PROPERTIES, 1, 4);
    ClosedObjectFits(SEARCH_PROPERTIES, ["query"], 0, 9);
    ClosedObjectPasses(SEARCH_PROPERTIES, ["query"], 14);
  }

  lemma SearchPropertiesFit()
    ensures Fits(QUERY_SCHEMA, 2, 4) && Fits(LIMIT_SCHEMA, 2, 4)
  {
    hide Fits, HoldsForbiddenKey;
    var query, limit := QUERY_SCHEMA.fields, LIMIT_SCHEMA.fields;
    assert query.Keys == {"type", "minLength"} && |query| == |query.Keys| == 2;
    assert limit.Keys == {"type", "minimum", "maximum"} && |limit| == |limit.Keys| == 3;
    NoReference(QUERY_SCHEMA, {"type", "minLength"});
    NoReference(LIMIT_SCHEMA, {"type", "minimum", "maximum"});
    PropertySchemaFits(query, 2);
    PropertySchemaFits(limit, 2);
  }

  lemma StringSchemasFit(source: string)
    ensures Fits(STRING_SCHEMA, 5, 4) && Fits(ConstSchema(source), 5, 4)
  {
    hide Fits, HoldsForbiddenKey;
    var text, constant := STRING_SCHEMA.fields, ConstSchema(source).fields;
    assert text.Keys == {"type"} && |text| == |text.Keys| == 1;
    assert constant.Keys == {"type", "const"} && |constant| == |constant.Keys| == 2;
    NoReference(STRING_SCHEMA, {"type"});
    NoReference(ConstSchema(source), {"type", "const"});
    PropertySchemaFits(text, 5);
    PropertySchemaFits(constant, 5);
  }

  lemma ClosedObjectPasses(properties: map<string, Json>, required: seq<string>, n: nat)
    requires n <= MAX_NODES && Fits(ClosedObject(properties, required), 0, n)
    ensures ShapeOk(ClosedObject(properties, required).fields)
  {
    hide Fits, ShapeOk;
    PassesIfFits(ClosedObject(properties, required), n);
  }

  /** A row schema: up to six properties of at most four nodes each. */
  lemma RowFits(properties: map<string, Json>, required: seq<string>)
    requires "$ref" !in properties && "$dynamicRef" !in properties && |properties| <= 6
    requires forall k :: k in properties ==> Fits(properties[k], 5, 4)
    ensures Fits(ClosedObject(properties, required), 3, 29 + |required|)
  {
    hide Fits, HoldsForbiddenKey, ClosedObject;
    NoReference(Obj(properties), properties.Keys);
    ObjectFits(properties, 4, 4);
    LooserFits(Obj(properties), 4, 1 + |properties| * 4, 25);
    ClosedObjectFits(properties, required, 3, 25);
  }

  lemma LooserFits(j: Json, depth: nat, n: nat, m: nat)
    requires n <= m && Fits(j, depth, n)
    ensures Fits(j, depth, m)
  {
    hide Walk;
  }

  lemma ListPasses(name: string, properties: map<string, Json>, required: seq<string>)
    requires name != "$ref" && name != "$dynamicRef" && |required| <= 6
    requires Fits(ClosedObject(properties, required), 3, 29 + |required|)
    ensures ShapeOk(ListOf(name, ClosedObject(properties, required)).fields)
  {
    hide Fits, ShapeOk, ArrayOf;
    var item := ClosedObject(properties, required);
    ListOfFits(name, item, 29 + |required|);
    ClosedObjectPasses(map[name := ArrayOf(item)], [name], 67 + 2 * |required|);
  }

  lemma ContactOutputPasses()
    ensures ShapeOk(NETHVOICE_OUTPUT_SCHEMA.fields)
  {
    hide Fits, ShapeOk, ListOf, ClosedObject, STRING_SCHEMA, ConstSchema;
    var properties :=
      map["display_name" := STRING_SCHEMA, "phone" := STRING_SCHEMA, "company" := STRING_SCHEMA,
        "source" := ConstSchema("nethvoice")];
    StringSchemasFit("nethvoice");
    assert properties.Keys == {"display_name", "phone", "company", "source"};
    assert |properties| == |properties.Keys| == 4;
    RowFits(properties, ["display_name", "phone", "company", "source"]);
    ListPasses("contacts", properties, ["display_name", "phone", "company", "source"]);
  }

  lemma FileOutputPasses()
    ensures ShapeOk(NEXTCLOUD_OUTPUT_SCHEMA.fields)
  {
    hide Fits, ShapeOk, ListOf, ClosedObject, STRING_SCHEMA, ConstSchema, OrNullSchema;
    var properties :=
      map["path" := STRING_SCHEMA, "display_name" := STRING_SCHEMA, "mime_type" := STRING_SCHEMA,
          "size" := OrNullSchema("integer"), "modified_at" := OrNullSchema("string"),
            "source" := ConstSchema("nextcloud")];
    StringSchemasFit("nextcloud");
    OrNullFits("integer", 5);
    OrNullFits("string", 5);
    assert properties.Keys == {"path", "display_name", "mime_type", "size", "modified_at", "source"};
    assert |properties| == |properties.Keys| == 6;
    RowFits(properties, ["path", "display_name", "mime_type", "size", "modified_at", "source"]);
    ListPasses("files", properties, ["path", "display_name", "mime_type", "size", "modified_at", "source"]);
  }

  /** The schemas the templates carry. */
  predicate IsTemplateSchema(schema: Json) {
    schema == SEARCH_INPUT_SCHEMA || schema == NETHVOICE_OUTPUT_SCHEMA || schema == NEXTCLOUD_OUTPUT_SCHEMA
  }

  /** None of the template schemas is ever refused for its shape. */
  lemma TemplateSchemasPass(schema: Json)
    requires IsTemplateSchema(schema)
    ensures schema.Obj? && ShapeOk(schema.fields)
  {
    hide ShapeOk;
    SearchInputPasses();
    ContactOutputPasses();
    FileOutputPasses();
  }
}
