/** The schema subset told without its checks: what a value denotes in Python, which schemas belong to the
    subset, and which values a schema describes. Both checks decide exactly that. */
module SchemaMeaning {
  import opened Prelude
  import opened SchemaValidation

  // --- what a value denotes ---

  /** Numbers of every kind are amounts, and an object does not remember the order of its keys. */
  datatype Meaning = Nothing | Amount(real) | Text(string) | List(seq<Meaning>) | Table(entries: map<string, Meaning>)

  function Denote(v: Json): Meaning {
    match v
    case Null => Nothing
    case Bool(truth) => Amount(if truth then 1.0 else 0.0)
    case Int(number) => Amount(number as real)
    case Float(value) => Amount(value)
    case Str(text) => Text(text)
    case Arr(items) => List(seq(|items|, i requires 0 <= i < |items| => Denote(items[i])))
    case Obj(_, fields) => Table(map key | key in fields :: Denote(fields[key]))
  }

  /** Two values are equal in Python if and only if they denote the same. */
  lemma {:induction false} EqualIsSameMeaning(a: Json, b: Json)
    ensures Equal(a, b) <==> Denote(a) == Denote(b)
    decreases a
  {
    match (a, b) {
      case (Arr(s), Arr(t)) =>
        if |s| == |t| {
          forall i | 0 <= i < |s| ensures Equal(s[i], t[i]) <==> Denote(s[i]) == Denote(t[i]) {
            EqualIsSameMeaning(s[i], t[i]);
          }
          ListsDenote(s, t);
        } else {
          assert Denote(a) != Denote(b);
        }
      case (Obj(_, s), Obj(_, t)) =>
        if s.Keys == t.Keys {
          forall key | key in s ensures Equal(s[key], t[key]) <==> Denote(s[key]) == Denote(t[key]) {
            EqualIsSameMeaning(s[key], t[key]);
          }
          TablesDenote(s, t);
        } else {
          TableKeys(s);
          TableKeys(t);
        }
      case _ =>
    }
  }

  lemma ListsDenote(s: seq<Json>, t: seq<Json>)
    requires |s| == |t|
    ensures Denote(Arr(s)) == Denote(Arr(t)) <==> forall i :: 0 <= i < |s| ==> Denote(s[i]) == Denote(t[i])
  {
    var p := seq(|s|, i requires 0 <= i < |s| => Denote(s[i]));
    var q := seq(|t|, i requires 0 <= i < |t| => Denote(t[i]));
    assert Denote(Arr(s)) == List(p) && Denote(Arr(t)) == List(q);
    if p == q {
      forall i | 0 <= i < |s| ensures Denote(s[i]) == Denote(t[i]) { assert p[i] == q[i]; }
    }
  }

  lemma TablesDenote(s: map<string, Json>, t: map<string, Json>)
    requires s.Keys == t.Keys
    ensures forall o, u :: Denote(Obj(o, s)) == Denote(Obj(u, t)) <==> forall key :: key in s ==> Denote(s[key]) == Denote(t[key])
  {
    var p := map key | key in s :: Denote(s[key]);
    var q := map key | key in t :: Denote(t[key]);
    assert forall o :: Denote(Obj(o, s)) == Table(p) && Denote(Obj(o, t)) == Table(q);
    if p == q {
      forall key | key in s ensures Denote(s[key]) == Denote(t[key]) { assert p[key] == q[key]; }
    }
  }

  lemma TableKeys(s: map<string, Json>)
    ensures forall o :: Denote(Obj(o, s)).Table? && Denote(Obj(o, s)).entries.Keys == s.Keys
  {}

  // --- which schemas belong to the subset ---

  const KEYS := {"type", "properties", "required", "additionalProperties", "items", "maxLength", "minLength", "enum"}
  const SCALARS := {"string", "integer", "number", "boolean", "null"}

  /** The key is absent, or its value is null or a number that is not negative. */
  ghost predicate BoundIsFine(fields: map<string, Json>, key: string) {
    key in fields ==> fields[key].Null? || (fields[key].Int? && fields[key].number >= 0)
  }

  ghost function PropertyNames(fields: map<string, Json>): set<string> {
    if "properties" in fields && fields["properties"].Obj? then fields["properties"].fields.Keys else {}
  }

  /** What an object schema says about its properties. */
  ghost predicate ObjectIsFine(fields: map<string, Json>) {
    ("properties" in fields ==> fields["properties"].Obj? && |fields["properties"].fields| <= 64)
    && ("required" in fields ==>
          fields["required"].Arr?
          && forall i :: 0 <= i < |fields["required"].items| ==>
               fields["required"].items[i].Str? && fields["required"].items[i].text in PropertyNames(fields))
    && ("additionalProperties" in fields ==> fields["additionalProperties"] == Bool(false))
  }

  /** What every schema says about itself. */
  ghost predicate RootIsFine(schema: Json) {
    schema.Obj? && schema.fields.Keys <= KEYS
    && var fields := schema.fields;
       "type" in fields && fields["type"].Str?
       && ("enum" in fields ==> fields["enum"].Null? || (fields["enum"].Arr? && 1 <= |fields["enum"].items| <= 64))
       && BoundIsFine(fields, "maxLength") && BoundIsFine(fields, "minLength")
  }

  /** A schema of the subset, nested at most `levels` deep. */
  ghost predicate InSubset(schema: Json, levels: int)
    decreases schema
  {
    levels >= 0 && RootIsFine(schema)
    && var fields := schema.fields;
       var kind := fields["type"].text;
       if kind == "object" then
         ObjectIsFine(fields)
         && ("properties" in fields ==>
               forall name :: name in fields["properties"].fields ==> InSubset(fields["properties"].fields[name], levels - 1))
       else if kind == "array" then "items" in fields && InSubset(fields["items"], levels - 1)
       else kind in SCALARS && "properties" !in fields && "required" !in fields && "items" !in fields
  }

  lemma ObjectShapeLaw(schema: Json)
    requires schema.Obj?
    ensures ObjectShapeFits(schema) <==> ObjectIsFine(schema.fields)
  {
    if ObjectShapeFits(schema) { FittingIsFine(schema); }
    if ObjectIsFine(schema.fields) { FineIsFitting(schema); }
  }

  lemma FittingIsFine(schema: Json)
    requires schema.Obj? && ObjectShapeFits(schema)
    ensures ObjectIsFine(schema.fields)
  {
    PartsAre(schema);
    var fields := schema.fields;
    if "required" in fields {
      var names := fields["required"].items;
      forall i | 0 <= i < |names|
        ensures names[i].Str? && names[i].text in PropertyNames(fields)
      {
        assert names[i] == Required(schema)[i];
      }
    }
  }

  lemma FineIsFitting(schema: Json)
    requires schema.Obj? && ObjectIsFine(schema.fields)
    ensures ObjectShapeFits(schema)
  {
    PartsAre(schema);
  }

  lemma PartsAre(schema: Json)
    requires schema.Obj?
    ensures
      var fields := schema.fields;
      Required(schema)
        == (if "required" in fields && fields["required"].Arr? then fields["required"].items else [])
      && Properties(schema)
         == (if "properties" in fields && fields["properties"].Obj? then fields["properties"].fields else map[])
  {}

  lemma RootLaw(schema: Json, depth: nat)
    ensures ValidateSchema(schema, depth) == Accept ==> depth <= 8 && RootIsFine(schema)
    ensures depth <= 8 && RootIsFine(schema) ==>
      (ValidateSchema(schema, depth) == Accept <==>
         match schema.fields["type"].text
         case "object" =>
           ObjectShapeFits(schema)
           && ("properties" in schema.fields ==> ValidateProperties(schema, 0, depth + 1) == Accept)
         case "array" => "items" in schema.fields && ValidateSchema(schema.fields["items"], depth + 1) == Accept
         case kind =>
           kind in SCALARS && "properties" !in schema.fields && "required" !in schema.fields && "items" !in schema.fields)
  {
    hide ObjectShapeFits, ValidateProperties;
    if schema.Obj? {
      assert "properties" in schema.fields.Keys || "required" in schema.fields.Keys || "items" in schema.fields.Keys
        <==> {"properties", "required", "items"} * schema.fields.Keys != {} by {
        NoneOfThree(schema.fields.Keys);
      }
    }
  }

  lemma NoneOfThree(keys: set<string>)
    ensures "properties" in keys || "required" in keys || "items" in keys
      <==> {"properties", "required", "items"} * keys != {}
  {
    var common := {"properties", "required", "items"} * keys;
    if key :| key in common {}
    if "properties" in keys { assert "properties" in common; }
    if "required" in keys { assert "required" in common; }
    if "items" in keys { assert "items" in common; }
  }

  lemma {:induction false} PropertiesAccepted(schema: Json, i: nat, depth: nat)
    requires schema.Obj? && "properties" in schema.fields && schema.fields["properties"].Obj?
    ensures
      var properties := schema.fields["properties"];
      ValidateProperties(schema, i, depth) == Accept
      <==> forall k :: i <= k < |properties.order| && properties.order[k] in properties.fields ==>
             ValidateSchema(properties.fields[properties.order[k]], depth) == Accept
    decreases |schema.fields["properties"].order| - i
  {
    hide ValidateSchema;
    if i < |schema.fields["properties"].order| { PropertiesAccepted(schema, i + 1, depth); }
  }

  lemma PropertiesByName(schema: Json, depth: nat)
    requires schema.Obj? && "properties" in schema.fields && WellFormed(schema.fields["properties"])
    requires schema.fields["properties"].Obj?
    ensures
      var properties := schema.fields["properties"];
      ValidateProperties(schema, 0, depth) == Accept
      <==> forall name :: name in properties.fields ==> ValidateSchema(properties.fields[name], depth) == Accept
  {
    hide ValidateSchema;
    PropertiesAccepted(schema, 0, depth);
    var properties := schema.fields["properties"];
    if ValidateProperties(schema, 0, depth) == Accept {
      forall name | name in properties.fields ensures ValidateSchema(properties.fields[name], depth) == Accept {
        var k :| 0 <= k < |properties.order| && properties.order[k] == name;
      }
    }
  }

  /** The schema check accepts exactly the schemas of the subset whose nesting fits below its depth. */
  lemma {:induction false} SchemasAreAcceptedExactly(schema: Json, depth: nat)
    requires WellFormed(schema)
    ensures ValidateSchema(schema, depth) == Accept <==> InSubset(schema, 8 - depth)
    decreases schema
  {
    RootLaw(schema, depth);
    hide ValidateSchema, ValidateProperties, ObjectIsFine, RootIsFine;
    if depth <= 8 && RootIsFine(schema) {
      RootHasType(schema);
      if schema.fields["type"].text == "object" && "properties" in schema.fields {
        ObjectShapeLaw(schema);
        if ObjectIsFine(schema.fields) {
          var properties := schema.fields["properties"];
          assert WellFormed(properties);
          PropertiesByName(schema, depth + 1);
          forall name | name in properties.fields
            ensures ValidateSchema(properties.fields[name], depth + 1) == Accept
              <==> InSubset(properties.fields[name], 8 - depth - 1)
          {
            SchemasAreAcceptedExactly(properties.fields[name], depth + 1);
          }
        }
      } else if schema.fields["type"].text == "object" {
        ObjectShapeLaw(schema);
      } else if schema.fields["type"].text == "array" && "items" in schema.fields {
        assert WellFormed(schema.fields["items"]);
        SchemasAreAcceptedExactly(schema.fields["items"], depth + 1);
      }
    }
  }

  lemma RootHasType(schema: Json)
    requires RootIsFine(schema)
    ensures schema.Obj? && "type" in schema.fields && schema.fields["type"].Str?
  {}

  // --- which values a schema describes ---

  /** The names of the types a value has. */
  ghost predicate Typed(v: Json, kind: string) {
    match v
    case Null => kind == "null"
    case Bool(_) => kind == "boolean"
    case Int(_) => kind == "integer" || kind == "number"
    case Float(_) => kind == "number"
    case Str(_) => kind == "string"
    case Arr(_) => kind == "array"
    case Obj(_, _) => kind == "object"
  }

  ghost predicate Described(v: Json, schema: Json)
    decreases v
  {
    schema.Obj?
    && var about := schema.fields;
       "type" in about && about["type"].Str? && Typed(v, about["type"].text)
       && ("enum" in about ==>
             about["enum"].Arr?
             && exists i :: 0 <= i < |about["enum"].items| && Denote(v) == Denote(about["enum"].items[i]))
       && match v
          case Obj(_, fields) =>
            fields.Keys <= PropertyNames(about)
            && (forall key :: key in fields ==> Described(fields[key], about["properties"].fields[key]))
            && ("required" in about && about["required"].Arr? ==>
                  forall i :: 0 <= i < |about["required"].items| ==>
                    about["required"].items[i].Str? && about["required"].items[i].text in fields)
          case Arr(items) =>
            items != [] ==> "items" in about && forall i :: 0 <= i < |items| ==> Described(items[i], about["items"])
          case Str(text) =>
            ("minLength" in about && about["minLength"].Int? ==> about["minLength"].number <= |text|)
            && ("maxLength" in about && about["maxLength"].Int? ==> |text| <= about["maxLength"].number)
          case _ => true
  }

  lemma ListedByMeaning(v: Json, values: seq<Json>)
    ensures Member(v, values) <==> exists i :: 0 <= i < |values| && Denote(v) == Denote(values[i])
  {
    hide Equal, Denote;
    forall i | 0 <= i < |values| ensures Equal(v, values[i]) <==> Denote(v) == Denote(values[i]) {
      EqualIsSameMeaning(v, values[i]);
    }
  }

  lemma TypeLaw(v: Json, schema: Json)
    ensures HasType(v, TypeOf(schema)) <==>
      schema.Obj? && "type" in schema.fields && schema.fields["type"].Str? && Typed(v, schema.fields["type"].text)
  {}

  lemma KeysLaw(v: Json, schema: Json)
    requires v.Obj? && schema.Obj?
    ensures
      var about := schema.fields;
      KeysFit(v, schema) <==>
        ("required" in about && about["required"].Arr? ==>
           forall i :: 0 <= i < |about["required"].items| ==>
             about["required"].items[i].Str? && about["required"].items[i].text in v.fields)
        && v.fields.Keys <= PropertyNames(about)
  {
    PartsAre(schema);
    hide Required, Properties;
  }

  lemma NoItems(v: Json, schema: Json)
    requires v.Arr? && Entry(schema, "items").None?
    ensures Conforms(v, schema) ==> v.items == []
  {
    if v.items != [] { assert v.items[0] in v.items; }
  }

  lemma LengthLaw(text: string, schema: Json)
    requires schema.Obj?
    ensures
      var about := schema.fields;
      LengthFits(text, schema) <==>
        ("minLength" in about && about["minLength"].Int? ==> about["minLength"].number <= |text|)
        && ("maxLength" in about && about["maxLength"].Int? ==> |text| <= about["maxLength"].number)
  {}

  lemma {:induction false} ConformingIsDescribed(v: Json, schema: Json)
    ensures Conforms(v, schema) <==> Described(v, schema)
    decreases v
  {
    TypeLaw(v, schema);
    hide Member, Denote, Typed, HasType;
    if schema.Obj? {
      if Entry(schema, "enum").Some? && Entry(schema, "enum").value.Arr? {
        ListedByMeaning(v, Entry(schema, "enum").value.items);
      }
      if v.Obj? {
        KeysLaw(v, schema);
        hide KeysFit;
        forall key | key in v.fields && key in Properties(schema)
          ensures Conforms(v.fields[key], Properties(schema)[key]) <==> Described(v.fields[key], Properties(schema)[key])
        {
          ConformingIsDescribed(v.fields[key], Properties(schema)[key]);
        }
      } else if v.Str? {
        LengthLaw(v.text, schema);
        hide LengthFits;
      } else if v.Arr? && Entry(schema, "items").None? {
        NoItems(v, schema);
      } else if v.Arr? {
        forall i | 0 <= i < |v.items|
          ensures Conforms(v.items[i], Entry(schema, "items").value) <==> Described(v.items[i], Entry(schema, "items").value)
        {
          ConformingIsDescribed(v.items[i], Entry(schema, "items").value);
        }
      }
    }
  }

  /** By a schema of the subset, the value check accepts exactly the values that the schema describes. */
  lemma ValuesAreAcceptedExactly(v: Json, schema: Json)
    requires WellFormed(v) && WellFormed(schema) && InSubset(schema, 8)
    ensures ValidateValue(v, schema, 0) == Accept <==> Described(v, schema)
  {
    SchemasAreAcceptedExactly(schema, 0);
    AcceptedSchemasAreDecided(v, schema);
    ConformingIsDescribed(v, schema);
  }
}
