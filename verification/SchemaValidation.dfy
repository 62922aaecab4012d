/** The schema subset of the gateway: the check a schema must pass, the check a value must pass, and
    a declarative meaning of schemas that knows nothing of recursion depth. */
module SchemaValidation {
  import opened Prelude

  /** A parsed JSON value as Python holds it. Objects are dictionaries: their keys in insertion order
      and the value of each. */
  datatype Json =
    | Null
    | Bool(truth: bool)
    | Int(number: int)
    | Float(value: real)
    | Str(text: string)
    | Arr(items: seq<Json>)
    | Obj(order: seq<string>, fields: map<string, Json>)

  /** How a check ends: it returns, it raises the gateway's own error, or another exception escapes. */
  datatype Verdict = Accept | Reject | Crash

  const MAX_DEPTH := 8
  const SCHEMA_TYPES := {"object", "array", "string", "integer", "number", "boolean", "null"}
  const SCHEMA_KEYS :=
    {"type", "properties", "required", "additionalProperties", "items", "maxLength", "minLength", "enum"}

  /** The order of a dictionary lists each of its keys once. */
  predicate Dictionary(order: seq<string>, fields: map<string, Json>) {
    (forall i :: 0 <= i < |order| ==> order[i] in fields)
    && (forall key :: key in fields ==> key in order)
    && forall i, j :: 0 <= i < j < |order| ==> order[i] != order[j]
  }

  predicate WellFormed(v: Json) {
    match v
    case Arr(items) => forall i :: 0 <= i < |items| ==> WellFormed(items[i])
    case Obj(order, fields) => Dictionary(order, fields) && forall key :: key in fields ==> WellFormed(fields[key])
    case _ => true
  }

  // --- Python's equality on such values ---

  predicate Numeric(v: Json) {
    v.Bool? || v.Int? || v.Float?
  }

  function Number(v: Json): real
    requires Numeric(v)
  {
    match v
    case Bool(truth) => if truth then 1.0 else 0.0
    case Int(number) => number as real
    case Float(value) => value
  }

  predicate Equal(a: Json, b: Json)
    decreases a
  {
    if Numeric(a) && Numeric(b) then Number(a) == Number(b)
    else
      match (a, b)
      case (Null, Null) => true
      case (Str(s), Str(t)) => s == t
      case (Arr(s), Arr(t)) => |s| == |t| && forall i :: 0 <= i < |s| ==> Equal(s[i], t[i])
      case (Obj(_, s), Obj(_, t)) => s.Keys == t.Keys && forall key :: key in s ==> Equal(s[key], t[key])
      case _ => false
  }

  predicate Member(v: Json, values: seq<Json>) {
    exists i :: 0 <= i < |values| && Equal(v, values[i])
  }

  // --- reading a schema ---

  function Entry(schema: Json, key: string): (entry: Option<Json>)
    ensures entry.Some? ==> schema.Obj? && key in schema.fields && entry.value == schema.fields[key]
  {
    if schema.Obj? && key in schema.fields then Some(schema.fields[key]) else None
  }

  function TypeOf(schema: Json): string {
    if Entry(schema, "type").Some? && Entry(schema, "type").value.Str? then Entry(schema, "type").value.text else ""
  }

  /** The property schemas, empty when the key is missing. */
  function Properties(schema: Json): map<string, Json> {
    var entry := Entry(schema, "properties");
    if entry.Some? && entry.value.Obj? then entry.value.fields else map[]
  }

  function Required(schema: Json): seq<Json> {
    var entry := Entry(schema, "required");
    if entry.Some? && entry.value.Arr? then entry.value.items else []
  }

  function Bound(schema: Json, key: string): Option<int> {
    var entry := Entry(schema, key);
    if entry.Some? && entry.value.Int? then Some(entry.value.number) else None
  }

  // --- validate_schema ---

  predicate EnumFits(schema: Json) {
    var entry := Entry(schema, "enum");
    entry.None? || entry.value.Null? || (entry.value.Arr? && 1 <= |entry.value.items| <= 64)
  }

  predicate ObjectShapeFits(schema: Json) {
    var properties, required, additional :=
      Entry(schema, "properties"), Entry(schema, "required"), Entry(schema, "additionalProperties");
    (properties.None? || (properties.value.Obj? && |properties.value.fields| <= 64))
    && (required.None? || required.value.Arr?)
    && (forall i :: 0 <= i < |Required(schema)| ==>
          Required(schema)[i].Str? && Required(schema)[i].text in Properties(schema))
    && (additional.None? || additional.value == Bool(false))
  }

  predicate BoundFits(schema: Json, key: string) {
    var entry := Entry(schema, key);
    entry.None? || entry.value.Null? || (entry.value.Int? && entry.value.number >= 0)
  }

  function Then(first: Verdict, second: Verdict): Verdict {
    if first == Accept then second else first
  }

  function ValidateSchema(schema: Json, depth: nat): Verdict
    decreases schema, 1
  {
    if depth > MAX_DEPTH || !schema.Obj? then Reject
    else if !(schema.fields.Keys <= SCHEMA_KEYS) then Reject
    else
      var kind := Entry(schema, "type");
      // Looking an unhashable value up in a set raises before anything is decided.
      if kind.Some? && (kind.value.Arr? || kind.value.Obj?) then Crash
      else if TypeOf(schema) !in SCHEMA_TYPES || !EnumFits(schema) then Reject
      else
        var nested :=
          if TypeOf(schema) == "object" then
            if !ObjectShapeFits(schema) then Reject
            else if "properties" !in schema.fields then Accept
            else ValidateProperties(schema, 0, depth + 1)
          else if TypeOf(schema) == "array" then
            if "items" !in schema.fields then Reject else ValidateSchema(schema.fields["items"], depth + 1)
          else if {"properties", "required", "items"} * schema.fields.Keys != {} then Reject
          else Accept;
        Then(nested,
             if BoundFits(schema, "maxLength") && BoundFits(schema, "minLength") then Accept else Reject)
  }

  function ValidateProperties(schema: Json, i: nat, depth: nat): Verdict
    requires schema.Obj? && "properties" in schema.fields && schema.fields["properties"].Obj?
    decreases schema, 0, |schema.fields["properties"].order| - i
  {
    var properties := schema.fields["properties"];
    if i >= |properties.order| then Accept
    else
      Then(if properties.order[i] in properties.fields
           then ValidateSchema(properties.fields[properties.order[i]], depth) else Accept,
           ValidateProperties(schema, i + 1, depth))
  }

  // --- validate_structured_value ---

  predicate HasType(v: Json, kind: string) {
    match kind
    case "object" => v.Obj?
    case "array" => v.Arr?
    case "string" => v.Str?
    case "integer" => v.Int?
    case "number" => v.Int? || v.Float?
    case "boolean" => v.Bool?
    case "null" => v.Null?
    case _ => false
  }

  predicate LengthFits(text: string, schema: Json) {
    var minimum, maximum := Bound(schema, "minLength"), Bound(schema, "maxLength");
    (minimum.None? || minimum.value <= |text|) && (maximum.None? || |text| <= maximum.value)
  }

  predicate KeysFit(v: Json, schema: Json)
    requires v.Obj?
  {
    (forall i :: 0 <= i < |Required(schema)| ==>
      Required(schema)[i].Str? && Required(schema)[i].text in v.fields)
    && v.fields.Keys <= Properties(schema).Keys
  }

  function ValidateValue(v: Json, schema: Json, depth: nat): Verdict
    decreases v, 1
  {
    if depth > MAX_DEPTH then Reject
    else if TypeOf(schema) !in SCHEMA_TYPES then Crash
    else if !HasType(v, TypeOf(schema)) then Reject
    else
      var listed := Entry(schema, "enum");
      if listed.Some? && !listed.value.Arr? then Crash
      else if listed.Some? && !Member(v, listed.value.items) then Reject
      else
        match v
        case Obj(_, _) => if !KeysFit(v, schema) then Reject else ValidateFields(v, 0, schema, depth + 1)
        case Arr(_) => ValidateItems(v, 0, schema, depth + 1)
        case Str(text) => if LengthFits(text, schema) then Accept else Reject
        case _ => Accept
  }

  function ValidateFields(v: Json, i: nat, schema: Json, depth: nat): Verdict
    requires v.Obj?
    decreases v, 0, |v.order| - i
  {
    if i >= |v.order| then Accept
    else
      Then(if v.order[i] in v.fields && v.order[i] in Properties(schema)
           then ValidateValue(v.fields[v.order[i]], Properties(schema)[v.order[i]], depth) else Crash,
           ValidateFields(v, i + 1, schema, depth))
  }

  function ValidateItems(v: Json, i: nat, schema: Json, depth: nat): Verdict
    requires v.Arr?
    decreases v, 0, |v.items| - i
  {
    if i >= |v.items| then Accept
    else
      Then(if Entry(schema, "items").Some? then ValidateValue(v.items[i], Entry(schema, "items").value, depth)
           else Crash,
           ValidateItems(v, i + 1, schema, depth))
  }

  // --- what a schema means ---

  /** `v` is one of the values the schema describes: right type, listed when there is a list, and
      fitting in every part. There is no depth here, and no order. */
  predicate Conforms(v: Json, schema: Json)
    decreases v
  {
    HasType(v, TypeOf(schema))
    && (Entry(schema, "enum").Some? ==>
          Entry(schema, "enum").value.Arr? && Member(v, Entry(schema, "enum").value.items))
    && match v
       case Obj(_, fields) =>
         KeysFit(v, schema)
         && forall key :: key in fields ==> key in Properties(schema) && Conforms(fields[key], Properties(schema)[key])
       case Arr(items) =>
         forall i :: 0 <= i < |items| ==> Entry(schema, "items").Some? && Conforms(items[i], Entry(schema, "items").value)
       case Str(text) => LengthFits(text, schema)
       case _ => true
  }

  // --- the two checks agree with each other and with the meaning ---

  lemma AcceptedRoot(schema: Json, depth: nat)
    requires ValidateSchema(schema, depth) == Accept
    ensures depth <= MAX_DEPTH && schema.Obj? && TypeOf(schema) in SCHEMA_TYPES && EnumFits(schema)
    ensures TypeOf(schema) == "object" ==> ObjectShapeFits(schema)
    ensures TypeOf(schema) == "array" ==>
      "items" in schema.fields && ValidateSchema(schema.fields["items"], depth + 1) == Accept
  {}

  lemma {:induction false} AcceptedProperties(schema: Json, i: nat, depth: nat, k: nat)
    requires schema.Obj? && "properties" in schema.fields && schema.fields["properties"].Obj?
    requires ValidateProperties(schema, i, depth) == Accept
    requires i <= k < |schema.fields["properties"].order|
    requires schema.fields["properties"].order[k] in schema.fields["properties"].fields
    ensures ValidateSchema(schema.fields["properties"].fields[schema.fields["properties"].order[k]], depth) == Accept
    decreases k - i
  {
    hide ValidateSchema;
    if i < k { AcceptedProperties(schema, i + 1, depth, k); }
  }

  /** Every property schema of an accepted object schema is accepted one level deeper. */
  lemma AcceptedProperty(schema: Json, depth: nat, key: string)
    requires WellFormed(schema) && ValidateSchema(schema, depth) == Accept && TypeOf(schema) == "object"
    requires key in Properties(schema)
    ensures ValidateSchema(Properties(schema)[key], depth + 1) == Accept && WellFormed(Properties(schema)[key])
  {
    var properties := schema.fields["properties"];
    assert WellFormed(properties);
    var k :| 0 <= k < |properties.order| && properties.order[k] == key;
    assert ValidateProperties(schema, 0, depth + 1) == Accept;
    AcceptedProperties(schema, 0, depth + 1, k);
  }

  /** Whether this schema, or one of its parts, lists its values as null. */
  predicate NullListed(schema: Json)
    decreases schema
  {
    Entry(schema, "enum") == Some(Null)
    || (TypeOf(schema) == "object" && exists key :: key in Properties(schema) && NullListed(Properties(schema)[key]))
    || (TypeOf(schema) == "array" && Entry(schema, "items").Some? && NullListed(Entry(schema, "items").value))
  }

  /** The verdict on a value, by an accepted schema at its depth: acceptance is conformance, and
      without a null list below, everything else is rejected. */
  ghost predicate Faithful(v: Json, schema: Json, depth: nat) {
    (ValidateValue(v, schema, depth) == Accept <==> Conforms(v, schema))
    && (!NullListed(schema) ==> ValidateValue(v, schema, depth) != Crash)
  }

  lemma {:induction false} FieldsFaithful(v: Json, i: nat, schema: Json, depth: nat)
    requires v.Obj? && Dictionary(v.order, v.fields) && v.fields.Keys <= Properties(schema).Keys
    requires forall key :: key in v.fields ==> Faithful(v.fields[key], Properties(schema)[key], depth)
    ensures ValidateFields(v, i, schema, depth) == Accept
      <==> forall j :: i <= j < |v.order| ==> Conforms(v.fields[v.order[j]], Properties(schema)[v.order[j]])
    ensures (forall key :: key in v.fields ==> !NullListed(Properties(schema)[key])) ==>
      ValidateFields(v, i, schema, depth) != Crash
    decreases |v.order| - i
  {
    hide ValidateValue, Conforms, NullListed;
    if i < |v.order| {
      assert v.order[i] in v.fields;
      FieldsFaithful(v, i + 1, schema, depth);
    }
  }

  lemma {:induction false} ItemsFaithful(v: Json, i: nat, schema: Json, depth: nat)
    requires v.Arr? && Entry(schema, "items").Some?
    requires forall j :: 0 <= j < |v.items| ==> Faithful(v.items[j], Entry(schema, "items").value, depth)
    ensures ValidateItems(v, i, schema, depth) == Accept
      <==> forall j :: i <= j < |v.items| ==> Conforms(v.items[j], Entry(schema, "items").value)
    ensures !NullListed(Entry(schema, "items").value) ==> ValidateItems(v, i, schema, depth) != Crash
    decreases |v.items| - i
  {
    hide ValidateValue, Conforms, NullListed;
    if i < |v.items| {
      ItemsFaithful(v, i + 1, schema, depth);
    }
  }

  lemma {:induction false} ValuesFaithful(v: Json, schema: Json, depth: nat)
    requires WellFormed(v) && WellFormed(schema) && ValidateSchema(schema, depth) == Accept
    ensures Faithful(v, schema, depth)
    decreases v
  {
    AcceptedRoot(schema, depth);
    if v.Obj? && TypeOf(schema) == "object" && KeysFit(v, schema) {
      forall key | key in v.fields ensures Faithful(v.fields[key], Properties(schema)[key], depth + 1) {
        AcceptedProperty(schema, depth, key);
        ValuesFaithful(v.fields[key], Properties(schema)[key], depth + 1);
      }
      FieldsFaithful(v, 0, schema, depth + 1);
      ObjectConforms(v, schema);
    } else if v.Arr? && TypeOf(schema) == "array" {
      var items := schema.fields["items"];
      assert WellFormed(items);
      forall j | 0 <= j < |v.items| ensures Faithful(v.items[j], items, depth + 1) {
        ValuesFaithful(v.items[j], items, depth + 1);
      }
      ItemsFaithful(v, 0, schema, depth + 1);
    }
  }

  /** Fields in order or fields by key: the same conformance. */
  lemma ObjectConforms(v: Json, schema: Json)
    requires v.Obj? && Dictionary(v.order, v.fields) && v.fields.Keys <= Properties(schema).Keys
    ensures (forall j :: 0 <= j < |v.order| ==> Conforms(v.fields[v.order[j]], Properties(schema)[v.order[j]]))
      <==> forall key :: key in v.fields ==> Conforms(v.fields[key], Properties(schema)[key])
  {
    hide Conforms;
    if forall j :: 0 <= j < |v.order| ==> Conforms(v.fields[v.order[j]], Properties(schema)[v.order[j]]) {
      forall key | key in v.fields ensures Conforms(v.fields[key], Properties(schema)[key]) {
        var j :| 0 <= j < |v.order| && v.order[j] == key;
      }
    }
  }

  // --- the theorems ---

  /** For every schema that `validate_schema` accepts, acceptance of a value is exactly conformance;
      and if no list in the schema is null, the check is total: whatever the value, it returns or
      raises its own error, so its depth guard never decides anything. */
  lemma AcceptedSchemasAreDecided(v: Json, schema: Json)
    requires WellFormed(v) && WellFormed(schema) && ValidateSchema(schema, 0) == Accept
    ensures ValidateValue(v, schema, 0) == Accept <==> Conforms(v, schema)
    ensures !NullListed(schema) ==>
      ValidateValue(v, schema, 0) == if Conforms(v, schema) then Accept else Reject
  {
    ValuesFaithful(v, schema, 0);
  }

  // --- when the schema check itself escapes ---

  /** Looking such a type up in a set raises. */
  predicate UnhashableType(schema: Json) {
    Entry(schema, "type").Some? && (Entry(schema, "type").value.Arr? || Entry(schema, "type").value.Obj?)
  }

  predicate RootFits(schema: Json, depth: nat) {
    depth <= MAX_DEPTH && schema.Obj? && schema.fields.Keys <= SCHEMA_KEYS
  }

  /** Whether this schema, or a part that the check may look at, has an unhashable type. */
  predicate SomewhereUnhashable(schema: Json)
    decreases schema
  {
    UnhashableType(schema)
    || (TypeOf(schema) == "object" && exists key :: key in Properties(schema) && SomewhereUnhashable(Properties(schema)[key]))
    || (TypeOf(schema) == "array" && Entry(schema, "items").Some? && SomewhereUnhashable(Entry(schema, "items").value))
  }

  /** The check comes to an unhashable type before anything is rejected: at the root, in the first
      property schema that is not accepted, or in the item schema. */
  predicate Reached(schema: Json, depth: nat)
    decreases schema
  {
    RootFits(schema, depth)
    && (UnhashableType(schema)
        || (EnumFits(schema) && TypeOf(schema) == "object" && ObjectShapeFits(schema) && "properties" in schema.fields
            && var properties := schema.fields["properties"];
               exists k :: 0 <= k < |properties.order| && properties.order[k] in properties.fields
                 && Reached(properties.fields[properties.order[k]], depth + 1)
                 && forall j :: 0 <= j < k && properties.order[j] in properties.fields ==>
                      ValidateSchema(properties.fields[properties.order[j]], depth + 1) == Accept)
        || (EnumFits(schema) && TypeOf(schema) == "array" && "items" in schema.fields
            && Reached(schema.fields["items"], depth + 1)))
  }

  lemma {:induction false} PropertiesCrash(schema: Json, i: nat, depth: nat) returns (k: nat)
    requires schema.Obj? && "properties" in schema.fields && schema.fields["properties"].Obj?
    requires ValidateProperties(schema, i, depth) == Crash
    ensures var properties := schema.fields["properties"];
      i <= k < |properties.order| && properties.order[k] in properties.fields
      && ValidateSchema(properties.fields[properties.order[k]], depth) == Crash
      && forall j :: i <= j < k && properties.order[j] in properties.fields ==>
           ValidateSchema(properties.fields[properties.order[j]], depth) == Accept
    decreases |schema.fields["properties"].order| - i
  {
    hide ValidateSchema;
    var properties := schema.fields["properties"];
    if properties.order[i] in properties.fields
       && ValidateSchema(properties.fields[properties.order[i]], depth) != Accept {
      k := i;
    } else {
      k := PropertiesCrash(schema, i + 1, depth);
    }
  }

  lemma {:induction false} CrashingProperty(schema: Json, i: nat, depth: nat, k: nat)
    requires schema.Obj? && "properties" in schema.fields && schema.fields["properties"].Obj?
    requires var properties := schema.fields["properties"];
      i <= k < |properties.order| && properties.order[k] in properties.fields
      && ValidateSchema(properties.fields[properties.order[k]], depth) == Crash
      && forall j :: i <= j < k && properties.order[j] in properties.fields ==>
           ValidateSchema(properties.fields[properties.order[j]], depth) == Accept
    ensures ValidateProperties(schema, i, depth) == Crash
    decreases k - i
  {
    hide ValidateSchema;
    if i < k { CrashingProperty(schema, i + 1, depth, k); }
  }

  /** The schema check raises a TypeError of its own exactly when it comes to a type that is a list or an
      object before it rejects anything; so at once when the root passes the tests before it, and never
      on a schema without such a type. */
  lemma {:induction false} SchemaCheckEscapesExactly(schema: Json, depth: nat)
    ensures ValidateSchema(schema, depth) == Crash <==> Reached(schema, depth)
    ensures RootFits(schema, depth) && UnhashableType(schema) ==> ValidateSchema(schema, depth) == Crash
    ensures !SomewhereUnhashable(schema) ==> ValidateSchema(schema, depth) != Crash
    decreases schema
  {
    if RootFits(schema, depth) && !UnhashableType(schema) && TypeOf(schema) in SCHEMA_TYPES && EnumFits(schema) {
      if TypeOf(schema) == "object" && ObjectShapeFits(schema) && "properties" in schema.fields {
        var properties := schema.fields["properties"];
        forall key | key in properties.fields
          ensures ValidateSchema(properties.fields[key], depth + 1) == Crash <==> Reached(properties.fields[key], depth + 1)
          ensures !SomewhereUnhashable(properties.fields[key]) ==> ValidateSchema(properties.fields[key], depth + 1) != Crash
        {
          SchemaCheckEscapesExactly(properties.fields[key], depth + 1);
        }
        EscapesInProperties(schema, depth);
      } else if TypeOf(schema) == "array" && "items" in schema.fields {
        SchemaCheckEscapesExactly(schema.fields["items"], depth + 1);
      }
    }
  }

  lemma EscapesInProperties(schema: Json, depth: nat)
    requires RootFits(schema, depth) && TypeOf(schema) == "object" && ObjectShapeFits(schema) && "properties" in schema.fields
    requires EnumFits(schema)
    requires var properties := schema.fields["properties"]; forall key :: key in properties.fields ==>
      (ValidateSchema(properties.fields[key], depth + 1) == Crash <==> Reached(properties.fields[key], depth + 1))
      && (!SomewhereUnhashable(properties.fields[key]) ==> ValidateSchema(properties.fields[key], depth + 1) != Crash)
    ensures ValidateProperties(schema, 0, depth + 1) == Crash <==> Reached(schema, depth)
    ensures ValidateProperties(schema, 0, depth + 1) == Crash ==> SomewhereUnhashable(schema)
  {
    var properties := schema.fields["properties"];
    if ValidateProperties(schema, 0, depth + 1) == Crash {
      var k := PropertiesCrash(schema, 0, depth + 1);
      assert properties.order[k] in Properties(schema);
    }
    if Reached(schema, depth) {
      var k :| 0 <= k < |properties.order| && properties.order[k] in properties.fields
        && Reached(properties.fields[properties.order[k]], depth + 1)
        && forall j :: 0 <= j < k && properties.order[j] in properties.fields ==>
             ValidateSchema(properties.fields[properties.order[j]], depth + 1) == Accept;
      CrashingProperty(schema, 0, depth + 1, k);
    }
  }
}
