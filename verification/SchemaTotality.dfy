/** When the value check of an accepted schema is total: exactly when no list that is null can be reached
    by a value, which the schema alone decides. */
module SchemaTotality {
  import opened Prelude
  import opened SchemaValidation

  // --- Python's equality is an equivalence ---

  lemma {:induction false} EqualReflexive(a: Json)
    ensures Equal(a, a)
    decreases a
  {
    match a {
      case Arr(items) => forall i | 0 <= i < |items| ensures Equal(items[i], items[i]) { EqualReflexive(items[i]); }
      case Obj(_, fields) =>
        forall key | key in fields ensures Equal(fields[key], fields[key]) { EqualReflexive(fields[key]); }
      case _ =>
    }
  }

  lemma {:induction false} EqualSymmetric(a: Json, b: Json)
    requires Equal(a, b)
    ensures Equal(b, a)
    decreases a
  {
    match a {
      case Arr(items) => forall i | 0 <= i < |items| ensures Equal(b.items[i], items[i]) { EqualSymmetric(items[i], b.items[i]); }
      case Obj(_, fields) =>
        forall key | key in fields ensures Equal(b.fields[key], fields[key]) { EqualSymmetric(fields[key], b.fields[key]); }
      case _ =>
    }
  }

  lemma {:induction false} EqualTransitive(a: Json, b: Json, c: Json)
    requires Equal(a, b) && Equal(b, c)
    ensures Equal(a, c)
    decreases a
  {
    match a {
      case Arr(items) =>
        forall i | 0 <= i < |items| ensures Equal(items[i], c.items[i]) {
          EqualTransitive(items[i], b.items[i], c.items[i]);
        }
      case Obj(_, fields) =>
        forall key | key in fields ensures Equal(fields[key], c.fields[key]) {
          EqualTransitive(fields[key], b.fields[key], c.fields[key]);
        }
      case _ =>
    }
  }

  /** Equal values are in the same lists. */
  lemma MemberOfEqual(v: Json, w: Json, values: seq<Json>)
    requires Equal(v, w) && Member(w, values)
    ensures Member(v, values)
  {
    var i :| 0 <= i < |values| && Equal(w, values[i]);
    EqualTransitive(v, w, values[i]);
  }

  // --- what some value equal to a given one can do ---

  /** Some value equal to `v` has the type. */
  predicate TypeFits(v: Json, kind: string) {
    match kind
    case "integer" => Numeric(v) && Number(v) == Number(v).Floor as real
    case "number" => Numeric(v)
    case "boolean" => Numeric(v) && (Number(v) == 0.0 || Number(v) == 1.0)
    case _ => HasType(v, kind)
  }

  function Cast(v: Json, kind: string): Json {
    if !Numeric(v) then v
    else
      match kind
      case "integer" => Int(Number(v).Floor)
      case "number" => Float(Number(v))
      case "boolean" => Bool(Number(v) == 1.0)
      case _ => v
  }

  lemma CastFits(v: Json, kind: string)
    requires TypeFits(v, kind) && WellFormed(v)
    ensures Equal(v, Cast(v, kind)) && HasType(Cast(v, kind), kind) && WellFormed(Cast(v, kind))
  {
    EqualReflexive(v);
  }

  lemma EqualFits(v: Json, w: Json, kind: string)
    requires Equal(v, w) && HasType(w, kind)
    ensures TypeFits(v, kind)
  {}

  /** The schema lists no values, or `v` among them. */
  predicate Listed(v: Json, schema: Json) {
    Entry(schema, "enum").Some? ==>
      Entry(schema, "enum").value.Arr? && Member(v, Entry(schema, "enum").value.items)
  }

  /** Some value equal to `v` conforms to the schema. */
  predicate CanConform(v: Json, schema: Json)
    decreases v
  {
    TypeFits(v, TypeOf(schema))
    && Listed(v, schema)
    && match v
       case Obj(_, fields) =>
         KeysFit(v, schema)
         && forall key :: key in fields ==> key in Properties(schema) && CanConform(fields[key], Properties(schema)[key])
       case Arr(items) =>
         forall i :: 0 <= i < |items| ==> Entry(schema, "items").Some? && CanConform(items[i], Entry(schema, "items").value)
       case Str(text) => LengthFits(text, schema)
       case _ => true
  }

  /** On some value equal to `v` the check escapes: it comes to a null list before it rejects anything.
      Fields may be put in any order, items may not. */
  predicate CanCrash(v: Json, schema: Json)
    decreases v
  {
    TypeFits(v, TypeOf(schema))
    && (Entry(schema, "enum") == Some(Null)
        || (Listed(v, schema)
            && match v
               case Obj(_, fields) =>
                 KeysFit(v, schema)
                 && exists key :: key in fields && key in Properties(schema) && CanCrash(fields[key], Properties(schema)[key])
               case Arr(items) =>
                 Entry(schema, "items").Some?
                 && exists i :: 0 <= i < |items| && CanCrash(items[i], Entry(schema, "items").value)
                      && forall j :: 0 <= j < i ==> CanConform(items[j], Entry(schema, "items").value)
               case _ => false))
  }

  /** Some value reaches a null list: at this schema, in a part of a listed value, or in a part of an
      object or array that is not restricted to listed values. */
  predicate NullReachable(schema: Json)
    decreases schema
  {
    var listed := Entry(schema, "enum");
    if listed.Some? then
      listed.value == Null
      || (listed.value.Arr? && exists i :: 0 <= i < |listed.value.items| && CanCrash(listed.value.items[i], schema))
    else
      (TypeOf(schema) == "object" && exists key :: key in Properties(schema) && NullReachable(Properties(schema)[key]))
      || (TypeOf(schema) == "array" && Entry(schema, "items").Some? && NullReachable(Entry(schema, "items").value))
  }

  // --- a crash shows such a list ---

  lemma {:induction false} FieldsCrash(v: Json, i: nat, schema: Json, depth: nat) returns (key: string)
    requires v.Obj? && Dictionary(v.order, v.fields) && v.fields.Keys <= Properties(schema).Keys
    requires ValidateFields(v, i, schema, depth) == Crash
    ensures key in v.fields && ValidateValue(v.fields[key], Properties(schema)[key], depth) == Crash
    decreases |v.order| - i
  {
    hide ValidateValue;
    key := v.order[i];
    if ValidateValue(v.fields[key], Properties(schema)[key], depth) != Crash {
      key := FieldsCrash(v, i + 1, schema, depth);
    }
  }

  lemma {:induction false} ItemsCrash(v: Json, i: nat, schema: Json, depth: nat) returns (k: nat)
    requires v.Arr? && Entry(schema, "items").Some? && ValidateItems(v, i, schema, depth) == Crash
    ensures i <= k < |v.items| && ValidateValue(v.items[k], Entry(schema, "items").value, depth) == Crash
    ensures forall j :: i <= j < k ==> ValidateValue(v.items[j], Entry(schema, "items").value, depth) == Accept
    decreases |v.items| - i
  {
    hide ValidateValue;
    if ValidateValue(v.items[i], Entry(schema, "items").value, depth) != Accept {
      k := i;
    } else {
      k := ItemsCrash(v, i + 1, schema, depth);
    }
  }

  lemma {:induction false} ConformMeansCan(v: Json, w: Json, schema: Json)
    requires Equal(v, w) && Conforms(w, schema)
    ensures CanConform(v, schema)
    decreases v
  {
    EqualFits(v, w, TypeOf(schema));
    if Entry(schema, "enum").Some? {
      MemberOfEqual(v, w, Entry(schema, "enum").value.items);
    }
    match v {
      case Arr(items) =>
        if items != [] {
          assert Conforms(w.items[0], Entry(schema, "items").value);
          var one := Entry(schema, "items").value;
          forall i | 0 <= i < |items| ensures CanConform(items[i], one) {
            assert Equal(items[i], w.items[i]);
            ConformMeansCan(items[i], w.items[i], one);
          }
        }
      case Obj(_, fields) =>
        forall key | key in fields
          ensures key in Properties(schema) && CanConform(fields[key], Properties(schema)[key])
        {
          assert key in w.fields && Equal(fields[key], w.fields[key]);
          ConformMeansCan(fields[key], w.fields[key], Properties(schema)[key]);
        }
      case _ =>
    }
  }

  /** What the verdict says of an accepted schema's root. */
  lemma CrashRoot(w: Json, schema: Json, depth: nat)
    requires ValidateSchema(schema, depth) == Accept && ValidateValue(w, schema, depth) == Crash
    ensures HasType(w, TypeOf(schema))
    ensures Entry(schema, "enum") == Some(Null)
      || (Listed(w, schema)
          && ((w.Obj? && TypeOf(schema) == "object" && KeysFit(w, schema) && ValidateFields(w, 0, schema, depth + 1) == Crash)
              || (w.Arr? && TypeOf(schema) == "array" && ValidateItems(w, 0, schema, depth + 1) == Crash)))
  {
    AcceptedRoot(schema, depth);
    hide ValidateSchema, Member;
  }

  lemma AcceptedItems(schema: Json, depth: nat)
    requires WellFormed(schema) && ValidateSchema(schema, depth) == Accept && TypeOf(schema) == "array"
    ensures Entry(schema, "items").Some? && WellFormed(Entry(schema, "items").value)
    ensures ValidateSchema(Entry(schema, "items").value, depth + 1) == Accept
  {}

  lemma EqualParts(v: Json, w: Json)
    requires Equal(v, w) && WellFormed(w)
    ensures w.Obj? ==>
      (v.Obj? && Dictionary(w.order, w.fields) && v.fields.Keys == w.fields.Keys
       && forall key :: key in w.fields ==> Equal(v.fields[key], w.fields[key]) && WellFormed(w.fields[key]))
    ensures w.Arr? ==>
      (v.Arr? && |v.items| == |w.items|
       && forall i :: 0 <= i < |w.items| ==> Equal(v.items[i], w.items[i]) && WellFormed(w.items[i]))
  {}

  lemma SameKeysFit(v: Json, w: Json, schema: Json)
    requires v.Obj? && w.Obj? && v.fields.Keys == w.fields.Keys && KeysFit(w, schema)
    ensures KeysFit(v, schema)
  {}

  lemma EqualListed(v: Json, w: Json, schema: Json)
    requires Equal(v, w) && Listed(w, schema)
    ensures Listed(v, schema)
  {
    if Entry(schema, "enum").Some? {
      MemberOfEqual(v, w, Entry(schema, "enum").value.items);
    }
  }

  lemma {:induction false} CrashMeansCan(v: Json, w: Json, schema: Json, depth: nat)
    requires WellFormed(w) && WellFormed(schema) && ValidateSchema(schema, depth) == Accept
    requires Equal(v, w) && ValidateValue(w, schema, depth) == Crash
    ensures CanCrash(v, schema)
    decreases v
  {
    hide ValidateSchema, ValidateValue, Equal, WellFormed, KeysFit, Member, CanConform, TypeFits, HasType;
    CrashRoot(w, schema, depth);
    EqualFits(v, w, TypeOf(schema));
    EqualParts(v, w);
    if Entry(schema, "enum") != Some(Null) {
      EqualListed(v, w, schema);
      if w.Obj? {
        KeysAreProperties(w, schema);
        SameKeysFit(v, w, schema);
        var key := FieldsCrash(w, 0, schema, depth + 1);
        AcceptedProperty(schema, depth, key);
        CrashMeansCan(v.fields[key], w.fields[key], Properties(schema)[key], depth + 1);
      } else {
        AcceptedItems(schema, depth);
        var k := ItemsCrash(w, 0, schema, depth + 1);
        CrashMeansCan(v.items[k], w.items[k], Entry(schema, "items").value, depth + 1);
        EarlierItemsCan(v, w, k, Entry(schema, "items").value, depth + 1);
      }
    }
  }

  lemma KeysAreProperties(w: Json, schema: Json)
    requires w.Obj? && KeysFit(w, schema)
    ensures w.fields.Keys <= Properties(schema).Keys
  {}

  lemma EarlierItemsCan(v: Json, w: Json, k: nat, one: Json, depth: nat)
    requires v.Arr? && w.Arr? && Equal(v, w) && WellFormed(w) && k <= |w.items|
    requires WellFormed(one) && ValidateSchema(one, depth) == Accept
    requires forall j :: 0 <= j < k ==> ValidateValue(w.items[j], one, depth) == Accept
    ensures forall j :: 0 <= j < k ==> CanConform(v.items[j], one)
  {
    forall j | 0 <= j < k ensures CanConform(v.items[j], one) {
      hide ValidateSchema, ValidateValue, Conforms, CanConform;
      ValuesFaithful(w.items[j], one, depth);
      ConformMeansCan(v.items[j], w.items[j], one);
    }
  }

  lemma {:induction false} CrashMeansReachable(w: Json, schema: Json, depth: nat)
    requires WellFormed(w) && WellFormed(schema) && ValidateSchema(schema, depth) == Accept
    requires ValidateValue(w, schema, depth) == Crash
    ensures NullReachable(schema)
    decreases w
  {
    hide ValidateSchema, ValidateValue;
    CrashRoot(w, schema, depth);
    var listed := Entry(schema, "enum");
    if listed.Some? && listed != Some(Null) {
      var i :| 0 <= i < |listed.value.items| && Equal(w, listed.value.items[i]);
      EqualSymmetric(w, listed.value.items[i]);
      CrashMeansCan(listed.value.items[i], w, schema, depth);
    } else if listed.None? && w.Obj? {
      var key := FieldsCrash(w, 0, schema, depth + 1);
      AcceptedProperty(schema, depth, key);
      CrashMeansReachable(w.fields[key], Properties(schema)[key], depth + 1);
    } else if listed.None? {
      AcceptedItems(schema, depth);
      var k := ItemsCrash(w, 0, schema, depth + 1);
      CrashMeansReachable(w.items[k], Entry(schema, "items").value, depth + 1);
    }
  }

  // --- such a list leads to a crash ---

  /** The value equal to `v` that conforms. */
  function Conforming(v: Json, schema: Json): Json
    decreases v
  {
    match v
    case Obj(order, fields) =>
      Obj(order, map key | key in fields ::
        if key in Properties(schema) then Conforming(fields[key], Properties(schema)[key]) else fields[key])
    case Arr(items) =>
      Arr(seq(|items|, i requires 0 <= i < |items| =>
        if Entry(schema, "items").Some? then Conforming(items[i], Entry(schema, "items").value) else items[i]))
    case _ => Cast(v, TypeOf(schema))
  }

  lemma {:induction false} ConformingConforms(v: Json, schema: Json)
    requires WellFormed(v) && CanConform(v, schema)
    ensures var w := Conforming(v, schema); Equal(v, w) && WellFormed(w) && Conforms(w, schema)
    decreases v
  {
    var w := Conforming(v, schema);
    match v {
      case Obj(_, fields) =>
        forall key | key in fields
          ensures key in Properties(schema) && Equal(fields[key], w.fields[key]) && WellFormed(w.fields[key])
            && Conforms(w.fields[key], Properties(schema)[key])
        {
          ConformingConforms(fields[key], Properties(schema)[key]);
        }
      case Arr(items) =>
        if items != [] {
          assert CanConform(items[0], Entry(schema, "items").value);
          var one := Entry(schema, "items").value;
          forall i | 0 <= i < |items|
            ensures Equal(items[i], w.items[i]) && WellFormed(w.items[i]) && Conforms(w.items[i], one)
          {
            ConformingConforms(items[i], one);
          }
        }
      case _ => CastFits(v, TypeOf(schema));
    }
    if Entry(schema, "enum").Some? {
      EqualSymmetric(v, w);
      MemberOfEqual(w, v, Entry(schema, "enum").value.items);
    }
  }

  lemma {:induction false} CrashingItem(v: Json, i: nat, schema: Json, depth: nat, k: nat)
    requires v.Arr? && Entry(schema, "items").Some? && i <= k < |v.items|
    requires ValidateValue(v.items[k], Entry(schema, "items").value, depth) == Crash
    requires forall j :: i <= j < k ==> ValidateValue(v.items[j], Entry(schema, "items").value, depth) == Accept
    ensures ValidateItems(v, i, schema, depth) == Crash
    decreases k - i
  {
    hide ValidateValue;
    if i < k { CrashingItem(v, i + 1, schema, depth, k); }
  }

  /** Past the root, the verdict on an object or array is the verdict on its parts. */
  lemma PastTheRoot(w: Json, schema: Json, depth: nat)
    requires ValidateSchema(schema, depth) == Accept && HasType(w, TypeOf(schema))
    requires Listed(w, schema)
    ensures w.Obj? && KeysFit(w, schema) ==> ValidateValue(w, schema, depth) == ValidateFields(w, 0, schema, depth + 1)
    ensures w.Arr? ==> ValidateValue(w, schema, depth) == ValidateItems(w, 0, schema, depth + 1)
  {
    AcceptedRoot(schema, depth);
    hide ValidateSchema, Member;
  }

  /** The same object with the part `part` under `key`, which comes first. */
  function Fronted(v: Json, key: string, part: Json): Json
    requires v.Obj?
  {
    Obj([key] + Without(v.order, key), v.fields[key := part])
  }

  function Without(order: seq<string>, key: string): (rest: seq<string>)
    ensures forall k :: k in rest <==> k in order && k != key
  {
    if order == [] then []
    else if order[0] == key then Without(order[1..], key)
    else [order[0]] + Without(order[1..], key)
  }

  ghost predicate Unrepeated(order: seq<string>) {
    forall i, j :: 0 <= i < j < |order| ==> order[i] != order[j]
  }

  lemma UnrepeatedCons(first: string, rest: seq<string>)
    requires Unrepeated(rest) && first !in rest
    ensures Unrepeated([first] + rest)
  {}

  lemma {:induction false} WithoutRepeats(order: seq<string>, key: string)
    requires Unrepeated(order)
    ensures Unrepeated(Without(order, key))
  {
    if order != [] {
      assert forall i, j :: 0 <= i < j < |order[1..]| ==> order[1..][i] == order[i + 1] && order[1..][j] == order[j + 1];
      WithoutRepeats(order[1..], key);
      if order[0] != key {
        assert order[0] !in order[1..];
        UnrepeatedCons(order[0], Without(order[1..], key));
      }
    }
  }

  lemma FrontedOrder(order: seq<string>, fields: map<string, Json>, key: string, part: Json)
    requires Dictionary(order, fields) && key in fields
    ensures Dictionary([key] + Without(order, key), fields[key := part])
  {
    var all := [key] + Without(order, key);
    WithoutRepeats(order, key);
    UnrepeatedCons(key, Without(order, key));
    hide Unrepeated;
    assert forall i :: 0 <= i < |all| ==> all[i] in all;
    assert forall k :: k in all <==> k == key || k in Without(order, key);
    DictionaryOf(all, fields[key := part]);
  }

  lemma DictionaryOf(order: seq<string>, fields: map<string, Json>)
    requires Unrepeated(order) && forall key :: key in order <==> key in fields
    ensures Dictionary(order, fields)
  {}

  lemma FrontedFits(v: Json, key: string, part: Json, schema: Json)
    requires WellFormed(v) && v.Obj? && key in v.fields && WellFormed(part) && Equal(v.fields[key], part)
    ensures var w := Fronted(v, key, part);
      WellFormed(w) && Equal(v, w) && w.order[0] == key && w.fields[key] == part
      && (KeysFit(v, schema) ==> KeysFit(w, schema))
  {
    var w := Fronted(v, key, part);
    assert w.fields.Keys == v.fields.Keys;
    FrontedOrder(v.order, v.fields, key, part);
    forall k | k in v.fields ensures Equal(v.fields[k], w.fields[k]) && WellFormed(w.fields[k]) {
      if k != key { EqualReflexive(v.fields[k]); }
    }
  }

  /** A value equal to `v` on which the check escapes. */
  lemma {:induction false} CanMeansCrash(v: Json, schema: Json, depth: nat) returns (w: Json)
    requires WellFormed(v) && WellFormed(schema) && ValidateSchema(schema, depth) == Accept && CanCrash(v, schema)
    ensures WellFormed(w) && Equal(v, w) && ValidateValue(w, schema, depth) == Crash
    decreases v
  {
    EqualReflexive(v);
    EqualParts(v, v);
    FittingKinds(v, TypeOf(schema));
    hide ValidateSchema, ValidateValue, Equal, WellFormed, KeysFit, Member, CanConform, TypeFits, HasType;
    if Entry(schema, "enum") == Some(Null) {
      w := Cast(v, TypeOf(schema));
      CastFits(v, TypeOf(schema));
      NullCrashes(w, schema, depth);
    } else if v.Obj? {
      var key :| key in v.fields && key in Properties(schema) && CanCrash(v.fields[key], Properties(schema)[key]);
      AcceptedProperty(schema, depth, key);
      var part := CanMeansCrash(v.fields[key], Properties(schema)[key], depth + 1);
      w := FieldMeansCrash(v, key, part, schema, depth);
    } else {
      var one := Entry(schema, "items").value;
      var i :| 0 <= i < |v.items| && CanCrash(v.items[i], one) && forall j :: 0 <= j < i ==> CanConform(v.items[j], one);
      AcceptedItems(schema, depth);
      var part := CanMeansCrash(v.items[i], one, depth + 1);
      w := ItemMeansCrash(v, i, part, schema, depth);
    }
  }

  lemma FittingKinds(v: Json, kind: string)
    requires TypeFits(v, kind)
    ensures (v.Obj? ==> kind == "object") && (v.Arr? ==> kind == "array")
  {}

  lemma NullCrashes(w: Json, schema: Json, depth: nat)
    requires ValidateSchema(schema, depth) == Accept && HasType(w, TypeOf(schema)) && Entry(schema, "enum") == Some(Null)
    ensures ValidateValue(w, schema, depth) == Crash
  {
    AcceptedRoot(schema, depth);
  }

  lemma FieldMeansCrash(v: Json, key: string, part: Json, schema: Json, depth: nat) returns (w: Json)
    requires WellFormed(v) && ValidateSchema(schema, depth) == Accept && TypeOf(schema) == "object"
    requires v.Obj? && KeysFit(v, schema) && key in v.fields && key in Properties(schema)
    requires Listed(v, schema) && WellFormed(part) && Equal(v.fields[key], part)
    requires ValidateValue(part, Properties(schema)[key], depth + 1) == Crash
    ensures WellFormed(w) && Equal(v, w) && ValidateValue(w, schema, depth) == Crash
  {
    hide ValidateSchema, ValidateValue, WellFormed, Equal, KeysFit, Member;
    w := Fronted(v, key, part);
    FrontedFits(v, key, part, schema);
    FirstFieldCrashes(w, schema, depth + 1);
    EqualSymmetric(v, w);
    EqualListed(w, v, schema);
    PastTheRoot(w, schema, depth);
  }

  lemma ItemMeansCrash(v: Json, i: nat, part: Json, schema: Json, depth: nat) returns (w: Json)
    requires WellFormed(v) && WellFormed(schema) && ValidateSchema(schema, depth) == Accept && TypeOf(schema) == "array"
    requires v.Arr? && i < |v.items| && Entry(schema, "items").Some?
    requires Listed(v, schema)
    requires forall j :: 0 <= j < i ==> CanConform(v.items[j], Entry(schema, "items").value)
    requires WellFormed(part) && Equal(v.items[i], part)
    requires ValidateValue(part, Entry(schema, "items").value, depth + 1) == Crash
    ensures WellFormed(w) && Equal(v, w) && ValidateValue(w, schema, depth) == Crash
  {
    AcceptedItems(schema, depth);
    var one := Entry(schema, "items").value;
    w := CrashingAt(v, i, part, one);
    CrashingAtFits(v, i, part, one);
    assert forall j :: 0 <= j < i ==> WellFormed(w.items[j]);
    hide ValidateSchema, ValidateValue, WellFormed, Equal, Member, Conforms, CanConform, CrashingAt;
    forall j | 0 <= j < i ensures ValidateValue(w.items[j], one, depth + 1) == Accept {
      ValuesFaithful(w.items[j], one, depth + 1);
    }
    CrashingItem(w, 0, schema, depth + 1, i);
    EqualSymmetric(v, w);
    EqualListed(w, v, schema);
    PastTheRoot(w, schema, depth);
  }

  lemma FirstFieldCrashes(w: Json, schema: Json, depth: nat)
    requires w.Obj? && w.order != [] && w.order[0] in w.fields && w.order[0] in Properties(schema)
    requires ValidateValue(w.fields[w.order[0]], Properties(schema)[w.order[0]], depth) == Crash
    ensures ValidateFields(w, 0, schema, depth) == Crash
  {
    hide ValidateValue;
  }

  /** The same array with conforming items before `i` and `part` at `i`. */
  function CrashingAt(v: Json, i: nat, part: Json, one: Json): Json
    requires v.Arr?
  {
    Arr(seq(|v.items|, k requires 0 <= k < |v.items| =>
      if k < i then Conforming(v.items[k], one) else if k == i then part else v.items[k]))
  }

  lemma CrashingAtFits(v: Json, i: nat, part: Json, one: Json)
    requires WellFormed(v) && v.Arr? && i < |v.items| && WellFormed(part) && Equal(v.items[i], part)
    requires forall j :: 0 <= j < i ==> CanConform(v.items[j], one)
    ensures var w := CrashingAt(v, i, part, one);
      WellFormed(w) && Equal(v, w) && w.items[i] == part && forall j :: 0 <= j < i ==> Conforms(w.items[j], one)
  {
    var w := CrashingAt(v, i, part, one);
    forall k | 0 <= k < |v.items|
      ensures Equal(v.items[k], w.items[k]) && WellFormed(w.items[k]) && (k < i ==> Conforms(w.items[k], one))
    {
      if k < i { ConformingConforms(v.items[k], one); } else if k > i { EqualReflexive(v.items[k]); }
    }
  }

  function Sample(kind: string): Json {
    match kind
    case "object" => Obj([], map[])
    case "array" => Arr([])
    case "string" => Str("")
    case "integer" => Int(0)
    case "number" => Int(0)
    case "boolean" => Bool(true)
    case _ => Null
  }

  lemma SampleHasType(kind: string)
    requires kind in SCHEMA_TYPES
    ensures HasType(Sample(kind), kind) && WellFormed(Sample(kind))
  {}

  /** Keys in order of first mention, after the ones already there. */
  function Mentioned(order: seq<string>, required: seq<Json>): (all: seq<string>)
    ensures order <= all
    ensures forall key :: key in all <==>
      key in order || exists i :: 0 <= i < |required| && required[i].Str? && required[i].text == key
    ensures (forall i, j :: 0 <= i < j < |order| ==> order[i] != order[j]) ==>
      forall i, j :: 0 <= i < j < |all| ==> all[i] != all[j]
    decreases |required|
  {
    if required == [] then order
    else if required[0].Str? && required[0].text !in order then Mentioned(order + [required[0].text], required[1..])
    else Mentioned(order, required[1..])
  }

  /** An object with the part `v` under `key` first, and every other required key. */
  function Carrying(key: string, v: Json, schema: Json): Json {
    var order := Mentioned([key], Required(schema));
    Obj(order, map k | k in order :: if k == key then v else Null)
  }

  lemma CarryingCrashes(key: string, v: Json, schema: Json, depth: nat)
    requires ValidateSchema(schema, depth) == Accept && TypeOf(schema) == "object" && Entry(schema, "enum").None?
    requires key in Properties(schema) && WellFormed(v)
    requires ValidateValue(v, Properties(schema)[key], depth + 1) == Crash
    ensures WellFormed(Carrying(key, v, schema)) && ValidateValue(Carrying(key, v, schema), schema, depth) == Crash
  {
    AcceptedRoot(schema, depth);
    var w := Carrying(key, v, schema);
    hide ValidateSchema;
    assert w.order[0] == key && w.fields[key] == v;
    assert ValidateFields(w, 0, schema, depth + 1) == Crash;
  }

  lemma {:induction false} ReachableMeansCrash(schema: Json, depth: nat) returns (v: Json)
    requires WellFormed(schema) && ValidateSchema(schema, depth) == Accept && NullReachable(schema)
    ensures WellFormed(v) && ValidateValue(v, schema, depth) == Crash
    decreases schema
  {
    AcceptedRoot(schema, depth);
    var listed := Entry(schema, "enum");
    if listed == Some(Null) {
      v := Sample(TypeOf(schema));
      SampleHasType(TypeOf(schema));
    } else if listed.Some? {
      var i :| 0 <= i < |listed.value.items| && CanCrash(listed.value.items[i], schema);
      assert WellFormed(listed.value);
      v := CanMeansCrash(listed.value.items[i], schema, depth);
    } else if TypeOf(schema) == "object" {
      var key :| key in Properties(schema) && NullReachable(Properties(schema)[key]);
      AcceptedProperty(schema, depth, key);
      var part := ReachableMeansCrash(Properties(schema)[key], depth + 1);
      CarryingCrashes(key, part, schema, depth);
      v := Carrying(key, part, schema);
    } else {
      AcceptedItems(schema, depth);
      var part := ReachableMeansCrash(Entry(schema, "items").value, depth + 1);
      v := Arr([part]);
      CrashingItem(v, 0, schema, depth + 1, 0);
      PastTheRoot(v, schema, depth);
    }
  }

  // --- the theorem ---

  /** `validate_schema` accepts a list that is null, and that is exactly what keeps the value check from
      being total: for every accepted schema the check returns or raises its own error on every value if
      and only if no value can reach such a list. */
  lemma TotalExactlyWhenNoNullIsReachable(schema: Json)
    requires WellFormed(schema) && ValidateSchema(schema, 0) == Accept
    ensures (forall v :: WellFormed(v) ==> ValidateValue(v, schema, 0) != Crash) <==> !NullReachable(schema)
    ensures !NullReachable(schema) ==>
      forall v :: WellFormed(v) ==> ValidateValue(v, schema, 0) == if Conforms(v, schema) then Accept else Reject
  {
    hide ValidateSchema, ValidateValue, Conforms, WellFormed;
    if NullReachable(schema) {
      var v := ReachableMeansCrash(schema, 0);
      assert WellFormed(v) && ValidateValue(v, schema, 0) == Crash;
    }
    forall v | WellFormed(v) && ValidateValue(v, schema, 0) == Crash ensures NullReachable(schema) {
      CrashMeansReachable(v, schema, 0);
    }
    forall v | WellFormed(v) && !NullReachable(schema)
      ensures ValidateValue(v, schema, 0) == if Conforms(v, schema) then Accept else Reject
    {
      ValuesFaithful(v, schema, 0);
    }
  }
}
