/** Constrained schemas and the values they accept. */
module ServiceSchema {
  import opened Effects
  import opened Json
  import CanonicalJson

  // ---------------------------------------------------------------- numbers

  function DigitsValue(t: Text): real {
    if t == [] then 0.0 else DigitsValue(t[..|t| - 1]) * 10.0 + (t[|t| - 1] as int - 0x30) as real
  }

  function TenTo(n: nat): real {
    if n == 0 then 1.0 else 10.0 * TenTo(n - 1)
  }

  lemma TenToPositive(n: nat)
    ensures TenTo(n) > 0.0
  {
  }

  function UpTo(t: Text, c: Unit): (n: nat)
    ensures n <= |t|
  {
    if t == [] || t[0] == c then 0 else 1 + UpTo(t[1..], c)
  }

  function Mantissa(t: Text): real {
    var n := UpTo(t, 0x2E);
    var fraction := if n < |t| then t[n + 1..] else [];
    TenToPositive(|fraction|);
    DigitsValue(t[..n]) + DigitsValue(fraction) / TenTo(|fraction|)
  }

  function Scaled(m: real, exponent: Text): real {
    var digits := if exponent != [] && (exponent[0] == 0x2B || exponent[0] == 0x2D) then exponent[1..] else exponent;
    var e := DigitsValue(digits).Floor;
    var n: nat := if e < 0 then 0 else e;
    TenToPositive(n);
    if exponent != [] && exponent[0] == 0x2D then m / TenTo(n) else m * TenTo(n)
  }

  /** The number a decimal text stands for. */
  function Value(t: Text): real {
    if t != [] && t[0] == 0x2D then -Value(t[1..])
    else
      var n := UpTo(t, 0x65);
      Scaled(Mantissa(t[..n]), if n < |t| then t[n + 1..] else [])
  }

  function ValueOf(n: Number): real
    requires !n.NotFinite?
  {
    if n.MinusZero? then 0.0 else Value(n.token)
  }

  predicate IsInteger(x: real) {
    x.Floor as real == x
  }

  predicate SafeInteger(v: Json) {
    v.Num? && !v.n.NotFinite? && IsInteger(ValueOf(v.n)) && -MAX_SAFE_INTEGER as real <= ValueOf(v.n) <= MAX_SAFE_INTEGER as real
  }

  /** A count no larger than a numeric field. */
  predicate AtMost(x: real, bound: Json) {
    bound.Num? && !bound.n.NotFinite? && x <= ValueOf(bound.n)
  }

  predicate AtLeast(x: real, bound: Json) {
    bound.Num? && !bound.n.NotFinite? && ValueOf(bound.n) <= x
  }

  // ---------------------------------------------------------------- fields

  function T(s: string): (t: Text)
    ensures |t| == |s|
  {
    seq(|s|, i requires 0 <= i < |s| => s[i] as int % 0x10000)
  }

  /** A field of an object, if it has it. */
  function Get(entries: seq<Entry>, key: Text): (r: Option<Json>)
    ensures r.Some? ==> Size(r.value) < EntriesSize(entries)
    ensures r.Some? <==> exists i | 0 <= i < |entries| :: entries[i].key == key
    ensures r.Some? ==> exists i | 0 <= i < |entries| :: entries[i] == Entry(key, r.value)
  {
    if entries == [] then None
    else if entries[0].key == key then Some(entries[0].value)
    else
      assert forall i | 0 <= i < |entries[1..]| :: entries[1..][i] == entries[i + 1];
      assert forall i | 0 < i < |entries| :: entries[i] == entries[1..][i - 1];
      Get(entries[1..], key)
  }

  function Field(schema: Json, name: string): (r: Option<Json>)
    ensures r.Some? ==> Size(r.value) < Size(schema)
  {
    if schema.Obj? then Get(schema.entries, T(name)) else None
  }

  /** How the language turns a value into a string; an array becomes its elements between commas. */
  function ToString(v: Json): Text {
    match v
    case Null => T("null")
    case Bool(b) => if b then T("true") else T("false")
    case Num(n) => if n.NotFinite? then T("NaN") else Stringify(n)
    case Str(s) => s
    case Arr(items) => Joined(items)
    case Obj(_) => T("[object Object]")
  }

  function Joined(items: seq<Json>): Text {
    if items == [] then []
    else
      (if items[0].Null? then [] else ToString(items[0])) +
      if |items| == 1 then [] else [0x2C] + Joined(items[1..])
  }

  const KINDS: set<Text> := {T("object"), T("array"), T("string"), T("number"), T("integer"), T("boolean"), T("null")}
  const SCHEMA_KEYS: set<Text> := {T("type"), T("properties"), T("required"), T("additionalProperties"), T("items"), T("maxItems"),
                                  T("maxLength"), T("minimum"), T("maximum")}

  predicate TypeIs(schema: Json, name: string) {
    Field(schema, "type") == Some(Str(T(name)))
  }

  // ---------------------------------------------------------------- schemas

  predicate DistinctStrings(items: seq<Json>) {
    forall i, j | 0 <= i < j < |items| :: items[i] != items[j]
  }

  predicate IsRequiredList(required: Json, properties: seq<Entry>) {
    required.Arr? && DistinctStrings(required.items) &&
    forall i | 0 <= i < |required.items| :: required.items[i].Str? && Get(properties, required.items[i].s).Some?
  }

  predicate IsBound(schema: Json, name: string) {
    Field(schema, name).Some? ==> Field(schema, name).value.Num? && !Field(schema, name).value.n.NotFinite?
  }

  predicate IsNumeric(schema: Json) {
    TypeIs(schema, "number") || TypeIs(schema, "integer")
  }

  predicate IsSchema(v: Json, depth: nat)
    decreases Size(v), 0
  {
    && depth <= 8 && v.Obj?
    && (forall i | 0 <= i < |v.entries| :: v.entries[i].key in SCHEMA_KEYS)
    && Field(v, "type").Some? && ToString(Field(v, "type").value) in KINDS
    && (if TypeIs(v, "object") then
          Field(v, "additionalProperties") == Some(Bool(false)) && Field(v, "properties").Some? && Field(v, "properties").value.Obj? &&
          var properties := Field(v, "properties").value.entries;
          |properties| <= 50 && AreSchemas(properties, depth + 1) &&
          (Field(v, "required").Some? ==> IsRequiredList(Field(v, "required").value, properties))
        else
          Field(v, "properties").None? && Field(v, "required").None? && Field(v, "additionalProperties").None?)
    && (if TypeIs(v, "array") then
          Field(v, "items").Some? && IsSchema(Field(v, "items").value, depth + 1) &&
          Field(v, "maxItems").Some? && SafeInteger(Field(v, "maxItems").value) &&
          0.0 <= ValueOf(Field(v, "maxItems").value.n) <= 1000.0
        else
          Field(v, "items").None? && Field(v, "maxItems").None?)
    && (Field(v, "maxLength").Some? ==>
          TypeIs(v, "string") && SafeInteger(Field(v, "maxLength").value) && 0.0 <= ValueOf(Field(v, "maxLength").value.n) <= 65536.0)
    && IsBound(v, "minimum") && IsBound(v, "maximum")
    && (Field(v, "minimum").Some? || Field(v, "maximum").Some? ==> IsNumeric(v))
    && !(Field(v, "minimum").Some? && Field(v, "maximum").Some? &&
         ValueOf(Field(v, "minimum").value.n) > ValueOf(Field(v, "maximum").value.n))
  }

  predicate AreSchemas(properties: seq<Entry>, depth: nat)
    decreases EntriesSize(properties), 0
  {
    properties == [] ||
    (0 < |properties[0].key| <= 80 && IsSchema(properties[0].value, depth) && AreSchemas(properties[1..], depth))
  }

  // ---------------------------------------------------------------- matching

  function Both(a: Result<bool>, b: Result<bool>): Result<bool> {
    if a == Ok(true) then b else a
  }

  /** Reading a field the schema lacks throws. */
  function MatchesSchema(v: Json, schema: Json): Result<bool>
    decreases Size(v), 1
  {
    if !schema.Obj? then Threw
    else if TypeIs(schema, "null") then Ok(v.Null?)
    else if TypeIs(schema, "boolean") then Ok(v.Bool?)
    else if TypeIs(schema, "string") then
      Ok(v.Str? && (Field(schema, "maxLength").None? || AtMost(|v.s| as real, Field(schema, "maxLength").value)))
    else if IsNumeric(schema) then
      Ok(v.Num? && !v.n.NotFinite? && (TypeIs(schema, "number") || IsInteger(ValueOf(v.n))) &&
         (Field(schema, "minimum").None? || AtLeast(ValueOf(v.n), Field(schema, "minimum").value)) &&
         (Field(schema, "maximum").None? || AtMost(ValueOf(v.n), Field(schema, "maximum").value)))
    else if TypeIs(schema, "array") then
      if !v.Arr? || !(Field(schema, "maxItems").None? || AtMost(|v.items| as real, Field(schema, "maxItems").value)) then Ok(false)
      else ItemsMatch(v.items, Field(schema, "items"))
    else if TypeIs(schema, "object") then
      if !v.Obj? then Ok(false)
      else Both(RequiredPresent(v.entries, Field(schema, "required")), EntriesMatch(v.entries, Field(schema, "properties")))
    else Ok(false)
  }

  function ItemsMatch(items: seq<Json>, schema: Option<Json>): Result<bool>
    decreases ItemsSize(items), 0
  {
    if items == [] then Ok(true)
    else if schema.None? then Threw
    else Both(MatchesSchema(items[0], schema.value), ItemsMatch(items[1..], schema))
  }

  function RequiredPresent(entries: seq<Entry>, required: Option<Json>): Result<bool> {
    if required.None? || required.value.Null? then Ok(true)
    else if !required.value.Arr? then Threw
    else Ok(forall i | 0 <= i < |required.value.items| ::
              required.value.items[i].Str? && Get(entries, required.value.items[i].s).Some?)
  }

  function EntriesMatch(entries: seq<Entry>, properties: Option<Json>): Result<bool>
    decreases EntriesSize(entries), 0
  {
    if entries == [] then Ok(true)
    else if properties.None? then Threw
    else
      var schema := if properties.value.Obj? then Get(properties.value.entries, entries[0].key) else None;
      if schema.None? then Ok(false)
      else Both(MatchesSchema(entries[0].value, schema.value), EntriesMatch(entries[1..], properties))
  }

  // ---------------------------------------------------------------- limits

  predicate Visit(v: Json, depth: nat)
    decreases Size(v), 0
  {
    depth <= 12 &&
    match v
    case Num(n) => !n.NotFinite?
    case Arr(items) => |items| <= 1000 && VisitItems(items, depth + 1)
    case Obj(entries) => |entries| <= 1000 && VisitEntries(entries, depth + 1)
    case _ => true
  }

  predicate VisitItems(items: seq<Json>, depth: nat)
    decreases ItemsSize(items), 0
  {
    items == [] || (Visit(items[0], depth) && VisitItems(items[1..], depth))
  }

  predicate VisitEntries(entries: seq<Entry>, depth: nat)
    decreases EntriesSize(entries), 0
  {
    entries == [] ||
    (0 < |entries[0].key| <= 256 && Visit(entries[0].value, depth) && VisitEntries(entries[1..], depth))
  }

  /** Bytes of a text in UTF-8; a lone surrogate counts as the replacement character. */
  function Utf8Length(t: Text): nat {
    if t == [] then 0
    else if t[0] < 0x80 then 1 + Utf8Length(t[1..])
    else if t[0] < 0x800 then 2 + Utf8Length(t[1..])
    else if High(t[0]) && |t| > 1 && Low(t[1]) then 4 + Utf8Length(t[2..])
    else 3 + Utf8Length(t[1..])
  }

  function AssertJson(v: Json, limit: nat): Result<()> {
    if Visit(v, 0) && Utf8Length(Canonical(v)) <= limit then Ok(()) else Threw
  }

  function ValidateSchemaValue(v: Json, schema: Json, limit: nat): Result<()> {
    if !AssertJson(v, limit).Ok? || !IsSchema(schema, 0) then Threw
    else
      var m := MatchesSchema(v, schema);
      if m == Ok(true) then Ok(()) else Threw
  }

  // ---------------------------------------------------------------- accepted schemas

  lemma {:induction false} PropertyIsSchema(properties: seq<Entry>, depth: nat, key: Text)
    requires AreSchemas(properties, depth) && Get(properties, key).Some?
    ensures 0 < |key| <= 80 && IsSchema(Get(properties, key).value, depth)
  {
    if properties[0].key != key {
      PropertyIsSchema(properties[1..], depth, key);
    }
  }

  /** An accepted schema lacks no field that matching reads. */
  lemma {:induction false} NothingMissing(v: Json, schema: Json, depth: nat)
    requires IsSchema(schema, depth)
    ensures MatchesSchema(v, schema).Ok?
    decreases Size(v), 1
  {
    hide IsSchema, ItemsMatch, EntriesMatch, Value, IsInteger, T, Field;
    SchemaParts(schema, depth);
    if TypeIs(schema, "array") && v.Arr? {
      NoItemMissing(v.items, Field(schema, "items").value, depth + 1);
    } else if TypeIs(schema, "object") && v.Obj? {
      NoPropertyMissing(v.entries, Field(schema, "properties").value, depth + 1);
    }
  }

  /** What the two compound kinds of an accepted schema always carry. */
  lemma SchemaParts(schema: Json, depth: nat)
    requires IsSchema(schema, depth)
    ensures schema.Obj?
    ensures TypeIs(schema, "array") ==> Field(schema, "items").Some? && IsSchema(Field(schema, "items").value, depth + 1)
    ensures TypeIs(schema, "object") ==> Field(schema, "properties").Some? && Field(schema, "properties").value.Obj? && AreSchemas(Field(schema, "properties").value.entries, depth + 1)
    ensures TypeIs(schema, "object") && Field(schema, "required").Some? ==> Field(schema, "required").value.Arr?
  {
    hide T, Value, IsInteger, ToString, Field;
  }

  lemma {:induction false} NoItemMissing(items: seq<Json>, schema: Json, depth: nat)
    requires IsSchema(schema, depth)
    ensures ItemsMatch(items, Some(schema)).Ok?
    decreases ItemsSize(items), 0
  {
    hide MatchesSchema, IsSchema;
    if items != [] {
      NothingMissing(items[0], schema, depth);
      NoItemMissing(items[1..], schema, depth);
    }
  }

  lemma {:induction false} NoPropertyMissing(entries: seq<Entry>, properties: Json, depth: nat)
    requires properties.Obj? && AreSchemas(properties.entries, depth)
    ensures EntriesMatch(entries, Some(properties)).Ok?
    decreases EntriesSize(entries), 0
  {
    hide MatchesSchema, IsSchema, AreSchemas, Get;
    if entries != [] {
      if Get(properties.entries, entries[0].key).Some? {
        PropertyIsSchema(properties.entries, depth, entries[0].key);
        NothingMissing(entries[0].value, Get(properties.entries, entries[0].key).value, depth);
      }
      NoPropertyMissing(entries[1..], properties, depth);
    }
  }

  /** A value that matches an accepted schema is within every limit on nesting and sizes. */
  lemma {:induction false} MatchingIsSmall(v: Json, schema: Json, depth: nat)
    requires IsSchema(schema, depth) && Keyed(v) && MatchesSchema(v, schema) == Ok(true)
    ensures Visit(v, depth)
    decreases Size(v), 1
  {
    hide Value, IsInteger, T, ToString, Field;
    if v.Arr? {
      ArraySchema(v, schema, depth);
      ItemsAreSmall(v.items, Field(schema, "items").value, depth + 1);
    } else if v.Obj? {
      ObjectSchema(v, schema, depth);
      var properties := Field(schema, "properties").value;
      EntriesAreSmall(v.entries, properties, depth + 1);
      FewEntries(v.entries, properties.entries);
    }
  }

  lemma ArraySchema(v: Json, schema: Json, depth: nat)
    requires IsSchema(schema, depth) && v.Arr? && MatchesSchema(v, schema) == Ok(true)
    ensures |v.items| <= 1000 && Field(schema, "items").Some? && IsSchema(Field(schema, "items").value, depth + 1)
    ensures ItemsMatch(v.items, Field(schema, "items")) == Ok(true)
  {
    hide Value, IsInteger, T, ToString, Field;
  }

  lemma ObjectSchema(v: Json, schema: Json, depth: nat)
    requires IsSchema(schema, depth) && v.Obj? && MatchesSchema(v, schema) == Ok(true)
    ensures Field(schema, "properties").Some? && Field(schema, "properties").value.Obj?
    ensures var properties := Field(schema, "properties").value; |properties.entries| <= 50 && AreSchemas(properties.entries, depth + 1)
    ensures EntriesMatch(v.entries, Field(schema, "properties")) == Ok(true)
  {
    hide Value, IsInteger, T, ToString, Field;
  }

  lemma {:induction false} ItemsAreSmall(items: seq<Json>, schema: Json, depth: nat)
    requires IsSchema(schema, depth) && ItemsMatch(items, Some(schema)) == Ok(true)
    requires forall i | 0 <= i < |items| :: Keyed(items[i])
    ensures VisitItems(items, depth)
    decreases ItemsSize(items), 0
  {
    hide MatchesSchema, IsSchema, Visit;
    if items != [] {
      MatchingIsSmall(items[0], schema, depth);
      ItemsAreSmall(items[1..], schema, depth);
    }
  }

  lemma {:induction false} EntriesAreSmall(entries: seq<Entry>, properties: Json, depth: nat)
    requires properties.Obj? && AreSchemas(properties.entries, depth) && EntriesMatch(entries, Some(properties)) == Ok(true)
    requires forall i | 0 <= i < |entries| :: Keyed(entries[i].value)
    ensures VisitEntries(entries, depth)
    ensures forall i | 0 <= i < |entries| :: entries[i].key in Keys(properties.entries)
    decreases EntriesSize(entries), 0
  {
    hide MatchesSchema, IsSchema, AreSchemas, Visit, Get;
    if entries != [] {
      PropertyIsSchema(properties.entries, depth, entries[0].key);
      MatchingIsSmall(entries[0].value, Get(properties.entries, entries[0].key).value, depth);
      EntriesAreSmall(entries[1..], properties, depth);
    }
  }

  lemma FewEntries(entries: seq<Entry>, properties: seq<Entry>)
    requires DistinctKeys(entries) && forall i | 0 <= i < |entries| :: entries[i].key in Keys(properties)
    ensures |entries| <= |properties|
  {
    DistinctCount(entries);
    KeyCount(properties);
    assert Keys(entries) <= Keys(properties);
    Smaller(Keys(entries), Keys(properties));
  }

  lemma {:induction false} KeyCount(entries: seq<Entry>)
    ensures |Keys(entries)| <= |entries|
  {
    if entries == [] {
      assert Keys(entries) == {};
    } else {
      KeyCount(entries[1..]);
      assert entries == [entries[0]] + entries[1..];
      assert Keys(entries) == {entries[0].key} + Keys(entries[1..]);
    }
  }

  lemma Smaller(a: set<Text>, b: set<Text>)
    requires a <= b
    ensures |a| <= |b|
  {
    assert b == a + (b - a);
  }

  /** Under an accepted schema, exactly the matching values within the byte limit are accepted. */
  lemma AcceptsExactlyMatches(v: Json, schema: Json, limit: nat)
    requires IsSchema(schema, 0) && Keyed(v)
    ensures ValidateSchemaValue(v, schema, limit).Ok? <==> MatchesSchema(v, schema) == Ok(true) && Utf8Length(Canonical(v)) <= limit
  {
    hide IsSchema, Keyed, Canonical, Visit;
    if MatchesSchema(v, schema) == Ok(true) {
      MatchingIsSmall(v, schema, 0);
    }
  }

  // ---------------------------------------------------------------- key order does not matter

  /** Every item matches. */
  lemma {:induction false} ItemsMatchAll(items: seq<Json>, schema: Json)
    ensures ItemsMatch(items, Some(schema)) == Ok(true) <==> forall i | 0 <= i < |items| :: MatchesSchema(items[i], schema) == Ok(true)
  {
    hide MatchesSchema;
    if items != [] {
      ItemsMatchAll(items[1..], schema);
      assert forall i | 0 < i < |items| :: items[i] == items[1..][i - 1];
    }
  }

  /** The entry's key is declared and its value matches what is declared for it. */
  ghost predicate Declared(e: Entry, properties: seq<Entry>) {
    Get(properties, e.key).Some? && MatchesSchema(e.value, Get(properties, e.key).value) == Ok(true)
  }

  /** Every entry has a declared key and matches its schema. */
  lemma {:induction false} EntriesMatchAll(entries: seq<Entry>, properties: Json)
    requires properties.Obj?
    ensures EntriesMatch(entries, Some(properties)) == Ok(true) <==> forall i | 0 <= i < |entries| :: Declared(entries[i], properties.entries)
  {
    hide MatchesSchema, Get;
    if entries != [] {
      EntriesMatchAll(entries[1..], properties);
      assert forall i | 0 < i < |entries| :: entries[i] == entries[1..][i - 1];
      assert Declared(entries[0], properties.entries) <==> Get(properties.entries, entries[0].key).Some? && MatchesSchema(entries[0].value, Get(properties.entries, entries[0].key).value) == Ok(true);
    }
  }

  // ---------------------------------------------------------------- what a matching value is

  /** A field that limits a count or a number does so as a number. */
  ghost predicate Limits(schema: Json, name: string, holds: real -> bool) {
    forall bound | Field(schema, name) == Some(bound) :: bound.Num? && !bound.n.NotFinite? && holds(ValueOf(bound.n))
  }

  ghost function Real(k: int): real {
    k as real
  }

  ghost predicate Whole(x: real) {
    exists k :: Real(k) == x
  }

  /** What a schema says of each kind of value: strings and arrays no longer than allowed, numbers
      finite, within their bounds and whole where that is asked, all items of the one item schema, all
      required names there, and every entry declared. */
  ghost predicate Satisfies(v: Json, schema: Json)
    decreases Size(v), 1
  {
    match v
    case Null => TypeIs(schema, "null")
    case Bool(_) => TypeIs(schema, "boolean")
    case Str(s) => TypeIs(schema, "string") && Limits(schema, "maxLength", (max: real) => |s| as real <= max)
    case Num(n) =>
      && !n.NotFinite? && (TypeIs(schema, "number") || (TypeIs(schema, "integer") && Whole(ValueOf(n))))
      && Limits(schema, "minimum", (min: real) => min <= ValueOf(n)) && Limits(schema, "maximum", (max: real) => ValueOf(n) <= max)
    case Arr(items) =>
      && TypeIs(schema, "array") && Limits(schema, "maxItems", (max: real) => |items| as real <= max)
      && Field(schema, "items").Some?
      && forall i | 0 <= i < |items| :: SizeOfItem(items, i); Satisfies(items[i], Field(schema, "items").value)
    case Obj(entries) =>
      && TypeIs(schema, "object") && Field(schema, "properties").Some? && Field(schema, "properties").value.Obj?
      && (forall required, name | Field(schema, "required") == Some(Arr(required)) && Str(name) in required :: name in Keys(entries))
      && EntriesSatisfy(entries, Field(schema, "properties").value)
  }

  ghost predicate EntriesSatisfy(entries: seq<Entry>, properties: Json)
    requires properties.Obj?
    decreases EntriesSize(entries), 0
  {
    forall i | 0 <= i < |entries| ::
      var declared := Get(properties.entries, entries[i].key);
      SizeOfEntry(entries, i);
      declared.Some? && Satisfies(entries[i].value, declared.value)
  }

  lemma WholeIsInteger(x: real)
    ensures IsInteger(x) <==> Whole(x)
  {
    if IsInteger(x) {
      assert Real(x.Floor) == x;
    }
  }

  /** The seven names of types are different texts. */
  lemma TypeNamesDiffer()
    ensures T("null")[0] == 0x6E && T("boolean")[0] == 0x62 && T("string")[0] == 0x73 && T("number")[0] == 0x6E
    ensures T("integer")[0] == 0x69 && T("array")[0] == 0x61 && T("object")[0] == 0x6F
    ensures |T("null")| == 4 && |T("number")| == 6
  {
  }

  /** Against an accepted schema a value matches exactly if it is what the schema says. */
  lemma {:induction false} MatchesMeans(v: Json, schema: Json, depth: nat)
    requires IsSchema(schema, depth)
    ensures MatchesSchema(v, schema) == Ok(true) <==> Satisfies(v, schema)
    decreases Size(v), 1
  {
    hide IsSchema, AreSchemas, MatchesSchema, Satisfies, EntriesSatisfy, ItemsMatch, EntriesMatch, TypeIs, Field;
    match v
    case Arr(items) =>
      ItemsMeaning(items, schema, depth);
      ArrayMeans(items, schema, depth);
    case Obj(entries) =>
      SchemaParts(schema, depth);
      if TypeIs(schema, "object") {
        EntriesMeaning(entries, Field(schema, "properties").value, depth + 1);
      }
      ObjectMeans(entries, schema, depth);
    case _ => PlainMeans(v, schema, depth);
  }

  lemma PlainMeans(v: Json, schema: Json, depth: nat)
    requires IsSchema(schema, depth) && !v.Arr? && !v.Obj?
    ensures MatchesSchema(v, schema) == Ok(true) <==> Satisfies(v, schema)
  {
    hide IsSchema, Value, T, IsInteger, ItemsMatch, EntriesMatch, RequiredPresent, Field, Whole;
    SchemaParts(schema, depth);
    TypeNamesDiffer();
    if v.Num? && !v.n.NotFinite? {
      WholeIsInteger(ValueOf(v.n));
    }
  }

  lemma ArrayMeans(items: seq<Json>, schema: Json, depth: nat)
    requires IsSchema(schema, depth)
    requires TypeIs(schema, "array") ==>
               (ItemsMatch(items, Field(schema, "items")) == Ok(true) <==>
                forall i | 0 <= i < |items| :: Satisfies(items[i], Field(schema, "items").value))
    ensures MatchesSchema(Arr(items), schema) == Ok(true) <==> Satisfies(Arr(items), schema)
  {
    hide IsSchema, Value, T, IsInteger, ItemsMatch, EntriesMatch, RequiredPresent, Field, Whole;
    SchemaParts(schema, depth);
    TypeNamesDiffer();
    assert Satisfies(Arr(items), schema) <==>
           TypeIs(schema, "array") && Limits(schema, "maxItems", (max: real) => |items| as real <= max) && Field(schema, "items").Some? &&
           forall i | 0 <= i < |items| :: Satisfies(items[i], Field(schema, "items").value);
  }

  lemma ObjectMeans(entries: seq<Entry>, schema: Json, depth: nat)
    requires IsSchema(schema, depth)
    requires TypeIs(schema, "object") ==> Field(schema, "properties").Some? && Field(schema, "properties").value.Obj?
    requires TypeIs(schema, "object") ==>
               (EntriesMatch(entries, Field(schema, "properties")) == Ok(true) <==> EntriesSatisfy(entries, Field(schema, "properties").value))
    ensures MatchesSchema(Obj(entries), schema) == Ok(true) <==> Satisfies(Obj(entries), schema)
  {
    hide IsSchema, Value, T, IsInteger, ItemsMatch, EntriesMatch, RequiredPresent, Field, Whole, Get;
    SchemaParts(schema, depth);
    TypeNamesDiffer();
    if TypeIs(schema, "object") {
      RequiredMeaning(entries, schema, depth);
    }
  }

  lemma ItemsMeaning(items: seq<Json>, schema: Json, depth: nat)
    requires IsSchema(schema, depth)
    ensures TypeIs(schema, "array") ==> Field(schema, "items").Some?
    ensures TypeIs(schema, "array") ==>
            (ItemsMatch(items, Field(schema, "items")) == Ok(true) <==>
             forall i | 0 <= i < |items| :: Satisfies(items[i], Field(schema, "items").value))
    decreases ItemsSize(items), 0
  {
    hide IsSchema, Satisfies, MatchesSchema, ItemsMatch, T;
    SchemaParts(schema, depth);
    if TypeIs(schema, "array") {
      ItemsMatchAll(items, Field(schema, "items").value);
      forall i | 0 <= i < |items|
        ensures MatchesSchema(items[i], Field(schema, "items").value) == Ok(true) <==> Satisfies(items[i], Field(schema, "items").value)
      {
        SizeOfItem(items, i);
        MatchesMeans(items[i], Field(schema, "items").value, depth + 1);
      }
    }
  }

  lemma RequiredMeaning(entries: seq<Entry>, schema: Json, depth: nat)
    requires IsSchema(schema, depth) && TypeIs(schema, "object")
    ensures RequiredPresent(entries, Field(schema, "required")) == Ok(true) <==>
            forall required, name | Field(schema, "required") == Some(Arr(required)) && Str(name) in required :: name in Keys(entries)
  {
    hide AreSchemas, T, Value, IsInteger, ToString, Field;
    forall name: Text
      ensures Get(entries, name).Some? <==> name in Keys(entries)
    {
      assert forall i | 0 <= i < |entries| :: entries[i] in entries;
    }
    if Field(schema, "required").Some? {
      RequiredNames(schema, depth);
    }
  }

  lemma RequiredNames(schema: Json, depth: nat)
    requires IsSchema(schema, depth) && TypeIs(schema, "object") && Field(schema, "required").Some?
    ensures Field(schema, "required").value.Arr? && forall x | x in Field(schema, "required").value.items :: x.Str?
  {
    hide AreSchemas, T, Value, IsInteger, ToString, Field;
  }

  lemma EntriesMeaning(entries: seq<Entry>, properties: Json, depth: nat)
    requires properties.Obj? && AreSchemas(properties.entries, depth)
    ensures EntriesMatch(entries, Some(properties)) == Ok(true) <==> EntriesSatisfy(entries, properties)
    decreases EntriesSize(entries), 0
  {
    hide IsSchema, AreSchemas, Satisfies, MatchesSchema, EntriesMatch, Get;
    EntriesMatchAll(entries, properties);
    forall i | 0 <= i < |entries|
      ensures Declared(entries[i], properties.entries) <==>
              Get(properties.entries, entries[i].key).Some? && Satisfies(entries[i].value, Get(properties.entries, entries[i].key).value)
    {
      if Get(properties.entries, entries[i].key).Some? {
        PropertyIsSchema(properties.entries, depth, entries[i].key);
        SizeOfEntry(entries, i);
        MatchesMeans(entries[i].value, Get(properties.entries, entries[i].key).value, depth);
      }
    }
  }

  lemma EquivSymmetric(a: Json, b: Json)
    requires Proper(a) && Proper(b) && Equiv(a, b)
    ensures Equiv(b, a)
  {
    hide Equiv, Proper;
    CanonicalJson.EquivIsNormal(a, b);
    CanonicalJson.EquivIsNormal(b, a);
  }

  lemma ZeroHasNoSign()
    ensures ValueOf(Finite([0x30])) == ValueOf(MinusZero)
  {
    assert [0x30][..0] == [];
    assert DigitsValue([0x30]) == 0.0;
    assert DigitsValue([]) == 0.0;
    assert [0x30][..1] == [0x30];
    assert Mantissa([0x30]) == 0.0;
  }

  lemma {:induction false} EquivMatches(v: Json, w: Json, schema: Json, depth: nat)
    requires IsSchema(schema, depth) && Proper(v) && Proper(w) && Equiv(v, w) && MatchesSchema(v, schema) == Ok(true)
    ensures MatchesSchema(w, schema) == Ok(true)
    decreases Size(v), 1
  {
    hide IsSchema, Value, T, Field, IsInteger, ItemsMatch, EntriesMatch, RequiredPresent;
    SchemaParts(schema, depth);
    ZeroHasNoSign();
    if TypeIs(schema, "array") && v.Arr? {
      EquivItemsMatch(v.items, w.items, Field(schema, "items").value, depth + 1);
    } else if TypeIs(schema, "object") && v.Obj? {
      EquivRequired(v.entries, w.entries, Field(schema, "required"));
      EquivEntriesMatch(v.entries, w.entries, Field(schema, "properties").value, depth + 1);
    }
  }

  lemma {:induction false} EquivItemsMatch(v: seq<Json>, w: seq<Json>, schema: Json, depth: nat)
    requires IsSchema(schema, depth) && Proper(Arr(v)) && Proper(Arr(w)) && Equiv(Arr(v), Arr(w))
    ensures ItemsMatch(v, Some(schema)) == Ok(true) ==> ItemsMatch(w, Some(schema)) == Ok(true)
    decreases ItemsSize(v), 0
  {
    hide IsSchema, MatchesSchema, ItemsMatch;
    ItemsMatchAll(v, schema);
    ItemsMatchAll(w, schema);
    if ItemsMatch(v, Some(schema)) == Ok(true) {
      forall i | 0 <= i < |w|
        ensures MatchesSchema(w[i], schema) == Ok(true)
      {
        SizeOfItem(v, i);
        EquivMatches(v[i], w[i], schema, depth);
      }
    }
  }

  lemma EquivRequired(v: seq<Entry>, w: seq<Entry>, required: Option<Json>)
    requires Equiv(Obj(v), Obj(w))
    ensures RequiredPresent(v, required) == Ok(true) ==> RequiredPresent(w, required) == Ok(true)
  {
    hide Get;
  }

  lemma Partner(v: seq<Entry>, w: seq<Entry>, i: nat) returns (j: nat)
    requires Equiv(Obj(v), Obj(w)) && Proper(Obj(v)) && Proper(Obj(w)) && i < |v|
    ensures j < |w| && v[i].key == w[j].key && Equiv(v[i].value, w[j].value)
    ensures Proper(v[i].value) && Proper(w[j].value)
  {
    j :| 0 <= j < |w| && v[i].key == w[j].key && Equiv(v[i].value, w[j].value);
  }

  lemma {:induction false} EquivEntriesMatch(v: seq<Entry>, w: seq<Entry>, properties: Json, depth: nat)
    requires properties.Obj? && AreSchemas(properties.entries, depth)
    requires Proper(Obj(v)) && Proper(Obj(w)) && Equiv(Obj(v), Obj(w))
    ensures EntriesMatch(v, Some(properties)) == Ok(true) ==> EntriesMatch(w, Some(properties)) == Ok(true)
    decreases EntriesSize(v), 0
  {
    hide AreSchemas, MatchesSchema, EntriesMatch, IsSchema, Get, Equiv, Proper;
    EntriesMatchAll(v, properties);
    EntriesMatchAll(w, properties);
    EquivSymmetric(Obj(v), Obj(w));
    if EntriesMatch(v, Some(properties)) == Ok(true) {
      forall j | 0 <= j < |w|
        ensures Declared(w[j], properties.entries)
      {
        var i := Partner(w, v, j);
        EquivSymmetric(w[j].value, v[i].value);
        assert Declared(v[i], properties.entries);
        PropertyIsSchema(properties.entries, depth, v[i].key);
        SizeOfEntry(v, i);
        EquivMatches(v[i].value, w[j].value, Get(properties.entries, v[i].key).value, depth);
      }
    }
  }

  /** Values with the same canonical text, and so with the same hash, are accepted alike. */
  lemma SameTextSameVerdict(v: Json, w: Json, schema: Json, limit: nat)
    requires Proper(v) && Proper(w) && IsSchema(schema, 0) && Canonical(v) == Canonical(w)
    ensures ValidateSchemaValue(v, schema, limit) == ValidateSchemaValue(w, schema, limit)
  {
    hide Canonical, Equiv, Proper, IsSchema, MatchesSchema, Keyed, Visit;
    ProperIsKeyed(v);
    ProperIsKeyed(w);
    CanonicalJson.CanonicalIsInjective(v, w);
    EquivSymmetric(v, w);
    AcceptsExactlyMatches(v, schema, limit);
    AcceptsExactlyMatches(w, schema, limit);
    if MatchesSchema(v, schema) == Ok(true) {
      EquivMatches(v, w, schema, 0);
    } else if MatchesSchema(w, schema) == Ok(true) {
      EquivMatches(w, v, schema, 0);
    }
  }

  // ---------------------------------------------------------------- a type that is not a name

  /** The type is compared as a string, so a list around a name is accepted and then matches nothing. */
  lemma OnlyNamesMatch(v: Json, schema: Json, depth: nat)
    requires IsSchema(schema, depth) && !Field(schema, "type").value.Str?
    ensures MatchesSchema(v, schema) == Ok(false)
  {
  }

  lemma ListTypeIsAccepted()
    ensures var schema := Obj([Entry(T("type"), Arr([Str(T("string"))]))]);
      IsSchema(schema, 0) && !Field(schema, "type").value.Str?
  {
    var name := Str(T("string"));
    var schema := Obj([Entry(T("type"), Arr([name]))]);
    assert Joined([name]) == T("string");
    assert Get(schema.entries, T("type")) == Some(Arr([name]));
    assert forall key | |key| != 4 :: Get(schema.entries, key).None?;
  }
}
