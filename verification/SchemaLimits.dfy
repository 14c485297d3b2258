/** The limits of an accepted schema, kind by kind: each is exact. */
module SchemaLimits {
  import opened Effects
  import opened Json
  import opened ServiceSchema
  import opened SchemaMatchability

  function Named(name: string, value: Json): Entry {
    Entry(T(name), value)
  }

  /** The text of the number one. */
  function One(): Json {
    IntTextValue(1);
    Num(Finite(IntText(1)))
  }

  /** The nine names a schema may use are different texts. */
  lemma NineNames()
    ensures T("type")[1] == 0x79 && T("properties")[0] == 0x70 && T("required")[0] == 0x72 && T("additionalProperties")[0] == 0x61
    ensures T("items")[0] == 0x69 && T("maxItems")[3] == 0x49 && T("maxLength")[3] == 0x4C && T("minimum")[1] == 0x69 && T("maximum")[4] == 0x6D
    ensures |T("type")| == 4 && |T("maxItems")| == 8 && |T("maxLength")| == 9 && |T("minimum")| == 7 && |T("maximum")| == 7 && |T("items")| == 5
    ensures T("type")[0] == 0x74 && T("maxItems")[0] == 0x6D && T("maxLength")[0] == 0x6D && T("minimum")[0] == 0x6D && T("maximum")[0] == 0x6D
  {
  }

  lemma FieldsOfThree(a: Entry, b: Entry, c: Entry)
    ensures forall name :: Field(Obj([a, b, c]), name) ==
              if a.key == T(name) then Some(a.value) else if b.key == T(name) then Some(b.value) else if c.key == T(name) then Some(c.value) else None
  {
    hide T, Get;
    forall name {
      GetOfThree(a, b, c, T(name));
    }
  }

  lemma FieldsOfTwo(a: Entry, b: Entry)
    ensures forall name :: Field(Obj([a, b]), name) ==
              if a.key == T(name) then Some(a.value) else if b.key == T(name) then Some(b.value) else None
  {
    hide T;
    var es := [a, b];
    assert es[1..] == [b] && [b][1..] == [];
    assert forall key :: Get([b], key) == if b.key == key then Some(b.value) else None;
    assert forall key :: Get(es, key) == if a.key == key then Some(a.value) else Get([b], key);
  }

  // ---------------------------------------------------------------- strings and arrays

  /** A number that is whole and not beyond a limit. */
  ghost predicate UpToLimit(bound: Json, limit: int) {
    bound.Num? && !bound.n.NotFinite? && Whole(ValueOf(bound.n)) && 0.0 <= ValueOf(bound.n) <= limit as real
  }

  lemma CountIsUpToLimit(bound: Json, limit: int)
    requires limit <= 65536
    ensures UpToLimit(bound, limit) <==> SafeInteger(bound) && 0.0 <= ValueOf(bound.n) <= limit as real
  {
    if bound.Num? && !bound.n.NotFinite? {
      WholeIsInteger(ValueOf(bound.n));
    }
  }

  function TextSchema(bound: Json): Json {
    Obj([Named("type", Str(T("string"))), Named("maxLength", bound)])
  }

  lemma TextNames()
    ensures {T("type"), T("maxLength")} !! {T("properties"), T("required"), T("additionalProperties"), T("items"), T("maxItems"), T("minimum"), T("maximum")}
    ensures T("type") != T("maxLength")
  {
    NineNames();
    hide T;
  }

  lemma TextFields(bound: Json)
    ensures var s := TextSchema(bound);
      && Field(s, "type") == Some(Str(T("string"))) && Field(s, "maxLength") == Some(bound)
      && Field(s, "properties").None? && Field(s, "required").None? && Field(s, "additionalProperties").None?
      && Field(s, "items").None? && Field(s, "maxItems").None? && Field(s, "minimum").None? && Field(s, "maximum").None?
      && forall i | 0 <= i < |s.entries| :: s.entries[i].key in SCHEMA_KEYS
  {
    assert T("type") in SCHEMA_KEYS && T("maxLength") in SCHEMA_KEYS;
    hide T, Field;
    TextNames();
    FieldsOfTwo(Named("type", Str(T("string"))), Named("maxLength", bound));
  }

  /** A string may be limited to any whole number up to 65536 of units. */
  lemma TextLimit(bound: Json)
    ensures IsSchema(TextSchema(bound), 0) <==> UpToLimit(bound, 65536)
  {
    TextFields(bound);
    CountIsUpToLimit(bound, 65536);
    TypeNamesDiffer();
    assert TextSchema(bound).Obj?;
    hide T, Field, ValueOf, Value, TextSchema, SafeInteger, UpToLimit;
    assert ToString(Str(T("string"))) == T("string") && T("string") in KINDS;
  }

  function ListSchema(item: Json, bound: Json): Json {
    Obj([Named("type", Str(T("array"))), Named("items", item), Named("maxItems", bound)])
  }

  lemma ListNames()
    ensures {T("type"), T("items"), T("maxItems")} !! {T("properties"), T("required"), T("additionalProperties"), T("maxLength"), T("minimum"), T("maximum")}
    ensures T("type") != T("items") && T("type") != T("maxItems") && T("items") != T("maxItems")
  {
    NineNames();
    hide T;
  }

  lemma ListFields(item: Json, bound: Json)
    ensures var s := ListSchema(item, bound);
      && Field(s, "type") == Some(Str(T("array"))) && Field(s, "items") == Some(item) && Field(s, "maxItems") == Some(bound)
      && Field(s, "properties").None? && Field(s, "required").None? && Field(s, "additionalProperties").None?
      && Field(s, "maxLength").None? && Field(s, "minimum").None? && Field(s, "maximum").None?
      && forall i | 0 <= i < |s.entries| :: s.entries[i].key in SCHEMA_KEYS
  {
    hide T, Field;
    ListNames();
    FieldsOfThree(Named("type", Str(T("array"))), Named("items", item), Named("maxItems", bound));
  }

  /** An array has one accepted item schema and room for at most a thousand items. */
  lemma ListLimit(item: Json, bound: Json, depth: nat)
    ensures IsSchema(ListSchema(item, bound), depth) <==> depth <= 8 && IsSchema(item, depth + 1) && UpToLimit(bound, 1000)
  {
    ListFields(item, bound);
    CountIsUpToLimit(bound, 1000);
    TypeNamesDiffer();
    assert ListSchema(item, bound).Obj?;
    hide T, Field, ValueOf, Value, ListSchema, SafeInteger, UpToLimit;
    assert ToString(Str(T("array"))) == T("array") && T("array") in KINDS;
  }

  // ---------------------------------------------------------------- plain types

  function PlainSchema(t: Text): Json {
    Obj([Entry(T("type"), Str(t))])
  }

  /** On its own, a type is one of the five that need no further field. */
  lemma PlainTypes(t: Text, depth: nat)
    ensures IsSchema(PlainSchema(t), depth) <==>
            depth <= 8 && (t == T("string") || t == T("number") || t == T("integer") || t == T("boolean") || t == T("null"))
  {
    NineNames();
    var e := Entry(T("type"), Str(t));
    assert [e][1..] == [];
    assert forall key :: Get([e], key) == if e.key == key then Some(Str(t)) else None;
    assert Field(PlainSchema(t), "type") == Some(Str(t));
    TypeNamesDiffer();
    assert ToString(Str(t)) == t;
    hide T, Get, ValueOf, Value;
  }

  /** `k` arrays around a null. */
  function Nested(k: nat): Json {
    if k == 0 then PlainSchema(T("null")) else ListSchema(Nested(k - 1), One())
  }

  lemma {:induction false} NestedAt(k: nat, depth: nat)
    ensures IsSchema(Nested(k), depth) <==> depth + k <= 8
  {
    hide IsSchema, T;
    if k == 0 {
      PlainTypes(T("null"), depth);
    } else {
      NestedAt(k - 1, depth + 1);
      IntTextValue(1);
      assert Real(1) == ValueOf(One().n);
      ListLimit(Nested(k - 1), One(), depth);
    }
  }

  /** Schemas nest eight deep and no deeper. */
  lemma NestingLimit(k: nat)
    ensures IsSchema(Nested(k), 0) <==> k <= 8
  {
    NestedAt(k, 0);
  }

  // ---------------------------------------------------------------- objects and numbers

  function RecordSchema(properties: seq<Entry>, additional: Json): Json {
    Obj([Named("type", Str(T("object"))), Named("additionalProperties", additional), Named("properties", Obj(properties))])
  }

  lemma RecordNames()
    ensures {T("type"), T("additionalProperties"), T("properties")} !! {T("required"), T("items"), T("maxItems"), T("maxLength"), T("minimum"), T("maximum")}
    ensures T("type") != T("additionalProperties") && T("type") != T("properties") && T("additionalProperties") != T("properties")
  {
    NineNames();
    hide T;
  }

  lemma RecordFields(properties: seq<Entry>, additional: Json)
    ensures var s := RecordSchema(properties, additional);
      && Field(s, "type") == Some(Str(T("object"))) && Field(s, "additionalProperties") == Some(additional)
      && Field(s, "properties") == Some(Obj(properties)) && Field(s, "required").None?
      && Field(s, "items").None? && Field(s, "maxItems").None? && Field(s, "maxLength").None? && Field(s, "minimum").None? && Field(s, "maximum").None?
      && forall i | 0 <= i < |s.entries| :: s.entries[i].key in SCHEMA_KEYS
  {
    hide T, Field;
    RecordNames();
    FieldsOfThree(Named("type", Str(T("object"))), Named("additionalProperties", additional), Named("properties", Obj(properties)));
  }

  lemma {:induction false} EachIsSchema(properties: seq<Entry>, depth: nat)
    ensures AreSchemas(properties, depth) <==>
            forall i | 0 <= i < |properties| :: 1 <= |properties[i].key| <= 80 && IsSchema(properties[i].value, depth)
  {
    hide IsSchema;
    if properties != [] {
      EachIsSchema(properties[1..], depth);
      assert forall i | 0 < i < |properties| :: properties[i] == properties[1..][i - 1];
    }
  }

  /** An object allows no other names, and declares at most fifty of one to eighty units, each with an
      accepted schema. */
  lemma RecordLimit(properties: seq<Entry>, additional: Json, depth: nat)
    ensures IsSchema(RecordSchema(properties, additional), depth) <==>
            && depth <= 8 && additional == Bool(false) && |properties| <= 50
            && forall i | 0 <= i < |properties| :: 1 <= |properties[i].key| <= 80 && IsSchema(properties[i].value, depth + 1)
  {
    RecordFields(properties, additional);
    EachIsSchema(properties, depth + 1);
    TypeNamesDiffer();
    hide T, Field, ValueOf, Value, RecordSchema, AreSchemas;
    assert ToString(Str(T("object"))) == T("object") && T("object") in KINDS;
  }

  /** The same object with a list of required names. */
  function RequiringSchema(properties: seq<Entry>, required: Json): Json {
    Obj([Named("required", required)] + RecordSchema(properties, Bool(false)).entries)
  }

  lemma FieldBehind(e: Entry, entries: seq<Entry>)
    ensures forall name :: Field(Obj([e] + entries), name) == if e.key == T(name) then Some(e.value) else Field(Obj(entries), name)
    ensures e.key in SCHEMA_KEYS && (forall i | 0 <= i < |entries| :: entries[i].key in SCHEMA_KEYS) ==>
              forall i | 0 <= i < |[e] + entries| :: ([e] + entries)[i].key in SCHEMA_KEYS
  {
    assert ([e] + entries)[1..] == entries;
    hide T;
    assert forall i | 0 < i < |[e] + entries| :: ([e] + entries)[i] == entries[i - 1];
  }

  lemma RequiringFields(properties: seq<Entry>, required: Json)
    ensures var s, base := RequiringSchema(properties, required), RecordSchema(properties, Bool(false));
      && Field(s, "required") == Some(required)
      && (forall name | T(name) != T("required") :: Field(s, name) == Field(base, name))
      && forall i | 0 <= i < |s.entries| :: s.entries[i].key in SCHEMA_KEYS
  {
    RecordFields(properties, Bool(false));
    assert T("required") in SCHEMA_KEYS;
    hide T, Field;
    FieldBehind(Named("required", required), RecordSchema(properties, Bool(false)).entries);
  }

  lemma RequiredIsAnother()
    ensures T("required") !in {T("type"), T("properties"), T("additionalProperties"), T("items"), T("maxItems"), T("maxLength"), T("minimum"), T("maximum")}
  {
    NineNames();
  }

  lemma RequiringKept(properties: seq<Entry>, required: Json)
    ensures var s := RequiringSchema(properties, required);
      && s.Obj? && Field(s, "required") == Some(required)
      && Field(s, "type") == Some(Str(T("object"))) && Field(s, "additionalProperties") == Some(Bool(false))
      && Field(s, "properties") == Some(Obj(properties))
      && Field(s, "items").None? && Field(s, "maxItems").None? && Field(s, "maxLength").None? && Field(s, "minimum").None? && Field(s, "maximum").None?
      && forall i | 0 <= i < |s.entries| :: s.entries[i].key in SCHEMA_KEYS
  {
    RequiredIsAnother();
    hide T, Field, RecordSchema;
    RecordFields(properties, Bool(false));
    RequiringFields(properties, required);
  }

  lemma DeclaredIsRequiredList(required: Json, properties: seq<Entry>)
    requires DeclaredOnce(required, Obj(properties))
    ensures IsRequiredList(required, properties)
  {
    hide Get;
    assert forall i | 0 <= i < |required.items| :: required.items[i] in required.items;
  }

  lemma ObjectNamed(schema: Json)
    requires Field(schema, "type") == Some(Str(T("object")))
    ensures TypeIs(schema, "object") && !TypeIs(schema, "array") && !TypeIs(schema, "string")
    ensures ToString(Field(schema, "type").value) in KINDS
  {
    TypeNamesDiffer();
    hide T, Field;
    assert ToString(Str(T("object"))) == T("object") && T("object") in KINDS;
  }

  lemma RequiredSuffices(properties: seq<Entry>, required: Json, depth: nat)
    requires depth <= 8 && |properties| <= 50 && AreSchemas(properties, depth + 1) && DeclaredOnce(required, Obj(properties))
    ensures IsSchema(RequiringSchema(properties, required), depth)
  {
    RequiringKept(properties, required);
    DeclaredIsRequiredList(required, properties);
    ObjectNamed(RequiringSchema(properties, required));
    hide T, Field, ValueOf, Value, RequiringSchema, AreSchemas, Get, ToString, IsRequiredList, DeclaredOnce, SafeInteger, TypeIs, IsNumeric;
  }

  /** Required is exactly a list of distinct declared names. */
  lemma RequiredLimit(properties: seq<Entry>, required: Json, depth: nat)
    requires IsSchema(RecordSchema(properties, Bool(false)), depth)
    ensures IsSchema(RequiringSchema(properties, required), depth) <==> DeclaredOnce(required, Obj(properties))
  {
    RecordLimit(properties, Bool(false), depth);
    EachIsSchema(properties, depth + 1);
    RequiringKept(properties, required);
    hide IsSchema, T, Field, RequiringSchema, RecordSchema, AreSchemas, DeclaredOnce;
    if DeclaredOnce(required, Obj(properties)) {
      RequiredSuffices(properties, required, depth);
    }
    if IsSchema(RequiringSchema(properties, required), depth) {
      FieldsFit(RequiringSchema(properties, required), depth);
    }
  }

  /** An integer's bounds may meet but not cross. */
  lemma RangeLimit(low: Number, high: Number)
    ensures IsSchema(RangeSchema(low, high), 0) <==> !low.NotFinite? && !high.NotFinite? && ValueOf(low) <= ValueOf(high)
  {
    RangeFields(low, high);
    RangeKind(low, high);
    hide Value, Get, T, Field, RangeSchema;
    if !low.NotFinite? && !high.NotFinite? && ValueOf(low) <= ValueOf(high) {
      RangeIsSchema(low, high);
    }
  }

  // ---------------------------------------------------------------- every accepted schema

  /** What an accepted schema's fields are, whatever its type: each belongs to its type and is within
      its limit. */
  lemma FieldsFit(schema: Json, depth: nat)
    requires IsSchema(schema, depth)
    ensures depth <= 8 && schema.Obj?
    ensures TypeIs(schema, "object") ==>
              && Field(schema, "additionalProperties") == Some(Bool(false)) && Field(schema, "properties").Some? && Field(schema, "properties").value.Obj?
              && var properties := Field(schema, "properties").value.entries;
                 |properties| <= 50 && forall i | 0 <= i < |properties| :: 1 <= |properties[i].key| <= 80 && IsSchema(properties[i].value, depth + 1)
    ensures TypeIs(schema, "object") && Field(schema, "required").Some? ==> DeclaredOnce(Field(schema, "required").value, Field(schema, "properties").value)
    ensures !TypeIs(schema, "object") ==> Field(schema, "properties").None? && Field(schema, "required").None? && Field(schema, "additionalProperties").None?
    ensures TypeIs(schema, "array") ==>
              && Field(schema, "items").Some? && IsSchema(Field(schema, "items").value, depth + 1)
              && Field(schema, "maxItems").Some? && UpToLimit(Field(schema, "maxItems").value, 1000)
    ensures !TypeIs(schema, "array") ==> Field(schema, "items").None? && Field(schema, "maxItems").None?
    ensures Field(schema, "maxLength").Some? ==> TypeIs(schema, "string") && UpToLimit(Field(schema, "maxLength").value, 65536)
    ensures forall name, bound | name in {"minimum", "maximum"} && Field(schema, name) == Some(bound) ::
              (TypeIs(schema, "number") || TypeIs(schema, "integer")) && bound.Num? && !bound.n.NotFinite?
    ensures forall low, high | Field(schema, "minimum") == Some(Num(low)) && Field(schema, "maximum") == Some(Num(high)) :: ValueOf(low) <= ValueOf(high)
  {
    hide T, Field, Value, IsInteger, ToString, UpToLimit, Get;
    if TypeIs(schema, "object") {
      EachIsSchema(Field(schema, "properties").value.entries, depth + 1);
    }
    if Field(schema, "maxItems").Some? {
      CountIsUpToLimit(Field(schema, "maxItems").value, 1000);
    }
    if Field(schema, "maxLength").Some? {
      CountIsUpToLimit(Field(schema, "maxLength").value, 65536);
    }
  }

  /** A list of distinct names, each of them declared. */
  ghost predicate DeclaredOnce(required: Json, properties: Json) {
    && required.Arr? && properties.Obj?
    && (forall i, j | 0 <= i < j < |required.items| :: required.items[i] != required.items[j])
    && forall x | x in required.items :: x.Str? && Get(properties.entries, x.s).Some?
  }

  // ---------------------------------------------------------------- types that are no names

  function TypedSchema(x: Json): Json {
    Obj([Entry(T("type"), x)])
  }

  /** A type's name inside any number of one-element lists. */
  ghost predicate Wrapped(x: Json) {
    match x
    case Str(s) => s in {T("object"), T("array"), T("string"), T("number"), T("integer"), T("boolean"), T("null")}
    case Arr(items) => |items| == 1 && Wrapped(items[0])
    case _ => false
  }

  lemma NamesArePlain(t: Text)
    requires t in KINDS
    ensures t != [] && 0x61 <= t[0] <= 0x7A && 0x2C !in t
  {
    assert forall i | 0 <= i < |T("object")| :: T("object")[i] != 0x2C;
    assert forall i | 0 <= i < |T("array")| :: T("array")[i] != 0x2C;
    assert forall i | 0 <= i < |T("string")| :: T("string")[i] != 0x2C;
    assert forall i | 0 <= i < |T("number")| :: T("number")[i] != 0x2C;
    assert forall i | 0 <= i < |T("integer")| :: T("integer")[i] != 0x2C;
    assert forall i | 0 <= i < |T("boolean")| :: T("boolean")[i] != 0x2C;
    assert forall i | 0 <= i < |T("null")| :: T("null")[i] != 0x2C;
    TypeNamesDiffer();
  }

  lemma NoKindIsAWord()
    ensures T("true") !in KINDS && T("false") !in KINDS && T("NaN") !in KINDS && T("[object Object]") !in KINDS
  {
    assert T("true")[0] == 0x74 && T("false")[0] == 0x66 && T("NaN")[0] == 0x4E && T("[object Object]")[0] == 0x5B;
    TypeNamesDiffer();
  }

  /** The seven names are what null and wrapped names print as, and nothing else does. */
  lemma {:induction false} PrintsAsKind(x: Json)
    ensures ToString(x) in KINDS <==> x.Null? || Wrapped(x)
  {
    hide T;
    NoKindIsAWord();
    match x
    case Num(n) =>
      if ToString(x) in KINDS {
        NamesArePlain(ToString(x));
      }
    case Arr(items) =>
      if |items| == 1 {
        PrintsAsKind(items[0]);
        assert Joined(items) == if items[0].Null? then [] else ToString(items[0]);
        if Joined(items) in KINDS {
          NamesArePlain(Joined(items));
        }
      } else if Joined(items) in KINDS {
        NamesArePlain(Joined(items));
      }
    case _ =>
  }

  /** With nothing but a type, a schema is accepted exactly for the five names that need no more, for
      null, and for any of the seven names wrapped in lists. */
  lemma TypesAccepted(x: Json, depth: nat)
    ensures IsSchema(TypedSchema(x), depth) <==>
            depth <= 8 && (x.Null? || Wrapped(x)) && x != Str(T("object")) && x != Str(T("array"))
  {
    NineNames();
    PrintsAsKind(x);
    var e := Entry(T("type"), x);
    assert [e][1..] == [];
    assert forall key :: Get([e], key) == if e.key == key then Some(x) else None;
    assert Field(TypedSchema(x), "type") == Some(x);
    TypeNamesDiffer();
    hide T, Get, ValueOf, Value, ToString, Wrapped;
  }

  /** A field by any other name is refused. */
  lemma UnknownName(schema: Json, depth: nat, i: nat)
    requires schema.Obj? && i < |schema.entries|
    requires schema.entries[i].key !in {T("type"), T("properties"), T("required"), T("additionalProperties"), T("items"),
                                        T("maxItems"), T("maxLength"), T("minimum"), T("maximum")}
    ensures !IsSchema(schema, depth)
  {
    hide T;
  }

  // ---------------------------------------------------------------- limits on values

  lemma {:induction false} VisitsAll(items: seq<Json>, depth: nat)
    ensures VisitItems(items, depth) <==> forall i | 0 <= i < |items| :: Visit(items[i], depth)
  {
    hide Visit;
    if items != [] {
      VisitsAll(items[1..], depth);
      assert forall i | 0 < i < |items| :: items[i] == items[1..][i - 1];
    }
  }

  lemma {:induction false} VisitsEntries(entries: seq<Entry>, depth: nat)
    ensures VisitEntries(entries, depth) <==> forall i | 0 <= i < |entries| :: 1 <= |entries[i].key| <= 256 && Visit(entries[i].value, depth)
  {
    hide Visit;
    if entries != [] {
      VisitsEntries(entries[1..], depth);
      assert forall i | 0 < i < |entries| :: entries[i] == entries[1..][i - 1];
    }
  }

  /** Values nest twelve deep and no deeper, with at most a thousand items or entries, keys of one to 256
      units, and finite numbers. */
  lemma VisitLimit(v: Json, depth: nat)
    ensures Visit(v, depth) <==>
            && depth <= 12
            && (v.Num? ==> !v.n.NotFinite?)
            && (v.Arr? ==> |v.items| <= 1000 && forall i | 0 <= i < |v.items| :: Visit(v.items[i], depth + 1))
            && (v.Obj? ==> |v.entries| <= 1000 && forall i | 0 <= i < |v.entries| :: 1 <= |v.entries[i].key| <= 256 && Visit(v.entries[i].value, depth + 1))
  {
    if v.Arr? {
      VisitsAll(v.items, depth + 1);
    } else if v.Obj? {
      VisitsEntries(v.entries, depth + 1);
    }
  }

  /** The point beyond the basic plane a pair stands for. */
  ghost function CodePoint(high: nat, low: nat): nat
    requires 0xD800 <= high && 0xDC00 <= low
  {
    0x10000 + (high - 0xD800) * 0x400 + (low - 0xDC00)
  }

  /** The code points of a text; half a pair alone becomes the replacement character. */
  ghost function CodePoints(t: Text): seq<nat> {
    if t == [] then []
    else if |t| > 1 && 0xD800 <= t[0] <= 0xDBFF && 0xDC00 <= t[1] <= 0xDFFF then
      [CodePoint(t[0], t[1])] + CodePoints(t[2..])
    else [if 0xD800 <= t[0] <= 0xDFFF then 0xFFFD else t[0]] + CodePoints(t[1..])
  }

  /** UTF-8, one code point: seven, eleven, sixteen or twenty-one bits. */
  ghost function Encoded(p: nat): seq<nat> {
    if p < 0x80 then [p]
    else if p < 0x800 then [0xC0 + p / 64, 0x80 + p % 64]
    else if p < 0x10000 then [0xE0 + p / 4096, 0x80 + p / 64 % 64, 0x80 + p % 64]
    else [0xF0 + p / 262144, 0x80 + p / 4096 % 64, 0x80 + p / 64 % 64, 0x80 + p % 64]
  }

  ghost function EncodedAll(ps: seq<nat>): seq<nat> {
    if ps == [] then [] else Encoded(ps[0]) + EncodedAll(ps[1..])
  }

  /** The counted bytes are those of the encoded text. */
  lemma {:induction false} Utf8LengthIsEncoded(t: Text)
    ensures Utf8Length(t) == |EncodedAll(CodePoints(t))|
  {
    if t != [] {
      var paired := |t| > 1 && 0xD800 <= t[0] <= 0xDBFF && 0xDC00 <= t[1] <= 0xDFFF;
      var rest := if paired then t[2..] else t[1..];
      Utf8LengthIsEncoded(rest);
      assert CodePoints(t)[1..] == CodePoints(rest);
    }
  }
}
