/** Which accepted schemas accept anything at all. */
module SchemaMatchability {
  import opened Effects
  import opened Json
  import opened ServiceSchema

  function Ceiling(x: real): (n: int)
    ensures (n - 1) as real < x <= n as real
  {
    -((-x).Floor)
  }

  /** No lower bound, no upper bound, or the first integer from below is not above. */
  predicate HoldsAnInteger(schema: Json)
    requires IsBound(schema, "minimum") && IsBound(schema, "maximum")
  {
    Field(schema, "minimum").Some? && Field(schema, "maximum").Some? ==>
      Ceiling(ValueOf(Field(schema, "minimum").value.n)) as real <= ValueOf(Field(schema, "maximum").value.n)
  }

  /** The type is a plain name, integers have room between their bounds, and everything an object
      requires can itself be given. */
  predicate Matchable(schema: Json)
    decreases Size(schema)
  {
    && Field(schema, "type").Some? && Field(schema, "type").value.Str?
    && (TypeIs(schema, "integer") ==> IsBound(schema, "minimum") && IsBound(schema, "maximum") && HoldsAnInteger(schema))
    && (TypeIs(schema, "object") && Field(schema, "required").Some? && Field(schema, "required").value.Arr? &&
        Field(schema, "properties").Some? && Field(schema, "properties").value.Obj? ==>
          var names, properties := Field(schema, "required").value.items, Field(schema, "properties").value.entries;
          forall i | 0 <= i < |names| && names[i].Str? && Get(properties, names[i].s).Some? ::
            Matchable(Get(properties, names[i].s).value))
  }

  // ---------------------------------------------------------------- integers have texts

  function NatText(n: nat): Text {
    if n < 10 then [0x30 + n] else NatText(n / 10) + [0x30 + n % 10]
  }

  function IntText(k: int): Text {
    if k < 0 then [0x2D] + NatText(-k) else NatText(k)
  }

  ghost predicate AllDigits(t: Text) {
    forall i | 0 <= i < |t| :: 0x30 <= t[i] <= 0x39
  }

  lemma {:induction false} NatTextDigits(n: nat)
    ensures NatText(n) != [] && AllDigits(NatText(n)) && DigitsValue(NatText(n)) == n as real
  {
    if n < 10 {
      assert [0x30 + n][..0] == [];
      assert DigitsValue([0x30 + n]) == DigitsValue([0x30 + n][..0]) * 10.0 + n as real;
    } else {
      NatTextDigits(n / 10);
      var t := NatText(n);
      assert t[..|t| - 1] == NatText(n / 10);
      assert n == n / 10 * 10 + n % 10;
    }
  }

  lemma {:induction false} NotFound(t: Text, c: Unit)
    requires forall i | 0 <= i < |t| :: t[i] != c
    ensures UpTo(t, c) == |t|
  {
    if t != [] {
      NotFound(t[1..], c);
    }
  }

  lemma DigitsAreTheirValue(t: Text)
    requires t != [] && AllDigits(t)
    ensures Value(t) == DigitsValue(t)
  {
    NotFound(t, 0x65);
    NotFound(t, 0x2E);
    assert t[..|t|] == t;
    assert DigitsValue([]) == 0.0 && TenTo(0) == 1.0;
    assert Mantissa(t) == DigitsValue(t);
  }

  lemma IntTextValue(k: int)
    ensures IsToken(IntText(k)) && Value(IntText(k)) == k as real
  {
    hide NatText, Mantissa, Scaled, DigitsValue;
    var n: nat := if k < 0 then -k else k;
    NatTextDigits(n);
    DigitsAreTheirValue(NatText(n));
    if k < 0 {
      SignedValue(NatText(n));
    }
  }

  lemma SignedValue(t: Text)
    ensures Value([0x2D] + t) == -Value(t)
  {
    assert ([0x2D] + t)[1..] == t;
  }

  lemma {:induction false} FoundAt(t: Text, c: Unit, rest: Text)
    requires forall i | 0 <= i < |t| :: t[i] != c
    ensures UpTo(t + [c] + rest, c) == |t|
  {
    if t != [] {
      FoundAt(t[1..], c, rest);
      assert (t + [c] + rest)[1..] == t[1..] + [c] + rest;
    }
  }

  lemma ScaledByNothing(m: real)
    ensures Scaled(m, []) == m
  {
    assert DigitsValue([]) == 0.0 && TenTo(0) == 1.0;
  }

  lemma PlainValue(t: Text)
    requires t != [] && t[0] != 0x2D && forall i | 0 <= i < |t| :: t[i] != 0x65
    ensures Value(t) == Mantissa(t)
  {
    hide Mantissa, Scaled, DigitsValue;
    NotFound(t, 0x65);
    ScaledByNothing(Mantissa(t));
    assert t[..|t|] == t;
  }

  lemma MantissaSplit(whole: Text, fraction: Text)
    requires AllDigits(whole)
    ensures TenTo(|fraction|) > 0.0
    ensures Mantissa(whole + [0x2E] + fraction) == DigitsValue(whole) + DigitsValue(fraction) / TenTo(|fraction|)
  {
    hide DigitsValue, TenTo;
    var t := whole + [0x2E] + fraction;
    FoundAt(whole, 0x2E, fraction);
    TenToPositive(|fraction|);
    assert t[..|whole|] == whole && t[|whole| + 1..] == fraction;
  }

  /** A point adds the digits behind it as a fraction. */
  lemma FractionValue(whole: Text, fraction: Text)
    requires whole != [] && AllDigits(whole) && AllDigits(fraction)
    ensures TenTo(|fraction|) > 0.0
    ensures Value(whole + [0x2E] + fraction) == DigitsValue(whole) + DigitsValue(fraction) / TenTo(|fraction|)
  {
    hide Value, Mantissa, DigitsValue, TenTo;
    MantissaSplit(whole, fraction);
    PlainValue(whole + [0x2E] + fraction);
  }

  lemma ValueSplit(m: Text, exponent: Text)
    requires m != [] && m[0] != 0x2D && forall i | 0 <= i < |m| :: m[i] != 0x65
    ensures Value(m + [0x65] + exponent) == Scaled(Mantissa(m), exponent)
  {
    hide Mantissa, Scaled, DigitsValue;
    FoundAt(m, 0x65, exponent);
    var t := m + [0x65] + exponent;
    assert t[..|m|] == m && t[|m| + 1..] == exponent;
  }

  lemma ScaledBy(x: real, sign: Unit, k: nat)
    requires sign == 0x2B || sign == 0x2D
    ensures TenTo(k) > 0.0
    ensures Scaled(x, [sign] + NatText(k)) == if sign == 0x2D then x / TenTo(k) else x * TenTo(k)
  {
    hide DigitsValue, TenTo, NatText;
    TenToPositive(k);
    NatTextDigits(k);
    assert ([sign] + NatText(k))[1..] == NatText(k);
    assert DigitsValue(NatText(k)).Floor == k;
  }

  /** An exponent multiplies by a power of ten, a negative one divides. */
  lemma ExponentValue(m: Text, k: nat)
    requires m != [] && m[0] != 0x2D && forall i | 0 <= i < |m| :: m[i] != 0x65
    ensures TenTo(k) > 0.0
    ensures Value(m + [0x65] + ([0x2B] + NatText(k))) == Value(m) * TenTo(k)
    ensures Value(m + [0x65] + ([0x2D] + NatText(k))) == Value(m) / TenTo(k)
  {
    hide Value, Mantissa, Scaled, NatText, TenTo;
    PlainValue(m);
    ValueSplit(m, [0x2B] + NatText(k));
    ValueSplit(m, [0x2D] + NatText(k));
    ScaledBy(Mantissa(m), 0x2B, k);
    ScaledBy(Mantissa(m), 0x2D, k);
  }

  lemma IntegersAreIntegers(k: int)
    ensures IsInteger(k as real)
  {
  }

  // ---------------------------------------------------------------- a matching value

  /** A value for every matchable schema. */
  lemma {:induction false} Witness(schema: Json, depth: nat) returns (v: Json)
    requires IsSchema(schema, depth) && Matchable(schema)
    ensures Proper(v) && MatchesSchema(v, schema) == Ok(true)
    decreases Size(schema), 1
  {
    if TypeIs(schema, "null") {
      v := Null;
    } else if TypeIs(schema, "boolean") {
      v := Bool(true);
    } else if TypeIs(schema, "string") {
      v := Str([]);
    } else if IsNumeric(schema) {
      v := NumberWitness(schema, depth);
    } else if TypeIs(schema, "array") {
      v := Arr([]);
      assert ItemsMatch([], Field(schema, "items")) == Ok(true);
    } else {
      KnownKind(schema, depth);
      v := ObjectWitness(schema, depth);
    }
  }

  /** An accepted type that is a plain string names one of the seven kinds. */
  lemma KnownKind(schema: Json, depth: nat)
    requires IsSchema(schema, depth) && Field(schema, "type").value.Str?
    ensures TypeIs(schema, "null") || TypeIs(schema, "boolean") || TypeIs(schema, "string") || IsNumeric(schema) || TypeIs(schema, "array") || TypeIs(schema, "object")
  {
    hide T;
    var s := Field(schema, "type").value.s;
    assert ToString(Str(s)) == s;
  }

  lemma NumberWitness(schema: Json, depth: nat) returns (v: Json)
    requires IsSchema(schema, depth) && Matchable(schema) && IsNumeric(schema)
    requires !TypeIs(schema, "null") && !TypeIs(schema, "boolean") && !TypeIs(schema, "string")
    ensures Proper(v) && MatchesSchema(v, schema) == Ok(true)
  {
    hide T, Value, Get, ToString;
    var low, high := Field(schema, "minimum"), Field(schema, "maximum");
    if TypeIs(schema, "number") {
      v := if low.Some? then low.value else if high.Some? then high.value else Num(MinusZero);
    } else {
      var k := if low.Some? then Ceiling(ValueOf(low.value.n)) else if high.Some? then ValueOf(high.value.n).Floor else 0;
      IntTextValue(k);
      IntegersAreIntegers(k);
      v := Num(Finite(IntText(k)));
    }
  }

  lemma {:induction false} ObjectWitness(schema: Json, depth: nat) returns (v: Json)
    requires IsSchema(schema, depth) && Matchable(schema) && TypeIs(schema, "object")
    requires !TypeIs(schema, "null") && !TypeIs(schema, "boolean") && !TypeIs(schema, "string") && !IsNumeric(schema) && !TypeIs(schema, "array")
    ensures Proper(v) && MatchesSchema(v, schema) == Ok(true)
    decreases Size(schema), 0
  {
    hide IsSchema, Matchable, Field, EntriesMatch;
    SchemaParts(schema, depth);
    var properties := Field(schema, "properties").value;
    var entries: seq<Entry> := [];
    if Field(schema, "required").Some? {
      var names := RequiredNames(schema, depth);
      entries := EntriesWitness(names, properties.entries, depth + 1);
      RequiredGiven(entries, names);
    }
    v := Obj(entries);
    EntriesMatchAll(entries, properties);
  }

  lemma RequiredNames(schema: Json, depth: nat) returns (names: seq<Json>)
    requires IsSchema(schema, depth) && Matchable(schema) && TypeIs(schema, "object") && Field(schema, "required").Some?
    ensures Field(schema, "required") == Some(Arr(names)) && Field(schema, "properties").Some? && Field(schema, "properties").value.Obj?
    ensures var properties := Field(schema, "properties").value.entries;
      IsRequiredList(Arr(names), properties) && forall i | 0 <= i < |names| :: Matchable(Get(properties, names[i].s).value)
  {
    hide T, Value, ToString, Field, Get, AreSchemas, HoldsAnInteger;
    names := Field(schema, "required").value.items;
  }

  lemma RequiredGiven(entries: seq<Entry>, names: seq<Json>)
    requires |entries| == |names| && forall i | 0 <= i < |names| :: names[i].Str? && entries[i].key == names[i].s
    ensures RequiredPresent(entries, Some(Arr(names))) == Ok(true)
  {
    forall i | 0 <= i < |names|
      ensures Get(entries, names[i].s).Some?
    {
      assert entries[i].key == names[i].s;
    }
  }

  /** One entry for every required name. */
  lemma {:induction false} EntriesWitness(names: seq<Json>, properties: seq<Entry>, depth: nat) returns (entries: seq<Entry>)
    requires AreSchemas(properties, depth) && IsRequiredList(Arr(names), properties)
    requires forall i | 0 <= i < |names| :: Matchable(Get(properties, names[i].s).value)
    ensures |entries| == |names| && forall i | 0 <= i < |names| :: entries[i].key == names[i].s
    ensures Proper(Obj(entries)) && forall i | 0 <= i < |entries| :: Declared(entries[i], properties)
    decreases EntriesSize(properties), |names|
  {
    hide Matchable, MatchesSchema, IsSchema, AreSchemas, Get;
    if names == [] {
      entries := [];
    } else {
      var rest, last := names[..|names| - 1], names[|names| - 1];
      entries := EntriesWitness(rest, properties, depth);
      PropertyIsSchema(properties, depth, last.s);
      var v := Witness(Get(properties, last.s).value, depth);
      entries := entries + [Entry(last.s, v)];
    }
  }

  // ---------------------------------------------------------------- no other value

  lemma KindsDiffer()
    ensures T("integer") !in {T("null"), T("boolean"), T("string"), T("number"), T("array"), T("object")}
    ensures T("object") !in {T("null"), T("boolean"), T("string"), T("number"), T("array")}
  {
    assert T("integer")[0] == 'i' as nat && T("boolean")[0] == 'b' as nat && T("object")[0] == 'o' as nat;
    assert T("string")[0] == 's' as nat && T("number")[0] == 'n' as nat;
  }

  /** An integer between the bounds is no less than the first one. */
  lemma IntegerAboveCeiling(x: real, low: real)
    requires IsInteger(x) && low <= x
    ensures Ceiling(low) as real <= x
  {
    assert Ceiling(low) - 1 < x.Floor;
  }

  lemma IntegerMatches(v: Json, schema: Json, depth: nat)
    requires IsSchema(schema, depth) && TypeIs(schema, "integer") && MatchesSchema(v, schema) == Ok(true)
    ensures HoldsAnInteger(schema)
  {
    hide T, Value, Field, ToString, IsInteger, Ceiling, ItemsMatch, EntriesMatch;
    KindsDiffer();
    var low := Field(schema, "minimum");
    if low.Some? {
      IntegerAboveCeiling(ValueOf(v.n), ValueOf(low.value.n));
    }
  }

  lemma {:induction false} MatchedIsMatchable(v: Json, schema: Json, depth: nat)
    requires IsSchema(schema, depth) && MatchesSchema(v, schema) == Ok(true)
    ensures Matchable(schema)
    decreases Size(v), 1
  {
    hide T, Value, Field, HoldsAnInteger;
    MatchedIsNamed(v, schema, depth);
    if TypeIs(schema, "integer") {
      IntegerMatches(v, schema, depth);
    }
    if TypeIs(schema, "object") && Field(schema, "required").Some? {
      SchemaParts(schema, depth);
      ObjectMatches(v, schema, depth);
    }
  }

  lemma MatchedIsNamed(v: Json, schema: Json, depth: nat)
    requires IsSchema(schema, depth) && MatchesSchema(v, schema) == Ok(true)
    ensures Field(schema, "type").value.Str?
  {
    hide T, Value, ToString;
    if !Field(schema, "type").value.Str? {
      OnlyNamesMatch(v, schema, depth);
    }
  }

  lemma ObjectOnly(v: Json, schema: Json, depth: nat)
    requires IsSchema(schema, depth) && TypeIs(schema, "object") && MatchesSchema(v, schema) == Ok(true)
    ensures v.Obj? && RequiredPresent(v.entries, Field(schema, "required")) == Ok(true)
  {
    hide T, Value, Field, ToString, ItemsMatch, EntriesMatch, RequiredPresent;
    KindsDiffer();
  }

  /** What an object has to hold is matched by what it holds. */
  lemma {:induction false} ObjectMatches(v: Json, schema: Json, depth: nat)
    requires IsSchema(schema, depth) && TypeIs(schema, "object") && MatchesSchema(v, schema) == Ok(true)
    requires Field(schema, "required").Some? && Field(schema, "required").value.Arr?
    requires Field(schema, "properties").Some? && Field(schema, "properties").value.Obj?
    ensures var names, properties := Field(schema, "required").value.items, Field(schema, "properties").value.entries;
      forall i | 0 <= i < |names| && names[i].Str? && Get(properties, names[i].s).Some? ::
        Matchable(Get(properties, names[i].s).value)
    decreases Size(v), 0
  {
    hide IsSchema, MatchesSchema, Matchable, Field, EntriesMatch, AreSchemas, Get;
    ObjectOnly(v, schema, depth);
    ObjectSchema(v, schema, depth);
    var names, properties := Field(schema, "required").value.items, Field(schema, "properties").value;
    EntriesMatchAll(v.entries, properties);
    forall i | 0 <= i < |names| && names[i].Str? && Get(properties.entries, names[i].s).Some?
      ensures Matchable(Get(properties.entries, names[i].s).value)
    {
      assert Get(v.entries, names[i].s).Some?;
      var j :| 0 <= j < |v.entries| && v.entries[j].key == names[i].s;
      assert Declared(v.entries[j], properties.entries);
      SizeOfEntry(v.entries, j);
      PropertyIsSchema(properties.entries, depth + 1, names[i].s);
      MatchedIsMatchable(v.entries[j].value, Get(properties.entries, names[i].s).value, depth + 1);
    }
  }

  /** Exactly the matchable ones among the accepted schemas accept a value. */
  lemma AcceptsSomethingIffMatchable(schema: Json, depth: nat)
    requires IsSchema(schema, depth)
    ensures (exists v :: MatchesSchema(v, schema) == Ok(true)) <==> Matchable(schema)
    ensures (exists v :: Proper(v) && MatchesSchema(v, schema) == Ok(true)) <==> Matchable(schema)
  {
    hide IsSchema, MatchesSchema, Matchable, Proper;
    if Matchable(schema) {
      var v := Witness(schema, depth);
    }
    if v :| MatchesSchema(v, schema) == Ok(true) {
      MatchedIsMatchable(v, schema, depth);
    }
  }

  // ---------------------------------------------------------------- accepted, and empty

  lemma TenthsValue(d: nat)
    requires d < 10
    ensures IsToken([0x30, 0x2E, 0x30 + d]) && Value([0x30, 0x2E, 0x30 + d]) == d as real / 10.0
  {
    var t: Text := [0x30, 0x2E, 0x30 + d];
    NotFound(t, 0x65);
    assert t[..|t|] == t;
    assert t[1..][0] == 0x2E && UpTo(t[1..], 0x2E) == 0 && UpTo(t, 0x2E) == 1;
    NatTextDigits(0);
    NatTextDigits(d);
    assert t[..1] == NatText(0) && t[2..] == NatText(d);
    assert TenTo(1) == 10.0 * TenTo(0) && TenTo(0) == 1.0;
    assert Mantissa(t) == d as real / 10.0;
    assert DigitsValue([]) == 0.0;
  }

  function RangeSchema(low: Number, high: Number): Json {
    Obj([Entry(T("type"), Str(T("integer"))), Entry(T("minimum"), Num(low)), Entry(T("maximum"), Num(high))])
  }

  lemma FieldNamesDiffer()
    ensures T("minimum") != T("maximum") && T("type") !in {T("minimum"), T("maximum")}
    ensures {T("type"), T("minimum"), T("maximum")} !! {T("properties"), T("required"), T("additionalProperties"), T("items"), T("maxItems"), T("maxLength")}
  {
    assert T("minimum")[1] == 'i' as nat && T("maximum")[1] == 'a' as nat;
  }

  lemma GetOfThree(a: Entry, b: Entry, c: Entry, key: Text)
    ensures Get([a, b, c], key) == if a.key == key then Some(a.value) else if b.key == key then Some(b.value) else if c.key == key then Some(c.value) else None
  {
    var es := [a, b, c];
    assert es[1..] == [b, c] && [b, c][1..] == [c] && [c][1..] == [];
    assert Get([c], key) == if c.key == key then Some(c.value) else None;
    assert Get([b, c], key) == if b.key == key then Some(b.value) else Get([c], key);
  }

  lemma RangeFields(low: Number, high: Number)
    ensures var schema := RangeSchema(low, high);
      && Field(schema, "type") == Some(Str(T("integer")))
      && Field(schema, "minimum") == Some(Num(low)) && Field(schema, "maximum") == Some(Num(high))
      && Field(schema, "properties").None? && Field(schema, "required").None? && Field(schema, "additionalProperties").None?
      && Field(schema, "items").None? && Field(schema, "maxItems").None? && Field(schema, "maxLength").None?
  {
    FieldNamesDiffer();
    hide T, Get;
    var a, b, c := Entry(T("type"), Str(T("integer"))), Entry(T("minimum"), Num(low)), Entry(T("maximum"), Num(high));
    forall key {
      GetOfThree(a, b, c, key);
    }
  }

  lemma RangeKind(low: Number, high: Number)
    ensures var schema := RangeSchema(low, high);
      TypeIs(schema, "integer") && !TypeIs(schema, "object") && !TypeIs(schema, "array") && !TypeIs(schema, "string")
  {
    RangeFields(low, high);
    KindsDiffer();
    hide T, Get, Field;
    assert T("integer") != T("string");
  }

  lemma RangeIsSchema(low: Number, high: Number)
    requires !low.NotFinite? && !high.NotFinite? && ValueOf(low) <= ValueOf(high)
    ensures IsSchema(RangeSchema(low, high), 0)
  {
    RangeFields(low, high);
    RangeKind(low, high);
    hide ValueOf, Value, Get, T, Field;
    var schema := RangeSchema(low, high);
    assert ToString(Str(T("integer"))) == T("integer");
    assert forall i | 0 <= i < |schema.entries| :: schema.entries[i].key in SCHEMA_KEYS;
  }

  lemma RangeNotMatchable(low: Number, high: Number)
    requires !low.NotFinite? && !high.NotFinite? && ValueOf(high) < Ceiling(ValueOf(low)) as real
    ensures !Matchable(RangeSchema(low, high))
  {
    RangeFields(low, high);
    RangeKind(low, high);
    hide ValueOf, Value, Get, T, Field, Ceiling;
  }

  /** `{"type":"integer","minimum":0.2,"maximum":0.8}` is accepted and matches nothing. */
  lemma EmptyRangeIsAccepted()
    ensures IsToken([0x30, 0x2E, 0x32]) && IsToken([0x30, 0x2E, 0x38])
    ensures var schema := RangeSchema(Finite([0x30, 0x2E, 0x32]), Finite([0x30, 0x2E, 0x38]));
      IsSchema(schema, 0) && forall v :: MatchesSchema(v, schema) != Ok(true)
  {
    hide Value, IsSchema, MatchesSchema, Matchable, RangeSchema, Ceiling;
    TenthsValue(2);
    TenthsValue(8);
    FirstAboveTwoTenths();
    var low, high := Finite([0x30, 0x2E, 0x32]), Finite([0x30, 0x2E, 0x38]);
    RangeIsSchema(low, high);
    RangeNotMatchable(low, high);
    AcceptsSomethingIffMatchable(RangeSchema(low, high), 0);
  }

  lemma FirstAboveTwoTenths()
    ensures Ceiling(2 as real / 10.0) == 1
  {
  }
}
