/** JSON values as the program holds them, and their canonical text. */
module Json {
  import opened Effects
  import opened TextOrder

  /** A UTF-16 code unit; a string is any sequence of them, lone surrogates included. */
  type Unit = c: nat | c < 0x10000
  type Text = seq<Unit>

  predicate NumberUnit(c: Unit) {
    0x30 <= c <= 0x39 || c == 0x2B || c == 0x2D || c == 0x2E || c == 0x65
  }

  ghost predicate IsToken(t: Text) {
    t != [] && (t[0] == 0x2D || 0x30 <= t[0] <= 0x39) && forall i | 0 <= i < |t| :: NumberUnit(t[i])
  }

  /** The shortest decimal text of a finite number; it determines the number. */
  type Token = t: Text | IsToken(t) witness [0x30]

  datatype Number = NotFinite | MinusZero | Finite(token: Token)

  /** An object's entries stand in their own order and have distinct keys. */
  datatype Json = Null | Bool(b: bool) | Num(n: Number) | Str(s: Text) | Arr(items: seq<Json>) | Obj(entries: seq<Entry>)
  datatype Entry = Entry(key: Text, value: Json)

  ghost predicate DistinctKeys(entries: seq<Entry>) {
    forall i, j | 0 <= i < j < |entries| :: entries[i].key != entries[j].key
  }

  /** Distinct keys all the way down, as in every object of the language. */
  ghost predicate Keyed(v: Json) {
    match v
    case Arr(items) => forall i | 0 <= i < |items| :: Keyed(items[i])
    case Obj(entries) => DistinctKeys(entries) && forall i | 0 <= i < |entries| :: Keyed(entries[i].value)
    case _ => true
  }

  /** What every value of the program satisfies, with numbers that JSON can carry. */
  ghost predicate Proper(v: Json) {
    match v
    case Num(n) => !n.NotFinite?
    case Arr(items) => forall i | 0 <= i < |items| :: Proper(items[i])
    case Obj(entries) => DistinctKeys(entries) && forall i | 0 <= i < |entries| :: Proper(entries[i].value)
    case _ => true
  }

  lemma ProperIsKeyed(v: Json)
    requires Proper(v)
    ensures Keyed(v)
  {
  }

  predicate SameNumber(m: Number, n: Number) {
    m == n || (m.MinusZero? && n == Finite([0x30])) || (n.MinusZero? && m == Finite([0x30]))
  }

  /** Equal as unordered values. */
  ghost predicate Equiv(a: Json, b: Json) {
    match a
    case Num(n) => b.Num? && SameNumber(n, b.n)
    case Arr(items) => b.Arr? && |items| == |b.items| && forall i | 0 <= i < |items| :: Equiv(items[i], b.items[i])
    case Obj(entries) =>
      b.Obj? && |entries| == |b.entries| &&
      forall i | 0 <= i < |entries| ::
        exists j | 0 <= j < |b.entries| :: entries[i].key == b.entries[j].key && Equiv(entries[i].value, b.entries[j].value)
    case _ => a == b
  }

  // ---------------------------------------------------------------- sorting entries

  ghost function Size(v: Json): nat {
    match v
    case Arr(items) => 1 + ItemsSize(items)
    case Obj(entries) => 1 + EntriesSize(entries)
    case _ => 1
  }

  ghost function ItemsSize(items: seq<Json>): nat {
    if items == [] then 0 else 1 + Size(items[0]) + ItemsSize(items[1..])
  }

  ghost function EntriesSize(entries: seq<Entry>): nat {
    if entries == [] then 0 else 1 + Size(entries[0].value) + EntriesSize(entries[1..])
  }

  ghost predicate Ascending(entries: seq<Entry>) {
    forall i, j | 0 <= i < j < |entries| :: Before(entries[i].key, entries[j].key)
  }

  function Insert(e: Entry, entries: seq<Entry>): (r: seq<Entry>)
    ensures |r| == |entries| + 1
    ensures EntriesSize(r) == 1 + Size(e.value) + EntriesSize(entries)
  {
    if entries == [] then [e]
    else if Before(e.key, entries[0].key) then
      assert ([e] + entries)[1..] == entries;
      [e] + entries
    else
      var rest := Insert(e, entries[1..]);
      assert ([entries[0]] + rest)[1..] == rest;
      [entries[0]] + rest
  }

  /** The entries by key. */
  function Sorted(entries: seq<Entry>): (r: seq<Entry>)
    ensures |r| == |entries| && EntriesSize(r) == EntriesSize(entries)
  {
    if entries == [] then [] else Insert(entries[0], Sorted(entries[1..]))
  }

  lemma {:induction false} InsertHas(e: Entry, entries: seq<Entry>)
    ensures forall x :: x in Insert(e, entries) <==> x == e || x in entries
  {
    if entries != [] {
      InsertHas(e, entries[1..]);
      assert entries == [entries[0]] + entries[1..];
    }
  }

  /** Sorting neither loses nor adds an entry. */
  lemma {:induction false} SortedHas(entries: seq<Entry>)
    ensures forall x :: x in Sorted(entries) <==> x in entries
  {
    if entries != [] {
      SortedHas(entries[1..]);
      InsertHas(entries[0], Sorted(entries[1..]));
      assert entries == [entries[0]] + entries[1..];
    }
  }

  lemma {:induction false} InsertCounts(e: Entry, entries: seq<Entry>)
    ensures multiset(Insert(e, entries)) == multiset(entries) + multiset{e}
  {
    if entries != [] {
      InsertCounts(e, entries[1..]);
      assert entries == [entries[0]] + entries[1..];
    }
  }

  lemma {:induction false} SortedCounts(entries: seq<Entry>)
    ensures multiset(Sorted(entries)) == multiset(entries)
  {
    if entries != [] {
      SortedCounts(entries[1..]);
      InsertCounts(entries[0], Sorted(entries[1..]));
      assert entries == [entries[0]] + entries[1..];
    }
  }

  ghost predicate AllAfter(k: Text, entries: seq<Entry>) {
    forall x | x in entries :: Before(k, x.key)
  }

  lemma AscendingFrom(e: Entry, rest: seq<Entry>)
    requires AllAfter(e.key, rest) && Ascending(rest)
    ensures Ascending([e] + rest)
  {
    var all := [e] + rest;
    forall i, j | 0 <= i < j < |all|
      ensures Before(all[i].key, all[j].key)
    {
      assert all[j] == rest[j - 1] && rest[j - 1] in rest;
      if i > 0 {
        assert all[i] == rest[i - 1];
      }
    }
  }

  lemma AscendingTail(entries: seq<Entry>)
    requires Ascending(entries) && entries != []
    ensures Ascending(entries[1..]) && AllAfter(entries[0].key, entries[1..])
  {
    forall x | x in entries[1..]
      ensures Before(entries[0].key, x.key)
    {
      var i :| 0 <= i < |entries[1..]| && entries[1..][i] == x;
      assert entries[i + 1] == x;
    }
  }

  lemma {:induction false} InsertAscending(e: Entry, entries: seq<Entry>)
    requires Ascending(entries) && forall x | x in entries :: x.key != e.key
    ensures Ascending(Insert(e, entries))
  {
    hide Ascending;
    if entries == [] {
      AscendingEmpty();
      AscendingFrom(e, []);
      assert [e] + [] == [e];
    } else {
      AscendingTail(entries);
      if Before(e.key, entries[0].key) {
        forall x | x in entries
          ensures Before(e.key, x.key)
        {
          if x != entries[0] {
            assert x in entries[1..];
            BeforeTransitive(e.key, entries[0].key, x.key);
          }
        }
        AscendingFrom(e, entries);
      } else {
        BeforeTotal(e.key, entries[0].key);
        InsertAscending(e, entries[1..]);
        InsertHas(e, entries[1..]);
        AscendingFrom(entries[0], Insert(e, entries[1..]));
      }
    }
  }

  lemma AscendingEmpty()
    ensures Ascending([])
  {
  }

  /** Sorted keys follow each other by code units, a beginning before the longer key. */
  lemma SortedByCodeUnits(entries: seq<Entry>)
    requires DistinctKeys(entries)
    ensures var s := Sorted(entries); forall i, j | 0 <= i < j < |s| :: Precedes(s[i].key, s[j].key)
  {
    SortedAscending(entries);
    var s := Sorted(entries);
    forall i, j | 0 <= i < j < |s|
      ensures Precedes(s[i].key, s[j].key)
    {
      BeforeIsPrecedes(s[i].key, s[j].key);
    }
  }

  lemma {:induction false} SortedAscending(entries: seq<Entry>)
    requires DistinctKeys(entries)
    ensures Ascending(Sorted(entries))
  {
    if entries != [] {
      SortedAscending(entries[1..]);
      SortedHas(entries[1..]);
      InsertAscending(entries[0], Sorted(entries[1..]));
    }
  }

  lemma {:induction false} SortedAlready(entries: seq<Entry>)
    requires Ascending(entries)
    ensures Sorted(entries) == entries
  {
    if entries != [] {
      AscendingTail(entries);
      SortedAlready(entries[1..]);
      if |entries| > 1 {
        assert entries[1] in entries[1..];
      }
      assert entries == [entries[0]] + entries[1..];
    }
  }

  lemma {:induction false} SizeOfItem(items: seq<Json>, i: nat)
    requires i < |items|
    ensures Size(items[i]) < ItemsSize(items)
  {
    if i > 0 {
      SizeOfItem(items[1..], i - 1);
    }
  }

  lemma {:induction false} SizeOfEntry(entries: seq<Entry>, i: nat)
    requires i < |entries|
    ensures Size(entries[i].value) < EntriesSize(entries)
  {
    if i > 0 {
      SizeOfEntry(entries[1..], i - 1);
    }
  }

  ghost function Keys(entries: seq<Entry>): set<Text> {
    set e | e in entries :: e.key
  }

  lemma DistinctCount(entries: seq<Entry>)
    requires DistinctKeys(entries)
    ensures |Keys(entries)| == |entries|
  {
    if entries == [] {
      assert Keys(entries) == {};
    } else {
      var rest := entries[..|entries| - 1];
      DistinctCount(rest);
      assert entries == rest + [entries[|entries| - 1]];
      assert Keys(entries) == Keys(rest) + {entries[|entries| - 1].key};
      assert forall e | e in rest :: exists i | 0 <= i < |rest| :: rest[i] == e;
    }
  }

  // ---------------------------------------------------------------- text

  predicate High(c: Unit) {
    0xD800 <= c <= 0xDBFF
  }

  predicate Low(c: Unit) {
    0xDC00 <= c <= 0xDFFF
  }

  function HexDigit(n: nat): Unit
    requires n < 16
  {
    if n < 10 then 0x30 + n else 0x61 + (n - 10)
  }

  function Hex(c: Unit): Text {
    [0x5C, 0x75, HexDigit(c / 4096), HexDigit(c / 256 % 16), HexDigit(c / 16 % 16), HexDigit(c % 16)]
  }

  function Escape(c: Unit): Text {
    if c == 8 then [0x5C, 0x62]
    else if c == 9 then [0x5C, 0x74]
    else if c == 10 then [0x5C, 0x6E]
    else if c == 12 then [0x5C, 0x66]
    else if c == 13 then [0x5C, 0x72]
    else if c == 0x22 then [0x5C, 0x22]
    else if c == 0x5C then [0x5C, 0x5C]
    else if c < 0x20 || High(c) || Low(c) then Hex(c)
    else [c]
  }

  /** The inside of a quoted string: only paired surrogates stand as they are. */
  function Escaped(s: Text): Text {
    if s == [] then []
    else if High(s[0]) && |s| > 1 && Low(s[1]) then [s[0], s[1]] + Escaped(s[2..])
    else Escape(s[0]) + Escaped(s[1..])
  }

  /** The units with a two-unit form, and the letter of that form. */
  const SHORT_FORMS: seq<(Unit, Unit)> := [(8, 0x62), (9, 0x74), (10, 0x6E), (12, 0x66), (13, 0x72), (0x22, 0x22), (0x5C, 0x5C)]

  ghost predicate Short(c: Unit) {
    exists k :: 0 <= k < |SHORT_FORMS| && SHORT_FORMS[k].0 == c
  }

  /** The value of a hexadecimal digit; letters are small. */
  ghost function HexValue(c: Unit): int {
    if 0x30 <= c <= 0x39 then c - 0x30 else if 0x61 <= c <= 0x66 then c - 0x61 + 10 else -1
  }

  /** A unit alone in a string: its short form if it has one, four small hexadecimal digits if it is a
      control or half of a pair, and itself otherwise. */
  lemma EscapedUnit(c: Unit)
    ensures forall k | 0 <= k < |SHORT_FORMS| && SHORT_FORMS[k].0 == c :: Escape(c) == [0x5C, SHORT_FORMS[k].1]
    ensures !Short(c) && (c < 0x20 || 0xD800 <= c <= 0xDFFF) ==> InHex(Escape(c), c)
    ensures !Short(c) && !(c < 0x20 || 0xD800 <= c <= 0xDFFF) ==> Escape(c) == [c]
  {
    hide Hex, InHex;
    ShortOnes(c);
    HexIsInHex(c);
  }

  ghost predicate InHex(t: Text, c: Unit) {
    && |t| == 6 && t[0] == 0x5C && t[1] == 0x75 && (forall i | 2 <= i < 6 :: 0 <= HexValue(t[i]))
    && HexValue(t[2]) * 4096 + HexValue(t[3]) * 256 + HexValue(t[4]) * 16 + HexValue(t[5]) == c
  }

  lemma ShortOnes(c: Unit)
    ensures Short(c) <==> c in {8, 9, 10, 12, 13, 0x22, 0x5C}
  {
    assert forall k | 0 <= k < |SHORT_FORMS| :: SHORT_FORMS[k].0 in {8, 9, 10, 12, 13, 0x22, 0x5C};
    assert SHORT_FORMS[0].0 == 8 && SHORT_FORMS[1].0 == 9 && SHORT_FORMS[2].0 == 10 && SHORT_FORMS[3].0 == 12;
    assert SHORT_FORMS[4].0 == 13 && SHORT_FORMS[5].0 == 0x22 && SHORT_FORMS[6].0 == 0x5C;
  }

  lemma HexDigitValue(n: nat)
    requires n < 16
    ensures HexValue(HexDigit(n)) == n
  {
  }

  lemma HexIsInHex(c: Unit)
    ensures InHex(Hex(c), c)
  {
    hide HexValue, HexDigit;
    HexDigitValue(c / 4096);
    HexDigitValue(c / 256 % 16);
    HexDigitValue(c / 16 % 16);
    HexDigitValue(c % 16);
    assert c / 4096 == c / 256 / 16 && c / 256 == c / 16 / 16;
  }

  /** Every half of a surrogate pair stands with its other half. */
  ghost predicate Paired(s: Text) {
    || s == []
    || (!(0xD800 <= s[0] <= 0xDFFF) && Paired(s[1..]))
    || (|s| > 1 && 0xD800 <= s[0] <= 0xDBFF && 0xDC00 <= s[1] <= 0xDFFF && Paired(s[2..]))
  }

  lemma {:induction false} PlainBefore(t: Text, rest: Text)
    requires Paired(rest) && forall i | 0 <= i < |t| :: !(0xD800 <= t[i] <= 0xDFFF)
    ensures Paired(t + rest)
  {
    if t == [] {
      assert t + rest == rest;
    } else {
      PlainBefore(t[1..], rest);
      assert (t + rest)[1..] == t[1..] + rest;
    }
  }

  lemma EscapeIsPlain(c: Unit)
    ensures forall i | 0 <= i < |Escape(c)| :: !(0xD800 <= Escape(c)[i] <= 0xDFFF)
  {
    assert forall i | 0 <= i < |Hex(c)| :: Hex(c)[i] < 0x80;
  }

  /** The text of any string, lone halves included, is well-formed. */
  lemma {:induction false} EscapedIsPaired(s: Text)
    ensures Paired(Escaped(s))
  {
    hide Escape;
    if s != [] {
      if High(s[0]) && |s| > 1 && Low(s[1]) {
        EscapedIsPaired(s[2..]);
        assert ([s[0], s[1]] + Escaped(s[2..]))[2..] == Escaped(s[2..]);
      } else {
        EscapedIsPaired(s[1..]);
        EscapeIsPlain(s[0]);
        PlainBefore(Escape(s[0]), Escaped(s[1..]));
      }
    }
  }

  /** A well-formed string without quotes, backslashes and controls stands as it is. */
  lemma {:induction false} PlainStands(s: Text)
    requires Paired(s) && forall i | 0 <= i < |s| :: 0x20 <= s[i] && s[i] != 0x22 && s[i] != 0x5C
    ensures Escaped(s) == s
  {
    if s != [] {
      if 0xD800 <= s[0] <= 0xDBFF {
        PlainStands(s[2..]);
        assert s == [s[0], s[1]] + s[2..];
      } else {
        PlainStands(s[1..]);
        assert s == [s[0]] + s[1..];
      }
    }
  }

  function Stringify(n: Number): Text {
    match n
    case NotFinite => [0x6E, 0x75, 0x6C, 0x6C]
    case MinusZero => [0x30]
    case Finite(token) => token
  }

  /** The canonical text: entries by key, no space anywhere. */
  function Canonical(v: Json): Text
    decreases Size(v), 0
  {
    match v
    case Null => [0x6E, 0x75, 0x6C, 0x6C]
    case Bool(b) => if b then [0x74, 0x72, 0x75, 0x65] else [0x66, 0x61, 0x6C, 0x73, 0x65]
    case Num(n) => Stringify(n)
    case Str(s) => [0x22] + Escaped(s) + [0x22]
    case Arr(items) => [0x5B] + Items(items) + [0x5D]
    case Obj(entries) => [0x7B] + Members(Sorted(entries)) + [0x7D]
  }

  function Items(items: seq<Json>): Text
    decreases ItemsSize(items), 0
  {
    if items == [] then []
    else if |items| == 1 then Canonical(items[0])
    else Canonical(items[0]) + [0x2C] + Items(items[1..])
  }

  function Member(e: Entry): Text
    decreases Size(e.value), 1
  {
    [0x22] + Escaped(e.key) + [0x22, 0x3A] + Canonical(e.value)
  }

  function Members(entries: seq<Entry>): Text
    decreases EntriesSize(entries), 0
  {
    if entries == [] then []
    else if |entries| == 1 then Member(entries[0])
    else Member(entries[0]) + [0x2C] + Members(entries[1..])
  }

  /** An object's text has its members in the order of their keys' code units. */
  lemma ObjectText(entries: seq<Entry>) returns (s: seq<Entry>)
    requires DistinctKeys(entries)
    ensures multiset(s) == multiset(entries)
    ensures forall i | 0 <= i < |s| - 1 :: Precedes(s[i].key, s[i + 1].key)
    ensures Canonical(Obj(entries)) == [0x7B] + Members(s) + [0x7D]
  {
    hide Precedes;
    SortedCounts(entries);
    SortedByCodeUnits(entries);
    s := Sorted(entries);
  }
}
