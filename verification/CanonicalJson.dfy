/** A parser that undoes the canonical printer: two values print alike exactly when they are equal. */
module CanonicalJson {
  import opened Effects
  import opened Json
  import opened TextOrder

  // ---------------------------------------------------------------- the parser

  function Nibble(c: Unit): (r: Option<nat>)
    ensures r.Some? ==> r.value < 16
  {
    if 0x30 <= c <= 0x39 then Some(c - 0x30) else if 0x61 <= c <= 0x66 then Some(c - 0x61 + 10) else None
  }

  function ParseHex(t: Text): Option<Unit> {
    if |t| < 4 then None
    else
      var a, b, c, d := Nibble(t[0]), Nibble(t[1]), Nibble(t[2]), Nibble(t[3]);
      if a.Some? && b.Some? && c.Some? && d.Some? then Some(a.value * 4096 + b.value * 256 + c.value * 16 + d.value) else None
  }

  function Unescape(c: Unit): Option<Unit> {
    if c == 0x62 then Some(8)
    else if c == 0x74 then Some(9)
    else if c == 0x6E then Some(10)
    else if c == 0x66 then Some(12)
    else if c == 0x72 then Some(13)
    else if c == 0x22 || c == 0x5C then Some(c)
    else None
  }

  /** One code unit of a string, and the rest. */
  function ParseUnit(t: Text): (r: Option<(Unit, Text)>)
    ensures r.Some? ==> |r.value.1| < |t|
  {
    if t == [] || t[0] == 0x22 then None
    else if t[0] != 0x5C then Some((t[0], t[1..]))
    else if |t| == 1 then None
    else if t[1] == 0x75 then
      var h := ParseHex(t[2..]);
      if h.Some? then Some((h.value, t[6..])) else None
    else
      var u := Unescape(t[1]);
      if u.Some? then Some((u.value, t[2..])) else None
  }

  /** A string after its opening quote. */
  function ParseString(t: Text): (r: Option<(Text, Text)>)
    ensures r.Some? ==> |r.value.1| < |t|
  {
    if t != [] && t[0] == 0x22 then Some(([], t[1..]))
    else
      var u := ParseUnit(t);
      if !u.Some? then None
      else
        var rest := ParseString(u.value.1);
        if rest.Some? then Some(([u.value.0] + rest.value.0, rest.value.1)) else None
  }

  function TokenLength(t: Text): (n: nat)
    ensures n <= |t| && forall i | 0 <= i < n :: NumberUnit(t[i])
    ensures n < |t| ==> !NumberUnit(t[n])
  {
    if t == [] || !NumberUnit(t[0]) then 0 else 1 + TokenLength(t[1..])
  }

  predicate StartsWith(t: Text, word: Text) {
    |word| <= |t| && t[..|word|] == word
  }

  function ParseValue(t: Text): (r: Option<(Json, Text)>)
    ensures r.Some? ==> |r.value.1| < |t|
    decreases |t|, 0
  {
    if t == [] then None
    else if StartsWith(t, [0x6E, 0x75, 0x6C, 0x6C]) then Some((Null, t[4..]))
    else if StartsWith(t, [0x74, 0x72, 0x75, 0x65]) then Some((Bool(true), t[4..]))
    else if StartsWith(t, [0x66, 0x61, 0x6C, 0x73, 0x65]) then Some((Bool(false), t[5..]))
    else if t[0] == 0x22 then
      var s := ParseString(t[1..]);
      if s.Some? then Some((Str(s.value.0), s.value.1)) else None
    else if t[0] == 0x5B then
      if StartsWith(t[1..], [0x5D]) then Some((Arr([]), t[2..]))
      else
        var items := ParseItems(t[1..]);
        if items.Some? then Some((Arr(items.value.0), items.value.1)) else None
    else if t[0] == 0x7B then
      if StartsWith(t[1..], [0x7D]) then Some((Obj([]), t[2..]))
      else
        var members := ParseMembers(t[1..]);
        if members.Some? then Some((Obj(members.value.0), members.value.1)) else None
    else if t[0] == 0x2D || 0x30 <= t[0] <= 0x39 then
      var n := TokenLength(t);
      Some((Num(Finite(t[..n])), t[n..]))
    else None
  }

  function ParseItems(t: Text): (r: Option<(seq<Json>, Text)>)
    ensures r.Some? ==> |r.value.1| < |t|
    decreases |t|, 1
  {
    var v := ParseValue(t);
    if !v.Some? || v.value.1 == [] then None
    else if v.value.1[0] == 0x5D then Some(([v.value.0], v.value.1[1..]))
    else if v.value.1[0] == 0x2C then
      var rest := ParseItems(v.value.1[1..]);
      if rest.Some? then Some(([v.value.0] + rest.value.0, rest.value.1)) else None
    else None
  }

  function ParseMember(t: Text): (r: Option<(Entry, Text)>)
    ensures r.Some? ==> |r.value.1| < |t|
    decreases |t|, 1
  {
    if t == [] || t[0] != 0x22 then None
    else
      var k := ParseString(t[1..]);
      if !k.Some? || !StartsWith(k.value.1, [0x3A]) then None
      else
        var v := ParseValue(k.value.1[1..]);
        if v.Some? then Some((Entry(k.value.0, v.value.0), v.value.1)) else None
  }

  function ParseMembers(t: Text): (r: Option<(seq<Entry>, Text)>)
    ensures r.Some? ==> |r.value.1| < |t|
    decreases |t|, 2
  {
    var e := ParseMember(t);
    if !e.Some? || e.value.1 == [] then None
    else if e.value.1[0] == 0x7D then Some(([e.value.0], e.value.1[1..]))
    else if e.value.1[0] == 0x2C then
      var rest := ParseMembers(e.value.1[1..]);
      if rest.Some? then Some(([e.value.0] + rest.value.0, rest.value.1)) else None
    else None
  }

  // ---------------------------------------------------------------- strings come back

  lemma NibbleComesBack(n: nat)
    requires n < 16
    ensures Nibble(HexDigit(n)) == Some(n)
  {
  }

  lemma HexDigitsSum(c: Unit)
    ensures c == c / 4096 * 4096 + c / 256 % 16 * 256 + c / 16 % 16 * 16 + c % 16
  {
    assert c / 256 / 16 == c / 4096 && c / 16 / 16 == c / 256;
  }

  lemma HexComesBack(c: Unit, rest: Text)
    ensures ParseUnit(Hex(c) + rest) == Some((c, rest))
  {
    hide Nibble, HexDigit;
    var t := Hex(c) + rest;
    var a, b, d, e := c / 4096, c / 256 % 16, c / 16 % 16, c % 16;
    NibbleComesBack(a);
    NibbleComesBack(b);
    NibbleComesBack(d);
    NibbleComesBack(e);
    assert t[6..] == rest;
    assert t[2..][..4] == [HexDigit(a), HexDigit(b), HexDigit(d), HexDigit(e)];
    HexDigitsSum(c);
    assert ParseHex(t[2..]) == Some(c);
  }

  lemma EscapeComesBack(c: Unit, rest: Text)
    ensures ParseUnit(Escape(c) + rest) == Some((c, rest)) && Escape(c)[0] != 0x22
  {
    hide Hex;
    var t := Escape(c) + rest;
    if c < 0x20 || High(c) || Low(c) {
      HexComesBack(c, rest);
    }
    if |Escape(c)| == 2 {
      assert t[2..] == rest;
    } else if |Escape(c)| == 1 {
      assert t[1..] == rest;
    }
  }

  lemma PlainUnit(c: Unit, rest: Text)
    requires High(c) || Low(c)
    ensures ParseUnit([c] + rest) == Some((c, rest))
  {
    assert ([c] + rest)[1..] == rest;
  }

  lemma OneUnit(head: Text, c: Unit, tail: Text, s: Text, rest: Text)
    requires head != [] && head[0] != 0x22 && ParseUnit(head + tail) == Some((c, tail))
    requires ParseString(tail) == Some((s, rest))
    ensures ParseString(head + tail) == Some(([c] + s, rest))
  {
    hide ParseUnit;
  }

  lemma {:induction false} StringComesBack(s: Text, rest: Text)
    ensures ParseString(Escaped(s) + [0x22] + rest) == Some((s, rest))
  {
    hide Escape, ParseUnit, ParseString;
    var t := Escaped(s) + [0x22] + rest;
    if s == [] {
      EndOfString(rest);
      assert t == [0x22] + rest;
    } else if High(s[0]) && |s| > 1 && Low(s[1]) {
      StringComesBack(s[2..], rest);
      var tail := Escaped(s[2..]) + [0x22] + rest;
      PlainUnit(s[1], tail);
      OneUnit([s[1]], s[1], tail, s[2..], rest);
      PlainUnit(s[0], [s[1]] + tail);
      OneUnit([s[0]], s[0], [s[1]] + tail, [s[1]] + s[2..], rest);
      assert t == [s[0]] + ([s[1]] + tail);
      assert s == [s[0]] + ([s[1]] + s[2..]);
    } else {
      StringComesBack(s[1..], rest);
      var tail := Escaped(s[1..]) + [0x22] + rest;
      EscapeComesBack(s[0], tail);
      NotEmptyEscape(s[0]);
      OneUnit(Escape(s[0]), s[0], tail, s[1..], rest);
      assert t == Escape(s[0]) + tail;
      assert s == [s[0]] + s[1..];
    }
  }

  lemma EndOfString(rest: Text)
    ensures ParseString([0x22] + rest) == Some(([], rest))
  {
    assert ([0x22] + rest)[1..] == rest;
  }

  lemma NotEmptyEscape(c: Unit)
    ensures Escape(c) != [] && Escape(c)[0] != 0x22
  {
  }

  // ---------------------------------------------------------------- values come back

  /** What the parser returns for a value: entries by key, minus zero as zero. */
  function Normal(v: Json): Json
    decreases Size(v), 0
  {
    match v
    case Num(n) => if n.MinusZero? then Num(Finite([0x30])) else v
    case Arr(items) => Arr(NormalItems(items))
    case Obj(entries) => Obj(NormalEntries(Sorted(entries)))
    case _ => v
  }

  function NormalItems(items: seq<Json>): (r: seq<Json>)
    ensures |r| == |items|
    decreases ItemsSize(items), 0
  {
    if items == [] then [] else [Normal(items[0])] + NormalItems(items[1..])
  }

  function NormalEntries(entries: seq<Entry>): (r: seq<Entry>)
    ensures |r| == |entries|
    decreases EntriesSize(entries), 0
  {
    if entries == [] then [] else [Entry(entries[0].key, Normal(entries[0].value))] + NormalEntries(entries[1..])
  }

  ghost predicate NumbersFinite(v: Json)
    decreases Size(v), 0
  {
    match v
    case Num(n) => !n.NotFinite?
    case Arr(items) => ItemsFinite(items)
    case Obj(entries) => EntriesFinite(Sorted(entries))
    case _ => true
  }

  ghost predicate ItemsFinite(items: seq<Json>)
    decreases ItemsSize(items), 0
  {
    items == [] || (NumbersFinite(items[0]) && ItemsFinite(items[1..]))
  }

  ghost predicate EntriesFinite(entries: seq<Entry>)
    decreases EntriesSize(entries), 0
  {
    entries == [] || (NumbersFinite(entries[0].value) && EntriesFinite(entries[1..]))
  }

  /** A number ends where the text ends or another character comes. */
  ghost predicate Ends(rest: Text) {
    rest == [] || !NumberUnit(rest[0])
  }

  lemma {:induction false} TokenEnds(token: Text, rest: Text)
    requires Ends(rest) && forall i | 0 <= i < |token| :: NumberUnit(token[i])
    ensures TokenLength(token + rest) == |token|
  {
    if token == [] {
      assert token + rest == rest;
    } else {
      TokenEnds(token[1..], rest);
      assert (token + rest)[1..] == token[1..] + rest;
    }
  }

  lemma NumberComesBack(n: Number, rest: Text)
    requires !n.NotFinite? && Ends(rest)
    ensures ParseValue(Stringify(n) + rest) == Some((Normal(Num(n)), rest))
  {
    hide TokenLength, ParseString, ParseItems, ParseMembers;
    var token := Stringify(n);
    TokenEnds(token, rest);
    var t := token + rest;
    assert t[0] == token[0];
    assert t[..|token|] == token && t[|token|..] == rest;
    TokenIsNoWord(t);
  }

  /** A text that starts like a number starts like nothing else. */
  lemma TokenIsNoWord(t: Text)
    requires t != [] && (t[0] == 0x2D || 0x30 <= t[0] <= 0x39)
    ensures ParseValue(t) == Some((Num(Finite(t[..TokenLength(t)])), t[TokenLength(t)..]))
  {
    hide TokenLength, ParseString, ParseItems, ParseMembers;
    assert |t| >= 4 ==> t[..4][0] == t[0];
    assert |t| >= 5 ==> t[..5][0] == t[0];
  }

  /** No value's text starts with a closing bracket or brace. */
  lemma FirstUnit(v: Json)
    requires NumbersFinite(v)
    ensures Canonical(v) != [] && Canonical(v)[0] != 0x5D && Canonical(v)[0] != 0x7D
  {
  }

  lemma {:induction false} ValueComesBack(v: Json, rest: Text)
    requires NumbersFinite(v) && Ends(rest)
    ensures ParseValue(Canonical(v) + rest) == Some((Normal(v), rest))
    decreases Size(v), 0
  {
    hide Canonical, ParseValue, Normal, Ends;
    match v
    case Null => WordComesBack(v, rest);
    case Bool(b) => WordComesBack(v, rest);
    case Num(n) => NumberValue(n, rest);
    case Str(s) => StringValue(s, rest);
    case Arr(items) =>
      if items != [] {
        ItemsComeBack(items, rest);
      }
      ArrayValue(items, rest);
    case Obj(entries) =>
      if entries != [] {
        MembersComeBack(Sorted(entries), rest);
      }
      ObjectValue(entries, rest);
  }

  lemma WordComesBack(v: Json, rest: Text)
    requires v.Null? || v.Bool?
    ensures ParseValue(Canonical(v) + rest) == Some((Normal(v), rest))
  {
    var word := Canonical(v);
    var t := word + rest;
    assert t[|word|..] == rest && t[..|word|] == word;
    if v == Bool(false) {
      assert t[..4][0] == 0x66;
    } else if v == Bool(true) {
      assert t[..4][0] == 0x74;
    }
  }

  lemma NumberValue(n: Number, rest: Text)
    requires !n.NotFinite? && Ends(rest)
    ensures ParseValue(Canonical(Num(n)) + rest) == Some((Normal(Num(n)), rest))
  {
    hide Ends, ParseValue, Stringify;
    NumberComesBack(n, rest);
  }

  lemma StringValue(s: Text, rest: Text)
    ensures ParseValue(Canonical(Str(s)) + rest) == Some((Normal(Str(s)), rest))
  {
    hide ParseString, Escaped;
    var t := Canonical(Str(s)) + rest;
    StringComesBack(s, rest);
    assert t[1..] == Escaped(s) + [0x22] + rest;
    assert t[0] == 0x22;
  }

  lemma ArrayValue(items: seq<Json>, rest: Text)
    requires items != [] ==> ParseItems(Items(items) + [0x5D] + rest) == Some((NormalItems(items), rest))
    requires items != [] ==> Items(items) != [] && Items(items)[0] != 0x5D
    ensures ParseValue(Canonical(Arr(items)) + rest) == Some((Normal(Arr(items)), rest))
  {
    hide ParseItems;
    var t := Canonical(Arr(items)) + rest;
    assert t[0] == 0x5B && t[1..] == Items(items) + [0x5D] + rest;
    if items == [] {
      assert t[2..] == rest && t[1..][..1] == [0x5D];
      assert NormalItems(items) == [];
    } else {
      assert t[1..][..1][0] == Items(items)[0];
    }
  }

  lemma ObjectValue(entries: seq<Entry>, rest: Text)
    requires entries != [] ==> ParseMembers(Members(Sorted(entries)) + [0x7D] + rest) == Some((NormalEntries(Sorted(entries)), rest))
    requires entries != [] ==> Members(Sorted(entries)) != [] && Members(Sorted(entries))[0] == 0x22
    ensures ParseValue(Canonical(Obj(entries)) + rest) == Some((Normal(Obj(entries)), rest))
  {
    hide ParseMembers, Sorted;
    var t := Canonical(Obj(entries)) + rest;
    assert t[0] == 0x7B && t[1..] == Members(Sorted(entries)) + [0x7D] + rest;
    if entries == [] {
      assert Sorted(entries) == [] by { NothingToSort(); }
      assert t[2..] == rest && t[1..][..1] == [0x7D];
      assert NormalEntries(Sorted(entries)) == [];
    } else {
      assert t[1..][..1][0] == Members(Sorted(entries))[0];
    }
  }

  lemma NothingToSort()
    ensures Sorted([]) == []
  {
  }

  lemma ItemsStep(t: Text, v: Json, more: Option<(seq<Json>, Text)>, tail: Text)
    requires ParseValue(t) == Some((v, [if more.Some? then 0x2C else 0x5D] + tail))
    requires more.Some? ==> ParseItems(tail) == more
    ensures ParseItems(t) == Some(if more.Some? then ([v] + more.value.0, more.value.1) else ([v], tail))
  {
    hide ParseValue;
    assert ([0x2C] + tail)[1..] == tail && ([0x5D] + tail)[1..] == tail;
  }

  lemma {:induction false} ItemsComeBack(items: seq<Json>, rest: Text)
    requires items != [] && ItemsFinite(items)
    ensures ParseItems(Items(items) + [0x5D] + rest) == Some((NormalItems(items), rest))
    ensures Items(items) != [] && Items(items)[0] != 0x5D
    decreases ItemsSize(items), 0
  {
    hide ParseValue, ParseItems, Canonical, Normal;
    var t := Items(items) + [0x5D] + rest;
    FirstUnit(items[0]);
    if |items| == 1 {
      ValueComesBack(items[0], [0x5D] + rest);
      assert t == Canonical(items[0]) + ([0x5D] + rest);
      ItemsStep(t, Normal(items[0]), None, rest);
      assert NormalItems(items[1..]) == [] && NormalItems(items) == [Normal(items[0])];
    } else {
      ItemsComeBack(items[1..], rest);
      var tail := Items(items[1..]) + [0x5D] + rest;
      ValueComesBack(items[0], [0x2C] + tail);
      assert t == Canonical(items[0]) + ([0x2C] + tail);
      ItemsStep(t, Normal(items[0]), ParseItems(tail), tail);
    }
  }

  lemma {:induction false} MemberComesBack(e: Entry, rest: Text)
    requires NumbersFinite(e.value) && Ends(rest)
    ensures ParseMember(Member(e) + rest) == Some((Entry(e.key, Normal(e.value)), rest))
    decreases Size(e.value), 1
  {
    hide ParseValue, Canonical, Normal, ParseString, Escaped;
    var t := Member(e) + rest;
    var tail := [0x3A] + (Canonical(e.value) + rest);
    StringComesBack(e.key, tail);
    assert t[1..] == Escaped(e.key) + [0x22] + tail;
    assert tail[..1] == [0x3A] && tail[1..] == Canonical(e.value) + rest;
    ValueComesBack(e.value, rest);
  }

  lemma MembersStep(t: Text, e: Entry, more: Option<(seq<Entry>, Text)>, tail: Text)
    requires ParseMember(t) == Some((e, [if more.Some? then 0x2C else 0x7D] + tail))
    requires more.Some? ==> ParseMembers(tail) == more
    ensures ParseMembers(t) == Some(if more.Some? then ([e] + more.value.0, more.value.1) else ([e], tail))
  {
    hide ParseMember;
    assert ([0x2C] + tail)[1..] == tail && ([0x7D] + tail)[1..] == tail;
  }

  lemma {:induction false} MembersComeBack(entries: seq<Entry>, rest: Text)
    requires entries != [] && EntriesFinite(entries)
    ensures ParseMembers(Members(entries) + [0x7D] + rest) == Some((NormalEntries(entries), rest))
    ensures Members(entries) != [] && Members(entries)[0] == 0x22
    decreases EntriesSize(entries), 0
  {
    hide ParseMember, ParseMembers, Normal, Member;
    var t := Members(entries) + [0x7D] + rest;
    var e := Entry(entries[0].key, Normal(entries[0].value));
    MemberQuoted(entries[0]);
    if |entries| == 1 {
      MemberComesBack(entries[0], [0x7D] + rest);
      assert t == Member(entries[0]) + ([0x7D] + rest);
      MembersStep(t, e, None, rest);
      assert NormalEntries(entries[1..]) == [] && NormalEntries(entries) == [e];
    } else {
      MembersComeBack(entries[1..], rest);
      var tail := Members(entries[1..]) + [0x7D] + rest;
      MemberComesBack(entries[0], [0x2C] + tail);
      assert t == Member(entries[0]) + ([0x2C] + tail);
      MembersStep(t, e, ParseMembers(tail), tail);
    }
  }

  lemma MemberQuoted(e: Entry)
    ensures Member(e) != [] && Member(e)[0] == 0x22
  {
  }

  // ---------------------------------------------------------------- equal values, equal text

  lemma NormalEntriesAt(entries: seq<Entry>, i: nat)
    requires i < |entries|
    ensures NormalEntries(entries)[i] == Entry(entries[i].key, Normal(entries[i].value))
  {
    if i > 0 {
      NormalEntriesAt(entries[1..], i - 1);
    }
  }

  lemma NormalItemsAt(items: seq<Json>, i: nat)
    requires i < |items|
    ensures NormalItems(items)[i] == Normal(items[i])
  {
    if i > 0 {
      NormalItemsAt(items[1..], i - 1);
    }
  }

  lemma FirstKey(a: seq<Entry>)
    requires Ascending(a) && a != []
    ensures Ascending(a[1..]) && Keys(a) == {a[0].key} + Keys(a[1..])
    ensures forall k | k in Keys(a[1..]) :: Before(a[0].key, k) && k != a[0].key
  {
    hide Before;
    AscendingTail(a);
    BeforeIrreflexive(a[0].key);
    assert a == [a[0]] + a[1..];
  }

  /** Entries in key order are in the one possible order. */
  lemma {:induction false} OneOrder(a: seq<Entry>, b: seq<Entry>)
    requires Ascending(a) && Ascending(b) && Keys(a) == Keys(b)
    ensures |a| == |b| && forall i | 0 <= i < |a| :: a[i].key == b[i].key
  {
    hide Before, Ascending;
    assert forall e | e in a :: e.key in Keys(a);
    assert forall e | e in b :: e.key in Keys(b);
    if a != [] && b != [] {
      FirstKey(a);
      FirstKey(b);
      if a[0].key != b[0].key {
        BeforeTransitive(a[0].key, b[0].key, a[0].key);
        BeforeIrreflexive(a[0].key);
      }
      OneOrder(a[1..], b[1..]);
    }
  }

  lemma ProperIsFinite(v: Json)
    requires Proper(v)
    ensures NumbersFinite(v)
    decreases Size(v), 0
  {
    match v
    case Arr(items) => ProperItems(items);
    case Obj(entries) =>
      SortedHas(entries);
      ProperEntries(Sorted(entries));
    case _ =>
  }

  lemma ProperItems(items: seq<Json>)
    requires forall i | 0 <= i < |items| :: Proper(items[i])
    ensures ItemsFinite(items)
    decreases ItemsSize(items), 0
  {
    if items != [] {
      ProperIsFinite(items[0]);
      ProperItems(items[1..]);
    }
  }

  lemma ProperEntries(entries: seq<Entry>)
    requires forall e | e in entries :: Proper(e.value)
    ensures EntriesFinite(entries)
    decreases EntriesSize(entries), 0
  {
    if entries != [] {
      ProperIsFinite(entries[0].value);
      ProperEntries(entries[1..]);
    }
  }

  /** The entry of a key on the other side. */
  ghost predicate Matches(a: seq<Entry>, b: seq<Entry>) {
    forall i | 0 <= i < |a| :: exists j | 0 <= j < |b| :: a[i].key == b[j].key && Equiv(a[i].value, b[j].value)
  }

  lemma MatchingKeys(a: seq<Entry>, b: seq<Entry>)
    requires DistinctKeys(a) && DistinctKeys(b) && |a| == |b| && Matches(a, b)
    ensures Keys(a) == Keys(b)
  {
    hide Equiv;
    DistinctCount(a);
    DistinctCount(b);
    assert Keys(a) <= Keys(b) by {
      forall e | e in a
        ensures e.key in Keys(b)
      {
        var i :| 0 <= i < |a| && a[i] == e;
        var j :| 0 <= j < |b| && a[i].key == b[j].key;
        assert b[j] in b;
      }
    }
    SubsetOfSameSize(Keys(a), Keys(b));
  }

  lemma SubsetOfSameSize<T>(a: set<T>, b: set<T>)
    requires a <= b && |a| == |b|
    ensures a == b
  {
    assert b == a + (b - a);
  }

  lemma SortedKeys(entries: seq<Entry>)
    ensures Keys(Sorted(entries)) == Keys(entries)
  {
    SortedHas(entries);
  }

  /** An entry keeps its value through sorting. */
  lemma SameEntry(entries: seq<Entry>, i: nat, j: nat)
    requires DistinctKeys(entries) && i < |entries| && j < |Sorted(entries)| && entries[i].key == Sorted(entries)[j].key
    ensures entries[i] == Sorted(entries)[j]
  {
    SortedHas(entries);
    assert Sorted(entries)[j] in Sorted(entries);
    var k :| 0 <= k < |entries| && entries[k] == Sorted(entries)[j];
  }

  /** Equal values have one normal form, and only equal values share it. */
  lemma {:induction false} EquivIsNormal(a: Json, b: Json)
    requires Proper(a) && Proper(b)
    ensures Equiv(a, b) <==> Normal(a) == Normal(b)
    decreases Size(a)
  {
    if a.Arr? && b.Arr? && |a.items| == |b.items| {
      ArraysAgree(a.items, b.items);
    } else if a.Obj? && b.Obj? && |a.entries| == |b.entries| {
      ObjectsAgree(a.entries, b.entries);
    } else if a.Arr? && b.Arr? {
      assert |Normal(a).items| == |a.items| && |Normal(b).items| == |b.items|;
    } else if a.Obj? && b.Obj? {
      assert |Normal(a).entries| == |a.entries| && |Normal(b).entries| == |b.entries|;
    }
  }

  lemma ArraysAgree(a: seq<Json>, b: seq<Json>)
    requires Proper(Arr(a)) && Proper(Arr(b)) && |a| == |b|
    ensures Equiv(Arr(a), Arr(b)) <==> NormalItems(a) == NormalItems(b)
    decreases ItemsSize(a) + 1, 0
  {
    hide Normal, NormalItems;
    forall i | 0 <= i < |a|
      ensures Equiv(a[i], b[i]) <==> NormalItems(a)[i] == NormalItems(b)[i]
    {
      SizeOfItem(a, i);
      EquivIsNormal(a[i], b[i]);
      NormalItemsAt(a, i);
      NormalItemsAt(b, i);
    }
  }

  lemma ObjectsAgree(a: seq<Entry>, b: seq<Entry>)
    requires Proper(Obj(a)) && Proper(Obj(b)) && |a| == |b|
    ensures Equiv(Obj(a), Obj(b)) <==> NormalEntries(Sorted(a)) == NormalEntries(Sorted(b))
    decreases EntriesSize(a) + 1, 0
  {
    hide Normal, NormalEntries, Sorted, Ascending, DistinctKeys, Before;
    assert Equiv(Obj(a), Obj(b)) <==> Matches(a, b);
    assert DistinctKeys(a) && DistinctKeys(b);
    if Matches(a, b) {
      MatchesToNormal(a, b);
    }
    if NormalEntries(Sorted(a)) == NormalEntries(Sorted(b)) {
      NormalToMatches(a, b);
    }
  }

  lemma MatchesToNormal(a: seq<Entry>, b: seq<Entry>)
    requires Proper(Obj(a)) && Proper(Obj(b)) && |a| == |b| && Matches(a, b)
    ensures NormalEntries(Sorted(a)) == NormalEntries(Sorted(b))
    decreases EntriesSize(a), 1
  {
    hide Equiv, Normal, NormalEntries, Sorted, Ascending, Before, Keys;
    var sa, sb := Sorted(a), Sorted(b);
    SortedAscending(a);
    SortedAscending(b);
    SortedKeys(a);
    SortedKeys(b);
    MatchingKeys(a, b);
    OneOrder(sa, sb);
    forall p | 0 <= p < |sa|
      ensures NormalEntries(sa)[p] == NormalEntries(sb)[p]
    {
      SortedHas(a);
      assert sa[p] in sa;
      var i :| 0 <= i < |a| && a[i] == sa[p];
      var j :| 0 <= j < |b| && a[i].key == b[j].key && Equiv(a[i].value, b[j].value);
      SameEntry(b, j, p);
      SizeOfEntry(a, i);
      EquivIsNormal(a[i].value, b[j].value);
      NormalEntriesAt(sa, p);
      NormalEntriesAt(sb, p);
    }
  }

  lemma NormalToMatches(a: seq<Entry>, b: seq<Entry>)
    requires Proper(Obj(a)) && Proper(Obj(b)) && |a| == |b| && NormalEntries(Sorted(a)) == NormalEntries(Sorted(b))
    ensures Matches(a, b)
    decreases EntriesSize(a), 1
  {
    hide Equiv, Normal, NormalEntries, Sorted;
    var sa, sb := Sorted(a), Sorted(b);
    SortedHas(a);
    SortedHas(b);
    forall i | 0 <= i < |a|
      ensures exists j | 0 <= j < |b| :: a[i].key == b[j].key && Equiv(a[i].value, b[j].value)
    {
      assert a[i] in sa;
      var p :| 0 <= p < |sa| && sa[p] == a[i];
      NormalEntriesAt(sa, p);
      NormalEntriesAt(sb, p);
      assert sb[p] in sb;
      var j :| 0 <= j < |b| && b[j] == sb[p];
      SizeOfEntry(a, i);
      EquivIsNormal(a[i].value, b[j].value);
    }
  }

  lemma NormalAscending(entries: seq<Entry>)
    requires Ascending(entries)
    ensures Ascending(NormalEntries(entries))
  {
    hide NormalEntries, Before;
    forall i, j | 0 <= i < j < |entries|
      ensures Before(NormalEntries(entries)[i].key, NormalEntries(entries)[j].key)
    {
      NormalEntriesAt(entries, i);
      NormalEntriesAt(entries, j);
    }
  }

  /** A value and its normal form print alike. */
  lemma {:induction false} NormalPrintsTheSame(v: Json)
    requires Proper(v)
    ensures Canonical(Normal(v)) == Canonical(v)
    decreases Size(v), 0
  {
    hide Members, Items, Sorted, NormalEntries, NormalItems;
    match v
    case Arr(items) => NormalItemsPrint(items);
    case Obj(entries) =>
      SortedAscending(entries);
      NormalAscending(Sorted(entries));
      SortedAlready(NormalEntries(Sorted(entries)));
      SortedHas(entries);
      NormalEntriesPrint(Sorted(entries));
    case _ =>
  }

  lemma {:induction false} NormalItemsPrint(items: seq<Json>)
    requires forall i | 0 <= i < |items| :: Proper(items[i])
    ensures Items(NormalItems(items)) == Items(items)
    decreases ItemsSize(items), 0
  {
    hide Canonical, Normal;
    if items != [] {
      NormalPrintsTheSame(items[0]);
      NormalItemsPrint(items[1..]);
      assert NormalItems(items)[1..] == NormalItems(items[1..]);
    }
  }

  lemma {:induction false} NormalEntriesPrint(entries: seq<Entry>)
    requires forall e | e in entries :: Proper(e.value)
    ensures Members(NormalEntries(entries)) == Members(entries)
    decreases EntriesSize(entries), 0
  {
    hide Canonical, Normal;
    if entries != [] {
      NormalPrintsTheSame(entries[0].value);
      NormalEntriesPrint(entries[1..]);
      assert NormalEntries(entries)[1..] == NormalEntries(entries[1..]);
    }
  }

  /** The canonical text says everything about a value except the order of its keys. */
  lemma CanonicalIsInjective(a: Json, b: Json)
    requires Proper(a) && Proper(b)
    ensures Canonical(a) == Canonical(b) <==> Equiv(a, b)
  {
    hide Canonical, ParseValue, Equiv, Normal, Proper;
    ProperIsFinite(a);
    ProperIsFinite(b);
    ValueComesBack(a, []);
    ValueComesBack(b, []);
    assert Canonical(a) + [] == Canonical(a) && Canonical(b) + [] == Canonical(b);
    EquivIsNormal(a, b);
    NormalPrintsTheSame(a);
    NormalPrintsTheSame(b);
  }

  // ---------------------------------------------------------------- numbers that JSON cannot carry

  /** What a value prints as: a number that is not finite is written as `null`. */
  function Printed(v: Json): Json {
    match v
    case Num(n) => if n.NotFinite? then Null else v
    case Arr(items) => Arr(PrintedItems(items))
    case Obj(entries) => Obj(PrintedEntries(entries))
    case _ => v
  }

  function PrintedItems(items: seq<Json>): seq<Json> {
    if items == [] then [] else [Printed(items[0])] + PrintedItems(items[1..])
  }

  function PrintedEntry(e: Entry): Entry {
    Entry(e.key, Printed(e.value))
  }

  function PrintedEntries(entries: seq<Entry>): seq<Entry> {
    if entries == [] then [] else [PrintedEntry(entries[0])] + PrintedEntries(entries[1..])
  }

  lemma {:induction false} PrintedItemsAt(items: seq<Json>)
    ensures |PrintedItems(items)| == |items| && forall i | 0 <= i < |items| :: PrintedItems(items)[i] == Printed(items[i])
  {
    hide Printed;
    if items != [] {
      PrintedItemsAt(items[1..]);
    }
  }

  lemma {:induction false} PrintedEntriesAt(entries: seq<Entry>)
    ensures |PrintedEntries(entries)| == |entries|
    ensures forall i | 0 <= i < |entries| :: PrintedEntries(entries)[i] == PrintedEntry(entries[i])
  {
    hide PrintedEntry;
    if entries != [] {
      PrintedEntriesAt(entries[1..]);
    }
  }

  lemma {:induction false} PrintedInsert(e: Entry, entries: seq<Entry>)
    ensures Insert(PrintedEntry(e), PrintedEntries(entries)) == PrintedEntries(Insert(e, entries))
  {
    hide Printed, Before;
    if entries == [] {
      assert PrintedEntries([e][1..]) == [];
    } else if Before(e.key, entries[0].key) {
      assert ([e] + entries)[1..] == entries;
    } else {
      PrintedInsert(e, entries[1..]);
      assert ([entries[0]] + Insert(e, entries[1..]))[1..] == Insert(e, entries[1..]);
      assert PrintedEntries(entries)[1..] == PrintedEntries(entries[1..]);
    }
  }

  lemma {:induction false} PrintedSorted(entries: seq<Entry>)
    ensures Sorted(PrintedEntries(entries)) == PrintedEntries(Sorted(entries))
  {
    hide Printed, Insert;
    if entries != [] {
      PrintedSorted(entries[1..]);
      PrintedInsert(entries[0], Sorted(entries[1..]));
      assert PrintedEntries(entries)[1..] == PrintedEntries(entries[1..]);
    }
  }

  lemma {:induction false} PrintedPrintsTheSame(v: Json)
    ensures Canonical(Printed(v)) == Canonical(v)
    decreases Size(v), 0
  {
    hide Members, Items, Sorted, PrintedEntries, PrintedItems;
    match v
    case Arr(items) => PrintedItemsPrint(items);
    case Obj(entries) =>
      PrintedSorted(entries);
      PrintedEntriesPrint(Sorted(entries));
    case _ =>
  }

  lemma {:induction false} PrintedItemsPrint(items: seq<Json>)
    ensures Items(PrintedItems(items)) == Items(items)
    decreases ItemsSize(items), 0
  {
    hide Canonical, Printed;
    PrintedItemsAt(items);
    if items != [] {
      PrintedPrintsTheSame(items[0]);
      PrintedItemsPrint(items[1..]);
      assert PrintedItems(items)[1..] == PrintedItems(items[1..]);
    }
  }

  lemma {:induction false} PrintedEntriesPrint(entries: seq<Entry>)
    ensures Members(PrintedEntries(entries)) == Members(entries)
    decreases EntriesSize(entries), 0
  {
    hide Canonical, Printed;
    PrintedEntriesAt(entries);
    if entries != [] {
      PrintedPrintsTheSame(entries[0].value);
      PrintedEntriesPrint(entries[1..]);
      assert PrintedEntries(entries)[1..] == PrintedEntries(entries[1..]);
    }
  }

  lemma {:induction false} PrintedIsProper(v: Json)
    requires Keyed(v)
    ensures Proper(Printed(v))
  {
    hide PrintedItems, PrintedEntries;
    match v
    case Arr(items) =>
      PrintedItemsAt(items);
      forall i | 0 <= i < |items|
        ensures Proper(PrintedItems(items)[i])
      {
        PrintedIsProper(items[i]);
      }
    case Obj(entries) =>
      PrintedEntriesAt(entries);
      forall i | 0 <= i < |entries|
        ensures Proper(PrintedEntries(entries)[i].value)
      {
        PrintedIsProper(entries[i].value);
      }
    case _ =>
  }

  /** Without any check on numbers, two values print the same text exactly when they are equal once
      every number that is not finite is read as `null`. */
  lemma CollisionsAreNulls(a: Json, b: Json)
    requires Keyed(a) && Keyed(b)
    ensures Canonical(a) == Canonical(b) <==> Equiv(Printed(a), Printed(b))
  {
    hide Canonical, Printed, Equiv, Keyed, Proper;
    PrintedIsProper(a);
    PrintedIsProper(b);
    PrintedPrintsTheSame(a);
    PrintedPrintsTheSame(b);
    CanonicalIsInjective(Printed(a), Printed(b));
  }

  lemma UnprintableNumbersCollide()
    ensures Canonical(Num(NotFinite)) == Canonical(Null) && !Equiv(Num(NotFinite), Null)
  {
  }
}
