/** The Base58 text of a digest, as the draft agent identifier uses it. */
module Base58 {
  import opened Effects

  type Byte = b: nat | b < 256

  /** Digits and letters without 0, I, O and l. */
  const ALPHABET: string := "123456789" + "ABCDEFGH" + "JKLMN" + "PQRSTUVWXYZ" + "abcdefghijk" + "mnopqrstuvwxyz"

  /** Big-endian value of a sequence of bytes. */
  function ValueOf(bytes: seq<Byte>): nat {
    if bytes == [] then 0 else ValueOf(bytes[..|bytes| - 1]) * 256 + bytes[|bytes| - 1]
  }

  function Digits(value: nat): string {
    if value == 0 then "" else Digits(value / 58) + [ALPHABET[value % 58]]
  }

  function LeadingZeros(bytes: seq<Byte>): (n: nat)
    ensures n <= |bytes| && (forall i | 0 <= i < n :: bytes[i] == 0) && (n < |bytes| ==> bytes[n] != 0)
  {
    if bytes == [] || bytes[0] != 0 then 0 else 1 + LeadingZeros(bytes[1..])
  }

  function Ones(n: nat): (s: string)
    ensures |s| == n && forall i | 0 <= i < n :: s[i] == '1'
  {
    seq(n, i => '1')
  }

  function Encoded(bytes: seq<Byte>): string {
    Ones(LeadingZeros(bytes)) + Digits(ValueOf(bytes))
  }

  /** An empty digest has no hexadecimal value and throws. */
  method Encode(bytes: seq<Byte>) returns (r: Result<string>)
    ensures r == if bytes == [] then Threw else Ok(Encoded(bytes))
  {
    hide ALPHABET, ValueOf;
    AlphabetSize();
    if bytes == [] {
      return Threw;
    }
    var value, encoded := ValueOf(bytes), "";
    while value > 0
      invariant Digits(value) + encoded == Digits(ValueOf(bytes))
    {
      encoded := [ALPHABET[value % 58]] + encoded;
      value := value / 58;
    }
    var i := 0;
    while i < |bytes| && bytes[i] == 0
      invariant i <= LeadingZeros(bytes)
      invariant encoded == Ones(i) + Digits(ValueOf(bytes))
    {
      assert Ones(i + 1) == ['1'] + Ones(i);
      encoded := "1" + encoded;
      i := i + 1;
    }
    return Ok(encoded);
  }

  // ---------------------------------------------------------------- the decoder

  function IndexOf(s: string, c: char): (n: nat)
    ensures n <= |s|
  {
    if s == "" || s[0] == c then 0 else 1 + IndexOf(s[1..], c)
  }

  function LeadingOnes(s: string): (n: nat)
    ensures n <= |s|
  {
    if s == "" || s[0] != '1' then 0 else 1 + LeadingOnes(s[1..])
  }

  function DigitsValue(s: string): nat {
    if s == "" then 0 else DigitsValue(s[..|s| - 1]) * 58 + IndexOf(ALPHABET, s[|s| - 1])
  }

  function Bytes(value: nat): seq<Byte> {
    if value == 0 then [] else Bytes(value / 256) + [value % 256]
  }

  function Zeros(n: nat): (s: seq<Byte>)
    ensures |s| == n && forall i | 0 <= i < n :: s[i] == 0
  {
    seq(n, i => 0)
  }

  function Decoded(s: string): seq<Byte> {
    Zeros(LeadingOnes(s)) + Bytes(DigitsValue(s[LeadingOnes(s)..]))
  }

  // ---------------------------------------------------------------- round trip

  lemma AlphabetAscends(i: nat)
    requires i < 57
    ensures ALPHABET[i] < ALPHABET[i + 1]
  {
  }

  lemma {:induction false} AlphabetDistinct(i: nat, j: nat)
    requires i < j < 58
    ensures ALPHABET[i] < ALPHABET[j]
    decreases j
  {
    hide ALPHABET;
    assert |ALPHABET| == 58 by { AlphabetSize(); }
    if i < j - 1 {
      AlphabetDistinct(i, j - 1);
    }
    AlphabetAscends(j - 1);
  }

  lemma AlphabetSize()
    ensures |ALPHABET| == 58
  {
  }

  lemma {:induction false} IndexFound(s: string, k: nat)
    requires k < |s| && forall i | 0 <= i < k :: s[i] != s[k]
    ensures IndexOf(s, s[k]) == k
  {
    if k > 0 {
      assert forall i | 0 <= i < k - 1 :: s[1..][i] == s[i + 1];
      IndexFound(s[1..], k - 1);
    }
  }

  lemma SymbolComesBack(d: nat)
    requires d < 58
    ensures |ALPHABET| == 58 && IndexOf(ALPHABET, ALPHABET[d]) == d
  {
    AlphabetSize();
    forall i | 0 <= i < d
      ensures ALPHABET[i] != ALPHABET[d]
    {
      AlphabetDistinct(i, d);
    }
    IndexFound(ALPHABET, d);
  }

  lemma {:induction false} DigitsComeBack(value: nat)
    ensures DigitsValue(Digits(value)) == value
  {
    if value > 0 {
      DigitsComeBack(value / 58);
      SymbolComesBack(value % 58);
      assert Digits(value)[..|Digits(value)| - 1] == Digits(value / 58);
    }
  }

  lemma {:induction false} FirstDigit(value: nat)
    requires value > 0
    ensures Digits(value) != "" && Digits(value)[0] != '1'
  {
    if value < 58 {
      AlphabetSize();
      AlphabetDistinct(0, value);
      assert ALPHABET[0] == '1';
      assert Digits(value / 58) == "";
    } else {
      FirstDigit(value / 58);
    }
  }

  lemma {:induction false} BytesComeBack(bytes: seq<Byte>)
    requires bytes != [] ==> bytes[0] != 0
    ensures Bytes(ValueOf(bytes)) == bytes
    ensures bytes != [] ==> ValueOf(bytes) > 0
  {
    if bytes != [] {
      var rest := bytes[..|bytes| - 1];
      BytesComeBack(rest);
      assert bytes == rest + [bytes[|bytes| - 1]];
    }
  }

  lemma {:induction false} ZerosAddNothing(bytes: seq<Byte>, n: nat)
    requires n <= |bytes| && forall i | 0 <= i < n :: bytes[i] == 0
    ensures ValueOf(bytes) == ValueOf(bytes[n..])
    decreases |bytes|
  {
    if n < |bytes| {
      ZerosAddNothing(bytes[..|bytes| - 1], n);
      assert bytes[n..][..|bytes[n..]| - 1] == bytes[..|bytes| - 1][n..];
    } else if n > 0 {
      ZerosAddNothing(bytes[..|bytes| - 1], n - 1);
      assert bytes[..|bytes| - 1][n - 1..] == [];
    }
  }

  lemma {:induction false} OnesCount(n: nat, s: string)
    requires s != "" ==> s[0] != '1'
    ensures LeadingOnes(Ones(n) + s) == n && (Ones(n) + s)[n..] == s
  {
    if n > 0 {
      OnesCount(n - 1, s);
      assert (Ones(n) + s)[1..] == Ones(n - 1) + s;
    }
  }

  /** Every digest comes back, leading zero bytes included. */
  lemma DecodeUndoesEncode(bytes: seq<Byte>)
    ensures Decoded(Encoded(bytes)) == bytes
  {
    hide Digits, ValueOf, Bytes, DigitsValue, LeadingOnes, LeadingZeros;
    var n := LeadingZeros(bytes);
    var rest := bytes[n..];
    ZerosAddNothing(bytes, n);
    BytesComeBack(rest);
    DigitsComeBack(ValueOf(rest));
    assert Digits(ValueOf(bytes)) != "" ==> Digits(ValueOf(bytes))[0] != '1' by {
      if ValueOf(bytes) > 0 {
        FirstDigit(ValueOf(bytes));
      } else {
        assert Digits(0) == "" by { NoDigits(); }
      }
    }
    OnesCount(n, Digits(ValueOf(bytes)));
    assert bytes == Zeros(n) + rest;
  }

  lemma NoDigits()
    ensures Digits(0) == ""
  {
  }

  lemma EncodedIsInjective(a: seq<Byte>, b: seq<Byte>)
    requires Encoded(a) == Encoded(b)
    ensures a == b
  {
    DecodeUndoesEncode(a);
    DecodeUndoesEncode(b);
  }
}
