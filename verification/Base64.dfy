// The base64 encoding of section 4 of RFC 4648, and its decoder.
module Base64 {
  import opened Records

  type Byte = x: int | 0 <= x < 256

  function Digit(i: nat): char
    requires i < 64
  {
    if i < 26 then ('A' as int + i) as char
    else if i < 52 then ('a' as int + (i - 26)) as char
    else if i < 62 then ('0' as int + (i - 52)) as char
    else if i == 62 then '+' else '/'
  }

  function Value(c: char): (v: Option<nat>)
    ensures v.Some? ==> v.value < 64
  {
    if 'A' <= c <= 'Z' then Some(c as int - 'A' as int)
    else if 'a' <= c <= 'z' then Some(c as int - 'a' as int + 26)
    else if '0' <= c <= '9' then Some(c as int - '0' as int + 52)
    else if c == '+' then Some(62)
    else if c == '/' then Some(63)
    else None
  }

  lemma DigitHasItsValue(i: nat)
    requires i < 64
    ensures Value(Digit(i)) == Some(i) && Digit(i) != '=' && Digit(i) != '\n'
  {
  }

  // Three bytes make four digits; a shorter last group is padded.
  function Encode(bytes: seq<Byte>): string {
    if |bytes| == 0 then ""
    else if |bytes| == 1 then [Digit(bytes[0] / 4), Digit(bytes[0] % 4 * 16), '=', '=']
    else if |bytes| == 2 then
      [Digit(bytes[0] / 4), Digit(bytes[0] % 4 * 16 + bytes[1] / 16), Digit(bytes[1] % 16 * 4), '=']
    else
      [Digit(bytes[0] / 4), Digit(bytes[0] % 4 * 16 + bytes[1] / 16),
       Digit(bytes[1] % 16 * 4 + bytes[2] / 64), Digit(bytes[2] % 64)] + Encode(bytes[3..])
  }

  function Group(a: nat, b: nat, c: nat, d: nat): seq<Byte>
    requires a < 64 && b < 64 && c < 64 && d < 64
  {
    [a * 4 + b / 16, b % 16 * 16 + c / 4, c % 4 * 64 + d]
  }

  function Decode(s: string): Option<seq<Byte>> {
    if |s| == 0 then Some([])
    else if |s| < 4 then None
    else
      var a, b := Value(s[0]), Value(s[1]);
      if a.None? || b.None? then None
      else if s[3] == '=' then
        if |s| > 4 then None
        else if s[2] == '=' then Some(Group(a.value, b.value, 0, 0)[..1])
        else
          var c := Value(s[2]);
          if c.None? then None else Some(Group(a.value, b.value, c.value, 0)[..2])
      else
        var c, d, rest := Value(s[2]), Value(s[3]), Decode(s[4..]);
        if c.None? || d.None? || rest.None? then None else Some(Group(a.value, b.value, c.value, d.value) + rest.value)
  }

  lemma GroupOfThree(x: Byte, y: Byte, z: Byte)
    ensures Group(x / 4, x % 4 * 16 + y / 16, y % 16 * 4 + z / 64, z % 64) == [x, y, z]
  {
  }

  lemma {:induction false} DecodeEncode(bytes: seq<Byte>)
    ensures Decode(Encode(bytes)) == Some(bytes)
    decreases |bytes|
  {
    hide Digit, Value, Group;
    if |bytes| == 1 {
      DigitHasItsValue(bytes[0] / 4);
      DigitHasItsValue(bytes[0] % 4 * 16);
      GroupOfThree(bytes[0], 0, 0);
      assert bytes[0] % 4 * 16 + 0 / 16 == bytes[0] % 4 * 16 && 0 % 16 * 4 + 0 / 64 == 0;
      assert [bytes[0], 0, 0][..1] == [bytes[0]];
      assert bytes == [bytes[0]];
    } else if |bytes| == 2 {
      DigitHasItsValue(bytes[0] / 4);
      DigitHasItsValue(bytes[0] % 4 * 16 + bytes[1] / 16);
      DigitHasItsValue(bytes[1] % 16 * 4);
      GroupOfThree(bytes[0], bytes[1], 0);
      assert bytes[1] % 16 * 4 + 0 / 64 == bytes[1] % 16 * 4;
      assert [bytes[0], bytes[1], 0][..2] == [bytes[0], bytes[1]];
      assert bytes == [bytes[0], bytes[1]];
    } else if |bytes| > 2 {
      DigitHasItsValue(bytes[0] / 4);
      DigitHasItsValue(bytes[0] % 4 * 16 + bytes[1] / 16);
      DigitHasItsValue(bytes[1] % 16 * 4 + bytes[2] / 64);
      DigitHasItsValue(bytes[2] % 64);
      GroupOfThree(bytes[0], bytes[1], bytes[2]);
      DecodeEncode(bytes[3..]);
      assert Encode(bytes)[4..] == Encode(bytes[3..]);
      assert bytes == [bytes[0], bytes[1], bytes[2]] + bytes[3..];
    }
  }

  lemma {:induction false} EncodeIsOneLine(bytes: seq<Byte>)
    ensures '\n' !in Encode(bytes)
    decreases |bytes|
  {
    if |bytes| > 2 { EncodeIsOneLine(bytes[3..]); }
  }

  // The digits are those of the standard's table 1: A to Z, a to z, 0 to 9, each
  // letter or figure after the one before, then the two signs.
  lemma DigitsAreStandard(i: nat)
    ensures Digit(0) == 'A' && Digit(25) == 'Z' && Digit(26) == 'a' && Digit(51) == 'z' && Digit(52) == '0' && Digit(61) == '9'
    ensures Digit(62) == '+' && Digit(63) == '/'
    ensures i < 61 && i !in {25, 51} ==> Digit(i + 1) as int == Digit(i) as int + 1
  {
  }

  // The standard's test vectors (section 10) for "f", "fo", "foo" and "foobar".
  lemma ShortVectors()
    ensures Encode([]) == "" && Encode([102]) == "Zg==" && Encode([102, 111]) == "Zm8="
  {
  }

  lemma GroupVector(a: Byte, b: Byte, c: Byte)
    ensures Encode([a, b, c]) == [Digit(a / 4), Digit(a % 4 * 16 + b / 16), Digit(b % 16 * 4 + c / 64), Digit(c % 64)]
  {
    var group: seq<Byte> := [a, b, c];
    assert group[3..] == [];
  }

  lemma LongVectors()
    ensures Encode([102, 111, 111]) == "Zm9v" && Encode([102, 111, 111, 98, 97, 114]) == "Zm9vYmFy"
  {
    GroupVector(102, 111, 111);
    GroupVector(98, 97, 114);
    var bytes: seq<Byte> := [102, 111, 111, 98, 97, 114];
    assert bytes[3..] == [98, 97, 114];
    assert Encode(bytes) == "Zm9v" + Encode([98, 97, 114]);
  }
}
