/** The base64 encoding of section 4 of RFC 4648. */
module Base64 {
  import opened Common

  type byte = x: int | 0 <= x < 256

  type sextet = x: int | 0 <= x < 64

  function Symbol(i: sextet): char {
    if i < 26 then ('A' as int + i) as char
    else if i < 52 then ('a' as int + i - 26) as char
    else if i < 62 then ('0' as int + i - 52) as char
    else if i == 62 then '+'
    else '/'
  }

  /** None for a character outside the alphabet. */
  function Index(c: char): Option<sextet> {
    if 'A' <= c <= 'Z' then Some(c as int - 'A' as int)
    else if 'a' <= c <= 'z' then Some(c as int - 'a' as int + 26)
    else if '0' <= c <= '9' then Some(c as int - '0' as int + 52)
    else if c == '+' then Some(62)
    else if c == '/' then Some(63)
    else None
  }

  /** The four characters for one to three bytes. */
  function Group(data: seq<byte>): (s: string)
    requires 0 < |data| <= 3
    ensures |s| == 4
  {
    var first := Symbol(data[0] / 4);
    if |data| == 1 then [first, Symbol(data[0] % 4 * 16), '=', '=']
    else
      var second := Symbol(data[0] % 4 * 16 + data[1] / 16);
      if |data| == 2 then [first, second, Symbol(data[1] % 16 * 4), '=']
      else [first, second, Symbol(data[1] % 16 * 4 + data[2] / 64), Symbol(data[2] % 64)]
  }

  function Encode(data: seq<byte>): string {
    if data == [] then ""
    else if |data| <= 3 then Group(data)
    else Group(data[..3]) + Encode(data[3..])
  }

  function Pair(a: sextet, b: sextet): byte {
    a * 4 + b / 16
  }

  /** Four characters, padded only when `last`; None when one is out of place. */
  function DecodeGroup(s: string, last: bool): Option<seq<byte>>
    requires |s| == 4
  {
    var a, b, c, d := Index(s[0]), Index(s[1]), Index(s[2]), Index(s[3]);
    if a.None? || b.None? then None
    else if last && s[2] == '=' && s[3] == '=' then Some([Pair(a.value, b.value)])
    else if c.None? then None
    else
      var second: byte := b.value % 16 * 16 + c.value / 4;
      if last && s[3] == '=' then Some([Pair(a.value, b.value), second])
      else if d.None? then None
      else Some([Pair(a.value, b.value), second, c.value % 4 * 64 + d.value])
  }

  /** None for anything but whole groups of the alphabet with padding only at the end. */
  function Decode(s: string): Option<seq<byte>> {
    if s == "" then Some([])
    else if |s| < 4 then None
    else
      var head := DecodeGroup(s[..4], |s| == 4);
      var tail := Decode(s[4..]);
      if head.None? || tail.None? then None else Some(head.value + tail.value)
  }

  lemma IndexOfSymbol(i: sextet)
    ensures Index(Symbol(i)) == Some(i) && Symbol(i) != '='
  {
  }

  /** Splitting two bytes over three sextets loses nothing. */
  lemma Repacked(x: byte, y: byte)
    ensures 0 <= x % 4 * 16 + y / 16 < 64 && 0 <= y % 16 * 4 < 61
    ensures x / 4 * 4 + (x % 4 * 16 + y / 16) / 16 == x
    ensures (x % 4 * 16 + y / 16) % 16 * 16 + (y % 16 * 4) / 4 == y
  {
  }

  lemma RepackedLast(x: byte, y: byte, z: byte)
    ensures 0 <= y % 16 * 4 + z / 64 < 64
    ensures (x % 4 * 16 + y / 16) % 16 * 16 + (y % 16 * 4 + z / 64) / 4 == y
    ensures (y % 16 * 4 + z / 64) % 4 * 64 + z % 64 == z
  {
  }

  lemma OneByteDecodes(x: byte)
    ensures DecodeGroup(Group([x]), true) == Some([x])
  {
    IndexOfSymbol(x / 4);
    IndexOfSymbol(x % 4 * 16);
    Repacked(x, 0);
  }

  lemma TwoBytesDecode(x: byte, y: byte)
    ensures DecodeGroup(Group([x, y]), true) == Some([x, y])
  {
    Repacked(x, y);
    IndexOfSymbol(x / 4);
    IndexOfSymbol(x % 4 * 16 + y / 16);
    IndexOfSymbol(y % 16 * 4);
  }

  lemma SymbolsDecode(a: sextet, b: sextet, c: sextet, d: sextet, last: bool)
    ensures DecodeGroup([Symbol(a), Symbol(b), Symbol(c), Symbol(d)], last)
         == Some([Pair(a, b), b % 16 * 16 + c / 4, c % 4 * 64 + d])
  {
    IndexOfSymbol(a);
    IndexOfSymbol(b);
    IndexOfSymbol(c);
    IndexOfSymbol(d);
  }

  lemma GroupOfThree(x: byte, y: byte, z: byte)
    ensures 0 <= x % 4 * 16 + y / 16 < 64 && 0 <= y % 16 * 4 + z / 64 < 64
    ensures Group([x, y, z]) == [Symbol(x / 4), Symbol(x % 4 * 16 + y / 16), Symbol(y % 16 * 4 + z / 64), Symbol(z % 64)]
  {
  }

  lemma ThreeBytesDecode(x: byte, y: byte, z: byte, last: bool)
    ensures DecodeGroup(Group([x, y, z]), last) == Some([x, y, z])
  {
    GroupOfThree(x, y, z);
    var a, b, c, d := x / 4, x % 4 * 16 + y / 16, y % 16 * 4 + z / 64, z % 64;
    assert Pair(a, b) == x && b % 16 * 16 + c / 4 == y && c % 4 * 64 + d == z by {
      Repacked(x, y);
      RepackedLast(x, y, z);
    }
    SymbolsDecode(a, b, c, d, last);
  }

  lemma GroupDecodes(data: seq<byte>, last: bool)
    requires 0 < |data| <= 3 && (|data| < 3 ==> last)
    ensures DecodeGroup(Group(data), last) == Some(data)
  {
    if |data| == 1 {
      assert data == [data[0]];
      OneByteDecodes(data[0]);
    } else if |data| == 2 {
      assert data == [data[0], data[1]];
      TwoBytesDecode(data[0], data[1]);
    } else {
      assert data == [data[0], data[1], data[2]];
      ThreeBytesDecode(data[0], data[1], data[2], last);
    }
  }

  lemma DecodeStep(group: string, rest: string, head: seq<byte>, tail: seq<byte>)
    requires |group| == 4 && DecodeGroup(group, rest == "") == Some(head) && Decode(rest) == Some(tail)
    ensures Decode(group + rest) == Some(head + tail)
  {
    var s := group + rest;
    assert s[..4] == group && s[4..] == rest;
  }

  lemma {:induction false} DecodeInvertsEncode(data: seq<byte>)
    ensures Decode(Encode(data)) == Some(data)
    ensures Encode(data) == "" <==> data == []
    decreases |data|
  {
    if data == [] {
    } else if |data| <= 3 {
      GroupDecodes(data, true);
      DecodeStep(Group(data), "", data, []);
      assert Group(data) + "" == Group(data) && data + [] == data;
    } else {
      DecodeInvertsEncode(data[3..]);
      GroupDecodes(data[..3], false);
      DecodeStep(Group(data[..3]), Encode(data[3..]), data[..3], data[3..]);
      assert data[..3] + data[3..] == data;
    }
  }

  // ---------------------------------------------------------------- what is accepted

  predicate InAlphabet(c: char) {
    'A' <= c <= 'Z' || 'a' <= c <= 'z' || '0' <= c <= '9' || c == '+' || c == '/'
  }

  /** A symbol, or padding: the last character, or the one before it if both are. */
  predicate Placed(s: string, i: nat)
    requires i < |s|
  {
    InAlphabet(s[i]) || (s[i] == '=' && (i == |s| - 1 || (i == |s| - 2 && s[|s| - 1] == '=')))
  }

  /** Groups of four symbols of the alphabet, but for padding at the very end. */
  predicate Wellformed(s: string) {
    |s| % 4 == 0 && forall i: nat | i < |s| :: Placed(s, i)
  }

  lemma IndexedExactly(c: char)
    ensures Index(c).Some? <==> InAlphabet(c)
    ensures !InAlphabet('=')
  {
  }

  lemma GroupsWellformed(s: string)
    requires |s| == 4
    ensures DecodeGroup(s, true).Some? <==> Wellformed(s)
    ensures DecodeGroup(s, false).Some? <==> forall i | 0 <= i < 4 :: InAlphabet(s[i])
  {
    assert Wellformed(s) <==> Placed(s, 0) && Placed(s, 1) && Placed(s, 2) && Placed(s, 3);
    IndexedExactly(s[0]);
    IndexedExactly(s[1]);
    IndexedExactly(s[2]);
    IndexedExactly(s[3]);
  }

  lemma WellformedSplits(s: string)
    requires |s| > 4 && |s| % 4 == 0
    ensures Wellformed(s) <==> Wellformed(s[4..]) && forall i | 0 <= i < 4 :: InAlphabet(s[i])
  {
    var tail := s[4..];
    if Wellformed(tail) && forall i | 0 <= i < 4 :: InAlphabet(s[i]) {
      forall i: nat | i < |s| ensures Placed(s, i) {
        assert i >= 4 ==> Placed(tail, i - 4) && tail[i - 4] == s[i];
      }
    }
    if Wellformed(s) {
      forall i: nat | i < |tail| ensures Placed(tail, i) {
        assert Placed(s, i + 4) && tail[i] == s[i + 4];
      }
      assert Placed(s, 0) && Placed(s, 1) && Placed(s, 2) && Placed(s, 3);
    }
  }

  /** Exactly the well-formed texts are decoded. */
  lemma {:induction false} DecodesExactly(s: string)
    ensures Decode(s).Some? <==> Wellformed(s)
  {
    if |s| == 4 {
      GroupsWellformed(s);
      assert s[..4] == s && s[4..] == "";
    } else if |s| > 4 {
      GroupsWellformed(s[..4]);
      DecodesExactly(s[4..]);
      if |s| % 4 == 0 {
        WellformedSplits(s);
      }
    }
  }

  lemma KnownGroups()
    ensures Group([0x66, 0x6f, 0x6f]) == "Zm9v" && Group([0x62]) == "Yg==" && Group([0x62, 0x61, 0x72]) == "YmFy"
    ensures Group([0xfb, 0xff]) == "+/8="
  {
  }

  /** Two of the test vectors of section 10, and the last two symbols. */
  lemma KnownTexts()
    ensures Encode([0x66, 0x6f, 0x6f, 0x62]) == "Zm9vYg=="
    ensures Encode([0x66, 0x6f, 0x6f, 0x62, 0x61, 0x72]) == "Zm9vYmFy"
    ensures Encode([0xfb, 0xff]) == "+/8="
  {
    KnownGroups();
    var foob: seq<byte>, foobar: seq<byte> := [0x66, 0x6f, 0x6f, 0x62], [0x66, 0x6f, 0x6f, 0x62, 0x61, 0x72];
    assert foob[..3] == [0x66, 0x6f, 0x6f] && foob[3..] == [0x62];
    assert foobar[..3] == [0x66, 0x6f, 0x6f] && foobar[3..] == [0x62, 0x61, 0x72];
  }
}
