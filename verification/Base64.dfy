/** Base64 as in section 4 of RFC 4648, decoded as strictly as `b64decode(..., validate=True)` does. */
module Base64 {
  import opened Common

  type Byte = n: nat | n < 256 witness 0

  type Sextet = n: nat | n < 64 witness 0

  function CharOf(x: Sextet): char {
    if x < 26 then 'A' + x as char
    else if x < 52 then 'a' + (x - 26) as char
    else if x < 62 then '0' + (x - 52) as char
    else if x == 62 then '+' else '/'
  }

  function SextetOf(c: char): Option<Sextet> {
    if 'A' <= c <= 'Z' then Some((c - 'A') as int)
    else if 'a' <= c <= 'z' then Some((c - 'a') as int + 26)
    else if '0' <= c <= '9' then Some((c - '0') as int + 52)
    else if c == '+' then Some(62)
    else if c == '/' then Some(63)
    else None
  }

  lemma CharsAndSextets(x: Sextet, c: char)
    ensures SextetOf(CharOf(x)) == Some(x) && CharOf(x) != '='
    ensures SextetOf(c) == Some(x) <==> c == CharOf(x)
  {
  }

  // ----- one group -----

  function First(a: Byte): Sextet { a / 4 }
  function Second(a: Byte, b: Byte): Sextet { a % 4 * 16 + b / 16 }
  function Third(b: Byte, c: Byte): Sextet { b % 16 * 4 + c / 64 }
  function Fourth(c: Byte): Sextet { c % 64 }

  function Byte1(w: Sextet, x: Sextet): Byte { w * 4 + x / 16 }
  function Byte2(x: Sextet, y: Sextet): Byte { x % 16 * 16 + y / 4 }
  function Byte3(y: Sextet, z: Sextet): Byte { y % 4 * 64 + z }

  lemma BytesToSextets(a: Byte, b: Byte, c: Byte)
    ensures Byte1(First(a), Second(a, b)) == a
    ensures Byte2(Second(a, b), Third(b, c)) == b
    ensures Byte3(Third(b, c), Fourth(c)) == c
  {
  }

  lemma SextetsToBytes(w: Sextet, x: Sextet, y: Sextet, z: Sextet)
    ensures First(Byte1(w, x)) == w
    ensures Second(Byte1(w, x), Byte2(x, y)) == x
    ensures Third(Byte2(x, y), Byte3(y, z)) == y
    ensures Fourth(Byte3(y, z)) == z
  {
  }

  // ----- texts -----

  function Encode(bytes: seq<Byte>): string {
    if bytes == [] then ""
    else if |bytes| == 1 then [CharOf(First(bytes[0])), CharOf(Second(bytes[0], 0)), '=', '=']
    else if |bytes| == 2 then
      [CharOf(First(bytes[0])), CharOf(Second(bytes[0], bytes[1])), CharOf(Third(bytes[1], 0)), '=']
    else
      [CharOf(First(bytes[0])), CharOf(Second(bytes[0], bytes[1])), CharOf(Third(bytes[1], bytes[2])), CharOf(Fourth(bytes[2]))]
      + Encode(bytes[3..])
  }

  function Value(s: string, i: nat): nat
    requires i < |s|
  {
    var x := SextetOf(s[i]);
    if x.Some? then x.value else 0
  }

  /** The number with these digits, most significant first. */
  function Digits(base: nat, digits: seq<nat>): nat {
    if digits == [] then 0 else Digits(base, digits[..|digits| - 1]) * base + digits[|digits| - 1]
  }

  lemma ThreeDigits(a: nat, b: nat, c: nat)
    ensures Digits(256, [a, b, c]) == (a * 256 + b) * 256 + c
  {
    assert [a, b, c][..2] == [a, b] && [a, b][..1] == [a] && [a][..0] == [];
    assert Digits(256, [a]) == a;
  }

  lemma FourDigits(w: nat, x: nat, y: nat, z: nat)
    ensures Digits(64, [w, x, y, z]) == ((w * 64 + x) * 64 + y) * 64 + z
  {
    assert [w, x, y, z][..3] == [w, x, y] && [w, x, y][..2] == [w, x] && [w, x][..1] == [w] && [w][..0] == [];
    assert Digits(64, [w]) == w;
    assert Digits(64, [w, x]) == w * 64 + x;
  }

  /** Three bytes and their four characters are the same 24 bits, most significant first, as section 4 of RFC 4648 lays them out. */
  lemma GroupsHoldTheBits(bytes: seq<Byte>)
    requires |bytes| >= 3
    ensures |Encode(bytes)| >= 4 && Encode(bytes)[4..] == Encode(bytes[3..])
    ensures Digits(64, [Value(Encode(bytes), 0), Value(Encode(bytes), 1), Value(Encode(bytes), 2), Value(Encode(bytes), 3)])
      == Digits(256, [bytes[0], bytes[1], bytes[2]])
  {
    var s := Encode(bytes);
    CharsAndSextets(First(bytes[0]), s[0]);
    CharsAndSextets(Second(bytes[0], bytes[1]), s[1]);
    CharsAndSextets(Third(bytes[1], bytes[2]), s[2]);
    CharsAndSextets(Fourth(bytes[2]), s[3]);
    FourDigits(Value(s, 0), Value(s, 1), Value(s, 2), Value(s, 3));
    ThreeDigits(bytes[0], bytes[1], bytes[2]);
  }

  /** Examples of section 10 of RFC 4648, and the last two characters of the alphabet. */
  lemma Examples()
    ensures Encode([0x66]) == "Zg==" && Encode([0x66, 0x6f]) == "Zm8=" && Encode([0x66, 0x6f, 0x6f]) == "Zm9v"
    ensures Encode([0xfb, 0xff, 0xff]) == "+///"
  {
    assert Encode([]) == "";
  }

  /** One group of four characters; only the last may be padded. */
  function DecodeGroup(s: string, last: bool): Option<seq<Byte>>
    requires |s| == 4
  {
    var w, x, y, z := SextetOf(s[0]), SextetOf(s[1]), SextetOf(s[2]), SextetOf(s[3]);
    if w.None? || x.None? then None
    else if y.Some? && z.Some? then
      Some([Byte1(w.value, x.value), Byte2(x.value, y.value), Byte3(y.value, z.value)])
    else if last && y.Some? && s[3] == '=' then Some([Byte1(w.value, x.value), Byte2(x.value, y.value)])
    else if last && s[2] == '=' && s[3] == '=' then Some([Byte1(w.value, x.value)])
    else None
  }

  /** None stands for binascii.Error. */
  function Decode(s: string): Option<seq<Byte>> {
    if s == "" then Some([])
    else if |s| < 4 then None
    else
      var group, rest := DecodeGroup(s[..4], |s| == 4), Decode(s[4..]);
      if group.None? || rest.None? then None else Some(group.value + rest.value)
  }

  /** The bits that padding leaves over are zero. */
  predicate CanonicalGroup(s: string)
    requires |s| == 4
  {
    var x, y := SextetOf(s[1]), SextetOf(s[2]);
    && (s[2] == '=' && x.Some? ==> x.value % 16 == 0)
    && (s[2] != '=' && s[3] == '=' && y.Some? ==> y.value % 4 == 0)
  }

  predicate Canonical(s: string) {
    |s| < 4 || CanonicalGroup(s[|s| - 4..])
  }

  lemma FullGroup(w: Sextet, x: Sextet, y: Sextet, z: Sextet, last: bool)
    ensures DecodeGroup([CharOf(w), CharOf(x), CharOf(y), CharOf(z)], last) == Some([Byte1(w, x), Byte2(x, y), Byte3(y, z)])
  {
    CharsAndSextets(w, '=');
    CharsAndSextets(x, '=');
    CharsAndSextets(y, '=');
    CharsAndSextets(z, '=');
    hide CharOf, SextetOf, Byte1, Byte2, Byte3;
  }

  lemma PaddedGroups(w: Sextet, x: Sextet, y: Sextet)
    ensures DecodeGroup([CharOf(w), CharOf(x), CharOf(y), '='], true) == Some([Byte1(w, x), Byte2(x, y)])
    ensures DecodeGroup([CharOf(w), CharOf(x), '=', '='], true) == Some([Byte1(w, x)])
  {
    CharsAndSextets(w, '=');
    CharsAndSextets(x, '=');
    CharsAndSextets(y, '=');
    assert SextetOf('=') == None;
    hide CharOf, SextetOf, Byte1, Byte2;
  }

  lemma {:induction false} DecodeOfEncode(bytes: seq<Byte>)
    ensures Decode(Encode(bytes)) == Some(bytes)
  {
    hide CharOf, SextetOf, First, Second, Third, Fourth, Byte1, Byte2, Byte3, DecodeGroup;
    if bytes == [] {
    } else if |bytes| == 1 {
      BytesToSextets(bytes[0], 0, 0);
      PaddedGroups(First(bytes[0]), Second(bytes[0], 0), 0);
      DecodeOneGroup(Encode(bytes));
      assert bytes == [bytes[0]];
    } else if |bytes| == 2 {
      BytesToSextets(bytes[0], bytes[1], 0);
      PaddedGroups(First(bytes[0]), Second(bytes[0], bytes[1]), Third(bytes[1], 0));
      DecodeOneGroup(Encode(bytes));
      assert bytes == [bytes[0], bytes[1]];
    } else {
      var group := [CharOf(First(bytes[0])), CharOf(Second(bytes[0], bytes[1])), CharOf(Third(bytes[1], bytes[2])),
        CharOf(Fourth(bytes[2]))];
      BytesToSextets(bytes[0], bytes[1], bytes[2]);
      FullGroup(First(bytes[0]), Second(bytes[0], bytes[1]), Third(bytes[1], bytes[2]), Fourth(bytes[2]), Encode(bytes[3..]) == "");
      DecodeOfEncode(bytes[3..]);
      DecodeJoined(group, Encode(bytes[3..]));
      assert bytes == [bytes[0], bytes[1], bytes[2]] + bytes[3..];
    }
  }

  lemma DecodeOneGroup(s: string)
    requires |s| == 4
    ensures Decode(s) == DecodeGroup(s, true)
  {
    assert s[..4] == s && s[4..] == "";
    assert DecodeGroup(s, true).Some? ==> DecodeGroup(s, true).value + [] == DecodeGroup(s, true).value;
  }

  lemma DecodeJoined(group: string, rest: string)
    requires |group| == 4
    ensures Decode(group + rest) ==
      if DecodeGroup(group, rest == "").None? || Decode(rest).None? then None
      else Some(DecodeGroup(group, rest == "").value + Decode(rest).value)
  {
    assert (group + rest)[..4] == group && (group + rest)[4..] == rest;
  }

  /** A group is reproduced by encoding what it decodes to exactly when it is canonical. */
  lemma EncodeOfGroup(s: string, last: bool)
    requires |s| == 4 && DecodeGroup(s, last).Some?
    ensures var bytes := DecodeGroup(s, last).value;
      && 1 <= |bytes| <= 3 && (!last ==> |bytes| == 3)
      && (Encode(bytes) == s <==> CanonicalGroup(s))
      && (|bytes| == 3 ==> CanonicalGroup(s))
  {
    var w, x, y, z := SextetOf(s[0]), SextetOf(s[1]), SextetOf(s[2]), SextetOf(s[3]);
    CharsAndSextets(w.value, s[0]);
    CharsAndSextets(x.value, s[1]);
    if y.Some? {
      CharsAndSextets(y.value, s[2]);
      if z.Some? {
        CharsAndSextets(z.value, s[3]);
        EncodeFull(w.value, x.value, y.value, z.value, s);
      } else {
        EncodePadded2(w.value, x.value, y.value, s);
      }
    } else {
      EncodePadded1(w.value, x.value, s);
    }
  }

  lemma EncodeFull(w: Sextet, x: Sextet, y: Sextet, z: Sextet, s: string)
    requires s == [CharOf(w), CharOf(x), CharOf(y), CharOf(z)]
    ensures Encode([Byte1(w, x), Byte2(x, y), Byte3(y, z)]) == s && CanonicalGroup(s)
  {
    SextetsToBytes(w, x, y, z);
    CharsAndSextets(y, '=');
    CharsAndSextets(z, '=');
    hide CharOf, SextetOf, First, Second, Third, Fourth, Byte1, Byte2, Byte3;
    var bytes := [Byte1(w, x), Byte2(x, y), Byte3(y, z)];
    assert bytes[3..] == [] && Encode([]) == "";
  }

  lemma EncodePadded2(w: Sextet, x: Sextet, y: Sextet, s: string)
    requires s == [CharOf(w), CharOf(x), CharOf(y), '=']
    ensures Encode([Byte1(w, x), Byte2(x, y)]) == s <==> CanonicalGroup(s)
  {
    SextetsToBytes(w, x, y, 0);
    SecondByte(x, y);
    CharsAndSextets(y, '=');
    CharsAndSextets(y, CharOf(Third(Byte2(x, y), 0)));
    CharsAndSextets(Third(Byte2(x, y), 0), '=');
    hide CharOf, SextetOf, First, Second, Third, Byte1, Byte2;
    assert Encode([Byte1(w, x), Byte2(x, y)]) == [CharOf(w), CharOf(x), CharOf(Third(Byte2(x, y), 0)), '='];
  }

  lemma EncodePadded1(w: Sextet, x: Sextet, s: string)
    requires s == [CharOf(w), CharOf(x), '=', '=']
    ensures Encode([Byte1(w, x)]) == s <==> CanonicalGroup(s)
  {
    SextetsToBytes(w, x, 0, 0);
    LastByte(w, x);
    CharsAndSextets(x, CharOf(Second(Byte1(w, x), 0)));
    CharsAndSextets(Second(Byte1(w, x), 0), '=');
    CharsAndSextets(x, '=');
    hide CharOf, First, Second, Byte1;
    assert Encode([Byte1(w, x)]) == [CharOf(w), CharOf(Second(Byte1(w, x), 0)), '=', '='];
  }

  lemma SecondByte(x: Sextet, y: Sextet)
    ensures Third(Byte2(x, y), 0) == y <==> y % 4 == 0
  {
  }

  lemma LastByte(w: Sextet, x: Sextet)
    ensures Second(Byte1(w, x), 0) == x <==> x % 16 == 0
  {
    var q := x / 16;
    assert q < 4 && x == q * 16 + x % 16;
    assert (w * 4 + q) % 4 == q;
  }

  /** Re-encoding the decoded bytes gives the same text back if and only if the text was canonical. */
  lemma {:induction false} EncodeOfDecode(s: string)
    requires Decode(s).Some?
    ensures Encode(Decode(s).value) == s <==> Canonical(s)
  {
    if s != "" {
      var group, rest := DecodeGroup(s[..4], |s| == 4).value, Decode(s[4..]).value;
      EncodeOfGroup(s[..4], |s| == 4);
      assert s == s[..4] + s[4..];
      if |s| == 4 {
        assert s[..4] == s && s[|s| - 4..] == s;
        assert group + rest == group;
      } else {
        EncodeOfDecode(s[4..]);
        assert (group + rest)[3..] == rest;
        assert Encode(group + rest) == Encode(group) + Encode(rest);
        assert Canonical(s) <==> Canonical(s[4..]) by {
          assert |s[4..]| >= 4;
          assert s[4..][|s[4..]| - 4..] == s[|s| - 4..];
        }
      }
    }
  }
}
