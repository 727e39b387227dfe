/** Well-formed UTF-8 is what encoding Unicode scalar values yields (section 3 of RFC 3629). */
module Utf8Text {
  import opened LittleEndian
  import opened WireFormat

  type Scalar = c: nat | c < 0xD800 || 0xE000 <= c < 0x110000

  // One character, in the shortest form.
  function Char(c: Scalar): seq<Byte> {
    if c < 0x80 then [c]
    else if c < 0x800 then [0xC0 + c / 64, 0x80 + c % 64]
    else if c < 0x10000 then [0xE0 + c / 4096, 0x80 + c / 64 % 64, 0x80 + c % 64]
    else [0xF0 + c / 262144, 0x80 + c / 4096 % 64, 0x80 + c / 64 % 64, 0x80 + c % 64]
  }

  function Text(cs: seq<Scalar>): seq<Byte> {
    if cs == [] then [] else Char(cs[0]) + Text(cs[1..])
  }

  lemma CharFirst(c: Scalar, s: seq<Byte>)
    ensures Utf8(Char(c) + s) <==> Utf8(s)
  {
    var t := Char(c) + s;
    assert t[|Char(c)|..] == s;
    if c >= 0x10000 {
      FourBytes(c, t);
    } else if c >= 0x800 {
      ThreeBytes(c, t);
    }
  }

  lemma ThreeBytes(c: Scalar, t: seq<Byte>)
    requires 0x800 <= c < 0x10000 && Char(c) <= t
    ensures Utf8(t) <==> Utf8(t[3..])
  {
    assert t[0] == Char(c)[0] && t[1] == Char(c)[1] && t[2] == Char(c)[2];
    assert c / 64 == c / 4096 * 64 + c / 64 % 64;
  }

  lemma FourBytes(c: Scalar, t: seq<Byte>)
    requires 0x10000 <= c && Char(c) <= t
    ensures Utf8(t) <==> Utf8(t[4..])
  {
    assert t[0] == Char(c)[0] && t[1] == Char(c)[1] && t[2] == Char(c)[2] && t[3] == Char(c)[3];
    assert c / 4096 == c / 262144 * 64 + c / 4096 % 64;
  }

  lemma {:induction false} TextIsUtf8(cs: seq<Scalar>)
    ensures Utf8(Text(cs))
  {
    if cs != [] {
      TextIsUtf8(cs[1..]);
      CharFirst(cs[0], Text(cs[1..]));
    }
  }

  lemma Digits(a: nat, b: nat, c: nat, d: nat)
    requires b < 64 && c < 64 && d < 64
    ensures var n := a * 262144 + b * 4096 + c * 64 + d;
      n / 262144 == a && n / 4096 == a * 64 + b && n / 4096 % 64 == b && n / 64 % 64 == c && n % 64 == d
  {
  }

  // The six low bits of a byte that continues a character.
  function Low(b: Byte): (n: nat)
    requires 0x80 <= b < 0xC0
    ensures n < 64
  {
    b as int - 0x80
  }

  // The first character of a well-formed text.
  lemma FirstChar(s: seq<Byte>) returns (c: Scalar)
    requires s != [] && Utf8(s)
    ensures Char(c) <= s && Utf8(s[|Char(c)|..])
  {
    if s[0] < 0x80 {
      c := s[0];
    } else if s[0] < 0xE0 {
      var a := s[0] as int - 0xC0;
      c := a * 64 + Low(s[1]);
    } else if s[0] < 0xF0 {
      c := ThreeByteChar(s);
    } else {
      c := FourByteChar(s);
    }
    assert s[..|Char(c)|] == Char(c);
  }

  lemma ThreeByteChar(s: seq<Byte>) returns (c: Scalar)
    requires s != [] && Utf8(s) && 0xE0 <= s[0] < 0xF0
    ensures |s| >= 3 && Char(c) == [s[0], s[1], s[2]] && Utf8(s[3..])
  {
    var a := s[0] as int - 0xE0;
    Digits(0, a, Low(s[1]), Low(s[2]));
    c := a * 4096 + Low(s[1]) * 64 + Low(s[2]);
  }

  lemma FourByteChar(s: seq<Byte>) returns (c: Scalar)
    requires s != [] && Utf8(s) && 0xF0 <= s[0]
    ensures |s| >= 4 && Char(c) == [s[0], s[1], s[2], s[3]] && Utf8(s[4..])
  {
    var a := s[0] as int - 0xF0;
    Digits(a, Low(s[1]), Low(s[2]), Low(s[3]));
    c := a * 262144 + Low(s[1]) * 4096 + Low(s[2]) * 64 + Low(s[3]);
  }

  lemma CharLength(c: Scalar)
    ensures |Char(c)| > 0
  {
  }

  lemma {:induction false} Utf8IsText(s: seq<Byte>)
    requires Utf8(s)
    ensures exists cs :: Text(cs) == s
    decreases |s|
  {
    hide Utf8, Char;
    if s == [] {
      assert Text([]) == s;
    } else {
      var c := FirstChar(s);
      CharLength(c);
      var rest := s[|Char(c)|..];
      Utf8IsText(rest);
      var cs :| Text(cs) == rest;
      assert ([c] + cs)[1..] == cs;
      assert Text([c] + cs) == s;
    }
  }

  // The names a decoder accepts are exactly the texts.
  lemma Utf8IffText(s: seq<Byte>)
    ensures Utf8(s) <==> exists cs :: Text(cs) == s
  {
    if Utf8(s) {
      Utf8IsText(s);
    }
    if cs :| Text(cs) == s {
      TextIsUtf8(cs);
    }
  }
}
