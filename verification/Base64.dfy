/** The base64 encoding of section 4 of RFC 4648, as `btoa` applies it to
    a string of code units below 256. The encoded text is itself a string
    of code units. */
module Base64 {
  import opened JsNumbers

  /** The code unit of base64 letter `i` (Table 1 of RFC 4648):
      `A`-`Z`, `a`-`z`, `0`-`9`, `+`, `/`. */
  function Letter(i: int): CodeUnit
    requires 0 <= i < 64
  {
    if i < 26 then 'A' as int + i
    else if i < 52 then 'a' as int + (i - 26)
    else if i < 62 then '0' as int + (i - 52)
    else if i == 62 then '+' as int
    else '/' as int
  }

  /** The pad character `=`. */
  const Pad: CodeUnit := '=' as int

  /** Each group of three octets becomes four letters; a final group of one
      or two octets is padded with `=` to four characters. */
  function Encode(b: seq<Byte>): (s: seq<CodeUnit>)
    ensures |s| == (|b| + 2) / 3 * 4
    decreases |b|
  {
    if |b| < 3 then Last(b) else Quad(b[0], b[1], b[2]) + Encode(b[3..])
  }

  /** The padded encoding of the final zero, one or two octets. */
  function Last(b: seq<Byte>): (s: seq<CodeUnit>)
    requires |b| < 3
    ensures |s| == (|b| + 2) / 3 * 4
  {
    if |b| == 0 then []
    else if |b| == 1 then [Letter(b[0] / 4), Letter(b[0] % 4 * 16), Pad, Pad]
    else [Letter(b[0] / 4), Letter(b[0] % 4 * 16 + b[1] / 16), Letter(b[1] % 16 * 4), Pad]
  }

  /** The four letters of a full group of three octets. */
  function Quad(x: Byte, y: Byte, z: Byte): (s: seq<CodeUnit>)
    ensures |s| == 4
  {
    [Letter(x / 4), Letter(x % 4 * 16 + y / 16), Letter(y % 16 * 4 + z / 64), Letter(z % 64)]
  }

  /** Encoding a whole number of groups and then the rest gives the same
      text as encoding everything at once: no padding is emitted between. */
  lemma {:induction false} EncodeAppend(p: seq<Byte>, q: seq<Byte>)
    requires |p| % 3 == 0
    ensures Encode(p + q) == Encode(p) + Encode(q)
    decreases |p|
  {
    if |p| == 0 {
      assert p + q == q;
    } else {
      EncodeAppend(p[3..], q);
      AppendGroup(p, q);
    }
  }

  /** One step of `EncodeAppend`: the first group of `p + q` is the first
      group of `p`. */
  lemma AppendGroup(p: seq<Byte>, q: seq<Byte>)
    requires |p| >= 3
    requires Encode(p[3..] + q) == Encode(p[3..]) + Encode(q)
    ensures Encode(p + q) == Encode(p) + Encode(q)
  {
    var pq := p + q;
    var g := Quad(p[0], p[1], p[2]);
    assert Encode(pq) == g + Encode(p[3..] + q) by {
      EncodeStep(pq);
      assert pq[3..] == p[3..] + q;
      assert pq[0] == p[0] && pq[1] == p[1] && pq[2] == p[2];
    }
    assert Encode(p) == g + Encode(p[3..]) by {
      EncodeStep(p);
    }
    Associative(g, Encode(p[3..]), Encode(q));
  }

  lemma Associative<T>(a: seq<T>, b: seq<T>, c: seq<T>)
    ensures a + (b + c) == (a + b) + c
  {
  }

  /** A text of three octets or more starts with the letters of its first group. */
  lemma EncodeStep(b: seq<Byte>)
    requires |b| >= 3
    ensures Encode(b) == Quad(b[0], b[1], b[2]) + Encode(b[3..])
  {
  }

  /** The value of a base64 letter, or `None` for any other code unit. */
  function Index(c: CodeUnit): Option<int>
  {
    if 'A' as int <= c <= 'Z' as int then Some(c - 'A' as int)
    else if 'a' as int <= c <= 'z' as int then Some(c - 'a' as int + 26)
    else if '0' as int <= c <= '9' as int then Some(c - '0' as int + 52)
    else if c == '+' as int then Some(62)
    else if c == '/' as int then Some(63)
    else None
  }

  /** Every letter reads back as its value and differs from the pad. */
  lemma IndexOfLetter(i: int)
    requires 0 <= i < 64
    ensures Index(Letter(i)) == Some(i)
    ensures Letter(i) != Pad
  {
  }

  predicate Letters(s: seq<CodeUnit>)
  {
    forall k :: 0 <= k < |s| ==> Index(s[k]).Some?
  }

  /** Decodes text made of groups of four characters, the last of which may
      end in one or two pads; `None` for anything else. */
  function Decode(s: seq<CodeUnit>): (r: Option<seq<Byte>>)
    decreases |s|
  {
    if |s| == 0 then Some([])
    else if |s| < 4 || !Letters(s[..2]) then None
    else
      var i0 := Index(s[0]).value;
      var i1 := Index(s[1]).value;
      if |s| == 4 && s[2] == Pad && s[3] == Pad then
        Some([i0 * 4 + i1 / 16])
      else if |s| == 4 && Index(s[2]).Some? && s[3] == Pad then
        var i2 := Index(s[2]).value;
        Some([i0 * 4 + i1 / 16, i1 % 16 * 16 + i2 / 4])
      else if !Letters(s[..4]) then None
      else
        var i2 := Index(s[2]).value;
        var i3 := Index(s[3]).value;
        Prepend([i0 * 4 + i1 / 16, i1 % 16 * 16 + i2 / 4, i2 % 4 * 64 + i3], Decode(s[4..]))
  }

  /** The octets of one group in front of those of the rest, if the rest
      decodes. */
  function Prepend(g: seq<Byte>, rest: Option<seq<Byte>>): (r: Option<seq<Byte>>)
    ensures r.Some? <==> rest.Some?
    ensures r.Some? ==> r.value == g + rest.value
  {
    match rest
    case None => None
    case Some(t) => Some(g + t)
  }

  lemma DecodeOneLetters(i0: int, i1: int)
    requires 0 <= i0 < 64 && 0 <= i1 < 64
    ensures Decode([Letter(i0), Letter(i1), Pad, Pad]) == Some([i0 * 4 + i1 / 16])
  {
    IndexOfLetter(i0);
    IndexOfLetter(i1);
    DecodeLastOne(Letter(i0), Letter(i1));
  }

  lemma DecodeTwoLetters(i0: int, i1: int, i2: int)
    requires 0 <= i0 < 64 && 0 <= i1 < 64 && 0 <= i2 < 64
    ensures Decode([Letter(i0), Letter(i1), Letter(i2), Pad]) == Some([i0 * 4 + i1 / 16, i1 % 16 * 16 + i2 / 4])
  {
    IndexOfLetter(i0);
    IndexOfLetter(i1);
    IndexOfLetter(i2);
    DecodeLastTwo(Letter(i0), Letter(i1), Letter(i2));
  }

  lemma DecodeLetters(i0: int, i1: int, i2: int, i3: int, rest: seq<CodeUnit>)
    requires 0 <= i0 < 64 && 0 <= i1 < 64 && 0 <= i2 < 64 && 0 <= i3 < 64
    ensures Decode([Letter(i0), Letter(i1), Letter(i2), Letter(i3)] + rest) ==
      Prepend([i0 * 4 + i1 / 16, i1 % 16 * 16 + i2 / 4, i2 % 4 * 64 + i3], Decode(rest))
  {
    IndexOfLetter(i0);
    IndexOfLetter(i1);
    IndexOfLetter(i2);
    IndexOfLetter(i3);
    DecodeFull(Letter(i0), Letter(i1), Letter(i2), Letter(i3), rest);
  }

  lemma DecodeLastOne(c0: CodeUnit, c1: CodeUnit)
    requires Index(c0).Some? && Index(c1).Some?
    ensures Decode([c0, c1, Pad, Pad]) == Some([Index(c0).value * 4 + Index(c1).value / 16])
  {
    var s := [c0, c1, Pad, Pad];
    assert Letters(s[..2]);
  }

  lemma DecodeLastTwo(c0: CodeUnit, c1: CodeUnit, c2: CodeUnit)
    requires Index(c0).Some? && Index(c1).Some? && Index(c2).Some?
    ensures Decode([c0, c1, c2, Pad]) ==
      Some([Index(c0).value * 4 + Index(c1).value / 16, Index(c1).value % 16 * 16 + Index(c2).value / 4])
  {
    var s := [c0, c1, c2, Pad];
    assert Letters(s[..2]);
  }

  lemma DecodeFull(c0: CodeUnit, c1: CodeUnit, c2: CodeUnit, c3: CodeUnit, rest: seq<CodeUnit>)
    requires Index(c0).Some? && Index(c1).Some? && Index(c2).Some? && Index(c3).Some?
    ensures var i0, i1, i2, i3 := Index(c0).value, Index(c1).value, Index(c2).value, Index(c3).value;
      Decode([c0, c1, c2, c3] + rest) ==
        Prepend([i0 * 4 + i1 / 16, i1 % 16 * 16 + i2 / 4, i2 % 4 * 64 + i3], Decode(rest))
  {
    var s := [c0, c1, c2, c3] + rest;
    assert Letters(s[..2]) && Letters(s[..4]);
    assert s[4..] == rest;
  }

  /** The arithmetic of one group: the four six-bit values put back
      together give the octets. */
  lemma OctetsList(x: Byte, y: Byte, z: Byte)
    ensures var i0, i1, i2, i3 := x / 4, x % 4 * 16 + y / 16, y % 16 * 4 + z / 64, z % 64;
      && [i0 * 4 + i1 / 16, i1 % 16 * 16 + i2 / 4, i2 % 4 * 64 + i3] == [x, y, z]
      && [i0 * 4 + i1 / 16, i1 % 16 * 16 + (y % 16 * 4) / 4] == [x, y]
  {
  }

  lemma DecodeQuad(x: Byte, y: Byte, z: Byte, rest: seq<CodeUnit>)
    ensures Decode(Quad(x, y, z) + rest) ==
      Prepend([x, y, z], Decode(rest))
  {
    var i0, i1, i2, i3 := x / 4, x % 4 * 16 + y / 16, y % 16 * 4 + z / 64, z % 64;
    assert Quad(x, y, z) == [Letter(i0), Letter(i1), Letter(i2), Letter(i3)];
    DecodeLetters(i0, i1, i2, i3, rest);
    assert [i0 * 4 + i1 / 16, i1 % 16 * 16 + i2 / 4, i2 % 4 * 64 + i3] == [x, y, z] by {
      OctetsList(x, y, z);
    }
  }

  lemma DecodeSingle(x: Byte)
    ensures Decode([Letter(x / 4), Letter(x % 4 * 16), Pad, Pad]) == Some([x])
  {
    DecodeOneLetters(x / 4, x % 4 * 16);
  }

  lemma DecodePair(x: Byte, y: Byte)
    ensures Decode([Letter(x / 4), Letter(x % 4 * 16 + y / 16), Letter(y % 16 * 4), Pad]) == Some([x, y])
  {
    DecodeTwoLetters(x / 4, x % 4 * 16 + y / 16, y % 16 * 4);
    OctetsList(x, y, 0);
  }

  lemma {:induction false} DecodeEncode(b: seq<Byte>)
    ensures Decode(Encode(b)) == Some(b)
    decreases |b|
  {
    if |b| == 1 {
      DecodeSingle(b[0]);
      assert [b[0]] == b;
    } else if |b| == 2 {
      DecodePair(b[0], b[1]);
      assert [b[0], b[1]] == b;
    } else if |b| >= 3 {
      DecodeEncode(b[3..]);
      DecodeQuad(b[0], b[1], b[2], Encode(b[3..]));
      assert [b[0], b[1], b[2]] + b[3..] == b;
    }
  }
}
