/** The byte stream `buildSong` hands to the audio element: a fixed base64
    text for the first 39 bytes of a PCM WAVE header (Microsoft RIFF WAVE
    format, "WAVE Form Definition" of the Multimedia Programming Interface
    and Data Specifications 1.0), followed by `btoa` of the string
    `"a"` + the four length characters + the raw samples. */
module Wav {
  import opened JsNumbers
  import opened Base64

  /** A string literal as JavaScript code units (used for ASCII text only,
      where each character is one code unit). */
  function Text(s: string): (t: seq<CodeUnit>)
    ensures |t| == |s|
  {
    seq(|s|, i requires 0 <= i < |s| => (s[i] as int) % 0x1_0000)
  }

  // The chunk identifiers, in ASCII.
  const RiffTag: seq<Byte> := [0x52, 0x49, 0x46, 0x46]   // "RIFF"
  const WaveTag: seq<Byte> := [0x57, 0x41, 0x56, 0x45]   // "WAVE"
  const FmtTag: seq<Byte> := [0x66, 0x6D, 0x74, 0x20]    // "fmt "
  const DataTag: seq<Byte> := [0x64, 0x61, 0x74, 0x61]   // "data"

  /** A 16-bit little-endian field. */
  function Le16(n: int): seq<Byte>
  {
    [n % 0x100, n / 0x100 % 0x100]
  }

  /** A 32-bit little-endian field. */
  function Le32(n: int): seq<Byte>
  {
    var q1 := n / 0x100;
    var q2 := q1 / 0x100;
    var q3 := q2 / 0x100;
    [n % 0x100, q1 % 0x100, q2 % 0x100, q3 % 0x100]
  }

  function ReadLe16(b: seq<Byte>, at: nat): int
    requires at + 2 <= |b|
  {
    b[at] as int + 0x100 * (b[at + 1] as int)
  }

  function ReadLe32(b: seq<Byte>, at: nat): int
    requires at + 4 <= |b|
  {
    b[at] as int + 0x100 * (b[at + 1] as int) + 0x1_0000 * (b[at + 2] as int) + 0x100_0000 * (b[at + 3] as int)
  }

  /** Reading back a 32-bit field gives its value. */
  lemma Le32RoundTrip(n: int)
    requires 0 <= n < TwoTo32
    ensures ReadLe32(Le32(n), 0) == n
  {
    var q1 := n / 0x100;
    var q2 := q1 / 0x100;
    var q3 := q2 / 0x100;
    assert n == n % 0x100 + 0x100 * q1;
    assert q1 == q1 % 0x100 + 0x100 * q2;
    assert q2 == q2 % 0x100 + 0x100 * q3;
    assert q3 < 0x100;
  }

  /** The RIFF size the source writes: that of a one-second clip (44100
      samples + 36), whatever the length of the data. */
  const RiffSize: int := 44136
  const SampleRate: int := 44100

  /** The 24-byte format chunk of 8-bit mono PCM at 44100 samples per
      second. */
  function FormatChunk(): (f: seq<Byte>)
    ensures |f| == 24
  {
    FmtTag + Le32(16)     // chunk size
    + Le16(1)             // format: PCM
    + Le16(1)             // channels
    + Le32(SampleRate)    // samples per second
    + Le32(SampleRate)    // bytes per second
    + Le16(1)             // block align
    + Le16(8)             // bits per sample
  }

  /** The canonical 44-byte header of a PCM WAVE file. */
  function Header(riffSize: int, dataSize: int): (h: seq<Byte>)
    ensures |h| == 44
  {
    RiffTag + Le32(riffSize) + WaveTag + FormatChunk() + DataTag + Le32(dataSize)
  }

  /** The first 39 bytes of the header the source writes: everything up to
      and including `"dat"`, a whole number of base64 groups. */
  function Prefix(): (p: seq<Byte>)
    ensures |p| == 39
  {
    RiffTag + Le32(RiffSize) + WaveTag + FormatChunk() + DataTag[..3]
  }

  /** The literal base64 text at the head of the data URI, written here in
      four pieces: the RIFF header, the start of the format chunk, its rates
      and sizes, and `"dat"`. */
  const PrefixBase64: seq<CodeUnit> :=
    Text("UklGRmisAABXQVZF" + "Zm10IBAAAAABAAEA" + "RKwAAESsAAABAAgA" + "ZGF0")

  /** The literal is exactly the base64 encoding of the header prefix. */
  lemma PrefixBase64IsHeader()
    ensures Encode(Prefix()) == PrefixBase64
  {
    var riff: seq<Byte> := [82, 73, 70, 70, 104, 172, 0, 0, 87, 65, 86, 69];
    var fmt: seq<Byte> := [102, 109, 116, 32, 16, 0, 0, 0, 1, 0, 1, 0];
    var rate: seq<Byte> := [68, 172, 0, 0, 68, 172, 0, 0, 1, 0, 8, 0];
    var dat: seq<Byte> := [100, 97, 116];
    PrefixChunks(riff, fmt, rate, dat);
    EncodeAppend(riff, fmt + (rate + dat));
    EncodeAppend(fmt, rate + dat);
    EncodeAppend(rate, dat);
    EncodeRiff(riff);
    EncodeFmt(fmt);
    EncodeRate(rate);
    EncodeDat(dat);
    PrefixBase64Split();
  }

  lemma PrefixChunks(riff: seq<Byte>, fmt: seq<Byte>, rate: seq<Byte>, dat: seq<Byte>)
    requires riff == [82, 73, 70, 70, 104, 172, 0, 0, 87, 65, 86, 69]
    requires fmt == [102, 109, 116, 32, 16, 0, 0, 0, 1, 0, 1, 0]
    requires rate == [68, 172, 0, 0, 68, 172, 0, 0, 1, 0, 8, 0]
    requires dat == [100, 97, 116]
    ensures Prefix() == riff + (fmt + (rate + dat))
  {
    RiffBytes(riff);
    FormatChunkBytes(fmt, rate);
    assert DataTag[..3] == dat;
    assert Prefix() == (riff + (fmt + rate)) + dat;
    Associative(riff, fmt + rate, dat);
    Associative(fmt, rate, dat);
  }

  lemma RiffBytes(riff: seq<Byte>)
    requires riff == [82, 73, 70, 70, 104, 172, 0, 0, 87, 65, 86, 69]
    ensures RiffTag + Le32(RiffSize) + WaveTag == riff
  {
    assert Le32(RiffSize) == [104, 172, 0, 0];
  }

  lemma PrefixBase64Split()
    ensures PrefixBase64 == Text("UklGRmisAABXQVZF") + (Text("Zm10IBAAAAABAAEA") + (Text("RKwAAESsAAABAAgA") + Text("ZGF0")))
  {
    var a, b, c, d := Text("UklGRmisAABXQVZF"), Text("Zm10IBAAAAABAAEA"), Text("RKwAAESsAAABAAgA"), Text("ZGF0");
    FourTexts("UklGRmisAABXQVZF", "Zm10IBAAAAABAAEA", "RKwAAESsAAABAAgA", "ZGF0");
    Associative(a + b, c, d);
    Associative(a, b, c + d);
  }

  /** `Text` of a concatenation is the concatenation of the texts. */
  lemma TextAppend(a: string, b: string)
    ensures Text(a + b) == Text(a) + Text(b)
  {
  }

  /** One group of three octets, encoded. */
  lemma EncodeGroup(a: Byte, b: Byte, c: Byte, i0: nat, i1: nat, i2: nat, i3: nat, t: string)
    requires |t| == 4
    requires i0 == a / 4 && i1 == a % 4 * 16 + b / 16 && i2 == b % 16 * 4 + c / 64 && i3 == c % 64
    requires Text(t) == [Letter(i0), Letter(i1), Letter(i2), Letter(i3)]
    ensures Encode([a, b, c]) == Text(t)
  {
    var g := [a, b, c];
    assert g[3..] == [] && Encode(g[3..]) == [];
    EncodeStep(g);
    assert Quad(a, b, c) + [] == Text(t);
  }

  /** Four groups of three octets, encoded one after the other. */
  lemma EncodeFour(a: seq<Byte>, b: seq<Byte>, c: seq<Byte>, d: seq<Byte>)
    requires |a| == |b| == |c| == 3
    ensures Encode(a + b + c + d) == Encode(a) + Encode(b) + Encode(c) + Encode(d)
  {
    assert a + b + c + d == a + (b + (c + d));
    EncodeAppend(c, d);
    EncodeAppend(b, c + d);
    assert Encode(b + (c + d)) == Encode(b) + (Encode(c) + Encode(d));
    EncodeAppend(a, b + (c + d));
    assert Encode(a + (b + (c + d))) == Encode(a) + (Encode(b) + (Encode(c) + Encode(d)));
  }

  lemma EncodeRiff(p: seq<Byte>)
    requires p == [82, 73, 70, 70, 104, 172, 0, 0, 87, 65, 86, 69]
    ensures Encode(p) == Text("UklGRmisAABXQVZF")
  {
    RiffGroups();
    WaveGroups();
    EncodeFour([82, 73, 70], [70, 104, 172], [0, 0, 87], [65, 86, 69]);
    assert p == [82, 73, 70] + [70, 104, 172] + [0, 0, 87] + [65, 86, 69];
    ChunkTexts();
  }

  lemma EncodeFmt(p: seq<Byte>)
    requires p == [102, 109, 116, 32, 16, 0, 0, 0, 1, 0, 1, 0]
    ensures Encode(p) == Text("Zm10IBAAAAABAAEA")
  {
    FmtGroups();
    SmallGroups();
    EncodeFour([102, 109, 116], [32, 16, 0], [0, 0, 1], [0, 1, 0]);
    assert p == [102, 109, 116] + [32, 16, 0] + [0, 0, 1] + [0, 1, 0];
    ChunkTexts();
  }

  lemma EncodeRate(p: seq<Byte>)
    requires p == [68, 172, 0, 0, 68, 172, 0, 0, 1, 0, 8, 0]
    ensures Encode(p) == Text("RKwAAESsAAABAAgA")
  {
    RateGroups();
    SmallGroups();
    EncodeFour([68, 172, 0], [0, 68, 172], [0, 0, 1], [0, 8, 0]);
    assert p == [68, 172, 0] + [0, 68, 172] + [0, 0, 1] + [0, 8, 0];
    ChunkTexts();
  }

  lemma EncodeDat(p: seq<Byte>)
    requires p == [100, 97, 116]
    ensures Encode(p) == Text("ZGF0")
  {
    EncodeGroup(100, 97, 116, 25, 6, 5, 52, "ZGF0");
  }

  lemma ChunkTexts()
    ensures Text("UklGRmisAABXQVZF") == Text("UklG") + Text("Rmis") + Text("AABX") + Text("QVZF")
    ensures Text("Zm10IBAAAAABAAEA") == Text("Zm10") + Text("IBAA") + Text("AAAB") + Text("AAEA")
    ensures Text("RKwAAESsAAABAAgA") == Text("RKwA") + Text("AESs") + Text("AAAB") + Text("AAgA")
  {
    assert Text("UklGRmisAABXQVZF") == Text("UklG") + Text("Rmis") + Text("AABX") + Text("QVZF") by {
      FourTexts("UklG", "Rmis", "AABX", "QVZF");
    }
    assert Text("Zm10IBAAAAABAAEA") == Text("Zm10") + Text("IBAA") + Text("AAAB") + Text("AAEA") by {
      FourTexts("Zm10", "IBAA", "AAAB", "AAEA");
    }
    FourTexts("RKwA", "AESs", "AAAB", "AAgA");
  }

  lemma FourTexts(a: string, b: string, c: string, d: string)
    ensures Text(a + b + c + d) == Text(a) + Text(b) + Text(c) + Text(d)
  {
    TextAppend(a + b + c, d);
    TextAppend(a + b, c);
    TextAppend(a, b);
  }

  lemma RiffGroups()
    ensures Encode([82, 73, 70]) == Text("UklG") && Encode([70, 104, 172]) == Text("Rmis")
  {
    EncodeGroup(82, 73, 70, 20, 36, 37, 6, "UklG");
    EncodeGroup(70, 104, 172, 17, 38, 34, 44, "Rmis");
  }

  lemma WaveGroups()
    ensures Encode([0, 0, 87]) == Text("AABX") && Encode([65, 86, 69]) == Text("QVZF")
  {
    EncodeGroup(0, 0, 87, 0, 0, 1, 23, "AABX");
    EncodeGroup(65, 86, 69, 16, 21, 25, 5, "QVZF");
  }

  lemma FmtGroups()
    ensures Encode([102, 109, 116]) == Text("Zm10") && Encode([32, 16, 0]) == Text("IBAA")
  {
    EncodeGroup(102, 109, 116, 25, 38, 53, 52, "Zm10");
    EncodeGroup(32, 16, 0, 8, 1, 0, 0, "IBAA");
  }

  lemma SmallGroups()
    ensures Encode([0, 0, 1]) == Text("AAAB") && Encode([0, 1, 0]) == Text("AAEA")
  {
    EncodeGroup(0, 0, 1, 0, 0, 0, 1, "AAAB");
    EncodeGroup(0, 1, 0, 0, 0, 4, 0, "AAEA");
  }

  lemma RateGroups()
    ensures Encode([68, 172, 0]) == Text("RKwA") && Encode([0, 68, 172]) == Text("AESs")
    ensures Encode([0, 8, 0]) == Text("AAgA")
  {
    EncodeGroup(68, 172, 0, 17, 10, 48, 0, "RKwA");
    EncodeGroup(0, 68, 172, 0, 4, 18, 44, "AESs");
    EncodeGroup(0, 8, 0, 0, 0, 32, 0, "AAgA");
  }

  /** The format chunk written out, in two halves. */
  lemma FormatChunkBytes(fmt: seq<Byte>, rate: seq<Byte>)
    requires fmt == [102, 109, 116, 32, 16, 0, 0, 0, 1, 0, 1, 0]
    requires rate == [68, 172, 0, 0, 68, 172, 0, 0, 1, 0, 8, 0]
    ensures FormatChunk() == fmt + rate
  {
    assert Le32(16) == [16, 0, 0, 0];
    assert Le32(SampleRate) == [68, 172, 0, 0];
    assert Le16(1) == [1, 0];
    assert Le16(8) == [8, 0];
  }

  /** `String.fromCharCode(raw.length >> s & 0xff)` for the shifts 0, 8, 16
      and 24: `>>` works on the ToInt32 of the length and shifts in the sign,
      `& 0xff` keeps the low eight bits. */
  function LengthChars(len: nat): (c: seq<CodeUnit>)
    ensures |c| == 4
    ensures forall i :: 0 <= i < 4 ==> c[i] < 0x100
  {
    var w := ToInt32(len);
    [w % 0x100, w / 0x100 % 0x100, w / 0x1_0000 % 0x100, w / 0x100_0000 % 0x100]
  }

  /** The four length characters are the 32-bit little-endian length. */
  lemma LengthCharsAreLe32(len: nat)
    ensures LengthChars(len) == Le32(len % TwoTo32)
  {
    var m := len % TwoTo32;
    var w := ToInt32(len);
    assert w == m || w == m - TwoTo32;
    QuotientsOfShift(m, w);
  }

  /** Shifting by 2^32 leaves every byte of the value where it was. */
  lemma QuotientsOfShift(m: int, w: int)
    requires w == m || w == m - TwoTo32
    ensures w % 0x100 == m % 0x100
    ensures w / 0x100 % 0x100 == m / 0x100 % 0x100
    ensures w / 0x1_0000 % 0x100 == m / 0x100 / 0x100 % 0x100
    ensures w / 0x100_0000 % 0x100 == m / 0x100 / 0x100 / 0x100 % 0x100
  {
    ChainedQuotients(m);
    if w != m {
      DivShift(m, 0x100_0000, 0x100);
      DivShift(m, 0x1_0000, 0x1_0000);
      DivShift(m, 0x100, 0x100_0000);
      DivShift(m / 0x100, 0x1_0000, 0x100);
      DivShift(m / 0x1_0000, 0x100, 0x100);
      DivShift(m / 0x100_0000, 1, 0x100);
    }
  }

  lemma ChainedQuotients(n: int)
    ensures n / 0x1_0000 == n / 0x100 / 0x100
    ensures n / 0x100_0000 == n / 0x100 / 0x100 / 0x100
  {
  }

  /** The string given to `btoa`: the `"a"` that completes `"data"`, the
      four length characters, then the raw samples. */
  function BtoaInput(raw: seq<CodeUnit>): (s: seq<CodeUnit>)
    ensures |s| == 5 + |raw|
    ensures s[0] == 'a' as int && s[5..] == raw
    ensures AllBytes(s) <==> AllBytes(raw)
  {
    [DataTag[3]] + LengthChars(|raw|) + raw
  }

  predicate AllBytes(s: seq<CodeUnit>)
  {
    forall i :: 0 <= i < |s| ==> s[i] < 0x100
  }

  function ToBytes(s: seq<CodeUnit>): (b: seq<Byte>)
    requires AllBytes(s)
    ensures |b| == |s|
    ensures forall i :: 0 <= i < |s| ==> b[i] == s[i]
  {
    seq(|s|, i requires 0 <= i < |s| => s[i])
  }

  /** `btoa`: fails (the host throws) on a code unit above 255. */
  function Btoa(s: seq<CodeUnit>): (r: Option<seq<CodeUnit>>)
    ensures r.Some? <==> AllBytes(s)
    ensures r.Some? ==> r.value == Encode(ToBytes(s))
  {
    if AllBytes(s) then Some(Encode(ToBytes(s))) else None
  }

  /** The WAV byte stream the data URI stands for. */
  function Stream(raw: seq<Byte>): (s: seq<Byte>)
    ensures |s| == 44 + |raw|
    ensures s[..39] == Prefix() && s[39] == 'a' as int && s[44..] == raw
    ensures s[40..44] == Le32(|raw| % TwoTo32)
  {
    Prefix() + [DataTag[3]] + Le32(|raw| % TwoTo32) + raw
  }

  const UriScheme: seq<CodeUnit> := Text("data:audio/wav;base64,")

  /** The URI `buildSong` passes to `new Audio`, or `None` when `btoa`
      would throw. */
  function DataUri(raw: seq<CodeUnit>): (r: Option<seq<CodeUnit>>)
    ensures r.Some? <==> AllBytes(raw)
    ensures r.Some? ==> |r.value| >= |UriScheme| && r.value[..|UriScheme|] == UriScheme
  {
    match Btoa(BtoaInput(raw))
    case None => None
    case Some(payload) => Some(UriScheme + PrefixBase64 + payload)
  }

  /** The stream is the canonical header, with the data size set to the
      length and the RIFF size fixed at 44136, followed by the samples. */
  lemma StreamLayout(raw: seq<Byte>)
    ensures Stream(raw) == Header(RiffSize, |raw| % TwoTo32) + raw
    ensures |Stream(raw)| == 44 + |raw|
  {
    var h := Header(RiffSize, |raw| % TwoTo32);
    assert h[..39] == Prefix();
    assert h[39..] == [97] + Le32(|raw| % TwoTo32);
    assert h == h[..39] + h[39..];
  }

  /** For every raw string of 8-bit samples `btoa` succeeds, and the URI
      carries the base64 encoding of the whole WAV stream. */
  lemma DataUriEncodesStream(raw: seq<CodeUnit>)
    requires AllBytes(raw)
    ensures DataUri(raw) == Some(UriScheme + Encode(Stream(ToBytes(raw))))
  {
    var bytes := BtoaBytes(raw);
    var len := Le32(|raw| % TwoTo32);
    assert DataUri(raw) == Some(UriScheme + PrefixBase64 + Encode(bytes));
    assert Stream(ToBytes(raw)) == Prefix() + bytes by {
      Associative(Prefix() + [DataTag[3]], len, ToBytes(raw));
      Associative(Prefix(), [DataTag[3]], len + ToBytes(raw));
      Associative([DataTag[3]], len, ToBytes(raw));
    }
    assert Encode(Prefix() + bytes) == PrefixBase64 + Encode(bytes) by {
      EncodeAppend(Prefix(), bytes);
      PrefixBase64IsHeader();
    }
    Associative(UriScheme, PrefixBase64, Encode(bytes));
  }

  /** The string handed to `btoa` is made of bytes: the last letter of the
      `data` tag, the 32-bit length and the samples. */
  lemma BtoaBytes(raw: seq<CodeUnit>) returns (bytes: seq<Byte>)
    requires AllBytes(raw)
    ensures AllBytes(BtoaInput(raw))
    ensures bytes == ToBytes(BtoaInput(raw))
    ensures bytes == [DataTag[3]] + Le32(|raw| % TwoTo32) + ToBytes(raw)
  {
    LengthCharsAreLe32(|raw|);
    var tail := BtoaInput(raw);
    assert AllBytes(tail);
    bytes := ToBytes(tail);
    assert bytes == [DataTag[3]] + Le32(|raw| % TwoTo32) + ToBytes(raw);
  }

  /** The header fields a player reads. */
  datatype Info = Info(riffSize: int, format: int, channels: int, sampleRate: int,
                       byteRate: int, blockAlign: int, bitsPerSample: int, data: seq<Byte>)

  /** Reads a canonical 44-byte PCM header and the data chunk after it. */
  function Parse(b: seq<Byte>): Option<Info>
  {
    if |b| < 44 || b[..4] != RiffTag || b[8..12] != WaveTag || b[12..16] != FmtTag
       || ReadLe32(b, 16) != 16 || b[36..40] != DataTag
    then None
    else
      var size := ReadLe32(b, 40);
      if |b| < 44 + size then None
      else Some(Info(ReadLe32(b, 4), ReadLe16(b, 20), ReadLe16(b, 22), ReadLe32(b, 24),
                     ReadLe32(b, 28), ReadLe16(b, 32), ReadLe16(b, 34), b[44..44 + size]))
  }

  /** Every field of the canonical header reads back as written. */
  lemma HeaderFields(r: int, d: int)
    requires 0 <= r < TwoTo32 && 0 <= d < TwoTo32
    ensures var h := Header(r, d);
      && h[..4] == RiffTag && h[8..12] == WaveTag && h[12..16] == FmtTag && h[36..40] == DataTag
      && ReadLe32(h, 4) == r && ReadLe32(h, 16) == 16 && ReadLe16(h, 20) == 1 && ReadLe16(h, 22) == 1
      && ReadLe32(h, 24) == SampleRate && ReadLe32(h, 28) == SampleRate && ReadLe16(h, 32) == 1
      && ReadLe16(h, 34) == 8 && ReadLe32(h, 40) == d
  {
    var h := Header(r, d);
    var f := FormatChunk();
    HeaderSlices(r, d);
    assert ReadLe32(h, 4) == r by {
      Le32RoundTrip(r);
      ReadAt32(h, 4, Le32(r));
    }
    assert ReadLe32(h, 40) == d by {
      Le32RoundTrip(d);
      ReadAt32(h, 40, Le32(d));
    }
    FormatChunkBytes([102, 109, 116, 32, 16, 0, 0, 0, 1, 0, 1, 0], [68, 172, 0, 0, 68, 172, 0, 0, 1, 0, 8, 0]);
    assert h[..16] == RiffTag + Le32(r) + WaveTag + f[..4];
    assert h[16..36] == f[4..];
  }

  /** Where each part of the header lies. */
  lemma HeaderSlices(r: int, d: int)
    ensures var h := Header(r, d);
      && h[..4] == RiffTag && h[4..8] == Le32(r) && h[8..12] == WaveTag
      && h[12..36] == FormatChunk() && h[36..40] == DataTag && h[40..] == Le32(d)
  {
  }

  /** A 32-bit field read in place is the field read from its own bytes. */
  lemma ReadAt32(b: seq<Byte>, at: nat, f: seq<Byte>)
    requires at + 4 <= |b| && b[at..at + 4] == f
    ensures ReadLe32(b, at) == ReadLe32(f, 0)
  {
    assert b[at] == f[0] && b[at + 1] == f[1] && b[at + 2] == f[2] && b[at + 3] == f[3];
  }

  /** Parsing the stream back gives PCM, mono, 44100 Hz, 8 bits and exactly
      the samples, for every length below 2^32. */
  lemma ParseStream(raw: seq<Byte>)
    requires |raw| < TwoTo32
    ensures Parse(Stream(raw)) == Some(Info(RiffSize, 1, 1, SampleRate, SampleRate, 1, 8, raw))
  {
    var h := Header(RiffSize, |raw|);
    assert Stream(raw) == h + raw by {
      StreamLayout(raw);
    }
    assert Parse(h + raw) == Some(Info(RiffSize, 1, 1, SampleRate, SampleRate, 1, 8, raw)) by {
      HeaderFields(RiffSize, |raw|);
      ParseAfterHeader(h, raw);
    }
  }

  /** Parsing a header followed by its data reads every field from the
      header and the data from what follows it. */
  lemma ParseAfterHeader(h: seq<Byte>, raw: seq<Byte>)
    requires |h| == 44 && h[..4] == RiffTag && h[8..12] == WaveTag && h[12..16] == FmtTag
    requires h[36..40] == DataTag && ReadLe32(h, 16) == 16 && ReadLe32(h, 40) == |raw|
    ensures Parse(h + raw) == Some(Info(ReadLe32(h, 4), ReadLe16(h, 20), ReadLe16(h, 22), ReadLe32(h, 24),
                                        ReadLe32(h, 28), ReadLe16(h, 32), ReadLe16(h, 34), raw))
  {
    var b := h + raw;
    assert b[..44] == h;
    assert b[..4] == h[..4] && b[8..12] == h[8..12] && b[12..16] == h[12..16] && b[36..40] == h[36..40];
    assert ReadLe32(b, 16) == 16 && ReadLe32(b, 40) == |raw|;
    assert ReadLe32(b, 4) == ReadLe32(h, 4) && ReadLe32(b, 24) == ReadLe32(h, 24) && ReadLe32(b, 28) == ReadLe32(h, 28);
    assert ReadLe16(b, 20) == ReadLe16(h, 20) && ReadLe16(b, 22) == ReadLe16(h, 22);
    assert ReadLe16(b, 32) == ReadLe16(h, 32) && ReadLe16(b, 34) == ReadLe16(h, 34);
    assert b[44..44 + |raw|] == raw;
  }

  /** The RIFF size field equals the data length plus 36, as the format
      defines it, only for a data length of 44100. */
  lemma RiffSizeFixed(raw: seq<Byte>)
    ensures ReadLe32(Stream(raw), 4) == RiffSize
    ensures ReadLe32(Stream(raw), 4) == |raw| + 36 <==> |raw| == 44100
  {
    StreamLayout(raw);
    assert Stream(raw)[4..8] == Le32(RiffSize);
  }
}
