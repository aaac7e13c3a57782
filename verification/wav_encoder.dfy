/** The canonical 44-byte RIFF/WAVE header of an uncompressed PCM file, as
    `createWavHeader` builds it through a DataView, together with a decoder for
    its little-endian fields. */
module WavEncoder {
  import opened Wrappers
  import opened Bytes

  /** Size in bytes of the header (the `new ArrayBuffer(44)`). */
  const HeaderSize: nat := 44

  /** The four inputs of `createWavHeader`. */
  datatype HeaderParams = HeaderParams(sampleRate: nat, channels: nat, bitDepth: nat, dataSize: nat)

  /** sampleRate * channels * (bitDepth / 8), truncated as a 32-bit store truncates a
      fractional value. */
  function ByteRate(p: HeaderParams): nat {
    p.sampleRate * p.channels * p.bitDepth / 8
  }

  /** channels * (bitDepth / 8), truncated in the same way. */
  function BlockAlign(p: HeaderParams): nat {
    p.channels * p.bitDepth / 8
  }

  /** `writeString`: stores each character code of `str` as one byte at `offset + i`. */
  function WriteString(buf: seq<Byte>, offset: nat, str: string): (r: seq<Byte>)
    requires offset + |str| <= |buf|
    ensures |r| == |buf|
    ensures r[offset..offset + |str|] == CharCodes(str)
    ensures forall i :: 0 <= i < |buf| && !(offset <= i < offset + |str|) ==> r[i] == buf[i]
  {
    Overwrite(buf, offset, CharCodes(str))
  }

  /** `view.setUint32` / `view.setUint16` in little-endian order: the value reduced
      modulo 2^(8*width), least significant byte first. */
  function SetUint(buf: seq<Byte>, offset: nat, width: nat, value: nat): (r: seq<Byte>)
    requires offset + width <= |buf|
    ensures |r| == |buf|
    ensures DecodeLE(r[offset..offset + width]) == value % Pow256(width)
    ensures forall i :: 0 <= i < |buf| && !(offset <= i < offset + width) ==> r[i] == buf[i]
  {
    DecodeEncode(value, width);
    Overwrite(buf, offset, EncodeLE(value, width))
  }

  /** `createWavHeader`: the fields stored one by one into a zeroed 44-byte buffer,
      the RIFF descriptor first, then the format chunk, then the rates and the data
      chunk header. */
  function CreateWavHeader(p: HeaderParams): (h: seq<Byte>)
    ensures |h| == HeaderSize
  {
    WriteRates(WriteFormat(WriteDescriptor(p), p), p)
  }

  /** The stores of bytes 0 to 16: the RIFF tag and size, the WAVE tag, the fmt tag. */
  function WriteDescriptor(p: HeaderParams): (b4: seq<Byte>)
    ensures |b4| == HeaderSize
  {
    var b0 := Zeros(HeaderSize);
    var b1 := WriteString(b0, 0, "RIFF");
    var b2 := SetUint(b1, 4, 4, 36 + p.dataSize);
    var b3 := WriteString(b2, 8, "WAVE");
    WriteString(b3, 12, "fmt ")
  }

  /** The stores of bytes 16 to 28: format chunk size, PCM tag, channels, sample rate. */
  function WriteFormat(b4: seq<Byte>, p: HeaderParams): (b8: seq<Byte>)
    requires |b4| == HeaderSize
    ensures |b8| == HeaderSize
  {
    var b5 := SetUint(b4, 16, 4, 16);
    var b6 := SetUint(b5, 20, 2, 1);
    var b7 := SetUint(b6, 22, 2, p.channels);
    SetUint(b7, 24, 4, p.sampleRate)
  }

  /** The stores of bytes 28 to 44: byte rate, block align, bit depth, data tag and size. */
  function WriteRates(b8: seq<Byte>, p: HeaderParams): (h: seq<Byte>)
    requires |b8| == HeaderSize
    ensures |h| == HeaderSize
  {
    var b9 := SetUint(b8, 28, 4, ByteRate(p));
    var b10 := SetUint(b9, 32, 2, BlockAlign(p));
    var b11 := SetUint(b10, 34, 2, p.bitDepth);
    var b12 := WriteString(b11, 36, "data");
    SetUint(b12, 40, 4, p.dataSize)
  }

  /** The header as a concatenation of its fields in file order, an independent
      description of the canonical layout: the RIFF descriptor (bytes 0 to 16), the
      format fields (16 to 28), the rates and the data chunk header (28 to 44). */
  function Layout(p: HeaderParams): (h: seq<Byte>)
    ensures |h| == HeaderSize
  {
    DescriptorLayout(p) + FormatLayout(p) + RatesLayout(p)
  }

  function DescriptorLayout(p: HeaderParams): (d: seq<Byte>)
    ensures |d| == 16
  {
    CharCodes("RIFF") + EncodeLE(36 + p.dataSize, 4) + CharCodes("WAVE") + CharCodes("fmt ")
  }

  function FormatLayout(p: HeaderParams): (f: seq<Byte>)
    ensures |f| == 12
  {
    EncodeLE(16, 4) + EncodeLE(1, 2) + EncodeLE(p.channels, 2) + EncodeLE(p.sampleRate, 4)
  }

  function RatesLayout(p: HeaderParams): (r: seq<Byte>)
    ensures |r| == 16
  {
    EncodeLE(ByteRate(p), 4) + EncodeLE(BlockAlign(p), 2) + EncodeLE(p.bitDepth, 2)
    + CharCodes("data") + EncodeLE(p.dataSize, 4)
  }

  /** The numeric fields of a header, as a little-endian reader sees them. */
  datatype HeaderFields = HeaderFields(
    riffSize: nat, fmtSize: nat, audioFormat: nat, channels: nat, sampleRate: nat,
    byteRate: nat, blockAlign: nat, bitDepth: nat, dataSize: nat)

  /** Reads a 44-byte header whose four chunk tags are in place; None otherwise. */
  function ParseHeader(h: seq<Byte>): (r: Option<HeaderFields>)
    ensures r.Some? <==>
      && |h| == HeaderSize
      && h[0..4] == CharCodes("RIFF") && h[8..12] == CharCodes("WAVE")
      && h[12..16] == CharCodes("fmt ") && h[36..40] == CharCodes("data")
  {
    if |h| != HeaderSize then None
    else if h[0..4] != CharCodes("RIFF") || h[8..12] != CharCodes("WAVE")
      || h[12..16] != CharCodes("fmt ") || h[36..40] != CharCodes("data") then None
    else Some(HeaderFields(
      DecodeLE(h[4..8]), DecodeLE(h[16..20]), DecodeLE(h[20..22]), DecodeLE(h[22..24]),
      DecodeLE(h[24..28]), DecodeLE(h[28..32]), DecodeLE(h[32..34]), DecodeLE(h[34..36]),
      DecodeLE(h[40..44])))
  }

  /** The field values the encoder promises for p: each derived value reduced to the
      width of its field. */
  function ExpectedFields(p: HeaderParams): HeaderFields {
    HeaderFields(
      (36 + p.dataSize) % Pow256(4), 16, 1, p.channels % Pow256(2), p.sampleRate % Pow256(4),
      ByteRate(p) % Pow256(4), BlockAlign(p) % Pow256(2), p.bitDepth % Pow256(2),
      p.dataSize % Pow256(4))
  }

  /** The parameters a decoded header carries. */
  function ParamsOf(f: HeaderFields): HeaderParams {
    HeaderParams(f.sampleRate, f.channels, f.bitDepth, f.dataSize)
  }

  /** Every input of `createWavHeader` fits its field without wrapping. */
  predicate Fits(p: HeaderParams) {
    && p.sampleRate < Pow256(4) && p.channels < Pow256(2)
    && p.bitDepth < Pow256(2) && p.dataSize < Pow256(4)
  }

  /** The store-by-store encoder produces exactly the canonical field layout. */
  lemma CreateWavHeaderIsLayout(p: HeaderParams)
    ensures CreateWavHeader(p) == Layout(p)
  {
    var h, l := CreateWavHeader(p), Layout(p);
    assert forall i :: 0 <= i < HeaderSize ==> h[i] == l[i];
  }

  /** Decoding the header of p yields each field as the encoder stores it: the four
      chunk tags are in place and every numeric field reads back as its value reduced
      to the field's width. */
  lemma ParseCreateWavHeader(p: HeaderParams)
    ensures ParseHeader(CreateWavHeader(p)) == Some(ExpectedFields(p))
  {
    CreateWavHeaderIsLayout(p);
    LayoutFields(p);
    ParseFields(Layout(p), p);
  }

  /** A 44-byte buffer holding the fields of p at their offsets decodes to the fields
      the encoder promises for p. */
  lemma ParseFields(h: seq<Byte>, p: HeaderParams)
    requires |h| == HeaderSize
    requires h[0..4] == CharCodes("RIFF") && h[4..8] == EncodeLE(36 + p.dataSize, 4)
    requires h[8..12] == CharCodes("WAVE") && h[12..16] == CharCodes("fmt ")
    requires h[16..20] == EncodeLE(16, 4) && h[20..22] == EncodeLE(1, 2)
    requires h[22..24] == EncodeLE(p.channels, 2) && h[24..28] == EncodeLE(p.sampleRate, 4)
    requires h[28..32] == EncodeLE(ByteRate(p), 4) && h[32..34] == EncodeLE(BlockAlign(p), 2)
    requires h[34..36] == EncodeLE(p.bitDepth, 2) && h[36..40] == CharCodes("data")
    requires h[40..44] == EncodeLE(p.dataSize, 4)
    ensures ParseHeader(h) == Some(ExpectedFields(p))
  {
    ParseTagged(h);
    DecodeEncode(36 + p.dataSize, 4);
    DecodeEncode(16, 4);
    DecodeEncode(1, 2);
    DecodeEncode(p.channels, 2);
    DecodeEncode(p.sampleRate, 4);
    DecodeEncode(ByteRate(p), 4);
    DecodeEncode(BlockAlign(p), 2);
    DecodeEncode(p.bitDepth, 2);
    DecodeEncode(p.dataSize, 4);
  }

  /** A 44-byte buffer with its four tags in place decodes field by field. */
  lemma ParseTagged(h: seq<Byte>)
    requires |h| == HeaderSize
    requires h[0..4] == CharCodes("RIFF") && h[8..12] == CharCodes("WAVE")
    requires h[12..16] == CharCodes("fmt ") && h[36..40] == CharCodes("data")
    ensures ParseHeader(h) == Some(HeaderFields(
      DecodeLE(h[4..8]), DecodeLE(h[16..20]), DecodeLE(h[20..22]), DecodeLE(h[22..24]),
      DecodeLE(h[24..28]), DecodeLE(h[28..32]), DecodeLE(h[32..34]), DecodeLE(h[34..36]),
      DecodeLE(h[40..44])))
  {
  }

  /** Each field of the layout sits at its offset. */
  lemma LayoutFields(p: HeaderParams)
    ensures var h := Layout(p);
      && h[0..4] == CharCodes("RIFF") && h[4..8] == EncodeLE(36 + p.dataSize, 4)
      && h[8..12] == CharCodes("WAVE") && h[12..16] == CharCodes("fmt ")
      && h[16..20] == EncodeLE(16, 4) && h[20..22] == EncodeLE(1, 2)
      && h[22..24] == EncodeLE(p.channels, 2) && h[24..28] == EncodeLE(p.sampleRate, 4)
      && h[28..32] == EncodeLE(ByteRate(p), 4) && h[32..34] == EncodeLE(BlockAlign(p), 2)
      && h[34..36] == EncodeLE(p.bitDepth, 2) && h[36..40] == CharCodes("data")
      && h[40..44] == EncodeLE(p.dataSize, 4)
  {
    LayoutTags(p);
    LayoutFormat(p);
    LayoutRates(p);
  }

  /** The RIFF descriptor and the fmt tag. */
  lemma LayoutTags(p: HeaderParams)
    ensures var h := Layout(p);
      && h[0..4] == CharCodes("RIFF") && h[4..8] == EncodeLE(36 + p.dataSize, 4)
      && h[8..12] == CharCodes("WAVE") && h[12..16] == CharCodes("fmt ")
  {
    Split3(DescriptorLayout(p), FormatLayout(p), RatesLayout(p), 0);
    Split4(CharCodes("RIFF"), EncodeLE(36 + p.dataSize, 4), CharCodes("WAVE"), CharCodes("fmt "), Layout(p), 0);
  }

  /** The format chunk up to the sample rate. */
  lemma LayoutFormat(p: HeaderParams)
    ensures var h := Layout(p);
      && h[16..20] == EncodeLE(16, 4) && h[20..22] == EncodeLE(1, 2)
      && h[22..24] == EncodeLE(p.channels, 2) && h[24..28] == EncodeLE(p.sampleRate, 4)
  {
    Split3(DescriptorLayout(p), FormatLayout(p), RatesLayout(p), 16);
    Split4(EncodeLE(16, 4), EncodeLE(1, 2), EncodeLE(p.channels, 2), EncodeLE(p.sampleRate, 4), Layout(p), 16);
  }

  /** The rates and the data chunk header. */
  lemma LayoutRates(p: HeaderParams)
    ensures var h := Layout(p);
      && h[28..32] == EncodeLE(ByteRate(p), 4) && h[32..34] == EncodeLE(BlockAlign(p), 2)
      && h[34..36] == EncodeLE(p.bitDepth, 2) && h[36..40] == CharCodes("data")
      && h[40..44] == EncodeLE(p.dataSize, 4)
  {
    Split3(DescriptorLayout(p), FormatLayout(p), RatesLayout(p), 28);
    Split5(EncodeLE(ByteRate(p), 4), EncodeLE(BlockAlign(p), 2), EncodeLE(p.bitDepth, 2), CharCodes("data"),
           EncodeLE(p.dataSize, 4), Layout(p), 28);
  }

  /** Where the three parts of a concatenation sit; `at` names the part whose
      bytes are then visible in the whole. */
  lemma Split3(a: seq<Byte>, b: seq<Byte>, c: seq<Byte>, at: nat)
    ensures var s := a + b + c;
      && (at == 0 ==> forall i :: 0 <= i < |a| ==> s[i] == a[i])
      && (at == |a| ==> forall i :: 0 <= i < |b| ==> s[at + i] == b[i])
      && (at == |a| + |b| ==> forall i :: 0 <= i < |c| ==> s[at + i] == c[i])
  {
  }

  /** When `s` holds the concatenation of four pieces from `at` on, each piece is
      the slice of `s` at its offset. */
  lemma Split4(a: seq<Byte>, b: seq<Byte>, c: seq<Byte>, d: seq<Byte>, s: seq<Byte>, at: nat)
    requires at + |a + b + c + d| <= |s|
    requires forall i :: 0 <= i < |a + b + c + d| ==> s[at + i] == (a + b + c + d)[i]
    ensures s[at..at + |a|] == a
    ensures s[at + |a|..at + |a| + |b|] == b
    ensures s[at + |a| + |b|..at + |a| + |b| + |c|] == c
    ensures s[at + |a| + |b| + |c|..at + |a| + |b| + |c| + |d|] == d
  {
    var w := a + b + c + d;
    assert s[at..at + |a|] == w[..|a|];
    assert s[at + |a|..at + |a| + |b|] == w[|a|..|a| + |b|];
    assert s[at + |a| + |b|..at + |a| + |b| + |c|] == w[|a| + |b|..|a| + |b| + |c|];
    assert s[at + |a| + |b| + |c|..at + |w|] == w[|a| + |b| + |c|..];
  }

  /** When `s` holds the concatenation of five pieces from `at` on, each piece is
      the slice of `s` at its offset. */
  lemma Split5(a: seq<Byte>, b: seq<Byte>, c: seq<Byte>, d: seq<Byte>, e: seq<Byte>, s: seq<Byte>, at: nat)
    requires at + |a + b + c + d + e| <= |s|
    requires forall i :: 0 <= i < |a + b + c + d + e| ==> s[at + i] == (a + b + c + d + e)[i]
    ensures s[at..at + |a|] == a
    ensures s[at + |a|..at + |a| + |b|] == b
    ensures s[at + |a| + |b|..at + |a| + |b| + |c|] == c
    ensures s[at + |a| + |b| + |c|..at + |a| + |b| + |c| + |d|] == d
    ensures s[at + |a| + |b| + |c| + |d|..at + |a| + |b| + |c| + |d| + |e|] == e
  {
    var w := a + b + c + d + e;
    assert s[at..at + |a|] == w[..|a|];
    assert s[at + |a|..at + |a| + |b|] == w[|a|..|a| + |b|];
    assert s[at + |a| + |b|..at + |a| + |b| + |c|] == w[|a| + |b|..|a| + |b| + |c|];
    assert s[at + |a| + |b| + |c|..at + |a| + |b| + |c| + |d|] == w[|a| + |b| + |c|..|a| + |b| + |c| + |d|];
    assert s[at + |a| + |b| + |c| + |d|..at + |w|] == w[|a| + |b| + |c| + |d|..];
  }

  /** Round trip: when every input fits its field, the parameters decoded from the
      header are the ones it was built from. */
  lemma HeaderRoundTrip(p: HeaderParams)
    requires Fits(p)
    ensures ParseHeader(CreateWavHeader(p)).Some?
    ensures ParamsOf(ParseHeader(CreateWavHeader(p)).value) == p
  {
    ParseCreateWavHeader(p);
    ModBelow(p.sampleRate, Pow256(4));
    ModBelow(p.channels, Pow256(2));
    ModBelow(p.bitDepth, Pow256(2));
    ModBelow(p.dataSize, Pow256(4));
  }

  /** The converse round trip: a header whose tags are in place and whose fields are
      the ones the encoder would store for its own parameters is byte for byte the
      encoder's output. */
  lemma CreateFromParsedHeader(h: seq<Byte>, f: HeaderFields)
    requires ParseHeader(h) == Some(f)
    requires ExpectedFields(ParamsOf(f)) == f
    ensures CreateWavHeader(ParamsOf(f)) == h
  {
    var p := ParamsOf(f);
    Pow256Values();
    ModBelow(16, Pow256(4));
    ModBelow(1, Pow256(2));
    assert h[4..8] == EncodeLE(36 + p.dataSize, 4) by { DecodedIsEncoding(h[4..8], 36 + p.dataSize); }
    assert h[16..20] == EncodeLE(16, 4) by { DecodedIsEncoding(h[16..20], 16); }
    assert h[20..22] == EncodeLE(1, 2) by { DecodedIsEncoding(h[20..22], 1); }
    assert h[22..24] == EncodeLE(p.channels, 2) by { DecodedIsEncoding(h[22..24], p.channels); }
    assert h[24..28] == EncodeLE(p.sampleRate, 4) by { DecodedIsEncoding(h[24..28], p.sampleRate); }
    assert h[28..32] == EncodeLE(ByteRate(p), 4) by { DecodedIsEncoding(h[28..32], ByteRate(p)); }
    assert h[32..34] == EncodeLE(BlockAlign(p), 2) by { DecodedIsEncoding(h[32..34], BlockAlign(p)); }
    assert h[34..36] == EncodeLE(p.bitDepth, 2) by { DecodedIsEncoding(h[34..36], p.bitDepth); }
    assert h[40..44] == EncodeLE(p.dataSize, 4) by { DecodedIsEncoding(h[40..44], p.dataSize); }
    AssembleLayout(h, p);
    CreateWavHeaderIsLayout(p);
  }

  /** A 44-byte buffer whose every field slice holds the corresponding field of p is
      the layout of p. */
  lemma AssembleLayout(h: seq<Byte>, p: HeaderParams)
    requires |h| == HeaderSize
    requires h[0..4] == CharCodes("RIFF") && h[4..8] == EncodeLE(36 + p.dataSize, 4)
    requires h[8..12] == CharCodes("WAVE") && h[12..16] == CharCodes("fmt ")
    requires h[16..20] == EncodeLE(16, 4) && h[20..22] == EncodeLE(1, 2)
    requires h[22..24] == EncodeLE(p.channels, 2) && h[24..28] == EncodeLE(p.sampleRate, 4)
    requires h[28..32] == EncodeLE(ByteRate(p), 4) && h[32..34] == EncodeLE(BlockAlign(p), 2)
    requires h[34..36] == EncodeLE(p.bitDepth, 2) && h[36..40] == CharCodes("data")
    requires h[40..44] == EncodeLE(p.dataSize, 4)
    ensures h == Layout(p)
  {
    AssembleDescriptor(h, p);
    AssembleFormat(h, p);
    AssembleRates(h, p);
    PrefixStep(h, 16, 28);
    PrefixStep(h, 28, 44);
    assert h[..44] == h;
  }

  lemma AssembleDescriptor(h: seq<Byte>, p: HeaderParams)
    requires |h| == HeaderSize
    requires h[0..4] == CharCodes("RIFF") && h[4..8] == EncodeLE(36 + p.dataSize, 4)
    requires h[8..12] == CharCodes("WAVE") && h[12..16] == CharCodes("fmt ")
    ensures h[..16] == DescriptorLayout(p)
  {
    Join4(h[..16], h[0..4], h[4..8], h[8..12], h[12..16]);
  }

  lemma AssembleFormat(h: seq<Byte>, p: HeaderParams)
    requires |h| == HeaderSize
    requires h[16..20] == EncodeLE(16, 4) && h[20..22] == EncodeLE(1, 2)
    requires h[22..24] == EncodeLE(p.channels, 2) && h[24..28] == EncodeLE(p.sampleRate, 4)
    ensures h[16..28] == FormatLayout(p)
  {
    Join4(h[16..28], h[16..20], h[20..22], h[22..24], h[24..28]);
  }

  lemma AssembleRates(h: seq<Byte>, p: HeaderParams)
    requires |h| == HeaderSize
    requires h[28..32] == EncodeLE(ByteRate(p), 4) && h[32..34] == EncodeLE(BlockAlign(p), 2)
    requires h[34..36] == EncodeLE(p.bitDepth, 2) && h[36..40] == CharCodes("data")
    requires h[40..44] == EncodeLE(p.dataSize, 4)
    ensures h[28..44] == RatesLayout(p)
  {
    Join5(h[28..44], h[28..32], h[32..34], h[34..36], h[36..40], h[40..44]);
  }

  /** A sequence cut into four consecutive pieces is their concatenation. */
  lemma Join4(s: seq<Byte>, a: seq<Byte>, b: seq<Byte>, c: seq<Byte>, d: seq<Byte>)
    requires |s| == |a| + |b| + |c| + |d|
    requires forall i :: 0 <= i < |a| ==> s[i] == a[i]
    requires forall i :: 0 <= i < |b| ==> s[|a| + i] == b[i]
    requires forall i :: 0 <= i < |c| ==> s[|a| + |b| + i] == c[i]
    requires forall i :: 0 <= i < |d| ==> s[|a| + |b| + |c| + i] == d[i]
    ensures s == a + b + c + d
  {
  }

  /** A sequence cut into five consecutive pieces is their concatenation. */
  lemma Join5(s: seq<Byte>, a: seq<Byte>, b: seq<Byte>, c: seq<Byte>, d: seq<Byte>, e: seq<Byte>)
    requires |s| == |a| + |b| + |c| + |d| + |e|
    requires forall i :: 0 <= i < |a| ==> s[i] == a[i]
    requires forall i :: 0 <= i < |b| ==> s[|a| + i] == b[i]
    requires forall i :: 0 <= i < |c| ==> s[|a| + |b| + i] == c[i]
    requires forall i :: 0 <= i < |d| ==> s[|a| + |b| + |c| + i] == d[i]
    requires forall i :: 0 <= i < |e| ==> s[|a| + |b| + |c| + |d| + i] == e[i]
    ensures s == a + b + c + d + e
  {
  }

  /** A prefix grows by the slice that follows it. */
  lemma PrefixStep(h: seq<Byte>, i: nat, j: nat)
    requires i <= j <= |h|
    ensures h[..j] == h[..i] + h[i..j]
  {
  }

  /** 48000 Hz stereo 16-bit with 96000 data bytes: RIFF size 96036, byte rate 192000,
      block align 4, 16 bits per sample. */
  lemma StereoExample()
    ensures ParseHeader(CreateWavHeader(HeaderParams(48000, 2, 16, 96000)))
      == Some(HeaderFields(96036, 16, 1, 2, 48000, 192000, 4, 16, 96000))
  {
    var p := HeaderParams(48000, 2, 16, 96000);
    assert ExpectedFields(p) == HeaderFields(96036, 16, 1, 2, 48000, 192000, 4, 16, 96000) by {
      Pow256Values();
      assert ByteRate(p) == 192000 && BlockAlign(p) == 4;
    }
    ParseCreateWavHeader(p);
  }

  /** 44100 Hz mono 16-bit with 88200 data bytes: byte rate 88200, block align 2. */
  lemma MonoExample()
    ensures ParseHeader(CreateWavHeader(HeaderParams(44100, 1, 16, 88200)))
      == Some(HeaderFields(88236, 16, 1, 1, 44100, 88200, 2, 16, 88200))
  {
    var p := HeaderParams(44100, 1, 16, 88200);
    assert ExpectedFields(p) == HeaderFields(88236, 16, 1, 1, 44100, 88200, 2, 16, 88200) by {
      Pow256Values();
      assert ByteRate(p) == 88200 && BlockAlign(p) == 2;
    }
    ParseCreateWavHeader(p);
  }
}
