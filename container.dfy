/** The RIFF WAVE container `generateFrequency` wraps around the sample bytes: a
    44-byte header built from four-byte tags and `pack` fields, followed by the
    data. Two of its fields are written differently from the "Waveform Audio File
    Format" of the Multimedia Programming Interface and Data Specifications 1.0:
    the RIFF chunk size is a constant, and the data chunk size multiplies a byte
    count by the bytes per sample a second time. */
module Container {
  import opened Wrappers
  import opened Bits

  const RiffTag: seq<byte> := [0x52, 0x49, 0x46, 0x46]
  const WaveTag: seq<byte> := [0x57, 0x41, 0x56, 0x45]
  const FmtTag: seq<byte> := [0x66, 0x6d, 0x74, 0x20]
  const DataTag: seq<byte> := [0x64, 0x61, 0x74, 0x61]

  /** The RIFF size the code writes whatever the data: `4 + (8 + 24) + (8 + 8)`. */
  const RiffSizeAsWritten: int := 4 + (8 + 24) + (8 + 8)

  /** The 44 header bytes with the given RIFF size and data size fields; the
      other fields are the format chunk of linear PCM. */
  function Layout(riffSize: int, sampleRate: int, channels: int, bits: int, dataSize: int): (h: seq<byte>)
    requires bits % 8 == 0
    ensures |h| == 44
  {
    Fields(Pack(1, riffSize), Pack(1, 16), Pack(0, 1), Pack(0, channels), Pack(1, sampleRate),
           Pack(1, sampleRate * channels * bits / 8), Pack(0, channels * bits / 8), Pack(0, bits),
           Pack(1, dataSize))
  }

  /** The header's tags with the encoded fields between them, in file order. */
  function Fields(riffSize: seq<byte>, fmtSize: seq<byte>, audioFormat: seq<byte>, channels: seq<byte>,
                  sampleRate: seq<byte>, byteRate: seq<byte>, blockAlign: seq<byte>, bits: seq<byte>,
                  dataSize: seq<byte>): seq<byte>
  {
    RiffTag + riffSize + WaveTag +
    FmtTag + fmtSize + audioFormat + channels + sampleRate + byteRate + blockAlign + bits +
    DataTag + dataSize
  }

  /** The header `generateFrequency` writes before `dataLen` bytes of samples. */
  function Header(sampleRate: int, channels: int, bits: int, dataLen: nat): (h: seq<byte>)
    requires bits % 8 == 0
    ensures |h| == 44
  {
    Layout(RiffSizeAsWritten, sampleRate, channels, bits, dataLen * channels * bits / 8)
  }

  /** The header the WAVE format prescribes for `dataLen` data bytes: the RIFF
      size counts everything after the size field, the data size counts the
      data bytes. */
  function StandardHeader(sampleRate: int, channels: int, bits: int, dataLen: nat): (h: seq<byte>)
    requires bits % 8 == 0
    ensures |h| == 44
  {
    Layout(36 + dataLen, sampleRate, channels, bits, dataLen)
  }

  /** The fields a reader of a canonical 44-byte WAVE header sees. */
  datatype WavFile = WavFile(
    riffSize: int, fmtSize: int, audioFormat: int, channels: int, sampleRate: int,
    byteRate: int, blockAlign: int, bits: int, dataSize: int, body: seq<byte>)

  /** A reader of canonical WAVE files: the four tags at their places, the
      little-endian fields between them, and everything after byte 44 as data. */
  function ParseWav(b: seq<byte>): Option<WavFile>
  {
    if |b| < 44 || !TagAt(b, 0, RiffTag) || !TagAt(b, 8, WaveTag) || !TagAt(b, 12, FmtTag) || !TagAt(b, 36, DataTag) then
      None
    else
      Some(WavFile(Le32(b, 4), Le32(b, 16), Le16(b, 20), Le16(b, 22), Le32(b, 24),
                   Le32(b, 28), Le16(b, 32), Le16(b, 34), Le32(b, 40), b[44..]))
  }

  /** Whether the four bytes at `at` are the tag `tag`. */
  predicate TagAt(b: seq<byte>, at: nat, tag: seq<byte>)
    requires at + 4 <= |b| && |tag| == 4
  {
    b[at] == tag[0] && b[at + 1] == tag[1] && b[at + 2] == tag[2] && b[at + 3] == tag[3]
  }

  /** Parsing tags and fields of the right widths, followed by any data, reads
      each field at its place and the data after it. */
  lemma ParseFields(riffSize: seq<byte>, fmtSize: seq<byte>, audioFormat: seq<byte>, channels: seq<byte>,
                    sampleRate: seq<byte>, byteRate: seq<byte>, blockAlign: seq<byte>, bits: seq<byte>,
                    dataSize: seq<byte>, data: seq<byte>)
    requires |riffSize| == |fmtSize| == |sampleRate| == |byteRate| == |dataSize| == 4
    requires |audioFormat| == |channels| == |blockAlign| == |bits| == 2
    ensures ParseWav(Fields(riffSize, fmtSize, audioFormat, channels, sampleRate, byteRate, blockAlign, bits, dataSize) + data) ==
      Some(WavFile(Le32(riffSize, 0), Le32(fmtSize, 0), Le16(audioFormat, 0), Le16(channels, 0),
                   Le32(sampleRate, 0), Le32(byteRate, 0), Le16(blockAlign, 0), Le16(bits, 0),
                   Le32(dataSize, 0), data))
  {
    var b := Fields(riffSize, fmtSize, audioFormat, channels, sampleRate, byteRate, blockAlign, bits, dataSize) + data;
    assert b[0..4] == RiffTag && b[4..8] == riffSize && b[8..12] == WaveTag && b[12..16] == FmtTag;
    assert b[16..20] == fmtSize && b[20..22] == audioFormat && b[22..24] == channels;
    assert b[24..28] == sampleRate && b[28..32] == byteRate && b[32..34] == blockAlign && b[34..36] == bits;
    assert b[36..40] == DataTag && b[40..44] == dataSize && b[44..] == data;
    assert TagAt(b, 0, RiffTag) && TagAt(b, 8, WaveTag) && TagAt(b, 12, FmtTag) && TagAt(b, 36, DataTag);
  }

  /** Parsing a header built by `Layout`, followed by any data, gives back every
      field that was written (each modulo the width of its field) and the data. */
  lemma {:induction false} LayoutRoundTrip(riffSize: int, sampleRate: int, channels: int, bits: int, dataSize: int, data: seq<byte>)
    requires bits % 8 == 0
    ensures ParseWav(Layout(riffSize, sampleRate, channels, bits, dataSize) + data) ==
      Some(WavFile(riffSize % TwoTo32, 16, 1, channels % TwoTo16, sampleRate % TwoTo32,
                   (sampleRate * channels * bits / 8) % TwoTo32, (channels * bits / 8) % TwoTo16,
                   bits % TwoTo16, dataSize % TwoTo32, data))
  {
    var byteRate, blockAlign := sampleRate * channels * bits / 8, channels * bits / 8;
    var p0, p1, p2, p3, p4 := Pack(1, riffSize), Pack(1, 16), Pack(0, 1), Pack(0, channels), Pack(1, sampleRate);
    var p5, p6, p7, p8 := Pack(1, byteRate), Pack(0, blockAlign), Pack(0, bits), Pack(1, dataSize);
    assert ParseWav(Layout(riffSize, sampleRate, channels, bits, dataSize) + data) ==
      Some(WavFile(Le32(p0, 0), Le32(p1, 0), Le16(p2, 0), Le16(p3, 0), Le32(p4, 0),
                   Le32(p5, 0), Le16(p6, 0), Le16(p7, 0), Le32(p8, 0), data)) by {
      ParseFields(p0, p1, p2, p3, p4, p5, p6, p7, p8, data);
    }
    Pack32RoundTrip(riffSize);
    Pack32RoundTrip(16);
    Pack16RoundTrip(1);
    Pack16RoundTrip(channels);
    Pack32RoundTrip(sampleRate);
    Pack32RoundTrip(byteRate);
    Pack16RoundTrip(blockAlign);
    Pack16RoundTrip(bits);
    Pack32RoundTrip(dataSize);
  }

  /** The header as written parses back with the sample rate, channel count and
      sample width it was built from, for every value a 32-bit and a 16-bit field
      can hold; its RIFF size reads 52 and its data size reads
      `dataLen * channels * bits / 8` modulo 2^32. */
  lemma {:induction false} HeaderRoundTrip(sampleRate: int, channels: int, bits: int, data: seq<byte>)
    requires bits % 8 == 0
    requires 0 <= sampleRate < TwoTo32 && 0 <= channels < TwoTo16 && 0 <= bits < TwoTo16
    ensures var f := ParseWav(Header(sampleRate, channels, bits, |data|) + data);
      f.Some? && f.value.riffSize == 52 && f.value.audioFormat == 1 &&
      f.value.sampleRate == sampleRate && f.value.channels == channels && f.value.bits == bits &&
      f.value.dataSize == (|data| * channels * bits / 8) % TwoTo32 && f.value.body == data
  {
    var f := ParseWav(Header(sampleRate, channels, bits, |data|) + data);
    var dataSize := |data| * channels * bits / 8;
    assert f.Some? && f.value.riffSize == RiffSizeAsWritten % TwoTo32 && f.value.audioFormat == 1 &&
      f.value.sampleRate == sampleRate % TwoTo32 && f.value.channels == channels % TwoTo16 &&
      f.value.bits == bits % TwoTo16 && f.value.dataSize == dataSize % TwoTo32 && f.value.body == data by {
      LayoutRoundTrip(RiffSizeAsWritten, sampleRate, channels, bits, dataSize, data);
    }
    DivModUnique(sampleRate, TwoTo32, 0, sampleRate);
    DivModUnique(channels, TwoTo16, 0, channels);
    DivModUnique(bits, TwoTo16, 0, bits);
    DivModUnique(RiffSizeAsWritten, TwoTo32, 0, RiffSizeAsWritten);
  }

  /** The header the WAVE format prescribes parses back with RIFF size
      `36 + dataLen` and data size `dataLen`, for every length that fits. */
  lemma {:induction false} StandardRoundTrip(sampleRate: int, channels: int, bits: int, data: seq<byte>)
    requires bits % 8 == 0
    requires 0 <= sampleRate < TwoTo32 && 0 <= channels < TwoTo16 && 0 <= bits < TwoTo16 && 36 + |data| < TwoTo32
    ensures var f := ParseWav(StandardHeader(sampleRate, channels, bits, |data|) + data);
      f.Some? && f.value.riffSize == 36 + |data| && f.value.audioFormat == 1 &&
      f.value.sampleRate == sampleRate && f.value.channels == channels && f.value.bits == bits &&
      f.value.dataSize == |data| && f.value.body == data
  {
    var f := ParseWav(StandardHeader(sampleRate, channels, bits, |data|) + data);
    assert f.Some? && f.value.riffSize == (36 + |data|) % TwoTo32 && f.value.audioFormat == 1 &&
      f.value.sampleRate == sampleRate % TwoTo32 && f.value.channels == channels % TwoTo16 &&
      f.value.bits == bits % TwoTo16 && f.value.dataSize == |data| % TwoTo32 && f.value.body == data by {
      LayoutRoundTrip(36 + |data|, sampleRate, channels, bits, |data|, data);
    }
    DivModUnique(sampleRate, TwoTo32, 0, sampleRate);
    DivModUnique(channels, TwoTo16, 0, channels);
    DivModUnique(bits, TwoTo16, 0, bits);
    DivModUnique(36 + |data|, TwoTo32, 0, 36 + |data|);
    DivModUnique(|data|, TwoTo32, 0, |data|);
  }

  /** Two layouts that differ only in their RIFF size and data size fields parse
      to records that differ only in those two fields. */
  lemma {:induction false} OnlySizesDiffer(riff0: int, riff1: int, sampleRate: int, channels: int, bits: int,
                                          size0: int, size1: int, data: seq<byte>)
    requires bits % 8 == 0
    ensures var f0 := ParseWav(Layout(riff0, sampleRate, channels, bits, size0) + data);
      var f1 := ParseWav(Layout(riff1, sampleRate, channels, bits, size1) + data);
      f0.Some? && f1.Some? &&
      f0.value == f1.value.(riffSize := riff0 % TwoTo32, dataSize := size0 % TwoTo32)
  {
    LayoutRoundTrip(riff0, sampleRate, channels, bits, size0, data);
    LayoutRoundTrip(riff1, sampleRate, channels, bits, size1, data);
  }

  /** How the header as written differs from the one the WAVE format prescribes,
      for mono 16-bit audio: the two parse to the same record except for the
      RIFF size, which is right only for 16 data bytes, and the data size, which
      is twice the byte count and so right only for an empty buffer. */
  lemma {:induction false} AsWrittenVersusStandard(sampleRate: int, data: seq<byte>)
    requires 2 * |data| < TwoTo32
    ensures var written := ParseWav(Header(sampleRate, 1, 16, |data|) + data);
      var standard := ParseWav(StandardHeader(sampleRate, 1, 16, |data|) + data);
      written.Some? && standard.Some? &&
      written.value == standard.value.(riffSize := 52, dataSize := 2 * |data|) &&
      standard.value.riffSize == 36 + |data| && standard.value.dataSize == |data| &&
      (written.value.riffSize == standard.value.riffSize <==> |data| == 16) &&
      (written.value.dataSize == standard.value.dataSize <==> |data| == 0)
  {
    var n := |data|;
    assert n * 1 * 16 / 8 == 2 * n;
    OnlySizesDiffer(RiffSizeAsWritten, 36 + n, sampleRate, 1, 16, 2 * n, n, data);
    LayoutRoundTrip(36 + n, sampleRate, 1, 16, n, data);
    DivModUnique(2 * n, TwoTo32, 0, 2 * n);
    DivModUnique(36 + n, TwoTo32, 0, 36 + n);
    DivModUnique(n, TwoTo32, 0, n);
  }

  /** A 200-byte mono 16-bit buffer: the header says RIFF size 52 and data size
      400, where the WAVE format asks for 236 and 200. */
  lemma TwoHundredBytes(sampleRate: int, data: seq<byte>)
    requires |data| == 200
    ensures var f := ParseWav(Header(sampleRate, 1, 16, |data|) + data);
      var g := ParseWav(StandardHeader(sampleRate, 1, 16, |data|) + data);
      f.Some? && f.value.riffSize == 52 && f.value.dataSize == 400 &&
      g.Some? && g.value.riffSize == 236 && g.value.dataSize == 200
  {
    AsWrittenVersusStandard(sampleRate, data);
  }
}
