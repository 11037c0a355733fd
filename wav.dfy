/**
  The RIFF/WAVE container that `AudioManager.pcm16_to_wav`, `_to_wav` and
  `_from_wav` produce and read through Python's `wave` module: a `RIFF` form of
  type `WAVE` holding a 16-byte PCM `fmt ` chunk and a `data` chunk, laid out
  as the canonical 44-byte header followed by the sample bytes (IBM/Microsoft
  Multimedia Programming Interface and Data Specifications 1.0).
 */
module Wav {
  import opened Wrappers
  import opened Pcm
  import Arith

  const RIFF_ID: seq<byte> := [0x52, 0x49, 0x46, 0x46]  // "RIFF"
  const WAVE_ID: seq<byte> := [0x57, 0x41, 0x56, 0x45]  // "WAVE"
  const FMT_ID: seq<byte> := [0x66, 0x6d, 0x74, 0x20]   // "fmt "
  const DATA_ID: seq<byte> := [0x64, 0x61, 0x74, 0x61]  // "data"
  const HEADER_SIZE := 44
  const FMT_CHUNK_SIZE := 16
  const WAVE_FORMAT_PCM := 1
  /** `setsampwidth(2)`: the writer always stores 16-bit samples. */
  const PCM16_WIDTH := 2

  datatype WavError =
    | BadChannels        // a channel count below 1 (writer) or of 0 (reader)
    | BadFrameRate       // a frame rate that is not positive (writer)
    | FieldOverflow      // a header field that does not fit its 16- or 32-bit slot
    | Truncated          // fewer bytes than the header needs, in the container or in its RIFF chunk
    | NotRiff            // does not start with "RIFF"
    | NotWave            // the RIFF chunk does not hold the form type "WAVE"
    | UnsupportedLayout  // not the canonical fmt-then-data layout
    | UnknownFormat      // a format tag other than PCM
    | BadSampleWidth     // 0 bits per sample

  /** What `_from_wav` returns: `(channels, rate, sampwidth, raw)`. */
  datatype WavInfo = WavInfo(channels: int, rate: int, sampleWidth: int, raw: seq<byte>)

  /** Every header field the writer packs fits its slot. */
  predicate FieldsFit(pcmLength: nat, rate: int, channels: int)
  {
    && 1 <= channels && 0 < rate
    && channels * PCM16_WIDTH < 0x1_0000
    && rate < 0x1_0000_0000
    && channels * rate * PCM16_WIDTH < 0x1_0000_0000
    && 36 + pcmLength < 0x1_0000_0000
  }

  /** The header, with the two size fields given separately (the writer patches them). */
  function HeaderWith(channels: int, rate: int, riffSize: int, dataSize: int): (h: seq<byte>)
    requires 1 <= channels && channels * PCM16_WIDTH < 0x1_0000
    requires 0 <= rate < 0x1_0000_0000 && channels * rate * PCM16_WIDTH < 0x1_0000_0000
    requires 0 <= riffSize < 0x1_0000_0000 && 0 <= dataSize < 0x1_0000_0000
    ensures |h| == HEADER_SIZE
  {
    RIFF_ID + LE32(riffSize) + WAVE_ID
    + FMT_ID + LE32(FMT_CHUNK_SIZE) + LE16(WAVE_FORMAT_PCM) + LE16(channels) + LE32(rate)
    + LE32(channels * rate * PCM16_WIDTH) + LE16(channels * PCM16_WIDTH) + LE16(PCM16_WIDTH * 8)
    + DATA_ID + LE32(dataSize)
  }

  /** `pcm16_to_wav(pcm, rate, channels)`: the container for these bytes, or the writer's error. */
  function Encode(pcm: seq<byte>, rate: int, channels: int): (r: Result<seq<byte>, WavError>)
    ensures r.Success? <==> FieldsFit(|pcm|, rate, channels)
    ensures r.Success? ==> |r.value| == HEADER_SIZE + |pcm| && r.value[HEADER_SIZE..] == pcm
    ensures channels < 1 ==> r == Failure(BadChannels)
    ensures 1 <= channels && rate <= 0 ==> r == Failure(BadFrameRate)
  {
    if channels < 1 then Failure(BadChannels)
    else if rate <= 0 then Failure(BadFrameRate)
    else if !FieldsFit(|pcm|, rate, channels) then Failure(FieldOverflow)
    else Success(HeaderWith(channels, rate, 36 + |pcm|, |pcm|) + pcm)
  }

  /** The four bytes at `off` are the chunk identifier `id`. */
  predicate IdAt(w: seq<byte>, off: nat, id: seq<byte>)
    requires off + 4 <= |w| && |id| == 4
  {
    w[off..off + 4] == id
  }

  /** The bytes of the whole frames among `n` bytes (`n // frameSize * frameSize`). */
  function WholeFrameBytes(n: nat, frameSize: nat): (k: nat)
    requires frameSize > 0
    ensures k % frameSize == 0
    ensures k <= n && n - k < frameSize
    ensures n % frameSize == 0 ==> k == n
  {
    Arith.DivUnique(n - n % frameSize, frameSize, n / frameSize, 0);
    n - n % frameSize
  }

  /**
    The `fmt ` fields and the declared `data` size that `wave` reads from a
    header, and the offset where the RIFF chunk ends (`8` plus its declared
    size): every chunk, the `data` chunk included, is read from inside it.
   */
  datatype Fmt = Fmt(channels: int, rate: int, sampleWidth: int, dataSize: int, riffEnd: int)

  /** The header checks of `wave`'s reader, for the canonical layout. */
  function ReadHeader(w: seq<byte>): (r: Result<Fmt, WavError>)
    ensures r.Success? ==> HEADER_SIZE <= |w| && r.value.channels >= 1 && r.value.sampleWidth >= 1 && r.value.dataSize >= 0
    ensures r.Success? ==> r.value.riffEnd == 8 + U32(w, 4) && HEADER_SIZE <= r.value.riffEnd
    ensures 12 <= |w| && IdAt(w, 0, RIFF_ID) && U32(w, 4) < 4 ==> r == Failure(NotWave)
  {
    if |w| < 12 then Failure(Truncated)
    else if !IdAt(w, 0, RIFF_ID) then Failure(NotRiff)
    else if U32(w, 4) < 4 || !IdAt(w, 8, WAVE_ID) then Failure(NotWave)
    else if |w| < HEADER_SIZE || 8 + U32(w, 4) < HEADER_SIZE then Failure(Truncated)
    else if !IdAt(w, 12, FMT_ID) || U32(w, 16) != FMT_CHUNK_SIZE || !IdAt(w, 36, DATA_ID) then Failure(UnsupportedLayout)
    else if U16(w, 20) != WAVE_FORMAT_PCM then Failure(UnknownFormat)
    else if (U16(w, 34) + 7) / 8 == 0 then Failure(BadSampleWidth)
    else if U16(w, 22) == 0 then Failure(BadChannels)
    else Success(Fmt(U16(w, 22), U32(w, 24), (U16(w, 34) + 7) / 8, U32(w, 40), 8 + U32(w, 4)))
  }

  /**
    `readframes(getnframes())`: the whole frames of the declared data size, cut
    short where the container or its RIFF chunk ends (possibly part-way
    through a frame).
   */
  function ReadFrames(w: seq<byte>, f: Fmt): (raw: seq<byte>)
    requires HEADER_SIZE <= |w| && HEADER_SIZE <= f.riffEnd
    requires f.channels >= 1 && f.sampleWidth >= 1 && f.dataSize >= 0
    ensures HEADER_SIZE + |raw| <= |w| && HEADER_SIZE + |raw| <= f.riffEnd
    ensures raw == w[HEADER_SIZE..HEADER_SIZE + |raw|]
    ensures |raw| <= f.dataSize
    ensures var whole := WholeFrameBytes(f.dataSize, f.channels * f.sampleWidth);
      HEADER_SIZE + whole <= |w| && HEADER_SIZE + whole <= f.riffEnd ==> |raw| == whole
  {
    var frameSize := f.channels * f.sampleWidth;
    var want := WholeFrameBytes(f.dataSize, frameSize);
    var available := (if |w| < f.riffEnd then |w| else f.riffEnd) - HEADER_SIZE;
    w[HEADER_SIZE..HEADER_SIZE + if want < available then want else available]
  }

  /** `_from_wav(w)`: `(channels, rate, sampwidth, raw)`, or the reader's error. */
  function Decode(w: seq<byte>): (r: Result<WavInfo, WavError>)
    ensures r.Success? <==> ReadHeader(w).Success?
    ensures r.Success? ==> r.value.channels >= 1 && r.value.sampleWidth >= 1
    ensures r.Success? ==> HEADER_SIZE + |r.value.raw| <= |w| && r.value.raw == w[HEADER_SIZE..HEADER_SIZE + |r.value.raw|]
    ensures r.Success? ==> HEADER_SIZE <= |w| && HEADER_SIZE + |r.value.raw| <= 8 + U32(w, 4)
  {
    match ReadHeader(w)
    case Failure(e) => Failure(e)
    case Success(f) => Success(WavInfo(f.channels, f.rate, f.sampleWidth, ReadFrames(w, f)))
  }

  /** Reading the fields of a header gives back the values written there. */
  lemma HeaderFields(channels: int, rate: int, riffSize: int, dataSize: int, pcm: seq<byte>)
    requires 1 <= channels && channels * PCM16_WIDTH < 0x1_0000
    requires 0 <= rate < 0x1_0000_0000 && channels * rate * PCM16_WIDTH < 0x1_0000_0000
    requires 0 <= riffSize < 0x1_0000_0000 && 0 <= dataSize < 0x1_0000_0000
    ensures var w := HeaderWith(channels, rate, riffSize, dataSize) + pcm;
      && IdAt(w, 0, RIFF_ID) && U32(w, 4) == riffSize && IdAt(w, 8, WAVE_ID)
      && IdAt(w, 12, FMT_ID) && U32(w, 16) == FMT_CHUNK_SIZE && U16(w, 20) == WAVE_FORMAT_PCM
      && U16(w, 22) == channels && U32(w, 24) == rate && U16(w, 34) == PCM16_WIDTH * 8
      && IdAt(w, 36, DATA_ID) && U32(w, 40) == dataSize
  {
    var w := HeaderWith(channels, rate, riffSize, dataSize) + pcm;
    var r4, f16 := LE32(riffSize), LE32(FMT_CHUNK_SIZE);
    var t20, c22, r24, b34, d40 := LE16(WAVE_FORMAT_PCM), LE16(channels), LE32(rate), LE16(PCM16_WIDTH * 8), LE32(dataSize);
    assert w[0..4] == RIFF_ID;
    assert w[4..8] == r4;
    assert w[8..12] == WAVE_ID;
    assert w[12..16] == FMT_ID;
    assert w[16..20] == f16;
    assert w[20..22] == t20;
    assert w[22..24] == c22;
    assert w[24..28] == r24;
    assert w[34..36] == b34;
    assert w[36..40] == DATA_ID;
    assert w[40..44] == d40;
  }

  /** `wave`'s reader accepts every header the writer produces. */
  lemma ReadHeaderWith(channels: int, rate: int, riffSize: int, dataSize: int, pcm: seq<byte>)
    requires 1 <= channels && channels * PCM16_WIDTH < 0x1_0000
    requires 0 <= rate < 0x1_0000_0000 && channels * rate * PCM16_WIDTH < 0x1_0000_0000
    requires 0 <= riffSize < 0x1_0000_0000 && 0 <= dataSize < 0x1_0000_0000
    requires HEADER_SIZE <= 8 + riffSize
    ensures ReadHeader(HeaderWith(channels, rate, riffSize, dataSize) + pcm) == Success(Fmt(channels, rate, PCM16_WIDTH, dataSize, 8 + riffSize))
  {
    HeaderFields(channels, rate, riffSize, dataSize, pcm);
    assert (PCM16_WIDTH * 8 + 7) / 8 == PCM16_WIDTH;
  }


  /**
    Decoding what `pcm16_to_wav` wrote gives back the channel count, the rate,
    sample width 2 and the PCM bytes cut to whole frames.
   */
  lemma DecodeEncode(pcm: seq<byte>, rate: int, channels: int)
    requires FieldsFit(|pcm|, rate, channels)
    ensures Encode(pcm, rate, channels).Success?
    ensures Decode(Encode(pcm, rate, channels).value)
         == Success(WavInfo(channels, rate, PCM16_WIDTH, pcm[..WholeFrameBytes(|pcm|, channels * PCM16_WIDTH)]))
  {
    var h := HeaderWith(channels, rate, 36 + |pcm|, |pcm|);
    assert Encode(pcm, rate, channels) == Success(h + pcm);
    ReadHeaderWith(channels, rate, 36 + |pcm|, |pcm|, pcm);
    var f := Fmt(channels, rate, PCM16_WIDTH, |pcm|, 44 + |pcm|);
    ReadFramesAfter(h, pcm, f);
  }

  /** The frames read after a 44-byte header are the whole frames of the bytes that follow it. */
  lemma ReadFramesAfter(h: seq<byte>, pcm: seq<byte>, f: Fmt)
    requires |h| == HEADER_SIZE && f.channels >= 1 && f.sampleWidth >= 1 && f.dataSize == |pcm| && f.riffEnd == HEADER_SIZE + |pcm|
    ensures ReadFrames(h + pcm, f) == pcm[..WholeFrameBytes(|pcm|, f.channels * f.sampleWidth)]
  {
    assert (h + pcm)[HEADER_SIZE..] == pcm;
  }

  /** The round trip is exact when the PCM bytes are whole frames. */
  lemma RoundTrip(pcm: seq<byte>, rate: int, channels: int)
    requires FieldsFit(|pcm|, rate, channels) && |pcm| % (channels * PCM16_WIDTH) == 0
    ensures Encode(pcm, rate, channels).Success?
    ensures Decode(Encode(pcm, rate, channels).value) == Success(WavInfo(channels, rate, PCM16_WIDTH, pcm))
  {
    DecodeEncode(pcm, rate, channels);
    assert pcm[..|pcm|] == pcm;
  }

  /** A RIFF chunk too small to hold the form type is not a WAVE file, whatever follows. */
  lemma EmptyRiffIsNotWave(pcm: seq<byte>)
    requires |pcm| < 0x1_0000_0000
    ensures Decode(HeaderWith(1, 16000, 0, |pcm|) + pcm) == Failure(NotWave)
  {
    HeaderFields(1, 16000, 0, |pcm|, pcm);
  }

  /**
    The `data` chunk is read from inside the RIFF chunk: a RIFF size of 38
    leaves room for only 2 of the 100 declared data bytes.
   */
  lemma RiffChunkLimitsData(pcm: seq<byte>)
    requires |pcm| == 100
    ensures Decode(HeaderWith(1, 16000, 38, 100) + pcm) == Success(WavInfo(1, 16000, PCM16_WIDTH, pcm[..2]))
  {
    var w := HeaderWith(1, 16000, 38, 100) + pcm;
    ReadHeaderWith(1, 16000, 38, 100, pcm);
    assert w[HEADER_SIZE..HEADER_SIZE + 2] == pcm[..2];
  }

  /** Seeking back to offset 4 and 40 and rewriting the two size fields turns one header into another. */
  lemma PatchSizes(channels: int, rate: int, riffSize: int, dataSize: int, riffSize': int, dataSize': int, pcm: seq<byte>)
    requires 1 <= channels && channels * PCM16_WIDTH < 0x1_0000
    requires 0 <= rate < 0x1_0000_0000 && channels * rate * PCM16_WIDTH < 0x1_0000_0000
    requires 0 <= riffSize < 0x1_0000_0000 && 0 <= dataSize < 0x1_0000_0000
    requires 0 <= riffSize' < 0x1_0000_0000 && 0 <= dataSize' < 0x1_0000_0000
    ensures var w := HeaderWith(channels, rate, riffSize, dataSize) + pcm;
      var w' := w[..4] + LE32(riffSize') + w[8..];
      w'[..40] + LE32(dataSize') + w'[44..] == HeaderWith(channels, rate, riffSize', dataSize') + pcm
  {
    var w := HeaderWith(channels, rate, riffSize, dataSize) + pcm;
    var w' := w[..4] + LE32(riffSize') + w[8..];
    var v := HeaderWith(channels, rate, riffSize', dataSize') + pcm;
    assert |w'| == |v|;
    forall i | 0 <= i < |v| ensures (w'[..40] + LE32(dataSize') + w'[44..])[i] == v[i] {
    }
  }

  /** An in-memory binary stream (`io.BytesIO`): appended to, and patched by seeking back. */
  class ByteBuffer {
    var bytes: seq<byte>

    constructor ()
      ensures bytes == []
    {
      bytes := [];
    }

    /** `write(b)` at the end of the stream. */
    method Write(b: seq<byte>)
      modifies this
      ensures bytes == old(bytes) + b
    {
      bytes := bytes + b;
    }

    /** `seek(pos)` then `write(b)` inside what was already written. */
    method Patch(pos: nat, b: seq<byte>)
      requires pos + |b| <= |bytes|
      modifies this
      ensures bytes == old(bytes)[..pos] + b + old(bytes)[pos + |b|..]
    {
      bytes := bytes[..pos] + b + bytes[pos + |b|..];
    }
  }

  /**
    `pcm16_to_wav(pcm, rate, channels)`: sets the parameters, writes the header
    for the whole frames among `pcm`, writes all of `pcm`, and patches both
    size fields when that left a partial frame.
   */
  method Pcm16ToWav(pcm: seq<byte>, rate: int, channels: int) returns (r: Result<seq<byte>, WavError>)
    ensures r == Encode(pcm, rate, channels)
  {
    if channels < 1 {
      return Failure(BadChannels);
    }
    if rate <= 0 {
      return Failure(BadFrameRate);
    }
    if !FieldsFit(|pcm|, rate, channels) {
      return Failure(FieldOverflow);
    }
    var bio := new ByteBuffer();
    var dataLength := WholeFrameBytes(|pcm|, channels * PCM16_WIDTH);
    bio.Write(HeaderWith(channels, rate, 36 + dataLength, dataLength));
    bio.Write(pcm);
    ghost var written := HeaderWith(channels, rate, 36 + dataLength, dataLength) + pcm;
    assert bio.bytes == written;
    if dataLength != |pcm| {
      PatchSizes(channels, rate, 36 + dataLength, dataLength, 36 + |pcm|, |pcm|, pcm);
      bio.Patch(4, LE32(36 + |pcm|));
      bio.Patch(40, LE32(|pcm|));
    }
    assert bio.bytes == HeaderWith(channels, rate, 36 + |pcm|, |pcm|) + pcm;
    r := Success(bio.bytes);
  }

  /** `_to_wav(arr, rate, channels)`: the same container as `pcm16_to_wav(arr.tobytes(), rate, channels)`. */
  method ToWav(samples: seq<Sample>, rate: int, channels: int) returns (r: Result<seq<byte>, WavError>)
    ensures r == Encode(ToBytes(samples), rate, channels)
  {
    r := Pcm16ToWav(ToBytes(samples), rate, channels);
  }
}
