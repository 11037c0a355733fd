/**
  The playback front door of `AudioManager`: `play_pcm16` and `play_wav` check
  and reshape their input and hand the frames to the output device. The
  device call is described by the request it would receive.
 */
module Playback {
  import opened Wrappers
  import opened Pcm
  import opened Wav
  import opened Devices
  import opened Arith

  datatype PlayError =
    | WavFormat(e: WavError)  // `_from_wav` raised
    | UnsupportedWidth        // `play_wav` expects 16-bit PCM (`ValueError`)
    | OddBufferSize           // `np.frombuffer` on an odd number of bytes
    | BadReshape              // `reshape((-1, ch))` on a sample count that is not a multiple of `ch`

  /**
    The call to `sd.play`: the frames, their rate, the output device, whether
    the caller waits for the end of playback, and whether a stop event may
    abort it (`sd.stop()` from the supervising loop).
   */
  datatype PlayRequest = PlayRequest(frames: seq<seq<Sample>>, samplerate: int, device: int, waits: bool, abortable: bool)

  /** The frame width of the reshape: `ch` columns when `ch > 1`, else one. */
  function FrameWidth(ch: int): nat
  {
    if ch > 1 then ch else 1
  }

  /** The interleaved samples of a sequence of frames (row-major order). */
  function Flatten(frames: seq<seq<Sample>>): seq<Sample>
  {
    if frames == [] then [] else frames[0] + Flatten(frames[1..])
  }

  /** `reshape((-1, w))`: consecutive groups of `w` samples, in order. */
  function ToFrames(s: seq<Sample>, w: nat): (frames: seq<seq<Sample>>)
    requires w >= 1 && |s| % w == 0
    ensures |frames| * w == |s|
    ensures forall i :: 0 <= i < |frames| ==> |frames[i]| == w
    ensures Flatten(frames) == s
    decreases |s|
  {
    if s == [] then []
    else
      ModStep(|s|, w);
      var rest := ToFrames(s[w..], w);
      assert ([s[..w]] + rest)[1..] == rest;
      assert s == s[..w] + s[w..];
      [s[..w]] + rest
  }

  /** `np.frombuffer(pcm, np.int16).reshape(...)` with the frame width for `ch`. */
  function Reshape(pcm: seq<byte>, ch: int): (r: Result<seq<seq<Sample>>, PlayError>)
    ensures |pcm| % 2 != 0 ==> r == Failure(OddBufferSize)
    ensures |pcm| % 2 == 0 && (|pcm| / 2) % FrameWidth(ch) != 0 ==> r == Failure(BadReshape)
    ensures |pcm| % 2 == 0 && (|pcm| / 2) % FrameWidth(ch) == 0 ==> r.Success?
    ensures r.Success? ==>
      && |pcm| % 2 == 0
      && Flatten(r.value) == FromBytes(pcm)
      && (forall i :: 0 <= i < |r.value| ==> |r.value[i]| == FrameWidth(ch))
      && 2 * FrameWidth(ch) * |r.value| == |pcm|
  {
    if |pcm| % 2 != 0 then Failure(OddBufferSize)
    else
      var s := FromBytes(pcm);
      if |s| % FrameWidth(ch) != 0 then Failure(BadReshape)
      else Success(ToFrames(s, FrameWidth(ch)))
  }

  /**
    `play_pcm16(pcm, samplerate, channels, stop_event, blocking)`: empty input
    returns with no effect; otherwise the rate and channel count default to
    the manager's, and the reshaped frames go to the output device.
   */
  function PlayPcm16(m: AudioManager, pcm: seq<byte>, samplerate: Option<int>, channels: Option<int>,
                     abortable: bool, blocking: bool): (r: Result<Option<PlayRequest>, PlayError>)
    ensures |pcm| == 0 ==> r == Success(None)
    ensures |pcm| > 0 && r.Success? ==> r.value.Some?
    ensures r.Success? && r.value.Some? ==>
      var req := r.value.value;
      && Reshape(pcm, OrDefault(channels, m.channels)) == Success(req.frames)
      && req.samplerate == OrDefault(samplerate, m.samplerate)
      && req.device == m.outputDeviceIndex
      && req.abortable == abortable && req.waits == (abortable || blocking)
    ensures r.Failure? ==> |pcm| > 0 && Reshape(pcm, OrDefault(channels, m.channels)) == Failure(r.error)
  {
    if |pcm| == 0 then Success(None)
    else
      var sr := OrDefault(samplerate, m.samplerate);
      var ch := OrDefault(channels, m.channels);
      match Reshape(pcm, ch)
      case Failure(e) => Failure(e)
      case Success(frames) => Success(Some(PlayRequest(frames, sr, m.outputDeviceIndex, abortable || blocking, abortable)))
  }

  /**
    `play_wav(wav, stop_event, blocking)`: empty input returns with no effect;
    a container whose sample width is not 2 raises before anything is
    played; otherwise its frames are played at its own rate and channel count.
   */
  function PlayWav(m: AudioManager, wav: seq<byte>, abortable: bool, blocking: bool): (r: Result<Option<PlayRequest>, PlayError>)
    ensures |wav| == 0 ==> r == Success(None)
    ensures r == Failure(UnsupportedWidth) <==> |wav| > 0 && Decode(wav).Success? && Decode(wav).value.sampleWidth != 2
    ensures |wav| > 0 && Decode(wav).Failure? ==> r == Failure(WavFormat(Decode(wav).error))
    ensures |wav| > 0 && Decode(wav).Success? && Decode(wav).value.sampleWidth == 2 ==>
      var info := Decode(wav).value;
      r == PlayPcm16(m, info.raw, Some(info.rate), Some(info.channels), abortable, blocking)
  {
    if |wav| == 0 then Success(None)
    else
      match Decode(wav)
      case Failure(e) => Failure(WavFormat(e))
      case Success(info) =>
        if info.sampleWidth != 2 then Failure(UnsupportedWidth)
        else
          match Reshape(info.raw, info.channels)
          case Failure(e) => Failure(e)
          case Success(frames) =>
            // `frombuffer`, `reshape` and `tobytes` hand `play_pcm16` the bytes unchanged
            ToFromBytes(info.raw);
            PlayPcm16(m, ToBytes(Flatten(frames)), Some(info.rate), Some(info.channels), abortable, blocking)
  }

  /**
    A container written by `pcm16_to_wav` from whole frames is played back as
    exactly those frames, at its rate, with nothing played for empty PCM.
   */
  lemma {:induction false} EncodedWavPlays(m: AudioManager, pcm: seq<byte>, rate: int, channels: int, abortable: bool, blocking: bool)
    requires FieldsFit(|pcm|, rate, channels) && |pcm| % (channels * PCM16_WIDTH) == 0
    ensures Encode(pcm, rate, channels).Success?
    ensures var r := PlayWav(m, Encode(pcm, rate, channels).value, abortable, blocking);
      && Reshape(pcm, channels).Success?
      && (|pcm| == 0 ==> r == Success(None))
      && (|pcm| > 0 ==> r == Success(Some(PlayRequest(Reshape(pcm, channels).value, rate, m.outputDeviceIndex, abortable || blocking, abortable))))
  {
    RoundTrip(pcm, rate, channels);
    var w := Encode(pcm, rate, channels).value;
    HalfOfMultiple(|pcm|, channels);
    var frames := Reshape(pcm, channels).value;
    ToFromBytes(pcm);
    assert ToBytes(Flatten(frames)) == pcm;
  }
}
