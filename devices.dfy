/**
  Default device and sample-rate resolution of `AudioManager`, done once from
  the device list and the system defaults, and the configuration that
  `AudioManager.__init__` stores.
 */
module Devices {
  import opened Wrappers

  /** The rate used when neither default device reports one. */
  const FALLBACK_SAMPLERATE := 16000

  /** One record of `sd.query_devices()`; a missing key reads as 0 (`d.get(key, 0)`). */
  datatype DeviceInfo = DeviceInfo(maxInputChannels: Option<int>, maxOutputChannels: Option<int>)

  /** One entry of `sd.default.device`: an integer index, or anything else (a name, `None`). */
  datatype SystemDefault = Index(index: int) | NotAnIndex

  datatype Direction = Input | Output

  /** `d.get("max_input_channels", 0)` or `d.get("max_output_channels", 0)`. */
  function Channels(d: DeviceInfo, dir: Direction): int
  {
    var c := if dir == Input then d.maxInputChannels else d.maxOutputChannels;
    if c.Some? then c.value else 0
  }

  predicate Capable(d: DeviceInfo, dir: Direction)
  {
    Channels(d, dir) > 0
  }

  /**
    `next((i for i, d in enumerate(devices) if ...), 0)` started at `k`: the
    first device from `k` on with channels in direction `dir`, or 0 if none.
   */
  function FirstCapable(devices: seq<DeviceInfo>, dir: Direction, k: nat): (r: nat)
    requires k <= |devices|
    ensures (forall j :: k <= j < |devices| ==> !Capable(devices[j], dir)) ==> r == 0
    ensures (exists j :: k <= j < |devices| && Capable(devices[j], dir)) ==>
      && k <= r < |devices| && Capable(devices[r], dir)
      && forall j :: k <= j < r ==> !Capable(devices[j], dir)
    decreases |devices| - k
  {
    if k == |devices| then 0
    else if Capable(devices[k], dir) then k
    else FirstCapable(devices, dir, k + 1)
  }

  /** `DEFAULT_INPUT_INDEX` (`dir == Input`) or `DEFAULT_OUTPUT_INDEX` (`dir == Output`). */
  function DefaultIndex(sysDefault: SystemDefault, devices: seq<DeviceInfo>, dir: Direction): (r: int)
    ensures sysDefault.Index? && sysDefault.index >= 0 ==> r == sysDefault.index
    ensures !(sysDefault.Index? && sysDefault.index >= 0) ==>
      if exists j :: 0 <= j < |devices| && Capable(devices[j], dir)
      then 0 <= r < |devices| && Capable(devices[r], dir) && forall j :: 0 <= j < r ==> !Capable(devices[j], dir)
      else r == 0
  {
    if sysDefault.Index? && sysDefault.index >= 0 then sysDefault.index
    else FirstCapable(devices, dir, 0)
  }

  /** Python truthiness of an optional integer: present and non-zero. */
  predicate Truthy(o: Option<int>)
  {
    o.Some? && o.value != 0
  }

  /** `o or default`. */
  function OrDefault(o: Option<int>, default: int): int
  {
    if Truthy(o) then o.value else default
  }

  /**
    `DEFAULT_SAMPLERATE` from the default rates of the chosen input and output
    devices (`None` where the query raised): the smaller of the rates that are
    known and non-zero, or 16000 if there is none.
   */
  function DefaultSampleRate(srIn: Option<int>, srOut: Option<int>): (r: int)
    ensures !Truthy(srIn) && !Truthy(srOut) ==> r == FALLBACK_SAMPLERATE
    ensures Truthy(srIn) || Truthy(srOut) ==>
      && ((Truthy(srIn) && r == srIn.value) || (Truthy(srOut) && r == srOut.value))
      && (Truthy(srIn) ==> r <= srIn.value)
      && (Truthy(srOut) ==> r <= srOut.value)
  {
    if Truthy(srIn) && Truthy(srOut) then (if srIn.value <= srOut.value then srIn.value else srOut.value)
    else if Truthy(srIn) then srIn.value
    else if Truthy(srOut) then srOut.value
    else FALLBACK_SAMPLERATE
  }

  /** The class-level defaults of `AudioManager`. */
  datatype AudioDefaults = AudioDefaults(inputIndex: int, outputIndex: int, samplerate: int)

  /**
    The class-level selection, with the device list, `sd.default.device` and
    the default rates queried for the chosen devices as parameters. Both
    indices are non-negative; an index that did not come from the system
    default names a device with channels in its direction whenever there is
    one; and the rate is positive unless a device reported a negative one.
   */
  function ResolveDefaults(devices: seq<DeviceInfo>, defIn: SystemDefault, defOut: SystemDefault,
                           srIn: Option<int>, srOut: Option<int>): (r: AudioDefaults)
    ensures r.inputIndex >= 0 && r.outputIndex >= 0
    ensures !(defIn.Index? && defIn.index >= 0) && (exists j :: 0 <= j < |devices| && Capable(devices[j], Input)) ==>
      r.inputIndex < |devices| && Capable(devices[r.inputIndex], Input)
    ensures !(defOut.Index? && defOut.index >= 0) && (exists j :: 0 <= j < |devices| && Capable(devices[j], Output)) ==>
      r.outputIndex < |devices| && Capable(devices[r.outputIndex], Output)
    ensures (srIn.Some? ==> srIn.value >= 0) && (srOut.Some? ==> srOut.value >= 0) ==> r.samplerate > 0
  {
    AudioDefaults(DefaultIndex(defIn, devices, Input), DefaultIndex(defOut, devices, Output), DefaultSampleRate(srIn, srOut))
  }

  /** What `AudioManager.__init__` stores (the dtype is always `int16` here). */
  datatype AudioManager = AudioManager(inputDeviceIndex: int, outputDeviceIndex: int, samplerate: int,
                                       channels: int, blocksize: int)

  /** `AudioManager(samplerate, channels, blocksize)`: a truthy `samplerate` overrides the default rate. */
  function NewAudioManager(defaults: AudioDefaults, samplerate: Option<int>, channels: int, blocksize: int): (m: AudioManager)
    ensures m.inputDeviceIndex == defaults.inputIndex && m.outputDeviceIndex == defaults.outputIndex
    ensures Truthy(samplerate) ==> m.samplerate == samplerate.value
    ensures !Truthy(samplerate) ==> m.samplerate == defaults.samplerate
    ensures m.channels == channels && m.blocksize == blocksize
  {
    AudioManager(defaults.inputIndex, defaults.outputIndex, OrDefault(samplerate, defaults.samplerate), channels, blocksize)
  }

  /** The default constructor arguments: no rate, one channel, blocksize 0. */
  function DefaultAudioManager(defaults: AudioDefaults): (m: AudioManager)
    ensures m.samplerate == defaults.samplerate && m.channels == 1 && m.blocksize == 0
  {
    NewAudioManager(defaults, None, 1, 0)
  }
}
