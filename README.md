# Voice assistant core, modelled in Dafny

This project models the core of a push-to-talk voice assistant. The
`AudioManager` side covers:

- wrapping signed 16-bit PCM in a RIFF/WAVE container and reading it back;
- checking and reshaping what `play_wav` / `play_pcm16` hand to the output device;
- choosing the default devices and sample rate;
- buffering captured audio, either by polling until a stop event (`record_until`) or through a bounded queue of ten chunks (`stream_pcm16`).

The orchestrator side covers:

- the `HotkeyTap` cooldown window and its two keyboard listeners: `wait_tap`, and the `on_press` handler of `stop_on_next_press`;
- the `VoiceAgent.run` turn loop. The loop records, transcribes, replies, speaks and logs `(turn_id, user_text, assistant_text)`, and discards a turn on any failure.

Devices, threads, the keyboard and the speech providers are replaced by inputs:

- the device callbacks become sequences of blocks or chunks;
- the keyboard becomes sequences of timestamped key events;
- each provider call becomes an outcome that either returns a value or raises.

Time is an integer number of milliseconds. A `threading.Event` is a set-once flag.

Files (one module each):

| file | contents |
|---|---|
| `wrappers.dfy` | `Option` and `Result` |
| `arith.dfy` | small arithmetic lemmas (multiplication and modulus facts) |
| `pcm.dfy` | bytes, `int16` samples, little-endian packing, `tobytes` / `frombuffer` |
| `wav.dfy` | the canonical 44-byte PCM header, `Encode` / `Decode`, the `ByteBuffer` class, and the `Pcm16ToWav` / `ToWav` methods |
| `devices.dfy` | default device index and sample rate, and the `AudioManager` configuration |
| `playback.dfy` | `Reshape`, `PlayPcm16` and `PlayWav`, each as the request the device would receive |
| `capture.dfy` | the `RecordUntil` poll loop, `Blocksize`, the `ChunkQueue` class, the `StreamPcm16` method and its schedule semantics |
| `signals.dfy` | the set-once `Signal` class |
| `hotkey.dfy` | cooldown, the stop listener and the `wait_tap` recogniser (as functions and lemmas), and the `HotkeyTap` class |
| `agent.dfy` | the `Session` semantics of the turn loop, its lemmas, and the `TurnLogger` and `VoiceAgent` classes |

The container layout produced by Python's `wave` module is modelled as the
canonical PCM header (RIFF size, `WAVE`, a 16-byte `fmt ` chunk, then
`data`), as in the Multimedia Programming Interface and Data Specifications
1.0 (IBM/Microsoft, 1991). The writer records the whole-frame length first
and patches both size fields once the written byte count is known. The
reader reads the `data` chunk from inside the RIFF chunk, so the RIFF size
limits what it returns. It returns the whole frames of the declared data
size, or fewer bytes where the container or its RIFF chunk ends first. In
that case the read may stop part-way through a frame.

## Model

| member | source | states |
|---|---|---|
| Pcm.LE16 | src/audio.py:207-215 | the two bytes read back least-significant first give the packed value |
| Pcm.LE32 | src/audio.py:207-215 | the four bytes read back least-significant first give the packed value |
| Pcm.ToBytes | src/audio.py:217-225 | `tobytes` gives two bytes per sample |
| Pcm.FromBytes | src/audio.py:164 | `frombuffer` on an even-length buffer gives half as many samples |
| Pcm.FromToBytes | src/audio.py:164 | reading back the bytes of a sample sequence returns exactly that sequence |
| Pcm.ToFromBytes | src/audio.py:201-204 | re-encoding the samples of an even-length buffer gives back the same bytes |
| Pcm.ToBytesAppend | src/audio.py:217-225 | `tobytes` of a concatenation is the concatenation of the bytes |
| Wav.HeaderWith | src/audio.py:207-215 | the header is always 44 bytes |
| Wav.Encode | src/audio.py:207-215 | success exactly when every header field fits its slot. The result is 44 bytes of header followed by the PCM unchanged. Channels below 1 and a rate of 0 or less are rejected first |
| Wav.WholeFrameBytes | src/audio.py:227-235 | the whole-frame byte count is a multiple of the frame size, at most the input, less than one frame short of it, and equal to it for whole frames |
| Wav.ReadHeader | src/audio.py:227-235 | a header that is accepted is at least 44 bytes long, with at least one channel and a positive sample width. Its RIFF chunk ends at `8 + ` the RIFF size, at or after the header's end. A RIFF size below 4 cannot hold the form type and is "not a WAVE file" |
| Wav.ReadFrames | src/audio.py:233-234 | the raw bytes follow the header, inside both the container and the RIFF chunk, and are no more than the declared data size. When both hold the declared data's whole frames, exactly those are returned |
| Wav.Decode | src/audio.py:227-235 | decoding succeeds exactly when the header is accepted. The raw bytes then follow the header, inside the container and inside the RIFF chunk |
| Wav.EmptyRiffIsNotWave | src/audio.py:229 | a container whose RIFF size is 0 is rejected as not a WAVE file |
| Wav.RiffChunkLimitsData | src/audio.py:229-234 | with a RIFF size of 38, a declared data size of 100 and 100 bytes present, only the 2 bytes inside the RIFF chunk are read |
| Wav.HeaderFields | src/audio.py:207-215 | each header field reads back as the value written there |
| Wav.ReadHeaderWith | src/audio.py:227-235 | the reader accepts any header the writer produces and returns its fields |
| Wav.DecodeEncode | src/audio.py:207-235 | decoding an encoded container gives channels, rate, width 2 and the PCM cut to whole frames |
| Wav.ReadFramesAfter | src/audio.py:227-235 | after a 44-byte header, the frames read are the whole frames of what follows |
| Wav.RoundTrip | src/audio.py:207-235 | when the PCM is whole frames, decoding the encoded container gives back exactly channels, rate, width 2 and the PCM |
| Wav.PatchSizes | src/audio.py:207-215 | rewriting the RIFF and data sizes at offsets 4 and 40 turns one header into the header with the new sizes |
| Wav.ByteBuffer.Write | src/audio.py:207-215 | the buffer grows by exactly the written bytes |
| Wav.ByteBuffer.Patch | src/audio.py:207-215 | the bytes at the position are replaced and nothing else changes |
| Wav.Pcm16ToWav | src/audio.py:207-215 | the bytes written (header, then all the PCM, then the patched sizes) are exactly `Encode`, including its errors |
| Wav.ToWav | src/audio.py:217-225 | `_to_wav(arr)` produces the same bytes as `pcm16_to_wav(arr.tobytes())` |
| Devices.FirstCapable | src/audio.py:18 | returns the first device from the start index on that has channels in the requested direction, and 0 when there is none |
| Devices.DefaultIndex | src/audio.py:15-24 | a non-negative integer system default wins. Otherwise the result is the index of the first device with channels in that direction, or 0 |
| Devices.DefaultSampleRate | src/audio.py:33-35 | 16000 when neither rate is known and non-zero. Otherwise one of the known rates, and no larger than any known rate (the minimum when both are known) |
| Devices.ResolveDefaults | src/audio.py:15-35 | both default indices are non-negative. An index not taken from the system default names a device with channels in its direction whenever one exists. The default rate is positive unless a device reported a negative rate |
| Devices.NewAudioManager | src/audio.py:37-51 | the default device indices are stored; a truthy `samplerate` overrides the default rate; channels and blocksize are stored as given |
| Devices.DefaultAudioManager | src/audio.py:37-51 | the default arguments give the default rate, one channel and blocksize 0 |
| Playback.ToFrames | src/audio.py:165 | the frames all have the same width, and flattening them gives back the samples in order |
| Playback.Reshape | src/audio.py:164-165 | an odd byte count and a sample count that is not whole frames both fail, and every other buffer succeeds. On success the frames hold the buffer's samples in order: `len / (2*w)` frames of `w` samples, where `w` is `ch` when `ch > 1` and 1 otherwise |
| Playback.PlayPcm16 | src/audio.py:150-187 | empty input has no effect. Otherwise the device gets the reshaped frames, the rate and channel count (from the argument or the manager), and the output device; it waits when a stop event is given or `blocking` is set |
| Playback.PlayWav | src/audio.py:189-205 | empty input has no effect. A decoding error is raised. The width error is raised exactly when a non-empty container decodes with a width other than 2, before anything is played. A 16-bit container plays exactly as `play_pcm16` of its raw bytes at its own rate and channel count, because `frombuffer`, `reshape` and `tobytes` return the bytes unchanged |
| Playback.EncodedWavPlays | src/audio.py:189-215 | a container written from whole frames plays exactly those frames at its rate, and plays nothing for empty PCM |
| Capture.Concat | src/audio.py:100 | the concatenation, built by appending each block as it arrives, is the first block followed by the concatenation of the rest; no blocks give no samples |
| Capture.RecordUntil | src/audio.py:67-103 | the loop stops at the first poll where the stop event is seen or the summed poll steps reach the timeout. Without a timeout, only the stop event ends it. The result is the container of every captured block in arrival order; no samples at all if none arrived |
| Capture.RecordedAudioDecodes | src/audio.py:100-103 | a recording of whole frames decodes to exactly its samples |
| Capture.Blocksize | src/audio.py:115 | the blocksize is at least 1, and `samplerate * chunk_ms / 1000` truncated once that product is at least one frame |
| Capture.ChunkQueue.PutNowait | src/audio.py:117-123 | never blocks: the chunk is appended when fewer than 10 are queued, and dropped otherwise. The bound of 10 is kept |
| Capture.ChunkQueue.Get | src/audio.py:136-140 | returns the oldest chunk and removes it, or nothing when the queue is empty |
| Capture.ChunkQueue.Drain | src/audio.py:144-148 | the queue is empty after teardown |
| Capture.Step | src/audio.py:114-140 | one step of the schedule keeps the queue within 10. It keeps accepted chunks equal to those yielded followed by those queued, and appends, drops or yields as the queue dictates |
| Capture.Run | src/audio.py:114-140 | running a schedule keeps the queue invariant |
| Capture.Stream | src/audio.py:105-148 | every session ends with the generator closed and the queue drained. The consumer got the accepted chunks in order, all but at most 10 of them (those still queued at the end). Every delivered chunk was accepted or dropped |
| Capture.StreamPcm16 | src/audio.py:105-148 | the blocksize is `Blocksize`, and the chunks yielded and dropped are those of the schedule semantics `Stream` |
| Capture.RunAppend | src/audio.py:136-140 | running two schedules one after the other is running their concatenation |
| Capture.ArrivalsQueue | src/audio.py:117-123 | chunks that find room queue up behind the waiting ones, in order |
| Capture.ArrivalsDropped | src/audio.py:120-123 | chunks that find the queue full are all dropped, and the queue is unchanged |
| Capture.PullsYield | src/audio.py:136-140 | while stop is unset, enough pulls yield every queued chunk, oldest first |
| Capture.Overflow | src/audio.py:114-140 | delivering more than 10 chunks before the consumer pulls yields exactly the first 10, in order, and drops the rest |
| Signals.Signal.Set | src/orchestrator.py:56-65 | once set, the flag stays set |
| Hotkey.Restarted | src/orchestrator.py:36-39 | after a restart with a positive cooldown, a press at `t` is in cooldown exactly when `t < now + cooldown`, and one at `now` is. Otherwise the presses in cooldown are the same as before |
| Hotkey.InCooldown | src/orchestrator.py:41-43 | a press at `now` is in cooldown exactly when it comes before the window's end |
| Hotkey.PressDecision | src/orchestrator.py:96-108 | the listener stops exactly on an exit press, or on a trigger press outside the cooldown; stop is set exactly when it stops; shutdown is set exactly on exit. The window changes only on a trigger press that stops the listener, and is restarted then |
| Hotkey.Listen | src/orchestrator.py:96-115 | a listener still running has set nothing. An exit press sets stop and shutdown and leaves the window alone. A trigger press sets stop but not shutdown |
| Hotkey.ListenSkips | src/orchestrator.py:101-104 | presses of other keys, and trigger presses in the cooldown, change neither event nor the window |
| Hotkey.ListenStopsAtFirstDecisive | src/orchestrator.py:96-108 | the first exit press, or trigger press outside the cooldown, decides everything; nothing after it is looked at, so stop is set at most once |
| Hotkey.ArmedInCooldown | src/orchestrator.py:101-104 | a listener armed within the cooldown ignores every trigger press made before the window closes |
| Hotkey.TriggerDebounce | src/orchestrator.py:96-108 | a first trigger press stops its listener and opens the window. A second trigger press stops the next listener exactly when it comes at or after the window's end |
| Hotkey.DefaultDebounce | src/orchestrator.py:20-34 | with the default keys (space, escape, 0.8 s), a first space press stops its listener, and a second press stops the next listener only from 800 ms after the first |
| Hotkey.WaitTapRun | src/orchestrator.py:59-69 | once the press has been seen, the window no longer changes; without a press there is no tap |
| Hotkey.WaitTapOutcome | src/orchestrator.py:59-76 | the wait ends with false exactly when exit is pressed before a tap completes, and with true exactly when a tap completes before any exit press |
| Hotkey.WaitTapFalseIffExitFirst | src/orchestrator.py:59-76 | a fresh wait returns false exactly when the exit key goes down before a trigger press has been followed by a trigger release |
| Hotkey.ReleaseWithoutPressIgnored | src/orchestrator.py:67-69 | a trigger release with no prior trigger press does not end the wait |
| Hotkey.OnlyFirstPressSetsCooldown | src/orchestrator.py:63-65 | the first trigger press of a wait restarts the window from that press, and later presses leave it |
| Hotkey.HotkeyTap.constructor | src/orchestrator.py:24-34 | keys and cooldown as given; the window end is 0, so there is no cooldown at start |
| Hotkey.HotkeyTap.SetCooldown | src/orchestrator.py:36-43 | the window is restarted only for a positive cooldown; in cooldown exactly before `now + cooldown` |
| Hotkey.HotkeyTap.WaitTap | src/orchestrator.py:45-76 | returns `WaitTapRun`'s verdict (true for a tap, false for exit) and leaves the object's window where `WaitTapRun` puts it |
| Hotkey.HotkeyTap.OnStopPress | src/orchestrator.py:96-108 | sets stop, shutdown and the window as `PressDecision` says, and tells the listener whether to go on |
| Hotkey.HotkeyTap.StopOnNextPress | src/orchestrator.py:78-115 | the listener thread's effect on both events and on the window is `Listen` over the key events it sees |
| Agent.TrimStart | src/orchestrator.py:163 | `lstrip()` cuts only whitespace and leaves a suffix that is empty exactly when the string is all whitespace, and otherwise starts with a non-whitespace character |
| Agent.TrimEnd | src/orchestrator.py:163 | `rstrip()` cuts only whitespace and leaves a prefix that is empty exactly when the string is all whitespace, and otherwise ends with a non-whitespace character |
| Agent.Strip | src/orchestrator.py:163 | `strip()` gives a slice of the string from which only whitespace was cut at either end, and that neither starts nor ends with whitespace |
| Agent.Blank | src/orchestrator.py:163-173 | `not s.strip()` is modelled as "every character is whitespace" |
| Agent.StripEmpty | src/orchestrator.py:163 | `s.strip()` is empty exactly when every character of `s` is whitespace (the empty string included) |
| Agent.RunAttempt | src/orchestrator.py:147-195 | an exit during recording ends the iteration with shutdown and no entry. A failed or blank transcript or reply ends it with no entry and shutdown unset, leaving the window where the recording listener put it. Shutdown is set exactly when a listener saw an exit press, the playback one only if both texts came back. A turn is logged exactly when every provider delivered non-blank text, the speech encodes, and the playback listener saw no exit. The entry is the transcript and the reply |
| Agent.Session | src/orchestrator.py:143-195 | at most one entry per iteration; nothing once shutdown is set |
| Agent.SessionTurnIds | src/orchestrator.py:143-195 | logged turn ids are `turn, turn+1, …` with no gaps |
| Agent.SessionTextsNonBlank | src/orchestrator.py:157-174 | every logged transcript and reply is non-blank after `strip()` |
| Agent.SessionStep | src/orchestrator.py:145-195 | the loop is the current iteration's entry followed by the rest of the loop |
| Agent.DiscardedAttemptLeavesNoTrace | src/orchestrator.py:157-187 | a discarded iteration logs nothing and the next one keeps the same turn number |
| Agent.ShutdownEndsSession | src/orchestrator.py:145-154 | an iteration that sets shutdown, during recording or playback, logs nothing, and no later iteration runs |
| Agent.TriggerAbortStillLogs | src/orchestrator.py:189-195 | a playback cut short by the trigger alone, with shutdown unset, still logs the turn |
| Agent.NoExitNoShutdown | src/orchestrator.py:96-100 | a listener that sees no exit press never sets shutdown |
| Agent.DiscardAndRetry | src/orchestrator.py:157-195 | a failed transcription followed by a successful turn logs exactly `Turn(1, "hello", "hi there")` |
| Agent.TwoTurns | src/orchestrator.py:143-195 | two full turns log `Turn(1, …)` and `Turn(2, …)`, in order |
| Agent.SpeechPlays | src/orchestrator.py:182-189 | speech that `pcm16_to_wav` wraps at 16 kHz mono is always accepted by `play_wav` |
| Agent.RecordTimeoutAsWritten | src/orchestrator.py:151 | with the timeout as passed, a recording nobody stops is still running after ten seconds of polling, and ends only after poll 499999 |
| Agent.RecordTimeoutCapped | src/orchestrator.py:151 | with a ten-second timeout, every recording ends by poll 499, and before that only the stop event ends it |
| Agent.TurnLogger.Log | src/orchestrator.py:194 | appends exactly one record |
| Agent.VoiceAgent.constructor | src/orchestrator.py:118-134 | the audio manager, hotkeys and logger are stored as given; the shutdown event starts unset |
| Agent.VoiceAgent.RunTurn | src/orchestrator.py:147-195 | one loop body: sets the window, shutdown and log entries exactly as `RunAttempt` says, and logs under the given turn number |
| Agent.VoiceAgent.Turns | src/orchestrator.py:143-195 | the loop appends exactly `Session`'s log, and ends with its window and shutdown |
| Agent.VoiceAgent.Run | src/orchestrator.py:137-200 | an exit instead of the first tap logs nothing; after a tap, the log grows by exactly `Session` from turn 1 |

## Left out

- The sounddevice calls (`sd.rec`, `sd.wait`, `sd.InputStream`, `sd.play`, `sd.stop`, `sd.sleep`, `sd.query_devices`) are hardware I/O. They become parameters: the device list and defaults, the callback's blocks and chunks, and the play request that `PlayPcm16` returns.
- `record_seconds` is not modelled: its `int(samplerate * seconds)` frame count is floating point.
- All floating point is replaced by integer milliseconds. This covers the poll step and `elapsed` accumulation in `record_until`, the blocksize product in `stream_pcm16`, the cooldown in seconds (0.8 becomes 800 ms), and `time.monotonic()`, which becomes the time stamp of each key event.
- Threads and their timing are left out: the playback supervisor thread and its `join(timeout=1.0)`, the listener threads and `join(timeout=0.5)`, and the lock around `_cool_until`. The model composes phases in sequence. A listener thread that is still running after its `join` timeout, and keys it goes on to see, are not modelled.
- The `pynput` listener mechanics are left out. Only the `on_press` / `on_release` handlers are modelled, over sequences of key events.
- Python `wave` is a foreign library. Only the canonical 44-byte PCM layout is decoded. Other chunk arrangements (a `LIST` chunk before `data`, extensible format) give `UnsupportedLayout`, where `wave` might accept them. A RIFF chunk that ends inside the 44-byte header fails with `Truncated`; `wave` raises an end-of-file error or reports a missing chunk there. The error kinds are the model's own; only failure versus success follows `wave`.
- The `dtype` argument is fixed to `int16`, and the `latency` argument has no effect. The `astype` conversion in `record_until` is the identity on `int16` blocks.
- Printing (`print(status)`, `"queue full"`, provider error messages) and the `KeyboardInterrupt` handler of `run` are left out.
- Left out because they are not part of the core: the speech-to-text, LLM and text-to-speech providers (their outcomes are inputs), the logger's file format and timestamps (an append-only sequence here), and configuration loading with `build_agent`.
- Errors that `record_until` or `play_wav` could raise from the device would propagate out of `run`. So would the `wave.Error` or `struct.error` that `_to_wav` raises inside `record_until` (src/audio.py:103, 217-225) when the manager's sample rate is not positive, the byte rate does not fit its 32-bit field, or the recording exceeds 4 GiB. None of these is modelled. The model does prove that `play_wav` accepts every container the loop builds (`Agent.SpeechPlays`).
- Capture.RecordUntil: requires the loop to end, with the stop event eventually seen or a reachable timeout. The source would poll forever otherwise.
- Hotkey.HotkeyTap.WaitTap: requires the key events to end the listener. `wait_tap` blocks forever otherwise.
- Agent.VoiceAgent.RunTurn: does not stop when the recording fails to encode (`RecordUntil` returns a `Failure`). The model goes on to transcription, whereas in the source that exception leaves the loop and ends `run`. `Wav.Encode` states exactly when encoding fails.
- Agent.VoiceAgent.Run: covers a finite prefix of loop iterations. The source loops until shutdown.
- Agent.Attempt: the transcript does not depend on the recorded container, because the transcription provider is abstract. The same holds for the reply and the synthesised speech.
- Capture.StreamPcm16: the consumer is modelled as pulls in a schedule of events, and the end of the schedule as closing the generator. `get(timeout=0.1)` on an empty queue is a pull that yields nothing.
- Hotkey.TriggerDebounce: a press exactly at the end of the cooldown window counts as outside it, since `_in_cooldown` is `now < _cool_until`.

## Findings

| source | as written | input that shows it | evidently intended | confidence | as-written member | corrected member |
|---|---|---|---|---|---|---|
| src/orchestrator.py:151 | `record_until(stop_rec, channels=1, timeout=10_000.0)`, but `record_until` adds `poll_ms / 1000.0` seconds per poll and compares the sum with `timeout`, so the cap is 10,000 seconds | a recording in which the trigger key is never pressed: still running at 10 s, and stopped only after 500,000 polls of 20 ms | a ten-second cap on one recording (500 polls) | medium, not executed | Agent.RecordTimeoutAsWritten | Agent.RecordTimeoutCapped (the timeout `Agent.VoiceAgent.RunTurn` uses) |
