/**
  `VoiceAgent.run`: wait for a first tap, then loop over turns: record until
  the trigger key (or the timeout), transcribe, ask for a reply, synthesise
  and play it, and log the completed turn. Any provider failure or blank
  text discards the turn; the exit key, pressed during recording or
  playback, ends the loop.

  The providers are abstract: each loop iteration is described by what its
  listeners see and what each provider call returns or raises.
 */
module Agent {
  import opened Wrappers
  import opened Pcm
  import opened Wav
  import opened Devices
  import opened Playback
  import opened Capture
  import opened Signals
  import opened Hotkey

  /** The rate of the synthesiser's PCM, as `run` states it to `pcm16_to_wav`. */
  const TTS_SAMPLERATE := 16000
  /** `record_until`'s default poll step. */
  const POLL_MS := 20
  /**
    `timeout=10_000.0` as `run` passes it: `record_until` counts its timeout
    in seconds, so this is ten thousand seconds.
   */
  const RECORD_TIMEOUT_AS_WRITTEN_MS := 10_000 * 1000
  /** The ten-second cap on one recording that the call evidently means. */
  const RECORD_TIMEOUT_MS := 10_000

  /** One log record: `log(turn_id, user_text, assistant_text)`. */
  datatype Turn = Turn(turnId: nat, userText: string, assistantText: string)

  /** What a provider call did. */
  datatype Outcome<T> = Returned(value: T) | Raised

  /**
    One iteration of the loop: the key events each listener handles, when the
    recording loop sees a stop set by its listener, the blocks its callback
    delivers, and the outcomes of the three provider calls.
   */
  datatype Attempt = Attempt(
    recordKeys: seq<KeyEvent>,
    recordStopPoll: nat,
    recordBlocks: nat -> seq<Block>,
    transcript: Outcome<string>,
    reply: Outcome<string>,
    speech: Outcome<seq<byte>>,
    playKeys: seq<KeyEvent>)

  /** The characters Python's `str.isspace` accepts, which `strip()` removes. */
  predicate IsSpace(c: char)
  {
    var n := c as int;
    || n == 0x20 || 0x09 <= n <= 0x0d || 0x1c <= n <= 0x1f || n == 0x85 || n == 0xa0
    || n == 0x1680 || 0x2000 <= n <= 0x200a || n == 0x2028 || n == 0x2029
    || n == 0x202f || n == 0x205f || n == 0x3000
  }

  /** `s.lstrip()`: the leading whitespace removed. */
  function TrimStart(s: string): (t: string)
    ensures |t| <= |s| && t == s[|s| - |t|..]
    ensures t == [] <==> forall i :: 0 <= i < |s| ==> IsSpace(s[i])
    ensures t != [] ==> !IsSpace(t[0])
    ensures forall i :: 0 <= i < |s| - |t| ==> IsSpace(s[i])
  {
    if s != [] && IsSpace(s[0]) then TrimStart(s[1..]) else s
  }

  /** `s.rstrip()`: the trailing whitespace removed. */
  function TrimEnd(s: string): (t: string)
    ensures |t| <= |s| && t == s[..|t|]
    ensures t == [] <==> forall i :: 0 <= i < |s| ==> IsSpace(s[i])
    ensures t != [] ==> !IsSpace(t[|t| - 1])
    ensures forall i :: |t| <= i < |s| ==> IsSpace(s[i])
  {
    if s != [] && IsSpace(s[|s| - 1]) then TrimEnd(s[..|s| - 1]) else s
  }

  /** Every character of `s` outside `s[lo..hi]` is whitespace. */
  predicate SpaceOutside(s: string, lo: nat, hi: nat)
    requires lo <= hi <= |s|
  {
    forall i :: 0 <= i < |s| && (i < lo || hi <= i) ==> IsSpace(s[i])
  }

  /**
    `s.strip()`: the run of `s` left once only whitespace is cut from either
    end, and that neither starts nor ends with whitespace.
   */
  function Strip(s: string): (t: string)
    ensures exists lo: nat, hi: nat :: lo <= hi <= |s| && t == s[lo..hi] && SpaceOutside(s, lo, hi)
    ensures t != [] ==> !IsSpace(t[0]) && !IsSpace(t[|t| - 1])
  {
    var u := TrimStart(s);
    var t := TrimEnd(u);
    StripSlice(s, u, t);
    t
  }

  /** Cutting whitespace from the front of `s` and then from the back of what is left cuts only whitespace. */
  lemma StripSlice(s: string, u: string, t: string)
    requires |u| <= |s| && u == s[|s| - |u|..] && |t| <= |u| && t == u[..|t|]
    requires forall i :: 0 <= i < |s| - |u| ==> IsSpace(s[i])
    requires forall j :: |t| <= j < |u| ==> IsSpace(u[j])
    ensures var lo := |s| - |u|; t == s[lo..lo + |t|] && SpaceOutside(s, lo, lo + |t|)
  {
    var lo := |s| - |u|;
    var hi := lo + |t|;
    assert s[lo..hi] == u[..|t|];
    forall i | 0 <= i < |s| && (i < lo || hi <= i)
      ensures IsSpace(s[i])
    {
      if i >= lo {
        assert s[i] == u[i - lo];
      }
    }
  }

  /** `not s.strip()`, as the strings made of whitespace only (the empty one included); see `StripEmpty`. */
  predicate Blank(s: string)
  {
    forall i :: 0 <= i < |s| ==> IsSpace(s[i])
  }

  /** `s.strip()` is empty exactly for the blank strings. */
  lemma StripEmpty(s: string)
    ensures Strip(s) == [] <==> Blank(s)
  {
    var t := TrimStart(s);
    if t != [] {
      assert !IsSpace(t[0]);
    }
  }

  /** How one iteration ends: the pair it logs, if any, the cooldown window and the shutdown event. */
  datatype AttemptResult = AttemptResult(entry: Option<(string, string)>, coolUntil: int, shutdown: bool)

  /** The synthesised speech is there and `pcm16_to_wav` wraps it. */
  predicate SpeechOk(speech: Outcome<seq<byte>>)
  {
    speech.Returned? && Encode(speech.value, TTS_SAMPLERATE, 1).Success?
  }

  /** Both text providers returned non-blank text. */
  predicate TextsOk(a: Attempt)
  {
    && a.transcript.Returned? && !Blank(a.transcript.value)
    && a.reply.Returned? && !Blank(a.reply.value)
  }

  /** Every phase of the iteration delivered: non-blank text from both providers and speech that encodes. */
  predicate Delivered(a: Attempt)
  {
    TextsOk(a) && SpeechOk(a.speech)
  }

  /** One iteration of the loop body, started with the shutdown event unset. */
  function RunAttempt(k: Keys, coolUntil: int, a: Attempt): (r: AttemptResult)
    ensures var rec := Listen(k, coolUntil, a.recordKeys);
      rec.shutdown ==> r == AttemptResult(None, rec.coolUntil, true)
    ensures var rec := Listen(k, coolUntil, a.recordKeys);
      r.entry.Some? <==> !rec.shutdown && Delivered(a) && !Listen(k, rec.coolUntil, a.playKeys).shutdown
    ensures r.entry.Some? ==> !r.shutdown && r.entry.value == (a.transcript.value, a.reply.value)
    ensures var rec := Listen(k, coolUntil, a.recordKeys);
      !rec.shutdown && !TextsOk(a) ==> r == AttemptResult(None, rec.coolUntil, false)
    ensures var rec := Listen(k, coolUntil, a.recordKeys);
      !rec.shutdown && TextsOk(a) ==> r.coolUntil == Listen(k, rec.coolUntil, a.playKeys).coolUntil
    ensures var rec := Listen(k, coolUntil, a.recordKeys);
      r.shutdown <==> rec.shutdown || (TextsOk(a) && Listen(k, rec.coolUntil, a.playKeys).shutdown)
  {
    var rec := Listen(k, coolUntil, a.recordKeys);
    if rec.shutdown then AttemptResult(None, rec.coolUntil, true)
    else if a.transcript.Raised? || Blank(a.transcript.value) then AttemptResult(None, rec.coolUntil, false)
    else if a.reply.Raised? || Blank(a.reply.value) then AttemptResult(None, rec.coolUntil, false)
    else
      var play := Listen(k, rec.coolUntil, a.playKeys);
      if !SpeechOk(a.speech) || play.shutdown then AttemptResult(None, play.coolUntil, play.shutdown)
      else AttemptResult(Some((a.transcript.value, a.reply.value)), play.coolUntil, false)
  }

  /** The log, cooldown window and shutdown event after the loop runs over `attempts`. */
  datatype SessionResult = SessionResult(log: seq<Turn>, coolUntil: int, shutdown: bool)

  /**
    The `while not shutdown` loop from turn number `turn`, over (a prefix of)
    its iterations. At most one entry is logged per iteration, and nothing
    once shutdown is set.
   */
  function Session(k: Keys, coolUntil: int, shutdown: bool, turn: nat, attempts: seq<Attempt>): (r: SessionResult)
    ensures |r.log| <= |attempts|
    ensures shutdown ==> r == SessionResult([], coolUntil, true)
    ensures !r.shutdown ==> !shutdown
    decreases |attempts|
  {
    if shutdown || attempts == [] then SessionResult([], coolUntil, shutdown)
    else
      var a := RunAttempt(k, coolUntil, attempts[0]);
      var logged := if a.entry.Some? then [Turn(turn, a.entry.value.0, a.entry.value.1)] else [];
      var rest := Session(k, a.coolUntil, a.shutdown, turn + |logged|, attempts[1..]);
      SessionResult(logged + rest.log, rest.coolUntil, rest.shutdown)
  }

  /** The logged turn ids run `turn`, `turn + 1`, ... without a gap. */
  lemma {:induction false} SessionTurnIds(k: Keys, coolUntil: int, shutdown: bool, turn: nat, attempts: seq<Attempt>)
    ensures forall j :: 0 <= j < |Session(k, coolUntil, shutdown, turn, attempts).log| ==>
      Session(k, coolUntil, shutdown, turn, attempts).log[j].turnId == turn + j
    decreases |attempts|
  {
    if !shutdown && attempts != [] {
      var a := RunAttempt(k, coolUntil, attempts[0]);
      var logged := if a.entry.Some? then [Turn(turn, a.entry.value.0, a.entry.value.1)] else [];
      var rest := Session(k, a.coolUntil, a.shutdown, turn + |logged|, attempts[1..]).log;
      var log := Session(k, coolUntil, shutdown, turn, attempts).log;
      assert log == logged + rest;
      SessionTurnIds(k, a.coolUntil, a.shutdown, turn + |logged|, attempts[1..]);
      forall j | 0 <= j < |log|
        ensures log[j].turnId == turn + j
      {
        if j < |logged| {
          assert log[j] == logged[j];
        } else {
          assert log[j] == rest[j - |logged|];
        }
      }
    }
  }

  /** Every logged user text and reply is non-blank. */
  lemma {:induction false} SessionTextsNonBlank(k: Keys, coolUntil: int, shutdown: bool, turn: nat, attempts: seq<Attempt>)
    ensures forall j :: 0 <= j < |Session(k, coolUntil, shutdown, turn, attempts).log| ==>
      && !Blank(Session(k, coolUntil, shutdown, turn, attempts).log[j].userText)
      && !Blank(Session(k, coolUntil, shutdown, turn, attempts).log[j].assistantText)
    decreases |attempts|
  {
    if !shutdown && attempts != [] {
      var a := RunAttempt(k, coolUntil, attempts[0]);
      var logged := if a.entry.Some? then [Turn(turn, a.entry.value.0, a.entry.value.1)] else [];
      var rest := Session(k, a.coolUntil, a.shutdown, turn + |logged|, attempts[1..]).log;
      var log := Session(k, coolUntil, shutdown, turn, attempts).log;
      assert log == logged + rest;
      SessionTextsNonBlank(k, a.coolUntil, a.shutdown, turn + |logged|, attempts[1..]);
      forall j | 0 <= j < |log|
        ensures !Blank(log[j].userText) && !Blank(log[j].assistantText)
      {
        if j < |logged| {
          assert log[j] == logged[j];
        } else {
          assert log[j] == rest[j - |logged|];
        }
      }
    }
  }

  /** The loop from iteration `i` on: that iteration's entry, then the rest. */
  lemma SessionStep(k: Keys, coolUntil: int, turn: nat, attempts: seq<Attempt>, i: nat)
    requires i < |attempts|
    ensures var r := RunAttempt(k, coolUntil, attempts[i]);
      var logged := if r.entry.Some? then [Turn(turn, r.entry.value.0, r.entry.value.1)] else [];
      var rest := Session(k, r.coolUntil, r.shutdown, turn + |logged|, attempts[i + 1..]);
      Session(k, coolUntil, false, turn, attempts[i..]) == SessionResult(logged + rest.log, rest.coolUntil, rest.shutdown)
  {
    assert attempts[i..][0] == attempts[i] && attempts[i..][1..] == attempts[i + 1..];
  }

  /** `acc` followed by the loop from iteration `i` is the whole session. */
  ghost predicate Tracks(total: SessionResult, acc: seq<Turn>, rest: SessionResult)
  {
    total.log == acc + rest.log && total.coolUntil == rest.coolUntil && total.shutdown == rest.shutdown
  }

  /** Running iteration `i` moves its entry, if any, from the rest of the session to `acc`. */
  lemma Advance(k: Keys, total: SessionResult, acc: seq<Turn>, coolUntil: int, turn: nat, attempts: seq<Attempt>, i: nat)
    requires i < |attempts|
    requires Tracks(total, acc, Session(k, coolUntil, false, turn, attempts[i..]))
    ensures var r := RunAttempt(k, coolUntil, attempts[i]);
      var logged := if r.entry.Some? then [Turn(turn, r.entry.value.0, r.entry.value.1)] else [];
      Tracks(total, acc + logged, Session(k, r.coolUntil, r.shutdown, turn + |logged|, attempts[i + 1..]))
  {
    SessionStep(k, coolUntil, turn, attempts, i);
  }

  /** A discarded iteration leaves no trace: no log entry, and the next one keeps the turn number. */
  lemma DiscardedAttemptLeavesNoTrace(k: Keys, coolUntil: int, turn: nat, a: Attempt, rest: seq<Attempt>)
    requires RunAttempt(k, coolUntil, a).entry.None?
    ensures var r := RunAttempt(k, coolUntil, a);
      Session(k, coolUntil, false, turn, [a] + rest) == Session(k, r.coolUntil, r.shutdown, turn, rest)
  {
    assert ([a] + rest)[0] == a && ([a] + rest)[1..] == rest;
  }

  /**
    An iteration in which the exit key sets shutdown, during recording or
    during playback, logs nothing, and no later iteration runs.
   */
  lemma ShutdownEndsSession(k: Keys, coolUntil: int, turn: nat, a: Attempt, rest: seq<Attempt>)
    requires RunAttempt(k, coolUntil, a).shutdown
    ensures Session(k, coolUntil, false, turn, [a] + rest) == SessionResult([], RunAttempt(k, coolUntil, a).coolUntil, true)
  {
    assert ([a] + rest)[0] == a && ([a] + rest)[1..] == rest;
  }

  /** A playback cut short by the trigger key alone still completes the turn, which is logged. */
  lemma TriggerAbortStillLogs(k: Keys, coolUntil: int, turn: nat, a: Attempt, rest: seq<Attempt>)
    requires !Listen(k, coolUntil, a.recordKeys).shutdown && Delivered(a)
    requires Listen(k, Listen(k, coolUntil, a.recordKeys).coolUntil, a.playKeys).end == EndedByTrigger
    ensures var s := Session(k, coolUntil, false, turn, [a] + rest);
      |s.log| >= 1 && s.log[0] == Turn(turn, a.transcript.value, a.reply.value)
  {
    assert ([a] + rest)[0] == a && ([a] + rest)[1..] == rest;
  }

  /** A listener that sees no exit press never sets shutdown. */
  lemma {:induction false} NoExitNoShutdown(k: Keys, coolUntil: int, es: seq<KeyEvent>)
    requires forall i :: 0 <= i < |es| ==> !IsPress(es[i], k.exit)
    ensures !Listen(k, coolUntil, es).shutdown
    decreases |es|
  {
    if es != [] {
      NoExitNoShutdown(k, coolUntil, es[1..]);
    }
  }

  /** The exit key is not pressed during either listener of the iteration. */
  predicate NoExit(k: Keys, a: Attempt)
  {
    && (forall i :: 0 <= i < |a.recordKeys| ==> !IsPress(a.recordKeys[i], k.exit))
    && (forall i :: 0 <= i < |a.playKeys| ==> !IsPress(a.playKeys[i], k.exit))
  }

  /** The end-to-end exchange: "hello" transcribed, "hi there" replied, speech that encodes. */
  predicate HelloExchange(a: Attempt)
  {
    a.transcript == Returned("hello") && a.reply == Returned("hi there") && SpeechOk(a.speech)
  }

  lemma HelloNotBlank()
    ensures !Blank("hello") && !Blank("hi there")
  {
    assert !IsSpace("hello"[0]);
    assert !IsSpace("hi there"[0]);
  }

  /**
    Discard and retry: a transcription that fails on the first iteration and
    succeeds on the second leaves exactly one logged turn, numbered 1.
   */
  lemma DiscardAndRetry(k: Keys, coolUntil: int, a1: Attempt, a2: Attempt)
    requires NoExit(k, a1) && NoExit(k, a2)
    requires a1.transcript == Raised && HelloExchange(a2)
    ensures Session(k, coolUntil, false, 1, [a1, a2]).log == [Turn(1, "hello", "hi there")]
  {
    HelloNotBlank();
    NoExitNoShutdown(k, coolUntil, a1.recordKeys);
    var r1 := RunAttempt(k, coolUntil, a1);
    NoExitNoShutdown(k, r1.coolUntil, a2.recordKeys);
    NoExitNoShutdown(k, Listen(k, r1.coolUntil, a2.recordKeys).coolUntil, a2.playKeys);
    assert [a1, a2][1..] == [a2] && [a2][1..] == [];
  }

  /** Two full turns in a row are logged in order with turn ids 1 and 2. */
  lemma TwoTurns(k: Keys, coolUntil: int, a1: Attempt, a2: Attempt)
    requires NoExit(k, a1) && NoExit(k, a2)
    requires HelloExchange(a1) && HelloExchange(a2)
    ensures Session(k, coolUntil, false, 1, [a1, a2]).log == [Turn(1, "hello", "hi there"), Turn(2, "hello", "hi there")]
  {
    HelloNotBlank();
    NoExitNoShutdown(k, coolUntil, a1.recordKeys);
    NoExitNoShutdown(k, Listen(k, coolUntil, a1.recordKeys).coolUntil, a1.playKeys);
    var r1 := RunAttempt(k, coolUntil, a1);
    NoExitNoShutdown(k, r1.coolUntil, a2.recordKeys);
    NoExitNoShutdown(k, Listen(k, r1.coolUntil, a2.recordKeys).coolUntil, a2.playKeys);
    assert [a1, a2][1..] == [a2] && [a2][1..] == [];
  }

  /** Speech that `pcm16_to_wav` wraps at 16 kHz mono is always accepted by `play_wav`. */
  lemma SpeechPlays(m: AudioManager, pcm: seq<byte>, abortable: bool, blocking: bool)
    requires Encode(pcm, TTS_SAMPLERATE, 1).Success?
    ensures PlayWav(m, Encode(pcm, TTS_SAMPLERATE, 1).value, abortable, blocking).Success?
  {
    DecodeEncode(pcm, TTS_SAMPLERATE, 1);
    var raw := pcm[..WholeFrameBytes(|pcm|, PCM16_WIDTH)];
    assert Decode(Encode(pcm, TTS_SAMPLERATE, 1).value) == Success(WavInfo(1, TTS_SAMPLERATE, PCM16_WIDTH, raw));
    WholeSamples(raw, |pcm|);
    var frames := Reshape(raw, 1).value;
    ToFromBytes(raw);
    assert ToBytes(Flatten(frames)) == raw;
  }

  lemma WholeSamples(raw: seq<byte>, n: nat)
    requires |raw| == WholeFrameBytes(n, PCM16_WIDTH)
    ensures |raw| % 2 == 0 && Reshape(raw, 1).Success?
  {
  }

  /**
    The recording timeout as written: a recording nobody stops is still
    running after ten seconds of polling, and only ends at poll 499999, after
    ten thousand seconds.
   */
  lemma RecordTimeoutAsWritten(stopAt: Option<nat>)
    ensures !PollEnds(None, Some(RECORD_TIMEOUT_AS_WRITTEN_MS), POLL_MS, 499)
    ensures PollEnds(stopAt, Some(RECORD_TIMEOUT_AS_WRITTEN_MS), POLL_MS, 499_999)
    ensures forall k :: 0 <= k < 499_999 ==>
      (PollEnds(stopAt, Some(RECORD_TIMEOUT_AS_WRITTEN_MS), POLL_MS, k) <==> StopSeen(stopAt, k))
  {
  }

  /**
    The recording timeout as meant: every recording ends by poll 499, after
    ten seconds of polling, and before that only the stop event ends it.
   */
  lemma RecordTimeoutCapped(stopAt: Option<nat>)
    ensures PollEnds(stopAt, Some(RECORD_TIMEOUT_MS), POLL_MS, 499)
    ensures forall k :: 0 <= k < 499 ==> (PollEnds(stopAt, Some(RECORD_TIMEOUT_MS), POLL_MS, k) <==> StopSeen(stopAt, k))
  {
  }

  /** The turn log: an append-only sequence of records. */
  class TurnLogger {
    var entries: seq<Turn>

    constructor ()
      ensures entries == []
    {
      entries := [];
    }

    method Log(turnId: nat, userText: string, assistantText: string)
      modifies this
      ensures entries == old(entries) + [Turn(turnId, userText, assistantText)]
    {
      entries := entries + [Turn(turnId, userText, assistantText)];
    }
  }

  class VoiceAgent {
    const audio: AudioManager
    const keys: HotkeyTap
    const logger: TurnLogger
    const shutdown: Signal

    constructor (audio: AudioManager, keys: HotkeyTap, logger: TurnLogger)
      ensures this.audio == audio && this.keys == keys && this.logger == logger
      ensures fresh(shutdown) && !shutdown.isSet
    {
      this.audio := audio;
      this.keys := keys;
      this.logger := logger;
      shutdown := new Signal();
    }

    /** One pass of the loop body for turn number `turn`; `logged` says whether the turn was logged. */
    method RunTurn(a: Attempt, turn: nat) returns (logged: bool)
      requires !shutdown.isSet
      modifies keys, logger, shutdown
      ensures var r := RunAttempt(keys.Config(), old(keys.coolUntil), a);
        && logged == r.entry.Some?
        && keys.coolUntil == r.coolUntil && shutdown.isSet == r.shutdown
        && logger.entries == old(logger.entries) + (if logged then [Turn(turn, r.entry.value.0, r.entry.value.1)] else [])
    {
      // Recording: the listener ends it with the trigger key, or shuts the agent down with the exit key.
      var stopRec := new Signal();
      var recEnd := keys.StopOnNextPress(a.recordKeys, stopRec, shutdown);
      var stopAt := if stopRec.isSet then Some(a.recordStopPoll) else None;
      var wav, polls := RecordUntil(audio, stopAt, Some(1), POLL_MS, Some(RECORD_TIMEOUT_MS), a.recordBlocks);
      RecordTimeoutCapped(stopAt);
      assert polls <= 500;
      if shutdown.isSet {
        return false;
      }
      // Transcription: a raised call or a blank transcript discards the turn.
      if a.transcript.Raised? || Blank(a.transcript.value) {
        return false;
      }
      var userText := a.transcript.value;
      // The reply, discarded in the same way.
      if a.reply.Raised? || Blank(a.reply.value) {
        return false;
      }
      var reply := a.reply.value;
      // Synthesis and playback, with the playback listener armed first.
      var stopPlay := new Signal();
      var playEnd := keys.StopOnNextPress(a.playKeys, stopPlay, shutdown);
      if a.speech.Raised? {
        return false;
      }
      var wavBytes := Pcm16ToWav(a.speech.value, TTS_SAMPLERATE, 1);
      if wavBytes.Failure? {
        return false;
      }
      SpeechPlays(audio, a.speech.value, true, true);
      var played := PlayWav(audio, wavBytes.value, true, true);
      assert played.Success?;
      if shutdown.isSet {
        return false;
      }
      logger.Log(turn, userText, reply);
      return true;
    }

    /**
      One pass of the loop inside `Turns`: the pass moves its entry, if any,
      from the rest of the session to the entries logged so far.
     */
    method Iterate(k: Keys, attempts: seq<Attempt>, i: nat, turn: nat,
                   ghost total: SessionResult, ghost base: seq<Turn>, ghost acc: seq<Turn>)
      returns (turn': nat, ghost acc': seq<Turn>)
      requires k == keys.Config() && i < |attempts| && !shutdown.isSet
      requires logger.entries == base + acc
      requires Tracks(total, acc, Session(k, keys.coolUntil, false, turn, attempts[i..]))
      modifies keys, logger, shutdown
      ensures logger.entries == base + acc'
      ensures Tracks(total, acc', Session(k, keys.coolUntil, shutdown.isSet, turn', attempts[i + 1..]))
    {
      ghost var r := RunAttempt(k, keys.coolUntil, attempts[i]);
      Advance(k, total, acc, keys.coolUntil, turn, attempts, i);
      var logged := RunTurn(attempts[i], turn);
      if logged {
        acc' := acc + [Turn(turn, r.entry.value.0, r.entry.value.1)];
        turn' := turn + 1;
      } else {
        acc' := acc;
        turn' := turn;
      }
    }

    /** The `while not shutdown` loop, from turn 1, over the iterations in `attempts`. */
    method Turns(attempts: seq<Attempt>)
      modifies keys, logger, shutdown
      ensures var s := Session(keys.Config(), old(keys.coolUntil), old(shutdown.isSet), 1, attempts);
        logger.entries == old(logger.entries) + s.log && keys.coolUntil == s.coolUntil && shutdown.isSet == s.shutdown
    {
      var k := keys.Config();
      ghost var total := Session(k, keys.coolUntil, shutdown.isSet, 1, attempts);
      ghost var acc: seq<Turn> := [];
      var turn := 1;
      var i := 0;
      while i < |attempts| && !shutdown.isSet
        invariant 0 <= i <= |attempts|
        invariant logger.entries == old(logger.entries) + acc
        invariant Tracks(total, acc, Session(k, keys.coolUntil, shutdown.isSet, turn, attempts[i..]))
        decreases |attempts| - i
      {
        turn, acc := Iterate(k, attempts, i, turn, total, old(logger.entries), acc);
        i := i + 1;
      }
    }

    /**
      `run()`: an exit press instead of the first tap returns at once with
      nothing logged; after a tap, the loop runs over the iterations in
      `attempts` until they run out or shutdown is set.
     */
    method Run(startKeys: seq<KeyEvent>, attempts: seq<Attempt>)
      requires WaitTapRun(keys.Config(), keys.coolUntil, false, startKeys).outcome != Waiting
      modifies keys, logger, shutdown
      ensures var tap := WaitTapRun(keys.Config(), old(keys.coolUntil), false, startKeys);
        tap.outcome == Exited ==>
          logger.entries == old(logger.entries) && keys.coolUntil == tap.coolUntil && shutdown.isSet == old(shutdown.isSet)
      ensures var tap := WaitTapRun(keys.Config(), old(keys.coolUntil), false, startKeys);
        var s := Session(keys.Config(), tap.coolUntil, old(shutdown.isSet), 1, attempts);
        tap.outcome == Tapped ==>
          logger.entries == old(logger.entries) + s.log && keys.coolUntil == s.coolUntil && shutdown.isSet == s.shutdown
    {
      var tapped := keys.WaitTap(startKeys);
      if tapped {
        Turns(attempts);
      }
    }
  }
}
