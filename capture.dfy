/**
  The two capture paths of `AudioManager`. `record_until` polls a stop event
  while the device callback appends blocks, then concatenates them into one
  WAV container. `stream_pcm16` passes chunks from the callback to its
  consumer through a bounded queue that drops a chunk when it is full.
 */
module Capture {
  import opened Wrappers
  import opened Arith
  import opened Pcm
  import opened Wav
  import opened Devices

  // ---------------------------------------------------------------------------
  // record_until
  // ---------------------------------------------------------------------------

  /** The samples of one callback's `indata`, frames in order, channels interleaved. */
  type Block = seq<Sample>

  /**
    `np.concatenate(blocks, axis=0)`, flattened: built by appending each
    block as it arrived, it reads as the first block followed by the rest.
   */
  function Concat(blocks: seq<Block>): (s: seq<Sample>)
    ensures blocks == [] ==> s == []
    ensures blocks != [] ==> s == blocks[0] + Concat(blocks[1..])
  {
    if blocks == [] then []
    else
      var init, last := blocks[..|blocks| - 1], blocks[|blocks| - 1];
      assert init != [] ==> init[1..] == blocks[1..][..|blocks[1..]| - 1];
      Concat(init) + last
  }

  /**
    The blocks the callback appended up to the end of poll `n`: `deliveries(k)`
    are those that arrived while the `k`-th wait was pending.
   */
  function Captured(deliveries: nat -> seq<Block>, n: nat): seq<Block>
  {
    if n == 0 then [] else Captured(deliveries, n - 1) + deliveries(n - 1)
  }

  /** The stop event, set once, is seen by the wait of poll `k` (`stopAt` is the first poll that sees it). */
  predicate StopSeen(stopAt: Option<nat>, k: nat)
  {
    stopAt.Some? && stopAt.value <= k
  }

  /** After the wait of poll `k` returns unset, the accumulated poll steps reach the timeout. */
  predicate TimedOut(timeoutMs: Option<int>, pollMs: nat, k: nat)
  {
    timeoutMs.Some? && (k + 1) * pollMs >= timeoutMs.value
  }

  /** Poll `k` is the last one. */
  predicate PollEnds(stopAt: Option<nat>, timeoutMs: Option<int>, pollMs: nat, k: nat)
  {
    StopSeen(stopAt, k) || TimedOut(timeoutMs, pollMs, k)
  }

  /** The poll loop ends: the stop event is eventually set, or a timeout is reached. */
  predicate RecordingEnds(stopAt: Option<nat>, timeoutMs: Option<int>, pollMs: nat)
  {
    stopAt.Some? || (timeoutMs.Some? && (pollMs > 0 || timeoutMs.value <= 0))
  }

  /** A poll at which the loop has ended at the latest. */
  ghost function EndBound(stopAt: Option<nat>, timeoutMs: Option<int>, pollMs: nat): (k: nat)
    requires RecordingEnds(stopAt, timeoutMs, pollMs)
    ensures PollEnds(stopAt, timeoutMs, pollMs, k)
  {
    if stopAt.Some? then stopAt.value
    else if timeoutMs.value <= 0 then 0
    else
      MulPos(pollMs, timeoutMs.value + 1);
      timeoutMs.value
  }

  /**
    `record_until(stop_event, channels, poll_ms, timeout)`: waits `pollMs` at a
    time until the stop event is seen or, with a timeout, until the summed
    waits reach it; returns the container of every block captured meanwhile,
    in arrival order (no samples at all if none arrived).
   */
  method RecordUntil(m: AudioManager, stopAt: Option<nat>, channels: Option<int>, pollMs: nat, timeoutMs: Option<int>,
                     deliveries: nat -> seq<Block>) returns (wav: Result<seq<byte>, WavError>, polls: nat)
    requires RecordingEnds(stopAt, timeoutMs, pollMs)
    ensures polls >= 1 && PollEnds(stopAt, timeoutMs, pollMs, polls - 1)
    ensures forall k :: 0 <= k < polls - 1 ==> !PollEnds(stopAt, timeoutMs, pollMs, k)
    ensures timeoutMs.None? ==> StopSeen(stopAt, polls - 1)
    ensures wav == Encode(ToBytes(Concat(Captured(deliveries, polls))), m.samplerate, OrDefault(channels, m.channels))
  {
    var ch := OrDefault(channels, m.channels);
    var frames: seq<Block> := [];
    polls := 0;
    var elapsed := 0;
    var done := false;
    while !done
      invariant frames == Captured(deliveries, polls)
      invariant !done && timeoutMs.Some? ==> elapsed == polls * pollMs
      invariant forall k :: 0 <= k < polls - (if done then 1 else 0) ==> !PollEnds(stopAt, timeoutMs, pollMs, k)
      invariant done ==> polls >= 1 && PollEnds(stopAt, timeoutMs, pollMs, polls - 1)
      invariant polls <= EndBound(stopAt, timeoutMs, pollMs) + (if done then 1 else 0)
      decreases EndBound(stopAt, timeoutMs, pollMs) + 1 - polls
    {
      frames := frames + deliveries(polls);
      var isSet := StopSeen(stopAt, polls);
      polls := polls + 1;
      if isSet {
        done := true;
      } else if timeoutMs.Some? {
        Distrib(polls - 1, 1, pollMs);
        elapsed := elapsed + pollMs;
        if elapsed >= timeoutMs.value {
          done := true;
        }
      }
    }
    var audio := if frames != [] then Concat(frames) else [];
    wav := ToWav(audio, m.samplerate, ch);
  }

  /** A recording whose sample count is whole frames decodes to exactly those samples. */
  lemma RecordedAudioDecodes(samples: seq<Sample>, rate: int, channels: int)
    requires FieldsFit(2 * |samples|, rate, channels) && |samples| % channels == 0
    ensures Encode(ToBytes(samples), rate, channels).Success?
    ensures Decode(Encode(ToBytes(samples), rate, channels).value) == Success(WavInfo(channels, rate, PCM16_WIDTH, ToBytes(samples)))
  {
    DoubleMultiple(|samples|, channels);
    RoundTrip(ToBytes(samples), rate, channels);
  }

  // ---------------------------------------------------------------------------
  // stream_pcm16
  // ---------------------------------------------------------------------------

  /** `queue.Queue(maxsize=10)`. */
  const QUEUE_MAXSIZE := 10

  /** `indata.tobytes()` of one callback. */
  type Chunk = seq<byte>

  /** `max(1, int(samplerate * chunk_ms / 1000))`, with integer arithmetic. */
  function Blocksize(samplerate: int, chunkMs: int): (b: int)
    ensures b >= 1
    ensures samplerate * chunkMs < 2000 ==> b == 1
    ensures samplerate * chunkMs >= 1000 ==> 1000 * b <= samplerate * chunkMs < 1000 * (b + 1)
  {
    var frames := samplerate * chunkMs / 1000;
    if frames < 1 then 1 else frames
  }

  /** The bounded FIFO between the capture callback and the consumer. */
  class ChunkQueue {
    var items: seq<Chunk>

    ghost predicate Valid()
      reads this
    {
      |items| <= QUEUE_MAXSIZE
    }

    constructor ()
      ensures Valid() && items == []
    {
      items := [];
    }

    /** `put_nowait(c)`: never blocks; a chunk that finds the queue full is dropped (`queue.Full`). */
    method PutNowait(c: Chunk) returns (accepted: bool)
      requires Valid()
      modifies this
      ensures Valid()
      ensures accepted == (|old(items)| < QUEUE_MAXSIZE)
      ensures items == if accepted then old(items) + [c] else old(items)
    {
      accepted := |items| < QUEUE_MAXSIZE;
      if accepted {
        items := items + [c];
      }
    }

    /** `get(timeout=...)` or `get_nowait()`: the oldest chunk, or nothing (`queue.Empty`). */
    method Get() returns (r: Option<Chunk>)
      requires Valid()
      modifies this
      ensures Valid()
      ensures old(items) == [] ==> r == None && items == []
      ensures old(items) != [] ==> r == Some(old(items)[0]) && items == old(items)[1..]
    {
      if items == [] {
        r := None;
      } else {
        r := Some(items[0]);
        items := items[1..];
      }
    }

    /** The teardown loop: `get_nowait()` until the queue reports empty. */
    method Drain()
      requires Valid()
      modifies this
      ensures Valid() && items == []
    {
      var more := true;
      while more
        invariant Valid()
        invariant !more ==> items == []
        decreases |items| + (if more then 1 else 0)
      {
        var r := Get();
        if r.None? {
          more := false;
        }
      }
    }
  }

  /**
    One step of a streaming session, in the order the threads interleave: the
    callback delivers a chunk, the consumer asks the generator for its next
    chunk, or the stop event is set.
   */
  datatype StreamEvent = Arrive(chunk: Chunk) | Pull | StopSet

  /**
    The state of a streaming session. `closed` means the generator has left
    its loop; `arrived` and `accepted` record every delivered chunk and those
    that entered the queue.
   */
  datatype StreamState = StreamState(queue: seq<Chunk>, stopSet: bool, closed: bool,
                                     yielded: seq<Chunk>, dropped: seq<Chunk>,
                                     arrived: seq<Chunk>, accepted: seq<Chunk>)

  const START := StreamState([], false, false, [], [], [], [])

  /** The queue stays within its bound, and it is consumed in arrival order. */
  ghost predicate Inv(st: StreamState)
  {
    && |st.queue| <= QUEUE_MAXSIZE
    && st.accepted == st.yielded + st.queue
    && |st.accepted| + |st.dropped| == |st.arrived|
  }

  function Step(st: StreamState, e: StreamEvent): (r: StreamState)
    requires Inv(st) && !st.closed
    ensures Inv(r)
    ensures e.Arrive? ==> r.arrived == st.arrived + [e.chunk]
    ensures e.Arrive? && |st.queue| == QUEUE_MAXSIZE ==> r.queue == st.queue && r.dropped == st.dropped + [e.chunk]
    ensures e.Arrive? && |st.queue| < QUEUE_MAXSIZE ==> r.queue == st.queue + [e.chunk] && r.dropped == st.dropped
    ensures e.Pull? && !st.stopSet && st.queue != [] ==> r.yielded == st.yielded + [st.queue[0]] && r.queue == st.queue[1..]
    ensures r.closed <==> e.Pull? && st.stopSet
  {
    match e
    case Arrive(c) =>
      if |st.queue| < QUEUE_MAXSIZE
      then st.(queue := st.queue + [c], arrived := st.arrived + [c], accepted := st.accepted + [c])
      else st.(dropped := st.dropped + [c], arrived := st.arrived + [c])
    case StopSet => st.(stopSet := true)
    case Pull =>
      if st.stopSet then st.(closed := true)
      else if st.queue == [] then st
      else st.(queue := st.queue[1..], yielded := st.yielded + [st.queue[0]])
  }

  /** Runs the events until the generator has left its loop. */
  function Run(st: StreamState, events: seq<StreamEvent>): (r: StreamState)
    requires Inv(st)
    ensures Inv(r)
    ensures |r.arrived| <= |st.arrived| + |events|
    decreases |events|
  {
    if events == [] || st.closed then st else Run(Step(st, events[0]), events[1..])
  }

  /** The `finally` block: no more callbacks, then the queue is drained. */
  function Teardown(st: StreamState): StreamState
  {
    st.(queue := [], closed := true)
  }

  /**
    The whole session of `stream_pcm16` for a schedule of events. It always
    ends closed with an empty queue; the consumer got the accepted chunks in
    order, all but the at most 10 still queued when the session ended; and
    every delivered chunk was either accepted or dropped.
   */
  function Stream(events: seq<StreamEvent>): (r: StreamState)
    ensures r.closed && r.queue == []
    ensures var run := Run(START, events);
      && r.yielded <= run.accepted && |run.accepted| <= |r.yielded| + QUEUE_MAXSIZE
      && |run.accepted| + |r.dropped| == |r.arrived| <= |events|
  {
    Teardown(Run(START, events))
  }

  /**
    `stream_pcm16(stop_event, chunk_ms)`: the consumer gets the queued chunks
    in order while the stop event is unset; the end of the schedule stands for
    the consumer closing the generator.
   */
  method StreamPcm16(m: AudioManager, chunkMs: int, events: seq<StreamEvent>)
    returns (blocksize: int, yielded: seq<Chunk>, dropped: seq<Chunk>)
    ensures blocksize == Blocksize(m.samplerate, chunkMs)
    ensures yielded == Stream(events).yielded && dropped == Stream(events).dropped
  {
    var q := new ChunkQueue();
    blocksize := Blocksize(m.samplerate, chunkMs);
    var stopSet, inLoop := false, true;
    yielded, dropped := [], [];
    ghost var arrived: seq<Chunk>, accepted: seq<Chunk> := [], [];
    var i := 0;
    while i < |events| && inLoop
      invariant 0 <= i <= |events| && q.Valid()
      invariant Inv(StreamState(q.items, stopSet, !inLoop, yielded, dropped, arrived, accepted))
      invariant Run(START, events) == Run(StreamState(q.items, stopSet, !inLoop, yielded, dropped, arrived, accepted), events[i..])
      decreases |events| - i
    {
      ghost var before := StreamState(q.items, stopSet, !inLoop, yielded, dropped, arrived, accepted);
      match events[i] {
        case Arrive(c) =>
          var ok := q.PutNowait(c);
          arrived := arrived + [c];
          if ok {
            accepted := accepted + [c];
          } else {
            dropped := dropped + [c];
          }
        case StopSet =>
          stopSet := true;
        case Pull =>
          if stopSet {
            inLoop := false;
          } else {
            var r := q.Get();
            if r.Some? {
              yielded := yielded + [r.value];
            }
          }
      }
      assert StreamState(q.items, stopSet, !inLoop, yielded, dropped, arrived, accepted) == Step(before, events[i]);
      assert events[i..][1..] == events[i + 1..];
      i := i + 1;
    }
    q.Drain();
  }

  /** The callback delivering `cs` one after another. */
  function Arrivals(cs: seq<Chunk>): (es: seq<StreamEvent>)
    ensures |es| == |cs|
  {
    if cs == [] then [] else [Arrive(cs[0])] + Arrivals(cs[1..])
  }

  /** The consumer asking `k` times for the next chunk. */
  function Pulls(k: nat): (es: seq<StreamEvent>)
    ensures |es| == k
  {
    if k == 0 then [] else [Pull] + Pulls(k - 1)
  }

  /** Running two schedules one after the other, while the generator is still in its loop. */
  lemma {:induction false} RunAppend(st: StreamState, a: seq<StreamEvent>, b: seq<StreamEvent>)
    requires Inv(st) && !Run(st, a).closed
    ensures Run(st, a + b) == Run(Run(st, a), b)
    decreases |a|
  {
    if a == [] {
      assert a + b == b;
    } else {
      assert (a + b)[0] == a[0] && (a + b)[1..] == a[1..] + b;
      RunAppend(Step(st, a[0]), a[1..], b);
    }
  }

  /** Chunks that find room are queued behind the ones already waiting. */
  lemma {:induction false} ArrivalsQueue(st: StreamState, cs: seq<Chunk>)
    requires Inv(st) && !st.closed && |st.queue| + |cs| <= QUEUE_MAXSIZE
    ensures Run(st, Arrivals(cs)) == st.(queue := st.queue + cs, arrived := st.arrived + cs, accepted := st.accepted + cs)
    decreases |cs|
  {
    if cs == [] {
      assert st.queue + cs == st.queue && st.arrived + cs == st.arrived && st.accepted + cs == st.accepted;
    } else {
      var st' := Step(st, Arrive(cs[0]));
      assert st' == st.(queue := st.queue + [cs[0]], arrived := st.arrived + [cs[0]], accepted := st.accepted + [cs[0]]);
      ArrivalsQueue(st', cs[1..]);
      AppendHead(st.queue, cs);
      AppendHead(st.arrived, cs);
      AppendHead(st.accepted, cs);
    }
  }

  lemma AppendHead<T>(a: seq<T>, cs: seq<T>)
    requires cs != []
    ensures a + [cs[0]] + cs[1..] == a + cs
  {
    assert [cs[0]] + cs[1..] == cs;
  }

  /** Chunks that find the queue full are all dropped, and the queue is unchanged. */
  lemma {:induction false} ArrivalsDropped(st: StreamState, cs: seq<Chunk>)
    requires Inv(st) && !st.closed && |st.queue| == QUEUE_MAXSIZE
    ensures Run(st, Arrivals(cs)) == st.(dropped := st.dropped + cs, arrived := st.arrived + cs)
    decreases |cs|
  {
    if cs == [] {
      assert st.dropped + cs == st.dropped && st.arrived + cs == st.arrived;
    } else {
      var st' := Step(st, Arrive(cs[0]));
      ArrivalsDropped(st', cs[1..]);
      assert st.dropped + [cs[0]] + cs[1..] == st.dropped + cs;
      assert st.arrived + [cs[0]] + cs[1..] == st.arrived + cs;
    }
  }

  /** While the stop event is unset, enough pulls hand the consumer every queued chunk, oldest first. */
  lemma {:induction false} PullsYield(st: StreamState, k: nat)
    requires Inv(st) && !st.closed && !st.stopSet && k >= |st.queue|
    ensures var r := Run(st, Pulls(k));
      r.yielded == st.yielded + st.queue && r.queue == [] && r.dropped == st.dropped && !r.closed
    decreases k
  {
    if k > 0 {
      var st' := Step(st, Pull);
      PullsYield(st', k - 1);
      if st.queue != [] {
        assert st.yielded + [st.queue[0]] + st.queue[1..] == st.yielded + st.queue;
      }
    }
  }

  lemma ArrivalsSplit(cs: seq<Chunk>, n: nat)
    requires n <= |cs|
    ensures Arrivals(cs) == Arrivals(cs[..n]) + Arrivals(cs[n..])
    decreases n
  {
    if n > 0 {
      ArrivalsSplit(cs[1..], n - 1);
      assert cs[1..][..n - 1] == cs[..n][1..] && cs[1..][n - 1..] == cs[n..];
    }
  }

  /**
    More than ten chunks delivered before the consumer pulls: it receives
    exactly the first ten, in order, and every later one is dropped.
   */
  lemma Overflow(cs: seq<Chunk>, k: nat)
    requires |cs| > QUEUE_MAXSIZE && k >= QUEUE_MAXSIZE
    ensures Stream(Arrivals(cs) + Pulls(k)).yielded == cs[..QUEUE_MAXSIZE]
    ensures Stream(Arrivals(cs) + Pulls(k)).dropped == cs[QUEUE_MAXSIZE..]
  {
    ArrivalsSplit(cs, QUEUE_MAXSIZE);
    ArrivalsQueue(START, cs[..QUEUE_MAXSIZE]);
    var full := Run(START, Arrivals(cs[..QUEUE_MAXSIZE]));
    ArrivalsDropped(full, cs[QUEUE_MAXSIZE..]);
    RunAppend(START, Arrivals(cs[..QUEUE_MAXSIZE]), Arrivals(cs[QUEUE_MAXSIZE..]));
    var overflowed := Run(START, Arrivals(cs));
    PullsYield(overflowed, k);
    RunAppend(START, Arrivals(cs), Pulls(k));
  }
}
