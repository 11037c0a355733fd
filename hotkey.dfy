/**
  `HotkeyTap`: the trigger and exit keys, the cooldown window that debounces
  the trigger key, and the two keyboard listeners built on them: `wait_tap`,
  which waits for a full tap of the trigger key, and `stop_on_next_press`,
  which reports the next trigger press outside the cooldown or an exit press.

  Time is an integer number of milliseconds on the monotonic clock; each key
  event carries the reading at which its handler runs.
 */
module Hotkey {
  import opened Signals

  datatype Key = Space | Esc | Char(c: char) | Named(name: string)

  datatype KeyEvent = Press(key: Key, at: int) | Release(key: Key, at: int)

  const DEFAULT_COOLDOWN_MS := 800
  const TRIGGER_KEY := Space
  const EXIT_KEY := Esc

  /** The configuration of a `HotkeyTap`. */
  datatype Keys = Keys(trigger: Key, exit: Key, cooldownMs: int)

  /** `HotkeyTap()` with its default arguments: space, escape and 0.8 s. */
  const DEFAULT_KEYS := Keys(TRIGGER_KEY, EXIT_KEY, DEFAULT_COOLDOWN_MS)

  predicate IsPress(e: KeyEvent, key: Key)
  {
    e.Press? && e.key == key
  }

  predicate IsRelease(e: KeyEvent, key: Key)
  {
    e.Release? && e.key == key
  }

  /**
    `_set_cooldown` at time `now`: a positive cooldown restarts the window, so
    that exactly the presses before `now + cooldownMs` fall in it; otherwise
    the window is left as it was.
   */
  function Restarted(cooldownMs: int, coolUntil: int, now: int): (c: int)
    ensures cooldownMs > 0 ==> InCooldown(c, now) && forall t :: InCooldown(c, t) <==> t < now + cooldownMs
    ensures cooldownMs <= 0 ==> forall t :: InCooldown(c, t) <==> InCooldown(coolUntil, t)
  {
    if cooldownMs > 0 then now + cooldownMs else coolUntil
  }

  /** `_in_cooldown` at time `now`. */
  predicate InCooldown(coolUntil: int, now: int)
  {
    now < coolUntil
  }

  // ---------------------------------------------------------------------------
  // stop_on_next_press

  /** What the `on_press` handler of `stop_on_next_press` does with one key press. */
  datatype Decision = Decision(setStop: bool, setShutdown: bool, coolUntil: int, stopListening: bool)

  function PressDecision(k: Keys, coolUntil: int, key: Key, now: int): (d: Decision)
    ensures d.stopListening <==> key == k.exit || (key == k.trigger && !InCooldown(coolUntil, now))
    ensures d.setStop <==> d.stopListening
    ensures d.setShutdown <==> key == k.exit
    ensures !d.stopListening ==> d.coolUntil == coolUntil
    ensures d.stopListening && !d.setShutdown ==> d.coolUntil == Restarted(k.cooldownMs, coolUntil, now)
    ensures d.setShutdown ==> d.coolUntil == coolUntil
  {
    if key == k.exit then Decision(true, true, coolUntil, true)
    else if key != k.trigger then Decision(false, false, coolUntil, false)
    else if InCooldown(coolUntil, now) then Decision(false, false, coolUntil, false)
    else Decision(true, false, Restarted(k.cooldownMs, coolUntil, now), true)
  }

  datatype ListenerEnd = Listening | EndedByTrigger | EndedByExit

  /** The effect of one `stop_on_next_press` listener over the key events it saw. */
  datatype Listened = Listened(end: ListenerEnd, stop: bool, shutdown: bool, coolUntil: int)

  /** A press the listener acts on: it sets stop and ends. */
  predicate Decisive(k: Keys, coolUntil: int, e: KeyEvent)
  {
    e.Press? && PressDecision(k, coolUntil, e.key, e.at).stopListening
  }

  /**
    A listener (press handler only) run over `es`, starting from the window
    `coolUntil`, up to the press that ends it.
   */
  function Listen(k: Keys, coolUntil: int, es: seq<KeyEvent>): (r: Listened)
    ensures r.end == Listening ==> !r.stop && !r.shutdown && r.coolUntil == coolUntil
    ensures r.end == EndedByExit ==> r.stop && r.shutdown && r.coolUntil == coolUntil
    ensures r.end == EndedByTrigger ==> r.stop && !r.shutdown
    decreases |es|
  {
    if es == [] then Listened(Listening, false, false, coolUntil)
    else
      match es[0]
      case Release(_, _) => Listen(k, coolUntil, es[1..])
      case Press(key, now) =>
        var d := PressDecision(k, coolUntil, key, now);
        if !d.stopListening then Listen(k, coolUntil, es[1..])
        else Listened(if d.setShutdown then EndedByExit else EndedByTrigger, d.setStop, d.setShutdown, d.coolUntil)
  }

  /** The listener result once press `e` ends it. */
  function EndedAt(k: Keys, coolUntil: int, e: KeyEvent): Listened
    requires e.Press?
  {
    var d := PressDecision(k, coolUntil, e.key, e.at);
    Listened(if d.setShutdown then EndedByExit else EndedByTrigger, d.setStop, d.setShutdown, d.coolUntil)
  }

  /** Events the listener does not act on leave no trace. */
  lemma {:induction false} ListenSkips(k: Keys, coolUntil: int, pre: seq<KeyEvent>, rest: seq<KeyEvent>)
    requires forall i :: 0 <= i < |pre| ==> !Decisive(k, coolUntil, pre[i])
    ensures Listen(k, coolUntil, pre + rest) == Listen(k, coolUntil, rest)
    decreases |pre|
  {
    if pre == [] {
      assert pre + rest == rest;
    } else {
      assert (pre + rest)[0] == pre[0] && (pre + rest)[1..] == pre[1..] + rest;
      ListenSkips(k, coolUntil, pre[1..], rest);
    }
  }

  /**
    The first press the listener acts on decides everything: nothing before it
    has any effect, and nothing after it is looked at (stop is set at most once).
   */
  lemma ListenStopsAtFirstDecisive(k: Keys, coolUntil: int, pre: seq<KeyEvent>, e: KeyEvent, rest: seq<KeyEvent>)
    requires forall i :: 0 <= i < |pre| ==> !Decisive(k, coolUntil, pre[i])
    requires Decisive(k, coolUntil, e)
    ensures Listen(k, coolUntil, pre) == Listened(Listening, false, false, coolUntil)
    ensures Listen(k, coolUntil, pre + [e] + rest) == EndedAt(k, coolUntil, e)
  {
    ListenSkips(k, coolUntil, pre, []);
    assert pre + [] == pre;
    ListenSkips(k, coolUntil, pre, [e] + rest);
    assert pre + [e] + rest == pre + ([e] + rest);
    assert ([e] + rest)[0] == e;
  }

  /**
    A listener armed while the cooldown runs ignores every trigger press made
    before the window closes; only the exit key can end it then.
   */
  lemma {:induction false} ArmedInCooldown(k: Keys, coolUntil: int, es: seq<KeyEvent>)
    requires forall i :: 0 <= i < |es| ==> es[i].at < coolUntil && !IsPress(es[i], k.exit)
    ensures Listen(k, coolUntil, es) == Listened(Listening, false, false, coolUntil)
    decreases |es|
  {
    if es != [] {
      ArmedInCooldown(k, coolUntil, es[1..]);
    }
  }

  /**
    Debouncing of the trigger key across two listeners: a trigger press at
    `t1` outside the cooldown stops the first listener and opens the window;
    a trigger press at `t2` stops the next listener exactly when `t2` is at
    or after the end of that window.
   */
  lemma TriggerDebounce(k: Keys, coolUntil: int, t1: int, t2: int)
    requires k.trigger != k.exit && k.cooldownMs > 0 && !InCooldown(coolUntil, t1)
    ensures var first := Listen(k, coolUntil, [Press(k.trigger, t1)]);
      && first == Listened(EndedByTrigger, true, false, t1 + k.cooldownMs)
      && (Listen(k, first.coolUntil, [Press(k.trigger, t2)]).stop <==> t2 >= t1 + k.cooldownMs)
  {
    var first := Listen(k, coolUntil, [Press(k.trigger, t1)]);
    assert [Press(k.trigger, t1)][1..] == [];
    assert [Press(k.trigger, t2)][1..] == [];
  }

  /**
    With the default keys and no window open yet, a space press stops the
    first listener; a second one 799 ms later is ignored by the next
    listener, and one 800 ms later stops it.
   */
  lemma DefaultDebounce(t1: int)
    requires t1 >= 0
    ensures Listen(DEFAULT_KEYS, 0, [Press(Space, t1)]) == Listened(EndedByTrigger, true, false, t1 + 800)
    ensures !Listen(DEFAULT_KEYS, t1 + 800, [Press(Space, t1 + 799)]).stop
    ensures Listen(DEFAULT_KEYS, t1 + 800, [Press(Space, t1 + 800)]).stop
  {
    TriggerDebounce(DEFAULT_KEYS, 0, t1, t1 + 799);
    TriggerDebounce(DEFAULT_KEYS, 0, t1, t1 + 800);
  }

  // ---------------------------------------------------------------------------
  // wait_tap

  datatype TapOutcome = Tapped | Exited | Waiting

  /** Where `wait_tap`'s listener stands: its outcome, the `pressed` event and the window. */
  datatype TapRun = TapRun(outcome: TapOutcome, pressed: bool, coolUntil: int)

  /** The press and release handlers of `wait_tap` run over `es` until one of them ends the listener. */
  function WaitTapRun(k: Keys, coolUntil: int, pressed: bool, es: seq<KeyEvent>): (r: TapRun)
    ensures pressed ==> r.coolUntil == coolUntil && r.pressed
    ensures !r.pressed ==> r.coolUntil == coolUntil && r.outcome != Tapped
    decreases |es|
  {
    if es == [] then TapRun(Waiting, pressed, coolUntil)
    else
      match es[0]
      case Press(key, now) =>
        if key == k.exit then TapRun(Exited, pressed, coolUntil)
        else if key == k.trigger && !pressed then WaitTapRun(k, Restarted(k.cooldownMs, coolUntil, now), true, es[1..])
        else WaitTapRun(k, coolUntil, pressed, es[1..])
      case Release(key, _) =>
        if key == k.trigger && pressed then TapRun(Tapped, pressed, coolUntil)
        else WaitTapRun(k, coolUntil, pressed, es[1..])
  }

  /**
    A tap has completed within `es`: a trigger release that follows a trigger
    press, or that follows nothing when the press was already seen.
   */
  ghost predicate TapDone(k: Keys, pressed: bool, es: seq<KeyEvent>)
  {
    exists j :: 0 <= j < |es| && IsRelease(es[j], k.trigger) &&
      (pressed || exists i :: 0 <= i < j && IsPress(es[i], k.trigger))
  }

  /** The exit key is pressed before any tap has completed. */
  ghost predicate ExitBeforeTap(k: Keys, pressed: bool, es: seq<KeyEvent>)
  {
    exists i :: 0 <= i < |es| && IsPress(es[i], k.exit) && !TapDone(k, pressed, es[..i])
  }

  /** A tap completes within some prefix of `es` in which the exit key is never pressed. */
  ghost predicate TapBeforeExit(k: Keys, pressed: bool, es: seq<KeyEvent>)
  {
    exists n :: 0 <= n <= |es| && TapDone(k, pressed, es[..n]) &&
      forall i :: 0 <= i < n ==> !IsPress(es[i], k.exit)
  }

  lemma TapDoneCons(k: Keys, pressed: bool, e: KeyEvent, x: seq<KeyEvent>)
    requires !(IsRelease(e, k.trigger) && pressed)
    ensures TapDone(k, pressed, [e] + x) <==> TapDone(k, pressed || IsPress(e, k.trigger), x)
  {
    var es := [e] + x;
    var p' := pressed || IsPress(e, k.trigger);
    if TapDone(k, pressed, es) {
      var j :| 0 <= j < |es| && IsRelease(es[j], k.trigger) &&
        (pressed || exists i :: 0 <= i < j && IsPress(es[i], k.trigger));
      assert j > 0;
      assert IsRelease(x[j - 1], k.trigger);
      if !p' {
        var i :| 0 <= i < j && IsPress(es[i], k.trigger);
        assert i > 0 && IsPress(x[i - 1], k.trigger);
      }
    }
    if TapDone(k, p', x) {
      var j :| 0 <= j < |x| && IsRelease(x[j], k.trigger) &&
        (p' || exists i :: 0 <= i < j && IsPress(x[i], k.trigger));
      assert IsRelease(es[j + 1], k.trigger);
      if IsPress(e, k.trigger) {
        assert IsPress(es[0], k.trigger);
      } else if !pressed {
        var i :| 0 <= i < j && IsPress(x[i], k.trigger);
        assert IsPress(es[i + 1], k.trigger);
      }
    }
  }

  lemma TapDonePrefixCons(k: Keys, pressed: bool, es: seq<KeyEvent>, n: nat)
    requires 0 < n <= |es| && !(IsRelease(es[0], k.trigger) && pressed)
    ensures TapDone(k, pressed, es[..n]) <==> TapDone(k, pressed || IsPress(es[0], k.trigger), es[1..][..n - 1])
  {
    assert es[..n] == [es[0]] + es[1..][..n - 1];
    TapDoneCons(k, pressed, es[0], es[1..][..n - 1]);
  }

  /** An exit press first: the wait ends with false, and no tap came before it. */
  lemma ExitFirstCase(k: Keys, pressed: bool, es: seq<KeyEvent>)
    requires |es| > 0 && IsPress(es[0], k.exit)
    ensures ExitBeforeTap(k, pressed, es) && !TapBeforeExit(k, pressed, es)
  {
    assert !TapDone(k, pressed, es[..0]);
  }

  /** A trigger release once the press was seen: the tap completes before any exit. */
  lemma ReleaseFirstCase(k: Keys, pressed: bool, es: seq<KeyEvent>)
    requires |es| > 0 && IsRelease(es[0], k.trigger) && pressed
    ensures TapBeforeExit(k, pressed, es) && !ExitBeforeTap(k, pressed, es)
  {
    assert es[..1][0] == es[0];
    assert TapDone(k, pressed, es[..1]);
  }

  /** Any other event: both conditions carry over to the remaining events, with the press recorded. */
  lemma ExitBeforeTapCons(k: Keys, pressed: bool, es: seq<KeyEvent>)
    requires |es| > 0 && !IsPress(es[0], k.exit) && !(IsRelease(es[0], k.trigger) && pressed)
    ensures ExitBeforeTap(k, pressed, es) <==> ExitBeforeTap(k, pressed || IsPress(es[0], k.trigger), es[1..])
  {
    var p' := pressed || IsPress(es[0], k.trigger);
    var x := es[1..];
    if ExitBeforeTap(k, pressed, es) {
      var i :| 0 <= i < |es| && IsPress(es[i], k.exit) && !TapDone(k, pressed, es[..i]);
      assert i > 0;
      TapDonePrefixCons(k, pressed, es, i);
      assert IsPress(x[i - 1], k.exit) && !TapDone(k, p', x[..i - 1]);
    }
    if ExitBeforeTap(k, p', x) {
      var i :| 0 <= i < |x| && IsPress(x[i], k.exit) && !TapDone(k, p', x[..i]);
      TapDonePrefixCons(k, pressed, es, i + 1);
      assert IsPress(es[i + 1], k.exit) && !TapDone(k, pressed, es[..i + 1]);
    }
  }

  lemma TapBeforeExitCons(k: Keys, pressed: bool, es: seq<KeyEvent>)
    requires |es| > 0 && !IsPress(es[0], k.exit) && !(IsRelease(es[0], k.trigger) && pressed)
    ensures TapBeforeExit(k, pressed, es) <==> TapBeforeExit(k, pressed || IsPress(es[0], k.trigger), es[1..])
  {
    var p' := pressed || IsPress(es[0], k.trigger);
    var x := es[1..];
    if TapBeforeExit(k, pressed, es) {
      var n :| 0 <= n <= |es| && TapDone(k, pressed, es[..n]) &&
        forall i :: 0 <= i < n ==> !IsPress(es[i], k.exit);
      assert n > 0;
      TapDonePrefixCons(k, pressed, es, n);
      forall i | 0 <= i < n - 1
        ensures !IsPress(x[i], k.exit)
      {
        assert x[i] == es[i + 1];
      }
      assert TapDone(k, p', x[..n - 1]);
    }
    if TapBeforeExit(k, p', x) {
      var n :| 0 <= n <= |x| && TapDone(k, p', x[..n]) &&
        forall i :: 0 <= i < n ==> !IsPress(x[i], k.exit);
      TapDonePrefixCons(k, pressed, es, n + 1);
      forall i | 0 <= i < n + 1
        ensures !IsPress(es[i], k.exit)
      {
        if i > 0 {
          assert es[i] == x[i - 1];
        }
      }
      assert TapDone(k, pressed, es[..n + 1]);
    }
  }

  /**
    `wait_tap` ends with false exactly when the exit key is pressed before a
    tap has completed, and with true exactly when a tap completes before any
    exit press.
   */
  lemma {:induction false} WaitTapOutcome(k: Keys, coolUntil: int, pressed: bool, es: seq<KeyEvent>)
    ensures WaitTapRun(k, coolUntil, pressed, es).outcome == Exited <==> ExitBeforeTap(k, pressed, es)
    ensures WaitTapRun(k, coolUntil, pressed, es).outcome == Tapped <==> TapBeforeExit(k, pressed, es)
    decreases |es|
  {
    if es == [] {
    } else if IsPress(es[0], k.exit) {
      ExitFirstCase(k, pressed, es);
    } else if IsRelease(es[0], k.trigger) && pressed {
      ReleaseFirstCase(k, pressed, es);
    } else {
      var e := es[0];
      var p' := pressed || IsPress(e, k.trigger);
      var cool' := if IsPress(e, k.trigger) && !pressed then Restarted(k.cooldownMs, coolUntil, e.at) else coolUntil;
      assert WaitTapRun(k, coolUntil, pressed, es) == WaitTapRun(k, cool', p', es[1..]);
      WaitTapOutcome(k, cool', p', es[1..]);
      ExitBeforeTapCons(k, pressed, es);
      TapBeforeExitCons(k, pressed, es);
    }
  }

  /**
    For a fresh `wait_tap` (nothing pressed yet): false exactly when the exit
    key goes down before a trigger press has been followed by a trigger
    release.
   */
  lemma WaitTapFalseIffExitFirst(k: Keys, coolUntil: int, es: seq<KeyEvent>)
    ensures WaitTapRun(k, coolUntil, false, es).outcome == Exited <==>
      exists x :: 0 <= x < |es| && IsPress(es[x], k.exit) && !TappedBefore(k, es, x)
  {
    WaitTapOutcome(k, coolUntil, false, es);
    forall x | 0 <= x < |es|
      ensures TapDone(k, false, es[..x]) <==> TappedBefore(k, es, x)
    {
      FreshTapDone(k, es, x);
    }
  }

  /** Before index `x` of `es`, a trigger press is followed by a trigger release. */
  ghost predicate TappedBefore(k: Keys, es: seq<KeyEvent>, x: nat)
    requires x <= |es|
  {
    exists i, j :: 0 <= i < j < x && IsPress(es[i], k.trigger) && IsRelease(es[j], k.trigger)
  }

  lemma FreshTapDone(k: Keys, es: seq<KeyEvent>, x: nat)
    requires x <= |es|
    ensures TapDone(k, false, es[..x]) <==> TappedBefore(k, es, x)
  {
    if TapDone(k, false, es[..x]) {
      var j :| 0 <= j < x && IsRelease(es[..x][j], k.trigger) &&
        exists i :: 0 <= i < j && IsPress(es[..x][i], k.trigger);
      var i :| 0 <= i < j && IsPress(es[..x][i], k.trigger);
      assert IsPress(es[i], k.trigger) && IsRelease(es[j], k.trigger);
    }
    if TappedBefore(k, es, x) {
      var i, j :| 0 <= i < j < x && IsPress(es[i], k.trigger) && IsRelease(es[j], k.trigger);
      assert IsPress(es[..x][i], k.trigger) && IsRelease(es[..x][j], k.trigger);
    }
  }

  /** A trigger release with no trigger press before it does not end the wait. */
  lemma ReleaseWithoutPressIgnored(k: Keys, coolUntil: int, t: int, es: seq<KeyEvent>)
    ensures WaitTapRun(k, coolUntil, false, [Release(k.trigger, t)] + es) == WaitTapRun(k, coolUntil, false, es)
  {
    assert ([Release(k.trigger, t)] + es)[1..] == es;
  }

  /**
    Only the first trigger press of `wait_tap` touches the cooldown: it
    restarts the window from that press, and later presses leave it alone.
   */
  lemma OnlyFirstPressSetsCooldown(k: Keys, coolUntil: int, t: int, es: seq<KeyEvent>)
    requires k.trigger != k.exit
    ensures WaitTapRun(k, coolUntil, false, [Press(k.trigger, t)] + es).coolUntil == Restarted(k.cooldownMs, coolUntil, t)
  {
    assert ([Press(k.trigger, t)] + es)[1..] == es;
  }

  // ---------------------------------------------------------------------------
  // The object

  class HotkeyTap {
    const triggerKey: Key
    const exitKey: Key
    const cooldownMs: int
    var coolUntil: int

    constructor (triggerKey: Key, exitKey: Key, cooldownMs: int)
      ensures this.triggerKey == triggerKey && this.exitKey == exitKey && this.cooldownMs == cooldownMs
      ensures coolUntil == 0
      ensures forall now :: now >= 0 ==> !InCooldown(coolUntil, now)
    {
      this.triggerKey := triggerKey;
      this.exitKey := exitKey;
      this.cooldownMs := cooldownMs;
      coolUntil := 0;
    }

    function Config(): Keys
    {
      Keys(triggerKey, exitKey, cooldownMs)
    }

    /** `_set_cooldown`, with the clock reading passed in. */
    method SetCooldown(now: int)
      modifies this
      ensures coolUntil == Restarted(cooldownMs, old(coolUntil), now)
      ensures cooldownMs > 0 ==> InCooldown(coolUntil, now) && !InCooldown(coolUntil, now + cooldownMs)
    {
      if cooldownMs > 0 {
        coolUntil := now + cooldownMs;
      }
    }

    /**
      `wait_tap` over the key events its listener sees. The listener blocks
      until it is ended, so the events are required to end it.
     */
    method WaitTap(events: seq<KeyEvent>) returns (tapped: bool)
      requires WaitTapRun(Config(), coolUntil, false, events).outcome != Waiting
      modifies this
      ensures var r := WaitTapRun(Config(), old(coolUntil), false, events);
        tapped == (r.outcome == Tapped) && coolUntil == r.coolUntil
    {
      var pressed := new Signal();
      var exited := new Signal();
      var i := 0;
      var listening := true;
      while listening
        invariant 0 <= i <= |events|
        invariant listening ==> !exited.isSet
        invariant listening ==>
          WaitTapRun(Config(), old(coolUntil), false, events) == WaitTapRun(Config(), coolUntil, pressed.isSet, events[i..])
        invariant !listening ==>
          WaitTapRun(Config(), old(coolUntil), false, events) == TapRun(if exited.isSet then Exited else Tapped, pressed.isSet, coolUntil)
        decreases |events| - i, listening
      {
        if i == |events| {
          assert false;
        }
        assert events[i..][0] == events[i] && events[i..][1..] == events[i + 1..];
        match events[i] {
          case Press(key, now) =>
            if key == exitKey {
              exited.Set();
              listening := false;
            } else if key == triggerKey && !pressed.isSet {
              SetCooldown(now);
              pressed.Set();
            }
          case Release(key, _) =>
            if key == triggerKey && pressed.isSet {
              listening := false;
            }
        }
        i := i + 1;
      }
      tapped := !exited.isSet;
    }

    /** The `on_press` handler of `stop_on_next_press`; the result says whether the listener goes on. */
    method OnStopPress(key: Key, now: int, stop: Signal, shutdown: Signal) returns (keepListening: bool)
      requires stop != shutdown
      modifies this, stop, shutdown
      ensures var d := PressDecision(Config(), old(coolUntil), key, now);
        && keepListening == !d.stopListening && coolUntil == d.coolUntil
        && stop.isSet == (old(stop.isSet) || d.setStop)
        && shutdown.isSet == (old(shutdown.isSet) || d.setShutdown)
    {
      if key == exitKey {
        shutdown.Set();
        stop.Set();
        return false;
      }
      if key != triggerKey {
        return true;
      }
      if InCooldown(coolUntil, now) {
        return true;
      }
      stop.Set();
      SetCooldown(now);
      return false;
    }

    /**
      `stop_on_next_press(stop, shutdown)`: the listener thread, over the key
      events it sees during its lifetime.
     */
    method StopOnNextPress(events: seq<KeyEvent>, stop: Signal, shutdown: Signal) returns (end: ListenerEnd)
      requires stop != shutdown
      modifies this, stop, shutdown
      ensures var r := Listen(Config(), old(coolUntil), events);
        && end == r.end && coolUntil == r.coolUntil
        && stop.isSet == (old(stop.isSet) || r.stop)
        && shutdown.isSet == (old(shutdown.isSet) || r.shutdown)
    {
      var i := 0;
      end := Listening;
      while i < |events| && end == Listening
        invariant 0 <= i <= |events|
        invariant end == Listening ==>
          && Listen(Config(), old(coolUntil), events) == Listen(Config(), coolUntil, events[i..])
          && stop.isSet == old(stop.isSet) && shutdown.isSet == old(shutdown.isSet)
        invariant end != Listening ==>
          var r := Listen(Config(), old(coolUntil), events);
          && end == r.end && coolUntil == r.coolUntil
          && stop.isSet == (old(stop.isSet) || r.stop)
          && shutdown.isSet == (old(shutdown.isSet) || r.shutdown)
        decreases |events| - i
      {
        match events[i] {
          case Press(key, now) =>
            var d := PressDecision(Config(), coolUntil, key, now);
            var keep := OnStopPress(key, now, stop, shutdown);
            if !keep {
              end := if d.setShutdown then EndedByExit else EndedByTrigger;
            }
          case Release(_, _) =>
        }
        i := i + 1;
      }
    }
  }
}
