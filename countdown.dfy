/** The countdown timer `Chronos` (src/core/Chronos.ts). The clock
    `performance.now()` (milliseconds) becomes a parameter `now`; the tick
    and end callbacks are recorded as calls, their bodies are not modelled.
    Times are reals. */
module Countdown {

  /** A callback invocation: the tick callback with the time left, or the
      end callback. */
  datatype Call = Tick(time: real) | End

  /** The timer's fields apart from its callbacks. */
  datatype Timer = Timer(duration: real, currentTime: real, running: bool, lastTimestamp: real)

  /** Seconds elapsed between the last reading and `now`. */
  function Elapsed(t: Timer, now: real): real {
    (now - t.lastTimestamp) / 1000.0
  }

  /** `update()` at clock reading `now`. */
  function Advance(t: Timer, now: real): Timer {
    if !t.running then t
    else
      var left := t.currentTime - Elapsed(t, now);
      if left <= 0.0 then Timer(t.duration, 0.0, false, now)
      else Timer(t.duration, left, true, now)
  }

  /** The callbacks one `update()` invokes, in order; `onTick` and `onEnd`
      say whether each callback is registered. */
  function Fired(t: Timer, now: real, onTick: bool, onEnd: bool): seq<Call> {
    if !t.running then []
    else
      var after := Advance(t, now);
      (if onEnd && !after.running then [End] else []) +
      (if onTick then [Tick(after.currentTime)] else [])
  }

  /** The timer after one `update()` per reading of `nows`. */
  function Run(t: Timer, nows: seq<real>): Timer
    decreases |nows|
  {
    if nows == [] then t else Advance(Run(t, nows[..|nows| - 1]), nows[|nows| - 1])
  }

  /** The callbacks those updates invoke. */
  function RunCalls(t: Timer, nows: seq<real>, onTick: bool, onEnd: bool): seq<Call>
    decreases |nows|
  {
    if nows == [] then []
    else
      var front := nows[..|nows| - 1];
      RunCalls(t, front, onTick, onEnd) + Fired(Run(t, front), nows[|nows| - 1], onTick, onEnd)
  }

  /** The number of end-callback invocations in `calls`. */
  function Ends(calls: seq<Call>): nat
    decreases |calls|
  {
    if calls == [] then 0
    else Ends(calls[..|calls| - 1]) + (if calls[|calls| - 1] == End then 1 else 0)
  }

  lemma {:induction false} EndsAppend(a: seq<Call>, b: seq<Call>)
    ensures Ends(a + b) == Ends(a) + Ends(b)
    decreases |b|
  {
    if b == [] {
      assert a + b == a;
    } else {
      assert (a + b)[..|a + b| - 1] == a + b[..|b| - 1];
      EndsAppend(a, b[..|b| - 1]);
    }
  }

  /** A running update takes the elapsed time off the time left, stops at
      zero or below with the time left clamped to zero and never leaves it
      negative. The duration is kept and the clock reading recorded. */
  lemma AdvanceCountsDown(t: Timer, now: real)
    requires t.running
    ensures var a := Advance(t, now);
      && a.currentTime >= 0.0
      && a.duration == t.duration && a.lastTimestamp == now
      && (a.running <==> t.currentTime - Elapsed(t, now) > 0.0)
      && (a.running ==> a.currentTime == t.currentTime - Elapsed(t, now))
      && (!a.running ==> a.currentTime == 0.0)
  {
  }

  /** An update of a stopped timer changes nothing and invokes nothing. */
  lemma StoppedUpdateIsNoOp(t: Timer, now: real, onTick: bool, onEnd: bool)
    requires !t.running
    ensures Advance(t, now) == t && Fired(t, now, onTick, onEnd) == []
  {
  }

  /** A running update invokes the end callback exactly when it stops the
      timer, and always ends with a tick carrying the new time left. */
  lemma RunningUpdateCallbacks(t: Timer, now: real, onTick: bool, onEnd: bool)
    requires t.running
    ensures var calls := Fired(t, now, onTick, onEnd);
      && (End in calls <==> onEnd && !Advance(t, now).running)
      && (onTick ==> calls != [] && calls[|calls| - 1] == Tick(Advance(t, now).currentTime))
      && (!onTick ==> Ends(calls) == |calls|)
  {
    var calls := Fired(t, now, onTick, onEnd);
    if !onTick {
      if calls != [] { assert calls[..|calls| - 1] == []; }
    }
  }

  /** Once stopped, the timer stays as it is under further updates. */
  lemma {:induction false} StoppedStaysStopped(t: Timer, nows: seq<real>, onTick: bool, onEnd: bool)
    requires !t.running
    ensures Run(t, nows) == t && RunCalls(t, nows, onTick, onEnd) == []
    decreases |nows|
  {
    if nows != [] {
      StoppedStaysStopped(t, nows[..|nows| - 1], onTick, onEnd);
    }
  }

  /** Over any run of updates the end callback fires at most once: once if
      the run took a running timer to a stop and the callback is registered,
      never otherwise. */
  lemma {:induction false} EndFiresOnce(t: Timer, nows: seq<real>, onTick: bool, onEnd: bool)
    ensures Ends(RunCalls(t, nows, onTick, onEnd)) ==
      if onEnd && t.running && !Run(t, nows).running then 1 else 0
    decreases |nows|
  {
    if nows != [] {
      var front, now := nows[..|nows| - 1], nows[|nows| - 1];
      var mid := Run(t, front);
      EndFiresOnce(t, front, onTick, onEnd);
      EndsAppend(RunCalls(t, front, onTick, onEnd), Fired(mid, now, onTick, onEnd));
      var fired := Fired(mid, now, onTick, onEnd);
      if mid.running {
        var pre := if onEnd && !Advance(mid, now).running then [End] else [];
        var post := if onTick then [Tick(Advance(mid, now).currentTime)] else [];
        EndsAppend(pre, post);
        assert Ends(post) == 0 by {
          if onTick { assert post[..0] == []; }
        }
        assert Ends(pre) == (if onEnd && !Advance(mid, now).running then 1 else 0) by {
          if pre != [] { assert pre[..0] == []; }
        }
        if !t.running { StoppedStaysStopped(t, front, onTick, onEnd); }
      }
    }
  }

  class Chronos {
    var duration: real
    var currentTime: real
    var running: bool
    var lastTimestamp: real
    /** Whether `onTick` / `onEnd` registered a callback. */
    var hasTick: bool
    var hasEnd: bool
    /** Every callback invocation so far, in order. */
    var calls: seq<Call>

    ghost function State(): Timer
      reads this
    {
      Timer(duration, currentTime, running, lastTimestamp)
    }

    constructor ()
      ensures State() == Timer(0.0, 0.0, false, 0.0)
      ensures !hasTick && !hasEnd && calls == []
    {
      duration, currentTime, running, lastTimestamp := 0.0, 0.0, false, 0.0;
      hasTick, hasEnd, calls := false, false, [];
    }

    method Start(d: real, now: real)
      modifies this`duration, this`currentTime, this`running, this`lastTimestamp
      ensures State() == Timer(d, d, true, now)
    {
      duration := d;
      currentTime := d;
      running := true;
      lastTimestamp := now;
    }

    method Pause()
      modifies this`running
      ensures State() == old(State()).(running := false)
    {
      running := false;
    }

    method Resume(now: real)
      modifies this`running, this`lastTimestamp
      ensures State() == if old(running) then old(State()) else old(State()).(running := true, lastTimestamp := now)
    {
      if !running {
        running := true;
        lastTimestamp := now;
      }
    }

    method Reset()
      modifies this`currentTime, this`running
      ensures State() == old(State()).(currentTime := duration, running := false)
    {
      currentTime := duration;
      running := false;
    }

    method OnTick()
      modifies this`hasTick
      ensures hasTick
    {
      hasTick := true;
    }

    method OnEnd()
      modifies this`hasEnd
      ensures hasEnd
    {
      hasEnd := true;
    }

    /** Called once per frame with the current clock reading. */
    method Update(now: real)
      modifies this`currentTime, this`running, this`lastTimestamp, this`calls
      ensures State() == Advance(old(State()), now)
      ensures calls == old(calls) + Fired(old(State()), now, hasTick, hasEnd)
    {
      if !running {
        return;
      }
      var delta := (now - lastTimestamp) / 1000.0;
      lastTimestamp := now;
      currentTime := currentTime - delta;
      if currentTime <= 0.0 {
        currentTime := 0.0;
        running := false;
        if hasEnd {
          calls := calls + [End];
        }
      }
      if hasTick {
        calls := calls + [Tick(currentTime)];
      }
    }

    method GetTime() returns (t: real)
      ensures t == currentTime
    {
      t := currentTime;
    }
  }
}
