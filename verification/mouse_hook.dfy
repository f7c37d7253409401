/**
 * The global low-level mouse hook and its middle-button double-press detector.
 * Time is a clock reading in whole milliseconds, passed in by the caller; the
 * detector's "event" is counted, and the OS hook chain is a function parameter.
 */
module MouseHook {

  /** Win32 message identifier of a middle-button press. */
  const WM_MBUTTONDOWN: int := 0x0207

  /** Largest gap, in milliseconds, between two presses that still make a double press. */
  const DoubleClickThresholdMs: int := 500

  /**
   * A moment as the detector records it: DateTime.MinValue, or a clock reading in
   * milliseconds. MinValue lies so far in the past that no clock reading is within
   * the threshold of it.
   */
  datatype ClickTime = MinValue | At(ms: int)

  /** The two scalars the detector keeps between events. */
  datatype ClickState = ClickState(lastMiddleClickTime: ClickTime, clickCount: int)

  /** The field initialisers: last press "never", no press counted. */
  const InitialClickState: ClickState := ClickState(MinValue, 0)

  /**
   * elapsed <= threshold. Inclusive, and a clock that went backwards gives a
   * negative elapsed time, which is within the window too.
   */
  predicate WithinWindow(last: ClickTime, now: int) {
    last.At? && now - last.ms <= DoubleClickThresholdMs
  }

  /** The filter in front of the detector: a valid hook code and a middle-button press. */
  predicate IsMiddlePress(nCode: int, wParam: int) {
    nCode >= 0 && wParam == WM_MBUTTONDOWN
  }

  /** The state after one event, and whether the double-press event was raised. */
  datatype Transition = Transition(state: ClickState, fired: bool)

  /**
   * A middle-button press at `now`, as the hook handles it. After a fire the count
   * is reset to 0 and the time to MinValue, but the unconditional store of `now`
   * that follows overwrites the reset time, so the press that fired is remembered.
   */
  function OnMiddlePress(s: ClickState, now: int): (t: Transition)
    ensures t.state.lastMiddleClickTime == At(now)
    ensures t.fired <==> WithinWindow(s.lastMiddleClickTime, now) && s.clickCount >= 1
    ensures t.fired ==> t.state.clickCount == 0
    ensures !WithinWindow(s.lastMiddleClickTime, now) ==> t.state.clickCount == 1 && !t.fired
    ensures WithinWindow(s.lastMiddleClickTime, now) && !t.fired ==> t.state.clickCount == s.clickCount + 1
    ensures 0 <= s.clickCount <= 1 ==> 0 <= t.state.clickCount <= 1
  {
    if WithinWindow(s.lastMiddleClickTime, now) then
      if s.clickCount + 1 >= 2 then Transition(ClickState(At(now), 0), true)
      else Transition(ClickState(At(now), s.clickCount + 1), false)
    else
      Transition(ClickState(At(now), 1), false)
  }

  /**
   * The alternative design in which a fire leaves the last-press time at "never"
   * instead of at the press that fired. The hook does not behave this way; it is
   * here to show that the difference cannot be observed.
   */
  function OnMiddlePressResettingToNever(s: ClickState, now: int): (t: Transition)
    ensures t.fired ==> t.state == ClickState(MinValue, 0)
    ensures !t.fired ==> t.state.lastMiddleClickTime == At(now)
  {
    if WithinWindow(s.lastMiddleClickTime, now) then
      if s.clickCount + 1 >= 2 then Transition(ClickState(MinValue, 0), true)
      else Transition(ClickState(At(now), s.clickCount + 1), false)
    else
      Transition(ClickState(At(now), 1), false)
  }

  /** One low-level mouse event as the hook receives it, with the clock reading at that moment. */
  datatype MouseEvent = MouseEvent(nCode: int, wParam: int, time: int)

  /** How one event changes the click state, given how a press is handled. */
  function OnEvent(press: (ClickState, int) -> Transition, s: ClickState, e: MouseEvent): (t: Transition)
    ensures !IsMiddlePress(e.nCode, e.wParam) ==> t == Transition(s, false)
  {
    if IsMiddlePress(e.nCode, e.wParam) then press(s, e.time) else Transition(s, false)
  }

  /** The state after a sequence of events, and for each event whether it fired. */
  datatype Trace = Trace(state: ClickState, fired: seq<bool>)

  function Run(press: (ClickState, int) -> Transition, s: ClickState, events: seq<MouseEvent>): (r: Trace)
    decreases |events|
  {
    if events == [] then Trace(s, [])
    else
      var t := OnEvent(press, s, events[0]);
      var rest := Run(press, t.state, events[1..]);
      Trace(rest.state, [t.fired] + rest.fired)
  }

  /** Number of middle-button presses among the events. */
  function Presses(events: seq<MouseEvent>): (n: nat)
    decreases |events|
  {
    if events == [] then 0
    else (if IsMiddlePress(events[0].nCode, events[0].wParam) then 1 else 0) + Presses(events[1..])
  }

  /** Number of fires in a trace. */
  function FireCount(fired: seq<bool>): (n: nat)
    decreases |fired|
  {
    if fired == [] then 0 else (if fired[0] then 1 else 0) + FireCount(fired[1..])
  }

  /** Starting with a count of 0 or 1, the hook's count stays 0 or 1 after any events. */
  lemma {:induction false} RunKeepsCountBinary(s: ClickState, events: seq<MouseEvent>)
    requires 0 <= s.clickCount <= 1
    ensures 0 <= Run(OnMiddlePress, s, events).state.clickCount <= 1
    decreases |events|
  {
    if events != [] {
      RunKeepsCountBinary(OnEvent(OnMiddlePress, s, events[0]).state, events[1..]);
    }
  }

  /**
   * Every fire consumes two presses of its own: twice the fires plus the count
   * left over never exceeds the presses seen (plus the count to start with).
   */
  lemma {:induction false} FiresConsumeTwoPresses(s: ClickState, events: seq<MouseEvent>)
    requires 0 <= s.clickCount <= 1
    ensures var r := Run(OnMiddlePress, s, events);
      2 * FireCount(r.fired) + r.state.clickCount <= s.clickCount + Presses(events)
    decreases |events|
  {
    if events != [] {
      var t := OnEvent(OnMiddlePress, s, events[0]);
      FiresConsumeTwoPresses(t.state, events[1..]);
      var rest := Run(OnMiddlePress, t.state, events[1..]);
      assert Run(OnMiddlePress, s, events).fired == [t.fired] + rest.fired;
      assert ([t.fired] + rest.fired)[1..] == rest.fired;
    }
  }

  /** From the hook's initial state, n presses produce at most n / 2 fires: two fires need four presses. */
  lemma FiresAtMostHalfThePresses(events: seq<MouseEvent>)
    ensures 2 * FireCount(Run(OnMiddlePress, InitialClickState, events).fired) <= Presses(events)
  {
    FiresConsumeTwoPresses(InitialClickState, events);
    RunKeepsCountBinary(InitialClickState, events);
  }

  /**
   * The store of the fired press's time instead of "never" is not observable: from
   * states that are equal, or that both have a count of 0, the hook and the
   * "reset to never" design fire on exactly the same events.
   */
  lemma {:induction false} ResetToNeverIsUnobservable(a: ClickState, b: ClickState, events: seq<MouseEvent>)
    requires a == b || (a.clickCount == 0 && b.clickCount == 0)
    ensures Run(OnMiddlePress, a, events).fired == Run(OnMiddlePressResettingToNever, b, events).fired
    decreases |events|
  {
    if events != [] {
      var ta := OnEvent(OnMiddlePress, a, events[0]);
      var tb := OnEvent(OnMiddlePressResettingToNever, b, events[0]);
      assert ta.fired == tb.fired;
      assert ta.state == tb.state || (ta.state.clickCount == 0 && tb.state.clickCount == 0);
      ResetToNeverIsUnobservable(ta.state, tb.state, events[1..]);
    }
  }

  /** Presses at 0 and 300 ms fire once, at 300; a press at 301 then only starts a new pair. */
  lemma SecondPressFiresThirdRestarts()
    ensures Run(OnMiddlePress, InitialClickState,
              [MouseEvent(0, WM_MBUTTONDOWN, 0), MouseEvent(0, WM_MBUTTONDOWN, 300), MouseEvent(0, WM_MBUTTONDOWN, 301)])
            == Trace(ClickState(At(301), 1), [false, true, false])
  {
    var e0, e1, e2 := MouseEvent(0, WM_MBUTTONDOWN, 0), MouseEvent(0, WM_MBUTTONDOWN, 300), MouseEvent(0, WM_MBUTTONDOWN, 301);
    var s1, s2, s3 := ClickState(At(0), 1), ClickState(At(300), 0), ClickState(At(301), 1);
    assert Run(OnMiddlePress, s3, []) == Trace(s3, []);
    assert [e2][1..] == [];
    assert Run(OnMiddlePress, s2, [e2]) == Trace(s3, [false]);
    assert [e1, e2][1..] == [e2];
    assert Run(OnMiddlePress, s1, [e1, e2]) == Trace(s3, [true, false]);
    assert [e0, e1, e2][1..] == [e1, e2];
  }

  /** Presses 600 ms apart do not fire; the count is 1 and the last press is the one at 600. */
  lemma PressesTooFarApartDoNotFire()
    ensures Run(OnMiddlePress, InitialClickState, [MouseEvent(0, WM_MBUTTONDOWN, 0), MouseEvent(0, WM_MBUTTONDOWN, 600)])
            == Trace(ClickState(At(600), 1), [false, false])
  {
    var e0, e1 := MouseEvent(0, WM_MBUTTONDOWN, 0), MouseEvent(0, WM_MBUTTONDOWN, 600);
    var s1, s2 := ClickState(At(0), 1), ClickState(At(600), 1);
    assert Run(OnMiddlePress, s2, []) == Trace(s2, []);
    assert [e1][1..] == [];
    assert Run(OnMiddlePress, s1, [e1]) == Trace(s2, [false]);
    assert [e0, e1][1..] == [e1];
  }

  /** Presses exactly 500 ms apart fire: the threshold is inclusive. */
  lemma PressesAtThresholdFire()
    ensures Run(OnMiddlePress, InitialClickState, [MouseEvent(0, WM_MBUTTONDOWN, 0), MouseEvent(0, WM_MBUTTONDOWN, 500)])
            == Trace(ClickState(At(500), 0), [false, true])
  {
    var e0, e1 := MouseEvent(0, WM_MBUTTONDOWN, 0), MouseEvent(0, WM_MBUTTONDOWN, 500);
    var s1, s2 := ClickState(At(0), 1), ClickState(At(500), 0);
    assert Run(OnMiddlePress, s2, []) == Trace(s2, []);
    assert [e1][1..] == [];
    assert Run(OnMiddlePress, s1, [e1]) == Trace(s2, [true]);
    assert [e0, e1][1..] == [e1];
  }

  /** The hook service: the installed hook handle (0 for none) and the detector's state. */
  class MouseHookService {
    var hookId: int
    var disposed: bool
    var lastMiddleClickTime: ClickTime
    var clickCount: int
    /** How many times MiddleButtonDoubleClicked has been raised. */
    var doubleClicksRaised: nat
    /** The handles passed to UnhookWindowsHookEx, in order. */
    var unhookedHandles: seq<int>

    function Clicks(): ClickState
      reads this
    {
      ClickState(lastMiddleClickTime, clickCount)
    }

    constructor ()
      ensures hookId == 0 && !disposed
      ensures Clicks() == InitialClickState
      ensures doubleClicksRaised == 0 && unhookedHandles == []
    {
      hookId := 0;
      disposed := false;
      lastMiddleClickTime := MinValue;
      clickCount := 0;
      doubleClicksRaised := 0;
      unhookedHandles := [];
    }

    /** Installs the hook; `handle` is what SetWindowsHookEx returned (0 when installation failed). */
    method Start(handle: int)
      modifies this`hookId
      ensures hookId == handle
    {
      hookId := handle;
    }

    /** Removes the hook if one is installed; with none installed it does nothing. */
    method Stop()
      modifies this`hookId, this`unhookedHandles
      ensures hookId == 0
      ensures unhookedHandles == if old(hookId) != 0 then old(unhookedHandles) + [old(hookId)] else old(unhookedHandles)
    {
      if hookId != 0 {
        unhookedHandles := unhookedHandles + [hookId];
        hookId := 0;
      }
    }

    /** Stops the hook the first time it is called; later calls change nothing. */
    method Dispose()
      modifies this`hookId, this`unhookedHandles, this`disposed
      ensures disposed
      ensures old(disposed) ==> hookId == old(hookId) && unhookedHandles == old(unhookedHandles)
      ensures !old(disposed) ==> hookId == 0
      ensures !old(disposed) ==>
        unhookedHandles == if old(hookId) != 0 then old(unhookedHandles) + [old(hookId)] else old(unhookedHandles)
    {
      if !disposed {
        Stop();
        disposed := true;
      }
    }

    /**
     * The hook procedure. Every event is passed on: the result is always what the
     * next hook in the chain returns for the same arguments.
     */
    method HookCallback(nCode: int, wParam: int, lParam: int, now: int, callNextHookEx: (int, int, int, int) -> int)
      returns (r: int)
      modifies this`lastMiddleClickTime, this`clickCount, this`doubleClicksRaised
      ensures r == callNextHookEx(hookId, nCode, wParam, lParam)
      ensures var t := OnEvent(OnMiddlePress, old(Clicks()), MouseEvent(nCode, wParam, now));
        Clicks() == t.state && doubleClicksRaised == old(doubleClicksRaised) + (if t.fired then 1 else 0)
    {
      if nCode >= 0 && wParam == WM_MBUTTONDOWN {
        if WithinWindow(lastMiddleClickTime, now) {
          clickCount := clickCount + 1;
          if clickCount >= 2 {
            doubleClicksRaised := doubleClicksRaised + 1;
            clickCount := 0;
            lastMiddleClickTime := MinValue;
          }
        } else {
          clickCount := 1;
        }
        lastMiddleClickTime := At(now);
      }
      r := callNextHookEx(hookId, nCode, wParam, lParam);
    }
  }
}
