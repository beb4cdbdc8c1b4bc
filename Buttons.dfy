/** The sender's button handling (Sender/ButtonManager.cpp): per-button
    debouncing over raw pin levels, read-once press/release events, long
    presses, and the arrow-key alarm detector. The raw levels and the clock
    are parameters; `true` means pressed (the pins are active-low). */
module Buttons {
  import opened Types
  import SenderConfig

  const LEFT: u8 := 0
  const OK: u8 := 1
  const RIGHT: u8 := 2
  const COUNT: u8 := 3

  /** One slot of the `buttons[]` array. */
  datatype ButtonState = ButtonState(
    pressed: bool,
    lastRawState: bool,
    lastChangeTime: u32,
    pressTime: u32,
    wasPressedFlag: bool,
    wasReleasedFlag: bool)

  /** A slot as the constructor initialises it. */
  const Released := ButtonState(false, true, 0, 0, false, false)

  /** The alarm detector's fields. */
  datatype AlarmState = AlarmState(arrowPressStartTime: u32, arrowPressActive: bool, alarmTriggered: bool)

  // ---------------------------------------------------------------------
  // Specification of update()
  // ---------------------------------------------------------------------

  /** The loop body of update() for one button: record a raw change, and once the
      raw level has been stable for DEBOUNCE_MS, take it over as the debounced state. */
  function Debounce(s: ButtonState, raw: bool, now: u32): ButtonState
  {
    var s1 := if raw != s.lastRawState then s.(lastRawState := raw, lastChangeTime := now) else s;
    if Elapsed(now, s1.lastChangeTime) >= SenderConfig.DEBOUNCE_MS as int then
      if raw && !s1.pressed then s1.(pressed := true, pressTime := now, wasPressedFlag := true)
      else if !raw && s1.pressed then s1.(pressed := false, wasReleasedFlag := true)
      else s1
    else s1
  }

  /** All buttons debounced against their raw levels at the same instant. */
  function DebounceAll(bs: seq<ButtonState>, raw: seq<bool>, now: u32): (r: seq<ButtonState>)
    requires |raw| == |bs|
    ensures |r| == |bs|
    ensures forall i :: 0 <= i < |bs| ==> r[i] == Debounce(bs[i], raw[i], now)
  {
    seq(|bs|, i requires 0 <= i < |bs| => Debounce(bs[i], raw[i], now))
  }

  /** The alarm part of update(): a fresh arrow press starts the hold timer and clears
      the flag; a hold of ALARM_THRESHOLD_MS sets the flag; a release ends the hold. */
  function AlarmStep(a: AlarmState, arrowPressed: bool, now: u32): AlarmState
  {
    if arrowPressed && !a.arrowPressActive then
      AlarmState(now, true, false)
    else if arrowPressed && a.arrowPressActive then
      if Elapsed(now, a.arrowPressStartTime) >= SenderConfig.ALARM_THRESHOLD_MS as int && !a.alarmTriggered
      then a.(alarmTriggered := true)
      else a
    else if !arrowPressed && a.arrowPressActive then
      a.(arrowPressActive := false)
    else a
  }

  /** Whether the debounced LEFT or RIGHT key is down. */
  predicate ArrowPressed(bs: seq<ButtonState>)
    requires |bs| == COUNT as int
  {
    bs[LEFT].pressed || bs[RIGHT].pressed
  }

  // ---------------------------------------------------------------------
  // Specification of the queries
  // ---------------------------------------------------------------------

  /** wasPressed: report the pending press event of one button and clear it. */
  function TakePressed(bs: seq<ButtonState>, idx: u8): (r: (bool, seq<ButtonState>))
    requires |bs| == COUNT as int
    ensures r.0 <==> idx < COUNT && bs[idx].wasPressedFlag
    ensures |r.1| == |bs|
    ensures forall j :: 0 <= j < |bs| && j != idx as int ==> r.1[j] == bs[j]
    ensures idx < COUNT ==> r.1[idx] == bs[idx].(wasPressedFlag := false)
  {
    if idx >= COUNT then (false, bs)
    else if bs[idx].wasPressedFlag then (true, bs[idx := bs[idx].(wasPressedFlag := false)])
    else (false, bs)
  }

  /** wasReleased: report the pending release event of one button and clear it. */
  function TakeReleased(bs: seq<ButtonState>, idx: u8): (r: (bool, seq<ButtonState>))
    requires |bs| == COUNT as int
    ensures r.0 <==> idx < COUNT && bs[idx].wasReleasedFlag
    ensures |r.1| == |bs|
    ensures forall j :: 0 <= j < |bs| && j != idx as int ==> r.1[j] == bs[j]
    ensures idx < COUNT ==> r.1[idx] == bs[idx].(wasReleasedFlag := false)
  {
    if idx >= COUNT then (false, bs)
    else if bs[idx].wasReleasedFlag then (true, bs[idx := bs[idx].(wasReleasedFlag := false)])
    else (false, bs)
  }

  /** isAnyPressed. */
  predicate AnyPressed(bs: seq<ButtonState>)
  {
    exists i :: 0 <= i < |bs| && bs[i].pressed
  }

  /** isLongPress: the button is down and has been for at least `duration` ms. */
  predicate LongPress(bs: seq<ButtonState>, idx: u8, duration: u32, now: u32)
    requires |bs| == COUNT as int
  {
    idx < COUNT && bs[idx].pressed && Elapsed(now, bs[idx].pressTime) >= duration
  }

  /** isAlarmTriggered: report the alarm flag and clear it. */
  function TakeAlarm(a: AlarmState): (r: (bool, AlarmState))
    ensures r.0 == a.alarmTriggered
    ensures r.1 == a.(alarmTriggered := false)
  {
    if a.alarmTriggered then (true, a.(alarmTriggered := false)) else (false, a)
  }

  /** The key a menu acts on in one update. */
  datatype Key = KeyLeft | KeyRight | KeyOk | NoKey

  /** The menus' polling chain `wasPressed(LEFT)`, else `wasPressed(RIGHT)`, else
      `wasPressed(OK)`: the first pending event in that order is consumed, and the
      later buttons are not even asked. */
  function PollKeys(bs: seq<ButtonState>): (r: (Key, seq<ButtonState>))
    requires |bs| == COUNT as int
    ensures r.0 == KeyLeft <==> bs[LEFT].wasPressedFlag
    ensures r.0 == KeyRight <==> !bs[LEFT].wasPressedFlag && bs[RIGHT].wasPressedFlag
    ensures r.0 == KeyOk <==>
      !bs[LEFT].wasPressedFlag && !bs[RIGHT].wasPressedFlag && bs[OK].wasPressedFlag
    ensures r.0 == NoKey ==> r.1 == bs
    ensures r.0 == KeyLeft ==> r.1 == bs[LEFT := bs[LEFT].(wasPressedFlag := false)]
    ensures r.0 == KeyRight ==> r.1 == bs[RIGHT := bs[RIGHT].(wasPressedFlag := false)]
    ensures r.0 == KeyOk ==> r.1 == bs[OK := bs[OK].(wasPressedFlag := false)]
  {
    var (left, bs1) := TakePressed(bs, LEFT);
    if left then (KeyLeft, bs1)
    else
      var (right, bs2) := TakePressed(bs1, RIGHT);
      if right then (KeyRight, bs2)
      else
        var (ok, bs3) := TakePressed(bs2, OK);
        if ok then (KeyOk, bs3) else (NoKey, bs3)
  }

  // ---------------------------------------------------------------------
  // The object
  // ---------------------------------------------------------------------

  class ButtonManager {
    const buttons: array<ButtonState>
    var arrowPressStartTime: u32
    var arrowPressActive: bool
    var alarmTriggered: bool

    ghost predicate Valid()
      reads this
    {
      buttons.Length == COUNT as int
    }

    function Alarm(): AlarmState
      reads this
    {
      AlarmState(arrowPressStartTime, arrowPressActive, alarmTriggered)
    }

    constructor ()
      ensures Valid() && fresh(buttons)
      ensures buttons[..] == [Released, Released, Released]
      ensures Alarm() == AlarmState(0, false, false)
    {
      arrowPressStartTime, arrowPressActive, alarmTriggered := 0, false, false;
      var a := new ButtonState[COUNT];
      for i := 0 to COUNT
        invariant forall j :: 0 <= j < i ==> a[j] == Released
      {
        a[i] := Released;
      }
      buttons := a;
    }

    /** begin(): take over the current raw level of every pin. */
    method Begin(raw: seq<bool>)
      requires Valid() && |raw| == COUNT as int
      modifies buttons
      ensures forall i :: 0 <= i < COUNT ==> buttons[i] == old(buttons[i]).(lastRawState := raw[i])
    {
      for i := 0 to COUNT
        invariant forall j :: 0 <= j < i ==> buttons[j] == old(buttons[j]).(lastRawState := raw[j])
        invariant forall j :: i <= j < COUNT ==> buttons[j] == old(buttons[j])
      {
        buttons[i] := buttons[i].(lastRawState := raw[i]);
      }
    }

    /** update(): debounce every button against its raw level, then run the alarm detector. */
    method Update(now: u32, raw: seq<bool>)
      requires Valid() && |raw| == COUNT as int
      modifies this, buttons
      ensures Valid()
      ensures buttons[..] == DebounceAll(old(buttons[..]), raw, now)
      ensures Alarm() == AlarmStep(old(Alarm()), ArrowPressed(buttons[..]), now)
    {
      for i := 0 to COUNT
        invariant forall j :: 0 <= j < i ==> buttons[j] == Debounce(old(buttons[j]), raw[j], now)
        invariant forall j :: i <= j < COUNT ==> buttons[j] == old(buttons[j])
        invariant Alarm() == old(Alarm())
      {
        var state := buttons[i];
        var rawPressed := raw[i];
        if rawPressed != state.lastRawState {
          state := state.(lastRawState := rawPressed, lastChangeTime := now);
        }
        if Elapsed(now, state.lastChangeTime) >= SenderConfig.DEBOUNCE_MS as int {
          if rawPressed && !state.pressed {
            state := state.(pressed := true, pressTime := now, wasPressedFlag := true);
          } else if !rawPressed && state.pressed {
            state := state.(pressed := false, wasReleasedFlag := true);
          }
        }
        buttons[i] := state;
      }

      var arrowPressed := buttons[LEFT].pressed || buttons[RIGHT].pressed;
      assert arrowPressed == ArrowPressed(buttons[..]);
      if arrowPressed && !arrowPressActive {
        arrowPressStartTime := now;
        arrowPressActive := true;
        alarmTriggered := false;
      } else if arrowPressed && arrowPressActive {
        var duration := Elapsed(now, arrowPressStartTime);
        if duration >= SenderConfig.ALARM_THRESHOLD_MS as int && !alarmTriggered {
          alarmTriggered := true;
        }
      } else if !arrowPressed && arrowPressActive {
        arrowPressActive := false;
      }
    }

    method IsPressed(idx: u8) returns (r: bool)
      requires Valid()
      ensures r <==> idx < COUNT && buttons[idx].pressed
    {
      if idx >= COUNT { return false; }
      r := buttons[idx].pressed;
    }

    method WasPressed(idx: u8) returns (r: bool)
      requires Valid()
      modifies buttons
      ensures (r, buttons[..]) == TakePressed(old(buttons[..]), idx)
    {
      if idx >= COUNT { return false; }
      if buttons[idx].wasPressedFlag {
        buttons[idx] := buttons[idx].(wasPressedFlag := false);
        return true;
      }
      return false;
    }

    method WasReleased(idx: u8) returns (r: bool)
      requires Valid()
      modifies buttons
      ensures (r, buttons[..]) == TakeReleased(old(buttons[..]), idx)
    {
      if idx >= COUNT { return false; }
      if buttons[idx].wasReleasedFlag {
        buttons[idx] := buttons[idx].(wasReleasedFlag := false);
        return true;
      }
      return false;
    }

    /** The menus' polling chain over `WasPressed`, in the order they ask. */
    method ReadKey() returns (k: Key)
      requires Valid()
      modifies buttons
      ensures (k, buttons[..]) == PollKeys(old(buttons[..]))
    {
      var left := WasPressed(LEFT);
      if left { return KeyLeft; }
      var right := WasPressed(RIGHT);
      if right { return KeyRight; }
      var ok := WasPressed(OK);
      if ok { return KeyOk; }
      return NoKey;
    }

    method IsLongPress(idx: u8, duration: u32, now: u32) returns (r: bool)
      requires Valid()
      ensures r == LongPress(buttons[..], idx, duration, now)
    {
      if idx >= COUNT { return false; }
      var state := buttons[idx];
      if !state.pressed { return false; }
      r := Elapsed(now, state.pressTime) >= duration;
    }

    /** isAnyPressed(): scans the buttons and stops at the first one that is down. */
    method IsAnyPressed() returns (r: bool)
      requires Valid()
      ensures r <==> exists i :: 0 <= i < COUNT && buttons[i].pressed
    {
      var i := 0;
      while i < COUNT
        invariant 0 <= i <= COUNT
        invariant forall j :: 0 <= j < i ==> !buttons[j].pressed
      {
        if buttons[i].pressed { return true; }
        i := i + 1;
      }
      return false;
    }

    method IsAlarmTriggered() returns (r: bool)
      modifies this
      ensures (r, Alarm()) == TakeAlarm(old(Alarm()))
    {
      if alarmTriggered {
        alarmTriggered := false;
        return true;
      }
      return false;
    }
  }

  // ---------------------------------------------------------------------
  // Properties
  // ---------------------------------------------------------------------

  /** A raw level change is only recorded: the debounced state and the event flags
      stay as they were, and the debounce timer restarts at `now`. */
  lemma DebounceRawChange(s: ButtonState, raw: bool, now: u32)
    requires raw != s.lastRawState
    ensures Debounce(s, raw, now) == s.(lastRawState := raw, lastChangeTime := now)
  {
  }

  /** The debounced state changes only after the raw level has been stable for
      DEBOUNCE_MS, and then it becomes that level. */
  lemma DebounceGate(s: ButtonState, raw: bool, now: u32)
    ensures Debounce(s, raw, now).lastRawState == raw
    ensures Debounce(s, raw, now).pressed != s.pressed ==>
      raw == s.lastRawState && Elapsed(now, s.lastChangeTime) >= SenderConfig.DEBOUNCE_MS as int
      && Debounce(s, raw, now).pressed == raw
  {
  }

  /** Edges: a debounced press stamps pressTime and raises the press event; a debounced
      release raises the release event; update() never clears a pending event. */
  lemma DebounceEdges(s: ButtonState, raw: bool, now: u32)
    ensures var r := Debounce(s, raw, now);
      && (!s.pressed && r.pressed ==> r.pressTime == now && r.wasPressedFlag)
      && (s.pressed && !r.pressed ==> r.wasReleasedFlag)
      && (s.wasPressedFlag ==> r.wasPressedFlag)
      && (s.wasReleasedFlag ==> r.wasReleasedFlag)
      && (r.wasPressedFlag != s.wasPressedFlag ==> !s.pressed && r.pressed)
  {
  }

  /** Events are read once: a second wasPressed/wasReleased without an intervening
      update() reports nothing and changes nothing. */
  lemma EventsReadOnce(bs: seq<ButtonState>, idx: u8)
    requires |bs| == COUNT as int
    ensures TakePressed(TakePressed(bs, idx).1, idx) == (false, TakePressed(bs, idx).1)
    ensures TakeReleased(TakeReleased(bs, idx).1, idx) == (false, TakeReleased(bs, idx).1)
  {
  }

  /** An index outside the three buttons makes every query false and changes nothing. */
  lemma OutOfRangeQueries(bs: seq<ButtonState>, idx: u8, duration: u32, now: u32)
    requires |bs| == COUNT as int && idx >= COUNT
    ensures TakePressed(bs, idx) == (false, bs)
    ensures TakeReleased(bs, idx) == (false, bs)
    ensures !LongPress(bs, idx, duration, now)
  {
  }

  /** One poll consumes at most one event: every other button's state is untouched,
      so a pending RIGHT survives a poll that took LEFT, and OK is only consumed when
      neither arrow was pending. */
  lemma PollConsumesAtMostOne(bs: seq<ButtonState>)
    requires |bs| == COUNT as int
    ensures var (key, bs') := PollKeys(bs);
      && (forall i :: 0 <= i < COUNT && bs'[i] != bs[i] ==>
            (key == KeyLeft && i == LEFT as int) || (key == KeyRight && i == RIGHT as int)
            || (key == KeyOk && i == OK as int))
      && (bs[LEFT].wasPressedFlag && bs[RIGHT].wasPressedFlag ==> bs'[RIGHT].wasPressedFlag)
      && (bs[LEFT].wasPressedFlag || bs[RIGHT].wasPressedFlag ==> bs'[OK] == bs[OK])
  {
  }

  /** A button that is not down is never a long press, whatever the duration. */
  lemma NoLongPressWhenReleased(bs: seq<ButtonState>, idx: u8, duration: u32, now: u32)
    requires |bs| == COUNT as int && idx < COUNT && !bs[idx].pressed
    ensures !LongPress(bs, idx, duration, now)
  {
  }

  /** A fresh arrow press restarts the hold timer and clears the alarm flag; the flag
      is raised only while an arrow is held and ALARM_THRESHOLD_MS has passed since the
      hold began. */
  lemma AlarmDetection(a: AlarmState, arrowPressed: bool, now: u32)
    ensures arrowPressed && !a.arrowPressActive ==>
      AlarmStep(a, arrowPressed, now) == AlarmState(now, true, false)
    ensures AlarmStep(a, arrowPressed, now).alarmTriggered && !a.alarmTriggered ==>
      arrowPressed && a.arrowPressActive
      && Elapsed(now, a.arrowPressStartTime) >= SenderConfig.ALARM_THRESHOLD_MS as int
    ensures !arrowPressed ==> !AlarmStep(a, arrowPressed, now).arrowPressActive
  {
  }

  /** isAlarmTriggered is read-once. */
  lemma AlarmReadOnce(a: AlarmState)
    ensures TakeAlarm(TakeAlarm(a).1) == (false, TakeAlarm(a).1)
  {
  }

  /** The flag that guards against a second alarm is the same one isAlarmTriggered
      clears: after it is read while the arrow key is still held past the threshold,
      the next update() raises it again. */
  lemma AlarmRefiresAfterRead(a: AlarmState, now: u32)
    requires a.arrowPressActive
    requires Elapsed(now, a.arrowPressStartTime) >= SenderConfig.ALARM_THRESHOLD_MS as int
    ensures AlarmStep(TakeAlarm(a).1, true, now).alarmTriggered
    ensures AlarmStep(TakeAlarm(a).1, true, now).arrowPressStartTime == a.arrowPressStartTime
  {
  }

  /** A concrete hold that yields two alarms: the key is pressed at 0 ms and never
      released; polling at 2000 ms and at 2001 ms reports an alarm both times. */
  lemma TwoAlarmsInOneHold()
    ensures var a1 := AlarmStep(AlarmState(0, false, false), true, 0);
      var (first, a2) := TakeAlarm(AlarmStep(a1, true, 2000));
      var (second, a3) := TakeAlarm(AlarmStep(a2, true, 2001));
      first && second && a3.arrowPressActive && a3.arrowPressStartTime == 0
  {
  }
}
