/** The configuration menu (ConfigMenu): three lines — shooting time, shooter
    count, and the "Ändern"/"Start" buttons — navigated with LEFT/RIGHT (toggle the
    current line) and OK (confirm the line). */
module ConfigScreen {
  import opened Types
  import opened Buttons
  import SenderConfig

  /** The menu's fields (the display bookkeeping of the selective redraw is not modelled). */
  datatype ConfigState = ConfigState(
    shootingTime: u8,
    shooterCount: u8,
    cursorLine: u8,
    selectedButton: u8,
    complete: bool,
    changeRequested: bool,
    needsUpdate: bool,
    firstDraw: bool)

  /** The two settings, toggled by either arrow key. */
  function ToggleTime(t: u8): (r: u8)
    ensures SenderConfig.ValidShootingTime(r)
    ensures SenderConfig.ValidShootingTime(t) ==> r != t
  {
    if t == SenderConfig.TIME_120_SEC then SenderConfig.TIME_240_SEC else SenderConfig.TIME_120_SEC
  }

  function ToggleCount(c: u8): (r: u8)
    ensures SenderConfig.ValidShooterCount(r)
    ensures SenderConfig.ValidShooterCount(c) ==> r != c
  {
    if c == SenderConfig.SHOOTERS_1_2 then SenderConfig.SHOOTERS_3_4 else SenderConfig.SHOOTERS_1_2
  }

  /** selectedButton: 0 = "Ändern", 1 = "Start". */
  function ToggleButton(b: u8): (r: u8)
    ensures r <= 1
    ensures b <= 1 ==> r == 1 - b
  {
    if b == 0 then 1 else 0
  }

  const Initial := ConfigState(SenderConfig.DEFAULT_TIME, SenderConfig.DEFAULT_COUNT, 0, 1,
                               false, false, true, true)

  /** begin(): resets the UI state only; the time and count chosen before survive. */
  function MenuBegin(m: ConfigState): ConfigState
  {
    m.(cursorLine := 0, selectedButton := 1, complete := false, changeRequested := false,
       needsUpdate := true, firstDraw := true)
  }

  function MenuSetConfig(m: ConfigState, time: u8, count: u8): ConfigState
  {
    m.(shootingTime := time, shooterCount := count, needsUpdate := true)
  }

  /** update(): nothing once complete; otherwise one key is polled in the order
      LEFT, RIGHT, OK and acted on according to the cursor line. */
  function MenuUpdate(m: ConfigState, bs: seq<ButtonState>): (ConfigState, seq<ButtonState>)
    requires |bs| == COUNT as int
  {
    if m.complete || m.cursorLine > 2 then (m, bs)
    else
      var (key, bs') := PollKeys(bs);
      var m' :=
        if key == KeyLeft || key == KeyRight then
          if m.cursorLine == 0 then m.(shootingTime := ToggleTime(m.shootingTime), needsUpdate := true)
          else if m.cursorLine == 1 then m.(shooterCount := ToggleCount(m.shooterCount), needsUpdate := true)
          else m.(selectedButton := ToggleButton(m.selectedButton), needsUpdate := true)
        else if key == KeyOk then
          if m.cursorLine == 0 then m.(cursorLine := 1, needsUpdate := true)
          else if m.cursorLine == 1 then m.(cursorLine := 2, needsUpdate := true)
          else if m.selectedButton == 0 then m.(cursorLine := 0, changeRequested := true, needsUpdate := true)
          else m.(complete := true)
        else m;
      (m', bs')
  }

  /** draw(): whether it paints the whole screen or only the changed lines, it ends
      with no redraw pending and the first draw done. */
  function MenuDraw(m: ConfigState): ConfigState
  {
    m.(firstDraw := false, needsUpdate := false)
  }

  /** The settings are well-formed: 120/240 seconds, 2/4 shooters, cursor on a line. */
  predicate Valid(m: ConfigState)
  {
    SenderConfig.ValidShootingTime(m.shootingTime) && SenderConfig.ValidShooterCount(m.shooterCount)
    && m.cursorLine <= 2 && m.selectedButton <= 1
  }

  // ---------------------------------------------------------------------
  // The object
  // ---------------------------------------------------------------------

  class ConfigMenu {
    const buttons: ButtonManager
    var shootingTime: u8
    var shooterCount: u8
    var cursorLine: u8
    var selectedButton: u8
    var complete: bool
    var changeRequested: bool
    var needsUpdate: bool
    var firstDraw: bool

    function State(): ConfigState
      reads this
    {
      ConfigState(shootingTime, shooterCount, cursorLine, selectedButton, complete, changeRequested,
                  needsUpdate, firstDraw)
    }

    constructor (btnMgr: ButtonManager)
      ensures buttons == btnMgr
      ensures State() == Initial
    {
      buttons := btnMgr;
      shootingTime, shooterCount := SenderConfig.DEFAULT_TIME, SenderConfig.DEFAULT_COUNT;
      cursorLine, selectedButton := 0, 1;
      complete, changeRequested, needsUpdate, firstDraw := false, false, true, true;
    }

    method Begin()
      modifies this
      ensures State() == MenuBegin(old(State()))
    {
      cursorLine, selectedButton := 0, 1;
      complete, changeRequested, needsUpdate, firstDraw := false, false, true, true;
    }

    method SetConfig(time: u8, count: u8)
      modifies this
      ensures State() == MenuSetConfig(old(State()), time, count)
    {
      shootingTime, shooterCount, needsUpdate := time, count, true;
    }

    method Update()
      requires buttons.Valid()
      modifies this, buttons.buttons
      ensures (State(), buttons.buttons[..]) == MenuUpdate(old(State()), old(buttons.buttons[..]))
    {
      if complete { return; }
      if cursorLine > 2 { return; }
      var key := buttons.ReadKey();
      if key == KeyLeft || key == KeyRight {
        if cursorLine == 0 {
          shootingTime := if shootingTime == 120 then 240 else 120;
        } else if cursorLine == 1 {
          shooterCount := if shooterCount == 2 then 4 else 2;
        } else {
          selectedButton := if selectedButton == 0 then 1 else 0;
        }
        needsUpdate := true;
      } else if key == KeyOk {
        if cursorLine == 0 {
          cursorLine, needsUpdate := 1, true;
        } else if cursorLine == 1 {
          cursorLine, needsUpdate := 2, true;
        } else if selectedButton == 0 {
          cursorLine, changeRequested, needsUpdate := 0, true, true;
        } else {
          complete := true;
        }
      }
    }

    method Draw()
      modifies this
      ensures State() == MenuDraw(old(State()))
    {
      firstDraw := false;
      needsUpdate := false;
    }
  }

  // ---------------------------------------------------------------------
  // Properties
  // ---------------------------------------------------------------------

  /** Once "Start" is confirmed the menu ignores every key and leaves the events pending. */
  lemma CompleteIsFinal(m: ConfigState, bs: seq<ButtonState>)
    requires |bs| == COUNT as int && m.complete
    ensures MenuUpdate(m, bs) == (m, bs)
  {
  }

  /** update keeps the menu well-formed. */
  lemma UpdateKeepsValid(m: ConfigState, bs: seq<ButtonState>)
    requires |bs| == COUNT as int && Valid(m)
    ensures Valid(MenuUpdate(m, bs).0)
  {
    var key := PollKeys(bs).0;
    assert key == KeyLeft || key == KeyRight || key == KeyOk || key == NoKey;
  }

  /** begin, draw and setConfig with valid values keep the menu well-formed. */
  lemma OthersKeepValid(m: ConfigState, time: u8, count: u8)
    requires Valid(m)
    ensures Valid(MenuBegin(m)) && Valid(MenuDraw(m))
    ensures SenderConfig.ValidShootingTime(time) && SenderConfig.ValidShooterCount(count) ==>
              Valid(MenuSetConfig(m, time, count))
  {
  }

  /** The cursor only moves on OK, forward one line, or from line 2 back to line 0
      when "Ändern" is confirmed (which also raises changeRequested). */
  lemma CursorMoves(m: ConfigState, bs: seq<ButtonState>)
    requires |bs| == COUNT as int && Valid(m)
    ensures var (m', _) := MenuUpdate(m, bs);
      m'.cursorLine != m.cursorLine ==>
        && PollKeys(bs).0 == KeyOk && !m.complete
        && (m'.cursorLine == m.cursorLine + 1
            || (m.cursorLine == 2 && m.selectedButton == 0 && m'.cursorLine == 0 && m'.changeRequested))
  {
  }

  /** An arrow on line 0 swaps 120 and 240 s; on line 1 swaps 2 and 4 shooters;
      on line 2 swaps the selected button. Nothing else of the settings changes. */
  lemma ArrowToggles(m: ConfigState, bs: seq<ButtonState>)
    requires |bs| == COUNT as int && Valid(m) && !m.complete
    requires bs[LEFT].wasPressedFlag || bs[RIGHT].wasPressedFlag
    ensures var (m', _) := MenuUpdate(m, bs);
      && m'.cursorLine == m.cursorLine && m'.needsUpdate && m'.complete == m.complete
      && (m.cursorLine == 0 ==> m'.shootingTime != m.shootingTime && m'.shooterCount == m.shooterCount)
      && (m.cursorLine == 1 ==> m'.shooterCount != m.shooterCount && m'.shootingTime == m.shootingTime)
      && (m.cursorLine == 2 ==> m'.selectedButton == 1 - m.selectedButton
                                && m'.shootingTime == m.shootingTime && m'.shooterCount == m.shooterCount)
  {
  }

  /** The menu completes exactly when OK confirms "Start" on line 2 (with no arrow pending). */
  lemma CompletesOnlyOnStart(m: ConfigState, bs: seq<ButtonState>)
    requires |bs| == COUNT as int && Valid(m) && !m.complete
    ensures MenuUpdate(m, bs).0.complete <==>
      m.cursorLine == 2 && m.selectedButton == 1 && PollKeys(bs).0 == KeyOk
  {
  }

  /** begin() resets the navigation but keeps the previously chosen settings. */
  lemma BeginKeepsSettings(m: ConfigState)
    ensures var m' := MenuBegin(m);
      && m'.shootingTime == m.shootingTime && m'.shooterCount == m.shooterCount
      && m'.cursorLine == 0 && m'.selectedButton == 1 && !m'.complete && !m'.changeRequested
      && m'.firstDraw && m'.needsUpdate
  {
  }

  /** The `||` in the arrow test short-circuits: when LEFT and RIGHT are both pending,
      only LEFT is consumed and RIGHT is still pending for the next update. */
  lemma PendingRightSurvives(m: ConfigState, bs: seq<ButtonState>)
    requires |bs| == COUNT as int && bs[LEFT].wasPressedFlag && bs[RIGHT].wasPressedFlag
    ensures MenuUpdate(m, bs).1[RIGHT].wasPressedFlag
  {
  }

  /** OK is consulted only when neither arrow event was pending. */
  lemma OkOnlyWithoutArrow(m: ConfigState, bs: seq<ButtonState>)
    requires |bs| == COUNT as int && (bs[LEFT].wasPressedFlag || bs[RIGHT].wasPressedFlag)
    ensures MenuUpdate(m, bs).1[OK] == bs[OK]
  {
  }

  /** An update consumes at most one event: at most one button's state changes, and
      only by clearing its pending press. */
  lemma AtMostOneEventConsumed(m: ConfigState, bs: seq<ButtonState>, i: int, j: int)
    requires |bs| == COUNT as int && 0 <= i < j < COUNT as int
    ensures var bs' := MenuUpdate(m, bs).1;
      && (bs'[i] == bs[i] || bs'[j] == bs[j])
      && (bs'[i] != bs[i] ==> bs'[i] == bs[i].(wasPressedFlag := false) && bs[i].wasPressedFlag)
  {
  }
}
