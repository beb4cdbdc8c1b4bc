/** The sender's tournament state machine (StateMachine): four screens with enter and
    exit hooks, time-in-state checks on the wrapping millisecond clock, and transitions
    gated on the results of radio calls. The radio calls (`testReceiverConnection`,
    `sendCommand`) are not part of this model: their results are inputs of each cycle,
    and the calls made are returned as effects. */
module Controller {
  import opened Types
  import opened Buttons
  import CS = ConfigScreen
  import PH = PfeileHolen
  import SenderConfig
  import Commands
  import GroupRotation

  datatype SystemState = StateSplash | StateConfigMenu | StatePfeileHolen | StateSchiessBetrieb

  /** What a cycle does beyond its own fields: hooks run and radio calls made. */
  datatype Effect =
    | ExitHook(from: SystemState)
    | EnterHook(to: SystemState)
    | ProbeReceiver
    | Send(cmd: Commands.RadioCommand)

  /** The interval of the receiver probe while the archers fetch their arrows. */
  const CONNECTION_CHECK_MS: u16 := 5000
  /** The splash screen waits this long before it tests the receiver. */
  const SPLASH_PROBE_DELAY_MS: u16 := 500

  /** The controller's fields, grouped, together with those of its two menus and the
      shared button states. */
  datatype Machine = Machine(
    mode: Mode,
    settings: Settings,
    probe: Probe,
    group: GroupRotation.GroupState,
    config: CS.ConfigState,
    pfeile: PH.PfeileState,
    buttons: seq<ButtonState>)

  /** currentState, previousState and the time of the last change. */
  datatype Mode = Mode(current: SystemState, previous: SystemState, stateStartTime: u32)

  /** The tournament configuration taken over from the configuration menu. */
  datatype Settings = Settings(shootingTime: u8, shooterCount: u8)

  /** The receiver test of the splash screen and the probe timer of the arrow menu. */
  datatype Probe = Probe(connectionTested: bool, connectionSuccessful: bool, lastConnectionCheck: u32)

  /** The shapes the handlers need: three buttons and a well-formed ring buffer. */
  predicate Wf(m: Machine)
  {
    |m.buttons| == COUNT as int && PH.Valid(m.pfeile)
  }

  /** timeInState(ms): `millis() - stateStartTime >= ms` in uint32_t arithmetic. */
  predicate Lasted(m: Machine, ms: u32, now: u32)
  {
    Elapsed(now, m.mode.stateStartTime) >= ms
  }

  /** The enter hooks; the exit hooks only log. */
  function Enter(m: Machine, s: SystemState): Machine
  {
    match s
    case StateSplash => m.(probe := m.probe.(connectionTested := false, connectionSuccessful := false))
    case StateConfigMenu => m.(config := CS.MenuDraw(CS.MenuBegin(m.config)))
    case StatePfeileHolen =>
      m.(pfeile := PH.PfeileDraw(PH.PfeileBegin(m.pfeile)), probe := m.probe.(lastConnectionCheck := 0))
    case StateSchiessBetrieb => m
  }

  /** setState(): nothing when already there; otherwise the old state's exit hook, the
      bookkeeping, and the new state's enter hook. */
  function Transition(m: Machine, s: SystemState, now: u32): (Machine, seq<Effect>)
  {
    if s == m.mode.current then (m, [])
    else (Enter(m.(mode := Mode(s, m.mode.current, now)), s), [ExitHook(m.mode.current), EnterHook(s)])
  }

  /** handleSplash(): test the receiver once, 500 ms after entry; leave for the
      configuration menu after the splash time once tested, or on any pressed button. */
  function SplashCycle(m: Machine, now: u32, answered: bool): (Machine, seq<Effect>)
  {
    var test := !m.probe.connectionTested && Lasted(m, SPLASH_PROBE_DELAY_MS as u32, now);
    var m1 := if test then m.(probe := m.probe.(connectionSuccessful := answered, connectionTested := true))
              else m;
    var e1 := if test then [ProbeReceiver] else [];
    var canExit := Lasted(m1, SenderConfig.SPLASH_DURATION_MS as u32, now) && m1.probe.connectionTested;
    if canExit || AnyPressed(m1.buttons) then
      var (m2, e2) := Transition(m1, StateConfigMenu, now);
      (m2, e1 + e2)
    else (m1, e1)
  }

  /** handleConfigMenu(): run the menu, redraw if asked, and on "Start" take over the
      settings, send INIT when a receiver answered on the splash screen, and go on to
      fetching arrows whatever the send returned. */
  function ConfigCycle(m: Machine, now: u32): (Machine, seq<Effect>)
    requires Wf(m)
  {
    var (c1, bs1) := CS.MenuUpdate(m.config, m.buttons);
    var c2 := if c1.needsUpdate then CS.MenuDraw(c1) else c1;
    var m1 := m.(config := c2, buttons := bs1);
    if !c2.complete then (m1, [])
    else
      var m2 := m1.(settings := Settings(c2.shootingTime, c2.shooterCount));
      var e2 := if m2.probe.connectionSuccessful then [Send(Commands.CmdInit)] else [];
      var (m3, e3) := Transition(m2, StatePfeileHolen, now);
      (m3, e2 + e3)
  }

  /** The probe of handlePfeileHolen(), every 5 s on the wrapping clock. */
  function PfeileProbe(m: Machine, now: u32, answered: bool): (r: (Machine, seq<Effect>))
    requires Wf(m)
    ensures Wf(r.0)
  {
    if Elapsed(now, m.probe.lastConnectionCheck) >= CONNECTION_CHECK_MS as int then
      (m.(pfeile := PH.ConnectionUpdate(m.pfeile, answered), probe := m.probe.(lastConnectionCheck := now)),
       [ProbeReceiver])
    else (m, [])
  }

  /** The menu part of handlePfeileHolen(): update, then redraw if asked. */
  function PfeileMenuStep(m: Machine): Machine
    requires Wf(m)
  {
    var (p1, bs1) := PH.PfeileUpdate(m.pfeile, m.buttons);
    var p2 := if p1.ui.needsUpdate then PH.PfeileDraw(p1) else p1;
    m.(pfeile := p2, buttons := bs1)
  }

  /** The action part of handlePfeileHolen(): the selected action is reset before it is
      carried out. "Nächste Passe" sends the start command for the configured time and
      enters shooting only if it went through (otherwise the menu is begun anew);
      "Neustart" returns to the configuration; anything else does nothing. */
  function PfeileAction(m: Machine, now: u32, tx: Commands.TransmissionResult): (Machine, seq<Effect>)
  {
    var action := m.pfeile.ui.selectedAction;
    if action == PH.ACTION_NONE then (m, [])
    else
      var m1 := m.(pfeile := PH.ActionReset(m.pfeile));
      if action == PH.ACTION_NAECHSTE_PASSE then
        var cmd := if m1.settings.shootingTime == 120 then Commands.CmdStart120 else Commands.CmdStart240;
        if tx == Commands.TxSuccess then
          var (m2, e2) := Transition(m1, StateSchiessBetrieb, now);
          (m2, [Send(cmd)] + e2)
        else (m1.(pfeile := PH.PfeileDraw(PH.PfeileBegin(m1.pfeile))), [Send(cmd)])
      else if action == PH.ACTION_NEUSTART then Transition(m1, StateConfigMenu, now)
      else (m1, [])
  }

  function PfeileCycle(m: Machine, now: u32, answered: bool, tx: Commands.TransmissionResult)
    : (Machine, seq<Effect>)
    requires Wf(m)
  {
    var (m1, e1) := PfeileProbe(m, now, answered);
    var m2 := PfeileMenuStep(m1);
    var (m3, e3) := PfeileAction(m2, now, tx);
    (m3, e1 + e3)
  }

  /** handleSchiessBetrieb(): an OK press sends STOP; only a successful send returns to
      fetching arrows. */
  function ShootingCycle(m: Machine, now: u32, tx: Commands.TransmissionResult): (Machine, seq<Effect>)
    requires Wf(m)
  {
    var (ok, bs1) := TakePressed(m.buttons, OK);
    var m1 := m.(buttons := bs1);
    if !ok then (m1, [])
    else if tx == Commands.TxSuccess then
      var (m2, e2) := Transition(m1, StatePfeileHolen, now);
      (m2, [Send(Commands.CmdStop)] + e2)
    else (m1, [Send(Commands.CmdStop)])
  }

  /** update(): one cycle, dispatched on the current state. `answered` is what the
      receiver test returns and `tx` what a send returns, whenever the cycle calls them. */
  function Cycle(m: Machine, now: u32, answered: bool, tx: Commands.TransmissionResult): (Machine, seq<Effect>)
    requires Wf(m)
  {
    match m.mode.current
    case StateSplash => SplashCycle(m, now, answered)
    case StateConfigMenu => ConfigCycle(m, now)
    case StatePfeileHolen => PfeileCycle(m, now, answered, tx)
    case StateSchiessBetrieb => ShootingCycle(m, now, tx)
  }

  /** advanceToNextGroup(), as documented: one step of the rotation. */
  function Advance(m: Machine): Machine
  {
    m.(group := GroupRotation.Next(m.group))
  }

  /** The transitions drawn in the header: SPLASH -> CONFIG_MENU -> PFEILE_HOLEN,
      PFEILE_HOLEN <-> SCHIESS_BETRIEB, and PFEILE_HOLEN -> CONFIG_MENU (restart). */
  predicate DocumentedEdge(a: SystemState, b: SystemState)
  {
    || (a == StateSplash && b == StateConfigMenu)
    || (a == StateConfigMenu && b == StatePfeileHolen)
    || (a == StatePfeileHolen && b == StateSchiessBetrieb)
    || (a == StateSchiessBetrieb && b == StatePfeileHolen)
    || (a == StatePfeileHolen && b == StateConfigMenu)
  }

  /** What holds between cycles: the shapes, valid menu settings, valid settings taken
      over, and the arrow menu's shooter count, which the controller never sets, still
      at its initial 2 with the cursor on one of its two buttons ... */
  predicate Settled(m: Machine)
  {
    && Wf(m)
    && CS.Valid(m.config)
    && SenderConfig.ValidShootingTime(m.settings.shootingTime)
    && SenderConfig.ValidShooterCount(m.settings.shooterCount)
    && m.pfeile.tournament.shooterCount == SenderConfig.SHOOTERS_1_2
    && m.pfeile.ui.cursorPosition < 2
  }

  /** ... and no action left pending. */
  predicate Inv(m: Machine)
  {
    Settled(m) && m.pfeile.ui.selectedAction == PH.ACTION_NONE
  }

  /** The state after construction: SPLASH, default settings, no receiver test yet.
      The probe timer and the group are not initialised by the constructor; they are
      whatever the memory held. */
  function Initial(lastCheck: u32, group: GroupRotation.GroupState, bs: seq<ButtonState>): Machine
  {
    Machine(Mode(StateSplash, StateSplash, 0),
            Settings(SenderConfig.DEFAULT_TIME, SenderConfig.DEFAULT_COUNT),
            Probe(false, false, lastCheck), group, CS.Initial, PH.Initial, bs)
  }

  /** The inputs of one cycle: the button array as the ButtonManager's update() left it
      before the cycle, the clock, and the results of the radio calls. */
  datatype Input = Input(buttons: seq<ButtonState>, now: u32, answered: bool, tx: Commands.TransmissionResult)

  /** Every input carries the three buttons. */
  predicate WellFormed(inputs: seq<Input>)
  {
    forall k :: 0 <= k < |inputs| ==> |inputs[k].buttons| == COUNT as int
  }

  /** One cycle of the main loop: the buttons are refreshed, then the controller runs. */
  function LoopCycle(m: Machine, i: Input): Machine
    requires Wf(m) && |i.buttons| == COUNT as int
  {
    Cycle(m.(buttons := i.buttons), i.now, i.answered, i.tx).0
  }

  /** The state the controller is in before each of a series of loop cycles and after the last. */
  function Visited(m: Machine, inputs: seq<Input>): (r: seq<SystemState>)
    requires Inv(m) && WellFormed(inputs)
    ensures |r| == |inputs| + 1 && r[0] == m.mode.current
    decreases |inputs|
  {
    if inputs == [] then [m.mode.current]
    else
      var i := inputs[0];
      LoopCycleKeepsInv(m, i);
      [m.mode.current] + Visited(LoopCycle(m, i), inputs[1..])
  }

  // ---------------------------------------------------------------------
  // The object
  // ---------------------------------------------------------------------

  class StateMachine {
    const buttons: ButtonManager
    const configMenu: CS.ConfigMenu
    const pfeileHolenMenu: PH.PfeileHolenMenu
    var currentState: SystemState
    var previousState: SystemState
    var stateStartTime: u32
    var shootingTime: u8
    var shooterCount: u8
    var connectionTested: bool
    var connectionSuccessful: bool
    var lastConnectionCheck: u32
    var currentGroup: SenderConfig.GroupType
    var currentPosition: SenderConfig.Position

    /** The menus share the controller's button manager. */
    ghost predicate Valid()
      reads this, buttons, configMenu, pfeileHolenMenu, pfeileHolenMenu.pingHistory
    {
      && buttons.Valid() && configMenu.buttons == buttons && pfeileHolenMenu.buttons == buttons
      && PH.Valid(pfeileHolenMenu.State())
    }

    function State(): Machine
      reads this, buttons.buttons, configMenu, pfeileHolenMenu, pfeileHolenMenu.pingHistory
    {
      Machine(Mode(currentState, previousState, stateStartTime), Settings(shootingTime, shooterCount),
              Probe(connectionTested, connectionSuccessful, lastConnectionCheck),
              GroupRotation.GroupState(currentGroup, currentPosition),
              configMenu.State(), pfeileHolenMenu.State(), buttons.buttons[..])
    }

    /** lastConnectionCheck and the group are left uninitialised by the constructor;
        their initial contents are parameters here. */
    constructor (btnMgr: ButtonManager, lastCheck: u32, group: GroupRotation.GroupState)
      requires btnMgr.Valid()
      ensures Valid() && buttons == btnMgr
      ensures State() == Initial(lastCheck, group, btnMgr.buttons[..])
    {
      buttons := btnMgr;
      configMenu := new CS.ConfigMenu(btnMgr);
      pfeileHolenMenu := new PH.PfeileHolenMenu(btnMgr);
      currentState, previousState, stateStartTime := StateSplash, StateSplash, 0;
      shootingTime, shooterCount := SenderConfig.DEFAULT_TIME, SenderConfig.DEFAULT_COUNT;
      connectionTested, connectionSuccessful := false, false;
      lastConnectionCheck := lastCheck;
      currentGroup, currentPosition := group.group, group.position;
    }

    /** begin(): the splash screen's enter hook. */
    method Begin()
      requires Valid()
      modifies this
      ensures Valid()
      ensures State() == Enter(old(State()), StateSplash)
    {
      EnterSplash();
    }

    method TimeInState(ms: u32, now: u32) returns (r: bool)
      ensures r <==> Lasted(State(), ms, now)
    {
      r := Elapsed(now, stateStartTime) >= ms;
    }

    method SetState(newState: SystemState, now: u32) returns (effects: seq<Effect>)
      requires Valid()
      modifies this, configMenu, pfeileHolenMenu, pfeileHolenMenu.pingHistory
      ensures Valid()
      ensures (State(), effects) == Transition(old(State()), newState, now)
    {
      if newState == currentState {
        return [];
      }
      var left := currentState;
      previousState := currentState;
      currentState := newState;
      stateStartTime := now;
      assert State() == old(State()).(mode := Mode(newState, old(currentState), now));
      match currentState {
        case StateSplash => EnterSplash();
        case StateConfigMenu => EnterConfigMenu();
        case StatePfeileHolen => EnterPfeileHolen();
        case StateSchiessBetrieb =>
      }
      effects := [ExitHook(left), EnterHook(newState)];
    }

    method EnterSplash()
      requires Valid()
      modifies this
      ensures Valid()
      ensures State() == Enter(old(State()), StateSplash)
    {
      connectionTested := false;
      connectionSuccessful := false;
    }

    method EnterConfigMenu()
      requires Valid()
      modifies configMenu
      ensures Valid()
      ensures State() == Enter(old(State()), StateConfigMenu)
    {
      configMenu.Begin();
      configMenu.Draw();
    }

    method EnterPfeileHolen()
      requires Valid()
      modifies this, pfeileHolenMenu, pfeileHolenMenu.pingHistory
      ensures Valid()
      ensures State() == Enter(old(State()), StatePfeileHolen)
    {
      pfeileHolenMenu.Begin();
      pfeileHolenMenu.Draw();
      PH.MenuOpsKeepValid(old(pfeileHolenMenu.State()));
      lastConnectionCheck := 0;
    }

    /** update(): one cycle. */
    method Update(now: u32, answered: bool, tx: Commands.TransmissionResult) returns (effects: seq<Effect>)
      requires Valid()
      modifies this, buttons.buttons, configMenu, pfeileHolenMenu, pfeileHolenMenu.pingHistory
      ensures Valid()
      ensures (State(), effects) == Cycle(old(State()), now, answered, tx)
    {
      match currentState {
        case StateSplash => effects := HandleSplash(now, answered);
        case StateConfigMenu => effects := HandleConfigMenu(now);
        case StatePfeileHolen => effects := HandlePfeileHolen(now, answered, tx);
        case StateSchiessBetrieb => effects := HandleSchiessBetrieb(now, tx);
      }
    }

    method HandleSplash(now: u32, answered: bool) returns (effects: seq<Effect>)
      requires Valid()
      modifies this, configMenu, pfeileHolenMenu, pfeileHolenMenu.pingHistory
      ensures Valid()
      ensures (State(), effects) == SplashCycle(old(State()), now, answered)
    {
      effects := [];
      if !connectionTested {
        var waited := TimeInState(SPLASH_PROBE_DELAY_MS as u32, now);
        if waited {
          connectionSuccessful := answered;
          connectionTested := true;
          effects := [ProbeReceiver];
        }
      }
      var minTimeElapsed := TimeInState(SenderConfig.SPLASH_DURATION_MS as u32, now);
      var canExit := minTimeElapsed && connectionTested;
      var skipPressed := buttons.IsAnyPressed();
      if canExit || skipPressed {
        var e := SetState(StateConfigMenu, now);
        effects := effects + e;
      }
    }

    method HandleConfigMenu(now: u32) returns (effects: seq<Effect>)
      requires Valid()
      modifies this, buttons.buttons, configMenu, pfeileHolenMenu, pfeileHolenMenu.pingHistory
      ensures Valid()
      ensures (State(), effects) == ConfigCycle(old(State()), now)
    {
      configMenu.Update();
      if configMenu.needsUpdate {
        configMenu.Draw();
      }
      effects := [];
      if configMenu.complete {
        shootingTime := configMenu.shootingTime;
        shooterCount := configMenu.shooterCount;
        if connectionSuccessful {
          effects := [Send(Commands.CmdInit)];
        }
        var e := SetState(StatePfeileHolen, now);
        effects := effects + e;
      }
    }

    method HandlePfeileHolen(now: u32, answered: bool, tx: Commands.TransmissionResult)
      returns (effects: seq<Effect>)
      requires Valid()
      modifies this, buttons.buttons, configMenu, pfeileHolenMenu, pfeileHolenMenu.pingHistory
      ensures Valid()
      ensures (State(), effects) == PfeileCycle(old(State()), now, answered, tx)
    {
      var e1 := CheckConnection(now, answered);
      RunPfeileMenu();
      var e3 := HandleAction(now, tx);
      effects := e1 + e3;
    }

    /** The five-second receiver probe of handlePfeileHolen(). */
    method CheckConnection(now: u32, answered: bool) returns (effects: seq<Effect>)
      requires Valid()
      modifies this, pfeileHolenMenu, pfeileHolenMenu.pingHistory
      ensures Valid()
      ensures (State(), effects) == PfeileProbe(old(State()), now, answered)
    {
      effects := [];
      if Elapsed(now, lastConnectionCheck) >= CONNECTION_CHECK_MS as int {
        pfeileHolenMenu.UpdateConnectionStatus(answered);
        PH.ConnectionUpdateKeepsValid(old(pfeileHolenMenu.State()), answered);
        lastConnectionCheck := now;
        effects := [ProbeReceiver];
      }
    }

    /** The menu update and redraw of handlePfeileHolen(). */
    method RunPfeileMenu()
      requires Valid()
      modifies buttons.buttons, pfeileHolenMenu
      ensures Valid()
      ensures State() == PfeileMenuStep(old(State()))
    {
      pfeileHolenMenu.Update();
      PH.UpdateKeepsValid(old(pfeileHolenMenu.State()), PollKeys(old(buttons.buttons[..])).0);
      if pfeileHolenMenu.needsUpdate {
        ghost var p := pfeileHolenMenu.State();
        pfeileHolenMenu.Draw();
        PH.MenuOpsKeepValid(p);
      }
    }

    /** The action part of handlePfeileHolen(). */
    method HandleAction(now: u32, tx: Commands.TransmissionResult) returns (effects: seq<Effect>)
      requires Valid()
      modifies this, configMenu, pfeileHolenMenu, pfeileHolenMenu.pingHistory
      ensures Valid()
      ensures (State(), effects) == PfeileAction(old(State()), now, tx)
    {
      effects := [];
      var action := pfeileHolenMenu.selectedAction;
      if action != PH.ACTION_NONE {
        pfeileHolenMenu.ResetAction();
        if action == PH.ACTION_NAECHSTE_PASSE {
          var cmd := if shootingTime == 120 then Commands.CmdStart120 else Commands.CmdStart240;
          effects := [Send(cmd)];
          if tx == Commands.TxSuccess {
            var e := SetState(StateSchiessBetrieb, now);
            effects := effects + e;
          } else {
            ghost var p := pfeileHolenMenu.State();
            pfeileHolenMenu.Begin();
            pfeileHolenMenu.Draw();
            PH.MenuOpsKeepValid(p);
          }
        } else if action == PH.ACTION_NEUSTART {
          effects := SetState(StateConfigMenu, now);
        }
      }
    }

    method HandleSchiessBetrieb(now: u32, tx: Commands.TransmissionResult) returns (effects: seq<Effect>)
      requires Valid()
      modifies this, buttons.buttons, configMenu, pfeileHolenMenu, pfeileHolenMenu.pingHistory
      ensures Valid()
      ensures (State(), effects) == ShootingCycle(old(State()), now, tx)
    {
      effects := [];
      var ok := buttons.WasPressed(OK);
      if ok {
        effects := [Send(Commands.CmdStop)];
        if tx == Commands.TxSuccess {
          var e := SetState(StatePfeileHolen, now);
          effects := effects + e;
        }
      }
    }

    /** advanceToNextGroup(), declared in the header with its documented cycle. */
    method AdvanceToNextGroup()
      modifies this
      ensures State() == Advance(old(State()))
    {
      var next := GroupRotation.Next(GroupRotation.GroupState(currentGroup, currentPosition));
      currentGroup, currentPosition := next.group, next.position;
    }
  }

  // ---------------------------------------------------------------------
  // Properties
  // ---------------------------------------------------------------------

  /** setState to the current state is a no-op: no hook runs, nothing changes. */
  lemma SetStateSameIsNoop(m: Machine, now: u32)
    ensures Transition(m, m.mode.current, now) == (m, [])
  {
  }

  /** Otherwise exactly one exit hook (the old state's) runs before exactly one enter
      hook (the new state's), and the previous state and the entry time are recorded. */
  lemma SetStateSwitches(m: Machine, s: SystemState, now: u32)
    requires s != m.mode.current
    ensures var (m', e) := Transition(m, s, now);
      && m'.mode == Mode(s, m.mode.current, now)
      && e == [ExitHook(m.mode.current), EnterHook(s)]
  {
  }

  /** Entering the splash screen resets the receiver test; entering the arrow menu
      begins it anew and restarts the probe timer from 0; entering shooting changes
      nothing else. */
  lemma EnterHooks(m: Machine)
    ensures !Enter(m, StateSplash).probe.connectionTested && !Enter(m, StateSplash).probe.connectionSuccessful
    ensures Enter(m, StatePfeileHolen).probe.lastConnectionCheck == 0
    ensures Enter(m, StatePfeileHolen).pfeile.ui.selectedAction == PH.ACTION_NONE
    ensures Enter(m, StateConfigMenu).config == CS.MenuDraw(CS.MenuBegin(m.config))
    ensures Enter(m, StateSchiessBetrieb) == m
  {
  }

  /** Time in state is measured across the clock's wrap: entered 256 ms before the
      wrap, 256 ms after it the state has lasted 512 ms. */
  lemma TimeInStateAcrossWrap(m: Machine)
    requires m.mode.stateStartTime == 0xFFFF_FF00
    ensures Lasted(m, 512, 0x100) && !Lasted(m, 513, 0x100)
  {
  }

  /** The splash screen tests the receiver at most once per entry, and only after
      500 ms in the state; the answer is kept. */
  lemma SplashProbesOnce(m: Machine, now: u32, answered: bool)
    ensures var (m', e) := SplashCycle(m, now, answered);
      && (ProbeReceiver in e <==> !m.probe.connectionTested && Lasted(m, 500, now))
      && (m.probe.connectionTested ==> m'.probe == m.probe)
      && (ProbeReceiver in e && m'.mode.current == m.mode.current ==>
            m'.probe.connectionTested && m'.probe.connectionSuccessful == answered)
  {
  }

  /** The splash screen is left only for the configuration menu, exactly when the
      splash time is over and the test has run (it has by then), or a button is down. */
  lemma SplashExit(m: Machine, now: u32, answered: bool)
    requires m.mode.current == StateSplash
    ensures var (m', _) := SplashCycle(m, now, answered);
      && (m'.mode.current == StateSplash || m'.mode.current == StateConfigMenu)
      && (m'.mode.current == StateConfigMenu <==> Lasted(m, 15000, now) || AnyPressed(m.buttons))
  {
  }

  /** On "Start" the settings are taken over, INIT is sent exactly when the splash test
      found a receiver, and the arrow menu follows whatever the send returned; before
      that the menu stays and nothing is sent. */
  lemma ConfigCompletion(m: Machine, now: u32)
    requires Wf(m) && m.mode.current == StateConfigMenu
    ensures var (m', e) := ConfigCycle(m, now);
      var done := CS.MenuUpdate(m.config, m.buttons).0.complete;
      && (done ==> m'.mode.current == StatePfeileHolen
                   && m'.settings == Settings(m'.config.shootingTime, m'.config.shooterCount)
                   && (Send(Commands.CmdInit) in e <==> m.probe.connectionSuccessful))
      && (!done ==> m'.mode == m.mode && e == [])
  {
  }

  /** "Nächste Passe" sends START_120 for 120 s and START_240 otherwise; shooting starts
      exactly when the send succeeded, else the arrow menu is begun anew. */
  lemma NextEndStarts(m: Machine, now: u32, tx: Commands.TransmissionResult)
    requires m.mode.current == StatePfeileHolen && m.pfeile.ui.selectedAction == PH.ACTION_NAECHSTE_PASSE
    ensures var (m', e) := PfeileAction(m, now, tx);
      var cmd := if m.settings.shootingTime == 120 then Commands.CmdStart120 else Commands.CmdStart240;
      && e[0] == Send(cmd)
      && (m'.mode.current == StateSchiessBetrieb <==> tx == Commands.TxSuccess)
      && (tx != Commands.TxSuccess ==> m'.mode == m.mode && e == [Send(cmd)]
                                       && m'.pfeile == PH.PfeileDraw(PH.PfeileBegin(PH.ActionReset(m.pfeile))))
  {
  }

  /** "Neustart" returns to the configuration menu without a radio call. */
  lemma RestartReturnsToConfig(m: Machine, now: u32, tx: Commands.TransmissionResult)
    requires m.mode.current == StatePfeileHolen && m.pfeile.ui.selectedAction == PH.ACTION_NEUSTART
    ensures PfeileAction(m, now, tx).0.mode.current == StateConfigMenu
    ensures PfeileAction(m, now, tx).1 == [ExitHook(StatePfeileHolen), EnterHook(StateConfigMenu)]
  {
  }

  /** "Reihenfolge" only resets the action. */
  lemma OrderActionDoesNothing(m: Machine, now: u32, tx: Commands.TransmissionResult)
    requires m.pfeile.ui.selectedAction == PH.ACTION_REIHENFOLGE
    ensures PfeileAction(m, now, tx) == (m.(pfeile := PH.ActionReset(m.pfeile)), [])
  {
  }

  /** Whatever the action, while the arrow menu stays on screen no action is pending. */
  lemma ActionIsReset(m: Machine, now: u32, tx: Commands.TransmissionResult)
    requires m.mode.current == StatePfeileHolen
    ensures PfeileAction(m, now, tx).0.pfeile.ui.selectedAction == PH.ACTION_NONE
  {
  }

  /** While fetching arrows the receiver is probed exactly when 5 s have passed since the
      last probe; right after entry (timer 0) that means once the clock reads 5000. */
  lemma PfeileProbeSchedule(m: Machine, now: u32, answered: bool)
    requires Wf(m)
    ensures var (m', e) := PfeileProbe(m, now, answered);
      && (e == [ProbeReceiver] <==> Elapsed(now, m.probe.lastConnectionCheck) >= 5000)
      && (e == [] <==> Elapsed(now, m.probe.lastConnectionCheck) < 5000)
      && (e == [ProbeReceiver] ==> m'.probe.lastConnectionCheck == now && m'.pfeile.pings.connectionOk == answered)
      && (m.probe.lastConnectionCheck == 0 ==> (e == [ProbeReceiver] <==> now >= 5000))
  {
  }

  /** In shooting, OK sends STOP and only a successful send returns to fetching arrows;
      without OK nothing is sent. */
  lemma StopEndsShooting(m: Machine, now: u32, tx: Commands.TransmissionResult)
    requires Wf(m) && m.mode.current == StateSchiessBetrieb
    ensures var (m', e) := ShootingCycle(m, now, tx);
      && (m.buttons[OK].wasPressedFlag <==> e != [] && e[0] == Send(Commands.CmdStop))
      && (m'.mode.current == StatePfeileHolen <==> m.buttons[OK].wasPressedFlag && tx == Commands.TxSuccess)
      && (m'.mode.current != StatePfeileHolen ==> m'.mode == m.mode)
  {
  }

  /** With two shooters the arrow menu never selects "Reihenfolge", and the cursor
      stays on the two buttons. */
  lemma NoReihenfolgeWithTwoShooters(p: PH.PfeileState, key: Key)
    requires p.tournament.shooterCount == SenderConfig.SHOOTERS_1_2 && p.ui.cursorPosition < 2
    requires p.ui.selectedAction == PH.ACTION_NONE
    ensures PH.PfeileOnKey(p, key).ui.selectedAction != PH.ACTION_REIHENFOLGE
    ensures PH.PfeileOnKey(p, key).ui.cursorPosition < 2
  {
  }

  /** advanceToNextGroup changes the group and position only, and four calls return to
      the starting turn. */
  lemma AdvanceOnlyRotates(m: Machine)
    ensures Advance(m) == m.(group := GroupRotation.Next(m.group))
    ensures Advance(m).group != m.group
    ensures Advance(Advance(Advance(Advance(m)))) == m
  {
    GroupRotation.CycleClosure(m.group);
  }

  /** Every cycle either stays in its state or follows a documented edge, and a change
      records the state left. */
  lemma CycleFollowsGraph(m: Machine, now: u32, answered: bool, tx: Commands.TransmissionResult)
    requires Wf(m)
    ensures var m' := Cycle(m, now, answered, tx).0;
      m'.mode.current == m.mode.current
      || (DocumentedEdge(m.mode.current, m'.mode.current) && m'.mode.previous == m.mode.current)
  {
    match m.mode.current
    case StateSplash => SplashExit(m, now, answered);
    case StateConfigMenu => ConfigCompletion(m, now);
    case StatePfeileHolen => PfeileFollowsGraph(m, now, answered, tx);
    case StateSchiessBetrieb => StopEndsShooting(m, now, tx);
  }

  /** In the arrow menu a cycle stays, starts shooting or returns to the configuration. */
  lemma PfeileFollowsGraph(m: Machine, now: u32, answered: bool, tx: Commands.TransmissionResult)
    requires Wf(m) && m.mode.current == StatePfeileHolen
    ensures var m' := PfeileCycle(m, now, answered, tx).0;
      m'.mode.current == StatePfeileHolen
      || ((m'.mode.current == StateSchiessBetrieb || m'.mode.current == StateConfigMenu)
          && m'.mode.previous == StatePfeileHolen)
  {
    var m2 := PfeileMenuStep(PfeileProbe(m, now, answered).0);
    assert m2.mode == m.mode;
  }

  /** Every cycle keeps the invariant. */
  lemma CycleKeepsInv(m: Machine, now: u32, answered: bool, tx: Commands.TransmissionResult)
    requires Inv(m)
    ensures Inv(Cycle(m, now, answered, tx).0)
  {
    match m.mode.current
    case StateSplash => EnterKeepsInv(SplashCycle(m, now, answered).0);
    case StateConfigMenu => ConfigKeepsInv(m, now);
    case StatePfeileHolen => PfeileKeepsInv(m, now, answered, tx);
    case StateSchiessBetrieb =>
  }

  /** Entering a state keeps the invariant; the mode is irrelevant to it. */
  lemma EnterKeepsInv(m: Machine)
    ensures forall s: SystemState :: Inv(m) ==> Inv(Enter(m, s))
  {
  }

  lemma ConfigKeepsInv(m: Machine, now: u32)
    requires Inv(m) && m.mode.current == StateConfigMenu
    ensures Inv(ConfigCycle(m, now).0)
  {
    var (c1, bs1) := CS.MenuUpdate(m.config, m.buttons);
    CS.UpdateKeepsValid(m.config, m.buttons);
    var c2 := if c1.needsUpdate then CS.MenuDraw(c1) else c1;
    assert CS.Valid(c2);
    var m1 := m.(config := c2, buttons := bs1);
    assert Inv(m1);
    if c2.complete {
      var m2 := m1.(settings := Settings(c2.shootingTime, c2.shooterCount));
      assert Inv(m2);
      EnterKeepsInv(m2.(mode := Mode(StatePfeileHolen, m2.mode.current, now)));
    }
  }

  lemma PfeileKeepsInv(m: Machine, now: u32, answered: bool, tx: Commands.TransmissionResult)
    requires Inv(m) && m.mode.current == StatePfeileHolen
    ensures Inv(PfeileCycle(m, now, answered, tx).0)
  {
    var m1 := PfeileProbe(m, now, answered).0;
    ProbeKeepsInv(m, now, answered);
    MenuStepKeepsSettled(m1);
    ActionRestoresInv(PfeileMenuStep(m1), now, tx);
  }

  lemma ProbeKeepsInv(m: Machine, now: u32, answered: bool)
    requires Inv(m)
    ensures Inv(PfeileProbe(m, now, answered).0)
  {
  }

  /** The arrow menu's update may select an action, but never "Reihenfolge". */
  lemma MenuStepKeepsSettled(m: Machine)
    requires Inv(m)
    ensures Settled(PfeileMenuStep(m))
    ensures PfeileMenuStep(m).pfeile.ui.selectedAction != PH.ACTION_REIHENFOLGE
  {
    NoReihenfolgeWithTwoShooters(m.pfeile, PollKeys(m.buttons).0);
  }

  /** Carrying out the action leaves none pending. */
  lemma ActionRestoresInv(m: Machine, now: u32, tx: Commands.TransmissionResult)
    requires Settled(m) && m.pfeile.ui.selectedAction != PH.ACTION_REIHENFOLGE
    ensures Inv(PfeileAction(m, now, tx).0)
  {
  }

  /** Fresh button states keep the invariant, which fixes only their number. */
  lemma LoopCycleKeepsInv(m: Machine, i: Input)
    requires Inv(m) && |i.buttons| == COUNT as int
    ensures Inv(LoopCycle(m, i))
  {
    var m0 := m.(buttons := i.buttons);
    assert Inv(m0);
    CycleKeepsInv(m0, i.now, i.answered, i.tx);
  }

  /** Every step of a trace stays or follows a documented edge. */
  predicate Steps(v: seq<SystemState>)
  {
    forall k :: 0 <= k < |v| - 1 ==> v[k] == v[k + 1] || DocumentedEdge(v[k], v[k + 1])
  }

  /** A permitted first step in front of a permitted trace gives a permitted trace. */
  lemma StepsCons(a: SystemState, w: seq<SystemState>)
    requires |w| > 0 && (a == w[0] || DocumentedEdge(a, w[0])) && Steps(w)
    ensures Steps([a] + w)
  {
    var v := [a] + w;
    forall k | 0 <= k < |v| - 1
      ensures v[k] == v[k + 1] || DocumentedEdge(v[k], v[k + 1])
    {
      if k > 0 {
        assert v[k] == w[k - 1] && v[k + 1] == w[k];
      }
    }
  }

  /** Along any series of loop cycles, whatever the buttons, the clock and the radio
      return, the controller only ever moves along the documented edges. */
  lemma {:induction false} RunFollowsGraph(m: Machine, inputs: seq<Input>)
    requires Inv(m) && WellFormed(inputs)
    ensures Steps(Visited(m, inputs))
    decreases |inputs|
  {
    if inputs != [] {
      var i := inputs[0];
      var m0 := m.(buttons := i.buttons);
      assert Inv(m0);
      LoopCycleKeepsInv(m, i);
      CycleFollowsGraph(m0, i.now, i.answered, i.tx);
      var m1 := LoopCycle(m, i);
      assert WellFormed(inputs[1..]) by {
        forall k | 0 <= k < |inputs[1..]| ensures |inputs[1..][k].buttons| == COUNT as int {
          assert inputs[1..][k] == inputs[k + 1];
        }
      }
      RunFollowsGraph(m1, inputs[1..]);
      StepsCons(m.mode.current, Visited(m1, inputs[1..]));
      assert Visited(m, inputs) == [m.mode.current] + Visited(m1, inputs[1..]);
    }
  }

  /** The constructed state satisfies the invariant. */
  lemma InitialInv(lastCheck: u32, group: GroupRotation.GroupState, bs: seq<ButtonState>)
    requires |bs| == COUNT as int
    ensures Inv(Initial(lastCheck, group, bs))
  {
  }
}
