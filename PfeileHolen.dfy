/** The "Pfeile holen" (collect arrows) menu shown between two ends: a row of
    action buttons with a wrapping cursor, a four-slot history of connection probes,
    and the sender's battery gauge. */
module PfeileHolen {
  import opened Types
  import opened Buttons
  import SenderConfig

  /** PfeileHolenAction codes; `selectedAction` holds the code, as the source's
      `static_cast` from the cursor position does. */
  const ACTION_NONE: u8 := 0xFF
  const ACTION_NAECHSTE_PASSE: u8 := 0
  const ACTION_REIHENFOLGE: u8 := 1
  const ACTION_NEUSTART: u8 := 2

  /** Slots of the ping history ring buffer. */
  const PING_SLOTS: u8 := 4

  /** The menu's fields (display bookkeeping of the selective redraw left out),
      grouped by the part of the screen they belong to. */
  datatype PfeileState = PfeileState(ui: MenuUi, pings: PingRing, battery: BatteryStatus,
                                     tournament: TournamentView)

  /** The button row and the redraw requests. */
  datatype MenuUi = MenuUi(cursorPosition: u8, selectedAction: u8, needsUpdate: bool, firstDraw: bool)

  /** The connection icon: the latest probe result and the four-slot history. */
  datatype PingRing = PingRing(connectionOk: bool, history: seq<bool>, index: u8, updated: bool)

  /** The battery icon. */
  datatype BatteryStatus = BatteryStatus(voltage: u16, usbPowered: bool, updated: bool)

  /** The group display. */
  datatype TournamentView = TournamentView(shooterCount: u8, group: SenderConfig.GroupType,
                                           position: SenderConfig.Position, changed: bool)

  /** The ring buffer is in shape and the cursor on one of the (at most) three buttons. */
  predicate Valid(p: PfeileState)
  {
    |p.pings.history| == PING_SLOTS as int && p.pings.index < PING_SLOTS && p.ui.cursorPosition < 3
  }

  const NoPings: seq<bool> := [false, false, false, false]

  const Initial := PfeileState(MenuUi(0, ACTION_NONE, true, true), PingRing(false, NoPings, 0, false),
                               BatteryStatus(0, true, false),
                               TournamentView(SenderConfig.SHOOTERS_1_2, SenderConfig.GroupAB, SenderConfig.Pos1, false))

  /** Buttons on screen: "Nächste Passe" and "Neustart", plus "Reihenfolge" with 3-4 shooters. */
  function NumButtons(shooterCount: u8): (n: u8)
    ensures n == 2 || n == 3
    ensures n == 3 <==> shooterCount == SenderConfig.SHOOTERS_3_4
  {
    if shooterCount == 4 then 3 else 2
  }

  /** begin(): back to the first button, no action, empty history, USB power assumed.
      The tournament configuration is kept. */
  function PfeileBegin(p: PfeileState): PfeileState
  {
    PfeileState(MenuUi(0, ACTION_NONE, true, true), PingRing(false, NoPings, 0, false),
                BatteryStatus(0, true, false), p.tournament.(changed := false))
  }

  /** The effect of one polled key: LEFT/RIGHT move the cursor with wrap-around, OK
      selects the action under the cursor; with 1-2 shooters the second button is
      "Neustart". */
  function PfeileOnKey(p: PfeileState, key: Key): PfeileState
  {
    var numButtons := NumButtons(p.tournament.shooterCount);
    var ui := p.ui;
    match key
    case KeyLeft =>
      p.(ui := ui.(cursorPosition := if ui.cursorPosition == 0 then numButtons - 1 else ui.cursorPosition - 1,
                   needsUpdate := true))
    case KeyRight =>
      p.(ui := ui.(cursorPosition := (ui.cursorPosition + 1) % numButtons, needsUpdate := true))
    case KeyOk =>
      p.(ui := ui.(selectedAction :=
                     if p.tournament.shooterCount == SenderConfig.SHOOTERS_1_2 && ui.cursorPosition == 1
                     then ACTION_NEUSTART
                     else ui.cursorPosition))
    case NoKey => p
  }

  /** update(): poll one key in the order LEFT, RIGHT, OK and act on it. */
  function PfeileUpdate(p: PfeileState, bs: seq<ButtonState>): (PfeileState, seq<ButtonState>)
    requires |bs| == COUNT as int
  {
    var (key, bs') := PollKeys(bs);
    (PfeileOnKey(p, key), bs')
  }

  /** draw(): the flags that asked for a partial redraw are consumed by it. */
  function PfeileDraw(p: PfeileState): PfeileState
  {
    var ui := p.ui.(firstDraw := false, needsUpdate := false);
    if p.ui.firstDraw then p.(ui := ui)
    else PfeileState(ui, p.pings.(updated := false), p.battery.(updated := false),
                     p.tournament.(changed := false))
  }

  function ActionReset(p: PfeileState): PfeileState
  {
    p.(ui := p.ui.(selectedAction := ACTION_NONE))
  }

  /** updateConnectionStatus(): store one probe result in the ring buffer. */
  function ConnectionUpdate(p: PfeileState, isConnected: bool): PfeileState
    requires Valid(p)
  {
    p.(pings := PingRing(isConnected, p.pings.history[p.pings.index := isConnected],
                         (p.pings.index + 1) % PING_SLOTS, true),
       ui := p.ui.(needsUpdate := true))
  }

  /** A series of probe results, oldest first. */
  function ConnectionUpdates(p: PfeileState, results: seq<bool>): (r: PfeileState)
    requires Valid(p)
    ensures Valid(r)
  {
    if results == [] then p
    else ConnectionUpdate(ConnectionUpdates(p, results[..|results| - 1]), results[|results| - 1])
  }

  function BatteryUpdate(p: PfeileState, millivolts: u16, usbPowered: bool): PfeileState
  {
    p.(battery := BatteryStatus(millivolts, usbPowered, true), ui := p.ui.(needsUpdate := true))
  }

  /** setTournamentConfig(): always stores, but only flags a redraw on a change. */
  function TournamentConfig(p: PfeileState, shooters: u8, group: SenderConfig.GroupType,
                            position: SenderConfig.Position): PfeileState
  {
    var t := p.tournament;
    var changed := t.group != group || t.position != position || t.shooterCount != shooters;
    p.(tournament := TournamentView(shooters, group, position, t.changed || changed),
       ui := if changed then p.ui.(needsUpdate := true) else p.ui)
  }

  /** Number of successful probes among the slots. */
  function CountTrue(s: seq<bool>): nat
  {
    if s == [] then 0 else CountTrue(s[..|s| - 1]) + (if s[|s| - 1] then 1 else 0)
  }

  // ---------------------------------------------------------------------
  // Battery gauge (drawBatteryIcon)
  // ---------------------------------------------------------------------

  /** Width of the gauge's fill area: body width 16 minus a 2-pixel border each side. */
  const FILL_AREA: u16 := 12

  datatype GaugeColor = GaugeGreen | GaugeYellow | GaugeRed

  /** Charge in percent, linear between VOLTAGE_MIN_MV and VOLTAGE_MAX_MV. */
  function BatteryPercent(v: u16): (p: u16)
    ensures p <= 100
  {
    if v >= SenderConfig.VOLTAGE_MAX_MV then 100
    else if v <= SenderConfig.VOLTAGE_MIN_MV then 0
    else ((v - SenderConfig.VOLTAGE_MIN_MV) * 100) / (SenderConfig.VOLTAGE_MAX_MV - SenderConfig.VOLTAGE_MIN_MV)
  }

  /** The same expression as evaluated on the 8-bit AVR target, where `uint16_t` is
      `unsigned int` and the product is taken modulo 2^16. */
  function BatteryPercentAvr(v: u16): (p: u16)
    ensures p <= 100
  {
    if v >= SenderConfig.VOLTAGE_MAX_MV then 100
    else if v <= SenderConfig.VOLTAGE_MIN_MV then 0
    else (((v - SenderConfig.VOLTAGE_MIN_MV) * 100) % 0x1_0000)
         / (SenderConfig.VOLTAGE_MAX_MV - SenderConfig.VOLTAGE_MIN_MV)
  }

  function FillWidth(percent: u16): (w: u16)
    requires percent <= 100
    ensures w <= FILL_AREA
    ensures w == 0 <==> percent < 9
    ensures w == FILL_AREA <==> percent == 100
  {
    (FILL_AREA * percent) / 100
  }

  function GaugeColorOf(percent: u16): GaugeColor
  {
    if percent > 50 then GaugeGreen else if percent > 20 then GaugeYellow else GaugeRed
  }

  /** The gauge with the intended percentage: full and green on USB power, otherwise
      filled by charge. */
  function Gauge(millivolts: u16, usbPowered: bool): (r: (u16, GaugeColor))
    ensures r.0 <= FILL_AREA
  {
    if usbPowered then (FILL_AREA, GaugeGreen)
    else
      var percent := BatteryPercent(millivolts);
      (FillWidth(percent), GaugeColorOf(percent))
  }

  // ---------------------------------------------------------------------
  // The object
  // ---------------------------------------------------------------------

  class PfeileHolenMenu {
    const buttons: ButtonManager
    const pingHistory: array<bool>
    var cursorPosition: u8
    var selectedAction: u8
    var needsUpdate: bool
    var firstDraw: bool
    var connectionOk: bool
    var pingHistoryIndex: u8
    var pingHistoryUpdated: bool
    var batteryVoltage: u16
    var isUsbPowered: bool
    var batteryUpdated: bool
    var shooterCount: u8
    var currentGroup: SenderConfig.GroupType
    var currentPosition: SenderConfig.Position
    var groupConfigChanged: bool

    function State(): PfeileState
      reads this, pingHistory
    {
      PfeileState(Ui(), Pings(), Battery(), Tournament())
    }

    function Ui(): MenuUi
      reads this
    {
      MenuUi(cursorPosition, selectedAction, needsUpdate, firstDraw)
    }

    function Pings(): PingRing
      reads this, pingHistory
    {
      PingRing(connectionOk, pingHistory[..], pingHistoryIndex, pingHistoryUpdated)
    }

    function Battery(): BatteryStatus
      reads this
    {
      BatteryStatus(batteryVoltage, isUsbPowered, batteryUpdated)
    }

    function Tournament(): TournamentView
      reads this
    {
      TournamentView(shooterCount, currentGroup, currentPosition, groupConfigChanged)
    }

    constructor (btnMgr: ButtonManager)
      ensures buttons == btnMgr && fresh(pingHistory)
      ensures State() == Initial
    {
      buttons := btnMgr;
      cursorPosition, selectedAction, needsUpdate, firstDraw := 0, ACTION_NONE, true, true;
      connectionOk, pingHistoryIndex, pingHistoryUpdated := false, 0, false;
      batteryVoltage, isUsbPowered, batteryUpdated := 0, true, false;
      shooterCount, currentGroup, currentPosition := 2, SenderConfig.GroupAB, SenderConfig.Pos1;
      groupConfigChanged := false;
      var h := new bool[PING_SLOTS];
      for i := 0 to PING_SLOTS
        invariant forall j :: 0 <= j < i ==> !h[j]
      {
        h[i] := false;
      }
      pingHistory := h;
    }

    method Begin()
      requires pingHistory.Length == PING_SLOTS as int
      modifies this, pingHistory
      ensures State() == PfeileBegin(old(State()))
    {
      ghost var t := Tournament().(changed := false);
      ClearHistory();
      cursorPosition, selectedAction, needsUpdate, firstDraw := 0, ACTION_NONE, true, true;
      connectionOk, pingHistoryIndex, pingHistoryUpdated := false, 0, false;
      batteryVoltage, isUsbPowered, batteryUpdated := 0, true, false;
      groupConfigChanged := false;
      assert Tournament() == t;
    }

    /** The history-clearing loop of begin(). */
    method ClearHistory()
      requires pingHistory.Length == PING_SLOTS as int
      modifies pingHistory
      ensures pingHistory[..] == NoPings
    {
      for i := 0 to PING_SLOTS
        invariant forall j :: 0 <= j < i ==> !pingHistory[j]
      {
        pingHistory[i] := false;
      }
    }

    method Update()
      requires buttons.Valid()
      modifies this, buttons.buttons
      ensures (State(), buttons.buttons[..]) == PfeileUpdate(old(State()), old(buttons.buttons[..]))
    {
      var numButtons := if shooterCount == 4 then 3 else 2;
      var maxPosition := numButtons - 1;
      var key := buttons.ReadKey();
      if key == KeyLeft {
        if cursorPosition == 0 {
          cursorPosition := maxPosition;
        } else {
          cursorPosition := cursorPosition - 1;
        }
        needsUpdate := true;
      } else if key == KeyRight {
        cursorPosition := (cursorPosition + 1) % numButtons;
        needsUpdate := true;
      } else if key == KeyOk {
        if shooterCount == 2 && cursorPosition == 1 {
          selectedAction := ACTION_NEUSTART;
        } else {
          selectedAction := cursorPosition;
        }
      }
      assert Pings() == old(Pings()) && Battery() == old(Battery()) && Tournament() == old(Tournament());
    }

    method Draw()
      modifies this
      ensures State() == PfeileDraw(old(State()))
    {
      if firstDraw {
        firstDraw := false;
      } else {
        pingHistoryUpdated := false;
        batteryUpdated := false;
        groupConfigChanged := false;
      }
      needsUpdate := false;
    }

    method ResetAction()
      modifies this
      ensures State() == ActionReset(old(State()))
    {
      selectedAction := ACTION_NONE;
    }

    method UpdateConnectionStatus(isConnected: bool)
      requires Valid(State())
      modifies this, pingHistory
      ensures State() == ConnectionUpdate(old(State()), isConnected)
    {
      pingHistory[pingHistoryIndex] := isConnected;
      pingHistoryIndex := (pingHistoryIndex + 1) % PING_SLOTS;
      connectionOk := isConnected;
      pingHistoryUpdated := true;
      needsUpdate := true;
    }

    method UpdateBatteryStatus(millivolts: u16, usbPowered: bool)
      modifies this
      ensures State() == BatteryUpdate(old(State()), millivolts, usbPowered)
    {
      batteryVoltage, isUsbPowered := millivolts, usbPowered;
      batteryUpdated, needsUpdate := true, true;
    }

    method SetTournamentConfig(shooters: u8, group: SenderConfig.GroupType, position: SenderConfig.Position)
      modifies this
      ensures State() == TournamentConfig(old(State()), shooters, group, position)
    {
      var changed := currentGroup != group || currentPosition != position || shooterCount != shooters;
      shooterCount, currentGroup, currentPosition := shooters, group, position;
      if changed {
        groupConfigChanged, needsUpdate := true, true;
      }
    }

    /** The "n/4" figure under the connection icon: the slots holding an acknowledged probe. */
    method SuccessfulPings() returns (n: u8)
      requires pingHistory.Length == PING_SLOTS as int
      ensures n as int == CountTrue(pingHistory[..])
      ensures n <= PING_SLOTS
    {
      n := 0;
      for i := 0 to PING_SLOTS
        invariant n as int == CountTrue(pingHistory[..i]) && n as int <= i
      {
        assert pingHistory[..i + 1][..i] == pingHistory[..i];
        if pingHistory[i] {
          n := n + 1;
        }
      }
      assert pingHistory[..PING_SLOTS] == pingHistory[..];
    }
  }

  // ---------------------------------------------------------------------
  // Properties
  // ---------------------------------------------------------------------

  /** The cursor stays below the number of buttons shown, wrapping at both ends. */
  lemma CursorWraps(p: PfeileState, key: Key)
    requires p.ui.cursorPosition < NumButtons(p.tournament.shooterCount)
    ensures var p' := PfeileOnKey(p, key);
      var n := NumButtons(p.tournament.shooterCount);
      && p'.ui.cursorPosition < n
      && (key == KeyLeft && p.ui.cursorPosition == 0 ==> p'.ui.cursorPosition == n - 1)
      && (key == KeyRight && p.ui.cursorPosition == n - 1 ==> p'.ui.cursorPosition == 0)
      && (key == KeyLeft && p.ui.cursorPosition > 0 ==> p'.ui.cursorPosition == p.ui.cursorPosition - 1)
      && (key == KeyRight && p.ui.cursorPosition < n - 1 ==> p'.ui.cursorPosition == p.ui.cursorPosition + 1)
  {
  }

  /** update keeps the ring buffer and cursor in shape, even when the shooter count
      changed under a cursor on the third button. */
  lemma UpdateKeepsValid(p: PfeileState, key: Key)
    requires Valid(p)
    ensures Valid(PfeileOnKey(p, key))
  {
  }

  /** begin, draw and resetAction keep the ring buffer and cursor in shape. */
  lemma MenuOpsKeepValid(p: PfeileState)
    requires Valid(p)
    ensures Valid(PfeileBegin(p))
    ensures Valid(PfeileDraw(p))
    ensures Valid(ActionReset(p))
  {
  }

  /** Storing a probe result keeps the ring buffer in shape. */
  lemma ConnectionUpdateKeepsValid(p: PfeileState, b: bool)
    requires Valid(p)
    ensures Valid(ConnectionUpdate(p, b))
  {
  }

  /** The battery setter keeps the ring buffer and cursor in shape. */
  lemma BatteryUpdateKeepsValid(p: PfeileState, v: u16, usb: bool)
    requires Valid(p)
    ensures Valid(BatteryUpdate(p, v, usb))
  {
  }

  /** The tournament setter keeps the ring buffer and cursor in shape. */
  lemma TournamentConfigKeepsValid(p: PfeileState, shooters: u8, g: SenderConfig.GroupType,
                                   pos: SenderConfig.Position)
    requires Valid(p)
    ensures Valid(TournamentConfig(p, shooters, g, pos))
  {
  }

  /** OK picks the action of the button under the cursor; with 1-2 shooters the
      second button is "Neustart", so "Reihenfolge" cannot be selected. */
  lemma OkSelectsAction(p: PfeileState)
    requires SenderConfig.ValidShooterCount(p.tournament.shooterCount) && p.ui.cursorPosition < NumButtons(p.tournament.shooterCount)
    ensures var p' := PfeileOnKey(p, KeyOk);
      && p'.ui.cursorPosition == p.ui.cursorPosition
      && (p.tournament.shooterCount == SenderConfig.SHOOTERS_3_4 ==> p'.ui.selectedAction == p.ui.cursorPosition)
      && (p.tournament.shooterCount != SenderConfig.SHOOTERS_3_4 ==>
            p'.ui.selectedAction == (if p.ui.cursorPosition == 0 then ACTION_NAECHSTE_PASSE else ACTION_NEUSTART))
  {
  }

  /** Only OK touches the selected action, and OK does not move the cursor. */
  lemma ArrowsKeepAction(p: PfeileState, key: Key)
    requires key != KeyOk
    ensures PfeileOnKey(p, key).ui.selectedAction == p.ui.selectedAction
  {
  }

  /** begin() empties the history and selects nothing, keeping the tournament configuration. */
  lemma BeginClears(p: PfeileState)
    ensures var p' := PfeileBegin(p);
      && CountTrue(p'.pings.history) == 0 && p'.pings.index == 0 && |p'.pings.history| == PING_SLOTS as int
      && p'.ui.cursorPosition == 0 && p'.ui.selectedAction == ACTION_NONE
      && p'.tournament.shooterCount == p.tournament.shooterCount && p'.tournament.group == p.tournament.group
      && p'.tournament.position == p.tournament.position
  {
    CountTrueNone(NoPings);
  }

  /** A history without acknowledgements counts zero. */
  lemma {:induction false} CountTrueNone(s: seq<bool>)
    requires forall i :: 0 <= i < |s| ==> !s[i]
    ensures CountTrue(s) == 0
  {
    if s != [] {
      CountTrueNone(s[..|s| - 1]);
    }
  }

  /** One probe result overwrites the oldest slot only and becomes the latest entry. */
  lemma ConnectionUpdateRing(p: PfeileState, b: bool)
    requires Valid(p)
    ensures var p' := ConnectionUpdate(p, b);
      && p'.pings.connectionOk == b
      && p'.pings.history[(p'.pings.index + 3) % 4] == b
      && (forall i :: 0 <= i < 4 && i != p.pings.index as int ==> p'.pings.history[i] == p.pings.history[i])
      && p'.pings.index as int == (p.pings.index as int + 1) % 4
  {
  }

  /** The count of true slots after a write: the old slot's value out, the new one in. */
  lemma {:induction false} CountTrueUpdate(s: seq<bool>, i: int, b: bool)
    requires 0 <= i < |s|
    ensures CountTrue(s[i := b]) == CountTrue(s) - (if s[i] then 1 else 0) + (if b then 1 else 0)
    decreases |s|
  {
    var t := s[i := b];
    if i == |s| - 1 {
      assert t[..|t| - 1] == s[..|s| - 1];
    } else {
      assert t[..|t| - 1] == s[..|s| - 1][i := b];
      CountTrueUpdate(s[..|s| - 1], i, b);
    }
  }

  /** The count never exceeds the number of slots. */
  lemma {:induction false} CountTrueBound(s: seq<bool>)
    ensures CountTrue(s) <= |s|
  {
    if s != [] {
      CountTrueBound(s[..|s| - 1]);
    }
  }

  /** Reference definition of the ring buffer: the i-th of a series of writes
      starting at slot k lands in slot (k + i) mod 4. */
  function RingWrites(h: seq<bool>, k: int, results: seq<bool>): (r: seq<bool>)
    requires |h| == 4 && 0 <= k < 4
    ensures |r| == 4
  {
    if results == [] then h
    else RingWrites(h, k, results[..|results| - 1])[(k + |results| - 1) % 4 := results[|results| - 1]]
  }

  /** The buffer holds the latest four probe results: result i of the series is still
      in its slot as long as fewer than four results followed it. */
  lemma {:induction false} RingHoldsLatest(h: seq<bool>, k: int, results: seq<bool>, i: int)
    requires |h| == 4 && 0 <= k < 4
    requires 0 <= i < |results| && |results| - 4 <= i
    ensures RingWrites(h, k, results)[(k + i) % 4] == results[i]
    decreases |results|
  {
    var n := |results|;
    if i < n - 1 {
      var prefix := results[..n - 1];
      SlotsDiffer(k, i, n - 1);
      RingHoldsLatest(h, k, prefix, i);
      assert prefix[i] == results[i];
    }
  }

  lemma SlotsDiffer(k: int, i: int, m: int)
    requires 0 <= i < m < i + 4
    ensures (k + i) % 4 != (k + m) % 4
  {
  }

  /** The write index advances by one slot per probe result. */
  lemma {:induction false} RingIndex(p: PfeileState, results: seq<bool>)
    requires Valid(p)
    ensures ConnectionUpdates(p, results).pings.index as int ==
              (p.pings.index as int + |results|) % 4
    decreases |results|
  {
    if results != [] {
      RingIndex(p, results[..|results| - 1]);
    }
  }

  /** The menu's connection updates write exactly the reference ring, starting at the
      menu's write index. */
  lemma {:induction false} ConnectionUpdatesAreRing(p: PfeileState, results: seq<bool>)
    requires Valid(p)
    ensures ConnectionUpdates(p, results).pings.history ==
              RingWrites(p.pings.history, p.pings.index as int, results)
    decreases |results|
  {
    if results != [] {
      var prefix := results[..|results| - 1];
      ConnectionUpdatesAreRing(p, prefix);
      RingIndex(p, prefix);
    }
  }

  /** connectionOk reports the latest probe result. */
  lemma LatestResultReported(p: PfeileState, results: seq<bool>)
    requires Valid(p) && results != []
    ensures ConnectionUpdates(p, results).pings.connectionOk == results[|results| - 1]
  {
  }

  /** setTournamentConfig stores the values and flags a redraw exactly when one of them changed. */
  lemma TournamentConfigFlags(p: PfeileState, shooters: u8, g: SenderConfig.GroupType,
                              pos: SenderConfig.Position)
    ensures var p' := TournamentConfig(p, shooters, g, pos);
      && p'.tournament.shooterCount == shooters && p'.tournament.group == g && p'.tournament.position == pos
      && (p'.tournament.changed != p.tournament.changed || p'.ui.needsUpdate != p.ui.needsUpdate ==>
            p.tournament.shooterCount != shooters || p.tournament.group != g || p.tournament.position != pos)
      && (p.tournament.shooterCount != shooters || p.tournament.group != g || p.tournament.position != pos ==>
            p'.tournament.changed && p'.ui.needsUpdate)
  {
  }

  /** draw consumes the redraw request and, after the first draw, the partial-redraw flags. */
  lemma DrawClearsFlags(p: PfeileState)
    ensures var p' := PfeileDraw(p);
      && !p'.ui.needsUpdate && !p'.ui.firstDraw
      && (!p.ui.firstDraw ==> !p'.pings.updated && !p'.battery.updated && !p'.tournament.changed)
      && p'.pings.history == p.pings.history && p'.ui.cursorPosition == p.ui.cursorPosition
  {
  }

  /** Full at or above 9.6 V, empty at or below 6.0 V, and the floor of the linear
      interpolation in between. */
  lemma BatteryPercentShape(v: u16)
    ensures BatteryPercent(v) == 100 <==> v >= SenderConfig.VOLTAGE_MAX_MV
    ensures v <= SenderConfig.VOLTAGE_MIN_MV ==> BatteryPercent(v) == 0
    ensures SenderConfig.VOLTAGE_MIN_MV < v < SenderConfig.VOLTAGE_MAX_MV ==>
      BatteryPercent(v) * 3600 <= (v - 6000) * 100 < (BatteryPercent(v) + 1) * 3600
  {
  }

  /** More voltage never shows less charge. */
  lemma BatteryPercentMonotone(v1: u16, v2: u16)
    requires v1 <= v2
    ensures BatteryPercent(v1) <= BatteryPercent(v2)
  {
  }

  /** The gauge colour bands in millivolts on battery power: green from 7836 mV,
      yellow from 6756 mV, red below. */
  lemma GaugeBands(v: u16)
    ensures Gauge(v, false).1 == GaugeGreen <==> v >= 7836
    ensures Gauge(v, false).1 == GaugeYellow <==> 6756 <= v < 7836
    ensures Gauge(v, false).1 == GaugeRed <==> v < 6756
  {
    BatteryPercentShape(v);
  }

  /** As evaluated on the AVR target the percentage never exceeds 18 between the
      limits, so the battery gauge is red there whatever the charge. */
  lemma AvrPercentStaysLow(v: u16)
    requires SenderConfig.VOLTAGE_MIN_MV < v < SenderConfig.VOLTAGE_MAX_MV
    ensures BatteryPercentAvr(v) <= 18
    ensures GaugeColorOf(BatteryPercentAvr(v)) == GaugeRed
  {
  }

  /** A concrete voltage where the AVR evaluation differs from the intended percentage:
      7.0 V is 27 % but the wrapped product gives 9 %; one millivolt above 6655 mV the
      shown charge drops from 18 % to 0 %. */
  lemma AvrPercentWraps()
    ensures BatteryPercent(7000) == 27 && BatteryPercentAvr(7000) == 9
    ensures BatteryPercentAvr(6655) == 18 && BatteryPercentAvr(6656) == 0
  {
  }

  /** Up to 6655 mV the product fits in 16 bits and both evaluations agree. */
  lemma AvrAgreesWhileNoWrap(v: u16)
    requires v <= 6655
    ensures BatteryPercentAvr(v) == BatteryPercent(v)
  {
  }
}
